/** The canonical JSON printer: objects in key order, no spaces, strings escaped as JSON.stringify does.
    It is proved to be a canonical form by a reader of compact JSON, which reads every printed text back. */
module CanonicalJson {
  import opened Common

  /** UTF-16 code units, the elements of a JavaScript string. */
  type Unit = u: int | 0 <= u < 0x1_0000

  type JsString = seq<Unit>

  /** JSON values. A number is the literal JSON.stringify prints for it; members keep insertion order. */
  datatype Json =
    | Null
    | Bool(value: bool)
    | Number(literal: JsString)
    | String(text: JsString)
    | Array(items: seq<Json>)
    | Object(members: seq<(JsString, Json)>)

  predicate NumberUnit(u: Unit) {
    48 <= u <= 57 || u in {43, 45, 46, 69, 101}
  }

  predicate ValidNumber(literal: JsString) {
    && literal != [] && (48 <= literal[0] <= 57 || literal[0] == 45)
    && forall i :: 0 <= i < |literal| ==> NumberUnit(literal[i])
  }

  predicate DistinctKeys<V>(members: seq<(JsString, V)>) {
    forall i, j :: 0 <= i < j < |members| ==> members[i].0 != members[j].0
  }

  predicate Valid(v: Json) {
    match v
    case Number(literal) => ValidNumber(literal)
    case Array(items) => forall i :: 0 <= i < |items| ==> Valid(items[i])
    case Object(members) => DistinctKeys(members) && forall i :: 0 <= i < |members| ==> Valid(members[i].1)
    case _ => true
  }

  /** Membership under a name of its own, so that having one member does not set off the search for its
      counterpart, and that one's, and so on. */
  predicate Listed<T(==)>(m: T, members: seq<T>) {
    m in members
  }

  /** Equal up to the order of object keys, at every depth. */
  ghost predicate Same(a: Json, b: Json)
    decreases a
  {
    match a
    case Array(items) =>
      b.Array? && |items| == |b.items| && forall i :: 0 <= i < |items| ==> Same(items[i], b.items[i])
    case Object(members) =>
      && b.Object?
      && (forall m :: Listed(m, members) ==> exists n :: n in b.members && m.0 == n.0 && Same(m.1, n.1))
      && (forall n :: Listed(n, b.members) ==> exists m :: m in members && m.0 == n.0 && Same(m.1, n.1))
    case _ => a == b
  }

  // ---------------------------------------------------------------- strings

  const QUOTE: Unit := 34
  const BACKSLASH: Unit := 92

  function HexUnit(n: int): Unit
    requires 0 <= n < 16
  {
    if n < 10 then 48 + n else 87 + n
  }

  function HexValue(u: Unit): (r: Option<int>)
    ensures r.Some? ==> 0 <= r.value < 16
  {
    if 48 <= u <= 57 then Some(u - 48)
    else if 97 <= u <= 102 then Some(u - 87)
    else if 65 <= u <= 70 then Some(u - 55)
    else None
  }

  predicate High(u: Unit) {
    0xD800 <= u <= 0xDBFF
  }

  predicate Low(u: Unit) {
    0xDC00 <= u <= 0xDFFF
  }

  /** The halves of a pair, by their six leading bits: 110110 and 110111. */
  lemma SurrogatesExactly(u: Unit)
    ensures High(u) <==> u / 1024 == 0x36
    ensures Low(u) <==> u / 1024 == 0x37
  {
  }

  function UnicodeEscape(u: Unit): JsString {
    [BACKSLASH, 117, HexUnit(u / 4096), HexUnit(u / 256 % 16), HexUnit(u / 16 % 16), HexUnit(u % 16)]
  }

  /** One code unit that is not half of a surrogate pair. */
  function EscapedUnit(u: Unit): JsString {
    if u == 8 then [BACKSLASH, 98]
    else if u == 9 then [BACKSLASH, 116]
    else if u == 10 then [BACKSLASH, 110]
    else if u == 12 then [BACKSLASH, 102]
    else if u == 13 then [BACKSLASH, 114]
    else if u == QUOTE || u == BACKSLASH then [BACKSLASH, u]
    else if u < 32 || High(u) || Low(u) then UnicodeEscape(u)
    else [u]
  }

  predicate StartsWithPair(s: JsString) {
    |s| >= 2 && High(s[0]) && Low(s[1])
  }

  function Escaped(s: JsString): JsString {
    if s == [] then []
    else if StartsWithPair(s) then s[..2] + Escaped(s[2..])
    else EscapedUnit(s[0]) + Escaped(s[1..])
  }

  function Quoted(s: JsString): JsString {
    [QUOTE] + Escaped(s) + [QUOTE]
  }

  /** One code unit of a JSON string, escaped in any way JSON allows, and what follows it. */
  function ReadUnit(text: JsString): (r: Option<(Unit, JsString)>)
    ensures r.Some? ==> |r.value.1| < |text|
  {
    if text == [] || text[0] == QUOTE || text[0] < 32 then None
    else if text[0] != BACKSLASH then Some((text[0], text[1..]))
    else if |text| < 2 then None
    else if text[1] == 98 then Some((8, text[2..]))
    else if text[1] == 116 then Some((9, text[2..]))
    else if text[1] == 110 then Some((10, text[2..]))
    else if text[1] == 102 then Some((12, text[2..]))
    else if text[1] == 114 then Some((13, text[2..]))
    else if text[1] in {QUOTE, BACKSLASH, 47} then Some((text[1], text[2..]))
    else if text[1] != 117 || |text| < 6 then None
    else
      var a :- HexValue(text[2]);
      var b :- HexValue(text[3]);
      var c :- HexValue(text[4]);
      var d :- HexValue(text[5]);
      Some((4096 * a + 256 * b + 16 * c + d, text[6..]))
  }

  /** The string up to its closing quote, and what follows. */
  function ReadString(text: JsString): (r: Option<(JsString, JsString)>)
    ensures r.Some? ==> |r.value.1| < |text|
    decreases |text|
  {
    if text == [] then None
    else if text[0] == QUOTE then Some(([], text[1..]))
    else
      var (unit, rest) :- ReadUnit(text);
      var (more, after) :- ReadString(rest);
      Some(([unit] + more, after))
  }

  lemma HexDigitsOf(u: Unit)
    ensures 4096 * (u / 4096) + 256 * (u / 256 % 16) + 16 * (u / 16 % 16) + u % 16 == u
    ensures u / 4096 < 16
  {
  }

  lemma ReadUnitUndoes(u: Unit, rest: JsString)
    ensures ReadUnit(EscapedUnit(u) + rest) == Some((u, rest))
    ensures EscapedUnit(u)[0] != QUOTE
  {
    var text := EscapedUnit(u) + rest;
    HexDigitsOf(u);
    assert text[|EscapedUnit(u)|..] == rest;
  }

  lemma ReadStringStep(text: JsString, unit: Unit, tail: JsString, more: JsString, after: JsString)
    requires text != [] && text[0] != QUOTE
    requires ReadUnit(text) == Some((unit, tail)) && ReadString(tail) == Some((more, after))
    ensures ReadString(text) == Some(([unit] + more, after))
  {
  }

  lemma ReadPlainUnit(unit: Unit, tail: JsString, more: JsString, after: JsString)
    requires unit >= 32 && unit != QUOTE && unit != BACKSLASH && ReadString(tail) == Some((more, after))
    ensures ReadString([unit] + tail) == Some(([unit] + more, after))
  {
  }

  lemma ReadEscapedUnit(unit: Unit, tail: JsString, more: JsString, after: JsString)
    requires ReadString(tail) == Some((more, after))
    ensures ReadString(EscapedUnit(unit) + tail) == Some(([unit] + more, after))
  {
    ReadUnitUndoes(unit, tail);
    ReadStringStep(EscapedUnit(unit) + tail, unit, tail, more, after);
  }

  lemma Associates(a: JsString, b: JsString, c: JsString)
    ensures (a + b) + c == a + (b + c)
  {
  }

  lemma EscapedPair(s: JsString, closing: JsString)
    requires StartsWithPair(s)
    ensures Escaped(s) + closing == [s[0]] + ([s[1]] + (Escaped(s[2..]) + closing))
    ensures s == [s[0]] + ([s[1]] + s[2..])
  {
    var pair, more := s[..2], Escaped(s[2..]);
    assert Escaped(s) == pair + more && pair == [s[0]] + [s[1]];
    Associates(pair, more, closing);
    Associates([s[0]], [s[1]], more + closing);
  }

  lemma EscapedHead(s: JsString, closing: JsString)
    requires s != [] && !StartsWithPair(s)
    ensures Escaped(s) + closing == EscapedUnit(s[0]) + (Escaped(s[1..]) + closing)
    ensures s == [s[0]] + s[1..]
  {
    Associates(EscapedUnit(s[0]), Escaped(s[1..]), closing);
  }

  lemma {:induction false} ReadStringUndoes(s: JsString, rest: JsString)
    ensures ReadString(Escaped(s) + ([QUOTE] + rest)) == Some((s, rest))
    decreases |s|
  {
    var closing := [QUOTE] + rest;
    if s == [] {
      ReadClosing(rest);
    } else if StartsWithPair(s) {
      ReadStringUndoes(s[2..], rest);
      var tail := Escaped(s[2..]) + closing;
      EscapedPair(s, closing);
      ReadPlainUnit(s[1], tail, s[2..], rest);
      ReadPlainUnit(s[0], [s[1]] + tail, [s[1]] + s[2..], rest);
    } else {
      ReadStringUndoes(s[1..], rest);
      EscapedHead(s, closing);
      ReadEscapedUnit(s[0], Escaped(s[1..]) + closing, s[1..], rest);
    }
  }

  lemma ReadClosing(rest: JsString)
    ensures ReadString(Escaped([]) + ([QUOTE] + rest)) == Some(([], rest))
  {
    assert Escaped([]) + ([QUOTE] + rest) == [QUOTE] + rest;
    assert ([QUOTE] + rest)[1..] == rest;
  }

  lemma ReadQuoted(s: JsString, rest: JsString)
    ensures Quoted(s) + rest != [] && ReadString((Quoted(s) + rest)[1..]) == Some((s, rest))
  {
    ReadStringUndoes(s, rest);
    assert (Quoted(s) + rest)[1..] == Escaped(s) + ([QUOTE] + rest);
  }

  /** A quoted string says where it ends: nothing else can start the same way. */
  lemma QuotedIsUnambiguous(a: JsString, b: JsString, x: JsString, y: JsString)
    requires Quoted(a) + x == Quoted(b) + y
    ensures a == b && x == y
  {
    ReadQuoted(a, x);
    ReadQuoted(b, y);
  }

  predicate PairedAt(s: JsString, i: nat)
    requires i < |s|
  {
    (High(s[i]) ==> i + 1 < |s| && Low(s[i + 1])) && (Low(s[i]) ==> i > 0 && High(s[i - 1]))
  }

  /** Every high surrogate is followed by a low one, and every low one follows a high one. */
  predicate WellFormed(s: JsString) {
    forall i :: 0 <= i < |s| ==> PairedAt(s, i)
  }

  predicate PlainText(s: JsString) {
    forall i :: 0 <= i < |s| ==> s[i] >= 32 && s[i] != QUOTE && s[i] != BACKSLASH
  }

  lemma WellFormedTail(s: JsString, n: nat)
    requires WellFormed(s) && n <= |s| && (0 < n < |s| ==> !Low(s[n]))
    ensures WellFormed(s[n..])
  {
    forall i | 0 <= i < |s| - n
      ensures PairedAt(s[n..], i)
    {
      assert PairedAt(s, n + i);
    }
  }

  /** What need not be escaped is not: text without quotes, backslashes, control characters and lone surrogates
      stays as it is. */
  lemma {:induction false} PlainTextStays(s: JsString)
    requires PlainText(s) && WellFormed(s)
    ensures Escaped(s) == s
  {
    if s != [] {
      var n := if StartsWithPair(s) then 2 else 1;
      assert PairedAt(s, 0) && (n < |s| ==> PairedAt(s, n));
      WellFormedTail(s, n);
      PlainTextStays(s[n..]);
      assert s == s[..n] + s[n..];
      assert n == 1 ==> !High(s[0]) && !Low(s[0]) && s[..1] == [s[0]];
    }
  }

  lemma WellFormedJoin(a: JsString, b: JsString)
    requires WellFormed(a) && WellFormed(b)
    ensures WellFormed(a + b)
  {
    forall i | 0 <= i < |a + b|
      ensures PairedAt(a + b, i)
    {
      assert if i < |a| then PairedAt(a, i) else PairedAt(b, i - |a|);
    }
  }

  /** What is printed holds no lone surrogate, whatever the string held. */
  lemma {:induction false} EscapedIsWellFormed(s: JsString)
    ensures WellFormed(Escaped(s))
  {
    if StartsWithPair(s) {
      EscapedIsWellFormed(s[2..]);
      WellFormedJoin(s[..2], Escaped(s[2..]));
    } else if s != [] {
      EscapedIsWellFormed(s[1..]);
      WellFormedJoin(EscapedUnit(s[0]), Escaped(s[1..]));
    }
  }

  /** An escape is as brief as JSON allows, nothing shorter reads as the same unit, and in lower case. */
  lemma EscapesAreShortest(u: Unit, text: JsString)
    requires ReadUnit(text) == Some((u, [])) && !High(u) && !Low(u)
    ensures |EscapedUnit(u)| <= |text|
    ensures |EscapedUnit(u)| > 1 ==> forall i :: 0 <= i < |EscapedUnit(u)| ==> !(65 <= EscapedUnit(u)[i] <= 90)
  {
  }

  // ---------------------------------------------------------------- keys

  /** The order JavaScript sorts strings in: by code unit. */
  predicate KeyLess(a: JsString, b: JsString) {
    b != [] && (a == [] || a[0] < b[0] || (a[0] == b[0] && KeyLess(a[1..], b[1..])))
  }

  /** One key comes before another if it is a proper beginning of it, or is smaller where they first differ. */
  lemma {:induction false} KeyOrderExactly(a: JsString, b: JsString)
    ensures KeyLess(a, b) <==>
            exists k :: 0 <= k <= |a| && k < |b| && a[..k] == b[..k] && (k == |a| || a[k] < b[k])
  {
    if a != [] && b != [] && a[0] == b[0] {
      KeyOrderExactly(a[1..], b[1..]);
      if k :|
        0 <= k <= |a[1..]| && k < |b[1..]| && a[1..][..k] == b[1..][..k] && (k == |a[1..]| || a[1..][k] < b[1..][k])
      {
        assert a[..k + 1] == [a[0]] + a[1..][..k] && b[..k + 1] == [b[0]] + b[1..][..k];
      }
      if k :| 0 <= k <= |a| && k < |b| && a[..k] == b[..k] && (k == |a| || a[k] < b[k]) {
        assert k > 0 && a[1..][..k - 1] == a[..k][1..] && b[1..][..k - 1] == b[..k][1..];
      }
    } else if b != [] && (a == [] || a[0] < b[0]) {
      assert a[..0] == b[..0];
    } else if a != [] && b != [] {
      forall k | 0 < k <= |a| && k < |b|
        ensures a[..k] != b[..k]
      {
        assert a[..k][0] != b[..k][0];
      }
    }
  }

  lemma {:induction false} KeyOrderTotal(a: JsString, b: JsString)
    ensures a == b || KeyLess(a, b) || KeyLess(b, a)
  {
    if a != [] && b != [] && a[0] == b[0] {
      KeyOrderTotal(a[1..], b[1..]);
      assert a == [a[0]] + a[1..] && b == [b[0]] + b[1..];
    }
  }

  lemma {:induction false} KeyOrderStrict(a: JsString, b: JsString)
    requires KeyLess(a, b)
    ensures !KeyLess(b, a) && a != b
  {
    if a != [] && a[0] == b[0] {
      KeyOrderStrict(a[1..], b[1..]);
    }
  }

  lemma {:induction false} KeyOrderTransitive(a: JsString, b: JsString, c: JsString)
    requires KeyLess(a, b) && KeyLess(b, c)
    ensures KeyLess(a, c)
  {
    if a != [] && a[0] == b[0] == c[0] {
      KeyOrderTransitive(a[1..], b[1..], c[1..]);
    }
  }

  function Inserted<V(!new)>(m: (JsString, V), sorted: seq<(JsString, V)>): (r: seq<(JsString, V)>)
    ensures |r| == |sorted| + 1
    ensures forall e :: e in r <==> e == m || e in sorted
  {
    if sorted == [] then [m]
    else if KeyLess(sorted[0].0, m.0) then
      var rest := Inserted(m, sorted[1..]);
      assert sorted == [sorted[0]] + sorted[1..];
      [sorted[0]] + rest
    else [m] + sorted
  }

  function SortByKey<V(!new)>(members: seq<(JsString, V)>): (r: seq<(JsString, V)>)
    ensures |r| == |members|
    ensures forall e :: e in r <==> e in members
  {
    if members == [] then []
    else
      assert members == [members[0]] + members[1..];
      Inserted(members[0], SortByKey(members[1..]))
  }

  predicate StrictlySorted<V>(members: seq<(JsString, V)>) {
    forall i, j :: 0 <= i < j < |members| ==> KeyLess(members[i].0, members[j].0)
  }

  lemma {:induction false} InsertedSorted<V(!new)>(m: (JsString, V), sorted: seq<(JsString, V)>)
    requires StrictlySorted(sorted) && forall e :: e in sorted ==> e.0 != m.0
    ensures StrictlySorted(Inserted(m, sorted))
  {
    if sorted != [] {
      if KeyLess(sorted[0].0, m.0) {
        InsertedSorted(m, sorted[1..]);
        var rest := Inserted(m, sorted[1..]);
        forall e | e in rest
          ensures KeyLess(sorted[0].0, e.0)
        {
        }
      } else {
        KeyOrderTotal(sorted[0].0, m.0);
        forall j | 1 <= j < |sorted|
          ensures KeyLess(m.0, sorted[j].0)
        {
          KeyOrderTransitive(m.0, sorted[0].0, sorted[j].0);
        }
      }
    }
  }

  lemma {:induction false} SortByKeySorts<V(!new)>(members: seq<(JsString, V)>)
    requires DistinctKeys(members)
    ensures StrictlySorted(SortByKey(members))
    ensures |SortByKey(members)| == |members| && forall e :: e in SortByKey(members) <==> e in members
  {
    if members != [] {
      SortByKeySorts(members[1..]);
      InsertedSorted(members[0], SortByKey(members[1..]));
    }
  }

  /** A strictly sorted list is determined by what it contains. */
  lemma {:induction false} SortedListsAgree<V(!new)>(s: seq<(JsString, V)>, t: seq<(JsString, V)>)
    requires StrictlySorted(s) && StrictlySorted(t)
    requires forall e :: e in s <==> e in t
    ensures s == t
  {
    assert t != [] ==> t[0] in t;
    if s != [] {
      assert s[0] in t;
      assert t != [] && t[0] in s;
      HeadsAgree(s, t);
      forall e
        ensures e in s[1..] <==> e in t[1..]
      {
        TailMembers(s, e);
        TailMembers(t, e);
      }
      SortedListsAgree(s[1..], t[1..]);
      assert s == [s[0]] + s[1..] && t == [t[0]] + t[1..];
    }
  }

  lemma HeadsAgree<V>(s: seq<(JsString, V)>, t: seq<(JsString, V)>)
    requires s != [] && t != [] && StrictlySorted(s) && StrictlySorted(t) && s[0] in t && t[0] in s
    ensures s[0] == t[0]
  {
    if s[0] != t[0] {
      KeyOrderStrict(s[0].0, t[0].0);
    }
  }

  lemma TailMembers<V>(s: seq<(JsString, V)>, e: (JsString, V))
    requires s != [] && StrictlySorted(s)
    ensures e in s[1..] <==> e in s && e != s[0]
  {
    if e in s[1..] {
      KeyOrderStrict(s[0].0, e.0);
    }
  }

  // ---------------------------------------------------------------- printing

  function Literal(s: string): (r: JsString)
    ensures |r| == |s| && forall i :: 0 <= i < |s| && (s[i] as int) < 0x1_0000 ==> r[i] == s[i] as int
  {
    seq(|s|, i requires 0 <= i < |s| => (s[i] as int) % 0x1_0000)
  }

  function Join(texts: seq<JsString>): JsString {
    if texts == [] then []
    else if |texts| == 1 then texts[0]
    else texts[0] + [44] + Join(texts[1..])
  }

  function MemberText(entry: (JsString, JsString)): JsString {
    Quoted(entry.0) + [58] + entry.1
  }

  function MemberTexts(entries: seq<(JsString, JsString)>): (r: seq<JsString>)
    ensures |r| == |entries|
  {
    seq(|entries|, i requires 0 <= i < |entries| => MemberText(entries[i]))
  }

  function Canonical(v: Json): JsString
    decreases v
  {
    match v
    case Null => Literal("null")
    case Bool(b) => if b then Literal("true") else Literal("false")
    case Number(literal) => literal
    case String(text) => Quoted(text)
    case Array(items) => [91] + Join(seq(|items|, i requires 0 <= i < |items| => Canonical(items[i]))) + [93]
    case Object(members) =>
      var printed := seq(|members|, i requires 0 <= i < |members| => (members[i].0, Canonical(members[i].1)));
      [123] + Join(MemberTexts(SortByKey(printed))) + [125]
  }

  function Items(items: seq<Json>): (r: seq<JsString>)
    ensures |r| == |items|
  {
    seq(|items|, i requires 0 <= i < |items| => Canonical(items[i]))
  }

  function Mapped<V, W>(f: V -> W, members: seq<(JsString, V)>): (r: seq<(JsString, W)>)
    ensures |r| == |members|
  {
    seq(|members|, i requires 0 <= i < |members| => (members[i].0, f(members[i].1)))
  }

  function Printed(members: seq<(JsString, Json)>): (r: seq<(JsString, JsString)>) {
    Mapped(Canonical, members)
  }

  lemma ArrayText(items: seq<Json>)
    ensures Canonical(Array(items)) == [91] + Join(Items(items)) + [93]
  {
  }

  lemma ObjectText(members: seq<(JsString, Json)>)
    ensures Canonical(Object(members)) == [123] + Join(MemberTexts(SortByKey(Printed(members)))) + [125]
  {
    assert Printed(members)
        == seq(|members|, i requires 0 <= i < |members| => (members[i].0, Canonical(members[i].1)));
  }

  /** Changing the values and sorting the entries commute. */
  lemma {:induction false} InsertingMapped<V(!new), W(!new)>(f: V -> W, m: (JsString, V), sorted: seq<(JsString, V)>)
    ensures Mapped(f, Inserted(m, sorted)) == Inserted((m.0, f(m.1)), Mapped(f, sorted))
  {
    if sorted != [] && KeyLess(sorted[0].0, m.0) {
      InsertingMapped(f, m, sorted[1..]);
      assert Mapped(f, sorted)[1..] == Mapped(f, sorted[1..]);
    }
  }

  lemma {:induction false} SortingMapped<V(!new), W(!new)>(f: V -> W, members: seq<(JsString, V)>)
    ensures SortByKey(Mapped(f, members)) == Mapped(f, SortByKey(members))
  {
    if members != [] {
      SortingMapped(f, members[1..]);
      assert Mapped(f, members)[1..] == Mapped(f, members[1..]);
      InsertingMapped(f, members[0], SortByKey(members[1..]));
    }
  }

  // ---------------------------------------------------------------- reading it back

  /** What may follow a printed value: anything that cannot prolong a number. */
  predicate Stops(rest: JsString) {
    rest == [] || !NumberUnit(rest[0])
  }

  /** The first unit of a printed value tells its kind, and is never a separator. */
  lemma FirstUnit(v: Json)
    requires Valid(v)
    ensures Canonical(v) != []
    ensures var u := Canonical(v)[0];
            match v
            case Null => u == 110
            case Bool(b) => u == (if b then 116 else 102)
            case Number(_) => NumberUnit(u)
            case String(_) => u == QUOTE
            case Array(_) => u == 91
            case Object(_) => u == 123
  {
  }

  function NumberRun(text: JsString): (n: nat)
    ensures n <= |text|
  {
    if text == [] || !NumberUnit(text[0]) then 0 else 1 + NumberRun(text[1..])
  }

  lemma {:induction false} NumberRunEnds(literal: JsString, rest: JsString)
    requires Stops(rest) && forall i :: 0 <= i < |literal| ==> NumberUnit(literal[i])
    ensures NumberRun(literal + rest) == |literal|
  {
    if literal == [] {
      assert literal + rest == rest;
    } else {
      NumberRunEnds(literal[1..], rest);
      assert (literal + rest)[1..] == literal[1..] + rest;
    }
  }

  /** What is left of a list after its first element: the closing bracket or a comma and more. */
  function AfterFirst(texts: seq<JsString>, closing: JsString): JsString
    requires texts != []
  {
    if |texts| == 1 then closing else [44] + (Join(texts[1..]) + closing)
  }

  lemma JoinSplits(texts: seq<JsString>, closing: JsString)
    requires texts != []
    ensures Join(texts) + closing == texts[0] + AfterFirst(texts, closing)
  {
  }

  /** A value as compact JSON, without any space, and what follows it. */
  function ReadValue(text: JsString): (r: Option<(Json, JsString)>)
    ensures r.Some? ==> |r.value.1| < |text|
    decreases |text|, 0
  {
    if text == [] then None
    else if text[0] == QUOTE then
      var (s, rest) :- ReadString(text[1..]);
      Some((String(s), rest))
    else if text[0] == 91 then
      if |text| > 1 && text[1] == 93 then Some((Array([]), text[2..]))
      else
        var (items, rest) :- ReadItems(text[1..]);
        Some((Array(items), rest))
    else if text[0] == 123 then
      if |text| > 1 && text[1] == 125 then Some((Object([]), text[2..]))
      else
        var (members, rest) :- ReadMembers(text[1..]);
        Some((Object(members), rest))
    else if Literal("null") <= text then Some((Null, text[4..]))
    else if Literal("true") <= text then Some((Bool(true), text[4..]))
    else if Literal("false") <= text then Some((Bool(false), text[5..]))
    else
      var n := NumberRun(text);
      if ValidNumber(text[..n]) then Some((Number(text[..n]), text[n..])) else None
  }

  /** Values with commas between them, up to the closing bracket. */
  function ReadItems(text: JsString): (r: Option<(seq<Json>, JsString)>)
    ensures r.Some? ==> |r.value.1| < |text|
    decreases |text|, 1
  {
    var (v, rest) :- ReadValue(text);
    if rest == [] then None
    else if rest[0] == 93 then Some(([v], rest[1..]))
    else if rest[0] != 44 then None
    else
      var (more, after) :- ReadItems(rest[1..]);
      Some(([v] + more, after))
  }

  /** Quoted keys, each with a colon and a value, with commas between them, up to the closing brace. */
  function ReadMembers(text: JsString): (r: Option<(seq<(JsString, Json)>, JsString)>)
    ensures r.Some? ==> |r.value.1| < |text|
    decreases |text|, 1
  {
    if text == [] || text[0] != QUOTE then None
    else
      var (key, colon) :- ReadString(text[1..]);
      if colon == [] || colon[0] != 58 then None
      else
        var (v, rest) :- ReadValue(colon[1..]);
        if rest == [] then None
        else if rest[0] == 125 then Some(([(key, v)], rest[1..]))
        else if rest[0] != 44 then None
        else
          var (more, after) :- ReadMembers(rest[1..]);
          Some(([(key, v)] + more, after))
  }

  /** The value with the members of every object in key order. */
  function Ordered(v: Json): Json
    decreases v
  {
    match v
    case Array(items) => Array(seq(|items|, i requires 0 <= i < |items| => Ordered(items[i])))
    case Object(members) =>
      Object(SortByKey(seq(|members|, i requires 0 <= i < |members| => (members[i].0, Ordered(members[i].1)))))
    case _ => v
  }

  function OrderedItems(items: seq<Json>): (r: seq<Json>)
    ensures |r| == |items|
  {
    seq(|items|, i requires 0 <= i < |items| => Ordered(items[i]))
  }

  lemma OrderedArray(items: seq<Json>)
    ensures Ordered(Array(items)) == Array(OrderedItems(items))
  {
  }

  lemma OrderedObject(members: seq<(JsString, Json)>)
    ensures Ordered(Object(members)) == Object(Mapped(Ordered, SortByKey(members)))
  {
    SortingMapped(Ordered, members);
    assert Mapped(Ordered, members)
        == seq(|members|, i requires 0 <= i < |members| => (members[i].0, Ordered(members[i].1)));
  }

  /** A printed value reads back as itself with its keys in order, whatever follows it. */
  lemma {:induction false} ReadUndoes(v: Json, rest: JsString)
    requires Valid(v) && Stops(rest)
    ensures ReadValue(Canonical(v) + rest) == Some((Ordered(v), rest))
    decreases v, 1, 0
  {
    FirstUnit(v);
    var text := Canonical(v) + rest;
    assert text[0] == Canonical(v)[0];
    match v
    case Null => ReadLiteral("null", rest);
    case Bool(b) => ReadLiteral(if b then "true" else "false", rest);
    case Number(literal) => ReadNumber(literal, rest);
    case String(s) => ReadQuoted(s, rest);
    case Array(items) => ReadArray(v, items, rest);
    case Object(members) => ReadObject(v, members, rest);
  }

  lemma ReadLiteral(s: string, rest: JsString)
    requires s in {"null", "true", "false"}
    ensures ReadValue(Literal(s) + rest)
            == Some((if s == "null" then Null else Bool(s == "true"), rest))
  {
    var text := Literal(s) + rest;
    assert text[..|s|] == Literal(s) && text[|s|..] == rest;
    assert text[0] == Literal(s)[0];
    assert Literal("null")[0] == 110 && Literal("true")[0] == 116 && Literal("false")[0] == 102;
  }

  lemma ReadNumber(literal: JsString, rest: JsString)
    requires ValidNumber(literal) && Stops(rest)
    ensures ReadValue(literal + rest) == Some((Number(literal), rest))
  {
    NumberRunEnds(literal, rest);
    var text := literal + rest;
    assert text[..|literal|] == literal && text[|literal|..] == rest && text[0] == literal[0];
    assert Literal("null")[0] == 110 && Literal("true")[0] == 116 && Literal("false")[0] == 102;
  }

  lemma ReadArray(v: Json, items: seq<Json>, rest: JsString)
    requires v == Array(items) && Valid(v)
    ensures ReadValue(Canonical(v) + rest) == Some((Ordered(v), rest))
    decreases v, 0, |items| + 1
  {
    ArrayText(items);
    OrderedArray(items);
    var body := Join(Items(items)) + ([93] + rest);
    Bracketed(91, Join(Items(items)), 93, rest);
    assert ([91] + body)[1..] == body;
    if items == [] {
      assert body == [93] + rest && body[1..] == rest && ([91] + body)[2..] == rest;
    } else {
      FirstUnit(items[0]);
      JoinSplits(Items(items), [93] + rest);
      ReadItemsUndoes(v, items, rest);
    }
  }

  lemma LastItem(text: JsString, v: Json, rest: JsString)
    requires ReadValue(text) == Some((v, [93] + rest))
    ensures ReadItems(text) == Some(([v], rest))
  {
    assert ([93] + rest)[1..] == rest;
  }

  lemma OneMoreItem(text: JsString, v: Json, tail: JsString, more: seq<Json>, rest: JsString)
    requires ReadValue(text) == Some((v, [44] + tail)) && ReadItems(tail) == Some((more, rest))
    ensures ReadItems(text) == Some(([v] + more, rest))
  {
    assert ([44] + tail)[1..] == tail;
  }

  lemma ItemsSplit(items: seq<Json>)
    requires items != []
    ensures Items(items)[1..] == Items(items[1..])
    ensures OrderedItems(items) == [Ordered(items[0])] + OrderedItems(items[1..])
  {
  }

  lemma MembersSplit(members: seq<(JsString, Json)>)
    requires members != []
    ensures MemberTexts(Printed(members))[1..] == MemberTexts(Printed(members[1..]))
    ensures Mapped(Ordered, members) == [(members[0].0, Ordered(members[0].1))] + Mapped(Ordered, members[1..])
  {
  }

  lemma {:induction false} ReadItemsUndoes(owner: Json, items: seq<Json>, rest: JsString)
    requires owner.Array? && items != [] && forall i :: 0 <= i < |items| ==> items[i] in owner.items && Valid(items[i])
    ensures ReadItems(Join(Items(items)) + ([93] + rest)) == Some((OrderedItems(items), rest))
    decreases owner, 0, |items|
  {
    var closing := [93] + rest;
    JoinSplits(Items(items), closing);
    ReadUndoes(items[0], AfterFirst(Items(items), closing));
    ItemsSplit(items);
    var text := Join(Items(items)) + closing;
    if |items| == 1 {
      assert OrderedItems(items) == [Ordered(items[0])];
      LastItem(text, Ordered(items[0]), rest);
    } else {
      ReadItemsUndoes(owner, items[1..], rest);
      OneMoreItem(text, Ordered(items[0]), Join(Items(items[1..])) + closing, OrderedItems(items[1..]), rest);
    }
  }

  lemma ReadBraces(body: JsString, members: seq<(JsString, Json)>, rest: JsString)
    requires body != [] && body[0] != 125 && ReadMembers(body) == Some((members, rest))
    ensures ReadValue([123] + body) == Some((Object(members), rest))
  {
    assert ([123] + body)[1..] == body;
  }

  lemma ReadObject(v: Json, members: seq<(JsString, Json)>, rest: JsString)
    requires v == Object(members) && Valid(v)
    ensures ReadValue(Canonical(v) + rest) == Some((Ordered(v), rest))
    decreases v, 0, |members| + 1
  {
    ObjectText(members);
    OrderedObject(members);
    if members == [] {
      assert Canonical(v) + rest == [123, 125] + rest;
      assert ([123, 125] + rest)[2..] == rest;
    } else {
      var sorted := SortByKey(members);
      var body := Join(MemberTexts(Printed(sorted))) + ([125] + rest);
      ValidWhereFound(members, sorted);
      SortingMapped(Canonical, members);
      Bracketed(123, Join(MemberTexts(Printed(sorted))), 125, rest);
      ReadMembersUndoes(v, sorted, rest);
      ReadBraces(body, Mapped(Ordered, sorted), rest);
    }
  }

  lemma LastMember(text: JsString, key: JsString, colon: JsString, v: Json, rest: JsString)
    requires text != [] && text[0] == QUOTE && ReadString(text[1..]) == Some((key, colon))
    requires colon != [] && colon[0] == 58 && ReadValue(colon[1..]) == Some((v, [125] + rest))
    ensures ReadMembers(text) == Some(([(key, v)], rest))
  {
    assert ([125] + rest)[1..] == rest;
  }

  lemma OneMoreMember(text: JsString, key: JsString, colon: JsString, v: Json, tail: JsString,
                      more: seq<(JsString, Json)>, rest: JsString)
    requires text != [] && text[0] == QUOTE && ReadString(text[1..]) == Some((key, colon))
    requires colon != [] && colon[0] == 58 && ReadValue(colon[1..]) == Some((v, [44] + tail))
    requires ReadMembers(tail) == Some((more, rest))
    ensures ReadMembers(text) == Some(([(key, v)] + more, rest))
  {
    assert ([44] + tail)[1..] == tail;
  }

  lemma {:induction false} ReadMembersUndoes(owner: Json, members: seq<(JsString, Json)>, rest: JsString)
    requires owner.Object? && members != []
    requires forall i :: 0 <= i < |members| ==> members[i] in owner.members && Valid(members[i].1)
    ensures var text := Join(MemberTexts(Printed(members))) + ([125] + rest);
            text != [] && text[0] == QUOTE && ReadMembers(text) == Some((Mapped(Ordered, members), rest))
    decreases owner, 0, |members|
  {
    var closing := [125] + rest;
    var texts, m := MemberTexts(Printed(members)), members[0];
    var text, after := Join(texts) + closing, AfterFirst(texts, closing);
    JoinSplits(texts, closing);
    ReadMemberUndoes(owner, m, after);
    var colon := [58] + (Canonical(m.1) + after);
    MembersSplit(members);
    if |members| == 1 {
      assert Mapped(Ordered, members) == [(m.0, Ordered(m.1))];
      LastMember(text, m.0, colon, Ordered(m.1), rest);
    } else {
      ReadMembersUndoes(owner, members[1..], rest);
      OneMoreMember(text, m.0, colon, Ordered(m.1), Join(MemberTexts(Printed(members[1..]))) + closing,
                    Mapped(Ordered, members[1..]), rest);
    }
  }

  /** The first member of a printed list: its key, a colon and its value. */
  lemma ReadMemberUndoes(owner: Json, m: (JsString, Json), rest: JsString)
    requires owner.Object? && m in owner.members && Valid(m.1) && Stops(rest)
    ensures var text := MemberText((m.0, Canonical(m.1))) + rest;
            && text != [] && text[0] == QUOTE
            && ReadString(text[1..]) == Some((m.0, [58] + (Canonical(m.1) + rest)))
            && ReadValue(([58] + (Canonical(m.1) + rest))[1..]) == Some((Ordered(m.1), rest))
    decreases owner, 0, 0
  {
    var colon := [58] + (Canonical(m.1) + rest);
    MemberSplits(m.0, Canonical(m.1), rest);
    ReadQuoted(m.0, colon);
    assert colon[1..] == Canonical(m.1) + rest;
    ReadUndoes(m.1, rest);
  }

  lemma Bracketed(open: Unit, body: JsString, close: Unit, rest: JsString)
    ensures ([open] + body + [close]) + rest == [open] + (body + ([close] + rest))
  {
  }

  lemma ValidWhereFound(members: seq<(JsString, Json)>, sorted: seq<(JsString, Json)>)
    requires forall i :: 0 <= i < |members| ==> Valid(members[i].1)
    requires forall e :: e in sorted <==> e in members
    ensures forall i :: 0 <= i < |sorted| ==> sorted[i] in members && Valid(sorted[i].1)
  {
  }

  lemma MemberSplits(key: JsString, text: JsString, rest: JsString)
    ensures MemberText((key, text)) + rest == Quoted(key) + ([58] + (text + rest))
  {
  }

  // ---------------------------------------------------------------- what is read back

  /** Members are in strict key order at every depth. */
  predicate InOrder(v: Json)
    decreases v
  {
    match v
    case Array(items) => forall i :: 0 <= i < |items| ==> InOrder(items[i])
    case Object(members) => StrictlySorted(members) && forall i :: 0 <= i < |members| ==> InOrder(members[i].1)
    case _ => true
  }

  lemma {:induction false} OrderedIsInOrder(v: Json)
    requires Valid(v)
    ensures InOrder(Ordered(v))
    decreases v
  {
    match v
    case Array(items) =>
      OrderedArray(items);
      forall i | 0 <= i < |items|
        ensures InOrder(Ordered(items[i]))
      {
        OrderedIsInOrder(items[i]);
      }
    case Object(members) =>
      var sorted := SortByKey(members);
      OrderedObject(members);
      SortByKeySorts(members);
      ValidWhereFound(members, sorted);
      forall i | 0 <= i < |sorted|
        ensures InOrder(Ordered(sorted[i].1))
      {
        OrderedIsInOrder(sorted[i].1);
      }
    case _ =>
  }

  /** Values that are equal once their keys are in order are equal up to the order of keys. */
  lemma {:induction false} OrderedAlike(a: Json, b: Json)
    requires Ordered(a) == Ordered(b)
    ensures Same(a, b)
    decreases a, 1
  {
    match a
    case Array(items) =>
      OrderedArray(items);
      OrderedArray(b.items);
      forall i | 0 <= i < |items|
        ensures Same(items[i], b.items[i])
      {
        assert OrderedItems(items)[i] == OrderedItems(b.items)[i];
        OrderedAlike(items[i], b.items[i]);
      }
    case Object(members) =>
      SortingMapped(Ordered, members);
      SortingMapped(Ordered, b.members);
      OrderedObject(members);
      OrderedObject(b.members);
      MembersAlike(a, b);
    case _ =>
  }

  lemma {:induction false} MembersAlike(a: Json, b: Json)
    requires a.Object? && b.Object?
    requires SortByKey(Mapped(Ordered, a.members)) == SortByKey(Mapped(Ordered, b.members))
    ensures Same(a, b)
    decreases a, 0
  {
    forall m | Listed(m, a.members)
      ensures exists n :: n in b.members && m.0 == n.0 && Same(m.1, n.1)
    {
      var n := Counterpart(m, a.members, b.members);
      OrderedAlike(m.1, n.1);
    }
    forall n | Listed(n, b.members)
      ensures exists m :: m in a.members && m.0 == n.0 && Same(m.1, n.1)
    {
      var m := Counterpart(n, b.members, a.members);
      OrderedAlike(m.1, n.1);
    }
  }

  lemma Counterpart(m: (JsString, Json), members: seq<(JsString, Json)>, others: seq<(JsString, Json)>)
    returns (n: (JsString, Json))
    requires m in members && SortByKey(Mapped(Ordered, members)) == SortByKey(Mapped(Ordered, others))
    ensures n in others && m.0 == n.0 && Ordered(m.1) == Ordered(n.1)
  {
    var i :| 0 <= i < |members| && members[i] == m;
    assert Mapped(Ordered, members)[i] == (m.0, Ordered(m.1));
    assert (m.0, Ordered(m.1)) in SortByKey(Mapped(Ordered, members));
    var j :| 0 <= j < |others| && Mapped(Ordered, others)[j] == (m.0, Ordered(m.1));
    n := others[j];
  }

  /** Ordering again changes nothing. */
  lemma {:induction false} OrderedTwice(v: Json)
    requires Valid(v)
    ensures Ordered(Ordered(v)) == Ordered(v)
    decreases v
  {
    match v
    case Array(items) =>
      OrderedArray(items);
      OrderedArray(OrderedItems(items));
      forall i | 0 <= i < |items|
        ensures Ordered(Ordered(items[i])) == Ordered(items[i])
      {
        OrderedTwice(items[i]);
      }
      assert OrderedItems(OrderedItems(items)) == OrderedItems(items);
    case Object(members) =>
      var sorted := SortByKey(members);
      OrderedObject(members);
      SortByKeySorts(members);
      ValidWhereFound(members, sorted);
      forall i | 0 <= i < |sorted|
        ensures Ordered(Ordered(sorted[i].1)) == Ordered(sorted[i].1)
      {
        OrderedTwice(sorted[i].1);
      }
      SortedStays(sorted);
    case _ =>
  }

  lemma SortedStays(sorted: seq<(JsString, Json)>)
    requires StrictlySorted(sorted)
    requires forall i :: 0 <= i < |sorted| ==> Ordered(Ordered(sorted[i].1)) == Ordered(sorted[i].1)
    ensures Ordered(Object(Mapped(Ordered, sorted))) == Object(Mapped(Ordered, sorted))
  {
    var ordered := Mapped(Ordered, sorted);
    OrderedObject(ordered);
    KeysDiffer(ordered);
    SortByKeySorts(ordered);
    SortedListsAgree(SortByKey(ordered), ordered);
    assert Mapped(Ordered, ordered) == ordered;
  }

  lemma KeysDiffer<V>(sorted: seq<(JsString, V)>)
    requires StrictlySorted(sorted)
    ensures DistinctKeys(sorted)
  {
    forall i, j | 0 <= i < j < |sorted|
      ensures sorted[i].0 != sorted[j].0
    {
      KeyOrderStrict(sorted[i].0, sorted[j].0);
    }
  }

  /** The text is JSON for the value: a reader of compact JSON gets back the value, up to the order of keys, with
      the keys in order at every depth, and nothing is left over. */
  lemma TextReadsBack(v: Json) returns (back: Json)
    requires Valid(v)
    ensures ReadValue(Canonical(v)) == Some((back, [])) && Same(v, back) && InOrder(back)
  {
    back := Ordered(v);
    ReadUndoes(v, []);
    assert Canonical(v) + [] == Canonical(v);
    OrderedIsInOrder(v);
    OrderedTwice(v);
    OrderedAlike(v, back);
  }

  /** Unambiguous printing. Two printed values that start the same text print the same value, up to the
      order of keys, and leave the same rest. */
  lemma PrintingIsUnambiguous(a: Json, b: Json, x: JsString, y: JsString)
    requires Valid(a) && Valid(b) && Stops(x) && Stops(y)
    requires Canonical(a) + x == Canonical(b) + y
    ensures Same(a, b) && x == y
  {
    ReadUndoes(a, x);
    ReadUndoes(b, y);
    OrderedAlike(a, b);
  }

  // ---------------------------------------------------------------- and forth

  /** Values that are the same up to key order print the same. */
  lemma {:induction false} SameValuesPrintTheSame(a: Json, b: Json)
    requires Valid(a) && Valid(b) && Same(a, b)
    ensures Canonical(a) == Canonical(b)
    decreases a, 2
  {
    if a.Array? {
      ArraysPrintTheSame(a, b);
    } else if a.Object? {
      ObjectsPrintTheSame(a, b);
    }
  }

  lemma {:induction false} ArraysPrintTheSame(a: Json, b: Json)
    requires a.Array? && Valid(a) && Valid(b) && Same(a, b)
    ensures Canonical(a) == Canonical(b)
    decreases a, 0
  {
    forall i | 0 <= i < |a.items|
      ensures Canonical(a.items[i]) == Canonical(b.items[i])
    {
      SameValuesPrintTheSame(a.items[i], b.items[i]);
    }
    ItemsPrintTheSame(a.items, b.items);
  }

  lemma {:induction false} ObjectsPrintTheSame(a: Json, b: Json)
    requires a.Object? && b.Object? && Valid(a) && Valid(b) && Same(a, b)
    ensures Canonical(a) == Canonical(b)
    decreases a, 1, 1
  {
    forall e
      ensures e in Printed(a.members) <==> e in Printed(b.members)
    {
      if e in Printed(a.members) {
        EntryMatches(a, b, e);
      }
      if e in Printed(b.members) {
        EntryIsMatched(a, b, e);
      }
    }
    EntriesSortTheSame(Printed(a.members), Printed(b.members));
    ObjectText(a.members);
    ObjectText(b.members);
  }

  /** Every printed member of either object is one of the other's. */
  lemma {:induction false} EntryMatches(a: Json, b: Json, e: (JsString, JsString))
    requires a.Object? && b.Object? && Valid(a) && Valid(b) && Same(a, b) && e in Printed(a.members)
    ensures e in Printed(b.members)
    decreases a, 1, 0
  {
    EntryFrom(a.members, e);
    var m :| m in a.members && e == (m.0, Canonical(m.1));
    assert Listed(m, a.members);
    var n :| n in b.members && m.0 == n.0 && Same(m.1, n.1);
    MembersOfObjectsPrintTheSame(a, b, m, n);
    EntryOf(b.members, n);
  }

  lemma {:induction false} EntryIsMatched(a: Json, b: Json, e: (JsString, JsString))
    requires a.Object? && b.Object? && Valid(a) && Valid(b) && Same(a, b) && e in Printed(b.members)
    ensures e in Printed(a.members)
    decreases a, 1, 0
  {
    EntryFrom(b.members, e);
    var n :| n in b.members && e == (n.0, Canonical(n.1));
    assert Listed(n, b.members);
    var m :| m in a.members && m.0 == n.0 && Same(m.1, n.1);
    MembersOfObjectsPrintTheSame(a, b, m, n);
    EntryOf(a.members, m);
  }

  lemma {:induction false} MembersOfObjectsPrintTheSame(a: Json, b: Json, m: (JsString, Json), n: (JsString, Json))
    requires a.Object? && b.Object? && Valid(a) && Valid(b)
    requires m in a.members && n in b.members && Same(m.1, n.1)
    ensures Canonical(m.1) == Canonical(n.1)
    decreases a, 0
  {
    MemberIsValid(a.members, m);
    MemberIsValid(b.members, n);
    SameValuesPrintTheSame(m.1, n.1);
  }

  lemma MemberIsValid(members: seq<(JsString, Json)>, m: (JsString, Json))
    requires Valid(Object(members)) && m in members
    ensures Valid(m.1) && m.1 < Object(members)
  {
  }

  lemma ItemsPrintTheSame(a: seq<Json>, b: seq<Json>)
    requires |a| == |b| && forall i :: 0 <= i < |a| ==> Canonical(a[i]) == Canonical(b[i])
    ensures Canonical(Array(a)) == Canonical(Array(b))
  {
    ArrayText(a);
    ArrayText(b);
    assert Items(a) == Items(b);
  }

  lemma EntryFrom(members: seq<(JsString, Json)>, e: (JsString, JsString))
    requires e in Printed(members)
    ensures exists m :: m in members && e == (m.0, Canonical(m.1))
  {
  }

  lemma EntryOf(members: seq<(JsString, Json)>, m: (JsString, Json))
    requires m in members
    ensures (m.0, Canonical(m.1)) in Printed(members)
  {
    var i :| 0 <= i < |members| && members[i] == m;
    assert Printed(members)[i] == (m.0, Canonical(m.1));
  }

  lemma EntriesSortTheSame(s: seq<(JsString, JsString)>, t: seq<(JsString, JsString)>)
    requires DistinctKeys(s) && DistinctKeys(t) && forall e :: e in s <==> e in t
    ensures SortByKey(s) == SortByKey(t)
  {
    SortByKeySorts(s);
    SortByKeySorts(t);
    SortedListsAgree(SortByKey(s), SortByKey(t));
  }

  /** The law of a canonical form: two values print to the same text exactly if they are equal up to the
      order of object keys. */
  lemma CanonicalForm(a: Json, b: Json)
    requires Valid(a) && Valid(b)
    ensures Canonical(a) == Canonical(b) <==> Same(a, b)
  {
    if Canonical(a) == Canonical(b) {
      PrintingIsUnambiguous(a, b, [], []);
    }
    if Same(a, b) {
      SameValuesPrintTheSame(a, b);
    }
  }
}
