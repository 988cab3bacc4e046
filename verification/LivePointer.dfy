/** The live route pointer: its fixed-schema canonical JSON printer and the strict parser. */
module LivePointer {
  import opened Common
  import opened HexCodec

  const MAX_ROUTE_LIVE_BYTES := 1024

  type Uuid = u: seq<Byte> | |u| == 16 witness seq(16, i => 0)

  datatype RouteScope = RouteScope(scopeId: Uuid)

  datatype RouteLivePointer = RouteLivePointer(
    scope: RouteScope,
    routeRevision: Digest,
    previousRouteRevision: Option<Digest>)

  datatype PointerError =
    | TooLong | NotCanonical | UnknownSchema | OtherScope | InvalidRevision | SelectsItsPrevious

  /** The JSON fields as they travel, before any of them is interpreted. */
  datatype Wire = Wire(schemaVersion: Text, scopeId: Uuid, routeRevision: Text, previous: Option<Text>)

  /** "milk.route-live.v1" */
  function SchemaVersion(): Text {
    [109, 105, 108, 107, 46, 114, 111, 117, 116, 101, 45, 108, 105, 118, 101, 46, 118, 49]
  }

  // ---------------------------------------------------------------- UUID text

  function Hyphenated(hex: Text): (text: Text)
    requires |hex| == 32
    ensures |text| == 36
  {
    hex[..8] + [45] + hex[8..12] + [45] + hex[12..16] + [45] + hex[16..20] + [45] + hex[20..]
  }

  function WithoutHyphens(text: Text): (hex: Text)
    requires |text| == 36
    ensures |hex| == 32
  {
    text[..8] + text[9..13] + text[14..18] + text[19..23] + text[24..]
  }

  function UuidText(u: Uuid): Text {
    Hyphenated(Hex(u))
  }

  function UuidFromText(text: Text): Option<Uuid> {
    if |text| != 36 || Hyphenated(WithoutHyphens(text)) != text || !LowerHexText(WithoutHyphens(text)) then None
    else Some(Unhex(WithoutHyphens(text)))
  }

  lemma HyphensUndo(hex: Text)
    requires |hex| == 32
    ensures WithoutHyphens(Hyphenated(hex)) == hex
  {
    var text := Hyphenated(hex);
    assert text[..8] == hex[..8] && text[9..13] == hex[8..12] && text[14..18] == hex[12..16];
    assert text[19..23] == hex[16..20] && text[24..] == hex[20..];
    assert hex == hex[..8] + hex[8..12] + hex[12..16] + hex[16..20] + hex[20..];
  }

  lemma UuidTextRoundTrip(text: Text, u: Uuid)
    ensures UuidFromText(text) == Some(u) <==> text == UuidText(u)
  {
    HyphensUndo(Hex(u));
    UnhexHex(u);
    if UuidFromText(text) == Some(u) {
      HexUnhex(WithoutHyphens(text));
    }
  }

  // ---------------------------------------------------------------- JSON pieces

  predicate PlainByte(b: Byte) {
    b >= 32 && b != 34 && b != 92
  }

  predicate Plain(text: Text) {
    forall i :: 0 <= i < |text| ==> PlainByte(text[i])
  }

  function Quoted(text: Text): Text {
    [34] + text + [34]
  }

  function Strip(prefix: Text, bytes: Text): Option<Text> {
    if prefix <= bytes then Some(bytes[|prefix|..]) else None
  }

  function PlainLength(bytes: Text): (n: nat)
    ensures n <= |bytes| && Plain(bytes[..n]) && (n < |bytes| ==> !PlainByte(bytes[n]))
  {
    if bytes == [] || !PlainByte(bytes[0]) then 0
    else
      var n := PlainLength(bytes[1..]);
      assert bytes[..n + 1] == [bytes[0]] + bytes[1..][..n];
      n + 1
  }

  /** A quoted string that needs no escape, and what follows it. */
  function TakeString(bytes: Text): Option<(Text, Text)> {
    var rest :- Strip([34], bytes);
    var n := PlainLength(rest);
    if n < |rest| && rest[n] == 34 then Some((rest[..n], rest[n + 1..])) else None
  }

  lemma StripAccepts(prefix: Text, rest: Text)
    ensures Strip(prefix, prefix + rest) == Some(rest)
  {
  }

  lemma {:induction false} PlainPrefix(text: Text, rest: Text)
    requires Plain(text)
    ensures PlainLength(text + [34] + rest) == |text|
  {
    var whole := text + [34] + rest;
    if text != [] {
      PlainPrefix(text[1..], rest);
      assert whole[1..] == text[1..] + [34] + rest;
    }
  }

  lemma TakeStringAccepts(text: Text, rest: Text)
    requires Plain(text)
    ensures TakeString(Quoted(text) + rest) == Some((text, rest))
  {
    PlainPrefix(text, rest);
    var tail := text + [34] + rest;
    assert (Quoted(text) + rest)[1..] == tail;
    assert tail[..|text|] == text && tail[|text| + 1..] == rest && tail[|text|] == 34;
  }

  // ---------------------------------------------------------------- printer and parser

  function PreviousText(previous: Option<Text>): Text {
    if previous.None? then Ascii("null}") else Quoted(previous.value) + Ascii("}")
  }

  function AfterRevision(previous: Option<Text>): Text {
    Ascii(",\"previous_route_revision\":") + PreviousText(previous)
  }

  function AfterScope(revision: Text, previous: Option<Text>): Text {
    Ascii("},\"route_revision\":") + (Quoted(revision) + AfterRevision(previous))
  }

  function AfterSchema(scopeId: Uuid, revision: Text, previous: Option<Text>): Text {
    Ascii(",\"scope\":{\"scope_id\":") + (Quoted(UuidText(scopeId)) + AfterScope(revision, previous))
  }

  function WireText(w: Wire): Text {
    Ascii("{\"schema_version\":")
    + (Quoted(w.schemaVersion) + AfterSchema(w.scopeId, w.routeRevision, w.previous))
  }

  function ParsePrevious(bytes: Text): Option<Option<Text>> {
    if bytes == Ascii("null}") then Some(None)
    else
      var (text, rest) :- TakeString(bytes);
      if rest == Ascii("}") then Some(Some(text)) else None
  }

  function ParseAfterRevision(bytes: Text): Option<Option<Text>> {
    var rest :- Strip(Ascii(",\"previous_route_revision\":"), bytes);
    ParsePrevious(rest)
  }

  function ParseAfterScope(bytes: Text): Option<(Text, Option<Text>)> {
    var beforeRevision :- Strip(Ascii("},\"route_revision\":"), bytes);
    var (revision, rest) :- TakeString(beforeRevision);
    var previous :- ParseAfterRevision(rest);
    Some((revision, previous))
  }

  function ParseAfterSchema(bytes: Text): Option<(Uuid, Text, Option<Text>)> {
    var beforeScope :- Strip(Ascii(",\"scope\":{\"scope_id\":"), bytes);
    var (scopeText, rest) :- TakeString(beforeScope);
    var scopeId :- UuidFromText(scopeText);
    var (revision, previous) :- ParseAfterScope(rest);
    Some((scopeId, revision, previous))
  }

  function ParseWire(bytes: Text): Option<Wire> {
    var beforeSchema :- Strip(Ascii("{\"schema_version\":"), bytes);
    var (schema, rest) :- TakeString(beforeSchema);
    var (scopeId, revision, previous) :- ParseAfterSchema(rest);
    Some(Wire(schema, scopeId, revision, previous))
  }

  function New(scope: RouteScope, revision: Digest, previous: Option<Digest>): Result<RouteLivePointer, PointerError> {
    if previous == Some(revision) then Err(SelectsItsPrevious)
    else Ok(RouteLivePointer(scope, revision, previous))
  }

  function PreviousDigest(previous: Option<Text>): Result<Option<Digest>, PointerError> {
    if previous.None? then Ok(None)
    else
      var digest :- Required(HexToDigest(previous.value), InvalidRevision);
      Ok(Some(digest))
  }

  function Parse(expectedScope: RouteScope, bytes: Text): Result<RouteLivePointer, PointerError> {
    var _ :- Need(|bytes| <= MAX_ROUTE_LIVE_BYTES, TooLong);
    var wire :- Required(ParseWire(bytes), NotCanonical);
    var _ :- Need(WireText(wire) == bytes, NotCanonical);
    var _ :- Need(wire.schemaVersion == SchemaVersion(), UnknownSchema);
    var _ :- Need(RouteScope(wire.scopeId) == expectedScope, OtherScope);
    var revision :- Required(HexToDigest(wire.routeRevision), InvalidRevision);
    var previous :- PreviousDigest(wire.previous);
    New(expectedScope, revision, previous)
  }

  function ToWire(p: RouteLivePointer): Wire {
    Wire(SchemaVersion(), p.scope.scopeId, Hex(p.routeRevision),
         if p.previousRouteRevision.None? then None else Some(Hex(p.previousRouteRevision.value)))
  }

  function ToBytes(p: RouteLivePointer): Text {
    WireText(ToWire(p))
  }

  // ---------------------------------------------------------------- round trips

  lemma {:induction false} HexIsPlain(bytes: seq<Byte>)
    ensures Plain(Hex(bytes))
  {
    HexIsLower(bytes);
    forall i | 0 <= i < |Hex(bytes)|
      ensures PlainByte(Hex(bytes)[i])
    {
      assert IsLowerHex(Hex(bytes)[i]);
    }
  }

  lemma UuidIsPlain(u: Uuid)
    ensures Plain(UuidText(u))
  {
    HexIsPlain(u);
  }

  predicate PlainOption(text: Option<Text>) {
    text.Some? ==> Plain(text.value)
  }

  lemma AfterRevisionParses(previous: Option<Text>)
    requires PlainOption(previous)
    ensures ParseAfterRevision(AfterRevision(previous)) == Some(previous)
  {
    StripAccepts(Ascii(",\"previous_route_revision\":"), PreviousText(previous));
    if previous.Some? {
      TakeStringAccepts(previous.value, Ascii("}"));
      assert PreviousText(previous)[0] == 34;
    }
  }

  lemma AfterScopeParses(revision: Text, previous: Option<Text>)
    requires Plain(revision) && PlainOption(previous)
    ensures ParseAfterScope(AfterScope(revision, previous)) == Some((revision, previous))
  {
    StripAccepts(Ascii("},\"route_revision\":"), Quoted(revision) + AfterRevision(previous));
    TakeStringAccepts(revision, AfterRevision(previous));
    AfterRevisionParses(previous);
  }

  lemma AfterSchemaParses(scopeId: Uuid, revision: Text, previous: Option<Text>)
    requires Plain(revision) && PlainOption(previous)
    ensures ParseAfterSchema(AfterSchema(scopeId, revision, previous)) == Some((scopeId, revision, previous))
  {
    var rest := AfterScope(revision, previous);
    UuidIsPlain(scopeId);
    UuidTextRoundTrip(UuidText(scopeId), scopeId);
    StripAccepts(Ascii(",\"scope\":{\"scope_id\":"), Quoted(UuidText(scopeId)) + rest);
    TakeStringAccepts(UuidText(scopeId), rest);
    AfterScopeParses(revision, previous);
  }

  predicate PlainWire(w: Wire) {
    Plain(w.schemaVersion) && Plain(w.routeRevision) && PlainOption(w.previous)
  }

  lemma WireTextParses(w: Wire)
    requires PlainWire(w)
    ensures ParseWire(WireText(w)) == Some(w)
  {
    var rest := AfterSchema(w.scopeId, w.routeRevision, w.previous);
    StripAccepts(Ascii("{\"schema_version\":"), Quoted(w.schemaVersion) + rest);
    TakeStringAccepts(w.schemaVersion, rest);
    AfterSchemaParses(w.scopeId, w.routeRevision, w.previous);
  }

  lemma SchemaIsPlain()
    ensures Plain(SchemaVersion())
  {
  }

  lemma PointerWireIsPlain(p: RouteLivePointer)
    ensures PlainWire(ToWire(p))
  {
    SchemaIsPlain();
    HexIsPlain(p.routeRevision);
    if p.previousRouteRevision.Some? {
      HexIsPlain(p.previousRouteRevision.value);
    }
  }

  lemma PointerIsShort(p: RouteLivePointer)
    ensures |ToBytes(p)| <= MAX_ROUTE_LIVE_BYTES
  {
  }

  lemma RevisionTexts(p: RouteLivePointer)
    ensures HexToDigest(Hex(p.routeRevision)) == Some(p.routeRevision)
    ensures PreviousDigest(ToWire(p).previous) == Ok(p.previousRouteRevision)
  {
    DigestTextRoundTrip(Hex(p.routeRevision), p.routeRevision);
    if p.previousRouteRevision.Some? {
      DigestTextRoundTrip(Hex(p.previousRouteRevision.value), p.previousRouteRevision.value);
    }
  }

  lemma ParseUndoesPrinting(p: RouteLivePointer)
    requires New(p.scope, p.routeRevision, p.previousRouteRevision) == Ok(p)
    ensures Parse(p.scope, ToBytes(p)) == Ok(p)
  {
    PointerWireIsPlain(p);
    PointerIsShort(p);
    WireTextParses(ToWire(p));
    RevisionTexts(p);
  }

  lemma WireIsPrinted(wire: Wire, p: RouteLivePointer)
    requires wire.schemaVersion == SchemaVersion() && RouteScope(wire.scopeId) == p.scope
    requires HexToDigest(wire.routeRevision) == Some(p.routeRevision)
    requires PreviousDigest(wire.previous) == Ok(p.previousRouteRevision)
    ensures wire == ToWire(p)
  {
    DigestTextRoundTrip(wire.routeRevision, p.routeRevision);
    if wire.previous.Some? {
      DigestTextRoundTrip(wire.previous.value, p.previousRouteRevision.value);
    }
  }

  lemma AcceptedPrintsBack(expectedScope: RouteScope, bytes: Text, p: RouteLivePointer)
    requires Parse(expectedScope, bytes) == Ok(p)
    ensures p.scope == expectedScope && New(p.scope, p.routeRevision, p.previousRouteRevision) == Ok(p)
    ensures bytes == ToBytes(p)
  {
    var wire := AcceptedWire(expectedScope, bytes, p);
    WireIsPrinted(wire, p);
  }

  lemma AcceptedWire(expectedScope: RouteScope, bytes: Text, p: RouteLivePointer) returns (wire: Wire)
    requires Parse(expectedScope, bytes) == Ok(p)
    ensures bytes == WireText(wire) && p.scope == expectedScope
    ensures New(p.scope, p.routeRevision, p.previousRouteRevision) == Ok(p)
    ensures wire.schemaVersion == SchemaVersion() && RouteScope(wire.scopeId) == p.scope
    ensures HexToDigest(wire.routeRevision) == Some(p.routeRevision)
    ensures PreviousDigest(wire.previous) == Ok(p.previousRouteRevision)
  {
    wire := ParseWire(bytes).value;
  }

  /** Parsing accepts a byte string as a pointer exactly if the pointer does not select its own predecessor, is in
      the expected scope, and prints to those very bytes: it undoes printing, and every encoding is unique. */
  lemma PointerRoundTrip(expectedScope: RouteScope, bytes: Text, p: RouteLivePointer)
    ensures Parse(expectedScope, bytes) == Ok(p) <==>
            && p.scope == expectedScope
            && p.previousRouteRevision != Some(p.routeRevision)
            && bytes == ToBytes(p)
  {
    if Parse(expectedScope, bytes) == Ok(p) {
      AcceptedPrintsBack(expectedScope, bytes, p);
    } else if New(p.scope, p.routeRevision, p.previousRouteRevision) == Ok(p) {
      ParseUndoesPrinting(p);
    }
  }
}
