/** The worker pool of the workload: a fixed number of asynchronous workers that draw indices from one
    cursor, write one result each into a shared array, and stop drawing once a failure is recorded. */
module WorkerPooling {
  import opened Common

  /** What a JavaScript `throw` may throw; `??=` tells `null` and `undefined` from the rest. The `catch` of a
      request annotates objects and rethrows, so each of the three passes through it as it is. */
  datatype Thrown<E> = Null | Undefined | Error(error: E)

  /** What the request of one index comes to. */
  datatype Outcome<R, E> = Answer(value: R) | Failed(thrown: Thrown<E>)

  datatype Worker = Running(index: nat) | Finished

  /** `failure` starts as `null`; `launched` and `returned` list the indices in the order their requests were
      issued and came back. */
  datatype Pool<R, E> = Pool(
    workload: seq<Option<R>>,
    cursor: nat,
    failure: Thrown<E>,
    workers: seq<Worker>,
    launched: seq<nat>,
    returned: seq<nat>)

  function Coalesced<E>(failure: Thrown<E>, thrown: Thrown<E>): Thrown<E> {
    if failure.Error? then failure else thrown
  }

  /** The loop test of a worker, and the request it issues next. */
  function Drawn<R, E>(s: Pool<R, E>, w: nat): Pool<R, E>
    requires w < |s.workers|
  {
    if s.failure.Null? && s.cursor < |s.workload| then
      s.(workers := s.workers[w := Running(s.cursor)], cursor := s.cursor + 1, launched := s.launched + [s.cursor])
    else s.(workers := s.workers[w := Finished])
  }

  function Kept<R, E>(s: Pool<R, E>, index: nat, outcome: Outcome<R, E>): Pool<R, E>
    requires index < |s.workload|
  {
    var back := s.(returned := s.returned + [index]);
    match outcome
    case Answer(value) => back.(workload := s.workload[index := Some(value)])
    case Failed(thrown) => back.(failure := Coalesced(s.failure, thrown))
  }

  predicate Enabled<R, E>(s: Pool<R, E>, w: nat) {
    w < |s.workers| && s.workers[w].Running? && s.workers[w].index < |s.workload|
  }

  /** Worker `w` resumes with the outcome of its request and goes on to its next await, or finishes. */
  function Resumed<R, E>(s: Pool<R, E>, w: nat, outcome: Outcome<R, E>): Pool<R, E>
    requires Enabled(s, w)
  {
    Drawn(Kept(s, s.workers[w].index, outcome), w)
  }

  /** The first `k` workers have been called; each runs up to its first await before the next is called. */
  function Entered<R, E>(plan: nat, k: nat): Pool<R, E> {
    if k == 0 then Pool(seq(plan, _ => None), 0, Null, [], [], [])
    else
      var s := Entered(plan, k - 1);
      Drawn(s.(workers := s.workers + [Finished]), |s.workers|)
  }

  class WorkerPool<R(0), E(0)> {
    const workload: array<Option<R>>
    var cursor: nat
    var failure: Thrown<E>
    var workers: seq<Worker>
    ghost var launched: seq<nat>
    ghost var returned: seq<nat>

    ghost function State(): Pool<R, E>
      reads this, workload
    {
      Pool(workload[..], cursor, failure, workers, launched, returned)
    }

    constructor (plan: nat, concurrency: nat)
      ensures fresh(workload) && State() == Entered(plan, concurrency)
    {
      workload := new Option<R>[plan](_ => None);
      cursor, failure, workers := 0, Null, [];
      launched, returned := [], [];
      new;
      assert workload[..] == Entered<R, E>(plan, 0).workload;
      for k := 0 to concurrency
        invariant State() == Entered(plan, k)
      {
        workers := workers + [Finished];
        Draw(|workers| - 1);
      }
    }

    method Draw(w: nat)
      requires w < |workers|
      modifies this
      ensures State() == Drawn(old(State()), w)
    {
      if failure.Null? && cursor < workload.Length {
        var index := cursor;
        cursor, launched := cursor + 1, launched + [cursor];
        workers := workers[w := Running(index)];
      } else {
        workers := workers[w := Finished];
      }
    }

    method Resume(w: nat, outcome: Outcome<R, E>)
      requires Enabled(State(), w)
      modifies this, workload
      ensures State() == Resumed(old(State()), w, outcome)
    {
      var index := workers[w].index;
      returned := returned + [index];
      match outcome {
        case Answer(value) =>
          workload[index] := Some(value);
        case Failed(thrown) =>
          if !failure.Error? {
            failure := thrown;
          }
      }
      Draw(w);
    }
  }

  // ---------------------------------------------------------------- every run

  /** A run: in any order, which worker's request came back. The outcome is that of the request itself. */
  predicate Possible<R, E>(plan: seq<Outcome<R, E>>, concurrency: nat, turns: seq<nat>)
    decreases |turns|, 0
  {
    turns == []
    || (Possible(plan, concurrency, turns[..|turns| - 1])
        && Enabled(After(plan, concurrency, turns[..|turns| - 1]), turns[|turns| - 1]))
  }

  function OutcomeFor<R, E>(plan: seq<Outcome<R, E>>, s: Pool<R, E>, w: nat): Outcome<R, E>
    requires Enabled(s, w)
  {
    var index := s.workers[w].index;
    if index < |plan| then plan[index] else Failed(Null)
  }

  function After<R, E>(plan: seq<Outcome<R, E>>, concurrency: nat, turns: seq<nat>): Pool<R, E>
    requires Possible(plan, concurrency, turns)
    decreases |turns|, 1
  {
    if turns == [] then Entered(|plan|, concurrency)
    else
      var s := After(plan, concurrency, turns[..|turns| - 1]);
      var w := turns[|turns| - 1];
      Resumed(s, w, OutcomeFor(plan, s, w))
  }

  ghost predicate InFlight<R, E>(s: Pool<R, E>, index: nat) {
    exists w :: 0 <= w < |s.workers| && s.workers[w] == Running(index)
  }

  // ---------------------------------------------------------------- what a run leaves in `failure`

  /** The failure left by thrown values that came back in this order. */
  function Folded<R, E>(plan: seq<Outcome<R, E>>, order: seq<nat>): Thrown<E> {
    if order == [] then Null
    else
      var before, last := Folded(plan, order[..|order| - 1]), order[|order| - 1];
      if last < |plan| && plan[last].Failed? then Coalesced(before, plan[last].thrown) else before
  }

  /** The value thrown last, `null` if nothing was thrown. */
  function LastThrown<R, E>(plan: seq<Outcome<R, E>>, order: seq<nat>): Thrown<E> {
    if order == [] then Null
    else
      var last := order[|order| - 1];
      if last < |plan| && plan[last].Failed? then plan[last].thrown else LastThrown(plan, order[..|order| - 1])
  }

  predicate ThrowsError<R, E>(plan: seq<Outcome<R, E>>, i: nat) {
    i < |plan| && plan[i].Failed? && plan[i].thrown.Error?
  }

  /** A real error is never lost. Without one, the failure is whatever was thrown last. */
  lemma {:induction false} FoldedExactly<R, E>(plan: seq<Outcome<R, E>>, order: seq<nat>)
    ensures Folded(plan, order).Error? <==> exists k :: 0 <= k < |order| && ThrowsError(plan, order[k])
    ensures !Folded(plan, order).Error? ==> Folded(plan, order) == LastThrown(plan, order)
  {
    if order != [] {
      var before, n := order[..|order| - 1], |order| - 1;
      FoldedExactly(plan, before);
      assert ThrowsError(plan, order[n]) ==> Folded(plan, order).Error?;
      if k :| 0 <= k < |order| && ThrowsError(plan, order[k]) {
        assert k < n ==> ThrowsError(plan, before[k]);
      }
      if k :| 0 <= k < |before| && ThrowsError(plan, before[k]) {
        assert ThrowsError(plan, order[k]);
      }
    }
  }

  // ---------------------------------------------------------------- the invariant

  ghost predicate Records<R, E>(plan: seq<Outcome<R, E>>, s: Pool<R, E>, i: nat)
    requires i < |plan| == |s.workload|
  {
    && (i in s.returned <==> i < s.cursor && !InFlight(s, i))
    && s.workload[i] == if i in s.returned && plan[i].Answer? then Some(plan[i].value) else None
  }

  /** Indices are drawn in order, each once, no two workers run the same one, and each comes back at most once. */
  predicate Claims<R, E>(s: Pool<R, E>) {
    && s.cursor <= |s.workload|
    && |s.launched| == s.cursor && (forall i :: 0 <= i < s.cursor ==> s.launched[i] == i)
    && (forall w :: 0 <= w < |s.workers| && s.workers[w].Running? ==> s.workers[w].index < s.cursor)
    && (forall v, w :: 0 <= v < w < |s.workers| && s.workers[v].Running? ==> s.workers[v] != s.workers[w])
    && (forall k :: 0 <= k < |s.returned| ==> s.returned[k] < s.cursor)
    && (forall j, k :: 0 <= j < k < |s.returned| ==> s.returned[j] != s.returned[k])
  }

  predicate Exhausted<R, E>(s: Pool<R, E>) {
    !s.failure.Null? || s.cursor == |s.workload|
  }

  predicate Joined<R, E>(s: Pool<R, E>) {
    forall w :: 0 <= w < |s.workers| ==> s.workers[w].Finished?
  }

  /** The pool while a worker is between two requests. */
  ghost predicate InvBetween<R, E>(plan: seq<Outcome<R, E>>, s: Pool<R, E>) {
    && |s.workload| == |plan| && Claims(s) && s.failure == Folded(plan, s.returned)
    && (forall i :: 0 <= i < |plan| ==> Records(plan, s, i))
  }

  /** A drawn index that is not in flight came back and has its own outcome recorded, the failure is what the
      values thrown so far leave, and the last worker to finish did so for want of work or for a failure. */
  ghost predicate Inv<R, E>(plan: seq<Outcome<R, E>>, s: Pool<R, E>) {
    InvBetween(plan, s) && (Joined(s) && s.workers != [] ==> Exhausted(s))
  }

  lemma FlightAfterDraw<R, E>(s: Pool<R, E>, w: nat, i: nat)
    requires w < |s.workers| && s.workers[w].Finished?
    ensures var next := Drawn(s, w);
            InFlight(next, i) <==> InFlight(s, i) || (next.cursor > s.cursor && i == s.cursor)
  {
    var next := Drawn(s, w);
    if InFlight(s, i) {
      var v :| 0 <= v < |s.workers| && s.workers[v] == Running(i);
      assert next.workers[v] == Running(i);
    }
    if next.cursor > s.cursor && i == s.cursor {
      assert next.workers[w] == Running(i);
    }
  }

  lemma DrawKeepsClaims<R, E>(s: Pool<R, E>, w: nat)
    requires Claims(s) && w < |s.workers|
    ensures Claims(Drawn(s, w))
  {
  }

  lemma DrawKeepsInv<R, E>(plan: seq<Outcome<R, E>>, s: Pool<R, E>, w: nat)
    requires InvBetween(plan, s) && w < |s.workers| && s.workers[w].Finished?
    ensures Inv(plan, Drawn(s, w))
  {
    var next := Drawn(s, w);
    DrawKeepsClaims(s, w);
    forall i | 0 <= i < |plan|
      ensures Records(plan, next, i)
    {
      FlightAfterDraw(s, w, i);
      assert Records(plan, s, i);
    }
    assert next.workers[w].Running? || Exhausted(next);
  }

  /** The request of worker `w` came back: its outcome is in place before the worker draws again. */
  function Returned<R, E>(s: Pool<R, E>, w: nat, outcome: Outcome<R, E>): Pool<R, E>
    requires Enabled(s, w)
  {
    Kept(s, s.workers[w].index, outcome).(workers := s.workers[w := Finished])
  }

  lemma FlightAfterReturn<R, E>(s: Pool<R, E>, w: nat, outcome: Outcome<R, E>, i: nat)
    requires Claims(s) && Enabled(s, w)
    ensures InFlight(Returned(s, w, outcome), i) <==> InFlight(s, i) && i != s.workers[w].index
  {
    var next := Returned(s, w, outcome);
    if InFlight(s, i) && i != s.workers[w].index {
      var v :| 0 <= v < |s.workers| && s.workers[v] == Running(i);
      assert next.workers[v] == Running(i);
    }
  }

  lemma ReturnKeepsClaims<R, E>(s: Pool<R, E>, w: nat, outcome: Outcome<R, E>)
    requires Claims(s) && Enabled(s, w) && s.workers[w].index !in s.returned
    ensures Claims(Returned(s, w, outcome))
  {
  }

  lemma ReturnKeepsRecords<R, E>(plan: seq<Outcome<R, E>>, s: Pool<R, E>, w: nat, i: nat)
    requires |s.workload| == |plan| && Claims(s) && Enabled(s, w) && i < |plan| && Records(plan, s, i)
    ensures Records(plan, Returned(s, w, plan[s.workers[w].index]), i)
  {
    var index := s.workers[w].index;
    var next := Returned(s, w, plan[index]);
    assert InFlight(s, index);
    FlightAfterReturn(s, w, plan[index], i);
    assert i in next.returned <==> i in s.returned || i == index;
  }

  lemma ReturnKeepsInv<R, E>(plan: seq<Outcome<R, E>>, s: Pool<R, E>, w: nat)
    requires Inv(plan, s) && Enabled(s, w)
    ensures InvBetween(plan, Returned(s, w, plan[s.workers[w].index]))
  {
    var index := s.workers[w].index;
    var next := Returned(s, w, plan[index]);
    assert InFlight(s, index) && Records(plan, s, index);
    ReturnKeepsClaims(s, w, plan[index]);
    assert next.returned[..|s.returned|] == s.returned;
    forall i | 0 <= i < |plan|
      ensures Records(plan, next, i)
    {
      ReturnKeepsRecords(plan, s, w, i);
    }
  }

  lemma DrawOverwrites<R, E>(s: Pool<R, E>, w: nat, outcome: Outcome<R, E>)
    requires Enabled(s, w)
    ensures Drawn(Returned(s, w, outcome), w) == Resumed(s, w, outcome)
  {
    var kept := Kept(s, s.workers[w].index, outcome);
    assert kept.workers[w := Finished][w := Running(s.cursor)] == kept.workers[w := Running(s.cursor)];
    assert kept.workers[w := Finished][w := Finished] == kept.workers[w := Finished];
  }

  lemma ResumeKeepsInv<R, E>(plan: seq<Outcome<R, E>>, s: Pool<R, E>, w: nat)
    requires Inv(plan, s) && Enabled(s, w)
    ensures Inv(plan, Resumed(s, w, plan[s.workers[w].index]))
    ensures |Resumed(s, w, plan[s.workers[w].index]).workers| == |s.workers|
  {
    var outcome := plan[s.workers[w].index];
    ReturnKeepsInv(plan, s, w);
    DrawKeepsInv(plan, Returned(s, w, outcome), w);
    DrawOverwrites(s, w, outcome);
  }

  lemma HireKeepsInv<R, E>(plan: seq<Outcome<R, E>>, s: Pool<R, E>)
    requires Inv(plan, s)
    ensures InvBetween(plan, s.(workers := s.workers + [Finished]))
  {
    var more := s.(workers := s.workers + [Finished]);
    forall i: nat
      ensures InFlight(more, i) <==> InFlight(s, i)
    {
      if InFlight(s, i) {
        var v :| 0 <= v < |s.workers| && s.workers[v] == Running(i);
        assert more.workers[v] == Running(i);
      }
    }
    forall i | 0 <= i < |plan|
      ensures Records(plan, more, i)
    {
      assert Records(plan, s, i);
    }
  }

  lemma {:induction false} EnteredKeepsInv<R, E>(plan: seq<Outcome<R, E>>, k: nat)
    ensures Inv(plan, Entered(|plan|, k)) && |Entered<R, E>(|plan|, k).workers| == k
  {
    if k > 0 {
      EnteredKeepsInv(plan, k - 1);
      var s: Pool<R, E> := Entered(|plan|, k - 1);
      HireKeepsInv(plan, s);
      DrawKeepsInv(plan, s.(workers := s.workers + [Finished]), k - 1);
    }
  }

  lemma {:induction false} EveryRunKeepsInv<R, E>(plan: seq<Outcome<R, E>>, concurrency: nat, turns: seq<nat>)
    requires Possible(plan, concurrency, turns)
    ensures Inv(plan, After(plan, concurrency, turns))
    ensures |After(plan, concurrency, turns).workers| == concurrency
  {
    if turns == [] {
      EnteredKeepsInv(plan, concurrency);
    } else {
      var before, w := turns[..|turns| - 1], turns[|turns| - 1];
      EveryRunKeepsInv(plan, concurrency, before);
      ResumeKeepsInv(plan, After(plan, concurrency, before), w);
    }
  }

  // ---------------------------------------------------------------- the joined pool

  lemma JoinedWithoutFailure<R, E>(plan: seq<Outcome<R, E>>, s: Pool<R, E>)
    requires Inv(plan, s) && Joined(s) && s.workers != [] && s.failure.Null?
    ensures s.launched == seq(|plan|, i => i) && |s.workload| == |plan|
    ensures forall i :: 0 <= i < |plan| ==> i in s.returned
    ensures forall i :: 0 <= i < |plan| ==>
              s.workload[i] == if plan[i].Answer? then Some(plan[i].value) else None
  {
    forall i | 0 <= i < |plan|
      ensures i in s.returned && s.workload[i] == if plan[i].Answer? then Some(plan[i].value) else None
    {
      assert Records(plan, s, i) && !InFlight(s, i);
    }
  }

  /** Once every worker is done, the pool reports no failure exactly if no request of the plan throws a real
      error and the value thrown last, in the order the requests came back, is `null` or nothing was thrown.
      Then each index was requested once, in order, came back once, and its own answer is in its own slot. */
  lemma JoinedPool<R, E>(plan: seq<Outcome<R, E>>, concurrency: nat, turns: seq<nat>)
    requires Possible(plan, concurrency, turns) && concurrency > 0
    requires Joined(After(plan, concurrency, turns))
    ensures var s := After(plan, concurrency, turns);
            && (s.failure.Null? <==>
                  (forall i :: 0 <= i < |plan| ==> !ThrowsError(plan, i)) && LastThrown(plan, s.returned).Null?)
            && (s.failure.Null? ==>
                  && s.launched == seq(|plan|, i => i) && |s.workload| == |plan|
                  && (forall i :: 0 <= i < |plan| ==> i in s.returned)
                  && (forall i :: 0 <= i < |plan| ==>
                        s.workload[i] == if plan[i].Answer? then Some(plan[i].value) else None))
  {
    EveryRunKeepsInv(plan, concurrency, turns);
    var s := After(plan, concurrency, turns);
    FoldedExactly(plan, s.returned);
    if s.failure.Null? {
      JoinedWithoutFailure(plan, s);
      forall i | 0 <= i < |plan|
        ensures !ThrowsError(plan, i)
      {
        assert i in s.returned;
      }
    }
  }

  predicate NeverUndefined<R, E>(plan: seq<Outcome<R, E>>) {
    forall i :: 0 <= i < |plan| && plan[i].Failed? ==> !plan[i].thrown.Undefined?
  }

  /** Where nothing throws `undefined`, order does not matter: no failure means that all thrown was `null`. */
  lemma {:induction false} LastThrownIsThrown<R, E>(plan: seq<Outcome<R, E>>, order: seq<nat>)
    requires NeverUndefined(plan) && (forall i :: 0 <= i < |plan| ==> !ThrowsError(plan, i))
    ensures LastThrown(plan, order).Null?
  {
    if order != [] {
      LastThrownIsThrown(plan, order[..|order| - 1]);
      assert !ThrowsError(plan, order[|order| - 1]);
    }
  }

  lemma JoinedPoolWithoutUndefined<R, E>(plan: seq<Outcome<R, E>>, concurrency: nat, turns: seq<nat>)
    requires NeverUndefined(plan) && Possible(plan, concurrency, turns) && concurrency > 0
    requires Joined(After(plan, concurrency, turns))
    ensures After(plan, concurrency, turns).failure.Null? <==>
            forall i :: 0 <= i < |plan| && plan[i].Failed? ==> plan[i].thrown.Null?
  {
    JoinedPool(plan, concurrency, turns);
    if forall i :: 0 <= i < |plan| ==> !ThrowsError(plan, i) {
      LastThrownIsThrown(plan, After(plan, concurrency, turns).returned);
      forall i | 0 <= i < |plan| && plan[i].Failed?
        ensures plan[i].thrown.Null?
      {
        assert !ThrowsError(plan, i);
      }
    }
  }

  // ---------------------------------------------------------------- after a failure

  lemma {:induction false} PrefixPossible<R, E>(plan: seq<Outcome<R, E>>, concurrency: nat, turns: seq<nat>, n: nat)
    requires Possible(plan, concurrency, turns) && n <= |turns|
    ensures Possible(plan, concurrency, turns[..n])
  {
    if n == |turns| {
      assert turns[..n] == turns;
    } else {
      PrefixPossible(plan, concurrency, turns[..|turns| - 1], n);
      assert turns[..|turns| - 1][..n] == turns[..n];
    }
  }

  /** A failure stands in every state of a run after its first `n` turns. */
  ghost predicate FailureStands<R, E>(plan: seq<Outcome<R, E>>, concurrency: nat, turns: seq<nat>, n: nat) {
    forall k :: n < k <= |turns| && Possible(plan, concurrency, turns[..k]) ==>
      !After(plan, concurrency, turns[..k]).failure.Null?
  }

  /** For as long as a failure stands nothing more is requested, in whatever order requests come back. */
  lemma {:induction false} NothingDrawnWhileFailureStands<R, E>(
    plan: seq<Outcome<R, E>>, concurrency: nat, turns: seq<nat>, n: nat)
    requires Possible(plan, concurrency, turns) && n <= |turns| && FailureStands(plan, concurrency, turns, n)
    ensures Possible(plan, concurrency, turns[..n])
    ensures After(plan, concurrency, turns).launched == After(plan, concurrency, turns[..n]).launched
  {
    PrefixPossible(plan, concurrency, turns, n);
    if n == |turns| {
      assert turns[..n] == turns;
    } else {
      var before := turns[..|turns| - 1];
      forall k | n < k <= |before| && Possible(plan, concurrency, before[..k])
        ensures !After(plan, concurrency, before[..k]).failure.Null?
      {
        assert before[..k] == turns[..k];
      }
      NothingDrawnWhileFailureStands(plan, concurrency, before, n);
      assert before[..n] == turns[..n];
      assert turns[..|turns|] == turns;
    }
  }

  /** The first real error is final: in every continuation it is the failure, and nothing more is requested. */
  lemma {:induction false} FirstErrorIsFinal<R, E>(plan: seq<Outcome<R, E>>, concurrency: nat, turns: seq<nat>, n: nat)
    requires Possible(plan, concurrency, turns) && n <= |turns| && Possible(plan, concurrency, turns[..n])
    requires After(plan, concurrency, turns[..n]).failure.Error?
    ensures After(plan, concurrency, turns).failure == After(plan, concurrency, turns[..n]).failure
    ensures After(plan, concurrency, turns).launched == After(plan, concurrency, turns[..n]).launched
  {
    if n == |turns| {
      assert turns[..n] == turns;
    } else {
      var before := turns[..|turns| - 1];
      assert before[..n] == turns[..n];
      FirstErrorIsFinal(plan, concurrency, before, n);
    }
  }

  /** One step: a standing failure goes only when a thrown `null` meets a thrown `undefined`, and only then is
      another index drawn. */
  lemma NothingDrawnAfterFailure<R, E>(s: Pool<R, E>, w: nat, outcome: Outcome<R, E>)
    requires Enabled(s, w) && !s.failure.Null?
    ensures var next := Resumed(s, w, outcome);
            && (next.failure.Null? <==> s.failure.Undefined? && outcome == Failed(Null))
            && (next.cursor != s.cursor <==> next.failure.Null? && s.cursor < |s.workload|)
            && (next.cursor == s.cursor ==> next.launched == s.launched && next.workers[w].Finished?)
            && (s.failure.Error? ==> next.failure == s.failure)
  {
  }

  lemma OneMoreTurn<R, E>(plan: seq<Outcome<R, E>>, concurrency: nat, turns: seq<nat>, w: nat)
    requires Possible(plan, concurrency, turns) && Enabled(After(plan, concurrency, turns), w)
    ensures Possible(plan, concurrency, turns + [w])
    ensures var s := After(plan, concurrency, turns);
            After(plan, concurrency, turns + [w]) == Resumed(s, w, OutcomeFor(plan, s, w))
  {
    assert (turns + [w])[..|turns|] == turns;
  }

  lemma TwoWorkersStart<R, E>()
    ensures Entered<R, E>(3, 2)
            == Pool([None, None, None], 2, Null, [Running(0), Running(1)], [0, 1], [])
  {
    var one: Pool<R, E> := Entered(3, 1);
    assert one.workers == [Running(0)];
  }

  /** The pool after one worker threw `undefined`, and after the other then threw `null`. */
  function Stopped<R, E>(): Pool<R, E> {
    Pool([None, None, None], 2, Undefined, [Finished, Running(1)], [0, 1], [0])
  }

  function Revived<R, E>(): Pool<R, E> {
    Pool([None, None, None], 3, Null, [Finished, Running(2)], [0, 1, 2], [0, 1])
  }

  lemma StopThenRevive<R, E>()
    ensures Resumed<R, E>(Entered(3, 2), 0, Failed(Undefined)) == Stopped()
    ensures Resumed<R, E>(Stopped(), 1, Failed(Null)) == Revived()
  {
    TwoWorkersStart<R, E>();
  }

  /** A thrown `undefined` is not final. The first of two workers throws it and stops; the second throws
      `null`, which erases it, goes on to draw the last index, and the pool ends without a failure. */
  lemma UndefinedIsForgotten<R, E>(answer: R) returns (plan: seq<Outcome<R, E>>, turns: seq<nat>)
    ensures plan == [Failed(Undefined), Failed(Null), Answer(answer)] && Possible(plan, 2, turns) && |turns| == 3
    ensures Possible(plan, 2, turns[..1]) && After(plan, 2, turns[..1]).failure.Undefined?
    ensures After(plan, 2, turns[..1]).launched == [0, 1] && After(plan, 2, turns).launched == [0, 1, 2]
    ensures Joined(After(plan, 2, turns)) && After(plan, 2, turns).failure.Null?
  {
    plan := [Failed(Undefined), Failed(Null), Answer(answer)];
    TwoWorkersStart<R, E>();
    StopThenRevive<R, E>();
    OneMoreTurn(plan, 2, [], 0);
    assert [] + [0] == [0];
    assert After(plan, 2, [0]) == Stopped();
    OneMoreTurn(plan, 2, [0], 1);
    assert [0] + [1] == [0, 1];
    assert After(plan, 2, [0, 1]) == Revived();
    OneMoreTurn(plan, 2, [0, 1], 1);
    turns := [0, 1] + [1];
    assert turns[..1] == [0];
  }
}
