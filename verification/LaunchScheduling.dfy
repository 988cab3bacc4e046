/** The launch scheduler of the workload: every caller chains a callback on the promise of the caller before,
    and a callback waits until the previous launch is `interval` old before it lets its caller go. */
module LaunchScheduling {
  import opened Common

  /** What a promise is waiting for: the promise it is chained on, or a sleep of its own callback. */
  datatype JobState = Waiting | Sleeping(due: int) | Fulfilled | Rejected

  /** A promise made by `then`: the promise it is chained on, and how far its callback has come. */
  datatype Job = Job(on: nat, state: JobState)

  datatype Launch = Launch(caller: nat, at: int)

  /** The scheduler and the promises it made. Promise 0 is the one it starts from, already resolved; each
      call makes one more, chained on `pending`. `launches` lists who was let go and the time read then. */
  datatype Scheduler = Scheduler(
    lastStart: Option<int>,
    pending: nat,
    promises: seq<Job>,
    launches: seq<Launch>)

  /** One turn of the event loop, with the readings of `now` it makes in order. */
  datatype Turn =
    | Call
    | Begin(job: nat, now: int, later: int)
    | Wake(job: nat, later: int)
    | SleepRejects(job: nat)
    | Skip(job: nat)

  const IDLE := Scheduler(None, 0, [Job(0, Fulfilled)], [])

  predicate Is(promises: seq<Job>, job: nat, state: JobState) {
    job < |promises| && promises[job].state == state
  }

  /** A callback that has not run yet and is chained on a promise settled this way. */
  predicate ChainedOn(promises: seq<Job>, job: nat, state: JobState) {
    Is(promises, job, Waiting) && Is(promises, promises[job].on, state)
  }

  predicate Asleep(promises: seq<Job>, job: nat) {
    job < |promises| && promises[job].state.Sleeping?
  }

  /** The event loop runs any callback whose promise was fulfilled, passes a rejection on to any promise
      chained on it, and resumes any callback whose sleep is over. */
  predicate Enabled(s: Scheduler, turn: Turn) {
    match turn
    case Call => true
    case Begin(job, _, _) => ChainedOn(s.promises, job, Fulfilled)
    case Wake(job, _) => Asleep(s.promises, job)
    case SleepRejects(job) => Asleep(s.promises, job)
    case Skip(job) => ChainedOn(s.promises, job, Rejected)
  }

  function Remaining(interval: nat, s: Scheduler, now: int): int {
    if s.lastStart.Some? then s.lastStart.value + interval - now else 0
  }

  function Settled(s: Scheduler, job: nat, state: JobState): Scheduler
    requires job < |s.promises|
  {
    s.(promises := s.promises[job := s.promises[job].(state := state)])
  }

  function Launched(s: Scheduler, job: nat, at: int): Scheduler
    requires job < |s.promises|
  {
    Settled(s, job, Fulfilled).(lastStart := Some(at), launches := s.launches + [Launch(job, at)])
  }

  function Turned(interval: nat, s: Scheduler, turn: Turn): Scheduler
    requires Enabled(s, turn)
  {
    match turn
    case Call => s.(promises := s.promises + [Job(s.pending, Waiting)], pending := |s.promises|)
    case Begin(job, now, later) =>
      var wait := Remaining(interval, s, now);
      if wait > 0 then Settled(s, job, Sleeping(now + wait)) else Launched(s, job, later)
    case Wake(job, later) => Launched(s, job, later)
    case SleepRejects(job) => Settled(s, job, Rejected)
    case Skip(job) => Settled(s, job, Rejected)
  }

  class LaunchScheduler {
    const interval: nat
    var lastStart: Option<int>
    var pending: nat
    var promises: seq<Job>
    ghost var launches: seq<Launch>

    ghost function State(): Scheduler
      reads this
    {
      Scheduler(lastStart, pending, promises, launches)
    }

    constructor (interval: nat)
      ensures this.interval == interval && State() == IDLE
    {
      this.interval, lastStart, pending, promises := interval, None, 0, [Job(0, Fulfilled)];
      launches := [];
    }

    /** Chain one more callback on `pending`, which becomes its promise; the caller waits for that promise. */
    method Call() returns (caller: nat)
      modifies this
      ensures caller == pending == |old(promises)| && State() == Turned(interval, old(State()), Turn.Call)
    {
      promises := promises + [Job(pending, Waiting)];
      pending := |promises| - 1;
      caller := pending;
    }

    /** Run a callback up to its sleep or its launch. */
    method Begin(job: nat, now: int, later: int) returns (wait: Option<int>)
      requires Enabled(State(), Turn.Begin(job, now, later))
      modifies this
      ensures State() == Turned(interval, old(State()), Turn.Begin(job, now, later))
      ensures wait.Some? <==> promises[job].state.Sleeping?
      ensures wait.Some? ==> wait.value > 0 && old(lastStart) == Some(now + wait.value - interval)
    {
      wait := None;
      if lastStart.Some? {
        var waitMs := lastStart.value + interval - now;
        if waitMs > 0 {
          Settle(job, Sleeping(now + waitMs));
          return Some(waitMs);
        }
      }
      Start(job, later);
    }

    method Wake(job: nat, later: int)
      requires Enabled(State(), Turn.Wake(job, later))
      modifies this
      ensures State() == Turned(interval, old(State()), Turn.Wake(job, later))
    {
      Start(job, later);
    }

    method Start(job: nat, at: int)
      requires job < |promises|
      modifies this
      ensures State() == Launched(old(State()), job, at)
    {
      lastStart := Some(at);
      Settle(job, Fulfilled);
      launches := launches + [Launch(job, at)];
    }

    method Settle(job: nat, state: JobState)
      requires job < |promises|
      modifies this`promises
      ensures State() == Settled(old(State()), job, state)
    {
      promises := promises[job := promises[job].(state := state)];
    }

    /** The sleep rejects, and with it the promise of its callback. */
    method SleepRejects(job: nat)
      requires Enabled(State(), Turn.SleepRejects(job))
      modifies this
      ensures State() == Turned(interval, old(State()), Turn.SleepRejects(job))
    {
      Settle(job, Rejected);
    }

    /** A rejected promise skips the callback chained on it and rejects that one's promise in turn. */
    method Skip(job: nat)
      requires Enabled(State(), Turn.Skip(job))
      modifies this
      ensures State() == Turned(interval, old(State()), Turn.Skip(job))
    {
      Settle(job, Rejected);
    }
  }

  // ---------------------------------------------------------------- every run

  /** A run is any interleaving of calls and callbacks the event loop allows. */
  predicate Possible(interval: nat, turns: seq<Turn>)
    decreases |turns|, 0
  {
    turns == []
    || (Possible(interval, turns[..|turns| - 1])
        && Enabled(After(interval, turns[..|turns| - 1]), turns[|turns| - 1]))
  }

  function After(interval: nat, turns: seq<Turn>): Scheduler
    requires Possible(interval, turns)
    decreases |turns|, 1
  {
    if turns == [] then IDLE
    else Turned(interval, After(interval, turns[..|turns| - 1]), turns[|turns| - 1])
  }

  /** The promises form one chain in call order. Those fulfilled are the first ones, in launch order; nothing
      sleeps but the next one; and a rejected one follows one that was settled. */
  predicate Chained(s: Scheduler) {
    var n := |s.promises|;
    && n > |s.launches| && s.pending == n - 1
    && (forall j :: 1 <= j < n ==> s.promises[j].on == j - 1)
    && (forall j :: 0 <= j < n ==> (s.promises[j].state.Fulfilled? <==> j <= |s.launches|))
    && (forall j :: 0 <= j < n && s.promises[j].state.Sleeping? ==> j == |s.launches| + 1)
    && (forall j :: 1 <= j < n && s.promises[j].state.Rejected? ==>
          s.promises[j - 1].state.Fulfilled? || s.promises[j - 1].state.Rejected?)
    && (forall k :: 0 <= k < |s.launches| ==> s.launches[k].caller == k + 1)
  }

  lemma TurnKeepsChain(interval: nat, s: Scheduler, turn: Turn)
    requires Chained(s) && Enabled(s, turn)
    ensures Chained(Turned(interval, s, turn))
  {
  }

  /** Callers are let go in the order of their calls: the launches of any run are those of the first callers,
      one each, whatever the event loop ran when. */
  lemma {:induction false} FirstCalledFirstLaunched(interval: nat, turns: seq<Turn>)
    requires Possible(interval, turns)
    ensures Chained(After(interval, turns))
  {
    if turns != [] {
      FirstCalledFirstLaunched(interval, turns[..|turns| - 1]);
      TurnKeepsChain(interval, After(interval, turns[..|turns| - 1]), turns[|turns| - 1]);
    }
  }

  /** Launches already made stay as they were, and a turn adds at most that of the next caller. */
  lemma TurnsOnlyAppend(interval: nat, s: Scheduler, turn: Turn)
    requires Chained(s) && Enabled(s, turn)
    ensures var next := Turned(interval, s, turn);
            && s.launches <= next.launches && |next.launches| <= |s.launches| + 1
            && (|next.launches| > |s.launches| ==> next.launches[|s.launches|].caller == |s.launches| + 1)
  {
  }

  predicate Active(s: Scheduler, job: nat) {
    ChainedOn(s.promises, job, Fulfilled) || Asleep(s.promises, job)
  }

  /** The chain is a lock: at most one callback can run or is asleep, and it is that of the next caller. */
  lemma OneCallbackAtATime(interval: nat, turns: seq<Turn>, i: nat, j: nat)
    requires Possible(interval, turns)
    ensures var s := After(interval, turns);
            && (Active(s, i) && Active(s, j) ==> i == j)
            && (Active(s, i) ==> i == |s.launches| + 1)
  {
    FirstCalledFirstLaunched(interval, turns);
  }

  /** The first promise that was not fulfilled is rejected as soon as any is. */
  lemma {:induction false} RejectedFront(s: Scheduler, job: nat)
    requires Chained(s) && Is(s.promises, job, Rejected)
    ensures Is(s.promises, |s.launches| + 1, Rejected)
    decreases job
  {
    if job > |s.launches| + 1 {
      RejectedFront(s, job - 1);
    }
  }

  lemma RejectionStays(interval: nat, s: Scheduler, turn: Turn, job: nat)
    requires Chained(s) && Enabled(s, turn) && Is(s.promises, job, Rejected)
    ensures var next := Turned(interval, s, turn);
            next.launches == s.launches && Is(next.promises, job, Rejected)
  {
    RejectedFront(s, job);
  }

  /** Once a promise is rejected nobody is let go any more, in any continuation: neither the callers
      chained after it nor any who call later. */
  lemma {:induction false} NobodyLaunchesAfterRejection(interval: nat, turns: seq<Turn>, n: nat, job: nat)
    requires Possible(interval, turns) && n <= |turns|
    requires Possible(interval, turns[..n]) && Is(After(interval, turns[..n]).promises, job, Rejected)
    ensures After(interval, turns).launches == After(interval, turns[..n]).launches
    ensures Is(After(interval, turns).promises, job, Rejected)
    ensures forall j :: job <= j < |After(interval, turns).promises| ==>
              !After(interval, turns).promises[j].state.Fulfilled?
  {
    FirstCalledFirstLaunched(interval, turns);
    if n < |turns| {
      var before := turns[..|turns| - 1];
      assert before[..n] == turns[..n];
      NobodyLaunchesAfterRejection(interval, before, n, job);
      FirstCalledFirstLaunched(interval, before);
      RejectionStays(interval, After(interval, before), turns[|turns| - 1], job);
    } else {
      assert turns[..n] == turns;
    }
  }

  // ---------------------------------------------------------------- spacing

  predicate Spaced(interval: nat, launches: seq<Launch>) {
    forall i :: 0 < i < |launches| ==> launches[i].at - launches[i - 1].at >= interval
  }

  /** What the scheduler remembers of its launches, whatever the clock does: the last one, and in every sleep
      the time at which the next is due. */
  predicate Dated(interval: nat, s: Scheduler) {
    && s.lastStart == (if s.launches == [] then None else Some(s.launches[|s.launches| - 1].at))
    && (forall j :: 0 <= j < |s.promises| && s.promises[j].state.Sleeping? ==>
          s.lastStart.Some? && s.promises[j].state.due == s.lastStart.value + interval)
  }

  lemma TurnKeepsDates(interval: nat, s: Scheduler, turn: Turn)
    requires Chained(s) && Dated(interval, s) && Enabled(s, turn)
    ensures Dated(interval, Turned(interval, s, turn))
  {
  }

  lemma {:induction false} RunsAreDated(interval: nat, turns: seq<Turn>)
    requires Possible(interval, turns)
    ensures Dated(interval, After(interval, turns))
  {
    if turns != [] {
      var before := turns[..|turns| - 1];
      RunsAreDated(interval, before);
      FirstCalledFirstLaunched(interval, before);
      TurnKeepsDates(interval, After(interval, before), turns[|turns| - 1]);
    }
  }

  /** The readings of one turn are in order where it matters: a callback that finds its time come does not read
      an earlier one when it launches, and a sleep ends no earlier than it was due. */
  predicate Keeps(interval: nat, s: Scheduler, turn: Turn) {
    match turn
    case Begin(_, now, later) =>
      s.lastStart.Some? && s.lastStart.value + interval <= now ==> s.lastStart.value + interval <= later
    case Wake(job, later) => Asleep(s.promises, job) ==> s.promises[job].state.due <= later
    case _ => true
  }

  predicate AllKeep(interval: nat, turns: seq<Turn>)
    requires Possible(interval, turns)
  {
    turns == []
    || (AllKeep(interval, turns[..|turns| - 1])
        && Keeps(interval, After(interval, turns[..|turns| - 1]), turns[|turns| - 1]))
  }

  lemma TurnSpacesExactly(interval: nat, s: Scheduler, turn: Turn)
    requires Chained(s) && Dated(interval, s) && Enabled(s, turn)
    ensures Spaced(interval, Turned(interval, s, turn).launches)
       <==> (Spaced(interval, s.launches) && Keeps(interval, s, turn))
  {
    var next := Turned(interval, s, turn);
    var n := |s.launches|;
    assert next.launches[..n] == s.launches;
    if |next.launches| > n && n > 0 {
      assert Spaced(interval, next.launches) <==>
             Spaced(interval, s.launches) && next.launches[n].at - next.launches[n - 1].at >= interval by {
        MoreSpaced(interval, s.launches, next.launches[n]);
        assert next.launches == s.launches + [next.launches[n]];
      }
    }
  }

  lemma MoreSpaced(interval: nat, launches: seq<Launch>, more: Launch)
    requires launches != []
    ensures Spaced(interval, launches + [more]) <==>
            Spaced(interval, launches) && more.at - launches[|launches| - 1].at >= interval
  {
    var all := launches + [more];
    if Spaced(interval, all) {
      assert all[|launches|].at - all[|launches| - 1].at >= interval;
      forall i | 0 < i < |launches|
        ensures launches[i].at - launches[i - 1].at >= interval
      {
        assert all[i].at - all[i - 1].at >= interval;
      }
    }
  }

  /** Launches are at least an interval apart exactly if every turn of the run kept its readings in order. What
      the clock does between one callback and the next is of no account. */
  lemma {:induction false} SpacedExactly(interval: nat, turns: seq<Turn>)
    requires Possible(interval, turns)
    ensures Spaced(interval, After(interval, turns).launches) <==> AllKeep(interval, turns)
  {
    if turns != [] {
      var before := turns[..|turns| - 1];
      SpacedExactly(interval, before);
      FirstCalledFirstLaunched(interval, before);
      RunsAreDated(interval, before);
      TurnSpacesExactly(interval, After(interval, before), turns[|turns| - 1]);
    }
  }

  /** What a caller can count on: within one callback the clock does not go back, and a sleep takes at least
      as long as it was asked to. */
  predicate Honest(s: Scheduler, turn: Turn) {
    match turn
    case Begin(_, now, later) => now <= later
    case Wake(job, later) => Asleep(s.promises, job) ==> s.promises[job].state.due <= later
    case _ => true
  }

  predicate AllHonest(interval: nat, turns: seq<Turn>)
    requires Possible(interval, turns)
  {
    turns == []
    || (AllHonest(interval, turns[..|turns| - 1])
        && Honest(After(interval, turns[..|turns| - 1]), turns[|turns| - 1]))
  }

  lemma {:induction false} HonestTurnsKeep(interval: nat, turns: seq<Turn>)
    requires Possible(interval, turns) && AllHonest(interval, turns)
    ensures AllKeep(interval, turns)
  {
    if turns != [] {
      HonestTurnsKeep(interval, turns[..|turns| - 1]);
    }
  }

  lemma {:induction false} GapsAddUp(interval: nat, launches: seq<Launch>, i: nat, j: nat)
    requires Spaced(interval, launches) && i <= j < |launches|
    ensures launches[j].at - launches[i].at >= (j - i) * interval
  {
    if i < j {
      GapsAddUp(interval, launches, i, j - 1);
      assert (j - i) * interval == (j - 1 - i) * interval + interval;
    }
  }

  /** However many callers there are and however their calls interleave, any two launches are at least as
      many intervals apart as there are launches between them. */
  lemma LaunchesAreSpaced(interval: nat, turns: seq<Turn>, i: nat, j: nat)
    requires Possible(interval, turns) && AllHonest(interval, turns)
    requires i <= j < |After(interval, turns).launches|
    ensures After(interval, turns).launches[j].at - After(interval, turns).launches[i].at >= (j - i) * interval
  {
    HonestTurnsKeep(interval, turns);
    SpacedExactly(interval, turns);
    GapsAddUp(interval, After(interval, turns).launches, i, j);
  }

  lemma OneMoreTurn(interval: nat, turns: seq<Turn>, turn: Turn)
    requires Possible(interval, turns) && Enabled(After(interval, turns), turn)
    ensures Possible(interval, turns + [turn])
    ensures After(interval, turns + [turn]) == Turned(interval, After(interval, turns), turn)
  {
    assert (turns + [turn])[..|turns|] == turns;
  }

  /** A clock that goes back between the two readings of one callback defeats the spacing: the launch that was
      late enough by the first reading is recorded with the second. */
  lemma ClockMustNotGoBack(interval: nat) returns (turns: seq<Turn>)
    requires interval > 0
    ensures Possible(interval, turns) && After(interval, turns).launches == [Launch(1, 0), Launch(2, 0)]
    ensures !AllKeep(interval, turns)
  {
    turns := TwoCalls(interval);
    OneMoreTurn(interval, turns, Begin(2, interval, 0));
    turns := turns + [Begin(2, interval, 0)];
    NotSpaced(interval, turns);
  }

  /** So does a sleep that ends early. */
  lemma SleepMustNotEndEarly(interval: nat) returns (turns: seq<Turn>)
    requires interval > 0
    ensures Possible(interval, turns) && After(interval, turns).launches == [Launch(1, 0), Launch(2, 0)]
    ensures !AllKeep(interval, turns)
  {
    turns := TwoCalls(interval);
    OneMoreTurn(interval, turns, Begin(2, 0, 0));
    turns := turns + [Begin(2, 0, 0)];
    OneMoreTurn(interval, turns, Wake(2, 0));
    turns := turns + [Wake(2, 0)];
    NotSpaced(interval, turns);
  }

  lemma TwoCalls(interval: nat) returns (turns: seq<Turn>)
    ensures Possible(interval, turns)
    ensures After(interval, turns)
            == Scheduler(Some(0), 2, [Job(0, Fulfilled), Job(0, Fulfilled), Job(1, Waiting)], [Launch(1, 0)])
  {
    turns := [];
    OneMoreTurn(interval, turns, Call);
    turns := turns + [Call];
    OneMoreTurn(interval, turns, Begin(1, 0, 0));
    turns := turns + [Begin(1, 0, 0)];
    OneMoreTurn(interval, turns, Call);
    turns := turns + [Call];
  }

  lemma NotSpaced(interval: nat, turns: seq<Turn>)
    requires interval > 0 && Possible(interval, turns)
    requires After(interval, turns).launches == [Launch(1, 0), Launch(2, 0)]
    ensures !AllKeep(interval, turns)
  {
    SpacedExactly(interval, turns);
    var launches := After(interval, turns).launches;
    assert launches[1].at - launches[0].at < interval;
  }
}
