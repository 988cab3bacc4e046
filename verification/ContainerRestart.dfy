/** The container object of the Worker: restarts and inspections of the candidate credential, as they
    interleave at every await with each other and with changes of the container. */
module ContainerRestart {
  import opened Common

  const POLL_ATTEMPTS := 80
  const MINIMUM_SPACING := 1000

  datatype Status = Running | Healthy | Stopping | Stopped | StoppedWithCode

  predicate Down(status: Status) {
    status.Stopped? || status.StoppedWithCode?
  }

  /** The container as `getState` sees it, the key it loaded when it came up, and how often it has changed. */
  datatype Container = Container(status: Status, lastChange: int, loaded: Option<string>, changes: nat)

  /** What a task remembers of an earlier `getState`. */
  datatype Seen = Seen(lastChange: int, changes: nat)

  datatype Operation = Install | Remove | Verify

  datatype Receipt =
    | RestartReceipt(key: Option<string>, lastChange: int, previous: Seen)
    | InspectionReceipt(key: Option<string>, lastChange: int, previous: Seen)

  /** A call suspended at one of its awaits, or settled; `checked` is how often the container had changed when
      it passed the credential check. */
  datatype Task =
    | Binding(operation: Operation, expected: string)
    | Reading
    | Stopping(seen: Seen)
    | Polling(seen: Seen, attempt: nat)
    | Pausing(seen: Seen, attempt: nat)
    | Starting(seen: Seen)
    | Checking(seen: Seen)
    | Confirming(seen: Seen, checked: nat)
    | InspectBinding(expected: string)
    | InspectReading
    | InspectChecking(seen: Seen)
    | InspectConfirming(seen: Seen, checked: nat)
    | Answered(receipt: Receipt)
    | Threw

  predicate Restarting(task: Task) {
    task.Binding? || task.Reading? || task.Stopping? || task.Polling? || task.Pausing? || task.Starting?
    || task.Checking? || task.Confirming?
  }

  predicate Settled(task: Task) {
    task.Answered? || task.Threw?
  }

  /** The two fields that keep restarts apart. */
  datatype Guard = Guard(inFlight: bool, lastAt: int)

  predicate Admits(guard: Guard, now: int) {
    !guard.inFlight && now - guard.lastAt >= MINIMUM_SPACING
  }

  class MilkCarton {
    var candidateRestartInFlight: bool
    var lastCandidateRestartAt: int

    ghost function State(): Guard
      reads this
    {
      Guard(candidateRestartInFlight, lastCandidateRestartAt)
    }

    constructor ()
      ensures State() == Guard(false, 0)
    {
      candidateRestartInFlight, lastCandidateRestartAt := false, 0;
    }

    /** The start of a restart, up to its first await: it either throws at once or takes the flag. */
    method BeginRestart(operation: Operation, expected: string, now: int) returns (task: Task)
      modifies this
      ensures task == Begun(old(State()), operation, expected, now)
      ensures State() == if task.Threw? then old(State()) else Guard(true, now)
    {
      if candidateRestartInFlight || now - lastCandidateRestartAt < MINIMUM_SPACING {
        return Threw;
      }
      candidateRestartInFlight, lastCandidateRestartAt := true, now;
      task := Binding(operation, expected);
    }

    /** Resume a call after its await, `fulfilled` or not, with the container as it is now: the code up to the
        next await, step by step. Every way out of a restart lowers the flag. */
    method Resume(bound: Option<string>, container: Container, task: Task, fulfilled: bool) returns (next: Task)
      modifies this`candidateRestartInFlight
      ensures next == Resumed(bound, container, task, fulfilled)
      ensures State() == Released(old(State()), task, next)
      ensures candidateRestartInFlight == (old(candidateRestartInFlight) && !(Restarting(task) && Settled(next)))
    {
      if task.Threw? || task.Answered? {
        return task;
      }
      next := Threw;
      if fulfilled {
        if task.InspectBinding? || task.InspectReading? || task.InspectChecking? || task.InspectConfirming? {
          next := ResumeInspection(bound, container, task);
        } else {
          next := ResumeRestart(bound, container, task);
        }
      }
      if Restarting(task) && (next.Threw? || next.Answered?) {
        candidateRestartInFlight := false;
      }
    }

    method ResumeInspection(bound: Option<string>, container: Container, task: Task) returns (next: Task)
      requires task.InspectBinding? || task.InspectReading? || task.InspectChecking? || task.InspectConfirming?
      ensures next == Resumed(bound, container, task, true)
    {
      next := Threw;
      match task
      case InspectBinding(expected) =>
        if bound.None? || bound.value == expected {
          next := InspectReading;
        }
      case InspectReading =>
        if container.status == Healthy {
          next := InspectChecking(Seen(container.lastChange, container.changes));
        }
      case InspectChecking(seen) =>
        if container.loaded == bound {
          next := InspectConfirming(seen, container.changes);
        }
      case InspectConfirming(seen, _) =>
        if container.status == Healthy && container.lastChange == seen.lastChange {
          next := Answered(InspectionReceipt(bound, container.lastChange, seen));
        }
    }

    method ResumeRestart(bound: Option<string>, container: Container, task: Task) returns (next: Task)
      requires Restarting(task)
      ensures next == Resumed(bound, container, task, true)
    {
      next := Threw;
      var stopped := container.status == Stopped || container.status == StoppedWithCode;
      match task
      case Binding(operation, expected) =>
        var changed := (operation == Install && bound != Some(expected)) || (operation == Remove && bound.Some?)
                       || (operation == Verify && bound.Some? && bound.value != expected);
        if !changed {
          next := Reading;
        }
      case Reading =>
        var previous := Seen(container.lastChange, container.changes);
        next := if stopped then Starting(previous) else Task.Stopping(previous);
      case Stopping(seen) =>
        next := Polling(seen, 0);
      case Polling(seen, attempt) =>
        next := if stopped then Starting(seen) else Pausing(seen, attempt);
      case Pausing(seen, attempt) =>
        if attempt + 1 < POLL_ATTEMPTS {
          next := Polling(seen, attempt + 1);
        }
      case Starting(seen) =>
        next := Checking(seen);
      case Checking(seen) =>
        if container.loaded == bound {
          next := Confirming(seen, container.changes);
        }
      case Confirming(seen, _) =>
        if container.status == Healthy && container.lastChange > seen.lastChange {
          next := Answered(RestartReceipt(bound, container.lastChange, seen));
        }
    }
  }

  function Begun(guard: Guard, operation: Operation, expected: string, now: int): Task {
    if Admits(guard, now) then Binding(operation, expected) else Threw
  }

  function Released(guard: Guard, task: Task, next: Task): Guard {
    if Restarting(task) && Settled(next) then guard.(inFlight := false) else guard
  }

  predicate BindingFits(operation: Operation, expected: string, bound: Option<string>) {
    match operation
    case Install => bound == Some(expected)
    case Remove => bound.None?
    case Verify => bound.None? || bound == Some(expected)
  }

  /** The credential check: the container answers, and has loaded exactly the bound key, or none. */
  predicate CheckPasses(bound: Option<string>, container: Container, fulfilled: bool) {
    fulfilled && container.loaded == bound
  }

  function Now(container: Container): Seen {
    Seen(container.lastChange, container.changes)
  }

  /** The code from one await to the next; `fulfilled` is whether the awaited promise was. */
  function Resumed(bound: Option<string>, container: Container, task: Task, fulfilled: bool): Task {
    if Settled(task) then task
    else if task.Checking? then
      (if CheckPasses(bound, container, fulfilled) then Confirming(task.seen, container.changes) else Threw)
    else if task.InspectChecking? then
      (if CheckPasses(bound, container, fulfilled) then InspectConfirming(task.seen, container.changes) else Threw)
    else if !fulfilled then Threw
    else
      match task
      case Binding(operation, expected) => if BindingFits(operation, expected, bound) then Reading else Threw
      case Reading => if Down(container.status) then Starting(Now(container)) else Task.Stopping(Now(container))
      case Stopping(seen) => Polling(seen, 0)
      case Polling(seen, attempt) => if Down(container.status) then Starting(seen) else Pausing(seen, attempt)
      case Pausing(seen, attempt) => if attempt + 1 < POLL_ATTEMPTS then Polling(seen, attempt + 1) else Threw
      case Starting(seen) => Checking(seen)
      case Confirming(seen, _) =>
        if container.status.Healthy? && container.lastChange > seen.lastChange
        then Answered(RestartReceipt(bound, container.lastChange, seen)) else Threw
      case InspectBinding(expected) => if bound.None? || bound == Some(expected) then InspectReading else Threw
      case InspectReading => if container.status.Healthy? then InspectChecking(Now(container)) else Threw
      case InspectConfirming(seen, _) =>
        if container.status.Healthy? && container.lastChange == seen.lastChange
        then Answered(InspectionReceipt(bound, container.lastChange, seen)) else Threw
      case _ => Threw
  }

  // ---------------------------------------------------------------- every interleaving

  /** `admitted` lists when restarts were let in. */
  datatype State = State(guard: Guard, container: Container, tasks: seq<Task>, admitted: seq<int>)

  datatype Move =
    | Restart(operation: Operation, expected: string, now: int)
    | Inspect(expected: string)
    | Resume(task: nat, fulfilled: bool)
    | Change(status: Status, at: int, loaded: Option<string>)

  /** Every change of the container has a later time than the one before; the clock may do what it likes. */
  predicate Enabled(s: State, move: Move) {
    match move
    case Restart(_, _, _) => true
    case Inspect(_) => true
    case Resume(task, _) => task < |s.tasks| && !Settled(s.tasks[task])
    case Change(_, at, _) => at > s.container.lastChange
  }

  function Next(bound: Option<string>, s: State, move: Move): State
    requires Enabled(s, move)
  {
    match move
    case Restart(operation, expected, now) =>
      var task := Begun(s.guard, operation, expected, now);
      var begun := s.(tasks := s.tasks + [task]);
      if task.Threw? then begun else begun.(guard := Guard(true, now), admitted := s.admitted + [now])
    case Inspect(expected) => s.(tasks := s.tasks + [InspectBinding(expected)])
    case Resume(i, fulfilled) =>
      var next := Resumed(bound, s.container, s.tasks[i], fulfilled);
      s.(tasks := s.tasks[i := next], guard := Released(s.guard, s.tasks[i], next))
    case Change(status, at, loaded) =>
      s.(container := Container(status, at, loaded, s.container.changes + 1))
  }

  function Initial(container: Container): State {
    State(Guard(false, 0), container, [], [])
  }

  predicate Possible(bound: Option<string>, container: Container, moves: seq<Move>)
    decreases |moves|, 0
  {
    moves == []
    || (Possible(bound, container, moves[..|moves| - 1])
        && Enabled(After(bound, container, moves[..|moves| - 1]), moves[|moves| - 1]))
  }

  function After(bound: Option<string>, container: Container, moves: seq<Move>): State
    requires Possible(bound, container, moves)
    decreases |moves|, 1
  {
    if moves == [] then Initial(container)
    else Next(bound, After(bound, container, moves[..|moves| - 1]), moves[|moves| - 1])
  }

  /** The flag is up exactly while one restart is between its start and its end, and never for two. */
  ghost predicate FlagInv(s: State) {
    && (s.guard.inFlight <==> exists i :: 0 <= i < |s.tasks| && Restarting(s.tasks[i]))
    && (forall i, j :: 0 <= i < j < |s.tasks| ==> !(Restarting(s.tasks[i]) && Restarting(s.tasks[j])))
  }

  predicate SpacingInv(s: State) {
    && (forall k :: 0 < k < |s.admitted| ==> s.admitted[k] - s.admitted[k - 1] >= MINIMUM_SPACING)
    && s.guard.lastAt == (if s.admitted == [] then 0 else s.admitted[|s.admitted| - 1])
  }

  /** Equal times mean the same generation of the container, and an earlier time an earlier one. */
  predicate SeenOk(container: Container, seen: Seen) {
    && seen.changes <= container.changes
    && (if seen.changes == container.changes then seen.lastChange == container.lastChange
        else seen.lastChange < container.lastChange)
  }

  predicate TaskOk(bound: Option<string>, container: Container, task: Task) {
    && ((task.Stopping? || task.Polling? || task.Pausing? || task.Starting? || task.Checking? || task.Confirming?
         || task.InspectChecking? || task.InspectConfirming?) ==> SeenOk(container, task.seen))
    && (task.Confirming? || task.InspectConfirming? ==>
          task.seen.changes <= task.checked <= container.changes
          && (task.checked == container.changes ==> container.loaded == bound))
    && (task.Polling? || task.Pausing? ==> task.attempt < POLL_ATTEMPTS)
    && (task.Answered? && task.receipt.RestartReceipt? ==> task.receipt.lastChange > task.receipt.previous.lastChange)
  }

  predicate TasksOk(bound: Option<string>, s: State) {
    forall i :: 0 <= i < |s.tasks| ==> TaskOk(bound, s.container, s.tasks[i])
  }

  lemma FlagStep(bound: Option<string>, s: State, move: Move)
    requires FlagInv(s) && Enabled(s, move)
    ensures FlagInv(Next(bound, s, move))
  {
    var next := Next(bound, s, move);
    assert forall i :: 0 <= i < |s.tasks| && (move.Resume? ==> i != move.task) ==> next.tasks[i] == s.tasks[i];
    if move.Restart? && Admits(s.guard, move.now) {
      assert Restarting(next.tasks[|s.tasks|]);
    }
    if move.Resume? && Restarting(s.tasks[move.task]) && !Settled(next.tasks[move.task]) {
      assert Restarting(next.tasks[move.task]);
    }
  }

  lemma TaskStep(bound: Option<string>, container: Container, task: Task, fulfilled: bool)
    requires TaskOk(bound, container, task)
    ensures TaskOk(bound, container, Resumed(bound, container, task, fulfilled))
  {
  }

  lemma TasksStep(bound: Option<string>, s: State, move: Move)
    requires TasksOk(bound, s) && Enabled(s, move)
    ensures TasksOk(bound, Next(bound, s, move))
  {
    if move.Resume? {
      TaskStep(bound, s.container, s.tasks[move.task], move.fulfilled);
    }
  }

  lemma {:induction false} EveryRunKeepsInv(bound: Option<string>, container: Container, moves: seq<Move>)
    requires Possible(bound, container, moves)
    ensures var s := After(bound, container, moves); FlagInv(s) && SpacingInv(s) && TasksOk(bound, s)
  {
    if moves != [] {
      var before, move := moves[..|moves| - 1], moves[|moves| - 1];
      EveryRunKeepsInv(bound, container, before);
      FlagStep(bound, After(bound, container, before), move);
      TasksStep(bound, After(bound, container, before), move);
    }
  }

  /** At most one restart is in progress, and the flag that keeps it so is down whenever none is. */
  lemma RestartsExcludeEachOther(bound: Option<string>, container: Container, moves: seq<Move>, i: nat, j: nat)
    requires Possible(bound, container, moves)
    ensures var s := After(bound, container, moves);
            && (i < |s.tasks| && j < |s.tasks| && Restarting(s.tasks[i]) && Restarting(s.tasks[j]) ==> i == j)
            && (i < |s.tasks| && Restarting(s.tasks[i]) ==> s.guard.inFlight)
            && ((forall k :: 0 <= k < |s.tasks| ==> Settled(s.tasks[k])) ==> !s.guard.inFlight)
  {
    EveryRunKeepsInv(bound, container, moves);
  }

  lemma {:induction false} RestartsAreSpaced(bound: Option<string>, container: Container, moves: seq<Move>,
                                             i: nat, j: nat)
    requires Possible(bound, container, moves)
    requires i <= j < |After(bound, container, moves).admitted|
    ensures var admitted := After(bound, container, moves).admitted;
            admitted[j] - admitted[i] >= (j - i) * MINIMUM_SPACING
    decreases j - i
  {
    EveryRunKeepsInv(bound, container, moves);
    if i < j {
      RestartsAreSpaced(bound, container, moves, i, j - 1);
    }
  }

  /** What a restart waits for. It starts the container only once it saw it down, asks at most 80 times, and an
      inspection looks only at a healthy container. */
  lemma StartsOnlyWhatIsDown(bound: Option<string>, container: Container, task: Task, fulfilled: bool)
    ensures var next := Resumed(bound, container, task, fulfilled);
            && (next.Starting? && !task.Starting? ==>
                  fulfilled && container.status in {Stopped, StoppedWithCode} && (task.Reading? || task.Polling?))
            && ((task.Reading? || task.Polling?) && fulfilled ==>
                  !Settled(next) && (next.Starting? <==> container.status in {Stopped, StoppedWithCode}))
            && (task.Pausing? && fulfilled ==>
                  if task.attempt < 79 then next == Polling(task.seen, task.attempt + 1) else next.Threw?)
            && (task.InspectReading? && fulfilled ==> (next.Threw? <==> container.status != Healthy))
            && (!fulfilled && !Settled(task) ==> next.Threw?)
  {
  }

  /** The calls of a run, in order; the i-th is the one behind the i-th task. */
  function Calls(moves: seq<Move>): seq<Move> {
    if moves == [] then []
    else Calls(moves[..|moves| - 1]) + (if moves[|moves| - 1].Restart? || moves[|moves| - 1].Inspect?
                                        then [moves[|moves| - 1]] else [])
  }

  /** The bound key is what the operation is for: the expected key to install, none to remove, either to verify
      or to inspect. */
  predicate BoundAsCalled(bound: Option<string>, call: Move) {
    match call
    case Restart(Install, expected, _) => bound == Some(expected)
    case Restart(Remove, _, _) => bound == None
    case Restart(Verify, expected, _) => bound in {None, Some(expected)}
    case Inspect(expected) => bound in {None, Some(expected)}
    case _ => false
  }

  /** A task waits for its binding as it was called, or was bound as it was called, or threw. */
  predicate CalledAs(bound: Option<string>, call: Move, task: Task) {
    match task
    case Binding(operation, expected) => call.Restart? && call.operation == operation && call.expected == expected
    case InspectBinding(expected) => call == Inspect(expected)
    case Threw => true
    case Answered(RestartReceipt(key, _, _)) => call.Restart? && key == bound && BoundAsCalled(bound, call)
    case Answered(InspectionReceipt(key, _, _)) => call.Inspect? && key == bound && BoundAsCalled(bound, call)
    case _ => (call.Restart? <==> Restarting(task)) && BoundAsCalled(bound, call)
  }

  /** Whatever gets past its binding, and whatever is acknowledged, is for the key the call was about: an
      installation is of the expected key, a removal leaves none, and a verification or inspection reports the
      expected key or none. */
  lemma {:induction false} ReceiptsFitTheirCalls(bound: Option<string>, container: Container, moves: seq<Move>)
    requires Possible(bound, container, moves)
    ensures var s := After(bound, container, moves);
            && |Calls(moves)| == |s.tasks|
            && forall i :: 0 <= i < |s.tasks| ==> CalledAs(bound, Calls(moves)[i], s.tasks[i])
  {
    if moves != [] {
      var before, move := moves[..|moves| - 1], moves[|moves| - 1];
      ReceiptsFitTheirCalls(bound, container, before);
      var s := After(bound, container, before);
      if move.Resume? {
        ResumedAsCalled(bound, s.container, Calls(before)[move.task], s.tasks[move.task], move.fulfilled);
      }
    }
  }

  lemma ResumedAsCalled(bound: Option<string>, container: Container, call: Move, task: Task, fulfilled: bool)
    requires CalledAs(bound, call, task)
    ensures CalledAs(bound, call, Resumed(bound, container, task, fulfilled))
  {
  }

  /** And the binding stops nothing else: a call whose key is bound goes on. */
  lemma BoundCallsGoOn(bound: Option<string>, container: Container, call: Move, task: Task)
    requires CalledAs(bound, call, task) && (task.Binding? || task.InspectBinding?)
    ensures !Settled(Resumed(bound, container, task, true)) <==> BoundAsCalled(bound, call)
  {
  }

  /** A restart is acknowledged exactly if the container is healthy and changed since the call first looked; and
      if it did not change again after the credential check, the key in the receipt is the one it loaded. */
  lemma RestartReceiptIsNewer(bound: Option<string>, container: Container, moves: seq<Move>, i: nat, fulfilled: bool)
    requires Possible(bound, container, moves)
    requires var s := After(bound, container, moves); i < |s.tasks| && Restarting(s.tasks[i])
    ensures var s := After(bound, container, moves);
            var next := Resumed(bound, s.container, s.tasks[i], fulfilled);
            && (next.Answered? ==>
                  && next.receipt.RestartReceipt? && next.receipt.key == bound && s.container.status.Healthy?
                  && next.receipt.lastChange == s.container.lastChange > next.receipt.previous.lastChange
                  && next.receipt.previous.changes < s.container.changes)
            && (s.tasks[i].Confirming? && fulfilled && s.container.status.Healthy? ==>
                  (next.Answered? <==> s.tasks[i].seen.changes < s.container.changes))
            && (next.Answered? && s.tasks[i].checked == s.container.changes ==> next.receipt.key == s.container.loaded)
  {
    EveryRunKeepsInv(bound, container, moves);
    var s := After(bound, container, moves);
    assert TaskOk(bound, s.container, s.tasks[i]);
  }

  /** Every start of the container loads the key the Worker binds, as its environment makes it do. */
  predicate LoadsBinding(bound: Option<string>, moves: seq<Move>) {
    forall k :: 0 <= k < |moves| && moves[k].Change? ==> moves[k].loaded == bound
  }

  lemma {:induction false} CheckedKeyStays(bound: Option<string>, container: Container, moves: seq<Move>, i: nat)
    requires Possible(bound, container, moves) && LoadsBinding(bound, moves)
    requires i < |After(bound, container, moves).tasks| && After(bound, container, moves).tasks[i].Confirming?
    ensures After(bound, container, moves).container.loaded == bound
  {
    var before, move := moves[..|moves| - 1], moves[|moves| - 1];
    if !(move.Resume? && move.task == i) {
      CheckedKeyStays(bound, container, before, i);
    }
  }

  /** Where the container is started with the bound key only, a restart receipt is true: the key it reports is
      the one loaded, however often the container changed after the check. */
  lemma RestartReceiptIsTrue(bound: Option<string>, container: Container, moves: seq<Move>, i: nat, fulfilled: bool)
    requires Possible(bound, container, moves) && LoadsBinding(bound, moves)
    requires var s := After(bound, container, moves); i < |s.tasks| && Restarting(s.tasks[i])
    ensures var s := After(bound, container, moves);
            var next := Resumed(bound, s.container, s.tasks[i], fulfilled);
            next.Answered? ==> next.receipt.key == s.container.loaded
  {
    if After(bound, container, moves).tasks[i].Confirming? {
      CheckedKeyStays(bound, container, moves, i);
    }
  }

  /** Otherwise it need not be: if the container changes after the check, the receipt is given all the same, for
      the confirming read compares times with the first one only, and it is false exactly if another key came up. */
  lemma RestartReceiptMayBeStale(bound: Option<string>, container: Container, moves: seq<Move>, i: nat,
                                 at: int, loaded: Option<string>)
    requires Possible(bound, container, moves)
    requires var s := After(bound, container, moves);
             i < |s.tasks| && s.tasks[i].Confirming? && at > s.container.lastChange
    ensures var s := After(bound, container, moves);
            var changed := Next(bound, s, Change(Healthy, at, loaded));
            var next := Resumed(bound, changed.container, changed.tasks[i], true);
            next.Answered? && (next.receipt.key == changed.container.loaded <==> loaded == bound)
  {
    EveryRunKeepsInv(bound, container, moves);
    var s := After(bound, container, moves);
    assert TaskOk(bound, s.container, s.tasks[i]);
  }

  lemma OneMoreMove(bound: Option<string>, container: Container, moves: seq<Move>, move: Move)
    requires Possible(bound, container, moves) && Enabled(After(bound, container, moves), move)
    ensures Possible(bound, container, moves + [move])
    ensures After(bound, container, moves + [move]) == Next(bound, After(bound, container, moves), move)
  {
    assert (moves + [move])[..|moves|] == moves;
  }

  /** A restart that comes as far as that last read: from a stopped container, with the bound key. */
  lemma ConfirmingIsReached(key: string) returns (container: Container, moves: seq<Move>)
    ensures Possible(Some(key), container, moves)
    ensures var s := After(Some(key), container, moves);
            |s.tasks| == 1 && s.tasks[0].Confirming? && s.container.loaded == Some(key)
  {
    var bound := Some(key);
    container := Container(Stopped, 1, None, 0);
    moves := [];
    OneMoreMove(bound, container, moves, Restart(Verify, key, MINIMUM_SPACING));
    moves := moves + [Restart(Verify, key, MINIMUM_SPACING)];
    assert After(bound, container, moves).tasks == [Binding(Verify, key)];
    OneMoreMove(bound, container, moves, Resume(0, true));
    moves := moves + [Resume(0, true)];
    assert After(bound, container, moves).tasks == [Reading];
    OneMoreMove(bound, container, moves, Resume(0, true));
    moves := moves + [Resume(0, true)];
    OneMoreMove(bound, container, moves, Change(Healthy, 2, bound));
    moves := moves + [Change(Healthy, 2, bound)];
    assert After(bound, container, moves).tasks == [Starting(Seen(1, 0))];
    OneMoreMove(bound, container, moves, Resume(0, true));
    moves := moves + [Resume(0, true)];
    OneMoreMove(bound, container, moves, Resume(0, true));
    moves := moves + [Resume(0, true)];
  }

  /** An inspection is acknowledged only if the container did not change between its first and its last look:
      the key it reports is the one loaded by that one generation, still up and healthy. */
  lemma InspectionSpansNoChange(bound: Option<string>, container: Container, moves: seq<Move>, i: nat, fulfilled: bool)
    requires Possible(bound, container, moves)
    requires var s := After(bound, container, moves); i < |s.tasks| && s.tasks[i].InspectConfirming?
    ensures var s := After(bound, container, moves);
            var next := Resumed(bound, s.container, s.tasks[i], fulfilled);
            && (next.Answered? <==>
                  fulfilled && s.container.status.Healthy? && s.tasks[i].seen.changes == s.container.changes)
            && (next.Answered? ==>
                  && next.receipt.InspectionReceipt? && next.receipt.key == bound == s.container.loaded
                  && next.receipt.lastChange == s.container.lastChange)
  {
    EveryRunKeepsInv(bound, container, moves);
    var s := After(bound, container, moves);
    assert TaskOk(bound, s.container, s.tasks[i]);
  }
}
