/** Deploying the gateway, accepting what came up, and undoing it when anything fails: the polls, the
    clean-up of a first deployment, the rollback, and the evidence that reports the outcome. */
module GatewayDeploy {
  import opened Common
  import opened CloudProvider

  const POLL_ATTEMPTS := 20
  const CLEANUP_ATTEMPTS := 6
  const ABSENCE_PROOFS := 3

  /** First deployment, deployment with a new configuration, or deployment that keeps the live one. */
  datatype Plan =
    | Bootstrap(image: string, config: string)
    | Replace(id: string, image: string, config: string, previousConfig: string)
    | Preserve(id: string, image: string, config: string)
  {
    function PreviousConfig(): string
      requires !Bootstrap?
    {
      if Replace? then previousConfig else config
    }

    function Target(): Command {
      Deploy(image, if Preserve? then None else Some(config))
    }

    function Restore(anchor: Anchor): Command
      requires !Bootstrap?
    {
      Deploy(anchor.image, if Preserve? then None else Some(previousConfig))
    }
  }

  /** What a deployment can be rolled back to. */
  datatype Anchor = Anchor(worker: string, image: string, version: nat, config: string)

  datatype Outcome =
    | Succeeded
    | PredeployFailed
    | BootstrapCleanupFailed
    | BootstrapFailedCleaned
    | RollbackFailed
    | DeploymentFailedRolledBack
    | EvidenceFinalizationFailed
    | Crashed

  // ---------------------------------------------------------------- acceptance

  predicate Shows(live: Live, id: string, image: string, config: string) {
    live.healthy && live.config == Some(config) && id in live.applications && live.applications[id].image == image
  }

  predicate WorkerIs(live: Live, expected: Option<string>, differ: bool) {
    live.worker.Single? && (expected.Some? ==> ((live.worker.version == expected.value) <==> !differ))
  }

  predicate Meets(live: Live, id: string, image: string, worker: Option<string>, differ: bool, config: string) {
    Shows(live, id, image, config) && WorkerIs(live, worker, differ)
  }

  datatype Observed = Observed(worker: string, image: string, version: nat, attempts: nat)

  /** Poll until one attempt sees the expected health, Worker and image together, or twenty did not: each looks at
      four things, and waits if it is not the last. */
  method Poll(provider: Provider, id: string, image: string, worker: Option<string>, differ: bool, config: string)
    returns (r: Reply<Observed>)
    modifies provider
    ensures provider.issued == old(provider.issued)
    ensures !r.Got? ==> provider.log == old(provider.log)
    ensures r.Got? ==> provider.log == old(provider.log) + [Accepted(provider.live)]
    ensures provider.Calm() && old(Meets(provider.live, id, image, worker, differ, config)) ==>
              r.Got? && provider.live == old(provider.live) && provider.step == old(provider.step) + 4 + 1
    ensures provider.Calm() && !old(Meets(provider.live, id, image, worker, differ, config)) ==>
              r.Failed? && provider.step == old(provider.step) + 20 * 4 + 19
    ensures r.Got? ==>
              var live := provider.live;
              && Meets(live, id, image, worker, differ, config)
              && r.value.worker == live.worker.version && r.value.image == image
              && r.value.version == live.applications[id].version && 1 <= r.value.attempts <= POLL_ATTEMPTS
  {
    for attempt := 1 to POLL_ATTEMPTS + 1
      invariant provider.log == old(provider.log) && provider.issued == old(provider.issued)
      invariant provider.Calm() && old(Meets(provider.live, id, image, worker, differ, config)) ==>
                  attempt == 1 && provider.live == old(provider.live) && provider.step == old(provider.step)
      invariant provider.Calm() && !old(Meets(provider.live, id, image, worker, differ, config)) ==>
                  && provider.live == old(provider.live)
                  && provider.step
                     == old(provider.step) + 5 * (attempt - 1) - (if attempt > POLL_ATTEMPTS then 1 else 0)
    {
      var health :- provider.ProbeHealth();
      var healthReady := health.ready && health.config == Some(config);
      var status := provider.ProbeWorker();
      if status.Raised? {
        return Raised;
      }
      var version := if status.Got? then status.value else None;
      var workerReady := version.Some? && (worker.None? || ((version == worker) <==> !differ));
      var info := provider.ProbeApplication(id);
      if info.Raised? {
        return Raised;
      }
      var imageReady := info.Got? && info.value.image == image;
      var instances := provider.ProbeInstances(id);
      if instances.Raised? {
        return Raised;
      }
      if healthReady && workerReady && imageReady {
        var recorded := provider.Local();
        if !recorded {
          return Raised;
        }
        provider.log := provider.log + [Accepted(provider.live)];
        return Got(Observed(version.value, info.value.image, info.value.version, attempt));
      }
      if attempt != POLL_ATTEMPTS {
        var _ :- provider.Pass();
      }
    }
    r := Failed;
  }

  // ---------------------------------------------------------------- clean-up of a first deployment

  /** One attempt: what the two probes saw, how many deletes it issued, and whether the wait after it held.
      `matches` is `None` when an attempt could not observe the provider. */
  datatype Attempt = Attempt(worker: Option<bool>, matches: Option<Option<string>>, deletes: nat, waited: bool)

  predicate Nothing(live: Live) {
    live.worker.Absent? && live.applications == map[]
  }

  predicate ProvesAbsence(a: Attempt) {
    a.worker == Some(false) && a.matches == Some(None)
  }

  /** The count of proofs after the last attempt: a wait that failed or an attempt that did not prove
      absence starts it again. */
  function Proofs(history: seq<Attempt>): nat
    decreases |history|, 0
  {
    if history == [] || !ProvesAbsence(history[|history| - 1]) then 0
    else Carried(history[..|history| - 1]) + 1
  }

  function Carried(history: seq<Attempt>): nat
    decreases |history|, 1
  {
    if history != [] && history[|history| - 1].waited then Proofs(history) else 0
  }

  predicate LastThreeProve(history: seq<Attempt>) {
    && |history| >= 3
    && (forall k :: |history| - 3 <= k < |history| ==> ProvesAbsence(history[k]))
    && (forall k :: |history| - 3 <= k < |history| - 1 ==> history[k].waited)
  }

  lemma {:induction false} ProofsAreAttempts(history: seq<Attempt>)
    ensures Proofs(history) <= |history|
  {
    if history != [] {
      ProofsAreAttempts(history[..|history| - 1]);
    }
  }

  lemma ThreeProofs(history: seq<Attempt>)
    ensures Proofs(history) >= ABSENCE_PROOFS <==> LastThreeProve(history)
  {
    var n := |history|;
    if n >= 3 {
      var one, two := history[..n - 1], history[..n - 2];
      assert one[..n - 2] == two;
      assert Proofs(history) >= 3 <==> ProvesAbsence(history[n - 1]) && one[n - 2].waited && Proofs(one) >= 2;
      assert Proofs(one) >= 2 <==> ProvesAbsence(one[n - 2]) && two[n - 3].waited && Proofs(two) >= 1;
      assert Proofs(two) >= 1 <==> ProvesAbsence(two[n - 3]);
    } else {
      ProofsAreAttempts(history);
    }
  }

  function Deletes(history: seq<Attempt>): nat {
    if history == [] then 0 else Deletes(history[..|history| - 1]) + history[|history| - 1].deletes
  }

  predicate OnlyDeletes(log: seq<Entry>) {
    forall i :: 0 <= i < |log| ==>
      log[i].Issued? && (log[i].command.DeleteWorker? || log[i].command.DeleteApplication?)
  }

  predicate DeletesOnly(before: seq<Entry>, after: seq<Entry>) {
    before <= after && OnlyDeletes(after[|before|..])
  }

  lemma DeletesAddUp(a: seq<Entry>, b: seq<Entry>, c: seq<Entry>)
    requires DeletesOnly(a, b) && DeletesOnly(b, c)
    ensures DeletesOnly(a, c)
  {
  }

  method Delete(provider: Provider, command: Command) returns (r: Reply<()>)
    requires command.DeleteWorker? || command.DeleteApplication?
    modifies provider
    ensures DeletesOnly(old(provider.log), provider.log)
    ensures provider.log == old(provider.log) + [Issued(command, old(provider.live))]
    ensures provider.live == provider.effects(old(provider.issued)) && provider.issued == old(provider.issued) + 1
    ensures provider.Calm() ==> r.Got?
  {
    r := provider.Run(command);
  }

  predicate AtMostOne(live: Live) {
    live.applications == map[] || exists id :: id in live.applications && live.applications.Keys == {id}
  }

  /** How many things there are to delete. */
  function Present(live: Live): nat {
    (if live.worker.Absent? then 0 else 1) + (if live.applications == map[] then 0 else 1)
  }

  /** What an attempt saw is what was there, and it deleted exactly that: the Worker first, then the application. */
  predicate DeletesWhatIsThere(a: Attempt, live: Live, issued: seq<Entry>) {
    && (a.worker.Some? ==> (a.worker.value <==> !live.worker.Absent?))
    && (a.matches.Some? ==> (if a.matches.value.None? then live.applications == map[]
                             else live.applications.Keys == {a.matches.value.value}))
    && (var n := if a.worker == Some(true) then 1 else 0;
        var matched := a.matches.Some? && a.matches.value.Some?;
        && |issued| == n + (if matched then 1 else 0)
        && (n == 1 ==> issued[0] == Issued(DeleteWorker, live))
        && (matched ==> issued[n].Issued? && issued[n].command == DeleteApplication(a.matches.value.value)))
  }

  /** Look for the Worker and its application, and delete what is there. */
  method TryOnce(provider: Provider) returns (r: Reply<Attempt>)
    modifies provider
    ensures DeletesOnly(old(provider.log), provider.log)
    ensures r.Got? ==> |provider.log| == |old(provider.log)| + r.value.deletes && !r.value.waited
    ensures r.Got? && ProvesAbsence(r.value) ==>
              r.value.deletes == 0 && Nothing(provider.live)
    ensures !r.Failed?
    ensures r.Got? ==> DeletesWhatIsThere(r.value, old(provider.live), provider.log[|old(provider.log)|..])
    ensures provider.Calm() && old(AtMostOne(provider.live)) ==>
              && r.Got? && provider.issued == old(provider.issued + Present(provider.live))
              && provider.live == (if old(Present(provider.live)) == 0 then old(provider.live)
                                   else provider.effects(provider.issued - 1))
              && (old(Present(provider.live)) == 0 ==> ProvesAbsence(r.value))
  {
    var worker, matches, deletes := None, None, 0;
    var present := provider.WorkerExists();
    if present.Raised? {
      return Raised;
    }
    if present.Got? {
      var found := provider.MatchingApplications();
      if found.Raised? {
        return Raised;
      }
      if found.Got? {
        worker, matches := Some(present.value), Some(found.value);
      }
    }
    if worker == Some(true) {
      var deleted := Delete(provider, DeleteWorker);
      deletes := deletes + 1;
      if deleted.Raised? {
        return Raised;
      }
    }
    if matches.Some? && matches.value.Some? {
      ghost var before := provider.log;
      var deleted := Delete(provider, DeleteApplication(matches.value.value));
      DeletesAddUp(old(provider.log), before, provider.log);
      deletes := deletes + 1;
      if deleted.Raised? {
        return Raised;
      }
    }
    r := Got(Attempt(worker, matches, deletes, false));
  }

  /** One attempt, and the wait after it unless it is the last or made the third proof. */
  method TryAndWait(provider: Provider, absenceProofs: nat, last: bool) returns (r: Reply<Attempt>)
    requires absenceProofs < ABSENCE_PROOFS
    modifies provider
    ensures DeletesOnly(old(provider.log), provider.log) && !r.Failed?
    ensures r.Got? ==> |provider.log| == |old(provider.log)| + r.value.deletes
    ensures r.Got? && ProvesAbsence(r.value) ==> r.value.deletes == 0
    ensures r.Got? && ProvesAbsence(r.value) && absenceProofs == ABSENCE_PROOFS - 1 ==> Nothing(provider.live)
    ensures r.Got? && (last || (ProvesAbsence(r.value) && absenceProofs == ABSENCE_PROOFS - 1)) ==> !r.value.waited
    ensures (provider.Calm() && old(Vanishes(provider.live, provider.effects, provider.issued))) ==>
              && r.Got? && Nothing(provider.live)
              && (r.value.waited || last || (ProvesAbsence(r.value) && absenceProofs == ABSENCE_PROOFS - 1))
              && (old(Nothing(provider.live)) ==> ProvesAbsence(r.value))
  {
    var tried := TryOnce(provider);
    if tried.Raised? {
      return Raised;
    }
    var proved := ProvesAbsence(tried.value) && absenceProofs + 1 == ABSENCE_PROOFS;
    var waited := false;
    if !proved && !last {
      var wait := provider.Pass();
      if wait.Raised? {
        return Raised;
      }
      waited := wait.Got?;
    }
    r := Got(tried.value.(waited := waited));
  }

  /** Delete what is still there until three attempts in a row see nothing. */
  method CleanUp(provider: Provider) returns (r: Reply<bool>, history: seq<Attempt>)
    modifies provider
    ensures |history| <= CLEANUP_ATTEMPTS && !r.Failed?
    ensures r.Got? ==> (r.value <==> LastThreeProve(history))
    ensures r.Got? && !r.value ==> |history| == CLEANUP_ATTEMPTS
    ensures Orderly(history) && DeletesOnly(old(provider.log), provider.log)
    ensures r.Got? ==> |provider.log| == |old(provider.log)| + Deletes(history)
    ensures r == Got(true) ==> Nothing(provider.live)
    ensures provider.Calm() && old(Vanishes(provider.live, provider.effects, provider.issued)) ==> r == Got(true)
  {
    history := [];
    var absenceProofs := 0;
    ghost var vanishes := provider.Calm() && Vanishes(provider.live, provider.effects, provider.issued);
    for attempt := 1 to CLEANUP_ATTEMPTS + 1
      invariant |history| == attempt - 1 && absenceProofs < ABSENCE_PROOFS
      invariant attempt <= CLEANUP_ATTEMPTS ==> absenceProofs == Carried(history)
      invariant Orderly(history) && !LastThreeProve(history)
      invariant DeletesOnly(old(provider.log), provider.log)
      invariant |provider.log| == |old(provider.log)| + Deletes(history)
      invariant vanishes ==> Vanishes(provider.live, provider.effects, provider.issued)
      invariant vanishes && attempt > 1 ==> Nothing(provider.live) && absenceProofs >= attempt - 2
    {
      ghost var before := provider.log;
      var tried := TryAndWait(provider, absenceProofs, attempt == CLEANUP_ATTEMPTS);
      DeletesAddUp(old(provider.log), before, provider.log);
      if tried.Raised? {
        return Raised, history;
      }
      NextAttempt(history, tried.value);
      history := history + [tried.value];
      absenceProofs := if ProvesAbsence(tried.value) then absenceProofs + 1 else 0;
      assert Proofs(history) == absenceProofs;
      if absenceProofs == ABSENCE_PROOFS {
        break;
      }
      if attempt != CLEANUP_ATTEMPTS && !tried.value.waited {
        absenceProofs := 0;
      }
    }
    var recorded := provider.Local();
    r := if recorded then Got(absenceProofs == ABSENCE_PROOFS) else Raised;
  }

  /** The commands of one attempt leave nothing. */
  predicate Vanishes(live: Live, effects: nat -> Live, issued: nat) {
    AtMostOne(live) && (Nothing(live) || Nothing(effects(issued + Present(live) - 1)))
  }

  /** Three proofs end a clean-up at once, and a proof deletes nothing. */
  predicate Orderly(history: seq<Attempt>) {
    && (forall n :: 0 <= n < |history| ==> !LastThreeProve(history[..n]))
    && (forall k :: 0 <= k < |history| && ProvesAbsence(history[k]) ==> history[k].deletes == 0)
  }

  lemma NextAttempt(history: seq<Attempt>, a: Attempt)
    requires Orderly(history) && !LastThreeProve(history) && (ProvesAbsence(a) ==> a.deletes == 0)
    ensures Orderly(history + [a]) && Deletes(history + [a]) == Deletes(history) + a.deletes
    ensures Proofs(history + [a]) == if ProvesAbsence(a) then Carried(history) + 1 else 0
    ensures Proofs(history + [a]) >= ABSENCE_PROOFS <==> LastThreeProve(history + [a])
    ensures Carried(history + [a]) == if a.waited then Proofs(history + [a]) else 0
  {
    var more := history + [a];
    assert more[..|history|] == history;
    forall n | 0 <= n < |more|
      ensures !LastThreeProve(more[..n])
    {
      assert more[..n] == history[..n];
      assert n == |history| ==> more[..n] == history;
    }
    ThreeProofs(more);
  }

  // ---------------------------------------------------------------- evidence

  /** What becomes of a file being created: written, refused without a trace, or left behind by a write that
      raises all the same. */
  datatype WriteFate = Written | Refused | LeftBehind

  /** One attempt to close the evidence: reading it, the four closing files, and sealing what is there. */
  datatype ClosingSteps = ClosingSteps(ready: bool, writes: seq<WriteFate>, sealed: bool)

  const CLOSING_FILES := 4

  type Closing = c: ClosingSteps | |c.writes| == CLOSING_FILES
    witness ClosingSteps(true, [Written, Written, Written, Written], true)

  function FilesFrom(writes: seq<WriteFate>, k: nat): (n: nat)
    requires k <= |writes|
    ensures k <= n <= |writes|
    decreases |writes| - k
  {
    if k == |writes| then k
    else
      match writes[k]
      case Written => FilesFrom(writes, k + 1)
      case Refused => k
      case LeftBehind => k + 1
  }

  /** How many closing files an attempt leaves in a directory that had none. */
  function FilesLeft(c: Closing): (n: nat)
    ensures n <= CLOSING_FILES
  {
    if c.ready then FilesFrom(c.writes, 0) else 0
  }

  predicate Closes(c: Closing) {
    c.ready && c.sealed && forall k :: 0 <= k < |c.writes| ==> c.writes[k].Written?
  }

  /** The closing files of the evidence directory. They are created in a fixed order, each only if it does
      not exist yet; the last one is the terminal report of the outcome. */
  class Evidence {
    var closing: nat
    var terminal: Option<Outcome>

    ghost predicate Valid()
      reads this
    {
      closing <= CLOSING_FILES && (terminal.Some? <==> closing == CLOSING_FILES)
    }

    constructor ()
      ensures Valid() && closing == 0
    {
      closing, terminal := 0, None;
    }

    /** Create closing file `k`, which only the first attempt can. */
    method Write(k: nat, outcome: Outcome, fate: WriteFate) returns (r: Reply<()>)
      requires Valid() && k < CLOSING_FILES && closing >= k
      modifies this
      ensures Valid()
      ensures r.Got? <==> old(closing) == k && fate.Written?
      ensures closing == if old(closing) == k && !fate.Refused? then k + 1 else old(closing)
      ensures terminal == if old(closing) == k && closing == CLOSING_FILES then Some(outcome) else old(terminal)
    {
      if closing > k || fate.Refused? {
        return Raised;
      }
      closing := k + 1;
      if closing == CLOSING_FILES {
        terminal := Some(outcome);
      }
      r := if fate.Written? then Got(()) else Raised;
    }

    /** Close the evidence with this outcome, once: a directory that was closed, even in part, stays as it is. */
    method Finalize(outcome: Outcome, c: Closing) returns (r: Reply<()>)
      requires Valid()
      modifies this
      ensures Valid()
      ensures r.Got? <==> old(closing) == 0 && Closes(c)
      ensures old(closing) > 0 ==> closing == old(closing) && terminal == old(terminal)
      ensures old(closing) == 0 ==>
                && closing == FilesLeft(c)
                && terminal == if FilesLeft(c) == CLOSING_FILES then Some(outcome) else None
    {
      if !c.ready {
        return Failed;
      }
      for k := 0 to CLOSING_FILES
        invariant Valid() && (k > 0 ==> old(closing) == 0 && closing == k)
        invariant k == 0 ==> closing == old(closing) && terminal == old(terminal)
        invariant forall i :: 0 <= i < k ==> c.writes[i].Written?
        invariant FilesFrom(c.writes, 0) == FilesFrom(c.writes, k)
        invariant terminal.Some? && old(closing) == 0 ==> terminal == Some(outcome)
      {
        var _ :- Write(k, outcome, c.writes[k]);
      }
      r := if c.sealed then Got(()) else Raised;
    }
  }

  // ---------------------------------------------------------------- the whole deployment

  predicate Matches(live: Live, id: string, anchor: Anchor) {
    && Shows(live, id, anchor.image, anchor.config) && live.worker == Single(anchor.worker)
    && live.applications[id].version == anchor.version
  }

  /** What a replacement finds when it can go ahead. */
  predicate Replaceable(plan: Plan, live: Live) {
    && !plan.Bootstrap? && plan.id in live.applications && live.worker.Single? && live.healthy
    && live.config == Some(plan.PreviousConfig())
  }

  /** A first deployment takes time, looks at two things, and takes time again. A replacement takes time, looks at
      three things, takes time again, looks at all three once more, and stages what it needs to go back. */
  function PrepareSteps(plan: Plan): nat {
    if plan.Bootstrap? then 1 + 2 + 1 else 1 + 3 + 1 + 3 + 1
  }

  /** Everything before the deployment command. A first deployment makes sure that there is nothing yet. A
      replacement first records what it replaces and, just before it deploys, checks that all of it is still
      there. */
  method Prepare(provider: Provider, plan: Plan) returns (r: Reply<Option<Anchor>>)
    requires provider.log == []
    modifies provider`live, provider`step
    ensures provider.Calm() && old(Replaceable(plan, provider.live) || (plan.Bootstrap? && Nothing(provider.live))) ==>
              r.Got? && provider.live == old(provider.live)
    ensures r.Got? ==> (r.value.None? <==> plan.Bootstrap?) && provider.step == old(provider.step) + PrepareSteps(plan)
    ensures r.Got? && plan.Bootstrap? ==> Nothing(provider.live)
    ensures r.Got? && r.value.Some? ==>
              r.value.value.config == plan.PreviousConfig() && Matches(provider.live, plan.id, r.value.value)
  {
    var _ :- provider.Pass();
    if plan.Bootstrap? {
      var present :- provider.WorkerExists();
      var matches :- provider.MatchingApplications();
      if present || matches.Some? {
        return Failed;
      }
      var _ :- provider.Pass();
      return Got(None);
    }
    var worker :- provider.ProbeWorker();
    if worker.None? {
      return Failed;
    }
    var application :- provider.ProbeApplication(plan.id);
    var health :- provider.ProbeHealth();
    if health.status != Some(200) || !health.ready || health.config != Some(plan.PreviousConfig()) {
      return Failed;
    }
    var anchor := Anchor(worker.value, application.image, application.version, plan.PreviousConfig());
    var _ :- provider.Pass();
    var workerAgain :- provider.ProbeWorker();
    var applicationAgain :- provider.ProbeApplication(plan.id);
    var healthAgain :- provider.ProbeHealth();
    if workerAgain != worker || applicationAgain != application || healthAgain.status != Some(200)
       || !healthAgain.ready || healthAgain.config != health.config
    {
      return Failed;
    }
    var staged := provider.Local();
    if !staged {
      return Failed;
    }
    r := Got(Some(anchor));
  }

  /** Find the application a first deployment created. */
  method Discover(provider: Provider) returns (r: Reply<string>)
    modifies provider`live, provider`step
    ensures r.Got? ==> provider.live.applications.Keys == {r.value}
    ensures provider.Calm() && old(exists id :: provider.live.applications.Keys == {id}) ==>
              r.Got? && provider.live == old(provider.live) && provider.step == old(provider.step) + 1
    ensures provider.Calm() && old(provider.live.applications == map[]) ==>
              r.Failed? && provider.step == old(provider.step) + 20 + 19
  {
    for attempt := 1 to POLL_ATTEMPTS + 1
      invariant provider.Calm() && attempt == 1 ==>
                  provider.live == old(provider.live) && provider.step == old(provider.step)
      invariant provider.Calm() && old(provider.live.applications == map[]) ==>
                  && provider.live == old(provider.live)
                  && provider.step
                     == old(provider.step) + 2 * (attempt - 1) - (if attempt > POLL_ATTEMPTS then 1 else 0)
      invariant provider.Calm() && old(exists id :: provider.live.applications.Keys == {id}) ==>
                  attempt == 1 && provider.live == old(provider.live)
    {
      var matches :- provider.MatchingApplications();
      if matches.Some? {
        return Got(matches.value);
      }
      if attempt != POLL_ATTEMPTS {
        var _ :- provider.Pass();
      }
    }
    r := Failed;
  }

  function PreviousWorker(anchor: Option<Anchor>): Option<string> {
    if anchor.Some? then Some(anchor.value.worker) else None
  }

  /** The entry of a poll that saw the target live, with another Worker than before. */
  ghost predicate AcceptsTarget(plan: Plan, anchor: Option<Anchor>, e: Entry) {
    && e.Accepted? && WorkerIs(e.seen, PreviousWorker(anchor), true)
    && (exists id :: (plan.Bootstrap? || id == plan.id) && Shows(e.seen, id, plan.image, plan.config))
  }

  /** What a replacement needs to see to be accepted. */
  predicate ShowsTarget(plan: Plan, previous: string, live: Live)
    requires !plan.Bootstrap?
  {
    Shows(live, plan.id, plan.image, plan.config) && WorkerIs(live, Some(previous), true)
  }

  /** What a first deployment needs to see to be accepted: the one application that is there. */
  predicate ShowsCreated(plan: Plan, live: Live) {
    live.worker.Single?
    && exists id ::
         id in live.applications && live.applications.Keys == {id} && Shows(live, id, plan.image, plan.config)
  }

  /** What is live is what the plan is for. */
  predicate Arrives(plan: Plan, anchor: Option<Anchor>, live: Live) {
    if plan.Bootstrap? then ShowsCreated(plan, live) else anchor.Some? && ShowsTarget(plan, anchor.value.worker, live)
  }

  /** From the deployment command to the last check that follows the poll; `checksPass` is whether they pass. */
  method Accept(provider: Provider, plan: Plan, anchor: Option<Anchor>, checksPass: bool) returns (r: Reply<()>)
    requires anchor.None? <==> plan.Bootstrap?
    modifies provider
    ensures provider.issued == old(provider.issued)
    ensures provider.log == old(provider.log)
            || (|provider.log| == |old(provider.log)| + 1 && old(provider.log) < provider.log
                && AcceptsTarget(plan, anchor, provider.log[|old(provider.log)|]))
    ensures r.Got? <==> |provider.log| == |old(provider.log)| + 1 && checksPass
    ensures provider.Calm() && old(Arrives(plan, anchor, provider.live)) ==>
              && |provider.log| == |old(provider.log)| + 1 && provider.live == old(provider.live)
              && provider.step == old(provider.step) + (if plan.Bootstrap? then 1 + 1 + 1 else 0) + 5 + 1
  {
    var id := if plan.Bootstrap? then "" else plan.id;
    if plan.Bootstrap? {
      id :- Discover(provider);
      var created :- provider.ProbeApplication(id);
      if created.image != plan.image {
        return Failed;
      }
      var _ :- provider.Pass();
    }
    var _ :- Poll(provider, id, plan.image, PreviousWorker(anchor), true, plan.config);
    assert Shows(provider.live, id, plan.image, plan.config);
    var _ := provider.Pass();
    r := if checksPass then Got(()) else Failed;
  }

  /** What an attempted rollback does, in order: put the previous resources back, see the previous image and
      configuration accepted, only then roll the Worker back, and see everything previous accepted. */
  predicate RestoreLog(plan: Plan, anchor: Anchor, s: seq<Entry>)
    requires !plan.Bootstrap?
  {
    && |s| <= 4
    && (|s| >= 1 ==> s[0].Issued? && s[0].command == plan.Restore(anchor))
    && (|s| >= 2 ==> s[1].Accepted? && Shows(s[1].seen, plan.id, anchor.image, anchor.config))
    && (|s| >= 3 ==> s[2] == Issued(RollbackWorker(anchor.worker), s[1].seen))
    && (|s| >= 4 ==> s[3].Accepted? && Shows(s[3].seen, plan.id, anchor.image, anchor.config)
                     && s[3].seen.worker == Single(anchor.worker))
  }

  /** Commands after which everything previous is live again: first the resources, then the Worker too. */
  predicate Restores(plan: Plan, anchor: Anchor, effects: nat -> Live, issued: nat)
    requires !plan.Bootstrap?
  {
    && Shows(effects(issued), plan.id, anchor.image, anchor.config) && effects(issued).worker.Single?
    && Shows(effects(issued + 1), plan.id, anchor.image, anchor.config)
    && effects(issued + 1).worker == Single(anchor.worker)
  }

  /** Put back what the deployment replaced. A restore command that fails is still followed by its poll: what
      counts is what is live. */
  method RollBack(provider: Provider, plan: Plan, anchor: Anchor) returns (r: Reply<bool>)
    requires !plan.Bootstrap?
    modifies provider
    ensures old(provider.log) <= provider.log
    ensures RestoreLog(plan, anchor, provider.log[|old(provider.log)|..])
    ensures r.Got? ==> (r.value <==> |provider.log| == |old(provider.log)| + 4)
    ensures r.Got? || |provider.log| <= |old(provider.log)| + 1
    ensures provider.Calm() && Restores(plan, anchor, provider.effects, old(provider.issued)) ==> r == Got(true)
  {
    ghost var was, done := provider.log, [];
    var inputsVerified := provider.Local();
    if inputsVerified {
      done := [Issued(plan.Restore(anchor), provider.live)];
      var _ := provider.Run(plan.Restore(anchor));
    }
    assert provider.log == was + done && provider.log[|was|..] == done;
    var filesRemoved := provider.Local();
    if !filesRemoved {
      return Raised;
    }
    if !inputsVerified {
      return Got(false);
    }
    var restored := Poll(provider, plan.id, anchor.image, None, false, anchor.config);
    if !restored.Got? {
      return Got(false);
    }
    done := done + [Accepted(provider.live), Issued(RollbackWorker(anchor.worker), provider.live)];
    var _ := provider.Run(RollbackWorker(anchor.worker));
    assert provider.log == was + done && provider.log[|was|..] == done;
    var accepted := Poll(provider, plan.id, anchor.image, Some(anchor.worker), false, anchor.config);
    if accepted.Got? {
      done := done + [Accepted(provider.live)];
      assert provider.log == was + done && provider.log[|was|..] == done;
    }
    r := Got(accepted.Got?);
  }

  /** The deployment itself, and the acceptance that followed it if any. */
  ghost predicate StartedLog(plan: Plan, anchor: Option<Anchor>, s: seq<Entry>) {
    && 1 <= |s| <= 2
    && s[0].Issued? && s[0].command == plan.Target()
    && (plan.Bootstrap? ==> Nothing(s[0].before))
    && (anchor.Some? && !plan.Bootstrap? ==>
          anchor.value.config == plan.PreviousConfig() && Matches(s[0].before, plan.id, anchor.value))
    && (|s| == 2 ==> AcceptsTarget(plan, anchor, s[1]))
  }

  /** What each outcome says about everything the script did to the provider. */
  ghost predicate Truthful(plan: Plan, anchor: Option<Anchor>, outcome: Outcome, started: nat, log: seq<Entry>) {
    if outcome == PredeployFailed then log == []
    else
      && started <= |log| && StartedLog(plan, anchor, log[..started])
      && (anchor.None? <==> plan.Bootstrap?)
      && match outcome
         case Succeeded => |log| == started == 2
         case BootstrapFailedCleaned => plan.Bootstrap? && OnlyDeletes(log[started..])
         case BootstrapCleanupFailed => plan.Bootstrap? && OnlyDeletes(log[started..])
         case DeploymentFailedRolledBack =>
           !plan.Bootstrap? && RestoreLog(plan, anchor.value, log[started..]) && |log| == started + 4
         case RollbackFailed =>
           !plan.Bootstrap? && RestoreLog(plan, anchor.value, log[started..]) && |log| < started + 4
         case Crashed =>
           !plan.Bootstrap? && RestoreLog(plan, anchor.value, log[started..]) && |log| <= started + 1
         case _ => false
  }

  /** The deployment command and the removal of its secrets, which come right after the preparation, went well. */
  predicate CommandWent(plan: Plan, fates: nat -> Fate, step: nat) {
    fates(step + PrepareSteps(plan)).Fine? && fates(step + PrepareSteps(plan) + 1).Fine?
  }

  /** The deployment command and everything up to the first failure. */
  method Attempted(provider: Provider, plan: Plan, checksPass: bool)
    returns (r: Reply<()>, anchor: Option<Anchor>, started: bool)
    requires provider.log == []
    modifies provider
    ensures started ==> StartedLog(plan, anchor, provider.log) && (anchor.None? <==> plan.Bootstrap?)
    ensures started ==> provider.issued == old(provider.issued) + 1
    ensures !started ==> provider.log == []
    ensures r.Got? <==> |provider.log| == 2 && checksPass
    ensures |provider.log| == 2 ==> CommandWent(plan, provider.fates, old(provider.step))
    ensures provider.Calm() && old(SmoothStart(plan, provider.live, provider.effects, provider.issued)) ==>
              && started && |provider.log| == 2 && provider.log[0].before == old(provider.live)
              && provider.live == provider.effects(old(provider.issued))
              && (!plan.Bootstrap? ==> anchor == Some(AnchorOf(plan, old(provider.live))))
  {
    anchor, started := None, false;
    var prepared := Prepare(provider, plan);
    if !prepared.Got? {
      return prepared.PropagateFailure(), anchor, started;
    }
    anchor, started := prepared.value, true;
    var deployed := provider.Run(plan.Target());
    var secretsRemoved := provider.Local();
    if !deployed.Got? || !secretsRemoved {
      return Failed, anchor, started;
    }
    r := Accept(provider, plan, anchor, checksPass);
  }

  /** A deployment that finds what it expects and whose command brings up its target. */
  predicate SmoothStart(plan: Plan, live: Live, effects: nat -> Live, issued: nat) {
    if plan.Bootstrap? then Nothing(live) && ShowsCreated(plan, effects(issued))
    else Replaceable(plan, live) && ShowsTarget(plan, live.worker.version, effects(issued))
  }

  /** A deployment whose commands all do what they should: the first brings up the target, and those after it, if
      they are ever issued, bring back what was there. */
  predicate Smooth(plan: Plan, live: Live, effects: nat -> Live, issued: nat) {
    && SmoothStart(plan, live, effects, issued)
    && (if plan.Bootstrap? then Vanishes(effects(issued), effects, issued + 1)
        else Restores(plan, AnchorOf(plan, live), effects, issued + 1))
  }

  function AnchorOf(plan: Plan, live: Live): Anchor
    requires Replaceable(plan, live)
  {
    var application := live.applications[plan.id];
    Anchor(live.worker.version, application.image, application.version, plan.PreviousConfig())
  }

  /** Commands after which nothing of the deployment is left. */
  predicate Undoes(plan: Plan, anchor: Option<Anchor>, live: Live, effects: nat -> Live, issued: nat) {
    if plan.Bootstrap? then Vanishes(live, effects, issued)
    else anchor.Some? && Restores(plan, anchor.value, effects, issued)
  }

  function Undone(plan: Plan): Outcome {
    if plan.Bootstrap? then BootstrapFailedCleaned else DeploymentFailedRolledBack
  }

  /** Undo a deployment that failed once it had started. */
  method Recover(provider: Provider, plan: Plan, anchor: Option<Anchor>)
    returns (outcome: Outcome, history: seq<Attempt>)
    requires anchor.None? <==> plan.Bootstrap?
    requires StartedLog(plan, anchor, provider.log)
    modifies provider
    ensures old(provider.log) <= provider.log
    ensures Truthful(plan, anchor, outcome, |old(provider.log)|, provider.log)
    ensures outcome !in {Succeeded, PredeployFailed, EvidenceFinalizationFailed}
    ensures outcome == BootstrapFailedCleaned ==> LastThreeProve(history) && Nothing(provider.live)
    ensures provider.Calm() && old(Undoes(plan, anchor, provider.live, provider.effects, provider.issued)) ==>
              outcome == Undone(plan)
  {
    history := [];
    if plan.Bootstrap? {
      var cleaned: Reply<bool>;
      cleaned, history := CleanUp(provider);
      outcome := if cleaned == Got(true) then BootstrapFailedCleaned else BootstrapCleanupFailed;
    } else {
      var restored := RollBack(provider, plan, anchor.value);
      outcome := if !restored.Got? then Crashed
                 else if restored.value then DeploymentFailedRolledBack else RollbackFailed;
    }
  }

  /** How everything around the provider goes: the checks after the accepting poll, the closing of the evidence
      of a success, the last message of a success, and the closing of the evidence of a failure. */
  datatype Endings = Endings(checksPass: bool, success: Closing, printed: bool, failure: Closing)

  /** The run came as far as closing the evidence of a success. */
  predicate Reached(e: Endings, started: nat) {
    started == 2 && e.checksPass
  }

  predicate SucceedsWith(e: Endings, started: nat) {
    Reached(e, started) && Closes(e.success) && e.printed
  }

  /** The terminal report in the evidence, when `decided` is the outcome before the evidence is closed. */
  function Terminal(e: Endings, started: nat, decided: Outcome): Option<Outcome> {
    if Reached(e, started) && FilesLeft(e.success) > 0 then
      if FilesLeft(e.success) == CLOSING_FILES then Some(Succeeded) else None
    else if decided != Crashed && FilesLeft(e.failure) == CLOSING_FILES then Some(decided)
    else None
  }

  /** The outcome the script reports. */
  function Reported(e: Endings, started: nat, decided: Outcome): Outcome {
    if decided.Succeeded? || decided.Crashed? then decided
    else if (Reached(e, started) && FilesLeft(e.success) > 0) || !Closes(e.failure) then EvidenceFinalizationFailed
    else decided
  }

  /** The deployment, and if it was accepted and checked the closing of its evidence. */
  method Deploy(provider: Provider, evidence: Evidence, plan: Plan, endings: Endings)
    returns (done: bool, anchor: Option<Anchor>, deployStarted: bool)
    requires provider.log == [] && evidence.Valid() && evidence.closing == 0
    modifies provider, evidence
    ensures evidence.Valid()
    ensures deployStarted ==> StartedLog(plan, anchor, provider.log) && (anchor.None? <==> plan.Bootstrap?)
    ensures !deployStarted ==> provider.log == []
    ensures done <==> SucceedsWith(endings, |provider.log|)
    ensures |provider.log| == 2 ==> CommandWent(plan, provider.fates, old(provider.step))
    ensures evidence.closing == if Reached(endings, |provider.log|) then FilesLeft(endings.success) else 0
    ensures evidence.terminal == if evidence.closing == CLOSING_FILES then Some(Succeeded) else None
    ensures provider.Calm() && old(Smooth(plan, provider.live, provider.effects, provider.issued)) ==>
              && deployStarted && |provider.log| == 2 && provider.log[0].before == old(provider.live)
              && Undoes(plan, anchor, provider.live, provider.effects, provider.issued)
  {
    var attempted;
    attempted, anchor, deployStarted := Attempted(provider, plan, endings.checksPass);
    done := false;
    if attempted.Got? {
      var closed := evidence.Finalize(Succeeded, endings.success);
      done := closed.Got? && endings.printed;
    }
  }

  /** The whole script. `decided` is the outcome before the evidence is closed and `started` how much of the log
      the deployment itself made; with them the outcome and the terminal report are told exactly. */
  method DeployGateway(provider: Provider, evidence: Evidence, plan: Plan, endings: Endings)
    returns (outcome: Outcome, ghost anchor: Option<Anchor>, ghost decided: Outcome, ghost started: nat,
             history: seq<Attempt>)
    requires provider.log == [] && evidence.Valid() && evidence.closing == 0
    modifies provider, evidence
    ensures Truthful(plan, anchor, decided, started, provider.log)
    ensures decided == Succeeded <==> SucceedsWith(endings, started)
    ensures decided == Succeeded ==> CommandWent(plan, provider.fates, old(provider.step))
    ensures outcome == Reported(endings, started, decided)
    ensures evidence.terminal == Terminal(endings, started, decided)
    ensures decided == BootstrapFailedCleaned ==> LastThreeProve(history) && Nothing(provider.live)
    ensures provider.Calm() && old(Smooth(plan, provider.live, provider.effects, provider.issued)) ==>
              && started == 2 && |provider.log| >= 2 && provider.log[0].before == old(provider.live)
              && decided in {Succeeded, Undone(plan)}
  {
    history := [];
    var done, previous, deployStarted := Deploy(provider, evidence, plan, endings);
    anchor, started := previous, |provider.log|;
    if done {
      outcome, decided := Succeeded, Succeeded;
      return;
    }
    outcome := PredeployFailed;
    if deployStarted {
      outcome, history := Recover(provider, plan, previous);
    }
    decided := outcome;
    if outcome == Crashed {
      return;
    }
    var closed := evidence.Finalize(outcome, endings.failure);
    if !closed.Got? {
      outcome := EvidenceFinalizationFailed;
    }
  }

  // ---------------------------------------------------------------- what the outcomes mean

  /** The commands themselves. The first deploys the image of the plan, with its configuration unless that is kept;
      what a rollback deploys is the image that was live when the first was issued, with the configuration that was
      live then if the plan brought another. */
  lemma CommandsIssued(plan: Plan, anchor: Option<Anchor>, outcome: Outcome, started: nat, log: seq<Entry>)
    requires Truthful(plan, anchor, outcome, started, log) && log != []
    ensures log[0].Issued?
    ensures log[0].command == Command.Deploy(plan.image, if plan.Preserve? then None else Some(plan.config))
    ensures !plan.Bootstrap? ==>
              && plan.id in log[0].before.applications && log[0].before.healthy && log[0].before.worker.Single?
              && log[0].before.config == Some(if plan.Replace? then plan.previousConfig else plan.config)
    ensures plan.Bootstrap? ==> log[0].before.worker.Absent? && log[0].before.applications == map[]
    ensures !plan.Bootstrap? && |log| > started ==>
              && log[started].Issued?
              && log[started].command == Command.Deploy(log[0].before.applications[plan.id].image,
                                                        if plan.Replace? then log[0].before.config else None)
  {
    assert log[..started][0] == log[0];
    if !plan.Bootstrap? && |log| > started {
      assert log[started..][0] == log[started];
    }
  }

  /** A deployment that succeeded was accepted by one look at the provider: healthy, the plan's image and
      configuration, and one Worker, which is not the one it replaced. */
  lemma SucceededMeansAccepted(plan: Plan, anchor: Option<Anchor>, started: nat, log: seq<Entry>)
    requires Truthful(plan, anchor, Succeeded, started, log)
    ensures |log| == 2 && log[1].Accepted?
    ensures var seen := log[1].seen;
            && seen.healthy && seen.config == Some(plan.config) && seen.worker.Single?
            && (!plan.Bootstrap? ==>
                  && plan.id in seen.applications && seen.applications[plan.id].image == plan.image
                  && seen.worker != log[0].before.worker)
            && (plan.Bootstrap? ==> exists id :: id in seen.applications && seen.applications[id].image == plan.image)
  {
    assert log[..started] == log;
  }

  /** A Worker is rolled back only in a replacement, to the Worker that was live when the deployment command
      was issued, and at a moment when the previous image and configuration were live again and healthy. */
  lemma WorkerRollbackIsGuarded(plan: Plan, anchor: Option<Anchor>, outcome: Outcome, started: nat,
                                log: seq<Entry>, k: nat)
    requires Truthful(plan, anchor, outcome, started, log)
    requires k < |log| && log[k].Issued? && log[k].command.RollbackWorker?
    ensures !plan.Bootstrap? && Single(log[k].command.version) == log[0].before.worker
    ensures k == started + 2 && log[k - 1] == Accepted(log[k].before)
    ensures Shows(log[k].before, plan.id, log[0].before.applications[plan.id].image, plan.PreviousConfig())
  {
  }

  /** A deployment reported as rolled back ended with the Worker, image and configuration that were live when
      it began, seen together and healthy by one poll attempt. */
  lemma RolledBackMeansRestored(plan: Plan, anchor: Option<Anchor>, started: nat, log: seq<Entry>)
    requires Truthful(plan, anchor, DeploymentFailedRolledBack, started, log)
    ensures !plan.Bootstrap?
    ensures var was, last := log[0].before, log[|log| - 1];
            && last.Accepted? && last.seen.worker == was.worker && last.seen.config == was.config && last.seen.healthy
            && plan.id in last.seen.applications && plan.id in was.applications
            && last.seen.applications[plan.id].image == was.applications[plan.id].image
  {
  }

  /** When the terminal report says something else than was decided: exactly if the deployment was accepted and
      its checks passed, all four closing files of the success were left, and then a later step failed. The
      report then says that a deployment succeeded which was undone, and the script reports neither. */
  lemma WhenTheReportIsFalse(e: Endings, started: nat, decided: Outcome)
    requires decided == Succeeded <==> SucceedsWith(e, started)
    ensures (Terminal(e, started, decided).Some? && Terminal(e, started, decided) != Some(decided)) <==>
            Reached(e, started) && FilesLeft(e.success) == CLOSING_FILES && !(Closes(e.success) && e.printed)
    ensures (Terminal(e, started, decided).Some? && Terminal(e, started, decided) != Some(decided)) ==>
              && Terminal(e, started, decided) == Some(Succeeded) && decided != Succeeded
              && Reported(e, started, decided) in {EvidenceFinalizationFailed, Crashed}
    ensures Reported(e, started, decided) !in {EvidenceFinalizationFailed, Crashed} ==>
              Terminal(e, started, decided) == Some(Reported(e, started, decided))
  {
    if Closes(e.failure) {
      AllWritten(e.failure);
    }
    if Closes(e.success) {
      AllWritten(e.success);
    }
  }

  lemma {:induction false} WrittenFrom(writes: seq<WriteFate>, k: nat)
    requires k <= |writes| && forall i :: 0 <= i < |writes| ==> writes[i].Written?
    ensures FilesFrom(writes, k) == |writes|
    decreases |writes| - k
  {
    if k < |writes| {
      WrittenFrom(writes, k + 1);
    }
  }

  lemma AllWritten(c: Closing)
    requires Closes(c)
    ensures FilesLeft(c) == CLOSING_FILES
  {
    WrittenFrom(c.writes, 0);
  }

  /** Such a run exists. On a provider where every step goes well, a replacement is accepted and its checks pass;
      the four files are written, and only making them read-only fails. The deployment is rolled back, and the
      terminal report says that it succeeded. */
  method RolledBackYetReportedSucceeded(id: string, image: string, config: string, before: Live, after: Live)
    returns (outcome: Outcome, terminal: Option<Outcome>, log: seq<Entry>)
    requires Replaceable(Preserve(id, image, config), before)
    requires ShowsTarget(Preserve(id, image, config), before.worker.version, after)
    ensures outcome == EvidenceFinalizationFailed && terminal == Some(Succeeded)
    ensures |log| == 6 && log[5].Accepted? && log[5].seen.worker == before.worker
    ensures id in log[5].seen.applications && log[5].seen.applications[id].image == before.applications[id].image
  {
    var plan := Preserve(id, image, config);
    var written := ClosingSteps(true, [Written, Written, Written, Written], true);
    var provider := new Provider(before, n => Fine, n => if n == 0 then after else before, n => None);
    var evidence := new Evidence();
    var endings := Endings(true, written.(sealed := false), true, written);
    ghost var anchor, decided, started;
    var history;
    outcome, anchor, decided, started, history := DeployGateway(provider, evidence, plan, endings);
    terminal, log := evidence.terminal, provider.log;
    WrittenFrom(written.writes, 0);
    RolledBackMeansRestored(plan, anchor, started, log);
    assert log[0] == log[..started][0];
  }
}
