/** The provider a deployment works against. Commands may fail before, after or in the middle of taking
    effect; probes may fail, but what they report is what is there. */
module CloudProvider {
  import opened Common

  /** How a step of the script comes back: with a value, with a failure its caller may catch (a failed
      command or a reply that breaks its contract), or with any other exception. */
  datatype Reply<+T> = Got(value: T) | Failed | Raised {
    predicate IsFailure() {
      !Got?
    }

    function PropagateFailure<U>(): Reply<U>
      requires !Got?
    {
      if Failed? then Failed else Raised
    }

    function Extract(): T
      requires Got?
    {
      value
    }
  }

  datatype Worker = Absent | Single(version: string) | Split

  datatype Application = Application(image: string, version: nat)

  datatype Live = Live(
    worker: Worker,
    applications: map<string, Application>,
    healthy: bool,
    config: Option<string>)

  /** A deployment without a configuration leaves the Worker's secrets as they are. */
  datatype Command =
    | Deploy(image: string, config: Option<string>)
    | RollbackWorker(version: string)
    | DeleteWorker
    | DeleteApplication(id: string)

  /** What a script did to the provider: the commands it issued, with what was live at that moment, and what
      was live when a poll attempt accepted it. */
  datatype Entry =
    | Issued(command: Command, before: Live)
    | Accepted(seen: Live)

  datatype Health = Health(status: Option<nat>, ready: bool, config: Option<string>)

  /** What is not there does not come by itself. */
  predicate StaysAbsent(a: Live, b: Live) {
    (a.worker.Absent? ==> b.worker.Absent?) && b.applications.Keys <= a.applications.Keys
  }

  /** How a step goes: well, with an answer of which only part could be used, or not. */
  datatype Fate = Fine | Partial(status: Option<nat>, ready: bool, parsed: bool) | Fails | Breaks

  function Answered<T>(fate: Fate, answer: Reply<T>): Reply<T> {
    match fate
    case Fine => answer
    case Breaks => Raised
    case _ => Failed
  }

  /** The provider. `fates` decides how every step goes, `effects` what is live after every command, and `drift`
      what else happens meanwhile; all three may be anything. */
  class Provider {
    var live: Live
    var log: seq<Entry>
    var step: nat
    var issued: nat
    const fates: nat -> Fate
    const effects: nat -> Live
    const drift: nat -> Option<Live>

    constructor (live: Live, fates: nat -> Fate, effects: nat -> Live, drift: nat -> Option<Live>)
      ensures this.live == live && log == [] && issued == 0
      ensures this.fates == fates && this.effects == effects && this.drift == drift
    {
      this.live, this.fates, this.effects, this.drift := live, fates, effects, drift;
      log, step, issued := [], 0, 0;
    }

    /** Every step goes well and nothing moves but by command. */
    ghost predicate Calm() {
      forall n: nat :: fates(n).Fine? && drift(n).None?
    }

    /** Issue a command. Nothing is promised about what it leaves behind, whatever it reports. */
    method Run(command: Command) returns (r: Reply<()>)
      modifies this
      ensures log == old(log) + [Issued(command, old(live))]
      ensures live == effects(old(issued)) && issued == old(issued) + 1
      ensures r.Got? <==> fates(old(step)).Fine?
      ensures step == old(step) + 1
    {
      log := log + [Issued(command, live)];
      live, issued := effects(issued), issued + 1;
      r := Answered(fates(step), Got(()));
      step := step + 1;
    }

    /** A step that takes time: a sleep, a tool, a request to the gateway. The provider may move on in any way
        meanwhile, except that nothing is created before the first command. */
    method Pass() returns (r: Reply<()>)
      modifies `live, `step
      ensures step == old(step) + 1
      ensures log == [] ==> StaysAbsent(old(live), live)
      ensures Calm() ==> r.Got? && live == old(live)
    {
      if drift(step).Some? && (log != [] || StaysAbsent(live, drift(step).value)) {
        live := drift(step).value;
      }
      r := Answered(fates(step), Got(()));
      step := step + 1;
    }

    /** A step on this machine, which takes no time that counts: a file written, checked or removed. */
    method Local() returns (ok: bool)
      modifies `step
      ensures step == old(step) + 1
      ensures ok <==> fates(old(step)).Fine?
    {
      ok := fates(step).Fine?;
      step := step + 1;
    }

    method ProbeHealth() returns (r: Reply<Health>)
      modifies `step
      ensures step == old(step) + 1
      ensures r.Got? && r.value.ready ==> live.healthy
      ensures r.Got? && r.value.config.Some? ==> r.value.config == live.config
      ensures Calm() ==> r == Got(Health(Some(200), live.healthy, live.config))
    {
      match fates(step) {
        case Partial(status, ready, parsed) =>
          r := Got(Health(status, ready && live.healthy, if parsed then live.config else None));
        case fate =>
          r := Answered(fate, Got(Health(Some(200), live.healthy, live.config)));
      }
      step := step + 1;
    }

    /** The active version, if one version takes all the traffic. */
    method ProbeWorker() returns (r: Reply<Option<string>>)
      modifies `step
      ensures step == old(step) + 1
      ensures r.Got? ==> r.value == if live.worker.Single? then Some(live.worker.version) else None
      ensures Calm() ==> if live.worker.Absent? then r.Failed? else r.Got?
    {
      r := Answered(fates(step),
                    if live.worker.Absent? then Failed
                    else Got(if live.worker.Single? then Some(live.worker.version) else None));
      step := step + 1;
    }

    method ProbeApplication(id: string) returns (r: Reply<Application>)
      modifies `step
      ensures step == old(step) + 1
      ensures r.Got? ==> id in live.applications && r.value == live.applications[id]
      ensures Calm() ==> if id in live.applications then r.Got? else r.Failed?
    {
      r := Answered(fates(step), if id in live.applications then Got(live.applications[id]) else Failed);
      step := step + 1;
    }

    /** How many instances are active; whatever it is, nothing depends on it. */
    method ProbeInstances(id: string) returns (r: Reply<()>)
      modifies `step
      ensures step == old(step) + 1
      ensures Calm() ==> r.Got?
    {
      r := Answered(fates(step), Got(()));
      step := step + 1;
    }

    method WorkerExists() returns (r: Reply<bool>)
      modifies `step
      ensures step == old(step) + 1
      ensures r.Got? ==> (r.value <==> !live.worker.Absent?)
      ensures Calm() ==> r.Got?
    {
      r := Answered(fates(step), Got(!live.worker.Absent?));
      step := step + 1;
    }

    /** The applications of this name; more than one is refused. */
    method MatchingApplications() returns (r: Reply<Option<string>>)
      modifies `step
      ensures step == old(step) + 1
      ensures r.Got? ==> match r.value
                         case None => live.applications == map[]
                         case Some(id) => live.applications.Keys == {id}
      ensures Calm() && (live.applications == map[] || exists id :: live.applications.Keys == {id}) ==> r.Got?
    {
      r := Answered(fates(step), Got(None));
      step := step + 1;
      if r.Got? && live.applications != map[] {
        var id :| id in live.applications.Keys;
        r := if live.applications.Keys == {id} then Got(Some(id)) else Failed;
      }
    }
  }
}
