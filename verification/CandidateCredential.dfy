/** Installing, verifying and removing the candidate credential of a live gateway. A command may fail before
    or after taking effect; nobody else changes the gateway meanwhile. */
module CandidateCredential {
  import opened Common

  const POLL_ATTEMPTS := 12

  /** Worker versions are numbered in the order they are made. */
  type Version = nat

  datatype Rollout = Rollout(version: Version, bound: Option<string>)

  /** The gateway: the active Worker version and the key it binds, a newer version still rolling out, the
      stored secret, the application, and the key the container loaded when it last started. Keys stand for
      themselves by their SHA-256. */
  datatype Live = Live(
    worker: Version,
    bound: Option<string>,
    rolling: Option<Rollout>,
    made: nat,
    secret: Option<string>,
    image: string,
    applicationVersion: nat,
    loaded: Option<string>,
    lastChange: int)

  /** The newest version binds the stored secret, and every version in sight was made before now. */
  predicate Consistent(live: Live) {
    && live.worker < live.made && (live.rolling.Some? ==> live.worker < live.rolling.value.version < live.made)
    && live.secret == (if live.rolling.Some? then live.rolling.value.bound else live.bound)
  }

  function Promoted(live: Live): Live {
    if live.rolling.None? then live
    else live.(worker := live.rolling.value.version, bound := live.rolling.value.bound, rolling := None)
  }

  /** The stored secret was changed: a new version is made, and is active now or still rolling out. */
  function SecretChanged(live: Live, key: Option<string>, immediate: bool): Live {
    var changed := live.(secret := key, made := live.made + 1);
    if immediate then changed.(rolling := None, worker := live.made, bound := key)
    else changed.(rolling := Some(Rollout(live.made, key)))
  }

  /** The container stopped and started again, with the key the active version binds. */
  predicate Restarted(a: Live, b: Live) {
    b == a.(loaded := a.bound, lastChange := b.lastChange) && b.lastChange > a.lastChange
  }

  datatype Command = PutSecret(key: string) | DeleteSecret

  datatype Entry = Issued(command: Command, before: Live, after: Live, ok: bool)

  datatype Operation = Inspect | InstallKey | RemoveKey | VerifyKey

  /** What the container admin endpoint answers: the key the container now runs with, if any. */
  datatype Receipt = Receipt(key: Option<string>, lastChange: int, previous: int)

  predicate EndpointAllows(operation: Operation, bound: Option<string>, key: string) {
    match operation
    case InstallKey => bound == Some(key)
    case RemoveKey => bound.None?
    case _ => bound.None? || bound == Some(key)
  }

  /** What becomes of a command: whether it reports success, whether it takes effect all the same if it does
      not, and whether a new version is active at once. */
  datatype Fate = Fate(ok: bool, effective: bool, immediate: bool)

  function StoredBy(command: Command): Option<string> {
    if command.PutSecret? then Some(command.key) else None
  }

  /** The provider. `fates` decides the outcome of every step, and may be anything. */
  class Gateway {
    var live: Live
    var step: nat
    const fates: nat -> Fate
    ghost var log: seq<Entry>

    constructor (live: Live, fates: nat -> Fate)
      ensures this.live == live && this.fates == fates && step == 0 && log == []
    {
      this.live, this.fates, step, log := live, fates, 0, [];
    }

    /** Every step reports success and takes effect; so a rollout is finished by the next wait. */
    ghost predicate Reliable() {
      forall n: nat :: fates(n).ok && fates(n).effective
    }

    method ActiveWorker() returns (r: Option<Version>)
      modifies `step
      ensures step == old(step) + 1
      ensures r == if fates(old(step)).ok then Some(live.worker) else None
    {
      r := if fates(step).ok then Some(live.worker) else None;
      step := step + 1;
    }

    /** The active version, the image and the application version, with one running instance. */
    method CurrentIdentity() returns (r: Option<(Version, string, nat)>)
      modifies `step
      ensures step == old(step) + 1
      ensures r == if fates(old(step)).ok then Some((live.worker, live.image, live.applicationVersion)) else None
    {
      r := if fates(step).ok then Some((live.worker, live.image, live.applicationVersion)) else None;
      step := step + 1;
    }

    method HasSecret() returns (r: Option<bool>)
      modifies `step
      ensures step == old(step) + 1
      ensures r == if fates(old(step)).ok then Some(live.secret.Some?) else None
    {
      r := if fates(step).ok then Some(live.secret.Some?) else None;
      step := step + 1;
    }

    method Change(command: Command) returns (ok: bool)
      modifies this
      ensures step == old(step) + 1 && ok == fates(old(step)).ok
      ensures var fate := fates(old(step));
              live == if fate.ok || fate.effective then SecretChanged(old(live), StoredBy(command), fate.immediate)
                      else old(live)
      ensures log == old(log) + [Issued(command, old(live), live, ok)]
    {
      ghost var before := live;
      var fate := fates(step);
      ok, step := fate.ok, step + 1;
      if fate.ok || fate.effective {
        live := SecretChanged(live, StoredBy(command), fate.immediate);
      }
      log := log + [Issued(command, before, live, ok)];
    }

    method Wait() returns (ok: bool)
      modifies `live, `step
      ensures step == old(step) + 1 && ok == fates(old(step)).ok
      ensures live == if fates(old(step)).effective then Promoted(old(live)) else old(live)
    {
      if fates(step).effective {
        live := Promoted(live);
      }
      ok, step := fates(step).ok, step + 1;
    }

    /** Ask the container admin endpoint. Its receipt is true of the container, which nobody starts with another
        key than its Worker binds; but a failed call may have restarted it all the same. */
    method Ask(operation: Operation, key: string) returns (r: Option<Receipt>)
      modifies `live, `step
      ensures step == old(step) + 1
      ensures live == old(live) || (!operation.Inspect? && Restarted(old(live), live))
      ensures r.Some? <==> fates(old(step)).ok
      ensures r.Some? ==> r.value == Receipt(live.loaded, live.lastChange, old(live.lastChange))
      ensures Reliable() && EndpointAllows(operation, live.bound, key) ==>
                r.Some? && (operation.Inspect? || Restarted(old(live), live))
    {
      var fate, previous := fates(step), live.lastChange;
      step := step + 1;
      if !operation.Inspect? && fate.effective {
        live := live.(loaded := live.bound, lastChange := live.lastChange + 1);
      }
      r := if fate.ok then Some(Receipt(live.loaded, live.lastChange, previous)) else None;
    }
  }

  // ---------------------------------------------------------------- the operations

  /** What the release digest is taken of. */
  datatype Release = Release(worker: Version, applicationId: string, applicationVersion: nat, image: string)

  datatype Arguments = Arguments(applicationId: string, image: string, applicationVersion: nat, worker: Version)

  /** A removal names the key, the Worker version of the release that loaded it, and that release's digest. */
  datatype RemoveRequest = RemoveRequest(key: string, releaseId: Version, releaseSha256: string)

  datatype Acknowledgement = Installed(releaseId: Version, releaseSha256: string) | Absent

  predicate Admitted(arguments: Arguments, live: Live) {
    live.image == arguments.image && live.applicationVersion == arguments.applicationVersion
  }

  /** The release of an admitted gateway that runs this Worker version. */
  function ReleaseOf(arguments: Arguments, worker: Version): Release {
    Release(worker, arguments.applicationId, arguments.applicationVersion, arguments.image)
  }

  /** The gateway runs exactly the release a removal names, with its key loaded. */
  predicate RunsRelease(hash: Release -> string, request: RemoveRequest, arguments: Arguments, live: Live) {
    && Admitted(arguments, live) && live.worker == request.releaseId && live.loaded == Some(request.key)
    && hash(ReleaseOf(arguments, live.worker)) == request.releaseSha256
  }

  /** A release digest stands for one gateway: as far as digests differ, only one application, image, application
      version and Worker can run the release a removal names. */
  lemma ReleaseNamesOneGateway(hash: Release -> string, request: RemoveRequest, arguments: Arguments, live: Live,
                               others: Arguments, other: Live)
    requires forall a, b :: hash(a) == hash(b) ==> a == b
    requires RunsRelease(hash, request, arguments, live) && RunsRelease(hash, request, others, other)
    ensures arguments.applicationId == others.applicationId && live.image == other.image
    ensures live.applicationVersion == other.applicationVersion && live.worker == other.worker
    ensures live.loaded == other.loaded == Some(request.key)
  {
    assert ReleaseOf(arguments, live.worker) == ReleaseOf(others, other.worker);
  }

  method AssertAdmitted(gateway: Gateway, arguments: Arguments, expected: Option<Version>) returns (r: Option<Version>)
    modifies gateway`step
    ensures gateway.step == old(gateway.step) + 1
    ensures r.Some? <==>
              && gateway.fates(old(gateway.step)).ok && Admitted(arguments, gateway.live)
              && expected in {None, Some(gateway.live.worker)}
    ensures r.Some? ==> r.value == gateway.live.worker && Admitted(arguments, gateway.live)
    ensures r.Some? && expected.Some? ==> r == expected
    ensures (gateway.Reliable() && Admitted(arguments, gateway.live)
             && expected in {None, Some(gateway.live.worker)}) ==> r.Some?
  {
    var identity :- gateway.CurrentIdentity();
    var (worker, image, applicationVersion) := identity;
    if (expected.Some? && worker != expected.value) || image != arguments.image
       || applicationVersion != arguments.applicationVersion
    {
      return None;
    }
    r := Some(worker);
  }

  /** Poll until the active version is another one, or twelve looks with eleven waits between them saw none. */
  method WaitForWorker(gateway: Gateway, previous: Version) returns (r: Option<Version>)
    requires Consistent(gateway.live)
    modifies gateway`live, gateway`step
    ensures gateway.live == old(gateway.live) || gateway.live == Promoted(old(gateway.live))
    ensures !gateway.fates(old(gateway.step)).ok ==> r.None? && gateway.step == old(gateway.step) + 1
    ensures r.Some? ==> r.value == gateway.live.worker && r.value != previous
    ensures gateway.Reliable() && old(gateway.live.worker == previous ==> gateway.live.rolling.Some?) ==> r.Some?
    ensures gateway.Reliable() && old(gateway.live.worker == previous && gateway.live.rolling.None?) ==>
              r.None? && gateway.step == old(gateway.step) + 12 + 11
  {
    for attempt := 0 to POLL_ATTEMPTS
      invariant gateway.live == old(gateway.live) || gateway.live == Promoted(old(gateway.live))
      invariant gateway.Reliable() && attempt > 0 ==> gateway.live == Promoted(old(gateway.live))
      invariant if attempt == 0 then gateway.live == old(gateway.live) && gateway.step == old(gateway.step)
                else old(gateway.live.worker) == previous && gateway.fates(old(gateway.step)).ok
      invariant attempt > 1 && gateway.Reliable() ==> old(gateway.live.rolling).None?
      invariant gateway.Reliable() ==>
                  gateway.step == old(gateway.step) + 2 * attempt - (if attempt == POLL_ATTEMPTS then 1 else 0)
    {
      var worker :- gateway.ActiveWorker();
      if worker != previous {
        return Some(worker);
      }
      if attempt + 1 != POLL_ATTEMPTS {
        var slept := gateway.Wait();
        if !slept {
          return None;
        }
      }
    }
    r := None;
  }

  /** Ask the endpoint and believe only a receipt that fits the operation. */
  method CallAdmin(gateway: Gateway, operation: Operation, key: string) returns (r: Option<Receipt>)
    modifies gateway`live, gateway`step
    ensures gateway.step == old(gateway.step) + 1 && (r.Some? ==> gateway.fates(old(gateway.step)).ok)
    ensures gateway.live == old(gateway.live) || (!operation.Inspect? && Restarted(old(gateway.live), gateway.live))
    ensures r.Some? ==> r.value.key == gateway.live.loaded && (r.value.key.None? || r.value.key == Some(key))
                        && gateway.live.lastChange > 0
    ensures r.Some? && !operation.Inspect? ==> Restarted(old(gateway.live), gateway.live)
    ensures r.Some? && operation.InstallKey? ==> r.value.key == Some(key)
    ensures r.Some? && operation.RemoveKey? ==> r.value.key.None?
    ensures (gateway.Reliable() && EndpointAllows(operation, gateway.live.bound, key)
             && old(gateway.live.lastChange) > 0
             && (operation.Inspect? ==> gateway.live.loaded in {None, Some(key)})) ==> r.Some?
  {
    var receipt :- gateway.Ask(operation, key);
    if (receipt.key.Some? && receipt.key != Some(key)) || receipt.lastChange <= 0 {
      return None;
    }
    if !operation.Inspect? {
      if (operation.InstallKey? && receipt.key.None?) || (operation.RemoveKey? && receipt.key.Some?)
         || receipt.lastChange <= receipt.previous
      {
        return None;
      }
    }
    r := Some(receipt);
  }

  /** How a failed installation leaves its key behind: the `put` failed but took effect, for which there is no
      clean-up; or the clean-up, begun at step `cleanup`, could not read the status and issued nothing, or its
      `delete` failed without effect. */
  predicate LeavesKey(fates: nat -> Fate, put: nat, cleanup: Option<nat>) {
    if cleanup.None? then !fates(put).ok && fates(put).effective
    else !fates(cleanup.value).ok || (!fates(cleanup.value + 1).ok && !fates(cleanup.value + 1).effective)
  }

  /** Install the key where none is. Clean-up is for a `put` that reported success only, and the key that is
      left after a failure is told exactly: it is what the last command left, and whether it is there depends
      on the fates of the `put` and of the two steps of the clean-up and on nothing else. */
  method Install(gateway: Gateway, hash: Release -> string, arguments: Arguments, key: string)
    returns (r: Option<Acknowledgement>, ghost cleanup: Option<nat>)
    requires Consistent(gateway.live)
    modifies gateway
    ensures Consistent(gateway.live) && old(gateway.log) <= gateway.log
    ensures InstallLog(arguments, key, gateway.log[|old(gateway.log)|..])
    ensures r.Some? ==>
              && r.value.Installed? && |gateway.log| == |old(gateway.log)| + 1
              && gateway.live.worker != arguments.worker
              && Ready(hash, RemoveRequest(key, r.value.releaseId, r.value.releaseSha256), arguments, gateway.live)
    ensures gateway.Reliable() && old(gateway.live.lastChange > 0 && gateway.live.secret.None?
                                      && gateway.live.worker == arguments.worker
                                      && Admitted(arguments, gateway.live)) ==>
              r.Some?
    ensures var issued, s := gateway.log[|old(gateway.log)|..], old(gateway.step);
            && (issued != [] <==>
                  && gateway.fates(s).ok && gateway.fates(s + 1).ok && old(gateway.live.secret).None?
                  && old(gateway.live.worker) == arguments.worker && Admitted(arguments, old(gateway.live)))
            && (issued == [] ==> r.None? && gateway.live == old(gateway.live))
            && (issued != [] ==> issued[0].ok == gateway.fates(s + 2).ok)
            && (|issued| == 1 && !issued[0].ok ==> r.None? && gateway.live == issued[0].after)
            && (cleanup.Some? <==> r.None? && issued != [] && issued[0].ok)
            && (|issued| == 2 <==> cleanup.Some? && gateway.fates(cleanup.value).ok)
            && (|issued| == 2 ==> issued[1].ok == gateway.fates(cleanup.value + 1).ok)
            && (|issued| == 2 && issued[1].ok ==> gateway.live.secret.None?)
            && (issued != [] && issued[0].ok && !gateway.fates(s + 3).ok ==> cleanup == Some(s + 4))
            && gateway.live.secret == (if issued == [] then old(gateway.live.secret)
                                       else issued[|issued| - 1].after.secret)
            && (r.None? && issued != [] ==>
                  (gateway.live.secret == Some(key) <==> LeavesKey(gateway.fates, s + 2, cleanup)))
  {
    cleanup := None;
    var admitted := AssertAdmitted(gateway, arguments, Some(arguments.worker));
    if admitted.None? {
      return None, None;
    }
    var installed := gateway.HasSecret();
    if installed != Some(false) {
      return None, None;
    }
    var put := gateway.Change(PutSecret(key));
    if !put {
      return None, None;
    }
    r, cleanup := CompleteInstall(gateway, hash, arguments, key);
  }

  /** What an installation may have issued: one `put`, on the admitted version without a secret, and one
      `delete` after a `put` that succeeded. */
  predicate InstallLog(arguments: Arguments, key: string, issued: seq<Entry>) {
    && |issued| <= 2
    && (|issued| >= 1 ==>
          && issued[0].command == PutSecret(key) && issued[0].before.secret.None?
          && issued[0].before.worker == arguments.worker && Admitted(arguments, issued[0].before))
    && (|issued| == 2 ==> issued[0].ok && issued[1].command == DeleteSecret)
  }

  /** The state an installation acknowledges, and the one a removal of it starts from. */
  predicate Ready(hash: Release -> string, request: RemoveRequest, arguments: Arguments, live: Live) {
    && RunsRelease(hash, request, arguments, live) && live.lastChange > 0
    && live.secret == live.bound == Some(request.key) && live.rolling.None?
  }

  /** An admitted gateway whose next version is on its way or already there. */
  predicate BringsUpKey(arguments: Arguments, live: Live) {
    && Admitted(arguments, live) && live.lastChange > 0
    && (live.worker == arguments.worker ==> live.rolling.Some?)
  }

  /** What follows a `put` that succeeded: the rest of the installation, or its clean-up. */
  method CompleteInstall(gateway: Gateway, hash: Release -> string, arguments: Arguments, key: string)
    returns (r: Option<Acknowledgement>, ghost cleanup: Option<nat>)
    requires Consistent(gateway.live) && gateway.live.secret == Some(key)
    requires gateway.live.worker == arguments.worker || gateway.live.rolling.None?
    modifies gateway
    ensures Consistent(gateway.live) && old(gateway.log) <= gateway.log
    ensures r.Some? ==>
              && r.value.Installed? && gateway.live.worker != arguments.worker
              && Ready(hash, RemoveRequest(key, r.value.releaseId, r.value.releaseSha256), arguments, gateway.live)
    ensures gateway.Reliable() && old(BringsUpKey(arguments, gateway.live)) ==> r.Some?
    ensures cleanup.Some? <==> r.None?
    ensures !gateway.fates(old(gateway.step)).ok ==> cleanup == Some(old(gateway.step) + 1)
    ensures if cleanup.Some? && gateway.fates(cleanup.value).ok then
              && |gateway.log| == |old(gateway.log)| + 1
              && (var issued := gateway.log[|old(gateway.log)|];
                  && issued.command == DeleteSecret && issued.ok == gateway.fates(cleanup.value + 1).ok
                  && gateway.live.secret == issued.after.secret && (issued.ok ==> gateway.live.secret.None?))
            else gateway.log == old(gateway.log) && gateway.live.secret == Some(key)
    ensures r.None? ==> (gateway.live.secret == Some(key) <==> LeavesKey(gateway.fates, 0, cleanup))
  {
    cleanup := None;
    r := FinishInstall(gateway, hash, arguments, key);
    if r.None? {
      cleanup := Some(gateway.step);
      UndoInstall(gateway, key);
    }
  }

  method FinishInstall(gateway: Gateway, hash: Release -> string, arguments: Arguments, key: string)
    returns (r: Option<Acknowledgement>)
    requires Consistent(gateway.live) && gateway.live.secret == Some(key)
    requires gateway.live.worker == arguments.worker || gateway.live.rolling.None?
    modifies gateway`live, gateway`step
    ensures Consistent(gateway.live) && gateway.live.secret == Some(key)
    ensures !gateway.fates(old(gateway.step)).ok ==> r.None? && gateway.step == old(gateway.step) + 1
    ensures r.Some? ==>
              && r.value.Installed? && gateway.live.worker != arguments.worker
              && Ready(hash, RemoveRequest(key, r.value.releaseId, r.value.releaseSha256), arguments, gateway.live)
    ensures gateway.Reliable() && old(BringsUpKey(arguments, gateway.live)) ==> r.Some?
  {
    var worker :- WaitForWorker(gateway, arguments.worker);
    var _ :- CallAdmin(gateway, InstallKey, key);
    var _ :- AssertAdmitted(gateway, arguments, Some(worker));
    r := Some(Installed(worker, hash(ReleaseOf(arguments, worker))));
  }

  /** The clean-up of an installation: one `delete`, unless the status cannot even be read. */
  method UndoInstall(gateway: Gateway, key: string)
    requires Consistent(gateway.live)
    modifies gateway
    ensures Consistent(gateway.live)
    ensures var s, fates := old(gateway.step), gateway.fates;
            if fates(s).ok then
              && |gateway.log| == |old(gateway.log)| + 1 && old(gateway.log) < gateway.log
              && (var issued := gateway.log[|old(gateway.log)|];
                  && issued.command == DeleteSecret && issued.before == old(gateway.live)
                  && issued.ok == fates(s + 1).ok
                  && gateway.live.secret == issued.after.secret
                  && issued.after.secret == (if issued.ok || fates(s + 1).effective then None
                                             else old(gateway.live.secret)))
            else gateway.log == old(gateway.log) && gateway.live == old(gateway.live)
  {
    var before := gateway.ActiveWorker();
    if before.Some? {
      var deleted := gateway.Change(DeleteSecret);
      if deleted {
        var advanced := WaitForWorker(gateway, before.value);
        if advanced.Some? {
          var _ := CallAdmin(gateway, RemoveKey, key);
        }
      }
    }
  }

  /** A schedule on which it happens: everything succeeds but the `put`, which fails after taking effect. */
  method FailedPutLeavesKey(live: Live, hash: Release -> string, arguments: Arguments, key: string)
    returns (r: Option<Acknowledgement>, after: Live)
    requires Consistent(live) && live.secret.None? && live.worker == arguments.worker && Admitted(arguments, live)
    ensures r.None? && after.secret == Some(key)
  {
    var gateway := new Gateway(live, n => Fate(n != 2, true, false));
    ghost var cleanup;
    r, cleanup := Install(gateway, hash, arguments, key);
    after := gateway.live;
  }

  /** Another: the `put` succeeds, and then the two status commands after it fail, the second of them in the
      clean-up. */
  method BlindCleanUpLeavesKey(live: Live, hash: Release -> string, arguments: Arguments, key: string)
    returns (r: Option<Acknowledgement>, after: Live)
    requires Consistent(live) && live.secret.None? && live.worker == arguments.worker && Admitted(arguments, live)
    ensures r.None? && after.secret == Some(key)
  {
    var gateway := new Gateway(live, n => Fate(n != 3 && n != 4, true, false));
    ghost var cleanup;
    r, cleanup := Install(gateway, hash, arguments, key);
    after := gateway.live;
  }

  /** Some steps in a row reported success. */
  predicate AllWell(fates: nat -> Fate, from: nat, count: nat) {
    forall n :: from <= n < from + count ==> fates(n).ok
  }

  /** Report what is installed, from a restart made for the purpose: identity, secret, restart, and identity again. */
  method Verify(gateway: Gateway, hash: Release -> string, arguments: Arguments, key: string)
    returns (r: Option<Acknowledgement>)
    modifies gateway`live, gateway`step
    ensures gateway.live == old(gateway.live) || Restarted(old(gateway.live), gateway.live)
    ensures r.Some? ==> Restarted(old(gateway.live), gateway.live) && Admitted(arguments, gateway.live)
    ensures r.Some? ==> gateway.step == old(gateway.step) + 4 && AllWell(gateway.fates, old(gateway.step), 4)
    ensures r == Some(Absent) ==> gateway.live.secret.None? && gateway.live.loaded.None?
    ensures r.Some? && r.value.Installed? ==>
              && gateway.live.secret.Some?
              && RunsRelease(hash, RemoveRequest(key, r.value.releaseId, r.value.releaseSha256), arguments,
                             gateway.live)
    ensures (gateway.Reliable() && old(gateway.live.lastChange > 0 && Admitted(arguments, gateway.live)
                                       && gateway.live.bound in {None, Some(key)})) ==>
              (r.Some? <==> old(gateway.live.secret.Some? == gateway.live.bound.Some?))
              && (r.Some? ==> (r.value.Installed? <==> old(gateway.live.secret.Some?)))
  {
    var worker :- AssertAdmitted(gateway, arguments, None);
    var installed :- gateway.HasSecret();
    var receipt :- CallAdmin(gateway, VerifyKey, key);
    if installed != receipt.key.Some? {
      return None;
    }
    var _ :- AssertAdmitted(gateway, arguments, Some(worker));
    if receipt.key.None? {
      return Some(Absent);
    }
    r := Some(Installed(worker, hash(ReleaseOf(arguments, worker))));
  }

  /** The key was deleted and a version without it made: it is rolling out, or active. */
  predicate Deleted(request: RemoveRequest, arguments: Arguments, live: Live) {
    && Admitted(arguments, live) && live.lastChange > 0 && live.secret.None?
    && (if live.rolling.Some? then live.worker == request.releaseId
        else live.worker != request.releaseId && live.bound.None?)
  }

  /** Where a removal can be started, or started again. */
  predicate Removable(hash: Release -> string, request: RemoveRequest, arguments: Arguments, live: Live) {
    Consistent(live) && (Ready(hash, request, arguments, live) || Deleted(request, arguments, live))
  }

  /** Delete the secret, if the gateway still runs the release that was asked for, and wait for the version
      without it: the delete comes after an inspection and one more look at the identity. */
  method DeleteReleased(gateway: Gateway, hash: Release -> string, request: RemoveRequest, arguments: Arguments,
                        worker: Version)
    returns (r: Option<Version>)
    requires worker == gateway.live.worker && Consistent(gateway.live)
    requires gateway.live.secret.Some? && Admitted(arguments, gateway.live)
    modifies gateway
    ensures Consistent(gateway.live) && gateway.live.lastChange == old(gateway.live.lastChange)
    ensures old(gateway.log) <= gateway.log && |gateway.log| <= |old(gateway.log)| + 1
    ensures |gateway.log| > |old(gateway.log)| ==>
              var issued := gateway.log[|old(gateway.log)|];
              issued.command == DeleteSecret && RunsRelease(hash, request, arguments, issued.before)
    ensures |gateway.log| > |old(gateway.log)| ==>
              && AllWell(gateway.fates, old(gateway.step), 2)
              && gateway.log[|old(gateway.log)|].ok == gateway.fates(old(gateway.step) + 2).ok
    ensures r.Some? ==> r.value == gateway.live.worker != request.releaseId
    ensures old(Removable(hash, request, arguments, gateway.live)) ==> Removable(hash, request, arguments, gateway.live)
    ensures old(Removable(hash, request, arguments, gateway.live)) && r.Some? ==>
              Deleted(request, arguments, gateway.live)
    ensures gateway.Reliable() && old(Removable(hash, request, arguments, gateway.live)) ==> r.Some?
  {
    if worker != request.releaseId {
      return None;
    }
    var live :- CallAdmin(gateway, Inspect, request.key);
    if live.key.None? || hash(ReleaseOf(arguments, worker)) != request.releaseSha256 {
      return None;
    }
    var _ :- AssertAdmitted(gateway, arguments, Some(worker));
    var deleted := gateway.Change(DeleteSecret);
    if !deleted {
      return None;
    }
    r := WaitForWorker(gateway, worker);
  }

  /** Restart the container without the key, and check once more that everything is as acknowledged. */
  method ConfirmRemoved(gateway: Gateway, request: RemoveRequest, arguments: Arguments, worker: Version)
    returns (r: Option<Acknowledgement>)
    modifies gateway`live, gateway`step
    ensures gateway.live == old(gateway.live) || Restarted(old(gateway.live), gateway.live)
    ensures r.Some? ==>
              && r == Some(Absent) && Admitted(arguments, gateway.live) && gateway.live.worker == worker
              && gateway.live.secret.None? && gateway.live.loaded.None? && Restarted(old(gateway.live), gateway.live)
    ensures (gateway.Reliable() && old(Deleted(request, arguments, gateway.live) && gateway.live.worker == worker
             && gateway.live.rolling.None?)) ==> r.Some?
  {
    var _ :- CallAdmin(gateway, RemoveKey, request.key);
    var _ :- AssertAdmitted(gateway, arguments, Some(worker));
    var remains :- gateway.HasSecret();
    if remains {
      return None;
    }
    r := Some(Absent);
  }

  /** Remove the key of an acknowledged release. Whatever fails on the way, the same request can be made
      again, and it goes through as soon as commands succeed and no version is still rolling out. */
  method Remove(gateway: Gateway, hash: Release -> string, request: RemoveRequest, arguments: Arguments)
    returns (r: Option<Acknowledgement>)
    requires Consistent(gateway.live)
    modifies gateway
    ensures Consistent(gateway.live)
    ensures old(gateway.log) <= gateway.log && |gateway.log| <= |old(gateway.log)| + 1
    ensures |gateway.log| > |old(gateway.log)| ==>
              var issued := gateway.log[|old(gateway.log)|];
              issued.command == DeleteSecret && RunsRelease(hash, request, arguments, issued.before)
    ensures r.Some? ==>
              && r == Some(Absent) && Admitted(arguments, gateway.live)
              && gateway.live.secret.None? && gateway.live.worker != request.releaseId
              && gateway.live.loaded.None? && gateway.live.lastChange > old(gateway.live.lastChange)
    ensures old(Removable(hash, request, arguments, gateway.live)) ==> Removable(hash, request, arguments, gateway.live)
    ensures gateway.Reliable() && old(Removable(hash, request, arguments, gateway.live)) ==>
              (r.Some? <==> old(gateway.live).rolling.None?)
  {
    var worker :- AssertAdmitted(gateway, arguments, None);
    var installed :- gateway.HasSecret();
    if installed {
      worker :- DeleteReleased(gateway, hash, request, arguments, worker);
    } else if worker == request.releaseId {
      return None;
    }
    r := ConfirmRemoved(gateway, request, arguments, worker);
  }

  /** A key that was installed can be removed: where commands succeed, on any admitted gateway without a key, the
      installation is acknowledged, a verification confirms it, and a removal of exactly that acknowledgement
      leaves neither the secret nor the key. */
  method InstallVerifyRemove(gateway: Gateway, hash: Release -> string, arguments: Arguments, key: string)
    returns (installed: Option<Acknowledgement>, verified: Option<Acknowledgement>, removed: Option<Acknowledgement>)
    requires gateway.Reliable() && Consistent(gateway.live) && gateway.live.lastChange > 0
    requires gateway.live.secret.None? && gateway.live.worker == arguments.worker && Admitted(arguments, gateway.live)
    modifies gateway
    ensures installed.Some? && installed.value.Installed? && verified == installed && removed == Some(Absent)
    ensures gateway.live.secret.None? && gateway.live.loaded.None?
  {
    ghost var cleanup;
    installed, cleanup := Install(gateway, hash, arguments, key);
    verified := Verify(gateway, hash, arguments, key);
    var request := RemoveRequest(key, installed.value.releaseId, installed.value.releaseSha256);
    removed := Remove(gateway, hash, request, arguments);
  }
}
