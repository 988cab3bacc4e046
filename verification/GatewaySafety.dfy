/** What holds in every state the gateway can reach, whatever the interleaving of requests,
    cancellations, failures and route swaps. */
module GatewaySafety {
  import opened Common
  import opened HexCodec
  import opened TraceRecording
  import opened ResponseStream
  import opened RouteManifest
  import opened RoutePolicy
  import opened Admission
  import opened ProxyRequest
  import opened Gateway

  lemma Reachable(env: Env, steps: seq<Step>)
    ensures Inv(env, Run(env, Start(env.config), steps))
  {
    StartKeepsInv(env);
    RunKeepsInv(env, Start(env.config), steps);
  }

  // ---------------------------------------------------------------- permits

  predicate AnsweredByCandidate(r: Request) {
    (r.phase.Awaiting? || r.phase.Streaming?) && r.phase.target == Candidate
  }

  /** Permits are conserved, and no generation's candidate traffic can fill the gateway: with its free permits
      its holders, all of them requests the candidate is answering, add up to the configured number, which is
      below the gateway's. */
  lemma PermitsAreConserved(env: Env, steps: seq<Step>)
    ensures var s := Run(env, Start(env.config), steps);
            && s.gatewayFree + |s.live| == env.config.maxInFlight
            && s.outcomes.free + |s.outcomes.held| == env.config.maxOutcomesInFlight
            && (forall id :: id in s.live ==> !s.live[id].phase.Over?)
            && (forall g :: 0 <= g < |s.generations| && s.generations[g].candidate.Some? ==>
                  var c := s.generations[g].candidate.value;
                  && c.capacity == env.config.route.candidateMaxInFlight < env.config.maxInFlight
                  && c.free + |Holders(s.live, g)| == env.config.route.candidateMaxInFlight)
            && (forall id :: id in s.live && AnsweredByCandidate(s.live[id]) ==>
                  id in Holders(s.live, s.live[id].generation))
  {
    Reachable(env, steps);
    var s := Run(env, Start(env.config), steps);
    forall g | 0 <= g < |s.generations| && s.generations[g].candidate.Some?
      ensures var c := s.generations[g].candidate.value;
              && c.capacity == env.config.route.candidateMaxInFlight < env.config.maxInFlight
              && c.free + |Holders(s.live, g)| == env.config.route.candidateMaxInFlight
    {
      assert RuntimeOk(env.config, s.live, g, s.generations[g]);
    }
    forall id | id in s.live && AnsweredByCandidate(s.live[id])
      ensures id in Holders(s.live, s.live[id].generation)
    {
      assert RequestOk(env.config, s.live[id]);
    }
  }

  // ---------------------------------------------------------------- memory

  /** The request body and the response buffer a live request holds. */
  function Held(r: Request): nat {
    match r.phase
    case ReadingBody(buffered) => buffered
    case Choosing(_, _) => |r.body|
    case Awaiting(_) => |r.body|
    case Streaming(_, stream) => |r.body| + (if stream.Some? then stream.value.recording.responseCapacity else 0)
    case Over(_) => 0
  }

  ghost function Total<T(!new)>(m: map<nat, T>, size: T -> nat): nat
    decreases |m|
  {
    if m == map[] then 0
    else
      var id :| id in m;
      RemoveOne(m, id);
      size(m[id]) + Total(m - {id}, size)
  }

  lemma OneMore(n: nat, each: nat)
    ensures (n + 1) * each == n * each + each
  {
  }

  lemma FewerHoldLess(few: nat, many: nat, each: nat)
    requires few <= many
    ensures few * each <= many * each
  {
  }

  lemma {:induction false} TotalAtMost<T(!new)>(m: map<nat, T>, size: T -> nat, most: nat)
    requires forall id :: id in m ==> size(m[id]) <= most
    ensures Total(m, size) <= |m| * most
    decreases |m|
  {
    if m != map[] {
      var id :| id in m && Total(m, size) == size(m[id]) + Total(m - {id}, size);
      RemoveOne(m, id);
      TotalAtMost(m - {id}, size, most);
      OneMore(|m - {id}|, most);
    }
  }

  lemma HeldAtMost(config: GatewayConfig, r: Request)
    requires CaptureBytes(config) < USIZE_MAX && RequestOk(config, r)
    ensures Held(r) <= config.maxRequestBytes + CaptureBytes(config)
  {
  }

  function Itself(bytes: nat): nat {
    bytes
  }

  lemma ChatBytesBounded(env: Env, s: State)
    requires CaptureBytes(env.config) < USIZE_MAX && Inv(env, s)
    ensures Total(s.live, Held) <= ChatLimit(env.config)
  {
    var each := env.config.maxRequestBytes + CaptureBytes(env.config);
    forall id | id in s.live
      ensures Held(s.live[id]) <= each
    {
      HeldAtMost(env.config, s.live[id]);
    }
    TotalAtMost(s.live, Held, each);
    FewerHoldLess(|s.live|, env.config.maxInFlight, each);
  }

  lemma OutcomeBytesBounded(config: GatewayConfig, pool: OutcomePool)
    requires OutcomesOk(config, pool)
    ensures Total(pool.held, Itself) <= OutcomeLimit(config)
  {
    TotalAtMost(pool.held, Itself, config.captureRecordBytes);
    FewerHoldLess(|pool.held|, config.maxOutcomesInFlight, config.captureRecordBytes);
  }

  lemma BytesBounded(env: Env, s: State, steps: seq<Step>)
    requires s == Run(env, Start(env.config), steps)
    requires CaptureBytes(env.config) < USIZE_MAX
    ensures Total(s.live, Held) + Total(s.outcomes.held, Itself) <= ChatLimit(env.config) + OutcomeLimit(env.config)
  {
    Reachable(env, steps);
    ChatBytesBounded(env, s);
    OutcomeBytesBounded(env.config, s.outcomes);
  }

  /** An admitted configuration bounds memory: over every reachable state, the bodies and capture buffers of
      all chat and outcome requests in flight stay within `max_active_body_bytes`. */
  lemma ActiveBytesBounded(env: Env, steps: seq<Step>)
    requires AdmittedBytes(env.config).Ok?
    ensures var s := Run(env, Start(env.config), steps);
            Total(s.live, Held) + Total(s.outcomes.held, Itself) <= env.config.maxActiveBodyBytes
  {
    var s := Run(env, Start(env.config), steps);
    AcceptedConfig(env.config);
    BytesBounded(env, s, steps);
  }

  // ---------------------------------------------------------------- the send protocol

  /** Every request of every run, finished or not, followed the send protocol, and handed over at most one
      record. */
  lemma EveryRequestFollowsProtocol(env: Env, steps: seq<Step>, id: nat)
    ensures var s := Run(env, Start(env.config), steps);
            && (id in s.live ==> FollowsProtocol(s.live[id].generation, s.live[id].log))
            && (id in s.done ==>
                  && FollowsProtocol(s.done[id].generation, s.done[id].log)
                  && s.done[id].phase.Over? && |s.done[id].phase.handed| <= 1)
  {
    Reachable(env, steps);
    var s := Run(env, Start(env.config), steps);
    if id in s.live {
      SendsFollowProtocol(env.config, s.live[id]);
    }
    if id in s.done {
      SendsFollowProtocol(env.config, s.done[id]);
    }
  }

  // ---------------------------------------------------------------- the fuse

  predicate Healthy(s: State, g: int) {
    0 <= g < |s.generations| && s.generations[g].candidate.Some? && s.generations[g].candidate.value.healthy
  }

  function LogOf(s: State, id: nat): seq<Event> {
    if id in s.live then s.live[id].log else if id in s.done then s.done[id].log else []
  }

  /** The request read the health flag of this generation while it was up, and has not sent yet. */
  predicate Trusts(s: State, id: nat, g: int) {
    id in s.live && s.live[id].phase.Choosing? && s.live[id].phase.sampled == Some(Candidate)
    && s.live[id].generation == g
  }

  predicate MaySend(s: State, id: nat, g: int) {
    Trusts(s, id, g) || Healthy(s, g)
  }

  /** What one step may do to fuses, to what requests know of them, and to logs. */
  ghost predicate FuseStep(s: State, t: State) {
    && |s.generations| <= |t.generations|
    && (forall g :: 0 <= g < |s.generations| && Healthy(t, g) ==> Healthy(s, g))
    && (forall id, g :: 0 <= g < |s.generations| && Trusts(t, id, g) ==> MaySend(s, id, g))
    && (forall id :: LogOf(s, id) <= LogOf(t, id))
    && (forall id, i ::
          (|LogOf(s, id)| <= i < |LogOf(t, id)| && LogOf(t, id)[i].CandidateSent?
           && LogOf(t, id)[i].generation < |s.generations|) ==> MaySend(s, id, LogOf(t, id)[i].generation))
  }

  lemma PutIsFuseStep(env: Env, s: State, id: nat, g: nat, outcome: Outcome)
    requires Inv(env, s) && id in s.live && g < |s.generations|
    requires s.live[id].log <= outcome.request.log
    requires forall i :: |s.live[id].log| <= i < |outcome.request.log| && outcome.request.log[i].CandidateSent? ==>
               MaySend(s, id, outcome.request.log[i].generation)
    requires (outcome.request.phase.Choosing? && outcome.request.phase.sampled == Some(Candidate)) ==>
               MaySend(s, id, outcome.request.generation)
    ensures FuseStep(s, Put(s, id, g, outcome))
  {
    var t := Put(s, id, g, outcome);
    assert id !in s.done;
    forall other: nat
      ensures LogOf(t, other) == if other == id then outcome.request.log else LogOf(s, other)
    {
    }
  }

  /** A request starts with an empty log, and sends to the candidate only if it trusts it. */
  lemma StartSends(env: Env, s: State, id: nat)
    requires Inv(env, s) && Pinned(s, id) && s.live[id].phase.Choosing? && s.live[id].phase.sampled.Some?
    ensures s.live[id].log == []
    ensures var log := Started(env.config, s.generations[s.live[id].generation], s.live[id]).request.log;
            forall i :: 0 <= i < |log| && log[i].CandidateSent? ==> Trusts(s, id, log[i].generation)
  {
    var r := s.live[id];
    LiveIsOk(env, s, id);
    StartedOk(env.config, s.generations[r.generation], r);
    var after := Started(env.config, s.generations[r.generation], r).request;
    forall i | 0 <= i < |after.log| && after.log[i].CandidateSent?
      ensures Trusts(s, id, after.log[i].generation)
    {
      CandidateSentFirst(env.config, after, i);
    }
  }

  lemma BufferIsFuseStep(env: Env, s: State, id: nat, bytes: nat)
    requires Inv(env, s)
    ensures FuseStep(s, Next(env, s, BufferBody(id, bytes)))
  {
    if Pinned(s, id) && s.live[id].phase.ReadingBody? {
      PutIsFuseStep(env, s, id, s.live[id].generation, Outcome(MoreBody(env.config, s.live[id], bytes), false));
    }
  }

  lemma FinishIsFuseStep(env: Env, s: State, id: nat, body: BodyInput)
    requires Inv(env, s)
    ensures FuseStep(s, Next(env, s, FinishBody(id, body)))
  {
    if id in s.live && s.live[id].phase.ReadingBody? && |body.body| <= env.config.maxRequestBytes {
      PutIsFuseStep(env, s, id, Current(s), Outcome(PinnedTo(Current(s), s.live[id], body), false));
    }
  }

  lemma SampleIsFuseStep(env: Env, s: State, id: nat)
    requires Inv(env, s)
    ensures FuseStep(s, Next(env, s, SampleHealth(id)))
  {
    if Pinned(s, id) && s.live[id].phase.Choosing? && s.live[id].phase.sampled.None? {
      var r := s.live[id];
      PutIsFuseStep(env, s, id, r.generation, Outcome(HealthSampled(env.world, s.generations[r.generation], r), false));
    }
  }

  lemma DispatchIsFuseStep(env: Env, s: State, id: nat)
    requires Inv(env, s)
    ensures FuseStep(s, Next(env, s, Dispatch(id)))
  {
    if Pinned(s, id) && s.live[id].phase.Choosing? && s.live[id].phase.sampled.Some? {
      var r := s.live[id];
      var outcome := Started(env.config, s.generations[r.generation], r);
      StartSends(env, s, id);
      PutIsFuseStep(env, s, id, r.generation, outcome);
    }
  }

  lemma RequestStepIsFuseStep(env: Env, s: State, step: Step)
    requires Inv(env, s) && (step.Answer? || step.Poll? || step.Leave?)
    ensures FuseStep(s, Next(env, s, step))
  {
    if Pinned(s, step.id) {
      var r := s.live[step.id];
      if step.Answer? && r.phase.Awaiting? {
        AnsweredOk(env.config, r, step.answer);
        PutIsFuseStep(env, s, step.id, r.generation, Answered(env.config, r, step.answer));
      } else if step.Poll? && r.phase.Streaming? {
        PutIsFuseStep(env, s, step.id, r.generation, Polled(r, step.event));
      } else if step.Leave? && !r.phase.Choosing? {
        PutIsFuseStep(env, s, step.id, r.generation, Outcome(Left(r, step.elapsed), false));
      }
    }
  }

  lemma RefreshIsFuseStep(env: Env, s: State, loaded: Option<LiveRoute>, wallNow: int, monotonicNow: int)
    requires Inv(env, s)
    ensures FuseStep(s, Next(env, s, Refresh(loaded, wallNow, monotonicNow)))
  {
    var t := Next(env, s, Refresh(loaded, wallNow, monotonicNow));
    assert s.generations <= t.generations && t == s.(generations := t.generations);
  }

  lemma ArriveIsFuseStep(env: Env, s: State, id: nat, endpoint: RouteEndpoint)
    requires Inv(env, s)
    ensures FuseStep(s, Next(env, s, Arrive(id, endpoint)))
  {
  }

  lemma StepIsFuseStep(env: Env, s: State, step: Step)
    requires Inv(env, s)
    ensures FuseStep(s, Next(env, s, step))
  {
    match step
    case BufferBody(id, bytes) => BufferIsFuseStep(env, s, id, bytes);
    case FinishBody(id, body) => FinishIsFuseStep(env, s, id, body);
    case SampleHealth(id) => SampleIsFuseStep(env, s, id);
    case Dispatch(id) => DispatchIsFuseStep(env, s, id);
    case Arrive(id, endpoint) => ArriveIsFuseStep(env, s, id, endpoint);
    case Refresh(loaded, wallNow, monotonicNow) => RefreshIsFuseStep(env, s, loaded, wallNow, monotonicNow);
    case Answer(_, _) => RequestStepIsFuseStep(env, s, step);
    case Poll(_, _) => RequestStepIsFuseStep(env, s, step);
    case Leave(_, _) => RequestStepIsFuseStep(env, s, step);
    case _ =>
  }

  lemma FuseStepsCompose(s: State, t: State, u: State)
    requires FuseStep(s, t) && FuseStep(t, u)
    ensures FuseStep(s, u)
  {
  }

  lemma {:induction false} RunIsFuseStep(env: Env, s: State, steps: seq<Step>)
    requires Inv(env, s)
    ensures FuseStep(s, Run(env, s, steps))
  {
    if steps != [] {
      var before := Run(env, s, steps[..|steps| - 1]);
      RunIsFuseStep(env, s, steps[..|steps| - 1]);
      RunKeepsInv(env, s, steps[..|steps| - 1]);
      StepIsFuseStep(env, before, steps[|steps| - 1]);
      FuseStepsCompose(s, before, Run(env, s, steps));
    }
  }

  /** The fuse is sticky. From any reachable state where a generation's candidate is unhealthy, however the
      run goes on, it stays unhealthy, and no request sends to it any more unless it had read the health flag
      before: every request that reads it from now on, or has yet to arrive, goes elsewhere. */
  lemma FuseIsSticky(env: Env, past: seq<Step>, future: seq<Step>, g: nat, id: nat)
    requires var s := Run(env, Start(env.config), past);
             g < |s.generations| && !Healthy(s, g)
    ensures var s := Run(env, Start(env.config), past);
            var t := Run(env, s, future);
            && !Healthy(t, g) && g < |t.generations| && LogOf(s, id) <= LogOf(t, id)
            && (!Trusts(s, id, g) ==>
                  && !Trusts(t, id, g)
                  && forall i :: |LogOf(s, id)| <= i < |LogOf(t, id)| && LogOf(t, id)[i].CandidateSent? ==>
                       LogOf(t, id)[i].generation != g)
  {
    Reachable(env, past);
    RunIsFuseStep(env, Run(env, Start(env.config), past), future);
  }

  /** The candidate was chosen, a permit was there, but it could not even be sent to. */
  predicate Unsendable(env: Env, s: State, id: nat) {
    && Pinned(s, id) && s.live[id].phase.Choosing? && s.live[id].phase.sampled.Some?
    && (var r := s.live[id];
        var input := r.phase.input;
        && r.phase.sampled == Some(Candidate) && s.generations[r.generation].candidate.Some?
        && s.generations[r.generation].candidate.value.free > 0
        && input.baselineHeadersValid && input.candidateHeadersValid
        && (!input.candidateUrlValid || input.startedAt + env.config.totalTimeout <= input.sentAt))
  }

  predicate UnfitAnswer(r: Request, answer: AnswerInput) {
    r.phase.Awaiting? && r.phase.target == Candidate && (answer.answer.None? || RequiresFallback(answer.answer.value))
  }

  /** The ways a candidate fails a request: not sendable, no fit answer, or a broken stream. */
  predicate CandidateFails(env: Env, s: State, step: Step) {
    match step
    case Dispatch(id) => Unsendable(env, s, id)
    case Answer(id, answer) => id in s.live && UnfitAnswer(s.live[id], answer)
    case Poll(id, event) =>
      id in s.live && s.live[id].phase.Streaming? && s.live[id].phase.target == Candidate && event.Broke?
    case _ => false
  }

  /** The request a candidate fails after a send is one of its generation's holders. */
  lemma FailingRequestHolds(env: Env, s: State, step: Step)
    requires Inv(env, s) && CandidateFails(env, s, step) && !step.Dispatch?
    ensures var r := s.live[step.id];
            && r.permit && RequestOk(env.config, r) && step.id in Holders(s.live, r.generation)
            && r.generation < |s.generations| && s.generations[r.generation].candidate.Some?
  {
    var r := s.live[step.id];
    assert RequestOk(env.config, r);
    assert RuntimeOk(env.config, s.live, r.generation, s.generations[r.generation]);
  }

  /** However a candidate fails a request, the fuse of the generation the request pinned is open after that
      step; unless a response was already being relayed, the permit is back and both are logged before the
      baseline is tried. */
  lemma CandidateFailureOpensTheFuse(env: Env, past: seq<Step>, step: Step)
    requires CandidateFails(env, Run(env, Start(env.config), past), step)
    ensures var s := Run(env, Start(env.config), past);
            var g, t := s.live[step.id].generation, Next(env, s, step);
            && !Healthy(t, g) && (step.Dispatch? || step.id in Holders(s.live, g))
            && (!step.Poll? ==>
                  && Holders(t.live, g) == Holders(s.live, g) - {step.id}
                  && s.live[step.id].log + [FuseOpened(g), CandidatePermitReleased(g)] <= LogOf(t, step.id))
  {
    Reachable(env, past);
    var s := Run(env, Start(env.config), past);
    if step.Dispatch? {
      UnsendableCandidateReleases(env, s, step.id);
    } else {
      FailingRequestHolds(env, s, step);
      if step.Answer? {
        UnfitAnswerReleases(env, s, step.id, step.answer);
      }
    }
  }

  /** Sending to a candidate that cannot be sent to is a fallback. */
  lemma UnsendableFallsBack(env: Env, s: State, id: nat)
    requires Inv(env, s) && Unsendable(env, s, id)
    ensures var r := s.live[id];
            var outcome := Started(env.config, s.generations[r.generation], r);
            && outcome.fuse && !outcome.request.permit && outcome.request.generation == r.generation
            && FallbackEvents(r) <= outcome.request.log
  {
    var r := s.live[id];
    var input := r.phase.input;
    var routed := Routed(env.config, Candidate, r.generation, r, input);
    FallBackLogs(env.config, routed, input.baselineUrlValid, input.fallbackAt, input.elapsed);
    assert Started(env.config, s.generations[r.generation], r)
        == FallBack(env.config, routed, input.baselineUrlValid, input.fallbackAt, input.elapsed);
    assert [] + FallbackEvents(routed) == FallbackEvents(r);
  }

  lemma UnsendableCandidateReleases(env: Env, s: State, id: nat)
    requires Inv(env, s) && Unsendable(env, s, id)
    ensures var g, t := s.live[id].generation, Next(env, s, Dispatch(id));
            && !Healthy(t, g) && Holders(t.live, g) == Holders(s.live, g) - {id}
            && s.live[id].log + [FuseOpened(g), CandidatePermitReleased(g)] <= LogOf(t, id)
  {
    var r := s.live[id];
    assert RequestOk(env.config, r) && r.log == [];
    UnsendableFallsBack(env, s, id);
    assert r.log + FallbackEvents(r) == FallbackEvents(r);
    HoldersAfterUpdate(s.live, id, Started(env.config, s.generations[r.generation], r).request, r.generation);
  }

  lemma UnfitAnswerReleases(env: Env, s: State, id: nat, answer: AnswerInput)
    requires Inv(env, s) && id in s.live && UnfitAnswer(s.live[id], answer)
    requires s.live[id].permit && s.live[id].generation < |s.generations|
    ensures var r, t := s.live[id], Next(env, s, Answer(id, answer));
            && Holders(t.live, r.generation) == Holders(s.live, r.generation) - {id}
            && r.log + [FuseOpened(r.generation), CandidatePermitReleased(r.generation)] <= LogOf(t, id)
  {
    var r := s.live[id];
    HoldersAfterUpdate(s.live, id, Answered(env.config, r, answer).request, r.generation);
  }

  /** Putting a request back touches one generation, and not even that if the request gave and took nothing. */
  lemma PutTouchesOne(s: State, id: nat, pinned: nat, outcome: Outcome, g: nat)
    requires id in s.live && pinned < |s.generations| && g < |s.generations|
    requires g != pinned || (outcome.request.permit == s.live[id].permit && !outcome.fuse)
    ensures Put(s, id, pinned, outcome).generations[g] == s.generations[g]
  {
  }

  predicate UsesCandidate(step: Step) {
    step.Dispatch? || step.Answer? || step.Poll? || step.Leave?
  }

  /** A generation installed once changes only by steps that send for, answer, relay or drop a request that
      pinned it; reading a body, pinning, sampling and polling the live route leave all of them as they are. */
  lemma OnlyThePinnedGenerationChanges(env: Env, past: seq<Step>, step: Step, g: nat)
    requires var s := Run(env, Start(env.config), past);
             && g < |s.generations|
             && (UsesCandidate(step) && step.id in s.live ==> g != s.live[step.id].generation)
    ensures var s := Run(env, Start(env.config), past);
            var t := Next(env, s, step);
            g < |t.generations| && t.generations[g] == s.generations[g]
  {
    Reachable(env, past);
    NoOtherGenerationChanges(env, Run(env, Start(env.config), past), step, g);
  }

  lemma NoOtherGenerationChanges(env: Env, s: State, step: Step, g: nat)
    requires Inv(env, s) && g < |s.generations|
    requires UsesCandidate(step) && step.id in s.live ==> g != s.live[step.id].generation
    ensures g < |Next(env, s, step).generations| && Next(env, s, step).generations[g] == s.generations[g]
  {
    if (step.FinishBody? || step.SampleHealth? || step.BufferBody?) && step.id in s.live {
      var r := s.live[step.id];
      LiveIsOk(env, s, step.id);
      if step.FinishBody? && r.phase.ReadingBody? {
        PutTouchesOne(s, step.id, Current(s), Outcome(PinnedTo(Current(s), r, step.body), false), g);
      } else if step.SampleHealth? && r.phase.Choosing? {
        var sampled := HealthSampled(env.world, s.generations[r.generation], r);
        PutTouchesOne(s, step.id, r.generation, Outcome(sampled, false), g);
      } else if step.BufferBody? && r.phase.ReadingBody? {
        PutTouchesOne(s, step.id, r.generation, Outcome(MoreBody(env.config, r, step.bytes), false), g);
      }
    }
  }

  // ---------------------------------------------------------------- the poller

  function Loaded(env: Env, live: LiveRoute, wallNow: int, monotonicNow: int): Result<RoutePolicy, RouteError> {
    FromSignedBytes(env.world, env.config.route, env.scope, env.secretHex, env.apiKey, env.config.maxInFlight, wallNow,
                    monotonicNow, live.manifest, live.signature)
  }

  /** The runtime of a policy as it starts: all its permits free, and healthy. */
  predicate StartsFresh(env: Env, runtime: RouteRuntime) {
    && (runtime.policy.state.Active? <==> runtime.candidate.Some?)
    && (runtime.candidate.Some? ==>
          var permits := env.config.route.candidateMaxInFlight;
          runtime.candidate == Some(CandidateTransport(permits, permits, true)))
  }

  /** A poll installs a runtime exactly if the live route is another revision than the one in force, its
      publication can be loaded, and it names the digest of that very manifest. What it installs is that policy
      with a fresh transport. */
  lemma RefreshedExactly(env: Env, current: RouteRuntime, loaded: Option<LiveRoute>, wallNow: int, monotonicNow: int)
    ensures var installed := RefreshLiveRoute(env, current, loaded, wallNow, monotonicNow);
            && (installed.Some? <==>
                  && loaded.Some? && current.policy.revision != Hex(loaded.value.routeRevision)
                  && Loaded(env, loaded.value, wallNow, monotonicNow).Ok?
                  && loaded.value.routeRevision == env.world.sha256(loaded.value.manifest))
            && (installed.Some? ==>
                  && installed.value.policy == Loaded(env, loaded.value, wallNow, monotonicNow).value
                  && installed.value.policy.revision == Hex(loaded.value.routeRevision)
                  && StartsFresh(env, installed.value))
  {
    if loaded.Some? {
      var live := loaded.value;
      var policy := Loaded(env, live, wallNow, monotonicNow);
      if policy.Ok? {
        ActiveExactly(env.world, env.config.route, env.scope, env.secretHex, env.apiKey, env.config.maxInFlight,
                      wallNow, monotonicNow, live.manifest, live.signature, policy.value);
        DigestTextRoundTrip(Hex(live.routeRevision), env.world.sha256(live.manifest));
        DigestTextRoundTrip(Hex(live.routeRevision), live.routeRevision);
      }
    }
  }

  /** A refresh either changes nothing at all, or appends one fresh runtime; no earlier runtime or fuse is
      touched. It appends one exactly if the live pointer names a signed manifest by its digest, that manifest
      can be loaded, and it is not the one in force. */
  lemma RefreshOnlyAppends(env: Env, past: seq<Step>, loaded: Option<LiveRoute>, wallNow: int, monotonicNow: int)
    ensures var s := Run(env, Start(env.config), past);
            var t := Next(env, s, Refresh(loaded, wallNow, monotonicNow));
            && s.generations != []
            && t == s.(generations := t.generations)
            && (t != s <==>
                  && loaded.Some? && s.generations[Current(s)].policy.revision != Hex(loaded.value.routeRevision)
                  && Loaded(env, loaded.value, wallNow, monotonicNow).Ok?
                  && loaded.value.routeRevision == env.world.sha256(loaded.value.manifest))
            && (t != s ==>
                  && |t.generations| == |s.generations| + 1 && s.generations <= t.generations
                  && Signed(env.world, env.config.route, loaded.value.manifest, loaded.value.signature)
                  && t.generations[Current(t)].policy == Loaded(env, loaded.value, wallNow, monotonicNow).value
                  && t.generations[Current(t)].policy.revision == Hex(loaded.value.routeRevision)
                  && StartsFresh(env, t.generations[Current(t)]))
  {
    Reachable(env, past);
    var s := Run(env, Start(env.config), past);
    RefreshedExactly(env, s.generations[Current(s)], loaded, wallNow, monotonicNow);
    if loaded.Some? && Loaded(env, loaded.value, wallNow, monotonicNow).Ok? {
      ActiveExactly(env.world, env.config.route, env.scope, env.secretHex, env.apiKey, env.config.maxInFlight, wallNow,
                    monotonicNow, loaded.value.manifest, loaded.value.signature,
                    Loaded(env, loaded.value, wallNow, monotonicNow).value);
    }
  }

  /** From a proposal to live traffic. A candidate route that was prepared, signed and published under its own
      digest is in force after the next poll before it expires, in whatever state the gateway is: active, healthy,
      with all its permits free, for the proposal's candidate at the proposal's share. */
  lemma PreparedRouteGoesLive(env: Env, past: seq<Step>, proposalBytes: Text, previous: Option<RoutePublication>,
                              now: int, signature: Text, wallNow: int, monotonicNow: int)
    requires Lawful(env.world) && 0 < env.config.route.candidateMaxInFlight < env.config.maxInFlight
    requires Prepare(env.world, env.config.route, env.scope, proposalBytes, env.secretHex, env.apiKey, previous, now,
                     false).Ok?
    requires ParseProposal(env.world, env.config.route, env.scope, proposalBytes).value.candidateBasisPoints != 0
    requires var (bytes, publication) := Prepare(env.world, env.config.route, env.scope, proposalBytes, env.secretHex,
                                                 env.apiKey, previous, now, false).value;
             Signed(env.world, env.config.route, bytes, signature) && now <= wallNow < publication.notAfter
    ensures var (bytes, publication) := Prepare(env.world, env.config.route, env.scope, proposalBytes, env.secretHex,
                                                env.apiKey, previous, now, false).value;
            var proposal := ParseProposal(env.world, env.config.route, env.scope, proposalBytes).value;
            var s := Run(env, Start(env.config), past);
            var live := LiveRoute(publication.revision, bytes, signature);
            var t := Next(env, s, Refresh(Some(live), wallNow, monotonicNow));
            s.generations != [] && s.generations[Current(s)].policy.revision != Hex(publication.revision) ==>
              && Healthy(t, Current(t)) && StartsFresh(env, t.generations[Current(t)])
              && (var route := t.generations[Current(t)].policy.state.route;
                  && CopiesProposal(env.world, proposal, env.apiKey, route.candidate)
                  && route.manifest.candidateBasisPoints == proposal.candidateBasisPoints)
  {
    var (bytes, publication) := Prepare(env.world, env.config.route, env.scope, proposalBytes, env.secretHex,
                                        env.apiKey, previous, now, false).value;
    var policy := PreparedRouteLoads(env.world, env.config.route, env.scope, proposalBytes, env.secretHex, env.apiKey,
                                     previous, now, signature, env.config.maxInFlight, wallNow, monotonicNow);
    DigestTextRoundTrip(Hex(publication.revision), publication.revision);
    DigestTextRoundTrip(Hex(publication.revision), env.world.sha256(bytes));
    RefreshOnlyAppends(env, past, Some(LiveRoute(publication.revision, bytes, signature)), wallNow, monotonicNow);
  }

  /** A poll that cannot install anything: nothing was loaded, the revision is the one in force, the
      publication does not verify or is another revision's, or no runtime can be built for it. */
  predicate IdlePoll(env: Env, s: State, step: Step) {
    step.Refresh? && s.generations != []
    && (step.loaded.None?
        || (var live, current := step.loaded.value, s.generations[Current(s)];
            var policy := Loaded(env, live, step.wallNow, step.monotonicNow);
            || current.policy.revision == Hex(live.routeRevision)
            || policy.Err? || policy.value.revision != Hex(live.routeRevision)
            || BuildRouteRuntime(env.world, policy.value, env.apiKey).Err?))
  }

  /** A run with every poll left out that was idle at its place in it. */
  function WithoutIdlePolls(env: Env, s: State, steps: seq<Step>): seq<Step> {
    if steps == [] then []
    else
      var before, last := steps[..|steps| - 1], steps[|steps| - 1];
      WithoutIdlePolls(env, s, before) + if IdlePoll(env, Run(env, s, before), last) then [] else [last]
  }

  /** A poller that fails or finds nothing new is invisible: leaving its polls out of any interleaving with
      requests, cancellations and other polls changes nothing, neither a runtime nor a fuse nor a request. */
  lemma {:induction false} IdlePollsAreInvisible(env: Env, s: State, steps: seq<Step>)
    ensures Run(env, s, WithoutIdlePolls(env, s, steps)) == Run(env, s, steps)
  {
    if steps != [] {
      var before, last := steps[..|steps| - 1], steps[|steps| - 1];
      var kept := WithoutIdlePolls(env, s, before);
      IdlePollsAreInvisible(env, s, before);
      if IdlePoll(env, Run(env, s, before), last) {
        assert kept + [] == kept;
      } else {
        assert (kept + [last])[..|kept|] == kept;
      }
    }
  }
}
