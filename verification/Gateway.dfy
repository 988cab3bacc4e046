/** The gateway as a transition system: requests that pin a route generation and hold permits, cancelled
    at any await, interleaved with a poller that swaps generations. A step is one await-to-await segment, but
    the segment that chooses a target is cut once more at every place where it touches what the threads of the
    server share: the runtime in force, the health flag and the permits. A step that does not apply changes
    nothing, so every sequence of steps is a run. */
module Gateway {
  import opened Common
  import opened HexCodec
  import opened LivePointer
  import opened TraceRecording
  import opened ResponseStream
  import opened RouteManifest
  import opened RoutePolicy
  import opened Admission
  import opened ProxyRequest

  datatype Env = Env(
    config: GatewayConfig,
    world: World,
    scope: RouteScope,
    secretHex: Option<Text>,
    apiKey: Option<Text>)

  /** `generations` are the route runtimes installed so far; the last is current, and the earlier ones
      live on while requests pin them. */
  datatype State = State(
    gatewayFree: nat,
    generations: seq<RouteRuntime>,
    live: map<nat, Request>,
    done: map<nat, Request>,
    outcomes: OutcomePool)

  /** The outcome endpoint's own permits, and the body bytes each holder has buffered. */
  datatype OutcomePool = OutcomePool(free: nat, held: map<nat, nat>)

  datatype LiveRoute = LiveRoute(routeRevision: Digest, manifest: Text, signature: Text)

  datatype Step =
    | Arrive(id: nat, endpoint: RouteEndpoint)
    | BufferBody(id: nat, bytes: nat)
    | FinishBody(id: nat, body: BodyInput)
    | SampleHealth(id: nat)
    | Dispatch(id: nat)
    | Answer(id: nat, answer: AnswerInput)
    | Poll(id: nat, event: StreamEvent)
    | Leave(id: nat, elapsed: nat)
    | Refresh(loaded: Option<LiveRoute>, wallNow: int, monotonicNow: int)
    | OutcomeArrive(id: nat)
    | OutcomeBuffer(id: nat, bytes: nat)
    | OutcomeLeave(id: nat)

  function Start(config: GatewayConfig): State {
    State(config.maxInFlight, [RouteRuntime(BaselinePolicy(), None)], map[], map[],
          OutcomePool(config.maxOutcomesInFlight, map[]))
  }

  // ---------------------------------------------------------------- route refresh

  function BuildRouteRuntime(world: World, policy: RoutePolicy, apiKey: Option<Text>)
    : Result<RouteRuntime, RouteError>
  {
    match policy.state
    case Dormant(_) => Ok(RouteRuntime(policy, None))
    case Active(route) =>
      var key :- Required(apiKey, CredentialMissing);
      var admitted :- Required(HexToDigest(route.candidate.candidateApiKeySha256), InvalidHex);
      var _ :- Need(world.sha256(key) == admitted, CredentialMismatch);
      Ok(RouteRuntime(policy, Some(CandidateTransport(route.maxInFlight, route.maxInFlight, true))))
  }

  /** A runtime is built for a policy that is dormant, or whose admitted key is the configured one. */
  lemma BuiltExactly(world: World, policy: RoutePolicy, apiKey: Option<Text>)
    ensures BuildRouteRuntime(world, policy, apiKey).Ok? <==>
            (policy.state.Active? ==>
               apiKey.Some?
               && policy.state.route.candidate.candidateApiKeySha256 == Hex(world.sha256(apiKey.value)))
  {
    if policy.state.Active? && apiKey.Some? {
      DigestTextRoundTrip(policy.state.route.candidate.candidateApiKeySha256, world.sha256(apiKey.value));
    }
  }

  /** The runtime a poll of the live route installs, or nothing if it found nothing new or failed. A load
      that fails and a load that finds no published route both leave `loaded` empty. */
  function RefreshLiveRoute(env: Env, current: RouteRuntime, loaded: Option<LiveRoute>, wallNow: int,
                            monotonicNow: int): Option<RouteRuntime>
  {
    var live :- loaded;
    var revision := Hex(live.routeRevision);
    if current.policy.revision == revision then None
    else
      var policy := FromSignedBytes(env.world, env.config.route, env.scope, env.secretHex, env.apiKey,
                                    env.config.maxInFlight, wallNow, monotonicNow, live.manifest, live.signature);
      if policy.Err? || policy.value.revision != revision then None
      else
        var built := BuildRouteRuntime(env.world, policy.value, env.apiKey);
        if built.Err? then None else Some(built.value)
  }

  // ---------------------------------------------------------------- steps

  /** A runtime after a request that held a permit or not holds one or not. */
  function Settled(runtime: RouteRuntime, before: bool, after: bool, fuse: bool): RouteRuntime {
    if runtime.candidate.None? then runtime
    else
      var c := runtime.candidate.value;
      var free := if before == after then c.free
                  else if before then c.free + 1
                  else if c.free > 0 then c.free - 1 else 0;
      runtime.(candidate := Some(c.(free := free, healthy := c.healthy && !fuse)))
  }

  function Put(s: State, id: nat, generation: nat, outcome: Outcome): State
    requires id in s.live && generation < |s.generations|
  {
    var after := outcome.request;
    var settled := Settled(s.generations[generation], s.live[id].permit, after.permit, outcome.fuse);
    var t := s.(generations := s.generations[generation := settled]);
    if after.phase.Over? then
      t.(live := s.live - {id}, done := s.done[id := after], gatewayFree := s.gatewayFree + 1)
    else t.(live := s.live[id := after])
  }

  /** More of the body arrived; a body over the limit ends the request. */
  function MoreBody(config: GatewayConfig, r: Request, bytes: nat): Request
    requires r.phase.ReadingBody?
  {
    if r.phase.buffered + bytes <= config.maxRequestBytes then r.(phase := ReadingBody(r.phase.buffered + bytes))
    else Left(r, 0)
  }

  function Current(s: State): nat
    requires s.generations != []
  {
    |s.generations| - 1
  }

  /** What the policy is asked about is the request at hand. */
  predicate Describes(input: BodyInput, endpoint: RouteEndpoint) {
    input.request.endpoint == endpoint && input.request.bodyLength == |input.body|
  }

  predicate Pinned(s: State, id: nat) {
    id in s.live && s.live[id].generation < |s.generations|
  }

  function Next(env: Env, s: State, step: Step): State {
    match step
    case Arrive(id, endpoint) =>
      if id in s.live || id in s.done || s.gatewayFree == 0 then s
      else s.(live := s.live[id := Opened(endpoint)], gatewayFree := s.gatewayFree - 1)
    case BufferBody(id, bytes) =>
      if !Pinned(s, id) || !s.live[id].phase.ReadingBody? then s
      else
        Put(s, id, s.live[id].generation, Outcome(MoreBody(env.config, s.live[id], bytes), false))
    case FinishBody(id, body) =>
      if id !in s.live || !s.live[id].phase.ReadingBody? || s.generations == []
         || |body.body| > env.config.maxRequestBytes || !Describes(body, s.live[id].endpoint)
      then s
      else
        var g := Current(s);
        Put(s, id, g, Outcome(PinnedTo(g, s.live[id], body), false))
    case SampleHealth(id) =>
      if !Pinned(s, id) || !s.live[id].phase.Choosing? || s.live[id].phase.sampled.Some? then s
      else
        var r := s.live[id];
        Put(s, id, r.generation, Outcome(HealthSampled(env.world, s.generations[r.generation], r), false))
    case Dispatch(id) =>
      if !Pinned(s, id) || !s.live[id].phase.Choosing? || s.live[id].phase.sampled.None? then s
      else Put(s, id, s.live[id].generation, Started(env.config, s.generations[s.live[id].generation], s.live[id]))
    case Answer(id, answer) =>
      if !Pinned(s, id) || !s.live[id].phase.Awaiting? then s
      else Put(s, id, s.live[id].generation, Answered(env.config, s.live[id], answer))
    case Poll(id, event) =>
      if !Pinned(s, id) || !s.live[id].phase.Streaming? || event.Dropped? then s
      else Put(s, id, s.live[id].generation, Polled(s.live[id], event))
    case Leave(id, elapsed) =>
      if !Pinned(s, id) || s.live[id].phase.Choosing? then s
      else Put(s, id, s.live[id].generation, Outcome(Left(s.live[id], elapsed), false))
    case Refresh(loaded, wallNow, monotonicNow) =>
      if s.generations == [] then s
      else
        var installed := RefreshLiveRoute(env, s.generations[Current(s)], loaded, wallNow, monotonicNow);
        if installed.None? then s else s.(generations := s.generations + [installed.value])
    case _ => s.(outcomes := OutcomeNext(env.config, s.outcomes, step))
  }

  predicate OutcomeStep(step: Step) {
    step.OutcomeArrive? || step.OutcomeBuffer? || step.OutcomeLeave?
  }

  function OutcomeNext(config: GatewayConfig, pool: OutcomePool, step: Step): OutcomePool
    requires OutcomeStep(step)
  {
    match step
    case OutcomeArrive(id) =>
      if id in pool.held || pool.free == 0 then pool else OutcomePool(pool.free - 1, pool.held[id := 0])
    case OutcomeBuffer(id, bytes) =>
      if id !in pool.held then pool
      else if pool.held[id] + bytes <= config.captureRecordBytes then
        pool.(held := pool.held[id := pool.held[id] + bytes])
      else OutcomePool(pool.free + 1, pool.held - {id})
    case OutcomeLeave(id) =>
      if id !in pool.held then pool else OutcomePool(pool.free + 1, pool.held - {id})
  }

  function Run(env: Env, s: State, steps: seq<Step>): State {
    if steps == [] then s else Next(env, Run(env, s, steps[..|steps| - 1]), steps[|steps| - 1])
  }

  // ---------------------------------------------------------------- the invariant

  ghost function Holders(live: map<nat, Request>, generation: nat): set<nat> {
    set id | id in live && live[id].permit && live[id].generation == generation
  }

  ghost predicate RuntimeOk(config: GatewayConfig, live: map<nat, Request>, generation: nat, runtime: RouteRuntime) {
    && (runtime.policy.state.Active? <==> runtime.candidate.Some?)
    && (runtime.candidate.None? ==> Holders(live, generation) == {})
    && (runtime.candidate.Some? ==>
          var c := runtime.candidate.value;
          && 0 < c.capacity == config.route.candidateMaxInFlight < config.maxInFlight
          && c.free + |Holders(live, generation)| == c.capacity)
  }

  ghost predicate RuntimesOk(config: GatewayConfig, live: map<nat, Request>, generations: seq<RouteRuntime>) {
    && generations != []
    && (forall g :: 0 <= g < |generations| ==> RuntimeOk(config, live, g, generations[g]))
  }

  ghost predicate RequestsOk(config: GatewayConfig, live: map<nat, Request>, done: map<nat, Request>, count: nat) {
    && (forall id :: id in live ==>
          RequestOk(config, live[id]) && !live[id].phase.Over? && live[id].generation < count)
    && (forall id :: id in done ==> RequestOk(config, done[id]) && done[id].phase.Over?)
    && live.Keys !! done.Keys
  }

  ghost predicate OutcomesOk(config: GatewayConfig, pool: OutcomePool) {
    && pool.free + |pool.held| == config.maxOutcomesInFlight
    && (forall id :: id in pool.held ==> pool.held[id] <= config.captureRecordBytes)
  }

  ghost predicate Inv(env: Env, s: State) {
    && s.gatewayFree + |s.live| == env.config.maxInFlight
    && RuntimesOk(env.config, s.live, s.generations)
    && RequestsOk(env.config, s.live, s.done, |s.generations|)
    && OutcomesOk(env.config, s.outcomes)
  }

  lemma LiveIsOk(env: Env, s: State, id: nat)
    requires Inv(env, s) && id in s.live
    ensures RequestOk(env.config, s.live[id]) && s.live[id].generation < |s.generations|
  {
  }

  lemma HoldersAfterUpdate(live: map<nat, Request>, id: nat, r: Request, g: nat)
    requires id in live && r.generation == g && (live[id].permit ==> live[id].generation == g)
    ensures Holders(live[id := r], g) == if r.permit then Holders(live, g) + {id} else Holders(live, g) - {id}
    ensures Holders(live - {id}, g) == Holders(live, g) - {id}
    ensures id in Holders(live, g) <==> live[id].permit
    ensures forall h: nat :: h != g ==> Holders(live[id := r], h) == Holders(live, h) == Holders(live - {id}, h)
  {
  }

  lemma RemoveOne<T>(m: map<nat, T>, id: nat)
    requires id in m
    ensures |m - {id}| == |m| - 1
  {
  }

  predicate Settles(s: State, id: nat, g: nat, outcome: Outcome)
    requires id in s.live && g < |s.generations|
  {
    && outcome.request.generation == g
    && (outcome.request.phase.Over? ==> !outcome.request.permit)
    && (s.live[id].permit ==> s.live[id].generation == g)
    && (outcome.request.permit && !s.live[id].permit ==>
          s.generations[g].candidate.Some? && s.generations[g].candidate.value.free > 0)
  }

  lemma PutKeepsRuntimes(env: Env, s: State, id: nat, g: nat, outcome: Outcome)
    requires RuntimesOk(env.config, s.live, s.generations) && id in s.live && g < |s.generations|
    requires Settles(s, id, g, outcome)
    ensures var t := Put(s, id, g, outcome); RuntimesOk(env.config, t.live, t.generations)
  {
    var t := Put(s, id, g, outcome);
    HoldersAfterUpdate(s.live, id, outcome.request, g);
    forall h | 0 <= h < |t.generations|
      ensures RuntimeOk(env.config, t.live, h, t.generations[h])
    {
      assert RuntimeOk(env.config, s.live, h, s.generations[h]);
    }
  }

  lemma PutKeepsRequests(env: Env, s: State, id: nat, g: nat, outcome: Outcome)
    requires RequestsOk(env.config, s.live, s.done, |s.generations|) && id in s.live && g < |s.generations|
    requires RequestOk(env.config, outcome.request) && outcome.request.generation == g
    ensures var t := Put(s, id, g, outcome); RequestsOk(env.config, t.live, t.done, |t.generations|)
  {
  }

  lemma PutKeepsInv(env: Env, s: State, id: nat, g: nat, outcome: Outcome)
    requires Inv(env, s) && id in s.live && g < |s.generations|
    requires RequestOk(env.config, outcome.request) && Settles(s, id, g, outcome)
    ensures Inv(env, Put(s, id, g, outcome))
  {
    PutKeepsRuntimes(env, s, id, g, outcome);
    PutKeepsRequests(env, s, id, g, outcome);
    RemoveOne(s.live, id);
  }

  lemma StartKeepsInv(env: Env)
    ensures Inv(env, Start(env.config))
  {
  }

  lemma ArriveKeepsInv(env: Env, s: State, id: nat, endpoint: RouteEndpoint)
    requires Inv(env, s) && id !in s.live && id !in s.done && s.gatewayFree > 0
    ensures Inv(env, Next(env, s, Arrive(id, endpoint)))
  {
    var t := Next(env, s, Arrive(id, endpoint));
    forall g | 0 <= g < |t.generations|
      ensures RuntimeOk(env.config, t.live, g, t.generations[g])
    {
      assert Holders(t.live, g) == Holders(s.live, g);
      assert RuntimeOk(env.config, s.live, g, s.generations[g]);
    }
  }

  lemma RefreshedRuntimeOk(env: Env, live: map<nat, Request>, g: nat, current: RouteRuntime, loaded: Option<LiveRoute>,
                           wallNow: int, monotonicNow: int)
    requires Holders(live, g) == {}
    requires RefreshLiveRoute(env, current, loaded, wallNow, monotonicNow).Some?
    ensures RuntimeOk(env.config, live, g, RefreshLiveRoute(env, current, loaded, wallNow, monotonicNow).value)
  {
    var published := loaded.value;
    var policy := FromSignedBytes(env.world, env.config.route, env.scope, env.secretHex, env.apiKey,
                                  env.config.maxInFlight, wallNow, monotonicNow, published.manifest,
                                  published.signature);
    ActiveExactly(env.world, env.config.route, env.scope, env.secretHex, env.apiKey, env.config.maxInFlight,
                  wallNow, monotonicNow, published.manifest, published.signature, policy.value);
  }

  lemma RefreshKeepsInv(env: Env, s: State, loaded: Option<LiveRoute>, wallNow: int, monotonicNow: int)
    requires Inv(env, s)
    ensures Inv(env, Next(env, s, Refresh(loaded, wallNow, monotonicNow)))
  {
    var installed := RefreshLiveRoute(env, s.generations[Current(s)], loaded, wallNow, monotonicNow);
    if installed.Some? {
      var g := |s.generations|;
      assert Holders(s.live, g) == {};
      RefreshedRuntimeOk(env, s.live, g, s.generations[Current(s)], loaded, wallNow, monotonicNow);
    }
  }

  lemma OutcomeNextOk(config: GatewayConfig, pool: OutcomePool, step: Step)
    requires OutcomesOk(config, pool) && OutcomeStep(step)
    ensures OutcomesOk(config, OutcomeNext(config, pool, step))
  {
  }

  lemma BufferKeepsInv(env: Env, s: State, id: nat, bytes: nat)
    requires Inv(env, s)
    ensures Inv(env, Next(env, s, BufferBody(id, bytes)))
  {
    if Pinned(s, id) && s.live[id].phase.ReadingBody? {
      var r := s.live[id];
      LeftOk(env.config, r, 0);
      PutKeepsInv(env, s, id, r.generation, Outcome(MoreBody(env.config, r, bytes), false));
    }
  }

  lemma FinishKeepsInv(env: Env, s: State, id: nat, body: BodyInput)
    requires Inv(env, s)
    ensures Inv(env, Next(env, s, FinishBody(id, body)))
  {
    if id in s.live && s.live[id].phase.ReadingBody? && |body.body| <= env.config.maxRequestBytes {
      assert RequestOk(env.config, s.live[id]) && !s.live[id].permit;
      PutKeepsInv(env, s, id, Current(s), Outcome(PinnedTo(Current(s), s.live[id], body), false));
    }
  }

  lemma SampleKeepsInv(env: Env, s: State, id: nat)
    requires Inv(env, s)
    ensures Inv(env, Next(env, s, SampleHealth(id)))
  {
    if Pinned(s, id) && s.live[id].phase.Choosing? && s.live[id].phase.sampled.None? {
      var r := s.live[id];
      assert RequestOk(env.config, r);
      PutKeepsInv(env, s, id, r.generation, Outcome(HealthSampled(env.world, s.generations[r.generation], r), false));
    }
  }

  lemma DispatchKeepsInv(env: Env, s: State, id: nat)
    requires Inv(env, s)
    ensures Inv(env, Next(env, s, Dispatch(id)))
  {
    if Pinned(s, id) && s.live[id].phase.Choosing? && s.live[id].phase.sampled.Some? {
      var r := s.live[id];
      assert RequestOk(env.config, r) && !r.permit;
      StartedOk(env.config, s.generations[r.generation], r);
      PutKeepsInv(env, s, id, r.generation, Started(env.config, s.generations[r.generation], r));
    }
  }

  lemma RequestStepKeepsInv(env: Env, s: State, step: Step)
    requires Inv(env, s) && (step.Answer? || step.Poll? || step.Leave?)
    ensures Inv(env, Next(env, s, step))
  {
    if Pinned(s, step.id) {
      var r := s.live[step.id];
      if step.Answer? && r.phase.Awaiting? {
        AnsweredOk(env.config, r, step.answer);
        PutKeepsInv(env, s, step.id, r.generation, Answered(env.config, r, step.answer));
      } else if step.Poll? && r.phase.Streaming? {
        PolledOk(env.config, r, step.event);
        PutKeepsInv(env, s, step.id, r.generation, Polled(r, step.event));
      } else if step.Leave? && !r.phase.Choosing? {
        LeftOk(env.config, r, step.elapsed);
        PutKeepsInv(env, s, step.id, r.generation, Outcome(Left(r, step.elapsed), false));
      }
    }
  }

  lemma StepKeepsInv(env: Env, s: State, step: Step)
    requires Inv(env, s)
    ensures Inv(env, Next(env, s, step))
  {
    match step
    case Arrive(id, endpoint) =>
      if id !in s.live && id !in s.done && s.gatewayFree > 0 {
        ArriveKeepsInv(env, s, id, endpoint);
      }
    case Refresh(loaded, wallNow, monotonicNow) => RefreshKeepsInv(env, s, loaded, wallNow, monotonicNow);
    case BufferBody(id, bytes) => BufferKeepsInv(env, s, id, bytes);
    case FinishBody(id, body) => FinishKeepsInv(env, s, id, body);
    case SampleHealth(id) => SampleKeepsInv(env, s, id);
    case Dispatch(id) => DispatchKeepsInv(env, s, id);
    case OutcomeArrive(_) => OutcomeNextOk(env.config, s.outcomes, step);
    case OutcomeBuffer(_, _) => OutcomeNextOk(env.config, s.outcomes, step);
    case OutcomeLeave(_) => OutcomeNextOk(env.config, s.outcomes, step);
    case _ => RequestStepKeepsInv(env, s, step);
  }

  lemma {:induction false} RunKeepsInv(env: Env, s: State, steps: seq<Step>)
    requires Inv(env, s)
    ensures Inv(env, Run(env, s, steps))
  {
    if steps != [] {
      RunKeepsInv(env, s, steps[..|steps| - 1]);
      StepKeepsInv(env, Run(env, s, steps[..|steps| - 1]), steps[|steps| - 1]);
    }
  }
}
