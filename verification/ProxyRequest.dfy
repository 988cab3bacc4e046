/** One proxied request between its awaits: read the body, choose a target, send, perhaps fall back once
    to the baseline, and relay. Each function is the code from one await to the next. */
module ProxyRequest {
  import opened Common
  import opened TraceRecording
  import opened ResponseStream
  import opened RouteManifest
  import opened RoutePolicy
  import opened Admission

  datatype UpstreamResponse = UpstreamResponse(
    status: nat,
    candidateHeadersValid: bool,
    baselineHeadersValid: bool,
    eventStream: bool,
    headers: ContentHeaders)

  predicate Redirection(status: nat) {
    300 <= status < 400
  }

  predicate CandidateHealthFailure(status: nat) {
    status in {401, 403, 404, 408, 429} || 500 <= status < 600
  }

  predicate ValidStatus(status: nat) {
    100 <= status < 1000
  }

  predicate HeadersValid(target: RouteTarget, response: UpstreamResponse) {
    if target == Candidate then response.candidateHeadersValid else response.baselineHeadersValid
  }

  predicate RequiresFallback(response: UpstreamResponse) {
    Redirection(response.status) || CandidateHealthFailure(response.status) || !ValidStatus(response.status)
    || !response.candidateHeadersValid
  }

  /** The candidate half of a route in force: its permits and its health flag. */
  datatype CandidateTransport = CandidateTransport(capacity: nat, free: nat, healthy: bool)

  datatype RouteRuntime = RouteRuntime(policy: RoutePolicy, candidate: Option<CandidateTransport>)

  /** What a request did, in order. */
  datatype Event =
    | CandidateSent(generation: nat, body: seq<Byte>, deadline: int)
    | FuseOpened(generation: nat)
    | CandidatePermitReleased(generation: nat)
    | BaselineSent(body: seq<Byte>, deadline: int)
    | Relayed(target: RouteTarget, response: UpstreamResponse)

  datatype Phase =
    | ReadingBody(buffered: nat)
    | Choosing(input: BodyInput, sampled: Option<RouteTarget>)
    | Awaiting(target: RouteTarget)
    | Streaming(target: RouteTarget, stream: Option<StreamState>)
    | Over(handed: seq<Handoff>)

  datatype Request = Request(
    endpoint: RouteEndpoint,
    generation: nat,
    permit: bool,
    body: seq<Byte>,
    startedAt: int,
    catalog: Option<Catalog>,
    selected: bool,
    phase: Phase,
    log: seq<Event>)

  /** A request after one segment, and whether the segment opened the pinned candidate's fuse. */
  datatype Outcome = Outcome(request: Request, fuse: bool)

  /** What the segment that follows the body learns from its surroundings. */
  datatype BodyInput = BodyInput(
    request: RouteRequest,
    body: seq<Byte>,
    decidedAt: int,
    startedAt: int,
    sentAt: int,
    fallbackAt: int,
    elapsed: nat,
    catalog: Option<Catalog>,
    captureSelected: bool,
    baselineHeadersValid: bool,
    candidateHeadersValid: bool,
    candidateUrlValid: bool,
    baselineUrlValid: bool)

  /** What an upstream await returned, and what is sampled right after it. */
  datatype AnswerInput = AnswerInput(
    answer: Option<UpstreamResponse>,
    now: int,
    elapsed: nat,
    baselineUrlValid: bool,
    memoryBytes: nat)

  function Opened(endpoint: RouteEndpoint): Request {
    Request(endpoint, 0, false, [], 0, None, false, ReadingBody(0), [])
  }

  /** The decision, and then the health flag as it is when it is read. */
  function Sampled(world: World, runtime: RouteRuntime, input: BodyInput): RouteTarget {
    if Decide(world, runtime.policy, input.request, input.decidedAt).target == Candidate
       && runtime.candidate.Some? && runtime.candidate.value.healthy
    then Candidate else Baseline
  }

  /** A request for the candidate still needs one of its permits. */
  function Acquired(runtime: RouteRuntime, sampled: RouteTarget): RouteTarget {
    if sampled == Candidate && runtime.candidate.Some? && runtime.candidate.value.free > 0 then Candidate else Baseline
  }

  /** The target when nothing happens between the two. */
  function Chosen(world: World, runtime: RouteRuntime, input: BodyInput): RouteTarget {
    Acquired(runtime, Sampled(world, runtime, input))
  }

  /** Finish without response headers: one observation if there are records to hand it to. */
  function Ended(r: Request, code: string, elapsed: nat): Request {
    r.(permit := false,
       phase := Over(
         if r.catalog.None? then []
         else [Observation(r.catalog.value.(errorClass := Some(code), completionMs := Some(elapsed)), Interrupted)]))
  }

  function DeadlineAt(config: GatewayConfig, startedAt: int, now: int): Option<int> {
    if now - startedAt < config.totalTimeout then Some(now + (config.totalTimeout - (now - startedAt))) else None
  }

  function SendBaseline(config: GatewayConfig, r: Request, urlValid: bool, now: int, elapsed: nat): Request {
    var deadline := DeadlineAt(config, r.startedAt, now);
    if !urlValid || deadline.None? then Ended(r, "upstream_unavailable", elapsed)
    else r.(phase := Awaiting(Baseline), log := r.log + [BaselineSent(r.body, deadline.value)])
  }

  function FallBack(config: GatewayConfig, r: Request, urlValid: bool, now: int, elapsed: nat): Outcome {
    var released := r.(permit := false,
                       log := r.log + [FuseOpened(r.generation), CandidatePermitReleased(r.generation)]);
    Outcome(SendBaseline(config, released, urlValid, now, elapsed), true)
  }

  /** The body is read, and the generation now in force pinned. */
  function PinnedTo(generation: nat, r: Request, input: BodyInput): Request {
    r.(generation := generation, body := input.body, phase := Choosing(input, None))
  }

  function HealthSampled(world: World, runtime: RouteRuntime, r: Request): Request
    requires r.phase.Choosing?
  {
    r.(phase := Choosing(r.phase.input, Some(Sampled(world, runtime, r.phase.input))))
  }

  /** The request once its target is chosen, before anything is sent. */
  function Routed(config: GatewayConfig, target: RouteTarget, generation: nat, r: Request, input: BodyInput): Request {
    r.(generation := generation, permit := target == Candidate, body := input.body, startedAt := input.startedAt,
       catalog := input.catalog, selected := config.wholeBodyCapture && input.captureSelected && input.catalog.Some?,
       phase := Awaiting(target), log := [])
  }

  predicate HeadersForwardable(target: RouteTarget, input: BodyInput) {
    input.baselineHeadersValid && (target == Candidate ==> input.candidateHeadersValid)
  }

  /** The first send; a candidate that cannot even be sent to falls back at once. */
  function Dispatched(config: GatewayConfig, r: Request, target: RouteTarget, input: BodyInput): Outcome {
    if target == Baseline then
      Outcome(SendBaseline(config, r, input.baselineUrlValid, input.sentAt, input.elapsed), false)
    else
      var deadline := DeadlineAt(config, r.startedAt, input.sentAt);
      if input.candidateUrlValid && deadline.Some? then
        Outcome(r.(log := [CandidateSent(r.generation, r.body, deadline.value)]), false)
      else FallBack(config, r, input.baselineUrlValid, input.fallbackAt, input.elapsed)
  }

  /** Take a permit if the candidate was sampled healthy, and send. */
  function Started(config: GatewayConfig, runtime: RouteRuntime, r: Request): Outcome
    requires r.phase.Choosing? && r.phase.sampled.Some?
  {
    var input, target := r.phase.input, Acquired(runtime, r.phase.sampled.value);
    var routed := Routed(config, target, r.generation, r, input);
    if HeadersForwardable(target, input) then Dispatched(config, routed, target, input)
    else Outcome(Ended(routed, "invalid_request_headers", input.elapsed), false)
  }

  /** From the end of the body to the first upstream await, when nothing else happens meanwhile. */
  function BodyRead(config: GatewayConfig, world: World, runtime: RouteRuntime, generation: nat, r: Request,
                    input: BodyInput): Outcome
  {
    Started(config, runtime, HealthSampled(world, runtime, PinnedTo(generation, r, input)))
  }

  function Recorder(config: GatewayConfig, r: Request, response: UpstreamResponse, memoryBytes: nat)
    : Option<StreamState>
  {
    if r.catalog.None? then None
    else
      Some(StreamState(
        Recording(Some(config.captureRecordBytes),
                  Some(r.catalog.value.(memoryBytes := memoryBytes, responseBytes := 0)), None,
                  if r.selected then Some(r.body) else None, response.headers, [], 0,
                  config.captureResponseBytes, config.captureRecordBytes, r.selected, false,
                  if response.eventStream then Some(Markers(r.endpoint)) else None, false, [], 0),
        []))
  }

  function Relay(config: GatewayConfig, r: Request, target: RouteTarget, response: UpstreamResponse, memoryBytes: nat)
    : Request
  {
    r.(phase := Streaming(target, Recorder(config, r, response, memoryBytes)),
       log := r.log + [Relayed(target, response)])
  }

  /** Why an answer is not relayed, checked for either target in the same order. */
  function Refusal(target: RouteTarget, answer: Option<UpstreamResponse>): Option<string> {
    if answer.None? then Some(if target == Candidate then "candidate_unavailable" else "upstream_unavailable")
    else if Redirection(answer.value.status) then Some("upstream_redirect_rejected")
    else if !ValidStatus(answer.value.status) then Some("invalid_upstream_status")
    else if !HeadersValid(target, answer.value) then Some("invalid_upstream_headers")
    else None
  }

  /** The shared end of the function, written for either target: it still checks a candidate response for
      everything that would already have sent the request to the baseline. */
  function Conclude(config: GatewayConfig, r: Request, target: RouteTarget, input: AnswerInput): Outcome {
    var refusal := Refusal(target, input.answer);
    if refusal.Some? then Outcome(Ended(r, refusal.value, input.elapsed), target == Candidate)
    else
      Outcome(Relay(config, r, target, input.answer.value, input.memoryBytes),
              target == Candidate && CandidateHealthFailure(input.answer.value.status))
  }

  function Answered(config: GatewayConfig, r: Request, input: AnswerInput): Outcome
    requires r.phase.Awaiting?
  {
    if r.phase.target == Candidate && (input.answer.None? || RequiresFallback(input.answer.value)) then
      FallBack(config, r, input.baselineUrlValid, input.now, input.elapsed)
    else Conclude(config, r, r.phase.target, input)
  }

  function StreamErrorClass(target: RouteTarget): string {
    if target == Candidate then "candidate_stream_error" else "upstream_stream_error"
  }

  function Polled(r: Request, event: StreamEvent): Outcome
    requires r.phase.Streaming?
  {
    var stream := if r.phase.stream.None? then None
                  else Some(Stepped(r.phase.stream.value, event, StreamErrorClass(r.phase.target)));
    Outcome(r.(phase := Streaming(r.phase.target, stream)), r.phase.target == Candidate && event.Broke?)
  }

  /** The request future or its response body is dropped: every permit goes back. */
  function Left(r: Request, elapsed: nat): Request {
    var handed :=
      if r.phase.Over? then r.phase.handed
      else if r.phase.Streaming? && r.phase.stream.Some? then
        Stepped(r.phase.stream.value, Dropped(elapsed), StreamErrorClass(r.phase.target)).handed
      else [];
    r.(permit := false, phase := Over(handed))
  }

  // ---------------------------------------------------------------- what every request keeps

  function CandidateSend(config: GatewayConfig, r: Request): Event {
    CandidateSent(r.generation, r.body, r.startedAt + config.totalTimeout)
  }

  function BaselineSend(config: GatewayConfig, r: Request): Event {
    BaselineSent(r.body, r.startedAt + config.totalTimeout)
  }

  function FallbackEvents(r: Request): seq<Event> {
    [FuseOpened(r.generation), CandidatePermitReleased(r.generation)]
  }

  /** The three ways to come to a baseline send: directly, after a candidate send, or after a candidate
      that could not even be sent to. */
  predicate ReadyForBaseline(config: GatewayConfig, r: Request, log: seq<Event>) {
    log == [] || log == FallbackEvents(r) || log == [CandidateSend(config, r)] + FallbackEvents(r)
  }

  predicate BaselineLog(config: GatewayConfig, r: Request, log: seq<Event>) {
    log != [] && log[|log| - 1] == BaselineSend(config, r) && ReadyForBaseline(config, r, log[..|log| - 1])
  }

  predicate CandidateRelayLog(config: GatewayConfig, r: Request, log: seq<Event>) {
    |log| == 2 && log[0] == CandidateSend(config, r) && log[1].Relayed? && log[1].target == Candidate
    && !RequiresFallback(log[1].response)
  }

  predicate BaselineRelayLog(config: GatewayConfig, r: Request, log: seq<Event>) {
    log != [] && log[|log| - 1].Relayed? && log[|log| - 1].target == Baseline
    && BaselineLog(config, r, log[..|log| - 1])
  }

  predicate AnyLog(config: GatewayConfig, r: Request, log: seq<Event>) {
    ReadyForBaseline(config, r, log) || log == [CandidateSend(config, r)] || BaselineLog(config, r, log)
    || CandidateRelayLog(config, r, log) || BaselineRelayLog(config, r, log)
  }

  predicate StreamOk(config: GatewayConfig, r: Request, stream: StreamState) {
    && WithinLimits(stream.recording)
    && stream.recording.recordLimit == config.captureRecordBytes
    && stream.recording.responseLimit == config.captureResponseBytes
    && stream.recording.selected == r.selected
    && |stream.handed| <= 1 && (stream.recording.catalog.Some? ==> stream.handed == [])
  }

  predicate PhaseOk(config: GatewayConfig, r: Request) {
    match r.phase
    case ReadingBody(buffered) => buffered <= config.maxRequestBytes && r.log == [] && r.body == []
    case Choosing(input, _) => r.log == [] && r.body == input.body
    case Awaiting(target) =>
      if target == Candidate then r.log == [CandidateSend(config, r)] else BaselineLog(config, r, r.log)
    case Streaming(target, stream) =>
      && (if target == Candidate then CandidateRelayLog(config, r, r.log) else BaselineRelayLog(config, r, r.log))
      && (stream.Some? ==> StreamOk(config, r, stream.value))
    case Over(handed) => |handed| <= 1 && AnyLog(config, r, r.log)
  }

  /** A request holds a candidate permit exactly while the candidate is answering it. */
  predicate RequestOk(config: GatewayConfig, r: Request) {
    && PhaseOk(config, r)
    && (r.permit <==> (r.phase.Awaiting? || r.phase.Streaming?) && r.phase.target == Candidate)
    && |r.body| <= config.maxRequestBytes
    && (r.selected ==> config.wholeBodyCapture)
  }

  lemma SendBaselineOk(config: GatewayConfig, r: Request, urlValid: bool, now: int, elapsed: nat)
    requires ReadyForBaseline(config, r, r.log) && !r.permit
    requires |r.body| <= config.maxRequestBytes && (r.selected ==> config.wholeBodyCapture)
    ensures RequestOk(config, SendBaseline(config, r, urlValid, now, elapsed))
  {
  }

  /** A fallback adds two events to the log, and the baseline send if it comes to it. */
  lemma FallBackLogs(config: GatewayConfig, r: Request, urlValid: bool, now: int, elapsed: nat)
    ensures var outcome := FallBack(config, r, urlValid, now, elapsed);
            && outcome.fuse && !outcome.request.permit && outcome.request.generation == r.generation
            && (outcome.request.log == r.log + FallbackEvents(r)
                || outcome.request.log == r.log + FallbackEvents(r) + [BaselineSend(config, r)])
  {
  }

  lemma NoCandidateSendAdded(before: seq<Event>, added: seq<Event>)
    requires forall k :: 0 <= k < |added| ==> !added[k].CandidateSent?
    ensures before <= before + added
    ensures forall i :: |before| <= i < |before + added| ==> !(before + added)[i].CandidateSent?
  {
  }

  lemma FallBackRequestOk(config: GatewayConfig, r: Request, urlValid: bool, now: int, elapsed: nat)
    requires r.log == [] || r.log == [CandidateSend(config, r)]
    requires |r.body| <= config.maxRequestBytes && (r.selected ==> config.wholeBodyCapture)
    ensures RequestOk(config, FallBack(config, r, urlValid, now, elapsed).request)
  {
    assert [] + FallbackEvents(r) == FallbackEvents(r);
    var released := r.(permit := false, log := r.log + FallbackEvents(r));
    SendBaselineOk(config, released, urlValid, now, elapsed);
  }

  lemma FallBackOk(config: GatewayConfig, r: Request, urlValid: bool, now: int, elapsed: nat)
    requires r.log == [] || r.log == [CandidateSend(config, r)]
    requires |r.body| <= config.maxRequestBytes && (r.selected ==> config.wholeBodyCapture)
    ensures var outcome := FallBack(config, r, urlValid, now, elapsed);
            && RequestOk(config, outcome.request) && outcome.request.generation == r.generation
            && !outcome.request.permit && outcome.fuse
            && (outcome.request.log == r.log + FallbackEvents(r)
                || outcome.request.log == r.log + FallbackEvents(r) + [BaselineSend(config, r)])
            && r.log <= outcome.request.log
            && (forall i :: |r.log| <= i < |outcome.request.log| ==> !outcome.request.log[i].CandidateSent?)
  {
    FallBackRequestOk(config, r, urlValid, now, elapsed);
    FallBackLogs(config, r, urlValid, now, elapsed);
    NoCandidateSendAdded(r.log, FallbackEvents(r));
    NoCandidateSendAdded(r.log, FallbackEvents(r) + [BaselineSend(config, r)]);
    assert r.log + FallbackEvents(r) + [BaselineSend(config, r)]
        == r.log + (FallbackEvents(r) + [BaselineSend(config, r)]);
  }

  lemma StartedOk(config: GatewayConfig, runtime: RouteRuntime, r: Request)
    requires r.phase.Choosing? && r.phase.sampled.Some? && |r.phase.input.body| <= config.maxRequestBytes
    ensures var outcome := Started(config, runtime, r);
            && RequestOk(config, outcome.request) && outcome.request.generation == r.generation
            && (outcome.request.permit || outcome.fuse ==> Acquired(runtime, r.phase.sampled.value) == Candidate)
            && (outcome.request.log != [] && outcome.request.log[0].CandidateSent? ==>
                  Acquired(runtime, r.phase.sampled.value) == Candidate)
  {
    var input, target := r.phase.input, Acquired(runtime, r.phase.sampled.value);
    var routed := Routed(config, target, r.generation, r, input);
    if target == Baseline {
      SendBaselineOk(config, routed, input.baselineUrlValid, input.sentAt, input.elapsed);
    } else {
      FallBackOk(config, routed, input.baselineUrlValid, input.fallbackAt, input.elapsed);
    }
  }

  lemma BodyReadOk(config: GatewayConfig, world: World, runtime: RouteRuntime, generation: nat, r: Request,
                   input: BodyInput)
    requires |input.body| <= config.maxRequestBytes
    ensures var outcome := BodyRead(config, world, runtime, generation, r, input);
            && RequestOk(config, outcome.request) && outcome.request.generation == generation
            && (outcome.request.permit || outcome.fuse ==> Chosen(world, runtime, input) == Candidate)
            && (outcome.request.log != [] && outcome.request.log[0].CandidateSent? ==>
                  Chosen(world, runtime, input) == Candidate)
  {
    StartedOk(config, runtime, HealthSampled(world, runtime, PinnedTo(generation, r, input)));
  }

  /** After the fallback test, the checks repeated for a candidate response can no longer fail: nothing
      opens the fuse and the response is relayed. */
  lemma CandidateChecksAreDead(config: GatewayConfig, r: Request, input: AnswerInput)
    requires input.answer.Some? && !RequiresFallback(input.answer.value)
    ensures var outcome := Conclude(config, r, Candidate, input);
            && !outcome.fuse && outcome.request.phase.Streaming?
            && outcome.request.log == r.log + [Relayed(Candidate, input.answer.value)]
  {
  }

  lemma RelayOk(config: GatewayConfig, r: Request, response: UpstreamResponse, memoryBytes: nat)
    requires RequestOk(config, r) && r.phase.Awaiting?
    requires r.phase.target == Candidate ==> !RequiresFallback(response)
    ensures RequestOk(config, Relay(config, r, r.phase.target, response, memoryBytes))
  {
  }

  lemma EndedOk(config: GatewayConfig, r: Request, code: string, elapsed: nat)
    requires RequestOk(config, r) && r.phase.Awaiting?
    ensures RequestOk(config, Ended(r, code, elapsed))
  {
  }

  lemma ConcludeOk(config: GatewayConfig, r: Request, input: AnswerInput)
    requires RequestOk(config, r) && r.phase.Awaiting?
    requires r.phase.target == Candidate ==> input.answer.Some? && !RequiresFallback(input.answer.value)
    ensures var outcome := Conclude(config, r, r.phase.target, input);
            && RequestOk(config, outcome.request) && outcome.request.generation == r.generation
            && (outcome.request.permit ==> r.permit) && !outcome.fuse
            && r.log <= outcome.request.log
            && (forall i :: |r.log| <= i < |outcome.request.log| ==> !outcome.request.log[i].CandidateSent?)
  {
    var refusal := Refusal(r.phase.target, input.answer);
    if refusal.Some? {
      EndedOk(config, r, refusal.value, input.elapsed);
    } else {
      RelayOk(config, r, input.answer.value, input.memoryBytes);
    }
  }

  lemma AnsweredOk(config: GatewayConfig, r: Request, input: AnswerInput)
    requires RequestOk(config, r) && r.phase.Awaiting?
    ensures var outcome := Answered(config, r, input);
            && RequestOk(config, outcome.request) && outcome.request.generation == r.generation
            && (outcome.request.permit || outcome.fuse ==> r.permit)
            && r.log <= outcome.request.log
            && (forall i :: |r.log| <= i < |outcome.request.log| ==> !outcome.request.log[i].CandidateSent?)
  {
    if r.phase.target == Candidate && (input.answer.None? || RequiresFallback(input.answer.value)) {
      FallBackOk(config, r, input.baselineUrlValid, input.now, input.elapsed);
    } else {
      ConcludeOk(config, r, input);
    }
  }

  lemma StreamStepOk(config: GatewayConfig, r: Request, stream: StreamState, event: StreamEvent, errorClass: string)
    requires StreamOk(config, r, stream)
    ensures StreamOk(config, r, Stepped(stream, event, errorClass))
  {
    LimitsKept(stream, event, errorClass);
    if event.Arrived? {
      ObservingKeepsTheCatalog(stream.recording, event.bytes, event.elapsed, event.growth);
    }
  }

  lemma ObservingKeepsTheCatalog(s: Recording, bytes: seq<Byte>, elapsed: nat, growth: Growth)
    ensures Observed(s, bytes, elapsed, growth).catalog.Some? == s.catalog.Some?
  {
    var noted := Noted(s, bytes, elapsed);
    TerminalFrame(noted, bytes, growth.tailSlack);
    BufferFrame(TerminalObserved(noted, bytes, growth.tailSlack), bytes, growth.responseSlack);
  }

  lemma PolledOk(config: GatewayConfig, r: Request, event: StreamEvent)
    requires RequestOk(config, r) && r.phase.Streaming?
    ensures var outcome := Polled(r, event);
            && RequestOk(config, outcome.request) && outcome.request.generation == r.generation
            && outcome.request.permit == r.permit && outcome.request.log == r.log
            && (outcome.fuse <==> event.Broke? && r.phase.target == Candidate) && (outcome.fuse ==> r.permit)
  {
    if r.phase.stream.Some? {
      StreamStepOk(config, r, r.phase.stream.value, event, StreamErrorClass(r.phase.target));
      var after := Polled(r, event).request;
      assert StreamOk(config, after, after.phase.stream.value);
    }
  }

  lemma LeftOk(config: GatewayConfig, r: Request, elapsed: nat)
    requires RequestOk(config, r)
    ensures RequestOk(config, Left(r, elapsed)) && !Left(r, elapsed).permit
  {
    if r.phase.Streaming? && r.phase.stream.Some? {
      StreamStepOk(config, r, r.phase.stream.value, Dropped(elapsed), StreamErrorClass(r.phase.target));
    }
  }

  /** The protocol, read off a log: at most one send to each side, never the candidate after the baseline;
      between them the fuse is opened and the permit released, and nothing else happens; the same body goes
      to both under one deadline; and whatever was relayed from the candidate passed every fallback test. */
  ghost predicate FollowsProtocol(generation: nat, log: seq<Event>) {
    && (forall i, j :: 0 <= i < j < |log| && log[i].CandidateSent? ==> !log[j].CandidateSent?)
    && (forall i, j :: 0 <= i < j < |log| && log[i].BaselineSent? ==> !log[j].BaselineSent? && !log[j].CandidateSent?)
    && (forall i, j :: 0 <= i < j < |log| && log[i].CandidateSent? && log[j].BaselineSent? ==>
          && log[i..j + 1] == [log[i], FuseOpened(generation), CandidatePermitReleased(generation), log[j]]
          && log[i].body == log[j].body && log[i].deadline == log[j].deadline)
    && (forall i, j :: 0 <= i < |log| && 0 <= j < |log| && log[i].Relayed? && log[i].target == Candidate ==>
          !RequiresFallback(log[i].response) && !log[j].BaselineSent?)
  }

  lemma ReadyLogStarts(config: GatewayConfig, r: Request, log: seq<Event>, i: nat)
    requires ReadyForBaseline(config, r, log) && i < |log| && log[i].CandidateSent?
    ensures i == 0 && log[0] == CandidateSend(config, r)
  {
  }

  lemma BaselineLogStarts(config: GatewayConfig, r: Request, log: seq<Event>, i: nat)
    requires BaselineLog(config, r, log) && i < |log| && log[i].CandidateSent?
    ensures i == 0 && log[0] == CandidateSend(config, r)
  {
    assert i < |log| - 1 && log[..|log| - 1][i] == log[i];
    ReadyLogStarts(config, r, log[..|log| - 1], i);
  }

  lemma CandidateSentFirst(config: GatewayConfig, r: Request, i: nat)
    requires RequestOk(config, r) && i < |r.log| && r.log[i].CandidateSent?
    ensures i == 0 && r.log[0] == CandidateSend(config, r)
  {
    var log := r.log;
    assert AnyLog(config, r, log);
    if BaselineRelayLog(config, r, log) {
      assert i < |log| - 1 && log[..|log| - 1][i] == log[i];
      BaselineLogStarts(config, r, log[..|log| - 1], i);
    } else if BaselineLog(config, r, log) {
      BaselineLogStarts(config, r, log, i);
    } else if ReadyForBaseline(config, r, log) {
      ReadyLogStarts(config, r, log, i);
    }
  }

  lemma PrefixFollowsProtocol(generation: nat, log: seq<Event>, n: nat)
    requires FollowsProtocol(generation, log) && n <= |log|
    ensures FollowsProtocol(generation, log[..n])
  {
    var prefix := log[..n];
    forall i, j | 0 <= i < j < |prefix| && prefix[i].CandidateSent? && prefix[j].BaselineSent?
      ensures prefix[i..j + 1] == [prefix[i], FuseOpened(generation), CandidatePermitReleased(generation), prefix[j]]
      ensures prefix[i].body == prefix[j].body && prefix[i].deadline == prefix[j].deadline
    {
      assert prefix[i..j + 1] == log[i..j + 1];
    }
  }

  /** The longest log there is: a candidate send that fell back, and a relayed baseline response. */
  lemma LongestLogFollowsProtocol(config: GatewayConfig, r: Request, relayed: Event)
    requires relayed.Relayed? && relayed.target == Baseline
    ensures FollowsProtocol(r.generation,
                            [CandidateSend(config, r)] + FallbackEvents(r) + [BaselineSend(config, r), relayed])
  {
    var log := [CandidateSend(config, r)] + FallbackEvents(r) + [BaselineSend(config, r), relayed];
    assert log[0..4] == [log[0], log[1], log[2], log[3]];
  }

  lemma BaselineLogFollowsProtocol(config: GatewayConfig, r: Request, before: seq<Event>, relayed: Event)
    requires ReadyForBaseline(config, r, before) && relayed.Relayed? && relayed.target == Baseline
    ensures FollowsProtocol(r.generation, before + [BaselineSend(config, r), relayed])
  {
    if before == [CandidateSend(config, r)] + FallbackEvents(r) {
      LongestLogFollowsProtocol(config, r, relayed);
    }
  }

  lemma RelayedLogFollowsProtocol(config: GatewayConfig, r: Request, log: seq<Event>)
    requires BaselineRelayLog(config, r, log)
    ensures FollowsProtocol(r.generation, log)
  {
    var sent := log[..|log| - 1];
    var before := sent[..|sent| - 1];
    BaselineLogFollowsProtocol(config, r, before, log[|log| - 1]);
    assert log == before + [BaselineSend(config, r), log[|log| - 1]];
  }

  lemma UnrelayedLogFollowsProtocol(config: GatewayConfig, r: Request, log: seq<Event>)
    requires ReadyForBaseline(config, r, log) || BaselineLog(config, r, log)
    ensures FollowsProtocol(r.generation, log)
  {
    var relayed := Relayed(Baseline, UpstreamResponse(200, true, true, false, NO_HEADERS));
    var before := if BaselineLog(config, r, log) then log[..|log| - 1] else log;
    BaselineLogFollowsProtocol(config, r, before, relayed);
    var longest := before + [BaselineSend(config, r), relayed];
    PrefixFollowsProtocol(r.generation, longest, |log|);
    assert longest[..|log|] == log;
  }

  lemma CandidateLogFollowsProtocol(config: GatewayConfig, r: Request, log: seq<Event>)
    requires CandidateRelayLog(config, r, log) || log == [CandidateSend(config, r)]
    ensures FollowsProtocol(r.generation, log)
  {
    assert forall i :: 0 <= i < |log| ==> !log[i].BaselineSent?;
  }

  lemma LogFollowsProtocol(config: GatewayConfig, r: Request, log: seq<Event>)
    requires AnyLog(config, r, log)
    ensures FollowsProtocol(r.generation, log)
  {
    if BaselineRelayLog(config, r, log) {
      RelayedLogFollowsProtocol(config, r, log);
    } else if ReadyForBaseline(config, r, log) || BaselineLog(config, r, log) {
      UnrelayedLogFollowsProtocol(config, r, log);
    } else {
      CandidateLogFollowsProtocol(config, r, log);
    }
  }

  lemma SendsFollowProtocol(config: GatewayConfig, r: Request)
    requires RequestOk(config, r)
    ensures FollowsProtocol(r.generation, r.log)
  {
    LogFollowsProtocol(config, r, r.log);
  }
}
