/** Where everything a request does comes from. Its body, the generation it pinned, the answer it relays and the
    stream it records are read off the steps of the run, and what it sent and recorded is told from those. */
module GatewayHistory {
  import opened Common
  import opened HexCodec
  import opened ByteSearch
  import opened TraceRecording
  import opened ResponseStream
  import opened RouteManifest
  import opened RoutePolicy
  import opened Admission
  import opened ProxyRequest
  import opened Gateway
  import opened GatewaySafety

  function After(env: Env, steps: seq<Step>): State {
    Run(env, Start(env.config), steps)
  }

  /** The generation in force when a body was complete, and what was known then. */
  datatype Pin = Pin(generation: nat, input: BodyInput)

  predicate Completes(config: GatewayConfig, s: State, step: Step, id: nat) {
    && step.FinishBody? && step.id == id && id in s.live && s.live[id].phase.ReadingBody? && s.generations != []
    && |step.body.body| <= config.maxRequestBytes && Describes(step.body, s.live[id].endpoint)
  }

  function Pinning(env: Env, steps: seq<Step>, id: nat): Option<Pin> {
    if steps == [] then None
    else
      var before, last := steps[..|steps| - 1], steps[|steps| - 1];
      var s := After(env, before);
      if Completes(env.config, s, last, id) then Some(Pin(Current(s), last.body)) else Pinning(env, before, id)
  }

  /** The last answer an upstream gave the request. */
  function Answering(env: Env, steps: seq<Step>, id: nat): Option<AnswerInput> {
    if steps == [] then None
    else
      var before, last := steps[..|steps| - 1], steps[|steps| - 1];
      var s := After(env, before);
      if last.Answer? && last.id == id && id in s.live && s.live[id].phase.Awaiting? then Some(last.answer)
      else Answering(env, before, id)
  }

  /** The events of the response body while it was relayed, and the drop that ended it. */
  function Relaying(env: Env, steps: seq<Step>, id: nat): seq<StreamEvent> {
    if steps == [] then []
    else
      var before, last := steps[..|steps| - 1], steps[|steps| - 1];
      var s := After(env, before);
      if id !in s.live || !s.live[id].phase.Streaming? then Relaying(env, before, id)
      else if last.Poll? && last.id == id && !last.event.Dropped? then Relaying(env, before, id) + [last.event]
      else if last.Leave? && last.id == id then Relaying(env, before, id) + [Dropped(last.elapsed)]
      else Relaying(env, before, id)
  }

  function RequestOf(s: State, id: nat): Option<Request> {
    if id in s.live then Some(s.live[id]) else if id in s.done then Some(s.done[id]) else None
  }

  // ---------------------------------------------------------------- what a request should be

  /** The policy a request pinned sent it to the candidate. */
  predicate DecidedFor(env: Env, s: State, pin: Pin) {
    && pin.generation < |s.generations|
    && Decide(env.world, s.generations[pin.generation].policy, pin.input.request, pin.input.decidedAt).target
       == Candidate
  }

  predicate Selects(config: GatewayConfig, input: BodyInput) {
    config.wholeBodyCapture && input.captureSelected && input.catalog.Some?
  }

  /** What ends an event stream of this endpoint. */
  function Terminals(endpoint: RouteEndpoint): seq<Text> {
    match endpoint
    case ChatCompletions => [Ascii("data: [DONE]")]
    case ResponsesApi =>
      [Ascii("event: response.completed"), Ascii("event: response.failed"), Ascii("event: response.incomplete")]
  }

  /** The recorder a relayed response starts with: it keeps the request body if the request is selected, and looks
      for the markers of its endpoint exactly if the response is an event stream. */
  function FirstRecording(config: GatewayConfig, input: BodyInput, catalog: Catalog, response: UpstreamResponse,
                          memoryBytes: nat): Recording
  {
    var selected := Selects(config, input);
    Recording(
      traceLimit := Some(config.captureRecordBytes),
      catalog := Some(catalog.(memoryBytes := memoryBytes, responseBytes := 0)),
      firstByte := None,
      request := if selected then Some(input.body) else None,
      headers := response.headers,
      response := [], responseCapacity := 0,
      responseLimit := config.captureResponseBytes, recordLimit := config.captureRecordBytes,
      selected := selected, oversized := false,
      protocol := if response.eventStream then Some(Terminals(input.request.endpoint)) else None,
      terminalSeen := false, tail := [], tailCapacity := 0)
  }

  function ErrorClassOf(target: RouteTarget): string {
    match target
    case Candidate => "candidate_stream_error"
    case Baseline => "upstream_stream_error"
  }

  // ---------------------------------------------------------------- the invariant

  /** What a request took over from the end of its body. */
  predicate Carried(config: GatewayConfig, r: Request, pin: Pin) {
    && Describes(pin.input, r.endpoint) && r.generation == pin.generation
    && r.body == pin.input.body && r.startedAt == pin.input.startedAt
    && r.catalog == pin.input.catalog && r.selected == Selects(config, pin.input)
  }

  predicate SendsRouted(env: Env, s: State, r: Request, pin: Option<Pin>) {
    forall i :: 0 <= i < |r.log| && r.log[i].CandidateSent? ==>
      pin.Some? && r.log[i].generation == pin.value.generation && r.log[i].body == pin.value.input.body
      && |r.log[i].body| == pin.value.input.request.bodyLength && DecidedFor(env, s, pin.value)
  }

  /** What the recorder of a relayed answer has come to, if there are records at all. */
  function StreamOf(config: GatewayConfig, input: BodyInput, answer: AnswerInput, target: RouteTarget,
                    events: seq<StreamEvent>): Option<StreamState>
    requires answer.answer.Some?
  {
    if input.catalog.None? then None
    else
      var init := FirstRecording(config, input, input.catalog.value, answer.answer.value, answer.memoryBytes);
      Some(Replay(StreamState(init, []), events, ErrorClassOf(target)))
  }

  predicate Relays(r: Request, target: RouteTarget, answer: Option<AnswerInput>) {
    && answer.Some? && answer.value.answer.Some?
    && r.log != [] && r.log[|r.log| - 1] == Relayed(target, answer.value.answer.value)
  }

  function HandedBy(stream: Option<StreamState>): seq<Handoff> {
    if stream.Some? then stream.value.handed else []
  }

  /** The record of a request that came to no response: what stopped it, if there are records at all. */
  predicate FailureRecord(handed: seq<Handoff>, catalog: Option<Catalog>) {
    handed == []
    || (|handed| == 1 && catalog.Some? && handed[0].Observation? && handed[0].state == Interrupted
        && handed[0].catalog.errorClass.Some?)
  }

  ghost predicate Told(env: Env, s: State, r: Request, pin: Option<Pin>, answer: Option<AnswerInput>,
                 events: seq<StreamEvent>)
  {
    && SendsRouted(env, s, r, pin)
    && match r.phase
       case ReadingBody(_) => pin.None? && events == []
       case Choosing(input, sampled) =>
         && pin == Some(Pin(r.generation, input)) && Describes(input, r.endpoint) && events == []
         && (sampled == Some(Candidate) ==> DecidedFor(env, s, pin.value))
       case Awaiting(_) => pin.Some? && Carried(env.config, r, pin.value) && events == []
       case Streaming(target, stream) =>
         && pin.Some? && Carried(env.config, r, pin.value) && Relays(r, target, answer)
         && stream == StreamOf(env.config, pin.value.input, answer.value, target, events)
         && (forall i :: 0 <= i < |events| ==> !events[i].Dropped?)
       case Over(handed) =>
         if events == [] then FailureRecord(handed, r.catalog) && !RelayedLast(r)
         else
           && pin.Some? && Carried(env.config, r, pin.value) && RelayedLast(r)
           && Relays(r, r.log[|r.log| - 1].target, answer) && events[|events| - 1].Dropped?
           && handed == HandedBy(StreamOf(env.config, pin.value.input, answer.value, r.log[|r.log| - 1].target, events))
  }

  predicate RelayedLast(r: Request) {
    r.log != [] && r.log[|r.log| - 1].Relayed?
  }

  ghost predicate ToldOf(env: Env, steps: seq<Step>, id: nat) {
    var s := After(env, steps);
    && (RequestOf(s, id).None? ==> Pinning(env, steps, id).None? && Relaying(env, steps, id) == [])
    && (forall r :: RequestOf(s, id) == Some(r) ==>
          Told(env, s, r, Pinning(env, steps, id), Answering(env, steps, id), Relaying(env, steps, id)))
  }

  lemma Unroll(env: Env, before: seq<Step>, last: Step, id: nat)
    ensures var s, steps := After(env, before), before + [last];
            && After(env, steps) == Next(env, s, last)
            && Pinning(env, steps, id) == (if Completes(env.config, s, last, id) then Some(Pin(Current(s), last.body))
                                           else Pinning(env, before, id))
            && Answering(env, steps, id) == (
                 if last.Answer? && last.id == id && id in s.live && s.live[id].phase.Awaiting? then Some(last.answer)
                 else Answering(env, before, id))
            && Relaying(env, steps, id) == (
                 if id !in s.live || !s.live[id].phase.Streaming? then Relaying(env, before, id)
                 else if last.Poll? && last.id == id && !last.event.Dropped? then
                   Relaying(env, before, id) + [last.event]
                 else if last.Leave? && last.id == id then Relaying(env, before, id) + [Dropped(last.elapsed)]
                 else Relaying(env, before, id))
  {
    assert (before + [last])[..|before|] == before;
  }

  predicate PoliciesStay(s: State, t: State) {
    && |s.generations| <= |t.generations|
    && forall g :: 0 <= g < |s.generations| ==> t.generations[g].policy == s.generations[g].policy
  }

  lemma StepKeepsPolicies(env: Env, s: State, step: Step)
    ensures PoliciesStay(s, Next(env, s, step))
  {
  }

  lemma PutGives(s: State, id: nat, g: nat, outcome: Outcome, other: nat)
    requires id in s.live && g < |s.generations|
    ensures RequestOf(Put(s, id, g, outcome), other)
            == if other == id then Some(outcome.request) else RequestOf(s, other)
    ensures PoliciesStay(s, Put(s, id, g, outcome))
  {
  }

  lemma ToldStays(env: Env, s: State, t: State, r: Request, pin: Option<Pin>, answer: Option<AnswerInput>,
                  events: seq<StreamEvent>)
    requires Told(env, s, r, pin, answer, events) && PoliciesStay(s, t)
    ensures Told(env, t, r, pin, answer, events)
  {
  }

  /** A step that puts a request back as its steps should make it. */
  lemma PutIsTold(env: Env, before: seq<Step>, last: Step, id: nat, g: nat, outcome: Outcome, pin: Option<Pin>,
                  answer: Option<AnswerInput>, events: seq<StreamEvent>)
    requires var s := After(env, before);
             id in s.live && g < |s.generations| && Next(env, s, last) == Put(s, id, g, outcome)
    requires forall r :: r == outcome.request ==> Told(env, After(env, before), r, pin, answer, events)
    requires var steps := before + [last];
             Pinning(env, steps, id) == pin && Answering(env, steps, id) == answer && Relaying(env, steps, id) == events
    ensures ToldOf(env, before + [last], id)
  {
    var s := After(env, before);
    Unroll(env, before, last, id);
    PutGives(s, id, g, outcome, id);
    ToldStays(env, s, Put(s, id, g, outcome), outcome.request, pin, answer, events);
  }

  /** Steps of other requests and of the poller. */
  predicate Concerns(step: Step, id: nat) {
    match step
    case Refresh(_, _, _) => false
    case OutcomeArrive(_) => false
    case OutcomeBuffer(_, _) => false
    case OutcomeLeave(_) => false
    case _ => step.id == id
  }

  lemma OthersKeepRequest(env: Env, s: State, step: Step, id: nat)
    requires !Concerns(step, id)
    ensures RequestOf(Next(env, s, step), id) == RequestOf(s, id)
  {
  }

  lemma OtherStepTold(env: Env, before: seq<Step>, last: Step, id: nat)
    requires ToldOf(env, before, id) && !Concerns(last, id)
    ensures ToldOf(env, before + [last], id)
  {
    var s := After(env, before);
    Unroll(env, before, last, id);
    OthersKeepRequest(env, s, last, id);
    StepKeepsPolicies(env, s, last);
    var r := RequestOf(s, id);
    if r.Some? {
      ToldStays(env, s, Next(env, s, last), r.value, Pinning(env, before, id), Answering(env, before, id),
                Relaying(env, before, id));
    }
  }

  lemma KnownTold(env: Env, before: seq<Step>, id: nat)
    requires ToldOf(env, before, id) && id in After(env, before).live
    ensures Told(env, After(env, before), After(env, before).live[id], Pinning(env, before, id),
                 Answering(env, before, id), Relaying(env, before, id))
  {
    assert RequestOf(After(env, before), id) == Some(After(env, before).live[id]);
  }

  lemma ArriveTold(env: Env, before: seq<Step>, id: nat, endpoint: RouteEndpoint)
    requires ToldOf(env, before, id)
    ensures ToldOf(env, before + [Arrive(id, endpoint)], id)
  {
    Unroll(env, before, Arrive(id, endpoint), id);
  }

  lemma BufferTold(env: Env, before: seq<Step>, id: nat, bytes: nat)
    requires ToldOf(env, before, id)
    requires id in After(env, before).live && RequestOk(env.config, After(env, before).live[id])
    requires Pinned(After(env, before), id) && After(env, before).live[id].phase.ReadingBody?
    ensures ToldOf(env, before + [BufferBody(id, bytes)], id)
  {
    var s := After(env, before);
    KnownTold(env, before, id);
    Unroll(env, before, BufferBody(id, bytes), id);
    var r := s.live[id];
    PutIsTold(env, before, BufferBody(id, bytes), id, r.generation, Outcome(MoreBody(env.config, r, bytes), false),
              Pinning(env, before, id), Answering(env, before, id), []);
  }

  lemma FinishTold(env: Env, before: seq<Step>, id: nat, body: BodyInput)
    requires ToldOf(env, before, id)
    requires id in After(env, before).live && RequestOk(env.config, After(env, before).live[id])
    requires Completes(env.config, After(env, before), FinishBody(id, body), id)
    ensures ToldOf(env, before + [FinishBody(id, body)], id)
  {
    var s := After(env, before);
    KnownTold(env, before, id);
    Unroll(env, before, FinishBody(id, body), id);
    var r := s.live[id];
    PutIsTold(env, before, FinishBody(id, body), id, Current(s), Outcome(PinnedTo(Current(s), r, body), false),
              Some(Pin(Current(s), body)), Answering(env, before, id), []);
  }

  lemma SampleTold(env: Env, before: seq<Step>, id: nat)
    requires ToldOf(env, before, id)
    requires id in After(env, before).live && RequestOk(env.config, After(env, before).live[id])
    requires Pinned(After(env, before), id) && After(env, before).live[id].phase.Choosing?
             && After(env, before).live[id].phase.sampled.None?
    ensures ToldOf(env, before + [SampleHealth(id)], id)
  {
    var s := After(env, before);
    KnownTold(env, before, id);
    Unroll(env, before, SampleHealth(id), id);
    var r := s.live[id];
    var sampled := HealthSampled(env.world, s.generations[r.generation], r);
    PutIsTold(env, before, SampleHealth(id), id, r.generation, Outcome(sampled, false),
              Pinning(env, before, id), Answering(env, before, id), []);
  }

  lemma StartedSends(env: Env, s: State, r: Request, pin: Pin)
    requires r.phase.Choosing? && r.phase.sampled.Some? && r.generation < |s.generations|
    requires RequestOk(env.config, r) && pin == Pin(r.generation, r.phase.input)
    requires Describes(r.phase.input, r.endpoint)
    requires r.phase.sampled == Some(Candidate) ==> DecidedFor(env, s, pin)
    ensures SendsRouted(env, s, Started(env.config, s.generations[r.generation], r).request, Some(pin))
  {
    var after := Started(env.config, s.generations[r.generation], r).request;
    StartedOk(env.config, s.generations[r.generation], r);
    forall i | 0 <= i < |after.log| && after.log[i].CandidateSent?
      ensures after.log[i].generation == r.generation && after.log[i].body == r.body && DecidedFor(env, s, pin)
    {
      CandidateSentFirst(env.config, after, i);
    }
  }

  /** What sending makes of the phase: an upstream is awaited, or the request is over. */
  lemma StartedPhase(config: GatewayConfig, runtime: RouteRuntime, r: Request)
    requires r.phase.Choosing? && r.phase.sampled.Some? && RequestOk(config, r)
    requires Describes(r.phase.input, r.endpoint)
    ensures var after := Started(config, runtime, r).request;
            && Carried(config, after, Pin(r.generation, r.phase.input))
            && match after.phase
               case Awaiting(_) => true
               case Over(handed) => FailureRecord(handed, after.catalog) && !RelayedLast(after)
               case _ => false
  {
  }

  lemma DispatchTold(env: Env, before: seq<Step>, id: nat)
    requires ToldOf(env, before, id)
    requires id in After(env, before).live && RequestOk(env.config, After(env, before).live[id])
    requires Pinned(After(env, before), id) && After(env, before).live[id].phase.Choosing?
             && After(env, before).live[id].phase.sampled.Some?
    ensures ToldOf(env, before + [Dispatch(id)], id)
  {
    var s := After(env, before);
    KnownTold(env, before, id);
    Unroll(env, before, Dispatch(id), id);
    var r := s.live[id];
    StartedSends(env, s, r, Pinning(env, before, id).value);
    StartedPhase(env.config, s.generations[r.generation], r);
    PutIsTold(env, before, Dispatch(id), id, r.generation, Started(env.config, s.generations[r.generation], r),
              Pinning(env, before, id), Answering(env, before, id), []);
  }

  lemma AnsweredTold(env: Env, s: State, r: Request, pin: Option<Pin>, before: Option<AnswerInput>, answer: AnswerInput)
    requires r.phase.Awaiting? && RequestOk(env.config, r) && Told(env, s, r, pin, before, [])
    ensures Told(env, s, Answered(env.config, r, answer).request, pin, Some(answer), [])
  {
    AnsweredOk(env.config, r, answer);
    AnsweredPhase(env.config, r, pin.value, answer);
  }

  /** What an answer makes of the phase: the baseline is awaited, the answer relayed, or the request over. */
  lemma AnsweredPhase(config: GatewayConfig, r: Request, pin: Pin, answer: AnswerInput)
    requires r.phase.Awaiting? && RequestOk(config, r) && Carried(config, r, pin)
    ensures var after := Answered(config, r, answer).request;
            && Carried(config, after, pin)
            && match after.phase
               case Awaiting(_) => true
               case Streaming(target, stream) =>
                 Relays(after, target, Some(answer)) && stream == StreamOf(config, pin.input, answer, target, [])
               case Over(handed) => FailureRecord(handed, r.catalog) && !RelayedLast(after)
               case _ => false
  {
    var after := Answered(config, r, answer).request;
    NotRelayedYet(config, r);
    if after.phase.Streaming? {
      RecorderIsFirst(config, r, pin, answer.answer.value, answer.memoryBytes);
    }
  }

  /** The recorder the relay builds is the one the request should have. */
  lemma RecorderIsFirst(config: GatewayConfig, r: Request, pin: Pin, response: UpstreamResponse, memoryBytes: nat)
    requires Carried(config, r, pin)
    ensures Recorder(config, r, response, memoryBytes)
            == if r.catalog.None? then None
               else Some(StreamState(FirstRecording(config, pin.input, r.catalog.value, response, memoryBytes), []))
  {
  }

  lemma AnswerTold(env: Env, before: seq<Step>, id: nat, answer: AnswerInput)
    requires ToldOf(env, before, id)
    requires id in After(env, before).live && RequestOk(env.config, After(env, before).live[id])
    requires Pinned(After(env, before), id) && After(env, before).live[id].phase.Awaiting?
    ensures ToldOf(env, before + [Answer(id, answer)], id)
  {
    var s := After(env, before);
    KnownTold(env, before, id);
    Unroll(env, before, Answer(id, answer), id);
    var r := s.live[id];
    AnsweredTold(env, s, r, Pinning(env, before, id), Answering(env, before, id), answer);
    PutIsTold(env, before, Answer(id, answer), id, r.generation, Answered(env.config, r, answer),
              Pinning(env, before, id), Some(answer), []);
  }

  /** One more event is one more step of the recorder. */
  lemma OneMoreEvent(config: GatewayConfig, input: BodyInput, answer: AnswerInput, target: RouteTarget,
                     events: seq<StreamEvent>, event: StreamEvent)
    requires answer.answer.Some?
    ensures var before, after := StreamOf(config, input, answer, target, events),
                                 StreamOf(config, input, answer, target, events + [event]);
            after == if before.None? then None else Some(Stepped(before.value, event, StreamErrorClass(target)))
  {
    assert (events + [event])[..|events|] == events;
  }

  lemma PolledTold(env: Env, s: State, r: Request, pin: Option<Pin>, answer: Option<AnswerInput>,
                   events: seq<StreamEvent>, event: StreamEvent)
    requires r.phase.Streaming? && Told(env, s, r, pin, answer, events) && !event.Dropped?
    ensures Told(env, s, Polled(r, event).request, pin, answer, events + [event])
  {
    OneMoreEvent(env.config, pin.value.input, answer.value, r.phase.target, events, event);
  }

  lemma PollTold(env: Env, before: seq<Step>, id: nat, event: StreamEvent)
    requires ToldOf(env, before, id)
    requires Pinned(After(env, before), id) && After(env, before).live[id].phase.Streaming? && !event.Dropped?
    ensures ToldOf(env, before + [Poll(id, event)], id)
  {
    var s := After(env, before);
    KnownTold(env, before, id);
    Unroll(env, before, Poll(id, event), id);
    var r, events := s.live[id], Relaying(env, before, id);
    PolledTold(env, s, r, Pinning(env, before, id), Answering(env, before, id), events, event);
    PutIsTold(env, before, Poll(id, event), id, r.generation, Polled(r, event), Pinning(env, before, id),
              Answering(env, before, id), events + [event]);
  }

  lemma LeftTold(env: Env, s: State, r: Request, pin: Option<Pin>, answer: Option<AnswerInput>,
                 events: seq<StreamEvent>, elapsed: nat)
    requires r.phase.Streaming? && Told(env, s, r, pin, answer, events)
    ensures Told(env, s, Left(r, elapsed), pin, answer, events + [Dropped(elapsed)])
  {
    OneMoreEvent(env.config, pin.value.input, answer.value, r.phase.target, events, Dropped(elapsed));
  }

  lemma LeftStreamTold(env: Env, before: seq<Step>, id: nat, elapsed: nat)
    requires ToldOf(env, before, id)
    requires Pinned(After(env, before), id) && After(env, before).live[id].phase.Streaming?
    ensures var s, steps := After(env, before), before + [Leave(id, elapsed)];
            Told(env, s, Left(s.live[id], elapsed), Pinning(env, steps, id), Answering(env, steps, id),
                 Relaying(env, steps, id))
  {
    var s := After(env, before);
    KnownTold(env, before, id);
    Unroll(env, before, Leave(id, elapsed), id);
    LeftTold(env, s, s.live[id], Pinning(env, before, id), Answering(env, before, id), Relaying(env, before, id),
             elapsed);
  }

  lemma LeaveStreamTold(env: Env, before: seq<Step>, id: nat, elapsed: nat)
    requires ToldOf(env, before, id)
    requires Pinned(After(env, before), id) && After(env, before).live[id].phase.Streaming?
    ensures ToldOf(env, before + [Leave(id, elapsed)], id)
  {
    var s, steps := After(env, before), before + [Leave(id, elapsed)];
    var r := s.live[id];
    LeftStreamTold(env, before, id, elapsed);
    PutIsTold(env, before, Leave(id, elapsed), id, r.generation, Outcome(Left(r, elapsed), false),
              Pinning(env, steps, id), Answering(env, steps, id), Relaying(env, steps, id));
  }

  lemma LeaveTold(env: Env, before: seq<Step>, id: nat, elapsed: nat)
    requires ToldOf(env, before, id)
    requires id in After(env, before).live && RequestOk(env.config, After(env, before).live[id])
    requires Pinned(After(env, before), id)
             && (After(env, before).live[id].phase.ReadingBody? || After(env, before).live[id].phase.Awaiting?)
    ensures ToldOf(env, before + [Leave(id, elapsed)], id)
  {
    var s := After(env, before);
    KnownTold(env, before, id);
    Unroll(env, before, Leave(id, elapsed), id);
    var r := s.live[id];
    EarlyLeftTold(env, s, r, Pinning(env, before, id), Answering(env, before, id), [], elapsed);
    PutIsTold(env, before, Leave(id, elapsed), id, r.generation, Outcome(Left(r, elapsed), false),
              Pinning(env, before, id), Answering(env, before, id), []);
  }

  lemma EarlyLeftTold(env: Env, s: State, r: Request, pin: Option<Pin>, answer: Option<AnswerInput>,
                      events: seq<StreamEvent>, elapsed: nat)
    requires (r.phase.ReadingBody? || r.phase.Awaiting?) && RequestOk(env.config, r)
    requires Told(env, s, r, pin, answer, events)
    ensures Told(env, s, Left(r, elapsed), pin, answer, events)
  {
    NotRelayedYet(env.config, r);
  }

  lemma NotRelayedYet(config: GatewayConfig, r: Request)
    requires RequestOk(config, r) && !r.phase.Streaming? && !r.phase.Over?
    ensures !RelayedLast(r)
  {
  }

  predicate BeforeTheAnswer(step: Step) {
    step.Arrive? || step.BufferBody? || step.FinishBody? || step.SampleHealth? || step.Dispatch?
  }

  /** A step that does not apply. */
  lemma StutterTold(env: Env, before: seq<Step>, last: Step, id: nat)
    requires ToldOf(env, before, id) && Next(env, After(env, before), last) == After(env, before)
    requires Pinning(env, before + [last], id) == Pinning(env, before, id)
    requires Answering(env, before + [last], id) == Answering(env, before, id)
    requires Relaying(env, before + [last], id) == Relaying(env, before, id)
    ensures ToldOf(env, before + [last], id)
  {
    Unroll(env, before, last, id);
  }

  lemma EarlyStepTold(env: Env, before: seq<Step>, last: Step, id: nat)
    requires ToldOf(env, before, id) && Inv(env, After(env, before)) && Concerns(last, id) && BeforeTheAnswer(last)
    ensures ToldOf(env, before + [last], id)
  {
    var s := After(env, before);
    Unroll(env, before, last, id);
    if id in s.live {
      LiveIsOk(env, s, id);
    }
    if last.Arrive? {
      ArriveTold(env, before, id, last.endpoint);
    } else if last.BufferBody? && Pinned(s, id) && s.live[id].phase.ReadingBody? {
      BufferTold(env, before, id, last.bytes);
    } else if Completes(env.config, s, last, id) {
      FinishTold(env, before, id, last.body);
    } else if last.SampleHealth? && Pinned(s, id) && s.live[id].phase.Choosing? && s.live[id].phase.sampled.None? {
      SampleTold(env, before, id);
    } else if last.Dispatch? && Pinned(s, id) && s.live[id].phase.Choosing? && s.live[id].phase.sampled.Some? {
      DispatchTold(env, before, id);
    } else {
      StutterTold(env, before, last, id);
    }
  }

  lemma LateStepTold(env: Env, before: seq<Step>, last: Step, id: nat)
    requires ToldOf(env, before, id) && Inv(env, After(env, before)) && Concerns(last, id) && !BeforeTheAnswer(last)
    ensures ToldOf(env, before + [last], id)
  {
    var s := After(env, before);
    Unroll(env, before, last, id);
    if id in s.live {
      LiveIsOk(env, s, id);
    }
    if last.Answer? && id in s.live && s.live[id].phase.Awaiting? {
      AnswerTold(env, before, id, last.answer);
    } else if last.Poll? && id in s.live && s.live[id].phase.Streaming? && !last.event.Dropped? {
      PollTold(env, before, id, last.event);
    } else if last.Leave? && id in s.live && s.live[id].phase.Streaming? {
      LeaveStreamTold(env, before, id, last.elapsed);
    } else if last.Leave? && id in s.live && !s.live[id].phase.Choosing? {
      LeaveTold(env, before, id, last.elapsed);
    } else {
      StutterTold(env, before, last, id);
    }
  }

  /** In every run, every request is what its steps make it. */
  lemma {:induction false} EveryRequestIsTold(env: Env, steps: seq<Step>, id: nat)
    ensures ToldOf(env, steps, id)
  {
    if steps != [] {
      var before, last := steps[..|steps| - 1], steps[|steps| - 1];
      EveryRequestIsTold(env, before, id);
      Reachable(env, before);
      if !Concerns(last, id) {
        OtherStepTold(env, before, last, id);
      } else if BeforeTheAnswer(last) {
        EarlyStepTold(env, before, last, id);
      } else {
        LateStepTold(env, before, last, id);
      }
      assert before + [last] == steps;
    }
  }

  // ---------------------------------------------------------------- what was sent

  /** A generation after the first is the policy of a publication that was loaded. */
  predicate LoadedBy(env: Env, step: Step, policy: RoutePolicy) {
    step.Refresh? && step.loaded.Some? && Loaded(env, step.loaded.value, step.wallNow, step.monotonicNow) == Ok(policy)
  }

  predicate WasLoaded(env: Env, steps: seq<Step>, policy: RoutePolicy) {
    exists k | 0 <= k < |steps| :: LoadedBy(env, steps[k], policy)
  }

  lemma StillLoaded(env: Env, before: seq<Step>, last: Step, policy: RoutePolicy)
    requires WasLoaded(env, before, policy) || LoadedBy(env, last, policy)
    ensures WasLoaded(env, before + [last], policy)
  {
    var steps := before + [last];
    if LoadedBy(env, last, policy) {
      assert LoadedBy(env, steps[|before|], policy);
    } else {
      var k :| 0 <= k < |before| && LoadedBy(env, before[k], policy);
      assert LoadedBy(env, steps[k], policy);
    }
  }

  lemma {:induction false} EveryGenerationWasLoaded(env: Env, steps: seq<Step>, g: nat)
    requires g < |After(env, steps).generations|
    ensures var policy := After(env, steps).generations[g].policy;
            if g == 0 then policy == BaselinePolicy() else WasLoaded(env, steps, policy)
  {
    if steps != [] {
      var before, last := steps[..|steps| - 1], steps[|steps| - 1];
      var s := After(env, before);
      var policy := After(env, steps).generations[g].policy;
      assert before + [last] == steps;
      StepKeepsPolicies(env, s, last);
      if g < |s.generations| {
        EveryGenerationWasLoaded(env, before, g);
        if g > 0 {
          StillLoaded(env, before, last, policy);
        }
      } else {
        NewGenerationWasLoaded(env, s, last);
        StillLoaded(env, before, last, policy);
      }
    }
  }

  lemma NewGenerationWasLoaded(env: Env, s: State, step: Step)
    requires |Next(env, s, step).generations| > |s.generations|
    ensures |Next(env, s, step).generations| == |s.generations| + 1
    ensures LoadedBy(env, step, Next(env, s, step).generations[|s.generations|].policy)
  {
  }

  /** A publication that entitles a request to go to its candidate: signed by the configured key, with the
      configured secret and credential; not over at the moment of the decision, nor before its begin if the clocks
      kept going since it was loaded; the request is eligible; and its cohort falls into the signed share. */
  predicate Entitles(env: Env, step: Step, input: BodyInput) {
    && step.Refresh? && step.loaded.Some? && env.secretHex.Some? && env.apiKey.Some?
    && (var live, m := step.loaded.value, env.world.manifestFromJson(step.loaded.value.manifest);
        var secret := HexToDigest(env.secretHex.value);
        && Signed(env.world, env.config.route, live.manifest, live.signature)
        && m.Some? && m.value.candidate.Some? && secret.Some?
        && (var candidate, decided := m.value.candidate.value, WallAt(step.wallNow, step.monotonicNow, input.decidedAt);
            && m.value.routeSecretSha256 == Some(Hex(env.world.sha256(secret.value)))
            && candidate.candidateApiKeySha256 == Hex(env.world.sha256(env.apiKey.value))
            && decided < m.value.notAfter && (step.monotonicNow <= input.decidedAt ==> m.value.notBefore <= decided)
            && Eligible(candidate, input.request)
            && (var cohort := env.world.sha256(env.world.candidateToJson(candidate));
                (Prefix64(env.world.hmac(secret.value, cohort + input.request.routingCohort)) + 1) * 10_000
                <= m.value.candidateBasisPoints * 0x1_0000_0000_0000_0000)))
  }

  lemma RoutedIsEntitled(env: Env, step: Step, policy: RoutePolicy, input: BodyInput)
    requires LoadedBy(env, step, policy)
    requires Decide(env.world, policy, input.request, input.decidedAt).target == Candidate
    ensures Entitles(env, step, input)
  {
    var live := step.loaded.value;
    ActiveExactly(env.world, env.config.route, env.scope, env.secretHex, env.apiKey, env.config.maxInFlight,
                  step.wallNow, step.monotonicNow, live.manifest, live.signature, policy);
    RoutedExactly(env.world, policy, input.request, input.decidedAt);
    var route := policy.state.route;
    DigestTextRoundTrip(route.manifest.routeSecretSha256.value, env.world.sha256(route.secret));
    DigestTextRoundTrip(route.candidate.candidateApiKeySha256, env.world.sha256(env.apiKey.value));
  }

  /** Whatever was sent to a candidate was entitled to go there. In every run, each candidate send is of the body
      the request ended with, to the generation in force at that moment, whose policy decided for the candidate;
      and that policy came from a signed publication that entitles the request. */
  lemma CandidateSendsAreEntitled(env: Env, steps: seq<Step>, id: nat, i: nat)
    requires i < |LogOf(After(env, steps), id)| && LogOf(After(env, steps), id)[i].CandidateSent?
    ensures Pinning(env, steps, id).Some?
    ensures var s, sent, pin := After(env, steps), LogOf(After(env, steps), id)[i], Pinning(env, steps, id).value;
            && sent.generation == pin.generation < |s.generations|
            && sent.body == pin.input.body && |sent.body| == pin.input.request.bodyLength
            && Decide(env.world, s.generations[pin.generation].policy, pin.input.request, pin.input.decidedAt).target
               == Candidate
            && exists k :: 0 <= k < |steps| && Entitles(env, steps[k], pin.input)
  {
    EveryRequestIsTold(env, steps, id);
    var s := After(env, steps);
    assert RequestOf(s, id).Some?;
    var pin := Pinning(env, steps, id).value;
    var policy := s.generations[pin.generation].policy;
    EveryGenerationWasLoaded(env, steps, pin.generation);
    var k :| 0 <= k < |steps| && LoadedBy(env, steps[k], policy);
    RoutedIsEntitled(env, steps[k], policy, pin.input);
  }

  /** And whoever is entitled is sent there: the body pins the generation in force, the candidate is sampled exactly
      if the policy decides for it and its fuse is closed. */
  lemma SampledExactly(env: Env, steps: seq<Step>, id: nat, body: BodyInput)
    ensures var s, t := After(env, steps), Next(env, After(env, steps), FinishBody(id, body));
            Completes(env.config, s, FinishBody(id, body), id) ==>
              id in t.live && t.live[id].phase == Choosing(body, None) && t.live[id].generation == Current(s)
    ensures var s, t := After(env, steps), Next(env, After(env, steps), SampleHealth(id));
            Pinned(s, id) && s.live[id].phase.Choosing? && s.live[id].phase.sampled.None? ==>
              && id in t.live && t.live[id].phase.Choosing? && t.live[id].phase.sampled.Some?
              && (var r, input := s.live[id], s.live[id].phase.input;
                  t.live[id].phase.sampled.value == Candidate <==>
                    && Decide(env.world, s.generations[r.generation].policy, input.request, input.decidedAt).target
                       == Candidate
                    && Healthy(s, r.generation))
  {
  }

  // ---------------------------------------------------------------- what was recorded

  /** The response the request relayed was whole: the request was selected, every chunk was kept, no error broke
      the stream, and its marker arrived or it is a plain response that ended. */
  predicate RelayedWhole(env: Env, steps: seq<Step>, id: nat) {
    var pin, answer, events := Pinning(env, steps, id), Answering(env, steps, id), Relaying(env, steps, id);
    && pin.Some? && answer.Some? && answer.value.answer.Some? && !Open(events) && Selects(env.config, pin.value.input)
    && (var input, response, k := pin.value.input, answer.value.answer.value, FirstEnding(events);
        var init := FirstRecording(env.config, input, input.catalog.value, response, answer.value.memoryBytes);
        && !GaveUp(init, events[..k]) && !OverTraceLimit(init, events[..k]) && !events[k].Broke?
        && (if response.eventStream
            then ContainsAny(Terminals(input.request.endpoint), Received(events[..k])) else events[k].Ended?))
  }

  /** What a finished request of any run hands over: at most one record, and a capture exactly if the response it
      relayed was whole. The capture then holds the body the request sent and everything its stream brought. */
  lemma CapturedExactly(env: Env, steps: seq<Step>, id: nat)
    requires id in After(env, steps).done
    ensures After(env, steps).done[id].phase.Over?
    ensures var handed := After(env, steps).done[id].phase.handed;
            && |handed| <= 1 && (handed != [] && handed[0].Capture? <==> RelayedWhole(env, steps, id))
            && (RelayedWhole(env, steps, id) ==>
                  var events := Relaying(env, steps, id);
                  && handed[0].request == Pinning(env, steps, id).value.input.body
                  && handed[0].response == Received(events[..FirstEnding(events)]))
  {
    EveryRequestIsTold(env, steps, id);
    Reachable(env, steps);
    var r, events := After(env, steps).done[id], Relaying(env, steps, id);
    if events != [] {
      var pin, answer := Pinning(env, steps, id).value, Answering(env, steps, id).value;
      assert !Open(events);
      var target := r.log[|r.log| - 1].target;
      var stream := StreamOf(env.config, pin.input, answer, target, events);
      if stream.Some? {
        var init := FirstRecording(env.config, pin.input, pin.input.catalog.value, answer.answer.value,
                                   answer.memoryBytes);
        FullCaptureExactly(init, events, ErrorClassOf(target));
        ExactlyOneRecord(init, events, ErrorClassOf(target));
      }
    }
  }
}
