/** What the gateway decides at each step of a request, told exactly and in plain terms for every reachable state:
    whom it lets in, whom it sends a body to, and which answers it passes on. */
module GatewayChoices {
  import opened Common
  import opened TraceRecording
  import opened ResponseStream
  import opened RouteManifest
  import opened RoutePolicy
  import opened Admission
  import opened ProxyRequest
  import opened Gateway
  import opened GatewaySafety
  import opened GatewayHistory

  /** A request is let in exactly if there is room, and one that leaves makes room. */
  lemma AdmittedExactly(env: Env, steps: seq<Step>, id: nat, endpoint: RouteEndpoint, elapsed: nat)
    ensures var s := After(env, steps);
            var t := Next(env, s, Arrive(id, endpoint));
            && (id in t.live <==> id in s.live || (id !in s.done && |s.live| < env.config.maxInFlight))
            && (id in t.live && id !in s.live ==> t.live[id].phase == ReadingBody(0) && t.live[id].endpoint == endpoint)
    ensures var s := After(env, steps);
            var t := Next(env, s, Leave(id, elapsed));
            id in s.live && !s.live[id].phase.Choosing? ==>
              id !in t.live && id in t.done && t.gatewayFree == s.gatewayFree + 1
  {
    Reachable(env, steps);
  }

  /** So is an outcome request; and one whose body grows over its limit is dropped. */
  lemma OutcomeAdmittedExactly(env: Env, steps: seq<Step>, id: nat, bytes: nat)
    ensures var held := After(env, steps).outcomes.held;
            && (id in Next(env, After(env, steps), OutcomeArrive(id)).outcomes.held
                <==> id in held || |held| < env.config.maxOutcomesInFlight)
            && (id in Next(env, After(env, steps), OutcomeBuffer(id, bytes)).outcomes.held
                <==> id in held && held[id] + bytes <= env.config.captureRecordBytes)
            && id !in Next(env, After(env, steps), OutcomeLeave(id)).outcomes.held
  {
    Reachable(env, steps);
  }

  /** A body is read up to the limit, and one that grows over it ends its request. */
  lemma BodyLimitExactly(env: Env, steps: seq<Step>, id: nat, bytes: nat)
    requires var s := After(env, steps); id in s.live && s.live[id].phase.ReadingBody?
    ensures var s := After(env, steps);
            var t, n := Next(env, s, BufferBody(id, bytes)), s.live[id].phase.buffered + bytes;
            if n <= env.config.maxRequestBytes then id in t.live && t.live[id] == s.live[id].(phase := ReadingBody(n))
            else id in t.done && id !in t.live
  {
    Reachable(env, steps);
  }

  // ---------------------------------------------------------------- sending

  predicate InTime(config: GatewayConfig, startedAt: int, now: int) {
    now < startedAt + config.totalTimeout
  }

  /** What came of sending a body: nothing, or a send to the baseline, directly or after the candidate could not
      even be sent to. */
  predicate Sent(config: GatewayConfig, r: Request, failed: bool, toBaseline: bool, code: string, elapsed: nat) {
    var fallback := if failed then [FuseOpened(r.generation), CandidatePermitReleased(r.generation)] else [];
    if toBaseline then
      && r.phase == Awaiting(Baseline) && !r.permit
      && r.log == fallback + [BaselineSent(r.body, r.startedAt + config.totalTimeout)]
    else r.log == fallback && EndedWith(r, r.catalog, code, elapsed)
  }

  /** The request is over without a response; its record, if there are records, says why. */
  predicate EndedWith(r: Request, catalog: Option<Catalog>, code: string, elapsed: nat) {
    && r.phase.Over? && !r.permit
    && (catalog.None? ==> r.phase.handed == [])
    && (catalog.Some? ==>
          r.phase.handed
          == [Observation(catalog.value.(errorClass := Some(code), completionMs := Some(elapsed)), Interrupted)])
  }

  /** Where a request goes. One that `goes` to the candidate is sent there if the headers can be forwarded, the
      address can be built and the request is in time; if only the last two fail it is given up for the baseline; and
      every other request goes to the baseline if it can go at all. */
  predicate SentAs(config: GatewayConfig, g: nat, input: BodyInput, goes: bool, r: Request) {
    var inTime, unavailable := InTime(config, input.startedAt, input.sentAt), "upstream_unavailable";
    && r.generation == g && r.body == input.body && r.startedAt == input.startedAt && r.catalog == input.catalog
    && if !input.baselineHeadersValid || (goes && !input.candidateHeadersValid) then
         Sent(config, r, false, false, "invalid_request_headers", input.elapsed)
       else if !goes then Sent(config, r, false, input.baselineUrlValid && inTime, unavailable, input.elapsed)
       else if input.candidateUrlValid && inTime then
         && r.phase == Awaiting(Candidate) && r.permit
         && r.log == [CandidateSent(g, input.body, input.startedAt + config.totalTimeout)]
       else
         Sent(config, r, true, input.baselineUrlValid && InTime(config, input.startedAt, input.fallbackAt), unavailable,
              input.elapsed)
  }

  lemma StartedExactly(config: GatewayConfig, runtime: RouteRuntime, r: Request)
    requires r.phase.Choosing? && r.phase.sampled.Some? && RequestOk(config, r)
    ensures SentAs(config, r.generation, r.phase.input, Acquired(runtime, r.phase.sampled.value) == Candidate,
                   Started(config, runtime, r).request)
  {
    var input, target := r.phase.input, Acquired(runtime, r.phase.sampled.value);
    var routed := Routed(config, target, r.generation, r, input);
    var fallback := [FuseOpened(r.generation), CandidatePermitReleased(r.generation)];
    assert [] + fallback == fallback;
  }

  /** A request goes to the candidate exactly if that was sampled and one of the generation's permits is free. */
  lemma SentExactly(env: Env, steps: seq<Step>, id: nat)
    requires var s := After(env, steps); id in s.live && s.live[id].phase.Choosing? && s.live[id].phase.sampled.Some?
    ensures var s, t := After(env, steps), Next(env, After(env, steps), Dispatch(id));
            var g, input := s.live[id].generation, s.live[id].phase.input;
            var goes := s.live[id].phase.sampled == Some(Candidate)
                        && |Holders(s.live, g)| < env.config.route.candidateMaxInFlight;
            RequestOf(t, id).Some? && SentAs(env.config, g, input, goes, RequestOf(t, id).value)
  {
    Reachable(env, steps);
    var s := After(env, steps);
    var r := s.live[id];
    LiveIsOk(env, s, id);
    AcquiredExactly(env, steps, id);
    StartedExactly(env.config, s.generations[r.generation], r);
    PutGives(s, id, r.generation, Started(env.config, s.generations[r.generation], r), id);
  }

  lemma AcquiredExactly(env: Env, steps: seq<Step>, id: nat)
    requires var s := After(env, steps); id in s.live && s.live[id].phase.Choosing? && s.live[id].phase.sampled.Some?
    ensures var s := After(env, steps);
            var r := s.live[id];
            && r.generation < |s.generations|
            && (Acquired(s.generations[r.generation], r.phase.sampled.value) == Candidate <==>
                  r.phase.sampled.value == Candidate
                  && |Holders(s.live, r.generation)| < env.config.route.candidateMaxInFlight)
  {
    Reachable(env, steps);
    EveryRequestIsTold(env, steps, id);
    var s := After(env, steps);
    var r := s.live[id];
    LiveIsOk(env, s, id);
    assert RequestOf(s, id) == Some(r);
    assert RuntimeOk(env.config, s.live, r.generation, s.generations[r.generation]);
  }

  /** A request that read the health flag in time is not called back: with a permit and a sendable candidate it
      sends, whatever became of the fuse meanwhile. */
  lemma SampledHealthStillSends(env: Env, past: seq<Step>, id: nat)
    requires var s := After(env, past);
             && id in s.live && Trusts(s, id, s.live[id].generation)
             && |Holders(s.live, s.live[id].generation)| < env.config.route.candidateMaxInFlight
             && (var input := s.live[id].phase.input;
                 && input.baselineHeadersValid && input.candidateHeadersValid && input.candidateUrlValid
                 && InTime(env.config, input.startedAt, input.sentAt))
    ensures var s := After(env, past);
            var log := LogOf(Next(env, s, Dispatch(id)), id);
            |log| == 1 && log[0].CandidateSent? && log[0].generation == s.live[id].generation
  {
    SentExactly(env, past, id);
  }

  // ---------------------------------------------------------------- answers

  /** An answer that can be passed on: a valid status that is no redirection, with valid headers; from the candidate,
      none that speaks of its own failure either. */
  predicate Fit(target: RouteTarget, response: UpstreamResponse) {
    && 100 <= response.status < 1000 && !(300 <= response.status < 400)
    && match target
       case Baseline => response.baselineHeadersValid
       case Candidate =>
         && response.candidateHeadersValid && !(500 <= response.status < 600)
         && response.status !in {401, 403, 404, 408, 429}
  }

  /** What becomes of an answer. A fit one is relayed, from whichever upstream it came. Anything else from the
      candidate sends the same body to the baseline, if that can still be done in time; and otherwise the request is
      over. */
  predicate AnsweredAs(config: GatewayConfig, before: Request, answer: AnswerInput, r: Request)
    requires before.phase.Awaiting?
  {
    var target, g := before.phase.target, before.generation;
    if answer.answer.Some? && Fit(target, answer.answer.value) then
      r.phase.Streaming? && r.phase.target == target && r.log == before.log + [Relayed(target, answer.answer.value)]
    else if target == Candidate && answer.baselineUrlValid && InTime(config, before.startedAt, answer.now) then
      && r.phase == Awaiting(Baseline) && !r.permit
      && r.log == before.log + [FuseOpened(g), CandidatePermitReleased(g),
                                BaselineSent(before.body, before.startedAt + config.totalTimeout)]
    else EndedWith(r, before.catalog, Cause(target, answer.answer), answer.elapsed) && !RelayedLast(r)
  }

  /** Why a request ends on an answer. A candidate is not blamed: its request ends because the baseline cannot be
      tried. */
  function Cause(target: RouteTarget, answer: Option<UpstreamResponse>): string {
    if target == Candidate || answer.None? then "upstream_unavailable"
    else if 300 <= answer.value.status < 400 then "upstream_redirect_rejected"
    else if 100 <= answer.value.status < 1000 then "invalid_upstream_headers"
    else "invalid_upstream_status"
  }

  lemma AnsweredIsExact(config: GatewayConfig, r: Request, answer: AnswerInput)
    requires r.phase.Awaiting? && RequestOk(config, r)
    ensures AnsweredAs(config, r, answer, Answered(config, r, answer).request)
    ensures r.phase.target == Candidate ==>
              (Answered(config, r, answer).fuse <==> !(answer.answer.Some? && Fit(Candidate, answer.answer.value)))
  {
    NotRelayedYet(config, r);
    var sent := BaselineSent(r.body, r.startedAt + config.totalTimeout);
    assert r.log + FallbackEvents(r) + [sent]
        == r.log + [FuseOpened(r.generation), CandidatePermitReleased(r.generation), sent];
  }

  /** The candidate keeps its health exactly if its answer was fit. */
  lemma AnsweredExactly(env: Env, steps: seq<Step>, id: nat, answer: AnswerInput)
    requires var s := After(env, steps); id in s.live && s.live[id].phase.Awaiting?
    ensures var s, t := After(env, steps), Next(env, After(env, steps), Answer(id, answer));
            var before, g := s.live[id], s.live[id].generation;
            && RequestOf(t, id).Some? && AnsweredAs(env.config, before, answer, RequestOf(t, id).value)
            && (before.phase.target == Candidate ==>
                  (Healthy(t, g) <==> Healthy(s, g) && answer.answer.Some? && Fit(Candidate, answer.answer.value)))
  {
    Reachable(env, steps);
    var s := After(env, steps);
    var r := s.live[id];
    LiveIsOk(env, s, id);
    AnsweredIsExact(env.config, r, answer);
    PutGives(s, id, r.generation, Answered(env.config, r, answer), id);
  }

  // ---------------------------------------------------------------- the fuse

  lemma PutHealth(s: State, id: nat, pinned: nat, outcome: Outcome, g: nat)
    requires id in s.live && pinned < |s.generations| && g < |s.generations|
    ensures Healthy(Put(s, id, pinned, outcome), g) <==> Healthy(s, g) && !(g == pinned && outcome.fuse)
  {
  }

  lemma DispatchFuse(env: Env, s: State, id: nat, g: nat)
    requires Inv(env, s) && g < |s.generations|
    ensures Healthy(Next(env, s, Dispatch(id)), g) <==>
            Healthy(s, g) && !(Unsendable(env, s, id) && s.live[id].generation == g)
  {
    if Pinned(s, id) && s.live[id].phase.Choosing? && s.live[id].phase.sampled.Some? {
      var r := s.live[id];
      PutHealth(s, id, r.generation, Started(env.config, s.generations[r.generation], r), g);
    }
  }

  lemma AnswerFuse(env: Env, s: State, id: nat, answer: AnswerInput, g: nat)
    requires Inv(env, s) && g < |s.generations|
    ensures Healthy(Next(env, s, Answer(id, answer)), g) <==>
            Healthy(s, g) && !(id in s.live && UnfitAnswer(s.live[id], answer) && s.live[id].generation == g)
  {
    if Pinned(s, id) && s.live[id].phase.Awaiting? {
      var r := s.live[id];
      LiveIsOk(env, s, id);
      AnsweredIsExact(env.config, r, answer);
      PutHealth(s, id, r.generation, Answered(env.config, r, answer), g);
    } else if id in s.live {
      LiveIsOk(env, s, id);
    }
  }

  lemma PollFuse(env: Env, s: State, id: nat, event: StreamEvent, g: nat)
    requires Inv(env, s) && g < |s.generations|
    ensures Healthy(Next(env, s, Poll(id, event)), g) <==>
            Healthy(s, g) && !(CandidateFails(env, s, Poll(id, event)) && s.live[id].generation == g)
  {
    if Pinned(s, id) && s.live[id].phase.Streaming? && !event.Dropped? {
      PutHealth(s, id, s.live[id].generation, Polled(s.live[id], event), g);
    } else if id in s.live {
      LiveIsOk(env, s, id);
    }
  }

  lemma OtherStepsKeepHealth(env: Env, s: State, step: Step, g: nat)
    requires Inv(env, s) && g < |s.generations| && !step.Dispatch? && !step.Answer? && !step.Poll?
    ensures Healthy(Next(env, s, step), g) <==> Healthy(s, g)
  {
    if step.Leave? {
      if Pinned(s, step.id) && !s.live[step.id].phase.Choosing? {
        PutHealth(s, step.id, s.live[step.id].generation, Outcome(Left(s.live[step.id], step.elapsed), false), g);
      }
    } else {
      NoOtherGenerationChanges(env, s, step, g);
    }
  }

  /** A fuse opens exactly when its candidate fails a request: it cannot be sent to, does not answer fit, or breaks
      its stream. Nothing else opens one, and nothing closes one. */
  lemma FuseOpensExactly(env: Env, past: seq<Step>, step: Step, g: nat)
    requires g < |After(env, past).generations|
    ensures var s := After(env, past);
            Healthy(Next(env, s, step), g) <==>
              Healthy(s, g) && !(CandidateFails(env, s, step) && s.live[step.id].generation == g)
  {
    Reachable(env, past);
    var s := After(env, past);
    match step
    case Dispatch(id) => DispatchFuse(env, s, id, g);
    case Answer(id, answer) => AnswerFuse(env, s, id, answer, g);
    case Poll(id, event) => PollFuse(env, s, id, event, g);
    case _ => OtherStepsKeepHealth(env, s, step, g);
  }
}
