/** `proxy_openai` as the code runs it for one request on its own: the target and the candidate permit are
    variables that change on the way, and the pinned route's permits and health flag are shared state. Its
    outcome is the segments of a request put one after the other. */
module ProxyFlow {
  import opened Common
  import opened RouteManifest
  import opened RoutePolicy
  import opened Admission
  import opened ProxyRequest

  class CandidateClient {
    const capacity: nat
    var free: nat
    var healthy: bool

    constructor (capacity: nat)
      ensures Transport() == CandidateTransport(capacity, capacity, true)
    {
      this.capacity, free, healthy := capacity, capacity, true;
    }

    ghost function Transport(): CandidateTransport
      reads this
    {
      CandidateTransport(capacity, free, healthy)
    }
  }

  ghost function Runtime(policy: RoutePolicy, candidate: CandidateClient?): RouteRuntime
    reads candidate
  {
    RouteRuntime(policy, if candidate == null then None else Some(candidate.Transport()))
  }

  /** The segment after an upstream answer, if one is awaited. */
  function Continued(config: GatewayConfig, start: Outcome, answer: AnswerInput): Outcome {
    if !start.request.phase.Awaiting? then start
    else
      var next := Answered(config, start.request, answer);
      Outcome(next.request, start.fuse || next.fuse)
  }

  function Exchanged(config: GatewayConfig, start: Outcome, first: AnswerInput, second: AnswerInput): Outcome {
    Continued(config, Continued(config, start, first), second)
  }

  /** Choose the target and take a candidate permit if it is the candidate. */
  method Choose(world: World, policy: RoutePolicy, candidate: CandidateClient?, input: BodyInput)
    returns (target: RouteTarget)
    modifies candidate
    ensures target == Chosen(world, old(Runtime(policy, candidate)), input)
    ensures target == Candidate <==>
              && Decide(world, policy, input.request, input.decidedAt).target == Candidate
              && candidate != null && old(candidate.healthy) && old(candidate.free) > 0
    ensures candidate != null ==> candidate.healthy == old(candidate.healthy)
                                  && candidate.free == old(candidate.free) - (if target == Candidate then 1 else 0)
  {
    target := Decide(world, policy, input.request, input.decidedAt).target;
    if target == Candidate && (candidate == null || !candidate.healthy) {
      target := Baseline;
    }
    if target == Candidate {
      if candidate.free > 0 {
        candidate.free := candidate.free - 1;
      } else {
        target := Baseline;
      }
    }
  }

  /** The rest of the function once an upstream answered, for whichever target it was. */
  method Respond(config: GatewayConfig, candidate: CandidateClient?, r: Request, target: RouteTarget,
                 input: AnswerInput)
    returns (after: Request)
    requires target == Candidate ==> candidate != null && r.permit
    requires target == Baseline ==> !r.permit
    modifies candidate
    ensures after == Conclude(config, r, target, input).request && !after.phase.Awaiting?
    ensures after.phase.Streaming? ==>
              && input.answer.Some? && (after.phase.stream.Some? <==> r.catalog.Some?)
              && (r.catalog.Some? ==>
                    (after.phase.stream.value.recording.protocol.Some? <==> input.answer.value.eventStream))
    ensures candidate != null ==>
              && candidate.healthy == (old(candidate.healthy) && !Conclude(config, r, target, input).fuse)
              && candidate.free == old(candidate.free) + (if r.permit && !after.permit then 1 else 0)
  {
    var code := "";
    if input.answer.None? {
      code := if target == Candidate then "candidate_unavailable" else "upstream_unavailable";
    } else if Redirection(input.answer.value.status) {
      code := "upstream_redirect_rejected";
    } else {
      if target == Candidate && CandidateHealthFailure(input.answer.value.status) {
        candidate.healthy := false;
      }
      if !ValidStatus(input.answer.value.status) {
        code := "invalid_upstream_status";
      } else if !HeadersValid(target, input.answer.value) {
        code := "invalid_upstream_headers";
      }
    }
    if code != "" {
      if target == Candidate {
        candidate.healthy := false;
        candidate.free := candidate.free + 1;
      }
      return Ended(r, code, input.elapsed);
    }
    after := Relay(config, r, target, input.answer.value, input.memoryBytes);
  }

  /** Open the fuse, give the candidate permit back, and send the same body to the baseline. */
  method FallBackToBaseline(config: GatewayConfig, candidate: CandidateClient, r: Request, urlValid: bool, now: int,
                            elapsed: nat)
    returns (after: Request)
    requires r.permit
    modifies candidate
    ensures after == FallBack(config, r, urlValid, now, elapsed).request
    ensures !after.permit && (after.phase.Awaiting? ==> after.phase.target == Baseline)
    ensures !candidate.healthy && candidate.free == old(candidate.free) + 1
  {
    candidate.healthy := false;
    candidate.free := candidate.free + 1;
    after := r.(permit := false, log := r.log + [FuseOpened(r.generation), CandidatePermitReleased(r.generation)]);
    var deadline := if urlValid then DeadlineAt(config, after.startedAt, now) else None;
    if deadline.None? {
      return Ended(after, "upstream_unavailable", elapsed);
    }
    after := after.(phase := Awaiting(Baseline), log := after.log + [BaselineSent(after.body, deadline.value)]);
  }

  /** Send, fall back at most once, and respond. */
  method Exchange(config: GatewayConfig, candidate: CandidateClient?, routed: Request, target: RouteTarget,
                  input: BodyInput, first: AnswerInput, second: AnswerInput)
    returns (r: Request)
    requires routed.phase == Awaiting(target) && (target == Candidate <==> routed.permit) && routed.log == []
    requires target == Candidate ==> candidate != null
    modifies candidate
    ensures var done := Exchanged(config, Dispatched(config, routed, target, input), first, second);
            && r == done.request
            && (candidate != null ==>
                  && candidate.healthy == (old(candidate.healthy) && !done.fuse)
                  && candidate.free == old(candidate.free) + (if routed.permit && !r.permit then 1 else 0))
  {
    r := routed;
    var urlValid := if target == Candidate then input.candidateUrlValid else input.baselineUrlValid;
    var deadline := if urlValid then DeadlineAt(config, r.startedAt, input.sentAt) else None;
    if target == Baseline {
      if deadline.None? {
        return Ended(r, "upstream_unavailable", input.elapsed);
      }
      r := r.(log := [BaselineSent(r.body, deadline.value)]);
      r := Respond(config, candidate, r, target, first);
      return;
    }
    var sent := deadline.Some?;
    if sent {
      r := r.(log := [CandidateSent(r.generation, r.body, deadline.value)]);
      if first.answer.Some? && !RequiresFallback(first.answer.value) {
        r := Respond(config, candidate, r, target, first);
        return;
      }
    }
    r := FallBackToBaseline(config, candidate, r, if sent then first.baselineUrlValid else input.baselineUrlValid,
                            if sent then first.now else input.fallbackAt,
                            if sent then first.elapsed else input.elapsed);
    if r.phase.Awaiting? {
      r := Respond(config, candidate, r, Baseline, if sent then second else first);
    }
  }

  /** Pinning, sampling and starting in one go is routing to the chosen target and sending. */
  lemma ReadAtOnce(config: GatewayConfig, world: World, runtime: RouteRuntime, generation: nat, r: Request,
                   input: BodyInput)
    ensures var target := Chosen(world, runtime, input);
            var routed := Routed(config, target, generation, r, input);
            (BodyRead(config, world, runtime, generation, r, input) ==
             if HeadersForwardable(target, input) then Dispatched(config, routed, target, input)
             else Outcome(Ended(routed, "invalid_request_headers", input.elapsed), false))
  {
    var pinned := PinnedTo(generation, r, input);
    assert Routed(config, Chosen(world, runtime, input), generation, HealthSampled(world, runtime, pinned), input)
        == Routed(config, Chosen(world, runtime, input), generation, r, input);
  }

  /** From the end of the body to the relayed response or the error: exactly the segments the request goes
      through, on the runtime as it stood when the target was chosen. */
  method ProxyOpenai(config: GatewayConfig, world: World, policy: RoutePolicy, candidate: CandidateClient?,
                     generation: nat, arrived: Request, input: BodyInput, first: AnswerInput, second: AnswerInput)
    returns (r: Request)
    modifies candidate
    ensures var read := BodyRead(config, world, old(Runtime(policy, candidate)), generation, arrived, input);
            var done := Exchanged(config, read, first, second);
            && r == done.request
            && (candidate != null ==>
                  && candidate.healthy == (old(candidate.healthy) && !done.fuse)
                  && candidate.free == old(candidate.free) - (if r.permit then 1 else 0))
  {
    ReadAtOnce(config, world, Runtime(policy, candidate), generation, arrived, input);
    var target := Choose(world, policy, candidate, input);
    var routed := Routed(config, target, generation, arrived, input);
    if !HeadersForwardable(target, input) {
      if target == Candidate {
        candidate.free := candidate.free + 1;
      }
      return Ended(routed, "invalid_request_headers", input.elapsed);
    }
    r := Exchange(config, candidate, routed, target, input, first, second);
  }
}
