/** Activating a signed route against the wall clock, and deciding requests against the monotonic one. */
module RoutePolicy {
  import opened Common
  import opened HexCodec
  import opened LivePointer
  import opened Sampling
  import opened RouteManifest

  datatype RouteTarget = Baseline | Candidate

  datatype BaselineReason =
    | PolicyAbsent | PolicyZero | PolicyExpired | PolicyNotYetValid | RouteSecretMissing
    | CandidateCredentialMissing | UnsupportedContentType | ContentEncoding | QueryString | UnsupportedRequest
    | ModelMismatch | UnsupportedCapability | ReasoningEffortMismatch | NotSampled

  /** A route in force: the signed manifest, when it ends on the monotonic clock, and its sampling key. */
  datatype ActiveRoute = ActiveRoute(
    manifest: OperatorRouteManifest,
    candidate: OperatorRouteCandidate,
    endpoint: Text,
    cohortSha256: Digest,
    deploymentSha256: Digest,
    expiresAt: int,
    secret: Digest,
    maxInFlight: nat)

  datatype RouteState = Dormant(reason: BaselineReason) | Active(route: ActiveRoute)

  datatype RoutePolicy = RoutePolicy(revision: Text, state: RouteState)

  /** What the strict request parser read from the body; the items of an input that is not a string,
      an object or an array are not counted. */
  datatype ParsedInput = ParsedInput(length: nat, items: Option<nat>)

  datatype StreamFlag = StreamAbsent | StreamFalse | StreamTrue | StreamOther

  datatype ParsedRequest = ParsedRequest(
    model: Text,
    input: Option<ParsedInput>,
    stream: StreamFlag,
    reasoningEffort: Option<ReasoningEffort>)

  datatype RouteRequest = RouteRequest(
    endpoint: RouteEndpoint,
    bodyLength: nat,
    parsed: Option<ParsedRequest>,
    isJson: bool,
    hasMultipleContentTypes: bool,
    hasContentEncoding: bool,
    hasOpenAiBeta: bool,
    queryIsEmpty: bool,
    routingCohort: Text)

  datatype RouteDecision = RouteDecision(target: RouteTarget, baselineReason: Option<BaselineReason>)

  function BaselinePolicy(): RoutePolicy {
    RoutePolicy(Ascii("openai-baseline-v1"), Dormant(PolicyAbsent))
  }

  function ValidateCommon(config: RouteStartupConfig, gatewayMaxInFlight: nat): Result<(), RouteError> {
    var _ :- Required(HexToDigest(config.signingPublicKeyHex), InvalidHex);
    var _ :- Need(1 <= |config.signingKeyId| <= MAX_KEY_ID_BYTES, KeyIdMismatch);
    Need(2 <= gatewayMaxInFlight && 0 < config.candidateMaxInFlight < gatewayMaxInFlight, CapacityReservation)
  }

  function DecodeSecret(secretHex: Option<Text>): Result<Option<Digest>, RouteError> {
    if secretHex.None? then Ok(None)
    else
      var secret :- Required(HexToDigest(secretHex.value), InvalidHex);
      Ok(Some(secret))
  }

  function CheckSecret(world: World, secret: Option<Digest>, expected: Option<Text>): Result<(), RouteError> {
    if secret.None? || expected.None? then Ok(())
    else
      var digest :- Required(HexToDigest(expected.value), InvalidHex);
      Need(world.sha256(secret.value) == digest, SecretMismatch)
  }

  function DormantReason(m: OperatorRouteManifest, secretHex: Option<Text>, apiKey: Option<Text>, wallNow: int)
    : Option<BaselineReason>
  {
    if wallNow >= m.notAfter then Some(PolicyExpired)
    else if wallNow < m.notBefore then Some(PolicyNotYetValid)
    else if m.candidateBasisPoints == 0 then Some(PolicyZero)
    else if secretHex.None? then Some(RouteSecretMissing)
    else if apiKey.None? then Some(CandidateCredentialMissing)
    else None
  }

  function FromSignedBytes(world: World, config: RouteStartupConfig, scope: RouteScope, secretHex: Option<Text>,
                           apiKey: Option<Text>, gatewayMaxInFlight: nat, wallNow: int, monotonicNow: int,
                           manifest: Text, signature: Text)
    : Result<RoutePolicy, RouteError>
  {
    var _ :- VerifySignature(world, config, manifest, signature);
    var parsed :- ParseManifest(world, config, scope, manifest);
    var m := parsed.manifest;
    var _ :- ValidateCommon(config, gatewayMaxInFlight);
    var secret :- DecodeSecret(secretHex);
    var _ :- CheckSecret(world, secret, m.routeSecretSha256);
    var revision := Hex(parsed.publication.revision);
    var dormant := DormantReason(m, secretHex, apiKey, wallNow);
    if dormant.Some? then Ok(RoutePolicy(revision, Dormant(dormant.value)))
    else
      var routeSecret :- Required(secret, SecretMissing);
      var key :- Required(apiKey, CredentialMissing);
      var candidate :- Required(m.candidate, CandidateMissing);
      var admitted :- Required(HexToDigest(candidate.candidateApiKeySha256), InvalidHex);
      var _ :- Need(world.sha256(key) == admitted, CredentialMismatch);
      var endpoint :- Required(parsed.endpoint, CandidateMissing);
      Ok(RoutePolicy(revision, Active(ActiveRoute(m, candidate, endpoint, parsed.publication.cohortSha256,
           parsed.deploymentSha256, monotonicNow + (m.notAfter - wallNow), routeSecret, config.candidateMaxInFlight))))
  }

  function StickySample(world: World, secret: Digest, cohortSha256: Digest, routingCohort: Text): U64 {
    SampleOf(world.hmac(secret, cohortSha256 + routingCohort))
  }

  /** Why the request itself cannot go to the candidate, in the order the code asks. */
  function RequestRefusal(candidate: OperatorRouteCandidate, request: RouteRequest): Option<BaselineReason> {
    if request.hasMultipleContentTypes || !request.isJson then Some(UnsupportedContentType)
    else if request.hasContentEncoding then Some(ContentEncoding)
    else if request.hasOpenAiBeta then Some(UnsupportedCapability)
    else if !request.queryIsEmpty then Some(QueryString)
    else if request.bodyLength > candidate.maxInputRequestBytes then Some(UnsupportedCapability)
    else if request.endpoint.ResponsesApi? && Responses !in candidate.supportedCapabilities then
      Some(UnsupportedCapability)
    else if request.parsed.None? then Some(UnsupportedRequest)
    else
      var parsed := request.parsed.value;
      if parsed.model != candidate.model then Some(ModelMismatch)
      else if parsed.reasoningEffort != candidate.reasoningEffort then Some(ReasoningEffortMismatch)
      else if parsed.input.Some? && parsed.input.value.items.None? then Some(UnsupportedRequest)
      else if parsed.input.Some? && (parsed.input.value.items.value > candidate.maxInputMessages
                                     || parsed.input.value.length > candidate.maxInputUtf8Bytes) then
        Some(UnsupportedCapability)
      else if parsed.stream.StreamOther? then Some(UnsupportedRequest)
      else if parsed.stream.StreamTrue? && Stream !in candidate.supportedCapabilities then Some(UnsupportedCapability)
      else None
  }

  function Decide(world: World, policy: RoutePolicy, request: RouteRequest, monotonicNow: int): RouteDecision {
    match policy.state
    case Dormant(reason) => RouteDecision(Baseline, Some(reason))
    case Active(route) =>
      if monotonicNow >= route.expiresAt then RouteDecision(Baseline, Some(PolicyExpired))
      else
        var refusal := RequestRefusal(route.candidate, request);
        var sample := StickySample(world, route.secret, route.cohortSha256, request.routingCohort);
        if refusal.Some? then RouteDecision(Baseline, refusal)
        else if !Selected(sample, route.manifest.candidateBasisPoints) then RouteDecision(Baseline, Some(NotSampled))
        else RouteDecision(Candidate, None)
  }

  // ---------------------------------------------------------------- windows

  /** Wall and monotonic clocks advancing together from the moment the policy was built. */
  function WallAt(wallNow: int, monotonicNow: int, monotonic: int): int {
    wallNow + (monotonic - monotonicNow)
  }

  /** The secret checks pass if no secret is configured, or one that decodes and is the one named, if one is. */
  lemma SecretFits(world: World, secretHex: Option<Text>, named: Option<Text>)
    requires named.Some? ==> HexToDigest(named.value).Some?
    ensures DecodeSecret(secretHex).Ok? && CheckSecret(world, DecodeSecret(secretHex).value, named).Ok? <==>
            (secretHex.Some? ==>
               && HexToDigest(secretHex.value).Some?
               && (named.Some? ==> named.value == Hex(world.sha256(HexToDigest(secretHex.value).value))))
  {
    if named.Some? && secretHex.Some? && HexToDigest(secretHex.value).Some? {
      DigestTextRoundTrip(named.value, world.sha256(HexToDigest(secretHex.value).value));
    }
  }

  /** When a policy is loaded: its manifest is signed and acceptable, the permits leave room for the baseline, and
      whatever secret and key are configured are those the manifest names, as far as it comes to comparing them. */
  lemma LoadedExactly(world: World, config: RouteStartupConfig, scope: RouteScope, secretHex: Option<Text>,
                      apiKey: Option<Text>, gatewayMaxInFlight: nat, wallNow: int, monotonicNow: int,
                      manifest: Text, signature: Text, m: OperatorRouteManifest)
    requires Encodes(world, manifest, m) && Acceptable(world, config, scope, m)
    ensures FromSignedBytes(world, config, scope, secretHex, apiKey, gatewayMaxInFlight, wallNow, monotonicNow,
                            manifest, signature).Ok? <==>
            && Signed(world, config, manifest, signature)
            && 0 < config.candidateMaxInFlight < gatewayMaxInFlight
            && (secretHex.Some? ==>
                  && HexToDigest(secretHex.value).Some?
                  && (m.candidate.Some? ==>
                        m.routeSecretSha256 == Some(Hex(world.sha256(HexToDigest(secretHex.value).value)))))
            && (m.candidate.Some? && m.notBefore <= wallNow < m.notAfter && secretHex.Some? && apiKey.Some? ==>
                  m.candidate.value.candidateApiKeySha256 == Hex(world.sha256(apiKey.value)))
  {
    AcceptedManifests(world, config, scope, manifest, m);
    SecretFits(world, secretHex, m.routeSecretSha256);
    if m.candidate.Some? && apiKey.Some? {
      DigestTextRoundTrip(m.candidate.value.candidateApiKeySha256, world.sha256(apiKey.value));
    }
  }

  /** What is loaded is signed by the configured key, and is active exactly if it is inside its window, routes
      something, and both secrets are there. It then carries what was signed: the manifest, the secret and the
      key it names, the cohort of its candidate, and an end that is the manifest's. */
  lemma ActiveExactly(world: World, config: RouteStartupConfig, scope: RouteScope, secretHex: Option<Text>,
                      apiKey: Option<Text>, gatewayMaxInFlight: nat, wallNow: int, monotonicNow: int,
                      manifest: Text, signature: Text, policy: RoutePolicy)
    requires FromSignedBytes(world, config, scope, secretHex, apiKey, gatewayMaxInFlight, wallNow, monotonicNow,
                             manifest, signature) == Ok(policy)
    ensures Signed(world, config, manifest, signature) && ParseManifest(world, config, scope, manifest).Ok?
    ensures var m := ParseManifest(world, config, scope, manifest).value.manifest;
            && Encodes(world, manifest, m) && Acceptable(world, config, scope, m)
            && policy.revision == Hex(world.sha256(manifest))
            && (policy.state.Active? <==>
                  && m.notBefore <= wallNow < m.notAfter && m.candidateBasisPoints != 0
                  && secretHex.Some? && apiKey.Some?)
            && (policy.state.Dormant? ==> DormantFor(policy.state.reason, m, secretHex, apiKey, wallNow))
            && (policy.state.Active? ==>
                  var route := policy.state.route;
                  && route.manifest == m && m.candidate == Some(route.candidate)
                  && m.routeSecretSha256.Some? && HexToDigest(secretHex.value) == Some(route.secret)
                  && HexToDigest(m.routeSecretSha256.value) == Some(world.sha256(route.secret))
                  && HexToDigest(route.candidate.candidateApiKeySha256) == Some(world.sha256(apiKey.value))
                  && route.cohortSha256 == world.sha256(world.candidateToJson(route.candidate))
                  && route.endpoint == route.candidate.apiBaseUrl
                  && WallAt(wallNow, monotonicNow, route.expiresAt) == m.notAfter
                  && 0 < route.maxInFlight == config.candidateMaxInFlight < gatewayMaxInFlight)
  {
    var m := ParseManifest(world, config, scope, manifest).value.manifest;
    AcceptedManifests(world, config, scope, manifest, m);
  }

  /** The reason a loaded policy gives for being dormant is a true one. */
  predicate DormantFor(reason: BaselineReason, m: OperatorRouteManifest, secretHex: Option<Text>,
                       apiKey: Option<Text>, wallNow: int)
  {
    match reason
    case PolicyExpired => m.notAfter <= wallNow
    case PolicyNotYetValid => wallNow < m.notBefore
    case PolicyZero => m.candidateBasisPoints == 0
    case RouteSecretMissing => secretHex.None?
    case CandidateCredentialMissing => apiKey.None?
    case _ => false
  }

  // ---------------------------------------------------------------- decisions

  /** What a candidate can be asked: a plain JSON request for its model and effort, within its limits and its
      capabilities. */
  predicate Eligible(c: OperatorRouteCandidate, request: RouteRequest) {
    && request.isJson && !request.hasMultipleContentTypes && !request.hasContentEncoding
    && !request.hasOpenAiBeta && request.queryIsEmpty && request.bodyLength <= c.maxInputRequestBytes
    && (request.endpoint.ResponsesApi? ==> Responses in c.supportedCapabilities)
    && request.parsed.Some?
    && (var parsed := request.parsed.value;
        && parsed.model == c.model && parsed.reasoningEffort == c.reasoningEffort
        && (parsed.input.Some? ==>
              && parsed.input.value.items.Some? && parsed.input.value.items.value <= c.maxInputMessages
              && parsed.input.value.length <= c.maxInputUtf8Bytes)
        && !parsed.stream.StreamOther?
        && (parsed.stream.StreamTrue? ==> Stream in c.supportedCapabilities))
  }

  /** The first eight bytes of a keyed digest, as a number. */
  function Prefix64(tag: Digest): int {
    0x100_0000_0000_0000 * (tag[0] as int) + 0x1_0000_0000_0000 * (tag[1] as int) + 0x100_0000_0000 * (tag[2] as int)
    + 0x1_0000_0000 * (tag[3] as int) + 0x100_0000 * (tag[4] as int) + 0x1_0000 * (tag[5] as int)
    + 0x100 * (tag[6] as int) + (tag[7] as int)
  }

  lemma SampleIsPrefix(tag: Digest)
    ensures SampleOf(tag) == Prefix64(tag)
  {
    BigEndianSteps(tag, 1);
    BigEndianSteps(tag, 2);
    BigEndianSteps(tag, 3);
    BigEndianSteps(tag, 4);
    BigEndianSteps(tag, 5);
    BigEndianSteps(tag, 6);
    BigEndianSteps(tag, 7);
    BigEndianSteps(tag, 8);
  }

  lemma BigEndianSteps(tag: Digest, n: nat)
    requires 1 <= n <= 8
    ensures BigEndian(tag[..n]) == 256 * BigEndian(tag[..n - 1]) + tag[n - 1]
  {
    assert tag[..n][..n - 1] == tag[..n - 1];
  }

  /** Who goes to the candidate: exactly the eligible requests, before the route ends, whose cohort falls, under
      the route's secret, into the route's share of all samples. */
  lemma RoutedExactly(world: World, policy: RoutePolicy, request: RouteRequest, monotonicNow: int)
    ensures Decide(world, policy, request, monotonicNow).target == Candidate <==>
            && policy.state.Active?
            && (var route := policy.state.route;
                && monotonicNow < route.expiresAt && Eligible(route.candidate, request)
                && (Prefix64(world.hmac(route.secret, route.cohortSha256 + request.routingCohort)) + 1) * 10_000
                   <= route.manifest.candidateBasisPoints * 0x1_0000_0000_0000_0000)
    ensures Decide(world, policy, request, monotonicNow).baselineReason.None?
            <==> Decide(world, policy, request, monotonicNow).target == Candidate
  {
    if policy.state.Active? {
      SampleIsPrefix(world.hmac(policy.state.route.secret, policy.state.route.cohortSha256 + request.routingCohort));
    }
  }

  /** Every reason for the baseline is a true one. */
  lemma ReasonsAreTrue(world: World, policy: RoutePolicy, request: RouteRequest, monotonicNow: int)
    requires policy.state.Active? && Decide(world, policy, request, monotonicNow).target == Baseline
    ensures var c, parsed := policy.state.route.candidate, request.parsed;
            match Decide(world, policy, request, monotonicNow).baselineReason.value
            case PolicyExpired => policy.state.route.expiresAt <= monotonicNow
            case UnsupportedContentType => request.hasMultipleContentTypes || !request.isJson
            case ContentEncoding => request.hasContentEncoding
            case QueryString => !request.queryIsEmpty
            case UnsupportedRequest =>
              parsed.None? || parsed.value.stream.StreamOther?
              || (parsed.value.input.Some? && parsed.value.input.value.items.None?)
            case ModelMismatch => parsed.Some? && parsed.value.model != c.model
            case ReasoningEffortMismatch => parsed.Some? && parsed.value.reasoningEffort != c.reasoningEffort
            case UnsupportedCapability =>
              || request.hasOpenAiBeta || request.bodyLength > c.maxInputRequestBytes
              || (request.endpoint.ResponsesApi? && Responses !in c.supportedCapabilities)
              || (parsed.Some? && parsed.value.stream.StreamTrue? && Stream !in c.supportedCapabilities)
              || (parsed.Some? && parsed.value.input.Some? && parsed.value.input.value.items.Some?
                  && (parsed.value.input.value.items.value > c.maxInputMessages
                      || parsed.value.input.value.length > c.maxInputUtf8Bytes))
            case NotSampled => Eligible(c, request) && monotonicNow < policy.state.route.expiresAt
            case _ => false
  {
  }

  /** A candidate decision happens only while the wall clock is inside the signed window, and never for a
      route of zero basis points. */
  lemma CandidateOnlyInsideWindow(world: World, config: RouteStartupConfig, scope: RouteScope,
                                  secretHex: Option<Text>, apiKey: Option<Text>, gatewayMaxInFlight: nat,
                                  wallNow: int, monotonicNow: int, manifest: Text, signature: Text,
                                  policy: RoutePolicy, request: RouteRequest, monotonic: int)
    requires FromSignedBytes(world, config, scope, secretHex, apiKey, gatewayMaxInFlight, wallNow, monotonicNow,
                             manifest, signature) == Ok(policy)
    requires monotonicNow <= monotonic
    requires Decide(world, policy, request, monotonic).target == Candidate
    ensures ParseManifest(world, config, scope, manifest).Ok?
    ensures var m := ParseManifest(world, config, scope, manifest).value.manifest;
            && m.notBefore <= WallAt(wallNow, monotonicNow, monotonic) < m.notAfter
            && m.candidateBasisPoints != 0 && m.candidate.Some?
  {
    ActiveExactly(world, config, scope, secretHex, apiKey, gatewayMaxInFlight, wallNow, monotonicNow, manifest,
                  signature, policy);
  }

  /** A candidate route that was prepared and then signed goes into force: at every instant from its preparation
      until it expires it loads, under the configuration it was prepared with, as an active route to the
      proposal's candidate at the proposal's share, sampled with the operator's secret. */
  lemma PreparedRouteLoads(world: World, config: RouteStartupConfig, scope: RouteScope, proposalBytes: Text,
                           secretHex: Option<Text>, apiKey: Option<Text>, previous: Option<RoutePublication>, now: int,
                           signature: Text, gatewayMaxInFlight: nat, wallNow: int, monotonicNow: int)
    returns (policy: RoutePolicy)
    requires Lawful(world) && 0 < config.candidateMaxInFlight < gatewayMaxInFlight
    requires Prepare(world, config, scope, proposalBytes, secretHex, apiKey, previous, now, false).Ok?
    requires ParseProposal(world, config, scope, proposalBytes).value.candidateBasisPoints != 0
    requires var (bytes, publication) :=
               Prepare(world, config, scope, proposalBytes, secretHex, apiKey, previous, now, false).value;
             Signed(world, config, bytes, signature) && now <= wallNow < publication.notAfter
    ensures var (bytes, publication) :=
              Prepare(world, config, scope, proposalBytes, secretHex, apiKey, previous, now, false).value;
            && FromSignedBytes(world, config, scope, secretHex, apiKey, gatewayMaxInFlight, wallNow, monotonicNow,
                               bytes, signature) == Ok(policy)
            && policy.revision == Hex(publication.revision) == Hex(world.sha256(bytes)) && policy.state.Active?
    ensures var proposal, route := ParseProposal(world, config, scope, proposalBytes).value, policy.state.route;
            && CopiesProposal(world, proposal, apiKey, route.candidate)
            && route.manifest.candidateBasisPoints == proposal.candidateBasisPoints
            && HexToDigest(secretHex.value) == Some(route.secret)
  {
    var m := PreparedManifest(world, config, scope, proposalBytes, secretHex, apiKey, previous, now, false);
    var bytes := world.manifestToJson(m);
    PreparesExactly(world, config, scope, proposalBytes, secretHex, apiKey, previous, now, false, m);
    DraftIsAcceptable(world, config, scope, proposalBytes, secretHex, apiKey, previous, now, false, m);
    AcceptedManifests(world, config, scope, bytes, m);
    AcceptedPublications(world, config, scope, bytes, None, Some(now));
    LoadedExactly(world, config, scope, secretHex, apiKey, gatewayMaxInFlight, wallNow, monotonicNow, bytes, signature,
                  m);
    policy := FromSignedBytes(world, config, scope, secretHex, apiKey, gatewayMaxInFlight, wallNow, monotonicNow,
                              bytes, signature).value;
    ActiveExactly(world, config, scope, secretHex, apiKey, gatewayMaxInFlight, wallNow, monotonicNow, bytes, signature,
                  policy);
  }

  function Decisions(world: World, policy: RoutePolicy, calls: seq<(RouteRequest, int)>): (r: seq<RouteDecision>)
    ensures |r| == |calls|
    ensures forall i :: 0 <= i < |calls| ==> r[i] == Decide(world, policy, calls[i].0, calls[i].1)
  {
    seq(|calls|, i requires 0 <= i < |calls| => Decide(world, policy, calls[i].0, calls[i].1))
  }

  /** Over any later calls in clock order, the first answer of expiry is final: from then on no request
      reaches the candidate. */
  lemma ExpiryIsFinal(world: World, policy: RoutePolicy, calls: seq<(RouteRequest, int)>, seen: int, later: int)
    requires forall i, j :: 0 <= i <= j < |calls| ==> calls[i].1 <= calls[j].1
    requires 0 <= seen <= later < |calls|
    requires Decisions(world, policy, calls)[seen].baselineReason == Some(PolicyExpired)
    ensures Decisions(world, policy, calls)[later] == RouteDecision(Baseline, Some(PolicyExpired))
  {
  }

  // ---------------------------------------------------------------- cohorts

  /** A signed policy as a gateway came by it. */
  datatype Loading = Loading(secretHex: Option<Text>, apiKey: Option<Text>, gatewayMaxInFlight: nat, wallNow: int,
                             monotonicNow: int, manifest: Text, signature: Text)

  predicate Loads(world: World, config: RouteStartupConfig, scope: RouteScope, signed: Loading, policy: RoutePolicy) {
    FromSignedBytes(world, config, scope, signed.secretHex, signed.apiKey, signed.gatewayMaxInFlight, signed.wallNow,
                    signed.monotonicNow, signed.manifest, signed.signature) == Ok(policy)
  }

  lemma LoadedCohort(world: World, config: RouteStartupConfig, scope: RouteScope, signed: Loading, policy: RoutePolicy)
    requires Loads(world, config, scope, signed, policy) && policy.state.Active?
    ensures var route := policy.state.route;
            route.cohortSha256 == world.sha256(world.candidateToJson(route.candidate))
  {
    ActiveExactly(world, config, scope, signed.secretHex, signed.apiKey, signed.gatewayMaxInFlight, signed.wallNow,
                  signed.monotonicNow, signed.manifest, signed.signature, policy);
  }

  /** Two published routes for the same candidate object under the same secret, whatever else differs: who was
      routed at the smaller share is still routed at the larger one, for as long as that has not expired. */
  lemma CohortsAreNested(world: World, config: RouteStartupConfig, scope: RouteScope, first: Loading, second: Loading,
                         smaller: RoutePolicy, larger: RoutePolicy, request: RouteRequest, monotonic: int)
    requires Loads(world, config, scope, first, smaller) && Loads(world, config, scope, second, larger)
    requires smaller.state.Active? && larger.state.Active?
    requires var (a, b) := (smaller.state.route, larger.state.route);
             && a.candidate == b.candidate && a.secret == b.secret
             && a.manifest.candidateBasisPoints <= b.manifest.candidateBasisPoints
             && monotonic < b.expiresAt
    ensures Decide(world, smaller, request, monotonic).target == Candidate ==>
              Decide(world, larger, request, monotonic).target == Candidate
  {
    LoadedCohort(world, config, scope, first, smaller);
    LoadedCohort(world, config, scope, second, larger);
    var a, b := smaller.state.route, larger.state.route;
    var sample := StickySample(world, a.secret, a.cohortSha256, request.routingCohort);
    MoreBasisPointsSelectMore(sample, a.manifest.candidateBasisPoints, b.manifest.candidateBasisPoints);
  }
}
