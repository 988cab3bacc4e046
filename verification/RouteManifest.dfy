/** Operator route manifests: preparing one from a proposal, parsing it for publication, and checking
    that a signed one is bound to the exact stored proposal. */
module RouteManifest {
  import opened Common
  import opened HexCodec
  import opened LivePointer
  import opened Sampling

  const MAX_ROUTE_MANIFEST_BYTES := 8 * 1024
  const ED25519_SIGNATURE_BYTES := 64
  const MAX_KEY_ID_BYTES := 128
  const MAX_EXECUTION_ID_BYTES := 256
  const MAX_MODEL_BYTES := 256
  const MAX_CAPABILITIES := 8
  const CANDIDATE_MAX_INPUT_UTF8_BYTES := 2_048
  const CANDIDATE_MAX_INPUT_MESSAGES := 16
  const CANDIDATE_MAX_INPUT_REQUEST_BYTES := 16_384

  // Instants and durations are nanoseconds; the last instant chrono can represent ends year 262142.
  const SECOND := 1_000_000_000
  const MINUTE := 60 * SECOND
  const HOUR := 60 * MINUTE
  const OPERATOR_CANDIDATE_VALID_FOR := 15 * MINUTE
  const OPERATOR_ZERO_VALID_FOR := 60 * SECOND
  const MAX_ROUTE_VALIDITY := 24 * HOUR
  const MAX_PUBLICATION_START_DELAY := 5 * MINUTE
  const MAX_UTC := 8_210_266_876_800 * SECOND - 1

  datatype RouteError =
    | ManifestTooLong | NotTypedJson | NotCanonicalJson | UnsupportedSchema | ScopeMismatch | KeyIdMismatch
    | InvalidSignature | InvalidValidity | InvalidHex | UnqualifiedProfile | InvalidIdentity | InvalidUrl
    | SecretNotAllowed | SecretMissing | SecretMismatch | InvalidBasisPoints | InvalidCandidate
    | PredecessorMissing | PredecessorMismatch | CredentialMissing | CredentialMismatch | CapacityReservation
    | ProposalMismatch | ClockOutOfRange | CandidateMissing

  datatype RouteCapability = Stream | Responses

  datatype ReasoningEffort = Low | Medium | High | Maximum

  datatype HarnessProfile = Mechanics | Production

  datatype RouteStartupConfig = RouteStartupConfig(
    signingPublicKeyHex: Text,
    signingKeyId: Text,
    allowPrivateCandidateHttp: bool,
    candidateMaxInFlight: nat)

  /** The proposal fields a route is made from; `evidenceHashes` are the other digests it must carry. */
  datatype OperatorRouteProposal = OperatorRouteProposal(
    schemaVersion: Text,
    scopeId: Uuid,
    profile: HarnessProfile,
    seriesId: Text,
    evidenceHashes: seq<Text>,
    harnessIdentityIsCurrent: bool,
    evalSha256: Text,
    candidateId: Text,
    apiBaseUrl: Text,
    model: Text,
    candidateBasisPoints: U16)

  datatype OperatorRouteCandidate = OperatorRouteCandidate(
    evalSha256: Text,
    candidateId: Text,
    apiBaseUrl: Text,
    model: Text,
    candidateApiKeySha256: Text,
    supportedCapabilities: seq<RouteCapability>,
    reasoningEffort: Option<ReasoningEffort>,
    maxInputUtf8Bytes: nat,
    maxInputMessages: nat,
    maxInputRequestBytes: nat)

  datatype OperatorRouteManifest = OperatorRouteManifest(
    schemaVersion: Text,
    scope: RouteScope,
    proposalSha256: Text,
    profile: HarnessProfile,
    candidate: Option<OperatorRouteCandidate>,
    candidateBasisPoints: U16,
    previousRouteRevision: Option<Text>,
    routeSecretSha256: Option<Text>,
    notBefore: int,
    notAfter: int,
    signingKeyId: Text)

  datatype RoutePublication = RoutePublication(
    hasCandidate: bool,
    revision: Digest,
    cohortSha256: Digest,
    proposalSha256: Digest,
    candidateApiKeySha256: Option<Digest>,
    candidateBasisPoints: U16,
    previousRouteRevision: Option<Digest>,
    notAfter: int)

  datatype ParsedRouteManifest = ParsedRouteManifest(
    manifest: OperatorRouteManifest,
    endpoint: Option<Text>,
    deploymentSha256: Digest,
    candidateSha256: Text,
    artifactSha256: Text,
    publication: RoutePublication)

  /** Everything the routes need from cryptography, JSON and URLs, as functions nothing is known about. */
  datatype World = World(
    sha256: Text -> Digest,
    hmac: (Digest, Text) -> Digest,
    verifies: (Digest, Text, Text) -> bool,
    proposalFromJson: Text -> Option<OperatorRouteProposal>,
    proposalToJson: OperatorRouteProposal -> Text,
    manifestFromJson: Text -> Option<OperatorRouteManifest>,
    manifestToJson: OperatorRouteManifest -> Text,
    candidateToJson: OperatorRouteCandidate -> Text,
    validUrl: (Text, bool) -> bool)

  /** Parsing JSON undoes printing it. */
  ghost predicate Lawful(world: World) {
    forall m :: world.manifestFromJson(world.manifestToJson(m)) == Some(m)
  }

  function ProposalSchema(): Text {
    Ascii("milk.unsigned-route-proposal.v3")
  }

  function RouteSchema(): Text {
    Ascii("milk.route.v1")
  }

  // ---------------------------------------------------------------- identifiers

  predicate Digit(b: Byte) {
    48 <= b <= 57
  }

  predicate LowerLetter(b: Byte) {
    97 <= b <= 122
  }

  predicate Alphanumeric(b: Byte) {
    Digit(b) || LowerLetter(b) || 65 <= b <= 90
  }

  predicate ValidModelAlias(value: Text) {
    && 1 <= |value| <= MAX_MODEL_BYTES
    && Alphanumeric(value[0])
    && forall i :: 0 <= i < |value| ==> Alphanumeric(value[i]) || value[i] in {45, 46, 47, 58, 95}
  }

  predicate ValidBoundedAscii(value: Text, maximum: nat) {
    1 <= |value| <= maximum && forall i :: 0 <= i < |value| ==> 33 <= value[i] <= 126
  }

  predicate ValidHarnessIdentifier(value: Text) {
    && 1 <= |value| <= 128
    && (LowerLetter(value[0]) || Digit(value[0]))
    && forall i :: 0 <= i < |value| ==> LowerLetter(value[i]) || Digit(value[i]) || value[i] in {46, 95, 45}
  }

  predicate AllDigests(values: seq<Text>) {
    forall i :: 0 <= i < |values| ==> HexToDigest(values[i]).Some?
  }

  // ---------------------------------------------------------------- proposals

  function ParseProposal(world: World, config: RouteStartupConfig, scope: RouteScope, bytes: Text)
    : Result<OperatorRouteProposal, RouteError>
  {
    var _ :- Need(|bytes| <= MAX_ROUTE_MANIFEST_BYTES, ManifestTooLong);
    var proposal :- Required(world.proposalFromJson(bytes), NotTypedJson);
    var _ :- Need(world.proposalToJson(proposal) + [10] == bytes, NotCanonicalJson);
    var _ :- Need(proposal.schemaVersion == ProposalSchema(), UnsupportedSchema);
    var _ :- Need(proposal.scopeId == scope.scopeId, ScopeMismatch);
    var _ :- Need(AllDigests(proposal.evidenceHashes + [proposal.evalSha256]), InvalidHex);
    var _ :- Need(proposal.profile == Production, UnqualifiedProfile);
    var _ :- Need(ValidHarnessIdentifier(proposal.seriesId) && ValidHarnessIdentifier(proposal.candidateId)
                  && ValidModelAlias(proposal.model) && proposal.harnessIdentityIsCurrent, InvalidIdentity);
    var _ :- Need(world.validUrl(proposal.apiBaseUrl, config.allowPrivateCandidateHttp), InvalidUrl);
    Ok(proposal)
  }

  // ---------------------------------------------------------------- parsing manifests

  predicate NoDuplicates(capabilities: seq<RouteCapability>) {
    forall i, j :: 0 <= i < j < |capabilities| ==> capabilities[i] != capabilities[j]
  }

  function ValidateCandidate(world: World, config: RouteStartupConfig, candidate: OperatorRouteCandidate)
    : Result<Text, RouteError>
  {
    var _ :- Required(HexToDigest(candidate.evalSha256), InvalidHex);
    var _ :- Need(ValidBoundedAscii(candidate.candidateId, MAX_EXECUTION_ID_BYTES), InvalidIdentity);
    var _ :- Need(ValidModelAlias(candidate.model), InvalidIdentity);
    var _ :- Required(HexToDigest(candidate.candidateApiKeySha256), InvalidHex);
    var _ :- Need(|candidate.supportedCapabilities| <= MAX_CAPABILITIES
                  && NoDuplicates(candidate.supportedCapabilities), InvalidCandidate);
    var _ :- Need(candidate.maxInputUtf8Bytes == CANDIDATE_MAX_INPUT_UTF8_BYTES
                  && candidate.maxInputMessages == CANDIDATE_MAX_INPUT_MESSAGES
                  && candidate.maxInputRequestBytes == CANDIDATE_MAX_INPUT_REQUEST_BYTES, InvalidCandidate);
    var _ :- Need(world.validUrl(candidate.apiBaseUrl, config.allowPrivateCandidateHttp), InvalidUrl);
    Ok(candidate.apiBaseUrl)
  }

  function ValidateManifest(world: World, config: RouteStartupConfig, scope: RouteScope, m: OperatorRouteManifest)
    : Result<Option<Text>, RouteError>
  {
    var _ :- Need(m.schemaVersion == RouteSchema(), UnsupportedSchema);
    var _ :- Need(m.scope == scope, ScopeMismatch);
    var _ :- Need(1 <= |config.signingKeyId| <= MAX_KEY_ID_BYTES && m.signingKeyId == config.signingKeyId,
                  KeyIdMismatch);
    var _ :- Need(m.notBefore < m.notAfter && m.notAfter - m.notBefore <= MAX_ROUTE_VALIDITY, InvalidValidity);
    var _ :- Required(HexToDigest(m.proposalSha256), InvalidHex);
    var _ :- PreviousRevision(m);
    if m.candidate.None? then
      var _ :- Need(m.candidateBasisPoints == 0, InvalidBasisPoints);
      var _ :- Need(m.routeSecretSha256.None?, SecretNotAllowed);
      Ok(None)
    else
      var _ :- Need(1 <= m.candidateBasisPoints <= 10_000, InvalidBasisPoints);
      var _ :- Need(m.profile == Production, UnqualifiedProfile);
      var secret :- Required(m.routeSecretSha256, SecretMissing);
      var _ :- Required(HexToDigest(secret), InvalidHex);
      var url :- ValidateCandidate(world, config, m.candidate.value);
      Ok(Some(url))
  }

  function PreviousRevision(m: OperatorRouteManifest): Result<Option<Digest>, RouteError> {
    if m.previousRouteRevision.None? then Ok(None)
    else
      var digest :- Required(HexToDigest(m.previousRouteRevision.value), InvalidHex);
      Ok(Some(digest))
  }

  function DecodeManifest(world: World, bytes: Text): Result<OperatorRouteManifest, RouteError> {
    var manifest :- Required(world.manifestFromJson(bytes), NotTypedJson);
    var _ :- Need(world.manifestToJson(manifest) == bytes, NotCanonicalJson);
    Ok(manifest)
  }

  const NO_DIGEST: Digest := seq(32, i => 0)

  function ParseManifest(world: World, config: RouteStartupConfig, scope: RouteScope, bytes: Text)
    : Result<ParsedRouteManifest, RouteError>
  {
    var _ :- Need(|bytes| <= MAX_ROUTE_MANIFEST_BYTES, ManifestTooLong);
    var m :- DecodeManifest(world, bytes);
    var endpoint :- ValidateManifest(world, config, scope, m);
    var revision := world.sha256(bytes);
    var proposalSha256 :- Required(HexToDigest(m.proposalSha256), InvalidHex);
    var previous :- PreviousRevision(m);
    if m.candidate.None? then
      Ok(ParsedRouteManifest(m, endpoint, NO_DIGEST, [], [],
           RoutePublication(false, revision, proposalSha256, proposalSha256, None, m.candidateBasisPoints, previous,
                            m.notAfter)))
    else
      var candidate := m.candidate.value;
      var candidateSha256 := world.sha256(world.candidateToJson(candidate));
      var apiKeySha256 :- Required(HexToDigest(candidate.candidateApiKeySha256), InvalidHex);
      Ok(ParsedRouteManifest(m, endpoint,
           world.sha256(Ascii("milk.route-deployment.v1") + [0] + candidate.apiBaseUrl),
           Hex(candidateSha256),
           Hex(world.sha256(Ascii("milk.route-model.v1") + [0] + candidate.model)),
           RoutePublication(true, revision, candidateSha256, proposalSha256, Some(apiKeySha256),
                            m.candidateBasisPoints, previous, m.notAfter)))
  }

  function VerifySignature(world: World, config: RouteStartupConfig, manifest: Text, signature: Text)
    : Result<(), RouteError>
  {
    var _ :- Need(|manifest| <= MAX_ROUTE_MANIFEST_BYTES, ManifestTooLong);
    var _ :- Need(|signature| == ED25519_SIGNATURE_BYTES, InvalidSignature);
    var publicKey :- Required(HexToDigest(config.signingPublicKeyHex), InvalidHex);
    Need(world.verifies(publicKey, manifest, signature), InvalidSignature)
  }

  /** Parse for publication at an instant, or as an archived publication when no instant is given. */
  function ParsePublication(world: World, config: RouteStartupConfig, scope: RouteScope, bytes: Text,
                            signature: Option<Text>, now: Option<int>)
    : Result<RoutePublication, RouteError>
  {
    var _ :- Required(HexToDigest(config.signingPublicKeyHex), InvalidHex);
    var _ :- if signature.Some? then VerifySignature(world, config, bytes, signature.value) else Ok(());
    var parsed :- ParseManifest(world, config, scope, bytes);
    var _ :- Need(now.None? || PublishableAt(parsed.manifest, now.value), InvalidValidity);
    Ok(parsed.publication)
  }

  predicate PublishableAt(m: OperatorRouteManifest, now: int) {
    && now < m.notAfter <= now + MAX_ROUTE_VALIDITY
    && m.notBefore <= now + MAX_PUBLICATION_START_DELAY
  }

  // ---------------------------------------------------------------- what is accepted

  /** The configured key signed exactly these bytes. */
  predicate Signed(world: World, config: RouteStartupConfig, manifest: Text, signature: Text) {
    && |manifest| <= 8192 && |signature| == 64
    && (var key := HexToDigest(config.signingPublicKeyHex); key.Some? && world.verifies(key.value, manifest, signature))
  }

  predicate AcceptableCandidate(world: World, config: RouteStartupConfig, c: OperatorRouteCandidate) {
    && HexToDigest(c.evalSha256).Some? && HexToDigest(c.candidateApiKeySha256).Some?
    && ValidBoundedAscii(c.candidateId, 256) && ValidModelAlias(c.model)
    && (var capabilities := c.supportedCapabilities;
        |capabilities| <= 8 && forall i, j :: 0 <= i < j < |capabilities| ==> capabilities[i] != capabilities[j])
    && c.maxInputUtf8Bytes == 2048 && c.maxInputMessages == 16 && c.maxInputRequestBytes == 16384
    && world.validUrl(c.apiBaseUrl, config.allowPrivateCandidateHttp)
  }

  /** A manifest of this scope and key, valid for at most a day; one that routes nothing names no secret, and
      one that routes something is qualified, names its secret, and carries an acceptable candidate. */
  predicate Acceptable(world: World, config: RouteStartupConfig, scope: RouteScope, m: OperatorRouteManifest) {
    && m.schemaVersion == Ascii("milk.route.v1") && m.scope == scope
    && 1 <= |config.signingKeyId| <= 128 && m.signingKeyId == config.signingKeyId
    && m.notBefore < m.notAfter <= m.notBefore + 24 * HOUR
    && HexToDigest(m.proposalSha256).Some?
    && (m.previousRouteRevision.Some? ==> HexToDigest(m.previousRouteRevision.value).Some?)
    && (m.candidate.None? ==> m.candidateBasisPoints == 0 && m.routeSecretSha256.None?)
    && (m.candidate.Some? ==>
          && 1 <= m.candidateBasisPoints <= 10_000 && m.profile == Production
          && m.routeSecretSha256.Some? && HexToDigest(m.routeSecretSha256.value).Some?
          && AcceptableCandidate(world, config, m.candidate.value))
  }

  /** The bytes are the canonical JSON of this manifest. */
  predicate Encodes(world: World, bytes: Text, m: OperatorRouteManifest) {
    |bytes| <= 8192 && world.manifestFromJson(bytes) == Some(m) && world.manifestToJson(m) == bytes
  }

  /** Parsing accepts exactly the canonical bytes of acceptable manifests, and reports what they say. */
  lemma AcceptedManifests(world: World, config: RouteStartupConfig, scope: RouteScope, bytes: Text,
                          m: OperatorRouteManifest)
    ensures ParseManifest(world, config, scope, bytes).Ok?
            && ParseManifest(world, config, scope, bytes).value.manifest == m <==>
            Encodes(world, bytes, m) && Acceptable(world, config, scope, m)
    ensures Encodes(world, bytes, m) && Acceptable(world, config, scope, m) ==>
              var parsed := ParseManifest(world, config, scope, bytes).value;
              var publication := parsed.publication;
              && publication.revision == world.sha256(bytes) && publication.notAfter == m.notAfter
              && (publication.hasCandidate <==> m.candidate.Some?)
              && publication.candidateBasisPoints == m.candidateBasisPoints
              && m.proposalSha256 == Hex(publication.proposalSha256)
              && m.previousRouteRevision == Texted(publication.previousRouteRevision)
              && (m.candidate.Some? ==>
                    && publication.cohortSha256 == world.sha256(world.candidateToJson(m.candidate.value))
                    && Some(m.candidate.value.candidateApiKeySha256) == Texted(publication.candidateApiKeySha256)
                    && parsed.endpoint == Some(m.candidate.value.apiBaseUrl))
              && (m.candidate.None? ==> parsed.endpoint.None? && publication.candidateApiKeySha256.None?
                                        && publication.cohortSha256 == publication.proposalSha256)
  {
    if Encodes(world, bytes, m) && Acceptable(world, config, scope, m) {
      var publication := ParseManifest(world, config, scope, bytes).value.publication;
      DigestTextRoundTrip(m.proposalSha256, publication.proposalSha256);
      if m.previousRouteRevision.Some? {
        DigestTextRoundTrip(m.previousRouteRevision.value, publication.previousRouteRevision.value);
      }
      if m.candidate.Some? {
        DigestTextRoundTrip(m.candidate.value.candidateApiKeySha256, publication.candidateApiKeySha256.value);
      }
    }
  }

  function Texted(digest: Option<Digest>): Option<Text> {
    if digest.None? then None else Some(Hex(digest.value))
  }

  /** When a publication is accepted: a key is configured, a signature that is given is its own, the manifest
      is acceptable, and at an instant that is given it has not ended, ends within a day, and has begun or
      begins within five minutes. */
  lemma AcceptedPublications(world: World, config: RouteStartupConfig, scope: RouteScope, bytes: Text,
                             signature: Option<Text>, now: Option<int>)
    ensures ParsePublication(world, config, scope, bytes, signature, now).Ok? <==>
            && HexToDigest(config.signingPublicKeyHex).Some?
            && (signature.Some? ==> Signed(world, config, bytes, signature.value))
            && ParseManifest(world, config, scope, bytes).Ok?
            && (now.Some? ==>
                  var m := ParseManifest(world, config, scope, bytes).value.manifest;
                  now.value < m.notAfter <= now.value + 24 * HOUR && m.notBefore <= now.value + 5 * MINUTE)
    ensures ParsePublication(world, config, scope, bytes, signature, now).Ok? ==>
              ParsePublication(world, config, scope, bytes, signature, now).value
              == ParseManifest(world, config, scope, bytes).value.publication
  {
  }

  /** What may stand in an identifier, in a model name and in a candidate's name, as characters. */
  lemma NamesExactly(value: Text, maximum: nat)
    ensures ValidHarnessIdentifier(value) <==>
            && 1 <= |value| <= 128 && !((value[0] as char) in "._-")
            && forall i :: 0 <= i < |value| ==>
                 var c := value[i] as char; 'a' <= c <= 'z' || '0' <= c <= '9' || c in "._-"
    ensures ValidModelAlias(value) <==>
            && 1 <= |value| <= 256 && !((value[0] as char) in "-./:_")
            && forall i :: 0 <= i < |value| ==>
                 var c := value[i] as char;
                 'a' <= c <= 'z' || 'A' <= c <= 'Z' || '0' <= c <= '9' || c in "-./:_"
    ensures ValidBoundedAscii(value, maximum) <==>
            1 <= |value| <= maximum && forall i :: 0 <= i < |value| ==> '!' <= value[i] as char <= '~'
  {
  }

  /** Which proposals are accepted. */
  lemma AcceptedProposals(world: World, config: RouteStartupConfig, scope: RouteScope, bytes: Text,
                          p: OperatorRouteProposal)
    ensures ParseProposal(world, config, scope, bytes) == Ok(p) <==>
            && |bytes| <= 8192 && world.proposalFromJson(bytes) == Some(p) && world.proposalToJson(p) + [10] == bytes
            && p.schemaVersion == Ascii("milk.unsigned-route-proposal.v3") && p.scopeId == scope.scopeId
            && HexToDigest(p.evalSha256).Some?
            && (forall i :: 0 <= i < |p.evidenceHashes| ==> HexToDigest(p.evidenceHashes[i]).Some?)
            && p.profile == Production && p.harnessIdentityIsCurrent
            && ValidHarnessIdentifier(p.seriesId) && ValidHarnessIdentifier(p.candidateId) && ValidModelAlias(p.model)
            && world.validUrl(p.apiBaseUrl, config.allowPrivateCandidateHttp)
  {
    var all := p.evidenceHashes + [p.evalSha256];
    assert all[|p.evidenceHashes|] == p.evalSha256;
    assert forall i :: 0 <= i < |p.evidenceHashes| ==> all[i] == p.evidenceHashes[i];
  }

  // ---------------------------------------------------------------- preparing manifests

  function PreparedCandidate(world: World, proposal: OperatorRouteProposal, apiKey: Option<Text>)
    : Result<OperatorRouteCandidate, RouteError>
  {
    var key :- Required(apiKey, CredentialMissing);
    var _ :- Need(key != [], CredentialMissing);
    Ok(OperatorRouteCandidate(proposal.evalSha256, proposal.candidateId, proposal.apiBaseUrl, proposal.model,
         Hex(world.sha256(key)), [Stream], None, CANDIDATE_MAX_INPUT_UTF8_BYTES, CANDIDATE_MAX_INPUT_MESSAGES,
         CANDIDATE_MAX_INPUT_REQUEST_BYTES))
  }

  function PreparedSecret(world: World, secretHex: Option<Text>): Result<Text, RouteError> {
    var value :- Required(secretHex, SecretMissing);
    var secret :- Required(HexToDigest(value), InvalidHex);
    Ok(Hex(world.sha256(secret)))
  }

  /** A zero route needs a live predecessor that is a candidate route for this exact proposal. */
  function RequireLineage(proposal: OperatorRouteProposal, proposalSha256: Digest, previous: Option<RoutePublication>)
    : Result<(), RouteError>
  {
    var live :- Required(previous, PredecessorMissing);
    Need(proposal.candidateBasisPoints != 0 && live.hasCandidate && live.candidateBasisPoints != 0
         && live.proposalSha256 == proposalSha256, PredecessorMismatch)
  }

  function WholeSecond(now: int): int {
    now - now % SECOND
  }

  function CheckedLater(instant: int, duration: nat): Option<int> {
    if instant + duration <= MAX_UTC then Some(instant + duration) else None
  }

  function Prepare(world: World, config: RouteStartupConfig, scope: RouteScope, proposalBytes: Text,
                   secretHex: Option<Text>, apiKey: Option<Text>, previous: Option<RoutePublication>, now: int,
                   zero: bool)
    : Result<(Text, RoutePublication), RouteError>
  {
    var proposal :- ParseProposal(world, config, scope, proposalBytes);
    var proposalSha256 := world.sha256(proposalBytes);
    var _ :- if zero then RequireLineage(proposal, proposalSha256, previous) else Ok(());
    var basisPoints := if zero then 0 else proposal.candidateBasisPoints;
    var previousRevision := if previous.None? then None else Some(Hex(previous.value.revision));
    var notBefore := WholeSecond(now);
    if basisPoints == 0 then
      var notAfter :- Required(CheckedLater(notBefore, OPERATOR_ZERO_VALID_FOR), ClockOutOfRange);
      Published(world, config, scope, now,
        OperatorRouteManifest(RouteSchema(), scope, Hex(proposalSha256), proposal.profile, None, basisPoints,
                              previousRevision, None, notBefore, notAfter, config.signingKeyId))
    else
      var candidate :- PreparedCandidate(world, proposal, apiKey);
      var secretSha256 :- PreparedSecret(world, secretHex);
      var notAfter :- Required(CheckedLater(notBefore, OPERATOR_CANDIDATE_VALID_FOR), ClockOutOfRange);
      Published(world, config, scope, now,
        OperatorRouteManifest(RouteSchema(), scope, Hex(proposalSha256), proposal.profile, Some(candidate), basisPoints,
                              previousRevision, Some(secretSha256), notBefore, notAfter, config.signingKeyId))
  }

  function Published(world: World, config: RouteStartupConfig, scope: RouteScope, now: int, m: OperatorRouteManifest)
    : Result<(Text, RoutePublication), RouteError>
  {
    var bytes := world.manifestToJson(m);
    var publication :- ParsePublication(world, config, scope, bytes, None, Some(now));
    Ok((bytes, publication))
  }

  // ---------------------------------------------------------------- binding

  predicate CandidateMatches(m: OperatorRouteManifest, candidate: OperatorRouteCandidate,
                             proposal: OperatorRouteProposal)
  {
    && m.candidateBasisPoints == proposal.candidateBasisPoints != 0
    && candidate.evalSha256 == proposal.evalSha256
    && candidate.candidateId == proposal.candidateId
    && candidate.apiBaseUrl == proposal.apiBaseUrl
    && candidate.model == proposal.model
    && candidate.supportedCapabilities == [Stream]
    && candidate.reasoningEffort.None?
  }

  predicate ZeroMatches(m: OperatorRouteManifest, proposal: OperatorRouteProposal) {
    proposal.candidateBasisPoints != 0 && m.candidateBasisPoints == 0 && m.previousRouteRevision.Some?
  }

  function VerifyBinding(world: World, config: RouteStartupConfig, scope: RouteScope, manifestBytes: Text,
                         proposalBytes: Text)
    : Result<(), RouteError>
  {
    var proposal :- ParseProposal(world, config, scope, proposalBytes);
    var m :- DecodeManifest(world, manifestBytes);
    var _ :- ValidateManifest(world, config, scope, m);
    var _ :- Need(m.profile == proposal.profile, ProposalMismatch);
    var _ :- Need(m.proposalSha256 == Hex(world.sha256(proposalBytes)), ProposalMismatch);
    var _ :- Need(if m.candidate.Some? then CandidateMatches(m, m.candidate.value, proposal)
                  else ZeroMatches(m, proposal), ProposalMismatch);
    var expected := if m.candidate.Some? then OPERATOR_CANDIDATE_VALID_FOR else OPERATOR_ZERO_VALID_FOR;
    Need(m.notBefore % SECOND == 0 && m.notAfter % SECOND == 0 && m.notAfter - m.notBefore == expected, InvalidValidity)
  }

  /** What binding means. The manifest names this very proposal and says the same about the candidate, or it
      routes nothing any more and names a predecessor; and it is valid for exactly its quarter of an hour, or
      minute, in whole seconds. */
  lemma BoundExactly(world: World, config: RouteStartupConfig, scope: RouteScope, m: OperatorRouteManifest,
                     proposalBytes: Text)
    requires world.manifestFromJson(world.manifestToJson(m)) == Some(m)
    ensures VerifyBinding(world, config, scope, world.manifestToJson(m), proposalBytes).Ok? <==>
            && ParseProposal(world, config, scope, proposalBytes).Ok? && Acceptable(world, config, scope, m)
            && (var p := ParseProposal(world, config, scope, proposalBytes).value;
                && m.proposalSha256 == Hex(world.sha256(proposalBytes)) && m.profile == p.profile
                && p.candidateBasisPoints != 0
                && m.notBefore % SECOND == 0
                && m.notAfter == m.notBefore + (if m.candidate.Some? then 900 * SECOND else 60 * SECOND)
                && (m.candidate.None? ==> m.previousRouteRevision.Some?)
                && (m.candidate.Some? ==>
                      var c := m.candidate.value;
                      && m.candidateBasisPoints == p.candidateBasisPoints
                      && (c.evalSha256, c.candidateId, c.apiBaseUrl, c.model)
                         == (p.evalSha256, p.candidateId, p.apiBaseUrl, p.model)
                      && c.supportedCapabilities == [Stream] && c.reasoningEffort.None?))
  {
  }

  /** A manifest is bound to one proposal only: as far as their digests differ, no two. */
  lemma BoundToOneProposal(world: World, config: RouteStartupConfig, scope: RouteScope, manifestBytes: Text,
                           first: Text, second: Text)
    requires VerifyBinding(world, config, scope, manifestBytes, first).Ok?
    requires VerifyBinding(world, config, scope, manifestBytes, second).Ok?
    ensures world.sha256(first) == world.sha256(second)
  {
    var m := DecodeManifest(world, manifestBytes).value;
    DigestTextRoundTrip(m.proposalSha256, world.sha256(first));
    DigestTextRoundTrip(m.proposalSha256, world.sha256(second));
  }

  // ---------------------------------------------------------------- what preparing promises

  lemma WholeSecondFacts(now: int)
    ensures WholeSecond(now) <= now < WholeSecond(now) + SECOND
    ensures WholeSecond(now) % SECOND == 0
    ensures (WholeSecond(now) + OPERATOR_CANDIDATE_VALID_FOR) % SECOND == 0
    ensures (WholeSecond(now) + OPERATOR_ZERO_VALID_FOR) % SECOND == 0
  {
  }

  /** What a successful preparation put into the manifest: all of it. */
  ghost predicate PreparedAs(world: World, config: RouteStartupConfig, scope: RouteScope, proposalBytes: Text,
                             secretHex: Option<Text>, apiKey: Option<Text>, previous: Option<RoutePublication>,
                             now: int, zero: bool, m: OperatorRouteManifest)
  {
    var parsed := ParseProposal(world, config, scope, proposalBytes);
    && parsed.Ok?
    && m.schemaVersion == Ascii("milk.route.v1") && m.scope == scope && m.signingKeyId == config.signingKeyId
    && m.profile == parsed.value.profile
    && m.proposalSha256 == Hex(world.sha256(proposalBytes))
    && m.notBefore <= now < m.notBefore + SECOND && m.notBefore % SECOND == 0
    && m.notAfter == m.notBefore + (if m.candidate.Some? then 900 * SECOND else 60 * SECOND) <= MAX_UTC
    && m.previousRouteRevision == (if previous.None? then None else Some(Hex(previous.value.revision)))
    && m.candidateBasisPoints == (if zero then 0 else parsed.value.candidateBasisPoints)
    && (m.candidate.None? <==> m.candidateBasisPoints == 0)
    && (m.candidate.None? ==> m.routeSecretSha256.None?)
    && (m.candidate.Some? ==>
          && CopiesProposal(world, parsed.value, apiKey, m.candidate.value)
          && secretHex.Some? && HexToDigest(secretHex.value).Some?
          && m.routeSecretSha256 == Some(Hex(world.sha256(HexToDigest(secretHex.value).value))))
    && (zero ==> Succeeds(world, parsed.value, proposalBytes, previous))
  }

  /** The candidate of the proposal, the digest of its key, and the fixed limits. */
  predicate CopiesProposal(world: World, p: OperatorRouteProposal, apiKey: Option<Text>, c: OperatorRouteCandidate) {
    && apiKey.Some? && apiKey.value != []
    && c == OperatorRouteCandidate(p.evalSha256, p.candidateId, p.apiBaseUrl, p.model, Hex(world.sha256(apiKey.value)),
                                   [Stream], None, 2048, 16, 16384)
  }

  /** The live route is a candidate route of this very proposal. */
  predicate Succeeds(world: World, p: OperatorRouteProposal, proposalBytes: Text, previous: Option<RoutePublication>) {
    && p.candidateBasisPoints != 0 && previous.Some? && previous.value.hasCandidate
    && previous.value.candidateBasisPoints != 0 && previous.value.proposalSha256 == world.sha256(proposalBytes)
  }

  /** The manifest of a preparation that routes something: a copy of the proposal's candidate. */
  lemma PreparedCanary(world: World, config: RouteStartupConfig, scope: RouteScope, proposalBytes: Text,
                       secretHex: Option<Text>, apiKey: Option<Text>, previous: Option<RoutePublication>, now: int)
    returns (m: OperatorRouteManifest)
    requires Prepare(world, config, scope, proposalBytes, secretHex, apiKey, previous, now, false).Ok?
    requires ParseProposal(world, config, scope, proposalBytes).value.candidateBasisPoints != 0
    ensures PreparedAs(world, config, scope, proposalBytes, secretHex, apiKey, previous, now, false, m)
    ensures Published(world, config, scope, now, m)
            == Prepare(world, config, scope, proposalBytes, secretHex, apiKey, previous, now, false)
  {
    var proposal := ParseProposal(world, config, scope, proposalBytes).value;
    m := OperatorRouteManifest(RouteSchema(), scope, Hex(world.sha256(proposalBytes)), proposal.profile,
                               Some(PreparedCandidate(world, proposal, apiKey).value), proposal.candidateBasisPoints,
                               if previous.None? then None else Some(Hex(previous.value.revision)),
                               Some(PreparedSecret(world, secretHex).value),
                               WholeSecond(now), WholeSecond(now) + OPERATOR_CANDIDATE_VALID_FOR, config.signingKeyId);
  }

  /** The manifest of a preparation that routes nothing. */
  lemma PreparedZero(world: World, config: RouteStartupConfig, scope: RouteScope, proposalBytes: Text,
                     secretHex: Option<Text>, apiKey: Option<Text>, previous: Option<RoutePublication>, now: int,
                     zero: bool) returns (m: OperatorRouteManifest)
    requires Prepare(world, config, scope, proposalBytes, secretHex, apiKey, previous, now, zero).Ok?
    requires zero || ParseProposal(world, config, scope, proposalBytes).value.candidateBasisPoints == 0
    ensures PreparedAs(world, config, scope, proposalBytes, secretHex, apiKey, previous, now, zero, m)
    ensures Published(world, config, scope, now, m)
            == Prepare(world, config, scope, proposalBytes, secretHex, apiKey, previous, now, zero)
  {
    var proposal := ParseProposal(world, config, scope, proposalBytes).value;
    m := OperatorRouteManifest(RouteSchema(), scope, Hex(world.sha256(proposalBytes)), proposal.profile, None, 0,
                               if previous.None? then None else Some(Hex(previous.value.revision)), None,
                               WholeSecond(now), WholeSecond(now) + OPERATOR_ZERO_VALID_FOR, config.signingKeyId);
  }

  lemma PreparedManifest(world: World, config: RouteStartupConfig, scope: RouteScope, proposalBytes: Text,
                         secretHex: Option<Text>, apiKey: Option<Text>, previous: Option<RoutePublication>, now: int,
                         zero: bool) returns (m: OperatorRouteManifest)
    requires Prepare(world, config, scope, proposalBytes, secretHex, apiKey, previous, now, zero).Ok?
    ensures PreparedAs(world, config, scope, proposalBytes, secretHex, apiKey, previous, now, zero, m)
    ensures Published(world, config, scope, now, m)
            == Prepare(world, config, scope, proposalBytes, secretHex, apiKey, previous, now, zero)
  {
    if zero || ParseProposal(world, config, scope, proposalBytes).value.candidateBasisPoints == 0 {
      m := PreparedZero(world, config, scope, proposalBytes, secretHex, apiKey, previous, now, zero);
    } else {
      m := PreparedCanary(world, config, scope, proposalBytes, secretHex, apiKey, previous, now);
    }
  }

  /** There is one draft, and preparing publishes it. */
  lemma PreparedIsPublished(world: World, config: RouteStartupConfig, scope: RouteScope, proposalBytes: Text,
                            secretHex: Option<Text>, apiKey: Option<Text>, previous: Option<RoutePublication>, now: int,
                            zero: bool, m: OperatorRouteManifest)
    requires PreparedAs(world, config, scope, proposalBytes, secretHex, apiKey, previous, now, zero, m)
    ensures Prepare(world, config, scope, proposalBytes, secretHex, apiKey, previous, now, zero)
            == Published(world, config, scope, now, m)
  {
    WholeSecondFacts(now);
    var proposal := ParseProposal(world, config, scope, proposalBytes).value;
    assert m.notBefore == WholeSecond(now);
    assert m.candidate.Some? ==> m.candidate == Some(PreparedCandidate(world, proposal, apiKey).value);
  }

  lemma CopyIsAcceptable(world: World, config: RouteStartupConfig, scope: RouteScope, proposalBytes: Text,
                         apiKey: Option<Text>, c: OperatorRouteCandidate)
    requires var parsed := ParseProposal(world, config, scope, proposalBytes);
             parsed.Ok? && CopiesProposal(world, parsed.value, apiKey, c)
    ensures AcceptableCandidate(world, config, c)
  {
    var proposal := ParseProposal(world, config, scope, proposalBytes).value;
    AcceptedProposals(world, config, scope, proposalBytes, proposal);
    DigestTextRoundTrip(c.candidateApiKeySha256, world.sha256(apiKey.value));
  }

  lemma DraftIsAcceptable(world: World, config: RouteStartupConfig, scope: RouteScope, proposalBytes: Text,
                          secretHex: Option<Text>, apiKey: Option<Text>, previous: Option<RoutePublication>, now: int,
                          zero: bool, m: OperatorRouteManifest)
    requires PreparedAs(world, config, scope, proposalBytes, secretHex, apiKey, previous, now, zero, m)
    ensures Acceptable(world, config, scope, m) <==>
            1 <= |config.signingKeyId| <= 128 && m.candidateBasisPoints <= 10_000
  {
    DigestTextRoundTrip(m.proposalSha256, world.sha256(proposalBytes));
    if previous.Some? {
      DigestTextRoundTrip(m.previousRouteRevision.value, previous.value.revision);
    }
    if m.candidate.Some? {
      CopyIsAcceptable(world, config, scope, proposalBytes, apiKey, m.candidate.value);
      DigestTextRoundTrip(m.routeSecretSha256.value, world.sha256(HexToDigest(secretHex.value).value));
    }
  }

  /** When a preparation succeeds: exactly if what it drafts fits a manifest, its share is one, and a signing
      key is configured. It then prints that draft. */
  lemma PreparesExactly(world: World, config: RouteStartupConfig, scope: RouteScope, proposalBytes: Text,
                        secretHex: Option<Text>, apiKey: Option<Text>, previous: Option<RoutePublication>, now: int,
                        zero: bool, m: OperatorRouteManifest)
    requires Lawful(world)
    requires PreparedAs(world, config, scope, proposalBytes, secretHex, apiKey, previous, now, zero, m)
    ensures var prepared := Prepare(world, config, scope, proposalBytes, secretHex, apiKey, previous, now, zero);
            && (prepared.Ok? <==>
                  && HexToDigest(config.signingPublicKeyHex).Some? && 1 <= |config.signingKeyId| <= 128
                  && m.candidateBasisPoints <= 10_000 && |world.manifestToJson(m)| <= 8192)
            && (prepared.Ok? ==> prepared.value.0 == world.manifestToJson(m))
  {
    var bytes := world.manifestToJson(m);
    DraftIsAcceptable(world, config, scope, proposalBytes, secretHex, apiKey, previous, now, zero, m);
    PreparedIsPublished(world, config, scope, proposalBytes, secretHex, apiKey, previous, now, zero, m);
    AcceptedManifests(world, config, scope, bytes, m);
    AcceptedPublications(world, config, scope, bytes, None, Some(now));
  }

  lemma PublishableUntilExpiry(world: World, config: RouteStartupConfig, scope: RouteScope, now: int,
                               m: OperatorRouteManifest, later: int, signature: Option<Text>)
    requires Published(world, config, scope, now, m).Ok?
    requires m.notBefore <= now <= later < m.notAfter
    requires signature.Some? ==> Signed(world, config, world.manifestToJson(m), signature.value)
    requires DecodeManifest(world, world.manifestToJson(m)) == Ok(m)
    ensures ParsePublication(world, config, scope, world.manifestToJson(m), signature, Some(later))
            == Ok(Published(world, config, scope, now, m).value.1)
  {
  }

  lemma BindsIfRouting(world: World, config: RouteStartupConfig, scope: RouteScope, proposalBytes: Text,
                       secretHex: Option<Text>, apiKey: Option<Text>, previous: Option<RoutePublication>, now: int,
                       zero: bool, m: OperatorRouteManifest)
    requires PreparedAs(world, config, scope, proposalBytes, secretHex, apiKey, previous, now, zero, m)
    requires Published(world, config, scope, now, m).Ok?
    requires DecodeManifest(world, world.manifestToJson(m)) == Ok(m)
    ensures VerifyBinding(world, config, scope, world.manifestToJson(m), proposalBytes).Ok?
            <==> ParseProposal(world, config, scope, proposalBytes).value.candidateBasisPoints != 0
  {
    AcceptedManifests(world, config, scope, world.manifestToJson(m), m);
    BoundExactly(world, config, scope, m, proposalBytes);
  }

  /** The law the preparation exists for. Whatever it prepares stays publishable, as the same publication,
      at every instant before it expires, signed or not; and it is bound to its proposal exactly if that
      proposal routes anything: a proposal of zero basis points prepares a manifest that never binds. */
  lemma PreparedManifestBinds(world: World, config: RouteStartupConfig, scope: RouteScope, proposalBytes: Text,
                              secretHex: Option<Text>, apiKey: Option<Text>, previous: Option<RoutePublication>,
                              now: int, zero: bool, later: int, signature: Option<Text>)
    requires Lawful(world)
    requires Prepare(world, config, scope, proposalBytes, secretHex, apiKey, previous, now, zero).Ok?
    ensures var (bytes, publication) :=
              Prepare(world, config, scope, proposalBytes, secretHex, apiKey, previous, now, zero).value;
            && (now <= later < publication.notAfter
                && (signature.Some? ==> Signed(world, config, bytes, signature.value))
                ==> ParsePublication(world, config, scope, bytes, signature, Some(later)) == Ok(publication))
            && ParseProposal(world, config, scope, proposalBytes).Ok?
            && (VerifyBinding(world, config, scope, bytes, proposalBytes).Ok?
                <==> ParseProposal(world, config, scope, proposalBytes).value.candidateBasisPoints != 0)
  {
    var m := PreparedManifest(world, config, scope, proposalBytes, secretHex, apiKey, previous, now, zero);
    var (bytes, publication) := Published(world, config, scope, now, m).value;
    assert DecodeManifest(world, bytes) == Ok(m);
    assert ParseManifest(world, config, scope, bytes).value.manifest == m;
    WholeSecondFacts(now);
    BindsIfRouting(world, config, scope, proposalBytes, secretHex, apiKey, previous, now, zero, m);
    if now <= later < publication.notAfter
       && (signature.Some? ==> Signed(world, config, bytes, signature.value)) {
      PublishableUntilExpiry(world, config, scope, now, m, later, signature);
    }
  }

  /** Every zero manifest names, as its predecessor, a live candidate route of the same proposal. */
  lemma ZeroManifestLineage(world: World, config: RouteStartupConfig, scope: RouteScope, proposalBytes: Text,
                            secretHex: Option<Text>, apiKey: Option<Text>, previous: Option<RoutePublication>, now: int)
    requires Lawful(world)
    requires Prepare(world, config, scope, proposalBytes, secretHex, apiKey, previous, now, true).Ok?
    ensures var publication :=
              Prepare(world, config, scope, proposalBytes, secretHex, apiKey, previous, now, true).value.1;
            && previous.Some? && previous.value.hasCandidate && previous.value.candidateBasisPoints != 0
            && publication.previousRouteRevision == Some(previous.value.revision)
            && publication.proposalSha256 == previous.value.proposalSha256 == world.sha256(proposalBytes)
            && !publication.hasCandidate && publication.candidateBasisPoints == 0
  {
    var m := PreparedManifest(world, config, scope, proposalBytes, secretHex, apiKey, previous, now, true);
    DigestTextRoundTrip(Hex(previous.value.revision), previous.value.revision);
    DigestTextRoundTrip(Hex(world.sha256(proposalBytes)), world.sha256(proposalBytes));
  }

  /** The gap between preparing and binding is real: every acceptable proposal of zero basis points, prepared
      as a candidate route, yields a publication, and that publication fails the binding check. */
  lemma ZeroProposalPreparesUnbound(world: World, config: RouteStartupConfig, scope: RouteScope, proposalBytes: Text,
                                    previous: Option<RoutePublication>, now: int, m: OperatorRouteManifest)
    requires Lawful(world) && HexToDigest(config.signingPublicKeyHex).Some?
    requires 1 <= |config.signingKeyId| <= MAX_KEY_ID_BYTES && now + OPERATOR_ZERO_VALID_FOR <= MAX_UTC
    requires var parsed := ParseProposal(world, config, scope, proposalBytes);
             parsed.Ok? && parsed.value.candidateBasisPoints == 0
    requires m == OperatorRouteManifest(
                    RouteSchema(), scope, Hex(world.sha256(proposalBytes)), Production, None, 0,
                    if previous.None? then None else Some(Hex(previous.value.revision)), None,
                    WholeSecond(now), WholeSecond(now) + OPERATOR_ZERO_VALID_FOR, config.signingKeyId)
    requires |world.manifestToJson(m)| <= MAX_ROUTE_MANIFEST_BYTES
    ensures var prepared := Prepare(world, config, scope, proposalBytes, None, None, previous, now, false);
            prepared.Ok? && VerifyBinding(world, config, scope, prepared.value.0, proposalBytes).Err?
  {
    WholeSecondFacts(now);
    DigestTextRoundTrip(Hex(world.sha256(proposalBytes)), world.sha256(proposalBytes));
    if previous.Some? {
      DigestTextRoundTrip(Hex(previous.value.revision), previous.value.revision);
    }
    assert DecodeManifest(world, world.manifestToJson(m)) == Ok(m);
    assert Published(world, config, scope, now, m).Ok?;
    PreparedManifestBinds(world, config, scope, proposalBytes, None, None, previous, now, false, now, None);
  }
}
