# Milk Carton, verified

Milk Carton is a gateway in front of the OpenAI API. It forwards each request to the baseline provider or, under a
signed route, to a candidate; it can record requests and responses for later training; and it is deployed, re-keyed and
exercised by a handful of operator tools. This project models the parts of it where a mistake would be hard to see from
one function, and proves what they are for.

Run `dafny verify dfyconfig.toml` to check everything.

* **Response capture.** `ByteSearch` and `TraceRecording` are the recorder that watches a relayed body chunk by chunk: it
  finds end-of-stream markers with a bounded tail, buffers the body under two limits and hands over a record.
  `ResponseStream` is the body as it is polled, failed, ended and dropped. The record is proved to be a function of what
  was received before the first ending, whatever the chunking. Markers are any list of byte strings, and a reserve may
  yield any capacity at least as large as asked for, or fail.
* **The gateway.** `Admission` is the checked arithmetic of the configuration. `ProxyRequest` is one request between its
  awaits, cut once more where it touches what the server's threads share, `Gateway` the transition system of all
  requests, permits, route generations and the poller, and `GatewaySafety` what holds in every reachable state.
  `GatewayHistory` traces every send and every record of a run back to the body, the answer and the signed publication it
  comes from, and `GatewayChoices` tells exactly what each step of a request decides. `ProxyFlow` and `RouteRefresh` are
  the same two operations as the code runs them, on shared mutable state, proved equal to the steps of the transition
  system.
* **Signed routes.** `RouteManifest` prepares, parses, publishes and binds manifests, `RoutePolicy` activates them
  against both clocks and decides, from the proposal to the request that is routed, `Sampling` is the sampling arithmetic, and `HexCodec` and `LivePointer` are the
  byte-level codecs.
* **Deploying.** `CloudProvider` is a provider whose commands fail before, during or after taking effect and promise
  nothing; `GatewayDeploy` is the deployment script with its polls, clean-up, rollback and evidence.
* **Candidate credential.** `CandidateCredential` installs, verifies and removes the candidate key, `ContainerRestart`
  is the container object that restarts and inspects the gateway, and `RouteReceipt` the object keys of a removal.
* **Workload.** `CanonicalJson` is the canonical printer, with a reader of JSON that reads back what it prints,
  `LaunchScheduling` the pacing of launches and `WorkerPooling` the pool that drives them.

Where the code works in place, a class has the code's fields and each method is proved equal to a function of the old
state; what the code promises is then proved about those functions over all histories. The functions of cryptography,
JSON and URL checking are parameters (`RouteManifest.World`) about which nothing is assumed, except where a lemma asks
for `Lawful`: reading a manifest back undoes printing it.

## What turned out false

* A selected response that was kept whole is not always captured: the record queue checks its limit once more, and a
  body that never brought a byte meets it there for the first time (`ResponseStream.OnlyEmptyBodiesMeetTheQueueLimit`
  says exactly when, `ResponseStream.EmptyAnswerToLargeRequest` gives the inputs).
* A candidate route prepared from a proposal of zero basis points is published but never bound
  (`RouteManifest.PreparedManifestBinds`, `RouteManifest.ZeroProposalPreparesUnbound`).
* A terminal report can say `succeeded` for a deployment that was undone: exactly if the deployment was accepted, its
  checks passed, all four closing files of the success were left, and a step after that failed
  (`GatewayDeploy.WhenTheReportIsFalse`; `GatewayDeploy.RolledBackYetReportedSucceeded` is such a run).
* A failed installation can leave its key behind: exactly if the `put` failed but took effect, or if the clean-up after
  a `put` that succeeded could not read the status or its `delete` failed without effect
  (`CandidateCredential.Install`; `CandidateCredential.FailedPutLeavesKey` and
  `CandidateCredential.BlindCleanUpLeavesKey` are such runs).
* Launches are not always an interval apart: exactly if, in some callback that found its time come, the second reading
  of the clock was again before that time, or some sleep ended before it was due (`LaunchScheduling.SpacedExactly`;
  `LaunchScheduling.ClockMustNotGoBack` and `LaunchScheduling.SleepMustNotEndEarly` are such runs). A clock that goes
  back between callbacks does no harm.
* A restart receipt can name a key that is no longer loaded: if the container changes between the credential check and
  the last read, the receipt is given all the same, and it is false exactly if another key came up
  (`ContainerRestart.RestartReceiptMayBeStale`, reached by `ContainerRestart.ConfirmingIsReached`). Where the container
  is only ever started with the bound key it is true (`ContainerRestart.RestartReceiptIsTrue`).
* An open fuse does not stop every send: a request that read the health flag before still sends
  (`GatewayChoices.SampledHealthStillSends`), and only such a request does (`GatewaySafety.FuseIsSticky`).
* The worker pool's recorded failure is not always final: a thrown `null` erases a thrown `undefined`, and the pool draws
  on (`WorkerPooling.UndefinedIsForgotten`). It ends without a failure exactly if no request throws a real error and the
  value thrown last is `null` or nothing was thrown (`WorkerPooling.JoinedPool`).

The code is followed where its prose differs: `README.md:169` of the repository speaks of four workers,
`tools/openai-production-path-workload.mjs:11` has two (the pool is proved for any number), and
`crates/milk-carton/src/proxy_tests.rs:358` uses a configuration field that `main.rs:343-362` does not have.

## Model

| member | source | states |
|---|---|---|
| ByteSearch.BoundarySearchSuffices | crates/milk-carton/src/main.rs:959-970 | searching the chunk, and then the old tail with the chunk's first bytes, finds a marker exactly if the tail followed by the whole chunk holds it |
| ByteSearch.TailSufficesForAll | crates/milk-carton/src/main.rs:933-984 | while no marker occurred, the bounded tail and the next chunk hold one exactly if everything received does |
| ByteSearch.SuffixAppend | crates/milk-carton/src/main.rs:972-983 | refreshing the tail keeps it the last bytes received, for chunks shorter and longer than the limit |
| TraceRecording.TraceRecorder.Observe | crates/milk-carton/src/main.rs:906-931 | one chunk changes the recorder as the specification function says, first byte, counter, detector and buffer |
| TraceRecording.TraceRecorder.ObserveStreamTerminal | crates/milk-carton/src/main.rs:933-984 | the in-place detector equals its specification, and touches nothing else |
| TraceRecording.TraceRecorder.Buffer | crates/milk-carton/src/main.rs:914-931 | a chunk is appended whole or the recorder gives up, by the response limit, the reserve and the record limit in that order |
| TraceRecording.TraceRecorder.MarkOversized | crates/milk-carton/src/main.rs:1015-1023 | giving up drops every captured byte |
| TraceRecording.TraceRecorder.Finish | crates/milk-carton/src/main.rs:1025-1060 | hands over the record the state calls for and takes the catalog, so a second call hands over nothing |
| TraceRecording.Records.TryCapture | crates/milk-carton/src/records.rs:4023-4029 | a capture whose catalog, bodies and headers are over the queue's limit leaves only its catalog, as an oversized observation |
| ResponseStream.UpstreamBody.PollNext | crates/milk-carton/src/main.rs:862-894 | a chunk reaches the client unchanged; a transport error opens the health flag and finishes the record; the end finishes it |
| ResponseStream.UpstreamBody.Drop | crates/milk-carton/src/main.rs:896-903 | dropping finishes the record as disconnected unless a marker was seen |
| ResponseStream.OpenStreamTracks | crates/milk-carton/src/main.rs:906-984 | while a stream is open the detector, tail, counter and buffer are functions of the bytes received so far |
| ResponseStream.ExactlyOneRecord | crates/milk-carton/src/main.rs:862-903 | over every history nothing is handed over before the first ending and exactly one record, that of the bytes received by then, after it |
| ResponseStream.FullCaptureExactly | crates/milk-carton/src/main.rs:1025-1060 | the record is a full capture exactly if selected, every chunk fitted, the queue takes a capture of that size, no transport error, and either a clean plain end or a marker seen; its response is all that was received |
| ResponseStream.OnlyEmptyBodiesMeetTheQueueLimit | crates/milk-carton/src/records.rs:4023-4029 | with the one limit the gateway configures, the queue refuses a kept body exactly if it never brought a byte and the rest alone is over the limit |
| ResponseStream.EmptyAnswerToLargeRequest | crates/milk-carton/src/main.rs:914-928 | a selected request over the limit, answered with an empty plain body, is recorded as oversized though no chunk was refused |
| ResponseStream.ChunkingIsInvisible | crates/milk-carton/src/main.rs:933-984 | whether a marker is seen does not depend on how the same bytes were chunked |
| ResponseStream.LimitsKept | crates/milk-carton/src/main.rs:914-931 | every recorder is, after any event, oversized and empty or within both limits |
| HexCodec.DigestTextRoundTrip | crates/milk-carton/src/route.rs:1457-1482 | a text decodes to a digest exactly if it is that digest's lower-case text: decoding and encoding are mutually inverse |
| HexCodec.HexDigest | crates/milk-carton/src/route.rs:1473-1481 | the encoding loop produces the digest's text |
| HexCodec.DecodeLowercaseHex32 | crates/milk-carton/src/route.rs:1457-1471 | the decoding loop accepts exactly the texts of digests and returns them |
| LivePointer.ParseUndoesPrinting | crates/milk-carton/src/route.rs:93-142 | every pointer built by `new` is read back from its bytes |
| LivePointer.AcceptedPrintsBack | crates/milk-carton/src/route.rs:109-142 | every accepted byte string is the encoding of the pointer it was read as |
| LivePointer.PointerRoundTrip | crates/milk-carton/src/route.rs:93-142 | bytes are read as a pointer of a scope exactly if they are its unique encoding |
| Sampling.SamplersAgree | crates/milk-carton/src/route.rs:1445-1448 | the route and capture samplers agree on every sample and share |
| Sampling.BasisPointShare | crates/milk-carton/src/main.rs:3746-3755 | exactly min(2^64, floor(bp * 2^64 / 10000)) samples are selected |
| Sampling.Share | crates/milk-carton/src/route.rs:1445-1448 | the product stays within 128 bits |
| Sampling.MoreBasisPointsSelectMore | crates/milk-carton/src/route.rs:1445-1448 | selection is monotone in the share |
| RouteManifest.PreparedManifest | crates/milk-carton/src/route.rs:442-526 | everything a successful preparation put into the manifest: the proposal's candidate, the digests of the key and of the secret, the fixed limits, window and lineage |
| RouteManifest.PublishableUntilExpiry | crates/milk-carton/src/route.rs:363-390 | a prepared manifest parses to the same publication at every later instant before it expires |
| RouteManifest.PreparedManifestBinds | crates/milk-carton/src/route.rs:618-669 | a prepared manifest stays publishable until it expires, and binds to its proposal exactly if the proposal has non-zero basis points |
| RouteManifest.ZeroManifestLineage | crates/milk-carton/src/route.rs:442-470 | every zero manifest names as predecessor a candidate route of the same proposal |
| RouteManifest.ZeroProposalPreparesUnbound | crates/milk-carton/src/route.rs:464-500 | an acceptable proposal of zero basis points does prepare as a candidate route, and the result fails the binding check |
| RouteManifest.AcceptedManifests | crates/milk-carton/src/route.rs:1158-1344 | parsing accepts exactly the canonical bytes of manifests of this scope and key that meet every condition of the format, and reports what they say |
| RouteManifest.AcceptedPublications | crates/milk-carton/src/route.rs:363-390 | a publication is accepted exactly if a signature that is given verifies under the configured key, the manifest is acceptable, and its window suits the instant |
| RouteManifest.AcceptedProposals | crates/milk-carton/src/route.rs:528-616 | which proposals are accepted |
| RouteManifest.NamesExactly | crates/milk-carton/src/route.rs:1375-1400 | what may stand in an identifier, a model name and a candidate name |
| RouteManifest.BoundExactly | crates/milk-carton/src/route.rs:618-669 | a manifest is bound to a proposal exactly if it names the digest of that proposal, copies its candidate or is a zero route with a predecessor, and is valid for exactly the prepared time |
| RouteManifest.BoundToOneProposal | crates/milk-carton/src/route.rs:618-669 | no manifest is bound to two proposals with different digests |
| RouteManifest.PreparesExactly | crates/milk-carton/src/route.rs:442-526 | a preparation succeeds exactly if its draft fits, its share is one and a key is configured, and prints that draft |
| RoutePolicy.ActiveExactly | crates/milk-carton/src/route.rs:831-921 | a loaded policy is signed by the configured key and active exactly if in its window, routing something, with both secrets there; it then carries the signed secret, credential, cohort and end, and the configured number of permits |
| RoutePolicy.LoadedExactly | crates/milk-carton/src/route.rs:831-921 | an acceptable manifest is loaded exactly if it is signed, the permits leave room for the baseline, and the configured secret and key are those it names |
| RoutePolicy.PreparedRouteLoads | crates/milk-carton/src/route.rs:831-921 | what was prepared and signed loads as an active route to the proposal's candidate, with the operator's secret, at every instant until it expires |
| RoutePolicy.RoutedExactly | crates/milk-carton/src/route.rs:987-1071 | a request is routed exactly if the route has not ended, the request is eligible, and its keyed cohort falls into the route's share of all 64-bit samples |
| RoutePolicy.ReasonsAreTrue | crates/milk-carton/src/route.rs:987-1071 | every reason given for the baseline is true of the route and the request |
| RoutePolicy.CandidateOnlyInsideWindow | crates/milk-carton/src/route.rs:987-1071 | a candidate decision happens only inside the signed window and never for a zero route |
| RoutePolicy.ExpiryIsFinal | crates/milk-carton/src/route.rs:987-1001 | once one call has seen expiry every later call answers expired |
| RoutePolicy.CohortsAreNested | crates/milk-carton/src/route.rs:1436-1448 | of two loaded routes with the same candidate object and secret, the one with the larger share keeps every request the other routes |
| Admission.AcceptedConfig | crates/milk-carton/src/main.rs:557-576 | a configuration is accepted exactly if its limits are positive, a record fits the queue, and the bytes of a full gateway are within the configured ones and the machine word |
| ProxyRequest.FallBackOk | crates/milk-carton/src/main.rs:3376-3399 | a fallback opens the fuse and gives the permit back, logs both, and then sends the same body to the baseline or nothing |
| ProxyRequest.StartedOk | crates/milk-carton/src/main.rs:3217-3370 | taking a permit and sending keeps the request invariant, and sends to the candidate only if it was sampled healthy and a permit was there |
| ProxyRequest.BodyReadOk | crates/milk-carton/src/main.rs:3195-3370 | so does the whole segment after the body when nothing happens in between |
| ProxyRequest.CandidateChecksAreDead | crates/milk-carton/src/main.rs:3400-3473 | a candidate response that passed the fallback tests is relayed: the later candidate failure branches are unreachable |
| ProxyRequest.AnsweredOk | crates/milk-carton/src/main.rs:3371-3552 | the segment after an upstream answer keeps the request invariant and never sends to the candidate |
| ProxyRequest.PolledOk | crates/milk-carton/src/main.rs:862-894 | relaying keeps the request invariant, and opens the fuse exactly on a stream error of the candidate |
| ProxyRequest.LeftOk | crates/milk-carton/src/main.rs:896-903 | a request dropped at any await keeps the invariant and holds no permit |
| ProxyRequest.SendsFollowProtocol | crates/milk-carton/src/main.rs:3336-3473 | at most one send to each side, never the candidate after the baseline, the fuse and the permit between them, the same body and one deadline for both, and only fit candidate responses relayed |
| Gateway.StepKeepsInv | crates/milk-carton/src/main.rs:3115-3552 | every step of a request, of an outcome request and of the poller keeps the permit, request and memory invariants |
| Gateway.RefreshedRuntimeOk | crates/milk-carton/src/main.rs:672-698 | a runtime built for a new policy has a candidate exactly if the policy is active, with fewer permits than the gateway |
| Gateway.BuiltExactly | crates/milk-carton/src/main.rs:672-698 | a runtime is built exactly for a dormant policy or one whose admitted key is the configured one |
| Gateway.RunKeepsInv | crates/milk-carton/src/main.rs:3115-3552 | so does every interleaving |
| GatewaySafety.PermitsAreConserved | crates/milk-carton/src/main.rs:3134-3221 | in every reachable state free and held permits of the gateway, of the outcome endpoint and of every generation's candidate add up to the configured numbers, and the candidate's is below the gateway's |
| GatewaySafety.ActiveBytesBounded | crates/milk-carton/src/main.rs:557-576 | under an accepted configuration the bodies and capture buffers of all requests in flight never exceed `max_active_body_bytes` |
| GatewaySafety.EveryRequestFollowsProtocol | crates/milk-carton/src/main.rs:3336-3473 | every request of every run follows the send protocol and hands over at most one record |
| GatewaySafety.FuseIsSticky | crates/milk-carton/src/main.rs:3195-3221 | a generation that is unhealthy stays so in every continuation, and no request sends to it that had not read its health flag before |
| GatewayChoices.SampledHealthStillSends | crates/milk-carton/src/main.rs:3210-3365 | a request that had read it, with a permit and a sendable candidate, does send |
| GatewaySafety.CandidateFailureOpensTheFuse | crates/milk-carton/src/main.rs:3348-3399 | a candidate that cannot be sent to, does not answer fit, or breaks its stream opens the fuse of the request's generation; its permit is back before the baseline is tried |
| GatewaySafety.OnlyThePinnedGenerationChanges | crates/milk-carton/src/main.rs:4083-4087 | an installed generation changes only by sending for, answering, relaying or dropping a request that pinned it; pinning, sampling and polling leave all as they are |
| GatewaySafety.RefreshOnlyAppends | crates/milk-carton/src/main.rs:1798-1835 | a poll installs one fresh runtime exactly if the live route is new, signed, loadable and named by its own digest, and otherwise changes nothing |
| GatewaySafety.RefreshedExactly | crates/milk-carton/src/main.rs:1798-1835 | when a poll installs a runtime, and that it is the loaded policy with a fresh transport |
| GatewaySafety.PreparedRouteGoesLive | crates/milk-carton/src/main.rs:1798-1835 | a candidate route prepared, signed and published is in force, healthy and with all permits free, after the next poll before it expires, in every reachable state |
| GatewaySafety.IdlePollsAreInvisible | crates/milk-carton/src/main.rs:1837-1874 | leaving every poll that fails or finds nothing new out of any interleaving changes nothing in its final state |
| GatewayHistory.EveryRequestIsTold | crates/milk-carton/src/main.rs:3115-3552 | in every run, what a request pinned, sent, relayed and recorded is what the steps of the run make it |
| GatewayHistory.EveryGenerationWasLoaded | crates/milk-carton/src/main.rs:1798-1835 | every installed generation but the first is the policy of a publication that was loaded |
| GatewayHistory.CandidateSendsAreEntitled | crates/milk-carton/src/main.rs:3195-3221 | over all runs, a body goes to the candidate only if the pinned policy decided so, and that policy came from a signed publication, inside its window, for an eligible request whose cohort falls into the signed share |
| GatewayHistory.SampledExactly | crates/milk-carton/src/main.rs:3195-3216 | the end of a body pins the generation in force, and the candidate is sampled exactly if its policy decides for it and its fuse is closed |
| GatewayHistory.CapturedExactly | crates/milk-carton/src/main.rs:3489-3549 | over all runs, a finished request handed over at most one record, and a capture of its own body and of all it received exactly if it was selected, every chunk was kept, nothing broke, and the marker of its endpoint arrived in an event stream or a plain response ended |
| GatewayChoices.AdmittedExactly | crates/milk-carton/src/main.rs:3134-3145 | a request is let in exactly if there is room, and one that leaves makes room |
| GatewayChoices.OutcomeAdmittedExactly | crates/milk-carton/src/main.rs:2954-2980 | so is an outcome request, and one that outgrows its limit is dropped |
| GatewayChoices.BodyLimitExactly | crates/milk-carton/src/main.rs:3147-3175 | a body is read up to the limit and no further |
| GatewayChoices.SentExactly | crates/milk-carton/src/main.rs:3217-3370 | where a request goes, exactly: to the candidate if sampled, with a permit, sendable and in time; else to the baseline if possible; and if nowhere, its record says why |
| GatewayChoices.AnsweredExactly | crates/milk-carton/src/main.rs:3371-3473 | what becomes of an answer, exactly: a fit one is relayed, any other from the candidate sends the same body to the baseline, the candidate keeps its health exactly if its answer was fit, and a request that ends here has a record that says why |
| GatewayChoices.FuseOpensExactly | crates/milk-carton/src/main.rs:4083-4087 | over all runs a fuse opens exactly when its candidate cannot be sent to, does not answer fit or breaks its stream, for a request that pinned it |
| ProxyFlow.Choose | crates/milk-carton/src/main.rs:3195-3229 | deciding, sampling health and taking a permit chooses the candidate exactly if the policy decides for it, it is healthy and a permit is free, and then takes that permit |
| ProxyFlow.Respond | crates/milk-carton/src/main.rs:3400-3552 | the rest of the function equals the segment after an answer, looks for markers exactly in an event stream, and gives the permit back exactly if the request ended |
| ProxyFlow.FallBackToBaseline | crates/milk-carton/src/main.rs:3376-3399 | the fallback block equals the fallback segment, with the fuse open and the permit returned |
| ProxyFlow.Exchange | crates/milk-carton/src/main.rs:3336-3552 | sending, falling back at most once and responding equals the segments of the request in order |
| ProxyFlow.ProxyOpenai | crates/milk-carton/src/main.rs:3115-3552 | the whole function equals the segments of the request in order, and leaves the shared health flag and permits as they say |
| RouteRefresh.RouteHolder.Refresh | crates/milk-carton/src/main.rs:1798-1835 | the runtime in force changes exactly if a new verified runtime was built, and then to that one |
| CanonicalJson.QuotedIsUnambiguous | tools/openai-production-path-workload.mjs:27-30 | a quoted string tells where it ends and which string it is, whatever follows |
| CanonicalJson.SortByKeySorts | tools/openai-production-path-workload.mjs:25-26 | the members are strictly sorted by key and exactly those of the object |
| CanonicalJson.PrintingIsUnambiguous | tools/openai-production-path-workload.mjs:22-31 | two printed values that start the same text are equal up to key order and leave the same rest |
| CanonicalJson.SameValuesPrintTheSame | tools/openai-production-path-workload.mjs:22-31 | values equal up to key order print the same |
| CanonicalJson.CanonicalForm | tools/openai-production-path-workload.mjs:22-31 | two values print to the same text exactly if they are equal up to object key order |
| CanonicalJson.TextReadsBack | tools/openai-production-path-workload.mjs:22-31 | a reader of compact JSON reads the printed text back as the value, with its keys in order at every depth and nothing left over |
| CanonicalJson.ReadUndoes | tools/openai-production-path-workload.mjs:22-31 | so it does whatever text follows |
| CanonicalJson.KeyOrderExactly | tools/openai-production-path-workload.mjs:25-26 | the order of keys is by first differing code unit, with a proper beginning first |
| CanonicalJson.PlainTextStays | tools/openai-production-path-workload.mjs:27-30 | text without quotes, backslashes, control characters and lone surrogates is not escaped |
| CanonicalJson.EscapedIsWellFormed | tools/openai-production-path-workload.mjs:27-30 | what is printed holds no lone surrogate |
| CanonicalJson.EscapesAreShortest | tools/openai-production-path-workload.mjs:27-30 | no shorter JSON escape reads as the same unit |
| CanonicalJson.SurrogatesExactly | tools/openai-production-path-workload.mjs:27-30 | which units are halves of a surrogate pair |
| LaunchScheduling.LaunchScheduler.Call | tools/openai-production-path-workload.mjs:48-57 | a call chains one more promise on `pending`, which becomes that promise |
| LaunchScheduling.LaunchScheduler.Begin | tools/openai-production-path-workload.mjs:49-55 | a callback launches at once or asks for exactly the rest of the interval |
| LaunchScheduling.LaunchScheduler.Wake | tools/openai-production-path-workload.mjs:52-54 | a sleep that ends launches its caller at the reading made then |
| LaunchScheduling.LaunchScheduler.SleepRejects | tools/openai-production-path-workload.mjs:49-55 | a sleep that rejects rejects its caller's promise without a launch |
| LaunchScheduling.FirstCalledFirstLaunched | tools/openai-production-path-workload.mjs:45-58 | in every run the promises form one chain in call order and the launches are those of the first callers, one each, in that order |
| LaunchScheduling.OneCallbackAtATime | tools/openai-production-path-workload.mjs:45-58 | at most one callback can run or is asleep, and it is the next caller's |
| LaunchScheduling.NobodyLaunchesAfterRejection | tools/openai-production-path-workload.mjs:45-58 | once a promise is rejected nobody is let go in any continuation |
| LaunchScheduling.TurnsOnlyAppend | tools/openai-production-path-workload.mjs:45-58 | a turn adds at most the launch of the next caller |
| LaunchScheduling.SpacedExactly | tools/openai-production-path-workload.mjs:45-58 | in every run launches are at least an interval apart exactly if no callback launched at a reading before its time and no sleep ended before it was due |
| LaunchScheduling.HonestTurnsKeep | tools/openai-production-path-workload.mjs:49-55 | which holds if readings do not go back within one callback and sleeps take as long as asked |
| LaunchScheduling.LaunchesAreSpaced | tools/openai-production-path-workload.mjs:45-58 | then any two launches are as many intervals apart as there are launches between them |
| LaunchScheduling.ClockMustNotGoBack | tools/openai-production-path-workload.mjs:49-55 | a run in which the clock goes back within one callback, and two launches coincide |
| LaunchScheduling.SleepMustNotEndEarly | tools/openai-production-path-workload.mjs:49-55 | a run in which a sleep ends early, and two launches coincide |
| WorkerPooling.WorkerPool.constructor | tools/openai-production-path-workload.mjs:278-292 | the workers start in order, each drawing its first index |
| WorkerPooling.WorkerPool.Resume | tools/openai-production-path-workload.mjs:282-290 | a worker that resumes records its outcome in its own slot and draws the next index or finishes |
| WorkerPooling.FoldedExactly | tools/openai-production-path-workload.mjs:287-289 | values thrown in some order leave a real error if there was one, and otherwise the last value thrown |
| WorkerPooling.EveryRunKeepsInv | tools/openai-production-path-workload.mjs:278-293 | in every interleaving indices are drawn once and in order, no two workers share one, every index that came back has its own outcome recorded, and the failure is what the values thrown so far leave |
| WorkerPooling.JoinedPool | tools/openai-production-path-workload.mjs:292-293 | the joined pool has no failure exactly if nothing threw a real error and the value thrown last, if any, was `null`; then every index ran once with its own answer in its slot |
| WorkerPooling.JoinedPoolWithoutUndefined | tools/openai-production-path-workload.mjs:292-293 | where nothing throws `undefined`, exactly if all that was thrown was `null` |
| WorkerPooling.NothingDrawnWhileFailureStands | tools/openai-production-path-workload.mjs:282-290 | over every continuation nothing is drawn for as long as a failure stands |
| WorkerPooling.FirstErrorIsFinal | tools/openai-production-path-workload.mjs:282-290 | a first real error stays the failure in every continuation, and nothing is drawn after it |
| WorkerPooling.NothingDrawnAfterFailure | tools/openai-production-path-workload.mjs:282-290 | one step erases a failure exactly if a thrown `null` meets a thrown `undefined` |
| WorkerPooling.UndefinedIsForgotten | tools/openai-production-path-workload.mjs:282-293 | a run of two workers in which a thrown `undefined` is erased, another index is drawn and the pool ends without a failure |
| GatewayDeploy.Poll | tools/deploy-private-gateway.sh:1326-1436 | a poll succeeds only on one attempt that saw the expected health, configuration, Worker and image together |
| GatewayDeploy.ThreeProofs | tools/deploy-private-gateway.sh:1261-1277 | the counter reaches three exactly if the last three attempts proved absence with both waits between them kept |
| GatewayDeploy.TryOnce | tools/deploy-private-gateway.sh:1235-1260 | an attempt that proves absence issued no delete and both resources were absent; one that deletes, deletes exactly what it saw, and what it saw was there |
| GatewayDeploy.CleanUp | tools/deploy-private-gateway.sh:1230-1289 | reports success exactly if the last three attempts proved absence, at the first such moment, in at most six attempts, and then nothing is there; nothing but deletes is issued; where commands do what they should, it succeeds |
| GatewayDeploy.Evidence.Write | tools/deploy-private-gateway.sh:470-489 | a closing file is created only by the first attempt that comes to it, and an error may leave it or not |
| GatewayDeploy.Evidence.Finalize | tools/deploy-private-gateway.sh:491-552 | closes the evidence at most once, leaves exactly the files its steps left, and the terminal report exactly if it came to the last |
| GatewayDeploy.Prepare | tools/deploy-private-gateway.sh:1575-1862 | a first deployment goes ahead only where nothing exists, a replacement only if what it recorded as previous is live, healthy and unchanged at that moment |
| GatewayDeploy.Accept | tools/deploy-private-gateway.sh:1874-2004 | acceptance passes only after one poll attempt saw the target image and configuration and another Worker than before |
| GatewayDeploy.Attempted | tools/deploy-private-gateway.sh:1575-2008 | the deployment command is issued only after the preparation, and nothing is issued when that fails |
| GatewayDeploy.RollBack | tools/deploy-private-gateway.sh:2027-2119 | restore, acceptance of the previous image and configuration, Worker rollback and acceptance of everything previous happen in that order or stop |
| GatewayDeploy.Recover | tools/deploy-private-gateway.sh:2018-2119 | each recovery outcome is true of the commands issued and of what the polls saw |
| GatewayDeploy.Deploy | tools/deploy-private-gateway.sh:1575-2008 | the run succeeds exactly if it was accepted, its checks passed and its evidence was closed |
| GatewayDeploy.DeployGateway | tools/deploy-private-gateway.sh:1438-2157 | whatever fails, the outcome decided is true of everything issued and seen, and the outcome reported and the terminal report are exactly those that follow from it; where commands do what they should, a deployment is accepted, and one that fails afterwards is undone |
| GatewayDeploy.CommandsIssued | tools/deploy-private-gateway.sh:1863-2085 | the first command deploys the image of the plan, and a rollback deploys the image that was live before it, each with its configuration exactly if that is not kept |
| GatewayDeploy.SucceededMeansAccepted | tools/deploy-private-gateway.sh:1874-2004 | a success was accepted by one look that saw health, the image and configuration of the plan, and another Worker than before |
| GatewayDeploy.WhenTheReportIsFalse | tools/deploy-private-gateway.sh:2004-2157 | the exact condition under which the terminal report is not the outcome decided; the script then reports neither |
| GatewayDeploy.RolledBackYetReportedSucceeded | tools/deploy-private-gateway.sh:2004-2157 | a run that is rolled back to what was live and whose terminal report says it succeeded |
| GatewayDeploy.WorkerRollbackIsGuarded | tools/deploy-private-gateway.sh:2087-2109 | a Worker is rolled back only to the Worker live before the deployment, and only when the previous image and configuration are live and healthy again |
| GatewayDeploy.RolledBackMeansRestored | tools/deploy-private-gateway.sh:2100-2119 | a deployment reported as rolled back ended with the Worker, image and configuration that were live when it began |
| CandidateCredential.AssertAdmitted | tools/manage-candidate-credential.py:555-566 | passes only on the admitted image, application version and, if given, Worker |
| CandidateCredential.WaitForWorker | tools/manage-candidate-credential.py:432-439 | returns only a version other than the previous one |
| CandidateCredential.CallAdmin | tools/manage-candidate-credential.py:442-512 | a receipt is believed only if it fits the operation; a restart receipt means the container restarted with the bound key |
| CandidateCredential.Install | tools/manage-candidate-credential.py:569-607 | an acknowledged installation is a state a removal of it can start from; after a failed one the key is there exactly if the put or its clean-up failed in one of three ways; where commands succeed, an admitted gateway without a key ends up with it acknowledged |
| CandidateCredential.CompleteInstall | tools/manage-candidate-credential.py:580-604 | what follows a successful put: acknowledgement, or one clean-up unless the status cannot be read |
| CandidateCredential.UndoInstall | tools/manage-candidate-credential.py:590-603 | the clean-up issues one delete exactly if it can read the status, and leaves the secret as that delete did |
| CandidateCredential.FailedPutLeavesKey | tools/manage-candidate-credential.py:575-592 | a schedule on which only the put fails, and the key stays |
| CandidateCredential.BlindCleanUpLeavesKey | tools/manage-candidate-credential.py:590-603 | a schedule on which the put succeeds, two status commands fail, and the key stays |
| CandidateCredential.Verify | tools/manage-candidate-credential.py:610-624 | what verification acknowledges is true of the secret and of the container after the restart it made; where commands succeed, it answers exactly if the secret and the binding agree |
| CandidateCredential.DeleteReleased | tools/manage-candidate-credential.py:632-656 | the secret is deleted only when the live Worker, image and loaded key are those of the requested release |
| CandidateCredential.ConfirmRemoved | tools/manage-candidate-credential.py:659-666 | absence is acknowledged only with the secret gone and the container restarted without the key |
| CandidateCredential.Remove | tools/manage-candidate-credential.py:627-666 | both of these, with another Worker than the removed release; whatever fails, the same request can be made again, and it succeeds exactly when commands do and no version is still rolling out |
| CandidateCredential.InstallVerifyRemove | tools/manage-candidate-credential.py:569-666 | where commands succeed, an installation is acknowledged, a verification confirms it, and a removal of that acknowledgement leaves neither secret nor key |
| CandidateCredential.ReleaseNamesOneGateway | tools/manage-candidate-credential.py:526-535 | a release digest stands for one application, image, application version and Worker |
| RouteReceipt.AcceptedReceipts | tools/manage-candidate-credential.py:218-241 | a receipt is accepted exactly if its keys are those of one scope, its revision and one signature, and the prefix is that scope's |
| RouteReceipt.NamesExactly | tools/manage-candidate-credential.py:218-241 | scopes and signatures are named by groups of lower-case hexadecimal digits |
| ContainerRestart.MilkCarton.BeginRestart | deploy/cloudflare/worker.js:198-208 | a restart throws at once or takes the flag and the time |
| ContainerRestart.MilkCarton.Resume | deploy/cloudflare/worker.js:208-265 | the code between two awaits of a restart or an inspection is the step the interleaving lemmas are about, and a restart lowers the flag exactly when it settles, however it settles |
| ContainerRestart.EveryRunKeepsInv | deploy/cloudflare/worker.js:142-266 | in every interleaving the flag, the spacing and what each call remembers of the container stay right |
| ContainerRestart.RestartsExcludeEachOther | deploy/cloudflare/worker.js:198-265 | at most one restart is in progress, and the flag is down whenever none is |
| ContainerRestart.RestartsAreSpaced | deploy/cloudflare/worker.js:199-207 | admitted restarts start at least a second apart by the clock they read, whatever it does |
| ContainerRestart.RestartReceiptIsNewer | deploy/cloudflare/worker.js:245-261 | a restart receipt shows a healthy container of a strictly newer generation than the call first saw, and the key it loaded if it did not change after the check |
| ContainerRestart.RestartReceiptIsTrue | deploy/cloudflare/worker.js:238-261 | where every start loads the bound key, the key in a restart receipt is the one loaded |
| ContainerRestart.RestartReceiptMayBeStale | deploy/cloudflare/worker.js:245-261 | a change after the check does not stop the receipt, which is false exactly if another key came up |
| ContainerRestart.ConfirmingIsReached | deploy/cloudflare/worker.js:198-245 | a run that comes as far as the last read |
| ContainerRestart.InspectionSpansNoChange | deploy/cloudflare/worker.js:172-196 | an inspection receipt is given exactly if the container did not change in between, and reports the key that generation loaded |
| ContainerRestart.ReceiptsFitTheirCalls | deploy/cloudflare/worker.js:166-261 | over every run, what gets past its binding and what is acknowledged is for the key of its call: the expected key to install, none to remove, either to verify or inspect |
| ContainerRestart.BoundCallsGoOn | deploy/cloudflare/worker.js:166-219 | a call goes past its binding exactly if the bound key is what its operation is for |
| ContainerRestart.StartsOnlyWhatIsDown | deploy/cloudflare/worker.js:220-244 | a restart starts the container only once it saw it down, gives up after 80 looks, and an inspection goes on only with a healthy one |

## Left out

- GatewaySafety.ActiveBytesBounded: counts request bodies and response buffers, as the configuration arithmetic does, not catalogs, headers or the transient peak of a reserve that is refused right after; the record memory check first runs on the first non-empty chunk.
- GatewaySafety.PermitsAreConserved: the reservation holds for each route generation; an old and a new generation together may fill the gateway.
- GatewaySafety.FuseIsSticky: health is per generation. Reading the flag, taking a permit and pinning are separate steps; taking the permit and sending are one, since nothing shared is touched between them.
- GatewayDeploy.Poll: the provider is taken not to change within one poll attempt, within one clean-up attempt, and between the check of the previous deployment and the deployment command, during which only files are staged. In every other step it may change in any way, except that nothing is created before the script's first command.
- GatewayDeploy.RollBack: that the restore was accepted says what is live, not that the restore command reported success; the restore poll accepts any single active Worker.
- CandidateCredential.Remove: nobody else changes the gateway or starts its container with another key, and a rollout advances only during waits and between runs; the process release digest is any function, so equal digests mean equal releases only as far as that function is injective.
- ContainerRestart.InspectionSpansNoChange: every change of the container gives `lastChange` a later value; the fields of the object are taken to live as long as its runs, without eviction.
- Whether the client library ever throws `null` or `undefined` is not part of this model; the `catch` of a request rethrows whatever it gets (`tools/openai-production-path-workload.mjs:150-155`).
- The gateway and its requests are modelled on values, as a state machine over segments between awaits, because its subject is interleaving; `ProxyFlow` and `RouteRefresh` give the imperative form for one request and one poll on their own. Memory ordering of the health flag is not modelled.
- Route response headers: candidate identity headers may accompany a response relayed from the baseline after a fallback, and nothing is claimed about them.
- A route loaded before its window becomes dormant and is not looked at again while the revision is the same; no eventual activation is claimed.
- Clock readings are integers; instants that overflow their machine representation are modelled only where the code checks them.
- The live pointer is read for strings that need no escape. A pointer with others is refused by both, possibly with another error.
- Canonical JSON prints the values the workload builds: numbers are their printed text, and `undefined`, functions and `toJSON` are not part of this model.
- Record storage: `try_enqueue` and its queue budget may drop what was handed over; persistence, expiry, leases and training jobs are not part of this model.
- Building the candidate's HTTP client while refreshing a route, connection handling, TLS, and server-sent-event parsing beyond the search for markers.
- Configuration range checks, header allow-lists, URL validation and request parsing, except as inputs.
- The remaining preflight checks of the deployment (release evidence, source and tool authority, registry copy) are steps that may fail; file ownership, process and signal mechanics, and an interrupt between a failure and the moment signals are ignored.
- Fields of a removal request other than its receipts' object keys, and the wording of acknowledgements.
