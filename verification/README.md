# nexus-router: health, failover and stream codecs, verified

nexus-router puts one OpenAI-compatible endpoint in front of several upstream model providers. It keeps a health
state per upstream, plans every request over the upstreams that may serve, fails over between them until output
has been produced, and relays the upstream's event stream to the client. This project models that core in Dafny
and proves what it promises over every run, every stream and every request.

How the pieces fit together:

- **Health of one upstream.** `HealthSpec` is the state machine as a value: `Step` for a recorded event, `Refresh`
  for a read, `Exec` for a run. `HealthInvariant`, `HealthReachable` and `HealthTrace` prove its laws over all runs, and
  `HealthReports` and `SnapshotReports` that everything a snapshot reports is a fact about the accepted events.
  `HealthRuntime.Runtime` is the mutable runtime; each of its methods is proved to do to every upstream exactly
  what the machine says, and `UpstreamsAreIndependent` carries every law about one upstream over to the runtime.
- **Circuit breaker.** `CircuitBreaker.Breaker` is the small closed/open/half-open breaker of the repository.
  `BreakerSimulation` proves that the runtime refines it.
- **Routing and readiness.** `Router` is model matching and the planner, `Readiness` the `/readyz` check with its own
  algorithm, and the proof that the two agree.
- **Requests.** `Orchestrator` is the executor and the failover loop, `Failover` its feedback to the runtime, and
  `System` the whole machine of sequential requests, probes and reads with the bound on attempts at a dead upstream.
- **Prober.** `Prober` is the first sweep of the probing goroutines as a protocol of single steps under a lock.
- **Streams.** `Lines` scans text into lines, `OpenAIStream` and `AnthropicStream` decode, `Relay` prints and
  aggregates, and `RelayProofs` closes the loop at the level of characters. `AnthropicWire` writes down what an
  upstream sends by its own keys, and `StreamClient` is a client that reads every field of what is printed.
- **Requests as JSON.** `ChatCodec` and `ResponsesCodec` decode public requests and encode upstream payloads;
  `ChatRoundTrip` and `ResponsesRoundTrip` prove that the one undoes the other. `ChatRequestMeaning` and
  `ResponsesRequestMeaning` say, key by key, which bodies are accepted and what an accepted one says.

Conventions:

- Times are natural numbers and 0 is the zero time. Events carry their own time stamp. A call that reads the clock
  several times takes a `Clock`, a function from the number of the reading to its value; nothing relates two readings.
- A state-changing method is specified by a function on values (`ensures runtime.Contents() == ...`), and the laws are
  proved about that function.
- Runs, streams and lists are sequences that grow at the end, so most proofs are by induction on the last element.
- The JSON library is a `Codec`, a pair of arbitrary functions. Proofs that print and read back assume it `Lawful`:
  the text of an object is one line in braces and is read back as that object.
- `Adapters` are the two provider adapters the executor is given. Everything about planning, failover and feedback
  holds for arbitrary ones; `StreamAdapters` are those that decode streams.
- `UrlParser` is an arbitrary function: the URL library, which may reject a text.

Where the code does something other than one might expect:

- An event stamped with the zero time can be applied twice (`internal/health/runtime.go:330`).
  `RedeliveryHasNoEffect` says exactly when redelivery is rejected.
- Two route groups of one name pass validation. The planner takes the first and readiness the last
  (`internal/router/selection.go:20-24`, `internal/httpapi/handlers/health.go:57-62`). `AlwaysAgreeIff` says for which
  configurations the two nevertheless agree on everything the runtime can report: for each model, what the planner can
  choose from must include all the known providers the check looks at for some model, and the other way round.
  `ReadyMeansPlannableIff` says for which public models readiness means a non-empty plan. `DuplicateGroupsDisagree` is
  a validated configuration on which the check passes and the planner has nowhere to go.
- An Anthropic stream with a stop reason ends in two stop events (`internal/providers/anthropic/stream.go:140-148`),
  so the responses relay prints two `response.completed` frames. `OutputMatchesTheLines` states both and their order.
- The chat decoder ignores tool calls (`internal/providers/openai/stream.go:109-116`), so tool events do not survive
  a print and a decode. `ChatView` shows what does.
- The runtime drops failures that arrive with older time stamps; the breaker counts them.
  `LateFailuresSeparateThem` shows, for all parameters, why the refinement needs increasing times.
- Of several candidates of one name in a group each is planned and attempted, so the bound on attempts depends on how
  often a group lists an upstream (`EjectionBound`, attained by `EjectionBoundIsTight`).

## Model

| member | source | states |
|---|---|---|
| `HealthInvariant.ExecKeepsInv` | `internal/health/runtime.go:169-364` | Every run of records and reads keeps the joint invariant: failures have reached the threshold iff open or half-open; open means both window ends are the last accepted time plus the interval; half-open means the window has ended or nothing was accepted since the ejection; otherwise both are zero |
| `HealthInvariant.AdmittedIsNeverOpen` | `internal/health/runtime.go:341-364` | No accepted event ever finds an upstream open, so the open cases of the recording methods are dead |
| `HealthInvariant.RejectionPersistsOverRun` | `internal/health/runtime.go:329-364` | The acceptance floor never moves down: a time stamp rejected now is rejected after any run |
| `HealthInvariant.RedeliveryHasNoEffect` | `internal/health/runtime.go:329-339` | Delivering any earlier event of a run again is rejected exactly if its time or the last accepted time is set or the upstream is ejected; a real time stamp never changes anything the second time |
| `HealthInvariant.ZeroTimeIsCountedTwice` | `internal/health/runtime.go:330` | The exception: a failure stamped with the zero time counts twice |
| `HealthInvariant.ReadsDoNotMatter` | `internal/health/runtime.go:97-153` | Deleting all reads from a run, under any clocks, leaves the accepted events and the state, up to the open-to-half-open refresh |
| `HealthInvariant.ReadsNeverInfluenceEligibility` | `internal/health/runtime.go:97-108` | Every eligibility answer is the one the recorded events alone give, at any two readings of the clock |
| `HealthReachable.ExactlyTheReachableStates` | `internal/health/runtime.go:33-47` | The invariant with its timing bounds holds of exactly the states some run reaches |
| `HealthReachable.TimelyIsReachable` | `internal/health/runtime.go:169-311` | Constructs a run to every state that satisfies them |
| `HealthTrace.RunOfAcceptedEvents` | `internal/health/runtime.go:329-339` | A run is the run of its accepted events, up to the refresh: what was rejected left no trace |
| `HealthTrace.AcceptedIncrease` | `internal/health/runtime.go:330` | In every run the accepted events are strictly increasing in time from the first real time stamp on, and altogether iff no two of them carry the zero time |
| `HealthTrace.CountersMatchTheTrace` | `internal/health/runtime.go:185-207` | In service the failure counter is the number of accepted counting failures since the last accepted success; while ejected the success counter is the number of probe successes since the ejection, all after the window, with no probe failure among them |
| `HealthTrace.EjectionsAreSpaced` | `internal/health/runtime.go:226-246` | In any run, successive ejections are an interval apart, and interval + recovery threshold - 1 + failure threshold apart after a recovery |
| `HealthTrace.EjectionsTakeTimeAndFailures` | `internal/health/runtime.go:239-246` | k ejections span at least k - 1 intervals and took at least failure threshold + k - 1 accepted counting failures |
| `HealthTrace.RecoveryNeedsProbeEvidence` | `internal/health/runtime.go:185-195` | In every run, zero times included, an ejected upstream serves again only after recovery-threshold many accepted probe successes with different times, all past the window of the latest ejection, and no accepted probe failure since; the restoring call is one of those probes, never a request |
| `HealthReports.ServesIffSucceeded` | `internal/health/runtime.go:198-206` | In every run, an upstream that is not ejected is healthy iff some success was accepted |
| `HealthReports.EligibleIff` | `internal/health/runtime.go:97-108` | In every run, at any reading of the clock: eligible iff not ejected and some success was accepted |
| `HealthReports.AcceptedIff` | `internal/health/runtime.go:329-364` | After every run an event is accepted iff it is later than every accepted event with a real time and, while ejected, not before the latest ejection plus the interval |
| `HealthReports.FailuresWhileEjected` | `internal/health/runtime.go:229-246` | An ejected upstream's failure count is the threshold plus the failed recoveries since it last served |
| `HealthReports.ReportsMatchTheTrace` | `internal/health/runtime.go:181-183` | Last probe time and outcome, last request time, last error and origin are those of the accepted events: a request success clears the error only in service, and the origin is that of the latest event that ejected the upstream or put it into service |
| `SnapshotReports.SnapshotTellsTheTrace` | `internal/health/runtime.go:110-153` | After any calls on a new runtime, every field of every status of a snapshot is a fact about the events its upstream accepted |
| `HealthRuntime.UpstreamsAreIndependent` | `internal/health/runtime.go:169-311` | In any run of the runtime each upstream goes through exactly the run of its own calls |
| `HealthRuntime.KnownNamesAreDistinct` | `internal/health/runtime.go:78-92` | The constructor keeps one entry per non-empty name, and every non-empty name |
| `HealthRuntime.KnownNamesKeepOrder` | `internal/health/runtime.go:78-92` | The kept names stand in the order of their first entries |
| `HealthRuntime.Runtime.constructor` | `internal/health/runtime.go:49-95` | Positive settings are kept, others become 1, 1 and 30 seconds; every known upstream starts in the initial state with the provider of the first entry of its name |
| `HealthRuntime.Runtime.AcceptEvent` | `internal/health/runtime.go:329-339` | Accepts exactly the events `Accepts` admits, and leaves a rejecting upstream untouched |
| `HealthRuntime.Runtime.RefreshForEvent` | `internal/health/runtime.go:341-364` | An event is turned away iff it lies inside the ejection window of an ejected upstream; otherwise an open upstream becomes half-open |
| `HealthRuntime.Runtime.IsEligible` | `internal/health/runtime.go:97-108` | The answer depends on the state before the call only, and the call is a read of that one upstream |
| `HealthRuntime.Runtime.Snapshot` | `internal/health/runtime.go:110-153` | Reads every upstream once, in order, each at its own reading of the clock, and reports what it then is |
| `HealthRuntime.Runtime.RecordProbeSuccess` | `internal/health/runtime.go:169-208` | Does the machine's step to the named upstream and nothing to any other, and keeps the invariant; over a run the steps come to what the rows above say |
| `HealthRuntime.Runtime.RecordProbeFailure` | `internal/health/runtime.go:210-247` | The same for a probe failure |
| `HealthRuntime.Runtime.RecordRequestSuccess` | `internal/health/runtime.go:249-276` | The same for a request success |
| `HealthRuntime.Runtime.RecordRequestFailure` | `internal/health/runtime.go:278-311` | The same for a request failure |
| `CircuitBreaker.Breaker.RecordFailure` | `internal/circuitbreaker/breaker.go:36-56` | The breaker's step on a failure, as a function of the state before |
| `CircuitBreaker.Breaker.RecordSuccess` | `internal/circuitbreaker/breaker.go:58-73` | The breaker's step on a success |
| `CircuitBreaker.Breaker.CurrentState` | `internal/circuitbreaker/breaker.go:75-88` | An open breaker becomes half-open once the interval has passed |
| `BreakerSimulation.RunsStayRelated` | `internal/circuitbreaker/breaker.go:36-88` | After every probe-only run in time order the two machines are related: failures to failures, successes to successes, window end to opening time plus interval |
| `BreakerSimulation.RuntimeRefinesBreaker` | `internal/health/runtime.go:366-375` | After every probe-only run in time order the breaker state the runtime reports is the breaker's |
| `BreakerSimulation.LateFailuresSeparateThem` | `internal/health/runtime.go:330` | Without time order it is not, whatever the thresholds: late failures leave the runtime closed and open the breaker |
| `Router.MatchModel` | `internal/router/selection.go:9-17` | The first configured model whose pattern matches, or none if none does |
| `Router.FindRouteGroup` | `internal/router/selection.go:19-27` | The first route group of the name, or none if there is none |
| `Router.MatchesPatternIff` | `internal/router/selection.go:29-35` | A pattern matches iff it is the name itself and does not end in a star, or is a prefix of the name and a star |
| `Router.PlanErrors` | `internal/router/planner.go:34-42` | No route iff no pattern matches; no route group iff the first matching model names none |
| `Router.PrimaryComesFirst` | `internal/router/planner.go:44-62` | The plan is the primary of the first group of the first matching model, if it is a provider and healthy, and then its fallbacks that are, in their order |
| `Router.KeepServableCounts` | `internal/router/planner.go:51-58` | A plan holds exactly the known and eligible candidates, each as often as the group lists it |
| `Router.KeepServableInOrder` | `internal/router/planner.go:51-60` | What is kept of a list of candidates stands at increasing positions, which are exactly those of providers that are healthy |
| `Router.PlanningOnlyReads` | `internal/router/planner.go:55` | Planning changes the runtime by reads only |
| `Router.ReadsKeepPlans` | `internal/router/planner.go:33-63` | Reads in between, under any clock, do not change a plan |
| `Router.Planner.Plan` | `internal/router/planner.go:33-63` | The result, both errors included, is determined by the configuration and the health before the call, as the rows above say |
| `Readiness.AllRequiredRouteGroupsReady` | `internal/httpapi/handlers/health.go:47-88` | True iff the last group of every required name lists a known upstream that is last reported eligible |
| `Readiness.RouteGroupHasEligibleUpstream` | `internal/httpapi/handlers/health.go:90-109` | True iff some named, known and reported candidate is eligible |
| `Readiness.SnapshotReports` | `internal/health/runtime.go:120-150` | A snapshot reports exactly the eligibility the runtime would answer |
| `Readiness.ReadinessAgreesWithPlanning` | `internal/httpapi/handlers/health.go:47-109` | With a validated configuration and unique group names the check passes iff every configured model's group yields a non-empty plan |
| `Readiness.ReadyMeansPlannable` | `internal/router/planner.go:33-63` | When ready, with unique group names or covered ones, every public model some pattern matches has a non-empty plan, also later, as long as nothing is recorded in between |
| `Readiness.CheckIsAboutLastGroups` | `internal/httpapi/handlers/health.go:56-85` | For any configuration and any report of the runtime, the check passes iff for every required name the last group of that name has a named, known and eligible candidate |
| `Readiness.AlwaysAgreeIff` | `internal/router/selection.go:19-27` | For a validated configuration, duplicate names included: check and planner agree on everything that can be reported iff for each model the known providers of its first group include those of some model's last group, and the known providers of its last group those of some model's first group |
| `Readiness.ReadyMeansPlannableIff` | `internal/router/planner.go:33-63` | For a public model some pattern matches: readiness always means a non-empty plan for it iff the known providers of its first group include those of some model's last group |
| `Readiness.DuplicateGroupsDisagree` | `internal/config/validate.go:38-44` | A validated configuration with a duplicate name and a report of the runtime on which the check passes and the planner's list is empty |
| `Readiness.Readyz` | `internal/httpapi/handlers/health.go:21-45` | For any configuration, ready iff started, probed once if required, and the last group of every required name served; with unique names in a validated configuration the last means that every model can be planned; the call only reads |
| `Orchestrator.RegistryKnowsTheProviders` | `internal/runtime/registry.go:13-29` | The registry resolves exactly the provider names, each to the last provider of that name |
| `Orchestrator.Executor.Execute` | `internal/runtime/executor.go:44-75` | The outcome of the attempt and the runtime after its feedback, for unknown upstreams, unknown families, failures and successes |
| `Orchestrator.StopsOnce` | `internal/orchestrator/runner.go:44-61` | The failover rule determines the number of attempts |
| `Failover.AttemptOutcome` | `internal/runtime/executor.go:44-111` | What an attempt comes to for every reply: refused iff the upstream or its family is unknown; permanent without request or credentials; retryable after a transport failure and for 429, 502, 503 and 504 only; else the events of the family's decoder, or a retryable failure that is committed iff the prefix before the break has an event |
| `Failover.FailoverIff` | `internal/orchestrator/runner.go:53-60` | Another upstream is tried iff the attempt met a transport failure, an overloaded answer, or a stream that broke before it yielded an event |
| `Orchestrator.Runner.Run` | `internal/orchestrator/runner.go:33-68` | The attempts are the shortest plan prefix that ends in a terminal result, or the whole plan; the result is the last attempt's; the runtime is as planning and the feedback of exactly those attempts leave it; a healthy primary is the first attempt |
| `Failover.RequestFeedbackIsExact` | `internal/runtime/executor.go:60-74` | With distinct serving candidates and fresh times, each retryably failed attempt adds one failure and ejects at the threshold, the succeeding one is reset, committed and permanent failures change no count, each reports its time and error, and everybody else keeps the state it had |
| `Failover.BrokenAnswer` | `internal/providers/openai/stream.go:46-64` | A stream that breaks, by a malformed line or by its reader, is a retryable failure, committed iff the prefix before it decodes to some event |
| `Failover.NoFailoverAfterOutput` | `internal/orchestrator/runner.go:54-60` | If a stream breaks after it yielded an event, that attempt is the last of the request, and no upstream's eligibility or failure count changes from it |
| `System.EjectionBound` | `internal/orchestrator/runner.go:33-68` | Over any run of requests, probes and reads, an upstream that always fails retryably before output, without an accepted probe success, is attempted at most failure threshold - 1 + m times, m being how often one group lists it at most, and never if m is 0 |
| `System.EjectionBoundIsTight` | `internal/health/runtime.go:303-310` | For every m above 0 some run attains the bound |
| `System.AttemptKeepsBounded` | `internal/runtime/executor.go:60-72` | An attempt keeps the inductive bound on attempts made and still planned |
| `System.RunnerTakesSteps` | `internal/orchestrator/runner.go:44-61` | The failover loop is a run of the system's steps |
| `System.RunnerFinishesTheRequest` | `internal/orchestrator/runner.go:43-68` | When the loop ends, nothing of the request is pending |
| `Prober.StepKeepsInv` | `internal/health/prober.go:82-95` | Every step of every goroutine keeps: one lock holder, the counter equals the goroutines that counted, and the report is made iff the last of them is past its check |
| `Prober.SweepIsABarrier` | `internal/health/prober.go:62-103` | Under every interleaving the sweep is reported complete at most once, not before every first probe returned and was counted, and as soon as the last one is past its check; with no targets at once |
| `Prober.NeverStuck` | `internal/health/prober.go:76-100` | Some goroutine can always move until all are through |
| `Prober.SweepCompletes` | `internal/health/prober.go:76-102` | Every run is finite, and one that cannot go on has reported exactly once with all targets counted |
| `Lines.ScanAppend` | `internal/providers/openai/stream.go:31-35` | Text that ends its last line is scanned apart from what follows |
| `Lines.ScanIsTheInverse` | `internal/providers/openai/stream.go:31-35` | Scanning gives back the lines that were sent, whether they ended in a newline, a carriage return and a newline, or, for the last one, in nothing |
| `Lines.TrimSpaceIs` | `internal/providers/openai/stream.go:35` | Trimming takes off the spaces at both ends, all of them and nothing else |
| `OpenAIStream.LookUpNested` | `internal/providers/openai/stream.go:149-164` | The loop computes the nested lookup, with empty intermediate objects as absent |
| `OpenAIStream.DecodeResponsesEvent` | `internal/providers/openai/stream.go:69-95` | The events of one responses payload |
| `OpenAIStream.DecodeChatEvent` | `internal/providers/openai/stream.go:97-138` | The events of one chat chunk: usage, text, finish reason, in this order, empty ones left out |
| `OpenAIStream.ChatEventsMean` | `internal/providers/openai/stream.go:97-138` | For any chunk: the usage report, the text of the first choice with its object name or the default, and its finish reason, each read off its path |
| `OpenAIStream.ResponsesEventsMean` | `internal/providers/openai/stream.go:69-95` | For any payload: the delta, or nested and plain usage and a stop, or usage, each read off its path |
| `OpenAIStream.DecodeStream` | `internal/providers/openai/stream.go:30-67` | The scanner loop is the fold over the lines, with the committed flag of the events so far when it breaks |
| `OpenAIStream.DecodeConcat` | `internal/providers/openai/stream.go:34-60` | Decoding composes over any split of the lines, broken streams included |
| `OpenAIStream.CommittedIffOutput` | `internal/providers/openai/stream.go:46-58` | A stream breaks at a line that does not parse after a prefix that does, and is committed iff that prefix has an event |
| `OpenAIStream.DecodedResponsesAreShaped` | `internal/providers/openai/stream.go:76-93` | Every decoded content delta of the responses endpoint has the two fields the relay passes on |
| `AnthropicStream.DecodeStream` | `internal/providers/anthropic/stream.go:30-158` | The scanner loop with its five variables is the fold over the lines; what the lines come to is said by the next rows |
| `AnthropicWire.WireRoundTrip` | `internal/providers/anthropic/stream.go:45-149` | For any messages an upstream sends, written by their own keys and with any further fields: decoding the sent text gives exactly the expected events, tool deltas with id and name of the latest tool use, stops with the latest reason |
| `AnthropicWire.AnyPayloadMeans` | `internal/providers/anthropic/stream.go:45-139` | Any payload is what its paths say: usage, tool use with id as id and name as name, arguments before text, stop reason with usage; a wrong type makes it malformed |
| `AnthropicWire.MalformedIff` | `internal/providers/anthropic/stream.go:47-130` | A line breaks the stream iff it is the data of one of the four events that are read and not an object whose fields have their types |
| `AnthropicStream.StreamDecoder.Take` | `internal/providers/anthropic/stream.go:45-149` | What one line does to the five variables of the loop |
| `AnthropicStream.DecodeConcat` | `internal/providers/anthropic/stream.go:38-151` | Decoding composes over any split of the lines, from any state of the loop |
| `AnthropicStream.CommittedIffOutput` | `internal/providers/anthropic/stream.go:52-54` | A stream breaks at a malformed line after a prefix that decodes, and is committed iff that prefix has an event |
| `AnthropicStream.ToolDeltasAreAttributed` | `internal/providers/anthropic/stream.go:72-103` | Every tool delta carries the id and name of the nearest tool start before it in the output, or two empty ones |
| `AnthropicStream.EventNameIsRemembered` | `internal/providers/anthropic/stream.go:41-45` | A data line is read under the name of the nearest event line before it |
| `AnthropicStream.OutputMatchesTheLines` | `internal/providers/anthropic/stream.go:94-148` | The stop events are, per stop line, one finish event with the last non-empty reason since the previous stop, if any, and then a bare stop; in the output every finish event is immediately followed by a bare stop; the output text is the text deltas in order |
| `Relay.WriteChatCompletionSSE` | `internal/streaming/relay.go:10-73` | The text written is the frames of the events in order, usage events left out; what a client reads in them is said by the next rows |
| `StreamClient.ChatStreamIsRead` | `internal/streaming/relay.go:10-106` | For any events, a client that reads object, content, tool call and finish reason of every chunk sees exactly the expected ones, in order, and the end of the stream where it was printed |
| `StreamClient.ToolCallsAreRead` | `internal/streaming/relay.go:27-49` | For any events, a client that collects the tool calls of the chunks gets, in order, exactly the id, name and arguments of the tool events |
| `StreamClient.ResponsesStreamIsRead` | `internal/streaming/relay.go:108-123` | For any events, the payloads a client reads are the data of the content deltas and one completion per stop, in order |
| `StreamClient.FinalResponseJoins` | `internal/httpapi/openai/finalize_responses.go:57-74` | For any events, the aggregated answer joins the deltas' texts, or where there is none their delta fields |
| `Relay.WriteResponsesSSE` | `internal/streaming/relay.go:108-123` | The same for the responses endpoint |
| `Relay.AggregateFinalText` | `internal/httpapi/openai/finalize_chat.go:69-95` | The text is the text deltas in order, the reason the last normalized one, or stop |
| `Relay.AggregateResponseText` | `internal/httpapi/openai/finalize_responses.go:57-74` | The text is each delta's text or else its delta, in order |
| `RelayProofs.ChatRoundTrip` | `internal/streaming/relay.go:10-106` | Scanning and decoding the exact text printed for any events gives them back, with usage, tool and empty-text events dropped and reasons normalized |
| `RelayProofs.ResponsesRoundTrip` | `internal/streaming/relay.go:108-141` | The same for the responses endpoint, with stop data stripped |
| `RelayProofs.ChatViewIsIdempotent` | `internal/streaming/relay.go:75-106` | The normalization of a round trip is idempotent |
| `RelayProofs.PrintDecodePrintIsStable` | `internal/streaming/relay.go:10-73` | On the chat endpoint print, decode, print changes nothing from the second print on |
| `RelayProofs.ResponsesPrintIsStable` | `internal/streaming/relay.go:108-141` | On the responses endpoint the decoded stream prints the same text again, from the first print on |
| `RelayProofs.ResponsesViewPrintsTheSame` | `internal/streaming/relay.go:108-123` | For any events, what a decode strips is what the printer does not print |
| `RelayProofs.NormalizersAgree` | `internal/httpapi/openai/finalize_chat.go:97-113` | The finalizer and the printer, each with a normalizer of its own, find the same reason in a stop event and give it the same name |
| `RelayProofs.OpenAIRelayIsByteStable` | `internal/providers/openai/stream.go:97-138` | For what an OpenAI upstream can send, the first print is already stable |
| `RelayProofs.DecodedChatIsFromOpenAI` | `internal/providers/openai/stream.go:118-135` | Every event the chat decoder produces is of that kind |
| `RelayProofs.ChatStreamAgreesWithFinal` | `internal/httpapi/openai/finalize_chat.go:69-113` | A client that concatenates delta.content and keeps the last finish reason of the printed stream ends up with the finalizer's text and reason, for any events |
| `RelayProofs.ResponsesStreamAgreesWithFinal` | `internal/httpapi/openai/finalize_responses.go:57-74` | A client that concatenates the delta fields ends up with the aggregated text |
| `RelayProofs.DecodedResponsesAgree` | `internal/streaming/relay.go:108-123` | Both hold of whatever either decoder produced from any lines |
| `Canonical.ValidateAllowedObjectKeys` | `internal/httpapi/openai/image_validation.go:73-87` | Accepts an object iff all its keys are allowed |
| `ChatCodec.DecodeChatCompletionRequest` | `internal/httpapi/openai/chat_encode.go:11-72` | The canonical request, or the error of the first failing part; what both are is said by the next rows |
| `ChatRequestMeaning.ChatBodyAccepted` | `internal/httpapi/openai/chat_encode.go:11-72` | A body is accepted iff its keys have their types and its messages, tool choice and stop are good; otherwise the error is that of the first that is not, and for messages that of the first bad item of the first bad message |
| `ChatRequestMeaning.ChatBodyMeans` | `internal/httpapi/openai/chat_encode.go:17-71` | Every part of an accepted request in terms of the body's keys: model, stream, temperature, top_p, max_completion_tokens before max_tokens, stop as text or list, tool choice, response format, roles, text and images of the messages in order, and the tools that are functions in order |
| `ChatCodec.NormalizeChatContent` | `internal/httpapi/openai/chat_encode.go:74-133` | A string, null, an array of items, or the first item's error |
| `ChatCodec.NormalizeChatImageURL` | `internal/httpapi/openai/chat_encode.go:135-171` | Gives a URL iff the item has no key besides type and image_url and its image_url is the object with nothing but that URL; unsupported iff some key has no place at either level; otherwise invalid |
| `ChatCodec.EncodeRequest` | `internal/providers/openai/request.go:26-59` | The payload, optional fields present iff set |
| `ChatCodec.EncodeChatMessages` | `internal/providers/openai/request.go:62-98` | One message per turn, in order |
| `ChatRoundTrip.DecodedIsWellFormed` | `internal/httpapi/openai/image_validation.go:11-41` | Every accepted request has images on user turns only, with acceptable URLs, and limits that fit |
| `ChatRoundTrip.PayloadFields` | `internal/providers/openai/request.go:27-57` | The payload has the stated fields and no others |
| `ChatRoundTrip.ChatRequestRoundTrip` | `internal/providers/openai/request.go:26-59` | For every accepted public request, decoding the encoded payload gives the request back with streaming on, iff it asked for no structured output; else all but the contract survives |
| `ChatPayload.ChatPayloadSays` | `internal/providers/openai/request.go:26-59` | Read by the same keys, the payload of a well-formed request says that request, streamed and without a contract |
| `ChatPayload.ChatPayloadIsPlain` | `internal/providers/openai/request.go:62-140` | Messages, blocks, tools and tool choice have no further keys; a single text is sent as that text, anything else as a list |
| `ResponsesCodec.DecodeResponsesRequest` | `internal/httpapi/openai/responses_encode.go:11-100` | The canonical request, or the first item's error; what both are is said by the next rows |
| `ResponsesRequestMeaning.ResponsesBodyAccepted` | `internal/httpapi/openai/responses_encode.go:11-73` | A body is accepted iff its keys have their types and its inputs are good; otherwise the error is that of the first bad item of the first bad input |
| `ResponsesRequestMeaning.ResponsesBodyMeans` | `internal/httpapi/openai/responses_encode.go:27-100` | Every part of an accepted request in terms of the body's keys, metadata, format and the tools that have a name included |
| `RequestFields.ImageURLs` | `internal/httpapi/openai/image_validation.go:11-33` | A URL is accepted iff, trimmed, it is not empty, parses, is http or https and has a host; unsupported iff it is a data URL; otherwise invalid |
| `ResponsesCodec.NormalizeResponsesImageURL` | `internal/httpapi/openai/responses_encode.go:126-150` | Gives a URL iff the item has no key besides type and image_url and its image_url is that text; unsupported iff some key has no place or the image_url is an object naming a file; otherwise invalid |
| `ResponsesCodec.EncodeRequest` | `internal/providers/openai/request.go:7-25` | The payload, optional fields present iff set |
| `ResponsesCodec.EncodeResponsesInput` | `internal/providers/openai/request.go:100-125` | One input per turn and one item per block, in order |
| `ResponsesRoundTrip.ResponsesRequestRoundTrip` | `internal/providers/openai/request.go:7-25` | For every accepted public request, decoding the encoded payload gives the request back with streaming on, iff it had no tools and asked for no structured output; else all but these survives |
| `ResponsesPayload.ResponsesPayloadSays` | `internal/providers/openai/request.go:7-25` | Read by the same keys, the payload of a well-formed request says that request, streamed, without contract and tools |
| `ResponsesPayload.ResponsesPayloadIsPlain` | `internal/providers/openai/request.go:100-125` | Inputs and their items have no further keys |

## Left out

- Mutexes: every method that holds a lock for its whole body is one step; only the prober's lock is modelled.
- Real clocks: times are naturals; the clock readings inside one breaker call are taken as one instant.
- A missing runtime: the planner is modelled with and without one, the executor, the readiness endpoint and the prober only with one.
- `Prober.StepKeepsInv`: cancellation of a probe is not distinguished from its return, and the later rounds of a probing loop are not part of the protocol, because the sweep does not depend on them.
- Building and sending probes: an upstream's probe results are arbitrary events.
- Building the HTTP request, credentials and the network: an arbitrary `HttpReply`; what the adapters do with a reply is modelled.
- Error messages: they are opaque summaries, and decoding errors are told apart by kind only.
- JSON text syntax: decoding starts from JSON values; case-insensitive matching of field names, duplicate keys and trailing data are not modelled, nor is the difference between an absent and an empty list.
- JSON numbers: exact decimals, with the 64-bit range where the source wants an integer; floating-point rounding and overflow are not modelled.
- Characters: lower-casing treats ASCII letters only, and repair of invalid UTF-8 is not modelled.
- `OpenAIStream.DecodeStream`: the scanner's limit on the length of a line appears only as a reader that may fail after the last line.
- `AnthropicStream.DecodeStream`: a line is first classified by the function `Interpret` and then applied, where the source does both in one switch.
- `Relay.WriteChatCompletionSSE`: a writer that fails part-way is not modelled; the text is what a writer that never fails receives.
- Usage: an object counts as a usage report when it has a token count; summing the counts is not modelled.
- Finalized answers: generated identifiers, the model name and the usage block around the aggregated text.
- Anthropic request encoding: it keeps only order, by design, so there is no preservation to prove.
- Configuration files, defaults, authentication, capability checks, admin views and the health manager: branch chains and field copies.
