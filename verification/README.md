# A verified model of loafer-natsx

loafer-natsx is a Go library over NATS and JetStream. Three parts of it carry real
protocol logic, and this project models those three and proves what they guarantee.

**The broker lifecycle** (`RunRoute`, `BrokerRun`, `BrokerTheorems`, `BrokerStall`,
`FanOut`). `Broker.Run`, one goroutine per route, `workers` goroutines, a WaitGroup
waiter and a drainer per subscription, two capacity-1 error channels, `errOnce` and one
cancellable context form an interleaving transition system for any number of routes and
workers. `RunRoute.Next` and `BrokerRun.Next` are its step functions; a `select` may take
any ready case. A theorem about `Reachable` states holds of every schedule.

**JetStream delivery** (`Router`, `JetStreamHandler`, `Delivery`, `DeliveryTheorems`).
The message path with its retry and dead-letter decisions is imperative code over a log of
calls; `Delivery.Next` puts any number of overlapping deliveries of any number of messages
against a nondeterministic server. Handlers may succeed, fail, panic or take as long as
they like; metadata, Ack, Nak and publish may fail.

**Request-reply** (`Handlers`, `GoErrors`, `ErrorJson`, `Headers`, `Reply`,
`RequestReply`, `Producer`, `Requester`, `RoundTrip`). From a handler's result or error
through the reply builder, the propagated headers and the client's deadline to the value
or error that the typed requester returns.

`Metrics` covers the instrumented handler and `InstrumentedReply` what it does to a reply;
`Runs`, `Options`, `Sums`, `Decimal`, `NatsMsg` and `Wrappers` are shared vocabulary.

## Environment

- Core NATS gives a message to every plain subscription on its subject and to exactly one
  member of each queue group (`FanOut.Delivered`).
- A header is a case-sensitive map from a key to a list of values. A published message
  reaches its receiver with data and headers unchanged.
- A successful `PublishMsg` means accepted by the client, not stored.
- The JetStream server numbers the deliveries of a message 1, 2, ..., delivers again after
  a Nak or when AckWait expires while the message is not acked, and stops at MaxDeliver if
  that is positive. An Ack or Nak arrives or is lost.
- A derived context is done at the earlier of its own and its parent's deadline; a core
  NATS request ends with what the connection produces or with the context, whichever is
  first, and never before it began.
- `cons.Start` and `consumer.New` return or panic at some point; a panic of a handler, a
  reply function or a worker is a value here.

## Where the code and its documentation differ

- "No silent route failures" (README.md:121) does not hold. `BrokerTheorems.LosesError`
  gives, for every worker of every route and every way in which its Start fails or panics,
  a run in which the route reports that failure and Run returns nil under a live caller;
  `BrokerStall.AnyFailureStalls` gives, for every combination of Start outcomes with a
  failure in it, a run with just these outcomes in which nobody is told and Run waits for
  ever. `NoSilentFailuresIff` and `StallsIff` say for which arguments this cannot happen;
  `NilMeansUnreadError` and `DoneMeansReported` show that a receive without blocking,
  before Run returns nil, would find the lost error of the first kind.
- "No goroutine leaks" (README.md:120) holds of every goroutine that Run and its workers
  start, but Run does not wait for them (`ReturnMeansQuietIff`). A handler callback that
  never returns is outside the model.
- "Messages exceeding MaxDeliver are published" (README.md:170): the delivery numbered
  MaxDeliver itself is dead-lettered, and one that panics never is. With or without the
  queue, every run that comes to rest has seen every message handled or dead-lettered
  exactly if deliveries are unlimited or there is no message
  (`DeliveryTheorems.NothingGivenUpIff`); `HandledOrDeadLettered` says of each message at
  rest whether it was given up. Unlimited deliveries may go on for ever without success,
  but no message is then ever beyond rescue (`RescueStaysPossibleIff`).
- `ErrRequestTimeout` is documented as an exceeded deadline (error.go:37); a cancellation
  by the caller is reported by it as well, and `Producer.EarlyTimeoutIff` says for which
  calls that can happen before any deadline.
- `WithMetrics` is documented as setting up metrics (broker/option.go:24), but it also
  changes replies: the wrapper drops a result that comes with an error
  (broker/instrumentation.go:31-34) and without metrics the reply function gets that result
  (consumer/consumer.go:114-121). `InstrumentedReply.RouteInvisibleIff` says for which
  reply functions this cannot be seen; reply.JSON and everything made by WrapReply are
  among them (`BuildersNeverShow`), one that passes the bare result to reply.WithStatus is
  not unless all results are marshalled alike (`WithStatusShowsIff`).

## Model

| member | source | states |
|---|---|---|
| RunRoute.NextKeepsInv | broker/broker.go:84-157 | every step of the route goroutine, a worker, the waiter or a drainer keeps the invariant of one runRoute call: WaitGroup = unfinished workers, one errOnce winner, inner channel = what was sent until taken, done only after all workers |
| RunRoute.DoneIsSound | broker/broker.go:109-145 | a closed done means all workers finished; nothing was sent exactly if every Start succeeded |
| RunRoute.NextDecreases | broker/broker.go:84-157 | every step uses up part of a finite budget |
| RunRoute.WorkerProgress | broker/broker.go:93-138 | an unfinished worker can move, or the one inside errOnce can; its send finds room |
| RunRoute.RouteProgress | broker/broker.go:84-157 | with the context done, a launched call that is not finished and drained has a step |
| BrokerRun.StepKeepsInv | broker/broker.go:50-82 | every step of Run, of any route and of the caller's context keeps the global invariant: the outer channel holds the first report until Run takes it, and every report is what that route's runRoute returned |
| BrokerTheorems.RunsAreBounded | broker/broker.go:50-157 | every run makes at most R * (8 * W + 11) + 5 steps |
| BrokerTheorems.ShutdownCompletes | broker/broker.go:55-81 | from every reachable state in which the caller has cancelled or the context is done, internal steps alone lead to a state where Run has returned, all goroutines have ended and all subscriptions are drained |
| BrokerTheorems.NoGoroutineLeaks | broker/broker.go:55-81 | after Run has returned, also early on a nil registration, or after the caller has cancelled, a state without internal step has Run returned and no goroutine and no undrained subscription left |
| BrokerTheorems.CancelStopsRun | broker/broker.go:55-81 | from every reachable state the caller's cancel followed by internal steps ends everything, and Run returns nil if no route had reported and no registration is missing |
| BrokerTheorems.BadArgumentsAreRefused | broker/broker.go:51-63 | whatever else happens, an empty list and a nil registration are answered by their sentinels |
| BrokerTheorems.FailFast | broker/broker.go:65-73 | once a runRoute returned an error, a state without internal step has everything stopped and drained |
| BrokerTheorems.CompletionIsSound | broker/broker.go:93-145 | in every reachable state: at most one inner send, WaitGroup never negative and 0 exactly without unfinished workers, done and a nil return without send or cancellation imply success of every Start |
| BrokerTheorems.ReportNeverBlocks | broker/broker.go:99-103 | reportErr never blocks for good, also after runRoute has returned |
| BrokerTheorems.ErrorProvenance | broker/broker.go:65-78 | an error of Run is a validation sentinel or the first report ever sent; each report is a consumer.New failure or the failure or panic of that route's errOnce winner |
| BrokerTheorems.DoneMeansReported | broker/broker.go:76-81 | at the select with the context done and the caller live, the first report is in the channel and both cases are ready |
| BrokerTheorems.NilMeansUnreadError | broker/broker.go:76-81 | with a live caller, Run returned nil exactly if the first report is still unread in the channel |
| BrokerTheorems.LosesError | broker/broker.go:65-138 | for every route, every worker of it and every failure or panic of that worker's Start: a run in which the route reports just that and Run returns nil under a live caller |
| BrokerTheorems.LosesBuildError | broker/broker.go:65-89 | the same for every failure of consumer.New |
| BrokerTheorems.NoSilentFailuresIff | broker/broker.go:51-63 | no run hides a failure behind nil exactly if there is no registration or a nil one; no run hides a worker's failure exactly if so or if there is no worker |
| BrokerTheorems.ReturnMeansQuietIff | broker/broker.go:55-81 | returning implies that everything has ended exactly if nothing is ever launched |
| BrokerStall.AnyFailureStalls | broker/broker.go:93-156 | for every assignment of Start outcomes to all workers with at least one failure, a run with exactly these outcomes that loses the failure and after which only the caller can move |
| BrokerStall.StallsIff | broker/broker.go:147-156 | a run in which a worker failed and only the caller can still move exists exactly if Run can reach its select and there is a worker |
| FanOut.FanOutCount | consumer/consumer.go:56-106 | with all Starts done and no cancellation, a message is handled as often as there are publish-subscribe registrations on its subject times W, plus once per distinct queue group of the queue and request-reply registrations on it |
| FanOut.HealthyRunWaits | broker/broker.go:93-156 | for every call that can reach the select there is such a state, in which only the caller can still move |
| Router.Config.Apply | router/options.go:9-69 | each option changes its one setting of the configuration object |
| Router.New | router/route.go:76-125 | the option loop, validation order and defaults yield the specified route or sentinel |
| Router.OptionsDecide | router/options.go:9-69 | every setting is decided by the last option of its kind, WithEnableDLQ anywhere enables the queue |
| Router.LastOptionWins | router/options.go:9-69 | in a built route the last option of each kind has its value, with 0 replaced by 10 and by 30 s for a JetStream route |
| Router.UnsetIsDefault | router/route.go:12-15 | a setting no option speaks of has its zero value or default |
| Router.SentinelIff | router/route.go:86-119 | each sentinel is returned exactly if what it names is the first thing missing; every other call builds |
| Router.BuiltRouteIsUsable | router/route.go:86-119 | what a built route guarantees: names present, MaxDeliver non-zero and the caller's last value or 10 |
| JetStreamHandler.SafeHandle | consumer/consumer.go:251-267 | the calls of a delivery, with a panic contained |
| JetStreamHandler.HandleJetStreamMessage | consumer/consumer.go:180-196 | the calls made and whether the path panics |
| JetStreamHandler.HandleJetStreamError | consumer/consumer.go:198-214 | dead letter or Nak, and the nil-metadata panic |
| JetStreamHandler.PublishToDLQ | consumer/consumer.go:216-242 | the dead letter, then Ack if accepted or Nak if not |
| JetStreamHandler.SettlementRules | consumer/consumer.go:180-242 | no call exactly on a panic, otherwise exactly one settlement, last; Ack exactly on success or accepted dead letter; when a dead letter is made and what it contains |
| JetStreamHandler.DeadLetterThreshold | consumer/consumer.go:206-209 | for any option list, failed delivery k is offered to the queue exactly if enabled and k >= max(1, MaxDeliver), 0 standing for 10 |
| Delivery.StepKeepsInv | consumer/consumer.go:151-242 | every step of the server or of any delivery keeps the invariant: calls fit the delivery's stage, acked exactly if an ack arrived, the dead-letter log is what was accepted, once each |
| DeliveryTheorems.AttemptsFollowTheCode | consumer/consumer.go:180-267 | a finished delivery made exactly the calls of the message path; an unfinished one has not settled |
| DeliveryTheorems.AckSafety | consumer/consumer.go:186-195 | an acked message has a delivery that succeeded or whose dead letter was accepted |
| DeliveryTheorems.AckedIsFinal | consumer/consumer.go:186-195 | in every continuation of a run an acked message stays acked and gets no further delivery |
| DeliveryTheorems.HandledOrDeadLettered | consumer/consumer.go:206-242 | at rest a message was neither handled nor dead-lettered exactly if no delivery succeeded and the one numbered MaxDeliver was not taken by the queue: off, or a panic, missing metadata or a refused publish |
| DeliveryTheorems.RetriesAreBounded | consumer/consumer.go:152-159 | at most N * MaxDeliver handler invocations and 7 times as many steps in every run |
| DeliveryTheorems.RetriesEnd | consumer/consumer.go:152-159 | a run that cannot go on leaves each message acked or delivered MaxDeliver times |
| DeliveryTheorems.DeadLetterContents | consumer/consumer.go:216-235 | subject, payload and the two headers of every dead letter; with a positive MaxDeliver the count is MaxDeliver |
| DeliveryTheorems.DeadLettersUniqueIff | consumer/consumer.go:206-241 | no message is dead-lettered twice in any run exactly if the queue is off, MaxDeliver is positive or there is no message |
| DeliveryTheorems.NothingGivenUpIff | consumer/consumer.go:206-267 | every message is handled or dead-lettered in all runs that come to rest exactly if MaxDeliver is not positive or there is no message, whether or not the queue is on |
| DeliveryTheorems.RescueStaysPossibleIff | consumer/consumer.go:180-242 | from a reachable state some continuation handles or dead-letters a message exactly if that has happened, it may be delivered again or a delivery is pending; always under unlimited deliveries |
| Decimal.ItoaDenotes | consumer/consumer.go:225 | the retry-count text determines the number |
| Decimal.ItoaIsCanonical | consumer/consumer.go:225 | it consists of digits and has no leading zero |
| Metrics.Instrumented | broker/instrumentation.go:17-38 | one call of the wrapper: the handler's own end without metrics, with metrics nil in place of a result beside an error; how the four metrics move |
| Metrics.SoloRun | broker/instrumentation.go:21-38 | the parallel model, run undisturbed, does what the wrapper does |
| Metrics.GaugeIsExact | broker/instrumentation.go:24-36 | in every interleaving the gauge of a subject is the number of executions inside, and the counters count what has ended |
| Metrics.Conservation | broker/instrumentation.go:21-38 | at rest, started = requests + errors + panics, histogram = requests + errors, gauge = 0 |
| InstrumentedReply.InvisibleIff | consumer/consumer.go:114-121 | in one invocation metrics show in the reply or in a panic exactly if there is an error and the reply function treats the handler's result and nil differently |
| InstrumentedReply.RouteInvisibleIff | broker/instrumentation.go:17-34 | enabling metrics shows for no behaviour of the handler exactly if there is no reply function or it ignores the result beside an error |
| InstrumentedReply.BuildersNeverShow | typed/reply.go:18-32 | reply.JSON and every adaptor of WrapReply hide whether metrics are on |
| InstrumentedReply.WithStatusShowsIff | reply/reply.go:79-89 | a reply function that passes the bare result to WithStatus hides it exactly if all results are marshalled alike |
| Headers.AddAll | consumer/headers.go:38-40 | the inner loop appends under one key and touches no other |
| Headers.MergeInto | consumer/headers.go:35-42 | for every iteration order the loop ends in the declared merge |
| Headers.PropagateHeaders | consumer/headers.go:26-43 | nil cases, identity of the reply map, merge of the four keys, source unchanged |
| Headers.MergeIsExactly | consumer/headers.go:35-42 | which keys grow and by what, for every key |
| Headers.ReusedMapAccumulates | consumer/headers.go:35-42 | a reply map used for two requests carries the values of both |
| GoErrors.FindsFirst | reply/reply.go:56-59 | the search of errors.As finds the first coded error of the chain |
| GoErrors.WrappingKeepsCode | reply/reply.go:56-59 | wrapping an error any number of times neither hides nor adds a code |
| GoErrors.OuterAndFirstDecide | reply/reply.go:56-59 | an outer code hides wrapped ones, and of several wrapped errors the first that has a code decides |
| ErrorJson.RoundTrip | reply/reply.go:61 | the printed error body reads back as the text, for every text |
| ErrorJson.HarmlessDocument | reply/reply.go:61 | the document has the single key "error" and keeps a text without special characters as it is |
| ErrorJson.EscapesAreStandard | reply/reply.go:61 | which characters are escaped and how |
| Reply.JSON | reply/reply.go:49-76 | body and headers for a result, an error, a coded error and a marshal failure |
| Reply.WithStatus | reply/reply.go:79-89 | body and headers for an explicit status |
| Reply.WithError | reply/reply.go:92-97 | the plain-text error reply |
| Reply.BuildersSay | reply/reply.go:49-97 | body, keys, status, code and content type of what each builder makes, and that a marshal failure builds nothing |
| Reply.PropagationKeepsSemantics | consumer/headers.go:35-42 | no request header changes status, error code or content type of a reply |
| RequestReply.HandleRequestReplyMessage | consumer/consumer.go:108-138 | at most one publish attempt per request and its exact content; when it panics; what it leaves in a kept header map |
| RequestReply.PublishedReply | consumer/consumer.go:114-137 | subject, data and, key by key, headers of every published reply: those built, followed by the request's values of the four tracing keys |
| RequestReply.OtherReplies | typed/reply.go:18-32 | without a reply function a success is answered "ok"; a typed reply function is given the zero value and the error, or the handler's own result |
| RequestReply.DefaultReply | consumer/consumer.go:140-149 | "ok" without an error, silence with one |
| RequestReply.TypedSilence | typed/reply.go:18-32 | when exactly a request stays unanswered, without a reply function and with a typed one |
| Producer.New | producer/producer.go:24-53 | validation and the timeout left by any option list |
| Producer.LastTimeoutWins | producer/options.go:23-38 | the last option that disables the timeout or sets a positive one decides |
| Producer.TimeoutByDefault | producer/producer.go:35-39 | ten seconds if none does |
| Producer.ResponseIff | producer/producer.go:94-119 | Request succeeds exactly with the response that the publisher returned and the connection produced |
| Producer.ReplyByTheLimits | producer/producer.go:94-119 | a reply before every limit is returned, one after some limit is a timeout |
| Producer.SilenceEnds | producer/producer.go:94-115 | facing silence a request ends by min(caller's deadline, start + timeout) as ErrRequestTimeout; without timeout exactly with the caller's context; at its start if the context was done before |
| Producer.EarlyTimeoutIff | producer/producer.go:103-116 | some exchange ends in ErrRequestTimeout before the caller's deadline and start + timeout exactly if the caller cancels before both and the call begins before the caller's deadline |
| Producer.TransportErrorIff | producer/producer.go:109-116 | an error is not a timeout exactly if it is examined before every limit |
| Requester.NewRequester | typed/requester.go:48-80 | the option loop: producer options in order, last decoder wins |
| Requester.ProducerOptionsInOrder | typed/requester.go:60-67 | producer options are passed on as the sublist in order |
| Requester.LastDecoderWins | typed/requester.go:60-67 | the last decoder option counts, also a nil one |
| RoundTrip.ErrorRoundTrip | typed/requester.go:100-134 | status, code of the first coded error and message arrive for every error and all request headers; the message is lost exactly if it is empty |
| RoundTrip.ErrorTextSurvives | typed/reply_error.go:20-41 | ReplyError.Error gives the handler's own text |
| RoundTrip.SuccessRoundTrip | typed/requester.go:104-109 | a result carried by the codecs comes back, from JSON and from WithStatus |
| RoundTrip.StatusDecides | typed/requester.go:100-126 | only the handler's status decides between error and value, and exactly which of the two is returned |
| RoundTrip.JsonCallOutcome | typed/requester.go:87-134 | what Request returns in every case against a reply.JSON route: the value read, exactly what the decoder returns for status, code and body, the ReplyError without a decoder, or the failed stage |
| RoundTrip.StatusCallOutcome | typed/requester.go:87-134 | the same against a route that answers with WithStatus |
| RoundTrip.SuccessfulCall | producer/producer.go:94-119 | a handled request whose reply arrives before every limit gives the typed caller the result and no error |
| RoundTrip.DefaultReplyIsDecoded | typed/requester.go:100-109 | the default reply is no error and the codec is given "ok" |
| RoundTrip.PlainErrorRoundTrip | reply/reply.go:92-97 | when exactly a plain-text error gives its text back |
| RoundTrip.PlainObjectIsUnwrapped | typed/reply_error.go:20-41 | a plain-text error that is itself a printed error object arrives as its inner text unless that is empty |
| RoundTrip.NilErrorMeansHandled | typed/requester.go:87-134 | against a reply.JSON route Request returns a nil error exactly if a reply came and the handler succeeded and the codec reads its result, which is the value returned, or it failed and the caller's decoder made nil of it |
| RoundTrip.UnansweredEnds | typed/reply.go:18-32 | a request that the route leaves unanswered for whatever reason ends at the client by its deadline, or at once if that has passed, with the zero value, as ErrRequestTimeout or, if the connection failed and that was examined before every limit, as that failure |

## Left out

- The broker's goroutines and the overlapping deliveries are transition systems over
  values, not methods over objects: their steps interleave, which sequential methods
  cannot express. Memory-model effects below a whole channel, once, WaitGroup or context
  operation are not captured.
- A logger that panics inside the recovery of a worker, and a panic in the route goroutine
  outside its workers: both end the process.
- DeliveryTheorems.HandledOrDeadLettered: accepted by the client is not stored; whether a
  stream listens on the dead-letter subject is outside.
- Headers.PropagateHeaders: the header maps of request and reply are separate objects, as
  nats.go makes a new map for every message it hands out; a loop over a map that it also
  appends to is not modelled.
- HandlerTimeout: the option exists but the consumer never reads it, so nothing enforces it.
- Delivery: starting and stopping the consume loop is not in this machine; a stopped loop
  only removes deliveries.
- FanOut.FanOutCount: wildcard subjects and JetStream consumers on the same subject are not
  counted.
- RoundTrip.ErrorRoundTrip: bodies are sequences of Unicode scalar values, so invalid UTF-8
  is outside; json.Unmarshal is any function that agrees with the concrete reader of
  `{"error":"..."}` wherever that reader accepts.
- RoundTrip.SuccessRoundTrip: codecs are arbitrary functions that carry the value at hand;
  general JSON and reflection are not modelled.
- Header.Add on slices that share memory, Header.Get on an empty non-nil list, and the
  rewriting of line breaks in header values by the wire format.
- The delivery number as a 64-bit integer: it is unbounded here.
- Which ReplyFunc a route holds: `Router.Settings` keeps its presence, and the reply it
  builds is a parameter of `RequestReply.HandleRequestReplyMessage`.
- The handlers of publish-subscribe and queue routes, `typed.WrapHandler`, `typed.Producer`,
  publishing with its options and strategies, getters, `conn`, `logger` and the examples:
  easy members or plumbing.
- Prometheus registration, label handling and histogram buckets: one integer per metric and
  subject.
