# fluent-amqp: the concurrent core, verified

fluent-amqp is a client for AMQP 0-9-1 that reconnects by itself. Behind its builders are five small
concurrent protocols and a few sequential algorithms. This project models them in Dafny and proves what
they promise.

| protocol | step machine and theorems | the code as classes and loops |
|---|---|---|
| connection supervisor (`amqp.go`) | `Supervisor`, `Contexts` | `Server` |
| outbox: queue, publisher, producers (`internal/message_queue.go`, `writer.go`) | `SendLog` (the reference), `Outbox`, `LazyInit`, `Answers` (what callers see) | `Publisher` (the consumer), `Sender` (the callers) |
| RPC correlation table (`rpc.go`) | `Rpc`, `Replies` (over whole runs, and after the end) | `RpcClient` |
| requeue request and reply (`requeuer.go`) | `Handshake` | `Requeuer` |
| transactional sink, requeueing and the broker (`sink.go`, `requeuer.go`) | `Delivery`, `Conservation`, `Settlements`, `RetryBound`, `RetryHealth`, `Forks`, `RetryRuns`, `RetryLimit` (over `Headers`, `Weights`, `Handshake`) | `Sink` |
| signing and validation (`certs.go`) | `Messages`, `Signing` (lemmas) | `Signing` (classes) |
| supervisor, outbox and RPC composed | `System` | |

`Channels` holds Go channels as values: a send to a closed channel and a second close are outcomes there
(`SendPanics`, `ClosePanics`), not preconditions, so that their absence is a theorem.

## How it is built

Each protocol is a machine: a state, a step type, `Enabled` and `Apply`. A run is any finite sequence of
enabled steps, so every theorem about `Exec(INIT, steps)` speaks of all interleavings of any number of
callers, handlers and connections. Program counters, reply channels and one-slot tokens are in the state;
histories (all puts, all publishes, the fate of each reply channel, all events of a message) are there to
be talked about.

The supervisor is proved first. Module `System` runs it together with the outbox and the RPC table, lets a
publisher's or a message handler's `ChannelReady` run exactly while its goroutine is in `Serving`, and
proves of the supervisor what the other two assume: a publisher starts with no other consumer of its queue
(`System.PublisherStartsAlone`), and the broker is done only when no handler runs
(`System.SupervisorIsOrderly`). Both assumptions are needed: `Outbox.TwoConsumersPanic` and
`Rpc.ReplyAfterSweepPanics` are runs that go wrong without them.

The classes are the sequential bodies in their own form, one method per thread, with loops over scripts of
what the environment does. Between any two of its own steps a method lets all other threads take arbitrary
steps. Each class carries a run of its machine and keeps its fields equal to the machine's shared variables
(`Valid`), so the machine's theorems hold of the code. What a method returns as its history (the deliveries a
sink handled, the requests a responder served, the lengths a publisher read) is tied to the steps of that run.

## Assumptions

- Memory is sequentially consistent. `streamHandlers` reads `brk.handlers` (amqp.go:194-199) and `initOnce`
  reads `notify` (internal/message_queue.go:67) without the lock.
- A nil error of a publish, Ack or Nack means that the broker did it, and a non-nil error of a publish that it
  did not; there are no publisher confirms. "Accepted exactly once" rests on both.
- Broker, besides `basic.ack` of section 1.8.3.13 of the AMQP 0-9-1 reference: `basic.nack` with requeue and a
  lost connection return the copy with unchanged headers; `basic.nack` without requeue moves it to the dead
  queue if the sink has one and drops it otherwise; a message that expires in the requeue queue goes to the
  target queue and its `x-death` entry for that queue and reason is incremented, or added, and moved to the
  front. Queues survive. A count in an arriving `x-death` entry for the requeue queue is not negative.
- Correlation ids and message objects are fresh; each `Message` is sent once; queues are named; a requeued
  sink uses `TransactFunc`, and `fn` settles nothing itself.
- Signature schemes are a signing and a checking function; `Signing.Correct` says that they belong together.

## What is false of the code

- `Retries` is documented as the maximum number of retries, for sinks with transaction handlers
  (config.go:65-66), without a word on `Requeue`. As long as nothing goes wrong, it limits the calls of `fn` to
  one and `L` retries if and only if the sink has a requeue queue and no expiry handler that may let messages
  through (`RetryLimit.LimitHoldsExactly`); in every other configuration healthy runs call `fn` any number of
  times (`RetryLimit.OrElseNoLimit`), because the count is that of expiries in the requeue queue, and a Nack
  leaves the headers unchanged. Healthy means: no connection lost, no publish to the requeue queue refused, the
  context not ended, `snk.requeue` set. With these disturbances the bound is
  `L + 1 + L * forks + returned + lost` (`RetryBound.AttemptsAreBounded`), where a fork is a second copy of a
  message that comes to life; no run has more forks than losses and returns (`Forks.ForksHaveCauses`), and for
  all numbers that satisfy this the bound is attained (`RetryLimit.BoundIsAttained`).
- The sweep of `BuildRPC` resolves a call if and only if it was registered before the sweep
  (`Rpc.ResolvedIffRegisteredBeforeSweep`): the table is not closed to later calls. Such a call exists
  (`Replies.CallAfterTheSweep`), and its channel stays open and empty in every continuation
  (`Replies.LateCallStaysOpen`). Its caller does not even get a `Reply`: no publisher runs any more, so `Raw`
  waits for ever in `<-ms.Send()` (rpc.go:64, `Replies.RawWaitsForEver`), unless middleware refuses the request.
- `TrySend` returns nil, and `Send` a closed channel, for a message that middleware refused and that is never
  sent (writer.go:281-283, writer.go:246-249; `Answers.RefusedLooksSent`). A nil from `TrySend` means accepted
  exactly once if and only if middleware passed the message, and so does a closed channel from `Send`; a refused
  message was not sent at all (`Answers.NilFromTrySend`, `Answers.ClosedFromSend`). `PublishWait` has an error for
  it, and its nil needs no condition (`Answers.NilFromPublishWait`).
- A signature survives requeueing if and only if its header is not `x-death` and not the last-error header
  once an error was noted there (`Signing.SignatureSurvivesRequeueing`).
- `HandlerFunc` registers the sink before it sets `snk.requeue` (sink.go:204-207). A delivery that
  fails in between is returned by Nack although the sink has a requeue queue; the model lets every call of `fn`
  find it set or not (`requeueSet`), and `Sink.Sink.Transact` says which of the two follows.

## Model

| member | source | states |
|---|---|---|
| `Supervisor.StepKeepsInv` | amqp.go:66-123 | every step of `start`, a streamer, a handler goroutine or a `handle` call keeps: everything running belongs to the current connection, handlers are handed out in order, no two goroutines serve one handler, no refresh is lost, `done` is closed once |
| `Supervisor.EpochExclusion` | amqp.go:102-123 | in every run, at any time, all handler goroutines belong to the current connection and no two serve the same handler |
| `Supervisor.RunnersDoNotMove` | amqp.go:107-119 | a handler goroutine keeps its connection and its handler as long as it lives |
| `Supervisor.ConnectionsDoNotOverlap` | amqp.go:90-123 | every `ChannelReady` and the streamer of one connection are over before the next is dialled, and none is alive in a later one |
| `Supervisor.DoneIsFinal` | amqp.go:66-74 | `done` is closed at most once; from then on nothing runs and nothing will |
| `Supervisor.DispatchIsAnOrderedPrefix` | amqp.go:188-211 | handlers are handed out in registration order, each at most once; a streamer that waits though one is due has a token buffered or a `handle` call about to offer one |
| `Contexts.ContextEndsWithTheFirstHandler` | amqp.go:102-123 | in every run, while a connection lasts, its context has ended if one of its handlers is over, and only if one is or the global context has ended, and its streamer leaves only then |
| `Server.Server.Handle` | amqp.go:32-42 | the handler is appended behind those registered before, and a refresh token is there on return, whatever the others do |
| `Server.Server.OfferRefresh` | amqp.go:36-40 | the offer never blocks and leaves exactly one token |
| `Server.Server.HandOut` | amqp.go:196-200 | a handler is handed over, or the streamer leaves because its context is done, or it still waits and nobody receives |
| `Server.Server.AwaitRefresh` | amqp.go:203-208 | a token is consumed and the next snapshot due, or the streamer leaves because its context is done, or it still waits and no token is there |
| `Server.Server.StreamHandlers` | amqp.go:188-211 | what is sent is all that is dispatched in this connection and a prefix of `handlers` without gaps, however many are appended meanwhile; on leaving, the channel is closed; otherwise it waits in one of its selects |
| `Server.Server.RangeOnce` | amqp.go:107-119 | one receive: the next handler in order gets its goroutine, or the streamer's channel is closed, or no handler is offered |
| `Server.Server.WaitForAll` | amqp.go:122 | it returns only when no goroutine is left, and waits on only while one is |
| `Server.Server.OnConnectionEstablished` | amqp.go:102-123 | the handlers that got a goroutine are a prefix of the registered ones; when it returns none of the goroutines is left, nor the streamer, and the context is cancelled |
| `Server.Server.OnReady` | amqp.go:90-99 | a failed dial or a connection that is over leaves nothing running; a successful dial begins the next epoch |
| `Server.Server.OnIdle` | amqp.go:77-87 | it gives up if and only if the global context is done and its case is taken |
| `Server.Server.CloseDoneChannel` | amqp.go:67 | the deferred close of `done` finds it open and every goroutine gone |
| `Server.Server.Start` | amqp.go:66-74 | it returns only when the context is done, having closed `done` once, with nothing left running; otherwise `done` is open |
| `SendLog.EndedTurnsAreAPrefix` | writer.go:94-120 | reference sender: the messages it is done with are a prefix of the log, in order |
| `SendLog.CursorOfLongerLog` | internal/message_queue.go:54-64 | reference sender: appending to the log changes nothing about what was sent |
| `SendLog.AcceptedAreEndedTurns` | writer.go:105-119 | reference sender: the broker's log is the ended turns without the failed `Try` messages |
| `SendLog.AttemptsOfSlot` | writer.go:105-119 | reference sender: an ended `Done` turn has exactly one acceptance, an ended `Try` turn exactly one attempt, a later message none |
| `SendLog.OnlyTheLogIsSent` | writer.go:101-105 | reference sender: a message that is not in the log is not on the wire |
| `Outbox.StepKeepsInv` | writer.go:86-122 | every step of a producer and of the one consumer keeps the outbox invariant, over any number of reconnects |
| `Outbox.OutboxIsASequentialSender` | writer.go:94-120 | puts are settled plus pending; the publishes are a sequential sender's; the broker's log is the settled messages in put order without the failed `Try`s, plus at most the current front |
| `Outbox.FateOfSlot` | writer.go:105-119 | a settled `Done` message was accepted exactly once, a settled `Try` attempted exactly once, a message behind the front not at all |
| `Outbox.CallersLearnTheTruth` | writer.go:243-291 | `PublishWait` returning nil, or a closed `Done`, means accepted exactly once; `TrySend` tells the outcome of its only attempt |
| `Outbox.DoneIsClosedExactly` | writer.go:114-119 | a `Done` is closed exactly when its message is settled or about to be, and its message was accepted exactly when it is closed or its close is the next step |
| `Outbox.TryIsAnsweredExactly` | writer.go:106-110 | a `Try` is closed exactly when its message is settled or about to be, and a settled one has its one outcome in the channel or with the caller |
| `Outbox.RejectedIsNeverSent` | writer.go:278-283 | a message refused by middleware is never enqueued, settled nor sent: no publish of it is on the wire |
| `Outbox.ProducersKeepFront` | internal/message_queue.go:54-64 | no producer changes the front of a non-empty queue |
| `Outbox.ConsumerKeepsQueueBeforeCommit` | writer.go:101-119 | between `Peek` and `Commit` the consumer leaves the queue alone |
| `Outbox.CommitRemovesThePeeked` | internal/message_queue.go:43-51 | `Commit` removes the message that was peeked and published, and only it; the outcome settled is that of the last publish |
| `Outbox.ReplyGoesThrough` | writer.go:106-116 | the send to `Try` finds room and both closes find an open channel, even if the caller has left |
| `Outbox.PeekKeepsCounts` | internal/message_queue.go:27-39 | notifications that found the queue empty stay no more than the messages settled |
| `Outbox.StepExtends` | writer.go:101-119 | a step appends to the put, settled and wire histories and never rewrites them |
| `Outbox.InnerStepsKeepConsumers` | amqp.go:107-119 | only the start and the return of a `ChannelReady` change how many consumers a queue has |
| `Outbox.TwoConsumersPanic` | writer.go:114-119 | why one consumer: two of them send a message twice and close its `Done` twice |
| `LazyInit.InitialisedOnce` | internal/message_queue.go:66-77 | for any number of threads the list and the channel are created at most once, the list is never nil when accessed, no offer misses the channel, no put is lost |
| `LazyInit.UnlockKeepsInv` | internal/message_queue.go:17-22 | readers share the lock and the last one frees it |
| `Publisher.Publisher.PushBack` | internal/message_queue.go:55-58 | the message goes to the back, with a fresh reply channel for its caller |
| `Publisher.Publisher.Offer` | internal/message_queue.go:59-63 | afterwards a notification is buffered, and the queue is as it was |
| `Publisher.Publisher.TakeReply` | writer.go:285-290 | a caller takes its result, or sees its completion, exactly as the machine's caller |
| `Publisher.Publisher.Select` | internal/message_queue.go:34-38 | it takes a notification, or ends with the context, and otherwise waits on without a notification there |
| `Publisher.Publisher.Peek` | internal/message_queue.go:25-40 | it returns the front of the queue, gives up only at the end of the context, and otherwise waits on |
| `Publisher.Publisher.Commit` | internal/message_queue.go:43-51 | it removes exactly the message just handled |
| `Publisher.Publisher.SendTry` | writer.go:107 | the send of the outcome does not block, for a caller present or gone |
| `Publisher.Publisher.FinishTry` | writer.go:106-113 | a `Try` is answered, closed and discarded after its one attempt, and a failure ends the connection |
| `Publisher.Publisher.FinishDone` | writer.go:114-119 | a `Done` is completed and removed after a success |
| `Publisher.Publisher.ServeOne` | writer.go:101-119 | one turn: one publish, after which the loop goes on if it succeeded and ends if it failed; the end of the context; or it still waits |
| `Publisher.Publisher.Observe` | writer.go:95-100 | the overflow decision on one observed length keeps the alarm edge-triggered |
| `Publisher.OneMoreObservation` | writer.go:92-100 | one more observation: the alarm goes off there if and only if the length rose to `MaxSize` |
| `Publisher.Publisher.ChannelReady` | writer.go:86-122 | one whole connection is a run of the outbox: it ends with its first failed publish, with the context or with a failed declaration, and for no other reason; `lens` are exactly the lengths read at the top of the loop in that run, and the overflow handler is called exactly at those where the length came from below `MaxSize` (or was the first) and reached it |
| `Sender.Sender.Put` | internal/message_queue.go:54-64 | whatever happens between PushBack and offer, the message is put and a notification is there |
| `Sender.Sender.TrySend` | writer.go:278-291 | a message middleware refuses is not sent, with nil; any other nil means accepted in the only attempt, an error that it failed or a context ended; else the reply channel is open and empty |
| `Sender.Sender.Publish` | writer.go:243-253 | an error if and only if middleware refuses, and then nothing is sent; otherwise what middleware made of the message is put |
| `Sender.Sender.PublishWait` | writer.go:255-266 | nil means accepted exactly once, an error that middleware refused or the caller's context ended; else `Done` is open |
| `Rpc.StepKeepsInv` | rpc.go:20-66 | every step keeps: a channel's fate fixes its contents, its place in the table and who works on it |
| `Rpc.TableIsRegisteredMinusDelivered` | rpc.go:38-44 | until the sweep the table is exactly the registered calls minus those taken out by `onMessage` |
| `Rpc.RepliesGoThrough` | rpc.go:45-48 | the send of `onMessage` neither blocks nor panics, nor does its close |
| `Rpc.ReadersGetTheirOwnReply` | rpc.go:110-116 | what a caller reads was sent for its own correlation id, and two reads agree |
| `Rpc.FirstReplyWins` | rpc.go:38-49 | from its look-up a call is bound to that reply, and a resolved call stays as it was resolved |
| `Rpc.LateRepliesChangeNothing` | rpc.go:38-49 | a reply with an unknown or served id changes nothing but its handler's position |
| `Rpc.ResolvedIffRegisteredBeforeSweep` | rpc.go:27-34 | once the sweep is over a call is resolved if and only if it was registered before |
| `Rpc.ReplyAfterSweepPanics` | rpc.go:27-49 | why the supervisor's order: the sweep leaves closed channels in the table, and a later reply would be sent to one |
| `RpcClient.Client.Register` | rpc.go:58-63 | `Raw` enters a fresh one-place channel under its fresh id, unless the lock is still held |
| `RpcClient.Client.OnMessage` | rpc.go:38-49 | if a call waits under the id, its channel gets this message and is closed; otherwise the id is not in the table; no panic, no wait, under any interference |
| `RpcClient.Client.Sweep` | rpc.go:27-34 | afterwards the channel of every call made so far is closed, each closed once, and the table is as it was |
| `RpcClient.Client.Bytes` | rpc.go:110-116 | a reply is for the caller's id; the "closed channel" error means the call was answered before or swept; a caller that still waits has an open, empty channel |
| `Handshake.StepKeepsInv` | requeuer.go:64-116 | every step of callers and responders keeps: a request is in one place, which fixes its reply channel and its publishes |
| `Handshake.RequeueTellsTheTruth` | requeuer.go:89-116 | in every run a request is published at most once; nil means it was, the publish error that its only publish failed, anything else the global context |
| `Handshake.ResponderNeverBlocks` | requeuer.go:74-86 | a responder's reply and close go through for a caller present or gone |
| `Handshake.DistinctMeansOnce` | requeuer.go:77 | publishes of pairwise different requests are at most one per request |
| `Requeuer.Requeue.ChannelReady` | requeuer.go:64-87 | `served` is exactly what the responder accepted and what it published in this connection: every accepted request once, answered with the outcome and closed, before the next; the first failure ends the connection after its answer |
| `Requeuer.Requeue.ServeRequest` | requeuer.go:76-82 | an accepted request was not tried before and is tried and answered with the same outcome |
| `Requeuer.Requeue.Requeue` | requeuer.go:89-116 | nil means that a publishing with this message's properties and headers, the timeout as expiration and no delivery mode was published, the publish error that the one publish of it failed; a request is published at most once; a caller still waits only at a full channel or for an empty reply |
| `Requeuer.Requeue.RequeueWithError` | requeuer.go:118-126 | the error's text is in the message's own headers, also if it had none, nothing else of it changed, and the copy carries these headers |
| `Requeuer.OneMoreAnswered` | requeuer.go:76-79 | one more request served: still one publish and one matching answer each |
| `Headers.FindExpiry` | sink.go:400-418 | the first `x-death` entry of the given queue for expiry, or none if there is none |
| `Headers.RedeliveryIsTheFirstCount` | sink.go:400-418 | `getRedelivery` reads the int64 `count` of the first `x-death` entry, whatever it is for, and 0 if there is none |
| `Headers.ExpireCountsUp` | sink.go:400-418 | after an expiry the count that `getRedelivery` reads is the number of expiries in the requeue queue, whatever the headers were |
| `Headers.ExpireKeepsOthers` | requeuer.go:98 | expiry changes no other header |
| `Headers.LastErrorKeepsDeaths` | requeuer.go:118-124 | noting the error does not disturb the count |
| `Delivery.PolicyRefusesExactly` | sink.go:353-367 | refused exactly if the too-many-retries handler is due and answers false, or the limit is exceeded and no expired handler answers true |
| `Delivery.StepKeepsSound` | sink.go:344-392 | every step keeps copies and processes in their places and every request that of its process |
| `Delivery.PublishAlwaysFits` | requeuer.go:76-77 | a responder only ever publishes a message some process asked for |
| `Conservation.StepConserves` | sink.go:231-242 | every step, connection loss included, keeps the number of copies standing for a message at one plus its forks |
| `Conservation.NothingIsLost` | sink.go:215-247 | at least once: an arrived message has a copy in the target queue, unacked, in the requeue queue or dead, unless `fn` returned nil and it was acked, or it was refused and there is no dead letter |
| `Conservation.CopiesAreOnePlusForks` | requeuer.go:74-86 | without a fork exactly one copy stands for a message |
| `Settlements.SettledOnce` | sink.go:215-246 | over every run exactly one step makes the Ack or Nack of a settled process, and none that of any other |
| `Settlements.EachOnce` | sink.go:344-392 | among the Ack and Nack calls of a sink each of its settled processes occurs once and nobody else occurs |
| `Settlements.EveryCallIsReasoned` | sink.go:231-242 | every Ack follows a nil from `fn` or an accepted requeue, every Nack without requeue a refusal |
| `Settlements.OwnedExactly` | sink.go:346-347 | the processes of a sink are exactly those whose delivery it took, each once, the earlier first |
| `RetryBound.AttemptsAreBounded` | sink.go:352-375 | `fn` runs at most `L + 1` times, plus one per Nack with requeue and per lost connection, plus `L` per fork, in every run |
| `RetryBound.UndisturbedAttempts` | sink.go:352-375 | `fn` runs at most `L + 1` times when nothing was returned, lost or forked |
| `RetryHealth.HealthyRunIsUndisturbed` | sink.go:231-242 | with a requeue queue, a healthy run sends no Nack with requeue, loses no connection and forks no copy |
| `RetryHealth.HealthyAttempts` | config.go:65-66 | with a requeue queue, in every healthy run `fn` runs at most once and `L` times more |
| `Forks.ForksHaveCauses` | requeuer.go:74-86 | over every run a message has no more forks than lost connections and Nacks with requeue |
| `RetryLimit.LimitIsAttained` | sink.go:360 | for every limit `L` some healthy run calls `fn` exactly `L + 1` times |
| `RetryLimit.LimitHoldsExactly` | config.go:65-66 | `Retries` limits the calls of `fn` to `L + 1` in every healthy run if and only if there is a requeue queue and no expiry handler that may let messages through |
| `RetryLimit.OrElseNoLimit` | sink.go:233-235 | in every other configuration, for every n some healthy run without loss or fork calls `fn` n times |
| `RetryLimit.BoundIsAttained` | sink.go:352-375 | for every limit and all numbers of forks, returns and losses a run can have, some run attains the bound |
| `Sink.Sink.Judged` | sink.go:352-367 | refused exactly if the too-many-retries handler is due and answers false, or the limit is exceeded and the expired handler is absent, refuses or answers false |
| `Sink.Sink.Filtered` | sink.go:379-389 | filtered if and only if one of the middleware refuses |
| `Sink.Sink.Called` | sink.go:222-242 | after an error the requeue is asked for with the delivery's headers and the error's text, if there is one to ask |
| `Sink.Sink.Transact` | sink.go:215-247 | exactly one Ack or Nack, unless its requeue has no answer yet: Ack if `fn` returned nil or the requeue was published, Nack with requeue otherwise |
| `Sink.Sink.HandleDelivery` | sink.go:352-392 | one delivery: Nack without requeue if and only if one of the handlers due or one of the middleware refuses it, otherwise Ack if done or requeued and Nack with requeue if not, one call in all cases |
| `Sink.Sink.Next` | sink.go:346-351 | the end of the stream or of the context, or the next delivery; neither only if there is none |
| `Sink.Sink.ChannelReady` | sink.go:344-397 | the deliveries the broker hands to this sink, which are exactly those it takes, get exactly one Ack or Nack each, in the order taken, except the last if it still waits for its requeue; the loop ends at the first failed Nack of a refused message, with the stream or with the context |
| `Sink.Sink.LogsTellTheRun` | sink.go:344-392 | a delivery is in the sink's log if and only if it is this sink's, it has a call if and only if it is settled, and then one, with its reason |
| `Messages.CyclesAndHeaders` | requeuer.go:89-126 | after any number of requeue cycles `x-death` is the broker's, the last-error header has the text of the last error, and every other header is as it was sent |
| `Messages.CyclesAreCounted` | sink.go:400-418 | after n cycles through one requeue queue the count read has risen by n |
| `Messages.Millis` | requeuer.go:96 | the timeout in whole milliseconds, cut off toward zero |
| `Messages.CyclesKeepContent` | requeuer.go:92-103 | requeue cycles keep id, body and the other copied properties |
| `Signing.Copy` | certs.go:100-101 | `copy` writes as much as fits and touches nothing else |
| `Signing.Data` | certs.go:96-101 | the buffer is the message id followed by the body |
| `Signing.MessageSigner.Handle` | certs.go:95-112 | the header gets the key's signature of the digest of id and body, also if there were no headers, and nothing else changes; a signing error panics and writes nothing |
| `Signing.MessageValidator.Handle` | certs.go:133-160 | accepts if and only if the header is there, holds bytes, and the key accepts them for the digest of id followed by body |
| `Signing.ProcessMessage` | writer.go:293-301 | true if and only if every handler in turn hands the message on, and then it is what the last one made of it; false if and only if a handler that is reached refuses |
| `Signing.OneOutcome` | writer.go:293-301 | a chain passes a message, refuses it or panics, never two of these, and passes it as one message only |
| `Signing.ProcessConcat` | writer.go:293-301 | a chain is its front followed by its rest |
| `Signing.OtherSignersKeep` | certs.go:107-110 | a signer with another header leaves the first signature alone |
| `Signing.SenderSigns` | certs.go:95-112 | a message signed anywhere in a chain whose later handlers keep id, body and header leaves it with a valid signature |
| `Signing.CyclesAndVerdict` | certs.go:133-160 | requeue cycles change the validator's verdict on no message whose signature header survives them, and make it reject every other |
| `Signing.SignatureSurvivesRequeueing` | certs.go:133-160 | a message signed by the sender's chain is accepted after any number of requeue cycles if and only if its header survives them |
| `Signing.AcceptedMeansVerified` | certs.go:154-159 | nothing is accepted, after any number of cycles, without bytes in the header that the key accepts for its id and body |
| `Signing.TamperingIsDetected` | certs.go:133-160 | with a key whose signatures stand for one piece of data, a message that bears the signature of a sent one is accepted if and only if its id and body are those signed and the header survives |
| `Signing.SignedDataIdentifies` | certs.go:96-101 | among messages with ids of one length, the signed data is the same if and only if id and body are |
| `System.PublisherStartsAlone` | amqp.go:107-122 | when the supervisor starts a publisher no other consumer of its queue runs |
| `System.SupervisorIsOrderly` | rpc.go:27-29 | no message handler starts after `done` is closed, and none runs when it is |
| `System.StepKeepsInv` | amqp.go:102-123 | every step of the composed client keeps all three invariants and their coupling |
| `System.OutboxDeliversItsLog` | writer.go:94-120 | over all runs of the client: no panic, one consumer, and the wire is the sequential sender's over the put log |
| `System.HistoriesOnlyGrow` | writer.go:101-119 | what was put, settled or sent stays so in every continuation |
| `System.SettledExactlyOnce` | writer.go:105-119 | over all runs: settled `Done` accepted exactly once, settled `Try` attempted exactly once, nothing out of turn |
| `System.AnswersAreTrue` | writer.go:243-291 | over all runs: an answer to a caller, or a closed `Done`, is true |
| `System.ConsumerIsWoken` | internal/message_queue.go:25-40 | over all runs: a waiting consumer with work has a notification buffered or about to come, and idle notifications are no more than settled messages |
| `System.RpcIsSafe` | rpc.go:20-49 | over all runs: no reply channel is sent to or closed after its close, sweep and handlers never meet, swept calls are those registered before |
| `System.CallsStayResolved` | rpc.go:27-49 | over all runs: an answer is never replaced, a swept call never answered |
| `Answers.NilFromTrySend` | writer.go:278-291 | over all runs: nil from `TrySend` means accepted exactly once if and only if middleware passed the message; a refused one was not sent |
| `Answers.ErrorFromTrySend` | writer.go:278-291 | over all runs: an error from `TrySend` if and only if the context ended or its only attempt was made and failed |
| `Answers.ClosedFromSend` | writer.go:273-276 | over all runs: the same for the closed channel of `Send` |
| `Answers.NilFromPublishWait` | writer.go:255-266 | over all runs: nil from `PublishWait` means accepted exactly once, an error that middleware refused the message, which was not sent, or that the caller's context ended |
| `Answers.RefusedLooksSent` | writer.go:246-249 | runs exist with nil and with a closed channel for a refused message, and nothing on the wire |
| `Answers.DoneIsClosedExactly` | writer.go:114-119 | over all runs: a `Done` is closed exactly when its message is settled or about to be, and accepted exactly when closed or about to be |
| `Answers.TryIsAnsweredExactly` | writer.go:106-110 | over all runs: a settled `Try` is closed, and its one outcome is in the channel or with the caller |
| `Replies.TableInEveryRun` | rpc.go:38-63 | over all runs, until the sweep: the table is exactly the registered calls minus those taken out by `onMessage` |
| `Replies.ReadsInEveryRun` | rpc.go:110-116 | over all runs: what a caller reads was sent for its own id, and two reads agree |
| `Replies.HandlersInEveryRun` | rpc.go:38-49 | over all runs: the send and the close of `onMessage` go through, and a reply nobody waits for changes nothing else |
| `Replies.LateCallStaysOpen` | rpc.go:27-34 | a call registered after the sweep is resolved in no continuation |
| `Replies.NothingIsSentAfterTheEnd` | amqp.go:66-74 | once `done` is closed no publisher runs and nothing is sent or settled in any continuation |
| `Replies.RawWaitsForEver` | rpc.go:64 | so no `Done` that was open then, or is put later, is ever closed, and `Raw` never returns |
| `Replies.CallAfterTheSweep` | rpc.go:51-66 | a run with such a call exists |

## Left out

- Dialling, sockets, QoS, heartbeats and timers: connection, channel, publish and declaration are nondeterministic successes or failures.
- Declaration of exchanges, queues and bindings in `sink.ChannelReady` and its ready handlers: they come before the loop and only decide whether it is reached.
- Restarts of the broker: requeued copies are not persistent (requeuer.go:92-103), so conservation is claimed while queues live.
- Liveness: a sink that waits in `Requeue` watches only the global context (requeuer.go:105-115) while `wg.Wait` waits for the sink (amqp.go:122), so no connection is claimed to end. A script that runs out ends a method where it waits, with an outcome of its own (`Blocked`, `StillOpen`, `Suspended`, `Waiting`, None).
- Settlement in auto-ack sinks: the loop still sends Nack for dropped messages (sink.go:368-375); settlement is stated for `TransactFunc`.
- The order of registration and send in `Raw` (rpc.go:61-64): replies arrive at any time, also for ids not registered yet.
- Receiver middleware that rewrites a delivery: it passes or refuses, and the headers requeued are those delivered.
- Routing keys: the requeued copy is published under the requeue queue's name (requeuer.go:77), so `restoreRoutingKey` is no inverse there.
- Sending one `Message` object twice: its header table is shared between the copies (writer.go:245, certs.go:107-110).
- Requeue on unnamed queues, whose names change with the connection.
- 64-bit width: the death count, the overflow length and the number of goroutines are unbounded integers.
- A queued message with both or neither of `Try` and `Done`: `Publish` and `TrySend` make exactly one of them.
- Real RSA, SHA-512, PEM and key loading, JSON replies, UUIDs and logging.
- Builders, header helpers of utils.go, flags and the commands: easy, or input and output only.
- `System` composes one publisher and one RPC client with the supervisor; sinks and requeue responders are not in it, since `Delivery` and `Handshake` allow any number of them at once.
- RpcClient.Client.Register: `Raw` also waits for its publish (rpc.go:64), which is the outbox's `Done`; only the registration is modelled here.
- Publisher.Publisher.ChannelReady: the class takes `initOnce` as done; its interleavings are the subject of `LazyInit`.
