# The SansShell proxy, modelled and proved in Dafny

SansShell's proxy carries gRPC calls over gRPC. A client opens one bidirectional
stream to the proxy, asks for a target stream per target (`StartStream`), fans
data out to them by stream id, and gets their replies multiplexed on the way
back. This project models both halves of that protocol as step systems, proves
what holds in every interleaving, and ties the step systems to imperative
versions of the code. Three smaller parts of the system that the proxy relies
on are modelled beside it: the redaction of logged messages, the authorisation
of requests, and the refresh of client credentials. `dafny verify
dfyconfig.toml` checks everything.

## How the model is built

**Server.** `Protocol` has the messages. `TargetStreams` is one `TargetStream`:
request channel, the sending and the receiving goroutine of `Run`, `errChan`,
the error group, and the moves of these goroutines. The records carry their
history, so that a state tells what was queued, judged, delivered, received and
reported. `StreamSets` is the data of a `TargetStreamSet`. `ServerMachine` puts
the dispatch goroutine, the reply channel and all streams together: an event is
one atomic move of one goroutine, `Enabled` says when it can happen, `Apply` what
it does, and `After(c, run)` is the state after a sequence of events. Nothing is
assumed about the client. `ServerInvariant` proves an inductive invariant,
`ServerTheorems` and `Shutdown` what follows from it. `StreamHistory` and
`DispatchHistory` read every run by its events alone: how a stream was started,
what its goroutines did, why it was cancelled or shut, which error decided its
status, and why dispatch returned. The records are shown to agree with that.

**Server, imperatively.** `TargetStreamSets` has `TargetStream` and
`TargetStreamSet` as objects whose methods update shared stream objects in place,
each proved against the value-level operation. `Dispatcher` is the `dispatch`
loop over such an object, with the moves of the streams' goroutines and of the
context between its passes as inputs. It is proved to compute what the step
system computes, and every sequence of inputs that the environment allows is
shown to be a run of the step system, so the theorems about runs apply to it.

**Client.** `ClientModel` has what `createStreams`, `RecvMsg` and `invokeOneMany`
make of one reply. `StreamCreation`, `ProxyStreams` and `Unary` are the loops, the
first two with `Ret` objects that are shared with the caller and updated in place.
`Results` says, for any peer, what the results of one reply and the failures of
setup are. `UnaryAnswers` counts the results of a unary call for any replies, and
`UnaryResults` gives them exactly.

**Both together.** `Composed` joins one client call (streaming or unary) with the
server. Requests and replies stay in order, everything else interleaves, and
either side may fail at any moment; a unary call that fails in its receive loop
still hands out the streams left open. `ComposedInvariant` extends the invariant to
the joint system, `CallRuns` shows that the server's part of a joint run is a run of
the server, started for what the caller asked, `Provenance` traces every response
to the stream it was heard from, and `EndToEnd`, `StreamResults`, `UnaryAnswers`
and `UnaryResults` draw the conclusions. What the client has handed out is recorded
as it was at that moment.

**The rest.** `Redaction` and `RedactionTheorems` (message redaction),
`Authorizer` (`Eval` and the stream wrapper), `Credentials` (interleaved refreshes,
overrides and clones), `CredentialsObject` (the same operations on an object, and
the choice of an identity), `Targets` (the two parsers of target addresses).

## What is assumed

- Stream ids are drawn by `rand.Uint64()`. The model takes them from outside,
  nonzero and never issued before in the same connection.
- A target may connect or not, answer, end, or fail at any time. The policy, the
  hooks, the codecs, the digest and the certificate loaders are arbitrary
  functions or arbitrary results. The codec of `Any` is an inverse pair: a payload
  that decodes packs again.
- Moves that no other goroutine can separate observably are one event: `CloseWith`
  with its cancel, the hand-off on `doneChan` with the wait group's `Done`, the
  registration of a stream with its nonce pair.
- `ReqBufferSize` is a parameter; a queue of capacity zero never accepts, since a
  rendezvous is not modelled.
- Once the context is done `Add` may drop its `StartStreamReply`. What is said
  about start replies is therefore said while the context is live.
- Within one pass of the imperative `dispatch` loop the deliveries of a fan-out follow
  one another without a stream moving in between; in the step system they are separate
  events and everything interleaves.
- In the composed system a `proxyStream` is given up once its `RecvMsg` has returned an
  error. `ProxyStreams` has runs of calls that go on after errors.
- What `Progress` finds possible may be up to the environment: shutdown needs dials,
  authorisations and targets to come to an end.
- Error texts are kept where the code branches on them, otherwise only their
  codes and prefixes.
- The client has fewer than 2^32 targets in the composed system.
  `SetupCompletesExactly` shows why: the bound on nonces is a uint32, and setup can
  complete against a peer that answers each nonce once exactly below that number.
- `Range` over a protobuf message and over a Go map goes in no particular order;
  the methods pick an arbitrary next element, and the results do not depend on it.

## Where the code does less than one might hope

- `RecvMsg` crashes on a `ServerClose` that names an open stream twice
  (proxy/proxy/proxy.go:418-424: the entry is gone the second time).
  `RepeatedCloseCrashes` is the smallest such message, `CrashesExactly` the exact
  condition. This server only sends single-id closes, and `ReceiveRefusals` shows
  that the client never crashes against it.
- A caller of `RecvMsg` that has no open stream gets EOF at once and never sees the
  recorded failures (`NothingOpen`). With an open stream they come first, and once
  (`ErrorsOnce`).
- `createStreams` does not notice a peer that answers one nonce twice under two ids
  (`SharedIndexAccepted`). A terminal result is then the last of its stream
  (`CallsOrderly`) but not of its index (`SharedIndexSpeaksAgain`);
  `OrderlyByIndexExactly` is the exact condition.
- Two results of successive `RecvMsg` calls for the same stream are the same object,
  so the later call changes what the earlier one returned (`FirstResultChanges`).
  `KeepsExactly` says when it does not.
- A unary target that answers and then fails stops the loop for all others: it gets
  its one result, but a target that has answered and is still open gets its answer a
  second time (`AnsweredTwice`). `ExactlyOneAnswer` is the exact condition, for any
  replies and wherever the connection ends.
- A unary caller whose connection ends by EOF while a stream without an answer is open
  gets a result with neither response nor error. `EmptyExactly` is the exact condition;
  against this server it never happens (`NoEmptyResult`).
- A call that is not a dry run can still close with the status of a passed dry run, if
  its target fails with it (`TargetSaysPassed`). `NoDryRunStatus` is the exact condition.
- Redaction does not open an `Any` in a list, in a map or inside another `Any`
  (auth/rpcauth/redact.go:96-102). `ListedAnySurvives` is a message whose secret
  survives; `CleanExactly` is the exact condition under which none does.

## Model

| member | source | states |
|---|---|---|
| NonceKeys.KeyInjective | proxy/server/target.go:485 | The "target\|nonce" key identifies target and nonce, for all strings (bars included) and all uint32 nonces. |
| StreamHistory.MoveAgrees | proxy/server/target.go:201-402 | Every move of a stream's goroutines adds to its records exactly what the move stands for: errors passed to CloseWith, errors only returned, what was taken, judged, delivered, received and made up, the end of either goroutine, and whether it cancels the stream. |
| StreamHistory.HistoryOfRun | proxy/server/target.go:240-372 | In every run, by its events: the k-th message passed to the target is the k-th that the requests asked for, each approved by the k-th judgement; what was received is what the target sent; the sender is done exactly if one of the moves that end it happened. |
| StreamHistory.StartedAsAsked | proxy/server/target.go:477-531 | In every run each stream was registered by a StartStream with its target, nonce, dry-run flag and the method of that name. |
| StreamHistory.WhyCancelled | proxy/server/target.go:159-177 | In every run a stream is cancelled if and only if one of its own moves did it (a CloseWith, a failed dial or NewStream, a send that was not accepted) or a ClientCancel named it, while open, before the first id never issued. No close cancels. |
| StreamHistory.WhyShut | proxy/server/target.go:577-598 | In every run a stream's request channel is closed if and only if a ClientClose named it, or half-close came, while it was open. |
| StreamHistory.OkMeansDelivered | proxy/server/target.go:291-372 | In every run, a stream that closes OK, and whose target did not cut sending short with EOF, was passed everything queued for it (one message without client streaming). |
| StreamSets.ValidateAccepts | proxy/server/target.go:633-651 | Validation of a fan-out passes exactly if every listed id was issued and every open one takes this message type; it then yields the open ids in list order. |
| StreamSets.OpenOfCopies | proxy/server/target.go:633-651 | Skipping closed ids loses no copy owed to an open stream. |
| StreamSets.KnownIsPrefix | proxy/server/target.go:601-615 | ClientCancel reaches exactly the ids before the first one that was never issued. |
| ServerInvariant.AfterInv | proxy/server/server.go:246-319 | The invariant (per-stream order, replies = projection per stream, nonce pairs, wait group count, dispatcher phase) holds after every run. |
| ServerTheorems.ReplyGrammar | proxy/server/target.go:529-552 | In every run the replies that concern an id read start, data, at most one close, nothing after it; the start is first while the context is live; ids never issued are never mentioned. |
| ServerTheorems.RepliesComeFromTarget | proxy/server/target.go:240-288 | The data replies of a stream are what its target sent, in order, up to one still waiting to be written, followed by the one empty reply made up for a client-streaming target that ended without one. |
| ServerTheorems.NoWriteAfterClose | proxy/server/server.go:173-192 | After replyChan is closed no possible event writes to it. |
| ServerTheorems.IssuedPartition | proxy/server/target.go:529-561 | Open and closed ids partition the ids issued in a run; the closed ones are exactly those handed off on doneChan. |
| ServerTheorems.CleanReturn | proxy/server/server.go:258-287 | dispatch returns nil only when every stream ever started has handed off its id and the set is empty. |
| ServerTheorems.HalfClosedShrinks | proxy/server/server.go:264-287 | After half-close no event adds a stream, each hand-off removes exactly one, and requests stay closed. |
| Shutdown.ShutdownTerminates | proxy/server/server.go:173-192 | After half-close, or after dispatch has returned an error with requests still open, a run is no longer than the work left plus twice the messages the targets still send. |
| Shutdown.Progress | proxy/server/server.go:173-192 | From then on, until replyChan is closed, some event other than a target's message or a cancellation is possible. It may be the end of a dial, of an authorisation or of a target, so shutdown goes on if those come to an end and replies are drained. |
| ServerTheorems.AuthorisedPrefix | proxy/server/target.go:291-372 | What reached a target's SendMsg is an in-order prefix of what was queued, each message approved first, none after a refusal, none in a dry run, at most one without client streaming. |
| ServerTheorems.FanOutOrder | proxy/server/target.go:626-664 | Against any client a stream is delivered a prefix of the data requests that named it, one copy per mention, in order; an open stream has all of them once dispatch is idle. |
| StreamHistory.StatusPrecedence | proxy/server/target.go:201-401 | In every run the status of a ServerClose is read off the stream's own events: the first error passed to CloseWith (refusal, bad input, passed dry run, failed target unless tolerated, failed half-close), else the first only returned (dial, NewStream, context, send, packing) with its prefix, else that of closing the connection, else OK; a dry run that approved a request never closes OK, and closes Aborted unless a CloseWith came earlier. |
| StreamHistory.StatusDecided | proxy/server/target.go:376-395 | That status is the error of one move: the first that calls CloseWith, else the first that returns an error, else the end of the group. |
| DispatchHistory.WhyStopped | proxy/server/server.go:252-318 | In every run dispatch has returned an error if and only if an event gave it one, with that event's code: re-use of a pair, an undecodable message, an unknown id or wrong type, an unknown id in a cancel, an unknown request, a failed delivery, the context. The context is done exactly if it was cancelled or dispatch has failed. |
| DispatchHistory.WhyRefused | proxy/server/target.go:508-514 | In every run a start reply without a stream carries InvalidArgument and answers a StartStream for a method that does not exist. |
| DispatchHistory.WhenCancelIsSeen | proxy/server/target.go:294-297 | In every run a sender that waits for requests can see a cancellation if and only if the context is done, the stream was cancelled, or a goroutine returned an error. |
| ServerTheorems.NoncesUnique | proxy/server/target.go:478-531 | No two successful start replies of a run share a stream id or a (target, nonce) pair. |
| ServerTheorems.ReuseExactly | proxy/server/target.go:485-492 | A start is refused for re-use exactly if an earlier one with the same pair got a stream, so failed starts may be retried. |
| TargetStreamSets.TargetStream.CloseSend | proxy/server/target.go:153-157 | Closes the request channel at most once, however often it is called. |
| TargetStreamSets.TargetStreamSet.constructor | proxy/server/target.go:457-466 | A new set is empty. |
| TargetStreamSets.TargetStreamSet.Add | proxy/server/target.go:477-553 | Re-use changes nothing; an unknown method gets an error reply and changes nothing; otherwise the stream is registered and started, its pair used and the wait group raised. |
| TargetStreamSets.TargetStreamSet.Remove | proxy/server/target.go:558-561 | Moves exactly this id from the open to the closed streams. |
| TargetStreamSets.TargetStreamSet.Empty | proxy/server/target.go:565-567 | True exactly if no stream is open. |
| TargetStreamSets.TargetStreamSet.ClientClose | proxy/server/target.go:577-591 | Closes the request channel of every listed open stream and ignores the other ids. |
| TargetStreamSets.TargetStreamSet.ClientCloseAll | proxy/server/target.go:594-598 | Closes the request channel of every open stream. |
| TargetStreamSets.TargetStreamSet.ClientCancel | proxy/server/target.go:601-615 | Cancels the listed streams before the first id that was never issued, and fails exactly if there is one. |
| TargetStreamSets.TargetStreamSet.Checks | proxy/server/target.go:633-651 | The validating loop computes Validate. |
| TargetStreamSets.TargetStreamSet.Send | proxy/server/target.go:626-664 | All or nothing before the first delivery; then one copy per open occurrence in list order, and a failing delivery leaves exactly the copies before it. |
| Dispatcher.HandleRequest | proxy/server/server.go:296-316 | One request has the effect, the reply and the error that the steps of the server give it. |
| Dispatcher.TakeDone | proxy/server/server.go:258-266 | A finished stream is removed, and dispatch returns nil exactly if requests are closed and no stream is left. |
| Dispatcher.CloseAll | proxy/server/server.go:268-286 | Half-close reaches every open stream, and dispatch returns nil exactly if there is none. |
| Dispatcher.OnePass | proxy/server/server.go:252-318 | One pass of the select, or one move of a stream or the context, has exactly the effect, the reply and the return value of the corresponding steps. |
| Dispatcher.Dispatch | proxy/server/server.go:246-319 | The loop over any inputs, with the streams moving between its passes, ends in the stream set, with the replies and the return value, that the steps of the server give. |
| Dispatcher.PassIsRun | proxy/server/server.go:252-318 | From any reachable state, a pass of the loop that the environment allows is a run of the server. |
| Dispatcher.LoopIsRun | proxy/server/server.go:252-318 | Any sequence of inputs that the environment allows in turn, stream moves included, is a run of the server that ends in the loop's state. |
| Dispatcher.LoopReturnsClean | proxy/server/server.go:258-287 | When the loop returns nil after such inputs, every stream it started has handed off its id and none is open. |
| ClientModel.SetupConserves | proxy/proxy/proxy.go:492-559 | Against any peer, open streams and recorded failures add up to the start replies accepted, each labelled with its own target. |
| ClientModel.TooManyTargets | proxy/proxy/proxy.go:508-512 | With 2^32 targets or more, setup never completes against a peer that answers each nonce at most once. |
| ClientModel.SetupCompletesExactly | proxy/proxy/proxy.go:499-512 | Some such peer completes setup if and only if there are fewer than 2^32 targets. |
| ClientModel.CrashesExactly | proxy/proxy/proxy.go:395-424 | RecvMsg crashes if and only if the reply closes open streams only and names one of them twice. |
| ClientModel.RepeatedCloseCrashes | proxy/proxy/proxy.go:418-424 | A close that names one open stream twice crashes RecvMsg. |
| StreamCreation.CreateStreams | proxy/proxy/proxy.go:492-559 | Stops after the first reply that completes or breaks setup; on success the result objects are distinct, one per target, and show what the replies add up to. |
| StreamCreation.TakeStart | proxy/proxy/proxy.go:505-536 | A start reply is refused for a nonce out of range, a wrong target or a known id, otherwise it makes one new result object, open or failed. |
| StreamCreation.TakeClose | proxy/proxy/proxy.go:537-553 | A close during setup moves the named streams to the errors, or fails on an id that is not open. |
| ProxyStreams.ProxyStream.CloseSend | proxy/proxy/proxy.go:224-240 | Half-closes the connection once, and counts as closed even if that fails. |
| ProxyStreams.ProxyStream.SendMsg | proxy/proxy/proxy.go:248-307 | Sends one request that names every open stream exactly once, unless sending is closed. |
| ProxyStreams.ProxyStream.TakeData | proxy/proxy/proxy.go:365-388 | A data message updates and appends the object of each listed stream up to the first unknown id. |
| ProxyStreams.ProxyStream.TakeClosed | proxy/proxy/proxy.go:418-424 | A close writes the final error into the objects, appends them and forgets the streams. |
| ProxyStreams.ProxyStream.RecvMsg | proxy/proxy/proxy.go:310-429 | A OneMany call does exactly what RecvCall says, appends the recorded failures due and then the stream's own objects in order, and leaves every object, whoever holds it, showing what the reply wrote to it. |
| ProxyStreams.CallReads | proxy/proxy/proxy.go:340-424 | Against any peer, a call hands out the failures that are due and then one result per stream that the reply reaches: its data, or EOF for a close with code 0, or the close's code and message, reworded only for a dry run that passed. |
| Results.ReplyReads | proxy/proxy/proxy.go:361-424 | The same for one reply: which streams it reaches, in order, and what each result says. |
| Results.FineExactly | proxy/proxy/proxy.go:361-429 | A reply is taken without error if and only if it is data for open streams, or a close of open streams that names none twice. |
| Results.SetupExplained | proxy/proxy/proxy.go:505-553 | Against any peer, every stream that setup opens was announced under its labels, and every failure carries the status of the start reply, or of the close of a stream announced under its labels, that caused it. |
| ProxyStreams.KeepsExactly | proxy/proxy/proxy.go:365-424 | A result handed out earlier keeps its value over a later call if and only if the call fails, or its reply does not reach the stream (listed before the first unknown id, for a close before the first repetition), or it writes what is there already. |
| ProxyStreams.FirstResultChanges | proxy/proxy/proxy.go:371-375 | Two messages on one stream: both calls return the same object, and the first result then shows the second response. |
| ProxyStreams.CallsOrderly | proxy/proxy/proxy.go:310-429 | Over any run of calls against any peer the open streams only shrink, every result belongs to a stream that was open and carries its labels, each stream yields at most one terminal result and nothing after it. |
| ProxyStreams.OrderlyByIndexExactly | proxy/proxy/proxy.go:310-429 | The same per index, in every run of calls, if and only if no two open streams share an index. |
| ProxyStreams.SharedIndexAccepted | proxy/proxy/proxy.go:493-536 | With two targets, setup completes against a peer that answers one nonce twice under two ids, and leaves two streams of one index. |
| ProxyStreams.SharedIndexSpeaksAgain | proxy/proxy/proxy.go:365-424 | For any two open streams that share an index: closing one and hearing from the other yields data under an index after its terminal result. |
| ProxyStreams.ErrorsOnce | proxy/proxy/proxy.go:340-352 | With a stream open, a run of calls hands out the recorded failures first and exactly once, and is otherwise unaffected by them. |
| ProxyStreams.NothingOpen | proxy/proxy/proxy.go:311-314 | Once no stream is open every call returns EOF, hands out nothing and changes nothing. |
| EndToEnd.Demultiplexed | proxy/proxy/proxy.go:454-462 | In every interleaving of client and server, every result under index i names targets[i] even if targets repeat, its response, with an error beside it or not, was sent by the target of the one stream opened with nonce i, and the data handed out under i without an error is an in-order prefix of what that target sent. Results left over by a failed unary loop are included. |
| Provenance.AlwaysSourced | proxy/proxy/proxy.go:366-374 | In every run, every response the client holds for a stream was heard from that stream, and every response it has handed out was heard from a stream opened under its index. |
| CallRuns.IsServerRun | proxy/proxy/proxy.go:436-712 | The server of a joint run is in the state that its own events lead to, so the theorems about runs of the server hold of it. |
| CallRuns.StartedForCall | proxy/proxy/proxy.go:454-463 | In every run each stream of a call has the call's method, and is a dry run if and only if the call is one. |
| CallRuns.ClosesEveryStream | proxy/proxy/proxy.go:275-292 | In every run of a unary call, once it has closed its streams, that is its last request and it names every stream the client still has open. |
| CallRuns.DryRunDeliversNothing | proxy/server/target.go:341-346 | In every run of a dry run no event passes a message to a target. |
| CallRuns.NoDryRunStatus | proxy/server/target.go:341-346 | In every run of any other call a stream closes with the status of a passed dry run if and only if the move that decides its status brings exactly that status from the policy, the target, the context or the connection. |
| CallRuns.TargetSaysPassed | proxy/server/target.go:270-271 | A run in which that happens: the target fails with that status. |
| StreamResults.ResultsOfOpen | proxy/proxy/proxy.go:310-429 | In every run of a streaming call, the results under the index of a stream that setup left open are one by one, in order, what the replies about it stand for. |
| StreamResults.ResultsOfFailed | proxy/proxy/proxy.go:340-352 | In every run the failure of a target in setup has the status of the reply that caused it, and a streaming call hands it out once, as the only result under its index. |
| StreamResults.TerminalResults | proxy/proxy/proxy.go:390-424 | In every run of a streaming call, a terminal result is EOF if and only if the stream's ServerClose has code 0, and otherwise has that code and, outside a passed dry run, that message; and the ServerClose is what the stream's events at the server come to. |
| EndToEnd.FannedOut | proxy/proxy/proxy.go:248-273 | Each target sees, in order and without duplicates, a prefix of the messages passed to SendMsg, each approved for that stream first. |
| EndToEnd.ClientIsSafe | proxy/proxy/proxy.go:224-307 | No trace of the client makes the server write to a closed request channel or meet an id it did not issue; only a message type can be refused. |
| EndToEnd.SetupPartitions | proxy/proxy/proxy.go:492-559 | Against this server the indices 0..N-1 are partitioned between open streams and recorded failures when setup succeeds. |
| EndToEnd.SetupRefusals | proxy/proxy/proxy.go:500-558 | Against this server setup fails on a reply only if a target spoke or closed cleanly too early, or the server's context is done. |
| EndToEnd.ReceiveRefusals | proxy/proxy/proxy.go:361-429 | Against this server the receive loops never crash, and while its context is live they meet nothing unexpected, except a unary target that fails after answering. |
| EndToEnd.CleanEnd | proxy/proxy/proxy.go:637-640 | When the server ends the call cleanly and everything was received, no stream is open at the client and under each index the caller has exactly what the target sent. |
| ComposedInvariant.ReachedInv | proxy/proxy/proxy.go:436-712 | The joint invariant of client and server holds in every reachable state. |
| Unary.HandleReply | proxy/proxy/proxy.go:640-693 | One pass of the receive loop does what InvokeReply says. |
| Unary.Receive | proxy/proxy/proxy.go:625-700 | The receive loop takes replies until one is unexpected or no stream is left. |
| Unary.Leftovers | proxy/proxy/proxy.go:701-706 | Every stream that is still open gets exactly one result: its target and index, its last response and the error that ended the loop. |
| Unary.Invoke | proxy/proxy/proxy.go:625-708 | The channel carries the setup failures, then the results of the loop, then per stream left over one result with its last response and the error of the unexpected reply, an internal one with its reason, or else that of the connection. |
| Results.TurnReads | proxy/proxy/proxy.go:648-693 | One turn of the receive loop, for replies about any number of streams: data answers the listed streams up to the first unknown one, a close with an unknown stream changes nothing, a clean close drops the listed streams, a failing one fails them up to the first that has answered, and drops all if none has. |
| UnaryResults.ResultsExactly | proxy/proxy/proxy.go:625-708 | For any single-stream replies and wherever the connection ends, the exact results under a stream's index: one per data reply, one for a failure, and if it is left over one more, with its last response and the error that ended the loop. |
| UnaryResults.WhyEnded | proxy/proxy/proxy.go:634-700 | While a stream is open, the loop has ended with an error if and only if a reply stopped it, and the error has the reason that this reply gives. |
| UnaryResults.ResultsOfUnary | proxy/proxy/proxy.go:595-708 | In every run of a unary call against this server whose loop has stopped: those are the caller's results, the error being an internal one with the reason of the unexpected reply, or that the connection was lost; under the index of a failed target there is just its failure. |
| UnaryResults.EmptyExactly | proxy/proxy/proxy.go:701-706 | For any replies, every result has a response or an error if and only if the loop ended with an error or every stream left over has a response. |
| UnaryResults.NoEmptyResult | proxy/proxy/proxy.go:310-708 | In every run against this server, streaming or unary, every result has a response or an error. |
| UnaryAnswers.CollectTells | proxy/proxy/proxy.go:634-700 | For any single-stream replies: which streams the loop leaves open, and how many results it hands out for each, read off the replies before the one that stops it. |
| UnaryAnswers.ResultsOfStream | proxy/proxy/proxy.go:625-708 | The number of results for a stream on the whole channel: its data, its failure, and one more if it is left over. |
| UnaryAnswers.ExactlyOneAnswer | proxy/proxy/proxy.go:595-708 | For any single-stream replies and wherever the connection ends, the channel carries exactly one result for an index if and only if its stream, if it has one, was silent to the end, answered once and then stopped the loop by failing, failed without an answer, or answered once and closed. |
| UnaryAnswers.ReadsAllExactly | proxy/proxy/proxy.go:634-700 | The loop reads a whole log, and without error, if and only if the log speaks of open streams only and each stream's replies are data, then perhaps its close, with no failure after an answer. |
| UnaryAnswers.CompleteAnswers | proxy/proxy/proxy.go:595-708 | If every open stream's replies are in such order up to its close, in any interleaving, no stream is left over and an index gets exactly one result if and only if its stream, if it has one, had data and a clean close or just a failure. |
| UnaryAnswers.EveryIndexOnce | proxy/proxy/proxy.go:595-708 | If each open stream's replies are data and an OK close, or a single failing close, then in any interleaving every index gets exactly one result, setup failures included, and no stream is left open. |
| UnaryAnswers.AnsweredTwice | proxy/proxy/proxy.go:675-681 | After data from two targets and a failing close of the first, the first has one result and the second has two. |
| UnaryAnswers.LedgerHolds | proxy/proxy/proxy.go:595-708 | In every run of a unary call against this server, what the caller has is what the goroutine emits for the server's replies so far. |
| UnaryAnswers.UnaryEndToEnd | proxy/proxy/proxy.go:595-708 | In every run of a unary call against this server whose loop has stopped, target i has exactly one result if and only if that condition holds of its stream's replies. |
| UnaryAnswers.UnaryOnceEach | proxy/proxy/proxy.go:595-708 | The same for the caller's results in every run of a unary call against this server whose loop has stopped. |
| Redaction.RedactSingleField | auth/rpcauth/redact.go:109-143 | Marked strings and bytes become their hash form element by element, empty strings and nil bytes stay, anything else is cleared. |
| Redaction.RedactListField | auth/rpcauth/redact.go:47-55 | Every element is redacted, the length stays, and it fails exactly if an element does. |
| Redaction.RedactMapField | auth/rpcauth/redact.go:57-68 | The same for map entries, in whatever order they come. |
| Redaction.RedactNestedField | auth/rpcauth/redact.go:72-107 | Descends into messages, lists, maps and singular Anys, and fails exactly on an Any that does not decode. |
| Redaction.RedactFields | auth/rpcauth/redact.go:145-162 | Computes Redacted in any order of fields, and fails exactly if an Any it must open does not decode. |
| RedactionTheorems.RedactedByPath | auth/rpcauth/redact.go:47-162 | For every path into a message: past unmarked fields it leads to the field unchanged, hashed or cleared as its mark says, with lengths and keys kept; into a marked field it leads nowhere. |
| RedactionTheorems.FailsByPath | auth/rpcauth/redact.go:72-107 | Redaction fails if and only if some path through unmarked fields leads to an unmarked singular Any that does not decode. |
| RedactionTheorems.CleanExactly | auth/rpcauth/redact.go:94-107 | The result holds nothing but masks in marked fields, inside every Any, if and only if the Anys the walk does not open held nothing to redact. |
| RedactionTheorems.ListedAnySurvives | auth/rpcauth/redact.go:96-102 | A secret inside an Any in a list is left as it is. |
| RedactionTheorems.AlikeExactly | auth/rpcauth/redact.go:72-162 | Two messages redact to equal results if and only if they have the same types and agree on unmarked content and on hash and emptiness of marked strings and bytes, whatever their other marked fields hold and whatever type URLs singular Anys had. |
| RedactionTheorems.AlikeOutcome | auth/rpcauth/redact.go:72-92 | Such messages also fail to be redacted together. |
| Authorizer.GetRedactedInput | auth/rpcauth/redact.go:164-215 | A nil input gives the empty one; otherwise authorization headers are dropped in any spelling, the other fields are kept, and the message is redacted or the reason why not is returned. |
| Authorizer.VisibleHeaders | auth/rpcauth/redact.go:164-220 | A visible input has no header that reads "authorization" in any spelling, every other header with its values, and its other fields but the message unchanged. |
| Authorizer.VisibleExactly | auth/rpcauth/redact.go:164-215 | An input is visible if and only if it has no message, or one of a known type that parses, has no unmarked path to an Any that does not decode, and renders once redacted; that rendering is the visible message. |
| Authorizer.LogsAlike | auth/rpcauth/redact.go:164-215 | Inputs that differ only in authorization headers and in what redaction hides are logged identically. |
| Authorizer.RunHooks | auth/rpcauth/rpcauth.go:131-140 | Hooks see the input as the hooks before left it, up to and including the first that fails. |
| Authorizer.DenialMessage | auth/rpcauth/rpcauth.go:166-181 | The text of a denial with no, one or several hints. |
| Authorizer.Eval | auth/rpcauth/rpcauth.go:112-184 | Permits exactly if the input is not nil, both redactions succeed, every hook succeeds in order on the progressively changed input and the policy allows the final input; otherwise the first thing that went wrong decides the error. |
| Authorizer.HintsDoNotDecide | auth/rpcauth/rpcauth.go:152-161 | Failing or different denial hints change neither the verdict nor its code. |
| Authorizer.WrappedStream.RecvMsg | auth/rpcauth/rpcauth.go:285-309 | A received message passes exactly if Eval permits it, and only then is the peer remembered. |
| Credentials.AlwaysConsistent | auth/mtls/client_multi_credentials.go:121-188 | In every interleaving of refreshes, overrides and clones, of every object: the inner credentials are built from exactly the stored identities, roots and server name, and loader names and order never change. |
| Credentials.HoldsWhatTraceSays | auth/mtls/client_multi_credentials.go:144-188 | Every object holds the certificates and roots of one refresh, never a mixture of two, and the last name it was given; a clone starts with those of its original. |
| Credentials.FailedRefreshLeavesNothing | auth/mtls/client_multi_credentials.go:165-178 | A run in which some refresh never completes ends as if that refresh had not been there. |
| CredentialsObject.MultiIdentityCredentials.RefreshIfNeeded | auth/mtls/client_multi_credentials.go:144-188 | Reloads only if some loader asks for it, and installs all of the new certificates and roots or none: identity i then has its old name and the certificate of loader i. |
| CredentialsObject.RefreshIsRun | auth/mtls/client_multi_credentials.go:144-188 | From any reachable state of interleaved calls, beginning a refresh, loading one certificate per loader in order and installing leaves the object with exactly what RefreshIfNeeded installs. |
| CredentialsObject.MultiIdentityCredentials.OverrideServerName | auth/mtls/client_multi_credentials.go:347-352 | Stores the name and passes it to the inner credentials. |
| CredentialsObject.MultiIdentityCredentials.Clone | auth/mtls/client_multi_credentials.go:322-337 | A new object with the same contents. |
| CredentialsObject.SelectIdentity | auth/mtls/client_multi_credentials.go:237-263 | The least index of the first tier that is not empty: supported, then issued by an acceptable CA, then the first identity; an error only for no identities. |
| CredentialsObject.ChainMatchesAcceptableCAs | auth/mtls/client_multi_credentials.go:269-280 | True exactly if some certificate of the chain parses and has an acceptable issuer. |
| Targets.ParseTargets | proxy/proxy/proxy.go:720-749 | All addresses parse or the whole list is refused; results are in order. |
| Targets.ValidateAndAddPortAndTimeout | cmd/util/util.go:76-101 | Completes the address, or exits on the malformed ones. |
| Targets.PortExactly | cmd/util/util.go:60-62 | An address has a port if and only if a colon comes after its last bracket; to any other one the port is appended. |
| Targets.ParsesExactly | proxy/proxy/proxy.go:720-749 | A target is a nonempty host without semicolons, or such a host, a semicolon and a duration that parses, and nothing else. |
| Targets.PortAdded | cmd/util/util.go:60-62 | An address completed with a port has one, brackets and colons in the host or not. |
| Targets.CompletedParses | cmd/util/util.go:76-101 | Both parsers accept the same addresses; a completed one parses to the host with a port and its own or the default timeout; completing again changes nothing. |

## Left out

- The gRPC transport, dialing, the TLS handshake, certificate parsing, OPA evaluation, the protobuf and JSON codecs and SHA-256: they are parameters or events of the environment.
- `send` and `receive` (proxy/server/server.go:200-243): replies stay in the log of replyChan, and requests arrive from the client's wire or from anywhere.
- Deadlock freedom when the client connection fails in the middle of a send: the unguarded writes to replyChan need somebody to drain it, and `Progress` takes them as always possible.
- A rendezvous on a request channel of capacity zero.
- `RecvMsg` and `Invoke` for a single target with a proto.Message instead of a slice of results (proxy/proxy/proxy.go:127-177, 322-337).
- Interceptors, headers, trailers and dial timeouts of the client connection, and the parsing of service descriptors.
- The type URL of an Any is a string that packing rewrites to the standard prefix and the payload's type name; that it resolves to the payload's type is part of the codec.
- Redaction updates messages in place; the methods return the new tree instead. Sharing between messages, extensions, unknown fields and what is left of a message after a failed redaction are not captured.
- `invokeOneMany` keeps results in a map of values: that its channel carries shared objects, as RecvMsg's slices do, is not captured.
- The error branch of `NewTargetStream` (proxy/server/target.go:514-520): that function never fails.
- `AuthorizeClient`, `AuthorizeClientStream` and `Authorize` (auth/rpcauth/rpcauth.go:187-255): the same gate as `WrappedStream.RecvMsg` in front of another call.
- `NewMultiIdentityCredentials` resolving loaders by name, and `WrappedTransportCredentials`.
- Negative ports, and `StripTimeout`, which is the first part of the split address.
- Dispatcher.Dispatch: does not interleave stream moves between two deliveries of one fan-out, because the loop runs Send as one call; ServerMachine has those interleavings.
- UnaryResults.ResultsExactly: does not follow a log in which one reply names several streams, because this server sends none; Results.TurnReads says what one such reply does.
- Shutdown.Progress: does not promise that a dial, an authorisation or a target ends, because that is up to the environment.
- ComposedInvariant.ReachedInv: does not follow a streaming client that calls RecvMsg again after an error.
- Commands, flags, metrics, logging and generated code.
