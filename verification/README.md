# Verified models of the RPC connection engine and its neighbours

This project states in Dafny what the following parts of the repository do, and proves properties of them that
no single function shows.

- **The JSON-RPC connection engine** (`simple_rpc/rpc`). `Client.dispatch`, the callers that send operations and the
  readers of connections form a protocol over channels. `Engine` models it as a state machine in which the steps of
  different goroutines interleave freely. Every channel is a value (buffer, capacity, closed, faulted); `faulted`
  records an operation that would panic or park its goroutine, so "never faulted" is a safety property of all runs.
  The mutable code of `handler.go` and `subscription.go` is modelled by classes whose methods are proved against the
  same functions that the state machines use.
- **Client and server subscriptions** (`subscription.go`): the end protocol of a client subscription, the bounded
  forwarding loop, the order of notifications, and the closing of server subscriptions, each for all interleavings.
- **Batches** (`client.go`, `handler.go`): what a batch call fills in, and what a server answers to a batch.
- **Bitlists** (`bytesutil/bytes.go`): byte arrays that refine finite sets of naturals.
- **The public-key cache** (`bls/herumi/public_key.go`): a lossy cache of mutable objects, with the aliasing
  invariant that makes it transparent.
- **The epoch tables** (`epoch-extractor/main.go`) and **the chat log** (`route_guide/server/server.go`).

`dafny verify dfyconfig.toml` checks everything.

## Files

| file | content |
|---|---|
| Wrappers, Channels, Decimal, JsonRpc | options and results, Go channels as values, decimal text, JSON-RPC messages |
| Requests, ClientSubscriptions | the client half of `handler`, `requestOp`, `ClientSubscription` as classes |
| Engine | state, steps, assumptions and runs of the connection engine |
| EngineInvariant, EngineTables, EngineEntries, EngineAccounting | its invariants, each with the lemmas that every step keeps it |
| EngineTheorems | the results about every reachable state |
| EngineHistory | what operations and their callers got, told by the steps of the run |
| EngineRuns, EngineOrphans | putting runs together; operations that a read error leaves behind: who they are, that they exist, that nothing reaches them |
| EngineAssumption | the assumption about re-registration is exact, and can fail |
| BatchCalls, Answers | `BatchCallContext`; `handleBatch`, `handleMsg` |
| Forwarding, SubscriptionProtocol | the `forward` loop; quit and err under concurrency |
| Notifiers, ServerCalls | `Notifier` and the table of server subscriptions; call goroutines, notifiers and closing under concurrency |
| ServerActivation | which notifiers are activated, and what they then have written, told by the steps of the run |
| SubscriptionIds, Bitlists, PublicKeys, Epochs, RouteChat | one part each |

## Assumptions on the environment

`Engine.Assumed` and `ServerCalls.Assumed` state them; nothing else is assumed of peers, users or scheduling.

- Fewer than 2^32 ids are drawn from the counter of a client (`simple_rpc/rpc/client.go:227-230` wraps at 2^32).
- A write on a closed connection fails.
- When a connection takes over while a request is in flight, no id of that request has been answered yet. The code
  relies on this at `simple_rpc/rpc/client.go:568-570`. `EngineAssumption.AssumptionIsExact` proves that this is the
  weakest condition that will do: the loop stays safe after the switch if and only if it holds.
  `EngineAssumption.AssumptionCanFail` shows a run up to a switch at which it does not: a connection that answers a
  request whose write then fails.
- The id generator of a server yields distinct ids.

## Steps of the engine

| source | steps |
|---|---|
| `simple_rpc/rpc/client.go:443-452` and the callers at 278, 328, 377, 409 | NewOp, DrawId |
| `simple_rpc/rpc/client.go:456-469` | Accept, PostSent, Abandon |
| `simple_rpc/rpc/client.go:471-486` | WriteOk, WriteFail |
| `simple_rpc/rpc/client.go:488-511` | DialOk, DialFail, Reconnected, ReconnectedIdle, ReconnectLost |
| `simple_rpc/rpc/client.go:541-546` with `handler.go:263-287` | Handle, HandleOther |
| `simple_rpc/rpc/client.go:548-551`, `554-570`, `523-530` with `handler.go:152-194` | ReadFail, Reconnected, CloseClient, CloseIdle, then FinishClose |
| `simple_rpc/rpc/client.go:579-590` | TakeSent, TakeTimeout |
| `simple_rpc/rpc/client.go:596-604` | Drop, DrainReconnect, DrainQuit |
| `simple_rpc/rpc/client.go:135-152` | Receive, ReceiveClosed, Timeout, TimeoutQuit |

A batch that is read is a sequence of Handle and HandleOther steps; that other steps may come between them only adds
runs. The close of a connection is split in two steps because `handler.close` waits for call goroutines in between;
callers can move meanwhile.

## Model

| member | source | states |
|---|---|---|
| EngineTheorems.WriteLock | simple_rpc/rpc/client.go:456-592 | in every reachable state, callers between reqInit and reqSent plus posted outcomes are one exactly when the lock is taken and lastOp is set, else none; posting never blocks; no reconnect or failed send finds lastOp missing |
| EngineTheorems.ResponseChannels | simple_rpc/rpc/handler.go:160-194 | in every reachable state no response channel was closed twice, sent to after closing or while full; each id is delivered at most once and only to its own operation; a subscribe request only has its channel closed and starts at most one subscription |
| EngineHistory.DeliveredIsHandled | simple_rpc/rpc/handler.go:263-274 | in every run, the messages delivered to an operation that is no subscribe request are exactly the responses handled while their ids were registered for it: all of them, unchanged, in order |
| EngineHistory.RepliesForReceived | simple_rpc/rpc/client.go:135-152 | so what a caller received is a prefix of these responses |
| EngineHistory.ErrorHasCause | simple_rpc/rpc/handler.go:174-287 | in every run, the error of an operation is that of a read error, a reconnect or a close that found it registered, or is what the response to a subscribe request says, with its message, code and data |
| EngineTheorems.OutstandingRequests | simple_rpc/rpc/handler.go:160-172 | an id in respWait belongs to exactly one operation, is unanswered and its channel is open; a notification is never in the table |
| EngineTheorems.NoStaleEntries | simple_rpc/rpc/client.go:573-590 | until the client is closed, an id is in respWait only while its caller sends or waits, or while dispatch has yet to take the failure it posted: failed sends, timeouts and returns leave nothing behind |
| EngineTheorems.ListedSubscriptions | simple_rpc/rpc/handler.go:174-193 | every subscription in clientSubs was started by its response, exactly once and without error, and is listed under one id; none is listed once its connection is given up |
| EngineHistory.ListedExactly | simple_rpc/rpc/handler.go:190-287 | in every run, a subscription is listed under an id exactly if the last successful response that named the id was for its operation, and the connection it came from was not given up since |
| EngineTheorems.SentIsAccounted | simple_rpc/rpc/client.go:548-590 | once a send succeeded, each id of the operation is registered in the open current handler, answered, closed with an error or removed by timeout, unless the operation was orphaned by a read error while in flight or is being moved to a new connection |
| EngineOrphans.RegisteredExactly | simple_rpc/rpc/client.go:548-590 | an unanswered id of a sent operation with an open channel is registered in the current, open handler if and only if the operation was not timed out, is not orphaned and is not just being moved to a new connection |
| EngineOrphans.MoveArrives | simple_rpc/rpc/client.go:554-571 | a move ends only by draining the old connection, and then every id of the operation is registered in the open handler of the new one |
| EngineOrphans.OrphanedMeansLeftBehind | simple_rpc/rpc/client.go:548-571 | an operation is orphaned exactly if at some step of the run a read error was handled while it was in flight and at no later step it was registered on a new connection |
| EngineOrphans.OrphanedForever | simple_rpc/rpc/handler.go:174-194 | once the send of an orphaned operation is over, in no run does it get a response, an error or a close, and in no run is it registered again |
| EngineOrphans.UnregisteredForever | simple_rpc/rpc/handler.go:160-194 | the same of any operation that is neither in the table nor in flight |
| EngineOrphans.OrphanExists | simple_rpc/rpc/client.go:548-587 | a reachable state with a sent, orphaned, unanswered call whose caller waits on an empty open channel |
| EngineOrphans.StrandedForever | simple_rpc/rpc/client.go:135-152 | in every run from such a state the caller goes on waiting or gives up because its context ends |
| EngineTheorems.ReturnedCalls | simple_rpc/rpc/client.go:278-374 | a call or batch for which wait ends without error received exactly one response for each of its ids; a subscribe call for which it does started its subscription |
| EngineTheorems.CompleteCallsReturn | simple_rpc/rpc/client.go:135-152 | and conversely: once a call or batch that was sent and has no error on it has returned, it returned without error if and only if it received all its responses |
| EngineHistory.FailureHasCause | simple_rpc/rpc/client.go:135-152 | a caller whose operation was sent returns an error only if its context ended or the operation has an error |
| EngineHistory.StartedSubscriptionReturns | simple_rpc/rpc/client.go:432-440 | a subscribe request whose subscription started, and whose context did not end, never returns an error |
| EngineHistory.CallReturns | simple_rpc/rpc/client.go:292-304 | a reachable state in which a call has returned without error, with the response it was sent |
| EngineHistory.SubscriptionReturns | simple_rpc/rpc/client.go:432-440 | a reachable state in which a subscribe request has returned without error |
| EngineHistory.CallerMoves | simple_rpc/rpc/client.go:443-511 | how any step moves a caller: only steps of its own do; in particular the first failed write is tried again and the second is not, and a failed dial or a lost reconnect ends the send |
| EngineHistory.FailedSends | simple_rpc/rpc/client.go:456-511 | no operation is written unsuccessfully more than twice, and a send that failed was abandoned before dispatch took it, or found no connection, or failed to be written twice |
| EngineHistory.SentMeansWritten | simple_rpc/rpc/client.go:456-469 | an operation counts as sent exactly if the run has a successful write of it |
| EngineTheorems.Lifecycle | simple_rpc/rpc/client.go:516-571 | there is one reader with an undelivered error, of the current connection, exactly while the loop reads it; every handler is closed at most once, and exactly once by the time the client is closed |
| EngineTheorems.HandledByOpenHandler | simple_rpc/rpc/client.go:541-551 | whatever the loop handles was read from the current connection, and its handler has not been closed |
| EngineTheorems.WritesToCurrentConnection | simple_rpc/rpc/client.go:471-511 | outside a switch of connections writeConn is the current connection, and unless its codec is closed its handler is open |
| EngineTheorems.NoLostConnections | simple_rpc/rpc/client.go:488-511 | every connection that was dialled is held by the caller that dialled it, or was handed over to dispatch, or was closed; once the client is closed, all but those still held are closed |
| EngineTheorems.InvKept | simple_rpc/rpc/client.go:516-592 | every step the assumptions allow keeps the whole invariant: ids, write lock, phases, response channels, table, connections, accounting, callers |
| EngineTheorems.InvReachable | simple_rpc/rpc/client.go:516-592 | the invariant holds of every reachable state |
| EngineTheorems.NoCrash | simple_rpc/rpc/client.go:554-587 | the loop never dereferences a missing lastOp, and no caller a missing response |
| EngineTheorems.CallerKept | simple_rpc/rpc/client.go:135-152 | a caller that returned without error keeps having received all its responses, or a started subscription |
| EngineTheorems.AccountKept | simple_rpc/rpc/client.go:548-590 | every step keeps each id of a committed operation accounted for |
| EngineTheorems.TableKept | simple_rpc/rpc/handler.go:160-194 | every step keeps the table of outstanding requests in order: entries name unanswered ids of operations with open channels |
| EngineInvariant.IdKept | simple_rpc/rpc/client.go:227-230 | below 2^32 draws no id is ever used twice, within an operation or across operations |
| EngineInvariant.LockKept | simple_rpc/rpc/client.go:456-469 | every step keeps the write-lock invariant |
| EngineInvariant.FreshId | simple_rpc/rpc/client.go:227-230 | the decimal text of the next counter value differs from all texts issued before |
| EngineTables.TracksKept | simple_rpc/rpc/handler.go:174-194 | every step keeps each response channel holding exactly one response for each answered id, within its capacity, closed only with an error or by a subscribe response |
| EngineTables.CancelKept | simple_rpc/rpc/handler.go:174-189 | cancelling every operation in the table but the one in flight keeps all channels in order, however many ids each has there |
| EngineTables.RespondedOk | simple_rpc/rpc/handler.go:263-287 | a response to an unanswered id finds room in the channel, or closes an open one |
| EngineTables.FlightKept | simple_rpc/rpc/client.go:456-469 | an operation whose send is not over has received nothing, and one that holds the lock has all its ids |
| EngineTables.PhaseKept | simple_rpc/rpc/client.go:523-571 | the table is empty while a connection is closed and drained, and only reconnecting and quitting drain |
| EngineEntries.EntryKept | simple_rpc/rpc/handler.go:160-194 | every step keeps each entry of the table with a live caller or a failure to be taken |
| EngineEntries.ListKept | simple_rpc/rpc/handler.go:263-287 | every step keeps listed client subscriptions started and listed once |
| EngineEntries.GoneKept | simple_rpc/rpc/client.go:548-590 | every step keeps timed-out and orphaned operations out of the table |
| EngineEntries.PendingKept | simple_rpc/rpc/client.go:135-152 | every step keeps that who waits has not received everything, and who failed after sending has an error or has not received everything |
| EngineEntries.AllAnswered | simple_rpc/rpc/client.go:346-350 | a caller that received as many responses as it has ids received one for each |
| EngineAccounting.ConnKept | simple_rpc/rpc/client.go:516-619 | every step keeps the relation between readers, closed handlers, dialled connections, writeConn and the current connection |
| EngineAccounting.HeldKept | simple_rpc/rpc/client.go:488-511 | every step keeps each dialled connection held, handed over or closed |
| EngineAssumption.AssumptionIsExact | simple_rpc/rpc/client.go:554-571 | at a reconnect, no run that follows breaks the dispatch loop on a response channel if and only if nothing of the request in flight was answered |
| EngineAssumption.AnsweredAgain | simple_rpc/rpc/client.go:568-570 | if something of it was answered, there is a run in which the new connection makes the loop block on a full channel or close a closed one |
| EngineAssumption.AssumptionCanFail | simple_rpc/rpc/client.go:471-486 | a reachable state in which the assumption fails: the response came before the write failed |
| Requests.Handler.AddRequestOp | simple_rpc/rpc/handler.go:160-164 | the table gains exactly the ids of the operation |
| Requests.Handler.RemoveRequestOp | simple_rpc/rpc/handler.go:167-171 | the table loses exactly the ids of the operation |
| Requests.Handler.CancelRequests | simple_rpc/rpc/handler.go:174-189 | in whatever order the table is walked, each operation in it but the one in flight gets the error and has its open channel closed once, and the table is empty |
| Requests.Handler.CancelClientSubscriptions | simple_rpc/rpc/handler.go:190-193 | every client subscription is quit with the error, once even if listed twice, and the table is empty |
| Requests.Handler.CancelAllRequests | simple_rpc/rpc/handler.go:174-194 | both of these |
| Requests.Handler.HandleResponse | simple_rpc/rpc/handler.go:263-287 | an unknown id changes nothing; a known one leaves the table and changes only its own operation: an open plain operation with room gets the message itself appended, a subscribe request is closed with the message, code and data of the response's error, with the decoding error, or with none; its subscription is started, once, and listed exactly on a decodable success, and no other subscription changes |
| ClientSubscriptions.ClientSubscription.QuitWithError | simple_rpc/rpc/subscription.go:251-267 | only the first call closes quit, asks the server if told to, and appends its error to an open err with room, as nil if it is that of a closed client; any later call changes nothing |
| ClientSubscriptions.ClientSubscription.Unsubscribe | simple_rpc/rpc/subscription.go:246-249 | quits and closes err at the first call only; the server is asked to unsubscribe exactly if nothing ended the subscription before |
| SubscriptionProtocol.EndProtocol | simple_rpc/rpc/subscription.go:246-280 | for all interleavings quit is closed at most once; err is never sent to when full or closed, and is closed only if Unsubscribe was called; it carries at most one value, the error of the first quitWithError, or nil if that is the error of a closed client; once quitOnce is done, it carried that value exactly if there was an error |
| SubscriptionProtocol.WhoEnded | simple_rpc/rpc/subscription.go:246-319 | for all interleavings the server is asked at most once to unsubscribe; if Unsubscribe ended the subscription, it was asked and nothing is reported; if the forwarding goroutine did, it was asked, and the undecodable value or the overflow is reported; if the dispatch loop did, its error is reported and it was not asked; after any Unsubscribe err is closed |
| SubscriptionProtocol.Delivery | simple_rpc/rpc/subscription.go:269-319 | for all interleavings the accepted values are those sent to the subscriber followed by the buffer, which is bounded |
| SubscriptionProtocol.QuitUninterrupted | simple_rpc/rpc/subscription.go:251-267 | the steps of quitWithError, taken without interruption, have the effect that the class method is proved to have |
| Forwarding.Forward | simple_rpc/rpc/subscription.go:282-319 | the loop with its list buffer follows the select machine along any choices, and nothing is lost or reordered |
| Forwarding.ChosenInOrder | simple_rpc/rpc/subscription.go:300-318 | each select case keeps accepted equal to sent plus buffered, and the buffer within 20000 |
| Forwarding.SubscriberSeesPrefix | simple_rpc/rpc/subscription.go:282-319 | the subscriber receives an in-order prefix, without gaps or duplicates, of the decodable values that came in; while the loop runs, all of these are accepted |
| Forwarding.ExitExactly | simple_rpc/rpc/subscription.go:300-318 | a run of the loop ends with an exit if and only if at some point, while it runs: quit is taken, for a quit; this undecodable value arrives, for its error; or the decodable values that came in outnumber the sends by 20000 and another arrives, for the overflow |
| BatchCalls.FillElements | simple_rpc/rpc/client.go:346-373 | elements are filled in place by the arrived responses with their own id, in order; the call fails exactly with the send error or the first error of wait |
| BatchCalls.Collect | simple_rpc/rpc/client.go:346-373 | the same, and if there is one response for each id, in any order, every element ends up holding what the one response with its own id says |
| BatchCalls.FilledHolds | simple_rpc/rpc/client.go:363-371 | an error response leaves the result and sets the error, with its message, code and data; a missing or empty result leaves the result and sets ErrNoResult; else result and error are those of decoding |
| BatchCalls.Position | simple_rpc/rpc/client.go:354-361 | the first element whose id is that of the response |
| BatchCalls.FilledById | simple_rpc/rpc/client.go:346-373 | with one response for each id, in any order, each element is filled exactly once, from the response with its own id |
| BatchCalls.ArrivalOrder | simple_rpc/rpc/client.go:346-373 | two arrival orders of the same responses leave the same batch |
| BatchCalls.ResponseFor | simple_rpc/rpc/client.go:354-361 | distinct answered ids, as many as were asked, cover every id |
| BatchCalls.BatchCompleteness | simple_rpc/rpc/client.go:328-374 | in every run of the engine, a batch call for which wait ends without error filled each element exactly once, and it holds what the response with its own id says |
| Answers.OwedIn | simple_rpc/rpc/handler.go:96-130 | the positions, in order, of exactly the messages that are neither notification nor response |
| Answers.HandleBatch | simple_rpc/rpc/handler.go:96-130 | a non-empty batch is answered by one array with exactly one answer for each message owed one, in order; nothing is written if none is owed; an empty batch gets one error, with code -32600 and id null; exactly the immediate messages are handled first, in order |
| Answers.HandleImmediates | simple_rpc/rpc/handler.go:105-114 | the first loop handles exactly the immediate messages and keeps the positions of exactly the others, in order |
| Answers.KeptAre | simple_rpc/rpc/handler.go:105-114 | the messages that are handled at once are those at the positions of the immediate ones, in order |
| Answers.ImmediateExactly | simple_rpc/rpc/handler.go:232-248 | handled at once are exactly the responses and the messages without an id whose method ends in _subscription |
| Answers.RunCalls | simple_rpc/rpc/handler.go:115-123 | the second loop produces exactly these answers |
| Answers.HandleMsg | simple_rpc/rpc/handler.go:134-148 | a message alone gets exactly the answer it is owed, or nothing |
| Answers.Answered | simple_rpc/rpc/handler.go:290-316 | a message gets an answer exactly if it is owed one, and that has the right id and the result, the error with its code, or -32000 if it has none, and data, or the code -32600 of an invalid request |
| Answers.OneElementBatch | simple_rpc/rpc/handler.go:96-148 | a batch of one and the message alone are answered alike, up to the array |
| Answers.AnswersAreResponses | simple_rpc/rpc/json.go:60-123 | the peer classifies every answer as a response |
| JsonRpc.Classification | simple_rpc/rpc/json.go:60-74 | no message is two of notification, call and response |
| Notifiers.Notifier.CreateSubscription | simple_rpc/rpc/subscription.go:108-119 | creates a subscription exactly if there is none and the call has not returned, and else changes nothing |
| Notifiers.Notifier.Notify | simple_rpc/rpc/subscription.go:123-142 | panics exactly for a wrong or missing subscription; writes if activated, else buffers |
| Notifiers.Notifier.TakeSubscription | simple_rpc/rpc/subscription.go:152-157 | returns the subscription and only marks the call as returned |
| Notifiers.Notifier.Activate | simple_rpc/rpc/subscription.go:162-173 | attempts the buffered payloads in order up to the first failure, and activates exactly if all were written |
| Notifiers.SubscriptionTable.AddSubscriptions | simple_rpc/rpc/handler.go:196-205 | an id is listed afterwards exactly if it was, or some notifier created a subscription with it, and then with the last of these; no notifier can create one later |
| Notifiers.AddedMeaning | simple_rpc/rpc/handler.go:200-204 | the same of the specification function: an id is listed with the last subscription that has it, and else as before |
| Notifiers.SubscriptionTable.Unsubscribe | simple_rpc/rpc/handler.go:397-408 | closes and removes exactly the subscription with the id, or reports that there is none |
| Notifiers.SubscriptionTable.CancelServerSubscriptions | simple_rpc/rpc/handler.go:208-217 | in whatever order the table is walked, each subscription gets the error once and is closed once, and the table is empty |
| ServerCalls.NotificationOrder | simple_rpc/rpc/subscription.go:108-173 | for all interleavings, the payloads attempted for a notifier are a prefix of those notified, in lock order, none before activation begins and all once activated (ServerActivation says when that is); without a subscription nothing is buffered |
| ServerActivation.ActivatedExactly | simple_rpc/rpc/subscription.go:162-173 | in every run, a notifier is activated if and only if its call goroutine is past it and no write of its buffer failed |
| ServerActivation.NothingWithheld | simple_rpc/rpc/subscription.go:123-173 | in every run, past its activation without a failed write, every payload given to Notify, before or after, was attempted, in order; at any time a prefix of them was |
| ServerCalls.AnswerFirst | simple_rpc/rpc/handler.go:116-148 | for a subscribe call with an id, every attempted notification follows the attempted answer |
| ServerCalls.SubscriptionsClosed | simple_rpc/rpc/handler.go:152-228 | for all interleavings of registering, unsubscribing and closing, each err channel is closed at most once, carries at most one value and never blocks its sender; after the handler closed no subscription is open |
| ServerActivation.ClosingReports | simple_rpc/rpc/handler.go:208-217 | in every reachable state, closing the handler sends its error to exactly the subscriptions still registered, and leaves all channels closed |
| ServerCalls.InvKept | simple_rpc/rpc/handler.go:96-228 | every step keeps the invariants behind these three results |
| SubscriptionIds.EncodeIdIsQuantity | simple_rpc/rpc/subscription.go:74-81 | the id is 0x followed by a canonical hexadecimal number, equal to the big-endian value of the bytes, of at most 2 digits a byte |
| SubscriptionIds.CanonicalUnique | simple_rpc/rpc/subscription.go:74-81 | a number has one canonical text |
| SubscriptionIds.SameIdSameNumber | simple_rpc/rpc/subscription.go:74-81 | two byte strings have the same id exactly if they have the same value |
| SubscriptionIds.EncodeIdInjective | simple_rpc/rpc/subscription.go:74-81 | byte strings of equal length with the same id are equal |
| Bitlists.SetBit | bytesutil/bytes.go:210-219 | adds the index to the set and leaves all other elements; the list grows to exactly i/8+1 bytes if it must, and else changes in place |
| Bitlists.ClearBit | bytesutil/bytes.go:224-232 | removes the index from the set, in place |
| Bitlists.MakeEmptyBitlists | bytesutil/bytes.go:236-238 | i/8+1 bytes that stand for the empty set |
| Bitlists.WithBitAdds | bytesutil/bytes.go:210-219 | masking and growing the bytes is adding to the set |
| Bitlists.WithoutBitRemoves | bytesutil/bytes.go:224-232 | masking the byte is removing from the set |
| Bitlists.RunRefinesSet | bytesutil/bytes.go:210-238 | any run of sets and clears stands for the set that the same adds and removes give; indices up to n never grow a list made for n |
| Bitlists.HighestBitIndex | bytesutil/bytes.go:242-255 | one more than the largest element, or 0 for the empty set; an error exactly for the empty list |
| Bitlists.HighestBitIndexAt | bytesutil/bytes.go:259-285 | one more than the largest element below the index, or 0 if there is none |
| Bitlists.MaskedByte | bytesutil/bytes.go:270-281 | the highest bit of a masked byte is the largest element of that byte below the index, and 0 means there is none |
| Bitlists.BoundPastEnd | bytesutil/bytes.go:259-285 | with an index past the end both scans have the same answer |
| Bitlists.TopUnique | bytesutil/bytes.go:242-285 | the property proved of both scans determines their result |
| Bitlists.VisitBits | bytesutil/bytes.go:242-285 | calling HighestBitIndex, and then HighestBitIndexAt for the bit below each one found, ends and visits exactly the elements, in descending order |
| Bitlists.BoundIsExclusive | bytesutil/bytes.go:257-285 | counting the bit at the index as well would give the same answer if and only if that bit is not set |
| Bitlists.DescentVisitsAll | bytesutil/bytes.go:242-285 | the same descent, by the value that both scans are proved to return |
| PublicKeys.PublicKey.Copy | bls/herumi/public_key.go:72-75 | a new object with a new point of the same value |
| PublicKeys.PublicKey.Aggregate | bls/herumi/public_key.go:83-86 | changes the point of the receiver in place, to the sum |
| PublicKeys.KeyCache.PublicKeyFromBytes | bls/herumi/public_key.go:27-45 | whatever the cache lost or keeps: a key is returned exactly without an error, and then the input has 48 bytes, decodes to its point, and that point is not infinite; the error is that of the length, of the decoding or of the infinite point exactly if that is what is wrong; the key is fresh, not shared with the cache; the cache invariant is kept |
| PublicKeys.KeyCache.AggregatePublicKeys | bls/herumi/public_key.go:48-64 | a key is returned exactly if every input is a usable key, and is then the sum of their points from left to right, also with repeated keys; else the error says what is wrong with the first that is not; no inputs give a key without a point; the cache invariant is kept |
| PublicKeys.KeyCache.AddUp | bls/herumi/public_key.go:52-63 | the loop over the keys yields their uncached sum, in objects the cache does not share |
| PublicKeys.KeyCache.SumMeaning | bls/herumi/public_key.go:48-64 | the uncached sum exists exactly if every key has 48 bytes, decodes and is not infinite, and else is the error of the first key that is rejected |
| PublicKeys.KeyCache.AddNext | bls/herumi/public_key.go:56-62 | one turn of that loop |
| PublicKeys.KeyCache.SumFails | bls/herumi/public_key.go:56-62 | nothing after the first error matters |
| PublicKeys.Act | bls/herumi/public_key.go:27-86 | one such action has the outcome it has without a cache, keeps the cache invariant, and leaves the keys that were given out apart from the cache |
| PublicKeys.Session | bls/herumi/public_key.go:27-86 | over any run of lookups, aggregations, losses and in-place changes of returned keys, all outcomes are those without a cache |
| Epochs.ProcessSlots | epoch-extractor/main.go:221-223 | the inner loop lists every slot of the assignment under its validator |
| Epochs.ProcessAssignments | epoch-extractor/main.go:214-231 | the loops build the tables that TablesMeaning and KeysMeaning characterise |
| Epochs.TablesMeaning | epoch-extractor/main.go:214-231 | a slot is listed exactly if some assignment lists it, under the validator of the last one that does, and every proposer has a key |
| Epochs.KeysMeaning | epoch-extractor/main.go:214-231 | exactly the validators with proposer slots have a key, the hex of the public key of the last assignment that gives them slots |
| Epochs.Client.Tick | epoch-extractor/main.go:121-165 | one tick does what the transition function of the runs says, on every error path as well |
| Epochs.DivSlot | epoch-extractor/main.go:125 | the epoch whose slots, spe of them from epoch * spe on, contain the slot |
| Epochs.FiresExactly | epoch-extractor/main.go:129 | a tick fetches tables exactly if there is a head, and it is the first time, the epoch is later than prevEpoch, or prevEpoch is the largest 64-bit epoch |
| Epochs.TickOutcome | epoch-extractor/main.go:121-165 | what a tick changes: without a head nothing; without a fire only the head noted; a fire sets prevEpoch and takes over what the node answers: next from the assignments of the next epoch, current from the former next, or from the assignments of this epoch the first time; an error of the node ends the runner |
| Epochs.TablesPaired | epoch-extractor/main.go:121-165 | in every run every proposer in either slot table has a key in the table beside it |
| Epochs.FireRaisesEpoch | epoch-extractor/main.go:129-131 | after the first time a fire raises prevEpoch if and only if prevEpoch is not the largest 64-bit epoch |
| Epochs.EpochCanFall | epoch-extractor/main.go:129-131 | a run in which it is, and prevEpoch falls |
| Epochs.PrevEpochIsHighestSeen | epoch-extractor/main.go:121-131 | short of that epoch, prevEpoch is the highest epoch seen in the run |
| Epochs.CurrentIsPredicted | epoch-extractor/main.go:132-156 | across any number of quiet ticks, the current tables after a later fire are the tables predicted at the fire before; if that fire comes one epoch later, they are those predicted for its own epoch |
| RouteChat.SerializeInjective | route_guide/server/server.go:186-188 | two points have the same key exactly if they are equal, signs included |
| RouteChat.Server.Record | route_guide/server/server.go:114-121 | the note is appended to the list of its place only, and the copy is that list in a new array |
| RouteChat.Server.Reply | route_guide/server/server.go:123-127 | the copy is sent in order up to the first send that fails |
| RouteChat.StoredInLockOrder | route_guide/server/server.go:101-127 | over any interleaving of streams, the list of a place is exactly the notes received there, in lock order, and each stream's notes are recorded in the order received |
| RouteChat.CopiesAreOrdered | route_guide/server/server.go:114-121 | each copy ends in the note just added and is a prefix of the stored list; of two copies for a place the earlier is a proper prefix of the later |
| RouteChat.RepliesInOrder | route_guide/server/server.go:123-127 | what a stream sends is its copies one after the other, all of them when it receives again |
| RouteChat.ReturnsExactly | route_guide/server/server.go:101-127 | in every run a stream returns exactly if receiving ended or failed, or a send failed |
| RouteChat.InvKept | route_guide/server/server.go:101-127 | every step of any stream keeps the invariant behind these three results |
| Decimal.DigitsInjective | simple_rpc/rpc/client.go:227-230 | different numbers have different decimal text |
| Decimal.SignedValue | route_guide/server/server.go:186-188 | the signed decimal text of a number determines it |

## Where code and documentation differ

- `HighestBitIndexAt` is documented as looking at `index` inclusive (`bytesutil/bytes.go:257-258`). The code looks at
  the bits strictly below `index` (`Bitlists.BoundIsExclusive`) and returns one more than the position, so it is inclusive only when both the index
  and the result are counted from one. The model follows the code.
- The flag `--slots-per-epoch` is announced to default to 32 when 0 (in `main` of `epoch-extractor/main.go`), but 0 is
  passed on, and the division at `epoch-extractor/main.go:125` panics. The model requires a positive number of slots.
- `prevEpoch + 1` at `epoch-extractor/main.go:130` wraps at 2^64; see `Epochs.FireRaisesEpoch`.

## Left out

- EngineTheorems.SentIsAccounted: admits as exceptions an operation that a read error left behind and one that is being moved. EngineOrphans.RegisteredExactly states when an id is registered without exceptions, and the results beside it say what becomes of both.
- Bitlists.HighestBitIndexAt: takes non-negative indices; negative ones panic in the code, or return 0, depending on their remainder by 8. SetBit, ClearBit and MakeEmptyBitlists take non-negative indices too.
- Epochs.Client.Tick: requires at least one slot to an epoch, because the code panics otherwise.
- RouteChat.Server.Record: takes a location that is present; a missing one panics before the mutex is taken, which the state machine models as the stream's Panicked phase although the process would end.
- PublicKeys.KeyCache.PublicKeyFromBytes: other goroutines that use the cache at the same time appear only as entries that are lost.
- BatchCalls.Collect: the elements of a batch have results of their own. Elements that share a Result pointer are not modelled; what ends up there would depend on the order of arrival.
- Notifiers.Notifier.Activate: the outcome of each write is a parameter; that a failed write leaves the notifier inactive is in its contract. It requires that a notifier without a subscription has an empty buffer, which ServerCalls.NotificationOrder proves of every run.
- Liveness of the engine: no claim that a call returns. EngineOrphans proves that some do not unless their context ends. Besides, quitWithError makes a call inside its once, and close waits for call goroutines from inside the loop.
- The cases of CallContext after wait (`simple_rpc/rpc/client.go:295-304`): those of an element of a batch, which `BatchCalls.FilledHolds` states, with the error returned instead of stored.
- Data races on `op.err`: the field is read by the caller after the channel operation; the model reads it in the same step.
- JSON text, reflection, callbacks and service registration: messages are records of optional fields, and the outcome of a user method is a parameter.
- Sockets, pipes, HTTP, dialling, deadlines and contexts: a context is only that a wait or send may end early.
- The server half and the client half of a handler are two state machines; they share only the close of the connection.
- Reads of a server subscription's err channel by the user's code: values stay in the buffer, which makes a blocked send more likely in the model than in the program.
- BLS signatures, pairing and batch verification; decoding and addition of points are arbitrary functions.
- Byte and integer conversions of `bytesutil`: easy members.
- `checkCompatibility`, logging, gRPC set-up, feature search, distances and route totals: diagnostics, I/O, floating point.
- Block numbers, wallet, file, rand and test helpers: I/O, or one-branch facts.
