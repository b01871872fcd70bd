# A model of the rpckit runtime

rpckit serves JSON-RPC 2.0 over a socket and generates clients for it. Both sides run on a single-threaded event
loop, so every stretch of code between two suspension points is one atomic step. This project models the concurrent
components as state machines over such steps, and proves what holds in every run; handler results, peer frames,
socket failures, timers, deadlines and cancellations are inputs of the steps. `dafny verify dfyconfig.toml` checks it.

How each component is laid out:

- a value `State`, an `Event` type, `Enabled` and `Step`, the runs `IsRun` and `After`, an invariant with one small
  lemma for each of its parts, and the main lemmas about all runs;
- lemmas that say what each event decides, on the members of the state and of the event alone, in every case;
- a class in the form of the source, with the fields it updates in place. Each method is one stretch between two
  suspension points, proved equal to the step it stands for, so that the lemmas about all runs hold for the class.

The components:

- Server connection: `Messages` (items of a frame), `ConnectionRuntime` (the machine), `ConnectionInvariants`,
  `ConnectionSteps` and `ConnectionReader` (preservation), `ConnectionTheorems`, `ConnectionAnswers` and `ConnectionOutcomes` (main results),
  `EndpointRun` (the class), `ConnectionClose` (how an accepted socket is closed, for the
  RPC, stream and raw socket runner), `Drain`, `Subscriptions` and `ConnectedClient` (calls from server to client).
- Generated Python client: `ClientTransport` (id correlation and settlement), `ClientCore` (the retry loop over any
  number of transports), `TransportPool` and `TransportPoolClass` (the reconnecting pool), `NotificationFanOut`.
- Generated TypeScript client: `Queues` (its four bounded queues).
- Code generator: `Namespaces`, `NamespaceView` and `ApiView` (the namespace tree), `Reachability`.
- `CloseReason` (UTF-8-safe truncation) and `Wrappers` (an option type).

## Where the code does less than it promises

Each of these is proved, with the exact condition under which it occurs and a concrete input or run.

- Items without an answer: three families of items are owed a response by JSON-RPC 2.0 and get none. They are a
  `$/ping` or `$/cancelRequest` without an id and without a version; an object without a method that carries a
  `result` or `error` and is no valid response, such as a bare `{"result": 1}`; and a call without an id whose `params`
  are neither an object nor an array (`Messages.AnsweredExactlyWhenOwed`, `Messages.SwallowedItems`).
- `sent=False`: `docs/clients.md:491` says that the call never began a socket send. A retried idempotent call can be
  reported so after an earlier attempt was handed over, when the last attempt was unsent or the client closes during
  the backoff. The promise holds exactly for calls that are not idempotent and for clients without retries
  (`ClientCore.UnsentMeansUnsentExactly`). The at-most-once guarantee does not depend on it.
- One close per socket: a cancellation that arrives while `socket.close` is awaited skips the mark behind it, so the
  next clause closes again, up to three times (`ConnectionClose.OneClose`).
- Pool states: when the caller's random source raises, the connect task ends without recording the failure; a `get`
  before its done callback starts a second connect, and the server can end connected with a failure recorded
  (`TransportPool.MachineAlwaysExactly`).
- Retry backoff: `retry_delay` caps its exponent at 30, the recovery loop doubles without a cap; the two bounds differ
  exactly when 30 doublings stay below the maximal delay and the retry is past the 31st
  (`TransportPool.RetryBoundDoubles`, `TransportPool.BoundsDiffer`).
- Notification pumps: a pump task that is cancelled before its first step never finishes its subscribers. `close`
  wakes a waiting consumer if the pump had started, and leaves it asleep for good if it had not
  (`NotificationFanOut.CloseLeavesAsleepExactly`, `NotificationFanOut.ClosedEarlySleeps`).
- Contract paths of namespaces: the conflict check compares operations only, so a notification or stream can end up in
  a namespace that stands for another contract path. The paths are right exactly when no two entries of all three kinds
  conflict (`NamespaceView.MergedSourcesAreRightExactly`, `NamespaceView.UncheckedEvent`).

## Reading the model

- A call or request is a number in the order of creation; payloads, parameters and results are opaque.
- Done callbacks run in the order in which their tasks ended, as the event loop schedules them; a collector's callback
  therefore runs after those of the calls it waited for.
- In `ConnectionRuntime`, `closed` is the requested close; while it is none the connection is open. Once it is set the
  tasks may be torn down in any order; before that only the calls of a collector one of whose calls crashed.
- The pool's dictionaries per server are the fields of one `Server` record in `TransportPool`, and separate maps in
  `TransportPoolClass`.
- `_view_tree` and `_view_node` are one function here: a node gets its path when it is created.

## Model

| member | source | states |
|---|---|---|
| Messages.AnsweredExactlyWhenOwed | rpckit/runtime.py:502-538 | An item sent alone is answered exactly when JSON-RPC 2.0 (sections 4, 4.1, 4.2 and 5, stated on their own) owes it a response, if and only if it is none of: a control without an id and without a version; an object without a method that carries a result or an error and is no valid response; a call without an id whose params are not structured |
| Messages.AnsweredOnlyWhenOwed | rpckit/runtime.py:502-538 | Nothing is answered that is owed no response |
| Messages.SwallowedItems | rpckit/runtime.py:511-530 | One item of each of the three families that is owed a response and gets none |
| Messages.SuccessAndFailureAgree | rpckit/server.py:275-311 | For a valid envelope the success path and the failure path agree on whether there is a response, and on its id |
| Messages.ExpectedOfOne | rpckit/runtime.py:502-530 | What a frame with one item is owed, control by control |
| Messages.IdIsEchoed | rpckit/server.py:394-400 | An item that becomes a call is answered with the text or number of its `id` member, with null, or not at all |
| Messages.FrameEchoesItsIds | rpckit/runtime.py:502-580 | The ids of the answers to a frame, read off the `id` members: those of its pings, then those of its other items, in item order |
| Messages.PingIsAnswered | rpckit/runtime.py:511-530 | A good ping succeeds with its own id; any other ping with an id is an invalid request with the id null |
| Messages.EnvelopesAreRequests | rpckit/runtime.py:538-548 | A valid envelope is a request or notification of JSON-RPC 2.0 (sections 4, 4.1, 4.2) with no further members but a valid `meta`; of these only a cancellation is refused |
| ConnectionReader.StepKeeps | rpckit/runtime.py:225-701 | Every step of the connection keeps the whole invariant: reservations, request table, live calls, collectors, outgoing queue, drain progress |
| ConnectionReader.ScanKeeps | rpckit/runtime.py:502-580 | Reading the items of one frame keeps the invariant and collects the call of each non-control item and the response of each ping, in item order |
| ConnectionTheorems.AdmissionAccounting | rpckit/runtime.py:537-580 | In every reachable state the reservations are exactly those of admitted calls that have not ended (or, cancelled before their first step, whose callback has not run), at most `max_pending_requests`; the request table maps each id to its one live call; both are empty when no call is left |
| ConnectionTheorems.BoundedWork | rpckit/runtime.py:408-424 | While the connection is open, for any input: collectors at most `max_pending_requests + max_queue_size`, call tasks at most `max(1, max_batch_size)` times the live collectors; the outgoing queue keeps its bound |
| ConnectionTheorems.OneReplyForEachFrame | rpckit/runtime.py:332-393 | While the connection is open: frames that need an answer get one collector each, in order; a finished collector has sent nothing if its frame is owed nothing, else exactly one reply: first to the pings, then one response per non-notification item, in item order, each with the text or number of the item's own `id` member, or null; a single-frame subscription request may be answered by the session instead, with its id |
| ConnectionTheorems.ReceiveCollects | rpckit/runtime.py:460-593 | One turn of the reader creates a collector exactly for the frames that want one |
| ConnectionTheorems.CloseIsLatched | rpckit/runtime.py:271-278 | No step changes a close code once one was requested |
| ConnectionTheorems.FirstCloseStands | rpckit/runtime.py:271-278 | Over whole runs, the close that was requested first stands |
| ConnectionTheorems.DrainingAdmitsNothing | rpckit/runtime.py:547-572 | Once draining has started no step adds a reservation |
| ConnectionTheorems.GracefulRestartLosesNothing | rpckit/runtime.py:638-648 | When the graceful part of a drain is what closes the connection: no live call, no subscription producer, every frame read was answered in full, and the socket has accepted every reply that was queued |
| ConnectionAnswers.SentRepliesAreExplained | rpckit/runtime.py:332-393 | While the connection is open: a finished collector waited for exactly the calls of its frame, in item order, and has sent exactly the refusal, or the responses to the pings followed by the responses of those calls, in one frame or none; each response is the answer of its call, explained as below, or the cancellation of an admitted call that its client cancelled before it started |
| ConnectionAnswers.AnswersAreExplained | rpckit/runtime.py:332-356 | A call that answers does so with success, a handler error or a timeout only if it was admitted, with a cancellation only if its client cancelled it, and with each of the three refusals if and only if it was refused for that reason |
| ConnectionAnswers.CallsEndForAReason | rpckit/runtime.py:374-393 | While the connection is open a call ends with an answer or a crash, unless its client cancelled it before it started or a call of the same frame crashed |
| ConnectionAnswers.StepFits | rpckit/server.py:126-181 | Every step of the connection keeps that explanation for every call |
| ConnectionOutcomes.FinishTells | rpckit/runtime.py:332-356 | What the end of a call means for its answer: an admitted call gets success, the handler's own error, a timeout or a cancellation, as it ended; a refused one gets its refusal; the id is that of the item; notifications and calls the session answers get none |
| ConnectionOutcomes.AnswerTellsHowItEnded | rpckit/runtime.py:332-393 | In every run a call has ended after it started if and only if its coroutine has ended, and its answer is what the way it ended means |
| ConnectionOutcomes.EachAnswerHasOneCause | rpckit/server.py:126-181 | In every run an answered, admitted call got a timeout if and only if its deadline expired, a cancellation if and only if its client cancelled it, an error if and only if its handler raised that error, and success if and only if its handler returned |
| ConnectionOutcomes.AdmissionDecides | rpckit/runtime.py:538-580 | An id in flight closes the connection; any other call becomes a task, with a reservation if and only if it is valid, nothing drains and fewer than `max_pending_requests` are taken |
| ConnectionOutcomes.CancelReachesItsCall | rpckit/runtime.py:433-458 | A well-formed cancellation marks the live, admitted, unmarked call that came with the id it names, and nothing else changes |
| ConnectionOutcomes.ReadingClosesForAReason | rpckit/runtime.py:460-593 | Which frames close an open connection, and with which code |
| ConnectionOutcomes.ClosesForAReason | rpckit/runtime.py:254-406 | Which other steps close an open connection, and with which code |
| ConnectionOutcomes.CrashFailsTheFrame | rpckit/runtime.py:374-393 | A frame fails, instead of being answered, if and only if one of its calls crashed or was torn down |
| ConnectionOutcomes.ProducersAreCounted | rpckit/subscriptions.py:120-131 | The producers a drain waits for are exactly those that were started and have not ended |
| ConnectionOutcomes.QueueIsFirstInFirstOut | rpckit/runtime.py:305-314 | The outgoing queue only grows at its end, and the writer takes and hands over its frames in order |
| EndpointRun.RpcEndpointRun.RequestClose | rpckit/runtime.py:271-278 | Records the first close request only |
| EndpointRun.RpcEndpointRun.CancelRequest | rpckit/runtime.py:433-458 | Marks the in-flight call that a cancel notification names, if it is admitted, not cancelled yet and not done |
| EndpointRun.RpcEndpointRun.AdmitItem | rpckit/runtime.py:538-580 | Reserves, looks for a duplicate id, creates the call and registers it; on a duplicate the reservation is released again and the connection closes |
| EndpointRun.RpcEndpointRun.CreateCollector | rpckit/runtime.py:408-424 | Creates a collector unless there are too many, in which case the connection closes |
| EndpointRun.RpcEndpointRun.ReadItem | rpckit/runtime.py:503-580 | One item: client response, cancel notification, ping, refusal or admission |
| EndpointRun.RpcEndpointRun.ReadItems | rpckit/runtime.py:502-593 | The loop over the items of a frame computes the scan of all of them |
| EndpointRun.RpcEndpointRun.Receive | rpckit/runtime.py:460-593 | One turn of the reader is the receive step and keeps the invariant |
| EndpointRun.RpcEndpointRun.FinishCall | rpckit/runtime.py:332-356 | A call task ends and releases its reservation on every path |
| EndpointRun.RpcEndpointRun.EndCall | rpckit/runtime.py:332-351 | What a call ends with: its refusal, nothing when the session answers, else what its handler, its deadline or its client did, case by case |
| EndpointRun.RpcEndpointRun.CallDone | rpckit/runtime.py:426-431 | The done callback removes the call from every table it is still in |
| EndpointRun.RpcEndpointRun.Collect | rpckit/runtime.py:374-393 | The responses of ended calls in item order, and whether one of the calls failed |
| EndpointRun.RpcEndpointRun.GatherReplies | rpckit/runtime.py:374-393 | Joins the ping responses with the responses of the calls, unless the connection has closed |
| EndpointRun.RpcEndpointRun.QueueReply | rpckit/runtime.py:254-262 | The reply enters the outgoing queue |
| EndpointRun.RpcEndpointRun.InvocationDone | rpckit/runtime.py:402-406 | The done callback of a collector; a failed one closes the connection |
| EndpointRun.RpcEndpointRun.SessionRespond | rpckit/subscriptions.py:162-175 | A subscription request is answered by the session |
| EndpointRun.RpcEndpointRun.Graceful | rpckit/runtime.py:638-648 | Each turn of the graceful drain waits for what the turn before it collected |
| Drain.DrainReachesEverySession | rpckit/drain.py:66-93 | After the grace period every connection still registered was told to stop, and every one ever registered has finished or was told to stop |
| Drain.DrainingAdmitsNobody | rpckit/runtime.py:142-146 | From the call of `drain` on no connection is registered and no socket accepted; registered ones only leave |
| Drain.StepKeeps | rpckit/drain.py:95-112 | Every step keeps the registered, finished and captured connections consistent |
| Drain.StopsTheRegistered | rpckit/drain.py:73-75 | The end of the grace period stops exactly the connections that are still registered |
| Drain.ServingAdmits | rpckit/drain.py:95-104 | A serving service registers and accepts, a draining one rejects |
| Drain.DrainStartsOnce | rpckit/drain.py:61-68 | Only the first call of `drain` starts the task, which captures whoever is registered when it starts |
| Drain.RpcDrain.OpenSession | rpckit/drain.py:95-112 | Registers a connection, or rejects it when the service drains |
| Drain.RpcDrain.AcceptSocket | rpckit/runtime.py:142-147 | Accepts the socket of a registered connection unless a drain has started |
| Drain.RpcDrain.StopUnfinished | rpckit/drain.py:73-75 | Stops exactly the captured connections that have not finished |
| Subscriptions.EveryTraceIsWellFormed | rpckit/subscriptions.py:92-150 | In every run the frames of one subscription id are one ack, payloads, at most one terminal, then unsubscribe results; there are none exactly when no producer task was created; subscriptions and handshakes together keep the limit |
| Subscriptions.NothingFollowsUnsubscribe | rpckit/subscriptions.py:147-150 | After an unsubscribe result only unsubscribe results follow |
| Subscriptions.NoProducerIsForgotten | rpckit/subscriptions.py:129-160 | In every run a producer that is not in the table has ended or was told to stop, and an unsubscribe waits only for a producer that was told to stop |
| Subscriptions.InvKept | rpckit/subscriptions.py:92-249 | Every step keeps the trace of every id in the stage of its producer, and the tables consistent |
| Subscriptions.SubscribeDecides | rpckit/subscriptions.py:92-131 | A subscribe request with named, valid parameters that finds room is acknowledged and gets a producer under the next id; any other is refused; a notification gets nothing |
| Subscriptions.UnsubscribeDecides | rpckit/subscriptions.py:132-150 | An unsubscribe for a subscription of the same event in the table stops that producer only, and its result follows the producer's end; any other is refused |
| Subscriptions.ProducerDecides | rpckit/subscriptions.py:177-249 | Payloads and the terminal carry the id of their producer, and only its done callback frees its place |
| Subscriptions.AbortedHandshakeIsForgotten | rpckit/subscriptions.py:120-129 | An aborted handshake leaves nothing behind and touches no other one |
| Subscriptions.AbortAndCloseDecide | rpckit/subscriptions.py:155-160 | The close of the session stops every producer in the table; an aborted unsubscribe sends nothing |
| Subscriptions.SubscriptionSession.HandleSubscribe | rpckit/subscriptions.py:105-120 | A subscribe request is refused, or takes the next id and a pending slot |
| Subscriptions.SubscriptionSession.AckSent | rpckit/subscriptions.py:120-132 | With the ack queued, the handshake is over and the producer task exists |
| Subscriptions.SubscriptionSession.HandleUnsubscribe | rpckit/subscriptions.py:133-149 | An unsubscribe for an unknown id or another name is refused; otherwise its producer is told to stop, and it waits for it |
| Subscriptions.SubscriptionSession.CloseAll | rpckit/subscriptions.py:155-160 | The session closes: every task leaves the table and is told to stop |
| Subscriptions.SubscriptionSession.UnsubscribeSent | rpckit/subscriptions.py:148-150 | The result is sent after the producer has ended |
| Subscriptions.SubscriptionSession.Terminal | rpckit/subscriptions.py:221-249 | The terminal notification of a producer |
| ConnectionClose.OneClose | rpckit/runtime.py:680-701 | Exactly one call of `socket.close`, or none when the peer closed first, and the connection marked closed, if and only if no cancellation interrupts a call of `socket.close` and none interrupts the generator cleanup of a stream whose peer has gone; otherwise at most three calls (RPC) or two |
| ConnectionClose.ThreeCloses | rpckit/runtime.py:681-701 | A concrete run with three calls of `socket.close` after which the connection is still not marked closed |
| ConnectionClose.StepCounts | rpckit/runtime.py:896-934 | Every step keeps the count of close calls, phase by phase |
| ConnectionClose.ValueIsLatched | rpckit/runtime.py:954-964 | After the first request the close value of an RPC connection never changes; that of a stream or raw socket changes at most once more, from normal to something else |
| ConnectionClose.ClosesCarryTheValue | rpckit/runtime.py:1137-1143 | Every call of `socket.close` carries the requested value, once there is one |
| ConnectionClose.StepMoves | rpckit/connection.py:340-362 | Every step keeps the connection's recorded close equal to the runner's value, and adds at most one close call |
| ConnectionClose.RequestDecides | rpckit/runtime.py:1217-1227 | The first request is taken; later ones are ignored, but that streams and raw sockets turn a normal close into another while the peer is there |
| ConnectionClose.PeerDecides | rpckit/runtime.py:1229-1233 | The peer's close is noted, and is the value when nothing was requested |
| ConnectionClose.ExpiryDecides | rpckit/connection.py:340-356 | Expiry before any recorded close closes as a policy violation: at once, or when the runner starts |
| ConnectionClose.StartAndDrainDecide | rpckit/drain.py:28-32 | A runner starts without a request unless credentials expired; a drain only records its restart |
| ConnectionClose.ExitDecides | rpckit/runtime.py:1127-1143 | How the body of a runner is left decides what the socket is closed with |
| ConnectionClose.EarlyExitDecides | rpckit/runtime.py:905-934 | A connection that leaves before its runner starts closes with what was recorded, or with the code of its exit |
| ConnectionClose.InterruptedCloseIsTriedAgain | rpckit/runtime.py:905-934 | The next clause out tries an interrupted close again, with the value or the recorded code |
| ConnectionClose.AcceptedSocket.RequestToClose | rpckit/runtime.py:1217-1227 | The close request of the three runners |
| ConnectionClose.AcceptedSocket.ClientDisconnected | rpckit/runtime.py:1229-1233 | The peer closed first |
| ConnectionClose.AcceptedSocket.CredentialsExpire | rpckit/connection.py:340-348 | Expiry closes through the runner, or records the close for it, unless a close is recorded already |
| ConnectionClose.AcceptedSocket.SetCloseHandler | rpckit/connection.py:353-356 | An expiry from before the runner started is replayed |
| ConnectionClose.AcceptedSocket.CatchException | rpckit/runtime.py:1127-1133 | A cancellation fixes the close value; an exception of a stream or raw socket is mapped to a close request |
| ConnectionClose.AcceptedSocket.ExitRunner | rpckit/runtime.py:1134-1143 | The `finally` clause of a runner |
| ConnectionClose.AcceptedSocket.ExitAccepted | rpckit/runtime.py:905-934 | The clauses around a runner close the socket unless the connection is marked |
| ConnectionClose.AcceptedSocket.ExitBody | rpckit/runtime.py:681-701 | Leaving the runner's body, up to the first suspension |
| ConnectionClose.AcceptedSocket.CloseEnds | rpckit/runtime.py:1340-1344 | `socket.close` returned, or was interrupted before the mark |
| ConnectedClient.CallsAreBoundedAndAnswered | rpckit/connected_client.py:131-148 | At most `max_concurrency` registered calls, each holding one slot; a reply comes from a response with the id of the call; after the close every registered call is settled |
| ConnectedClient.IdsAreNew | rpckit/connected_client.py:121-122 | A new call gets an id no call had before |
| ConnectedClient.ResponseSettlesOnlyItsCall | rpckit/connected_client.py:164-182 | A response changes at most the call with its id, and only while it waits; any other response is only counted |
| ConnectedClient.ResponseReachesItsCall | rpckit/connected_client.py:164-182 | A response with the id of a waiting registered call settles it with its body; any other one is counted |
| ConnectedClient.FirstReplyIsReturned | rpckit/connected_client.py:135-148 | Over whole runs, the reply that reached a call is what the call returns, unless it gives up by itself or cannot be sent |
| ConnectedClient.CallReturnsItsOutcome | rpckit/connected_client.py:135-148 | A call returns its reply or what else ended it, and frees its slot |
| ConnectedClient.NewCallQueues | rpckit/connected_client.py:118-129 | A new call queues for a slot, unless the connection has closed or its frame cannot be sent |
| ConnectedClient.CloseTellsTheWaiting | rpckit/connected_client.py:184-198 | The close tells exactly the registered calls that wait |
| ConnectedClient.NothingRegistersAfterClose | rpckit/connected_client.py:136-140 | After the close no call registers, and settled ones stay as they are |
| ConnectedClient.StepKeeps | rpckit/connected_client.py:103-198 | Every step keeps the table, the slots and the settlements consistent |
| ConnectedClient.RpcConnectedClient.BeginCalling | rpckit/connected_client.py:113-130 | A call takes a new id, or fails at once |
| ConnectedClient.RpcConnectedClient.Register | rpckit/connected_client.py:136-140 | A call that got its slot registers, unless the connection has closed meanwhile |
| ConnectedClient.RpcConnectedClient.ResolveMessage | rpckit/connected_client.py:164-182 | Takes responses and nothing else |
| ConnectedClient.RpcConnectedClient.Return | rpckit/connected_client.py:143-148 | A returning call leaves the table and frees its slot |
| ConnectedClient.RpcConnectedClient.CloseClient | rpckit/connected_client.py:184-198 | Settles every registered call that still waits |
| ConnectedClient.RpcConnectedClient.FailAll | rpckit/connected_client.py:193-197 | The loop settles every registered call that waits and leaves the others |
| ClientTransport.RequestsAreSettledTruthfully | examples/generated_clients/python/automation_client/transport.py:130-211 | In every run: each id was handed to the socket exactly once; `_sent` and `_pending` have the same keys; a result or remote error comes from a response with that id; a request that was handed over never ends as unsent; at most one cancel frame per id, after its request frame was complete |
| ClientTransport.SettledOnce | examples/generated_clients/python/automation_client/transport.py:419-449 | A settled request never changes, so late responses are ignored |
| ClientTransport.FailureSettlesAll | examples/generated_clients/python/automation_client/transport.py:451-462 | When the transport fails no request is left waiting |
| ClientTransport.ResponseReachesItsRequest | examples/generated_clients/python/automation_client/transport.py:433-449 | A response settles the waiting request with its id with its own outcome, and changes no other request |
| ClientTransport.FirstResponseIsReturned | examples/generated_clients/python/automation_client/transport.py:160-211 | Over whole runs, the first response that finds a request waiting is what its caller gets, whatever follows, unless the request itself times out, is cancelled or cannot be sent |
| ClientTransport.EveryOutcomeHasItsCause | examples/generated_clients/python/automation_client/transport.py:160-211 | In every run an outcome has its cause in the run: the response with this id and outcome, the timeout or cancellation of this request, a violation of the protocol, or a failure of the transport |
| ClientTransport.FailureTellsWhy | examples/generated_clients/python/automation_client/transport.py:451-462 | A failing transport tells every waiting request that it was lost after it was sent, or that the protocol was violated |
| ClientTransport.GivesUpAsTold | examples/generated_clients/python/automation_client/transport.py:168-204 | A request whose send fails, that times out or that is cancelled ends with just that; one whose send is unfinished retires the transport first |
| ClientTransport.AbandonedRequestIsCancelled | examples/generated_clients/python/automation_client/transport.py:213-237 | An abandoned request is cancelled on the wire if and only if it was sent, is unanswered, and the open transport has fewer than 128 cancels under way |
| ClientTransport.StepKeeps | examples/generated_clients/python/automation_client/transport.py:130-462 | Every step keeps tables, outcomes and wire history consistent |
| ClientTransport.WebSocketTransport.HandOver | examples/generated_clients/python/automation_client/transport.py:143-167 | Registers the request under a new id and hands its frame to the socket |
| ClientTransport.WebSocketTransport.FailAllPending | examples/generated_clients/python/automation_client/transport.py:451-462 | The loop settles every waiting request with its own delivery flag and clears both tables |
| ClientTransport.WebSocketTransport.SendFails | examples/generated_clients/python/automation_client/transport.py:199-204 | A failed send retires the transport |
| ClientTransport.WebSocketTransport.ResolveResponse | examples/generated_clients/python/automation_client/transport.py:433-449 | A response settles the waiting request with its id only |
| ClientTransport.WebSocketTransport.ReceiveFails | examples/generated_clients/python/automation_client/transport.py:347-356 | The reader fails: every pending request is told |
| ClientTransport.WebSocketTransport.LeaveRequest | examples/generated_clients/python/automation_client/transport.py:205-211 | A returning request leaves both tables |
| ClientTransport.WebSocketTransport.TimesOut | examples/generated_clients/python/automation_client/transport.py:170-186 | A timeout retires a transport whose send is unfinished and cancels a sent request on the wire |
| ClientTransport.WebSocketTransport.SendCancellation | examples/generated_clients/python/automation_client/transport.py:220-237 | The cancel frame is sent unless the transport has closed |
| ClientCore.AtMostOnce | examples/generated_clients/python/automation_client/internal/core.py:262-302 | Over every run of retries, reconnects, closes and timeouts, on any number of transports: at most one frame per attempt, at most `retry_attempts + 1` attempts, and at most one frame in all for a call that is not idempotent |
| ClientCore.UnsentMeansUnsentExactly | examples/generated_clients/python/automation_client/internal/core.py:271-303 | `sent=False` means that the call was never handed to a socket if and only if the call is not idempotent or retries are off |
| ClientCore.LostThenClosed | examples/generated_clients/python/automation_client/internal/core.py:294-302 | A concrete run in which a retried call was handed over once and is reported as unsent |
| ClientCore.StepKeeps | examples/generated_clients/python/automation_client/internal/core.py:262-302 | Every step keeps the frame counts of every call within its attempts |
| ClientCore.EveryAttemptIsUsed | examples/generated_clients/python/automation_client/internal/core.py:262-302 | In every run an open client gives up on a loss before the send, or for an idempotent call on a timeout or any loss, only after the last of its `retry_attempts + 1` attempts |
| ClientCore.FailureDecides | examples/generated_clients/python/automation_client/internal/core.py:276-296 | An error with attempts left on an open client: timeouts and losses after the send are retried if and only if the call is idempotent, losses before the send always, other errors never; otherwise the error itself is raised |
| ClientCore.AttemptStarts | examples/generated_clients/python/automation_client/internal/core.py:374-388 | On a live transport an open client hands over one frame of this call and of no other |
| ClientCore.NewCallDecides | examples/generated_clients/python/automation_client/internal/core.py:322-323 | A call of a closed client ends as unsent |
| ClientCore.BackoffDecides | examples/generated_clients/python/automation_client/internal/core.py:294-302 | After the backoff comes the next attempt, or, on a closed client, the end as unsent |
| ClientCore.LeavingCancelsTheRequest | examples/generated_clients/python/automation_client/internal/core.py:40-58 | A call that stops waiting cancels the request it has in flight, and an interrupted one reports whether it had one |
| ClientCore.EndsAreTruthful | examples/generated_clients/python/automation_client/transport.py:451-462 | A request that a transport reports as unsent was never handed over |
| ClientCore.RpcClientCore.Request | examples/generated_clients/python/automation_client/internal/core.py:262-302 | The retry loop, case by case: what is retried, when the loop ends early, and what it raises; without idempotency at most one attempt is handed over |
| TransportPool.StatesAgree | examples/generated_clients/python/automation_client/internal/connection.py:134-144 | While the pool is open, in every run without a crashed connect task: connected iff there is a current transport, closed iff a failure is recorded, reconnecting only with a connect in flight and an earlier connection; the first connect calls the factory once, a recovery at most `reconnect_max_attempts` times; each backoff stays within min(max, initial·2^(n−1)) |
| TransportPool.MachineAlwaysExactly | examples/generated_clients/python/automation_client/internal/connection.py:251-276 | That holds in every run if and only if the caller's random source cannot raise where a recovery may try again |
| TransportPool.CrashBreaksTheMachine | examples/generated_clients/python/automation_client/internal/connection.py:191-204 | A concrete run that ends connected although a failure is recorded |
| TransportPool.CloseLeavesNothing | examples/generated_clients/python/automation_client/internal/connection.py:305-322 | In every run: at most one connect in flight per server; after `close` no transport or connect is registered, no connect task is left, and every transport a factory returned has reported itself closed or had `close` called |
| TransportPool.FailureIsAbsorbing | examples/generated_clients/python/automation_client/internal/connection.py:206-212 | A recorded failure stays with its cause, and no connect starts |
| TransportPool.StaleCloseChangesNothing | examples/generated_clients/python/automation_client/internal/connection.py:169-172 | The close of a replaced transport changes nothing |
| TransportPool.ConnectingNeverRecurs | examples/generated_clients/python/automation_client/internal/connection.py:233-235 | A server that has been connected never shows the first connecting state again |
| TransportPool.RetryBoundDoubles | examples/generated_clients/python/automation_client/internal/connection.py:105-112 | The bound of `retry_delay` equals the doubling bound of recovery if and only if the retry is at most the 31st or 30 doublings reach the maximal delay |
| TransportPool.BoundsDiffer | examples/generated_clients/python/automation_client/internal/connection.py:105-112 | For an initial delay of a quarter of a second and a maximal delay of a billion seconds the two bounds differ from the 32nd retry on |
| TransportPool.StepKeepsOpen | examples/generated_clients/python/automation_client/internal/connection.py:163-293 | Every step without a crash keeps states, dictionaries, attempts and delays consistent |
| TransportPool.PoolStepKeeps | examples/generated_clients/python/automation_client/internal/connection.py:305-322 | Every step, also while closing, keeps single flight and forgets no transport |
| TransportPool.Jitter | examples/generated_clients/python/automation_client/internal/connection.py:266-275 | A fraction between 0 and 1 never lengthens the delay |
| TransportPool.RecoveryUsesEveryAttempt | examples/generated_clients/python/automation_client/internal/connection.py:251-276 | In every run without a crash a transient failure of a recovery gives the server up if and only if it was the last of the `reconnect_max_attempts` factory calls |
| TransportPool.FailureDecides | examples/generated_clients/python/automation_client/internal/connection.py:251-276 | After a failed factory call: a recovery with attempts left sleeps and changes nothing else; a bad fraction, a draw that raises and every other failure end as themselves |
| TransportPool.SleepIsTheDrawnFraction | examples/generated_clients/python/automation_client/internal/connection.py:264-275 | The sleep is the drawn fraction of the delay |
| TransportPool.SleepIsFollowedByACall | examples/generated_clients/python/automation_client/internal/connection.py:239-250 | The next factory call follows the sleep, with twice the delay up to the maximum |
| TransportPool.LossDecides | examples/generated_clients/python/automation_client/internal/connection.py:169-183 | A transient loss of the current connection starts a recovery when the pool reconnects; any other gives the server up with the cause |
| TransportPool.GetLeavesAWay | examples/generated_clients/python/automation_client/internal/connection.py:206-230 | Asking for a server that is not given up leaves a live transport or a connect in flight |
| TransportPool.ArrivalDecides | examples/generated_clients/python/automation_client/internal/connection.py:277-293 | A transport that arrives in time becomes the current one, and a late one is closed |
| TransportPool.FirstCallDecides | examples/generated_clients/python/automation_client/internal/connection.py:232-250 | The first factory call of a connect, and what the server shows |
| TransportPool.EndOfConnectDecides | examples/generated_clients/python/automation_client/internal/connection.py:191-204 | The done callback forgets its own registration only, and records an unrecorded error while the pool is open |
| TransportPoolClass.RpcTransportPool.Start | examples/generated_clients/python/automation_client/internal/connection.py:185-204 | Starts a connect unless the registered one is running |
| TransportPoolClass.RpcTransportPool.GiveUp | examples/generated_clients/python/automation_client/internal/connection.py:163-167 | Records the failure and the closed state |
| TransportPoolClass.RpcTransportPool.HandleClosed | examples/generated_clients/python/automation_client/internal/connection.py:169-183 | Recovers or gives up; a replaced transport is ignored |
| TransportPoolClass.RpcTransportPool.GetLive | examples/generated_clients/python/automation_client/internal/connection.py:206-230 | Returns a live transport, or joins or starts a connect |
| TransportPoolClass.RpcTransportPool.TransportReportsClose | examples/generated_clients/python/automation_client/internal/connection.py:285-292 | The callback of a transport that has closed: recovery or the end for the current one |
| TransportPoolClass.RpcTransportPool.ConnectRuns | examples/generated_clients/python/automation_client/internal/connection.py:232-250 | The first factory call of a connect |
| TransportPoolClass.RpcTransportPool.ConnectReturns | examples/generated_clients/python/automation_client/internal/connection.py:277-293 | The new transport becomes current, or is closed when the pool closes |
| TransportPoolClass.RpcTransportPool.JudgeFailure | examples/generated_clients/python/automation_client/internal/connection.py:251-276 | Case by case: sleep for the drawn fraction, give up with the error, give up for a bad fraction, or end when the draw raises |
| TransportPoolClass.RpcTransportPool.ConnectRaises | examples/generated_clients/python/automation_client/internal/connection.py:251-276 | A failed attempt gives up or sleeps for a fraction of the delay |
| TransportPoolClass.RpcTransportPool.ConnectWakes | examples/generated_clients/python/automation_client/internal/connection.py:239-276 | After the backoff the next attempt starts with twice the delay |
| TransportPoolClass.RpcTransportPool.TaskDone | examples/generated_clients/python/automation_client/internal/connection.py:191-204 | The done callback clears its own registration and records an error nobody recorded |
| TransportPoolClass.RpcTransportPool.CloseBegins | examples/generated_clients/python/automation_client/internal/connection.py:305-314 | Every server shows as closed |
| TransportPoolClass.RpcTransportPool.CloseEnds | examples/generated_clients/python/automation_client/internal/connection.py:315-322 | Both dictionaries are cleared and every current transport is closed |
| NotificationFanOut.FanOutConserves | examples/generated_clients/python/automation_client/internal/core.py:706-724 | Offered messages have left the queue in order or are still in it; delivered plus dropped plus queued is offered; the core's counter is the sum of all drops |
| NotificationFanOut.NoLostWakeup | examples/generated_clients/python/automation_client/internal/core.py:72-82 | A consumer that sleeps has an empty queue and no terminal value, and its pump has not finished |
| NotificationFanOut.PublishReachesMembersOnce | examples/generated_clients/python/automation_client/internal/core.py:706-724 | A published message is offered once to every subscriber of its hub without a method or with that of the message, and to nobody else |
| NotificationFanOut.PublishDropsOnlyWhenFull | examples/generated_clients/python/automation_client/internal/core.py:706-724 | The oldest message is dropped exactly where the queue is full; a waiting consumer is woken; other subscribers stay as they are |
| NotificationFanOut.NextDecides | examples/generated_clients/python/automation_client/internal/core.py:72-78 | A consumer takes the oldest message, else the terminal value, else it sleeps |
| NotificationFanOut.EndReachesEveryMember | examples/generated_clients/python/automation_client/internal/core.py:731-735 | The end of a pump reaches every member behind its queued messages, and nobody else |
| NotificationFanOut.AttachDecides | examples/generated_clients/python/automation_client/internal/core.py:640-652 | A subscriber that attaches keeps its queue and learns at once of a pump that has ended |
| NotificationFanOut.SubscribersComeAndGo | examples/generated_clients/python/automation_client/internal/core.py:635-676 | A new subscriber asks for its own method, and a detached one leaves its hub only |
| NotificationFanOut.TerminalComesLast | examples/generated_clients/python/automation_client/internal/core.py:72-78 | The terminal value is returned only from an empty queue |
| NotificationFanOut.ClosedEarlySleeps | examples/generated_clients/python/automation_client/internal/core.py:739-752 | A concrete run in which the client closes before the pump's first step and a consumer is left asleep |
| NotificationFanOut.CloseWakesExactly | examples/generated_clients/python/automation_client/internal/core.py:739-752 | Cancelling a pump wakes a consumer that sleeps at its hub if and only if the pump had started |
| NotificationFanOut.CloseLeavesAsleepExactly | examples/generated_clients/python/automation_client/internal/core.py:706-752 | In every run, after the cancellation of a pump a consumer that sleeps at its hub sleeps for good, whatever follows short of giving up by itself, if and only if the pump had not started |
| NotificationFanOut.NothingWakesIt | examples/generated_clients/python/automation_client/internal/core.py:706-737 | The pump of a sleeping consumer has not finished, and if it never ran no step wakes the consumer |
| NotificationFanOut.StepKeeps | examples/generated_clients/python/automation_client/internal/core.py:630-737 | Every step keeps queues, counters, members and terminal values consistent |
| NotificationFanOut.NotificationCore.PumpMessage | examples/generated_clients/python/automation_client/internal/core.py:706-724 | The loop over the subscribers queues the message, dropping the oldest where a queue is full |
| NotificationFanOut.NotificationCore.PumpEnds | examples/generated_clients/python/automation_client/internal/core.py:733-735 | Every subscriber of the hub is told that the pump is over |
| NotificationFanOut.NotificationCore.TakeNext | examples/generated_clients/python/automation_client/internal/core.py:72-78 | One round of `next`: a message, the terminal value, or sleep |
| Queues.NothingIsLost | examples/generated_clients/typescript/core.ts:1557-1627 | Values and calls never wait together; the buffer is the end of what was accepted and keeps the given capacity; delivered plus dropped plus buffered is accepted, and a queue made to throw on overflow drops nothing |
| Queues.CallsAreServedInOrder | examples/generated_clients/typescript/core.ts:1557-1609 | Each call waits or is settled, and values go to calls in the order the calls were made |
| Queues.SettledOnce | examples/generated_clients/typescript/rawSockets.ts:262-285 | No step changes how a call was settled |
| Queues.ValuesBeforeFailure | examples/generated_clients/typescript/streams.ts:403-427 | A call is refused or ended, other than by its own abort signal, only when no value is buffered |
| Queues.PushDecides | examples/generated_clients/typescript/rawSockets.ts:270-279 | A push: to the oldest waiter, into the buffer, or, when that is full, kind by kind: drop the oldest, or refuse and stay the same |
| Queues.CallDecides | examples/generated_clients/typescript/rawSockets.ts:262-268 | A call: the oldest value, else the failure, else the end, else it waits |
| Queues.FailureDecides | examples/generated_clients/typescript/rawSockets.ts:281-285 | A failure rejects every waiting call with it; only the core's queue replaces an earlier one |
| Queues.EndDecides | examples/generated_clients/typescript/core.ts:1564-1617 | The end ends every waiting call, an abort its own call only |
| Queues.NothingHeardIsRefused | examples/generated_clients/typescript/core.ts:1591-1609 | In every run a queue that drops takes every value pushed while somebody listens: delivered, dropped and buffered values are all of those, in order |
| Queues.StepKeeps | examples/generated_clients/typescript/transport.ts:559-632 | Every step of each of the four queues keeps buffer, waiters and settlements consistent |
| Queues.BoundedQueue.Put | examples/generated_clients/typescript/transport.ts:588-622 | Hands a value to the oldest waiter, buffers it, drops the oldest or throws |
| Queues.BoundedQueue.Call | examples/generated_clients/typescript/core.ts:1557-1580 | A call settles at once or waits |
| Queues.BoundedQueue.AbortCall | examples/generated_clients/typescript/core.ts:1565-1570 | An aborted call leaves the waiters and ends |
| Queues.BoundedQueue.SettleWaiters | examples/generated_clients/typescript/core.ts:1613-1616 | The loop settles every waiter and forgets them |
| Queues.BoundedQueue.Finish | examples/generated_clients/typescript/core.ts:1611-1617 | Ending settles the waiters |
| Queues.BoundedQueue.FailWith | examples/generated_clients/typescript/rawSockets.ts:281-285 | Failing settles the waiters; all but the core's queue keep the first failure |
| Namespaces.BuildLooksUp | rpckit/codegen/names.py:259-283 | In the tree of all entries each path holds exactly the entries placed there, in input order, and has a node exactly where an entry is at or below it |
| Namespaces.InsertLooksUp | rpckit/codegen/names.py:259-283 | What inserting one entry does to every lookup |
| Namespaces.BuildIsUnique | rpckit/codegen/names.py:263-272 | Sibling segments are unique at every level |
| Namespaces.SourcesAreRightExactly | rpckit/codegen/names.py:114-131 | Each node stands for the right contract path of everything below it if and only if no two entries conflict |
| Namespaces.SourcesAreRight | rpckit/codegen/names.py:267-272 | Without conflicts a visible prefix determines its contract path |
| Namespaces.CheckPaths | rpckit/codegen/names.py:117-130 | The dictionary check accepts if and only if there is no conflict |
| Namespaces.FillTree | rpckit/codegen/names.py:259-283 | The loop over the entries builds the tree |
| NamespaceView.MergeLooksUp | rpckit/codegen/names.py:378-414 | Looking up any path in the merged tree gives the lookups in the three trees |
| NamespaceView.MergedAreUnique | rpckit/codegen/names.py:383-389 | Merged siblings have different segments at every level |
| NamespaceView.ClientViewPlaces | rpckit/codegen/names.py:161-190 | Every operation, notification, stream and raw socket is in the client view at its visible path and nowhere else, in input order; a namespace exists exactly where something is at or below it |
| NamespaceView.MergedSourcesAreRightExactly | rpckit/codegen/names.py:378-414 | Every merged namespace stands for the right contract path of each operation, notification and stream at or below it if and only if no two entries of the three lists conflict |
| NamespaceView.UncheckedEvent | rpckit/codegen/names.py:114-131 | An operation and a notification that conflict although the check finds nothing |
| NamespaceView.StreamsAreSplit | rpckit/codegen/names.py:378-414 | Each stream is in exactly one of the two lists |
| ApiView.BuildView | rpckit/codegen/names.py:69-131 | The view is refused for an unknown root, for aliases that rename nothing, or for conflicting paths, each exactly then; otherwise it is the tree of the renamed paths |
| ApiView.ViewHoldsEveryRoute | rpckit/codegen/names.py:90-109 | An accepted view holds at each path exactly the routes visible there, in order, with the right contract path |
| ApiView.NamesByPrecedence | rpckit/codegen/names.py:241-256 | An alias for the whole contract prefix names a segment; otherwise one for the visible prefix, then one for the segment alone; otherwise it keeps its name |
| ApiView.PlainPathsStay | rpckit/codegen/names.py:241-256 | Without aliases the visible path is the contract path behind the root |
| ApiView.RootIsHidden | rpckit/codegen/names.py:90-109 | A root that leads to the path is hidden, any other hides nothing |
| ApiView.AtRootExactly | rpckit/codegen/names.py:90-109 | The operations of the client itself are exactly those whose path is the root |
| ApiView.UsedAliasesDecide | rpckit/codegen/names.py:241-256 | An alias counts as used if and only if it decides the name of a segment |
| ApiView.JoinPutsDots | rpckit/codegen/names.py:249-250 | The names that aliases are looked up by have one dot between each two segments |
| ApiView.Rename | rpckit/codegen/names.py:241-256 | The names of one path, and exactly the aliases they used |
| ApiView.ProjectAll | rpckit/codegen/names.py:90-109 | The loop over the routes |
| Reachability.Reachable | rpckit/codegen/ir.py:417-437 | Keeps, in declaration order, exactly the declarations named in the least set that has the known roots and is closed under dependencies; these are the ones a chain of dependencies from a root reaches |
| Reachability.ReachableNames | rpckit/codegen/ir.py:422-434 | The work list terminates and computes that least set |
| Reachability.LeastClosedIsReached | rpckit/codegen/ir.py:417-437 | That set is exactly what a chain of dependencies from a root reaches |
| Reachability.NothingIsMissing | rpckit/codegen/ir.py:440-449 | With distinct names no kept declaration refers to a dropped one |
| Reachability.KeepsByName | rpckit/codegen/ir.py:435-437 | A declaration is kept exactly when its name is in the set |
| Reachability.NamedTypesOccur | rpckit/codegen/ir.py:349-361 | A name is a dependency of a type expression if and only if it occurs in it, at any depth |
| Reachability.DependenciesOccur | rpckit/codegen/ir.py:440-449 | A declaration depends on exactly the names that occur in its fields or its target |
| CloseReason.LongestPrefixThatFits | rpckit/websocket.py:24-27 | The result is the longest prefix in whole characters whose UTF-8 form fits into 123 bytes: a prefix fits if and only if it is not longer |
| CloseReason.FitsTheControlFrame | rpckit/websocket.py:21-27 | With its status code the close frame keeps within 125 bytes (section 5.5 of RFC 6455) |
| CloseReason.EncodingIsUtf8 | rpckit/websocket.py:24-27 | The encoding follows the table of section 3 of RFC 3629: length, lead byte, continuation bytes and payload bits |
| CloseReason.CutCharacterIsIgnored | rpckit/websocket.py:25-27 | A character that was cut off leaves nothing when malformed bytes are ignored |
| CloseReason.RoundTrip | rpckit/websocket.py:25-27 | Decoding what was encoded gives the text back |

## Left out

- `OneReplyForEachFrame`: states number, order and ids of the responses; `ConnectionAnswers.SentRepliesAreExplained` states the responses themselves.
- `GracefulRestartLosesNothing`: notifications and calls to the client that are queued after the flush has begun are not covered, because the source does not wait for them.
- `ClientCore.RpcClientCore.Request`: the attempts are inputs, and that an unsent error means an unsent attempt is a premise here; it is proved of the transport in `ClientCore.EndsAreTruthful`.
- `ClientCore.AtMostOnce`: a frame counts when it is handed to `socket.send`; what the socket then does with it is not modelled.
- `TransportPool.StatesAgree`: excludes runs in which a connect task crashes; `TransportPool.MachineAlwaysExactly` says when there are none.
- `Reachability.NothingIsMissing`: assumes distinct declaration names; of several declarations with one name the source follows the dependencies of the last one.
- `NamespaceView.MergeNodes`: a function on values; the source fills lists and dictionaries in loops.
- `ConnectionClose.AcceptedSocket.CredentialsExpire`: does not cancel the startup task; that the startup is cancelled is the event `Leave`, which can come at any time.
- `TransportPoolClass.RpcTransportPool.GiveUp`: does not resolve the future `closed` of the pool, which reports the first failure of any server to the application.
- `NotificationFanOut.NotificationCore.PumpEnds`: does not remove the hub from the table of hubs; a new hub is an event of its own.
- `CloseReason.LongestPrefixThatFits`: texts of Unicode scalar values only; encoding a lone surrogate raises in the source.
- The second implementations of pool, transport and retry loop in TypeScript: same machines as the Python ones.
- The client middleware path (`_instrumented_attempt`) and server middleware, telemetry and activity callbacks.
- The handler concurrency semaphore of the server: it delays calls and does not change any answer.
- JSON and pydantic: whether an item is a valid envelope is part of the item; dependency injection and scopes are inputs.
- Heartbeats, notification queue of the Python transport, and answers to server-to-client calls.
- Factories that are cancelled after they opened a connection and before they returned it, and factories that raise a cancellation of their own.
- Re-entrant user callbacks, and `socket.close` failures other than a disconnect.
- Schedules and clocks: nothing is claimed about when a step happens, only about what holds in every order.
- Name casing, generated text, the CLI and file output of the code generator.
