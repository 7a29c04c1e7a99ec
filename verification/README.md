# verser2: models and proofs

A Dafny 4.11 model of the in-memory protocol state machines and stream codecs of verser2,
with proofs of what they promise over every run. Sockets, TLS, JSON text, URL parsing and
the HTTP/2 libraries stay abstract: what they deliver (data, an end, a reset, a window
update, a drained write) are the actions of the models.

`dafny verify dfyconfig.toml` checks the whole project.

## How to read it

Each module models one component. A component that updates its fields is given twice:
as a class in the source's own form, whose methods are proved against a specification
function on plain states, and as that specification, about whose runs the main theorems
are proved. The files named `...Laws` and `Credit...` beside the main ones say over the
fields of the state, and over whole runs, what each step does, without the functions that
compute it. A run is a sequence of actions in any order; an action is a region of the
source without an `await` or callback boundary inside it, so all interleavings are runs.

| file | component |
| --- | --- |
| `Credits.dfy`, `CreditRefusals.dfy`, `CreditRuns.dfy`, `CreditExamples.dfy`, `LeaseDispatch.dfy` | flow-control credit in the Python Guest's lease dispatcher |
| `CreditBodies.dfy`, `CreditReading.dfy`, `CreditEvents.dfy`, `CreditStart.dfy`, `CreditReturns.dfy`, `CreditExits.dfy`, `CreditCourse.dfy` | the same dispatcher: what the application reads, the order of events, when it starts, what is returned, how it exits |
| `WindowedSend.dfy`, `WindowedRuns.dfy`, `WindowedLaws.dfy` | windowed sending in the Python Guest and Broker |
| `Authorizer.dfy` | the federated route authorizer's caches |
| `Flooding.dfy`, `FloodClearing.dfy`, `FloodLaws.dfy` | flooding of federated lifecycle events |
| `LeasePool.dfy`, `LeaseRuns.dfy`, `LeaseLaws.dfy`, `LeaseUse.dfy` | the Host's lease pool |
| `Candidates.dfy`, `CandidateLaws.dfy` | selection among federated candidates |
| `ChunkedDecoder.dfy`, `ChunkedRuns.dfy`, `ChunkedWaiting.dfy`, `ChunkedLines.dfy`, `ChunkedClosing.dfy`, `ChunkedStream.dfy`, `ChunkedGrammar.dfy` | the chunked request body decoder |
| `VwsLine.dfy`, `VwsPieces.dfy`, `VwsCuts.dfy`, `VwsFrameLaws.dfy` | VWS/1 line framing and the opening-line reader |
| `Envelope.dfy`, `EnvelopeLaws.dfy` | the binary envelope: encoder, push parser, stream reader, Python decoder |
| `VwsSocket.dfy`, `SocketRuns.dfy`, `SocketOvertaking.dfy`, `SocketOrder.dfy`, `SocketLaws.dfy` | the sending side of the VWS socket object |
| `InboundQueue.dfy` | its queue of received messages |
| `SendAccounting.dfy` | the Python Broker's accounting of frames waiting to be sent |
| `AsgiQueue.dfy` | the Python Guest's event queue for an ASGI application |
| `ResponseHeaders.dfy`, `HeaderLaws.dfy` | response headers as map and ordered pairs |
| `ResponseMetadata.dfy`, `MetadataLaws.dfy` | the response metadata header and header sanitizing |
| `RouteSnapshot.dfy`, `RouteRuns.dfy`, `RouteLaws.dfy` | the Brokers' route tables and their change events |
| `Redirects.dfy` | internal redirects and the replayable body |
| `Bytes.dfy`, `Prelude.dfy` | bytes and their pieces; Option, Result and NUL-free text |

## Where the code does less than one might expect

Each of these is a lemma: a concrete run or input, and where a caller can tell, the exact
condition.

- Credit: a request is rejected exactly when data, or the end of the stream, is handled with
  the metadata missing, the parse invalid and nothing stopping the request
  (`CreditRuns.RejectedExactly`), and it then keeps all the credit it received
  (`CreditExamples.RejectedCreditIsKept`); every other normal return with the connection up
  leaves nothing behind (`CreditRuns.NormalReturnIsCleanExactly`). A dispatcher that raises
  keeps all of it too when there is no metadata yet (`CreditExamples.RaisedCreditIsKept`);
  what each exit holds is in `CreditRuns.CreditAtExit`. The early exit of the loop that
  returns collected credits is unreachable (`CreditRuns.LoopIsNeverLeftEarly`).
- Windows: a batch of events strands a sleeping sender exactly when nothing in it names
  the sender's stream or the connection and its SETTINGS changes open the window
  (`WindowedRuns.BatchStrandsExactly`).
- Flooding: the seen set is cleared at 10000 entries. An event that was handled is handled
  again exactly when the set was cleared since it was recorded
  (`FloodClearing.HandledAgainExactly`, with a run from the empty network in
  `FloodClearing.HandledTwice`); the main theorems are for runs that clear no set.
- Candidates: the error text says that every resolved candidate was denied; the code
  raises it when any was (`Candidates.DeniedByOne`).
- Chunked decoding: a message whose longest size line is just as long as the limit is
  refused exactly when a write ends between the CR and the LF of such a line
  (`ChunkedLines.LimitLineFailsByCut`; with pauses, `ChunkedLines.LimitLineFailsExactly`;
  one line, `ChunkedRuns.LineLimitDependsOnSplit`). Bytes behind the last-chunk
  line in the same write are dropped (`ChunkedClosing.BytesBehindEndAreDropped`), and a
  later write starts afresh (`ChunkedClosing.StartsAfresh`). So a message with its closing
  CRLF is found malformed exactly when a write ends right behind the last-chunk line
  (`ChunkedClosing.MalformedExactlyByCut`, and `ChunkedClosing.ClosingLineAlone` for a
  concrete one). The two bytes behind a chunk's data are not looked at: they may be any
  (`ChunkedDecoder.DecodeEncode`).
- VWS framing: a fault does not stop the parser, so the events of a stream can depend on how
  it was cut. All cuts agree exactly under `VwsPieces.CutsAgree` (`VwsCuts.CutsAgreeExactly`):
  without a fault always; behind a malformed line if what follows gives no event
  (`VwsCuts.BehindMalformed`); never with a whole line that is too long
  (`VwsCuts.LongLineDiffers`); and for an unfinished one up to twice the limit and one byte
  (`VwsCuts.UnfinishedExactly`). `VwsLine.SplitMattersAfterFault` is a concrete pair of cuts.
- VWS sending: on a Guest's socket a newer message can overtake an early one, and an early
  one can follow the close frame (`SocketRuns.NewerMessageOvertakes`,
  `SocketRuns.EarlyMessageFollowsClose`). From any state overtaking is possible exactly
  under `SocketOvertaking.CanOvertake` (`SocketOrder.OvertakingExactly`), a message can follow
  the end exactly when there is a backlog (`SocketRuns.MessageAfterEndExactly`), and on a
  socket created accepted the wire has the order of the sends
  (`SocketRuns.BrokerKeepsSendOrder`). A peer's close leaves the outbound queue unsettled,
  for good exactly unless a write is under way (`SocketRuns.StrandedExactly`,
  `SocketRuns.StrandedIsReached`).
- VWS receiving: the 1009 fault of the inbound queue depends on how the stream is cut. It
  is raised exactly when some piece holds too much behind its first awaited message
  (`InboundQueue.QueueFaultsExactly`), never with one message a piece
  (`InboundQueue.OneByOneNeverFaults`). A socket that lives is stuck exactly if
  messages wait and no listener is awaited (`InboundQueue.StuckExactly`), and a run gets it
  there exactly by an awaited listener that fails with a message behind it, or one that
  throws while the queue is worked off, with a message behind it
  (`InboundQueue.RunStrandsExactly`, `InboundQueue.FailureIsReached`,
  `InboundQueue.ThrowIsReached`).
- ASGI queue: the byte counter is exact unless an event was dropped from a full queue
  (`AsgiQueue.CounterIsExactExactly`, with a run in `AsgiQueue.FullQueueDrifts`); the
  branch that clears the queue is never taken (`AsgiQueue.ForcedEventsNeverClear`).
- Response metadata: the Python decoder takes `true` for version 1, and refuses a status
  written as `200.0` and names that become valid only by lower-casing; the TypeScript one
  does the opposite (`ResponseMetadata.DecodersDiffer`). What each accepts is
  `ResponseMetadata.TypeScriptDecodes` and `ResponseMetadata.PythonDecodes`, and exactly
  where they agree is `ResponseMetadata.PythonAgreesExactly`.
  The Latin-1 check behind the value check never fires
  (`ResponseMetadata.Latin1CheckIsRedundant`). The comment on the value check says that
  backslashes are rejected; the code accepts them, and so does the model
  (`ResponseMetadata.CheckValue`).
- Routes: the TypeScript Broker joins target and domain with a NUL. Its events replay to
  its table at every point exactly if each snapshot fits the table it replaces: different
  routes with one joined key are, if any, all in the table and all in the snapshot
  (`RouteRuns.ReplaysExactly`, `RouteRuns.Fits`). Targets without NUL always fit
  (`RouteRuns.CleanRunsFit`); a NUL alone does no harm (`RouteRuns.SeparatorAloneReplays`),
  but two routes with one key do (`RouteRuns.ReplacementIsLost`). For both Brokers
  a degraded event makes a domain present without answering those who wait for it
  (`RouteRuns.EventStrandsExactly`).
- Redirects: a response is neither returned nor destroyed exactly when the caller aborts
  while the replay decision is awaited (`Redirects.ResponsesAreReturnedOrDestroyed`).

## Model

| member | source | states |
|---|---|---|
| CreditRuns.CreditIsConserved | packages/verser2-guest-python/src/verser2_guest_python/guest.py:681-785 | in every interleaving of dispatcher, receive calls and acknowledgement tasks, received credit equals held (queue, task, fetched, pending, queued, owned) plus in flight plus returned plus lost plus discarded |
| CreditRuns.NothingIsReturnedTwice | packages/verser2-guest-python/src/verser2_guest_python/guest.py:693-726 | no credit identity is acknowledged twice, and none that was acknowledged is still owned or waiting to be sent |
| CreditRuns.CleanFinishReturnsEverything | packages/verser2-guest-python/src/verser2_guest_python/guest.py:944-970 | a request that completes with the connection up has given back everything: nothing held, lost or discarded, no task registered |
| CreditRuns.ResetReturnsEverything | packages/verser2-guest-python/src/verser2_guest_python/guest.py:972-1009 | after a peer reset with the connection up nothing is held, discarded or in flight: each credit was returned or its return refused |
| CreditRuns.RejectionReturnsNothing | packages/verser2-guest-python/src/verser2_guest_python/guest.py:1093-1104 | a request rejected for its metadata has returned none of the credit it received |
| CreditRuns.RejectedExactly | packages/verser2-guest-python/src/verser2_guest_python/guest.py:1093-1104 | a request is rejected if and only if at some step data, or the end of the stream, was handled with no metadata, an invalid parse and no reason to stop |
| CreditRuns.NormalReturnIsCleanExactly | packages/verser2-guest-python/src/verser2_guest_python/guest.py:1034-1175 | a normal return with the connection up leaves no credit behind if and only if no such step was taken, or nothing was received |
| CreditRuns.CreditAtExit | packages/verser2-guest-python/src/verser2_guest_python/guest.py:1034-1175 | with the connection up, what is held at each exit: nothing when completed or reset, what is still in the event queue when stopped otherwise, all of it when rejected or when raised without metadata, and when raised later all that was not returned, lost or under way |
| CreditRuns.LoopIsNeverLeftEarly | packages/verser2-guest-python/src/verser2_guest_python/guest.py:1001-1005 | the loop that returns collected credits always goes on; its break cannot be reached |
| CreditExamples.RejectedCreditIsKept | packages/verser2-guest-python/src/verser2_guest_python/guest.py:1101-1104 | a run in which seven bytes of credit are kept by a rejected request |
| CreditExamples.RaisedCreditIsKept | packages/verser2-guest-python/src/verser2_guest_python/guest.py:1101-1104 | a run in which seven bytes of credit are kept by a dispatcher that raises for an unreadable envelope |
| CreditExamples.CompletionIsReached | packages/verser2-guest-python/src/verser2_guest_python/guest.py:1034-1175 | a run that completes with seven bytes of credit received and returned, so the theorems above speak of something |
| CreditRuns.RunKeepsInv | packages/verser2-guest-python/src/verser2_guest_python/guest.py:1034-1145 | every step of every task keeps the whole invariant: one place per credit, order of the event queue, and what each point of the dispatcher owes |
| LeaseDispatch.Dispatch.Turn | packages/verser2-guest-python/src/verser2_guest_python/guest.py:1034-1145 | from any valid state the dispatcher object takes the step of the model, stays valid, keeps the sum of all credit, returns none twice, and has settled it when it has left; a rejection starts exactly at its guard |
| LeaseDispatch.Dispatch.OwnCredit | packages/verser2-guest-python/src/verser2_guest_python/guest.py:681-687 | an empty credit is not recorded; any other gets a fresh identity |
| LeaseDispatch.Dispatch.StartReturning | packages/verser2-guest-python/src/verser2_guest_python/guest.py:694-705 | the credit leaves the owned ones for one new task |
| LeaseDispatch.Dispatch.JoinAck | packages/verser2-guest-python/src/verser2_guest_python/guest.py:706-726 | a finished task is removed and a failure marks why the request stops, the first reason staying |
| LeaseDispatch.Dispatch.ReceiveOnce | packages/verser2-guest-python/src/verser2_guest_python/guest.py:757-785 | a turn of receive up to its await keeps the sum of all credit and returns nothing by itself |
| LeaseDispatch.Dispatch.TryStartApp | packages/verser2-guest-python/src/verser2_guest_python/guest.py:912-942 | credit of the metadata bytes goes with the body bytes behind them, or is returned at once, or stays pending |
| LeaseDispatch.Dispatch.Handling | packages/verser2-guest-python/src/verser2_guest_python/guest.py:1076-1145 | how the dispatcher treats each kind of event; what that means for the application is CreditReading, for its start CreditStart |
| LeaseDispatch.Dispatch.DrainQueued | packages/verser2-guest-python/src/verser2_guest_python/guest.py:944-957 | each queued credit is returned, or dropped when it may not be |
| LeaseDispatch.Dispatch.DrainPendingCredit | packages/verser2-guest-python/src/verser2_guest_python/guest.py:958-970 | the same for the pending credit |
| LeaseDispatch.Dispatch.CollectQueued | packages/verser2-guest-python/src/verser2_guest_python/guest.py:988-997 | the collecting loop moves the credit of every queued event, and of the fetched one, to the owned ones |
| LeaseDispatch.Dispatch.ReturnNextOwned | packages/verser2-guest-python/src/verser2_guest_python/guest.py:1001-1005 | the next owned credit that is still there is returned |
| LeaseDispatch.Dispatch.ForgetOwned | packages/verser2-guest-python/src/verser2_guest_python/guest.py:1006-1007 | credit that may not be returned is dropped, all of it |
| CreditReading.BodiesAreReadInOrder | packages/verser2-guest-python/src/verser2_guest_python/guest.py:757-785 | over any run, until queued credit is drained: the credits of the body events queued for the application are, in order, those it took followed by those still queued |
| CreditReading.RunningReadsEverything | packages/verser2-guest-python/src/verser2_guest_python/guest.py:1105-1114 | so while the application runs and nothing has stopped the request, it gets every body event in order and none is lost or acknowledged unread |
| CreditReading.NothingBeforeMetadata | packages/verser2-guest-python/src/verser2_guest_python/guest.py:912-942 | nothing is queued before the metadata is complete, so the body bytes that came with it are read first |
| CreditReading.OnlyReadCreditIsReturned | packages/verser2-guest-python/src/verser2_guest_python/guest.py:681-785 | while it runs and nothing stopped the request, every acknowledgement task and every accepted acknowledgement is for an event it took, or for the bytes of the metadata, with that very amount |
| CreditBodies.StopsForFirstCause | packages/verser2-guest-python/src/verser2_guest_python/guest.py:660-675 | a step gives a reason to stop exactly for what it met (reset, failure, failed return or send, cancellation), and the first one stays |
| CreditCourse.EventsAreHandledInOrder | packages/verser2-guest-python/src/verser2_guest_python/guest.py:1049-1093 | until something stops the request or it turns to an exit: the events that arrived are, in order, those handled, the one in hand, and those waiting |
| CreditStart.StartsExactly | packages/verser2-guest-python/src/verser2_guest_python/guest.py:912-942 | each step starts the application, completes the metadata and ends the upload exactly when its fields call for it |
| CreditCourse.MetadataStartsTheApplication | packages/verser2-guest-python/src/verser2_guest_python/guest.py:912-942 | over any run, once the metadata is there the application has started, or only the return of the metadata credit is awaited |
| CreditReturns.ReturnsAndDropsExactly | packages/verser2-guest-python/src/verser2_guest_python/guest.py:944-1009 | each step starts the return of exactly one credit, with its amount, or of none, and drops exactly so much, as the fields call for it |
| CreditCourse.StoppedReturnsNothing | packages/verser2-guest-python/src/verser2_guest_python/guest.py:944-970 | once a broken connection or a shutdown has stopped the request, no return is started any more |
| CreditExits.TurnsExactly | packages/verser2-guest-python/src/verser2_guest_python/guest.py:1034-1145 | each step turns to an exit exactly for its cause: the application raised, an unreadable or invalid envelope, an upload that ends without metadata, all done, all collected, or cancellation |
| CreditCourse.ExitHasItsCause | packages/verser2-guest-python/src/verser2_guest_python/guest.py:1034-1175 | over any run the dispatcher is on its way to an exit if and only if an earlier step turned to it |
| CreditCourse.FailureIsRaised | packages/verser2-guest-python/src/verser2_guest_python/guest.py:1041-1068 | an exception of the application is never swallowed: the run that meets it ends raised |
| CreditCourse.CompletedMeansDone | packages/verser2-guest-python/src/verser2_guest_python/guest.py:1041-1075 | a run completes only with the upload at its end, the application done and nothing that stopped it |
| CreditCourse.WaitsForBoth | packages/verser2-guest-python/src/verser2_guest_python/guest.py:1049-1056 | whenever the dispatcher waits, it waits for the next event and for a running application alike |
| WindowedRuns.FramesCarryTheData | packages/verser2-guest-python/src/verser2_guest_python/broker.py:1594-1627 | frames concatenate to a prefix of the data, END_STREAM is on the last one only; that each is within the fields of its moment is WindowedLaws.EveryFrameWasAllowed |
| WindowedRuns.FinishedMeansSent | packages/verser2-guest-python/src/verser2_guest_python/guest.py:1439-1471 | a sender that returned has sent exactly its data |
| WindowedRuns.NobodySleepsThroughAnOpenWindow | packages/verser2-guest-python/src/verser2_guest_python/broker.py:1684-1714 | without SETTINGS growth no sender sleeps on an unresolved waiter while its window is open |
| WindowedRuns.BatchStrandsExactly | packages/verser2-guest-python/src/verser2_guest_python/broker.py:1684-1714 | exactly when one batch of events leaves a sleeper with an open window |
| WindowedRuns.SettingsGrowthStrands | packages/verser2-guest-python/src/verser2_guest_python/guest.py:1536-1575 | a run in which SETTINGS alone opens the window of a sleeper that is not woken |
| WindowedSend.Connection.SendRegion | packages/verser2-guest-python/src/verser2_guest_python/broker.py:1594-1618 | one region under the lock: frames while the window is open, else one registered waiter; frames and wake-ups stay as promised |
| WindowedSend.Connection.NotifyWaiters | packages/verser2-guest-python/src/verser2_guest_python/guest.py:1473-1483 | all waiters of a stream, or of all streams, are resolved and forgotten |
| WindowedSend.Connection.ReceiveData | packages/verser2-guest-python/src/verser2_guest_python/guest.py:1536-1575 | a batch of events is applied, then reacted to, under the same lock; without growth by SETTINGS nobody is left asleep |
| WindowedSend.Connection.CancelSender | packages/verser2-guest-python/src/verser2_guest_python/broker.py:1619-1627 | a cancelled sender leaves the registry in the Broker, stays in it in the Guest |
| WindowedLaws.RegionLaw | packages/verser2-guest-python/src/verser2_guest_python/broker.py:1594-1618 | a pass of a sender sends one frame, of a length greatest within frame size (16384 when none is set), connection window, stream window and data left, and charges both windows by it; it sleeps exactly if a window is closed and data is left |
| WindowedLaws.EveryFrameWasAllowed | packages/verser2-guest-python/src/verser2_guest_python/guest.py:1439-1471 | over any run each frame on the wire was within frame size and both windows, as the fields had them when it was sent |
| WindowedLaws.FrameSizeIsTheLastSet | packages/verser2-guest-python/src/verser2_guest_python/guest.py:1456-1459 | over any run the frame size is the last one the peer set |
| WindowedLaws.WindowsAreBalanced | packages/verser2-guest-python/src/verser2_guest_python/guest.py:1439-1471 | over any run each window is what it began with, plus what the peer granted, less the bytes sent |
| WindowedLaws.BatchWakesExactly | packages/verser2-guest-python/src/verser2_guest_python/guest.py:1536-1575 | a batch wakes a sleeper exactly if one of its events names its stream or the connection, and the first such event decides whether it goes on or fails |
| WindowedLaws.FailureHasCause | packages/verser2-guest-python/src/verser2_guest_python/broker.py:1684-1714 | over any run no sender fails unless it was cancelled or its stream was reported gone |
| WindowedLaws.SleepersAreClosed | packages/verser2-guest-python/src/verser2_guest_python/broker.py:1594-1627 | without growth by SETTINGS the windows of a sleeper are closed, as the fields have them |
| WindowedLaws.CancelLaw | packages/verser2-guest-python/src/verser2_guest_python/broker.py:1619-1627 | a cancelled sender fails, its waiter is forgotten by the Broker and kept by the Guest, and nobody else is touched |
| WindowedLaws.StartLaw | packages/verser2-guest-python/src/verser2_guest_python/guest.py:1439-1455 | a call joins the senders with all its data to send |
| Authorizer.CacheableResultIsLive | packages/verser2-host/src/lib/route-authorizer.ts:83-140 | a normalized result that may be cached carries an expiry that is still live |
| Authorizer.NormalizesExactly | packages/verser2-host/src/lib/route-authorizer.ts:83-140 | a callback outcome is refused exactly if it is malformed, lacks a decision or has no valid time to live; otherwise the decision is its own, with the override or the class of that decision for expiry |
| Authorizer.RunIsFaithful | packages/verser2-host/src/lib/route-authorizer.ts:195-257 | in every run caches, pending decisions and stale marks are exactly what the history of calls says |
| Authorizer.ReplyMeaning | packages/verser2-host/src/lib/route-authorizer.ts:195-222 | a call is answered from the cache exactly if the history holds an unexpired decision; else it joins exactly if a callback for the pair is pending that no revocation has detached, even one that invalidate made stale; else it starts one |
| Authorizer.ReturnMeaning | packages/verser2-host/src/lib/route-authorizer.ts:230-244 | a callback resolves to true exactly if what it returned itself says allow and no invalidation or revocation came since it began; it rejects exactly for a throw or a result that is not accepted |
| Authorizer.SingleFlightAlways | packages/verser2-host/src/lib/route-authorizer.ts:195-257 | allowed, denied and pending keys are disjoint and one callback per key can still take effect |
| Authorizer.NoStaleCachedAllow | packages/verser2-host/src/lib/route-authorizer.ts:195-203 | a cached true rests on an outcome that itself says allow, unexpired, for that pair, whose callback began after every earlier invalidate and revoke of it |
| Authorizer.CachedDenyWasSaid | packages/verser2-host/src/lib/route-authorizer.ts:195-203 | a cached false rests on an outcome that itself says deny |
| Authorizer.SaidIsAnswered | packages/verser2-host/src/lib/route-authorizer.ts:230-257 | what a fresh callback said is answered from the cache until it expires, is revoked, invalidated or replaced |
| Authorizer.RevokeMeaning | packages/verser2-host/src/lib/route-authorizer.ts:268-278 | a revocation reports true exactly if there was a decision, remembered or pending |
| Authorizer.FreshExactly | packages/verser2-host/src/lib/route-authorizer.ts:230-244 | a decision counts exactly if its callback began behind the last invalidation and the last revocation of its pair |
| Authorizer.NoStaleSharedAllow | packages/verser2-host/src/lib/route-authorizer.ts:230-244 | the same for a true that was waited for |
| Authorizer.CacheRefinesPolicy | packages/verser2-host/src/lib/route-authorizer.ts:195-257 | if the policy changes only at invalidate or revoke, every cached answer is its current one |
| Authorizer.PairKeyInjective | packages/verser2-host/src/lib/route-authorizer.ts:142-149 | two pairs share a key if and only if both domains normalize alike, when normal forms of the previous domain hold no NUL |
| Authorizer.FederatedRouteAuthorizer.AuthorizeHop | packages/verser2-host/src/lib/route-authorizer.ts:195-227 | the cache look-up with its deletion of expired entries, the join, and the start of a callback: the reply is the one the history calls for, and the fields stay what it says |
| Authorizer.FederatedRouteAuthorizer.CallbackSettled | packages/verser2-host/src/lib/route-authorizer.ts:228-254 | normalizing, the generation check and the insertion: true exactly for an outcome that itself says allow and that the history still counts as fresh |
| Authorizer.FederatedRouteAuthorizer.Revoke | packages/verser2-host/src/lib/route-authorizer.ts:268-278 | a pair leaves both caches and its pending decision goes stale |
| Authorizer.FederatedRouteAuthorizer.Invalidate | packages/verser2-host/src/lib/route-authorizer.ts:290-294 | everything cached and pending is forgotten |
| Authorizer.LiveCount | packages/verser2-host/src/lib/route-authorizer.ts:337-345 | counts the unexpired entries |
| Flooding.EventIdInjective | packages/verser2-host/src/lib/federation.ts:643-652 | tag identities of different Hosts or counters differ |
| Flooding.TagsAreNumbered | packages/verser2-host/src/lib/federation.ts:643-660 | the tags of a run are exactly those numbered from 1 at each Host |
| Flooding.NextTagIsUnseen | packages/verser2-host/src/lib/federation.ts:643-660 | the tag a Host issues next has been issued, seen and sent by nobody |
| Flooding.FewTagsClearNothing | packages/verser2-host/src/lib/federation.ts:538-541 | a run with at most 10000 tags clears no seen set |
| Flooding.HandledAtMostOnce | packages/verser2-host/src/lib/federation.ts:534-543 | in a run that clears no seen set each Host processes each tagged event at most once |
| Flooding.FramesAreBounded | packages/verser2-host/src/lib/federation.ts:608-635 | in such a run frames in all are bounded by tags times link ends, so flooding ends |
| Flooding.QuiescentIsComplete | packages/verser2-host/src/lib/federation.ts:525-592 | in such a run, once no frame is under way, a Host has the event if and only if the origin reaches it |
| FloodClearing.HandledAgainExactly | packages/verser2-host/src/lib/federation.ts:534-543 | over any run a delivered tag that its Host has recorded is handled again if and only if the seen set of the Host was cleared since |
| FloodClearing.SeenExactly | packages/verser2-host/src/lib/federation.ts:534-543 | over any run a Host remembers a tag if and only if it recorded it and has not cleared its set since |
| FloodClearing.HandledTwice | packages/verser2-host/src/lib/federation.ts:538-541 | a run of 10001 events between two Hosts at whose end the first one is handled again |
| Flooding.Federation.HandleNextFrame | packages/verser2-host/src/lib/federation.ts:525-592 | a seen tag is skipped, a new one is recorded and forwarded to everyone but its sender; while no set is cleared, that is a tag the Host has neither issued nor handled, and the flooding invariant stays |
| Flooding.Federation.ForwardExcluding | packages/verser2-host/src/lib/federation.ts:608-635 | a frame goes to every link but those of the excluded owner |
| Flooding.Federation.TagAndForward | packages/verser2-host/src/lib/federation.ts:643-660 | an own event gets the next number, which is new while no set is cleared, is recorded and sent to all |
| FloodLaws.DeliveryGoesExactly | packages/verser2-host/src/lib/federation.ts:525-592 | a delivery takes one frame off its link and, if the tag is new, puts it on every link of the receiver but those to the owner it came from, and on no other |
| FloodLaws.OwnEventGoesExactly | packages/verser2-host/src/lib/federation.ts:643-660 | an own event goes to every link of its Host, once, and to no other |
| FloodLaws.LinksLoseNothing | packages/verser2-host/src/lib/federation.ts:608-635 | over any run each frame written to a link was taken off it or is on it still |
| FloodLaws.ArrivalsAreCounted | packages/verser2-host/src/lib/federation.ts:525-592 | over any run each frame taken off a link is one delivery, and what was handled are, in order, the arrivals of tags not remembered then |
| LeaseRuns.AcquisitionsAreConserved | packages/verser2-host/src/lib/lease-pool.ts:56-121 | issued acquisitions are served plus timed out plus rejected plus waiting |
| LeaseRuns.SettlesOnce | packages/verser2-host/src/lib/lease-pool.ts:81-121 | each settles at most once, and waits with its timer armed exactly until it does |
| LeaseRuns.ServedInOrder | packages/verser2-host/src/lib/lease-pool.ts:56-74 | of two waiters for a guest the earlier is served first |
| LeaseRuns.WaitersMeanNoIdleLease | packages/verser2-host/src/lib/lease-pool.ts:56-141 | a guest with waiters has no idle lease |
| LeaseRuns.IdleIsNotActive | packages/verser2-host/src/lib/lease-pool.ts:56-158 | no lease is idle and active at once, idle ones are distinct, idle for their own guest only, and were never handed out |
| LeaseRuns.HandOutsAreLive | packages/verser2-host/src/lib/lease-pool.ts:81-141 | a lease is open when it is handed out |
| LeaseRuns.RunKeepsInv | packages/verser2-host/src/lib/lease-pool.ts:42-235 | every operation keeps the whole invariant of the pool |
| LeasePool.Pool.AddIdleLease | packages/verser2-host/src/lib/lease-pool.ts:56-74 | an offered lease serves the first waiter or becomes idle; a new lease keeps the pool's invariant |
| LeasePool.Pool.AcquireLease | packages/verser2-host/src/lib/lease-pool.ts:81-121 | the oldest open idle lease, or a place in the queue; the pool's invariant stays |
| LeasePool.Pool.TryAcquireLease | packages/verser2-host/src/lib/lease-pool.ts:128-142 | the same without waiting |
| LeasePool.Pool.Remove | packages/verser2-host/src/lib/lease-pool.ts:148-158 | a lease leaves both tables |
| LeasePool.Pool.CloseGuestLeases | packages/verser2-host/src/lib/lease-pool.ts:164-176 | a guest loses all its leases |
| LeasePool.Pool.CloseAllLeases | packages/verser2-host/src/lib/lease-pool.ts:182-193 | everybody does |
| LeasePool.Pool.FailAllQueued | packages/verser2-host/src/lib/lease-pool.ts:199-222 | all waiters of all guests with a queue are rejected, and no queue is left |
| LeaseRuns.FailingSettlesEveryone | packages/verser2-host/src/lib/lease-pool.ts:199-222 | after it, in any run, no timer is armed and every acquisition is settled |
| LeasePool.Pool.TimerFired | packages/verser2-host/src/lib/lease-pool.ts:228-234 | a timeout takes just its own acquisition out of the queue |
| LeaseLaws.LeasesAreKept | packages/verser2-host/src/lib/lease-pool.ts:56-74 | over any run a lease offered and open, never handed out and not removed, is idle for its guest, no removed one is, and idle leases stand in the order of their offers |
| LeaseLaws.UsableIsIdle | packages/verser2-host/src/lib/lease-pool.ts:56-158 | an open lease is idle if and only if it was offered, never handed out and not removed |
| LeaseLaws.AcquisitionServedExactly | packages/verser2-host/src/lib/lease-pool.ts:81-121 | over any run an acquisition is served at once if and only if its guest has such a lease, by the earliest offered; otherwise it waits last, its timer armed |
| LeaseLaws.TryingSucceedsExactly | packages/verser2-host/src/lib/lease-pool.ts:128-142 | trying succeeds exactly then, with that lease, and otherwise settles nobody |
| LeaseLaws.OfferedLeaseServes | packages/verser2-host/src/lib/lease-pool.ts:56-74 | an open lease offered goes to the first waiter of its guest, or can be handed out from then on |
| LeaseLaws.ClosingClosesExactly | packages/verser2-host/src/lib/lease-pool.ts:164-176 | closing a guest closes the streams of its idle and active leases and of no others |
| LeaseLaws.FailingRejectsExactly | packages/verser2-host/src/lib/lease-pool.ts:199-222 | failing a guest rejects its waiters in their order and touches no other |
| LeaseLaws.TimeoutIsOwn | packages/verser2-host/src/lib/lease-pool.ts:228-234 | a timer times out its own acquisition and leaves the others in their order |
| LeaseUse.ActiveExactly | packages/verser2-host/src/lib/lease-pool.ts:56-193 | over any run the active leases are exactly those handed out and neither removed nor closed with their guest or all others since, and the flagged ones those handed out and not removed |
| LeaseUse.ClosingAllClosesExactly | packages/verser2-host/src/lib/lease-pool.ts:182-193 | closing every lease closes exactly the idle ones and those in use |
| Candidates.RouteRemote | packages/verser2-host/src/lib/broker-routing.ts:815-954 | the loop for a remote Broker finds the outcome that CandidateLaws.OutcomeExactly reads off the fields, and every stream it acquired is used, closed, or was closed already |
| Candidates.RouteLocal | packages/verser2-host/src/lib/broker-routing.ts:1234-1348 | the loop for a local Broker, with its own previous hop and without the checks, finds the outcome that CandidateLaws.OutcomeExactly reads off the fields, and never gives up |
| Candidates.TryRemote | packages/verser2-host/src/lib/broker-routing.ts:859-924 | one turn of the loop: match, look-up of the source domain, hop, stream, with the request found dead after either await |
| Candidates.OutcomeIsUnique | packages/verser2-host/src/lib/broker-routing.ts:815-954 | candidates and answers determine one outcome |
| Candidates.ForwardedOnFirstEligible | packages/verser2-host/src/lib/broker-routing.ts:190-215 | a request is forwarded on the first matching candidate that was allowed, still active and gave a stream |
| Candidates.DeniedByOne | packages/verser2-host/src/lib/broker-routing.ts:930-951 | with nothing forwarded the error is denied if any matching candidate was, else unavailable if any matched |
| Candidates.LoopsAgree | packages/verser2-host/src/lib/broker-routing.ts:1234-1348 | while the remote request lives, what the remote loop and the local loop end with is the same |
| Candidates.FindClash | packages/verser2-host/src/lib/broker-routing.ts:841-852 | without a requested domain, different upstream domains are an error, and only they |
| CandidateLaws.OutcomeExactly | packages/verser2-host/src/lib/broker-routing.ts:815-954 | an outcome is the one of the search if and only if the fields of candidates and answers call for it: forwarded on an upstream candidate of the requested domain behind none but such as were denied, lost, or without a stream; not federated exactly if no upstream candidate has the domain; denied and unavailable likewise |
| CandidateLaws.ForwardedWithinDomain | packages/verser2-host/src/lib/broker-routing.ts:860-865 | a request with a domain is forwarded to an upstream candidate whose normalized domain is that one |
| ChunkedDecoder.DecodeEncode | packages/verser2-guest-node/src/lib/chunked-body-decoder.ts:26-75 | reading what an encoder writes, with any extensions and closing bytes, gives the body and the end |
| ChunkedDecoder.HexIsLine | packages/verser2-guest-node/src/lib/chunked-body-decoder.ts:48-55 | every safe size written in hexadecimal is read back as itself |
| ChunkedDecoder.BatchExtends | packages/verser2-guest-node/src/lib/chunked-body-decoder.ts:20-24 | reading p and then q is reading p followed by q |
| ChunkedDecoder.FlushRefines | packages/verser2-guest-node/src/lib/chunked-body-decoder.ts:26-75 | a flush, wherever it pauses, moves a prefix of the meaning to the output and keeps the rest |
| ChunkedRuns.RunKeepsInv | packages/verser2-guest-node/src/lib/chunked-body-decoder.ts:20-75 | over any writes and pauses, what was put out and what the kept bytes mean is the meaning of all bytes |
| ChunkedRuns.SplitsAgree | packages/verser2-guest-node/src/lib/chunked-body-decoder.ts:20-75 | two ways to cut the same bytes put out the same body |
| ChunkedRuns.AnySplitDecodes | packages/verser2-guest-node/src/lib/chunked-body-decoder.ts:20-75 | however an encoded body is cut and paused, it is never found malformed and, unless a limit is met, exactly the body and its end come out |
| ChunkedRuns.KeptWithinLimit | packages/verser2-guest-node/src/lib/chunked-body-decoder.ts:77-86 | after an accepted write the kept bytes are within the limit |
| ChunkedRuns.PendingLimitOnlyAtWrites | packages/verser2-guest-node/src/lib/chunked-body-decoder.ts:66-69 | the limit is met exactly by a write that exceeds it; the check inside the loop never fires |
| ChunkedDecoder.PiecesFit | packages/verser2-guest-node/src/lib/chunked-body-decoder.ts:66-72 | a piece put out fits in the limit with its closing two bytes |
| ChunkedRuns.ResumingEnds | packages/verser2-guest-node/src/lib/chunked-body-decoder.ts:70-75 | resuming after each pause ends, since each leaves fewer bytes |
| ChunkedRuns.LineLimitDependsOnSplit | packages/verser2-guest-node/src/lib/chunked-body-decoder.ts:29-46 | the line limit is one stricter for a first line whose CR comes alone |
| ChunkedLines.LimitLineFailsExactly | packages/verser2-guest-node/src/lib/chunked-body-decoder.ts:29-46 | for any cut and pauses, a message with no line above the limit is refused if and only if a write ends between the CR and the LF of a line of just the limit while the output does not pause; else it is decoded |
| ChunkedLines.LimitLineFailsByCut | packages/verser2-guest-node/src/lib/chunked-body-decoder.ts:29-46 | for a caller that waits for a pause to end, refused if and only if a write ends there |
| ChunkedClosing.ShortMessagesDecode | packages/verser2-guest-node/src/lib/chunked-body-decoder.ts:20-75 | with size lines below the limit and the message within the other, no cut and no pause fails, and an idle decoder has put out exactly the body and its end |
| ChunkedClosing.ClosingLineIsMalformedExactly | packages/verser2-guest-node/src/lib/chunked-body-decoder.ts:57-61 | for any cut of a message with its closing CRLF: malformed if and only if a write ends right behind the last-chunk line and the output does not pause there; otherwise at most an LF is kept |
| ChunkedClosing.MalformedExactlyByCut | packages/verser2-guest-node/src/lib/chunked-body-decoder.ts:57-61 | for a caller that waits for a pause to end: malformed if and only if a write ends right behind the last-chunk line |
| ChunkedClosing.ClosingLineAlone | packages/verser2-guest-node/src/lib/chunked-body-decoder.ts:57-61 | an empty message decodes in one write and is malformed with its closing CRLF in another |
| ChunkedClosing.StartsAfresh | packages/verser2-guest-node/src/lib/chunked-body-decoder.ts:57-61 | what is written after an end is decoded as if it came first |
| ChunkedClosing.BytesBehindEndAreDropped | packages/verser2-guest-node/src/lib/chunked-body-decoder.ts:57-61 | bytes behind the last-chunk line are dropped with it |
| ChunkedStream.Decoder.Accept | packages/verser2-guest-node/src/lib/chunked-body-decoder.ts:20-24 | a write appends, checks the limit and flushes; what is put out and kept goes on meaning what was written |
| ChunkedStream.Decoder.GoOn | packages/verser2-guest-node/src/lib/chunked-body-decoder.ts:26-75 | a flush after a pause does the same without new bytes |
| ChunkedStream.Decoder.Drain | packages/verser2-guest-node/src/lib/chunked-body-decoder.ts:26-75 | the flush loop does what the specified flush does |
| ChunkedGrammar.DigitExactly | packages/verser2-guest-node/src/lib/chunked-body-decoder.ts:48-55 | the digits of a size line and their values, for plain bytes |
| ChunkedGrammar.WellFormedExactly | packages/verser2-guest-node/src/lib/chunked-body-decoder.ts:48-52 | a line of plain bytes is accepted if and only if it is digits, and behind them nothing or a semicolon and no line break |
| ChunkedGrammar.LineDecidesExactly | packages/verser2-guest-node/src/lib/chunked-body-decoder.ts:26-65 | a line that is none, or whose size is no safe integer, is refused; size 0 ends the body; any other starts a chunk |
| ChunkedGrammar.FlushPausesExactly | packages/verser2-guest-node/src/lib/chunked-body-decoder.ts:70-75 | a flush pauses exactly with the piece that leaves the output no more room |
| VwsLine.RunFollows | packages/verser2-guest-node/src/lib/verser-websocket.ts:131-169 | for any cut into pieces the events up to the first fault are the frames of the whole text |
| VwsLine.SplitsAgree | packages/verser2-guest-node/src/lib/verser-websocket.ts:131-169 | two cuts of the same bytes give the same frames and the same first framing fault |
| VwsLine.EncodedFramesArrive | packages/verser-common/src/lib/vws.ts:123-125 | encoded frames, however cut, arrive exactly, without a fault |
| VwsCuts.CutsAgreeExactly | packages/verser2-guest-node/src/lib/verser-websocket.ts:131-169 | for any bytes with no newline inside a character: every cut gives the same events if and only if the text has no fault, or one that shows no more whatever is cut |
| VwsCuts.NoFaultNoDifference | packages/verser2-guest-node/src/lib/verser-websocket.ts:131-169 | two cuts of any bytes, one of them without a fault, give the same events |
| VwsCuts.BehindMalformed | packages/verser2-guest-node/src/lib/verser-websocket.ts:158-168 | behind a malformed line the cut does not matter if and only if what follows gives no event |
| VwsCuts.LongLineDiffers | packages/verser2-guest-node/src/lib/verser-websocket.ts:150-157 | with a whole line that is too long the cut always matters |
| VwsCuts.UnfinishedExactly | packages/verser2-guest-node/src/lib/verser-websocket.ts:138-147 | for an unfinished line of single-byte characters the cut does not matter if and only if it has at most twice the limit and one |
| VwsLine.SplitMattersAfterFault | packages/verser2-guest-node/src/lib/verser-websocket.ts:142-168 | a pair of cuts of the same bytes that give different events behind a fault |
| VwsLine.DecodeInPieces | packages/verser2-guest-node/src/lib/verser-websocket.ts:129-135 | the UTF-8 decoder holds back incomplete characters, so pieces add up |
| VwsLine.ReadDependsOnBytes | packages/verser-common/src/lib/vws.ts:224-286 | the opening line, and whether it is oversized, depend on the bytes alone, and every byte behind it is still there |
| VwsLine.SwitchLosesNothing | packages/verser-common/src/lib/vws.ts:252-273 | reading the opening line and then parsing frames loses and repeats no byte |
| VwsLine.FrameParser.ProcessIncoming | packages/verser2-guest-node/src/lib/verser-websocket.ts:131-169 | the parser loop, with its limit on whole and on unfinished lines; its events stay the frames of all bytes fed, up to where it stops |
| VwsLine.LineReader.OnData | packages/verser-common/src/lib/vws.ts:252-273 | one piece: keep, refuse, or resolve and give the rest back |
| VwsLine.FeedingIsReading | packages/verser-common/src/lib/vws.ts:252-273 | one piece after another gives what reading all pieces gives |
| VwsLine.LineReader.OnEnd | packages/verser-common/src/lib/vws.ts:274-278 | an unfinished line counts as the line at the end of the stream |
| VwsFrameLaws.LineExactly | packages/verser2-guest-node/src/lib/verser-websocket.ts:138-168 | a line with its newline is one frame up to a MiB unless refused, with the fault 1002 for a refused and 1009 for a longer one |
| VwsFrameLaws.UnfinishedLineExactly | packages/verser2-guest-node/src/lib/verser-websocket.ts:138-147 | an unfinished line gives nothing up to a MiB and the fault 1009 beyond |
| VwsFrameLaws.CharacterIsHeldExactly | packages/verser2-guest-node/src/lib/verser-websocket.ts:129-135 | a character of one to four bytes is held back until its last byte and then given out whole |
| Envelope.ReadEncode | packages/verser-common/src/lib/envelope.ts:42-50 | an encoded envelope with a body is read back, the body left over, unless its metadata exceeds the limit |
| Envelope.AnyCutIsRead | packages/verser-common/src/lib/envelope.ts:67-120 | for any cut into pieces the push parser yields exactly the envelope, and remainder and unread pieces are the body |
| Envelope.NothingComesEarly | packages/verser-common/src/lib/envelope.ts:75-118 | while it is incomplete nothing comes out |
| Envelope.PushingIsReading | packages/verser-common/src/lib/envelope.ts:75-118 | for any bytes at all the outcome of pushing depends on the bytes alone |
| Envelope.ReadExtends | packages/verser-common/src/lib/envelope.ts:75-118 | more bytes never change a verdict; only a metadata fault can turn into the pending-input fault |
| Envelope.StreamAgrees | packages/verser-common/src/lib/envelope.ts:136-167 | the stream reader succeeds exactly when the push parser does on the same bytes, and leaves the body on the stream |
| Envelope.PythonAgrees | packages/verser2-guest-python/src/verser2_guest_python/protocol.py:56-88 | the Python decoder reads the same envelopes, without the limit and for any JSON value |
| Envelope.NumberOfBigEndian | packages/verser-common/src/lib/envelope.ts:46-49 | the length field is read back as written |
| Envelope.PushParser.Push | packages/verser-common/src/lib/envelope.ts:75-118 | one push: the branches in their order, the buffer emptied on success only |
| Envelope.Source.ReadExactly | packages/verser-common/src/lib/stream-readers.ts:21-49 | exactly n bytes off a stream that delivers pieces of any size, the surplus put back |
| Envelope.Source.ReadEnvelope | packages/verser-common/src/lib/envelope.ts:136-167 | prefix, length, limit, metadata, parser |
| EnvelopeLaws.FormatExactly | packages/verser-common/src/lib/envelope.ts:42-50 | an envelope is version 1, its type, the length with its high byte first, and the metadata |
| EnvelopeLaws.ReadsExactly | packages/verser-common/src/lib/envelope.ts:75-118 | the push parser yields an envelope if and only if all of it is there, within the limit, and its metadata is an object |
| EnvelopeLaws.WaitsOrRefusesExactly | packages/verser-common/src/lib/envelope.ts:75-118 | it waits exactly for bytes that can still become one, and refuses all others for what it meets first |
| EnvelopeLaws.PythonReadsExactly | packages/verser2-guest-python/src/verser2_guest_python/protocol.py:56-88 | the Python decoder likewise, without a limit, for any JSON value, and never waiting |
| EnvelopeLaws.PythonRefusesExactly | packages/verser2-guest-python/src/verser2_guest_python/protocol.py:56-88 | and it refuses all other bytes for the first thing wrong with them |
| EnvelopeLaws.StreamReadsExactly | packages/verser-common/src/lib/envelope.ts:136-167 | the stream reader gives up at the end of the stream, refuses long metadata before reading it, and else takes just the bytes of the envelope |
| SocketRuns.MessagesGoInOrder | packages/verser2-guest-node/src/lib/verser-websocket.ts:228-283 | early and later messages each go to the wire in the order of their sends and at most once |
| SocketRuns.CounterIsExact | packages/verser2-guest-node/src/lib/verser-websocket.ts:269-283 | while open the byte counter is queued plus in-flight bytes, within 1 MiB and 64 messages |
| SocketRuns.NoLostWakeUp | packages/verser2-guest-node/src/lib/verser-websocket.ts:405-428 | no message waits for a pump that sleeps |
| SocketRuns.PumpDelivers | packages/verser2-guest-node/src/lib/verser-websocket.ts:405-428 | while writes succeed the pump writes every queued message and rests |
| SocketRuns.BrokerSendsNothingAfterEnd | packages/verser2-guest-node/src/lib/verser-websocket.ts:314-336 | on a socket created accepted no message follows its end, in any continuation |
| SocketRuns.MessageAfterEndExactly | packages/verser2-guest-node/src/lib/verser-websocket.ts:381-403 | after the end a message can still follow if and only if there is a backlog of early ones |
| SocketRuns.NoMessageBeforeAccept | packages/verser2-guest-node/src/lib/verser-websocket.ts:251-267 | on a Guest socket every message has the accept frame before it |
| SocketOrder.OvertakingExactly | packages/verser2-guest-node/src/lib/verser-websocket.ts:365-403 | from any reachable state some continuation writes a later message before an early one still waiting if and only if the socket is open, an early message waits behind the one written next, and the pump can get a later one |
| SocketRuns.BrokerKeepsSendOrder | packages/verser2-guest-node/src/lib/verser-websocket.ts:228-283 | on a socket created accepted the messages on the wire are in the order of their sends |
| SocketRuns.NewerMessageOvertakes | packages/verser2-guest-node/src/lib/verser-websocket.ts:365-374 | a run in which a newer message overtakes an early one |
| SocketRuns.EarlyMessageFollowsClose | packages/verser2-guest-node/src/lib/verser-websocket.ts:381-403 | a run in which an early message follows the close frame |
| SocketRuns.PeerCloseKeepsTheQueue | packages/verser2-guest-node/src/lib/verser-websocket.ts:556-566 | a close by the peer leaves the outbound queue as it was |
| SocketRuns.StrandedExactly | packages/verser2-guest-node/src/lib/verser-websocket.ts:405-428 | a queue left on a destroyed socket can still change if and only if a write is under way |
| SocketRuns.PeerCloseStrandsTheQueue | packages/verser2-guest-node/src/lib/verser-websocket.ts:556-566 | after the peer closes, queued messages stay queued for good unless the write in flight fails |
| SocketRuns.StrandedIsReached | packages/verser2-guest-node/src/lib/verser-websocket.ts:556-566 | a run with two sends and a close by the peer whose second message stays queued in every continuation |
| VwsSocket.Socket.SendMessage | packages/verser2-guest-node/src/lib/verser-websocket.ts:228-283 | the branches of send: ignored, too large, queued early, refused, queued and pumped; order and counters stay as the invariant says |
| VwsSocket.Socket.CloseIt | packages/verser2-guest-node/src/lib/verser-websocket.ts:314-336 | close fails the queue, drops early messages before the accept, and writes one frame |
| VwsSocket.Socket.AcceptDone | packages/verser2-guest-node/src/lib/verser-websocket.ts:367-373 | after the accept frame the early messages are flushed |
| VwsSocket.Socket.WriteDone | packages/verser2-guest-node/src/lib/verser-websocket.ts:405-428 | the pump after a write: count down and go on, or fail everything |
| SocketLaws.SendExactly | packages/verser2-guest-node/src/lib/verser-websocket.ts:228-283 | send takes a message exactly if the socket is open and there is room for it; without room it closes, and a closed socket ignores it |
| SocketLaws.CloseLaw | packages/verser2-guest-node/src/lib/verser-websocket.ts:314-336 | a close writes one close frame and leaves nothing waiting but what a flush has begun |
| SocketLaws.AcceptExactly | packages/verser2-guest-node/src/lib/verser-websocket.ts:355-366 | the accept frame goes out once, on a socket that was not accepted and not destroyed |
| SocketLaws.AcceptFailsExactly | packages/verser2-guest-node/src/lib/verser-websocket.ts:367-374 | an accept frame that does not get out changes nothing but that no flush begins |
| SocketLaws.FlushBeginsExactly | packages/verser2-guest-node/src/lib/verser-websocket.ts:367-403 | all early messages go over to the flush once the accept frame is out, the first of them to the wire |
| SocketLaws.FlushExactly | packages/verser2-guest-node/src/lib/verser-websocket.ts:381-403 | the flush writes the next early message, gives up at a failed write, and starts the pump behind |
| SocketLaws.PumpExactly | packages/verser2-guest-node/src/lib/verser-websocket.ts:405-428 | a line that is out makes room and the next one goes; a failed one empties the queue |
| SocketLaws.PeerCloseExactly | packages/verser2-guest-node/src/lib/verser-websocket.ts:556-566 | a close by the peer destroys the socket and is answered exactly if no close frame was sent |
| SocketLaws.NoMessageIsLost | packages/verser2-guest-node/src/lib/verser-websocket.ts:228-283 | over any run, while writes succeed and the socket is open, every message taken is on the wire or waits |
| SocketLaws.OneCloseFrame | packages/verser2-guest-node/src/lib/verser-websocket.ts:314-336 | over any run at most one close frame is written, and none while the socket is open |
| InboundQueue.RunKeepsInv | packages/verser2-guest-node/src/lib/verser-websocket.ts:589-641 | in every run received messages reach the listeners in order and once, the queue stays within its limits with an exact counter, and the stream is paused exactly while a message is handled or waits |
| InboundQueue.QueueFaultsExactly | packages/verser2-guest-node/src/lib/verser-websocket.ts:589-610 | over any run the queue is at fault if and only if some piece of the stream holds a message that is too large, or more than 64 messages or 1 MiB behind the first awaited one |
| InboundQueue.OneByOneNeverFaults | packages/verser2-guest-node/src/lib/verser-websocket.ts:589-610 | with each message in a piece of its own the queue is never at fault |
| InboundQueue.OnePieceFaults | packages/verser2-guest-node/src/lib/verser-websocket.ts:589-610 | awaited one-byte messages in one piece are at fault if and only if there are more than 65 |
| InboundQueue.StuckExactly | packages/verser2-guest-node/src/lib/verser-websocket.ts:612-641 | in any reachable state nothing is ever handed over again if and only if the socket is destroyed, or messages wait and no listener is awaited |
| InboundQueue.SettlingStrandsExactly | packages/verser2-guest-node/src/lib/verser-websocket.ts:612-641 | the end of an awaited listener leaves a living socket stuck if and only if it fails with a message behind, or the first message not handled at once then throws with one behind |
| InboundQueue.RunStrandsExactly | packages/verser2-guest-node/src/lib/verser-websocket.ts:612-641 | over any run a living socket is stuck if and only if some step of the run was such an end |
| InboundQueue.ThrowIsReached | packages/verser2-guest-node/src/lib/verser-websocket.ts:630-640 | a run with a listener that throws, after which a message is stuck |
| InboundQueue.FailureIsReached | packages/verser2-guest-node/src/lib/verser-websocket.ts:630-640 | a run with an awaited listener that fails, after which a message is stuck |
| InboundQueue.Inbound.EnqueueInbound | packages/verser2-guest-node/src/lib/verser-websocket.ts:589-610 | refuses a message or queues it, pauses the stream, and works an idle queue off; the invariant stays |
| InboundQueue.Inbound.ProcessQueue | packages/verser2-guest-node/src/lib/verser-websocket.ts:612-641 | hands messages over until one is awaited, one throws, or none is left |
| SendAccounting.CountersAreExact | packages/verser2-guest-python/src/verser2_guest_python/broker.py:94-129 | pending and reserved counters are what the calls in progress add up to, within the limits, and one holds the lock |
| SendAccounting.LeavingGivesBack | packages/verser2-guest-python/src/verser2_guest_python/broker.py:112-129 | whoever leaves gives back exactly what it took from all three counters; no subtraction is cut off at zero |
| SendAccounting.SendSide.SendFrame | packages/verser2-guest-python/src/verser2_guest_python/broker.py:94-119 | admission: closed, oversized or over the limits is refused and changes nothing; the counters stay exact |
| AsgiQueue.QueueStaysBounded | packages/verser2-guest-python/src/verser2_guest_python/asgi.py:281-303 | the queue stays within its limits and, while open, its counter is exact |
| AsgiQueue.DisconnectIsQueued | packages/verser2-guest-python/src/verser2_guest_python/asgi.py:305-316 | a close or a lost connection always reaches the queue as its last event |
| AsgiQueue.CounterIsExactExactly | packages/verser2-guest-python/src/verser2_guest_python/asgi.py:281-316 | over any run the counter is exact if and only if no event with bytes was dropped from a full queue |
| AsgiQueue.CounterIsOffByDropped | packages/verser2-guest-python/src/verser2_guest_python/asgi.py:298-316 | in every run the counter is off by exactly the bytes of the dropped events |
| AsgiQueue.ForcedEventsNeverClear | packages/verser2-guest-python/src/verser2_guest_python/asgi.py:281-303 | a forced event always fits in the byte limit, so the branch that clears the queue is never taken |
| AsgiQueue.FullQueueDrifts | packages/verser2-guest-python/src/verser2_guest_python/asgi.py:298-316 | a run that fills the queue, after which a close leaves the counter off by one |
| AsgiQueue.EventQueue.PutEvent | packages/verser2-guest-python/src/verser2_guest_python/asgi.py:281-303 | the branches of putting an event, forced or not; the queue stays within its limits |
| SendAccounting.AdmittedExactly | packages/verser2-guest-python/src/verser2_guest_python/broker.py:94-108 | over any run a call is let in exactly if the socket is open and message count and bytes have room |
| SendAccounting.LockExactly | packages/verser2-guest-python/src/verser2_guest_python/broker.py:109-119 | the lock goes to one waiting call at a time |
| AsgiQueue.FrameIsQueuedExactly | packages/verser2-guest-python/src/verser2_guest_python/asgi.py:281-303 | a frame is queued last exactly if it fits, and else is a protocol error unless the connection is closed |
| AsgiQueue.EventsGoInOrder | packages/verser2-guest-python/src/verser2_guest_python/asgi.py:281-316 | over any run the queue is what was queued less what has left, in order |
| ResponseHeaders.AlwaysAgree | packages/verser2-guest-node/src/lib/minimal-http.ts:180-265 | after any calls, thrown ones included, map and ordered pairs give every name the same values in order |
| ResponseHeaders.ListReplaces | packages/verser2-guest-node/src/lib/minimal-http.ts:242-252 | after writeHead with a list the pairs are those of the other names in their order, then the list |
| ResponseHeaders.ObjectReplaces | packages/verser2-guest-node/src/lib/minimal-http.ts:253-258 | after writeHead with an object a name has the values of its last entry, or its old ones |
| ResponseHeaders.SetValues | packages/verser2-guest-node/src/lib/minimal-http.ts:461-472 | setting a name gives it these values and leaves the others theirs |
| ResponseHeaders.Response.SetHeader | packages/verser2-guest-node/src/lib/minimal-http.ts:180-190 | replaces, or throws and changes nothing |
| ResponseHeaders.Response.AppendHeader | packages/verser2-guest-node/src/lib/minimal-http.ts:203-216 | adds, or throws and changes nothing |
| ResponseHeaders.Response.WriteHead | packages/verser2-guest-node/src/lib/minimal-http.ts:228-265 | atomic: status, message and headers change together or not at all |
| ResponseHeaders.RemovePairs | packages/verser2-guest-node/src/lib/minimal-http.ts:493-497 | removing from the back leaves exactly the other pairs |
| HeaderLaws.SetExactly | packages/verser2-guest-node/src/lib/minimal-http.ts:180-190 | setting gives the lowered name just these values, or throws and changes nothing; other names keep theirs |
| HeaderLaws.AppendExactly | packages/verser2-guest-node/src/lib/minimal-http.ts:203-216 | appending adds the values behind those the name has, as a single text exactly if that is its first value |
| HeaderLaws.ListExactly | packages/verser2-guest-node/src/lib/minimal-http.ts:242-252 | after writeHead with a list a name in it has all the values the list gives it, in order, and another keeps its own |
| HeaderLaws.HeadAcceptedExactly | packages/verser2-guest-node/src/lib/minimal-http.ts:228-241 | writeHead takes effect exactly for a status from 200 to 599, a valid message and valid entries |
| ResponseMetadata.DecodeEncode | packages/verser-common/src/lib/header-serialization.ts:92-110 | what the encoder emits the strict decoder accepts, as the lowercased, sanitized metadata |
| ResponseMetadata.DecodedIsClean | packages/verser-common/src/lib/header-serialization.ts:100-110 | what the decoder accepts is lowercase, valid and free of forbidden names |
| ResponseMetadata.SanitizeIsIdempotent | packages/verser-common/src/lib/headers.ts:332-358 | sanitizing twice is sanitizing once |
| ResponseMetadata.SanitizedIsClean | packages/verser-common/src/lib/headers.ts:332-358 | what survives is lowercase, valid and free of forbidden names |
| ResponseMetadata.KeptIsClean | packages/verser-common/src/lib/headers.ts:352-357 | the filter keeps exactly the pairs that are not forbidden |
| ResponseMetadata.Latin1CheckIsRedundant | packages/verser-common/src/lib/headers.ts:335-342 | the check behind normalizing never fires |
| ResponseMetadata.SanitizePairs | packages/verser-common/src/lib/headers.ts:332-358 | the sanitizer with its loops |
| ResponseMetadata.TypeScriptDecodes | packages/verser-common/src/lib/header-serialization.ts:100-110 | the TypeScript decoder accepts exactly what both demand with a number 1 for the version and a request identity that is not blank |
| ResponseMetadata.PythonDecodes | packages/verser2-guest-python/src/verser2_guest_python/protocol.py:251-311 | the Python decoder accepts exactly what both demand with a status written as an integer, names valid before lower-casing, and a request identity that is not blank to it |
| ResponseMetadata.PythonAgreesExactly | packages/verser2-guest-python/src/verser2_guest_python/protocol.py:251-311 | the decoders give the same result if and only if both refuse or both own demands hold alike |
| ResponseMetadata.DecodersDiffer | packages/verser2-guest-python/src/verser2_guest_python/protocol.py:251-311 | three records on which they differ: version true, status 200.0, and a name with the Kelvin sign |
| ResponseMetadata.EncodedIsClassified | packages/verser-common/src/lib/header-serialization.ts:118-133 | encoded metadata classifies its own response, and any other status or request identity is refused |
| ResponseMetadata.CheckValue | packages/verser-common/src/lib/headers.ts:48-62 | the loop over code units accepts exactly the valid values |
| ResponseMetadata.CheckWellFormed | packages/verser-common/src/lib/header-serialization.ts:214-227 | the loop accepts exactly texts whose surrogates pair up |
| MetadataLaws.NameExactly | packages/verser-common/src/lib/headers.ts:33-36 | a name is valid exactly if it is letters, digits and the marks of a token, and not empty |
| MetadataLaws.ValueExactly | packages/verser-common/src/lib/headers.ts:48-62 | a value is valid exactly if it is tabs, visible characters, blanks and Latin-1 beyond ASCII |
| MetadataLaws.WellFormedExactly | packages/verser-common/src/lib/header-serialization.ts:214-227 | a text is well formed exactly if each surrogate has its partner beside it |
| MetadataLaws.KeepsExactly | packages/verser-common/src/lib/headers.ts:332-358 | the sanitizer keeps exactly the pairs that are not hop-by-hop, not nominated and not the metadata header |
| MetadataLaws.NominatedExactly | packages/verser-common/src/lib/headers.ts:343-351 | the nominated names are exactly the tokens of the Connection values |
| MetadataLaws.EncodesExactly | packages/verser-common/src/lib/header-serialization.ts:92-99 | the encoder takes a record exactly if its fields are valid, its headers are valid once lowered, and the text is within 4096 bytes |
| MetadataLaws.AcceptedIsWithinLimits | packages/verser-common/src/lib/header-serialization.ts:100-110 | what the decoder accepts has at most 64 pairs, 1024 bytes of status text, 4096 in all, and a final status |
| MetadataLaws.RefusedBeyondLimits | packages/verser-common/src/lib/header-serialization.ts:135-212 | a record beyond one of these limits is refused by encoder and both decoders |
| RouteRuns.ReplaysExactly | packages/verser2-guest-node/src/lib/http2-verser-broker.ts:771-886 | over any frames and waits the emitted events replay to the table at every point if and only if each snapshot fits the table before it; in the Python Broker always |
| RouteRuns.SnapshotReplaysExactly | packages/verser2-guest-node/src/lib/http2-verser-broker.ts:776-813 | one snapshot is announced completely if and only if it fits: different routes with one joined key are in table and snapshot both |
| RouteRuns.EventsReproduceTable | packages/verser2-guest-node/src/lib/http2-verser-broker.ts:771-886 | whenever each snapshot fits, and in the Python Broker always, replaying the emitted events gives the table |
| RouteRuns.CleanRunsFit | packages/verser2-guest-node/src/lib/http2-verser-broker.ts:780-781 | with no NUL in any target each snapshot fits, so the events replay |
| RouteRuns.ReplacementIsLost | packages/verser2-guest-node/src/lib/http2-verser-broker.ts:780-781 | a run of two snapshots whose replay differs from the TypeScript table, and not from the Python one |
| RouteRuns.SeparatorAloneReplays | packages/verser2-guest-node/src/lib/http2-verser-broker.ts:780-781 | a run with a NUL in a target that replays |
| RouteRuns.TablesAgree | packages/verser2-guest-python/src/verser2_guest_python/broker.py:1470-1562 | TypeScript and Python hold the same routes after the same frames |
| RouteRuns.FirstSnapshotExactly | packages/verser2-guest-node/src/lib/http2-verser-broker.ts:776-813 | as a case of that, the first snapshot is announced completely if and only if its joined keys are distinct |
| RouteRuns.TextKeyInjective | packages/verser2-guest-node/src/lib/http2-verser-broker.ts:780-781 | joined keys are distinct when targets contain no NUL |
| RouteRuns.KeysCollide | packages/verser2-guest-node/src/lib/http2-verser-broker.ts:780-781 | two routes whose joined keys read the same |
| RouteRuns.ArrivalsAreAnswered | packages/verser2-guest-node/src/lib/http2-verser-broker.ts:888-896 | without degraded events no waiter outlives the arrival of its domain |
| RouteRuns.EventStrandsExactly | packages/verser2-guest-node/src/lib/http2-verser-broker.ts:833-862 | an event strands a waiter if and only if it is degraded and names the awaited domain |
| RouteSnapshot.RouteTable.HandleSnapshot | packages/verser2-guest-node/src/lib/http2-verser-broker.ts:776-813 | replace, answer waiters, announce what is gone and what is new |
| RouteSnapshot.RouteTable.HandleEvent | packages/verser2-guest-node/src/lib/http2-verser-broker.ts:831-879 | one lifecycle event |
| RouteSnapshot.RouteTable.ResolveWaiters | packages/verser2-guest-python/src/verser2_guest_python/broker.py:1744-1752 | exactly the waiters for present domains are answered; the Python Broker leaves the empty domain out |
| RouteLaws.EventExactly | packages/verser2-guest-node/src/lib/http2-verser-broker.ts:831-879 | an event adds its route unless it is there, or takes it out, and is emitted as it came |
| RouteLaws.AnnouncesExactly | packages/verser2-guest-node/src/lib/http2-verser-broker.ts:776-813 | a snapshot is announced by what is gone, then what is new: removed exactly the last route of each key that the snapshot lacks, added exactly what has a key the table lacked, in TypeScript the last of each key only |
| RouteLaws.SnapshotAnswersExactly | packages/verser2-guest-node/src/lib/http2-verser-broker.ts:888-896 | a snapshot answers exactly those who wait for a domain in it; the Python Broker leaves the empty domain waiting |
| RouteLaws.EventAnswersExactly | packages/verser2-guest-node/src/lib/http2-verser-broker.ts:833-862 | an added or changed route answers exactly those who wait for its domain, and no other event answers anybody |
| RouteLaws.AskingWaitsExactly | packages/verser2-guest-node/src/lib/http2-verser-broker.ts:165-174 | who asks for a domain waits exactly if the table has no route for it |
| Redirects.ReplayExactly | packages/verser2-guest-node/src/lib/http2-verser-broker.ts:481-568 | what is forwarded is the source up to its end, and the replay is the whole body if and only if the source ended by itself within the limit |
| Redirects.DecisionStays | packages/verser2-guest-node/src/lib/http2-verser-broker.ts:490-499 | the decision settles once |
| Redirects.StreamedBodyIsReplayed | packages/verser2-guest-node/src/lib/http2-verser-broker.ts:211-261 | at most one request more than redirects, each carrying the original bytes, and one only when the body cannot be replayed |
| Redirects.EveryHopCarriesTheBody | packages/verser2-guest-node/src/lib/http2-verser-broker.ts:211-261 | the same from any hop on |
| Redirects.FollowsExactly | packages/verser2-guest-node/src/lib/http2-verser-broker.ts:211-261 | a request ends at the first hop that does not go on, with the result that hop calls for |
| Redirects.EndIsUnique | packages/verser2-guest-node/src/lib/http2-verser-broker.ts:211-261 | there is one such result |
| Redirects.ResponsesAreReturnedOrDestroyed | packages/verser2-guest-node/src/lib/http2-verser-broker.ts:211-261 | every response is returned or destroyed, but for one left exactly when the caller aborts while the replay is awaited |
| Redirects.KeepChunks | packages/verser2-guest-node/src/lib/http2-verser-broker.ts:461-479 | a body of chunks is replayable exactly when it fits the limit |
| Redirects.ReplayableBody.OnData | packages/verser2-guest-node/src/lib/http2-verser-broker.ts:500-513 | a chunk is forwarded, and kept while everything fits |

## Left out

- TLS, certificates, HTTP/2 session set-up, registration, control streams and handshake timeouts: only the events they deliver appear.
- JSON text, URL parsing and domain normalization: abstract functions, with the laws a theorem needs stated in its `requires`.
- The connection without a window function in the Guest's `_send_data`: not modelled.
- CreditRuns.NormalReturnIsCleanExactly: assumes that a reset or end is the last event of its stream that carries data, and that the HTTP/2 library reports a closed stream only after one.
- CreditRuns.RejectedExactly: a failing send or a cancellation while the error reply of a rejection is awaited is not modelled; the reply is taken to go out.
- WindowedRuns.NobodySleepsThroughAnOpenWindow: excludes growth of a window by SETTINGS, see WindowedRuns.BatchStrandsExactly; loss of the connection, and a flush that fails once a waiter is registered, are not modelled.
- CreditRuns.RunKeepsInv: a cancellation that arrives during a shielded join is an action at the point where the join ends and the cancellation takes effect; waiting for the application after the credits are collected changes no credit and is not modelled.
- LeaseDispatch.Dispatch.StartReturning: the dictionaries keyed by credit identity are sequences in insertion order, which is the order in which they are iterated.
- Authorizer.FederatedRouteAuthorizer.AuthorizeHop: time is a number passed to each step; the promise plumbing between callers that share a decision is not modelled.
- Flooding.HandledAtMostOnce: for runs that clear no seen set; FloodClearing.HandledAgainExactly says what happens with those that do.
- Flooding.QuiescentIsComplete: a static graph with distinct Host identities; a closed link is an absent edge, and malformed or untagged frames do not occur.
- LeaseRuns.IdleIsNotActive: each lease is offered once, and the text keys of different leases differ.
- Candidates.RouteRemote: forwarding itself, and the details attached to the errors, are not modelled; a failure while listeners are attached is not either.
- ChunkedStream.Decoder.Accept: the output stream is the log of what is written to it; a write after its end is logged like any other, while Node would report an error.
- VwsLine.FrameParser.ProcessIncoming: malformed UTF-8 is not replaced by U+FFFD; a frame with wrong fields, which is a fault that does not stop the loop, counts as a frame.
- VwsCuts.CutsAgreeExactly: for bytes in which no newline stands inside a character, as in any UTF-8.
- VwsLine.SplitsAgree: speaks of framing faults; the fault of a full inbound queue does depend on the cut, see InboundQueue.QueueFaultsExactly.
- InboundQueue.QueueFaultsExactly: a paused stream gives no data; listeners that close the socket while they run are not modelled.
- SocketRuns.MessagesGoInOrder: relates early messages to early ones and later to later ones; across the two the order can differ on a Guest socket, exactly as SocketOrder.OvertakingExactly says.
- VwsSocket.Socket.AcceptIt: is asked once, as its only caller does.
- AsgiQueue.EventQueue.PutEvent: the frames the connection writes, and their number, are not modelled.
- ResponseHeaders.Response.WriteHead: writing the head to the wire is not part of this model.
- ResponseMetadata.PythonAgreesExactly: takes both languages to agree on JSON text, lower-casing and UTF-8 length; what a blank request identity is may differ between them.
- RouteRuns.TablesAgree: for frames both Brokers recognize; the Python Broker wants the type field of a snapshot, the TypeScript one does not.
- RouteSnapshot.RouteTable.WaitForRoute: cancellation of waiters when a Broker closes is not modelled.
- Redirects.StreamedBodyIsReplayed: a request that fails before its stream opens counts as sent; which responses are redirects is an answer of the environment.
- Degraded-route cleanup, hop and loop checks on imported routes, the Bun adapter, the native WebSocket wrapper, the Undici dispatcher and ASGI scope building: they would add event wiring or values only.
- Local-peer response headers and route state repeat what ResponseHeaders and RouteSnapshot model and have no members of their own.
