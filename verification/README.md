# block-scan: a verified model

block-scan follows a blockchain and hands the transactions of chosen contracts to callbacks. It talks
to nodes through a JSON-RPC client that multiplexes calls and subscriptions over one connection. This
project models the two parts where the program's promises span many steps, in Dafny 4.11, and proves
what holds over every run. `dafny verify dfyconfig.toml` checks the whole project.

**The connection engine (`util/rpc`).** One dispatch loop owns the table of pending requests, a write
lock made of two channels, the current connection and its reader. `Dispatch` models it as a step
system: one step is one case of a `select`, or one action of a calling goroutine (drawing an id,
offering a request, a write that succeeds or fails, a reconnect, reporting the write, timing out,
receiving). `SubscriptionTable` adds the subscriptions that dispatch starts and closes. `ClientEngine`
holds the same state changes as methods of a class, with the loops of the source, each proved to
compute its step; its `Dispatch` takes any run, so the theorems about runs are about the fields of the
class. Closing a handler ranges over its tables in no particular order. `ClientSubscription` and
`Notifications` are the two ends of a subscription, and `EndToEnd` puts them on a FIFO connection.
`Replies` says what reaches a caller. `BatchCall` and `Messages` cover batch calls and batch answers.

**The scanner (`scan`, `subscribe`).** `Scanner` is the polling producer, the bounded queue and the
consumer that puts entries back; `Backfill` is the windowed catch-up before subscribing;
`ReceiptDistribution` drops duplicate logs and makes callbacks. The chain is arbitrary: heads may be
zero, stall, fall or jump; receipts and block lookups may be missing.

`Quantity` covers the encodings of block numbers and subscription ids.

A run is a sequence of states joined by enabled steps, starting from a fresh state; the theorems are
about every state of every run. What the code relies on from outside is stated once, by name:

| assumption | in the model |
|---|---|
| E1: fewer than 2^32 ids are drawn from a client's 32-bit counter | `Dispatch.CounterInRange`, part of every run |
| E2: a request that is registered again on a new connection has had no answer yet | `Dispatch.ReregistersUntouched`, part of every run |
| E3: writing on a closed codec fails | `Dispatch.WriteRespectsClose`, only where `IsFailStopRun` is asked for |

Findings that go beyond the promises of the source:

- A request can be stranded: if the read error is taken after a write succeeded and before its
  success is reported, the request loses its table entries without being closed, and its caller waits
  for its own context. Under E3, `HandOver.ServedUnlessStranded` and `StrandedForever` show that this is
  the only way, and that it is permanent; `Necessity.StrandingHappens` is a run.
- E2 is implied by a peer that answers only what was written (`DispatchTheorems.PoliteRunIsRun`), but
  asks less: early answers do no harm by themselves. It is exactly what a reconnect needs to keep the
  channels safe (`DispatchTheorems.ReconnectKeepsIff`); `Necessity.EarlyAnswerOverflows` is a run that
  breaks it. Without E3 a call is lost: `Necessity.WriteAfterCloseLosesCall`.
- A call of `Subscribe` that gives up while dispatch handles its answer returns an error, but its
  subscription runs and is in clientSubs, held by nobody (`SubscriptionTable.OrphanHappens`).
  `SubscriptionTable.HeldOrOrphaned` says exactly when the caller holds it.
- `Notify` documents that an error closes the connection. The code does not close it, so a value whose
  write failed can be followed by one whose write succeeds (`Notifications.GapHappens`,
  `EndToEnd.GapReachesUser`), and notifications can follow an answer whose write failed
  (`EndToEnd.NotificationWithoutAnswer`). A value that does not encode is skipped as well
  (`Notifications.RefusalGaps`). The end-to-end theorems cover these runs:
  `EndToEnd.DeliveredInOrder` says exactly when the user's channel is free of gaps, `AnswerFirst` exactly
  when the answer comes before a notification.
- A server that gives one subscription id twice on a connection makes the client forget the first
  subscription, which is then never told of a lost connection. `SubscriptionTable.ClosedUnlessShadowed`
  shows that this is the only way; `ShadowingHappens` is a run.
- A restart begins after the stored block (`Scanner.RestartSkips`), so it misses nothing only if that
  block's transactions have all left as well. With receipts that carry their transaction's block, this
  holds exactly when each block is stored by the last transaction waiting of that block and those below
  (`Scanner.StoreRestartSafeIff`; over whole runs, `Scanner.RestartSafeIff`). It fails in ordinary runs
  without any put-back: `ScannerRuns.StoredBlockLosesRest` stores block 1 with its second transaction
  still queued.
- For the blocks below a stored one the condition is weaker: everything found below it has left exactly
  when no entry found below it is queued at that moment, however often entries were put back before
  (`Scanner.StoreSafeIff`; over whole runs, `Scanner.CheckpointSafeIff`). The stored block can later
  fall in exactly the other case (`ScannerRuns.FallIff`); `ScannerRuns.RequeueBreaksCheckpoint` is such a
  run. One put-back leaves everything in the order of finding exactly when the queue is empty
  (`Scanner.RequeueKeepsOrderIff`).
- The backfill pushes in no particular order and stores blocks as it goes. Everything below a block
  stored there has been decided exactly when it was all collected and nothing undecided below it waits
  (`Backfill.StoreSafeIff`, and with block lookups succeeding `Backfill.StoreSafeWithLookups`); a late
  receipt breaks it (`Backfill.LateReceiptUnsafe`).
- Producer and consumer are stuck for good exactly when both want to send and the queue is full
  (`Scanner.StuckIff`). One large block leads there (`ScannerRuns.RequeueDeadlocks`); many small blocks
  with late receipts fill the queue in the same way.
- The two loops of `ReceiptDistribution` can pass over a contract in two ways: its address reads like a
  log key (`UnderscoresHideAddress`), or its log is dropped because another contract's log has the same
  key (`SharedKeyHidesAddress`). `AllVisitedIff` says exactly when no contract is passed over,
  `TransparentIff` and `CallbacksIff` exactly when the order is kept too.
- Backfill decides exactly the transactions whose block time was known in some window
  (`Backfill.FilterLogs`), so a failed block lookup can lose one (`Backfill.LookupFailureLoses`).
- A block number below -2 is marshalled to text that does not read back
  (`Quantity.BlockNumberRoundTripIff`).

## Model

| member | source | states |
|---|---|---|
| DispatchInvariant.StepKeeps | util/rpc/client.go:540-617 | every step of dispatch, callers and readers keeps the invariant: ids owned, channels open while an entry exists, lock and reader consistent |
| DispatchInvariant.HandleRepliesKeeps | util/rpc/handler.go:263-287 | handling any list of responses, repeated or invented ones included, keeps every channel safe |
| DispatchInvariant.CancelAllKeeps | util/rpc/handler.go:174-189 | closing a handler closes each open channel at most once and spares the in-flight request |
| DispatchTheorems.ChannelSafety | util/rpc/client.go:540-617 | in every state of every run, no reply channel has been closed twice or written after closing, and lastOp was never nil when used |
| DispatchTheorems.RepliesFitBuffer | util/rpc/handler.go:263-273 | over a whole run a request gets at most one reply per id, so at most len(ids), whatever the peer sends |
| DispatchTheorems.DispatchNeverBlocks | util/rpc/handler.go:269-274 | each send made while handling a batch finds a free slot even if the caller has received nothing |
| DispatchTheorems.IdsNeverShared | util/rpc/client.go:237-240 | ids drawn by one client are pairwise distinct across and within requests |
| DispatchTheorems.SingleReader | util/rpc/client.go:556-594 | exactly one live reader while reading, of the current connection, and none otherwise; every message was handled by the handler of the connection it was read from |
| DispatchTheorems.WriteLock | util/rpc/client.go:480-493 | at most one sender holds the lock, lastOp is set exactly while it is held, reqSent holds at most one value and has room for it, a reconnect finds its sender in lastOp |
| DispatchTheorems.TimedOutStaysOut | util/rpc/client.go:136-150 | until the client quits, a request that timed out has no table entry and never gets one again |
| DispatchTheorems.NeverReregistered | util/rpc/client.go:577-614 | a request that timed out stays so and gains no table entry, before the client quits or after |
| DispatchTheorems.ReconnectKeepsIff | util/rpc/client.go:589-594 | a reconnect keeps the channels safe if and only if nothing was put on the sender's channel and it is open |
| DispatchTheorems.PoliteRunIsRun | util/rpc/client.go:540-617 | with a peer that answers only what was written, whatever the code does is a run, so every theorem holds |
| HandOver.ReconnectHandsOver | util/rpc/client.go:578-594 | after a reconnect the table holds exactly the sender's ids, its request is untouched, and every other pending request was closed exactly once with an error |
| HandOver.ServedUnlessStranded | util/rpc/client.go:572-575 | a written, unserved request has its table entry if and only if no read error fell between its write and the report of it |
| HandOver.StrandedForever | util/rpc/handler.go:174-189 | a request stranded by such a read error gets neither a reply nor a close for the rest of the run |
| HandOver.HandleRepliesServes | util/rpc/handler.go:263-287 | an entry goes only by answering or closing its request |
| Replies.ReplyReaches | util/rpc/handler.go:263-287 | a response changes only the request registered for its id: a call gets it unchanged, a subscribe request is closed with its error or with none; any other response changes nothing |
| Replies.Delivered | util/rpc/handler.go:269-274 | a response that finds its request is on the channel, at the next place, when its batch is handled |
| Replies.RepliesGenuine | util/rpc/handler.go:263-273 | over every run, each reply on a channel is a response that was read, with all it carries |
| Replies.TakenIsReceived | util/rpc/client.go:147-149 | a channel hands out one reply per receive |
| Replies.ClosedWithCause | util/rpc/handler.go:174-189 | a read error closes every pending request but the one in flight with that error, quitting while reading closes all of them with ErrClientQuit |
| Replies.RetriedOnce | util/rpc/client.go:495-516 | over every run a request is written at most twice |
| Replies.FailureRetries | util/rpc/client.go:495-516 | the first failed write is tried again on a new connection, the second fails the request |
| Replies.FailedLeavesNoEntry | util/rpc/client.go:603-611 | once the report of a failed write was taken, the request has no table entry |
| Replies.SenderNeverStuck | util/rpc/client.go:480-535 | in every reachable state the holder of the write lock, or dispatch, can take a step towards releasing it |
| Replies.PeerFree | util/rpc/client.go:559-575 | in every reachable state anything may be read, reading may fail and the client may be closed |
| Replies.CallerFree | util/rpc/client.go:136-150 | a waiting caller can take what came, see the close, or give up |
| Necessity.StrandingHappens | util/rpc/client.go:572-575 | a reachable state with a waiting caller whose request has no entry and no close |
| Necessity.EarlyAnswerOverflows | util/rpc/client.go:592-594 | a run leads to a reconnect that breaks E2, after which a one-slot channel gets two replies |
| Necessity.WriteAfterCloseLosesCall | util/rpc/client.go:578-594 | without E3 a reconnect drops a pending call unclosed |
| ClientEngine.Client.AddRequestOp | util/rpc/handler.go:160-164 | the loop maps every id of the request to it and keeps the other entries |
| ClientEngine.Client.RemoveRequestOp | util/rpc/handler.go:167-171 | the loop removes the request's ids and nothing else |
| ClientEngine.Client.CancelAllRequests | util/rpc/handler.go:174-194 | in whatever order the maps are ranged, both tables end empty, exactly the pending requests but the in-flight one are closed, and every subscription is, once each |
| ClientEngine.Client.HandleResponse | util/rpc/handler.go:263-287 | a response goes to the request registered for its id; an id for a subscribe request starts the subscription and enters it in clientSubs |
| ClientEngine.Client.HandleResponses | util/rpc/handler.go:105-111 | a batch of responses is handled in order |
| ClientEngine.Client.CloseConnection | util/rpc/client.go:119-122 | handler and codec are closed |
| ClientEngine.Client.Dispatch | util/rpc/client.go:540-617 | over any run the fields end as the run does, and the invariants behind the theorems hold of them |
| SubscriptionTable.SubsKept | util/rpc/handler.go:174-194 | every step keeps subscriptions accounted for and none is left when the connection is lost |
| SubscriptionTable.SubscriptionsAccounted | util/rpc/handler.go:275-287 | over every run a subscription was started for a request, once, exactly when its channel was closed without an error; what was started is in clientSubs, closed or overwritten, one of the three |
| SubscriptionTable.StartedByAnswer | util/rpc/handler.go:283-286 | a subscription runs under the id that a response to its own request carried |
| SubscriptionTable.HeldOrOrphaned | util/rpc/client.go:456-464 | once a call of Subscribe is over, its caller holds a subscription if and only if one was started and the call neither timed out nor failed; one that was started is held or orphaned |
| SubscriptionTable.OrphanHappens | util/rpc/client.go:136-150 | a run in which a call times out although its subscription was started and is in clientSubs |
| SubscriptionTable.ClosedUnlessShadowed | util/rpc/handler.go:190-193 | once the connection is lost or the client quits, a subscription has been closed exactly once if and only if its id was not given again while clientSubs held it |
| SubscriptionTable.ShadowingHappens | util/rpc/handler.go:283-286 | a run in which a granted subscription is not closed with its connection |
| ClientEngine.Client.OnReqInit | util/rpc/client.go:597-601 | is the ReqInit step |
| ClientEngine.Client.OnReqSent | util/rpc/client.go:603-611 | is the TakeSent step: a failed write deregisters lastOp, the lock is released |
| ClientEngine.Client.OnReadOp | util/rpc/client.go:565-570 | is the ReadOp step |
| ClientEngine.Client.OnReadErr | util/rpc/client.go:572-575 | is the ReadErr step |
| ClientEngine.Client.OnReconnected | util/rpc/client.go:578-594 | is the Reconnect step |
| ClientEngine.Client.OnReqTimeout | util/rpc/client.go:613-614 | is the Timeout step |
| ClientEngine.Client.OnClose | util/rpc/client.go:547-562 | is the Quit step |
| BatchCall.Collect | util/rpc/client.go:371-392 | returns without error exactly when every wait gave a response; then each element records what the one response with its own id says (its error, no result, a result that does not decode, or the decoded one), for every arrival order; an element set before a cancellation holds its own response too |
| BatchCall.IndexById | util/rpc/client.go:354-362 | byID is the inverse of the list of ids |
| BatchCall.RunFeedsCollect | util/rpc/client.go:371-392 | in every run a request's ids and replies are as Collect needs them, and len(ids) receives mean one reply for each id |
| ClientSubscription.StepKeeps | util/rpc/subscription.go:260-364 | every step of run, Unsubscribe, deliver and close keeps the queue's conservation and the shutdown order |
| ClientSubscription.ShutdownSafe | util/rpc/subscription.go:260-314 | forwardDone, unsubDone and err are closed at most once, err gets at most one value and none after closing, the buffer never exceeds 20000 and overflow is reported only at 20000 |
| ClientSubscription.EndsProperly | util/rpc/subscription.go:291-314 | once run is through, the server was told, once, exactly when forwarding ended by the user or by a bad value, not by the dispatcher, and sub.err got exactly the error of that ending, with ErrClientQuit as nil |
| ClientSubscription.ForwardEnds | util/rpc/subscription.go:318-364 | the loop ends exactly at a quit, at a value that does not decode or at one that comes while 20000 are queued, and returns the flag and error that belong to it |
| ClientSubscription.Offers | util/rpc/subscription.go:318-364 | each case of the select can be taken that its peer offers |
| ClientSubscription.DispatcherNeverStuck | util/rpc/subscription.go:272-298 | whatever the user's channel does, a dispatcher in deliver or close can proceed now or after one step that run takes alone |
| ClientSubscription.ForwardLoop | util/rpc/subscription.go:318-364 | the loop over any sequence of select choices ends with the queue and output of the step functions; it returns exactly at the choice that stops it, telling the server unless the dispatcher quit, with the error that belongs to that choice |
| ClientSubscription.ForwardConserves | util/rpc/subscription.go:318-364 | what was sent followed by what is queued is, in order, what was taken in |
| Notifications.StepKeeps | util/rpc/subscription.go:123-183 | every step of the server end keeps buffered, written and missed values accounted for |
| Notifications.GapFreeIff | util/rpc/subscription.go:121-142 | written notifications are always in order without repeats, and a prefix of the notified ones if and only if none was written that came after one that did not encode or whose direct write failed |
| Notifications.FollowsIff | util/rpc/subscription.go:137-142 | a beginning of what was written is one of what was notified exactly when it stops before the first value missed |
| Notifications.NotifiedIsPassed | util/rpc/subscription.go:123-142 | the notified values are exactly those passed to Notify, in order |
| Notifications.ActivateAllMeans | util/rpc/subscription.go:162-173 | activate writes the buffered values in order up to the one whose write fails |
| Notifications.Offers | util/rpc/subscription.go:108-173 | nothing that the callback, the handler or Notify can do is ruled out |
| Notifications.WrittenOrMissed | util/rpc/subscription.go:123-142 | nothing is invented, and once active each value was written, or did not encode, or its write failed |
| Notifications.RefusalGaps | util/rpc/subscription.go:124-127 | a run in which a value that does not encode is skipped although no write failed |
| Notifications.GapHappens | util/rpc/subscription.go:121-142 | a run with a failed Notify followed by a successful one |
| Notifications.AnswerLostHappens | util/rpc/handler.go:141-146 | a run with a failed answer followed by a written notification |
| Notifications.Notifier.CreateSubscription | util/rpc/subscription.go:108-119 | succeeds exactly when there is no subscription yet and the call has not returned |
| Notifications.Notifier.TakeSubscription | util/rpc/subscription.go:152-157 | is the Return step |
| Notifications.Notifier.Notify | util/rpc/subscription.go:123-142 | is the Notify step: refused if it does not encode, else buffered before activation and written after it |
| Notifications.Notifier.Activate | util/rpc/subscription.go:162-173 | sends the buffer in order up to the first failing write, and activates only if none fails |
| EndToEnd.StepKeeps | util/rpc/handler.go:134-148 | every step of server, wire, dispatcher and subscription keeps the end-to-end invariant |
| EndToEnd.DeliveredInOrder | util/rpc/subscription.go:123-183 | in every interleaving, whatever writes fail, the user's channel gets a prefix of what was written, in order and without repeats; it is a prefix of the values passed to Notify if and only if it stops before the first value that did not encode or whose direct write failed |
| EndToEnd.NothingLostOnTheWay | util/rpc/subscription.go:318-364 | while the subscription runs, what the server wrote is what was received, queued, held and in flight, in that order; once active it is everything notified exactly when every value encoded and no direct write failed |
| EndToEnd.AnswerFirst | util/rpc/handler.go:251-287 | a notification is handled after the answer to its subscribe call if and only if the answer's write succeeded; it finds its id in clientSubs unless the caller gave up, and is dropped if the answer was lost |
| EndToEnd.OnlyToSubscribers | util/rpc/handler.go:257-259 | nothing is delivered before the answer was handled and clientSubs held the id |
| EndToEnd.DisconnectTells | util/rpc/handler.go:190-193 | when the connection of a subscription is lost the dispatcher tells it, with the error, and leaves only when forwarding is over |
| EndToEnd.GivenUpStays | util/rpc/client.go:136-150 | a caller that gave up before the answer came gets no subscription any more |
| EndToEnd.Offers | util/rpc/handler.go:232-260 | what is in flight can be handled while the connection lasts, and it can be lost at any such moment |
| EndToEnd.NotificationWithoutAnswer | util/rpc/handler.go:141-146 | a run in which a notification is handled while the answer, whose write failed, is still awaited |
| EndToEnd.GapReachesUser | util/rpc/subscription.go:121-142 | a run in which the user's channel skips a value |
| Messages.HandleBatch | util/rpc/handler.go:96-131 | the two loops write what BatchReply says |
| Messages.OneAnswerEach | util/rpc/handler.go:290-316 | exactly one answer per message that is neither notification nor response, in order, with its id or null, and what the call yielded |
| Messages.BatchAnswered | util/rpc/handler.go:96-131 | an empty batch gets one error, a batch without requests nothing, any other the array of answers |
| Messages.MessageAnswered | util/rpc/handler.go:134-148 | a single message is answered exactly when it is neither notification nor response |
| Messages.RunsIff | util/rpc/handler.go:232-248 | methods are run exactly for calls and for notifications other than those of subscriptions |
| Messages.NoReplyToBatchReply | util/rpc/handler.go:96-131 | a peer writes nothing in reaction to what a handler writes for a batch |
| Messages.NoReplyToReply | util/rpc/handler.go:134-148 | the same for a single message |
| Messages.NoReplyToUnsolicited | util/rpc/subscription.go:175-183 | the same for notifications and parse errors |
| Messages.AnswerAbsorbed | util/rpc/json.go:60-123 | every answer is classified as a response by the peer |
| Scanner.CoveredKept | scan/scan.go:126-162 | every step keeps the filtered blocks consecutive from the start block |
| Scanner.PollingCoverage | scan/scan.go:126-162 | between rounds the blocks filtered are start+1 up to the larger of start and the highest head, once each and in order, for any heads below 2^64-1 |
| Scanner.StartKept | scan/scan.go:137-145 | the first head that the node gives fixes the start, at the stored block or else the configured one, for the whole run; the first block filtered is the one after it |
| Scanner.FilterFinds | scan/scan.go:145-158 | a filtered block adds its transactions, in order, with that block and their places |
| Scanner.StoredIsDistributed | scan/scan.go:109-113 | with true receipts, what is stored is exactly the blocks of the entries distributed, in order |
| Scanner.Offers | scan/scan.go:93-162 | the chain may give any head, any transactions and any fate of an entry |
| Scanner.Poll | scan/scan.go:126-162 | the producer's loops filter exactly that range |
| Scanner.QueueConserves | scan/scan.go:93-116 | everything found is unsent, queued, in hand or gone, as multisets; no entry leaves twice |
| Scanner.RequeueKeepsOrderIff | scan/scan.go:105-108 | in a state where all is in the order of finding, one put-back keeps it so if and only if nothing else is queued |
| Scanner.CheckpointSafe | scan/scan.go:98-113 | if entries are put back only into an empty queue, entries leave in block order then in-block order, stored blocks never decrease, and everything found below a stored block has left for good |
| Scanner.SafeAtIff | scan/scan.go:93-116 | in every run and for any block, everything found below it has left if and only if nothing below it is held, queued or unsent |
| Scanner.StoreSafeIff | scan/scan.go:105-113 | in every run, everything found below a stored block has left if and only if nothing queued was found below it |
| Scanner.StoreRestartSafeIff | scan/scan.go:110-113 | in every run, a restart from the block just stored misses nothing if and only if nothing of that block or below is queued or unsent |
| Scanner.RestartSafeIff | scan/scan.go:98-145 | over any run with true receipts, no restart at any moment misses a transaction, from the block stored last or any earlier one, if and only if every store finds nothing of its block or below waiting |
| Scanner.RestartSkips | scan/scan.go:137-145 | a process that starts with a stored block never finds a transaction of that block or below |
| ScannerRuns.StoredBlockLosesRest | scan/scan.go:98-113 | a run without put-backs that stores block 1 while its second transaction is queued |
| Scanner.CheckpointSafeIff | scan/scan.go:98-113 | over any run with true receipts, everything found below a stored block has left, when it is stored and ever after, if and only if no lower entry is queued at a store; stored blocks then never fall |
| Scanner.StuckIff | scan/scan.go:105-108 | in every reachable state, no step is possible if and only if producer and consumer both want to send on the full queue |
| ScannerRuns.FallIff | scan/scan.go:105-113 | after a block was stored, the run can go on to store a lower one if and only if a lower entry is queued |
| ScannerRuns.RequeueBreaksCheckpoint | scan/scan.go:105-113 | a run that stores block 2 with an entry of block 1 still queued, and then stores block 1 |
| ScannerRuns.RequeueDeadlocks | scan/scan.go:105-108 | for every block with two transactions more than the queue holds, a run that ends stuck |
| Backfill.Collect | subscribe/subscribe.go:107-131 | the pending map gains exactly the transactions whose block time is known |
| Backfill.Push | subscribe/subscribe.go:62-83 | in any map order, each pending transaction with a receipt is decided once and removed, the others stay; it panics exactly when the receipt query of a pending transaction fails; each decision is recorded with its block and what is still pending |
| Backfill.WalkWindows | subscribe/subscribe.go:85-135 | the window loop visits the chained windows and keeps decisions and pending transactions tallied, up to a panic |
| Backfill.FilterLogs | subscribe/subscribe.go:85-139 | no transaction is decided more often than windows cover its block, even if a panic cuts it short; on return the windows reach a head that the node gave, the decided ones are exactly those whose block time was known in some window, and with block lookups succeeding every transaction between start and the last window's end was decided once or twice, twice only on a window boundary, and no other was; at each decision, what was collected by then is pending or decided |
| Backfill.RoundEffect | subscribe/subscribe.go:85-105 | a round without a head or with a failed query changes nothing, a head at or below the walk ends it, any other adds the window to the nearer of the head and 500 blocks on |
| Backfill.WalkCaughtUp | subscribe/subscribe.go:91-93 | the window loop ends if and only if in some round the head was no further than the walk had come |
| Backfill.ReachedHead | subscribe/subscribe.go:91-93 | when it ends, a head that the node gave lies within the windows |
| Backfill.TimedMeans | subscribe/subscribe.go:111-131 | a transaction is collected exactly when its block was looked up for one of its logs or for an earlier one of the block |
| Backfill.Drain | subscribe/subscribe.go:136-138 | the pushes after the loop keep the tally, end with nothing pending, and go on only while a transaction has had no receipt in any of them |
| Backfill.StoreSafeIff | subscribe/subscribe.go:77-80 | everything below a block stored by push was decided if and only if it was all collected and nothing undecided below it waits |
| Backfill.StoreSafeWithLookups | subscribe/subscribe.go:62-83 | with block lookups succeeding, if and only if nothing undecided below it waits |
| Backfill.LateReceiptUnsafe | subscribe/subscribe.go:74-80 | with a late receipt, every push stores a block above an undecided transaction |
| Backfill.ChainedCoverage | subscribe/subscribe.go:85-100 | windows cover every block of their range once and shared boundaries twice |
| Backfill.BackfillCoverage | subscribe/subscribe.go:85-139 | the same coverage for any tally with nothing pending |
| Backfill.LookupFailureLoses | subscribe/subscribe.go:113-120 | one failed block lookup and the transaction is never decided |
| ReceiptDistribution.Distribute | scan/scan.go:41-85 | overwrites the logs with the de-duplicated ones and makes the callbacks of the visited addresses |
| ReceiptDistribution.AddressMeans | scan/scan.go:67-72 | logs count for one contract exactly when their addresses agree up to case, and it is looked up by the address without capitals |
| ReceiptDistribution.FoldIff | scan/scan.go:73-75 | texts fold alike exactly when they agree letter by letter up to case |
| ReceiptDistribution.VisitedApart | scan/scan.go:66-71 | no two visited addresses agree up to case |
| ReceiptDistribution.CallbackMeans | scan/scan.go:72-81 | the callback is the first prefix that agrees with the configured name up to case, and none exactly when there is no name or no such prefix |
| ReceiptDistribution.DropDuplicates | scan/scan.go:42-53 | the first loop computes the logs kept and the set of keys |
| ReceiptDistribution.MakeCallbacks | scan/scan.go:66-83 | the second loop makes one callback per visited address, in order |
| ReceiptDistribution.Lookup | scan/scan.go:72-81 | the innermost loop finds the first prefix equal to the contract name up to case |
| ReceiptDistribution.DedupKeepsFirsts | scan/scan.go:45-53 | the logs kept are exactly the first of each key, in order |
| ReceiptDistribution.DedupIdempotent | scan/scan.go:45-58 | distributing again drops nothing more |
| ReceiptDistribution.OnlyTrueDuplicatesDropped | scan/scan.go:46-50 | for underscore-free address and data and topics of one width, keys are equal exactly when the logs are equal up to address case |
| ReceiptDistribution.DedupKeepsAddressesIff | scan/scan.go:45-53 | de-duplication keeps the distinct addresses in order of first occurrence if and only if every address has a kept log in its turn |
| ReceiptDistribution.AllVisitedIff | scan/scan.go:66-71 | no address is passed over if and only if no address equals a log key and every address has a kept log |
| ReceiptDistribution.TransparentIff | scan/scan.go:66-71 | the visited addresses are each distinct lowercased address once, in order, if and only if no address equals a log key and every address is kept in its turn |
| ReceiptDistribution.CallbacksIff | scan/scan.go:66-83 | the callbacks are those of each distinct address once, in order, under every configuration, if and only if the same condition holds |
| ReceiptDistribution.CallbacksOncePerAddress | scan/scan.go:41-85 | for underscore-free addresses the callbacks are those of each distinct lowercased address of the raw logs, in order of first occurrence |
| ReceiptDistribution.UnderscoresHideAddress | scan/scan.go:66-71 | two logs for which an address that reads like a key gets no callback |
| ReceiptDistribution.SharedKeyHidesAddress | scan/scan.go:46-50 | two logs with one key for which the second address gets no callback, although no address is a key |
| Quantity.BlockNumberRoundTripIff | util/rpc/types.go:75-118 | for every int64, quoted or not, UnmarshalJSON undoes MarshalText if and only if the number is at least -2 |
| Quantity.DecodeEncode | util/rpc/types.go:98-118 | decoding an encoded quantity gives it back below 2^64 and a range error above |
| Quantity.DecodeMeans | util/rpc/types.go:98-104 | for any text: a quantity is 0x or 0X and hexadecimal digits without leading zeros, below 2^64, and each error has its own fault |
| Quantity.TagTexts | util/rpc/types.go:81-91 | the three tags, in both directions |
| Quantity.PaddingIgnored | util/rpc/types.go:76-79 | white space around a block number changes nothing |
| Quantity.BlockNumber.UnmarshalJSON | util/rpc/types.go:75-104 | writes the parsed number through the receiver, and leaves it alone on error |
| Quantity.EncodeIdIsQuantity | util/rpc/subscription.go:74-81 | an id is the shortest hexadecimal form of the bytes' big-endian value |
| Quantity.EncodeIdInjective | util/rpc/subscription.go:74-81 | byte strings of one length get equal ids only if they are equal |

## Left out

- HTTP, websocket, IPC, stdio and in-process transports, timers and origin checks: I/O. The HTTP batch path bypasses dispatch, so BatchCall does not cover it.
- `Server.Stop` and `ServeCodec`: the code does not decide whether a codec added during Stop is closed.
- Service registry, argument parsing and reflection: a called method is an arbitrary result or error.
- JSON text: messages are records; encoding omits empty fields and otherwise preserves them.
- Blocking inside dispatch other than on a reply (waiting for call goroutines when a handler closes) is not modelled; a dispatcher step is atomic.
- Liveness of the network: nothing says that a peer answers or a read ends.
- `EndToEnd` follows one subscription id next to arbitrary other traffic; `SubscriptionTable` follows all of them, without their notifications.
- ClientEngine.Client.CloseConnection: waiting for call goroutines and cancelling the subscriptions that this side serves are not modelled.
- ClientEngine.Client.OnReadOp: handles the responses of a batch; its calls and notifications are in Messages and EndToEnd.
- `FilterBlock.Do`, the worker queue and reflective callbacks: a callback is an entry in a list.
- The live phase of `Subscribe.WipeBlock`: wall-clock time and foreign subscriptions; no claim about the hand-over from backfill to live.
- `RunBeforePushMiddleware`, `StartScanChainEvents`, environment variables, metrics, logging, `TryReturn`: easy or process-level. Metrics are taken to be set.
- Backfill.FilterLogs: block numbers stay below 2^63, where the conversion to int64 is exact. Receipts carry the block of their transaction.
- Scanner.Poll: with a head of 2^64-1 the source's inner loop would not end; heads below it are covered.
- ReceiptDistribution.Distribute: ToLower and EqualFold are modelled on ASCII text.
