# SimpleBank, verified

SimpleBank is a small bank: accounts, transfers between them, notifications about
them, and a browser client that keeps up with both. This project models the parts of
it where several things happen at once, and proves what they keep.

- **The transfer ledger** (`schema`, `serial`, `store`, `protocol`, `protocol_inv`,
  `serial_order`, `ledger_theorems`, `guarantees`, `books`, `transfer_meaning`, `progress`). `Serial.Transact`
  is one transfer run alone; `LedgerStore.Store` is the same transfer as a sequence of
  statements on tables updated in place; `Protocol` runs any number of transfers
  statement by statement, on a READ COMMITTED database with row locks in id order,
  a lock table, private uncommitted writes, cancellations and account openings. Every
  run is shown to be a serial one, with the books, the limit and the idempotency that
  follow, and no run can get stuck.
- **Live delivery** (`event_stream`, `sse_parser`, `hub`, `delivery`, `stream_end`). A whole-text
  specification of event streams (lines as in section 9.2.5, fields as in section 9.2.6
  of the WHATWG HTML Standard, with a pending event dispatched at the end), the
  incremental parser, the bounded hub, the frame writer, and the chain of the three, up to
  a stream that ends anywhere.
- **Notification history** (`paging`). Keyset pages over a table that grows between
  them, and read marks.
- **The browser's notification store** (`client_store`, `client_runs`, `client_inv`,
  `client_window`, `client_order`, `client_reads`, `client_settled`, `client_rest`,
  `client_reach`, `client_toasts`, `client_followup`, `client_meaning`). Each stretch of code between two
  awaits is one step of a machine that interleaves reconciliations, pagination,
  mutations, stream events, resets and sign-ins with an abstract server. The end of the
  reconcile loop and its `.finally` clean-up are separate steps.
- **Sign-in and accounts in the browser** (`auth_store`, `auth_runs`, `auth_meaning`).
- **Refresh sessions** (`sessions`), **the database listener** (`listener`), **exact
  decimal amounts** (`money`).

Where a class is given, its fields are updated in place as in the program and every
method is proved equal to a function of the old state; the theorems are about those
functions, over all runs. What an operation leaves in each field is stated besides in
those fields, and what a step of a run can do is stated from its outcomes: when it can be
taken, and for each outcome exactly when it is the one.

## What turned out not to hold

Five expectations about the program are false in some run. For each there is a lemma
that gives the run, or the input, and a theorem that says for every run exactly when the
expectation holds.

- `Stop` of the listener can return nil while a connection is open: the Start it waited
  for fails, another Start connects, and only then does Stop return
  (`Listening.StopNilWithOpenConnection`). After Stop returned nil a connection is or comes
  to be open, without a further Start, if and only if a Start that was accepted after Stop
  looked is not on its way out; so nil means closed when none was accepted in between
  (`Listening.StopNilExactly`).
- `markRead` can resolve for a row that is shown unread afterwards. It returns at once when
  the row is shown as read, even if only because a `markAllRead` is under way that then
  fails (`ClientReads.UnconfirmedMarkIsUndone`, `ClientReads.MarkReadReturnsEarly`); and it
  sends nothing when its turn comes and a refresh has pushed the row out of the window
  meanwhile (`ClientReach.PushedOutBeforeItsTurn`). `ClientReach.MarkReadExactly` covers
  every way to resolve: after a request that succeeded, no later state of the session shows
  the row unread; at a guard that saw the row as read, if and only if no mutation under way
  would undo that; at a guard that saw no such row, if and only if the row was also read on
  the server and no answer that might still be applied held it unread.
  `ClientReach.StaysReadExactly` says the same of any state and any row.
- An invalidation that arrives after the reconcile loop has ended and before its `.finally`
  is dropped (`ClientFollowUp.GapDrops` in every such state, `ClientFollowUp.LostInTheGap`
  for a run that gets there). The session cannot come to rest without a refresh having begun
  since the invalidation, if and only if it did not arrive there
  (`ClientFollowUp.HonouredExactly`).
- One signed-in user can replace another within one auth generation, when a login is
  answered while somebody is already signed in (`AuthRuns.UserSwaps`), and in no other
  way (`AuthRuns.UserSwapsExactly`).
- A stream can dispatch part of an id when it ends (`Delivery.CutFrameDispatchesHalfAnId`).
  What has been delivered at the end is an in-order part of what was published if and only
  if the end does not fall where the `data` of a frame's data line has arrived and the whole
  of that line has not (`StreamEnd.EndsCleanExactly`, with the four edges in
  `StreamEnd.EdgesOfAFrame`). Before the end only whole ids are delivered
  (`Delivery.DeliveredInOrder`).

A comment in `frontend/src/lib/stores/notifications.svelte.ts:176` says that a queued
page is never sent with an old cursor. The code waits for one reconciliation and does not
look whether another has begun meanwhile; the model follows the code.

## Modelling decisions

- Ids, digests and generations are natural numbers. The id of a transfer is the number of
  its call; account ids carry the total order the locks are taken in. Digests of different
  tokens differ. Times are integers.
- `transfers.created_at` is the start of the transaction that inserted the row, and the
  limit is checked at the clock its statement reads
  (`internal/db/migrations/00001_init_schema.sql`). Idempotency is unique on source and key
  (`internal/db/migrations/00003_scope_transfer_idempotency.sql`).
- The API's own checks are preconditions of a transfer: two different accounts and an
  amount of at least 1 (`internal/api/transfer.go:19`, `:35`, `:53`).
- PostgreSQL is taken at its contract: each statement reads the latest commit and the
  transaction's own writes, row locks are exclusive and held to the end.
- Amounts and sums are unbounded integers; where the program computes in 64 bits or in
  doubles, a lemma shows that no operand leaves the exact range.

## Model

| member | source | states |
|---|---|---|
| Schema.FindTransferUnique | internal/db/sqlc/transfers.sql.go:46-70 | in a sound ledger the lookup by source and key finds the one transfer that has them |
| Serial.DailyLimitTestExact | internal/db/transfer_tx.go:78-86 | the comparison on the capped sum decides exactly whether sum plus amount passes the limit, without leaving 64 bits |
| Serial.CreatedIsPosting | internal/db/transfer_tx.go:69-160 | a new transfer is possible only between two rows that can take it, and its whole effect is one posting |
| Serial.CreatedMeans | internal/db/transfer_tx.go:88-160 | every field of the rows a transfer leaves: its row stamped with the start of its transaction, both accounts, two entries, two notifications, two messages |
| Serial.TransactKeepsLedger | internal/db/transfer_tx.go:38-177 | every transfer, whatever it answers, keeps balances equal to entry sums within bounds and every row consistent |
| Serial.TransactConserves | internal/db/transfer_tx.go:113-129 | the total of every currency is the same before and after |
| Serial.RetryReplays | internal/db/transfer_tx.go:61-68 | after a transfer was created, the same parameters are answered with it in any later ledger and change nothing |
| Serial.ReusedKeyMovesNothing | internal/db/transfer_tx.go:228-233 | a used key with other terms is a conflict and changes nothing |
| Serial.OpenKeepsLedger | internal/db/account_tx.go:11-30 | opening an account keeps the ledger invariant, whether or not it succeeds |
| Serial.OpenMeans | internal/db/account_tx.go:11-30 | an account is opened exactly when its balance is in range, its id is new and its owner has none in its currency, and starts with one entry for a balance that is not 0 |
| LedgerStore.Store.GetTransferBySourceAndIdempotencyKey | internal/db/sqlc/transfers.sql.go:58-70 | the row scan finds what the table holds for source and key |
| LedgerStore.Store.LockAccounts | internal/db/transfer_tx.go:182-203 | both rows, in the caller's order whichever was locked first, or a missing row |
| LedgerStore.Store.SumOutgoingTransfersSince | internal/db/sqlc/transfers.sql.go:112-124 | the loop computes the capped 24 hour sum |
| LedgerStore.Store.AddAccountBalance | internal/db/sqlc/accounts.sql.go:14-38 | the guarded update changes one balance within bounds or nothing |
| LedgerStore.Store.ReplayTransfer | internal/db/transfer_tx.go:209-224 | a stored transfer is replayed only on the terms it was made on |
| LedgerStore.Store.Post | internal/db/transfer_tx.go:88-160 | statement by statement: either the whole posting, or insufficient balance exactly when the source is short |
| LedgerStore.Store.TransferTx | internal/db/transfer_tx.go:38-177 | the imperative transaction leaves the tables and the answer of the serial transfer, the row stamped with its start, with nothing half done on an error |
| LedgerStore.Store.CreateAccountTx | internal/db/account_tx.go:11-30 | the opening transaction leaves the tables of the serial opening, or the old ones and its error |
| ProtocolInv.RunInv | internal/db/transfer_tx.go:38-177 | in every run of concurrent transfers the locks, private writes, histories and decisions stay consistent |
| SerialOrder.ConcurrentRefinesSerial | internal/db/transfer_tx.go:38-177 | every run has a serial order of its answered calls, each once, that ends in the same tables with the same outcome for each |
| LedgerTheorems.RunContinues | internal/db/transfer_tx.go:38-177 | a finished call keeps its outcome and committed states are never taken back |
| LedgerTheorems.SerialOrderRespectsRealTime | internal/db/transfer_tx.go:38-177 | a call answered before another was submitted comes before it in the serial order |
| Guarantees.OneTransferPerKey | internal/db/transfer_tx.go:41-68 | all calls that succeed with one source and key return one transfer, and one of them at most created it |
| Guarantees.AnswerIsCommitted | internal/db/transfer_tx.go:235-239 | an answer is a committed transfer on the terms asked for |
| Guarantees.CommittedRowsExact | internal/db/transfer_tx.go:88-160 | each committed transfer has no twin for its key and exactly two notifications, sent and received |
| Guarantees.EntriesExact | internal/db/transfer_tx.go:98-111 | in every reachable state transfers and entries are, commit by commit, exactly those of the calls that created a transfer and of the funded openings |
| Guarantees.EntriesOfTransfer | internal/db/transfer_tx.go:98-111 | among them each committed transfer has two entries in a row: its amount taken from its source and given to its destination |
| Guarantees.LateRetryReplays | internal/db/transfer_tx.go:59-68 | once a transfer is committed, every undecided call that asks for it ends with it, wherever it stood and whatever the limit |
| Books.RollingLimitHolds | internal/db/transfer_tx.go:78-86 | with one positive limit for an account, what it sent in the 24 hours before the clock never passes the limit |
| Books.InsufficientBalanceExactly | internal/db/transfer_tx.go:113-122 | insufficient balance is answered exactly when all other checks pass and the balance is short; a uniqueness error never |
| Books.LockedWritesSucceed | internal/db/transfer_tx.go:88-129 | under its locks the insert meets no row with its key and the credit's guard never fails |
| Books.BooksBalance | internal/db/transfer_tx.go:88-160 | in every committed state balances equal entry sums, and each currency totals what its accounts opened with |
| Books.NotificationsTellRunningBalance | internal/db/sqlc/notifications.sql.go:28-39 | each notification carries its account's entry sum at the commit that posted it |
| TransferMeaning.TransactAnswers | internal/db/transfer_tx.go:41-122 | each answer exactly when it fits the tables: a replay or conflict under a used key, else the first check that fails, else a transfer |
| TransferMeaning.AnsweredExactly | internal/db/transfer_tx.go:38-177 | in every run each answered call got the one answer that fits the committed tables it was decided on and what the calls committed by then had sent in the window |
| TransferMeaning.StampedAtBegin | internal/db/migrations/00001_init_schema.sql:40-47 | every committed transfer carries the terms of its call and the clock of the step at which that call began its transaction |
| TransferMeaning.BeginStamps | internal/db/migrations/00001_init_schema.sql:40-47 | no other step of a call counts as its beginning |
| TransferMeaning.CheckedAt | internal/db/transfer_tx.go:78-86 | the clock the limit was checked at is that of the step that checked it |
| TransferMeaning.CreatedIsCounted | internal/db/sqlc/transfers.sql.go:112-116 | a created transfer adds exactly its amount to what its source has sent in every window that reaches back to its start, and nothing elsewhere |
| TransferMeaning.SecondIsOverLimit | internal/db/transfer_tx.go:78-86 | a second transfer within 24 hours that is wrong only in taking the sum past the limit is refused for the limit |
| TransferMeaning.SentWithinLimit | internal/db/transfer_tx.go:78-86 | with one positive limit, the calls that began in the 24 hours before the clock have sent at most that much |
| TransferMeaning.NotifiedMeans | internal/db/sqlc/notifications.sql.go:28-39 | a notification is written exactly for an account in the part it has in the transfer, with its owner, amount, currency and balance |
| TransferMeaning.CancelMoves | internal/db/transfer_tx.go:50-177 | a call can be given up until it is decided, and then commits nothing |
| TransferMeaning.ArrivalMoves | internal/api/transfer.go:19-53 | a call is taken exactly on admissible terms, and openings and time are always possible |
| Progress.WaitingGoesUp | internal/db/transfer_tx.go:179-203 | who holds a lock that is waited for is unfinished, and waits only for a larger id |
| Progress.SomeoneCanStep | internal/db/transfer_tx.go:179-203 | while a call is unfinished some call can step: there is no deadlock |
| Progress.WorkBounded | internal/db/transfer_tx.go:38-177 | however scheduled, the calls submitted take a bounded number of steps |
| Progress.EveryCallCanFinish | internal/db/transfer_tx.go:38-177 | from every state some schedule of that length finishes every call |
| EventStream.FoldIsBlocks | frontend/src/lib/api/sse.ts:29-67 | processing line by line gives the events of the blocks between blank lines |
| EventStream.CompleteLinesSettled | frontend/src/lib/api/sse.ts:69-83 | the lines of a text are those complete so far and those of the held-back rest with what follows |
| EventStream.DispatchedStays | frontend/src/lib/api/sse.ts:29-41 | what has been dispatched stays dispatched, whatever follows |
| EventStream.EndAddsAtMostOne | frontend/src/lib/api/sse.ts:101-106 | the end of the stream dispatches at most one more event |
| EventStream.LinesMean | frontend/src/lib/api/sse.ts:69-83 | a line ends at LF, at CRLF as one end, or at a CR that no LF follows; a last line needs no end |
| EventStream.FieldMeans | frontend/src/lib/api/sse.ts:50-57 | a field is what stands before and after the first colon, less one space |
| EventStream.BlockMeans | frontend/src/lib/api/sse.ts:29-67 | a block of fields is its event: type or "message", data lines joined by LF, id; none without data |
| SseParser.EventStreamParser.DispatchPending | frontend/src/lib/api/sse.ts:29-41 | the pending event goes out once, and the aborting callback aborts |
| SseParser.EventStreamParser.ProcessLine | frontend/src/lib/api/sse.ts:43-67 | one line moves the fields as the line fold says, unless the signal is aborted |
| SseParser.EventStreamParser.NextLine | frontend/src/lib/api/sse.ts:71-81 | cuts the first line at CRLF, LF or CR, and holds back a final CR that may be half a CRLF |
| SseParser.EventStreamParser.ProcessBuffer | frontend/src/lib/api/sse.ts:69-89 | processes all complete lines of the buffer and keeps the rest |
| SseParser.EventStreamParser.Consume | frontend/src/lib/api/sse.ts:7-114 | for every text, every cut into chunks and every abort, one before the call included, the callbacks are exactly those of the whole-text specification up to the abort |
| SseParser.AbortedByCallback | frontend/src/lib/api/sse.ts:23-27 | after a callback that aborts no other is made |
| Hub.NotificationHub.Subscribe | internal/notification/hub.go:22-31 | adds an empty queue under a new number |
| Hub.NotificationHub.Unsubscribe | internal/notification/hub.go:33-42 | removes one queue, and the owner with the last one |
| Hub.NotificationHub.Publish | internal/notification/hub.go:45-55 | offers the id to each of the owner's queues, never waiting, dropping where full |
| Hub.NotificationHub.Receive | internal/api/notification.go:91-92 | takes the head of the queue |
| Hub.SubscribeOpens | internal/notification/hub.go:22-31 | a new subscription has a number nobody has had, an empty queue, and leaves every other as it was |
| Hub.UnsubscribeCloses | internal/notification/hub.go:33-42 | the subscription is gone, every other is as it was, and an owner without any is not kept |
| Hub.ClosedForGood | internal/notification/hub.go:33-42 | a subscription that was given up never comes back and never gets anything |
| Hub.PublishOffers | internal/notification/hub.go:45-55 | the id goes to the end of each queue of the owner that holds fewer than 16, and nowhere else |
| Hub.ReceiveTakes | internal/api/notification.go:91-92 | the stream gets the head of its own queue, and nothing else changes |
| Hub.HubIsBounded | internal/notification/hub.go:22-55 | in every run no queue holds more than 16 and no number is in use that was not handed out |
| Hub.PublishedIsTaken | internal/notification/hub.go:45-55 | an id published while the queue has room is taken right after those that waited before it |
| Hub.ReceivesInOrder | internal/notification/hub.go:22-55 | in every run after a subscription, what it has received and still has queued is an in-order part of what was published to its owner since |
| Hub.EmptyMeansTriggered | internal/notification/hub.go:45-55 | a new subscriber whose queue is empty took from it after the last publish, so no drop goes without a later trigger |
| Delivery.FramesReadBack | internal/api/notification.go:78-94 | any sequence of frames is parsed back to the notifications in it, in order |
| Delivery.StreamNotifications | internal/api/notification.go:50-100 | the stream loop writes one frame for each id taken or keepalive, up to the write that fails and ends it, and leaves the hub without its subscriber |
| Delivery.WrittenIsDelivered | internal/api/notification.go:69-96 | with any chunking the browser is handed exactly the ids the stream took |
| Delivery.DeliveredInOrder | frontend/src/lib/api/sse.ts:43-89 | at any moment, with whatever prefix has arrived, the delivered ids are an in-order part of those published |
| Delivery.CutFrameDispatchesHalfAnId | frontend/src/lib/api/sse.ts:101-106 | a frame cut inside its id dispatches the part of it |
| StreamEnd.EndsCleanExactly | frontend/src/lib/api/sse.ts:101-106 | wherever a stream of ids of one length ends, what was delivered is an in-order part of what was published if and only if the end does not fall where the `data` of a frame's data line has arrived and the whole of that line has not |
| StreamEnd.EdgesOfAFrame | frontend/src/lib/api/sse.ts:57-67 | one byte before that stretch nothing is dispatched, at its start the empty id, at its last byte the id less its end, right after it the whole id |
| Paging.NotificationStore.Select | internal/db/sqlc/notifications.sql.go:65-78 | the owner's rows older than the cursor, later creation time first and then the larger id |
| Paging.NotificationStore.ListPage | internal/db/notification_tx.go:27-59 | one snapshot's rows of greatest creation time, then id, below the cursor, newest first, with a next cursor exactly when a further row exists, and its number of unread rows |
| Paging.NewestComesFirst | internal/db/sqlc/notifications.sql.go:65-78 | a page begins with the row of greatest creation time, then id, of all it could show |
| Paging.CountUnreadMeans | internal/db/notification_tx.go:27-59 | the unread count is the number of the owner's rows without a read mark |
| Paging.NotificationStore.MarkRead | internal/db/notification_tx.go:61-82 | marks the owner's row, keeps an earlier mark, fails exactly when the owner has no such row |
| Paging.NotificationStore.MarkAllRead | internal/db/notification_tx.go:84-99 | marks what was unread, keeps every earlier mark, and leaves none unread |
| Paging.MarkingGrows | internal/db/sqlc/notifications.sql.go:148-151 | no marking clears or moves a read mark |
| Paging.GrowsAlong | internal/db/sqlc/notifications.sql.go:134-151 | over any number of transactions no row goes and no read mark is cleared or moved |
| Paging.KeysetWalk | internal/api/notification.go:102-157 | following cursors to the end, with any sizes and inserts between pages, returns each row present at the start once, later creation time first and then the larger id |
| Paging.CursorExactly | internal/db/notification_tx.go:33-55 | page by page, there is a next cursor exactly when the snapshot held a row older than all returned |
| Paging.PageIsSlice | internal/db/sqlc/notifications.sql.go:65-78 | a keyset page is the next stretch of the sorted history |
| ClientStore.NotificationsStore.OpenSession | frontend/src/lib/stores/notifications.svelte.ts:535-552 | opens a session once, and gives its context only while it is the signed-in user's |
| ClientStore.NotificationsStore.ResetAll | frontend/src/lib/stores/notifications.svelte.ts:92-130 | forgets everything of the session and moves the generation on |
| ClientStore.NotificationsStore.JoinOrStart | frontend/src/lib/stores/notifications.svelte.ts:140-157 | joins the running reconciliation with a merged reason, or starts one |
| ClientStore.NotificationsStore.CollectPage | frontend/src/lib/stores/notifications.svelte.ts:400-400 | sets a page into the ordered rows, replacing known ids in place and appending new ones |
| ClientStore.NotificationsStore.ApplyRefresh | frontend/src/lib/stores/notifications.svelte.ts:405-431 | the window is replaced, and new ids of a live refresh become pending toasts |
| ClientStore.NotificationsStore.PublishPendingToasts | frontend/src/lib/stores/notifications.svelte.ts:457-476 | pending toasts appear, in the current session only |
| ClientStore.NotificationsStore.ApplyMore | frontend/src/lib/stores/notifications.svelte.ts:197-208 | a further page extends the window and is known from then on |
| ClientStore.NotificationsStore.MarkOptimistically | frontend/src/lib/stores/notifications.svelte.ts:262-266 | marks the rows shown and remembers what they were |
| ClientStore.NotificationsStore.Confirm | frontend/src/lib/stores/notifications.svelte.ts:275-281 | marks them for good and makes every answer under way out of date |
| ClientStore.NotificationsStore.RollBack | frontend/src/lib/stores/notifications.svelte.ts:325-331 | puts back what the rows were |
| ClientStore.NotificationsStore.CleanUp | frontend/src/lib/stores/notifications.svelte.ts:149-154 | only the reconciliation that is still current clears up |
| ClientInv.RunKeepsBase | frontend/src/lib/stores/notifications.svelte.ts:535-562 | in every run the session has one reconciliation, one pagination and one mutation under way at most |
| ClientInv.StaleStays | frontend/src/lib/stores/notifications.svelte.ts:554-562 | a context that is not current never is again |
| ClientInv.StaleForever | frontend/src/lib/stores/notifications.svelte.ts:92-130 | work begun in a session that was reset or signed out of never changes items, count, cursor, pages or toasts again |
| ClientInv.LeavingMakesStale | frontend/src/lib/stores/notifications.svelte.ts:92-96 | a reset and a change of sign-in each leave every context behind |
| ClientWindow.NextPage | internal/db/sqlc/notifications.sql.go:65-78 | the page after the first so many pages extends them by one page, with the cursor that goes with it |
| ClientWindow.RefreshedKeepsWindow | frontend/src/lib/stores/notifications.svelte.ts:405-415 | a finished refresh puts the first pages in place, as many as it replaces unless the history ends before, and leaves a page under way valid |
| ClientWindow.MoreAppliedKeepsWindow | frontend/src/lib/stores/notifications.svelte.ts:196-208 | a page that no refresh has overtaken extends the window by exactly the next page |
| ClientWindow.WindowRefined | frontend/src/lib/stores/notifications.svelte.ts:159-219 | with fixed membership, in every run, items are the first min(20 * loadedPages, n) rows and the cursor is null exactly when they are all |
| ClientReads.ConfirmedKeepsReads | frontend/src/lib/stores/notifications.svelte.ts:275-281 | when a mutation succeeds, no answer or rollback still under way can undo it |
| ClientReads.ReadYourWrites | frontend/src/lib/stores/notifications.svelte.ts:221-336 | once a mark that was sent has succeeded, no later state of the session shows what it marked as unread |
| ClientReads.UnconfirmedMarkIsUndone | frontend/src/lib/stores/notifications.svelte.ts:324-331 | wherever a row is shown read only by a mutation under way, markRead does nothing and that mutation's failure shows the row unread |
| ClientReads.MarkReadReturnsEarly | frontend/src/lib/stores/notifications.svelte.ts:221-225 | a markRead that found the row already shown read resolves, and the row is shown unread later |
| ClientOrder.NextKeepsOrder | frontend/src/lib/stores/notifications.svelte.ts:159-219 | over a history that grows anywhere, what a refresh has collected lies at or above the store's cursor and a page under way below it, so neither overwrites the other |
| ClientSettled.NextKeepsAll | frontend/src/lib/stores/notifications.svelte.ts:221-336 | every step keeps what backs a row shown read: it is read on the server and no answer says otherwise, or a mutation under way has marked it |
| ClientSettled.SettledStays | frontend/src/lib/stores/notifications.svelte.ts:221-336 | a row that is read on the server, not shown unread, held unread by no usable answer and undone by no mutation under way stays so for the rest of the session |
| ClientRest.ShowsAll | frontend/src/lib/stores/notifications.svelte.ts:159-219 | from every state a session can go on to show the whole history and the unread count as the server has them, with no mutation taking a step: nothing it waits for is waited for in vain |
| ClientReach.StaysReadExactly | frontend/src/lib/stores/notifications.svelte.ts:221-336 | in every reachable state, no later state of the session shows the row unread if and only if it is settled in that sense |
| ClientReach.MarkReadExactly | frontend/src/lib/stores/notifications.svelte.ts:221-290 | what a markRead that resolves has achieved, at each guard and after its request, as an if and only if |
| ClientReach.PushedOutBeforeItsTurn | frontend/src/lib/stores/notifications.svelte.ts:254-261 | a run in which a row is marked while shown unread, is pushed out of the window before the mark's turn, and can be shown unread after the mark has resolved |
| ClientToasts.ToastedOnce | frontend/src/lib/stores/notifications.svelte.ts:405-476 | every id is toasted once at most; toasted or pending are exactly the ids first found by a live refresh; the account load that let a toast through began after its discovery |
| ClientToasts.DiscoveredLiveExactly | frontend/src/lib/stores/notifications.svelte.ts:405-431 | an id new in a step counts as a live discovery exactly when it came with a refresh that was begun for a live event, after the baseline |
| ClientToasts.OvertakenBecomesRecovery | frontend/src/lib/stores/notifications.svelte.ts:386-389 | a refresh that a mutation overtakes is begun again as a recovery, unless a live event is queued, and so toasts nothing |
| ClientMeaning.PageMeans | internal/db/notification_tx.go:27-59 | a page holds the next 20 rows as the server has them, a cursor exactly when there are more, and the count of all unread rows |
| ClientMeaning.LoopMoves | frontend/src/lib/stores/notifications.svelte.ts:351-455 | when a refresh can step, where it goes exactly when, and what it leaves in the store: rows, unread count, cursor, pages, toasts |
| ClientMeaning.ReconcileMoves | frontend/src/lib/stores/notifications.svelte.ts:132-157 | a call starts a refresh from the first page or leaves its reason with the one that runs |
| ClientMeaning.InvalidateMoves | frontend/src/lib/stores/notifications.svelte.ts:140-157 | an event does the same for its own session and nothing for another |
| ClientMeaning.MoreMoves | frontend/src/lib/stores/notifications.svelte.ts:159-219 | when a further page can step, where it goes exactly when, and what it leaves in the store |
| ClientMeaning.LoadMoreMoves | frontend/src/lib/stores/notifications.svelte.ts:159-175 | loadMore asks or waits exactly when there is a cursor and nothing is loading |
| ClientMeaning.MarkCallMoves | frontend/src/lib/stores/notifications.svelte.ts:221-252 | a mark is queued behind the others exactly when there is something to mark, and shows nothing yet |
| ClientMeaning.MutationMoves | frontend/src/lib/stores/notifications.svelte.ts:254-336 | when a mark can step, which of its outcomes it has, and what each row and the unread count are then |
| ClientMeaning.DismissMoves | frontend/src/lib/stores/notifications.svelte.ts:338-345 | a dismissed toast goes and the others stay in order |
| ClientMeaning.RowsMean | frontend/src/lib/stores/notifications.svelte.ts:262-265 | what it is for a row to be shown unread, and what a mark remembers of the rows it is for |
| ClientMeaning.OtherMoves | frontend/src/lib/stores/notifications.svelte.ts:92-130 | inserts, reads elsewhere, sign-in changes and resets: when they can happen and what they change |
| ClientFollowUp.CalledUntilBegun | frontend/src/lib/stores/notifications.svelte.ts:351-361 | for every reason, a refresh that is called for stays so while the session lasts until a refresh begins from the first page, and a live one until a live one does |
| ClientFollowUp.InvalidationFollowedUp | frontend/src/lib/stores/notifications.svelte.ts:140-157 | an invalidation for any reason, seen with no reconciliation running or by a loop that listens, is followed by a refresh that begins at it or after it, a live one for a live event |
| ClientFollowUp.HonouredExactly | frontend/src/lib/stores/notifications.svelte.ts:140-157 | no continuation comes to rest without such a refresh if and only if no reconciliation was running or its loop still listened |
| ClientFollowUp.GapDrops | frontend/src/lib/stores/notifications.svelte.ts:149-154 | in every state of the gap the event is queued and the clean-up drops it, with no loop begun |
| ClientFollowUp.LostInTheGap | frontend/src/lib/stores/notifications.svelte.ts:149-154 | a run in which a live event is dropped there |
| AuthStores.AuthStore.ApplyRenewal | frontend/src/lib/stores/auth.svelte.ts:145-189 | each answer to a renewal signs in, out, or marks renewal unavailable, field by field, and a stale one does nothing |
| AuthStores.AuthStore.BeginLogin | frontend/src/lib/stores/auth.svelte.ts:101-106 | refuses during a logout, else moves the generation on |
| AuthStores.AuthStore.ApplyLogin | frontend/src/lib/stores/auth.svelte.ts:114-118 | signs in only if nothing has moved the generation since |
| AuthStores.AuthStore.BeginLogout | frontend/src/lib/stores/auth.svelte.ts:197-201 | user and token are null at once, before the server answers |
| AuthStores.AuthStore.JoinOrStart | frontend/src/lib/stores/auth.svelte.ts:126-143 | joins the attempt of this generation, or becomes the attempt |
| AuthStores.AccountsStore.BeginLoad | frontend/src/lib/stores/accounts.svelte.ts:23-28 | the newest load gets the highest number |
| AuthStores.AccountsStore.EndLoad | frontend/src/lib/stores/accounts.svelte.ts:38-68 | only the latest load of the same session applies its items or ends the loading state |
| AuthStores.AccountsStore.Reset | frontend/src/lib/stores/accounts.svelte.ts:91-99 | empties the cache and outdates every load |
| AuthRuns.RunInv | frontend/src/lib/stores/auth.svelte.ts:101-231 | the invariant of all runs of sign-ins, refreshes, requests and loads |
| AuthRuns.UserIffToken | frontend/src/lib/stores/auth.svelte.ts:213-227 | in every run the user is null exactly when the token is |
| AuthRuns.SingleFlight | frontend/src/lib/stores/auth.svelte.ts:126-143 | at most one refresh of the present generation is unsettled |
| AuthRuns.OneGenerationPerRequest | frontend/src/lib/api/client.ts:59-102 | a request is sent twice at most, the second time after its one refresh, and is sent and returned under the generation it began in |
| AuthRuns.StaleAnswersAreInert | frontend/src/lib/stores/accounts.svelte.ts:38-45 | an answer whose auth generation or cache generation has passed changes neither user, token nor accounts |
| AuthRuns.PassedIsInert | frontend/src/lib/stores/auth.svelte.ts:101-231 | nor at any later time, whatever happens in between |
| AuthRuns.LeftBehindIsInert | frontend/src/lib/stores/auth.svelte.ts:101-231 | after a login, logout, clear or renewal that moves the generation, and for loads and creates a reset of the accounts, nothing begun before it ever changes user, token or accounts |
| AuthRuns.StampsAreNotAhead | frontend/src/lib/stores/accounts.svelte.ts:23-28 | in every run the generations that work began under are not ahead of the present ones, so any move leaves it behind |
| AuthRuns.UserSwapsExactly | frontend/src/lib/stores/auth.svelte.ts:165-169 | within a generation one user replaces another exactly when a login is answered while the other is signed in |
| AuthRuns.UserSwaps | frontend/src/lib/stores/auth.svelte.ts:114-118 | a run in which that happens |
| AuthRuns.LatestLoadWins | frontend/src/lib/stores/accounts.svelte.ts:38-48 | only the load started last, in the same session, can change the items, and if it succeeds it does |
| AuthRuns.LoadingExactly | frontend/src/lib/stores/accounts.svelte.ts:60-68 | unless the sign-in changed, loading is shown exactly while the latest load is under way |
| AuthMeaning.SignedInExactly | frontend/src/lib/stores/auth.svelte.ts:101-231 | in every run somebody is signed in exactly when the last step that signed in or out signed in, and then it is that user with that token |
| AuthMeaning.SignedInAgain | frontend/src/lib/stores/auth.svelte.ts:197-227 | after a logout, a cleared session or a renewal that finds none, user and token are null, and whoever is signed in later is so by a login or renewal begun after it |
| AuthMeaning.RenewalMoves | frontend/src/lib/stores/auth.svelte.ts:145-189 | a renewal is answered once, and its outcome tells its callers exactly what it did |
| AuthMeaning.CleanUpMoves | frontend/src/lib/stores/auth.svelte.ts:137-141 | the attempt that is still the current one clears itself, and no other |
| AuthMeaning.TriedIsPresent | frontend/src/lib/stores/auth.svelte.ts:126-143 | trying to refresh joins the one under way for this generation, if there is one, and starts one otherwise |
| AuthMeaning.SignInOutMoves | frontend/src/lib/stores/auth.svelte.ts:101-211 | a login may begin exactly when no logout is under way, and each is answered once |
| AuthMeaning.AskMoves | frontend/src/lib/api/client.ts:59-61 | a request is sent at once, under the generation it is made in |
| AuthMeaning.AnswerMoves | frontend/src/lib/api/client.ts:59-88 | what becomes of a request for each answer: read, refreshed once for, aborted or failed, each exactly when |
| AuthMeaning.ResumeMoves | frontend/src/lib/api/client.ts:66-76 | when its refresh is over a request is sent again exactly if that succeeded under the same generation, and fails in its own way otherwise |
| AuthMeaning.BodyMoves | frontend/src/lib/api/client.ts:95-102 | a body is returned exactly if it can be read and the session has not moved on |
| AuthMeaning.CreateMoves | frontend/src/lib/stores/accounts.svelte.ts:70-89 | a created account is appended once, exactly if neither sign-in nor cache has moved on |
| AuthMeaning.LoadMoves | frontend/src/lib/stores/accounts.svelte.ts:23-99 | a load can start at any time and ends once; a reset leaves an empty list that is not loading |
| Sessions.SessionStore.BlockSession | internal/db/sqlc/sessions.sql.go:15-20 | blocks the row if there is one and changes nothing else |
| Sessions.SessionStore.RotateSessionTx | internal/db/session_tx.go:35-75 | rotates exactly when the row is there, not blocked, has the token's user and digest, expires after now and the replacement keeps its id; otherwise nothing changes |
| Sessions.RunInv | internal/db/session_tx.go:35-75 | in every run of renewals and logouts locks, chains and calls stay consistent |
| Sessions.DecidesLikeOneTransaction | internal/db/session_tx.go:37-73 | every renewal decides as if alone: it commits on a row that passes every check at that moment and changes only its digest and expiry, and is refused only when the row does not pass or is missing |
| Sessions.RotatedExactly | internal/db/session_tx.go:35-75 | in every run each committed rotation replaced a row with the token's user and digest that was not blocked and expired after its now, and left the digest and expiry that one earlier step of it had issued |
| Sessions.RenewsAlone | internal/db/session_tx.go:35-75 | from every reachable state a renewal that nobody comes between rotates exactly if its row passes |
| Sessions.EveryCallCanFinish | internal/db/session_tx.go:37-73 | from every reachable state at most four steps for each call end every call: nothing waits for ever |
| Sessions.RunGoesOn | internal/db/session_tx.go:35-75 | whatever has happened, a step that can be taken goes on from there |
| Sessions.LoginMoves | internal/api/user.go:158-180 | a login opens a new session, not blocked, under an id and a digest that nobody has had |
| Sessions.TokenMoves | internal/api/user.go:256-299 | an issued token can be presented at any time, and a logout with it blocks its session once no renewal holds the row |
| Sessions.AbortMoves | internal/db/session_tx.go:58-62 | a renewal that is given up keeps nothing |
| Sessions.ChainsArePaths | internal/db/session_tx.go:58-72 | the digests a session stored never repeat, the row holds the last, and each rotation replaced one by the next |
| Sessions.ConsumedOnce | internal/db/session_tx.go:47-55 | a digest is consumed by one committed rotation at most |
| Sessions.OneRenewalPerToken | internal/api/user.go:256-272 | of all calls that present one token, one succeeds at most |
| Sessions.BlockedForever | internal/db/sqlc/sessions.sql.go:15-20 | a blocked session's row and chain never change again |
| Sessions.LogoutEndsChain | internal/api/user.go:299-299 | a logout with any token ever issued for a session ends its chain |
| Sessions.OwnerFixed | internal/db/sqlc/sessions.sql.go:118-124 | id and user of a session never change, and its chain only grows |
| Sessions.NeverMismatched | internal/api/user.go:202-223 | a renewal's replacement always carries the id of its session |
| Listening.Reconnect | internal/notification/listener.go:149-166 | the loop sleeps min(100 * 2^k, 5000) ms before its k-th attempt, stops at the first success or failed sleep, and leaves a connection open only on success |
| Listening.Listener.Begin | internal/notification/listener.go:55-67 | a Start is accepted exactly when none is |
| Listening.Listener.FinishFailedStart | internal/notification/listener.go:115-124 | gives up the fields if they are still this Start's, and closes its channel |
| Listening.OneConnection | internal/notification/listener.go:55-166 | only the Start the fields name can hold a connection |
| Listening.DoneClosedOnce | internal/notification/listener.go:115-145 | a done channel is closed once, as the last act of its Start, with nothing open |
| Listening.DelaysDouble | internal/notification/listener.go:149-165 | in every run the k-th delay of a reconnect is min(100 * 2^k, 5000) ms |
| Listening.StoppedMeansClosed | internal/notification/listener.go:96-113 | after Stop returned nil no Start accepted before it looked holds a connection, now or later |
| Listening.StopNilExactly | internal/notification/listener.go:96-113 | after Stop returned nil a connection is or comes to be open without a new Start if and only if a Start accepted after Stop looked is not failing, leaving or finished |
| Listening.StopNilWithOpenConnection | internal/notification/listener.go:96-124 | a run in which Stop returns nil while a later Start holds a connection |
| Listening.NoSecondGoroutine | internal/notification/listener.go:126-147 | after a successful Start no other is ever accepted |
| Listening.CancelledEnds | internal/notification/listener.go:126-166 | a cancelled Start has a run of at most three steps, in which its calls fail, to a channel closed once |
| Listening.ComesToListen | internal/notification/listener.go:55-166 | a Start that is not cancelled listens after at most four steps in which its calls succeed |
| Listening.CancelledIsNoticed | internal/notification/listener.go:70-91 | a cancelled Start closes its connection at its next look at the context |
| Listening.FailureMoves | internal/notification/listener.go:70-166 | a failing call ends a Start that connects, and makes a running one try again |
| Listening.StopMoves | internal/notification/listener.go:96-113 | Stop returns nil exactly when nothing is started or the Start it cancelled has closed its channel, and an error exactly when its own context ends first |
| Listening.StartMoves | internal/notification/listener.go:55-67 | a Start is accepted exactly when none is, and a refused call changes nothing |
| Money.ToDoubleSafe | frontend/src/lib/money.ts:88-91 | reading digits as a double is exact below 2^53 and never falls below it from above |
| Money.ParseExactly | frontend/src/lib/money.ts:72-93 | the reader gives n exactly for the numerals of n minor units with no excess digits, n in 1 to 2^53-1 |
| Money.ParseReads | frontend/src/lib/money.ts:72-93 | in digits: for dollars and euros 100 minor units to one and at most two digits after the point, for dong 1 and no point |
| Money.TrimMeans | frontend/src/lib/money.ts:73-73 | the space around a text, and only that, is taken away |
| Money.SpacesAre | frontend/src/lib/money.ts:73-73 | the characters taken away are the 25 white space and line end characters of ECMAScript |
| Money.ToDoubleNearest | frontend/src/lib/money.ts:88-88 | a number becomes the nearest one with 53 binary digits, of two the even one |
| Money.LeadingZerosIgnored | frontend/src/lib/money.ts:76-88 | leading zeros, however many, make no difference |
| Money.PrintedLimitReadsBack | frontend/src/lib/opening-limits.ts:10-18 | reading the printed opening limit gives it back, for every limit and currency |

## Left out

- Books.RollingLimitHolds: speaks of the 24 hours before the present clock of every state, not of every past window by `created_at`, which is stamped when the transaction begins and not when the limit is checked.
- Guarantees.LateRetryReplays: covers the transfer and the outcome, not the account snapshots a replay returns, which the fast path reads one by one.
- Books.NotificationsTellRunningBalance: the order of notifications is that of commits; `created_at` order can differ.
- Progress.EveryCallCanFinish: a schedule exists; a fair scheduler is not modelled beyond the bound on steps.
- ClientWindow.WindowRefined: for a history of fixed membership; with rows inserted meanwhile the window may lag behind the history until the next refresh.
- ClientReads.ReadYourWrites: speaks of marks that were sent; ClientReach.MarkReadExactly says what those that send nothing achieve.
- ClientFollowUp.InvalidationFollowedUp: says that the refresh is called for or has begun, not when the network answers.
- Hub.NotificationHub.Subscribe: does not model the wrap-around of the 64-bit subscriber number.
- Listening.Reconnect: takes what its calls will meet as a parameter; time itself is not modelled.
- Account openings in the concurrent ledger are one step each, since they touch no existing row.
- The stream loops of the browser store (`#streamLoop`, `#waitForReconnect`) appear as invalidations at any moment; their delays do not.
- `loading`, `refreshing`, `error` and the activity versions of the notification store: set beside what is modelled, and read by nothing in it.
- UUID generation, token signing and verification, password and token hashing, user lookup: fresh ids and injective digests stand for them.
- The codecs of cursors, JSON, UTF-8 and HTTP: texts, rows and keys are values.
- Validation of response shapes, error message tables, routing, cookies, rate limits, configuration, mail and job queues.
- Offset pagination of accounts and transfers.
- Email verification and registration.
