# Companion mirror, outbox and webhook dispatcher: verification

The companion keeps a mirror of an RGB Lightning node's transfers and payments in SQLite, turns
every status change into a webhook through a transactional outbox, and delivers the webhooks in
order. Four writers share the store: engine tasks under a single-flight mutex (refresh, full sync,
reaper, operator syncs), interceptor hooks without it, the payments poll without it, and the
dispatcher. The process may stop at any point. This project models that system and proves what the
webhook receiver, the mirror's readers and the engine's callers rely on.

## How it is built

- `Status`, `Tables`: the planners and every SQL statement of the core as functions on row values,
  with SQL's NULL semantics, the UNIQUE constraints and the conversions that can fail.
- `System`: a state machine whose actions are the transactions, the POSTs and the changes of a task's
  local state, with a crash enabled everywhere. Reads and compare-and-swaps are separate actions, so
  all interleavings of the writers are runs. `Legal` runs are the quantification domain below.
- `Invariants`: one invariant, kept by every action, so true of every reachable state.
- `Delivery`, `Receiver`, `Payloads`, `PaymentPayloads`, `History`, `PaymentLaws`, `LockDiscipline`,
  `EngineRuns`: laws of all runs.
- `Stages`, `Columns`, `Dues`: what the stages are and in which order, what each transaction writes in
  each column, and when an event may be sent, with statuses, columns and limits written out instead of by
  way of the functions that compute them.
- `Listing`, `Resume`, `InvoiceRace`, `SendRace`, `PaymentListing`, `Backfill`: what one listing does to
  the mirror, and what the same listing does again, late, in another scope or in another order.
- `Store`: the class the loops work on. Its ghost `trace` is the run that led to its tables; every
  statement extends it by one action. `Others` stands for everyone else between two awaits, and may
  do anything they could do.
- `Witnesses`: legal runs in which the exceptions to the laws happen.
- `Rln`, `SyncLoop`, `Engine`, `PaymentLoop`, `Webhook`, `Intercept`: the loops as methods over that
  class, each tied by its contract to the laws above.

Constants name the circumstances in which a contract says more: a store that is `healthy`
answers every statement, a store that is `alone` has no other task beside the caller, and a node that
is `calm` answers every request, one that is `granting` grants every fail request, and one that
`refuses` answers all with one error; a webhook receiver that is `obliging` answers every request with
success. A paging server that is `reliable` answers every request too, and one that is
`frozen` has nothing added meanwhile. Nothing is assumed where a contract does not mention them.

## What the code does, where its documentation says otherwise or little

- The `transfer` object in a webhook is the row as it was read, not "the mirrored row after the
  transition" (`docs/webhooks.md:45`): `insert_transfer` may rewrite the row in between.
  `Payloads.PayloadIsTheRow` says exactly when they are equal, and `Payloads.MissingInvoiceRun` is a
  run whose webhook lacks the invoice its row carries.
- `reconcile` syncs and stamps before it checks the network (`src/engine.rs:304-305`), so on a
  mismatch it has synced, although `docs/operations.md:13` says it returns without syncing
  (`Engine.ReconcileRound`).
- A transfer that a sync sees before its interceptor row exists is born at the node's status and
  announces nothing. The two orders of an invoice race therefore agree on the outbox exactly when the
  node has not reached an announced stage, whatever else is stored (`InvoiceRace.RaceEvents`).
- An unbound send with the txid and asset of an observed invoice takes the binding if no row holds
  the recipient yet, and the invoice ends on a second row (`InvoiceRace.ObserveFirstSplits`,
  `Witnesses.SplitIsReal`).
- A receiver that is down for all `max_attempts` of one event never hears it and hears the next one first:
  a request that is lost is a failed attempt like any other, and a parked event lets the queue move on.
  The order of `docs/webhooks.md:95` is that of the requests sent (`Delivery.RequestsFollowHistory`); what
  arrives is in that order but may have gaps, exactly as `Receiver.ReceiverHearsHistory` says
  (`Witnesses.EventIsLost`).
- A single `/sendrgb` call leaves an unbound row beside the bound one if a sync sees the transfer before
  the hook has recorded it, although `docs/operations.md:40` speaks only of two calls
  (`SendRace.SendRaces`); that row waits, and its asset is synced for it, until another transfer of its
  txid and asset is listed (`SendRace.StrandedStays`).
- The first payments poll may emit events, although `docs/webhooks.md:90` says it backfills silently: it
  does for a hash that a `/keysend` or `/sendpayment` hook recorded as pending and the node has ended
  since, and for one it lists first live and then ended, as a payment to oneself may be listed.
  `Backfill.BackfillIsSilent` has the exact condition, `Witnesses.FirstPollTells` the runs.
- A listing that reports one hash as failed and then as pending emits an event on every poll
  (`PaymentListing.RepeatedHashEmitsAgain`); `PaymentListing.PollIsIdempotent` says exactly which
  listings change anything when polled again.
- `max_attempts` may be 0 (`src/config.rs:178-197`); nothing here excludes it. No event is then
  live.

## Model

| member | source | states |
|---|---|---|
| `Delivery.EndToEndOrder` | src/webhook.rs:69-100 | In every run, with any interleaving and crashes, two requests sent about one transfer, and so two that arrive, never step back in rank; different events about it are a confirmed_pending followed by one terminal event, chained by rank; equal rowids carry equal payloads |
| `Delivery.NothingAfterPaymentSettled` | src/sync.rs:100-134 | After a payment.settled is sent, every later request about that hash is a copy of it |
| `Delivery.StrictFifo` | src/store.rs:776-787 | The log of the rowids sent is non-decreasing over the whole run, and copies of one event are adjacent, whatever the clock, the batch limit and concurrent enqueues do |
| `Delivery.PostedInTurn` | src/webhook.rs:69-76 | When an event is POSTed it is live and as it was fetched, and every older event is delivered or parked |
| `Payloads.PayloadIsTheRow` | src/sync.rs:380-400 | In every run, the row in a webhook equals the stored row after the transition if and only if the inserts between read and swap that named its recipient left invoice, batch index and expiration as read, whatever else ran |
| `Payloads.PayloadMissesInvoice` | src/store.rs:370-395 | An invoice recorded between read and swap is on the row and missing from the webhook |
| `Payloads.MissingInvoiceRun` | src/sync.rs:229-231 | For every recipient and invoice, a legal run from the empty store that does so |
| `Payloads.ReadWasTaken` | src/sync.rs:229-231 | Every read a lock holder has yet to apply was taken by a read of its own in the run, which is the one the law above speaks of |
| `PaymentPayloads.PaymentPayloadIsTheRow` | src/sync.rs:351-368 | In every run, the payment in a webhook equals the stored row after the transition if and only if the upserts of its hash between read and swap left each column as read, whatever else ran and even if the status went away and came back |
| `PaymentPayloads.ReadWasTaken` | src/sync.rs:305-307 | Every read the poll or a hook holds was taken by an upsert of its own in the run |
| `Delivery.DrainStep` | src/store.rs:799-819 | A recorded delivery or failure strictly lowers the sum of remaining attempts over live events; any other action only adds events |
| `Delivery.DrainMeasure` | src/webhook.rs:69-100 | n events admit at most n * max_attempts recorded outcomes, whatever the receiver answers |
| `Delivery.AttemptsAreFailures` | src/store.rs:799-808 | In every run an event's attempts column is the number of failures the run recorded of it |
| `Delivery.AtLeastOnce` | docs/webhooks.md:94 | In every run a request was sent at least once per recorded failure of an event, and once more if it is delivered |
| `Delivery.NothingSkipped` | src/webhook.rs:69-100 | Of every event queued before one that was POSTed a request has itself been sent |
| `Delivery.RequestsFollowHistory` | docs/webhooks.md:95 | At every moment of every run the requests sent, repeats dropped, are an initial piece of the announced status changes in the order they were committed, each with the edge taken |
| `Receiver.ReceiverHearsHistory` | src/webhook.rs:59-84 | What the receiver hears, repeats dropped, is in order exactly the announced changes of which a request has arrived, every delivered event among them; it is an initial piece of the history if and only if every event older than the newest one heard has arrived |
| `Witnesses.EventIsLost` | docs/webhooks.md:95-96 | For every limit of at least 1, a legal run in which all attempts at one event are lost, it is parked unheard, and the next one is heard first |
| `Delivery.OutboxPartition` | src/store.rs:776-797 | Every event is delivered, parked or live; live is undelivered with fewer recorded failures than max_attempts, and parked has failed exactly max_attempts times, each after a request was sent |
| `Dues.DueAsSet` | src/store.rs:799-808 | In every run an event is due since the swap that committed it, or since what its last recorded failure set, and its payload is dated by that swap |
| `Dues.DueFromCommit` | src/webhook.rs:71-74 | In every run an event of which no failure is recorded may be tried at every time from the swap that committed it on |
| `Dues.SettledIsStamped` | src/store.rs:524-531 | In every run a row whose swap settled it carries settled_at of that swap from then on |
| `Invariants.InvStep` | src/store.rs:449-644 | Every action of every task, and a crash, keeps the mutex, read, row, outbox, attempts, batch, wire and baseline invariants |
| `Invariants.Reachable` | migrations/0001_init.sql:1-16 | Every reachable state satisfies them: both UNIQUE constraints, settled_at only on Settled rows, events chained by rank, a gap-free batch |
| `Invariants.UpsertKeeps` | src/store.rs:449-508 | Binding by the three-class match keeps both UNIQUE constraints and every status |
| `Invariants.InsertKeeps` | src/store.rs:370-395 | An interceptor insert keeps both UNIQUE constraints and every status, merged or new |
| `Invariants.ReadsInvStep` | src/engine.rs:118-121 | Whatever runs beside the holder of the mutex, the rows it has read keep the status it read |
| `Invariants.DispatcherStep` | src/webhook.rs:69-100 | The batch stays a gap-free piece of the live events and the wire log stays ordered, under every action |
| `Columns.CrashForgets` | src/engine.rs:118-121 | After a crash the tables are as they were, nobody holds the mutex or a read, and every task can begin again |
| `History.OneMove` | src/store.rs:510-553 | One action changes at most one status, and appends exactly the announcing edge it took |
| `History.OutboxIsHistory` | src/store.rs:510-553 | Over every run the outbox in rowid order is exactly the committed status changes that are announced, with their real previous and new status |
| `History.OnlySwapsMove` | src/store.rs:510-522 | No upsert, insert, delivery, lock action or crash changes a status |
| `History.RowsOnlyGrow` | src/store.rs:475-493 | Over any stretch of any run a binding is never changed or lost, known asset, txid and expiration stay known, the recipient and settled_at are final, status climbs and terminal is final |
| `History.BindingIsFinal` | src/store.rs:449-463 | Two observations of one index return the same row whatever happens between them, and the second adds no row |
| `History.BoundRowMatches` | src/store.rs:451-456 | A row bound to an index is what that index matches, ahead of every other candidate |
| `History.ObservedGrown` | src/store.rs:465-508 | A successful observation returns a row bound to its index, adds at most one row, and forgets nothing |
| `PaymentLaws.StepAccounted` | src/sync.rs:318-349 | One action changes events about a hash by exactly its ending, restarting or being born ended; Succeeded stays; a restart is to Pending; an ending is told |
| `PaymentLaws.Conservation` | src/sync.rs:100-134 | In every run, for every hash: events + born terminal = restarts + terminal now, with hooks and poll racing and statuses repeating |
| `PaymentLaws.SucceededIsFinal` | src/sync.rs:104-113 | A hash once seen stays, and Succeeded is absorbing |
| `PaymentLaws.BornTerminalStep` | src/sync.rs:289-295 | While the baseline is set no action creates a terminal payment row, and the baseline stays set |
| `PaymentLaws.NotBornTerminal` | src/sync.rs:286-315 | A hash first seen after the baseline was set is never born terminal, by any writer |
| `PaymentLaws.EndIsTold` | src/store.rs:605-644 | A terminal hash that was not born terminal has a newest event telling exactly its status |
| `PaymentLaws.BaselineLaw` | src/intercept.rs:219-232 | A hash first seen after the baseline that is terminal has restarts + 1 events, the newest telling its status |
| `PaymentLaws.CrashThenEmit` | src/sync.rs:286-311 | In every run that crashed between the poll's upsert of a new terminal hash and its swap, and went on in any way, the hash is pending and untold until a swap applies to it, and the first swap that finds it terminal, poll or hook, emits exactly one event |
| `PaymentLaws.CrashThenPoll` | src/sync.rs:286-311 | The shortest such run: the crash, and at once a poll that lists the hash again, which emits it |
| `LockDiscipline.ForeignStep` | src/engine.rs:118-121 | No other task's action takes the mutex, touches the holder's reads, moves a transfer, rebinds a row or adds a transfer event |
| `LockDiscipline.PlannedSwapApplies` | src/sync.rs:237-268 | In every run a lock holder's swap applies if and only if it was planned |
| `EngineRuns.QuietMoves` | src/sync.rs:213-235 | Locking, observing, scanning and passing over a row move no transfer and emit nothing |
| `EngineRuns.SwapMoves` | src/sync.rs:237-268 | A lock holder's swap changes a transfer's status if and only if a transition was planned |
| `EngineRuns.ForeignRun` | src/intercept.rs:125-191 | Over any run of others the holder keeps the mutex and its reads, and no transfer moves |
| `Listing.ObserveEffect` | src/sync.rs:213-235 | Which row an observation ends on, what it leaves alone, and that it succeeds exactly when its numbers fit and no row bound elsewhere holds its recipient; an error leaves the store unchanged |
| `Stages.StagesClimb` | src/sync.rs:38-66 | On the chain initiated, waiting_counterparty, waiting_safe_height, waiting_broadcast, waiting_confirmations, settled, written out, a bound row at one stage that is listed at another ends at the later of the two; entering confirmation or settling is announced, and nothing else is |
| `Stages.FailureEnds` | src/sync.rs:49-66 | A bound row at any stage of the chain but the last that is listed as failed has failed, and transfer.failed is queued |
| `Stages.EndIsFinal` | src/sync.rs:49-53 | A bound row that has settled or failed stays so in silence, whatever is listed |
| `Listing.BoundRowFollows` | src/sync.rs:38-66 | After a listing a bound row's status is the forward fold of what the listing reports for its index, and of nothing else |
| `Listing.PendingRefinesFull` | src/sync.rs:173-208 | A pending-scope sync gives every bound row that is past initiated, ended ones and agnostic ones included, the status a full sync would |
| `Listing.CatchesUp` | src/sync.rs:49-66 | An observation leaves its row at the node's status if and only if the row was not ahead |
| `Listing.Converges` | src/sync.rs:162-235 | If no row is ahead of a transfer it matches, a successful sync leaves each listed transfer with exactly one bound row at the node's status |
| `Listing.Succeeds` | src/store.rs:489-506 | A sync succeeds if its numbers fit the database and no recipient, listed or stored, belongs to two indices |
| `Resume.SyncIsIdempotent` | src/sync.rs:162-235 | Syncing the same listing again changes no status, binding, outbox entry or other column but timestamps, even if indices repeat with different statuses |
| `Resume.SyncResumes` | src/sync.rs:197-235 | A sync that stopped anywhere, after an entry or between its upsert and its swap, and is run again equals one uninterrupted run, up to timestamps |
| `InvoiceRace.InsertFirstMerges` | src/store.rs:449-488 | Insert before observation: one new row carrying index, invoice and batch index, with these exact columns |
| `InvoiceRace.ObserveFirstMerges` | src/store.rs:370-395 | Observation before insert, nothing stored matching: one new row carrying the same, with these exact columns |
| `InvoiceRace.ObserveFirstSplits` | src/store.rs:451-456 | Observation before insert, with an unbound send matching: the send takes the index and the invoice gets its own row |
| `Witnesses.SplitIsReal` | src/intercept.rs:174-184 | A legal run in which the invoice splits, from a state that meets the premises |
| `InvoiceRace.InvoiceRace` | src/intercept.rs:125-149 | When the two orders merge, and when the merged rows agree, each as an if-and-only-if |
| `InvoiceRace.RaceEvents` | src/sync.rs:49-66 | The two orders leave the same outbox if and only if the node's status is not an announced one, whatever is stored; if nothing stored matched they otherwise differ by exactly that event |
| `Backfill.FirstSeen` | src/sync.rs:288-309 | A hash first seen ends at its listed status, with an event if and only if that is terminal and the baseline is set |
| `Backfill.TellsExactly` | src/sync.rs:286-311 | Any poll of any listing emits nothing if and only if it gets to no entry that ends a hash which is live by then, by its stored status and the statuses listed before, or which, once the baseline is set, nobody had known |
| `Backfill.BackfillIsSilent` | src/sync.rs:289-295 | When the first poll is silent, exactly: no entry ends a hash that is live by then; for distinct hashes, every listed terminal hash that is stored is stored terminal; so always when no listed hash was known and each is listed with one status |
| `Backfill.BackfillMirrors` | src/sync.rs:289-305 | Where the first poll of distinct hashes leaves each of them, and exactly when that is its listed status |
| `Witnesses.FirstPollTells` | docs/webhooks.md:90 | Two legal runs in which the first poll emits an event: a hook had recorded the hash as pending, or the listing has the hash twice, pending and then succeeded |
| `PaymentListing.PollMirrors` | src/store.rs:555-587 | After a poll of distinct hashes each row shows every column its entry knows, at a status the entry does not move |
| `Stages.PaymentsClimb` | src/sync.rs:91-134 | On the chain pending, claimable, claiming, succeeded, written out, a stored payment listed at another stage ends at the later of the two, and only success is announced |
| `Stages.PaymentsFail` | src/sync.rs:114-134 | A live payment that is listed as failed or cancelled is so, and announced as failed |
| `Stages.PaymentsRestart` | src/sync.rs:104-113 | A payment that has ended stays so in silence, but for a failed or cancelled one listed as pending, which is pending again, in silence |
| `PaymentListing.PollIsIdempotent` | src/sync.rs:276-316 | For every listing, polling it again changes no status and emits nothing if and only if no entry would move its hash from where the first poll left it; then only timestamps change, baseline set in between or not |
| `PaymentListing.OneStatusIsQuiet` | docs/webhooks.md:90 | That holds of every listing that gives each hash one status, such as distinct hashes or a payment to oneself listed twice |
| `PaymentListing.PollResumes` | src/sync.rs:286-311 | A poll that stopped anywhere, after an entry or between its upsert and its swap, and is run again equals one uninterrupted poll, up to timestamps, unless an entry it had finished would move its hash again; when it stopped after its last entry, only then |
| `PaymentListing.RepeatedHashEmitsAgain` | src/sync.rs:104-119 | The condition can fail: a hash listed as failed and then as pending ends pending with one event more, from any pending row, so every poll of that listing emits again |
| `Rln.Server.Serve` | src/rln.rs:30-35 | A page is the first entries below the cursor, the node only adding larger indices between pages |
| `Rln.PageTurn` | src/rln.rs:234-238 | A page continues the listing, the cursor always moves after a full page, and only a short page ends the loop |
| `Rln.List` | src/rln.rs:218-241 | For every page size, 0 included, the loop ends; it succeeds if every request is answered, and then returns the initial snapshot's entries, each once and in order, whatever is added meanwhile |
| `Tables.FindMatch` | src/store.rs:451-456 | The match is the least row under class and rowid among those the WHERE clause selects, or none |
| `Columns.ObserveFinds` | src/store.rs:451-456 | A listed transfer is matched to the row bound to its index; else to the unbound one with its recipient; else to the oldest unbound one with its txid and asset, none of them NULL; else it is new |
| `Tables.HolderOf` | migrations/0001_init.sql:7 | The first row holding a recipient; a NULL recipient is held by none |
| `Tables.ExpiredBelow` | src/store.rs:714-726 | The reaper's scan contains each row that is past its expiration and at no announced stage exactly once and no other, by creation time and rowid |
| `Tables.LiveFrom` | src/store.rs:776-787 | A fetch holds only live events, at most the limit, and skips none before its first |
| `Invariants.FetchesFirst` | src/store.rs:776-787 | A live event is left out of a fetch only if the fetch is full of older ones |
| `Dues.HundredFetched` | src/store.rs:776-787 | A query fetches one hundred events, or all that are undelivered with attempts left if there are fewer |
| `StoreModel.Store.Acquire` | src/engine.rs:118-121 | Taking the mutex waits for its holder, and leaves the tables as the others left them |
| `StoreModel.Store.UpsertObserved` | src/store.rs:449-508 | The statement sequence computes the match, bind or insert of the specification, or fails unchanged |
| `Columns.ObserveWrites` | src/store.rs:449-508 | Column by column, what an observation leaves on the row it ends on, found or new, from the node's own entry, and that no other row changes |
| `StoreModel.Store.InsertTransfer` | src/store.rs:370-393 | The upsert on recipient_id merges or inserts as specified and returns the row's id, or fails unchanged |
| `Columns.InsertWrites` | src/store.rs:370-395 | Column by column, what an interceptor's insert leaves on the row that has its recipient, or on a new one, and that no other row changes |
| `StoreModel.Store.FetchTransfer` | src/store.rs:394 | Reads that row as it is then |
| `StoreModel.Store.ApplyTransition` | src/store.rs:510-553 | Swap and event commit together; true exactly when the stored status was the expected one |
| `Columns.SwapWrites` | src/store.rs:510-553 | The row takes status and time, settled_at exactly if it settles, and nothing else; the event queued with it is untried and due at that very time, and shows the row as read with those three columns |
| `StoreModel.Store.ExpiredFallible` | src/store.rs:714-726 | Returns every row that is past its expiration and at no announced stage, as stored, and nothing else |
| `StoreModel.Store.UpsertPaymentObserved` | src/store.rs:589-595 | Merges into or inserts the hash's row with the status the baseline rule chose, never touching a stored status |
| `Columns.PollWrites` | src/store.rs:555-595 | Column by column, what the poll's upsert leaves on the row of its hash, the status of a new one by the baseline rule written out |
| `StoreModel.Store.InsertPendingPayment` | src/store.rs:597-603 | Merges into or inserts the hash's row as pending, never touching a stored status |
| `Columns.HookWrites` | src/store.rs:597-603 | Column by column, what a hook's upsert leaves on the row of its hash |
| `StoreModel.Store.ApplyPolledTransition` | src/store.rs:605-644 | The poll's swap; true exactly when the hash still had the status that was read |
| `Columns.PaymentSwapWrites` | src/store.rs:605-644 | The hash takes status and time and nothing else; the event queued with it is untried and due at that very time, and shows the row as read with the two |
| `StoreModel.Store.ApplyHookTransition` | src/store.rs:605-644 | A hook's swap; true exactly when the hash still had the status that was read |
| `StoreModel.Store.EndPoll` | src/store.rs:768-774 | The baseline is set at the end of a poll that found none, and otherwise kept |
| `StoreModel.Store.Undelivered` | src/store.rs:776-787 | Fetches the first live events in rowid order, at most 100 |
| `StoreModel.Store.MarkDelivered` | src/store.rs:810-819 | Sets delivered_at of that event alone |
| `Columns.OutcomeWrites` | src/store.rs:799-819 | A recorded delivery or failure changes the delivery columns of the event that was sent, as written out, and no other event or table |
| `StoreModel.Store.RecordAttempt` | src/store.rs:799-808 | Adds one attempt and the next due time to that event alone |
| `SyncLoop.ApplyObserved` | src/sync.rs:237-268 | True exactly when a transition was planned, and then exactly one transfer moved, with others running since the row was read; planned exactly when the observed stage comes after the one read, the stages written out |
| `SyncLoop.Observe` | src/sync.rs:213-235 | Its result counts exactly the status changes while it ran; alone it is the specification's observation |
| `SyncLoop.ObserveBucket` | src/sync.rs:189-196 | The loop over one bucket counts exactly the status changes; alone it is the fold of its entries, up to the first error |
| `SyncLoop.ResolveScope` | src/sync.rs:173-188 | The assets and the assetless bucket each scope visits, beside any others: those named; all the node names and the assetless one; or those of the rows on their way, by status, and all of them and the assetless one if such a row has no asset. The node is asked once if the scope is full or such a row waits, and otherwise not |
| `SyncLoop.Sync` | src/sync.rs:162-211 | The report's transitions equal the transfers whose status changed while it ran, and on success the listings it was answered are of exactly the buckets of its scope, each once, by the rows it read and the node's own answer, with assets and entries counted, others running or not; alone it is the fold over them, and with a node or database that fails the fold of what the node had answered, up to halfway through the entry the database failed on |
| `SyncLoop.StandsOn` | src/sync.rs:189-208 | Fold and answers compose bucket by bucket, the half observed entry included |
| `Engine.Reap` | src/engine.rs:260-291 | It asks the node for every expired row at no announced stage that has a batch index, oldest first, stopping early only after a request of this call was answered locked or unreachable; on every normal return the count equals the rows moved to Failed under the mutex, the transfer.failed events added and the requests granted for those rows; a node that grants them all leaves every such row failed; only an answer other than cannot fail, locked or unreachable, or the database, ends it with an error |
| `Engine.ReapOne` | src/engine.rs:263-285 | One turn of the reaper: skip, fail and count, or stop, keeping moves, events and granted requests equal |
| `Engine.FullSync` | src/engine.rs:293-299 | Stamped only on success, with an exact report that covers the assetless bucket and every asset the node named, each once; alone against an answering node it succeeds when recipients are free, and converges; alone against a failing one the mirror is the fold of what was answered |
| `Engine.CheckNetwork` | src/engine.rs:170-181 | With no expected network the check passes whatever the node would answer; an answering node passes if and only if its network is the expected one, ASCII case aside; a token the node refuses (401, or 403 as Forbidden) is a misconfiguration, any other error is the node's own |
| `Engine.NetworkLetters` | src/engine.rs:175 | Two network names count as the same if and only if each character is the other's or its ASCII capital |
| `Engine.ReconcileRound` | src/engine.rs:304-330 | How each round's outcome sets the node state, with others running while the network is asked; the sync is stamped even when the network is wrong; a locked, unreachable or misconfigured node never surfaces as an error; alone against an answering node, a sync that succeeds is reconciled or paused by the network alone, and the stamp is this round's; which error leads to which state is written out |
| `Engine.Reconcile` | src/engine.rs:301-337 | At most ceil(max wait / backoff) + 1 rounds whatever the node answers; true leaves Unlocked and a stamped sync, and the network right if the node answered, false leaves Misconfigured with a stamped sync, or Locked or Down once the maximum wait has passed; alone, the stamp is the last round's; the sleeps before the last one are together shorter than the maximum wait; a node that answers every request as locked ends it Locked, an unreachable one Down, and any other error is returned at once |
| `Engine.Tick` | src/engine.rs:226-241 | A refreshed report is exact although the node state was read before the mutex; alone, it is paused exactly when the node was not unlocked, idle exactly when every stored row is initiated, settled or failed, and otherwise the fold of a pending-scope sync; a locked node is told from an unreachable one and recorded |
| `Engine.RefreshAndSync` | src/engine.rs:197-200 | Its report counts every move since the refresh was sent, with others beside it; alone it is the fold of a pending-scope sync |
| `Engine.Classify` | src/engine.rs:60-70 | The two errors of a locked node, from a request or from a sync, are recorded, the two of an unreachable one are not, and any other error is passed on |
| `PaymentLoop.ApplyPolled` | src/sync.rs:318-349 | True exactly when its own swap changed the status, which a hook may have prevented |
| `PaymentLoop.PollOne` | src/sync.rs:286-311 | One entry, hooks running between upsert and swap: counted exactly; alone it is the specification's turn |
| `PaymentLoop.SyncPayments` | src/sync.rs:276-316 | The report counts exactly the statuses its own swaps changed; the baseline is set only by a successful poll that found none; alone it is the fold over what the node answered, up to halfway through the entry the database failed on; alone and with distinct hashes the stored rows then show every entry it was answered, column by column |
| `Webhook.BackoffIsExact` | src/webhook.rs:22-27 | For every u32 count and u64 base and cap the saturating code equals min(cap, base * 2^max(attempts - 1, 0)) over unbounded integers |
| `Webhook.BackoffDoubles` | src/webhook.rs:22-27 | The delay is the base after the first failure and twice the last one after each further failure, up to the cap |
| `Webhook.BackoffIsMonotone` | src/webhook.rs:22-27 | The delay never shrinks as attempts grow and never exceeds the cap |
| `Webhook.StoredNext` | src/webhook.rs:81-84 | The stored due time is never before now and never leaves i64 |
| `Webhook.DispatchDue` | src/webhook.rs:69-100 | One call POSTs exactly an initial run of the live events it fetched at one point of the run, all due, stops at one that is not, marks the delivered ones, reschedules a failed one by the exact backoff and stops there, beside everyone who enqueues; on a database error it has done nothing, or stopped after a POST whose event is as it was; alone, with a receiver that answers well and no live event failed or committed after now, it delivers the first hundred of them, or all |
| `Webhook.Fail` | src/webhook.rs:79-98 | A failed POST adds one attempt, due after the exact backoff, and touches no other fetched event |
| `Webhook.Succeed` | src/webhook.rs:75-78 | A delivered event is marked, and no other fetched event changes |
| `Intercept.InsertRow` | src/store.rs:370-395 | With others before the insert and before the read-back, the insert is in the run, and the row returned is stored and has the recipient; alone it is the specified insert |
| `Intercept.RgbInvoice` | src/intercept.rs:125-149 | Fails only on an expiration the database cannot hold; the hook's insert is in the run, with each column as the request and its answer gave it, and its recipient has a row afterwards; alone it is the insert the invoice race is about |
| `Intercept.SendRgb` | src/intercept.rs:163-191 | On success each asset's insert stands in the run, in order, with each column as the request gave it and the status the donation flag chooses, and is a send as the send race has it; it has a new row of its own that has only grown since, whatever runs beside it; alone, exactly those rows were added |
| `Intercept.RecordHooked` | src/store.rs:597-644 | The two transactions of a hook, with everyone else between them: what the swap leaves is given by the row the insert left and by the table it found |
| `SendRace.SendRaces` | src/intercept.rs:172-186 | A send and the node's first report of it, in either order: the rows agree if and only if an earlier row takes the binding; otherwise inserting first leaves one bound row, and observing first a bound row and an unbound one, after a single call |
| `SendRace.BindsStranded` | src/store.rs:451-456 | An observation ends on such an unbound row if and only if it names its txid and asset, no row is bound to its index, and no unbound row holds its recipient or is an older one so named |
| `SendRace.StrandedStays` | src/engine.rs:264-266 | In every run nothing changes such a row in any column, the reaper included, until the node lists a transfer of its txid and asset that no row is bound to |
| `Intercept.RecordOutboundPayment` | src/intercept.rs:207-250 | Without a hash nothing changes; otherwise, beside any other writers, its insert and swap stand in the run: right after the insert a new hash has an outbound row with each column the argument of that name, pending, and a stored one has each column that was given and keeps the others; the result is true exactly when the hash still had the status read, which is then the node's answer, and an ending is then told with those columns |
| `Intercept.SyncUnderLock` | src/engine.rs:202-212 | An operator's or interceptor's sync holds the mutex and its report is exact; alone it is the fold of its scope; a locked node is recorded |

## Left out

- HTTP proxying, routing, authentication, request and response parsing, and the `/companion/*` endpoints.
- SQLite itself: transactions are atomic and serialised, an error rolls back, rowids grow because outbox and transfer rows are never deleted. A database error never follows a commit within one statement or transaction.
- A handler dropped when its client disconnects may leave a statement that commits after its mutex guard is gone; in the model the guard is dropped after its holder's last statement has committed or failed.
- A request reaches the receiver when it is sent, or never; one that arrives after the dispatcher has given it up and sent it again is outside the model.
- UUIDs, HMAC signatures and JSON: a transfer's or event's position stands for its rowid and its id, and a payload is a record.
- The assets table and `upsert_assets`: nothing in the modelled code reads it.
- The interval loops, `wake`, `payments_tick`, `probe`, `classify_error` and `note_locked`: thin drivers and case maps around the methods here.
- Real time: `now` is any integer given at each step, one per call of a hook or loop; `reconcile`'s elapsed time is a counter that grows by at least the backoff.
- Rln.List: the server pages by strictly descending indices below the cursor; against one that answers full pages with ever-changing cursors the source's loop need not end.
- Node internals: the node answers anything at any time unless one of its constants says what.
- The page size, which a full sync raises to at least 1000: `Rln.List` returns the same listing for every page size.
- SyncLoop.Sync: visits the assets in any order, where the source takes them in ascending order; what holds for every order holds for that one.
- StoreModel.Store.Others: its body is no scheduler; callers use its contract alone, which allows any legal actions of the other tasks.
- `/lninvoice`: in the state machine it is a hook's upsert followed by the hook's end; it has no method of its own.
- One payments loop and one dispatcher run at a time, as the process starts one of each; `max_attempts` is fixed over a run.
- Inserts are those of the two callers of `insert_transfer`: an invoice has a recipient and no txid, a send a txid and no recipient (`src/intercept.rs:134-143`, `src/intercept.rs:174-183`).
- Conversions from database text and integers back to enums and widths, and the 32-bit width of node indices.
