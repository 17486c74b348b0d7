/** What every action keeps. */
module Invariants {
  import opened Base
  import opened Status
  import opened Tables
  import opened System

  // ------------------------------------------------------------ the invariants

  /** The engine task in progress is exactly the holder of the mutex. */
  predicate LockInv(s: Sys) {
    && (forall t :: t in s.engine ==> s.lock == Some(t))
    && (s.lock.Some? ==> s.lock.value in s.engine)
  }

  /** Rows a lock holder has read keep the status it read, whatever the unlocked writers do. */
  predicate ReadsCurrent(rows: seq<Transfer>, todo: seq<Read>) {
    && (forall i :: 0 <= i < |todo| ==>
          todo[i].id < |rows| && rows[todo[i].id].status == todo[i].row.status)
    && (forall i, j :: 0 <= i < j < |todo| ==> todo[i].id != todo[j].id)
  }

  predicate ReadsInv(s: Sys) {
    forall t :: t in s.engine ==> ReadsCurrent(s.db.transfers, s.engine[t])
  }

  /** The two UNIQUE constraints, under SQL's rule that NULLs never clash; an unbound row is an
      invoice or a send, not both; settled_at. */
  predicate RowsInv(rows: seq<Transfer>) {
    && (forall i, j :: 0 <= i < j < |rows| ==> !SqlEq(rows[i].rlnIdx, rows[j].rlnIdx))
    && (forall i, j :: 0 <= i < j < |rows| ==> !SqlEq(rows[i].recipientId, rows[j].recipientId))
    && (forall i :: 0 <= i < |rows| && rows[i].rlnIdx.None? ==> rows[i].recipientId.None? || rows[i].txid.None?)
    && (forall i :: 0 <= i < |rows| && rows[i].settledAt.Some? ==> rows[i].status == Settled)
  }

  predicate EventFits(e: EventType, next: TransferStatus) {
    && (e == ConfirmedPending <==> next == WaitingConfirmations)
    && (e == TransferSettled <==> next == Settled)
    && (e == TransferFailed <==> next == Failed)
  }

  predicate PaymentEventFits(e: PaymentEventType, next: PaymentStatus) {
    next.Terminal() && (e == PaymentSettledEvent <==> next == Succeeded)
  }

  /** A transfer event tells of a forward edge its row has taken and not retreated from. */
  predicate TransferEventOk(rows: seq<Transfer>, p: Payload)
    requires p.TransferPayload?
  {
    && p.id < |rows|
    && EventFits(p.event, p.next)
    && !p.prev.Terminal() && Rank(p.prev) < Rank(p.next) <= Rank(rows[p.id].status)
    && (p.next.Terminal() ==> rows[p.id].status == p.next)
    && p.row.status == p.next
  }

  predicate PaymentEventOk(payments: map<string, Payment>, p: Payload)
    requires p.PaymentPayload?
  {
    && p.hash in payments
    && PaymentEventFits(p.paymentEvent, p.nextPayment)
    && !p.prevPayment.Terminal()
    && (p.nextPayment == Succeeded ==> payments[p.hash].status == Succeeded)
    && p.payment.status == p.nextPayment
  }

  predicate EventOk(db: Db, p: Payload) {
    match p
    case TransferPayload(_, _, _, _, _, _) => TransferEventOk(db.transfers, p)
    case PaymentPayload(_, _, _, _, _, _) => PaymentEventOk(db.payments, p)
  }

  /** Two payloads about one transfer chain by rank; nothing follows a payment.settled. */
  predicate Follows(p: Payload, q: Payload) {
    && (p.TransferPayload? && q.TransferPayload? && p.id == q.id ==> Rank(p.next) <= Rank(q.prev))
    && (p.PaymentPayload? && q.PaymentPayload? && p.hash == q.hash ==> p.nextPayment != Succeeded)
  }

  predicate OutboxInv(db: Db) {
    && (forall k :: 0 <= k < |db.outbox| ==> EventOk(db, db.outbox[k].payload))
    && (forall k, l :: 0 <= k < l < |db.outbox| ==> Follows(db.outbox[k].payload, db.outbox[l].payload))
  }

  /** No event is tried more often than the limit allows. */
  predicate AttemptsInv(s: Sys) {
    forall k :: 0 <= k < |s.db.outbox| ==> s.db.outbox[k].attempts <= s.maxAttempts
  }

  predicate FetchedCurrent(outbox: seq<Event>, f: Fetched) {
    f.rowid < |outbox| && outbox[f.rowid] == f.event
  }

  /** The batch is what is still live of a gap-free initial segment of the live events. */
  predicate BatchInv(s: Sys) {
    && (s.posted ==> s.batch != [])
    && (forall i :: 0 <= i < |s.batch| ==>
          FetchedCurrent(s.db.outbox, s.batch[i]) && Live(s.batch[i].event, s.maxAttempts))
    && (s.batch != [] ==> NoneLive(s.db.outbox, s.maxAttempts, 0, s.batch[0].rowid))
    && (forall i :: 0 < i < |s.batch| ==>
          s.batch[i - 1].rowid < s.batch[i].rowid
          && NoneLive(s.db.outbox, s.maxAttempts, s.batch[i - 1].rowid + 1, s.batch[i].rowid))
  }

  /** Everything queued before an event that was POSTed is delivered or parked; while an outcome is
      awaited, the last request was about the head of the batch. */
  predicate SentInv(s: Sys) {
    && (forall i :: 0 <= i < |s.sent| ==>
          s.sent[i].rowid < |s.db.outbox|
          && s.db.outbox[s.sent[i].rowid].payload == s.sent[i].payload
          && NoneLive(s.db.outbox, s.maxAttempts, 0, s.sent[i].rowid))
    && (forall i, j :: 0 <= i < j < |s.sent| ==> s.sent[i].rowid <= s.sent[j].rowid)
    && (s.posted ==> s.sent != [] && s.batch != [] && s.sent[|s.sent| - 1].rowid == s.batch[0].rowid)
  }

  /** Only the payments loop sets the baseline, so the value it read stays unset while it runs. */
  predicate PollInv(s: Sys) {
    s.poll.Some? ==> (s.poll.value.baseline.None? <==> s.db.baseline.None?)
  }

  predicate Inv(s: Sys) {
    && LockInv(s) && ReadsInv(s) && RowsInv(s.db.transfers) && OutboxInv(s.db)
    && AttemptsInv(s) && BatchInv(s) && SentInv(s) && PollInv(s)
  }

  // ---------------------------------------------------- what statements preserve

  /** How unlocked writers, and an observation before its swap, may change the transfers table. */
  predicate RowsKept(a: seq<Transfer>, b: seq<Transfer>) {
    |a| <= |b| && forall i :: 0 <= i < |a| ==> b[i].status == a[i].status && b[i].settledAt == a[i].settledAt
  }

  lemma UpsertKeeps(rows: seq<Transfer>, o: Observed, now: int)
    requires RowsInv(rows) && UpsertObserved(rows, o, now).Ok?
    ensures RowsInv(UpsertObserved(rows, o, now).value.rows)
    ensures RowsKept(rows, UpsertObserved(rows, o, now).value.rows)
  {
    var found := FindMatch(rows, o);
    if found.Some? {
      // A row already bound to o.rlnIdx would have been class 0, and unique.
      forall j: nat | j < |rows| && j != found.value
        ensures !SqlEq(rows[j].rlnIdx, Some(o.rlnIdx))
      {
        assert Matches(rows[j], o) ==> Precedes(rows, o, found.value, j);
      }
    }
  }

  lemma InsertKeeps(rows: seq<Transfer>, n: NewTransfer, now: int)
    requires RowsInv(rows) && FromInterceptor(n) && InsertTransfer(rows, n, now).Ok?
    ensures RowsInv(InsertTransfer(rows, n, now).value.rows)
    ensures RowsKept(rows, InsertTransfer(rows, n, now).value.rows)
  {
  }

  lemma SwapKeepsRows(db: Db, id: nat, row: Transfer, observed: TransferStatus, now: int)
    requires RowsInv(db.transfers)
    ensures RowsInv(ApplyObserved(db, id, row, observed, now).transfers)
  {
  }

  lemma RowsKeptOutbox(db: Db, rows: seq<Transfer>)
    requires OutboxInv(db) && RowsKept(db.transfers, rows)
    ensures OutboxInv(db.(transfers := rows))
  {
    forall k | 0 <= k < |db.outbox| ensures EventOk(db.(transfers := rows), db.outbox[k].payload) {
      assert EventOk(db, db.outbox[k].payload);
    }
  }

  lemma SwapKeepsOutbox(db: Db, id: nat, row: Transfer, observed: TransferStatus, now: int)
    requires OutboxInv(db)
    ensures OutboxInv(ApplyObserved(db, id, row, observed, now))
  {
    if Applies(db, id, row, observed) {
      var after := ApplyObserved(db, id, row, observed, now);
      forall k | 0 <= k < |db.outbox|
        ensures EventOk(after, db.outbox[k].payload)
        ensures |after.outbox| > |db.outbox| ==> Follows(db.outbox[k].payload, after.outbox[|db.outbox|].payload)
      {
        assert EventOk(db, db.outbox[k].payload);
      }
    }
  }

  lemma PaymentSwapKeepsOutbox(db: Db, hash: string, row: Payment, observed: PaymentStatus, now: int)
    requires OutboxInv(db)
    ensures OutboxInv(ApplyPaymentObserved(db, hash, row, observed, now))
  {
    if PaymentApplies(db, hash, row, observed) {
      var after := ApplyPaymentObserved(db, hash, row, observed, now);
      forall k | 0 <= k < |db.outbox|
        ensures EventOk(after, db.outbox[k].payload)
        ensures |after.outbox| > |db.outbox| ==> Follows(db.outbox[k].payload, after.outbox[|db.outbox|].payload)
      {
        assert EventOk(db, db.outbox[k].payload);
      }
    }
  }

  lemma PaymentUpsertKeepsOutbox(db: Db, n: NewPayment, lastSeenAt: Option<int>, now: int)
    requires OutboxInv(db) && UpsertPayment(db.payments, n, lastSeenAt, now).Ok?
    ensures OutboxInv(db.(payments := UpsertPayment(db.payments, n, lastSeenAt, now).value))
  {
    var after := db.(payments := UpsertPayment(db.payments, n, lastSeenAt, now).value);
    forall k | 0 <= k < |db.outbox| ensures EventOk(after, db.outbox[k].payload) {
      assert EventOk(db, db.outbox[k].payload);
    }
  }

  /** An outbox row whose delivery columns alone changed. */
  lemma DeliveryKeepsOutbox(db: Db, rowid: nat, e: Event)
    requires OutboxInv(db) && rowid < |db.outbox| && e.payload == db.outbox[rowid].payload
    ensures OutboxInv(db.(outbox := db.outbox[rowid := e]))
  {
    var after := db.(outbox := db.outbox[rowid := e]);
    forall k | 0 <= k < |after.outbox| ensures EventOk(after, after.outbox[k].payload) {
      assert EventOk(db, db.outbox[k].payload);
    }
  }

  // --------------------------------------------------------- every action, by part

  predicate EngineAction(a: Action) {
    a.Lock? || a.Observe? || a.Scan? || a.Swap? || a.Skip? || a.Unlock?
  }

  lemma OthersKeepLock(s: Sys, a: Action)
    requires Enabled(s, a) && !EngineAction(a) && !a.Crash?
    ensures Apply(s, a).lock == s.lock && Apply(s, a).engine == s.engine
  {
    hide FindMatch, HolderOf, ExpiredBelow, PlanTransition, PlanPayment, UpsertedPayment, LiveFrom;
  }

  lemma LockInvStep(s: Sys, a: Action)
    requires LockInv(s) && Enabled(s, a)
    ensures LockInv(Apply(s, a))
  {
    if !EngineAction(a) && !a.Crash? {
      OthersKeepLock(s, a);
      hide Apply, Enabled;
    }
  }

  lemma PollInvStep(s: Sys, a: Action)
    requires PollInv(s) && Enabled(s, a)
    ensures PollInv(Apply(s, a))
  {
    hide FindMatch, HolderOf, ExpiredBelow, PlanTransition, PlanPayment, UpsertedPayment, LiveFrom;
  }

  lemma RowsInvStep(s: Sys, a: Action)
    requires RowsInv(s.db.transfers) && Enabled(s, a)
    ensures RowsInv(Apply(s, a).db.transfers)
  {
    hide RowsInv;
    if a.Observe? {
      if UpsertObserved(s.db.transfers, a.o, a.now).Ok? { UpsertKeeps(s.db.transfers, a.o, a.now); }
    } else if a.Insert? {
      if InsertTransfer(s.db.transfers, a.n, a.now).Ok? { InsertKeeps(s.db.transfers, a.n, a.now); }
    } else if a.Swap? {
      var r := s.engine[a.tid][0];
      SwapKeepsRows(s.db, r.id, r.row, r.observed, a.now);
    } else {
      OthersKeepTransfers(s, a);
    }
  }

  lemma OutboxInvTransfers(s: Sys, a: Action)
    requires RowsInv(s.db.transfers) && OutboxInv(s.db) && Enabled(s, a)
    requires a.Observe? || a.Insert? || a.Swap?
    ensures OutboxInv(Apply(s, a).db)
  {
    match a
    case Observe(tid, o, now) =>
      var u := UpsertObserved(s.db.transfers, o, now);
      if u.Ok? { UpsertKeeps(s.db.transfers, o, now); RowsKeptOutbox(s.db, u.value.rows); }
    case Insert(n, now) =>
      var u := InsertTransfer(s.db.transfers, n, now);
      if u.Ok? { InsertKeeps(s.db.transfers, n, now); RowsKeptOutbox(s.db, u.value.rows); }
    case Swap(tid, now) =>
      var r := s.engine[tid][0];
      SwapKeepsOutbox(s.db, r.id, r.row, r.observed, now);
  }

  predicate PaymentWrite(a: Action) {
    a.HookUpsert? || a.HookSwap? || a.PollUpsert? || a.PollSwap? || a.PollEnd?
  }

  lemma OutboxInvPayments(s: Sys, a: Action)
    requires OutboxInv(s.db) && Enabled(s, a) && PaymentWrite(a)
    ensures OutboxInv(Apply(s, a).db)
  {
    match a
    case HookSwap(tid, now) =>
      var r := s.hooks[tid];
      PaymentSwapKeepsOutbox(s.db, r.hash, r.row, r.observed, now);
    case PollSwap(now) =>
      var r := s.poll.value.read.value;
      PaymentSwapKeepsOutbox(s.db, r.hash, r.row, r.observed, now);
    case HookUpsert(tid, p, observed, now) =>
      if AmountsFit(p) { PaymentUpsertKeepsOutbox(s.db, p, None, now); }
    case PollUpsert(p, now) =>
      var n := p.(status := InsertStatus(s.poll.value.baseline, p.status));
      if AmountsFit(n) { PaymentUpsertKeepsOutbox(s.db, n, Some(now), now); }
    case PollEnd(now) => BaselineKeepsOutbox(s.db, now);
  }

  lemma BaselineKeepsOutbox(db: Db, now: int)
    requires OutboxInv(db)
    ensures OutboxInv(db.(baseline := Some(now)))
  {
    forall k | 0 <= k < |db.outbox| ensures EventOk(db.(baseline := Some(now)), db.outbox[k].payload) {
      assert EventOk(db, db.outbox[k].payload);
    }
  }

  lemma OutboxInvStep(s: Sys, a: Action)
    requires RowsInv(s.db.transfers) && OutboxInv(s.db) && BatchInv(s) && Enabled(s, a)
    ensures OutboxInv(Apply(s, a).db)
  {
    if a.Observe? || a.Insert? || a.Swap? {
      OutboxInvTransfers(s, a);
    } else if PaymentWrite(a) {
      OutboxInvPayments(s, a);
    } else if a.Mark? {
      var id := s.batch[0].rowid;
      DeliveryKeepsOutbox(s.db, id, Delivered(s.db.outbox[id], a.now));
    } else if a.Record? {
      var id := s.batch[0].rowid;
      DeliveryKeepsOutbox(s.db, id, Attempted(s.db.outbox[id], a.next));
    } else {
      assert Apply(s, a).db == s.db;
    }
  }

  lemma ReadsKept(a: seq<Transfer>, b: seq<Transfer>, todo: seq<Read>)
    requires ReadsCurrent(a, todo) && RowsKept(a, b)
    ensures ReadsCurrent(b, todo)
  {
  }

  lemma ReadsAfterSwap(db: Db, todo: seq<Read>, now: int)
    requires ReadsCurrent(db.transfers, todo) && todo != []
    ensures var r := todo[0];
            ReadsCurrent(ApplyObserved(db, r.id, r.row, r.observed, now).transfers, todo[1..])
  {
  }

  lemma ReadsAfterInsert(s: Sys, n: NewTransfer, now: int)
    requires ReadsInv(s) && RowsInv(s.db.transfers) && Enabled(s, Insert(n, now))
    ensures ReadsInv(Inserted(s, n, now))
  {
    if InsertTransfer(s.db.transfers, n, now).Ok? {
      InsertKeeps(s.db.transfers, n, now);
      forall t | t in s.engine ensures ReadsCurrent(Inserted(s, n, now).db.transfers, s.engine[t]) {
        ReadsKept(s.db.transfers, Inserted(s, n, now).db.transfers, s.engine[t]);
      }
    }
  }

  /** An engine task's own turn: it is alone inside the mutex. */
  lemma ReadsAfterTurn(s: Sys, a: Action)
    requires LockInv(s) && ReadsInv(s) && Enabled(s, a)
    requires a.Observe? || a.Swap? || a.Skip? || a.Scan?
    ensures ReadsInv(Apply(s, a))
  {
    assert ReadsCurrent(s.db.transfers, s.engine[a.tid]);
    assert s.lock == Some(a.tid);
    if a.Swap? {
      ReadsAfterSwap(s.db, s.engine[a.tid], a.now);
      hide ReadsCurrent, ApplyObserved;
    }
  }

  lemma ReadsInvStep(s: Sys, a: Action)
    requires LockInv(s) && ReadsInv(s) && RowsInv(s.db.transfers) && Enabled(s, a)
    ensures ReadsInv(Apply(s, a))
  {
    if a.Insert? {
      ReadsAfterInsert(s, a.n, a.now);
    } else if a.Observe? || a.Swap? || a.Skip? || a.Scan? {
      ReadsAfterTurn(s, a);
    } else {
      OthersKeepTransfers(s, a);
      hide ReadsCurrent;
    }
  }

  /** How every action but Mark and Record leaves the outbox: longer by at most one fresh event. */
  predicate Enqueued(a: seq<Event>, b: seq<Event>) {
    a == b || (|b| == |a| + 1 && b[..|a|] == a && b[|a|].attempts == 0 && b[|a|].deliveredAt.None?)
  }

  lemma OutboxGrows(s: Sys, a: Action)
    requires Enabled(s, a) && !a.Mark? && !a.Record?
    ensures Enqueued(s.db.outbox, Apply(s, a).db.outbox)
  {
    hide FindMatch, HolderOf, ExpiredBelow, PlanTransition, PlanPayment, UpsertedPayment, LiveFrom;
  }

  lemma AttemptsInvStep(s: Sys, a: Action)
    requires AttemptsInv(s) && BatchInv(s) && Enabled(s, a)
    ensures AttemptsInv(Apply(s, a))
  {
    if !a.Mark? && !a.Record? {
      OutboxGrows(s, a);
      LimitStep(s, a);
      hide Apply, Enabled, BatchInv;
      var b := Apply(s, a).db.outbox;
      forall k | 0 <= k < |b| ensures b[k].attempts <= s.maxAttempts {
        assert k < |s.db.outbox| ==> b[k] == b[..|s.db.outbox|][k];
      }
    }
  }

  lemma EnqueueKeepsDispatcher(s: Sys, t: Sys)
    requires BatchInv(s) && SentInv(s) && Enqueued(s.db.outbox, t.db.outbox)
    requires t.maxAttempts == s.maxAttempts && t.batch == s.batch && t.posted == s.posted && t.sent == s.sent
    ensures BatchInv(t) && SentInv(t)
  {
    var a, b := s.db.outbox, t.db.outbox;
    assert forall k :: 0 <= k < |a| ==> b[k] == a[k];
  }

  lemma LiveFromGapless(outbox: seq<Event>, maxAttempts: nat, from: nat, limit: nat, i: nat)
    requires from <= |outbox| && i + 1 < |LiveFrom(outbox, maxAttempts, from, limit)|
    ensures var r := LiveFrom(outbox, maxAttempts, from, limit);
            r[i] < r[i + 1] && NoneLive(outbox, maxAttempts, r[i] + 1, r[i + 1])
    decreases |outbox| - from
  {
    if Live(outbox[from], maxAttempts) {
      if i > 0 { LiveFromGapless(outbox, maxAttempts, from + 1, limit - 1, i - 1); }
    } else {
      LiveFromGapless(outbox, maxAttempts, from + 1, limit, i);
    }
  }

  /** A fetch leaves out a live event only if it is full of older ones. */
  lemma {:induction false} FetchesFirst(outbox: seq<Event>, maxAttempts: nat, from: nat, limit: nat, k: nat)
    requires from <= k < |outbox| && Live(outbox[k], maxAttempts)
    ensures var r := LiveFrom(outbox, maxAttempts, from, limit);
            k in r || (|r| == limit && forall i :: 0 <= i < |r| ==> r[i] < k)
    decreases k - from
  {
    if from < k {
      var left := if Live(outbox[from], maxAttempts) && limit > 0 then limit - 1 else limit;
      FetchesFirst(outbox, maxAttempts, from + 1, left, k);
    }
  }

  predicate DispatcherAction(a: Action) {
    a.Query? || a.PostHead? || a.Mark? || a.Record? || a.EndBatch?
  }

  lemma OthersKeepTransfers(s: Sys, a: Action)
    requires Enabled(s, a) && !a.Observe? && !a.Insert? && !a.Swap?
    ensures Apply(s, a).db.transfers == s.db.transfers
  {
    hide FindMatch, HolderOf, ExpiredBelow, PlanTransition, PlanPayment, UpsertedPayment, LiveFrom;
  }

  lemma OthersKeepPayments(s: Sys, a: Action)
    requires Enabled(s, a) && !PaymentWrite(a)
    ensures Apply(s, a).db.payments == s.db.payments && Apply(s, a).db.baseline == s.db.baseline
  {
  }

  lemma OthersKeepOutbox(s: Sys, a: Action)
    requires Enabled(s, a) && !a.Swap? && !a.HookSwap? && !a.PollSwap? && !a.Mark? && !a.Record?
    ensures Apply(s, a).db.outbox == s.db.outbox
  {
  }

  lemma OthersKeepBatch(s: Sys, a: Action)
    requires Enabled(s, a) && !DispatcherAction(a) && !a.Crash?
    ensures var t := Apply(s, a);
            t.maxAttempts == s.maxAttempts && t.batch == s.batch && t.posted == s.posted && t.sent == s.sent
  {
  }

  lemma QueryKeeps(s: Sys)
    requires BatchInv(s) && SentInv(s) && Enabled(s, Query)
    ensures BatchInv(Apply(s, Query)) && SentInv(Apply(s, Query))
  {
    var ids := UndeliveredEvents(s.db.outbox, s.maxAttempts);
    forall i | 0 < i < |ids|
      ensures ids[i - 1] < ids[i] && NoneLive(s.db.outbox, s.maxAttempts, ids[i - 1] + 1, ids[i])
    {
      LiveFromGapless(s.db.outbox, s.maxAttempts, 0, BATCH_LIMIT, i - 1);
    }
  }

  lemma DispatcherStep(s: Sys, a: Action)
    requires BatchInv(s) && SentInv(s) && Enabled(s, a)
    ensures BatchInv(Apply(s, a)) && SentInv(Apply(s, a))
  {
    if a.Query? {
      QueryKeeps(s);
    } else if a.PostHead? {
      PostKeepsSent(s, a.arrives);
    } else if a.Mark? {
      MarkKeeps(s, a.now);
    } else if a.Record? {
      RecordKeeps(s, a.next);
    } else if !a.EndBatch? && !a.Crash? {
      OthersKeepBatch(s, a);
      OutboxGrows(s, a);
      EnqueueKeepsDispatcher(s, Apply(s, a));
    }
  }

  /** A live head is not below anything POSTed before: those below are dead for good. */
  lemma PostKeepsSent(s: Sys, arrives: bool)
    requires BatchInv(s) && SentInv(s) && Enabled(s, PostHead(arrives))
    ensures BatchInv(Apply(s, PostHead(arrives))) && SentInv(Apply(s, PostHead(arrives)))
  {
    forall i | 0 <= i < |s.sent| ensures s.sent[i].rowid <= s.batch[0].rowid {
      assert FetchedCurrent(s.db.outbox, s.batch[0]);
      assert Live(s.db.outbox[s.batch[0].rowid], s.maxAttempts);
    }
  }

  lemma MarkKeeps(s: Sys, now: int)
    requires BatchInv(s) && SentInv(s) && Enabled(s, Mark(now))
    ensures BatchInv(Apply(s, Mark(now))) && SentInv(Apply(s, Mark(now)))
  {
    assert FetchedCurrent(s.db.outbox, s.batch[0]);
    MarkKeepsBatch(s, now);
    MarkKeepsSent(s, now);
  }

  /** Delivering an event makes none live. */
  lemma MarkKeepsSent(s: Sys, now: int)
    requires SentInv(s) && s.batch != [] && FetchedCurrent(s.db.outbox, s.batch[0])
    ensures SentInv(Marked(s, now))
  {
    forall i | 0 <= i < |s.sent| ensures NoneLive(Marked(s, now).db.outbox, s.maxAttempts, 0, s.sent[i].rowid) {
      assert NoneLive(s.db.outbox, s.maxAttempts, 0, s.sent[i].rowid);
    }
  }

  lemma MarkKeepsBatch(s: Sys, now: int)
    requires BatchInv(s) && s.batch != []
    ensures BatchInv(Marked(s, now))
  {
    var t := Marked(s, now);
    var id := s.batch[0].rowid;
    assert FetchedCurrent(s.db.outbox, s.batch[0]);
    BatchAscends(s);
    assert forall k :: 0 <= k < |s.db.outbox| && k != id ==> t.db.outbox[k] == s.db.outbox[k];
    forall i | 0 <= i < |t.batch|
      ensures FetchedCurrent(t.db.outbox, t.batch[i]) && Live(t.batch[i].event, s.maxAttempts)
    {
      assert t.batch[i] == s.batch[i + 1];
    }
    if t.batch != [] {
      assert s.batch[1] == t.batch[0];
      assert NoneLive(s.db.outbox, s.maxAttempts, s.batch[0].rowid + 1, s.batch[1].rowid);
    }
    forall i | 0 < i < |t.batch|
      ensures t.batch[i - 1].rowid < t.batch[i].rowid
      ensures NoneLive(t.db.outbox, s.maxAttempts, t.batch[i - 1].rowid + 1, t.batch[i].rowid)
    {
      assert t.batch[i] == s.batch[i + 1] && t.batch[i - 1] == s.batch[i];
      assert NoneLive(s.db.outbox, s.maxAttempts, s.batch[i].rowid + 1, s.batch[i + 1].rowid);
    }
  }

  lemma RecordKeeps(s: Sys, next: int)
    requires BatchInv(s) && SentInv(s) && Enabled(s, Record(next))
    ensures BatchInv(Apply(s, Record(next))) && SentInv(Apply(s, Record(next)))
  {
    var t := Apply(s, Record(next));
    assert FetchedCurrent(s.db.outbox, s.batch[0]);
    forall i | 0 <= i < |t.sent| ensures NoneLive(t.db.outbox, s.maxAttempts, 0, t.sent[i].rowid) {
      assert NoneLive(s.db.outbox, s.maxAttempts, 0, s.sent[i].rowid);
    }
  }

  lemma BatchAscends(s: Sys)
    requires BatchInv(s) && s.batch != []
    ensures forall i :: 0 < i < |s.batch| ==> s.batch[0].rowid < s.batch[i].rowid
  {
    forall i | 0 < i < |s.batch| ensures s.batch[0].rowid < s.batch[i].rowid { HeadBelow(s, i); }
  }

  lemma {:induction false} HeadBelow(s: Sys, i: nat)
    requires BatchInv(s) && 0 < i < |s.batch|
    ensures s.batch[0].rowid < s.batch[i].rowid
  {
    assert s.batch[i - 1].rowid < s.batch[i].rowid;
    if i > 1 { HeadBelow(s, i - 1); }
  }

  // ------------------------------------------------------------------- the whole

  lemma InvStep(s: Sys, a: Action)
    requires Inv(s) && Enabled(s, a)
    ensures Inv(Apply(s, a))
  {
    LockInvStep(s, a);
    ReadsInvStep(s, a);
    RowsInvStep(s, a);
    OutboxInvStep(s, a);
    AttemptsInvStep(s, a);
    DispatcherStep(s, a);
    PollInvStep(s, a);
  }

  lemma InitInv(maxAttempts: nat)
    ensures Inv(Init(maxAttempts))
  {
  }

  /** Every state of every run, whatever the interleaving and wherever the process crashed. */
  lemma {:induction false} Reachable(maxAttempts: nat, t: seq<Action>)
    requires Legal(maxAttempts, t)
    ensures Inv(After(maxAttempts, t)) && After(maxAttempts, t).maxAttempts == maxAttempts
  {
    if t == [] {
      InitInv(maxAttempts);
    } else {
      var s, a := After(maxAttempts, t[..|t| - 1]), t[|t| - 1];
      Reachable(maxAttempts, t[..|t| - 1]);
      InvStep(s, a);
      LimitStep(s, a);
      assert After(maxAttempts, t) == Apply(s, a);
    }
  }

  lemma LimitStep(s: Sys, a: Action)
    requires Enabled(s, a)
    ensures Apply(s, a).maxAttempts == s.maxAttempts
  {
  }
}
