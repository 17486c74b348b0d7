/** What each transaction writes, column by column, on the row it ends on. */
module Columns {
  import opened Base
  import opened Status
  import opened Tables
  import opened System
  import opened Invariants
  import Listing
  import Rln

  const MAX_STORED: int := 9223372036854775807   // SQLite's largest integer

  predicate Storable(v: Option<u64>) {
    v.None? || v.value <= MAX_STORED
  }

  /** The column holds what was given, or what it held if nothing was. */
  predicate KeepsKnown<T(==)>(given: Option<T>, was: Option<T>, column: Option<T>) {
    if given.Some? then column == given else column == was
  }

  // ------------------------------------------------------------------- transfers

  predicate BoundTo(r: Transfer, t: Rln.RlnTransfer) {
    r.rlnIdx == Some(t.idx)
  }

  /** Unbound, with the listed recipient. */
  predicate Awaits(r: Transfer, t: Rln.RlnTransfer) {
    r.rlnIdx.None? && t.recipientId.Some? && r.recipientId == t.recipientId
  }

  /** Unbound, with the listed txid and the asset it is listed under. */
  predicate SentAs(r: Transfer, bucket: Option<string>, t: Rln.RlnTransfer) {
    r.rlnIdx.None? && t.txid.Some? && r.txid == t.txid && bucket.Some? && r.assetId == bucket
  }

  /** The row a listed transfer is matched to: the one bound to its index; else the one that awaits its
      recipient; else the oldest unbound one of its txid and asset; else a new one. */
  lemma ObserveFinds(rows: seq<Transfer>, bucket: Option<string>, t: Rln.RlnTransfer)
    requires RowsInv(rows)
    ensures var id := Listing.Target(rows, Listing.Tag(bucket, t));
            if exists j :: 0 <= j < |rows| && BoundTo(rows[j], t) then
              id < |rows| && BoundTo(rows[id], t)
            else if exists j :: 0 <= j < |rows| && Awaits(rows[j], t) then
              id < |rows| && Awaits(rows[id], t)
            else if exists j :: 0 <= j < |rows| && SentAs(rows[j], bucket, t) then
              id < |rows| && SentAs(rows[id], bucket, t) && (forall j :: 0 <= j < id ==> !SentAs(rows[j], bucket, t))
            else id == |rows|
  {
    var o := Listing.Tag(bucket, t);
    var found := FindMatch(rows, o);
    forall j | 0 <= j < |rows|
      ensures Matches(rows[j], o) <==> BoundTo(rows[j], t) || Awaits(rows[j], t) || SentAs(rows[j], bucket, t)
      ensures Matches(rows[j], o) ==>
                MatchClass(rows[j], o) == if BoundTo(rows[j], t) then 0 else if Awaits(rows[j], t) then 1 else 2
      ensures found.Some? && Matches(rows[j], o) ==> Precedes(rows, o, found.value, j)
    {
    }
  }

  /** What an observation of a listed transfer writes: on a row already there the node's columns alone, and
      on a new one those, its status and its recipient. */
  predicate ObservedOn(was: Option<Transfer>, row: Transfer, bucket: Option<string>, t: Rln.RlnTransfer, now: int) {
    && row.rlnIdx == Some(t.idx) && row.kind == Some(t.kind) && row.lastSeenAt == Some(now)
    && (if was.Some? then
          && KeepsKnown(bucket, was.value.assetId, row.assetId) && KeepsKnown(t.txid, was.value.txid, row.txid)
          && KeepsKnown(t.expiration, was.value.expiration, row.expiration)
          && row.status == was.value.status && row.recipientId == was.value.recipientId
          && row.batchTransferIdx == was.value.batchTransferIdx && row.invoice == was.value.invoice
          && row.createdAt == was.value.createdAt && row.updatedAt == was.value.updatedAt
          && row.settledAt == was.value.settledAt
        else
          && row.assetId == bucket && row.txid == t.txid && row.expiration == t.expiration
          && row.status == t.status && row.recipientId == t.recipientId
          && row.batchTransferIdx.None? && row.invoice.None?
          && row.createdAt == now && row.updatedAt == now && row.settledAt.None?)
  }

  /** `upsert_observed`, from the node's own entry: the row it ends on, and the status it goes on with. */
  lemma ObserveWrites(s: Sys, tid: Tid, bucket: Option<string>, t: Rln.RlnTransfer, now: int)
    requires RowsInv(s.db.transfers) && tid in s.engine && s.engine[tid] == []
    ensures var o := Listing.Tag(bucket, t);
            var after := Apply(s, Observe(tid, o, now));
            var id := Listing.Target(s.db.transfers, o);
            if Storable(t.expiration) && (id < |s.db.transfers| || HolderOf(s.db.transfers, t.recipientId).None?) then
              && id < |after.db.transfers|
              && after.engine[tid] == [Read(id, after.db.transfers[id], t.status)]
              && ObservedOn(if id < |s.db.transfers| then Some(s.db.transfers[id]) else None,
                            after.db.transfers[id], bucket, t, now)
              && (forall j :: 0 <= j < |s.db.transfers| && j != id ==> after.db.transfers[j] == s.db.transfers[j])
            else after == s
  {
  }

  /** What an interceptor's insert writes: on a row that has its recipient the invoice, the batch index and a
      given expiration, and otherwise a new row, bound to nothing. */
  predicate InsertedOn(was: Option<Transfer>, row: Transfer, n: NewTransfer, now: int) {
    && row.invoice == n.invoice && row.batchTransferIdx == n.batchTransferIdx && row.updatedAt == now
    && row.recipientId == n.recipientId
    && (if was.Some? then
          && KeepsKnown(n.expiration, was.value.expiration, row.expiration)
          && row.rlnIdx == was.value.rlnIdx && row.assetId == was.value.assetId && row.kind == was.value.kind
          && row.status == was.value.status && row.txid == was.value.txid && row.createdAt == was.value.createdAt
          && row.lastSeenAt == was.value.lastSeenAt && row.settledAt == was.value.settledAt
        else
          && row.rlnIdx.None? && row.assetId == n.assetId && row.kind == n.kind && row.status == n.status
          && row.txid == n.txid && row.expiration == n.expiration && row.createdAt == now
          && row.lastSeenAt.None? && row.settledAt.None?)
  }

  /** `insert_transfer`. */
  lemma InsertWrites(s: Sys, n: NewTransfer, now: int)
    requires RowsInv(s.db.transfers) && FromInterceptor(n)
    ensures var after, holder := Apply(s, Insert(n, now)).db.transfers, HolderOf(s.db.transfers, n.recipientId);
            var id := if holder.Some? then holder.value else |s.db.transfers|;
            if Storable(n.expiration) then
              && |after| == (if holder.Some? then |s.db.transfers| else id + 1)
              && InsertedOn(if holder.Some? then Some(s.db.transfers[id]) else None, after[id], n, now)
              && (forall j :: 0 <= j < |s.db.transfers| && j != id ==> after[j] == s.db.transfers[j])
            else after == s.db.transfers
  {
    hide InsertTransfer, InsertedOn, RowsInv;
    InsertedRow(s.db.transfers, n, now);
  }

  lemma InsertedRow(rows: seq<Transfer>, n: NewTransfer, now: int)
    ensures var u, holder := InsertTransfer(rows, n, now), HolderOf(rows, n.recipientId);
            var id := if holder.Some? then holder.value else |rows|;
            && (u.Ok? <==> Storable(n.expiration))
            && (u.Ok? ==>
                  && |u.value.rows| == (if holder.Some? then |rows| else id + 1)
                  && InsertedOn(if holder.Some? then Some(rows[id]) else None, u.value.rows[id], n, now)
                  && (forall j :: 0 <= j < |rows| && j != id ==> u.value.rows[j] == rows[j]))
  {
  }

  /** An event that has just been queued: not tried, due at once, not delivered. */
  predicate Fresh(e: Event, now: int) {
    e.attempts == 0 && e.nextAttemptAt == now && e.deliveredAt.None?
  }

  /** `apply_transition`: the row takes the new status and the time, and the time of its settlement if it
      settles; an event that is queued with it is due at once, and says the row and the time. */
  lemma SwapWrites(s: Sys, tid: Tid, now: int)
    requires Inv(s) && Enabled(s, Swap(tid, now))
    requires var r := s.engine[tid][0]; Applies(s.db, r.id, r.row, r.observed)
    ensures var r, b := s.engine[tid][0], Apply(s, Swap(tid, now)).db;
            && |b.transfers| == |s.db.transfers| && r.id < |b.transfers|
            && (forall j :: 0 <= j < |b.transfers| && j != r.id ==> b.transfers[j] == s.db.transfers[j])
            && var was, row := s.db.transfers[r.id], b.transfers[r.id];
               && row.status == r.observed && row.updatedAt == now
               && row.settledAt == (if r.observed == Settled then Some(now) else None)
               && row == was.(status := row.status, updatedAt := row.updatedAt, settledAt := row.settledAt)
    ensures var r, b := s.engine[tid][0], Apply(s, Swap(tid, now)).db;
            |b.outbox| > |s.db.outbox| ==>
              && |b.outbox| == |s.db.outbox| + 1 && b.outbox[..|s.db.outbox|] == s.db.outbox
              && Fresh(b.outbox[|s.db.outbox|], now)
              && var p := b.outbox[|s.db.outbox|].payload;
                 && AboutTransfer(p, r.id) && p.at == now && p.prev == r.row.status && p.next == r.observed
                 && p.row.status == r.observed && p.row.updatedAt == now
                 && p.row.settledAt == (if r.observed == Settled then Some(now) else r.row.settledAt)
                 && p.row == r.row.(status := p.row.status, updatedAt := now, settledAt := p.row.settledAt)
  {
    var r := s.engine[tid][0];
    assert s.db.transfers[r.id].settledAt.None?;
  }

  // -------------------------------------------------------------------- payments

  /** What an upsert writes on the row of its hash; the poll also says when it saw it. */
  predicate PaymentOn(was: Option<Payment>, row: Payment, n: NewPayment, seenAt: Option<int>, now: int) {
    && row.direction == n.direction
    && (if was.Some? then
          && KeepsKnown(n.assetId, was.value.assetId, row.assetId)
          && KeepsKnown(n.assetAmount, was.value.assetAmount, row.assetAmount)
          && KeepsKnown(n.amtMsat, was.value.amtMsat, row.amtMsat)
          && KeepsKnown(n.payeePubkey, was.value.payeePubkey, row.payeePubkey)
          && KeepsKnown(seenAt, was.value.lastSeenAt, row.lastSeenAt)
          && row.status == was.value.status && row.createdAt == was.value.createdAt
          && row.updatedAt == was.value.updatedAt
        else
          && row.assetId == n.assetId && row.assetAmount == n.assetAmount && row.amtMsat == n.amtMsat
          && row.payeePubkey == n.payeePubkey && row.lastSeenAt == seenAt && row.status == n.status
          && row.createdAt == now && row.updatedAt == now)
  }

  function StoredPayment(db: Db, hash: string): Option<Payment> {
    if hash in db.payments then Some(db.payments[hash]) else None
  }

  predicate OthersAlone(a: map<string, Payment>, b: map<string, Payment>, hash: string) {
    b.Keys == a.Keys + {hash} && forall h :: h in a && h != hash ==> b[h] == a[h]
  }

  /** `insert_pending_payment`. */
  lemma HookWrites(s: Sys, tid: Tid, p: NewPayment, observed: PaymentStatus, now: int)
    requires Enabled(s, HookUpsert(tid, p, observed, now))
    ensures var after := Apply(s, HookUpsert(tid, p, observed, now));
            if Storable(p.assetAmount) && Storable(p.amtMsat) then
              && OthersAlone(s.db.payments, after.db.payments, p.hash) && tid in after.hooks
              && PaymentOn(StoredPayment(s.db, p.hash), after.db.payments[p.hash], p, None, now)
              && after.hooks[tid] == PaymentRead(p.hash, after.db.payments[p.hash], observed)
            else after == s
  {
    hide UpsertedPayment, PaymentOn;
    UpsertedRow(s.db, p, None, now);
  }

  lemma UpsertedRow(db: Db, n: NewPayment, seenAt: Option<int>, now: int)
    ensures PaymentOn(StoredPayment(db, n.hash), UpsertedPayment(db.payments, n, seenAt, now), n, seenAt, now)
  {
  }

  /** `upsert_payment_observed`, with the status the baseline rule gives a hash that is new: pending if the
      baseline is set and the listed status is an ending. */
  lemma PollWrites(s: Sys, p: NewPayment, now: int)
    requires Enabled(s, PollUpsert(p, now)) && Storable(p.assetAmount) && Storable(p.amtMsat)
    ensures var after, baseline := Apply(s, PollUpsert(p, now)), s.poll.value.baseline;
            var ended := p.status == Succeeded || p.status == PaymentFailed || p.status == Cancelled;
            var n := p.(status := if baseline.Some? && ended then Pending else p.status);
            && OthersAlone(s.db.payments, after.db.payments, p.hash) && after.poll.Some?
            && PaymentOn(StoredPayment(s.db, p.hash), after.db.payments[p.hash], n, Some(now), now)
            && after.poll.value.read == Some(PaymentRead(p.hash, after.db.payments[p.hash], p.status))
  {
    hide UpsertedPayment, PaymentOn;
    var n := p.(status := InsertStatus(s.poll.value.baseline, p.status));
    UpsertedRow(s.db, n, Some(now), now);
    assert Apply(s, PollUpsert(p, now)) == PollUpserted(s, p, now);
  }

  /** `apply_payment_transition`, by either writer. */
  lemma PaymentSwapWrites(db: Db, r: PaymentRead, now: int)
    requires PaymentApplies(db, r.hash, r.row, r.observed)
    ensures var b := ApplyPaymentObserved(db, r.hash, r.row, r.observed, now);
            && r.hash in db.payments && OthersAlone(db.payments, b.payments, r.hash)
            && b.payments[r.hash] == db.payments[r.hash].(status := r.observed, updatedAt := now)
            && (|b.outbox| > |db.outbox| ==>
                  && |b.outbox| == |db.outbox| + 1 && b.outbox[..|db.outbox|] == db.outbox
                  && Fresh(b.outbox[|db.outbox|], now)
                  && var p := b.outbox[|db.outbox|].payload;
                     && AboutPayment(p, r.hash) && p.at == now
                     && p.prevPayment == r.row.status && p.nextPayment == r.observed
                     && p.payment == r.row.(status := r.observed, updatedAt := now))
  {
  }

  // ---------------------------------------------------------------------- outbox

  /** `mark_delivered` and `record_attempt`: the delivery columns of one event, and nothing else. */
  lemma OutcomeWrites(s: Sys, a: Action)
    requires BatchInv(s) && Enabled(s, a) && (a.Mark? || a.Record?)
    ensures var k, b := s.batch[0].rowid, Apply(s, a).db;
            && k < |s.db.outbox| && |b.outbox| == |s.db.outbox|
            && (forall j :: 0 <= j < |b.outbox| && j != k ==> b.outbox[j] == s.db.outbox[j])
            && b.outbox[k].payload == s.db.outbox[k].payload
            && (a.Mark? ==> b.outbox[k].deliveredAt == Some(a.now)
                            && b.outbox[k].attempts == s.db.outbox[k].attempts
                            && b.outbox[k].nextAttemptAt == s.db.outbox[k].nextAttemptAt)
            && (a.Record? ==> b.outbox[k].deliveredAt.None?
                              && b.outbox[k].attempts == s.db.outbox[k].attempts + 1
                              && b.outbox[k].nextAttemptAt == a.next)
            && b.transfers == s.db.transfers && b.payments == s.db.payments && b.baseline == s.db.baseline
  {
    assert FetchedCurrent(s.db.outbox, s.batch[0]);
  }

  // ----------------------------------------------------------------------- a crash

  /** After a crash everything stored is as it was, nobody is inside anything, and everyone can begin. */
  lemma CrashForgets(s: Sys, tid: Tid)
    ensures var t := Apply(s, Crash);
            && t.db == s.db && t.sent == s.sent && t.maxAttempts == s.maxAttempts
            && Enabled(t, Lock(tid)) && Enabled(t, PollStart) && Enabled(t, Query)
            && t.lock.None? && |t.engine| == 0 && |t.hooks| == 0 && t.poll.None? && t.batch == [] && !t.posted
  {
  }
}
