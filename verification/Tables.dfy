/** The mirror's tables and the SQL statements that read and write them, as functions on values.
    Rows are never deleted, so a row's position is its rowid; it also stands for its UUID. */
module Tables {
  import opened Base
  import opened Status

  datatype Transfer = Transfer(
    rlnIdx: Option<int>,
    assetId: Option<string>,
    kind: Option<string>,
    status: TransferStatus,
    recipientId: Option<string>,
    txid: Option<string>,
    batchTransferIdx: Option<int>,
    invoice: Option<string>,
    expiration: Option<u64>,
    createdAt: int,
    updatedAt: int,
    lastSeenAt: Option<int>,
    settledAt: Option<int>)

  /** What an interceptor knows about a transfer it has just proxied. */
  datatype NewTransfer = NewTransfer(
    assetId: Option<string>,
    kind: Option<string>,
    status: TransferStatus,
    recipientId: Option<string>,
    txid: Option<string>,
    batchTransferIdx: Option<int>,
    invoice: Option<string>,
    expiration: Option<u64>)

  /** One entry of the node's transfer listing, tagged with the asset it was listed under. */
  datatype Observed = Observed(
    rlnIdx: int,
    assetId: Option<string>,
    kind: string,
    status: TransferStatus,
    recipientId: Option<string>,
    txid: Option<string>,
    expiration: Option<u64>)

  datatype Direction = Inbound | Outbound

  datatype Payment = Payment(
    direction: Direction,
    status: PaymentStatus,
    assetId: Option<string>,
    assetAmount: Option<u64>,
    amtMsat: Option<u64>,
    payeePubkey: Option<string>,
    createdAt: int,
    updatedAt: int,
    lastSeenAt: Option<int>)

  datatype NewPayment = NewPayment(
    hash: string,
    direction: Direction,
    status: PaymentStatus,
    assetId: Option<string>,
    assetAmount: Option<u64>,
    amtMsat: Option<u64>,
    payeePubkey: Option<string>)

  /** The body of a webhook: the row as it was read, with the new status, and the edge taken. */
  datatype Payload =
    | TransferPayload(event: EventType, id: nat, row: Transfer, prev: TransferStatus, next: TransferStatus, at: int)
    | PaymentPayload(paymentEvent: PaymentEventType, hash: string, payment: Payment,
                     prevPayment: PaymentStatus, nextPayment: PaymentStatus, at: int)

  datatype Event = Event(payload: Payload, attempts: nat, nextAttemptAt: int, deliveredAt: Option<int>)

  datatype NodeState = Unknown | Locked | Unlocked | Down | Misconfigured

  datatype Db = Db(
    transfers: seq<Transfer>,
    payments: map<string, Payment>,
    outbox: seq<Event>,
    baseline: Option<int>)

  datatype StoreError = UniqueViolation | OutOfRange | Unavailable

  // ---------------------------------------------------------------- transfers

  /** The WHERE clause of the lookup that matches an observation to a row. */
  predicate Matches(r: Transfer, o: Observed) {
    || SqlEq(r.rlnIdx, Some(o.rlnIdx))
    || (r.rlnIdx.None? &&
        (SqlEq(r.recipientId, o.recipientId) || (SqlEq(r.txid, o.txid) && SqlEq(r.assetId, o.assetId))))
  }

  /** The CASE expression its ORDER BY starts with. */
  function MatchClass(r: Transfer, o: Observed): nat {
    if SqlEq(r.rlnIdx, Some(o.rlnIdx)) then 0
    else if SqlEq(r.recipientId, o.recipientId) then 1
    else 2
  }

  /** Row `i` sorts before row `j` under the ORDER BY clause. */
  predicate Precedes(rows: seq<Transfer>, o: Observed, i: nat, j: nat)
    requires i < |rows| && j < |rows|
  {
    || MatchClass(rows[i], o) < MatchClass(rows[j], o)
    || (MatchClass(rows[i], o) == MatchClass(rows[j], o) && i <= j)
  }

  /** The first of the matching rows below `n`, in ORDER BY order. */
  function BestBelow(rows: seq<Transfer>, o: Observed, n: nat): (best: Option<nat>)
    requires n <= |rows|
    ensures best.Some? ==> best.value < n && Matches(rows[best.value], o)
    ensures best.Some? ==>
              forall j: nat :: j < n && Matches(rows[j], o) ==> Precedes(rows, o, best.value, j)
    ensures best.None? ==> forall j: nat :: j < n ==> !Matches(rows[j], o)
  {
    if n == 0 then None else
    var b := BestBelow(rows, o, n - 1);
    if !Matches(rows[n - 1], o) then b
    else if b.None? || MatchClass(rows[n - 1], o) < MatchClass(rows[b.value], o) then Some(n - 1)
    else b
  }

  function FindMatch(rows: seq<Transfer>, o: Observed): (best: Option<nat>)
    ensures best.Some? ==> best.value < |rows| && Matches(rows[best.value], o)
    ensures best.Some? ==>
              forall j: nat :: j < |rows| && Matches(rows[j], o) ==> Precedes(rows, o, best.value, j)
    ensures best.None? ==> forall j: nat :: j < |rows| ==> !Matches(rows[j], o)
  {
    BestBelow(rows, o, |rows|)
  }

  /** The first row holding a recipient id; a NULL recipient is held by no row. */
  function HolderOf(rows: seq<Transfer>, recipientId: Option<string>): (h: Option<nat>)
    ensures h.Some? ==> h.value < |rows| && SqlEq(rows[h.value].recipientId, recipientId)
    ensures h.None? ==> forall j: nat :: j < |rows| ==> !SqlEq(rows[j].recipientId, recipientId)
  {
    if |rows| == 0 then None else
    var h := HolderOf(rows[..|rows| - 1], recipientId);
    if h.Some? then h
    else if SqlEq(rows[|rows| - 1].recipientId, recipientId) then Some(|rows| - 1)
    else None
  }

  /** The UPDATE an observation makes to the row it matched. */
  function Bind(r: Transfer, o: Observed, now: int): Transfer {
    r.(rlnIdx := Some(o.rlnIdx),
       assetId := Coalesce(o.assetId, r.assetId),
       kind := Some(o.kind),
       txid := Coalesce(o.txid, r.txid),
       expiration := Coalesce(o.expiration, r.expiration),
       lastSeenAt := Some(now))
  }

  /** The INSERT an observation makes when it matched nothing. */
  function BornObserved(o: Observed, now: int): Transfer {
    Transfer(Some(o.rlnIdx), o.assetId, Some(o.kind), o.status, o.recipientId, o.txid, None, None,
             o.expiration, now, now, Some(now), None)
  }

  datatype Upserted = Upserted(rows: seq<Transfer>, id: nat)

  /** `upsert_observed`: one transaction, rolled back on error. */
  function UpsertObserved(rows: seq<Transfer>, o: Observed, now: int): (r: Result<Upserted, StoreError>)
    ensures r.Ok? ==> r.value.id < |r.value.rows|
  {
    var found := FindMatch(rows, o);
    if !FitsDb(o.expiration) then Err(OutOfRange)
    else if found.Some? then
      Ok(Upserted(rows[found.value := Bind(rows[found.value], o, now)], found.value))
    else if HolderOf(rows, o.recipientId).Some? then Err(UniqueViolation)
    else Ok(Upserted(rows + [BornObserved(o, now)], |rows|))
  }

  /** What ON CONFLICT (recipient_id) DO UPDATE makes of the row already there. */
  function Merge(r: Transfer, n: NewTransfer, now: int): Transfer {
    r.(invoice := n.invoice,
       batchTransferIdx := n.batchTransferIdx,
       expiration := Coalesce(n.expiration, r.expiration),
       updatedAt := now)
  }

  function BornIntercepted(n: NewTransfer, now: int): Transfer {
    Transfer(None, n.assetId, n.kind, n.status, n.recipientId, n.txid, n.batchTransferIdx, n.invoice,
             n.expiration, now, now, None, None)
  }

  /** `insert_transfer`. */
  function InsertTransfer(rows: seq<Transfer>, n: NewTransfer, now: int): (r: Result<Upserted, StoreError>)
    ensures r.Ok? ==> r.value.id < |r.value.rows|
  {
    var h := HolderOf(rows, n.recipientId);
    if !FitsDb(n.expiration) then Err(OutOfRange)
    else if h.Some? then Ok(Upserted(rows[h.value := Merge(rows[h.value], n, now)], h.value))
    else Ok(Upserted(rows + [BornIntercepted(n, now)], |rows|))
  }

  function Enqueue(outbox: seq<Event>, payload: Option<Payload>, now: int): seq<Event> {
    if payload.Some? then outbox + [Event(payload.value, 0, now, None)] else outbox
  }

  /** What a successful compare-and-swap makes of its row. */
  function Swapped(r: Transfer, to: TransferStatus, now: int): Transfer {
    r.(status := to, updatedAt := now,
       settledAt := Coalesce(if to == Settled then Some(now) else None, r.settledAt))
  }

  /** Whether `apply_transition` changes a row: the WHERE clause after the early return. */
  predicate CanSwap(db: Db, id: nat, from: TransferStatus, to: TransferStatus) {
    from != to && id < |db.transfers| && db.transfers[id].status == from
  }

  /** `apply_transition`: the swap and the outbox row commit together or not at all. */
  function ApplyTransition(db: Db, id: nat, from: TransferStatus, to: TransferStatus,
                           payload: Option<Payload>, now: int): Db
  {
    if !CanSwap(db, id, from, to) then db else
    db.(transfers := db.transfers[id := Swapped(db.transfers[id], to, now)],
        outbox := Enqueue(db.outbox, payload, now))
  }

  function EventPayload(id: nat, row: Transfer, move: Move<TransferStatus, EventType>, now: int): Option<Payload> {
    if move.event.None? then None else
    var settledAt := if move.to == Settled then Some(now) else row.settledAt;
    Some(TransferPayload(move.event.value, id,
                         row.(status := move.to, updatedAt := now, settledAt := settledAt),
                         row.status, move.to, now))
  }

  /** `apply_observed`: plan from the row as it was read, then compare-and-swap. */
  function ApplyObserved(db: Db, id: nat, row: Transfer, observed: TransferStatus, now: int): Db {
    var plan := PlanTransition(row.status, observed);
    if plan.None? then db else
    ApplyTransition(db, id, row.status, plan.value.to, EventPayload(id, row, plan.value, now), now)
  }

  predicate Applies(db: Db, id: nat, row: Transfer, observed: TransferStatus) {
    var plan := PlanTransition(row.status, observed);
    plan.Some? && CanSwap(db, id, row.status, plan.value.to)
  }

  /** `pending_asset_ids`: the assets of waiting rows, and whether one of them has no asset. */
  function PendingAssetIds(rows: seq<Transfer>): set<string> {
    set i | 0 <= i < |rows| && rows[i].status.Waiting() && rows[i].assetId.Some? :: rows[i].assetId.value
  }

  predicate HasAgnostic(rows: seq<Transfer>) {
    exists i :: 0 <= i < |rows| && rows[i].status.Waiting() && rows[i].assetId.None?
  }

  predicate NoneWaiting(rows: seq<Transfer>) {
    forall i :: 0 <= i < |rows| ==> !rows[i].status.Waiting()
  }

  /** Past its expiration, and at no stage that is announced: what the reaper is for. */
  predicate Overdue(r: Transfer, now: int) {
    r.expiration.Some? && r.expiration.value < now && !Announced(r.status)
  }

  /** The filter of `expired_fallible`. */
  predicate ExpiredFallible(r: Transfer, now: int) {
    r.expiration.Some? && r.expiration.value < now && r.status.Fallible()
  }

  /** Sorted by created_at, then rowid; so without duplicates. */
  predicate ByCreation(rows: seq<Transfer>, ids: seq<nat>) {
    && (forall i :: 0 <= i < |ids| ==> ids[i] < |rows|)
    && (forall i, j :: 0 <= i < j < |ids| ==> Older(rows, ids[i], ids[j]))
  }

  predicate Older(rows: seq<Transfer>, i: nat, j: nat)
    requires i < |rows| && j < |rows|
  {
    rows[i].createdAt < rows[j].createdAt || (rows[i].createdAt == rows[j].createdAt && i < j)
  }

  lemma OldestFirst(rows: seq<Transfer>, ids: seq<nat>, last: nat)
    requires ByCreation(rows, ids) && last < |rows| && forall k :: k in ids ==> Older(rows, k, last)
    ensures ByCreation(rows, ids + [last])
  {
    assert forall i :: 0 <= i < |ids| ==> ids[i] in ids;
  }

  /** Insert rowid `n` into an ORDER BY created_at, rowid result; `n` is above every rowid in it. */
  function InsertByCreation(rows: seq<Transfer>, ids: seq<nat>, n: nat): (r: seq<nat>)
    requires n < |rows| && ByCreation(rows, ids) && forall i :: 0 <= i < |ids| ==> ids[i] < n
    ensures (forall k :: k in r <==> k in ids || k == n) && ByCreation(rows, r)
  {
    if |ids| == 0 || rows[ids[|ids| - 1]].createdAt <= rows[n].createdAt then
      OldestFirst(rows, ids, n);
      ids + [n]
    else
    var last := ids[|ids| - 1];
    var front := ids[..|ids| - 1];
    assert ids == front + [last];
    var r0 := InsertByCreation(rows, front, n);
    OldestFirst(rows, r0, last);
    r0 + [last]
  }

  /** `expired_fallible`, restricted to the rows below `n`. */
  function ExpiredBelow(rows: seq<Transfer>, now: int, n: nat): (r: seq<nat>)
    requires n <= |rows|
    ensures ByCreation(rows, r) && forall k: nat :: k in r <==> k < n && Overdue(rows[k], now)
  {
    if n == 0 then [] else
    var r := ExpiredBelow(rows, now, n - 1);
    assert forall i :: 0 <= i < |r| ==> r[i] in r;
    if ExpiredFallible(rows[n - 1], now) then InsertByCreation(rows, r, n - 1) else r
  }

  // ----------------------------------------------------------------- payments

  predicate AmountsFit(n: NewPayment) {
    FitsDb(n.assetAmount) && FitsDb(n.amtMsat)
  }

  function UpsertedPayment(payments: map<string, Payment>, n: NewPayment, lastSeenAt: Option<int>, now: int): Payment {
    if n.hash in payments then
      var p := payments[n.hash];
      p.(direction := n.direction,
         assetId := Coalesce(n.assetId, p.assetId),
         assetAmount := Coalesce(n.assetAmount, p.assetAmount),
         amtMsat := Coalesce(n.amtMsat, p.amtMsat),
         payeePubkey := Coalesce(n.payeePubkey, p.payeePubkey),
         lastSeenAt := Coalesce(lastSeenAt, p.lastSeenAt))
    else
      Payment(n.direction, n.status, n.assetId, n.assetAmount, n.amtMsat, n.payeePubkey, now, now, lastSeenAt)
  }

  /** `upsert_payment`: a conflict on the hash never touches the status. */
  function UpsertPayment(payments: map<string, Payment>, n: NewPayment, lastSeenAt: Option<int>, now: int)
    : Result<map<string, Payment>, StoreError>
  {
    if !AmountsFit(n) then Err(OutOfRange)
    else Ok(payments[n.hash := UpsertedPayment(payments, n, lastSeenAt, now)])
  }

  predicate CanSwapPayment(db: Db, hash: string, from: PaymentStatus, to: PaymentStatus) {
    from != to && hash in db.payments && db.payments[hash].status == from
  }

  function ApplyPaymentTransition(db: Db, hash: string, from: PaymentStatus, to: PaymentStatus,
                                  payload: Option<Payload>, now: int): Db
  {
    if !CanSwapPayment(db, hash, from, to) then db else
    db.(payments := db.payments[hash := db.payments[hash].(status := to, updatedAt := now)],
        outbox := Enqueue(db.outbox, payload, now))
  }

  function PaymentEventPayload(hash: string, row: Payment, move: Move<PaymentStatus, PaymentEventType>, now: int)
    : Option<Payload>
  {
    if move.event.None? then None else
    Some(PaymentPayload(move.event.value, hash, row.(status := move.to, updatedAt := now),
                        row.status, move.to, now))
  }

  function ApplyPaymentObserved(db: Db, hash: string, row: Payment, observed: PaymentStatus, now: int): Db {
    var plan := PlanPayment(row.status, observed);
    if plan.None? then db else
    ApplyPaymentTransition(db, hash, row.status, plan.value.to,
                           PaymentEventPayload(hash, row, plan.value, now), now)
  }

  predicate PaymentApplies(db: Db, hash: string, row: Payment, observed: PaymentStatus) {
    var plan := PlanPayment(row.status, observed);
    plan.Some? && CanSwapPayment(db, hash, row.status, plan.value.to)
  }

  // ------------------------------------------------------------------- outbox

  predicate AboutTransfer(p: Payload, id: nat) {
    p.TransferPayload? && p.id == id
  }

  predicate AboutPayment(p: Payload, hash: string) {
    p.PaymentPayload? && p.hash == hash
  }

  /** Undelivered and below the attempt limit. */
  predicate Live(e: Event, maxAttempts: nat) {
    e.deliveredAt.None? && e.attempts < maxAttempts
  }

  predicate Parked(e: Event, maxAttempts: nat) {
    e.deliveredAt.None? && e.attempts >= maxAttempts
  }

  predicate NoneLive(outbox: seq<Event>, maxAttempts: nat, lo: nat, hi: nat) {
    forall k :: lo <= k < hi && k < |outbox| ==> !Live(outbox[k], maxAttempts)
  }

  /** The first `limit` live rowids from `from` on, in rowid order. */
  function LiveFrom(outbox: seq<Event>, maxAttempts: nat, from: nat, limit: nat): (r: seq<nat>)
    requires from <= |outbox|
    ensures |r| <= limit
    ensures forall i :: 0 <= i < |r| ==> from <= r[i] < |outbox| && Live(outbox[r[i]], maxAttempts)
    ensures |r| > 0 ==> NoneLive(outbox, maxAttempts, from, r[0])
    ensures |r| == 0 && limit > 0 ==> NoneLive(outbox, maxAttempts, from, |outbox|)
    decreases |outbox| - from
  {
    if limit == 0 || from == |outbox| then []
    else if Live(outbox[from], maxAttempts) then [from] + LiveFrom(outbox, maxAttempts, from + 1, limit - 1)
    else LiveFrom(outbox, maxAttempts, from + 1, limit)
  }

  const BATCH_LIMIT: nat := 100

  /** `undelivered_events`. */
  function UndeliveredEvents(outbox: seq<Event>, maxAttempts: nat): seq<nat> {
    LiveFrom(outbox, maxAttempts, 0, BATCH_LIMIT)
  }

  function Delivered(e: Event, now: int): Event {
    e.(deliveredAt := Some(now))
  }

  function Attempted(e: Event, nextAttemptAt: int): Event {
    e.(attempts := e.attempts + 1, nextAttemptAt := nextAttemptAt)
  }
}
