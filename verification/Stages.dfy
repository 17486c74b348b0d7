/** The stages of transfers and payments written out, and what an entry of a listing does to a stored row
    at each of them. */
module Stages {
  import opened Base
  import opened Status
  import opened Tables
  import opened Invariants
  import opened History
  import opened PaymentLaws
  import Listing
  import PaymentListing

  const CHAIN: seq<TransferStatus> :=
    [Initiated, WaitingCounterparty, WaitingSafeHeight, WaitingBroadcast, WaitingConfirmations, Settled]

  const PAYMENT_CHAIN: seq<PaymentStatus> := [Pending, Claimable, Claiming, Succeeded]

  function Later(i: nat, j: nat): nat {
    if i < j then j else i
  }

  /** The stages that come after a stage. */
  predicate MovesOn(from: TransferStatus, to: TransferStatus) {
    match from
    case Initiated => to != Initiated
    case WaitingCounterparty => to != Initiated && to != WaitingCounterparty
    case WaitingSafeHeight =>
      to == WaitingBroadcast || to == WaitingConfirmations || to == Settled || to == Failed
    case WaitingBroadcast => to == WaitingConfirmations || to == Settled || to == Failed
    case WaitingConfirmations => to == Settled || to == Failed
    case Settled => false
    case Failed => false
  }

  lemma PlansExactly(from: TransferStatus, observed: TransferStatus)
    ensures PlanTransition(from, observed).Some? <==> MovesOn(from, observed)
    ensures MovesOn(from, observed) ==> PlanTransition(from, observed).value.to == observed
  {
  }

  /** The outbox grew by one event of this transfer, from one status to another. */
  predicate Told(a: Db, b: Db, id: nat, event: EventType, from: TransferStatus, to: TransferStatus) {
    && |b.outbox| == |a.outbox| + 1 && b.outbox[..|a.outbox|] == a.outbox
    && var p := b.outbox[|a.outbox|].payload;
       p.TransferPayload? && p.id == id && p.event == event && p.prev == from && p.next == to
  }

  /** The outbox grew by one event of this payment, from one status to another. */
  predicate PaymentTold(a: Db, b: Db, hash: string, event: PaymentEventType, from: PaymentStatus, to: PaymentStatus) {
    && |b.outbox| == |a.outbox| + 1 && b.outbox[..|a.outbox|] == a.outbox
    && var p := b.outbox[|a.outbox|].payload;
       p.PaymentPayload? && p.hash == hash && p.paymentEvent == event && p.prevPayment == from && p.nextPayment == to
  }

  /** Observing a bound row again: its own row, whatever else is stored. */
  lemma BoundObserved(db: Db, o: Observed, now: int, id: nat)
    requires RowsInv(db.transfers) && id < |db.transfers| && db.transfers[id].rlnIdx == Some(o.rlnIdx)
    requires FitsDb(o.expiration)
    ensures var r := Listing.Observe(db, o, now);
            r.ok && |r.db.transfers| == |db.transfers|
            && forall k :: 0 <= k < |db.transfers| && k != id ==> r.db.transfers[k] == db.transfers[k]
  {
    BoundRowMatches(db.transfers, o, id);
    Listing.ObserveEffect(db, o, now);
  }

  /** A bound row at one stage, listed at another, ends at the later of the two: it moves forward in the
      order of the chain and never back. The move is announced if it enters confirmation or settles. */
  lemma StagesClimb(db: Db, o: Observed, now: int, id: nat, i: nat, j: nat)
    requires RowsInv(db.transfers) && id < |db.transfers| && db.transfers[id].rlnIdx == Some(o.rlnIdx)
    requires FitsDb(o.expiration) && i < |CHAIN| && j < |CHAIN|
    requires db.transfers[id].status == CHAIN[i] && o.status == CHAIN[j]
    ensures var b := Listing.Observe(db, o, now).db;
            && id < |b.transfers| && b.transfers[id].status == CHAIN[Later(i, j)]
            && (i < j && j == 4 ==> Told(db, b, id, ConfirmedPending, CHAIN[i], CHAIN[j]))
            && (i < j && j == 5 ==> Told(db, b, id, TransferSettled, CHAIN[i], CHAIN[j]))
            && (j <= i || j < 4 ==> b.outbox == db.outbox)
  {
    BoundRowMatches(db.transfers, o, id);
  }

  /** A bound row that is listed as failed fails from every stage but the last, and is announced. */
  lemma FailureEnds(db: Db, o: Observed, now: int, id: nat, i: nat)
    requires RowsInv(db.transfers) && id < |db.transfers| && db.transfers[id].rlnIdx == Some(o.rlnIdx)
    requires FitsDb(o.expiration) && i < 5 && db.transfers[id].status == CHAIN[i] && o.status == Failed
    ensures var b := Listing.Observe(db, o, now).db;
            id < |b.transfers| && b.transfers[id].status == Failed && Told(db, b, id, TransferFailed, CHAIN[i], Failed)
  {
    BoundRowMatches(db.transfers, o, id);
  }

  /** A bound row that has settled or failed stays so, whatever is listed. */
  lemma EndIsFinal(db: Db, o: Observed, now: int, id: nat)
    requires RowsInv(db.transfers) && id < |db.transfers| && db.transfers[id].rlnIdx == Some(o.rlnIdx)
    requires FitsDb(o.expiration) && (db.transfers[id].status == Settled || db.transfers[id].status == Failed)
    ensures var b := Listing.Observe(db, o, now).db;
            id < |b.transfers| && b.transfers[id].status == db.transfers[id].status && b.outbox == db.outbox
  {
    BoundRowMatches(db.transfers, o, id);
  }

  /** A stored payment at one stage, listed at another, ends at the later of the two; only its success is
      announced. */
  lemma PaymentsClimb(db: Db, baseline: Option<int>, p: NewPayment, now: int, i: nat, j: nat)
    requires AmountsFit(p) && i < |PAYMENT_CHAIN| && j < |PAYMENT_CHAIN|
    requires Seen(db, p.hash) == Some(PAYMENT_CHAIN[i]) && p.status == PAYMENT_CHAIN[j]
    ensures var b := PaymentListing.PollOne(db, baseline, p, now).db;
            && Seen(b, p.hash) == Some(PAYMENT_CHAIN[Later(i, j)])
            && (if i < j && j == 3
                then PaymentTold(db, b, p.hash, PaymentSettledEvent, PAYMENT_CHAIN[i], Succeeded)
                else b.outbox == db.outbox)
  {
  }

  /** A live payment that is listed as failed or cancelled is so, and announced as failed. */
  lemma PaymentsFail(db: Db, baseline: Option<int>, p: NewPayment, now: int, i: nat)
    requires AmountsFit(p) && i < 3 && Seen(db, p.hash) == Some(PAYMENT_CHAIN[i])
    requires p.status == PaymentFailed || p.status == Cancelled
    ensures var b := PaymentListing.PollOne(db, baseline, p, now).db;
            Seen(b, p.hash) == Some(p.status)
            && PaymentTold(db, b, p.hash, PaymentFailedEvent, PAYMENT_CHAIN[i], p.status)
  {
  }

  /** A payment that has ended stays so in silence, but for a failed or cancelled one that is listed as
      pending: that one is retried, and pending again, in silence too. */
  lemma PaymentsRestart(db: Db, baseline: Option<int>, p: NewPayment, now: int)
    requires AmountsFit(p) && Seen(db, p.hash) in {Some(Succeeded), Some(PaymentFailed), Some(Cancelled)}
    ensures var b := PaymentListing.PollOne(db, baseline, p, now).db;
            && b.outbox == db.outbox
            && Seen(b, p.hash) == if p.status == Pending && Seen(db, p.hash) != Some(Succeeded)
                                  then Some(Pending) else Seen(db, p.hash)
  {
  }
}
