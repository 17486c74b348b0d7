/** Why the compare-and-swap never fails for transfers: every swap runs under the engine's mutex,
    and what runs beside it never touches the status of a row that is already there. */
module LockDiscipline {
  import opened Base
  import opened Status
  import opened Tables
  import opened System
  import opened Invariants
  import opened History

  /** Taken by the task `tid` itself. */
  predicate By(a: Action, tid: Tid) {
    match a
    case Lock(t) => t == tid
    case Observe(t, _, _) => t == tid
    case Scan(t, _) => t == tid
    case Swap(t, _) => t == tid
    case Skip(t) => t == tid
    case Unlock(t) => t == tid
    case _ => false
  }

  predicate AboutTransfers(e: Event) {
    e.payload.TransferPayload?
  }

  /** The part of the outbox that tells of transfers. */
  function TransferEvents(outbox: seq<Event>): seq<Payload> {
    if outbox == [] then [] else
    var e := outbox[|outbox| - 1];
    TransferEvents(outbox[..|outbox| - 1]) + (if AboutTransfers(e) then [e.payload] else [])
  }

  lemma {:induction false} SameTransferEvents(a: seq<Event>, b: seq<Event>)
    requires |a| == |b| && forall k :: 0 <= k < |a| ==> a[k].payload == b[k].payload
    ensures TransferEvents(a) == TransferEvents(b)
  {
    if a != [] {
      SameTransferEvents(a[..|a| - 1], b[..|b| - 1]);
    }
  }

  /** The guarantee of everyone else while a task holds the mutex: rows keep their status, binding
      and settlement, rows may be added, and no event about a transfer appears. */
  predicate Undisturbed(a: Db, b: Db) {
    && |a.transfers| <= |b.transfers|
    && (forall i :: 0 <= i < |a.transfers| ==>
          && b.transfers[i].status == a.transfers[i].status
          && b.transfers[i].rlnIdx == a.transfers[i].rlnIdx
          && b.transfers[i].settledAt == a.transfers[i].settledAt)
    && TransferEvents(b.outbox) == TransferEvents(a.outbox)
  }

  /** The rely of a lock holder follows from what every other action is: it keeps the mutex and
      its reads, and the others leave the transfers undisturbed. */
  lemma ForeignStep(s: Sys, a: Action, tid: Tid)
    requires Inv(s) && Enabled(s, a) && tid in s.engine && !By(a, tid) && !a.Crash?
    ensures var t := Apply(s, a);
            t.lock == Some(tid) && t.engine == s.engine && Undisturbed(s.db, t.db)
  {
    hide Undisturbed, TransferEvents;
    var t := Apply(s, a);
    UndisturbedByNothing(s.db);
    if a.Insert? {
      InsertUndisturbed(s, a.n, a.now);
    } else if PaymentWrite(a) {
      PaymentsUndisturbed(s, a);
    } else if a.Mark? || a.Record? {
      DeliveryUndisturbed(s, a);
    } else {
      NotByOthers(s, a, tid);
    }
  }

  lemma UndisturbedByNothing(db: Db)
    ensures Undisturbed(db, db)
  {
  }

  lemma InsertUndisturbed(s: Sys, n: NewTransfer, now: int)
    ensures Undisturbed(s.db, Inserted(s, n, now).db)
  {
  }

  lemma DeliveryUndisturbed(s: Sys, a: Action)
    requires BatchInv(s) && Enabled(s, a) && (a.Mark? || a.Record?)
    ensures Undisturbed(s.db, Apply(s, a).db)
  {
    assert FetchedCurrent(s.db.outbox, s.batch[0]);
    SameTransferEvents(s.db.outbox, Apply(s, a).db.outbox);
  }

  /** No other task can even be inside the mutex. */
  lemma NotByOthers(s: Sys, a: Action, tid: Tid)
    requires LockInv(s) && Enabled(s, a) && tid in s.engine && !By(a, tid) && !a.Crash?
    requires !a.Insert? && !PaymentWrite(a) && !a.Mark? && !a.Record?
    ensures var t := Apply(s, a);
            t.lock == Some(tid) && t.engine == s.engine && t.db == s.db
  {
  }

  lemma PaymentsUndisturbed(s: Sys, a: Action)
    requires Enabled(s, a) && PaymentWrite(a)
    ensures var t := Apply(s, a);
            t.lock == s.lock && t.engine == s.engine && Undisturbed(s.db, t.db)
  {
    hide Undisturbed;
    if a.HookSwap? {
      var r := s.hooks[a.tid];
      PaymentSwapUndisturbed(s.db, r.hash, r.row, r.observed, a.now);
    } else if a.PollSwap? {
      var r := s.poll.value.read.value;
      PaymentSwapUndisturbed(s.db, r.hash, r.row, r.observed, a.now);
    } else {
      PaymentTablesUndisturbed(s.db, Apply(s, a).db.payments, Apply(s, a).db.baseline);
    }
  }

  lemma PaymentSwapUndisturbed(db: Db, hash: string, row: Payment, observed: PaymentStatus, now: int)
    ensures Undisturbed(db, ApplyPaymentObserved(db, hash, row, observed, now))
  {
    var b := ApplyPaymentObserved(db, hash, row, observed, now);
    if |b.outbox| > |db.outbox| {
      assert b.outbox[..|b.outbox| - 1] == db.outbox;
    }
  }

  lemma PaymentTablesUndisturbed(db: Db, payments: map<string, Payment>, baseline: Option<int>)
    ensures Undisturbed(db, db.(payments := payments, baseline := baseline))
  {
  }

  /** Every swap that was planned finds the status it was planned from, in every run. */
  lemma PlannedSwapApplies(maxAttempts: nat, t: seq<Action>, tid: Tid)
    requires Legal(maxAttempts, t)
    requires tid in After(maxAttempts, t).engine && After(maxAttempts, t).engine[tid] != []
    ensures var s := After(maxAttempts, t);
            var r := s.engine[tid][0];
            && s.lock == Some(tid)
            && (Applies(s.db, r.id, r.row, r.observed) <==> PlanTransition(r.row.status, r.observed).Some?)
  {
    Reachable(maxAttempts, t);
    var s := After(maxAttempts, t);
    assert ReadsCurrent(s.db.transfers, s.engine[tid]);
  }
}
