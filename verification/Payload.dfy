/** The row in the body of a webhook: what it was when it was read, and what may have become of it. */
module Payloads {
  import opened Base
  import opened Status
  import opened Tables
  import opened System
  import opened Invariants

  /** The task's reads are replaced by new ones. */
  predicate ReadsAnew(a: Action, tid: Tid) {
    (a.Observe? || a.Scan?) && a.tid == tid
  }

  /** An insert that merges into the row holding a recipient. */
  predicate Merges(a: Action, recipientId: Option<string>) {
    a.Insert? && FitsDb(a.n.expiration) && SqlEq(a.n.recipientId, recipientId)
  }

  function Inserts(t: seq<Action>, recipientId: Option<string>): seq<NewTransfer> {
    if t == [] then [] else
    var a := t[|t| - 1];
    Inserts(t[..|t| - 1], recipientId) + (if Merges(a, recipientId) then [a.n] else [])
  }

  /** The last expiration that inserts know. */
  function LastExpiration(ins: seq<NewTransfer>): Option<u64> {
    if ins == [] then None else Coalesce(ins[|ins| - 1].expiration, LastExpiration(ins[..|ins| - 1]))
  }

  /** The inserts leave the row as it was read: the last repeats its invoice and batch index, and the
      last expiration they know is its own. */
  predicate LeavesAsRead(row: Transfer, ins: seq<NewTransfer>) {
    ins == [] ||
    (ins[|ins| - 1].invoice == row.invoice && ins[|ins| - 1].batchTransferIdx == row.batchTransferIdx
     && (LastExpiration(ins).Some? ==> LastExpiration(ins) == row.expiration))
  }

  /** The row after a stretch of a run, if only inserts touch it. */
  function MergedBy(r: Transfer, t: seq<Action>): Transfer {
    if t == [] then r else
    var q, a := MergedBy(r, t[..|t| - 1]), t[|t| - 1];
    if Merges(a, r.recipientId) then Merge(q, a.n, a.now) else q
  }

  lemma {:induction false} MergedColumns(r: Transfer, t: seq<Action>)
    ensures var q, ins := MergedBy(r, t), Inserts(t, r.recipientId);
            q == r.(invoice := if ins == [] then r.invoice else ins[|ins| - 1].invoice,
                    batchTransferIdx := if ins == [] then r.batchTransferIdx else ins[|ins| - 1].batchTransferIdx,
                    expiration := Coalesce(LastExpiration(ins), r.expiration),
                    updatedAt := q.updatedAt)
  {
    if t != [] {
      var a, front := t[|t| - 1], Inserts(t[..|t| - 1], r.recipientId);
      MergedColumns(r, t[..|t| - 1]);
      if Merges(a, r.recipientId) {
        assert (front + [a.n])[..|front|] == front;
        assert LastExpiration(front + [a.n]) == Coalesce(a.n.expiration, LastExpiration(front));
      } else {
        assert Inserts(t, r.recipientId) == front;
      }
    }
  }

  lemma MergedMore(r: Transfer, t: seq<Action>, a: Action)
    ensures MergedBy(r, t + [a])
            == if Merges(a, r.recipientId) then Merge(MergedBy(r, t), a.n, a.now) else MergedBy(r, t)
  {
    assert (t + [a])[..|t|] == t;
  }

  // ------------------------------------------------------- from the read to the swap

  /** The reads left are of the rows as they were then, and inserts alone have touched those since. */
  predicate Tracked(rows: seq<Transfer>, seen: seq<Transfer>, todo: seq<Read>, t: seq<Action>) {
    forall i :: 0 <= i < |todo| ==>
      && todo[i].id < |seen| && todo[i].row == seen[todo[i].id]
      && todo[i].id < |rows| && rows[todo[i].id] == MergedBy(todo[i].row, t)
  }

  predicate Tracks(s: Sys, tid: Tid, seen: seq<Transfer>, t: seq<Action>) {
    tid in s.engine ==> Tracked(s.db.transfers, seen, s.engine[tid], t)
  }

  lemma ReadTracks(s: Sys, a: Action, tid: Tid)
    requires Enabled(s, a) && ReadsAnew(a, tid)
    ensures var t := Apply(s, a);
            tid in t.engine && Tracks(t, tid, t.db.transfers, [])
  {
  }

  lemma InsertTracks(rows: seq<Transfer>, seen: seq<Transfer>, todo: seq<Read>, t: seq<Action>, n: NewTransfer,
                     now: int)
    requires RowsInv(rows) && Tracked(rows, seen, todo, t)
    ensures var u := InsertTransfer(rows, n, now);
            Tracked(if u.Ok? then u.value.rows else rows, seen, todo, t + [Insert(n, now)])
  {
    var u := InsertTransfer(rows, n, now);
    forall i | 0 <= i < |todo|
      ensures var after := if u.Ok? then u.value.rows else rows;
              todo[i].id < |after| && after[todo[i].id] == MergedBy(todo[i].row, t + [Insert(n, now)])
    {
      var id := todo[i].id;
      MergedMore(todo[i].row, t, Insert(n, now));
      MergedColumns(todo[i].row, t);
      assert rows[id].recipientId == todo[i].row.recipientId;
      var h := HolderOf(rows, n.recipientId);
      if h.Some? && h.value != id {
        assert !SqlEq(rows[h.value].recipientId, rows[id].recipientId);
      }
    }
  }

  lemma SwapTracks(db: Db, seen: seq<Transfer>, todo: seq<Read>, t: seq<Action>, a: Action)
    requires ReadsCurrent(db.transfers, todo) && Tracked(db.transfers, seen, todo, t) && todo != [] && a.Swap?
    ensures var r := todo[0];
            Tracked(ApplyObserved(db, r.id, r.row, r.observed, a.now).transfers, seen, todo[1..], t + [a])
  {
    forall i | 0 <= i < |todo| ensures MergedBy(todo[i].row, t + [a]) == MergedBy(todo[i].row, t) {
      MergedMore(todo[i].row, t, a);
    }
  }

  lemma QuietTracks(rows: seq<Transfer>, seen: seq<Transfer>, todo: seq<Read>, k: nat, t: seq<Action>, a: Action)
    requires Tracked(rows, seen, todo, t) && k <= |todo| && !a.Insert?
    ensures Tracked(rows, seen, todo[k..], t + [a])
  {
    forall i | 0 <= i < |todo| ensures MergedBy(todo[i].row, t + [a]) == MergedBy(todo[i].row, t) {
      MergedMore(todo[i].row, t, a);
    }
  }

  /** An engine action of the task itself, other than a new read. */
  lemma OwnTracks(s: Sys, a: Action, tid: Tid, seen: seq<Transfer>, t: seq<Action>)
    requires Inv(s) && Enabled(s, a) && Tracks(s, tid, seen, t)
    requires a.Swap? || a.Skip? || a.Lock? || a.Unlock?
    requires a.tid == tid
    ensures Tracks(Apply(s, a), tid, seen, t + [a])
  {
    if a.Swap? {
      assert ReadsCurrent(s.db.transfers, s.engine[tid]);
      SwapTracks(s.db, seen, s.engine[tid], t, a);
    } else if a.Skip? {
      QuietTracks(s.db.transfers, seen, s.engine[tid], 1, t, a);
    }
    hide Tracked, Inv, ApplyObserved;
    assert a.Lock? ==> Apply(s, a).engine[tid] == [];
    NothingTracked(Apply(s, a).db.transfers, seen, t + [a]);
  }

  lemma NothingTracked(rows: seq<Transfer>, seen: seq<Transfer>, t: seq<Action>)
    ensures Tracked(rows, seen, [], t)
  {
  }

  /** An engine action of another task: this one is not inside the mutex. */
  lemma OtherTracks(s: Sys, a: Action, tid: Tid, seen: seq<Transfer>, t: seq<Action>)
    requires LockInv(s) && Enabled(s, a) && Tracks(s, tid, seen, t)
    requires EngineAction(a) && a.tid != tid
    ensures Tracks(Apply(s, a), tid, seen, t + [a])
  {
    hide Tracked, ApplyObserved;
    assert tid in s.engine ==> s.lock == Some(tid);
    assert tid !in Apply(s, a).engine;
  }

  lemma TracksStep(s: Sys, a: Action, tid: Tid, seen: seq<Transfer>, t: seq<Action>)
    requires Inv(s) && Enabled(s, a) && !ReadsAnew(a, tid) && Tracks(s, tid, seen, t)
    ensures Tracks(Apply(s, a), tid, seen, t + [a])
  {
    if EngineAction(a) {
      if a.tid == tid {
        OwnTracks(s, a, tid, seen, t);
      } else {
        OtherTracks(s, a, tid, seen, t);
      }
    } else if a.Insert? {
      if tid in s.engine { InsertTracks(s.db.transfers, seen, s.engine[tid], t, a.n, a.now); }
      hide Tracked, Inv, InsertTransfer;
    } else if !a.Crash? {
      OthersKeepLock(s, a);
      OthersKeepTransfers(s, a);
      hide Apply, Enabled, Inv;
      if tid in s.engine { QuietTracks(s.db.transfers, seen, s.engine[tid], 0, t, a); }
    }
  }

  /** The task has not read anew since the n-th action, which was a read of its own. */
  predicate ReadAt(t: seq<Action>, n: nat, tid: Tid) {
    n < |t| && ReadsAnew(t[n], tid) && forall k :: n < k < |t| ==> !ReadsAnew(t[k], tid)
  }

  lemma {:induction false} TracksSinceRead(maxAttempts: nat, t: seq<Action>, n: nat, tid: Tid)
    requires Legal(maxAttempts, t) && ReadAt(t, n, tid)
    ensures Legal(maxAttempts, t[..n + 1])
    ensures Tracks(After(maxAttempts, t), tid, After(maxAttempts, t[..n + 1]).db.transfers, t[n + 1..])
  {
    hide Apply, Enabled, Inv, Tracks;
    var r, a := t[..|t| - 1], t[|t| - 1];
    if n == |t| - 1 {
      assert t[..n + 1] == t && t[n + 1..] == [];
      ReadTracks(After(maxAttempts, r), a, tid);
    } else {
      assert r[..n + 1] == t[..n + 1] && r[n + 1..] + [a] == t[n + 1..];
      TracksSinceRead(maxAttempts, r, n, tid);
      Reachable(maxAttempts, r);
      TracksStep(After(maxAttempts, r), a, tid, After(maxAttempts, t[..n + 1]).db.transfers, r[n + 1..]);
    }
  }

  lemma ReadsKept(s: Sys, a: Action, tid: Tid)
    requires Enabled(s, a) && !ReadsAnew(a, tid)
    requires tid in Apply(s, a).engine && Apply(s, a).engine[tid] != []
    ensures tid in s.engine && s.engine[tid] != []
  {
    hide FindMatch, HolderOf, ExpiredBelow, PlanTransition, PlanPayment, UpsertedPayment, LiveFrom;
  }

  /** Every read a task has yet to apply was taken somewhere in the run. */
  lemma {:induction false} ReadWasTaken(maxAttempts: nat, t: seq<Action>, tid: Tid) returns (n: nat)
    requires Legal(maxAttempts, t)
    requires tid in After(maxAttempts, t).engine && After(maxAttempts, t).engine[tid] != []
    ensures ReadAt(t, n, tid)
  {
    hide Apply, Enabled;
    assert t == [] ==> tid !in Init(maxAttempts).engine;
    var r, a := t[..|t| - 1], t[|t| - 1];
    if ReadsAnew(a, tid) {
      n := |t| - 1;
    } else {
      ReadsKept(After(maxAttempts, r), a, tid);
      n := ReadWasTaken(maxAttempts, r, tid);
      assert forall k :: 0 <= k < |r| ==> r[k] == t[k];
    }
  }

  /** A webhook carries the row as its writer read it, with the new status. */
  lemma PayloadShowsRead(db: Db, id: nat, row: Transfer, observed: TransferStatus, now: int)
    requires Applies(db, id, row, observed) && Announced(observed)
    requires row.settledAt.None? && db.transfers[id].settledAt.None?
    ensures var b := ApplyObserved(db, id, row, observed, now);
            && |b.outbox| == |db.outbox| + 1 && AboutTransfer(b.outbox[|db.outbox|].payload, id)
            && b.outbox[|db.outbox|].payload.row == Swapped(row, observed, now)
            && b.transfers[id] == Swapped(db.transfers[id], observed, now)
  {
  }

  lemma MergedAsRead(row: Transfer, t: seq<Action>, to: TransferStatus, now: int)
    ensures Swapped(row, to, now) == Swapped(MergedBy(row, t), to, now)
            <==> LeavesAsRead(row, Inserts(t, row.recipientId))
  {
    MergedColumns(row, t);
  }

  /** The `transfer` object of a webhook is the mirrored row after the transition if and only if the
      interceptor inserts that named its recipient between the read and the swap left it as read: in
      any run, whatever else ran in between. */
  lemma PayloadIsTheRow(maxAttempts: nat, t: seq<Action>, n: nat, tid: Tid, now: int)
    requires Legal(maxAttempts, t) && ReadAt(t, n, tid) && Enabled(After(maxAttempts, t), Swap(tid, now))
    requires var r := After(maxAttempts, t).engine[tid][0];
             PlanTransition(r.row.status, r.observed).Some? && Announced(r.observed)
    ensures Legal(maxAttempts, t[..n + 1])
    ensures var s := After(maxAttempts, t);
            var r, b := s.engine[tid][0], Apply(s, Swap(tid, now)).db;
            var seen := After(maxAttempts, t[..n + 1]).db.transfers;
            && r.id < |seen| && r.row == seen[r.id] && r.id < |b.transfers|
            && |b.outbox| == |s.db.outbox| + 1 && AboutTransfer(b.outbox[|s.db.outbox|].payload, r.id)
            && (b.outbox[|s.db.outbox|].payload.row == b.transfers[r.id]
                <==> LeavesAsRead(r.row, Inserts(t[n + 1..], r.row.recipientId)))
  {
    TracksSinceRead(maxAttempts, t, n, tid);
    Reachable(maxAttempts, t);
    var s := After(maxAttempts, t);
    SwapPayload(s, tid, After(maxAttempts, t[..n + 1]).db.transfers, t[n + 1..], now);
  }

  lemma SwapPayload(s: Sys, tid: Tid, seen: seq<Transfer>, t: seq<Action>, now: int)
    requires Inv(s) && Enabled(s, Swap(tid, now)) && Tracks(s, tid, seen, t)
    requires var r := s.engine[tid][0]; PlanTransition(r.row.status, r.observed).Some? && Announced(r.observed)
    ensures var r, b := s.engine[tid][0], Apply(s, Swap(tid, now)).db;
            && r.id < |seen| && r.row == seen[r.id] && r.id < |b.transfers|
            && |b.outbox| == |s.db.outbox| + 1 && AboutTransfer(b.outbox[|s.db.outbox|].payload, r.id)
            && (b.outbox[|s.db.outbox|].payload.row == b.transfers[r.id]
                <==> LeavesAsRead(r.row, Inserts(t, r.row.recipientId)))
  {
    var r := s.engine[tid][0];
    assert ReadsCurrent(s.db.transfers, s.engine[tid]);
    MergedColumns(r.row, t);
    assert s.db.transfers[r.id] == MergedBy(r.row, t);
    PayloadShowsRead(s.db, r.id, r.row, r.observed, now);
    MergedAsRead(r.row, t, r.observed, now);
    hide Inv, ApplyObserved, Swapped, MergedBy, LeavesAsRead, Inserts;
  }

  /** An invoice recorded in between is on the row and missing from the webhook. */
  lemma PayloadMissesInvoice(db: Db, id: nat, n: NewTransfer, observed: TransferStatus, inserted: int, now: int)
    requires RowsInv(db.transfers) && id < |db.transfers|
    requires db.transfers[id].recipientId.Some? && n.recipientId == db.transfers[id].recipientId
    requires db.transfers[id].invoice.None? && n.invoice.Some? && FitsDb(n.expiration)
    requires PlanTransition(db.transfers[id].status, observed).Some? && Announced(observed)
    ensures var row := db.transfers[id];
            var between := InsertTransfer(db.transfers, n, inserted);
            && between.Ok?
            && var b := ApplyObserved(db.(transfers := between.value.rows), id, row, observed, now);
               && |b.outbox| == |db.outbox| + 1
               && b.transfers[id].invoice == n.invoice
               && b.outbox[|db.outbox|].payload.row.invoice.None?
  {
    var h := HolderOf(db.transfers, n.recipientId);
    assert h.Some? ==> SqlEq(db.transfers[h.value].recipientId, db.transfers[id].recipientId);
    assert h == Some(id);
  }

  // ------------------------------------------------------------------- such a run

  function Received(recipientId: string, status: TransferStatus): Observed {
    Observed(0, None, "ReceiveBlind", status, Some(recipientId), None, None)
  }

  function Answered(recipientId: string, invoice: string): NewTransfer {
    NewTransfer(None, Some("ReceiveBlind"), WaitingCounterparty, Some(recipientId), None, Some(0), Some(invoice), None)
  }

  /** A sync sees a transfer before its `/rgbinvoice` hook has recorded it, sees it again confirming, and
      is about to swap when the hook inserts. */
  function MissingInvoice(recipientId: string, invoice: string): seq<Action> {
    [Lock(0), Observe(0, Received(recipientId, WaitingCounterparty), 1), Skip(0),
     Observe(0, Received(recipientId, WaitingConfirmations), 2), Insert(Answered(recipientId, invoice), 3)]
  }

  function Bound(recipientId: string, seen: int): Transfer {
    BornObserved(Received(recipientId, WaitingCounterparty), 1).(lastSeenAt := Some(seen))
  }

  function WithInvoice(recipientId: string, invoice: string): Transfer {
    Bound(recipientId, 2).(invoice := Some(invoice), batchTransferIdx := Some(0), updatedAt := 3)
  }

  function Synced(maxAttempts: nat, rows: seq<Transfer>, todo: seq<Read>): Sys {
    Init(maxAttempts).(db := Db(rows, map[], [], None), lock := Some(0), engine := map[0 := todo])
  }

  lemma FirstObserve(maxAttempts: nat, recipientId: string)
    ensures var a := Observe(0, Received(recipientId, WaitingCounterparty), 1);
            var row := Bound(recipientId, 1);
            && Enabled(Synced(maxAttempts, [], []), a)
            && Apply(Synced(maxAttempts, [], []), a)
               == Synced(maxAttempts, [row], [Read(0, row, WaitingCounterparty)])
  {
    assert FindMatch([], Received(recipientId, WaitingCounterparty)).None?;
  }

  lemma SecondObserve(maxAttempts: nat, recipientId: string)
    ensures var a := Observe(0, Received(recipientId, WaitingConfirmations), 2);
            var row := Bound(recipientId, 2);
            && Enabled(Synced(maxAttempts, [Bound(recipientId, 1)], []), a)
            && Apply(Synced(maxAttempts, [Bound(recipientId, 1)], []), a)
               == Synced(maxAttempts, [row], [Read(0, row, WaitingConfirmations)])
  {
    var o := Received(recipientId, WaitingConfirmations);
    assert Matches([Bound(recipientId, 1)][0], o);
    assert FindMatch([Bound(recipientId, 1)], o) == Some(0);
  }

  /** It is a legal run, and the swap that ends it tells of a row that has its invoice, without it. */
  lemma MissingInvoiceRun(maxAttempts: nat, recipientId: string, invoice: string)
    ensures Legal(maxAttempts, MissingInvoice(recipientId, invoice) + [Swap(0, 4)])
    ensures var s := After(maxAttempts, MissingInvoice(recipientId, invoice) + [Swap(0, 4)]);
            && |s.db.transfers| == 1 && s.db.transfers[0].invoice == Some(invoice)
            && |s.db.outbox| == 1 && AboutTransfer(s.db.outbox[0].payload, 0)
            && s.db.outbox[0].payload.row.invoice.None?
  {
    var run := MissingInvoice(recipientId, invoice);
    var row, read := Bound(recipientId, 2), Read(0, Bound(recipientId, 2), WaitingConfirmations);
    UpToRead(maxAttempts, recipientId, invoice);
    assert run == run[..4] + [run[4]];
    Extend(maxAttempts, run[..4], run[4]);
    InsertLate(maxAttempts, recipientId, invoice);
    Extend(maxAttempts, run, Swap(0, 4));
    PayloadMissesInvoice(Db([row], map[], [], None), 0, Answered(recipientId, invoice), WaitingConfirmations, 3, 4);
  }

  lemma UpToRead(maxAttempts: nat, recipientId: string, invoice: string)
    ensures var t, row := MissingInvoice(recipientId, invoice)[..4], Bound(recipientId, 2);
            && Legal(maxAttempts, t)
            && After(maxAttempts, t) == Synced(maxAttempts, [row], [Read(0, row, WaitingConfirmations)])
  {
    var run := MissingInvoice(recipientId, invoice);
    assert Legal(maxAttempts, []) && After(maxAttempts, []) == Init(maxAttempts);
    Extend(maxAttempts, [], run[0]);
    assert [] + [run[0]] == run[..1] && run[..1] + [run[1]] == run[..2] && run[..2] + [run[2]] == run[..3];
    assert run[..3] + [run[3]] == run[..4];
    assert After(maxAttempts, run[..1]) == Synced(maxAttempts, [], []);
    FirstObserve(maxAttempts, recipientId);
    Extend(maxAttempts, run[..1], run[1]);
    Extend(maxAttempts, run[..2], run[2]);
    assert After(maxAttempts, run[..3]) == Synced(maxAttempts, [Bound(recipientId, 1)], []);
    SecondObserve(maxAttempts, recipientId);
    Extend(maxAttempts, run[..3], run[3]);
  }

  lemma InsertLate(maxAttempts: nat, recipientId: string, invoice: string)
    ensures var row, todo := Bound(recipientId, 2), [Read(0, Bound(recipientId, 2), WaitingConfirmations)];
            var s, a := Synced(maxAttempts, [row], todo), Insert(Answered(recipientId, invoice), 3);
            && Enabled(s, a)
            && Apply(s, a) == Synced(maxAttempts, [WithInvoice(recipientId, invoice)], todo)
  {
    var row := Bound(recipientId, 2);
    assert SqlEq([row][0].recipientId, Some(recipientId));
    assert HolderOf([row], Some(recipientId)) == Some(0);
  }
}
