/** `/sendrgb` records its rows after the node has answered, so a sync may see the transfer first. A row
    of a send has no recipient to be merged by, so here the two orders differ where those of an invoice
    merge; and what becomes of a row that no transfer is bound to. */
module SendRace {
  import opened Base
  import opened Status
  import opened Tables
  import opened System
  import opened Invariants
  import opened History
  import opened Payloads
  import InvoiceRace
  import Listing

  /** What the sendrgb hook inserts for an asset. */
  predicate IsSend(n: NewTransfer) {
    && n.status in {WaitingCounterparty, WaitingConfirmations}
    && n.recipientId.None? && n.txid.Some? && n.assetId.Some? && n.batchTransferIdx.None?
  }

  /** A send and the node's first report of it. */
  predicate Race(rows: seq<Transfer>, n: NewTransfer, o: Observed) {
    && RowsInv(rows) && IsSend(n) && o.txid == n.txid && o.assetId == n.assetId
    && (forall j :: 0 <= j < |rows| ==> rows[j].rlnIdx != Some(o.rlnIdx))
    && HolderOf(rows, o.recipientId).None?
    && FitsDb(n.expiration) && FitsDb(o.expiration)
  }

  /** A row of a send that no transfer is bound to. */
  predicate Stranded(r: Transfer) {
    r.rlnIdx.None? && r.recipientId.None? && r.batchTransferIdx.None?
  }

  /** The observation is of a transfer with the row's txid and asset. */
  predicate Names(o: Observed, r: Transfer) {
    SqlEq(r.txid, o.txid) && SqlEq(r.assetId, o.assetId)
  }

  lemma NoHolder(rows: seq<Transfer>)
    ensures HolderOf(rows, None).None?
  {
  }

  /** Insert first, and nothing stored matches: one new row, bound, at the node's status or the send's own
      if that is further. */
  lemma InsertFirstBinds(db: Db, n: NewTransfer, o: Observed, inserted: int, observed: int)
    requires Race(db.transfers, n, o) && FindMatch(db.transfers, o).None?
    ensures var a, id := InvoiceRace.InsertFirst(db, n, o, inserted, observed).transfers, |db.transfers|;
            && |a| == id + 1 && a[..id] == db.transfers
            && a[id].rlnIdx == Some(o.rlnIdx) && a[id].status == Advance(n.status, o.status)
  {
    NoHolder(db.transfers);
    var mid := InvoiceRace.Insert(db, n, inserted);
    var id := |db.transfers|;
    assert mid.transfers == db.transfers + [BornIntercepted(n, inserted)];
    assert Matches(mid.transfers[id], o);
    assert forall j :: 0 <= j < id ==> mid.transfers[j] == db.transfers[j] && !Matches(db.transfers[j], o);
    assert FindMatch(mid.transfers, o) == Some(id);
    InsertKeeps(db.transfers, n, inserted);
    Listing.ObserveEffect(mid, o, observed);
  }

  /** Observe first, and nothing stored matches: a bound row, and beside it one that waits unbound. */
  lemma ObserveFirstStrands(db: Db, n: NewTransfer, o: Observed, inserted: int, observed: int)
    requires Race(db.transfers, n, o) && FindMatch(db.transfers, o).None?
    ensures var b, id := InvoiceRace.ObserveFirst(db, n, o, inserted, observed).transfers, |db.transfers|;
            && b == db.transfers + [BornObserved(o, observed)] + [BornIntercepted(n, inserted)]
            && b[id].rlnIdx == Some(o.rlnIdx) && b[id].status == o.status && Stranded(b[id + 1])
  {
    var mid := Listing.Observe(db, o, observed).db;
    Listing.ObserveEffect(db, o, observed);
    assert mid.transfers == db.transfers + [BornObserved(o, observed)];
    NoHolder(mid.transfers);
  }

  /** Something stored matches, such as the row of an earlier identical send: it takes the binding in
      either order, and this send's row waits unbound. */
  lemma EarlierTakesBinding(db: Db, n: NewTransfer, o: Observed, inserted: int, observed: int)
    requires Race(db.transfers, n, o) && FindMatch(db.transfers, o).Some?
    ensures var a := InvoiceRace.InsertFirst(db, n, o, inserted, observed).transfers;
            var b, id := InvoiceRace.ObserveFirst(db, n, o, inserted, observed).transfers, |db.transfers|;
            && a == b && |b| == id + 1 && b[id] == BornIntercepted(n, inserted) && Stranded(b[id])
            && b[FindMatch(db.transfers, o).value].rlnIdx == Some(o.rlnIdx)
  {
    var j, id, row := FindMatch(db.transfers, o).value, |db.transfers|, BornIntercepted(n, inserted);
    NoHolder(db.transfers);
    var mid := InvoiceRace.Insert(db, n, inserted);
    assert mid.transfers == db.transfers + [row];
    SameMatch(db.transfers, row, o);
    var seen := Listing.Observe(db, o, observed).db;
    Listing.ObserveEffect(db, o, observed);
    NoHolder(seen.transfers);
    assert seen.transfers + [row] == InvoiceRace.ObserveFirst(db, n, o, inserted, observed).transfers;
    assert mid.transfers[j := Bind(mid.transfers[j], o, observed)]
        == db.transfers[j := Bind(db.transfers[j], o, observed)] + [row];
  }

  /** A new row of the weakest class is no better match than one already there. */
  lemma SameMatch(rows: seq<Transfer>, row: Transfer, o: Observed)
    requires FindMatch(rows, o).Some? && MatchClass(row, o) == 2
    ensures FindMatch(rows + [row], o) == FindMatch(rows, o)
  {
    BestSame(rows, rows + [row], o, |rows|);
  }

  lemma {:induction false} BestSame(a: seq<Transfer>, b: seq<Transfer>, o: Observed, n: nat)
    requires n <= |a| <= |b| && b[..|a|] == a
    ensures BestBelow(b, o, n) == BestBelow(a, o, n)
  {
    if n > 0 {
      BestSame(a, b, o, n - 1);
      assert b[..|a|][n - 1] == b[n - 1];
      var best := BestBelow(a, o, n - 1);
      assert best.Some? ==> b[..|a|][best.value] == b[best.value];
    }
  }

  /** The two orders of one send leave the same rows if and only if an earlier row takes the binding.
      Otherwise inserting first leaves one row and observing first leaves two, after a single call. */
  lemma SendRaces(db: Db, n: NewTransfer, o: Observed, inserted: int, observed: int)
    requires Race(db.transfers, n, o)
    ensures var a := InvoiceRace.InsertFirst(db, n, o, inserted, observed).transfers;
            var b, id := InvoiceRace.ObserveFirst(db, n, o, inserted, observed).transfers, |db.transfers|;
            && (a == b <==> FindMatch(db.transfers, o).Some?)
            && |a| == id + 1 && |b| == (if FindMatch(db.transfers, o).Some? then id + 1 else id + 2)
            && Stranded(b[|b| - 1]) && (Stranded(a[id]) <==> FindMatch(db.transfers, o).Some?)
  {
    if FindMatch(db.transfers, o).Some? {
      EarlierTakesBinding(db, n, o, inserted, observed);
    } else {
      InsertFirstBinds(db, n, o, inserted, observed);
      ObserveFirstStrands(db, n, o, inserted, observed);
    }
  }

  // ------------------------------------------------- what becomes of a stranded row

  /** An observation ends on a stranded row if and only if it names its txid and asset, is of a transfer no
      row is bound to, and no unbound row holds its recipient or is an older one so named. */
  lemma BindsStranded(rows: seq<Transfer>, o: Observed, id: nat)
    requires id < |rows| && Stranded(rows[id])
    ensures FindMatch(rows, o) == Some(id) <==>
              && Names(o, rows[id])
              && (forall j :: 0 <= j < |rows| ==> rows[j].rlnIdx != Some(o.rlnIdx))
              && (forall j :: 0 <= j < |rows| && rows[j].rlnIdx.None? ==> !SqlEq(rows[j].recipientId, o.recipientId))
              && (forall j :: 0 <= j < id && rows[j].rlnIdx.None? ==> !Names(o, rows[j]))
  {
    var found := FindMatch(rows, o);
    if found == Some(id) {
      forall j | 0 <= j < |rows|
        ensures rows[j].rlnIdx != Some(o.rlnIdx)
        ensures rows[j].rlnIdx.None? ==> !SqlEq(rows[j].recipientId, o.recipientId)
        ensures j < id && rows[j].rlnIdx.None? ==> !Names(o, rows[j])
      {
        assert Matches(rows[j], o) ==> Precedes(rows, o, id, j);
      }
    } else if Names(o, rows[id]) {
      assert Matches(rows[id], o) && found.Some?;
      assert Precedes(rows, o, found.value, id);
    }
  }

  /** The action observes a transfer that the row could be bound to: it names the row's txid and asset, and
      no row is bound to it. */
  predicate CouldBind(s: Sys, a: Action, id: nat)
    requires id < |s.db.transfers|
  {
    && a.Observe? && Names(a.o, s.db.transfers[id])
    && forall j :: 0 <= j < |s.db.transfers| ==> s.db.transfers[j].rlnIdx != Some(a.o.rlnIdx)
  }

  lemma NeverMerged(r: Transfer, t: seq<Action>)
    requires r.recipientId.None?
    ensures MergedBy(r, t) == r
  {
    if t != [] {
      NeverMerged(r, t[..|t| - 1]);
    }
  }

  /** A lock holder that has read a stranded row read it as it still is. */
  lemma ReadStranded(maxAttempts: nat, t: seq<Action>, tid: Tid, id: nat, k: nat)
    requires Legal(maxAttempts, t) && tid in After(maxAttempts, t).engine && k < |After(maxAttempts, t).engine[tid]|
    requires After(maxAttempts, t).engine[tid][k].id == id && id < |After(maxAttempts, t).db.transfers|
    requires Stranded(After(maxAttempts, t).db.transfers[id])
    ensures After(maxAttempts, t).engine[tid][k].row == After(maxAttempts, t).db.transfers[id]
  {
    hide Apply, Enabled;
    var n := ReadWasTaken(maxAttempts, t, tid);
    TracksSinceRead(maxAttempts, t, n, tid);
    var s := After(maxAttempts, t);
    var r := s.engine[tid][k];
    assert s.db.transfers[r.id] == MergedBy(r.row, t[n + 1..]);
    MergedColumns(r.row, t[n + 1..]);
    NeverMerged(r.row, t[n + 1..]);
  }

  lemma ObserveElsewhere(rows: seq<Transfer>, o: Observed, now: int, id: nat)
    requires id < |rows| && FindMatch(rows, o) != Some(id)
    ensures var u := UpsertObserved(rows, o, now);
            u.Ok? ==> id < |u.value.rows| && u.value.rows[id] == rows[id]
  {
  }

  lemma InsertElsewhere(rows: seq<Transfer>, n: NewTransfer, now: int, id: nat)
    requires id < |rows| && rows[id].recipientId.None?
    ensures var u := InsertTransfer(rows, n, now);
            u.Ok? ==> id < |u.value.rows| && u.value.rows[id] == rows[id]
  {
  }

  lemma SwapElsewhere(db: Db, r: Read, now: int, id: nat)
    requires id < |db.transfers| && r.id != id
    ensures var b := ApplyObserved(db, r.id, r.row, r.observed, now).transfers;
            id < |b| && b[id] == db.transfers[id]
  {
  }

  lemma StrandedStep(maxAttempts: nat, t: seq<Action>, a: Action, id: nat)
    requires Legal(maxAttempts, t) && Enabled(After(maxAttempts, t), a) && id < |After(maxAttempts, t).db.transfers|
    requires Stranded(After(maxAttempts, t).db.transfers[id]) && !CouldBind(After(maxAttempts, t), a, id)
    ensures var s, b := After(maxAttempts, t), Apply(After(maxAttempts, t), a).db.transfers;
            id < |b| && b[id] == s.db.transfers[id]
  {
    hide FindMatch, HolderOf, UpsertObserved, InsertTransfer, ApplyObserved;
    var s := After(maxAttempts, t);
    if a.Observe? {
      BindsStranded(s.db.transfers, a.o, id);
      ObserveElsewhere(s.db.transfers, a.o, a.now, id);
    } else if a.Insert? {
      InsertElsewhere(s.db.transfers, a.n, a.now, id);
    } else if a.Swap? {
      if s.engine[a.tid][0].id == id {
        ReadStranded(maxAttempts, t, a.tid, id, 0);
      } else {
        SwapElsewhere(s.db, s.engine[a.tid][0], a.now, id);
      }
    } else {
      OthersKeepTransfers(s, a);
    }
  }

  /** From the n-th action on, nothing that the row could be bound to is observed. */
  ghost predicate NothingBinds(maxAttempts: nat, t: seq<Action>, n: nat, id: nat)
    requires Legal(maxAttempts, t)
  {
    |t| <= n ||
    (NothingBinds(maxAttempts, t[..|t| - 1], n, id)
     && var s := After(maxAttempts, t[..|t| - 1]);
        id < |s.db.transfers| && !CouldBind(s, t[|t| - 1], id))
  }

  /** A stranded row waits for ever: nothing in any run changes it in any column, the reaper included,
      until the node lists a transfer of its txid and asset that no row is bound to. */
  lemma {:induction false} StrandedStays(maxAttempts: nat, t: seq<Action>, n: nat, id: nat)
    requires Legal(maxAttempts, t) && n <= |t| && Legal(maxAttempts, t[..n])
    requires id < |After(maxAttempts, t[..n]).db.transfers| && Stranded(After(maxAttempts, t[..n]).db.transfers[id])
    requires NothingBinds(maxAttempts, t, n, id)
    ensures id < |After(maxAttempts, t).db.transfers|
    ensures After(maxAttempts, t).db.transfers[id] == After(maxAttempts, t[..n]).db.transfers[id]
  {
    hide Apply, Enabled, CouldBind;
    if n == |t| {
      assert t[..n] == t;
    } else {
      var r := t[..|t| - 1];
      assert r[..n] == t[..n];
      StrandedStays(maxAttempts, r, n, id);
      StrandedStep(maxAttempts, r, t[|t| - 1], id);
    }
  }
}
