/** `/rgbinvoice` records its row after the node has answered, so a sync may see the transfer first.
    The two orders, compared. */
module InvoiceRace {
  import opened Base
  import opened Status
  import opened Tables
  import opened Invariants
  import opened Listing

  /** What the rgbinvoice hook inserts. */
  predicate IsInvoice(n: NewTransfer) {
    && n.status == WaitingCounterparty && n.txid.None?
    && n.recipientId.Some? && n.batchTransferIdx.Some? && n.invoice.Some?
  }

  /** The row it inserts. */
  function Invoice(assetId: Option<string>, byWitness: bool, recipientId: string, invoice: string,
                   expiration: Option<u64>, batchTransferIdx: int): (n: NewTransfer)
    ensures IsInvoice(n)
  {
    NewTransfer(assetId, Some(if byWitness then "ReceiveWitness" else "ReceiveBlind"), WaitingCounterparty,
                Some(recipientId), None, Some(batchTransferIdx), Some(invoice), expiration)
  }

  function Insert(db: Db, n: NewTransfer, now: int): Db {
    var u := InsertTransfer(db.transfers, n, now);
    if u.Err? then db else db.(transfers := u.value.rows)
  }

  function InsertFirst(db: Db, n: NewTransfer, o: Observed, inserted: int, observed: int): Db {
    Observe(Insert(db, n, inserted), o, observed).db
  }

  function ObserveFirst(db: Db, n: NewTransfer, o: Observed, inserted: int, observed: int): Db {
    Insert(Observe(db, o, observed).db, n, inserted)
  }

  /** The row answers for the transfer and for the invoice. */
  predicate Carries(r: Transfer, n: NewTransfer, o: Observed) {
    && r.rlnIdx == Some(o.rlnIdx)
    && r.recipientId == n.recipientId && r.invoice == n.invoice && r.batchTransferIdx == n.batchTransferIdx
  }

  /** All that a reader of two rows can compare but the clock. */
  predicate Agree(a: Transfer, b: Transfer) {
    && a.rlnIdx == b.rlnIdx && a.recipientId == b.recipientId
    && a.invoice == b.invoice && a.batchTransferIdx == b.batchTransferIdx
    && a.kind == b.kind && a.txid == b.txid
    && a.status == b.status && a.assetId == b.assetId && a.expiration == b.expiration
  }

  /** A fresh invoice and the node's first report of it. */
  predicate Race(rows: seq<Transfer>, n: NewTransfer, o: Observed) {
    && RowsInv(rows) && IsInvoice(n) && o.recipientId == n.recipientId
    && HolderOf(rows, n.recipientId).None?
    && (forall j :: 0 <= j < |rows| ==> rows[j].rlnIdx != Some(o.rlnIdx))
    && FitsDb(n.expiration) && FitsDb(o.expiration)
  }

  /** Insert first: one new row, which carries both, whatever sends wait for the same txid. */
  lemma InsertFirstMerges(db: Db, n: NewTransfer, o: Observed, inserted: int, observed: int)
    requires Race(db.transfers, n, o)
    ensures var rows := InsertFirst(db, n, o, inserted, observed).transfers;
            var id := |db.transfers|;
            && |rows| == id + 1 && rows[..id] == db.transfers && Carries(rows[id], n, o)
            && rows[id].kind == Some(o.kind) && rows[id].txid == o.txid
            && rows[id].status == Advance(WaitingCounterparty, o.status)
            && rows[id].assetId == Coalesce(o.assetId, n.assetId)
            && rows[id].expiration == Coalesce(o.expiration, n.expiration)
  {
    var mid := Insert(db, n, inserted).transfers;
    var id := |db.transfers|;
    var found := FindMatch(mid, o);
    assert Matches(mid[id], o) && MatchClass(mid[id], o) == 1;
    assert Precedes(mid, o, found.value, id);
    assert forall j :: 0 <= j < id ==> mid[j] == db.transfers[j] && !SqlEq(mid[j].recipientId, o.recipientId);
    assert found == Some(id);
  }

  lemma HolderIsUnique(rows: seq<Transfer>, id: nat)
    requires RowsInv(rows) && id < |rows| && rows[id].recipientId.Some?
    ensures HolderOf(rows, rows[id].recipientId) == Some(id)
  {
    var h := HolderOf(rows, rows[id].recipientId);
    assert h.Some? ==> SqlEq(rows[h.value].recipientId, rows[id].recipientId);
  }

  /** Observe first, and nothing stored matches: one new row, which carries both. */
  lemma ObserveFirstMerges(db: Db, n: NewTransfer, o: Observed, inserted: int, observed: int)
    requires Race(db.transfers, n, o) && FindMatch(db.transfers, o).None?
    ensures var rows := ObserveFirst(db, n, o, inserted, observed).transfers;
            var id := |db.transfers|;
            && |rows| == id + 1 && rows[..id] == db.transfers && Carries(rows[id], n, o)
            && rows[id].kind == Some(o.kind) && rows[id].txid == o.txid
            && rows[id].status == o.status
            && rows[id].assetId == o.assetId
            && rows[id].expiration == Coalesce(n.expiration, o.expiration)
  {
    var mid := Observe(db, o, observed).db.transfers;
    ObserveEffect(db, o, observed);
    assert mid == db.transfers + [BornObserved(o, observed)];
    HolderIsUnique(mid, |db.transfers|);
  }

  /** Observe first, and an unbound send with the same txid and asset takes the binding: the invoice
      ends on a second row that no transfer is bound to. */
  lemma ObserveFirstSplits(db: Db, n: NewTransfer, o: Observed, inserted: int, observed: int)
    requires Race(db.transfers, n, o) && FindMatch(db.transfers, o).Some?
    ensures var rows := ObserveFirst(db, n, o, inserted, observed).transfers;
            var id := FindMatch(db.transfers, o).value;
            && |rows| == |db.transfers| + 1
            && rows[id].rlnIdx == Some(o.rlnIdx) && rows[id].recipientId == db.transfers[id].recipientId
            && rows[|db.transfers|] == BornIntercepted(n, inserted)
  {
    var mid := Observe(db, o, observed).db.transfers;
    var id := FindMatch(db.transfers, o).value;
    assert mid[id].recipientId == db.transfers[id].recipientId;
    assert forall j :: 0 <= j < |mid| ==> mid[j].recipientId == db.transfers[j].recipientId;
  }

  /** Confluence, exactly. Inserting first always leaves one row carrying both. Observing first does
      so if and only if nothing stored matched the observation; the two rows then agree if and only
      if the node has got as far as WaitingCounterparty, knows the asset if the invoice does, and
      does not contradict the invoice's expiration. */
  lemma InvoiceRace(db: Db, n: NewTransfer, o: Observed, inserted: int, observed: int)
    requires Race(db.transfers, n, o)
    ensures var id := |db.transfers|;
            var a := InsertFirst(db, n, o, inserted, observed).transfers;
            var b := ObserveFirst(db, n, o, inserted, observed).transfers;
            && |a| == id + 1 && Carries(a[id], n, o)
            && |b| == id + 1
            && ((exists j :: 0 <= j < |b| && Carries(b[j], n, o)) <==> FindMatch(db.transfers, o).None?)
            && (FindMatch(db.transfers, o).None? ==>
                  && Carries(b[id], n, o) && a[..id] == b[..id]
                  && (Agree(a[id], b[id]) <==>
                        && Rank(o.status) >= 1
                        && (o.assetId.Some? || n.assetId.None?)
                        && (o.expiration.Some? && n.expiration.Some? ==> o.expiration == n.expiration)))
  {
    InsertFirstMerges(db, n, o, inserted, observed);
    if FindMatch(db.transfers, o).None? {
      ObserveFirstMerges(db, n, o, inserted, observed);
    } else {
      ObserveFirstSplits(db, n, o, inserted, observed);
      SplitCarriesNone(db, n, o, inserted, observed);
    }
  }

  lemma SplitCarriesNone(db: Db, n: NewTransfer, o: Observed, inserted: int, observed: int)
    requires Race(db.transfers, n, o) && FindMatch(db.transfers, o).Some?
    ensures var b := ObserveFirst(db, n, o, inserted, observed).transfers;
            forall j :: 0 <= j < |b| ==> !Carries(b[j], n, o)
  {
    var mid := Observe(db, o, observed).db.transfers;
    var b := ObserveFirst(db, n, o, inserted, observed).transfers;
    ObserveFirstSplits(db, n, o, inserted, observed);
    forall j | 0 <= j < |b| ensures !Carries(b[j], n, o) {
      if j < |db.transfers| {
        assert b[j].recipientId == mid[j].recipientId == db.transfers[j].recipientId;
        assert !SqlEq(db.transfers[j].recipientId, n.recipientId);
      }
    }
  }

  /** What inserting first announces: the new row's transfer, if the node has reached such a stage. */
  lemma InsertFirstTells(db: Db, n: NewTransfer, o: Observed, inserted: int, observed: int)
    requires Race(db.transfers, n, o)
    ensures var a := InsertFirst(db, n, o, inserted, observed).outbox;
            if !Announced(o.status) then a == db.outbox
            else |a| == |db.outbox| + 1 && a[..|db.outbox|] == db.outbox
                 && AboutTransfer(a[|db.outbox|].payload, |db.transfers|) && a[|db.outbox|].payload.next == o.status
  {
    InsertFirstMerges(db, n, o, inserted, observed);
    var mid := Insert(db, n, inserted);
    var id := |db.transfers|;
    var found := FindMatch(mid.transfers, o);
    assert Matches(mid.transfers[id], o) && MatchClass(mid.transfers[id], o) == 1;
    assert Precedes(mid.transfers, o, found.value, id);
    assert forall j :: 0 <= j < id ==> mid.transfers[j] == db.transfers[j]
                                       && !SqlEq(mid.transfers[j].recipientId, o.recipientId);
  }

  /** What observing first announces: nothing of a new row, and of a row it matched the move that row
      has made. */
  lemma ObserveFirstTells(db: Db, n: NewTransfer, o: Observed, inserted: int, observed: int)
    requires Race(db.transfers, n, o)
    ensures var b, found := ObserveFirst(db, n, o, inserted, observed).outbox, FindMatch(db.transfers, o);
            if found.None? || !Announced(o.status) || PlanTransition(db.transfers[found.value].status, o.status).None?
            then b == db.outbox
            else |b| == |db.outbox| + 1 && b[..|db.outbox|] == db.outbox
                 && AboutTransfer(b[|db.outbox|].payload, found.value)
  {
  }

  /** The outbox is not confluent: a transfer the sync sees first is born at the status the node
      reports and announces nothing, or takes the row of a send and announces that. The two orders
      agree if and only if the node has not yet reached a stage that is announced, whatever is stored;
      if nothing stored matched they differ by exactly that event. */
  lemma RaceEvents(db: Db, n: NewTransfer, o: Observed, inserted: int, observed: int)
    requires Race(db.transfers, n, o)
    ensures var a := InsertFirst(db, n, o, inserted, observed).outbox;
            var b := ObserveFirst(db, n, o, inserted, observed).outbox;
            && (a == b <==> !Announced(o.status))
            && (FindMatch(db.transfers, o).None? ==>
                  && b == db.outbox
                  && (Announced(o.status) ==> |a| == |b| + 1 && a[..|b|] == b
                                              && AboutTransfer(a[|b|].payload, |db.transfers|)
                                              && a[|b|].payload.next == o.status))
  {
    hide InsertFirst, ObserveFirst, Race;
    InsertFirstTells(db, n, o, inserted, observed);
    ObserveFirstTells(db, n, o, inserted, observed);
  }
}
