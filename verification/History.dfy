/** Runs seen from outside: the status changes that database snapshots show, and what rows keep. */
module History {
  import opened Base
  import opened Status
  import opened Tables
  import opened System
  import opened Invariants

  datatype Key = TransferKey(id: nat) | PaymentKey(hash: string)

  datatype AnyStatus = OfTransfer(transfer: TransferStatus) | OfPayment(payment: PaymentStatus)

  /** One committed status change. */
  datatype Edge = Edge(key: Key, from: AnyStatus, to: AnyStatus)

  function StatusOf(db: Db, k: Key): Option<AnyStatus> {
    match k
    case TransferKey(id) => if id < |db.transfers| then Some(OfTransfer(db.transfers[id].status)) else None
    case PaymentKey(hash) => if hash in db.payments then Some(OfPayment(db.payments[hash].status)) else None
  }

  /** The row is in both snapshots, with different statuses. */
  predicate Moved(a: Db, b: Db, k: Key) {
    StatusOf(a, k).Some? && StatusOf(b, k).Some? && StatusOf(a, k) != StatusOf(b, k)
  }

  /** The status change between two successive snapshots; OneMove shows there is at most one. */
  ghost function Edges(a: Db, b: Db): seq<Edge> {
    if k :| Moved(a, b, k) then [Edge(k, StatusOf(a, k).value, StatusOf(b, k).value)] else []
  }

  /** The history of a run, from its database snapshots alone. */
  ghost function Committed(maxAttempts: nat, t: seq<Action>): seq<Edge>
    requires Legal(maxAttempts, t)
  {
    if t == [] then [] else
    var r := t[..|t| - 1];
    Committed(maxAttempts, r) + Edges(After(maxAttempts, r).db, After(maxAttempts, t).db)
  }

  /** Edges whose arrival the webhook documentation announces. */
  predicate Announces(e: Edge) {
    match e.to
    case OfTransfer(s) => Announced(s)
    case OfPayment(s) => s.Terminal()
  }

  function Announcing(edges: seq<Edge>): seq<Edge> {
    if edges == [] then [] else
    var e := edges[|edges| - 1];
    Announcing(edges[..|edges| - 1]) + (if Announces(e) then [e] else [])
  }

  function Told(p: Payload): Edge {
    match p
    case TransferPayload(_, id, _, prev, next, _) => Edge(TransferKey(id), OfTransfer(prev), OfTransfer(next))
    case PaymentPayload(_, hash, _, prev, next, _) => Edge(PaymentKey(hash), OfPayment(prev), OfPayment(next))
  }

  function AllTold(outbox: seq<Event>): seq<Edge> {
    seq(|outbox|, i requires 0 <= i < |outbox| => Told(outbox[i].payload))
  }

  // ---------------------------------------------------------- one action, one edge

  lemma TransferSwapEdge(db: Db, id: nat, row: Transfer, observed: TransferStatus, now: int)
    ensures var b := ApplyObserved(db, id, row, observed, now);
            && (forall k :: Moved(db, b, k) ==> k == TransferKey(id))
            && (if Applies(db, id, row, observed)
                then Moved(db, b, TransferKey(id)) && b.transfers[id].status == observed
                else b == db)
            && AllTold(b.outbox) == AllTold(db.outbox) + Announcing(Edges(db, b))
  {
    var b := ApplyObserved(db, id, row, observed, now);
    if Applies(db, id, row, observed) {
      assert Moved(db, b, TransferKey(id));
      var e := Edge(TransferKey(id), OfTransfer(row.status), OfTransfer(observed));
      assert Edges(db, b) == [e] && Announcing([e][..0]) == [];
    }
  }

  lemma PaymentSwapEdge(db: Db, hash: string, row: Payment, observed: PaymentStatus, now: int)
    ensures var b := ApplyPaymentObserved(db, hash, row, observed, now);
            && (forall k :: Moved(db, b, k) ==> k == PaymentKey(hash))
            && (if PaymentApplies(db, hash, row, observed)
                then Moved(db, b, PaymentKey(hash)) && b.payments[hash].status == observed
                else b == db)
            && AllTold(b.outbox) == AllTold(db.outbox) + Announcing(Edges(db, b))
  {
    var b := ApplyPaymentObserved(db, hash, row, observed, now);
    if PaymentApplies(db, hash, row, observed) {
      assert Moved(db, b, PaymentKey(hash));
      var e := Edge(PaymentKey(hash), OfPayment(row.status), OfPayment(observed));
      assert Edges(db, b) == [e] && Announcing([e][..0]) == [];
    }
  }

  /** Only swaps change a status: no upsert, insert, delivery or crash does. */
  lemma OnlySwapsMove(s: Sys, a: Action)
    requires Inv(s) && Enabled(s, a) && !a.Swap? && !a.HookSwap? && !a.PollSwap?
    ensures forall k :: !Moved(s.db, Apply(s, a).db, k)
  {
    hide Apply, Enabled, Inv;
    TransfersStay(s, a);
    PaymentsStay(s, a);
  }

  lemma TransfersStay(s: Sys, a: Action)
    requires Inv(s) && Enabled(s, a) && !a.Swap?
    ensures RowsKept(s.db.transfers, Apply(s, a).db.transfers)
  {
    if a.Observe? {
      if UpsertObserved(s.db.transfers, a.o, a.now).Ok? { UpsertKeeps(s.db.transfers, a.o, a.now); }
    } else if a.Insert? {
      if InsertTransfer(s.db.transfers, a.n, a.now).Ok? { InsertKeeps(s.db.transfers, a.n, a.now); }
    } else {
      OthersKeepTransfers(s, a);
      hide Apply;
    }
  }

  lemma PaymentsStay(s: Sys, a: Action)
    requires Enabled(s, a) && !a.HookSwap? && !a.PollSwap?
    ensures var b := Apply(s, a).db;
            forall h :: h in s.db.payments ==> h in b.payments && b.payments[h].status == s.db.payments[h].status
  {
    if !PaymentWrite(a) {
      OthersKeepPayments(s, a);
      hide Apply;
    }
  }

  lemma QuietTold(s: Sys, a: Action)
    requires Inv(s) && Enabled(s, a) && !a.Swap? && !a.HookSwap? && !a.PollSwap?
    ensures AllTold(Apply(s, a).db.outbox) == AllTold(s.db.outbox)
  {
    if a.Mark? || a.Record? {
      assert FetchedCurrent(s.db.outbox, s.batch[0]);
    } else {
      OthersKeepOutbox(s, a);
      hide Apply;
    }
  }

  /** An action changes at most one row's status, and its event is in the outbox at once. */
  lemma OneMove(s: Sys, a: Action)
    requires Inv(s) && Enabled(s, a)
    ensures var b := Apply(s, a).db;
            && (forall k, l :: Moved(s.db, b, k) && Moved(s.db, b, l) ==> k == l)
            && AllTold(b.outbox) == AllTold(s.db.outbox) + Announcing(Edges(s.db, b))
  {
    if a.Swap? {
      var r := s.engine[a.tid][0];
      TransferSwapEdge(s.db, r.id, r.row, r.observed, a.now);
    } else if a.HookSwap? {
      var r := s.hooks[a.tid];
      PaymentSwapEdge(s.db, r.hash, r.row, r.observed, a.now);
    } else if a.PollSwap? {
      var r := s.poll.value.read.value;
      PaymentSwapEdge(s.db, r.hash, r.row, r.observed, a.now);
    } else {
      QuietStep(s, a);
    }
  }

  lemma QuietStep(s: Sys, a: Action)
    requires Inv(s) && Enabled(s, a) && !a.Swap? && !a.HookSwap? && !a.PollSwap?
    ensures var b := Apply(s, a).db;
            && (forall k :: !Moved(s.db, b, k))
            && AllTold(b.outbox) == AllTold(s.db.outbox) + Announcing(Edges(s.db, b))
  {
    OnlySwapsMove(s, a);
    QuietTold(s, a);
    NoEdges(s.db, Apply(s, a).db);
  }

  lemma NoEdges(a: Db, b: Db)
    requires forall k :: !Moved(a, b, k)
    ensures Announcing(Edges(a, b)) == []
  {
  }

  lemma {:induction false} AnnouncingAppend(x: seq<Edge>, y: seq<Edge>)
    ensures Announcing(x + y) == Announcing(x) + Announcing(y)
  {
    if y == [] {
      assert x + y == x;
    } else {
      var n := |y| - 1;
      assert (x + y)[..|x + y| - 1] == x + y[..n];
      AnnouncingAppend(x, y[..n]);
    }
  }

  /** The outbox, in rowid order, is exactly the committed status changes that the documentation
      announces, each with the edge really taken; none lost, none invented, none reordered. */
  lemma {:induction false} OutboxIsHistory(maxAttempts: nat, t: seq<Action>)
    requires Legal(maxAttempts, t)
    ensures AllTold(After(maxAttempts, t).db.outbox) == Announcing(Committed(maxAttempts, t))
  {
    if t != [] {
      var r := t[..|t| - 1];
      OutboxIsHistory(maxAttempts, r);
      Reachable(maxAttempts, r);
      OneMove(After(maxAttempts, r), t[|t| - 1]);
      AnnouncingAppend(Committed(maxAttempts, r), Edges(After(maxAttempts, r).db, After(maxAttempts, t).db));
    }
  }

  // ----------------------------------------------------------------- what rows keep

  /** How a row may change over any stretch of a run. */
  predicate RowGrown(a: Transfer, b: Transfer) {
    && (a.rlnIdx.Some? ==> b.rlnIdx == a.rlnIdx)
    && (a.assetId.Some? ==> b.assetId.Some?)
    && (a.txid.Some? ==> b.txid.Some?)
    && (a.expiration.Some? ==> b.expiration.Some?)
    && b.recipientId == a.recipientId
    && (a.settledAt.Some? ==> b.settledAt == a.settledAt)
    && (if a.status.Terminal() then b.status == a.status else Rank(a.status) <= Rank(b.status))
    && (b.status != a.status ==> Rank(a.status) < Rank(b.status))
  }

  predicate Grown(a: seq<Transfer>, b: seq<Transfer>) {
    |a| <= |b| && forall i :: 0 <= i < |a| ==> RowGrown(a[i], b[i])
  }

  lemma GrownStep(s: Sys, a: Action)
    requires Inv(s) && Enabled(s, a)
    ensures Grown(s.db.transfers, Apply(s, a).db.transfers)
  {
    if a.Observe? {
      ObservedGrown(s.db.transfers, a.o, a.now);
    } else if a.Insert? {
      InsertGrown(s.db.transfers, a.n, a.now);
    } else if a.Swap? {
      SwapGrown(s.db, s.engine[a.tid][0], a.now);
    } else {
      OthersKeepTransfers(s, a);
    }
  }

  lemma InsertGrown(rows: seq<Transfer>, n: NewTransfer, now: int)
    ensures var u := InsertTransfer(rows, n, now);
            u.Ok? ==> Grown(rows, u.value.rows)
  {
  }

  lemma ObservedGrown(rows: seq<Transfer>, o: Observed, now: int)
    ensures var u := UpsertObserved(rows, o, now);
            u.Ok? ==> Grown(rows, u.value.rows) && u.value.rows[u.value.id].rlnIdx == Some(o.rlnIdx)
                      && |u.value.rows| <= |rows| + 1
  {
  }

  lemma SwapGrown(db: Db, r: Read, now: int)
    requires RowsInv(db.transfers)
    ensures Grown(db.transfers, ApplyObserved(db, r.id, r.row, r.observed, now).transfers)
  {
  }

  /** Over any stretch of any run rows only grow: a binding is never changed or lost, known assets,
      txids and expirations stay known, statuses climb, and settled_at is final. */
  lemma {:induction false} RowsOnlyGrow(maxAttempts: nat, t: seq<Action>, n: nat)
    requires Legal(maxAttempts, t) && n <= |t|
    ensures Legal(maxAttempts, t[..n])
    ensures Grown(After(maxAttempts, t[..n]).db.transfers, After(maxAttempts, t).db.transfers)
  {
    if n == |t| {
      assert t[..n] == t;
    } else {
      var r := t[..|t| - 1];
      RowsOnlyGrow(maxAttempts, r, n);
      assert r[..n] == t[..n];
      Reachable(maxAttempts, r);
      GrownStep(After(maxAttempts, r), t[|t| - 1]);
      GrownTransitive(After(maxAttempts, t[..n]).db.transfers, After(maxAttempts, r).db.transfers,
                      After(maxAttempts, t).db.transfers);
    }
  }

  lemma GrownTransitive(a: seq<Transfer>, b: seq<Transfer>, c: seq<Transfer>)
    requires Grown(a, b) && Grown(b, c)
    ensures Grown(a, c)
  {
    forall i | 0 <= i < |a| ensures RowGrown(a[i], c[i]) {
      assert RowGrown(a[i], b[i]) && RowGrown(b[i], c[i]);
    }
  }

  /** rln_idx to row is a partial injection that only grows: whatever happens between them, two
      observations of one index return the same row. */
  lemma BindingIsFinal(maxAttempts: nat, t: seq<Action>, n: nat, o: Observed, p: Observed, now: int, later: int)
    requires Legal(maxAttempts, t) && n < |t| && o.rlnIdx == p.rlnIdx
    requires t[n].Observe? && t[n].o == o && t[n].now == now
    requires Legal(maxAttempts, t[..n]) && UpsertObserved(After(maxAttempts, t[..n]).db.transfers, o, now).Ok?
    requires UpsertObserved(After(maxAttempts, t).db.transfers, p, later).Ok?
    ensures UpsertObserved(After(maxAttempts, t).db.transfers, p, later).value.id
            == UpsertObserved(After(maxAttempts, t[..n]).db.transfers, o, now).value.id
    ensures |UpsertObserved(After(maxAttempts, t).db.transfers, p, later).value.rows|
            == |After(maxAttempts, t).db.transfers|
  {
    var rows := After(maxAttempts, t[..n]).db.transfers;
    var id := UpsertObserved(rows, o, now).value.id;
    RowsOnlyGrow(maxAttempts, t, n + 1);
    assert t[..n + 1][..n] == t[..n];
    ObservedGrown(rows, o, now);
    Reachable(maxAttempts, t);
    BoundRowMatches(After(maxAttempts, t).db.transfers, p, id);
  }

  /** A bound row is what its index matches, ahead of every other candidate. */
  lemma BoundRowMatches(rows: seq<Transfer>, o: Observed, id: nat)
    requires RowsInv(rows) && id < |rows| && rows[id].rlnIdx == Some(o.rlnIdx)
    ensures FindMatch(rows, o) == Some(id)
  {
    var found := FindMatch(rows, o);
    assert Matches(rows[id], o);
    assert Precedes(rows, o, found.value, id);
    assert SqlEq(rows[found.value].rlnIdx, rows[id].rlnIdx);
  }
}
