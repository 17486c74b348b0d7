/** A node listing applied to the mirror: what one observation does, and what a whole listing,
    listed again or listed differently, leaves behind. No interceptor runs beside it here. */
module Listing {
  import opened Base
  import opened Status
  import opened Tables
  import opened Invariants
  import opened History
  import opened Rln

  /** Where a listing leaves the mirror, and whether every observation in it succeeded. */
  datatype Outcome = Outcome(db: Db, ok: bool)

  /** `observe`: upsert in one transaction, then plan and swap from the row it returned. */
  function Observe(db: Db, o: Observed, now: int): Outcome {
    var u := UpsertObserved(db.transfers, o, now);
    if u.Err? then Outcome(db, false) else
    Outcome(ApplyObserved(db.(transfers := u.value.rows), u.value.id, u.value.rows[u.value.id], o.status, now), true)
  }

  /** A listing up to its first error; what was observed before the error stays. */
  function ObserveAll(db: Db, listing: seq<Observed>, now: int): Outcome {
    if listing == [] then Outcome(db, true) else
    var r := ObserveAll(db, listing[..|listing| - 1], now);
    if !r.ok then r else Observe(r.db, listing[|listing| - 1], now)
  }

  /** The first of an observation's two transactions, when the second never ran. */
  function HalfObserved(db: Db, o: Observed, now: int): Outcome {
    var u := UpsertObserved(db.transfers, o, now);
    if u.Err? then Outcome(db, false) else Outcome(db.(transfers := u.value.rows), true)
  }

  /** Where a sync that has observed `seen` stands when it stops: after its last entry, or halfway
      through it, between the upsert and the swap. */
  function Stopped(db: Db, seen: seq<Observed>, half: bool, now: int): Outcome {
    if !half || seen == [] then ObserveAll(db, seen, now) else
    var r := ObserveAll(db, seen[..|seen| - 1], now);
    if !r.ok then r else HalfObserved(r.db, seen[|seen| - 1], now)
  }

  /** One entry more of a listing. */
  lemma ObserveNext(db: Db, listing: seq<Observed>, n: nat, now: int)
    requires n < |listing|
    ensures var r := ObserveAll(db, listing[..n], now);
            ObserveAll(db, listing[..n + 1], now) == if r.ok then Observe(r.db, listing[n], now) else r
  {
    assert listing[..n + 1][..n] == listing[..n];
  }

  lemma ObserveNothing(db: Db, now: int)
    ensures ObserveAll(db, [], now) == Outcome(db, true)
  {
  }

  lemma {:induction false} ObserveAllConcat(db: Db, a: seq<Observed>, b: seq<Observed>, now: int)
    ensures var r := ObserveAll(db, a, now);
            ObserveAll(db, a + b, now) == if r.ok then ObserveAll(r.db, b, now) else r
  {
    if b == [] {
      assert a + b == a;
    } else {
      assert (a + b)[..|a + b| - 1] == a + b[..|b| - 1];
      ObserveAllConcat(db, a, b[..|b| - 1], now);
    }
  }

  /** What follows an error in a listing is not observed. */
  lemma FailsAfter(db: Db, a: seq<Observed>, b: seq<Observed>, now: int)
    requires !ObserveAll(db, a, now).ok
    ensures ObserveAll(db, a + b, now) == ObserveAll(db, a, now)
  {
    ObserveAllConcat(db, a, b, now);
  }

  // ---------------------------------------------------------------- one observation

  /** The row an observation ends on. */
  function Target(rows: seq<Transfer>, o: Observed): (id: nat)
    ensures id <= |rows|
  {
    var found := FindMatch(rows, o);
    if found.Some? then found.value else |rows|
  }

  /** Everything about one observation: which row it touches, what that row becomes, and that it
      succeeds exactly when its numbers fit and no row bound elsewhere holds its recipient. */
  lemma ObserveEffect(db: Db, o: Observed, now: int)
    requires RowsInv(db.transfers)
    ensures var r, id := Observe(db, o, now), Target(db.transfers, o);
            && (r.ok <==> FitsDb(o.expiration)
                          && (id == |db.transfers| ==> HolderOf(db.transfers, o.recipientId).None?))
            && (!r.ok ==> r.db == db)
            && RowsInv(r.db.transfers)
            && (r.ok ==>
                  && |r.db.transfers| == (if id == |db.transfers| then id + 1 else |db.transfers|)
                  && (forall j :: 0 <= j < |db.transfers| && j != id ==> r.db.transfers[j] == db.transfers[j])
                  && r.db.transfers[id].rlnIdx == Some(o.rlnIdx)
                  && r.db.transfers[id].status
                     == (if id == |db.transfers| then o.status else Advance(db.transfers[id].status, o.status)))
  {
    var u := UpsertObserved(db.transfers, o, now);
    if u.Ok? {
      UpsertKeeps(db.transfers, o, now);
      SwapKeepsRows(db.(transfers := u.value.rows), u.value.id, u.value.rows[u.value.id], o.status, now);
    }
  }

  lemma {:induction false} ObserveAllKeeps(db: Db, listing: seq<Observed>, now: int)
    requires RowsInv(db.transfers)
    ensures RowsInv(ObserveAll(db, listing, now).db.transfers)
  {
    if listing != [] {
      ObserveAllKeeps(db, listing[..|listing| - 1], now);
      ObserveEffect(ObserveAll(db, listing[..|listing| - 1], now).db, listing[|listing| - 1], now);
    }
  }

  // -------------------------------------------------- a bound row through a listing

  /** The statuses a listing reports for one index, in order. */
  function Reports(listing: seq<Observed>, idx: int): seq<TransferStatus> {
    if listing == [] then [] else
    var o := listing[|listing| - 1];
    Reports(listing[..|listing| - 1], idx) + (if o.rlnIdx == idx then [o.status] else [])
  }

  function AdvanceAll(from: TransferStatus, reports: seq<TransferStatus>): TransferStatus {
    if reports == [] then from
    else Advance(AdvanceAll(from, reports[..|reports| - 1]), reports[|reports| - 1])
  }

  lemma BoundRowStep(db: Db, o: Observed, now: int, id: nat, idx: int)
    requires RowsInv(db.transfers) && id < |db.transfers| && db.transfers[id].rlnIdx == Some(idx)
    requires Observe(db, o, now).ok
    ensures var rows := Observe(db, o, now).db.transfers;
            && id < |rows| && rows[id].rlnIdx == Some(idx)
            && rows[id].status == if o.rlnIdx == idx then Advance(db.transfers[id].status, o.status)
                                  else db.transfers[id].status
  {
    ObserveEffect(db, o, now);
    BoundRowMeets(db.transfers, o, id, idx);
  }

  lemma ReportsMore(listing: seq<Observed>, idx: int, from: TransferStatus)
    requires listing != []
    ensures var o, before := listing[|listing| - 1], AdvanceAll(from, Reports(listing[..|listing| - 1], idx));
            AdvanceAll(from, Reports(listing, idx)) == if o.rlnIdx == idx then Advance(before, o.status) else before
  {
    var reports, o := Reports(listing[..|listing| - 1], idx), listing[|listing| - 1];
    if o.rlnIdx == idx {
      assert (reports + [o.status])[..|reports|] == reports;
    } else {
      assert Reports(listing, idx) == reports;
    }
  }

  /** A bound row follows the reports about its own index, and nothing else in the listing. */
  lemma {:induction false} BoundRowFollows(db: Db, listing: seq<Observed>, now: int, id: nat, idx: int)
    requires RowsInv(db.transfers) && id < |db.transfers| && db.transfers[id].rlnIdx == Some(idx)
    requires ObserveAll(db, listing, now).ok
    ensures var rows := ObserveAll(db, listing, now).db.transfers;
            id < |rows| && rows[id].rlnIdx == Some(idx)
            && rows[id].status == AdvanceAll(db.transfers[id].status, Reports(listing, idx))
  {
    if listing != [] {
      var front, o := listing[..|listing| - 1], listing[|listing| - 1];
      var d := ObserveAll(db, front, now);
      assert d.ok && ObserveAll(db, listing, now) == Observe(d.db, o, now);
      BoundRowFollows(db, front, now, id, idx);
      ObserveAllKeeps(db, front, now);
      BoundRowStep(d.db, o, now, id, idx);
      ReportsMore(listing, idx, db.transfers[id].status);
    }
  }

  /** A bound row is met by an observation exactly when it is of the row's own index. */
  lemma BoundRowMeets(rows: seq<Transfer>, o: Observed, id: nat, idx: int)
    requires RowsInv(rows) && id < |rows| && rows[id].rlnIdx == Some(idx)
    ensures Target(rows, o) == id <==> o.rlnIdx == idx
  {
    if o.rlnIdx == idx {
      BoundRowMatches(rows, o, id);
    }
  }

  // ------------------------------------------------------- pending scope against full

  /** The observation `observe` builds from a listed transfer. */
  function Tag(assetId: Option<string>, t: RlnTransfer): Observed {
    Observed(t.idx, assetId, t.kind, t.status, t.recipientId, t.txid, t.expiration)
  }

  function TagAll(assetId: Option<string>, ts: seq<RlnTransfer>): seq<Observed> {
    seq(|ts|, i requires 0 <= i < |ts| => Tag(assetId, ts[i]))
  }

  /** What the node has answered, entry by entry. */
  function Answers(listed: seq<Listed>): seq<Observed> {
    if listed == [] then [] else
    var l := listed[|listed| - 1];
    Answers(listed[..|listed| - 1]) + TagAll(l.bucket, l.transfers)
  }

  /** The buckets it was asked for. */
  function Asked(listed: seq<Listed>): seq<Option<string>> {
    seq(|listed|, i requires 0 <= i < |listed| => listed[i].bucket)
  }

  /** One bucket more has been asked for. */
  lemma AskedMore(listed: seq<Listed>, from: nat, l: Listed)
    requires from <= |listed|
    ensures Asked((listed + [l])[from..]) == Asked(listed[from..]) + [l.bucket]
    ensures |Answers((listed + [l])[from..])| == |Answers(listed[from..])| + |l.transfers|
  {
    assert (listed + [l])[from..] == listed[from..] + [l];
    AnswersConcat(listed[from..], [l]);
    AnswersOne(l.bucket, l.transfers);
  }

  lemma AnswersOne(bucket: Option<string>, ts: seq<RlnTransfer>)
    ensures Answers([Listed(bucket, ts)]) == TagAll(bucket, ts)
  {
    assert [Listed(bucket, ts)][..0] == [];
  }

  lemma {:induction false} AnswersConcat(a: seq<Listed>, b: seq<Listed>)
    ensures Answers(a + b) == Answers(a) + Answers(b)
  {
    if b == [] {
      assert a + b == a;
    } else {
      assert (a + b)[..|a + b| - 1] == a + b[..|b| - 1];
      AnswersConcat(a, b[..|b| - 1]);
    }
  }

  /** A sync that goes on, and then stops. */
  lemma StoppedOn(before: Db, a: seq<Observed>, mid: Db, b: seq<Observed>, half: bool, after: Db, now: int)
    requires ObserveAll(before, a, now) == Outcome(mid, true) && (half ==> b != [])
    requires Stopped(mid, b, half, now) == Outcome(after, true)
    ensures Stopped(before, a + b, half, now) == Outcome(after, true)
  {
    if half {
      assert (a + b)[..|a + b| - 1] == a + b[..|b| - 1];
      ObserveAllConcat(before, a, b[..|b| - 1], now);
    } else {
      ObserveAllConcat(before, a, b, now);
    }
  }

  /** Halfway through the n-th entry of a listing. */
  lemma StoppedHalfway(db: Db, listing: seq<Observed>, n: nat, now: int)
    requires n < |listing| && ObserveAll(db, listing[..n], now).ok
    ensures Stopped(db, listing[..n + 1], true, now)
            == HalfObserved(ObserveAll(db, listing[..n], now).db, listing[n], now)
  {
    assert listing[..n + 1][..n] == listing[..n];
  }

  function Bucket(node: Buckets, b: Option<string>): seq<Observed> {
    if b in node then TagAll(b, node[b]) else []
  }

  /** What a sync observes when it visits these buckets in this order. */
  function Visit(node: Buckets, order: seq<Option<string>>): seq<Observed> {
    if order == [] then [] else Visit(node, order[..|order| - 1]) + Bucket(node, order[|order| - 1])
  }

  predicate Lists(listing: seq<Observed>, idx: int) {
    exists i :: 0 <= i < |listing| && listing[i].rlnIdx == idx
  }

  lemma {:induction false} ReportsConcat(a: seq<Observed>, b: seq<Observed>, idx: int)
    ensures Reports(a + b, idx) == Reports(a, idx) + Reports(b, idx)
  {
    if b == [] {
      assert a + b == a;
    } else {
      assert (a + b)[..|a + b| - 1] == a + b[..|b| - 1];
      ReportsConcat(a, b[..|b| - 1], idx);
    }
  }

  lemma {:induction false} Unlisted(listing: seq<Observed>, idx: int)
    requires !Lists(listing, idx)
    ensures Reports(listing, idx) == []
  {
    if listing != [] {
      Unlisted(listing[..|listing| - 1], idx);
      assert listing[|listing| - 1].rlnIdx != idx;
    }
  }

  /** If only bucket `home` can list an index, a visit reports what that bucket does, if visited. */
  lemma {:induction false} ReportsOfVisit(node: Buckets, order: seq<Option<string>>, idx: int, home: Option<string>)
    requires NoDuplicates(order)
    requires forall b :: b != home ==> !Lists(Bucket(node, b), idx)
    ensures Reports(Visit(node, order), idx) == if home in order then Reports(Bucket(node, home), idx) else []
  {
    if order != [] {
      var front, b := order[..|order| - 1], order[|order| - 1];
      ReportsOfVisit(node, front, idx, home);
      ReportsConcat(Visit(node, front), Bucket(node, b), idx);
      assert order == front + [b];
      if b == home {
        assert home !in front;
      } else {
        Unlisted(Bucket(node, b), idx);
      }
    }
  }

  datatype Scope = Full | Assets(ids: set<string>) | PendingOnly

  /** The assets a scope visits, and whether it visits the assetless bucket; `all` is what the
      node's list_assets answers. */
  function ScopeAssets(rows: seq<Transfer>, all: set<string>, scope: Scope): set<string> {
    match scope
    case Full => all
    case Assets(ids) => ids
    case PendingOnly => PendingAssetIds(rows) + (if HasAgnostic(rows) then all else {})
  }

  predicate ScopeAssetless(rows: seq<Transfer>, scope: Scope) {
    scope.Full? || (scope.PendingOnly? && HasAgnostic(rows))
  }

  /** A visit of exactly the scope's buckets, each once, the assetless one first. */
  ghost predicate VisitsScope(order: seq<Option<string>>, assets: set<string>, assetless: bool) {
    && NoDuplicates(order)
    && (forall a :: a in assets <==> Some(a) in order)
    && (None in order <==> assetless)
    && (assetless ==> order != [] && order[0] == None)
  }

  lemma VisitNothing(node: Buckets, db: Db, now: int)
    ensures ObserveAll(db, Visit(node, []), now) == Outcome(db, true) && Visit(node, []) == []
  {
  }

  lemma VisitOne(node: Buckets, order: seq<Option<string>>, b: Option<string>, db: Db, now: int)
    ensures var r := ObserveAll(db, Visit(node, order), now);
            r.ok ==> ObserveAll(db, Visit(node, order + [b]), now) == ObserveAll(r.db, Bucket(node, b), now)
    ensures Visit(node, order + [b]) == Visit(node, order) + Bucket(node, b)
  {
    assert (order + [b])[..|order|] == order;
    ObserveAllConcat(db, Visit(node, order), Bucket(node, b), now);
  }

  lemma VisitsFirst(assetless: bool)
    ensures VisitsScope(if assetless then [None] else [], {}, assetless)
  {
  }

  lemma VisitsOneMore(order: seq<Option<string>>, assets: set<string>, assetless: bool, a: string)
    requires VisitsScope(order, assets, assetless) && a !in assets
    ensures VisitsScope(order + [Some(a)], assets + {a}, assetless)
  {
    assert Some(a) !in order;
  }

  lemma {:induction false} EndedStays(s: TransferStatus, reports: seq<TransferStatus>)
    requires s == Settled || s == Failed
    ensures AdvanceAll(s, reports) == s
  {
    if reports != [] {
      EndedStays(s, reports[..|reports| - 1]);
    }
  }

  /** Pending scope refines full scope. The node lists each transfer in one bucket, a bound row
      with a known asset is listed under it, and list_assets covers every asset with transfers.
      Then every bound row that has left Initiated, with or without an asset, waiting or ended, ends a
      pending-scope sync with the status a full sync would have given it, although the pending scope asks
      for less. */
  lemma PendingRefinesFull(db: Db, node: Buckets, all: set<string>, full: seq<Option<string>>,
                           pending: seq<Option<string>>, now: int, id: nat, idx: int)
    requires RowsInv(db.transfers) && id < |db.transfers|
    requires db.transfers[id].rlnIdx == Some(idx) && db.transfers[id].status != Initiated
    requires VisitsScope(full, ScopeAssets(db.transfers, all, Full), ScopeAssetless(db.transfers, Full))
    requires VisitsScope(pending, ScopeAssets(db.transfers, all, PendingOnly),
                         ScopeAssetless(db.transfers, PendingOnly))
    requires forall b :: Lists(Bucket(node, b), idx) && b.Some? ==> b.value in all
    requires forall b, c :: Lists(Bucket(node, b), idx) && Lists(Bucket(node, c), idx) ==> b == c
    requires forall b :: Lists(Bucket(node, b), idx) && db.transfers[id].assetId.Some? ==> b == db.transfers[id].assetId
    requires ObserveAll(db, Visit(node, full), now).ok && ObserveAll(db, Visit(node, pending), now).ok
    ensures var f, p := ObserveAll(db, Visit(node, full), now).db, ObserveAll(db, Visit(node, pending), now).db;
            id < |f.transfers| && id < |p.transfers| && p.transfers[id].status == f.transfers[id].status
  {
    BoundRowFollows(db, Visit(node, full), now, id, idx);
    BoundRowFollows(db, Visit(node, pending), now, id, idx);
    if db.transfers[id].status.Waiting() {
      SameReports(db.transfers, node, all, full, pending, id, idx);
    } else {
      EndedStays(db.transfers[id].status, Reports(Visit(node, full), idx));
      EndedStays(db.transfers[id].status, Reports(Visit(node, pending), idx));
    }
  }

  lemma SameReports(rows: seq<Transfer>, node: Buckets, all: set<string>, full: seq<Option<string>>,
                    pending: seq<Option<string>>, id: nat, idx: int)
    requires id < |rows| && rows[id].status.Waiting()
    requires VisitsScope(full, ScopeAssets(rows, all, Full), ScopeAssetless(rows, Full))
    requires VisitsScope(pending, ScopeAssets(rows, all, PendingOnly), ScopeAssetless(rows, PendingOnly))
    requires forall b :: Lists(Bucket(node, b), idx) && b.Some? ==> b.value in all
    requires forall b, c :: Lists(Bucket(node, b), idx) && Lists(Bucket(node, c), idx) ==> b == c
    requires forall b :: Lists(Bucket(node, b), idx) && rows[id].assetId.Some? ==> b == rows[id].assetId
    ensures Reports(Visit(node, full), idx) == Reports(Visit(node, pending), idx)
  {
    var home: Option<string> := if b :| Lists(Bucket(node, b), idx) then b else None;
    ReportsOfVisit(node, full, idx, home);
    ReportsOfVisit(node, pending, idx, home);
    if Lists(Bucket(node, home), idx) {
      if rows[id].assetId.Some? {
        assert rows[id].assetId.value in PendingAssetIds(rows);
      } else {
        assert HasAgnostic(rows);
      }
      assert home in full && home in pending;
    } else {
      Unlisted(Bucket(node, home), idx);
    }
  }

  // ----------------------------------------------------------------- convergence

  /** The row is where the node is, or behind it: an observation brings it to the node's status. */
  predicate NotAhead(r: Transfer, s: TransferStatus) {
    r.status == s || (!r.status.Terminal() && Rank(r.status) < Rank(s))
  }

  /** An observation leaves its row at the node's status exactly when the row was not ahead. */
  lemma CatchesUp(db: Db, o: Observed, now: int)
    requires RowsInv(db.transfers) && Observe(db, o, now).ok
    ensures var id := Target(db.transfers, o);
            Observe(db, o, now).db.transfers[id].status == o.status
            <==> id < |db.transfers| ==> NotAhead(db.transfers[id], o.status)
  {
    ObserveEffect(db, o, now);
  }

  /** A listing that tells one story: an index that repeats repeats its status. */
  predicate Consistent(listing: seq<Observed>) {
    forall i, j :: 0 <= i < j < |listing| && listing[i].rlnIdx == listing[j].rlnIdx ==>
      listing[i].status == listing[j].status
  }

  /** A recipient belongs to one index. */
  predicate DistinctRecipients(listing: seq<Observed>) {
    forall i, j :: 0 <= i < j < |listing| && SqlEq(listing[i].recipientId, listing[j].recipientId) ==>
      listing[i].rlnIdx == listing[j].rlnIdx
  }

  /** No row an observation could match is ahead of the node. */
  predicate Clear(rows: seq<Transfer>, o: Observed) {
    forall j :: 0 <= j < |rows| && Matches(rows[j], o) ==> NotAhead(rows[j], o.status)
  }

  predicate AllClear(rows: seq<Transfer>, listing: seq<Observed>) {
    forall i :: 0 <= i < |listing| ==> Clear(rows, listing[i])
  }

  /** The numbers fit, and the recipient is not held by a row bound to another index. */
  predicate Admissible(rows: seq<Transfer>, o: Observed) {
    && FitsDb(o.expiration)
    && (forall j :: 0 <= j < |rows| && SqlEq(rows[j].recipientId, o.recipientId) ==>
          rows[j].rlnIdx in {None, Some(o.rlnIdx)})
  }

  predicate AllAdmissible(rows: seq<Transfer>, listing: seq<Observed>) {
    forall i :: 0 <= i < |listing| ==> Admissible(rows, listing[i])
  }

  /** The mirror agrees with the node about one transfer: one row is bound to it, at its status. */
  predicate Mirrored(rows: seq<Transfer>, o: Observed) {
    exists id :: 0 <= id < |rows| && rows[id].rlnIdx == Some(o.rlnIdx) && rows[id].status == o.status
                 && forall j :: 0 <= j < |rows| && rows[j].rlnIdx == Some(o.rlnIdx) ==> j == id
  }

  predicate AllMirrored(rows: seq<Transfer>, listing: seq<Observed>) {
    forall i :: 0 <= i < |listing| ==> Mirrored(rows, listing[i])
  }

  /** A row bound at the node's status is the only one bound. */
  lemma BoundAlone(rows: seq<Transfer>, o: Observed, id: nat)
    requires RowsInv(rows) && id < |rows| && rows[id].rlnIdx == Some(o.rlnIdx) && rows[id].status == o.status
    ensures Mirrored(rows, o)
  {
    forall j | 0 <= j < |rows| && rows[j].rlnIdx == Some(o.rlnIdx) ensures j == id {
      assert SqlEq(rows[j].rlnIdx, rows[id].rlnIdx);
    }
  }

  lemma ClearMirrors(db: Db, o: Observed, now: int)
    requires RowsInv(db.transfers) && Clear(db.transfers, o) && Observe(db, o, now).ok
    ensures Mirrored(Observe(db, o, now).db.transfers, o)
  {
    ObserveEffect(db, o, now);
    CatchesUp(db, o, now);
    hide Observe;
    BoundAlone(Observe(db, o, now).db.transfers, o, Target(db.transfers, o));
  }

  /** Observing one transfer is no obstacle to another, and disturbs nothing already mirrored. */
  lemma ObserveKeepsOther(db: Db, o: Observed, p: Observed, now: int)
    requires RowsInv(db.transfers) && Clear(db.transfers, o) && Observe(db, o, now).ok
    requires o.rlnIdx == p.rlnIdx ==> o.status == p.status
    ensures Clear(db.transfers, p) ==> Clear(Observe(db, o, now).db.transfers, p)
    ensures Mirrored(db.transfers, p) ==> Mirrored(Observe(db, o, now).db.transfers, p)
  {
    ObserveEffect(db, o, now);
    CatchesUp(db, o, now);
    hide Observe;
    var rows := Observe(db, o, now).db.transfers;
    if Mirrored(db.transfers, p) {
      var k :| 0 <= k < |db.transfers| && db.transfers[k].rlnIdx == Some(p.rlnIdx)
               && db.transfers[k].status == p.status;
      BoundRowMeets(db.transfers, o, k, p.rlnIdx);
      BoundAlone(rows, p, k);
    }
  }

  lemma ObserveKeepsAdmissible(db: Db, o: Observed, p: Observed, now: int)
    requires RowsInv(db.transfers) && Observe(db, o, now).ok && Admissible(db.transfers, p)
    requires SqlEq(o.recipientId, p.recipientId) ==> o.rlnIdx == p.rlnIdx
    ensures Admissible(Observe(db, o, now).db.transfers, p)
  {
    ObserveEffect(db, o, now);
    RecipientKept(db, o, now);
    hide Observe;
    var id := Target(db.transfers, o);
    if id < |db.transfers| {
      assert Matches(db.transfers[id], o);
    }
  }

  /** The row an observation ends on keeps its recipient, or is born with the observed one. */
  lemma RecipientKept(db: Db, o: Observed, now: int)
    requires RowsInv(db.transfers) && Observe(db, o, now).ok
    ensures var id := Target(db.transfers, o);
            Observe(db, o, now).db.transfers[id].recipientId
            == if id < |db.transfers| then db.transfers[id].recipientId else o.recipientId
  {
  }

  /** Convergence: if no stored row is ahead of a node transfer it matches, a sync that succeeds
      leaves every listed transfer with exactly one bound row, at exactly the node's status. */
  lemma Converges(db: Db, listing: seq<Observed>, now: int)
    requires RowsInv(db.transfers) && Consistent(listing) && AllClear(db.transfers, listing)
    requires ObserveAll(db, listing, now).ok
    ensures AllMirrored(ObserveAll(db, listing, now).db.transfers, listing)
  {
    assert listing + [] == listing;
    ConvergesAhead(db, listing, now, []);
  }

  lemma ConvergeStep(db: Db, front: seq<Observed>, o: Observed, rest: seq<Observed>, now: int)
    requires RowsInv(db.transfers) && Consistent(front + [o] + rest) && Observe(db, o, now).ok
    requires AllMirrored(db.transfers, front) && Clear(db.transfers, o) && AllClear(db.transfers, rest)
    ensures var rows := Observe(db, o, now).db.transfers;
            AllMirrored(rows, front + [o]) && AllClear(rows, rest)
  {
    hide Mirrored, Clear, Observe, RowsInv;
    var all := front + [o] + rest;
    var n := |front|;
    assert all[n] == o;
    ClearMirrors(db, o, now);
    forall i | 0 <= i < n ensures Mirrored(Observe(db, o, now).db.transfers, front[i]) {
      assert all[i] == front[i];
      ObserveKeepsOther(db, o, front[i], now);
    }
    forall i | 0 <= i < |rest| ensures Clear(Observe(db, o, now).db.transfers, rest[i]) {
      assert all[n + 1 + i] == rest[i];
      ObserveKeepsOther(db, o, rest[i], now);
    }
  }

  lemma {:induction false} ConvergesAhead(db: Db, listing: seq<Observed>, now: int, rest: seq<Observed>)
    requires RowsInv(db.transfers) && Consistent(listing + rest) && AllClear(db.transfers, listing + rest)
    requires ObserveAll(db, listing, now).ok
    ensures var rows := ObserveAll(db, listing, now).db.transfers;
            AllMirrored(rows, listing) && AllClear(rows, rest)
    decreases |listing|
  {
    hide Clear, Mirrored, RowsInv, Observe, Consistent;
    if listing == [] {
      assert listing + rest == rest;
    } else {
      var front, o := listing[..|listing| - 1], listing[|listing| - 1];
      assert front + ([o] + rest) == listing + rest == front + [o] + rest;
      ConvergesAhead(db, front, now, [o] + rest);
      ObserveAllKeeps(db, front, now);
      var d := ObserveAll(db, front, now).db;
      assert forall i :: 0 <= i < |rest| ==> ([o] + rest)[i + 1] == rest[i];
      assert ([o] + rest)[0] == o && front + [o] == listing;
      assert ObserveAll(db, listing, now) == Observe(d, o, now);
      ConvergeStep(d, front, o, rest, now);
    }
  }

  /** A sync succeeds if no recipient it lists twice, or finds stored, belongs to two indices. */
  lemma Succeeds(db: Db, listing: seq<Observed>, now: int)
    requires RowsInv(db.transfers) && DistinctRecipients(listing) && AllAdmissible(db.transfers, listing)
    ensures ObserveAll(db, listing, now).ok
  {
    assert listing + [] == listing;
    SucceedsAhead(db, listing, now, []);
  }

  /** The two together, of a sync that ended in `after`. */
  lemma SyncConverges(db: Db, listing: seq<Observed>, now: int, after: Db, ok: bool)
    requires RowsInv(db.transfers) && ObserveAll(db, listing, now) == Outcome(after, ok)
    ensures DistinctRecipients(listing) && AllAdmissible(db.transfers, listing) ==> ok
    ensures ok && Consistent(listing) && AllClear(db.transfers, listing) ==> AllMirrored(after.transfers, listing)
  {
    if ok && Consistent(listing) && AllClear(db.transfers, listing) {
      Converges(db, listing, now);
    }
    if DistinctRecipients(listing) && AllAdmissible(db.transfers, listing) {
      Succeeds(db, listing, now);
    }
  }

  lemma {:induction false} SucceedsAhead(db: Db, listing: seq<Observed>, now: int, rest: seq<Observed>)
    requires RowsInv(db.transfers) && DistinctRecipients(listing + rest) && AllAdmissible(db.transfers, listing + rest)
    ensures ObserveAll(db, listing, now).ok && AllAdmissible(ObserveAll(db, listing, now).db.transfers, rest)
    decreases |listing|
  {
    hide Admissible, RowsInv, Observe;
    if listing == [] {
      assert listing + rest == rest;
    } else {
      var front, o := listing[..|listing| - 1], listing[|listing| - 1];
      assert front + ([o] + rest) == listing + rest;
      SucceedsAhead(db, front, now, [o] + rest);
      ObserveAllKeeps(db, front, now);
      var d := ObserveAll(db, front, now).db;
      AdmissibleSucceeds(d, [o] + rest, now);
      assert ObserveAll(db, listing, now) == Observe(d, o, now);
      forall i | 0 <= i < |rest| ensures Admissible(Observe(d, o, now).db.transfers, rest[i]) {
        assert ([o] + rest)[i + 1] == rest[i];
        assert (listing + rest)[|front|] == o && (listing + rest)[|front| + 1 + i] == rest[i];
        ObserveKeepsAdmissible(d, o, rest[i], now);
      }
    }
  }

  lemma AdmissibleSucceeds(db: Db, todo: seq<Observed>, now: int)
    requires RowsInv(db.transfers) && todo != [] && AllAdmissible(db.transfers, todo)
    ensures Observe(db, todo[0], now).ok
  {
    var o := todo[0];
    assert Admissible(db.transfers, o);
    ObserveEffect(db, o, now);
    var h := HolderOf(db.transfers, o.recipientId);
    if h.Some? {
      assert Matches(db.transfers[h.value], o);
    }
  }
}
