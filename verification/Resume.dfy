/** Syncing the same listing again, wholly or after a failure partway, up to timestamps. */
module Resume {
  import opened Base
  import opened Status
  import opened Tables
  import opened Invariants
  import opened History
  import opened Listing

  function Timeless(r: Transfer): Transfer {
    r.(createdAt := 0, updatedAt := 0, lastSeenAt := None, settledAt := if r.settledAt.Some? then Some(0) else None)
  }

  function TimelessPayload(p: Payload): Payload {
    match p
    case TransferPayload(_, _, row, _, _, _) => p.(row := Timeless(row), at := 0)
    case PaymentPayload(_, _, _, _, _, _) => p
  }

  function TimelessEvent(e: Event): Event {
    e.(payload := TimelessPayload(e.payload), nextAttemptAt := 0)
  }

  predicate SameRows(a: seq<Transfer>, b: seq<Transfer>) {
    |a| == |b| && forall i :: 0 <= i < |a| ==> Timeless(a[i]) == Timeless(b[i])
  }

  predicate SameOutbox(a: seq<Event>, b: seq<Event>) {
    |a| == |b| && forall i :: 0 <= i < |a| ==> TimelessEvent(a[i]) == TimelessEvent(b[i])
  }

  /** Equal up to timestamps. */
  predicate Same(a: Db, b: Db) {
    && SameRows(a.transfers, b.transfers) && SameOutbox(a.outbox, b.outbox)
    && a.payments == b.payments && a.baseline == b.baseline
  }

  // --------------------------------------------- timestamps steer nothing in a sync

  lemma {:induction false} BestAlike(a: seq<Transfer>, b: seq<Transfer>, o: Observed, n: nat)
    requires SameRows(a, b) && n <= |a|
    ensures BestBelow(a, o, n) == BestBelow(b, o, n)
  {
    if n > 0 {
      BestAlike(a, b, o, n - 1);
      assert Timeless(a[n - 1]) == Timeless(b[n - 1]);
      var best := BestBelow(a, o, n - 1);
      assert best.Some? ==> Timeless(a[best.value]) == Timeless(b[best.value]);
    }
  }

  lemma {:induction false} HolderAlike(a: seq<Transfer>, b: seq<Transfer>, recipientId: Option<string>)
    requires SameRows(a, b)
    ensures HolderOf(a, recipientId) == HolderOf(b, recipientId)
  {
    if a != [] {
      HolderAlike(a[..|a| - 1], b[..|b| - 1], recipientId);
      assert Timeless(a[|a| - 1]) == Timeless(b[|b| - 1]);
    }
  }

  lemma UpsertAlike(a: seq<Transfer>, b: seq<Transfer>, o: Observed, now: int, later: int)
    requires SameRows(a, b)
    ensures var u, v := UpsertObserved(a, o, now), UpsertObserved(b, o, later);
            && (u.Ok? <==> v.Ok?)
            && (u.Ok? ==> u.value.id == v.value.id && SameRows(u.value.rows, v.value.rows))
  {
    BestAlike(a, b, o, |a|);
    HolderAlike(a, b, o.recipientId);
  }

  lemma SwapAlike(a: Db, b: Db, id: nat, observed: TransferStatus, now: int, later: int)
    requires Same(a, b) && id < |a.transfers|
    ensures Same(ApplyObserved(a, id, a.transfers[id], observed, now),
                 ApplyObserved(b, id, b.transfers[id], observed, later))
  {
    assert Timeless(a.transfers[id]) == Timeless(b.transfers[id]);
  }

  lemma ObserveAlike(a: Db, b: Db, o: Observed, now: int, later: int)
    requires Same(a, b)
    ensures Observe(a, o, now).ok == Observe(b, o, later).ok
    ensures Same(Observe(a, o, now).db, Observe(b, o, later).db)
  {
    UpsertAlike(a.transfers, b.transfers, o, now, later);
    var u, v := UpsertObserved(a.transfers, o, now), UpsertObserved(b.transfers, o, later);
    if u.Ok? {
      SwapAlike(a.(transfers := u.value.rows), b.(transfers := v.value.rows), u.value.id, o.status, now, later);
    }
  }

  lemma {:induction false} ObserveAllAlike(a: Db, b: Db, listing: seq<Observed>, now: int, later: int)
    requires Same(a, b)
    ensures ObserveAll(a, listing, now).ok == ObserveAll(b, listing, later).ok
    ensures Same(ObserveAll(a, listing, now).db, ObserveAll(b, listing, later).db)
  {
    if listing != [] {
      var front := listing[..|listing| - 1];
      ObserveAllAlike(a, b, front, now, later);
      ObserveAlike(ObserveAll(a, front, now).db, ObserveAll(b, front, later).db, listing[|listing| - 1], now, later);
    }
  }

  // ------------------------------------------------- what a listing leaves on its rows

  /** The last non-null value a listing reports for each column of an index. */
  datatype Digest = Digest(assetId: Option<string>, kind: Option<string>, txid: Option<string>, expiration: Option<u64>)

  function Add(d: Digest, o: Observed): Digest {
    Digest(Coalesce(o.assetId, d.assetId), Some(o.kind), Coalesce(o.txid, d.txid), Coalesce(o.expiration, d.expiration))
  }

  function DigestOf(listing: seq<Observed>, idx: int): Digest {
    if listing == [] then Digest(None, None, None, None) else
    var d, o := DigestOf(listing[..|listing| - 1], idx), listing[|listing| - 1];
    if o.rlnIdx == idx then Add(d, o) else d
  }

  function Absorb(r: Transfer, d: Digest): Transfer {
    r.(assetId := Coalesce(d.assetId, r.assetId), kind := Coalesce(d.kind, r.kind),
       txid := Coalesce(d.txid, r.txid), expiration := Coalesce(d.expiration, r.expiration))
  }

  /** The row of a listed index is bound and has nothing left to do about that observation. */
  predicate Done(rows: seq<Transfer>, o: Observed) {
    && FitsDb(o.expiration)
    && exists id :: 0 <= id < |rows| && rows[id].rlnIdx == Some(o.rlnIdx)
                    && PlanTransition(rows[id].status, o.status).None?
  }

  predicate AllDone(rows: seq<Transfer>, listing: seq<Observed>) {
    forall i :: 0 <= i < |listing| ==> Done(rows, listing[i])
  }

  predicate Reflects(rows: seq<Transfer>, listing: seq<Observed>) {
    forall j :: 0 <= j < |rows| && rows[j].rlnIdx.Some? ==>
      Absorb(rows[j], DigestOf(listing, rows[j].rlnIdx.value)) == rows[j]
  }

  lemma {:induction false} UnlistedDigest(listing: seq<Observed>, idx: int)
    requires !Lists(listing, idx)
    ensures DigestOf(listing, idx) == Digest(None, None, None, None)
  {
    if listing != [] {
      UnlistedDigest(listing[..|listing| - 1], idx);
      assert listing[|listing| - 1].rlnIdx != idx;
    }
  }

  /** What an observation makes of its row, all columns but the swap's. */
  lemma ObserveColumns(db: Db, o: Observed, now: int)
    requires Observe(db, o, now).ok
    ensures var id, rows := Target(db.transfers, o), Observe(db, o, now).db.transfers;
            && id < |rows|
            && var was := if id < |db.transfers| then Bind(db.transfers[id], o, now) else BornObserved(o, now);
               rows[id] == was.(status := rows[id].status, updatedAt := rows[id].updatedAt,
                                settledAt := rows[id].settledAt)
  {
  }

  lemma ObserveDone(db: Db, front: seq<Observed>, o: Observed, now: int)
    requires RowsInv(db.transfers) && AllDone(db.transfers, front) && Observe(db, o, now).ok
    ensures AllDone(Observe(db, o, now).db.transfers, front + [o])
  {
    ObserveEffect(db, o, now);
    var rows, id := Observe(db, o, now).db.transfers, Target(db.transfers, o);
    forall i | 0 <= i < |front| ensures Done(rows, front[i]) {
      assert Done(db.transfers, front[i]);
      var k :| 0 <= k < |db.transfers| && db.transfers[k].rlnIdx == Some(front[i].rlnIdx)
               && PlanTransition(db.transfers[k].status, front[i].status).None?;
      BoundRowMeets(db.transfers, o, k, front[i].rlnIdx);
      assert rows[k].rlnIdx == Some(front[i].rlnIdx);
    }
    assert rows[id].rlnIdx == Some(o.rlnIdx) && PlanTransition(rows[id].status, o.status).None?;
  }

  lemma ObserveReflects(db: Db, front: seq<Observed>, o: Observed, now: int)
    requires RowsInv(db.transfers) && AllDone(db.transfers, front) && Reflects(db.transfers, front)
    requires Observe(db, o, now).ok
    ensures Reflects(Observe(db, o, now).db.transfers, front + [o])
  {
    ObserveEffect(db, o, now);
    ObserveColumns(db, o, now);
    var rows, id := Observe(db, o, now).db.transfers, Target(db.transfers, o);
    assert (front + [o])[..|front|] == front;
    forall j | 0 <= j < |rows| && rows[j].rlnIdx.Some?
      ensures Absorb(rows[j], DigestOf(front + [o], rows[j].rlnIdx.value)) == rows[j]
    {
      if j != id {
        assert !SqlEq(rows[j].rlnIdx, rows[id].rlnIdx);
      } else if !(id < |db.transfers| && db.transfers[id].rlnIdx == Some(o.rlnIdx)) {
        NotListedBefore(db.transfers, front, o, id);
        UnlistedDigest(front, o.rlnIdx);
      }
    }
  }

  /** An index that meets a row not bound to it was not in the part of the listing already done. */
  lemma NotListedBefore(rows: seq<Transfer>, front: seq<Observed>, o: Observed, id: nat)
    requires RowsInv(rows) && AllDone(rows, front) && id == Target(rows, o)
    requires id < |rows| ==> rows[id].rlnIdx != Some(o.rlnIdx)
    ensures !Lists(front, o.rlnIdx)
  {
    forall i | 0 <= i < |front| ensures front[i].rlnIdx != o.rlnIdx {
      assert Done(rows, front[i]);
      var k :| 0 <= k < |rows| && rows[k].rlnIdx == Some(front[i].rlnIdx);
      BoundRowMeets(rows, o, k, front[i].rlnIdx);
    }
  }

  lemma FirstPassOne(d: Db, front: seq<Observed>, o: Observed, now: int)
    requires RowsInv(d.transfers) && AllDone(d.transfers, front) && Reflects(d.transfers, front)
    requires Observe(d, o, now).ok
    ensures var rows := Observe(d, o, now).db.transfers;
            RowsInv(rows) && AllDone(rows, front + [o]) && Reflects(rows, front + [o])
  {
    ObserveEffect(d, o, now);
    ObserveDone(d, front, o, now);
    ObserveReflects(d, front, o, now);
  }

  lemma NothingDone(rows: seq<Transfer>)
    ensures AllDone(rows, []) && Reflects(rows, [])
  {
  }

  lemma {:induction false} FirstPass(db: Db, listing: seq<Observed>, now: int)
    requires RowsInv(db.transfers) && ObserveAll(db, listing, now).ok
    ensures var rows := ObserveAll(db, listing, now).db.transfers;
            RowsInv(rows) && AllDone(rows, listing) && Reflects(rows, listing)
  {
    hide RowsInv, AllDone, Reflects, Observe;
    if listing == [] {
      NothingDone(db.transfers);
    } else {
      var front, o := listing[..|listing| - 1], listing[|listing| - 1];
      FirstPass(db, front, now);
      var d := ObserveAll(db, front, now).db;
      assert front + [o] == listing && ObserveAll(db, listing, now) == Observe(d, o, now);
      FirstPassOne(d, front, o, now);
    }
  }

  // --------------------------------------------------------------- the second pass

  /** A row the second pass has brought as far as a part of the listing goes: only the columns
      that part reports for its index have been absorbed. */
  predicate ReplayedRow(was: Transfer, r: Transfer, part: seq<Observed>) {
    Timeless(r) == Timeless(if was.rlnIdx.Some? then Absorb(was, DigestOf(part, was.rlnIdx.value)) else was)
  }

  /** Where the second pass stands after part of the listing: no status, binding or event changed,
      and each bound row has absorbed what that part reports. */
  predicate Replayed(before: Db, after: Db, part: seq<Observed>) {
    && |after.transfers| == |before.transfers| && after.outbox == before.outbox
    && after.payments == before.payments && after.baseline == before.baseline
    && forall j :: 0 <= j < |before.transfers| ==> ReplayedRow(before.transfers[j], after.transfers[j], part)
  }

  /** Observing a row that is done with the observation only binds it again. */
  lemma ObserveAgain(d: Db, o: Observed, now: int, id: nat)
    requires RowsInv(d.transfers) && id < |d.transfers| && d.transfers[id].rlnIdx == Some(o.rlnIdx)
    requires FitsDb(o.expiration) && PlanTransition(d.transfers[id].status, o.status).None?
    ensures Observe(d, o, now) == Outcome(d.(transfers := d.transfers[id := Bind(d.transfers[id], o, now)]), true)
  {
    BoundRowMatches(d.transfers, o, id);
  }

  lemma ReplayedElsewhere(was: Transfer, r: Transfer, part: seq<Observed>, o: Observed)
    requires ReplayedRow(was, r, part) && was.rlnIdx != Some(o.rlnIdx)
    ensures ReplayedRow(was, r, part + [o])
  {
    assert (part + [o])[..|part|] == part;
  }

  lemma ReplayedBind(was: Transfer, r: Transfer, part: seq<Observed>, o: Observed, now: int)
    requires ReplayedRow(was, r, part) && was.rlnIdx == Some(o.rlnIdx)
    ensures ReplayedRow(was, Bind(r, o, now), part + [o])
  {
    assert (part + [o])[..|part|] == part;
    var d := DigestOf(part, o.rlnIdx);
    assert Timeless(r) == Timeless(Absorb(was, d));
    assert Absorb(was, Add(d, o)).assetId == Coalesce(o.assetId, Timeless(r).assetId);
    assert Absorb(was, Add(d, o)).txid == Coalesce(o.txid, Timeless(r).txid);
    assert Absorb(was, Add(d, o)).expiration == Coalesce(o.expiration, Timeless(r).expiration);
  }

  lemma ReplayOne(before: Db, d: Db, part: seq<Observed>, o: Observed, now: int)
    requires RowsInv(before.transfers) && RowsInv(d.transfers) && Replayed(before, d, part) && Done(before.transfers, o)
    ensures Observe(d, o, now).ok && Replayed(before, Observe(d, o, now).db, part + [o])
  {
    var id :| 0 <= id < |before.transfers| && before.transfers[id].rlnIdx == Some(o.rlnIdx)
              && PlanTransition(before.transfers[id].status, o.status).None?;
    BoundElsewhere(before.transfers, id);
    KeepsBinding(before.transfers[id], d.transfers[id], part);
    ObserveAgain(d, o, now, id);
    hide Observe, RowsInv, Done, ReplayedRow;
    var after := Observe(d, o, now).db;
    forall j | 0 <= j < |before.transfers| ensures ReplayedRow(before.transfers[j], after.transfers[j], part + [o]) {
      if j == id {
        ReplayedBind(before.transfers[id], d.transfers[id], part, o, now);
      } else {
        ReplayedElsewhere(before.transfers[j], d.transfers[j], part, o);
      }
    }
  }

  lemma KeepsBinding(was: Transfer, r: Transfer, part: seq<Observed>)
    requires ReplayedRow(was, r, part)
    ensures r.rlnIdx == was.rlnIdx && r.status == was.status
  {
    assert Timeless(r).rlnIdx == r.rlnIdx && Timeless(r).status == r.status;
  }

  lemma BoundElsewhere(rows: seq<Transfer>, id: nat)
    requires RowsInv(rows) && id < |rows| && rows[id].rlnIdx.Some?
    ensures forall j :: 0 <= j < |rows| && j != id ==> rows[j].rlnIdx != rows[id].rlnIdx
  {
    assert forall j :: 0 <= j < |rows| && j != id ==> !SqlEq(rows[j].rlnIdx, rows[id].rlnIdx);
  }

  lemma ReplayNothing(db: Db)
    ensures Replayed(db, db, [])
  {
  }

  lemma ReplayNext(before: Db, r: Outcome, part: seq<Observed>, o: Observed, now: int)
    requires RowsInv(before.transfers) && AllDone(before.transfers, part + [o])
    requires r.ok && RowsInv(r.db.transfers) && Replayed(before, r.db, part)
    ensures var next := Observe(r.db, o, now);
            next.ok && RowsInv(next.db.transfers) && Replayed(before, next.db, part + [o])
  {
    assert Done(before.transfers, (part + [o])[|part|]);
    ReplayOne(before, r.db, part, o, now);
    ObserveEffect(r.db, o, now);
  }

  lemma {:induction false} SecondPass(db: Db, part: seq<Observed>, now: int)
    requires RowsInv(db.transfers) && AllDone(db.transfers, part)
    ensures var r := ObserveAll(db, part, now);
            r.ok && RowsInv(r.db.transfers) && Replayed(db, r.db, part)
  {
    if part == [] {
      ReplayNothing(db);
    } else {
      var front, o := part[..|part| - 1], part[|part| - 1];
      assert front + [o] == part;
      assert forall i :: 0 <= i < |front| ==> front[i] == part[i];
      SecondPass(db, front, now);
      ReplayNext(db, ObserveAll(db, front, now), front, o, now);
    }
  }

  /** Syncing the same listing again changes no status, no binding and no outbox entry, and no other
      column but timestamps, even if an index repeats in it with different statuses or columns. */
  lemma SyncIsIdempotent(db: Db, listing: seq<Observed>, now: int, later: int)
    requires RowsInv(db.transfers) && ObserveAll(db, listing, now).ok
    ensures var once := ObserveAll(db, listing, now).db;
            var twice := ObserveAll(once, listing, later);
            && twice.ok && Same(twice.db, once) && twice.db.outbox == once.outbox
            && (forall j :: 0 <= j < |once.transfers| ==>
                  && twice.db.transfers[j].status == once.transfers[j].status
                  && twice.db.transfers[j].rlnIdx == once.transfers[j].rlnIdx)
  {
    var once := ObserveAll(db, listing, now).db;
    FirstPass(db, listing, now);
    SecondPass(once, listing, later);
    var twice := ObserveAll(once, listing, later).db;
    forall j | 0 <= j < |once.transfers|
      ensures Timeless(twice.transfers[j]) == Timeless(once.transfers[j])
      ensures twice.transfers[j].status == once.transfers[j].status
      ensures twice.transfers[j].rlnIdx == once.transfers[j].rlnIdx
    {
      assert Timeless(twice.transfers[j]).status == twice.transfers[j].status
             && Timeless(twice.transfers[j]).rlnIdx == twice.transfers[j].rlnIdx;
    }
  }

  // ----------------------------------------------------------- stopped and run again

  /** What an upsert leaves of its row beside the columns it binds. */
  lemma UpsertedRow(rows: seq<Transfer>, o: Observed, now: int)
    requires RowsInv(rows) && UpsertObserved(rows, o, now).Ok?
    ensures var u, id := UpsertObserved(rows, o, now).value, Target(rows, o);
            && u.id == id < |u.rows| && |u.rows| == (if id == |rows| then id + 1 else |rows|)
            && u.rows[id] == (if id < |rows| then Bind(rows[id], o, now) else BornObserved(o, now))
            && (forall j :: 0 <= j < |rows| && j != id ==> u.rows[j] == rows[j])
  {
  }

  /** Half an observation disturbs nothing that earlier entries have done. */
  lemma UpsertKeepsDone(rows: seq<Transfer>, part: seq<Observed>, o: Observed, now: int)
    requires RowsInv(rows) && AllDone(rows, part) && UpsertObserved(rows, o, now).Ok?
    ensures AllDone(UpsertObserved(rows, o, now).value.rows, part)
  {
    UpsertedRow(rows, o, now);
    var after := UpsertObserved(rows, o, now).value.rows;
    forall i | 0 <= i < |part| ensures Done(after, part[i]) {
      assert Done(rows, part[i]);
      var k :| 0 <= k < |rows| && rows[k].rlnIdx == Some(part[i].rlnIdx)
               && PlanTransition(rows[k].status, part[i].status).None?;
      BoundRowMeets(rows, o, k, part[i].rlnIdx);
      assert after[k].rlnIdx == Some(part[i].rlnIdx) && after[k].status == rows[k].status;
    }
  }

  /** The row of a half observed entry, after the listing up to it is observed again and the entry is
      bound again, shows what it showed. */
  lemma RebindsAlike(was: Transfer, again: Transfer, d: Digest, o: Observed, first: int, second: int)
    requires Absorb(was, d) == was || d == Digest(None, None, None, None)
    requires Timeless(again) == Timeless(Absorb(Bind(was, o, first), d))
    ensures Timeless(Bind(again, o, second)) == Timeless(Bind(was, o, first))
  {
    assert Timeless(again).assetId == again.assetId && Timeless(again).txid == again.txid;
    assert Timeless(again).expiration == again.expiration;
    assert Timeless(Bind(again, o, second)) == Timeless(Bind(Timeless(again), o, first));
  }

  lemma ReboundRow(rows: seq<Transfer>, part: seq<Observed>, o: Observed, first: int, second: int, again: Transfer)
    requires RowsInv(rows) && AllDone(rows, part) && Reflects(rows, part) && UpsertObserved(rows, o, first).Ok?
    requires var u := UpsertObserved(rows, o, first).value;
             u.id < |u.rows| && ReplayedRow(u.rows[u.id], again, part)
    ensures var u := UpsertObserved(rows, o, first).value;
            Timeless(Bind(again, o, second)) == Timeless(u.rows[u.id])
  {
    UpsertedRow(rows, o, first);
    var id := Target(rows, o);
    if !(id < |rows| && rows[id].rlnIdx == Some(o.rlnIdx)) {
      NotListedBefore(rows, part, o, id);
      UnlistedDigest(part, o.rlnIdx);
    }
    if id < |rows| {
      RebindsAlike(rows[id], again, DigestOf(part, o.rlnIdx), o, first, second);
    } else {
      assert Timeless(again) == Timeless(BornObserved(o, first));
      assert Timeless(Bind(again, o, second)) == Timeless(Bind(Timeless(again), o, first));
    }
  }

  /** Observing the listing again from halfway through an entry passes that point as it was. */
  lemma HalfUpserts(d: Db, part: seq<Observed>, o: Observed, first: int, second: int)
    requires RowsInv(d.transfers) && AllDone(d.transfers, part) && Reflects(d.transfers, part)
    requires HalfObserved(d, o, first).ok
    ensures var again := ObserveAll(HalfObserved(d, o, first).db, part, second);
            && again.ok && HalfObserved(again.db, o, second).ok
            && Same(HalfObserved(again.db, o, second).db, HalfObserved(d, o, first).db)
            && UpsertObserved(again.db.transfers, o, second).value.id == UpsertObserved(d.transfers, o, first).value.id
  {
    var u := UpsertObserved(d.transfers, o, first).value;
    var half := HalfObserved(d, o, first).db;
    hide RowsInv, AllDone, ObserveAll, Reflects, Replayed, Bind, FindMatch, HolderOf, Same;
    UpsertKeeps(d.transfers, o, first);
    UpsertKeepsDone(d.transfers, part, o, first);
    UpsertedRow(d.transfers, o, first);
    SecondPass(half, part, second);
    HalfReplayed(d, part, o, first, second, ObserveAll(half, part, second).db);
  }

  lemma HalfReplayed(d: Db, part: seq<Observed>, o: Observed, first: int, second: int, again: Db)
    requires RowsInv(d.transfers) && AllDone(d.transfers, part) && Reflects(d.transfers, part)
    requires HalfObserved(d, o, first).ok && RowsInv(again.transfers)
    requires Replayed(HalfObserved(d, o, first).db, again, part)
    ensures HalfObserved(again, o, second).ok && Same(HalfObserved(again, o, second).db, HalfObserved(d, o, first).db)
    ensures UpsertObserved(again.transfers, o, second).value.id == UpsertObserved(d.transfers, o, first).value.id
  {
    var u, half := UpsertObserved(d.transfers, o, first).value, HalfObserved(d, o, first).db;
    UpsertedRow(d.transfers, o, first);
    assert ReplayedRow(half.transfers[u.id], again.transfers[u.id], part);
    KeepsBinding(half.transfers[u.id], again.transfers[u.id], part);
    UpsertsBound(d.transfers, o, first);
    BoundRowMatches(again.transfers, o, u.id);
    ReboundRow(d.transfers, part, o, first, second, again.transfers[u.id]);
    var rows := again.transfers[u.id := Bind(again.transfers[u.id], o, second)];
    assert HalfObserved(again, o, second) == Outcome(again.(transfers := rows), true);
    OthersReplayed(d.transfers, part, u.id, half.transfers, rows);
  }

  lemma UpsertsBound(rows: seq<Transfer>, o: Observed, now: int)
    requires UpsertObserved(rows, o, now).Ok?
    ensures FitsDb(o.expiration)
    ensures var u := UpsertObserved(rows, o, now).value; u.rows[u.id].rlnIdx == Some(o.rlnIdx)
  {
  }

  /** Rows the half observed entry did not touch show what they showed. */
  lemma OthersReplayed(was: seq<Transfer>, part: seq<Observed>, id: nat, half: seq<Transfer>, rows: seq<Transfer>)
    requires Reflects(was, part) && id < |half| == |rows| && |half| <= |was| + 1 && (id < |was| ==> |half| == |was|)
    requires |was| < |half| ==> id == |was|
    requires forall j :: 0 <= j < |half| && j != id ==>
               j < |was| && half[j] == was[j] && ReplayedRow(half[j], rows[j], part)
    requires Timeless(rows[id]) == Timeless(half[id])
    ensures SameRows(rows, half)
  {
  }

  lemma HalfResumes(d: Db, part: seq<Observed>, o: Observed, first: int, second: int)
    requires RowsInv(d.transfers) && AllDone(d.transfers, part) && Reflects(d.transfers, part)
    requires HalfObserved(d, o, first).ok
    ensures var again := ObserveAll(HalfObserved(d, o, first).db, part + [o], second);
            again.ok && Observe(d, o, first).ok && Same(again.db, Observe(d, o, first).db)
  {
    HalfUpserts(d, part, o, first, second);
    var half := HalfObserved(d, o, first).db;
    var again := ObserveAll(half, part, second).db;
    assert (part + [o])[..|part|] == part;
    assert ObserveAll(half, part + [o], second) == Observe(again, o, second);
    var id := UpsertObserved(d.transfers, o, first).value.id;
    SwapAlike(HalfObserved(again, o, second).db, half, id, o.status, second, first);
  }

  /** Observing again everything a stopped sync has seen, the half observed entry included, leads
      where it would have been had it not stopped. */
  lemma SeenAgain(db: Db, seen: seq<Observed>, half: bool, first: int, second: int)
    requires RowsInv(db.transfers) && Stopped(db, seen, half, first).ok
    ensures var again := ObserveAll(Stopped(db, seen, half, first).db, seen, second);
            var straight := ObserveAll(db, seen, first);
            again.ok && straight.ok && Same(again.db, straight.db)
  {
    if half && seen != [] {
      var part, o := seen[..|seen| - 1], seen[|seen| - 1];
      FirstPass(db, part, first);
      HalfResumes(ObserveAll(db, part, first).db, part, o, first, second);
      assert part + [o] == seen;
    } else {
      SyncIsIdempotent(db, seen, first, second);
    }
  }

  /** A sync that stopped anywhere - after an entry or between an entry's two transactions, on an
      error or a crash - and is run again from the start ends where one uninterrupted run would have,
      up to timestamps, and fails where that one fails. */
  lemma SyncResumes(db: Db, seen: seq<Observed>, half: bool, rest: seq<Observed>, first: int, second: int, once: int)
    requires RowsInv(db.transfers) && Stopped(db, seen, half, first).ok
    ensures var resumed := ObserveAll(Stopped(db, seen, half, first).db, seen + rest, second);
            var straight := ObserveAll(db, seen + rest, once);
            resumed.ok == straight.ok && Same(resumed.db, straight.db)
  {
    var d := Stopped(db, seen, half, first).db;
    SeenAgain(db, seen, half, first, second);
    ObserveAllConcat(d, seen, rest, second);
    var again := ObserveAll(d, seen, second).db;
    ObserveAllAlike(db, db, seen, first, once);
    ObserveAllConcat(db, seen, rest, once);
    var straight := ObserveAll(db, seen, once).db;
    SameTransitive(again, ObserveAll(db, seen, first).db, straight);
    ObserveAllAlike(again, straight, rest, second, once);
  }

  lemma SameTransitive(a: Db, b: Db, c: Db)
    requires Same(a, b) && Same(b, c)
    ensures Same(a, c)
  {
    assert forall i :: 0 <= i < |a.transfers| ==>
        Timeless(a.transfers[i]) == Timeless(b.transfers[i]) == Timeless(c.transfers[i]);
    assert forall i :: 0 <= i < |a.outbox| ==>
        TimelessEvent(a.outbox[i]) == TimelessEvent(b.outbox[i]) == TimelessEvent(c.outbox[i]);
  }
}
