/** A payments poll over one listing of the node, with no hook beside it. */
module PaymentListing {
  import opened Base
  import opened Status
  import opened Tables
  import opened System
  import opened PaymentLaws

  datatype Outcome = Outcome(db: Db, ok: bool)

  /** One turn of the poll's loop: upsert under the baseline rule, then plan and swap. */
  function PollOne(db: Db, baseline: Option<int>, p: NewPayment, now: int): Outcome {
    var n := p.(status := InsertStatus(baseline, p.status));
    var u := UpsertPayment(db.payments, n, Some(now), now);
    if u.Err? then Outcome(db, false) else
    Outcome(ApplyPaymentObserved(db.(payments := u.value), n.hash, u.value[n.hash], p.status, now), true)
  }

  function PollAll(db: Db, baseline: Option<int>, listing: seq<NewPayment>, now: int): Outcome {
    if listing == [] then Outcome(db, true) else
    var r := PollAll(db, baseline, listing[..|listing| - 1], now);
    if !r.ok then r else PollOne(r.db, baseline, listing[|listing| - 1], now)
  }

  /** One entry more of a listing. */
  lemma PollNext(db: Db, baseline: Option<int>, listing: seq<NewPayment>, n: nat, now: int)
    requires n < |listing|
    ensures var r := PollAll(db, baseline, listing[..n], now);
            PollAll(db, baseline, listing[..n + 1], now) == if r.ok then PollOne(r.db, baseline, listing[n], now) else r
  {
    assert listing[..n + 1][..n] == listing[..n];
  }

  lemma PollNothing(db: Db, baseline: Option<int>, now: int)
    ensures PollAll(db, baseline, [], now) == Outcome(db, true)
  {
  }

  lemma {:induction false} FailsAfter(db: Db, baseline: Option<int>, listing: seq<NewPayment>, n: nat, now: int)
    requires n <= |listing| && !PollAll(db, baseline, listing[..n], now).ok
    ensures PollAll(db, baseline, listing, now) == PollAll(db, baseline, listing[..n], now)
  {
    if n == |listing| {
      assert listing[..n] == listing;
    } else {
      var front := listing[..|listing| - 1];
      assert front[..n] == listing[..n];
      FailsAfter(db, baseline, front, n, now);
    }
  }

  lemma {:induction false} PollKeepsBaseline(db: Db, baseline: Option<int>, listing: seq<NewPayment>, now: int)
    ensures PollAll(db, baseline, listing, now).db.baseline == db.baseline
  {
    if listing != [] {
      PollKeepsBaseline(db, baseline, listing[..|listing| - 1], now);
    }
  }

  predicate DistinctHashes(listing: seq<NewPayment>) {
    forall i, j :: 0 <= i < j < |listing| ==> listing[i].hash != listing[j].hash
  }

  function Timeless(p: Payment): Payment {
    p.(createdAt := 0, updatedAt := 0, lastSeenAt := None)
  }

  predicate SamePayments(a: map<string, Payment>, b: map<string, Payment>) {
    a.Keys == b.Keys && forall h :: h in a ==> Timeless(a[h]) == Timeless(b[h])
  }

  /** The mirror has nothing left to learn from this entry. */
  predicate Learned(payments: map<string, Payment>, p: NewPayment) {
    && AmountsFit(p) && p.hash in payments
    && PlanPayment(payments[p.hash].status, p.status).None?
    && Timeless(UpsertedPayment(payments, p, None, 0)) == Timeless(payments[p.hash])
  }

  predicate AllLearned(payments: map<string, Payment>, listing: seq<NewPayment>) {
    forall i :: 0 <= i < |listing| ==> Learned(payments, listing[i])
  }

  lemma PollLearns(db: Db, baseline: Option<int>, p: NewPayment, now: int)
    requires PollOne(db, baseline, p, now).ok
    ensures var after := PollOne(db, baseline, p, now).db.payments;
            && Learned(after, p)
            && after.Keys == db.payments.Keys + {p.hash}
            && forall h :: h in db.payments && h != p.hash ==> after[h] == db.payments[h]
  {
  }

  lemma {:induction false} PollAllLearns(db: Db, baseline: Option<int>, listing: seq<NewPayment>, now: int)
    requires DistinctHashes(listing) && PollAll(db, baseline, listing, now).ok
    ensures AllLearned(PollAll(db, baseline, listing, now).db.payments, listing)
  {
    if listing != [] {
      var front, p := listing[..|listing| - 1], listing[|listing| - 1];
      hide Learned, PollOne;
      PollAllLearns(db, baseline, front, now);
      var d := PollAll(db, baseline, front, now).db;
      PollLearns(d, baseline, p, now);
      assert PollAll(db, baseline, listing, now) == PollOne(d, baseline, p, now);
      var after := PollOne(d, baseline, p, now).db.payments;
      forall i | 0 <= i < |listing| ensures Learned(after, listing[i]) {
        if i < |front| {
          assert Learned(d.payments, front[i]) && listing[i].hash != p.hash;
        }
      }
    }
  }

  /** The row shows everything the entry knows, and its status is one the entry does not move. */
  predicate Shows(payments: map<string, Payment>, p: NewPayment) {
    && p.hash in payments
    && var r := payments[p.hash];
       && r.direction == p.direction
       && (p.assetId.Some? ==> r.assetId == p.assetId)
       && (p.assetAmount.Some? ==> r.assetAmount == p.assetAmount)
       && (p.amtMsat.Some? ==> r.amtMsat == p.amtMsat)
       && (p.payeePubkey.Some? ==> r.payeePubkey == p.payeePubkey)
       && (r.status == p.status || r.status == Succeeded
           || (r.status.Terminal() && p.status != Pending)
           || (!r.status.Terminal() && PaymentRank(p.status) <= PaymentRank(r.status)))
  }

  lemma LearnedShows(payments: map<string, Payment>, p: NewPayment)
    requires Learned(payments, p)
    ensures Shows(payments, p)
  {
    var r, u := Timeless(payments[p.hash]), Timeless(UpsertedPayment(payments, p, None, 0));
    assert r.direction == u.direction && r.assetId == u.assetId && r.assetAmount == u.assetAmount;
    assert r.amtMsat == u.amtMsat && r.payeePubkey == u.payeePubkey;
  }

  /** After a poll of distinct hashes the mirror shows everything listed. */
  lemma PollMirrors(db: Db, baseline: Option<int>, listing: seq<NewPayment>, now: int)
    requires DistinctHashes(listing) && PollAll(db, baseline, listing, now).ok
    ensures forall i :: 0 <= i < |listing| ==> Shows(PollAll(db, baseline, listing, now).db.payments, listing[i])
  {
    PollAllLearns(db, baseline, listing, now);
    forall i | 0 <= i < |listing| ensures Shows(PollAll(db, baseline, listing, now).db.payments, listing[i]) {
      LearnedShows(PollAll(db, baseline, listing, now).db.payments, listing[i]);
    }
  }

  // ------------------------------------------------------- the same listing, polled again

  /** No entry would move its hash from where the mirror has it. */
  predicate Quiet(payments: map<string, Payment>, listing: seq<NewPayment>) {
    forall i :: 0 <= i < |listing| ==>
      listing[i].hash in payments && PlanPayment(payments[listing[i].hash].status, listing[i].status).None?
  }

  predicate SameStatuses(a: map<string, Payment>, b: map<string, Payment>) {
    a.Keys == b.Keys && forall h :: h in a ==> a[h].status == b[h].status
  }

  /** The last value a listing knows for each column of a hash. */
  datatype Digest = Digest(direction: Option<Direction>, assetId: Option<string>, assetAmount: Option<u64>,
                           amtMsat: Option<u64>, payeePubkey: Option<string>)

  function Add(d: Digest, p: NewPayment): Digest {
    Digest(Some(p.direction), Coalesce(p.assetId, d.assetId), Coalesce(p.assetAmount, d.assetAmount),
           Coalesce(p.amtMsat, d.amtMsat), Coalesce(p.payeePubkey, d.payeePubkey))
  }

  function DigestOf(listing: seq<NewPayment>, hash: string): Digest {
    if listing == [] then Digest(None, None, None, None, None) else
    var d, p := DigestOf(listing[..|listing| - 1], hash), listing[|listing| - 1];
    if p.hash == hash then Add(d, p) else d
  }

  function Absorb(r: Payment, d: Digest): Payment {
    r.(direction := if d.direction.Some? then d.direction.value else r.direction,
       assetId := Coalesce(d.assetId, r.assetId), assetAmount := Coalesce(d.assetAmount, r.assetAmount),
       amtMsat := Coalesce(d.amtMsat, r.amtMsat), payeePubkey := Coalesce(d.payeePubkey, r.payeePubkey))
  }

  /** Everything listed is stored, and every stored row shows what the listing last knew of it. */
  predicate Reflects(payments: map<string, Payment>, listing: seq<NewPayment>) {
    && (forall i :: 0 <= i < |listing| ==> listing[i].hash in payments && AmountsFit(listing[i]))
    && (forall h :: h in payments ==> Absorb(payments[h], DigestOf(listing, h)) == payments[h])
  }

  lemma {:induction false} UnlistedDigest(listing: seq<NewPayment>, hash: string)
    requires forall i :: 0 <= i < |listing| ==> listing[i].hash != hash
    ensures DigestOf(listing, hash) == Digest(None, None, None, None, None)
  {
    if listing != [] {
      UnlistedDigest(listing[..|listing| - 1], hash);
    }
  }

  /** What one turn makes of its hash's row, the swap aside, and that it touches no other. */
  lemma PollOneRow(d: Db, baseline: Option<int>, p: NewPayment, now: int)
    requires PollOne(d, baseline, p, now).ok
    ensures var after, n := PollOne(d, baseline, p, now).db.payments, p.(status := InsertStatus(baseline, p.status));
            && AmountsFit(p) && after.Keys == d.payments.Keys + {p.hash}
            && (forall h :: h in d.payments && h != p.hash ==> after[h] == d.payments[h])
            && var r := UpsertedPayment(d.payments, n, Some(now), now);
               after[p.hash] == r.(status := after[p.hash].status, updatedAt := after[p.hash].updatedAt)
  {
  }

  lemma ReflectsMore(d: Db, baseline: Option<int>, front: seq<NewPayment>, p: NewPayment, now: int)
    requires Reflects(d.payments, front) && PollOne(d, baseline, p, now).ok
    ensures Reflects(PollOne(d, baseline, p, now).db.payments, front + [p])
  {
    PollOneRow(d, baseline, p, now);
    var after := PollOne(d, baseline, p, now).db.payments;
    if p.hash !in d.payments {
      UnlistedDigest(front, p.hash);
    }
    RowReflects(d.payments, DigestOf(front, p.hash), baseline, p, now, after[p.hash]);
    hide PollOne, UpsertedPayment;
    OneRowMore(d.payments, after, front, p);
  }

  lemma OneRowMore(was: map<string, Payment>, after: map<string, Payment>, front: seq<NewPayment>, p: NewPayment)
    requires Reflects(was, front) && AmountsFit(p) && after.Keys == was.Keys + {p.hash}
    requires forall h :: h in was && h != p.hash ==> after[h] == was[h]
    requires Absorb(after[p.hash], Add(DigestOf(front, p.hash), p)) == after[p.hash]
    ensures Reflects(after, front + [p])
  {
    hide Absorb, Add;
    assert (front + [p])[..|front|] == front;
    forall h | h in after ensures Absorb(after[h], DigestOf(front + [p], h)) == after[h] {
      assert h != p.hash ==> h in was && after[h] == was[h];
    }
  }

  lemma RowReflects(was: map<string, Payment>, d: Digest, baseline: Option<int>, p: NewPayment, now: int, r: Payment)
    requires if p.hash in was then Absorb(was[p.hash], d) == was[p.hash] else d == Digest(None, None, None, None, None)
    requires var n := p.(status := InsertStatus(baseline, p.status));
             r == UpsertedPayment(was, n, Some(now), now).(status := r.status, updatedAt := r.updatedAt)
    ensures Absorb(r, Add(d, p)) == r
  {
  }

  lemma {:induction false} PollReflects(db: Db, baseline: Option<int>, listing: seq<NewPayment>, now: int)
    requires PollAll(db, baseline, listing, now).ok
    ensures Reflects(PollAll(db, baseline, listing, now).db.payments, listing)
  {
    hide Reflects, PollOne;
    if listing != [] {
      var front, p := listing[..|listing| - 1], listing[|listing| - 1];
      PollReflects(db, baseline, front, now);
      assert PollAll(db, baseline, listing, now) == PollOne(PollAll(db, baseline, front, now).db, baseline, p, now);
      ReflectsMore(PollAll(db, baseline, front, now).db, baseline, front, p, now);
      assert front + [p] == listing;
    } else {
      ReflectsNothing(db.payments);
    }
  }

  lemma ReflectsNothing(payments: map<string, Payment>)
    ensures Reflects(payments, [])
  {
  }

  /** Where the second poll stands after part of the listing, when nothing has moved. */
  predicate Replayed(before: Db, after: Db, part: seq<NewPayment>) {
    && after.payments.Keys == before.payments.Keys && after.outbox == before.outbox
    && after.transfers == before.transfers && after.baseline == before.baseline
    && forall h :: h in before.payments ==>
         Timeless(after.payments[h]) == Timeless(Absorb(before.payments[h], DigestOf(part, h)))
  }

  lemma ReplayedStatus(before: Db, after: Db, part: seq<NewPayment>, h: string)
    requires Replayed(before, after, part) && h in before.payments
    ensures after.payments[h].status == before.payments[h].status
  {
    assert Timeless(after.payments[h]).status == after.payments[h].status;
  }

  /** A turn that plans nothing writes the columns its entry knows, and nothing else. */
  lemma PollQuietly(d: Db, baseline: Option<int>, p: NewPayment, now: int)
    requires p.hash in d.payments && AmountsFit(p) && PlanPayment(d.payments[p.hash].status, p.status).None?
    ensures var n := p.(status := InsertStatus(baseline, p.status));
            PollOne(d, baseline, p, now)
            == Outcome(d.(payments := d.payments[p.hash := UpsertedPayment(d.payments, n, Some(now), now)]), true)
  {
  }

  lemma ReplayedMore(before: Db, d: Db, baseline: Option<int>, part: seq<NewPayment>, p: NewPayment, now: int)
    requires Replayed(before, d, part) && p.hash in before.payments && AmountsFit(p)
    requires PlanPayment(before.payments[p.hash].status, p.status).None?
    ensures PollOne(d, baseline, p, now).ok && Replayed(before, PollOne(d, baseline, p, now).db, part + [p])
  {
    ReplayedStatus(before, d, part, p.hash);
    PollQuietly(d, baseline, p, now);
    hide PollOne;
    var after := PollOne(d, baseline, p, now).db;
    assert (part + [p])[..|part|] == part;
    forall h | h in before.payments
      ensures Timeless(after.payments[h]) == Timeless(Absorb(before.payments[h], DigestOf(part + [p], h)))
    {
      if h == p.hash {
        ReplayedRow(before.payments[h], d.payments, DigestOf(part, h), baseline, p, now);
      }
    }
  }

  lemma ReplayedRow(was: Payment, payments: map<string, Payment>, d: Digest, baseline: Option<int>, p: NewPayment,
                    now: int)
    requires p.hash in payments && Timeless(payments[p.hash]) == Timeless(Absorb(was, d))
    ensures var n := p.(status := InsertStatus(baseline, p.status));
            Timeless(UpsertedPayment(payments, n, Some(now), now)) == Timeless(Absorb(was, Add(d, p)))
  {
    var r := payments[p.hash];
    assert Timeless(r).assetId == r.assetId && Timeless(r).assetAmount == r.assetAmount;
    assert Timeless(r).amtMsat == r.amtMsat && Timeless(r).payeePubkey == r.payeePubkey;
    assert Timeless(r).status == r.status;
  }

  lemma QuietFront(payments: map<string, Payment>, listing: seq<NewPayment>)
    requires Quiet(payments, listing) && listing != []
    ensures Quiet(payments, listing[..|listing| - 1])
    ensures var p := listing[|listing| - 1];
            p.hash in payments && PlanPayment(payments[p.hash].status, p.status).None?
  {
  }

  lemma {:induction false} QuietPass(db: Db, baseline: Option<int>, part: seq<NewPayment>, now: int)
    requires Quiet(db.payments, part) && forall i :: 0 <= i < |part| ==> AmountsFit(part[i])
    ensures PollAll(db, baseline, part, now).ok && Replayed(db, PollAll(db, baseline, part, now).db, part)
  {
    hide PollOne, Replayed, Quiet;
    if part != [] {
      var front, p := part[..|part| - 1], part[|part| - 1];
      QuietFront(db.payments, part);
      assert forall i :: 0 <= i < |front| ==> front[i] == part[i];
      QuietPass(db, baseline, front, now);
      assert PollAll(db, baseline, part, now) == PollOne(PollAll(db, baseline, front, now).db, baseline, p, now);
      ReplayedMore(db, PollAll(db, baseline, front, now).db, baseline, front, p, now);
      assert front + [p] == part;
    } else {
      ReplayedNothing(db);
    }
  }

  lemma ReplayedNothing(db: Db)
    ensures Replayed(db, db, [])
  {
  }

  lemma ReplayedSame(before: Db, after: Db, listing: seq<NewPayment>)
    requires Replayed(before, after, listing) && Reflects(before.payments, listing)
    ensures SamePayments(after.payments, before.payments)
  {
  }

  // A poll that moves a hash without an event cannot get back to where it was without one: a silent
  // move climbs, and the only way down again leads through an ending, which is told.

  function Height(s: PaymentStatus): int {
    if s == Succeeded then 4 else if s.Terminal() then -1 else PaymentRank(s)
  }

  lemma PollOneClimbs(d: Db, baseline: Option<int>, p: NewPayment, now: int)
    requires p.hash in d.payments && AmountsFit(p)
    ensures var r, from := PollOne(d, baseline, p, now), d.payments[p.hash].status;
            && r.ok && r.db.payments.Keys == d.payments.Keys && |d.outbox| <= |r.db.outbox|
            && (forall h :: h in d.payments && h != p.hash ==> r.db.payments[h] == d.payments[h])
            && (if PlanPayment(from, p.status).None? then r.db.payments[p.hash].status == from
                else |r.db.outbox| == |d.outbox| ==> Height(r.db.payments[p.hash].status) > Height(from))
  {
  }

  lemma PollOneGrows(d: Db, baseline: Option<int>, p: NewPayment, now: int)
    requires p.hash in d.payments && AmountsFit(p)
    ensures var r := PollOne(d, baseline, p, now);
            r.ok && r.db.payments.Keys == d.payments.Keys && |d.outbox| <= |r.db.outbox|
  {
    PollOneClimbs(d, baseline, p, now);
  }

  predicate NoneFell(a: map<string, Payment>, b: map<string, Payment>) {
    a.Keys == b.Keys && forall h :: h in a ==> Height(a[h].status) <= Height(b[h].status)
  }

  predicate SomeRose(a: map<string, Payment>, b: map<string, Payment>) {
    exists h :: h in a && h in b && Height(a[h].status) < Height(b[h].status)
  }

  lemma {:induction false} ReplayClimbs(db: Db, baseline: Option<int>, part: seq<NewPayment>, now: int)
    requires forall i :: 0 <= i < |part| ==> part[i].hash in db.payments && AmountsFit(part[i])
    ensures var r := PollAll(db, baseline, part, now);
            && r.ok && r.db.payments.Keys == db.payments.Keys && |db.outbox| <= |r.db.outbox|
            && (|r.db.outbox| == |db.outbox| ==>
                  NoneFell(db.payments, r.db.payments)
                  && (Quiet(db.payments, part) || SomeRose(db.payments, r.db.payments)))
  {
    hide PollOne, Height, NoneFell, SomeRose, Quiet;
    if part != [] {
      var front, p := part[..|part| - 1], part[|part| - 1];
      ReplayClimbs(db, baseline, front, now);
      var d := PollAll(db, baseline, front, now).db;
      assert forall i :: 0 <= i < |front| ==> front[i] == part[i];
      PollOneGrows(d, baseline, p, now);
      var r := PollOne(d, baseline, p, now);
      assert PollAll(db, baseline, part, now) == r;
      if |r.db.outbox| == |db.outbox| {
        ClimbsMore(db, d, r.db, baseline, front, p, now);
        assert front + [p] == part;
      }
    } else {
      ClimbsNothing(db.payments);
    }
  }

  lemma ClimbsNothing(payments: map<string, Payment>)
    ensures NoneFell(payments, payments) && Quiet(payments, [])
  {
  }

  lemma ClimbsMore(db: Db, d: Db, after: Db, baseline: Option<int>, front: seq<NewPayment>, p: NewPayment, now: int)
    requires forall i :: 0 <= i < |front| ==> AmountsFit(front[i])
    requires p.hash in db.payments && AmountsFit(p) && PollAll(db, baseline, front, now) == Outcome(d, true)
    requires NoneFell(db.payments, d.payments) && (Quiet(db.payments, front) || SomeRose(db.payments, d.payments))
    requires after == PollOne(d, baseline, p, now).db && |after.outbox| == |d.outbox|
    ensures NoneFell(db.payments, after.payments)
    ensures Quiet(db.payments, front + [p]) || SomeRose(db.payments, after.payments)
  {
    hide PollOne, Height, PlanPayment, PollAll, Quiet;
    PollOneClimbs(d, baseline, p, now);
    if SomeRose(db.payments, d.payments) {
      RoseBefore(db.payments, d.payments, after.payments);
    } else {
      QuietPass(db, baseline, front, now);
      ReplayedStatus(db, d, front, p.hash);
      if PlanPayment(db.payments[p.hash].status, p.status).Some? {
        assert Height(db.payments[p.hash].status) < Height(after.payments[p.hash].status);
      } else {
        QuietMore(db.payments, front, p);
      }
    }
  }

  lemma RoseBefore(a: map<string, Payment>, b: map<string, Payment>, c: map<string, Payment>)
    requires SomeRose(a, b) && NoneFell(b, c)
    ensures SomeRose(a, c)
  {
    var h :| h in a && h in b && Height(a[h].status) < Height(b[h].status);
    assert Height(a[h].status) < Height(c[h].status);
  }

  lemma QuietMore(payments: map<string, Payment>, front: seq<NewPayment>, p: NewPayment)
    requires Quiet(payments, front) && p.hash in payments
    requires PlanPayment(payments[p.hash].status, p.status).None?
    ensures Quiet(payments, front + [p])
  {
  }

  /** Polling the same listing again, before or after the baseline was set in between, changes no
      status and emits nothing if and only if no entry of it would move its hash from where the first
      poll left it; and then it changes nothing at all but timestamps. */
  lemma PollIsIdempotent(db: Db, before: Option<int>, after: Option<int>, listing: seq<NewPayment>,
                         now: int, later: int)
    requires PollAll(db, before, listing, now).ok
    ensures var once := PollAll(db, before, listing, now).db;
            var twice := PollAll(once, after, listing, later);
            && twice.ok
            && (SameStatuses(twice.db.payments, once.payments) && |twice.db.outbox| == |once.outbox|
                <==> Quiet(once.payments, listing))
            && (Quiet(once.payments, listing) ==>
                  SamePayments(twice.db.payments, once.payments) && twice.db.outbox == once.outbox)
  {
    var once := PollAll(db, before, listing, now).db;
    PollReflects(db, before, listing, now);
    ReplayClimbs(once, after, listing, later);
    if Quiet(once.payments, listing) {
      QuietPass(once, after, listing, later);
      var twice := PollAll(once, after, listing, later).db;
      ReplayedSame(once, twice, listing);
      SameHasStatuses(twice.payments, once.payments);
    }
  }

  lemma SameHasStatuses(a: map<string, Payment>, b: map<string, Payment>)
    requires SamePayments(a, b)
    ensures SameStatuses(a, b)
  {
    forall h | h in a ensures a[h].status == b[h].status {
      assert Timeless(a[h]).status == Timeless(b[h]).status;
    }
  }

  /** A hash that is listed twice is listed with one status, as a payment to oneself is. */
  predicate OneStatusEach(listing: seq<NewPayment>) {
    forall i, j :: 0 <= i < j < |listing| && listing[i].hash == listing[j].hash ==>
      listing[i].status == listing[j].status
  }

  /** Such a listing can be polled as often as one likes. */
  lemma {:induction false} OneStatusIsQuiet(db: Db, baseline: Option<int>, listing: seq<NewPayment>, now: int)
    requires OneStatusEach(listing) && PollAll(db, baseline, listing, now).ok
    ensures Quiet(PollAll(db, baseline, listing, now).db.payments, listing)
  {
    hide PollOne, Quiet, Learned;
    if listing != [] {
      var front, p := listing[..|listing| - 1], listing[|listing| - 1];
      OneStatusIsQuiet(db, baseline, front, now);
      var d := PollAll(db, baseline, front, now).db;
      PollLearns(d, baseline, p, now);
      assert PollAll(db, baseline, listing, now) == PollOne(d, baseline, p, now);
      OneStatusMore(d.payments, PollOne(d, baseline, p, now).db.payments, listing);
    } else {
      QuietNothing(PollAll(db, baseline, listing, now).db.payments);
    }
  }

  lemma QuietNothing(payments: map<string, Payment>)
    ensures Quiet(payments, [])
  {
  }

  lemma OneStatusMore(was: map<string, Payment>, after: map<string, Payment>, listing: seq<NewPayment>)
    requires listing != [] && OneStatusEach(listing) && Quiet(was, listing[..|listing| - 1])
    requires var p := listing[|listing| - 1];
             && Learned(after, p) && after.Keys == was.Keys + {p.hash}
             && forall h :: h in was && h != p.hash ==> after[h] == was[h]
    ensures Quiet(after, listing)
  {
    var front, p := listing[..|listing| - 1], listing[|listing| - 1];
    forall i | 0 <= i < |listing|
      ensures listing[i].hash in after && PlanPayment(after[listing[i].hash].status, listing[i].status).None?
    {
      if i < |front| {
        assert front[i] == listing[i] && front[i].hash in was;
      }
    }
  }

  /** A listing that repeats a hash with different statuses need not be: failed and then pending again
      leaves the hash pending, as it was, so every poll of that listing emits another event. */
  lemma RepeatedHashEmitsAgain(db: Db, baseline: Option<int>, f: NewPayment, p: NewPayment, now: int)
    requires Seen(db, f.hash) == Some(Pending) && p.hash == f.hash
    requires f.status == PaymentFailed && p.status == Pending && AmountsFit(f) && AmountsFit(p)
    ensures var r := PollAll(db, baseline, [f, p], now);
            r.ok && Seen(r.db, f.hash) == Some(Pending) && |r.db.outbox| == |db.outbox| + 1
            && !Quiet(r.db.payments, [f, p])
  {
    PollPair(db, baseline, f, p, now);
    var d := PollOne(db, baseline, f, now).db;
    assert Seen(d, f.hash) == Some(PaymentFailed) && |d.outbox| == |db.outbox| + 1;
    assert [f, p][0] == f;
  }

  // ------------------------------------------------------- a poll that failed, run again

  function TimelessEvent(e: Event): Event {
    match e.payload
    case TransferPayload(_, _, _, _, _, _) => e
    case PaymentPayload(_, _, p, _, _, _) =>
      e.(payload := e.payload.(payment := Timeless(p), at := 0), nextAttemptAt := 0)
  }

  predicate SameOutbox(a: seq<Event>, b: seq<Event>) {
    |a| == |b| && forall i :: 0 <= i < |a| ==> TimelessEvent(a[i]) == TimelessEvent(b[i])
  }

  /** Equal up to the timestamps a poll writes. */
  predicate Same(a: Db, b: Db) {
    && SamePayments(a.payments, b.payments) && SameOutbox(a.outbox, b.outbox)
    && a.transfers == b.transfers && a.baseline == b.baseline
  }

  lemma UpsertAlike(a: map<string, Payment>, b: map<string, Payment>, n: NewPayment, now: int, later: int)
    requires SamePayments(a, b)
    ensures Timeless(UpsertedPayment(a, n, Some(now), now)) == Timeless(UpsertedPayment(b, n, Some(later), later))
    ensures SamePayments(a[n.hash := UpsertedPayment(a, n, Some(now), now)],
                         b[n.hash := UpsertedPayment(b, n, Some(later), later)])
  {
    if n.hash in a {
      assert Timeless(a[n.hash]) == Timeless(b[n.hash]);
      assert Timeless(a[n.hash]).status == a[n.hash].status && Timeless(b[n.hash]).status == b[n.hash].status;
    }
  }

  lemma SwapAlike(a: Db, b: Db, hash: string, observed: PaymentStatus, now: int, later: int)
    requires Same(a, b) && hash in a.payments
    ensures Same(ApplyPaymentObserved(a, hash, a.payments[hash], observed, now),
                 ApplyPaymentObserved(b, hash, b.payments[hash], observed, later))
  {
    assert Timeless(a.payments[hash]) == Timeless(b.payments[hash]);
    assert Timeless(a.payments[hash]).status == a.payments[hash].status;
  }

  lemma PollOneAlike(a: Db, b: Db, baseline: Option<int>, p: NewPayment, now: int, later: int)
    requires Same(a, b)
    ensures PollOne(a, baseline, p, now).ok == PollOne(b, baseline, p, later).ok
    ensures Same(PollOne(a, baseline, p, now).db, PollOne(b, baseline, p, later).db)
  {
    var n := p.(status := InsertStatus(baseline, p.status));
    UpsertAlike(a.payments, b.payments, n, now, later);
    if AmountsFit(n) {
      var x := a.(payments := a.payments[n.hash := UpsertedPayment(a.payments, n, Some(now), now)]);
      var y := b.(payments := b.payments[n.hash := UpsertedPayment(b.payments, n, Some(later), later)]);
      SwapAlike(x, y, n.hash, p.status, now, later);
    }
  }

  lemma {:induction false} PollAllAlike(a: Db, b: Db, baseline: Option<int>, listing: seq<NewPayment>, now: int,
                                        later: int)
    requires Same(a, b)
    ensures PollAll(a, baseline, listing, now).ok == PollAll(b, baseline, listing, later).ok
    ensures Same(PollAll(a, baseline, listing, now).db, PollAll(b, baseline, listing, later).db)
  {
    if listing != [] {
      hide Same, PollOne;
      var front, p := listing[..|listing| - 1], listing[|listing| - 1];
      PollAllAlike(a, b, baseline, front, now, later);
      PollOneAlike(PollAll(a, baseline, front, now).db, PollAll(b, baseline, front, later).db, baseline, p, now, later);
    }
  }

  lemma {:induction false} PollAllConcat(db: Db, baseline: Option<int>, a: seq<NewPayment>, b: seq<NewPayment>,
                                         now: int)
    ensures var r := PollAll(db, baseline, a, now);
            PollAll(db, baseline, a + b, now) == if r.ok then PollAll(r.db, baseline, b, now) else r
  {
    if b == [] {
      assert a + b == a;
    } else {
      assert (a + b)[..|a + b| - 1] == a + b[..|b| - 1];
      PollAllConcat(db, baseline, a, b[..|b| - 1], now);
    }
  }

  /** A turn's upsert, when its swap never ran. */
  function HalfPolled(db: Db, baseline: Option<int>, p: NewPayment, now: int): Outcome {
    var n := p.(status := InsertStatus(baseline, p.status));
    var u := UpsertPayment(db.payments, n, Some(now), now);
    if u.Err? then Outcome(db, false) else Outcome(db.(payments := u.value), true)
  }

  /** Where a poll that has taken up `seen` stands when it stops: after its last entry, or halfway
      through it, between the upsert and the swap. The baseline is as the poll found it. */
  function Stopped(db: Db, baseline: Option<int>, seen: seq<NewPayment>, half: bool, now: int): Outcome {
    if !half || seen == [] then PollAll(db, baseline, seen, now) else
    var r := PollAll(db, baseline, seen[..|seen| - 1], now);
    if !r.ok then r else HalfPolled(r.db, baseline, seen[|seen| - 1], now)
  }

  lemma StoppedAfter(db: Db, baseline: Option<int>, seen: seq<NewPayment>, now: int)
    ensures Stopped(db, baseline, seen, false, now) == PollAll(db, baseline, seen, now)
  {
  }

  lemma StoppedNowhere(db: Db, baseline: Option<int>, now: int)
    ensures Stopped(db, baseline, [], false, now) == Outcome(db, true)
  {
  }

  lemma StoppedKeepsBaseline(db: Db, baseline: Option<int>, seen: seq<NewPayment>, half: bool, now: int)
    ensures Stopped(db, baseline, seen, half, now).db.baseline == db.baseline
  {
    PollKeepsBaseline(db, baseline, seen, now);
    if half && seen != [] {
      PollKeepsBaseline(db, baseline, seen[..|seen| - 1], now);
    }
  }

  /** Halfway through the n-th entry of a listing. */
  lemma StoppedHalfway(db: Db, baseline: Option<int>, listing: seq<NewPayment>, n: nat, now: int)
    requires n < |listing| && PollAll(db, baseline, listing[..n], now).ok
    ensures Stopped(db, baseline, listing[..n + 1], true, now)
            == HalfPolled(PollAll(db, baseline, listing[..n], now).db, baseline, listing[n], now)
  {
    assert listing[..n + 1][..n] == listing[..n];
  }

  /** The entries it has finished with. */
  function Finished(seen: seq<NewPayment>, half: bool): seq<NewPayment> {
    if !half || seen == [] then seen else seen[..|seen| - 1]
  }

  lemma UpsertsAgain(row: Payment, again: map<string, Payment>, n: NewPayment, d: Digest, was: map<string, Payment>,
                     first: int, second: int)
    requires row == UpsertedPayment(was, n, Some(first), first)
    requires if n.hash in was then Absorb(was[n.hash], d) == was[n.hash] else d == Digest(None, None, None, None, None)
    requires n.hash in again && Timeless(again[n.hash]) == Timeless(Absorb(row, d))
    ensures Timeless(UpsertedPayment(again, n, Some(second), second)) == Timeless(row)
  {
    var r := again[n.hash];
    assert Timeless(r).assetId == r.assetId && Timeless(r).assetAmount == r.assetAmount;
    assert Timeless(r).amtMsat == r.amtMsat && Timeless(r).payeePubkey == r.payeePubkey;
    assert Timeless(r).status == r.status;
  }

  /** Polling the listing again from halfway through an entry passes that point as it was. */
  lemma HalfUpserts(d: Db, baseline: Option<int>, part: seq<NewPayment>, p: NewPayment, first: int, second: int)
    requires Reflects(d.payments, part) && Quiet(d.payments, part) && AmountsFit(p)
    ensures var half := HalfPolled(d, baseline, p, first).db;
            var again := PollAll(half, baseline, part, second);
            again.ok && Same(HalfPolled(again.db, baseline, p, second).db, half)
  {
    hide Reflects, Quiet, Replayed, PollAll, UpsertPayment, UpsertedPayment, Same;
    var half := HalfPolled(d, baseline, p, first).db;
    HalfQuiet(d, baseline, part, p, first);
    QuietPass(half, baseline, part, second);
    HalfReplayed(d, baseline, part, p, first, second, PollAll(half, baseline, part, second).db);
  }

  lemma HalfQuiet(d: Db, baseline: Option<int>, part: seq<NewPayment>, p: NewPayment, now: int)
    requires Reflects(d.payments, part) && Quiet(d.payments, part) && AmountsFit(p)
    ensures Quiet(HalfPolled(d, baseline, p, now).db.payments, part)
    ensures forall i :: 0 <= i < |part| ==> AmountsFit(part[i])
  {
  }

  lemma HalfReplayed(d: Db, baseline: Option<int>, part: seq<NewPayment>, p: NewPayment, first: int, second: int,
                     again: Db)
    requires Reflects(d.payments, part) && AmountsFit(p)
    requires Replayed(HalfPolled(d, baseline, p, first).db, again, part)
    ensures Same(HalfPolled(again, baseline, p, second).db, HalfPolled(d, baseline, p, first).db)
  {
    var n := p.(status := InsertStatus(baseline, p.status));
    var half := HalfPolled(d, baseline, p, first).db;
    if p.hash !in d.payments {
      UnlistedDigest(part, p.hash);
    }
    UpsertsAgain(half.payments[p.hash], again.payments, n, DigestOf(part, p.hash), d.payments, first, second);
    OthersReplayed(d.payments, part, half.payments, again.payments, p.hash);
  }

  lemma OthersReplayed(was: map<string, Payment>, part: seq<NewPayment>, half: map<string, Payment>,
                       again: map<string, Payment>, hash: string)
    requires Reflects(was, part) && again.Keys == half.Keys == was.Keys + {hash}
    requires forall h :: h in was && h != hash ==> half[h] == was[h]
    requires forall h :: h in half ==> Timeless(again[h]) == Timeless(Absorb(half[h], DigestOf(part, h)))
    ensures forall h :: h in half && h != hash ==> Timeless(again[h]) == Timeless(half[h])
  {
    forall h | h in half && h != hash ensures Timeless(again[h]) == Timeless(half[h]) {
      assert Absorb(was[h], DigestOf(part, h)) == was[h];
    }
  }

  lemma HalfResumes(d: Db, baseline: Option<int>, part: seq<NewPayment>, p: NewPayment, first: int, second: int)
    requires Reflects(d.payments, part) && Quiet(d.payments, part) && AmountsFit(p)
    ensures var again := PollAll(HalfPolled(d, baseline, p, first).db, baseline, part + [p], second);
            again.ok && PollOne(d, baseline, p, first).ok && Same(again.db, PollOne(d, baseline, p, first).db)
  {
    HalfUpserts(d, baseline, part, p, first, second);
    var half := HalfPolled(d, baseline, p, first).db;
    var again := PollAll(half, baseline, part, second).db;
    assert (part + [p])[..|part|] == part;
    assert PollAll(half, baseline, part + [p], second) == PollOne(again, baseline, p, second);
    SwapAlike(HalfPolled(again, baseline, p, second).db, half, p.hash, p.status, second, first);
  }

  lemma FinishedOk(db: Db, baseline: Option<int>, seen: seq<NewPayment>, half: bool, now: int)
    requires Stopped(db, baseline, seen, half, now).ok
    ensures PollAll(db, baseline, Finished(seen, half), now).ok
  {
  }

  lemma SeenAgain(db: Db, baseline: Option<int>, seen: seq<NewPayment>, half: bool, first: int, second: int)
    requires Stopped(db, baseline, seen, half, first).ok
    requires var done := Finished(seen, half); Quiet(PollAll(db, baseline, done, first).db.payments, done)
    ensures var again := PollAll(Stopped(db, baseline, seen, half, first).db, baseline, seen, second);
            var straight := PollAll(db, baseline, seen, first);
            again.ok && straight.ok && Same(again.db, straight.db)
  {
    hide Same, PollOne, Reflects, Quiet, Replayed;
    var done := Finished(seen, half);
    PollReflects(db, baseline, done, first);
    var d := PollAll(db, baseline, done, first).db;
    if half && seen != [] {
      var p := seen[|seen| - 1];
      HalfResumes(d, baseline, done, p, first, second);
      assert done + [p] == seen;
    } else {
      FinishedAgain(d, baseline, seen, second);
    }
  }

  lemma FinishedAgain(d: Db, baseline: Option<int>, seen: seq<NewPayment>, now: int)
    requires Reflects(d.payments, seen) && Quiet(d.payments, seen)
    ensures var again := PollAll(d, baseline, seen, now);
            again.ok && Same(again.db, d)
  {
    QuietPass(d, baseline, seen, now);
    ReplayedSame(d, PollAll(d, baseline, seen, now).db, seen);
  }

  /** A poll that stopped anywhere - after an entry or between an entry's upsert and its swap, on an
      error or a crash - and is run again ends where one uninterrupted poll would have, up to
      timestamps, unless an entry it had finished with would move its hash again, and only then if
      nothing was left; what is finished with one status for each hash never does. */
  lemma PollResumes(db: Db, baseline: Option<int>, seen: seq<NewPayment>, half: bool, rest: seq<NewPayment>,
                    first: int, second: int, once: int)
    requires Stopped(db, baseline, seen, half, first).ok
    ensures var done := Finished(seen, half);
            OneStatusEach(done) ==> Quiet(PollAll(db, baseline, done, first).db.payments, done)
    ensures var done := Finished(seen, half);
            var resumed := PollAll(Stopped(db, baseline, seen, half, first).db, baseline, seen + rest, second);
            var straight := PollAll(db, baseline, seen + rest, once);
            Quiet(PollAll(db, baseline, done, first).db.payments, done) ==>
              resumed.ok == straight.ok && Same(resumed.db, straight.db)
    ensures !half ==>
              var resumed := PollAll(PollAll(db, baseline, seen, first).db, baseline, seen, second);
              var straight := PollAll(db, baseline, seen, once);
              Same(resumed.db, straight.db) <==> Quiet(PollAll(db, baseline, seen, first).db.payments, seen)
  {
    hide Quiet, Stopped, PollAll, OneStatusEach, Same;
    var d := Stopped(db, baseline, seen, half, first).db;
    var done := Finished(seen, half);
    FinishedOk(db, baseline, seen, half, first);
    if OneStatusEach(done) {
      OneStatusIsQuiet(db, baseline, done, first);
    }
    if Quiet(PollAll(db, baseline, done, first).db.payments, done) {
      SeenAgain(db, baseline, seen, half, first, second);
      GoesOn(db, d, baseline, seen, rest, first, second, once);
    }
    if !half {
      FinishedOnly(db, baseline, seen, first, second, once);
    }
  }

  /** With nothing left to poll, the second poll ends where an uninterrupted one does only if no entry
      would move its hash again. */
  lemma FinishedOnly(db: Db, baseline: Option<int>, seen: seq<NewPayment>, first: int, second: int, once: int)
    requires PollAll(db, baseline, seen, first).ok
    ensures var d, straight := PollAll(db, baseline, seen, first).db, PollAll(db, baseline, seen, once).db;
            Same(PollAll(d, baseline, seen, second).db, straight) <==> Quiet(d.payments, seen)
  {
    hide PollAll, Quiet, PollOne;
    var d, straight := PollAll(db, baseline, seen, first).db, PollAll(db, baseline, seen, once).db;
    var again := PollAll(d, baseline, seen, second).db;
    SameItself(db);
    PollAllAlike(db, db, baseline, seen, first, once);
    PollAllAlike(db, db, baseline, seen, once, first);
    PollIsIdempotent(db, baseline, baseline, seen, first, second);
    if Quiet(d.payments, seen) {
      PollReflects(db, baseline, seen, first);
      FinishedAgain(d, baseline, seen, second);
      SameTransitive(again, d, straight);
    }
    if Same(again, straight) {
      SameTransitive(again, straight, d);
      SameHasStatuses(again.payments, d.payments);
    }
  }

  lemma SameItself(a: Db)
    ensures Same(a, a)
  {
  }

  /** Past what it had seen, the second poll goes on as the uninterrupted one does. */
  lemma GoesOn(db: Db, d: Db, baseline: Option<int>, seen: seq<NewPayment>, rest: seq<NewPayment>,
               first: int, second: int, once: int)
    requires PollAll(d, baseline, seen, second).ok && PollAll(db, baseline, seen, first).ok
    requires Same(PollAll(d, baseline, seen, second).db, PollAll(db, baseline, seen, first).db)
    ensures PollAll(d, baseline, seen + rest, second).ok == PollAll(db, baseline, seen + rest, once).ok
    ensures Same(PollAll(d, baseline, seen + rest, second).db, PollAll(db, baseline, seen + rest, once).db)
  {
    hide Same, PollOne, PollAll;
    PollAllConcat(d, baseline, seen, rest, second);
    var again := PollAll(d, baseline, seen, second).db;
    SameItself(db);
    PollAllAlike(db, db, baseline, seen, first, once);
    PollAllConcat(db, baseline, seen, rest, once);
    var straight := PollAll(db, baseline, seen, once).db;
    SameTransitive(again, PollAll(db, baseline, seen, first).db, straight);
    PollAllAlike(again, straight, baseline, rest, second, once);
  }

  lemma SameTransitive(a: Db, b: Db, c: Db)
    requires Same(a, b) && Same(b, c)
    ensures Same(a, c)
  {
    forall i | 0 <= i < |a.outbox| ensures TimelessEvent(a.outbox[i]) == TimelessEvent(c.outbox[i]) {
      assert TimelessEvent(a.outbox[i]) == TimelessEvent(b.outbox[i]);
    }
    forall h | h in a.payments ensures Timeless(a.payments[h]) == Timeless(c.payments[h]) {
      assert Timeless(a.payments[h]) == Timeless(b.payments[h]);
    }
  }

  lemma PollPair(db: Db, baseline: Option<int>, p: NewPayment, q: NewPayment, now: int)
    ensures var r := PollOne(db, baseline, p, now);
            PollAll(db, baseline, [p, q], now) == if r.ok then PollOne(r.db, baseline, q, now) else r
  {
    assert [p, q][..1] == [p] && [p][..0] == [];
    assert PollAll(db, baseline, [p][..0], now) == Outcome(db, true);
    assert PollAll(db, baseline, [p], now) == PollOne(db, baseline, p, now);
  }
}
