/** The payments poll, run without the mutex beside the `/keysend` and `/sendpayment` hooks. */
module PaymentLoop {
  import opened Base
  import opened Status
  import opened Tables
  import opened System
  import opened Invariants
  import opened PaymentLaws
  import opened StoreModel
  import opened SyncLoop
  import PaymentListing
  import Rln

  datatype PaymentSyncReport = PaymentSyncReport(payments: nat, transitions: nat)

  /** Between two snapshots some payment's status changed. */
  predicate PaymentMoved(a: Db, b: Db) {
    exists h :: h in a.payments && Seen(b, h) != Seen(a, h)
  }

  /** How many swaps of the poll, from the n-th action on, changed a status. */
  ghost function PolledMoves(maxAttempts: nat, t: seq<Action>, n: nat): nat
    requires Legal(maxAttempts, t)
    decreases |t|
  {
    if |t| <= n then 0 else
    var r := t[..|t| - 1];
    PolledMoves(maxAttempts, r, n)
    + (if t[|t| - 1].PollSwap? && PaymentMoved(After(maxAttempts, r).db, After(maxAttempts, t).db) then 1 else 0)
  }

  lemma NothingPolled(maxAttempts: nat, t: seq<Action>)
    requires Legal(maxAttempts, t)
    ensures PolledMoves(maxAttempts, t, |t|) == 0
  {
  }

  lemma PolledMore(maxAttempts: nat, t: seq<Action>, a: Action, n: nat)
    requires Legal(maxAttempts, t) && Enabled(After(maxAttempts, t), a) && n <= |t|
    ensures Legal(maxAttempts, t + [a])
    ensures PolledMoves(maxAttempts, t + [a], n)
            == PolledMoves(maxAttempts, t, n)
               + (if a.PollSwap? && PaymentMoved(After(maxAttempts, t).db, Apply(After(maxAttempts, t), a).db)
                  then 1 else 0)
  {
    assert (t + [a])[..|t|] == t;
  }

  lemma PollSwapMoves(s: Sys, now: int)
    requires Enabled(s, PollSwap(now))
    ensures var r := s.poll.value.read.value;
            PaymentMoved(s.db, Apply(s, PollSwap(now)).db) <==> PaymentApplies(s.db, r.hash, r.row, r.observed)
  {
    var r := s.poll.value.read.value;
    var b := Apply(s, PollSwap(now)).db;
    if PaymentApplies(s.db, r.hash, r.row, r.observed) {
      assert Seen(b, r.hash) != Seen(s.db, r.hash);
    }
  }

  /** Others cannot touch the poll or the baseline. */
  lemma ForeignPollStep(s: Sys, a: Action)
    requires Enabled(s, a) && !Own(a, PollTask) && !a.Crash?
    ensures Apply(s, a).poll == s.poll && Apply(s, a).db.baseline == s.db.baseline
  {
  }

  lemma {:induction false} ForeignPoll(maxAttempts: nat, t: seq<Action>, u: seq<Action>, n: nat)
    requires Legal(maxAttempts, t) && Legal(maxAttempts, u) && t <= u && n <= |t|
    requires Foreign(u[|t|..], PollTask)
    ensures After(maxAttempts, u).poll == After(maxAttempts, t).poll
    ensures After(maxAttempts, u).db.baseline == After(maxAttempts, t).db.baseline
    ensures PolledMoves(maxAttempts, u, n) == PolledMoves(maxAttempts, t, n)
    decreases |u|
  {
    hide Apply, Enabled;
    if t != u {
      var r, a := u[..|u| - 1], u[|u| - 1];
      assert u[|t|..][..|r| - |t|] == r[|t|..] && u[|t|..][|r| - |t|] == a;
      ForeignPoll(maxAttempts, t, r, n);
      ForeignPollStep(After(maxAttempts, r), a);
      assert r + [a] == u;
      PolledMore(maxAttempts, r, a, n);
    }
  }

  function DirectionOf(t: Rln.RlnPaymentType): Direction {
    if t.OutboundPayment? then Outbound else Inbound
  }

  function AsPayment(p: Rln.RlnPayment): NewPayment {
    NewPayment(p.paymentHash, DirectionOf(p.paymentType), p.status, p.assetId, p.assetAmount, p.amtMsat,
               Some(p.payeePubkey))
  }

  function AsPayments(ps: seq<Rln.RlnPayment>): seq<NewPayment> {
    seq(|ps|, i requires 0 <= i < |ps| => AsPayment(ps[i]))
  }

  predicate DistinctEntries(entries: seq<Rln.RlnPayment>) {
    forall i, j :: 0 <= i < j < |entries| ==> entries[i].paymentHash != entries[j].paymentHash
  }

  /** The row of an entry's hash shows what the entry knows, column by column. */
  predicate ShowsEntry(payments: map<string, Payment>, e: Rln.RlnPayment) {
    && e.paymentHash in payments
    && var row := payments[e.paymentHash];
       && (row.direction == Outbound <==> e.paymentType == Rln.OutboundPayment)
       && row.payeePubkey == Some(e.payeePubkey)
       && (e.assetId.Some? ==> row.assetId == e.assetId)
       && (e.assetAmount.Some? ==> row.assetAmount == e.assetAmount)
       && (e.amtMsat.Some? ==> row.amtMsat == e.amtMsat)
       && (|| row.status == e.status || row.status == Succeeded
           || (row.status in {PaymentFailed, Cancelled} && e.status != Pending)
           || (row.status == Claimable && e.status == Pending)
           || (row.status == Claiming && e.status in {Pending, Claimable}))
  }

  /** A poll that went through distinct hashes shows every entry. */
  lemma PollShows(db: Db, baseline: Option<int>, entries: seq<Rln.RlnPayment>, now: int)
    requires DistinctEntries(entries) && PaymentListing.PollAll(db, baseline, AsPayments(entries), now).ok
    ensures forall i :: 0 <= i < |entries| ==>
              ShowsEntry(PaymentListing.PollAll(db, baseline, AsPayments(entries), now).db.payments, entries[i])
  {
    hide PaymentListing.PollAll;
    var listing := AsPayments(entries);
    assert PaymentListing.DistinctHashes(listing) by {
      forall i, j | 0 <= i < j < |listing| ensures listing[i].hash != listing[j].hash {
        assert entries[i].paymentHash != entries[j].paymentHash;
      }
    }
    PaymentListing.PollMirrors(db, baseline, listing, now);
    var after := PaymentListing.PollAll(db, baseline, listing, now).db.payments;
    forall i | 0 <= i < |entries| ensures ShowsEntry(after, entries[i]) {
      assert PaymentListing.Shows(after, listing[i]);
    }
  }

  /** `apply_payment_observed`, by the poll: true exactly when its swap changed the status, which a
      hook may have prevented since the row was read. */
  method ApplyPolled(store: Store, read: PaymentRead, now: int, ghost n: nat) returns (r: Result<bool, StoreError>)
    requires store.Valid() && n <= |store.trace|
    requires store.State().poll.Some? && store.State().poll.value.read == Some(read)
    modifies store
    ensures store.Valid() && old(store.trace) <= store.trace
    ensures store.baseline == old(store.baseline)
    ensures r.Err? ==> !store.healthy && store.State().poll == old(store.State()).poll
                       && store.Mirror() == old(store.Mirror())
    ensures r.Ok? ==>
              && store.State().poll == Some(Poll(old(store.State()).poll.value.baseline, None))
              && r.value == PaymentApplies(old(store.Mirror()), read.hash, read.row, read.observed)
              && PolledMoves(store.maxAttempts, store.trace, n)
                 == PolledMoves(store.maxAttempts, old(store.trace), n) + (if r.value then 1 else 0)
              && store.Mirror() == ApplyPaymentObserved(old(store.Mirror()), read.hash, read.row, read.observed, now)
  {
    ghost var s, t := store.State(), store.trace;
    PollSwapMoves(s, now);
    PolledMore(store.maxAttempts, t, PollSwap(now), n);
    var plan := PlanPayment(read.row.status, read.observed);
    if plan.None? {
      store.SkipPolled(now);
      return Ok(false);
    }
    var payload := PaymentEventPayload(read.hash, read.row, plan.value, now);
    r := store.ApplyPolledTransition(read, plan.value, payload, now);
  }

  /** The loop body: upsert under the baseline rule, then plan and swap, with everyone else running
      before each of the two. */
  method PollOne(store: Store, p: NewPayment, baseline: Option<int>, now: int, ghost n: nat)
    returns (r: Result<bool, StoreError>, ghost half: bool)
    requires store.Valid() && n <= |store.trace|
    requires store.State().poll == Some(Poll(baseline, None))
    modifies store
    ensures store.Valid() && old(store.trace) <= store.trace
    ensures store.baseline == old(store.baseline)
    ensures r.Ok? ==> store.State().poll == Some(Poll(baseline, None))
                      && PolledMoves(store.maxAttempts, store.trace, n)
                         == PolledMoves(store.maxAttempts, old(store.trace), n) + (if r.value then 1 else 0)
    ensures store.alone && store.healthy ==>
              PaymentListing.PollOne(old(store.Mirror()), baseline, p, now)
              == PaymentListing.Outcome(store.Mirror(), r.Ok?)
    ensures r.Ok? ==> !half
    ensures store.alone ==>
              PaymentListing.Outcome(store.Mirror(), true)
              == if r.Ok? then PaymentListing.PollOne(old(store.Mirror()), baseline, p, now)
                 else if half then PaymentListing.HalfPolled(old(store.Mirror()), baseline, p, now)
                 else PaymentListing.Outcome(old(store.Mirror()), true)
  {
    hide Legal, After, PolledMoves;
    half := false;
    ghost var before := store.trace;
    store.Others(PollTask);
    ForeignPoll(store.maxAttempts, before, store.trace, n);
    var insert := p.(status := InsertStatus(baseline, p.status));
    PolledMore(store.maxAttempts, store.trace, PollUpsert(p, now), n);
    var read :- store.UpsertPaymentObserved(p, insert, now);
    ghost var t := store.trace;
    store.Others(PollTask);
    ForeignPoll(store.maxAttempts, t, store.trace, n);
    r := ApplyPolled(store, read, now, n);
    half := r.Err?;
  }

  /** The loop over one fetched listing. */
  method PollListing(store: Store, listing: seq<NewPayment>, baseline: Option<int>, now: int, ghost n: nat)
    returns (r: Result<PaymentSyncReport, StoreError>, ghost seen: seq<NewPayment>, ghost half: bool)
    requires store.Valid() && n <= |store.trace| && store.State().poll == Some(Poll(baseline, None))
    modifies store
    ensures store.Valid() && old(store.trace) <= store.trace && store.baseline == old(store.baseline)
    ensures r.Ok? ==>
              && store.State().poll == Some(Poll(baseline, None)) && r.value.payments == |listing|
              && PolledMoves(store.maxAttempts, store.trace, n)
                 == PolledMoves(store.maxAttempts, old(store.trace), n) + r.value.transitions
    ensures store.alone && store.healthy ==>
              PaymentListing.PollAll(old(store.Mirror()), baseline, listing, now)
              == PaymentListing.Outcome(store.Mirror(), r.Ok?)
    ensures seen <= listing && (r.Ok? ==> seen == listing && !half)
    ensures store.alone ==>
              PaymentListing.Stopped(old(store.Mirror()), baseline, seen, half, now)
              == PaymentListing.Outcome(store.Mirror(), true)
  {
    hide Legal, After, PolledMoves, PaymentListing.PollAll, PaymentListing.PollOne, PaymentListing.HalfPolled;
    seen, half := [], false;
    var report := PaymentSyncReport(0, 0);
    ghost var mirror := store.Mirror();
    PaymentListing.PollNothing(mirror, baseline, now);
    assert listing[..0] == [];
    for i := 0 to |listing|
      invariant store.Valid() && old(store.trace) <= store.trace && store.baseline == old(store.baseline)
      invariant store.State().poll == Some(Poll(baseline, None)) && report.payments == i
      invariant PolledMoves(store.maxAttempts, store.trace, n)
                == PolledMoves(store.maxAttempts, old(store.trace), n) + report.transitions
      invariant seen == listing[..i] && !half
      invariant store.alone ==>
                  PaymentListing.PollAll(mirror, baseline, listing[..i], now)
                  == PaymentListing.Outcome(store.Mirror(), true)
    {
      PaymentListing.PollNext(mirror, baseline, listing, i, now);
      var moved;
      moved, half := PollOne(store, listing[i], baseline, now, n);
      if moved.Err? {
        if store.alone && half {
          seen := listing[..i + 1];
          PaymentListing.StoppedHalfway(mirror, baseline, listing, i, now);
        } else {
          half := false;
        }
        if store.alone && store.healthy {
          PaymentListing.FailsAfter(mirror, baseline, listing, i + 1, now);
        }
        return Err(moved.error), seen, half;
      }
      seen := listing[..i + 1];
      report := PaymentSyncReport(report.payments + 1, report.transitions + (if moved.value then 1 else 0));
    }
    assert listing[..|listing|] == listing;
    return Ok(report), seen, half;
  }

  /** The poll reads the baseline. */
  method BeginPoll(store: Store, ghost n: nat) returns (r: Result<Option<int>, StoreError>)
    requires store.Valid() && store.State().poll.None? && n <= |store.trace|
    modifies store`trace
    ensures store.Valid() && old(store.trace) <= store.trace
    ensures store.healthy ==> r.Ok?
    ensures r.Err? ==> store.State().poll.None?
    ensures r.Ok? ==> r.value == store.baseline && store.State().poll == Some(Poll(r.value, None))
                      && PolledMoves(store.maxAttempts, store.trace, n)
                         == PolledMoves(store.maxAttempts, old(store.trace), n)
  {
    PolledMore(store.maxAttempts, store.trace, PollStart, n);
    r := store.StartPoll();
  }

  /** A poll that has gone through its listing sets the baseline if it found none. */
  method FinishPoll(store: Store, found: Option<int>, now: int, ghost n: nat) returns (r: Result<(), StoreError>)
    requires store.Valid() && store.State().poll == Some(Poll(found, None)) && n <= |store.trace|
    modifies store`baseline, store`trace
    ensures store.Valid() && old(store.trace) <= store.trace
    ensures store.healthy ==> r.Ok?
    ensures r.Err? ==> store.baseline == old(store.baseline)
    ensures r.Ok? ==> store.baseline == (if found.None? then Some(now) else old(store.baseline))
                      && store.State().poll.None?
                      && PolledMoves(store.maxAttempts, store.trace, n)
                         == PolledMoves(store.maxAttempts, old(store.trace), n)
  {
    PolledMore(store.maxAttempts, store.trace, PollEnd(now), n);
    r := store.EndPoll(found, now);
  }

  /** What `sync_payments` does with the listing it has fetched. */
  method PollFetched(store: Store, listing: seq<NewPayment>, now: int, ghost n: nat)
    returns (r: Result<PaymentSyncReport, StoreError>, ghost seen: seq<NewPayment>, ghost half: bool)
    requires store.Valid() && n <= |store.trace| && store.State().poll.None?
    modifies store
    ensures store.Valid() && old(store.trace) <= store.trace && store.State().poll.None?
    ensures r.Ok? ==> store.baseline.Some? && r.value.payments == |listing|
                      && PolledMoves(store.maxAttempts, store.trace, n)
                         == PolledMoves(store.maxAttempts, old(store.trace), n) + r.value.transitions
    ensures store.baseline == old(store.baseline) || (r.Ok? && old(store.baseline).None? && store.baseline == Some(now))
    ensures store.alone && store.healthy ==>
              var run := PaymentListing.PollAll(old(store.Mirror()), old(store.baseline), listing, now);
              r.Ok? == run.ok && store.Mirror() == run.db.(baseline := store.baseline)
    ensures seen <= listing && (r.Ok? ==> seen == listing && !half)
    ensures store.alone ==>
              var run := PaymentListing.Stopped(old(store.Mirror()), old(store.baseline), seen, half, now);
              run.ok && store.Mirror() == run.db.(baseline := store.baseline)
  {
    hide Legal, After, Apply, Enabled, PolledMoves, PaymentListing.PollAll, PaymentListing.Stopped;
    seen, half := [], false;
    ghost var mirror := store.Mirror();
    PaymentListing.StoppedNowhere(mirror, store.baseline, now);
    var started := BeginPoll(store, n);
    if started.Err? {
      return Err(started.error), seen, half;
    }
    var baseline := started.value;
    r, seen, half := PollListing(store, listing, baseline, now, n);
    PaymentListing.StoppedKeepsBaseline(mirror, baseline, seen, half, now);
    PaymentListing.PollKeepsBaseline(mirror, baseline, listing, now);
    if r.Ok? {
      var ended := FinishPoll(store, baseline, now, n);
      if ended.Err? {
        r := Err(ended.error);
      }
    }
    if r.Err? {
      AbandonPoll(store);
    }
  }

  /** `sync_payments`. Whatever hooks run beside it, its report counts exactly the statuses its own
      swaps changed, and the baseline is set once it has succeeded and not before; run alone it is
      the fold of `PaymentListing` over what the node has answered, up to where it stopped. */
  method SyncPayments(store: Store, node: Rln.Node, now: int)
    returns (r: Result<PaymentSyncReport, SyncError>, ghost seen: seq<NewPayment>, ghost half: bool)
    requires store.Valid() && store.State().poll.None?
    modifies store, node`polled
    ensures store.Valid() && old(store.trace) <= store.trace && store.State().poll.None?
    ensures r.Ok? ==> store.baseline.Some?
                      && r.value.transitions == PolledMoves(store.maxAttempts, store.trace, |old(store.trace)|)
                      && (node.calm ==> r.value.payments == |node.payments|)
    ensures store.baseline == old(store.baseline) || (r.Ok? && old(store.baseline).None? && store.baseline == Some(now))
    ensures store.alone && store.healthy && node.calm ==>
              var listing := AsPayments(node.payments);
              var run := PaymentListing.PollAll(old(store.Mirror()), old(store.baseline), listing, now);
              r.Ok? == run.ok && store.Mirror() == run.db.(baseline := store.baseline)
    ensures seen <= AsPayments(node.polled) && (r.Ok? ==> seen == AsPayments(node.polled) && !half)
    ensures store.alone && r.Ok? && DistinctEntries(node.polled) ==>
              forall i :: 0 <= i < |node.polled| ==> ShowsEntry(store.payments, node.polled[i])
    ensures store.alone ==>
              var run := PaymentListing.Stopped(old(store.Mirror()), old(store.baseline), seen, half, now);
              run.ok && store.Mirror() == run.db.(baseline := store.baseline)
  {
    hide Legal, After, Apply, Enabled, PolledMoves, PaymentListing.PollAll, PaymentListing.Stopped, AsPayment;
    hide ShowsEntry, DistinctEntries;
    seen, half := [], false;
    ghost var mirror, baseline := store.Mirror(), store.baseline;
    PaymentListing.StoppedNowhere(mirror, baseline, now);
    ghost var n := |store.trace|;
    NothingPolled(store.maxAttempts, store.trace);
    var payments := node.ListPayments();
    ghost var t := store.trace;
    store.Others(PollTask);
    ForeignPoll(store.maxAttempts, t, store.trace, n);
    if payments.Err? {
      return Err(FromRln(payments.error)), seen, half;
    }
    var polled;
    polled, seen, half := PollFetched(store, AsPayments(payments.value), now, n);
    if polled.Ok? && store.alone && DistinctEntries(node.polled) {
      PaymentListing.StoppedAfter(mirror, baseline, seen, now);
      PollShows(mirror, baseline, node.polled, now);
    }
    return if polled.Err? then Err(FromStore(polled.error)) else Ok(polled.value), seen, half;
  }

  ghost method AbandonPoll(store: Store)
    requires store.Valid()
    modifies store`trace
    ensures store.Valid() && old(store.trace) <= store.trace && store.State().poll.None?
  {
    if store.State().poll.Some? {
      store.DropPoll();
    }
  }
}
