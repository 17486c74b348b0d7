/** What a poll tells, and in particular what the first one does, which is meant to tell nothing. */
module Backfill {
  import opened Base
  import opened Status
  import opened Tables
  import opened System
  import opened PaymentLaws
  import opened PaymentListing

  /** A hash the poll sees for the first time ends at the status listed, and is told if and only if it
      has already ended and the baseline has been set. */
  lemma FirstSeen(db: Db, baseline: Option<int>, p: NewPayment, now: int)
    requires p.hash !in db.payments && AmountsFit(p)
    ensures var r := PollOne(db, baseline, p, now);
            && r.ok && Seen(r.db, p.hash) == Some(p.status)
            && EventsAbout(r.db.outbox, p.hash)
               == EventsAbout(db.outbox, p.hash) + (if baseline.Some? && p.status.Terminal() then 1 else 0)
            && (r.db.outbox == db.outbox <==> !(baseline.Some? && p.status.Terminal()))
  {
    var b := PollOne(db, baseline, p, now).db;
    if |b.outbox| > |db.outbox| {
      assert b.outbox[..|b.outbox| - 1] == db.outbox;
    }
  }

  // ------------------------------------------------------------- which polls are silent

  function Stored(payments: map<string, Payment>, hash: string): seq<PaymentStatus> {
    if hash in payments then [payments[hash].status] else []
  }

  /** The statuses a hash has been known by: the stored one, then those listed. */
  function Story(payments: map<string, Payment>, listing: seq<NewPayment>, hash: string): seq<PaymentStatus> {
    if listing == [] then Stored(payments, hash) else
    var p := listing[|listing| - 1];
    Story(payments, listing[..|listing| - 1], hash) + (if p.hash == hash then [p.status] else [])
  }

  /** A hash with this story is live: it began so, or failed and was retried. */
  predicate Live(story: seq<PaymentStatus>) {
    story != [] && (!story[0].Terminal() || (story[0] != Succeeded && Pending in story))
  }

  /** The poll gets as far as the i-th entry, and it ends a hash that is live by then or, once the
      baseline is set, one that nobody had known. */
  predicate Tells(payments: map<string, Payment>, baseline: Option<int>, listing: seq<NewPayment>, i: nat)
    requires i < |listing|
  {
    var p, story := listing[i], Story(payments, listing[..i], listing[i].hash);
    && (forall k :: 0 <= k <= i ==> AmountsFit(listing[k]))
    && p.status.Terminal() && (Live(story) || (story == [] && baseline.Some?))
  }

  predicate TellsNothing(payments: map<string, Payment>, baseline: Option<int>, listing: seq<NewPayment>) {
    forall i :: 0 <= i < |listing| ==> !Tells(payments, baseline, listing, i)
  }

  /** What the mirror shows of a hash with this story, while nothing has been told. */
  predicate Fits(story: seq<PaymentStatus>, seen: Option<PaymentStatus>) {
    && (seen.None? <==> story == [])
    && (seen.Some? ==> (seen.value.Terminal() <==> !Live(story)) && (seen.value.Terminal() ==> seen.value == story[0]))
  }

  ghost predicate AllFit(payments: map<string, Payment>, listing: seq<NewPayment>, d: Db) {
    forall h :: Fits(Story(payments, listing, h), Seen(d, h))
  }

  /** The status a turn of the poll leads to. */
  function Settle(seen: Option<PaymentStatus>, listed: PaymentStatus): PaymentStatus {
    if seen.None? then listed else
    var plan := PlanPayment(seen.value, listed);
    if plan.Some? then plan.value.to else seen.value
  }

  /** One turn: what it makes of every status, and exactly when it tells. */
  lemma PollOneTells(d: Db, baseline: Option<int>, p: NewPayment, now: int)
    requires AmountsFit(p)
    ensures var r, seen := PollOne(d, baseline, p, now), Seen(d, p.hash);
            && r.ok && d.outbox <= r.db.outbox
            && (r.db.outbox == d.outbox <==>
                  !(p.status.Terminal() && if seen.None? then baseline.Some? else !seen.value.Terminal()))
            && Seen(r.db, p.hash) == Some(Settle(seen, p.status))
            && forall h :: h != p.hash ==> Seen(r.db, h) == Seen(d, h)
  {
  }

  lemma FitsMore(story: seq<PaymentStatus>, seen: Option<PaymentStatus>, listed: PaymentStatus)
    requires Fits(story, seen) && !(listed.Terminal() && Live(story))
    ensures Fits(story + [listed], Some(Settle(seen, listed)))
  {
    assert Pending in story + [listed] <==> Pending in story || listed == Pending;
    assert story != [] ==> (story + [listed])[0] == story[0];
  }

  lemma StoryMore(payments: map<string, Payment>, front: seq<NewPayment>, p: NewPayment, hash: string)
    ensures Story(payments, front + [p], hash)
            == Story(payments, front, hash) + (if p.hash == hash then [p.status] else [])
  {
    assert (front + [p])[..|front|] == front;
  }

  /** What one more entry adds to what a listing tells. */
  lemma TellsMore(payments: map<string, Payment>, baseline: Option<int>, front: seq<NewPayment>, p: NewPayment)
    ensures var i := |front|;
            TellsNothing(payments, baseline, front + [p])
            <==> TellsNothing(payments, baseline, front) && !Tells(payments, baseline, front + [p], i)
  {
    var all := front + [p];
    forall i | 0 <= i < |front| ensures Tells(payments, baseline, all, i) == Tells(payments, baseline, front, i) {
      assert all[..i] == front[..i] && all[i] == front[i];
      assert forall k :: 0 <= k <= i ==> all[k] == front[k];
    }
  }

  lemma AllFitMore(payments: map<string, Payment>, front: seq<NewPayment>, p: NewPayment, d: Db, after: Db)
    requires AllFit(payments, front, d)
    requires !(p.status.Terminal() && Live(Story(payments, front, p.hash)))
    requires Seen(after, p.hash) == Some(Settle(Seen(d, p.hash), p.status))
    requires forall h :: h != p.hash ==> Seen(after, h) == Seen(d, h)
    ensures AllFit(payments, front + [p], after)
  {
    forall h ensures Fits(Story(payments, front + [p], h), Seen(after, h)) {
      StoryMore(payments, front, p, h);
      assert Fits(Story(payments, front, h), Seen(d, h));
      if h == p.hash {
        FitsMore(Story(payments, front, h), Seen(d, h), p.status);
      } else {
        assert Story(payments, front + [p], h) == Story(payments, front, h);
      }
    }
  }

  predicate AllReached(listing: seq<NewPayment>) {
    forall i :: 0 <= i < |listing| ==> AmountsFit(listing[i])
  }

  /** One turn more of a poll that has told nothing, and stopped nowhere. */
  lemma TellsStep(payments: map<string, Payment>, baseline: Option<int>, front: seq<NewPayment>, p: NewPayment,
                  d: Db, now: int)
    requires AllReached(front) && AllFit(payments, front, d) && AmountsFit(p)
    ensures var r := PollOne(d, baseline, p, now);
            && (r.db.outbox == d.outbox <==> !Tells(payments, baseline, front + [p], |front|))
            && (r.db.outbox == d.outbox ==> AllFit(payments, front + [p], r.db))
  {
    PollOneTells(d, baseline, p, now);
    hide PollOne, Settle, PlanPayment;
    var all := front + [p];
    assert all[..|front|] == front && all[|front|] == p;
    assert Fits(Story(payments, front, p.hash), Seen(d, p.hash));
    if PollOne(d, baseline, p, now).db.outbox == d.outbox {
      AllFitMore(payments, front, p, d, PollOne(d, baseline, p, now).db);
    }
  }

  lemma NothingKnown(db: Db)
    ensures AllFit(db.payments, [], db) && AllReached([])
  {
  }

  lemma {:induction false} TellsExactly(db: Db, baseline: Option<int>, listing: seq<NewPayment>, now: int)
    ensures var r := PollAll(db, baseline, listing, now);
            && db.outbox <= r.db.outbox && (r.ok <==> AllReached(listing))
            && (r.db.outbox == db.outbox <==> TellsNothing(db.payments, baseline, listing))
            && (r.ok && r.db.outbox == db.outbox ==> AllFit(db.payments, listing, r.db))
  {
    hide PollOne, AllFit, Tells;
    if listing == [] {
      NothingKnown(db);
    } else {
      var front, p := listing[..|listing| - 1], listing[|listing| - 1];
      TellsExactly(db, baseline, front, now);
      assert front + [p] == listing;
      TellsMore(db.payments, baseline, front, p);
      var f := PollAll(db, baseline, front, now);
      Stops(db.payments, baseline, listing);
      if f.ok && AmountsFit(p) {
        PollOneGrows(f.db, baseline, p, now);
        if f.db.outbox == db.outbox {
          TellsStep(db.payments, baseline, front, p, f.db, now);
        }
      } else if f.ok {
        PollOneFails(f.db, baseline, p, now);
      }
    }
  }

  lemma PollOneGrows(d: Db, baseline: Option<int>, p: NewPayment, now: int)
    requires AmountsFit(p)
    ensures PollOne(d, baseline, p, now).ok && d.outbox <= PollOne(d, baseline, p, now).db.outbox
  {
    PollOneTells(d, baseline, p, now);
  }

  lemma PollOneFails(d: Db, baseline: Option<int>, p: NewPayment, now: int)
    requires !AmountsFit(p)
    ensures PollOne(d, baseline, p, now) == Outcome(d, false)
  {
  }

  /** An entry at or after one that does not fit is not reached. */
  lemma Stops(payments: map<string, Payment>, baseline: Option<int>, listing: seq<NewPayment>)
    requires listing != []
    ensures var i := |listing| - 1;
            (AllReached(listing) <==> AllReached(listing[..i]) && AmountsFit(listing[i]))
            && (!AllReached(listing) ==> !Tells(payments, baseline, listing, i))
  {
    var i := |listing| - 1;
    assert forall k :: 0 <= k < i ==> listing[..i][k] == listing[k];
  }

  /** A poll emits nothing if and only if it gets to no entry that ends a hash which is live by then, by
      its stored status and the statuses listed before, or which, once the baseline is set, nobody had
      known. For the first poll this is weaker than the promise that it is always silent. */
  lemma BackfillIsSilent(db: Db, listing: seq<NewPayment>, now: int)
    ensures PollAll(db, None, listing, now).db.outbox == db.outbox <==> TellsNothing(db.payments, None, listing)
    ensures DistinctHashes(listing) && AllReached(listing) ==>
              (PollAll(db, None, listing, now).db.outbox == db.outbox <==>
                 forall i :: 0 <= i < |listing| ==> BackfillsOne(db.payments, listing[i]))
    ensures OneStatusEach(listing) && (forall i :: 0 <= i < |listing| ==> listing[i].hash !in db.payments) ==>
              PollAll(db, None, listing, now).db.outbox == db.outbox
  {
    hide PollAll;
    TellsExactly(db, None, listing, now);
    if DistinctHashes(listing) && AllReached(listing) {
      DistinctTells(db.payments, listing);
    }
    if OneStatusEach(listing) && (forall i :: 0 <= i < |listing| ==> listing[i].hash !in db.payments) {
      UnknownTellsNothing(db.payments, listing);
    }
  }

  /** The entry ends no hash that is stored live. */
  predicate BackfillsOne(payments: map<string, Payment>, p: NewPayment) {
    p.hash in payments && p.status.Terminal() ==> payments[p.hash].status.Terminal()
  }

  lemma {:induction false} UnlistedStory(payments: map<string, Payment>, listing: seq<NewPayment>, hash: string)
    requires forall i :: 0 <= i < |listing| ==> listing[i].hash != hash
    ensures Story(payments, listing, hash) == Stored(payments, hash)
  {
    if listing != [] {
      UnlistedStory(payments, listing[..|listing| - 1], hash);
    }
  }

  lemma DistinctTells(payments: map<string, Payment>, listing: seq<NewPayment>)
    requires DistinctHashes(listing) && AllReached(listing)
    ensures TellsNothing(payments, None, listing) <==>
              forall i :: 0 <= i < |listing| ==> BackfillsOne(payments, listing[i])
  {
    forall i | 0 <= i < |listing|
      ensures Tells(payments, None, listing, i) <==> !BackfillsOne(payments, listing[i])
    {
      UnlistedStory(payments, listing[..i], listing[i].hash);
    }
  }

  /** Nobody knew the hashes and each is listed with one status: the case the promise is about. */
  lemma UnknownTellsNothing(payments: map<string, Payment>, listing: seq<NewPayment>)
    requires OneStatusEach(listing) && forall i :: 0 <= i < |listing| ==> listing[i].hash !in payments
    ensures TellsNothing(payments, None, listing)
  {
    forall i | 0 <= i < |listing| ensures !Tells(payments, None, listing, i) {
      if listing[i].status.Terminal() {
        OneStatusStory(payments, listing, i, i);
        var story := Story(payments, listing[..i], listing[i].hash);
        assert story != [] ==> story[0] in story;
      }
    }
  }

  lemma {:induction false} OneStatusStory(payments: map<string, Payment>, listing: seq<NewPayment>, i: nat, n: nat)
    requires OneStatusEach(listing) && n <= i < |listing| && listing[i].hash !in payments
    ensures forall x :: x in Story(payments, listing[..n], listing[i].hash) ==> x == listing[i].status
  {
    if n > 0 {
      OneStatusStory(payments, listing, i, n - 1);
      assert listing[..n] == listing[..n - 1] + [listing[n - 1]];
      StoryMore(payments, listing[..n - 1], listing[n - 1], listing[i].hash);
    }
  }

  /** Where the first poll leaves each hash of a listing without repeats: where its stored status and
      the listed one lead, which is the listed one if and only if nobody had known the hash, or had
      known it at that status or at one the listed status moves. */
  lemma {:induction false} BackfillMirrors(db: Db, listing: seq<NewPayment>, now: int, i: nat)
    requires DistinctHashes(listing) && AllReached(listing) && i < |listing|
    ensures var r, h := PollAll(db, None, listing, now), listing[i].hash;
            && r.ok && Seen(r.db, h) == Some(Settle(Seen(db, h), listing[i].status))
            && (Seen(r.db, h) == Some(listing[i].status) <==>
                  var seen := Seen(db, h);
                  seen.None? || seen.value == listing[i].status || PlanPayment(seen.value, listing[i].status).Some?)
  {
    SeenAfter(db, listing, now, listing[i].hash);
    UnlistedAfter(listing, i);
  }

  /** The status the entries of a hash lead to, in order. */
  function SettleAll(seen: Option<PaymentStatus>, listing: seq<NewPayment>, hash: string): Option<PaymentStatus> {
    if listing == [] then seen else
    var s, p := SettleAll(seen, listing[..|listing| - 1], hash), listing[|listing| - 1];
    if p.hash == hash then Some(Settle(s, p.status)) else s
  }

  lemma {:induction false} SeenAfter(db: Db, listing: seq<NewPayment>, now: int, hash: string)
    requires AllReached(listing)
    ensures PollAll(db, None, listing, now).ok
    ensures Seen(PollAll(db, None, listing, now).db, hash) == SettleAll(Seen(db, hash), listing, hash)
  {
    hide PollOne, Settle;
    if listing != [] {
      var front, p := listing[..|listing| - 1], listing[|listing| - 1];
      SeenAfter(db, front, now, hash);
      PollOneTells(PollAll(db, None, front, now).db, None, p, now);
    }
  }

  lemma {:induction false} UnlistedAfter(listing: seq<NewPayment>, i: nat)
    requires DistinctHashes(listing) && i < |listing|
    ensures forall seen :: SettleAll(seen, listing, listing[i].hash) == Some(Settle(seen, listing[i].status))
  {
    hide Settle;
    var front := listing[..|listing| - 1];
    if i < |front| {
      UnlistedAfter(front, i);
    } else {
      NeverListed(front, listing[i].hash);
    }
  }

  lemma {:induction false} NeverListed(listing: seq<NewPayment>, hash: string)
    requires forall i :: 0 <= i < |listing| ==> listing[i].hash != hash
    ensures forall seen :: SettleAll(seen, listing, hash) == seen
  {
    if listing != [] {
      NeverListed(listing[..|listing| - 1], hash);
    }
  }
}
