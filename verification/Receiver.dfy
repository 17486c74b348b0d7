/** What reaches the webhook receiver. A request may be lost on the way; it is recorded as a failed attempt
    all the same, and an event whose every request is lost is given up on. */
module Receiver {
  import opened Base
  import opened Status
  import opened Tables
  import opened System
  import opened Invariants
  import opened Delivery
  import History

  /** A request about the event has arrived. */
  predicate Reached(sent: seq<Post>, k: nat) {
    exists j :: 0 <= j < |sent| && sent[j].rowid == k && sent[j].arrived
  }

  /** What the receiver has heard, if it drops an event it hears twice in a row. */
  function Heard(sent: seq<Post>): seq<Post> {
    if sent == [] then [] else
    var heard, p := Heard(sent[..|sent| - 1]), sent[|sent| - 1];
    if !p.arrived || (heard != [] && heard[|heard| - 1].rowid == p.rowid) then heard else heard + [p]
  }

  predicate Hears(heard: seq<Post>, k: nat) {
    exists i :: 0 <= i < |heard| && heard[i].rowid == k
  }

  predicate Ascends(heard: seq<Post>) {
    forall i, j :: 0 <= i < j < |heard| ==> heard[i].rowid < heard[j].rowid
  }

  /** The events heard are the oldest ones, none missing. */
  predicate Initial(heard: seq<Post>) {
    forall i :: 0 <= i < |heard| ==> heard[i].rowid == i
  }

  /** Every event older than the newest one heard has reached the receiver. */
  predicate OlderReached(sent: seq<Post>, heard: seq<Post>) {
    heard != [] ==> forall k: nat :: k < heard[|heard| - 1].rowid ==> Reached(sent, k)
  }

  lemma ReachedMore(front: seq<Post>, p: Post, k: nat)
    ensures Reached(front + [p], k) <==> Reached(front, k) || (p.arrived && p.rowid == k)
  {
    var all := front + [p];
    if Reached(front, k) {
      var j :| 0 <= j < |front| && front[j].rowid == k && front[j].arrived;
      assert all[j] == front[j];
    }
    assert all[|front|] == p;
  }

  lemma HearsMore(heard: seq<Post>, p: Post, k: nat)
    ensures Hears(heard + [p], k) <==> Hears(heard, k) || p.rowid == k
  {
    var all := heard + [p];
    if Hears(heard, k) {
      var i :| 0 <= i < |heard| && heard[i].rowid == k;
      assert all[i] == heard[i];
    }
    assert all[|heard|] == p;
  }

  /** A log that never steps back is heard in order, each event that reached the receiver once. */
  lemma {:induction false} HeardInOrder(sent: seq<Post>)
    requires Sorted(sent)
    ensures Ascends(Heard(sent)) && forall k :: Hears(Heard(sent), k) <==> Reached(sent, k)
    ensures forall i :: 0 <= i < |Heard(sent)| ==> Heard(sent)[i] in sent
  {
    if sent != [] {
      var front, p := sent[..|sent| - 1], sent[|sent| - 1];
      HeardInOrder(front);
      assert front + [p] == sent;
      HeardStep(front, p);
    }
  }

  lemma HeardStep(front: seq<Post>, p: Post)
    requires Sorted(front + [p]) && Ascends(Heard(front))
    requires forall k :: Hears(Heard(front), k) <==> Reached(front, k)
    requires forall i :: 0 <= i < |Heard(front)| ==> Heard(front)[i] in front
    ensures var sent := front + [p];
            && Ascends(Heard(sent)) && (forall k :: Hears(Heard(sent), k) <==> Reached(sent, k))
            && (forall i :: 0 <= i < |Heard(sent)| ==> Heard(sent)[i] in sent)
  {
    var sent, heard := front + [p], Heard(front);
    assert sent[..|front|] == front && sent[|front|] == p;
    forall i | 0 <= i < |heard| ensures heard[i].rowid <= p.rowid {
      var j :| 0 <= j < |front| && front[j] == heard[i];
      assert sent[j].rowid <= sent[|front|].rowid;
    }
    forall k ensures Hears(Heard(sent), k) <==> Reached(sent, k) {
      ReachedMore(front, p, k);
      HearsMore(heard, p, k);
      if heard != [] && heard[|heard| - 1].rowid == k {
        assert Hears(heard, k);
      }
    }
  }

  /** The events heard are the oldest if and only if no older one is missing. */
  lemma InitialExactly(sent: seq<Post>, heard: seq<Post>)
    requires Ascends(heard) && forall k :: Hears(heard, k) <==> Reached(sent, k)
    ensures Initial(heard) <==> OlderReached(sent, heard)
  {
    if Initial(heard) && heard != [] {
      forall k: nat | k < heard[|heard| - 1].rowid ensures Reached(sent, k) {
        assert heard[k].rowid == k;
        assert Hears(heard, k);
      }
    }
    if OlderReached(sent, heard) {
      forall i | 0 <= i < |heard| ensures heard[i].rowid == i {
        OldestAt(sent, heard, i);
      }
    }
  }

  lemma {:induction false} OldestAt(sent: seq<Post>, heard: seq<Post>, i: nat)
    requires Ascends(heard) && (forall k :: Hears(heard, k) <==> Reached(sent, k)) && OlderReached(sent, heard)
    requires i < |heard|
    ensures heard[i].rowid == i
  {
    if i > 0 {
      OldestAt(sent, heard, i - 1);
    }
    if i < heard[i].rowid {
      assert heard[i].rowid <= heard[|heard| - 1].rowid;
      assert Reached(sent, i) && Hears(heard, i);
      var j :| 0 <= j < |heard| && heard[j].rowid == i;
      assert false;
    }
  }

  // ------------------------------------------------------------------- every run

  /** Everything delivered has reached the receiver. */
  predicate DeliveredReached(s: Sys) {
    forall k :: 0 <= k < |s.db.outbox| && s.db.outbox[k].deliveredAt.Some? ==> Reached(s.sent, k)
  }

  lemma ReachedStill(a: seq<Post>, b: seq<Post>, k: nat)
    requires a <= b && Reached(a, k)
    ensures Reached(b, k)
  {
    var j :| 0 <= j < |a| && a[j].rowid == k && a[j].arrived;
    assert b[j] == a[j];
  }

  lemma SentGrows(s: Sys, a: Action)
    requires Enabled(s, a)
    ensures s.sent <= Apply(s, a).sent
  {
    hide FindMatch, HolderOf, ExpiredBelow, PlanTransition, PlanPayment, UpsertedPayment, LiveFrom;
  }

  lemma ReachedStep(s: Sys, a: Action)
    requires BatchInv(s) && SentInv(s) && Enabled(s, a) && DeliveredReached(s)
    ensures DeliveredReached(Apply(s, a))
  {
    SentGrows(s, a);
    OutboxStep(s, a);
    var t := Apply(s, a);
    forall k | 0 <= k < |t.db.outbox| && t.db.outbox[k].deliveredAt.Some? ensures Reached(t.sent, k) {
      if a.Mark? && AtHead(s, k) {
        MarkedReached(s, a);
      }
      ReachedStill(s.sent, t.sent, k);
    }
  }

  /** What one action does to the deliveries. */
  lemma OutboxStep(s: Sys, a: Action)
    requires BatchInv(s) && Enabled(s, a)
    ensures forall k :: 0 <= k < |Apply(s, a).db.outbox| && Apply(s, a).db.outbox[k].deliveredAt.Some? ==>
              (a.Mark? && AtHead(s, k)) || (k < |s.db.outbox| && s.db.outbox[k].deliveredAt.Some?)
  {
    if a.Mark? || a.Record? {
      assert FetchedCurrent(s.db.outbox, s.batch[0]);
    } else {
      OutboxGrows(s, a);
      hide Apply, Enabled, BatchInv;
      var b := Apply(s, a).db.outbox;
      forall k | 0 <= k < |b| && b[k].deliveredAt.Some? ensures k < |s.db.outbox| && s.db.outbox[k].deliveredAt.Some? {
        EventKept(s.db.outbox, b, k);
      }
    }
  }

  lemma MarkedReached(s: Sys, a: Action)
    requires SentInv(s) && a.Mark? && Enabled(s, a)
    ensures Reached(s.sent, s.batch[0].rowid)
  {
    assert s.sent[|s.sent| - 1].rowid == s.batch[0].rowid;
  }

  lemma {:induction false} AllDeliveredReached(maxAttempts: nat, t: seq<Action>)
    requires Legal(maxAttempts, t)
    ensures DeliveredReached(After(maxAttempts, t))
  {
    hide Apply, Enabled, DeliveredReached, Inv;
    if t == [] {
      NoneDelivered(maxAttempts);
    } else {
      var r, a := t[..|t| - 1], t[|t| - 1];
      AllDeliveredReached(maxAttempts, r);
      Reachable(maxAttempts, r);
      InvSent(After(maxAttempts, r));
      ReachedStep(After(maxAttempts, r), a);
    }
  }

  lemma NoneDelivered(maxAttempts: nat)
    ensures DeliveredReached(Init(maxAttempts))
  {
  }

  lemma InvSent(s: Sys)
    requires Inv(s)
    ensures BatchInv(s) && SentInv(s)
  {
  }

  function AllHeard(heard: seq<Post>): seq<History.Edge> {
    seq(|heard|, i requires 0 <= i < |heard| => History.Told(heard[i].payload))
  }

  /** What the receiver hears, repeats dropped, is at every moment of every run exactly the announced
      status changes of which a request has arrived, in the order they were committed, each with the edge
      really taken; every event marked as delivered is among them. It is an initial piece of that history
      if and only if every event older than the newest one heard has reached the receiver. */
  lemma ReceiverHearsHistory(maxAttempts: nat, t: seq<Action>)
    requires Legal(maxAttempts, t)
    ensures var s, history := After(maxAttempts, t), History.Announcing(History.Committed(maxAttempts, t));
            var heard := Heard(s.sent);
            && Ascends(heard) && (forall k :: Hears(heard, k) <==> Reached(s.sent, k))
            && (forall i :: 0 <= i < |heard| ==>
                  heard[i].rowid < |history| && History.Told(heard[i].payload) == history[heard[i].rowid])
            && DeliveredReached(s)
            && (Initial(heard) <==> OlderReached(s.sent, heard))
            && (Initial(heard) ==> AllHeard(heard) <= history)
  {
    hide Apply, Enabled, Reached, Hears, Ascends, OlderReached, DeliveredReached;
    var s := After(maxAttempts, t);
    Reachable(maxAttempts, t);
    HeardInOrder(s.sent);
    InitialExactly(s.sent, Heard(s.sent));
    AllDeliveredReached(maxAttempts, t);
    History.OutboxIsHistory(maxAttempts, t);
    HeardEdges(s, Heard(s.sent), History.Announcing(History.Committed(maxAttempts, t)));
  }

  lemma HeardEdges(s: Sys, heard: seq<Post>, history: seq<History.Edge>)
    requires SentInv(s) && history == History.AllTold(s.db.outbox)
    requires forall i :: 0 <= i < |heard| ==> heard[i] in s.sent
    ensures forall i :: 0 <= i < |heard| ==>
              heard[i].rowid < |history| && History.Told(heard[i].payload) == history[heard[i].rowid]
    ensures Initial(heard) ==> AllHeard(heard) <= history
  {
    forall i | 0 <= i < |heard|
      ensures heard[i].rowid < |history| && History.Told(heard[i].payload) == history[heard[i].rowid]
    {
      var j :| 0 <= j < |s.sent| && s.sent[j] == heard[i];
    }
    if Initial(heard) && heard != [] {
      assert heard[|heard| - 1].rowid == |heard| - 1;
    }
  }
}
