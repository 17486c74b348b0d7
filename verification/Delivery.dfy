/** What is sent to the webhook receiver, and what reaches it, over every run. */
module Delivery {
  import opened Base
  import opened Status
  import opened Tables
  import opened System
  import opened Invariants
  import History

  /** The POSTs about one transfer, in the order they were made, never step back; apart from
      copies of one event, at most one says confirmed_pending and at most one is terminal. */
  lemma EndToEndOrder(maxAttempts: nat, t: seq<Action>, id: nat, i: nat, j: nat)
    requires Legal(maxAttempts, t)
    requires i < j < |After(maxAttempts, t).sent|
    requires AboutTransfer(After(maxAttempts, t).sent[i].payload, id)
    requires AboutTransfer(After(maxAttempts, t).sent[j].payload, id)
    ensures var p, q := After(maxAttempts, t).sent[i], After(maxAttempts, t).sent[j];
            && p.rowid <= q.rowid
            && Rank(p.payload.next) <= Rank(q.payload.next)
            && (p.rowid == q.rowid ==> p.payload == q.payload)
            && (p.rowid != q.rowid ==>
                  && p.payload.event == ConfirmedPending && q.payload.next.Terminal()
                  && Rank(p.payload.next) <= Rank(q.payload.prev))
  {
    Reachable(maxAttempts, t);
    var s := After(maxAttempts, t);
    var p, q := s.sent[i], s.sent[j];
    assert EventOk(s.db, s.db.outbox[p.rowid].payload) && EventOk(s.db, s.db.outbox[q.rowid].payload);
    if p.rowid != q.rowid {
      assert Follows(s.db.outbox[p.rowid].payload, s.db.outbox[q.rowid].payload);
    }
  }

  /** Two requests about one event. */
  predicate SameEvent(p: Post, q: Post) {
    p.rowid == q.rowid && p.payload == q.payload
  }

  /** Nothing is sent about a hash after its payment.settled, copies apart. */
  lemma NothingAfterPaymentSettled(maxAttempts: nat, t: seq<Action>, hash: string, i: nat, j: nat)
    requires Legal(maxAttempts, t)
    requires i < j < |After(maxAttempts, t).sent|
    requires AboutPayment(After(maxAttempts, t).sent[i].payload, hash)
    requires AboutPayment(After(maxAttempts, t).sent[j].payload, hash)
    requires After(maxAttempts, t).sent[i].payload.paymentEvent == PaymentSettledEvent
    ensures SameEvent(After(maxAttempts, t).sent[i], After(maxAttempts, t).sent[j])
  {
    Reachable(maxAttempts, t);
    var s := After(maxAttempts, t);
    var p, q := s.sent[i], s.sent[j];
    assert EventOk(s.db, s.db.outbox[p.rowid].payload);
    assert p.rowid != q.rowid ==> Follows(s.db.outbox[p.rowid].payload, s.db.outbox[q.rowid].payload);
  }

  lemma SentOrdered(s: Sys, i: nat, j: nat)
    requires SentInv(s) && i < j < |s.sent|
    ensures s.sent[i].rowid <= s.sent[j].rowid
    ensures s.sent[i].rowid == s.sent[j].rowid ==> forall k :: i <= k <= j ==> SameEvent(s.sent[k], s.sent[i])
  {
    forall k | i <= k <= j && s.sent[i].rowid == s.sent[j].rowid ensures SameEvent(s.sent[k], s.sent[i]) {
      assert s.sent[i].rowid <= s.sent[k].rowid <= s.sent[j].rowid;
    }
  }

  /** The log of POSTed rowids never steps back over the whole run, so copies of one event are
      adjacent in it. */
  lemma StrictFifo(maxAttempts: nat, t: seq<Action>, i: nat, j: nat)
    requires Legal(maxAttempts, t) && i < j < |After(maxAttempts, t).sent|
    ensures var sent := After(maxAttempts, t).sent;
            && sent[i].rowid <= sent[j].rowid
            && (sent[i].rowid == sent[j].rowid ==> forall k :: i <= k <= j ==> SameEvent(sent[k], sent[i]))
  {
    Reachable(maxAttempts, t);
    SentOrdered(After(maxAttempts, t), i, j);
  }

  /** Whenever an event is POSTed it is live, and every older one is delivered or parked. */
  lemma PostedInTurn(maxAttempts: nat, t: seq<Action>, n: nat)
    requires Legal(maxAttempts, t) && n < |t| && t[n].PostHead?
    ensures Legal(maxAttempts, t[..n])
    ensures var s := After(maxAttempts, t[..n]);
            && s.batch != [] && s.batch[0].rowid < |s.db.outbox|
            && Live(s.db.outbox[s.batch[0].rowid], maxAttempts)
            && s.db.outbox[s.batch[0].rowid] == s.batch[0].event
            && forall k :: 0 <= k < s.batch[0].rowid ==>
                 s.db.outbox[k].deliveredAt.Some? || Parked(s.db.outbox[k], maxAttempts)
  {
    hide Apply, Enabled, Inv, NoneLive, Live, Parked;
    PrefixLegal(maxAttempts, t, n + 1);
    PrefixLegal(maxAttempts, t, n);
    assert t[..n + 1][..n] == t[..n];
    Reachable(maxAttempts, t[..n]);
    var s := After(maxAttempts, t[..n]);
    assert Enabled(s, t[..n + 1][n]);
    HeadInTurn(s, t[n]);
  }

  lemma HeadInTurn(s: Sys, a: Action)
    requires BatchInv(s) && Enabled(s, a) && a.PostHead?
    ensures s.batch != [] && FetchedCurrent(s.db.outbox, s.batch[0])
    ensures Live(s.db.outbox[s.batch[0].rowid], s.maxAttempts)
    ensures forall k :: 0 <= k < s.batch[0].rowid ==>
              s.db.outbox[k].deliveredAt.Some? || Parked(s.db.outbox[k], s.maxAttempts)
  {
    assert FetchedCurrent(s.db.outbox, s.batch[0]);
    assert NoneLive(s.db.outbox, s.maxAttempts, 0, s.batch[0].rowid);
  }

  // ------------------------------------------------------------ the drain measure

  function Sum(outbox: seq<Event>, maxAttempts: nat): nat {
    if outbox == [] then 0 else
    var e := outbox[|outbox| - 1];
    Sum(outbox[..|outbox| - 1], maxAttempts) + (if Live(e, maxAttempts) then maxAttempts - e.attempts else 0)
  }

  /** How many recorded outcomes - deliveries or failures - a run contains: the actions that
      rewrote an outbox row that was already there. */
  ghost function Outcomes(maxAttempts: nat, t: seq<Action>): nat
    requires Legal(maxAttempts, t)
  {
    if t == [] then 0 else
    var a, b := After(maxAttempts, t[..|t| - 1]).db.outbox, After(maxAttempts, t).db.outbox;
    Outcomes(maxAttempts, t[..|t| - 1]) + (if a <= b then 0 else 1)
  }

  lemma {:induction false} SumUpdate(outbox: seq<Event>, maxAttempts: nat, k: nat, e: Event)
    requires k < |outbox| && Live(outbox[k], maxAttempts)
    requires (e == outbox[k].(deliveredAt := e.deliveredAt) && e.deliveredAt.Some?) ||
             e == outbox[k].(attempts := outbox[k].attempts + 1, nextAttemptAt := e.nextAttemptAt)
    ensures Sum(outbox[k := e], maxAttempts) < Sum(outbox, maxAttempts)
  {
    var n := |outbox| - 1;
    if k == n {
      assert outbox[k := e][..n] == outbox[..n];
    } else {
      assert outbox[k := e][..n] == outbox[..n][k := e];
      SumUpdate(outbox[..n], maxAttempts, k, e);
    }
  }

  lemma SumEnqueue(a: seq<Event>, b: seq<Event>, maxAttempts: nat)
    requires Enqueued(a, b)
    ensures a <= b && Sum(b, maxAttempts) <= Sum(a, maxAttempts) + maxAttempts * (|b| - |a|)
  {
    if a != b {
      assert b[..|b| - 1] == a;
    }
  }

  /** Every recorded outcome strictly lowers the measure; nothing else touches a queued event. */
  lemma DrainStep(s: Sys, a: Action)
    requires Inv(s) && Enabled(s, a)
    ensures var b, m := Apply(s, a).db.outbox, s.maxAttempts;
            if a.Mark? || a.Record?
            then |b| == |s.db.outbox| && Sum(b, m) < Sum(s.db.outbox, m)
            else s.db.outbox <= b && Sum(b, m) <= Sum(s.db.outbox, m) + m * (|b| - |s.db.outbox|)
  {
    var b := Apply(s, a).db.outbox;
    if a.Mark? || a.Record? {
      var k := s.batch[0].rowid;
      assert FetchedCurrent(s.db.outbox, s.batch[0]);
      SumUpdate(s.db.outbox, s.maxAttempts, k, b[k]);
    } else {
      OutboxGrows(s, a);
      SumEnqueue(s.db.outbox, b, s.maxAttempts);
    }
  }

  lemma Distribute(n: nat, m: nat, c: nat)
    requires n <= m
    ensures c * (m - n) + n * c == m * c
  {
  }

  /** n events admit at most n * max recorded outcomes, whatever the receiver answers. */
  lemma {:induction false} DrainMeasure(maxAttempts: nat, t: seq<Action>)
    requires Legal(maxAttempts, t)
    ensures var outbox := After(maxAttempts, t).db.outbox;
            Outcomes(maxAttempts, t) + Sum(outbox, maxAttempts) <= |outbox| * maxAttempts
  {
    if t != [] {
      var r := t[..|t| - 1];
      DrainMeasure(maxAttempts, r);
      Reachable(maxAttempts, r);
      DrainStep(After(maxAttempts, r), t[|t| - 1]);
      var a, b := After(maxAttempts, r).db.outbox, After(maxAttempts, t).db.outbox;
      if a <= b {
        Distribute(|a|, |b|, maxAttempts);
      }
    }
  }

  // ---------------------------------------------------- attempts, failures and POSTs

  /** How many failures of one event a run has recorded. */
  ghost function Failures(maxAttempts: nat, t: seq<Action>, k: nat): nat
    requires Legal(maxAttempts, t)
  {
    if t == [] then 0 else
    var r, a := t[..|t| - 1], t[|t| - 1];
    Failures(maxAttempts, r, k) + (if a.Record? && After(maxAttempts, r).batch[0].rowid == k then 1 else 0)
  }

  /** How many requests about one event have been sent. */
  function Posts(sent: seq<Post>, k: nat): nat {
    if sent == [] then 0 else
    Posts(sent[..|sent| - 1], k) + (if sent[|sent| - 1].rowid == k then 1 else 0)
  }

  predicate AtHead(s: Sys, k: nat) {
    s.batch != [] && s.batch[0].rowid == k
  }

  lemma AttemptsStep(s: Sys, a: Action, k: nat)
    requires BatchInv(s) && Enabled(s, a) && k < |Apply(s, a).db.outbox|
    ensures |s.db.outbox| <= |Apply(s, a).db.outbox|
    ensures Apply(s, a).db.outbox[k].attempts
            == (if k < |s.db.outbox| then s.db.outbox[k].attempts else 0)
               + (if a.Record? && AtHead(s, k) then 1 else 0)
    ensures a.Record? && AtHead(s, k) ==> k < |s.db.outbox|
  {
    if a.Mark? || a.Record? {
      assert FetchedCurrent(s.db.outbox, s.batch[0]);
    } else {
      OutboxGrows(s, a);
      hide Apply, Enabled, BatchInv;
      EventKept(s.db.outbox, Apply(s, a).db.outbox, k);
    }
  }

  /** What queueing leaves of one event, and what a fresh one is. */
  lemma EventKept(a: seq<Event>, b: seq<Event>, k: nat)
    requires Enqueued(a, b) && k < |b|
    ensures |a| <= |b|
    ensures if k < |a| then b[k] == a[k] else b[k].attempts == 0 && b[k].deliveredAt.None?
  {
    assert k < |a| ==> b[..|a|][k] == a[k];
  }

  /** An event's attempts are the failures the run has recorded of it. */
  lemma {:induction false} AttemptsAreFailures(maxAttempts: nat, t: seq<Action>, k: nat)
    requires Legal(maxAttempts, t)
    ensures var outbox := After(maxAttempts, t).db.outbox;
            Failures(maxAttempts, t, k) == if k < |outbox| then outbox[k].attempts else 0
  {
    if t != [] {
      var r, a := t[..|t| - 1], t[|t| - 1];
      AttemptsAreFailures(maxAttempts, r, k);
      Reachable(maxAttempts, r);
      var s := After(maxAttempts, r);
      OutboxLonger(s, a);
      if k < |Apply(s, a).db.outbox| {
        AttemptsStep(s, a, k);
      } else if a.Record? {
        assert FetchedCurrent(s.db.outbox, s.batch[0]);
      }
    }
  }

  lemma OutboxLonger(s: Sys, a: Action)
    requires Enabled(s, a)
    ensures |s.db.outbox| <= |Apply(s, a).db.outbox|
  {
    if !a.Mark? && !a.Record? {
      OutboxGrows(s, a);
    }
  }

  /** What is owed to the log for one event: a POST per recorded outcome, and the one in flight. */
  function Owed(s: Sys, k: nat): nat
    requires k < |s.db.outbox|
  {
    s.db.outbox[k].attempts + (if s.db.outbox[k].deliveredAt.Some? then 1 else 0)
    + (if s.posted && AtHead(s, k) then 1 else 0)
  }

  lemma DispatcherOwes(s: Sys, a: Action, k: nat)
    requires BatchInv(s) && Enabled(s, a) && (DispatcherAction(a) || a.Crash?)
    requires k < |s.db.outbox| && Owed(s, k) <= Posts(s.sent, k)
    ensures var t := Apply(s, a);
            |t.db.outbox| == |s.db.outbox| && Owed(t, k) <= Posts(t.sent, k)
  {
    if a.PostHead? {
      assert Apply(s, a).sent[..|s.sent|] == s.sent;
    } else if a.Mark? || a.Record? {
      assert FetchedCurrent(s.db.outbox, s.batch[0]) && Live(s.batch[0].event, s.maxAttempts);
    }
  }

  lemma OthersOwe(s: Sys, a: Action, k: nat)
    requires BatchInv(s) && Enabled(s, a) && !DispatcherAction(a) && !a.Crash?
    requires k < |s.db.outbox| ==> Owed(s, k) <= Posts(s.sent, k)
    requires k < |Apply(s, a).db.outbox|
    ensures Owed(Apply(s, a), k) <= Posts(Apply(s, a).sent, k)
  {
    OthersKeepBatch(s, a);
    OutboxGrows(s, a);
    assert AtHead(s, k) ==> FetchedCurrent(s.db.outbox, s.batch[0]);
    hide Apply, Enabled, BatchInv, Posts, Enqueued;
    EventKept(s.db.outbox, Apply(s, a).db.outbox, k);
  }

  lemma {:induction false} AllPosted(maxAttempts: nat, t: seq<Action>, k: nat)
    requires Legal(maxAttempts, t) && k < |After(maxAttempts, t).db.outbox|
    ensures Owed(After(maxAttempts, t), k) <= Posts(After(maxAttempts, t).sent, k)
  {
    if t != [] {
      var r, a := t[..|t| - 1], t[|t| - 1];
      var s := After(maxAttempts, r);
      Reachable(maxAttempts, r);
      if k < |s.db.outbox| {
        AllPosted(maxAttempts, r, k);
      }
      if DispatcherAction(a) || a.Crash? {
        SameLength(s, a);
        DispatcherOwes(s, a, k);
      } else {
        OthersOwe(s, a, k);
      }
    }
  }

  lemma SameLength(s: Sys, a: Action)
    requires Enabled(s, a) && (DispatcherAction(a) || a.Crash?)
    ensures |Apply(s, a).db.outbox| == |s.db.outbox|
  {
  }

  /** At least once: in every run an event that is delivered has been POSTed once more than it has
      failed, at least, and one that is not as often as it has failed. */
  lemma AtLeastOnce(maxAttempts: nat, t: seq<Action>, k: nat)
    requires Legal(maxAttempts, t) && k < |After(maxAttempts, t).db.outbox|
    ensures var s := After(maxAttempts, t);
            Failures(maxAttempts, t, k) + (if s.db.outbox[k].deliveredAt.Some? then 1 else 0) <= Posts(s.sent, k)
  {
    AttemptsAreFailures(maxAttempts, t, k);
    AllPosted(maxAttempts, t, k);
  }

  /** Delivered, parked and live partition the outbox: an event is live exactly when it is undelivered
      and the run has recorded fewer failures of it than the limit, and one that was given up on has
      failed exactly as often as the limit allows, each time after a POST. */
  lemma OutboxPartition(maxAttempts: nat, t: seq<Action>, k: nat)
    requires Legal(maxAttempts, t) && k < |After(maxAttempts, t).db.outbox|
    ensures var e, failures := After(maxAttempts, t).db.outbox[k], Failures(maxAttempts, t, k);
            && failures <= maxAttempts
            && (Live(e, maxAttempts) <==> e.deliveredAt.None? && failures < maxAttempts)
            && (Live(e, maxAttempts) <==> !(e.deliveredAt.Some? || Parked(e, maxAttempts)))
            && (Parked(e, maxAttempts) ==>
                  e.deliveredAt.None? && failures == e.attempts == maxAttempts
                  && maxAttempts <= Posts(After(maxAttempts, t).sent, k))
  {
    Reachable(maxAttempts, t);
    AttemptsAreFailures(maxAttempts, t, k);
    AtLeastOnce(maxAttempts, t, k);
  }

  // ---------------------------------------------------- requests follow the history

  /** With no attempts allowed nothing is POSTed. */
  lemma {:induction false} SilentAtZero(t: seq<Action>)
    requires Legal(0, t)
    ensures After(0, t).sent == []
  {
    hide Apply, Enabled, Inv;
    if t != [] {
      var r, a := t[..|t| - 1], t[|t| - 1];
      SilentAtZero(r);
      Reachable(0, r);
      NothingToPost(After(0, r), a);
      OnlyPostsShow(After(0, r), a);
    }
  }

  lemma NothingToPost(s: Sys, a: Action)
    requires Inv(s) && s.maxAttempts == 0 && Enabled(s, a)
    ensures !a.PostHead?
  {
    assert s.batch != [] ==> Live(s.batch[0].event, 0);
  }

  lemma OnlyPostsShow(s: Sys, a: Action)
    requires Enabled(s, a) && !a.PostHead?
    ensures Apply(s, a).sent == s.sent
  {
    hide FindMatch, HolderOf, ExpiredBelow, PlanTransition, PlanPayment, UpsertedPayment, LiveFrom;
  }

  /** No event is passed over: of every one queued before one that was POSTed a request was sent. */
  lemma NothingSkipped(maxAttempts: nat, t: seq<Action>, i: nat, k: nat)
    requires Legal(maxAttempts, t)
    requires i < |After(maxAttempts, t).sent| && k < After(maxAttempts, t).sent[i].rowid
    ensures Posts(After(maxAttempts, t).sent, k) >= 1
  {
    hide Apply, Enabled, Failures, Posts;
    if maxAttempts == 0 {
      SilentAtZero(t);
    }
    Reachable(maxAttempts, t);
    var s := After(maxAttempts, t);
    assert NoneLive(s.db.outbox, maxAttempts, 0, s.sent[i].rowid);
    OutboxPartition(maxAttempts, t, k);
    AtLeastOnce(maxAttempts, t, k);
  }

  lemma {:induction false} PostAt(sent: seq<Post>, k: nat) returns (i: nat)
    requires Posts(sent, k) >= 1
    ensures i < |sent| && sent[i].rowid == k
  {
    if sent[|sent| - 1].rowid == k {
      i := |sent| - 1;
    } else {
      i := PostAt(sent[..|sent| - 1], k);
    }
  }

  /** What was requested, repeats of the request before dropped. */
  function Requested(sent: seq<Post>): seq<Payload> {
    if sent == [] then [] else
    var front, p := sent[..|sent| - 1], sent[|sent| - 1];
    if front != [] && front[|front| - 1].rowid == p.rowid then Requested(front) else Requested(front) + [p.payload]
  }

  /** No rowid below one in the log is missing from it. */
  predicate Gapless(sent: seq<Post>) {
    forall i, k :: 0 <= i < |sent| && 0 <= k < sent[i].rowid ==> Posted(sent, k)
  }

  predicate Posted(sent: seq<Post>, k: nat) {
    exists j :: 0 <= j < |sent| && sent[j].rowid == k
  }

  predicate Sorted(sent: seq<Post>) {
    forall i, j :: 0 <= i < j < |sent| ==> sent[i].rowid <= sent[j].rowid
  }

  predicate SentFrom(sent: seq<Post>, outbox: seq<Event>) {
    forall i :: 0 <= i < |sent| ==> sent[i].rowid < |outbox| && outbox[sent[i].rowid].payload == sent[i].payload
  }

  function PayloadsOf(outbox: seq<Event>): seq<Payload> {
    seq(|outbox|, i requires 0 <= i < |outbox| => outbox[i].payload)
  }

  lemma GaplessFront(sent: seq<Post>)
    requires Gapless(sent) && Sorted(sent) && sent != []
    ensures Gapless(sent[..|sent| - 1])
  {
    var front := sent[..|sent| - 1];
    forall i, k | 0 <= i < |front| && 0 <= k < front[i].rowid ensures Posted(front, k) {
      assert front[i] == sent[i];
      assert Posted(sent, k);
      var j :| 0 <= j < |sent| && sent[j].rowid == k;
      assert j < i && front[j] == sent[j];
    }
  }

  /** The last rowid of a gapless log is the last of those before, or the next. */
  lemma NextRowid(sent: seq<Post>)
    requires Gapless(sent) && Sorted(sent) && sent != []
    ensures var n, p := |sent| - 1, sent[|sent| - 1].rowid;
            if n == 0 then p == 0 else p == sent[n - 1].rowid || p == sent[n - 1].rowid + 1
  {
    var n, p := |sent| - 1, sent[|sent| - 1].rowid;
    var next := if n == 0 then 0 else sent[n - 1].rowid + 1;
    if next < p {
      assert Posted(sent, next);
      var j :| 0 <= j < |sent| && sent[j].rowid == next;
      assert false;
    }
  }

  lemma {:induction false} RequestedInFull(sent: seq<Post>, outbox: seq<Event>)
    requires Gapless(sent) && Sorted(sent) && SentFrom(sent, outbox)
    ensures var m := if sent == [] then 0 else sent[|sent| - 1].rowid + 1;
            m <= |outbox| && Requested(sent) == PayloadsOf(outbox)[..m]
  {
    if sent != [] {
      var front := sent[..|sent| - 1];
      GaplessFront(sent);
      NextRowid(sent);
      RequestedInFull(front, outbox);
    }
  }

  lemma RequestedMore(t: seq<Payload>, outbox: seq<Event>, m: nat)
    requires m <= |outbox| && t == PayloadsOf(outbox)[..m]
    ensures AllRequested(t) == History.AllTold(outbox)[..m]
  {
  }

  function AllRequested(told: seq<Payload>): seq<History.Edge> {
    seq(|told|, i requires 0 <= i < |told| => History.Told(told[i]))
  }

  /** The requests sent, repeats dropped, are at every moment of every run an initial piece of the history
      of announced status changes as they were committed: none passed over, none invented, none out of
      order, and each with the edge really taken. Whether they arrive is another matter. */
  lemma RequestsFollowHistory(maxAttempts: nat, t: seq<Action>)
    requires Legal(maxAttempts, t)
    ensures AllRequested(Requested(After(maxAttempts, t).sent)) <= History.Announcing(History.Committed(maxAttempts, t))
  {
    hide Apply, Enabled, Posts;
    Reachable(maxAttempts, t);
    var s := After(maxAttempts, t);
    forall i, k | 0 <= i < |s.sent| && 0 <= k < s.sent[i].rowid ensures Posted(s.sent, k) {
      NothingSkipped(maxAttempts, t, i, k);
      var j := PostAt(s.sent, k);
    }
    RequestedInFull(s.sent, s.db.outbox);
    RequestedMore(Requested(s.sent), s.db.outbox, |Requested(s.sent)|);
    History.OutboxIsHistory(maxAttempts, t);
  }
}
