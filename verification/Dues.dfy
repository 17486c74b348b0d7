/** When an event may be sent, and what it says of the time: over every run. */
module Dues {
  import opened Base
  import opened Status
  import opened Tables
  import opened System
  import opened Invariants
  import opened Delivery
  import opened Columns
  import History

  /** The time an action is taken at, if it is a swap. */
  function SwapTime(a: Action): int {
    if a.Swap? then a.now else if a.HookSwap? then a.now else if a.PollSwap? then a.now else 0
  }

  /** When the event was committed: the time of the swap that queued it. */
  ghost function CommittedAt(maxAttempts: nat, t: seq<Action>, k: nat): int
    requires Legal(maxAttempts, t) && k < |After(maxAttempts, t).db.outbox|
  {
    var r, a := t[..|t| - 1], t[|t| - 1];
    if k < |After(maxAttempts, r).db.outbox| then CommittedAt(maxAttempts, r, k) else SwapTime(a)
  }

  /** Since when it may be tried: since it was committed, or since what its last recorded failure set. */
  ghost function DueSince(maxAttempts: nat, t: seq<Action>, k: nat): int
    requires Legal(maxAttempts, t) && k < |After(maxAttempts, t).db.outbox|
  {
    var r, a := t[..|t| - 1], t[|t| - 1];
    if k >= |After(maxAttempts, r).db.outbox| then SwapTime(a)
    else if a.Record? && AtHead(After(maxAttempts, r), k) then a.next
    else DueSince(maxAttempts, r, k)
  }

  /** What one action does to an event that is queued. */
  lemma QueuedKept(s: Sys, a: Action, k: nat)
    requires BatchInv(s) && Enabled(s, a) && k < |s.db.outbox|
    ensures var b := Apply(s, a).db.outbox;
            && k < |b| && b[k].payload == s.db.outbox[k].payload
            && b[k].nextAttemptAt == if a.Record? && AtHead(s, k) then a.next else s.db.outbox[k].nextAttemptAt
  {
    if a.Mark? || a.Record? {
      OutcomeWrites(s, a);
      hide Apply, Enabled;
    } else {
      OutboxGrows(s, a);
      hide Apply, Enabled, BatchInv;
      EventKept(s.db.outbox, Apply(s, a).db.outbox, k);
    }
  }

  /** The payload says when it was queued, in the event and on its row. */
  predicate Dated(p: Payload, at: int) {
    && p.at == at
    && (p.TransferPayload? ==> p.row.updatedAt == at && (p.next == Settled ==> p.row.settledAt == Some(at)))
    && (p.PaymentPayload? ==> p.payment.updatedAt == at)
  }

  /** What one action queues. */
  lemma QueuesFresh(s: Sys, a: Action, k: nat)
    requires Inv(s) && Enabled(s, a) && |s.db.outbox| <= k < |Apply(s, a).db.outbox|
    ensures Fresh(Apply(s, a).db.outbox[k], SwapTime(a)) && Dated(Apply(s, a).db.outbox[k].payload, SwapTime(a))
  {
    if a.Swap? {
      SwapQueues(s, a, k);
    } else if a.HookSwap? {
      PaymentQueues(s.db, s.hooks[a.tid], a.now, k);
    } else if a.PollSwap? {
      PaymentQueues(s.db, s.poll.value.read.value, a.now, k);
    } else if a.Mark? || a.Record? {
      OutcomeWrites(s, a);
    } else {
      OthersKeepOutbox(s, a);
    }
  }

  lemma SwapQueues(s: Sys, a: Action, k: nat)
    requires Inv(s) && Enabled(s, a) && a.Swap? && |s.db.outbox| <= k < |Apply(s, a).db.outbox|
    ensures Fresh(Apply(s, a).db.outbox[k], a.now) && Dated(Apply(s, a).db.outbox[k].payload, a.now)
  {
    hide Apply, Enabled, Inv, ApplyObserved, Applies;
    var r := SwapRead(s, a);
    History.TransferSwapEdge(s.db, r.id, r.row, r.observed, a.now);
    SwapWrites(s, a.tid, a.now);
  }

  /** What a swap goes by. */
  lemma SwapRead(s: Sys, a: Action) returns (r: Read)
    requires Enabled(s, a) && a.Swap?
    ensures a.tid in s.engine && s.engine[a.tid] != [] && r == s.engine[a.tid][0]
    ensures Apply(s, a).db == ApplyObserved(s.db, r.id, r.row, r.observed, a.now)
  {
    r := s.engine[a.tid][0];
  }

  lemma PaymentQueues(db: Db, r: PaymentRead, now: int, k: nat)
    requires |db.outbox| <= k < |ApplyPaymentObserved(db, r.hash, r.row, r.observed, now).outbox|
    ensures var e := ApplyPaymentObserved(db, r.hash, r.row, r.observed, now).outbox[k];
            Fresh(e, now) && Dated(e.payload, now)
  {
    History.PaymentSwapEdge(db, r.hash, r.row, r.observed, now);
    PaymentSwapWrites(db, r, now);
  }

  /** In every run an event's due time is the one the run has set, and its payload says when it was
      committed. */
  lemma {:induction false} DueAsSet(maxAttempts: nat, t: seq<Action>, k: nat)
    requires Legal(maxAttempts, t) && k < |After(maxAttempts, t).db.outbox|
    ensures After(maxAttempts, t).db.outbox[k].nextAttemptAt == DueSince(maxAttempts, t, k)
    ensures Dated(After(maxAttempts, t).db.outbox[k].payload, CommittedAt(maxAttempts, t, k))
  {
    hide Apply, Enabled, Inv, Dated;
    assert Init(maxAttempts).db.outbox == [];
    var r, a := t[..|t| - 1], t[|t| - 1];
    Reachable(maxAttempts, r);
    if k < |After(maxAttempts, r).db.outbox| {
      DueAsSet(maxAttempts, r, k);
      BatchOf(After(maxAttempts, r));
      QueuedKept(After(maxAttempts, r), a, k);
    } else {
      QueuesFresh(After(maxAttempts, r), a, k);
    }
  }

  lemma BatchOf(s: Sys)
    requires Inv(s)
    ensures BatchInv(s)
  {
  }

  lemma {:induction false} UnfailedDue(maxAttempts: nat, t: seq<Action>, k: nat)
    requires Legal(maxAttempts, t) && k < |After(maxAttempts, t).db.outbox| && Failures(maxAttempts, t, k) == 0
    ensures DueSince(maxAttempts, t, k) == CommittedAt(maxAttempts, t, k)
  {
    hide Apply, Enabled;
    assert Init(maxAttempts).db.outbox == [];
    var r, a := t[..|t| - 1], t[|t| - 1];
    if k < |After(maxAttempts, r).db.outbox| {
      UnfailedDue(maxAttempts, r, k);
    }
  }

  /** In every run an event of which no failure is recorded may be tried at any time from the swap that
      committed it on. */
  lemma DueFromCommit(maxAttempts: nat, t: seq<Action>, k: nat, now: int)
    requires Legal(maxAttempts, t) && k < |After(maxAttempts, t).db.outbox| && Failures(maxAttempts, t, k) == 0
    requires CommittedAt(maxAttempts, t, k) <= now
    ensures After(maxAttempts, t).db.outbox[k].nextAttemptAt <= now
  {
    DueAsSet(maxAttempts, t, k);
    UnfailedDue(maxAttempts, t, k);
  }

  /** A swap that settles a row stamps it with its time, for good. */
  lemma SettledIsStamped(maxAttempts: nat, t: seq<Action>, n: nat, tid: Tid, now: int)
    requires Legal(maxAttempts, t) && n < |t| && t[n] == Swap(tid, now) && Legal(maxAttempts, t[..n])
    requires tid in After(maxAttempts, t[..n]).engine && After(maxAttempts, t[..n]).engine[tid] != []
    requires var s, r := After(maxAttempts, t[..n]), After(maxAttempts, t[..n]).engine[tid][0];
             Applies(s.db, r.id, r.row, r.observed) && r.observed == Settled
    ensures var id, rows := After(maxAttempts, t[..n]).engine[tid][0].id, After(maxAttempts, t).db.transfers;
            id < |rows| && rows[id].status == Settled && rows[id].settledAt == Some(now)
  {
    hide Apply, Enabled, Inv;
    var s := After(maxAttempts, t[..n]);
    PrefixLegal(maxAttempts, t, n + 1);
    assert t[..n + 1][..n] == t[..n] && t[..n + 1][n] == Swap(tid, now);
    Reachable(maxAttempts, t[..n]);
    SwapWrites(s, tid, now);
    History.RowsOnlyGrow(maxAttempts, t, n + 1);
  }

  // ------------------------------------------------------------ how many are fetched

  /** How many events from a rowid on are undelivered and have attempts left. */
  function Pending(outbox: seq<Event>, maxAttempts: nat, from: nat): nat
    requires from <= |outbox|
    decreases |outbox| - from
  {
    if from == |outbox| then 0 else
    Pending(outbox, maxAttempts, from + 1)
    + (if outbox[from].deliveredAt.None? && outbox[from].attempts < maxAttempts then 1 else 0)
  }

  lemma {:induction false} FetchedCount(outbox: seq<Event>, maxAttempts: nat, from: nat, limit: nat)
    requires from <= |outbox|
    ensures var n := Pending(outbox, maxAttempts, from);
            |LiveFrom(outbox, maxAttempts, from, limit)| == if n < limit then n else limit
    decreases |outbox| - from
  {
    if from < |outbox| && limit > 0 {
      FetchedCount(outbox, maxAttempts, from + 1, if Live(outbox[from], maxAttempts) then limit - 1 else limit);
    }
  }

  /** A query fetches a hundred events, or all there are. */
  lemma HundredFetched(outbox: seq<Event>, maxAttempts: nat)
    ensures var n := Pending(outbox, maxAttempts, 0);
            |UndeliveredEvents(outbox, maxAttempts)| == if n < 100 then n else 100
  {
    FetchedCount(outbox, maxAttempts, 0, BATCH_LIMIT);
  }

  /** Every live event was committed at or before a time, and none has failed. */
  ghost predicate Unfailed(maxAttempts: nat, t: seq<Action>, now: int)
    requires Legal(maxAttempts, t)
  {
    forall k: nat :: k < |After(maxAttempts, t).db.outbox| && Live(After(maxAttempts, t).db.outbox[k], maxAttempts) ==>
      Failures(maxAttempts, t, k) == 0 && CommittedAt(maxAttempts, t, k) <= now
  }

  lemma UnfailedAllDue(maxAttempts: nat, t: seq<Action>, now: int)
    requires Legal(maxAttempts, t) && Unfailed(maxAttempts, t, now)
    ensures var outbox := After(maxAttempts, t).db.outbox;
            forall k: nat :: k < |outbox| && Live(outbox[k], maxAttempts) ==> outbox[k].nextAttemptAt <= now
  {
    var outbox := After(maxAttempts, t).db.outbox;
    forall k: nat | k < |outbox| && Live(outbox[k], maxAttempts) ensures outbox[k].nextAttemptAt <= now {
      DueFromCommit(maxAttempts, t, k, now);
    }
  }
}
