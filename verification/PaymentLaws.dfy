/** Payments: two unlocked writers race on every hash, and a failed hash may restart. */
module PaymentLaws {
  import opened Base
  import opened Status
  import opened Tables
  import opened System
  import opened Invariants

  /** A payment's status in a snapshot, or None before it is first seen. */
  function Seen(db: Db, hash: string): Option<PaymentStatus> {
    if hash in db.payments then Some(db.payments[hash].status) else None
  }

  function Ended(db: Db, hash: string): nat {
    if Seen(db, hash).Some? && Seen(db, hash).value.Terminal() then 1 else 0
  }

  /** How many outbox events tell of a hash. */
  function EventsAbout(outbox: seq<Event>, hash: string): nat {
    if outbox == [] then 0 else
    EventsAbout(outbox[..|outbox| - 1], hash) + (if AboutPayment(outbox[|outbox| - 1].payload, hash) then 1 else 0)
  }

  /** The status the newest event about a hash tells. */
  function LastTold(outbox: seq<Event>, hash: string): Option<PaymentStatus> {
    if outbox == [] then None
    else if AboutPayment(outbox[|outbox| - 1].payload, hash) then Some(outbox[|outbox| - 1].payload.nextPayment)
    else LastTold(outbox[..|outbox| - 1], hash)
  }

  /** Between two snapshots a terminal hash went back to a live status. */
  function Restarted(a: Db, b: Db, hash: string): nat {
    if Seen(a, hash).Some? && Seen(b, hash).Some?
       && Seen(a, hash).value.Terminal() && !Seen(b, hash).value.Terminal() then 1 else 0
  }

  /** Between two snapshots the hash appeared, already terminal. */
  function BornEnded(a: Db, b: Db, hash: string): nat {
    if Seen(a, hash).None? && Seen(b, hash).Some? && Seen(b, hash).value.Terminal() then 1 else 0
  }

  function Restarts(maxAttempts: nat, t: seq<Action>, hash: string): nat
    requires Legal(maxAttempts, t)
  {
    if t == [] then 0 else
    var r := t[..|t| - 1];
    Restarts(maxAttempts, r, hash) + Restarted(After(maxAttempts, r).db, After(maxAttempts, t).db, hash)
  }

  function BornTerminal(maxAttempts: nat, t: seq<Action>, hash: string): nat
    requires Legal(maxAttempts, t)
  {
    if t == [] then 0 else
    var r := t[..|t| - 1];
    BornTerminal(maxAttempts, r, hash) + BornEnded(After(maxAttempts, r).db, After(maxAttempts, t).db, hash)
  }

  // ----------------------------------------------------------------- one action

  lemma {:induction false} SamePayloads(a: seq<Event>, b: seq<Event>, hash: string)
    requires |a| == |b| && forall k :: 0 <= k < |a| ==> a[k].payload == b[k].payload
    ensures EventsAbout(a, hash) == EventsAbout(b, hash) && LastTold(a, hash) == LastTold(b, hash)
  {
    if a != [] {
      SamePayloads(a[..|a| - 1], b[..|b| - 1], hash);
    }
  }

  /** What one action can do to a hash and to the events about it. */
  predicate Accounted(a: Db, b: Db, hash: string) {
    && EventsAbout(b.outbox, hash) + BornEnded(a, b, hash) + Ended(a, hash)
       == EventsAbout(a.outbox, hash) + Restarted(a, b, hash) + Ended(b, hash)
    && (Seen(a, hash).Some? ==> Seen(b, hash).Some?)
    && (Seen(a, hash) == Some(Succeeded) ==> Seen(b, hash) == Some(Succeeded))
    && (Restarted(a, b, hash) == 1 ==> Seen(b, hash) == Some(Pending))
    && (if Ended(b, hash) == 1 && Ended(a, hash) == 0 && Seen(a, hash).Some?
        then LastTold(b.outbox, hash) == Seen(b, hash)
        else LastTold(b.outbox, hash) == LastTold(a.outbox, hash))
    && (Ended(a, hash) == 1 && Ended(b, hash) == 1 ==> Seen(a, hash) == Seen(b, hash))
  }

  lemma SwapAccounted(db: Db, key: string, row: Payment, observed: PaymentStatus, now: int, hash: string)
    ensures Accounted(db, ApplyPaymentObserved(db, key, row, observed, now), hash)
  {
    var b := ApplyPaymentObserved(db, key, row, observed, now);
    if |b.outbox| > |db.outbox| {
      assert b.outbox[..|b.outbox| - 1] == db.outbox;
    }
  }

  lemma UpsertAccounted(db: Db, n: NewPayment, lastSeenAt: Option<int>, now: int, hash: string)
    requires UpsertPayment(db.payments, n, lastSeenAt, now).Ok?
    ensures Accounted(db, db.(payments := UpsertPayment(db.payments, n, lastSeenAt, now).value), hash)
  {
  }

  lemma SettingBaselineAccounted(db: Db, baseline: Option<int>, hash: string)
    ensures Accounted(db, db.(baseline := baseline), hash)
  {
  }

  lemma TransferSwapAccounted(db: Db, r: Read, now: int, hash: string)
    ensures Accounted(db, ApplyObserved(db, r.id, r.row, r.observed, now), hash)
  {
    var b := ApplyObserved(db, r.id, r.row, r.observed, now);
    if |b.outbox| > |db.outbox| {
      assert b.outbox[..|b.outbox| - 1] == db.outbox;
    }
  }

  lemma QuietPayloads(s: Sys, a: Action)
    requires Inv(s) && Enabled(s, a) && !PaymentWrite(a) && !a.Swap?
    ensures var b := Apply(s, a).db.outbox;
            |b| == |s.db.outbox| && forall k :: 0 <= k < |b| ==> b[k].payload == s.db.outbox[k].payload
  {
    if a.Mark? || a.Record? {
      assert FetchedCurrent(s.db.outbox, s.batch[0]);
    } else {
      OthersKeepOutbox(s, a);
      hide Apply;
    }
  }

  lemma QuietAccounted(s: Sys, a: Action, hash: string)
    requires Inv(s) && Enabled(s, a) && !PaymentWrite(a) && !a.Swap?
    ensures Accounted(s.db, Apply(s, a).db, hash)
  {
    hide Accounted, Inv;
    OthersKeepPayments(s, a);
    QuietPayloads(s, a);
    DeliveryAccounted(s.db, Apply(s, a).db, hash);
  }

  /** Transfers and delivery columns are nothing to a hash. */
  lemma DeliveryAccounted(a: Db, b: Db, hash: string)
    requires b.payments == a.payments && |b.outbox| == |a.outbox|
    requires forall k :: 0 <= k < |b.outbox| ==> b.outbox[k].payload == a.outbox[k].payload
    ensures Accounted(a, b, hash)
  {
    SamePayloads(a.outbox, b.outbox, hash);
  }

  lemma StepAccounted(s: Sys, a: Action, hash: string)
    requires Inv(s) && Enabled(s, a)
    ensures Accounted(s.db, Apply(s, a).db, hash)
  {
    hide Accounted, Inv;
    SettingBaselineAccounted(s.db, s.db.baseline, hash);
    if a.Swap? {
      TransferSwapAccounted(s.db, s.engine[a.tid][0], a.now, hash);
    } else if a.HookSwap? {
      var r := s.hooks[a.tid];
      SwapAccounted(s.db, r.hash, r.row, r.observed, a.now, hash);
    } else if a.PollSwap? {
      var r := s.poll.value.read.value;
      SwapAccounted(s.db, r.hash, r.row, r.observed, a.now, hash);
    } else if a.HookUpsert? {
      if AmountsFit(a.p) { UpsertAccounted(s.db, a.p, None, a.now, hash); }
    } else if a.PollUpsert? {
      var n := a.p.(status := InsertStatus(s.poll.value.baseline, a.p.status));
      if AmountsFit(n) { UpsertAccounted(s.db, n, Some(a.now), a.now, hash); }
    } else if a.PollEnd? {
      SettingBaselineAccounted(s.db, Apply(s, a).db.baseline, hash);
    } else {
      QuietAccounted(s, a, hash);
    }
  }

  // ----------------------------------------------------------------- every run

  /** Conservation: whatever interleaving of the poll and the hooks, and through any number of
      restarts of the hash, it has one event per time it ended, except for being born ended. */
  lemma {:induction false} Conservation(maxAttempts: nat, t: seq<Action>, hash: string)
    requires Legal(maxAttempts, t)
    ensures var db := After(maxAttempts, t).db;
            EventsAbout(db.outbox, hash) + BornTerminal(maxAttempts, t, hash)
            == Restarts(maxAttempts, t, hash) + Ended(db, hash)
  {
    if t != [] {
      var r := t[..|t| - 1];
      Conservation(maxAttempts, r, hash);
      Reachable(maxAttempts, r);
      StepAccounted(After(maxAttempts, r), t[|t| - 1], hash);
    }
  }

  /** Once seen a hash stays, and Succeeded is absorbing. */
  lemma {:induction false} SucceededIsFinal(maxAttempts: nat, t: seq<Action>, n: nat, hash: string)
    requires Legal(maxAttempts, t) && n <= |t|
    ensures Legal(maxAttempts, t[..n])
    ensures Seen(After(maxAttempts, t[..n]).db, hash).Some? ==> Seen(After(maxAttempts, t).db, hash).Some?
    ensures Seen(After(maxAttempts, t[..n]).db, hash) == Some(Succeeded) ==>
              Seen(After(maxAttempts, t).db, hash) == Some(Succeeded)
  {
    if n == |t| {
      assert t[..n] == t;
    } else {
      var r := t[..|t| - 1];
      SucceededIsFinal(maxAttempts, r, n, hash);
      assert r[..n] == t[..n];
      Reachable(maxAttempts, r);
      StepAccounted(After(maxAttempts, r), t[|t| - 1], hash);
    }
  }

  // --------------------------------------------------------------- the baseline law

  /** A row is born terminal only while the baseline is unset. */
  lemma BornTerminalStep(s: Sys, a: Action, hash: string)
    requires Inv(s) && Enabled(s, a) && s.db.baseline.Some?
    ensures BornEnded(s.db, Apply(s, a).db, hash) == 0
    ensures Apply(s, a).db.baseline.Some?
  {
    if a.HookUpsert? || a.PollUpsert? {
      UpsertBornLive(s, a, hash);
    } else {
      OnlyUpsertsAdd(s, a);
    }
  }

  lemma UpsertBornLive(s: Sys, a: Action, hash: string)
    requires PollInv(s) && Enabled(s, a) && s.db.baseline.Some? && (a.HookUpsert? || a.PollUpsert?)
    ensures BornEnded(s.db, Apply(s, a).db, hash) == 0 && Apply(s, a).db.baseline.Some?
  {
  }

  lemma OnlyUpsertsAdd(s: Sys, a: Action)
    requires Enabled(s, a) && !a.HookUpsert? && !a.PollUpsert?
    ensures Apply(s, a).db.payments.Keys == s.db.payments.Keys
    ensures s.db.baseline.Some? ==> Apply(s, a).db.baseline.Some?
  {
  }

  /** A hash first seen after the baseline was set is not born terminal, by any path. */
  lemma {:induction false} NotBornTerminal(maxAttempts: nat, t: seq<Action>, n: nat, hash: string)
    requires Legal(maxAttempts, t) && n <= |t| && Legal(maxAttempts, t[..n])
    requires After(maxAttempts, t[..n]).db.baseline.Some? && Seen(After(maxAttempts, t[..n]).db, hash).None?
    ensures After(maxAttempts, t).db.baseline.Some? && BornTerminal(maxAttempts, t, hash) == 0
  {
    if n == |t| {
      assert t[..n] == t;
      Unseen(maxAttempts, t, hash);
    } else {
      var r := t[..|t| - 1];
      assert r[..n] == t[..n];
      NotBornTerminal(maxAttempts, r, n, hash);
      Reachable(maxAttempts, r);
      BornTerminalStep(After(maxAttempts, r), t[|t| - 1], hash);
    }
  }

  lemma {:induction false} Unseen(maxAttempts: nat, t: seq<Action>, hash: string)
    requires Legal(maxAttempts, t) && Seen(After(maxAttempts, t).db, hash).None?
    ensures BornTerminal(maxAttempts, t, hash) == 0
  {
    if t != [] {
      var r := t[..|t| - 1];
      Reachable(maxAttempts, r);
      StepAccounted(After(maxAttempts, r), t[|t| - 1], hash);
      Unseen(maxAttempts, r, hash);
    }
  }

  /** A terminal hash that was not born so has been told of: its newest event tells its status. */
  lemma {:induction false} EndIsTold(maxAttempts: nat, t: seq<Action>, hash: string)
    requires Legal(maxAttempts, t) && BornTerminal(maxAttempts, t, hash) == 0
    ensures var db := After(maxAttempts, t).db;
            Ended(db, hash) == 1 ==> LastTold(db.outbox, hash) == Seen(db, hash)
  {
    if t != [] {
      var r := t[..|t| - 1];
      EndIsTold(maxAttempts, r, hash);
      Reachable(maxAttempts, r);
      StepAccounted(After(maxAttempts, r), t[|t| - 1], hash);
    }
  }

  /** The baseline law: a payment first seen, by any writer, after the baseline was set is never
      terminal without its newest event saying so. */
  lemma BaselineLaw(maxAttempts: nat, t: seq<Action>, n: nat, hash: string)
    requires Legal(maxAttempts, t) && n <= |t| && Legal(maxAttempts, t[..n])
    requires After(maxAttempts, t[..n]).db.baseline.Some? && Seen(After(maxAttempts, t[..n]).db, hash).None?
    ensures var db := After(maxAttempts, t).db;
            Ended(db, hash) == 1 ==>
              && LastTold(db.outbox, hash) == Seen(db, hash)
              && EventsAbout(db.outbox, hash) == Restarts(maxAttempts, t, hash) + 1
  {
    NotBornTerminal(maxAttempts, t, n, hash);
    EndIsTold(maxAttempts, t, hash);
    Conservation(maxAttempts, t, hash);
  }

  /** A poll's upsert of a terminal payment that is new, or still pending from an earlier poll. */
  lemma PollUpsertWaits(s: Sys, p: NewPayment, now: int)
    requires s.poll.None? && s.db.baseline.Some? && p.status.Terminal() && AmountsFit(p)
    requires Seen(s.db, p.hash) in {None, Some(Pending)}
    ensures Enabled(s, PollStart) && Enabled(Apply(s, PollStart), PollUpsert(p, now))
    ensures var u := Apply(Apply(s, PollStart), PollUpsert(p, now));
            && Seen(u.db, p.hash) == Some(Pending)
            && u.db.outbox == s.db.outbox && u.db.baseline == s.db.baseline
            && u.poll.Some? && u.poll.value.read.Some?
            && var r := u.poll.value.read.value;
               r.hash == p.hash && r.row.status == Pending && r.observed == p.status
  {
  }

  lemma PendingSwapTells(db: Db, hash: string, row: Payment, observed: PaymentStatus, now: int)
    requires observed.Terminal() && row.status == Pending && Seen(db, hash) == Some(Pending)
    ensures var b := ApplyPaymentObserved(db, hash, row, observed, now);
            && Seen(b, hash) == Some(observed) && LastTold(b.outbox, hash) == Some(observed)
            && EventsAbout(b.outbox, hash) == EventsAbout(db.outbox, hash) + 1
  {
    var b := ApplyPaymentObserved(db, hash, row, observed, now);
    assert b.outbox[..|b.outbox| - 1] == db.outbox;
  }

  lemma PollSwapEmits(s: Sys, now: int)
    requires s.poll.Some? && s.poll.value.read.Some?
    requires var r := s.poll.value.read.value;
             r.observed.Terminal() && r.row.status == Pending && Seen(s.db, r.hash) == Some(Pending)
    ensures var r := s.poll.value.read.value;
            var done := Apply(s, PollSwap(now)).db;
            && Seen(done, r.hash) == Some(r.observed)
            && LastTold(done.outbox, r.hash) == Some(r.observed)
            && EventsAbout(done.outbox, r.hash) == EventsAbout(s.db.outbox, r.hash) + 1
  {
    var r := s.poll.value.read.value;
    PendingSwapTells(s.db, r.hash, r.row, r.observed, now);
  }

  /** The read a payment swap goes by, whoever takes it. */
  function SwapRead(s: Sys, a: Action): Option<PaymentRead>
    requires Enabled(s, a)
  {
    if a.HookSwap? then Some(s.hooks[a.tid]) else if a.PollSwap? then s.poll.value.read else None
  }

  /** The action is a swap that applies to the hash. */
  predicate MovesHash(s: Sys, a: Action, hash: string)
    requires Enabled(s, a)
  {
    var r := SwapRead(s, a);
    r.Some? && r.value.hash == hash && PaymentApplies(s.db, hash, r.value.row, r.value.observed)
  }

  /** From the n-th action on, no swap applies to the hash. */
  ghost predicate Untouched(maxAttempts: nat, t: seq<Action>, n: nat, hash: string)
    requires Legal(maxAttempts, t)
  {
    |t| <= n ||
    (Untouched(maxAttempts, t[..|t| - 1], n, hash)
     && !MovesHash(After(maxAttempts, t[..|t| - 1]), t[|t| - 1], hash))
  }

  predicate ReadsPending(r: PaymentRead, hash: string) {
    r.hash == hash ==> r.row.status == Pending
  }

  /** The hash is pending and untold, and so it is to everyone who has read it. */
  predicate Awaits(s: Sys, hash: string) {
    && Seen(s.db, hash) == Some(Pending) && EventsAbout(s.db.outbox, hash) == 0
    && (forall tid :: tid in s.hooks ==> ReadsPending(s.hooks[tid], hash))
    && (s.poll.Some? && s.poll.value.read.Some? ==> ReadsPending(s.poll.value.read.value, hash))
  }

  lemma {:induction false} UnseenUntold(db: Db, hash: string, n: nat)
    requires OutboxInv(db) && hash !in db.payments && n <= |db.outbox|
    ensures EventsAbout(db.outbox[..n], hash) == 0
  {
    if n > 0 {
      UnseenUntold(db, hash, n - 1);
      assert db.outbox[..n][..n - 1] == db.outbox[..n - 1];
      assert EventOk(db, db.outbox[n - 1].payload);
    }
  }

  /** The crash leaves the row pending. */
  lemma CrashAwaits(s: Sys, p: NewPayment, now: int)
    requires Inv(s) && Enabled(s, PollUpsert(p, now)) && s.db.baseline.Some?
    requires p.hash !in s.db.payments && p.status.Terminal() && AmountsFit(p)
    ensures Awaits(Apply(Apply(s, PollUpsert(p, now)), Crash), p.hash)
  {
    hide Inv, PollUpserted, EventsAbout, Seen;
    UpsertWaits(s, p, now);
    assert Apply(s, PollUpsert(p, now)) == PollUpserted(s, p, now);
  }

  lemma UpsertWaits(s: Sys, p: NewPayment, now: int)
    requires Inv(s) && s.poll.Some? && s.db.baseline.Some?
    requires p.hash !in s.db.payments && p.status.Terminal() && AmountsFit(p)
    ensures var t := PollUpserted(s, p, now);
            Seen(t.db, p.hash) == Some(Pending) && EventsAbout(t.db.outbox, p.hash) == 0
  {
    UnseenUntold(s.db, p.hash, |s.db.outbox|);
    assert s.db.outbox[..|s.db.outbox|] == s.db.outbox;
  }

  lemma SwapElsewhere(db: Db, key: string, row: Payment, observed: PaymentStatus, now: int, hash: string)
    requires key == hash ==> !PaymentApplies(db, key, row, observed)
    ensures Seen(ApplyPaymentObserved(db, key, row, observed, now), hash) == Seen(db, hash)
  {
  }

  lemma AwaitsStatus(s: Sys, a: Action, hash: string)
    requires Inv(s) && Enabled(s, a) && Seen(s.db, hash) == Some(Pending) && !MovesHash(s, a, hash)
    ensures Seen(Apply(s, a).db, hash) == Some(Pending)
  {
    hide ApplyPaymentObserved, PlanPayment, Inv;
    if a.HookSwap? || a.PollSwap? {
      var r := SwapRead(s, a).value;
      SwapElsewhere(s.db, r.hash, r.row, r.observed, a.now, hash);
    } else if PaymentWrite(a) {
    } else {
      OthersKeepPayments(s, a);
      hide Apply, Enabled, Inv;
    }
  }

  lemma AwaitsReads(s: Sys, a: Action, hash: string)
    requires Enabled(s, a) && Awaits(s, hash)
    ensures var t := Apply(s, a);
            && (forall tid :: tid in t.hooks ==> ReadsPending(t.hooks[tid], hash))
            && (t.poll.Some? && t.poll.value.read.Some? ==> ReadsPending(t.poll.value.read.value, hash))
  {
    hide FindMatch, HolderOf, ExpiredBelow, PlanTransition, PlanPayment, LiveFrom, EventsAbout;
  }

  lemma AwaitsStep(s: Sys, a: Action, hash: string)
    requires Inv(s) && Enabled(s, a) && Awaits(s, hash) && !MovesHash(s, a, hash)
    ensures Awaits(Apply(s, a), hash)
  {
    AwaitsStatus(s, a, hash);
    AwaitsReads(s, a, hash);
    StepAccounted(s, a, hash);
    hide Apply, Enabled, Inv;
  }

  lemma {:induction false} StillAwaits(maxAttempts: nat, t: seq<Action>, n: nat, hash: string)
    requires Legal(maxAttempts, t) && n <= |t| && Legal(maxAttempts, t[..n])
    requires Awaits(After(maxAttempts, t[..n]), hash) && Untouched(maxAttempts, t, n, hash)
    ensures Awaits(After(maxAttempts, t), hash)
  {
    hide Apply, Enabled, Inv, Awaits;
    if n == |t| {
      assert t[..n] == t;
    } else {
      var r := t[..|t| - 1];
      assert r[..n] == t[..n];
      StillAwaits(maxAttempts, r, n, hash);
      Reachable(maxAttempts, r);
      AwaitsStep(After(maxAttempts, r), t[|t| - 1], hash);
    }
  }

  /** Whoever next swaps a terminal status in tells it. */
  lemma AwaitedIsTold(s: Sys, a: Action, hash: string)
    requires Enabled(s, a) && Awaits(s, hash)
    requires var r := SwapRead(s, a); r.Some? && r.value.hash == hash && r.value.observed.Terminal()
    ensures var b, told := Apply(s, a).db, SwapRead(s, a).value.observed;
            && Seen(b, hash) == Some(told) && LastTold(b.outbox, hash) == Some(told) && EventsAbout(b.outbox, hash) == 1
  {
    var r := SwapRead(s, a).value;
    PendingSwapTells(s.db, hash, r.row, r.observed, a.now);
    hide EventsAbout, LastTold, ApplyPaymentObserved, Seen, PlanPayment;
  }

  /** A crash between a poll's upsert and its swap loses nothing. In every run that had a poll take up a
      new hash as terminal after the baseline, crashed before the swap, and went on in any way - with
      any other entries, polls, hooks and crashes - the hash is pending and untold until a swap applies
      to it; and a swap that finds it terminal, whoever takes it, tells that, once. */
  lemma CrashThenEmit(maxAttempts: nat, t: seq<Action>, p: NewPayment, now: int, u: seq<Action>, next: Action)
    requires Legal(maxAttempts, t) && Legal(maxAttempts, t + [PollUpsert(p, now), Crash] + u)
    requires After(maxAttempts, t).db.baseline.Some? && p.hash !in After(maxAttempts, t).db.payments
    requires p.status.Terminal() && AmountsFit(p)
    requires Untouched(maxAttempts, t + [PollUpsert(p, now), Crash] + u, |t| + 2, p.hash)
    requires Enabled(After(maxAttempts, t + [PollUpsert(p, now), Crash] + u), next)
    ensures var s := After(maxAttempts, t + [PollUpsert(p, now), Crash] + u);
            && Seen(s.db, p.hash) == Some(Pending) && EventsAbout(s.db.outbox, p.hash) == 0
            && var r := SwapRead(s, next);
               r.Some? && r.value.hash == p.hash && r.value.observed.Terminal() ==>
                 var b := Apply(s, next).db;
                 && Seen(b, p.hash) == Some(r.value.observed) && LastTold(b.outbox, p.hash) == Some(r.value.observed)
                 && EventsAbout(b.outbox, p.hash) == 1
  {
    var w := t + [PollUpsert(p, now), Crash] + u;
    CrashPoint(maxAttempts, t, p, now, u);
    StillAwaits(maxAttempts, w, |t| + 2, p.hash);
    var s := After(maxAttempts, w);
    var r := SwapRead(s, next);
    if r.Some? && r.value.hash == p.hash && r.value.observed.Terminal() {
      AwaitedIsTold(s, next, p.hash);
    }
  }

  lemma CrashPoint(maxAttempts: nat, t: seq<Action>, p: NewPayment, now: int, u: seq<Action>)
    requires Legal(maxAttempts, t) && Legal(maxAttempts, t + [PollUpsert(p, now), Crash] + u)
    requires After(maxAttempts, t).db.baseline.Some? && p.hash !in After(maxAttempts, t).db.payments
    requires p.status.Terminal() && AmountsFit(p)
    ensures var w := t + [PollUpsert(p, now), Crash] + u;
            Legal(maxAttempts, w[..|t| + 2]) && Awaits(After(maxAttempts, w[..|t| + 2]), p.hash)
  {
    hide Apply, Enabled, Inv, Awaits;
    var w := t + [PollUpsert(p, now), Crash] + u;
    PrefixLegal(maxAttempts, w, |t| + 2);
    var c := w[..|t| + 2];
    assert c[..|c| - 1] == t + [PollUpsert(p, now)] && c[|c| - 1] == Crash;
    assert (t + [PollUpsert(p, now)])[..|t|] == t;
    Reachable(maxAttempts, t);
    CrashAwaits(After(maxAttempts, t), p, now);
  }

  /** The shortest such run: crash at once, and poll the same entry again at once. */
  lemma CrashThenPoll(s: Sys, p: NewPayment, first: int, second: int)
    requires s.poll.None? && s.db.baseline.Some?
    requires p.hash !in s.db.payments && p.status.Terminal() && AmountsFit(p)
    ensures var crashed := Apply(Apply(Apply(s, PollStart), PollUpsert(p, first)), Crash);
            && Seen(crashed.db, p.hash) == Some(Pending) && crashed.db.outbox == s.db.outbox
            && Enabled(crashed, PollStart) && Enabled(Apply(crashed, PollStart), PollUpsert(p, second))
            && var again := Apply(Apply(crashed, PollStart), PollUpsert(p, second));
               Enabled(again, PollSwap(second)) &&
               var done := Apply(again, PollSwap(second)).db;
               && Seen(done, p.hash) == Some(p.status)
               && LastTold(done.outbox, p.hash) == Some(p.status)
               && EventsAbout(done.outbox, p.hash) == EventsAbout(s.db.outbox, p.hash) + 1
  {
    PollUpsertWaits(s, p, first);
    var crashed := Apply(Apply(Apply(s, PollStart), PollUpsert(p, first)), Crash);
    PollUpsertWaits(crashed, p, second);
    PollSwapEmits(Apply(Apply(crashed, PollStart), PollUpsert(p, second)), second);
  }
}
