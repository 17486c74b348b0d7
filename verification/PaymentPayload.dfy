/** The `payment` object in the body of a webhook. Two writers without the mutex read and write every
    hash, and a status may come back, so a swap may apply to a row that is not the one that was read. */
module PaymentPayloads {
  import opened Base
  import opened Status
  import opened Tables
  import opened System
  import opened Invariants
  import opened PaymentLaws

  /** Whose read and swap: the poll's, or a hook's. */
  datatype Writer = Poller | Hook(tid: Tid)

  function ReadOf(s: Sys, w: Writer): Option<PaymentRead> {
    match w
    case Poller => if s.poll.Some? then s.poll.value.read else None
    case Hook(tid) => if tid in s.hooks then Some(s.hooks[tid]) else None
  }

  function SwapOf(w: Writer, now: int): Action {
    match w
    case Poller => PollSwap(now)
    case Hook(tid) => HookSwap(tid, now)
  }

  predicate ReadsAnew(a: Action, w: Writer) {
    match w
    case Poller => a.PollUpsert?
    case Hook(tid) => a.HookUpsert? && a.tid == tid
  }

  /** An upsert of a hash that is stored; the poll's also stamps the time. */
  predicate Upserts(a: Action, hash: string) {
    (a.HookUpsert? || a.PollUpsert?) && a.p.hash == hash && AmountsFit(a.p)
  }

  function StampOf(a: Action): Option<int> {
    if a.PollUpsert? then Some(a.now) else None
  }

  /** The last value upserts of a hash know for each of its columns. */
  datatype Known = Known(direction: Option<Direction>, assetId: Option<string>, assetAmount: Option<u64>,
                         amtMsat: Option<u64>, payeePubkey: Option<string>, lastSeenAt: Option<int>)

  function LastKnown(t: seq<Action>, hash: string): Known {
    if t == [] then Known(None, None, None, None, None, None) else
    var k, a := LastKnown(t[..|t| - 1], hash), t[|t| - 1];
    if !Upserts(a, hash) then k else
    Known(Some(a.p.direction), Coalesce(a.p.assetId, k.assetId), Coalesce(a.p.assetAmount, k.assetAmount),
          Coalesce(a.p.amtMsat, k.amtMsat), Coalesce(a.p.payeePubkey, k.payeePubkey),
          Coalesce(StampOf(a), k.lastSeenAt))
  }

  /** A column is left as it was by writes that last knew `k`. */
  predicate Leaves<T(==)>(k: Option<T>, column: Option<T>) {
    k.Some? ==> k == column
  }

  /** The upserts leave the row as it was read: for each column the last value they know is its own. */
  predicate LeavesAsRead(row: Payment, k: Known) {
    && Leaves(k.direction, Some(row.direction)) && Leaves(k.assetId, row.assetId)
    && Leaves(k.assetAmount, row.assetAmount) && Leaves(k.amtMsat, row.amtMsat)
    && Leaves(k.payeePubkey, row.payeePubkey) && Leaves(k.lastSeenAt, row.lastSeenAt)
  }

  /** The row's columns after a stretch of a run, its status aside. */
  function Written(r: Payment, k: Known): Payment {
    r.(direction := if k.direction.Some? then k.direction.value else r.direction,
       assetId := Coalesce(k.assetId, r.assetId), assetAmount := Coalesce(k.assetAmount, r.assetAmount),
       amtMsat := Coalesce(k.amtMsat, r.amtMsat), payeePubkey := Coalesce(k.payeePubkey, r.payeePubkey),
       lastSeenAt := Coalesce(k.lastSeenAt, r.lastSeenAt))
  }

  /** Equal but for what a swap writes. */
  predicate SameColumns(a: Payment, b: Payment) {
    a == b.(status := a.status, updatedAt := a.updatedAt)
  }

  lemma KnownMore(t: seq<Action>, a: Action, hash: string)
    ensures var k := LastKnown(t, hash);
            LastKnown(t + [a], hash)
            == if !Upserts(a, hash) then k else
               Known(Some(a.p.direction), Coalesce(a.p.assetId, k.assetId), Coalesce(a.p.assetAmount, k.assetAmount),
                     Coalesce(a.p.amtMsat, k.amtMsat), Coalesce(a.p.payeePubkey, k.payeePubkey),
                     Coalesce(StampOf(a), k.lastSeenAt))
  {
    assert (t + [a])[..|t|] == t;
  }

  // ------------------------------------------------------- from the read to the swap

  /** The writer's read is of the row as it was then, and upserts alone have written its columns since. */
  predicate Tracks(s: Sys, w: Writer, seen: map<string, Payment>, t: seq<Action>) {
    ReadOf(s, w).Some? ==>
      var r := ReadOf(s, w).value;
      && r.hash in seen && r.row == seen[r.hash] && r.hash in s.db.payments
      && SameColumns(s.db.payments[r.hash], Written(r.row, LastKnown(t, r.hash)))
  }

  lemma ReadTracks(s: Sys, a: Action, w: Writer)
    requires Enabled(s, a) && ReadsAnew(a, w)
    ensures Tracks(Apply(s, a), w, Apply(s, a).db.payments, [])
  {
    hide FindMatch, HolderOf, ExpiredBelow, PlanTransition, PlanPayment, LiveFrom;
  }

  /** What one action does to the columns of a stored hash. */
  lemma ColumnsStep(s: Sys, a: Action, hash: string)
    requires Enabled(s, a) && hash in s.db.payments
    ensures hash in Apply(s, a).db.payments
    ensures var r, b := s.db.payments[hash], Apply(s, a).db.payments[hash];
            if !Upserts(a, hash) then SameColumns(b, r)
            else b == UpsertedPayment(s.db.payments, a.p, StampOf(a), a.now)
  {
    hide PlanPayment, PlanTransition;
    if a.HookSwap? || a.PollSwap? {
      var r := if a.HookSwap? then s.hooks[a.tid] else s.poll.value.read.value;
      SwapColumns(s.db, r, a.now, hash);
      hide ApplyPaymentObserved;
    } else if !a.HookUpsert? && !a.PollUpsert? {
      OthersColumns(s, a);
      hide Apply, Enabled;
    }
  }

  lemma SwapColumns(db: Db, r: PaymentRead, now: int, hash: string)
    requires hash in db.payments
    ensures var b := ApplyPaymentObserved(db, r.hash, r.row, r.observed, now).payments;
            hash in b && SameColumns(b[hash], db.payments[hash])
  {
  }

  lemma OthersColumns(s: Sys, a: Action)
    requires Enabled(s, a) && !a.HookSwap? && !a.PollSwap? && !a.HookUpsert? && !a.PollUpsert?
    ensures Apply(s, a).db.payments == s.db.payments
  {
    hide FindMatch, HolderOf, ExpiredBelow, PlanTransition, PlanPayment, UpsertedPayment, LiveFrom;
  }

  lemma WrittenMore(payments: map<string, Payment>, row: Payment, t: seq<Action>, a: Action, hash: string, b: Payment)
    requires hash in payments && SameColumns(payments[hash], Written(row, LastKnown(t, hash)))
    requires if !Upserts(a, hash) then SameColumns(b, payments[hash])
             else b == UpsertedPayment(payments, a.p, StampOf(a), a.now)
    ensures SameColumns(b, Written(row, LastKnown(t + [a], hash)))
  {
    KnownMore(t, a, hash);
  }

  /** No other action gives the writer a read. */
  lemma ReadKept(s: Sys, a: Action, w: Writer)
    requires Enabled(s, a) && !ReadsAnew(a, w)
    ensures ReadOf(Apply(s, a), w).Some? ==> ReadOf(Apply(s, a), w) == ReadOf(s, w)
  {
    hide FindMatch, HolderOf, ExpiredBelow, PlanTransition, PlanPayment, UpsertedPayment, LiveFrom;
  }

  lemma TracksStep(s: Sys, a: Action, w: Writer, seen: map<string, Payment>, t: seq<Action>)
    requires Enabled(s, a) && !ReadsAnew(a, w) && Tracks(s, w, seen, t)
    ensures Tracks(Apply(s, a), w, seen, t + [a])
  {
    hide Apply, Enabled, SameColumns, Written, LastKnown, Upserts, UpsertedPayment;
    ReadKept(s, a, w);
    if ReadOf(Apply(s, a), w).Some? {
      var r := ReadOf(s, w).value;
      ColumnsStep(s, a, r.hash);
      WrittenMore(s.db.payments, r.row, t, a, r.hash, Apply(s, a).db.payments[r.hash]);
    }
  }

  /** The writer has not read anew since the n-th action, which was a read of its own. */
  predicate ReadAt(t: seq<Action>, n: nat, w: Writer) {
    n < |t| && ReadsAnew(t[n], w) && forall k :: n < k < |t| ==> !ReadsAnew(t[k], w)
  }

  lemma {:induction false} TracksSinceRead(maxAttempts: nat, t: seq<Action>, n: nat, w: Writer)
    requires Legal(maxAttempts, t) && ReadAt(t, n, w)
    ensures Legal(maxAttempts, t[..n + 1])
    ensures Tracks(After(maxAttempts, t), w, After(maxAttempts, t[..n + 1]).db.payments, t[n + 1..])
  {
    hide Apply, Enabled, Tracks;
    var r, a := t[..|t| - 1], t[|t| - 1];
    if n == |t| - 1 {
      assert t[..n + 1] == t && t[n + 1..] == [];
      ReadTracks(After(maxAttempts, r), a, w);
    } else {
      assert r[..n + 1] == t[..n + 1] && r[n + 1..] + [a] == t[n + 1..];
      TracksSinceRead(maxAttempts, r, n, w);
      TracksStep(After(maxAttempts, r), a, w, After(maxAttempts, t[..n + 1]).db.payments, r[n + 1..]);
    }
  }

  /** Every read a writer holds was taken somewhere in the run. */
  lemma {:induction false} ReadWasTaken(maxAttempts: nat, t: seq<Action>, w: Writer) returns (n: nat)
    requires Legal(maxAttempts, t) && ReadOf(After(maxAttempts, t), w).Some?
    ensures ReadAt(t, n, w)
  {
    hide Apply, Enabled;
    assert t == [] ==> ReadOf(Init(maxAttempts), w).None?;
    var r, a := t[..|t| - 1], t[|t| - 1];
    if ReadsAnew(a, w) {
      n := |t| - 1;
    } else {
      ReadKept(After(maxAttempts, r), a, w);
      n := ReadWasTaken(maxAttempts, r, w);
      assert forall k :: 0 <= k < |r| ==> r[k] == t[k];
    }
  }

  /** What a swap that applies and is told makes of its row, and what it tells. */
  lemma SwapShows(db: Db, r: PaymentRead, now: int)
    requires PaymentApplies(db, r.hash, r.row, r.observed) && r.observed.Terminal()
    ensures var b := ApplyPaymentObserved(db, r.hash, r.row, r.observed, now);
            && r.hash in db.payments && r.hash in b.payments
            && b.payments[r.hash] == db.payments[r.hash].(status := r.observed, updatedAt := now)
            && |b.outbox| == |db.outbox| + 1 && AboutPayment(b.outbox[|db.outbox|].payload, r.hash)
            && b.outbox[|db.outbox|].payload.payment == r.row.(status := r.observed, updatedAt := now)
  {
  }

  lemma WrittenAsRead(row: Payment, now: Payment, k: Known, to: PaymentStatus, at: int)
    requires SameColumns(now, Written(row, k))
    ensures row.(status := to, updatedAt := at) == now.(status := to, updatedAt := at) <==> LeavesAsRead(row, k)
  {
    var a, b := row.(status := to, updatedAt := at), now.(status := to, updatedAt := at);
    assert b == Written(row, k).(status := to, updatedAt := at);
    assert a == b <==> row == Written(row, k);
  }

  /** The `payment` object of a webhook is the mirrored row after the transition if and only if, between
      the read and the swap, the upserts of its hash left each column as it was read: in any run,
      whatever else ran, and even if the status went away and came back in between. */
  lemma PaymentPayloadIsTheRow(maxAttempts: nat, t: seq<Action>, n: nat, w: Writer, now: int)
    requires Legal(maxAttempts, t) && ReadAt(t, n, w) && ReadOf(After(maxAttempts, t), w).Some?
    requires var s, r := After(maxAttempts, t), ReadOf(After(maxAttempts, t), w).value;
             PaymentApplies(s.db, r.hash, r.row, r.observed) && r.observed.Terminal()
    ensures Legal(maxAttempts, t[..n + 1]) && Enabled(After(maxAttempts, t), SwapOf(w, now))
    ensures var s, seen := After(maxAttempts, t), After(maxAttempts, t[..n + 1]).db.payments;
            var r, b := ReadOf(s, w).value, Apply(s, SwapOf(w, now)).db;
            && r.hash in seen && r.row == seen[r.hash] && r.hash in b.payments
            && |b.outbox| == |s.db.outbox| + 1 && AboutPayment(b.outbox[|s.db.outbox|].payload, r.hash)
            && (b.outbox[|s.db.outbox|].payload.payment == b.payments[r.hash]
                <==> LeavesAsRead(r.row, LastKnown(t[n + 1..], r.hash)))
  {
    hide LeavesAsRead, LastKnown, Written, SameColumns, PaymentApplies, ApplyPaymentObserved;
    TracksSinceRead(maxAttempts, t, n, w);
    var s := After(maxAttempts, t);
    var r := ReadOf(s, w).value;
    SwapIsApplied(s, w, now);
    SwapShows(s.db, r, now);
    WrittenAsRead(r.row, s.db.payments[r.hash], LastKnown(t[n + 1..], r.hash), r.observed, now);
  }

  lemma SwapIsApplied(s: Sys, w: Writer, now: int)
    requires ReadOf(s, w).Some?
    ensures var r := ReadOf(s, w).value;
            && Enabled(s, SwapOf(w, now))
            && Apply(s, SwapOf(w, now)).db == ApplyPaymentObserved(s.db, r.hash, r.row, r.observed, now)
  {
  }
}
