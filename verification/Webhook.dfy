/** The dispatcher: exponential backoff in machine integers, and the in-order delivery loop. */
module Webhook {
  import opened Base
  import opened Status
  import opened Tables
  import opened System
  import opened Invariants
  import opened StoreModel
  import opened Dues

  // -------------------------------------------------------------------- backoff

  function Pow2(n: nat): (p: nat)
    ensures p >= 1
  {
    if n == 0 then 1 else 2 * Pow2(n - 1)
  }

  lemma {:induction false} Pow2Monotone(m: nat, n: nat)
    requires m <= n
    ensures Pow2(m) <= Pow2(n)
  {
    if m < n {
      Pow2Monotone(m, n - 1);
    }
  }

  lemma Pow2Of64()
    ensures Pow2(63) == 0x8000_0000_0000_0000 && Pow2(64) == U64_MAX + 1
  {
    assert Pow2(8) == 256;
    assert Pow2(16) == 0x1_0000;
    assert Pow2(24) == 0x100_0000;
    assert Pow2(32) == 0x1_0000_0000;
    assert Pow2(40) == 0x100_0000_0000;
    assert Pow2(48) == 0x1_0000_0000_0000;
    assert Pow2(56) == 0x100_0000_0000_0000;
  }

  /** `1u64.checked_shl(exp)`: the shift itself cannot overflow below the width. */
  function CheckedShlOne(exp: u32): Option<u64> {
    if exp < 64 then
      Pow2Of64(); Pow2Monotone(exp, 63);
      Some(Pow2(exp))
    else None
  }

  function SaturatingMul(a: u64, b: u64): u64 {
    assert a * b >= 0;
    if a * b <= U64_MAX then a * b else U64_MAX
  }

  function Min(a: int, b: int): int {
    if a <= b then a else b
  }

  /** `next_attempt_delay`. */
  function NextAttemptDelay(attemptsAfter: u32, base: u64, cap: u64): u64 {
    var exp: u32 := if attemptsAfter == 0 then 0 else attemptsAfter - 1;
    var shifted := CheckedShlOne(exp);
    var factor: u64 := if shifted.Some? then shifted.value else U64_MAX;
    Min(cap, SaturatingMul(base, factor))
  }

  /** The documented formula, over unbounded integers. */
  function ExactDelay(attemptsAfter: nat, base: nat, cap: nat): nat {
    Min(cap, base * Pow2(if attemptsAfter == 0 then 0 else attemptsAfter - 1))
  }

  lemma MulMonotone(a: nat, b: nat, c: nat)
    requires b <= c
    ensures a * b <= a * c
  {
  }

  /** The saturating 64-bit code computes the documented backoff, for every configuration and count. */
  lemma BackoffIsExact(attemptsAfter: u32, base: u64, cap: u64)
    ensures NextAttemptDelay(attemptsAfter, base, cap) == ExactDelay(attemptsAfter, base, cap)
  {
    var exp: u32 := if attemptsAfter == 0 then 0 else attemptsAfter - 1;
    if exp >= 64 && base >= 1 {
      Pow2Of64();
      Pow2Monotone(64, exp);
      MulMonotone(base, U64_MAX, Pow2(exp));
      MulMonotone(U64_MAX, 1, base);
    }
  }

  lemma PowersDouble(base: nat, n: nat)
    requires n >= 1
    ensures base * Pow2(0) == base && base * Pow2(n) == 2 * (base * Pow2(n - 1))
  {
    var p := Pow2(n - 1);
    assert Pow2(n) == 2 * p;
    assert base * (2 * p) == 2 * (base * p);
  }

  /** The base after the first failure, then twice as much after each, until the cap is reached. */
  lemma BackoffDoubles(n: u32, base: u64, cap: u64)
    requires 1 <= n < U32_MAX
    ensures NextAttemptDelay(1, base, cap) == if base <= cap then base else cap
    ensures var d := NextAttemptDelay(n, base, cap);
            NextAttemptDelay(n + 1, base, cap) == if 2 * d <= cap then 2 * d else cap
  {
    hide NextAttemptDelay, Pow2;
    BackoffIsExact(1, base, cap);
    BackoffIsExact(n, base, cap);
    BackoffIsExact(n + 1, base, cap);
    PowersDouble(base, n);
  }

  /** The delay never shrinks as attempts accumulate, and never exceeds the cap. */
  lemma BackoffIsMonotone(m: u32, n: u32, base: u64, cap: u64)
    requires m <= n
    ensures NextAttemptDelay(m, base, cap) <= NextAttemptDelay(n, base, cap) <= cap
  {
    BackoffIsExact(m, base, cap);
    BackoffIsExact(n, base, cap);
    var e, f := if m == 0 then 0 else m - 1, if n == 0 then 0 else n - 1;
    Pow2Monotone(e, f);
    MulMonotone(base, Pow2(e), Pow2(f));
  }

  const I64_MIN: int := -0x8000_0000_0000_0000

  type i64 = n: int | I64_MIN <= n <= I64_MAX

  /** `now.saturating_add(i64::try_from(delay).unwrap_or(i64::MAX))`. */
  function StoredNext(now: i64, delay: u64): (next: i64)
    ensures now <= next
    ensures 0 <= now ==> next == Min(I64_MAX, now + delay)
  {
    var d := if delay <= I64_MAX then delay else I64_MAX;
    if now + d > I64_MAX then I64_MAX else now + d
  }

  // ------------------------------------------------------------------- delivery

  /** The webhook receiver as the dispatcher sees it: it answers a request with success or not. */
  class Sink {
    const obliging: bool   // every request is answered with success

    constructor (obliging: bool)
      ensures this.obliging == obliging
    {
      this.obliging := obliging;
    }

    method Post() returns (success: bool)
      ensures obliging ==> success
    {
      success := true;
      if !obliging { success := *; }
    }
  }

  datatype DispatchReport = DispatchReport(delivered: nat, failed: nat)

  /** While others run, what is queued and what was fetched stay as they are. */
  lemma ForeignDispatchStep(s: Sys, a: Action)
    requires Enabled(s, a) && !Own(a, DispatcherTask) && !a.Crash?
    ensures var t := Apply(s, a);
            t.batch == s.batch && t.posted == s.posted && t.sent == s.sent && s.db.outbox <= t.db.outbox
  {
    OthersKeepBatch(s, a);
    OutboxGrows(s, a);
  }

  lemma {:induction false} ForeignDispatch(maxAttempts: nat, t: seq<Action>, u: seq<Action>)
    requires Legal(maxAttempts, t) && Legal(maxAttempts, u) && t <= u && Foreign(u[|t|..], DispatcherTask)
    ensures var a, b := After(maxAttempts, t), After(maxAttempts, u);
            b.batch == a.batch && b.posted == a.posted && b.sent == a.sent && a.db.outbox <= b.db.outbox
    decreases |u|
  {
    if t != u {
      var r, a := u[..|u| - 1], u[|u| - 1];
      assert u[|t|..][..|r| - |t|] == r[|t|..] && u[|t|..][|r| - |t|] == a;
      ForeignDispatch(maxAttempts, t, r);
      ForeignDispatchStep(After(maxAttempts, r), a);
    }
  }

  /** The outbox after the first `n` fetched events were delivered, and nothing else: others only add. */
  predicate Worked(a: seq<Event>, b: seq<Event>, ids: seq<nat>, n: nat, now: int)
    requires n <= |ids|
  {
    |a| <= |b| && forall k :: 0 <= k < |a| ==> b[k] == if k in ids[..n] then Delivered(a[k], now) else a[k]
  }

  /** The requests of deliveries: they all arrived. */
  function PostsOf(outbox: seq<Event>, ids: seq<nat>): seq<Post>
    requires forall i :: 0 <= i < |ids| ==> ids[i] < |outbox|
  {
    seq(|ids|, i requires 0 <= i < |ids| => Post(ids[i], outbox[ids[i]].payload, true))
  }

  lemma Ascending(s: Sys, ids: seq<nat>)
    requires BatchInv(s) && |ids| == |s.batch| && forall i :: 0 <= i < |ids| ==> s.batch[i].rowid == ids[i]
    ensures NoDuplicates(ids)
  {
    forall i, j | 0 <= i < j < |ids| ensures ids[i] != ids[j] { BatchOrder(s, i, j); }
  }

  lemma {:induction false} BatchOrder(s: Sys, i: nat, j: nat)
    requires BatchInv(s) && i < j < |s.batch|
    ensures s.batch[i].rowid < s.batch[j].rowid
  {
    assert s.batch[j - 1].rowid < s.batch[j].rowid;
    if i < j - 1 {
      BatchOrder(s, i, j - 1);
    }
  }

  /** What one call has done so far: `n` deliveries of the batch `ids` fetched from `outbox`. */
  ghost predicate Delivering(store: Store, outbox: seq<Event>, ids: seq<nat>, sent: seq<Post>, n: nat, now: int)
    requires forall i :: 0 <= i < |ids| ==> ids[i] < |outbox|
    reads store
  {
    && store.Valid() && n <= |ids| && NoDuplicates(ids)
    && !store.State().posted && store.State().batch == FetchedOf(outbox, ids)[n..]
    && store.State().sent == sent + PostsOf(outbox, ids[..n])
    && Worked(outbox, store.outbox, ids, n, now)
  }

  /** The head of the batch is live and as it was fetched. */
  lemma HeadFetched(store: Store, outbox: seq<Event>, ids: seq<nat>, sent: seq<Post>, n: nat, now: int)
    requires (forall i :: 0 <= i < |ids| ==> ids[i] < |outbox|) && n < |ids|
    requires Delivering(store, outbox, ids, sent, n, now)
    ensures store.State().batch != [] && store.State().batch[0] == Fetched(ids[n], outbox[ids[n]])
    ensures Live(outbox[ids[n]], store.maxAttempts)
  {
    Reachable(store.maxAttempts, store.trace);
    assert store.State().batch[0] == FetchedOf(outbox, ids)[n];
  }

  lemma WorkedGrows(a: seq<Event>, b: seq<Event>, c: seq<Event>, ids: seq<nat>, n: nat, now: int)
    requires n <= |ids| && Worked(a, b, ids, n, now) && b <= c
    ensures Worked(a, c, ids, n, now)
  {
    forall k | 0 <= k < |a| ensures c[k] == if k in ids[..n] then Delivered(a[k], now) else a[k] {
      assert c[k] == b[k];
    }
  }

  lemma WorkedMore(a: seq<Event>, b: seq<Event>, ids: seq<nat>, n: nat, now: int)
    requires n < |ids| && NoDuplicates(ids) && ids[n] < |a| && Worked(a, b, ids, n, now)
    ensures b[ids[n]] == a[ids[n]]
    ensures Worked(a, b[ids[n] := Delivered(b[ids[n]], now)], ids, n + 1, now)
  {
    assert ids[..n + 1] == ids[..n] + [ids[n]];
    assert ids[n] !in ids[..n];
  }

  /** The event after `n` deliveries failed, was rescheduled, and nothing else happened. */
  predicate FailedAfter(a: seq<Event>, b: seq<Event>, ids: seq<nat>, n: nat, next: int, now: int)
    requires n < |ids|
  {
    |a| <= |b| && forall k :: 0 <= k < |a| ==>
      b[k] == if k in ids[..n] then Delivered(a[k], now) else if k == ids[n] then Attempted(a[k], next) else a[k]
  }

  /** The log after `n` deliveries and a request about the next event. */
  function PostsUpTo(outbox: seq<Event>, ids: seq<nat>, n: nat, arrived: bool): seq<Post>
    requires n < |ids| && forall i :: 0 <= i < |ids| ==> ids[i] < |outbox|
  {
    PostsOf(outbox, ids[..n]) + [Post(ids[n], outbox[ids[n]].payload, arrived)]
  }

  /** The head has been POSTed, and arrived or not; its outcome is not recorded yet. */
  ghost predicate InFlight(store: Store, outbox: seq<Event>, ids: seq<nat>, sent: seq<Post>, n: nat, arrived: bool,
                           now: int)
    requires forall i :: 0 <= i < |ids| ==> ids[i] < |outbox|
    reads store
  {
    && store.Valid() && n < |ids| && NoDuplicates(ids)
    && store.State().posted && store.State().batch == FetchedOf(outbox, ids)[n..]
    && store.State().sent == sent + PostsUpTo(outbox, ids, n, arrived)
    && Worked(outbox, store.outbox, ids, n, now)
  }

  /** The HTTP request: it arrives or is lost, and any answer comes, while everyone else runs. */
  method Send(store: Store, sink: Sink, ghost outbox: seq<Event>, ghost ids: seq<nat>, ghost sent: seq<Post>,
              ghost n: nat, now: i64)
    returns (success: bool, ghost arrived: bool)
    requires forall i :: 0 <= i < |ids| ==> ids[i] < |outbox|
    requires n < |ids| && Delivering(store, outbox, ids, sent, n, now)
    modifies store
    ensures old(store.trace) <= store.trace && InFlight(store, outbox, ids, sent, n, arrived, now)
    ensures success ==> arrived
    ensures sink.obliging ==> success
  {
    HeadFetched(store, outbox, ids, sent, n, now);
    success := sink.Post();
    arrived := *;
    arrived := arrived || success;
    store.Posts(arrived);
    ghost var t, b := store.trace, store.outbox;
    store.Others(DispatcherTask);
    ForeignDispatch(store.maxAttempts, t, store.trace);
    WorkedGrows(outbox, b, store.outbox, ids, n, now);
  }

  lemma InFlightHead(store: Store, outbox: seq<Event>, ids: seq<nat>, sent: seq<Post>, n: nat, arrived: bool, now: int)
    requires (forall i :: 0 <= i < |ids| ==> ids[i] < |outbox|) && InFlight(store, outbox, ids, sent, n, arrived, now)
    ensures store.State().batch != [] && store.State().batch[0] == Fetched(ids[n], outbox[ids[n]])
    ensures ids[n] < |store.outbox| && store.outbox[ids[n]] == outbox[ids[n]]
    ensures Live(outbox[ids[n]], store.maxAttempts)
    ensures store.State().batch[1..] == FetchedOf(outbox, ids)[n + 1..]
  {
    Reachable(store.maxAttempts, store.trace);
    assert store.State().batch[0] == FetchedOf(outbox, ids)[n];
    WorkedMore(outbox, store.outbox, ids, n, now);
  }

  method Succeed(store: Store, ev: Fetched, ghost outbox: seq<Event>, ghost ids: seq<nat>, ghost sent: seq<Post>,
                 ghost n: nat, now: i64)
    returns (r: Result<(), StoreError>)
    requires forall i :: 0 <= i < |ids| ==> ids[i] < |outbox|
    requires InFlight(store, outbox, ids, sent, n, true, now) && ev == Fetched(ids[n], outbox[ids[n]])
    modifies store
    ensures store.Valid() && old(store.trace) <= store.trace
    ensures r.Ok? ==> Delivering(store, outbox, ids, sent, n + 1, now)
    ensures r.Err? ==> InFlight(store, outbox, ids, sent, n, true, now) && !store.healthy
  {
    InFlightHead(store, outbox, ids, sent, n, true, now);
    assert PostsOf(outbox, ids[..n + 1]) == PostsUpTo(outbox, ids, n, true);
    WorkedMore(outbox, store.outbox, ids, n, now);
    r := store.MarkDelivered(ev, now);
  }

  method Fail(store: Store, ev: Fetched, base: u64, cap: u64, ghost outbox: seq<Event>, ghost ids: seq<nat>,
              ghost sent: seq<Post>, ghost n: nat, ghost arrived: bool, now: i64)
    returns (r: Result<i64, StoreError>)
    requires forall i :: 0 <= i < |ids| ==> ids[i] < |outbox|
    requires InFlight(store, outbox, ids, sent, n, arrived, now) && ev == Fetched(ids[n], outbox[ids[n]])
    requires store.maxAttempts <= U32_MAX
    modifies store
    ensures store.Valid() && old(store.trace) <= store.trace
    ensures r.Ok? ==>
              && r.value == StoredNext(now, ExactDelay(ev.event.attempts + 1, base, cap))
              && FailedAfter(outbox, store.outbox, ids, n, r.value, now)
              && store.State().sent == sent + PostsUpTo(outbox, ids, n, arrived)
              && !store.State().posted
    ensures r.Err? ==> InFlight(store, outbox, ids, sent, n, arrived, now) && !store.healthy
  {
    InFlightHead(store, outbox, ids, sent, n, arrived, now);
    var attempts: u32 := ev.event.attempts + 1;
    var next := StoredNext(now, NextAttemptDelay(attempts, base, cap));
    BackoffIsExact(attempts, base, cap);
    var recorded := store.RecordAttempt(ev, next);
    r := if recorded.Err? then Err(recorded.error) else Ok(next);
  }

  /** The first `m` fetched events may be tried at `now`. */
  predicate Due(outbox: seq<Event>, ids: seq<nat>, m: nat, now: int)
    requires m <= |ids| && forall i :: 0 <= i < |ids| ==> ids[i] < |outbox|
  {
    forall i :: 0 <= i < m ==> outbox[ids[i]].nextAttemptAt <= now
  }

  /** What a call that returns normally has done: an initial run of the live events it fetched was due,
      was POSTed, and nothing else; the delivered ones are marked, a failed one is rescheduled by the exact
      backoff and was the last, and an event left in the batch is behind a failed or not due one. */
  ghost predicate Dispatched(a: seq<Event>, b: seq<Event>, ids: seq<nat>, before: seq<Post>, after: seq<Post>,
                             report: DispatchReport, base: u64, cap: u64, now: i64)
    requires forall i :: 0 <= i < |ids| ==> ids[i] < |a|
  {
    var n, m := report.delivered, report.delivered + report.failed;
    && m <= |ids| && report.failed <= 1 && Due(a, ids, m, now)
    && (report.failed == 0 ==>
          after == before + PostsOf(a, ids[..n])
          && Worked(a, b, ids, n, now) && (n < |ids| ==> a[ids[n]].nextAttemptAt > now))
    && (report.failed == 1 ==>
          (exists arrived :: after == before + PostsUpTo(a, ids, n, arrived))
          && FailedAfter(a, b, ids, n, StoredNext(now, ExactDelay(a[ids[n]].attempts + 1, base, cap)), now))
  }

  /** The loop may stop before an event that is not due, or at the end of the batch. */
  lemma StopsHere(store: Store, outbox: seq<Event>, ids: seq<nat>, sent: seq<Post>, n: nat, base: u64, cap: u64,
                  now: i64)
    requires forall i :: 0 <= i < |ids| ==> ids[i] < |outbox|
    requires Delivering(store, outbox, ids, sent, n, now) && (n < |ids| ==> outbox[ids[n]].nextAttemptAt > now)
    requires n <= |ids| && Due(outbox, ids, n, now)
    ensures Dispatched(outbox, store.outbox, ids, sent, store.State().sent, DispatchReport(n, 0), base, cap, now)
  {
  }

  /** What a call that ends on a database error has done: `n` deliveries, and a POST whose outcome it
      could not record, so that the event is as it was and will be tried again. */
  ghost predicate Interrupted(a: seq<Event>, b: seq<Event>, ids: seq<nat>, before: seq<Post>, after: seq<Post>,
                              n: nat, now: i64)
    requires forall i :: 0 <= i < |ids| ==> ids[i] < |a|
  {
    && n < |ids| && Worked(a, b, ids, n, now) && Due(a, ids, n + 1, now)
    && exists arrived :: after == before + PostsUpTo(a, ids, n, arrived)
  }

  lemma StopsInFlight(store: Store, outbox: seq<Event>, ids: seq<nat>, sent: seq<Post>, n: nat, arrived: bool, now: i64)
    requires forall i :: 0 <= i < |ids| ==> ids[i] < |outbox|
    requires n < |ids| && InFlight(store, outbox, ids, sent, n, arrived, now) && Due(outbox, ids, n + 1, now)
    ensures Interrupted(outbox, store.outbox, ids, sent, store.State().sent, n, now)
  {
  }

  /** The loop of `dispatch_due`. */
  method DispatchBatch(store: Store, sink: Sink, batch: seq<Fetched>, base: u64, cap: u64, now: i64,
                       ghost outbox: seq<Event>, ghost ids: seq<nat>, ghost sent: seq<Post>)
    returns (r: Result<DispatchReport, StoreError>, ghost done: nat)
    requires forall i :: 0 <= i < |ids| ==> ids[i] < |outbox|
    requires store.Valid() && Delivering(store, outbox, ids, sent, 0, now) && batch == FetchedOf(outbox, ids)
    requires store.maxAttempts <= U32_MAX
    modifies store
    ensures store.Valid() && old(store.trace) <= store.trace
    ensures r.Ok? ==> Dispatched(outbox, store.outbox, ids, sent, store.State().sent, r.value, base, cap, now)
    ensures r.Err? ==> Interrupted(outbox, store.outbox, ids, sent, store.State().sent, done, now)
    ensures store.healthy ==> r.Ok?
    ensures r.Ok? && sink.obliging && Due(outbox, ids, |ids|, now) ==> r.value == DispatchReport(|ids|, 0)
  {
    hide Delivering, InFlight, Worked, FailedAfter, PostsOf, Legal, After, Apply, ExactDelay, Interrupted;
    var i := 0;
    done := 0;
    while i < |batch|
      invariant 0 <= i <= |batch| && old(store.trace) <= store.trace && store.Valid()
      invariant Delivering(store, outbox, ids, sent, i, now) && Due(outbox, ids, i, now)
    {
      if batch[i].event.nextAttemptAt > now {
        StopsHere(store, outbox, ids, sent, i, base, cap, now);
        return Ok(DispatchReport(i, 0)), done;
      }
      done := i;
      var success;
      ghost var arrived;
      success, arrived := Send(store, sink, outbox, ids, sent, i, now);
      if !success {
        var recorded := Fail(store, batch[i], base, cap, outbox, ids, sent, i, arrived, now);
        if recorded.Err? {
          StopsInFlight(store, outbox, ids, sent, i, arrived, now);
          return Err(recorded.error), done;
        }
        return Ok(DispatchReport(i, 1)), done;
      }
      var marked := Succeed(store, batch[i], outbox, ids, sent, i, now);
      if marked.Err? {
        StopsInFlight(store, outbox, ids, sent, i, arrived, now);
        return Err(marked.error), done;
      }
      i := i + 1;
    }
    StopsHere(store, outbox, ids, sent, i, base, cap, now);
    return Ok(DispatchReport(i, 0)), done;
  }

  /** Every live event may be tried. */
  predicate AllDue(outbox: seq<Event>, maxAttempts: nat, now: int) {
    forall k: nat :: k < |outbox| && Live(outbox[k], maxAttempts) ==> outbox[k].nextAttemptAt <= now
  }

  lemma FetchedDue(outbox: seq<Event>, maxAttempts: nat, now: int)
    ensures var ids := UndeliveredEvents(outbox, maxAttempts);
            AllDue(outbox, maxAttempts, now) ==> Due(outbox, ids, |ids|, now)
  {
  }

  /** `dispatch_due`, from its query on. */
  method DispatchFetched(store: Store, sink: Sink, base: u64, cap: u64, now: i64)
    returns (r: Result<DispatchReport, StoreError>, ghost done: nat)
    requires store.Valid() && store.State().batch == [] && !store.State().posted
    requires store.maxAttempts <= U32_MAX
    modifies store
    ensures store.Valid() && old(store.trace) <= store.trace
    ensures store.State().batch == [] && !store.State().posted
    ensures r.Ok? ==>
              Dispatched(old(store.outbox), store.outbox, UndeliveredEvents(old(store.outbox), store.maxAttempts),
                         old(store.State()).sent, store.State().sent, r.value, base, cap, now)
    ensures r.Err? ==>
              || (store.outbox == old(store.outbox) && store.State().sent == old(store.State()).sent)
              || Interrupted(old(store.outbox), store.outbox,
                             UndeliveredEvents(old(store.outbox), store.maxAttempts),
                             old(store.State()).sent, store.State().sent, done, now)
    ensures store.healthy ==> r.Ok?
    ensures sink.obliging && store.healthy && AllDue(old(store.outbox), store.maxAttempts, now) ==>
              r == Ok(DispatchReport(|UndeliveredEvents(old(store.outbox), store.maxAttempts)|, 0))
  {
    hide Delivering, Dispatched, Legal, After, BATCH_LIMIT, Interrupted, LiveFrom, Live;
    done := 0;
    ghost var outbox, sent := store.outbox, store.State().sent;
    ghost var ids := UndeliveredEvents(outbox, store.maxAttempts);
    var fetched := store.Undelivered();
    if fetched.Err? {
      return Err(fetched.error), done;
    }
    FetchedInOrder(store, outbox, ids, sent, now);
    FetchedDue(outbox, store.maxAttempts, now);
    r, done := DispatchBatch(store, sink, fetched.value, base, cap, now, outbox, ids, sent);
    store.DropBatch();
  }

  /** `dispatch_due`, beside everyone who enqueues. On a database error it either has not fetched, and
      done nothing, or stopped at an event whose outcome it could not record. `from` is where in the run
      it fetches. If no live event has failed, and all were committed by now, and the receiver answers well,
      it delivers a hundred of them, or all there are. */
  method DispatchDue(store: Store, sink: Sink, base: u64, cap: u64, now: i64)
    returns (r: Result<DispatchReport, StoreError>, ghost done: nat, ghost from: nat)
    requires store.Valid() && store.State().batch == [] && !store.State().posted
    requires store.maxAttempts <= U32_MAX
    modifies store
    ensures store.Valid() && old(store.trace) <= store.trace
    ensures store.State().batch == [] && !store.State().posted
    ensures |old(store.trace)| <= from <= |store.trace| && Legal(store.maxAttempts, store.trace[..from])
    ensures var outbox := After(store.maxAttempts, store.trace[..from]).db.outbox;
            var ids := UndeliveredEvents(outbox, store.maxAttempts);
            && old(store.outbox) <= outbox
            && (r.Ok? ==> Dispatched(outbox, store.outbox, ids, old(store.State()).sent, store.State().sent,
                                     r.value, base, cap, now))
            && (r.Err? ==>
                  || (store.outbox == outbox && store.State().sent == old(store.State()).sent)
                  || Interrupted(outbox, store.outbox, ids, old(store.State()).sent, store.State().sent, done, now))
    ensures store.alone ==> After(store.maxAttempts, store.trace[..from]).db.outbox == old(store.outbox)
    ensures store.healthy ==> r.Ok?
    ensures sink.obliging && store.healthy && Unfailed(store.maxAttempts, store.trace[..from], now) ==>
              var live := Dues.Pending(After(store.maxAttempts, store.trace[..from]).db.outbox, store.maxAttempts, 0);
              r == Ok(DispatchReport(if live < 100 then live else 100, 0))
  {
    hide Apply, Enabled, Dispatched, Legal, After, Interrupted, UndeliveredEvents, AllDue, Unfailed;
    ghost var first := store.trace;
    store.Others(DispatcherTask);
    ForeignDispatch(store.maxAttempts, first, store.trace);
    from := |store.trace|;
    ghost var before, outbox := store.trace, store.outbox;
    HundredFetched(outbox, store.maxAttempts);
    if Unfailed(store.maxAttempts, before, now) {
      UnfailedDue(store, now);
    }
    r, done := DispatchFetched(store, sink, base, cap, now);
    assert store.trace[..from] == before;
  }

  lemma UnfailedDue(store: Store, now: int)
    requires store.Valid() && Unfailed(store.maxAttempts, store.trace, now)
    ensures AllDue(store.outbox, store.maxAttempts, now)
  {
    UnfailedAllDue(store.maxAttempts, store.trace, now);
    assert store.outbox == After(store.maxAttempts, store.trace).db.outbox;
  }

  /** What a query fetches is in rowid order, and nothing has been delivered yet. */
  lemma FetchedInOrder(store: Store, outbox: seq<Event>, ids: seq<nat>, sent: seq<Post>, now: int)
    requires store.Valid() && !store.State().posted && store.outbox == outbox && store.State().sent == sent
    requires ids == UndeliveredEvents(outbox, store.maxAttempts)
    requires store.State().batch == FetchedOf(outbox, ids)
    ensures Delivering(store, outbox, ids, sent, 0, now)
  {
    Reachable(store.maxAttempts, store.trace);
    Ascending(store.State(), ids);
    assert PostsOf(outbox, ids[..0]) == [];
  }
}
