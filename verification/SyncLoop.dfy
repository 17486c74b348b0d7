/** The sync loops, run beside everyone who does not take the engine's mutex. */
module SyncLoop {
  import opened Base
  import opened Status
  import opened Tables
  import opened System
  import opened Invariants
  import opened StoreModel
  import opened EngineRuns
  import Listing
  import Rln
  import Stages

  datatype SyncError = FromRln(rln: Rln.RlnError) | FromStore(store: StoreError)

  datatype SyncReport = SyncReport(assets: nat, transfers: nat, transitions: nat)

  /** `apply_observed`: true exactly when a status changed. A lock holder's plan never finds its
      row moved, although others ran since the row was read. */
  method ApplyObserved(store: Store, ghost tid: Tid, read: Read, now: int, ghost n: nat)
    returns (r: Result<bool, StoreError>)
    requires store.Valid() && n <= |store.trace|
    requires tid in store.State().engine && store.State().engine[tid] != [] && store.State().engine[tid][0] == read
    requires Swappable(read.row)
    modifies store
    ensures store.Valid() && old(store.trace) <= store.trace && tid in store.State().engine
    ensures r.Err? ==> !store.healthy
    ensures r.Ok? ==>
              && store.State().engine[tid] == old(store.State()).engine[tid][1..]
              && r.value == PlanTransition(read.row.status, read.observed).Some?
              && r.value == Stages.MovesOn(read.row.status, read.observed)
              && TransferMoves(store.maxAttempts, store.trace, n)
                 == TransferMoves(store.maxAttempts, old(store.trace), n) + (if r.value then 1 else 0)
    ensures store.nodeState == old(store.nodeState) && store.lastFullSyncAt == old(store.lastFullSyncAt)
    ensures r.Ok? ==> store.Mirror() == Tables.ApplyObserved(old(store.Mirror()), read.id, read.row, read.observed, now)
    ensures r.Err? ==> unchanged(store)
  {
    hide Legal, After, RowsInv, OutboxInv, BatchInv, SentInv, AttemptsInv, TransferMoves;
    Reachable(store.maxAttempts, store.trace);
    var plan := PlanTransition(read.row.status, read.observed);
    Stages.PlansExactly(read.row.status, read.observed);
    if plan.None? {
      QuietMoves(store.State(), Skip(tid));
      MovesMore(store.maxAttempts, store.trace, Skip(tid), n);
      store.Pass(tid);
      return Ok(false);
    }
    SwapMoves(store.State(), tid, now);
    MovesMore(store.maxAttempts, store.trace, Swap(tid, now), n);
    var payload := EventPayload(read.id, read.row, plan.value, now);
    r := store.ApplyTransition(tid, read, plan.value, payload, now);
  }

  lemma UpsertBinds(rows: seq<Transfer>, o: Observed, now: int)
    ensures var u := Tables.UpsertObserved(rows, o, now);
            u.Ok? ==> u.value.rows[u.value.id].rlnIdx == Some(o.rlnIdx)
  {
  }

  /** `observe`: one listed transfer, with everyone else running before each of its two
      transactions. */
  method Observe(store: Store, ghost tid: Tid, o: Observed, now: int, ghost n: nat)
    returns (r: Result<bool, StoreError>, ghost half: bool)
    requires store.Valid() && n <= |store.trace|
    requires tid in store.State().engine && store.State().engine[tid] == []
    modifies store
    ensures store.Valid() && old(store.trace) <= store.trace && tid in store.State().engine
    ensures r.Ok? ==>
              && store.State().engine[tid] == []
              && TransferMoves(store.maxAttempts, store.trace, n)
                 == TransferMoves(store.maxAttempts, old(store.trace), n) + (if r.value then 1 else 0)
    ensures store.alone && store.healthy ==>
              && Listing.Observe(old(store.Mirror()), o, now) == Listing.Outcome(store.Mirror(), r.Ok?)
              && store.nodeState == old(store.nodeState) && store.lastFullSyncAt == old(store.lastFullSyncAt)
    ensures r.Ok? ==> !half
    ensures store.alone ==>
              Listing.Outcome(store.Mirror(), true)
              == if r.Ok? then Listing.Observe(old(store.Mirror()), o, now)
                 else if half then Listing.HalfObserved(old(store.Mirror()), o, now)
                 else Listing.Outcome(old(store.Mirror()), true)
  {
    half := false;
    hide Legal, After, Inv, TransferMoves, TransferMoved, Tables.UpsertObserved, Tables.ApplyObserved, PlanTransition;
    ghost var before := store.trace;
    store.Others(EngineTask(tid));
    ForeignRun(store.maxAttempts, before, store.trace, tid, n);
    Reachable(store.maxAttempts, store.trace);
    QuietMoves(store.State(), System.Observe(tid, o, now));
    MovesMore(store.maxAttempts, store.trace, System.Observe(tid, o, now), n);
    UpsertBinds(store.transfers, o, now);
    var read :- store.UpsertObserved(tid, o, now);
    ghost var t := store.trace;
    store.Others(EngineTask(tid));
    ForeignRun(store.maxAttempts, t, store.trace, tid, n);
    r := ApplyObserved(store, tid, read, now, n);
    half := r.Err?;
  }

  /** The inner loop: every transfer of one bucket. */
  method ObserveBucket(store: Store, ghost tid: Tid, bucket: Option<string>, ts: seq<Rln.RlnTransfer>,
                       before: SyncReport, now: int, ghost n: nat)
    returns (r: Result<SyncReport, StoreError>, ghost seen: seq<Observed>, ghost half: bool)
    requires store.Valid() && n <= |store.trace|
    requires tid in store.State().engine && store.State().engine[tid] == []
    modifies store
    ensures store.Valid() && old(store.trace) <= store.trace && tid in store.State().engine
    ensures r.Ok? ==>
              && store.State().engine[tid] == []
              && r.value.assets == before.assets && r.value.transfers == before.transfers + |ts|
              && TransferMoves(store.maxAttempts, store.trace, n) + before.transitions
                 == TransferMoves(store.maxAttempts, old(store.trace), n) + r.value.transitions
    ensures store.alone && store.healthy ==>
              && Listing.ObserveAll(old(store.Mirror()), Listing.TagAll(bucket, ts), now)
                 == Listing.Outcome(store.Mirror(), r.Ok?)
              && store.nodeState == old(store.nodeState) && store.lastFullSyncAt == old(store.lastFullSyncAt)
    ensures seen <= Listing.TagAll(bucket, ts) && (half ==> seen != [])
    ensures r.Ok? ==> seen == Listing.TagAll(bucket, ts) && !half
    ensures store.alone ==>
              Listing.Stopped(old(store.Mirror()), seen, half, now) == Listing.Outcome(store.Mirror(), true)
  {
    hide Legal, After, TransferMoves, Listing.ObserveAll, Listing.Observe, Listing.HalfObserved;
    half := false;
    var report := before;
    Listing.ObserveNothing(store.Mirror(), now);
    ghost var all := Listing.TagAll(bucket, ts);
    ghost var mirror := store.Mirror();
    seen := all[..0];
    for i := 0 to |ts|
      invariant store.Valid() && old(store.trace) <= store.trace
      invariant tid in store.State().engine && store.State().engine[tid] == []
      invariant report.assets == before.assets && report.transfers == before.transfers + i
      invariant TransferMoves(store.maxAttempts, store.trace, n) + before.transitions
                == TransferMoves(store.maxAttempts, old(store.trace), n) + report.transitions
      invariant seen == all[..i] && !half
      invariant store.alone ==> Listing.ObserveAll(mirror, all[..i], now) == Listing.Outcome(store.Mirror(), true)
      invariant store.alone && store.healthy ==>
                  && store.nodeState == old(store.nodeState) && store.lastFullSyncAt == old(store.lastFullSyncAt)
    {
      Listing.ObserveNext(mirror, all, i, now);
      assert all[i] == Listing.Tag(bucket, ts[i]);
      var moved;
      moved, half := Observe(store, tid, Listing.Tag(bucket, ts[i]), now, n);
      if moved.Err? {
        if store.alone && half {
          seen := all[..i + 1];
          assert |seen| == i + 1;
          Listing.StoppedHalfway(mirror, all, i, now);
        } else {
          half := false;
        }
        assert all == all[..i + 1] + all[i + 1..];
        if store.alone && store.healthy {
          Listing.FailsAfter(mirror, all[..i + 1], all[i + 1..], now);
        }
        return Err(moved.error), seen, half;
      }
      seen := all[..i + 1];
      report := report.(transfers := report.transfers + 1,
                        transitions := report.transitions + (if moved.value then 1 else 0));
    }
    assert all[..|ts|] == all;
    return Ok(report), seen, half;
  }

  /** Where a sync stands that began on `before`: the mirror is the fold of what it has seen, up to
      halfway through its last entry if the database failed there, and what it has seen starts what
      the node has answered since, and is all of it when `whole`. */
  ghost predicate StandsAt(store: Store, node: Rln.Node, before: Db, from: nat, seen: seq<Observed>, half: bool,
                           now: int, whole: bool)
    reads store, node`listed
  {
    && from <= |node.listed| && seen <= Listing.Answers(node.listed[from..]) && (half ==> seen != [])
    && Listing.Stopped(before, seen, half, now) == Listing.Outcome(store.Mirror(), true)
    && (whole ==> !half && seen == Listing.Answers(node.listed[from..]))
  }

  lemma StandsFirst(store: Store, node: Rln.Node, now: int)
    ensures StandsAt(store, node, store.Mirror(), |node.listed|, [], false, now, true)
    ensures StandsAt(store, node, store.Mirror(), |node.listed|, [], false, now, false)
  {
  }

  /** Between two buckets. */
  lemma StandsWhole(store: Store, node: Rln.Node, before: Db, from: nat, seen: seq<Observed>, half: bool, now: int)
    requires StandsAt(store, node, before, from, seen, half, now, true)
    ensures Listing.ObserveAll(before, seen, now) == Listing.Outcome(store.Mirror(), true)
    ensures !half && from <= |node.listed| && seen == Listing.Answers(node.listed[from..])
  {
  }

  /** One bucket more. */
  lemma StandsOn(store: Store, node: Rln.Node, before: Db, from: nat, seen: seq<Observed>, mid: Db, at: nat,
                 more: seq<Observed>, half: bool, now: int, whole: bool)
    requires Listing.ObserveAll(before, seen, now) == Listing.Outcome(mid, true)
    requires from <= at <= |node.listed| && seen == Listing.Answers(node.listed[from..at])
    requires StandsAt(store, node, mid, at, more, half, now, whole)
    ensures StandsAt(store, node, before, from, seen + more, half, now, whole)
  {
    hide Listing.ObserveAll, Listing.Stopped, Listing.Answers;
    Listing.StoppedOn(before, seen, mid, more, half, store.Mirror(), now);
    assert node.listed[from..] == node.listed[from..at] + node.listed[at..];
    Listing.AnswersConcat(node.listed[from..at], node.listed[at..]);
  }

  /** One bucket: fetch its listing, with everyone else running, then observe it. */
  method SyncBucket(store: Store, node: Rln.Node, ghost tid: Tid, bucket: Option<string>,
                    before: SyncReport, now: int, ghost n: nat)
    returns (r: Result<SyncReport, SyncError>, ghost seen: seq<Observed>, ghost half: bool)
    requires store.Valid() && n <= |store.trace|
    requires tid in store.State().engine && store.State().engine[tid] == []
    modifies store, node`listed
    ensures store.Valid() && old(store.trace) <= store.trace && tid in store.State().engine
    ensures r.Ok? ==>
              && store.State().engine[tid] == [] && r.value.assets == before.assets
              && (node.calm ==> r.value.transfers == before.transfers + |Listing.Bucket(node.buckets, bucket)|)
              && TransferMoves(store.maxAttempts, store.trace, n) + before.transitions
                 == TransferMoves(store.maxAttempts, old(store.trace), n) + r.value.transitions
    ensures store.alone && store.healthy && node.calm ==>
              && Listing.ObserveAll(old(store.Mirror()), Listing.Bucket(node.buckets, bucket), now)
                 == Listing.Outcome(store.Mirror(), r.Ok?)
    ensures store.alone && store.healthy ==>
              store.nodeState == old(store.nodeState) && store.lastFullSyncAt == old(store.lastFullSyncAt)
    ensures old(node.listed) <= node.listed && (r.Ok? ==> !half)
    ensures r.Ok? ==>
              && |node.listed| == |old(node.listed)| + 1 && node.listed[|old(node.listed)|].bucket == bucket
              && r.value.transfers == before.transfers + |node.listed[|old(node.listed)|].transfers|
    ensures store.alone ==>
              StandsAt(store, node, old(store.Mirror()), |old(node.listed)|, seen, half, now, r.Ok? || r.error.FromRln?)
  {
    seen, half := [], false;
    Listing.ObserveNothing(store.Mirror(), now);
    var ts := node.ListTransfers(bucket);
    ghost var t := store.trace;
    store.Others(EngineTask(tid));
    ForeignRun(store.maxAttempts, t, store.trace, tid, n);
    if ts.Err? {
      return Err(FromRln(ts.error)), seen, half;
    }
    Listing.AnswersOne(bucket, ts.value);
    var report;
    report, seen, half := ObserveBucket(store, tid, bucket, ts.value, before, now, n);
    return if report.Err? then Err(FromStore(report.error)) else Ok(report.value), seen, half;
  }

  /** A sync between two buckets: it has visited `order` since it began on `mirror`. */
  ghost predicate Syncing(store: Store, node: Rln.Node, tid: Tid, mirror: Db, from: nat, n: nat,
                          order: seq<Option<string>>, seen: seq<Observed>, report: SyncReport, now: int)
    reads store, node`listed
  {
    && store.Valid() && n <= |store.trace| && tid in store.State().engine && store.State().engine[tid] == []
    && report.transitions == TransferMoves(store.maxAttempts, store.trace, n)
    && from <= |node.listed| && order == Listing.Asked(node.listed[from..])
    && report.transfers == |Listing.Answers(node.listed[from..])|
    && (node.calm ==> report.transfers == |Listing.Visit(node.buckets, order)|)
    && (store.alone && store.healthy && node.calm ==>
          Listing.ObserveAll(mirror, Listing.Visit(node.buckets, order), now) == Listing.Outcome(store.Mirror(), true))
    && (store.alone ==> StandsAt(store, node, mirror, from, seen, false, now, true))
  }

  lemma SyncingStarts(store: Store, node: Rln.Node, tid: Tid, mirror: Db, from: nat, n: nat, report: SyncReport,
                      now: int)
    requires store.Valid() && n <= |store.trace| && tid in store.State().engine && store.State().engine[tid] == []
    requires TransferMoves(store.maxAttempts, store.trace, n) == 0
    requires store.alone ==> mirror == store.Mirror() && StandsAt(store, node, mirror, from, [], false, now, true)
    requires report.transfers == report.transitions == 0 && from == |node.listed|
    ensures Syncing(store, node, tid, mirror, from, n, [], [], report, now)
  {
    hide Legal, After, TransferMoves, StandsAt;
    Listing.VisitNothing(node.buckets, mirror, now);
  }

  lemma SyncingEnds(store: Store, node: Rln.Node, tid: Tid, mirror: Db, from: nat, n: nat,
                    order: seq<Option<string>>, seen: seq<Observed>, report: SyncReport, now: int)
    requires Syncing(store, node, tid, mirror, from, n, order, seen, report, now)
    ensures store.Valid() && n <= |store.trace| && tid in store.State().engine && store.State().engine[tid] == []
    ensures report.transitions == TransferMoves(store.maxAttempts, store.trace, n)
    ensures from <= |node.listed| && order == Listing.Asked(node.listed[from..])
    ensures report.transfers == |Listing.Answers(node.listed[from..])|
    ensures node.calm ==> report.transfers == |Listing.Visit(node.buckets, order)|
    ensures store.alone && store.healthy && node.calm ==>
              Listing.ObserveAll(mirror, Listing.Visit(node.buckets, order), now)
              == Listing.Outcome(store.Mirror(), true)
    ensures store.alone ==> StandsAt(store, node, mirror, from, seen, false, now, true)
  {
    hide Legal, After, TransferMoves, StandsAt, Listing.ObserveAll, Listing.Visit;
  }

  /** The turn of one bucket in a sync. */
  method VisitBucket(store: Store, node: Rln.Node, ghost tid: Tid, bucket: Option<string>, before: SyncReport, now: int,
                     ghost mirror: Db, ghost from: nat, ghost n: nat, ghost order: seq<Option<string>>,
                     ghost was: seq<Observed>)
    returns (r: Result<SyncReport, SyncError>, ghost seen: seq<Observed>, ghost half: bool)
    requires Syncing(store, node, tid, mirror, from, n, order, was, before, now)
    modifies store, node`listed
    ensures store.Valid() && old(store.trace) <= store.trace && tid in store.State().engine
    ensures old(node.listed) <= node.listed
    ensures r.Ok? ==> !half && r.value.assets == before.assets
                      && Syncing(store, node, tid, mirror, from, n, order + [bucket], seen, r.value, now)
    ensures r.Err? && store.alone && store.healthy && node.calm ==>
              Listing.ObserveAll(mirror, Listing.Visit(node.buckets, order + [bucket]), now)
              == Listing.Outcome(store.Mirror(), false)
    ensures r.Err? && store.alone ==> StandsAt(store, node, mirror, from, seen, half, now, r.error.FromRln?)
    ensures store.alone && store.healthy ==>
              store.nodeState == old(store.nodeState) && store.lastFullSyncAt == old(store.lastFullSyncAt)
  {
    hide Legal, After, Enabled, Apply, TransferMoves, Listing.ObserveAll, Listing.Visit, Listing.Answers, StandsAt;
    ghost var mid, at, listed := store.Mirror(), |node.listed|, node.listed;
    if store.alone {
      StandsWhole(store, node, mirror, from, was, false, now);
    }
    ghost var more;
    r, more, half := SyncBucket(store, node, tid, bucket, before, now, n);
    if r.Ok? {
      assert node.listed == listed + [node.listed[at]];
      Listing.AskedMore(listed, from, node.listed[at]);
    }
    Listing.VisitOne(node.buckets, order, bucket, mirror, now);
    seen := was + more;
    if store.alone {
      assert node.listed[from..at] == listed[from..];
      StandsOn(store, node, mirror, from, was, mid, at, more, half, now, r.Ok? || r.error.FromRln?);
    }
  }

  /** The row is of a transfer that has begun and not ended. */
  predicate OnItsWay(r: Transfer) {
    r.status != Initiated && r.status != Settled && r.status != Failed
  }

  /** What the filters of the pending scope pick. */
  lemma PendingPicks(rows: seq<Transfer>)
    ensures HasAgnostic(rows) <==> exists row :: row in rows && OnItsWay(row) && row.assetId.None?
    ensures forall a :: a in PendingAssetIds(rows) <==>
              exists row :: row in rows && OnItsWay(row) && row.assetId == Some(a)
  {
    forall i | 0 <= i < |rows| ensures rows[i] in rows && (OnItsWay(rows[i]) <==> rows[i].status.Waiting()) {
    }
    forall a | exists row :: row in rows && OnItsWay(row) && row.assetId == Some(a) ensures a in PendingAssetIds(rows) {
      var row :| row in rows && OnItsWay(row) && row.assetId == Some(a);
      var i :| 0 <= i < |rows| && rows[i] == row;
    }
  }

  /** Whether a scope has to ask the node which assets there are. */
  predicate AsksAssets(rows: seq<Transfer>, scope: Listing.Scope) {
    scope.Full? || (scope.PendingOnly? && HasAgnostic(rows))
  }

  /** What a scope visits, if the node answers `answer` when it is asked. */
  function Resolved(rows: seq<Transfer>, scope: Listing.Scope, answer: set<string>): (set<string>, bool) {
    (Listing.ScopeAssets(rows, answer, scope), Listing.ScopeAssetless(rows, scope))
  }

  /** Which assets a scope visits; the pending scope asks the store, and the node only if a waiting row
      has no asset yet. */
  method ResolveScope(store: Store, node: Rln.Node, ghost tid: Tid, scope: Listing.Scope, ghost n: nat)
    returns (r: Result<(set<string>, bool), SyncError>)
    requires store.Valid() && n <= |store.trace|
    requires tid in store.State().engine && store.State().engine[tid] == []
    modifies store, node`assetAnswers
    ensures store.Valid() && old(store.trace) <= store.trace
    ensures tid in store.State().engine && store.State().engine[tid] == []
    ensures TransferMoves(store.maxAttempts, store.trace, n) == TransferMoves(store.maxAttempts, old(store.trace), n)
    ensures store.alone ==> unchanged(store)
    ensures old(node.assetAnswers) <= node.assetAnswers
    ensures node.assetAnswers == old(node.assetAnswers)
            || (AsksAssets(old(store.transfers), scope) && |node.assetAnswers| == |old(node.assetAnswers)| + 1)
    ensures r.Ok? && AsksAssets(old(store.transfers), scope) ==>
              && |node.assetAnswers| == |old(node.assetAnswers)| + 1
              && var answer := node.assetAnswers[|old(node.assetAnswers)|];
                 answer.Ok? && r.value == Resolved(old(store.transfers), scope, answer.value)
    ensures r.Ok? && !AsksAssets(old(store.transfers), scope) ==>
              node.assetAnswers == old(node.assetAnswers) && r.value == Resolved(old(store.transfers), scope, {})
    ensures store.healthy && node.calm ==> r == Ok(Resolved(old(store.transfers), scope, node.assets))
    ensures scope.Full? && node.Refusing() ==> r == Err(FromRln(node.refuses.value))
    ensures scope.Assets? ==> r == Ok((scope.ids, false)) && node.assetAnswers == old(node.assetAnswers)
    ensures scope.Full? && r.Ok? ==> r.value == (node.assetAnswers[|old(node.assetAnswers)|].value, true)
    ensures scope.PendingOnly? && r.Ok? ==>
              && (r.value.1 <==> exists row :: row in old(store.transfers) && OnItsWay(row) && row.assetId.None?)
              && (forall a :: a in r.value.0 <==>
                    || (exists row :: row in old(store.transfers) && OnItsWay(row) && row.assetId == Some(a))
                    || (r.value.1 && a in node.assetAnswers[|old(node.assetAnswers)|].value))
  {
    PendingPicks(store.transfers);
    match scope
    case Assets(ids) => return Ok((ids, false));
    case Full =>
      var all := FetchAssets(store, node, tid, n);
      if all.Err? {
        return Err(all.error);
      }
      return Ok((all.value, true));
    case PendingOnly =>
      var broken := store.Broken();
      if broken {
        return Err(FromStore(Unavailable));
      }
      var ids, agnostic := PendingAssetIds(store.transfers), HasAgnostic(store.transfers);
      if agnostic {
        var all := FetchAssets(store, node, tid, n);
        if all.Err? {
          return Err(all.error);
        }
        ids := ids + all.value;
      }
      assert !agnostic ==> ids + {} == ids;
      return Ok((ids, agnostic));
  }

  /** `fetch_assets`. The assets table it also fills is not read by anything modelled here. */
  method FetchAssets(store: Store, node: Rln.Node, ghost tid: Tid, ghost n: nat)
    returns (r: Result<set<string>, SyncError>)
    requires store.Valid() && n <= |store.trace|
    requires tid in store.State().engine && store.State().engine[tid] == []
    modifies store, node`assetAnswers
    ensures store.Valid() && old(store.trace) <= store.trace
    ensures tid in store.State().engine && store.State().engine[tid] == []
    ensures TransferMoves(store.maxAttempts, store.trace, n) == TransferMoves(store.maxAttempts, old(store.trace), n)
    ensures store.alone ==> unchanged(store)
    ensures old(node.assetAnswers) <= node.assetAnswers
    ensures |node.assetAnswers| == |old(node.assetAnswers)| + 1
    ensures r.Ok? ==> node.assetAnswers[|old(node.assetAnswers)|] == Ok(r.value)
    ensures store.healthy && node.calm ==> r == Ok(node.assets)
    ensures node.Refusing() ==> r == Err(FromRln(node.refuses.value))
  {
    var assets := node.ListAssets();
    ghost var t := store.trace;
    store.Others(EngineTask(tid));
    ForeignRun(store.maxAttempts, t, store.trace, tid, n);
    if assets.Err? {
      return Err(FromRln(assets.error));
    }
    var broken := store.Broken();
    if broken {
      return Err(FromStore(Unavailable));
    }
    return Ok(assets.value);
  }

  /** The loop of `sync` over the assets of its scope. */
  method VisitAssets(store: Store, node: Rln.Node, ghost tid: Tid, assets: set<string>, before: SyncReport, now: int,
                     ghost mirror: Db, ghost from: nat, ghost n: nat, ghost assetless: bool,
                     ghost visited: seq<Option<string>>, ghost was: seq<Observed>)
    returns (r: Result<SyncReport, SyncError>, ghost order: seq<Option<string>>, ghost seen: seq<Observed>,
             ghost half: bool)
    requires Syncing(store, node, tid, mirror, from, n, visited, was, before, now)
    requires Listing.VisitsScope(visited, {}, assetless)
    modifies store, node`listed
    ensures store.Valid() && old(store.trace) <= store.trace && tid in store.State().engine
    ensures old(node.listed) <= node.listed
    ensures r.Ok? ==> !half && r.value.assets == before.assets
                      && Syncing(store, node, tid, mirror, from, n, order, seen, r.value, now)
                      && Listing.VisitsScope(order, assets, assetless)
    ensures r.Err? && store.alone && store.healthy && node.calm ==>
              Listing.ObserveAll(mirror, Listing.Visit(node.buckets, order), now)
              == Listing.Outcome(store.Mirror(), false)
    ensures r.Err? && store.alone ==> StandsAt(store, node, mirror, from, seen, half, now, r.error.FromRln?)
    ensures store.alone && store.healthy ==>
              store.nodeState == old(store.nodeState) && store.lastFullSyncAt == old(store.lastFullSyncAt)
  {
    hide Legal, After, Enabled, TransferMoves, Listing.ObserveAll, Listing.Visit, Listing.VisitsScope;
    hide StandsAt, Listing.Answers, Apply, Syncing;
    SyncingEnds(store, node, tid, mirror, from, n, visited, was, before, now);
    order, seen, half := visited, was, false;
    var report := before;
    var rest := assets;
    assert assets - rest == {};
    while rest != {}
      invariant old(store.trace) <= store.trace && old(node.listed) <= node.listed && rest <= assets && !half
      invariant store.Valid() && tid in store.State().engine
      invariant Syncing(store, node, tid, mirror, from, n, order, seen, report, now) && report.assets == before.assets
      invariant Listing.VisitsScope(order, assets - rest, assetless)
      invariant store.alone && store.healthy ==>
                  store.nodeState == old(store.nodeState) && store.lastFullSyncAt == old(store.lastFullSyncAt)
    {
      var a :| a in rest;
      Listing.VisitsOneMore(order, assets - rest, assetless, a);
      assert assets - (rest - {a}) == assets - rest + {a};
      var next;
      next, seen, half := VisitBucket(store, node, tid, Some(a), report, now, mirror, from, n, order, seen);
      order := order + [Some(a)];
      if next.Err? {
        return Err(next.error), order, seen, half;
      }
      report := next.value;
      rest := rest - {a};
    }
    assert assets - rest == assets;
    return Ok(report), order, seen, half;
  }

  /** The assetless bucket, where the scope has it, and then the assets. */
  method VisitScope(store: Store, node: Rln.Node, ghost tid: Tid, assets: set<string>, assetless: bool,
                    before: SyncReport, now: int, ghost mirror: Db, ghost from: nat, ghost n: nat)
    returns (r: Result<SyncReport, SyncError>, ghost order: seq<Option<string>>, ghost seen: seq<Observed>,
             ghost half: bool)
    requires Syncing(store, node, tid, mirror, from, n, [], [], before, now)
    modifies store, node`listed
    ensures store.Valid() && old(store.trace) <= store.trace && tid in store.State().engine
    ensures old(node.listed) <= node.listed
    ensures r.Ok? ==> !half && r.value.assets == before.assets
                      && Syncing(store, node, tid, mirror, from, n, order, seen, r.value, now)
                      && Listing.VisitsScope(order, assets, assetless)
    ensures r.Err? && store.alone && store.healthy && node.calm ==>
              Listing.ObserveAll(mirror, Listing.Visit(node.buckets, order), now)
              == Listing.Outcome(store.Mirror(), false)
    ensures r.Err? && store.alone ==> StandsAt(store, node, mirror, from, seen, half, now, r.error.FromRln?)
    ensures store.alone && store.healthy ==>
              store.nodeState == old(store.nodeState) && store.lastFullSyncAt == old(store.lastFullSyncAt)
  {
    hide Legal, After, Enabled, TransferMoves, Listing.ObserveAll, Listing.Visit, Listing.VisitsScope;
    hide StandsAt, Listing.Answers, Listing.Asked, Apply, Syncing;
    order, seen, half := [], [], false;
    var report := before;
    if assetless {
      var next;
      next, seen, half := VisitBucket(store, node, tid, None, report, now, mirror, from, n, order, seen);
      order := order + [None];
      if next.Err? {
        return Err(next.error), order, seen, half;
      }
      report := next.value;
    }
    Listing.VisitsFirst(assetless);
    assert order == if assetless then [None] else [];
    r, order, seen, half := VisitAssets(store, node, tid, assets, report, now, mirror, from, n, assetless, order, seen);
  }

  /** The listings answered are of the buckets the scope names, each once: those of the assets it resolves
      to from the rows read and the node's own answer, where it has to be asked. */
  ghost predicate Covers(listed: seq<Rln.Listed>, rows: seq<Transfer>,
                         answers: seq<Result<set<string>, Rln.RlnError>>, scope: Listing.Scope, report: SyncReport)
  {
    && (if AsksAssets(rows, scope) then |answers| == 1 && answers[0].Ok? else answers == [])
    && var answer := if AsksAssets(rows, scope) then answers[0].value else {};
       && Listing.VisitsScope(Listing.Asked(listed), Listing.ScopeAssets(rows, answer, scope),
                              Listing.ScopeAssetless(rows, scope))
       && report.assets == |Listing.ScopeAssets(rows, answer, scope)|
       && report.transfers == |Listing.Answers(listed)|
  }

  lemma CoversScope(listed: seq<Rln.Listed>, rows: seq<Transfer>, answers: seq<Result<set<string>, Rln.RlnError>>,
                    scope: Listing.Scope, assets: set<string>, assetless: bool, report: SyncReport)
    requires if AsksAssets(rows, scope) then |answers| == 1 && answers[0].Ok? else answers == []
    requires var answer := if AsksAssets(rows, scope) then answers[0].value else {};
             (assets, assetless) == Resolved(rows, scope, answer)
    requires Listing.VisitsScope(Listing.Asked(listed), assets, assetless)
    requires report.assets == |assets| && report.transfers == |Listing.Answers(listed)|
    ensures Covers(listed, rows, answers, scope, report)
  {
  }

  /** `sync`, from the point on at which it reads the rows its scope depends on. */
  method SyncFrom(store: Store, node: Rln.Node, ghost tid: Tid, scope: Listing.Scope, now: int)
    returns (r: Result<SyncReport, SyncError>, ghost order: seq<Option<string>>, ghost seen: seq<Observed>,
             ghost half: bool)
    requires store.Valid() && tid in store.State().engine && store.State().engine[tid] == []
    modifies store, node`listed, node`assetAnswers
    ensures store.Valid() && old(store.trace) <= store.trace && tid in store.State().engine
    ensures r.Ok? ==> store.State().engine[tid] == []
                      && r.value.transitions == TransferMoves(store.maxAttempts, store.trace, |old(store.trace)|)
                      && (node.calm ==> r.value.transfers == |Listing.Visit(node.buckets, order)|)
    ensures old(node.listed) <= node.listed && old(node.assetAnswers) <= node.assetAnswers
    ensures r.Ok? ==> Covers(node.listed[|old(node.listed)|..], old(store.transfers),
                             node.assetAnswers[|old(node.assetAnswers)|..], scope, r.value)
    ensures store.alone && store.healthy && node.calm ==>
              && Listing.ObserveAll(old(store.Mirror()), Listing.Visit(node.buckets, order), now)
                 == Listing.Outcome(store.Mirror(), r.Ok?)
              && (r.Ok? ==> Listing.VisitsScope(order, Listing.ScopeAssets(old(store.transfers), node.assets, scope),
                                                Listing.ScopeAssetless(old(store.transfers), scope)))
              && (r.Ok? ==> r.value.assets == |Listing.ScopeAssets(old(store.transfers), node.assets, scope)|)
    ensures scope.Full? && node.Refusing() ==> r == Err(FromRln(node.refuses.value))
    ensures store.alone && store.healthy ==>
              store.nodeState == old(store.nodeState) && store.lastFullSyncAt == old(store.lastFullSyncAt)
    ensures store.alone ==>
              StandsAt(store, node, old(store.Mirror()), |old(node.listed)|, seen, half, now, r.Ok? || r.error.FromRln?)
  {
    hide Legal, After, Enabled, TransferMoves, Listing.ObserveAll, Listing.Visit, Listing.VisitsScope;
    hide Listing.ScopeAssets, Listing.ScopeAssetless, StandsAt, Listing.Answers, Listing.Asked, Apply, Syncing;
    hide Covers, AsksAssets;
    order, seen, half := [], [], false;
    ghost var n, from, asks := |store.trace|, |node.listed|, |node.assetAnswers|;
    ghost var mirror, rows := store.Mirror(), store.transfers;
    NoMovesYet(store.maxAttempts, store.trace);
    Listing.VisitNothing(node.buckets, mirror, now);
    StandsFirst(store, node, now);
    var resolved := ResolveScope(store, node, tid, scope, n);
    if resolved.Err? {
      return Err(resolved.error), order, seen, half;
    }
    var (assets, assetless) := resolved.value;
    var report := SyncReport(|assets|, 0, 0);
    SyncingStarts(store, node, tid, mirror, from, n, report, now);
    r, order, seen, half := VisitScope(store, node, tid, assets, assetless, report, now, mirror, from, n);
    if r.Ok? {
      SyncingEnds(store, node, tid, mirror, from, n, order, seen, r.value, now);
      CoversScope(node.listed[from..], rows, node.assetAnswers[asks..], scope, assets, assetless, r.value);
    }
  }

  /** `sync`, by a task that holds the mutex. Whatever runs beside it, its report counts exactly the
      transfers whose status changed while it ran, and what it covers is exactly its scope, by the rows it
      read at point `at` of the run and the node's own answers; run alone, it is the fold of `Listing` over
      the buckets its scope names, each visited once. */
  method Sync(store: Store, node: Rln.Node, ghost tid: Tid, scope: Listing.Scope, now: int)
    returns (r: Result<SyncReport, SyncError>, ghost order: seq<Option<string>>, ghost seen: seq<Observed>,
             ghost half: bool, ghost at: nat)
    requires store.Valid() && tid in store.State().engine && store.State().engine[tid] == []
    modifies store, node`listed, node`assetAnswers
    ensures store.Valid() && old(store.trace) <= store.trace && tid in store.State().engine
    ensures r.Ok? ==> store.State().engine[tid] == []
                      && r.value.transitions == TransferMoves(store.maxAttempts, store.trace, |old(store.trace)|)
                      && (node.calm ==> r.value.transfers == |Listing.Visit(node.buckets, order)|)
    ensures |old(store.trace)| <= at <= |store.trace| && Legal(store.maxAttempts, store.trace[..at])
    ensures old(node.listed) <= node.listed && old(node.assetAnswers) <= node.assetAnswers
    ensures r.Ok? ==> Covers(node.listed[|old(node.listed)|..],
                             After(store.maxAttempts, store.trace[..at]).db.transfers,
                             node.assetAnswers[|old(node.assetAnswers)|..], scope, r.value)
    ensures store.alone && store.healthy && node.calm ==>
              && Listing.ObserveAll(old(store.Mirror()), Listing.Visit(node.buckets, order), now)
                 == Listing.Outcome(store.Mirror(), r.Ok?)
              && (r.Ok? ==> Listing.VisitsScope(order, Listing.ScopeAssets(old(store.transfers), node.assets, scope),
                                                Listing.ScopeAssetless(old(store.transfers), scope)))
              && (r.Ok? ==> r.value.assets == |Listing.ScopeAssets(old(store.transfers), node.assets, scope)|)
    ensures scope.Full? && node.Refusing() ==> r == Err(FromRln(node.refuses.value))
    ensures store.alone && store.healthy ==>
              store.nodeState == old(store.nodeState) && store.lastFullSyncAt == old(store.lastFullSyncAt)
    ensures store.alone ==>
              StandsAt(store, node, old(store.Mirror()), |old(node.listed)|, seen, half, now, r.Ok? || r.error.FromRln?)
  {
    hide Legal, After, Enabled, Apply, TransferMoves, StandsAt, Covers;
    hide Listing.ObserveAll, Listing.Visit, Listing.VisitsScope, Listing.ScopeAssets, Listing.ScopeAssetless;
    ghost var t := store.trace;
    store.Others(EngineTask(tid));
    ghost var u := store.trace;
    ForeignRun(store.maxAttempts, t, u, tid, |t|);
    NoMovesYet(store.maxAttempts, t);
    at := |u|;
    r, order, seen, half := SyncFrom(store, node, tid, scope, now);
    MovesSplit(store.maxAttempts, u, store.trace, |t|);
    assert store.trace[..at] == u;
  }
}
