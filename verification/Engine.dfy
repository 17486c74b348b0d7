/** The engine's loops: the reaper, the full sync and the reconcile. */
module Engine {
  import opened Base
  import opened Status
  import opened Tables
  import opened System
  import opened Invariants
  import opened LockDiscipline
  import opened StoreModel
  import opened EngineRuns
  import opened SyncLoop
  import Listing
  import Rln

  datatype EngineError = Sync(sync: SyncError) | Store(store: StoreError) | Rln(rln: Rln.RlnError) | Misconfiguration

  datatype Fault = NodeLocked | Unreachable

  function FaultOf(e: EngineError): Option<Fault> {
    match e
    case Rln(Locked) => Some(NodeLocked)
    case Rln(Transport) => Some(Unreachable)
    case Sync(FromRln(Locked)) => Some(NodeLocked)
    case Sync(FromRln(Transport)) => Some(Unreachable)
    case _ => None
  }

  // ------------------------------------------------------------------ the reaper

  /** The rows a list of transfer.failed events tells of, and no others, went to Failed. */
  predicate Reaped(a: seq<Transfer>, b: seq<Transfer>, told: seq<Payload>) {
    && |a| <= |b|
    && (forall k :: 0 <= k < |told| ==>
          told[k].TransferPayload? && told[k].event == TransferFailed
          && told[k].id < |a| && !Announced(a[told[k].id].status) && b[told[k].id].status == Failed)
    && (forall j, k :: 0 <= j < k < |told| ==> told[j].id != told[k].id)
    && (forall i :: 0 <= i < |a| && b[i].status != a[i].status ==> exists k :: 0 <= k < |told| && told[k].id == i)
  }

  /** Each event is of an expired row whose fail request the node had answered Ok. */
  predicate Answered(told: seq<Payload>, oks: seq<int>, now: int) {
    |told| == |oks| && forall k :: 0 <= k < |told| ==>
      told[k].TransferPayload? && told[k].row.batchTransferIdx == Some(oks[k])
      && told[k].row.expiration.Some? && told[k].row.expiration.value < now
  }

  /** A swap to Failed of a fallible row, as the outbox and the table show it. */
  lemma FailMoves(db: Db, t: Read, now: int)
    requires t.observed == Failed && !Announced(t.row.status)
    requires t.id < |db.transfers| && db.transfers[t.id].status == t.row.status
    ensures var b := Tables.ApplyObserved(db, t.id, t.row, t.observed, now);
            && PlanTransition(t.row.status, t.observed).Some?
            && b.transfers == db.transfers[t.id := Swapped(db.transfers[t.id], Failed, now)]
            && TransferEvents(b.outbox) == TransferEvents(db.outbox) + [FailPayload(t, now)]
  {
    var b := Tables.ApplyObserved(db, t.id, t.row, t.observed, now);
    assert b.outbox[..|b.outbox| - 1] == db.outbox;
  }

  function FailPayload(t: Read, now: int): Payload {
    TransferPayload(TransferFailed, t.id, t.row.(status := Failed, updatedAt := now), t.row.status, Failed, now)
  }

  lemma NothingReaped(rows: seq<Transfer>, now: int)
    ensures Reaped(rows, rows, []) && Answered([], [], now)
  {
  }

  lemma ReapedKept(a: seq<Transfer>, b: Db, c: Db, told: seq<Payload>)
    requires Reaped(a, b.transfers, told) && Undisturbed(b, c)
    ensures Reaped(a, c.transfers, told)
  {
  }

  lemma ReapedMore(a: seq<Transfer>, b: seq<Transfer>, told: seq<Payload>, p: Payload, now: int)
    requires Reaped(a, b, told) && p.TransferPayload? && p.event == TransferFailed
    requires p.id < |a| && b[p.id].status == a[p.id].status && !Announced(a[p.id].status)
    ensures Reaped(a, b[p.id := Swapped(b[p.id], Failed, now)], told + [p])
  {
    var more := told + [p];
    forall i | 0 <= i < |a| && b[p.id := Swapped(b[p.id], Failed, now)][i].status != a[i].status
      ensures exists k :: 0 <= k < |more| && more[k].id == i
    {
      if i == p.id {
        assert more[|told|].id == i;
      } else {
        var k :| 0 <= k < |told| && told[k].id == i;
        assert more[k].id == i;
      }
    }
  }

  /** Where the reaper stands since it took the mutex over snapshot `a`: the moves, the events and
      the granted requests so far are the same things. */
  ghost predicate Progress(store: Store, node: Rln.Node, tid: Tid, a: Db, start: nat,
                           told: seq<Payload>, oks: seq<int>, now: int)
    reads store, node
  {
    && store.Valid() && start <= |store.trace| && tid in store.State().engine
    && |told| == TransferMoves(store.maxAttempts, store.trace, start)
    && TransferEvents(store.outbox) == TransferEvents(a.outbox) + told
    && Reaped(a.transfers, store.transfers, told)
    && oks <= node.failed && Answered(told, node.failed[|oks|..], now)
  }

  /** A row of the scan, as it was when the mutex was taken. */
  predicate FromScan(a: Db, t: Read, now: int) {
    && t.observed == Failed && t.id < |a.transfers| && t.row == a.transfers[t.id]
    && Overdue(t.row, now)
  }

  /** What the mutex protects: the next row to apply still has the status it was read with. */
  lemma HeadCurrent(store: Store, tid: Tid)
    requires store.Valid() && tid in store.State().engine && store.State().engine[tid] != []
    ensures var t := store.State().engine[tid][0];
            t.id < |store.transfers| && store.transfers[t.id].status == t.row.status
  {
    Reachable(store.maxAttempts, store.trace);
    assert ReadsCurrent(store.State().db.transfers, store.State().engine[tid]);
  }

  /** The fail requests a scan asks for: one per row with a batch index, in the scan's order. */
  function Wanted(todo: seq<Read>): seq<int> {
    if todo == [] then [] else
    var b := todo[|todo| - 1].row.batchTransferIdx;
    Wanted(todo[..|todo| - 1]) + (if b.Some? then [b.value] else [])
  }

  /** The reaper's requests: all its scan asks for, or as many as it took to find the node locked or
      unreachable. */
  ghost predicate Served(before: seq<int>, after: seq<int>, answer: Result<(), Rln.RlnError>, todo: seq<Read>) {
    exists m: nat :: ServedUpTo(before, after, todo, m) && (m < |todo| ==> GaveUpAt(answer, todo, m))
  }

  /** The last of the first `m` rows was asked for, and the answer was that the node is locked or
      unreachable. */
  predicate GaveUpAt(answer: Result<(), Rln.RlnError>, todo: seq<Read>, m: nat) {
    && answer in {Err(Rln.Locked), Err(Rln.Transport)}
    && 0 < m <= |todo| && todo[m - 1].row.batchTransferIdx.Some?
  }

  predicate ServedUpTo(before: seq<int>, after: seq<int>, todo: seq<Read>, m: nat) {
    m <= |todo| && after == before + Wanted(todo[..m])
  }

  lemma ServedNone(before: seq<int>, todo: seq<Read>)
    ensures ServedUpTo(before, before, todo, 0)
  {
  }

  lemma ServedMore(before: seq<int>, mid: seq<int>, after: seq<int>, todo: seq<Read>, m: nat)
    requires ServedUpTo(before, mid, todo, m) && m < |todo|
    requires var b := todo[m].row.batchTransferIdx; after == mid + (if b.Some? then [b.value] else [])
    ensures ServedUpTo(before, after, todo, m + 1)
  {
    assert todo[..m + 1][..m] == todo[..m];
  }

  function Expired(rows: seq<Transfer>, now: int): seq<Read> {
    ReadsOf(rows, ExpiredBelow(rows, now, |rows|))
  }

  datatype Turn = Granted | Passed | Stop

  /** The node has granted the request for `t`: apply it. `more` is what will then have been told. */
  method FailGranted(store: Store, node: Rln.Node, ghost tid: Tid, t: Read, ghost a: Db, ghost start: nat,
                     ghost more: seq<Payload>, ghost oks: seq<int>, now: int)
    returns (r: Result<(), EngineError>)
    requires store.Valid() && start <= |store.trace| && tid in store.State().engine
    requires store.State().engine[tid] != [] && store.State().engine[tid][0] == t
    requires PlanTransition(t.row.status, t.observed).Some? && Swappable(t.row)
    requires |more| == TransferMoves(store.maxAttempts, store.trace, start) + 1
    requires var b := Tables.ApplyObserved(store.Mirror(), t.id, t.row, t.observed, now);
             TransferEvents(b.outbox) == TransferEvents(a.outbox) + more && Reaped(a.transfers, b.transfers, more)
    requires oks <= node.failed && Answered(more, node.failed[|oks|..], now)
    modifies store
    ensures store.Valid() && old(store.trace) <= store.trace && tid in store.State().engine
    ensures store.healthy ==> r.Ok?
    ensures r.Ok? ==> Progress(store, node, tid, a, start, more, oks, now)
                      && store.State().engine[tid] == old(store.State()).engine[tid][1..]
  {
    var applied := SyncLoop.ApplyObserved(store, tid, t, now, start);
    r := if applied.Err? then Err(Store(applied.error)) else Ok(());
  }

  /** One granted request more, on snapshots. */
  lemma FailTold(a: Db, db: Db, t: Read, told: seq<Payload>, oks: seq<int>, now: int)
    requires FromScan(a, t, now) && t.row.batchTransferIdx.Some?
    requires t.id < |db.transfers| && db.transfers[t.id].status == t.row.status
    requires TransferEvents(db.outbox) == TransferEvents(a.outbox) + told
    requires Reaped(a.transfers, db.transfers, told) && Answered(told, oks, now)
    ensures var b := Tables.ApplyObserved(db, t.id, t.row, t.observed, now);
            var more := told + [FailPayload(t, now)];
            && PlanTransition(t.row.status, t.observed).Some?
            && TransferEvents(b.outbox) == TransferEvents(a.outbox) + more
            && Reaped(a.transfers, b.transfers, more)
            && Answered(more, oks + [t.row.batchTransferIdx.value], now)
  {
    FailMoves(db, t, now);
    ReapedMore(a.transfers, db.transfers, told, FailPayload(t, now), now);
  }

  lemma GrantTold(store: Store, tid: Tid, t: Read, a: Db, told: seq<Payload>, oks: seq<int>,
                  granted: seq<int>, failed: seq<int>, now: int)
    requires store.Valid() && tid in store.State().engine && store.State().engine[tid] != []
    requires store.State().engine[tid][0] == t && FromScan(a, t, now) && t.row.batchTransferIdx.Some?
    requires TransferEvents(store.outbox) == TransferEvents(a.outbox) + told
    requires Reaped(a.transfers, store.transfers, told)
    requires oks <= granted && Answered(told, granted[|oks|..], now)
    requires failed == granted + [t.row.batchTransferIdx.value]
    ensures var b := Tables.ApplyObserved(store.Mirror(), t.id, t.row, t.observed, now);
            var more := told + [FailPayload(t, now)];
            && PlanTransition(t.row.status, t.observed).Some?
            && TransferEvents(b.outbox) == TransferEvents(a.outbox) + more
            && Reaped(a.transfers, b.transfers, more)
            && oks <= failed && Answered(more, failed[|oks|..], now)
  {
    hide Legal, After, Inv, Reaped, Answered, TransferEvents, PlanTransition, Tables.ApplyObserved;
    HeadCurrent(store, tid);
    FailTold(a, store.Mirror(), t, told, granted[|oks|..], now);
    assert failed[|oks|..] == granted[|oks|..] + [t.row.batchTransferIdx.value];
  }

  /** A transfer.failed event of the row is among them. */
  predicate ToldOf(told: seq<Payload>, id: nat) {
    exists k :: 0 <= k < |told| && AboutTransfer(told[k], id)
  }

  /** The first `n` rows of a scan that have a batch index have been told of. */
  predicate AllTold(todo: seq<Read>, n: nat, told: seq<Payload>) {
    forall j :: 0 <= j < |todo| && j < n && todo[j].row.batchTransferIdx.Some? ==> ToldOf(told, todo[j].id)
  }

  lemma NoneTold(todo: seq<Read>)
    ensures AllTold(todo, 0, [])
  {
  }

  lemma AllToldMore(todo: seq<Read>, n: nat, told: seq<Payload>, more: seq<Payload>, now: int)
    requires n < |todo| && AllTold(todo, n, told)
    requires more == told || more == told + [FailPayload(todo[n], now)]
    requires todo[n].row.batchTransferIdx.Some? ==> more == told + [FailPayload(todo[n], now)]
    ensures AllTold(todo, n + 1, more)
  {
    forall j | 0 <= j < n + 1 && todo[j].row.batchTransferIdx.Some? ensures ToldOf(more, todo[j].id) {
      if j < n {
        var k :| 0 <= k < |told| && AboutTransfer(told[k], todo[j].id);
        assert more[k] == told[k];
      } else {
        assert AboutTransfer(more[|told|], todo[n].id);
      }
    }
  }

  /** Every overdue row with a batch index has ended as failed. */
  predicate AllFailed(a: seq<Transfer>, b: seq<Transfer>, now: int) {
    && |a| <= |b|
    && forall i :: 0 <= i < |a| && Overdue(a[i], now) && a[i].batchTransferIdx.Some? ==> b[i].status == Failed
  }

  lemma ScanFailed(a: Db, b: seq<Transfer>, told: seq<Payload>, now: int)
    requires Reaped(a.transfers, b, told) && AllTold(Expired(a.transfers, now), |Expired(a.transfers, now)|, told)
    ensures AllFailed(a.transfers, b, now)
  {
    var ids := ExpiredBelow(a.transfers, now, |a.transfers|);
    forall i | 0 <= i < |a.transfers| && Overdue(a.transfers[i], now) && a.transfers[i].batchTransferIdx.Some?
      ensures b[i].status == Failed
    {
      assert i in ids;
      var j :| 0 <= j < |ids| && ids[j] == i;
      assert Expired(a.transfers, now)[j] == Read(i, a.transfers[i], Failed);
      assert ToldOf(told, i);
    }
  }

  /** The only answers that end the reaper with an error: not that the node cannot fail the transfer, is
      locked or is unreachable. */
  predicate Surfaces(answer: Result<(), Rln.RlnError>, e: EngineError) {
    answer.Err? && e == Rln(answer.error) && answer.error !in {Rln.CannotFail, Rln.Locked, Rln.Transport}
  }

  /** The body of the reaper's loop. */
  method ReapOne(store: Store, node: Rln.Node, ghost tid: Tid, t: Read, ghost a: Db, ghost start: nat,
                 ghost told: seq<Payload>, ghost oks: seq<int>, now: int)
    returns (r: Result<Turn, EngineError>, ghost more: seq<Payload>)
    requires Progress(store, node, tid, a, start, told, oks, now)
    requires store.State().engine[tid] != [] && store.State().engine[tid][0] == t && FromScan(a, t, now)
    modifies store, node
    ensures store.Valid() && old(store.trace) <= store.trace && tid in store.State().engine
    ensures r.Ok? ==> Progress(store, node, tid, a, start, more, oks, now)
                      && |more| == |told| + (if r.value.Granted? then 1 else 0)
                      && (!r.value.Stop? ==> store.State().engine[tid] == old(store.State()).engine[tid][1..])
                      && (r.value.Stop? ==> node.answer in {Err(Rln.Locked), Err(Rln.Transport)})
                      && (r.value.Stop? ==> t.row.batchTransferIdx.Some?)
                      && (if r.value.Granted? then more == told + [FailPayload(t, now)] else more == told)
                      && (node.granting && t.row.batchTransferIdx.Some? ==> r.value.Granted?)
    ensures node.asked == old(node.asked)
                          + (if t.row.batchTransferIdx.Some? then [t.row.batchTransferIdx.value] else [])
    ensures node.asked == old(node.asked) ==> node.answer == old(node.answer)
    ensures r.Ok? && node.asked != old(node.asked) && node.answer == Err(Rln.Locked) ==>
              r.value.Stop? && store.nodeState == NodeState.Locked
    ensures store.healthy && r.Err? ==> Surfaces(node.answer, r.error)
  {
    hide Legal, After, Apply, Inv, TransferMoves, TransferEvents, Reaped;
    more := told;
    if t.row.batchTransferIdx.None? {
      SkipTurn(store, tid, start);
      return Ok(Passed), more;
    }
    ghost var mirror, before := store.Mirror(), store.trace;
    store.Others(EngineTask(tid));
    ForeignRun(store.maxAttempts, before, store.trace, tid, start);
    ReapedKept(a.transfers, mirror, store.Mirror(), told);
    ghost var granted := node.failed;
    var answer := node.FailTransfer(t.row.batchTransferIdx.value);
    match answer
    case Ok(_) =>
      more := told + [FailPayload(t, now)];
      GrantTold(store, tid, t, a, told, oks, granted, node.failed, now);
      var applied := FailGranted(store, node, tid, t, a, start, more, oks, now);
      return if applied.Err? then Err(applied.error) else Ok(Granted), more;
    case Err(CannotFail) =>
      SkipTurn(store, tid, start);
      return Ok(Passed), more;
    case Err(Locked) =>
      var written := store.SetNodeState(NodeState.Locked);
      return if written.Err? then Err(Store(written.error)) else Ok(Stop), more;
    case Err(Transport) =>
      return Ok(Stop), more;
    case Err(e) =>
      return Err(Rln(e)), more;
  }

  /** What `reap` does under the mutex. */
  method ReapHeld(store: Store, node: Rln.Node, ghost tid: Tid, now: int)
    returns (r: Result<nat, EngineError>, ghost told: seq<Payload>)
    requires store.Valid() && tid in store.State().engine && store.State().engine[tid] == []
    modifies store, node
    ensures store.Valid() && old(store.trace) <= store.trace && tid in store.State().engine
    ensures r.Ok? ==> r.value == |told|
                      && Progress(store, node, tid, old(store.Mirror()), |old(store.trace)|, told,
                                  old(node.failed), now)
                      && Served(old(node.asked), node.asked, node.answer, Expired(old(store.transfers), now))
                      && (node.granting ==> AllFailed(old(store.transfers), store.transfers, now))
    ensures r.Ok? && node.asked != old(node.asked) && node.answer == Err(Rln.Locked) ==>
              store.nodeState == NodeState.Locked
    ensures store.healthy && r.Err? ==> Surfaces(node.answer, r.error)
  {
    hide Legal, After, Inv, TransferMoves, TransferMoved, ServedUpTo, Reaped, Answered, ReadsOf, ExpiredBelow;
    hide AllTold, AllFailed;
    ghost var a, start, oks := store.Mirror(), |store.trace|, node.failed;
    told := [];
    NoMovesYet(store.maxAttempts, store.trace);
    Reachable(store.maxAttempts, store.trace);
    QuietMoves(store.State(), Scan(tid, now));
    MovesMore(store.maxAttempts, store.trace, Scan(tid, now), start);
    var scanned := store.ExpiredFallible(tid, now);
    if scanned.Err? {
      return Err(Store(scanned.error)), told;
    }
    var todo := scanned.value;
    var failed := 0;
    var i := 0;
    ghost var asked := node.asked;
    ServedNone(asked, todo);
    NoneTold(todo);
    NothingReaped(a.transfers, now);
    assert oks[|oks|..] == [];
    assert TransferEvents(a.outbox) + [] == TransferEvents(a.outbox);
    while i < |todo|
      invariant 0 <= i <= |todo| && old(store.trace) <= store.trace
      invariant Progress(store, node, tid, a, start, told, oks, now)
      invariant store.State().engine[tid] == todo[i..]
      invariant forall j :: 0 <= j < |todo| ==> FromScan(a, todo[j], now)
      invariant failed == |told| && ServedUpTo(asked, node.asked, todo, i)
      invariant node.asked != asked ==> node.answer != Err(Rln.Locked)
      invariant node.granting ==> AllTold(todo, i, told)
    {
      ghost var mid, was := node.asked, told;
      var turn;
      turn, told := ReapOne(store, node, tid, todo[i], a, start, told, oks, now);
      if turn.Err? {
        return Err(turn.error), told;
      }
      if turn.value.Granted? {
        failed := failed + 1;
      }
      ServedMore(asked, mid, node.asked, todo, i);
      if node.granting {
        AllToldMore(todo, i, was, told, now);
      }
      i := i + 1;
      if turn.value.Stop? {
        break;
      }
    }
    if node.granting {
      ScanFailed(a, store.transfers, told, now);
    }
    return Ok(failed), told;
  }

  /** `reap`. It asks the node to fail every expired transfer that has a batch index, oldest first,
      until it finds the node locked or unreachable. On every normal return, an early break included,
      its count - which ignores what the swaps answer - is exactly the number of transfers moved to
      Failed while it held the mutex, the number of transfer.failed events added, and the number of
      fail requests the node granted. */
  method Reap(store: Store, node: Rln.Node, now: int)
    returns (r: Result<nat, EngineError>, ghost start: nat, ghost told: seq<Payload>)
    requires store.Valid()
    modifies store, node
    ensures store.Valid() && old(store.trace) <= store.trace && store.State().lock.None?
    ensures |old(store.trace)| < start <= |store.trace| && Legal(store.maxAttempts, store.trace[..start])
    ensures r.Ok? ==>
              var a, b := After(store.maxAttempts, store.trace[..start]).db, store.Mirror();
              && r.value == |told| == TransferMoves(store.maxAttempts, store.trace, start)
              && TransferEvents(b.outbox) == TransferEvents(a.outbox) + told
              && Reaped(a.transfers, b.transfers, told)
              && old(node.failed) <= node.failed && Answered(told, node.failed[|old(node.failed)|..], now)
              && Served(old(node.asked), node.asked, node.answer, Expired(a.transfers, now))
              && (node.granting ==> AllFailed(a.transfers, b.transfers, now))
    ensures r.Ok? && node.asked != old(node.asked) && node.answer == Err(Rln.Locked) ==>
              store.nodeState == NodeState.Locked
    ensures store.healthy && r.Err? ==> Surfaces(node.answer, r.error)
  {
    ghost var tid;
    tid, start := store.Acquire();
    ghost var held := store.trace;
    r, told := ReapHeld(store, node, tid, now);
    ReleaseTurn(store, tid, start);
    PrefixOf(held, store.trace);
  }

  lemma PrefixOf<T>(a: seq<T>, b: seq<T>)
    requires a <= b
    ensures b[..|a|] == a
  {
  }

  /** Passing over a row changes no table. */
  ghost method SkipTurn(store: Store, tid: Tid, n: nat)
    requires store.Valid() && Enabled(store.State(), Skip(tid)) && n <= |store.trace|
    modifies store`trace
    ensures store.Valid() && old(store.trace) <= store.trace
    ensures tid in store.State().engine && store.State().engine[tid] == old(store.State()).engine[tid][1..]
    ensures TransferMoves(store.maxAttempts, store.trace, n) == TransferMoves(store.maxAttempts, old(store.trace), n)
  {
    Reachable(store.maxAttempts, store.trace);
    QuietMoves(store.State(), Skip(tid));
    MovesMore(store.maxAttempts, store.trace, Skip(tid), n);
    store.Pass(tid);
  }

  ghost method ReleaseTurn(store: Store, tid: Tid, n: nat)
    requires store.Valid() && tid in store.State().engine && n <= |store.trace|
    modifies store`trace
    ensures store.Valid() && old(store.trace) <= store.trace && store.State().lock.None?
    ensures store.Mirror() == old(store.Mirror())
    ensures TransferMoves(store.maxAttempts, store.trace, n) == TransferMoves(store.maxAttempts, old(store.trace), n)
  {
    Reachable(store.maxAttempts, store.trace);
    QuietMoves(store.State(), Unlock(tid));
    MovesMore(store.maxAttempts, store.trace, Unlock(tid), n);
    store.Release(tid);
  }

  // --------------------------------------------------------------- the full sync

  lemma HeldRows(store: Store)
    requires store.Valid()
    ensures RowsInv(store.transfers)
  {
    Reachable(store.maxAttempts, store.trace);
  }

  /** The listings answered are of the assetless bucket and of every asset the node named, each once. */
  ghost predicate CoversAll(listed: seq<Rln.Listed>, answers: seq<Result<set<string>, Rln.RlnError>>,
                            report: SyncReport) {
    && |answers| == 1 && answers[0].Ok?
    && Listing.VisitsScope(Listing.Asked(listed), answers[0].value, true)
    && report.assets == |answers[0].value| && report.transfers == |Listing.Answers(listed)|
  }

  lemma FullCovers(listed: seq<Rln.Listed>, rows: seq<Transfer>, answers: seq<Result<set<string>, Rln.RlnError>>,
                   report: SyncReport)
    requires Covers(listed, rows, answers, Listing.Full, report)
    ensures CoversAll(listed, answers, report)
  {
  }

  /** What `full_sync` does under the mutex. */
  method FullSyncHeld(store: Store, node: Rln.Node, ghost tid: Tid, now: int)
    returns (r: Result<SyncReport, EngineError>, ghost order: seq<Option<string>>, ghost seen: seq<Observed>,
             ghost half: bool)
    requires store.Valid() && tid in store.State().engine && store.State().engine[tid] == []
    modifies store, node`listed, node`assetAnswers
    ensures store.Valid() && old(store.trace) <= store.trace && tid in store.State().engine
    ensures r.Ok? ==> store.lastFullSyncAt == Some(now)
                      && r.value.transitions == TransferMoves(store.maxAttempts, store.trace, |old(store.trace)|)
    ensures r.Err? ==> r.error != Misconfiguration
    ensures node.Refusing() ==> r == Err(Sync(FromRln(node.refuses.value)))
    ensures old(node.listed) <= node.listed && old(node.assetAnswers) <= node.assetAnswers
    ensures r.Ok? ==> CoversAll(node.listed[|old(node.listed)|..],
                                node.assetAnswers[|old(node.assetAnswers)|..], r.value)
    ensures store.alone && store.healthy && node.calm ==>
              && Listing.ObserveAll(old(store.Mirror()), Listing.Visit(node.buckets, order), now)
                 == Listing.Outcome(store.Mirror(), r.Ok?)
              && (r.Ok? ==> Listing.VisitsScope(order, node.assets, true))
    ensures store.alone ==>
              StandsAt(store, node, old(store.Mirror()), |old(node.listed)|, seen, half, now,
                       r.Ok? || (r.error.Sync? && r.error.sync.FromRln?))
  {
    hide Legal, After, Apply, Enabled, Inv, TransferMoves, Covers, CoversAll;
    hide Listing.ObserveAll, Listing.Visit, Listing.VisitsScope;
    ghost var n, from, asks := |store.trace|, |node.listed|, |node.assetAnswers|;
    var synced;
    ghost var at;
    synced, order, seen, half, at := SyncLoop.Sync(store, node, tid, Listing.Full, now);
    if synced.Err? {
      return Err(Sync(synced.error)), order, seen, half;
    }
    ghost var t, rows := store.trace, After(store.maxAttempts, store.trace[..at]).db.transfers;
    FullCovers(node.listed[from..], rows, node.assetAnswers[asks..], synced.value);
    store.Others(EngineTask(tid));
    ForeignRun(store.maxAttempts, t, store.trace, tid, n);
    var stamped := store.SetLastFullSyncAt(now);
    r := if stamped.Err? then Err(Store(stamped.error)) else Ok(synced.value);
  }

  /** `full_sync`: under the mutex from first to last, stamped only if it succeeded. Run alone against
      a node that answers, it succeeds if every listed recipient is free or the transfer's own, and
      then converges: each listed transfer has one bound row at the node's status, unless a row that
      could match it was ahead of the node. */
  method FullSync(store: Store, node: Rln.Node, now: int)
    returns (r: Result<SyncReport, EngineError>, ghost start: nat, ghost order: seq<Option<string>>,
             ghost seen: seq<Observed>, ghost half: bool)
    requires store.Valid()
    modifies store, node`listed, node`assetAnswers
    ensures store.Valid() && old(store.trace) <= store.trace && store.State().lock.None?
    ensures |old(store.trace)| < start <= |store.trace|
    ensures r.Ok? ==> store.lastFullSyncAt == Some(now)
                      && r.value.transitions == TransferMoves(store.maxAttempts, store.trace, start)
    ensures r.Err? ==> r.error != Misconfiguration
    ensures node.Refusing() ==> r == Err(Sync(FromRln(node.refuses.value)))
    ensures old(node.listed) <= node.listed && old(node.assetAnswers) <= node.assetAnswers
    ensures r.Ok? ==> CoversAll(node.listed[|old(node.listed)|..],
                                node.assetAnswers[|old(node.assetAnswers)|..], r.value)
    ensures store.alone && store.healthy && node.calm && old(store.State()).lock.None? ==>
              && Listing.ObserveAll(old(store.Mirror()), Listing.Visit(node.buckets, order), now)
                 == Listing.Outcome(store.Mirror(), r.Ok?)
              && (r.Ok? ==> Listing.VisitsScope(order, node.assets, true))
              && var listing := Listing.Visit(node.buckets, order);
                 && (Listing.DistinctRecipients(listing) && Listing.AllAdmissible(old(store.transfers), listing) ==>
                       r.Ok?)
                 && (r.Ok? && Listing.Consistent(listing) && Listing.AllClear(old(store.transfers), listing) ==>
                       Listing.AllMirrored(store.transfers, listing))
    ensures store.alone && old(store.State()).lock.None? ==>
              StandsAt(store, node, old(store.Mirror()), |old(node.listed)|, seen, half, now,
                       r.Ok? || (r.error.Sync? && r.error.sync.FromRln?))
  {
    hide Legal, After, Inv, TransferMoves, CoversAll, Listing.Stopped, Listing.Answers;
    hide Listing.ObserveAll, Listing.Visit, Listing.VisitsScope;
    hide Listing.DistinctRecipients, Listing.AllAdmissible, Listing.Consistent, Listing.AllClear, Listing.AllMirrored;
    ghost var tid;
    ghost var mirror := store.Mirror();
    HeldRows(store);
    tid, start := store.Acquire();
    r, order, seen, half := FullSyncHeld(store, node, tid, now);
    ReleaseTurn(store, tid, start);
    if Listing.ObserveAll(mirror, Listing.Visit(node.buckets, order), now) == Listing.Outcome(store.Mirror(), r.Ok?) {
      Listing.SyncConverges(mirror, Listing.Visit(node.buckets, order), now, store.Mirror(), r.Ok?);
    }
  }

  // ----------------------------------------------------------------- reconcile

  function Lower(c: char): char {
    if 'A' <= c <= 'Z' then c - 'A' + 'a' else c
  }

  /** `eq_ignore_ascii_case`. */
  predicate SameNetwork(a: string, b: string) {
    |a| == |b| && forall i :: 0 <= i < |a| ==> Lower(a[i]) == Lower(b[i])
  }

  /** What it compares: each character is the other's, or its capital. */
  lemma NetworkLetters(a: string, b: string)
    ensures SameNetwork(a, b) <==>
            |a| == |b| && forall i :: 0 <= i < |a| ==>
              || a[i] == b[i]
              || ('a' <= a[i] <= 'z' && a[i] as int - b[i] as int == 32)
              || ('a' <= b[i] <= 'z' && b[i] as int - a[i] as int == 32)
  {
    forall c, d: char
      ensures Lower(c) == Lower(d) <==>
                || c == d
                || ('a' <= c <= 'z' && c as int - d as int == 32)
                || ('a' <= d <= 'z' && d as int - c as int == 32)
    {
    }
  }

  /** `auth_fault`. */
  function AuthFault(e: Rln.RlnError): EngineError {
    if e.Api? && (e.code == 401 || (e.code == 403 && e.name == "Forbidden")) then Misconfiguration else Rln(e)
  }

  predicate RightNetwork(node: Rln.Node, expected: Option<string>) {
    expected.Some? ==> SameNetwork(node.network, expected.value)
  }

  /** `check_network`. Without an expected network it passes whatever the node would answer. */
  method CheckNetwork(node: Rln.Node, expected: Option<string>) returns (r: Result<(), EngineError>)
    ensures expected.None? ==> r.Ok?
    ensures expected.Some? && node.Refusing() ==>
              match node.refuses.value
              case Api(code, name) =>
                if code == 401 || (code == 403 && name == "Forbidden") then r == Err(Misconfiguration)
                else r == Err(Rln(node.refuses.value))
              case _ => r == Err(Rln(node.refuses.value))
    ensures node.calm ==> r == if RightNetwork(node, expected) then Ok(()) else Err(Misconfiguration)
  {
    if expected.None? {
      return Ok(());
    }
    var got := node.Network();
    if got.Err? {
      return Err(AuthFault(got.error));
    }
    return if SameNetwork(got.value, expected.value) then Ok(()) else Err(Misconfiguration);
  }

  function CeilDiv(w: nat, b: nat): nat
    requires b >= 1
  {
    (w + b - 1) / b
  }

  lemma RoundBound(w: nat, b: nat, k: nat)
    requires b >= 1 && (k == 0 || (k - 1) * b < w)
    ensures k <= CeilDiv(w, b)
  {
    if k > 0 {
      var q := CeilDiv(w, b);
      assert w <= q * b;
      assert k - 1 >= q ==> (k - 1) * b >= q * b;
    }
  }

  datatype Round = Reconciled | Paused | Waiting

  /** One round of `reconcile`. The mirror is synced and stamped before the network is checked, so a
      node on the wrong network has been mirrored by the time the engine pauses. */
  method ReconcileRound(store: Store, node: Rln.Node, expected: Option<string>, now: int)
    returns (r: Result<Round, EngineError>, ghost order: seq<Option<string>>)
    requires store.Valid()
    modifies store, node`listed, node`assetAnswers
    ensures store.Valid() && old(store.trace) <= store.trace
    ensures r.Err? ==> FaultOf(r.error).None? && r.error != Misconfiguration
    ensures store.alone && store.healthy && node.calm && old(store.State()).lock.None? ==>
              var synced := Listing.ObserveAll(old(store.Mirror()), Listing.Visit(node.buckets, order), now);
              && store.Mirror() == synced.db
              && (synced.ok ==> r == Ok(if RightNetwork(node, expected) then Reconciled else Paused))
    ensures r == Ok(Reconciled) ==> store.nodeState == Unlocked && store.lastFullSyncAt.Some?
    ensures r == Ok(Paused) ==> store.nodeState == Misconfigured && store.lastFullSyncAt.Some? && expected.Some?
    ensures store.alone && r in {Ok(Reconciled), Ok(Paused)} ==> store.lastFullSyncAt == Some(now)
    ensures r == Ok(Waiting) ==> store.nodeState in {NodeState.Locked, Down}
    ensures store.healthy && node.Refusing() ==>
              match node.refuses.value
              case Locked => r == Ok(Waiting) && store.nodeState == NodeState.Locked
              case Transport => r == Ok(Waiting) && store.nodeState == Down
              case e => r == Err(Sync(FromRln(e)))
    ensures node.calm && r == Ok(Reconciled) ==> RightNetwork(node, expected)
    ensures node.calm && r == Ok(Paused) ==> !RightNetwork(node, expected)
  {
    hide Legal, After, Apply, Listing.ObserveAll, Listing.Visit, Listing.VisitsScope;
    var synced, _, visited, _, _ := FullSync(store, node, now);
    order := visited;
    var outcome: Result<(), EngineError> := if synced.Err? then Err(synced.error) else Ok(());
    if synced.Ok? {
      outcome := CheckNetwork(node, expected);
    }
    store.Others(Nobody);
    var state: NodeState;
    var round: Round;
    match outcome {
      case Ok(_) => state, round := Unlocked, Reconciled;
      case Err(e) =>
        if e == Misconfiguration {
          state, round := Misconfigured, Paused;
        } else if FaultOf(e) == Some(NodeLocked) {
          state, round := NodeState.Locked, Waiting;
        } else if FaultOf(e) == Some(Unreachable) {
          state, round := Down, Waiting;
        } else {
          return Err(e), order;
        }
    }
    var written := store.SetNodeState(state);
    return if written.Err? then Err(Store(written.error)) else Ok(round), order;
  }

  /** The monotonic clock: at least `atLeast` whole seconds pass. */
  method Pass(atLeast: nat) returns (secs: nat)
    ensures secs >= atLeast
  {
    secs := atLeast;
  }

  lemma OneSleepMore(rounds: nat, backoff: nat)
    requires rounds >= 1
    ensures rounds * backoff == (rounds - 1) * backoff + backoff
  {
  }

  /** `reconcile`: it ends within ceil(maxWait / backoff) + 1 rounds whatever the node answers, and
      says in the node state how it ended. */
  method Reconcile(store: Store, node: Rln.Node, expected: Option<string>, maxWait: u64, backoff: u64)
    returns (r: Result<bool, EngineError>, rounds: nat, clock: int, elapsed: nat)
    requires store.Valid() && backoff >= 1
    modifies store, node`listed, node`assetAnswers
    ensures store.Valid() && old(store.trace) <= store.trace
    ensures 1 <= rounds <= CeilDiv(maxWait, backoff) + 1
    ensures r == Ok(true) ==> store.nodeState == Unlocked && store.lastFullSyncAt.Some?
    ensures r == Ok(false) ==>
              || (store.nodeState in {NodeState.Locked, Down} && elapsed >= maxWait)
              || (store.nodeState == Misconfigured && store.lastFullSyncAt.Some? && expected.Some?)
    ensures store.alone && (r == Ok(true) || (r == Ok(false) && store.nodeState == Misconfigured)) ==>
              store.lastFullSyncAt == Some(clock)
    ensures r.Err? ==> FaultOf(r.error).None? && r.error != Misconfiguration
    ensures node.calm && r == Ok(true) ==> RightNetwork(node, expected)
    ensures node.calm && r == Ok(false) && RightNetwork(node, expected) ==> store.nodeState in {NodeState.Locked, Down}
    ensures rounds == 1 || (rounds - 2) * backoff < maxWait
    ensures store.healthy && node.Refusing() ==>
              match node.refuses.value
              case Locked => r == Ok(false) && store.nodeState == NodeState.Locked
              case Transport => r == Ok(false) && store.nodeState == Down
              case e => r == Err(Sync(FromRln(e))) && rounds == 1
  {
    hide Legal, After, CeilDiv;
    elapsed := 0;   // whole seconds since the start
    rounds := 0;
    while true
      invariant store.Valid() && old(store.trace) <= store.trace
      invariant elapsed >= rounds * backoff
      invariant rounds == 0 || (rounds - 1) * backoff < maxWait
      invariant rounds > 0 && store.healthy && node.Refusing() ==> node.refuses.value in {Rln.Locked, Rln.Transport}
      decreases CeilDiv(maxWait, backoff) + 1 - rounds
    {
      RoundBound(maxWait, backoff, rounds);
      clock := *;
      var round, _ := ReconcileRound(store, node, expected, clock);
      var took := Pass(0);
      elapsed := elapsed + took;
      rounds := rounds + 1;
      match round
      case Err(e) => return Err(e), rounds, clock, elapsed;
      case Ok(Reconciled) => return Ok(true), rounds, clock, elapsed;
      case Ok(Paused) => return Ok(false), rounds, clock, elapsed;
      case Ok(Waiting) =>
      if elapsed >= maxWait {
        return Ok(false), rounds, clock, elapsed;
      }
      var slept := Pass(backoff);
      OneSleepMore(rounds, backoff);
      elapsed := elapsed + slept;
      store.Others(Nobody);
    }
  }

  // -------------------------------------------------------------------- the tick

  /** Nothing is on its way: every stored transfer has ended, or was never handed to a counterparty. */
  predicate AtRest(rows: seq<Transfer>) {
    forall i :: 0 <= i < |rows| ==>
      rows[i].status == Initiated || rows[i].status == Settled || rows[i].status == TransferStatus.Failed
  }

  lemma RestIsNoneWaiting(rows: seq<Transfer>)
    ensures AtRest(rows) <==> NoneWaiting(rows)
  {
    forall s: TransferStatus
      ensures s.Waiting() <==> s != Initiated && s != Settled && s != TransferStatus.Failed
    {
    }
  }

  datatype TickOutcome = Idle | PausedTick | Refreshed(report: SyncReport) | LockedTick | UnreachableTick

  /** `tick`. The node state is read before the mutex is taken, so it may be stale when the refresh
      is sent; the report is exact all the same. */
  method Tick(store: Store, node: Rln.Node, now: int)
    returns (r: Result<TickOutcome, EngineError>, ghost start: nat, ghost order: seq<Option<string>>)
    requires store.Valid()
    modifies store, node`listed, node`assetAnswers
    ensures store.Valid() && old(store.trace) <= store.trace && start <= |store.trace|
    ensures r.Ok? && r.value.Refreshed? ==>
              r.value.report.transitions == TransferMoves(store.maxAttempts, store.trace, start)
    ensures r == Ok(PausedTick) ==> unchanged(store) && store.nodeState != Unlocked
    ensures r == Ok(LockedTick) ==> store.nodeState == NodeState.Locked
    ensures store.alone && store.healthy && node.Refusing()
            && old(store.nodeState) == Unlocked && !AtRest(old(store.transfers)) ==>
              match node.refuses.value
              case Locked => r == Ok(LockedTick)
              case Transport => r == Ok(UnreachableTick)
              case e => r == Err(Rln(e))
    ensures store.alone && store.healthy ==>
              && (r == Ok(PausedTick) <==> old(store.nodeState) != Unlocked)
              && (r == Ok(Idle) <==> old(store.nodeState) == Unlocked && AtRest(old(store.transfers)))
              && (r == Ok(Idle) ==> unchanged(store))
    ensures store.alone && store.healthy && node.calm && old(store.State()).lock.None?
            && old(store.nodeState) == Unlocked && !AtRest(old(store.transfers)) ==>
              && Listing.ObserveAll(old(store.Mirror()), Listing.Visit(node.buckets, order), now)
                 == Listing.Outcome(store.Mirror(), r.Ok? && r.value.Refreshed?)
              && (r.Ok? && r.value.Refreshed? ==>
                    Listing.VisitsScope(order,
                      Listing.ScopeAssets(old(store.transfers), node.assets, Listing.PendingOnly),
                      Listing.ScopeAssetless(old(store.transfers), Listing.PendingOnly)))
  {
    hide Legal, After, Apply, Enabled, TransferMoves, StandsAt, NoneWaiting, AtRest, FaultOf;
    hide Listing.ObserveAll, Listing.Visit, Listing.VisitsScope, Listing.ScopeAssets, Listing.ScopeAssetless;
    order := [];
    start := |store.trace|;
    var broken := store.Broken();
    if broken {
      return Err(Store(Unavailable)), start, order;
    }
    if store.nodeState != Unlocked {
      return Ok(PausedTick), start, order;
    }
    store.Others(Nobody);
    broken := store.Broken();
    if broken {
      return Err(Store(Unavailable)), start, order;
    }
    RestIsNoneWaiting(store.transfers);
    if NoneWaiting(store.transfers) {
      return Ok(Idle), start, order;
    }
    ghost var tid;
    tid, start := store.Acquire();
    var refreshed;
    refreshed, order := RefreshAndSync(store, node, tid, now);
    if refreshed.Ok? {
      r := Ok(Refreshed(refreshed.value));
    } else {
      var fault := Classify(store, refreshed.error);
      r := match fault
        case Ok(NodeLocked) => Ok(LockedTick)
        case Ok(Unreachable) => Ok(UnreachableTick)
        case Err(e) => Err(e);
    }
    ReleaseTurn(store, tid, start);
  }

  /** `classify`: a locked node is recorded, an error that is no fault is passed on. */
  method Classify(store: Store, e: EngineError) returns (r: Result<Fault, EngineError>)
    modifies store`nodeState
    ensures r.Ok? ==> FaultOf(e) == Some(r.value)
    ensures r == Ok(NodeLocked) ==> store.nodeState == NodeState.Locked
    ensures r != Ok(NodeLocked) ==> store.nodeState == old(store.nodeState)
    ensures FaultOf(e).None? ==> r == Err(e)
    ensures r == Ok(NodeLocked) ==> e == Rln(Rln.Locked) || e == Sync(FromRln(Rln.Locked))
    ensures r == Ok(Unreachable) ==> e == Rln(Rln.Transport) || e == Sync(FromRln(Rln.Transport))
    ensures store.healthy && e.Rln? && e.rln in {Rln.Locked, Rln.Transport} ==> r.Ok?
    ensures store.healthy && e.Sync? && e.sync in {FromRln(Rln.Locked), FromRln(Rln.Transport)} ==> r.Ok?
    ensures store.healthy && FaultOf(e).Some? ==> r.Ok?
  {
    match FaultOf(e)
    case Some(NodeLocked) =>
      var written := store.SetNodeState(NodeState.Locked);
      return if written.Err? then Err(Store(written.error)) else Ok(NodeLocked);
    case Some(Unreachable) =>
      return Ok(Unreachable);
    case None =>
      return Err(e);
  }

  /** `refresh_and_sync`, under the mutex: the node refreshes, then a pending-scope sync. */
  method RefreshAndSync(store: Store, node: Rln.Node, ghost tid: Tid, now: int)
    returns (r: Result<SyncReport, EngineError>, ghost order: seq<Option<string>>)
    requires store.Valid() && tid in store.State().engine && store.State().engine[tid] == []
    modifies store, node`listed, node`assetAnswers
    ensures store.Valid() && old(store.trace) <= store.trace && tid in store.State().engine
    ensures r.Ok? ==> r.value.transitions == TransferMoves(store.maxAttempts, store.trace, |old(store.trace)|)
    ensures store.alone && store.healthy && node.calm ==>
              && Listing.ObserveAll(old(store.Mirror()), Listing.Visit(node.buckets, order), now)
                 == Listing.Outcome(store.Mirror(), r.Ok?)
              && (r.Ok? ==>
                    Listing.VisitsScope(order,
                      Listing.ScopeAssets(old(store.transfers), node.assets, Listing.PendingOnly),
                      Listing.ScopeAssetless(old(store.transfers), Listing.PendingOnly)))
    ensures store.alone && store.healthy ==> store.nodeState == old(store.nodeState)
    ensures node.Refusing() ==> r == Err(Rln(node.refuses.value))
  {
    hide Legal, After, Apply, Enabled, TransferMoves, StandsAt, Covers;
    hide Listing.ObserveAll, Listing.Visit, Listing.VisitsScope, Listing.ScopeAssets, Listing.ScopeAssetless;
    order := [];
    var refreshed := node.Refresh();
    ghost var t := store.trace;
    store.Others(EngineTask(tid));
    ghost var u := store.trace;
    ForeignRun(store.maxAttempts, t, u, tid, |t|);
    NoMovesYet(store.maxAttempts, t);
    if refreshed.Err? {
      return Err(Rln(refreshed.error)), order;
    }
    var synced, visited, _, _, _ := SyncLoop.Sync(store, node, tid, Listing.PendingOnly, now);
    order := visited;
    MovesSplit(store.maxAttempts, u, store.trace, |t|);
    r := if synced.Err? then Err(Sync(synced.error)) else Ok(synced.value);
  }
}
