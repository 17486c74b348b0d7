/** What a lock holder's stretch of a run adds up to. */
module EngineRuns {
  import opened Base
  import opened Status
  import opened Tables
  import opened System
  import opened Invariants
  import opened History
  import opened LockDiscipline
  import opened StoreModel

  /** Between two snapshots some transfer's status changed. */
  ghost predicate TransferMoved(a: Db, b: Db) {
    exists id: nat :: Moved(a, b, TransferKey(id))
  }

  /** How many of a run's actions, from the n-th on, changed the status of a transfer. */
  ghost function TransferMoves(maxAttempts: nat, t: seq<Action>, n: nat): nat
    requires Legal(maxAttempts, t)
    decreases |t|
  {
    if |t| <= n then 0 else
    var r := t[..|t| - 1];
    TransferMoves(maxAttempts, r, n)
    + (if TransferMoved(After(maxAttempts, r).db, After(maxAttempts, t).db) then 1 else 0)
  }

  lemma NoMovesYet(maxAttempts: nat, t: seq<Action>)
    requires Legal(maxAttempts, t)
    ensures TransferMoves(maxAttempts, t, |t|) == 0
  {
  }

  /** The moves of a stretch are those of its two parts. */
  lemma {:induction false} MovesSplit(maxAttempts: nat, t: seq<Action>, u: seq<Action>, n: nat)
    requires Legal(maxAttempts, t) && Legal(maxAttempts, u) && t <= u && n <= |t|
    ensures TransferMoves(maxAttempts, u, n) == TransferMoves(maxAttempts, t, n) + TransferMoves(maxAttempts, u, |t|)
    decreases |u|
  {
    hide Apply, Enabled, TransferMoved;
    if t != u {
      assert t <= u[..|u| - 1];
      MovesSplit(maxAttempts, t, u[..|u| - 1], n);
    }
  }

  lemma MovesMore(maxAttempts: nat, t: seq<Action>, a: Action, n: nat)
    requires Legal(maxAttempts, t) && Enabled(After(maxAttempts, t), a) && n <= |t|
    ensures Legal(maxAttempts, t + [a]) && After(maxAttempts, t + [a]) == Apply(After(maxAttempts, t), a)
    ensures TransferMoves(maxAttempts, t + [a], n)
            == TransferMoves(maxAttempts, t, n)
               + (if TransferMoved(After(maxAttempts, t).db, Apply(After(maxAttempts, t), a).db) then 1 else 0)
  {
    assert (t + [a])[..|t|] == t;
  }

  /** An action of the lock holder that is not a swap moves nothing and emits nothing. */
  lemma QuietMoves(s: Sys, a: Action)
    requires Inv(s) && Enabled(s, a) && (a.Observe? || a.Scan? || a.Skip? || a.Lock? || a.Unlock?)
    ensures !TransferMoved(s.db, Apply(s, a).db) && Apply(s, a).db.outbox == s.db.outbox
  {
    OnlySwapsMove(s, a);
  }

  /** A planned swap of the lock holder moves its row, and tells it. */
  lemma SwapMoves(s: Sys, tid: Tid, now: int)
    requires Inv(s) && Enabled(s, Swap(tid, now))
    ensures var r := s.engine[tid][0];
            var b := Apply(s, Swap(tid, now)).db;
            var plan := PlanTransition(r.row.status, r.observed);
            && (plan.Some? ==> plan.value.to == r.observed && CanSwap(s.db, r.id, r.row.status, r.observed))
            && (TransferMoved(s.db, b) <==> plan.Some?)
  {
    var r := s.engine[tid][0];
    assert ReadsCurrent(s.db.transfers, s.engine[tid]);
    TransferSwapEdge(s.db, r.id, r.row, r.observed, now);
    if PlanTransition(r.row.status, r.observed).Some? {
      assert Moved(s.db, Apply(s, Swap(tid, now)).db, TransferKey(r.id));
    }
  }

  /** While others run, the holder keeps the mutex and its reads, and no transfer moves. */
  lemma {:induction false} ForeignRun(maxAttempts: nat, t: seq<Action>, u: seq<Action>, tid: Tid, n: nat)
    requires Legal(maxAttempts, t) && Legal(maxAttempts, u) && t <= u && n <= |t|
    requires Foreign(u[|t|..], EngineTask(tid)) && tid in After(maxAttempts, t).engine
    ensures After(maxAttempts, u).engine == After(maxAttempts, t).engine
    ensures Undisturbed(After(maxAttempts, t).db, After(maxAttempts, u).db)
    ensures TransferMoves(maxAttempts, u, n) == TransferMoves(maxAttempts, t, n)
    decreases |u|
  {
    hide Apply, Enabled, Undisturbed;
    if t != u {
      var r, a := u[..|u| - 1], u[|u| - 1];
      assert u[|t|..][..|r| - |t|] == r[|t|..] && u[|t|..][|r| - |t|] == a;
      ForeignPrefix(u[|t|..], |r| - |t|, EngineTask(tid));
      ForeignRun(maxAttempts, t, r, tid, n);
      assert r + [a] == u;
      ForeignOneMore(maxAttempts, r, a, tid, n);
      UndisturbedStays(After(maxAttempts, t).db, After(maxAttempts, r).db, After(maxAttempts, u).db);
    } else {
      UndisturbedByNothing(After(maxAttempts, t).db);
    }
  }

  /** One action of others more. */
  lemma ForeignOneMore(maxAttempts: nat, r: seq<Action>, a: Action, tid: Tid, n: nat)
    requires Legal(maxAttempts, r) && Enabled(After(maxAttempts, r), a) && n <= |r|
    requires tid in After(maxAttempts, r).engine && !By(a, tid) && !a.Crash?
    ensures Legal(maxAttempts, r + [a])
    ensures After(maxAttempts, r + [a]).engine == After(maxAttempts, r).engine
    ensures Undisturbed(After(maxAttempts, r).db, After(maxAttempts, r + [a]).db)
    ensures TransferMoves(maxAttempts, r + [a], n) == TransferMoves(maxAttempts, r, n)
  {
    hide Apply, Enabled, Undisturbed, TransferMoves, Inv;
    Reachable(maxAttempts, r);
    ForeignStep(After(maxAttempts, r), a, tid);
    MovesMore(maxAttempts, r, a, n);
    UndisturbedByNothing(After(maxAttempts, r).db);
    UndisturbedStays(After(maxAttempts, r).db, After(maxAttempts, r).db, After(maxAttempts, r + [a]).db);
  }

  lemma ForeignPrefix(t: seq<Action>, n: nat, me: Who)
    requires Foreign(t, me) && n <= |t|
    ensures Foreign(t[..n], me)
  {
  }

  lemma UndisturbedStays(a: Db, b: Db, c: Db)
    requires Undisturbed(a, b) && Undisturbed(b, c)
    ensures Undisturbed(a, c) && !TransferMoved(b, c)
  {
  }
}
