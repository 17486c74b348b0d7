/** The mirror's store as its callers see it: tables that statements update in place. The ghost
    `trace` is the run that led here; every statement extends it by one action, so what is proved
    of runs holds of every program that works through this class. */
module StoreModel {
  import opened Base
  import opened Status
  import opened Tables
  import opened System
  import opened Invariants
  import opened LockDiscipline

  /** Whoever is executing; everyone else may run whenever it awaits. */
  datatype Who = EngineTask(tid: Tid) | PollTask | HookTask(tid: Tid) | DispatcherTask | Nobody

  predicate Own(a: Action, me: Who) {
    match me
    case EngineTask(tid) => By(a, tid)
    case PollTask => a.PollStart? || a.PollUpsert? || a.PollSwap? || a.PollEnd? || a.PollAbort?
    case HookTask(tid) => (a.HookUpsert? || a.HookSwap? || a.HookEnd?) && a.tid == tid
    case DispatcherTask => DispatcherAction(a)
    case Nobody => false
  }

  /** Actions of others, in one lifetime of the process. */
  predicate Foreign(t: seq<Action>, me: Who) {
    forall i :: 0 <= i < |t| ==> !Own(t[i], me) && !t[i].Crash?
  }

  lemma LockHeld(maxAttempts: nat, t: seq<Action>)
    requires Legal(maxAttempts, t)
    ensures LockInv(After(maxAttempts, t))
  {
    Reachable(maxAttempts, t);
  }

  class Store {
    const maxAttempts: nat
    const healthy: bool   // every statement is answered
    const alone: bool     // no other task runs beside the caller

    var transfers: seq<Transfer>
    var payments: map<string, Payment>
    var outbox: seq<Event>
    var baseline: Option<int>
    var nodeState: NodeState
    var lastFullSyncAt: Option<int>
    ghost var trace: seq<Action>

    function Mirror(): Db
      reads this
    {
      Db(transfers, payments, outbox, baseline)
    }

    ghost predicate Valid()
      reads this
    {
      Legal(maxAttempts, trace) && After(maxAttempts, trace).db == Mirror()
    }

    ghost function State(): Sys
      requires Valid()
      reads this
    {
      After(maxAttempts, trace)
    }

    /** The state moved by exactly this action. */
    twostate predicate Took(a: Action)
      requires old(Valid())
      reads this
    {
      && Valid() && trace == old(trace) + [a]
      && Enabled(old(State()), a) && State() == Apply(old(State()), a)
    }

    constructor (maxAttempts: nat, healthy: bool, alone: bool)
      ensures Valid() && trace == [] && this.maxAttempts == maxAttempts
      ensures this.healthy == healthy && this.alone == alone && nodeState == Unknown
    {
      this.maxAttempts := maxAttempts;
      this.healthy := healthy;
      this.alone := alone;
      transfers, payments, outbox, baseline := [], map[], [], None;
      nodeState, lastFullSyncAt := Unknown, None;
      trace := [];
    }

    /** Everyone else runs, for any number of actions. Callers know only that these are actions the
        others could take, so what they ensure holds whatever this scheduler picks. */
    method Others(ghost me: Who)
      requires Valid()
      modifies this
      ensures Valid() && old(trace) <= trace && Foreign(trace[|old(trace)|..], me)
      ensures alone ==> unchanged(this)
      ensures old(lastFullSyncAt).Some? ==> lastFullSyncAt.Some?
    {
    }

    /** Whether the database fails to answer. */
    method Broken() returns (broken: bool)
      ensures healthy ==> !broken
    {
      broken := false;
      if !healthy {
        broken := *;
      }
    }

    // ----------------------------------------------------------------- the mutex

    /** `lock()`: others run until the guard is free, its holder's drop included. */
    method Acquire() returns (ghost tid: Tid, ghost start: nat)
      requires Valid()
      modifies this
      ensures Valid() && |old(trace)| < start == |trace| && old(trace) <= trace
      ensures trace[start - 1] == Lock(tid)
      ensures Legal(maxAttempts, trace[..start - 1])
      ensures tid in State().engine && State().engine[tid] == []
      ensures State() == After(maxAttempts, trace[..start - 1]).(lock := Some(tid),
                            engine := After(maxAttempts, trace[..start - 1]).engine[tid := []])
      ensures alone && old(State()).lock.None? ==>
                && trace == old(trace) + [Lock(tid)] && Mirror() == old(Mirror())
                && nodeState == old(nodeState) && lastFullSyncAt == old(lastFullSyncAt)
    {
      hide Legal, After, Inv;
      Others(Nobody);
      LockHeld(maxAttempts, trace);
      if State().lock.Some? {
        ghost var holder := State().lock.value;
        Extend(maxAttempts, trace, Unlock(holder));
        trace := trace + [Unlock(holder)];
        LockHeld(maxAttempts, trace);
      }
      tid := 0;
      ghost var before := trace;
      Extend(maxAttempts, trace, Lock(tid));
      trace := trace + [Lock(tid)];
      start := |trace|;
      assert trace[..start - 1] == before;
    }

    /** The drop of the guard. */
    ghost method Release(tid: Tid)
      requires Valid() && tid in State().engine
      modifies this`trace
      ensures Took(Unlock(tid)) && State().lock.None?
    {
      Extend(maxAttempts, trace, Unlock(tid));
      trace := trace + [Unlock(tid)];
    }

    // ----------------------------------------------------------------- transfers

    method UpsertObserved(ghost tid: Tid, o: Observed, now: int) returns (r: Result<Read, StoreError>)
      requires Valid() && Enabled(State(), Observe(tid, o, now))
      modifies this`transfers, this`trace
      ensures healthy ==> r != Err(Unavailable)
      ensures if r == Err(Unavailable) then unchanged(this) else Took(Observe(tid, o, now))
      ensures r != Err(Unavailable) ==>
                match Tables.UpsertObserved(old(transfers), o, now)
                case Ok(u) => transfers == u.rows && r == Ok(Read(u.id, u.rows[u.id], o.status))
                              && State().engine[tid] == [r.value]
                case Err(e) => transfers == old(transfers) && r == Err(e)
    {
      var broken := Broken();
      if broken {
        return Err(Unavailable);
      }
      Extend(maxAttempts, trace, Observe(tid, o, now));
      trace := trace + [Observe(tid, o, now)];
      if !FitsDb(o.expiration) {
        return Err(OutOfRange);
      }
      var id: nat;
      match FindMatch(transfers, o) {
        case Some(found) =>
          transfers := transfers[found := Bind(transfers[found], o, now)];
          id := found;
        case None =>
          if HolderOf(transfers, o.recipientId).Some? {
            return Err(UniqueViolation);
          }
          id := |transfers|;
          transfers := transfers + [BornObserved(o, now)];
      }
      return Ok(Read(id, transfers[id], o.status));
    }

    /** The first statement of `insert_transfer`, which returns the id of the row. */
    method InsertTransfer(n: NewTransfer, now: int) returns (r: Result<nat, StoreError>)
      requires Valid() && FromInterceptor(n)
      modifies this`transfers, this`trace
      ensures healthy ==> r != Err(Unavailable)
      ensures if r == Err(Unavailable) then unchanged(this) else Took(Insert(n, now))
      ensures r != Err(Unavailable) ==>
                match Tables.InsertTransfer(old(transfers), n, now)
                case Ok(u) => transfers == u.rows && r == Ok(u.id)
                case Err(e) => transfers == old(transfers) && r == Err(e)
    {
      var broken := Broken();
      if broken {
        return Err(Unavailable);
      }
      Extend(maxAttempts, trace, Insert(n, now));
      trace := trace + [Insert(n, now)];
      if !FitsDb(n.expiration) {
        return Err(OutOfRange);
      }
      match HolderOf(transfers, n.recipientId) {
        case Some(id) =>
          transfers := transfers[id := Merge(transfers[id], n, now)];
          r := Ok(id);
        case None =>
          transfers := transfers + [BornIntercepted(n, now)];
          r := Ok(|transfers| - 1);
      }
    }

    /** `fetch_transfer`. */
    method FetchTransfer(id: nat) returns (r: Result<Transfer, StoreError>)
      requires id < |transfers|
      ensures healthy ==> r.Ok?
      ensures r.Ok? ==> r.value == transfers[id]
      ensures r.Err? ==> r.error == Unavailable
    {
      var broken := Broken();
      return if broken then Err(Unavailable) else Ok(transfers[id]);
    }

    /** `apply_transition`, called with the row a lock holder has read and the move planned from it. */
    method ApplyTransition(ghost tid: Tid, read: Read, move: Move<TransferStatus, EventType>,
                           payload: Option<Payload>, now: int)
      returns (r: Result<bool, StoreError>)
      requires Valid() && Enabled(State(), Swap(tid, now)) && State().engine[tid][0] == read
      requires PlanTransition(read.row.status, read.observed) == Some(move)
      requires payload == EventPayload(read.id, read.row, move, now)
      modifies this`transfers, this`outbox, this`trace
      ensures r.Err? ==> r.error == Unavailable && !healthy && unchanged(this)
      ensures r.Ok? ==> Took(Swap(tid, now))
                        && r.value == CanSwap(old(Mirror()), read.id, read.row.status, move.to)
                        && State().engine[tid] == old(State()).engine[tid][1..]
    {
      var broken := Broken();
      if broken {
        return Err(Unavailable);
      }
      Extend(maxAttempts, trace, Swap(tid, now));
      trace := trace + [Swap(tid, now)];
      if read.row.status == move.to {
        return Ok(false);
      }
      if !(read.id < |transfers| && transfers[read.id].status == read.row.status) {
        return Ok(false);
      }
      transfers := transfers[read.id := Swapped(transfers[read.id], move.to, now)];
      if payload.Some? {
        outbox := outbox + [Event(payload.value, 0, now, None)];
      }
      return Ok(true);
    }

    /** A lock holder moves on without applying the row it read. */
    ghost method Pass(tid: Tid)
      requires Valid() && Enabled(State(), Skip(tid))
      modifies this`trace
      ensures Took(Skip(tid)) && State().engine[tid] == old(State()).engine[tid][1..]
    {
      Extend(maxAttempts, trace, Skip(tid));
      trace := trace + [Skip(tid)];
    }

    /** `expired_fallible`. */
    method ExpiredFallible(ghost tid: Tid, now: int) returns (r: Result<seq<Read>, StoreError>)
      requires Valid() && Enabled(State(), Scan(tid, now))
      modifies this`trace
      ensures healthy ==> r.Ok?
      ensures if r.Err? then unchanged(this) else Took(Scan(tid, now)) && State().engine[tid] == r.value
      ensures r.Ok? ==> r.value == ReadsOf(transfers, ExpiredBelow(transfers, now, |transfers|))
      ensures r.Ok? ==> forall i :: 0 <= i < |r.value| ==>
                         r.value[i].observed == Failed && r.value[i].id < |transfers|
                         && r.value[i].row == transfers[r.value[i].id] && Overdue(r.value[i].row, now)
      ensures r.Ok? ==> forall id: nat :: id < |transfers| && Overdue(transfers[id], now) ==>
                         exists i :: 0 <= i < |r.value| && r.value[i].id == id
    {
      var broken := Broken();
      if broken {
        return Err(Unavailable);
      }
      Extend(maxAttempts, trace, Scan(tid, now));
      trace := trace + [Scan(tid, now)];
      var ids := ExpiredBelow(transfers, now, |transfers|);
      assert forall i :: 0 <= i < |ids| ==> ids[i] in ids;
      r := Ok(ReadsOf(transfers, ids));
      forall id: nat | id < |transfers| && Overdue(transfers[id], now)
        ensures exists i :: 0 <= i < |r.value| && r.value[i].id == id
      {
        assert id in ids;
        var i :| 0 <= i < |ids| && ids[i] == id;
        assert r.value[i].id == id;
      }
    }

    // ------------------------------------------------------------------ payments

    /** `payments_baseline_at`, at the start of a poll. */
    method StartPoll() returns (r: Result<Option<int>, StoreError>)
      requires Valid() && Enabled(State(), PollStart)
      modifies this`trace
      ensures healthy ==> r.Ok?
      ensures if r.Err? then unchanged(this) else Took(PollStart) && r.value == baseline
    {
      var broken := Broken();
      if broken {
        return Err(Unavailable);
      }
      Extend(maxAttempts, trace, PollStart);
      trace := trace + [PollStart];
      return Ok(baseline);
    }

    /** `upsert_payment_observed`, with the status the baseline rule has chosen. */
    method UpsertPaymentObserved(p: NewPayment, n: NewPayment, now: int) returns (r: Result<PaymentRead, StoreError>)
      requires Valid() && Enabled(State(), PollUpsert(p, now))
      requires n == p.(status := InsertStatus(State().poll.value.baseline, p.status))
      modifies this`payments, this`trace
      ensures healthy ==> r != Err(Unavailable)
      ensures if r == Err(Unavailable) then unchanged(this) else Took(PollUpsert(p, now))
      ensures r.Ok? ==> AmountsFit(n)
                        && payments == old(payments)[n.hash := UpsertedPayment(old(payments), n, Some(now), now)]
                        && r.value == PaymentRead(n.hash, payments[n.hash], p.status)
                        && State().poll.Some? && State().poll.value == old(State()).poll.value.(read := Some(r.value))
      ensures r.Err? && r.error != Unavailable ==> !AmountsFit(n) && payments == old(payments)
    {
      var broken := Broken();
      if broken {
        return Err(Unavailable);
      }
      Extend(maxAttempts, trace, PollUpsert(p, now));
      trace := trace + [PollUpsert(p, now)];
      if !AmountsFit(n) {
        return Err(OutOfRange);
      }
      payments := payments[n.hash := UpsertedPayment(payments, n, Some(now), now)];
      return Ok(PaymentRead(n.hash, payments[n.hash], p.status));
    }

    /** `apply_payment_transition`, called by the poll. */
    method ApplyPolledTransition(read: PaymentRead, move: Move<PaymentStatus, PaymentEventType>,
                                 payload: Option<Payload>, now: int)
      returns (r: Result<bool, StoreError>)
      requires Valid() && Enabled(State(), PollSwap(now)) && State().poll.value.read == Some(read)
      requires PlanPayment(read.row.status, read.observed) == Some(move)
      requires payload == PaymentEventPayload(read.hash, read.row, move, now)
      modifies this`payments, this`outbox, this`trace
      ensures r.Err? ==> r.error == Unavailable && !healthy && unchanged(this)
      ensures r.Ok? ==> Took(PollSwap(now))
                        && r.value == CanSwapPayment(old(Mirror()), read.hash, read.row.status, move.to)
    {
      var broken := Broken();
      if broken {
        return Err(Unavailable);
      }
      Extend(maxAttempts, trace, PollSwap(now));
      trace := trace + [PollSwap(now)];
      r := SwapPayment(read, move, payload, now);
    }

    /** `insert_pending_payment`, by a hook that goes on to apply `observed`. */
    method InsertPendingPayment(ghost tid: Tid, p: NewPayment, observed: PaymentStatus, now: int)
      returns (r: Result<PaymentRead, StoreError>)
      requires Valid() && Enabled(State(), HookUpsert(tid, p, observed, now))
      modifies this`payments, this`trace
      ensures healthy ==> r != Err(Unavailable)
      ensures if r == Err(Unavailable) then unchanged(this) else Took(HookUpsert(tid, p, observed, now))
      ensures r.Ok? ==> AmountsFit(p)
                        && payments == old(payments)[p.hash := UpsertedPayment(old(payments), p, None, now)]
                        && r.value == PaymentRead(p.hash, payments[p.hash], observed)
                        && tid in State().hooks && State().hooks[tid] == r.value
      ensures r.Err? && r.error != Unavailable ==> !AmountsFit(p) && payments == old(payments)
    {
      var broken := Broken();
      if broken {
        return Err(Unavailable);
      }
      Extend(maxAttempts, trace, HookUpsert(tid, p, observed, now));
      trace := trace + [HookUpsert(tid, p, observed, now)];
      if !AmountsFit(p) {
        return Err(OutOfRange);
      }
      payments := payments[p.hash := UpsertedPayment(payments, p, None, now)];
      return Ok(PaymentRead(p.hash, payments[p.hash], observed));
    }

    /** `apply_payment_transition`, called by a hook. */
    method ApplyHookTransition(ghost tid: Tid, read: PaymentRead, move: Move<PaymentStatus, PaymentEventType>,
                               payload: Option<Payload>, now: int)
      returns (r: Result<bool, StoreError>)
      requires Valid() && Enabled(State(), HookSwap(tid, now)) && State().hooks[tid] == read
      requires PlanPayment(read.row.status, read.observed) == Some(move)
      requires payload == PaymentEventPayload(read.hash, read.row, move, now)
      modifies this`payments, this`outbox, this`trace
      ensures r.Err? ==> r.error == Unavailable && !healthy && unchanged(this)
      ensures r.Ok? ==> Took(HookSwap(tid, now))
                        && r.value == CanSwapPayment(old(Mirror()), read.hash, read.row.status, move.to)
    {
      var broken := Broken();
      if broken {
        return Err(Unavailable);
      }
      Extend(maxAttempts, trace, HookSwap(tid, now));
      trace := trace + [HookSwap(tid, now)];
      r := SwapPayment(read, move, payload, now);
    }

    /** A hook ends without applying what it read. */
    ghost method EndHook(tid: Tid)
      requires Valid() && Enabled(State(), HookEnd(tid))
      modifies this`trace
      ensures Took(HookEnd(tid))
    {
      Extend(maxAttempts, trace, HookEnd(tid));
      trace := trace + [HookEnd(tid)];
    }

    /** The transaction both payment writers run. */
    method SwapPayment(read: PaymentRead, move: Move<PaymentStatus, PaymentEventType>,
                       payload: Option<Payload>, now: int)
      returns (r: Result<bool, StoreError>)
      modifies this`payments, this`outbox
      ensures r == Ok(CanSwapPayment(old(Mirror()), read.hash, read.row.status, move.to))
      ensures Mirror() == ApplyPaymentTransition(old(Mirror()), read.hash, read.row.status, move.to, payload, now)
    {
      if read.row.status == move.to {
        return Ok(false);
      }
      if read.hash !in payments || payments[read.hash].status != read.row.status {
        return Ok(false);
      }
      payments := payments[read.hash := payments[read.hash].(status := move.to, updatedAt := now)];
      if payload.Some? {
        outbox := outbox + [Event(payload.value, 0, now, None)];
      }
      return Ok(true);
    }

    /** The poll has nothing to apply to the row it read: a swap that plans nothing. */
    ghost method SkipPolled(now: int)
      requires Valid() && Enabled(State(), PollSwap(now))
      requires var r := State().poll.value.read.value; PlanPayment(r.row.status, r.observed).None?
      modifies this`trace
      ensures Took(PollSwap(now))
    {
      Extend(maxAttempts, trace, PollSwap(now));
      trace := trace + [PollSwap(now)];
    }

    /** The end of the poll: `set_payments_baseline_at` if the poll found none. */
    method EndPoll(found: Option<int>, now: int) returns (r: Result<(), StoreError>)
      requires Valid() && Enabled(State(), PollEnd(now)) && State().poll.value.baseline == found
      modifies this`baseline, this`trace
      ensures healthy ==> r.Ok?
      ensures if r.Err? then unchanged(this) else Took(PollEnd(now))
      ensures r.Ok? ==> baseline == if found.None? then Some(now) else old(baseline)
    {
      if found.None? {
        var broken := Broken();
        if broken {
          return Err(Unavailable);
        }
        baseline := Some(now);
      }
      Extend(maxAttempts, trace, PollEnd(now));
      trace := trace + [PollEnd(now)];
      return Ok(());
    }

    /** The poll ends on an error. */
    ghost method DropPoll()
      requires Valid() && Enabled(State(), PollAbort)
      modifies this`trace
      ensures Took(PollAbort)
    {
      Extend(maxAttempts, trace, PollAbort);
      trace := trace + [PollAbort];
    }

    // -------------------------------------------------------------------- outbox

    /** `undelivered_events`. */
    method Undelivered() returns (r: Result<seq<Fetched>, StoreError>)
      requires Valid() && Enabled(State(), Query)
      modifies this`trace
      ensures healthy ==> r.Ok?
      ensures if r.Err? then unchanged(this)
              else Took(Query) && State().batch == r.value && !State().posted && |r.value| <= BATCH_LIMIT
                   && r.value == FetchedOf(outbox, UndeliveredEvents(outbox, maxAttempts))
                   && State().sent == old(State()).sent
    {
      var broken := Broken();
      if broken {
        return Err(Unavailable);
      }
      Reachable(maxAttempts, trace);
      Extend(maxAttempts, trace, Query);
      trace := trace + [Query];
      return Ok(FetchedOf(outbox, UndeliveredEvents(outbox, maxAttempts)));
    }

    method MarkDelivered(f: Fetched, now: int) returns (r: Result<(), StoreError>)
      requires Valid() && Enabled(State(), Mark(now)) && State().batch[0] == f
      modifies this`outbox, this`trace
      ensures healthy ==> r.Ok?
      ensures if r.Err? then unchanged(this) else Took(Mark(now))
    {
      var broken := Broken();
      if broken {
        return Err(Unavailable);
      }
      Extend(maxAttempts, trace, Mark(now));
      trace := trace + [Mark(now)];
      if f.rowid < |outbox| {
        outbox := outbox[f.rowid := Delivered(outbox[f.rowid], now)];
      }
      return Ok(());
    }

    method RecordAttempt(f: Fetched, next: int) returns (r: Result<(), StoreError>)
      requires Valid() && Enabled(State(), Record(next)) && State().batch[0] == f
      modifies this`outbox, this`trace
      ensures healthy ==> r.Ok?
      ensures if r.Err? then unchanged(this) else Took(Record(next))
    {
      var broken := Broken();
      if broken {
        return Err(Unavailable);
      }
      Extend(maxAttempts, trace, Record(next));
      trace := trace + [Record(next)];
      if f.rowid < |outbox| {
        outbox := outbox[f.rowid := Attempted(outbox[f.rowid], next)];
      }
      return Ok(());
    }

    /** One request is sent, and reaches the receiver or not. */
    ghost method Posts(arrives: bool)
      requires Valid() && Enabled(State(), PostHead(arrives))
      modifies this`trace
      ensures Took(PostHead(arrives))
    {
      Extend(maxAttempts, trace, PostHead(arrives));
      trace := trace + [PostHead(arrives)];
    }

    ghost method DropBatch()
      requires Valid()
      modifies this`trace
      ensures Took(EndBatch)
    {
      Extend(maxAttempts, trace, EndBatch);
      trace := trace + [EndBatch];
    }

    // ---------------------------------------------------------------- node state

    method SetNodeState(state: NodeState) returns (r: Result<(), StoreError>)
      modifies this`nodeState
      ensures healthy ==> r.Ok?
      ensures nodeState == if r.Ok? then state else old(nodeState)
    {
      var broken := Broken();
      if broken {
        return Err(Unavailable);
      }
      nodeState := state;
      return Ok(());
    }

    method SetLastFullSyncAt(now: int) returns (r: Result<(), StoreError>)
      modifies this`lastFullSyncAt
      ensures healthy ==> r.Ok?
      ensures lastFullSyncAt == if r.Ok? then Some(now) else old(lastFullSyncAt)
    {
      var broken := Broken();
      if broken {
        return Err(Unavailable);
      }
      lastFullSyncAt := Some(now);
      return Ok(());
    }
  }
}
