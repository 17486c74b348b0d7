/** The companion as a state machine: every database transaction, every POST and every change of a
    task's local state is one action, and a run is any legal sequence of actions. */
module System {
  import opened Base
  import opened Status
  import opened Tables

  type Tid = nat

  /** A transfer row as a lock holder read it, and the status it is about to apply. */
  datatype Read = Read(id: nat, row: Transfer, observed: TransferStatus)

  /** A payment row as its writer read it back from the upsert. */
  datatype PaymentRead = PaymentRead(hash: string, row: Payment, observed: PaymentStatus)

  /** The payments poll between two awaits: the baseline it read at its start. */
  datatype Poll = Poll(baseline: Option<int>, read: Option<PaymentRead>)

  /** An outbox row as the dispatcher fetched it. */
  datatype Fetched = Fetched(rowid: nat, event: Event)

  /** One HTTP request about an event: it reaches the receiver when it is sent, or never. */
  datatype Post = Post(rowid: nat, payload: Payload, arrived: bool)

  datatype Sys = Sys(
    maxAttempts: nat,
    db: Db,                          // survives a crash; all below but the log of requests does not
    lock: Option<Tid>,               // the engine's single-flight mutex
    engine: map<Tid, seq<Read>>,     // tasks between lock() and the drop of the guard
    poll: Option<Poll>,              // the payments loop, which runs without the lock
    hooks: map<Tid, PaymentRead>,    // /keysend and /sendpayment between upsert and swap
    batch: seq<Fetched>,             // what is left of the dispatcher's batch
    posted: bool,                    // its head has been POSTed, outcome not yet recorded
    sent: seq<Post>)                 // every request made so far, oldest first

  datatype Action =
    // engine tasks
    | Lock(tid: Tid)
    | Observe(tid: Tid, o: Observed, now: int)
    | Scan(tid: Tid, now: int)
    | Swap(tid: Tid, now: int)
    | Skip(tid: Tid)
    | Unlock(tid: Tid)
    // interceptors, which take no lock
    | Insert(n: NewTransfer, now: int)
    | HookUpsert(tid: Tid, p: NewPayment, observed: PaymentStatus, now: int)
    | HookSwap(tid: Tid, now: int)
    | HookEnd(tid: Tid)
    // the payments loop
    | PollStart
    | PollUpsert(p: NewPayment, now: int)
    | PollSwap(now: int)
    | PollEnd(now: int)
    | PollAbort
    // the dispatcher
    | Query
    | PostHead(arrives: bool)
    | Mark(now: int)
    | Record(next: int)
    | EndBatch
    // the process
    | Crash

  function Init(maxAttempts: nat): Sys {
    Sys(maxAttempts, Db([], map[], [], None), None, map[], None, map[], [], false, [])
  }

  /** The two callers of insert_transfer: an invoice names a recipient, a send names a txid. */
  predicate FromInterceptor(n: NewTransfer) {
    n.recipientId.None? || n.txid.None?
  }

  /** Only a request that reached the receiver can have been answered well. */
  predicate LastArrived(sent: seq<Post>) {
    sent != [] && sent[|sent| - 1].arrived
  }

  /** An observed row is bound, and the reaper passes over a scanned one that has no batch index. */
  predicate Swappable(r: Transfer) {
    r.rlnIdx.Some? || r.batchTransferIdx.Some?
  }

  predicate Enabled(s: Sys, a: Action) {
    match a
    case Lock(tid) => s.lock.None? && tid !in s.engine
    case Observe(tid, _, _) => tid in s.engine && s.engine[tid] == []
    case Scan(tid, _) => tid in s.engine && s.engine[tid] == []
    case Swap(tid, _) => tid in s.engine && s.engine[tid] != [] && Swappable(s.engine[tid][0].row)
    case Skip(tid) => tid in s.engine && s.engine[tid] != []
    case Unlock(tid) => tid in s.engine
    case Insert(n, _) => FromInterceptor(n)
    case HookUpsert(tid, p, _, _) => tid !in s.hooks && p.status == Pending
    case HookSwap(tid, _) => tid in s.hooks
    case HookEnd(tid) => tid in s.hooks
    case PollStart => s.poll.None?
    case PollUpsert(_, _) => s.poll.Some? && s.poll.value.read.None?
    case PollSwap(_) => s.poll.Some? && s.poll.value.read.Some?
    case PollEnd(_) => s.poll.Some? && s.poll.value.read.None?
    case PollAbort => s.poll.Some?
    case Query => s.batch == [] && !s.posted
    case PostHead(_) => s.batch != [] && !s.posted
    case Mark(_) => s.batch != [] && s.posted && LastArrived(s.sent)
    case Record(_) => s.batch != [] && s.posted
    case EndBatch => true
    case Crash => true
  }

  function ReadsOf(rows: seq<Transfer>, ids: seq<nat>): (r: seq<Read>)
    requires forall k :: k in ids ==> k < |rows|
  {
    seq(|ids|, i requires 0 <= i < |ids| => assert ids[i] in ids; Read(ids[i], rows[ids[i]], Failed))
  }

  /** After the baseline a payment first seen terminal is inserted as pending. */
  function InsertStatus(baseline: Option<int>, status: PaymentStatus): PaymentStatus {
    if baseline.Some? && status.Terminal() then Pending else status
  }

  function FetchedOf(outbox: seq<Event>, ids: seq<nat>): seq<Fetched>
    requires forall i :: 0 <= i < |ids| ==> ids[i] < |outbox|
  {
    seq(|ids|, i requires 0 <= i < |ids| => Fetched(ids[i], outbox[ids[i]]))
  }


  // One function per action that does more than set a field.

  function ObservedBy(s: Sys, tid: Tid, o: Observed, now: int): Sys {
    var u := UpsertObserved(s.db.transfers, o, now);
    if u.Err? then s else
    s.(db := s.db.(transfers := u.value.rows),
       engine := s.engine[tid := [Read(u.value.id, u.value.rows[u.value.id], o.status)]])
  }

  function Scanned(s: Sys, tid: Tid, now: int): Sys {
    s.(engine := s.engine[tid := ReadsOf(s.db.transfers, ExpiredBelow(s.db.transfers, now, |s.db.transfers|))])
  }

  function SwappedHead(s: Sys, tid: Tid, now: int): Sys
    requires tid in s.engine && s.engine[tid] != []
  {
    var r := s.engine[tid][0];
    s.(db := ApplyObserved(s.db, r.id, r.row, r.observed, now), engine := s.engine[tid := s.engine[tid][1..]])
  }

  function Inserted(s: Sys, n: NewTransfer, now: int): Sys {
    var u := InsertTransfer(s.db.transfers, n, now);
    if u.Err? then s else s.(db := s.db.(transfers := u.value.rows))
  }

  function HookUpserted(s: Sys, tid: Tid, p: NewPayment, observed: PaymentStatus, now: int): Sys {
    var u := UpsertPayment(s.db.payments, p, None, now);
    if u.Err? then s else
    s.(db := s.db.(payments := u.value),
       hooks := s.hooks[tid := PaymentRead(p.hash, UpsertedPayment(s.db.payments, p, None, now), observed)])
  }

  function HookSwapped(s: Sys, tid: Tid, now: int): Sys
    requires tid in s.hooks
  {
    var r := s.hooks[tid];
    s.(db := ApplyPaymentObserved(s.db, r.hash, r.row, r.observed, now), hooks := s.hooks - {tid})
  }

  function PollUpserted(s: Sys, p: NewPayment, now: int): Sys
    requires s.poll.Some?
  {
    var n := p.(status := InsertStatus(s.poll.value.baseline, p.status));
    var u := UpsertPayment(s.db.payments, n, Some(now), now);
    if u.Err? then s.(poll := None) else
    s.(db := s.db.(payments := u.value),
       poll := Some(s.poll.value.(read :=
         Some(PaymentRead(n.hash, UpsertedPayment(s.db.payments, n, Some(now), now), p.status)))))
  }

  function PollSwapped(s: Sys, now: int): Sys
    requires s.poll.Some? && s.poll.value.read.Some?
  {
    var r := s.poll.value.read.value;
    s.(db := ApplyPaymentObserved(s.db, r.hash, r.row, r.observed, now), poll := Some(s.poll.value.(read := None)))
  }

  function PollEnded(s: Sys, now: int): Sys
    requires s.poll.Some?
  {
    s.(db := if s.poll.value.baseline.None? then s.db.(baseline := Some(now)) else s.db, poll := None)
  }

  function Marked(s: Sys, now: int): Sys
    requires s.batch != []
  {
    var f := s.batch[0];
    s.(db := s.db.(outbox := if f.rowid < |s.db.outbox|
                             then s.db.outbox[f.rowid := Delivered(s.db.outbox[f.rowid], now)] else s.db.outbox),
       batch := s.batch[1..], posted := false)
  }

  /** The failed event ends the batch. */
  function Recorded(s: Sys, next: int): Sys
    requires s.batch != []
  {
    var f := s.batch[0];
    s.(db := s.db.(outbox := if f.rowid < |s.db.outbox|
                             then s.db.outbox[f.rowid := Attempted(s.db.outbox[f.rowid], next)] else s.db.outbox),
       batch := [], posted := false)
  }

  function Apply(s: Sys, a: Action): Sys
    requires Enabled(s, a)
  {
    match a
    case Lock(tid) => s.(lock := Some(tid), engine := s.engine[tid := []])
    case Observe(tid, o, now) => ObservedBy(s, tid, o, now)
    case Scan(tid, now) => Scanned(s, tid, now)
    case Swap(tid, now) => SwappedHead(s, tid, now)
    case Skip(tid) => s.(engine := s.engine[tid := s.engine[tid][1..]])
    case Unlock(tid) => s.(lock := None, engine := s.engine - {tid})
    case Insert(n, now) => Inserted(s, n, now)
    case HookUpsert(tid, p, observed, now) => HookUpserted(s, tid, p, observed, now)
    case HookSwap(tid, now) => HookSwapped(s, tid, now)
    case HookEnd(tid) => s.(hooks := s.hooks - {tid})
    case PollStart => s.(poll := Some(Poll(s.db.baseline, None)))
    case PollUpsert(p, now) => PollUpserted(s, p, now)
    case PollSwap(now) => PollSwapped(s, now)
    case PollEnd(now) => PollEnded(s, now)
    case PollAbort => s.(poll := None)
    case Query => s.(batch := FetchedOf(s.db.outbox, UndeliveredEvents(s.db.outbox, s.maxAttempts)))
    case PostHead(arrives) =>
      s.(posted := true, sent := s.sent + [Post(s.batch[0].rowid, s.batch[0].event.payload, arrives)])
    case Mark(now) => Marked(s, now)
    case Record(next) => Recorded(s, next)
    case EndBatch => s.(batch := [], posted := false)
    case Crash => s.(lock := None, engine := map[], poll := None, hooks := map[], batch := [], posted := false)
  }

  /** A legal run: every action was enabled when it was taken. */
  predicate Legal(maxAttempts: nat, t: seq<Action>)
    decreases |t|, 0
  {
    t == [] ||
    (Legal(maxAttempts, t[..|t| - 1]) && Enabled(After(maxAttempts, t[..|t| - 1]), t[|t| - 1]))
  }

  /** The state a legal run leads to. */
  function After(maxAttempts: nat, t: seq<Action>): Sys
    requires Legal(maxAttempts, t)
    decreases |t|, 1
  {
    if t == [] then Init(maxAttempts) else Apply(After(maxAttempts, t[..|t| - 1]), t[|t| - 1])
  }

  lemma {:induction false} PrefixLegal(maxAttempts: nat, t: seq<Action>, n: nat)
    requires Legal(maxAttempts, t) && n <= |t|
    ensures Legal(maxAttempts, t[..n])
  {
    if n == |t| {
      assert t[..n] == t;
    } else {
      PrefixLegal(maxAttempts, t[..|t| - 1], n);
      assert t[..|t| - 1][..n] == t[..n];
    }
  }

  lemma Extend(maxAttempts: nat, t: seq<Action>, a: Action)
    requires Legal(maxAttempts, t) && Enabled(After(maxAttempts, t), a)
    ensures Legal(maxAttempts, t + [a])
    ensures After(maxAttempts, t + [a]) == Apply(After(maxAttempts, t), a)
  {
    assert (t + [a])[..|t|] == t;
  }
}
