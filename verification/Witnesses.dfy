/** Legal runs, from the empty store, in which the exceptions to the laws happen. */
module Witnesses {
  import opened Base
  import opened Status
  import opened Tables
  import opened System
  import opened PaymentLaws
  import opened Payloads
  import InvoiceRace
  import Receiver

  // --------------------------------------------------------- a run in which the invoice splits

  function Send(assetId: string, txid: string): NewTransfer {
    NewTransfer(Some(assetId), Some("Send"), WaitingCounterparty, None, Some(txid), None, None, None)
  }

  function Received(assetId: string, txid: string, recipientId: string): Observed {
    Observed(0, Some(assetId), "ReceiveBlind", WaitingConfirmations, Some(recipientId), Some(txid), None)
  }

  /** A send of ours is recorded, the node lists it to an invoice of ours before the invoice's hook has
      run, and then the hook runs. */
  function SplitRun(assetId: string, txid: string, recipientId: string, invoice: string): seq<Action> {
    [Insert(Send(assetId, txid), 1), Lock(0), Observe(0, Received(assetId, txid, recipientId), 2),
     Insert(InvoiceRace.Invoice(Some(assetId), false, recipientId, invoice, None, 0), 3)]
  }

  /** It splits: the send is bound to the transfer and keeps no recipient, the invoice is on a row of
      its own that is bound to nothing. */
  lemma SplitIsReal(maxAttempts: nat, assetId: string, txid: string, recipientId: string, invoice: string)
    ensures var db := Db([BornIntercepted(Send(assetId, txid), 1)], map[], [], None);
            var n := InvoiceRace.Invoice(Some(assetId), false, recipientId, invoice, None, 0);
            var o := Received(assetId, txid, recipientId);
            InvoiceRace.Race(db.transfers, n, o) && FindMatch(db.transfers, o) == Some(0)
    ensures Legal(maxAttempts, SplitRun(assetId, txid, recipientId, invoice))
    ensures var rows := After(maxAttempts, SplitRun(assetId, txid, recipientId, invoice)).db.transfers;
            && |rows| == 2 && rows[0].rlnIdx == Some(0) && rows[0].recipientId.None?
            && rows[1].rlnIdx.None? && rows[1].recipientId == Some(recipientId) && rows[1].invoice == Some(invoice)
  {
    hide Apply, Enabled, FindMatch, HolderOf;
    var run := SplitRun(assetId, txid, recipientId, invoice);
    var row, o := BornIntercepted(Send(assetId, txid), 1), Received(assetId, txid, recipientId);
    var bound := Bind(row, o, 2);
    assert Legal(maxAttempts, []) && After(maxAttempts, []) == Init(maxAttempts);
    assert [] + [run[0]] == run[..1] && run[..1] + [run[1]] == run[..2] && run[..2] + [run[2]] == run[..3];
    assert run[..3] + [run[3]] == run;
    SendRecorded(maxAttempts, assetId, txid);
    Extend(maxAttempts, [], run[0]);
    Extend(maxAttempts, run[..1], run[1]);
    SendBound(maxAttempts, assetId, txid, recipientId);
    Extend(maxAttempts, run[..2], run[2]);
    InvoiceApart(maxAttempts, assetId, txid, recipientId, invoice);
    Extend(maxAttempts, run[..3], run[3]);
  }

  lemma SendRecorded(maxAttempts: nat, assetId: string, txid: string)
    ensures var s, a := Init(maxAttempts), Insert(Send(assetId, txid), 1);
            var row := BornIntercepted(Send(assetId, txid), 1);
            && Enabled(s, a) && Enabled(Apply(s, a), Lock(0))
            && Apply(Apply(s, a), Lock(0)) == Synced(maxAttempts, [row], [])
  {
    assert HolderOf([], None).None?;
  }

  lemma SendBound(maxAttempts: nat, assetId: string, txid: string, recipientId: string)
    ensures var row, o := BornIntercepted(Send(assetId, txid), 1), Received(assetId, txid, recipientId);
            var s, a, bound := Synced(maxAttempts, [row], []), Observe(0, o, 2), Bind(row, o, 2);
            && FindMatch([row], o) == Some(0) && HolderOf([row], Some(recipientId)).None?
            && Enabled(s, a) && Apply(s, a) == Synced(maxAttempts, [bound], [Read(0, bound, WaitingConfirmations)])
  {
    var row, o := BornIntercepted(Send(assetId, txid), 1), Received(assetId, txid, recipientId);
    assert Matches([row][0], o);
    assert FindMatch([row], o) == Some(0);
    NoHolder(row, recipientId);
  }

  lemma NoHolder(row: Transfer, recipientId: string)
    requires row.recipientId.None?
    ensures HolderOf([row], Some(recipientId)).None?
  {
  }

  lemma InvoiceApart(maxAttempts: nat, assetId: string, txid: string, recipientId: string, invoice: string)
    ensures var row, o := BornIntercepted(Send(assetId, txid), 1), Received(assetId, txid, recipientId);
            var bound, n := Bind(row, o, 2), InvoiceRace.Invoice(Some(assetId), false, recipientId, invoice, None, 0);
            var s, a := Synced(maxAttempts, [bound], [Read(0, bound, WaitingConfirmations)]), Insert(n, 3);
            && Enabled(s, a) && Apply(s, a).db.transfers == [bound, BornIntercepted(n, 3)]
  {
    NoHolder(Bind(BornIntercepted(Send(assetId, txid), 1), Received(assetId, txid, recipientId), 2), recipientId);
  }

  // ------------------------------------------------- first polls that are not silent

  function Paid(hash: string, status: PaymentStatus): NewPayment {
    NewPayment(hash, Outbound, status, None, None, None, None)
  }

  /** A hook has recorded a payment, and the first poll finds that it has succeeded. */
  function HookThenPoll(hash: string): seq<Action> {
    [HookUpsert(0, Paid(hash, Pending), Pending, 1), HookEnd(0), PollStart, PollUpsert(Paid(hash, Succeeded), 2),
     PollSwap(2)]
  }

  /** The first poll lists a payment to oneself in both directions, one behind the other. */
  function ListedTwice(hash: string): seq<Action> {
    [PollStart, PollUpsert(Paid(hash, Pending), 1), PollSwap(1), PollUpsert(Paid(hash, Succeeded), 1), PollSwap(1)]
  }

  /** The first poll between two entries, when it is about to find a pending hash succeeded. */
  predicate AboutToTell(s: Sys, hash: string) {
    s.poll == Some(Poll(None, None)) && Seen(s.db, hash) == Some(Pending) && s.db.outbox == [] && s.db.baseline.None?
  }

  lemma Tells(s: Sys, hash: string, now: int)
    requires AboutToTell(s, hash)
    ensures var a := PollUpsert(Paid(hash, Succeeded), now);
            Enabled(s, a) && Enabled(Apply(s, a), PollSwap(now))
            && var b := Apply(Apply(s, a), PollSwap(now)).db;
               EventsAbout(b.outbox, hash) == 1 && LastTold(b.outbox, hash) == Some(Succeeded) && b.baseline.None?
  {
    hide EventsAbout, LastTold, ApplyPaymentObserved;
    var t := PollUpserted(s, Paid(hash, Succeeded), now);
    assert Apply(s, PollUpsert(Paid(hash, Succeeded), now)) == t;
    TakenUp(s, hash, now);
    SwapKeepsBaseline(t.db, t.poll.value.read.value, now);
    PendingSwapTells(t.db, hash, t.poll.value.read.value.row, Succeeded, now);
  }

  lemma TakenUp(s: Sys, hash: string, now: int)
    requires AboutToTell(s, hash)
    ensures var t := PollUpserted(s, Paid(hash, Succeeded), now);
            && t.poll.Some? && t.poll.value.read.Some? && t.db.baseline.None?
            && var r := t.poll.value.read.value;
               && r.hash == hash && r.row.status == Pending && r.observed == Succeeded
               && Seen(t.db, hash) == Some(Pending) && EventsAbout(t.db.outbox, hash) == 0
  {
  }

  lemma SwapKeepsBaseline(db: Db, r: PaymentRead, now: int)
    ensures ApplyPaymentObserved(db, r.hash, r.row, r.observed, now).baseline == db.baseline
  {
  }

  lemma HookFirst(maxAttempts: nat, hash: string)
    ensures Legal(maxAttempts, HookThenPoll(hash)[..3])
    ensures AboutToTell(After(maxAttempts, HookThenPoll(hash)[..3]), hash)
  {
    var run := HookThenPoll(hash);
    assert Legal(maxAttempts, []) && After(maxAttempts, []) == Init(maxAttempts);
    assert [] + [run[0]] == run[..1] && run[..1] + [run[1]] == run[..2] && run[..2] + [run[2]] == run[..3];
    Extend(maxAttempts, [], run[0]);
    Extend(maxAttempts, run[..1], run[1]);
    Extend(maxAttempts, run[..2], run[2]);
  }

  lemma PendingFirst(maxAttempts: nat, hash: string)
    ensures Legal(maxAttempts, ListedTwice(hash)[..3])
    ensures AboutToTell(After(maxAttempts, ListedTwice(hash)[..3]), hash)
  {
    var run := ListedTwice(hash);
    assert Legal(maxAttempts, []) && After(maxAttempts, []) == Init(maxAttempts);
    assert [] + [run[0]] == run[..1] && run[..1] + [run[1]] == run[..2] && run[..2] + [run[2]] == run[..3];
    Extend(maxAttempts, [], run[0]);
    Extend(maxAttempts, run[..1], run[1]);
    Extend(maxAttempts, run[..2], run[2]);
  }

  /** Both are legal runs in which the first poll emits an event, the baseline still unset. */
  lemma FirstPollTells(maxAttempts: nat, hash: string, run: seq<Action>)
    requires run in {HookThenPoll(hash), ListedTwice(hash)}
    ensures Legal(maxAttempts, run)
    ensures var db := After(maxAttempts, run).db;
            EventsAbout(db.outbox, hash) == 1 && LastTold(db.outbox, hash) == Some(Succeeded) && db.baseline.None?
  {
    hide Apply, Enabled, AboutToTell, EventsAbout, LastTold;
    if run == HookThenPoll(hash) {
      HookFirst(maxAttempts, hash);
    } else {
      PendingFirst(maxAttempts, hash);
    }
    Tells(After(maxAttempts, run[..3]), hash, if run == HookThenPoll(hash) then 2 else 1);
    assert run[..3] + [run[3]] == run[..4] && run[..4] + [run[4]] == run;
    Extend(maxAttempts, run[..3], run[3]);
    Extend(maxAttempts, run[..4], run[4]);
  }

  // --------------------------------------------------- a receiver that is down too long

  /** Two payments end, and so two events are queued. */
  function TwoEnd(a: string, b: string): seq<Action> {
    [HookUpsert(0, Paid(a, Pending), Succeeded, 0), HookSwap(0, 0),
     HookUpsert(0, Paid(b, Pending), PaymentFailed, 0), HookSwap(0, 0)]
  }

  /** One turn of the dispatcher whose request is lost. */
  function LostTurn(): seq<Action> {
    [Query, PostHead(false), Record(0)]
  }

  function LostTurns(n: nat): seq<Action> {
    if n == 0 then [] else LostTurns(n - 1) + LostTurn()
  }

  /** Every attempt at the first event is lost, and then the receiver is back. */
  function DownTooLong(maxAttempts: nat, a: string, b: string): seq<Action> {
    TwoEnd(a, b) + LostTurns(maxAttempts) + [Query, PostHead(true)]
  }

  function EndedPayment(status: PaymentStatus): Payment {
    Payment(Outbound, status, None, None, None, None, 0, 0, None)
  }

  function First(a: string): Payload {
    PaymentPayload(PaymentSettledEvent, a, EndedPayment(Succeeded), Pending, Succeeded, 0)
  }

  function Second(b: string): Payload {
    PaymentPayload(PaymentFailedEvent, b, EndedPayment(PaymentFailed), Pending, PaymentFailed, 0)
  }

  function Lost(a: string, n: nat): seq<Post> {
    seq(n, i => Post(0, First(a), false))
  }

  /** After `n` attempts at the first event have been lost. */
  function Down(maxAttempts: nat, a: string, b: string, n: nat): Sys {
    Init(maxAttempts).(
      db := Db([], map[a := EndedPayment(Succeeded), b := EndedPayment(PaymentFailed)],
               [Event(First(a), n, 0, None), Event(Second(b), 0, 0, None)], None),
      sent := Lost(a, n))
  }

  lemma OneEnds(s: Sys, hash: string, observed: PaymentStatus, event: PaymentEventType)
    requires 0 !in s.hooks && hash !in s.db.payments
    requires PlanPayment(Pending, observed) == Some(Move(observed, Some(event)))
    ensures var u, w := HookUpsert(0, Paid(hash, Pending), observed, 0), HookSwap(0, 0);
            && Enabled(s, u) && Enabled(Apply(s, u), w)
            && Apply(Apply(s, u), w)
               == s.(db := s.db.(payments := s.db.payments[hash := EndedPayment(observed)],
                                 outbox := s.db.outbox + [Event(PaymentPayload(event, hash, EndedPayment(observed),
                                                                               Pending, observed, 0), 0, 0, None)]))
  {
    var t := Apply(s, HookUpsert(0, Paid(hash, Pending), observed, 0));
    assert t.db.payments == s.db.payments[hash := EndedPayment(Pending)];
    assert t.hooks[0] == PaymentRead(hash, EndedPayment(Pending), observed);
    assert t.hooks - {0} == s.hooks;
  }

  lemma BothEnd(maxAttempts: nat, a: string, b: string)
    requires a != b
    ensures Legal(maxAttempts, TwoEnd(a, b))
    ensures After(maxAttempts, TwoEnd(a, b)) == Down(maxAttempts, a, b, 0)
  {
    hide Apply, Enabled;
    var run := TwoEnd(a, b);
    assert Legal(maxAttempts, []) && After(maxAttempts, []) == Init(maxAttempts);
    assert [] + [run[0]] == run[..1] && run[..1] + [run[1]] == run[..2] && run[..2] + [run[2]] == run[..3];
    assert run[..3] + [run[3]] == run;
    OneEnds(Init(maxAttempts), a, Succeeded, PaymentSettledEvent);
    Extend(maxAttempts, [], run[0]);
    Extend(maxAttempts, run[..1], run[1]);
    OneEnds(After(maxAttempts, run[..2]), b, PaymentFailed, PaymentFailedEvent);
    Extend(maxAttempts, run[..2], run[2]);
    Extend(maxAttempts, run[..3], run[3]);
  }

  /** What is fetched while the first event has attempts left, and afterwards. */
  lemma WhatIsFetched(maxAttempts: nat, a: string, b: string, n: nat)
    requires n <= maxAttempts && maxAttempts >= 1
    ensures UndeliveredEvents(Down(maxAttempts, a, b, n).db.outbox, maxAttempts)
            == if n < maxAttempts then [0, 1] else [1]
  {
    var outbox := Down(maxAttempts, a, b, n).db.outbox;
    LastLive(outbox, maxAttempts, 99);
    LastLive(outbox, maxAttempts, 100);
    if n < maxAttempts {
      assert LiveFrom(outbox, maxAttempts, 0, 100) == [0] + [1];
    } else {
      assert LiveFrom(outbox, maxAttempts, 0, 100) == LiveFrom(outbox, maxAttempts, 1, 100);
    }
  }

  lemma LastLive(outbox: seq<Event>, maxAttempts: nat, limit: nat)
    requires |outbox| == 2 && Live(outbox[1], maxAttempts) && limit > 0
    ensures LiveFrom(outbox, maxAttempts, 1, limit) == [1]
  {
    assert LiveFrom(outbox, maxAttempts, 2, limit - 1) == [];
  }

  lemma LoseOne(maxAttempts: nat, a: string, b: string, n: nat)
    requires n < maxAttempts
    ensures var s := Down(maxAttempts, a, b, n);
            && Enabled(s, Query) && Enabled(Apply(s, Query), PostHead(false))
            && Enabled(Apply(Apply(s, Query), PostHead(false)), Record(0))
            && Apply(Apply(Apply(s, Query), PostHead(false)), Record(0)) == Down(maxAttempts, a, b, n + 1)
  {
    var s := Down(maxAttempts, a, b, n);
    WhatIsFetched(maxAttempts, a, b, n);
    var q := Apply(s, Query);
    assert q.batch == [Fetched(0, s.db.outbox[0]), Fetched(1, s.db.outbox[1])];
    assert Lost(a, n) + [Post(0, First(a), false)] == Lost(a, n + 1);
  }

  lemma {:induction false} LoseMore(maxAttempts: nat, a: string, b: string, n: nat)
    requires a != b && n <= maxAttempts
    ensures Legal(maxAttempts, TwoEnd(a, b) + LostTurns(n))
    ensures After(maxAttempts, TwoEnd(a, b) + LostTurns(n)) == Down(maxAttempts, a, b, n)
  {
    hide Apply, Enabled, Down;
    if n == 0 {
      BothEnd(maxAttempts, a, b);
      assert TwoEnd(a, b) + [] == TwoEnd(a, b);
    } else {
      var t := TwoEnd(a, b) + LostTurns(n - 1);
      LoseMore(maxAttempts, a, b, n - 1);
      LoseOne(maxAttempts, a, b, n - 1);
      Extend(maxAttempts, t, Query);
      Extend(maxAttempts, t + [Query], PostHead(false));
      Extend(maxAttempts, t + [Query] + [PostHead(false)], Record(0));
      assert t + [Query] + [PostHead(false)] + [Record(0)] == TwoEnd(a, b) + LostTurns(n);
    }
  }

  lemma BackAgain(maxAttempts: nat, a: string, b: string)
    requires maxAttempts >= 1
    ensures var s := Down(maxAttempts, a, b, maxAttempts);
            && Enabled(s, Query) && Enabled(Apply(s, Query), PostHead(true))
            && var t := Apply(Apply(s, Query), PostHead(true));
               t.db == s.db && t.sent == Lost(a, maxAttempts) + [Post(1, Second(b), true)]
  {
    WhatIsFetched(maxAttempts, a, b, maxAttempts);
  }

  lemma {:induction false} LostIsNotHeard(a: string, n: nat)
    ensures Receiver.Heard(Lost(a, n)) == []
  {
    if n > 0 {
      assert Lost(a, n)[..n - 1] == Lost(a, n - 1);
      LostIsNotHeard(a, n - 1);
    }
  }

  /** For every limit: a receiver that misses all attempts at one event never hears it, and hears the next
      one first. What it hears is then no initial piece of the history. */
  lemma EventIsLost(maxAttempts: nat, a: string, b: string)
    requires maxAttempts >= 1 && a != b
    ensures Legal(maxAttempts, DownTooLong(maxAttempts, a, b))
    ensures var s := After(maxAttempts, DownTooLong(maxAttempts, a, b));
            && |s.db.outbox| == 2 && Parked(s.db.outbox[0], maxAttempts) && !Receiver.Reached(s.sent, 0)
            && Receiver.Heard(s.sent) == [Post(1, s.db.outbox[1].payload, true)]
            && !Receiver.Initial(Receiver.Heard(s.sent))
  {
    hide Apply, Enabled;
    var t := TwoEnd(a, b) + LostTurns(maxAttempts);
    LoseMore(maxAttempts, a, b, maxAttempts);
    BackAgain(maxAttempts, a, b);
    Extend(maxAttempts, t, Query);
    Extend(maxAttempts, t + [Query], PostHead(true));
    assert t + [Query] + [PostHead(true)] == DownTooLong(maxAttempts, a, b);
    var sent, last := Lost(a, maxAttempts) + [Post(1, Second(b), true)], Post(1, Second(b), true);
    assert sent[..maxAttempts] == Lost(a, maxAttempts);
    LostIsNotHeard(a, maxAttempts);
    assert Receiver.Heard(sent) == [last];
    assert Receiver.Heard(sent)[0].rowid == 1;
  }
}
