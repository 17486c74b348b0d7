/** The interceptor hooks: writers that run after a proxied request succeeded, without the mutex,
    and the two that take it to sync. */
module Intercept {
  import opened Base
  import opened Status
  import opened Tables
  import opened System
  import opened PaymentLaws
  import opened StoreModel
  import opened SyncLoop
  import opened EngineRuns
  import opened Columns
  import Engine
  import History
  import InvoiceRace
  import SendRace
  import Listing
  import Rln

  /** Over any stretch of a run rows stay where they are, and only grow. */
  lemma RowsStay(maxAttempts: nat, t: seq<Action>, u: seq<Action>)
    requires Legal(maxAttempts, t) && Legal(maxAttempts, u) && t <= u
    ensures History.Grown(After(maxAttempts, t).db.transfers, After(maxAttempts, u).db.transfers)
  {
    hide Apply, Enabled;
    History.RowsOnlyGrow(maxAttempts, u, |t|);
    assert u[..|t|] == t;
  }

  /** `insert_transfer`: insert or merge, then read the row back, with everyone else running before and
      in between; an error may come after the row was inserted. `at` is where the insert stands in the
      run, and `id` the row it ended on. */
  method InsertRow(store: Store, n: NewTransfer, now: int)
    returns (r: Result<Transfer, StoreError>, ghost at: nat, ghost id: nat)
    requires store.Valid() && FromInterceptor(n)
    modifies store
    ensures store.Valid() && old(store.trace) <= store.trace
    ensures |old(store.trace)| <= at <= |store.trace| && Legal(store.maxAttempts, store.trace[..at])
    ensures store.healthy || r.Ok? ==> at < |store.trace| && store.trace[at] == Insert(n, now)
    ensures r.Ok? ==> FitsDb(n.expiration) && id < |store.transfers| && r.value == store.transfers[id]
                      && r.value.recipientId == n.recipientId
    ensures r.Ok? && n.recipientId.None? ==>
              |old(store.transfers)| <= id && History.RowGrown(BornIntercepted(n, now), store.transfers[id])
    ensures History.Grown(old(store.transfers), store.transfers)
    ensures store.healthy && r.Err? ==> !FitsDb(n.expiration)
    ensures store.alone ==> store.Mirror() in {old(store.Mirror()), InvoiceRace.Insert(old(store.Mirror()), n, now)}
    ensures store.alone && (store.healthy || r.Ok?) ==>
              store.Mirror() == InvoiceRace.Insert(old(store.Mirror()), n, now)
  {
    hide Legal, After, Apply, Enabled, History.RowGrown;
    ghost var first := store.trace;
    store.Others(Nobody);
    at, id := |store.trace|, 0;
    ghost var rows, before := store.transfers, store.trace;
    assert store.trace[..at] == before;
    RowsStay(store.maxAttempts, first, before);
    var inserted := store.InsertTransfer(n, now);
    if inserted.Err? {
      return Err(inserted.error), at, id;
    }
    id := inserted.value;
    InsertedRow(rows, n, now);
    ghost var t := store.trace;
    store.Others(Nobody);
    RowsStay(store.maxAttempts, t, store.trace);
    RowsStay(store.maxAttempts, first, store.trace);
    assert store.trace[..at] == before;
    GrownRecipient(After(store.maxAttempts, t).db.transfers, store.transfers, id);
    r := store.FetchTransfer(inserted.value);
  }

  lemma GrownRecipient(a: seq<Transfer>, b: seq<Transfer>, id: nat)
    requires History.Grown(a, b) && id < |a|
    ensures b[id].recipientId == a[id].recipientId && History.RowGrown(a[id], b[id])
  {
  }

  lemma InsertedRow(rows: seq<Transfer>, n: NewTransfer, now: int)
    requires InsertTransfer(rows, n, now).Ok?
    ensures var u := InsertTransfer(rows, n, now).value;
            && u.rows[u.id].recipientId == n.recipientId
            && (n.recipientId.None? ==> u.id == |rows| && u.rows[u.id] == BornIntercepted(n, now))
  {
    NoRecipient(rows);
  }

  /** What `/rgbinvoice` inserts, column by column. */
  predicate InvoiceInsert(a: Action, assetId: Option<string>, byWitness: bool, recipientId: string, invoice: string,
                          expiration: Option<u64>, batchTransferIdx: int, now: int) {
    && a.Insert? && a.now == now
    && a.n.assetId == assetId && a.n.expiration == expiration && a.n.txid.None?
    && a.n.recipientId == Some(recipientId) && a.n.invoice == Some(invoice)
    && a.n.batchTransferIdx == Some(batchTransferIdx) && a.n.status == WaitingCounterparty
    && (byWitness ==> a.n.kind == Some("ReceiveWitness")) && (!byWitness ==> a.n.kind == Some("ReceiveBlind"))
  }

  /** `/rgbinvoice`. Run alone its insert is the one the invoice race is about; whatever runs beside it,
      the insert is in the run and the recipient has a row when it returns. */
  method RgbInvoice(store: Store, assetId: Option<string>, byWitness: bool, recipientId: string, invoice: string,
                    expiration: Option<u64>, batchTransferIdx: int, now: int)
    returns (r: Result<(), StoreError>, ghost at: nat)
    requires store.Valid()
    modifies store
    ensures store.Valid() && old(store.trace) <= store.trace
    ensures store.healthy ==> (r.Ok? <==> FitsDb(expiration))
    ensures store.alone && (store.healthy || r.Ok?) ==>
              var n := InvoiceRace.Invoice(assetId, byWitness, recipientId, invoice, expiration, batchTransferIdx);
              store.Mirror() == InvoiceRace.Insert(old(store.Mirror()), n, now)
    ensures store.healthy || r.Ok? ==>
              && |old(store.trace)| <= at < |store.trace|
              && store.trace[at] == Insert(InvoiceRace.Invoice(assetId, byWitness, recipientId, invoice, expiration,
                                                               batchTransferIdx), now)
    ensures store.healthy || r.Ok? ==>
              InvoiceInsert(store.trace[at], assetId, byWitness, recipientId, invoice, expiration, batchTransferIdx,
                            now)
    ensures r.Ok? ==> exists row :: row in store.transfers && row.recipientId == Some(recipientId)
  {
    var n := InvoiceRace.Invoice(assetId, byWitness, recipientId, invoice, expiration, batchTransferIdx);
    var inserted;
    ghost var id;
    inserted, at, id := InsertRow(store, n, now);
    return if inserted.Err? then Err(inserted.error) else Ok(()), at;
  }

  function SendStatus(donation: bool): TransferStatus {
    if donation then WaitingConfirmations else WaitingCounterparty
  }

  function SendRow(donation: bool, assetId: string, txid: string, expiration: Option<u64>): NewTransfer {
    NewTransfer(Some(assetId), Some("Send"), SendStatus(donation), None, Some(txid), None, None, expiration)
  }

  function SendRows(donation: bool, assets: seq<string>, txid: string, expiration: Option<u64>, now: int)
    : seq<Transfer>
  {
    seq(|assets|, i requires 0 <= i < |assets| => BornIntercepted(SendRow(donation, assets[i], txid, expiration), now))
  }

  /** One row of a send: it has no recipient, so it clashes with nothing and is always new. */
  method InsertSend(store: Store, n: NewTransfer, now: int)
    returns (r: Result<(), StoreError>, ghost at: nat, ghost id: nat)
    requires store.Valid() && n.recipientId.None?
    modifies store
    ensures store.Valid() && old(store.trace) <= store.trace
    ensures r.Ok? ==> FitsDb(n.expiration)
    ensures r.Ok? ==>
              && |old(store.trace)| <= at < |store.trace| && store.trace[at] == Insert(n, now)
              && |old(store.transfers)| <= id < |store.transfers|
              && History.RowGrown(BornIntercepted(n, now), store.transfers[id])
    ensures History.Grown(old(store.transfers), store.transfers)
    ensures store.alone && r.Ok? ==> store.transfers == old(store.transfers) + [BornIntercepted(n, now)]
    ensures store.healthy && r.Err? ==> !FitsDb(n.expiration)
  {
    hide Legal, After, Apply, Enabled, History.RowGrown, History.Grown;
    NoRecipient(store.transfers);
    var inserted;
    inserted, at, id := InsertRow(store, n, now);
    return if inserted.Err? then Err(inserted.error) else Ok(()), at, id;
  }

  /** Each row of a send is stored, on a row of its own, and has only grown since. */
  predicate SendStored(rows: seq<Transfer>, stored: seq<Transfer>, ids: seq<nat>) {
    && |ids| == |rows|
    && (forall i :: 0 <= i < |ids| ==> ids[i] < |stored| && History.RowGrown(rows[i], stored[ids[i]]))
    && (forall i, j :: 0 <= i < j < |ids| ==> ids[i] < ids[j])
  }

  /** Its inserts stand in the run in order, from the n-th action on. */
  predicate SendInserted(sends: seq<NewTransfer>, t: seq<Action>, n: nat, ats: seq<nat>, now: int) {
    && |ats| == |sends|
    && (forall i :: 0 <= i < |ats| ==> n <= ats[i] < |t| && t[ats[i]] == Insert(sends[i], now))
    && (forall i, j :: 0 <= i < j < |ats| ==> ats[i] < ats[j])
  }

  lemma StoredStill(rows: seq<Transfer>, a: seq<Transfer>, b: seq<Transfer>, ids: seq<nat>)
    requires SendStored(rows, a, ids) && History.Grown(a, b)
    ensures SendStored(rows, b, ids)
  {
    forall i | 0 <= i < |ids| ensures History.RowGrown(rows[i], b[ids[i]]) {
      assert History.RowGrown(rows[i], a[ids[i]]) && History.RowGrown(a[ids[i]], b[ids[i]]);
      History.GrownTransitive([rows[i]], [a[ids[i]]], [b[ids[i]]]);
      assert History.RowGrown([rows[i]][0], [b[ids[i]]][0]);
    }
  }

  lemma StoredMore(rows: seq<Transfer>, a: seq<Transfer>, b: seq<Transfer>, ids: seq<nat>, row: Transfer, id: nat)
    requires SendStored(rows, a, ids) && History.Grown(a, b)
    requires |a| <= id < |b| && History.RowGrown(row, b[id])
    ensures SendStored(rows + [row], b, ids + [id])
  {
    StoredStill(rows, a, b, ids);
  }

  lemma InsertedMore(sends: seq<NewTransfer>, t: seq<Action>, u: seq<Action>, n: nat, ats: seq<nat>, send: NewTransfer,
                     at: nat, now: int)
    requires SendInserted(sends, t, n, ats, now) && n <= |t| && t <= u
    requires |t| <= at < |u| && u[at] == Insert(send, now)
    ensures SendInserted(sends + [send], u, n, ats + [at], now)
  {
  }

  function Sends(donation: bool, assets: seq<string>, txid: string, expiration: Option<u64>): seq<NewTransfer> {
    seq(|assets|, i requires 0 <= i < |assets| => SendRow(donation, assets[i], txid, expiration))
  }

  /** What `/sendrgb` inserts for an asset, column by column. */
  predicate SendInsert(a: Action, donation: bool, asset: string, txid: string, expiration: Option<u64>, now: int) {
    && a.Insert? && a.now == now
    && a.n.assetId == Some(asset) && a.n.kind == Some("Send") && a.n.txid == Some(txid)
    && a.n.expiration == expiration && a.n.invoice.None? && a.n.recipientId.None? && a.n.batchTransferIdx.None?
    && (donation ==> a.n.status == WaitingConfirmations) && (!donation ==> a.n.status == WaitingCounterparty)
    && SendRace.IsSend(a.n)
  }

  lemma SendsSay(donation: bool, assets: seq<string>, txid: string, expiration: Option<u64>, t: seq<Action>, n: nat,
                 ats: seq<nat>, now: int)
    requires SendInserted(Sends(donation, assets, txid, expiration), t, n, ats, now)
    ensures |ats| == |assets|
    ensures forall i :: 0 <= i < |ats| ==>
              ats[i] < |t| && SendInsert(t[ats[i]], donation, assets[i], txid, expiration, now)
              && InsertedOn(None, SendRows(donation, assets, txid, expiration, now)[i], t[ats[i]].n, now)
  {
  }

  /** `/sendrgb`: one row per asset, so a repeated call doubles its rows. Whatever runs beside it, when it
      succeeds each asset's insert is in the run, in order, and each has a row of its own that has only
      grown since. */
  method SendRgb(store: Store, donation: bool, assets: seq<string>, txid: string, expiration: Option<u64>, now: int)
    returns (r: Result<(), StoreError>, ghost ats: seq<nat>, ghost ids: seq<nat>)
    requires store.Valid()
    modifies store
    ensures store.Valid() && old(store.trace) <= store.trace
    ensures r.Ok? ==>
              && SendStored(SendRows(donation, assets, txid, expiration, now), store.transfers, ids)
              && (forall i :: 0 <= i < |ids| ==> |old(store.transfers)| <= ids[i])
              && SendInserted(Sends(donation, assets, txid, expiration), store.trace, |old(store.trace)|, ats, now)
    ensures store.alone && r.Ok? ==>
              && store.transfers == old(store.transfers) + SendRows(donation, assets, txid, expiration, now)
              && (forall i :: 0 <= i < |assets| ==>
                    ats[i] < |store.trace|
                    && InsertedOn(None, store.transfers[|old(store.transfers)| + i], store.trace[ats[i]].n, now))
    ensures r.Ok? ==>
              |ats| == |assets| && forall i :: 0 <= i < |ats| ==>
                ats[i] < |store.trace| && SendInsert(store.trace[ats[i]], donation, assets[i], txid, expiration, now)
    ensures store.healthy ==> (r.Ok? <==> assets == [] || FitsDb(expiration))
  {
    hide Legal, After, Apply, Enabled, History.RowGrown, History.Grown;
    hide SendInsert, InsertedOn;
    ghost var rows := SendRows(donation, assets, txid, expiration, now);
    ghost var sends := Sends(donation, assets, txid, expiration);
    ats, ids := [], [];
    for i := 0 to |assets|
      invariant store.Valid() && old(store.trace) <= store.trace
      invariant store.alone ==> store.transfers == old(store.transfers) + rows[..i]
      invariant i > 0 ==> FitsDb(expiration)
      invariant SendStored(rows[..i], store.transfers, ids)
      invariant SendInserted(sends[..i], store.trace, |old(store.trace)|, ats, now)
      invariant |old(store.transfers)| <= |store.transfers|
      invariant forall k :: 0 <= k < |ids| ==> |old(store.transfers)| <= ids[k]
    {
      assert rows[..i + 1] == rows[..i] + [rows[i]] && sends[..i + 1] == sends[..i] + [sends[i]];
      ghost var stored, t := store.transfers, store.trace;
      var inserted;
      ghost var at, id;
      inserted, at, id := InsertSend(store, SendRow(donation, assets[i], txid, expiration), now);
      if inserted.Err? {
        return inserted, ats, ids;
      }
      StoredMore(rows[..i], stored, store.transfers, ids, rows[i], id);
      InsertedMore(sends[..i], t, store.trace, |old(store.trace)|, ats, sends[i], at, now);
      ats, ids := ats + [at], ids + [id];
    }
    assert rows[..|assets|] == rows && sends[..|assets|] == sends;
    SendsSay(donation, assets, txid, expiration, store.trace, |old(store.trace)|, ats, now);
    return Ok(()), ats, ids;
  }

  lemma {:induction false} NoRecipient(rows: seq<Transfer>)
    ensures HolderOf(rows, None).None?
  {
    if rows != [] {
      NoRecipient(rows[..|rows| - 1]);
    }
  }

  /** A task id no hook in flight uses. */
  lemma FreshTid(used: set<Tid>) returns (tid: Tid)
    ensures tid !in used
  {
    var rest := used;
    tid := 0;
    while rest != {}
      invariant rest <= used && forall t :: t in used && t !in rest ==> t < tid
    {
      var t :| t in rest;
      rest := rest - {t};
      tid := if t < tid then tid else t + 1;
    }
  }

  /** `apply_payment_observed`, by a hook. */
  method ApplyHooked(store: Store, ghost tid: Tid, read: PaymentRead, now: int) returns (r: Result<bool, StoreError>)
    requires store.Valid() && tid in store.State().hooks && store.State().hooks[tid] == read
    modifies store
    ensures store.Valid() && old(store.trace) <= store.trace
    ensures r.Err? ==> r.error == Unavailable && !store.healthy
    ensures r.Ok? ==>
              && |store.trace| == |old(store.trace)| + 1
              && store.Mirror() == ApplyPaymentObserved(old(store.Mirror()), read.hash, read.row, read.observed, now)
              && r.value == PaymentApplies(old(store.Mirror()), read.hash, read.row, read.observed)
  {
    var plan := PlanPayment(read.row.status, read.observed);
    if plan.None? {
      store.EndHook(tid);
      return Ok(false);
    }
    var payload := PaymentEventPayload(read.hash, read.row, plan.value, now);
    r := store.ApplyHookTransition(tid, read, plan.value, payload, now);
    if r.Err? {
      store.EndHook(tid);
    }
  }

  /** What an outgoing payment is inserted as, whatever the node answered. */
  function Outgoing(hash: string, assetId: Option<string>, assetAmount: Option<u64>, amtMsat: Option<u64>,
                    payeePubkey: Option<string>): NewPayment {
    NewPayment(hash, Outbound, Pending, assetId, assetAmount, amtMsat, payeePubkey)
  }

  /** A payment recorded by a hook: its insert at `start` of the run, and its swap at `end`. */
  ghost predicate Hooked(maxAttempts: nat, t: seq<Action>, n: nat, start: nat, end: nat, p: NewPayment,
                         observed: PaymentStatus, now: int, b: Db, moved: bool)
  {
    && n <= start < end && end == |t| - 1 && Legal(maxAttempts, t[..start]) && Legal(maxAttempts, t[..end])
    && t[start].HookUpsert? && t[start].p == p && t[start].observed == observed && t[start].now == now
    && AmountsFit(p)
    && var row := UpsertedPayment(After(maxAttempts, t[..start]).db.payments, p, None, now);
       var a := After(maxAttempts, t[..end]).db;
       b == ApplyPaymentObserved(a, p.hash, row, observed, now) && moved == PaymentApplies(a, p.hash, row, observed)
  }

  method RecordHooked(store: Store, p: NewPayment, observed: PaymentStatus, now: int)
    returns (r: Result<bool, StoreError>, ghost start: nat, ghost end: nat)
    requires store.Valid() && p.status == Pending
    modifies store
    ensures store.Valid() && old(store.trace) <= store.trace
    ensures r == Err(OutOfRange) ==> !AmountsFit(p)
    ensures store.healthy ==> (r.Ok? <==> AmountsFit(p))
    ensures r.Ok? ==> Hooked(store.maxAttempts, store.trace, |old(store.trace)|, start, end, p, observed, now,
                             store.Mirror(), r.value)
    ensures store.alone && r.Ok? ==>
              var payments := old(store.payments)[p.hash := UpsertedPayment(old(store.payments), p, None, now)];
              store.Mirror() == ApplyPaymentObserved(old(store.Mirror()).(payments := payments), p.hash,
                                                     payments[p.hash], observed, now)
  {
    hide Legal, After, Apply, ApplyPaymentObserved, PaymentApplies, PlanPayment, UpsertedPayment;
    end := |store.trace|;
    var inserted;
    ghost var tid;
    inserted, tid, start := InsertHooked(store, p, observed, now);
    if inserted.Err? {
      return Err(inserted.error), start, end;
    }
    end := |store.trace|;
    ghost var between := store.trace;
    r := ApplyHooked(store, tid, inserted.value, now);
    assert store.trace[..end] == between && store.trace[..start] == between[..start];
  }

  /** `record_outbound_payment`, for `/keysend` and `/sendpayment`. An answer without a hash is not
      mirrored; any other is inserted as pending, then moved by the status the node answered, with the
      poll and other hooks running before and in between. `start` and `end` are where its insert and
      its swap stand in the run; right after the insert the row shows what the request gave. */
  method RecordOutboundPayment(store: Store, hash: Option<string>, observed: PaymentStatus, assetId: Option<string>,
                               assetAmount: Option<u64>, amtMsat: Option<u64>, payeePubkey: Option<string>, now: int)
    returns (r: Result<bool, StoreError>, ghost start: nat, ghost end: nat)
    requires store.Valid()
    modifies store
    ensures store.Valid() && old(store.trace) <= store.trace
    ensures hash.None? ==> r == Ok(false) && unchanged(store)
    ensures r == Err(OutOfRange) ==> !FitsDb(assetAmount) || !FitsDb(amtMsat)
    ensures store.healthy && hash.Some? ==> (r.Ok? <==> FitsDb(assetAmount) && FitsDb(amtMsat))
    ensures r.Ok? && hash.Some? ==>
              var p := Outgoing(hash.value, assetId, assetAmount, amtMsat, payeePubkey);
              Hooked(store.maxAttempts, store.trace, |old(store.trace)|, start, end, p, observed, now,
                     store.Mirror(), r.value)
    ensures store.alone && r.Ok? && hash.Some? ==>
              var p := Outgoing(hash.value, assetId, assetAmount, amtMsat, payeePubkey);
              var payments := old(store.payments)[p.hash := UpsertedPayment(old(store.payments), p, None, now)];
              store.Mirror() == ApplyPaymentObserved(old(store.Mirror()).(payments := payments), p.hash,
                                                     payments[p.hash], observed, now)
    ensures r.Ok? && hash.Some? ==>
              && start + 1 <= |store.trace|
              && Legal(store.maxAttempts, store.trace[..start]) && Legal(store.maxAttempts, store.trace[..start + 1])
              && var was := StoredPayment(After(store.maxAttempts, store.trace[..start]).db, hash.value);
                 var after := After(store.maxAttempts, store.trace[..start + 1]).db.payments;
                 && hash.value in after
                 && Recorded(was, after[hash.value], assetId, assetAmount, amtMsat, payeePubkey, now)
                 && (was.None? ==> after[hash.value].status == Pending)
                 && (r.value ==> Seen(store.Mirror(), hash.value) == Some(observed))
                 && (r.value && observed in {Succeeded, PaymentFailed, Cancelled} ==>
                       TellsOf(store.outbox, hash.value, was, assetId, assetAmount, amtMsat, payeePubkey, now))
    ensures store.alone && r.Ok? && hash.Some? ==>
              hash.value in store.payments
              && Recorded(StoredPayment(old(store.Mirror()), hash.value), store.payments[hash.value],
                          assetId, assetAmount, amtMsat, payeePubkey, now)
  {
    hide Legal, After, Apply, ApplyPaymentObserved, UpsertedPayment, Hooked, Recorded, TellsOf, Seen;
    hide Outgoing, StoredPayment, AmountsFit;
    start, end := |store.trace|, |store.trace|;
    if hash.None? {
      return Ok(false), start, end;
    }
    OutgoingFits(hash.value, assetId, assetAmount, amtMsat, payeePubkey);
    ghost var mirror := store.Mirror();
    var p := Outgoing(hash.value, assetId, assetAmount, amtMsat, payeePubkey);
    ghost var n := |store.trace|;
    r, start, end := RecordHooked(store, p, observed, now);
    if r.Ok? {
      HookedSays(store.maxAttempts, store.trace, n, start, end, hash.value, observed, assetId, assetAmount, amtMsat,
                 payeePubkey, now, store.Mirror(), r.value);
      AloneSays(mirror, hash.value, observed, assetId, assetAmount, amtMsat, payeePubkey, now);
    }
  }

  lemma OutgoingFits(hash: string, assetId: Option<string>, assetAmount: Option<u64>, amtMsat: Option<u64>,
                     payeePubkey: Option<string>)
    ensures var p := Outgoing(hash, assetId, assetAmount, amtMsat, payeePubkey);
            && p.hash == hash && p.status == Pending
            && (AmountsFit(p) <==> FitsDb(assetAmount) && FitsDb(amtMsat))
  {
  }

  /** What a hook has recorded, in the words of its request. */
  lemma HookedSays(maxAttempts: nat, t: seq<Action>, n: nat, start: nat, end: nat, hash: string,
                   observed: PaymentStatus, assetId: Option<string>, assetAmount: Option<u64>, amtMsat: Option<u64>,
                   payeePubkey: Option<string>, now: int, b: Db, moved: bool)
    requires Legal(maxAttempts, t)
    requires Hooked(maxAttempts, t, n, start, end, Outgoing(hash, assetId, assetAmount, amtMsat, payeePubkey), observed,
                    now, b, moved)
    ensures start + 1 <= |t| && Legal(maxAttempts, t[..start]) && Legal(maxAttempts, t[..start + 1])
    ensures var was := StoredPayment(After(maxAttempts, t[..start]).db, hash);
            var after := After(maxAttempts, t[..start + 1]).db.payments;
            && hash in after && Recorded(was, after[hash], assetId, assetAmount, amtMsat, payeePubkey, now)
            && (was.None? ==> after[hash].status == Pending)
            && (moved ==> Seen(b, hash) == Some(observed))
            && (moved && observed in {Succeeded, PaymentFailed, Cancelled} ==>
                  TellsOf(b.outbox, hash, was, assetId, assetAmount, amtMsat, payeePubkey, now))
  {
    hide Legal, After, Apply, ApplyPaymentObserved, UpsertedPayment, PaymentApplies, Recorded, TellsOf, Seen;
    hide StoredPayment;
    var p := Outgoing(hash, assetId, assetAmount, amtMsat, payeePubkey);
    var first, a := After(maxAttempts, t[..start]).db, After(maxAttempts, t[..end]).db;
    var read := PaymentRead(hash, UpsertedPayment(first.payments, p, None, now), observed);
    InsertPoint(maxAttempts, t, start, t[start].tid, p, observed, now);
    RecordedFirst(first, hash, assetId, assetAmount, amtMsat, payeePubkey, now);
    AppliedSeen(a, read, now);
    SwapKeepsRecord(a, read, now, StoredPayment(first, hash), assetId, assetAmount, amtMsat, payeePubkey, now);
  }

  lemma AloneSays(db: Db, hash: string, observed: PaymentStatus, assetId: Option<string>, assetAmount: Option<u64>,
                  amtMsat: Option<u64>, payeePubkey: Option<string>, now: int)
    ensures var p := Outgoing(hash, assetId, assetAmount, amtMsat, payeePubkey);
            var payments := db.payments[hash := UpsertedPayment(db.payments, p, None, now)];
            var b := ApplyPaymentObserved(db.(payments := payments), hash, payments[hash], observed, now).payments;
            hash in b && Recorded(StoredPayment(db, hash), b[hash], assetId, assetAmount, amtMsat, payeePubkey, now)
  {
    hide ApplyPaymentObserved, UpsertedPayment, Recorded, StoredPayment;
    var p := Outgoing(hash, assetId, assetAmount, amtMsat, payeePubkey);
    var payments := db.payments[hash := UpsertedPayment(db.payments, p, None, now)];
    RecordedFirst(db, hash, assetId, assetAmount, amtMsat, payeePubkey, now);
    SwapOfRecord(db.(payments := payments), PaymentRead(hash, payments[hash], observed), now,
                 StoredPayment(db, hash), assetId, assetAmount, amtMsat, payeePubkey, now);
  }

  /** The row of an outgoing payment shows what the request gave, and keeps what it did not. */
  predicate Recorded(was: Option<Payment>, row: Payment, assetId: Option<string>, assetAmount: Option<u64>,
                     amtMsat: Option<u64>, payeePubkey: Option<string>, now: int) {
    && row.direction == Outbound
    && (if was.None? then
          && row.assetId == assetId && row.assetAmount == assetAmount && row.amtMsat == amtMsat
          && row.payeePubkey == payeePubkey && row.createdAt == now
        else
          && KeepsKnown(assetId, was.value.assetId, row.assetId)
          && KeepsKnown(assetAmount, was.value.assetAmount, row.assetAmount)
          && KeepsKnown(amtMsat, was.value.amtMsat, row.amtMsat)
          && KeepsKnown(payeePubkey, was.value.payeePubkey, row.payeePubkey)
          && row.createdAt == was.value.createdAt)
  }

  /** The newest event tells of the payment, and shows the same. */
  predicate TellsOf(outbox: seq<Event>, hash: string, was: Option<Payment>, assetId: Option<string>,
                    assetAmount: Option<u64>, amtMsat: Option<u64>, payeePubkey: Option<string>, now: int) {
    && outbox != [] && AboutPayment(outbox[|outbox| - 1].payload, hash)
    && Recorded(was, outbox[|outbox| - 1].payload.payment, assetId, assetAmount, amtMsat, payeePubkey, now)
  }

  lemma RecordedFirst(db: Db, hash: string, assetId: Option<string>, assetAmount: Option<u64>, amtMsat: Option<u64>,
                      payeePubkey: Option<string>, now: int)
    ensures var p := Outgoing(hash, assetId, assetAmount, amtMsat, payeePubkey);
            var row := UpsertedPayment(db.payments, p, None, now);
            && Recorded(StoredPayment(db, hash), row, assetId, assetAmount, amtMsat, payeePubkey, now)
            && (StoredPayment(db, hash).None? ==> row.status == Pending)
  {
  }

  /** The state after a hook's insert. */
  lemma InsertPoint(maxAttempts: nat, t: seq<Action>, start: nat, tid: Tid, p: NewPayment, observed: PaymentStatus,
                    now: int)
    requires Legal(maxAttempts, t) && start < |t| && t[start] == HookUpsert(tid, p, observed, now)
    requires Legal(maxAttempts, t[..start]) && AmountsFit(p)
    ensures Legal(maxAttempts, t[..start + 1])
    ensures var a := After(maxAttempts, t[..start]).db.payments;
            After(maxAttempts, t[..start + 1]).db.payments == a[p.hash := UpsertedPayment(a, p, None, now)]
  {
    PrefixLegal(maxAttempts, t, start + 1);
    assert t[..start + 1][..start] == t[..start];
  }

  lemma SwapKeepsRecord(db: Db, read: PaymentRead, now: int, was: Option<Payment>, assetId: Option<string>,
                        assetAmount: Option<u64>, amtMsat: Option<u64>, payeePubkey: Option<string>, at: int)
    requires Recorded(was, read.row, assetId, assetAmount, amtMsat, payeePubkey, at)
    ensures PaymentApplies(db, read.hash, read.row, read.observed)
            && read.observed in {Succeeded, PaymentFailed, Cancelled} ==>
              TellsOf(ApplyPaymentObserved(db, read.hash, read.row, read.observed, now).outbox, read.hash, was,
                      assetId, assetAmount, amtMsat, payeePubkey, at)
  {
  }

  lemma SwapOfRecord(db: Db, read: PaymentRead, now: int, was: Option<Payment>, assetId: Option<string>,
                     assetAmount: Option<u64>, amtMsat: Option<u64>, payeePubkey: Option<string>, at: int)
    requires read.hash in db.payments
    requires Recorded(was, db.payments[read.hash], assetId, assetAmount, amtMsat, payeePubkey, at)
    ensures var b := ApplyPaymentObserved(db, read.hash, read.row, read.observed, now).payments;
            read.hash in b && Recorded(was, b[read.hash], assetId, assetAmount, amtMsat, payeePubkey, at)
  {
  }

  /** The insert of a hook, with everyone else running before and after it. */
  method InsertHooked(store: Store, p: NewPayment, observed: PaymentStatus, now: int)
    returns (r: Result<PaymentRead, StoreError>, ghost tid: Tid, ghost start: nat)
    requires store.Valid() && p.status == Pending
    modifies store
    ensures store.Valid() && old(store.trace) <= store.trace
    ensures r.Err? ==> (r.error != Unavailable ==> !AmountsFit(p)) && (store.healthy ==> r.error != Unavailable)
    ensures r.Ok? ==>
              && AmountsFit(p)
              && |old(store.trace)| <= start < |store.trace| && store.trace[start] == HookUpsert(tid, p, observed, now)
              && tid in store.State().hooks && store.State().hooks[tid] == r.value
              && Legal(store.maxAttempts, store.trace[..start])
              && var a := After(store.maxAttempts, store.trace[..start]).db;
                 r.value == PaymentRead(p.hash, UpsertedPayment(a.payments, p, None, now), observed)
    ensures store.alone && r.Ok? ==>
              && r.value == PaymentRead(p.hash, UpsertedPayment(old(store.payments), p, None, now), observed)
              && store.Mirror() == old(store.Mirror()).(payments := old(store.payments)[p.hash := r.value.row])
  {
    hide Legal, After, Apply, UpsertedPayment;
    store.Others(Nobody);
    start := |store.trace|;
    ghost var before := store.trace;
    tid := FreshTid(store.State().hooks.Keys);
    r := store.InsertPendingPayment(tid, p, observed, now);
    if r.Ok? {
      ghost var t := store.trace;
      store.Others(HookTask(tid));
      ForeignHook(store.maxAttempts, t, store.trace, tid);
    }
    assert store.trace[..start] == before;
  }

  lemma AppliedSeen(db: Db, read: PaymentRead, now: int)
    ensures PaymentApplies(db, read.hash, read.row, read.observed) ==>
              Seen(ApplyPaymentObserved(db, read.hash, read.row, read.observed, now), read.hash) == Some(read.observed)
  {
  }

  lemma {:induction false} ForeignHook(maxAttempts: nat, t: seq<Action>, u: seq<Action>, tid: Tid)
    requires Legal(maxAttempts, t) && Legal(maxAttempts, u) && t <= u && Foreign(u[|t|..], HookTask(tid))
    requires tid in After(maxAttempts, t).hooks
    ensures tid in After(maxAttempts, u).hooks
    ensures After(maxAttempts, u).hooks[tid] == After(maxAttempts, t).hooks[tid]
    decreases |u|
  {
    if t != u {
      var r, a := u[..|u| - 1], u[|u| - 1];
      assert u[|t|..][..|r| - |t|] == r[|t|..] && u[|t|..][|r| - |t|] == a;
      ForeignHook(maxAttempts, t, r, tid);
      ForeignHookStep(After(maxAttempts, r), a, tid);
    }
  }

  lemma ForeignHookStep(s: Sys, a: Action, tid: Tid)
    requires Enabled(s, a) && !Own(a, HookTask(tid)) && !a.Crash? && tid in s.hooks
    ensures tid in Apply(s, a).hooks && Apply(s, a).hooks[tid] == s.hooks[tid]
  {
  }

  /** `sync_pending` and `spawn_asset_sync`: a sync under the mutex, after the proxied request that one of
      them sends while it holds it; exact like the engine's own. */
  method SyncUnderLock(store: Store, node: Rln.Node, scope: Listing.Scope, now: int)
    returns (r: Result<SyncReport, Engine.EngineError>, ghost start: nat, ghost order: seq<Option<string>>)
    requires store.Valid()
    modifies store, node`listed, node`assetAnswers
    ensures store.Valid() && old(store.trace) <= store.trace && store.State().lock.None?
    ensures |old(store.trace)| < start <= |store.trace|
    ensures r.Ok? ==> r.value.transitions == TransferMoves(store.maxAttempts, store.trace, start)
    ensures r == Err(Engine.Sync(FromRln(Rln.Locked))) ==> store.nodeState == NodeState.Locked
    ensures store.alone && store.healthy && node.calm && old(store.State()).lock.None? ==>
              && Listing.ObserveAll(old(store.Mirror()), Listing.Visit(node.buckets, order), now)
                 == Listing.Outcome(store.Mirror(), r.Ok?)
              && (r.Ok? ==> Listing.VisitsScope(order, Listing.ScopeAssets(old(store.transfers), node.assets, scope),
                                                Listing.ScopeAssetless(old(store.transfers), scope)))
  {
    hide Legal, After, Apply, Enabled, TransferMoves, StandsAt, Covers;
    hide Listing.ObserveAll, Listing.Visit, Listing.VisitsScope, Listing.ScopeAssets, Listing.ScopeAssetless;
    ghost var tid;
    tid, start := store.Acquire();
    ghost var t := store.trace;
    store.Others(EngineTask(tid));
    ghost var u := store.trace;
    ForeignRun(store.maxAttempts, t, u, tid, |t|);
    NoMovesYet(store.maxAttempts, t);
    var synced, visited, _, _, _ := SyncLoop.Sync(store, node, tid, scope, now);
    order := visited;
    MovesSplit(store.maxAttempts, u, store.trace, |t|);
    match synced {
      case Ok(report) => r := Ok(report);
      case Err(e) =>
        r := Err(Engine.Sync(e));
        if e == FromRln(Rln.Locked) {
          var written := store.SetNodeState(NodeState.Locked);
          if written.Err? {
            r := Err(Engine.Store(written.error));
          }
        }
    }
    Engine.ReleaseTurn(store, tid, start);
  }
}
