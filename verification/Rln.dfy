/** The node's HTTP API: what it answers, and the cursor loop that fetches a whole listing. */
module Rln {
  import opened Base
  import opened Status

  datatype RlnError = Locked | CannotFail | Api(code: nat, name: string) | Transport | Decode

  datatype RlnTransfer = RlnTransfer(
    idx: int,
    status: TransferStatus,
    kind: string,
    recipientId: Option<string>,
    txid: Option<string>,
    expiration: Option<u64>)

  /** The node's transfers by the asset they are listed under; None is the assetless bucket. */
  type Buckets = map<Option<string>, seq<RlnTransfer>>

  // ----------------------------------------------------------------- pagination

  /** A listed entry and the index the server's cursor compares. */
  datatype Item<T> = Item(index: u64, body: T)

  datatype Page<T> = Page(items: seq<Item<T>>, lastIndexOffset: u64)

  predicate Descending<T>(items: seq<Item<T>>) {
    forall i, j :: 0 <= i < j < |items| ==> items[i].index > items[j].index
  }

  /** The entries strictly below the cursor; no cursor means all of them. */
  function Below<T>(items: seq<Item<T>>, cursor: Option<u64>): (r: seq<Item<T>>)
    ensures |r| <= |items|
  {
    if cursor.None? then items
    else if items == [] then []
    else if items[0].index < cursor.value then items
    else Below(items[1..], cursor)
  }

  /** The node only adds entries, with larger indices; the bodies of old ones may change. */
  predicate Evolved<T>(a: seq<Item<T>>, b: seq<Item<T>>) {
    |a| <= |b| && Descending(b) && SameIndices(b[|b| - |a|..], a)
  }

  predicate SameIndices<T>(a: seq<Item<T>>, b: seq<Item<T>>) {
    |a| == |b| && forall j :: 0 <= j < |a| ==> a[j].index == b[j].index
  }

  class Server<T> {
    const frozen: bool     // nothing on the node changes while a listing is fetched
    const reliable: bool   // every request is answered
    var items: seq<Item<T>>

    ghost predicate Valid()
      reads this
    {
      Descending(items)
    }

    constructor (items: seq<Item<T>>, frozen: bool, reliable: bool)
      requires Descending(items)
      ensures Valid() && this.items == items && this.frozen == frozen && this.reliable == reliable
    {
      this.items := items;
      this.frozen, this.reliable := frozen, reliable;
    }

    /** One page, or an error; the node moves on before the next request. */
    method Serve(cursor: Option<u64>, max: u64) returns (r: Result<Page<T>, RlnError>)
      requires Valid()
      modifies this
      ensures Valid() && Evolved(old(items), items)
      ensures frozen ==> items == old(items)
      ensures r.Ok? ==> IsPage(Below(old(items), cursor), max, r.value)
      ensures reliable ==> r.Ok?
    {
      var failed: bool := *;
      if failed && !reliable {
        var e: RlnError := *;
        return Err(e);
      }
      var rest := Below(items, cursor);
      var n := if |rest| < max then |rest| else max;
      return Ok(Page(rest[..n], if n > 0 then rest[n - 1].index else 0));
    }
  }

  /** Below an entry of a descending list is the rest of the list. */
  lemma {:induction false} BelowEntry<T>(items: seq<Item<T>>, n: nat)
    requires Descending(items) && n < |items|
    ensures Below(items, Some(items[n].index)) == items[n + 1..]
  {
    if n > 0 {
      BelowEntry(items[1..], n - 1);
      assert items[1..][n - 1 + 1..] == items[n + 1..];
    } else if |items| > 1 {
      assert items[1..][0] == items[1];
    }
  }

  /** The cursor stands after the first `k` entries the listing had at its start. */
  predicate CursorAt<T>(all: seq<Item<T>>, cursor: Option<u64>, k: nat) {
    k <= |all| && if k == 0 then cursor.None? else cursor == Some(all[k - 1].index)
  }

  /** Entries added above the cursor do not change what is below it. */
  lemma RestBelow<T>(all: seq<Item<T>>, items: seq<Item<T>>, cursor: Option<u64>, k: nat)
    requires Descending(all) && Evolved(all, items) && CursorAt(all, cursor, k) && (k == 0 ==> items == all)
    ensures Below(items, cursor) == items[|items| - |all|..][k..]
  {
    var d := |items| - |all|;
    if k > 0 {
      assert items[d..][k - 1].index == all[k - 1].index;
      BelowEntry(items, d + (k - 1));
      assert items[d + (k - 1) + 1..] == items[d..][k..];
    } else {
      assert items[d..][k..] == items;
    }
  }

  lemma EvolvedTransitive<T>(a: seq<Item<T>>, b: seq<Item<T>>, c: seq<Item<T>>)
    requires Evolved(a, b) && Evolved(b, c)
    ensures Evolved(a, c)
  {
    var x, y := b[|b| - |a|..], c[|c| - |a|..];
    forall j | 0 <= j < |a| ensures y[j].index == a[j].index {
      var i := |b| - |a| + j;
      assert y[j] == c[|c| - |b|..][i] && x[j] == b[i];
    }
  }

  /** What `Serve` answers from the entries it holds. */
  ghost predicate IsPage<T>(rest: seq<Item<T>>, max: u64, page: Page<T>) {
    && |page.items| == (if |rest| < max then |rest| else max)
    && page.items <= rest
    && (page.items != [] ==> page.lastIndexOffset == page.items[|page.items| - 1].index)
  }

  /** One page more still starts the listing. */
  lemma PageFollows<T>(all: seq<Item<T>>, now: seq<Item<T>>, out: seq<Item<T>>, size: u64, page: Page<T>)
    requires SameIndices(now, all) && |out| <= |all| && IsPage(now[|out|..], size, page)
    requires SameIndices(out, all[..|out|])
    ensures var more := out + page.items;
            && |more| <= |all| && SameIndices(more, all[..|more|])
            && |page.items| <= size && (|page.items| < size ==> |more| == |all|)
            && (out == all[..|out|] && now == all ==> more == all[..|more|])
            && (page.items != [] ==> page.lastIndexOffset == all[|more| - 1].index)
  {
    var k := |out|;
    var more := out + page.items;
    forall j | 0 <= j < |more| ensures more[j].index == all[..|more|][j].index {
      if j < k {
        assert out[j].index == all[..k][j].index;
      } else {
        assert page.items[j - k] == now[k..][j - k] == now[j];
      }
    }
    if page.items != [] {
      assert page.lastIndexOffset == more[|more| - 1].index == all[..|more|][|more| - 1].index;
    }
    if out == all[..k] && now == all {
      assert page.items == all[k..|more|];
    }
  }

  /** A page that is not empty moves the cursor, so the loop stops only after a short one. */
  lemma CursorMoves<T>(all: seq<Item<T>>, cursor: Option<u64>, k: nat, n: nat, last: u64)
    requires Descending(all) && CursorAt(all, cursor, k) && 0 < n && k + n <= |all| && last == all[k + n - 1].index
    ensures cursor != Some(last) && CursorAt(all, Some(last), k + n)
  {
  }

  /** Where the loop stands: what it has fetched starts the listing, and the cursor is behind it. */
  ghost predicate Standing<T>(all: seq<Item<T>>, items: seq<Item<T>>, out: seq<Item<T>>, cursor: Option<u64>,
                              frozen: bool)
  {
    && |out| <= |all| && Evolved(all, items)
    && CursorAt(all, cursor, |out|) && (out == [] ==> items == all)
    && SameIndices(out, all[..|out|])
    && (frozen ==> items == all && out == all[..|out|])
  }

  lemma StandingFirst<T>(all: seq<Item<T>>, frozen: bool)
    requires Descending(all)
    ensures Standing(all, all, [], None, frozen)
  {
  }

  /** A page continues what was fetched, and a short page is the last. */
  lemma PageContinues<T>(all: seq<Item<T>>, items: seq<Item<T>>, out: seq<Item<T>>,
                         cursor: Option<u64>, size: u64, page: Page<T>, frozen: bool)
    requires Descending(all) && Standing(all, items, out, cursor, frozen)
    requires 1 <= size && IsPage(Below(items, cursor), size, page)
    ensures var more := out + page.items;
            && |more| <= |all| && SameIndices(more, all[..|more|])
            && (frozen ==> more == all[..|more|])
            && (|page.items| < size ==> |more| == |all|)
            && (page.items != [] ==> page.lastIndexOffset == all[|more| - 1].index)
  {
    RestBelow(all, items, cursor, |out|);
    if frozen {
      assert items[|items| - |all|..] == all;
    }
    PageFollows(all, items[|items| - |all|..], out, size, page);
  }

  /** One turn of the loop: only a short page stops it. */
  lemma PageTurn<T>(all: seq<Item<T>>, items: seq<Item<T>>, later: seq<Item<T>>, out: seq<Item<T>>,
                    cursor: Option<u64>, size: u64, page: Page<T>, frozen: bool)
    requires Descending(all) && Standing(all, items, out, cursor, frozen)
    requires 1 <= size && IsPage(Below(items, cursor), size, page)
    requires Evolved(items, later) && (frozen ==> later == items)
    ensures var more := out + page.items;
            && |more| <= |all| && SameIndices(more, all[..|more|])
            && (frozen ==> more == all[..|more|])
            && (|page.items| < size ==> |more| == |all|)
            && (|page.items| >= size ==>
                  && |more| > |out| && cursor != Some(page.lastIndexOffset)
                  && Standing(all, later, more, Some(page.lastIndexOffset), frozen))
  {
    PageContinues(all, items, out, cursor, size, page, frozen);
    EvolvedTransitive(all, items, later);
    if |page.items| >= size {
      CursorMoves(all, cursor, |out|, |page.items|, page.lastIndexOffset);
    }
  }

  /** `list` and `list_payments`: the whole listing in order, for every page size, in finitely many
      requests; entries the node adds meanwhile neither appear nor push another one out. */
  method List<T>(server: Server<T>, pageSize: u64) returns (r: Result<seq<Item<T>>, RlnError>)
    requires server.Valid()
    modifies server
    ensures server.Valid()
    ensures r.Ok? ==> SameIndices(r.value, old(server.items))
    ensures r.Ok? && server.frozen ==> r.value == old(server.items)
    ensures server.reliable ==> r.Ok?
  {
    hide Below, Evolved, SameIndices, CursorAt, Descending, Standing, IsPage;
    var size: u64 := if pageSize < 1 then 1 else pageSize;
    var out: seq<Item<T>> := [];
    var cursor: Option<u64> := None;
    ghost var all := server.items;
    StandingFirst(all, server.frozen);
    while true
      invariant |out| <= |all| && Descending(all)
      invariant server.Valid() && Standing(all, server.items, out, cursor, server.frozen)
      decreases |all| - |out|
    {
      ghost var items := server.items;
      var page :- server.Serve(cursor, size);
      PageTurn(all, items, server.items, out, cursor, size, page, server.frozen);
      var count := |page.items|;
      out := out + page.items;
      if count < size || cursor == Some(page.lastIndexOffset) {
        assert all[..|all|] == all;
        return Ok(out);
      }
      cursor := Some(page.lastIndexOffset);
    }
  }

  // ------------------------------------------------------------- the API, page loops done

  datatype RlnPaymentType = OutboundPayment | InboundAutoClaim | InboundHodl

  datatype RlnPayment = RlnPayment(
    amtMsat: Option<u64>,
    assetAmount: Option<u64>,
    assetId: Option<string>,
    paymentHash: string,
    paymentType: RlnPaymentType,
    status: PaymentStatus,
    payeePubkey: string)

  /** One transfer listing the node has answered. */
  datatype Listed = Listed(bucket: Option<string>, transfers: seq<RlnTransfer>)

  /** The node as the engine sees it. It may answer anything at any time unless it is `calm`. */
  class Node {
    const calm: bool                // answers every request, from the listings below
    const granting: bool            // grants every fail request
    const refuses: Option<RlnError>   // otherwise, if set, its answer to every request
    const buckets: Buckets
    const assets: set<string>
    const payments: seq<RlnPayment>
    const network: string
    var asked: seq<int>             // batch indices of the fail requests, in order
    var failed: seq<int>            // those answered Ok
    var answer: Result<(), RlnError>   // the answer to the last one
    ghost var assetAnswers: seq<Result<set<string>, RlnError>>   // its answers to list_assets, in order
    ghost var listed: seq<Listed>   // the transfer listings it has answered, in order
    ghost var polled: seq<RlnPayment>   // the last payments listing it has answered

    constructor (buckets: Buckets, assets: set<string>, payments: seq<RlnPayment>, network: string,
                 calm: bool, granting: bool, refuses: Option<RlnError>)
      ensures this.buckets == buckets && this.assets == assets && this.payments == payments
      ensures this.network == network && this.calm == calm && this.granting == granting && this.refuses == refuses
      ensures asked == [] && failed == []
    {
      this.buckets, this.assets, this.payments, this.network := buckets, assets, payments, network;
      this.calm, this.granting, this.refuses := calm, granting, refuses;
      asked, failed := [], [];
      answer := Ok(());
      assetAnswers, listed, polled := [], [], [];
    }

    predicate Refusing() {
      !calm && !granting && refuses.Some?
    }

    method ListAssets() returns (r: Result<set<string>, RlnError>)
      modifies this`assetAnswers
      ensures Refusing() ==> r == Err(refuses.value)
      ensures assetAnswers == old(assetAnswers) + [r]
      ensures calm ==> r == Ok(assets)
    {
      r := Ok(assets);
      if !calm { r := *; }
      if Refusing() { r := Err(refuses.value); }
      assetAnswers := assetAnswers + [r];
    }

    /** `list_transfers`, or `list_assetless_transfers` for None. */
    method ListTransfers(bucket: Option<string>) returns (r: Result<seq<RlnTransfer>, RlnError>)
      modifies this`listed
      ensures Refusing() ==> r == Err(refuses.value)
      ensures listed == if r.Ok? then old(listed) + [Listed(bucket, r.value)] else old(listed)
      ensures calm ==> r == Ok(if bucket in buckets then buckets[bucket] else [])
    {
      r := Ok(if bucket in buckets then buckets[bucket] else []);
      if !calm { r := *; }
      if Refusing() { r := Err(refuses.value); }
      if r.Ok? { listed := listed + [Listed(bucket, r.value)]; }
    }

    method ListPayments() returns (r: Result<seq<RlnPayment>, RlnError>)
      modifies this`polled
      ensures Refusing() ==> r == Err(refuses.value)
      ensures r.Ok? ==> polled == r.value
      ensures calm ==> r == Ok(payments)
    {
      r := Ok(payments);
      if !calm { r := *; }
      if Refusing() { r := Err(refuses.value); }
      if r.Ok? { polled := r.value; }
    }

    /** `fail_transfer`; whether the node says it changed anything is ignored. */
    method FailTransfer(batchTransferIdx: int) returns (r: Result<(), RlnError>)
      modifies this`asked, this`failed, this`answer
      ensures asked == old(asked) + [batchTransferIdx] && answer == r
      ensures granting ==> r.Ok?
      ensures Refusing() ==> r == Err(refuses.value)
      ensures failed == if r.Ok? then old(failed) + [batchTransferIdx] else old(failed)
    {
      r := Ok(());
      if !granting { r := *; }
      if Refusing() { r := Err(refuses.value); }
      asked, answer := asked + [batchTransferIdx], r;
      if r.Ok? { failed := failed + [batchTransferIdx]; }
    }

    method Refresh() returns (r: Result<(), RlnError>)
      ensures calm ==> r.Ok?
      ensures Refusing() ==> r == Err(refuses.value)
    {
      r := Ok(());
      if !calm { r := *; }
      if Refusing() { r := Err(refuses.value); }
    }

    /** `network`. */
    method Network() returns (r: Result<string, RlnError>)
      ensures calm ==> r == Ok(network)
      ensures Refusing() ==> r == Err(refuses.value)
    {
      r := Ok(network);
      if !calm { r := *; }
      if Refusing() { r := Err(refuses.value); }
    }
  }
}
