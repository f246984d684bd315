/**
 * The historical trade source of services/trade_producer/src/kraken_api/rest.py:
 * `KrakenRestAPI`, one backfill cursor per product, and
 * `KrakenRestAPIMultipleProducts`, which drives one cursor per product.
 *
 * The HTTP endpoint is a parameter: a function from the request (product,
 * `since` in seconds) to the parsed response. Historical trades do not
 * change, so the same request is taken to return the same page. The clock
 * read by `datetime.now` is a parameter too.
 */
module KrakenRest {
  import opened Wrappers

  /** 24 * 60 * 60 * 1000 */
  const DAY_MS: int := 86_400_000

  /** One row of `data['result'][product_id]`: price, volume and time in (fractional) seconds. */
  datatype PageRow = PageRow(price: real, volume: real, timeSec: real)

  /** A parsed response: the `error` list and the `result` object (absent in an error response). */
  datatype RestResponse = RestResponse(error: seq<string>, result: Option<map<string, seq<PageRow>>>)

  /** The endpoint: (product, since in seconds) to response. */
  type Server = (string, int) -> RestResponse

  /** One returned trade dict. */
  datatype RestTrade = RestTrade(productId: string, price: real, volume: real, time: int)

  /** The exception `get_trades` raises. */
  datatype FetchError =
    | MissingResult                   // KeyError: no 'result' in the response
    | MissingProduct(productId: string) // KeyError: no rows for the product
    | EmptyPage                       // IndexError: trades[-1] on an empty filtered page

  /** The state of one `KrakenRestAPI`. */
  datatype Cursor = Cursor(productId: string, fromMs: int, toMs: int, lastTsInMs: int, isDone: bool)

  /**
   * `_init_from_to_ms`: `to_ms` is the UTC midnight at or before `now`, and
   * `from_ms` lies `last_n_days` whole days before it.
   */
  function InitFromToMs(lastNDays: int, nowMs: int): (r: (int, int))
    ensures r.1 % DAY_MS == 0 && r.1 <= nowMs < r.1 + DAY_MS
    ensures r.1 - r.0 == lastNDays * DAY_MS
    ensures lastNDays >= 0 ==> r.0 <= r.1
  {
    var toMs := nowMs - nowMs % DAY_MS;
    (toMs - lastNDays * DAY_MS, toMs)
  }

  /** The state `__init__` leaves: the window from `_init_from_to_ms`, the cursor at `from_ms`, not done. */
  function NewCursor(productId: string, lastNDays: int, nowMs: int): (c: Cursor)
    ensures !c.isDone && c.lastTsInMs == c.fromMs && c.productId == productId
    ensures (c.fromMs, c.toMs) == InitFromToMs(lastNDays, nowMs)
  {
    var (fromMs, toMs) := InitFromToMs(lastNDays, nowMs);
    Cursor(productId, fromMs, toMs, fromMs, false)
  }

  /** `since_sec = self.last_ts_in_ms // 1000`. */
  function SinceSec(c: Cursor): (s: int)
    ensures s * 1000 <= c.lastTsInMs < s * 1000 + 1000
  {
    c.lastTsInMs / 1000
  }

  /** `int(x)` on a number: truncation toward zero. */
  function Trunc(x: real): (n: int)
    ensures 0.0 <= x ==> n as real <= x < n as real + 1.0
    ensures x < 0.0 ==> n as real - 1.0 < x <= n as real
  {
    if x >= 0.0 then x.Floor else -((-x).Floor)
  }

  /** `int(trade[2] * 1000)`: a row's time in whole milliseconds. */
  function RowMs(row: PageRow): int
  {
    Trunc(row.timeSec * 1000.0)
  }

  /** The first list comprehension: every row becomes a trade dict of the product. */
  function Stamp(productId: string, rows: seq<PageRow>): (ts: seq<RestTrade>)
    ensures |ts| == |rows|
    ensures forall k :: 0 <= k < |ts| ==>
              ts[k] == RestTrade(productId, rows[k].price, rows[k].volume, RowMs(rows[k]))
  {
    seq(|rows|, k requires 0 <= k < |rows| => RestTrade(productId, rows[k].price, rows[k].volume, RowMs(rows[k])))
  }

  /** `a` is `b` with some elements left out, the rest kept in order. */
  predicate IsSubsequence<T(==)>(a: seq<T>, b: seq<T>)
  {
    if |a| == 0 then true
    else if |b| == 0 then false
    else if a[|a| - 1] == b[|b| - 1] then IsSubsequence(a[..|a| - 1], b[..|b| - 1])
    else IsSubsequence(a, b[..|b| - 1])
  }

  /** Every element of a subsequence is an element of the whole. */
  lemma {:induction false} SubsequenceMembers<T>(a: seq<T>, b: seq<T>)
    requires IsSubsequence(a, b)
    ensures forall x :: x in a ==> x in b
  {
    if |a| > 0 {
      var b' := b[..|b| - 1];
      if a[|a| - 1] == b[|b| - 1] {
        SubsequenceMembers(a[..|a| - 1], b');
        assert a == a[..|a| - 1] + [a[|a| - 1]];
      } else {
        SubsequenceMembers(a, b');
      }
      assert forall x :: x in b' ==> x in b;
    }
  }

  /** The positions of the trades at or before `toMs`. */
  ghost function InWindow(trades: seq<RestTrade>, toMs: int): set<int>
  {
    set k | 0 <= k < |trades| && trades[k].time <= toMs
  }

  /**
   * `r` is what filtering `trades` to `toMs` must give: the trades at or
   * before `toMs` and no other, every one of them (as many as there are such
   * positions), in their original order.
   */
  ghost predicate KeepsUpTo(r: seq<RestTrade>, trades: seq<RestTrade>, toMs: int)
  {
    && (forall k :: 0 <= k < |r| ==> r[k].time <= toMs)
    && (forall k :: 0 <= k < |trades| && trades[k].time <= toMs ==> trades[k] in r)
    && |r| == |InWindow(trades, toMs)|
    && (|r| == 0 <==> forall k :: 0 <= k < |trades| ==> trades[k].time > toMs)
    && IsSubsequence(r, trades)
  }

  /** The second list comprehension: keep the trades at or before `to_ms`. */
  function KeepUpTo(trades: seq<RestTrade>, toMs: int): (r: seq<RestTrade>)
    ensures KeepsUpTo(r, trades, toMs)
  {
    if |trades| == 0 then
      assert InWindow(trades, toMs) == {};
      []
    else
      var init := KeepUpTo(trades[..|trades| - 1], toMs);
      KeepUpToStep(trades, toMs, init);
      if trades[|trades| - 1].time <= toMs then init + [trades[|trades| - 1]] else init
  }

  /** Filtering one more trade: keep it when it is at or before `toMs`. */
  lemma KeepUpToStep(trades: seq<RestTrade>, toMs: int, init: seq<RestTrade>)
    requires |trades| > 0 && KeepsUpTo(init, trades[..|trades| - 1], toMs)
    ensures var last := trades[|trades| - 1];
            KeepsUpTo(if last.time <= toMs then init + [last] else init, trades, toMs)
  {
    var last := trades[|trades| - 1];
    assert forall k :: 0 <= k < |trades| - 1 ==> trades[..|trades| - 1][k] == trades[k];
    InWindowStep(trades, toMs);
    if last.time <= toMs {
      assert (init + [last])[..|init|] == init;
    } else {
      assert |init| > 0 ==> init[|init| - 1] != last;
    }
  }

  /** The last trade adds its own position, or nothing, to the positions of the others. */
  lemma InWindowStep(trades: seq<RestTrade>, toMs: int)
    requires |trades| > 0
    ensures var n := |trades| - 1;
            |InWindow(trades, toMs)| ==
            |InWindow(trades[..n], toMs)| + (if trades[n].time <= toMs then 1 else 0)
  {
    var n := |trades| - 1;
    var before := InWindow(trades[..n], toMs);
    assert n !in before;
    if trades[n].time <= toMs {
      assert InWindow(trades, toMs) == before + {n};
    } else {
      assert InWindow(trades, toMs) == before;
    }
  }

  /** What `get_trades` returns, or raises, for one response. */
  function FetchPage(productId: string, toMs: int, resp: RestResponse): (r: Result<seq<RestTrade>, FetchError>)
    ensures r == Err(MissingResult) <==> resp.result.None?
    ensures r == Err(MissingProduct(productId)) <==> resp.result.Some? && productId !in resp.result.value
    ensures r.Ok? <==>
              resp.result.Some? && productId in resp.result.value &&
              exists k :: 0 <= k < |resp.result.value[productId]| && RowMs(resp.result.value[productId][k]) <= toMs
    ensures r.Ok? ==> |r.value| > 0
    ensures r.Ok? ==> forall k :: 0 <= k < |r.value| ==> r.value[k].time <= toMs && r.value[k].productId == productId
    ensures r.Ok? ==> resp.result.Some? && productId in resp.result.value &&
                      r.value == KeepUpTo(Stamp(productId, resp.result.value[productId]), toMs)
    ensures r == Err(EmptyPage) <==>
              resp.result.Some? && productId in resp.result.value &&
              forall k :: 0 <= k < |resp.result.value[productId]| ==> RowMs(resp.result.value[productId][k]) > toMs
  {
    match resp.result
    case None => Err(MissingResult)
    case Some(result) =>
      if productId !in result then Err(MissingProduct(productId))
      else
        var rows := result[productId];
        var stamped := Stamp(productId, rows);
        var kept := KeepUpTo(stamped, toMs);
        if |kept| == 0 then
          Err(EmptyPage)
        else
          assert !(forall k :: 0 <= k < |rows| ==> RowMs(rows[k]) > toMs) by {
            var k :| 0 <= k < |stamped| && stamped[k].time <= toMs;
            assert RowMs(rows[k]) <= toMs;
          }
          SubsequenceMembers(kept, stamped);
          assert forall k :: 0 <= k < |kept| ==> kept[k] in stamped;
          assert forall x :: x in stamped ==> x.productId == productId;
          Ok(kept)
  }

  /**
   * One `get_trades` call on a cursor: the request goes out with the cursor's
   * `since`, and `is_done` is set when the last kept trade reaches `to_ms`.
   */
  function Fetch(c: Cursor, server: Server): (out: (Cursor, Result<seq<RestTrade>, FetchError>))
    ensures out.1 == FetchPage(c.productId, c.toMs, server(c.productId, SinceSec(c)))
    ensures out.0 == c.(isDone := out.0.isDone)
    ensures c.isDone ==> out.0.isDone
    ensures out.0.isDone <==> c.isDone || (out.1.Ok? && out.1.value[|out.1.value| - 1].time == c.toMs)
  {
    var r := FetchPage(c.productId, c.toMs, server(c.productId, SinceSec(c)));
    var done := c.isDone || (r.Ok? && c.toMs <= r.value[|r.value| - 1].time);
    (c.(isDone := done), r)
  }

  /** The cursor after `n` consecutive `get_trades` calls that did not raise. */
  function FetchTimes(c: Cursor, server: Server, n: nat): Cursor
    decreases n
  {
    if n == 0 then c else FetchTimes(Fetch(c, server).0, server, n - 1)
  }

  /**
   * Because `self.last_ts_in_ms` is never written, every call sends the same
   * request and gets the same page back: a product whose first page ends
   * before `to_ms` is never done, however often it is fetched.
   */
  lemma {:induction false} SamePageForever(c: Cursor, server: Server, n: nat)
    requires n >= 1
    ensures FetchTimes(c, server, n) == Fetch(c, server).0
    ensures Fetch(FetchTimes(c, server, n), server).1 == Fetch(c, server).1
    decreases n
  {
    if n > 1 {
      var c1 := Fetch(c, server).0;
      SamePageForever(c1, server, n - 1);
    }
  }

  /** The steps of `get_trades`, in the order the method takes them, make up `Fetch`. */
  lemma FetchSteps(c: Cursor, server: Server, r: Result<seq<RestTrade>, FetchError>)
    requires r == FetchPage(c.productId, c.toMs, server(c.productId, c.lastTsInMs / 1000))
    ensures Fetch(c, server) == (c.(isDone := c.isDone || (r.Ok? && c.toMs <= r.value[|r.value| - 1].time)), r)
  {
  }

  class KrakenRestApi {
    // `product_id`, `from_ms` and `to_ms` are assigned in `__init__` only.
    const productId: string
    const fromMs: int
    const toMs: int
    var isDone: bool
    var lastTsInMs: int

    /** `to_ms` is a midnight, `from_ms` whole days from it, and the cursor still at `from_ms`. */
    ghost predicate Valid()
      reads this
    {
      toMs % DAY_MS == 0 && (toMs - fromMs) % DAY_MS == 0 && lastTsInMs == fromMs
    }

    function State(): Cursor
      reads this
    {
      Cursor(productId, fromMs, toMs, lastTsInMs, isDone)
    }

    /** `__init__`, with `datetime.now` read as `nowMs`. */
    constructor (productId: string, lastNDays: int, nowMs: int)
      ensures Valid()
      ensures State() == NewCursor(productId, lastNDays, nowMs)
    {
      this.productId := productId;
      var window := InitFromToMs(lastNDays, nowMs);
      fromMs := window.0;
      toMs := window.1;
      isDone := false;
      lastTsInMs := window.0;
    }

    /** `get_trades`: fetch the page at the cursor, keep what is at or before `to_ms`, maybe set `is_done`. */
    method GetTrades(server: Server) returns (r: Result<seq<RestTrade>, FetchError>)
      requires Valid()
      modifies this
      ensures Valid()
      ensures (State(), r) == Fetch(old(State()), server)
    {
      ghost var before := State();
      var sinceSec := lastTsInMs / 1000;
      var resp := server(productId, sinceSec);
      r := FetchPage(productId, toMs, resp);
      FetchSteps(before, server, r);
      if r.Ok? && toMs <= r.value[|r.value| - 1].time {
        isDone := true;
      }
    }

    /** `done`. */
    method Done() returns (d: bool)
      ensures d == isDone
    {
      d := isDone;
    }
  }

  /** The cursors after a `KrakenRestAPIMultipleProducts.get_trades` call, and what it returned or raised. */
  datatype Outcome = Outcome(cursors: seq<Cursor>, result: Result<seq<RestTrade>, FetchError>)

  /** What fetching does to one cursor: its next state and what it returned or raised. */
  type Step = Cursor -> (Cursor, Result<seq<RestTrade>, FetchError>)

  /** `get_trades` of one source against the endpoint `server`. */
  function FetchWith(server: Server): (step: Step)
    ensures forall c :: step(c) == Fetch(c, server)
  {
    c => Fetch(c, server)
  }

  /**
   * The loop of `KrakenRestAPIMultipleProducts.get_trades` from position `k`
   * on, `trades` holding the page kept so far: skip done cursors, fetch the
   * others in order, keep only the latest page, stop at an exception.
   */
  function Advance(cs: seq<Cursor>, step: Step, k: nat, trades: seq<RestTrade>): Outcome
    requires k <= |cs|
    decreases |cs| - k
  {
    if k == |cs| then Outcome(cs, Ok(trades))
    else if cs[k].isDone then Advance(cs, step, k + 1, trades)
    else
      var (c, r) := step(cs[k]);
      match r
      case Err(e) => Outcome(cs[k := c], Err(e))
      case Ok(page) => Advance(cs[k := c], step, k + 1, page)
  }

  /**
   * One multi-product call from position `k` on keeps the cursors before `k`,
   * and changes a cursor from `k` on only by fetching it, which only ever
   * sets `is_done`.
   */
  lemma {:induction false} AdvanceFrame(cs: seq<Cursor>, step: Step, k: nat, trades: seq<RestTrade>)
    requires k <= |cs|
    ensures var out := Advance(cs, step, k, trades);
      && |out.cursors| == |cs|
      && (forall j :: 0 <= j < k ==> out.cursors[j] == cs[j])
      && (forall j :: k <= j < |cs| ==>
            out.cursors[j] == cs[j] || (!cs[j].isDone && out.cursors[j] == step(cs[j]).0))
    decreases |cs| - k
  {
    if k < |cs| {
      if cs[k].isDone {
        AdvanceFrame(cs, step, k + 1, trades);
      } else {
        var (c, r) := step(cs[k]);
        if r.Ok? {
          AdvanceFrame(cs[k := c], step, k + 1, r.value);
        }
      }
    }
  }

  /** With every cursor from `k` on done, the rest of the call fetches nothing and returns `trades`. */
  lemma {:induction false} AdvanceAllDone(cs: seq<Cursor>, step: Step, k: nat, trades: seq<RestTrade>)
    requires k <= |cs|
    requires forall j :: k <= j < |cs| ==> cs[j].isDone
    ensures Advance(cs, step, k, trades) == Outcome(cs, Ok(trades))
    decreases |cs| - k
  {
    if k < |cs| {
      AdvanceAllDone(cs, step, k + 1, trades);
    }
  }

  /** When the call returns, every cursor from `k` on that was live has been fetched once. */
  lemma {:induction false} AdvanceOkFetched(cs: seq<Cursor>, step: Step, k: nat, trades: seq<RestTrade>)
    requires k <= |cs|
    requires Advance(cs, step, k, trades).result.Ok?
    ensures |Advance(cs, step, k, trades).cursors| == |cs|
    ensures forall j :: k <= j < |cs| && !cs[j].isDone ==> Advance(cs, step, k, trades).cursors[j] == step(cs[j]).0
    decreases |cs| - k
  {
    AdvanceFrame(cs, step, k, trades);
    if k < |cs| {
      if cs[k].isDone {
        AdvanceOkFetched(cs, step, k + 1, trades);
      } else {
        var (c, r) := step(cs[k]);
        var cs' := cs[k := c];
        AdvanceOkFetched(cs', step, k + 1, r.value);
        AdvanceFrame(cs', step, k + 1, r.value);
      }
    }
  }

  /** When the call returns, it returns the page of the LAST cursor from `k` on that was live. */
  lemma {:induction false} AdvanceOkLast(cs: seq<Cursor>, step: Step, k: nat, trades: seq<RestTrade>, j: nat)
    requires k <= j < |cs| && !cs[j].isDone && forall l :: j < l < |cs| ==> cs[l].isDone
    requires Advance(cs, step, k, trades).result.Ok?
    ensures Advance(cs, step, k, trades).result == step(cs[j]).1
    decreases |cs| - k
  {
    if cs[k].isDone {
      AdvanceOkLast(cs, step, k + 1, trades, j);
    } else {
      var (c, r) := step(cs[k]);
      var cs' := cs[k := c];
      if j == k {
        AdvanceAllDone(cs', step, k + 1, r.value);
      } else {
        AdvanceOkLast(cs', step, k + 1, r.value, j);
      }
    }
  }

  /** When the call raises, it raises what the first live cursor whose fetch failed raised. */
  lemma {:induction false} AdvanceErr(cs: seq<Cursor>, step: Step, k: nat, trades: seq<RestTrade>)
    requires k <= |cs|
    requires Advance(cs, step, k, trades).result.Err?
    ensures exists j :: k <= j < |cs| && !cs[j].isDone && Advance(cs, step, k, trades).result == step(cs[j]).1 &&
              (forall l :: k <= l < j && !cs[l].isDone ==> step(cs[l]).1.Ok?)
    decreases |cs| - k
  {
    if cs[k].isDone {
      AdvanceErr(cs, step, k + 1, trades);
    } else {
      var (c, r) := step(cs[k]);
      if r.Ok? {
        var cs' := cs[k := c];
        AdvanceErr(cs', step, k + 1, r.value);
        assert forall j :: k < j < |cs| ==> cs'[j] == cs[j];
      }
    }
  }

  class KrakenRestApiMultipleProducts {
    var productIds: seq<string>
    var apis: seq<KrakenRestApi>
    /** The state of each product's source, in order. */
    ghost var Cursors: seq<Cursor>
    ghost var Repr: set<object>

    ghost predicate Valid()
      reads this, Repr
    {
      && |apis| == |Cursors| == |productIds|
      && (forall i :: 0 <= i < |apis| ==> apis[i] in Repr)
      && (forall i, j :: 0 <= i < j < |apis| ==> apis[i] != apis[j])
      && (forall i :: 0 <= i < |apis| ==>
            apis[i].Valid() && apis[i].State() == Cursors[i] && Cursors[i].productId == productIds[i])
    }

    /** `__init__`: one source per product, each reading the clock once (`clock[i]` for product `i`). */
    constructor (productIds: seq<string>, lastNDays: int, clock: seq<int>)
      requires |clock| == |productIds|
      ensures Valid() && fresh(Repr)
      ensures this.productIds == productIds
      ensures |Cursors| == |productIds|
      ensures forall i :: 0 <= i < |productIds| ==> Cursors[i] == NewCursor(productIds[i], lastNDays, clock[i])
    {
      var created: seq<KrakenRestApi> := [];
      ghost var cursors: seq<Cursor> := [];
      for i := 0 to |productIds|
        invariant |created| == |cursors| == i
        invariant forall j :: 0 <= j < i ==> fresh(created[j])
        invariant forall j, l :: 0 <= j < l < i ==> created[j] != created[l]
        invariant forall j :: 0 <= j < i ==>
                    created[j].Valid() && created[j].State() == cursors[j] &&
                    cursors[j] == NewCursor(productIds[j], lastNDays, clock[j])
      {
        var api := new KrakenRestApi(productIds[i], lastNDays, clock[i]);
        created := created + [api];
        cursors := cursors + [api.State()];
      }
      this.productIds := productIds;
      apis := created;
      Cursors := cursors;
      Repr := set j | 0 <= j < |created| :: created[j];
    }

    /** `get_trades`: fetch from every product not yet done, in order; return the last page fetched. */
    method GetTrades(server: Server) returns (r: Result<seq<RestTrade>, FetchError>)
      requires Valid()
      modifies this, Repr
      ensures Valid() && Repr == old(Repr) && apis == old(apis) && productIds == old(productIds)
      ensures Outcome(Cursors, r) == Advance(old(Cursors), FetchWith(server), 0, [])
    {
      var trades: seq<RestTrade> := [];
      for i := 0 to |apis|
        invariant Valid() && Repr == old(Repr) && apis == old(apis) && productIds == old(productIds)
        invariant Advance(old(Cursors), FetchWith(server), 0, []) == Advance(Cursors, FetchWith(server), i, trades)
      {
        var done := apis[i].Done();
        if done {
          continue;
        }
        var page := FetchProduct(i, server);
        if page.Err? {
          return Err(page.error);
        }
        trades := page.value;
      }
      return Ok(trades);
    }

    /** The body of `get_trades` for product `i`, which is not done: fetch one page from its source. */
    method FetchProduct(i: nat, server: Server) returns (page: Result<seq<RestTrade>, FetchError>)
      requires Valid() && i < |apis|
      modifies this, apis[i]
      ensures Valid() && Repr == old(Repr) && apis == old(apis) && productIds == old(productIds)
      ensures Cursors == old(Cursors)[i := Fetch(old(Cursors)[i], server).0]
      ensures page == Fetch(old(Cursors)[i], server).1
    {
      page := apis[i].GetTrades(server);
      Cursors := Cursors[i := apis[i].State()];
    }

    /** `done`: every product's source is done (true when there are none). */
    method Done() returns (d: bool)
      requires Valid()
      ensures d <==> forall i :: 0 <= i < |Cursors| ==> Cursors[i].isDone
    {
      for i := 0 to |apis|
        invariant forall j :: 0 <= j < i ==> Cursors[j].isDone
      {
        var di := apis[i].Done();
        if !di {
          return false;
        }
      }
      return true;
    }
  }
}
