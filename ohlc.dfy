/**
 * The candle reducer of services/trade_to_ohlc/src/main.py: `init_ohlc_candle`
 * and `update_ohlc_candle` folded over the trades of one tumbling window, and
 * the reshaping of the window result into the output message.
 *
 * Which trades fall into which window, and the window's `start`/`end`, are
 * decided by the streaming library; a window is taken here as given.
 */
module TradeToOhlc {
  import opened Wrappers
  import opened Json

  /** The keys of an incoming trade message the reducer reads. */
  datatype TradeValue = TradeValue(productId: string, price: real)

  /** The reduced value of one window. */
  datatype Candle = Candle(open: real, high: real, low: real, close: real, productId: string)

  /** A closed window as the library hands it on: `{start, end, value}`. */
  datatype WindowResult = WindowResult(start: int, end: int, value: Candle)

  /** The fields of an output message. */
  datatype OhlcRecord = OhlcRecord(timestamp: int, open: real, high: real, low: real, close: real, productId: string)

  /** The candle invariant: open and close lie between low and high. */
  predicate Consistent(c: Candle)
  {
    c.low <= c.open <= c.high && c.low <= c.close <= c.high
  }

  /** `init_ohlc_candle`: the first trade of a window. */
  function InitCandle(t: TradeValue): (c: Candle)
    ensures Consistent(c)
    ensures c.open == c.high == c.low == c.close == t.price
    ensures c.productId == t.productId
  {
    Candle(t.price, t.price, t.price, t.price, t.productId)
  }

  /** `update_ohlc_candle`: fold one more trade into the candle. */
  function UpdateCandle(c: Candle, t: TradeValue): (r: Candle)
    ensures r.open == c.open && r.close == t.price && r.productId == t.productId
    ensures c.high <= r.high && t.price <= r.high && (r.high == c.high || r.high == t.price)
    ensures r.low <= c.low && r.low <= t.price && (r.low == c.low || r.low == t.price)
    ensures Consistent(c) ==> Consistent(r)
  {
    Candle(c.open,
           if c.high >= t.price then c.high else t.price,
           if c.low <= t.price then c.low else t.price,
           t.price,
           t.productId)
  }

  /** `reduce(reducer=update_ohlc_candle, initializer=init_ohlc_candle)` over a window's trades, in arrival order. */
  function Reduce(trades: seq<TradeValue>): Candle
    requires |trades| > 0
  {
    if |trades| == 1 then InitCandle(trades[0])
    else UpdateCandle(Reduce(trades[..|trades| - 1]), trades[|trades| - 1])
  }

  /**
   * The reduced candle of a window: open is the first price, close the last,
   * high the largest and low the smallest price, and the product that of the
   * last trade.
   */
  lemma {:induction false} ReduceIsOhlc(trades: seq<TradeValue>)
    requires |trades| > 0
    ensures var c := Reduce(trades);
            && c.open == trades[0].price
            && c.close == trades[|trades| - 1].price
            && c.productId == trades[|trades| - 1].productId
            && (forall k :: 0 <= k < |trades| ==> c.low <= trades[k].price <= c.high)
            && (exists k :: 0 <= k < |trades| && c.high == trades[k].price)
            && (exists k :: 0 <= k < |trades| && c.low == trades[k].price)
            && Consistent(c)
  {
    if |trades| > 1 {
      var init := trades[..|trades| - 1];
      ReduceIsOhlc(init);
      assert forall k :: 0 <= k < |init| ==> init[k] == trades[k];
      var c0 := Reduce(init);
      var c := Reduce(trades);
      if c.high == c0.high {
        var k :| 0 <= k < |init| && c0.high == init[k].price;
        assert c.high == trades[k].price;
      }
      if c.low == c0.low {
        var k :| 0 <= k < |init| && c0.low == init[k].price;
        assert c.low == trades[k].price;
      }
    }
  }

  /** Folding in more trades never lowers the high nor raises the low. */
  lemma {:induction false} ReduceRangeGrows(trades: seq<TradeValue>, n: nat)
    requires 0 < n <= |trades|
    ensures Reduce(trades[..n]).high <= Reduce(trades).high
    ensures Reduce(trades).low <= Reduce(trades[..n]).low
    ensures Reduce(trades[..n]).open == Reduce(trades).open
  {
    if n < |trades| {
      var init := trades[..|trades| - 1];
      assert init[..n] == trades[..n];
      ReduceRangeGrows(init, n);
    } else {
      assert trades[..n] == trades;
    }
  }

  /** The output message: `timestamp` is the window's end, the prices are the candle's. */
  function ToMessage(w: WindowResult): (m: Json)
    ensures Keys(m) == ["timestamp", "open", "high", "low", "close", "product_id"]
  {
    JObj([("timestamp", JInt(w.end)),
          ("open", JFloat(w.value.open)),
          ("high", JFloat(w.value.high)),
          ("low", JFloat(w.value.low)),
          ("close", JFloat(w.value.close)),
          ("product_id", JStr(w.value.productId))])
  }

  /** Reading an output message back, as the downstream consumer sees it. */
  function FromMessage(m: Json): Option<OhlcRecord>
  {
    match (Get(m, "timestamp"), Get(m, "open"), Get(m, "high"), Get(m, "low"), Get(m, "close"), Get(m, "product_id"))
    case (Some(JInt(ts)), Some(JFloat(o)), Some(JFloat(h)), Some(JFloat(l)), Some(JFloat(c)), Some(JStr(p))) =>
      Some(OhlcRecord(ts, o, h, l, c, p))
    case _ => None
  }

  /** The first three fields of an output message are found under their keys. */
  lemma MessageHead(w: WindowResult)
    ensures Get(ToMessage(w), "timestamp") == Some(JInt(w.end))
    ensures Get(ToMessage(w), "open") == Some(JFloat(w.value.open))
    ensures Get(ToMessage(w), "high") == Some(JFloat(w.value.high))
  {
    var fs := ToMessage(w).fields;
    LookupDistinct(fs, 0);
    LookupDistinct(fs, 1);
    LookupDistinct(fs, 2);
  }

  /** The last three fields of an output message are found under their keys. */
  lemma MessageTail(w: WindowResult)
    ensures Get(ToMessage(w), "low") == Some(JFloat(w.value.low))
    ensures Get(ToMessage(w), "close") == Some(JFloat(w.value.close))
    ensures Get(ToMessage(w), "product_id") == Some(JStr(w.value.productId))
  {
    var fs := ToMessage(w).fields;
    LookupDistinct(fs, 3);
    LookupDistinct(fs, 4);
    LookupDistinct(fs, 5);
  }

  /** The message carries the window end and the candle unchanged: decoding it gives them back. */
  lemma MessageRoundTrip(w: WindowResult)
    ensures FromMessage(ToMessage(w)) ==
              Some(OhlcRecord(w.end, w.value.open, w.value.high, w.value.low, w.value.close, w.value.productId))
  {
    MessageHead(w);
    MessageTail(w);
  }

  /** One closed window of trades, reduced and reshaped into its output message. */
  function CandleMessage(start: int, end: int, trades: seq<TradeValue>): (m: Json)
    requires |trades| > 0
    ensures FromMessage(m).Some?
    ensures var rec := FromMessage(m).value;
            && rec.timestamp == end
            && rec.open == trades[0].price
            && rec.close == trades[|trades| - 1].price
            && rec.low <= rec.open <= rec.high && rec.low <= rec.close <= rec.high
            && (forall k :: 0 <= k < |trades| ==> rec.low <= trades[k].price <= rec.high)
            && rec.productId == trades[|trades| - 1].productId
  {
    var w := WindowResult(start, end, Reduce(trades));
    ReduceIsOhlc(trades);
    MessageRoundTrip(w);
    ToMessage(w)
  }
}
