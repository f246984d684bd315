/**
 * `KrakenWebsocketTradeAPI` (services/trade_producer/src/kraken_api/websocket.py):
 * the live trade source for several products over Kraken's v2 websocket.
 * The connection is not modelled: each received frame is a parameter, and
 * the client records the requests it sends.
 */
module KrakenWebsocket {
  import opened Wrappers
  import opened Json
  import opened Frames
  import IsoTimestamp

  /**
   * The fields handed to `kraken_api.trade.Trade` (kraken_api/trade.py is not
   * part of this model; its fields are taken to be a string and three numbers).
   */
  datatype Trade = Trade(productId: string, price: real, volume: real, timestampMs: int)

  /** The subscribe request `_subscribe` sends for `productIds`. */
  function SubscribeRequest(productIds: seq<string>): (m: Json)
    ensures m.JObj? && Keys(m) == ["method", "params"]
    ensures Get(m, "method") == Some(JStr("subscribe"))
    ensures Get(m, "params").Some?
    ensures var params := Get(m, "params").value;
            params.JObj? && Keys(params) == ["channel", "symbol", "snapshot"]
    ensures var params := Get(m, "params").value;
            && Get(params, "channel") == Some(JStr("trade"))
            && Get(params, "snapshot") == Some(JBool(false))
            && Get(params, "symbol").Some? && Get(params, "symbol").value.JArr?
            && |Get(params, "symbol").value.items| == |productIds|
            && forall k :: 0 <= k < |productIds| ==> Get(params, "symbol").value.items[k] == JStr(productIds[k])
  {
    var symbols := seq(|productIds|, k requires 0 <= k < |productIds| => JStr(productIds[k]));
    var params := [("channel", JStr("trade")), ("symbol", JArr(symbols)), ("snapshot", JBool(false))];
    var request := [("method", JStr("subscribe")), ("params", JObj(params))];
    LookupDistinct(params, 0);
    LookupDistinct(params, 1);
    LookupDistinct(params, 2);
    LookupDistinct(request, 0);
    LookupDistinct(request, 1);
    JObj(request)
  }

  /** `float(v)` on a parsed JSON value: numbers and booleans convert, other values raise. */
  function AsFloat(v: Json): (r: Option<real>)
    ensures v.JInt? ==> r == Some(v.i as real)
    ensures v.JFloat? ==> r == Some(v.f)
    ensures v.JBool? ==> r == Some(if v.b then 1.0 else 0.0)
    ensures !(v.JInt? || v.JFloat? || v.JBool?) ==> r.None?
  {
    match v
    case JInt(i) => Some(i as real)
    case JFloat(f) => Some(f)
    case JBool(b) => Some(if b then 1.0 else 0.0)
    case _ => None
  }

  /** `self.to_ms(trade['timestamp'])`: the value must be a string `to_ms` accepts. */
  function TimestampOf(e: Json): (r: Result<int, DecodeError>)
    ensures r.Ok? <==> Get(e, "timestamp").Some? && Get(e, "timestamp").value.JStr?
                       && IsoTimestamp.ToMs(Get(e, "timestamp").value.s).Ok?
    ensures r.Ok? ==> r.value == IsoTimestamp.ToMs(Get(e, "timestamp").value.s).value
  {
    match Index(e, "timestamp")
    case Err(err) => Err(err)
    case Ok(ts) =>
      if !ts.JStr? then Err(WrongType("timestamp"))
      else match IsoTimestamp.ToMs(ts.s)
        case Ok(ms) => Ok(ms)
        case Err(_) => Err(BadTimestamp)
  }

  /** `float(trade[key])`. */
  function FloatField(e: Json, key: string): (r: Result<real, DecodeError>)
    ensures r.Ok? <==> Get(e, key).Some? && AsFloat(Get(e, key).value).Some?
    ensures r.Ok? ==> r.value == AsFloat(Get(e, key).value).value
  {
    match Index(e, key)
    case Err(err) => Err(err)
    case Ok(v) =>
      match AsFloat(v)
      case Some(x) => Ok(x)
      case None => Err(WrongType(key))
  }

  /**
   * The body of the loop in `get_trades` for one element of `data`, with
   * Python's order of evaluation: the timestamp first, then `symbol`, `price`
   * and `qty`, then the validation of `symbol` as a string by `Trade`.
   */
  function DecodeTrade(e: Json): (r: Result<Trade, DecodeError>)
    ensures r.Ok? <==>
              && TimestampOf(e).Ok?
              && Get(e, "symbol").Some? && Get(e, "symbol").value.JStr?
              && FloatField(e, "price").Ok? && FloatField(e, "qty").Ok?
    ensures r.Ok? ==>
              && r.value.productId == Get(e, "symbol").value.s
              && r.value.price == FloatField(e, "price").value
              && r.value.volume == FloatField(e, "qty").value
              && r.value.timestampMs == TimestampOf(e).value
  {
    match TimestampOf(e)
    case Err(err) => Err(err)
    case Ok(ms) =>
      match Index(e, "symbol")
      case Err(err) => Err(err)
      case Ok(symbol) =>
        match FloatField(e, "price")
        case Err(err) => Err(err)
        case Ok(price) =>
          match FloatField(e, "qty")
          case Err(err) => Err(err)
          case Ok(qty) =>
            if symbol.JStr? then Ok(Trade(symbol.s, price, qty, ms)) else Err(WrongType("symbol"))
  }

  /** What `get_trades` returns (or raises) for a received frame. */
  function DecodeFrame(f: Frame): (r: Result<seq<Trade>, DecodeError>)
    ensures IsHeartbeat(f.text) ==> r == Ok([])
    ensures !IsHeartbeat(f.text) && f.parsed.None? ==> r == Err(NotJson)
  {
    if IsHeartbeat(f.text) then Ok([])
    else match f.parsed
      case None => Err(NotJson)
      case Some(message) =>
        match Index(message, "data")
        case Err(err) => Err(err)
        case Ok(data) =>
          match Iterate(data)
          case Err(err) => Err(err)
          case Ok(items) => DecodeEach(items, DecodeTrade)
  }

  /**
   * A frame that is not a heartbeat decodes exactly when it parsed, its
   * `data` is iterable and every element of it decodes; it then yields one
   * trade per element, in order, each the decoding of its element (so its
   * product is the element's `symbol`, its volume the `qty`, its time `to_ms`
   * of the `timestamp`, by `DecodeTrade`).
   */
  lemma FrameTrades(f: Frame)
    requires !IsHeartbeat(f.text)
    ensures DecodeFrame(f).Ok? <==>
              DataItems(f).Some? && forall k :: 0 <= k < |DataItems(f).value| ==> DecodeTrade(DataItems(f).value[k]).Ok?
    ensures DecodeFrame(f).Ok? ==>
              var items := DataItems(f).value;
              var trades := DecodeFrame(f).value;
              && |trades| == |items|
              && forall k :: 0 <= k < |trades| ==> DecodeTrade(items[k]) == Ok(trades[k])
  {
    if DataItems(f).Some? {
      DecodeEachOk(DataItems(f).value, DecodeTrade);
    }
  }

  class KrakenWebsocketTradeApi {
    const productIds: seq<string>
    /** Requests sent on the connection, oldest first. */
    var sent: seq<Json>
    var isDone: bool

    /** `is_done` is set once, at construction, and never written again. */
    ghost predicate Valid()
      reads this
    {
      !isDone
    }

    /** `__init__`: connect, subscribe to the trade channel of every product, clear `is_done`. */
    constructor (productIds: seq<string>)
      ensures Valid()
      ensures this.productIds == productIds
      ensures sent == [SubscribeRequest(productIds)]
    {
      this.productIds := productIds;
      sent := [SubscribeRequest(productIds)];
      isDone := false;
    }

    /** `get_trades` for the frame `ws.recv()` returned; nothing in the client changes. */
    method GetTrades(frame: Frame) returns (r: Result<seq<Trade>, DecodeError>)
      ensures r == DecodeFrame(frame)
    {
      if IsHeartbeat(frame.text) {
        return Ok([]);
      }
      if frame.parsed.None? {
        return Err(NotJson);
      }
      var data := Index(frame.parsed.value, "data");
      if data.Err? {
        return Err(data.error);
      }
      var iter := Iterate(data.value);
      if iter.Err? {
        return Err(iter.error);
      }
      var items := iter.value;
      var trades: seq<Trade> := [];
      for i := 0 to |items|
        invariant DecodeEach(items[..i], DecodeTrade) == Ok(trades)
      {
        DecodeEachNext(items, i, DecodeTrade);
        var t := DecodeTrade(items[i]);
        if t.Err? {
          DecodeEachStops(items, i + 1, DecodeTrade);
          return Err(t.error);
        }
        trades := trades + [t.value];
      }
      assert items[..|items|] == items;
      return Ok(trades);
    }

    /** `done`: a live source is never exhausted. */
    method Done() returns (d: bool)
      requires Valid()
      ensures !d
    {
      d := isDone;
    }
  }
}
