/**
 * `KrakenWebsoceketTradeAPI` (services/trade_producer/src/kraken_api.py): the
 * older live source for a single product. It stamps every trade with its own
 * product and copies `price`, `qty` and `timestamp` without conversion.
 */
module KrakenApiLegacy {
  import opened Wrappers
  import opened Json
  import opened Frames
  import KrakenWebsocket

  /** One output dict: the values are the message's own JSON values, unconverted. */
  datatype LegacyTrade = LegacyTrade(productId: string, price: Json, volume: Json, timestamp: Json)

  /**
   * The dict built for one element of `data`; Python evaluates `price`, then
   * `qty`, then `timestamp`, so the first missing key is the one reported.
   */
  function DecodeEntry(productId: string, e: Json): (r: Result<LegacyTrade, DecodeError>)
    ensures r.Ok? <==> Get(e, "price").Some? && Get(e, "qty").Some? && Get(e, "timestamp").Some?
    ensures r.Ok? ==>
              && r.value.productId == productId
              && r.value.price == Get(e, "price").value
              && r.value.volume == Get(e, "qty").value
              && r.value.timestamp == Get(e, "timestamp").value
    ensures r.Err? && !e.JObj? ==> r.error == NotSubscriptable
  {
    match Index(e, "price")
    case Err(err) => Err(err)
    case Ok(price) =>
      match Index(e, "qty")
      case Err(err) => Err(err)
      case Ok(qty) =>
        match Index(e, "timestamp")
        case Err(err) => Err(err)
        case Ok(ts) => Ok(LegacyTrade(productId, price, qty, ts))
  }

  /** The loop body of `get_trades` for the instance's `product_id`. */
  function Decoder(productId: string): Json -> Result<LegacyTrade, DecodeError>
  {
    e => DecodeEntry(productId, e)
  }

  /** What `get_trades` returns (or raises) for a received frame. */
  function DecodeFrame(productId: string, f: Frame): (r: Result<seq<LegacyTrade>, DecodeError>)
    ensures IsHeartbeat(f.text) ==> r == Ok([])
    ensures !IsHeartbeat(f.text) && f.parsed.None? ==> r == Err(NotJson)
  {
    if IsHeartbeat(f.text) then Ok([])
    else match f.parsed
      case None => Err(NotJson)
      case Some(message) =>
        match Index(message, "data")
        case Err(err) => Err(err)
        case Ok(data) =>
          match Iterate(data)
          case Err(err) => Err(err)
          case Ok(items) => DecodeEach(items, Decoder(productId))
  }

  /**
   * A frame that is not a heartbeat decodes exactly when it parsed, its
   * `data` is iterable and every element has `price`, `qty` and `timestamp`;
   * it then has one record per element, in order, each carrying the client's
   * product (not the message's `symbol`) and the element's `price`, `qty` and
   * `timestamp` values as they were.
   */
  lemma FrameTrades(productId: string, f: Frame)
    requires !IsHeartbeat(f.text)
    ensures DecodeFrame(productId, f).Ok? <==>
              DataItems(f).Some? &&
              forall k :: 0 <= k < |DataItems(f).value| ==>
                Get(DataItems(f).value[k], "price").Some? && Get(DataItems(f).value[k], "qty").Some? &&
                Get(DataItems(f).value[k], "timestamp").Some?
    ensures DecodeFrame(productId, f).Ok? ==>
              var items := DataItems(f).value;
              var trades := DecodeFrame(productId, f).value;
              && |trades| == |items|
              && forall k :: 0 <= k < |trades| ==>
                   && trades[k].productId == productId
                   && Get(items[k], "price") == Some(trades[k].price)
                   && Get(items[k], "qty") == Some(trades[k].volume)
                   && Get(items[k], "timestamp") == Some(trades[k].timestamp)
  {
    if DataItems(f).Some? {
      var items := DataItems(f).value;
      DecodeEachOk(items, Decoder(productId));
      forall k | 0 <= k < |items|
        ensures DecodeEntry(productId, items[k]) == Decoder(productId)(items[k])
      {
      }
    }
  }

  class KrakenWebsocketTradeApi {
    const productId: string
    /** Requests sent on the connection, oldest first. */
    var sent: seq<Json>

    /** `__init__`: connect and subscribe to the trade channel of the one product. */
    constructor (productId: string)
      ensures this.productId == productId
      ensures sent == [KrakenWebsocket.SubscribeRequest([productId])]
    {
      this.productId := productId;
      sent := [KrakenWebsocket.SubscribeRequest([productId])];
    }

    /** `get_trades` for the frame `ws.recv()` returned; nothing in the client changes. */
    method GetTrades(frame: Frame) returns (r: Result<seq<LegacyTrade>, DecodeError>)
      ensures r == DecodeFrame(productId, frame)
    {
      if IsHeartbeat(frame.text) {
        return Ok([]);
      }
      if frame.parsed.None? {
        return Err(NotJson);
      }
      var data := Index(frame.parsed.value, "data");
      if data.Err? {
        return Err(data.error);
      }
      var iter := Iterate(data.value);
      if iter.Err? {
        return Err(iter.error);
      }
      var items := iter.value;
      var trades: seq<LegacyTrade> := [];
      for i := 0 to |items|
        invariant DecodeEach(items[..i], Decoder(productId)) == Ok(trades)
      {
        DecodeEachNext(items, i, Decoder(productId));
        var t := DecodeEntry(productId, items[i]);
        if t.Err? {
          DecodeEachStops(items, i + 1, Decoder(productId));
          return Err(t.error);
        }
        trades := trades + [t.value];
      }
      assert items[..|items|] == items;
      return Ok(trades);
    }
  }
}
