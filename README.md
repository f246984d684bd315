# Crypto price predictor: trade ingestion, candles and feature-store delivery, in Dafny

This project models the data path of the Crypto_price_predictor services, from
trades to stored features:

- **Historical trade source** (`KrakenRestAPI`, `KrakenRestAPIMultipleProducts`
  in `services/trade_producer/src/kraken_api/rest.py`). Module `KrakenRest`
  has a class per Python class:
  - a cursor per product, with a `[from_ms, to_ms]` window that ends at UTC
    midnight, a `last_ts_in_ms` position and a one-way `is_done` flag;
  - page fetching, with the client-side filter to `to_ms` and the exceptions
    that `get_trades` raises (`KeyError`, `IndexError`);
  - the multi-product wrapper, which skips done sources.
- **Live trade source** (`KrakenWebsocketTradeAPI` in
  `services/trade_producer/src/kraken_api/websocket.py`), in module
  `KrakenWebsocket`, with its helpers in other modules:
  - the subscribe request and the heartbeat filter;
  - decoding one frame into trades, with Python's order of evaluation and
    exceptions (`Frames`, `Json`, `Text`);
  - `to_ms`, the ISO-8601 timestamp to epoch milliseconds (`IsoTimestamp`
    with `Calendar`, which follows the arithmetic of Python's `datetime`).
- **Older single-product websocket client** (`services/trade_producer/src/kraken_api.py`),
  in module `KrakenApiLegacy`.
- **Candle reducer** (`services/trade_to_ohlc/src/main.py`), in module
  `TradeToOhlc`: `init_ohlc_candle` and `update_ohlc_candle` folded over one
  window's trades, and the reshaping into the output message.
- **Consumer loop** of `services/kafka_to_feature_store/src/main.py`, in
  module `KafkaToFeatureStore`. The broker consumer and the feature store are
  classes whose state the loop updates. A ghost log, to which the push and
  the offset store each append their own event, states the at-least-once
  discipline: an offset is stored only right after its message has been
  pushed.

The network, the clock and the broker are replaced by values:

- The REST endpoint is a function from the request (product, `since` in
  seconds) to the parsed response.
- `datetime.now()` is an integer of milliseconds, passed in.
- Each websocket frame is the raw text together with what `json.loads` makes
  of it.
- The broker's `poll(1)` results are a finite sequence.

Behaviour of the code that the model keeps as written:

- The historical cursor never advances. `get_trades` computes the last
  trade's time into a local variable, but never writes `self.last_ts_in_ms`.
  So every call sends the same request, and a product whose first page ends
  before `to_ms` is never done (`KrakenRest.SamePageForever`).
- One multi-product `get_trades` call fetches every product not yet done, in
  order, and returns only the page of the last one
  (`KrakenRest.AdvanceOkLast`).
- A filtered page that comes back empty raises `IndexError` at `trades[-1]`.
- A rate-limit response only makes the client sleep. The request is not
  repeated, and a response without `result` then raises `KeyError`.
- The feature-store loop pushes each decoded message on its own, and stores
  its offset right after the push. Empty polls, broker errors and undecodable
  JSON are skipped without storing an offset. A missing value, or one that is
  not UTF-8, raises out of the loop.

## Model

| member | source | states |
|---|---|---|
| KrakenRest.InitFromToMs | services/trade_producer/src/kraken_api/rest.py:86-107 | `to_ms` is a multiple of one day, at or before now and less than a day before it (UTC midnight). `from_ms` lies exactly `last_n_days` days before `to_ms`, and not after it when the count is non-negative |
| KrakenRest.NewCursor | services/trade_producer/src/kraken_api/rest.py:78-83 | a new cursor has the product, the window of `_init_from_to_ms`, `last_ts_in_ms == from_ms` and is not done |
| KrakenRest.KrakenRestApi.constructor | services/trade_producer/src/kraken_api/rest.py:64-84 | the object's state is `NewCursor(...)` for the clock reading, and the class invariant holds (midnight end, whole-day window, cursor at `from_ms`) |
| KrakenRest.SinceSec | services/trade_producer/src/kraken_api/rest.py:121 | the `since` parameter is the floor of the cursor in seconds: `s*1000 <= last_ts_in_ms < s*1000 + 1000` |
| KrakenRest.Trunc | services/trade_producer/src/kraken_api/rest.py:164 | `int()` truncates toward zero: the result lies within one of `x`, on the side of zero |
| KrakenRest.Stamp | services/trade_producer/src/kraken_api/rest.py:159-166 | one trade dict per row, in row order, carrying the client's product, the row's price and volume, and its time in whole milliseconds |
| KrakenRest.KeepUpTo | services/trade_producer/src/kraken_api/rest.py:169 | the filter keeps the trades at or before `to_ms`, in their original order: the result is a subsequence of the input, every element is within `to_ms`, and it is as long as the number of input positions within `to_ms`, so every such trade is kept, duplicates included. It is empty exactly when every trade is later than `to_ms` |
| KrakenRest.FetchPage | services/trade_producer/src/kraken_api/rest.py:159-173 | MissingResult is raised exactly when the response has no `result`, and MissingProduct exactly when it has no rows for the product. `IndexError` is raised exactly when every row is later than `to_ms`, and a page is returned exactly when some row of the product is at or before `to_ms`. A returned page is non-empty and is exactly `KeepUpTo` of the stamped rows: every row at or before `to_ms`, in order, stamped with the product |
| KrakenRest.Fetch | services/trade_producer/src/kraken_api/rest.py:119-185 | the request is sent with `SinceSec` of the cursor, and the result is `FetchPage` of the response. Only `is_done` can change. Once set it stays set, and it is set exactly when the page's last kept trade is at `to_ms` |
| KrakenRest.SamePageForever | services/trade_producer/src/kraken_api/rest.py:119-185 | any number of successive calls leaves the cursor as one call does, and a further call returns the same page again: the cursor never moves |
| KrakenRest.KrakenRestApi.GetTrades | services/trade_producer/src/kraken_api/rest.py:109-185 | the new state and the result are exactly `Fetch` of the old state. The class invariant is kept, so the cursor is still at `from_ms` |
| KrakenRest.KrakenRestApi.Done | services/trade_producer/src/kraken_api/rest.py:187-193 | returns `is_done` |
| KrakenRest.KrakenRestApiMultipleProducts.constructor | services/trade_producer/src/kraken_api/rest.py:12-26 | one source per product, in order, each a new cursor for its product and its own clock reading |
| KrakenRest.KrakenRestApiMultipleProducts.GetTrades | services/trade_producer/src/kraken_api/rest.py:30-44 | the cursors afterwards and the result are those of `Advance` over all products from the first, starting with an empty list |
| KrakenRest.KrakenRestApiMultipleProducts.FetchProduct | services/trade_producer/src/kraken_api/rest.py:43 | only product `i`'s cursor changes, to its fetched state, and the page is that fetch's result |
| KrakenRest.AdvanceFrame | services/trade_producer/src/kraken_api/rest.py:37-44 | a call leaves the cursors it has passed unchanged. Every other cursor is unchanged, or was live and is now the state after one fetch |
| KrakenRest.AdvanceAllDone | services/trade_producer/src/kraken_api/rest.py:37-44 | when every source is done, nothing is fetched and the list held so far is returned (`[]` for a whole call) |
| KrakenRest.AdvanceOkFetched | services/trade_producer/src/kraken_api/rest.py:37-44 | a call that returns has fetched every live source exactly once |
| KrakenRest.AdvanceOkLast | services/trade_producer/src/kraken_api/rest.py:37-44 | a call that returns gives back the page of the last live source only |
| KrakenRest.AdvanceErr | services/trade_producer/src/kraken_api/rest.py:37-44 | a call that raises raises what the first failing live source raised, after every live source before it succeeded |
| KrakenRest.KrakenRestApiMultipleProducts.Done | services/trade_producer/src/kraken_api/rest.py:46-57 | true exactly when every source is done (so true with no products) |
| KrakenWebsocket.SubscribeRequest | services/trade_producer/src/kraken_api/websocket.py:30-43 | the request is an object with exactly the keys `method` and `params`, and `params` has exactly `channel`, `symbol` and `snapshot`. The method is `subscribe`, the channel `trade`, snapshot false, and the symbol list is the product ids, in order |
| KrakenWebsocket.KrakenWebsocketTradeApi.constructor | services/trade_producer/src/kraken_api/websocket.py:16-28 | the client has sent exactly the subscribe request for its products, and is not done |
| KrakenWebsocket.AsFloat | services/trade_producer/src/kraken_api/websocket.py:75-76 | `float()` converts integers and floats to their value, `True` to 1.0 and `False` to 0.0. Values that are not numbers or booleans fail |
| KrakenWebsocket.TimestampOf | services/trade_producer/src/kraken_api/websocket.py:70 | succeeds exactly when `timestamp` is present, is a string and is accepted by `to_ms`, and then yields `to_ms` of it |
| KrakenWebsocket.FloatField | services/trade_producer/src/kraken_api/websocket.py:75-76 | succeeds exactly when the key is present and `float()` accepts its value, and then yields that value |
| KrakenWebsocket.DecodeTrade | services/trade_producer/src/kraken_api/websocket.py:68-79 | a trade decodes exactly when its timestamp, string `symbol`, `price` and `qty` all do. The trade then carries the symbol, the price, `qty` as its volume, and `to_ms` of the timestamp |
| KrakenWebsocket.DecodeFrame | services/trade_producer/src/kraken_api/websocket.py:50-87 | a frame containing `heartbeat` yields no trades, and any other frame that is not JSON raises |
| KrakenWebsocket.FrameTrades | services/trade_producer/src/kraken_api/websocket.py:61-87 | a frame that is not a heartbeat decodes exactly when it parsed, its `data` is iterable and every element decodes. It then yields one trade per element, in order, each the decoding of its element |
| KrakenWebsocket.KrakenWebsocketTradeApi.GetTrades | services/trade_producer/src/kraken_api/websocket.py:50-87 | the loop returns exactly what `DecodeFrame` specifies for the received frame, including the first element's exception |
| KrakenWebsocket.KrakenWebsocketTradeApi.Done | services/trade_producer/src/kraken_api/websocket.py:89-95 | a live source is never done |
| Frames.Index | services/trade_producer/src/kraken_api/websocket.py:68 | `v[key]` succeeds exactly when `v` is an object with a field named `key`, and then yields the value of the last such field. Otherwise it raises `KeyError` for an object and `TypeError` for anything else |
| Frames.DecodeEachOk | services/trade_producer/src/kraken_api/websocket.py:67-87 | the loop succeeds exactly when every element decodes, and then yields one result per element, in order |
| Frames.DecodeEachErr | services/trade_producer/src/kraken_api/websocket.py:67-87 | a failing loop raises the exception of the first element that fails, after every earlier element decoded |
| Text.Contains | services/trade_producer/src/kraken_api/websocket.py:56 | `'heartbeat' in message` holds exactly when the pattern occurs at some position of the text |
| Json.Lookup | services/trade_producer/src/kraken_api/websocket.py:61-68 | a key is absent exactly when no field has it. Otherwise the lookup yields the value of the last field with that key, as `json.loads` keeps the last binding |
| Json.Elements | services/trade_producer/src/kraken_api/websocket.py:68 | iteration yields a list's items, a string's characters as one-character strings, or a dict's keys once each, in the order they first occur. Nothing else is iterable |
| IsoTimestamp.AssembleFields | services/trade_producer/src/kraken_api/websocket.py:114 | digit groups of the right widths, joined by any separator character, have the shape `fromisoformat` reads, and its fields are the groups' values |
| IsoTimestamp.FormatRoundTrip | services/trade_producer/src/kraken_api/websocket.py:97-115 | reading back a valid date-time written as `YYYY-MM-DDTHH:MM:SS.ffffffZ` gives the date-time again and its epoch milliseconds |
| IsoTimestamp.ParseFormat | services/trade_producer/src/kraken_api/websocket.py:114 | conversely, a 26-character `T`-separated string that `fromisoformat` accepts is exactly what that format writes for the parsed value, less the `Z` |
| IsoTimestamp.ToMsMonotone | services/trade_producer/src/kraken_api/websocket.py:97-115 | of two accepted timestamps, the later one converts to at least as many milliseconds |
| IsoTimestamp.ExampleParse | services/trade_producer/src/kraken_api/websocket.py:110-114 | the docstring's timestamp parses to 2024-06-17 09:36:39.467866 |
| IsoTimestamp.DocstringExample | services/trade_producer/src/kraken_api/websocket.py:97-115 | `to_ms('2024-06-17T09:36:39.467866Z')` is 1718616999467 |
| Calendar.MicrosToMs | services/trade_producer/src/kraken_api/websocket.py:115 | `int(... * 1000)` of a whole number of microseconds drops the sub-millisecond part toward zero, on both sides of the epoch |
| Calendar.YearLength | services/trade_producer/src/kraken_api/websocket.py:114 | consecutive years start 365 days apart, or 366 days apart for a Gregorian leap year |
| Calendar.OrdinalIncreasing | services/trade_producer/src/kraken_api/websocket.py:114 | a later valid date has a larger day number |
| Calendar.EpochMicrosMonotone | services/trade_producer/src/kraken_api/websocket.py:114-115 | a later valid date-time is a strictly larger number of microseconds |
| Calendar.EpochMsMonotone | services/trade_producer/src/kraken_api/websocket.py:114-115 | a later valid date-time converts to at least as many milliseconds |
| Calendar.EpochStart | services/trade_producer/src/kraken_api/websocket.py:114-115 | 1970-01-01T00:00:00 with UTC attached is millisecond 0 |
| KrakenApiLegacy.KrakenWebsocketTradeApi.constructor | services/trade_producer/src/kraken_api.py:14-40 | the client has sent exactly the subscribe request for its one product |
| KrakenApiLegacy.DecodeEntry | services/trade_producer/src/kraken_api.py:59-68 | an element decodes exactly when `price`, `qty` and `timestamp` are all present. The record carries the client's product and those three values unconverted. A non-object raises `TypeError` |
| KrakenApiLegacy.DecodeFrame | services/trade_producer/src/kraken_api.py:42-69 | a frame containing `heartbeat` yields no records, and any other frame that is not JSON raises |
| KrakenApiLegacy.FrameTrades | services/trade_producer/src/kraken_api.py:53-69 | a frame that is not a heartbeat decodes exactly when it parsed, its `data` is iterable and every element has `price`, `qty` and `timestamp`. It then yields one record per element, in order. Each record has the client's product, not the message's symbol, and the element's own `price`, `qty` and `timestamp` values |
| KrakenApiLegacy.KrakenWebsocketTradeApi.GetTrades | services/trade_producer/src/kraken_api.py:42-69 | the loop returns exactly what `DecodeFrame` specifies for the received frame |
| TradeToOhlc.InitCandle | services/trade_to_ohlc/src/main.py:37-51 | the first trade opens a flat candle at its price, with its product |
| TradeToOhlc.UpdateCandle | services/trade_to_ohlc/src/main.py:52-73 | open is kept and close becomes the trade's price. High is the larger and low the smaller of the old value and the price. The product is the trade's, and a consistent candle stays consistent |
| TradeToOhlc.ReduceIsOhlc | services/trade_to_ohlc/src/main.py:75-79 | a window's candle opens at the first price and closes at the last. Its high and low are the largest and the smallest price, each attained by some trade. Its product is the last trade's |
| TradeToOhlc.ReduceRangeGrows | services/trade_to_ohlc/src/main.py:75-79 | folding in more trades keeps the open, never lowers the high and never raises the low |
| TradeToOhlc.ToMessage | services/trade_to_ohlc/src/main.py:99-115 | the output message has exactly the keys `timestamp, open, high, low, close, product_id`, in that order |
| TradeToOhlc.MessageRoundTrip | services/trade_to_ohlc/src/main.py:99-115 | reading the message back gives the window's end as timestamp and the candle's prices and product unchanged |
| TradeToOhlc.CandleMessage | services/trade_to_ohlc/src/main.py:75-115 | the message of a closed window carries the window's end and opens at the first price, closes at the last. Its low and high bound every price, and its product is the last trade's |
| KafkaToFeatureStore.StepEvents | services/kafka_to_feature_store/src/main.py:36-68 | a turn does nothing unless the message arrived, has no error and decodes. If so, it pushes the record to the named group and version as `online`, and then stores the offset of the same message |
| KafkaToFeatureStore.FirstCrash | services/kafka_to_feature_store/src/main.py:36-68 | the loop gets through exactly the polls before the first one whose value is missing or not UTF-8 |
| KafkaToFeatureStore.Pushes | services/kafka_to_feature_store/src/main.py:53-58 | every push goes to the configured feature group and version, `online` |
| KafkaToFeatureStore.TracePaired | services/kafka_to_feature_store/src/main.py:53-68 | the log of any run alternates push and store, and every offset store comes right after the push of the same message |
| KafkaToFeatureStore.TracePushes | services/kafka_to_feature_store/src/main.py:36-58 | the pushes of a run are exactly the decoded polls' records, in poll order |
| KafkaToFeatureStore.TraceStores | services/kafka_to_feature_store/src/main.py:36-68 | the stored offsets of a run are exactly the decoded polls' offsets, in poll order |
| KafkaToFeatureStore.OffsetsMatchPushes | services/kafka_to_feature_store/src/main.py:53-68 | a run stores as many offsets as it pushes records |
| KafkaToFeatureStore.StoresMatchPushes | services/kafka_to_feature_store/src/main.py:53-68 | the log of a run holds as many offset stores as pushes |
| KafkaToFeatureStore.Consumer.constructor | services/kafka_to_feature_store/src/main.py:25-33 | consumer group `kafka_to_feature_store`, offset reset `earliest`, no topics and no stored offsets |
| KafkaToFeatureStore.Consumer.Subscribe | services/kafka_to_feature_store/src/main.py:34 | the topics are replaced and the stored offsets are unchanged |
| KafkaToFeatureStore.Consumer.StoreOffsets | services/kafka_to_feature_store/src/main.py:68 | the message's offset is appended to the stored offsets, and an offset-store event for it to the shared log |
| KafkaToFeatureStore.FeatureStore.Push | services/kafka_to_feature_store/src/main.py:53-58 | the request is appended to what the store received, and a push event for it to the shared log |
| KafkaToFeatureStore.HandlePoll | services/kafka_to_feature_store/src/main.py:37-68 | one turn raises exactly for a missing value or one that is not UTF-8; a value that is not JSON is skipped. What the push and the store calls append to the shared log is the turn's `StepEvents`: a push and then the store of the same offset exactly for a message that arrived without error and parses as JSON, nothing otherwise. It changes nothing else |
| KafkaToFeatureStore.PollLoop | services/kafka_to_feature_store/src/main.py:36-68 | the loop handles the polls up to the first that raises, and reports whether one did. The stored offsets and the pushes it adds are those of the handled polls, in order, and what the calls appended to the shared log is their trace |
| KafkaToFeatureStore.KafkaToFeatureStore | services/kafka_to_feature_store/src/main.py:8-68 | a new consumer with the application's settings, subscribed to the one topic. Its stored offsets and the store's new pushes are those of the handled polls, and the shared log gains their trace |

## Left out

- The network, `sleep` and logging are left out. The REST endpoint, the
  websocket's received frames and the broker's polls are parameters, and no
  waiting is modelled (including the 30-second back-off of rest.py:140-143).
- The REST endpoint is a pure function of the request: the same
  (product, `since`) gets the same page. Historical trades do not change, and
  this is what lets `KrakenRest.SamePageForever` state that the cursor
  never moves.
- The two replies that `_subscribe` reads and discards are left out. So is
  the URL string `get_trades` formats for its request.
- Prices and volumes are exact reals. Floating-point rounding, including in
  `int(trade[2] * 1000)`, is not modelled.
- `KrakenRest.FetchPage`: the rows are already-parsed numbers. The
  `float(trade[0])` and `float(trade[1])` conversions of Kraken's decimal
  strings are taken to succeed.
- `KrakenWebsocket.AsFloat`: `float()` of a string is taken to fail. Python
  parses numeric strings, but the v2 trade channel sends `price` and `qty` as
  JSON numbers.
- `IsoTimestamp.ParseIso` covers only the full `YYYY-MM-DD?HH:MM:SS[.fff|.ffffff]`
  form of `fromisoformat`, and rejects every other string. Python accepts
  date-only strings, times without seconds or with fewer fields, and UTC
  offsets, and from version 3.11 on, fraction widths other than 3 and 6.
  The timestamps Kraken sends have the full form.
- `json.loads` is not modelled: a frame carries its parsed value, or none if
  parsing fails. For the same reason, `json.dumps` of the subscribe request
  is the request's JSON value.
- services/trade_producer/src/kraken_api/trade.py is not part of this model.
  Its `Trade` is taken to accept a string product and numbers.
- services/kafka_to_feature_store/src/hopsworks_api.py is not part of this
  model: a push always succeeds and is recorded in order.
- `KafkaToFeatureStore.Consumer.StoreOffsets`: `stored` is the log of
  `store_offsets` calls, one message offset per call. The broker keeps one
  position per partition and stores `offset + 1` there; partitions and the
  `+ 1` are not modelled.
- The streaming library's tumbling windows, their start and end, and
  `.final()` are not modelled. A window arrives as its list of trades and its
  bounds. The quixstreams application of trade_to_ohlc, its topics and
  `logger.info` updates are also left out.
- The consumer loop goes over a finite sequence of polls, whereas the
  service loops until an exception. The second `msg.value()` call at
  main.py:60 has no effect and is left out.
- The other services are not part of this model: the feature engineering,
  the dashboard, the predictor, the configuration readers and the producer's
  main.
