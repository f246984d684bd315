/**
 * What both websocket clients do with a received text frame before they look
 * at individual trades: the heartbeat test on the raw text, and the Python
 * indexing and iteration they apply to the parsed message.
 */
module Frames {
  import opened Wrappers
  import opened Json
  import Text

  /**
   * One frame from `ws.recv()`: its raw text and what `json.loads` makes of
   * that text (`None` when `json.loads` raises).
   */
  datatype Frame = Frame(text: string, parsed: Option<Json>)

  /** The exception a client raises while turning a frame into trades. */
  datatype DecodeError =
    | NotJson                  // json.JSONDecodeError from json.loads
    | MissingKey(key: string)  // KeyError from v[key] on an object
    | NotSubscriptable         // TypeError from v[key] on a non-object
    | NotIterable              // TypeError from `for x in v`
    | WrongType(key: string)   // the value under `key` is rejected by float(), slicing or validation
    | BadTimestamp             // ValueError from datetime.fromisoformat

  /** `'heartbeat' in message` on the raw text. */
  predicate IsHeartbeat(text: string)
  {
    Text.Contains(text, "heartbeat")
  }

  /** `v[key]` with Python's exceptions. */
  function Index(v: Json, key: string): (r: Result<Json, DecodeError>)
    ensures r.Ok? <==> v.JObj? && exists i :: 0 <= i < |v.fields| && v.fields[i].0 == key
    ensures r.Ok? ==> exists i :: 0 <= i < |v.fields| && v.fields[i] == (key, r.value) &&
                        forall j :: i < j < |v.fields| ==> v.fields[j].0 != key
    ensures r.Err? ==> r.error == (if v.JObj? then MissingKey(key) else NotSubscriptable)
    ensures r.Ok? <==> Get(v, key).Some?
    ensures r.Ok? ==> r.value == Get(v, key).value
  {
    if !v.JObj? then Err(NotSubscriptable)
    else match Lookup(v.fields, key)
      case Some(x) => Ok(x)
      case None => Err(MissingKey(key))
  }

  /** The values `for x in v` visits, or the TypeError for a non-iterable value. */
  function Iterate(v: Json): Result<seq<Json>, DecodeError>
  {
    match Elements(v)
    case Some(xs) => Ok(xs)
    case None => Err(NotIterable)
  }

  /** The elements of `message['data']` when the frame parsed and its `data` is iterable. */
  function DataItems(f: Frame): Option<seq<Json>>
  {
    if f.parsed.Some? && Get(f.parsed.value, "data").Some? then Elements(Get(f.parsed.value, "data").value)
    else None
  }

  /**
   * A `for` loop that appends `decode(x)` for each `x` in turn: the decoded
   * values in order, or the exception of the first element that fails.
   */
  function DecodeEach<T>(items: seq<Json>, decode: Json -> Result<T, DecodeError>): Result<seq<T>, DecodeError>
  {
    if |items| == 0 then Ok([])
    else match DecodeEach(items[..|items| - 1], decode)
      case Err(err) => Err(err)
      case Ok(done) =>
        match decode(items[|items| - 1])
        case Err(err) => Err(err)
        case Ok(x) => Ok(done + [x])
  }

  /** On success the results correspond one to one, in order, with the items. */
  lemma {:induction false} DecodeEachOk<T>(items: seq<Json>, decode: Json -> Result<T, DecodeError>)
    ensures DecodeEach(items, decode).Ok? <==> forall k :: 0 <= k < |items| ==> decode(items[k]).Ok?
    ensures DecodeEach(items, decode).Ok? ==>
              |DecodeEach(items, decode).value| == |items| &&
              forall k :: 0 <= k < |items| ==> DecodeEach(items, decode).value[k] == decode(items[k]).value
  {
    if |items| > 0 {
      var init := items[..|items| - 1];
      DecodeEachOk(init, decode);
      assert forall k :: 0 <= k < |init| ==> init[k] == items[k];
    }
  }

  /** On failure the exception is that of the first item that fails. */
  lemma {:induction false} DecodeEachErr<T>(items: seq<Json>, decode: Json -> Result<T, DecodeError>)
    requires DecodeEach(items, decode).Err?
    ensures exists j :: 0 <= j < |items| && decode(items[j]).Err? &&
              DecodeEach(items, decode).error == decode(items[j]).error &&
              forall k :: 0 <= k < j ==> decode(items[k]).Ok?
  {
    var init := items[..|items| - 1];
    assert forall k :: 0 <= k < |init| ==> init[k] == items[k];
    if DecodeEach(init, decode).Err? {
      DecodeEachErr(init, decode);
    } else {
      DecodeEachOk(init, decode);
      assert decode(items[|items| - 1]).Err?;
    }
  }

  /** One more turn of the loop after a prefix that succeeded. */
  lemma DecodeEachNext<T>(items: seq<Json>, n: nat, decode: Json -> Result<T, DecodeError>)
    requires n < |items| && DecodeEach(items[..n], decode).Ok?
    ensures decode(items[n]).Err? ==> DecodeEach(items[..n + 1], decode) == Err(decode(items[n]).error)
    ensures decode(items[n]).Ok? ==>
              DecodeEach(items[..n + 1], decode) == Ok(DecodeEach(items[..n], decode).value + [decode(items[n]).value])
  {
    assert items[..n + 1][..n] == items[..n];
  }

  /** Once a prefix fails, the whole loop fails with the same exception. */
  lemma {:induction false} DecodeEachStops<T>(items: seq<Json>, n: nat, decode: Json -> Result<T, DecodeError>)
    requires n <= |items| && DecodeEach(items[..n], decode).Err?
    ensures DecodeEach(items, decode) == DecodeEach(items[..n], decode)
  {
    if n < |items| {
      var init := items[..|items| - 1];
      assert init[..n] == items[..n];
      DecodeEachStops(init, n, decode);
    } else {
      assert items[..n] == items;
    }
  }
}
