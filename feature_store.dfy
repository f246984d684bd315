/**
 * The consumer loop of services/kafka_to_feature_store/src/main.py: poll the
 * OHLC topic, skip empty polls, failed messages and payloads that are not
 * JSON, push every other message to the feature group, and only then store
 * its offset.
 *
 * The broker is replaced by the sequence of poll outcomes the loop sees, and
 * the feature store by an object that records the pushes it receives
 * (services/kafka_to_feature_store/src/hopsworks_api.py is not part of this
 * model). A ghost log, appended to by the push and by the offset store
 * themselves, gives their interleaving.
 */
module KafkaToFeatureStore {
  import opened Json

  const CONSUMER_GROUP: string := "kafka_to_feature_store"
  const AUTO_OFFSET_RESET: string := "earliest"
  const ONLINE: string := "online"

  /** What `json.loads(msg.value().decode('utf-8'))` makes of a message's value. */
  datatype Payload =
    | Decoded(record: Json) // valid UTF-8 holding a JSON document
    | NotJson              // JSONDecodeError: caught, the message is skipped
    | NotUtf8              // UnicodeDecodeError: not caught, the loop ends
    | NoValue              // `msg.value()` is None: AttributeError, the loop ends

  /** A delivered message: its offset, whether `msg.error()` is set, and its value. */
  datatype Message = Message(offset: nat, failed: bool, payload: Payload)

  /** What one `consumer.poll(1)` returns. */
  datatype Poll = NoMessage | Delivered(msg: Message)

  /** The arguments of one `push_data_to_feature_store` call. */
  datatype PushRequest = PushRequest(data: Json, featureGroupName: string, featureGroupVersion: int, onlineOrOffline: string)

  /** What the loop does to the outside world, in order. */
  datatype Event = Pushed(offset: nat, request: PushRequest) | StoredOffset(offset: nat)

  /** The poll raises out of the loop: the value is missing or not UTF-8. */
  predicate Crashes(p: Poll)
  {
    p.Delivered? && !p.msg.failed && (p.msg.payload.NotUtf8? || p.msg.payload.NoValue?)
  }

  /** The poll is pushed and its offset stored. */
  predicate Processed(p: Poll)
  {
    p.Delivered? && !p.msg.failed && p.msg.payload.Decoded?
  }

  /** The push the loop makes for a processed poll. */
  function RequestFor(m: Message, featureGroupName: string, featureGroupVersion: int): PushRequest
    requires m.payload.Decoded?
  {
    PushRequest(m.payload.record, featureGroupName, featureGroupVersion, ONLINE)
  }

  /**
   * What one turn of `while True` does before it ends or raises: nothing for
   * an empty poll, a failed message or a payload that cannot be decoded;
   * otherwise the push and then the offset store.
   */
  function StepEvents(p: Poll, featureGroupName: string, featureGroupVersion: int): (ev: seq<Event>)
    ensures !Processed(p) <==> ev == []
    ensures Processed(p) ==> |ev| == 2 && ev[0].Pushed? && ev[1] == StoredOffset(p.msg.offset) &&
                             ev[0].offset == p.msg.offset &&
                             ev[0].request.data == p.msg.payload.record &&
                             ev[0].request.featureGroupName == featureGroupName &&
                             ev[0].request.featureGroupVersion == featureGroupVersion &&
                             ev[0].request.onlineOrOffline == "online"
  {
    match p
    case NoMessage => []
    case Delivered(m) =>
      if m.failed then []
      else match m.payload
        case Decoded(_) => [Pushed(m.offset, RequestFor(m, featureGroupName, featureGroupVersion)), StoredOffset(m.offset)]
        case _ => []
  }

  /** How many polls the loop gets through before one raises (all of them when none does). */
  function FirstCrash(polls: seq<Poll>): (n: nat)
    ensures n <= |polls|
    ensures forall i :: 0 <= i < n ==> !Crashes(polls[i])
    ensures n < |polls| ==> Crashes(polls[n])
  {
    if |polls| == 0 then 0
    else if Crashes(polls[0]) then 0
    else 1 + FirstCrash(polls[1..])
  }

  /** The events of a run of polls, in order. */
  function Trace(polls: seq<Poll>, featureGroupName: string, featureGroupVersion: int): seq<Event>
  {
    if |polls| == 0 then []
    else Trace(polls[..|polls| - 1], featureGroupName, featureGroupVersion) +
         StepEvents(polls[|polls| - 1], featureGroupName, featureGroupVersion)
  }

  /** The pushes in a log, in order. */
  function PushedOf(events: seq<Event>): seq<PushRequest>
  {
    if |events| == 0 then []
    else PushedOf(events[..|events| - 1]) +
         (if events[|events| - 1].Pushed? then [events[|events| - 1].request] else [])
  }

  /** The offsets stored in a log, in order. */
  function StoredOf(events: seq<Event>): seq<nat>
  {
    if |events| == 0 then []
    else StoredOf(events[..|events| - 1]) +
         (if events[|events| - 1].StoredOffset? then [events[|events| - 1].offset] else [])
  }

  /** The processed polls' pushes, in poll order. */
  function Pushes(polls: seq<Poll>, featureGroupName: string, featureGroupVersion: int): (r: seq<PushRequest>)
    ensures forall k :: 0 <= k < |r| ==>
              r[k].featureGroupName == featureGroupName && r[k].featureGroupVersion == featureGroupVersion &&
              r[k].onlineOrOffline == "online"
  {
    if |polls| == 0 then []
    else
      var p := polls[|polls| - 1];
      Pushes(polls[..|polls| - 1], featureGroupName, featureGroupVersion) +
      (if Processed(p) then [RequestFor(p.msg, featureGroupName, featureGroupVersion)] else [])
  }

  /** The processed polls' offsets, in poll order. */
  function Offsets(polls: seq<Poll>): (r: seq<nat>)
    ensures |r| <= |polls|
  {
    if |polls| == 0 then []
    else
      var p := polls[|polls| - 1];
      Offsets(polls[..|polls| - 1]) + (if Processed(p) then [p.msg.offset] else [])
  }

  /** One more poll extends the log, the pushes and the stored offsets of the polls before it. */
  lemma PrefixStep(polls: seq<Poll>, n: nat, featureGroupName: string, featureGroupVersion: int)
    requires n < |polls|
    ensures Trace(polls[..n + 1], featureGroupName, featureGroupVersion) ==
            Trace(polls[..n], featureGroupName, featureGroupVersion) + StepEvents(polls[n], featureGroupName, featureGroupVersion)
    ensures Offsets(polls[..n + 1]) == Offsets(polls[..n]) + (if Processed(polls[n]) then [polls[n].msg.offset] else [])
    ensures Pushes(polls[..n + 1], featureGroupName, featureGroupVersion) ==
            Pushes(polls[..n], featureGroupName, featureGroupVersion) +
            (if Processed(polls[n]) then [RequestFor(polls[n].msg, featureGroupName, featureGroupVersion)] else [])
  {
    assert polls[..n + 1][..n] == polls[..n];
  }

  lemma AppendAssoc<T>(a: seq<T>, b: seq<T>, c: seq<T>)
    ensures a + b + c == a + (b + c)
  {
  }

  /** Every offset store follows, immediately, the push of the same message. */
  predicate Paired(events: seq<Event>)
  {
    && |events| % 2 == 0
    && (forall i :: 0 <= i < |events| ==> (events[i].Pushed? <==> i % 2 == 0))
    && (forall i :: 0 <= i < |events| && i % 2 == 1 ==> events[i].offset == events[i - 1].offset)
  }

  /** The log of one processed message holds its push and its offset. */
  lemma PairLog(offset: nat, request: PushRequest)
    ensures PushedOf([Pushed(offset, request), StoredOffset(offset)]) == [request]
    ensures StoredOf([Pushed(offset, request), StoredOffset(offset)]) == [offset]
  {
    var ev := [Pushed(offset, request), StoredOffset(offset)];
    var one := [Pushed(offset, request)];
    assert ev[..|ev| - 1] == one;
    assert one[..|one| - 1] == [];
    assert PushedOf(one) == [request];
    assert StoredOf(one) == [];
  }

  lemma {:induction false} PushedOfAppend(a: seq<Event>, b: seq<Event>)
    ensures PushedOf(a + b) == PushedOf(a) + PushedOf(b)
    decreases |b|
  {
    if |b| > 0 {
      var b' := b[..|b| - 1];
      assert (a + b)[..|a + b| - 1] == a + b';
      PushedOfAppend(a, b');
    } else {
      assert a + b == a;
    }
  }

  lemma {:induction false} StoredOfAppend(a: seq<Event>, b: seq<Event>)
    ensures StoredOf(a + b) == StoredOf(a) + StoredOf(b)
    decreases |b|
  {
    if |b| > 0 {
      var b' := b[..|b| - 1];
      assert (a + b)[..|a + b| - 1] == a + b';
      StoredOfAppend(a, b');
    } else {
      assert a + b == a;
    }
  }

  /** Appending the pair of one processed message keeps the log paired. */
  lemma PairedAppend(t: seq<Event>, offset: nat, request: PushRequest)
    requires Paired(t)
    ensures Paired(t + [Pushed(offset, request), StoredOffset(offset)])
  {
  }

  /**
   * The log of any run of polls is a series of (push, store) pairs for the
   * same message: every offset store comes right after the push of its message.
   */
  lemma {:induction false} TracePaired(polls: seq<Poll>, featureGroupName: string, featureGroupVersion: int)
    ensures Paired(Trace(polls, featureGroupName, featureGroupVersion))
    ensures var t := Trace(polls, featureGroupName, featureGroupVersion);
            forall i :: 0 <= i < |t| && t[i].StoredOffset? ==> 0 < i && t[i - 1].Pushed? && t[i - 1].offset == t[i].offset
  {
    if |polls| > 0 {
      var init := polls[..|polls| - 1];
      var p := polls[|polls| - 1];
      TracePaired(init, featureGroupName, featureGroupVersion);
      if Processed(p) {
        var ev := StepEvents(p, featureGroupName, featureGroupVersion);
        PairedAppend(Trace(init, featureGroupName, featureGroupVersion), ev[0].offset, ev[0].request);
        assert ev == [Pushed(ev[0].offset, ev[0].request), StoredOffset(ev[0].offset)];
      } else {
        assert Trace(polls, featureGroupName, featureGroupVersion) == Trace(init, featureGroupName, featureGroupVersion) + [];
      }
    }
    var t := Trace(polls, featureGroupName, featureGroupVersion);
    forall i | 0 <= i < |t| && t[i].StoredOffset?
      ensures 0 < i && t[i - 1].Pushed? && t[i - 1].offset == t[i].offset
    {
      assert i % 2 == 1;
    }
  }

  /** The pushes of a run are exactly the processed polls' records, in poll order. */
  lemma {:induction false} TracePushes(polls: seq<Poll>, featureGroupName: string, featureGroupVersion: int)
    ensures PushedOf(Trace(polls, featureGroupName, featureGroupVersion)) == Pushes(polls, featureGroupName, featureGroupVersion)
  {
    if |polls| > 0 {
      var init := polls[..|polls| - 1];
      var p := polls[|polls| - 1];
      TracePushes(init, featureGroupName, featureGroupVersion);
      var ev := StepEvents(p, featureGroupName, featureGroupVersion);
      PushedOfAppend(Trace(init, featureGroupName, featureGroupVersion), ev);
      if Processed(p) {
        PairLog(ev[0].offset, ev[0].request);
        assert ev == [Pushed(ev[0].offset, ev[0].request), StoredOffset(ev[0].offset)];
      }
    }
  }

  /** The offsets stored in a run are exactly the processed polls' offsets, in poll order. */
  lemma {:induction false} TraceStores(polls: seq<Poll>, featureGroupName: string, featureGroupVersion: int)
    ensures StoredOf(Trace(polls, featureGroupName, featureGroupVersion)) == Offsets(polls)
  {
    if |polls| > 0 {
      var init := polls[..|polls| - 1];
      var p := polls[|polls| - 1];
      TraceStores(init, featureGroupName, featureGroupVersion);
      var ev := StepEvents(p, featureGroupName, featureGroupVersion);
      StoredOfAppend(Trace(init, featureGroupName, featureGroupVersion), ev);
      if Processed(p) {
        PairLog(ev[0].offset, ev[0].request);
        assert ev == [Pushed(ev[0].offset, ev[0].request), StoredOffset(ev[0].offset)];
      }
    }
  }

  /** A run stores as many offsets as it pushes records. */
  lemma StoresMatchPushes(polls: seq<Poll>, featureGroupName: string, featureGroupVersion: int)
    ensures |StoredOf(Trace(polls, featureGroupName, featureGroupVersion))| ==
            |PushedOf(Trace(polls, featureGroupName, featureGroupVersion))|
  {
    TracePushes(polls, featureGroupName, featureGroupVersion);
    TraceStores(polls, featureGroupName, featureGroupVersion);
    OffsetsMatchPushes(polls, featureGroupName, featureGroupVersion);
  }

  /** There is one push per stored offset. */
  lemma {:induction false} OffsetsMatchPushes(polls: seq<Poll>, featureGroupName: string, featureGroupVersion: int)
    ensures |Offsets(polls)| == |Pushes(polls, featureGroupName, featureGroupVersion)|
  {
    if |polls| > 0 {
      OffsetsMatchPushes(polls[..|polls| - 1], featureGroupName, featureGroupVersion);
    }
  }

  /** What the loop does to the outside world, as the push and the offset store record it. */
  class EventLog {
    ghost var events: seq<Event>

    constructor ()
      ensures events == []
    {
      events := [];
    }
  }

  /** The broker consumer: the topics it subscribed to and the offsets stored on it. */
  class Consumer {
    const consumerGroup: string
    const autoOffsetReset: string
    var topics: seq<string>
    var stored: seq<nat>

    /** `app.get_consumer()` for the application's settings. */
    constructor ()
      ensures consumerGroup == CONSUMER_GROUP && autoOffsetReset == AUTO_OFFSET_RESET
      ensures topics == [] && stored == []
    {
      consumerGroup := CONSUMER_GROUP;
      autoOffsetReset := AUTO_OFFSET_RESET;
      topics := [];
      stored := [];
    }

    /** `consumer.subscribe(topics=...)`. */
    method Subscribe(topics: seq<string>)
      modifies this
      ensures this.topics == topics && stored == old(stored)
    {
      this.topics := topics;
    }

    /** `consumer.store_offsets(message=msg)`, recorded in `log`. */
    method StoreOffsets(m: Message, ghost log: EventLog)
      modifies this, log
      ensures stored == old(stored) + [m.offset] && topics == old(topics)
      ensures log.events == old(log.events) + [StoredOffset(m.offset)]
    {
      stored := stored + [m.offset];
      log.events := log.events + [StoredOffset(m.offset)];
    }
  }

  /** The feature groups' receiving end: every push it was handed, in order. */
  class FeatureStore {
    var received: seq<PushRequest>

    constructor ()
      ensures received == []
    {
      received := [];
    }

    /**
     * `push_data_to_feature_store(...)`, taken to succeed. It is recorded in
     * `log` under the offset of the message whose value it carries.
     */
    method Push(request: PushRequest, ghost offset: nat, ghost log: EventLog)
      modifies this, log
      ensures received == old(received) + [request]
      ensures log.events == old(log.events) + [Pushed(offset, request)]
    {
      received := received + [request];
      log.events := log.events + [Pushed(offset, request)];
    }
  }

  /**
   * One turn of `while True` for the poll `p`: raise (the value is missing or
   * not UTF-8), or push and store the offset of a processed message. What
   * the push and the store add to `log` are the turn's events, in order.
   */
  method HandlePoll(p: Poll, consumer: Consumer, store: FeatureStore, featureGroupName: string, featureGroupVersion: int,
                    ghost log: EventLog)
    returns (crash: bool)
    modifies consumer, store, log
    ensures crash == Crashes(p)
    ensures log.events == old(log.events) + StepEvents(p, featureGroupName, featureGroupVersion)
    ensures consumer.topics == old(consumer.topics)
    ensures consumer.stored == old(consumer.stored) + (if Processed(p) then [p.msg.offset] else [])
    ensures store.received == old(store.received) +
              (if Processed(p) then [RequestFor(p.msg, featureGroupName, featureGroupVersion)] else [])
  {
    if p.NoMessage? {
      // nothing arrived within the poll timeout
    } else if p.msg.failed {
      // a broker-side error is logged and skipped
    } else if p.msg.payload.NotUtf8? || p.msg.payload.NoValue? {
      return true;
    } else if p.msg.payload.NotJson? {
      // the JSON error is logged and the message skipped, its offset not stored
    } else {
      var request := PushRequest(p.msg.payload.record, featureGroupName, featureGroupVersion, ONLINE);
      store.Push(request, p.msg.offset, log);
      consumer.StoreOffsets(p.msg, log);
    }
    return false;
  }

  /**
   * The `while True` loop over the polls the broker yields. It goes through
   * every poll unless one raises; `crashed` says whether one did. It pushed
   * the processed polls' records and stored their offsets, and `log` gained
   * the trace of the handled polls.
   */
  method PollLoop(consumer: Consumer, store: FeatureStore, polls: seq<Poll>, featureGroupName: string, featureGroupVersion: int,
                  ghost log: EventLog)
    returns (handled: nat, crashed: bool)
    modifies consumer, store, log
    ensures handled == FirstCrash(polls) && (crashed <==> handled < |polls|)
    ensures log.events == old(log.events) + Trace(polls[..handled], featureGroupName, featureGroupVersion)
    ensures consumer.topics == old(consumer.topics)
    ensures consumer.stored == old(consumer.stored) + Offsets(polls[..handled])
    ensures store.received == old(store.received) + Pushes(polls[..handled], featureGroupName, featureGroupVersion)
  {
    handled, crashed := 0, false;
    ghost var stop := FirstCrash(polls);
    ghost var stored0, received0, events0 := consumer.stored, store.received, log.events;
    while handled < |polls|
      invariant handled <= stop
      invariant log.events == events0 + Trace(polls[..handled], featureGroupName, featureGroupVersion)
      invariant consumer.topics == old(consumer.topics)
      invariant consumer.stored == stored0 + Offsets(polls[..handled])
      invariant store.received == received0 + Pushes(polls[..handled], featureGroupName, featureGroupVersion)
      decreases |polls| - handled
    {
      crashed := HandlePoll(polls[handled], consumer, store, featureGroupName, featureGroupVersion, log);
      if crashed {
        assert handled == stop;
        return;
      }
      assert handled != stop by {
        assert !Crashes(polls[handled]);
      }
      PrefixStep(polls, handled, featureGroupName, featureGroupVersion);
      AppendAssoc(stored0, Offsets(polls[..handled]), if Processed(polls[handled]) then [polls[handled].msg.offset] else []);
      AppendAssoc(received0, Pushes(polls[..handled], featureGroupName, featureGroupVersion),
                  if Processed(polls[handled]) then [RequestFor(polls[handled].msg, featureGroupName, featureGroupVersion)] else []);
      AppendAssoc(events0, Trace(polls[..handled], featureGroupName, featureGroupVersion),
                  StepEvents(polls[handled], featureGroupName, featureGroupVersion));
      handled := handled + 1;
    }
  }

  /**
   * `kafka_to_feature_store`: make the consumer, subscribe it to the topic,
   * and run the loop over the polls the broker yields.
   */
  method KafkaToFeatureStore(kafkaTopic: string, featureGroupName: string, featureGroupVersion: int,
                             polls: seq<Poll>, store: FeatureStore, ghost log: EventLog)
    returns (consumer: Consumer, handled: nat, crashed: bool)
    modifies store, log
    ensures fresh(consumer)
    ensures consumer.consumerGroup == CONSUMER_GROUP && consumer.autoOffsetReset == AUTO_OFFSET_RESET
    ensures consumer.topics == [kafkaTopic]
    ensures handled == FirstCrash(polls) && (crashed <==> handled < |polls|)
    ensures log.events == old(log.events) + Trace(polls[..handled], featureGroupName, featureGroupVersion)
    ensures consumer.stored == Offsets(polls[..handled])
    ensures store.received == old(store.received) + Pushes(polls[..handled], featureGroupName, featureGroupVersion)
  {
    consumer := new Consumer();
    consumer.Subscribe([kafkaTopic]);
    handled, crashed := PollLoop(consumer, store, polls, featureGroupName, featureGroupVersion, log);
  }
}
