/**
 * The channel registry as lib/worker.js keeps it: a plain JavaScript object
 * (lib/worker.js:11). Reading `channels[id]` for an id that names a member of
 * `Object.prototype` ("toString", "constructor", "__proto__", ...) finds that
 * inherited built-in, which is truthy, so the handlers take such an id for an
 * existing channel and then fail part-way. This module states what the three
 * handlers that look a channel up do with such an id as written, next to the
 * registry steps the rest of the model uses, which treat every id as an
 * ordinary key.
 */
module ObjectKeys {
  import opened Values
  import opened Channels
  import opened Protocol
  import opened Registry

  /** The property names every plain object inherits from `Object.prototype`. */
  const Inherited: set<string> := {
    "__proto__", "__defineGetter__", "__defineSetter__", "__lookupGetter__", "__lookupSetter__",
    "constructor", "hasOwnProperty", "isPrototypeOf", "propertyIsEnumerable",
    "toLocaleString", "toString", "valueOf"
  }

  /**
   * `channels[id]` finds an inherited built-in rather than nothing. A
   * handler never stores a channel under such an id, because its lookup
   * already succeeds.
   */
  predicate FindsBuiltin(channels: ChannelMap, id: ChannelId) {
    id !in channels && id in Inherited
  }

  /** A down-publish either completes or throws out of the worker's message listener. */
  datatype Delivery = Delivered(channels: ChannelMap, writes: seq<Write>) | Crashed

  /**
   * A down-publish as lib/worker.js:84-98 is written. For an id that finds a
   * built-in, no channel is created and `channel.msgs.push` throws a
   * TypeError that nothing on the way from the master's message catches
   * (lib/worker.js:51-55).
   */
  function DownPublishAsWritten(channels: ChannelMap, id: ChannelId, m: Buffered): (r: Delivery)
    requires BuffersBounded(channels)
    ensures r.Crashed? <==> FindsBuiltin(channels, id)
    ensures r.Delivered? ==> r.channels == Published(channels, id, m)
    ensures r.Delivered? ==> r.writes == FanOut(r.channels[id].subscribers, m.content)
  {
    if FindsBuiltin(channels, id) then Crashed
    else
      var next := Published(channels, id, m);
      Delivered(next, FanOut(next[id].subscribers, m.content))
  }

  /**
   * A down-publish on "toString" to an empty registry crashes as written,
   * where the intended step creates the channel and buffers the message.
   */
  lemma DownPublishOnToStringCrashes(m: Buffered)
    ensures DownPublishAsWritten(map[], "toString", m) == Crashed
    ensures var intended := Published(map[], "toString", m);
            "toString" in intended && intended["toString"].msgs == [m]
  {
  }

  /** The registry, the sessions and the up-events after a subscribe. */
  datatype Joined = Joined(channels: ChannelMap, tracked: SessionMap, sent: seq<UpEvent>)

  /**
   * A subscribe of `s.conn` to an id its session does not track, as
   * lib/worker.js:214-226 is written. For an id that finds a built-in, the id
   * is tracked first (:214), then `channel.subscribers.push` throws (:220);
   * the frame handler catches and logs the error (:304-306). So no
   * subscriber is added and no up-subscribe is sent.
   */
  function SubscribeAsWritten(channels: ChannelMap, tracked: SessionMap, s: Subscriber, id: ChannelId): (r: Joined)
    requires s.conn in tracked && id !in tracked[s.conn]
    ensures r.tracked == tracked[s.conn := tracked[s.conn] + [id]]
    ensures FindsBuiltin(channels, id) ==> r.channels == channels && r.sent == []
    ensures !FindsBuiltin(channels, id) ==>
              r.channels == channels[id := WithSubscriber(channels, id, s)] &&
              r.sent == [UpSubscribe(id, s.conn, s.data)]
  {
    var tracked' := tracked[s.conn := tracked[s.conn] + [id]];
    if FindsBuiltin(channels, id) then Joined(channels, tracked', [])
    else Joined(channels[id := WithSubscriber(channels, id, s)], tracked', [UpSubscribe(id, s.conn, s.data)])
  }

  /**
   * Subscribing to "toString" as written leaves a session that tracks a
   * channel its connection is not subscribed to, so the consistency rules
   * that `Registry.SubscribeKeeps` proves for the intended step break.
   */
  lemma SubscribeToToStringBreaksSessions(s: Subscriber)
    ensures Consistent(map[], map[s.conn := []], {})
    ensures var r := SubscribeAsWritten(map[], map[s.conn := []], s, "toString");
            && "toString" in r.tracked[s.conn]
            && !Subscribed(r.channels, s.conn, "toString")
            && !Consistent(r.channels, r.tracked, {})
  {
    var r := SubscribeAsWritten(map[], map[s.conn := []], s, "toString");
    assert FindsBuiltin(map[], "toString");
    assert r.channels == map[];
    assert "toString" in r.tracked[s.conn];
    assert !TracksExactly(r.channels, s.conn, r.tracked[s.conn]);
  }

  /** The registry, the sessions and the up-events after an unsubscribe. */
  datatype Left = Left(channels: ChannelMap, tracked: SessionMap, sent: seq<UpEvent>)

  /**
   * An unsubscribe of `k` from `id`, as lib/worker.js:189-202 is written. For
   * an id that finds a built-in, the lookup at :191 succeeds, so an
   * up-unsubscribe is sent for a channel the registry does not hold; the
   * `subscribers` and `closeTimeout` writes land on the built-in, outside
   * the registry.
   */
  function UnsubscribeAsWritten(channels: ChannelMap, tracked: SessionMap, k: ConnId, id: ChannelId): (r: Left)
    requires k in tracked
    ensures r.tracked == tracked[k := Remove(tracked[k], id)]
    ensures id in channels ==>
              r.channels == channels[id := Unsubscribed(channels[id], k)] && r.sent == [UpUnsubscribe(id, k)]
    ensures FindsBuiltin(channels, id) ==> r.channels == channels && r.sent == [UpUnsubscribe(id, k)]
    ensures id !in channels && !FindsBuiltin(channels, id) ==> r.channels == channels && r.sent == []
  {
    var tracked' := tracked[k := Remove(tracked[k], id)];
    if id in channels then Left(channels[id := Unsubscribed(channels[id], k)], tracked', [UpUnsubscribe(id, k)])
    else if FindsBuiltin(channels, id) then Left(channels, tracked', [UpUnsubscribe(id, k)])
    else Left(channels, tracked', [])
  }

  /**
   * Unsubscribing from "toString" as written tells the master about a
   * channel that the worker's status snapshot does not list, where the
   * intended step sends nothing for a channel the registry does not hold.
   */
  lemma UnsubscribeFromToStringReportsMissingChannel(k: ConnId)
    ensures var r := UnsubscribeAsWritten(map[], map[k := []], k, "toString");
            r.sent == [UpUnsubscribe("toString", k)] && "toString" !in Snapshot(r.channels)
  {
  }
}
