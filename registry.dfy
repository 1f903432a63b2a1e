/**
 * The consistency rules that tie a worker's channel registry to its
 * connection sessions and timers, stated on plain maps, with the facts that
 * each registry step keeps them and the status snapshot built from them.
 */
module Registry {
  import opened Values
  import opened Channels
  import opened Protocol

  type ChannelMap = map<ChannelId, Channel>
  type SessionMap = map<ConnId, seq<ChannelId>>

  const EmptyChannel := Channel([], [], false)

  /** Connection `k` is in the subscriber list of channel `c`. */
  predicate Subscribed(channels: ChannelMap, k: ConnId, c: ChannelId) {
    c in channels && k in ConnsOf(channels[c].subscribers)
  }

  /** No buffer holds more than Capacity messages. */
  predicate BuffersBounded(channels: ChannelMap) {
    forall c :: c in channels ==> |channels[c].msgs| <= Capacity
  }

  /** A channel's teardown timer is pending exactly while it has no subscribers. */
  predicate TimersMatch(channels: ChannelMap) {
    forall c :: c in channels ==> (channels[c].closeArmed <==> channels[c].subscribers == [])
  }

  /** A connection appears at most once in each subscriber list. */
  predicate SubscribersDistinct(channels: ChannelMap) {
    forall c :: c in channels ==> DistinctConns(channels[c].subscribers)
  }

  /** The tracked list `ids` of connection `k` names each channel `k` is a subscriber of, once, and nothing else. */
  ghost predicate TracksExactly(channels: ChannelMap, k: ConnId, ids: seq<ChannelId>) {
    NoDuplicates(ids) && forall c :: c in ids <==> Subscribed(channels, k, c)
  }

  /** Every subscriber of every channel is one of the `live` connections. */
  predicate SubscribersLive(channels: ChannelMap, live: set<ConnId>) {
    forall c, k :: c in channels && k in ConnsOf(channels[c].subscribers) ==> k in live
  }

  /** Sessions and subscriber lists describe the same subscriptions. */
  ghost predicate SessionsMatch(channels: ChannelMap, tracked: SessionMap) {
    && (forall k :: k in tracked ==> TracksExactly(channels, k, tracked[k]))
    && SubscribersLive(channels, tracked.Keys)
  }

  ghost predicate Consistent(channels: ChannelMap, tracked: SessionMap, idleArmed: set<ConnId>) {
    && BuffersBounded(channels)
    && TimersMatch(channels)
    && SubscribersDistinct(channels)
    && SessionsMatch(channels, tracked)
    && idleArmed <= tracked.Keys
  }

  // ---------------------------------------------------------------------
  // Steps of the registry and the consistency they keep
  // ---------------------------------------------------------------------

  /** The channel record after connection `k` unsubscribed (lib/worker.js:196-201). */
  function Unsubscribed(ch: Channel, k: ConnId): (r: Channel)
    ensures forall s :: s in r.subscribers <==> s in ch.subscribers && s.conn != k
    ensures k !in ConnsOf(r.subscribers)
    ensures forall k' :: k' != k ==> (k' in ConnsOf(r.subscribers) <==> k' in ConnsOf(ch.subscribers))
    ensures k !in ConnsOf(ch.subscribers) ==> r.subscribers == ch.subscribers
    ensures DistinctConns(ch.subscribers) ==> DistinctConns(r.subscribers)
    ensures r.msgs == ch.msgs
    ensures r.closeArmed == (r.subscribers == [] || ch.closeArmed)
  {
    var subs := Without(ch.subscribers, k);
    WithoutMembers(ch.subscribers, k);
    WithoutConns(ch.subscribers, k);
    WithoutUnchanged(ch.subscribers, k);
    WithoutDistinct(ch.subscribers, k);
    Channel(subs, ch.msgs, if subs == [] then true else ch.closeArmed)
  }

  /** The channel record after connection `k` subscribed with `s` (lib/worker.js:215-220). */
  function WithSubscriber(channels: ChannelMap, c: ChannelId, s: Subscriber): (r: Channel)
    ensures r.subscribers != [] && r.subscribers[|r.subscribers| - 1] == s && !r.closeArmed
    ensures c in channels ==> r.subscribers[..|r.subscribers| - 1] == channels[c].subscribers && r.msgs == channels[c].msgs
    ensures c !in channels ==> r.subscribers == [s] && r.msgs == []
  {
    var ch := if c in channels then channels[c] else EmptyChannel;
    Channel(ch.subscribers + [s], ch.msgs, false)
  }

  /**
   * The registry after a down-publish of `m` on `id` (lib/worker.js:85-94):
   * an absent channel is created with no subscribers and its teardown armed,
   * then `m` is pushed onto the channel's buffer.
   */
  function Published(channels: ChannelMap, id: ChannelId, m: Buffered): (r: ChannelMap)
    requires BuffersBounded(channels)
    ensures r.Keys == channels.Keys + {id}
    ensures forall c :: c in channels && c != id ==> r[c] == channels[c]
    ensures |r[id].msgs| > 0 && r[id].msgs[|r[id].msgs| - 1] == m
    ensures id in channels ==> r[id].subscribers == channels[id].subscribers && r[id].closeArmed == channels[id].closeArmed
    ensures id !in channels ==> r[id] == Channel([], [m], true)
  {
    var ch := if id in channels then channels[id] else Channel([], [], true);
    channels[id := ch.(msgs := Push(ch.msgs, m))]
  }

  /** Unsubscribing undoes a fresh subscribe: the subscriber list and the buffer are as before it. */
  lemma SubscribeThenUnsubscribe(channels: ChannelMap, c: ChannelId, s: Subscriber)
    requires c in channels ==> s.conn !in ConnsOf(channels[c].subscribers)
    ensures var r := Unsubscribed(WithSubscriber(channels, c, s), s.conn);
            r.subscribers == (if c in channels then channels[c].subscribers else []) &&
            r.msgs == (if c in channels then channels[c].msgs else [])
  {
    var before := if c in channels then channels[c].subscribers else [];
    var after := WithSubscriber(channels, c, s).subscribers;
    assert after == before + [s];
    assert after[..|after| - 1] == before;
    WithoutUnchanged(before, s.conn);
    assert Without(after, s.conn) == before;
  }

  /** A fresh subscribe keeps the registry consistent. */
  lemma SubscribeKeeps(channels: ChannelMap, tracked: SessionMap, idleArmed: set<ConnId>,
                       k: ConnId, c: ChannelId, s: Subscriber)
    requires Consistent(channels, tracked, idleArmed)
    requires k in tracked && c !in tracked[k] && s.conn == k
    ensures Consistent(channels[c := WithSubscriber(channels, c, s)],
                       tracked[k := tracked[k] + [c]], idleArmed)
  {
    var ch' := channels[c := WithSubscriber(channels, c, s)];
    var tr' := tracked[k := tracked[k] + [c]];
    var before := if c in channels then channels[c].subscribers else [];
    assert ch'[c].subscribers == before + [s];
    ConnsOfAppend(before, s);
    assert TracksExactly(channels, k, tracked[k]);
    assert k !in ConnsOf(before);
    assert DistinctConns(before);
    DistinctAppend(before, s);
    assert SubscribersDistinct(ch');
    forall k' | k' in tr'
      ensures TracksExactly(ch', k', tr'[k'])
    {
      assert TracksExactly(channels, k', tracked[k']);
      forall c' ensures c' in tr'[k'] <==> Subscribed(ch', k', c') {
        if c' == c && k' != k {
          assert k' in ConnsOf(ch'[c].subscribers) <==> k' in ConnsOf(before);
        }
      }
    }
    assert SubscribersLive(ch', tr'.Keys) by {
      forall c', k' | c' in ch' && k' in ConnsOf(ch'[c'].subscribers)
        ensures k' in tr'
      {
        if c' == c && k' != k {
          assert k' in ConnsOf(before);
        }
      }
    }
    assert BuffersBounded(ch');
    assert TimersMatch(ch');
  }

  /** An unsubscribe keeps the registry consistent, whether or not `k` was a subscriber. */
  lemma UnsubscribeKeeps(channels: ChannelMap, tracked: SessionMap, idleArmed: set<ConnId>,
                         k: ConnId, c: ChannelId)
    requires Consistent(channels, tracked, idleArmed)
    requires k in tracked
    ensures Consistent(if c in channels then channels[c := Unsubscribed(channels[c], k)] else channels,
                       tracked[k := Remove(tracked[k], c)], idleArmed)
  {
    var ch' := if c in channels then channels[c := Unsubscribed(channels[c], k)] else channels;
    var tr' := tracked[k := Remove(tracked[k], c)];
    forall k' | k' in tr'
      ensures TracksExactly(ch', k', tr'[k'])
    {
      UnsubscribeKeepsSession(channels, tracked, k, c, k');
    }
    assert SessionsMatch(ch', tr') by {
      if c in channels {
        UnsubscribeKeepsLive(channels, tracked.Keys, k, c);
      }
    }
    assert BuffersBounded(ch');
    assert SubscribersDistinct(ch');
    assert TimersMatch(ch');
  }

  lemma UnsubscribeKeepsSession(channels: ChannelMap, tracked: SessionMap, k: ConnId, c: ChannelId, k': ConnId)
    requires forall j :: j in tracked ==> TracksExactly(channels, j, tracked[j])
    requires k in tracked && k' in tracked
    ensures TracksExactly(if c in channels then channels[c := Unsubscribed(channels[c], k)] else channels,
                          k', tracked[k := Remove(tracked[k], c)][k'])
  {
    var ch' := if c in channels then channels[c := Unsubscribed(channels[c], k)] else channels;
    var ids' := tracked[k := Remove(tracked[k], c)][k'];
    assert TracksExactly(channels, k', tracked[k']);
    if c in channels {
      forall c' ensures c' in ids' <==> Subscribed(ch', k', c') {
        if c' == c && k' != k {
          assert k' in ConnsOf(ch'[c].subscribers) <==> k' in ConnsOf(channels[c].subscribers);
        }
      }
    }
  }

  lemma UnsubscribeKeepsLive(channels: ChannelMap, live: set<ConnId>, k: ConnId, c: ChannelId)
    requires SubscribersLive(channels, live)
    requires c in channels
    ensures SubscribersLive(channels[c := Unsubscribed(channels[c], k)], live)
  {
    var ch' := channels[c := Unsubscribed(channels[c], k)];
    forall c', i | c' in ch' && 0 <= i < |ch'[c'].subscribers|
      ensures ch'[c'].subscribers[i].conn in live
    {
      if c' == c {
        var before := channels[c].subscribers;
        var x := ch'[c'].subscribers[i];
        assert x in before;
        var j :| 0 <= j < |before| && before[j] == x;
      }
    }
  }

  /** The registry after connection `k` unsubscribed from each channel of `ids`, in order. */
  function Detached(channels: ChannelMap, k: ConnId, ids: seq<ChannelId>): (r: ChannelMap)
    ensures r.Keys == channels.Keys
  {
    if ids == [] then channels
    else
      var prev := Detached(channels, k, ids[..|ids| - 1]);
      var c := ids[|ids| - 1];
      if c in prev then prev[c := Unsubscribed(prev[c], k)] else prev
  }

  /** One more step of a run of unsubscribes. */
  lemma DetachedStep(channels: ChannelMap, k: ConnId, ids: seq<ChannelId>, i: nat)
    requires i < |ids|
    ensures ids[..i + 1][..i] == ids[..i]
    ensures Detached(channels, k, ids[..i + 1]) ==
            var prev := Detached(channels, k, ids[..i]);
            if ids[i] in prev then prev[ids[i] := Unsubscribed(prev[ids[i]], k)] else prev
    ensures UnsubscribeEvents(ids[..i + 1], k) == UnsubscribeEvents(ids[..i], k) + [UpUnsubscribe(ids[i], k)]
  {
    assert ids[..i + 1][..i] == ids[..i];
  }

  /** Unsubscribing a connection that is no longer subscribed changes nothing. */
  lemma UnsubscribedTwice(ch: Channel, k: ConnId)
    ensures Unsubscribed(Unsubscribed(ch, k), k) == Unsubscribed(ch, k)
  {
  }

  /** After a run of unsubscribes, each channel of the run is unsubscribed once, and every other channel is as it was. */
  lemma {:induction false} DetachedChannel(channels: ChannelMap, k: ConnId, ids: seq<ChannelId>, c: ChannelId)
    requires c in channels
    ensures Detached(channels, k, ids)[c] == if c in ids then Unsubscribed(channels[c], k) else channels[c]
  {
    if ids != [] {
      var p := ids[..|ids| - 1];
      DetachedChannel(channels, k, p, c);
      if c == ids[|ids| - 1] && c in p {
        UnsubscribedTwice(channels[c], k);
      }
    }
  }

  /**
   * Unsubscribing a connection from every channel its session tracks leaves
   * every channel as if unsubscribed from it, including the channels it
   * never joined.
   */
  lemma DetachedAll(channels: ChannelMap, tracked: SessionMap, idleArmed: set<ConnId>, k: ConnId)
    requires Consistent(channels, tracked, idleArmed)
    requires k in tracked
    ensures forall c :: c in channels ==> Detached(channels, k, tracked[k])[c] == Unsubscribed(channels[c], k)
  {
    assert TracksExactly(channels, k, tracked[k]);
    forall c | c in channels
      ensures Detached(channels, k, tracked[k])[c] == Unsubscribed(channels[c], k)
    {
      DetachedChannel(channels, k, tracked[k], c);
      if c !in tracked[k] {
        assert !Subscribed(channels, k, c);
      }
    }
  }

  /** A teardown timer fires only on a channel without subscribers, so deleting it keeps consistency. */
  lemma TeardownKeeps(channels: ChannelMap, tracked: SessionMap, idleArmed: set<ConnId>,
                      c: ChannelId)
    requires Consistent(channels, tracked, idleArmed)
    requires c in channels && channels[c].closeArmed
    ensures Consistent(channels - {c}, tracked, idleArmed)
    ensures forall k :: k in tracked ==> c !in tracked[k]
  {
    var ch' := channels - {c};
    assert channels[c].subscribers == [];
    forall k | k in tracked
      ensures TracksExactly(ch', k, tracked[k]) && c !in tracked[k]
    {
      assert TracksExactly(channels, k, tracked[k]);
    }
  }

  /** A down-publish on an absent channel adds it empty, with its teardown armed, without breaking consistency. */
  lemma AddIdleChannelKeeps(channels: ChannelMap, tracked: SessionMap, idleArmed: set<ConnId>,
                            c: ChannelId)
    requires Consistent(channels, tracked, idleArmed)
    requires c !in channels
    ensures Consistent(channels[c := Channel([], [], true)], tracked, idleArmed)
  {
    var ch' := channels[c := Channel([], [], true)];
    forall k | k in tracked
      ensures TracksExactly(ch', k, tracked[k])
    {
      assert TracksExactly(channels, k, tracked[k]);
      assert ConnsOf(ch'[c].subscribers) == [];
    }
  }

  /** Changing only buffers leaves the subscription rules as they were. */
  lemma SubscriptionsUnchanged(channels: ChannelMap, channels': ChannelMap, tracked: SessionMap)
    requires channels'.Keys == channels.Keys
    requires forall c :: c in channels ==> channels'[c].subscribers == channels[c].subscribers
    requires forall c :: c in channels ==> channels'[c].closeArmed == channels[c].closeArmed
    requires SessionsMatch(channels, tracked) && TimersMatch(channels) && SubscribersDistinct(channels)
    ensures SessionsMatch(channels', tracked) && TimersMatch(channels') && SubscribersDistinct(channels')
  {
    forall k | k in tracked
      ensures TracksExactly(channels', k, tracked[k])
    {
      assert TracksExactly(channels, k, tracked[k]);
      forall c ensures Subscribed(channels', k, c) == Subscribed(channels, k, c) {
      }
    }
    forall c, i | c in channels' && 0 <= i < |channels'[c].subscribers|
      ensures channels'[c].subscribers[i].conn in tracked
    {
      assert channels'[c].subscribers == channels[c].subscribers;
    }
  }

  /** Appending a message to a channel's buffer keeps consistency. */
  lemma BufferPushKeeps(channels: ChannelMap, tracked: SessionMap, idleArmed: set<ConnId>,
                        c: ChannelId, m: Buffered)
    requires Consistent(channels, tracked, idleArmed)
    requires c in channels
    ensures Consistent(channels[c := channels[c].(msgs := Push(channels[c].msgs, m))], tracked, idleArmed)
  {
    var ch' := channels[c := channels[c].(msgs := Push(channels[c].msgs, m))];
    SubscriptionsUnchanged(channels, ch', tracked);
    assert BuffersBounded(ch');
  }

  /** A connection that tracks nothing any more can leave, idle timer and all. */
  lemma DropSessionKeeps(channels: ChannelMap, tracked: SessionMap, idleArmed: set<ConnId>,
                         k: ConnId)
    requires Consistent(channels, tracked, idleArmed)
    requires k in tracked && tracked[k] == []
    ensures Consistent(channels, tracked - {k}, idleArmed - {k})
  {
    assert TracksExactly(channels, k, tracked[k]);
    forall c, i | c in channels && 0 <= i < |channels[c].subscribers|
      ensures channels[c].subscribers[i].conn in tracked - {k}
    {
      var x := channels[c].subscribers[i].conn;
      assert !Subscribed(channels, k, c);
      assert x == ConnsOf(channels[c].subscribers)[i];
    }
  }

  /** A new connection starts with an empty session. */
  lemma NewSessionKeeps(channels: ChannelMap, tracked: SessionMap, idleArmed: set<ConnId>,
                        k: ConnId)
    requires Consistent(channels, tracked, idleArmed)
    requires k !in tracked
    ensures Consistent(channels, tracked[k := []], idleArmed + {k})
  {
    forall c | c in channels
      ensures k !in ConnsOf(channels[c].subscribers)
    {
      var cs := ConnsOf(channels[c].subscribers);
      assert forall i :: 0 <= i < |cs| ==> cs[i] in tracked;
    }
  }

  // ---------------------------------------------------------------------
  // Status snapshot
  // ---------------------------------------------------------------------

  /** The status entries of a subscriber list, in order (lib/worker.js:163-165). */
  function Infos(subs: seq<Subscriber>): (r: seq<SubscriberInfo>)
    ensures |r| == |subs|
    ensures forall i :: 0 <= i < |subs| ==>
              r[i] == SubscriberInfo(subs[i].conn, subs[i].data, subs[i].subscribeStamp)
  {
    if subs == [] then [] else [SubscriberInfo(subs[0].conn, subs[0].data, subs[0].subscribeStamp)] + Infos(subs[1..])
  }

  /** The client keys listed in a channel's status entries. */
  function ClientKeys(infos: seq<SubscriberInfo>): (r: seq<ConnId>)
    ensures |r| == |infos|
    ensures forall i :: 0 <= i < |infos| ==> r[i] == infos[i].clientKey
  {
    if infos == [] then [] else [infos[0].clientKey] + ClientKeys(infos[1..])
  }

  /** The worker's status snapshot: one entry per existing channel, empty ones included. */
  function Snapshot(channels: ChannelMap): (r: map<ChannelId, seq<SubscriberInfo>>)
    ensures r.Keys == channels.Keys
  {
    map c | c in channels :: Infos(channels[c].subscribers)
  }

  /** The snapshot lists a connection under a channel exactly when that connection's session tracks the channel. */
  lemma SnapshotMatchesSessions(channels: ChannelMap, tracked: SessionMap, idleArmed: set<ConnId>,
                                k: ConnId, c: ChannelId)
    requires Consistent(channels, tracked, idleArmed)
    requires k in tracked
    ensures c in tracked[k] <==> (c in Snapshot(channels) && k in ClientKeys(Snapshot(channels)[c]))
  {
    if c in channels {
      assert ClientKeys(Snapshot(channels)[c]) == ConnsOf(channels[c].subscribers);
    }
  }

  // ---------------------------------------------------------------------
  // Proof helpers: generic facts about maps and sequences that the
  // worker's methods cite as hints; they model nothing of the worker
  // ---------------------------------------------------------------------

  /** A second update of the same key overrides the first. */
  lemma UpdateTwice<K, V>(m: map<K, V>, c: K, a: V, b: V)
    ensures m[c := a][c := b] == m[c := b]
  {
  }

  /** Sequence concatenation is associative. */
  lemma AppendAssoc<T>(a: seq<T>, b: seq<T>, c: seq<T>)
    ensures (a + b) + c == a + (b + c)
  {
  }
}
