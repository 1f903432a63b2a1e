/**
 * The worker: its channel registry, the sessions of its live connections,
 * their idle timers, and the handlers that change them. The master's IPC
 * channel is the `outbox` of up-events sent, and connection writes are the
 * `writes` log; timers are flags with explicit "fires" steps, and the clock
 * is the `now` argument of the steps that read it.
 */
module Workers {
  import opened Values
  import opened Channels
  import opened Protocol
  import opened Registry

  /** The writes of a down-publish: the content to each subscriber, in subscriber order (lib/worker.js:95-97). */
  method FanOutWrites(subs: seq<Subscriber>, content: Content) returns (ws: seq<Write>)
    ensures ws == FanOut(subs, content)
  {
    ws := [];
    var i := 0;
    while i < |subs|
      invariant 0 <= i <= |subs|
      invariant ws == FanOut(subs[..i], content)
    {
      assert subs[..i + 1][..i] == subs[..i];
      ws := ws + [Write(subs[i].conn, content)];
      i := i + 1;
    }
    assert subs[..i] == subs;
  }

  /**
   * The writes of a subscribe's replay: the content of every buffered
   * message stamped strictly after `start`, in buffer order, to `conn`
   * (lib/worker.js:221-225).
   */
  method ReplayWrites(conn: ConnId, msgs: seq<Buffered>, start: int) returns (ws: seq<Write>)
    ensures ws == Addressed(conn, Replay(msgs, start))
  {
    ws := [];
    var i := 0;
    while i < |msgs|
      invariant 0 <= i <= |msgs|
      invariant ws == Addressed(conn, Replay(msgs[..i], start))
    {
      assert msgs[..i + 1][..i] == msgs[..i];
      ghost var r := Replay(msgs[..i], start);
      if msgs[i].timestamp > start {
        assert (r + [msgs[i].content])[..|r|] == r;
        ws := ws + [Write(conn, msgs[i].content)];
      }
      i := i + 1;
    }
    assert msgs[..i] == msgs;
  }

  class Worker {
    /** The channel registry, keyed by channel id. */
    var channels: ChannelMap
    /** For each live connection, the ids of the channels it has subscribed to. */
    var tracked: SessionMap
    /** The connections whose idle timer is pending. */
    var idleArmed: set<ConnId>
    /** Up-events sent to the master, oldest first. */
    var outbox: seq<UpEvent>
    /** Writes to client connections, oldest first. */
    var writes: seq<Write>

    ghost predicate Valid()
      reads this`channels, this`tracked, this`idleArmed
    {
      Consistent(channels, tracked, idleArmed)
    }

    /** A worker starts with no channels, no connections and no timers (lib/worker.js:11, 38). */
    constructor ()
      ensures Valid()
      ensures channels == map[] && tracked == map[] && idleArmed == {}
      ensures outbox == [] && writes == []
    {
      channels := map[];
      tracked := map[];
      idleArmed := {};
      outbox := [];
      writes := [];
    }

    // -------------------------------------------------------------------
    // Channels and their teardown timer
    // -------------------------------------------------------------------

    /** Put an empty channel record under `id`. */
    method CreateChannel(id: ChannelId)
      modifies this`channels
      ensures channels == old(channels)[id := EmptyChannel]
    {
      channels := channels[id := EmptyChannel];
    }

    /** Arm the channel's teardown timer, replacing a pending one; an absent channel is left alone. */
    method DelayedCloseChannel(id: ChannelId)
      modifies this`channels
      ensures id in old(channels) ==> channels == old(channels)[id := old(channels)[id].(closeArmed := true)]
      ensures id !in old(channels) ==> channels == old(channels)
    {
      if id in channels {
        channels := channels[id := channels[id].(closeArmed := true)];
      }
    }

    /**
     * The teardown timer of `id` fires: the channel and its buffer go, no
     * other channel is touched, and no session still refers to it.
     */
    method CloseTimerFires(id: ChannelId)
      requires Valid()
      requires id in channels && channels[id].closeArmed
      modifies this`channels
      ensures Valid()
      ensures channels == old(channels) - {id}
      ensures forall k :: k in tracked ==> id !in tracked[k]
    {
      TeardownKeeps(channels, tracked, idleArmed, id);
      channels := channels - {id};
    }

    // -------------------------------------------------------------------
    // Down-events from the master
    // -------------------------------------------------------------------

    /**
     * Deliver a message the master broadcast: buffer it in the channel
     * (creating the channel, with its teardown armed, when absent) and
     * write it once to each current subscriber.
     */
    method SendDownPublish(id: ChannelId, event: string, data: Value, now: nat)
      requires Valid()
      modifies this`channels, this`writes
      ensures Valid()
      ensures channels == Published(old(channels), id, Buffered(now, Content(id, event, data)))
      ensures writes == old(writes) + FanOut(channels[id].subscribers, Content(id, event, data))
    {
      var content := Content(id, event, data);
      StoreMessage(id, Buffered(now, content));
      var ws := FanOutWrites(channels[id].subscribers, content);
      writes := writes + ws;
    }

    /** The registry half of a down-publish: create the channel when absent, then buffer the message (lib/worker.js:85-94). */
    method StoreMessage(id: ChannelId, m: Buffered)
      requires Valid()
      modifies this`channels
      ensures Valid()
      ensures channels == Published(old(channels), id, m)
    {
      if id !in channels {
        AddIdleChannel(id);
      }
      BufferMessage(id, m);
    }

    /** A down-publish on an absent channel creates it and arms its teardown at once (lib/worker.js:87-90). */
    method AddIdleChannel(id: ChannelId)
      requires Valid()
      requires id !in channels
      modifies this`channels
      ensures Valid()
      ensures channels == old(channels)[id := Channel([], [], true)]
    {
      AddIdleChannelKeeps(channels, tracked, idleArmed, id);
      ghost var before := channels;
      CreateChannel(id);
      DelayedCloseChannel(id);
      UpdateTwice(before, id, EmptyChannel, EmptyChannel.(closeArmed := true));
    }

    /** Append a message to a channel's buffer, dropping the oldest beyond Capacity (lib/worker.js:91-94). */
    method BufferMessage(id: ChannelId, m: Buffered)
      requires Valid()
      requires id in channels
      modifies this`channels
      ensures Valid()
      ensures channels == old(channels)[id := old(channels)[id].(msgs := Push(old(channels)[id].msgs, m))]
    {
      BufferPushKeeps(channels, tracked, idleArmed, id, m);
      channels := channels[id := channels[id].(msgs := Push(channels[id].msgs, m))];
    }

    /** Route a down-event from the master; an unknown type changes nothing. */
    method TriggerEventDown(ev: DownEvent, now: nat)
      requires Valid()
      modifies this`channels, this`writes, this`outbox
      ensures Valid()
      ensures ev.kind == "down-status-request" ==>
                outbox == old(outbox) + [UpStatusRequest(ev.data.requestId, Snapshot(old(channels)))] &&
                channels == old(channels) && writes == old(writes)
      ensures ev.kind == "down-publish" ==>
                var id := ev.data.channel;
                var content := Content(id, ev.data.event, ev.data.data);
                outbox == old(outbox) &&
                channels == Published(old(channels), id, Buffered(now, content)) &&
                writes == old(writes) + FanOut(channels[id].subscribers, content)
      ensures ev.kind != "down-publish" && ev.kind != "down-status-request" ==>
                channels == old(channels) && writes == old(writes) && outbox == old(outbox)
    {
      if ev.kind == "down-publish" {
        SendDownPublish(ev.data.channel, ev.data.event, ev.data.data, now);
      } else if ev.kind == "down-status-request" {
        outbox := outbox + [UpStatusRequest(ev.data.requestId, Snapshot(channels))];
      }
    }

    // -------------------------------------------------------------------
    // Idle timers
    // -------------------------------------------------------------------

    /** Clear the connection's idle timer. */
    method StopConnectionTimeout(conn: ConnId)
      modifies this`idleArmed
      ensures idleArmed == old(idleArmed) - {conn}
    {
      idleArmed := idleArmed - {conn};
    }

    /** (Re)start the connection's idle timer; a pending one is cleared first, so there is at most one. */
    method StartConnectionTimeout(conn: ConnId)
      modifies this`idleArmed
      ensures idleArmed == old(idleArmed) + {conn}
    {
      if conn in idleArmed {
        StopConnectionTimeout(conn);
      }
      idleArmed := idleArmed + {conn};
    }

    // -------------------------------------------------------------------
    // Connection handlers
    // -------------------------------------------------------------------

    /** A connection opens: its idle timer starts and its session tracks nothing; a missing connection is ignored. */
    method Connect(conn: Option<ConnId>)
      requires Valid()
      requires conn.Some? ==> conn.value !in tracked
      modifies this`tracked, this`idleArmed
      ensures Valid()
      ensures conn.None? ==> tracked == old(tracked) && idleArmed == old(idleArmed)
      ensures conn.Some? ==> tracked == old(tracked)[conn.value := []] && idleArmed == old(idleArmed) + {conn.value}
    {
      if conn.Some? {
        NewSessionKeeps(channels, tracked, idleArmed, conn.value);
        ghost var tracked', idleArmed' := tracked[conn.value := []], idleArmed + {conn.value};
        assert Consistent(channels, tracked', idleArmed');
        StartConnectionTimeout(conn.value);
        tracked := tracked[conn.value := []];
        assert tracked == tracked' && idleArmed == idleArmed';
      }
    }

    /**
     * Subscribe connection `conn` to channel `id`. A channel the session
     * already tracks is a no-op. Otherwise the session tracks it, the channel
     * exists with its teardown cancelled and `conn` as its last subscriber,
     * the buffered messages stamped after `start || now` are written to
     * `conn` in buffer order, and one up-subscribe is sent.
     */
    method Subscribe(conn: ConnId, id: ChannelId, data: Value, start: Value, now: nat)
      requires Valid()
      requires conn in tracked && IsInt(start)
      modifies this`channels, this`tracked, this`writes, this`outbox
      ensures Valid()
      ensures id in old(tracked[conn]) ==>
                channels == old(channels) && tracked == old(tracked) &&
                writes == old(writes) && outbox == old(outbox)
      ensures id !in old(tracked[conn]) ==>
                && tracked == old(tracked)[conn := old(tracked[conn]) + [id]]
                && channels == old(channels)[id := WithSubscriber(old(channels), id, Subscriber(conn, data, now))]
                && writes == old(writes) + Addressed(conn, Replay(channels[id].msgs, StartTime(start, now)))
                && outbox == old(outbox) + [UpSubscribe(id, conn, data)]
      ensures Subscribed(channels, conn, id)
    {
      if id in tracked[conn] {
        return;
      }
      var s := Subscriber(conn, data, now);
      Attach(conn, id, s);
      var ws := ReplayWrites(conn, channels[id].msgs, StartTime(start, now));
      writes := writes + ws;
      outbox := outbox + [UpSubscribe(id, conn, data)];
    }

    /**
     * The registry half of a fresh subscribe: the session tracks `id`, the
     * channel exists (created empty when absent) with its teardown cancelled,
     * and `s` is its last subscriber (lib/worker.js:213-220).
     */
    method Attach(conn: ConnId, id: ChannelId, s: Subscriber)
      requires Valid()
      requires conn in tracked && id !in tracked[conn] && s.conn == conn
      modifies this`channels, this`tracked
      ensures tracked == old(tracked)[conn := old(tracked[conn]) + [id]]
      ensures channels == old(channels)[id := WithSubscriber(old(channels), id, s)]
      ensures Subscribed(channels, conn, id)
      ensures Valid()
    {
      SubscribeKeeps(channels, tracked, idleArmed, conn, id, s);
      ghost var channels' := channels[id := WithSubscriber(channels, id, s)];
      tracked := tracked[conn := tracked[conn] + [id]];
      if id !in channels {
        CreateChannel(id);
      }
      var ch := channels[id];
      channels := channels[id := Channel(ch.subscribers + [s], ch.msgs, false)];
      assert channels == channels';
      ConnsOfAppend(ch.subscribers, s);
    }

    /**
     * Unsubscribe connection `conn` from channel `id`: the session stops
     * tracking it; if the channel exists, one up-unsubscribe is sent (even
     * when `conn` was not a subscriber), every subscriber entry of `conn` is
     * removed, and the teardown is armed when no subscriber is left.
     */
    method Unsubscribe(conn: ConnId, id: ChannelId)
      requires Valid()
      requires conn in tracked
      modifies this`channels, this`tracked, this`outbox
      ensures Valid()
      ensures tracked == old(tracked)[conn := Remove(old(tracked[conn]), id)]
      ensures id !in old(channels) ==> channels == old(channels) && outbox == old(outbox)
      ensures id in old(channels) ==>
                channels == old(channels)[id := Unsubscribed(old(channels)[id], conn)] &&
                outbox == old(outbox) + [UpUnsubscribe(id, conn)]
      ensures !Subscribed(channels, conn, id)
    {
      UnsubscribeKeeps(channels, tracked, idleArmed, conn, id);
      tracked := tracked[conn := Remove(tracked[conn], id)];
      if id !in channels {
        return;
      }
      outbox := outbox + [UpUnsubscribe(id, conn)];
      RejectSubscriber(conn, id);
    }

    /**
     * The registry half of an unsubscribe from an existing channel: drop
     * every entry of `conn`, and arm the teardown when none is left
     * (lib/worker.js:196-201).
     */
    method RejectSubscriber(conn: ConnId, id: ChannelId)
      requires id in channels
      modifies this`channels
      ensures channels == old(channels)[id := Unsubscribed(old(channels)[id], conn)]
    {
      var ch := channels[id];
      ghost var before := channels;
      var rejected := ch.(subscribers := Without(ch.subscribers, conn));
      channels := channels[id := rejected];
      if channels[id].subscribers == [] {
        DelayedCloseChannel(id);
        UpdateTwice(before, id, rejected, rejected.(closeArmed := true));
        assert rejected.(closeArmed := true) == Unsubscribed(before[id], conn);
      } else {
        assert rejected == Unsubscribed(before[id], conn);
      }
    }

    /** A client publish: one up-publish with the `client-` prefix; the registry is not touched. */
    method Publish(id: ChannelId, event: string, data: Value)
      modifies this`outbox
      ensures outbox == old(outbox) + [PublishUp(id, event, data)]
    {
      outbox := outbox + [UpPublish(id, "client-" + event, data)];
    }

    /** A client message: one up-message carrying the sending connection's own id. */
    method Message(conn: ConnId, data: Value)
      modifies this`outbox
      ensures outbox == old(outbox) + [UpMessage(conn, data)]
    {
      outbox := outbox + [UpMessage(conn, data)];
    }

    /**
     * A frame arrives on connection `conn`. A frame the validator rejects
     * changes nothing; only a heartbeat restarts the idle timer.
     */
    method OnData(conn: ConnId, f: Frame, now: nat)
      requires Valid()
      requires conn in tracked
      modifies this`channels, this`tracked, this`writes, this`outbox, this`idleArmed
      ensures Valid()
      ensures Decode(f) == None ==>
                channels == old(channels) && tracked == old(tracked) &&
                writes == old(writes) && outbox == old(outbox) && idleArmed == old(idleArmed)
      ensures Decode(f) == Some(Heartbeat) ==>
                idleArmed == old(idleArmed) + {conn} &&
                channels == old(channels) && tracked == old(tracked) && writes == old(writes) && outbox == old(outbox)
      ensures Decode(f) != Some(Heartbeat) ==> idleArmed == old(idleArmed)
      ensures Decode(f).Some? && (Decode(f).value.Publish? || Decode(f).value.Message?) ==>
                channels == old(channels) && tracked == old(tracked) && writes == old(writes)
      ensures Decode(f).Some? && Decode(f).value.Publish? ==>
                outbox == old(outbox) + [PublishUp(Decode(f).value.channel, Decode(f).value.event, Decode(f).value.data)]
      ensures Decode(f).Some? && Decode(f).value.Message? ==>
                outbox == old(outbox) + [UpMessage(conn, Decode(f).value.data)]
      ensures Decode(f).Some? && Decode(f).value.Subscribe? ==>
                var cmd := Decode(f).value;
                && (cmd.channel in old(tracked[conn]) ==>
                      channels == old(channels) && tracked == old(tracked) &&
                      writes == old(writes) && outbox == old(outbox))
                && (cmd.channel !in old(tracked[conn]) ==>
                      && tracked == old(tracked)[conn := old(tracked[conn]) + [cmd.channel]]
                      && channels == old(channels)[cmd.channel := WithSubscriber(old(channels), cmd.channel, Subscriber(conn, cmd.data, now))]
                      && writes == old(writes) + Addressed(conn, Replay(channels[cmd.channel].msgs, StartTime(cmd.start, now)))
                      && outbox == old(outbox) + [UpSubscribe(cmd.channel, conn, cmd.data)])
                && Subscribed(channels, conn, cmd.channel)
      ensures Decode(f).Some? && Decode(f).value.Unsubscribe? ==>
                var id := Decode(f).value.channel;
                && tracked == old(tracked)[conn := Remove(old(tracked[conn]), id)]
                && writes == old(writes)
                && (id !in old(channels) ==> channels == old(channels) && outbox == old(outbox))
                && (id in old(channels) ==>
                      channels == old(channels)[id := Unsubscribed(old(channels)[id], conn)] &&
                      outbox == old(outbox) + [UpUnsubscribe(id, conn)])
                && !Subscribed(channels, conn, id)
    {
      match Decode(f)
      case None =>
      case Some(cmd) =>
        match cmd
        case Subscribe(id, data, start) => Subscribe(conn, id, data, start, now);
        case Unsubscribe(id) => Unsubscribe(conn, id);
        case Message(data) => Message(conn, data);
        case Publish(id, event, data) => Publish(id, event, data);
        case Heartbeat => StartConnectionTimeout(conn);
    }

    /**
     * Connection `conn` closes: every channel its session tracks is
     * unsubscribed in order, so `conn` is left in no subscriber list, and
     * its idle timer is cleared; the session ends.
     */
    method Close(conn: ConnId)
      requires Valid()
      requires conn in tracked
      modifies this`channels, this`tracked, this`outbox, this`idleArmed
      ensures tracked == old(tracked) - {conn}
      ensures idleArmed == old(idleArmed) - {conn}
      ensures channels.Keys == old(channels).Keys
      ensures forall c :: c in old(channels) ==> channels[c] == Unsubscribed(old(channels)[c], conn)
      ensures forall c :: !Subscribed(channels, conn, c)
      ensures outbox == old(outbox) + UnsubscribeEvents(old(tracked)[conn], conn)
      ensures Valid()
    {
      var ids := tracked[conn];
      DetachedAll(channels, tracked, idleArmed, conn);
      UnsubscribeEach(conn, ids);
      DropSessionKeeps(channels, tracked, idleArmed, conn);
      StopConnectionTimeout(conn);
      tracked := tracked - {conn};
    }

    /** Unsubscribe `conn` from each channel of its session, in order (lib/worker.js:309-311). */
    method UnsubscribeEach(conn: ConnId, ids: seq<ChannelId>)
      requires Valid()
      requires conn in tracked && tracked[conn] == ids
      modifies this`channels, this`tracked, this`outbox
      ensures tracked == old(tracked)[conn := []]
      ensures channels == Detached(old(channels), conn, ids)
      ensures outbox == old(outbox) + UnsubscribeEvents(ids, conn)
      ensures Valid()
    {
      ghost var before := channels;
      assert TracksExactly(before, conn, ids);
      var i := 0;
      while i < |ids|
        invariant 0 <= i <= |ids|
        invariant Valid()
        invariant tracked == old(tracked)[conn := ids[i..]]
        invariant channels == Detached(before, conn, ids[..i])
        invariant outbox == old(outbox) + UnsubscribeEvents(ids[..i], conn)
      {
        var id := ids[i];
        assert id in ids;
        RemoveHead(ids[i..]);
        assert ids[i..][1..] == ids[i + 1..];
        assert Subscribed(before, conn, id);
        DetachedStep(before, conn, ids, i);
        UpdateTwice(old(tracked), conn, ids[i..], ids[i + 1..]);
        AppendAssoc(old(outbox), UnsubscribeEvents(ids[..i], conn), [UpUnsubscribe(id, conn)]);
        Unsubscribe(conn, id);
        i := i + 1;
      }
      assert ids[..i] == ids && ids[i..] == [];
    }

    /** The idle timer of `conn` fires: the connection is closed. */
    method IdleTimerFires(conn: ConnId)
      requires Valid()
      requires conn in idleArmed
      modifies this`channels, this`tracked, this`outbox, this`idleArmed
      ensures Valid()
      ensures tracked == old(tracked) - {conn}
      ensures idleArmed == old(idleArmed) - {conn}
      ensures channels.Keys == old(channels).Keys
      ensures forall c :: c in old(channels) ==> channels[c] == Unsubscribed(old(channels)[c], conn)
      ensures forall c :: !Subscribed(channels, conn, c)
      ensures outbox == old(outbox) + UnsubscribeEvents(old(tracked)[conn], conn)
    {
      Close(conn);
    }
  }
}
