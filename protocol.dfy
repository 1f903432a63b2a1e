/**
 * The messages a worker exchanges: client frames (already JSON-decoded), the
 * commands the frame dispatcher accepts, the up-events it sends to the master
 * and the down-events it receives from it.
 */
module Protocol {
  import opened Values
  import opened Channels

  /** The `data` object of a client frame; a field the client left out is `None`/`Absent`. */
  datatype Payload = Payload(channel: Option<string>, event: Option<string>, data: Value, start: Value)

  /** A client frame `{event, data}`; `payload` is `None` when `data` is missing or null. */
  datatype Frame = Frame(event: Option<string>, payload: Option<Payload>)

  /** A frame that passed validation, with the arguments its handler is called with. */
  datatype Command =
    | Subscribe(channel: ChannelId, data: Value, start: Value)
    | Unsubscribe(channel: ChannelId)
    | Message(data: Value)
    | Publish(channel: ChannelId, event: string, data: Value)
    | Heartbeat

  /** One entry of a status snapshot. */
  datatype SubscriberInfo = SubscriberInfo(clientKey: ConnId, data: Value, subscribeStamp: int)

  /** Worker-to-master envelopes (`process.send`). */
  datatype UpEvent =
    | UpMessage(clientKey: ConnId, data: Value)
    | UpSubscribe(channel: ChannelId, clientKey: ConnId, data: Value)
    | UpUnsubscribe(channel: ChannelId, clientKey: ConnId)
    | UpPublish(channel: ChannelId, event: string, data: Value)
    | UpStatusRequest(requestId: Value, channels: map<ChannelId, seq<SubscriberInfo>>)

  /** The fields a down-event's `data` may carry. */
  datatype DownData = DownData(channel: ChannelId, event: string, data: Value, requestId: Value)

  /** Master-to-worker envelope `{type, data}`. */
  datatype DownEvent = DownEvent(kind: string, data: DownData)

  /** The up-unsubscribe events of connection `k` leaving the channels `ids`, in order. */
  function UnsubscribeEvents(ids: seq<ChannelId>, k: ConnId): (r: seq<UpEvent>)
    ensures |r| == |ids|
    ensures forall i :: 0 <= i < |ids| ==> r[i] == UpUnsubscribe(ids[i], k)
  {
    if ids == [] then [] else UnsubscribeEvents(ids[..|ids| - 1], k) + [UpUnsubscribe(ids[|ids| - 1], k)]
  }

  /** The frame `event` name a command is sent under. */
  function EventName(c: Command): string {
    match c
    case Subscribe(_, _, _) => "subscribe"
    case Unsubscribe(_) => "unsubscribe"
    case Message(_) => "message"
    case Publish(_, _, _) => "publish"
    case Heartbeat => "heartbeat"
  }

  /** The arguments a handler may be called with, as the dispatcher checks them. */
  predicate WellFormed(c: Command) {
    match c
    case Subscribe(channel, data, start) => channel != "" && !IsNull(data) && IsInt(start)
    case Unsubscribe(channel) => channel != ""
    case Message(data) => !IsNull(data)
    case Publish(channel, event, data) => channel != "" && event != "" && data != Absent
    case Heartbeat => true
  }

  /**
   * The frame validator and dispatcher of a connection's `data` handler: the
   * command to run, or `None` when the handler throws (and the error is
   * only logged). Every handler but heartbeat dereferences `data`, so a
   * missing payload is rejected for them; a publish without `data.data`
   * publishes null.
   */
  function Decode(f: Frame): (r: Option<Command>)
    ensures r.Some? ==> WellFormed(r.value) && f.event == Some(EventName(r.value))
    ensures IsNullText(f.event) ==> r == None
    ensures f.event.Some? && f.event.value !in {"subscribe", "unsubscribe", "message", "publish", "heartbeat"} ==> r == None
    ensures f.payload == None && f.event != Some("heartbeat") ==> r == None
    ensures f.event == Some("heartbeat") ==> r == Some(Heartbeat)
    ensures f.event == Some("subscribe") && f.payload.Some? ==>
              (r.Some? <==> !IsNullText(f.payload.value.channel) && !IsNull(f.payload.value.data) && IsInt(f.payload.value.start))
    ensures f.event == Some("unsubscribe") && f.payload.Some? ==> (r.Some? <==> !IsNullText(f.payload.value.channel))
    ensures f.event == Some("message") && f.payload.Some? ==> (r.Some? <==> !IsNull(f.payload.value.data))
    ensures f.event == Some("publish") && f.payload.Some? ==>
              (r.Some? <==> !IsNullText(f.payload.value.channel) && !IsNullText(f.payload.value.event))
    ensures f.event == Some("subscribe") && r.Some? ==>
              f.payload.Some? && f.payload.value.channel.Some? &&
              r.value == Subscribe(f.payload.value.channel.value, f.payload.value.data, f.payload.value.start)
    ensures f.event == Some("unsubscribe") && r.Some? ==>
              f.payload.Some? && f.payload.value.channel.Some? &&
              r.value == Unsubscribe(f.payload.value.channel.value)
    ensures f.event == Some("message") && r.Some? ==>
              f.payload.Some? && r.value == Message(f.payload.value.data)
    ensures f.event == Some("publish") && r.Some? ==>
              f.payload.Some? && f.payload.value.channel.Some? && f.payload.value.event.Some? &&
              r.value == Publish(f.payload.value.channel.value, f.payload.value.event.value,
                                 if f.payload.value.data == Absent then Null else f.payload.value.data)
  {
    if IsNullText(f.event) then None
    else
      var name := f.event.value;
      if name == "heartbeat" then Some(Heartbeat)
      else if name !in {"subscribe", "unsubscribe", "message", "publish"} || f.payload == None then None
      else
        var p := f.payload.value;
        if name == "subscribe" then
          if IsNullText(p.channel) || IsNull(p.data) || !IsInt(p.start) then None
          else Some(Subscribe(p.channel.value, p.data, p.start))
        else if name == "unsubscribe" then
          if IsNullText(p.channel) then None else Some(Unsubscribe(p.channel.value))
        else if name == "message" then
          if IsNull(p.data) then None else Some(Message(p.data))
        else
          var data := if p.data == Absent then Null else p.data;
          if IsNullText(p.channel) || IsNullText(p.event) then None
          else Some(Publish(p.channel.value, p.event.value, data))
  }

  /** A client frame that asks for command `c`. */
  function Encode(c: Command): Frame {
    match c
    case Subscribe(channel, data, start) => Frame(Some("subscribe"), Some(Payload(Some(channel), None, data, start)))
    case Unsubscribe(channel) => Frame(Some("unsubscribe"), Some(Payload(Some(channel), None, Absent, Absent)))
    case Message(data) => Frame(Some("message"), Some(Payload(None, None, data, Absent)))
    case Publish(channel, event, data) => Frame(Some("publish"), Some(Payload(Some(channel), Some(event), data, Absent)))
    case Heartbeat => Frame(Some("heartbeat"), None)
  }

  /** Every well-formed command survives the dispatcher unchanged. */
  lemma DecodeEncode(c: Command)
    requires WellFormed(c)
    ensures Decode(Encode(c)) == Some(c)
  {
  }

  /** A publish frame without `data.data` is accepted and publishes null. */
  lemma PublishDefaultsToNull(channel: string, event: string)
    requires channel != "" && event != ""
    ensures Decode(Frame(Some("publish"), Some(Payload(Some(channel), Some(event), Absent, Absent))))
            == Some(Publish(channel, event, Null))
  {
  }

  /** The up-event a client publish turns into: the event name gets the `client-` prefix. */
  function PublishUp(channel: ChannelId, event: string, data: Value): (u: UpEvent)
    ensures u.UpPublish? && u.channel == channel && u.data == data
    ensures |u.event| == |event| + 7 && u.event[..7] == "client-" && u.event[7..] == event
  {
    UpPublish(channel, "client-" + event, data)
  }
}
