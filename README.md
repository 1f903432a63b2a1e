# socket-redis worker: channel registry and connection sessions

This project is a Dafny model of the connection-handling worker of
socket-redis (`lib/worker.js`). A worker keeps:

- a registry of channels, each with its subscribers, a replay buffer of the
  last ten messages and a grace-teardown timer;
- for every open connection, the list of channel ids it subscribed to and an
  idle timer.

The model covers:

- the handlers that change this state: the client frames subscribe,
  unsubscribe, publish, message and heartbeat; connection open and close;
  the master's down-publish and down-status-request; the two timers firing;
- the frame validator in front of the client handlers;
- the status snapshot sent back to the master.

The files:

- `values.dfy` (module `Values`): decoded JSON values, the validator's
  "is null" and "is an integer" tests, and the `start || now` default of a
  subscribe.
- `channels.dfy` (module `Channels`): a channel record, the 10-entry buffer
  (`Push`, and its fold `Buffer`), the replay filter, the fan-out, and the
  list removals `_.reject` and `_.without`.
- `protocol.dfy` (module `Protocol`): client frames, the commands the
  dispatcher accepts (`Decode`), and the up- and down-events exchanged with
  the master.
- `registry.dfy` (module `Registry`): the consistency rules between
  channels, sessions and timers (`Consistent`), a lemma per registry step
  proving that the step keeps them, the effect of a close as a function
  (`Detached`), and the status snapshot.
- `worker.dfy` (module `Workers`): class `Worker`. Its fields are:
  - `channels`: the registry;
  - `tracked`: each connection's `connectionChannelIds`;
  - `idleArmed`: the connections whose idle timer is pending;
  - `outbox`: the `process.send` messages;
  - `writes`: the `connection.write` calls.

  Each handler is a method. It changes only the fields it names, states
  each field it may change in terms of the old state, and keeps `Valid()`.
- `objectkeys.dfy` (module `ObjectKeys`): what the down-publish, subscribe
  and unsubscribe handlers do, as written, with a channel id that names a
  member of `Object.prototype`. The source keeps its registry in a plain
  object, and such an id finds the inherited member (see the Findings section).

The invariant `Valid()` states these rules:

- no buffer holds more than 10 messages;
- a channel's teardown timer is pending if and only if the channel has no
  subscribers;
- a connection is at most once in a subscriber list;
- each session's list names exactly the channels whose subscriber list holds
  that connection, without duplicates;
- every subscriber belongs to an open connection;
- idle timers exist only for open connections.

Where the code and the protocol's written description differ, the model
follows the code:

- Only a `heartbeat` frame restarts the idle timer. The description says
  every frame does.
- `message` sends the sender's own connection id as `clientKey`.
- `unsubscribe` sends `up-unsubscribe` whenever the channel exists, even if
  the connection was not a subscriber.

## Model

| member | source | states |
|---|---|---|
| `Values.IsNull` | lib/worker.js:251-285 | A value the validator's "is null" test accepts never passes its integer test |
| `Values.IsInt` | lib/worker.js:257 | A string that passes the integer test is non-empty and ends in a decimal digit |
| `Values.StartTime` | lib/worker.js:213 | The replay bound of a subscribe is `now` only for the number 0, the one falsy value an integer-checked start can be; any other number or integer text is used as given |
| `Values.DigitsRoundTrip` | lib/worker.js:257 | The decimal text of a natural number denotes that number |
| `Values.IntTextRoundTrip` | lib/worker.js:257 | Every integer's text passes the validator's integer syntax and parses back to that integer |
| `Values.TextStartIsKept` | lib/worker.js:213 | A start sent as integer text, "0" included, is kept and never replaced by the clock |
| `Channels.Push` | lib/worker.js:91-94 | Pushing onto a buffer of at most 10 grows it by one below 10, or else drops the oldest entry; the new message is last and the older ones keep their order |
| `Channels.Buffer` | lib/worker.js:91-94 | A buffer built by any run of pushes holds at most 10 messages |
| `Channels.BufferKeepsLast` | lib/worker.js:91-94 | After any run of down-publishes a buffer is exactly the last (up to) 10 messages received, in arrival order |
| `Channels.BufferStep` | lib/worker.js:91-94 | One more message moves the buffer by exactly one push |
| `Channels.Replay` | lib/worker.js:221-225 | A replay never sends more contents than the buffer holds |
| `Channels.ReplayAppend` | lib/worker.js:221-225 | Replaying two stretches of a buffer is replaying their concatenation |
| `Channels.ReplayMembers` | lib/worker.js:221-225 | A content is replayed exactly when some buffered message carrying it is stamped strictly after the start |
| `Channels.ReplayNothingAfterLast` | lib/worker.js:222 | A start at or after every stamp replays nothing |
| `Channels.ReplayEverythingBeforeFirst` | lib/worker.js:222 | A start before every stamp replays the whole buffer in order |
| `Channels.DistinctAppend` | lib/worker.js:210-220 | Appending a subscriber whose connection is not yet listed keeps the connections distinct |
| `Channels.Without` | lib/worker.js:196-198 | `_.reject` never lengthens the subscriber list |
| `Channels.WithoutAppend` | lib/worker.js:196-198 | `_.reject` filters each stretch of a list on its own, so the kept subscribers stay in their order |
| `Channels.WithoutMembers` | lib/worker.js:196-198 | `_.reject` keeps exactly the subscriber entries of the other connections |
| `Channels.WithoutConns` | lib/worker.js:196-198 | After `_.reject` the connection is in no entry, and every other connection is listed exactly when it was before |
| `Channels.WithoutUnchanged` | lib/worker.js:196-198 | A subscriber list without the connection comes back unchanged |
| `Channels.WithoutDistinct` | lib/worker.js:196-198 | `_.reject` keeps the connections of a list distinct |
| `Channels.Remove` | lib/worker.js:190 | `_.without` keeps exactly the other ids, returns a list without the id unchanged, and keeps a duplicate-free list duplicate-free |
| `Channels.RemoveAppend` | lib/worker.js:190 | `_.without` filters each stretch of a list on its own, so the kept ids stay in their order |
| `Channels.RemoveHead` | lib/worker.js:190 | Removing the first id of a duplicate-free list leaves its tail |
| `Channels.FanOut` | lib/worker.js:95-97 | A down-publish writes the content once per subscriber, to that subscriber's connection, in subscriber order |
| `Channels.FanOutOnce` | lib/worker.js:95-97 | With distinct subscribers every subscribed connection receives the content exactly once and no other connection receives it |
| `Protocol.UnsubscribeEvents` | lib/worker.js:309-311 | Closing sends one up-unsubscribe per tracked channel, in tracked order |
| `Protocol.Decode` | lib/worker.js:247-306 | The validator accepts a frame exactly when its required fields pass the checks of its event. It rejects a missing event, an unknown event, and a missing payload on any event but heartbeat. An accepted frame yields a well-formed command under the frame's own event name. The command carries the frame's channel, data, start and event, and a publish without data carries null |
| `Protocol.DecodeEncode` | lib/worker.js:247-306 | Every well-formed command survives the dispatcher unchanged |
| `Protocol.PublishDefaultsToNull` | lib/worker.js:281-283 | A publish without `data` is accepted and publishes null |
| `Protocol.PublishUp` | lib/worker.js:235-236 | A client publish goes up on the same channel with the same data, under the event name prefixed by `client-` |
| `Registry.Unsubscribed` | lib/worker.js:196-201 | After an unsubscribe the channel keeps exactly the entries of the other connections, so the connection is in none. A channel it was not subscribed to is left with the same list. The buffer is unchanged, and the teardown is armed if the list is empty |
| `Registry.WithSubscriber` | lib/worker.js:215-220 | A fresh subscribe appends the subscriber last, keeps the existing subscribers and buffer (empty for a new channel), and cancels the teardown |
| `Registry.Published` | lib/worker.js:85-94 | After a down-publish the channel exists, with the message last in its buffer. An absent channel is created with no subscribers, only that message and its teardown armed. An existing one keeps its subscribers and timer, and no other channel changes |
| `Registry.SubscribeThenUnsubscribe` | lib/worker.js:189-227 | Unsubscribing undoes a fresh subscribe: the subscriber list and buffer are as before |
| `Registry.SubscribeKeeps` | lib/worker.js:209-227 | A fresh subscribe keeps every consistency rule |
| `Registry.UnsubscribeKeeps` | lib/worker.js:189-202 | An unsubscribe keeps every consistency rule, whether or not the channel exists or the connection was subscribed |
| `Registry.UnsubscribeKeepsSession` | lib/worker.js:189-202 | After an unsubscribe each session still names exactly the channels it is subscribed to |
| `Registry.UnsubscribeKeepsLive` | lib/worker.js:196-198 | Removing subscriber entries leaves every remaining subscriber an open connection |
| `Registry.Detached` | lib/worker.js:308-313 | Unsubscribing a connection from a run of channels never adds or removes a channel |
| `Registry.DetachedChannel` | lib/worker.js:309-311 | After a run of unsubscribes each channel of the run is unsubscribed once, repeats notwithstanding, and every other channel is as it was |
| `Registry.DetachedAll` | lib/worker.js:308-313 | Unsubscribing from every tracked channel leaves every channel of the registry as if the connection had unsubscribed from it |
| `Registry.TeardownKeeps` | lib/worker.js:151-153 | A teardown fires only on a channel without subscribers, so deleting it keeps consistency and no session refers to it |
| `Registry.AddIdleChannelKeeps` | lib/worker.js:86-89 | Adding an empty channel with its teardown armed keeps consistency |
| `Registry.SubscriptionsUnchanged` | lib/worker.js:91-94 | Changing only buffers leaves the session and timer rules as they were |
| `Registry.BufferPushKeeps` | lib/worker.js:91-94 | Pushing a message onto a channel's buffer keeps consistency |
| `Registry.DropSessionKeeps` | lib/worker.js:308-313 | A connection that tracks nothing can leave, idle timer included, without breaking consistency |
| `Registry.NewSessionKeeps` | lib/worker.js:182-184 | A new connection with an empty session and a running idle timer keeps consistency |
| `Registry.Infos` | lib/worker.js:163-165 | A channel's status entries are `{clientKey, data, subscribeStamp}` of its subscribers, one each, in order |
| `Registry.Snapshot` | lib/worker.js:160-168 | The status snapshot has exactly one key per existing channel, empty channels included |
| `Registry.SnapshotMatchesSessions` | lib/worker.js:160-168 | The snapshot lists a connection under a channel if and only if that connection's session tracks the channel |
| `Workers.FanOutWrites` | lib/worker.js:95-97 | The loop over the subscribers produces exactly the fan-out |
| `Workers.ReplayWrites` | lib/worker.js:221-225 | The loop over the buffer writes to the connection exactly the replayed contents, in buffer order |
| `Workers.Worker.constructor` | lib/worker.js:24-41 | A worker starts with no channels, sessions, timers, events or writes |
| `Workers.Worker.CreateChannel` | lib/worker.js:137-140 | Creating a channel puts an empty record with no teardown under its id |
| `Workers.Worker.DelayedCloseChannel` | lib/worker.js:145-155 | Arming the teardown sets the channel's timer (a pending one is replaced) and leaves an absent channel alone |
| `Workers.Worker.CloseTimerFires` | lib/worker.js:151-153 | The teardown deletes exactly that channel and its buffer, keeps consistency, and no session refers to it |
| `Workers.Worker.SendDownPublish` | lib/worker.js:84-98 | A down-publish creates an absent channel with no subscribers and its teardown armed. It pushes the message with the current time onto the buffer, touches no other channel and no subscriber list, and writes the content once to each subscriber in order |
| `Workers.Worker.StoreMessage` | lib/worker.js:85-94 | The registry after a down-publish is the one `Published` describes, and consistency is kept |
| `Workers.Worker.AddIdleChannel` | lib/worker.js:86-89 | A channel created by a down-publish has no subscribers, an empty buffer and its teardown armed |
| `Workers.Worker.BufferMessage` | lib/worker.js:91-94 | Only the channel's buffer changes, by one push |
| `Workers.Worker.TriggerEventDown` | lib/worker.js:51-63 | A down-publish acts as above and sends nothing up. A status request sends one up-status-request with the same request id and the snapshot, and changes nothing else. Any other type changes nothing |
| `Workers.Worker.StopConnectionTimeout` | lib/worker.js:74-77 | Stopping clears the connection's idle timer and no other |
| `Workers.Worker.StartConnectionTimeout` | lib/worker.js:65-72 | Starting leaves exactly one idle timer for the connection, replacing a pending one |
| `Workers.Worker.Connect` | lib/worker.js:176-184 | A missing connection is ignored; otherwise the connection gets an empty session and a running idle timer |
| `Workers.Worker.Subscribe` | lib/worker.js:209-227 | A channel already tracked is a complete no-op. Otherwise the session appends the id and the channel holds the subscriber last, with its teardown cancelled. The buffered messages after `start || now` are written to the connection in order, and exactly one up-subscribe is sent. Afterwards the connection is subscribed |
| `Workers.Worker.Attach` | lib/worker.js:213-220 | The registry half of a fresh subscribe: the session tracks the id, and the channel (created if absent) holds the new subscriber last, with its teardown cancelled |
| `Workers.Worker.Unsubscribe` | lib/worker.js:189-202 | The id always leaves the session's list. An absent channel changes nothing else. Otherwise one up-unsubscribe is sent, every entry of the connection is removed, and the teardown is armed if no subscriber is left. Afterwards the connection is not subscribed |
| `Workers.Worker.RejectSubscriber` | lib/worker.js:196-201 | On an existing channel, every entry of the connection leaves the subscriber list and the teardown is armed if none is left; no other channel changes |
| `Workers.Worker.Publish` | lib/worker.js:234-237 | Sends one up-publish with the `client-` event and touches nothing else |
| `Workers.Worker.Message` | lib/worker.js:243-245 | Sends one up-message with the sender's id and the data |
| `Workers.Worker.OnData` | lib/worker.js:247-306 | A rejected frame changes no state and sends nothing. Only a heartbeat restarts the idle timer. Publish and message leave the registry alone and send their one event. An accepted subscribe or unsubscribe has exactly the effect of the subscribe or unsubscribe handler on the frame's channel: the no-op on a tracked id, the new session and channel record, the replayed writes and the one up-event. Afterwards the connection is subscribed, or unsubscribed |
| `Workers.Worker.Close` | lib/worker.js:308-313 | On close every channel is as if the connection had unsubscribed from it, so the connection is in no subscriber list. One up-unsubscribe goes out per tracked channel, in order. The idle timer is cleared, the session ends, and no channel is added or removed |
| `Workers.Worker.UnsubscribeEach` | lib/worker.js:309-311 | The close loop leaves the registry as the run of unsubscribes over the tracked ids specifies, with their up-unsubscribes in order |
| `ObjectKeys.DownPublishAsWritten` | lib/worker.js:84-98 | As written, a down-publish crashes the worker exactly when the channel id finds an inherited built-in; otherwise it acts as `Published` and the fan-out say |
| `ObjectKeys.DownPublishOnToStringCrashes` | lib/worker.js:84-91 | A down-publish on "toString" crashes as written, where the intended step buffers the message in a new channel |
| `ObjectKeys.SubscribeAsWritten` | lib/worker.js:209-227 | As written, a subscribe to an id that finds a built-in tracks the id but adds no subscriber and sends no up-subscribe; any other id is subscribed as intended |
| `ObjectKeys.SubscribeToToStringBreaksSessions` | lib/worker.js:214-220 | From a consistent registry, a subscribe to "toString" as written leaves the session tracking a channel its connection is not subscribed to |
| `ObjectKeys.UnsubscribeAsWritten` | lib/worker.js:189-202 | As written, an unsubscribe from an id that finds a built-in sends an up-unsubscribe and leaves the registry alone; other ids are unsubscribed as intended |
| `ObjectKeys.UnsubscribeFromToStringReportsMissingChannel` | lib/worker.js:191-195 | An unsubscribe from "toString" as written reports a channel that the status snapshot does not list |
| `Workers.Worker.IdleTimerFires` | lib/worker.js:69-71 | An idle timer firing closes the connection: every channel is as if the connection had unsubscribed from it, one up-unsubscribe goes out per tracked channel in order, the session and timer are gone, no channel is added or removed, and no subscription is left |

## Left out

- The SockJS server, HTTP/HTTPS `listen` and `stop` (lib/worker.js:24-45, 316-322) are network I/O and library code. The constructor keeps only its state.
- `process.send` is the `outbox` sequence and `connection.write` the `writes` sequence. The relative order of writes and up-events within one handler is not kept.
- Console logging of rejected frames and unknown down-event types has no effect on state and is not modelled.
- `JSON.parse` and `JSON.stringify` are not modelled. A frame is already decoded, and input that fails to parse is a frame the validator rejects. Written content is the `Content` value itself.
- Only strings or missing values are modelled as a frame's `event`, `channel` and publish `event`. Other JSON types there are not.
- A down-event's `channel` and `event` are modelled as strings that are always present. When the master leaves the channel out, the source files the message under the key `"undefined"`; that case is not modelled.
- Workers.Worker.SendDownPublish, Workers.Worker.Subscribe, Workers.Worker.Unsubscribe: treat a channel id that names a member of `Object.prototype` as an ordinary key, as do the Registry steps. What the source does with such ids (a crash, a half-done subscribe, an up-unsubscribe for no channel) is stated separately in `ObjectKeys` and in the Findings section. That covers one step from built-ins that carry no fields. Fields that an unsubscribe writes onto a built-in, and that later steps then see, are not modelled; for `"__proto__"` that built-in is `Object.prototype` itself.
- Values that are neither null, integral numbers nor strings are one `Other` case. The validator's string coercion of arrays and objects is not modelled; for example, an empty array counts as null there.
- Any integral number passes the integer check in the model. JavaScript writes numbers of 1e21 and above in exponent form, which the validator's integer check rejects.
- `setTimeout`, `clearTimeout` and `Date` are not modelled. Timers are flags with explicit "fires" methods, and the clock is the `now` argument. The 1000-second idle and 10-second teardown durations are not modelled.
- Workers.Worker.Subscribe: reads the clock once for both `start || now` and `subscribeStamp`, while the source reads it twice.
- Workers.Worker.SendDownPublish: states the new buffer as one push onto the old one. It does not keep a history of received messages in the worker. The last-ten property is proved of the `Buffer` fold (`Channels.BufferKeepsLast`), and `Channels.BufferStep` ties that fold to the push.
- Workers.Worker.Connect: requires that the connection id is not already open. The source gets a fresh connection object per connection.
- Workers.Worker.Close: ends the session, which the source leaves as an empty list in a closure that is never used again.
- Workers.Worker.IdleTimerFires: runs the close handler directly. The source calls `connection.close()`, and the transport then emits `close`.
- Connections are modelled by their ids, and subscriber identity (`subscriber.connection === connection`) is id equality.
- The `channels` dictionary is shared at module level by all Worker instances in one process (lib/worker.js:11, 16). The model gives one worker its own registry.
- bin/socket-redis.js, lib/worker-fork.js, lib/config.js and test/server.js are not part of this model. They hold process supervision, argument parsing, configuration loading, and tests of the master process.

## Findings

| source | as written | input that shows it | evidently intended | confidence | as-written member | corrected member |
|---|---|---|---|---|---|---|
| lib/worker.js:84-91 | `channels` is a plain object, so `channels["toString"]` finds the inherited function; no channel is created and `channel.msgs.push` throws a TypeError that nothing catches on the way from the master's message | a down-publish on channel `"toString"`, which any client can cause by publishing on that channel | the channel is created and the message buffered and fanned out, as for every other id | high, not executed | `ObjectKeys.DownPublishAsWritten`, `ObjectKeys.DownPublishOnToStringCrashes` | `Registry.Published` |
| lib/worker.js:214-220 | the id is pushed onto the session's list, then the lookup finds the built-in and `channel.subscribers.push` throws; the frame handler only logs the error | a `subscribe` frame for channel `"toString"` on a fresh connection | the connection becomes a subscriber and the session tracks exactly its subscriptions | high, not executed | `ObjectKeys.SubscribeAsWritten`, `ObjectKeys.SubscribeToToStringBreaksSessions` | `Registry.SubscribeKeeps` |
| lib/worker.js:191-195 | the lookup finds the built-in, so an up-unsubscribe is sent for a channel the worker does not hold | an `unsubscribe` frame for channel `"toString"` | nothing is sent for a channel the registry does not hold | medium, not executed | `ObjectKeys.UnsubscribeAsWritten`, `ObjectKeys.UnsubscribeFromToStringReportsMissingChannel` | `Workers.Worker.Unsubscribe` |
