/**
 * A channel record of the worker's registry and the list operations the
 * worker applies to it: the bounded message buffer, the replay filter of a
 * subscribe, the fan-out of a down-publish, and the two "remove every
 * occurrence" operations of an unsubscribe.
 */
module Channels {
  import opened Values

  type ChannelId = string
  type ConnId = string

  /** Messages a channel keeps for replay (lib/worker.js:92-93). */
  const Capacity: nat := 10

  /** What a subscriber's connection is sent: `{channel, event, data}`. */
  datatype Content = Content(channel: ChannelId, event: string, data: Value)

  /** A buffered message: the content and the worker's clock when it arrived. */
  datatype Buffered = Buffered(timestamp: int, content: Content)

  datatype Subscriber = Subscriber(conn: ConnId, data: Value, subscribeStamp: int)

  /**
   * A registry entry. `closeArmed` says whether its grace-teardown timer is
   * pending.
   */
  datatype Channel = Channel(subscribers: seq<Subscriber>, msgs: seq<Buffered>, closeArmed: bool)

  /** One `connection.write` of a serialized content. */
  datatype Write = Write(conn: ConnId, content: Content)

  // ---------------------------------------------------------------------
  // The message buffer
  // ---------------------------------------------------------------------

  /** Append a message, then cut the front so that at most Capacity remain. */
  function Push(msgs: seq<Buffered>, m: Buffered): (r: seq<Buffered>)
    requires |msgs| <= Capacity
    ensures |r| == if |msgs| < Capacity then |msgs| + 1 else Capacity
    ensures r[|r| - 1] == m
    ensures r[..|r| - 1] == if |msgs| < Capacity then msgs else msgs[1..]
  {
    var s := msgs + [m];
    if |s| > Capacity then s[|s| - Capacity..] else s
  }

  /** The buffer of a channel that has received the messages of `h`, in order, since it was created. */
  function Buffer(h: seq<Buffered>): (r: seq<Buffered>)
    ensures |r| <= Capacity
  {
    if h == [] then [] else Push(Buffer(h[..|h| - 1]), h[|h| - 1])
  }

  function Min(a: nat, b: nat): nat {
    if a < b then a else b
  }

  /** The buffer holds exactly the last (up to) Capacity messages received, in arrival order. */
  lemma {:induction false} BufferKeepsLast(h: seq<Buffered>)
    ensures Buffer(h) == h[|h| - Min(|h|, Capacity)..]
  {
    if h != [] {
      var p := h[..|h| - 1];
      BufferKeepsLast(p);
      var n := Min(|p|, Capacity);
      var s := p[|p| - n..] + [h[|h| - 1]];
      assert s == h[|p| - n..];
      if n == Capacity {
        assert s[|s| - Capacity..] == h[|h| - Capacity..];
      }
    }
  }

  /** Receiving one more message moves the buffer by one `Push`. */
  lemma BufferStep(h: seq<Buffered>, m: Buffered)
    ensures Buffer(h + [m]) == Push(Buffer(h), m)
  {
    assert (h + [m])[..|h|] == h;
  }

  // ---------------------------------------------------------------------
  // Replay on subscribe
  // ---------------------------------------------------------------------

  /** The contents of the buffered messages stamped strictly after `start`, in buffer order. */
  function Replay(msgs: seq<Buffered>, start: int): (r: seq<Content>)
    ensures |r| <= |msgs|
  {
    if msgs == [] then []
    else
      var last := msgs[|msgs| - 1];
      Replay(msgs[..|msgs| - 1], start) + (if last.timestamp > start then [last.content] else [])
  }

  /** Replaying two stretches of a buffer is replaying their concatenation. */
  lemma {:induction false} ReplayAppend(a: seq<Buffered>, b: seq<Buffered>, start: int)
    ensures Replay(a + b, start) == Replay(a, start) + Replay(b, start)
  {
    if b == [] {
      assert a + b == a;
    } else {
      var b' := b[..|b| - 1];
      assert (a + b)[..|a + b| - 1] == a + b';
      ReplayAppend(a, b', start);
    }
  }

  /** A content is replayed exactly when some buffered message carrying it is stamped after `start`. */
  lemma {:induction false} ReplayMembers(msgs: seq<Buffered>, start: int, c: Content)
    ensures c in Replay(msgs, start) <==>
            exists i :: 0 <= i < |msgs| && msgs[i].timestamp > start && msgs[i].content == c
  {
    if msgs != [] {
      var p, last := msgs[..|msgs| - 1], msgs[|msgs| - 1];
      ReplayMembers(p, start, c);
      assert Replay(msgs, start) == Replay(p, start) + (if last.timestamp > start then [last.content] else []);
      if exists i :: 0 <= i < |msgs| && msgs[i].timestamp > start && msgs[i].content == c {
        var i :| 0 <= i < |msgs| && msgs[i].timestamp > start && msgs[i].content == c;
        if i < |p| {
          assert p[i] == msgs[i];
        }
      }
      if exists i :: 0 <= i < |p| && p[i].timestamp > start && p[i].content == c {
        var i :| 0 <= i < |p| && p[i].timestamp > start && p[i].content == c;
        assert msgs[i] == p[i];
      }
    }
  }

  /** One write of each content, in order, to connection `k`. */
  function Addressed(k: ConnId, cs: seq<Content>): (r: seq<Write>)
    ensures |r| == |cs|
    ensures forall i :: 0 <= i < |cs| ==> r[i] == Write(k, cs[i])
  {
    if cs == [] then [] else Addressed(k, cs[..|cs| - 1]) + [Write(k, cs[|cs| - 1])]
  }

  /** A start at or after every buffered stamp replays nothing. */
  lemma {:induction false} ReplayNothingAfterLast(msgs: seq<Buffered>, start: int)
    requires forall i :: 0 <= i < |msgs| ==> msgs[i].timestamp <= start
    ensures Replay(msgs, start) == []
  {
    if msgs != [] {
      ReplayNothingAfterLast(msgs[..|msgs| - 1], start);
    }
  }

  /** The contents of a run of buffered messages, in order. */
  function Contents(msgs: seq<Buffered>): (r: seq<Content>)
    ensures |r| == |msgs|
    ensures forall i :: 0 <= i < |msgs| ==> r[i] == msgs[i].content
  {
    if msgs == [] then [] else Contents(msgs[..|msgs| - 1]) + [msgs[|msgs| - 1].content]
  }

  /** A start before every buffered stamp replays the whole buffer. */
  lemma {:induction false} ReplayEverythingBeforeFirst(msgs: seq<Buffered>, start: int)
    requires forall i :: 0 <= i < |msgs| ==> msgs[i].timestamp > start
    ensures Replay(msgs, start) == Contents(msgs)
  {
    if msgs != [] {
      var p := msgs[..|msgs| - 1];
      ReplayEverythingBeforeFirst(p, start);
    }
  }

  // ---------------------------------------------------------------------
  // Subscribers
  // ---------------------------------------------------------------------

  /** The connections of a subscriber list, in order. */
  function ConnsOf(subs: seq<Subscriber>): (r: seq<ConnId>)
    ensures |r| == |subs|
    ensures forall i :: 0 <= i < |subs| ==> r[i] == subs[i].conn
  {
    if subs == [] then [] else [subs[0].conn] + ConnsOf(subs[1..])
  }

  /** No connection appears twice in the list. */
  predicate DistinctConns(subs: seq<Subscriber>) {
    forall i, j :: 0 <= i < j < |subs| ==> subs[i].conn != subs[j].conn
  }

  predicate NoDuplicates<T(==)>(s: seq<T>) {
    forall i, j :: 0 <= i < j < |s| ==> s[i] != s[j]
  }

  /** Appending a subscriber whose connection is not yet in the list keeps the connections distinct. */
  lemma DistinctAppend(subs: seq<Subscriber>, s: Subscriber)
    requires DistinctConns(subs) && s.conn !in ConnsOf(subs)
    ensures DistinctConns(subs + [s])
  {
    forall i | 0 <= i < |subs|
      ensures subs[i].conn != s.conn
    {
      assert ConnsOf(subs)[i] == subs[i].conn;
    }
  }

  lemma ConnsOfAppend(subs: seq<Subscriber>, s: Subscriber)
    ensures ConnsOf(subs + [s]) == ConnsOf(subs) + [s.conn]
  {
  }

  /**
   * The subscribers that do not belong to connection `k`, in order
   * (`_.reject` with a connection-identity test).
   */
  function Without(subs: seq<Subscriber>, k: ConnId): (r: seq<Subscriber>)
    ensures |r| <= |subs|
  {
    if subs == [] then []
    else
      var last := subs[|subs| - 1];
      Without(subs[..|subs| - 1], k) + (if last.conn == k then [] else [last])
  }

  /** Filtering works stretch by stretch, so the entries it keeps stay in their order. */
  lemma {:induction false} WithoutAppend(a: seq<Subscriber>, b: seq<Subscriber>, k: ConnId)
    ensures Without(a + b, k) == Without(a, k) + Without(b, k)
  {
    if b == [] {
      assert a + b == a;
    } else {
      var b' := b[..|b| - 1];
      assert (a + b)[..|a + b| - 1] == a + b';
      WithoutAppend(a, b', k);
    }
  }

  /** Filtering keeps exactly the entries of the other connections. */
  lemma {:induction false} WithoutMembers(subs: seq<Subscriber>, k: ConnId)
    ensures forall s :: s in Without(subs, k) <==> s in subs && s.conn != k
  {
    if subs != [] {
      var p, last := subs[..|subs| - 1], subs[|subs| - 1];
      WithoutMembers(p, k);
      assert subs == p + [last];
      var w := Without(p, k);
      assert forall s :: s in (if last.conn == k then w else w + [last]) <==> s in p + [last] && s.conn != k;
      assert Without(subs, k) == if last.conn == k then w else w + [last];
    }
  }

  /** Filtering removes connection `k` and keeps every other connection. */
  lemma {:induction false} WithoutConns(subs: seq<Subscriber>, k: ConnId)
    ensures k !in ConnsOf(Without(subs, k))
    ensures forall k' :: k' != k ==> (k' in ConnsOf(Without(subs, k)) <==> k' in ConnsOf(subs))
  {
    if subs != [] {
      var p, last := subs[..|subs| - 1], subs[|subs| - 1];
      WithoutConns(p, k);
      assert subs == p + [last];
      ConnsOfAppend(p, last);
      var w := Without(p, k);
      if last.conn == k {
        assert Without(subs, k) == w;
      } else {
        ConnsOfAppend(w, last);
      }
    }
  }

  /** A list without connection `k` comes back unchanged. */
  lemma {:induction false} WithoutUnchanged(subs: seq<Subscriber>, k: ConnId)
    ensures k !in ConnsOf(subs) ==> Without(subs, k) == subs
  {
    if subs != [] && k !in ConnsOf(subs) {
      var p, last := subs[..|subs| - 1], subs[|subs| - 1];
      assert subs == p + [last];
      ConnsOfAppend(p, last);
      WithoutUnchanged(p, k);
    }
  }

  /** Filtering keeps connections distinct. */
  lemma {:induction false} WithoutDistinct(subs: seq<Subscriber>, k: ConnId)
    ensures DistinctConns(subs) ==> DistinctConns(Without(subs, k))
  {
    if subs != [] && DistinctConns(subs) {
      var p, last := subs[..|subs| - 1], subs[|subs| - 1];
      assert DistinctConns(p) by {
        forall i, j | 0 <= i < j < |p|
          ensures p[i].conn != p[j].conn
        {
          assert subs[i] == p[i] && subs[j] == p[j];
        }
      }
      WithoutDistinct(p, k);
      var w := Without(p, k);
      if last.conn != k {
        forall i | 0 <= i < |p|
          ensures ConnsOf(p)[i] != last.conn
        {
          assert subs[i] == p[i];
        }
        WithoutConns(p, k);
        DistinctAppend(w, last);
      }
    }
  }

  /** The list with every occurrence of `x` removed, in order (`_.without`). */
  function Remove(s: seq<ChannelId>, x: ChannelId): (r: seq<ChannelId>)
    ensures forall y :: y in r <==> y in s && y != x
    ensures x !in s ==> r == s
    ensures NoDuplicates(s) ==> NoDuplicates(r)
  {
    if s == [] then []
    else
      var rest := Remove(s[1..], x);
      assert s == [s[0]] + s[1..];
      if s[0] == x then rest
      else
        assert NoDuplicates(s) ==> s[0] !in s[1..];
        [s[0]] + rest
  }

  /** Removal works stretch by stretch, so the ids it keeps stay in their order. */
  lemma {:induction false} RemoveAppend(a: seq<ChannelId>, b: seq<ChannelId>, x: ChannelId)
    ensures Remove(a + b, x) == Remove(a, x) + Remove(b, x)
  {
    if a == [] {
      assert a + b == b;
    } else {
      assert (a + b)[0] == a[0] && (a + b)[1..] == a[1..] + b;
      RemoveAppend(a[1..], b, x);
    }
  }

  /** Removing the head of a duplicate-free list leaves its tail. */
  lemma RemoveHead(s: seq<ChannelId>)
    requires |s| > 0 && NoDuplicates(s)
    ensures Remove(s, s[0]) == s[1..]
  {
    assert s[0] !in s[1..];
  }

  // ---------------------------------------------------------------------
  // Fan-out of a down-publish
  // ---------------------------------------------------------------------

  /** One write of `c` to each subscriber's connection, in subscriber order. */
  function FanOut(subs: seq<Subscriber>, c: Content): (r: seq<Write>)
    ensures |r| == |subs|
    ensures forall i :: 0 <= i < |subs| ==> r[i] == Write(subs[i].conn, c)
  {
    if subs == [] then [] else FanOut(subs[..|subs| - 1], c) + [Write(subs[|subs| - 1].conn, c)]
  }

  /** How many of the writes go to connection `k`. */
  function WritesTo(ws: seq<Write>, k: ConnId): nat {
    if ws == [] then 0 else (if ws[0].conn == k then 1 else 0) + WritesTo(ws[1..], k)
  }

  /**
   * With distinct subscribers, a fan-out reaches every subscribed connection
   * exactly once and no other connection.
   */
  lemma {:induction false} FanOutOnce(subs: seq<Subscriber>, c: Content, k: ConnId)
    requires DistinctConns(subs)
    ensures WritesTo(FanOut(subs, c), k) == if k in ConnsOf(subs) then 1 else 0
  {
    if subs != [] {
      var tail := subs[1..];
      assert DistinctConns(tail);
      FanOutOnce(tail, c, k);
      var f := FanOut(subs, c);
      assert f[1..] == FanOut(tail, c);
      assert ConnsOf(subs) == [subs[0].conn] + ConnsOf(tail);
      if subs[0].conn == k {
        assert k !in ConnsOf(tail);
      }
    }
  }
}
