/**
 * What each entry point of the connection manager guarantees, stated on
 * the step functions of `Machine`, and the proof that every entry point
 * keeps `Machine.Valid`.
 */
module Properties {
  import opened Wrappers
  import opened Json
  import opened Machine
  import ChangeEvent
  import Decimal

  /** Distinct user ids subscribe to distinct channel topics. */
  lemma UserTopicIdentifiesUser(a: int, b: int)
    requires UserTopic(a) == UserTopic(b)
    ensures a == b
  {
    var n := |TopicPrefix|;
    assert UserTopic(a)[n..] == Decimal.IntToString(a);
    assert UserTopic(b)[n..] == Decimal.IntToString(b);
    Decimal.IntToStringInjective(a, b);
  }

  /** Appending a command that follows the last one keeps the hand-over order. */
  lemma HandOverAppend(cmds: seq<Command>, c: Command)
    requires HandOver(cmds)
    requires |cmds| > 0 ==> Follows(cmds[|cmds| - 1], c)
    ensures HandOver(cmds + [c])
  {
    var ext := cmds + [c];
    forall k | 0 <= k < |ext| - 1
      ensures Follows(ext[k], ext[k + 1])
    {
      if k + 1 < |cmds| {
        assert ext[k] == cmds[k] && ext[k + 1] == cmds[k + 1];
      }
    }
  }

  /** Along a handed-over log the targets never decrease, and they grow strictly after a disconnect. */
  lemma {:induction false} TargetsGrow(cmds: seq<Command>, i: nat, j: nat)
    requires HandOver(cmds) && i <= j < |cmds|
    ensures cmds[i].target <= cmds[j].target
    ensures i < j && cmds[i].Disconnect? ==> cmds[i].target < cmds[j].target
    ensures cmds[i].target < cmds[j].target ==> exists k :: i <= k < j && cmds[k].Disconnect?
    decreases j - i
  {
    if i < j {
      assert Follows(cmds[i], cmds[i + 1]);
      TargetsGrow(cmds, i + 1, j);
      if cmds[i].target < cmds[j].target && !cmds[i].Disconnect? {
        var k :| i + 1 <= k < j && cmds[k].Disconnect?;
        assert i <= k < j;
      }
    }
  }

  /** Every command of a valid state goes to a socket the manager has made. */
  lemma TargetsCreated<M>(s: State<M>, k: nat)
    requires Valid(s) && k < |s.issued|
    ensures s.issued[k].target < |s.captured|
  {
    TargetsGrow(s.issued, k, |s.issued| - 1);
  }

  /**
   * Once a socket has been told to disconnect, no later command (no
   * connect, no join) goes to it: a replaced socket is never reused.
   */
  lemma RetiredSocketStaysDisconnected<M>(s: State<M>, k: nat, later: nat)
    requires Valid(s)
    requires k < later < |s.issued| && s.issued[k].Disconnect?
    ensures s.issued[later].target != s.issued[k].target
  {
    TargetsGrow(s.issued, k, later);
  }

  /**
   * `connectToSocket`: the old socket (if any) is disconnected, then a fresh
   * socket, never addressed before, with `session_token` set to the
   * session token, is held and asked to connect; nothing is posted.
   */
  lemma ConnectToSocketReplaces<M>(s: State<M>, auth: SocketAuth)
    requires Valid(s)
    ensures var t := ConnectToSocket(s, auth);
      && Valid(t)
      && t.socket.Some?
      && t.socket.value.url == Endpoint
      && t.socket.value.params == map[SessionTokenKey := auth.sessionToken]
      && !t.socket.value.isConnected
      && t.socket.value.id !in t.channels
      && t.channels == s.channels
      && t.captured == s.captured + [auth]
      && (forall k :: 0 <= k < |s.issued| ==> s.issued[k].target < t.socket.value.id)
      && t.issued == s.issued
                     + (if s.socket.Some? then [Disconnect(s.socket.value.id)] else [])
                     + [Connect(t.socket.value.id)]
      && t.posted == s.posted
  {
    var t := ConnectToSocket(s, auth);
    var id := |s.captured|;
    forall k | 0 <= k < |s.issued|
      ensures s.issued[k].target < id
    {
      TargetsCreated(s, k);
    }
    match s.socket {
      case None =>
        assert t.issued == [Connect(id)];
      case Some(prev) =>
        HandOverAppend(s.issued, Disconnect(prev.id));
        HandOverAppend(s.issued + [Disconnect(prev.id)], Connect(id));
        assert t.issued == s.issued + [Disconnect(prev.id)] + [Connect(id)];
        assert t.issued[0] == s.issued[0];
    }
  }

  /**
   * The `userId` handed to `connectToSocket` is the one whose topic the new
   * socket joins when it connects, and that topic then has the "change"
   * handler.
   */
  lemma ConnectThenJoinUsesUser<M>(s: State<M>, auth: SocketAuth)
    ensures var t := ConnectToSocket(s, auth);
      var u := TransportConnected(t, t.socket.value.id);
      && u.issued == t.issued + [Join(t.socket.value.id, UserTopic(auth.userId))]
      && Handles(u, t.socket.value.id, UserTopic(auth.userId), ChangeEventName)
  {
  }

  /**
   * The transport connected: exactly one channel join, on the held socket,
   * for the topic of the captured user id; the channel has a handler for
   * "change" and for nothing else; nothing is posted.
   */
  lemma TransportConnectedJoins<M>(s: State<M>, origin: nat)
    requires Valid(s) && origin < |s.captured|
    ensures var t := TransportConnected(s, origin);
      var topic := UserTopic(s.captured[origin].userId);
      && Valid(t)
      && t.posted == s.posted
      && t.captured == s.captured
      && t.issued == s.issued + [Join(s.socket.value.id, topic)]
      && t.socket.Some? && t.socket.value.id == s.socket.value.id
      && t.channels == s.channels[s.socket.value.id := ChannelsOf(s, s.socket.value.id)[topic := {ChangeEventName}]]
      && t.socket.value.isConnected == (s.socket.value.isConnected || origin == s.socket.value.id)
      && (forall name :: Handles(t, s.socket.value.id, topic, name) <==> name == ChangeEventName)
  {
    var t := TransportConnected(s, origin);
    var sock := s.socket.value;
    HandOverAppend(s.issued, Join(sock.id, UserTopic(s.captured[origin].userId)));
    assert t.issued[0] == s.issued[0];
    assert HeldIsLatest(t);
  }

  /**
   * The transport disconnected: exactly one `SocketDisconnected` is posted,
   * and the held socket is asked to reconnect if and only if reachability
   * reads `true`; an unknown reading counts as unreachable.
   */
  lemma TransportDisconnectedPostsOnce<M>(s: State<M>, origin: nat, reachable: Option<bool>)
    requires Valid(s) && s.socket.Some?
    ensures var t := TransportDisconnected(s, origin, reachable);
      && Valid(t)
      && t.posted == s.posted + [SocketDisconnected]
      && t.captured == s.captured
      && t.issued == s.issued + (if reachable == Some(true) then [Connect(s.socket.value.id)] else [])
      && (|t.issued| > |s.issued| <==> reachable == Some(true))
      && t.socket.Some? && t.socket.value.id == s.socket.value.id
      && t.channels == s.channels
      && t.socket.value.isConnected == (s.socket.value.isConnected && origin != s.socket.value.id)
  {
    var t := TransportDisconnected(s, origin, reachable);
    var sock := s.socket.value;
    if reachable == Some(true) {
      HandOverAppend(s.issued, Connect(sock.id));
      assert t.issued[0] == s.issued[0];
    }
    var ps := s.posted + [SocketDisconnected];
    assert forall k :: 0 <= k < |s.posted| ==> ps[k] == s.posted[k];
  }

  /**
   * A disconnect reported by a socket that has already been replaced is
   * not filtered out: it still posts `SocketDisconnected` and, when
   * reachable, asks the socket held now to connect.
   */
  lemma StaleDisconnectStillActs<M>(s: State<M>, origin: nat)
    requires Valid(s) && s.socket.Some? && origin < s.socket.value.id
    ensures var t := TransportDisconnected(s, origin, Some(true));
      && t.posted == s.posted + [SocketDisconnected]
      && t.issued == s.issued + [Connect(s.socket.value.id)]
      && t.socket == s.socket
  {
  }

  /**
   * Regained reachability asks for a connect exactly when a socket is held
   * and reads not connected; otherwise nothing at all changes.
   */
  lemma ReachableConnectsOnlyWhenDown<M>(s: State<M>)
    requires Valid(s)
    ensures var t := NetworkDidBecomeReachable(s);
      && Valid(t)
      && (t != s <==> s.socket.Some? && !s.socket.value.isConnected)
      && (t != s ==> t == s.(issued := s.issued + [Connect(s.socket.value.id)]))
  {
    var t := NetworkDidBecomeReachable(s);
    if s.socket.Some? && !s.socket.value.isConnected {
      HandOverAppend(s.issued, Connect(s.socket.value.id));
      assert t.issued[0] == s.issued[0];
      assert |t.issued| != |s.issued|;
    }
  }

  /** With no socket, or a connected one, repeated reachability signals change nothing. */
  lemma ReachableIdempotentWhileConnected<M>(s: State<M>)
    requires s.socket.None? || s.socket.value.isConnected
    ensures NetworkDidBecomeReachable(s) == s
    ensures NetworkDidBecomeReachable(NetworkDidBecomeReachable(s)) == NetworkDidBecomeReachable(s)
  {
  }

  /**
   * `isConnected` is the only thing consulted, so a socket that is still
   * connecting is asked again on every signal.
   */
  lemma ReachableRepeatsWhileNotConnected<M>(s: State<M>)
    requires s.socket.Some? && !s.socket.value.isConnected
    ensures NetworkDidBecomeReachable(NetworkDidBecomeReachable(s)).issued
            == s.issued + [Connect(s.socket.value.id), Connect(s.socket.value.id)]
  {
  }

  /**
   * An inbound channel event on a channel of socket `origin`: only a
   * "change" handler can run, and only on a socket the manager made; it
   * posts exactly one `NewMessageReceived` carrying the mapped message when
   * the payload decodes to one, and otherwise the state is left as it was.
   * The socket, the captured sessions, the channels and the command log
   * never change.
   */
  lemma ChannelEventPostsDecoded<M>(s: State<M>, origin: nat, topic: string, name: string, payload: map<string, J>,
                                   mapMessage: map<string, J> -> Option<M>)
    requires Valid(s)
    ensures var t := ChannelEvent(s, origin, topic, name, payload, mapMessage);
      && Valid(t)
      && (Handles(s, origin, topic, name) ==> name == ChangeEventName && origin < |s.captured|)
      && t.socket == s.socket && t.captured == s.captured && t.channels == s.channels && t.issued == s.issued
      && (Handles(s, origin, topic, name) && ChangeEvent.Decode(payload, mapMessage).NewMessage? ==>
            t.posted == s.posted + [NewMessageReceived(ChangeEvent.Decode(payload, mapMessage).message)])
      && (!Handles(s, origin, topic, name) || !ChangeEvent.Decode(payload, mapMessage).NewMessage? ==> t == s)
  {
    var t := ChannelEvent(s, origin, topic, name, payload, mapMessage);
    if Handles(s, origin, topic, name) {
      assert s.channels[origin][topic] <= {ChangeEventName};
    }
    assert forall k :: 0 <= k < |s.posted| ==> t.posted[k] == s.posted[k];
  }

  /**
   * Replacing the socket does not remove the handler registered on the old
   * socket's channel: a "MESSAGE" event that the replaced socket still
   * delivers is posted like any other.
   */
  lemma StaleChannelEventStillPosts<M>(s: State<M>, auth: SocketAuth, topic: string, data: map<string, J>,
                                      mapMessage: map<string, J> -> Option<M>)
    requires Valid(s) && s.socket.Some? && Handles(s, s.socket.value.id, topic, ChangeEventName)
    requires mapMessage(data).Some?
    ensures var t := ConnectToSocket(s, auth);
      && t.socket.value.id != s.socket.value.id
      && ChannelEvent(t, s.socket.value.id, topic, ChangeEventName,
                      ChangeEvent.ChangePayload(ChangeEvent.MessageType, data), mapMessage).posted
         == s.posted + [NewMessageReceived(mapMessage(data).value)]
  {
    var payload := ChangeEvent.ChangePayload(ChangeEvent.MessageType, data);
    ChangeEvent.ChangePayloadIsShaped(ChangeEvent.MessageType, data);
    ChangeEvent.MessageIsMapped(payload, mapMessage);
  }
}
