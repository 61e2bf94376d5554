/**
 * Whole runs of the connection manager: any sequence of calls and
 * transport callbacks, delivered one at a time, starting from a fresh
 * manager.
 */
module Traces {
  import opened Wrappers
  import opened Json
  import opened Machine
  import Properties
  import Decimal

  /** One input to the manager. */
  datatype Event =
    | ConnectRequested(auth: SocketAuth)
    | TransportUp(origin: nat)
    | TransportDown(origin: nat, reachable: Option<bool>)
    | BecameReachable
    | ChannelMessage(origin: nat, topic: string, name: string, payload: map<string, J>)

  /**
   * The effect of one event. A transport callback can come only from a
   * socket the manager has made; one naming any other socket cannot occur
   * and is skipped.
   */
  function Step<M>(s: State<M>, e: Event, mapMessage: map<string, J> -> Option<M>): State<M>
  {
    match e
    case ConnectRequested(auth) => ConnectToSocket(s, auth)
    case TransportUp(origin) => if origin < |s.captured| then TransportConnected(s, origin) else s
    case TransportDown(origin, reachable) =>
      if origin < |s.captured| then TransportDisconnected(s, origin, reachable) else s
    case BecameReachable => NetworkDidBecomeReachable(s)
    case ChannelMessage(origin, topic, name, payload) => ChannelEvent(s, origin, topic, name, payload, mapMessage)
  }

  function Run<M>(s: State<M>, events: seq<Event>, mapMessage: map<string, J> -> Option<M>): State<M>
    decreases |events|
  {
    if events == [] then s else Run(Step(s, events[0], mapMessage), events[1..], mapMessage)
  }

  /** Every event keeps the invariant; the prior notifications stay as they were. */
  lemma StepValid<M>(s: State<M>, e: Event, mapMessage: map<string, J> -> Option<M>)
    requires Valid(s)
    ensures Valid(Step(s, e, mapMessage))
    ensures s.posted <= Step(s, e, mapMessage).posted
  {
    match e {
      case ConnectRequested(auth) => Properties.ConnectToSocketReplaces(s, auth);
      case TransportUp(origin) =>
        if origin < |s.captured| { Properties.TransportConnectedJoins(s, origin); }
      case TransportDown(origin, reachable) =>
        if origin < |s.captured| { Properties.TransportDisconnectedPostsOnce(s, origin, reachable); }
      case BecameReachable => Properties.ReachableConnectsOnlyWhenDown(s);
      case ChannelMessage(origin, topic, name, payload) =>
        Properties.ChannelEventPostsDecoded(s, origin, topic, name, payload, mapMessage);
    }
  }

  /** Every run keeps the invariant, and the notification log only grows. */
  lemma {:induction false} RunValid<M>(s: State<M>, events: seq<Event>, mapMessage: map<string, J> -> Option<M>)
    requires Valid(s)
    ensures Valid(Run(s, events, mapMessage))
    ensures s.posted <= Run(s, events, mapMessage).posted
    decreases |events|
  {
    if events != [] {
      StepValid(s, events[0], mapMessage);
      RunValid(Step(s, events[0], mapMessage), events[1..], mapMessage);
    }
  }

  /**
   * `didConnect` has no caller: no run from a fresh manager ever posts
   * `SocketConnected`.
   */
  lemma NeverPostsConnected<M>(events: seq<Event>, mapMessage: map<string, J> -> Option<M>)
    ensures var t := Run(Initial<M>(), events, mapMessage);
      forall k :: 0 <= k < |t.posted| ==> t.posted[k] != SocketConnected
  {
    RunValid(Initial<M>(), events, mapMessage);
  }

  /**
   * After any run, a socket is held exactly when `connectToSocket` has been
   * called, and the one held is the one made by the last call.
   */
  lemma HeldSocketIsLatest<M>(events: seq<Event>, mapMessage: map<string, J> -> Option<M>)
    ensures var t := Run(Initial<M>(), events, mapMessage);
      && (t.socket.Some? <==> |t.captured| > 0)
      && (t.socket.Some? ==> t.socket.value.id == |t.captured| - 1)
  {
    RunValid(Initial<M>(), events, mapMessage);
  }

  /**
   * A socket that was told to disconnect is older than the one held, and
   * receives no command after its disconnect.
   */
  lemma ReplacedSocketNotReused<M>(events: seq<Event>, mapMessage: map<string, J> -> Option<M>, k: nat, later: nat)
    requires var t := Run(Initial<M>(), events, mapMessage); k < later < |t.issued| && t.issued[k].Disconnect?
    ensures var t := Run(Initial<M>(), events, mapMessage);
      && t.socket.Some?
      && t.issued[k].target < t.socket.value.id
      && t.issued[later].target != t.issued[k].target
  {
    var t := Run(Initial<M>(), events, mapMessage);
    RunValid(Initial<M>(), events, mapMessage);
    Properties.RetiredSocketStaysDisconnected(t, k, later);
    Properties.TargetsGrow(t.issued, k, |t.issued| - 1);
  }

  /**
   * Connect with token "abc" for user 42, the transport connects, then
   * drops while the network is reachable: the channel "user:42" is joined,
   * one `SocketDisconnected` is posted and the same socket is asked to
   * connect again. No `SocketConnected` is posted.
   */
  lemma ScenarioDropWhileReachable<M>(mapMessage: map<string, J> -> Option<M>)
    ensures var t := Run(Initial<M>(), [ConnectRequested(SocketAuth("abc", 42)), TransportUp(0),
                                        TransportDown(0, Some(true))], mapMessage);
      && t.posted == [SocketDisconnected]
      && t.issued == [Connect(0), Join(0, "user:42"), Connect(0)]
      && t.socket.Some? && t.socket.value.params == map["session_token" := "abc"]
  {
    ScenarioConnectAndJoin<M>(mapMessage);
  }

  /** Connect with token "abc" for user 42, then the transport connects: the channel "user:42" is joined. */
  lemma ScenarioConnectAndJoin<M>(mapMessage: map<string, J> -> Option<M>)
    ensures var t := Run(Initial<M>(), [ConnectRequested(SocketAuth("abc", 42)), TransportUp(0)], mapMessage);
      && t.posted == []
      && t.issued == [Connect(0), Join(0, "user:42")]
      && t.socket.Some? && t.socket.value.params == map["session_token" := "abc"]
  {
    assert Decimal.NatToString(42) == "42";
    assert UserTopic(42) == "user:42";
  }

  /**
   * As above but unreachable when the transport drops: no reconnect until
   * the reachability signal arrives, which then asks for one connect.
   */
  lemma ScenarioDropWhileUnreachable<M>(mapMessage: map<string, J> -> Option<M>)
    ensures var t := Run(Initial<M>(), [ConnectRequested(SocketAuth("abc", 42)), TransportUp(0),
                                        TransportDown(0, Some(false))], mapMessage);
      && t.posted == [SocketDisconnected]
      && t.issued == [Connect(0), Join(0, "user:42")]
      && NetworkDidBecomeReachable(t).issued == [Connect(0), Join(0, "user:42"), Connect(0)]
  {
    ScenarioConnectAndJoin<M>(mapMessage);
  }
}
