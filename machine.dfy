/**
 * The connection manager's state and, as functions of it, what each
 * entry point of `SocketManager` (Drift/Managers/SocketManager.swift)
 * does to it. The class in socket_manager.dfy is specified by these.
 *
 * The Birdsong transport is an abstract record: a socket is identified by
 * the order in which the manager created it, and the commands the manager
 * sends to sockets (connect, disconnect, channel join) are appended to a
 * log. The notification bus is the append-only log `posted`.
 */
module Machine {
  import opened Wrappers
  import opened Json
  import Decimal
  import ChangeEvent

  const Endpoint: string := "wss://chat.api.drift.com/ws/websocket"
  const SessionTokenKey: string := "session_token"
  const ChangeEventName: string := "change"
  const TopicPrefix: string := "user:"

  /** The session data handed to `connectToSocket`. */
  datatype SocketAuth = SocketAuth(sessionToken: string, userId: int)

  /**
   * One Birdsong socket: its identity, the URL and parameters it was made
   * with, and the transport's `isConnected` reading.
   */
  datatype Socket = Socket(id: nat, url: string, params: map<string, string>, isConnected: bool)

  /** A socket's channels: by topic, the event names a handler is registered for. */
  type Channels = map<string, set<string>>

  /** A request the manager sends to the transport. */
  datatype Command = Connect(target: nat) | Disconnect(target: nat) | Join(target: nat, topic: string)

  /** The three notifications `SocketManager` can post (lines 16-18). */
  datatype Notification<M> = SocketConnected | SocketDisconnected | NewMessageReceived(message: M)

  /**
   * `socket` is the manager's only stored property (line 29). `captured[i]`
   * is the `SocketAuth` that the callbacks of socket `i` closed over, and
   * `channels[i]` the channels socket `i` owns (none when `i` is absent);
   * a replaced socket keeps its channels and their handlers.
   * `issued` and `posted` are the logs of transport commands and of
   * notifications.
   */
  datatype State<M> = State(
    socket: Option<Socket>,
    captured: seq<SocketAuth>,
    channels: map<nat, Channels>,
    issued: seq<Command>,
    posted: seq<Notification<M>>)

  function Initial<M>(): State<M>
  {
    State(None, [], map[], [], [])
  }

  /** The channels of socket `id`. */
  function ChannelsOf<M>(s: State<M>, id: nat): Channels
  {
    if id in s.channels then s.channels[id] else map[]
  }

  /** The channel topic `"user:\(userId)"` (line 42). */
  function UserTopic(userId: int): (topic: string)
    ensures |topic| > |TopicPrefix| && topic[..|TopicPrefix|] == TopicPrefix
    ensures Decimal.ParseInt(topic[|TopicPrefix|..]) == userId
  {
    var digits := Decimal.IntToString(userId);
    Decimal.IntToStringRoundTrip(userId);
    assert (TopicPrefix + digits)[|TopicPrefix|..] == digits;
    TopicPrefix + digits
  }

  /** The socket built at line 38, before it has connected. */
  function NewSocket(id: nat, auth: SocketAuth): Socket
  {
    Socket(id, Endpoint, map[SessionTokenKey := auth.sessionToken], false)
  }

  /** `connectToSocket` (lines 31-75): disconnect the held socket, replace it, connect the new one. */
  function ConnectToSocket<M>(s: State<M>, auth: SocketAuth): (r: State<M>)
    ensures r.posted == s.posted && r.channels == s.channels && r.captured == s.captured + [auth]
    ensures r.socket.Some? && r.socket.value.id == |s.captured| && !r.socket.value.isConnected
    ensures r.socket.value.params == map[SessionTokenKey := auth.sessionToken]
    ensures |r.issued| == |s.issued| + (if s.socket.Some? then 2 else 1)
    ensures r.issued[..|s.issued|] == s.issued && r.issued[|r.issued| - 1] == Connect(r.socket.value.id)
    ensures s.socket.Some? ==> r.issued[|s.issued|] == Disconnect(s.socket.value.id)
  {
    var torn := match s.socket
      case Some(prev) => s.issued + [Disconnect(prev.id)]
      case None => s.issued;
    var id := |s.captured|;
    State(Some(NewSocket(id, auth)), s.captured + [auth], s.channels, torn + [Connect(id)], s.posted)
  }

  /** The transport's own bookkeeping: socket `origin` now reads `isConnected == connected`. */
  function SetConnected<M>(s: State<M>, origin: nat, connected: bool): State<M>
  {
    match s.socket
    case Some(sock) =>
      if sock.id == origin then s.(socket := Some(sock.(isConnected := connected))) else s
    case None => s
  }

  /**
   * The `onConnect` closure (lines 40-64) with the `SocketAuth` it captured:
   * on whatever socket the manager holds now, make the channel for the
   * user's topic, register the "change" handler and join it.
   */
  function OnConnect<M>(s: State<M>, auth: SocketAuth): (r: State<M>)
    ensures r.socket == s.socket && r.captured == s.captured && r.posted == s.posted
    ensures s.socket.None? ==> r == s
    ensures s.socket.Some? ==>
      && r.issued == s.issued + [Join(s.socket.value.id, UserTopic(auth.userId))]
      && UserTopic(auth.userId) in ChannelsOf(r, s.socket.value.id)
      && ChannelsOf(r, s.socket.value.id)[UserTopic(auth.userId)] == {ChangeEventName}
      && forall id :: id != s.socket.value.id ==> ChannelsOf(r, id) == ChannelsOf(s, id)
  {
    match s.socket
    case None => s
    case Some(sock) =>
      var topic := UserTopic(auth.userId);
      s.(channels := s.channels[sock.id := ChannelsOf(s, sock.id)[topic := {ChangeEventName}]],
         issued := s.issued + [Join(sock.id, topic)])
  }

  /** Socket `origin` reports that its transport connected. */
  function TransportConnected<M>(s: State<M>, origin: nat): (r: State<M>)
    requires origin < |s.captured|
    ensures r.captured == s.captured && r.posted == s.posted
    ensures r.socket.Some? <==> s.socket.Some?
    ensures s.socket.Some? ==>
      && r.socket.value.isConnected == (s.socket.value.isConnected || s.socket.value.id == origin)
      && r.issued == s.issued + [Join(s.socket.value.id, UserTopic(s.captured[origin].userId))]
  {
    OnConnect(SetConnected(s, origin, true), s.captured[origin])
  }

  /** `didConnect` (lines 83-85). Nothing in the file calls it. */
  function DidConnect<M>(s: State<M>): State<M>
  {
    s.(posted := s.posted + [SocketConnected])
  }

  /** `didDisconnect` (lines 87-89). */
  function DidDisconnect<M>(s: State<M>): State<M>
  {
    s.(posted := s.posted + [SocketDisconnected])
  }

  /** `didRecieveNewMessage` (lines 91-93): post with `userInfo["message"]` set to the message. */
  function DidReceiveNewMessage<M>(s: State<M>, m: M): State<M>
  {
    s.(posted := s.posted + [NewMessageReceived(m)])
  }

  /** `self.socket?.connect()`: a connect request to the socket held now, if any. */
  function ConnectHeld<M>(s: State<M>): State<M>
  {
    match s.socket
    case Some(sock) => s.(issued := s.issued + [Connect(sock.id)])
    case None => s
  }

  /**
   * The `onDisconnect` closure (lines 67-72). `reachable` is
   * `networkReachabilityManager?.isReachable`: `None` when there is no
   * reachability manager.
   */
  function OnDisconnect<M>(s: State<M>, reachable: Option<bool>): (r: State<M>)
    ensures r.posted == s.posted + [SocketDisconnected]
    ensures r.socket == s.socket && r.captured == s.captured && r.channels == s.channels
    ensures r.issued == s.issued + (if reachable == Some(true) && s.socket.Some? then [Connect(s.socket.value.id)] else [])
  {
    var t := DidDisconnect(s);
    if reachable == Some(true) then ConnectHeld(t) else t
  }

  /** Socket `origin` reports that its transport disconnected. */
  function TransportDisconnected<M>(s: State<M>, origin: nat, reachable: Option<bool>): (r: State<M>)
    ensures r.posted == s.posted + [SocketDisconnected]
    ensures r.captured == s.captured && r.channels == s.channels
    ensures r.socket.Some? <==> s.socket.Some?
    ensures s.socket.Some? ==> r.socket.value.isConnected == (s.socket.value.isConnected && s.socket.value.id != origin)
    ensures |r.issued| > |s.issued| <==> reachable == Some(true) && s.socket.Some?
  {
    OnDisconnect(SetConnected(s, origin, false), reachable)
  }

  /** `networkDidBecomeReachable` (lines 77-81): `socket?.isConnected == false` is false for a nil socket. */
  function NetworkDidBecomeReachable<M>(s: State<M>): (r: State<M>)
    ensures r.posted == s.posted && r.socket == s.socket && r.captured == s.captured && r.channels == s.channels
    ensures r.issued == s.issued + (if s.socket.Some? && !s.socket.value.isConnected then [Connect(s.socket.value.id)] else [])
  {
    match s.socket
    case Some(sock) => if !sock.isConnected then ConnectHeld(s) else s
    case None => s
  }

  /** The body of the "change" handler (lines 45-60). */
  function HandleChange<M>(s: State<M>, payload: map<string, J>, mapMessage: map<string, J> -> Option<M>): (r: State<M>)
    ensures ChangeEvent.CarriesMessage(payload, mapMessage) ==>
      r == s.(posted := s.posted + [NewMessageReceived(ChangeEvent.CarriedMessage(payload, mapMessage))])
    ensures !ChangeEvent.CarriesMessage(payload, mapMessage) ==> r == s
  {
    match ChangeEvent.Decode(payload, mapMessage)
    case NewMessage(m) => DidReceiveNewMessage(s, m)
    case _ => s
  }

  /** True when socket `origin` has a channel on `topic` with a handler for `name`. */
  predicate Handles<M>(s: State<M>, origin: nat, topic: string, name: string)
  {
    topic in ChannelsOf(s, origin) && name in ChannelsOf(s, origin)[topic]
  }

  /**
   * An event named `name` arriving on channel `topic` of socket `origin`,
   * held or replaced. Only handlers the manager registered run; the only
   * one it registers is the "change" handler, and it posts through
   * `self` whichever socket delivered the event.
   */
  function ChannelEvent<M>(s: State<M>, origin: nat, topic: string, name: string, payload: map<string, J>,
                           mapMessage: map<string, J> -> Option<M>): (r: State<M>)
    ensures Handles(s, origin, topic, name) && ChangeEvent.CarriesMessage(payload, mapMessage) ==>
      r == s.(posted := s.posted + [NewMessageReceived(ChangeEvent.CarriedMessage(payload, mapMessage))])
    ensures !(Handles(s, origin, topic, name) && ChangeEvent.CarriesMessage(payload, mapMessage)) ==> r == s
  {
    if Handles(s, origin, topic, name) then HandleChange(s, payload, mapMessage) else s
  }

  // ---------------------------------------------------------------------
  // The invariant every reachable state keeps.

  /** Consecutive commands: a disconnect is followed by the connect of the next socket; otherwise the target stays. */
  predicate Follows(c: Command, d: Command)
  {
    if c.Disconnect? then d == Connect(c.target + 1) else d.target == c.target
  }

  ghost predicate HandOver(cmds: seq<Command>)
  {
    forall k :: 0 <= k < |cmds| - 1 ==> Follows(cmds[k], cmds[k + 1])
  }

  ghost predicate NoConnectedPosted<M>(posted: seq<Notification<M>>)
  {
    forall k :: 0 <= k < |posted| ==> !posted[k].SocketConnected?
  }

  /** The held socket is the one made for the last `SocketAuth`, as line 38 builds it. */
  ghost predicate HeldIsLatest<M>(s: State<M>)
  {
    (s.socket.Some? <==> |s.captured| > 0)
    && (s.socket.Some? ==>
          var sock := s.socket.value;
          && sock.id == |s.captured| - 1
          && sock.url == Endpoint
          && sock.params == map[SessionTokenKey := s.captured[sock.id].sessionToken])
  }

  /** Only sockets the manager made own channels, and only "change" handlers are ever registered. */
  ghost predicate OnlyChangeHandlers<M>(s: State<M>)
  {
    forall id :: id in s.channels ==>
      && id < |s.captured|
      && forall topic :: topic in s.channels[id] ==> s.channels[id][topic] <= {ChangeEventName}
  }

  ghost predicate Valid<M>(s: State<M>)
  {
    && HeldIsLatest(s)
    && OnlyChangeHandlers(s)
    && (|s.issued| == 0 <==> |s.captured| == 0)
    && (|s.issued| > 0 ==>
          && s.issued[0] == Connect(0)
          && s.issued[|s.issued| - 1].target == |s.captured| - 1
          && !s.issued[|s.issued| - 1].Disconnect?)
    && HandOver(s.issued)
    && NoConnectedPosted(s.posted)
  }
}
