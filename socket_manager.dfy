/**
 * `SocketManager` (Drift/Managers/SocketManager.swift, lines 21-94) as a
 * class. Each method does in place what the step function of `Machine`
 * with the same name computes, and keeps `Machine.Valid`.
 * The transport's callbacks (`onConnect`, `onDisconnect`, the channel's
 * event dispatch) are methods that the transport calls, one at a time.
 */
module Manager {
  import opened Wrappers
  import opened Json
  import opened Machine
  import ChangeEvent
  import Properties

  class SocketManager<M> {
    var socket: Option<Socket>
    var captured: seq<SocketAuth>
    var channels: map<nat, Channels>
    var issued: seq<Command>
    var posted: seq<Notification<M>>

    function Snapshot(): State<M>
      reads this
    {
      State(socket, captured, channels, issued, posted)
    }

    ghost predicate Valid()
      reads this
    {
      Machine.Valid(Snapshot())
    }

    constructor ()
      ensures Snapshot() == Initial()
      ensures Valid()
    {
      socket := None;
      captured := [];
      channels := map[];
      issued := [];
      posted := [];
    }

    /** `connectToSocket(socketAuth:)` (lines 31-75). */
    method ConnectToSocket(auth: SocketAuth)
      requires Valid()
      modifies this
      ensures Snapshot() == Machine.ConnectToSocket(old(Snapshot()), auth)
      ensures Valid()
    {
      Properties.ConnectToSocketReplaces(Snapshot(), auth);
      if socket.Some? {
        issued := issued + [Disconnect(socket.value.id)];
      }
      var id := |captured|;
      socket := Some(NewSocket(id, auth));
      captured := captured + [auth];
      issued := issued + [Connect(id)];
    }

    /** Socket `origin` connected: the transport's `isConnected`, then the `onConnect` closure (lines 40-64). */
    method OnConnect(origin: nat)
      requires Valid() && origin < |captured|
      modifies this
      ensures Snapshot() == Machine.TransportConnected(old(Snapshot()), origin)
      ensures Valid()
    {
      Properties.TransportConnectedJoins(Snapshot(), origin);
      if socket.Some? && socket.value.id == origin {
        socket := Some(socket.value.(isConnected := true));
      }
      var auth := captured[origin];
      if socket.Some? {
        var topic := UserTopic(auth.userId);
        var id := socket.value.id;
        var own := ChannelsOf(Snapshot(), id);
        channels := channels[id := own[topic := {ChangeEventName}]];
        issued := issued + [Join(id, topic)];
      }
    }

    /** Socket `origin` disconnected: the transport's `isConnected`, then the `onDisconnect` closure (lines 67-72). */
    method OnDisconnect(origin: nat, reachable: Option<bool>)
      requires Valid() && socket.Some?
      modifies this
      ensures Snapshot() == Machine.TransportDisconnected(old(Snapshot()), origin, reachable)
      ensures Valid()
    {
      Properties.TransportDisconnectedPostsOnce(Snapshot(), origin, reachable);
      if socket.Some? && socket.value.id == origin {
        socket := Some(socket.value.(isConnected := false));
      }
      DidDisconnect();
      if reachable == Some(true) && socket.Some? {
        issued := issued + [Connect(socket.value.id)];
      }
    }

    /** `networkDidBecomeReachable` (lines 77-81). */
    method NetworkDidBecomeReachable()
      requires Valid()
      modifies this
      ensures Snapshot() == Machine.NetworkDidBecomeReachable(old(Snapshot()))
      ensures Valid()
    {
      Properties.ReachableConnectsOnlyWhenDown(Snapshot());
      if socket.Some? && !socket.value.isConnected {
        issued := issued + [Connect(socket.value.id)];
      }
    }

    /** An event `name` on channel `topic` of socket `origin`, dispatched to its registered handler. */
    method OnChannelEvent(origin: nat, topic: string, name: string, payload: map<string, J>,
                          mapMessage: map<string, J> -> Option<M>)
      requires Valid()
      modifies this
      ensures Snapshot() == Machine.ChannelEvent(old(Snapshot()), origin, topic, name, payload, mapMessage)
      ensures Valid()
    {
      Properties.ChannelEventPostsDecoded(Snapshot(), origin, topic, name, payload, mapMessage);
      if Handles(Snapshot(), origin, topic, name) {
        OnChange(payload, mapMessage);
      }
    }

    /** The "change" handler (lines 44-61). */
    method OnChange(payload: map<string, J>, mapMessage: map<string, J> -> Option<M>)
      modifies this
      ensures Snapshot() == Machine.HandleChange(old(Snapshot()), payload, mapMessage)
    {
      var outcome := ChangeEvent.Decode(payload, mapMessage);
      match outcome {
        case NewMessage(m) => DidReceiveNewMessage(m);
        case Ignored =>
        case Dropped =>
      }
    }

    /** `didConnect` (lines 83-85); no method of the class calls it. */
    method DidConnect()
      modifies this
      ensures Snapshot() == Machine.DidConnect(old(Snapshot()))
    {
      posted := posted + [SocketConnected];
    }

    /** `didDisconnect` (lines 87-89). */
    method DidDisconnect()
      modifies this
      ensures Snapshot() == Machine.DidDisconnect(old(Snapshot()))
    {
      posted := posted + [SocketDisconnected];
    }

    /** `didRecieveNewMessage(message:)` (lines 91-93). */
    method DidReceiveNewMessage(m: M)
      modifies this
      ensures Snapshot() == Machine.DidReceiveNewMessage(old(Snapshot()), m)
    {
      posted := posted + [NewMessageReceived(m)];
    }
  }
}
