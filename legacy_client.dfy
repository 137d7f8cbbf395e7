/** The older `Clubby` client: every call goes to the configured backend,
    the caller hands in the listener wrapper, and there are no options and
    no timeouts. */
module LegacyClient {
  import opened Types
  import opened States
  import opened Registry
  import opened Observers
  import opened Frames
  import opened Correlation
  import opened CmdIds
  import opened Client

  /** Builder defaults. */
  const DefaultServerAddress: string := "http://api.cesanta.com:80"
  const DefaultLegacyBackend: string := "//api.cesanta.com"

  class Clubby {
    const serverAddress: string
    const deviceId: string
    const devicePsk: string
    const backend: string

    var state: ClubbyState
    var socketState: SocketState

    const listenerMan: ListenerManager
    const cmdListenerMan: CmdListenerManager

    var cmdId: Int32

    var sent: seq<JsonFrame>
    var resolved: seq<Resolution>
    var notified: seq<Notification>

    ghost predicate Valid()
      reads this, cmdListenerMan
    {
      && cmdListenerMan.Valid()
      && state == StateOf(socketState)
    }

    /** Same at-most-once invariant as the current client. */
    ghost predicate AtMostOnce()
      reads this, cmdListenerMan
    {
      && 0 <= cmdId
      && (forall id :: id in cmdListenerMan.listeners ==> 0 < id <= cmdId)
      && (forall k :: 0 <= k < |resolved| ==>
            0 < resolved[k].id <= cmdId && resolved[k].id !in cmdListenerMan.listeners)
      && (forall j, k :: 0 <= j < k < |resolved| ==> resolved[j].id != resolved[k].id)
    }

    /** `Clubby(Builder)`: the builder's values are taken as they are. */
    constructor (serverAddress: string, deviceId: string, devicePsk: string, backend: string)
      ensures this.serverAddress == serverAddress && this.deviceId == deviceId
      ensures this.devicePsk == devicePsk && this.backend == backend
      ensures state == NotConnected && socketState == Created && cmdId == 0
      ensures fresh(listenerMan) && fresh(cmdListenerMan)
      ensures listenerMan.listeners == [] && cmdListenerMan.listeners == map[]
      ensures sent == [] && resolved == [] && notified == []
      ensures Valid() && AtMostOnce()
    {
      this.serverAddress := serverAddress;
      this.deviceId := deviceId;
      this.devicePsk := devicePsk;
      this.backend := backend;
      state := NotConnected;
      socketState := Created;
      listenerMan := new ListenerManager();
      cmdListenerMan := new CmdListenerManager();
      cmdId := 0;
      sent, resolved, notified := [], [], [];
    }

    function IsConnected(): bool
      reads this
    {
      socketState == Open
    }

    function GetState(): ClubbyState
      reads this
    {
      state
    }

    method AddListener(l: Option<ObserverRef>)
      modifies listenerMan
      ensures listenerMan.listeners == if l.Some? then old(listenerMan.listeners) + [l.value]
                                       else old(listenerMan.listeners)
    {
      listenerMan.AddListener(l);
    }

    method RemoveListener(l: Option<ObserverRef>)
      modifies listenerMan
      ensures listenerMan.listeners == if l.Some? then RemoveFirst(old(listenerMan.listeners), l.value)
                                       else old(listenerMan.listeners)
    {
      listenerMan.RemoveListener(l);
    }

    /** `sendText`: throws `IllegalStateException` when the socket is not open. */
    method SendText(f: JsonFrame) returns (r: SendResult)
      modifies this
      ensures r == if old(IsConnected()) then Sent else IllegalState(NotConnectedMessage)
      ensures sent == if old(IsConnected()) then old(sent) + [f] else old(sent)
      ensures cmdId == old(cmdId) && state == old(state) && socketState == old(socketState)
      ensures resolved == old(resolved) && notified == old(notified)
    {
      if IsConnected() {
        sent := sent + [f];
        r := Sent;
      } else {
        r := IllegalState(NotConnectedMessage);
      }
    }

    /** `call(cmd, args, listenerWrapper)`: a fresh id; a non-null wrapper is
        stamped with it and registered (before the send, so a failed send
        leaves it registered); the frame goes to the backend. */
    method Call(cmd: string, args: Option<Json>, listenerWrapper: Option<CmdListenerRef>)
      returns (r: SendResult)
      requires Valid()
      modifies this, cmdListenerMan
      ensures Valid()
      ensures cmdId == NextId(old(cmdId))
      ensures state == old(state) && socketState == old(socketState)
      ensures resolved == old(resolved) && notified == old(notified)
      ensures cmdListenerMan.listeners == Added(old(cmdListenerMan.listeners),
                if listenerWrapper.Some? then Some(PendingCall(listenerWrapper.value, cmdId, None)) else None)
      ensures r == (if old(IsConnected()) then Sent else IllegalState(NotConnectedMessage))
      ensures sent == if old(IsConnected())
                      then old(sent) + [CreateFrameCmd(deviceId, devicePsk, backend, LegacyCmd(cmd, cmdId, args))]
                      else old(sent)
      ensures old(AtMostOnce()) && old(cmdId) as int < MaxInt ==> AtMostOnce()
    {
      cmdId := NextId(cmdId);
      var id := cmdId;
      if listenerWrapper.Some? {
        cmdListenerMan.AddCmdListener(Some(PendingCall(listenerWrapper.value, id, None)));
      }
      var frame := CreateFrameCmd(deviceId, devicePsk, backend, LegacyCmd(cmd, id, args));
      r := SendText(frame);
    }

    /** The forwarding handlers (`onConnected`, `onDisconnected`, `onError`,
        `onConnectError`, `onSendingFrame`, `handleCallbackError`): every
        observer, in order, is told about `e`. */
    method Publish(e: Event)
      modifies this
      ensures notified == old(notified) + Broadcast(listenerMan.listeners, e)
      ensures cmdId == old(cmdId) && state == old(state) && socketState == old(socketState)
      ensures sent == old(sent) && resolved == old(resolved)
    {
      var calls := listenerMan.FanOut(e);
      notified := notified + calls;
    }

    /** The body of the response loop of `onTextMessage`. */
    method DeliverResponse(resp: JsonResp)
      requires Valid()
      modifies this, cmdListenerMan
      ensures Valid()
      ensures cmdListenerMan.listeners == old(cmdListenerMan.listeners) - {resp.id}
      ensures resolved == old(resolved) + Settle(old(cmdListenerMan.listeners), resp.id, OutcomeOf(resp))
      ensures cmdId == old(cmdId) && state == old(state) && socketState == old(socketState)
      ensures sent == old(sent) && notified == old(notified)
      ensures old(AtMostOnce()) ==> AtMostOnce()
    {
      var w := cmdListenerMan.PopListener(resp.id);
      if w.Some? {
        if resp.status == 0 {
          resolved := resolved + [Resolution(resp.id, w.value, Response(resp.resp))];
        } else {
          resolved := resolved + [Resolution(resp.id, w.value, Failure(resp.status, resp.statusMsg))];
        }
      }
    }

    /** `onTextMessage`: as in the current client. */
    method OnTextMessage(text: string, frame: JsonFrame)
      requires Valid()
      requires frame.resp.Some?
      modifies this, cmdListenerMan
      ensures Valid()
      ensures notified == old(notified) + Broadcast(listenerMan.listeners, DataReceived(text))
      ensures cmdListenerMan.listeners == old(cmdListenerMan.listeners) - Ids(frame.resp.value)
      ensures resolved == old(resolved) + Dispatch(old(cmdListenerMan.listeners), frame.resp.value)
      ensures cmdId == old(cmdId) && state == old(state) && socketState == old(socketState)
      ensures sent == old(sent)
      ensures old(AtMostOnce()) ==> AtMostOnce()
    {
      Publish(DataReceived(text));
      var resps := frame.resp.value;
      ghost var reg0 := cmdListenerMan.listeners;
      ghost var log0 := resolved;
      var i := 0;
      while i < |resps|
        invariant 0 <= i <= |resps|
        invariant Valid()
        invariant cmdListenerMan.listeners == reg0 - Ids(resps[..i])
        invariant resolved == log0 + Dispatch(reg0, resps[..i])
        invariant notified == old(notified) + Broadcast(listenerMan.listeners, DataReceived(text))
        invariant cmdId == old(cmdId) && state == old(state) && socketState == old(socketState)
        invariant sent == old(sent)
        invariant old(AtMostOnce()) ==> AtMostOnce()
      {
        var resp := resps[i];
        assert resps[..i + 1] == resps[..i] + [resp];
        DispatchSnoc(reg0, resps[..i], resp);
        IdsSnoc(resps[..i], resp);
        DeliverResponse(resp);
        i := i + 1;
      }
      assert resps[..|resps|] == resps;
    }

    /** `onStateChanged`: the same translation as the current client. */
    method OnStateChanged(s: SocketState)
      requires Valid()
      modifies this
      ensures Valid()
      ensures socketState == s && state == StateOf(s)
      ensures IsConnected() <==> state == Connected
      ensures notified == old(notified) + Broadcast(listenerMan.listeners, StateChanged(StateOf(s)))
      ensures cmdId == old(cmdId) && sent == old(sent) && resolved == old(resolved)
    {
      socketState := s;
      match s {
        case Created => state := NotConnected;
        case Closed => state := NotConnected;
        case SocketConnecting => state := Connecting;
        case Open => state := Connected;
        case Closing => state := Disconnecting;
      }
      Publish(StateChanged(state));
    }
  }

  /** The older `Clubby.Builder`, with concrete defaults for every field. */
  class Builder {
    var serverAddress: string
    var deviceId: string
    var devicePsk: string
    var backend: string

    constructor ()
      ensures serverAddress == "http://api.cesanta.com:80" && backend == "//api.cesanta.com"
      ensures deviceId == "" && devicePsk == ""
    {
      serverAddress := DefaultServerAddress;
      deviceId, devicePsk := "", "";
      backend := DefaultLegacyBackend;
    }

    method ServerAddress(val: string) returns (self: Builder)
      modifies this
      ensures self == this && serverAddress == val
      ensures backend == old(backend) && deviceId == old(deviceId) && devicePsk == old(devicePsk)
    {
      serverAddress := val;
      self := this;
    }

    method Device(id: string, psk: string) returns (self: Builder)
      modifies this
      ensures self == this && deviceId == id && devicePsk == psk
      ensures serverAddress == old(serverAddress) && backend == old(backend)
    {
      deviceId, devicePsk := id, psk;
      self := this;
    }

    method Backend(val: string) returns (self: Builder)
      modifies this
      ensures self == this && backend == val
      ensures serverAddress == old(serverAddress) && deviceId == old(deviceId) && devicePsk == old(devicePsk)
    {
      backend := val;
      self := this;
    }

    method Build() returns (c: Clubby)
      ensures fresh(c) && c.Valid() && c.AtMostOnce()
      ensures c.serverAddress == serverAddress && c.backend == backend
      ensures c.deviceId == deviceId && c.devicePsk == devicePsk
      ensures c.cmdId == 0 && c.state == NotConnected
      ensures c.socketState == Created
      ensures fresh(c.listenerMan) && fresh(c.cmdListenerMan)
      ensures c.listenerMan.listeners == [] && c.cmdListenerMan.listeners == map[]
      ensures c.sent == [] && c.resolved == [] && c.notified == []
    {
      c := new Clubby(serverAddress, deviceId, devicePsk, backend);
    }
  }
}
