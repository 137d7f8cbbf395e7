/** The `Clubby` client: call-id allocation, registration of pending calls,
    frame construction, sending, response dispatch, timeouts and connection
    state, with its `Builder` and its address inference. */
module Client {
  import opened Types
  import opened States
  import opened Options
  import opened Registry
  import opened Observers
  import opened Frames
  import opened Correlation
  import opened CmdIds

  /** Backend used when neither a backend nor a server address is given. */
  const DefaultBackend: string := "//api.cesanta.com"

  /** Message of the `IllegalStateException` thrown when sending offline. */
  const NotConnectedMessage: string := "Clubby is not connected"

  /** How `sendText` ends: the frame went to the socket, or an
      `IllegalStateException` with the given message was thrown. */
  datatype SendResult = Sent | IllegalState(message: string)

  /** A timeout scheduled on the executor for the call with this id. */
  datatype Timer = Timer(cmdId: Int32, seconds: Int32)

  /** The backend address chosen by the constructor. `urlHost` is the host
      part of the server address, as `java.net.URL` parses it. */
  function InferBackend(backend: Option<string>, serverAddress: Option<string>, urlHost: string): string
  {
    if backend.Some? then backend.value
    else if serverAddress.Some? then "//" + urlHost
    else DefaultBackend
  }

  /** The server address chosen by the constructor, given the backend. */
  function InferServerAddress(serverAddress: Option<string>, backend: string): string
  {
    if serverAddress.Some? then serverAddress.value else "wss:" + backend + ":443"
  }

  /** What the constructor promises about the two addresses: an explicit
      value is kept; a missing backend is the server's host behind `//`, or
      the default backend; a missing server address is the secure websocket
      on port 443 of the backend's host, which for the defaults is
      `wss://api.cesanta.com:443`. */
  lemma AddressInference(backend: Option<string>, serverAddress: Option<string>, urlHost: string)
    ensures backend.Some? ==> InferBackend(backend, serverAddress, urlHost) == backend.value
    ensures backend.None? && serverAddress.Some? ==> InferBackend(backend, serverAddress, urlHost) == "//" + urlHost
    ensures serverAddress.Some? ==>
      InferServerAddress(serverAddress, InferBackend(backend, serverAddress, urlHost)) == serverAddress.value
    ensures backend.Some? && serverAddress.None? ==>
      InferServerAddress(serverAddress, InferBackend(backend, serverAddress, urlHost)) == "wss:" + backend.value + ":443"
    ensures backend.None? && serverAddress.None? ==>
      InferBackend(backend, serverAddress, urlHost) == "//api.cesanta.com" &&
      InferServerAddress(serverAddress, InferBackend(backend, serverAddress, urlHost)) == "wss://api.cesanta.com:443"
  {
  }

  class Clubby {
    const serverAddress: string
    const deviceId: string
    const devicePsk: string
    const backend: string

    /** The state reported to observers. */
    var state: ClubbyState
    /** The websocket's own state; the socket is open exactly when `Open`. */
    var socketState: SocketState

    const listenerMan: ListenerManager
    const cmdListenerMan: CmdListenerManager
    var defaultOpts: ClubbyOptions

    /** The last command id handed out. */
    var cmdId: Int32

    /** Frames handed to the websocket, in order. */
    var sent: seq<JsonFrame>
    /** Timeouts scheduled on the executor, in order. */
    var timers: seq<Timer>
    /** Callbacks delivered to per-call listeners, in order. */
    var resolved: seq<Resolution>
    /** Callbacks delivered to the generic observers, in order. */
    var notified: seq<Notification>

    ghost predicate Valid()
      reads this, cmdListenerMan
    {
      && cmdListenerMan.Valid()
      && state == StateOf(socketState)
    }

    /** The at-most-once invariant: pending ids and resolved ids were all
        handed out already, no resolved id is still pending, and no id has
        been resolved twice. It holds as long as the id counter has not
        wrapped. */
    ghost predicate AtMostOnce()
      reads this, cmdListenerMan
    {
      && 0 <= cmdId
      && (forall id :: id in cmdListenerMan.listeners ==> 0 < id <= cmdId)
      && (forall k :: 0 <= k < |resolved| ==>
            0 < resolved[k].id <= cmdId && resolved[k].id !in cmdListenerMan.listeners)
      && (forall j, k :: 0 <= j < k < |resolved| ==> resolved[j].id != resolved[k].id)
    }

    /** `Clubby(Builder)`: addresses are inferred, the builder's options
        object becomes the default options (shared, not copied). The socket
        is created but not connected. */
    constructor (serverAddress: Option<string>, backend: Option<string>, deviceId: string,
                 devicePsk: string, opts: ClubbyOptions, urlHost: string)
      ensures this.backend == InferBackend(backend, serverAddress, urlHost)
      ensures this.serverAddress == InferServerAddress(serverAddress, this.backend)
      ensures this.deviceId == deviceId && this.devicePsk == devicePsk
      ensures defaultOpts == opts
      ensures state == NotConnected && socketState == Created && cmdId == 0
      ensures fresh(listenerMan) && fresh(cmdListenerMan)
      ensures listenerMan.listeners == [] && cmdListenerMan.listeners == map[]
      ensures sent == [] && timers == [] && resolved == [] && notified == []
      ensures Valid() && AtMostOnce()
    {
      this.deviceId := deviceId;
      this.devicePsk := devicePsk;
      defaultOpts := opts;
      var b := InferBackend(backend, serverAddress, urlHost);
      this.backend := b;
      this.serverAddress := InferServerAddress(serverAddress, b);
      state := NotConnected;
      socketState := Created;
      listenerMan := new ListenerManager();
      cmdListenerMan := new CmdListenerManager();
      cmdId := 0;
      sent, timers, resolved, notified := [], [], [], [];
    }

    /** `isConnected()`: whether the websocket is open. */
    function IsConnected(): bool
      reads this
    {
      socketState == Open
    }

    function GetState(): ClubbyState
      reads this
    {
      state
    }

    /** The options `call` uses: the per-call ones, else the defaults. */
    function EffectiveOptions(opts: Option<ClubbyOptions>): ClubbyOptions
      reads this
    {
      if opts.Some? then opts.value else defaultOpts
    }

    /** `addListener(l)`: null is ignored. */
    method AddListener(l: Option<ObserverRef>)
      modifies listenerMan
      ensures listenerMan.listeners == if l.Some? then old(listenerMan.listeners) + [l.value]
                                       else old(listenerMan.listeners)
    {
      listenerMan.AddListener(l);
    }

    /** `removeListener(l)`: null is ignored. */
    method RemoveListener(l: Option<ObserverRef>)
      modifies listenerMan
      ensures listenerMan.listeners == if l.Some? then RemoveFirst(old(listenerMan.listeners), l.value)
                                       else old(listenerMan.listeners)
    {
      listenerMan.RemoveListener(l);
    }

    /** `setDefaultOptions(opts)`: the defaults become a copy of `opts`. */
    method SetDefaultOptions(opts: ClubbyOptions)
      modifies this
      ensures fresh(defaultOpts) && defaultOpts.timeout == opts.timeout
      ensures cmdId == old(cmdId) && state == old(state) && socketState == old(socketState)
      ensures sent == old(sent) && timers == old(timers) && resolved == old(resolved) && notified == old(notified)
    {
      defaultOpts := ClubbyOptions.CreateFrom(opts);
    }

    /** `getOptions()`: a fresh copy of the defaults. */
    method GetOptions() returns (o: ClubbyOptions)
      ensures fresh(o) && o.timeout == defaultOpts.timeout
    {
      o := ClubbyOptions.CreateFrom(defaultOpts);
    }

    /** `getNextCmdId()`. */
    method GetNextCmdId() returns (id: Int32)
      modifies this
      ensures id == cmdId == NextId(old(cmdId))
      ensures state == old(state) && socketState == old(socketState) && defaultOpts == old(defaultOpts)
      ensures sent == old(sent) && timers == old(timers) && resolved == old(resolved) && notified == old(notified)
    {
      cmdId := NextId(cmdId);
      id := cmdId;
    }

    /** `sendText`: hands the frame to the socket if it is open, and throws
        otherwise. */
    method SendText(f: JsonFrame) returns (r: SendResult)
      modifies this
      ensures r == if old(IsConnected()) then Sent else IllegalState(NotConnectedMessage)
      ensures sent == if old(IsConnected()) then old(sent) + [f] else old(sent)
      ensures cmdId == old(cmdId) && state == old(state) && socketState == old(socketState)
      ensures defaultOpts == old(defaultOpts)
      ensures timers == old(timers) && resolved == old(resolved) && notified == old(notified)
    {
      if IsConnected() {
        sent := sent + [f];
        r := Sent;
      } else {
        r := IllegalState(NotConnectedMessage);
      }
    }

    /** `call(dst, cmd, args, listener, respClass, opts)`. A fresh id is
        taken whatever happens next. With a listener, the call is registered
        under that id, with a timeout armed exactly when the effective timeout
        is non-zero. The frame carries the timeout of the options in use. The
        send throws when the socket is not open, and the registration and the
        id stay as they are. With neither a listener nor options, the source
        dereferences null. */
    method Call(dst: string, cmd: string, args: Option<Json>, listener: Option<CmdListenerRef>,
                opts: Option<ClubbyOptions>) returns (r: SendResult)
      requires Valid()
      requires listener.Some? || opts.Some?
      modifies this, cmdListenerMan
      ensures Valid()
      ensures cmdId == NextId(old(cmdId))
      ensures defaultOpts == old(defaultOpts) && state == old(state) && socketState == old(socketState)
      ensures resolved == old(resolved) && notified == old(notified)
      ensures var t := EffectiveOptions(opts).timeout;
        && timers == old(timers) + (if listener.Some? && t != 0 then [Timer(cmdId, t)] else [])
        && cmdListenerMan.listeners == Added(old(cmdListenerMan.listeners),
             if listener.Some? then Some(PendingCall(listener.value, cmdId, if t != 0 then Some(t) else None))
             else None)
      ensures var f := CreateFrameCmd(deviceId, devicePsk, dst, NewCmd(cmd, cmdId, args, EffectiveOptions(opts).timeout));
        && r == (if old(IsConnected()) then Sent else IllegalState(NotConnectedMessage))
        && sent == (if old(IsConnected()) then old(sent) + [f] else old(sent))
      ensures old(AtMostOnce()) && old(cmdId) as int < MaxInt ==> AtMostOnce()
    {
      var id := GetNextCmdId();
      var o := if opts.Some? then opts.value else defaultOpts;
      if listener.Some? {
        var armed: Option<Int32> := None;
        if o.GetTimeout() != 0 {
          timers := timers + [Timer(id, o.GetTimeout())];
          armed := Some(o.GetTimeout());
        }
        cmdListenerMan.AddCmdListener(Some(PendingCall(listener.value, id, armed)));
      }
      var frame := CreateFrameCmd(deviceId, devicePsk, dst, NewCmd(cmd, id, args, o.GetTimeout()));
      r := SendText(frame);
      if old(AtMostOnce()) && old(cmdId) as int < MaxInt {
        forall pending | pending in cmdListenerMan.listeners
          ensures 0 < pending <= cmdId
        {
          if pending != cmdId {
            assert pending in old(cmdListenerMan.listeners);
          }
        }
      }
    }

    /** `callBackend`: `call` addressed to the backend. */
    method CallBackend(cmd: string, args: Option<Json>, listener: Option<CmdListenerRef>,
                       opts: Option<ClubbyOptions>) returns (r: SendResult)
      requires Valid()
      requires listener.Some? || opts.Some?
      modifies this, cmdListenerMan
      ensures Valid()
      ensures cmdId == NextId(old(cmdId))
      ensures defaultOpts == old(defaultOpts) && state == old(state) && socketState == old(socketState)
      ensures resolved == old(resolved) && notified == old(notified)
      ensures var t := EffectiveOptions(opts).timeout;
        && timers == old(timers) + (if listener.Some? && t != 0 then [Timer(cmdId, t)] else [])
        && cmdListenerMan.listeners == Added(old(cmdListenerMan.listeners),
             if listener.Some? then Some(PendingCall(listener.value, cmdId, if t != 0 then Some(t) else None))
             else None)
      ensures var f := CreateFrameCmd(deviceId, devicePsk, backend, NewCmd(cmd, cmdId, args, EffectiveOptions(opts).timeout));
        && r == (if old(IsConnected()) then Sent else IllegalState(NotConnectedMessage))
        && sent == (if old(IsConnected()) then old(sent) + [f] else old(sent))
      ensures old(AtMostOnce()) && old(cmdId) as int < MaxInt ==> AtMostOnce()
    {
      r := Call(backend, cmd, args, listener, opts);
    }

    /** Tell every observer about `e`, in order. */
    method Publish(e: Event)
      modifies this
      ensures notified == old(notified) + Broadcast(listenerMan.listeners, e)
      ensures cmdId == old(cmdId) && state == old(state) && socketState == old(socketState)
      ensures defaultOpts == old(defaultOpts)
      ensures sent == old(sent) && timers == old(timers) && resolved == old(resolved)
    {
      var calls := listenerMan.FanOut(e);
      notified := notified + calls;
    }

    /** The body of the response loop of `onTextMessage`: pop the id and,
        if a call was pending under it, give its listener the response or the
        error. */
    method DeliverResponse(resp: JsonResp)
      requires Valid()
      modifies this, cmdListenerMan
      ensures Valid()
      ensures cmdListenerMan.listeners == old(cmdListenerMan.listeners) - {resp.id}
      ensures resolved == old(resolved) + Settle(old(cmdListenerMan.listeners), resp.id, OutcomeOf(resp))
      ensures cmdId == old(cmdId) && state == old(state) && socketState == old(socketState)
      ensures defaultOpts == old(defaultOpts) && sent == old(sent) && timers == old(timers)
      ensures notified == old(notified)
      ensures old(AtMostOnce()) ==> AtMostOnce()
    {
      var w := cmdListenerMan.PopListener(resp.id);
      if w.Some? {
        if resp.status == 0 {
          resolved := resolved + [Resolution(resp.id, w.value, Response(resp.resp))];
        } else {
          resolved := resolved + [Resolution(resp.id, w.value, Failure(resp.status, resp.statusMsg))];
        }
      }
    }

    /** `onTextMessage`: observers see the raw text; then, in list order,
        each response pops its id and, if a call was pending under it, that
        call's listener gets the response (status 0) or the error. Responses
        for ids not pending are dropped. `frame` is what the mapper decodes
        the text into; a frame without a response list is not handled. */
    method OnTextMessage(text: string, frame: JsonFrame)
      requires Valid()
      requires frame.resp.Some?
      modifies this, cmdListenerMan
      ensures Valid()
      ensures notified == old(notified) + Broadcast(listenerMan.listeners, DataReceived(text))
      ensures cmdListenerMan.listeners == old(cmdListenerMan.listeners) - Ids(frame.resp.value)
      ensures resolved == old(resolved) + Dispatch(old(cmdListenerMan.listeners), frame.resp.value)
      ensures cmdId == old(cmdId) && state == old(state) && socketState == old(socketState)
      ensures defaultOpts == old(defaultOpts) && sent == old(sent) && timers == old(timers)
      ensures old(AtMostOnce()) ==> AtMostOnce()
    {
      Publish(DataReceived(text));
      var resps := frame.resp.value;
      ghost var reg0 := cmdListenerMan.listeners;
      ghost var log0 := resolved;
      var i := 0;
      while i < |resps|
        invariant 0 <= i <= |resps|
        invariant Valid()
        invariant cmdListenerMan.listeners == reg0 - Ids(resps[..i])
        invariant resolved == log0 + Dispatch(reg0, resps[..i])
        invariant notified == old(notified) + Broadcast(listenerMan.listeners, DataReceived(text))
        invariant cmdId == old(cmdId) && state == old(state) && socketState == old(socketState)
        invariant defaultOpts == old(defaultOpts) && sent == old(sent) && timers == old(timers)
        invariant old(AtMostOnce()) ==> AtMostOnce()
      {
        var resp := resps[i];
        assert resps[..i + 1] == resps[..i] + [resp];
        DispatchSnoc(reg0, resps[..i], resp);
        IdsSnoc(resps[..i], resp);
        DeliverResponse(resp);
        i := i + 1;
      }
      assert resps[..|resps|] == resps;
    }

    /** `TimeoutHandler.run` for the call `id`: pop it and, if it was still
        pending, fail it with status 504 "Response timeout". */
    method FireTimeout(id: Int32)
      requires Valid()
      modifies this, cmdListenerMan
      ensures Valid()
      ensures cmdListenerMan.listeners == old(cmdListenerMan.listeners) - {id}
      ensures resolved == old(resolved) + Settle(old(cmdListenerMan.listeners), id, TimedOut())
      ensures cmdId == old(cmdId) && state == old(state) && socketState == old(socketState)
      ensures defaultOpts == old(defaultOpts) && sent == old(sent) && timers == old(timers)
      ensures notified == old(notified)
      ensures old(AtMostOnce()) ==> AtMostOnce()
    {
      var w := cmdListenerMan.PopListener(id);
      if w.Some? {
        resolved := resolved + [Resolution(id, w.value, Failure(TimeoutStatus, TimeoutMessage))];
      }
    }

    /** `onStateChanged`: the socket has moved to `s`; the client state
        follows it and every observer is told the new state. */
    method OnStateChanged(s: SocketState)
      requires Valid()
      modifies this
      ensures Valid()
      ensures socketState == s && state == StateOf(s)
      ensures IsConnected() <==> state == Connected
      ensures notified == old(notified) + Broadcast(listenerMan.listeners, StateChanged(StateOf(s)))
      ensures cmdId == old(cmdId) && defaultOpts == old(defaultOpts)
      ensures sent == old(sent) && timers == old(timers) && resolved == old(resolved)
    {
      socketState := s;
      match s {
        case Created => state := NotConnected;
        case Closed => state := NotConnected;
        case SocketConnecting => state := Connecting;
        case Open => state := Connected;
        case Closing => state := Disconnecting;
      }
      Publish(StateChanged(state));
    }

    /** `onConnected`. */
    method OnConnected()
      modifies this
      ensures notified == old(notified) + Broadcast(listenerMan.listeners, ConnectedEvent)
      ensures cmdId == old(cmdId) && state == old(state) && socketState == old(socketState)
      ensures defaultOpts == old(defaultOpts)
      ensures sent == old(sent) && timers == old(timers) && resolved == old(resolved)
    {
      Publish(ConnectedEvent);
    }

    /** `onDisconnected`. */
    method OnDisconnected()
      modifies this
      ensures notified == old(notified) + Broadcast(listenerMan.listeners, DisconnectedEvent)
      ensures cmdId == old(cmdId) && state == old(state) && socketState == old(socketState)
      ensures defaultOpts == old(defaultOpts)
      ensures sent == old(sent) && timers == old(timers) && resolved == old(resolved)
    {
      Publish(DisconnectedEvent);
    }

    /** `onError(cause)`. */
    method OnError(cause: string)
      modifies this
      ensures notified == old(notified) + Broadcast(listenerMan.listeners, Error(cause))
      ensures cmdId == old(cmdId) && state == old(state) && socketState == old(socketState)
      ensures defaultOpts == old(defaultOpts)
      ensures sent == old(sent) && timers == old(timers) && resolved == old(resolved)
    {
      Publish(Error(cause));
    }

    /** `onConnectError(cause)`. */
    method OnConnectError(cause: string)
      modifies this
      ensures notified == old(notified) + Broadcast(listenerMan.listeners, ConnectError(cause))
      ensures cmdId == old(cmdId) && state == old(state) && socketState == old(socketState)
      ensures defaultOpts == old(defaultOpts)
      ensures sent == old(sent) && timers == old(timers) && resolved == old(resolved)
    {
      Publish(ConnectError(cause));
    }

    /** `onSendingFrame`: observers see the payload text about to be sent. */
    method OnSendingFrame(text: string)
      modifies this
      ensures notified == old(notified) + Broadcast(listenerMan.listeners, DataSending(text))
      ensures cmdId == old(cmdId) && state == old(state) && socketState == old(socketState)
      ensures defaultOpts == old(defaultOpts)
      ensures sent == old(sent) && timers == old(timers) && resolved == old(resolved)
    {
      Publish(DataSending(text));
    }

    /** `handleCallbackError(cause)`. */
    method HandleCallbackError(cause: string)
      modifies this
      ensures notified == old(notified) + Broadcast(listenerMan.listeners, CallbackError(cause))
      ensures cmdId == old(cmdId) && state == old(state) && socketState == old(socketState)
      ensures defaultOpts == old(defaultOpts)
      ensures sent == old(sent) && timers == old(timers) && resolved == old(resolved)
    {
      Publish(CallbackError(cause));
    }
  }

  /** `Clubby.Builder`: no server address or backend, empty device id and
      key, and a fresh default options object. */
  class Builder {
    var serverAddress: Option<string>
    var backend: Option<string>
    var deviceId: string
    var devicePsk: string
    const opts: ClubbyOptions

    constructor ()
      ensures serverAddress == None && backend == None
      ensures deviceId == "" && devicePsk == ""
      ensures fresh(opts) && opts.timeout == 0
    {
      serverAddress, backend := None, None;
      deviceId, devicePsk := "", "";
      opts := new ClubbyOptions.CreateDefault();
    }

    method Device(id: string, psk: string) returns (self: Builder)
      modifies this
      ensures self == this && deviceId == id && devicePsk == psk
      ensures serverAddress == old(serverAddress) && backend == old(backend)
    {
      deviceId, devicePsk := id, psk;
      self := this;
    }

    method Backend(val: string) returns (self: Builder)
      modifies this
      ensures self == this && backend == Some(val)
      ensures serverAddress == old(serverAddress) && deviceId == old(deviceId) && devicePsk == old(devicePsk)
    {
      backend := Some(val);
      self := this;
    }

    method ServerAddress(val: string) returns (self: Builder)
      modifies this
      ensures self == this && serverAddress == Some(val)
      ensures backend == old(backend) && deviceId == old(deviceId) && devicePsk == old(devicePsk)
    {
      serverAddress := Some(val);
      self := this;
    }

    /** `timeout(t)`: sets the default timeout on the builder's options. */
    method Timeout(t: Int32) returns (self: Builder)
      modifies opts
      ensures self == this && opts.timeout == t
    {
      var _ := opts.Timeout(t);
      self := this;
    }

    /** `build()`; `urlHost` is the host of the server address. */
    method Build(urlHost: string) returns (c: Clubby)
      ensures fresh(c) && c.Valid() && c.AtMostOnce()
      ensures c.backend == InferBackend(backend, serverAddress, urlHost)
      ensures c.serverAddress == InferServerAddress(serverAddress, c.backend)
      ensures c.deviceId == deviceId && c.devicePsk == devicePsk
      ensures c.defaultOpts == opts && c.cmdId == 0 && c.state == NotConnected
      ensures c.socketState == Created
      ensures fresh(c.listenerMan) && fresh(c.cmdListenerMan)
      ensures c.listenerMan.listeners == [] && c.cmdListenerMan.listeners == map[]
      ensures c.sent == [] && c.timers == [] && c.resolved == [] && c.notified == []
    {
      c := new Clubby(serverAddress, backend, deviceId, devicePsk, opts, urlHost);
    }
  }
}
