/** Event sequences of the current client, verified against the contracts
    of its methods alone: what a caller can rely on. */
module Scenarios {
  import opened Types
  import opened States
  import opened Options
  import opened Registry
  import opened Frames
  import opened Correlation
  import opened CmdIds
  import opened Client

  /** Connect, call `ping` on the backend, receive status 0 with `"pong"`:
      the listener gets exactly that response, once, and nothing is left
      pending. */
  method PingPong(c: Clubby, l: CmdListenerRef)
    requires c.Valid() && c.cmdId == 0 && c.cmdListenerMan.listeners == map[]
    requires c.defaultOpts.timeout == 0
    modifies c, c.cmdListenerMan
    ensures c.resolved == old(c.resolved) + [Resolution(1, PendingCall(l, 1, None), Response(Some("pong")))]
    ensures c.cmdListenerMan.listeners == map[]
  {
    c.OnStateChanged(Open);
    var r := c.CallBackend("ping", None, Some(l), None);
    assert r == Sent;
    var reply := JsonFrame(Version, c.backend, c.deviceId, None, None, Some([JsonResp(1, 0, "", Some("pong"))]));
    c.OnTextMessage("pong reply", reply);
  }

  /** A response that arrives before the armed timeout fires resolves the
      call; the timer firing afterwards finds nothing and does nothing. */
  method ResponseBeatsTimeout(c: Clubby, l: CmdListenerRef, opts: ClubbyOptions)
    requires c.Valid() && c.IsConnected()
    requires opts.timeout == 1
    modifies c, c.cmdListenerMan
    ensures c.timers == old(c.timers) + [Timer(c.cmdId, 1)]
    ensures c.resolved == old(c.resolved) + [Resolution(c.cmdId, PendingCall(l, c.cmdId, Some(1)), Response(None))]
  {
    var r := c.Call("//peer", "work", None, Some(l), Some(opts));
    var id := c.cmdId;
    var reply := JsonFrame(Version, "//peer", c.deviceId, None, None, Some([JsonResp(id, 0, "", None)]));
    c.OnTextMessage("reply", reply);
    c.FireTimeout(id);
  }

  /** A timeout that fires first fails the call with 504; the late response
      is then dropped. */
  method TimeoutBeatsResponse(c: Clubby, l: CmdListenerRef, opts: ClubbyOptions)
    requires c.Valid() && c.IsConnected()
    requires opts.timeout == 1
    modifies c, c.cmdListenerMan
    ensures c.resolved == old(c.resolved) +
      [Resolution(c.cmdId, PendingCall(l, c.cmdId, Some(1)), Failure(504, "Response timeout"))]
  {
    var r := c.Call("//peer", "work", None, Some(l), Some(opts));
    var id := c.cmdId;
    c.FireTimeout(id);
    var reply := JsonFrame(Version, "//peer", c.deviceId, None, None, Some([JsonResp(id, 0, "", None)]));
    c.OnTextMessage("late reply", reply);
  }

  /** Two calls answered in one message, in the opposite order: the second
      call gets its response and the first its error (7, "bad"), each once,
      in the order of the message. */
  method TwoCallsOneMessage(c: Clubby, l1: CmdListenerRef, l2: CmdListenerRef)
    requires c.Valid() && c.IsConnected() && c.cmdId == 0 && c.cmdListenerMan.listeners == map[]
    requires c.defaultOpts.timeout == 0
    modifies c, c.cmdListenerMan
    ensures c.resolved == old(c.resolved) + [
      Resolution(2, PendingCall(l2, 2, None), Response(Some("ok"))),
      Resolution(1, PendingCall(l1, 1, None), Failure(7, "bad"))]
    ensures c.cmdListenerMan.listeners == map[]
  {
    var r1 := c.CallBackend("first", None, Some(l1), None);
    var r2 := c.CallBackend("second", None, Some(l2), None);
    var rs := [JsonResp(2, 0, "", Some("ok")), JsonResp(1, 7, "bad", None)];
    ghost var reg := c.cmdListenerMan.listeners;
    assert reg - {2} == map[1 := PendingCall(l1, 1, None)];
    assert Dispatch(reg - {2}, rs[1..]) == [Resolution(1, PendingCall(l1, 1, None), Failure(7, "bad"))] by {
      assert rs[1..][1..] == [];
    }
    c.OnTextMessage("two replies", JsonFrame(Version, c.backend, c.deviceId, None, None, Some(rs)));
  }

  /** A call made while the socket is not open throws, but its id is used
      up and its listener stays registered. */
  method CallWhileDisconnected(c: Clubby, l: CmdListenerRef) returns (r: SendResult)
    requires c.Valid() && !c.IsConnected()
    modifies c, c.cmdListenerMan
    ensures r == IllegalState("Clubby is not connected")
    ensures c.sent == old(c.sent)
    ensures c.cmdId == NextId(old(c.cmdId))
    ensures c.cmdId in c.cmdListenerMan.listeners
    ensures c.cmdListenerMan.listeners[c.cmdId].listener == l
  {
    r := c.CallBackend("ping", None, Some(l), None);
  }
}
