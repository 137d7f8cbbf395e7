/** How pending calls are resolved: by the responses of an incoming message
    (`onTextMessage`) and by timers (`TimeoutHandler.run`). Both pop the
    call's id from the registry and act only if it was still there. */
module Correlation {
  import opened Types
  import opened Registry
  import opened Frames

  /** What a call's listener is told: `onResponse(payload)` or
      `onError(status, statusMsg)`. */
  datatype Outcome = Response(payload: Option<Json>) | Failure(status: Int32, statusMsg: string)

  /** One callback delivered to the listener of the call with this id. */
  datatype Resolution = Resolution(id: Int32, call: PendingCall, outcome: Outcome)

  /** The status and message a timed-out call fails with. */
  const TimeoutStatus: Int32 := 504
  const TimeoutMessage: string := "Response timeout"

  function TimedOut(): Outcome
  {
    Failure(TimeoutStatus, TimeoutMessage)
  }

  /** Status 0 is success and hands over the payload; any other status is a
      failure carrying the status and its message. */
  function OutcomeOf(r: JsonResp): (o: Outcome)
    ensures o.Response? <==> r.status == 0
    ensures o.Response? ==> o.payload == r.resp
    ensures o.Failure? ==> o.status == r.status && o.statusMsg == r.statusMsg
  {
    if r.status == 0 then Response(r.resp) else Failure(r.status, r.statusMsg)
  }

  /** Pop `id` and, if a call was pending under it, resolve it with `o`. */
  function Settle(reg: map<Int32, PendingCall>, id: Int32, o: Outcome): seq<Resolution>
  {
    if id in reg then [Resolution(id, reg[id], o)] else []
  }

  /** The ids a response list mentions. */
  function Ids(rs: seq<JsonResp>): set<Int32>
  {
    if rs == [] then {} else {rs[0].id} + Ids(rs[1..])
  }

  /** The response of `rs` that first mentions `id`. */
  function FirstWith(rs: seq<JsonResp>, id: Int32): JsonResp
    requires id in Ids(rs)
  {
    if rs[0].id == id then rs[0] else FirstWith(rs[1..], id)
  }

  /** The callbacks `onTextMessage` delivers for a response list, in list
      order, against registry `reg`; each response pops its id first. */
  function Dispatch(reg: map<Int32, PendingCall>, rs: seq<JsonResp>): seq<Resolution>
  {
    if rs == [] then []
    else Settle(reg, rs[0].id, OutcomeOf(rs[0])) + Dispatch(reg - {rs[0].id}, rs[1..])
  }

  /** How many callbacks went to the call with this id. */
  function Count(log: seq<Resolution>, id: Int32): nat
  {
    if log == [] then 0 else (if log[0].id == id then 1 else 0) + Count(log[1..], id)
  }

  lemma {:induction false} CountAppend(a: seq<Resolution>, b: seq<Resolution>, id: Int32)
    ensures Count(a + b, id) == Count(a, id) + Count(b, id)
  {
    if a == [] {
      assert a + b == b;
    } else {
      assert (a + b)[1..] == a[1..] + b;
      CountAppend(a[1..], b, id);
    }
  }

  lemma {:induction false} IdsSnoc(rs: seq<JsonResp>, r: JsonResp)
    ensures Ids(rs + [r]) == Ids(rs) + {r.id}
  {
    if rs != [] {
      assert (rs + [r])[1..] == rs[1..] + [r];
      IdsSnoc(rs[1..], r);
    }
  }

  /** Handling one more response at the end of the list: the earlier
      responses have already popped their ids, so the new one is matched
      against what is left. This is the step of the dispatch loop. */
  lemma {:induction false} DispatchSnoc(reg: map<Int32, PendingCall>, rs: seq<JsonResp>, r: JsonResp)
    ensures Dispatch(reg, rs + [r]) == Dispatch(reg, rs) + Settle(reg - Ids(rs), r.id, OutcomeOf(r))
  {
    if rs == [] {
      assert rs + [r] == [r];
      assert reg - Ids(rs) == reg;
    } else {
      assert (rs + [r])[0] == rs[0];
      assert (rs + [r])[1..] == rs[1..] + [r];
      DispatchSnoc(reg - {rs[0].id}, rs[1..], r);
      assert reg - {rs[0].id} - Ids(rs[1..]) == reg - Ids(rs);
    }
  }

  /** A call pending under `id` gets exactly one callback if the list
      mentions `id`, however often; an id that is not pending (unknown, or
      already resolved) gets none. */
  lemma {:induction false} DispatchOnce(reg: map<Int32, PendingCall>, rs: seq<JsonResp>, id: Int32)
    ensures Count(Dispatch(reg, rs), id) == if id in reg && id in Ids(rs) then 1 else 0
  {
    if rs != [] {
      var s := Settle(reg, rs[0].id, OutcomeOf(rs[0]));
      DispatchOnce(reg - {rs[0].id}, rs[1..], id);
      CountAppend(s, Dispatch(reg - {rs[0].id}, rs[1..]), id);
      if s != [] {
        assert s[1..] == [];
      }
    }
  }

  /** Every callback goes to a call that was pending, with that call's
      wrapper, and carries the outcome of the first response naming it. */
  lemma {:induction false} DispatchFaithful(reg: map<Int32, PendingCall>, rs: seq<JsonResp>, k: nat)
    requires k < |Dispatch(reg, rs)|
    ensures Dispatch(reg, rs)[k].id in reg
    ensures Dispatch(reg, rs)[k].id in Ids(rs)
    ensures Dispatch(reg, rs)[k].call == reg[Dispatch(reg, rs)[k].id]
    ensures Dispatch(reg, rs)[k].outcome == OutcomeOf(FirstWith(rs, Dispatch(reg, rs)[k].id))
  {
    var s := Settle(reg, rs[0].id, OutcomeOf(rs[0]));
    var rest := Dispatch(reg - {rs[0].id}, rs[1..]);
    assert Dispatch(reg, rs) == s + rest;
    if k >= |s| {
      DispatchFaithful(reg - {rs[0].id}, rs[1..], k - |s|);
      assert Dispatch(reg, rs)[k] == rest[k - |s|];
    }
  }

  /** An event the client reacts to: a message carrying responses, or the
      timer armed for a call firing. */
  datatype Delivery = Message(resps: seq<JsonResp>) | TimerFired(id: Int32)

  /** The ids a delivery pops. */
  function Popped(d: Delivery): set<Int32>
  {
    match d
    case Message(rs) => Ids(rs)
    case TimerFired(id) => {id}
  }

  /** The callbacks one delivery produces. */
  function Resolve(reg: map<Int32, PendingCall>, d: Delivery): seq<Resolution>
  {
    match d
    case Message(rs) => Dispatch(reg, rs)
    case TimerFired(id) => Settle(reg, id, TimedOut())
  }

  /** The callbacks a sequence of deliveries produces, in order, each one
      working on the registry the previous ones left. */
  function Run(reg: map<Int32, PendingCall>, ds: seq<Delivery>): seq<Resolution>
  {
    if ds == [] then [] else Resolve(reg, ds[0]) + Run(reg - Popped(ds[0]), ds[1..])
  }

  /** The ids any of the deliveries pops. */
  function Mentioned(ds: seq<Delivery>): set<Int32>
  {
    if ds == [] then {} else Popped(ds[0]) + Mentioned(ds[1..])
  }

  /** Exactly-once resolution: across any interleaving of response messages
      and timer firings, a call pending under `id` is resolved exactly once if
      anything names its id and never otherwise; whichever comes first wins
      and the later ones find the id gone. */
  lemma {:induction false} RunExactlyOnce(reg: map<Int32, PendingCall>, ds: seq<Delivery>, id: Int32)
    ensures Count(Run(reg, ds), id) == if id in reg && id in Mentioned(ds) then 1 else 0
  {
    if ds != [] {
      var first := Resolve(reg, ds[0]);
      RunExactlyOnce(reg - Popped(ds[0]), ds[1..], id);
      CountAppend(first, Run(reg - Popped(ds[0]), ds[1..]), id);
      match ds[0]
      case Message(rs) =>
        DispatchOnce(reg, rs, id);
      case TimerFired(t) =>
        if first != [] {
          assert first[1..] == [];
        }
    }
  }
}
