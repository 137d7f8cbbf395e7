/** `CmdListenerManager`: the registry of calls awaiting a response, keyed
    by command id. Popping is the only way an entry leaves the registry, and
    it is what makes each call resolve at most once. */
module Registry {
  import opened Types

  /** A `CmdListenerWrapper`: the caller's listener, the id its command was
      sent with, and the delay of the timeout armed for it, if any. */
  datatype PendingCall = PendingCall(listener: CmdListenerRef, cmdId: Int32, timeout: Option<Int32>)

  /** What `listeners.get(id)` returns: the entry, or null. */
  function Lookup(m: map<Int32, PendingCall>, id: Int32): (r: Option<PendingCall>)
    ensures r.Some? <==> id in m
    ensures r.Some? ==> r.value == m[id]
  {
    if id in m then Some(m[id]) else None
  }

  /** The registry after `put(w.getCmdId(), w)` for a non-null wrapper. */
  function Added(m: map<Int32, PendingCall>, w: Option<PendingCall>): (r: map<Int32, PendingCall>)
    ensures w.None? ==> r == m
    ensures w.Some? ==> r.Keys == m.Keys + {w.value.cmdId} && r[w.value.cmdId] == w.value
    ensures w.Some? ==> forall id :: id in m && id != w.value.cmdId ==> r[id] == m[id]
  {
    if w.Some? then m[w.value.cmdId := w.value] else m
  }

  /** Every entry is filed under the id its wrapper carries. */
  ghost predicate KeyedById(m: map<Int32, PendingCall>)
  {
    forall id :: id in m ==> m[id].cmdId == id
  }

  class CmdListenerManager {
    var listeners: map<Int32, PendingCall>

    ghost predicate Valid()
      reads this
    {
      KeyedById(listeners)
    }

    constructor ()
      ensures Valid()
      ensures listeners == map[]
    {
      listeners := map[];
    }

    /** `addCmdListener(w)`: a null wrapper is ignored; otherwise the wrapper
        is stored under its own id, replacing any entry with that id. */
    method AddCmdListener(w: Option<PendingCall>)
      requires Valid()
      modifies this
      ensures Valid()
      ensures listeners == Added(old(listeners), w)
    {
      if w.Some? {
        listeners := listeners[w.value.cmdId := w.value];
      }
    }

    /** `popListener(id)`: get, then remove. */
    method PopListener(id: Int32) returns (r: Option<PendingCall>)
      requires Valid()
      modifies this
      ensures Valid()
      ensures r == Lookup(old(listeners), id)
      ensures listeners == old(listeners) - {id}
    {
      r := Lookup(listeners, id);
      listeners := listeners - {id};
    }
  }

  /** A second pop of the same id finds nothing. */
  lemma PopTwiceFindsNothing(m: map<Int32, PendingCall>, id: Int32)
    ensures Lookup(m - {id}, id) == None
  {
  }

  /** Popping one id leaves every other entry as it was. */
  lemma PopLeavesOthers(m: map<Int32, PendingCall>, id: Int32, other: Int32)
    requires other != id
    ensures Lookup(m - {id}, other) == Lookup(m, other)
  {
  }

  /** Adding a wrapper and then popping its id returns that wrapper and
      leaves the registry as it was, less that id. */
  lemma AddThenPop(m: map<Int32, PendingCall>, w: PendingCall)
    ensures Lookup(Added(m, Some(w)), w.cmdId) == Some(w)
    ensures Added(m, Some(w)) - {w.cmdId} == m - {w.cmdId}
  {
  }

  /** Adding keeps every entry filed under its own id. */
  lemma AddKeepsKeyedById(m: map<Int32, PendingCall>, w: Option<PendingCall>)
    requires KeyedById(m)
    ensures KeyedById(Added(m, w))
  {
  }
}
