/** `ListenerManager`: the ordered list of generic connection observers and
    the synchronous, in-order fan-out of connection events to them. */
module Observers {
  import opened Types
  import opened States

  /** The connection events an observer is told about; causes and texts are
      opaque. */
  datatype Event =
    | ConnectedEvent
    | DisconnectedEvent
    | ConnectError(cause: string)
    | Error(cause: string)
    | DataSending(text: string)
    | DataReceived(text: string)
    | CallbackError(cause: string)
    | StateChanged(newState: ClubbyState)

  /** One invocation of an observer's callback. */
  datatype Notification = Notification(observer: ObserverRef, event: Event)

  /** The invocations a fan-out of `e` over `ls` performs, in order. */
  function Broadcast(ls: seq<ObserverRef>, e: Event): seq<Notification>
  {
    seq(|ls|, k requires 0 <= k < |ls| => Notification(ls[k], e))
  }

  /** `List.remove(x)`: drops the first occurrence of `x`, if any. */
  function RemoveFirst(s: seq<ObserverRef>, x: ObserverRef): seq<ObserverRef>
  {
    if s == [] then []
    else if s[0] == x then s[1..]
    else [s[0]] + RemoveFirst(s[1..], x)
  }

  /** Removing an observer that is not registered changes nothing. */
  lemma {:induction false} RemoveAbsent(s: seq<ObserverRef>, x: ObserverRef)
    requires x !in s
    ensures RemoveFirst(s, x) == s
  {
    if s != [] {
      RemoveAbsent(s[1..], x);
    }
  }

  /** Removing a registered observer cuts out exactly its first occurrence
      and keeps the order of the rest. */
  lemma {:induction false} RemoveFirstOccurrence(s: seq<ObserverRef>, x: ObserverRef, i: nat)
    requires i < |s| && s[i] == x
    requires forall j :: 0 <= j < i ==> s[j] != x
    ensures RemoveFirst(s, x) == s[..i] + s[i + 1..]
  {
    if i > 0 {
      RemoveFirstOccurrence(s[1..], x, i - 1);
      assert s[1..][..i - 1] + s[1..][i..] == s[1..i] + s[i + 1..];
      assert [s[0]] + s[1..i] == s[..i];
    }
  }

  /** Removing takes away one occurrence of `x` and nothing else. */
  lemma {:induction false} RemoveFirstMultiset(s: seq<ObserverRef>, x: ObserverRef)
    ensures multiset(RemoveFirst(s, x)) == multiset(s) - multiset{x}
  {
    if s != [] {
      RemoveFirstMultiset(s[1..], x);
      assert s == [s[0]] + s[1..];
    }
  }

  class ListenerManager {
    var listeners: seq<ObserverRef>

    constructor ()
      ensures listeners == []
    {
      listeners := [];
    }

    /** `addListener(l)`: null is ignored; otherwise appended, duplicates kept. */
    method AddListener(l: Option<ObserverRef>)
      modifies this
      ensures listeners == if l.Some? then old(listeners) + [l.value] else old(listeners)
    {
      if l.Some? {
        listeners := listeners + [l.value];
      }
    }

    /** `removeListener(l)`: null is ignored; otherwise the first occurrence
        is removed. */
    method RemoveListener(l: Option<ObserverRef>)
      modifies this
      ensures listeners == if l.Some? then RemoveFirst(old(listeners), l.value) else old(listeners)
    {
      if l.Some? {
        listeners := RemoveFirst(listeners, l.value);
      }
    }

    /** The eight fan-out methods (`onConnected` ... `onStateChanged`): every
        registered observer, once per occurrence and in list order, receives
        the same event; the list itself is left alone. */
    method FanOut(e: Event) returns (calls: seq<Notification>)
      ensures calls == Broadcast(listeners, e)
      ensures |calls| == |listeners|
      ensures forall k :: 0 <= k < |calls| ==> calls[k] == Notification(listeners[k], e)
    {
      calls := [];
      var i := 0;
      while i < |listeners|
        invariant 0 <= i <= |listeners|
        invariant |calls| == i
        invariant forall k :: 0 <= k < i ==> calls[k] == Notification(listeners[k], e)
      {
        calls := calls + [Notification(listeners[i], e)];
        i := i + 1;
      }
    }
  }
}
