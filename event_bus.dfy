/**
 * `EventBus`: a dictionary from event name to a list of listeners, with `on`,
 * `off` and `dispatch`. Listeners are compared by identity, modelled as equality
 * on the type parameter `L`.
 */
module Events {

  /** A change a listener makes to the bus while it is being called. */
  datatype BusOp<L> = On(eventName: string, listener: L) | Off(eventName: string, listener: L)

  /** The listener list of an event; an unknown event has none. */
  function ListenersOf<L>(m: map<string, seq<L>>, eventName: string): seq<L> {
    if eventName in m then m[eventName] else []
  }

  /** `Array.prototype.indexOf`: the first position holding `x`, or -1. */
  function IndexOf<L(==)>(s: seq<L>, x: L): (r: int)
    ensures -1 <= r < |s|
    ensures r >= 0 ==> s[r] == x && forall j :: 0 <= j < r ==> s[j] != x
    ensures r == -1 <==> x !in s
  {
    if s == [] then -1
    else if s[0] == x then 0
    else
      var k := IndexOf(s[1..], x);
      if k < 0 then -1 else k + 1
  }

  /** `splice(indexOf(x), 1)` when `x` occurs: only the first occurrence goes. */
  function RemoveFirst<L(==)>(s: seq<L>, x: L): (r: seq<L>)
    ensures x !in s ==> r == s
    ensures x in s ==> |r| == |s| - 1 && multiset(r) == multiset(s) - multiset{x}
    ensures x in s ==> exists i :: 0 <= i < |s| && s[i] == x && x !in s[..i] && r == s[..i] + s[i + 1..]
  {
    var i := IndexOf(s, x);
    if i < 0 then s
    else
      assert s == s[..i] + [s[i]] + s[i + 1..];
      assert x !in s[..i];
      s[..i] + s[i + 1..]
  }

  /** The listeners after `on(eventName, listener)`. */
  function OnMap<L>(m: map<string, seq<L>>, eventName: string, listener: L): (r: map<string, seq<L>>)
    ensures r.Keys == m.Keys + {eventName}
    ensures ListenersOf(r, eventName) == ListenersOf(m, eventName) + [listener]
    ensures forall e :: e in m && e != eventName ==> r[e] == m[e]
  {
    m[eventName := ListenersOf(m, eventName) + [listener]]
  }

  /** The listeners after `off(eventName, listener)`. */
  function OffMap<L(==)>(m: map<string, seq<L>>, eventName: string, listener: L): (r: map<string, seq<L>>)
    ensures r.Keys == m.Keys
    ensures eventName !in m ==> r == m
    ensures listener !in ListenersOf(m, eventName) ==> r == m
    ensures ListenersOf(r, eventName) == RemoveFirst(ListenersOf(m, eventName), listener)
    ensures forall e :: e in m && e != eventName ==> r[e] == m[e]
  {
    if eventName !in m then m
    else m[eventName := RemoveFirst(m[eventName], listener)]
  }

  function ApplyOp<L(==)>(m: map<string, seq<L>>, op: BusOp<L>): map<string, seq<L>> {
    match op
    case On(e, l) => OnMap(m, e, l)
    case Off(e, l) => OffMap(m, e, l)
  }

  /** The listeners after the operations, applied in order. */
  function ApplyOps<L(==)>(m: map<string, seq<L>>, ops: seq<BusOp<L>>): map<string, seq<L>>
    decreases |ops|
  {
    if ops == [] then m else ApplyOps(ApplyOp(m, ops[0]), ops[1..])
  }

  lemma {:induction false} ApplyOpsAppend<L>(m: map<string, seq<L>>, a: seq<BusOp<L>>, b: seq<BusOp<L>>)
    ensures ApplyOps(m, a + b) == ApplyOps(ApplyOps(m, a), b)
    decreases |a|
  {
    if a == [] {
      assert a + b == b;
    } else {
      assert (a + b)[0] == a[0] && (a + b)[1..] == a[1..] + b;
      ApplyOpsAppend(ApplyOp(m, a[0]), a[1..], b);
    }
  }

  /** Everything the listeners do to the bus, in the order they are called. */
  function Reactions<L>(called: seq<L>, react: L -> seq<BusOp<L>>): seq<BusOp<L>> {
    if called == [] then [] else Reactions(called[..|called| - 1], react) + react(called[|called| - 1])
  }

  /** Calling one more listener adds its reactions after the earlier ones. */
  lemma ReactionsAppend<L>(called: seq<L>, listener: L, react: L -> seq<BusOp<L>>)
    ensures Reactions(called + [listener], react) == Reactions(called, react) + react(listener)
  {
    assert (called + [listener])[..|called|] == called;
  }

  lemma {:induction false} IndexOfAppendedFresh<L>(s: seq<L>, x: L)
    requires x !in s
    ensures IndexOf(s + [x], x) == |s|
  {
    if s != [] {
      assert (s + [x])[1..] == s[1..] + [x];
      IndexOfAppendedFresh(s[1..], x);
    }
  }

  lemma RemoveFirstAppendedFresh<L>(s: seq<L>, x: L)
    requires x !in s
    ensures RemoveFirst(s + [x], x) == s
  {
    IndexOfAppendedFresh(s, x);
    assert (s + [x])[..|s|] == s;
    assert (s + [x])[|s| + 1..] == [];
  }

  /** `off` undoes an `on` of a listener the event did not hold yet (an absent event stays as an empty list). */
  lemma OffUndoesOn<L>(m: map<string, seq<L>>, eventName: string, listener: L)
    requires listener !in ListenersOf(m, eventName)
    ensures OffMap(OnMap(m, eventName, listener), eventName, listener) == m[eventName := ListenersOf(m, eventName)]
  {
    var s := ListenersOf(m, eventName);
    RemoveFirstAppendedFresh(s, listener);
    var m' := OnMap(m, eventName, listener);
    assert eventName in m' && m'[eventName] == s + [listener];
    var r := OffMap(m', eventName, listener);
    assert r == m'[eventName := s];
    assert r.Keys == m[eventName := s].Keys;
  }

  /** Removing a listener registered twice leaves its later registration in place. */
  lemma OffRemovesEarliest<L>(s: seq<L>, x: L, t: seq<L>)
    requires x !in s
    ensures RemoveFirst(s + [x] + t, x) == s + t
  {
    IndexOfPrefixFresh(s, x, [x] + t);
    assert s + [x] + t == s + ([x] + t);
    assert (s + ([x] + t))[..|s|] == s;
    assert (s + ([x] + t))[|s| + 1..] == t;
  }

  lemma {:induction false} IndexOfPrefixFresh<L>(s: seq<L>, x: L, t: seq<L>)
    requires x !in s && t != [] && t[0] == x
    ensures IndexOf(s + t, x) == |s|
  {
    if s != [] {
      assert (s + t)[1..] == s[1..] + t;
      IndexOfPrefixFresh(s[1..], x, t);
    } else {
      assert s + t == t;
    }
  }

  class EventBus<L(==)> {
    /** `_listeners`, a dictionary without prototype. */
    var listeners: map<string, seq<L>>

    constructor()
      ensures listeners == map[]
    {
      listeners := map[];
    }

    /** Appends the listener at the end of the event's list, creating the list if absent. */
    method On(eventName: string, listener: L)
      modifies this
      ensures listeners == OnMap(old(listeners), eventName, listener)
    {
      if eventName !in listeners {
        assert ListenersOf(listeners, eventName) + [listener] == [listener];
        listeners := listeners[eventName := [listener]];
      } else {
        listeners := listeners[eventName := listeners[eventName] + [listener]];
      }
    }

    /** Removes the first occurrence of the listener; unknown events and listeners change nothing. */
    method Off(eventName: string, listener: L)
      modifies this
      ensures listeners == OffMap(old(listeners), eventName, listener)
    {
      if eventName !in listeners {
        return;
      }
      var eventListeners := listeners[eventName];
      var index := IndexOf(eventListeners, listener);
      if index >= 0 {
        listeners := listeners[eventName := eventListeners[..index] + eventListeners[index + 1..]];
      }
    }

    /** The calls one listener makes on the bus while it is being notified, in order. */
    method Perform(ops: seq<BusOp<L>>)
      modifies this
      ensures listeners == ApplyOps(old(listeners), ops)
    {
      var j := 0;
      assert ops[..0] == [];
      while j < |ops|
        invariant 0 <= j <= |ops|
        invariant listeners == ApplyOps(old(listeners), ops[..j])
      {
        ApplyOpsAppend(old(listeners), ops[..j], [ops[j]]);
        assert ops[..j + 1] == ops[..j] + [ops[j]];
        match ops[j] {
          case On(e, l) => On(e, l);
          case Off(e, l) => Off(e, l);
        }
        j := j + 1;
      }
      assert ops[..|ops|] == ops;
    }

    /**
     * Calls a snapshot of the event's listeners in registration order. `react`
     * says what each listener does to the bus when called; those changes take
     * effect on the bus at once but not on the snapshot being dispatched.
     */
    method Dispatch(eventName: string, react: L -> seq<BusOp<L>>) returns (called: seq<L>)
      modifies this
      ensures called == ListenersOf(old(listeners), eventName)
      ensures listeners == ApplyOps(old(listeners), Reactions(called, react))
    {
      if eventName !in listeners || |listeners[eventName]| == 0 {
        return [];
      }
      var snapshot := listeners[eventName];
      called := [];
      var i := 0;
      while i < |snapshot|
        invariant 0 <= i <= |snapshot|
        invariant called == snapshot[..i]
        invariant listeners == ApplyOps(old(listeners), Reactions(called, react))
      {
        var listener := snapshot[i];
        Perform(react(listener));
        ApplyOpsAppend(old(listeners), Reactions(called, react), react(listener));
        ReactionsAppend(called, listener, react);
        assert snapshot[..i + 1] == called + [listener];
        called := called + [listener];
        i := i + 1;
      }
      assert snapshot[..|snapshot|] == snapshot;
    }
  }
}
