/**
 * The publish/subscribe registry the client owns (a Node `EventEmitter`): an open,
 * string-keyed map from event name to the listeners registered under it, in
 * registration order. Listeners are identified by opaque ids; what they do when
 * called is outside the model, so each emission is logged with the listeners it
 * reaches.
 */
module Events {

  type ListenerId = nat

  /** One `emit(event, payload)`, with the listeners it is delivered to, in delivery order. */
  datatype Emission<P> = Emission(event: string, payload: P, receivers: seq<ListenerId>)

  /** `ls` with every occurrence of `l` filtered out. */
  function Without(ls: seq<ListenerId>, l: ListenerId): seq<ListenerId> {
    if ls == [] then []
    else Without(ls[..|ls| - 1], l) + (if ls[|ls| - 1] == l then [] else [ls[|ls| - 1]])
  }

  /** Position of the most recent registration of `l`. */
  function LastIndex(ls: seq<ListenerId>, l: ListenerId): (j: nat)
    requires l in ls
    ensures j < |ls| && ls[j] == l && l !in ls[j + 1..]
  {
    if ls[|ls| - 1] == l then |ls| - 1 else LastIndex(ls[..|ls| - 1], l)
  }

  /** Removal of one registration of `l`, the most recently added one, as `removeListener` does. */
  function RemoveLast(ls: seq<ListenerId>, l: ListenerId): (r: seq<ListenerId>)
    ensures l !in ls ==> r == ls
    ensures l in ls ==> |r| == |ls| - 1
  {
    if ls == [] then []
    else if ls[|ls| - 1] == l then ls[..|ls| - 1]
    else RemoveLast(ls[..|ls| - 1], l) + [ls[|ls| - 1]]
  }

  /** Exactly the most recent registration is cut out. */
  lemma {:induction false} RemoveLastCutsLastIndex(ls: seq<ListenerId>, l: ListenerId)
    requires l in ls
    ensures RemoveLast(ls, l) == ls[..LastIndex(ls, l)] + ls[LastIndex(ls, l) + 1..]
  {
    var init, last := ls[..|ls| - 1], ls[|ls| - 1];
    if last != l {
      assert l in init by { assert ls == init + [last]; }
      RemoveLastCutsLastIndex(init, l);
      var j := LastIndex(init, l);
      assert ls[j + 1..] == init[j + 1..] + [last];
    }
  }

  /** The other listeners keep their registrations and their relative order. */
  lemma {:induction false} RemoveLastKeepsOthers(ls: seq<ListenerId>, l: ListenerId)
    ensures Without(RemoveLast(ls, l), l) == Without(ls, l)
  {
    if ls != [] {
      var init, last := ls[..|ls| - 1], ls[|ls| - 1];
      RemoveLastKeepsOthers(init, l);
      if last == l {
        WithoutDropsTail(init, l);
      } else {
        var r := RemoveLast(init, l) + [last];
        assert r[..|r| - 1] == RemoveLast(init, l);
      }
    }
  }

  lemma {:induction false} WithoutDropsTail(init: seq<ListenerId>, l: ListenerId)
    ensures Without(init + [l], l) == Without(init, l)
  {
    assert (init + [l])[..|init|] == init;
  }

  /** Exactly one registration of `l` disappears when there is one. */
  lemma {:induction false} RemoveLastCount(ls: seq<ListenerId>, l: ListenerId)
    ensures multiset(RemoveLast(ls, l)) == multiset(ls) - multiset{l}
  {
    if ls != [] {
      var init, last := ls[..|ls| - 1], ls[|ls| - 1];
      assert ls == init + [last];
      RemoveLastCount(init, l);
      if last != l {
        assert l in multiset(init) <==> l in multiset(ls);
      }
    }
  }

  class EventEmitter<P> {
    /** Registered listeners per event name; a name with no listener left has no entry. */
    var listeners: map<string, seq<ListenerId>>
    /** Every emission so far, oldest first. */
    var emitted: seq<Emission<P>>

    constructor()
      ensures listeners == map[] && emitted == []
    {
      listeners := map[];
      emitted := [];
    }

    /** The listeners `emit(event, …)` would call now, in the order it would call them. */
    function ListenersOf(event: string): seq<ListenerId>
      reads this
    {
      if event in listeners then listeners[event] else []
    }

    /** `on(event, listener)`: appends a registration. */
    method On(event: string, l: ListenerId)
      modifies this
      ensures ListenersOf(event) == old(ListenersOf(event)) + [l]
      ensures forall e :: e != event ==> ListenersOf(e) == old(ListenersOf(e))
      ensures emitted == old(emitted)
    {
      listeners := listeners[event := ListenersOf(event) + [l]];
    }

    /** `off(event, listener)`: drops the most recent registration of `l`; nothing when there is none. */
    method Off(event: string, l: ListenerId)
      modifies this
      ensures ListenersOf(event) == RemoveLast(old(ListenersOf(event)), l)
      ensures forall e :: e != event ==> ListenersOf(e) == old(ListenersOf(e))
      ensures emitted == old(emitted)
    {
      if event in listeners {
        var rest := RemoveLast(listeners[event], l);
        if rest == [] {
          listeners := listeners - {event};
        } else {
          listeners := listeners[event := rest];
        }
      }
    }

    /** `emit(event, payload)`: every listener registered under `event` is called once, in registration order. */
    method Emit(event: string, payload: P)
      modifies this
      ensures emitted == old(emitted) + [Emission(event, payload, ListenersOf(event))]
      ensures listeners == old(listeners)
    {
      emitted := emitted + [Emission(event, payload, ListenersOf(event))];
    }
  }
}
