/** `ObjectRecognizerEventBus`: an ordered, mutable list of listeners. Adding
    appends, removing deletes the first equal entry, and `notify` hands the
    result to every entry in list order. A listener is known only by its
    identity (`L`); a delivery is the pair (listener, result). */
module EventBus {
  import opened Domain

  /** The list without its first occurrence of `x` (Kotlin's
      `MutableList.remove`); unchanged when `x` is absent. */
  function RemoveFirst<L(==)>(s: seq<L>, x: L): seq<L> {
    if s == [] then []
    else if s[0] == x then s[1..]
    else [s[0]] + RemoveFirst(s[1..], x)
  }

  /** The position of the first occurrence of `x` in `s`. */
  function IndexOf<L(==)>(s: seq<L>, x: L): (i: nat)
    requires x in s
    ensures i < |s| && s[i] == x && x !in s[..i]
  {
    if s[0] == x then 0
    else
      var i := 1 + IndexOf(s[1..], x);
      assert s[..i] == [s[0]] + s[1..][..i - 1];
      i
  }

  /** Removing an absent listener leaves the list as it was. */
  lemma {:induction false} RemoveAbsent<L>(s: seq<L>, x: L)
    requires x !in s
    ensures RemoveFirst(s, x) == s
  {
    if s != [] {
      assert x !in s[1..];
      RemoveAbsent(s[1..], x);
    }
  }

  /** Removing at the first occurrence `i` of `x` deletes exactly that entry. */
  lemma {:induction false} RemoveAt<L>(s: seq<L>, x: L, i: nat)
    requires i < |s| && s[i] == x && x !in s[..i]
    ensures RemoveFirst(s, x) == s[..i] + s[i + 1..]
  {
    if i > 0 {
      var t := s[1..];
      assert s[0] in s[..i];
      assert t[..i - 1] == s[1..i];
      RemoveAt(t, x, i - 1);
      assert s[..i] == [s[0]] + t[..i - 1];
      assert s[i + 1..] == t[i..];
    }
  }

  /** Removing an absent listener leaves the list as it was; removing a present
      one deletes exactly its first occurrence and keeps everything else in order. */
  lemma RemoveFirstDeletesFirst<L>(s: seq<L>, x: L)
    ensures x !in s ==> RemoveFirst(s, x) == s
    ensures x in s ==> RemoveFirst(s, x) == s[..IndexOf(s, x)] + s[IndexOf(s, x) + 1..]
  {
    if x in s {
      RemoveAt(s, x, IndexOf(s, x));
    } else {
      RemoveAbsent(s, x);
    }
  }

  /** Removing takes out exactly one copy of a present listener. */
  lemma {:induction false} RemoveFirstMultiset<L>(s: seq<L>, x: L)
    ensures multiset(RemoveFirst(s, x)) == multiset(s) - multiset{x}
  {
    if s != [] {
      if s[0] == x {
        assert s == [s[0]] + s[1..];
      } else {
        RemoveFirstMultiset(s[1..], x);
        assert s == [s[0]] + s[1..];
      }
    }
  }

  /** Adding a listener that is not yet registered and then removing it gives
      back the original list. */
  lemma {:induction false} AddThenRemoveRestores<L>(s: seq<L>, x: L)
    requires x !in s
    ensures RemoveFirst(s + [x], x) == s
  {
    if s == [] {
      assert [x][1..] == [];
    } else {
      assert (s + [x])[1..] == s[1..] + [x];
      AddThenRemoveRestores(s[1..], x);
    }
  }

  /** What `notify` delivers: the result to each registered entry, in order. */
  function Deliveries<L>(listeners: seq<L>, result: RecognizerResult): seq<(L, RecognizerResult)> {
    if listeners == [] then [] else [(listeners[0], result)] + Deliveries(listeners[1..], result)
  }

  /** A listener registered `n` times receives the result `n` times. */
  lemma {:induction false} DeliveriesPerListener<L>(listeners: seq<L>, result: RecognizerResult, l: L)
    ensures multiset(Deliveries(listeners, result))[(l, result)] == multiset(listeners)[l]
  {
    if listeners != [] {
      DeliveriesPerListener(listeners[1..], result, l);
      assert listeners == [listeners[0]] + listeners[1..];
    }
  }

  class ObjectRecognizerEventBus<L(==)> {
    var recognizedEventListeners: seq<L>

    constructor ()
      ensures recognizedEventListeners == []
    {
      recognizedEventListeners := [];
    }

    /** `addListener`: appends at the end. */
    method AddListener(event: L)
      modifies this
      ensures recognizedEventListeners == old(recognizedEventListeners) + [event]
    {
      recognizedEventListeners := recognizedEventListeners + [event];
    }

    /** `removeListener`: deletes the first occurrence, if any. */
    method RemoveListener(event: L)
      modifies this
      ensures recognizedEventListeners == RemoveFirst(old(recognizedEventListeners), event)
      ensures event in old(recognizedEventListeners) ==>
        |recognizedEventListeners| == |old(recognizedEventListeners)| - 1
    {
      RemoveFirstDeletesFirst(recognizedEventListeners, event);
      recognizedEventListeners := RemoveFirst(recognizedEventListeners, event);
    }

    /** `notify`: one delivery per registered entry, in registration order;
        duplicates receive the result once per registration, and no listener
        means no delivery. The list is not changed. */
    method Notify(result: RecognizerResult) returns (delivered: seq<(L, RecognizerResult)>)
      ensures |delivered| == |recognizedEventListeners|
      ensures forall k :: 0 <= k < |delivered| ==> delivered[k] == (recognizedEventListeners[k], result)
      ensures delivered == Deliveries(recognizedEventListeners, result)
    {
      delivered := [];
      for i := 0 to |recognizedEventListeners|
        invariant |delivered| == i
        invariant forall k :: 0 <= k < i ==> delivered[k] == (recognizedEventListeners[k], result)
      {
        delivered := delivered + [(recognizedEventListeners[i], result)];
      }
      DeliveriesAt(recognizedEventListeners, result);
    }
  }

  /** `Notify` and `Deliveries` agree. */
  lemma {:induction false} DeliveriesAt<L>(listeners: seq<L>, result: RecognizerResult)
    ensures |Deliveries(listeners, result)| == |listeners|
    ensures forall k :: 0 <= k < |listeners| ==> Deliveries(listeners, result)[k] == (listeners[k], result)
  {
    if listeners != [] {
      DeliveriesAt(listeners[1..], result);
    }
  }
}
