/** The listener list of the location entity and what notifying it produces.

    A listener's callback `onLocationChanged(location, distance)` is modelled as
    an entry appended to a notification log. */
module Listeners {
  import opened Engine

  /** One call of a listener's callback. */
  datatype Notification<L> = Notification(listener: L, fix: Location, distance: real)

  /** The calls made by notifying `listeners` of `fix`: one per entry of the list,
      duplicates included, in list order. */
  function Broadcast<L>(listeners: seq<L>, fix: Location, distance: real): (r: seq<Notification<L>>)
    ensures |r| == |listeners|
    ensures forall i :: 0 <= i < |listeners| ==> r[i] == Notification(listeners[i], fix, distance)
  {
    if listeners == [] then [] else [Notification(listeners[0], fix, distance)] + Broadcast(listeners[1..], fix, distance)
  }

  /** Notifying a list extended by one listener notifies that listener last. */
  lemma BroadcastAppend<L>(listeners: seq<L>, last: L, fix: Location, distance: real)
    ensures Broadcast(listeners + [last], fix, distance) == Broadcast(listeners, fix, distance) + [Notification(last, fix, distance)]
  {
  }

  /** Every callback reports distance 0 (a first fix) or a distance beyond the
      error radius of the fix it carries. */
  ghost predicate GatedDistances<L>(ns: seq<Notification<L>>) {
    forall i :: 0 <= i < |ns| ==> ns[i].distance == 0.0 || ns[i].distance > ns[i].fix.accuracy
  }

  /** Broadcasting a fix whose distance passes the gate keeps the whole log gated. */
  lemma GatedBroadcast<L>(ns: seq<Notification<L>>, listeners: seq<L>, fix: Location, distance: real)
    requires GatedDistances(ns)
    requires distance == 0.0 || distance > fix.accuracy
    ensures GatedDistances(ns + Broadcast(listeners, fix, distance))
  {
    var all := ns + Broadcast(listeners, fix, distance);
    forall k | 0 <= k < |all|
      ensures all[k].distance == 0.0 || all[k].distance > all[k].fix.accuracy
    {
      if k >= |ns| {
        assert all[k] == Notification(listeners[k - |ns|], fix, distance);
      }
    }
  }

  /** Position of the first occurrence of `x` in `ls`. */
  function FirstIndex<L(==)>(ls: seq<L>, x: L): (k: nat)
    requires x in ls
    ensures k < |ls| && ls[k] == x && x !in ls[..k]
  {
    if ls[0] == x then 0 else 1 + FirstIndex(ls[1..], x)
  }

  /** `List.remove(Object)`: drops the first occurrence of `x` and keeps the order
      of the others; a list without `x` is left as it is. */
  function RemoveFirst<L(==)>(ls: seq<L>, x: L): (r: seq<L>)
    ensures x !in ls ==> r == ls
    ensures x in ls ==> r == ls[..FirstIndex(ls, x)] + ls[FirstIndex(ls, x) + 1..]
  {
    if ls == [] then []
    else if ls[0] == x then ls[1..]
    else
      var tail := ls[1..];
      assert ls == [ls[0]] + tail;
      [ls[0]] + RemoveFirst(tail, x)
  }

  /** Removal takes away one registration of `x`, if there is one, and no other. */
  lemma {:induction false} RemoveFirstMultiset<L>(ls: seq<L>, x: L)
    ensures multiset(RemoveFirst(ls, x)) == multiset(ls) - multiset{x}
  {
    if x in ls {
      var k := FirstIndex(ls, x);
      var before, after := ls[..k], ls[k + 1..];
      assert ls == before + [x] + after;
      assert RemoveFirst(ls, x) == before + after;
      assert multiset(ls) == multiset(before) + multiset{x} + multiset(after);
      assert x !in multiset(before);
    }
  }

  /** A listener registered once is no longer notified once removed, while every
      other registration is still notified as often as before. */
  lemma RemovedListenerNotNotified<L>(ls: seq<L>, x: L, fix: Location, distance: real)
    requires multiset(ls)[x] <= 1
    ensures forall n :: n in Broadcast(RemoveFirst(ls, x), fix, distance) ==> n.listener != x
    ensures forall y :: y != x ==> multiset(RemoveFirst(ls, x))[y] == multiset(ls)[y]
  {
    var rest := RemoveFirst(ls, x);
    RemoveFirstMultiset(ls, x);
    assert x !in rest by {
      assert multiset(rest)[x] == 0;
    }
    forall n | n in Broadcast(rest, fix, distance)
      ensures n.listener != x
    {
      var i :| 0 <= i < |rest| && Broadcast(rest, fix, distance)[i] == n;
      assert n.listener == rest[i];
    }
  }
}
