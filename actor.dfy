/**
 * `Actor`: an entity with a list of observers. `addObserver` ignores an
 * observer already registered (identity comparison, like `indexOf`),
 * `removeObserver` splices out the first occurrence and ignores an absent one,
 * and `notify` calls `onNotify(this, notification)` on every observer in list
 * order. Without dynamic dispatch the model returns those calls as a list of
 * deliveries; the concrete actors (player, enemy, level) each own an Actor.
 */
module Actors {

  /** The event tags of `EVS`; only the player-fire tag is used by the core. */
  datatype Event = EventPlayerFire

  /** `ActorNotification`: `{ event }`. */
  datatype Notification = Notification(event: Event)

  /** One call `observer.onNotify(source, notification)`. */
  datatype Delivery = Delivery(observer: Actor, source: Actor, notification: Notification)

  predicate NoDuplicates<T(==)>(s: seq<T>)
  {
    forall i, j :: 0 <= i < j < |s| ==> s[i] != s[j]
  }

  /** `Array.prototype.indexOf`: the first position of `x`, or -1. */
  function IndexOf<T(==)>(s: seq<T>, x: T): (r: int)
    ensures -1 <= r < |s|
    ensures r == -1 <==> x !in s
    ensures 0 <= r ==> s[r] == x && x !in s[..r]
  {
    if s == [] then -1
    else if s[0] == x then 0
    else var k := IndexOf(s[1..], x); if k == -1 then -1 else k + 1
  }

  /** The observer list after `addObserver(a)`: the old list, then `a` at the end unless it was already there. */
  function Added<T(==)>(s: seq<T>, a: T): (r: seq<T>)
    ensures |s| <= |r| <= |s| + 1 && r[..|s|] == s
    ensures a in s ==> r == s
    ensures a in r && forall i :: 0 <= i < |r| ==> r[i] in s || r[i] == a
  {
    if IndexOf(s, a) != -1 then s else s + [a]
  }

  /** The observer list after `removeObserver(a)`: unchanged when `a` is absent, otherwise one occurrence of `a` fewer. */
  function Removed<T(==)>(s: seq<T>, a: T): (r: seq<T>)
    ensures a !in s ==> r == s
    ensures a in s ==> |r| == |s| - 1 && multiset(r) == multiset(s) - multiset{a}
    ensures a in s ==> r == s[..IndexOf(s, a)] + s[IndexOf(s, a) + 1..]
  {
    var idx := IndexOf(s, a);
    if idx == -1 then s
    else
      assert s == s[..idx] + [s[idx]] + s[idx + 1..];
      s[..idx] + s[idx + 1..]
  }

  /** Adding keeps the list free of duplicates, and adding twice is adding once. */
  lemma AddedKeepsNoDuplicates<T>(s: seq<T>, a: T)
    requires NoDuplicates(s)
    ensures NoDuplicates(Added(s, a))
    ensures a in Added(s, a)
    ensures Added(Added(s, a), a) == Added(s, a)
  {
  }

  /** Position `i` of the spliced list is position `i`, or `i + 1` past the cut, of the original. */
  lemma SpliceAt<T>(s: seq<T>, idx: nat, i: nat)
    requires idx < |s| && i < |s| - 1
    ensures (s[..idx] + s[idx + 1..])[i] == s[if i < idx then i else i + 1]
  {
  }

  /** Cutting one position out of a list without duplicates leaves a list without duplicates. */
  lemma SpliceNoDuplicates<T>(s: seq<T>, idx: nat)
    requires NoDuplicates(s) && idx < |s|
    ensures NoDuplicates(s[..idx] + s[idx + 1..])
  {
    var r := s[..idx] + s[idx + 1..];
    forall i, j | 0 <= i < j < |r|
      ensures r[i] != r[j]
    {
      SpliceAt(s, idx, i);
      SpliceAt(s, idx, j);
    }
  }

  /** Cutting position `idx` out of a list without duplicates removes exactly the element there. */
  lemma SpliceMembers<T>(s: seq<T>, idx: nat, x: T)
    requires NoDuplicates(s) && idx < |s|
    ensures x in s[..idx] + s[idx + 1..] <==> x in s && x != s[idx]
  {
    var r := s[..idx] + s[idx + 1..];
    if x in r {
      var k :| 0 <= k < |r| && r[k] == x;
      SpliceAt(s, idx, k);
    }
    if x in s && x != s[idx] {
      var k :| 0 <= k < |s| && s[k] == x;
      if k < idx {
        SpliceAt(s, idx, k);
      } else {
        SpliceAt(s, idx, k - 1);
      }
    }
  }

  /** Removing keeps the list free of duplicates and takes out exactly `a`, keeping the others' order. */
  lemma RemovedExactly<T>(s: seq<T>, a: T)
    requires NoDuplicates(s)
    ensures NoDuplicates(Removed(s, a))
    ensures forall x :: x in Removed(s, a) <==> x in s && x != a
    ensures a in s ==> |Removed(s, a)| == |s| - 1
  {
    var idx := IndexOf(s, a);
    if idx != -1 {
      assert Removed(s, a) == s[..idx] + s[idx + 1..];
      SpliceNoDuplicates(s, idx);
      forall x
        ensures x in Removed(s, a) <==> x in s && x != a
      {
        SpliceMembers(s, idx, x);
      }
    }
  }

  /** Removing an observer just added gives back the list it was added to. */
  lemma RemoveUndoesAdd<T>(s: seq<T>, a: T)
    requires a !in s
    ensures Removed(Added(s, a), a) == s
  {
    var t := s + [a];
    assert IndexOf(t, a) == |s| by {
      assert t[|s|] == a;
      assert t[..|s|] == s;
    }
    assert t[..|s|] == s;
  }

  class Actor {
    var observers: seq<Actor>

    ghost predicate Valid()
      reads this
    {
      NoDuplicates(observers)
    }

    /** A new actor observes nothing and is observed by nobody. */
    constructor ()
      ensures Valid() && observers == []
    {
      observers := [];
    }

    /** `notify`: one `onNotify(this, notification)` per observer, in list order. */
    method Notify(notification: Notification) returns (calls: seq<Delivery>)
      ensures |calls| == |observers|
      ensures forall i :: 0 <= i < |calls| ==> calls[i] == Delivery(observers[i], this, notification)
    {
      calls := [];
      var i := 0;
      while i < |observers|
        invariant 0 <= i <= |observers|
        invariant |calls| == i
        invariant forall k :: 0 <= k < i ==> calls[k] == Delivery(observers[k], this, notification)
      {
        calls := calls + [Delivery(observers[i], this, notification)];
        i := i + 1;
      }
    }

    /** `addObserver`: nothing if `actor` is registered, else append it. */
    method AddObserver(actor: Actor)
      requires Valid()
      modifies this
      ensures Valid()
      ensures actor in old(observers) ==> observers == old(observers)
      ensures actor !in old(observers) ==> observers == old(observers) + [actor]
      ensures observers == Added(old(observers), actor)
    {
      AddedKeepsNoDuplicates(observers, actor);
      if IndexOf(observers, actor) != -1 {
        return;
      }
      observers := observers + [actor];
    }

    /** `removeObserver`: nothing if `actor` is absent, else splice out its entry. */
    method RemoveObserver(actor: Actor)
      requires Valid()
      modifies this
      ensures Valid()
      ensures actor !in old(observers) ==> observers == old(observers)
      ensures actor in old(observers) ==> actor !in observers && |observers| == |old(observers)| - 1
      ensures observers == Removed(old(observers), actor)
    {
      RemovedExactly(observers, actor);
      var idx := IndexOf(observers, actor);
      if -1 == idx {
        return;
      }
      observers := observers[..idx] + observers[idx + 1..];
    }
  }

  /** Two observers registered in turn each get one delivery from `notify`, in registration order. */
  method NotifyReachesBothInOrder(n: Notification) returns (subject: Actor, first: Actor, second: Actor, calls: seq<Delivery>)
    ensures first != second
    ensures calls == [Delivery(first, subject, n), Delivery(second, subject, n)]
  {
    subject := new Actor();
    first := new Actor();
    second := new Actor();
    subject.AddObserver(first);
    subject.AddObserver(second);
    subject.AddObserver(first);
    calls := subject.Notify(n);
  }
}
