/** The java.util list operations the app relies on: `indexOf`,
    `remove(Object)` (first equal element), and an `ArrayList` class for the
    lists that two objects share by reference. */
module JavaUtil {

  predicate NoDuplicates<T(==)>(s: seq<T>)
  {
    forall i, j :: 0 <= i < j < |s| ==> s[i] != s[j]
  }

  /** `List.indexOf`: the first index holding `x`, or -1. */
  function IndexOf<T(==)>(s: seq<T>, x: T): (i: int)
    ensures -1 <= i < |s|
    ensures i == -1 <==> x !in s
    ensures i >= 0 ==> s[i] == x && x !in s[..i]
  {
    if s == [] then -1
    else if s[0] == x then 0
    else
      var k := IndexOf(s[1..], x);
      assert s[1..] == s[1..][..];
      if k < 0 then -1
      else
        assert s[..k + 1] == [s[0]] + s[1..][..k];
        k + 1
  }

  /** `List.remove(Object)`: drop the first element equal to `x`, if any. */
  function RemoveFirst<T(==)>(s: seq<T>, x: T): (r: seq<T>)
    ensures x !in s ==> r == s
    ensures x in s ==> |r| == |s| - 1
    ensures x in s ==> r == s[..IndexOf(s, x)] + s[IndexOf(s, x) + 1..]
    ensures multiset(r) == multiset(s) - multiset{x}
  {
    var i := IndexOf(s, x);
    if i < 0 then s
    else
      assert s == s[..i] + [x] + s[i + 1..];
      s[..i] + s[i + 1..]
  }

  /** Removing an element that was just appended, and was not there before,
      gives the original list back. */
  lemma RemoveFirstOfAppended<T>(s: seq<T>, x: T)
    requires x !in s
    ensures RemoveFirst(s + [x], x) == s
  {
    assert IndexOf(s + [x], x) == |s| by {
      assert (s + [x])[|s|] == x;
      assert (s + [x])[..|s|] == s;
    }
    assert (s + [x])[..|s|] == s;
  }

  lemma RemoveFirstKeepsNoDuplicates<T>(s: seq<T>, x: T)
    requires NoDuplicates(s)
    ensures NoDuplicates(RemoveFirst(s, x))
    ensures x !in RemoveFirst(s, x)
  {
    var i := IndexOf(s, x);
    if i >= 0 {
      var r := RemoveFirst(s, x);
      assert r == s[..i] + s[i + 1..];
      forall k | 0 <= k < |r|
        ensures r[k] == s[if k < i then k else k + 1]
      {
      }
    }
  }

  /** The contains/remove/add idiom of `UserPhoto.toggleLike` and of the
      sample-photo check box: remove `x` if present, else append it. */
  function ToggleMembership<T(==)>(s: seq<T>, x: T): (r: seq<T>)
    ensures x in s ==> r == RemoveFirst(s, x) && |r| == |s| - 1
    ensures x !in s ==> r == s + [x] && x in r
  {
    if x in s then RemoveFirst(s, x) else s + [x]
  }

  /** Toggling twice from "absent" restores the exact list. */
  lemma ToggleTwiceFromAbsent<T>(s: seq<T>, x: T)
    requires x !in s
    ensures ToggleMembership(ToggleMembership(s, x), x) == s
  {
    RemoveFirstOfAppended(s, x);
  }

  /** On a list without duplicates one toggle flips membership and keeps the
      list duplicate-free. */
  lemma ToggleFlipsMembership<T>(s: seq<T>, x: T)
    requires NoDuplicates(s)
    ensures NoDuplicates(ToggleMembership(s, x))
    ensures x in ToggleMembership(s, x) <==> x !in s
  {
    if x in s {
      RemoveFirstKeepsNoDuplicates(s, x);
    }
  }

  /** On a list without duplicates two toggles restore membership of `x`. */
  lemma ToggleTwiceRestoresMembership<T>(s: seq<T>, x: T)
    requires NoDuplicates(s)
    ensures x in ToggleMembership(ToggleMembership(s, x), x) <==> x in s
  {
    ToggleFlipsMembership(s, x);
    ToggleFlipsMembership(ToggleMembership(s, x), x);
  }

  /** A `java.util.ArrayList` whose identity matters because two objects
      hold the same list. */
  class ArrayList<T(==)> {
    var items: seq<T>

    constructor()
      ensures items == []
    {
      items := [];
    }

    /** `new ArrayList<>(other)`: a copy with the same elements. */
    constructor Copy(other: seq<T>)
      ensures items == other
    {
      items := other;
    }

    predicate IsEmpty()
      reads this
    {
      items == []
    }

    function Size(): (n: nat)
      reads this
      ensures n == |items|
    {
      |items|
    }

    predicate Contains(x: T)
      reads this
    {
      x in items
    }

    method Add(x: T)
      modifies this
      ensures items == old(items) + [x]
    {
      items := items + [x];
    }

    /** `remove(Object)`: reports whether an element was removed. */
    method Remove(x: T) returns (removed: bool)
      modifies this
      ensures removed == (x in old(items))
      ensures items == RemoveFirst(old(items), x)
    {
      removed := x in items;
      items := RemoveFirst(items, x);
    }

    method Clear()
      modifies this
      ensures items == []
    {
      items := [];
    }
  }
}
