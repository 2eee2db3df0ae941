/**
  The list operations a manager performs on its roster, as functions on
  sequences. Elements are compared with `==`; for class references that is
  identity, which is what Python's `in` and `list.remove` fall back to for
  a class without `__eq__`.
 */
module Rosters {

  /** No element occurs twice. */
  predicate NoDup<T(==)>(s: seq<T>) {
    forall i, j :: 0 <= i < j < |s| ==> s[i] != s[j]
  }

  /** `if x not in s: s.append(x)`, as a value. */
  function Added<T(==)>(s: seq<T>, x: T): (r: seq<T>)
    ensures x in r
    ensures |r| == if x in s then |s| else |s| + 1
    ensures r[..|s|] == s
  {
    if x in s then s else s + [x]
  }

  /** The position of the first occurrence of `x` in `s`. */
  function FirstIndex<T(==)>(s: seq<T>, x: T): (i: nat)
    requires x in s
    ensures i < |s| && s[i] == x
    ensures forall j :: 0 <= j < i ==> s[j] != x
  {
    if s[0] == x then 0 else 1 + FirstIndex(s[1..], x)
  }

  /** `s.remove(x)`: drops the first occurrence of `x` (Python raises when there is none). */
  function RemoveFirst<T(==)>(s: seq<T>, x: T): (r: seq<T>)
    requires x in s
    ensures r == s[..FirstIndex(s, x)] + s[FirstIndex(s, x) + 1..]
  {
    if s[0] == x then s[1..]
    else
      var tail := s[1..];
      var k := FirstIndex(tail, x);
      assert s[..k + 1] == [s[0]] + tail[..k];
      assert s[k + 2..] == tail[k + 1..];
      [s[0]] + RemoveFirst(tail, x)
  }

  /** Removing takes away exactly one copy of the element. */
  lemma RemoveFirstOneCopy<T>(s: seq<T>, x: T)
    requires x in s
    ensures multiset(RemoveFirst(s, x)) == multiset(s) - multiset{x}
  {
    var i := FirstIndex(s, x);
    assert s == s[..i] + [x] + s[i + 1..];
  }

  /** `if x in s: s.remove(x)`, as a value. */
  function Removed<T(==)>(s: seq<T>, x: T): (r: seq<T>)
    ensures x !in s ==> r == s
    ensures x in s ==> |r| == |s| - 1 && multiset(r) == multiset(s) - multiset{x}
  {
    if x in s then
      RemoveFirstOneCopy(s, x);
      RemoveFirst(s, x)
    else s
  }

  /** Adding an element already added changes nothing. */
  lemma AddedIdempotent<T>(s: seq<T>, x: T)
    ensures Added(Added(s, x), x) == Added(s, x)
  {
  }

  /** Adding keeps a duplicate-free roster duplicate-free. */
  lemma AddedKeepsNoDup<T>(s: seq<T>, x: T)
    requires NoDup(s)
    ensures NoDup(Added(s, x))
  {
  }

  /** Removing leaves an absent element's roster alone, and otherwise keeps the order of
      everything but the first occurrence. */
  lemma RemovedSplice<T>(s: seq<T>, x: T)
    ensures x !in s ==> Removed(s, x) == s
    ensures x in s ==> exists i :: 0 <= i < |s| && s[i] == x && (forall j :: 0 <= j < i ==> s[j] != x) &&
                                   Removed(s, x) == s[..i] + s[i + 1..]
  {
    if x in s {
      var i := FirstIndex(s, x);
      assert Removed(s, x) == s[..i] + s[i + 1..];
    }
  }

  /** Removing from a duplicate-free roster keeps it duplicate-free and leaves no copy
      of the element behind. */
  lemma RemovedKeepsNoDup<T>(s: seq<T>, x: T)
    requires NoDup(s)
    ensures NoDup(Removed(s, x))
    ensures x !in Removed(s, x)
  {
  }

  /** On a duplicate-free roster, removing twice is removing once. */
  lemma RemovedIdempotent<T>(s: seq<T>, x: T)
    requires NoDup(s)
    ensures Removed(Removed(s, x), x) == Removed(s, x)
  {
  }

  /** Adding an absent element and removing it again restores the roster. */
  lemma AddThenRemove<T>(s: seq<T>, x: T)
    requires x !in s
    ensures Removed(Added(s, x), x) == s
  {
  }
}
