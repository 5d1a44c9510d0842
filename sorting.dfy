/** Sorting an array in place by a comparator, as `Array.prototype.sort`
    does, and what a sorted arrangement determines. The order is given as
    `before(x, y)`: the comparator does not ask for `y` to come first. */
module Sorting {

  /** Any two elements can be put in some order, and that order chains. */
  ghost predicate IsTotalPreorder<T(!new)>(before: (T, T) -> bool) {
    (forall x, y :: before(x, y) || before(y, x)) &&
    (forall x, y, z :: before(x, y) && before(y, z) ==> before(x, z))
  }

  predicate Sorted<T>(s: seq<T>, before: (T, T) -> bool) {
    forall i, j :: 0 <= i < j < |s| ==> before(s[i], s[j])
  }

  /** Insertion sort: each element in turn is swapped down past the elements
      that the comparator puts after it. */
  method SortInPlace<T(!new)>(a: array<T>, before: (T, T) -> bool)
    requires IsTotalPreorder(before)
    modifies a
    ensures Sorted(a[..], before)
    ensures multiset(a[..]) == multiset(old(a[..]))
  {
    var i := 0;
    while i < a.Length
      invariant 0 <= i <= a.Length
      invariant forall k, m :: 0 <= k < m < i ==> before(a[k], a[m])
      invariant multiset(a[..]) == multiset(old(a[..]))
    {
      var j := i;
      while j > 0 && !before(a[j - 1], a[j])
        invariant 0 <= j <= i
        invariant forall k, m :: 0 <= k < m <= i && k != j && m != j ==> before(a[k], a[m])
        invariant forall m :: j < m <= i ==> before(a[j], a[m])
        invariant multiset(a[..]) == multiset(old(a[..]))
      {
        a[j - 1], a[j] := a[j], a[j - 1];
        j := j - 1;
      }
      assert forall k :: 0 <= k < j ==> before(a[k], a[j]) by {
        forall k | 0 <= k < j - 1 ensures before(a[k], a[j]) {
          assert before(a[k], a[j - 1]);
        }
      }
      i := i + 1;
    }
  }

  /** With `ahead` irreflexive on the elements, a list strictly ordered by
      it is the only arrangement of its elements in which no element is ahead
      of an earlier one. */
  lemma {:induction false} StrictlySortedUnique<T>(a: seq<T>, b: seq<T>, ahead: (T, T) -> bool)
    requires forall i :: 0 <= i < |a| ==> !ahead(a[i], a[i])
    requires forall i, j :: 0 <= i < j < |a| ==> ahead(a[i], a[j])
    requires forall i, j :: 0 <= i < j < |b| ==> !ahead(b[j], b[i])
    requires multiset(a) == multiset(b)
    ensures a == b
    decreases |a|
  {
    if a != [] {
      SameHead(a, b, ahead);
      TailsSameMultiset(a, b);
      StrictlySortedUnique(a[1..], b[1..], ahead);
      assert a == [a[0]] + a[1..] && b == [b[0]] + b[1..];
    }
  }

  lemma SameHead<T>(a: seq<T>, b: seq<T>, ahead: (T, T) -> bool)
    requires a != []
    requires forall i :: 0 <= i < |a| ==> !ahead(a[i], a[i])
    requires forall i, j :: 0 <= i < j < |a| ==> ahead(a[i], a[j])
    requires forall i, j :: 0 <= i < j < |b| ==> !ahead(b[j], b[i])
    requires multiset(a) == multiset(b)
    ensures b != [] && a[0] == b[0]
  {
    assert a[0] in multiset(a);
    var m :| 0 <= m < |b| && b[m] == a[0];
    assert b[0] in multiset(b);
    var n :| 0 <= n < |a| && a[n] == b[0];
  }

  lemma TailsSameMultiset<T>(a: seq<T>, b: seq<T>)
    requires a != [] && b != [] && a[0] == b[0]
    requires multiset(a) == multiset(b)
    ensures multiset(a[1..]) == multiset(b[1..])
  {
    assert a == [a[0]] + a[1..] && b == [b[0]] + b[1..];
    assert multiset(a) == multiset{a[0]} + multiset(a[1..]);
    assert multiset(b) == multiset{a[0]} + multiset(b[1..]);
    forall y ensures multiset(a[1..])[y] == multiset(b[1..])[y] {
      assert multiset(a)[y] == multiset(b)[y];
    }
  }

  /** Reversing a list strictly ordered by `lt` orders it the other way. */
  lemma ReverseFlipsOrder<T>(s: seq<T>, r: seq<T>, lt: (T, T) -> bool)
    requires |r| == |s| && forall i :: 0 <= i < |s| ==> r[i] == s[|s| - 1 - i]
    requires forall i, j :: 0 <= i < j < |s| ==> lt(s[i], s[j])
    ensures forall i, j :: 0 <= i < j < |r| ==> lt(r[j], r[i])
  {
    forall i, j | 0 <= i < j < |r| ensures lt(r[j], r[i]) {
      assert r[j] == s[|s| - 1 - j] && r[i] == s[|s| - 1 - i];
    }
  }
}
