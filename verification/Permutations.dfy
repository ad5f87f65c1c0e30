/** Rearrangements: lists with the same members, and when an ORDER BY leaves no choice. */
module Permutations {
  import opened Sorting

  ghost predicate Permuted<T>(s: seq<T>, t: seq<T>) { multiset(s) == multiset(t) }

  ghost predicate Distinct<T>(s: seq<T>) { forall i, j :: 0 <= i < j < |s| ==> s[i] != s[j] }

  /** No later entry comes strictly before an earlier one: all that ORDER BY promises. */
  ghost predicate Ordered<T>(s: seq<T>, before: (T, T) -> bool) {
    forall i, j :: 0 <= i < j < |s| ==> !before(s[j], s[i])
  }

  lemma PermutedMember<T>(s: seq<T>, t: seq<T>, x: T)
    requires Permuted(s, t)
    ensures x in s <==> x in t
  {
    assert x in s <==> x in multiset(s);
    assert x in t <==> x in multiset(t);
  }

  lemma {:induction false} DistinctOnce<T>(s: seq<T>, x: T)
    requires Distinct(s)
    ensures multiset(s)[x] <= 1
  {
    if s != [] {
      var n := |s| - 1;
      assert s == s[..n] + [s[n]];
      DistinctOnce(s[..n], x);
      assert x == s[n] ==> x !in s[..n];
      assert x == s[n] ==> x !in multiset(s[..n]);
    }
  }

  lemma RepeatedTwice<T>(s: seq<T>, i: nat, j: nat)
    requires i < j < |s| && s[i] == s[j]
    ensures multiset(s)[s[i]] >= 2
  {
    assert s == s[..j] + s[j..];
    assert s[..j][i] == s[i] && s[j..][0] == s[j];
    assert s[i] in multiset(s[..j]) && s[j] in multiset(s[j..]);
  }

  lemma PermutedDistinct<T>(s: seq<T>, t: seq<T>)
    requires Permuted(s, t) && Distinct(s)
    ensures Distinct(t)
  {
    forall i, j | 0 <= i < j < |t| ensures t[i] != t[j] {
      DistinctOnce(s, t[i]);
      if t[i] == t[j] {
        RepeatedTwice(t, i, j);
      }
    }
  }

  /** Where the order is strict on the members, ORDER BY can return only one list. */
  lemma OrderedUnique<T(!new)>(s: seq<T>, t: seq<T>, before: (T, T) -> bool)
    requires StrictOrder(before) && Sorted(s, before) && Permuted(s, t) && Ordered(t, before)
    ensures s == t
  {
    assert Distinct(s);
    PermutedDistinct(s, t);
    forall i, j | 0 <= i < j < |t| ensures before(t[i], t[j]) {
      PermutedMember(s, t, t[i]);
      PermutedMember(s, t, t[j]);
      var k :| 0 <= k < |s| && s[k] == t[i];
      var l :| 0 <= l < |s| && s[l] == t[j];
      assert k != l && !before(s[l], s[k]);
    }
    SortedUnique(s, t, before);
  }

  lemma NotBetween<T(!new)>(a: T, x: T, b: T, before: (T, T) -> bool)
    requires StrictOrder(before) && before(x, b) && !before(a, b)
    ensures !before(a, x)
  {
  }

  lemma {:induction false} InsertOrdered<T(!new)>(x: T, s: seq<T>, before: (T, T) -> bool)
    requires StrictOrder(before) && Ordered(s, before)
    ensures Ordered(Insert(x, s, before), before)
  {
    if s != [] {
      if before(x, s[0]) {
        forall k | 0 <= k < |s| ensures !before(s[k], x) {
          NotBetween(s[k], x, s[0], before);
        }
      } else {
        var t := Insert(x, s[1..], before);
        InsertOrdered(x, s[1..], before);
        InsertMembers(x, s[1..], before);
        forall k | 0 <= k < |t| ensures !before(t[k], s[0]) {
          assert t[k] in multiset(t);
        }
      }
    }
  }

  /** Sorting is a possible answer to ORDER BY even where the order leaves ties. */
  lemma {:induction false} SortOrders<T(!new)>(s: seq<T>, before: (T, T) -> bool)
    requires StrictOrder(before)
    ensures Permuted(s, Sort(s, before)) && Ordered(Sort(s, before), before)
  {
    SortMembers(s, before);
    if s != [] {
      SortOrders(s[1..], before);
      InsertOrdered(s[0], Sort(s[1..], before), before);
    }
  }

  // ---------------------------------------------------------------- mapping keeps rearrangements

  function Map<T, U>(f: T -> U, s: seq<T>): (r: seq<U>)
    ensures |r| == |s| && forall i :: 0 <= i < |s| ==> r[i] == f(s[i])
  {
    seq(|s|, i requires 0 <= i < |s| => f(s[i]))
  }

  function DropAt<T>(s: seq<T>, k: nat): seq<T> requires k < |s| { s[..k] + s[k + 1..] }

  lemma DropAtIs<T>(s: seq<T>, k: nat)
    requires k < |s|
    ensures s == s[..k] + [s[k]] + s[k + 1..] && DropAt(s, k) == s[..k] + s[k + 1..]
  {
  }

  lemma DropAtMembers<T>(s: seq<T>, k: nat)
    requires k < |s|
    ensures multiset(s) == multiset(DropAt(s, k)) + multiset{s[k]}
    ensures multiset(DropAt(s, k)) == multiset(s) - multiset{s[k]}
  {
    assert s == s[..k] + [s[k]] + s[k + 1..];
  }

  lemma MapDropAt<T, U>(f: T -> U, s: seq<T>, k: nat)
    requires k < |s|
    ensures Map(f, DropAt(s, k)) == DropAt(Map(f, s), k)
  {
  }

  lemma {:induction false} MapPermuted<T, U>(f: T -> U, s: seq<T>, t: seq<T>)
    requires Permuted(s, t)
    ensures Permuted(Map(f, s), Map(f, t))
    decreases |s|
  {
    SameEmptiness(s, t);
    if s == [] {
      assert Map(f, s) == Map(f, t);
    } else {
      PermutedMember(s, t, s[0]);
      var k :| 0 <= k < |t| && t[k] == s[0];
      DropAtMembers(s, 0);
      DropAtMembers(t, k);
      MapPermuted(f, DropAt(s, 0), DropAt(t, k));
      MapDropAt(f, s, 0);
      MapDropAt(f, t, k);
      DropAtMembers(Map(f, s), 0);
      DropAtMembers(Map(f, t), k);
    }
  }
}
