/** Reorderings of sequences whose elements have distinct keys. */
module Permutations {
  import opened Prelude

  ghost predicate Permuted<T(!new)>(a: seq<T>, b: seq<T>) { multiset(a) == multiset(b) }

  ghost predicate KeysDistinct<T(!new), K(!new)>(s: seq<T>, key: T -> K) {
    forall i, j :: 0 <= i < j < |s| ==> key(s[i]) != key(s[j])
  }

  lemma {:induction false} CountsOnce<T(!new), K(!new)>(s: seq<T>, key: T -> K, x: T)
    requires KeysDistinct(s, key)
    ensures multiset(s)[x] <= 1
  {
    if s != [] {
      var init := s[..|s| - 1];
      assert s == init + [Last(s)];
      CountsOnce(init, key, x);
      if x in init {
        var i :| 0 <= i < |init| && init[i] == x;
        assert key(s[i]) != key(s[|s| - 1]);
      }
    }
  }

  lemma CountsTwice<T(!new)>(s: seq<T>, i: nat, j: nat)
    requires i < j < |s| && s[i] == s[j]
    ensures multiset(s)[s[i]] >= 2
  {
    assert s == s[..j] + s[j..];
    assert s[i] in s[..j] && s[j] in s[j..];
    assert multiset(s) == multiset(s[..j]) + multiset(s[j..]);
  }

  lemma SameMembers<T(!new)>(a: seq<T>, b: seq<T>, x: T)
    requires Permuted(a, b)
    ensures x in a <==> x in b
  {
    assert x in multiset(a) <==> x in multiset(b);
  }

  /** A reordering has distinct keys exactly when the original has. */
  lemma PermutedKeysDistinct<T(!new), K(!new)>(a: seq<T>, b: seq<T>, key: T -> K)
    requires Permuted(a, b) && KeysDistinct(a, key)
    ensures KeysDistinct(b, key)
  {
    forall i, j | 0 <= i < j < |b| ensures key(b[i]) != key(b[j]) {
      SameMembers(a, b, b[i]);
      SameMembers(a, b, b[j]);
      if b[i] == b[j] {
        CountsTwice(b, i, j);
        CountsOnce(a, key, b[i]);
      } else {
        var k :| 0 <= k < |a| && a[k] == b[i];
        var l :| 0 <= l < |a| && a[l] == b[j];
        assert k != l;
        assert k < l ==> key(a[k]) != key(a[l]);
        assert l < k ==> key(a[l]) != key(a[k]);
      }
    }
  }

  predicate StrictlyOrdered<T>(s: seq<T>, rank: T -> int) {
    forall i, j :: 0 <= i < j < |s| ==> rank(s[i]) < rank(s[j])
  }

  /** A strictly ordered sequence is determined by its members. */
  lemma {:induction false} OrderedUnique<T(!new)>(a: seq<T>, b: seq<T>, rank: T -> int)
    requires StrictlyOrdered(a, rank) && StrictlyOrdered(b, rank) && forall x :: x in a <==> x in b
    ensures a == b
  {
    assert a != [] ==> a[0] in b;
    assert b != [] ==> b[0] in a;
    if a != [] {
      LastsAgree(a, b, rank);
      var initA, initB := a[..|a| - 1], b[..|b| - 1];
      assert a == initA + [Last(a)] && b == initB + [Last(b)];
      forall x ensures x in initA <==> x in initB {
        assert x in initA ==> x in a && x != Last(a);
        assert x in initB ==> x in b && x != Last(b);
      }
      OrderedUnique(initA, initB, rank);
    }
  }

  lemma LastsAgree<T(!new)>(a: seq<T>, b: seq<T>, rank: T -> int)
    requires StrictlyOrdered(a, rank) && StrictlyOrdered(b, rank) && a != [] && b != []
    requires forall x :: x in a <==> x in b
    ensures Last(a) == Last(b)
  {
    assert Last(a) in b && Last(b) in a;
    var i :| 0 <= i < |b| && b[i] == Last(a);
    var j :| 0 <= j < |a| && a[j] == Last(b);
    assert rank(Last(a)) <= rank(Last(b)) <= rank(Last(a));
    assert i == |b| - 1;
  }
}
