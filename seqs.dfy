/** The list operations the Kotlin code calls (`filter`, `take`, `map`, `reversed`)
    and the subsequence relation used to state that they keep the original order. */
module Seqs {

  function Min(a: int, b: int): int {
    if a <= b then a else b
  }

  /** `List.filter(p)`. */
  function Filter<T>(s: seq<T>, p: T -> bool): (r: seq<T>)
    ensures |r| <= |s|
    ensures forall i :: 0 <= i < |r| ==> r[i] in s && p(r[i])
    ensures forall i :: 0 <= i < |s| && p(s[i]) ==> s[i] in r
    decreases |s|
  {
    if s == [] then []
    else if p(s[0]) then [s[0]] + Filter(s[1..], p)
    else Filter(s[1..], p)
  }

  /** `List.take(n)` for `n >= 0` (Kotlin throws for a negative `n`). */
  function Take<T>(s: seq<T>, n: nat): (r: seq<T>)
    ensures |r| == Min(n, |s|)
    ensures r == s[..|r|]
  {
    if n <= |s| then s[..n] else s
  }

  /** `List.map(f)`. */
  function Map<A, B>(s: seq<A>, f: A -> B): (r: seq<B>)
    ensures |r| == |s|
    ensures forall i :: 0 <= i < |s| ==> r[i] == f(s[i])
  {
    seq(|s|, i requires 0 <= i < |s| => f(s[i]))
  }

  /** Mapping a prefix is taking the same prefix of the mapped list. */
  lemma MapPrefix<A, B>(s: seq<A>, f: A -> B, n: nat)
    requires n <= |s|
    ensures Map(s[..n], f) == Map(s, f)[..n]
  {
  }

  /** `List.reversed()`. */
  function Reverse<T>(s: seq<T>): (r: seq<T>)
    ensures |r| == |s|
    ensures forall i :: 0 <= i < |s| ==> r[i] == s[|s| - 1 - i]
    decreases |s|
  {
    if s == [] then [] else Reverse(s[1..]) + [s[0]]
  }

  /** `a` is `b` with some elements left out, in the same order. */
  ghost predicate IsSubsequence<T>(a: seq<T>, b: seq<T>)
    decreases |b|
  {
    a == [] || (b != [] && ((a[0] == b[0] && IsSubsequence(a[1..], b[1..])) || IsSubsequence(a, b[1..])))
  }

  lemma {:induction false} SubsequenceOfSelf<T>(s: seq<T>)
    ensures IsSubsequence(s, s)
    decreases |s|
  {
    if s != [] {
      SubsequenceOfSelf(s[1..]);
    }
  }

  /** Filtering keeps the survivors in their original order. */
  lemma {:induction false} FilterIsSubsequence<T>(s: seq<T>, p: T -> bool)
    ensures IsSubsequence(Filter(s, p), s)
    decreases |s|
  {
    if s != [] {
      FilterIsSubsequence(s[1..], p);
      if p(s[0]) {
        assert Filter(s, p)[0] == s[0] && Filter(s, p)[1..] == Filter(s[1..], p);
      }
    }
  }

  /** Filtering twice with the same predicate changes nothing the second time. */
  lemma {:induction false} FilterIdempotent<T>(s: seq<T>, p: T -> bool)
    ensures Filter(Filter(s, p), p) == Filter(s, p)
    decreases |s|
  {
    if s != [] {
      FilterIdempotent(s[1..], p);
      if p(s[0]) {
        assert ([s[0]] + Filter(s[1..], p))[1..] == Filter(s[1..], p);
      }
    }
  }

  /** A filter whose predicate holds everywhere keeps the whole list. */
  lemma {:induction false} FilterAll<T>(s: seq<T>, p: T -> bool)
    requires forall i :: 0 <= i < |s| ==> p(s[i])
    ensures Filter(s, p) == s
    decreases |s|
  {
    if s != [] {
      FilterAll(s[1..], p);
      assert [s[0]] + s[1..] == s;
    }
  }

  /** Filter with two predicates that agree on the list's elements gives the same list. */
  lemma {:induction false} FilterCongruent<T>(s: seq<T>, p: T -> bool, q: T -> bool)
    requires forall i :: 0 <= i < |s| ==> p(s[i]) == q(s[i])
    ensures Filter(s, p) == Filter(s, q)
    decreases |s|
  {
    if s != [] {
      FilterCongruent(s[1..], p, q);
    }
  }

  /** A prefix of a subsequence is still a subsequence. */
  lemma {:induction false} PrefixOfSubsequence<T>(a: seq<T>, b: seq<T>, n: nat)
    requires n <= |a| && IsSubsequence(a, b)
    ensures IsSubsequence(a[..n], b)
    decreases |b|
  {
    if n > 0 {
      if a[0] == b[0] && IsSubsequence(a[1..], b[1..]) {
        PrefixOfSubsequence(a[1..], b[1..], n - 1);
        assert a[..n][1..] == a[1..][..n - 1];
      } else {
        PrefixOfSubsequence(a, b[1..], n);
      }
    }
  }

  /** Mapping both sides keeps the subsequence relation. */
  lemma {:induction false} MapSubsequence<A, B>(a: seq<A>, b: seq<A>, f: A -> B)
    requires IsSubsequence(a, b)
    ensures IsSubsequence(Map(a, f), Map(b, f))
    decreases |b|
  {
    if a != [] {
      assert Map(b, f)[1..] == Map(b[1..], f);
      if a[0] == b[0] && IsSubsequence(a[1..], b[1..]) {
        MapSubsequence(a[1..], b[1..], f);
        assert Map(a, f)[1..] == Map(a[1..], f);
      } else {
        MapSubsequence(a, b[1..], f);
      }
    }
  }

  /** Filter keeps every copy of a matching element and no copy of any other: the
      survivors are counted exactly, duplicates included. */
  lemma {:induction false} FilterCount<T>(s: seq<T>, p: T -> bool)
    ensures forall x :: multiset(Filter(s, p))[x] == if p(x) then multiset(s)[x] else 0
    decreases |s|
  {
    if s != [] {
      FilterCount(s[1..], p);
      assert s == [s[0]] + s[1..];
    }
  }

  /** Reversing keeps every element with its count. */
  lemma {:induction false} ReverseMultiset<T>(s: seq<T>)
    ensures multiset(Reverse(s)) == multiset(s)
    decreases |s|
  {
    if s != [] {
      ReverseMultiset(s[1..]);
      assert s == [s[0]] + s[1..];
    }
  }

  /** The same count after reversing the filtered list. */
  lemma ReverseFilterCount<T>(s: seq<T>, p: T -> bool)
    ensures forall x :: multiset(Reverse(Filter(s, p)))[x] == if p(x) then multiset(s)[x] else 0
  {
    FilterCount(s, p);
    ReverseMultiset(Filter(s, p));
  }

  /** What `filter(p).reversed()` keeps: no more than the input, in reverse input order,
      exactly the elements satisfying `p`, each as often as in the input. */
  lemma ReverseFilterSpec<T>(s: seq<T>, p: T -> bool)
    ensures |Reverse(Filter(s, p))| <= |s|
    ensures IsSubsequence(Reverse(Reverse(Filter(s, p))), s)
    ensures forall i :: 0 <= i < |Reverse(Filter(s, p))| ==> p(Reverse(Filter(s, p))[i])
    ensures forall i :: 0 <= i < |s| && p(s[i]) ==> s[i] in Reverse(Filter(s, p))
    ensures forall x :: multiset(Reverse(Filter(s, p)))[x] == if p(x) then multiset(s)[x] else 0
  {
    ReverseReverse(Filter(s, p));
    FilterIsSubsequence(s, p);
    ReverseFilterMembers(s, p);
    ReverseFilterCount(s, p);
  }

  /** Filtering then mapping is mapping then filtering with the predicate carried across the map. */
  lemma {:induction false} MapFilter<A, B>(s: seq<A>, p: A -> bool, f: A -> B, q: B -> bool)
    requires forall i :: 0 <= i < |s| ==> p(s[i]) == q(f(s[i]))
    ensures Map(Filter(s, p), f) == Filter(Map(s, f), q)
    decreases |s|
  {
    if s != [] {
      MapFilter(s[1..], p, f, q);
      var m := Map(s, f);
      assert m[0] == f(s[0]) && m[1..] == Map(s[1..], f);
      if p(s[0]) {
        MapCons(s[0], Filter(s[1..], p), f);
      }
    }
  }

  lemma MapCons<A, B>(x: A, t: seq<A>, f: A -> B)
    ensures Map([x] + t, f) == [f(x)] + Map(t, f)
  {
    assert Map([x] + t, f)[1..] == Map(t, f);
  }

  lemma {:induction false} ReverseReverse<T>(s: seq<T>)
    ensures Reverse(Reverse(s)) == s
  {
    var r := Reverse(Reverse(s));
    assert |r| == |s|;
    forall i | 0 <= i < |s|
      ensures r[i] == s[i]
    {
      assert r[i] == Reverse(s)[|s| - 1 - i];
    }
  }

  /** Reversing a filtered list keeps exactly the elements the filter keeps. */
  lemma ReverseFilterMembers<T>(s: seq<T>, p: T -> bool)
    ensures forall i :: 0 <= i < |Reverse(Filter(s, p))| ==> p(Reverse(Filter(s, p))[i])
    ensures forall i :: 0 <= i < |s| && p(s[i]) ==> s[i] in Reverse(Filter(s, p))
  {
    var kept := Filter(s, p);
    var r := Reverse(kept);
    forall i | 0 <= i < |r|
      ensures p(r[i])
    {
      assert r[i] == kept[|kept| - 1 - i];
    }
    forall i | 0 <= i < |s| && p(s[i])
      ensures s[i] in r
    {
      var j :| 0 <= j < |kept| && kept[j] == s[i];
      assert r[|kept| - 1 - j] == s[i];
    }
  }

  /** Filtering by a weaker predicate keeps every element the stronger one keeps. */
  lemma ReverseFilterWeaker<T>(s: seq<T>, p: T -> bool, q: T -> bool)
    requires forall i :: 0 <= i < |s| && p(s[i]) ==> q(s[i])
    ensures forall i :: 0 <= i < |Reverse(Filter(s, p))| ==> Reverse(Filter(s, p))[i] in Reverse(Filter(s, q))
  {
    var kept := Filter(s, p);
    var r := Reverse(kept);
    forall i | 0 <= i < |r|
      ensures r[i] in Reverse(Filter(s, q))
    {
      var j := KeptIndex(s, p, |kept| - 1 - i);
      KeptByReverseFilter(s, q, j);
    }
  }

  /** Where an element Filter keeps sits in the input. */
  lemma KeptIndex<T>(s: seq<T>, p: T -> bool, k: int) returns (j: int)
    requires 0 <= k < |Filter(s, p)|
    ensures 0 <= j < |s| && s[j] == Filter(s, p)[k] && p(s[j])
  {
    var x := Filter(s, p)[k];
    assert x in s;
    j :| 0 <= j < |s| && s[j] == x;
  }

  lemma KeptByReverseFilter<T>(s: seq<T>, q: T -> bool, j: int)
    requires 0 <= j < |s| && q(s[j])
    ensures s[j] in Reverse(Filter(s, q))
  {
    ReverseFilterMembers(s, q);
  }
}
