/** Facts about sequences used by the matching engine: first-occurrence search,
    distinctness, and the pigeonhole principle on indices. */
module Sequences {

  /** No element occurs twice. */
  ghost predicate Distinct<T>(s: seq<T>) {
    forall a, b :: 0 <= a < b < |s| ==> s[a] != s[b]
  }

  /** Index of the first occurrence of `x` in `s`, or `|s|` when `x` does not occur. */
  function IndexOf<T(==)>(s: seq<T>, x: T): (k: nat)
    ensures k <= |s|
    ensures k < |s| ==> s[k] == x
    ensures forall t :: 0 <= t < k ==> s[t] != x
    ensures k == |s| <==> x !in s
  {
    if |s| == 0 then 0
    else if s[0] == x then 0
    else 1 + IndexOf(s[1..], x)
  }

  /** In a sequence without repetitions, the search finds every element at its own index. */
  lemma IndexOfDistinct<T>(s: seq<T>, k: nat)
    requires Distinct(s) && k < |s|
    ensures IndexOf(s, s[k]) == k
  {
  }

  /** The first element of a sequence without repetitions is not in its rest, and the
      rest has no repetitions. */
  lemma DistinctTail<T>(s: seq<T>)
    requires Distinct(s) && |s| > 0
    ensures s[0] !in s[1..] && Distinct(s[1..])
  {
    forall t | 0 <= t < |s| - 1
      ensures s[1..][t] != s[0]
    {
      assert s[1..][t] == s[t + 1];
    }
  }

  lemma {:induction false} DistinctSetSize<T>(s: seq<T>)
    requires Distinct(s)
    ensures |set x | x in s| == |s|
  {
    if |s| > 0 {
      DistinctSetSize(s[1..]);
      assert (set x | x in s) == {s[0]} + (set x | x in s[1..]);
      assert s[0] !in (set x | x in s[1..]);
    }
  }

  /** The indices below `n`. */
  function Range(n: nat): (r: set<int>)
    ensures forall v :: v in r <==> 0 <= v < n
    ensures |r| == n
  {
    if n == 0 then {} else Range(n - 1) + {n - 1}
  }

  lemma {:induction false} SubsetSize<T>(a: set<T>, b: set<T>)
    requires a <= b
    ensures |a| <= |b|
  {
    if a != {} {
      var x :| x in a;
      SubsetSize(a - {x}, b - {x});
    }
  }

  /** Pigeonhole: `n` distinct indices below `n` cover every index below `n`. */
  lemma Covering(s: seq<int>, n: nat)
    requires |s| == n && Distinct(s)
    requires forall k :: 0 <= k < n ==> 0 <= s[k] < n
    ensures forall v :: 0 <= v < n ==> v in s
  {
    forall v | 0 <= v < n
      ensures v in s
    {
      if v !in s {
        var elems := set x | x in s;
        var others := Range(n) - {v};
        assert elems <= others;
        DistinctSetSize(s);
        SubsetSize(elems, others);
      }
    }
  }

  /** Pigeonhole: distinct indices below `n` that avoid one index below `n` number fewer than `n`. */
  lemma FewerAvoiding(s: seq<int>, n: nat, v: int)
    requires Distinct(s) && 0 <= v < n
    requires forall k :: 0 <= k < |s| ==> 0 <= s[k] < n && s[k] != v
    ensures |s| < n
  {
    var elems := set x | x in s;
    assert elems <= Range(n) - {v};
    DistinctSetSize(s);
    SubsetSize(elems, Range(n) - {v});
  }

  lemma {:induction false} DistinctCountsOnce<T>(t: seq<T>, x: T)
    requires Distinct(t)
    ensures multiset(t)[x] <= 1
  {
    if |t| > 0 {
      assert t == [t[0]] + t[1..];
      DistinctCountsOnce(t[1..], x);
      assert t[0] !in t[1..];
    }
  }

  /** A permutation of a sequence without repetitions has none itself, has the same
      length and the same elements. */
  lemma PermutationOfDistinct<T>(s: seq<T>, t: seq<T>)
    requires multiset(s) == multiset(t) && Distinct(t)
    ensures Distinct(s) && |s| == |t|
    ensures forall x :: x in s <==> x in t
  {
    assert |s| == |multiset(s)|;
    forall a, b | 0 <= a < b < |s|
      ensures s[a] != s[b]
    {
      if s[a] == s[b] {
        assert s == s[..b] + s[b..];
        assert s[a] in s[..b];
        assert s[b] in s[b..];
        assert multiset(s)[s[a]] == multiset(s[..b])[s[a]] + multiset(s[b..])[s[a]];
        DistinctCountsOnce(t, s[a]);
      }
    }
    forall x
      ensures x in s <==> x in t
    {
      assert x in s <==> x in multiset(s);
      assert x in t <==> x in multiset(t);
    }
  }
}
