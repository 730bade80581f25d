/** The preference generator (`Person::generate_preferences`): a ranking of the
    opposite population built by repeatedly removing a randomly chosen remaining
    candidate and appending it. The random source is an oracle: `choices[t]` is
    the index drawn at step `t`, below the number of candidates still remaining. */
module Preferences {
  import opened Sequences

  /** `choices` is a possible sequence of draws for a list of `len` candidates:
      one draw per step, draw `t` below `len - t`. */
  ghost predicate ValidChoices(choices: seq<nat>, len: nat) {
    |choices| == len && forall t :: 0 <= t < len ==> choices[t] < len - t
  }

  /** `list` with its element at index `n` removed (`Vec::remove`). */
  function Without<T>(list: seq<T>, n: nat): (rest: seq<T>)
    requires n < |list|
    ensures |rest| == |list| - 1
  {
    list[..n] + list[n + 1..]
  }

  /** Removing the element at `n` takes exactly that element out of the multiset. */
  lemma WithoutMultiset<T>(list: seq<T>, n: nat)
    requires n < |list|
    ensures multiset(Without(list, n)) + multiset{list[n]} == multiset(list)
  {
    assert list == list[..n] + [list[n]] + list[n + 1..];
  }

  /** The ranking that the draws `choices` produce from `list`. */
  function RemovalOrder<T>(list: seq<T>, choices: seq<nat>): (r: seq<T>)
    requires ValidChoices(choices, |list|)
    ensures |r| == |list|
    decreases |list|
  {
    if |list| == 0 then []
    else [list[choices[0]]] + RemovalOrder(Without(list, choices[0]), choices[1..])
  }

  /** Whatever the draws, the ranking holds every candidate exactly as often as the list does. */
  lemma {:induction false} RemovalOrderPermutes<T>(list: seq<T>, choices: seq<nat>)
    requires ValidChoices(choices, |list|)
    ensures multiset(RemovalOrder(list, choices)) == multiset(list)
    decreases |list|
  {
    if |list| > 0 {
      var n := choices[0];
      RemovalOrderPermutes(Without(list, n), choices[1..]);
      WithoutMultiset(list, n);
    }
  }

  /** Lines 52-64: clone the list, then `l` times remove the drawn element and push it. */
  method GeneratePreferences<T>(list: seq<T>, choices: seq<nat>) returns (prefList: seq<T>)
    requires ValidChoices(choices, |list|)
    ensures prefList == RemovalOrder(list, choices)
    ensures |prefList| == |list| && multiset(prefList) == multiset(list)
  {
    var list2 := list;
    prefList := [];
    var l := |list|;
    for t := 0 to l
      invariant |list2| == l - t
      invariant ValidChoices(choices[t..], |list2|)
      invariant prefList + RemovalOrder(list2, choices[t..]) == RemovalOrder(list, choices)
    {
      var n := choices[t];
      assert choices[t..][1..] == choices[t + 1..];
      prefList := prefList + [list2[n]];
      list2 := list2[..n] + list2[n + 1..];
    }
    RemovalOrderPermutes(list, choices);
  }

  /** Drawing the index of `r`'s first element leaves a list that `r`'s rest permutes. */
  lemma FirstDraw<T>(list: seq<T>, r: seq<T>)
    requires multiset(r) == multiset(list) && |list| > 0
    ensures |r| == |list| && IndexOf(list, r[0]) < |list| && list[IndexOf(list, r[0])] == r[0]
    ensures multiset(r[1..]) == multiset(Without(list, IndexOf(list, r[0])))
  {
    assert |r| == |multiset(r)|;
    assert r[0] in multiset(list);
    var n := IndexOf(list, r[0]);
    assert r == [r[0]] + r[1..];
    assert multiset(r) == multiset(r[1..]) + multiset{r[0]};
    assert multiset(r[1..]) == multiset(r) - multiset{r[0]};
    WithoutMultiset(list, n);
    assert multiset(Without(list, n)) == multiset(list) - multiset{list[n]};
  }

  /** Draws that make the generator output `r`. */
  function ChoicesFor<T(==)>(list: seq<T>, r: seq<T>): (choices: seq<nat>)
    requires multiset(r) == multiset(list)
    ensures ValidChoices(choices, |list|)
    ensures RemovalOrder(list, choices) == r
    decreases |list|
  {
    if |list| == 0 then []
    else
      FirstDraw(list, r);
      var n := IndexOf(list, r[0]);
      var rest := ChoicesFor(Without(list, n), r[1..]);
      var c := [n] + rest;
      assert c[0] == n && c[1..] == rest;
      assert r == [r[0]] + r[1..];
      c
  }

  /** Every ordering of the candidates is reachable: some draws produce it. */
  lemma EveryOrderReachable<T>(list: seq<T>, r: seq<T>)
    requires multiset(r) == multiset(list)
    ensures exists choices :: ValidChoices(choices, |list|) && RemovalOrder(list, choices) == r
  {
    var choices := ChoicesFor(list, r);
  }

  lemma WithoutKeepsDistinct<T>(list: seq<T>, n: nat)
    requires Distinct(list) && n < |list|
    ensures Distinct(Without(list, n))
  {
    var rest := Without(list, n);
    forall a, b | 0 <= a < b < |rest|
      ensures rest[a] != rest[b]
    {
      var a' := if a < n then a else a + 1;
      var b' := if b < n then b else b + 1;
      assert rest[a] == list[a'] && rest[b] == list[b'];
    }
  }

  /** For candidates without repetitions, different draws give different orderings; with
      `EveryOrderReachable` this makes draws and orderings correspond one to one, so
      uniform draws give a uniformly random ordering. */
  lemma {:induction false} DifferentDrawsDifferentOrders<T>(list: seq<T>, c1: seq<nat>, c2: seq<nat>)
    requires Distinct(list)
    requires ValidChoices(c1, |list|) && ValidChoices(c2, |list|)
    requires RemovalOrder(list, c1) == RemovalOrder(list, c2)
    ensures c1 == c2
    decreases |list|
  {
    if |list| > 0 {
      RemovalOrderSplit(list, c1);
      RemovalOrderSplit(list, c2);
      assert list[c1[0]] == list[c2[0]];
      var rest := Without(list, c1[0]);
      WithoutKeepsDistinct(list, c1[0]);
      DifferentDrawsDifferentOrders(rest, c1[1..], c2[1..]);
      assert c1 == [c1[0]] + c1[1..] && c2 == [c2[0]] + c2[1..];
    }
  }

  /** The first draw picks the head of the ranking, and the rest is ranked from what remains. */
  lemma RemovalOrderSplit<T>(list: seq<T>, choices: seq<nat>)
    requires ValidChoices(choices, |list|) && |list| > 0
    ensures ValidChoices(choices[1..], |list| - 1)
    ensures RemovalOrder(list, choices)[0] == list[choices[0]]
    ensures RemovalOrder(list, choices)[1..] == RemovalOrder(Without(list, choices[0]), choices[1..])
  {
  }
}
