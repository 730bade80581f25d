/** Small fixed instances of the engine, worked out from its contract. */
module Scenarios {
  import opened Sequences
  import opened Matching
  import opened Engine
  import opened MatchingProofs

  /** Two proposers 1, 2 that both rank 11 before 12; proposee 11 lists [2, 1] and
      proposee 12 lists [1, 2]. */
  function TwoByTwo(): (inst: Instance)
    ensures |inst.proposers| == 2
  {
    Instance([1, 2], [11, 12], [[11, 12], [11, 12]], [[2, 1], [1, 2]])
  }

  lemma TwoByTwoValid()
    ensures Valid(TwoByTwo())
  {
    var inst := TwoByTwo();
    assert inst.proposerPrefs[0] == inst.proposees && inst.proposerPrefs[1] == inst.proposees;
    assert multiset(inst.proposeePrefs[0]) == multiset(inst.proposers) by {
      assert inst.proposeePrefs[0] == [2] + [1] && inst.proposers == [1] + [2];
    }
    assert inst.proposeePrefs[1] == inst.proposers;
  }

  /** Because a proposee keeps the proposer it lists at the greater index (line 174),
      11 keeps 1 over 2: the only stable pairing is 1-11, 2-12. The pairing 1-12, 2-11
      is blocked by 1 and 11. */
  lemma TwoByTwoOnlyStable(pairs: seq<(int, int)>)
    requires Stable(TwoByTwo(), pairs)
    ensures pairs == [(1, 11), (2, 12)]
  {
    var inst := TwoByTwo();
    assert |pairs| == 2 && pairs[0].0 == 1 && pairs[1].0 == 2;
    assert pairs[0].1 in inst.proposees && pairs[1].1 in inst.proposees && pairs[0].1 != pairs[1].1;
    if pairs[0].1 == 12 {
      assert pairs[1].1 == 11 == inst.proposees[0];
      assert IndexOf(inst.proposerPrefs[0], inst.proposees[0]) == 0;
      assert IndexOf(inst.proposerPrefs[0], pairs[0].1) == 1;
      assert IndexOf(inst.proposeePrefs[0], inst.proposers[0]) == 1;
      assert IndexOf(inst.proposeePrefs[0], inst.proposers[1]) == 0;
      assert Blocks(inst, pairs, 0, 0, 1);
      assert false;
    }
  }

  /** Running the engine on the two-by-two instance pairs 1 with 11 and 2 with 12. */
  method RunTwoByTwo() returns (pairs: seq<(int, int)>)
    ensures pairs == [(1, 11), (2, 12)]
  {
    TwoByTwoValid();
    ghost var advances, rounds;
    pairs, advances, rounds := MarryWithPreferences([1, 2], [11, 12], [[11, 12], [11, 12]], [[2, 1], [1, 2]]);
    TwoByTwoOnlyStable(pairs);
  }

  /** Proposers 1, 2 with opposite rankings [11, 12] and [12, 11]; proposees 11, 12 with
      rankings [1, 2] and [2, 1]. */
  function Crossed(): (inst: Instance)
    ensures |inst.proposers| == 2
  {
    Instance([1, 2], [11, 12], [[11, 12], [12, 11]], [[1, 2], [2, 1]])
  }

  lemma CrossedValid()
    ensures Valid(Crossed())
  {
    var inst := Crossed();
    assert multiset(inst.proposerPrefs[1]) == multiset(inst.proposees) by {
      assert inst.proposerPrefs[1] == [12] + [11] && inst.proposees == [11] + [12];
    }
    assert multiset(inst.proposeePrefs[1]) == multiset(inst.proposers) by {
      assert inst.proposeePrefs[1] == [2] + [1] && inst.proposers == [1] + [2];
    }
  }

  lemma CrossedWellFormed()
    ensures WellFormed(Crossed())
  {
    CrossedValid();
    ValidIsWellFormed(Crossed());
  }

  /** Either pairing of the crossed instance is a perfect matching. */
  lemma CrossedPerfect(pairs: seq<(int, int)>)
    requires pairs == [(1, 11), (2, 12)] || pairs == [(1, 12), (2, 11)]
    ensures PerfectMatching(Crossed(), pairs)
  {
    var inst := Crossed();
    forall q | q in inst.proposees
      ensures exists h :: 0 <= h < |pairs| && pairs[h].1 == q
    {
      if pairs[0].1 != q {
        assert pairs[1].1 == q;
      }
    }
  }

  /** The rank facts of the crossed instance that the stability proofs use. */
  lemma CrossedRanks()
    ensures IndexOf([11, 12], 11) == 0 && IndexOf([11, 12], 12) == 1
    ensures IndexOf([12, 11], 12) == 0 && IndexOf([12, 11], 11) == 1
    ensures IndexOf([1, 2], 1) == 0 && IndexOf([1, 2], 2) == 1
    ensures IndexOf([2, 1], 2) == 0 && IndexOf([2, 1], 1) == 1
  {
    assert [11, 12][1..] == [12] && [12, 11][1..] == [11];
    assert [1, 2][1..] == [2] && [2, 1][1..] == [1];
  }

  /** Under the code's order the pairing of every proposer with its first choice is
      stable: no proposer prefers anyone to its partner. */
  lemma CrossedFirstChoicesStable()
    ensures Stable(Crossed(), [(1, 11), (2, 12)])
  {
    CrossedWellFormed();
    CrossedPerfect([(1, 11), (2, 12)]);
    CrossedFirstChoicesUnblocked();
  }

  lemma CrossedFirstChoicesUnblocked()
    ensures var inst, pairs := Crossed(), [(1, 11), (2, 12)];
      forall i, j, h :: (0 <= i < |pairs| && 0 <= j < |inst.proposees| && 0 <= h < |pairs| && pairs[h].1 == inst.proposees[j])
        ==> !Blocks(inst, pairs, i, j, h)
  {
    var inst, pairs := Crossed(), [(1, 11), (2, 12)];
    CrossedRanks();
    forall i, j, h | 0 <= i < |pairs| && 0 <= j < |inst.proposees| && 0 <= h < |pairs| && pairs[h].1 == inst.proposees[j]
      ensures !Blocks(inst, pairs, i, j, h)
    {
      assert IndexOf(inst.proposerPrefs[i], pairs[i].1) == 0;
    }
  }

  /** Under the code's order the pairing 1-12, 2-11 is stable too: each proposee keeps
      the proposer it lists at index 1 over the one at index 0. So stability alone does
      not say which pairing `marry` returns. */
  lemma CrossedSecondChoicesStable()
    ensures Stable(Crossed(), [(1, 12), (2, 11)])
  {
    CrossedWellFormed();
    CrossedPerfect([(1, 12), (2, 11)]);
    CrossedSecondChoicesUnblocked();
  }

  lemma CrossedSecondChoicesUnblocked()
    ensures var inst, pairs := Crossed(), [(1, 12), (2, 11)];
      forall i, j, h :: (0 <= i < |pairs| && 0 <= j < |inst.proposees| && 0 <= h < |pairs| && pairs[h].1 == inst.proposees[j])
        ==> !Blocks(inst, pairs, i, j, h)
  {
    var inst, pairs := Crossed(), [(1, 12), (2, 11)];
    CrossedRanks();
    forall i, j, h | 0 <= i < |pairs| && 0 <= j < |inst.proposees| && 0 <= h < |pairs| && pairs[h].1 == inst.proposees[j]
      ensures !Blocks(inst, pairs, i, j, h)
    {
      assert h == 1 - j;
      assert IndexOf(inst.proposeePrefs[j], inst.proposers[h]) == 1;
    }
  }

  /** The single round on the crossed instance: both proposers are accepted by their
      first choices, and nobody is pending. */
  lemma CrossedOutcome()
    ensures CursorsInLists(Outcome(Crossed()).proposers)
    ensures Marriages(Outcome(Crossed()).proposers) == [(1, 11), (2, 12)]
  {
    var inst := Crossed();
    var P0 := InitialContainers(inst.proposers, inst.proposerPrefs);
    var Q0 := InitialContainers(inst.proposees, inst.proposeePrefs);
    assert P0 == [Container(false, 1, 0, [11, 12]), Container(false, 2, 0, [12, 11])];
    assert Q0 == [Container(false, 11, 0, [1, 2]), Container(false, 12, 0, [2, 1])];
    var s0 := RoundState(P0, Q0, []);
    assert ItemIndex(Q0, 11) == 0;
    assert RankFor([1, 2], 1) == 0;
    var s1 := ProposeStep(s0, 0);
    var P1 := [Container(true, 1, 0, [11, 12]), Container(false, 2, 0, [12, 11])];
    var Q1 := [Container(true, 11, 0, [1, 2]), Container(false, 12, 0, [2, 1])];
    assert s1 == RoundState(P1, Q1, []);
    assert ItemIndex(Q1, 12) == 1;
    assert RankFor([2, 1], 2) == 0;
    var s2 := ProposeStep(s1, 1);
    var P2 := [Container(true, 1, 0, [11, 12]), Container(true, 2, 0, [12, 11])];
    var Q2 := [Container(true, 11, 0, [1, 2]), Container(true, 12, 0, [2, 1])];
    assert s2 == RoundState(P2, Q2, []);
    assert ProposeFrom(s0, 0) == ProposeFrom(s1, 1) == ProposeFrom(s2, 2) == s2;
    assert RunRound(P0, Q0) == s2;
    assert Outcome(inst) == s2;
  }

  /** Running the engine on the crossed instance pairs each proposer with its first
      choice: 1 with 11 and 2 with 12. */
  method RunCrossed() returns (pairs: seq<(int, int)>)
    ensures pairs == [(1, 11), (2, 12)]
  {
    CrossedValid();
    CrossedOutcome();
    ghost var advances, rounds;
    pairs, advances, rounds := MarryWithPreferences([1, 2], [11, 12], [[11, 12], [12, 11]], [[1, 2], [2, 1]]);
  }

  /** With one entity on each side the sole proposer is paired with the sole proposee. */
  lemma SingleStable(p: int, q: int, pairs: seq<(int, int)>)
    requires Stable(Instance([p], [q], [[q]], [[p]]), pairs)
    ensures pairs == [(p, q)]
  {
    assert pairs[0].1 in [q];
  }

  method RunSingle(p: int, q: int) returns (pairs: seq<(int, int)>)
    ensures pairs == [(p, q)]
  {
    ghost var advances, rounds;
    pairs, advances, rounds := MarryWithPreferences([p], [q], [[q]], [[p]]);
    SingleStable(p, q, pairs);
  }

  /** Empty populations give the empty pairing after one round. */
  method RunEmpty() returns (pairs: seq<(int, int)>)
    ensures pairs == []
  {
    ghost var advances, rounds;
    pairs, advances, rounds := MarryWithPreferences([], [], [], []);
  }
}
