/** Lemmas about the engine's step functions: each proposal and each cursor advance
    keeps `Core`; the cursors stay inside the lists; the final state is a stable
    perfect matching. */
module MatchingProofs {
  import opened Sequences
  import opened Matching

  /** The preconditions of `marry` give the facts about rankings the proofs use. */
  lemma ValidIsWellFormed(inst: Instance)
    requires Valid(inst)
    ensures WellFormed(inst)
  {
    var n := |inst.proposers|;
    forall i | 0 <= i < n
      ensures |inst.proposerPrefs[i]| == n && Distinct(inst.proposerPrefs[i])
      ensures forall x :: x in inst.proposerPrefs[i] <==> x in inst.proposees
    {
      PermutationOfDistinct(inst.proposerPrefs[i], inst.proposees);
    }
    forall j | 0 <= j < n
      ensures |inst.proposeePrefs[j]| == n && Distinct(inst.proposeePrefs[j])
      ensures forall x :: x in inst.proposeePrefs[j] <==> x in inst.proposers
    {
      PermutationOfDistinct(inst.proposeePrefs[j], inst.proposers);
    }
  }

  /** Searching the containers by item is searching the population they carry. */
  lemma ItemIndexIsIndexOf(cs: seq<Container>, items: seq<int>, x: int)
    requires |cs| == |items| && forall t :: 0 <= t < |cs| ==> cs[t].item == items[t]
    ensures ItemIndex(cs, x) == IndexOf(items, x)
  {
  }

  /** The first container carrying `x` is the one `ItemIndex` finds. */
  lemma ItemIndexFirst(cs: seq<Container>, x: int, k: nat)
    requires k <= |cs| && (k < |cs| ==> cs[k].item == x)
    requires forall t :: 0 <= t < k ==> cs[t].item != x
    ensures ItemIndex(cs, x) == k
  {
  }

  /** Distinct pending proposers are no more numerous than the proposers. */
  lemma PendingBound(inst: Instance, U: seq<int>)
    requires WellFormed(inst) && PendingListed(inst, U)
    ensures |U| <= |inst.proposers|
  {
    var pending, all := set x | x in U, set x | x in inst.proposers;
    DistinctSetSize(U);
    DistinctSetSize(inst.proposers);
    forall y | y in pending
      ensures y in all
    {
      assert y in U;
    }
    SubsetSize(pending, all);
  }

  /** The containers `marry` builds satisfy the invariant with nobody pending, and no
      cursor has moved. */
  lemma InitialCore(inst: Instance, P: seq<Container>, Q: seq<Container>)
    requires WellFormed(inst)
    requires |P| == |inst.proposers| && |Q| == |inst.proposees|
    requires forall i :: 0 <= i < |P| ==> P[i] == Container(false, inst.proposers[i], 0, inst.proposerPrefs[i])
    requires forall j :: 0 <= j < |Q| ==> Q[j] == Container(false, inst.proposees[j], 0, inst.proposeePrefs[j])
    ensures Core(inst, P, Q, []) && SumPositions(P) == 0
  {
    assert Conforms(inst, P, Q);
    assert InRange(P, Q);
    assert HoldersEngaged(inst, P, Q, []) && EngagementsHeld(inst, P, Q, []);
    assert RejectionsBelowCursors(inst, P, Q) && PendingRejected(inst, P, Q, []);
    assert PendingListed(inst, []);
    SumPositionsBound(P, 1);
  }

  /** A round starts from the invariant with nobody pending and nobody visited. */
  lemma RoundStart(inst: Instance, P: seq<Container>, Q: seq<Container>)
    requires Core(inst, P, Q, [])
    ensures ProposalsUpTo(inst, RoundState(P, Q, []), 0)
  {
  }

  /** Under the invariant every cursor is below the population size `n`, so the cursors
      have advanced at most `n * (n - 1)` times in total. */
  lemma CursorSumBound(inst: Instance, P: seq<Container>, Q: seq<Container>)
    requires Core(inst, P, Q, [])
    ensures SumPositions(P) <= |P| * (|P| - 1)
  {
    assert InRange(P, Q);
    SumPositionsBound(P, |P|);
  }

  /** A proposee that stays held and only raises its stored rank keeps every rejection. */
  lemma MonotoneKeepsRejections(inst: Instance, Q: seq<Container>, Q': seq<Container>)
    requires ProposeesMonotone(Q, Q')
    ensures forall i, k :: RejectedAt(inst, Q, i, k) ==> RejectedAt(inst, Q', i, k)
  {
  }

  /** Cursors that did not move keep their rejections once the proposees are monotone. */
  lemma UnmovedKeepRejections(inst: Instance, P: seq<Container>, Q: seq<Container>, U: seq<int>,
                              P': seq<Container>, Q': seq<Container>)
    requires RejectionsBelowCursors(inst, P, Q) && PendingRejected(inst, P, Q, U)
    requires ProposeesMonotone(Q, Q') && |P'| == |P|
    requires forall i :: 0 <= i < |P| ==> P'[i].position == P[i].position
    ensures RejectionsBelowCursors(inst, P', Q') && PendingRejected(inst, P', Q', U)
  {
    MonotoneKeepsRejections(inst, Q, Q');
  }

  lemma {:induction false} SumPositionsSameCursors(a: seq<Container>, b: seq<Container>)
    requires |a| == |b| && forall i :: 0 <= i < |a| ==> a[i].position == b[i].position
    ensures SumPositions(a) == SumPositions(b)
  {
    if |a| > 0 {
      SumPositionsSameCursors(a[1..], b[1..]);
    }
  }

  /** Turn `k` keeps `Visited` when it changes at most proposer `k`'s flag, keeps the
      pending proposers pending, and pends only `k` or proposers it leaves engaged. */
  lemma VisitedAfterTurn(inst: Instance, P: seq<Container>, U: seq<int>, k: nat,
                         P': seq<Container>, U': seq<int>)
    requires Visited(inst, P, U, k) && k < |P| && |P'| == |P|
    requires forall i :: 0 <= i < |P| && i != k ==> P'[i].currentlyMatched == P[i].currentlyMatched
    requires P'[k].currentlyMatched || inst.proposers[k] in U'
    requires forall i :: 0 <= i < |P| && inst.proposers[i] in U ==> inst.proposers[i] in U'
    requires forall i :: 0 <= i < |P| && inst.proposers[i] in U' && inst.proposers[i] !in U ==>
               i == k || P'[i].currentlyMatched
    ensures Visited(inst, P', U', k + 1)
  {
  }

  /** The proposee that proposer `k`'s cursor points at is found by the container
      search, and `k` stands in that proposee's list at the rank `RankFor` finds. */
  lemma TargetFacts(inst: Instance, P: seq<Container>, Q: seq<Container>, U: seq<int>, k: nat)
    requires WellFormed(inst) && Conforms(inst, P, Q) && InRange(P, Q) && k < |P|
    ensures TurnDefined(RoundState(P, Q, U), k)
    ensures var j := Target(inst, P, k);
            j < |Q| && j < |inst.proposeePrefs|
            && inst.proposerPrefs[k][P[k].position] == inst.proposees[j]
            && ItemIndex(Q, P[k].preferenceList[P[k].position]) == j
            && P[k].item == inst.proposers[k]
            && Q[j].preferenceList == inst.proposeePrefs[j]
            && RankFor(Q[j].preferenceList, P[k].item) == IndexOf(inst.proposeePrefs[j], inst.proposers[k])
            && IndexOf(inst.proposeePrefs[j], inst.proposers[k]) < |Q|
            && inst.proposeePrefs[j][IndexOf(inst.proposeePrefs[j], inst.proposers[k])] == inst.proposers[k]
  {
    TurnInBounds(inst, P, Q, U, k);
    var v := inst.proposerPrefs[k][P[k].position];
    assert v in inst.proposees by {
      assert v in inst.proposerPrefs[k];
    }
    ItemIndexIsIndexOf(Q, inst.proposees, v);
    var j := Target(inst, P, k);
    assert j < |Q|;
    var x := inst.proposers[k];
    assert x in inst.proposeePrefs[j] by {
      assert x in inst.proposers;
    }
  }

  /** Under the invariant the indexing of any proposer's turn is in bounds. */
  lemma TurnInBounds(inst: Instance, P: seq<Container>, Q: seq<Container>, U: seq<int>, k: nat)
    requires WellFormed(inst) && Conforms(inst, P, Q) && InRange(P, Q) && k < |P|
    ensures k < |inst.proposers| && P[k].position < |inst.proposerPrefs[k]|
    ensures TurnDefined(RoundState(P, Q, U), k)
  {
    forall j | 0 <= j < |Q| && Q[j].currentlyMatched
      ensures Q[j].position < |Q[j].preferenceList|
    {
      assert Q[j].preferenceList == inst.proposeePrefs[j];
    }
  }

  // ----- a proposer that is engaged -----

  /** Turn of an engaged proposer: nothing happens. */
  lemma ProposeMatched(inst: Instance, s: RoundState, k: nat)
    requires ProposalsUpTo(inst, s, k) && k < |s.proposers| && s.proposers[k].currentlyMatched
    ensures TurnDefined(s, k)
    ensures ProposeStep(s, k) == s
    ensures ProposalsUpTo(inst, ProposeStep(s, k), k + 1)
  {
    TurnInBounds(inst, s.proposers, s.proposees, s.unmatched, k);
    assert ProposeStep(s, k) == s;
    VisitedAfterTurn(inst, s.proposers, s.unmatched, k, s.proposers, s.unmatched);
  }

  // ----- a free proposer whose target is free -----

  lemma StepAccepts(s: RoundState, k: nat, j: nat, rank: nat)
    requires TurnDefined(s, k) && !s.proposers[k].currentlyMatched
    requires ItemIndex(s.proposees, s.proposers[k].preferenceList[s.proposers[k].position]) == j
    requires j < |s.proposees| && !s.proposees[j].currentlyMatched
    requires RankFor(s.proposees[j].preferenceList, s.proposers[k].item) == rank
    ensures ProposeStep(s, k) == RoundState(
              s.proposers[k := s.proposers[k].(currentlyMatched := true)],
              s.proposees[j := s.proposees[j].(currentlyMatched := true, position := rank)],
              s.unmatched)
  {
  }

  lemma FreeHolders(inst: Instance, P: seq<Container>, Q: seq<Container>, U: seq<int>, k: nat,
                    j: nat, rank: nat, P': seq<Container>, Q': seq<Container>)
    requires WellFormed(inst) && Conforms(inst, P, Q) && InRange(P, Q) && HoldersEngaged(inst, P, Q, U)
    requires k < |P| && !P[k].currentlyMatched && inst.proposers[k] !in U
    requires j == Target(inst, P, k) && j < |Q| && !Q[j].currentlyMatched
    requires rank == IndexOf(inst.proposeePrefs[j], inst.proposers[k])
    requires P' == P[k := P[k].(currentlyMatched := true)]
    requires Q' == Q[j := Q[j].(currentlyMatched := true, position := rank)]
    ensures HoldersEngaged(inst, P', Q', U)
  {
    TargetFacts(inst, P, Q, U, k);
    IndexOfDistinct(inst.proposers, k);
    assert Holder(inst, Q', j) == k;
    forall j' | 0 <= j' < |Q'| && Q'[j'].currentlyMatched
      ensures HolderEngaged(inst, P', Q', U, j')
    {
      if j' != j {
        assert HolderEngaged(inst, P, Q, U, j');
        var h' := Holder(inst, Q, j');
        assert Holder(inst, Q', j') == h';
        assert Target(inst, P', h') == Target(inst, P, h');
      } else {
        assert Target(inst, P', k) == j;
      }
    }
  }

  lemma FreeEngagements(inst: Instance, P: seq<Container>, Q: seq<Container>, U: seq<int>, k: nat,
                        j: nat, rank: nat, P': seq<Container>, Q': seq<Container>)
    requires WellFormed(inst) && Conforms(inst, P, Q) && InRange(P, Q) && EngagementsHeld(inst, P, Q, U)
    requires k < |P| && !P[k].currentlyMatched && inst.proposers[k] !in U
    requires j == Target(inst, P, k) && j < |Q| && !Q[j].currentlyMatched
    requires rank == IndexOf(inst.proposeePrefs[j], inst.proposers[k])
    requires P' == P[k := P[k].(currentlyMatched := true)]
    requires Q' == Q[j := Q[j].(currentlyMatched := true, position := rank)]
    ensures EngagementsHeld(inst, P', Q', U)
  {
    TargetFacts(inst, P, Q, U, k);
    IndexOfDistinct(inst.proposers, k);
    assert Holder(inst, Q', j) == k;
    forall i | 0 <= i < |P'| && i < |inst.proposers| && P'[i].currentlyMatched && inst.proposers[i] !in U
      ensures EngagementHeld(inst, P', Q', i)
    {
      if i != k {
        assert EngagementHeld(inst, P, Q, i);
        var t := Target(inst, P, i);
        assert Target(inst, P', i) == t && t != j;
        assert Holder(inst, Q', t) == Holder(inst, Q, t);
      } else {
        assert Target(inst, P', k) == j;
      }
    }
  }

  lemma FreeCore(inst: Instance, P: seq<Container>, Q: seq<Container>, U: seq<int>, k: nat,
                 j: nat, rank: nat, P': seq<Container>, Q': seq<Container>)
    requires Core(inst, P, Q, U) && k < |P| && !P[k].currentlyMatched && inst.proposers[k] !in U
    requires j == Target(inst, P, k) && j < |Q| && !Q[j].currentlyMatched
    requires rank == IndexOf(inst.proposeePrefs[j], inst.proposers[k])
    requires P' == P[k := P[k].(currentlyMatched := true)]
    requires Q' == Q[j := Q[j].(currentlyMatched := true, position := rank)]
    ensures Core(inst, P', Q', U)
  {
    TargetFacts(inst, P, Q, U, k);
    FreeHolders(inst, P, Q, U, k, j, rank, P', Q');
    FreeEngagements(inst, P, Q, U, k, j, rank, P', Q');
    UnmovedKeepRejections(inst, P, Q, U, P', Q');
  }

  /** Turn of a free proposer whose target is free: both become engaged, and the
      target stores the proposer's index in its own list. */
  lemma ProposeToFree(inst: Instance, s: RoundState, k: nat)
    requires ProposalsUpTo(inst, s, k) && k < |s.proposers| && !s.proposers[k].currentlyMatched
    requires Target(inst, s.proposers, k) < |s.proposees|
    requires !s.proposees[Target(inst, s.proposers, k)].currentlyMatched
    ensures TurnDefined(s, k)
    ensures var j := Target(inst, s.proposers, k);
            ProposeStep(s, k) == RoundState(
              s.proposers[k := s.proposers[k].(currentlyMatched := true)],
              s.proposees[j := s.proposees[j].(currentlyMatched := true,
                                               position := IndexOf(inst.proposeePrefs[j], inst.proposers[k]))],
              s.unmatched)
    ensures ProposalsUpTo(inst, ProposeStep(s, k), k + 1)
  {
    var P, Q, U := s.proposers, s.proposees, s.unmatched;
    TargetFacts(inst, P, Q, U, k);
    var j := Target(inst, P, k);
    var rank := IndexOf(inst.proposeePrefs[j], inst.proposers[k]);
    StepAccepts(s, k, j, rank);
    var P' := P[k := P[k].(currentlyMatched := true)];
    var Q' := Q[j := Q[j].(currentlyMatched := true, position := rank)];
    FreeCore(inst, P, Q, U, k, j, rank, P', Q');
    VisitedAfterTurn(inst, P, U, k, P', U);
  }

  // ----- a free proposer whose target holds someone it ranks lower -----

  /** The holder `h` of a held proposee: engaged to it, not pending, not a free proposer. */
  lemma HolderFacts(inst: Instance, P: seq<Container>, Q: seq<Container>, U: seq<int>, k: nat, j: nat)
    requires WellFormed(inst) && Conforms(inst, P, Q) && InRange(P, Q) && HoldersEngaged(inst, P, Q, U)
    requires k < |P| && !P[k].currentlyMatched
    requires j < |Q| && Q[j].currentlyMatched
    ensures var h := Holder(inst, Q, j);
            h < |P| && h != k && P[h].currentlyMatched && inst.proposers[h] !in U
            && Target(inst, P, h) == j
            && Q[j].position < |inst.proposeePrefs[j]|
            && inst.proposeePrefs[j][Q[j].position] == inst.proposers[h]
            && IndexOf(inst.proposeePrefs[j], inst.proposers[h]) == Q[j].position
            && inst.proposers[h] != inst.proposers[k]
  {
    assert HolderEngaged(inst, P, Q, U, j);
    assert j < |inst.proposeePrefs|;
    IndexOfDistinct(inst.proposeePrefs[j], Q[j].position);
    IndexOfDistinct(inst.proposers, k);
    IndexOfDistinct(inst.proposers, Holder(inst, Q, j));
  }

  lemma StepDisplaces(s: RoundState, k: nat, j: nat, rank: nat)
    requires TurnDefined(s, k) && !s.proposers[k].currentlyMatched
    requires ItemIndex(s.proposees, s.proposers[k].preferenceList[s.proposers[k].position]) == j
    requires j < |s.proposees| && s.proposees[j].currentlyMatched
    requires RankFor(s.proposees[j].preferenceList, s.proposers[k].item) == rank
    requires s.proposees[j].position < rank
    ensures ProposeStep(s, k) == RoundState(
              s.proposers[k := s.proposers[k].(currentlyMatched := true)],
              s.proposees[j := s.proposees[j].(position := rank)],
              s.unmatched + [s.proposees[j].preferenceList[s.proposees[j].position]])
  {
  }

  lemma DisplaceHolders(inst: Instance, P: seq<Container>, Q: seq<Container>, U: seq<int>, k: nat,
                        j: nat, rank: nat, h: nat, P': seq<Container>, Q': seq<Container>, U': seq<int>)
    requires WellFormed(inst) && Conforms(inst, P, Q) && InRange(P, Q) && HoldersEngaged(inst, P, Q, U)
    requires k < |P| && !P[k].currentlyMatched && inst.proposers[k] !in U
    requires j == Target(inst, P, k) && j < |Q| && Q[j].currentlyMatched
    requires rank == IndexOf(inst.proposeePrefs[j], inst.proposers[k])
    requires h == Holder(inst, Q, j) && h < |P| && Target(inst, P, h) == j
    requires inst.proposers[h] != inst.proposers[k]
    requires P' == P[k := P[k].(currentlyMatched := true)]
    requires Q' == Q[j := Q[j].(position := rank)]
    requires U' == U + [inst.proposers[h]]
    ensures HoldersEngaged(inst, P', Q', U')
  {
    TargetFacts(inst, P, Q, U, k);
    IndexOfDistinct(inst.proposers, k);
    assert Holder(inst, Q', j) == k;
    forall j' | 0 <= j' < |Q'| && Q'[j'].currentlyMatched
      ensures HolderEngaged(inst, P', Q', U', j')
    {
      if j' != j {
        assert HolderEngaged(inst, P, Q, U, j');
        var h' := Holder(inst, Q, j');
        assert Holder(inst, Q', j') == h';
        assert Target(inst, P', h') == Target(inst, P, h') == j';
        assert h' != h;
        assert inst.proposers[h'] != inst.proposers[h];
      } else {
        assert Target(inst, P', k) == j;
      }
    }
  }

  lemma DisplaceEngagements(inst: Instance, P: seq<Container>, Q: seq<Container>, U: seq<int>, k: nat,
                            j: nat, rank: nat, h: nat, P': seq<Container>, Q': seq<Container>, U': seq<int>)
    requires WellFormed(inst) && Conforms(inst, P, Q) && InRange(P, Q) && EngagementsHeld(inst, P, Q, U)
    requires k < |P| && !P[k].currentlyMatched && inst.proposers[k] !in U
    requires j == Target(inst, P, k) && j < |Q| && Q[j].currentlyMatched
    requires rank == IndexOf(inst.proposeePrefs[j], inst.proposers[k])
    requires h == Holder(inst, Q, j) && h < |P|
    requires inst.proposers[h] != inst.proposers[k]
    requires P' == P[k := P[k].(currentlyMatched := true)]
    requires Q' == Q[j := Q[j].(position := rank)]
    requires U' == U + [inst.proposers[h]]
    ensures EngagementsHeld(inst, P', Q', U')
  {
    TargetFacts(inst, P, Q, U, k);
    IndexOfDistinct(inst.proposers, k);
    assert Holder(inst, Q', j) == k;
    forall i | 0 <= i < |P'| && i < |inst.proposers| && P'[i].currentlyMatched && inst.proposers[i] !in U'
      ensures EngagementHeld(inst, P', Q', i)
    {
      if i != k {
        assert inst.proposers[i] != inst.proposers[h];
        assert EngagementHeld(inst, P, Q, i);
        var t := Target(inst, P, i);
        assert Target(inst, P', i) == t;
        assert t != j;
        assert Holder(inst, Q', t) == Holder(inst, Q, t);
      } else {
        assert Target(inst, P', k) == j;
      }
    }
  }

  lemma DisplacePending(inst: Instance, P: seq<Container>, Q: seq<Container>, U: seq<int>, k: nat,
                        j: nat, rank: nat, h: nat, P': seq<Container>, Q': seq<Container>, U': seq<int>)
    requires WellFormed(inst) && Conforms(inst, P, Q)
    requires PendingRejected(inst, P, Q, U) && PendingListed(inst, U)
    requires k < |P| && j < |Q| && Q[j].currentlyMatched && Q[j].position < rank
    requires h < |P| && Target(inst, P, h) == j && inst.proposers[h] !in U
    requires IndexOf(inst.proposeePrefs[j], inst.proposers[h]) == Q[j].position
    requires P' == P[k := P[k].(currentlyMatched := true)]
    requires Q' == Q[j := Q[j].(position := rank)]
    requires U' == U + [inst.proposers[h]]
    ensures PendingRejected(inst, P', Q', U') && PendingListed(inst, U')
  {
    assert ProposeesMonotone(Q, Q');
    MonotoneKeepsRejections(inst, Q, Q');
    assert RejectedAt(inst, Q', h, P'[h].position);
    forall i | 0 <= i < |P'| && i < |inst.proposers| && inst.proposers[i] in U'
      ensures RejectedAt(inst, Q', i, P'[i].position)
    {
      if inst.proposers[i] !in U {
        IndexOfDistinct(inst.proposers, i);
        IndexOfDistinct(inst.proposers, h);
      }
    }
  }

  lemma DisplaceCore(inst: Instance, P: seq<Container>, Q: seq<Container>, U: seq<int>, k: nat,
                     j: nat, rank: nat, h: nat, P': seq<Container>, Q': seq<Container>, U': seq<int>)
    requires Core(inst, P, Q, U) && k < |P| && !P[k].currentlyMatched && inst.proposers[k] !in U
    requires j == Target(inst, P, k) && j < |Q| && Q[j].currentlyMatched
    requires rank == IndexOf(inst.proposeePrefs[j], inst.proposers[k]) && Q[j].position < rank && rank < |Q|
    requires h == Holder(inst, Q, j) && h < |P| && Target(inst, P, h) == j && inst.proposers[h] !in U
    requires IndexOf(inst.proposeePrefs[j], inst.proposers[h]) == Q[j].position
    requires inst.proposers[h] != inst.proposers[k]
    requires P' == P[k := P[k].(currentlyMatched := true)]
    requires Q' == Q[j := Q[j].(position := rank)]
    requires U' == U + [inst.proposers[h]]
    ensures Core(inst, P', Q', U')
  {
    DisplaceHolders(inst, P, Q, U, k, j, rank, h, P', Q', U');
    DisplaceEngagements(inst, P, Q, U, k, j, rank, h, P', Q', U');
    DisplacePending(inst, P, Q, U, k, j, rank, h, P', Q', U');
    DisplaceFrame(inst, P, Q, k, j, rank, P', Q');
  }

  lemma DisplaceFrame(inst: Instance, P: seq<Container>, Q: seq<Container>, k: nat, j: nat, rank: nat,
                      P': seq<Container>, Q': seq<Container>)
    requires Conforms(inst, P, Q) && InRange(P, Q) && RejectionsBelowCursors(inst, P, Q)
    requires k < |P| && j < |Q| && Q[j].currentlyMatched && Q[j].position < rank && rank < |Q|
    requires P' == P[k := P[k].(currentlyMatched := true)]
    requires Q' == Q[j := Q[j].(position := rank)]
    ensures Conforms(inst, P', Q') && InRange(P', Q') && RejectionsBelowCursors(inst, P', Q')
  {
    assert ProposeesMonotone(Q, Q');
    MonotoneKeepsRejections(inst, Q, Q');
  }

  /** Turn of a free proposer whose target holds someone it ranks lower: the target
      swaps, stores the proposer's rank, and its former holder becomes pending. */
  lemma ProposeAndDisplace(inst: Instance, s: RoundState, k: nat)
    requires ProposalsUpTo(inst, s, k) && k < |s.proposers| && !s.proposers[k].currentlyMatched
    requires Target(inst, s.proposers, k) < |s.proposees|
    requires s.proposees[Target(inst, s.proposers, k)].currentlyMatched
    requires s.proposees[Target(inst, s.proposers, k)].position
             < IndexOf(inst.proposeePrefs[Target(inst, s.proposers, k)], inst.proposers[k])
    ensures TurnDefined(s, k)
    ensures var j := Target(inst, s.proposers, k);
            Holder(inst, s.proposees, j) < |s.proposers|
            && ProposeStep(s, k) == RoundState(
                 s.proposers[k := s.proposers[k].(currentlyMatched := true)],
                 s.proposees[j := s.proposees[j].(position := IndexOf(inst.proposeePrefs[j], inst.proposers[k]))],
                 s.unmatched + [inst.proposers[Holder(inst, s.proposees, j)]])
    ensures ProposalsUpTo(inst, ProposeStep(s, k), k + 1)
  {
    var P, Q, U := s.proposers, s.proposees, s.unmatched;
    TargetFacts(inst, P, Q, U, k);
    var j := Target(inst, P, k);
    var rank := IndexOf(inst.proposeePrefs[j], inst.proposers[k]);
    HolderFacts(inst, P, Q, U, k, j);
    var h := Holder(inst, Q, j);
    StepDisplaces(s, k, j, rank);
    var P' := P[k := P[k].(currentlyMatched := true)];
    var Q' := Q[j := Q[j].(position := rank)];
    var U' := U + [inst.proposers[h]];
    DisplaceCore(inst, P, Q, U, k, j, rank, h, P', Q', U');
    forall i | 0 <= i < |P| && inst.proposers[i] in U' && inst.proposers[i] !in U
      ensures i == k || P'[i].currentlyMatched
    {
      IndexOfDistinct(inst.proposers, i);
      IndexOfDistinct(inst.proposers, h);
    }
    VisitedAfterTurn(inst, P, U, k, P', U');
  }

  // ----- a free proposer whose target holds someone it ranks higher -----

  /** A free proposer never ties with the holder of its target: equal ranks would
      name the same proposer. */
  lemma RanksDiffer(inst: Instance, P: seq<Container>, Q: seq<Container>, U: seq<int>, k: nat, j: nat)
    requires WellFormed(inst) && Conforms(inst, P, Q) && InRange(P, Q) && HoldersEngaged(inst, P, Q, U)
    requires k < |P| && !P[k].currentlyMatched
    requires j == Target(inst, P, k) && j < |Q| && Q[j].currentlyMatched
    ensures IndexOf(inst.proposeePrefs[j], inst.proposers[k]) != Q[j].position
  {
    TargetFacts(inst, P, Q, U, k);
    HolderFacts(inst, P, Q, U, k, j);
  }

  lemma StepRejects(s: RoundState, k: nat, j: nat, rank: nat)
    requires TurnDefined(s, k) && !s.proposers[k].currentlyMatched
    requires ItemIndex(s.proposees, s.proposers[k].preferenceList[s.proposers[k].position]) == j
    requires j < |s.proposees| && s.proposees[j].currentlyMatched
    requires RankFor(s.proposees[j].preferenceList, s.proposers[k].item) == rank
    requires rank <= s.proposees[j].position
    ensures ProposeStep(s, k) == RoundState(s.proposers, s.proposees, s.unmatched + [s.proposers[k].item])
  {
  }

  lemma RejectHolders(inst: Instance, P: seq<Container>, Q: seq<Container>, U: seq<int>, k: nat)
    requires WellFormed(inst) && Conforms(inst, P, Q) && HoldersEngaged(inst, P, Q, U)
    requires k < |P| && !P[k].currentlyMatched
    ensures HoldersEngaged(inst, P, Q, U + [inst.proposers[k]])
  {
    var U' := U + [inst.proposers[k]];
    forall j' | 0 <= j' < |Q| && Q[j'].currentlyMatched
      ensures HolderEngaged(inst, P, Q, U', j')
    {
      assert HolderEngaged(inst, P, Q, U, j');
      IndexOfDistinct(inst.proposers, Holder(inst, Q, j'));
      IndexOfDistinct(inst.proposers, k);
    }
  }

  lemma RejectPending(inst: Instance, P: seq<Container>, Q: seq<Container>, U: seq<int>, k: nat)
    requires WellFormed(inst) && Conforms(inst, P, Q)
    requires PendingRejected(inst, P, Q, U) && PendingListed(inst, U)
    requires k < |P| && inst.proposers[k] !in U
    requires RejectedAt(inst, Q, k, P[k].position)
    ensures PendingRejected(inst, P, Q, U + [inst.proposers[k]]) && PendingListed(inst, U + [inst.proposers[k]])
  {
    forall i | 0 <= i < |P| && i < |inst.proposers| && inst.proposers[i] in U + [inst.proposers[k]]
      ensures RejectedAt(inst, Q, i, P[i].position)
    {
      if inst.proposers[i] !in U {
        IndexOfDistinct(inst.proposers, i);
        IndexOfDistinct(inst.proposers, k);
      }
    }
  }

  /** Turn of a free proposer whose target holds someone it ranks higher (ties cannot
      occur): the proposer becomes pending and nothing else changes. */
  lemma ProposeRejected(inst: Instance, s: RoundState, k: nat)
    requires ProposalsUpTo(inst, s, k) && k < |s.proposers| && !s.proposers[k].currentlyMatched
    requires Target(inst, s.proposers, k) < |s.proposees|
    requires s.proposees[Target(inst, s.proposers, k)].currentlyMatched
    requires IndexOf(inst.proposeePrefs[Target(inst, s.proposers, k)], inst.proposers[k])
             <= s.proposees[Target(inst, s.proposers, k)].position
    ensures TurnDefined(s, k)
    ensures IndexOf(inst.proposeePrefs[Target(inst, s.proposers, k)], inst.proposers[k])
            < s.proposees[Target(inst, s.proposers, k)].position
    ensures ProposeStep(s, k) == RoundState(s.proposers, s.proposees, s.unmatched + [inst.proposers[k]])
    ensures ProposalsUpTo(inst, ProposeStep(s, k), k + 1)
  {
    var P, Q, U := s.proposers, s.proposees, s.unmatched;
    TargetFacts(inst, P, Q, U, k);
    var j := Target(inst, P, k);
    var rank := IndexOf(inst.proposeePrefs[j], inst.proposers[k]);
    RanksDiffer(inst, P, Q, U, k, j);
    StepRejects(s, k, j, rank);
    assert RejectedAt(inst, Q, k, P[k].position);
    RejectHolders(inst, P, Q, U, k);
    RejectPending(inst, P, Q, U, k);
    var U' := U + [inst.proposers[k]];
    assert EngagementsHeld(inst, P, Q, U');
    forall i | 0 <= i < |P| && inst.proposers[i] in U' && inst.proposers[i] !in U
      ensures i == k
    {
      IndexOfDistinct(inst.proposers, i);
      IndexOfDistinct(inst.proposers, k);
    }
    VisitedAfterTurn(inst, P, U, k, P, U');
  }

  // ----- one turn, whatever the case -----

  /** Turn `k` keeps the round invariant. */
  lemma ProposeStepKeeps(inst: Instance, s: RoundState, k: nat)
    requires ProposalsUpTo(inst, s, k) && k < |s.proposers|
    ensures TurnDefined(s, k)
    ensures ProposalsUpTo(inst, ProposeStep(s, k), k + 1)
  {
    var P, Q := s.proposers, s.proposees;
    TargetFacts(inst, P, Q, s.unmatched, k);
    var j := Target(inst, P, k);
    if P[k].currentlyMatched {
      ProposeMatched(inst, s, k);
    } else if !Q[j].currentlyMatched {
      ProposeToFree(inst, s, k);
    } else if Q[j].position < IndexOf(inst.proposeePrefs[j], inst.proposers[k]) {
      ProposeAndDisplace(inst, s, k);
    } else {
      ProposeRejected(inst, s, k);
    }
  }

  /** One unfolding of the pass: a defined turn is taken, then the rest of the pass. */
  lemma ProposeFromStep(s: RoundState, k: nat)
    requires TurnDefined(s, k)
    ensures ProposeFrom(s, k) == ProposeFrom(ProposeStep(s, k), k + 1)
  {
  }

  /** After the last turn the pass changes nothing. */
  lemma ProposeFromEnd(s: RoundState)
    ensures ProposeFrom(s, |s.proposers|) == s
  {
  }

  /** Before the first round the loop has run no rounds. */
  lemma RoundsSoFarStart(P: seq<Container>, Q: seq<Container>)
    ensures RoundsSoFar([RoundState(P, Q, [])], P, Q, false)
  {
  }

  /** One more round, from `P`, `Q` to `P'`, `Q'`, extends the rounds run so far. */
  lemma RoundsSoFarExtend(states: seq<RoundState>, P: seq<Container>, Q: seq<Container>,
                          next: RoundState, complete: bool)
    requires RoundsSoFar(states, P, Q, false)
    requires next == RunRound(P, Q)
    requires complete <==> |next.unmatched| == 0
    ensures RoundsSoFar(states + [next], next.proposers, next.proposees, complete)
  {
    var states' := states + [next];
    TrajectoryAppend(states, next);
    forall r | 1 <= r < |states'| - 1
      ensures |states'[r].unmatched| > 0
    {
      assert states'[r] == states[r];
    }
    assert states'[|states'| - 1] == next;
  }

  /** A trajectory extended by the round run on its last state is a trajectory. */
  lemma TrajectoryAppend(states: seq<RoundState>, next: RoundState)
    requires |states| >= 1 && Trajectory(states)
    requires next == RunRound(states[|states| - 1].proposers, states[|states| - 1].proposees)
    ensures Trajectory(states + [next])
  {
    var states' := states + [next];
    forall r | 0 < r < |states'|
      ensures RoundAt(states', r)
    {
      if r < |states| {
        assert RoundAt(states, r);
      }
    }
  }

  /** When the loop completes from the initial containers of `inst` within `n * (n - 1)`
      rounds after the first, it ends in `Outcome(inst)`. */
  lemma OutcomeReached(inst: Instance, states: seq<RoundState>, P: seq<Container>, Q: seq<Container>)
    requires |inst.proposers| <= |inst.proposerPrefs| && |inst.proposees| <= |inst.proposeePrefs|
    requires RoundsSoFar(states, P, Q, true)
    requires states[0] == RoundState(InitialContainers(inst.proposers, inst.proposerPrefs),
                                     InitialContainers(inst.proposees, inst.proposeePrefs), [])
    requires |states| - 2 <= |inst.proposers| * (|inst.proposers| - 1)
    ensures Outcome(inst) == RoundState(P, Q, [])
  {
    TrajectorySettles(states, |inst.proposers| * (|inst.proposers| - 1));
  }

  /** A run of rounds in which every round but the last leaves someone pending and the
      last leaves nobody: `Settle` from its first state, with at least as many rounds
      allowed, ends in its last state. */
  lemma {:induction false} TrajectorySettles(states: seq<RoundState>, fuel: nat)
    requires |states| >= 2 && Trajectory(states)
    requires forall r :: 1 <= r < |states| - 1 ==> |states[r].unmatched| > 0
    requires |states[|states| - 1].unmatched| == 0
    requires |states| - 2 <= fuel
    ensures Settle(states[0].proposers, states[0].proposees, fuel) == states[|states| - 1]
    decreases |states|
  {
    TrajectoryFront(states);
    if |states| > 2 {
      TrajectorySettles(states[1..], fuel - 1);
    }
  }

  /** A trajectory starts with the round run on its first state and goes on as one. */
  lemma TrajectoryFront(states: seq<RoundState>)
    requires |states| >= 2 && Trajectory(states)
    ensures states[1] == RunRound(states[0].proposers, states[0].proposees)
    ensures Trajectory(states[1..])
  {
    assert RoundAt(states, 1);
    forall r | 0 < r < |states| - 1
      ensures RoundAt(states[1..], r)
    {
      assert RoundAt(states, r + 1);
    }
  }

  /** Turn `k` moves no cursor, and a held proposee stays held with a rank that does
      not go down. */
  lemma ProposeStepMonotone(s: RoundState, k: nat)
    requires TurnDefined(s, k)
    ensures ProposeesMonotone(s.proposees, ProposeStep(s, k).proposees)
    ensures |ProposeStep(s, k).proposers| == |s.proposers|
    ensures forall i :: 0 <= i < |s.proposers| ==> ProposeStep(s, k).proposers[i].position == s.proposers[i].position
    ensures SumPositions(ProposeStep(s, k).proposers) == SumPositions(s.proposers)
  {
    SumPositionsSameCursors(ProposeStep(s, k).proposers, s.proposers);
  }

  /** The rest of a pass from turn `k` moves no cursor, and held proposees stay held with
      stored ranks that do not go down. */
  lemma {:induction false} ProposeFromFrame(s: RoundState, k: nat)
    ensures |ProposeFrom(s, k).proposers| == |s.proposers|
    ensures forall i :: 0 <= i < |s.proposers| ==> ProposeFrom(s, k).proposers[i].position == s.proposers[i].position
    ensures SumPositions(ProposeFrom(s, k).proposers) == SumPositions(s.proposers)
    ensures ProposeesMonotone(s.proposees, ProposeFrom(s, k).proposees)
    decreases |s.proposers| - k
  {
    if k < |s.proposers| && TurnDefined(s, k) {
      var s' := ProposeStep(s, k);
      ProposeStepMonotone(s, k);
      ProposeFromFrame(s', k + 1);
      assert ProposeFrom(s, k) == ProposeFrom(s', k + 1);
    }
  }

  /** What turn `k` does, in terms of the instance: an engaged proposer does nothing;
      a free one proposes to the proposee at its cursor, whose stored rank becomes the
      proposer's index in that proposee's list when it accepts; on a swap the former
      holder is pushed, on a rejection the proposer itself, whose rank is then strictly
      below the stored one. */
  lemma ProposalOutcome(inst: Instance, s: RoundState, k: nat)
    requires ProposalsUpTo(inst, s, k) && k < |s.proposers|
    ensures TurnDefined(s, k)
    ensures Target(inst, s.proposers, k) < |s.proposees| && Target(inst, s.proposers, k) < |inst.proposeePrefs|
    ensures var P, Q, U := s.proposers, s.proposees, s.unmatched;
            var j := Target(inst, P, k);
            var rank := IndexOf(inst.proposeePrefs[j], inst.proposers[k]);
            rank < |Q|
            && inst.proposerPrefs[k][P[k].position] == inst.proposees[j]
            && inst.proposeePrefs[j][rank] == inst.proposers[k]
            && (P[k].currentlyMatched ==> ProposeStep(s, k) == s)
            && (!P[k].currentlyMatched && !Q[j].currentlyMatched ==>
                  ProposeStep(s, k) == RoundState(P[k := P[k].(currentlyMatched := true)],
                                                  Q[j := Q[j].(currentlyMatched := true, position := rank)], U))
            && (!P[k].currentlyMatched && Q[j].currentlyMatched && Q[j].position < rank ==>
                  Holder(inst, Q, j) < |P|
                  && ProposeStep(s, k) == RoundState(P[k := P[k].(currentlyMatched := true)],
                                                     Q[j := Q[j].(position := rank)],
                                                     U + [inst.proposers[Holder(inst, Q, j)]]))
            && (!P[k].currentlyMatched && Q[j].currentlyMatched && rank <= Q[j].position ==>
                  rank < Q[j].position
                  && ProposeStep(s, k) == RoundState(P, Q, U + [inst.proposers[k]]))
  {
    var P, Q := s.proposers, s.proposees;
    TargetFacts(inst, P, Q, s.unmatched, k);
    var j := Target(inst, P, k);
    if P[k].currentlyMatched {
      ProposeMatched(inst, s, k);
    } else if !Q[j].currentlyMatched {
      ProposeToFree(inst, s, k);
    } else if Q[j].position < IndexOf(inst.proposeePrefs[j], inst.proposers[k]) {
      ProposeAndDisplace(inst, s, k);
    } else {
      ProposeRejected(inst, s, k);
    }
  }

  // ---------------------------------------------------------------------------
  // Advancing the cursors of the pending proposers
  // ---------------------------------------------------------------------------

  lemma {:induction false} SumPositionsUpdate(a: seq<Container>, i: nat, c: Container)
    requires i < |a|
    ensures SumPositions(a[i := c]) + a[i].position == SumPositions(a) + c.position
  {
    if i > 0 {
      SumPositionsUpdate(a[1..], i - 1, c);
      assert a[i := c][1..] == a[1..][i - 1 := c];
    } else {
      assert a[i := c][1..] == a[1..];
    }
  }

  /** Every cursor is bounded by the list length, so their sum by `n * n`. */
  lemma {:induction false} SumPositionsBound(a: seq<Container>, m: nat)
    requires forall i :: 0 <= i < |a| ==> a[i].position < m
    ensures SumPositions(a) <= |a| * (m - 1)
  {
    if |a| > 0 {
      SumPositionsBound(a[1..], m);
    }
  }

  lemma RejectedThroughCursor(inst: Instance, P: seq<Container>, Q: seq<Container>, U: seq<int>, i: nat)
    requires RejectionsBelowCursors(inst, P, Q) && PendingRejected(inst, P, Q, U)
    requires i < |P| && i < |inst.proposers| && inst.proposers[i] in U
    ensures forall t :: 0 <= t <= P[i].position ==> RejectedAt(inst, Q, i, t)
  {
  }

  /** The holders of the proposees at indices `0..r` of proposer `i`'s list. */
  ghost function RejecterHolders(inst: Instance, Q: seq<Container>, i: nat, r: nat): (hs: seq<nat>)
    requires i < |inst.proposerPrefs| && r < |inst.proposerPrefs[i]|
    ensures |hs| == r + 1
    ensures forall t :: 0 <= t < r + 1 ==> hs[t] == Holder(inst, Q, IndexOf(inst.proposees, inst.proposerPrefs[i][t]))
  {
    seq(r + 1, t requires 0 <= t < r + 1 => Holder(inst, Q, IndexOf(inst.proposees, inst.proposerPrefs[i][t])))
  }

  /** The proposees that turned a pending proposer away are held by distinct proposers,
      none of them the pending one. */
  lemma RejecterHoldersFacts(inst: Instance, P: seq<Container>, Q: seq<Container>, U: seq<int>, i: nat)
    requires WellFormed(inst) && Conforms(inst, P, Q) && InRange(P, Q) && HoldersEngaged(inst, P, Q, U)
    requires RejectionsBelowCursors(inst, P, Q) && PendingRejected(inst, P, Q, U)
    requires i < |P| && inst.proposers[i] in U
    ensures P[i].position < |inst.proposerPrefs[i]|
    ensures var hs := RejecterHolders(inst, Q, i, P[i].position);
            Distinct(hs) && forall t :: 0 <= t < |hs| ==> hs[t] < |P| && hs[t] != i
  {
    var r := P[i].position;
    RejectedThroughCursor(inst, P, Q, U, i);
    var hs := RejecterHolders(inst, Q, i, r);
    forall t | 0 <= t < r + 1
      ensures IndexOf(inst.proposees, inst.proposerPrefs[i][t]) < |Q|
      ensures inst.proposees[IndexOf(inst.proposees, inst.proposerPrefs[i][t])] == inst.proposerPrefs[i][t]
      ensures hs[t] < |P| && hs[t] != i
      ensures Target(inst, P, hs[t]) == IndexOf(inst.proposees, inst.proposerPrefs[i][t])
    {
      assert RejectedAt(inst, Q, i, t);
      assert HolderEngaged(inst, P, Q, U, IndexOf(inst.proposees, inst.proposerPrefs[i][t]));
    }
    assert Distinct(inst.proposerPrefs[i]);
  }

  /** A pending proposer is not at the last entry of its list: the proposees at and below
      its cursor are held by distinct proposers other than it, so there are fewer of them
      than proposers. */
  lemma CursorStaysInList(inst: Instance, P: seq<Container>, Q: seq<Container>, U: seq<int>, i: nat)
    requires WellFormed(inst) && Conforms(inst, P, Q) && InRange(P, Q) && HoldersEngaged(inst, P, Q, U)
    requires RejectionsBelowCursors(inst, P, Q) && PendingRejected(inst, P, Q, U)
    requires i < |P| && inst.proposers[i] in U
    ensures P[i].position + 1 < |P|
  {
    RejecterHoldersFacts(inst, P, Q, U, i);
    FewerAvoiding(RejecterHolders(inst, Q, i, P[i].position), |P|, i);
  }

  /** A pending proposer `x`: the search finds it at its own index. */
  lemma PendingFound(inst: Instance, P: seq<Container>, Q: seq<Container>, x: int)
    requires Conforms(inst, P, Q) && x in inst.proposers
    ensures var i := IndexOf(inst.proposers, x);
            i < |P| && inst.proposers[i] == x && ItemIndex(P, x) == i
            && AdvanceOne(P, x) == P[i := P[i].(position := P[i].position + 1, currentlyMatched := false)]
  {
    ItemIndexIsIndexOf(P, inst.proposers, x);
  }

  lemma AdvanceHolders(inst: Instance, P: seq<Container>, Q: seq<Container>, U: seq<int>, i: nat, P': seq<Container>)
    requires WellFormed(inst) && Conforms(inst, P, Q) && HoldersEngaged(inst, P, Q, U)
    requires |U| > 0 && i < |P| && inst.proposers[i] == U[0]
    requires P' == P[i := P[i].(position := P[i].position + 1, currentlyMatched := false)]
    ensures HoldersEngaged(inst, P', Q, U[1..])
  {
    assert U == [U[0]] + U[1..];
    forall j | 0 <= j < |Q| && Q[j].currentlyMatched
      ensures HolderEngaged(inst, P', Q, U[1..], j)
    {
      assert HolderEngaged(inst, P, Q, U, j);
    }
  }

  lemma AdvanceEngagements(inst: Instance, P: seq<Container>, Q: seq<Container>, U: seq<int>, i: nat, P': seq<Container>)
    requires WellFormed(inst) && Conforms(inst, P, Q) && EngagementsHeld(inst, P, Q, U)
    requires |U| > 0 && i < |P| && inst.proposers[i] == U[0]
    requires P' == P[i := P[i].(position := P[i].position + 1, currentlyMatched := false)]
    ensures EngagementsHeld(inst, P', Q, U[1..])
  {
    assert U == [U[0]] + U[1..];
    forall i' | 0 <= i' < |P'| && i' < |inst.proposers| && P'[i'].currentlyMatched && inst.proposers[i'] !in U[1..]
      ensures EngagementHeld(inst, P', Q, i')
    {
      IndexOfDistinct(inst.proposers, i);
      IndexOfDistinct(inst.proposers, i');
      assert EngagementHeld(inst, P, Q, i');
    }
  }

  lemma AdvanceRejections(inst: Instance, P: seq<Container>, Q: seq<Container>, U: seq<int>, i: nat, P': seq<Container>)
    requires WellFormed(inst) && Conforms(inst, P, Q)
    requires RejectionsBelowCursors(inst, P, Q) && PendingRejected(inst, P, Q, U) && PendingListed(inst, U)
    requires |U| > 0 && i < |P| && inst.proposers[i] == U[0] && U[0] !in U[1..]
    requires P' == P[i := P[i].(position := P[i].position + 1, currentlyMatched := false)]
    ensures RejectionsBelowCursors(inst, P', Q) && PendingRejected(inst, P', Q, U[1..])
    ensures PendingListed(inst, U[1..])
  {
    assert U == [U[0]] + U[1..];
    assert RejectedAt(inst, Q, i, P[i].position);
    forall i', k | 0 <= i' < |P'| && 0 <= k < P'[i'].position
      ensures RejectedAt(inst, Q, i', k)
    {
      if i' != i || k < P[i].position {
        assert RejectedAt(inst, Q, i', k);
      }
    }
    forall i' | 0 <= i' < |P'| && i' < |inst.proposers| && inst.proposers[i'] in U[1..]
      ensures RejectedAt(inst, Q, i', P'[i'].position)
    {
      assert inst.proposers[i'] in U;
    }
  }

  lemma AdvanceFrontCore(inst: Instance, P: seq<Container>, Q: seq<Container>, U: seq<int>, i: nat, P': seq<Container>)
    requires Core(inst, P, Q, U) && |U| > 0 && i < |P| && inst.proposers[i] == U[0] && U[0] !in U[1..]
    requires P' == P[i := P[i].(position := P[i].position + 1, currentlyMatched := false)]
    ensures Core(inst, P', Q, U[1..])
    ensures SumPositions(P') == SumPositions(P) + 1
  {
    CursorStaysInList(inst, P, Q, U, i);
    AdvanceHolders(inst, P, Q, U, i, P');
    AdvanceEngagements(inst, P, Q, U, i, P');
    AdvanceRejections(inst, P, Q, U, i, P');
    SumPositionsUpdate(P, i, P'[i]);
  }

  /** Advancing the front pending proposer keeps the invariant for the rest of the list
      and counts one more cursor advance. */
  lemma AdvanceFront(inst: Instance, P: seq<Container>, Q: seq<Container>, U: seq<int>)
    requires Core(inst, P, Q, U) && |U| > 0
    ensures Core(inst, AdvanceOne(P, U[0]), Q, U[1..])
    ensures SumPositions(AdvanceOne(P, U[0])) == SumPositions(P) + 1
  {
    assert U[0] in U;
    PendingFound(inst, P, Q, U[0]);
    DistinctTail(U);
    var i := IndexOf(inst.proposers, U[0]);
    AdvanceFrontCore(inst, P, Q, U, i, P[i := P[i].(position := P[i].position + 1, currentlyMatched := false)]);
  }

  /** Lines 193-205 keep the invariant: after the advances nobody is pending, and the
      cursors have moved `|U|` steps in total. */
  lemma {:induction false} AdvanceAllKeeps(inst: Instance, P: seq<Container>, Q: seq<Container>, U: seq<int>)
    requires Core(inst, P, Q, U)
    ensures Core(inst, AdvanceAll(P, U), Q, [])
    ensures SumPositions(AdvanceAll(P, U)) == SumPositions(P) + |U|
    decreases |U|
  {
    if |U| > 0 {
      AdvanceFront(inst, P, Q, U);
      AdvanceAllKeeps(inst, AdvanceOne(P, U[0]), Q, U[1..]);
    }
  }

  /** Advancing from entry `t` on is advancing entry `t`, then the rest. */
  lemma AdvanceAllFront(ps: seq<Container>, U: seq<int>, t: nat)
    requires t < |U|
    ensures AdvanceAll(ps, U[t..]) == AdvanceAll(AdvanceOne(ps, U[t]), U[t + 1..])
  {
    assert U[t..][1..] == U[t + 1..];
  }

  /** The containers carry distinct items. */
  ghost predicate DistinctItems(ps: seq<Container>) {
    forall a, b :: 0 <= a < b < |ps| ==> ps[a].item != ps[b].item
  }

  /** Lines 193-205 on their own: each proposer named in `unmatched` (each at most once)
      moves its cursor on by exactly one and becomes free; every other container is
      unchanged. */
  lemma {:induction false} AdvanceAllEffect(ps: seq<Container>, U: seq<int>)
    requires DistinctItems(ps) && Distinct(U)
    ensures |AdvanceAll(ps, U)| == |ps|
    ensures forall i :: 0 <= i < |ps| ==>
              AdvanceAll(ps, U)[i]
              == if ps[i].item in U then ps[i].(position := ps[i].position + 1, currentlyMatched := false)
                 else ps[i]
    decreases |U|
  {
    if |U| > 0 {
      var ps1 := AdvanceOne(ps, U[0]);
      assert U == [U[0]] + U[1..];
      assert |ps1| == |ps| && forall i :: 0 <= i < |ps| ==> ps1[i].item == ps[i].item;
      AdvanceAllEffect(ps1, U[1..]);
      forall i | 0 <= i < |ps|
        ensures AdvanceAll(ps, U)[i]
                == if ps[i].item in U then ps[i].(position := ps[i].position + 1, currentlyMatched := false)
                   else ps[i]
      {
        if ps[i].item == U[0] {
          assert ItemIndex(ps, U[0]) == i;
          assert ps1[i] == ps[i].(position := ps[i].position + 1, currentlyMatched := false);
          assert ps[i].item !in U[1..];
        } else {
          assert ps1[i] == ps[i];
          assert ps[i].item in U <==> ps[i].item in U[1..];
        }
      }
    }
  }

  // ---------------------------------------------------------------------------
  // The final state
  // ---------------------------------------------------------------------------

  /** With every proposer engaged and nobody pending, each proposer is held by its target. */
  lemma FinalEngagement(inst: Instance, P: seq<Container>, Q: seq<Container>, i: nat)
    requires Core(inst, P, Q, []) && i < |P| && P[i].currentlyMatched
    ensures CursorsInLists(P)
    ensures Target(inst, P, i) < |Q| && Holder(inst, Q, Target(inst, P, i)) == i
    ensures Marriages(P)[i].0 == inst.proposers[i]
    ensures Marriages(P)[i].1 == inst.proposees[Target(inst, P, i)]
    ensures IndexOf(inst.proposees, Marriages(P)[i].1) == Target(inst, P, i)
    ensures IndexOf(inst.proposerPrefs[i], Marriages(P)[i].1) == P[i].position
  {
    TargetFacts(inst, P, Q, [], i);
    assert EngagementHeld(inst, P, Q, i);
    IndexOfDistinct(inst.proposees, Target(inst, P, i));
    IndexOfDistinct(inst.proposerPrefs[i], P[i].position);
  }

  /** The index of every proposer's target. */
  ghost function Targets(inst: Instance, P: seq<Container>): (ts: seq<nat>)
    ensures |ts| == |P| && forall i :: 0 <= i < |P| ==> ts[i] == Target(inst, P, i)
  {
    seq(|P|, i requires 0 <= i < |P| => Target(inst, P, i))
  }

  /** The targets are distinct proposee indices: each is held by its own proposer. */
  lemma FinalTargetsDistinct(inst: Instance, P: seq<Container>, Q: seq<Container>)
    requires Core(inst, P, Q, []) && forall i :: 0 <= i < |P| ==> P[i].currentlyMatched
    ensures CursorsInLists(P)
    ensures Distinct(Targets(inst, P)) && forall i :: 0 <= i < |P| ==> Targets(inst, P)[i] < |P|
    ensures forall i :: 0 <= i < |P| ==> Marriages(P)[i].1 == inst.proposees[Targets(inst, P)[i]]
  {
    var ts := Targets(inst, P);
    forall i | 0 <= i < |P|
      ensures ts[i] < |Q| && Holder(inst, Q, ts[i]) == i
      ensures Marriages(P)[i].1 == inst.proposees[ts[i]]
    {
      FinalEngagement(inst, P, Q, i);
    }
  }

  /** Distinct proposers get distinct proposees, and (pigeonhole) every proposee is taken. */
  lemma FinalTargets(inst: Instance, P: seq<Container>, Q: seq<Container>)
    requires Core(inst, P, Q, []) && forall i :: 0 <= i < |P| ==> P[i].currentlyMatched
    ensures CursorsInLists(P)
    ensures forall a, b :: 0 <= a < b < |P| ==> Marriages(P)[a].1 != Marriages(P)[b].1
    ensures forall q :: q in inst.proposees ==> exists h :: 0 <= h < |P| && Marriages(P)[h].1 == q
  {
    FinalTargetsDistinct(inst, P, Q);
    var ts := Targets(inst, P);
    assert |Q| == |P| && Distinct(inst.proposees);
    Covering(ts, |P|);
    forall q | q in inst.proposees
      ensures exists h :: 0 <= h < |P| && Marriages(P)[h].1 == q
    {
      var j := IndexOf(inst.proposees, q);
      assert j in ts;
      var h :| 0 <= h < |ts| && ts[h] == j;
      assert Marriages(P)[h].1 == q;
    }
  }

  /** No blocking pair: if proposer `i` ranks proposee `j` before its partner, then `j`
      turned `i` away for a proposer it ranks higher, and `j` still holds `h`, ranked at
      least as high. */
  lemma NoBlockingPair(inst: Instance, P: seq<Container>, Q: seq<Container>, i: nat, j: nat, h: nat)
    requires Core(inst, P, Q, []) && forall i :: 0 <= i < |P| ==> P[i].currentlyMatched
    requires i < |P| && j < |Q| && h < |P|
    requires CursorsInLists(P) && Marriages(P)[h].1 == inst.proposees[j]
    ensures !Blocks(inst, Marriages(P), i, j, h)
  {
    FinalEngagement(inst, P, Q, i);
    FinalEngagement(inst, P, Q, h);
    IndexOfDistinct(inst.proposees, j);
    var t := IndexOf(inst.proposerPrefs[i], inst.proposees[j]);
    if t < P[i].position {
      assert inst.proposees[j] in inst.proposerPrefs[i];
      assert RejectedAt(inst, Q, i, t);
      assert j < |inst.proposeePrefs| && Q[j].position < |inst.proposeePrefs[j]|;
      IndexOfDistinct(inst.proposeePrefs[j], Q[j].position);
    }
  }

  /** The state `marry` stops in gives a stable perfect matching. */
  lemma FinalIsStable(inst: Instance, P: seq<Container>, Q: seq<Container>)
    requires Core(inst, P, Q, []) && forall i :: 0 <= i < |P| ==> P[i].currentlyMatched
    ensures CursorsInLists(P)
    ensures Stable(inst, Marriages(P))
  {
    FinalTargets(inst, P, Q);
    var pairs := Marriages(P);
    forall i | 0 <= i < |pairs|
      ensures pairs[i].0 == inst.proposers[i] && pairs[i].1 in inst.proposees
    {
      FinalEngagement(inst, P, Q, i);
    }
    forall i, j, h | 0 <= i < |pairs| && 0 <= j < |inst.proposees| && 0 <= h < |pairs| && pairs[h].1 == inst.proposees[j]
      ensures !Blocks(inst, pairs, i, j, h)
    {
      NoBlockingPair(inst, P, Q, i, j, h);
    }
  }
}
