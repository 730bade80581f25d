/** The matching engine `marry` (src/main.rs:108-215) as imperative code over arrays of
    containers, proved against the step functions of `Matching`. */
module Engine {
  import opened Sequences
  import opened Preferences
  import opened Matching
  import opened MatchingProofs

  /** The linear searches at lines 155-157 and 198-199: the first container whose item
      is `x`, or `a.Length` when there is none. */
  method FindContainer(a: array<Container>, x: int) returns (k: nat)
    ensures k <= a.Length
    ensures k < a.Length ==> a[k].item == x
    ensures forall t :: 0 <= t < k ==> a[t].item != x
    ensures k == ItemIndex(a[..], x)
  {
    k := 0;
    while k < a.Length && a[k].item != x
      invariant k <= a.Length
      invariant forall t :: 0 <= t < k ==> a[t].item != x
    {
      k := k + 1;
    }
    ItemIndexFirst(a[..], x, k);
  }

  /** The rank search at lines 158-166: the index of the first occurrence of `x` in
      `prefs`, or `i32::MAX` when `x` does not occur. */
  method LookUpRank(prefs: seq<int>, x: int) returns (rank: nat)
    ensures x in prefs ==> rank < |prefs| && prefs[rank] == x && forall t :: 0 <= t < rank ==> prefs[t] != x
    ensures x !in prefs ==> rank == I32_MAX
    ensures rank == RankFor(prefs, x)
  {
    rank := I32_MAX;
    var t := 0;
    while t < |prefs|
      invariant t <= |prefs|
      invariant forall u :: 0 <= u < t ==> prefs[u] != x
      invariant rank == I32_MAX
    {
      if prefs[t] == x {
        rank := t;
        break;
      }
      t := t + 1;
    }
  }

  /** Lines 153-186: the turn of proposer `k`, updating both arrays in place. */
  method Propose(P: array<Container>, Q: array<Container>, k: nat, unmatched: seq<int>)
    returns (unmatched': seq<int>)
    requires P != Q
    requires TurnDefined(RoundState(P[..], Q[..], unmatched), k)
    modifies P, Q
    ensures RoundState(P[..], Q[..], unmatched') == ProposeStep(old(RoundState(P[..], Q[..], unmatched)), k)
  {
    unmatched' := unmatched;
    var p := P[k];
    if !p.currentlyMatched {
      var j := FindContainer(Q, p.preferenceList[p.position]);
      if j < Q.Length {
        var q := Q[j];
        var rank := LookUpRank(q.preferenceList, p.item);
        if !q.currentlyMatched {
          P[k] := p.(currentlyMatched := true);
          Q[j] := q.(currentlyMatched := true, position := rank);
        } else if q.position < rank {
          P[k] := p.(currentlyMatched := true);
          unmatched' := unmatched + [q.preferenceList[q.position]];
          Q[j] := q.(position := rank);
        } else {
          unmatched' := unmatched + [p.item];
        }
      }
    }
  }

  /** Lines 151-188: one pass over the proposers, computing `ProposeFrom` of the state
      at the start of the round. Afterwards each proposer is engaged or pending, no
      cursor has moved, and held proposees stay held with ranks that did not go down. */
  method ProposeRound(ghost inst: Instance, P: array<Container>, Q: array<Container>)
    returns (unmatched: seq<int>)
    requires P != Q
    requires ProposalsUpTo(inst, RoundState(P[..], Q[..], []), 0)
    modifies P, Q
    ensures RoundState(P[..], Q[..], unmatched) == ProposeFrom(old(RoundState(P[..], Q[..], [])), 0)
    ensures ProposalsUpTo(inst, RoundState(P[..], Q[..], unmatched), P.Length)
    ensures forall i :: 0 <= i < P.Length ==> P[i].position == old(P[i].position)
    ensures SumPositions(P[..]) == old(SumPositions(P[..]))
    ensures ProposeesMonotone(old(Q[..]), Q[..])
  {
    unmatched := [];
    ghost var goal := ProposeFrom(RoundState(P[..], Q[..], []), 0);
    ProposeFromFrame(RoundState(P[..], Q[..], []), 0);
    for k := 0 to P.Length
      invariant ProposeFrom(RoundState(P[..], Q[..], unmatched), k) == goal
      invariant ProposalsUpTo(inst, RoundState(P[..], Q[..], unmatched), k)
    {
      ghost var s := RoundState(P[..], Q[..], unmatched);
      ProposeStepKeeps(inst, s, k);
      ProposeFromStep(s, k);
      unmatched := Propose(P, Q, k, unmatched);
    }
    ProposeFromEnd(RoundState(P[..], Q[..], unmatched));
  }

  /** Lines 196-205: for each entry of `unmatched`, the first proposer carrying it moves
      its cursor on by one and becomes free. */
  method Advance(P: array<Container>, unmatched: seq<int>)
    modifies P
    ensures P[..] == AdvanceAll(old(P[..]), unmatched)
  {
    for t := 0 to |unmatched|
      invariant AdvanceAll(P[..], unmatched[t..]) == AdvanceAll(old(P[..]), unmatched)
    {
      ghost var before := P[..];
      AdvanceAllFront(before, unmatched, t);
      var i := FindContainer(P, unmatched[t]);
      if i < P.Length {
        P[i] := P[i].(position := P[i].position + 1, currentlyMatched := false);
      }
      assert P[..] == AdvanceOne(before, unmatched[t]);
    }
  }

  /** Lines 210-214: the pair of each proposer's item and the entry at its cursor. */
  method CollectMarriages(P: array<Container>) returns (pairs: seq<(int, int)>)
    requires CursorsInLists(P[..])
    ensures |pairs| == P.Length
    ensures pairs == Marriages(P[..])
  {
    pairs := [];
    for i := 0 to P.Length
      invariant pairs == Marriages(P[..])[..i]
    {
      pairs := pairs + [(P[i].item, P[i].preferenceList[P[i].position])];
    }
  }

  /** Lines 148-206, one iteration of the outer loop: a round of proposals, then the
      cursor advances, leaving the arrays as `RunRound` says. Nobody is pending exactly
      when the round completes the matching; otherwise the cursors advanced `advanced`
      times in total, at least once. */
  method Round(ghost inst: Instance, P: array<Container>, Q: array<Container>)
    returns (complete: bool, ghost advanced: nat)
    requires P != Q
    requires Core(inst, P[..], Q[..], [])
    modifies P, Q
    ensures RoundState(P[..], Q[..], RunRound(old(P[..]), old(Q[..])).unmatched) == RunRound(old(P[..]), old(Q[..]))
    ensures complete <==> |RunRound(old(P[..]), old(Q[..])).unmatched| == 0
    ensures Core(inst, P[..], Q[..], [])
    ensures complete ==> forall i :: 0 <= i < P.Length ==> P[i].currentlyMatched
    ensures complete <==> advanced == 0
    ensures SumPositions(P[..]) == old(SumPositions(P[..])) + advanced
    ensures ProposeesMonotone(old(Q[..]), Q[..])
  {
    RoundStart(inst, P[..], Q[..]);
    var unmatched := ProposeRound(inst, P, Q);
    complete := |unmatched| == 0;
    advanced := |unmatched|;
    if !complete {
      AdvanceAllKeeps(inst, P[..], Q[..], unmatched);
      Advance(P, unmatched);
    }
  }

  /** The body of the outer loop (lines 148-206): one `Round`, recorded as one more entry
      of the rounds run so far. */
  method TrackedRound(ghost inst: Instance, P: array<Container>, Q: array<Container>, ghost states: seq<RoundState>)
    returns (complete: bool, ghost advanced: nat, ghost states': seq<RoundState>)
    requires P != Q
    requires Core(inst, P[..], Q[..], [])
    requires RoundsSoFar(states, P[..], Q[..], false)
    modifies P, Q
    ensures |states'| == |states| + 1 && states'[0] == states[0]
    ensures RoundsSoFar(states', P[..], Q[..], complete)
    ensures Core(inst, P[..], Q[..], [])
    ensures complete ==> forall i :: 0 <= i < P.Length ==> P[i].currentlyMatched
    ensures complete <==> advanced == 0
    ensures SumPositions(P[..]) == old(SumPositions(P[..])) + advanced
    ensures ProposeesMonotone(old(Q[..]), Q[..])
  {
    ghost var next := RunRound(P[..], Q[..]);
    RoundsSoFarExtend(states, P[..], Q[..], next, |next.unmatched| == 0);
    complete, advanced := Round(inst, P, Q);
    states' := states + [next];
  }

  /** Lines 113-130 and 133-140: one free container per entity, in input order, holding
      the entity's ranking with its cursor at the front. */
  method NewContainers(items: seq<int>, prefs: seq<seq<int>>) returns (a: array<Container>)
    requires |items| <= |prefs|
    ensures fresh(a) && a.Length == |items|
    ensures forall i :: 0 <= i < a.Length ==> a[i] == Container(false, items[i], 0, prefs[i])
    ensures a[..] == InitialContainers(items, prefs)
  {
    a := new Container[|items|](i requires 0 <= i < |items| => Container(false, items[i], 0, prefs[i]));
  }

  /** Lines 113-140: the containers of both populations, satisfying the invariant with
      nobody pending and every cursor at the front. */
  method Setup(proposers: seq<int>, proposees: seq<int>,
               proposerPrefs: seq<seq<int>>, proposeePrefs: seq<seq<int>>)
    returns (P: array<Container>, Q: array<Container>)
    requires WellFormed(Instance(proposers, proposees, proposerPrefs, proposeePrefs))
    ensures fresh(P) && fresh(Q) && P != Q
    ensures P.Length == |proposers| && Q.Length == |proposees|
    ensures forall i :: 0 <= i < P.Length ==> P[i] == Container(false, proposers[i], 0, proposerPrefs[i])
    ensures forall j :: 0 <= j < Q.Length ==> Q[j] == Container(false, proposees[j], 0, proposeePrefs[j])
    ensures P[..] == InitialContainers(proposers, proposerPrefs)
    ensures Q[..] == InitialContainers(proposees, proposeePrefs)
    ensures Core(Instance(proposers, proposees, proposerPrefs, proposeePrefs), P[..], Q[..], [])
    ensures SumPositions(P[..]) == 0
  {
    P := NewContainers(proposers, proposerPrefs);
    Q := NewContainers(proposees, proposeePrefs);
    InitialCore(Instance(proposers, proposees, proposerPrefs, proposeePrefs), P[..], Q[..]);
  }

  /** Lines 144-208: rounds until one leaves nobody pending. `states` lists the state
      before the first round and after each round: every round is `RunRound` of the one
      before, every round but the last leaves someone pending and the last leaves the
      arrays as they end. Every proposer ends engaged under the invariant; the cursors
      advance at most `n * (n - 1)` times and there are at most that many rounds plus one. */
  method RunRounds(ghost inst: Instance, P: array<Container>, Q: array<Container>)
    returns (ghost advances: nat, ghost rounds: nat, ghost states: seq<RoundState>)
    requires P != Q
    requires Core(inst, P[..], Q[..], []) && SumPositions(P[..]) == 0
    modifies P, Q
    ensures |states| == rounds + 1 && states[0] == RoundState(old(P[..]), old(Q[..]), [])
    ensures RoundsSoFar(states, P[..], Q[..], true)
    ensures Core(inst, P[..], Q[..], [])
    ensures forall i :: 0 <= i < P.Length ==> P[i].currentlyMatched
    ensures advances == SumPositions(P[..]) <= P.Length * (P.Length - 1)
    ensures 1 <= rounds <= advances + 1
    ensures P.Length == 0 ==> rounds == 1
    ensures ProposeesMonotone(old(Q[..]), Q[..])
  {
    var n := P.Length;
    ghost var limit := n * (n - 1);
    var complete := false;
    advances, rounds := 0, 0;
    ghost var start := RoundState(P[..], Q[..], []);
    states := [start];
    RoundsSoFarStart(P[..], Q[..]);
    while !complete
      invariant Core(inst, P[..], Q[..], [])
      invariant complete ==> forall i :: 0 <= i < n ==> P[i].currentlyMatched
      invariant advances == SumPositions(P[..]) <= limit
      invariant if complete then 1 <= rounds <= advances + 1 else rounds <= advances
      invariant n == 0 ==> rounds == (if complete then 1 else 0)
      invariant |states| == rounds + 1 && states[0] == start
      invariant RoundsSoFar(states, P[..], Q[..], complete)
      invariant ProposeesMonotone(old(Q[..]), Q[..])
      decreases limit - advances, if complete then 0 else 1
    {
      ghost var advanced;
      complete, advanced, states := TrackedRound(inst, P, Q, states);
      rounds := rounds + 1;
      advances := advances + advanced;
      CursorSumBound(inst, P[..], Q[..]);
    }
  }

  /** Lines 209-214 once every proposer is engaged: the pairs read off the cursors form a
      stable perfect matching. */
  method Finish(ghost inst: Instance, P: array<Container>, Q: array<Container>)
    returns (pairs: seq<(int, int)>)
    requires Core(inst, P[..], Q[..], []) && forall i :: 0 <= i < P.Length ==> P[i].currentlyMatched
    ensures CursorsInLists(P[..]) && pairs == Marriages(P[..]) && Stable(inst, pairs)
  {
    FinalIsStable(inst, P[..], Q[..]);
    pairs := CollectMarriages(P);
  }

  /** Lines 108-215 after the preference lists are in place. On valid input the result
      is read off `Outcome`, where nobody is pending, and it is a stable perfect
      matching; the cursors advance at most `n * (n - 1)` times,
      there are at most that many rounds plus one, and empty input takes one round. */
  method MarryWithPreferences(proposers: seq<int>, proposees: seq<int>,
                              proposerPrefs: seq<seq<int>>, proposeePrefs: seq<seq<int>>)
    returns (pairs: seq<(int, int)>, ghost advances: nat, ghost rounds: nat)
    requires Valid(Instance(proposers, proposees, proposerPrefs, proposeePrefs))
    ensures var s := Outcome(Instance(proposers, proposees, proposerPrefs, proposeePrefs));
      s.unmatched == [] && CursorsInLists(s.proposers) && pairs == Marriages(s.proposers)
    ensures Stable(Instance(proposers, proposees, proposerPrefs, proposeePrefs), pairs)
    ensures advances <= |proposers| * (|proposers| - 1)
    ensures 1 <= rounds <= advances + 1
    ensures |proposers| == 0 ==> rounds == 1 && pairs == []
  {
    ghost var inst := Instance(proposers, proposees, proposerPrefs, proposeePrefs);
    ValidIsWellFormed(inst);
    var P, Q := Setup(proposers, proposees, proposerPrefs, proposeePrefs);
    ghost var states;
    advances, rounds, states := RunRounds(inst, P, Q);
    OutcomeReached(inst, states, P[..], Q[..]);
    pairs := Finish(inst, P, Q);
  }

  /** Lines 133-140 for one population: a ranking of `candidates` drawn for each of
      `count` entities, entity `i` using the draws `draws[i]`. */
  method GenerateAll(candidates: seq<int>, draws: seq<seq<nat>>) returns (prefs: seq<seq<int>>)
    requires forall i :: 0 <= i < |draws| ==> ValidChoices(draws[i], |candidates|)
    ensures |prefs| == |draws|
    ensures forall i :: 0 <= i < |draws| ==> prefs[i] == RemovalOrder(candidates, draws[i])
    ensures forall i :: 0 <= i < |draws| ==> multiset(prefs[i]) == multiset(candidates)
  {
    prefs := [];
    for i := 0 to |draws|
      invariant |prefs| == i
      invariant forall t :: 0 <= t < i ==> prefs[t] == RemovalOrder(candidates, draws[t])
      invariant forall t :: 0 <= t < i ==> multiset(prefs[t]) == multiset(candidates)
    {
      var l := GeneratePreferences(candidates, draws[i]);
      prefs := prefs + [l];
    }
  }

  /** The whole of `marry` (lines 108-215): a ranking is drawn for every entity, the
      random draws given as oracles, and then the engine runs on the rankings. */
  method Marry(proposers: seq<int>, proposees: seq<int>,
               proposerDraws: seq<seq<nat>>, proposeeDraws: seq<seq<nat>>)
    returns (pairs: seq<(int, int)>, proposerPrefs: seq<seq<int>>, proposeePrefs: seq<seq<int>>)
    requires |proposees| == |proposers| && Distinct(proposers) && Distinct(proposees)
    requires |proposerDraws| == |proposers| && |proposeeDraws| == |proposees|
    requires forall i :: 0 <= i < |proposers| ==> ValidChoices(proposerDraws[i], |proposees|)
    requires forall j :: 0 <= j < |proposees| ==> ValidChoices(proposeeDraws[j], |proposers|)
    ensures |proposerPrefs| == |proposers| && |proposeePrefs| == |proposees|
    ensures forall i :: 0 <= i < |proposers| ==> proposerPrefs[i] == RemovalOrder(proposees, proposerDraws[i])
    ensures forall j :: 0 <= j < |proposees| ==> proposeePrefs[j] == RemovalOrder(proposers, proposeeDraws[j])
    ensures var s := Outcome(Instance(proposers, proposees, proposerPrefs, proposeePrefs));
      CursorsInLists(s.proposers) && pairs == Marriages(s.proposers)
    ensures Stable(Instance(proposers, proposees, proposerPrefs, proposeePrefs), pairs)
  {
    proposerPrefs := GenerateAll(proposees, proposerDraws);
    proposeePrefs := GenerateAll(proposers, proposeeDraws);
    ghost var advances, rounds;
    pairs, advances, rounds := MarryWithPreferences(proposers, proposees, proposerPrefs, proposeePrefs);
  }
}
