/** State and step functions of the deferred-acceptance engine `marry`.

    Entities are distinct integers. Proposers rank proposees with index 0 as the
    best (a proposer walks its list upwards). Proposees, as the swap test
    `i.position < rank` is written, prefer a HIGHER index in their own list: a
    held proposee switches to a proposer it ranks at a greater index. */
module Matching {
  import opened Sequences

  /** The value `i32::MAX` that a rank keeps when the proposer is missing from the list. */
  const I32_MAX: nat := 0x7fff_ffff

  /** `MIContainer`: one entity's record. For a proposer `position` is the index of
      the next proposee to propose to; for a proposee it is the rank of the
      proposer it holds. */
  datatype Container = Container(
    currentlyMatched: bool,
    item: int,
    position: nat,
    preferenceList: seq<int>)

  /** What `marry` works on: both populations and each entity's ranking. */
  datatype Instance = Instance(
    proposers: seq<int>,
    proposees: seq<int>,
    proposerPrefs: seq<seq<int>>,
    proposeePrefs: seq<seq<int>>)

  /** The inputs on which `marry` is meaningful: equal-sized populations of distinct
      entities, each ranking a permutation of the opposite population. */
  ghost predicate Valid(inst: Instance) {
    var n := |inst.proposers|;
    |inst.proposees| == n && |inst.proposerPrefs| == n && |inst.proposeePrefs| == n
    && Distinct(inst.proposers) && Distinct(inst.proposees)
    && (forall i :: 0 <= i < n ==> multiset(inst.proposerPrefs[i]) == multiset(inst.proposees))
    && (forall j :: 0 <= j < n ==> multiset(inst.proposeePrefs[j]) == multiset(inst.proposers))
  }

  /** The consequences of `Valid` that the proofs use: each ranking is a list of length
      `n` without repetitions holding exactly the opposite population. */
  ghost predicate WellFormed(inst: Instance) {
    var n := |inst.proposers|;
    |inst.proposees| == n && |inst.proposerPrefs| == n && |inst.proposeePrefs| == n
    && Distinct(inst.proposers) && Distinct(inst.proposees)
    && (forall i :: 0 <= i < n ==> |inst.proposerPrefs[i]| == n && Distinct(inst.proposerPrefs[i]))
    && (forall j :: 0 <= j < n ==> |inst.proposeePrefs[j]| == n && Distinct(inst.proposeePrefs[j]))
    && (forall i, x :: 0 <= i < n ==> (x in inst.proposerPrefs[i] <==> x in inst.proposees))
    && (forall j, x :: 0 <= j < n ==> (x in inst.proposeePrefs[j] <==> x in inst.proposers))
  }

  // ---------------------------------------------------------------------------
  // The code: lookups and one proposer's turn, on sequences of containers
  // ---------------------------------------------------------------------------

  /** Index of the first container holding `x`, or `|cs|` (the search at lines 155-157 and 198-199). */
  function ItemIndex(cs: seq<Container>, x: int): (k: nat)
    ensures k <= |cs|
    ensures k < |cs| ==> cs[k].item == x
    ensures forall t :: 0 <= t < k ==> cs[t].item != x
  {
    if |cs| == 0 then 0
    else if cs[0].item == x then 0
    else 1 + ItemIndex(cs[1..], x)
  }

  /** The rank search at lines 158-166: the first index of `x`, or `i32::MAX`. */
  function RankFor(prefs: seq<int>, x: int): (rank: nat)
    ensures x in prefs ==> rank < |prefs| && prefs[rank] == x && forall t :: 0 <= t < rank ==> prefs[t] != x
    ensures x !in prefs ==> rank == I32_MAX
  {
    if x in prefs then IndexOf(prefs, x) else I32_MAX
  }

  /** The containers and the `unmatched` list in the middle of a round. */
  datatype RoundState = RoundState(
    proposers: seq<Container>,
    proposees: seq<Container>,
    unmatched: seq<int>)

  /** The indexing that one proposer's turn performs is in bounds. */
  ghost predicate TurnDefined(s: RoundState, k: nat) {
    k < |s.proposers|
    && (!s.proposers[k].currentlyMatched ==> s.proposers[k].position < |s.proposers[k].preferenceList|)
    && (forall j :: 0 <= j < |s.proposees| && s.proposees[j].currentlyMatched ==>
          s.proposees[j].position < |s.proposees[j].preferenceList|)
  }

  /** Lines 153-186: proposer `k`'s turn. A free proposer proposes to
      `preferenceList[position]`; a free proposee accepts; a held proposee swaps when
      its stored rank is below the proposer's rank, pushing the former holder;
      otherwise the proposer is pushed. When no proposee carries the target, nothing
      happens. */
  function ProposeStep(s: RoundState, k: nat): (r: RoundState)
    requires TurnDefined(s, k)
    ensures |r.proposers| == |s.proposers| && |r.proposees| == |s.proposees|
    ensures s.unmatched <= r.unmatched && |r.unmatched| <= |s.unmatched| + 1
  {
    var p := s.proposers[k];
    if p.currentlyMatched then s
    else
      var j := ItemIndex(s.proposees, p.preferenceList[p.position]);
      if j == |s.proposees| then s
      else
        var q := s.proposees[j];
        var rank := RankFor(q.preferenceList, p.item);
        if !q.currentlyMatched then
          RoundState(s.proposers[k := p.(currentlyMatched := true)],
                     s.proposees[j := q.(currentlyMatched := true, position := rank)],
                     s.unmatched)
        else if q.position < rank then
          RoundState(s.proposers[k := p.(currentlyMatched := true)],
                     s.proposees[j := q.(position := rank)],
                     s.unmatched + [q.preferenceList[q.position]])
        else
          RoundState(s.proposers, s.proposees, s.unmatched + [p.item])
  }

  /** Lines 198-203 for one entry `x` of `unmatched`: the first proposer carrying `x`
      moves its cursor on by one and becomes free. */
  function AdvanceOne(ps: seq<Container>, x: int): (ps': seq<Container>)
    ensures |ps'| == |ps|
    ensures forall i :: 0 <= i < |ps| ==> ps'[i].item == ps[i].item && ps'[i].preferenceList == ps[i].preferenceList
    ensures forall i :: 0 <= i < |ps| && ps[i].item != x ==> ps'[i] == ps[i]
  {
    var i := ItemIndex(ps, x);
    if i == |ps| then ps
    else ps[i := ps[i].(position := ps[i].position + 1, currentlyMatched := false)]
  }

  /** Lines 196-205: `AdvanceOne` for every entry of `unmatched`, in order. */
  function AdvanceAll(ps: seq<Container>, unmatched: seq<int>): (ps': seq<Container>)
    ensures |ps'| == |ps|
    ensures forall i :: 0 <= i < |ps| ==> ps'[i].item == ps[i].item && ps'[i].preferenceList == ps[i].preferenceList
    ensures forall i :: 0 <= i < |ps| && ps[i].item !in unmatched ==> ps'[i] == ps[i]
    decreases |unmatched|
  {
    if |unmatched| == 0 then ps
    else AdvanceAll(AdvanceOne(ps, unmatched[0]), unmatched[1..])
  }

  /** Lines 151-188 from turn `k` on: the remaining turns of a pass, in proposer order.
      A turn whose indexing would be out of bounds (where the code would panic) ends
      the pass; under the engine's invariant that never happens
      (`MatchingProofs.ProposeStepKeeps`). */
  ghost function ProposeFrom(s: RoundState, k: nat): RoundState
    decreases |s.proposers| - k
  {
    if k < |s.proposers| && TurnDefined(s, k) then ProposeFrom(ProposeStep(s, k), k + 1) else s
  }

  /** Lines 148-206, one iteration of the outer loop: a pass of proposals starting from
      an empty `unmatched`, then the advance of every proposer the pass pushed. The
      result carries the pass's `unmatched`; the round completes when it is empty. */
  ghost function RunRound(P: seq<Container>, Q: seq<Container>): RoundState {
    var s := ProposeFrom(RoundState(P, Q, []), 0);
    RoundState(AdvanceAll(s.proposers, s.unmatched), s.proposees, s.unmatched)
  }

  /** Lines 144-208 allowing at most `fuel` rounds after the first: rounds run until one
      leaves `unmatched` empty, and the state after the last round is returned. */
  ghost function Settle(P: seq<Container>, Q: seq<Container>, fuel: nat): RoundState
    decreases fuel
  {
    var s := RunRound(P, Q);
    if |s.unmatched| == 0 || fuel == 0 then s else Settle(s.proposers, s.proposees, fuel - 1)
  }

  /** `states` are the states after consecutive rounds: each is the round run on the
      containers of the one before. */
  ghost predicate Trajectory(states: seq<RoundState>) {
    forall r :: 0 < r < |states| ==> RoundAt(states, r)
  }

  /** Entry `r` of `states` is the round run on entry `r - 1`. */
  ghost predicate RoundAt(states: seq<RoundState>, r: nat)
    requires 0 < r < |states|
  {
    states[r] == RunRound(states[r - 1].proposers, states[r - 1].proposees)
  }

  /** The rounds run so far, ending with the containers `P`, `Q`: every round is the one
      run on the state before, every round but the last leaves someone pending, and the
      loop has `complete` exactly when at least one round ran and the last left nobody. */
  ghost predicate RoundsSoFar(states: seq<RoundState>, P: seq<Container>, Q: seq<Container>, complete: bool) {
    |states| >= 1 && Trajectory(states)
    && (forall r :: 1 <= r < |states| - 1 ==> |states[r].unmatched| > 0)
    && states[|states| - 1].proposers == P && states[|states| - 1].proposees == Q
    && (complete <==> |states| >= 2 && |states[|states| - 1].unmatched| == 0)
  }

  /** Lines 113-140 for one population: a free container per entity, in input order,
      holding the entity's ranking with its cursor at the front. */
  function InitialContainers(items: seq<int>, prefs: seq<seq<int>>): (cs: seq<Container>)
    requires |items| <= |prefs|
    ensures |cs| == |items|
    ensures forall i :: 0 <= i < |cs| ==> cs[i].item == items[i] && cs[i].preferenceList == prefs[i]
    ensures forall i :: 0 <= i < |cs| ==> !cs[i].currentlyMatched && cs[i].position == 0
  {
    seq(|items|, i requires 0 <= i < |items| => Container(false, items[i], 0, prefs[i]))
  }

  /** The state in which `marry` stops on `inst`: the rounds from the initial
      containers, with `n * (n - 1)` rounds allowed after the first, which
      `Engine.MarryWithPreferences` shows to be enough. */
  ghost function Outcome(inst: Instance): RoundState
    requires |inst.proposers| <= |inst.proposerPrefs| && |inst.proposees| <= |inst.proposeePrefs|
  {
    var n := |inst.proposers|;
    Settle(InitialContainers(inst.proposers, inst.proposerPrefs),
           InitialContainers(inst.proposees, inst.proposeePrefs), n * (n - 1))
  }

  /** Every cursor indexes its own list, so line 211 is in bounds. */
  ghost predicate CursorsInLists(ps: seq<Container>) {
    forall i :: 0 <= i < |ps| ==> ps[i].position < |ps[i].preferenceList|
  }

  /** Lines 210-214: one pair per proposer, in order, of its item and the proposee at its cursor. */
  function Marriages(ps: seq<Container>): (pairs: seq<(int, int)>)
    requires CursorsInLists(ps)
    ensures |pairs| == |ps|
    ensures forall i :: 0 <= i < |ps| ==> pairs[i].0 == ps[i].item && pairs[i].1 in ps[i].preferenceList
  {
    seq(|ps|, i requires 0 <= i < |ps| => (ps[i].item, ps[i].preferenceList[ps[i].position]))
  }

  /** Sum of the proposers' cursors: the number of cursor advances made so far. */
  function SumPositions(cs: seq<Container>): nat {
    if |cs| == 0 then 0 else cs[0].position + SumPositions(cs[1..])
  }

  // ---------------------------------------------------------------------------
  // The invariant, in terms of the instance
  // ---------------------------------------------------------------------------

  /** The containers carry the instance's entities and rankings, in input order. */
  ghost predicate Conforms(inst: Instance, P: seq<Container>, Q: seq<Container>) {
    |P| == |inst.proposers| && |P| <= |inst.proposerPrefs|
    && |Q| == |inst.proposees| && |Q| <= |inst.proposeePrefs|
    && (forall i :: 0 <= i < |P| ==>
          P[i].item == inst.proposers[i] && P[i].preferenceList == inst.proposerPrefs[i])
    && (forall j :: 0 <= j < |Q| ==>
          Q[j].item == inst.proposees[j] && Q[j].preferenceList == inst.proposeePrefs[j])
  }

  /** Index of the proposee that proposer `i`'s cursor points at (`|proposees|` if none). */
  function Target(inst: Instance, P: seq<Container>, i: nat): nat {
    if i < |P| && i < |inst.proposerPrefs| && P[i].position < |inst.proposerPrefs[i]|
    then IndexOf(inst.proposees, inst.proposerPrefs[i][P[i].position])
    else |inst.proposees|
  }

  /** Index of the proposer that proposee `j`'s stored rank points at (`|proposers|` if none). */
  function Holder(inst: Instance, Q: seq<Container>, j: nat): nat {
    if j < |Q| && j < |inst.proposeePrefs| && Q[j].position < |inst.proposeePrefs[j]|
    then IndexOf(inst.proposers, inst.proposeePrefs[j][Q[j].position])
    else |inst.proposers|
  }

  /** Proposer `i` has been turned away by the proposee at index `k` of its list: that
      proposee is held, by a proposer it ranks at a greater index than `i`. */
  ghost predicate RejectedAt(inst: Instance, Q: seq<Container>, i: nat, k: nat) {
    i < |inst.proposers| && i < |inst.proposerPrefs| && k < |inst.proposerPrefs[i]|
    && var j := IndexOf(inst.proposees, inst.proposerPrefs[i][k]);
       j < |Q| && j < |inst.proposeePrefs|
       && Q[j].currentlyMatched
       && IndexOf(inst.proposeePrefs[j], inst.proposers[i]) < Q[j].position
  }

  /** Proposee `j` holds a proposer that is engaged to it and not pending. */
  ghost predicate HolderEngaged(inst: Instance, P: seq<Container>, Q: seq<Container>, U: seq<int>, j: nat) {
    var h := Holder(inst, Q, j);
    h < |P| && h < |inst.proposers| && P[h].currentlyMatched && inst.proposers[h] !in U && Target(inst, P, h) == j
  }

  /** Proposer `i` is held by the proposee its cursor points at. */
  ghost predicate EngagementHeld(inst: Instance, P: seq<Container>, Q: seq<Container>, i: nat) {
    var j := Target(inst, P, i);
    j < |Q| && Q[j].currentlyMatched && Holder(inst, Q, j) == i
  }

  /** Cursors and stored ranks are valid indices into the lists. */
  ghost predicate InRange(P: seq<Container>, Q: seq<Container>) {
    (forall i :: 0 <= i < |P| ==> P[i].position < |P|)
    && (forall j :: 0 <= j < |Q| && Q[j].currentlyMatched ==> Q[j].position < |Q|)
  }

  /** Every held proposee's holder is engaged to it and not pending. */
  ghost predicate HoldersEngaged(inst: Instance, P: seq<Container>, Q: seq<Container>, U: seq<int>) {
    forall j :: 0 <= j < |Q| && Q[j].currentlyMatched ==> HolderEngaged(inst, P, Q, U, j)
  }

  /** Every engaged proposer that is not pending is held by its target. */
  ghost predicate EngagementsHeld(inst: Instance, P: seq<Container>, Q: seq<Container>, U: seq<int>) {
    forall i :: 0 <= i < |P| && i < |inst.proposers| && P[i].currentlyMatched && inst.proposers[i] !in U ==>
      EngagementHeld(inst, P, Q, i)
  }

  /** Every proposee below a proposer's cursor turned that proposer away. */
  ghost predicate RejectionsBelowCursors(inst: Instance, P: seq<Container>, Q: seq<Container>) {
    forall i, k :: 0 <= i < |P| && 0 <= k < P[i].position ==> RejectedAt(inst, Q, i, k)
  }

  /** The proposee at a pending proposer's cursor turned it away. */
  ghost predicate PendingRejected(inst: Instance, P: seq<Container>, Q: seq<Container>, U: seq<int>) {
    forall i :: 0 <= i < |P| && i < |inst.proposers| && inst.proposers[i] in U ==>
      RejectedAt(inst, Q, i, P[i].position)
  }

  /** The pending list names proposers, each once. */
  ghost predicate PendingListed(inst: Instance, U: seq<int>) {
    Distinct(U) && forall x :: x in U ==> x in inst.proposers
  }

  /** The engine's invariant, with `U` the proposers pushed to `unmatched` and not yet
      advanced. */
  ghost predicate Core(inst: Instance, P: seq<Container>, Q: seq<Container>, U: seq<int>) {
    WellFormed(inst) && Conforms(inst, P, Q) && InRange(P, Q)
    && HoldersEngaged(inst, P, Q, U) && EngagementsHeld(inst, P, Q, U)
    && RejectionsBelowCursors(inst, P, Q) && PendingRejected(inst, P, Q, U)
    && PendingListed(inst, U)
  }

  /** After the first `k` turns of a round every visited proposer is engaged or
      pending, and no free proposer still to be visited is pending. */
  ghost predicate Visited(inst: Instance, P: seq<Container>, U: seq<int>, k: nat) {
    k <= |P| && |P| <= |inst.proposers|
    && (forall i :: 0 <= i < k ==> P[i].currentlyMatched || inst.proposers[i] in U)
    && (forall i :: k <= i < |P| && !P[i].currentlyMatched ==> inst.proposers[i] !in U)
  }

  /** `Core` after the first `k` turns of a round. */
  ghost predicate ProposalsUpTo(inst: Instance, s: RoundState, k: nat) {
    Core(inst, s.proposers, s.proposees, s.unmatched) && Visited(inst, s.proposers, s.unmatched, k)
  }

  /** A held proposee stays held and its stored rank does not go down. */
  ghost predicate ProposeesMonotone(Q: seq<Container>, Q': seq<Container>) {
    |Q'| == |Q|
    && forall j :: 0 <= j < |Q| && Q[j].currentlyMatched ==>
         Q'[j].currentlyMatched && Q[j].position <= Q'[j].position
  }

  // ---------------------------------------------------------------------------
  // What the result promises
  // ---------------------------------------------------------------------------

  /** One pair per proposer, in input order, with distinct proposees covering the
      whole proposee population. */
  ghost predicate PerfectMatching(inst: Instance, pairs: seq<(int, int)>) {
    |pairs| == |inst.proposers|
    && (forall i :: 0 <= i < |pairs| ==> pairs[i].0 == inst.proposers[i] && pairs[i].1 in inst.proposees)
    && (forall a, b :: 0 <= a < b < |pairs| ==> pairs[a].1 != pairs[b].1)
    && (forall q :: q in inst.proposees ==> exists h :: 0 <= h < |pairs| && pairs[h].1 == q)
  }

  /** Proposer `i` and proposee `j`, whose partner is proposer `h`, block the pairing:
      `i` ranks `j` before its own partner, and `j` ranks `i` at a greater index than `h`. */
  ghost predicate Blocks(inst: Instance, pairs: seq<(int, int)>, i: nat, j: nat, h: nat)
    requires i < |pairs| && i < |inst.proposerPrefs| && i < |inst.proposers|
    requires j < |inst.proposees| && j < |inst.proposeePrefs| && h < |inst.proposers|
  {
    IndexOf(inst.proposerPrefs[i], inst.proposees[j]) < IndexOf(inst.proposerPrefs[i], pairs[i].1)
    && IndexOf(inst.proposeePrefs[j], inst.proposers[i]) > IndexOf(inst.proposeePrefs[j], inst.proposers[h])
  }

  /** The doc comment's promise: a perfect matching with no blocking pair. */
  ghost predicate Stable(inst: Instance, pairs: seq<(int, int)>) {
    WellFormed(inst) && PerfectMatching(inst, pairs)
    && forall i, j, h ::
         (0 <= i < |pairs| && 0 <= j < |inst.proposees| && 0 <= h < |pairs| && pairs[h].1 == inst.proposees[j])
         ==> !Blocks(inst, pairs, i, j, h)
  }
}
