# Stable marriage: a verified model of `marry`

This project models the stable-marriage engine of a small Rust program. The engine is the
function `marry` (src/main.rs:108-215). It wraps every entity in an `MIContainer` record
(src/main.rs:19-26) and draws a random ranking for each entity with
`Person::generate_preferences` (src/main.rs:52-64). It then runs rounds of deferred acceptance.
In each round, every free proposer proposes to the proposee at its cursor. The proposee
accepts, swaps partners, or rejects. Afterwards every rejected or displaced proposer
moves its cursor on by one. The rounds stop when one of them leaves nobody unmatched.
The output pairs each proposer, in input order, with the proposee at its cursor.

Entities are distinct integers. The `MIContainer` record becomes the datatype
`Matching.Container`. The engine's two vectors of containers become two
`array<Container>` that the methods of `Engine` update in place. The `unmatched` list and
the output list are sequences.

The model has six modules:
- `Sequences`: first-occurrence search, distinctness and pigeonhole facts.
- `Preferences`: the preference generator. Its random index draws are an oracle sequence
  `choices`, and every result holds for every valid choice sequence.
- `Matching`: the state and the specification functions:
  - `ProposeStep` is one proposer's turn (lines 153-186);
  - `ProposeFrom` is the rest of a pass of turns, from turn `k` on (lines 151-188);
  - `AdvanceOne` and `AdvanceAll` are the cursor advances (lines 196-205);
  - `RunRound` is one iteration of the outer loop: a pass, then the advances (lines 148-206);
  - `Settle` runs rounds until one leaves nobody pending, and `Outcome` is `Settle` from
    the initial containers (lines 113-208);
  - `Core` is the engine's invariant;
  - `Stable` is the promised result.
- `MatchingProofs`: the lemmas that each step keeps the invariant, that cursors stay in
  bounds, that the loop's rounds reach `Outcome`, and that the final state is a stable
  perfect matching.
- `Engine`: the imperative engine. Each method's new arrays are stated as a step function
  of the old ones: `Propose` as `ProposeStep`, `ProposeRound` as `ProposeFrom`, `Advance`
  as `AdvanceAll`, `Round` as `RunRound`. `RunRounds` records its rounds as a list of states,
  each the `RunRound` of the one before. So the result of `MarryWithPreferences` is read
  off `Outcome`, and it is also a stable perfect matching.
- `Scenarios`: small fixed instances worked out from the engine's contract.

Because nothing is random in the model, every result holds for the given rankings and
draws.

**Proposee order.** Proposers treat index 0 of their list as best: they walk their list
upward, one rejection at a time. Proposees do the opposite. The swap test at
src/main.rs:174 is `i.position < rank`, so a held proposee switches to a new proposer
whose index in its own list is greater than its current holder's. The model follows the
code. Accordingly, `Matching.Blocks` says a proposee prefers the proposer at the greater
index.

The usual convention of the stable-marriage problem is "best choice first" on both
sides. Take proposers A1, A2 that both rank B1 before B2, proposee B1 ranking A2 before
A1, and B2 ranking A1 before A2 (`Scenarios.TwoByTwo` writes A1, A2 as 1, 2 and B1, B2
as 11, 12). Under that convention the answer is A1-B2, A2-B1. Under the
code's comparison that answer has a blocking pair (A1 and B1).
`Scenarios.TwoByTwoOnlyStable` proves that the code's only stable answer is A1-B1, A2-B2,
and `Scenarios.RunTwoByTwo` proves that the engine returns it.

Stability alone does not fix the answer. On the crossed instance (`Scenarios.Crossed`)
both pairings are stable, as `CrossedFirstChoicesStable` and `CrossedSecondChoicesStable`
prove. `Scenarios.RunCrossed` proves that the engine returns the first one, because its
result is `Outcome`.

## Model

| member | source | states |
|---|---|---|
| Preferences.GeneratePreferences | src/main.rs:52-64 | For every valid draw sequence, the loop returns the ranking `RemovalOrder(list, choices)`. The result has the input's length and is a permutation of the input. The input is a value and is left unchanged. |
| Preferences.Without | src/main.rs:60 | `Vec::remove`: removing the element at a valid index leaves a list one shorter. |
| Preferences.WithoutMultiset | src/main.rs:60 | The removed element together with the rest is exactly the multiset of the list, so removal loses and adds nothing. |
| Preferences.RemovalOrder | src/main.rs:58-61 | The removal order drawn from a list has the list's length whatever the valid draws are. `RemovalOrderPermutes` proves it is a permutation. |
| Preferences.RemovalOrderPermutes | src/main.rs:58-61 | Whatever the draws, the ranking holds each candidate exactly as often as the input list does. |
| Preferences.EveryOrderReachable | src/main.rs:58-61 | Every permutation of the candidates is produced by some valid draw sequence. |
| Preferences.DifferentDrawsDifferentOrders | src/main.rs:58-61 | For candidates without repetitions, different draws give different rankings. With `EveryOrderReachable`, draws and rankings correspond one to one. |
| Preferences.ChoicesFor | src/main.rs:58-61 | Builds, for any permutation `r` of the list, draws that are valid and make the generator output `r`. |
| Matching.ItemIndex | src/main.rs:155-157 | The proposee search returns the index of the first container with the item, or the length when there is none. |
| Matching.RankFor | src/main.rs:158-166 | When the proposer occurs in the list, the rank is an index holding it, and no earlier index holds it. When it does not occur, the rank is `i32::MAX`. |
| Matching.ProposeStep | src/main.rs:153-186 | One turn keeps both container lists at their lengths. It appends at most one entry to `unmatched` and keeps the entries already there. |
| Matching.AdvanceOne | src/main.rs:198-203 | Advancing one entry keeps the length, every item and every list. Containers whose item is not the entry are unchanged. |
| Matching.AdvanceAll | src/main.rs:196-205 | Advancing all entries keeps the length, every item and every list. Containers whose item is not in `unmatched` are unchanged. `AdvanceAllEffect` gives the rest. |
| Matching.InitialContainers | src/main.rs:113-130 | The fresh `MIContainer` records (src/main.rs:19-26): one per entity in input order, each free, with cursor 0, the entity's item and its ranking. |
| Matching.Marriages | src/main.rs:210-214 | One pair per proposer, in order. Each pair is the proposer's item and an entry of its own ranking. |
| Engine.FindContainer | src/main.rs:155-157 | The linear search over an array of containers returns the first index whose item is `x`, or the array length. It agrees with `ItemIndex`. The same search serves the advance at lines 198-199. |
| Engine.LookUpRank | src/main.rs:158-166 | The rank is the index of the first occurrence of the proposer in the proposee's list when it occurs. Otherwise it is `i32::MAX`. |
| Engine.Propose | src/main.rs:153-186 | Proposer `k`'s turn changes the two arrays and the `unmatched` list exactly as `ProposeStep` says. This covers the paths where the proposer is engaged, the target is free, a swap happens, the proposer is rejected, or no container carries the target. |
| MatchingProofs.ProposalOutcome | src/main.rs:153-183 | Under the invariant, turn `k` has four outcomes, stated in terms of the instance. An engaged proposer changes nothing. A free target accepts and stores the proposer's index in its own list. A held target whose stored rank is smaller swaps, and the former holder is pushed. Otherwise the proposer is pushed, and its rank is strictly below the stored one. |
| MatchingProofs.ProposeMatched | src/main.rs:153 | An engaged proposer's turn leaves the state unchanged and keeps the round invariant. |
| MatchingProofs.ProposeToFree | src/main.rs:167-172 | A free target accepts: both become engaged, the target's position becomes the proposer's index in its list, and the invariant holds with one more proposer visited. |
| MatchingProofs.ProposeAndDisplace | src/main.rs:173-179 | The target swaps to the new proposer when the new proposer's rank is strictly greater. The former holder, `preference_list[position]`, is pushed to `unmatched`. The stored rank becomes the new rank, and the invariant is kept. |
| MatchingProofs.ProposeRejected | src/main.rs:180-183 | Otherwise the proposer is pushed to `unmatched`, and neither container list changes. |
| MatchingProofs.ProposeStepKeeps | src/main.rs:151-188 | Every turn keeps the round invariant. Each visited proposer is engaged or pending, and all hold/rejection facts stay true. |
| MatchingProofs.ProposeStepMonotone | src/main.rs:168-179 | A turn moves no cursor. A held proposee stays held, and its stored position never decreases. |
| MatchingProofs.ProposeFromFrame | src/main.rs:151-188 | The rest of a pass keeps the number of proposers and every cursor. Held proposees stay held with ranks that do not go down. |
| Engine.ProposeRound | src/main.rs:151-188 | After one pass over the proposers, the arrays and the `unmatched` list are `ProposeFrom` of the state at the start of the pass. The invariant holds with that list. Every cursor is unchanged, and held proposees stay held with ranks that did not go down. |
| Engine.Advance | src/main.rs:196-205 | The advance loop changes the proposer array exactly as `AdvanceAll` does. |
| MatchingProofs.AdvanceAllEffect | src/main.rs:193-205 | Each proposer named in `unmatched` has its cursor incremented by exactly one and its flag cleared. Every other container is unchanged. |
| MatchingProofs.CursorStaysInList | src/main.rs:200 | A pending proposer's cursor plus one is still inside its list, so the indexing at lines 157 and 211 stays in bounds. The proof is by pigeonhole: the proposees at and below the cursor are held by distinct other proposers. |
| MatchingProofs.AdvanceAllKeeps | src/main.rs:193-205 | Advancing every pending proposer restores the invariant with nobody pending. The sum of the cursors grows by the number advanced. |
| MatchingProofs.PendingBound | src/main.rs:149 | The `unmatched` list of a round names distinct proposers, so it is no longer than the population. |
| MatchingProofs.InitialCore | src/main.rs:113-130 | The freshly built containers satisfy the invariant, and every cursor is at 0. |
| MatchingProofs.CursorSumBound | src/main.rs:147-208 | Under the invariant the cursors sum to at most `n * (n - 1)`. This bounds the total number of advances. |
| Engine.Round | src/main.rs:148-206 | One iteration of the outer loop leaves the arrays as `RunRound` of the old arrays. `complete` holds exactly when that round leaves nobody pending, and exactly when no cursor advanced. The invariant is kept, and proposees stay monotone. A complete round leaves every proposer engaged. Otherwise the cursor sum grows by the number advanced. |
| Engine.TrackedRound | src/main.rs:148-206 | The same round, recorded: the list of states gains one entry, the `RunRound` of its last one. The list still ends in the arrays, and it is complete exactly when the round is. |
| MatchingProofs.RoundsSoFarExtend | src/main.rs:148-206 | Appending the round run on the current arrays to a list of rounds that is not yet complete gives a list of rounds ending in the new arrays. It is complete exactly when the new round leaves nobody pending. |
| Engine.RunRounds | src/main.rs:144-208 | The loop terminates with every proposer engaged. The states it passes through begin with the initial arrays. Each state is `RunRound` of the one before. Every round but the last leaves someone pending, and the last leaves nobody, in the final arrays. There are at most `n * (n - 1)` cursor advances and at most that many rounds plus one. Empty input takes exactly one round. Held proposees stay held throughout. |
| MatchingProofs.TrajectorySettles | src/main.rs:144-208 | Take a list of rounds, each `RunRound` of the one before. If every round but the last leaves someone pending, the last leaves nobody, and the fuel covers the rounds, then `Settle` from the first state ends in the last. |
| MatchingProofs.OutcomeReached | src/main.rs:113-208 | A complete list of rounds from the initial containers, within `n * (n - 1)` rounds after the first, ends in `Outcome`. |
| Engine.CollectMarriages | src/main.rs:210-214 | The output has one pair per proposer, in input order. Each pair is `(item, preference_list[position])`. |
| MatchingProofs.FinalTargets | src/main.rs:210-214 | At the end, distinct proposers get distinct proposees, and every proposee is taken. |
| MatchingProofs.NoBlockingPair | src/main.rs:174 | The final pairing has no blocking pair under the code's order. Take any proposer `i` and any proposee `j` paired with `h`. Then `i` does not rank `j` before its own partner, or `j` does not rank `i` at a greater index than `h`. |
| MatchingProofs.FinalIsStable | src/main.rs:103-107 | Once every proposer is engaged under the invariant, the pairs read off the cursors form a stable perfect matching. This is the doc comment's promise. |
| Engine.Setup | src/main.rs:113-140 | Builds fresh, distinct arrays with one container per entity, in input order. Each container is free, with cursor 0, the entity's item and its ranking. Both arrays are the `InitialContainers` of their population, and they satisfy the invariant. |
| Engine.NewContainers | src/main.rs:113-140 | A fresh array of one container per entity, in input order. Each container is free, with cursor 0, the entity's item and ranking. It equals `InitialContainers`. |
| Engine.Finish | src/main.rs:209-214 | The collected pairs are the marriages read off the cursors, and they are stable. |
| Engine.MarryWithPreferences | src/main.rs:108-215 | On valid input (equal sizes, distinct items, every list a permutation of the other side) the result is the pairing read off `Outcome`, where nobody is pending. It is a stable perfect matching: each proposer, in order, gets a distinct proposee, and there is no blocking pair. There are at most `n * (n - 1)` advances and at most that many rounds plus one. Empty input gives `[]` after one round. |
| Engine.GenerateAll | src/main.rs:133-140 | One ranking is drawn per entity, and each is the generator's output for that entity's draws. |
| Engine.Marry | src/main.rs:108-215 | The whole `marry`: for every valid draw, the rankings are the generator's outputs. The result is the pairing read off `Outcome` for them, and it is stable. |
| Scenarios.TwoByTwoOnlyStable | src/main.rs:174 | For the two-by-two instance, the only stable pairing under the code's order is 1-11, 2-12. |
| Scenarios.RunTwoByTwo | src/main.rs:108-215 | The engine returns 1-11, 2-12 on that instance. |
| Scenarios.CrossedFirstChoicesStable | src/main.rs:174 | On the crossed instance, pairing every proposer with its first choice is stable under the code's order. |
| Scenarios.CrossedSecondChoicesStable | src/main.rs:174 | On the same instance, the other pairing, 1-12 and 2-11, is stable too. |
| Scenarios.CrossedOutcome | src/main.rs:144-214 | On the crossed instance, one round settles with both proposers accepted by their first choices, and the pairs are 1-11, 2-12. |
| Scenarios.RunCrossed | src/main.rs:108-215 | The engine returns 1-11, 2-12 on the crossed instance. |
| Scenarios.RunSingle | src/main.rs:108-215 | With one entity on each side, the sole proposer is paired with the sole proposee. |
| Scenarios.RunEmpty | src/main.rs:147-149 | Empty populations give the empty pairing. |

## Left out

- `main` (src/main.rs:70-100) and `get_lists` (src/main.rs:218-234) are file reading and printing. They are input/output glue and are not modelled.
- `thread_rng` and `gen_range` (src/main.rs:56, 59) are the foreign random source. They are replaced by the oracle `choices`, with draw `t` below `len - t`. Uniformity of the draws is outside the model. `DifferentDrawsDifferentOrders` and `EveryOrderReachable` only show that draws and rankings correspond one to one.
- The `MarriageItem`/`Hash` trait plumbing and `Person::new` (src/main.rs:12-16, 29-48) are replaced by concrete integer entities. The generator is generic; the engine works on `int`.
- Malformed input is excluded by the `Valid` precondition of `Engine.MarryWithPreferences`, and likewise for `Engine.Marry`. Malformed means unequal sizes, duplicate items, or a list that is not a permutation of the other side. On such input the code may panic at the indexing of line 157, or it may return a pairing that is not a stable perfect matching. `Valid` excludes both. `Engine.LookUpRank` and `Matching.ProposeStep` still model the `i32::MAX` rank. Under the precondition it is never stored.
- `Matching.ProposeFrom` ends a pass at a turn whose indexing would be out of bounds, where the code would panic. `MatchingProofs.ProposeStepKeeps` shows that this never happens under the invariant. `Matching.Settle` takes a fuel bound, and `Outcome` gives it `n * (n - 1)`. `MatchingProofs.OutcomeReached` proves that bound is enough for the loop.
- Engine.LookUpRank: does not model the `x as i32` truncation (src/main.rs:163). That truncation only matters for lists longer than 2^31 - 1 entries. Likewise, `rank as usize` is taken as the exact value, and `p.position + 1` (src/main.rs:200) never overflows, since `CursorStaysInList` bounds it by the population size.
- The ghost counters `advances` and `rounds` exist only in the model. The source keeps no such counters.
- Engine.MarryWithPreferences: does not prove proposer optimality, that among all stable matchings this one gives each proposer its best partner. The source's doc comment promises only "one of the most stable pairing configurations". Which stable matching is returned is still fixed: the result is the one read off `Outcome`.
- Ownership and cloning (`clone()` at src/main.rs:53, 113, 123, 134, 139, 177, 182, 211) have no counterpart. Dafny sequences are values, so no input is modified.
