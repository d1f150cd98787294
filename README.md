# Sequential blip bets: a verified model of the game logic

The application is a football betting game. The user builds a *sequence* of
match outcomes ("Ronaldo takes a shot", "a corner for Portugal", ...) and sets
a stake. The sequence then plays out live:

- Outcomes are checked one at a time.
- A hit earns 100 points and moves on to the next outcome.
- A miss costs 50 points, never going below 0. It counts a failed run and
  restarts the whole sequence.
- A full pass pays `stake * product of the odds * (1 + length bonus)`. It is
  counted as a success, and then the sequence starts again.
- This repeats until the three-minute session clock runs out.

A second game is a penalty shootout over the fourteen kicks of the Euro 2004
quarter-final between Portugal and England:

- The user predicts each kick, and the historical result decides it.
- One wrong prediction loses everything.
- Fourteen right predictions pay 25 times the stake.

Around these sit:

- a global bet store: placed bets plus counters of sequence attempts;
- a React context variant of the bet list;
- the lineup lookup for a match;
- the player picker with its team tabs, search and grouping by position.

The Dafny project has one module per source file, plus shared modules:

- `Wrappers`: `Option` and `Result`.
- `Text`: the JavaScript string operations the logic relies on.
- `Outcomes`: the shared records and the reorder `Move`.
- `Payout`: the payout formulas and their properties.
- `Bets`: `PlacedBet` and the list operations shared by the store and the context.

How each kind of source code is modelled:

- **Components that update state step by step are classes.** These are
  `LiveWatching.LiveSession`, `SequenceBuilder.Builder`,
  `PenaltyShootout.Shootout`, `BetStore.Store`, `BetContext.BetProvider` and
  `PlayerSelector.Selector`. Each `useState` that the game logic reads becomes
  a field, and each handler a method. State that only drives the display has
  no field; "## Left out" lists it. A method's `ensures` gives the whole new state through a
  specification function. Where there is one, an invariant `Valid()` is kept.
- **Loops in the source are `while`/`for` loops.** Each is proved equal to a
  functional specification. These are the streak loop, the keyword and term
  scoring loops, the scoring pass over the catalog, and `groupByPosition`.
- **Timers are separate methods.** The session clock, the shootout's decision
  timer, the delayed restart and the delayed move to the next kick each become
  a method you call, for example `Tick`, `TickDecision`, `Restart` and
  `Advance`.
- **Randomness and the clock are parameters.** `Math.random()` and
  `Date.now()` are passed in as `happened`, `picks` and `now`.

The main results:

- **A full pass's payout does not depend on order.** It ignores the order of
  the outcomes, so dragging outcomes around never changes what a pass pays.
  The same holds for a restart.
- **The capped preview never over-promises.** It never promises more than a
  full pass pays, and it pays exactly that when no odd exceeds 5.
- **Stats stay balanced over any history.** The store's counters always
  satisfy `total = successful + failed`, and the totals are given in closed
  form.
- **Search results are the right ones.** They are at most six, all with a
  positive score, sorted best first. Anything left out scores no more than the
  weakest result shown.
- **The shootout is all or nothing.** Its final balance is 25 times the stake
  exactly when every kick was predicted right, and 0 otherwise. After a
  perfect run the scoreboard shows the historical 6–5.

## Model

| member | source | states |
|---|---|---|
| Text.Lower | src/components/SequenceBuilder.tsx:256 | `toLowerCase` keeps the length and lowers each character on its own (ASCII letters only) |
| Text.IndexOf | src/components/SequenceBuilder.tsx:264 | the position found is an occurrence, and no earlier position is one; `None` exactly when the pattern occurs nowhere |
| Text.ContainsIndexOf | src/components/SequenceBuilder.tsx:264 | `includes` holds exactly when `indexOf` finds the pattern, exactly when the pattern occurs at some position |
| Text.ReplaceFirst | src/components/SequenceBuilder.tsx:183-186 | `replace` with a string pattern: unchanged when the pattern is absent, otherwise only the first occurrence is replaced |
| Text.SplitSpaces | src/components/SequenceBuilder.tsx:257 | `split(' ')` gives at least one piece, no piece contains a space, and joining the pieces with single spaces gives the input back, which determines the pieces |
| Text.NatToString | src/components/SequenceBuilder.tsx:190 | the decimal form is a non-empty string of digits, without a leading zero, whose value (`DigitsValue`) is the number |
| Text.IntToString | src/components/SequenceBuilder.tsx:190 | `toString` of an integer: the decimal form of a non-negative one, a minus sign before the decimal form of the magnitude otherwise |
| Text.Utf16Length | src/components/SequenceBuilder.tsx:257 | `length` counts UTF-16 code units: at least the number of characters and at most twice it, and equal to it exactly when no character lies above U+FFFF |
| Text.IsBlank | src/components/SequenceBuilder.tsx:254 | `trim() === ''`: every character is ECMAScript white space or a line terminator, including the Unicode space separators |
| Outcomes.Without | src/components/LiveWatching.tsx:243 | `splice(i, 1)`: one element fewer; those before `i` are kept and those after shift down; the multiset loses exactly that element |
| Outcomes.InsertAt | src/components/LiveWatching.tsx:244 | `splice(i, 0, x)`: `x` sits at `i`; those before are kept and those after shift up; the multiset gains exactly `x` |
| Outcomes.Move | src/components/LiveWatching.tsx:241-244 | a reorder: same length and multiset, the moved outcome sits at the target, outcomes outside the moved range stay put, those inside shift by one |
| Payout.CappedOdds | src/components/SequenceBuilder.tsx:385 | `Math.min(odds, 5)`: never above the cap or the odd, and equal to one of them |
| Payout.Fold | src/components/LiveWatching.tsx:179 | the left-to-right `reduce`; `FoldIsProduct` ties it to the product |
| Payout.FoldIsProduct | src/components/LiveWatching.tsx:179 | the source's `reduce` from `acc` equals `acc` times the recursive product |
| Payout.ProductAppend | src/components/LiveWatching.tsx:179 | the product of a concatenation is the product of the products |
| Payout.ProductPermutation | src/components/LiveWatching.tsx:179 | two sequences that are permutations of each other have the same product of factors |
| Payout.FinalOdd | src/components/LiveWatching.tsx:179 | `finalOdd` is the product of all odds, uncapped |
| Payout.DifficultyMultiplier | src/components/SequenceBuilder.tsx:384-387 | the product of the capped odds; 1 for the empty list |
| Payout.LengthBonus | src/components/LiveWatching.tsx:182-184 | never negative; 0 up to three outcomes; 5% per outcome beyond the third |
| Payout.Profit | src/components/LiveWatching.tsx:187 | `stake * product of the odds * (1 + length bonus)` |
| Payout.PotentialGains | src/components/SequenceBuilder.tsx:394-397 | 0 below three outcomes; otherwise the stake times the capped product times the length factor |
| Payout.PreviewOrderIndependent | src/components/SequenceBuilder.tsx:384-397 | the difficulty multiplier and the preview do not depend on the order of the outcomes |
| Payout.ProfitOrderIndependent | src/components/LiveWatching.tsx:179-187 | the final odd and the profit of a pass do not depend on the order of the outcomes |
| Payout.CappedProductBounds | src/components/SequenceBuilder.tsx:384-387 | with non-negative odds, the capped product lies between 0 and the uncapped one, and equals it when no odd exceeds 5 |
| Payout.PreviewVersusProfit | src/components/SequenceBuilder.tsx:394-397 | with a non-negative stake and odds, the preview never exceeds a full pass's profit, and equals it when no odd exceeds 5 |
| Payout.LengthBonusStep | src/components/SequenceBuilder.tsx:390-391 | a one-step arithmetic fact: each outcome from the fourth on adds exactly 5% |
| Payout.CappedProductPositive | src/components/SequenceBuilder.tsx:384-387 | with positive odds the capped product is positive |
| Payout.ThreeLegProfit | src/components/LiveWatching.tsx:179-187 | a worked example, not a general property: odds 1.4, 1.5 and 1.3 on a stake of 10 pay 27.3 (no bonus) |
| Payout.FiveLegProfit | src/components/LiveWatching.tsx:179-187 | a worked example, not a general property: five odds of 1.2 on a stake of 10 pay 27.37152 (a 10% bonus) |
| Bets.Merge | src/stores/useBetStore.ts:60 | `{ ...bet, ...updates }`: each key the update carries replaces the bet's; `MergeNoChange` and `MergeIdempotent` state its laws |
| Bets.MergeNoChange | src/stores/useBetStore.ts:60 | spreading an update that carries no key leaves the bet as it is |
| Bets.MergeIdempotent | src/stores/useBetStore.ts:60 | applying the same partial update twice is applying it once |
| Bets.UpdateById | src/stores/useBetStore.ts:59-61 | same length; every bet with the id receives the update; every other bet is unchanged |
| Bets.RemoveById | src/stores/useBetStore.ts:66 | a bet is kept exactly when it was there and does not carry the id |
| Bets.RemoveByIdAppend | src/stores/useBetStore.ts:66 | removal works piece by piece, so the kept bets keep their order |
| Bets.RemoveByIdCount | src/stores/useBetStore.ts:66 | exactly as many bets are dropped as carry the id |
| Bets.RemoveAbsentId | src/stores/useBetStore.ts:66 | removing an id that no bet carries changes nothing |
| Bets.UpdateAbsentId | src/stores/useBetStore.ts:59-61 | updating an id that no bet carries changes nothing |
| BetStore.Record | src/stores/useBetStore.ts:71-83 | one attempt adds one to the total; the counters stay balanced |
| BetStore.ReplayTotals | src/stores/useBetStore.ts:71-83 | after any history of attempts: total is attempts, successful is successes, failed is the rest, spent is stakes, earnings are net of stakes; balance is kept |
| BetStore.Store.constructor | src/stores/useBetStore.ts:43-50 | no bets and all counters 0 |
| BetStore.Store.AddBet | src/stores/useBetStore.ts:52-55 | the bet is appended; the counters are unchanged |
| BetStore.Store.UpdateBet | src/stores/useBetStore.ts:57-62 | the list becomes `UpdateById` of the old list; the counters are unchanged |
| BetStore.Store.RemoveBet | src/stores/useBetStore.ts:64-67 | the list becomes `RemoveById` of the old list; the counters are unchanged |
| BetStore.Store.ClearBets | src/stores/useBetStore.ts:69 | the list becomes empty; the counters are unchanged |
| BetStore.Store.RecordSequenceAttempt | src/stores/useBetStore.ts:71-83 | the counters become `Record` of the old ones; the bets are unchanged; balance is kept |
| BetStore.Store.ResetStats | src/stores/useBetStore.ts:85-94 | the counters return to 0; the bets are unchanged |
| BetContext.BetProvider.constructor | src/contexts/BetContext.tsx:26 | the provider starts with no bets |
| BetContext.BetProvider.AddBet | src/contexts/BetContext.tsx:28-30 | the bet is appended |
| BetContext.BetProvider.UpdateBet | src/contexts/BetContext.tsx:32-36 | the list becomes `UpdateById` of the old list |
| BetContext.BetProvider.RemoveBet | src/contexts/BetContext.tsx:38-40 | the list becomes `RemoveById` of the old list |
| BetContext.UseBets | src/contexts/BetContext.tsx:49-55 | the provider exactly when there is one; otherwise the error "useBets must be used within a BetProvider" |
| Players.Tag | src/fixtures/players.ts:1416-1423 | each squad entry, in order, tagged with the side |
| Players.GetMatchPlayers | src/fixtures/players.ts:1391-1438 | both lists are tagged with their side; each of the six known ids gets its own lineup; any other key gets the two fallback squads |
| Players.NumericIdFallsBack | src/fixtures/players.ts:1399-1411 | a numeric key never equals a string id under `===`, so it always gets the fallback squads |
| Players.TeamNamesUnused | src/fixtures/players.ts:1393-1394 | the result does not depend on the team names passed in |
| Players.TagMembers | src/fixtures/players.ts:1429-1436 | tagging keeps every entry in order and tags all of them with the side |
| PlayerSelector.InitialTab | src/components/PlayerSelector.tsx:68-70 | the fixed team filter if given; otherwise `all` with both teams and `player1` without |
| PlayerSelector.KeepSide | src/components/PlayerSelector.tsx:79 | a player is kept exactly when it was there and plays for the side; `KeepSideAppend` pins the order |
| PlayerSelector.KeepSideAppend | src/components/PlayerSelector.tsx:79 | the team filter works piece by piece, so the kept players keep their order and their repeats |
| PlayerSelector.FilterByTeam | src/components/PlayerSelector.tsx:78-82 | a fixed team filter wins over the tab; the `all` tab keeps everyone; a team tab keeps that side |
| PlayerSelector.MatchesQuery | src/components/PlayerSelector.tsx:86-88 | name or position contain the lower-cased query case-insensitively, or the number's decimal form contains the raw query |
| PlayerSelector.Search | src/components/PlayerSelector.tsx:85-89 | a player is kept exactly when its name or position contains the query case-insensitively, or its number's digits contain the raw query; `SearchAppend` pins the order |
| PlayerSelector.SearchAppend | src/components/PlayerSelector.tsx:85-89 | the search works piece by piece, so the matching players keep their order and their repeats |
| PlayerSelector.EmptyQueryKeepsAll | src/components/PlayerSelector.tsx:85-89 | the empty query keeps every player, in order |
| PlayerSelector.KeepPosition | src/components/PlayerSelector.tsx:105-109 | the bucket holds exactly the players with that position |
| PlayerSelector.BucketSizes | src/components/PlayerSelector.tsx:97-112 | the four buckets together hold each player with one of the four positions exactly once |
| PlayerSelector.KeepPositionSnoc | src/components/PlayerSelector.tsx:105-109 | pushing one more player adds it at the end of its own bucket only, so each bucket keeps the order of the list |
| PlayerSelector.GroupByPosition | src/components/PlayerSelector.tsx:97-112 | the loop fills each bucket with exactly the players of that position, in order |
| PlayerSelector.Selector.constructor | src/components/PlayerSelector.tsx:67-70 | empty search, initial tab from `InitialTab`, nothing selected |
| PlayerSelector.Selector.AllPlayers | src/components/PlayerSelector.tsx:72-75 | position by position, team 1's squad tagged `player1`, followed by team 2's squad tagged `player2`, in squad order |
| PlayerSelector.Selector.FilteredPlayers | src/components/PlayerSelector.tsx:77-89 | the search applied to the team step's list, so the order of `AllPlayers` is kept; a player is shown exactly when the team step keeps it and it matches the search |
| PlayerSelector.Selector.SetSearchQuery | src/components/PlayerSelector.tsx:151 | the query is replaced; nothing else changes |
| PlayerSelector.Selector.SelectTab | src/components/PlayerSelector.tsx:161-181 | the tab is replaced; nothing else changes |
| PlayerSelector.Selector.SelectPlayer | src/components/PlayerSelector.tsx:91-95 | the player is handed over, the search is cleared, and closing is requested |
| PlayerSelector.Selector.Grouped | src/components/PlayerSelector.tsx:114 | the buckets of the filtered players |
| SequenceBuilder.Variants | src/components/SequenceBuilder.tsx:334-361 | a team-level template becomes two variants, `-player1` and `-player2`, each with its team's name filled in; any other template stays as it is |
| SequenceBuilder.Expand | src/components/SequenceBuilder.tsx:334-361 | `expandedTemplates`: the variants of each catalog entry, in catalog order; `ExpandLength` and `ExpandMembers` state its size and contents |
| SequenceBuilder.ExpandLength | src/components/SequenceBuilder.tsx:334-361 | expansion adds exactly one entry per team-level template |
| SequenceBuilder.ExpandMembers | src/components/SequenceBuilder.tsx:334-361 | an entry is offered exactly when it is a variant of some catalog template |
| SequenceBuilder.VariantsKeepTerms | src/components/SequenceBuilder.tsx:340-357 | variants keep category, odds, time limit and player selection |
| SequenceBuilder.FindTemplate | src/components/SequenceBuilder.tsx:214 | a template found is in the catalog with that id; `None` exactly when no template has the id |
| SequenceBuilder.BuilderOutcome | src/components/SequenceBuilder.tsx:178-196 | a pending outcome; the id is the template id and the clock; the player's odds modifier is added; the name is filled in only for a player-level template with a player |
| SequenceBuilder.DropId | src/components/SequenceBuilder.tsx:208 | an outcome is kept exactly when it was there and does not carry the id |
| SequenceBuilder.DropIdAppend | src/components/SequenceBuilder.tsx:208 | removal works piece by piece, so the kept outcomes keep their order |
| SequenceBuilder.DropAbsentId | src/components/SequenceBuilder.tsx:208 | removing an absent id changes nothing |
| SequenceBuilder.PresetOutcome | src/components/SequenceBuilder.tsx:217-232 | a pending outcome with the template's category, odds and time limit, the id `template-now-index`, and the description with `{player1}`, `{player2}` and then `{playerName}` (the coin's team) replaced at their first occurrence |
| SequenceBuilder.LoadFrom | src/components/SequenceBuilder.tsx:211-234 | at most one outcome per preset id; all of them are pending with no result |
| SequenceBuilder.KnownPositionsExact | src/components/SequenceBuilder.tsx:213-215 | the known positions are increasing and are exactly the positions whose id names a catalog entry |
| SequenceBuilder.LoadKnown | src/components/SequenceBuilder.tsx:211-234 | for any preset, one outcome per known id: the `i`-th outcome is made from the `i`-th known id with its own position, coin and clock reading; unknown ids are dropped and the order is kept |
| SequenceBuilder.LoadAllKnown | src/components/SequenceBuilder.tsx:211-234 | when every id is known, the outcomes follow the preset's order, position by position |
| SequenceBuilder.FindIndex | src/components/SequenceBuilder.tsx:244-245 | `findIndex`: the first position with the id; `None` (for -1) exactly when no outcome has it |
| SequenceBuilder.Keywords | src/components/SequenceBuilder.tsx:257 | the keywords are exactly the pieces of `split(' ')` whose `length`, in UTF-16 code units, exceeds two |
| SequenceBuilder.KeywordsCount | src/components/SequenceBuilder.tsx:257 | a piece longer than two UTF-16 code units is a keyword as often as it is a piece, and a shorter one never |
| SequenceBuilder.LongWords | src/components/SequenceBuilder.tsx:257 | the keywords are exactly the query words longer than two UTF-16 code units |
| SequenceBuilder.LongWordsAppend | src/components/SequenceBuilder.tsx:257 | the filter works piece by piece, so the keywords keep the order of the query |
| SequenceBuilder.LongWordsCount | src/components/SequenceBuilder.tsx:257 | a long word is kept as often as it occurs, and a short one never |
| SequenceBuilder.KeywordsPointsSnoc | src/components/SequenceBuilder.tsx:257-270 | one more query word longer than two UTF-16 code units adds its own points, even when the same word came earlier, so "goal goal" scores "goal" twice |
| SequenceBuilder.KeywordPoints | src/components/SequenceBuilder.tsx:266-270 | one keyword earns 20 in the description, 15 in the category and 10 in the id; `ScoreKeywords` is proved against it |
| SequenceBuilder.FragmentPoints | src/components/SequenceBuilder.tsx:304-306 | 25 per fragment found in the id; `ScoreFragments` is proved against it |
| SequenceBuilder.TermsPoints | src/components/SequenceBuilder.tsx:286-308 | the table entries visited in order, each term found in the query adding its fragment points; `ScoreTerms` is proved against it |
| SequenceBuilder.HintsTeam1 | src/components/SequenceBuilder.tsx:272-277 | the query names Portugal or team 1 |
| SequenceBuilder.HintsTeam2 | src/components/SequenceBuilder.tsx:278-284 | the query names Ireland, Armenia or team 2 |
| SequenceBuilder.Score | src/components/SequenceBuilder.tsx:259-311 | 100 for the whole query in the description, the keyword points, 30 per team hint on a matching variant, and the term points; `ScoreTemplate` is proved against it |
| SequenceBuilder.FullMatchScores | src/components/SequenceBuilder.tsx:264 | a description containing the whole query scores at least 100 |
| SequenceBuilder.ScoreKeywords | src/components/SequenceBuilder.tsx:266-270 | the loop adds 20, 15 and 10 per keyword found in the description, category and id |
| SequenceBuilder.ScoreFragments | src/components/SequenceBuilder.tsx:304-306 | the loop adds 25 per id fragment found in the template id |
| SequenceBuilder.ScoreTerms | src/components/SequenceBuilder.tsx:286-308 | the loop over the 13-entry term table adds the fragment points of each term found in the query |
| SequenceBuilder.ScoreTemplate | src/components/SequenceBuilder.tsx:259-311 | the scoring callback computes the template's relevance `Score` |
| SequenceBuilder.ScoreAll | src/components/SequenceBuilder.tsx:259 | the `map` over the expanded templates yields exactly one scored entry per template |
| SequenceBuilder.ScoreAllAt | src/components/SequenceBuilder.tsx:259-311 | each position of the scored pool pairs the template there with its score |
| SequenceBuilder.ScorePool | src/components/SequenceBuilder.tsx:259-311 | the loop pairs every expanded template with its score, in order |
| SequenceBuilder.Positive | src/components/SequenceBuilder.tsx:314 | exactly the candidates with a positive score are kept |
| SequenceBuilder.InsertByScore | src/components/SequenceBuilder.tsx:315 | insertion adds exactly the candidate |
| SequenceBuilder.InsertSorted | src/components/SequenceBuilder.tsx:315 | insertion keeps a best-first list best-first |
| SequenceBuilder.SortByScore | src/components/SequenceBuilder.tsx:315 | the sort is a permutation of its input, best score first |
| SequenceBuilder.TopCandidates | src/components/SequenceBuilder.tsx:313-316 | filter, sort and slice; `TopCandidatesSound` and `TopCandidatesComplete` state what it returns |
| SequenceBuilder.TopCandidatesSound | src/components/SequenceBuilder.tsx:313-317 | at most six results, each from the pool with a positive score, best first |
| SequenceBuilder.TopCandidatesComplete | src/components/SequenceBuilder.tsx:313-317 | a positive candidate is left out only when six are shown, and then it scores no more than the sixth |
| SequenceBuilder.Templates | src/components/SequenceBuilder.tsx:317 | the templates of the candidates, in order |
| SequenceBuilder.SearchResults | src/components/SequenceBuilder.tsx:256-317 | the templates of the top candidates of the scored pool, for the lower-cased query |
| SequenceBuilder.PreviewPositive | src/components/SequenceBuilder.tsx:394-397 | a placeable bet with positive odds previews a positive payout |
| SequenceBuilder.Builder.constructor | src/components/SequenceBuilder.tsx:146 | no outcomes, stake 0, no search results shown |
| SequenceBuilder.Builder.AddOutcome | src/components/SequenceBuilder.tsx:178-197 | the outcome `BuilderOutcome` is appended; nothing else changes |
| SequenceBuilder.Builder.RemoveOutcome | src/components/SequenceBuilder.tsx:207-209 | the list becomes `DropId` of the old list; nothing else changes |
| SequenceBuilder.Builder.LoadSequence | src/components/SequenceBuilder.tsx:211-237 | the preset replaces the list with `LoadFrom`, one outcome per known id in preset order (`LoadKnown`), with one coin and one clock reading per id; nothing else changes |
| SequenceBuilder.Builder.HandleDragEnd | src/components/SequenceBuilder.tsx:239-250 | no change without a target or on a drop onto itself; otherwise the dragged outcome moves to the target's position |
| SequenceBuilder.Builder.HandleChatSearch | src/components/SequenceBuilder.tsx:252-321 | a blank query changes nothing; otherwise the results are the top scored expanded templates and they are shown |
| SequenceBuilder.Builder.OnStakeChange | src/components/SequenceBuilder.tsx:427-432 | a positive entry is stored; an emptied field stores 0; anything else is ignored |
| SequenceBuilder.Builder.OnStakeBlur | src/components/SequenceBuilder.tsx:433-438 | leaving the field with no positive number resets the stake to 0; otherwise it is kept |
| SequenceBuilder.Builder.Submit | src/components/SequenceBuilder.tsx:880-882 | the list is handed over exactly when it has at least three outcomes and the stake is positive |
| SequenceBuilder.Builder.PotentialGains | src/components/SequenceBuilder.tsx:394-397 | the capped preview of the current list and stake |
| LiveWatching.FirstPending | src/components/LiveWatching.tsx:105-106 | `find(pending)`: the first pending position; `None` exactly when nothing is pending |
| LiveWatching.MarkChecking | src/components/LiveWatching.tsx:109-111 | outcomes with the id go to checking with all else kept; the others are unchanged |
| LiveWatching.Resolve | src/components/LiveWatching.tsx:133-137 | outcomes with the id become success or failed as `happened` says, with result `happened`; the others are unchanged |
| LiveWatching.ResetAll | src/components/LiveWatching.tsx:156-162 | every outcome is back to pending with no result; everything else is kept |
| LiveWatching.MarkCheckingDistinct | src/components/LiveWatching.tsx:109-111 | with distinct ids, only the selected outcome changes |
| LiveWatching.ResolveDistinct | src/components/LiveWatching.tsx:133-137 | with distinct ids, only the resolved outcome changes |
| LiveWatching.ResetAllStartsOver | src/components/LiveWatching.tsx:154-166 | after a restart the first outcome is the next to be checked |
| LiveWatching.ToResult | src/components/LiveWatching.tsx:93-98 | the history line of one outcome, with `correct` false when there is no result |
| LiveWatching.History | src/components/LiveWatching.tsx:91-98 | the history is no longer than the sequence |
| LiveWatching.HistoryAppend | src/components/LiveWatching.tsx:91-98 | the history of a concatenation is the concatenation of the histories |
| LiveWatching.HistoryMembers | src/components/LiveWatching.tsx:91-98 | a line is in the history exactly when some settled outcome produced it |
| LiveWatching.HistoryOfUnsettled | src/components/LiveWatching.tsx:91-98 | with nothing settled, the history is empty |
| LiveWatching.HistoryOfFullPass | src/components/LiveWatching.tsx:91-98 | after a full pass, every outcome is reported, in order, as correct with its odds |
| LiveWatching.MoveKeepsPayout | src/components/LiveWatching.tsx:241-244 | a drag reorder never changes what a full pass pays |
| LiveWatching.ResetKeepsPayout | src/components/LiveWatching.tsx:156-162 | a restart never changes the product of the odds |
| LiveWatching.SettledPrefix | src/components/LiveWatching.tsx:313-322 | the length of the leading run of settled outcomes, which is where the streak loop stops |
| LiveWatching.AfterMiss | src/components/LiveWatching.tsx:144 | `Math.max(0, p - 50)` is never negative and never more than the points before |
| LiveWatching.OutcomeId | src/components/LiveWatching.tsx:284 | the id is the template id, a dash and the clock reading |
| LiveWatching.LiveOutcome | src/components/LiveWatching.tsx:271-290 | a pending outcome with the template's odds; the match names are filled in, then the player's name if one is given |
| LiveWatching.LiveSession.constructor | src/components/LiveWatching.tsx:44-55 | the given sequence, no winnings, no points, no counters, 180 seconds on the clock |
| LiveWatching.LiveSession.ProcessNextOutcome | src/components/LiveWatching.tsx:103-126 | nothing changes when nothing is pending; otherwise the first pending outcome is returned and marked checking by its id, and alone with distinct ids |
| LiveWatching.LiveSession.ResolveOutcome | src/components/LiveWatching.tsx:128-219 | the outcome is settled and points updated; a miss counts a failed run, records it in the store and restarts; a full pass adds the profit, counts a success, records it and restarts; otherwise the next outcome is processed |
| LiveWatching.LiveSession.Restart | src/components/LiveWatching.tsx:154-162 | the delayed restart resets every outcome; nothing else changes |
| LiveWatching.LiveSession.Tick | src/components/LiveWatching.tsx:75-81 | the clock loses one second and stops at 0; nothing else changes |
| LiveWatching.LiveSession.CompletionReport | src/components/LiveWatching.tsx:88-101 | a report exactly when the clock reads 0: the history, the winnings and the points |
| LiveWatching.LiveSession.DragStart | src/components/LiveWatching.tsx:221-225 | only a pending outcome can be picked up |
| LiveWatching.LiveSession.DragOver | src/components/LiveWatching.tsx:227-248 | a pending outcome dragged over another pending one moves there and stays the dragged one; otherwise nothing changes |
| LiveWatching.LiveSession.DragEnd | src/components/LiveWatching.tsx:250-252 | nothing is dragged any more; nothing else changes |
| LiveWatching.LiveSession.AddOutcome | src/components/LiveWatching.tsx:271-294 | the outcome `LiveOutcome` is appended; nothing else changes |
| LiveWatching.LiveSession.CurrentStreak | src/components/LiveWatching.tsx:313-322 | the streak is the run of hits just before the first unsettled outcome, preceded by a miss when shorter than that settled run |
| PenaltyShootout.ScriptKick | src/components/PenaltyShootout.tsx:33-132 | the kicks have ids 1 to 14, England kicks first and the teams alternate, and each kick starts unplayed; player names are the literals as written |
| PenaltyShootout.Reveal | src/components/PenaltyShootout.tsx:190-201 | the kick is completed with its historical result and judged correct exactly when the prediction matches |
| PenaltyShootout.GoalsUpdate | src/components/PenaltyShootout.tsx:205-212 | replacing one kick changes the score by that kick alone |
| PenaltyShootout.LostCorrectCount | src/components/PenaltyShootout.tsx:261 | a game lost at kick i counts i correct: the earlier kicks were won and the later ones never judged |
| PenaltyShootout.AllWonCorrectCount | src/components/PenaltyShootout.tsx:261 | when every kick is won, the correct count is the number of kicks |
| PenaltyShootout.RevealedGoals | src/components/PenaltyShootout.tsx:205-212 | once every kick is revealed, the scoreboard equals the historical score |
| PenaltyShootout.KicksAt | src/components/PenaltyShootout.tsx:138-155 | during a game, every earlier kick is won and every later one is untouched |
| PenaltyShootout.UpdateCurrentKick | src/components/PenaltyShootout.tsx:176-182 | recording the prediction or result of the current kick keeps that shape |
| PenaltyShootout.NextKick | src/components/PenaltyShootout.tsx:237-245 | moving past a won kick keeps that shape, and the next kick is still unplayed |
| PenaltyShootout.HistoricalPortugalGoals | src/components/PenaltyShootout.tsx:33-132 | the script gives Portugal six goals |
| PenaltyShootout.HistoricalEnglandGoals | src/components/PenaltyShootout.tsx:33-132 | the script gives England five goals |
| PenaltyShootout.ScriptFacts | src/components/PenaltyShootout.tsx:33-138 | fourteen unplayed kicks, no goals yet, and a valid start of a game |
| PenaltyShootout.RevealStep | src/components/PenaltyShootout.tsx:188-230 | revealing the watched kick loses the stake on a wrong prediction, pays 25 times after a right last one, and otherwise keeps the balance |
| PenaltyShootout.Shootout.constructor | src/components/PenaltyShootout.tsx:138-152 | the script, the first kick, 10 seconds, setup phase, no money and no goals |
| PenaltyShootout.Shootout.StartGame | src/components/PenaltyShootout.tsx:274-282 | a positive amount becomes the stake and the balance, with 25 times it as potential winnings, and deciding starts; anything else changes nothing |
| PenaltyShootout.Shootout.Predict | src/components/PenaltyShootout.tsx:170-186 | only the first prediction per kick counts: it is recorded, the kick becomes active, and watching starts |
| PenaltyShootout.Shootout.TickDecision | src/components/PenaltyShootout.tsx:158-168 | the timer counts down while the user decides, nothing else changing; at 0 without a decision it predicts "will score", the timer staying at 0 and everything but the kick, the flag and the phase kept; in any other state nothing changes |
| PenaltyShootout.Shootout.SimulatePenaltyResult | src/components/PenaltyShootout.tsx:188-257 | only while a kick is being watched and not shown: the kick is revealed, the scorer's team gains a goal, and the money follows the verdict |
| PenaltyShootout.Shootout.RevealCurrent | src/components/PenaltyShootout.tsx:188-230 | the kick is revealed and counted, and the result is shown |
| PenaltyShootout.Shootout.Settle | src/components/PenaltyShootout.tsx:214-230 | the result is shown with the money the verdict leaves |
| PenaltyShootout.Shootout.RevealKick | src/components/PenaltyShootout.tsx:190-212 | the kick is revealed and the scoreboard counts it; nothing else changes |
| PenaltyShootout.Shootout.Advance | src/components/PenaltyShootout.tsx:232-246 | after a miss or the last kick the game is finished and every other field is kept; otherwise the next kick is current, with a fresh 10 seconds, the flags cleared and the kicks, money and scores kept |
| PenaltyShootout.Shootout.FinalReport | src/components/PenaltyShootout.tsx:259-266 | the reported balance is 25 times the stake exactly when every kick was won, and 0 otherwise; 0 exactly when lost; 14 kicks; a perfect run counts 14 correct and shows the historical score; a game lost at kick i reports i correct |
| PenaltyShootout.PerfectRun | src/components/PenaltyShootout.tsx:259-266 | a perfect run counts every kick correct and shows the historical score |
| PenaltyShootout.NoGoalsBeforeKicks | src/components/PenaltyShootout.tsx:147-148 | before any kick is played, both scores are 0 |

## Left out

- Rendering, icons, toasts, navigation callbacks (`onBack`) and the preset/category UI are display only and not modelled.
- State that only drives the display has no field: `chatInput`, `suggestionTab`, `showPlayerSelector`, `pendingTemplate` and `expandedCategories` (src/components/SequenceBuilder.tsx:126-142), `showAddMenu`, `showPlayerSelector` and `pendingTemplate` (src/components/LiveWatching.tsx:48-51), and `betAmount` (src/components/PenaltyShootout.tsx:143). The chat text and the parsed bet amount are parameters of `HandleChatSearch` and `StartGame` instead.
- Timers (`setTimeout`, `setInterval`) are explicit methods the caller invokes in the intended order. Cancelling timers on unmount and the per-outcome countdown are not modelled.
- `Math.random()` is a parameter: `happened` in `ResolveOutcome` and `picks` in `LoadSequence`. `Date.now()` is the parameter `now`. `loadSequence` reads the clock once for each id, so it takes one reading per preset position (`nows`).
- React's state batching and stale closures are not modelled. Each handler works on the latest state.
- Zustand's `persist` to `localStorage` (src/stores/useBetStore.ts:96-98) is I/O and not modelled.
- Money is exact `real`, not IEEE doubles, so rounding in the products is not modelled.
- `toLowerCase` lowers ASCII letters only. `replace` ignores `$` substitution patterns in the replacement text.
- `parseFloat` is a parameter (`parsed`/`amount`). The model does not parse text.
- CORRECT_PENALTY_MULTIPLIER and WRONG_ANSWER_PENALTY (src/components/LiveWatching.tsx:60-61) and ODDS_PER_PENALTY (src/components/PenaltyShootout.tsx:135) are declared but never used by the code, so the model leaves them out. The streak-bonus payout variant is not part of this model.
- The fixture lineups and the selector's two squads (src/components/PlayerSelector.tsx:26-53) are data. They are abstract parameters.
- The outcome template catalog (`OUTCOME_TEMPLATES`) is not part of this model. It is a constructor parameter of the builder.
- SequenceBuilder.Builder.HandleDragEnd: when an id is not found, `arrayMove` receives -1 and moves the last element. The model leaves the list unchanged instead. It relies on both ids coming from the rendered list.
- SequenceBuilder.SortByScore: the comparator sort is modelled as an insertion sort. Its contract states a best-first permutation only; that equal scores keep pool order, as engines guarantee for `sort`, is not stated.
- LiveWatching.MarkCheckingDistinct and LiveWatching.ResolveDistinct assume distinct ids. Ids come from `Date.now()`, so two outcomes added in the same millisecond can share one.
- PenaltyShootout.Shootout.Predict requires a phase other than setup. The prediction buttons and the decision timer only run after the game starts.
- LiveWatching.LiveSession.CompletionReport is a function of the state. It does not model how often the effect fires, which is on every dependency change while the clock reads 0.

## Behaviour worth noting

Three behaviours of the code differ from what a reader of the game's rules
might expect. The model follows the code in each.

- **Odds cap.** Each odd is capped at 5 only in the builder's preview (src/components/SequenceBuilder.tsx:384-387). The payout of a full pass in the live session uses the uncapped product (src/components/LiveWatching.tsx:179). `Payout.PreviewVersusProfit` states how the two relate.
- **Clock expiry.** When the session clock reaches 0, outcomes already scheduled are still checked, and the end-of-game effect fires again whenever its dependencies change, so the result can be reported more than once.
- **Outcome ids.** Ids are built from the clock, so two outcomes added in the same millisecond share one. Updates go by id (src/components/LiveWatching.tsx:109-111, src/components/LiveWatching.tsx:133-137), so such outcomes change together.
