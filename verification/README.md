# terminal_cribbage scoring engine, in Dafny

This project models the scoring core of a two-player terminal cribbage game
and proves properties of it. It covers:

- **Cards.** Ranks, suits and cards; the ordinal a rank takes in the 13-slot
  count arrays (Ace = 0 .. King = 12); face values; the card order used to
  keep a hand sorted (rank first, then Hearts < Spades < Diamonds < Clubs);
  and the printed form `[rank-text suit-symbol]`.
- **The counting scorers.** Fifteens, pairs, runs, flushes and nobs for a hand
  or crib with the starter card, and their sum. `score_runs` is transcribed
  as written: a count array filled by a loop, then a scan with a multiplier.
  Two totals are defined. `Score.TotalAsWritten` adds up the scorers as the
  program does. `Score.Total` scores the runs by the counting rule instead
  (see Findings). Both depend only on which cards the hand holds, not on
  their order.
- **The play (pegging).** `PlayData`, a stack of played cards with its
  running total. It covers who may still play under 31, the reset when
  nobody can, one player's turn, and what a card scores when it goes on the
  stack:
  - a run read off five windowed rank-count arrays;
  - pairs with the cards directly beneath;
  - fifteen and thirty-one;
  - the go point.
- **The containers.** The sorted `Hand` with removal by position and by
  value; the 52-card `Deck` as it is built, and its text; and the scripted
  first-in first-out index chooser that drives a player in tests.

Modules, one per source file (plus three of supporting theory):

| module | file | models |
|---|---|---|
| `Cards` | cards.dfy | src/cards/card.rs, the value table of src/cards/mod.rs |
| `Combinations` | combinations.dfy | the itertools `combinations(k)` enumeration and subset counting |
| `Score` | score.dfy | src/cards/score.rs and the composed hand total |
| `ScoreExamples` | score_examples.dfy | the worked cases of the scorers' tests and of the counting-round comments |
| `RunWindow` | run_window.dfy | the run rule behind `largest_run_points`: windowed count arrays against "the last n cards are n consecutive ranks" |
| `Play` | play.dfy | src/game/play_data.rs |
| `PlayExamples` | play_examples.dfy | the tests and documented uses of src/game/play_data.rs |
| `Hands` | hands.dfy | src/cards/hand.rs |
| `HandExamples` | hand_examples.dfy | the tests of src/cards/hand.rs |
| `Decks` | decks.dfy | src/cards/deck.rs |
| `Controllers` | controllers.dfy | src/game/predetermined_controller.rs |
| `Wrappers` | wrappers.dfy | `Option` and `Result` |

Each source file keeps its own form:

- Code that mutates state becomes a `class` whose methods carry `modifies`
  clauses: `PlayData`, `Player`, `Hand` and `PredeterminedController`.
- Loops become `while` or `for` loops with invariants:
  - `score_runs`;
  - the count-array loop of `largest_run_points`;
  - `is_run_of` and `pairs_points`;
  - the deck's nested loops;
  - `From<Vec<Card>>`.
- The 13-slot arrays stay `array<nat>`.
- Iterator and combinator code becomes functions, with lemmas about them.

Each method is proved against a specification function. The rule that
function stands for is proved in separate lemmas.

## Model

| member | source | states |
|---|---|---|
| `Cards.Ordinal` | src/cards/score.rs:170-180 | every rank has a slot below 13, so the count arrays are never indexed out of range |
| `Cards.RankAt` | src/cards/card.rs:6-20 | the rank in each of the 13 slots; it inverts `Ordinal` |
| `Cards.OrdinalInjective` | src/cards/card.rs:6-20 | two ranks share a slot exactly when they are the same rank |
| `Cards.RankAtOrdinal` | src/cards/card.rs:6-20 | mapping a rank to its slot and back gives the rank |
| `Cards.Value` | src/cards/mod.rs:23-37 | face value is between 1 and 10: Ace 1, Two to Ten their number, court cards 10 |
| `Cards.SortKeyInjective` | src/cards/hand.rs:65-68 | the sort key separates cards, so sorting a hand is deterministic |
| `Cards.CardLessByRankThenSuit` | src/cards/hand.rs:65-68 | one card sorts before another by lower rank, or by equal rank and a suit earlier in Hearts, Spades, Diamonds, Clubs |
| `Cards.CardLeTotal` | src/cards/hand.rs:65-68 | the card order is total and antisymmetric, and "not less" is "greater or equal" |
| `Cards.RankText` | src/cards/card.rs:42-56 | "2" to "10" for the numerals, and "A", "J", "Q", "K" |
| `Cards.SuitSymbol` | src/cards/card.rs:58-63 | the suit symbols U+2665, U+2663, U+2666, U+2660 |
| `Cards.CardText` | src/cards/card.rs:65 | a card prints as "[", its rank text, its suit symbol, "]" |
| `Cards.CardTextInjective` | src/cards/card.rs:40-66 | two cards with the same text are the same card |
| `Cards.AddRank` | src/game/play_data.rs:430-435 | adding a card raises its rank's slot by one and leaves the other twelve slots alone |
| `Cards.RankCountsAt` | src/cards/score.rs:174-180 | after the counting loop, slot k holds the number of cards of rank k |
| `Cards.SumRankCounts` | src/cards/score.rs:174-180 | the slots of the count array add up to the number of cards |
| `Combinations.PrependAllAt` | src/cards/score.rs:76-77 | putting a card in front of each combination keeps their order: position i holds the i-th combination with the card in front |
| `Combinations.CombinationsShape` | src/cards/score.rs:76-77 | there are n-choose-k combinations of size k, each with k cards drawn from the input |
| `Combinations.CombinationsUpToLength` | src/cards/score.rs:76-77 | the combinations of sizes 1 to k number n-choose-1 + ... + n-choose-k |
| `Combinations.AllCombinationsCount` | src/cards/score.rs:76-77 | n cards have 2^n - 1 non-empty combinations (Pascal's rule summed, via `BinomialsUpToAll`) |
| `Combinations.BinomialsUpToAll` | src/cards/score.rs:76-77 | n-choose-1 + ... + n-choose-n is 2^n - 1 |
| `Combinations.FiveCardsHave31Combinations` | src/cards/score.rs:76-77 | five cards have 31 non-empty combinations |
| `Combinations.CountCombinations` | src/cards/score.rs:76-79 | counting the size-k combinations that reach a total gives the number of k-subsets that reach it |
| `Combinations.CombinationsCountAllSubsets` | src/cards/score.rs:76-79 | for at most five cards, the combinations of sizes 1 to 5 that reach a non-zero total are all the non-empty subsets that reach it |
| `Score.FifteensCountsSubsets` | src/cards/score.rs:71-83 | the fifteens score is twice the number of subsets of the hand and starter whose values add up to 15 |
| `Score.SameRank` | src/cards/score.rs:118-130 | the cards sharing a card's rank are the rank's slot in the count array |
| `Score.PairsByRank` | src/cards/score.rs:118-130 | the pairs score is twice the sum, over ranks, of count-choose-2: every two cards of one rank are a pair |
| `Score.PairCountByRank` | src/cards/score.rs:118-130 | counting equal-rank pairs card by card equals choose-2 summed over the count array |
| `Score.ScoreRuns` | src/cards/score.rs:164-205 | the method fills the 13-slot array and scans it exactly as the scan function `RunsOfCounts` does on the rank counts of hand and starter |
| `Score.ScanMeaning` | src/cards/score.rs:182-199 | the scan's multiplier stays at least 1, its current stretch is the occupied slots just visited, and its longest stretch reaches 3 exactly when three consecutive ranks were seen |
| `Score.RunsZeroIffNoThree` | src/cards/score.rs:201-204 | the written runs score is 0 exactly when no three consecutive ranks are present |
| `Score.LeadingRun` | src/cards/score.rs:182-197 | the length of the first stretch of occupied slots, with the next slot empty |
| `Score.IntendedRunsSplit` | src/cards/score.rs:182-204 | run points of the counting rule add up across an empty slot: each maximal stretch of occupied ranks scores on its own |
| `Score.IntendedRunsSingleBlock` | src/cards/score.rs:182-204 | one stretch of occupied ranks scores its length times the product of its counts when it is at least 3 long, and nothing otherwise |
| `Score.RunsSingleBlock` | src/cards/score.rs:182-204 | the written scan gives that same score when every present rank lies in one stretch |
| `Score.RunsAgreeOnSingleBlock` | src/cards/score.rs:182-204 | with one stretch of ranks, the written scan and the counting rule agree |
| `Score.AllOfSuit` | src/cards/score.rs:248 | `iter().all` on suits: every card has the given suit |
| `Score.Flushes` | src/cards/score.rs:243-259 | the flush score is only ever 0, 4 or 5 |
| `Score.FlushesBySuits` | src/cards/score.rs:243-259 | 5 exactly when hand and starter share one suit; 4 exactly when only the hand does and it is not the crib; 0 otherwise |
| `Score.MixedHandNoFlush` | src/cards/score.rs:243-259 | a hand whose own suits differ scores no flush, whatever the starter |
| `Score.HasCard` | src/cards/score.rs:293 | `iter().any` on equality: the card occurs in the hand |
| `Score.Nobs` | src/cards/score.rs:290-294 | nobs is 1 exactly when the hand holds the jack of the starter's suit, else 0 |
| `Score.TotalsAgreeOnSingleBlock` | src/game/mod.rs:371-379 | when every rank of hand and starter lies in one stretch, the total as the program adds it up equals the total under the counting rule |
| `Score.CountOrdPermutation` | src/cards/score.rs:164-180 | the number of cards of a rank is the same for any arrangement of the same cards |
| `Score.RankCountsPermutation` | src/cards/score.rs:164-180 | the 13-slot count array is the same for any arrangement of the same cards |
| `Score.SameSuitPermutation` | src/cards/score.rs:243-259 | the cards share one suit in one arrangement exactly when they do in any other |
| `Score.FlushesPermutation` | src/cards/score.rs:243-259 | the flush score is the same for any arrangement of the hand's cards |
| `Combinations.SizedSubsetsPermutation` | src/cards/score.rs:76-79 | the number of k-subsets reaching a total is the same for any arrangement of the cards |
| `Combinations.SubsetsUpToPermutation` | src/cards/score.rs:76-79 | so is the number of subsets of sizes 1 to k reaching it |
| `Score.FifteensPermutation` | src/cards/score.rs:71-83 | the fifteens score is the same for any arrangement of the hand's cards |
| `Score.TotalPermutation` | src/game/mod.rs:371-379 | any two arrangements of the same hand score the same: both totals, the written runs score and the counted runs score agree |
| `ScoreExamples.SortedHandScoresTheSame` | src/cards/hand.rs:196-207 | the sorted hand that `From` builds from a list of cards scores what the list scores, under both totals |
| `ScoreExamples.FifteensNone` | src/cards/score.rs:302-318 | four aces and a king: no fifteen |
| `ScoreExamples.FifteensOne` | src/cards/score.rs:320-336 | one fifteen: 2 |
| `ScoreExamples.FifteensEight` | src/cards/score.rs:338-354 | J, 5, 5, 5 with a 5 starter: eight fifteens, 16 |
| `ScoreExamples.PairsNone` | src/cards/score.rs:355-371 | A, 2, 3, J with a 5 starter: 0 |
| `ScoreExamples.PairsOneInHand` | src/cards/score.rs:373-389 | A, 5, 5, J with a 2 starter: 2 |
| `ScoreExamples.PairsOneWithStarter` | src/cards/score.rs:391-407 | A, 2, 5, J with a 5 starter: 2 |
| `ScoreExamples.PairsTwoPair` | src/cards/score.rs:409-425 | 5, 5, J, J with an ace starter: 4 |
| `ScoreExamples.PairsThreeOfAKind` | src/cards/score.rs:428-444 | three of a kind: 6 |
| `ScoreExamples.PairsFourOfAKind` | src/cards/score.rs:446-462 | four of a kind: 12 |
| `ScoreExamples.PairsFourFoursAndSix` | src/cards/score.rs:96-117 | 6, 4, 4, 4 with a 4 starter: 12 |
| `ScoreExamples.PairsThreeFoursTwoSixes` | src/cards/score.rs:96-117 | 6, 4, 4, 4 with a 6 starter: 8 |
| `ScoreExamples.RunsNone` | src/cards/score.rs:464-480 | 5, 5, 5, J with a 5 starter: no run, under both the written scan and the counting rule |
| `ScoreExamples.RunsThreeCardRun` | src/cards/score.rs:481-497 | 4, 5, 6, J with an ace starter: 3 |
| `ScoreExamples.RunsDoubleRunWithStarter` | src/cards/score.rs:517-533 | 4, 5, 6, J with a 5 starter: 6 |
| `ScoreExamples.RunsDoubleRunInHand` | src/cards/score.rs:500-516 | 4, 5, 6, 5 with an ace starter: 6 |
| `ScoreExamples.RunsDoubleDoubleRun` | src/cards/score.rs:536-552 | 6, 4, 5, 4 with a 5 starter: 12 |
| `ScoreExamples.RunsDoubleRunOfFour` | src/cards/score.rs:590-606 | 3, 4, 5, 6 with a 3 starter: 8 |
| `ScoreExamples.RunsFourCardRunInHand` | src/cards/score.rs:553-569 | 3, 4, 5, 6 with an ace starter: 4 |
| `ScoreExamples.RunsFourCardRunWithStarter` | src/cards/score.rs:571-587 | 3, 4, 5, J with a 6 starter: 4 |
| `ScoreExamples.RunsOfFive` | src/cards/score.rs:608-624 | 2, 3, 5, 4 with an ace starter: 5 |
| `ScoreExamples.RunsMultiplierSkipped` | src/cards/score.rs:182-204 | A, 5, 5, 6 with a 7 starter: the written scan gives 3, the counting rule 6 (see Findings) |
| `ScoreExamples.FlushesHandMixed` | src/cards/score.rs:626-642 | three clubs and a spade with a club starter: 0 |
| `ScoreExamples.FlushesFourInHand` | src/cards/score.rs:644-660 | four clubs with a spade starter in the hand: 4 |
| `ScoreExamples.FlushesFourInCrib` | src/cards/score.rs:662-678 | the same cards as the crib: 0 |
| `ScoreExamples.FlushesFiveInHand` | src/cards/score.rs:680-696 | five clubs in the hand: 5 |
| `ScoreExamples.FlushesFiveInCrib` | src/cards/score.rs:698-714 | five clubs in the crib: 5 |
| `ScoreExamples.NobsNoJack` | src/cards/score.rs:716-732 | no jack: 0 |
| `ScoreExamples.NobsOtherJack` | src/cards/score.rs:734-750 | a jack of another suit: 0 |
| `ScoreExamples.NobsMatchingJack` | src/cards/score.rs:752-768 | the jack of the starter's suit: 1 |
| `ScoreExamples.TotalSix` | src/game/mod.rs:832 | J♦ 7♣ Q♦ K♦ with 8♦: 6, under both totals |
| `ScoreExamples.TotalCribThirteen` | src/game/mod.rs:833 | the crib A♦ 2♦ 3♦ 4♦ with 8♦: 13, under both totals |
| `ScoreExamples.TotalTwelve` | src/game/mod.rs:850 | 4♣ 6♦ 7♦ 8♣ with 8♦: 12, under both totals |
| `ScoreExamples.TotalTwentyPone` | src/game/mod.rs:1058-1060 | the hand 3♥ 3♠ 4♥ 4♠ with 5♣: 20, under both totals |
| `ScoreExamples.TotalTwentyDealer` | src/game/mod.rs:1061-1063 | the hand 3♦ 3♣ 4♦ 4♣ with 5♣: 20, under both totals |
| `ScoreExamples.TotalTwentyNine` | src/game/mod.rs:1064-1066 | the crib J♣ 5♦ 5♥ 5♠ with 5♣: 29, under both totals |
| `RunWindow.WindowCountsMasked` | src/game/play_data.rs:347-376 | after i cards, the array for run size n counts by rank the visited cards among the last n whose rank is within n - 1 of the top card's |
| `RunWindow.FirstBlockMeasured` | src/game/play_data.rs:411-423 | the first stretch of occupied slots is m long when z empty slots, then m occupied, then an empty one, lead the array |
| `RunWindow.FirstBlockStart` | src/game/play_data.rs:411-423 | a non-empty first stretch starts after some number of empty slots and is fully occupied |
| `RunWindow.WindowRunOnlyIf` | src/game/play_data.rs:377-391 | a first stretch of exactly n in the size-n array means the last n cards are n distinct consecutive ranks |
| `RunWindow.WindowRunIf` | src/game/play_data.rs:377-391 | if the last n cards are n distinct consecutive ranks, the size-n array's first stretch is exactly n |
| `RunWindow.WindowRunIff` | src/game/play_data.rs:377-391 | both directions: the array test for size n holds exactly when the last n cards form a run of n |
| `Play.Player.constructor` | src/game/player.rs:51-58 | a player starts with no points; the hand is given, as the play's documented examples deal it |
| `Play.HasCardWithValueAtMost` | src/game/play_data.rs:154-161 | some card of the hand is worth at most the limit |
| `Play.MatchFrom` | src/game/play_data.rs:461-483 | counting down from the card j beneath the top, the matching cards form one unbroken stretch, stopping at a mismatch, the bottom or the fourth card |
| `Play.MatchingBelow` | src/game/play_data.rs:461-483 | at most three cards, all directly beneath the top and all of its rank, with a different rank (or the bottom) just below them |
| `Play.TopRunPoints` | src/game/play_data.rs:339-391 | the largest n from 7 down to 3 for which the last n cards are n distinct consecutive ranks, and 0 if there is none or the stack has fewer than 3 cards |
| `Play.PlayData.constructor` | src/game/play_data.rs:32-37 | a new play has an empty stack and a total of zero |
| `Play.PlayData.FromCards` | src/game/play_data.rs:514-522 | the cards are stacked in order and the total is the sum of their values |
| `Play.PlayData.AddCard` | src/game/play_data.rs:62-65 | the card goes on top, the cards beneath are unchanged, the total rises by the card's value, and the total stays the sum of the stack |
| `Play.PlayData.CanPlay` | src/game/play_data.rs:154-161 | a player can play exactly when they hold a card that keeps the total at or under 31 |
| `Play.PlayData.ResetIfNeeded` | src/game/play_data.rs:105-113 | the stack and total are cleared exactly when neither player can play, and are otherwise unchanged |
| `Play.PlayData.GoPoint` | src/game/play_data.rs:318-323 | 1 exactly when the total is not 31 and no card in either hand fits under 31, else 0 |
| `Play.PlayData.AddRankToArray` | src/game/play_data.rs:430-435 | the array becomes the count array with the card's rank added, and the panic branch is never taken |
| `Play.PlayData.CountIfInRun` | src/game/play_data.rs:356-376 | one visit of the counting loop: the array after card i is the array for the first i + 1 cards |
| `Play.PlayData.IsRunOf` | src/game/play_data.rs:411-423 | the answer is whether the first stretch of occupied slots is exactly `points` long |
| `Play.PlayData.CountInRuns` | src/game/play_data.rs:356-376 | one pass of the loop body updates all five arrays, each to the window counts for its run size over one more card |
| `Play.PlayData.CountRunWindows` | src/game/play_data.rs:344-376 | after the loop, each of the five arrays holds the window counts for its run size over the whole stack |
| `Play.PlayData.LargestRunPoints` | src/game/play_data.rs:339-391 | the method returns the largest run the top card completes, as `TopRunPoints` states it |
| `Play.TopRunFromWindows` | src/game/play_data.rs:377-391 | checking the arrays for sizes 7 down to 3 and taking the first that fits gives the largest run |
| `Play.PlayData.PairsPoints` | src/game/play_data.rs:461-483 | 0, 2, 6 or 12 as 0, 1, 2 or 3 cards directly beneath the top match its rank with no gap |
| `Play.MatchingBelowExact` | src/game/play_data.rs:461-483 | an unbroken stretch of m matches with a mismatch (or the bottom) below it is what the pairs count finds |
| `Play.PairPointsCountPairs` | src/game/play_data.rs:461-483 | the pair points are twice the number of equal-rank pairs among the top card and the cards matching it, the same count the hand scorer uses |
| `Play.SameRankPairCount` | src/game/play_data.rs:461-483 | among k cards of one rank there are k-choose-2 pairs |
| `Play.PlayData.CurrentPoints` | src/game/play_data.rs:301-306 | what the top card scores: run points plus pair points plus 2 at fifteen plus 2 at thirty-one |
| `Play.PlayData.PlayOnce` | src/game/play_data.rs:206-274 | when the player cannot play, nothing changes. Otherwise the chosen card leaves the hand and goes on the stack, the total rises by its value, and the player gains the card's points plus the go point. The opponent is untouched either way |
| `PlayExamples.CanMakeRunOfExamples` | src/game/play_data.rs:533-599 | too far back or too far apart in rank: no; within the run size in both: yes |
| `PlayExamples.IsRunOfGaps` | src/game/play_data.rs:601-607 | a first stretch of 3 is not a run of 7 |
| `PlayExamples.IsRunOfMultiple` | src/game/play_data.rs:609-615 | a first stretch of 5 is not a run of 7 |
| `PlayExamples.IsRunOfShort` | src/game/play_data.rs:617-623 | a stretch of 3 is not a run of 4 |
| `PlayExamples.IsRunOfExact` | src/game/play_data.rs:625-631 | a stretch of 3 is a run of 3 |
| `PlayExamples.LargestRunStackTooSmall` | src/game/play_data.rs:633-645 | two cards: 0 |
| `PlayExamples.LargestRunTopNotRun` | src/game/play_data.rs:647-661 | A, 2, 3 under a 5: 0 |
| `PlayExamples.LargestRunTopNotRunLong` | src/game/play_data.rs:663-680 | a 2 on A, 3, 5, 6, 7, 8: 0 |
| `PlayExamples.LargestRunThree` | src/game/play_data.rs:682-696 | J, Q on K over an ace: 3 |
| `PlayExamples.LargestRunThreeAfterBreak` | src/game/play_data.rs:698-715 | 3, A, 2 on top of 2, A, 3, 5: 3 |
| `PlayExamples.LargestRunFour` | src/game/play_data.rs:717-731 | 4, 2, A, 3: 4 |
| `PlayExamples.LargestRunFive` | src/game/play_data.rs:733-749 | 4, 2, A, 3, 5 on a 5: 5 |
| `PlayExamples.LargestRunSix` | src/game/play_data.rs:751-767 | 5, A, 4, 6, 2, 3: 6 |
| `PlayExamples.LargestRunSeven` | src/game/play_data.rs:769-786 | 7, 5, A, 4, 6, 2, 3: 7 |
| `PlayExamples.FifteenPointsNone` | src/game/play_data.rs:788-797 | a lone king: 0 |
| `PlayExamples.FifteenPointsTwo` | src/game/play_data.rs:799-811 | king and five: 2 |
| `PlayExamples.ThirtyOnePointsNone` | src/game/play_data.rs:813-826 | three kings: 0 |
| `PlayExamples.ThirtyOnePointsTwo` | src/game/play_data.rs:828-842 | three kings and an ace: 2 |
| `PlayExamples.PairsPointsStackTooSmall` | src/game/play_data.rs:844-853 | one card: 0 |
| `PlayExamples.PairsPointsNone` | src/game/play_data.rs:855-869 | an ace on three kings: 0 |
| `PlayExamples.PairsPointsPair` | src/game/play_data.rs:871-884 | two kings: 2 |
| `PlayExamples.PairsPointsThreeOfAKind` | src/game/play_data.rs:886-900 | three kings: 6 |
| `PlayExamples.PairsPointsFourOfAKind` | src/game/play_data.rs:902-917 | four kings: 12 |
| `PlayExamples.GoPointFirstCanPlay` | src/game/play_data.rs:919-939 | the first player can still play: 0 |
| `PlayExamples.GoPointSecondCanPlay` | src/game/play_data.rs:941-967 | the second player can still play: 0 |
| `PlayExamples.GoPointAtThirtyOne` | src/game/play_data.rs:969-996 | nobody can play at 31: 0 |
| `PlayExamples.GoPointAtThirty` | src/game/play_data.rs:998-1024 | nobody can play at 30: 1 |
| `PlayExamples.CurrentPointsNone` | src/game/play_data.rs:1026-1040 | 4, 7, 4, J, 5: 0 |
| `PlayExamples.CurrentPointsPairAndFifteen` | src/game/play_data.rs:1042-1055 | 7, 4, 4: a pair and fifteen, 4 |
| `PlayExamples.CurrentPointsThreeOfAKindAndThirtyOne` | src/game/play_data.rs:1057-1071 | K, K, 8, A, A, A: three of a kind and thirty-one, 8 |
| `PlayExamples.AddCardExample` | src/game/play_data.rs:39-60 | ace then queen of hearts: both stacked, total 11 |
| `PlayExamples.FromCardsExample` | src/game/play_data.rs:491-512 | two aces: both stacked, total 2 |
| `PlayExamples.CanPlayExample` | src/game/play_data.rs:116-151 | at 21 with a two and a king the player can play; after laying the two the king does not fit |
| `PlayExamples.ResetIfNeededExample` | src/game/play_data.rs:66-103 | at 27 nobody holds a card of four or less, so the stack is cleared |
| `PlayExamples.PlayOnceExample` | src/game/play_data.rs:206-260 | the first player lays their two at 21 and takes the go (1 point, empty hand); the second cannot play and keeps the queen |
| `Hands.IndexOf` | src/cards/hand.rs:123-128 | the position of the first card equal to the one sought |
| `Hands.InsertSortedPermutation` | src/cards/hand.rs:65-68 | adding a card to a sorted hand keeps it sorted, adds exactly that card and grows it by one |
| `Hands.InsertAt` | src/cards/hand.rs:65-68 | the card lands after every card not greater than it and before the first greater card |
| `Hands.InsertLast` | src/cards/hand.rs:65-68 | a card no smaller than every card in the hand goes to the end |
| `Hands.InsertAllSortedPermutation` | src/cards/hand.rs:197-207 | building a hand card by card gives a sorted permutation of the input |
| `Hands.InsertAllSorted` | src/cards/hand.rs:197-207 | already sorted cards come back unchanged |
| `Hands.SortedUnique` | src/cards/hand.rs:65-68 | a collection of cards has only one sorted arrangement |
| `Hands.RemoveAtSorted` | src/cards/hand.rs:92-98 | removing a card keeps the rest sorted and removes exactly that card |
| `Hands.Hand.constructor` | src/cards/hand.rs:29-33 | a new hand is empty |
| `Hands.Hand.FromCards` | src/cards/hand.rs:197-207 | the hand is the input sorted: a sorted permutation, and the input itself when it is already sorted |
| `Hands.Hand.AddCard` | src/cards/hand.rs:65-68 | the hand stays sorted and holds the old cards plus the new one |
| `Hands.Hand.Discard` | src/cards/hand.rs:92-98 | an index past the end gives the "Out of Bounds!" error and leaves the hand alone; otherwise that card is returned and exactly it is removed, the rest in order |
| `Hands.Hand.DiscardMatching` | src/cards/hand.rs:123-128 | the first equal card is removed and returned; when none is present, nothing is returned and the hand is unchanged |
| `Hands.Hand.AsVec` | src/cards/hand.rs:156-158 | exactly the hand's own cards, which are sorted whenever the hand is valid |
| `HandExamples.AddCardSorts` | src/cards/hand.rs:222-247 | seven cards added in any order come out in card order |
| `HandExamples.DiscardInOrder` | src/cards/hand.rs:249-271 | discarding index 0 repeatedly returns the cards in order, then "Out of Bounds!" |
| `HandExamples.AsVecSorted` | src/cards/hand.rs:273-292 | cards added out of order are handed back sorted |
| `HandExamples.DiscardMatchingPresentAndAbsent` | src/cards/hand.rs:294-311 | a held card is removed and returned; a second attempt finds nothing |
| `HandExamples.FromSortedVector` | src/cards/hand.rs:313-327 | a sorted vector comes back as it is |
| `Decks.SuitIndex` | src/cards/deck.rs:26 | each suit's place in the build order Clubs, Spades, Diamonds, Hearts |
| `Decks.DeckIndex` | src/cards/deck.rs:28-32 | every card has a position below 52 |
| `Decks.DeckIndexInverse` | src/cards/deck.rs:28-32 | position and card determine each other: each card occurs at exactly one position |
| `Decks.NewDeck` | src/cards/deck.rs:11-35 | 52 cards; card i has rank i mod 13 and suit i div 13 in build order; the first is the ace of clubs; every card occurs, and no card twice |
| `Decks.DivModPosition` | src/cards/deck.rs:28-32 | the card pushed for suit si and rank ri sits at position 13·si + ri |
| `Decks.DisplayDeck` | src/cards/deck.rs:40-47 | the text is each card's text preceded by a newline, in deck order |
| `Decks.CardTextNoNewline` | src/cards/card.rs:65 | a card's text holds no newline |
| `Decks.DeckTextLines` | src/cards/deck.rs:40-47 | the deck's text has exactly one newline per card |
| `Controllers.PredeterminedController.FromIndices` | src/game/predetermined_controller.rs:83-87 | the queue holds the indices in the given order |
| `Controllers.PredeterminedController.GetCardIndex` | src/game/predetermined_controller.rs:49-63 | the front index is returned and removed, and the rest stay in order. An empty queue gives nothing and stays empty. An index out of bounds for the offered cards is a caller error |
| `Controllers.ScriptedExample` | src/game/predetermined_controller.rs:36-47 | indices 0, 1, 2 over two cards give 0, then 1, and the third request is out of bounds |

## Left out

- src/game/mod.rs, the round orchestration, is not part of this model. That
  covers the dealer cut, dealing, the play loop with its turn order, the
  121-point checks and the deck reset. `Deck::shuffle` and `deal` are not
  part of this model either.
- src/game/player.rs is not part of this model beyond a player's hand and
  points; every other method there is unimplemented.
  - The play therefore models a player as the class `Play.Player`, holding a
    sequence of cards and a point count.
  - `play_once` takes the chosen index as a parameter where the source asks
    the player's controller (`player.discard()`).
  - `Controllers.PredeterminedController` models that controller on its own.
- Play.PlayData.PlayOnce: requires the chosen index to be in the hand when
  the player can play. The source panics there instead.
  - The source does not check that the chosen card fits under 31, and
    neither does the model. So the total can pass 31, as in the source.
- Controllers.PredeterminedController.GetCardIndex: an out-of-bounds front
  index is a precondition violation (`WouldPanic`) rather than a modelled
  panic.
- Displays, the interactive and random controllers, the `Controller` trait,
  and the crate wiring and `main` are left out.
  - They print, sleep, read standard input or draw random numbers.
  - `Hand`'s `Display` (src/cards/hand.rs:167-195) is left out as well. Only
    the deck's text and the card's text are modelled.
- `Default` for `Hand` and `PlayData` is left out: each only calls `new`.
- All counts and points are unbounded naturals. The source's `u32`/`usize`
  arithmetic cannot overflow for a 52-card deck, and nothing in the model
  relies on wrap-around.
- itertools' `combinations` and `tuple_combinations` are re-expressed:
  - `Combinations.Combinations` enumerates by position in itertools' order;
  - `Score.PairCount` counts the unordered pairs.
  - The real library is not modelled.
- The rank order: src/cards/card.rs:6-20 lists `Ace` last, but every scorer
  indexes its 13-slot arrays with Ace = 0 and King = 12. The model follows
  the scorers.
- `Card::score` and the derived card ordering are not in the source files
  modelled here. Face values follow the table in src/cards/mod.rs:23-37. The
  order is rank first, then Hearts < Spades < Diamonds < Clubs.
- The sort in `Hand::add_card` is modelled as inserting the new card in front
  of the first strictly greater card. That is what sorting an already sorted
  hand with one card pushed on the end produces. Sorting itself is not
  modelled.
- `Hand::total` is not in the source files modelled here.
  - `Score.TotalAsWritten` sums the five scorers as written, with the runs
    from the scan of `score_runs`.
  - `Score.Total` is the same sum with the runs scored by the counting rule
    `Score.CountedRuns` (see Findings). The two agree on every total in the
    source.
- The examples list each hand's cards in the order the tests write them.
  The program scores the sorted `Hand` built from them;
  `ScoreExamples.SortedHandScoresTheSame` shows the score is the same.
- Play.PlayData.LargestRunPoints: the counting loop is the separate method
  `CountRunWindows`, its body (one card checked against all five run sizes)
  is the separate method `CountInRuns`, and each of the five checks is
  `CountIfInRun`. Together they do what the loop body does in place.

## Findings

| source | as written | input that shows it | evidently intended | confidence | as-written member | corrected member |
|---|---|---|---|---|---|---|
| src/cards/score.rs:182-204 | The multiplier is multiplied only when a stretch becomes the longest seen so far. It is reset at an empty slot only while that longest stretch is under 3. So once a short stretch is the longest, the counts at the start of a later, longer stretch are not multiplied in. | hand A♣ 5♥ 5♦ 6♠ with starter 7♣: the written scan gives 3 | the two runs 5-6-7 score 6: a stretch of at least 3 ranks scores its length times the product of its counts | not executed | `ScoreExamples.RunsMultiplierSkipped` (with `Score.ScoreRuns`, `Score.RunsOfCounts` and the program's total `Score.TotalAsWritten`) | `Score.IntendedRuns`, proved in `Score.IntendedRunsSplit` and `Score.IntendedRunsSingleBlock`, used by `Score.CountedRuns` and the corrected total `Score.Total`, and equal to the written scan on a single stretch (`Score.RunsAgreeOnSingleBlock`, `Score.TotalsAgreeOnSingleBlock`) |
