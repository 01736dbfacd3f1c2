/**
 * Worked examples for the hand scorers: the cases of the scorers' own tests
 * and of the game's counting-round comments, each stated for the exact cards
 * and proved from the definitions.
 *
 * Each example is a lemma over `hand` and `starter` pinned to concrete cards;
 * the helper lemmas beside it evaluate the recursive counts on those cards.
 */
module ScoreExamples {
  import opened Cards
  import opened Combinations
  import opened Score
  import Hands

  /**
   * The examples list the cards in the order the tests write them; the
   * program scores the `Hand` that `From` builds from them, which is sorted.
   * Both arrangements score the same.
   */
  lemma SortedHandScoresTheSame(cards: seq<Card>, starter: Card, isCrib: bool)
    ensures TotalAsWritten(Hands.InsertAll([], cards), starter, isCrib) == TotalAsWritten(cards, starter, isCrib)
    ensures Total(Hands.InsertAll([], cards), starter, isCrib) == Total(cards, starter, isCrib)
  {
    Hands.InsertAllSortedPermutation([], cards);
    TotalPermutation(Hands.InsertAll([], cards), cards, starter, isCrib);
  }

  /** The product of counts, one slot longer. */
  lemma ProductSnoc(b: seq<nat>, x: nat)
    ensures Product(b + [x]) == Product(b) * x
  {
    assert (b + [x])[..|b|] == b;
  }

  /** The count array of five cards, slot by slot as the cards are added. */
  lemma RankCountsOfFive(a: Card, b: Card, c: Card, d: Card, e: Card)
    ensures RankCounts([a, b, c, d, e]) ==
            AddRank(AddRank(AddRank(AddRank(AddRank(Zeros(RankCount), a), b), c), d), e)
  {
    assert [a, b, c, d, e][..4] == [a, b, c, d];
    assert [a, b, c, d][..3] == [a, b, c];
    assert [a, b, c][..2] == [a, b];
    assert [a, b][..1] == [a];
    assert [a][..0] == [];
    assert RankCounts([a]) == AddRank(Zeros(RankCount), a);
    assert RankCounts([a, b]) == AddRank(RankCounts([a]), b);
    assert RankCounts([a, b, c]) == AddRank(RankCounts([a, b]), c);
    assert RankCounts([a, b, c, d]) == AddRank(RankCounts([a, b, c]), d);
  }

  // ---------------------------------------------------------------------------
  // Fifteens
  // ---------------------------------------------------------------------------

  lemma FifteensNoneSubsets(c0: Card, c1: Card, c2: Card, c3: Card, c4: Card)
    requires c0 == Card(Ace, Clubs)
    requires c1 == Card(Ace, Hearts)
    requires c2 == Card(Ace, Diamonds)
    requires c3 == Card(Ace, Spades)
    requires c4 == Card(King, Spades)
    ensures Subsets([c0, c1, c2, c3, c4], 15) == 0
  {
    assert [c0, c1, c2, c3, c4][1..] == [c1, c2, c3, c4];
    assert [c1, c2, c3, c4][1..] == [c2, c3, c4];
    assert [c2, c3, c4][1..] == [c3, c4];
    assert [c3, c4][1..] == [c4];
    assert [c4][1..] == [];
    assert Subsets([c4], 11) == 0;
    assert Subsets([c4], 12) == 0;
    assert Subsets([c4], 13) == 0;
    assert Subsets([c4], 14) == 0;
    assert Subsets([c4], 15) == 0;
    assert Subsets([c3, c4], 12) == 0;
    assert Subsets([c3, c4], 13) == 0;
    assert Subsets([c3, c4], 14) == 0;
    assert Subsets([c3, c4], 15) == 0;
    assert Subsets([c2, c3, c4], 13) == 0;
    assert Subsets([c2, c3, c4], 14) == 0;
    assert Subsets([c2, c3, c4], 15) == 0;
    assert Subsets([c1, c2, c3, c4], 14) == 0;
    assert Subsets([c1, c2, c3, c4], 15) == 0;
    assert Subsets([c0, c1, c2, c3, c4], 15) == 0;
  }
  /** Four aces and a king reach at most 14: no fifteen. */
  lemma FifteensNone(hand: seq<Card>, starter: Card)
    requires |hand| == 4
    requires hand[0] == Card(Ace, Clubs) && hand[1] == Card(Ace, Hearts)
    requires hand[2] == Card(Ace, Diamonds) && hand[3] == Card(Ace, Spades)
    requires starter == Card(King, Spades)
    ensures Fifteens(hand, starter) == 0
  {
    FifteensNoneSubsets(hand[0], hand[1], hand[2], hand[3], starter);
    FifteensCountsSubsets(hand, starter);
    assert hand + [starter] == [hand[0], hand[1], hand[2], hand[3], starter];
  }
  lemma FifteensOneSubsets(c0: Card, c1: Card, c2: Card, c3: Card, c4: Card)
    requires c0 == Card(Ace, Clubs)
    requires c1 == Card(Ace, Hearts)
    requires c2 == Card(Ace, Diamonds)
    requires c3 == Card(Two, Spades)
    requires c4 == Card(King, Spades)
    ensures Subsets([c0, c1, c2, c3, c4], 15) == 1
  {
    assert [c0, c1, c2, c3, c4][1..] == [c1, c2, c3, c4];
    assert [c1, c2, c3, c4][1..] == [c2, c3, c4];
    assert [c2, c3, c4][1..] == [c3, c4];
    assert [c3, c4][1..] == [c4];
    assert [c4][1..] == [];
    assert Subsets([c4], 10) == 1;
    assert Subsets([c4], 11) == 0;
    assert Subsets([c4], 12) == 0;
    assert Subsets([c4], 13) == 0;
    assert Subsets([c4], 14) == 0;
    assert Subsets([c4], 15) == 0;
    assert Subsets([c3, c4], 12) == 1;
    assert Subsets([c3, c4], 13) == 0;
    assert Subsets([c3, c4], 14) == 0;
    assert Subsets([c3, c4], 15) == 0;
    assert Subsets([c2, c3, c4], 13) == 1;
    assert Subsets([c2, c3, c4], 14) == 0;
    assert Subsets([c2, c3, c4], 15) == 0;
    assert Subsets([c1, c2, c3, c4], 14) == 1;
    assert Subsets([c1, c2, c3, c4], 15) == 0;
    assert Subsets([c0, c1, c2, c3, c4], 15) == 1;
  }
  /** Only the king with all four small cards makes 15. */
  lemma FifteensOne(hand: seq<Card>, starter: Card)
    requires |hand| == 4
    requires hand[0] == Card(Ace, Clubs) && hand[1] == Card(Ace, Hearts)
    requires hand[2] == Card(Ace, Diamonds) && hand[3] == Card(Two, Spades)
    requires starter == Card(King, Spades)
    ensures Fifteens(hand, starter) == 2
  {
    FifteensOneSubsets(hand[0], hand[1], hand[2], hand[3], starter);
    FifteensCountsSubsets(hand, starter);
    assert hand + [starter] == [hand[0], hand[1], hand[2], hand[3], starter];
  }
  lemma FifteensEightSubsets(c0: Card, c1: Card, c2: Card, c3: Card, c4: Card)
    requires c0 == Card(Five, Clubs)
    requires c1 == Card(Five, Hearts)
    requires c2 == Card(Five, Diamonds)
    requires c3 == Card(Jack, Spades)
    requires c4 == Card(Five, Spades)
    ensures Subsets([c0, c1, c2, c3, c4], 15) == 8
  {
    assert [c0, c1, c2, c3, c4][1..] == [c1, c2, c3, c4];
    assert [c1, c2, c3, c4][1..] == [c2, c3, c4];
    assert [c2, c3, c4][1..] == [c3, c4];
    assert [c3, c4][1..] == [c4];
    assert [c4][1..] == [];
    assert Subsets([c4], 0) == 1;
    assert Subsets([c4], 5) == 1;
    assert Subsets([c4], 10) == 0;
    assert Subsets([c4], 15) == 0;
    assert Subsets([c3, c4], 0) == 1;
    assert Subsets([c3, c4], 5) == 1;
    assert Subsets([c3, c4], 10) == 1;
    assert Subsets([c3, c4], 15) == 1;
    assert Subsets([c2, c3, c4], 5) == 2;
    assert Subsets([c2, c3, c4], 10) == 2;
    assert Subsets([c2, c3, c4], 15) == 2;
    assert Subsets([c1, c2, c3, c4], 10) == 4;
    assert Subsets([c1, c2, c3, c4], 15) == 4;
    assert Subsets([c0, c1, c2, c3, c4], 15) == 8;
  }
  /** Jack with any five (4 ways) and any three of the four fives (4 ways). */
  lemma FifteensEight(hand: seq<Card>, starter: Card)
    requires |hand| == 4
    requires hand[0] == Card(Five, Clubs) && hand[1] == Card(Five, Hearts)
    requires hand[2] == Card(Five, Diamonds) && hand[3] == Card(Jack, Spades)
    requires starter == Card(Five, Spades)
    ensures Fifteens(hand, starter) == 16
  {
    FifteensEightSubsets(hand[0], hand[1], hand[2], hand[3], starter);
    FifteensCountsSubsets(hand, starter);
    assert hand + [starter] == [hand[0], hand[1], hand[2], hand[3], starter];
  }
  // ---------------------------------------------------------------------------
  // Pairs
  // ---------------------------------------------------------------------------

  lemma PairsNonePairCount(c0: Card, c1: Card, c2: Card, c3: Card, c4: Card)
    requires c0 == Card(Ace, Clubs)
    requires c1 == Card(Two, Hearts)
    requires c2 == Card(Three, Diamonds)
    requires c3 == Card(Jack, Spades)
    requires c4 == Card(Five, Spades)
    ensures PairCount([c0, c1, c2, c3, c4]) == 0
  {
    assert [c0, c1, c2, c3, c4][1..] == [c1, c2, c3, c4];
    assert [c1, c2, c3, c4][1..] == [c2, c3, c4];
    assert [c2, c3, c4][1..] == [c3, c4];
    assert [c3, c4][1..] == [c4];
    assert [c4][1..] == [];
    assert PairCount([c4]) == 0;
    assert SameRank(c3, [c4]) == 0;
    assert PairCount([c3, c4]) == 0;
    assert SameRank(c2, [c4]) == 0;
    assert SameRank(c2, [c3, c4]) == 0;
    assert PairCount([c2, c3, c4]) == 0;
    assert SameRank(c1, [c4]) == 0;
    assert SameRank(c1, [c3, c4]) == 0;
    assert SameRank(c1, [c2, c3, c4]) == 0;
    assert PairCount([c1, c2, c3, c4]) == 0;
    assert SameRank(c0, [c4]) == 0;
    assert SameRank(c0, [c3, c4]) == 0;
    assert SameRank(c0, [c2, c3, c4]) == 0;
    assert SameRank(c0, [c1, c2, c3, c4]) == 0;
    assert PairCount([c0, c1, c2, c3, c4]) == 0;
  }
  /** No two cards of a rank: no pairs. */
  lemma PairsNone(hand: seq<Card>, starter: Card)
    requires |hand| == 4
    requires hand[0] == Card(Ace, Clubs) && hand[1] == Card(Two, Hearts)
    requires hand[2] == Card(Three, Diamonds) && hand[3] == Card(Jack, Spades)
    requires starter == Card(Five, Spades)
    ensures Pairs(hand, starter) == 0
  {
    PairsNonePairCount(hand[0], hand[1], hand[2], hand[3], starter);
    assert hand + [starter] == [hand[0], hand[1], hand[2], hand[3], starter];
  }
  lemma PairsOneInHandPairCount(c0: Card, c1: Card, c2: Card, c3: Card, c4: Card)
    requires c0 == Card(Ace, Clubs)
    requires c1 == Card(Five, Hearts)
    requires c2 == Card(Five, Diamonds)
    requires c3 == Card(Jack, Spades)
    requires c4 == Card(Two, Spades)
    ensures PairCount([c0, c1, c2, c3, c4]) == 1
  {
    assert [c0, c1, c2, c3, c4][1..] == [c1, c2, c3, c4];
    assert [c1, c2, c3, c4][1..] == [c2, c3, c4];
    assert [c2, c3, c4][1..] == [c3, c4];
    assert [c3, c4][1..] == [c4];
    assert [c4][1..] == [];
    assert PairCount([c4]) == 0;
    assert SameRank(c3, [c4]) == 0;
    assert PairCount([c3, c4]) == 0;
    assert SameRank(c2, [c4]) == 0;
    assert SameRank(c2, [c3, c4]) == 0;
    assert PairCount([c2, c3, c4]) == 0;
    assert SameRank(c1, [c4]) == 0;
    assert SameRank(c1, [c3, c4]) == 0;
    assert SameRank(c1, [c2, c3, c4]) == 1;
    assert PairCount([c1, c2, c3, c4]) == 1;
    assert SameRank(c0, [c4]) == 0;
    assert SameRank(c0, [c3, c4]) == 0;
    assert SameRank(c0, [c2, c3, c4]) == 0;
    assert SameRank(c0, [c1, c2, c3, c4]) == 0;
    assert PairCount([c0, c1, c2, c3, c4]) == 1;
  }
  /** Two fives in the hand: one pair. */
  lemma PairsOneInHand(hand: seq<Card>, starter: Card)
    requires |hand| == 4
    requires hand[0] == Card(Ace, Clubs) && hand[1] == Card(Five, Hearts)
    requires hand[2] == Card(Five, Diamonds) && hand[3] == Card(Jack, Spades)
    requires starter == Card(Two, Spades)
    ensures Pairs(hand, starter) == 2
  {
    PairsOneInHandPairCount(hand[0], hand[1], hand[2], hand[3], starter);
    assert hand + [starter] == [hand[0], hand[1], hand[2], hand[3], starter];
  }
  lemma PairsOneWithStarterPairCount(c0: Card, c1: Card, c2: Card, c3: Card, c4: Card)
    requires c0 == Card(Ace, Clubs)
    requires c1 == Card(Two, Hearts)
    requires c2 == Card(Five, Diamonds)
    requires c3 == Card(Jack, Spades)
    requires c4 == Card(Five, Spades)
    ensures PairCount([c0, c1, c2, c3, c4]) == 1
  {
    assert [c0, c1, c2, c3, c4][1..] == [c1, c2, c3, c4];
    assert [c1, c2, c3, c4][1..] == [c2, c3, c4];
    assert [c2, c3, c4][1..] == [c3, c4];
    assert [c3, c4][1..] == [c4];
    assert [c4][1..] == [];
    assert PairCount([c4]) == 0;
    assert SameRank(c3, [c4]) == 0;
    assert PairCount([c3, c4]) == 0;
    assert SameRank(c2, [c4]) == 1;
    assert SameRank(c2, [c3, c4]) == 1;
    assert PairCount([c2, c3, c4]) == 1;
    assert SameRank(c1, [c4]) == 0;
    assert SameRank(c1, [c3, c4]) == 0;
    assert SameRank(c1, [c2, c3, c4]) == 0;
    assert PairCount([c1, c2, c3, c4]) == 1;
    assert SameRank(c0, [c4]) == 0;
    assert SameRank(c0, [c3, c4]) == 0;
    assert SameRank(c0, [c2, c3, c4]) == 0;
    assert SameRank(c0, [c1, c2, c3, c4]) == 0;
    assert PairCount([c0, c1, c2, c3, c4]) == 1;
  }
  /** A five in the hand and the five starter: one pair. */
  lemma PairsOneWithStarter(hand: seq<Card>, starter: Card)
    requires |hand| == 4
    requires hand[0] == Card(Ace, Clubs) && hand[1] == Card(Two, Hearts)
    requires hand[2] == Card(Five, Diamonds) && hand[3] == Card(Jack, Spades)
    requires starter == Card(Five, Spades)
    ensures Pairs(hand, starter) == 2
  {
    PairsOneWithStarterPairCount(hand[0], hand[1], hand[2], hand[3], starter);
    assert hand + [starter] == [hand[0], hand[1], hand[2], hand[3], starter];
  }
  lemma PairsTwoPairPairCount(c0: Card, c1: Card, c2: Card, c3: Card, c4: Card)
    requires c0 == Card(Five, Clubs)
    requires c1 == Card(Five, Hearts)
    requires c2 == Card(Jack, Diamonds)
    requires c3 == Card(Jack, Spades)
    requires c4 == Card(Ace, Spades)
    ensures PairCount([c0, c1, c2, c3, c4]) == 2
  {
    assert [c0, c1, c2, c3, c4][1..] == [c1, c2, c3, c4];
    assert [c1, c2, c3, c4][1..] == [c2, c3, c4];
    assert [c2, c3, c4][1..] == [c3, c4];
    assert [c3, c4][1..] == [c4];
    assert [c4][1..] == [];
    assert PairCount([c4]) == 0;
    assert SameRank(c3, [c4]) == 0;
    assert PairCount([c3, c4]) == 0;
    assert SameRank(c2, [c4]) == 0;
    assert SameRank(c2, [c3, c4]) == 1;
    assert PairCount([c2, c3, c4]) == 1;
    assert SameRank(c1, [c4]) == 0;
    assert SameRank(c1, [c3, c4]) == 0;
    assert SameRank(c1, [c2, c3, c4]) == 0;
    assert PairCount([c1, c2, c3, c4]) == 1;
    assert SameRank(c0, [c4]) == 0;
    assert SameRank(c0, [c3, c4]) == 0;
    assert SameRank(c0, [c2, c3, c4]) == 0;
    assert SameRank(c0, [c1, c2, c3, c4]) == 1;
    assert PairCount([c0, c1, c2, c3, c4]) == 2;
  }
  /** Two fives and two jacks: two pairs. */
  lemma PairsTwoPair(hand: seq<Card>, starter: Card)
    requires |hand| == 4
    requires hand[0] == Card(Five, Clubs) && hand[1] == Card(Five, Hearts)
    requires hand[2] == Card(Jack, Diamonds) && hand[3] == Card(Jack, Spades)
    requires starter == Card(Ace, Spades)
    ensures Pairs(hand, starter) == 4
  {
    PairsTwoPairPairCount(hand[0], hand[1], hand[2], hand[3], starter);
    assert hand + [starter] == [hand[0], hand[1], hand[2], hand[3], starter];
  }
  lemma PairsThreeOfAKindPairCount(c0: Card, c1: Card, c2: Card, c3: Card, c4: Card)
    requires c0 == Card(Five, Clubs)
    requires c1 == Card(Five, Hearts)
    requires c2 == Card(Five, Diamonds)
    requires c3 == Card(Jack, Spades)
    requires c4 == Card(Ace, Spades)
    ensures PairCount([c0, c1, c2, c3, c4]) == 3
  {
    assert [c0, c1, c2, c3, c4][1..] == [c1, c2, c3, c4];
    assert [c1, c2, c3, c4][1..] == [c2, c3, c4];
    assert [c2, c3, c4][1..] == [c3, c4];
    assert [c3, c4][1..] == [c4];
    assert [c4][1..] == [];
    assert PairCount([c4]) == 0;
    assert SameRank(c3, [c4]) == 0;
    assert PairCount([c3, c4]) == 0;
    assert SameRank(c2, [c4]) == 0;
    assert SameRank(c2, [c3, c4]) == 0;
    assert PairCount([c2, c3, c4]) == 0;
    assert SameRank(c1, [c4]) == 0;
    assert SameRank(c1, [c3, c4]) == 0;
    assert SameRank(c1, [c2, c3, c4]) == 1;
    assert PairCount([c1, c2, c3, c4]) == 1;
    assert SameRank(c0, [c4]) == 0;
    assert SameRank(c0, [c3, c4]) == 0;
    assert SameRank(c0, [c2, c3, c4]) == 1;
    assert SameRank(c0, [c1, c2, c3, c4]) == 2;
    assert PairCount([c0, c1, c2, c3, c4]) == 3;
  }
  /** Three of a kind is three pairs. */
  lemma PairsThreeOfAKind(hand: seq<Card>, starter: Card)
    requires |hand| == 4
    requires hand[0] == Card(Five, Clubs) && hand[1] == Card(Five, Hearts)
    requires hand[2] == Card(Five, Diamonds) && hand[3] == Card(Jack, Spades)
    requires starter == Card(Ace, Spades)
    ensures Pairs(hand, starter) == 6
  {
    PairsThreeOfAKindPairCount(hand[0], hand[1], hand[2], hand[3], starter);
    assert hand + [starter] == [hand[0], hand[1], hand[2], hand[3], starter];
  }
  lemma PairsFourOfAKindPairCount(c0: Card, c1: Card, c2: Card, c3: Card, c4: Card)
    requires c0 == Card(Five, Clubs)
    requires c1 == Card(Five, Hearts)
    requires c2 == Card(Five, Diamonds)
    requires c3 == Card(Jack, Spades)
    requires c4 == Card(Five, Spades)
    ensures PairCount([c0, c1, c2, c3, c4]) == 6
  {
    assert [c0, c1, c2, c3, c4][1..] == [c1, c2, c3, c4];
    assert [c1, c2, c3, c4][1..] == [c2, c3, c4];
    assert [c2, c3, c4][1..] == [c3, c4];
    assert [c3, c4][1..] == [c4];
    assert [c4][1..] == [];
    assert PairCount([c4]) == 0;
    assert SameRank(c3, [c4]) == 0;
    assert PairCount([c3, c4]) == 0;
    assert SameRank(c2, [c4]) == 1;
    assert SameRank(c2, [c3, c4]) == 1;
    assert PairCount([c2, c3, c4]) == 1;
    assert SameRank(c1, [c4]) == 1;
    assert SameRank(c1, [c3, c4]) == 1;
    assert SameRank(c1, [c2, c3, c4]) == 2;
    assert PairCount([c1, c2, c3, c4]) == 3;
    assert SameRank(c0, [c4]) == 1;
    assert SameRank(c0, [c3, c4]) == 1;
    assert SameRank(c0, [c2, c3, c4]) == 2;
    assert SameRank(c0, [c1, c2, c3, c4]) == 3;
    assert PairCount([c0, c1, c2, c3, c4]) == 6;
  }
  /** Four of a kind is six pairs. */
  lemma PairsFourOfAKind(hand: seq<Card>, starter: Card)
    requires |hand| == 4
    requires hand[0] == Card(Five, Clubs) && hand[1] == Card(Five, Hearts)
    requires hand[2] == Card(Five, Diamonds) && hand[3] == Card(Jack, Spades)
    requires starter == Card(Five, Spades)
    ensures Pairs(hand, starter) == 12
  {
    PairsFourOfAKindPairCount(hand[0], hand[1], hand[2], hand[3], starter);
    assert hand + [starter] == [hand[0], hand[1], hand[2], hand[3], starter];
  }
  lemma PairsFourFoursAndSixPairCount(c0: Card, c1: Card, c2: Card, c3: Card, c4: Card)
    requires c0 == Card(Six, Clubs)
    requires c1 == Card(Four, Clubs)
    requires c2 == Card(Four, Hearts)
    requires c3 == Card(Four, Spades)
    requires c4 == Card(Four, Diamonds)
    ensures PairCount([c0, c1, c2, c3, c4]) == 6
  {
    assert [c0, c1, c2, c3, c4][1..] == [c1, c2, c3, c4];
    assert [c1, c2, c3, c4][1..] == [c2, c3, c4];
    assert [c2, c3, c4][1..] == [c3, c4];
    assert [c3, c4][1..] == [c4];
    assert [c4][1..] == [];
    assert PairCount([c4]) == 0;
    assert SameRank(c3, [c4]) == 1;
    assert PairCount([c3, c4]) == 1;
    assert SameRank(c2, [c4]) == 1;
    assert SameRank(c2, [c3, c4]) == 2;
    assert PairCount([c2, c3, c4]) == 3;
    assert SameRank(c1, [c4]) == 1;
    assert SameRank(c1, [c3, c4]) == 2;
    assert SameRank(c1, [c2, c3, c4]) == 3;
    assert PairCount([c1, c2, c3, c4]) == 6;
    assert SameRank(c0, [c4]) == 0;
    assert SameRank(c0, [c3, c4]) == 0;
    assert SameRank(c0, [c2, c3, c4]) == 0;
    assert SameRank(c0, [c1, c2, c3, c4]) == 0;
    assert PairCount([c0, c1, c2, c3, c4]) == 6;
  }
  /** Four fours with a six: six pairs. */
  lemma PairsFourFoursAndSix(hand: seq<Card>, starter: Card)
    requires |hand| == 4
    requires hand[0] == Card(Six, Clubs) && hand[1] == Card(Four, Clubs)
    requires hand[2] == Card(Four, Hearts) && hand[3] == Card(Four, Spades)
    requires starter == Card(Four, Diamonds)
    ensures Pairs(hand, starter) == 12
  {
    PairsFourFoursAndSixPairCount(hand[0], hand[1], hand[2], hand[3], starter);
    assert hand + [starter] == [hand[0], hand[1], hand[2], hand[3], starter];
  }
  lemma PairsThreeFoursTwoSixesPairCount(c0: Card, c1: Card, c2: Card, c3: Card, c4: Card)
    requires c0 == Card(Six, Clubs)
    requires c1 == Card(Four, Clubs)
    requires c2 == Card(Four, Hearts)
    requires c3 == Card(Four, Spades)
    requires c4 == Card(Six, Diamonds)
    ensures PairCount([c0, c1, c2, c3, c4]) == 4
  {
    assert [c0, c1, c2, c3, c4][1..] == [c1, c2, c3, c4];
    assert [c1, c2, c3, c4][1..] == [c2, c3, c4];
    assert [c2, c3, c4][1..] == [c3, c4];
    assert [c3, c4][1..] == [c4];
    assert [c4][1..] == [];
    assert PairCount([c4]) == 0;
    assert SameRank(c3, [c4]) == 0;
    assert PairCount([c3, c4]) == 0;
    assert SameRank(c2, [c4]) == 0;
    assert SameRank(c2, [c3, c4]) == 1;
    assert PairCount([c2, c3, c4]) == 1;
    assert SameRank(c1, [c4]) == 0;
    assert SameRank(c1, [c3, c4]) == 1;
    assert SameRank(c1, [c2, c3, c4]) == 2;
    assert PairCount([c1, c2, c3, c4]) == 3;
    assert SameRank(c0, [c4]) == 1;
    assert SameRank(c0, [c3, c4]) == 1;
    assert SameRank(c0, [c2, c3, c4]) == 1;
    assert SameRank(c0, [c1, c2, c3, c4]) == 1;
    assert PairCount([c0, c1, c2, c3, c4]) == 4;
  }
  /** Three fours and two sixes: four pairs. */
  lemma PairsThreeFoursTwoSixes(hand: seq<Card>, starter: Card)
    requires |hand| == 4
    requires hand[0] == Card(Six, Clubs) && hand[1] == Card(Four, Clubs)
    requires hand[2] == Card(Four, Hearts) && hand[3] == Card(Four, Spades)
    requires starter == Card(Six, Diamonds)
    ensures Pairs(hand, starter) == 8
  {
    PairsThreeFoursTwoSixesPairCount(hand[0], hand[1], hand[2], hand[3], starter);
    assert hand + [starter] == [hand[0], hand[1], hand[2], hand[3], starter];
  }
  // ---------------------------------------------------------------------------
  // Runs: the written scan and the block-score definition on the scorer's cases
  // ---------------------------------------------------------------------------

  lemma RunsNoneCounts(c0: Card, c1: Card, c2: Card, c3: Card, c4: Card)
    requires c0 == Card(Five, Clubs)
    requires c1 == Card(Five, Hearts)
    requires c2 == Card(Five, Diamonds)
    requires c3 == Card(Jack, Spades)
    requires c4 == Card(Five, Spades)
    ensures RankCounts([c0, c1, c2, c3, c4]) == [0, 0, 0, 0, 4, 0, 0, 0, 0, 0, 1, 0, 0]
  {
    RankCountsOfFive(c0, c1, c2, c3, c4);
  }
  lemma RunsNoneScan()
    ensures RunsOfCounts([0, 0, 0, 0, 4, 0, 0, 0, 0, 0, 1, 0, 0]) == 0
  {
    var c := [0, 0, 0, 0, 4, 0, 0, 0, 0, 0, 1, 0, 0];
    assert ScanTo(c, 1) == RunScan(0, 0, 1);
    assert ScanTo(c, 2) == RunScan(0, 0, 1);
    assert ScanTo(c, 3) == RunScan(0, 0, 1);
    assert ScanTo(c, 4) == RunScan(0, 0, 1);
    assert ScanTo(c, 5) == RunScan(1, 1, 4);
    assert ScanTo(c, 6) == RunScan(0, 1, 1);
    assert ScanTo(c, 7) == RunScan(0, 1, 1);
    assert ScanTo(c, 8) == RunScan(0, 1, 1);
    assert ScanTo(c, 9) == RunScan(0, 1, 1);
    assert ScanTo(c, 10) == RunScan(0, 1, 1);
    assert ScanTo(c, 11) == RunScan(1, 1, 1);
    assert ScanTo(c, 12) == RunScan(0, 1, 1);
    assert ScanTo(c, 13) == RunScan(0, 1, 1);
  }
  lemma RunsNoneBlocksPiece0()
    ensures IntendedRuns(Zeros(4) + [4] + Zeros(0)) == 0
  {
    var b: seq<nat> := [4];
    IntendedRunsSingleBlock(4, b, 0);
  }
  lemma RunsNoneBlocksPiece1()
    ensures IntendedRuns(Zeros(4) + [1] + Zeros(2)) == 0
  {
    var b: seq<nat> := [1];
    IntendedRunsSingleBlock(4, b, 2);
  }
  lemma RunsNoneBlocks()
    ensures IntendedRuns(Zeros(4) + [4] + Zeros(0) + [0] + (Zeros(4) + [1] + Zeros(2))) == 0
  {
    RunsNoneBlocksPiece0();
    RunsNoneBlocksPiece1();
    IntendedRunsSplit(Zeros(4) + [4] + Zeros(0), Zeros(4) + [1] + Zeros(2));
  }
  lemma RunsNoneBlocksLayout()
    ensures [0, 0, 0, 0, 4, 0, 0, 0, 0, 0, 1, 0, 0] == Zeros(4) + [4] + Zeros(0) + [0] + (Zeros(4) + [1] + Zeros(2))
  {
  }
  /** Only fives and a jack: no run. */
  lemma RunsNone(hand: seq<Card>, starter: Card)
    requires |hand| == 4
    requires hand[0] == Card(Five, Clubs) && hand[1] == Card(Five, Hearts)
    requires hand[2] == Card(Five, Diamonds) && hand[3] == Card(Jack, Spades)
    requires starter == Card(Five, Spades)
    ensures RunsOfCounts(RankCounts(hand + [starter])) == 0
    ensures CountedRuns(hand, starter) == 0
  {
    assert hand + [starter] == [hand[0], hand[1], hand[2], hand[3], starter];
    RunsNoneCounts(hand[0], hand[1], hand[2], hand[3], starter);
    RunsNoneScan();
    RunsNoneBlocksLayout();
    RunsNoneBlocks();
  }
  lemma RunsThreeCardRunCounts(c0: Card, c1: Card, c2: Card, c3: Card, c4: Card)
    requires c0 == Card(Four, Clubs)
    requires c1 == Card(Five, Hearts)
    requires c2 == Card(Six, Diamonds)
    requires c3 == Card(Jack, Spades)
    requires c4 == Card(Ace, Spades)
    ensures RankCounts([c0, c1, c2, c3, c4]) == [1, 0, 0, 1, 1, 1, 0, 0, 0, 0, 1, 0, 0]
  {
    RankCountsOfFive(c0, c1, c2, c3, c4);
  }
  lemma RunsThreeCardRunScan()
    ensures RunsOfCounts([1, 0, 0, 1, 1, 1, 0, 0, 0, 0, 1, 0, 0]) == 3
  {
    var c := [1, 0, 0, 1, 1, 1, 0, 0, 0, 0, 1, 0, 0];
    assert ScanTo(c, 1) == RunScan(1, 1, 1);
    assert ScanTo(c, 2) == RunScan(0, 1, 1);
    assert ScanTo(c, 3) == RunScan(0, 1, 1);
    assert ScanTo(c, 4) == RunScan(1, 1, 1);
    assert ScanTo(c, 5) == RunScan(2, 2, 1);
    assert ScanTo(c, 6) == RunScan(3, 3, 1);
    assert ScanTo(c, 7) == RunScan(0, 3, 1);
    assert ScanTo(c, 8) == RunScan(0, 3, 1);
    assert ScanTo(c, 9) == RunScan(0, 3, 1);
    assert ScanTo(c, 10) == RunScan(0, 3, 1);
    assert ScanTo(c, 11) == RunScan(1, 3, 1);
    assert ScanTo(c, 12) == RunScan(0, 3, 1);
    assert ScanTo(c, 13) == RunScan(0, 3, 1);
  }
  lemma RunsThreeCardRunBlocksPiece0()
    ensures IntendedRuns(Zeros(0) + [1] + Zeros(0)) == 0
  {
    var b: seq<nat> := [1];
    IntendedRunsSingleBlock(0, b, 0);
  }
  lemma RunsThreeCardRunBlocksPiece1()
    ensures IntendedRuns(Zeros(1) + [1, 1, 1] + Zeros(0)) == 3
  {
    var b: seq<nat> := [1, 1, 1];
    IntendedRunsSingleBlock(1, b, 0);
    assert Product(b) == 1 by {
      ProductSnoc([], 1);
      assert [] + [1] == [1];
      ProductSnoc([1], 1);
      assert [1] + [1] == [1, 1];
      ProductSnoc([1, 1], 1);
      assert [1, 1] + [1] == [1, 1, 1];
    }
  }
  lemma RunsThreeCardRunBlocksPiece2()
    ensures IntendedRuns(Zeros(3) + [1] + Zeros(2)) == 0
  {
    var b: seq<nat> := [1];
    IntendedRunsSingleBlock(3, b, 2);
  }
  lemma RunsThreeCardRunBlocks()
    ensures IntendedRuns(Zeros(0) + [1] + Zeros(0) + [0] + (Zeros(1) + [1, 1, 1] + Zeros(0) + [0] + (Zeros(3) + [1] + Zeros(2)))) == 3
  {
    RunsThreeCardRunBlocksPiece0();
    RunsThreeCardRunBlocksPiece1();
    RunsThreeCardRunBlocksPiece2();
    IntendedRunsSplit(Zeros(0) + [1] + Zeros(0), Zeros(1) + [1, 1, 1] + Zeros(0) + [0] + (Zeros(3) + [1] + Zeros(2)));
    IntendedRunsSplit(Zeros(1) + [1, 1, 1] + Zeros(0), Zeros(3) + [1] + Zeros(2));
  }
  lemma RunsThreeCardRunBlocksLayout()
    ensures [1, 0, 0, 1, 1, 1, 0, 0, 0, 0, 1, 0, 0] == Zeros(0) + [1] + Zeros(0) + [0] + (Zeros(1) + [1, 1, 1] + Zeros(0) + [0] + (Zeros(3) + [1] + Zeros(2)))
  {
  }
  /** Four, five, six: a run of three. */
  lemma RunsThreeCardRun(hand: seq<Card>, starter: Card)
    requires |hand| == 4
    requires hand[0] == Card(Four, Clubs) && hand[1] == Card(Five, Hearts)
    requires hand[2] == Card(Six, Diamonds) && hand[3] == Card(Jack, Spades)
    requires starter == Card(Ace, Spades)
    ensures RunsOfCounts(RankCounts(hand + [starter])) == 3
    ensures CountedRuns(hand, starter) == 3
  {
    assert hand + [starter] == [hand[0], hand[1], hand[2], hand[3], starter];
    RunsThreeCardRunCounts(hand[0], hand[1], hand[2], hand[3], starter);
    RunsThreeCardRunScan();
    RunsThreeCardRunBlocksLayout();
    RunsThreeCardRunBlocks();
  }
  lemma RunsDoubleRunWithStarterCounts(c0: Card, c1: Card, c2: Card, c3: Card, c4: Card)
    requires c0 == Card(Four, Clubs)
    requires c1 == Card(Five, Hearts)
    requires c2 == Card(Six, Diamonds)
    requires c3 == Card(Jack, Spades)
    requires c4 == Card(Five, Spades)
    ensures RankCounts([c0, c1, c2, c3, c4]) == [0, 0, 0, 1, 2, 1, 0, 0, 0, 0, 1, 0, 0]
  {
    RankCountsOfFive(c0, c1, c2, c3, c4);
  }
  lemma RunsDoubleRunWithStarterScan()
    ensures RunsOfCounts([0, 0, 0, 1, 2, 1, 0, 0, 0, 0, 1, 0, 0]) == 6
  {
    var c := [0, 0, 0, 1, 2, 1, 0, 0, 0, 0, 1, 0, 0];
    assert ScanTo(c, 1) == RunScan(0, 0, 1);
    assert ScanTo(c, 2) == RunScan(0, 0, 1);
    assert ScanTo(c, 3) == RunScan(0, 0, 1);
    assert ScanTo(c, 4) == RunScan(1, 1, 1);
    assert ScanTo(c, 5) == RunScan(2, 2, 2);
    assert ScanTo(c, 6) == RunScan(3, 3, 2);
    assert ScanTo(c, 7) == RunScan(0, 3, 2);
    assert ScanTo(c, 8) == RunScan(0, 3, 2);
    assert ScanTo(c, 9) == RunScan(0, 3, 2);
    assert ScanTo(c, 10) == RunScan(0, 3, 2);
    assert ScanTo(c, 11) == RunScan(1, 3, 2);
    assert ScanTo(c, 12) == RunScan(0, 3, 2);
    assert ScanTo(c, 13) == RunScan(0, 3, 2);
  }
  lemma RunsDoubleRunWithStarterBlocksPiece0()
    ensures IntendedRuns(Zeros(3) + [1, 2, 1] + Zeros(0)) == 6
  {
    var b: seq<nat> := [1, 2, 1];
    IntendedRunsSingleBlock(3, b, 0);
    assert Product(b) == 2 by {
      ProductSnoc([], 1);
      assert [] + [1] == [1];
      ProductSnoc([1], 2);
      assert [1] + [2] == [1, 2];
      ProductSnoc([1, 2], 1);
      assert [1, 2] + [1] == [1, 2, 1];
    }
  }
  lemma RunsDoubleRunWithStarterBlocksPiece1()
    ensures IntendedRuns(Zeros(3) + [1] + Zeros(2)) == 0
  {
    var b: seq<nat> := [1];
    IntendedRunsSingleBlock(3, b, 2);
  }
  lemma RunsDoubleRunWithStarterBlocks()
    ensures IntendedRuns(Zeros(3) + [1, 2, 1] + Zeros(0) + [0] + (Zeros(3) + [1] + Zeros(2))) == 6
  {
    RunsDoubleRunWithStarterBlocksPiece0();
    RunsDoubleRunWithStarterBlocksPiece1();
    IntendedRunsSplit(Zeros(3) + [1, 2, 1] + Zeros(0), Zeros(3) + [1] + Zeros(2));
  }
  lemma RunsDoubleRunWithStarterBlocksLayout()
    ensures [0, 0, 0, 1, 2, 1, 0, 0, 0, 0, 1, 0, 0] == Zeros(3) + [1, 2, 1] + Zeros(0) + [0] + (Zeros(3) + [1] + Zeros(2))
  {
  }
  /** The five starter makes the run of three twice. */
  lemma RunsDoubleRunWithStarter(hand: seq<Card>, starter: Card)
    requires |hand| == 4
    requires hand[0] == Card(Four, Clubs) && hand[1] == Card(Five, Hearts)
    requires hand[2] == Card(Six, Diamonds) && hand[3] == Card(Jack, Spades)
    requires starter == Card(Five, Spades)
    ensures RunsOfCounts(RankCounts(hand + [starter])) == 6
    ensures CountedRuns(hand, starter) == 6
  {
    assert hand + [starter] == [hand[0], hand[1], hand[2], hand[3], starter];
    RunsDoubleRunWithStarterCounts(hand[0], hand[1], hand[2], hand[3], starter);
    RunsDoubleRunWithStarterScan();
    RunsDoubleRunWithStarterBlocksLayout();
    RunsDoubleRunWithStarterBlocks();
  }
  lemma RunsDoubleRunInHandCounts(c0: Card, c1: Card, c2: Card, c3: Card, c4: Card)
    requires c0 == Card(Four, Clubs)
    requires c1 == Card(Five, Hearts)
    requires c2 == Card(Six, Diamonds)
    requires c3 == Card(Five, Spades)
    requires c4 == Card(Ace, Spades)
    ensures RankCounts([c0, c1, c2, c3, c4]) == [1, 0, 0, 1, 2, 1, 0, 0, 0, 0, 0, 0, 0]
  {
    RankCountsOfFive(c0, c1, c2, c3, c4);
  }
  lemma RunsDoubleRunInHandScan()
    ensures RunsOfCounts([1, 0, 0, 1, 2, 1, 0, 0, 0, 0, 0, 0, 0]) == 6
  {
    var c := [1, 0, 0, 1, 2, 1, 0, 0, 0, 0, 0, 0, 0];
    assert ScanTo(c, 1) == RunScan(1, 1, 1);
    assert ScanTo(c, 2) == RunScan(0, 1, 1);
    assert ScanTo(c, 3) == RunScan(0, 1, 1);
    assert ScanTo(c, 4) == RunScan(1, 1, 1);
    assert ScanTo(c, 5) == RunScan(2, 2, 2);
    assert ScanTo(c, 6) == RunScan(3, 3, 2);
    assert ScanTo(c, 7) == RunScan(0, 3, 2);
    assert ScanTo(c, 8) == RunScan(0, 3, 2);
    assert ScanTo(c, 9) == RunScan(0, 3, 2);
    assert ScanTo(c, 10) == RunScan(0, 3, 2);
    assert ScanTo(c, 11) == RunScan(0, 3, 2);
    assert ScanTo(c, 12) == RunScan(0, 3, 2);
    assert ScanTo(c, 13) == RunScan(0, 3, 2);
  }
  lemma RunsDoubleRunInHandBlocksPiece0()
    ensures IntendedRuns(Zeros(0) + [1] + Zeros(0)) == 0
  {
    var b: seq<nat> := [1];
    IntendedRunsSingleBlock(0, b, 0);
  }
  lemma RunsDoubleRunInHandBlocksPiece1()
    ensures IntendedRuns(Zeros(1) + [1, 2, 1] + Zeros(7)) == 6
  {
    var b: seq<nat> := [1, 2, 1];
    IntendedRunsSingleBlock(1, b, 7);
    assert Product(b) == 2 by {
      ProductSnoc([], 1);
      assert [] + [1] == [1];
      ProductSnoc([1], 2);
      assert [1] + [2] == [1, 2];
      ProductSnoc([1, 2], 1);
      assert [1, 2] + [1] == [1, 2, 1];
    }
  }
  lemma RunsDoubleRunInHandBlocks()
    ensures IntendedRuns(Zeros(0) + [1] + Zeros(0) + [0] + (Zeros(1) + [1, 2, 1] + Zeros(7))) == 6
  {
    RunsDoubleRunInHandBlocksPiece0();
    RunsDoubleRunInHandBlocksPiece1();
    IntendedRunsSplit(Zeros(0) + [1] + Zeros(0), Zeros(1) + [1, 2, 1] + Zeros(7));
  }
  lemma RunsDoubleRunInHandBlocksLayout()
    ensures [1, 0, 0, 1, 2, 1, 0, 0, 0, 0, 0, 0, 0] == Zeros(0) + [1] + Zeros(0) + [0] + (Zeros(1) + [1, 2, 1] + Zeros(7))
  {
  }
  /** Two fives make the run of three twice. */
  lemma RunsDoubleRunInHand(hand: seq<Card>, starter: Card)
    requires |hand| == 4
    requires hand[0] == Card(Four, Clubs) && hand[1] == Card(Five, Hearts)
    requires hand[2] == Card(Six, Diamonds) && hand[3] == Card(Five, Spades)
    requires starter == Card(Ace, Spades)
    ensures RunsOfCounts(RankCounts(hand + [starter])) == 6
    ensures CountedRuns(hand, starter) == 6
  {
    assert hand + [starter] == [hand[0], hand[1], hand[2], hand[3], starter];
    RunsDoubleRunInHandCounts(hand[0], hand[1], hand[2], hand[3], starter);
    RunsDoubleRunInHandScan();
    RunsDoubleRunInHandBlocksLayout();
    RunsDoubleRunInHandBlocks();
  }
  lemma RunsDoubleDoubleRunCounts(c0: Card, c1: Card, c2: Card, c3: Card, c4: Card)
    requires c0 == Card(Six, Clubs)
    requires c1 == Card(Four, Hearts)
    requires c2 == Card(Five, Diamonds)
    requires c3 == Card(Four, Spades)
    requires c4 == Card(Five, Spades)
    ensures RankCounts([c0, c1, c2, c3, c4]) == [0, 0, 0, 2, 2, 1, 0, 0, 0, 0, 0, 0, 0]
  {
    RankCountsOfFive(c0, c1, c2, c3, c4);
  }
  lemma RunsDoubleDoubleRunScan()
    ensures RunsOfCounts([0, 0, 0, 2, 2, 1, 0, 0, 0, 0, 0, 0, 0]) == 12
  {
    var c := [0, 0, 0, 2, 2, 1, 0, 0, 0, 0, 0, 0, 0];
    assert ScanTo(c, 1) == RunScan(0, 0, 1);
    assert ScanTo(c, 2) == RunScan(0, 0, 1);
    assert ScanTo(c, 3) == RunScan(0, 0, 1);
    assert ScanTo(c, 4) == RunScan(1, 1, 2);
    assert ScanTo(c, 5) == RunScan(2, 2, 4);
    assert ScanTo(c, 6) == RunScan(3, 3, 4);
    assert ScanTo(c, 7) == RunScan(0, 3, 4);
    assert ScanTo(c, 8) == RunScan(0, 3, 4);
    assert ScanTo(c, 9) == RunScan(0, 3, 4);
    assert ScanTo(c, 10) == RunScan(0, 3, 4);
    assert ScanTo(c, 11) == RunScan(0, 3, 4);
    assert ScanTo(c, 12) == RunScan(0, 3, 4);
    assert ScanTo(c, 13) == RunScan(0, 3, 4);
  }
  lemma RunsDoubleDoubleRunBlocksPiece0()
    ensures IntendedRuns(Zeros(3) + [2, 2, 1] + Zeros(7)) == 12
  {
    var b: seq<nat> := [2, 2, 1];
    IntendedRunsSingleBlock(3, b, 7);
    assert Product(b) == 4 by {
      ProductSnoc([], 2);
      assert [] + [2] == [2];
      ProductSnoc([2], 2);
      assert [2] + [2] == [2, 2];
      ProductSnoc([2, 2], 1);
      assert [2, 2] + [1] == [2, 2, 1];
    }
  }
  lemma RunsDoubleDoubleRunBlocks()
    ensures IntendedRuns(Zeros(3) + [2, 2, 1] + Zeros(7)) == 12
  {
    RunsDoubleDoubleRunBlocksPiece0();
  }
  lemma RunsDoubleDoubleRunBlocksLayout()
    ensures [0, 0, 0, 2, 2, 1, 0, 0, 0, 0, 0, 0, 0] == Zeros(3) + [2, 2, 1] + Zeros(7)
  {
  }
  /** Two fours and two fives: the run of three four times. */
  lemma RunsDoubleDoubleRun(hand: seq<Card>, starter: Card)
    requires |hand| == 4
    requires hand[0] == Card(Six, Clubs) && hand[1] == Card(Four, Hearts)
    requires hand[2] == Card(Five, Diamonds) && hand[3] == Card(Four, Spades)
    requires starter == Card(Five, Spades)
    ensures RunsOfCounts(RankCounts(hand + [starter])) == 12
    ensures CountedRuns(hand, starter) == 12
  {
    assert hand + [starter] == [hand[0], hand[1], hand[2], hand[3], starter];
    RunsDoubleDoubleRunCounts(hand[0], hand[1], hand[2], hand[3], starter);
    RunsDoubleDoubleRunScan();
    RunsDoubleDoubleRunBlocksLayout();
    RunsDoubleDoubleRunBlocks();
  }
  lemma RunsDoubleRunOfFourCounts(c0: Card, c1: Card, c2: Card, c3: Card, c4: Card)
    requires c0 == Card(Three, Clubs)
    requires c1 == Card(Four, Hearts)
    requires c2 == Card(Five, Diamonds)
    requires c3 == Card(Six, Spades)
    requires c4 == Card(Three, Spades)
    ensures RankCounts([c0, c1, c2, c3, c4]) == [0, 0, 2, 1, 1, 1, 0, 0, 0, 0, 0, 0, 0]
  {
    RankCountsOfFive(c0, c1, c2, c3, c4);
  }
  lemma RunsDoubleRunOfFourScan()
    ensures RunsOfCounts([0, 0, 2, 1, 1, 1, 0, 0, 0, 0, 0, 0, 0]) == 8
  {
    var c := [0, 0, 2, 1, 1, 1, 0, 0, 0, 0, 0, 0, 0];
    assert ScanTo(c, 1) == RunScan(0, 0, 1);
    assert ScanTo(c, 2) == RunScan(0, 0, 1);
    assert ScanTo(c, 3) == RunScan(1, 1, 2);
    assert ScanTo(c, 4) == RunScan(2, 2, 2);
    assert ScanTo(c, 5) == RunScan(3, 3, 2);
    assert ScanTo(c, 6) == RunScan(4, 4, 2);
    assert ScanTo(c, 7) == RunScan(0, 4, 2);
    assert ScanTo(c, 8) == RunScan(0, 4, 2);
    assert ScanTo(c, 9) == RunScan(0, 4, 2);
    assert ScanTo(c, 10) == RunScan(0, 4, 2);
    assert ScanTo(c, 11) == RunScan(0, 4, 2);
    assert ScanTo(c, 12) == RunScan(0, 4, 2);
    assert ScanTo(c, 13) == RunScan(0, 4, 2);
  }
  lemma RunsDoubleRunOfFourBlocksPiece0()
    ensures IntendedRuns(Zeros(2) + [2, 1, 1, 1] + Zeros(7)) == 8
  {
    var b: seq<nat> := [2, 1, 1, 1];
    IntendedRunsSingleBlock(2, b, 7);
    assert Product(b) == 2 by {
      ProductSnoc([], 2);
      assert [] + [2] == [2];
      ProductSnoc([2], 1);
      assert [2] + [1] == [2, 1];
      ProductSnoc([2, 1], 1);
      assert [2, 1] + [1] == [2, 1, 1];
      ProductSnoc([2, 1, 1], 1);
      assert [2, 1, 1] + [1] == [2, 1, 1, 1];
    }
  }
  lemma RunsDoubleRunOfFourBlocks()
    ensures IntendedRuns(Zeros(2) + [2, 1, 1, 1] + Zeros(7)) == 8
  {
    RunsDoubleRunOfFourBlocksPiece0();
  }
  lemma RunsDoubleRunOfFourBlocksLayout()
    ensures [0, 0, 2, 1, 1, 1, 0, 0, 0, 0, 0, 0, 0] == Zeros(2) + [2, 1, 1, 1] + Zeros(7)
  {
  }
  /** A second three doubles the run of four. */
  lemma RunsDoubleRunOfFour(hand: seq<Card>, starter: Card)
    requires |hand| == 4
    requires hand[0] == Card(Three, Clubs) && hand[1] == Card(Four, Hearts)
    requires hand[2] == Card(Five, Diamonds) && hand[3] == Card(Six, Spades)
    requires starter == Card(Three, Spades)
    ensures RunsOfCounts(RankCounts(hand + [starter])) == 8
    ensures CountedRuns(hand, starter) == 8
  {
    assert hand + [starter] == [hand[0], hand[1], hand[2], hand[3], starter];
    RunsDoubleRunOfFourCounts(hand[0], hand[1], hand[2], hand[3], starter);
    RunsDoubleRunOfFourScan();
    RunsDoubleRunOfFourBlocksLayout();
    RunsDoubleRunOfFourBlocks();
  }
  lemma RunsFourCardRunInHandCounts(c0: Card, c1: Card, c2: Card, c3: Card, c4: Card)
    requires c0 == Card(Three, Clubs)
    requires c1 == Card(Four, Hearts)
    requires c2 == Card(Five, Diamonds)
    requires c3 == Card(Six, Spades)
    requires c4 == Card(Ace, Spades)
    ensures RankCounts([c0, c1, c2, c3, c4]) == [1, 0, 1, 1, 1, 1, 0, 0, 0, 0, 0, 0, 0]
  {
    RankCountsOfFive(c0, c1, c2, c3, c4);
  }
  lemma RunsFourCardRunInHandScan()
    ensures RunsOfCounts([1, 0, 1, 1, 1, 1, 0, 0, 0, 0, 0, 0, 0]) == 4
  {
    var c := [1, 0, 1, 1, 1, 1, 0, 0, 0, 0, 0, 0, 0];
    assert ScanTo(c, 1) == RunScan(1, 1, 1);
    assert ScanTo(c, 2) == RunScan(0, 1, 1);
    assert ScanTo(c, 3) == RunScan(1, 1, 1);
    assert ScanTo(c, 4) == RunScan(2, 2, 1);
    assert ScanTo(c, 5) == RunScan(3, 3, 1);
    assert ScanTo(c, 6) == RunScan(4, 4, 1);
    assert ScanTo(c, 7) == RunScan(0, 4, 1);
    assert ScanTo(c, 8) == RunScan(0, 4, 1);
    assert ScanTo(c, 9) == RunScan(0, 4, 1);
    assert ScanTo(c, 10) == RunScan(0, 4, 1);
    assert ScanTo(c, 11) == RunScan(0, 4, 1);
    assert ScanTo(c, 12) == RunScan(0, 4, 1);
    assert ScanTo(c, 13) == RunScan(0, 4, 1);
  }
  lemma RunsFourCardRunInHandBlocksPiece0()
    ensures IntendedRuns(Zeros(0) + [1] + Zeros(0)) == 0
  {
    var b: seq<nat> := [1];
    IntendedRunsSingleBlock(0, b, 0);
  }
  lemma RunsFourCardRunInHandBlocksPiece1()
    ensures IntendedRuns(Zeros(0) + [1, 1, 1, 1] + Zeros(7)) == 4
  {
    var b: seq<nat> := [1, 1, 1, 1];
    IntendedRunsSingleBlock(0, b, 7);
    assert Product(b) == 1 by {
      ProductSnoc([], 1);
      assert [] + [1] == [1];
      ProductSnoc([1], 1);
      assert [1] + [1] == [1, 1];
      ProductSnoc([1, 1], 1);
      assert [1, 1] + [1] == [1, 1, 1];
      ProductSnoc([1, 1, 1], 1);
      assert [1, 1, 1] + [1] == [1, 1, 1, 1];
    }
  }
  lemma RunsFourCardRunInHandBlocks()
    ensures IntendedRuns(Zeros(0) + [1] + Zeros(0) + [0] + (Zeros(0) + [1, 1, 1, 1] + Zeros(7))) == 4
  {
    RunsFourCardRunInHandBlocksPiece0();
    RunsFourCardRunInHandBlocksPiece1();
    IntendedRunsSplit(Zeros(0) + [1] + Zeros(0), Zeros(0) + [1, 1, 1, 1] + Zeros(7));
  }
  lemma RunsFourCardRunInHandBlocksLayout()
    ensures [1, 0, 1, 1, 1, 1, 0, 0, 0, 0, 0, 0, 0] == Zeros(0) + [1] + Zeros(0) + [0] + (Zeros(0) + [1, 1, 1, 1] + Zeros(7))
  {
  }
  /** Three to six in the hand: a run of four. */
  lemma RunsFourCardRunInHand(hand: seq<Card>, starter: Card)
    requires |hand| == 4
    requires hand[0] == Card(Three, Clubs) && hand[1] == Card(Four, Hearts)
    requires hand[2] == Card(Five, Diamonds) && hand[3] == Card(Six, Spades)
    requires starter == Card(Ace, Spades)
    ensures RunsOfCounts(RankCounts(hand + [starter])) == 4
    ensures CountedRuns(hand, starter) == 4
  {
    assert hand + [starter] == [hand[0], hand[1], hand[2], hand[3], starter];
    RunsFourCardRunInHandCounts(hand[0], hand[1], hand[2], hand[3], starter);
    RunsFourCardRunInHandScan();
    RunsFourCardRunInHandBlocksLayout();
    RunsFourCardRunInHandBlocks();
  }
  lemma RunsFourCardRunWithStarterCounts(c0: Card, c1: Card, c2: Card, c3: Card, c4: Card)
    requires c0 == Card(Three, Clubs)
    requires c1 == Card(Four, Hearts)
    requires c2 == Card(Five, Diamonds)
    requires c3 == Card(Jack, Spades)
    requires c4 == Card(Six, Spades)
    ensures RankCounts([c0, c1, c2, c3, c4]) == [0, 0, 1, 1, 1, 1, 0, 0, 0, 0, 1, 0, 0]
  {
    RankCountsOfFive(c0, c1, c2, c3, c4);
  }
  lemma RunsFourCardRunWithStarterScan()
    ensures RunsOfCounts([0, 0, 1, 1, 1, 1, 0, 0, 0, 0, 1, 0, 0]) == 4
  {
    var c := [0, 0, 1, 1, 1, 1, 0, 0, 0, 0, 1, 0, 0];
    assert ScanTo(c, 1) == RunScan(0, 0, 1);
    assert ScanTo(c, 2) == RunScan(0, 0, 1);
    assert ScanTo(c, 3) == RunScan(1, 1, 1);
    assert ScanTo(c, 4) == RunScan(2, 2, 1);
    assert ScanTo(c, 5) == RunScan(3, 3, 1);
    assert ScanTo(c, 6) == RunScan(4, 4, 1);
    assert ScanTo(c, 7) == RunScan(0, 4, 1);
    assert ScanTo(c, 8) == RunScan(0, 4, 1);
    assert ScanTo(c, 9) == RunScan(0, 4, 1);
    assert ScanTo(c, 10) == RunScan(0, 4, 1);
    assert ScanTo(c, 11) == RunScan(1, 4, 1);
    assert ScanTo(c, 12) == RunScan(0, 4, 1);
    assert ScanTo(c, 13) == RunScan(0, 4, 1);
  }
  lemma RunsFourCardRunWithStarterBlocksPiece0()
    ensures IntendedRuns(Zeros(2) + [1, 1, 1, 1] + Zeros(0)) == 4
  {
    var b: seq<nat> := [1, 1, 1, 1];
    IntendedRunsSingleBlock(2, b, 0);
    assert Product(b) == 1 by {
      ProductSnoc([], 1);
      assert [] + [1] == [1];
      ProductSnoc([1], 1);
      assert [1] + [1] == [1, 1];
      ProductSnoc([1, 1], 1);
      assert [1, 1] + [1] == [1, 1, 1];
      ProductSnoc([1, 1, 1], 1);
      assert [1, 1, 1] + [1] == [1, 1, 1, 1];
    }
  }
  lemma RunsFourCardRunWithStarterBlocksPiece1()
    ensures IntendedRuns(Zeros(3) + [1] + Zeros(2)) == 0
  {
    var b: seq<nat> := [1];
    IntendedRunsSingleBlock(3, b, 2);
  }
  lemma RunsFourCardRunWithStarterBlocks()
    ensures IntendedRuns(Zeros(2) + [1, 1, 1, 1] + Zeros(0) + [0] + (Zeros(3) + [1] + Zeros(2))) == 4
  {
    RunsFourCardRunWithStarterBlocksPiece0();
    RunsFourCardRunWithStarterBlocksPiece1();
    IntendedRunsSplit(Zeros(2) + [1, 1, 1, 1] + Zeros(0), Zeros(3) + [1] + Zeros(2));
  }
  lemma RunsFourCardRunWithStarterBlocksLayout()
    ensures [0, 0, 1, 1, 1, 1, 0, 0, 0, 0, 1, 0, 0] == Zeros(2) + [1, 1, 1, 1] + Zeros(0) + [0] + (Zeros(3) + [1] + Zeros(2))
  {
  }
  /** Three to five with the six starter: a run of four. */
  lemma RunsFourCardRunWithStarter(hand: seq<Card>, starter: Card)
    requires |hand| == 4
    requires hand[0] == Card(Three, Clubs) && hand[1] == Card(Four, Hearts)
    requires hand[2] == Card(Five, Diamonds) && hand[3] == Card(Jack, Spades)
    requires starter == Card(Six, Spades)
    ensures RunsOfCounts(RankCounts(hand + [starter])) == 4
    ensures CountedRuns(hand, starter) == 4
  {
    assert hand + [starter] == [hand[0], hand[1], hand[2], hand[3], starter];
    RunsFourCardRunWithStarterCounts(hand[0], hand[1], hand[2], hand[3], starter);
    RunsFourCardRunWithStarterScan();
    RunsFourCardRunWithStarterBlocksLayout();
    RunsFourCardRunWithStarterBlocks();
  }
  lemma RunsOfFiveCounts(c0: Card, c1: Card, c2: Card, c3: Card, c4: Card)
    requires c0 == Card(Two, Clubs)
    requires c1 == Card(Three, Hearts)
    requires c2 == Card(Five, Diamonds)
    requires c3 == Card(Four, Spades)
    requires c4 == Card(Ace, Spades)
    ensures RankCounts([c0, c1, c2, c3, c4]) == [1, 1, 1, 1, 1, 0, 0, 0, 0, 0, 0, 0, 0]
  {
    RankCountsOfFive(c0, c1, c2, c3, c4);
  }
  lemma RunsOfFiveScan()
    ensures RunsOfCounts([1, 1, 1, 1, 1, 0, 0, 0, 0, 0, 0, 0, 0]) == 5
  {
    var c := [1, 1, 1, 1, 1, 0, 0, 0, 0, 0, 0, 0, 0];
    assert ScanTo(c, 1) == RunScan(1, 1, 1);
    assert ScanTo(c, 2) == RunScan(2, 2, 1);
    assert ScanTo(c, 3) == RunScan(3, 3, 1);
    assert ScanTo(c, 4) == RunScan(4, 4, 1);
    assert ScanTo(c, 5) == RunScan(5, 5, 1);
    assert ScanTo(c, 6) == RunScan(0, 5, 1);
    assert ScanTo(c, 7) == RunScan(0, 5, 1);
    assert ScanTo(c, 8) == RunScan(0, 5, 1);
    assert ScanTo(c, 9) == RunScan(0, 5, 1);
    assert ScanTo(c, 10) == RunScan(0, 5, 1);
    assert ScanTo(c, 11) == RunScan(0, 5, 1);
    assert ScanTo(c, 12) == RunScan(0, 5, 1);
    assert ScanTo(c, 13) == RunScan(0, 5, 1);
  }
  lemma RunsOfFiveBlocksPiece0()
    ensures IntendedRuns(Zeros(0) + [1, 1, 1, 1, 1] + Zeros(8)) == 5
  {
    var b: seq<nat> := [1, 1, 1, 1, 1];
    IntendedRunsSingleBlock(0, b, 8);
    assert Product(b) == 1 by {
      ProductSnoc([], 1);
      assert [] + [1] == [1];
      ProductSnoc([1], 1);
      assert [1] + [1] == [1, 1];
      ProductSnoc([1, 1], 1);
      assert [1, 1] + [1] == [1, 1, 1];
      ProductSnoc([1, 1, 1], 1);
      assert [1, 1, 1] + [1] == [1, 1, 1, 1];
      ProductSnoc([1, 1, 1, 1], 1);
      assert [1, 1, 1, 1] + [1] == [1, 1, 1, 1, 1];
    }
  }
  lemma RunsOfFiveBlocks()
    ensures IntendedRuns(Zeros(0) + [1, 1, 1, 1, 1] + Zeros(8)) == 5
  {
    RunsOfFiveBlocksPiece0();
  }
  lemma RunsOfFiveBlocksLayout()
    ensures [1, 1, 1, 1, 1, 0, 0, 0, 0, 0, 0, 0, 0] == Zeros(0) + [1, 1, 1, 1, 1] + Zeros(8)
  {
  }
  /** Ace to five: a run of five. */
  lemma RunsOfFive(hand: seq<Card>, starter: Card)
    requires |hand| == 4
    requires hand[0] == Card(Two, Clubs) && hand[1] == Card(Three, Hearts)
    requires hand[2] == Card(Five, Diamonds) && hand[3] == Card(Four, Spades)
    requires starter == Card(Ace, Spades)
    ensures RunsOfCounts(RankCounts(hand + [starter])) == 5
    ensures CountedRuns(hand, starter) == 5
  {
    assert hand + [starter] == [hand[0], hand[1], hand[2], hand[3], starter];
    RunsOfFiveCounts(hand[0], hand[1], hand[2], hand[3], starter);
    RunsOfFiveScan();
    RunsOfFiveBlocksLayout();
    RunsOfFiveBlocks();
  }
  lemma RunsMultiplierSkippedCounts(c0: Card, c1: Card, c2: Card, c3: Card, c4: Card)
    requires c0 == Card(Ace, Clubs)
    requires c1 == Card(Five, Hearts)
    requires c2 == Card(Five, Diamonds)
    requires c3 == Card(Six, Spades)
    requires c4 == Card(Seven, Clubs)
    ensures RankCounts([c0, c1, c2, c3, c4]) == [1, 0, 0, 0, 2, 1, 1, 0, 0, 0, 0, 0, 0]
  {
    RankCountsOfFive(c0, c1, c2, c3, c4);
  }
  lemma RunsMultiplierSkippedScan()
    ensures RunsOfCounts([1, 0, 0, 0, 2, 1, 1, 0, 0, 0, 0, 0, 0]) == 3
  {
    var c := [1, 0, 0, 0, 2, 1, 1, 0, 0, 0, 0, 0, 0];
    assert ScanTo(c, 1) == RunScan(1, 1, 1);
    assert ScanTo(c, 2) == RunScan(0, 1, 1);
    assert ScanTo(c, 3) == RunScan(0, 1, 1);
    assert ScanTo(c, 4) == RunScan(0, 1, 1);
    assert ScanTo(c, 5) == RunScan(1, 1, 1);
    assert ScanTo(c, 6) == RunScan(2, 2, 1);
    assert ScanTo(c, 7) == RunScan(3, 3, 1);
    assert ScanTo(c, 8) == RunScan(0, 3, 1);
    assert ScanTo(c, 9) == RunScan(0, 3, 1);
    assert ScanTo(c, 10) == RunScan(0, 3, 1);
    assert ScanTo(c, 11) == RunScan(0, 3, 1);
    assert ScanTo(c, 12) == RunScan(0, 3, 1);
    assert ScanTo(c, 13) == RunScan(0, 3, 1);
  }
  lemma RunsMultiplierSkippedBlocksPiece0()
    ensures IntendedRuns(Zeros(0) + [1] + Zeros(0)) == 0
  {
    var b: seq<nat> := [1];
    IntendedRunsSingleBlock(0, b, 0);
  }
  lemma RunsMultiplierSkippedBlocksPiece1()
    ensures IntendedRuns(Zeros(2) + [2, 1, 1] + Zeros(6)) == 6
  {
    var b: seq<nat> := [2, 1, 1];
    IntendedRunsSingleBlock(2, b, 6);
    assert Product(b) == 2 by {
      ProductSnoc([], 2);
      assert [] + [2] == [2];
      ProductSnoc([2], 1);
      assert [2] + [1] == [2, 1];
      ProductSnoc([2, 1], 1);
      assert [2, 1] + [1] == [2, 1, 1];
    }
  }
  lemma RunsMultiplierSkippedBlocks()
    ensures IntendedRuns(Zeros(0) + [1] + Zeros(0) + [0] + (Zeros(2) + [2, 1, 1] + Zeros(6))) == 6
  {
    RunsMultiplierSkippedBlocksPiece0();
    RunsMultiplierSkippedBlocksPiece1();
    IntendedRunsSplit(Zeros(0) + [1] + Zeros(0), Zeros(2) + [2, 1, 1] + Zeros(6));
  }
  lemma RunsMultiplierSkippedBlocksLayout()
    ensures [1, 0, 0, 0, 2, 1, 1, 0, 0, 0, 0, 0, 0] == Zeros(0) + [1] + Zeros(0) + [0] + (Zeros(2) + [2, 1, 1] + Zeros(6))
  {
  }
  /** The written scan's discrepancy: the lone ace is its first longest stretch, so when the stretch five to seven starts, the two fives are not a new maximum and their factor is lost; it scores 3 where the two runs five-six-seven are worth 6. */
  lemma RunsMultiplierSkipped(hand: seq<Card>, starter: Card)
    requires |hand| == 4
    requires hand[0] == Card(Ace, Clubs) && hand[1] == Card(Five, Hearts)
    requires hand[2] == Card(Five, Diamonds) && hand[3] == Card(Six, Spades)
    requires starter == Card(Seven, Clubs)
    ensures RunsOfCounts(RankCounts(hand + [starter])) == 3
    ensures CountedRuns(hand, starter) == 6
  {
    assert hand + [starter] == [hand[0], hand[1], hand[2], hand[3], starter];
    RunsMultiplierSkippedCounts(hand[0], hand[1], hand[2], hand[3], starter);
    RunsMultiplierSkippedScan();
    RunsMultiplierSkippedBlocksLayout();
    RunsMultiplierSkippedBlocks();
  }
  // ---------------------------------------------------------------------------
  // Flushes and nobs
  // ---------------------------------------------------------------------------

  /** A spade among the clubs: no flush, though the starter is a club. */
  lemma FlushesHandMixed(hand: seq<Card>, starter: Card)
    requires |hand| == 4
    requires hand[0] == Card(Two, Clubs) && hand[1] == Card(Three, Clubs)
    requires hand[2] == Card(Five, Clubs) && hand[3] == Card(Jack, Spades)
    requires starter == Card(Five, Clubs)
    ensures Flushes(hand, starter, false) == 0
  {
    assert hand[3].suit != hand[0].suit;
  }
  /** Four clubs in the hand with a spade starter score 4. */
  lemma FlushesFourInHand(hand: seq<Card>, starter: Card)
    requires |hand| == 4
    requires hand[0] == Card(Two, Clubs) && hand[1] == Card(Three, Clubs)
    requires hand[2] == Card(Five, Clubs) && hand[3] == Card(Jack, Clubs)
    requires starter == Card(Five, Spades)
    ensures Flushes(hand, starter, false) == 4
  {

  }
  /** The same four clubs as the crib score nothing. */
  lemma FlushesFourInCrib(hand: seq<Card>, starter: Card)
    requires |hand| == 4
    requires hand[0] == Card(Two, Clubs) && hand[1] == Card(Three, Clubs)
    requires hand[2] == Card(Five, Clubs) && hand[3] == Card(Jack, Clubs)
    requires starter == Card(Five, Spades)
    ensures Flushes(hand, starter, true) == 0
  {

  }
  /** Five clubs score 5 in the hand. */
  lemma FlushesFiveInHand(hand: seq<Card>, starter: Card)
    requires |hand| == 4
    requires hand[0] == Card(Two, Clubs) && hand[1] == Card(Three, Clubs)
    requires hand[2] == Card(Five, Clubs) && hand[3] == Card(Jack, Clubs)
    requires starter == Card(Ace, Clubs)
    ensures Flushes(hand, starter, false) == 5
  {

  }
  /** Five clubs score 5 in the crib. */
  lemma FlushesFiveInCrib(hand: seq<Card>, starter: Card)
    requires |hand| == 4
    requires hand[0] == Card(Two, Clubs) && hand[1] == Card(Three, Clubs)
    requires hand[2] == Card(Five, Clubs) && hand[3] == Card(Jack, Clubs)
    requires starter == Card(Ace, Clubs)
    ensures Flushes(hand, starter, true) == 5
  {

  }
  /** No jack: no nobs. */
  lemma NobsNoJack(hand: seq<Card>, starter: Card)
    requires |hand| == 4
    requires hand[0] == Card(Five, Clubs) && hand[1] == Card(Five, Hearts)
    requires hand[2] == Card(Five, Diamonds) && hand[3] == Card(Queen, Spades)
    requires starter == Card(Five, Spades)
    ensures Nobs(hand, starter) == 0
  {
  }
  /** The jack of spades with a diamond starter: no nobs. */
  lemma NobsOtherJack(hand: seq<Card>, starter: Card)
    requires |hand| == 4
    requires hand[0] == Card(Five, Clubs) && hand[1] == Card(Five, Hearts)
    requires hand[2] == Card(Five, Spades) && hand[3] == Card(Jack, Spades)
    requires starter == Card(Five, Diamonds)
    ensures Nobs(hand, starter) == 0
  {
  }
  /** The jack of spades with a spade starter: one point. */
  lemma NobsMatchingJack(hand: seq<Card>, starter: Card)
    requires |hand| == 4
    requires hand[0] == Card(Five, Clubs) && hand[1] == Card(Five, Hearts)
    requires hand[2] == Card(Five, Diamonds) && hand[3] == Card(Jack, Spades)
    requires starter == Card(Five, Spades)
    ensures Nobs(hand, starter) == 1
  {
  }
  // ---------------------------------------------------------------------------
  // Whole hands from the game's counting round
  // ---------------------------------------------------------------------------

  lemma TotalTwentyNineSubsets(c0: Card, c1: Card, c2: Card, c3: Card, c4: Card)
    requires c0 == Card(Jack, Clubs)
    requires c1 == Card(Five, Diamonds)
    requires c2 == Card(Five, Hearts)
    requires c3 == Card(Five, Spades)
    requires c4 == Card(Five, Clubs)
    ensures Subsets([c0, c1, c2, c3, c4], 15) == 8
  {
    assert [c0, c1, c2, c3, c4][1..] == [c1, c2, c3, c4];
    assert [c1, c2, c3, c4][1..] == [c2, c3, c4];
    assert [c2, c3, c4][1..] == [c3, c4];
    assert [c3, c4][1..] == [c4];
    assert [c4][1..] == [];
    assert Subsets([c4], 0) == 1;
    assert Subsets([c4], 5) == 1;
    assert Subsets([c4], 10) == 0;
    assert Subsets([c4], 15) == 0;
    assert Subsets([c3, c4], 0) == 1;
    assert Subsets([c3, c4], 5) == 2;
    assert Subsets([c3, c4], 10) == 1;
    assert Subsets([c3, c4], 15) == 0;
    assert Subsets([c2, c3, c4], 0) == 1;
    assert Subsets([c2, c3, c4], 5) == 3;
    assert Subsets([c2, c3, c4], 10) == 3;
    assert Subsets([c2, c3, c4], 15) == 1;
    assert Subsets([c1, c2, c3, c4], 5) == 4;
    assert Subsets([c1, c2, c3, c4], 15) == 4;
    assert Subsets([c0, c1, c2, c3, c4], 15) == 8;
  }
  lemma TotalTwentyNinePairCount(c0: Card, c1: Card, c2: Card, c3: Card, c4: Card)
    requires c0 == Card(Jack, Clubs)
    requires c1 == Card(Five, Diamonds)
    requires c2 == Card(Five, Hearts)
    requires c3 == Card(Five, Spades)
    requires c4 == Card(Five, Clubs)
    ensures PairCount([c0, c1, c2, c3, c4]) == 6
  {
    assert [c0, c1, c2, c3, c4][1..] == [c1, c2, c3, c4];
    assert [c1, c2, c3, c4][1..] == [c2, c3, c4];
    assert [c2, c3, c4][1..] == [c3, c4];
    assert [c3, c4][1..] == [c4];
    assert [c4][1..] == [];
    assert PairCount([c4]) == 0;
    assert SameRank(c3, [c4]) == 1;
    assert PairCount([c3, c4]) == 1;
    assert SameRank(c2, [c4]) == 1;
    assert SameRank(c2, [c3, c4]) == 2;
    assert PairCount([c2, c3, c4]) == 3;
    assert SameRank(c1, [c4]) == 1;
    assert SameRank(c1, [c3, c4]) == 2;
    assert SameRank(c1, [c2, c3, c4]) == 3;
    assert PairCount([c1, c2, c3, c4]) == 6;
    assert SameRank(c0, [c4]) == 0;
    assert SameRank(c0, [c3, c4]) == 0;
    assert SameRank(c0, [c2, c3, c4]) == 0;
    assert SameRank(c0, [c1, c2, c3, c4]) == 0;
    assert PairCount([c0, c1, c2, c3, c4]) == 6;
  }
  lemma TotalTwentyNineCounts(c0: Card, c1: Card, c2: Card, c3: Card, c4: Card)
    requires c0 == Card(Jack, Clubs)
    requires c1 == Card(Five, Diamonds)
    requires c2 == Card(Five, Hearts)
    requires c3 == Card(Five, Spades)
    requires c4 == Card(Five, Clubs)
    ensures RankCounts([c0, c1, c2, c3, c4]) == [0, 0, 0, 0, 4, 0, 0, 0, 0, 0, 1, 0, 0]
  {
    RankCountsOfFive(c0, c1, c2, c3, c4);
  }
  lemma TotalTwentyNineScan()
    ensures RunsOfCounts([0, 0, 0, 0, 4, 0, 0, 0, 0, 0, 1, 0, 0]) == 0
  {
    var c := [0, 0, 0, 0, 4, 0, 0, 0, 0, 0, 1, 0, 0];
    assert ScanTo(c, 1) == RunScan(0, 0, 1);
    assert ScanTo(c, 2) == RunScan(0, 0, 1);
    assert ScanTo(c, 3) == RunScan(0, 0, 1);
    assert ScanTo(c, 4) == RunScan(0, 0, 1);
    assert ScanTo(c, 5) == RunScan(1, 1, 4);
    assert ScanTo(c, 6) == RunScan(0, 1, 1);
    assert ScanTo(c, 7) == RunScan(0, 1, 1);
    assert ScanTo(c, 8) == RunScan(0, 1, 1);
    assert ScanTo(c, 9) == RunScan(0, 1, 1);
    assert ScanTo(c, 10) == RunScan(0, 1, 1);
    assert ScanTo(c, 11) == RunScan(1, 1, 1);
    assert ScanTo(c, 12) == RunScan(0, 1, 1);
    assert ScanTo(c, 13) == RunScan(0, 1, 1);
  }
  lemma TotalTwentyNineBlocksPiece0()
    ensures IntendedRuns(Zeros(4) + [4] + Zeros(0)) == 0
  {
    var b: seq<nat> := [4];
    IntendedRunsSingleBlock(4, b, 0);
  }
  lemma TotalTwentyNineBlocksPiece1()
    ensures IntendedRuns(Zeros(4) + [1] + Zeros(2)) == 0
  {
    var b: seq<nat> := [1];
    IntendedRunsSingleBlock(4, b, 2);
  }
  lemma TotalTwentyNineBlocks()
    ensures IntendedRuns(Zeros(4) + [4] + Zeros(0) + [0] + (Zeros(4) + [1] + Zeros(2))) == 0
  {
    TotalTwentyNineBlocksPiece0();
    TotalTwentyNineBlocksPiece1();
    IntendedRunsSplit(Zeros(4) + [4] + Zeros(0), Zeros(4) + [1] + Zeros(2));
  }
  lemma TotalTwentyNineBlocksLayout()
    ensures [0, 0, 0, 0, 4, 0, 0, 0, 0, 0, 1, 0, 0] == Zeros(4) + [4] + Zeros(0) + [0] + (Zeros(4) + [1] + Zeros(2))
  {
  }
  lemma TotalTwentyNineParts(hand: seq<Card>, starter: Card)
    requires |hand| == 4
    requires hand[0] == Card(Jack, Clubs) && hand[1] == Card(Five, Diamonds)
    requires hand[2] == Card(Five, Hearts) && hand[3] == Card(Five, Spades)
    requires starter == Card(Five, Clubs)
    ensures Fifteens(hand, starter) == 16
    ensures Pairs(hand, starter) == 12
    ensures RunsOfCounts(RankCounts(hand + [starter])) == 0
    ensures CountedRuns(hand, starter) == 0
  {
    assert hand + [starter] == [hand[0], hand[1], hand[2], hand[3], starter];
    TotalTwentyNineSubsets(hand[0], hand[1], hand[2], hand[3], starter);
    FifteensCountsSubsets(hand, starter);
    TotalTwentyNinePairCount(hand[0], hand[1], hand[2], hand[3], starter);
    TotalTwentyNineCounts(hand[0], hand[1], hand[2], hand[3], starter);
    TotalTwentyNineScan();
    TotalTwentyNineBlocksLayout();
    TotalTwentyNineBlocks();
  }
  lemma TotalTwentyNineFlushes(hand: seq<Card>, starter: Card)
    requires |hand| == 4
    requires hand[0] == Card(Jack, Clubs) && hand[1] == Card(Five, Diamonds)
    requires hand[2] == Card(Five, Hearts) && hand[3] == Card(Five, Spades)
    requires starter == Card(Five, Clubs)
    ensures Flushes(hand, starter, true) == 0
  {
    assert hand[1].suit != hand[0].suit;
  }
  /** Eight fifteens, six pairs and nobs: 29. */
  lemma TotalTwentyNine(hand: seq<Card>, starter: Card)
    requires |hand| == 4
    requires hand[0] == Card(Jack, Clubs) && hand[1] == Card(Five, Diamonds)
    requires hand[2] == Card(Five, Hearts) && hand[3] == Card(Five, Spades)
    requires starter == Card(Five, Clubs)
    ensures TotalAsWritten(hand, starter, true) == 29
    ensures Total(hand, starter, true) == 29
  {
    TotalTwentyNineParts(hand, starter);
    TotalTwentyNineFlushes(hand, starter);
  }
  lemma TotalSixSubsets(c0: Card, c1: Card, c2: Card, c3: Card, c4: Card)
    requires c0 == Card(Jack, Diamonds)
    requires c1 == Card(Seven, Clubs)
    requires c2 == Card(Queen, Diamonds)
    requires c3 == Card(King, Diamonds)
    requires c4 == Card(Eight, Diamonds)
    ensures Subsets([c0, c1, c2, c3, c4], 15) == 1
  {
    assert [c0, c1, c2, c3, c4][1..] == [c1, c2, c3, c4];
    assert [c1, c2, c3, c4][1..] == [c2, c3, c4];
    assert [c2, c3, c4][1..] == [c3, c4];
    assert [c3, c4][1..] == [c4];
    assert [c4][1..] == [];
    assert Subsets([c4], 5) == 0;
    assert Subsets([c4], 8) == 1;
    assert Subsets([c4], 15) == 0;
    assert Subsets([c3, c4], 5) == 0;
    assert Subsets([c3, c4], 8) == 1;
    assert Subsets([c3, c4], 15) == 0;
    assert Subsets([c2, c3, c4], 5) == 0;
    assert Subsets([c2, c3, c4], 8) == 1;
    assert Subsets([c2, c3, c4], 15) == 0;
    assert Subsets([c1, c2, c3, c4], 5) == 0;
    assert Subsets([c1, c2, c3, c4], 15) == 1;
    assert Subsets([c0, c1, c2, c3, c4], 15) == 1;
  }
  lemma TotalSixPairCount(c0: Card, c1: Card, c2: Card, c3: Card, c4: Card)
    requires c0 == Card(Jack, Diamonds)
    requires c1 == Card(Seven, Clubs)
    requires c2 == Card(Queen, Diamonds)
    requires c3 == Card(King, Diamonds)
    requires c4 == Card(Eight, Diamonds)
    ensures PairCount([c0, c1, c2, c3, c4]) == 0
  {
    assert [c0, c1, c2, c3, c4][1..] == [c1, c2, c3, c4];
    assert [c1, c2, c3, c4][1..] == [c2, c3, c4];
    assert [c2, c3, c4][1..] == [c3, c4];
    assert [c3, c4][1..] == [c4];
    assert [c4][1..] == [];
    assert PairCount([c4]) == 0;
    assert SameRank(c3, [c4]) == 0;
    assert PairCount([c3, c4]) == 0;
    assert SameRank(c2, [c4]) == 0;
    assert SameRank(c2, [c3, c4]) == 0;
    assert PairCount([c2, c3, c4]) == 0;
    assert SameRank(c1, [c4]) == 0;
    assert SameRank(c1, [c3, c4]) == 0;
    assert SameRank(c1, [c2, c3, c4]) == 0;
    assert PairCount([c1, c2, c3, c4]) == 0;
    assert SameRank(c0, [c4]) == 0;
    assert SameRank(c0, [c3, c4]) == 0;
    assert SameRank(c0, [c2, c3, c4]) == 0;
    assert SameRank(c0, [c1, c2, c3, c4]) == 0;
    assert PairCount([c0, c1, c2, c3, c4]) == 0;
  }
  lemma TotalSixCounts(c0: Card, c1: Card, c2: Card, c3: Card, c4: Card)
    requires c0 == Card(Jack, Diamonds)
    requires c1 == Card(Seven, Clubs)
    requires c2 == Card(Queen, Diamonds)
    requires c3 == Card(King, Diamonds)
    requires c4 == Card(Eight, Diamonds)
    ensures RankCounts([c0, c1, c2, c3, c4]) == [0, 0, 0, 0, 0, 0, 1, 1, 0, 0, 1, 1, 1]
  {
    RankCountsOfFive(c0, c1, c2, c3, c4);
  }
  lemma TotalSixScan()
    ensures RunsOfCounts([0, 0, 0, 0, 0, 0, 1, 1, 0, 0, 1, 1, 1]) == 3
  {
    var c := [0, 0, 0, 0, 0, 0, 1, 1, 0, 0, 1, 1, 1];
    assert ScanTo(c, 1) == RunScan(0, 0, 1);
    assert ScanTo(c, 2) == RunScan(0, 0, 1);
    assert ScanTo(c, 3) == RunScan(0, 0, 1);
    assert ScanTo(c, 4) == RunScan(0, 0, 1);
    assert ScanTo(c, 5) == RunScan(0, 0, 1);
    assert ScanTo(c, 6) == RunScan(0, 0, 1);
    assert ScanTo(c, 7) == RunScan(1, 1, 1);
    assert ScanTo(c, 8) == RunScan(2, 2, 1);
    assert ScanTo(c, 9) == RunScan(0, 2, 1);
    assert ScanTo(c, 10) == RunScan(0, 2, 1);
    assert ScanTo(c, 11) == RunScan(1, 2, 1);
    assert ScanTo(c, 12) == RunScan(2, 2, 1);
    assert ScanTo(c, 13) == RunScan(3, 3, 1);
  }
  lemma TotalSixBlocksPiece0()
    ensures IntendedRuns(Zeros(6) + [1, 1] + Zeros(0)) == 0
  {
    var b: seq<nat> := [1, 1];
    IntendedRunsSingleBlock(6, b, 0);
  }
  lemma TotalSixBlocksPiece1()
    ensures IntendedRuns(Zeros(1) + [1, 1, 1] + Zeros(0)) == 3
  {
    var b: seq<nat> := [1, 1, 1];
    IntendedRunsSingleBlock(1, b, 0);
    assert Product(b) == 1 by {
      ProductSnoc([], 1);
      assert [] + [1] == [1];
      ProductSnoc([1], 1);
      assert [1] + [1] == [1, 1];
      ProductSnoc([1, 1], 1);
      assert [1, 1] + [1] == [1, 1, 1];
    }
  }
  lemma TotalSixBlocks()
    ensures IntendedRuns(Zeros(6) + [1, 1] + Zeros(0) + [0] + (Zeros(1) + [1, 1, 1] + Zeros(0))) == 3
  {
    TotalSixBlocksPiece0();
    TotalSixBlocksPiece1();
    IntendedRunsSplit(Zeros(6) + [1, 1] + Zeros(0), Zeros(1) + [1, 1, 1] + Zeros(0));
  }
  lemma TotalSixBlocksLayout()
    ensures [0, 0, 0, 0, 0, 0, 1, 1, 0, 0, 1, 1, 1] == Zeros(6) + [1, 1] + Zeros(0) + [0] + (Zeros(1) + [1, 1, 1] + Zeros(0))
  {
  }
  lemma TotalSixParts(hand: seq<Card>, starter: Card)
    requires |hand| == 4
    requires hand[0] == Card(Jack, Diamonds) && hand[1] == Card(Seven, Clubs)
    requires hand[2] == Card(Queen, Diamonds) && hand[3] == Card(King, Diamonds)
    requires starter == Card(Eight, Diamonds)
    ensures Fifteens(hand, starter) == 2
    ensures Pairs(hand, starter) == 0
    ensures RunsOfCounts(RankCounts(hand + [starter])) == 3
    ensures CountedRuns(hand, starter) == 3
  {
    assert hand + [starter] == [hand[0], hand[1], hand[2], hand[3], starter];
    TotalSixSubsets(hand[0], hand[1], hand[2], hand[3], starter);
    FifteensCountsSubsets(hand, starter);
    TotalSixPairCount(hand[0], hand[1], hand[2], hand[3], starter);
    TotalSixCounts(hand[0], hand[1], hand[2], hand[3], starter);
    TotalSixScan();
    TotalSixBlocksLayout();
    TotalSixBlocks();
  }
  lemma TotalSixFlushes(hand: seq<Card>, starter: Card)
    requires |hand| == 4
    requires hand[0] == Card(Jack, Diamonds) && hand[1] == Card(Seven, Clubs)
    requires hand[2] == Card(Queen, Diamonds) && hand[3] == Card(King, Diamonds)
    requires starter == Card(Eight, Diamonds)
    ensures Flushes(hand, starter, false) == 0
  {
    assert hand[1].suit != hand[0].suit;
  }
  /** A fifteen, a run of three and nobs: 6. */
  lemma TotalSix(hand: seq<Card>, starter: Card)
    requires |hand| == 4
    requires hand[0] == Card(Jack, Diamonds) && hand[1] == Card(Seven, Clubs)
    requires hand[2] == Card(Queen, Diamonds) && hand[3] == Card(King, Diamonds)
    requires starter == Card(Eight, Diamonds)
    ensures TotalAsWritten(hand, starter, false) == 6
    ensures Total(hand, starter, false) == 6
  {
    TotalSixParts(hand, starter);
    TotalSixFlushes(hand, starter);
  }
  lemma TotalCribThirteenSubsets(c0: Card, c1: Card, c2: Card, c3: Card, c4: Card)
    requires c0 == Card(Ace, Diamonds)
    requires c1 == Card(Two, Diamonds)
    requires c2 == Card(Three, Diamonds)
    requires c3 == Card(Four, Diamonds)
    requires c4 == Card(Eight, Diamonds)
    ensures Subsets([c0, c1, c2, c3, c4], 15) == 2
  {
    assert [c0, c1, c2, c3, c4][1..] == [c1, c2, c3, c4];
    assert [c1, c2, c3, c4][1..] == [c2, c3, c4];
    assert [c2, c3, c4][1..] == [c3, c4];
    assert [c3, c4][1..] == [c4];
    assert [c4][1..] == [];
    assert Subsets([c4], 5) == 0;
    assert Subsets([c4], 6) == 0;
    assert Subsets([c4], 7) == 0;
    assert Subsets([c4], 8) == 1;
    assert Subsets([c4], 9) == 0;
    assert Subsets([c4], 10) == 0;
    assert Subsets([c4], 11) == 0;
    assert Subsets([c4], 12) == 0;
    assert Subsets([c4], 13) == 0;
    assert Subsets([c4], 14) == 0;
    assert Subsets([c4], 15) == 0;
    assert Subsets([c3, c4], 9) == 0;
    assert Subsets([c3, c4], 10) == 0;
    assert Subsets([c3, c4], 11) == 0;
    assert Subsets([c3, c4], 12) == 1;
    assert Subsets([c3, c4], 13) == 0;
    assert Subsets([c3, c4], 14) == 0;
    assert Subsets([c3, c4], 15) == 0;
    assert Subsets([c2, c3, c4], 12) == 1;
    assert Subsets([c2, c3, c4], 13) == 0;
    assert Subsets([c2, c3, c4], 14) == 0;
    assert Subsets([c2, c3, c4], 15) == 1;
    assert Subsets([c1, c2, c3, c4], 14) == 1;
    assert Subsets([c1, c2, c3, c4], 15) == 1;
    assert Subsets([c0, c1, c2, c3, c4], 15) == 2;
  }
  lemma TotalCribThirteenPairCount(c0: Card, c1: Card, c2: Card, c3: Card, c4: Card)
    requires c0 == Card(Ace, Diamonds)
    requires c1 == Card(Two, Diamonds)
    requires c2 == Card(Three, Diamonds)
    requires c3 == Card(Four, Diamonds)
    requires c4 == Card(Eight, Diamonds)
    ensures PairCount([c0, c1, c2, c3, c4]) == 0
  {
    assert [c0, c1, c2, c3, c4][1..] == [c1, c2, c3, c4];
    assert [c1, c2, c3, c4][1..] == [c2, c3, c4];
    assert [c2, c3, c4][1..] == [c3, c4];
    assert [c3, c4][1..] == [c4];
    assert [c4][1..] == [];
    assert PairCount([c4]) == 0;
    assert SameRank(c3, [c4]) == 0;
    assert PairCount([c3, c4]) == 0;
    assert SameRank(c2, [c4]) == 0;
    assert SameRank(c2, [c3, c4]) == 0;
    assert PairCount([c2, c3, c4]) == 0;
    assert SameRank(c1, [c4]) == 0;
    assert SameRank(c1, [c3, c4]) == 0;
    assert SameRank(c1, [c2, c3, c4]) == 0;
    assert PairCount([c1, c2, c3, c4]) == 0;
    assert SameRank(c0, [c4]) == 0;
    assert SameRank(c0, [c3, c4]) == 0;
    assert SameRank(c0, [c2, c3, c4]) == 0;
    assert SameRank(c0, [c1, c2, c3, c4]) == 0;
    assert PairCount([c0, c1, c2, c3, c4]) == 0;
  }
  lemma TotalCribThirteenCounts(c0: Card, c1: Card, c2: Card, c3: Card, c4: Card)
    requires c0 == Card(Ace, Diamonds)
    requires c1 == Card(Two, Diamonds)
    requires c2 == Card(Three, Diamonds)
    requires c3 == Card(Four, Diamonds)
    requires c4 == Card(Eight, Diamonds)
    ensures RankCounts([c0, c1, c2, c3, c4]) == [1, 1, 1, 1, 0, 0, 0, 1, 0, 0, 0, 0, 0]
  {
    RankCountsOfFive(c0, c1, c2, c3, c4);
  }
  lemma TotalCribThirteenScan()
    ensures RunsOfCounts([1, 1, 1, 1, 0, 0, 0, 1, 0, 0, 0, 0, 0]) == 4
  {
    var c := [1, 1, 1, 1, 0, 0, 0, 1, 0, 0, 0, 0, 0];
    assert ScanTo(c, 1) == RunScan(1, 1, 1);
    assert ScanTo(c, 2) == RunScan(2, 2, 1);
    assert ScanTo(c, 3) == RunScan(3, 3, 1);
    assert ScanTo(c, 4) == RunScan(4, 4, 1);
    assert ScanTo(c, 5) == RunScan(0, 4, 1);
    assert ScanTo(c, 6) == RunScan(0, 4, 1);
    assert ScanTo(c, 7) == RunScan(0, 4, 1);
    assert ScanTo(c, 8) == RunScan(1, 4, 1);
    assert ScanTo(c, 9) == RunScan(0, 4, 1);
    assert ScanTo(c, 10) == RunScan(0, 4, 1);
    assert ScanTo(c, 11) == RunScan(0, 4, 1);
    assert ScanTo(c, 12) == RunScan(0, 4, 1);
    assert ScanTo(c, 13) == RunScan(0, 4, 1);
  }
  lemma TotalCribThirteenBlocksPiece0()
    ensures IntendedRuns(Zeros(0) + [1, 1, 1, 1] + Zeros(0)) == 4
  {
    var b: seq<nat> := [1, 1, 1, 1];
    IntendedRunsSingleBlock(0, b, 0);
    assert Product(b) == 1 by {
      ProductSnoc([], 1);
      assert [] + [1] == [1];
      ProductSnoc([1], 1);
      assert [1] + [1] == [1, 1];
      ProductSnoc([1, 1], 1);
      assert [1, 1] + [1] == [1, 1, 1];
      ProductSnoc([1, 1, 1], 1);
      assert [1, 1, 1] + [1] == [1, 1, 1, 1];
    }
  }
  lemma TotalCribThirteenBlocksPiece1()
    ensures IntendedRuns(Zeros(2) + [1] + Zeros(5)) == 0
  {
    var b: seq<nat> := [1];
    IntendedRunsSingleBlock(2, b, 5);
  }
  lemma TotalCribThirteenBlocks()
    ensures IntendedRuns(Zeros(0) + [1, 1, 1, 1] + Zeros(0) + [0] + (Zeros(2) + [1] + Zeros(5))) == 4
  {
    TotalCribThirteenBlocksPiece0();
    TotalCribThirteenBlocksPiece1();
    IntendedRunsSplit(Zeros(0) + [1, 1, 1, 1] + Zeros(0), Zeros(2) + [1] + Zeros(5));
  }
  lemma TotalCribThirteenBlocksLayout()
    ensures [1, 1, 1, 1, 0, 0, 0, 1, 0, 0, 0, 0, 0] == Zeros(0) + [1, 1, 1, 1] + Zeros(0) + [0] + (Zeros(2) + [1] + Zeros(5))
  {
  }
  lemma TotalCribThirteenParts(hand: seq<Card>, starter: Card)
    requires |hand| == 4
    requires hand[0] == Card(Ace, Diamonds) && hand[1] == Card(Two, Diamonds)
    requires hand[2] == Card(Three, Diamonds) && hand[3] == Card(Four, Diamonds)
    requires starter == Card(Eight, Diamonds)
    ensures Fifteens(hand, starter) == 4
    ensures Pairs(hand, starter) == 0
    ensures RunsOfCounts(RankCounts(hand + [starter])) == 4
    ensures CountedRuns(hand, starter) == 4
  {
    assert hand + [starter] == [hand[0], hand[1], hand[2], hand[3], starter];
    TotalCribThirteenSubsets(hand[0], hand[1], hand[2], hand[3], starter);
    FifteensCountsSubsets(hand, starter);
    TotalCribThirteenPairCount(hand[0], hand[1], hand[2], hand[3], starter);
    TotalCribThirteenCounts(hand[0], hand[1], hand[2], hand[3], starter);
    TotalCribThirteenScan();
    TotalCribThirteenBlocksLayout();
    TotalCribThirteenBlocks();
  }
  lemma TotalCribThirteenFlushes(hand: seq<Card>, starter: Card)
    requires |hand| == 4
    requires hand[0] == Card(Ace, Diamonds) && hand[1] == Card(Two, Diamonds)
    requires hand[2] == Card(Three, Diamonds) && hand[3] == Card(Four, Diamonds)
    requires starter == Card(Eight, Diamonds)
    ensures Flushes(hand, starter, true) == 5
  {

  }
  /** Two fifteens, a run of four and a five-card flush in the crib: 13. */
  lemma TotalCribThirteen(hand: seq<Card>, starter: Card)
    requires |hand| == 4
    requires hand[0] == Card(Ace, Diamonds) && hand[1] == Card(Two, Diamonds)
    requires hand[2] == Card(Three, Diamonds) && hand[3] == Card(Four, Diamonds)
    requires starter == Card(Eight, Diamonds)
    ensures TotalAsWritten(hand, starter, true) == 13
    ensures Total(hand, starter, true) == 13
  {
    TotalCribThirteenParts(hand, starter);
    TotalCribThirteenFlushes(hand, starter);
  }
  lemma TotalTwelveSubsets(c0: Card, c1: Card, c2: Card, c3: Card, c4: Card)
    requires c0 == Card(Four, Clubs)
    requires c1 == Card(Six, Diamonds)
    requires c2 == Card(Seven, Diamonds)
    requires c3 == Card(Eight, Clubs)
    requires c4 == Card(Eight, Diamonds)
    ensures Subsets([c0, c1, c2, c3, c4], 15) == 2
  {
    assert [c0, c1, c2, c3, c4][1..] == [c1, c2, c3, c4];
    assert [c1, c2, c3, c4][1..] == [c2, c3, c4];
    assert [c2, c3, c4][1..] == [c3, c4];
    assert [c3, c4][1..] == [c4];
    assert [c4][1..] == [];
    assert Subsets([c4], 0) == 1;
    assert Subsets([c4], 1) == 0;
    assert Subsets([c4], 2) == 0;
    assert Subsets([c4], 3) == 0;
    assert Subsets([c4], 4) == 0;
    assert Subsets([c4], 5) == 0;
    assert Subsets([c4], 7) == 0;
    assert Subsets([c4], 8) == 1;
    assert Subsets([c4], 9) == 0;
    assert Subsets([c4], 11) == 0;
    assert Subsets([c4], 15) == 0;
    assert Subsets([c3, c4], 2) == 0;
    assert Subsets([c3, c4], 4) == 0;
    assert Subsets([c3, c4], 5) == 0;
    assert Subsets([c3, c4], 8) == 2;
    assert Subsets([c3, c4], 9) == 0;
    assert Subsets([c3, c4], 11) == 0;
    assert Subsets([c3, c4], 15) == 0;
    assert Subsets([c2, c3, c4], 5) == 0;
    assert Subsets([c2, c3, c4], 9) == 0;
    assert Subsets([c2, c3, c4], 11) == 0;
    assert Subsets([c2, c3, c4], 15) == 2;
    assert Subsets([c1, c2, c3, c4], 11) == 0;
    assert Subsets([c1, c2, c3, c4], 15) == 2;
    assert Subsets([c0, c1, c2, c3, c4], 15) == 2;
  }
  lemma TotalTwelvePairCount(c0: Card, c1: Card, c2: Card, c3: Card, c4: Card)
    requires c0 == Card(Four, Clubs)
    requires c1 == Card(Six, Diamonds)
    requires c2 == Card(Seven, Diamonds)
    requires c3 == Card(Eight, Clubs)
    requires c4 == Card(Eight, Diamonds)
    ensures PairCount([c0, c1, c2, c3, c4]) == 1
  {
    assert [c0, c1, c2, c3, c4][1..] == [c1, c2, c3, c4];
    assert [c1, c2, c3, c4][1..] == [c2, c3, c4];
    assert [c2, c3, c4][1..] == [c3, c4];
    assert [c3, c4][1..] == [c4];
    assert [c4][1..] == [];
    assert PairCount([c4]) == 0;
    assert SameRank(c3, [c4]) == 1;
    assert PairCount([c3, c4]) == 1;
    assert SameRank(c2, [c4]) == 0;
    assert SameRank(c2, [c3, c4]) == 0;
    assert PairCount([c2, c3, c4]) == 1;
    assert SameRank(c1, [c4]) == 0;
    assert SameRank(c1, [c3, c4]) == 0;
    assert SameRank(c1, [c2, c3, c4]) == 0;
    assert PairCount([c1, c2, c3, c4]) == 1;
    assert SameRank(c0, [c4]) == 0;
    assert SameRank(c0, [c3, c4]) == 0;
    assert SameRank(c0, [c2, c3, c4]) == 0;
    assert SameRank(c0, [c1, c2, c3, c4]) == 0;
    assert PairCount([c0, c1, c2, c3, c4]) == 1;
  }
  lemma TotalTwelveCounts(c0: Card, c1: Card, c2: Card, c3: Card, c4: Card)
    requires c0 == Card(Four, Clubs)
    requires c1 == Card(Six, Diamonds)
    requires c2 == Card(Seven, Diamonds)
    requires c3 == Card(Eight, Clubs)
    requires c4 == Card(Eight, Diamonds)
    ensures RankCounts([c0, c1, c2, c3, c4]) == [0, 0, 0, 1, 0, 1, 1, 2, 0, 0, 0, 0, 0]
  {
    RankCountsOfFive(c0, c1, c2, c3, c4);
  }
  lemma TotalTwelveScan()
    ensures RunsOfCounts([0, 0, 0, 1, 0, 1, 1, 2, 0, 0, 0, 0, 0]) == 6
  {
    var c := [0, 0, 0, 1, 0, 1, 1, 2, 0, 0, 0, 0, 0];
    assert ScanTo(c, 1) == RunScan(0, 0, 1);
    assert ScanTo(c, 2) == RunScan(0, 0, 1);
    assert ScanTo(c, 3) == RunScan(0, 0, 1);
    assert ScanTo(c, 4) == RunScan(1, 1, 1);
    assert ScanTo(c, 5) == RunScan(0, 1, 1);
    assert ScanTo(c, 6) == RunScan(1, 1, 1);
    assert ScanTo(c, 7) == RunScan(2, 2, 1);
    assert ScanTo(c, 8) == RunScan(3, 3, 2);
    assert ScanTo(c, 9) == RunScan(0, 3, 2);
    assert ScanTo(c, 10) == RunScan(0, 3, 2);
    assert ScanTo(c, 11) == RunScan(0, 3, 2);
    assert ScanTo(c, 12) == RunScan(0, 3, 2);
    assert ScanTo(c, 13) == RunScan(0, 3, 2);
  }
  lemma TotalTwelveBlocksPiece0()
    ensures IntendedRuns(Zeros(3) + [1] + Zeros(0)) == 0
  {
    var b: seq<nat> := [1];
    IntendedRunsSingleBlock(3, b, 0);
  }
  lemma TotalTwelveBlocksPiece1()
    ensures IntendedRuns(Zeros(0) + [1, 1, 2] + Zeros(5)) == 6
  {
    var b: seq<nat> := [1, 1, 2];
    IntendedRunsSingleBlock(0, b, 5);
    assert Product(b) == 2 by {
      ProductSnoc([], 1);
      assert [] + [1] == [1];
      ProductSnoc([1], 1);
      assert [1] + [1] == [1, 1];
      ProductSnoc([1, 1], 2);
      assert [1, 1] + [2] == [1, 1, 2];
    }
  }
  lemma TotalTwelveBlocks()
    ensures IntendedRuns(Zeros(3) + [1] + Zeros(0) + [0] + (Zeros(0) + [1, 1, 2] + Zeros(5))) == 6
  {
    TotalTwelveBlocksPiece0();
    TotalTwelveBlocksPiece1();
    IntendedRunsSplit(Zeros(3) + [1] + Zeros(0), Zeros(0) + [1, 1, 2] + Zeros(5));
  }
  lemma TotalTwelveBlocksLayout()
    ensures [0, 0, 0, 1, 0, 1, 1, 2, 0, 0, 0, 0, 0] == Zeros(3) + [1] + Zeros(0) + [0] + (Zeros(0) + [1, 1, 2] + Zeros(5))
  {
  }
  lemma TotalTwelveParts(hand: seq<Card>, starter: Card)
    requires |hand| == 4
    requires hand[0] == Card(Four, Clubs) && hand[1] == Card(Six, Diamonds)
    requires hand[2] == Card(Seven, Diamonds) && hand[3] == Card(Eight, Clubs)
    requires starter == Card(Eight, Diamonds)
    ensures Fifteens(hand, starter) == 4
    ensures Pairs(hand, starter) == 2
    ensures RunsOfCounts(RankCounts(hand + [starter])) == 6
    ensures CountedRuns(hand, starter) == 6
  {
    assert hand + [starter] == [hand[0], hand[1], hand[2], hand[3], starter];
    TotalTwelveSubsets(hand[0], hand[1], hand[2], hand[3], starter);
    FifteensCountsSubsets(hand, starter);
    TotalTwelvePairCount(hand[0], hand[1], hand[2], hand[3], starter);
    TotalTwelveCounts(hand[0], hand[1], hand[2], hand[3], starter);
    TotalTwelveScan();
    TotalTwelveBlocksLayout();
    TotalTwelveBlocks();
  }
  lemma TotalTwelveFlushes(hand: seq<Card>, starter: Card)
    requires |hand| == 4
    requires hand[0] == Card(Four, Clubs) && hand[1] == Card(Six, Diamonds)
    requires hand[2] == Card(Seven, Diamonds) && hand[3] == Card(Eight, Clubs)
    requires starter == Card(Eight, Diamonds)
    ensures Flushes(hand, starter, false) == 0
  {
    assert hand[1].suit != hand[0].suit;
  }
  /** Two fifteens, a pair and a double run of three: 12. */
  lemma TotalTwelve(hand: seq<Card>, starter: Card)
    requires |hand| == 4
    requires hand[0] == Card(Four, Clubs) && hand[1] == Card(Six, Diamonds)
    requires hand[2] == Card(Seven, Diamonds) && hand[3] == Card(Eight, Clubs)
    requires starter == Card(Eight, Diamonds)
    ensures TotalAsWritten(hand, starter, false) == 12
    ensures Total(hand, starter, false) == 12
  {
    TotalTwelveParts(hand, starter);
    TotalTwelveFlushes(hand, starter);
  }
  lemma TotalTwentyPoneSubsets(c0: Card, c1: Card, c2: Card, c3: Card, c4: Card)
    requires c0 == Card(Three, Hearts)
    requires c1 == Card(Three, Spades)
    requires c2 == Card(Four, Hearts)
    requires c3 == Card(Four, Spades)
    requires c4 == Card(Five, Clubs)
    ensures Subsets([c0, c1, c2, c3, c4], 15) == 2
  {
    assert [c0, c1, c2, c3, c4][1..] == [c1, c2, c3, c4];
    assert [c1, c2, c3, c4][1..] == [c2, c3, c4];
    assert [c2, c3, c4][1..] == [c3, c4];
    assert [c3, c4][1..] == [c4];
    assert [c4][1..] == [];
    assert Subsets([c4], 1) == 0;
    assert Subsets([c4], 4) == 0;
    assert Subsets([c4], 5) == 1;
    assert Subsets([c4], 7) == 0;
    assert Subsets([c4], 8) == 0;
    assert Subsets([c4], 9) == 0;
    assert Subsets([c4], 11) == 0;
    assert Subsets([c4], 12) == 0;
    assert Subsets([c4], 15) == 0;
    assert Subsets([c3, c4], 5) == 1;
    assert Subsets([c3, c4], 8) == 0;
    assert Subsets([c3, c4], 9) == 1;
    assert Subsets([c3, c4], 11) == 0;
    assert Subsets([c3, c4], 12) == 0;
    assert Subsets([c3, c4], 15) == 0;
    assert Subsets([c2, c3, c4], 9) == 2;
    assert Subsets([c2, c3, c4], 12) == 0;
    assert Subsets([c2, c3, c4], 15) == 0;
    assert Subsets([c1, c2, c3, c4], 12) == 2;
    assert Subsets([c1, c2, c3, c4], 15) == 0;
    assert Subsets([c0, c1, c2, c3, c4], 15) == 2;
  }
  lemma TotalTwentyPonePairCount(c0: Card, c1: Card, c2: Card, c3: Card, c4: Card)
    requires c0 == Card(Three, Hearts)
    requires c1 == Card(Three, Spades)
    requires c2 == Card(Four, Hearts)
    requires c3 == Card(Four, Spades)
    requires c4 == Card(Five, Clubs)
    ensures PairCount([c0, c1, c2, c3, c4]) == 2
  {
    assert [c0, c1, c2, c3, c4][1..] == [c1, c2, c3, c4];
    assert [c1, c2, c3, c4][1..] == [c2, c3, c4];
    assert [c2, c3, c4][1..] == [c3, c4];
    assert [c3, c4][1..] == [c4];
    assert [c4][1..] == [];
    assert PairCount([c4]) == 0;
    assert SameRank(c3, [c4]) == 0;
    assert PairCount([c3, c4]) == 0;
    assert SameRank(c2, [c4]) == 0;
    assert SameRank(c2, [c3, c4]) == 1;
    assert PairCount([c2, c3, c4]) == 1;
    assert SameRank(c1, [c4]) == 0;
    assert SameRank(c1, [c3, c4]) == 0;
    assert SameRank(c1, [c2, c3, c4]) == 0;
    assert PairCount([c1, c2, c3, c4]) == 1;
    assert SameRank(c0, [c4]) == 0;
    assert SameRank(c0, [c3, c4]) == 0;
    assert SameRank(c0, [c2, c3, c4]) == 0;
    assert SameRank(c0, [c1, c2, c3, c4]) == 1;
    assert PairCount([c0, c1, c2, c3, c4]) == 2;
  }
  lemma TotalTwentyPoneCounts(c0: Card, c1: Card, c2: Card, c3: Card, c4: Card)
    requires c0 == Card(Three, Hearts)
    requires c1 == Card(Three, Spades)
    requires c2 == Card(Four, Hearts)
    requires c3 == Card(Four, Spades)
    requires c4 == Card(Five, Clubs)
    ensures RankCounts([c0, c1, c2, c3, c4]) == [0, 0, 2, 2, 1, 0, 0, 0, 0, 0, 0, 0, 0]
  {
    RankCountsOfFive(c0, c1, c2, c3, c4);
  }
  lemma TotalTwentyPoneScan()
    ensures RunsOfCounts([0, 0, 2, 2, 1, 0, 0, 0, 0, 0, 0, 0, 0]) == 12
  {
    var c := [0, 0, 2, 2, 1, 0, 0, 0, 0, 0, 0, 0, 0];
    assert ScanTo(c, 1) == RunScan(0, 0, 1);
    assert ScanTo(c, 2) == RunScan(0, 0, 1);
    assert ScanTo(c, 3) == RunScan(1, 1, 2);
    assert ScanTo(c, 4) == RunScan(2, 2, 4);
    assert ScanTo(c, 5) == RunScan(3, 3, 4);
    assert ScanTo(c, 6) == RunScan(0, 3, 4);
    assert ScanTo(c, 7) == RunScan(0, 3, 4);
    assert ScanTo(c, 8) == RunScan(0, 3, 4);
    assert ScanTo(c, 9) == RunScan(0, 3, 4);
    assert ScanTo(c, 10) == RunScan(0, 3, 4);
    assert ScanTo(c, 11) == RunScan(0, 3, 4);
    assert ScanTo(c, 12) == RunScan(0, 3, 4);
    assert ScanTo(c, 13) == RunScan(0, 3, 4);
  }
  lemma TotalTwentyPoneBlocksPiece0()
    ensures IntendedRuns(Zeros(2) + [2, 2, 1] + Zeros(8)) == 12
  {
    var b: seq<nat> := [2, 2, 1];
    IntendedRunsSingleBlock(2, b, 8);
    assert Product(b) == 4 by {
      ProductSnoc([], 2);
      assert [] + [2] == [2];
      ProductSnoc([2], 2);
      assert [2] + [2] == [2, 2];
      ProductSnoc([2, 2], 1);
      assert [2, 2] + [1] == [2, 2, 1];
    }
  }
  lemma TotalTwentyPoneBlocks()
    ensures IntendedRuns(Zeros(2) + [2, 2, 1] + Zeros(8)) == 12
  {
    TotalTwentyPoneBlocksPiece0();
  }
  lemma TotalTwentyPoneBlocksLayout()
    ensures [0, 0, 2, 2, 1, 0, 0, 0, 0, 0, 0, 0, 0] == Zeros(2) + [2, 2, 1] + Zeros(8)
  {
  }
  lemma TotalTwentyPoneParts(hand: seq<Card>, starter: Card)
    requires |hand| == 4
    requires hand[0] == Card(Three, Hearts) && hand[1] == Card(Three, Spades)
    requires hand[2] == Card(Four, Hearts) && hand[3] == Card(Four, Spades)
    requires starter == Card(Five, Clubs)
    ensures Fifteens(hand, starter) == 4
    ensures Pairs(hand, starter) == 4
    ensures RunsOfCounts(RankCounts(hand + [starter])) == 12
    ensures CountedRuns(hand, starter) == 12
  {
    assert hand + [starter] == [hand[0], hand[1], hand[2], hand[3], starter];
    TotalTwentyPoneSubsets(hand[0], hand[1], hand[2], hand[3], starter);
    FifteensCountsSubsets(hand, starter);
    TotalTwentyPonePairCount(hand[0], hand[1], hand[2], hand[3], starter);
    TotalTwentyPoneCounts(hand[0], hand[1], hand[2], hand[3], starter);
    TotalTwentyPoneScan();
    TotalTwentyPoneBlocksLayout();
    TotalTwentyPoneBlocks();
  }
  lemma TotalTwentyPoneFlushes(hand: seq<Card>, starter: Card)
    requires |hand| == 4
    requires hand[0] == Card(Three, Hearts) && hand[1] == Card(Three, Spades)
    requires hand[2] == Card(Four, Hearts) && hand[3] == Card(Four, Spades)
    requires starter == Card(Five, Clubs)
    ensures Flushes(hand, starter, false) == 0
  {
    assert hand[1].suit != hand[0].suit;
  }
  /** Two fifteens, two pairs and four runs of three: 20. */
  lemma TotalTwentyPone(hand: seq<Card>, starter: Card)
    requires |hand| == 4
    requires hand[0] == Card(Three, Hearts) && hand[1] == Card(Three, Spades)
    requires hand[2] == Card(Four, Hearts) && hand[3] == Card(Four, Spades)
    requires starter == Card(Five, Clubs)
    ensures TotalAsWritten(hand, starter, false) == 20
    ensures Total(hand, starter, false) == 20
  {
    TotalTwentyPoneParts(hand, starter);
    TotalTwentyPoneFlushes(hand, starter);
  }
  lemma TotalTwentyDealerSubsets(c0: Card, c1: Card, c2: Card, c3: Card, c4: Card)
    requires c0 == Card(Three, Diamonds)
    requires c1 == Card(Three, Clubs)
    requires c2 == Card(Four, Diamonds)
    requires c3 == Card(Four, Clubs)
    requires c4 == Card(Five, Clubs)
    ensures Subsets([c0, c1, c2, c3, c4], 15) == 2
  {
    assert [c0, c1, c2, c3, c4][1..] == [c1, c2, c3, c4];
    assert [c1, c2, c3, c4][1..] == [c2, c3, c4];
    assert [c2, c3, c4][1..] == [c3, c4];
    assert [c3, c4][1..] == [c4];
    assert [c4][1..] == [];
    assert Subsets([c4], 1) == 0;
    assert Subsets([c4], 4) == 0;
    assert Subsets([c4], 5) == 1;
    assert Subsets([c4], 7) == 0;
    assert Subsets([c4], 8) == 0;
    assert Subsets([c4], 9) == 0;
    assert Subsets([c4], 11) == 0;
    assert Subsets([c4], 12) == 0;
    assert Subsets([c4], 15) == 0;
    assert Subsets([c3, c4], 5) == 1;
    assert Subsets([c3, c4], 8) == 0;
    assert Subsets([c3, c4], 9) == 1;
    assert Subsets([c3, c4], 11) == 0;
    assert Subsets([c3, c4], 12) == 0;
    assert Subsets([c3, c4], 15) == 0;
    assert Subsets([c2, c3, c4], 9) == 2;
    assert Subsets([c2, c3, c4], 12) == 0;
    assert Subsets([c2, c3, c4], 15) == 0;
    assert Subsets([c1, c2, c3, c4], 12) == 2;
    assert Subsets([c1, c2, c3, c4], 15) == 0;
    assert Subsets([c0, c1, c2, c3, c4], 15) == 2;
  }
  lemma TotalTwentyDealerPairCount(c0: Card, c1: Card, c2: Card, c3: Card, c4: Card)
    requires c0 == Card(Three, Diamonds)
    requires c1 == Card(Three, Clubs)
    requires c2 == Card(Four, Diamonds)
    requires c3 == Card(Four, Clubs)
    requires c4 == Card(Five, Clubs)
    ensures PairCount([c0, c1, c2, c3, c4]) == 2
  {
    assert [c0, c1, c2, c3, c4][1..] == [c1, c2, c3, c4];
    assert [c1, c2, c3, c4][1..] == [c2, c3, c4];
    assert [c2, c3, c4][1..] == [c3, c4];
    assert [c3, c4][1..] == [c4];
    assert [c4][1..] == [];
    assert PairCount([c4]) == 0;
    assert SameRank(c3, [c4]) == 0;
    assert PairCount([c3, c4]) == 0;
    assert SameRank(c2, [c4]) == 0;
    assert SameRank(c2, [c3, c4]) == 1;
    assert PairCount([c2, c3, c4]) == 1;
    assert SameRank(c1, [c4]) == 0;
    assert SameRank(c1, [c3, c4]) == 0;
    assert SameRank(c1, [c2, c3, c4]) == 0;
    assert PairCount([c1, c2, c3, c4]) == 1;
    assert SameRank(c0, [c4]) == 0;
    assert SameRank(c0, [c3, c4]) == 0;
    assert SameRank(c0, [c2, c3, c4]) == 0;
    assert SameRank(c0, [c1, c2, c3, c4]) == 1;
    assert PairCount([c0, c1, c2, c3, c4]) == 2;
  }
  lemma TotalTwentyDealerCounts(c0: Card, c1: Card, c2: Card, c3: Card, c4: Card)
    requires c0 == Card(Three, Diamonds)
    requires c1 == Card(Three, Clubs)
    requires c2 == Card(Four, Diamonds)
    requires c3 == Card(Four, Clubs)
    requires c4 == Card(Five, Clubs)
    ensures RankCounts([c0, c1, c2, c3, c4]) == [0, 0, 2, 2, 1, 0, 0, 0, 0, 0, 0, 0, 0]
  {
    RankCountsOfFive(c0, c1, c2, c3, c4);
  }
  lemma TotalTwentyDealerScan()
    ensures RunsOfCounts([0, 0, 2, 2, 1, 0, 0, 0, 0, 0, 0, 0, 0]) == 12
  {
    var c := [0, 0, 2, 2, 1, 0, 0, 0, 0, 0, 0, 0, 0];
    assert ScanTo(c, 1) == RunScan(0, 0, 1);
    assert ScanTo(c, 2) == RunScan(0, 0, 1);
    assert ScanTo(c, 3) == RunScan(1, 1, 2);
    assert ScanTo(c, 4) == RunScan(2, 2, 4);
    assert ScanTo(c, 5) == RunScan(3, 3, 4);
    assert ScanTo(c, 6) == RunScan(0, 3, 4);
    assert ScanTo(c, 7) == RunScan(0, 3, 4);
    assert ScanTo(c, 8) == RunScan(0, 3, 4);
    assert ScanTo(c, 9) == RunScan(0, 3, 4);
    assert ScanTo(c, 10) == RunScan(0, 3, 4);
    assert ScanTo(c, 11) == RunScan(0, 3, 4);
    assert ScanTo(c, 12) == RunScan(0, 3, 4);
    assert ScanTo(c, 13) == RunScan(0, 3, 4);
  }
  lemma TotalTwentyDealerBlocksPiece0()
    ensures IntendedRuns(Zeros(2) + [2, 2, 1] + Zeros(8)) == 12
  {
    var b: seq<nat> := [2, 2, 1];
    IntendedRunsSingleBlock(2, b, 8);
    assert Product(b) == 4 by {
      ProductSnoc([], 2);
      assert [] + [2] == [2];
      ProductSnoc([2], 2);
      assert [2] + [2] == [2, 2];
      ProductSnoc([2, 2], 1);
      assert [2, 2] + [1] == [2, 2, 1];
    }
  }
  lemma TotalTwentyDealerBlocks()
    ensures IntendedRuns(Zeros(2) + [2, 2, 1] + Zeros(8)) == 12
  {
    TotalTwentyDealerBlocksPiece0();
  }
  lemma TotalTwentyDealerBlocksLayout()
    ensures [0, 0, 2, 2, 1, 0, 0, 0, 0, 0, 0, 0, 0] == Zeros(2) + [2, 2, 1] + Zeros(8)
  {
  }
  lemma TotalTwentyDealerParts(hand: seq<Card>, starter: Card)
    requires |hand| == 4
    requires hand[0] == Card(Three, Diamonds) && hand[1] == Card(Three, Clubs)
    requires hand[2] == Card(Four, Diamonds) && hand[3] == Card(Four, Clubs)
    requires starter == Card(Five, Clubs)
    ensures Fifteens(hand, starter) == 4
    ensures Pairs(hand, starter) == 4
    ensures RunsOfCounts(RankCounts(hand + [starter])) == 12
    ensures CountedRuns(hand, starter) == 12
  {
    assert hand + [starter] == [hand[0], hand[1], hand[2], hand[3], starter];
    TotalTwentyDealerSubsets(hand[0], hand[1], hand[2], hand[3], starter);
    FifteensCountsSubsets(hand, starter);
    TotalTwentyDealerPairCount(hand[0], hand[1], hand[2], hand[3], starter);
    TotalTwentyDealerCounts(hand[0], hand[1], hand[2], hand[3], starter);
    TotalTwentyDealerScan();
    TotalTwentyDealerBlocksLayout();
    TotalTwentyDealerBlocks();
  }
  lemma TotalTwentyDealerFlushes(hand: seq<Card>, starter: Card)
    requires |hand| == 4
    requires hand[0] == Card(Three, Diamonds) && hand[1] == Card(Three, Clubs)
    requires hand[2] == Card(Four, Diamonds) && hand[3] == Card(Four, Clubs)
    requires starter == Card(Five, Clubs)
    ensures Flushes(hand, starter, false) == 0
  {
    assert hand[1].suit != hand[0].suit;
  }
  /** The same ranks in the other suits: 20. */
  lemma TotalTwentyDealer(hand: seq<Card>, starter: Card)
    requires |hand| == 4
    requires hand[0] == Card(Three, Diamonds) && hand[1] == Card(Three, Clubs)
    requires hand[2] == Card(Four, Diamonds) && hand[3] == Card(Four, Clubs)
    requires starter == Card(Five, Clubs)
    ensures TotalAsWritten(hand, starter, false) == 20
    ensures Total(hand, starter, false) == 20
  {
    TotalTwentyDealerParts(hand, starter);
    TotalTwentyDealerFlushes(hand, starter);
  }
}
