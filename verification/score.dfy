/**
 * Scoring a hand (or the crib) together with the starter card: fifteens,
 * pairs, runs, flushes and nobs, and their sum.
 *
 * Every scorer works on the hand followed by the starter, the sequence the
 * source builds with `hand.iter().chain(iter::once(starter))`.
 */
module Score {
  import opened Cards
  import opened Combinations

  // ---------------------------------------------------------------------------
  // Fifteens
  // ---------------------------------------------------------------------------

  /**
   * `score_fifteens`: two points for every combination of one to five of the
   * cards whose face values add up to 15.
   */
  function Fifteens(hand: seq<Card>, starter: Card): nat
  {
    2 * CountSumming(CombinationsUpTo(hand + [starter], 5), 15)
  }

  /**
   * For a hand of at most four cards the enumeration reaches every subset, so
   * the score is twice the number of subsets of the five cards worth 15.
   */
  lemma FifteensCountsSubsets(hand: seq<Card>, starter: Card)
    requires |hand| <= 4
    ensures Fifteens(hand, starter) == 2 * Subsets(hand + [starter], 15)
  {
    CombinationsCountAllSubsets(hand + [starter], 15);
  }

  // ---------------------------------------------------------------------------
  // Pairs
  // ---------------------------------------------------------------------------

  /** How many cards of `s` share `c`'s rank. */
  function SameRank(c: Card, s: seq<Card>): (n: nat)
    ensures n == CountOrd(s, Ordinal(c.rank))
    decreases |s|
  {
    if s == [] then 0
    else
      assert s == [s[0]] + s[1..];
      CountOrdPrepend(s[0], s[1..], Ordinal(c.rank));
      OrdinalInjective(s[0].rank, c.rank);
      (if s[0].rank == c.rank then 1 else 0) + SameRank(c, s[1..])
  }

  /** Equal-rank pairs of positions i < j, the way `tuple_combinations` walks them. */
  function PairCount(s: seq<Card>): nat
    decreases |s|
  {
    if s == [] then 0 else SameRank(s[0], s[1..]) + PairCount(s[1..])
  }

  /** `score_pairs`: two points per pair of cards of equal rank. */
  function Pairs(hand: seq<Card>, starter: Card): nat
  {
    2 * PairCount(hand + [starter])
  }

  /** m choose 2: the pairs among m cards of one rank. */
  function Choose2(m: nat): nat
  {
    if m == 0 then 0 else Choose2(m - 1) + (m - 1)
  }

  /** Pairs rank by rank: the sum of `Choose2` over the slots of a count array. */
  function PairsOfCounts(c: seq<nat>): nat
    decreases |c|
  {
    if c == [] then 0 else PairsOfCounts(c[..|c| - 1]) + Choose2(c[|c| - 1])
  }

  lemma {:induction false} PairsOfCountsAppend(a: seq<nat>, b: seq<nat>)
    ensures PairsOfCounts(a + b) == PairsOfCounts(a) + PairsOfCounts(b)
    decreases |b|
  {
    if b == [] {
      assert a + b == a;
    } else {
      assert (a + b)[..|a + b| - 1] == a + b[..|b| - 1];
      PairsOfCountsAppend(a, b[..|b| - 1]);
    }
  }

  /** One more card of a rank that already has `c[k]` cards makes `c[k]` new pairs. */
  lemma PairsOfCountsIncrement(c: seq<nat>, k: nat)
    requires k < |c|
    ensures PairsOfCounts(c[k := c[k] + 1]) == PairsOfCounts(c) + c[k]
  {
    var d := c[k := c[k] + 1];
    assert c == c[..k] + [c[k]] + c[k + 1..];
    assert d == c[..k] + [c[k] + 1] + c[k + 1..];
    PairsOfCountsAppend(c[..k] + [c[k]], c[k + 1..]);
    PairsOfCountsAppend(c[..k], [c[k]]);
    PairsOfCountsAppend(c[..k] + [c[k] + 1], c[k + 1..]);
    PairsOfCountsAppend(c[..k], [c[k] + 1]);
    assert PairsOfCounts([c[k]]) == Choose2(c[k]) by { assert [c[k]][..0] == []; }
    assert PairsOfCounts([c[k] + 1]) == Choose2(c[k] + 1) by { assert [c[k] + 1][..0] == []; }
  }

  lemma {:induction false} CountOrdPrepend(x: Card, s: seq<Card>, k: nat)
    ensures CountOrd([x] + s, k) == CountOrd(s, k) + (if Ordinal(x.rank) == k then 1 else 0)
    decreases |s|
  {
    if s == [] {
      assert [x] + s == [x];
      assert [x][..0] == [];
    } else {
      assert ([x] + s)[..|[x] + s| - 1] == [x] + s[..|s| - 1];
      CountOrdPrepend(x, s[..|s| - 1], k);
    }
  }

  lemma {:induction false} CountOrdAppend(a: seq<Card>, b: seq<Card>, k: nat)
    ensures CountOrd(a + b, k) == CountOrd(a, k) + CountOrd(b, k)
    decreases |b|
  {
    if b == [] {
      assert a + b == a;
    } else {
      assert (a + b)[..|a + b| - 1] == a + b[..|b| - 1];
      CountOrdAppend(a, b[..|b| - 1], k);
    }
  }

  /** The number of cards of a rank depends only on the multiset of cards. */
  lemma {:induction false} CountOrdPermutation(s1: seq<Card>, s2: seq<Card>, k: nat)
    requires multiset(s1) == multiset(s2)
    ensures CountOrd(s1, k) == CountOrd(s2, k)
    decreases |s1|
  {
    if s1 == [] {
      assert |s2| == |multiset(s2)| == 0;
    } else {
      var x := s1[0];
      var p, q := SplitAtFirst(s1, s2);
      assert s1 == [x] + s1[1..];
      CountOrdPermutation(s1[1..], p + q, k);
      CountOrdPrepend(x, s1[1..], k);
      CountOrdAppend(p + [x], q, k);
      CountOrdAppend(p, [x], k);
      CountOrdAppend(p, q, k);
      assert [x][..0] == [];
    }
  }

  /** The count array does not depend on where in the sequence a card sits. */
  lemma RankCountsPrepend(x: Card, s: seq<Card>)
    ensures RankCounts([x] + s) == AddRank(RankCounts(s), x)
  {
    forall k | 0 <= k < RankCount
      ensures RankCounts([x] + s)[k] == AddRank(RankCounts(s), x)[k]
    {
      RankCountsAt([x] + s, k);
      RankCountsAt(s, k);
      CountOrdPrepend(x, s, k);
    }
  }

  /** Counting pairs position by position equals summing m-choose-2 over the ranks. */
  lemma {:induction false} PairCountByRank(s: seq<Card>)
    ensures PairCount(s) == PairsOfCounts(RankCounts(s))
    decreases |s|
  {
    if s == [] {
      assert RankCounts(s) == Zeros(RankCount);
      ZerosPairs(RankCount);
    } else {
      var x, t := s[0], s[1..];
      assert s == [x] + t;
      PairCountByRank(t);
      RankCountsPrepend(x, t);
      RankCountsAt(t, Ordinal(x.rank));
      PairsOfCountsIncrement(RankCounts(t), Ordinal(x.rank));
    }
  }

  lemma {:induction false} ZerosPairs(n: nat)
    ensures PairsOfCounts(Zeros(n)) == 0
  {
    if n > 0 {
      assert Zeros(n)[..n - 1] == Zeros(n - 1);
      ZerosPairs(n - 1);
    }
  }

  /** `score_pairs` is twice the sum, over ranks, of m-choose-2 for the m cards of that rank. */
  lemma PairsByRank(hand: seq<Card>, starter: Card)
    ensures Pairs(hand, starter) == 2 * PairsOfCounts(RankCounts(hand + [starter]))
  {
    PairCountByRank(hand + [starter]);
  }

  // ---------------------------------------------------------------------------
  // Runs, as the scan over the 13-slot count array is written
  // ---------------------------------------------------------------------------

  /** The three counters of the scan in `score_runs`. */
  datatype RunScan = RunScan(current: nat, maxRun: nat, multiplier: nat)

  /**
   * One pass of the scan's loop body over a slot holding `m` cards: the current
   * run grows or is cut; the multiplier is reset on a gap only while no run of
   * three has been seen, and is multiplied only when the run is a new maximum.
   */
  function ScanStep(st: RunScan, m: nat): RunScan
  {
    var current := if m == 0 then 0 else st.current + 1;
    var multiplier := if m == 0 && st.maxRun < 3 then 1 else st.multiplier;
    if current > st.maxRun then RunScan(current, current, multiplier * m)
    else RunScan(current, st.maxRun, multiplier)
  }

  /** The counters after the first `i` slots of `c`. */
  function ScanTo(c: seq<nat>, i: nat): RunScan
    requires i <= |c|
  {
    if i == 0 then RunScan(0, 0, 1) else ScanStep(ScanTo(c, i - 1), c[i - 1])
  }

  /** What `score_runs` returns for the count array `c`. */
  function RunsOfCounts(c: seq<nat>): nat
  {
    var st := ScanTo(c, |c|);
    st.multiplier * (if 3 <= st.maxRun then st.maxRun else 0)
  }

  /** `score_runs`: fill the count array, then scan it. */
  method ScoreRuns(hand: seq<Card>, starter: Card) returns (score: nat)
    ensures score == RunsOfCounts(RankCounts(hand + [starter]))
  {
    var cards := hand + [starter];
    var ranksFound := new nat[RankCount](_ => 0);
    assert ranksFound[..] == Zeros(RankCount);
    var i := 0;
    while i < |cards|
      invariant 0 <= i <= |cards|
      invariant ranksFound[..] == RankCounts(cards[..i])
    {
      var slot := Ordinal(cards[i].rank);
      if slot < ranksFound.Length {
        ranksFound[slot] := ranksFound[slot] + 1;
      } else {
        assert false;
      }
      assert cards[..i + 1][..i] == cards[..i];
      i := i + 1;
    }
    assert cards[..i] == cards;

    var maxMultiplier: nat := 1;
    var maxRun: nat := 0;
    var currentRun: nat := 0;
    var k := 0;
    while k < ranksFound.Length
      invariant 0 <= k <= ranksFound.Length
      invariant RunScan(currentRun, maxRun, maxMultiplier) == ScanTo(ranksFound[..], k)
    {
      var currentMultiplier := ranksFound[k];
      currentRun := currentRun + 1;
      if currentMultiplier == 0 {
        currentRun := 0;
        if maxRun < 3 {
          maxMultiplier := 1;
        }
      }
      if currentRun > maxRun {
        maxRun := currentRun;
        maxMultiplier := maxMultiplier * currentMultiplier;
      }
      k := k + 1;
    }

    score := 0;
    if 3 <= maxRun {
      score := maxRun;
    }
    score := maxMultiplier * score;
  }

  /** Slots `j`, `j + 1` and `j + 2` all hold cards, and all lie before slot `i`. */
  predicate Run3Before(c: seq<nat>, i: nat, j: nat)
  {
    j + 3 <= i <= |c| && c[j] != 0 && c[j + 1] != 0 && c[j + 2] != 0
  }

  /** Among the first `i` slots, some three consecutive ones hold cards. */
  predicate ThreeBefore(c: seq<nat>, i: nat)
  {
    exists j: nat :: j < i && Run3Before(c, i, j)
  }

  /** Some three consecutive ranks are all present. */
  predicate ThreeInARow(c: seq<nat>)
  {
    ThreeBefore(c, |c|)
  }

  lemma ThreeBeforeExtend(c: seq<nat>, i: nat)
    requires 1 <= i <= |c|
    ensures ThreeBefore(c, i) <==>
              ThreeBefore(c, i - 1) || (i >= 3 && c[i - 3] != 0 && c[i - 2] != 0 && c[i - 1] != 0)
  {
    if ThreeBefore(c, i) {
      var j: nat :| j < i && Run3Before(c, i, j);
      if j + 3 <= i - 1 {
        assert Run3Before(c, i - 1, j);
      }
    }
    if ThreeBefore(c, i - 1) {
      var j: nat :| j < i - 1 && Run3Before(c, i - 1, j);
      assert Run3Before(c, i, j);
    }
    if i >= 3 && c[i - 3] != 0 && c[i - 2] != 0 && c[i - 1] != 0 {
      assert Run3Before(c, i, i - 3);
    }
  }

  lemma MulAtLeastOne(a: nat, b: nat)
    requires a >= 1 && b >= 1
    ensures a * b >= 1 && a * b >= b
  {
  }

  /**
   * What the scan's counters mean after `i` slots: `current` is the length of
   * the trailing stretch of non-empty slots, it never exceeds `maxRun`, the
   * multiplier stays positive, and `maxRun` reaches 3 exactly when three
   * consecutive non-empty slots have been passed.
   */
  lemma {:induction false} ScanMeaning(c: seq<nat>, i: nat)
    requires i <= |c|
    ensures ScanTo(c, i).multiplier >= 1
    ensures ScanTo(c, i).current <= ScanTo(c, i).maxRun
    ensures ScanTo(c, i).current <= i
    ensures forall k :: i - ScanTo(c, i).current <= k < i ==> c[k] != 0
    ensures ScanTo(c, i).current < i ==> c[i - 1 - ScanTo(c, i).current] == 0
    ensures ScanTo(c, i).maxRun >= 3 <==> ThreeBefore(c, i)
  {
    if i > 0 {
      ScanMeaning(c, i - 1);
      ThreeBeforeExtend(c, i);
      var st := ScanTo(c, i - 1);
      var m := c[i - 1];
      if m != 0 && st.current + 1 > st.maxRun {
        MulAtLeastOne(st.multiplier, m);
      }
    }
  }

  /** `score_runs` is zero exactly when no three consecutive ranks are present. */
  lemma RunsZeroIffNoThree(c: seq<nat>)
    ensures RunsOfCounts(c) == 0 <==> !ThreeInARow(c)
  {
    ScanMeaning(c, |c|);
    var st := ScanTo(c, |c|);
    if st.maxRun >= 3 {
      MulAtLeastOne(st.multiplier, st.maxRun);
    }
  }

  // ---------------------------------------------------------------------------
  // Runs as the game counts them
  // ---------------------------------------------------------------------------

  /** Number of non-empty slots at the front of `c`. */
  function LeadingRun(c: seq<nat>): (n: nat)
    ensures n <= |c|
    ensures forall k :: 0 <= k < n ==> c[k] != 0
    ensures n < |c| ==> c[n] == 0
    decreases |c|
  {
    if c == [] || c[0] == 0 then 0 else 1 + LeadingRun(c[1..])
  }

  function Product(b: seq<nat>): nat
    decreases |b|
  {
    if b == [] then 1 else Product(b[..|b| - 1]) * b[|b| - 1]
  }

  /**
   * A maximal stretch of consecutive ranks holding `b[0]`, `b[1]`, ... cards:
   * choosing one card of each rank gives `Product(b)` distinct runs, each
   * worth its length, provided the stretch spans at least three ranks.
   */
  function BlockScore(b: seq<nat>): nat
  {
    if |b| >= 3 then |b| * Product(b) else 0
  }

  /** Run points of a count array: the block scores of its maximal non-empty stretches. */
  function IntendedRuns(c: seq<nat>): nat
    decreases |c|
  {
    if c == [] then 0
    else if c[0] == 0 then IntendedRuns(c[1..])
    else
      var n := LeadingRun(c);
      BlockScore(c[..n]) + IntendedRuns(c[n..])
  }

  /** Run points of a hand with its starter under the counting rule (not the written scan). */
  function CountedRuns(hand: seq<Card>, starter: Card): nat
  {
    IntendedRuns(RankCounts(hand + [starter]))
  }

  lemma {:induction false} LeadingRunBeforeGap(a: seq<nat>, b: seq<nat>)
    ensures LeadingRun(a + [0] + b) == LeadingRun(a)
    decreases |a|
  {
    if a != [] && a[0] != 0 {
      assert (a + [0] + b)[1..] == a[1..] + [0] + b;
      LeadingRunBeforeGap(a[1..], b);
    } else if a == [] {
      assert (a + [0] + b)[0] == 0;
    }
  }

  /** An empty slot separates the array into two parts scored independently. */
  lemma {:induction false} IntendedRunsSplit(a: seq<nat>, b: seq<nat>)
    ensures IntendedRuns(a + [0] + b) == IntendedRuns(a) + IntendedRuns(b)
    decreases |a|
  {
    var c := a + [0] + b;
    if a == [] {
      assert c[1..] == b;
    } else if a[0] == 0 {
      assert c[1..] == a[1..] + [0] + b;
      IntendedRunsSplit(a[1..], b);
    } else {
      var n := LeadingRun(a);
      LeadingRunBeforeGap(a, b);
      assert c[..n] == a[..n];
      assert c[n..] == a[n..] + [0] + b;
      IntendedRunsSplit(a[n..], b);
    }
  }

  lemma {:induction false} IntendedRunsAfterZeros(lo: nat, x: seq<nat>)
    ensures IntendedRuns(Zeros(lo) + x) == IntendedRuns(x)
  {
    if lo > 0 {
      assert (Zeros(lo) + x)[0] == 0;
      assert (Zeros(lo) + x)[1..] == Zeros(lo - 1) + x;
      IntendedRunsAfterZeros(lo - 1, x);
    } else {
      assert Zeros(lo) + x == x;
    }
  }

  lemma {:induction false} LeadingRunOfBlock(b: seq<nat>, n: nat)
    requires forall k :: 0 <= k < |b| ==> b[k] != 0
    ensures LeadingRun(b + Zeros(n)) == |b|
    decreases |b|
  {
    if b == [] {
      if n > 0 {
        assert (b + Zeros(n))[0] == 0;
      }
    } else {
      assert (b + Zeros(n))[1..] == b[1..] + Zeros(n);
      LeadingRunOfBlock(b[1..], n);
    }
  }

  /** A single stretch of non-empty slots scores its block score. */
  lemma IntendedRunsSingleBlock(lo: nat, b: seq<nat>, n: nat)
    requires forall k :: 0 <= k < |b| ==> b[k] != 0
    ensures IntendedRuns(Zeros(lo) + b + Zeros(n)) == BlockScore(b)
  {
    IntendedRunsAfterZeros(lo, b + Zeros(n));
    assert Zeros(lo) + b + Zeros(n) == Zeros(lo) + (b + Zeros(n));
    IntendedRunsAfterZeros(n, []);
    assert Zeros(n) + [] == Zeros(n);
    if b != [] {
      var c := b + Zeros(n);
      LeadingRunOfBlock(b, n);
      assert c[..|b|] == b;
      assert c[|b|..] == Zeros(n);
    } else {
      assert b + Zeros(n) == Zeros(n);
    }
  }

  /** The written scan over a single stretch of non-empty slots, slot by slot. */
  lemma {:induction false} ScanSingleBlock(lo: nat, b: seq<nat>, n: nat, i: nat)
    requires forall k :: 0 <= k < |b| ==> b[k] != 0
    requires i <= lo + |b| + n
    ensures ScanTo(Zeros(lo) + b + Zeros(n), i) ==
              if i <= lo then RunScan(0, 0, 1)
              else if i <= lo + |b| then RunScan(i - lo, i - lo, Product(b[..i - lo]))
              else RunScan(0, |b|, if |b| < 3 then 1 else Product(b))
  {
    var c := Zeros(lo) + b + Zeros(n);
    if i > 0 {
      ScanSingleBlock(lo, b, n, i - 1);
      if i <= lo {
        assert c[i - 1] == 0;
      } else if i <= lo + |b| {
        assert c[i - 1] == b[i - 1 - lo];
        assert b[..i - lo][..i - 1 - lo] == b[..i - 1 - lo];
      } else {
        assert c[i - 1] == 0;
        assert b[..|b|] == b;
      }
    }
  }

  /** On a single stretch of non-empty slots the written scan scores its block score. */
  lemma RunsSingleBlock(lo: nat, b: seq<nat>, n: nat)
    requires forall k :: 0 <= k < |b| ==> b[k] != 0
    ensures RunsOfCounts(Zeros(lo) + b + Zeros(n)) == BlockScore(b)
  {
    var c := Zeros(lo) + b + Zeros(n);
    ScanSingleBlock(lo, b, n, |c|);
    assert b[..|b|] == b;
    var st := ScanTo(c, |c|);
    if |b| >= 3 {
      assert st.maxRun == |b| && st.multiplier == Product(b);
    } else {
      assert st.maxRun < 3;
    }
  }

  /**
   * Where every present rank lies in one stretch of consecutive ranks, the
   * written scan and the block-score definition agree.
   */
  lemma RunsAgreeOnSingleBlock(lo: nat, b: seq<nat>, n: nat)
    requires forall k :: 0 <= k < |b| ==> b[k] != 0
    ensures RunsOfCounts(Zeros(lo) + b + Zeros(n)) == IntendedRuns(Zeros(lo) + b + Zeros(n))
  {
    RunsSingleBlock(lo, b, n);
    IntendedRunsSingleBlock(lo, b, n);
  }

  // ---------------------------------------------------------------------------
  // Flushes and nobs
  // ---------------------------------------------------------------------------

  /** Every card of `s` has suit `suit` (`iter().all`). */
  function AllOfSuit(s: seq<Card>, suit: Suit): (b: bool)
    ensures b <==> forall i :: 0 <= i < |s| ==> s[i].suit == suit
    decreases |s|
  {
    s == [] || (s[0].suit == suit && AllOfSuit(s[1..], suit))
  }

  /** All cards of `s` share one suit. */
  predicate SameSuit(s: seq<Card>)
  {
    forall i, j :: 0 <= i < |s| && 0 <= j < |s| ==> s[i].suit == s[j].suit
  }

  /**
   * `score_flushes`: 5 when the hand and the starter all have the suit of the
   * hand's first card, 4 when only the hand does and it is not the crib, else 0.
   * An empty hand compares against Clubs.
   */
  function Flushes(hand: seq<Card>, starter: Card, isCrib: bool): (r: nat)
    ensures r == 0 || r == 4 || r == 5
  {
    var target := if hand == [] then Clubs else hand[0].suit;
    var allMatch := AllOfSuit(hand, target);
    if allMatch && starter.suit == target then 5
    else if allMatch && !isCrib then 4
    else 0
  }

  /** The flush score of a non-empty hand, in terms of which cards share a suit. */
  lemma FlushesBySuits(hand: seq<Card>, starter: Card, isCrib: bool)
    requires hand != []
    ensures Flushes(hand, starter, isCrib) == 5 <==> SameSuit(hand + [starter])
    ensures Flushes(hand, starter, isCrib) == 4 <==>
              SameSuit(hand) && !SameSuit(hand + [starter]) && !isCrib
    ensures Flushes(hand, starter, isCrib) == 0 <==>
              !SameSuit(hand) || (!SameSuit(hand + [starter]) && isCrib)
  {
    var all := hand + [starter];
    assert all[0] == hand[0] && all[|hand|] == starter;
    if SameSuit(all) {
      forall i | 0 <= i < |hand| ensures hand[i].suit == hand[0].suit {
        assert all[i] == hand[i];
      }
    }
    if SameSuit(hand) && starter.suit == hand[0].suit {
      forall i, j | 0 <= i < |all| && 0 <= j < |all| ensures all[i].suit == all[j].suit {
        assert all[i].suit == hand[0].suit by { if i < |hand| { assert all[i] == hand[i]; } }
        assert all[j].suit == hand[0].suit by { if j < |hand| { assert all[j] == hand[j]; } }
      }
    }
  }

  /** A hand whose own suits differ never scores a flush, whatever the starter. */
  lemma MixedHandNoFlush(hand: seq<Card>, starter: Card, isCrib: bool)
    requires !SameSuit(hand)
    ensures Flushes(hand, starter, isCrib) == 0
  {
    FlushesBySuits(hand, starter, isCrib);
  }

  /** `c` occurs in `s` (`iter().any`). */
  function HasCard(s: seq<Card>, c: Card): (b: bool)
    ensures b <==> c in s
    decreases |s|
  {
    s != [] && (s[0] == c || HasCard(s[1..], c))
  }

  /** `score_nobs`: one point for holding the jack of the starter's suit. */
  function Nobs(hand: seq<Card>, starter: Card): (r: nat)
    ensures r <= 1
    ensures r == 1 <==> Card(Jack, starter.suit) in hand
  {
    if HasCard(hand, Card(Jack, starter.suit)) then 1 else 0
  }

  // ---------------------------------------------------------------------------
  // The whole hand
  // ---------------------------------------------------------------------------

  /**
   * A hand's (or the crib's) score with the starter as the program adds it
   * up: the five scorers as written, the runs from the scan of `score_runs`.
   */
  function TotalAsWritten(hand: seq<Card>, starter: Card, isCrib: bool): nat
  {
    Fifteens(hand, starter) + Pairs(hand, starter) + RunsOfCounts(RankCounts(hand + [starter]))
    + Flushes(hand, starter, isCrib) + Nobs(hand, starter)
  }

  /** The same five parts with the runs scored by the counting rule. */
  function Total(hand: seq<Card>, starter: Card, isCrib: bool): nat
  {
    Fifteens(hand, starter) + Pairs(hand, starter) + CountedRuns(hand, starter)
    + Flushes(hand, starter, isCrib) + Nobs(hand, starter)
  }

  /** Where every present rank lies in one stretch, the two totals agree. */
  lemma TotalsAgreeOnSingleBlock(hand: seq<Card>, starter: Card, isCrib: bool, lo: nat, b: seq<nat>, n: nat)
    requires forall k :: 0 <= k < |b| ==> b[k] != 0
    requires RankCounts(hand + [starter]) == Zeros(lo) + b + Zeros(n)
    ensures TotalAsWritten(hand, starter, isCrib) == Total(hand, starter, isCrib)
  {
    RunsAgreeOnSingleBlock(lo, b, n);
  }

  // ---------------------------------------------------------------------------
  // The order of the hand's cards does not matter
  // ---------------------------------------------------------------------------

  /** The count array depends only on the multiset of cards. */
  lemma RankCountsPermutation(s1: seq<Card>, s2: seq<Card>)
    requires multiset(s1) == multiset(s2)
    ensures RankCounts(s1) == RankCounts(s2)
  {
    forall k | 0 <= k < RankCount
      ensures RankCounts(s1)[k] == RankCounts(s2)[k]
    {
      RankCountsAt(s1, k);
      RankCountsAt(s2, k);
      CountOrdPermutation(s1, s2, k);
    }
  }

  /** All cards share a suit in one arrangement exactly when they do in another. */
  lemma SameSuitPermutation(s1: seq<Card>, s2: seq<Card>)
    requires multiset(s1) == multiset(s2)
    ensures SameSuit(s1) <==> SameSuit(s2)
  {
    if SameSuit(s1) {
      SameSuitOfMembers(s1, s2);
    }
    if SameSuit(s2) {
      SameSuitOfMembers(s2, s1);
    }
  }

  lemma SameSuitOfMembers(s1: seq<Card>, s2: seq<Card>)
    requires multiset(s1) == multiset(s2) && SameSuit(s1)
    ensures SameSuit(s2)
  {
    forall i, j | 0 <= i < |s2| && 0 <= j < |s2| ensures s2[i].suit == s2[j].suit {
      assert s2[i] in multiset(s1) && s2[j] in multiset(s1);
      var a :| 0 <= a < |s1| && s1[a] == s2[i];
      var b :| 0 <= b < |s1| && s1[b] == s2[j];
    }
  }

  /** The flush score does not depend on the order of the hand's cards. */
  lemma FlushesPermutation(h1: seq<Card>, h2: seq<Card>, starter: Card, isCrib: bool)
    requires multiset(h1) == multiset(h2)
    ensures Flushes(h1, starter, isCrib) == Flushes(h2, starter, isCrib)
  {
    if h1 == [] {
      assert |h2| == |multiset(h2)| == 0;
    } else {
      assert |h2| == |multiset(h1)| != 0;
      FlushesBySuits(h1, starter, isCrib);
      FlushesBySuits(h2, starter, isCrib);
      SameSuitPermutation(h1, h2);
      SameSuitPermutation(h1 + [starter], h2 + [starter]);
    }
  }

  /** The fifteens score does not depend on the order of the hand's cards. */
  lemma FifteensPermutation(h1: seq<Card>, h2: seq<Card>, starter: Card)
    requires multiset(h1) == multiset(h2)
    ensures Fifteens(h1, starter) == Fifteens(h2, starter)
  {
    CountCombinationsUpTo(h1 + [starter], 5, 15);
    CountCombinationsUpTo(h2 + [starter], 5, 15);
    SubsetsUpToPermutation(h1 + [starter], h2 + [starter], 5, 15);
  }

  /**
   * A hand's score depends only on which cards it holds, not on their order:
   * the hand the program scores is kept sorted, and any arrangement of the
   * same cards scores the same, under either total.
   */
  lemma TotalPermutation(h1: seq<Card>, h2: seq<Card>, starter: Card, isCrib: bool)
    requires multiset(h1) == multiset(h2)
    ensures TotalAsWritten(h1, starter, isCrib) == TotalAsWritten(h2, starter, isCrib)
    ensures Total(h1, starter, isCrib) == Total(h2, starter, isCrib)
    ensures RunsOfCounts(RankCounts(h1 + [starter])) == RunsOfCounts(RankCounts(h2 + [starter]))
    ensures CountedRuns(h1, starter) == CountedRuns(h2, starter)
  {
    FifteensPermutation(h1, h2, starter);
    RankCountsPermutation(h1 + [starter], h2 + [starter]);
    PairsByRank(h1, starter);
    PairsByRank(h2, starter);
    FlushesPermutation(h1, h2, starter, isCrib);
    assert Card(Jack, starter.suit) in h1 <==> Card(Jack, starter.suit) in multiset(h2);
  }
}
