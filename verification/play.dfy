/**
 * The play (pegging): a stack of played cards with its running total, the
 * rule for who may play under 31, and the points a card scores when it is
 * put on the stack (runs, pairs, fifteen, thirty-one) plus the point for a go.
 */
module Play {
  import opened Cards
  import opened Combinations
  import opened Score
  import opened RunWindow

  /** The most the stack may total. */
  const Limit: nat := 31

  /**
   * A player as the play sees them: the cards still in hand and the points
   * scored so far.
   */
  class Player {
    var hand: seq<Card>
    var points: nat

    /** A player dealt `cards`, with no points yet (`Player::new_with_cards` in the play's examples). */
    constructor (cards: seq<Card>)
      ensures hand == cards && points == 0
    {
      hand := cards;
      points := 0;
    }
  }

  /** `u32::saturating_sub`: subtraction that stops at zero. */
  function SaturatingSub(a: nat, b: nat): nat
  {
    if a >= b then a - b else 0
  }

  /** Whether some card of `hand` is worth at most `limit`. */
  function HasCardWithValueAtMost(hand: seq<Card>, limit: nat): (b: bool)
    ensures b <==> exists i :: 0 <= i < |hand| && CardValue(hand[i]) <= limit
    decreases |hand|
  {
    if hand == [] then false
    else if CardValue(hand[0]) <= limit then true
    else
      var rest := HasCardWithValueAtMost(hand[1..], limit);
      assert forall i :: 1 <= i < |hand| ==> hand[i] == hand[1..][i - 1];
      rest
  }

  /** The cards on top of `s` directly beneath the top card that share its rank, at most three. */
  function MatchFrom(s: seq<Card>, j: nat): (m: nat)
    requires s != [] && 1 <= j <= |s|
    ensures j + m <= 4 || m == 0
    ensures j + m <= |s|
    ensures forall p :: |s| - j - m <= p < |s| - j ==> s[p].rank == s[|s| - 1].rank
    ensures j + m < 4 && j + m < |s| ==> s[|s| - 1 - (j + m)].rank != s[|s| - 1].rank
    decreases 4 - j
  {
    if j >= 4 || j >= |s| || s[|s| - 1 - j].rank != s[|s| - 1].rank then 0
    else 1 + MatchFrom(s, j + 1)
  }

  /**
   * How many of the (up to three) cards directly beneath the top card have
   * the top card's rank, counting down with no gap.
   */
  function MatchingBelow(s: seq<Card>): (m: nat)
    ensures m <= 3
    ensures s != [] ==> m < |s|
    ensures s != [] ==> forall p :: |s| - 1 - m <= p < |s| - 1 ==> s[p].rank == s[|s| - 1].rank
    ensures s != [] && m < 3 && m + 1 < |s| ==> s[|s| - 2 - m].rank != s[|s| - 1].rank
  {
    if s == [] then 0 else MatchFrom(s, 1)
  }

  /** Points for the top card matching `m` cards beneath it: two for each pair among them. */
  function PairPoints(m: nat): nat
  {
    2 * Choose2(m + 1)
  }

  /** The largest run the top card completes, from seven cards down to three, or zero. */
  ghost function TopRunPoints(s: seq<Card>): (r: nat)
    ensures r == 0 || (3 <= r <= 7 && RunOfLast(s, r))
    ensures forall n :: r < n <= 7 && 3 <= n ==> !RunOfLast(s, n)
  {
    if |s| < 3 then 0
    else if RunOfLast(s, 7) then 7
    else if RunOfLast(s, 6) then 6
    else if RunOfLast(s, 5) then 5
    else if RunOfLast(s, 4) then 4
    else if RunOfLast(s, 3) then 3
    else 0
  }

  /** What a card put on the stack scores: run, pairs, fifteen and thirty-one. */
  ghost function PegPoints(s: seq<Card>, total: nat): nat
  {
    TopRunPoints(s) + PairPoints(MatchingBelow(s))
    + (if total == 15 then 2 else 0) + (if total == Limit then 2 else 0)
  }

  class PlayData {
    var stack: seq<Card>
    var stackScore: nat

    /** The running total is the sum of the face values on the stack. */
    ghost predicate Valid()
      reads this
    {
      stackScore == ValueSum(stack)
    }

    /** `PlayData::new`: nothing played, total zero. */
    constructor ()
      ensures stack == [] && stackScore == 0
      ensures Valid()
    {
      stack := [];
      stackScore := 0;
    }

    /** `From<Vec<Card>>`: the cards played in order onto a new stack. */
    constructor FromCards(input: seq<Card>)
      ensures stack == input
      ensures stackScore == ValueSum(input)
      ensures Valid()
    {
      stack := [];
      stackScore := 0;
      new;
      for i := 0 to |input|
        invariant stack == input[..i]
        invariant Valid()
      {
        AddCard(input[i]);
        assert input[..i + 1] == input[..i] + [input[i]];
      }
      assert input[..|input|] == input;
    }

    /** `add_card`: the card goes on top and its value onto the total. */
    method AddCard(c: Card)
      modifies this
      ensures stack == old(stack) + [c]
      ensures stackScore == old(stackScore) + CardValue(c)
      ensures old(Valid()) ==> Valid()
    {
      stackScore := stackScore + CardValue(c);
      stack := stack + [c];
      ValueSumAppend(old(stack), [c]);
      assert ValueSum([c]) == CardValue(c) + ValueSum([]);
    }

    /**
     * `can_play`: the player holds a card worth at most what is left under
     * 31, the remainder saturating at zero.
     */
    function CanPlay(player: Player): (b: bool)
      reads this, player
      ensures b <==> exists i :: 0 <= i < |player.hand| && CardValue(player.hand[i]) + stackScore <= Limit
    {
      HasCardWithValueAtMost(player.hand, SaturatingSub(Limit, stackScore))
    }

    /** `any_can_play`. */
    function AnyCanPlay(player1: Player, player2: Player): bool
      reads this, player1, player2
    {
      CanPlay(player1) || CanPlay(player2)
    }

    /** `reset_if_needed`: start a new count when neither player can play. */
    method ResetIfNeeded(player1: Player, player2: Player)
      modifies this
      ensures !old(AnyCanPlay(player1, player2)) ==> stack == [] && stackScore == 0
      ensures old(AnyCanPlay(player1, player2)) ==> stack == old(stack) && stackScore == old(stackScore)
      ensures old(Valid()) ==> Valid()
    {
      if !AnyCanPlay(player1, player2) {
        stack := [];
        stackScore := 0;
      }
    }

    /** `fifteen_points`. */
    function FifteenPoints(): nat
      reads this
    {
      if stackScore == 15 then 2 else 0
    }

    /** `thirty_one_points`. */
    function ThirtyOnePoints(): nat
      reads this
    {
      if stackScore == Limit then 2 else 0
    }

    /** `go_point`: one point when, after a play, nobody can play and the total is not 31. */
    function GoPoint(player1: Player, player2: Player): (r: nat)
      reads this, player1, player2
      ensures r <= 1
      ensures r == 1 <==>
                stackScore != Limit &&
                (forall i :: 0 <= i < |player1.hand| ==> CardValue(player1.hand[i]) + stackScore > Limit) &&
                (forall i :: 0 <= i < |player2.hand| ==> CardValue(player2.hand[i]) + stackScore > Limit)
    {
      if !AnyCanPlay(player1, player2) && stackScore != Limit then 1 else 0
    }

    /** `add_rank_to_array`: one more card in the slot of its rank. */
    static method AddRankToArray(rankArray: array<nat>, c: Card)
      requires rankArray.Length == RankCount
      modifies rankArray
      ensures rankArray[..] == AddRank(old(rankArray[..]), c)
    {
      var k := Ordinal(c.rank);
      if k < rankArray.Length {
        rankArray[k] := rankArray[k] + 1;
      } else {
        assert false;
      }
    }

    /** One step of the counting loop: add the card at `index` when it can join the top card in a run of `runSize`. */
    static method CountIfInRun(rankArray: array<nat>, s: seq<Card>, runSize: nat, index: nat)
      requires index < |s| && rankArray[..] == WindowCounts(s, runSize, index)
      modifies rankArray
      ensures rankArray[..] == WindowCounts(s, runSize, index + 1)
    {
      if CanMakeRunOf(index, s[index], |s| - 1, s[|s| - 1], runSize) {
        AddRankToArray(rankArray, s[index]);
      }
    }

    /** `is_run_of`: whether the first stretch of occupied slots is `points` long. */
    static method IsRunOf(rankArray: array<nat>, points: nat) returns (b: bool)
      ensures b <==> FirstBlock(rankArray[..]) == points
    {
      var currentRun: nat := 0;
      ghost var stopped := false;
      var i := 0;
      while i < rankArray.Length
        invariant 0 <= i <= rankArray.Length
        invariant !stopped
        invariant currentRun <= i
        invariant forall k :: 0 <= k < i - currentRun ==> rankArray[k] == 0
        invariant forall k :: i - currentRun <= k < i ==> rankArray[k] != 0
      {
        if 0 < rankArray[i] {
          currentRun := currentRun + 1;
        } else if 0 < currentRun {
          FirstBlockMeasured(rankArray[..], i - currentRun, currentRun);
          stopped := true;
          break;
        }
        i := i + 1;
      }
      if !stopped {
        if currentRun == 0 {
          FirstBlockAfterZeros(rankArray[..], rankArray.Length);
        } else {
          FirstBlockMeasured(rankArray[..], rankArray.Length - currentRun, currentRun);
        }
      }
      b := currentRun == points;
    }

    /**
     * The body of the counting loop of `largest_run_points`: the card at
     * `index` is counted in each of the five arrays whose run size it can
     * join the top card in.
     */
    static method CountInRuns(sevenRun: array<nat>, sixRun: array<nat>, fiveRun: array<nat>,
                              fourRun: array<nat>, threeRun: array<nat>, s: seq<Card>, index: nat)
      requires sevenRun != sixRun && sevenRun != fiveRun && sevenRun != fourRun && sevenRun != threeRun
      requires sixRun != fiveRun && sixRun != fourRun && sixRun != threeRun
      requires fiveRun != fourRun && fiveRun != threeRun && fourRun != threeRun
      requires index < |s|
      requires sevenRun[..] == WindowCounts(s, 7, index) && sixRun[..] == WindowCounts(s, 6, index)
      requires fiveRun[..] == WindowCounts(s, 5, index) && fourRun[..] == WindowCounts(s, 4, index)
      requires threeRun[..] == WindowCounts(s, 3, index)
      modifies sevenRun, sixRun, fiveRun, fourRun, threeRun
      ensures sevenRun[..] == WindowCounts(s, 7, index + 1) && sixRun[..] == WindowCounts(s, 6, index + 1)
      ensures fiveRun[..] == WindowCounts(s, 5, index + 1) && fourRun[..] == WindowCounts(s, 4, index + 1)
      ensures threeRun[..] == WindowCounts(s, 3, index + 1)
    {
      CountIfInRun(sevenRun, s, 7, index);
      CountIfInRun(sixRun, s, 6, index);
      CountIfInRun(fiveRun, s, 5, index);
      CountIfInRun(fourRun, s, 4, index);
      CountIfInRun(threeRun, s, 3, index);
    }

    /**
     * The counting loop of `largest_run_points`: one pass over the stack that
     * fills the count arrays for run sizes seven down to three.
     */
    static method CountRunWindows(s: seq<Card>) returns (sevenRun: array<nat>, sixRun: array<nat>, fiveRun: array<nat>,
                                                        fourRun: array<nat>, threeRun: array<nat>)
      requires s != []
      ensures sevenRun[..] == WindowCounts(s, 7, |s|)
      ensures sixRun[..] == WindowCounts(s, 6, |s|)
      ensures fiveRun[..] == WindowCounts(s, 5, |s|)
      ensures fourRun[..] == WindowCounts(s, 4, |s|)
      ensures threeRun[..] == WindowCounts(s, 3, |s|)
    {
      sevenRun := new nat[RankCount](_ => 0);
      sixRun := new nat[RankCount](_ => 0);
      fiveRun := new nat[RankCount](_ => 0);
      fourRun := new nat[RankCount](_ => 0);
      threeRun := new nat[RankCount](_ => 0);
      for index := 0 to |s|
        invariant sevenRun[..] == WindowCounts(s, 7, index)
        invariant sixRun[..] == WindowCounts(s, 6, index)
        invariant fiveRun[..] == WindowCounts(s, 5, index)
        invariant fourRun[..] == WindowCounts(s, 4, index)
        invariant threeRun[..] == WindowCounts(s, 3, index)
      {
        CountInRuns(sevenRun, sixRun, fiveRun, fourRun, threeRun, s, index);
      }
    }

    method LargestRunPoints() returns (r: nat)
      ensures r == TopRunPoints(stack)
    {
      if |stack| < 3 {
        return 0;
      }
      var sevenRun, sixRun, fiveRun, fourRun, threeRun := CountRunWindows(stack);
      TopRunFromWindows(stack);
      var isSeven := IsRunOf(sevenRun, 7);
      if isSeven {
        return 7;
      }
      var isSix := IsRunOf(sixRun, 6);
      if isSix {
        return 6;
      }
      var isFive := IsRunOf(fiveRun, 5);
      if isFive {
        return 5;
      }
      var isFour := IsRunOf(fourRun, 4);
      if isFour {
        return 4;
      }
      var isThree := IsRunOf(threeRun, 3);
      if isThree {
        return 3;
      }
      return 0;
    }

    /** `pairs_points`: 2, 6 or 12 as one, two or three cards beneath the top match it. */
    method PairsPoints() returns (p: nat)
      ensures p == PairPoints(MatchingBelow(stack))
    {
      if |stack| < 2 {
        return 0;
      }
      var matchingRanks := 0;
      var topCardRank := stack[|stack| - 1].rank;
      ghost var stopped := false;
      var j := 1;
      while j < 4 && j < |stack|
        invariant 1 <= j <= 4 && j <= |stack|
        invariant !stopped
        invariant matchingRanks == j - 1
        invariant forall p :: |stack| - j <= p < |stack| - 1 ==> stack[p].rank == topCardRank
      {
        if stack[|stack| - 1 - j].rank == topCardRank {
          matchingRanks := matchingRanks + 1;
        } else {
          stopped := true;
          break;
        }
        j := j + 1;
      }
      MatchingBelowExact(stack, matchingRanks);
      match matchingRanks {
        case 3 => p := 12;
        case 2 => p := 6;
        case 1 => p := 2;
        case _ => p := 0;
      }
    }

    /** `current_points`: what the card just put on top scores. */
    method CurrentPoints() returns (p: nat)
      ensures p == PegPoints(stack, stackScore)
    {
      var runPoints := LargestRunPoints();
      var pairPoints := PairsPoints();
      p := runPoints + pairPoints + FifteenPoints() + ThirtyOnePoints();
    }

    /**
     * `play_once`: if the player can play, the card the controller picks
     * (`index` into the hand) leaves the hand and goes on the stack, and the
     * player scores what it makes plus the go point; otherwise nothing happens.
     */
    method PlayOnce(player: Player, opponent: Player, index: nat)
      requires player != opponent
      requires CanPlay(player) ==> index < |player.hand|
      modifies this, player
      ensures !old(CanPlay(player)) ==>
                stack == old(stack) && stackScore == old(stackScore) &&
                player.hand == old(player.hand) && player.points == old(player.points)
      ensures old(CanPlay(player)) ==>
                var card := old(player.hand)[index];
                player.hand == old(player.hand)[..index] + old(player.hand)[index + 1..] &&
                stack == old(stack) + [card] &&
                stackScore == old(stackScore) + CardValue(card) &&
                player.points == old(player.points) + PegPoints(stack, stackScore) + GoPoint(player, opponent)
      ensures unchanged(opponent)
      ensures old(Valid()) ==> Valid()
    {
      if CanPlay(player) {
        var card := player.hand[index];
        player.hand := player.hand[..index] + player.hand[index + 1..];
        AddCard(card);
        var points := CurrentPoints();
        player.points := player.points + points;
        player.points := player.points + GoPoint(player, opponent);
      }
    }
  }

  /** The run points, read off the five count arrays the way `largest_run_points` does. */
  lemma TopRunFromWindows(s: seq<Card>)
    requires |s| >= 3
    ensures TopRunPoints(s) ==
            if FirstBlock(WindowCounts(s, 7, |s|)) == 7 then 7
            else if FirstBlock(WindowCounts(s, 6, |s|)) == 6 then 6
            else if FirstBlock(WindowCounts(s, 5, |s|)) == 5 then 5
            else if FirstBlock(WindowCounts(s, 4, |s|)) == 4 then 4
            else if FirstBlock(WindowCounts(s, 3, |s|)) == 3 then 3
            else 0
  {
    WindowRunIff(s, 7);
    WindowRunIff(s, 6);
    WindowRunIff(s, 5);
    WindowRunIff(s, 4);
    WindowRunIff(s, 3);
  }

  /** `MatchingBelow` is pinned down by its contract. */
  lemma MatchingBelowExact(s: seq<Card>, m: nat)
    requires 2 <= |s| && 1 <= m + 1 <= 4 && m + 1 <= |s|
    requires forall p :: |s| - 1 - m <= p < |s| - 1 ==> s[p].rank == s[|s| - 1].rank
    requires m < 3 && m + 1 < |s| ==> s[|s| - 2 - m].rank != s[|s| - 1].rank
    ensures MatchingBelow(s) == m
  {
  }

  // ---------------------------------------------------------------------------
  // Properties of the scoring rules
  // ---------------------------------------------------------------------------

  /** Pair points are the hand scorer's pair count over the top card and the cards matching it. */
  lemma {:induction false} PairPointsCountPairs(s: seq<Card>)
    requires s != []
    ensures PairPoints(MatchingBelow(s)) == 2 * PairCount(s[|s| - 1 - MatchingBelow(s)..])
  {
    var m := MatchingBelow(s);
    var w := s[|s| - 1 - m..];
    assert forall i :: 0 <= i < |w| ==> w[i].rank == w[|w| - 1].rank by {
      forall i | 0 <= i < |w| ensures w[i].rank == w[|w| - 1].rank {
        assert w[i] == s[|s| - 1 - m + i];
      }
    }
    SameRankPairCount(w);
    assert PairCount(w) == Choose2(m + 1);
  }

  /** Among cards of a single rank every two form a pair. */
  lemma {:induction false} SameRankPairCount(w: seq<Card>)
    requires w != []
    requires forall i :: 0 <= i < |w| ==> w[i].rank == w[|w| - 1].rank
    ensures PairCount(w) == Choose2(|w|)
    decreases |w|
  {
    if |w| > 1 {
      var tail := w[1..];
      assert tail[|tail| - 1] == w[|w| - 1];
      SameRankPairCount(tail);
      SameRankCountAll(w[0], tail);
    } else {
      assert w[1..] == [];
    }
  }

  /** Every card of `t` has the rank of `c`, so all of them count. */
  lemma {:induction false} SameRankCountAll(c: Card, t: seq<Card>)
    requires forall i :: 0 <= i < |t| ==> t[i].rank == c.rank
    ensures SameRank(c, t) == |t|
    decreases |t|
  {
    if t != [] {
      assert forall i :: 0 <= i < |t[1..]| ==> t[1..][i] == t[i + 1];
      SameRankCountAll(c, t[1..]);
    }
  }
}
