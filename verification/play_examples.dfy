/**
 * The pegging examples of the play module, each a stack (and, where needed,
 * two players) pinned to concrete cards. The lemmas evaluate the run rule on
 * a stack through the five count arrays; the methods drive `PlayData`.
 */
module PlayExamples {
  import opened Cards
  import opened Combinations
  import opened RunWindow
  import opened Play

  /** `can_make_run_of`: too far back in the stack, too far apart in rank, and two cards that fit. */
  lemma CanMakeRunOfExamples()
    ensures !CanMakeRunOf(2, Card(Five, Clubs), 6, Card(Two, Clubs), 4)
    ensures !CanMakeRunOf(3, Card(Six, Clubs), 6, Card(Two, Clubs), 4)
    ensures CanMakeRunOf(5, Card(Three, Clubs), 7, Card(Ace, Clubs), 3)
    ensures CanMakeRunOf(5, Card(Three, Clubs), 7, Card(Ace, Clubs), 7)
  {
    assert AbsDiff(6, 2) == 4;
    assert AbsDiff(Ordinal(Two), Ordinal(Six)) == 4;
  }

  /** `is_run_of` on a stretch of three after an empty slot, asked for seven. */
  method IsRunOfGaps() returns (b: bool)
    ensures !b
  {
    var rankArray := new nat[] [0, 1, 1, 1, 0, 1, 1, 1, 1, 0, 0, 0, 0];
    assert rankArray[..] == [0, 1, 1, 1, 0, 1, 1, 1, 1, 0, 0, 0, 0];
    FirstBlockMeasured([0, 1, 1, 1, 0, 1, 1, 1, 1, 0, 0, 0, 0], 1, 3);
    b := PlayData.IsRunOf(rankArray, 7);
  }

  /** `is_run_of` on a first stretch of five with doubled slots, asked for seven. */
  method IsRunOfMultiple() returns (b: bool)
    ensures !b
  {
    var rankArray := new nat[] [1, 2, 2, 1, 1, 0, 0, 0, 0, 0, 0, 0, 0];
    assert rankArray[..] == [1, 2, 2, 1, 1, 0, 0, 0, 0, 0, 0, 0, 0];
    FirstBlockMeasured([1, 2, 2, 1, 1, 0, 0, 0, 0, 0, 0, 0, 0], 0, 5);
    b := PlayData.IsRunOf(rankArray, 7);
  }

  /** `is_run_of` on a stretch of three, asked for four. */
  method IsRunOfShort() returns (b: bool)
    ensures !b
  {
    var rankArray := new nat[] [1, 1, 1, 0, 0, 0, 0, 0, 0, 0, 0, 0, 0];
    assert rankArray[..] == [1, 1, 1, 0, 0, 0, 0, 0, 0, 0, 0, 0, 0];
    FirstBlockMeasured([1, 1, 1, 0, 0, 0, 0, 0, 0, 0, 0, 0, 0], 0, 3);
    b := PlayData.IsRunOf(rankArray, 4);
  }

  /** `is_run_of` on a stretch of three, asked for three. */
  method IsRunOfExact() returns (b: bool)
    ensures b
  {
    var rankArray := new nat[] [1, 1, 1, 0, 0, 0, 0, 0, 0, 0, 0, 0, 0];
    assert rankArray[..] == [1, 1, 1, 0, 0, 0, 0, 0, 0, 0, 0, 0, 0];
    FirstBlockMeasured([1, 1, 1, 0, 0, 0, 0, 0, 0, 0, 0, 0, 0], 0, 3);
    b := PlayData.IsRunOf(rankArray, 3);
  }

  // ---------------------------------------------------------------------------
  // largest_run_points
  // ---------------------------------------------------------------------------

  /** The run rule on two cards: no run: 0. */
  lemma RunOfStackTooSmall()
    ensures TopRunPoints([Card(Ace, Clubs), Card(Two, Clubs)]) == 0
  {
  }

  /** `largest_run_points` on two cards: no run. */
  method LargestRunStackTooSmall() returns (r: nat)
    ensures r == 0
  {
    var data := new PlayData.FromCards([Card(Ace, Clubs), Card(Two, Clubs)]);
    r := data.LargestRunPoints();
    RunOfStackTooSmall();
  }

  lemma RunOfTopNotRunWindow7(c0: Card, c1: Card, c2: Card, c3: Card)
    requires c0 == Card(Ace, Clubs)
    requires c1 == Card(Two, Clubs)
    requires c2 == Card(Three, Clubs)
    requires c3 == Card(Five, Clubs)
    ensures FirstBlock(WindowCounts([c0, c1, c2, c3], 7, 4)) == 3
  {
    var s := [c0, c1, c2, c3];
    assert |s| == 4 && s[0] == c0 && s[1] == c1 && s[2] == c2 && s[3] == c3;
    var w0 := WindowCounts(s, 7, 0);
    assert w0 == Zeros(RankCount);
    var w1 := WindowCounts(s, 7, 1);
    assert CanMakeRunOf(0, c0, 3, c3, 7);
    assert w1 == AddRank(w0, c0);
    var w2 := WindowCounts(s, 7, 2);
    assert CanMakeRunOf(1, c1, 3, c3, 7);
    assert w2 == AddRank(w1, c1);
    var w3 := WindowCounts(s, 7, 3);
    assert CanMakeRunOf(2, c2, 3, c3, 7);
    assert w3 == AddRank(w2, c2);
    var w4 := WindowCounts(s, 7, 4);
    assert CanMakeRunOf(3, c3, 3, c3, 7);
    assert w4 == AddRank(w3, c3);
    FirstBlockMeasured(w4, 0, 3);
  }

  lemma RunOfTopNotRunWindow6(c0: Card, c1: Card, c2: Card, c3: Card)
    requires c0 == Card(Ace, Clubs)
    requires c1 == Card(Two, Clubs)
    requires c2 == Card(Three, Clubs)
    requires c3 == Card(Five, Clubs)
    ensures FirstBlock(WindowCounts([c0, c1, c2, c3], 6, 4)) == 3
  {
    var s := [c0, c1, c2, c3];
    assert |s| == 4 && s[0] == c0 && s[1] == c1 && s[2] == c2 && s[3] == c3;
    var w0 := WindowCounts(s, 6, 0);
    assert w0 == Zeros(RankCount);
    var w1 := WindowCounts(s, 6, 1);
    assert CanMakeRunOf(0, c0, 3, c3, 6);
    assert w1 == AddRank(w0, c0);
    var w2 := WindowCounts(s, 6, 2);
    assert CanMakeRunOf(1, c1, 3, c3, 6);
    assert w2 == AddRank(w1, c1);
    var w3 := WindowCounts(s, 6, 3);
    assert CanMakeRunOf(2, c2, 3, c3, 6);
    assert w3 == AddRank(w2, c2);
    var w4 := WindowCounts(s, 6, 4);
    assert CanMakeRunOf(3, c3, 3, c3, 6);
    assert w4 == AddRank(w3, c3);
    FirstBlockMeasured(w4, 0, 3);
  }

  lemma RunOfTopNotRunWindow5(c0: Card, c1: Card, c2: Card, c3: Card)
    requires c0 == Card(Ace, Clubs)
    requires c1 == Card(Two, Clubs)
    requires c2 == Card(Three, Clubs)
    requires c3 == Card(Five, Clubs)
    ensures FirstBlock(WindowCounts([c0, c1, c2, c3], 5, 4)) == 3
  {
    var s := [c0, c1, c2, c3];
    assert |s| == 4 && s[0] == c0 && s[1] == c1 && s[2] == c2 && s[3] == c3;
    var w0 := WindowCounts(s, 5, 0);
    assert w0 == Zeros(RankCount);
    var w1 := WindowCounts(s, 5, 1);
    assert CanMakeRunOf(0, c0, 3, c3, 5);
    assert w1 == AddRank(w0, c0);
    var w2 := WindowCounts(s, 5, 2);
    assert CanMakeRunOf(1, c1, 3, c3, 5);
    assert w2 == AddRank(w1, c1);
    var w3 := WindowCounts(s, 5, 3);
    assert CanMakeRunOf(2, c2, 3, c3, 5);
    assert w3 == AddRank(w2, c2);
    var w4 := WindowCounts(s, 5, 4);
    assert CanMakeRunOf(3, c3, 3, c3, 5);
    assert w4 == AddRank(w3, c3);
    FirstBlockMeasured(w4, 0, 3);
  }

  lemma RunOfTopNotRunWindow4(c0: Card, c1: Card, c2: Card, c3: Card)
    requires c0 == Card(Ace, Clubs)
    requires c1 == Card(Two, Clubs)
    requires c2 == Card(Three, Clubs)
    requires c3 == Card(Five, Clubs)
    ensures FirstBlock(WindowCounts([c0, c1, c2, c3], 4, 4)) == 2
  {
    var s := [c0, c1, c2, c3];
    assert |s| == 4 && s[0] == c0 && s[1] == c1 && s[2] == c2 && s[3] == c3;
    var w0 := WindowCounts(s, 4, 0);
    assert w0 == Zeros(RankCount);
    var w1 := WindowCounts(s, 4, 1);
    assert !CanMakeRunOf(0, c0, 3, c3, 4);
    assert w1 == w0;
    var w2 := WindowCounts(s, 4, 2);
    assert CanMakeRunOf(1, c1, 3, c3, 4);
    assert w2 == AddRank(w1, c1);
    var w3 := WindowCounts(s, 4, 3);
    assert CanMakeRunOf(2, c2, 3, c3, 4);
    assert w3 == AddRank(w2, c2);
    var w4 := WindowCounts(s, 4, 4);
    assert CanMakeRunOf(3, c3, 3, c3, 4);
    assert w4 == AddRank(w3, c3);
    FirstBlockMeasured(w4, 1, 2);
  }

  lemma RunOfTopNotRunWindow3(c0: Card, c1: Card, c2: Card, c3: Card)
    requires c0 == Card(Ace, Clubs)
    requires c1 == Card(Two, Clubs)
    requires c2 == Card(Three, Clubs)
    requires c3 == Card(Five, Clubs)
    ensures FirstBlock(WindowCounts([c0, c1, c2, c3], 3, 4)) == 1
  {
    var s := [c0, c1, c2, c3];
    assert |s| == 4 && s[0] == c0 && s[1] == c1 && s[2] == c2 && s[3] == c3;
    var w0 := WindowCounts(s, 3, 0);
    assert w0 == Zeros(RankCount);
    var w1 := WindowCounts(s, 3, 1);
    assert !CanMakeRunOf(0, c0, 3, c3, 3);
    assert w1 == w0;
    var w2 := WindowCounts(s, 3, 2);
    assert !CanMakeRunOf(1, c1, 3, c3, 3);
    assert w2 == w1;
    var w3 := WindowCounts(s, 3, 3);
    assert CanMakeRunOf(2, c2, 3, c3, 3);
    assert w3 == AddRank(w2, c2);
    var w4 := WindowCounts(s, 3, 4);
    assert CanMakeRunOf(3, c3, 3, c3, 3);
    assert w4 == AddRank(w3, c3);
    FirstBlockMeasured(w4, 2, 1);
  }

  /** The run rule on a run beneath a five on top: 0. */
  lemma RunOfTopNotRun()
    ensures TopRunPoints([Card(Ace, Clubs), Card(Two, Clubs), Card(Three, Clubs), Card(Five, Clubs)]) == 0
  {
    RunOfTopNotRunWindow7(Card(Ace, Clubs), Card(Two, Clubs), Card(Three, Clubs), Card(Five, Clubs));
    RunOfTopNotRunWindow6(Card(Ace, Clubs), Card(Two, Clubs), Card(Three, Clubs), Card(Five, Clubs));
    RunOfTopNotRunWindow5(Card(Ace, Clubs), Card(Two, Clubs), Card(Three, Clubs), Card(Five, Clubs));
    RunOfTopNotRunWindow4(Card(Ace, Clubs), Card(Two, Clubs), Card(Three, Clubs), Card(Five, Clubs));
    RunOfTopNotRunWindow3(Card(Ace, Clubs), Card(Two, Clubs), Card(Three, Clubs), Card(Five, Clubs));
    TopRunFromWindows([Card(Ace, Clubs), Card(Two, Clubs), Card(Three, Clubs), Card(Five, Clubs)]);
  }

  /** `largest_run_points` on a run beneath a five on top. */
  method LargestRunTopNotRun() returns (r: nat)
    ensures r == 0
  {
    var data := new PlayData.FromCards([Card(Ace, Clubs), Card(Two, Clubs), Card(Three, Clubs), Card(Five, Clubs)]);
    r := data.LargestRunPoints();
    RunOfTopNotRun();
  }

  lemma RunOfTopNotRunLongWindow7(c0: Card, c1: Card, c2: Card, c3: Card, c4: Card, c5: Card, c6: Card)
    requires c0 == Card(Ace, Clubs)
    requires c1 == Card(Three, Clubs)
    requires c2 == Card(Five, Clubs)
    requires c3 == Card(Six, Clubs)
    requires c4 == Card(Seven, Clubs)
    requires c5 == Card(Eight, Clubs)
    requires c6 == Card(Two, Clubs)
    ensures FirstBlock(WindowCounts([c0, c1, c2, c3, c4, c5, c6], 7, 7)) == 3
  {
    var s := [c0, c1, c2, c3, c4, c5, c6];
    assert |s| == 7 && s[0] == c0 && s[1] == c1 && s[2] == c2 && s[3] == c3 && s[4] == c4 && s[5] == c5 && s[6] == c6;
    var w0 := WindowCounts(s, 7, 0);
    assert w0 == Zeros(RankCount);
    var w1 := WindowCounts(s, 7, 1);
    assert CanMakeRunOf(0, c0, 6, c6, 7);
    assert w1 == AddRank(w0, c0);
    var w2 := WindowCounts(s, 7, 2);
    assert CanMakeRunOf(1, c1, 6, c6, 7);
    assert w2 == AddRank(w1, c1);
    var w3 := WindowCounts(s, 7, 3);
    assert CanMakeRunOf(2, c2, 6, c6, 7);
    assert w3 == AddRank(w2, c2);
    var w4 := WindowCounts(s, 7, 4);
    assert CanMakeRunOf(3, c3, 6, c6, 7);
    assert w4 == AddRank(w3, c3);
    var w5 := WindowCounts(s, 7, 5);
    assert CanMakeRunOf(4, c4, 6, c6, 7);
    assert w5 == AddRank(w4, c4);
    var w6 := WindowCounts(s, 7, 6);
    assert CanMakeRunOf(5, c5, 6, c6, 7);
    assert w6 == AddRank(w5, c5);
    var w7 := WindowCounts(s, 7, 7);
    assert CanMakeRunOf(6, c6, 6, c6, 7);
    assert w7 == AddRank(w6, c6);
    FirstBlockMeasured(w7, 0, 3);
  }

  lemma RunOfTopNotRunLongWindow6(c0: Card, c1: Card, c2: Card, c3: Card, c4: Card, c5: Card, c6: Card)
    requires c0 == Card(Ace, Clubs)
    requires c1 == Card(Three, Clubs)
    requires c2 == Card(Five, Clubs)
    requires c3 == Card(Six, Clubs)
    requires c4 == Card(Seven, Clubs)
    requires c5 == Card(Eight, Clubs)
    requires c6 == Card(Two, Clubs)
    ensures FirstBlock(WindowCounts([c0, c1, c2, c3, c4, c5, c6], 6, 7)) == 2
  {
    var s := [c0, c1, c2, c3, c4, c5, c6];
    assert |s| == 7 && s[0] == c0 && s[1] == c1 && s[2] == c2 && s[3] == c3 && s[4] == c4 && s[5] == c5 && s[6] == c6;
    var w0 := WindowCounts(s, 6, 0);
    assert w0 == Zeros(RankCount);
    var w1 := WindowCounts(s, 6, 1);
    assert !CanMakeRunOf(0, c0, 6, c6, 6);
    assert w1 == w0;
    var w2 := WindowCounts(s, 6, 2);
    assert CanMakeRunOf(1, c1, 6, c6, 6);
    assert w2 == AddRank(w1, c1);
    var w3 := WindowCounts(s, 6, 3);
    assert CanMakeRunOf(2, c2, 6, c6, 6);
    assert w3 == AddRank(w2, c2);
    var w4 := WindowCounts(s, 6, 4);
    assert CanMakeRunOf(3, c3, 6, c6, 6);
    assert w4 == AddRank(w3, c3);
    var w5 := WindowCounts(s, 6, 5);
    assert CanMakeRunOf(4, c4, 6, c6, 6);
    assert w5 == AddRank(w4, c4);
    var w6 := WindowCounts(s, 6, 6);
    assert !CanMakeRunOf(5, c5, 6, c6, 6);
    assert w6 == w5;
    var w7 := WindowCounts(s, 6, 7);
    assert CanMakeRunOf(6, c6, 6, c6, 6);
    assert w7 == AddRank(w6, c6);
    FirstBlockMeasured(w7, 1, 2);
  }

  lemma RunOfTopNotRunLongWindow5(c0: Card, c1: Card, c2: Card, c3: Card, c4: Card, c5: Card, c6: Card)
    requires c0 == Card(Ace, Clubs)
    requires c1 == Card(Three, Clubs)
    requires c2 == Card(Five, Clubs)
    requires c3 == Card(Six, Clubs)
    requires c4 == Card(Seven, Clubs)
    requires c5 == Card(Eight, Clubs)
    requires c6 == Card(Two, Clubs)
    ensures FirstBlock(WindowCounts([c0, c1, c2, c3, c4, c5, c6], 5, 7)) == 1
  {
    var s := [c0, c1, c2, c3, c4, c5, c6];
    assert |s| == 7 && s[0] == c0 && s[1] == c1 && s[2] == c2 && s[3] == c3 && s[4] == c4 && s[5] == c5 && s[6] == c6;
    var w0 := WindowCounts(s, 5, 0);
    assert w0 == Zeros(RankCount);
    var w1 := WindowCounts(s, 5, 1);
    assert !CanMakeRunOf(0, c0, 6, c6, 5);
    assert w1 == w0;
    var w2 := WindowCounts(s, 5, 2);
    assert !CanMakeRunOf(1, c1, 6, c6, 5);
    assert w2 == w1;
    var w3 := WindowCounts(s, 5, 3);
    assert CanMakeRunOf(2, c2, 6, c6, 5);
    assert w3 == AddRank(w2, c2);
    var w4 := WindowCounts(s, 5, 4);
    assert CanMakeRunOf(3, c3, 6, c6, 5);
    assert w4 == AddRank(w3, c3);
    var w5 := WindowCounts(s, 5, 5);
    assert !CanMakeRunOf(4, c4, 6, c6, 5);
    assert w5 == w4;
    var w6 := WindowCounts(s, 5, 6);
    assert !CanMakeRunOf(5, c5, 6, c6, 5);
    assert w6 == w5;
    var w7 := WindowCounts(s, 5, 7);
    assert CanMakeRunOf(6, c6, 6, c6, 5);
    assert w7 == AddRank(w6, c6);
    FirstBlockMeasured(w7, 1, 1);
  }

  lemma RunOfTopNotRunLongWindow4(c0: Card, c1: Card, c2: Card, c3: Card, c4: Card, c5: Card, c6: Card)
    requires c0 == Card(Ace, Clubs)
    requires c1 == Card(Three, Clubs)
    requires c2 == Card(Five, Clubs)
    requires c3 == Card(Six, Clubs)
    requires c4 == Card(Seven, Clubs)
    requires c5 == Card(Eight, Clubs)
    requires c6 == Card(Two, Clubs)
    ensures FirstBlock(WindowCounts([c0, c1, c2, c3, c4, c5, c6], 4, 7)) == 1
  {
    var s := [c0, c1, c2, c3, c4, c5, c6];
    assert |s| == 7 && s[0] == c0 && s[1] == c1 && s[2] == c2 && s[3] == c3 && s[4] == c4 && s[5] == c5 && s[6] == c6;
    var w0 := WindowCounts(s, 4, 0);
    assert w0 == Zeros(RankCount);
    var w1 := WindowCounts(s, 4, 1);
    assert !CanMakeRunOf(0, c0, 6, c6, 4);
    assert w1 == w0;
    var w2 := WindowCounts(s, 4, 2);
    assert !CanMakeRunOf(1, c1, 6, c6, 4);
    assert w2 == w1;
    var w3 := WindowCounts(s, 4, 3);
    assert !CanMakeRunOf(2, c2, 6, c6, 4);
    assert w3 == w2;
    var w4 := WindowCounts(s, 4, 4);
    assert !CanMakeRunOf(3, c3, 6, c6, 4);
    assert w4 == w3;
    var w5 := WindowCounts(s, 4, 5);
    assert !CanMakeRunOf(4, c4, 6, c6, 4);
    assert w5 == w4;
    var w6 := WindowCounts(s, 4, 6);
    assert !CanMakeRunOf(5, c5, 6, c6, 4);
    assert w6 == w5;
    var w7 := WindowCounts(s, 4, 7);
    assert CanMakeRunOf(6, c6, 6, c6, 4);
    assert w7 == AddRank(w6, c6);
    FirstBlockMeasured(w7, 1, 1);
  }

  lemma RunOfTopNotRunLongWindow3(c0: Card, c1: Card, c2: Card, c3: Card, c4: Card, c5: Card, c6: Card)
    requires c0 == Card(Ace, Clubs)
    requires c1 == Card(Three, Clubs)
    requires c2 == Card(Five, Clubs)
    requires c3 == Card(Six, Clubs)
    requires c4 == Card(Seven, Clubs)
    requires c5 == Card(Eight, Clubs)
    requires c6 == Card(Two, Clubs)
    ensures FirstBlock(WindowCounts([c0, c1, c2, c3, c4, c5, c6], 3, 7)) == 1
  {
    var s := [c0, c1, c2, c3, c4, c5, c6];
    assert |s| == 7 && s[0] == c0 && s[1] == c1 && s[2] == c2 && s[3] == c3 && s[4] == c4 && s[5] == c5 && s[6] == c6;
    var w0 := WindowCounts(s, 3, 0);
    assert w0 == Zeros(RankCount);
    var w1 := WindowCounts(s, 3, 1);
    assert !CanMakeRunOf(0, c0, 6, c6, 3);
    assert w1 == w0;
    var w2 := WindowCounts(s, 3, 2);
    assert !CanMakeRunOf(1, c1, 6, c6, 3);
    assert w2 == w1;
    var w3 := WindowCounts(s, 3, 3);
    assert !CanMakeRunOf(2, c2, 6, c6, 3);
    assert w3 == w2;
    var w4 := WindowCounts(s, 3, 4);
    assert !CanMakeRunOf(3, c3, 6, c6, 3);
    assert w4 == w3;
    var w5 := WindowCounts(s, 3, 5);
    assert !CanMakeRunOf(4, c4, 6, c6, 3);
    assert w5 == w4;
    var w6 := WindowCounts(s, 3, 6);
    assert !CanMakeRunOf(5, c5, 6, c6, 3);
    assert w6 == w5;
    var w7 := WindowCounts(s, 3, 7);
    assert CanMakeRunOf(6, c6, 6, c6, 3);
    assert w7 == AddRank(w6, c6);
    FirstBlockMeasured(w7, 1, 1);
  }

  /** The run rule on a two on top of a long stretch that misses the four: 0. */
  lemma RunOfTopNotRunLong()
    ensures TopRunPoints([Card(Ace, Clubs), Card(Three, Clubs), Card(Five, Clubs), Card(Six, Clubs), Card(Seven, Clubs), Card(Eight, Clubs), Card(Two, Clubs)]) == 0
  {
    RunOfTopNotRunLongWindow7(Card(Ace, Clubs), Card(Three, Clubs), Card(Five, Clubs), Card(Six, Clubs), Card(Seven, Clubs), Card(Eight, Clubs), Card(Two, Clubs));
    RunOfTopNotRunLongWindow6(Card(Ace, Clubs), Card(Three, Clubs), Card(Five, Clubs), Card(Six, Clubs), Card(Seven, Clubs), Card(Eight, Clubs), Card(Two, Clubs));
    RunOfTopNotRunLongWindow5(Card(Ace, Clubs), Card(Three, Clubs), Card(Five, Clubs), Card(Six, Clubs), Card(Seven, Clubs), Card(Eight, Clubs), Card(Two, Clubs));
    RunOfTopNotRunLongWindow4(Card(Ace, Clubs), Card(Three, Clubs), Card(Five, Clubs), Card(Six, Clubs), Card(Seven, Clubs), Card(Eight, Clubs), Card(Two, Clubs));
    RunOfTopNotRunLongWindow3(Card(Ace, Clubs), Card(Three, Clubs), Card(Five, Clubs), Card(Six, Clubs), Card(Seven, Clubs), Card(Eight, Clubs), Card(Two, Clubs));
    TopRunFromWindows([Card(Ace, Clubs), Card(Three, Clubs), Card(Five, Clubs), Card(Six, Clubs), Card(Seven, Clubs), Card(Eight, Clubs), Card(Two, Clubs)]);
  }

  /** `largest_run_points` on a two on top of a long stretch that misses the four. */
  method LargestRunTopNotRunLong() returns (r: nat)
    ensures r == 0
  {
    var data := new PlayData.FromCards([Card(Ace, Clubs), Card(Three, Clubs), Card(Five, Clubs), Card(Six, Clubs), Card(Seven, Clubs), Card(Eight, Clubs), Card(Two, Clubs)]);
    r := data.LargestRunPoints();
    RunOfTopNotRunLong();
  }

  lemma RunOfThreeWindow7(c0: Card, c1: Card, c2: Card, c3: Card)
    requires c0 == Card(Ace, Clubs)
    requires c1 == Card(King, Clubs)
    requires c2 == Card(Jack, Clubs)
    requires c3 == Card(Queen, Clubs)
    ensures FirstBlock(WindowCounts([c0, c1, c2, c3], 7, 4)) == 3
  {
    var s := [c0, c1, c2, c3];
    assert |s| == 4 && s[0] == c0 && s[1] == c1 && s[2] == c2 && s[3] == c3;
    var w0 := WindowCounts(s, 7, 0);
    assert w0 == Zeros(RankCount);
    var w1 := WindowCounts(s, 7, 1);
    assert !CanMakeRunOf(0, c0, 3, c3, 7);
    assert w1 == w0;
    var w2 := WindowCounts(s, 7, 2);
    assert CanMakeRunOf(1, c1, 3, c3, 7);
    assert w2 == AddRank(w1, c1);
    var w3 := WindowCounts(s, 7, 3);
    assert CanMakeRunOf(2, c2, 3, c3, 7);
    assert w3 == AddRank(w2, c2);
    var w4 := WindowCounts(s, 7, 4);
    assert CanMakeRunOf(3, c3, 3, c3, 7);
    assert w4 == AddRank(w3, c3);
    FirstBlockMeasured(w4, 10, 3);
  }

  lemma RunOfThreeWindow6(c0: Card, c1: Card, c2: Card, c3: Card)
    requires c0 == Card(Ace, Clubs)
    requires c1 == Card(King, Clubs)
    requires c2 == Card(Jack, Clubs)
    requires c3 == Card(Queen, Clubs)
    ensures FirstBlock(WindowCounts([c0, c1, c2, c3], 6, 4)) == 3
  {
    var s := [c0, c1, c2, c3];
    assert |s| == 4 && s[0] == c0 && s[1] == c1 && s[2] == c2 && s[3] == c3;
    var w0 := WindowCounts(s, 6, 0);
    assert w0 == Zeros(RankCount);
    var w1 := WindowCounts(s, 6, 1);
    assert !CanMakeRunOf(0, c0, 3, c3, 6);
    assert w1 == w0;
    var w2 := WindowCounts(s, 6, 2);
    assert CanMakeRunOf(1, c1, 3, c3, 6);
    assert w2 == AddRank(w1, c1);
    var w3 := WindowCounts(s, 6, 3);
    assert CanMakeRunOf(2, c2, 3, c3, 6);
    assert w3 == AddRank(w2, c2);
    var w4 := WindowCounts(s, 6, 4);
    assert CanMakeRunOf(3, c3, 3, c3, 6);
    assert w4 == AddRank(w3, c3);
    FirstBlockMeasured(w4, 10, 3);
  }

  lemma RunOfThreeWindow5(c0: Card, c1: Card, c2: Card, c3: Card)
    requires c0 == Card(Ace, Clubs)
    requires c1 == Card(King, Clubs)
    requires c2 == Card(Jack, Clubs)
    requires c3 == Card(Queen, Clubs)
    ensures FirstBlock(WindowCounts([c0, c1, c2, c3], 5, 4)) == 3
  {
    var s := [c0, c1, c2, c3];
    assert |s| == 4 && s[0] == c0 && s[1] == c1 && s[2] == c2 && s[3] == c3;
    var w0 := WindowCounts(s, 5, 0);
    assert w0 == Zeros(RankCount);
    var w1 := WindowCounts(s, 5, 1);
    assert !CanMakeRunOf(0, c0, 3, c3, 5);
    assert w1 == w0;
    var w2 := WindowCounts(s, 5, 2);
    assert CanMakeRunOf(1, c1, 3, c3, 5);
    assert w2 == AddRank(w1, c1);
    var w3 := WindowCounts(s, 5, 3);
    assert CanMakeRunOf(2, c2, 3, c3, 5);
    assert w3 == AddRank(w2, c2);
    var w4 := WindowCounts(s, 5, 4);
    assert CanMakeRunOf(3, c3, 3, c3, 5);
    assert w4 == AddRank(w3, c3);
    FirstBlockMeasured(w4, 10, 3);
  }

  lemma RunOfThreeWindow4(c0: Card, c1: Card, c2: Card, c3: Card)
    requires c0 == Card(Ace, Clubs)
    requires c1 == Card(King, Clubs)
    requires c2 == Card(Jack, Clubs)
    requires c3 == Card(Queen, Clubs)
    ensures FirstBlock(WindowCounts([c0, c1, c2, c3], 4, 4)) == 3
  {
    var s := [c0, c1, c2, c3];
    assert |s| == 4 && s[0] == c0 && s[1] == c1 && s[2] == c2 && s[3] == c3;
    var w0 := WindowCounts(s, 4, 0);
    assert w0 == Zeros(RankCount);
    var w1 := WindowCounts(s, 4, 1);
    assert !CanMakeRunOf(0, c0, 3, c3, 4);
    assert w1 == w0;
    var w2 := WindowCounts(s, 4, 2);
    assert CanMakeRunOf(1, c1, 3, c3, 4);
    assert w2 == AddRank(w1, c1);
    var w3 := WindowCounts(s, 4, 3);
    assert CanMakeRunOf(2, c2, 3, c3, 4);
    assert w3 == AddRank(w2, c2);
    var w4 := WindowCounts(s, 4, 4);
    assert CanMakeRunOf(3, c3, 3, c3, 4);
    assert w4 == AddRank(w3, c3);
    FirstBlockMeasured(w4, 10, 3);
  }

  lemma RunOfThreeWindow3(c0: Card, c1: Card, c2: Card, c3: Card)
    requires c0 == Card(Ace, Clubs)
    requires c1 == Card(King, Clubs)
    requires c2 == Card(Jack, Clubs)
    requires c3 == Card(Queen, Clubs)
    ensures FirstBlock(WindowCounts([c0, c1, c2, c3], 3, 4)) == 3
  {
    var s := [c0, c1, c2, c3];
    assert |s| == 4 && s[0] == c0 && s[1] == c1 && s[2] == c2 && s[3] == c3;
    var w0 := WindowCounts(s, 3, 0);
    assert w0 == Zeros(RankCount);
    var w1 := WindowCounts(s, 3, 1);
    assert !CanMakeRunOf(0, c0, 3, c3, 3);
    assert w1 == w0;
    var w2 := WindowCounts(s, 3, 2);
    assert CanMakeRunOf(1, c1, 3, c3, 3);
    assert w2 == AddRank(w1, c1);
    var w3 := WindowCounts(s, 3, 3);
    assert CanMakeRunOf(2, c2, 3, c3, 3);
    assert w3 == AddRank(w2, c2);
    var w4 := WindowCounts(s, 3, 4);
    assert CanMakeRunOf(3, c3, 3, c3, 3);
    assert w4 == AddRank(w3, c3);
    FirstBlockMeasured(w4, 10, 3);
  }

  /** The run rule on jack, queen, king on an ace: 3. */
  lemma RunOfThree()
    ensures TopRunPoints([Card(Ace, Clubs), Card(King, Clubs), Card(Jack, Clubs), Card(Queen, Clubs)]) == 3
  {
    RunOfThreeWindow7(Card(Ace, Clubs), Card(King, Clubs), Card(Jack, Clubs), Card(Queen, Clubs));
    RunOfThreeWindow6(Card(Ace, Clubs), Card(King, Clubs), Card(Jack, Clubs), Card(Queen, Clubs));
    RunOfThreeWindow5(Card(Ace, Clubs), Card(King, Clubs), Card(Jack, Clubs), Card(Queen, Clubs));
    RunOfThreeWindow4(Card(Ace, Clubs), Card(King, Clubs), Card(Jack, Clubs), Card(Queen, Clubs));
    RunOfThreeWindow3(Card(Ace, Clubs), Card(King, Clubs), Card(Jack, Clubs), Card(Queen, Clubs));
    TopRunFromWindows([Card(Ace, Clubs), Card(King, Clubs), Card(Jack, Clubs), Card(Queen, Clubs)]);
  }

  /** `largest_run_points` on jack, queen, king on an ace. */
  method LargestRunThree() returns (r: nat)
    ensures r == 3
  {
    var data := new PlayData.FromCards([Card(Ace, Clubs), Card(King, Clubs), Card(Jack, Clubs), Card(Queen, Clubs)]);
    r := data.LargestRunPoints();
    RunOfThree();
  }

  lemma RunOfThreeAfterBreakWindow7(c0: Card, c1: Card, c2: Card, c3: Card, c4: Card, c5: Card, c6: Card)
    requires c0 == Card(Two, Clubs)
    requires c1 == Card(Ace, Clubs)
    requires c2 == Card(Three, Clubs)
    requires c3 == Card(Five, Clubs)
    requires c4 == Card(Three, Hearts)
    requires c5 == Card(Ace, Hearts)
    requires c6 == Card(Two, Hearts)
    ensures FirstBlock(WindowCounts([c0, c1, c2, c3, c4, c5, c6], 7, 7)) == 3
  {
    var s := [c0, c1, c2, c3, c4, c5, c6];
    assert |s| == 7 && s[0] == c0 && s[1] == c1 && s[2] == c2 && s[3] == c3 && s[4] == c4 && s[5] == c5 && s[6] == c6;
    var w0 := WindowCounts(s, 7, 0);
    assert w0 == Zeros(RankCount);
    var w1 := WindowCounts(s, 7, 1);
    assert CanMakeRunOf(0, c0, 6, c6, 7);
    assert w1 == AddRank(w0, c0);
    var w2 := WindowCounts(s, 7, 2);
    assert CanMakeRunOf(1, c1, 6, c6, 7);
    assert w2 == AddRank(w1, c1);
    var w3 := WindowCounts(s, 7, 3);
    assert CanMakeRunOf(2, c2, 6, c6, 7);
    assert w3 == AddRank(w2, c2);
    var w4 := WindowCounts(s, 7, 4);
    assert CanMakeRunOf(3, c3, 6, c6, 7);
    assert w4 == AddRank(w3, c3);
    var w5 := WindowCounts(s, 7, 5);
    assert CanMakeRunOf(4, c4, 6, c6, 7);
    assert w5 == AddRank(w4, c4);
    var w6 := WindowCounts(s, 7, 6);
    assert CanMakeRunOf(5, c5, 6, c6, 7);
    assert w6 == AddRank(w5, c5);
    var w7 := WindowCounts(s, 7, 7);
    assert CanMakeRunOf(6, c6, 6, c6, 7);
    assert w7 == AddRank(w6, c6);
    FirstBlockMeasured(w7, 0, 3);
  }

  lemma RunOfThreeAfterBreakWindow6(c0: Card, c1: Card, c2: Card, c3: Card, c4: Card, c5: Card, c6: Card)
    requires c0 == Card(Two, Clubs)
    requires c1 == Card(Ace, Clubs)
    requires c2 == Card(Three, Clubs)
    requires c3 == Card(Five, Clubs)
    requires c4 == Card(Three, Hearts)
    requires c5 == Card(Ace, Hearts)
    requires c6 == Card(Two, Hearts)
    ensures FirstBlock(WindowCounts([c0, c1, c2, c3, c4, c5, c6], 6, 7)) == 3
  {
    var s := [c0, c1, c2, c3, c4, c5, c6];
    assert |s| == 7 && s[0] == c0 && s[1] == c1 && s[2] == c2 && s[3] == c3 && s[4] == c4 && s[5] == c5 && s[6] == c6;
    var w0 := WindowCounts(s, 6, 0);
    assert w0 == Zeros(RankCount);
    var w1 := WindowCounts(s, 6, 1);
    assert !CanMakeRunOf(0, c0, 6, c6, 6);
    assert w1 == w0;
    var w2 := WindowCounts(s, 6, 2);
    assert CanMakeRunOf(1, c1, 6, c6, 6);
    assert w2 == AddRank(w1, c1);
    var w3 := WindowCounts(s, 6, 3);
    assert CanMakeRunOf(2, c2, 6, c6, 6);
    assert w3 == AddRank(w2, c2);
    var w4 := WindowCounts(s, 6, 4);
    assert CanMakeRunOf(3, c3, 6, c6, 6);
    assert w4 == AddRank(w3, c3);
    var w5 := WindowCounts(s, 6, 5);
    assert CanMakeRunOf(4, c4, 6, c6, 6);
    assert w5 == AddRank(w4, c4);
    var w6 := WindowCounts(s, 6, 6);
    assert CanMakeRunOf(5, c5, 6, c6, 6);
    assert w6 == AddRank(w5, c5);
    var w7 := WindowCounts(s, 6, 7);
    assert CanMakeRunOf(6, c6, 6, c6, 6);
    assert w7 == AddRank(w6, c6);
    FirstBlockMeasured(w7, 0, 3);
  }

  lemma RunOfThreeAfterBreakWindow5(c0: Card, c1: Card, c2: Card, c3: Card, c4: Card, c5: Card, c6: Card)
    requires c0 == Card(Two, Clubs)
    requires c1 == Card(Ace, Clubs)
    requires c2 == Card(Three, Clubs)
    requires c3 == Card(Five, Clubs)
    requires c4 == Card(Three, Hearts)
    requires c5 == Card(Ace, Hearts)
    requires c6 == Card(Two, Hearts)
    ensures FirstBlock(WindowCounts([c0, c1, c2, c3, c4, c5, c6], 5, 7)) == 3
  {
    var s := [c0, c1, c2, c3, c4, c5, c6];
    assert |s| == 7 && s[0] == c0 && s[1] == c1 && s[2] == c2 && s[3] == c3 && s[4] == c4 && s[5] == c5 && s[6] == c6;
    var w0 := WindowCounts(s, 5, 0);
    assert w0 == Zeros(RankCount);
    var w1 := WindowCounts(s, 5, 1);
    assert !CanMakeRunOf(0, c0, 6, c6, 5);
    assert w1 == w0;
    var w2 := WindowCounts(s, 5, 2);
    assert !CanMakeRunOf(1, c1, 6, c6, 5);
    assert w2 == w1;
    var w3 := WindowCounts(s, 5, 3);
    assert CanMakeRunOf(2, c2, 6, c6, 5);
    assert w3 == AddRank(w2, c2);
    var w4 := WindowCounts(s, 5, 4);
    assert CanMakeRunOf(3, c3, 6, c6, 5);
    assert w4 == AddRank(w3, c3);
    var w5 := WindowCounts(s, 5, 5);
    assert CanMakeRunOf(4, c4, 6, c6, 5);
    assert w5 == AddRank(w4, c4);
    var w6 := WindowCounts(s, 5, 6);
    assert CanMakeRunOf(5, c5, 6, c6, 5);
    assert w6 == AddRank(w5, c5);
    var w7 := WindowCounts(s, 5, 7);
    assert CanMakeRunOf(6, c6, 6, c6, 5);
    assert w7 == AddRank(w6, c6);
    FirstBlockMeasured(w7, 0, 3);
  }

  lemma RunOfThreeAfterBreakWindow4(c0: Card, c1: Card, c2: Card, c3: Card, c4: Card, c5: Card, c6: Card)
    requires c0 == Card(Two, Clubs)
    requires c1 == Card(Ace, Clubs)
    requires c2 == Card(Three, Clubs)
    requires c3 == Card(Five, Clubs)
    requires c4 == Card(Three, Hearts)
    requires c5 == Card(Ace, Hearts)
    requires c6 == Card(Two, Hearts)
    ensures FirstBlock(WindowCounts([c0, c1, c2, c3, c4, c5, c6], 4, 7)) == 3
  {
    var s := [c0, c1, c2, c3, c4, c5, c6];
    assert |s| == 7 && s[0] == c0 && s[1] == c1 && s[2] == c2 && s[3] == c3 && s[4] == c4 && s[5] == c5 && s[6] == c6;
    var w0 := WindowCounts(s, 4, 0);
    assert w0 == Zeros(RankCount);
    var w1 := WindowCounts(s, 4, 1);
    assert !CanMakeRunOf(0, c0, 6, c6, 4);
    assert w1 == w0;
    var w2 := WindowCounts(s, 4, 2);
    assert !CanMakeRunOf(1, c1, 6, c6, 4);
    assert w2 == w1;
    var w3 := WindowCounts(s, 4, 3);
    assert !CanMakeRunOf(2, c2, 6, c6, 4);
    assert w3 == w2;
    var w4 := WindowCounts(s, 4, 4);
    assert CanMakeRunOf(3, c3, 6, c6, 4);
    assert w4 == AddRank(w3, c3);
    var w5 := WindowCounts(s, 4, 5);
    assert CanMakeRunOf(4, c4, 6, c6, 4);
    assert w5 == AddRank(w4, c4);
    var w6 := WindowCounts(s, 4, 6);
    assert CanMakeRunOf(5, c5, 6, c6, 4);
    assert w6 == AddRank(w5, c5);
    var w7 := WindowCounts(s, 4, 7);
    assert CanMakeRunOf(6, c6, 6, c6, 4);
    assert w7 == AddRank(w6, c6);
    FirstBlockMeasured(w7, 0, 3);
  }

  lemma RunOfThreeAfterBreakWindow3(c0: Card, c1: Card, c2: Card, c3: Card, c4: Card, c5: Card, c6: Card)
    requires c0 == Card(Two, Clubs)
    requires c1 == Card(Ace, Clubs)
    requires c2 == Card(Three, Clubs)
    requires c3 == Card(Five, Clubs)
    requires c4 == Card(Three, Hearts)
    requires c5 == Card(Ace, Hearts)
    requires c6 == Card(Two, Hearts)
    ensures FirstBlock(WindowCounts([c0, c1, c2, c3, c4, c5, c6], 3, 7)) == 3
  {
    var s := [c0, c1, c2, c3, c4, c5, c6];
    assert |s| == 7 && s[0] == c0 && s[1] == c1 && s[2] == c2 && s[3] == c3 && s[4] == c4 && s[5] == c5 && s[6] == c6;
    var w0 := WindowCounts(s, 3, 0);
    assert w0 == Zeros(RankCount);
    var w1 := WindowCounts(s, 3, 1);
    assert !CanMakeRunOf(0, c0, 6, c6, 3);
    assert w1 == w0;
    var w2 := WindowCounts(s, 3, 2);
    assert !CanMakeRunOf(1, c1, 6, c6, 3);
    assert w2 == w1;
    var w3 := WindowCounts(s, 3, 3);
    assert !CanMakeRunOf(2, c2, 6, c6, 3);
    assert w3 == w2;
    var w4 := WindowCounts(s, 3, 4);
    assert !CanMakeRunOf(3, c3, 6, c6, 3);
    assert w4 == w3;
    var w5 := WindowCounts(s, 3, 5);
    assert CanMakeRunOf(4, c4, 6, c6, 3);
    assert w5 == AddRank(w4, c4);
    var w6 := WindowCounts(s, 3, 6);
    assert CanMakeRunOf(5, c5, 6, c6, 3);
    assert w6 == AddRank(w5, c5);
    var w7 := WindowCounts(s, 3, 7);
    assert CanMakeRunOf(6, c6, 6, c6, 3);
    assert w7 == AddRank(w6, c6);
    FirstBlockMeasured(w7, 0, 3);
  }

  /** The run rule on a run of three with a repeat just beneath it: 3. */
  lemma RunOfThreeAfterBreak()
    ensures TopRunPoints([Card(Two, Clubs), Card(Ace, Clubs), Card(Three, Clubs), Card(Five, Clubs), Card(Three, Hearts), Card(Ace, Hearts), Card(Two, Hearts)]) == 3
  {
    RunOfThreeAfterBreakWindow7(Card(Two, Clubs), Card(Ace, Clubs), Card(Three, Clubs), Card(Five, Clubs), Card(Three, Hearts), Card(Ace, Hearts), Card(Two, Hearts));
    RunOfThreeAfterBreakWindow6(Card(Two, Clubs), Card(Ace, Clubs), Card(Three, Clubs), Card(Five, Clubs), Card(Three, Hearts), Card(Ace, Hearts), Card(Two, Hearts));
    RunOfThreeAfterBreakWindow5(Card(Two, Clubs), Card(Ace, Clubs), Card(Three, Clubs), Card(Five, Clubs), Card(Three, Hearts), Card(Ace, Hearts), Card(Two, Hearts));
    RunOfThreeAfterBreakWindow4(Card(Two, Clubs), Card(Ace, Clubs), Card(Three, Clubs), Card(Five, Clubs), Card(Three, Hearts), Card(Ace, Hearts), Card(Two, Hearts));
    RunOfThreeAfterBreakWindow3(Card(Two, Clubs), Card(Ace, Clubs), Card(Three, Clubs), Card(Five, Clubs), Card(Three, Hearts), Card(Ace, Hearts), Card(Two, Hearts));
    TopRunFromWindows([Card(Two, Clubs), Card(Ace, Clubs), Card(Three, Clubs), Card(Five, Clubs), Card(Three, Hearts), Card(Ace, Hearts), Card(Two, Hearts)]);
  }

  /** `largest_run_points` on a run of three with a repeat just beneath it. */
  method LargestRunThreeAfterBreak() returns (r: nat)
    ensures r == 3
  {
    var data := new PlayData.FromCards([Card(Two, Clubs), Card(Ace, Clubs), Card(Three, Clubs), Card(Five, Clubs), Card(Three, Hearts), Card(Ace, Hearts), Card(Two, Hearts)]);
    r := data.LargestRunPoints();
    RunOfThreeAfterBreak();
  }

  lemma RunOfFourWindow7(c0: Card, c1: Card, c2: Card, c3: Card)
    requires c0 == Card(Four, Clubs)
    requires c1 == Card(Two, Clubs)
    requires c2 == Card(Ace, Clubs)
    requires c3 == Card(Three, Clubs)
    ensures FirstBlock(WindowCounts([c0, c1, c2, c3], 7, 4)) == 4
  {
    var s := [c0, c1, c2, c3];
    assert |s| == 4 && s[0] == c0 && s[1] == c1 && s[2] == c2 && s[3] == c3;
    var w0 := WindowCounts(s, 7, 0);
    assert w0 == Zeros(RankCount);
    var w1 := WindowCounts(s, 7, 1);
    assert CanMakeRunOf(0, c0, 3, c3, 7);
    assert w1 == AddRank(w0, c0);
    var w2 := WindowCounts(s, 7, 2);
    assert CanMakeRunOf(1, c1, 3, c3, 7);
    assert w2 == AddRank(w1, c1);
    var w3 := WindowCounts(s, 7, 3);
    assert CanMakeRunOf(2, c2, 3, c3, 7);
    assert w3 == AddRank(w2, c2);
    var w4 := WindowCounts(s, 7, 4);
    assert CanMakeRunOf(3, c3, 3, c3, 7);
    assert w4 == AddRank(w3, c3);
    FirstBlockMeasured(w4, 0, 4);
  }

  lemma RunOfFourWindow6(c0: Card, c1: Card, c2: Card, c3: Card)
    requires c0 == Card(Four, Clubs)
    requires c1 == Card(Two, Clubs)
    requires c2 == Card(Ace, Clubs)
    requires c3 == Card(Three, Clubs)
    ensures FirstBlock(WindowCounts([c0, c1, c2, c3], 6, 4)) == 4
  {
    var s := [c0, c1, c2, c3];
    assert |s| == 4 && s[0] == c0 && s[1] == c1 && s[2] == c2 && s[3] == c3;
    var w0 := WindowCounts(s, 6, 0);
    assert w0 == Zeros(RankCount);
    var w1 := WindowCounts(s, 6, 1);
    assert CanMakeRunOf(0, c0, 3, c3, 6);
    assert w1 == AddRank(w0, c0);
    var w2 := WindowCounts(s, 6, 2);
    assert CanMakeRunOf(1, c1, 3, c3, 6);
    assert w2 == AddRank(w1, c1);
    var w3 := WindowCounts(s, 6, 3);
    assert CanMakeRunOf(2, c2, 3, c3, 6);
    assert w3 == AddRank(w2, c2);
    var w4 := WindowCounts(s, 6, 4);
    assert CanMakeRunOf(3, c3, 3, c3, 6);
    assert w4 == AddRank(w3, c3);
    FirstBlockMeasured(w4, 0, 4);
  }

  lemma RunOfFourWindow5(c0: Card, c1: Card, c2: Card, c3: Card)
    requires c0 == Card(Four, Clubs)
    requires c1 == Card(Two, Clubs)
    requires c2 == Card(Ace, Clubs)
    requires c3 == Card(Three, Clubs)
    ensures FirstBlock(WindowCounts([c0, c1, c2, c3], 5, 4)) == 4
  {
    var s := [c0, c1, c2, c3];
    assert |s| == 4 && s[0] == c0 && s[1] == c1 && s[2] == c2 && s[3] == c3;
    var w0 := WindowCounts(s, 5, 0);
    assert w0 == Zeros(RankCount);
    var w1 := WindowCounts(s, 5, 1);
    assert CanMakeRunOf(0, c0, 3, c3, 5);
    assert w1 == AddRank(w0, c0);
    var w2 := WindowCounts(s, 5, 2);
    assert CanMakeRunOf(1, c1, 3, c3, 5);
    assert w2 == AddRank(w1, c1);
    var w3 := WindowCounts(s, 5, 3);
    assert CanMakeRunOf(2, c2, 3, c3, 5);
    assert w3 == AddRank(w2, c2);
    var w4 := WindowCounts(s, 5, 4);
    assert CanMakeRunOf(3, c3, 3, c3, 5);
    assert w4 == AddRank(w3, c3);
    FirstBlockMeasured(w4, 0, 4);
  }

  lemma RunOfFourWindow4(c0: Card, c1: Card, c2: Card, c3: Card)
    requires c0 == Card(Four, Clubs)
    requires c1 == Card(Two, Clubs)
    requires c2 == Card(Ace, Clubs)
    requires c3 == Card(Three, Clubs)
    ensures FirstBlock(WindowCounts([c0, c1, c2, c3], 4, 4)) == 4
  {
    var s := [c0, c1, c2, c3];
    assert |s| == 4 && s[0] == c0 && s[1] == c1 && s[2] == c2 && s[3] == c3;
    var w0 := WindowCounts(s, 4, 0);
    assert w0 == Zeros(RankCount);
    var w1 := WindowCounts(s, 4, 1);
    assert CanMakeRunOf(0, c0, 3, c3, 4);
    assert w1 == AddRank(w0, c0);
    var w2 := WindowCounts(s, 4, 2);
    assert CanMakeRunOf(1, c1, 3, c3, 4);
    assert w2 == AddRank(w1, c1);
    var w3 := WindowCounts(s, 4, 3);
    assert CanMakeRunOf(2, c2, 3, c3, 4);
    assert w3 == AddRank(w2, c2);
    var w4 := WindowCounts(s, 4, 4);
    assert CanMakeRunOf(3, c3, 3, c3, 4);
    assert w4 == AddRank(w3, c3);
    FirstBlockMeasured(w4, 0, 4);
  }

  lemma RunOfFourWindow3(c0: Card, c1: Card, c2: Card, c3: Card)
    requires c0 == Card(Four, Clubs)
    requires c1 == Card(Two, Clubs)
    requires c2 == Card(Ace, Clubs)
    requires c3 == Card(Three, Clubs)
    ensures FirstBlock(WindowCounts([c0, c1, c2, c3], 3, 4)) == 3
  {
    var s := [c0, c1, c2, c3];
    assert |s| == 4 && s[0] == c0 && s[1] == c1 && s[2] == c2 && s[3] == c3;
    var w0 := WindowCounts(s, 3, 0);
    assert w0 == Zeros(RankCount);
    var w1 := WindowCounts(s, 3, 1);
    assert !CanMakeRunOf(0, c0, 3, c3, 3);
    assert w1 == w0;
    var w2 := WindowCounts(s, 3, 2);
    assert CanMakeRunOf(1, c1, 3, c3, 3);
    assert w2 == AddRank(w1, c1);
    var w3 := WindowCounts(s, 3, 3);
    assert CanMakeRunOf(2, c2, 3, c3, 3);
    assert w3 == AddRank(w2, c2);
    var w4 := WindowCounts(s, 3, 4);
    assert CanMakeRunOf(3, c3, 3, c3, 3);
    assert w4 == AddRank(w3, c3);
    FirstBlockMeasured(w4, 0, 3);
  }

  /** The run rule on four cards out of order: 4. */
  lemma RunOfFour()
    ensures TopRunPoints([Card(Four, Clubs), Card(Two, Clubs), Card(Ace, Clubs), Card(Three, Clubs)]) == 4
  {
    RunOfFourWindow7(Card(Four, Clubs), Card(Two, Clubs), Card(Ace, Clubs), Card(Three, Clubs));
    RunOfFourWindow6(Card(Four, Clubs), Card(Two, Clubs), Card(Ace, Clubs), Card(Three, Clubs));
    RunOfFourWindow5(Card(Four, Clubs), Card(Two, Clubs), Card(Ace, Clubs), Card(Three, Clubs));
    RunOfFourWindow4(Card(Four, Clubs), Card(Two, Clubs), Card(Ace, Clubs), Card(Three, Clubs));
    RunOfFourWindow3(Card(Four, Clubs), Card(Two, Clubs), Card(Ace, Clubs), Card(Three, Clubs));
    TopRunFromWindows([Card(Four, Clubs), Card(Two, Clubs), Card(Ace, Clubs), Card(Three, Clubs)]);
  }

  /** `largest_run_points` on four cards out of order. */
  method LargestRunFour() returns (r: nat)
    ensures r == 4
  {
    var data := new PlayData.FromCards([Card(Four, Clubs), Card(Two, Clubs), Card(Ace, Clubs), Card(Three, Clubs)]);
    r := data.LargestRunPoints();
    RunOfFour();
  }

  lemma RunOfFiveWindow7(c0: Card, c1: Card, c2: Card, c3: Card, c4: Card, c5: Card)
    requires c0 == Card(Five, Clubs)
    requires c1 == Card(Four, Clubs)
    requires c2 == Card(Two, Clubs)
    requires c3 == Card(Ace, Clubs)
    requires c4 == Card(Three, Clubs)
    requires c5 == Card(Five, Clubs)
    ensures FirstBlock(WindowCounts([c0, c1, c2, c3, c4, c5], 7, 6)) == 5
  {
    var s := [c0, c1, c2, c3, c4, c5];
    assert |s| == 6 && s[0] == c0 && s[1] == c1 && s[2] == c2 && s[3] == c3 && s[4] == c4 && s[5] == c5;
    var w0 := WindowCounts(s, 7, 0);
    assert w0 == Zeros(RankCount);
    var w1 := WindowCounts(s, 7, 1);
    assert CanMakeRunOf(0, c0, 5, c5, 7);
    assert w1 == AddRank(w0, c0);
    var w2 := WindowCounts(s, 7, 2);
    assert CanMakeRunOf(1, c1, 5, c5, 7);
    assert w2 == AddRank(w1, c1);
    var w3 := WindowCounts(s, 7, 3);
    assert CanMakeRunOf(2, c2, 5, c5, 7);
    assert w3 == AddRank(w2, c2);
    var w4 := WindowCounts(s, 7, 4);
    assert CanMakeRunOf(3, c3, 5, c5, 7);
    assert w4 == AddRank(w3, c3);
    var w5 := WindowCounts(s, 7, 5);
    assert CanMakeRunOf(4, c4, 5, c5, 7);
    assert w5 == AddRank(w4, c4);
    var w6 := WindowCounts(s, 7, 6);
    assert CanMakeRunOf(5, c5, 5, c5, 7);
    assert w6 == AddRank(w5, c5);
    FirstBlockMeasured(w6, 0, 5);
  }

  lemma RunOfFiveWindow6(c0: Card, c1: Card, c2: Card, c3: Card, c4: Card, c5: Card)
    requires c0 == Card(Five, Clubs)
    requires c1 == Card(Four, Clubs)
    requires c2 == Card(Two, Clubs)
    requires c3 == Card(Ace, Clubs)
    requires c4 == Card(Three, Clubs)
    requires c5 == Card(Five, Clubs)
    ensures FirstBlock(WindowCounts([c0, c1, c2, c3, c4, c5], 6, 6)) == 5
  {
    var s := [c0, c1, c2, c3, c4, c5];
    assert |s| == 6 && s[0] == c0 && s[1] == c1 && s[2] == c2 && s[3] == c3 && s[4] == c4 && s[5] == c5;
    var w0 := WindowCounts(s, 6, 0);
    assert w0 == Zeros(RankCount);
    var w1 := WindowCounts(s, 6, 1);
    assert CanMakeRunOf(0, c0, 5, c5, 6);
    assert w1 == AddRank(w0, c0);
    var w2 := WindowCounts(s, 6, 2);
    assert CanMakeRunOf(1, c1, 5, c5, 6);
    assert w2 == AddRank(w1, c1);
    var w3 := WindowCounts(s, 6, 3);
    assert CanMakeRunOf(2, c2, 5, c5, 6);
    assert w3 == AddRank(w2, c2);
    var w4 := WindowCounts(s, 6, 4);
    assert CanMakeRunOf(3, c3, 5, c5, 6);
    assert w4 == AddRank(w3, c3);
    var w5 := WindowCounts(s, 6, 5);
    assert CanMakeRunOf(4, c4, 5, c5, 6);
    assert w5 == AddRank(w4, c4);
    var w6 := WindowCounts(s, 6, 6);
    assert CanMakeRunOf(5, c5, 5, c5, 6);
    assert w6 == AddRank(w5, c5);
    FirstBlockMeasured(w6, 0, 5);
  }

  lemma RunOfFiveWindow5(c0: Card, c1: Card, c2: Card, c3: Card, c4: Card, c5: Card)
    requires c0 == Card(Five, Clubs)
    requires c1 == Card(Four, Clubs)
    requires c2 == Card(Two, Clubs)
    requires c3 == Card(Ace, Clubs)
    requires c4 == Card(Three, Clubs)
    requires c5 == Card(Five, Clubs)
    ensures FirstBlock(WindowCounts([c0, c1, c2, c3, c4, c5], 5, 6)) == 5
  {
    var s := [c0, c1, c2, c3, c4, c5];
    assert |s| == 6 && s[0] == c0 && s[1] == c1 && s[2] == c2 && s[3] == c3 && s[4] == c4 && s[5] == c5;
    var w0 := WindowCounts(s, 5, 0);
    assert w0 == Zeros(RankCount);
    var w1 := WindowCounts(s, 5, 1);
    assert !CanMakeRunOf(0, c0, 5, c5, 5);
    assert w1 == w0;
    var w2 := WindowCounts(s, 5, 2);
    assert CanMakeRunOf(1, c1, 5, c5, 5);
    assert w2 == AddRank(w1, c1);
    var w3 := WindowCounts(s, 5, 3);
    assert CanMakeRunOf(2, c2, 5, c5, 5);
    assert w3 == AddRank(w2, c2);
    var w4 := WindowCounts(s, 5, 4);
    assert CanMakeRunOf(3, c3, 5, c5, 5);
    assert w4 == AddRank(w3, c3);
    var w5 := WindowCounts(s, 5, 5);
    assert CanMakeRunOf(4, c4, 5, c5, 5);
    assert w5 == AddRank(w4, c4);
    var w6 := WindowCounts(s, 5, 6);
    assert CanMakeRunOf(5, c5, 5, c5, 5);
    assert w6 == AddRank(w5, c5);
    FirstBlockMeasured(w6, 0, 5);
  }

  lemma RunOfFiveWindow4(c0: Card, c1: Card, c2: Card, c3: Card, c4: Card, c5: Card)
    requires c0 == Card(Five, Clubs)
    requires c1 == Card(Four, Clubs)
    requires c2 == Card(Two, Clubs)
    requires c3 == Card(Ace, Clubs)
    requires c4 == Card(Three, Clubs)
    requires c5 == Card(Five, Clubs)
    ensures FirstBlock(WindowCounts([c0, c1, c2, c3, c4, c5], 4, 6)) == 2
  {
    var s := [c0, c1, c2, c3, c4, c5];
    assert |s| == 6 && s[0] == c0 && s[1] == c1 && s[2] == c2 && s[3] == c3 && s[4] == c4 && s[5] == c5;
    var w0 := WindowCounts(s, 4, 0);
    assert w0 == Zeros(RankCount);
    var w1 := WindowCounts(s, 4, 1);
    assert !CanMakeRunOf(0, c0, 5, c5, 4);
    assert w1 == w0;
    var w2 := WindowCounts(s, 4, 2);
    assert !CanMakeRunOf(1, c1, 5, c5, 4);
    assert w2 == w1;
    var w3 := WindowCounts(s, 4, 3);
    assert CanMakeRunOf(2, c2, 5, c5, 4);
    assert w3 == AddRank(w2, c2);
    var w4 := WindowCounts(s, 4, 4);
    assert !CanMakeRunOf(3, c3, 5, c5, 4);
    assert w4 == w3;
    var w5 := WindowCounts(s, 4, 5);
    assert CanMakeRunOf(4, c4, 5, c5, 4);
    assert w5 == AddRank(w4, c4);
    var w6 := WindowCounts(s, 4, 6);
    assert CanMakeRunOf(5, c5, 5, c5, 4);
    assert w6 == AddRank(w5, c5);
    FirstBlockMeasured(w6, 1, 2);
  }

  lemma RunOfFiveWindow3(c0: Card, c1: Card, c2: Card, c3: Card, c4: Card, c5: Card)
    requires c0 == Card(Five, Clubs)
    requires c1 == Card(Four, Clubs)
    requires c2 == Card(Two, Clubs)
    requires c3 == Card(Ace, Clubs)
    requires c4 == Card(Three, Clubs)
    requires c5 == Card(Five, Clubs)
    ensures FirstBlock(WindowCounts([c0, c1, c2, c3, c4, c5], 3, 6)) == 1
  {
    var s := [c0, c1, c2, c3, c4, c5];
    assert |s| == 6 && s[0] == c0 && s[1] == c1 && s[2] == c2 && s[3] == c3 && s[4] == c4 && s[5] == c5;
    var w0 := WindowCounts(s, 3, 0);
    assert w0 == Zeros(RankCount);
    var w1 := WindowCounts(s, 3, 1);
    assert !CanMakeRunOf(0, c0, 5, c5, 3);
    assert w1 == w0;
    var w2 := WindowCounts(s, 3, 2);
    assert !CanMakeRunOf(1, c1, 5, c5, 3);
    assert w2 == w1;
    var w3 := WindowCounts(s, 3, 3);
    assert !CanMakeRunOf(2, c2, 5, c5, 3);
    assert w3 == w2;
    var w4 := WindowCounts(s, 3, 4);
    assert !CanMakeRunOf(3, c3, 5, c5, 3);
    assert w4 == w3;
    var w5 := WindowCounts(s, 3, 5);
    assert CanMakeRunOf(4, c4, 5, c5, 3);
    assert w5 == AddRank(w4, c4);
    var w6 := WindowCounts(s, 3, 6);
    assert CanMakeRunOf(5, c5, 5, c5, 3);
    assert w6 == AddRank(w5, c5);
    FirstBlockMeasured(w6, 2, 1);
  }

  /** The run rule on five cards, the five played twice: 5. */
  lemma RunOfFive()
    ensures TopRunPoints([Card(Five, Clubs), Card(Four, Clubs), Card(Two, Clubs), Card(Ace, Clubs), Card(Three, Clubs), Card(Five, Clubs)]) == 5
  {
    RunOfFiveWindow7(Card(Five, Clubs), Card(Four, Clubs), Card(Two, Clubs), Card(Ace, Clubs), Card(Three, Clubs), Card(Five, Clubs));
    RunOfFiveWindow6(Card(Five, Clubs), Card(Four, Clubs), Card(Two, Clubs), Card(Ace, Clubs), Card(Three, Clubs), Card(Five, Clubs));
    RunOfFiveWindow5(Card(Five, Clubs), Card(Four, Clubs), Card(Two, Clubs), Card(Ace, Clubs), Card(Three, Clubs), Card(Five, Clubs));
    RunOfFiveWindow4(Card(Five, Clubs), Card(Four, Clubs), Card(Two, Clubs), Card(Ace, Clubs), Card(Three, Clubs), Card(Five, Clubs));
    RunOfFiveWindow3(Card(Five, Clubs), Card(Four, Clubs), Card(Two, Clubs), Card(Ace, Clubs), Card(Three, Clubs), Card(Five, Clubs));
    TopRunFromWindows([Card(Five, Clubs), Card(Four, Clubs), Card(Two, Clubs), Card(Ace, Clubs), Card(Three, Clubs), Card(Five, Clubs)]);
  }

  /** `largest_run_points` on five cards, the five played twice. */
  method LargestRunFive() returns (r: nat)
    ensures r == 5
  {
    var data := new PlayData.FromCards([Card(Five, Clubs), Card(Four, Clubs), Card(Two, Clubs), Card(Ace, Clubs), Card(Three, Clubs), Card(Five, Clubs)]);
    r := data.LargestRunPoints();
    RunOfFive();
  }

  lemma RunOfSixWindow7(c0: Card, c1: Card, c2: Card, c3: Card, c4: Card, c5: Card)
    requires c0 == Card(Five, Clubs)
    requires c1 == Card(Ace, Clubs)
    requires c2 == Card(Four, Clubs)
    requires c3 == Card(Six, Clubs)
    requires c4 == Card(Two, Clubs)
    requires c5 == Card(Three, Clubs)
    ensures FirstBlock(WindowCounts([c0, c1, c2, c3, c4, c5], 7, 6)) == 6
  {
    var s := [c0, c1, c2, c3, c4, c5];
    assert |s| == 6 && s[0] == c0 && s[1] == c1 && s[2] == c2 && s[3] == c3 && s[4] == c4 && s[5] == c5;
    var w0 := WindowCounts(s, 7, 0);
    assert w0 == Zeros(RankCount);
    var w1 := WindowCounts(s, 7, 1);
    assert CanMakeRunOf(0, c0, 5, c5, 7);
    assert w1 == AddRank(w0, c0);
    var w2 := WindowCounts(s, 7, 2);
    assert CanMakeRunOf(1, c1, 5, c5, 7);
    assert w2 == AddRank(w1, c1);
    var w3 := WindowCounts(s, 7, 3);
    assert CanMakeRunOf(2, c2, 5, c5, 7);
    assert w3 == AddRank(w2, c2);
    var w4 := WindowCounts(s, 7, 4);
    assert CanMakeRunOf(3, c3, 5, c5, 7);
    assert w4 == AddRank(w3, c3);
    var w5 := WindowCounts(s, 7, 5);
    assert CanMakeRunOf(4, c4, 5, c5, 7);
    assert w5 == AddRank(w4, c4);
    var w6 := WindowCounts(s, 7, 6);
    assert CanMakeRunOf(5, c5, 5, c5, 7);
    assert w6 == AddRank(w5, c5);
    FirstBlockMeasured(w6, 0, 6);
  }

  lemma RunOfSixWindow6(c0: Card, c1: Card, c2: Card, c3: Card, c4: Card, c5: Card)
    requires c0 == Card(Five, Clubs)
    requires c1 == Card(Ace, Clubs)
    requires c2 == Card(Four, Clubs)
    requires c3 == Card(Six, Clubs)
    requires c4 == Card(Two, Clubs)
    requires c5 == Card(Three, Clubs)
    ensures FirstBlock(WindowCounts([c0, c1, c2, c3, c4, c5], 6, 6)) == 6
  {
    var s := [c0, c1, c2, c3, c4, c5];
    assert |s| == 6 && s[0] == c0 && s[1] == c1 && s[2] == c2 && s[3] == c3 && s[4] == c4 && s[5] == c5;
    var w0 := WindowCounts(s, 6, 0);
    assert w0 == Zeros(RankCount);
    var w1 := WindowCounts(s, 6, 1);
    assert CanMakeRunOf(0, c0, 5, c5, 6);
    assert w1 == AddRank(w0, c0);
    var w2 := WindowCounts(s, 6, 2);
    assert CanMakeRunOf(1, c1, 5, c5, 6);
    assert w2 == AddRank(w1, c1);
    var w3 := WindowCounts(s, 6, 3);
    assert CanMakeRunOf(2, c2, 5, c5, 6);
    assert w3 == AddRank(w2, c2);
    var w4 := WindowCounts(s, 6, 4);
    assert CanMakeRunOf(3, c3, 5, c5, 6);
    assert w4 == AddRank(w3, c3);
    var w5 := WindowCounts(s, 6, 5);
    assert CanMakeRunOf(4, c4, 5, c5, 6);
    assert w5 == AddRank(w4, c4);
    var w6 := WindowCounts(s, 6, 6);
    assert CanMakeRunOf(5, c5, 5, c5, 6);
    assert w6 == AddRank(w5, c5);
    FirstBlockMeasured(w6, 0, 6);
  }

  lemma RunOfSixWindow5(c0: Card, c1: Card, c2: Card, c3: Card, c4: Card, c5: Card)
    requires c0 == Card(Five, Clubs)
    requires c1 == Card(Ace, Clubs)
    requires c2 == Card(Four, Clubs)
    requires c3 == Card(Six, Clubs)
    requires c4 == Card(Two, Clubs)
    requires c5 == Card(Three, Clubs)
    ensures FirstBlock(WindowCounts([c0, c1, c2, c3, c4, c5], 5, 6)) == 4
  {
    var s := [c0, c1, c2, c3, c4, c5];
    assert |s| == 6 && s[0] == c0 && s[1] == c1 && s[2] == c2 && s[3] == c3 && s[4] == c4 && s[5] == c5;
    var w0 := WindowCounts(s, 5, 0);
    assert w0 == Zeros(RankCount);
    var w1 := WindowCounts(s, 5, 1);
    assert !CanMakeRunOf(0, c0, 5, c5, 5);
    assert w1 == w0;
    var w2 := WindowCounts(s, 5, 2);
    assert CanMakeRunOf(1, c1, 5, c5, 5);
    assert w2 == AddRank(w1, c1);
    var w3 := WindowCounts(s, 5, 3);
    assert CanMakeRunOf(2, c2, 5, c5, 5);
    assert w3 == AddRank(w2, c2);
    var w4 := WindowCounts(s, 5, 4);
    assert CanMakeRunOf(3, c3, 5, c5, 5);
    assert w4 == AddRank(w3, c3);
    var w5 := WindowCounts(s, 5, 5);
    assert CanMakeRunOf(4, c4, 5, c5, 5);
    assert w5 == AddRank(w4, c4);
    var w6 := WindowCounts(s, 5, 6);
    assert CanMakeRunOf(5, c5, 5, c5, 5);
    assert w6 == AddRank(w5, c5);
    FirstBlockMeasured(w6, 0, 4);
  }

  lemma RunOfSixWindow4(c0: Card, c1: Card, c2: Card, c3: Card, c4: Card, c5: Card)
    requires c0 == Card(Five, Clubs)
    requires c1 == Card(Ace, Clubs)
    requires c2 == Card(Four, Clubs)
    requires c3 == Card(Six, Clubs)
    requires c4 == Card(Two, Clubs)
    requires c5 == Card(Three, Clubs)
    ensures FirstBlock(WindowCounts([c0, c1, c2, c3, c4, c5], 4, 6)) == 3
  {
    var s := [c0, c1, c2, c3, c4, c5];
    assert |s| == 6 && s[0] == c0 && s[1] == c1 && s[2] == c2 && s[3] == c3 && s[4] == c4 && s[5] == c5;
    var w0 := WindowCounts(s, 4, 0);
    assert w0 == Zeros(RankCount);
    var w1 := WindowCounts(s, 4, 1);
    assert !CanMakeRunOf(0, c0, 5, c5, 4);
    assert w1 == w0;
    var w2 := WindowCounts(s, 4, 2);
    assert !CanMakeRunOf(1, c1, 5, c5, 4);
    assert w2 == w1;
    var w3 := WindowCounts(s, 4, 3);
    assert CanMakeRunOf(2, c2, 5, c5, 4);
    assert w3 == AddRank(w2, c2);
    var w4 := WindowCounts(s, 4, 4);
    assert CanMakeRunOf(3, c3, 5, c5, 4);
    assert w4 == AddRank(w3, c3);
    var w5 := WindowCounts(s, 4, 5);
    assert CanMakeRunOf(4, c4, 5, c5, 4);
    assert w5 == AddRank(w4, c4);
    var w6 := WindowCounts(s, 4, 6);
    assert CanMakeRunOf(5, c5, 5, c5, 4);
    assert w6 == AddRank(w5, c5);
    FirstBlockMeasured(w6, 1, 3);
  }

  lemma RunOfSixWindow3(c0: Card, c1: Card, c2: Card, c3: Card, c4: Card, c5: Card)
    requires c0 == Card(Five, Clubs)
    requires c1 == Card(Ace, Clubs)
    requires c2 == Card(Four, Clubs)
    requires c3 == Card(Six, Clubs)
    requires c4 == Card(Two, Clubs)
    requires c5 == Card(Three, Clubs)
    ensures FirstBlock(WindowCounts([c0, c1, c2, c3, c4, c5], 3, 6)) == 2
  {
    var s := [c0, c1, c2, c3, c4, c5];
    assert |s| == 6 && s[0] == c0 && s[1] == c1 && s[2] == c2 && s[3] == c3 && s[4] == c4 && s[5] == c5;
    var w0 := WindowCounts(s, 3, 0);
    assert w0 == Zeros(RankCount);
    var w1 := WindowCounts(s, 3, 1);
    assert !CanMakeRunOf(0, c0, 5, c5, 3);
    assert w1 == w0;
    var w2 := WindowCounts(s, 3, 2);
    assert !CanMakeRunOf(1, c1, 5, c5, 3);
    assert w2 == w1;
    var w3 := WindowCounts(s, 3, 3);
    assert !CanMakeRunOf(2, c2, 5, c5, 3);
    assert w3 == w2;
    var w4 := WindowCounts(s, 3, 4);
    assert !CanMakeRunOf(3, c3, 5, c5, 3);
    assert w4 == w3;
    var w5 := WindowCounts(s, 3, 5);
    assert CanMakeRunOf(4, c4, 5, c5, 3);
    assert w5 == AddRank(w4, c4);
    var w6 := WindowCounts(s, 3, 6);
    assert CanMakeRunOf(5, c5, 5, c5, 3);
    assert w6 == AddRank(w5, c5);
    FirstBlockMeasured(w6, 1, 2);
  }

  /** The run rule on six cards out of order: 6. */
  lemma RunOfSix()
    ensures TopRunPoints([Card(Five, Clubs), Card(Ace, Clubs), Card(Four, Clubs), Card(Six, Clubs), Card(Two, Clubs), Card(Three, Clubs)]) == 6
  {
    RunOfSixWindow7(Card(Five, Clubs), Card(Ace, Clubs), Card(Four, Clubs), Card(Six, Clubs), Card(Two, Clubs), Card(Three, Clubs));
    RunOfSixWindow6(Card(Five, Clubs), Card(Ace, Clubs), Card(Four, Clubs), Card(Six, Clubs), Card(Two, Clubs), Card(Three, Clubs));
    RunOfSixWindow5(Card(Five, Clubs), Card(Ace, Clubs), Card(Four, Clubs), Card(Six, Clubs), Card(Two, Clubs), Card(Three, Clubs));
    RunOfSixWindow4(Card(Five, Clubs), Card(Ace, Clubs), Card(Four, Clubs), Card(Six, Clubs), Card(Two, Clubs), Card(Three, Clubs));
    RunOfSixWindow3(Card(Five, Clubs), Card(Ace, Clubs), Card(Four, Clubs), Card(Six, Clubs), Card(Two, Clubs), Card(Three, Clubs));
    TopRunFromWindows([Card(Five, Clubs), Card(Ace, Clubs), Card(Four, Clubs), Card(Six, Clubs), Card(Two, Clubs), Card(Three, Clubs)]);
  }

  /** `largest_run_points` on six cards out of order. */
  method LargestRunSix() returns (r: nat)
    ensures r == 6
  {
    var data := new PlayData.FromCards([Card(Five, Clubs), Card(Ace, Clubs), Card(Four, Clubs), Card(Six, Clubs), Card(Two, Clubs), Card(Three, Clubs)]);
    r := data.LargestRunPoints();
    RunOfSix();
  }

  lemma RunOfSevenWindow7(c0: Card, c1: Card, c2: Card, c3: Card, c4: Card, c5: Card, c6: Card)
    requires c0 == Card(Seven, Clubs)
    requires c1 == Card(Five, Clubs)
    requires c2 == Card(Ace, Clubs)
    requires c3 == Card(Four, Clubs)
    requires c4 == Card(Six, Clubs)
    requires c5 == Card(Two, Clubs)
    requires c6 == Card(Three, Clubs)
    ensures FirstBlock(WindowCounts([c0, c1, c2, c3, c4, c5, c6], 7, 7)) == 7
  {
    var s := [c0, c1, c2, c3, c4, c5, c6];
    assert |s| == 7 && s[0] == c0 && s[1] == c1 && s[2] == c2 && s[3] == c3 && s[4] == c4 && s[5] == c5 && s[6] == c6;
    var w0 := WindowCounts(s, 7, 0);
    assert w0 == Zeros(RankCount);
    var w1 := WindowCounts(s, 7, 1);
    assert CanMakeRunOf(0, c0, 6, c6, 7);
    assert w1 == AddRank(w0, c0);
    var w2 := WindowCounts(s, 7, 2);
    assert CanMakeRunOf(1, c1, 6, c6, 7);
    assert w2 == AddRank(w1, c1);
    var w3 := WindowCounts(s, 7, 3);
    assert CanMakeRunOf(2, c2, 6, c6, 7);
    assert w3 == AddRank(w2, c2);
    var w4 := WindowCounts(s, 7, 4);
    assert CanMakeRunOf(3, c3, 6, c6, 7);
    assert w4 == AddRank(w3, c3);
    var w5 := WindowCounts(s, 7, 5);
    assert CanMakeRunOf(4, c4, 6, c6, 7);
    assert w5 == AddRank(w4, c4);
    var w6 := WindowCounts(s, 7, 6);
    assert CanMakeRunOf(5, c5, 6, c6, 7);
    assert w6 == AddRank(w5, c5);
    var w7 := WindowCounts(s, 7, 7);
    assert CanMakeRunOf(6, c6, 6, c6, 7);
    assert w7 == AddRank(w6, c6);
    FirstBlockMeasured(w7, 0, 7);
  }

  lemma RunOfSevenWindow6(c0: Card, c1: Card, c2: Card, c3: Card, c4: Card, c5: Card, c6: Card)
    requires c0 == Card(Seven, Clubs)
    requires c1 == Card(Five, Clubs)
    requires c2 == Card(Ace, Clubs)
    requires c3 == Card(Four, Clubs)
    requires c4 == Card(Six, Clubs)
    requires c5 == Card(Two, Clubs)
    requires c6 == Card(Three, Clubs)
    ensures FirstBlock(WindowCounts([c0, c1, c2, c3, c4, c5, c6], 6, 7)) == 6
  {
    var s := [c0, c1, c2, c3, c4, c5, c6];
    assert |s| == 7 && s[0] == c0 && s[1] == c1 && s[2] == c2 && s[3] == c3 && s[4] == c4 && s[5] == c5 && s[6] == c6;
    var w0 := WindowCounts(s, 6, 0);
    assert w0 == Zeros(RankCount);
    var w1 := WindowCounts(s, 6, 1);
    assert !CanMakeRunOf(0, c0, 6, c6, 6);
    assert w1 == w0;
    var w2 := WindowCounts(s, 6, 2);
    assert CanMakeRunOf(1, c1, 6, c6, 6);
    assert w2 == AddRank(w1, c1);
    var w3 := WindowCounts(s, 6, 3);
    assert CanMakeRunOf(2, c2, 6, c6, 6);
    assert w3 == AddRank(w2, c2);
    var w4 := WindowCounts(s, 6, 4);
    assert CanMakeRunOf(3, c3, 6, c6, 6);
    assert w4 == AddRank(w3, c3);
    var w5 := WindowCounts(s, 6, 5);
    assert CanMakeRunOf(4, c4, 6, c6, 6);
    assert w5 == AddRank(w4, c4);
    var w6 := WindowCounts(s, 6, 6);
    assert CanMakeRunOf(5, c5, 6, c6, 6);
    assert w6 == AddRank(w5, c5);
    var w7 := WindowCounts(s, 6, 7);
    assert CanMakeRunOf(6, c6, 6, c6, 6);
    assert w7 == AddRank(w6, c6);
    FirstBlockMeasured(w7, 0, 6);
  }

  lemma RunOfSevenWindow5(c0: Card, c1: Card, c2: Card, c3: Card, c4: Card, c5: Card, c6: Card)
    requires c0 == Card(Seven, Clubs)
    requires c1 == Card(Five, Clubs)
    requires c2 == Card(Ace, Clubs)
    requires c3 == Card(Four, Clubs)
    requires c4 == Card(Six, Clubs)
    requires c5 == Card(Two, Clubs)
    requires c6 == Card(Three, Clubs)
    ensures FirstBlock(WindowCounts([c0, c1, c2, c3, c4, c5, c6], 5, 7)) == 4
  {
    var s := [c0, c1, c2, c3, c4, c5, c6];
    assert |s| == 7 && s[0] == c0 && s[1] == c1 && s[2] == c2 && s[3] == c3 && s[4] == c4 && s[5] == c5 && s[6] == c6;
    var w0 := WindowCounts(s, 5, 0);
    assert w0 == Zeros(RankCount);
    var w1 := WindowCounts(s, 5, 1);
    assert !CanMakeRunOf(0, c0, 6, c6, 5);
    assert w1 == w0;
    var w2 := WindowCounts(s, 5, 2);
    assert !CanMakeRunOf(1, c1, 6, c6, 5);
    assert w2 == w1;
    var w3 := WindowCounts(s, 5, 3);
    assert CanMakeRunOf(2, c2, 6, c6, 5);
    assert w3 == AddRank(w2, c2);
    var w4 := WindowCounts(s, 5, 4);
    assert CanMakeRunOf(3, c3, 6, c6, 5);
    assert w4 == AddRank(w3, c3);
    var w5 := WindowCounts(s, 5, 5);
    assert CanMakeRunOf(4, c4, 6, c6, 5);
    assert w5 == AddRank(w4, c4);
    var w6 := WindowCounts(s, 5, 6);
    assert CanMakeRunOf(5, c5, 6, c6, 5);
    assert w6 == AddRank(w5, c5);
    var w7 := WindowCounts(s, 5, 7);
    assert CanMakeRunOf(6, c6, 6, c6, 5);
    assert w7 == AddRank(w6, c6);
    FirstBlockMeasured(w7, 0, 4);
  }

  lemma RunOfSevenWindow4(c0: Card, c1: Card, c2: Card, c3: Card, c4: Card, c5: Card, c6: Card)
    requires c0 == Card(Seven, Clubs)
    requires c1 == Card(Five, Clubs)
    requires c2 == Card(Ace, Clubs)
    requires c3 == Card(Four, Clubs)
    requires c4 == Card(Six, Clubs)
    requires c5 == Card(Two, Clubs)
    requires c6 == Card(Three, Clubs)
    ensures FirstBlock(WindowCounts([c0, c1, c2, c3, c4, c5, c6], 4, 7)) == 3
  {
    var s := [c0, c1, c2, c3, c4, c5, c6];
    assert |s| == 7 && s[0] == c0 && s[1] == c1 && s[2] == c2 && s[3] == c3 && s[4] == c4 && s[5] == c5 && s[6] == c6;
    var w0 := WindowCounts(s, 4, 0);
    assert w0 == Zeros(RankCount);
    var w1 := WindowCounts(s, 4, 1);
    assert !CanMakeRunOf(0, c0, 6, c6, 4);
    assert w1 == w0;
    var w2 := WindowCounts(s, 4, 2);
    assert !CanMakeRunOf(1, c1, 6, c6, 4);
    assert w2 == w1;
    var w3 := WindowCounts(s, 4, 3);
    assert !CanMakeRunOf(2, c2, 6, c6, 4);
    assert w3 == w2;
    var w4 := WindowCounts(s, 4, 4);
    assert CanMakeRunOf(3, c3, 6, c6, 4);
    assert w4 == AddRank(w3, c3);
    var w5 := WindowCounts(s, 4, 5);
    assert CanMakeRunOf(4, c4, 6, c6, 4);
    assert w5 == AddRank(w4, c4);
    var w6 := WindowCounts(s, 4, 6);
    assert CanMakeRunOf(5, c5, 6, c6, 4);
    assert w6 == AddRank(w5, c5);
    var w7 := WindowCounts(s, 4, 7);
    assert CanMakeRunOf(6, c6, 6, c6, 4);
    assert w7 == AddRank(w6, c6);
    FirstBlockMeasured(w7, 1, 3);
  }

  lemma RunOfSevenWindow3(c0: Card, c1: Card, c2: Card, c3: Card, c4: Card, c5: Card, c6: Card)
    requires c0 == Card(Seven, Clubs)
    requires c1 == Card(Five, Clubs)
    requires c2 == Card(Ace, Clubs)
    requires c3 == Card(Four, Clubs)
    requires c4 == Card(Six, Clubs)
    requires c5 == Card(Two, Clubs)
    requires c6 == Card(Three, Clubs)
    ensures FirstBlock(WindowCounts([c0, c1, c2, c3, c4, c5, c6], 3, 7)) == 2
  {
    var s := [c0, c1, c2, c3, c4, c5, c6];
    assert |s| == 7 && s[0] == c0 && s[1] == c1 && s[2] == c2 && s[3] == c3 && s[4] == c4 && s[5] == c5 && s[6] == c6;
    var w0 := WindowCounts(s, 3, 0);
    assert w0 == Zeros(RankCount);
    var w1 := WindowCounts(s, 3, 1);
    assert !CanMakeRunOf(0, c0, 6, c6, 3);
    assert w1 == w0;
    var w2 := WindowCounts(s, 3, 2);
    assert !CanMakeRunOf(1, c1, 6, c6, 3);
    assert w2 == w1;
    var w3 := WindowCounts(s, 3, 3);
    assert !CanMakeRunOf(2, c2, 6, c6, 3);
    assert w3 == w2;
    var w4 := WindowCounts(s, 3, 4);
    assert !CanMakeRunOf(3, c3, 6, c6, 3);
    assert w4 == w3;
    var w5 := WindowCounts(s, 3, 5);
    assert !CanMakeRunOf(4, c4, 6, c6, 3);
    assert w5 == w4;
    var w6 := WindowCounts(s, 3, 6);
    assert CanMakeRunOf(5, c5, 6, c6, 3);
    assert w6 == AddRank(w5, c5);
    var w7 := WindowCounts(s, 3, 7);
    assert CanMakeRunOf(6, c6, 6, c6, 3);
    assert w7 == AddRank(w6, c6);
    FirstBlockMeasured(w7, 1, 2);
  }

  /** The run rule on seven cards out of order: 7. */
  lemma RunOfSeven()
    ensures TopRunPoints([Card(Seven, Clubs), Card(Five, Clubs), Card(Ace, Clubs), Card(Four, Clubs), Card(Six, Clubs), Card(Two, Clubs), Card(Three, Clubs)]) == 7
  {
    RunOfSevenWindow7(Card(Seven, Clubs), Card(Five, Clubs), Card(Ace, Clubs), Card(Four, Clubs), Card(Six, Clubs), Card(Two, Clubs), Card(Three, Clubs));
    RunOfSevenWindow6(Card(Seven, Clubs), Card(Five, Clubs), Card(Ace, Clubs), Card(Four, Clubs), Card(Six, Clubs), Card(Two, Clubs), Card(Three, Clubs));
    RunOfSevenWindow5(Card(Seven, Clubs), Card(Five, Clubs), Card(Ace, Clubs), Card(Four, Clubs), Card(Six, Clubs), Card(Two, Clubs), Card(Three, Clubs));
    RunOfSevenWindow4(Card(Seven, Clubs), Card(Five, Clubs), Card(Ace, Clubs), Card(Four, Clubs), Card(Six, Clubs), Card(Two, Clubs), Card(Three, Clubs));
    RunOfSevenWindow3(Card(Seven, Clubs), Card(Five, Clubs), Card(Ace, Clubs), Card(Four, Clubs), Card(Six, Clubs), Card(Two, Clubs), Card(Three, Clubs));
    TopRunFromWindows([Card(Seven, Clubs), Card(Five, Clubs), Card(Ace, Clubs), Card(Four, Clubs), Card(Six, Clubs), Card(Two, Clubs), Card(Three, Clubs)]);
  }

  /** `largest_run_points` on seven cards out of order. */
  method LargestRunSeven() returns (r: nat)
    ensures r == 7
  {
    var data := new PlayData.FromCards([Card(Seven, Clubs), Card(Five, Clubs), Card(Ace, Clubs), Card(Four, Clubs), Card(Six, Clubs), Card(Two, Clubs), Card(Three, Clubs)]);
    r := data.LargestRunPoints();
    RunOfSeven();
  }

  // ---------------------------------------------------------------------------
  // fifteen_points, thirty_one_points, pairs_points
  // ---------------------------------------------------------------------------

  /** A lone king is not fifteen. */
  method FifteenPointsNone() returns (p: nat)
    ensures p == 0
  {
    var s := [Card(King, Clubs)];

    var data := new PlayData.FromCards(s);
    assert data.stackScore == 10;
    p := data.FifteenPoints();
  }

  /** King and five make fifteen. */
  method FifteenPointsTwo() returns (p: nat)
    ensures p == 2
  {
    var s := [Card(King, Clubs), Card(Five, Hearts)];
    assert s[1..] == [Card(Five, Hearts)];
    var data := new PlayData.FromCards(s);
    assert data.stackScore == 15;
    p := data.FifteenPoints();
  }

  /** Three kings make thirty. */
  method ThirtyOnePointsNone() returns (p: nat)
    ensures p == 0
  {
    var s := [Card(King, Clubs), Card(King, Hearts), Card(King, Spades)];
    assert s[1..] == [Card(King, Hearts), Card(King, Spades)];
    assert s[1..][1..] == [Card(King, Spades)];
    var data := new PlayData.FromCards(s);
    assert data.stackScore == 30;
    p := data.ThirtyOnePoints();
  }

  /** Three kings and an ace make thirty-one. */
  method ThirtyOnePointsTwo() returns (p: nat)
    ensures p == 2
  {
    var s := [Card(King, Clubs), Card(King, Hearts), Card(King, Spades), Card(Ace, Spades)];
    assert s[1..] == [Card(King, Hearts), Card(King, Spades), Card(Ace, Spades)];
    assert s[1..][1..] == [Card(King, Spades), Card(Ace, Spades)];
    assert s[1..][1..][1..] == [Card(Ace, Spades)];
    var data := new PlayData.FromCards(s);
    assert data.stackScore == 31;
    p := data.ThirtyOnePoints();
  }

  /** A single card pairs with nothing. */
  method PairsPointsStackTooSmall() returns (p: nat)
    ensures p == 0
  {
    var s := [Card(King, Clubs)];
    assert MatchingBelow(s) == 0;
    var data := new PlayData.FromCards(s);
    p := data.PairsPoints();
  }

  /** Three kings under an ace: the top card matches nothing. */
  method PairsPointsNone() returns (p: nat)
    ensures p == 0
  {
    var s := [Card(King, Clubs), Card(King, Hearts), Card(King, Spades), Card(Ace, Spades)];
    assert MatchingBelow(s) == 0;
    var data := new PlayData.FromCards(s);
    p := data.PairsPoints();
  }

  /** A pair of kings. */
  method PairsPointsPair() returns (p: nat)
    ensures p == 2
  {
    var s := [Card(Ace, Spades), Card(King, Clubs), Card(King, Hearts)];
    assert MatchingBelow(s) == 1;
    var data := new PlayData.FromCards(s);
    p := data.PairsPoints();
  }

  /** Three kings. */
  method PairsPointsThreeOfAKind() returns (p: nat)
    ensures p == 6
  {
    var s := [Card(Ace, Spades), Card(King, Clubs), Card(King, Hearts), Card(King, Spades)];
    assert MatchingBelow(s) == 2;
    var data := new PlayData.FromCards(s);
    p := data.PairsPoints();
  }

  /** Four kings. */
  method PairsPointsFourOfAKind() returns (p: nat)
    ensures p == 12
  {
    var s := [Card(Ace, Spades), Card(King, Clubs), Card(King, Hearts), Card(King, Spades), Card(King, Diamonds)];
    assert MatchingBelow(s) == 3;
    var data := new PlayData.FromCards(s);
    p := data.PairsPoints();
  }

  // ---------------------------------------------------------------------------
  // go_point, current_points
  // ---------------------------------------------------------------------------

  /** The first player can still lay an ace: no go. */
  method GoPointFirstCanPlay() returns (p: nat)
    ensures p == 0
  {
    var player1 := new Player([Card(Ace, Clubs)]);
    var player2 := new Player([]);
    var s := [Card(King, Clubs), Card(King, Hearts), Card(King, Diamonds)];
    assert s[1..] == [Card(King, Hearts), Card(King, Diamonds)];
    assert s[1..][1..] == [Card(King, Diamonds)];
    var data := new PlayData.FromCards(s);
    assert data.stackScore == 30;
    p := data.GoPoint(player1, player2);
  }

  /** The second player can still lay an ace: no go. */
  method GoPointSecondCanPlay() returns (p: nat)
    ensures p == 0
  {
    var player1 := new Player([Card(Five, Clubs), Card(King, Spades)]);
    var player2 := new Player([Card(Ace, Clubs), Card(Eight, Clubs)]);
    var s := [Card(King, Clubs), Card(King, Hearts), Card(King, Diamonds)];
    assert s[1..] == [Card(King, Hearts), Card(King, Diamonds)];
    assert s[1..][1..] == [Card(King, Diamonds)];
    var data := new PlayData.FromCards(s);
    assert data.stackScore == 30;
    p := data.GoPoint(player1, player2);
  }

  /** Nobody can play, but the count is thirty-one: no go. */
  method GoPointAtThirtyOne() returns (p: nat)
    ensures p == 0
  {
    var player1 := new Player([Card(Five, Clubs), Card(King, Spades)]);
    var player2 := new Player([Card(Ace, Clubs), Card(Eight, Clubs)]);
    var s := [Card(King, Clubs), Card(King, Hearts), Card(King, Diamonds), Card(Ace, Diamonds)];
    assert s[1..] == [Card(King, Hearts), Card(King, Diamonds), Card(Ace, Diamonds)];
    assert s[1..][1..] == [Card(King, Diamonds), Card(Ace, Diamonds)];
    assert s[1..][1..][1..] == [Card(Ace, Diamonds)];
    var data := new PlayData.FromCards(s);
    assert data.stackScore == 31;
    p := data.GoPoint(player1, player2);
  }

  /** Nobody can play at thirty: one point for the go. */
  method GoPointAtThirty() returns (p: nat)
    ensures p == 1
  {
    var player1 := new Player([Card(Five, Clubs), Card(King, Spades)]);
    var player2 := new Player([Card(Two, Clubs), Card(Eight, Clubs)]);
    var s := [Card(King, Clubs), Card(King, Hearts), Card(King, Diamonds)];
    assert s[1..] == [Card(King, Hearts), Card(King, Diamonds)];
    assert s[1..][1..] == [Card(King, Diamonds)];
    var data := new PlayData.FromCards(s);
    assert data.stackScore == 30;
    p := data.GoPoint(player1, player2);
  }

  lemma RunOfCurrentPointsNoneWindow7(c0: Card, c1: Card, c2: Card, c3: Card, c4: Card)
    requires c0 == Card(Four, Hearts)
    requires c1 == Card(Seven, Diamonds)
    requires c2 == Card(Four, Clubs)
    requires c3 == Card(Jack, Clubs)
    requires c4 == Card(Five, Diamonds)
    ensures FirstBlock(WindowCounts([c0, c1, c2, c3, c4], 7, 5)) == 2
  {
    var s := [c0, c1, c2, c3, c4];
    assert |s| == 5 && s[0] == c0 && s[1] == c1 && s[2] == c2 && s[3] == c3 && s[4] == c4;
    var w0 := WindowCounts(s, 7, 0);
    assert w0 == Zeros(RankCount);
    var w1 := WindowCounts(s, 7, 1);
    assert CanMakeRunOf(0, c0, 4, c4, 7);
    assert w1 == AddRank(w0, c0);
    var w2 := WindowCounts(s, 7, 2);
    assert CanMakeRunOf(1, c1, 4, c4, 7);
    assert w2 == AddRank(w1, c1);
    var w3 := WindowCounts(s, 7, 3);
    assert CanMakeRunOf(2, c2, 4, c4, 7);
    assert w3 == AddRank(w2, c2);
    var w4 := WindowCounts(s, 7, 4);
    assert CanMakeRunOf(3, c3, 4, c4, 7);
    assert w4 == AddRank(w3, c3);
    var w5 := WindowCounts(s, 7, 5);
    assert CanMakeRunOf(4, c4, 4, c4, 7);
    assert w5 == AddRank(w4, c4);
    FirstBlockMeasured(w5, 3, 2);
  }

  lemma RunOfCurrentPointsNoneWindow6(c0: Card, c1: Card, c2: Card, c3: Card, c4: Card)
    requires c0 == Card(Four, Hearts)
    requires c1 == Card(Seven, Diamonds)
    requires c2 == Card(Four, Clubs)
    requires c3 == Card(Jack, Clubs)
    requires c4 == Card(Five, Diamonds)
    ensures FirstBlock(WindowCounts([c0, c1, c2, c3, c4], 6, 5)) == 2
  {
    var s := [c0, c1, c2, c3, c4];
    assert |s| == 5 && s[0] == c0 && s[1] == c1 && s[2] == c2 && s[3] == c3 && s[4] == c4;
    var w0 := WindowCounts(s, 6, 0);
    assert w0 == Zeros(RankCount);
    var w1 := WindowCounts(s, 6, 1);
    assert CanMakeRunOf(0, c0, 4, c4, 6);
    assert w1 == AddRank(w0, c0);
    var w2 := WindowCounts(s, 6, 2);
    assert CanMakeRunOf(1, c1, 4, c4, 6);
    assert w2 == AddRank(w1, c1);
    var w3 := WindowCounts(s, 6, 3);
    assert CanMakeRunOf(2, c2, 4, c4, 6);
    assert w3 == AddRank(w2, c2);
    var w4 := WindowCounts(s, 6, 4);
    assert !CanMakeRunOf(3, c3, 4, c4, 6);
    assert w4 == w3;
    var w5 := WindowCounts(s, 6, 5);
    assert CanMakeRunOf(4, c4, 4, c4, 6);
    assert w5 == AddRank(w4, c4);
    FirstBlockMeasured(w5, 3, 2);
  }

  lemma RunOfCurrentPointsNoneWindow5(c0: Card, c1: Card, c2: Card, c3: Card, c4: Card)
    requires c0 == Card(Four, Hearts)
    requires c1 == Card(Seven, Diamonds)
    requires c2 == Card(Four, Clubs)
    requires c3 == Card(Jack, Clubs)
    requires c4 == Card(Five, Diamonds)
    ensures FirstBlock(WindowCounts([c0, c1, c2, c3, c4], 5, 5)) == 2
  {
    var s := [c0, c1, c2, c3, c4];
    assert |s| == 5 && s[0] == c0 && s[1] == c1 && s[2] == c2 && s[3] == c3 && s[4] == c4;
    var w0 := WindowCounts(s, 5, 0);
    assert w0 == Zeros(RankCount);
    var w1 := WindowCounts(s, 5, 1);
    assert CanMakeRunOf(0, c0, 4, c4, 5);
    assert w1 == AddRank(w0, c0);
    var w2 := WindowCounts(s, 5, 2);
    assert CanMakeRunOf(1, c1, 4, c4, 5);
    assert w2 == AddRank(w1, c1);
    var w3 := WindowCounts(s, 5, 3);
    assert CanMakeRunOf(2, c2, 4, c4, 5);
    assert w3 == AddRank(w2, c2);
    var w4 := WindowCounts(s, 5, 4);
    assert !CanMakeRunOf(3, c3, 4, c4, 5);
    assert w4 == w3;
    var w5 := WindowCounts(s, 5, 5);
    assert CanMakeRunOf(4, c4, 4, c4, 5);
    assert w5 == AddRank(w4, c4);
    FirstBlockMeasured(w5, 3, 2);
  }

  lemma RunOfCurrentPointsNoneWindow4(c0: Card, c1: Card, c2: Card, c3: Card, c4: Card)
    requires c0 == Card(Four, Hearts)
    requires c1 == Card(Seven, Diamonds)
    requires c2 == Card(Four, Clubs)
    requires c3 == Card(Jack, Clubs)
    requires c4 == Card(Five, Diamonds)
    ensures FirstBlock(WindowCounts([c0, c1, c2, c3, c4], 4, 5)) == 2
  {
    var s := [c0, c1, c2, c3, c4];
    assert |s| == 5 && s[0] == c0 && s[1] == c1 && s[2] == c2 && s[3] == c3 && s[4] == c4;
    var w0 := WindowCounts(s, 4, 0);
    assert w0 == Zeros(RankCount);
    var w1 := WindowCounts(s, 4, 1);
    assert !CanMakeRunOf(0, c0, 4, c4, 4);
    assert w1 == w0;
    var w2 := WindowCounts(s, 4, 2);
    assert CanMakeRunOf(1, c1, 4, c4, 4);
    assert w2 == AddRank(w1, c1);
    var w3 := WindowCounts(s, 4, 3);
    assert CanMakeRunOf(2, c2, 4, c4, 4);
    assert w3 == AddRank(w2, c2);
    var w4 := WindowCounts(s, 4, 4);
    assert !CanMakeRunOf(3, c3, 4, c4, 4);
    assert w4 == w3;
    var w5 := WindowCounts(s, 4, 5);
    assert CanMakeRunOf(4, c4, 4, c4, 4);
    assert w5 == AddRank(w4, c4);
    FirstBlockMeasured(w5, 3, 2);
  }

  lemma RunOfCurrentPointsNoneWindow3(c0: Card, c1: Card, c2: Card, c3: Card, c4: Card)
    requires c0 == Card(Four, Hearts)
    requires c1 == Card(Seven, Diamonds)
    requires c2 == Card(Four, Clubs)
    requires c3 == Card(Jack, Clubs)
    requires c4 == Card(Five, Diamonds)
    ensures FirstBlock(WindowCounts([c0, c1, c2, c3, c4], 3, 5)) == 2
  {
    var s := [c0, c1, c2, c3, c4];
    assert |s| == 5 && s[0] == c0 && s[1] == c1 && s[2] == c2 && s[3] == c3 && s[4] == c4;
    var w0 := WindowCounts(s, 3, 0);
    assert w0 == Zeros(RankCount);
    var w1 := WindowCounts(s, 3, 1);
    assert !CanMakeRunOf(0, c0, 4, c4, 3);
    assert w1 == w0;
    var w2 := WindowCounts(s, 3, 2);
    assert !CanMakeRunOf(1, c1, 4, c4, 3);
    assert w2 == w1;
    var w3 := WindowCounts(s, 3, 3);
    assert CanMakeRunOf(2, c2, 4, c4, 3);
    assert w3 == AddRank(w2, c2);
    var w4 := WindowCounts(s, 3, 4);
    assert !CanMakeRunOf(3, c3, 4, c4, 3);
    assert w4 == w3;
    var w5 := WindowCounts(s, 3, 5);
    assert CanMakeRunOf(4, c4, 4, c4, 3);
    assert w5 == AddRank(w4, c4);
    FirstBlockMeasured(w5, 3, 2);
  }

  /** The run rule on the stack of `CurrentPointsNone`: 0. */
  lemma RunOfCurrentPointsNone()
    ensures TopRunPoints([Card(Four, Hearts), Card(Seven, Diamonds), Card(Four, Clubs), Card(Jack, Clubs), Card(Five, Diamonds)]) == 0
  {
    RunOfCurrentPointsNoneWindow7(Card(Four, Hearts), Card(Seven, Diamonds), Card(Four, Clubs), Card(Jack, Clubs), Card(Five, Diamonds));
    RunOfCurrentPointsNoneWindow6(Card(Four, Hearts), Card(Seven, Diamonds), Card(Four, Clubs), Card(Jack, Clubs), Card(Five, Diamonds));
    RunOfCurrentPointsNoneWindow5(Card(Four, Hearts), Card(Seven, Diamonds), Card(Four, Clubs), Card(Jack, Clubs), Card(Five, Diamonds));
    RunOfCurrentPointsNoneWindow4(Card(Four, Hearts), Card(Seven, Diamonds), Card(Four, Clubs), Card(Jack, Clubs), Card(Five, Diamonds));
    RunOfCurrentPointsNoneWindow3(Card(Four, Hearts), Card(Seven, Diamonds), Card(Four, Clubs), Card(Jack, Clubs), Card(Five, Diamonds));
    TopRunFromWindows([Card(Four, Hearts), Card(Seven, Diamonds), Card(Four, Clubs), Card(Jack, Clubs), Card(Five, Diamonds)]);
  }

  /** Thirty with nothing on top. */
  method CurrentPointsNone() returns (p: nat)
    ensures p == 0
  {
    var s := [Card(Four, Hearts), Card(Seven, Diamonds), Card(Four, Clubs), Card(Jack, Clubs), Card(Five, Diamonds)];
    assert s[1..] == [Card(Seven, Diamonds), Card(Four, Clubs), Card(Jack, Clubs), Card(Five, Diamonds)];
    assert s[1..][1..] == [Card(Four, Clubs), Card(Jack, Clubs), Card(Five, Diamonds)];
    assert s[1..][1..][1..] == [Card(Jack, Clubs), Card(Five, Diamonds)];
    assert s[1..][1..][1..][1..] == [Card(Five, Diamonds)];
    var data := new PlayData.FromCards(s);
    assert data.stackScore == 30;
    assert MatchingBelow(s) == 0;
    RunOfCurrentPointsNone();
    p := data.CurrentPoints();
  }

  lemma RunOfCurrentPointsPairAndFifteenWindow7(c0: Card, c1: Card, c2: Card)
    requires c0 == Card(Seven, Clubs)
    requires c1 == Card(Four, Hearts)
    requires c2 == Card(Four, Diamonds)
    ensures FirstBlock(WindowCounts([c0, c1, c2], 7, 3)) == 1
  {
    var s := [c0, c1, c2];
    assert |s| == 3 && s[0] == c0 && s[1] == c1 && s[2] == c2;
    var w0 := WindowCounts(s, 7, 0);
    assert w0 == Zeros(RankCount);
    var w1 := WindowCounts(s, 7, 1);
    assert CanMakeRunOf(0, c0, 2, c2, 7);
    assert w1 == AddRank(w0, c0);
    var w2 := WindowCounts(s, 7, 2);
    assert CanMakeRunOf(1, c1, 2, c2, 7);
    assert w2 == AddRank(w1, c1);
    var w3 := WindowCounts(s, 7, 3);
    assert CanMakeRunOf(2, c2, 2, c2, 7);
    assert w3 == AddRank(w2, c2);
    FirstBlockMeasured(w3, 3, 1);
  }

  lemma RunOfCurrentPointsPairAndFifteenWindow6(c0: Card, c1: Card, c2: Card)
    requires c0 == Card(Seven, Clubs)
    requires c1 == Card(Four, Hearts)
    requires c2 == Card(Four, Diamonds)
    ensures FirstBlock(WindowCounts([c0, c1, c2], 6, 3)) == 1
  {
    var s := [c0, c1, c2];
    assert |s| == 3 && s[0] == c0 && s[1] == c1 && s[2] == c2;
    var w0 := WindowCounts(s, 6, 0);
    assert w0 == Zeros(RankCount);
    var w1 := WindowCounts(s, 6, 1);
    assert CanMakeRunOf(0, c0, 2, c2, 6);
    assert w1 == AddRank(w0, c0);
    var w2 := WindowCounts(s, 6, 2);
    assert CanMakeRunOf(1, c1, 2, c2, 6);
    assert w2 == AddRank(w1, c1);
    var w3 := WindowCounts(s, 6, 3);
    assert CanMakeRunOf(2, c2, 2, c2, 6);
    assert w3 == AddRank(w2, c2);
    FirstBlockMeasured(w3, 3, 1);
  }

  lemma RunOfCurrentPointsPairAndFifteenWindow5(c0: Card, c1: Card, c2: Card)
    requires c0 == Card(Seven, Clubs)
    requires c1 == Card(Four, Hearts)
    requires c2 == Card(Four, Diamonds)
    ensures FirstBlock(WindowCounts([c0, c1, c2], 5, 3)) == 1
  {
    var s := [c0, c1, c2];
    assert |s| == 3 && s[0] == c0 && s[1] == c1 && s[2] == c2;
    var w0 := WindowCounts(s, 5, 0);
    assert w0 == Zeros(RankCount);
    var w1 := WindowCounts(s, 5, 1);
    assert CanMakeRunOf(0, c0, 2, c2, 5);
    assert w1 == AddRank(w0, c0);
    var w2 := WindowCounts(s, 5, 2);
    assert CanMakeRunOf(1, c1, 2, c2, 5);
    assert w2 == AddRank(w1, c1);
    var w3 := WindowCounts(s, 5, 3);
    assert CanMakeRunOf(2, c2, 2, c2, 5);
    assert w3 == AddRank(w2, c2);
    FirstBlockMeasured(w3, 3, 1);
  }

  lemma RunOfCurrentPointsPairAndFifteenWindow4(c0: Card, c1: Card, c2: Card)
    requires c0 == Card(Seven, Clubs)
    requires c1 == Card(Four, Hearts)
    requires c2 == Card(Four, Diamonds)
    ensures FirstBlock(WindowCounts([c0, c1, c2], 4, 3)) == 1
  {
    var s := [c0, c1, c2];
    assert |s| == 3 && s[0] == c0 && s[1] == c1 && s[2] == c2;
    var w0 := WindowCounts(s, 4, 0);
    assert w0 == Zeros(RankCount);
    var w1 := WindowCounts(s, 4, 1);
    assert CanMakeRunOf(0, c0, 2, c2, 4);
    assert w1 == AddRank(w0, c0);
    var w2 := WindowCounts(s, 4, 2);
    assert CanMakeRunOf(1, c1, 2, c2, 4);
    assert w2 == AddRank(w1, c1);
    var w3 := WindowCounts(s, 4, 3);
    assert CanMakeRunOf(2, c2, 2, c2, 4);
    assert w3 == AddRank(w2, c2);
    FirstBlockMeasured(w3, 3, 1);
  }

  lemma RunOfCurrentPointsPairAndFifteenWindow3(c0: Card, c1: Card, c2: Card)
    requires c0 == Card(Seven, Clubs)
    requires c1 == Card(Four, Hearts)
    requires c2 == Card(Four, Diamonds)
    ensures FirstBlock(WindowCounts([c0, c1, c2], 3, 3)) == 1
  {
    var s := [c0, c1, c2];
    assert |s| == 3 && s[0] == c0 && s[1] == c1 && s[2] == c2;
    var w0 := WindowCounts(s, 3, 0);
    assert w0 == Zeros(RankCount);
    var w1 := WindowCounts(s, 3, 1);
    assert !CanMakeRunOf(0, c0, 2, c2, 3);
    assert w1 == w0;
    var w2 := WindowCounts(s, 3, 2);
    assert CanMakeRunOf(1, c1, 2, c2, 3);
    assert w2 == AddRank(w1, c1);
    var w3 := WindowCounts(s, 3, 3);
    assert CanMakeRunOf(2, c2, 2, c2, 3);
    assert w3 == AddRank(w2, c2);
    FirstBlockMeasured(w3, 3, 1);
  }

  /** The run rule on the stack of `CurrentPointsPairAndFifteen`: 0. */
  lemma RunOfCurrentPointsPairAndFifteen()
    ensures TopRunPoints([Card(Seven, Clubs), Card(Four, Hearts), Card(Four, Diamonds)]) == 0
  {
    RunOfCurrentPointsPairAndFifteenWindow7(Card(Seven, Clubs), Card(Four, Hearts), Card(Four, Diamonds));
    RunOfCurrentPointsPairAndFifteenWindow6(Card(Seven, Clubs), Card(Four, Hearts), Card(Four, Diamonds));
    RunOfCurrentPointsPairAndFifteenWindow5(Card(Seven, Clubs), Card(Four, Hearts), Card(Four, Diamonds));
    RunOfCurrentPointsPairAndFifteenWindow4(Card(Seven, Clubs), Card(Four, Hearts), Card(Four, Diamonds));
    RunOfCurrentPointsPairAndFifteenWindow3(Card(Seven, Clubs), Card(Four, Hearts), Card(Four, Diamonds));
    TopRunFromWindows([Card(Seven, Clubs), Card(Four, Hearts), Card(Four, Diamonds)]);
  }

  /** A pair of fours making fifteen. */
  method CurrentPointsPairAndFifteen() returns (p: nat)
    ensures p == 4
  {
    var s := [Card(Seven, Clubs), Card(Four, Hearts), Card(Four, Diamonds)];
    assert s[1..] == [Card(Four, Hearts), Card(Four, Diamonds)];
    assert s[1..][1..] == [Card(Four, Diamonds)];
    var data := new PlayData.FromCards(s);
    assert data.stackScore == 15;
    assert MatchingBelow(s) == 1;
    RunOfCurrentPointsPairAndFifteen();
    p := data.CurrentPoints();
  }

  lemma RunOfCurrentPointsThreeOfAKindAndThirtyOneWindow7(c0: Card, c1: Card, c2: Card, c3: Card, c4: Card, c5: Card)
    requires c0 == Card(King, Clubs)
    requires c1 == Card(King, Hearts)
    requires c2 == Card(Eight, Hearts)
    requires c3 == Card(Ace, Diamonds)
    requires c4 == Card(Ace, Clubs)
    requires c5 == Card(Ace, Hearts)
    ensures FirstBlock(WindowCounts([c0, c1, c2, c3, c4, c5], 7, 6)) == 1
  {
    var s := [c0, c1, c2, c3, c4, c5];
    assert |s| == 6 && s[0] == c0 && s[1] == c1 && s[2] == c2 && s[3] == c3 && s[4] == c4 && s[5] == c5;
    var w0 := WindowCounts(s, 7, 0);
    assert w0 == Zeros(RankCount);
    var w1 := WindowCounts(s, 7, 1);
    assert !CanMakeRunOf(0, c0, 5, c5, 7);
    assert w1 == w0;
    var w2 := WindowCounts(s, 7, 2);
    assert !CanMakeRunOf(1, c1, 5, c5, 7);
    assert w2 == w1;
    var w3 := WindowCounts(s, 7, 3);
    assert !CanMakeRunOf(2, c2, 5, c5, 7);
    assert w3 == w2;
    var w4 := WindowCounts(s, 7, 4);
    assert CanMakeRunOf(3, c3, 5, c5, 7);
    assert w4 == AddRank(w3, c3);
    var w5 := WindowCounts(s, 7, 5);
    assert CanMakeRunOf(4, c4, 5, c5, 7);
    assert w5 == AddRank(w4, c4);
    var w6 := WindowCounts(s, 7, 6);
    assert CanMakeRunOf(5, c5, 5, c5, 7);
    assert w6 == AddRank(w5, c5);
    FirstBlockMeasured(w6, 0, 1);
  }

  lemma RunOfCurrentPointsThreeOfAKindAndThirtyOneWindow6(c0: Card, c1: Card, c2: Card, c3: Card, c4: Card, c5: Card)
    requires c0 == Card(King, Clubs)
    requires c1 == Card(King, Hearts)
    requires c2 == Card(Eight, Hearts)
    requires c3 == Card(Ace, Diamonds)
    requires c4 == Card(Ace, Clubs)
    requires c5 == Card(Ace, Hearts)
    ensures FirstBlock(WindowCounts([c0, c1, c2, c3, c4, c5], 6, 6)) == 1
  {
    var s := [c0, c1, c2, c3, c4, c5];
    assert |s| == 6 && s[0] == c0 && s[1] == c1 && s[2] == c2 && s[3] == c3 && s[4] == c4 && s[5] == c5;
    var w0 := WindowCounts(s, 6, 0);
    assert w0 == Zeros(RankCount);
    var w1 := WindowCounts(s, 6, 1);
    assert !CanMakeRunOf(0, c0, 5, c5, 6);
    assert w1 == w0;
    var w2 := WindowCounts(s, 6, 2);
    assert !CanMakeRunOf(1, c1, 5, c5, 6);
    assert w2 == w1;
    var w3 := WindowCounts(s, 6, 3);
    assert !CanMakeRunOf(2, c2, 5, c5, 6);
    assert w3 == w2;
    var w4 := WindowCounts(s, 6, 4);
    assert CanMakeRunOf(3, c3, 5, c5, 6);
    assert w4 == AddRank(w3, c3);
    var w5 := WindowCounts(s, 6, 5);
    assert CanMakeRunOf(4, c4, 5, c5, 6);
    assert w5 == AddRank(w4, c4);
    var w6 := WindowCounts(s, 6, 6);
    assert CanMakeRunOf(5, c5, 5, c5, 6);
    assert w6 == AddRank(w5, c5);
    FirstBlockMeasured(w6, 0, 1);
  }

  lemma RunOfCurrentPointsThreeOfAKindAndThirtyOneWindow5(c0: Card, c1: Card, c2: Card, c3: Card, c4: Card, c5: Card)
    requires c0 == Card(King, Clubs)
    requires c1 == Card(King, Hearts)
    requires c2 == Card(Eight, Hearts)
    requires c3 == Card(Ace, Diamonds)
    requires c4 == Card(Ace, Clubs)
    requires c5 == Card(Ace, Hearts)
    ensures FirstBlock(WindowCounts([c0, c1, c2, c3, c4, c5], 5, 6)) == 1
  {
    var s := [c0, c1, c2, c3, c4, c5];
    assert |s| == 6 && s[0] == c0 && s[1] == c1 && s[2] == c2 && s[3] == c3 && s[4] == c4 && s[5] == c5;
    var w0 := WindowCounts(s, 5, 0);
    assert w0 == Zeros(RankCount);
    var w1 := WindowCounts(s, 5, 1);
    assert !CanMakeRunOf(0, c0, 5, c5, 5);
    assert w1 == w0;
    var w2 := WindowCounts(s, 5, 2);
    assert !CanMakeRunOf(1, c1, 5, c5, 5);
    assert w2 == w1;
    var w3 := WindowCounts(s, 5, 3);
    assert !CanMakeRunOf(2, c2, 5, c5, 5);
    assert w3 == w2;
    var w4 := WindowCounts(s, 5, 4);
    assert CanMakeRunOf(3, c3, 5, c5, 5);
    assert w4 == AddRank(w3, c3);
    var w5 := WindowCounts(s, 5, 5);
    assert CanMakeRunOf(4, c4, 5, c5, 5);
    assert w5 == AddRank(w4, c4);
    var w6 := WindowCounts(s, 5, 6);
    assert CanMakeRunOf(5, c5, 5, c5, 5);
    assert w6 == AddRank(w5, c5);
    FirstBlockMeasured(w6, 0, 1);
  }

  lemma RunOfCurrentPointsThreeOfAKindAndThirtyOneWindow4(c0: Card, c1: Card, c2: Card, c3: Card, c4: Card, c5: Card)
    requires c0 == Card(King, Clubs)
    requires c1 == Card(King, Hearts)
    requires c2 == Card(Eight, Hearts)
    requires c3 == Card(Ace, Diamonds)
    requires c4 == Card(Ace, Clubs)
    requires c5 == Card(Ace, Hearts)
    ensures FirstBlock(WindowCounts([c0, c1, c2, c3, c4, c5], 4, 6)) == 1
  {
    var s := [c0, c1, c2, c3, c4, c5];
    assert |s| == 6 && s[0] == c0 && s[1] == c1 && s[2] == c2 && s[3] == c3 && s[4] == c4 && s[5] == c5;
    var w0 := WindowCounts(s, 4, 0);
    assert w0 == Zeros(RankCount);
    var w1 := WindowCounts(s, 4, 1);
    assert !CanMakeRunOf(0, c0, 5, c5, 4);
    assert w1 == w0;
    var w2 := WindowCounts(s, 4, 2);
    assert !CanMakeRunOf(1, c1, 5, c5, 4);
    assert w2 == w1;
    var w3 := WindowCounts(s, 4, 3);
    assert !CanMakeRunOf(2, c2, 5, c5, 4);
    assert w3 == w2;
    var w4 := WindowCounts(s, 4, 4);
    assert CanMakeRunOf(3, c3, 5, c5, 4);
    assert w4 == AddRank(w3, c3);
    var w5 := WindowCounts(s, 4, 5);
    assert CanMakeRunOf(4, c4, 5, c5, 4);
    assert w5 == AddRank(w4, c4);
    var w6 := WindowCounts(s, 4, 6);
    assert CanMakeRunOf(5, c5, 5, c5, 4);
    assert w6 == AddRank(w5, c5);
    FirstBlockMeasured(w6, 0, 1);
  }

  lemma RunOfCurrentPointsThreeOfAKindAndThirtyOneWindow3(c0: Card, c1: Card, c2: Card, c3: Card, c4: Card, c5: Card)
    requires c0 == Card(King, Clubs)
    requires c1 == Card(King, Hearts)
    requires c2 == Card(Eight, Hearts)
    requires c3 == Card(Ace, Diamonds)
    requires c4 == Card(Ace, Clubs)
    requires c5 == Card(Ace, Hearts)
    ensures FirstBlock(WindowCounts([c0, c1, c2, c3, c4, c5], 3, 6)) == 1
  {
    var s := [c0, c1, c2, c3, c4, c5];
    assert |s| == 6 && s[0] == c0 && s[1] == c1 && s[2] == c2 && s[3] == c3 && s[4] == c4 && s[5] == c5;
    var w0 := WindowCounts(s, 3, 0);
    assert w0 == Zeros(RankCount);
    var w1 := WindowCounts(s, 3, 1);
    assert !CanMakeRunOf(0, c0, 5, c5, 3);
    assert w1 == w0;
    var w2 := WindowCounts(s, 3, 2);
    assert !CanMakeRunOf(1, c1, 5, c5, 3);
    assert w2 == w1;
    var w3 := WindowCounts(s, 3, 3);
    assert !CanMakeRunOf(2, c2, 5, c5, 3);
    assert w3 == w2;
    var w4 := WindowCounts(s, 3, 4);
    assert CanMakeRunOf(3, c3, 5, c5, 3);
    assert w4 == AddRank(w3, c3);
    var w5 := WindowCounts(s, 3, 5);
    assert CanMakeRunOf(4, c4, 5, c5, 3);
    assert w5 == AddRank(w4, c4);
    var w6 := WindowCounts(s, 3, 6);
    assert CanMakeRunOf(5, c5, 5, c5, 3);
    assert w6 == AddRank(w5, c5);
    FirstBlockMeasured(w6, 0, 1);
  }

  /** The run rule on the stack of `CurrentPointsThreeOfAKindAndThirtyOne`: 0. */
  lemma RunOfCurrentPointsThreeOfAKindAndThirtyOne()
    ensures TopRunPoints([Card(King, Clubs), Card(King, Hearts), Card(Eight, Hearts), Card(Ace, Diamonds), Card(Ace, Clubs), Card(Ace, Hearts)]) == 0
  {
    RunOfCurrentPointsThreeOfAKindAndThirtyOneWindow7(Card(King, Clubs), Card(King, Hearts), Card(Eight, Hearts), Card(Ace, Diamonds), Card(Ace, Clubs), Card(Ace, Hearts));
    RunOfCurrentPointsThreeOfAKindAndThirtyOneWindow6(Card(King, Clubs), Card(King, Hearts), Card(Eight, Hearts), Card(Ace, Diamonds), Card(Ace, Clubs), Card(Ace, Hearts));
    RunOfCurrentPointsThreeOfAKindAndThirtyOneWindow5(Card(King, Clubs), Card(King, Hearts), Card(Eight, Hearts), Card(Ace, Diamonds), Card(Ace, Clubs), Card(Ace, Hearts));
    RunOfCurrentPointsThreeOfAKindAndThirtyOneWindow4(Card(King, Clubs), Card(King, Hearts), Card(Eight, Hearts), Card(Ace, Diamonds), Card(Ace, Clubs), Card(Ace, Hearts));
    RunOfCurrentPointsThreeOfAKindAndThirtyOneWindow3(Card(King, Clubs), Card(King, Hearts), Card(Eight, Hearts), Card(Ace, Diamonds), Card(Ace, Clubs), Card(Ace, Hearts));
    TopRunFromWindows([Card(King, Clubs), Card(King, Hearts), Card(Eight, Hearts), Card(Ace, Diamonds), Card(Ace, Clubs), Card(Ace, Hearts)]);
  }

  /** Three aces making thirty-one. */
  method CurrentPointsThreeOfAKindAndThirtyOne() returns (p: nat)
    ensures p == 8
  {
    var s := [Card(King, Clubs), Card(King, Hearts), Card(Eight, Hearts), Card(Ace, Diamonds), Card(Ace, Clubs), Card(Ace, Hearts)];
    assert s[1..] == [Card(King, Hearts), Card(Eight, Hearts), Card(Ace, Diamonds), Card(Ace, Clubs), Card(Ace, Hearts)];
    assert s[1..][1..] == [Card(Eight, Hearts), Card(Ace, Diamonds), Card(Ace, Clubs), Card(Ace, Hearts)];
    assert s[1..][1..][1..] == [Card(Ace, Diamonds), Card(Ace, Clubs), Card(Ace, Hearts)];
    assert s[1..][1..][1..][1..] == [Card(Ace, Clubs), Card(Ace, Hearts)];
    assert s[1..][1..][1..][1..][1..] == [Card(Ace, Hearts)];
    var data := new PlayData.FromCards(s);
    assert data.stackScore == 31;
    assert MatchingBelow(s) == 2;
    RunOfCurrentPointsThreeOfAKindAndThirtyOne();
    p := data.CurrentPoints();
  }

  // ---------------------------------------------------------------------------
  // The documented uses of the state-changing operations
  // ---------------------------------------------------------------------------

  /** `add_card` twice from an empty stack: ace then queen of hearts, total eleven. */
  method AddCardExample() returns (stack: seq<Card>, score: nat)
    ensures stack == [Card(Ace, Hearts), Card(Queen, Hearts)] && score == 11
  {
    var data := new PlayData();
    data.AddCard(Card(Ace, Hearts));
    data.AddCard(Card(Queen, Hearts));
    stack, score := data.stack, data.stackScore;
  }

  /** `From<Vec<Card>>` on two aces: both on the stack, total two. */
  method FromCardsExample() returns (stack: seq<Card>, score: nat)
    ensures stack == [Card(Ace, Hearts), Card(Ace, Clubs)] && score == 2
  {
    var s := [Card(Ace, Hearts), Card(Ace, Clubs)];
    assert s[1..] == [Card(Ace, Clubs)];
    var data := new PlayData.FromCards(s);
    stack, score := data.stack, data.stackScore;
  }

  /**
   * `can_play` at twenty-one with a two and a king in hand: the player can
   * play; once the two (index 0) is laid the king no longer fits.
   */
  method CanPlayExample() returns (before: bool, after: bool)
    ensures before && !after
  {
    var player := new Player([Card(Two, Clubs), Card(King, Spades)]);
    var s := [Card(King, Clubs), Card(King, Hearts), Card(Ace, Diamonds)];
    assert s[1..] == [Card(King, Hearts), Card(Ace, Diamonds)];
    assert s[1..][1..] == [Card(Ace, Diamonds)];
    var data := new PlayData.FromCards(s);
    before := data.CanPlay(player);
    var card := player.hand[0];
    player.hand := player.hand[1..];
    data.AddCard(card);
    assert player.hand == [Card(King, Spades)];
    after := data.CanPlay(player);
  }

  /** `any_can_play` and `reset_if_needed` at twenty-seven, where nobody holds a card of four or less. */
  method ResetIfNeededExample() returns (anyCanPlay: bool, stack: seq<Card>, score: nat)
    ensures !anyCanPlay && stack == [] && score == 0
  {
    var player1 := new Player([Card(Five, Clubs), Card(King, Spades)]);
    var player2 := new Player([Card(Six, Clubs), Card(King, Diamonds)]);
    var s := [Card(King, Clubs), Card(King, Hearts), Card(Seven, Diamonds)];
    assert s[1..] == [Card(King, Hearts), Card(Seven, Diamonds)];
    assert s[1..][1..] == [Card(Seven, Diamonds)];
    var data := new PlayData.FromCards(s);
    assert data.stackScore == 27;
    assert !data.CanPlay(player1) && !data.CanPlay(player2);
    anyCanPlay := data.AnyCanPlay(player1, player2);
    data.ResetIfNeeded(player1, player2);
    stack, score := data.stack, data.stackScore;
  }

  /**
   * The first turn of the documented `play_once` run: at twenty-one the first
   * player lays their only card, a two, and takes the go, since the second
   * player's queen no longer fits.
   */
  method PlayOnceFirstTurn() returns (player1: Player, player2: Player, data: PlayData)
    ensures fresh(player1) && fresh(player2) && fresh(data)
    ensures player1 != player2
    ensures player1.points == 1 && player1.hand == []
    ensures player2.points == 0 && player2.hand == [Card(Queen, Clubs)]
    ensures data.stackScore == 23
  {
    player1 := new Player([Card(Two, Clubs)]);
    player2 := new Player([Card(Queen, Clubs)]);
    var s := [Card(King, Clubs), Card(King, Hearts), Card(Ace, Diamonds)];
    assert s[1..] == [Card(King, Hearts), Card(Ace, Diamonds)];
    assert s[1..][1..] == [Card(Ace, Diamonds)];
    data := new PlayData.FromCards(s);
    assert data.stackScore == 21;
    assert data.CanPlay(player1);
    data.PlayOnce(player1, player2, 0);
    assert data.stackScore == 23;
    assert data.stack == [Card(King, Clubs), Card(King, Hearts), Card(Ace, Diamonds), Card(Two, Clubs)];
    assert PegPoints(data.stack, data.stackScore) == 0 by {
      PlayOnceStackPoints();
    }
    assert data.GoPoint(player1, player2) == 1 by {
      GoAtTwentyThree(data, player1, player2);
    }
  }

  /** At twenty-three, an empty hand and a queen leave nobody able to play: a go. */
  lemma GoAtTwentyThree(data: PlayData, player1: Player, player2: Player)
    requires data.stackScore == 23
    requires player1.hand == [] && player2.hand == [Card(Queen, Clubs)]
    ensures data.GoPoint(player1, player2) == 1
  {
    assert !data.CanPlay(player2);
  }

  /**
   * `play_once` for both players, as documented: the first scores one for
   * the go and empties their hand; the second cannot play and keeps the queen.
   */
  method PlayOnceExample() returns (points1: nat, hand1: seq<Card>, points2: nat, hand2: seq<Card>)
    ensures points1 == 1 && hand1 == []
    ensures points2 == 0 && hand2 == [Card(Queen, Clubs)]
  {
    var player1, player2, data := PlayOnceFirstTurn();
    data.PlayOnce(player2, player1, 0);
    points1, hand1, points2, hand2 := player1.points, player1.hand, player2.points, player2.hand;
  }

  lemma RunOfPlayOnceStackWindow7(c0: Card, c1: Card, c2: Card, c3: Card)
    requires c0 == Card(King, Clubs)
    requires c1 == Card(King, Hearts)
    requires c2 == Card(Ace, Diamonds)
    requires c3 == Card(Two, Clubs)
    ensures FirstBlock(WindowCounts([c0, c1, c2, c3], 7, 4)) == 2
  {
    var s := [c0, c1, c2, c3];
    assert |s| == 4 && s[0] == c0 && s[1] == c1 && s[2] == c2 && s[3] == c3;
    var w0 := WindowCounts(s, 7, 0);
    assert w0 == Zeros(RankCount);
    var w1 := WindowCounts(s, 7, 1);
    assert !CanMakeRunOf(0, c0, 3, c3, 7);
    assert w1 == w0;
    var w2 := WindowCounts(s, 7, 2);
    assert !CanMakeRunOf(1, c1, 3, c3, 7);
    assert w2 == w1;
    var w3 := WindowCounts(s, 7, 3);
    assert CanMakeRunOf(2, c2, 3, c3, 7);
    assert w3 == AddRank(w2, c2);
    var w4 := WindowCounts(s, 7, 4);
    assert CanMakeRunOf(3, c3, 3, c3, 7);
    assert w4 == AddRank(w3, c3);
    FirstBlockMeasured(w4, 0, 2);
  }

  lemma RunOfPlayOnceStackWindow6(c0: Card, c1: Card, c2: Card, c3: Card)
    requires c0 == Card(King, Clubs)
    requires c1 == Card(King, Hearts)
    requires c2 == Card(Ace, Diamonds)
    requires c3 == Card(Two, Clubs)
    ensures FirstBlock(WindowCounts([c0, c1, c2, c3], 6, 4)) == 2
  {
    var s := [c0, c1, c2, c3];
    assert |s| == 4 && s[0] == c0 && s[1] == c1 && s[2] == c2 && s[3] == c3;
    var w0 := WindowCounts(s, 6, 0);
    assert w0 == Zeros(RankCount);
    var w1 := WindowCounts(s, 6, 1);
    assert !CanMakeRunOf(0, c0, 3, c3, 6);
    assert w1 == w0;
    var w2 := WindowCounts(s, 6, 2);
    assert !CanMakeRunOf(1, c1, 3, c3, 6);
    assert w2 == w1;
    var w3 := WindowCounts(s, 6, 3);
    assert CanMakeRunOf(2, c2, 3, c3, 6);
    assert w3 == AddRank(w2, c2);
    var w4 := WindowCounts(s, 6, 4);
    assert CanMakeRunOf(3, c3, 3, c3, 6);
    assert w4 == AddRank(w3, c3);
    FirstBlockMeasured(w4, 0, 2);
  }

  lemma RunOfPlayOnceStackWindow5(c0: Card, c1: Card, c2: Card, c3: Card)
    requires c0 == Card(King, Clubs)
    requires c1 == Card(King, Hearts)
    requires c2 == Card(Ace, Diamonds)
    requires c3 == Card(Two, Clubs)
    ensures FirstBlock(WindowCounts([c0, c1, c2, c3], 5, 4)) == 2
  {
    var s := [c0, c1, c2, c3];
    assert |s| == 4 && s[0] == c0 && s[1] == c1 && s[2] == c2 && s[3] == c3;
    var w0 := WindowCounts(s, 5, 0);
    assert w0 == Zeros(RankCount);
    var w1 := WindowCounts(s, 5, 1);
    assert !CanMakeRunOf(0, c0, 3, c3, 5);
    assert w1 == w0;
    var w2 := WindowCounts(s, 5, 2);
    assert !CanMakeRunOf(1, c1, 3, c3, 5);
    assert w2 == w1;
    var w3 := WindowCounts(s, 5, 3);
    assert CanMakeRunOf(2, c2, 3, c3, 5);
    assert w3 == AddRank(w2, c2);
    var w4 := WindowCounts(s, 5, 4);
    assert CanMakeRunOf(3, c3, 3, c3, 5);
    assert w4 == AddRank(w3, c3);
    FirstBlockMeasured(w4, 0, 2);
  }

  lemma RunOfPlayOnceStackWindow4(c0: Card, c1: Card, c2: Card, c3: Card)
    requires c0 == Card(King, Clubs)
    requires c1 == Card(King, Hearts)
    requires c2 == Card(Ace, Diamonds)
    requires c3 == Card(Two, Clubs)
    ensures FirstBlock(WindowCounts([c0, c1, c2, c3], 4, 4)) == 2
  {
    var s := [c0, c1, c2, c3];
    assert |s| == 4 && s[0] == c0 && s[1] == c1 && s[2] == c2 && s[3] == c3;
    var w0 := WindowCounts(s, 4, 0);
    assert w0 == Zeros(RankCount);
    var w1 := WindowCounts(s, 4, 1);
    assert !CanMakeRunOf(0, c0, 3, c3, 4);
    assert w1 == w0;
    var w2 := WindowCounts(s, 4, 2);
    assert !CanMakeRunOf(1, c1, 3, c3, 4);
    assert w2 == w1;
    var w3 := WindowCounts(s, 4, 3);
    assert CanMakeRunOf(2, c2, 3, c3, 4);
    assert w3 == AddRank(w2, c2);
    var w4 := WindowCounts(s, 4, 4);
    assert CanMakeRunOf(3, c3, 3, c3, 4);
    assert w4 == AddRank(w3, c3);
    FirstBlockMeasured(w4, 0, 2);
  }

  lemma RunOfPlayOnceStackWindow3(c0: Card, c1: Card, c2: Card, c3: Card)
    requires c0 == Card(King, Clubs)
    requires c1 == Card(King, Hearts)
    requires c2 == Card(Ace, Diamonds)
    requires c3 == Card(Two, Clubs)
    ensures FirstBlock(WindowCounts([c0, c1, c2, c3], 3, 4)) == 2
  {
    var s := [c0, c1, c2, c3];
    assert |s| == 4 && s[0] == c0 && s[1] == c1 && s[2] == c2 && s[3] == c3;
    var w0 := WindowCounts(s, 3, 0);
    assert w0 == Zeros(RankCount);
    var w1 := WindowCounts(s, 3, 1);
    assert !CanMakeRunOf(0, c0, 3, c3, 3);
    assert w1 == w0;
    var w2 := WindowCounts(s, 3, 2);
    assert !CanMakeRunOf(1, c1, 3, c3, 3);
    assert w2 == w1;
    var w3 := WindowCounts(s, 3, 3);
    assert CanMakeRunOf(2, c2, 3, c3, 3);
    assert w3 == AddRank(w2, c2);
    var w4 := WindowCounts(s, 3, 4);
    assert CanMakeRunOf(3, c3, 3, c3, 3);
    assert w4 == AddRank(w3, c3);
    FirstBlockMeasured(w4, 0, 2);
  }

  /** The run rule on king, king, ace, two: the ace sits low, so no run. */
  lemma RunOfPlayOnceStack()
    ensures TopRunPoints([Card(King, Clubs), Card(King, Hearts), Card(Ace, Diamonds), Card(Two, Clubs)]) == 0
  {
    RunOfPlayOnceStackWindow7(Card(King, Clubs), Card(King, Hearts), Card(Ace, Diamonds), Card(Two, Clubs));
    RunOfPlayOnceStackWindow6(Card(King, Clubs), Card(King, Hearts), Card(Ace, Diamonds), Card(Two, Clubs));
    RunOfPlayOnceStackWindow5(Card(King, Clubs), Card(King, Hearts), Card(Ace, Diamonds), Card(Two, Clubs));
    RunOfPlayOnceStackWindow4(Card(King, Clubs), Card(King, Hearts), Card(Ace, Diamonds), Card(Two, Clubs));
    RunOfPlayOnceStackWindow3(Card(King, Clubs), Card(King, Hearts), Card(Ace, Diamonds), Card(Two, Clubs));
    TopRunFromWindows([Card(King, Clubs), Card(King, Hearts), Card(Ace, Diamonds), Card(Two, Clubs)]);
  }

  /** King, king, ace, two at twenty-three: no run, no pair, neither fifteen nor thirty-one. */
  lemma PlayOnceStackPoints()
    ensures PegPoints([Card(King, Clubs), Card(King, Hearts), Card(Ace, Diamonds), Card(Two, Clubs)], 23) == 0
  {
    RunOfPlayOnceStack();
    assert MatchingBelow([Card(King, Clubs), Card(King, Hearts), Card(Ace, Diamonds), Card(Two, Clubs)]) == 0;
  }

}
