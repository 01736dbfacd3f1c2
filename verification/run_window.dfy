/**
 * The run a card completes on the pegging stack.
 *
 * For each run size n the stack scorer counts, slot by rank, the cards that
 * are among the last n played and whose rank is within n - 1 of the top card's
 * rank, then asks whether the first stretch of occupied slots is exactly n
 * long. `RunOfLast` is the rule that check stands for: the last n cards hold
 * n consecutive ranks, each exactly once. `WindowRunIff` proves the two agree.
 */
module RunWindow {
  import opened Cards
  import opened Score

  /** `usize::abs_diff`. */
  function AbsDiff(a: nat, b: nat): nat
  {
    if a >= b then a - b else b - a
  }

  /** `can_make_run_of`: the card is close enough to the top, in position and in rank. */
  predicate CanMakeRunOf(cardIndex: nat, card: Card, lastIndex: nat, lastCard: Card, runSize: nat)
  {
    AbsDiff(lastIndex, cardIndex) < runSize && AbsDiff(Ordinal(lastCard.rank), Ordinal(card.rank)) < runSize
  }

  /** The count array for run size `n` after the first `i` cards of the stack `s` are visited. */
  function WindowCounts(s: seq<Card>, n: nat, i: nat): (r: seq<nat>)
    requires s != [] && i <= |s|
    ensures |r| == RankCount
  {
    if i == 0 then Zeros(RankCount)
    else
      var prev := WindowCounts(s, n, i - 1);
      if CanMakeRunOf(i - 1, s[i - 1], |s| - 1, s[|s| - 1], n) then AddRank(prev, s[i - 1]) else prev
  }

  /** The first position among the last `n` of `len` cards. */
  function WindowStart(len: nat, n: nat): nat
  {
    if len >= n then len - n else 0
  }

  /** The slots of `d` within `n - 1` of slot `t`; every other slot emptied. */
  function Mask(d: seq<nat>, t: nat, n: nat): (r: seq<nat>)
    ensures |r| == |d|
    ensures forall k :: 0 <= k < |d| ==> r[k] == if AbsDiff(t, k) < n then d[k] else 0
  {
    seq(|d|, k requires 0 <= k < |d| => if AbsDiff(t, k) < n then d[k] else 0)
  }

  /** Length of the first stretch of occupied slots. */
  function FirstBlock(c: seq<nat>): nat
    decreases |c|
  {
    if c == [] then 0 else if c[0] == 0 then FirstBlock(c[1..]) else LeadingRun(c)
  }

  /** The cards of `w` hold ranks `lo` .. `lo + |w| - 1`, each exactly once. */
  ghost predicate ConsecutiveFrom(w: seq<Card>, lo: nat)
  {
    lo + |w| <= RankCount &&
    forall k :: 0 <= k < RankCount ==> CountOrd(w, k) == if lo <= k < lo + |w| then 1 else 0
  }

  /** The last `n` cards of the stack have `n` distinct consecutive ranks. */
  ghost predicate RunOfLast(s: seq<Card>, n: nat)
  {
    exists lo: nat :: RunOfLastFrom(s, n, lo)
  }

  /** The last `n` cards of the stack hold ranks `lo` .. `lo + n - 1`, each exactly once. */
  ghost predicate RunOfLastFrom(s: seq<Card>, n: nat, lo: nat)
  {
    n <= |s| && ConsecutiveFrom(s[|s| - n..], lo)
  }

  /** One in each of the `n` slots from `lo`, zero elsewhere. */
  function Indicator(lo: nat, n: nat): (r: seq<nat>)
    ensures |r| == RankCount
    ensures forall k :: 0 <= k < RankCount ==> r[k] == if lo <= k < lo + n then 1 else 0
  {
    seq(RankCount, k => if lo <= k < lo + n then 1 else 0)
  }

  // ---------------------------------------------------------------------------
  // The count array is the masked rank count of the window
  // ---------------------------------------------------------------------------

  lemma MaskAddRank(d: seq<nat>, c: Card, t: nat, n: nat)
    requires |d| == RankCount
    ensures Mask(AddRank(d, c), t, n) ==
            if AbsDiff(t, Ordinal(c.rank)) < n then AddRank(Mask(d, t, n), c) else Mask(d, t, n)
  {
  }

  lemma MaskZeros(t: nat, n: nat)
    ensures Mask(Zeros(RankCount), t, n) == Zeros(RankCount)
  {
  }

  /**
   * After visiting `i` cards, the array for run size `n` counts, by rank, the
   * cards visited so far among the last `n`, keeping only ranks within
   * `n - 1` of the top card's.
   */
  lemma {:induction false} WindowCountsMasked(s: seq<Card>, n: nat, i: nat)
    requires s != [] && i <= |s|
    ensures var lo := WindowStart(|s|, n);
            WindowCounts(s, n, i) == Mask(RankCounts(s[lo..if i < lo then lo else i]), Ordinal(s[|s| - 1].rank), n)
  {
    var lo := WindowStart(|s|, n);
    var t := Ordinal(s[|s| - 1].rank);
    if i == 0 {
      assert s[lo..lo] == [];
      MaskZeros(t, n);
    } else {
      WindowCountsMasked(s, n, i - 1);
      var c := s[i - 1];
      if i - 1 >= lo {
        var w := s[lo..i];
        assert w[..|w| - 1] == s[lo..i - 1];
        assert w[|w| - 1] == c;
        MaskAddRank(RankCounts(s[lo..i - 1]), c, t, n);
        if i - 1 == lo {
          assert s[lo..i - 1] == [];
        }
      }
    }
  }

  // ---------------------------------------------------------------------------
  // The first occupied stretch
  // ---------------------------------------------------------------------------

  /** Leading empty slots do not change the first stretch. */
  lemma {:induction false} FirstBlockAfterZeros(c: seq<nat>, z: nat)
    requires z <= |c|
    requires forall k :: 0 <= k < z ==> c[k] == 0
    ensures FirstBlock(c) == FirstBlock(c[z..])
    decreases z
  {
    if z > 0 {
      FirstBlockAfterZeros(c[1..], z - 1);
      assert c[1..][z - 1..] == c[z..];
    }
  }

  /** `LeadingRun` is pinned down by its contract. */
  lemma LeadingRunExact(c: seq<nat>, m: nat)
    requires m <= |c|
    requires forall k :: 0 <= k < m ==> c[k] != 0
    requires m < |c| ==> c[m] == 0
    ensures LeadingRun(c) == m
  {
  }

  /** A stretch of `m` occupied slots after `z` empty ones, ended by an empty slot or the end, is the first stretch. */
  lemma FirstBlockMeasured(c: seq<nat>, z: nat, m: nat)
    requires z + m <= |c| && m >= 1
    requires forall k :: 0 <= k < z ==> c[k] == 0
    requires forall k :: z <= k < z + m ==> c[k] != 0
    requires z + m < |c| ==> c[z + m] == 0
    ensures FirstBlock(c) == m
  {
    FirstBlockAfterZeros(c, z);
    var d := c[z..];
    LeadingRunExact(d, m);
  }

  /** Where the first stretch starts, when there is one. */
  lemma {:induction false} FirstBlockStart(c: seq<nat>) returns (z: nat)
    requires FirstBlock(c) > 0
    ensures z + FirstBlock(c) <= |c|
    ensures forall k :: 0 <= k < z ==> c[k] == 0
    ensures forall k :: z <= k < z + FirstBlock(c) ==> c[k] != 0
    decreases |c|
  {
    if c[0] == 0 {
      var z' := FirstBlockStart(c[1..]);
      z := z' + 1;
      forall k | 0 <= k < z ensures c[k] == 0 {
        if k > 0 {
          assert c[k] == c[1..][k - 1];
        }
      }
      forall k | z <= k < z + FirstBlock(c) ensures c[k] != 0 {
        assert c[k] == c[1..][k - 1];
      }
    } else {
      z := 0;
    }
  }

  // ---------------------------------------------------------------------------
  // Sums squeeze
  // ---------------------------------------------------------------------------

  /** Pointwise no greater gives a no greater sum, and strictly less somewhere a strictly less sum. */
  lemma {:induction false} SumMonotone(a: seq<nat>, d: seq<nat>, j: nat)
    requires |a| == |d|
    requires forall k :: 0 <= k < |a| ==> a[k] <= d[k]
    ensures Sum(a) <= Sum(d)
    ensures j < |a| && a[j] < d[j] ==> Sum(a) < Sum(d)
    decreases |a|
  {
    if |a| > 0 {
      var n := |a| - 1;
      SumMonotone(a[..n], d[..n], j);
    }
  }

  /** Between two sequences with the same sum, pointwise ordered, everything is equal. */
  lemma Squeeze(a: seq<nat>, c: seq<nat>, d: seq<nat>)
    requires |a| == |c| == |d|
    requires forall k :: 0 <= k < |a| ==> a[k] <= c[k] <= d[k]
    requires Sum(d) <= Sum(a)
    ensures forall k :: 0 <= k < |a| ==> a[k] == c[k] == d[k]
  {
    forall k | 0 <= k < |a| ensures a[k] == c[k] == d[k] {
      SumMonotone(a, d, k);
    }
  }

  lemma {:induction false} SumIndicatorPrefix(lo: nat, n: nat, m: nat)
    requires m <= RankCount
    ensures Sum(Indicator(lo, n)[..m]) ==
            if m <= lo then 0 else if m <= lo + n then m - lo else n
  {
    if m > 0 {
      assert Indicator(lo, n)[..m][..m - 1] == Indicator(lo, n)[..m - 1];
      SumIndicatorPrefix(lo, n, m - 1);
    } else {
      assert Indicator(lo, n)[..m] == [];
    }
  }

  lemma SumIndicator(lo: nat, n: nat)
    requires lo + n <= RankCount
    ensures Sum(Indicator(lo, n)) == n
  {
    SumIndicatorPrefix(lo, n, RankCount);
    assert Indicator(lo, n)[..RankCount] == Indicator(lo, n);
  }

  /** The top card is counted in its own slot. */
  lemma CountOrdLast(w: seq<Card>)
    requires w != []
    ensures CountOrd(w, Ordinal(w[|w| - 1].rank)) >= 1
  {
  }

  // ---------------------------------------------------------------------------
  // The run check agrees with the rule
  // ---------------------------------------------------------------------------

  /** The array built from the whole stack is the masked rank count of the last `n` cards. */
  lemma WholeWindow(s: seq<Card>, n: nat)
    requires s != []
    ensures WindowCounts(s, n, |s|) ==
            Mask(RankCounts(s[WindowStart(|s|, n)..]), Ordinal(s[|s| - 1].rank), n)
  {
    var lo := WindowStart(|s|, n);
    WindowCountsMasked(s, n, |s|);
    assert s[lo..|s|] == s[lo..];
  }

  /** A first stretch of exactly `n` slots means the last `n` cards form a run. */
  lemma WindowRunOnlyIf(s: seq<Card>, n: nat)
    requires s != [] && n >= 1
    requires FirstBlock(WindowCounts(s, n, |s|)) == n
    ensures RunOfLast(s, n)
  {
    var lo := WindowStart(|s|, n);
    var w := s[lo..];
    var d := RankCounts(w);
    var c := WindowCounts(s, n, |s|);
    WholeWindow(s, n);
    var z := FirstBlockStart(c);
    var ind := Indicator(z, n);
    SumRankCounts(w);
    SumIndicator(z, n);
    Squeeze(ind, c, d);
    assert d == ind;
    assert |w| == n;
    forall k | 0 <= k < RankCount
      ensures CountOrd(w, k) == if z <= k < z + |w| then 1 else 0
    {
      RankCountsAt(w, k);
    }
    assert RunOfLastFrom(s, n, z);
  }

  /** When the last `n` cards form a run, the first stretch is exactly `n` slots. */
  lemma WindowRunIf(s: seq<Card>, n: nat)
    requires s != [] && n >= 1
    requires RunOfLast(s, n)
    ensures FirstBlock(WindowCounts(s, n, |s|)) == n
  {
    var z: nat :| RunOfLastFrom(s, n, z);
    var w := s[|s| - n..];
    var t := Ordinal(s[|s| - 1].rank);
    var c := WindowCounts(s, n, |s|);
    WholeWindow(s, n);
    assert w[|w| - 1] == s[|s| - 1];
    CountOrdLast(w);
    assert z <= t < z + n;
    forall k | 0 <= k < RankCount ensures c[k] == Indicator(z, n)[k] {
      RankCountsAt(w, k);
    }
    FirstBlockMeasured(c, z, n);
  }

  /**
   * For a run size `n` of at least one, the first occupied stretch of the
   * array built from the whole stack is exactly `n` long iff the last `n`
   * cards have `n` distinct consecutive ranks.
   */
  lemma WindowRunIff(s: seq<Card>, n: nat)
    requires s != [] && n >= 1
    ensures FirstBlock(WindowCounts(s, n, |s|)) == n <==> RunOfLast(s, n)
  {
    if FirstBlock(WindowCounts(s, n, |s|)) == n {
      WindowRunOnlyIf(s, n);
    }
    if RunOfLast(s, n) {
      WindowRunIf(s, n);
    }
  }
}
