/**
 * The k-combinations of a card sequence, in the order itertools'
 * `combinations(k)` yields them, and how many of them reach a given value sum.
 *
 * `SizedSubsets` and `Subsets` are the counting definitions the enumeration is
 * proved against: the number of ways to pick k positions (respectively any
 * positions) whose cards' face values add up to `t`.
 */
module Combinations {
  import opened Cards

  /** Sum of the face values of the cards of `s`. */
  function ValueSum(s: seq<Card>): nat
    decreases |s|
  {
    if s == [] then 0 else CardValue(s[0]) + ValueSum(s[1..])
  }

  lemma {:induction false} ValueSumAppend(a: seq<Card>, b: seq<Card>)
    ensures ValueSum(a + b) == ValueSum(a) + ValueSum(b)
    decreases |a|
  {
    if a == [] {
      assert a + b == b;
    } else {
      assert (a + b)[1..] == a[1..] + b;
      ValueSumAppend(a[1..], b);
    }
  }

  /** `[x] + c` for every combination `c` of `xs`, in the same order. */
  function PrependAll(x: Card, xs: seq<seq<Card>>): (r: seq<seq<Card>>)
    ensures |r| == |xs|
    decreases |xs|
  {
    if xs == [] then [] else [[x] + xs[0]] + PrependAll(x, xs[1..])
  }

  /** Position `i` of `PrependAll(x, xs)` is `xs[i]` with `x` in front. */
  lemma {:induction false} PrependAllAt(x: Card, xs: seq<seq<Card>>, i: nat)
    requires i < |xs|
    ensures PrependAll(x, xs)[i] == [x] + xs[i]
    decreases i
  {
    if i > 0 {
      PrependAllAt(x, xs[1..], i - 1);
    }
  }

  /**
   * The k-element combinations of `s` by position, lexicographically: first
   * those that take `s[0]`, then those that skip it.
   */
  function Combinations(s: seq<Card>, k: nat): seq<seq<Card>>
    decreases |s|
  {
    if k == 0 then [[]]
    else if s == [] then []
    else PrependAll(s[0], Combinations(s[1..], k - 1)) + Combinations(s[1..], k)
  }

  /** The combinations of sizes 1 through `k`, smallest size first (`(1..=k).flat_map`). */
  function CombinationsUpTo(s: seq<Card>, k: nat): seq<seq<Card>>
  {
    if k == 0 then [] else CombinationsUpTo(s, k - 1) + Combinations(s, k)
  }

  /** How many of the combinations `xs` have face values adding up to `t`. */
  function CountSumming(xs: seq<seq<Card>>, t: nat): nat
    decreases |xs|
  {
    if xs == [] then 0
    else (if ValueSum(xs[0]) == t then 1 else 0) + CountSumming(xs[1..], t)
  }

  function Binomial(n: nat, k: nat): nat
    decreases n
  {
    if k == 0 then 1
    else if n == 0 then 0
    else Binomial(n - 1, k - 1) + Binomial(n - 1, k)
  }

  /** Number of ways to choose `k` positions of `s` whose cards' values add up to `t`. */
  function SizedSubsets(s: seq<Card>, k: nat, t: nat): nat
    decreases |s|
  {
    if k == 0 then (if t == 0 then 1 else 0)
    else if s == [] then 0
    else (if CardValue(s[0]) <= t then SizedSubsets(s[1..], k - 1, t - CardValue(s[0])) else 0)
         + SizedSubsets(s[1..], k, t)
  }

  /** Number of sets of positions of `s` (of any size) whose cards' values add up to `t`. */
  function Subsets(s: seq<Card>, t: nat): nat
    decreases |s|
  {
    if s == [] then (if t == 0 then 1 else 0)
    else (if CardValue(s[0]) <= t then Subsets(s[1..], t - CardValue(s[0])) else 0)
         + Subsets(s[1..], t)
  }

  /** Number of sets of at most `k` positions whose values add up to `t`. */
  function SubsetsUpTo(s: seq<Card>, k: nat, t: nat): nat
  {
    if k == 0 then SizedSubsets(s, 0, t) else SubsetsUpTo(s, k - 1, t) + SizedSubsets(s, k, t)
  }

  // ---------------------------------------------------------------------------
  // The enumeration has the expected shape
  // ---------------------------------------------------------------------------

  /** There are n-choose-k combinations of size k. */
  lemma {:induction false} CombinationsLength(s: seq<Card>, k: nat)
    ensures |Combinations(s, k)| == Binomial(|s|, k)
    decreases |s|
  {
    if k != 0 && s != [] {
      CombinationsLength(s[1..], k - 1);
      CombinationsLength(s[1..], k);
    }
  }

  /** Every combination of size k has k cards, each taken from `s`. */
  lemma {:induction false} CombinationAt(s: seq<Card>, k: nat, i: nat)
    requires i < |Combinations(s, k)|
    ensures |Combinations(s, k)[i]| == k && multiset(Combinations(s, k)[i]) <= multiset(s)
    decreases |s|
  {
    if k == 0 {
      assert Combinations(s, k) == [[]];
    } else {
      var with := PrependAll(s[0], Combinations(s[1..], k - 1));
      var without := Combinations(s[1..], k);
      assert Combinations(s, k) == with + without;
      assert s == [s[0]] + s[1..];
      if i < |with| {
        PrependAllAt(s[0], Combinations(s[1..], k - 1), i);
        CombinationAt(s[1..], k - 1, i);
      } else {
        assert Combinations(s, k)[i] == without[i - |with|];
        CombinationAt(s[1..], k, i - |with|);
      }
    }
  }

  /** There are n-choose-k combinations of size k, each with k cards taken from `s`. */
  lemma CombinationsShape(s: seq<Card>, k: nat)
    ensures |Combinations(s, k)| == Binomial(|s|, k)
    ensures forall i :: 0 <= i < |Combinations(s, k)| ==>
              |Combinations(s, k)[i]| == k && multiset(Combinations(s, k)[i]) <= multiset(s)
  {
    CombinationsLength(s, k);
    forall i | 0 <= i < |Combinations(s, k)|
      ensures |Combinations(s, k)[i]| == k && multiset(Combinations(s, k)[i]) <= multiset(s)
    {
      CombinationAt(s, k, i);
    }
  }

  /** n-choose-1 + ... + n-choose-k. */
  function BinomialsUpTo(n: nat, k: nat): nat
  {
    if k == 0 then 0 else BinomialsUpTo(n, k - 1) + Binomial(n, k)
  }

  /** The combinations of sizes 1 through k number n-choose-1 + ... + n-choose-k. */
  lemma {:induction false} CombinationsUpToLength(s: seq<Card>, k: nat)
    ensures |CombinationsUpTo(s, k)| == BinomialsUpTo(|s|, k)
  {
    if k > 0 {
      CombinationsUpToLength(s, k - 1);
      CombinationsLength(s, k);
    }
  }

  function Pow2(n: nat): nat
  {
    if n == 0 then 1 else 2 * Pow2(n - 1)
  }

  /** n-choose-k is zero when k exceeds n. */
  lemma {:induction false} BinomialAbove(n: nat, k: nat)
    requires k > n
    ensures Binomial(n, k) == 0
    decreases n
  {
    if n > 0 {
      BinomialAbove(n - 1, k - 1);
      BinomialAbove(n - 1, k);
    }
  }

  /** Pascal's rule, summed over the sizes 1 through k. */
  lemma {:induction false} BinomialsUpToStep(n: nat, k: nat)
    ensures BinomialsUpTo(n + 1, k) ==
            (if k == 0 then 0 else 1 + BinomialsUpTo(n, k - 1)) + BinomialsUpTo(n, k)
    decreases k
  {
    if k > 0 {
      BinomialsUpToStep(n, k - 1);
    }
  }

  /** n-choose-1 + ... + n-choose-n is 2^n - 1. */
  lemma {:induction false} BinomialsUpToAll(n: nat)
    ensures BinomialsUpTo(n, n) + 1 == Pow2(n)
    decreases n
  {
    if n > 0 {
      BinomialsUpToAll(n - 1);
      BinomialsUpToStep(n - 1, n);
      BinomialAbove(n - 1, n);
    }
  }

  /** n cards have 2^n - 1 non-empty combinations. */
  lemma AllCombinationsCount(s: seq<Card>)
    ensures |CombinationsUpTo(s, |s|)| + 1 == Pow2(|s|)
  {
    CombinationsUpToLength(s, |s|);
    BinomialsUpToAll(|s|);
  }

  /** Five cards have 5 + 10 + 10 + 5 + 1 = 31 non-empty combinations. */
  lemma FiveCardsHave31Combinations(s: seq<Card>)
    requires |s| == 5
    ensures |CombinationsUpTo(s, 5)| == 31
  {
    AllCombinationsCount(s);
  }

  // ---------------------------------------------------------------------------
  // Counting over the enumeration equals the subset count
  // ---------------------------------------------------------------------------

  lemma {:induction false} CountSummingAppend(xs: seq<seq<Card>>, ys: seq<seq<Card>>, t: nat)
    ensures CountSumming(xs + ys, t) == CountSumming(xs, t) + CountSumming(ys, t)
    decreases |xs|
  {
    if xs == [] {
      assert xs + ys == ys;
    } else {
      assert (xs + ys)[1..] == xs[1..] + ys;
      CountSummingAppend(xs[1..], ys, t);
    }
  }

  lemma {:induction false} CountSummingPrepend(x: Card, xs: seq<seq<Card>>, t: nat)
    ensures CountSumming(PrependAll(x, xs), t) ==
            if CardValue(x) <= t then CountSumming(xs, t - CardValue(x)) else 0
    decreases |xs|
  {
    if xs != [] {
      assert PrependAll(x, xs)[1..] == PrependAll(x, xs[1..]);
      CountSummingPrepend(x, xs[1..], t);
      assert ([x] + xs[0])[1..] == xs[0];
    }
  }

  /** The k-combinations of a non-empty `s` that reach `t`: those taking `s[0]`, then the rest. */
  lemma CountCombinationsCons(s: seq<Card>, k: nat, t: nat)
    requires s != [] && k >= 1
    ensures CountSumming(Combinations(s, k), t) ==
            (if CardValue(s[0]) <= t then CountSumming(Combinations(s[1..], k - 1), t - CardValue(s[0])) else 0)
            + CountSumming(Combinations(s[1..], k), t)
  {
    var xs := Combinations(s[1..], k - 1);
    assert Combinations(s, k) == PrependAll(s[0], xs) + Combinations(s[1..], k);
    CountSummingAppend(PrependAll(s[0], xs), Combinations(s[1..], k), t);
    CountSummingPrepend(s[0], xs, t);
  }

  /** There is one 0-combination, the empty one, and it sums to zero. */
  lemma CountCombinationsZero(s: seq<Card>, t: nat)
    ensures CountSumming(Combinations(s, 0), t) == SizedSubsets(s, 0, t)
  {
    assert Combinations(s, 0) == [[]];
    assert CountSumming([[]], t) == (if ValueSum([]) == t then 1 else 0) + CountSumming([], t);
  }

  /** Counting the enumerated k-combinations that reach `t` gives the k-subset count. */
  lemma {:induction false} CountCombinations(s: seq<Card>, k: nat, t: nat)
    ensures CountSumming(Combinations(s, k), t) == SizedSubsets(s, k, t)
    decreases |s|
  {
    if k == 0 {
      CountCombinationsZero(s, t);
    } else if s != [] {
      CountCombinationsCons(s, k, t);
      CountCombinations(s[1..], k, t);
      if CardValue(s[0]) <= t {
        CountCombinations(s[1..], k - 1, t - CardValue(s[0]));
      }
    }
  }

  lemma {:induction false} CountCombinationsUpTo(s: seq<Card>, k: nat, t: nat)
    ensures CountSumming(CombinationsUpTo(s, k), t) + SizedSubsets(s, 0, t) == SubsetsUpTo(s, k, t)
  {
    if k > 0 {
      CountCombinationsUpTo(s, k - 1, t);
      CountSummingAppend(CombinationsUpTo(s, k - 1), Combinations(s, k), t);
      CountCombinations(s, k, t);
    }
  }

  /** Taking the first card or not splits the size-bounded count the way it splits `Subsets`. */
  lemma {:induction false} SubsetsUpToSplit(s: seq<Card>, k: nat, t: nat)
    requires s != [] && k >= 1
    ensures SubsetsUpTo(s, k, t) ==
            SubsetsUpTo(s[1..], k, t) +
            (if CardValue(s[0]) <= t then SubsetsUpTo(s[1..], k - 1, t - CardValue(s[0])) else 0)
  {
    if k > 1 {
      SubsetsUpToSplit(s, k - 1, t);
    }
  }

  /** Bounding the size by at least |s| bounds nothing. */
  lemma {:induction false} SubsetsUpToAll(s: seq<Card>, k: nat, t: nat)
    requires |s| <= k
    ensures SubsetsUpTo(s, k, t) == Subsets(s, t)
    decreases |s|
  {
    if s == [] {
      SubsetsUpToEmpty(k, t);
    } else {
      SubsetsUpToSplit(s, k, t);
      SubsetsUpToAll(s[1..], k, t);
      if CardValue(s[0]) <= t {
        SubsetsUpToAll(s[1..], k - 1, t - CardValue(s[0]));
      }
    }
  }

  lemma {:induction false} SubsetsUpToEmpty(k: nat, t: nat)
    ensures SubsetsUpTo([], k, t) == Subsets([], t)
  {
    if k > 0 {
      SubsetsUpToEmpty(k - 1, t);
    }
  }

  // ---------------------------------------------------------------------------
  // The counts do not depend on the order of the cards
  // ---------------------------------------------------------------------------

  lemma SizedSubsetsSwap(x: Card, y: Card, r: seq<Card>, k: nat, t: nat)
    ensures SizedSubsets([x, y] + r, k, t) == SizedSubsets([y, x] + r, k, t)
  {
    assert ([x, y] + r)[1..] == [y] + r;
    assert ([y, x] + r)[1..] == [x] + r;
    assert ([y] + r)[1..] == r;
    assert ([x] + r)[1..] == r;
    if k > 0 {
      var vx, vy := CardValue(x), CardValue(y);
      SizedSubsetsUnfold([y] + r, y, r, k, t);
      SizedSubsetsUnfold([x] + r, x, r, k, t);
      if vx <= t {
        SizedSubsetsUnfold([y] + r, y, r, k - 1, t - vx);
      }
      if vy <= t {
        SizedSubsetsUnfold([x] + r, x, r, k - 1, t - vy);
      }
    }
  }

  /** The k-subset count of a card followed by `r`: take the card or skip it. */
  lemma SizedSubsetsUnfold(s: seq<Card>, x: Card, r: seq<Card>, k: nat, t: nat)
    requires s == [x] + r
    ensures SizedSubsets(s, k, t) ==
            if k == 0 then (if t == 0 then 1 else 0)
            else (if CardValue(x) <= t then SizedSubsets(r, k - 1, t - CardValue(x)) else 0) + SizedSubsets(r, k, t)
  {
    assert s[1..] == r;
  }

  /** Moving a card to the front does not change the k-subset count. */
  lemma {:induction false} SizedSubsetsToFront(a: seq<Card>, x: Card, b: seq<Card>, k: nat, t: nat)
    ensures SizedSubsets(a + [x] + b, k, t) == SizedSubsets([x] + a + b, k, t)
    decreases |a|
  {
    if a != [] && k > 0 {
      var a0, rest := a[0], a[1..];
      assert a + [x] + b == [a0] + (rest + [x] + b);
      assert [x] + a + b == [x, a0] + (rest + b);
      assert ([a0] + (rest + [x] + b))[1..] == rest + [x] + b;
      assert ([a0, x] + (rest + b))[1..] == [x] + rest + b;
      assert [a0, x] + (rest + b) == [a0] + ([x] + rest + b);
      SizedSubsetsToFront(rest, x, b, k, t);
      if CardValue(a0) <= t {
        SizedSubsetsToFront(rest, x, b, k - 1, t - CardValue(a0));
      }
      SizedSubsetsSwap(a0, x, rest + b, k, t);
    }
  }

  /** The number of k-subsets reaching `t` depends only on the multiset of cards. */
  lemma {:induction false} SizedSubsetsPermutation(s1: seq<Card>, s2: seq<Card>, k: nat, t: nat)
    requires multiset(s1) == multiset(s2)
    ensures SizedSubsets(s1, k, t) == SizedSubsets(s2, k, t)
    decreases |s1|
  {
    if s1 == [] {
      assert |s2| == |multiset(s2)| == 0;
    } else if k > 0 {
      var x := s1[0];
      var p, q := SplitAtFirst(s1, s2);
      assert s1 == [x] + s1[1..];
      SizedSubsetsToFront(p, x, q, k, t);
      SizedSubsetsUnfold([x] + p + q, x, p + q, k, t);
      SizedSubsetsUnfold(s1, x, s1[1..], k, t);
      SizedSubsetsPermutation(s1[1..], p + q, k, t);
      if CardValue(x) <= t {
        SizedSubsetsPermutation(s1[1..], p + q, k - 1, t - CardValue(x));
      }
    }
  }

  /** The size-bounded subset count depends only on the multiset of cards. */
  lemma {:induction false} SubsetsUpToPermutation(s1: seq<Card>, s2: seq<Card>, k: nat, t: nat)
    requires multiset(s1) == multiset(s2)
    ensures SubsetsUpTo(s1, k, t) == SubsetsUpTo(s2, k, t)
  {
    SizedSubsetsPermutation(s1, s2, k, t);
    if k > 0 {
      SubsetsUpToPermutation(s1, s2, k - 1, t);
    }
  }

  /**
   * For at most five cards, counting the combinations of sizes 1..5 that reach
   * a non-zero total counts every non-empty subset that reaches it.
   */
  lemma CombinationsCountAllSubsets(s: seq<Card>, t: nat)
    requires |s| <= 5 && t != 0
    ensures CountSumming(CombinationsUpTo(s, 5), t) == Subsets(s, t)
  {
    CountCombinationsUpTo(s, 5, t);
    SubsetsUpToAll(s, 5, t);
  }
}
