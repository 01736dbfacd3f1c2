/**
 * Playing cards: ranks, suits, the face value used for counting, the order a
 * hand is kept in, the bracketed text form of a card, and the 13-slot
 * rank-count arrays that both scorers build.
 *
 * Ranks carry the dense ordinal Ace = 0 .. King = 12 that the counting arrays
 * of the scorers index by.
 */
module Cards {

  datatype Rank = Ace | Two | Three | Four | Five | Six | Seven | Eight | Nine | Ten | Jack | Queen | King

  datatype Suit = Hearts | Clubs | Diamonds | Spades

  datatype Card = Card(rank: Rank, suit: Suit)

  /** Number of distinct ranks: the size of every rank-count array. */
  const RankCount: nat := 13

  // ---------------------------------------------------------------------------
  // Rank ordinal and face value
  // ---------------------------------------------------------------------------

  /** The rank's slot in a counting array (`rank as usize`). */
  function Ordinal(r: Rank): (n: nat)
    ensures n < RankCount
  {
    match r
    case Ace => 0
    case Two => 1
    case Three => 2
    case Four => 3
    case Five => 4
    case Six => 5
    case Seven => 6
    case Eight => 7
    case Nine => 8
    case Ten => 9
    case Jack => 10
    case Queen => 11
    case King => 12
  }

  /** The rank whose ordinal is `n`. */
  function RankAt(n: nat): (r: Rank)
    requires n < RankCount
    ensures Ordinal(r) == n
  {
    [Ace, Two, Three, Four, Five, Six, Seven, Eight, Nine, Ten, Jack, Queen, King][n]
  }

  /** Ordinals identify ranks: no two ranks share a counting slot. */
  lemma OrdinalInjective(a: Rank, b: Rank)
    ensures Ordinal(a) == Ordinal(b) <==> a == b
  {
    if Ordinal(a) == Ordinal(b) {
      assert RankAt(Ordinal(a)) == a by { RankAtOrdinal(a); }
      assert RankAt(Ordinal(b)) == b by { RankAtOrdinal(b); }
    }
  }

  lemma RankAtOrdinal(r: Rank)
    ensures RankAt(Ordinal(r)) == r
  {
  }

  /** The face value a card adds to a fifteen or to the play stack. */
  function Value(r: Rank): (v: nat)
    ensures 1 <= v <= 10
    ensures v == if Ordinal(r) < 10 then Ordinal(r) + 1 else 10
  {
    match r
    case Ace => 1
    case Two => 2
    case Three => 3
    case Four => 4
    case Five => 5
    case Six => 6
    case Seven => 7
    case Eight => 8
    case Nine => 9
    case Ten => 10
    case Jack => 10
    case Queen => 10
    case King => 10
  }

  function CardValue(c: Card): nat
  {
    Value(c.rank)
  }

  // ---------------------------------------------------------------------------
  // Card order: by rank, then Hearts < Spades < Diamonds < Clubs
  // ---------------------------------------------------------------------------

  function SuitPosition(s: Suit): (n: nat)
    ensures n < 4
  {
    match s
    case Hearts => 0
    case Spades => 1
    case Diamonds => 2
    case Clubs => 3
  }

  /** The card's position in the total order a hand is sorted by. */
  function SortKey(c: Card): nat
  {
    Ordinal(c.rank) * 4 + SuitPosition(c.suit)
  }

  predicate CardLess(a: Card, b: Card)
  {
    SortKey(a) < SortKey(b)
  }

  predicate CardLe(a: Card, b: Card)
  {
    SortKey(a) <= SortKey(b)
  }

  /** Distinct cards have distinct keys, so the order is total and antisymmetric. */
  lemma SortKeyInjective(a: Card, b: Card)
    ensures SortKey(a) == SortKey(b) <==> a == b
  {
    OrdinalInjective(a.rank, b.rank);
  }

  /** The card order orders first by rank and breaks ties by suit. */
  lemma CardLessByRankThenSuit(a: Card, b: Card)
    ensures CardLess(a, b) <==>
              Ordinal(a.rank) < Ordinal(b.rank) ||
              (a.rank == b.rank && SuitPosition(a.suit) < SuitPosition(b.suit))
  {
    OrdinalInjective(a.rank, b.rank);
  }

  lemma CardLeTotal(a: Card, b: Card)
    ensures CardLe(a, b) || CardLe(b, a)
    ensures CardLe(a, b) && CardLe(b, a) ==> a == b
    ensures !CardLess(a, b) <==> CardLe(b, a)
  {
    SortKeyInjective(a, b);
  }

  // ---------------------------------------------------------------------------
  // Text form: "[" rank suit "]"
  // ---------------------------------------------------------------------------

  function DigitChar(d: nat): char
    requires d < 10
  {
    ['0', '1', '2', '3', '4', '5', '6', '7', '8', '9'][d]
  }

  /** The decimal digits of `n`, most significant first. */
  function DecimalText(n: nat): string
    decreases n
  {
    if n < 10 then [DigitChar(n)] else DecimalText(n / 10) + [DigitChar(n % 10)]
  }

  /** The rank's text: its number for Two..Ten, a letter for the court cards and the Ace. */
  function RankText(r: Rank): (t: string)
    ensures 1 <= Ordinal(r) <= 9 ==> t == DecimalText(Ordinal(r) + 1)
    ensures r == Ace ==> t == "A"
    ensures r == Jack ==> t == "J"
    ensures r == Queen ==> t == "Q"
    ensures r == King ==> t == "K"
  {
    match r
    case Two => "2"
    case Three => "3"
    case Four => "4"
    case Five => "5"
    case Six => "6"
    case Seven => "7"
    case Eight => "8"
    case Nine => "9"
    case Ten => "10"
    case Jack => "J"
    case Queen => "Q"
    case King => "K"
    case Ace => "A"
  }

  /** The suit's symbol: the Unicode heart, club, diamond and spade signs. */
  function SuitSymbol(s: Suit): (ch: char)
    ensures s == Hearts ==> ch as int == 0x2665
    ensures s == Clubs ==> ch as int == 0x2663
    ensures s == Diamonds ==> ch as int == 0x2666
    ensures s == Spades ==> ch as int == 0x2660
  {
    match s
    case Hearts => '\U{2665}'
    case Clubs => '\U{2663}'
    case Diamonds => '\U{2666}'
    case Spades => '\U{2660}'
  }

  /** `Display` for a card: the rank text and the suit symbol in square brackets. */
  function CardText(c: Card): (t: string)
    ensures 4 <= |t| <= 5
    ensures t[0] == '[' && t[|t| - 1] == ']' && t[|t| - 2] == SuitSymbol(c.suit)
    ensures t[1..|t| - 2] == RankText(c.rank)
  {
    "[" + RankText(c.rank) + [SuitSymbol(c.suit)] + "]"
  }

  /** Distinct cards render as distinct text. */
  lemma CardTextInjective(a: Card, b: Card)
    requires CardText(a) == CardText(b)
    ensures a == b
  {
    var t := CardText(a);
    assert SuitSymbol(a.suit) == SuitSymbol(b.suit);
    assert RankText(a.rank) == t[1..|t| - 2] == RankText(b.rank);
    match a.rank {
      case Ace =>
      case Two =>
      case Three =>
      case Four =>
      case Five =>
      case Six =>
      case Seven =>
      case Eight =>
      case Nine =>
      case Ten => assert RankText(b.rank) == "10";
      case Jack =>
      case Queen =>
      case King =>
    }
  }

  // ---------------------------------------------------------------------------
  // Rank-count arrays
  // ---------------------------------------------------------------------------

  function Zeros(n: nat): (z: seq<nat>)
    ensures |z| == n && forall k :: 0 <= k < n ==> z[k] == 0
  {
    seq(n, _ => 0)
  }

  /** `add_rank_to_array`: one more card in the slot of `c`'s rank. */
  function AddRank(counts: seq<nat>, c: Card): (r: seq<nat>)
    requires |counts| == RankCount
    ensures |r| == RankCount
    ensures r[Ordinal(c.rank)] == counts[Ordinal(c.rank)] + 1
    ensures forall k :: 0 <= k < RankCount && k != Ordinal(c.rank) ==> r[k] == counts[k]
  {
    counts[Ordinal(c.rank) := counts[Ordinal(c.rank)] + 1]
  }

  /** The 13-slot array after adding every card of `s` in order. */
  function RankCounts(s: seq<Card>): (r: seq<nat>)
    ensures |r| == RankCount
    decreases |s|
  {
    if s == [] then Zeros(RankCount) else AddRank(RankCounts(s[..|s| - 1]), s[|s| - 1])
  }

  /** Number of cards of `s` whose rank has ordinal `k`. */
  function CountOrd(s: seq<Card>, k: nat): nat
    decreases |s|
  {
    if s == [] then 0
    else CountOrd(s[..|s| - 1], k) + (if Ordinal(s[|s| - 1].rank) == k then 1 else 0)
  }

  /** Slot `k` of the count array holds exactly the number of cards of that rank. */
  lemma {:induction false} RankCountsAt(s: seq<Card>, k: nat)
    requires k < RankCount
    ensures RankCounts(s)[k] == CountOrd(s, k)
    decreases |s|
  {
    if s != [] {
      RankCountsAt(s[..|s| - 1], k);
    }
  }

  function Sum(c: seq<nat>): nat
    decreases |c|
  {
    if c == [] then 0 else Sum(c[..|c| - 1]) + c[|c| - 1]
  }

  lemma {:induction false} SumAppend(a: seq<nat>, b: seq<nat>)
    ensures Sum(a + b) == Sum(a) + Sum(b)
    decreases |b|
  {
    if b == [] {
      assert a + b == a;
    } else {
      assert (a + b)[..|a + b| - 1] == a + b[..|b| - 1];
      SumAppend(a, b[..|b| - 1]);
    }
  }

  /** Raising one slot by one raises the total by one. */
  lemma SumIncrement(c: seq<nat>, k: nat)
    requires k < |c|
    ensures Sum(c[k := c[k] + 1]) == Sum(c) + 1
  {
    var d := c[k := c[k] + 1];
    assert c == c[..k] + [c[k]] + c[k + 1..];
    assert d == c[..k] + [c[k] + 1] + c[k + 1..];
    SumAppend(c[..k] + [c[k]], c[k + 1..]);
    SumAppend(c[..k], [c[k]]);
    SumAppend(c[..k] + [c[k] + 1], c[k + 1..]);
    SumAppend(c[..k], [c[k] + 1]);
  }

  /** Every card lands in exactly one slot: the counts add up to the number of cards. */
  lemma {:induction false} SumRankCounts(s: seq<Card>)
    ensures Sum(RankCounts(s)) == |s|
    decreases |s|
  {
    if s == [] {
      ZerosSum(RankCount);
    } else {
      SumRankCounts(s[..|s| - 1]);
      SumIncrement(RankCounts(s[..|s| - 1]), Ordinal(s[|s| - 1].rank));
    }
  }

  lemma {:induction false} ZerosSum(n: nat)
    ensures Sum(Zeros(n)) == 0
  {
    if n > 0 {
      assert Zeros(n)[..n - 1] == Zeros(n - 1);
      ZerosSum(n - 1);
    }
  }

  // ---------------------------------------------------------------------------
  // Rearrangements
  // ---------------------------------------------------------------------------

  /**
   * When `s2` holds the same cards as a non-empty `s1`, it holds `s1[0]`
   * somewhere, with the rest of `s2` around it holding the rest of `s1`.
   */
  lemma SplitAtFirst(s1: seq<Card>, s2: seq<Card>) returns (p: seq<Card>, q: seq<Card>)
    requires s1 != [] && multiset(s1) == multiset(s2)
    ensures s2 == p + [s1[0]] + q
    ensures multiset(s1[1..]) == multiset(p + q)
  {
    var x := s1[0];
    assert x in multiset(s2);
    var j :| 0 <= j < |s2| && s2[j] == x;
    p, q := s2[..j], s2[j + 1..];
    assert s2 == p + [x] + q;
    assert s1 == [x] + s1[1..];
    assert multiset(s2) == multiset(p + q) + multiset{x};
    assert multiset(s1) == multiset(s1[1..]) + multiset{x};
    assert multiset(s1[1..]) == multiset(s1) - multiset{x};
    assert multiset(p + q) == multiset(s2) - multiset{x};
  }
}
