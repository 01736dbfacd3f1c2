/**
 * The 52-card deck in the order it is built: suit by suit (Clubs, Spades,
 * Diamonds, Hearts), and within a suit Ace up to King; and its text form, one
 * card per line.
 */
module Decks {
  import opened Cards

  datatype Deck = Deck(cards: seq<Card>)

  /** The suits in the order the deck is built. */
  const SuitOrder: seq<Suit> := [Clubs, Spades, Diamonds, Hearts]

  const DeckSize: nat := 52

  /** The card at position `i` of a new deck: suit-major, rank-minor. */
  function DeckCard(i: nat): Card
    requires i < DeckSize
  {
    Card(RankAt(i % RankCount), SuitOrder[i / RankCount])
  }

  /** The position of a suit in `SuitOrder`. */
  function SuitIndex(s: Suit): (n: nat)
    ensures n < |SuitOrder| && SuitOrder[n] == s
  {
    match s
    case Clubs => 0
    case Spades => 1
    case Diamonds => 2
    case Hearts => 3
  }

  /** Where a card sits in a new deck. */
  function DeckIndex(c: Card): (i: nat)
    ensures i < DeckSize
  {
    SuitIndex(c.suit) * RankCount + Ordinal(c.rank)
  }

  /** `DeckIndex` and `DeckCard` are inverse: every card has exactly one position. */
  lemma DeckIndexInverse(c: Card, i: nat)
    requires i < DeckSize
    ensures DeckCard(DeckIndex(c)) == c
    ensures DeckIndex(DeckCard(i)) == i
  {
    var j := DeckIndex(c);
    assert j / RankCount == SuitIndex(c.suit) && j % RankCount == Ordinal(c.rank);
    OrdinalInjective(RankAt(j % RankCount), c.rank);
    var d := DeckCard(i);
    assert SuitIndex(SuitOrder[i / RankCount]) == i / RankCount;
  }

  /** `Deck::new`: for each suit in turn, push the thirteen ranks in order. */
  method NewDeck() returns (d: Deck)
    ensures |d.cards| == DeckSize
    ensures forall i :: 0 <= i < |d.cards| ==> d.cards[i] == DeckCard(i)
    ensures d.cards[0] == Card(Ace, Clubs)
    ensures forall c: Card :: c in d.cards
    ensures forall i, j :: 0 <= i < j < |d.cards| ==> d.cards[i] != d.cards[j]
  {
    var ranks := [Ace, Two, Three, Four, Five, Six, Seven, Eight, Nine, Ten, Jack, Queen, King];
    var suits := SuitOrder;
    var cards: seq<Card> := [];
    for si := 0 to |suits|
      invariant |cards| == si * RankCount
      invariant forall i :: 0 <= i < |cards| ==> cards[i] == DeckCard(i)
    {
      for ri := 0 to |ranks|
        invariant |cards| == si * RankCount + ri
        invariant forall i :: 0 <= i < |cards| ==> cards[i] == DeckCard(i)
      {
        DivModPosition(si, ri);
        cards := cards + [Card(ranks[ri], suits[si])];
      }
    }
    d := Deck(cards);
    forall c: Card ensures c in d.cards {
      DeckIndexInverse(c, 0);
    }
    forall i, j | 0 <= i < j < |d.cards| ensures d.cards[i] != d.cards[j] {
      DeckIndexInverse(d.cards[i], i);
      DeckIndexInverse(d.cards[j], j);
    }
  }

  /** Position `si * 13 + ri` holds rank `ri` of suit `si`. */
  lemma DivModPosition(si: nat, ri: nat)
    requires si < |SuitOrder| && ri < RankCount
    ensures (si * RankCount + ri) / RankCount == si
    ensures (si * RankCount + ri) % RankCount == ri
    ensures DeckCard(si * RankCount + ri) == Card(RankAt(ri), SuitOrder[si])
  {
  }

  // ---------------------------------------------------------------------------
  // Display
  // ---------------------------------------------------------------------------

  /** Each card's text preceded by a newline, in deck order. */
  function DeckText(s: seq<Card>): string
    decreases |s|
  {
    if s == [] then "" else DeckText(s[..|s| - 1]) + "\n" + CardText(s[|s| - 1])
  }

  /** `Display` for a deck: write "\n" and the card for each card in turn. */
  method DisplayDeck(d: Deck) returns (out: string)
    ensures out == DeckText(d.cards)
  {
    out := "";
    for i := 0 to |d.cards|
      invariant out == DeckText(d.cards[..i])
    {
      assert d.cards[..i + 1][..i] == d.cards[..i];
      out := out + "\n" + CardText(d.cards[i]);
    }
    assert d.cards[..|d.cards|] == d.cards;
  }

  /** Number of newline characters in `t`. */
  function Newlines(t: string): nat
    decreases |t|
  {
    if t == [] then 0 else Newlines(t[..|t| - 1]) + (if t[|t| - 1] == '\n' then 1 else 0)
  }

  lemma {:induction false} NewlinesAppend(a: string, b: string)
    ensures Newlines(a + b) == Newlines(a) + Newlines(b)
    decreases |b|
  {
    if b == [] {
      assert a + b == a;
    } else {
      assert (a + b)[..|a + b| - 1] == a + b[..|b| - 1];
      NewlinesAppend(a, b[..|b| - 1]);
    }
  }

  /** A card's text holds no newline. */
  lemma CardTextNoNewline(c: Card)
    ensures Newlines(CardText(c)) == 0
  {
    var t := CardText(c);
    var r := RankText(c.rank);
    assert t == "[" + r + [SuitSymbol(c.suit)] + "]";
    NewlinesAppend("[" + r + [SuitSymbol(c.suit)], "]");
    NewlinesAppend("[" + r, [SuitSymbol(c.suit)]);
    NewlinesAppend("[", r);
    assert Newlines(r) == 0 by {
      if |r| == 2 {
        assert r == "10";
        assert r[..1] == "1";
      }
    }
  }

  /** The deck's text has exactly one line per card. */
  lemma {:induction false} DeckTextLines(s: seq<Card>)
    ensures Newlines(DeckText(s)) == |s|
    decreases |s|
  {
    if s != [] {
      var init := DeckText(s[..|s| - 1]);
      DeckTextLines(s[..|s| - 1]);
      NewlinesAppend(init + "\n", CardText(s[|s| - 1]));
      NewlinesAppend(init, "\n");
      CardTextNoNewline(s[|s| - 1]);
    }
  }
}
