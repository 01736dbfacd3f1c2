/** The hand's documented behaviour on the cards its tests use. */
module HandExamples {
  import opened Cards
  import opened Wrappers
  import opened Hands

  /** `add_card` when the caller knows where the card belongs: position `i`. */
  method AddCardAt(hand: Hand, c: Card, i: nat)
    requires hand.Valid() && i <= |hand.cards|
    requires forall k :: 0 <= k < i ==> !CardLess(c, hand.cards[k])
    requires i < |hand.cards| ==> CardLess(c, hand.cards[i])
    modifies hand
    ensures hand.Valid()
    ensures hand.cards == old(hand.cards[..i]) + [c] + old(hand.cards[i..])
  {
    InsertAt(hand.cards, c, i);
    hand.AddCard(c);
  }

  /** Seven cards added in scrambled order come out in card order. */
  method AddCardSorts() returns (v: seq<Card>)
    ensures v == [Card(Ace, Clubs), Card(Two, Hearts), Card(Two, Spades), Card(Three, Hearts),
                  Card(Four, Spades), Card(Ten, Clubs), Card(Queen, Diamonds)]
  {
    var ace, two, three, four := Card(Ace, Clubs), Card(Two, Spades), Card(Three, Hearts), Card(Four, Spades);
    var queen, twoHearts, ten := Card(Queen, Diamonds), Card(Two, Hearts), Card(Ten, Clubs);
    var hand := new Hand();
    AddScrambledFour(hand, ace, two, three, four);
    AddCardAt(hand, queen, 4);
    assert hand.cards == [ace, two, three, four, queen];
    AddCardAt(hand, twoHearts, 1);
    assert hand.cards == [ace, twoHearts, two, three, four, queen];
    AddCardAt(hand, ten, 5);
    assert hand.cards == [ace, twoHearts, two, three, four, ten, queen];
    v := hand.AsVec();
  }

  /** A♣, 4♠, 3♥ and 2♠ added in turn to an empty hand end up as A♣ 2♠ 3♥ 4♠. */
  method AddScrambledFour(hand: Hand, ace: Card, two: Card, three: Card, four: Card)
    requires ace == Card(Ace, Clubs) && two == Card(Two, Spades)
    requires three == Card(Three, Hearts) && four == Card(Four, Spades)
    requires hand.Valid() && hand.cards == []
    modifies hand
    ensures hand.Valid() && hand.cards == [ace, two, three, four]
  {
    AddCardAt(hand, ace, 0);
    assert hand.cards == [ace];
    AddCardAt(hand, four, 1);
    assert hand.cards == [ace, four];
    AddCardAt(hand, three, 1);
    assert hand.cards == [ace, three, four];
    AddCardAt(hand, two, 1);
  }

  /**
   * From A♣ 2♠ 3♥ 4♠, discarding position 2 gives 3♥; three discards at 0
   * end with 4♠; one more is out of bounds.
   */
  method DiscardInOrder() returns (first: Result<Card, string>, third: Result<Card, string>,
                                   last: Result<Card, string>)
    ensures first == Ok(Card(Three, Hearts))
    ensures third == Ok(Card(Four, Spades))
    ensures last == Err("Out of Bounds!")
  {
    var ace, two, three, four := Card(Ace, Clubs), Card(Two, Spades), Card(Three, Hearts), Card(Four, Spades);
    var hand := new Hand();
    AddScrambledFour(hand, ace, two, three, four);
    var rest := [ace, two, four];
    assert RemoveAt([ace, two, three, four], 2) == rest;
    first := hand.Discard(2);
    third := first;
    for n := 0 to 3
      invariant hand.Valid() && hand.cards == rest[n..]
      invariant n > 0 ==> third == Ok(rest[n - 1])
    {
      third := hand.Discard(0);
      assert rest[n..][1..] == rest[n + 1..];
    }
    last := hand.Discard(0);
  }

  /** Cards added out of order are handed back sorted. */
  method AsVecSorted() returns (v: seq<Card>)
    ensures v == [Card(Ace, Clubs), Card(Two, Spades), Card(Three, Hearts), Card(Four, Spades)]
  {
    var hand := new Hand();
    AddScrambledFour(hand, Card(Ace, Clubs), Card(Two, Spades), Card(Three, Hearts), Card(Four, Spades));
    v := hand.AsVec();
  }

  /** A card present is removed and returned; one absent gives nothing. */
  method DiscardMatchingPresentAndAbsent() returns (d1: Option<Card>, d2: Option<Card>)
    ensures d1 == Some(Card(Ace, Clubs))
    ensures d2 == None
  {
    var ace, two, three, four := Card(Ace, Clubs), Card(Two, Spades), Card(Three, Hearts), Card(Four, Spades);
    var hand := new Hand();
    AddScrambledFour(hand, ace, two, three, four);
    d1 := hand.DiscardMatching(ace);
    assert hand.cards == [two, three, four];
    d2 := hand.DiscardMatching(Card(Ace, Diamonds));
  }

  /** Converting an already sorted vector keeps it as it is. */
  method FromSortedVector() returns (v: seq<Card>)
    ensures v == [Card(Ace, Clubs), Card(Two, Spades), Card(Three, Hearts), Card(Four, Spades)]
  {
    var cards := [Card(Ace, Clubs), Card(Two, Spades), Card(Three, Hearts), Card(Four, Spades)];
    assert Sorted(cards);
    var hand := new Hand.FromCards(cards);
    assert hand.cards == cards;
    v := hand.AsVec();
  }
}
