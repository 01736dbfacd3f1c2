/**
 * A hand of cards kept in card order, with removal by position and by value.
 *
 * The hand is only ever built by `new`, `add_card` and the conversion from a
 * vector of cards, each of which leaves it sorted; `Valid` is that invariant.
 * Pushing a card onto a sorted vector and sorting again places the card in
 * front of the first strictly greater card, which is what `Insert` describes.
 */
module Hands {
  import opened Cards
  import opened Wrappers

  /** Every card is no greater than any card after it. */
  predicate Sorted(s: seq<Card>)
  {
    forall i, j :: 0 <= i < j < |s| ==> CardLe(s[i], s[j])
  }

  /** `c` placed in front of the first card of `s` that is greater than it. */
  function Insert(s: seq<Card>, c: Card): seq<Card>
    decreases |s|
  {
    if s == [] then [c]
    else if CardLess(c, s[0]) then [c] + s
    else [s[0]] + Insert(s[1..], c)
  }

  /** The cards of `s` added one at a time, in order, to an initially sorted `acc`. */
  function InsertAll(acc: seq<Card>, s: seq<Card>): seq<Card>
    decreases |s|
  {
    if s == [] then acc else InsertAll(Insert(acc, s[0]), s[1..])
  }

  /** The position of the first occurrence of `c` in `s` (`iter().position`). */
  function IndexOf(s: seq<Card>, c: Card): (i: nat)
    requires c in s
    ensures i < |s| && s[i] == c
    ensures forall k :: 0 <= k < i ==> s[k] != c
    decreases |s|
  {
    if s[0] == c then 0 else 1 + IndexOf(s[1..], c)
  }

  /** `s` without its element at position `i` (`Vec::remove`). */
  function RemoveAt(s: seq<Card>, i: nat): seq<Card>
    requires i < |s|
  {
    s[..i] + s[i + 1..]
  }

  // ---------------------------------------------------------------------------
  // Facts about insertion and sortedness
  // ---------------------------------------------------------------------------

  /** Inserting keeps the cards and adds `c`. */
  lemma {:induction false} InsertCards(s: seq<Card>, c: Card)
    ensures multiset(Insert(s, c)) == multiset(s) + multiset{c}
    ensures |Insert(s, c)| == |s| + 1
    decreases |s|
  {
    if s != [] && !CardLess(c, s[0]) {
      InsertCards(s[1..], c);
      assert s == [s[0]] + s[1..];
    }
  }

  /** A card no greater than `c` and every card of `s` is no greater than any card of the insertion. */
  lemma {:induction false} InsertBounded(s: seq<Card>, c: Card, b: Card)
    requires CardLe(b, c)
    requires forall k :: 0 <= k < |s| ==> CardLe(b, s[k])
    ensures forall k :: 0 <= k < |Insert(s, c)| ==> CardLe(b, Insert(s, c)[k])
    decreases |s|
  {
    if s != [] && !CardLess(c, s[0]) {
      InsertBounded(s[1..], c, b);
      var r := Insert(s, c);
      forall k | 0 <= k < |r| ensures CardLe(b, r[k]) {
        if k > 0 {
          assert r[k] == Insert(s[1..], c)[k - 1];
        }
      }
    }
  }

  /** Inserting into a sorted sequence keeps it sorted. */
  lemma {:induction false} InsertSorted(s: seq<Card>, c: Card)
    requires Sorted(s)
    ensures Sorted(Insert(s, c))
    decreases |s|
  {
    if s != [] {
      if CardLess(c, s[0]) {
        var r := [c] + s;
        forall i, j | 0 <= i < j < |r| ensures CardLe(r[i], r[j]) {
          if i == 0 {
            assert CardLe(s[0], s[j - 1]) || j - 1 == 0;
          }
        }
      } else {
        var t := Insert(s[1..], c);
        InsertSorted(s[1..], c);
        CardLeTotal(c, s[0]);
        InsertBounded(s[1..], c, s[0]);
        var r := [s[0]] + t;
        forall i, j | 0 <= i < j < |r| ensures CardLe(r[i], r[j]) {
          if i > 0 {
            assert r[i] == t[i - 1] && r[j] == t[j - 1];
          } else {
            assert r[j] == t[j - 1];
          }
        }
      }
    }
  }

  /** Inserting keeps the cards, adds one, and keeps the sequence sorted. */
  lemma InsertSortedPermutation(s: seq<Card>, c: Card)
    requires Sorted(s)
    ensures Sorted(Insert(s, c))
    ensures multiset(Insert(s, c)) == multiset(s) + multiset{c}
    ensures |Insert(s, c)| == |s| + 1
  {
    InsertSorted(s, c);
    InsertCards(s, c);
  }

  /** Placing `c` at a position before which nothing is greater and after which everything is. */
  lemma {:induction false} InsertAt(s: seq<Card>, c: Card, i: nat)
    requires i <= |s|
    requires forall k :: 0 <= k < i ==> !CardLess(c, s[k])
    requires i < |s| ==> CardLess(c, s[i])
    ensures Insert(s, c) == s[..i] + [c] + s[i..]
    decreases i
  {
    if i == 0 {
      if s != [] {
        assert s[i..] == s;
      }
    } else {
      InsertAt(s[1..], c, i - 1);
      assert s[..i] == [s[0]] + s[1..][..i - 1];
      assert s[i..] == s[1..][i - 1..];
    }
  }

  /** A card no smaller than every card of `s` goes to the end. */
  lemma {:induction false} InsertLast(s: seq<Card>, c: Card)
    requires forall k :: 0 <= k < |s| ==> CardLe(s[k], c)
    ensures Insert(s, c) == s + [c]
    decreases |s|
  {
    if s != [] {
      InsertLast(s[1..], c);
      assert s == [s[0]] + s[1..];
    }
  }

  /** Adding the cards one by one sorts them and keeps every card. */
  lemma {:induction false} InsertAllSortedPermutation(acc: seq<Card>, s: seq<Card>)
    requires Sorted(acc)
    ensures Sorted(InsertAll(acc, s))
    ensures multiset(InsertAll(acc, s)) == multiset(acc) + multiset(s)
    decreases |s|
  {
    if s != [] {
      InsertSortedPermutation(acc, s[0]);
      InsertAllSortedPermutation(Insert(acc, s[0]), s[1..]);
      assert s == [s[0]] + s[1..];
    }
  }

  /** Already sorted cards come back in the same order. */
  lemma {:induction false} InsertAllSorted(acc: seq<Card>, s: seq<Card>)
    requires Sorted(acc + s)
    ensures InsertAll(acc, s) == acc + s
    decreases |s|
  {
    if s != [] {
      forall k | 0 <= k < |acc| ensures CardLe(acc[k], s[0]) {
        assert (acc + s)[k] == acc[k] && (acc + s)[|acc|] == s[0];
      }
      InsertLast(acc, s[0]);
      assert acc + s == (acc + [s[0]]) + s[1..];
      InsertAllSorted(acc + [s[0]], s[1..]);
    }
  }

  /** The first card of a sorted sequence is no greater than any card in it. */
  lemma SortedHeadLeast(a: seq<Card>, x: Card)
    requires Sorted(a) && x in a
    ensures CardLe(a[0], x)
  {
    var i :| 0 <= i < |a| && a[i] == x;
    assert i == 0 || CardLe(a[0], a[i]);
  }

  /** There is only one sorted arrangement of a collection of cards. */
  lemma {:induction false} SortedUnique(a: seq<Card>, b: seq<Card>)
    requires Sorted(a) && Sorted(b) && multiset(a) == multiset(b)
    ensures a == b
    decreases |a|
  {
    if a != [] {
      assert a[0] in multiset(b);
      assert b[0] in multiset(a);
      SortedHeadLeast(a, b[0]);
      SortedHeadLeast(b, a[0]);
      CardLeTotal(a[0], b[0]);
      assert a[0] == b[0];
      assert a == [a[0]] + a[1..];
      assert b == [b[0]] + b[1..];
      assert multiset(a) == multiset{a[0]} + multiset(a[1..]);
      assert multiset(b) == multiset{b[0]} + multiset(b[1..]);
      assert multiset(a[1..]) == multiset(a) - multiset{a[0]};
      assert multiset(b[1..]) == multiset(b) - multiset{b[0]};
      SortedUnique(a[1..], b[1..]);
    }
  }

  /** Removing a card keeps the rest in order. */
  lemma RemoveAtSorted(s: seq<Card>, i: nat)
    requires i < |s| && Sorted(s)
    ensures Sorted(RemoveAt(s, i))
    ensures multiset(RemoveAt(s, i)) == multiset(s) - multiset{s[i]}
  {
    var r := RemoveAt(s, i);
    forall p, q | 0 <= p < q < |r| ensures CardLe(r[p], r[q]) {
      var p' := if p < i then p else p + 1;
      var q' := if q < i then q else q + 1;
      assert r[p] == s[p'] && r[q] == s[q'];
    }
    assert s == s[..i] + [s[i]] + s[i + 1..];
  }

  // ---------------------------------------------------------------------------
  // The hand
  // ---------------------------------------------------------------------------

  class Hand {
    var cards: seq<Card>

    predicate Valid()
      reads this
    {
      Sorted(cards)
    }

    /** `Hand::new`: an empty hand. */
    constructor ()
      ensures cards == []
      ensures Valid()
    {
      cards := [];
    }

    /** `From<Vec<Card>>`: a new hand with each card of `input` added in turn. */
    constructor FromCards(input: seq<Card>)
      ensures Valid()
      ensures cards == InsertAll([], input)
      ensures multiset(cards) == multiset(input)
      ensures Sorted(input) ==> cards == input
    {
      cards := [];
      new;
      var i := 0;
      while i < |input|
        invariant 0 <= i <= |input|
        invariant Valid()
        invariant InsertAll(cards, input[i..]) == InsertAll([], input)
      {
        assert input[i..] == [input[i]] + input[i + 1..];
        AddCard(input[i]);
        i := i + 1;
      }
      assert input[i..] == [];
      InsertAllSortedPermutation([], input);
      if Sorted(input) {
        assert [] + input == input;
        InsertAllSorted([], input);
      }
    }

    /** `add_card`: push the card and sort, i.e. insert it in order. */
    method AddCard(c: Card)
      requires Valid()
      modifies this
      ensures Valid()
      ensures cards == Insert(old(cards), c)
      ensures multiset(cards) == multiset(old(cards)) + multiset{c}
    {
      var i := 0;
      while i < |cards| && !CardLess(c, cards[i])
        invariant 0 <= i <= |cards|
        invariant forall k :: 0 <= k < i ==> !CardLess(c, cards[k])
      {
        i := i + 1;
      }
      InsertAt(cards, c, i);
      InsertSortedPermutation(cards, c);
      cards := cards[..i] + [c] + cards[i..];
    }

    /** `discard`: remove and return the card at `index`, or report it out of bounds. */
    method Discard(index: nat) returns (r: Result<Card, string>)
      requires Valid()
      modifies this
      ensures Valid()
      ensures index >= |old(cards)| ==> r == Err("Out of Bounds!") && cards == old(cards)
      ensures index < |old(cards)| ==>
                r == Ok(old(cards)[index]) && cards == RemoveAt(old(cards), index)
    {
      if index >= |cards| {
        return Err("Out of Bounds!");
      }
      var card := cards[index];
      RemoveAtSorted(cards, index);
      cards := RemoveAt(cards, index);
      r := Ok(card);
    }

    /** `discard_matching`: remove and return the first card equal to `c`, if any. */
    method DiscardMatching(c: Card) returns (r: Option<Card>)
      requires Valid()
      modifies this
      ensures Valid()
      ensures c !in old(cards) ==> r == None && cards == old(cards)
      ensures c in old(cards) ==> r == Some(c) && cards == RemoveAt(old(cards), IndexOf(old(cards), c))
    {
      var i := 0;
      while i < |cards| && cards[i] != c
        invariant 0 <= i <= |cards|
        invariant forall k :: 0 <= k < i ==> cards[k] != c
      {
        i := i + 1;
      }
      if i == |cards| {
        return None;
      }
      RemoveAtSorted(cards, i);
      cards := RemoveAt(cards, i);
      r := Some(c);
    }

    /** `as_vec`: the hand's own cards, in their sorted order. */
    function AsVec(): (v: seq<Card>)
      reads this
      ensures v == cards
      ensures Valid() ==> Sorted(v)
      ensures |v| == |cards|
    {
      cards
    }
  }

}
