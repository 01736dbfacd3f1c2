/**
 * The scripted card chooser: a first-in first-out queue of card indices,
 * handed out one per request, that must each fit the cards on offer.
 */
module Controllers {
  import opened Cards
  import opened Wrappers

  class PredeterminedController {
    var cardIndices: seq<nat>

    /** `From<Vec<usize>>`: the queue holds the indices in the given order. */
    constructor FromIndices(indices: seq<nat>)
      ensures cardIndices == indices
    {
      cardIndices := indices;
    }

    /** The next request would hit the bounds assertion. */
    predicate WouldPanic(available: seq<Card>)
      reads this
    {
      cardIndices != [] && cardIndices[0] >= |available|
    }

    /**
     * `get_card_index`: pop the front index. A front index that is out of
     * bounds for `available` is a caller error (the source panics).
     */
    method GetCardIndex(available: seq<Card>) returns (r: Option<nat>)
      requires !WouldPanic(available)
      modifies this
      ensures old(cardIndices) == [] ==> r == None && cardIndices == []
      ensures old(cardIndices) != [] ==>
                r == Some(old(cardIndices)[0]) && cardIndices == old(cardIndices)[1..]
      ensures r.Some? ==> r.value < |available|
    {
      if cardIndices == [] {
        return None;
      }
      var index := cardIndices[0];
      cardIndices := cardIndices[1..];
      r := Some(index);
    }
  }

  /**
   * The documented run: indices [0, 1, 2] over two cards give 0, then 1, and
   * the third request is out of bounds.
   */
  method ScriptedExample() returns (first: Option<nat>, second: Option<nat>, thirdPanics: bool)
    ensures first == Some(0) && second == Some(1) && thirdPanics
  {
    var available := [Card(Queen, Hearts), Card(King, Clubs)];
    var controller := new PredeterminedController.FromIndices([0, 1, 2]);
    first := controller.GetCardIndex(available);
    second := controller.GetCardIndex(available);
    thirdPanics := controller.WouldPanic(available);
  }
}
