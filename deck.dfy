/**
 * The cards of one board and `generateCards` (src/components/memory-game.jsx:13-28).
 *
 * A board for grid size `size` holds two copies of each pairing value
 * 1..UniquePairs(size), in shuffled order, and the card at position i has id i.
 * The shuffle (`sort` with a random comparator) is not modelled as an algorithm:
 * its outcome is a parameter, any reordering of the doubled value list.
 */
module Deck {
  import opened Wrappers

  /** A card: `id` is its position on the board, `value` its pairing key.
      The source also gives each card a `flipped: false` field that nothing reads. */
  datatype Card = Card(id: nat, value: nat)

  /** `size * size / 2` as `Array.from` uses it for a length: truncated. */
  function UniquePairs(size: int): nat
  {
    var total := size * size;
    assert total >= 0 by { SquareNonNegative(size); }
    total / 2
  }

  lemma SquareNonNegative(x: int)
    ensures x * x >= 0
  {
    if x < 0 {
      assert x * x == (-x) * (-x);
    }
  }

  /** The values 1..n, in order. */
  function PairValues(n: nat): seq<nat>
  {
    seq(n, i => i + 1)
  }

  /** Two copies of 1..n, before the shuffle. */
  function Doubled(n: nat): seq<nat>
  {
    PairValues(n) + PairValues(n)
  }

  /** `shuffled` is a reordering of `original`. */
  predicate IsShuffleOf(shuffled: seq<nat>, original: seq<nat>)
  {
    multiset(shuffled) == multiset(original)
  }

  /** The pairing values of a list of cards, in board order. */
  function ValuesOf(cards: seq<Card>): seq<nat>
  {
    seq(|cards|, i requires 0 <= i < |cards| => cards[i].value)
  }

  /** Every card's id is its position. */
  predicate IdsArePositions(cards: seq<Card>)
  {
    forall i :: 0 <= i < |cards| ==> cards[i].id == i
  }

  /** A board of `n` pairs: 2n cards, ids are positions, and each value 1..n
      occurs exactly twice while no other value occurs at all. */
  ghost predicate IsBoard(cards: seq<Card>, n: nat)
  {
    |cards| == 2 * n &&
    IdsArePositions(cards) &&
    forall v :: multiset(ValuesOf(cards))[v] == if 1 <= v <= n then 2 else 0
  }

  /** The `map((value, index) => ...)` step: card i gets id i. */
  function Deal(values: seq<nat>): seq<Card>
  {
    seq(|values|, i requires 0 <= i < |values| => Card(i, values[i]))
  }

  /** `generateCards(size)`, given the order the shuffle produced. */
  function GenerateCards(size: int, shuffled: seq<nat>): (cards: seq<Card>)
    requires IsShuffleOf(shuffled, Doubled(UniquePairs(size)))
    ensures IsBoard(cards, UniquePairs(size))
    ensures ValuesOf(cards) == shuffled
  {
    var cards := Deal(shuffled);
    assert ValuesOf(cards) == shuffled;
    assert |shuffled| == |Doubled(UniquePairs(size))| by {
      assert |multiset(shuffled)| == |multiset(Doubled(UniquePairs(size)))|;
    }
    DoubledCount(UniquePairs(size));
    cards
  }

  lemma {:induction false} PairValuesCount(n: nat, v: int)
    ensures multiset(PairValues(n))[v] == if 1 <= v <= n then 1 else 0
  {
    if n > 0 {
      assert PairValues(n) == PairValues(n - 1) + [n];
      PairValuesCount(n - 1, v);
    }
  }

  /** Before the shuffle, each of 1..n occurs twice and nothing else occurs. */
  lemma DoubledCount(n: nat)
    ensures forall v :: multiset(Doubled(n))[v] == if 1 <= v <= n then 2 else 0
  {
    forall v ensures multiset(Doubled(n))[v] == if 1 <= v <= n then 2 else 0 {
      PairValuesCount(n, v);
    }
  }

  /** The board fills the grid when size*size is even and leaves one cell
      without a card when it is odd: a 3x3 grid gets 8 cards. */
  lemma BoardSize(size: int)
    ensures 2 * UniquePairs(size) == if size % 2 == 0 then size * size else size * size - 1
  {
    var k := size / 2;
    if size % 2 == 0 {
      assert size * size == 2 * (2 * k * k) by {
        assert size == 2 * k;
      }
    } else {
      assert size * size == 2 * (2 * k * k + 2 * k) + 1 by {
        assert size == 2 * k + 1;
      }
    }
  }

  /** Every accepted grid size (2 or more) yields at least two pairs. */
  lemma PairsAtLeastTwo(size: int)
    requires size >= 2
    ensures UniquePairs(size) >= 2
  {
    assert size * size >= 2 * size by {
      assert size * size - 2 * size == size * (size - 2);
    }
  }

  /** `cards.find(card => card.id === id)`: the first card carrying that id. */
  function FindById(cards: seq<Card>, id: nat): (r: Option<Card>)
    ensures r.Some? ==> r.value in cards && r.value.id == id
    ensures r.None? <==> forall i :: 0 <= i < |cards| ==> cards[i].id != id
  {
    if cards == [] then None
    else if cards[0].id == id then Some(cards[0])
    else
      var rest := FindById(cards[1..], id);
      assert forall i :: 1 <= i < |cards| ==> cards[i] == cards[1..][i - 1];
      rest
  }

  /** `find` returns the card at the first position whose id matches. */
  lemma {:induction false} FindByIdFirst(cards: seq<Card>, id: nat, k: nat)
    requires k < |cards| && cards[k].id == id
    requires forall i :: 0 <= i < k ==> cards[i].id != id
    ensures FindById(cards, id) == Some(cards[k])
  {
    if k > 0 {
      FindByIdFirst(cards[1..], id, k - 1);
    }
  }

  /** On a board (ids are positions) `find` by id is indexing. */
  lemma FindOnBoard(cards: seq<Card>, id: nat)
    requires IdsArePositions(cards) && id < |cards|
    ensures FindById(cards, id) == Some(cards[id])
  {
    FindByIdFirst(cards, id, id);
  }
}
