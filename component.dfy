/**
 * The MemoryGame component itself (src/components/memory-game.jsx:3-92): an object
 * whose fields are the React state cells of lines 4-10, updated in place by the
 * handlers. `pendingUnflips` counts the un-flip callbacks handed to `setTimeout`
 * and not yet run; the event loop runs one by calling TimeoutFires.
 *
 * Each method is proved against the pure transition of the same name in Rules,
 * whose properties are proved there and in Play.
 */
module Component {
  import opened Wrappers
  import opened Deck
  import opened Rules

  class MemoryGame {
    var gridSize: int
    var cards: seq<Card>
    var flipped: seq<nat>
    var matched: seq<nat>
    var disabled: bool
    var won: bool
    var moves: nat
    var pendingUnflips: nat

    /** The component's state as a value. */
    function State(): Game
      reads this
    {
      Game(gridSize, cards, flipped, matched, disabled, won, moves, pendingUnflips)
    }

    ghost predicate Valid()
      reads this
    {
      Rules.Valid(State())
    }

    /** Mounting: the `useState` initial values, the win-check effect (a no-op on
        an empty board), then the mount effect's `resetGame()` at size 4. */
    constructor (shuffled: seq<nat>)
      requires IsShuffleOf(shuffled, Doubled(UniquePairs(4)))
      ensures Valid() && State() == Initial(shuffled)
      ensures gridSize == 4 && |cards| == 16 && flipped == [] && matched == []
      ensures !disabled && !won && moves == 0 && pendingUnflips == 0
    {
      gridSize := 4;
      cards := [];
      flipped := [];
      matched := [];
      disabled := false;
      won := false;
      moves := 0;
      pendingUnflips := 0;
      new;
      CheckWin();
      ResetGame(gridSize, shuffled);
    }

    /** The win-check effect (lines 82-87). */
    method CheckWin()
      modifies this
      ensures State() == WinCheck(old(State()))
      ensures won <==> old(won) || old(AllMatched(State()))
    {
      if |matched| == |cards| && |cards| > 0 {
        won := true;
        disabled := true;
      }
    }

    /** `resetGame(size)` (lines 40-47), then the win-check effect that the new
        `cards` and `matched` trigger. A pending un-flip is left pending. */
    method ResetGame(size: int, shuffled: seq<nat>)
      requires IsShuffleOf(shuffled, Doubled(UniquePairs(size)))
      modifies this
      ensures State() == Reset(old(State()), size, shuffled)
      ensures IsBoard(cards, UniquePairs(size))
      ensures flipped == [] && matched == [] && !disabled && !won && moves == 0
      ensures gridSize == old(gridSize) && pendingUnflips == old(pendingUnflips)
    {
      cards := GenerateCards(size, shuffled);
      flipped := [];
      matched := [];
      disabled := false;
      won := false;
      moves := 0;
      CheckWin();
    }

    /** `handleGridSizeChange` (lines 31-37) with the parsed input value. */
    method HandleGridSizeChange(input: Option<int>, shuffled: seq<nat>)
      requires Valid()
      requires Accepts(input) ==> IsShuffleOf(shuffled, Doubled(UniquePairs(input.value)))
      modifies this
      ensures Valid() && State() == ChangeGridSize(old(State()), input, shuffled)
      ensures !Accepts(input) ==> State() == old(State())
      ensures Accepts(input) ==> gridSize == input.value && Cleared(State())
    {
      if input.Some? && input.value >= 2 && input.value <= 10 {
        gridSize := input.value;
        ResetGame(input.value, shuffled);
      }
    }

    /** `handleCardClick` (lines 50-79) for the rendered card with this id. */
    method HandleCardClick(id: nat)
      requires Valid() && id < |cards|
      modifies this
      ensures Valid() && State() == Click(old(State()), id)
      ensures old(Ignored(State(), id)) ==> State() == old(State())
      ensures !old(Ignored(State(), id)) ==>
        flipped == old(flipped) + [id] && moves == old(moves) + 1
    {
      if disabled || id in flipped || id in matched {
        return;
      }
      ghost var before := State();
      ClickAccepted(before, id);
      var newFlipped := flipped + [id];
      flipped := newFlipped;
      moves := moves + 1;
      if |newFlipped| == 2 {
        disabled := true;
        var firstCardId, secondCardId := newFlipped[0], newFlipped[1];
        FindOnBoard(cards, firstCardId);
        FindOnBoard(cards, secondCardId);
        var firstCard := FindById(cards, firstCardId).value;
        var secondCard := FindById(cards, secondCardId).value;
        if firstCard.value == secondCard.value {
          ClickCompletesPair(before, id);
          matched := matched + [firstCardId, secondCardId];
          disabled := false;
          CheckWin();
        } else {
          ClickMismatch(before, id);
          pendingUnflips := pendingUnflips + 1;
        }
      } else {
        ClickWithoutComparison(before, id);
      }
    }

    /** One pending un-flip callback (lines 73-76) runs. */
    method TimeoutFires()
      requires Valid() && pendingUnflips > 0
      modifies this
      ensures Valid() && State() == Timeout(old(State()))
      ensures flipped == [] && !disabled && pendingUnflips == old(pendingUnflips) - 1
      ensures cards == old(cards) && matched == old(matched) && won == old(won)
      ensures moves == old(moves) && gridSize == old(gridSize)
    {
      flipped := [];
      disabled := false;
      pendingUnflips := pendingUnflips - 1;
    }
  }
}
