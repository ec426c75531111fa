/**
 * The state machine of the MemoryGame component (src/components/memory-game.jsx:3-92)
 * as pure transitions over a snapshot of its state.
 *
 * `Game` holds the seven React state cells of lines 4-10 plus `pendingUnflips`,
 * the number of un-flip callbacks (`setTimeout`, lines 73-76) scheduled and not
 * yet run. Each handler is one atomic transition; the win-check effect
 * (lines 82-87) is applied after each transition that changes `matched` or
 * `cards`, which are the effect's dependencies.
 */
module Rules {
  import opened Wrappers
  import opened Deck

  datatype Game = Game(
    gridSize: int,
    cards: seq<Card>,
    flipped: seq<nat>,
    matched: seq<nat>,
    disabled: bool,
    won: bool,
    moves: nat,
    pendingUnflips: nat)

  /** The `useState` initial values, before the mount effect deals a board. */
  const Blank: Game := Game(4, [], [], [], false, false, 0, 0)

  predicate Distinct(s: seq<nat>)
  {
    forall i, j :: 0 <= i < j < |s| ==> s[i] != s[j]
  }

  predicate Below(s: seq<nat>, n: nat)
  {
    forall k :: 0 <= k < |s| ==> s[k] < n
  }

  /** The condition of the win-check effect. */
  predicate AllMatched(g: Game)
  {
    |g.matched| == |g.cards| && |g.cards| > 0
  }

  /** A card click the handler ignores (line 52). */
  predicate Ignored(g: Game, id: nat)
  {
    g.disabled || id in g.flipped || id in g.matched
  }

  /** The state reachable from mounting the component: an accepted grid size,
      a board for it, face-up and matched ids that are cards of the board
      and never repeated, `won` set exactly when every card is matched, and
      input locked only while an un-flip callback is pending or the game is won. */
  ghost predicate Valid(g: Game)
  {
    2 <= g.gridSize <= 10 &&
    IsBoard(g.cards, UniquePairs(g.gridSize)) &&
    Below(g.flipped, |g.cards|) && Below(g.matched, |g.cards|) &&
    Distinct(g.flipped) && Distinct(g.matched) &&
    (|g.flipped| == 1 ==> g.flipped[0] !in g.matched) &&
    (g.won <==> AllMatched(g)) &&
    (g.disabled ==> g.pendingUnflips > 0 || g.won)
  }

  /** No reset and no game in progress: what `resetGame` leaves behind. */
  predicate Cleared(g: Game)
  {
    g.flipped == [] && g.matched == [] && !g.disabled && !g.won && g.moves == 0
  }

  /** The win-check effect (lines 82-87). */
  function WinCheck(g: Game): (r: Game)
    ensures r.won <==> g.won || AllMatched(g)
    ensures r.disabled <==> g.disabled || AllMatched(g)
    ensures r.(won := g.won, disabled := g.disabled) == g
  {
    if |g.matched| == |g.cards| && |g.cards| > 0 then g.(won := true, disabled := true) else g
  }

  /** `resetGame(size)` (lines 40-47) followed by the win-check effect.
      The pending un-flip callbacks are not cancelled. */
  function Reset(g: Game, size: int, shuffled: seq<nat>): (r: Game)
    requires IsShuffleOf(shuffled, Doubled(UniquePairs(size)))
    ensures IsBoard(r.cards, UniquePairs(size)) && Cleared(r)
    ensures r.gridSize == g.gridSize && r.pendingUnflips == g.pendingUnflips
    ensures size == g.gridSize && 2 <= size <= 10 ==> Valid(r)
  {
    WinCheck(g.(cards := GenerateCards(size, shuffled), flipped := [], matched := [],
                disabled := false, won := false, moves := 0))
  }

  /** The state after mounting: the `useState` values, then the mount effect's
      `resetGame()` at the initial size 4 (lines 89-92). */
  function Initial(shuffled: seq<nat>): (r: Game)
    requires IsShuffleOf(shuffled, Doubled(UniquePairs(4)))
    ensures Valid(r) && Cleared(r) && r.gridSize == 4 && r.pendingUnflips == 0
  {
    Reset(Blank, 4, shuffled)
  }

  /** The grid-size input accepts a parsed number in 2..10 (line 33);
      `None` stands for `parseInt` giving NaN. */
  predicate Accepts(input: Option<int>)
  {
    input.Some? && 2 <= input.value <= 10
  }

  /** `handleGridSizeChange` (lines 31-37). */
  function ChangeGridSize(g: Game, input: Option<int>, shuffled: seq<nat>): (r: Game)
    requires Accepts(input) ==> IsShuffleOf(shuffled, Doubled(UniquePairs(input.value)))
    ensures !Accepts(input) ==> r == g
    ensures Accepts(input) ==>
      Valid(r) && Cleared(r) && r.gridSize == input.value && r.pendingUnflips == g.pendingUnflips
  {
    if input.Some? && input.value >= 2 && input.value <= 10 then
      Reset(g.(gridSize := input.value), input.value, shuffled)
    else
      g
  }

  /** `handleCardClick` (lines 50-79) for the card with this id, followed by the
      win-check effect when `matched` changed. */
  function Click(g: Game, id: nat): (r: Game)
    requires Valid(g) && id < |g.cards|
    ensures Valid(r)
    ensures r.gridSize == g.gridSize && r.cards == g.cards
    ensures g.matched <= r.matched && g.moves <= r.moves
  {
    if g.disabled || id in g.flipped || id in g.matched then g
    else
      var newFlipped := g.flipped + [id];
      var clicked := g.(flipped := newFlipped, moves := g.moves + 1);
      if |newFlipped| == 2 then
        var firstCardId, secondCardId := newFlipped[0], newFlipped[1];
        FindOnBoard(g.cards, firstCardId);
        FindOnBoard(g.cards, secondCardId);
        var firstCard, secondCard := FindById(g.cards, firstCardId).value, FindById(g.cards, secondCardId).value;
        if firstCard.value == secondCard.value then
          var newMatched := g.matched + [firstCardId, secondCardId];
          DistinctBounded(newMatched, |g.cards|);
          WinCheck(clicked.(matched := newMatched, disabled := false))
        else
          clicked.(disabled := true, pendingUnflips := g.pendingUnflips + 1)
      else
        clicked
  }

  /** The un-flip callback (lines 73-76) running: one pending callback is consumed. */
  function Timeout(g: Game): (r: Game)
    requires g.pendingUnflips > 0
    ensures Valid(g) ==> Valid(r)
    ensures r.flipped == [] && !r.disabled && r.pendingUnflips == g.pendingUnflips - 1
    ensures r.(flipped := g.flipped, disabled := g.disabled, pendingUnflips := g.pendingUnflips) == g
  {
    g.(flipped := [], disabled := false, pendingUnflips := g.pendingUnflips - 1)
  }

  // ---------------------------------------------------------------------------
  // What each click does

  /** A click leaves the state untouched exactly when it is ignored. */
  lemma ClickNoOpIff(g: Game, id: nat)
    requires Valid(g) && id < |g.cards|
    ensures Click(g, id) == g <==> Ignored(g, id)
  {
  }

  /** An accepted click turns the card face up and counts one move. */
  lemma ClickAccepted(g: Game, id: nat)
    requires Valid(g) && id < |g.cards| && !Ignored(g, id)
    ensures Click(g, id).flipped == g.flipped + [id]
    ensures Click(g, id).moves == g.moves + 1
  {
  }

  /** Turning up the second card of a pair: both ids become matched, both cards
      stay in `flipped`, no un-flip is scheduled, and input stays enabled unless
      this was the last pair, which wins the game. */
  lemma ClickCompletesPair(g: Game, id: nat)
    requires Valid(g) && id < |g.cards| && !Ignored(g, id)
    requires |g.flipped| == 1 && g.cards[g.flipped[0]].value == g.cards[id].value
    ensures var r := Click(g, id);
      r.matched == g.matched + [g.flipped[0], id] &&
      (r.won <==> |r.matched| == |g.cards|) && r.disabled == r.won &&
      r.flipped == [g.flipped[0], id] && r.pendingUnflips == g.pendingUnflips
  {
    var first := g.flipped[0];
    assert g.flipped + [id] == [first, id];
    FindOnBoard(g.cards, first);
    FindOnBoard(g.cards, id);
    assert FindById(g.cards, first).value.value == FindById(g.cards, id).value.value;
  }

  /** Turning up a second card of another value: input is disabled, one un-flip
      is scheduled, and nothing is matched. */
  lemma ClickMismatch(g: Game, id: nat)
    requires Valid(g) && id < |g.cards| && !Ignored(g, id)
    requires |g.flipped| == 1 && g.cards[g.flipped[0]].value != g.cards[id].value
    ensures var r := Click(g, id);
      r.matched == g.matched && r.disabled && r.won == g.won &&
      r.flipped == [g.flipped[0], id] && r.pendingUnflips == g.pendingUnflips + 1
  {
    var first := g.flipped[0];
    assert g.flipped + [id] == [first, id];
    FindOnBoard(g.cards, first);
    FindOnBoard(g.cards, id);
    assert FindById(g.cards, first).value.value != FindById(g.cards, id).value.value;
  }

  /** Any other accepted click (none or two or more cards already face up)
      only turns the card up and counts the move. */
  lemma ClickWithoutComparison(g: Game, id: nat)
    requires Valid(g) && id < |g.cards| && !Ignored(g, id) && |g.flipped| != 1
    ensures Click(g, id) == g.(flipped := g.flipped + [id], moves := g.moves + 1)
  {
  }

  /** A click sets `won` only by completing the last unmatched pair: the
      win-check effect is the one place `won` becomes true. */
  lemma ClickWinsOnlyWithLastPair(g: Game, id: nat)
    requires Valid(g) && id < |g.cards| && !g.won && Click(g, id).won
    ensures !Ignored(g, id) && |g.flipped| == 1
    ensures Click(g, id).matched == g.matched + [g.flipped[0], id]
    ensures |Click(g, id).matched| == |g.cards|
  {
    if |g.flipped| == 1 && !Ignored(g, id) {
      if g.cards[g.flipped[0]].value == g.cards[id].value {
        ClickCompletesPair(g, id);
      } else {
        ClickMismatch(g, id);
      }
    }
  }

  /** Once the game is won no click has any effect, even after a stale un-flip
      has cleared `disabled`: every card is already matched. */
  lemma WonGameIgnoresClicks(g: Game, id: nat)
    requires Valid(g) && g.won && id < |g.cards|
    ensures Ignored(g, id) && Click(g, id) == g
  {
    if id !in g.matched {
      DistinctBounded(g.matched + [id], |g.cards|);
    }
  }

  // ---------------------------------------------------------------------------
  // Counting distinct ids

  function Elems(s: seq<nat>): set<nat>
  {
    set x | x in s
  }

  /** The ids 0..n-1 of an n-card board. */
  function Positions(n: nat): seq<nat>
  {
    seq(n, i => i)
  }

  lemma {:induction false} DistinctElems(s: seq<nat>)
    requires Distinct(s)
    ensures |Elems(s)| == |s|
  {
    if s != [] {
      DistinctElems(s[1..]);
      assert Elems(s) == {s[0]} + Elems(s[1..]);
      assert s[0] !in Elems(s[1..]);
    }
  }

  /** A list of distinct ids of an n-card board has at most n entries. */
  lemma DistinctBounded(s: seq<nat>, n: nat)
    requires Below(s, n)
    ensures Distinct(s) ==> |s| <= n
  {
    if Distinct(s) {
      DistinctElems(s);
      DistinctElems(Positions(n));
      forall x | x in Elems(s) ensures x in Elems(Positions(n)) {
        assert Positions(n)[x] == x;
      }
      SubsetSize(Elems(s), Elems(Positions(n)));
    }
  }

  lemma {:induction false} SubsetSize(a: set<nat>, b: set<nat>)
    requires a <= b
    ensures |a| <= |b|
    decreases b
  {
    if a != {} {
      var x :| x in a;
      SubsetSize(a - {x}, b - {x});
    }
  }
}
