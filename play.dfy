/**
 * Sequences of user and timer events applied to the component, and what the
 * rules as written imply over a whole game: because a match leaves both cards
 * in `flipped` (src/components/memory-game.jsx:68-70), no second pair can be
 * compared until `flipped` is emptied, and in a game where no un-flip callback
 * is outstanding at the reset only a mismatch schedules one. So at most one
 * pair is ever matched and the game is never won. A reset while an un-flip is
 * still pending breaks this: the stale callback later empties `flipped`.
 */
module Play {
  import opened Wrappers
  import opened Deck
  import opened Rules

  /** What can happen to a mounted component. Events that carry a board carry
      the order the shuffle produced for it. */
  datatype Event =
    | CardClicked(id: nat)
    | UnflipFired
    | GridSizeEntered(input: Option<int>, shuffled: seq<nat>)
    | ResetPressed(shuffled: seq<nat>)

  /** The event can happen in this state: a rendered card is clicked, a
      scheduled callback runs, a shuffle produced a reordering of the values. */
  predicate Enabled(g: Game, e: Event)
  {
    match e
    case CardClicked(id) => id < |g.cards|
    case UnflipFired => g.pendingUnflips > 0
    case GridSizeEntered(input, shuffled) =>
      Accepts(input) ==> IsShuffleOf(shuffled, Doubled(UniquePairs(input.value)))
    case ResetPressed(shuffled) => IsShuffleOf(shuffled, Doubled(UniquePairs(g.gridSize)))
  }

  /** The Reset / Play Again buttons call `resetGame()` at the current size. */
  function Step(g: Game, e: Event): (r: Game)
    requires Valid(g) && Enabled(g, e)
    ensures Valid(r)
  {
    match e
    case CardClicked(id) => Click(g, id)
    case UnflipFired => Timeout(g)
    case GridSizeEntered(input, shuffled) => ChangeGridSize(g, input, shuffled)
    case ResetPressed(shuffled) => Reset(g, g.gridSize, shuffled)
  }

  /** The state after a sequence of events, or None if some event could not happen. */
  function Run(g: Game, events: seq<Event>): (r: Option<Game>)
    requires Valid(g)
    ensures r.Some? ==> Valid(r.value)
    decreases |events|
  {
    if events == [] then Some(g)
    else if !Enabled(g, events[0]) then None
    else Run(Step(g, events[0]), events[1..])
  }

  predicate DealsNewBoard(e: Event)
  {
    e.ResetPressed? || (e.GridSizeEntered? && Accepts(e.input))
  }

  /** Along the events, no new board is dealt while an un-flip callback is pending. */
  ghost predicate NoResetWhileUnflipPending(g: Game, events: seq<Event>)
    requires Valid(g)
    decreases |events|
  {
    events == [] || !Enabled(g, events[0]) ||
    ((DealsNewBoard(events[0]) ==> g.pendingUnflips == 0) &&
     NoResetWhileUnflipPending(Step(g, events[0]), events[1..]))
  }

  /** The shape of a game without a stale un-flip. Before the first match at
      most two cards are face up, input is disabled exactly while two are, and
      then one un-flip is pending. After it the matched pair heads `flipped`
      for good, input is enabled and nothing is pending. */
  ghost predicate OnePairAtMost(g: Game)
  {
    (g.matched == [] ==>
      |g.flipped| <= 2 && (g.disabled <==> |g.flipped| == 2) &&
      g.pendingUnflips == (if g.disabled then 1 else 0)) &&
    (g.matched != [] ==>
      |g.flipped| >= 2 && g.matched == g.flipped[..2] &&
      !g.disabled && g.pendingUnflips == 0)
  }

  /** In such a state at most one pair is matched, which is fewer than the
      cards of any board, so the game is not won. */
  lemma OnePairIsNotAWin(g: Game)
    requires Valid(g) && OnePairAtMost(g)
    ensures |g.matched| <= 2 < |g.cards| && !g.won
  {
    PairsAtLeastTwo(g.gridSize);
  }

  /** Every event keeps that shape, except dealing a new board while an
      un-flip is pending. */
  lemma StepKeepsOnePair(g: Game, e: Event)
    requires Valid(g) && Enabled(g, e) && OnePairAtMost(g)
    requires DealsNewBoard(e) ==> g.pendingUnflips == 0
    ensures OnePairAtMost(Step(g, e))
  {
    match e
    case CardClicked(id) =>
      OnePairIsNotAWin(g);
      if !Ignored(g, id) {
        if |g.flipped| == 1 {
          if g.cards[g.flipped[0]].value == g.cards[id].value {
            ClickCompletesPair(g, id);
          } else {
            ClickMismatch(g, id);
          }
        } else {
          ClickWithoutComparison(g, id);
          if g.matched != [] {
            assert (g.flipped + [id])[..2] == g.flipped[..2];
          }
        }
      }
    case UnflipFired =>
    case GridSizeEntered(input, shuffled) =>
    case ResetPressed(shuffled) =>
  }

  /** Over any events that never deal a board while an un-flip is pending,
      at most one pair is matched and the game is never won. */
  lemma {:induction false} AtMostOnePairWithoutStaleUnflip(g: Game, events: seq<Event>)
    requires Valid(g) && OnePairAtMost(g) && NoResetWhileUnflipPending(g, events)
    ensures Run(g, events).Some? ==>
      OnePairAtMost(Run(g, events).value) && |Run(g, events).value.matched| <= 2 &&
      !Run(g, events).value.won
    decreases |events|
  {
    if events == [] {
      OnePairIsNotAWin(g);
    } else if Enabled(g, events[0]) {
      StepKeepsOnePair(g, events[0]);
      AtMostOnePairWithoutStaleUnflip(Step(g, events[0]), events[1..]);
    }
  }

  /** From mounting on, a game in which the board is only ever re-dealt while
      no un-flip is pending can never be won. */
  lemma NeverWonWithoutStaleUnflip(shuffled: seq<nat>, events: seq<Event>)
    requires IsShuffleOf(shuffled, Doubled(UniquePairs(4)))
    requires NoResetWhileUnflipPending(Initial(shuffled), events)
    ensures Run(Initial(shuffled), events).Some? ==> !Run(Initial(shuffled), events).value.won
  {
    AtMostOnePairWithoutStaleUnflip(Initial(shuffled), events);
  }

  /** Switch to a 2x2 grid, miss, press Reset before the un-flip runs, match a
      pair, let the stale un-flip run, match the other pair. */
  function StaleUnflipGame(): seq<Event>
  {
    [StaleUnflipEvent(0), StaleUnflipEvent(1), StaleUnflipEvent(2),
     StaleUnflipEvent(3), StaleUnflipEvent(4), StaleUnflipEvent(5),
     StaleUnflipEvent(6), StaleUnflipEvent(7), StaleUnflipEvent(8)]
  }

  function StaleUnflipEvent(k: nat): Event
  {
    match k
    case 0 => GridSizeEntered(Some(2), [1, 2, 1, 2])
    case 1 => CardClicked(0)
    case 2 => CardClicked(1)
    case 3 => ResetPressed([1, 1, 2, 2])
    case 4 => CardClicked(0)
    case 5 => CardClicked(1)
    case 6 => UnflipFired
    case 7 => CardClicked(2)
    case _ => CardClicked(3)
  }

  /** The two 2x2 boards the shuffles above deal. */
  const BoardA: seq<Card> := [Card(0, 1), Card(1, 2), Card(2, 1), Card(3, 2)]
  const BoardB: seq<Card> := [Card(0, 1), Card(1, 1), Card(2, 2), Card(3, 2)]

  /** The states StaleUnflipGame passes through after the grid-size change. */
  function StaleUnflipState(k: nat): Game
  {
    match k
    case 1 => Game(2, BoardA, [], [], false, false, 0, 0)
    case 2 => Game(2, BoardA, [0], [], false, false, 1, 0)
    case 3 => Game(2, BoardA, [0, 1], [], true, false, 2, 1)
    case 4 => Game(2, BoardB, [], [], false, false, 0, 1)
    case 5 => Game(2, BoardB, [0], [], false, false, 1, 1)
    case 6 => Game(2, BoardB, [0, 1], [0, 1], false, false, 2, 1)
    case 7 => Game(2, BoardB, [], [0, 1], false, false, 2, 0)
    case 8 => Game(2, BoardB, [2], [0, 1], false, false, 3, 0)
    case _ => Game(2, BoardB, [2, 3], [0, 1, 2, 3], true, true, 4, 0)
  }

  lemma DoubledTwo()
    ensures Doubled(UniquePairs(2)) == [1, 2, 1, 2]
  {
    assert UniquePairs(2) == 2;
    assert PairValues(2) == [1, 2];
  }

  lemma BoardADealt()
    ensures IsShuffleOf([1, 2, 1, 2], Doubled(UniquePairs(2))) && GenerateCards(2, [1, 2, 1, 2]) == BoardA
  {
    DoubledTwo();
    var a := GenerateCards(2, [1, 2, 1, 2]);
    assert forall i :: 0 <= i < 4 ==> a[i] == Card(i, ValuesOf(a)[i]);
  }

  lemma BoardBShuffle()
    ensures IsShuffleOf([1, 1, 2, 2], Doubled(UniquePairs(2)))
  {
    DoubledTwo();
    assert [1, 2, 1, 2] == [1] + [2, 1] + [2];
    assert [1, 1, 2, 2] == [1] + [1, 2] + [2];
    assert multiset([2, 1]) == multiset([1, 2]);
  }

  lemma BoardBDealt()
    ensures IsShuffleOf([1, 1, 2, 2], Doubled(UniquePairs(2))) && GenerateCards(2, [1, 1, 2, 2]) == BoardB
  {
    BoardBShuffle();
    var b := GenerateCards(2, [1, 1, 2, 2]);
    assert forall i :: 0 <= i < 4 ==> b[i] == Card(i, ValuesOf(b)[i]);
  }

  lemma BoardsAreBoards()
    ensures UniquePairs(2) == 2 && IsBoard(BoardA, 2) && IsBoard(BoardB, 2)
  {
    BoardADealt();
    BoardBDealt();
  }

  lemma StaleUnflipDeal(shuffled: seq<nat>)
    requires IsShuffleOf(shuffled, Doubled(UniquePairs(4)))
    ensures Enabled(Initial(shuffled), StaleUnflipEvent(0))
    ensures Step(Initial(shuffled), StaleUnflipEvent(0)) == StaleUnflipState(1)
  {
    BoardADealt();
  }

  lemma StaleUnflipStep1()
    ensures Valid(StaleUnflipState(1)) && Enabled(StaleUnflipState(1), StaleUnflipEvent(1))
    ensures Step(StaleUnflipState(1), StaleUnflipEvent(1)) == StaleUnflipState(2)
  {
    var g := StaleUnflipState(1);
    BoardsAreBoards();
    ClickWithoutComparison(g, 0);
  }

  lemma StaleUnflipStep2()
    ensures Valid(StaleUnflipState(2)) && Enabled(StaleUnflipState(2), StaleUnflipEvent(2))
    ensures Step(StaleUnflipState(2), StaleUnflipEvent(2)) == StaleUnflipState(3)
  {
    var g := StaleUnflipState(2);
    BoardsAreBoards();
    ClickMismatch(g, 1);
  }

  lemma StaleUnflipStep3()
    ensures Valid(StaleUnflipState(3)) && Enabled(StaleUnflipState(3), StaleUnflipEvent(3))
    ensures Step(StaleUnflipState(3), StaleUnflipEvent(3)) == StaleUnflipState(4)
  {
    BoardADealt();
    BoardBDealt();
  }

  lemma StaleUnflipStep4()
    ensures Valid(StaleUnflipState(4)) && Enabled(StaleUnflipState(4), StaleUnflipEvent(4))
    ensures Step(StaleUnflipState(4), StaleUnflipEvent(4)) == StaleUnflipState(5)
  {
    var g := StaleUnflipState(4);
    BoardsAreBoards();
    ClickWithoutComparison(g, 0);
  }

  lemma StaleUnflipStep5()
    ensures Valid(StaleUnflipState(5)) && Enabled(StaleUnflipState(5), StaleUnflipEvent(5))
    ensures Step(StaleUnflipState(5), StaleUnflipEvent(5)) == StaleUnflipState(6)
  {
    var g := StaleUnflipState(5);
    BoardsAreBoards();
    ClickCompletesPair(g, 1);
  }

  lemma StaleUnflipStep6()
    ensures Valid(StaleUnflipState(6)) && Enabled(StaleUnflipState(6), StaleUnflipEvent(6))
    ensures Step(StaleUnflipState(6), StaleUnflipEvent(6)) == StaleUnflipState(7)
  {
    BoardBDealt();
  }

  lemma StaleUnflipStep7()
    ensures Valid(StaleUnflipState(7)) && Enabled(StaleUnflipState(7), StaleUnflipEvent(7))
    ensures Step(StaleUnflipState(7), StaleUnflipEvent(7)) == StaleUnflipState(8)
  {
    var g := StaleUnflipState(7);
    BoardsAreBoards();
    ClickWithoutComparison(g, 2);
  }

  lemma StaleUnflipValid8()
    ensures Valid(StaleUnflipState(8))
  {
    BoardsAreBoards();
  }

  lemma StaleUnflipStep8()
    ensures Valid(StaleUnflipState(8)) && Enabled(StaleUnflipState(8), StaleUnflipEvent(8))
    ensures Step(StaleUnflipState(8), StaleUnflipEvent(8)) == StaleUnflipState(9)
  {
    var g := StaleUnflipState(8);
    StaleUnflipValid8();
    ClickCompletesPair(g, 3);
    ClickAccepted(g, 3);
    var r := Click(g, 3);
    assert r.matched == [0, 1, 2, 3] && r.won && r.disabled;
  }

  lemma StaleUnflipTail8()
    ensures Valid(StaleUnflipState(8))
    ensures Run(StaleUnflipState(8), StaleUnflipGame()[8..]) == Some(StaleUnflipState(9))
  {
    assert StaleUnflipGame()[8] == StaleUnflipEvent(8);
    assert StaleUnflipGame()[9..] == [];
    StaleUnflipStep8();
    RunFrom(StaleUnflipState(8), StaleUnflipGame(), 8);
  }

  lemma StaleUnflipTail7()
    ensures Valid(StaleUnflipState(7))
    ensures Run(StaleUnflipState(7), StaleUnflipGame()[7..]) == Some(StaleUnflipState(9))
  {
    assert StaleUnflipGame()[7] == StaleUnflipEvent(7);
    StaleUnflipTail8();
    StaleUnflipStep7();
    RunFrom(StaleUnflipState(7), StaleUnflipGame(), 7);
  }

  lemma StaleUnflipTail6()
    ensures Valid(StaleUnflipState(6))
    ensures Run(StaleUnflipState(6), StaleUnflipGame()[6..]) == Some(StaleUnflipState(9))
  {
    assert StaleUnflipGame()[6] == StaleUnflipEvent(6);
    StaleUnflipTail7();
    StaleUnflipStep6();
    RunFrom(StaleUnflipState(6), StaleUnflipGame(), 6);
  }

  lemma StaleUnflipTail5()
    ensures Valid(StaleUnflipState(5))
    ensures Run(StaleUnflipState(5), StaleUnflipGame()[5..]) == Some(StaleUnflipState(9))
  {
    assert StaleUnflipGame()[5] == StaleUnflipEvent(5);
    StaleUnflipTail6();
    StaleUnflipStep5();
    RunFrom(StaleUnflipState(5), StaleUnflipGame(), 5);
  }

  lemma StaleUnflipTail4()
    ensures Valid(StaleUnflipState(4))
    ensures Run(StaleUnflipState(4), StaleUnflipGame()[4..]) == Some(StaleUnflipState(9))
  {
    assert StaleUnflipGame()[4] == StaleUnflipEvent(4);
    StaleUnflipTail5();
    StaleUnflipStep4();
    RunFrom(StaleUnflipState(4), StaleUnflipGame(), 4);
  }

  lemma StaleUnflipTail3()
    ensures Valid(StaleUnflipState(3))
    ensures Run(StaleUnflipState(3), StaleUnflipGame()[3..]) == Some(StaleUnflipState(9))
  {
    assert StaleUnflipGame()[3] == StaleUnflipEvent(3);
    StaleUnflipTail4();
    StaleUnflipStep3();
    RunFrom(StaleUnflipState(3), StaleUnflipGame(), 3);
  }

  lemma StaleUnflipTail2()
    ensures Valid(StaleUnflipState(2))
    ensures Run(StaleUnflipState(2), StaleUnflipGame()[2..]) == Some(StaleUnflipState(9))
  {
    assert StaleUnflipGame()[2] == StaleUnflipEvent(2);
    StaleUnflipTail3();
    StaleUnflipStep2();
    RunFrom(StaleUnflipState(2), StaleUnflipGame(), 2);
  }

  lemma StaleUnflipTail1()
    ensures Valid(StaleUnflipState(1))
    ensures Run(StaleUnflipState(1), StaleUnflipGame()[1..]) == Some(StaleUnflipState(9))
  {
    assert StaleUnflipGame()[1] == StaleUnflipEvent(1);
    StaleUnflipTail2();
    StaleUnflipStep1();
    RunFrom(StaleUnflipState(1), StaleUnflipGame(), 1);
  }

  lemma RunFrom(g: Game, events: seq<Event>, i: nat)
    requires Valid(g) && i < |events| && Enabled(g, events[i])
    ensures Run(g, events[i..]) == Run(Step(g, events[i]), events[i + 1..])
  {
    assert events[i..][0] == events[i];
    assert events[i..][1..] == events[i + 1..];
  }

  lemma StaleUnflipFromMount(shuffled: seq<nat>)
    requires IsShuffleOf(shuffled, Doubled(UniquePairs(4)))
    ensures Run(Initial(shuffled), StaleUnflipGame()[0..]) == Some(StaleUnflipState(9))
  {
    assert StaleUnflipGame()[0] == StaleUnflipEvent(0);
    StaleUnflipDeal(shuffled);
    StaleUnflipTail1();
    RunFrom(Initial(shuffled), StaleUnflipGame(), 0);
  }

  lemma StaleUnflipEndsWon()
    ensures StaleUnflipState(9).won && StaleUnflipState(9).matched == [0, 1, 2, 3]
  {
  }

  /** With a reset while an un-flip is pending the game can be won. */
  lemma StaleUnflipLetsGameBeWon(shuffled: seq<nat>)
    requires IsShuffleOf(shuffled, Doubled(UniquePairs(4)))
    ensures Run(Initial(shuffled), StaleUnflipGame()) == Some(StaleUnflipState(9))
    ensures Run(Initial(shuffled), StaleUnflipGame()).value.won
  {
    StaleUnflipFromMount(shuffled);
    StaleUnflipEndsWon();
    assert StaleUnflipGame()[0..] == StaleUnflipGame();
  }
}
