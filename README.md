# Memory game state machine in Dafny

This project models the one piece of logic in the memory-matching card game: the
`MemoryGame` React component in `src/components/memory-game.jsx`. The component keeps
seven state cells: `gridSize`, `cards`, `flipped`, `matched`, `disabled`, `won` and
`moves`. Three handlers change them:

- `handleGridSizeChange`;
- `resetGame`, which deals a new board built by `generateCards`;
- `handleCardClick`.

`generateCards` sets no state: it returns a shuffled board. Two more things change
the state cells. A `setTimeout` callback turns a mismatched pair face
down again. A `useEffect` sets `won` once every card is matched.

The model has five modules.

- `Wrappers` holds `Option`, used for the parsed grid-size input and for `find`.
- `Deck` holds `Card`, `generateCards` and `cards.find`. The board is a pure function
  of the grid size and of the order the shuffle produced.
- `Rules` holds the state as a value (`Game`) and one pure transition per handler.
  It also holds the invariant `Valid` that every transition keeps, and the lemmas
  about single clicks.
- `Play` holds sequences of events (`Run`). It proves what the rules imply over a
  whole game.
- `Component` holds the class `MemoryGame`. Its fields are the seven state cells plus
  `pendingUnflips`, which counts the un-flip callbacks scheduled and not yet run.
  Every method is proved to leave the object in the state the matching `Rules`
  transition gives.

The code is modelled as written, including these behaviours:

- `moves` counts every accepted click, whether or not it completes a pair (line 58).
- A click on a face-up or matched card is ignored (line 52).
- A match appends the pair to `matched` and does not empty `flipped` (lines 68-70).
- The component has no move limit and no game-over state besides `won`.
- `resetGame` does not cancel an un-flip callback already scheduled (lines 40-47).

Because a match does not empty `flipped`, after the first match no second pair can be
compared until `flipped` is emptied again. Only the un-flip callback and a reset empty
it. In a game where the board is never re-dealt while an un-flip is pending, at most one
pair is ever matched, so the game can never be won (`Play.NeverWonWithoutStaleUnflip`).

Since a reset does not cancel a pending un-flip, one that is pending when the board is
re-dealt later empties `flipped` after the next match, and further pairs can match.
`Play.StaleUnflipLetsGameBeWon` proves that a 2x2 game is won this way.

## Model

| member | source | states |
|---|---|---|
| `Deck.GenerateCards` | src/components/memory-game.jsx:13-28 | for any reordering of two copies of 1..floor(size²/2), the board has 2·floor(size²/2) cards, the card at position i has id i and carries the i-th shuffled value, and each value 1..floor(size²/2) occurs exactly twice and no other value occurs |
| `Deck.PairValuesCount` | src/components/memory-game.jsx:16 | `Array.from` with length floor(size²/2) yields each of 1..n exactly once and nothing else |
| `Deck.DoubledCount` | src/components/memory-game.jsx:19 | the spread `[...cardValues, ...cardValues]` holds each of 1..n exactly twice |
| `Deck.BoardSize` | src/components/memory-game.jsx:14-16 | the truncated pair count fills an even grid exactly and leaves one cell empty on an odd grid (a 3x3 grid gets 8 cards) |
| `Deck.PairsAtLeastTwo` | src/components/memory-game.jsx:33 | every accepted grid size (at least 2) gives at least two pairs, so at least four cards |
| `Deck.FindById` | src/components/memory-game.jsx:64-65 | `cards.find` returns a card of the list carrying the id, and returns nothing exactly when no card carries it |
| `Deck.FindByIdFirst` | src/components/memory-game.jsx:64-65 | `find` returns the card at the first position whose id matches |
| `Deck.FindOnBoard` | src/components/memory-game.jsx:21-25 | on a dealt board, where ids are positions, `find` by id returns the card at that index, so the lookup never fails |
| `Rules.WinCheck` | src/components/memory-game.jsx:82-87 | `won` and `disabled` end true exactly when they were already true or every card of a non-empty board is matched; nothing else changes |
| `Rules.Reset` | src/components/memory-game.jsx:40-47 | a new board for the given size, `flipped` and `matched` empty, `disabled` and `won` false, `moves` 0; `gridSize` and the pending un-flips are untouched; the result satisfies the invariant when the size is the current grid size |
| `Rules.Initial` | src/components/memory-game.jsx:89-92 | after mounting, the game is at size 4 with a fresh 16-card board, everything cleared, no un-flip pending, and the invariant holds |
| `Rules.ChangeGridSize` | src/components/memory-game.jsx:31-37 | an input that is not a number in 2..10 changes nothing; an accepted one sets `gridSize` and deals a cleared game at that size, keeping the invariant |
| `Rules.Click` | src/components/memory-game.jsx:50-79 | a click keeps the invariant: ids in `flipped` and `matched` are cards of the board and never repeated, `won` holds exactly when all cards are matched, and input is locked only while an un-flip is pending or the game is won; the board and size stay the same; `matched` and `moves` only grow |
| `Rules.Timeout` | src/components/memory-game.jsx:73-76 | the un-flip empties `flipped`, clears `disabled`, consumes one pending callback, changes nothing else, and keeps the invariant |
| `Rules.ClickNoOpIff` | src/components/memory-game.jsx:52-54 | a click leaves every field unchanged if and only if input is disabled or the id is already face up or matched |
| `Rules.ClickAccepted` | src/components/memory-game.jsx:56-58 | an accepted click appends the id to `flipped` and adds exactly one move |
| `Rules.ClickCompletesPair` | src/components/memory-game.jsx:61-70 | turning up a second card of equal value appends both ids to `matched`, leaves both in `flipped`, schedules no un-flip, and leaves input enabled unless that pair completed the board, which wins |
| `Rules.ClickMismatch` | src/components/memory-game.jsx:61-77 | turning up a second card of another value disables input, schedules exactly one un-flip, and matches nothing |
| `Rules.ClickWithoutComparison` | src/components/memory-game.jsx:56-61 | with zero, two or more cards already face up, an accepted click only turns the card up and counts the move |
| `Rules.ClickWinsOnlyWithLastPair` | src/components/memory-game.jsx:82-87 | a click sets `won` only when it completes a pair and the two new ids make `matched` as long as the board |
| `Rules.WonGameIgnoresClicks` | src/components/memory-game.jsx:52-54 | once won, every card is matched, so every click is ignored, even after a stale un-flip cleared `disabled` |
| `Rules.DistinctBounded` | src/components/memory-game.jsx:69 | a list of distinct ids of an n-card board has at most n entries, so `matched` can never outgrow the board |
| `Play.Step` | src/components/memory-game.jsx:31-79 | every handler, the un-flip callback and the Reset button keep the invariant |
| `Play.Run` | src/components/memory-game.jsx:3-92 | any sequence of events that can happen leads to a state satisfying the invariant |
| `Play.OnePairIsNotAWin` | src/components/memory-game.jsx:82-87 | while at most one pair is matched, fewer cards are matched than the board holds, so the game is not won |
| `Play.StepKeepsOnePair` | src/components/memory-game.jsx:61-77 | every event keeps "at most one pair, still face up" unless it re-deals the board while an un-flip is pending |
| `Play.AtMostOnePairWithoutStaleUnflip` | src/components/memory-game.jsx:68-70 | along any events that never re-deal while an un-flip is pending, at most one pair is matched and `won` stays false |
| `Play.NeverWonWithoutStaleUnflip` | src/components/memory-game.jsx:89-92 | from mounting on, such a game is never won, whatever the grid size chosen |
| `Play.StaleUnflipLetsGameBeWon` | src/components/memory-game.jsx:40-47 | re-dealing while an un-flip is pending does let the game be won: miss on a 2x2 board, reset, match a pair, let the stale un-flip run, match the other pair |
| `Component.MemoryGame.constructor` | src/components/memory-game.jsx:4-10 | the component mounts with the `useState` values, runs the win check and the mount reset, and ends at size 4 with 16 cards and everything cleared |
| `Component.MemoryGame.CheckWin` | src/components/memory-game.jsx:82-87 | the effect sets `won` and `disabled` when every card is matched, as `Rules.WinCheck` |
| `Component.MemoryGame.ResetGame` | src/components/memory-game.jsx:40-47 | the fields become a fresh board and cleared state, as `Rules.Reset`; the grid size and pending un-flips are kept |
| `Component.MemoryGame.HandleGridSizeChange` | src/components/memory-game.jsx:31-37 | an input outside 2..10 leaves every field unchanged; an accepted one sets `gridSize` and resets; the invariant is kept |
| `Component.MemoryGame.HandleCardClick` | src/components/memory-game.jsx:50-79 | the fields change as `Rules.Click` says: an ignored click changes nothing, an accepted one appends to `flipped` and counts one move; the invariant is kept |
| `Component.MemoryGame.TimeoutFires` | src/components/memory-game.jsx:73-76 | one pending un-flip runs: `flipped` empty, `disabled` false, one fewer pending, every other field unchanged |

## Left out

- The JSX markup, CSS classes and inline styles (src/components/memory-game.jsx:94-170), `src/components/TailwindTest.jsx` and `src/App.jsx`: presentation only.
- `Math.random` and the comparator `sort`: the shuffle's outcome is a parameter, namely any reordering of the doubled value list. Its distribution and bias are not modelled.
- The 1000 ms delay and the order in which callbacks fire: every un-flip callback has the same body, so a count of pending callbacks stands for the timer queue. The event loop runs one with `TimeoutFires`.
- React's asynchronous `setState` batching and effect scheduling: each handler is one atomic transition. The win-check effect is applied right after each transition that changes `matched` or `cards`.
- On an accepted grid-size change that differs from the current size, React runs `resetGame` twice: once in the handler and once more from the effect on `gridSize` (lines 89-92), with a second shuffle. An accepted size equal to the current one resets once. The model deals once with an arbitrary shuffle, which covers the same set of outcomes.
- `parseInt` on the input string: the input is modelled as an optional integer, with `None` standing for NaN.
- The `flipped: false` field that `generateCards` puts on each card: nothing reads it.
- `moves` is an unbounded natural number. JavaScript numbers lose precision past 2^53 clicks.
- The `TypeError` that `firstCard.value` would raise if `find` returned `undefined`: it cannot happen in any reachable state (`Deck.FindOnBoard`), so `handleCardClick` requires the clicked id to be a card of the board, as the rendered grid guarantees.
