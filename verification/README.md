# Roll Your Chances — a Dafny model of the game engine

Roll Your Chances is a browser dice game for four players. On the setup
screen each player may type a name; `startGame` builds the roster (an empty
name becomes "Player N") and gives the first turn to the first player.
Each turn, `submitRoll` takes the rolled value and scores it for the
player whose turn it is. An even roll gains a chip. An odd roll loses a
chip, but a player with no chips stays at 0. The game writes a log line
for the roll. If the player now holds at least `WINNING_SCORE` (10) chips,
that player wins. Otherwise the turn passes to the next player, wrapping
around the table.

The model has two modules:

- `Text` (text.dfy) renders an integer as its decimal numeral, as the
  script's template literals render the rolled value inside the log line.
  It also proves that the numeral reads back to the value.
- `Game` (game.dfy) holds the game itself:
  - the player, state and outcome datatypes;
  - the roster construction (`NameFor`, `Roster`, `Start`);
  - the effect of one roll on the state (`Step`) and the log line it
    writes (`StepMessage`);
  - the effect of a whole sequence of rolls (`Play`) with lemmas about it;
  - the class `Game`. Its fields `players` and `currentPlayerIndex` are the
    script's module-level variables. Its methods `StartGame` and
    `SubmitRoll` update them in place, and their contracts tie the new
    state to `Start` and `Step`.

The name inputs are parameters of `StartGame`. The log line and the winner
are results of `SubmitRoll`; the winner is what the script hands to
`handleWin`.

The model does what the code does:

- names are not trimmed, so a blanks-only name is kept as typed;
- there are always exactly four seats, one per name input;
- the turn order is the input order, with no shuffle;
- the winning score is the constant 10;
- a roll after a win is not an error. The code has no such guard, so the
  roll is scored like any other (`Play` models this).

## Model

| member | source | states |
|---|---|---|
| `Text.NatToString` | script.js:51 | The numeral of a natural number is non-empty and made only of decimal digits. It has no leading zero unless the number is 0. |
| `Text.NatToStringRoundTrip` | script.js:51 | Reading the numeral of `n` back as decimal digits gives `n`. Together with `Game.StepMessage`, which places this numeral right after "rolled ", the log line shows the rolled value exactly. |
| `Text.IntToStringDecodes` | script.js:51-58 | The rendered roll value starts with '-' exactly when the roll is negative. Its digits read back to the roll's magnitude and have no leading zero unless the roll is 0. |
| `Game.NameFor` | script.js:21-24 | A name is never empty. A non-empty entry is kept verbatim, with no trimming. An empty entry becomes "Player " followed by digits that read back to its 1-based position, with no leading zero. |
| `Game.FourSeatRoster` | script.js:21-32 | The roster of the four inputs is exactly four players with score 0. Player N is named by input N when that input is non-empty, and "Player N" otherwise, for N from 1 to 4. |
| `Game.Roster` | script.js:21-32 | The roster has one player per input, in input order. Every player has score 0 and a non-empty name. The name is the entry when the entry is non-empty, and the positional placeholder when it is empty. |
| `Game.Start` | script.js:27-34 | After setup there are exactly four players, the turn index is 0, and every score is 0, so the chip total is 0. |
| `Game.Game.constructor` | script.js:3-4 | Before setup the roster is empty and the turn index is 0. |
| `Game.Game.StartGame` | script.js:19-34 | The fields become the state `Start` describes: four players, turn index 0, a valid state. |
| `Game.Step` | script.js:42-74 | Only the acting player changes, and only in score; every other player and every name is unchanged. An even roll adds exactly 1. An odd roll subtracts exactly 1 from a positive score and leaves a score of 0 unchanged, so scores never go negative. A winner is reported exactly when the acting player's new score is at least 10. A winner is the acting player with the new score, and the turn index then stays. Otherwise the index becomes `(index + 1) % players.length`, which stays in range. A win reached from below 10 happens on an even roll and lands on exactly 10. |
| `Game.StepMessage` | script.js:47-60 | The log line starts with the acting player's name, then " rolled ", then the numeral of the rolled value. What follows opens with " (EVEN) -> " exactly when the roll is even and with " (ODD) -> " exactly when it is odd. The line ends with "Gained 1 Chip!" exactly when the roll is even. It ends with "Lost 1 Chip." exactly when the roll is odd and the prior score is positive. It ends with "Stayed at 0." exactly when the roll is odd and the prior score is not positive. |
| `Game.LineReports` | script.js:51-58 | Whatever the name and the rendered roll value, the log line of a branch is the name, " rolled ", the rendered value and the branch's tail, in that order. It ends with that branch's report and with no other branch's report. |
| `Game.TailParity` | script.js:51-58 | The text after the roll value opens with the even tag exactly in the gain branch, and with the odd tag in both other branches. |
| `Game.Game.SubmitRoll` | script.js:42-74 | The new fields, the returned log line and the returned winner are exactly what `Step` and `StepMessage` give for the old state. A valid state stays valid. |
| `Game.Play` | script.js:42-74 | Over any sequence of rolls, the invariant holds after every roll: the index is in range and no score is negative. The roster keeps its size and its names. |
| `Game.PlayTotalBound` | script.js:47-59 | Each roll adds at most one chip to the table, so after `k` rolls the chip total is at most the starting total plus `k`. |
| `Game.StepWithinTurns` | script.js:47-71 | If the turn index after `k` win-free rolls is `k % 4` and no seat holds more chips than turns it has had, then roll `k + 1` (for `k < 36`) reports no winner and keeps both facts. |
| `Game.PlayWithinTurns` | script.js:47-71 | From such a state, rolls that keep the count within 36 report no winner, and each seat still holds at most one chip per turn it has had. |
| `Game.NoEarlyWin` | script.js:27-71 | From a fresh game, none of the first 36 rolls (4 seats times 9 turns) reports a winner, whatever the names and the rolled values. |
| `Game.PlayEvenRolls` | script.js:47-71 | When every roll is even, each seat holds exactly one chip per turn it has had, for up to 36 rolls. |
| `Game.EvenRollsWinOnRoll37` | script.js:27-71 | The 36-roll bound is exact: with even rolls only, roll 37 makes the first player the winner, with exactly 10 chips. |
| `Game.RoundRobin` | script.js:69-71 | Over rolls that report no winner, the turn index after `k` rolls is `(start + k) % players.length`: one seat per roll, wrapping around. |

## Left out

- Rendering and screen changes are not modelled. This covers `showScreen`, `renderScoreboard`, `updateActivePlayerDisplay`, the body of `handleWin`, and the write to the log element (script.js:7-16, 36-38, 63-64, 72, 77-104). The log line and the winner are returned instead.
- The reads of the name input fields are not modelled; the four entered strings are parameters.
- Rolled values are modelled as integers. JavaScript numbers can also be fractional; the game only feeds it die values.
- `Text.IntToString` always gives plain decimal digits. JavaScript renders integers of magnitude 10^21 or more in exponent notation; no die produces such values.
- Scores are unbounded integers. JavaScript numbers are exact only up to 2^53, which no game reaches.
- `Game.Game.SubmitRoll` requires a turn index inside the roster. Before `startGame` the roster is empty, and the script would throw a TypeError when it reads the score of a missing player. That crash is not modelled.
- Player records are values in the model. In the script they are objects: `submitRoll` updates the object in the array, and `handleWin` receives that same object. Aliasing of that object is not modelled; the returned winner is a copy of its fields at the time of the win.
- No operation forbids rolls after a win, as in the code. The code has no shuffle of the turn order and no roster size other than four, so the model has neither.
