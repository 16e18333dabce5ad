# Number-guessing session engine

A Dafny model of `GameState`, the game engine of a small number-guessing
desktop application. A game holds a hidden target number, drawn from 1 to 100
when the game is created, and a counter of attempts that starts at 0. Each
guess first adds one to the counter in place. It then compares the guess with
the target three ways and returns a message together with the new count. The
messages are "Too low! Attempt {n}", "Too high! Attempt {n}" and
"Congratulations! You guessed the number in {n} attempts!". A game has no
finished state: a guess after a correct one is compared and counted like any
other.

Modules:

- `Decimal` (decimal.dfy): how `{}` writes an unsigned integer. `Show` renders
  it and `Value` reads it back. Together they form a bijection between numbers
  and canonical numerals.
- `Messages` (messages.dfy): the `Verdict` datatype and the three message
  formats (`Render`). `Parse` reads a message back, and the round trip is proved
  in both directions.
- `Game` (game.dfy): the comparison (`Compare`) and the value of a state
  (`Session`). `Turn` is one guess as a function on such values, and
  `Replay`/`Transcript` are runs of guesses. The class `GameState` has the
  constructor and the in-place `Guess`. `Guess`'s postcondition ties each call
  to `Turn`, and the client method `GuessAll` carries the lemmas about runs
  over to the object: n calls raise its counter by n.

The code has no won state and `guess` returns no errors: a guess after a
correct one is compared and counted like any other
(tauri-app/src-tauri/src/lib.rs:18-26).

## Model

| member | source | states |
|---|---|---|
| `Decimal.Show` | tauri-app/src-tauri/src/lib.rs:21-23 | the attempt number is written as a non-empty string of digits with no leading zero (except "0" itself) |
| `Decimal.ValueShow` | tauri-app/src-tauri/src/lib.rs:21-23 | reading the written attempt number back gives the number |
| `Decimal.ShowValue` | tauri-app/src-tauri/src/lib.rs:21-23 | every canonical numeral is the rendering of the number it denotes, so `Show` is onto canonical numerals |
| `Decimal.ShowInjective` | tauri-app/src-tauri/src/lib.rs:21-23 | different attempt numbers are written differently |
| `Messages.ParseRender` | tauri-app/src-tauri/src/lib.rs:20-24 | each of the three messages, with any attempt number embedded, reads back as exactly its verdict and that number |
| `Messages.RenderParse` | tauri-app/src-tauri/src/lib.rs:20-24 | any string that reads back as a verdict and a number is exactly the message for them |
| `Messages.RenderInjective` | tauri-app/src-tauri/src/lib.rs:20-24 | two messages are equal only if their verdicts and attempt numbers are equal |
| `Game.Compare` | tauri-app/src-tauri/src/lib.rs:20-24 | the verdict is TooLow iff guess < target, TooHigh iff guess > target, and Correct iff they are equal |
| `Game.TurnMessage` | tauri-app/src-tauri/src/lib.rs:18-26 | the message of one guess reads back as the comparison's verdict with the post-increment count |
| `Game.ReplayCounts` | tauri-app/src-tauri/src/lib.rs:18-19 | after n guesses of any values, the counter has risen by exactly n, the target is unchanged, and the state stays within `u32` while the counter does |
| `Game.FreshReplay` | tauri-app/src-tauri/src/lib.rs:10-19 | starting from a new game (counter 0), the counter after n guesses is n |
| `Game.TranscriptAt` | tauri-app/src-tauri/src/lib.rs:18-26 | there is no terminal state: the i-th message of a run is the message for the i-th guess compared with the same target, under attempt number old count + i + 1, whether or not an earlier guess was correct |
| `Game.TranscriptParses` | tauri-app/src-tauri/src/lib.rs:18-26 | each message of a run reads back as its guess's verdict and its attempt number |
| `Game.GameState.constructor` | tauri-app/src-tauri/src/lib.rs:10-16 | a new game has 0 attempts and a target somewhere in 1..100 |
| `Game.GameState.Guess` | tauri-app/src-tauri/src/lib.rs:18-26 | the counter rises by exactly one and the target is not written. The returned count equals the updated counter. The message is the format of the comparison's branch with the new count. The call equals `Turn` on the state before it. |
| `Game.GuessAll` | tauri-app/src-tauri/src/lib.rs:18-26 | making the guesses of a sequence one call at a time leaves the object in the state `Replay` predicts, with the `Transcript` as messages: the counter has risen by the number of calls and the target is unchanged |
| `Game.PlayAfterWin` | tauri-app/src-tauri/src/lib.rs:10-26 | on a new game, guessing the target twice gives "Congratulations! You guessed the number in 1 attempts!" then "... in 2 attempts!". A following guess of 0 gives "Too low! Attempt 3" with count 3. |

## Left out

- The random draw `rand::thread_rng().gen_range(1..=100)`: the constructor picks an arbitrary target in 1..100, so only the range is stated. Uniformity is not modelled, and the draw has no failure path in the code.
- `Game.GameState.Guess`: requires the counter to be below `u32::MAX`. At `u32::MAX` the code's `self.attempts += 1` panics in a debug build and wraps to 0 in a release build, and neither is modelled. The guess parameter is a `nat` bounded by `u32::MAX`, standing for the `u32` type.
- The `Clone` and `serde::Serialize` derives: library-generated copying and serialisation for the frontend.
- tauri-app/src-tauri/src/main.rs (the `start_game` and `make_guess` commands, the managed state and the `tauri::Builder` wiring): this is framework plumbing and is not part of this model. Note that `make_guess` clones the managed state before guessing. The managed state is therefore never updated, and every guess through that command reports attempt 1 against the target drawn at start-up.
