/** The number-guessing session engine: a hidden target in 1..100 and a
    counter of the guesses made against it. */
module Game {
  import opened Decimal
  import opened Messages

  /** Largest value of the `u32` fields and of the guess parameter. */
  const U32Max: nat := 0xFFFF_FFFF

  /** The inclusive range the target is drawn from. */
  const LowestTarget: nat := 1
  const HighestTarget: nat := 100

  /** Three-way comparison of the guess with the target: exactly one verdict
      applies, and each applies precisely when its ordering holds. */
  function Compare(guess: nat, target: nat): (v: Verdict)
    ensures v == TooLow <==> guess < target
    ensures v == TooHigh <==> guess > target
    ensures v == Correct <==> guess == target
  {
    if guess < target then TooLow
    else if guess > target then TooHigh
    else Correct
  }

  /** The value of a game state: its target and its attempt counter. */
  datatype Session = Session(target: nat, attempts: nat)

  predicate ValidSession(s: Session) {
    LowestTarget <= s.target <= HighestTarget && s.attempts <= U32Max
  }

  /** What one guess yields: the state afterwards, the message and the count returned. */
  datatype Outcome = Outcome(after: Session, message: string, count: nat)

  /** One guess against session `s`: count it, then report the comparison
      under the new attempt number. */
  function Turn(s: Session, guess: nat): Outcome {
    var attempts := s.attempts + 1;
    Outcome(Session(s.target, attempts), Render(Compare(guess, s.target), attempts), attempts)
  }

  /** The session after the guesses `gs`, made in order. */
  function Replay(s: Session, gs: seq<nat>): Session
    decreases |gs|
  {
    if gs == [] then s else Replay(Turn(s, gs[0]).after, gs[1..])
  }

  /** The messages the guesses `gs` produce, in order. */
  function Transcript(s: Session, gs: seq<nat>): seq<string>
    decreases |gs|
  {
    if gs == [] then [] else [Turn(s, gs[0]).message] + Transcript(Turn(s, gs[0]).after, gs[1..])
  }

  /** The message of a guess reads back as the verdict and the post-increment counter. */
  lemma TurnMessage(s: Session, guess: nat)
    ensures Parse(Turn(s, guess).message) == Some((Compare(guess, s.target), s.attempts + 1))
  {
    ParseRender(Compare(guess, s.target), s.attempts + 1);
  }

  /** After n guesses, whatever they were, the counter has gone up by n and the
      target is the same; the state stays within `u32` while the counter does. */
  lemma {:induction false} ReplayCounts(s: Session, gs: seq<nat>)
    ensures Replay(s, gs).attempts == s.attempts + |gs|
    ensures Replay(s, gs).target == s.target
    ensures ValidSession(s) && s.attempts + |gs| <= U32Max ==> ValidSession(Replay(s, gs))
    decreases |gs|
  {
    if gs != [] {
      ReplayCounts(Turn(s, gs[0]).after, gs[1..]);
    }
  }

  /** Starting from a fresh state, the counter equals the number of guesses made. */
  lemma FreshReplay(target: nat, gs: seq<nat>)
    requires LowestTarget <= target <= HighestTarget && |gs| <= U32Max
    ensures Replay(Session(target, 0), gs).attempts == |gs|
    ensures ValidSession(Replay(Session(target, 0), gs))
  {
    ReplayCounts(Session(target, 0), gs);
  }

  /** There is no terminal state: the i-th guess of a run, whether or not an
      earlier one was correct, is compared with the same target and reported
      under attempt number `s.attempts + i + 1`. */
  lemma {:induction false} TranscriptAt(s: Session, gs: seq<nat>, i: nat)
    requires i < |gs|
    ensures |Transcript(s, gs)| == |gs|
    ensures Transcript(s, gs)[i] == Render(Compare(gs[i], s.target), s.attempts + i + 1)
    decreases |gs|
  {
    var next := Turn(s, gs[0]).after;
    var rest := Transcript(next, gs[1..]);
    assert Transcript(s, gs) == [Turn(s, gs[0]).message] + rest;
    if |gs| > 1 {
      TranscriptAt(next, gs[1..], if i == 0 then 0 else i - 1);
    }
    if i > 0 {
      assert Transcript(s, gs)[i] == rest[i - 1];
      assert gs[1..][i - 1] == gs[i];
    }
  }

  /** Each message of a run reads back as its verdict and its attempt number. */
  lemma TranscriptParses(s: Session, gs: seq<nat>, i: nat)
    requires i < |gs|
    ensures |Transcript(s, gs)| == |gs|
    ensures Parse(Transcript(s, gs)[i]) == Some((Compare(gs[i], s.target), s.attempts + i + 1))
  {
    TranscriptAt(s, gs, i);
    ParseRender(Compare(gs[i], s.target), s.attempts + i + 1);
  }

  /** The game state object: the target, fixed once drawn, and the counter
      that each guess increments in place. */
  class GameState {
    var targetNumber: nat
    var attempts: nat

    ghost function Snapshot(): Session
      reads this
    {
      Session(targetNumber, attempts)
    }

    ghost predicate Valid()
      reads this
    {
      ValidSession(Snapshot())
    }

    /** A new game: some target in 1..100, chosen by a random source outside
        the model, and no attempts yet. */
    constructor ()
      ensures Valid()
      ensures LowestTarget <= targetNumber <= HighestTarget
      ensures attempts == 0
    {
      var drawn: nat :| LowestTarget <= drawn <= HighestTarget;
      targetNumber := drawn;
      attempts := 0;
    }

    /** Counts the guess, then compares it with the target and reports the
        verdict with the new count. */
    method Guess(guess: nat) returns (message: string, count: nat)
      requires Valid()
      requires attempts < U32Max
      requires guess <= U32Max
      modifies this
      ensures Valid()
      ensures targetNumber == old(targetNumber)
      ensures attempts == old(attempts) + 1
      ensures count == attempts
      ensures message == Render(Compare(guess, targetNumber), attempts)
      // The same facts once more, as one equation with `Turn`, so that the
      // lemmas about runs apply to the object; the clause above spares callers
      // that only look at one message from unfolding `Turn`.
      ensures Turn(old(Snapshot()), guess) == Outcome(Snapshot(), message, count)
    {
      attempts := attempts + 1;
      var verdict := Compare(guess, targetNumber);
      message := Render(verdict, attempts);
      count := attempts;
    }
  }

  /** A client of the object that makes the guesses `gs` in order: the object
      ends in the state `Replay` predicts and the messages are the `Transcript`,
      so after n calls the counter has risen by n and the target is unchanged. */
  method GuessAll(game: GameState, gs: seq<nat>) returns (ms: seq<string>)
    requires game.Valid()
    requires game.attempts + |gs| <= U32Max
    requires forall i :: 0 <= i < |gs| ==> gs[i] <= U32Max
    modifies game
    ensures game.Valid()
    ensures game.Snapshot() == Replay(old(game.Snapshot()), gs)
    ensures ms == Transcript(old(game.Snapshot()), gs)
    ensures game.attempts == old(game.attempts) + |gs|
    ensures game.targetNumber == old(game.targetNumber)
  {
    ghost var s0 := game.Snapshot();
    ms := [];
    var i := 0;
    while i < |gs|
      invariant 0 <= i <= |gs|
      invariant game.Valid()
      invariant game.targetNumber == s0.target && game.attempts == s0.attempts + i
      invariant Replay(s0, gs) == Replay(game.Snapshot(), gs[i..])
      invariant Transcript(s0, gs) == ms + Transcript(game.Snapshot(), gs[i..])
    {
      assert gs[i..][0] == gs[i] && gs[i..][1..] == gs[i + 1..];
      var message, count := game.Guess(gs[i]);
      ms := ms + [message];
      i := i + 1;
    }
    assert gs[i..] == [];
    ReplayCounts(s0, gs);
  }

  /** A client of the object: guessing the target twice is congratulated both
      times with rising counts, and a later wrong guess is still compared and
      counted. */
  method PlayAfterWin() returns (first: string, second: string, third: string, count: nat)
    ensures first == "Congratulations! You guessed the number in 1 attempts!"
    ensures second == "Congratulations! You guessed the number in 2 attempts!"
    ensures third == "Too low! Attempt 3"
    ensures count == 3
  {
    var game := new GameState();
    var c: nat;
    first, c := game.Guess(game.targetNumber);
    assert first == Render(Correct, 1);
    second, c := game.Guess(game.targetNumber);
    assert second == Render(Correct, 2);
    third, count := game.Guess(0);
    assert third == Render(TooLow, 3);
    assert Show(1) == "1" && Show(2) == "2" && Show(3) == "3";
  }
}
