/**
 * The round loop of main.c. The state of the game is the key buffer, the
 * delay table and the step counter, the globals of main.c; one call of
 * `PlayRound` is one pass of the `while (1)` loop.
 */
module Round {
  import opened Effects
  import opened Gpio
  import opened Entropy
  import opened Keys
  import opened Display

  /** MAX_STEPS (defines.h): the longest sequence. */
  const MaxSteps := 100

  /** The delay table of main.c, one entry per speed tier, in ms. */
  const DelayTable: seq<Byte> := [255, 127, 63, 31]

  /** Between rounds: every LED off and every channel an input, so the buttons can be read. */
  const Rest := PortState(AllInput, AllSet)

  /** Where the program counter of main is between two calls of `PlayRound`. */
  datatype Phase =
    | Playing  // at the top of the round loop
    | Polling  // inside getKeys, waiting for a press the input stream did not supply
    | Lockout  // inside the inner `while (1)` entered after the last step

  datatype Outcome = Passed | Failed | Waiting | LockedOut

  /** How a verdict of getKeys ends the round. */
  function OutcomeOf(v: KeyResult): Outcome
  {
    match v
    case Accepted => Passed
    case Rejected => Failed
    case StillPolling => Waiting
  }

  /** The failure branch: 500 ms, the failure animation, 500 ms, the score `r`, 500 ms, the start animation. */
  function GameOverTrace(r: Byte): seq<Effect>
  {
    [Pause(500)] + FailAnimation() + [Pause(500)] + ScoreTrace(r) + [Pause(500)] + StartAnimation()
  }

  /** What follows the answer: 500 ms after a pass, the game-over display for score `r` after a failure. */
  function Aftermath(outcome: Outcome, r: Byte): seq<Effect>
  {
    match outcome
    case Passed => [Pause(500)]
    case Failed => GameOverTrace(r)
    case _ => []
  }

  /** A piece of output that is safe from the resting port and returns to it keeps the history safe and at rest. */
  lemma Settles(t: seq<Effect>, piece: seq<Effect>)
    requires DrivesOnlyOutputs(Boot(), t) && Run(Boot(), t) == Rest
    requires DrivesOnlyOutputs(Rest, piece) && Run(Rest, piece) == Rest
    ensures DrivesOnlyOutputs(Boot(), t + piece) && Run(Boot(), t + piece) == Rest
  {
    DrivesOnlyOutputsAppend(Boot(), t, piece);
    RunAppend(Boot(), t, piece);
  }

  /** A delay is safe and changes nothing. */
  lemma PauseSettles(t: seq<Effect>, ms: nat)
    requires DrivesOnlyOutputs(Boot(), t) && Run(Boot(), t) == Rest
    ensures DrivesOnlyOutputs(Boot(), t + [Pause(ms)]) && Run(Boot(), t + [Pause(ms)]) == Rest
  {
    assert NoWrite([Pause(ms)]);
    NoWriteDrivesNothing(Rest, [Pause(ms)]);
    assert Run(Rest, [Pause(ms)]) == Run(Rest, []);
    Settles(t, [Pause(ms)]);
  }

  /** The start-up of main: all four LEDs switched off, then the start animation. */
  lemma BootSettles()
    ensures DrivesOnlyOutputs(Boot(), Sweep(Set, 4) + StartAnimation())
    ensures Run(Boot(), Sweep(Set, 4) + StartAnimation()) == Rest
  {
    var off := Sweep(Set, 4);
    FullSweepRun(Boot(), Set);
    SweepsWrite(Set, 4, 0);
    BodyKeepsOutputs(Boot(), off);
    StartAnimationSafe(Run(Boot(), off));
    DrivesOnlyOutputsAppend(Boot(), off, StartAnimation());
    RunAppend(Boot(), off, StartAnimation());
  }

  /** The board after main's start-up: all four LEDs switched off, then the start animation; the port rests. */
  method PowerOn() returns (board: Board)
    ensures fresh(board) && board.Valid()
    ensures board.trace == Sweep(Set, 4) + StartAnimation()
    ensures DrivesOnlyOutputs(Boot(), board.trace) && Run(Boot(), board.trace) == Rest
  {
    board := new Board();
    SweepAll(board, Set);
    ShowStartAnimation(board);
    assert board.trace == Sweep(Set, 4) + StartAnimation();
    BootSettles();
  }

  class Game {
    const board: Board
    const keys: array<Byte>
    const delayTimes: array<Byte>
    var steps: Byte
    var phase: Phase

    /**
     * At most MAX_STEPS keys, each a channel; nothing was ever written to
     * a channel that was not an output; and between rounds the port rests.
     */
    ghost predicate Valid()
      reads this, board, keys, delayTimes
    {
      board.Valid() &&
      keys.Length == MaxSteps && delayTimes.Length == 4 && keys != delayTimes &&
      delayTimes[..] == DelayTable &&
      steps <= MaxSteps &&
      (forall k :: 0 <= k < steps ==> keys[k] < 4) &&
      DrivesOnlyOutputs(Boot(), board.trace) &&
      board.modes == AllInput && board.latches == AllSet &&
      (phase == Lockout ==> steps == 0)
    }

    /** main up to the round loop: the globals, then all four LEDs off and the start animation. */
    constructor ()
      ensures Valid() && fresh(board) && fresh(keys) && fresh(delayTimes)
      ensures steps == 0 && phase == Playing
      ensures keys[..] == seq(MaxSteps, _ => 0)
      ensures board.trace == Sweep(Set, 4) + StartAnimation()
    {
      var powered := PowerOn();
      board := powered;
      keys := new Byte[MaxSteps](_ => 0);
      delayTimes := new Byte[] [255, 127, 63, 31];
      steps := 0;
      phase := Playing;
      new;
      assert delayTimes[..] == DelayTable;
    }

    /**
     * One pass of the round loop. With fewer than MAX_STEPS steps, play a
     * turn; after MAX_STEPS steps the game only plays the start animation,
     * forever. `Waiting` means the input stream ended inside getKeys: the
     * device is still waiting there, and later calls change nothing.
     */
    method PlayRound(seed0: bv16, samples: seq<bv32>, presses: seq<Press>) returns (outcome: Outcome)
      requires Valid() && |samples| == Readings
      modifies this, board, keys
      ensures Valid()
      ensures old(phase) == Polling ==>
                outcome == Waiting && phase == Polling && steps == old(steps) &&
                keys[..] == old(keys[..]) && board.trace == old(board.trace)
      ensures old(phase) != Polling && (old(phase) == Lockout || old(steps) == MaxSteps) ==>
                outcome == LockedOut && phase == Lockout && steps == 0 &&
                keys[..] == old(keys[..]) && board.trace == old(board.trace) + StartAnimation()
      ensures old(phase) == Playing && old(steps) < MaxSteps ==>
                keys[..] == old(keys[..])[old(steps) := Draw(seed0, samples)] &&
                outcome == OutcomeOf(Verdict(keys[..old(steps) + 1], Confirmed(presses)))
      ensures old(phase) == Playing && old(steps) < MaxSteps && outcome == Passed ==>
                steps == old(steps) + 1 && phase == Playing
      ensures old(phase) == Playing && old(steps) < MaxSteps && outcome == Failed ==>
                steps == 0 && phase == Playing
      ensures old(phase) == Playing && old(steps) < MaxSteps && outcome == Waiting ==>
                steps == old(steps) && phase == Polling
      ensures old(phase) == Playing && old(steps) < MaxSteps ==>
                board.trace == old(board.trace) +
                  SequenceTrace(seed0, samples, keys[..old(steps) + 1], DelayTable[Tier(old(steps))]) +
                  Aftermath(outcome, old(steps))
    {
      if phase == Polling {
        return Waiting;
      }
      if phase == Lockout || steps >= MaxSteps {
        LockOut();
        return LockedOut;
      }
      outcome := Turn(seed0, samples, presses);
    }

    /** The inner `while (1)` of main, once round: the step counter is cleared and the start animation plays. */
    method LockOut()
      requires Valid()
      modifies this, board
      ensures Valid() && phase == Lockout && steps == 0
      ensures board.trace == old(board.trace) + StartAnimation()
    {
      steps := 0;
      ShowStart();
      phase := Lockout;
    }

    /**
     * One turn: show the sequence with a new key, then read the player's
     * keys. A correct answer adds a step; a wrong one shows the failure
     * animation and the score for the steps reached, and starts over.
     */
    method Turn(seed0: bv16, samples: seq<bv32>, presses: seq<Press>) returns (outcome: Outcome)
      requires Valid() && |samples| == Readings && phase == Playing && steps < MaxSteps
      modifies this, board, keys
      ensures Valid()
      ensures keys[..] == old(keys[..])[old(steps) := Draw(seed0, samples)]
      ensures outcome == OutcomeOf(Verdict(keys[..old(steps) + 1], Confirmed(presses)))
      ensures forall k :: 0 <= k <= old(steps) ==> keys[k] < 4
      ensures outcome == Passed ==> steps == old(steps) + 1 && phase == Playing
      ensures outcome == Failed ==> steps == 0 && phase == Playing
      ensures outcome == Waiting ==> steps == old(steps) && phase == Polling
      ensures outcome != LockedOut
      ensures board.trace == old(board.trace) +
                SequenceTrace(seed0, samples, keys[..old(steps) + 1], DelayTable[Tier(old(steps))]) +
                Aftermath(outcome, old(steps))
    {
      Present(seed0, samples);
      outcome := Answer(presses);
    }

    /** getKeys against the sequence shown, and what the round loop does with its verdict. */
    method Answer(presses: seq<Press>) returns (outcome: Outcome)
      requires Valid() && phase == Playing && steps < MaxSteps && keys[steps] < 4
      modifies this, board
      ensures Valid()
      ensures outcome == OutcomeOf(Verdict(keys[..old(steps) + 1], Confirmed(presses)))
      ensures outcome == Passed ==> steps == old(steps) + 1 && phase == Playing
      ensures outcome == Failed ==> steps == 0 && phase == Playing
      ensures outcome == Waiting ==> steps == old(steps) && phase == Polling
      ensures outcome != LockedOut
      ensures board.trace == old(board.trace) + Aftermath(outcome, old(steps))
    {
      var verdict, used := GetKeys(keys, steps, presses);
      ghost var expected := keys[..steps + 1];
      match verdict
      case Accepted =>
        Advance();
        outcome := Passed;
      case Rejected =>
        GameOver();
        outcome := Failed;
      case StillPolling =>
        Suspend();
        outcome := Waiting;
      assert keys[..old(steps) + 1] == expected;
    }

    /** The stream of events ended inside getKeys: the game stays there. */
    method Suspend()
      requires Valid() && phase == Playing
      modifies this
      ensures Valid() && phase == Polling && steps == old(steps)
    {
      phase := Polling;
    }

    /** showSequence for the current step: a new key at `keys[steps]`, then the whole sequence at the speed of its tier. */
    method Present(seed0: bv16, samples: seq<bv32>)
      requires Valid() && |samples| == Readings && steps < MaxSteps
      modifies board, keys
      ensures Valid()
      ensures keys[..] == old(keys[..])[steps := Draw(seed0, samples)]
      ensures forall k :: 0 <= k <= steps ==> keys[k] < 4
      ensures board.trace ==
                old(board.trace) + SequenceTrace(seed0, samples, keys[..steps + 1], DelayTable[Tier(steps)])
    {
      ShowSequence(board, keys, steps, seed0, samples, delayTimes);
      ghost var shown := SequenceTrace(seed0, samples, keys[..steps + 1], delayTimes[Tier(steps)]);
      SequenceShown(Rest, seed0, samples, keys[..steps + 1], delayTimes[Tier(steps)]);
      Settles(old(board.trace), shown);
    }

    /** A correct answer: wait 500 ms and add a step. */
    method Advance()
      requires Valid() && phase == Playing && steps < MaxSteps && keys[steps] < 4
      modifies this, board
      ensures Valid() && steps == old(steps) + 1 && phase == Playing
      ensures board.trace == old(board.trace) + [Pause(500)]
    {
      Wait(500);
      steps := steps + 1;
    }

    /** The failure branch of the round loop: the failure animation, the score for the steps reached, and a new game. */
    method GameOver()
      requires Valid() && phase != Lockout
      modifies this, board
      ensures Valid() && steps == 0 && phase == old(phase)
      ensures board.trace == old(board.trace) + GameOverTrace(old(steps))
    {
      ghost var t0 := board.trace;
      Wait(500);
      ShowFailed();
      Regroup(t0, [Pause(500)], FailAnimation());
      ghost var shown := [Pause(500)] + FailAnimation();
      Wait(500);
      Regroup(t0, shown, [Pause(500)]);
      shown := shown + [Pause(500)];
      ShowScore(steps);
      Regroup(t0, shown, ScoreTrace(old(steps)));
      shown := shown + ScoreTrace(old(steps));
      Wait(500);
      Regroup(t0, shown, [Pause(500)]);
      shown := shown + [Pause(500)];
      steps := 0;
      ShowStart();
      Regroup(t0, shown, StartAnimation());
    }

    /** HAL_Delay between rounds: the port stays at rest. */
    method Wait(ms: nat)
      requires Valid()
      modifies board
      ensures Valid() && board.trace == old(board.trace) + [Pause(ms)]
    {
      PauseSettles(board.trace, ms);
      board.Delay(ms);
    }

    /** showStartAnimation between rounds. */
    method ShowStart()
      requires Valid()
      modifies board
      ensures Valid() && board.trace == old(board.trace) + StartAnimation()
    {
      StartAnimationSafe(Rest);
      Settles(board.trace, StartAnimation());
      ShowStartAnimation(board);
    }

    /** showFailAnimation between rounds. */
    method ShowFailed()
      requires Valid()
      modifies board
      ensures Valid() && board.trace == old(board.trace) + FailAnimation()
    {
      FailAnimationSafe(Rest);
      Settles(board.trace, FailAnimation());
      ShowFailAnimation(board);
    }

    /** showResult between rounds. */
    method ShowScore(r: Byte)
      requires Valid()
      modifies board
      ensures Valid() && board.trace == old(board.trace) + ScoreTrace(r)
    {
      ScoreSafe(Rest, r);
      Settles(board.trace, ScoreTrace(r));
      ShowResult(board, r);
    }
  }
}
