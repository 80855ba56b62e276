# Simon Says game core in Dafny

A model of the game logic of the Soldered "Simon Says" soldering kit: an
STM32 program with four channels, each a button and an LED on one GPIO
line, and one analog noise input. The program draws a random channel
each round and appends it to the sequence. It shows the whole sequence
on the LEDs, then reads the player's presses and compares them with the
sequence. A correct answer lengthens the sequence by one. A wrong one
shows a failure animation, blinks the score in decimal and starts over.
After `MAX_STEPS` (100) correct rounds the device locks into the start
animation.

The model has six modules:

- `Effects` (effects.dfy) defines the port state and the effects on it:
  - The port state is the mode and the output latch of each channel.
  - An effect is one of: switch all four channels to input or to
    output, drive one channel to a level, or wait.
  - `Run` gives a trace its meaning. It replays the trace on the port.
  - `DrivesOnlyOutputs` says a trace never drives a channel that is an
    input.
  - `Blinked` lists the channels a trace switches on, in order.
  - `Duration` is the total time the trace waits.
- `Gpio` (gpio.dfy) models the board:
  - The board is a class whose mode and latch registers change in place.
  - The class also records its effect trace. The registers always equal
    what `Run` gives for that trace from the bring-up state.
  - It covers `setPinsAsInputs`, `setPinsAsOutputs` and `getButtons`.
- `Entropy` (entropy.dfy) is `calculateNewRandom`. It is bit-exact on
  `bv16`/`bv8` arithmetic, with the 25 ADC readings and the starting
  seed as parameters.
- `Keys` (keys.dfy) is `getKeys`. Its input is a finite stream of button
  events. The `Verdict` of the sequence of confirmed presses is proved
  to be the result.
- `Display` (display.dfy) holds the four show functions. Each is a
  method on the board whose effect is a named trace. Lemmas state which
  channels each trace lights, in which order, for how long, and in
  which state it leaves the port.
- `Round` (round.dfy) holds the globals of main.c and its round loop, as
  a class `Game`:
  - The fields are `keys`, `delayTimes`, `steps` and a phase.
  - `PlayRound` is one pass of the `while (1)` loop.
  - The phase is `Lockout` once the inner `while (1)` is entered.

Two facts about the source that the model follows exactly:

- The guard `if (i > 22)` (simon_says_stm/Core/Src/game.c:138) fires
  for `i = 23` and `i = 24` only, so two readings are delayed
  (`Entropy.JittersOfDraw`).
- `seed` is never initialised (game.c:129). The model takes it as the
  parameter `seed0`.

## Model

| member | source | states |
|---|---|---|
| Gpio.Board.constructor | simon_says_stm/Core/Src/main.c:262-281 | the port after peripheral bring-up: all four channels push-pull outputs driven low, nothing done yet |
| Gpio.Board.SetPinsAsInputs | simon_says_stm/Core/Src/game.c:20-37 | all four channels become inputs, the output latches are kept, and the switch is recorded |
| Gpio.Board.SetPinsAsOutputs | simon_says_stm/Core/Src/game.c:44-60 | all four channels become outputs, the output latches are kept, and the switch is recorded |
| Gpio.Board.WritePin | simon_says_stm/Core/Src/game.c:81 | only the latch of channel `c` changes, to `level`; modes are unchanged |
| Gpio.Board.Delay | simon_says_stm/Core/Src/game.c:133 | a delay records a wait and changes no register |
| Gpio.PressedMask | simon_says_stm/Core/Src/game.c:199-205 | the mask is at most 15 and bit i is set exactly when channel i reads RESET (active-low buttons) |
| Gpio.GetButtons | simon_says_stm/Core/Src/game.c:196-206 | the loop that ORs `!pinState << i` into the mask, then masks with 0x0f, returns `PressedMask` of the pins |
| Gpio.LowestSetBit | simon_says_stm/Core/Src/game.c:173-176 | for a nonzero 4-bit mask, the chosen channel's bit is set and no lower bit is, so the channel is in 0..3 |
| Effects.FramedIsSafe | simon_says_stm/Core/Src/game.c:77-91 | a body that does not switch modes, wrapped in setPinsAsOutputs … setPinsAsInputs, drives only outputs and leaves every channel an input |
| Entropy.XorIn | simon_says_stm/Core/Src/game.c:139 | only the low 16 bits of the reading reach the seed, and XOR-ing them in again gives the old seed back |
| Entropy.Lcg | simon_says_stm/Core/Src/game.c:141 | `2053 * seed + 13849` cut to 16 bits has an inverse (`Unlcg`, multiplier 33997), so the step loses no seed |
| Entropy.MixStep | simon_says_stm/Core/Src/game.c:139-141 | one loop iteration on the seed can be undone given its reading |
| Entropy.Mixed | simon_says_stm/Core/Src/game.c:136-141 | undoing the 25 readings in reverse order gives the starting seed back, so different starting seeds end in different seeds |
| Entropy.XorBytes | simon_says_stm/Core/Src/game.c:143 | `temp` is the XOR of the low and the high byte of the seed |
| Entropy.XorNibbles | simon_says_stm/Core/Src/game.c:145 | the low nibble becomes the XOR of both nibbles; the high nibble is kept |
| Entropy.XorPairs | simon_says_stm/Core/Src/game.c:149 | the result is below 4 and is the XOR of the two low bit pairs of `temp` |
| Entropy.Digit | simon_says_stm/Core/Src/game.c:143-149 | the byte fold, the nibble fold and the final pair fold together give the XOR of all eight two-bit groups of the 16-bit seed, a value in 0..3 |
| Entropy.Draw | simon_says_stm/Core/Src/game.c:136-149 | the drawn value is in 0..3 and is a function of the starting seed and the 25 readings only |
| Entropy.JitterMs | simon_says_stm/Core/Src/game.c:138 | a jitter delay of `temp & 3` is at most 3 ms |
| Entropy.NextReading | simon_says_stm/Core/Src/game.c:138-145 | one loop iteration XORs in the reading, then does the 16-bit LCG step; it adds a jitter delay only when `i > 22` |
| Entropy.JittersOfDraw | simon_says_stm/Core/Src/game.c:136-138 | over the 25 readings, exactly two jitter delays happen, before readings 23 and 24, each taken from the previous `temp` |
| Entropy.DrawTraceShape | simon_says_stm/Core/Src/game.c:128-138 | a draw writes no channel, leaves all channels inputs with the latches unchanged, and waits between 1 and 7 ms in four effects |
| Entropy.CalculateNewRandom | simon_says_stm/Core/Src/game.c:127-150 | the 25-iteration loop returns `Draw(seed0, samples)`, always < 4; the board sees inputs, 1 ms, then the two jitter delays |
| Keys.Confirmed | simon_says_stm/Core/Src/game.c:168-184 | the confirmed channels are never more than the events |
| Keys.AllConfirmed | simon_says_stm/Core/Src/game.c:177-184 | every event yields a channel exactly when every event passes the poll and the debounce re-read |
| Keys.Verdict | simon_says_stm/Core/Src/game.c:168-186 | the rule getKeys is proved against: an answer still waits only while fewer channels than expected are in, and is accepted only once all expected channels are in |
| Keys.PendingIff | simon_says_stm/Core/Src/game.c:168-185 | getKeys is still waiting exactly when the presses so far are a correct but incomplete answer |
| Keys.ConfirmedAppend | simon_says_stm/Core/Src/game.c:168-184 | the confirmed presses of a stream are those of its parts, in order |
| Keys.GlitchIgnored | simon_says_stm/Core/Src/game.c:177-184 | a press that no longer reads RESET after the debounce re-read adds nothing, wherever it occurs |
| Keys.AcceptedIff | simon_says_stm/Core/Src/game.c:168-186 | the answer is accepted exactly when the confirmed presses begin with the whole expected sequence |
| Keys.RejectedIff | simon_says_stm/Core/Src/game.c:181-182 | the answer is rejected exactly when some confirmed press differs from the expected key and all earlier ones matched |
| Keys.VerdictSettles | simon_says_stm/Core/Src/game.c:181-186 | once accepted or rejected, more presses do not change the verdict |
| Keys.PrefixPending | simon_says_stm/Core/Src/game.c:168 | a correct but incomplete answer is still waiting for presses |
| Keys.WrongRejects | simon_says_stm/Core/Src/game.c:181-182 | a correct prefix followed by a wrong key is rejected |
| Keys.Decided | simon_says_stm/Core/Src/game.c:182-186 | a verdict reached on a prefix of the stream is the verdict of the whole stream, so getKeys may stop there |
| Keys.FirstPressed | simon_says_stm/Core/Src/game.c:173-176 | the `for`/`break` scan finds the lowest set bit of the mask |
| Keys.Poll | simon_says_stm/Core/Src/game.c:169-176 | an event counts as seen exactly when its mask is nonzero, and its candidate is then the lowest pressed channel |
| Keys.GetKeys | simon_says_stm/Core/Src/game.c:163-187 | the result is the verdict of the confirmed presses against `keys[0..steps]`; it stops right after the deciding confirmed press; it runs out of input only while still undecided; `keys` is read-only |
| Display.Tier | simon_says_stm/Core/Src/game.c:115 | the index `(_n / 50) & 3` is always in 0..3 |
| Display.TierOfStep | simon_says_stm/Core/Src/game.c:115 | below 200 steps the `& 3` changes nothing: the tier is `_n / 50` |
| Display.SweepRun | simon_says_stm/Core/Src/game.c:220-226 | writing channels 0..k-1 sets exactly those latches and keeps the modes |
| Display.PacedSweepRun | simon_says_stm/Core/Src/game.c:80-87 | the paced sweep sets exactly latches 0..k-1 and keeps the modes |
| Display.FullSweepRun | simon_says_stm/Core/Src/main.c:115-117 | a full sweep leaves all four latches at the level |
| Display.SweepBlinked | simon_says_stm/Core/Src/game.c:220-222 | a RESET sweep lights channels 0..k-1 in order; a SET sweep lights none |
| Display.PacedSweepBlinked | simon_says_stm/Core/Src/game.c:80-83 | the paced RESET sweep lights channels 0..k-1 in order; the SET sweep lights none |
| Display.SweepDuration | simon_says_stm/Core/Src/game.c:220-222 | the unpaced sweep takes no time |
| Display.PacedSweepDuration | simon_says_stm/Core/Src/game.c:80-87 | the paced sweep takes k * ms |
| Display.BlinkRun | simon_says_stm/Core/Src/game.c:114-117 | a blink of an unlit channel leaves the port as it found it and switches no modes |
| Display.BlinkBlinked | simon_says_stm/Core/Src/game.c:114-117 | a blink lights exactly its channel, once |
| Display.BlinkDuration | simon_says_stm/Core/Src/game.c:114-117 | a blink takes its on time plus its off time |
| Display.RepeatRun | simon_says_stm/Core/Src/game.c:79 | repeating a block that restores the port restores the port |
| Display.RepeatDuration | simon_says_stm/Core/Src/game.c:219 | k repetitions take k times as long |
| Display.ScoreBlinksRun | simon_says_stm/Core/Src/game.c:246-251 | the blinks of one digit restore the port, switch no modes, and take 400 ms each |
| Display.ScoreBlinksBlinked | simon_says_stm/Core/Src/game.c:246-251 | k score blinks light the channel exactly k times |
| Display.StartCycleRun | simon_says_stm/Core/Src/game.c:80-87 | one start cycle leaves all latches SET and switches no modes |
| Display.FailCycleRun | simon_says_stm/Core/Src/game.c:220-227 | one fail cycle leaves all latches SET and switches no modes |
| Display.StartCycleBlinks | simon_says_stm/Core/Src/game.c:80-83 | a start cycle lights 0, 1, 2, 3 |
| Display.StartCycleDuration | simon_says_stm/Core/Src/game.c:80-87 | a start cycle takes 800 ms |
| Display.FailCycleBlinks | simon_says_stm/Core/Src/game.c:220-222 | a fail cycle lights 0, 1, 2, 3 |
| Display.FailCycleDuration | simon_says_stm/Core/Src/game.c:223-227 | a fail cycle takes 500 ms |
| Display.StartAnimationSafe | simon_says_stm/Core/Src/game.c:72-92 | from any port state the start animation drives only outputs and ends with all channels inputs and all LEDs off |
| Display.StartAnimationBlinks | simon_says_stm/Core/Src/game.c:79-89 | exactly two cycles: it lights 0, 1, 2, 3, 0, 1, 2, 3 and takes 2600 ms |
| Display.FailAnimationSafe | simon_says_stm/Core/Src/game.c:215-230 | from any port state the fail animation drives only outputs and ends with all channels inputs and all LEDs off |
| Display.FailAnimationBlinks | simon_says_stm/Core/Src/game.c:219-228 | exactly two cycles: it lights 0, 1, 2, 3, 0, 1, 2, 3 and takes 1000 ms |
| Display.ReplayBlinks | simon_says_stm/Core/Src/game.c:113-118 | the replay lights exactly the keys shown, in order |
| Display.ReplayDuration | simon_says_stm/Core/Src/game.c:113-118 | each shown key takes the delay twice |
| Display.ReplayRun | simon_says_stm/Core/Src/game.c:113-118 | with all LEDs off, the replay restores the port and switches no modes |
| Display.SequenceShown | simon_says_stm/Core/Src/game.c:109-120 | showSequence drives only outputs, ends at rest, and lights exactly `_s[0..._n]` in order |
| Display.ScoreBlinked | simon_says_stm/Core/Src/game.c:245-267 | showResult lights channel 2 `r/100` times, then channel 1 `r/10%10` times, then channel 0 `r%10` times |
| Display.ScoreReadsBack | simon_says_stm/Core/Src/game.c:245-267 | counting the blinks per channel gives three decimal digits with `100*h + 10*t + u == r`, so a zero digit gives no blink |
| Display.DecimalDigits | simon_says_stm/Core/Src/game.c:245-261 | the three digits recompose the byte, and the hundreds digit is below 10 |
| Display.ScoreSafe | simon_says_stm/Core/Src/game.c:241-269 | showResult drives only outputs, ends at rest, and takes 400 ms per blink |
| Display.SweepPaced | simon_says_stm/Core/Src/game.c:80-87 | the inner loop records the paced sweep with 100 ms steps |
| Display.StartCycleShown | simon_says_stm/Core/Src/game.c:80-87 | one pass of the outer loop records one start cycle |
| Display.ShowStartAnimation | simon_says_stm/Core/Src/game.c:72-92 | showStartAnimation records exactly the start animation |
| Display.SweepAll | simon_says_stm/Core/Src/game.c:220-226 | the unpaced loop writes channels 0..3 in order |
| Display.FailCycleShown | simon_says_stm/Core/Src/game.c:220-227 | one pass of the outer loop records one fail cycle |
| Display.ShowFailAnimation | simon_says_stm/Core/Src/game.c:215-230 | showFailAnimation records exactly the fail animation |
| Display.FlashDigit | simon_says_stm/Core/Src/game.c:246-251 | one digit loop records `blinks` score blinks on its channel |
| Display.ShowResult | simon_says_stm/Core/Src/game.c:241-269 | showResult records exactly the score trace of `r` |
| Display.BlinkShown | simon_says_stm/Core/Src/game.c:114-117 | one key is RESET, delay, SET, delay |
| Display.ReplayShown | simon_says_stm/Core/Src/game.c:112-119 | the loop records the replay of `_s[0..._n]`, framed by the two mode switches |
| Display.ShowSequence | simon_says_stm/Core/Src/game.c:109-120 | only `_s[_n]` changes, to the drawn value; every key up to `_n` stays a channel; the board records the draw, then the replay at `delayTimes[(_n / 50) & 3]` |
| Round.BootSettles | simon_says_stm/Core/Src/main.c:115-118 | driving all channels SET and showing the start animation leaves the port at rest, and nothing drove an input |
| Round.PowerOn | simon_says_stm/Core/Src/main.c:115-118 | main's start-up records the SET sweep, then the start animation, and leaves the port at rest |
| Round.Game.constructor | simon_says_stm/Core/Src/main.c:58-118 | the globals start as `keys` all zero, delay table `{255, 127, 63, 31}` and `steps == 0`, after the start-up display |
| Round.Game.PlayRound | simon_says_stm/Core/Src/main.c:125-146 | with `steps < MAX_STEPS` a round draws `keys[steps]` and its outcome is the verdict on `keys[0..steps]`. A pass adds exactly 1 to `steps`; a failure resets it to 0; an exhausted input stream keeps it. The board records the sequence, then the aftermath. At `MAX_STEPS` the game locks out: `steps` is 0, the round only shows the start animation, and `keys` is never touched again |
| Round.Game.Turn | simon_says_stm/Core/Src/main.c:126-140 | a round: only `keys[steps]` changes; a pass adds exactly 1 to `steps`; a failure shows the score for the old `steps` and resets to 0; the board records the sequence, then the aftermath |
| Round.Game.Present | simon_says_stm/Core/Src/main.c:127-128 | showSequence on the globals, with the write to `keys[steps]` inside the 100-entry buffer |
| Round.Game.Answer | simon_says_stm/Core/Src/main.c:129-140 | the branch on getKeys: a pass waits 500 ms and increments `steps`; a failure runs the game-over display and resets `steps` to 0 |
| Round.Game.Advance | simon_says_stm/Core/Src/main.c:130-131 | 500 ms, then `steps` increases by exactly one and stays at most MAX_STEPS |
| Round.Game.GameOver | simon_says_stm/Core/Src/main.c:133-139 | the failure branch: 500 ms, fail animation, 500 ms, the score of the pre-reset `steps`, 500 ms, then `steps = 0` and the start animation |
| Round.Game.LockOut | simon_says_stm/Core/Src/main.c:141-146 | the lockout loop body: `steps = 0` and the start animation |
| Round.Game.Suspend | simon_says_stm/Core/Src/game.c:169-171 | a getKeys that waits for a press the input never supplies leaves the game waiting, with `steps` kept |
| Round.Game.Wait | simon_says_stm/Core/Src/main.c:130 | `HAL_Delay(500)` only records a wait |
| Round.Game.ShowStart | simon_says_stm/Core/Src/main.c:139 | the start animation on the game's board |
| Round.Game.ShowFailed | simon_says_stm/Core/Src/main.c:134 | the fail animation on the game's board |
| Round.Game.ShowScore | simon_says_stm/Core/Src/main.c:136 | the score display on the game's board |

`Round.Game.Valid`, which every method keeps, states the following:

- `steps` stays in 0..MAX_STEPS.
- Every key below `steps` is a channel.
- The delay table is unchanged.
- No channel that is an input was ever driven.
- Between rounds all channels are inputs with their LEDs off.

## Left out

- Clock, ADC and GPIO bring-up (`SystemClock_Config`, `MX_ADC1_Init`,
  `MX_GPIO_Init`), `Error_Handler` and `assert_failed`. They are HAL
  calls outside the core. The board starts in the state the GPIO
  bring-up leaves.
- `HAL_Delay` has no real-time meaning. A delay is only recorded as a
  `Pause` in the trace.
- `HAL_ADC_Start` and `HAL_ADC_GetValue`. The readings are an injected
  sequence of 25 values. Only their low 16 bits reach the seed, as in
  the C assignment.
- main's `HAL_Delay(100)` before bring-up is not modelled. It happens
  before the board exists in the model.
- The pull-up, pull-down and speed fields of `setPinsAsInputs` and
  `setPinsAsOutputs` are not modelled. Only the mode change is.
- Keys.GetKeys: the busy-poll loops (game.c:169-171 and 179-180) become
  events of a finite input stream:
  - An empty poll is an event with a zero mask.
  - The wait for release is folded into the confirmed press, so the
    model does not state that the comparison waits for release.
  - The 25 ms debounce delay is not recorded in the trace.
  - A stream that ends before a verdict yields `StillPolling` instead
    of polling forever.
- Keys.GetKeys: the counter `n` is unbounded. In the C code `n` and
  `steps` are `uint8_t`, so with `steps == 255` the increment wraps `n`
  from 255 to 0, `while (n <= steps)` never ends and getKeys never
  returns 1. The model instead accepts after 256 correct presses. main
  only calls getKeys with `steps < MAX_STEPS` (100), where no wrap
  happens.
- Round.Game.PlayRound: after a round ends inside getKeys for lack of
  input (phase `Polling`), later rounds do nothing. Resuming the poll
  with more input is not modelled.
- The two `while (1)` loops of main are not modelled as loops:
  - The outer loop is repeated calls of `Round.Game.PlayRound`.
  - The lockout loop is the terminal phase `Lockout`. Each call in that
    phase performs one pass of its body.
