/**
 * The output choreography of game.c: the start and game-over animations,
 * the replay of the sequence the player has to repeat, and the score shown
 * as decimal digits. Each show function is a method on the board whose
 * effect is stated as a trace; the facts about the traces (which channels
 * light up, in which order, for how long, and the state they leave the
 * port in) are lemmas.
 */
module Display {
  import opened Effects
  import opened Gpio
  import opened Entropy

  /** SCORE_BLINK_ON and SCORE_BLINK_OFF (defines.h), in ms. */
  const ScoreBlinkOn := 200
  const ScoreBlinkOff := 200

  /** All channels to output, `body`, all channels back to input: the shape of every show function. */
  function Framed(body: seq<Effect>): seq<Effect>
  {
    [Configure(Output)] + body + [Configure(Input)]
  }

  /** Effects that only wait. */
  predicate Idle(effects: seq<Effect>)
  {
    forall k :: 0 <= k < |effects| ==> effects[k].Pause?
  }

  /** `block`, `k` times. */
  function Repeat(block: seq<Effect>, k: nat): seq<Effect>
    decreases k
  {
    if k == 0 then [] else Repeat(block, k - 1) + block
  }

  /** Channels 0 to k - 1 in order driven to `level`, with no delay between them. */
  function Sweep(level: Level, k: nat): (t: seq<Effect>)
    requires k <= 4
    ensures |t| == k
  {
    seq(k, i requires 0 <= i < k => Write(i, level))
  }

  /** Channels 0 to k - 1 in order driven to `level`, each followed by a delay of `ms`. */
  function PacedSweep(level: Level, k: nat, ms: nat): (t: seq<Effect>)
    requires k <= 4
    ensures |t| == 2 * k
  {
    seq(2 * k, i requires 0 <= i < 2 * k => if i % 2 == 0 then Write(i / 2, level) else Pause(ms))
  }

  /** One cycle of showStartAnimation: each LED on for 100 ms in turn, then each off. */
  function StartCycle(): seq<Effect>
  {
    PacedSweep(Reset, 4, 100) + PacedSweep(Set, 4, 100)
  }

  function StartAnimation(): seq<Effect>
  {
    Framed(Repeat(StartCycle(), 2) + [Pause(1000)])
  }

  /** One cycle of showFailAnimation: all LEDs on for 250 ms, then all off for 250 ms. */
  function FailCycle(): seq<Effect>
  {
    Sweep(Reset, 4) + [Pause(250)] + Sweep(Set, 4) + [Pause(250)]
  }

  /** showFailAnimation; unlike the start animation it ends without a delay. */
  function FailAnimation(): seq<Effect>
  {
    Framed(Repeat(FailCycle(), 2))
  }

  /** One LED flash: on (driven low) for `on` ms, then off for `off` ms. */
  function Blink(c: Channel, on: nat, off: nat): seq<Effect>
  {
    [Write(c, Reset), Pause(on), Write(c, Set), Pause(off)]
  }

  /** The flashes of the sequence `keys`, in order, each `d` ms on and `d` ms off. */
  function Replay(keys: seq<Channel>, d: nat): seq<Effect>
    decreases |keys|
  {
    if keys == [] then [] else Replay(keys[..|keys| - 1], d) + Blink(keys[|keys| - 1], d, d)
  }

  /** `(_n / 50) & 3`: the index into the delay table for step `n`. */
  function Tier(n: Byte): (k: nat)
    ensures k < 4
  {
    ((n / 50) as bv8 & 3) as nat
  }

  /** Everything showSequence does to the board once `keys` holds the sequence to show. */
  function SequenceTrace(seed: bv16, samples: seq<bv32>, keys: seq<Channel>, d: nat): seq<Effect>
    requires |samples| == Readings
  {
    DrawTrace(seed, samples) + Framed(Replay(keys, d))
  }

  /** `k` score flashes of channel `c`. */
  function ScoreBlinks(c: Channel, k: nat): seq<Effect>
  {
    Repeat(Blink(c, ScoreBlinkOn, ScoreBlinkOff), k)
  }

  /** showResult: the hundreds on channel 2, the tens on channel 1, the units on channel 0. */
  function ScoreTrace(r: Byte): seq<Effect>
  {
    Framed(ScoreBlinks(2, r / 100) + ScoreBlinks(1, r / 10 % 10) + ScoreBlinks(0, r % 10))
  }

  /** `k` copies of channel `c`. */
  function Copies(c: Channel, k: nat): seq<Channel>
    decreases k
  {
    if k == 0 then [] else Copies(c, k - 1) + [c]
  }

  /** Channels 0 to k - 1, in order. */
  function Upto(k: nat): seq<Channel>
    requires k <= 4
    decreases k
  {
    if k == 0 then [] else Upto(k - 1) + [k - 1]
  }

  // ---------------------------------------------------------------------
  // Facts about the building blocks

  lemma {:induction false} IdleFacts(s: PortState, gap: seq<Effect>)
    requires s.Valid() && Idle(gap)
    ensures Run(s, gap) == s && Blinked(gap) == [] && NoConfigure(gap)
    decreases |gap|
  {
    if gap != [] {
      assert Idle(gap[1..]) by {
        forall k | 0 <= k < |gap[1..]| ensures gap[1..][k].Pause? {
          assert gap[1..][k] == gap[k + 1];
        }
      }
      IdleFacts(s, gap[1..]);
    }
  }

  lemma RunFramed(s: PortState, body: seq<Effect>)
    requires s.Valid()
    ensures Run(s, Framed(body)) == Apply(Run(Apply(s, Configure(Output)), body), Configure(Input))
    ensures Blinked(Framed(body)) == Blinked(body)
    ensures Duration(Framed(body)) == Duration(body)
  {
    var s1 := Apply(s, Configure(Output));
    assert Run(s, [Configure(Output)]) == s1;
    RunAppend(s, [Configure(Output)], body);
    RunAppend(s, [Configure(Output)] + body, [Configure(Input)]);
    var s2 := Run(s1, body);
    assert Run(s2, [Configure(Input)]) == Apply(s2, Configure(Input));
    BlinkedAppend([Configure(Output)], body);
    BlinkedAppend([Configure(Output)] + body, [Configure(Input)]);
    DurationAppend([Configure(Output)], body);
    DurationAppend([Configure(Output)] + body, [Configure(Input)]);
  }

  /** One more channel at the end of a sweep. */
  lemma SweepNext(level: Level, k: nat)
    requires k < 4
    ensures Sweep(level, k + 1) == Sweep(level, k) + [Write(k, level)]
  {
  }

  /** One more channel and its delay at the end of a paced sweep. */
  lemma PacedSweepNext(level: Level, k: nat, ms: nat)
    requires k < 4
    ensures PacedSweep(level, k + 1, ms) == PacedSweep(level, k, ms) + [Write(k, level), Pause(ms)]
  {
    var a, b := PacedSweep(level, k + 1, ms), PacedSweep(level, k, ms) + [Write(k, level), Pause(ms)];
    forall i | 0 <= i < 2 * k + 2 ensures a[i] == b[i] {
      if i >= 2 * k {
        assert i == 2 * k || i == 2 * k + 1;
      }
    }
  }

  /** A sweep drives channels 0 to k - 1 to `level` and leaves the others and the modes alone. */
  lemma {:induction false} SweepRun(s: PortState, level: Level, k: nat)
    requires s.Valid() && k <= 4
    ensures Run(s, Sweep(level, k)).modes == s.modes
    ensures forall i :: 0 <= i < 4 ==> Run(s, Sweep(level, k)).latches[i] == if i < k then level else s.latches[i]
    decreases k
  {
    if k > 0 {
      SweepRun(s, level, k - 1);
      SweepNext(level, k - 1);
      var s1 := Run(s, Sweep(level, k - 1));
      RunAppend(s, Sweep(level, k - 1), [Write(k - 1, level)]);
      assert Run(s1, [Write(k - 1, level)]) == Apply(s1, Write(k - 1, level));
    }
  }

  /** The same for a paced sweep: its delays change nothing. */
  lemma {:induction false} PacedSweepRun(s: PortState, level: Level, k: nat, ms: nat)
    requires s.Valid() && k <= 4
    ensures Run(s, PacedSweep(level, k, ms)).modes == s.modes
    ensures forall i :: 0 <= i < 4 ==>
              Run(s, PacedSweep(level, k, ms)).latches[i] == if i < k then level else s.latches[i]
    decreases k
  {
    if k > 0 {
      PacedSweepRun(s, level, k - 1, ms);
      PacedSweepNext(level, k - 1, ms);
      var s1 := Run(s, PacedSweep(level, k - 1, ms));
      var w := Write(k - 1, level);
      RunAppend(s, PacedSweep(level, k - 1, ms), [w, Pause(ms)]);
      assert Run(s1, [w, Pause(ms)]) == Run(Apply(s1, w), [Pause(ms)]);
      assert Run(Apply(s1, w), [Pause(ms)]) == Apply(s1, w);
    }
  }

  /** Sweeps only write and wait. */
  lemma SweepsWrite(level: Level, k: nat, ms: nat)
    requires k <= 4
    ensures NoConfigure(Sweep(level, k)) && NoConfigure(PacedSweep(level, k, ms))
  {
    var a, b := Sweep(level, k), PacedSweep(level, k, ms);
    forall i | 0 <= i < |b| ensures !b[i].Configure? {
      assert b[i] == if i % 2 == 0 then Write(i / 2, level) else Pause(ms);
    }
  }

  /** A sweep to low lights channels 0 to k - 1 in order; a sweep to high lights nothing. */
  lemma {:induction false} SweepBlinked(level: Level, k: nat)
    requires k <= 4
    ensures Blinked(Sweep(level, k)) == if level == Reset then Upto(k) else []
    decreases k
  {
    if k > 0 {
      var w := Write(k - 1, level);
      SweepBlinked(level, k - 1);
      SweepNext(level, k - 1);
      BlinkedAppend(Sweep(level, k - 1), [w]);
      assert Blinked([w]) == Lights(w) + Blinked([]);
    }
  }

  /** The same for a paced sweep. */
  lemma {:induction false} PacedSweepBlinked(level: Level, k: nat, ms: nat)
    requires k <= 4
    ensures Blinked(PacedSweep(level, k, ms)) == if level == Reset then Upto(k) else []
    decreases k
  {
    if k > 0 {
      var w, p := Write(k - 1, level), [Pause(ms)];
      calc {
        Blinked(PacedSweep(level, k, ms));
        { PacedSweepNext(level, k - 1, ms); }
        Blinked(PacedSweep(level, k - 1, ms) + [w, Pause(ms)]);
        { BlinkedAppend(PacedSweep(level, k - 1, ms), [w, Pause(ms)]); }
        Blinked(PacedSweep(level, k - 1, ms)) + Blinked([w, Pause(ms)]);
        { assert [w, Pause(ms)][1..] == p; assert Blinked(p) == [] + Blinked([]); }
        Blinked(PacedSweep(level, k - 1, ms)) + Lights(w);
        { PacedSweepBlinked(level, k - 1, ms); }
        (if level == Reset then Upto(k - 1) else []) + Lights(w);
      }
      if level == Reset {
        assert Upto(k - 1) + Lights(w) == Upto(k);
      }
    }
  }

  /** A sweep takes no time. */
  lemma {:induction false} SweepDuration(level: Level, k: nat)
    requires k <= 4
    ensures Duration(Sweep(level, k)) == 0
    decreases k
  {
    if k > 0 {
      SweepDuration(level, k - 1);
      SweepNext(level, k - 1);
      DurationAppend(Sweep(level, k - 1), [Write(k - 1, level)]);
      assert Duration([Write(k - 1, level)]) == 0 + Duration([]);
    }
  }

  /** A paced sweep waits `ms` once per channel. */
  lemma {:induction false} PacedSweepDuration(level: Level, k: nat, ms: nat)
    requires k <= 4
    ensures Duration(PacedSweep(level, k, ms)) == k * ms
    decreases k
  {
    if k > 0 {
      var w := Write(k - 1, level);
      PacedSweepDuration(level, k - 1, ms);
      PacedSweepNext(level, k - 1, ms);
      DurationAppend(PacedSweep(level, k - 1, ms), [w, Pause(ms)]);
      assert [w, Pause(ms)][1..] == [Pause(ms)];
      assert Duration([Pause(ms)]) == ms + Duration([]);
      assert Duration([w, Pause(ms)]) == 0 + Duration([Pause(ms)]);
      assert (k - 1) * ms + ms == k * ms;
    }
  }

  /** A sweep of all four channels leaves every latch at `level`. */
  lemma FullSweepRun(s: PortState, level: Level)
    requires s.Valid()
    ensures Run(s, Sweep(level, 4)) == PortState(s.modes, [level, level, level, level])
  {
    SweepRun(s, level, 4);
  }

  lemma FullPacedSweepRun(s: PortState, level: Level, ms: nat)
    requires s.Valid()
    ensures Run(s, PacedSweep(level, 4, ms)) == PortState(s.modes, [level, level, level, level])
  {
    PacedSweepRun(s, level, 4, ms);
  }

  lemma Repeat2(block: seq<Effect>)
    ensures Repeat(block, 2) == block + block
  {
    assert Repeat(block, 1) == [] + block;
  }

  /** A flash of a channel that is off leaves the port as it was. */
  lemma BlinkRun(s: PortState, c: Channel, on: nat, off: nat)
    requires s.Valid() && s.latches[c] == Set
    ensures Run(s, Blink(c, on, off)) == s
    ensures NoConfigure(Blink(c, on, off))
  {
    var b := Blink(c, on, off);
    var s1 := Apply(s, Write(c, Reset));
    assert b[1..] == [Pause(on), Write(c, Set), Pause(off)];
    assert b[1..][1..] == [Write(c, Set), Pause(off)];
    assert Run(s1, [Write(c, Set), Pause(off)]) == Run(Apply(s1, Write(c, Set)), [Pause(off)]);
    assert Run(Apply(s1, Write(c, Set)), [Pause(off)]) == Apply(s1, Write(c, Set));
    assert s.latches[c := Reset][c := Set] == s.latches;
  }

  /** A flash lights its channel once. */
  lemma BlinkBlinked(c: Channel, on: nat, off: nat)
    ensures Blinked(Blink(c, on, off)) == [c]
  {
    var b := Blink(c, on, off);
    assert b[1..][1..][1..] == [Pause(off)];
    assert Blinked(b[1..][1..][1..]) == [] + Blinked([]);
    assert Blinked(b[1..][1..]) == [] + Blinked(b[1..][1..][1..]);
    assert Blinked(b[1..]) == [] + Blinked(b[1..][1..]);
    assert Blinked(b) == [c] + Blinked(b[1..]);
  }

  /** A flash takes its on time and its off time. */
  lemma BlinkDuration(c: Channel, on: nat, off: nat)
    ensures Duration(Blink(c, on, off)) == on + off
  {
    var b := Blink(c, on, off);
    assert b[1..][1..][1..] == [Pause(off)];
    assert Duration(b[1..][1..][1..]) == off + Duration([]);
    assert Duration(b[1..][1..]) == 0 + Duration(b[1..][1..][1..]);
    assert Duration(b[1..]) == on + Duration(b[1..][1..]);
    assert Duration(b) == 0 + Duration(b[1..]);
  }

  /** A block that leaves the port as it was, repeated, leaves it as it was too. */
  lemma {:induction false} RepeatRun(s: PortState, block: seq<Effect>, k: nat)
    requires s.Valid() && Run(s, block) == s && NoConfigure(block)
    ensures Run(s, Repeat(block, k)) == s
    ensures NoConfigure(Repeat(block, k))
    decreases k
  {
    if k > 0 {
      RepeatRun(s, block, k - 1);
      RunAppend(s, Repeat(block, k - 1), block);
      NoConfigureAppend(Repeat(block, k - 1), block);
    }
  }

  /** `k` repetitions take `k` times as long. */
  lemma {:induction false} RepeatDuration(block: seq<Effect>, k: nat)
    ensures Duration(Repeat(block, k)) == k * Duration(block)
    decreases k
  {
    if k > 0 {
      RepeatDuration(block, k - 1);
      DurationAppend(Repeat(block, k - 1), block);
      assert (k - 1) * Duration(block) + Duration(block) == k * Duration(block);
    }
  }

  /** Score flashes of a channel that is off leave the port as it was and take 400 ms each. */
  lemma ScoreBlinksRun(s: PortState, c: Channel, k: nat)
    requires s.Valid() && s.latches[c] == Set
    ensures Run(s, ScoreBlinks(c, k)) == s
    ensures NoConfigure(ScoreBlinks(c, k))
    ensures Duration(ScoreBlinks(c, k)) == k * (ScoreBlinkOn + ScoreBlinkOff)
  {
    var b := Blink(c, ScoreBlinkOn, ScoreBlinkOff);
    BlinkRun(s, c, ScoreBlinkOn, ScoreBlinkOff);
    BlinkDuration(c, ScoreBlinkOn, ScoreBlinkOff);
    RepeatRun(s, b, k);
    RepeatDuration(b, k);
  }

  /** `k` score flashes of channel `c` light it `k` times. */
  lemma {:induction false} ScoreBlinksBlinked(c: Channel, k: nat)
    ensures Blinked(ScoreBlinks(c, k)) == Copies(c, k)
    decreases k
  {
    if k > 0 {
      var b := Blink(c, ScoreBlinkOn, ScoreBlinkOff);
      calc {
        Blinked(ScoreBlinks(c, k));
        Blinked(Repeat(b, k - 1) + b);
        { BlinkedAppend(Repeat(b, k - 1), b); }
        Blinked(ScoreBlinks(c, k - 1)) + Blinked(b);
        { ScoreBlinksBlinked(c, k - 1); BlinkBlinked(c, ScoreBlinkOn, ScoreBlinkOff); }
        Copies(c, k - 1) + [c];
      }
    }
  }

  // ---------------------------------------------------------------------
  // The animations

  lemma StartCycleRun(s: PortState)
    requires s.Valid()
    ensures Run(s, StartCycle()) == PortState(s.modes, AllSet)
    ensures NoConfigure(StartCycle())
  {
    var on, off := PacedSweep(Reset, 4, 100), PacedSweep(Set, 4, 100);
    FullPacedSweepRun(s, Reset, 100);
    FullPacedSweepRun(Run(s, on), Set, 100);
    RunAppend(s, on, off);
    SweepsWrite(Reset, 4, 100);
    SweepsWrite(Set, 4, 100);
    NoConfigureAppend(on, off);
  }

  lemma FailCycleRun(s: PortState)
    requires s.Valid()
    ensures Run(s, FailCycle()) == PortState(s.modes, AllSet)
    ensures NoConfigure(FailCycle())
  {
    var on, off, p := Sweep(Reset, 4), Sweep(Set, 4), [Pause(250)];
    assert Idle(p);
    FullSweepRun(s, Reset);
    var s1 := Run(s, on);
    IdleFacts(s1, p);
    FullSweepRun(s1, Set);
    IdleFacts(Run(s1, off), p);
    RunAppend(s, on, p);
    RunAppend(s, on + p, off);
    RunAppend(s, on + p + off, p);
    SweepsWrite(Reset, 4, 0);
    SweepsWrite(Set, 4, 0);
    NoConfigureAppend(on, p);
    NoConfigureAppend(on + p, off);
    NoConfigureAppend(on + p + off, p);
  }

  /** Channels 0 to 3, in order. */
  lemma UptoFour()
    ensures Upto(4) == [0, 1, 2, 3]
  {
    assert Upto(1) == [] + [0];
    assert Upto(2) == [0] + [1];
    assert Upto(3) == [0, 1] + [2];
  }

  lemma StartCycleBlinks()
    ensures Blinked(StartCycle()) == [0, 1, 2, 3]
  {
    var on, off := PacedSweep(Reset, 4, 100), PacedSweep(Set, 4, 100);
    calc {
      Blinked(StartCycle());
      Blinked(on + off);
      { BlinkedAppend(on, off); }
      Blinked(on) + Blinked(off);
      { PacedSweepBlinked(Reset, 4, 100); PacedSweepBlinked(Set, 4, 100); }
      Upto(4) + [];
      { UptoFour(); }
      [0, 1, 2, 3];
    }
  }

  lemma StartCycleDuration()
    ensures Duration(StartCycle()) == 800
  {
    var on, off := PacedSweep(Reset, 4, 100), PacedSweep(Set, 4, 100);
    calc {
      Duration(StartCycle());
      Duration(on + off);
      { DurationAppend(on, off); }
      Duration(on) + Duration(off);
      { PacedSweepDuration(Reset, 4, 100); PacedSweepDuration(Set, 4, 100); }
      4 * 100 + 4 * 100;
    }
  }

  /** Blinked and Duration of four pieces in a row. */
  lemma FourPieces(a: seq<Effect>, b: seq<Effect>, c: seq<Effect>, d: seq<Effect>)
    ensures Blinked(a + b + c + d) == Blinked(a) + Blinked(b) + Blinked(c) + Blinked(d)
    ensures Duration(a + b + c + d) == Duration(a) + Duration(b) + Duration(c) + Duration(d)
  {
    BlinkedAppend(a, b);
    BlinkedAppend(a + b, c);
    BlinkedAppend(a + b + c, d);
    DurationAppend(a, b);
    DurationAppend(a + b, c);
    DurationAppend(a + b + c, d);
  }

  lemma FailCycleBlinks()
    ensures Blinked(FailCycle()) == [0, 1, 2, 3]
  {
    var on, off, p := Sweep(Reset, 4), Sweep(Set, 4), [Pause(250)];
    calc {
      Blinked(FailCycle());
      Blinked(on + p + off + p);
      { FourPieces(on, p, off, p); }
      Blinked(on) + Blinked(p) + Blinked(off) + Blinked(p);
      { SweepBlinked(Reset, 4); SweepBlinked(Set, 4); assert Blinked(p) == [] + Blinked([]); }
      Upto(4) + [] + [] + [];
      { UptoFour(); }
      [0, 1, 2, 3];
    }
  }

  lemma FailCycleDuration()
    ensures Duration(FailCycle()) == 500
  {
    var on, off, p := Sweep(Reset, 4), Sweep(Set, 4), [Pause(250)];
    calc {
      Duration(FailCycle());
      Duration(on + p + off + p);
      { FourPieces(on, p, off, p); }
      Duration(on) + Duration(p) + Duration(off) + Duration(p);
      { SweepDuration(Reset, 4); SweepDuration(Set, 4); assert Duration(p) == 250 + Duration([]); }
      0 + 250 + 0 + 250;
    }
  }

  /**
   * Two cycles and an idle tail, framed: what both animations are made of.
   * If a cycle turns every LED off whether or not they were on, the framed
   * animation only drives outputs and leaves every LED off and every channel
   * an input.
   */
  lemma TwoCyclesRun(s: PortState, cycle: seq<Effect>, tail: seq<Effect>)
    requires s.Valid() && NoConfigure(cycle) && Idle(tail)
    requires Run(Apply(s, Configure(Output)), cycle) == PortState(AllOutput, AllSet)
    requires Run(PortState(AllOutput, AllSet), cycle) == PortState(AllOutput, AllSet)
    ensures DrivesOnlyOutputs(s, Framed(Repeat(cycle, 2) + tail))
    ensures Run(s, Framed(Repeat(cycle, 2) + tail)) == PortState(AllInput, AllSet)
  {
    var s1, lit := Apply(s, Configure(Output)), PortState(AllOutput, AllSet);
    var body := Repeat(cycle, 2) + tail;
    Repeat2(cycle);
    RunAppend(s1, cycle, cycle);
    RunAppend(s1, cycle + cycle, tail);
    IdleFacts(lit, tail);
    NoConfigureAppend(cycle, cycle);
    NoConfigureAppend(cycle + cycle, tail);
    FramedIsSafe(s, body);
    RunFramed(s, body);
  }

  lemma TwoCyclesBlinked(cycle: seq<Effect>, tail: seq<Effect>)
    requires Idle(tail) && Blinked(cycle) == [0, 1, 2, 3]
    ensures Blinked(Framed(Repeat(cycle, 2) + tail)) == [0, 1, 2, 3, 0, 1, 2, 3]
    ensures Duration(Framed(Repeat(cycle, 2) + tail)) == 2 * Duration(cycle) + Duration(tail)
  {
    Repeat2(cycle);
    IdleFacts(PortState(AllInput, AllSet), tail);
    BlinkedAppend(cycle, cycle);
    BlinkedAppend(cycle + cycle, tail);
    DurationAppend(cycle, cycle);
    DurationAppend(cycle + cycle, tail);
    RunFramed(PortState(AllInput, AllSet), cycle + cycle + tail);
  }

  /**
   * showStartAnimation only drives outputs, and from any state leaves all
   * four LEDs off (SET) and all four channels as inputs.
   */
  lemma StartAnimationSafe(s: PortState)
    requires s.Valid()
    ensures DrivesOnlyOutputs(s, StartAnimation())
    ensures Run(s, StartAnimation()) == PortState(AllInput, AllSet)
  {
    StartCycleRun(Apply(s, Configure(Output)));
    StartCycleRun(PortState(AllOutput, AllSet));
    assert Idle([Pause(1000)]);
    TwoCyclesRun(s, StartCycle(), [Pause(1000)]);
  }

  /** showStartAnimation lights channels 0, 1, 2, 3 in turn, twice, and takes 2.6 s. */
  lemma StartAnimationBlinks()
    ensures Blinked(StartAnimation()) == [0, 1, 2, 3, 0, 1, 2, 3]
    ensures Duration(StartAnimation()) == 2600
  {
    StartCycleBlinks();
    StartCycleDuration();
    assert Idle([Pause(1000)]);
    assert Duration([Pause(1000)]) == 1000 + Duration([]);
    TwoCyclesBlinked(StartCycle(), [Pause(1000)]);
  }

  /** showFailAnimation only drives outputs and leaves all LEDs off and all channels as inputs. */
  lemma FailAnimationSafe(s: PortState)
    requires s.Valid()
    ensures DrivesOnlyOutputs(s, FailAnimation())
    ensures Run(s, FailAnimation()) == PortState(AllInput, AllSet)
  {
    FailCycleRun(Apply(s, Configure(Output)));
    FailCycleRun(PortState(AllOutput, AllSet));
    assert Idle([]);
    assert Repeat(FailCycle(), 2) + [] == Repeat(FailCycle(), 2);
    TwoCyclesRun(s, FailCycle(), []);
  }

  /** showFailAnimation lights all four channels together, twice, and takes 1 s. */
  lemma FailAnimationBlinks()
    ensures Blinked(FailAnimation()) == [0, 1, 2, 3, 0, 1, 2, 3]
    ensures Duration(FailAnimation()) == 1000
  {
    FailCycleBlinks();
    FailCycleDuration();
    assert Idle([]);
    assert Repeat(FailCycle(), 2) + [] == Repeat(FailCycle(), 2);
    TwoCyclesBlinked(FailCycle(), []);
  }

  // ---------------------------------------------------------------------
  // The sequence

  /** The replay flashes exactly the channels of the sequence, in order. */
  lemma {:induction false} ReplayBlinks(keys: seq<Channel>, d: nat)
    ensures Blinked(Replay(keys, d)) == keys
    decreases |keys|
  {
    if keys != [] {
      var prev, c := keys[..|keys| - 1], keys[|keys| - 1];
      calc {
        Blinked(Replay(keys, d));
        Blinked(Replay(prev, d) + Blink(c, d, d));
        { BlinkedAppend(Replay(prev, d), Blink(c, d, d)); }
        Blinked(Replay(prev, d)) + Blinked(Blink(c, d, d));
        { ReplayBlinks(prev, d); BlinkBlinked(c, d, d); }
        prev + [c];
        keys;
      }
    }
  }

  /** Each key of the replay is on for `d` ms and off for `d` ms. */
  lemma {:induction false} ReplayDuration(keys: seq<Channel>, d: nat)
    ensures Duration(Replay(keys, d)) == 2 * d * |keys|
    decreases |keys|
  {
    if keys != [] {
      var prev, c := keys[..|keys| - 1], keys[|keys| - 1];
      assert Replay(keys, d) == Replay(prev, d) + Blink(c, d, d);
      ReplayDuration(prev, d);
      BlinkDuration(c, d, d);
      DurationAppend(Replay(prev, d), Blink(c, d, d));
      assert 2 * d * |prev| + (d + d) == 2 * d * |keys|;
    }
  }

  /** With every LED off, the replay leaves the port as it found it. */
  lemma {:induction false} ReplayRun(s: PortState, keys: seq<Channel>, d: nat)
    requires s.Valid() && s.latches == AllSet
    ensures Run(s, Replay(keys, d)) == s
    ensures NoConfigure(Replay(keys, d))
    decreases |keys|
  {
    if keys != [] {
      var prev, c := keys[..|keys| - 1], keys[|keys| - 1];
      ReplayRun(s, prev, d);
      BlinkRun(s, c, d, d);
      RunAppend(s, Replay(prev, d), Blink(c, d, d));
      NoConfigureAppend(Replay(prev, d), Blink(c, d, d));
    }
  }

  /**
   * showSequence, from a port with every LED off: only outputs are driven,
   * the LEDs end off and the channels as inputs, and exactly the channels
   * of the sequence are flashed, in order.
   */
  lemma SequenceShown(s: PortState, seed: bv16, samples: seq<bv32>, keys: seq<Channel>, d: nat)
    requires s.Valid() && s.latches == AllSet && |samples| == Readings
    ensures DrivesOnlyOutputs(s, SequenceTrace(seed, samples, keys, d))
    ensures Run(s, SequenceTrace(seed, samples, keys, d)) == PortState(AllInput, AllSet)
    ensures Blinked(SequenceTrace(seed, samples, keys, d)) == keys
  {
    var draw, show := DrawTrace(seed, samples), Framed(Replay(keys, d));
    DrawTraceShape(s, seed, samples);
    var s1 := Run(s, draw);
    ReplayRun(Apply(s1, Configure(Output)), keys, d);
    FramedIsSafe(s1, Replay(keys, d));
    RunFramed(s1, Replay(keys, d));
    DrivesOnlyOutputsAppend(s, draw, show);
    RunAppend(s, draw, show);
    ReplayBlinks(keys, d);
    BlinkedAppend(draw, show);
    assert Blinked(draw) == [] by {
      assert draw == [Configure(Input), Pause(1), draw[2], draw[3]];
      assert draw[2].Pause? && draw[3].Pause?;
      assert Idle(draw[1..]);
      IdleFacts(s, draw[1..]);
    }
  }

  /** For every step the game reaches, the delay index is the step's fifty-block. */
  lemma TierOfStep(n: Byte)
    requires n < 200
    ensures Tier(n) == n / 50
  {
    var q := n / 50;
    assert q == 0 || q == 1 || q == 2 || q == 3;
    assert (q as bv8 & 3) as nat == q;
  }

  // ---------------------------------------------------------------------
  // The score

  lemma {:induction false} CopiesCount(c: Channel, k: nat, x: Channel)
    ensures multiset(Copies(c, k))[x] == if x == c then k else 0
    decreases k
  {
    if k > 0 {
      CopiesCount(c, k - 1, x);
    }
  }

  /** The number of flashes of channel `c`. */
  function Count(flashes: seq<Channel>, c: Channel): nat
  {
    multiset(flashes)[c]
  }

  /** showResult flashes channel 2 once per hundred, then channel 1 once per ten, then channel 0 once per unit. */
  lemma ScoreBlinked(r: Byte)
    ensures Blinked(ScoreTrace(r)) == Copies(2, r / 100) + Copies(1, r / 10 % 10) + Copies(0, r % 10)
  {
    var s := PortState(AllOutput, AllSet);
    var h, t, u := ScoreBlinks(2, r / 100), ScoreBlinks(1, r / 10 % 10), ScoreBlinks(0, r % 10);
    ScoreBlinksBlinked(2, r / 100);
    ScoreBlinksBlinked(1, r / 10 % 10);
    ScoreBlinksBlinked(0, r % 10);
    BlinkedAppend(h, t);
    BlinkedAppend(h + t, u);
    RunFramed(s, h + t + u);
  }

  /**
   * Counting the flashes of each channel gives back the score: the digits
   * are below ten, and a zero digit gives no flash at all.
   */
  lemma ScoreReadsBack(r: Byte)
    ensures Count(Blinked(ScoreTrace(r)), 2) == r / 100
    ensures Count(Blinked(ScoreTrace(r)), 1) == r / 10 % 10
    ensures Count(Blinked(ScoreTrace(r)), 0) == r % 10
    ensures 100 * Count(Blinked(ScoreTrace(r)), 2) + 10 * Count(Blinked(ScoreTrace(r)), 1)
            + Count(Blinked(ScoreTrace(r)), 0) == r
    ensures Count(Blinked(ScoreTrace(r)), 2) < 10 && Count(Blinked(ScoreTrace(r)), 1) < 10
            && Count(Blinked(ScoreTrace(r)), 0) < 10
  {
    var h, t, u := Copies(2, r / 100), Copies(1, r / 10 % 10), Copies(0, r % 10);
    ScoreBlinked(r);
    assert multiset(Blinked(ScoreTrace(r))) == multiset(h) + multiset(t) + multiset(u);
    CopiesCount(2, r / 100, 2);
    CopiesCount(1, r / 10 % 10, 2);
    CopiesCount(0, r % 10, 2);
    CopiesCount(2, r / 100, 1);
    CopiesCount(1, r / 10 % 10, 1);
    CopiesCount(0, r % 10, 1);
    CopiesCount(2, r / 100, 0);
    CopiesCount(1, r / 10 % 10, 0);
    CopiesCount(0, r % 10, 0);
    DecimalDigits(r);
  }

  /** The hundreds, tens and units digits put back together give the number. */
  lemma DecimalDigits(r: Byte)
    ensures 100 * (r / 100) + 10 * (r / 10 % 10) + r % 10 == r
    ensures r / 100 < 10
  {
    var q := r / 10;
    assert r == 10 * q + r % 10;
    assert q == 10 * (q / 10) + q % 10;
    assert r / 100 == q / 10;
  }

  /** showResult only drives outputs and, from a port with every LED off, leaves them off and the channels as inputs. */
  lemma ScoreSafe(s: PortState, r: Byte)
    requires s.Valid() && s.latches == AllSet
    ensures DrivesOnlyOutputs(s, ScoreTrace(r))
    ensures Run(s, ScoreTrace(r)) == PortState(AllInput, AllSet)
    ensures Duration(ScoreTrace(r)) == 400 * (r / 100 + r / 10 % 10 + r % 10)
  {
    var s1 := Apply(s, Configure(Output));
    var h, t, u := ScoreBlinks(2, r / 100), ScoreBlinks(1, r / 10 % 10), ScoreBlinks(0, r % 10);
    ScoreBlinksRun(s1, 2, r / 100);
    ScoreBlinksRun(s1, 1, r / 10 % 10);
    ScoreBlinksRun(s1, 0, r % 10);
    RunAppend(s1, h, t);
    RunAppend(s1, h + t, u);
    NoConfigureAppend(h, t);
    NoConfigureAppend(h + t, u);
    DurationAppend(h, t);
    DurationAppend(h + t, u);
    FramedIsSafe(s, h + t + u);
    RunFramed(s, h + t + u);
  }

  // ---------------------------------------------------------------------
  // The show functions

  /** One inner loop of showStartAnimation: channels 0 to 3 in turn driven to `level`, each followed by 100 ms. */
  method SweepPaced(board: Board, level: Level)
    requires board.Valid()
    modifies board
    ensures board.Valid() && board.trace == old(board.trace) + PacedSweep(level, 4, 100)
  {
    ghost var t0 := board.trace;
    for i := 0 to 4
      invariant board.Valid() && board.trace == t0 + PacedSweep(level, i, 100)
    {
      PacedSweepNext(level, i, 100);
      board.WritePin(i, level);
      board.Delay(100);
    }
  }

  /** One trip round the outer loop of showStartAnimation: each LED on in turn, then each off. */
  method StartCycleShown(board: Board)
    requires board.Valid()
    modifies board
    ensures board.Valid() && board.trace == old(board.trace) + StartCycle()
  {
    SweepPaced(board, Reset);
    SweepPaced(board, Set);
  }

  /** showStartAnimation */
  method ShowStartAnimation(board: Board)
    requires board.Valid()
    modifies board
    ensures board.Valid() && board.trace == old(board.trace) + StartAnimation()
  {
    board.SetPinsAsOutputs();
    ghost var t0 := board.trace;
    for j := 0 to 2
      invariant board.Valid() && board.trace == t0 + Repeat(StartCycle(), j)
    {
      StartCycleShown(board);
      Regroup(t0, Repeat(StartCycle(), j), StartCycle());
    }
    board.Delay(1000);
    board.SetPinsAsInputs();
    Regroup(old(board.trace), [Configure(Output)], Repeat(StartCycle(), 2));
    Regroup(old(board.trace), [Configure(Output)] + Repeat(StartCycle(), 2), [Pause(1000)]);
    Regroup(old(board.trace), [Configure(Output)] + Repeat(StartCycle(), 2) + [Pause(1000)], [Configure(Input)]);
  }

  /** One inner loop of showFailAnimation: channels 0 to 3 driven to `level` with no delay between them. */
  method SweepAll(board: Board, level: Level)
    requires board.Valid()
    modifies board
    ensures board.Valid() && board.trace == old(board.trace) + Sweep(level, 4)
  {
    ghost var t0 := board.trace;
    for i := 0 to 4
      invariant board.Valid() && board.trace == t0 + Sweep(level, i)
    {
      SweepNext(level, i);
      board.WritePin(i, level);
    }
  }

  /** One trip round the outer loop of showFailAnimation: all LEDs on for 250 ms, then all off for 250 ms. */
  method FailCycleShown(board: Board)
    requires board.Valid()
    modifies board
    ensures board.Valid() && board.trace == old(board.trace) + FailCycle()
  {
    SweepAll(board, Reset);
    board.Delay(250);
    SweepAll(board, Set);
    board.Delay(250);
    assert board.trace == old(board.trace) + (Sweep(Reset, 4) + [Pause(250)] + Sweep(Set, 4) + [Pause(250)]);
  }

  /** showFailAnimation */
  method ShowFailAnimation(board: Board)
    requires board.Valid()
    modifies board
    ensures board.Valid() && board.trace == old(board.trace) + FailAnimation()
  {
    board.SetPinsAsOutputs();
    ghost var t0 := board.trace;
    for j := 0 to 2
      invariant board.Valid() && board.trace == t0 + Repeat(FailCycle(), j)
    {
      FailCycleShown(board);
      Regroup(t0, Repeat(FailCycle(), j), FailCycle());
    }
    board.SetPinsAsInputs();
    Regroup(old(board.trace), [Configure(Output)], Repeat(FailCycle(), 2));
    Regroup(old(board.trace), [Configure(Output)] + Repeat(FailCycle(), 2), [Configure(Input)]);
  }

  /** One of the three loops of showResult: `blinks` score flashes of channel `c`. */
  method FlashDigit(board: Board, c: Channel, blinks: Byte)
    requires board.Valid()
    modifies board
    ensures board.Valid() && board.trace == old(board.trace) + ScoreBlinks(c, blinks)
  {
    ghost var t0 := board.trace;
    for i := 0 to blinks
      invariant board.Valid() && board.trace == t0 + ScoreBlinks(c, i)
    {
      board.WritePin(c, Reset);
      board.Delay(ScoreBlinkOn);
      board.WritePin(c, Set);
      board.Delay(ScoreBlinkOff);
    }
  }

  /** showResult */
  method ShowResult(board: Board, r: Byte)
    requires board.Valid()
    modifies board
    ensures board.Valid() && board.trace == old(board.trace) + ScoreTrace(r)
  {
    ghost var h, t, u := ScoreBlinks(2, r / 100), ScoreBlinks(1, r / 10 % 10), ScoreBlinks(0, r % 10);
    board.SetPinsAsOutputs();
    ghost var t0 := board.trace;
    var blinks := r / 100;
    FlashDigit(board, 2, blinks);
    blinks := r / 10 % 10;
    FlashDigit(board, 1, blinks);
    Regroup(t0, h, t);
    blinks := r % 10;
    FlashDigit(board, 0, blinks);
    Regroup(t0, h + t, u);
    board.SetPinsAsInputs();
    Regroup(old(board.trace), [Configure(Output)], h + t + u);
    Regroup(old(board.trace), [Configure(Output)] + (h + t + u), [Configure(Input)]);
  }

  /**
   * showSequence: draw a new key into `s[n]`, then flash `s[0] .. s[n]` in
   * order with the delay of step `n`'s tier.
   */
  method ShowSequence(board: Board, s: array<Byte>, n: Byte, seed0: bv16, samples: seq<bv32>, delayTimes: array<Byte>)
    requires board.Valid() && |samples| == Readings
    requires n < s.Length && delayTimes.Length == 4 && s != delayTimes
    requires forall k :: 0 <= k < n ==> s[k] < 4
    modifies board, s
    ensures s[..] == old(s[..])[n := Draw(seed0, samples)]
    ensures forall k :: 0 <= k <= n ==> s[k] < 4
    ensures board.Valid()
    ensures board.trace == old(board.trace) + SequenceTrace(seed0, samples, s[..n + 1], delayTimes[Tier(n)])
  {
    var r := CalculateNewRandom(board, seed0, samples);
    s[n] := r;
    ghost var drawn := board.trace;
    ReplayShown(board, s, n, delayTimes[Tier(n)]);
    assert board.trace == drawn + Framed(Replay(s[..n + 1], delayTimes[Tier(n)]));
  }

  /** The flashing loop of showSequence, framed by the two direction switches: `s[0] .. s[n]`, each `d` ms on and `d` ms off. */
  method ReplayShown(board: Board, s: array<Byte>, n: Byte, d: nat)
    requires board.Valid() && n < s.Length
    requires forall k :: 0 <= k <= n ==> s[k] < 4
    modifies board
    ensures board.Valid() && board.trace == old(board.trace) + Framed(Replay(s[..n + 1], d))
  {
    board.SetPinsAsOutputs();
    ghost var t0 := board.trace;
    for i := 0 to n + 1
      invariant board.Valid() && board.trace == t0 + Replay(s[..i], d)
    {
      BlinkShown(board, s[i], d);
      assert s[..i + 1][..i] == s[..i];
    }
    board.SetPinsAsInputs();
    assert board.trace == old(board.trace) + Framed(Replay(s[..n + 1], d));
  }

  /** One flash of the replay: channel `c` low for `d` ms, then high for `d` ms. */
  method BlinkShown(board: Board, c: Channel, d: nat)
    requires board.Valid()
    modifies board
    ensures board.Valid() && board.trace == old(board.trace) + Blink(c, d, d)
  {
    board.WritePin(c, Reset);
    board.Delay(d);
    board.WritePin(c, Set);
    board.Delay(d);
  }
}
