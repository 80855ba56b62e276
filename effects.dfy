/**
 * The four button/LED channels of the board and what the game does to them.
 *
 * Everything the core does to the outside world is recorded as a trace of
 * effects: switching the direction of all four channels, driving one channel
 * to a level, or waiting. The meaning of a trace is given by `Run`, which
 * replays it on the state of the port (the mode and the output latch of each
 * channel). The rest of the model states its output choreography as traces
 * and proves facts about them through these functions.
 */
module Effects {

  /** A C `uint8_t`. */
  type Byte = x: int | 0 <= x < 256

  /** One of the four logical channels, an index into `portList`/`pinList`. */
  type Channel = c: int | 0 <= c < 4

  datatype Mode = Input | Output

  /** `GPIO_PIN_RESET` and `GPIO_PIN_SET`. */
  datatype Level = Reset | Set

  datatype Effect =
    | Configure(mode: Mode)                 // setPinsAsInputs / setPinsAsOutputs, all four channels
    | Write(channel: Channel, level: Level) // HAL_GPIO_WritePin
    | Pause(ms: nat)                        // HAL_Delay

  /** Mode and output latch of each of the four channels. */
  datatype PortState = PortState(modes: seq<Mode>, latches: seq<Level>)
  {
    predicate Valid() { |modes| == 4 && |latches| == 4 }
  }

  const AllInput: seq<Mode> := [Input, Input, Input, Input]
  const AllOutput: seq<Mode> := [Output, Output, Output, Output]
  const AllSet: seq<Level> := [Set, Set, Set, Set]
  const AllReset: seq<Level> := [Reset, Reset, Reset, Reset]

  /** The port as the peripheral bring-up leaves it: four push-pull outputs driven low. */
  function Boot(): (s: PortState)
    ensures s.Valid() && s.modes == AllOutput && s.latches == AllReset
  {
    PortState(AllOutput, AllReset)
  }

  function Apply(s: PortState, e: Effect): (t: PortState)
    requires s.Valid()
    ensures t.Valid()
  {
    match e
    case Configure(m) => PortState([m, m, m, m], s.latches)
    case Write(c, l) => PortState(s.modes, s.latches[c := l])
    case Pause(_) => s
  }

  /** The port state after the effects, in order. */
  function Run(s: PortState, effects: seq<Effect>): (t: PortState)
    requires s.Valid()
    ensures t.Valid()
    decreases |effects|
  {
    if effects == [] then s else Run(Apply(s, effects[0]), effects[1..])
  }

  lemma {:induction false} RunAppend(s: PortState, a: seq<Effect>, b: seq<Effect>)
    requires s.Valid()
    ensures Run(s, a + b) == Run(Run(s, a), b)
    decreases |a|
  {
    if a == [] {
      assert a + b == b;
    } else {
      assert (a + b)[0] == a[0] && (a + b)[1..] == a[1..] + b;
      RunAppend(Apply(s, a[0]), a[1..], b);
    }
  }

  /** A write happens only while the written channel is configured as an output. */
  predicate DrivesOnlyOutputs(s: PortState, effects: seq<Effect>)
    requires s.Valid()
    decreases |effects|
  {
    effects != [] ==>
      (effects[0].Write? ==> s.modes[effects[0].channel] == Output) &&
      DrivesOnlyOutputs(Apply(s, effects[0]), effects[1..])
  }

  lemma {:induction false} DrivesOnlyOutputsAppend(s: PortState, a: seq<Effect>, b: seq<Effect>)
    requires s.Valid()
    ensures DrivesOnlyOutputs(s, a + b) <==> DrivesOnlyOutputs(s, a) && DrivesOnlyOutputs(Run(s, a), b)
    decreases |a|
  {
    if a == [] {
      assert a + b == b;
    } else {
      assert (a + b)[0] == a[0] && (a + b)[1..] == a[1..] + b;
      DrivesOnlyOutputsAppend(Apply(s, a[0]), a[1..], b);
    }
  }

  /** Effects appended one piece at a time are the pieces appended together. */
  lemma Regroup(t: seq<Effect>, a: seq<Effect>, b: seq<Effect>)
    ensures t + a + b == t + (a + b)
  {
  }

  predicate NoConfigure(effects: seq<Effect>)
  {
    forall k :: 0 <= k < |effects| ==> !effects[k].Configure?
  }

  predicate NoWrite(effects: seq<Effect>)
  {
    forall k :: 0 <= k < |effects| ==> !effects[k].Write?
  }

  lemma NoConfigureAppend(a: seq<Effect>, b: seq<Effect>)
    ensures NoConfigure(a + b) <==> NoConfigure(a) && NoConfigure(b)
  {
    if NoConfigure(a) && NoConfigure(b) {
      forall k | 0 <= k < |a + b| ensures !(a + b)[k].Configure? {
        if k >= |a| {
          assert (a + b)[k] == b[k - |a|];
        }
      }
    }
    if NoConfigure(a + b) {
      forall k | 0 <= k < |a| ensures !a[k].Configure? {
        assert (a + b)[k] == a[k];
      }
      forall k | 0 <= k < |b| ensures !b[k].Configure? {
        assert (a + b)[|a| + k] == b[k];
      }
    }
  }

  /** Effects without a write are safe in any state. */
  lemma {:induction false} NoWriteDrivesNothing(s: PortState, effects: seq<Effect>)
    requires s.Valid() && NoWrite(effects)
    ensures DrivesOnlyOutputs(s, effects)
    decreases |effects|
  {
    if effects != [] {
      assert NoWrite(effects[1..]) by {
        forall k | 0 <= k < |effects[1..]| ensures !effects[1..][k].Write? {
          assert effects[1..][k] == effects[k + 1];
        }
      }
      NoWriteDrivesNothing(Apply(s, effects[0]), effects[1..]);
    }
  }

  /** With every channel an output and no reconfiguration, every write is safe and the modes stay. */
  lemma {:induction false} BodyKeepsOutputs(s: PortState, body: seq<Effect>)
    requires s.Valid() && s.modes == AllOutput && NoConfigure(body)
    ensures DrivesOnlyOutputs(s, body)
    ensures Run(s, body).modes == AllOutput
    decreases |body|
  {
    if body != [] {
      assert NoConfigure(body[1..]) by {
        forall k | 0 <= k < |body[1..]| ensures !body[1..][k].Configure? {
          assert body[1..][k] == body[k + 1];
        }
      }
      assert !body[0].Configure?;
      BodyKeepsOutputs(Apply(s, body[0]), body[1..]);
    }
  }

  /**
   * The shape every show function has: all channels to Output first, then
   * writes and delays only, then all channels to Input last. From any state
   * such a trace drives only outputs and leaves all four channels as inputs.
   */
  lemma FramedIsSafe(s: PortState, body: seq<Effect>)
    requires s.Valid() && NoConfigure(body)
    ensures DrivesOnlyOutputs(s, [Configure(Output)] + body + [Configure(Input)])
    ensures Run(s, [Configure(Output)] + body + [Configure(Input)]).modes == AllInput
  {
    var s1 := Apply(s, Configure(Output));
    BodyKeepsOutputs(s1, body);
    var s2 := Run(s1, body);
    assert Run(s, [Configure(Output)]) == s1;
    assert Run(s2, [Configure(Input)]) == Apply(s2, Configure(Input));
    DrivesOnlyOutputsAppend(s, [Configure(Output)], body);
    RunAppend(s, [Configure(Output)], body);
    DrivesOnlyOutputsAppend(s, [Configure(Output)] + body, [Configure(Input)]);
    RunAppend(s, [Configure(Output)] + body, [Configure(Input)]);
  }

  /** The channel an effect switches on (drives low), if any. */
  function Lights(e: Effect): seq<Channel>
  {
    if e.Write? && e.level == Reset then [e.channel] else []
  }

  /** The channels driven low (LED on), in order: one entry per blink. */
  function Blinked(effects: seq<Effect>): seq<Channel>
    decreases |effects|
  {
    if effects == [] then [] else Lights(effects[0]) + Blinked(effects[1..])
  }

  lemma {:induction false} BlinkedAppend(a: seq<Effect>, b: seq<Effect>)
    ensures Blinked(a + b) == Blinked(a) + Blinked(b)
    decreases |a|
  {
    if a == [] {
      assert a + b == b;
    } else {
      assert (a + b)[0] == a[0] && (a + b)[1..] == a[1..] + b;
      BlinkedAppend(a[1..], b);
    }
  }

  /** The time an effect waits, in milliseconds. */
  function Waits(e: Effect): nat
  {
    if e.Pause? then e.ms else 0
  }

  /** Total time spent in delays, in milliseconds. */
  function Duration(effects: seq<Effect>): nat
    decreases |effects|
  {
    if effects == [] then 0 else Waits(effects[0]) + Duration(effects[1..])
  }

  lemma {:induction false} DurationAppend(a: seq<Effect>, b: seq<Effect>)
    ensures Duration(a + b) == Duration(a) + Duration(b)
    decreases |a|
  {
    if a == [] {
      assert a + b == b;
    } else {
      assert (a + b)[0] == a[0] && (a + b)[1..] == a[1..] + b;
      DurationAppend(a[1..], b);
    }
  }
}
