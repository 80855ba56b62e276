/**
 * The GPIO layer of game.c: the board's four channels as an object whose
 * registers change in place, the two direction switches, and the active-low
 * button read.
 */
module Gpio {
  import opened Effects

  /** The levels read from the four channels at one moment, in channel order. */
  type Pins = s: seq<Level> | |s| == 4 witness [Set, Set, Set, Set]

  /**
   * The GPIO hardware. `modes` and `latches` are the direction and output
   * registers of the four channels; `trace` is everything done to them so
   * far, and the registers are always what replaying the trace from the
   * bring-up state gives.
   */
  class Board {
    var modes: seq<Mode>
    var latches: seq<Level>
    var trace: seq<Effect>

    ghost predicate Valid()
      reads this
    {
      PortState(modes, latches) == Run(Boot(), trace)
    }

    /** The board as the peripheral bring-up leaves it (main.c, MX_GPIO_Init). */
    constructor ()
      ensures Valid() && trace == []
      ensures modes == AllOutput && latches == AllReset
    {
      modes := AllOutput;
      latches := AllReset;
      trace := [];
    }

    /** setPinsAsInputs: all four channels become pulled-up inputs; the latches keep their value. */
    method SetPinsAsInputs()
      requires Valid()
      modifies this
      ensures Valid() && trace == old(trace) + [Configure(Input)]
      ensures modes == AllInput && latches == old(latches)
    {
      RunAppend(Boot(), trace, [Configure(Input)]);
      modes := AllInput;
      trace := trace + [Configure(Input)];
    }

    /** setPinsAsOutputs: all four channels become push-pull outputs. */
    method SetPinsAsOutputs()
      requires Valid()
      modifies this
      ensures Valid() && trace == old(trace) + [Configure(Output)]
      ensures modes == AllOutput && latches == old(latches)
    {
      RunAppend(Boot(), trace, [Configure(Output)]);
      modes := AllOutput;
      trace := trace + [Configure(Output)];
    }

    /** HAL_GPIO_WritePin(portList[c], pinList[c], level). */
    method WritePin(c: Channel, level: Level)
      requires Valid()
      modifies this
      ensures Valid() && trace == old(trace) + [Write(c, level)]
      ensures modes == old(modes) && latches == old(latches)[c := level]
    {
      RunAppend(Boot(), trace, [Write(c, level)]);
      latches := latches[c := level];
      trace := trace + [Write(c, level)];
    }

    /** HAL_Delay(ms): only recorded, it changes no register. */
    method Delay(ms: nat)
      requires Valid()
      modifies this
      ensures Valid() && trace == old(trace) + [Pause(ms)]
      ensures modes == old(modes) && latches == old(latches)
    {
      RunAppend(Boot(), trace, [Pause(ms)]);
      trace := trace + [Pause(ms)];
    }
  }

  /** Bit `i` of a mask, tested as the source does: `m & (1 << i)`. */
  predicate Bit(m: bv8, i: nat)
    requires i < 8
  {
    m & (1 << i) != 0
  }

  /** The press mask of a reading: bit i is set exactly when channel i reads low. */
  function PressedMask(pins: Pins): (m: bv8)
    ensures m < 16
    ensures forall i :: 0 <= i < 4 ==> (Bit(m, i) <==> pins[i] == Reset)
  {
    (if pins[0] == Reset then 1 else 0) |
    (if pins[1] == Reset then 2 else 0) |
    (if pins[2] == Reset then 4 else 0) |
    (if pins[3] == Reset then 8 else 0)
  }

  lemma MasksAgree(a: bv8, b: bv8)
    requires a < 16 && b < 16
    requires forall i :: 0 <= i < 4 ==> (Bit(a, i) <==> Bit(b, i))
    ensures a == b
  {
    assert Bit(a, 0) == Bit(b, 0) && Bit(a, 1) == Bit(b, 1);
    assert Bit(a, 2) == Bit(b, 2) && Bit(a, 3) == Bit(b, 3);
  }

  /**
   * getButtons: reads the four channels and ORs `!level << i` into the mask,
   * then keeps the low four bits.
   */
  method GetButtons(pins: Pins) returns (buttons: bv8)
    ensures buttons == PressedMask(pins)
  {
    buttons := 0;
    for i := 0 to 4
      invariant buttons < (1 << i)
      invariant forall j :: 0 <= j < i ==> (Bit(buttons, j) <==> pins[j] == Reset)
    {
      var pinState: bv8 := if pins[i] == Set then 1 else 0;
      var pressed: bv8 := if pinState == 0 then 1 else 0;
      buttons := buttons | (pressed << i);
    }
    buttons := buttons & 0x0f;
    MasksAgree(buttons, PressedMask(pins));
  }

  /** The lowest set bit of a non-empty four-bit mask: the channel that wins a tie. */
  function LowestSetBit(m: bv8): (c: Channel)
    requires m != 0 && m < 16
    ensures Bit(m, c)
    ensures forall j :: 0 <= j < c ==> !Bit(m, j)
  {
    if Bit(m, 0) then 0 else if Bit(m, 1) then 1 else if Bit(m, 2) then 2 else 3
  }
}
