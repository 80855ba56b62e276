/**
 * The random digit generator of game.c (calculateNewRandom): 25 analog
 * readings are folded into a 16-bit seed by an XOR and a linear
 * congruential step, and the seed is folded down to two bits.
 *
 * The readings are a parameter (the ADC driver is not part of the model),
 * and so is the seed the generator starts from: the source never
 * initialises it, so whatever the stack slot held is an input too. With both
 * given, the digit is a function of them, bit for bit.
 */
module Entropy {
  import opened Effects
  import opened Gpio

  /** Number of analog readings per draw. */
  const Readings := 25

  /** The first reading that is preceded by a jitter delay (`i > 22`). */
  const JitterFrom := 23

  /** `seed ^= HAL_ADC_GetValue(hadc)`: only the low 16 bits of the reading reach the seed. */
  function XorIn(seed: bv16, sample: bv32): (r: bv16)
    ensures r ^ (sample & 0xFFFF) as bv16 == seed
  {
    seed ^ (sample & 0xFFFF) as bv16
  }

  /**
   * One reading folded into the seed: `seed ^= HAL_ADC_GetValue(hadc)`, then
   * `seed = 2053 * seed + 13849`. The product is computed in `int` (at most
   * 2053 * 65535 + 13849 = 134557204, so it never overflows) and stored back
   * in 16 bits: that is arithmetic modulo 2^16, which `bv16` arithmetic is.
   */
  function MixStep(seed: bv16, sample: bv32): (r: bv16)
    ensures Unmix(r, sample) == seed
  {
    var mixed := XorIn(seed, sample);
    assert Unlcg(Lcg(mixed)) == mixed;
    Lcg(mixed)
  }

  /**
   * `seed = 2053 * seed + 13849`: the C product of the promoted value, cut
   * to 16 bits. 2053 is odd, so the step is a bijection of the 16-bit seeds.
   */
  function Lcg(seed: bv16): (r: bv16)
    ensures Unlcg(r) == seed
  {
    2053 * seed + 13849
  }

  /** The inverse of `Lcg`: 33997 is the inverse of 2053 modulo 2^16. */
  function Unlcg(r: bv16): bv16
  {
    33997 * (r - 13849)
  }

  /** The inverse of `MixStep` for a given reading. */
  function Unmix(r: bv16, sample: bv32): bv16
  {
    Unlcg(r) ^ (sample & 0xFFFF) as bv16
  }

  /**
   * The seed after the readings, taken in order. Undoing the readings in
   * reverse order gives the starting seed back, so no two starting seeds
   * end in the same seed.
   */
  function Mixed(seed: bv16, samples: seq<bv32>): (r: bv16)
    ensures Unmixed(r, samples) == seed
    decreases |samples|
  {
    if samples == [] then seed
    else MixStep(Mixed(seed, samples[..|samples| - 1]), samples[|samples| - 1])
  }

  /** The readings undone from the last to the first. */
  function Unmixed(r: bv16, samples: seq<bv32>): bv16
    decreases |samples|
  {
    if samples == [] then r
    else Unmixed(Unmix(r, samples[|samples| - 1]), samples[..|samples| - 1])
  }

  /** `temp = seed ^ (seed >> 8)`: the assignment to `uint8_t` keeps the low byte. */
  function XorBytes(seed: bv16): (temp: bv8)
    ensures temp == (seed & 0xFF) as bv8 ^ (seed >> 8) as bv8
  {
    ((seed ^ (seed >> 8)) & 0xFF) as bv8
  }

  /** `temp ^= (temp >> 4)`: the high nibble is folded into the low one and kept. */
  function XorNibbles(temp: bv8): (r: bv8)
    ensures r & 0xF == (temp & 0xF) ^ (temp >> 4)
    ensures r >> 4 == temp >> 4
  {
    temp ^ (temp >> 4)
  }

  /** `(temp ^ (temp >> 2)) & 0b11`: the two low bit pairs folded into one. */
  function XorPairs(temp: bv8): (d: bv8)
    ensures d < 4
    ensures d == (temp & 3) ^ ((temp >> 2) & 3)
  {
    (temp ^ (temp >> 2)) & 3
  }

  /** The diffusion byte `temp` a seed gives. */
  function Diffuse(seed: bv16): bv8
  {
    XorNibbles(XorBytes(seed))
  }

  /**
   * The digit a final seed gives. It is the XOR of all eight two-bit groups
   * of the seed, so every bit of the seed can change it.
   */
  function Digit(seed: bv16): (d: bv8)
    ensures d < 4
    ensures d as bv16 == (seed ^ (seed >> 2) ^ (seed >> 4) ^ (seed >> 6) ^ (seed >> 8)
                          ^ (seed >> 10) ^ (seed >> 12) ^ (seed >> 14)) & 3
  {
    XorPairs(Diffuse(seed))
  }

  /** The digit calculateNewRandom returns for a starting seed and 25 readings. */
  function Draw(seed: bv16, samples: seq<bv32>): (d: Byte)
    requires |samples| == Readings
    ensures 0 <= d < 4
  {
    Digit(Mixed(seed, samples)) as int
  }

  /** `temp` once the first `i` readings are folded in. */
  function TempAfter(seed: bv16, samples: seq<bv32>, i: nat): bv8
    requires i <= |samples|
  {
    Diffuse(Mixed(seed, samples[..i]))
  }

  /** The jitter a diffusion byte asks for: `temp & 0b11` ms. */
  function JitterMs(temp: bv8): (ms: nat)
    ensures ms <= 3
  {
    (temp & 3) as nat
  }

  /**
   * The jitter delays made before the readings `JitterFrom .. i - 1`: each
   * waits `temp & 3` ms, `temp` being the diffusion byte of the previous
   * iteration.
   */
  function Jitters(seed: bv16, samples: seq<bv32>, i: nat): (pauses: seq<Effect>)
    requires i <= |samples|
    decreases i
  {
    if i <= JitterFrom then []
    else Jitters(seed, samples, i - 1) + [Pause(JitterMs(TempAfter(seed, samples, i - 1)))]
  }

  /** Everything calculateNewRandom does to the board. */
  function DrawTrace(seed: bv16, samples: seq<bv32>): seq<Effect>
    requires |samples| == Readings
  {
    [Configure(Input), Pause(1)] + Jitters(seed, samples, Readings)
  }

  /**
   * Only the last two readings are delayed: by the jitter of `temp` after 23
   * readings, then after 24.
   */
  lemma JittersOfDraw(seed: bv16, samples: seq<bv32>)
    requires |samples| == Readings
    ensures Jitters(seed, samples, Readings) ==
              [Pause(JitterMs(TempAfter(seed, samples, 23))), Pause(JitterMs(TempAfter(seed, samples, 24)))]
  {
    assert Jitters(seed, samples, JitterFrom) == [];
    assert Jitters(seed, samples, 24) == [Pause(JitterMs(TempAfter(seed, samples, 23)))];
  }

  /**
   * A draw makes no write, leaves all four channels as inputs and waits
   * 1 ms plus two jitter delays of at most 3 ms each.
   */
  lemma DrawTraceShape(s: PortState, seed: bv16, samples: seq<bv32>)
    requires s.Valid() && |samples| == Readings
    ensures NoWrite(DrawTrace(seed, samples)) && NoConfigure(DrawTrace(seed, samples)[1..])
    ensures DrivesOnlyOutputs(s, DrawTrace(seed, samples))
    ensures Run(s, DrawTrace(seed, samples)) == PortState(AllInput, s.latches)
    ensures |DrawTrace(seed, samples)| == 4
    ensures 1 <= Duration(DrawTrace(seed, samples)) <= 7
  {
    var t := DrawTrace(seed, samples);
    var j23, j24 := JitterMs(TempAfter(seed, samples, 23)), JitterMs(TempAfter(seed, samples, 24));
    JittersOfDraw(seed, samples);
    assert t == [Configure(Input), Pause(1), Pause(j23), Pause(j24)];
    NoWriteDrivesNothing(s, t);
    var s1 := Apply(s, Configure(Input));
    assert s1 == PortState(AllInput, s.latches);
    assert Run(s, t) == Run(s1, [Pause(1), Pause(j23), Pause(j24)]);
    assert Run(s1, [Pause(1), Pause(j23), Pause(j24)]) == Run(s1, [Pause(j23), Pause(j24)]);
    assert Run(s1, [Pause(j23), Pause(j24)]) == Run(s1, [Pause(j24)]) == s1;
    assert Duration(t) == Duration([Pause(1), Pause(j23), Pause(j24)]);
    assert Duration([Pause(1), Pause(j23), Pause(j24)]) == 1 + Duration([Pause(j23), Pause(j24)]);
    assert Duration([Pause(j23), Pause(j24)]) == j23 + Duration([Pause(j24)]);
    assert Duration([Pause(j24)]) == j24;
  }

  /** What one more iteration of the loop adds to the seed and to the delays. */
  lemma NextReading(seed: bv16, samples: seq<bv32>, i: nat)
    requires i < |samples|
    ensures Mixed(seed, samples[..i + 1]) == MixStep(Mixed(seed, samples[..i]), samples[i])
    ensures Jitters(seed, samples, i + 1) ==
              Jitters(seed, samples, i) + if i > 22 then [Pause(JitterMs(TempAfter(seed, samples, i)))] else []
  {
    assert samples[..i + 1][..i] == samples[..i];
  }

  /**
   * calculateNewRandom: switch the channels to inputs, wait 1 ms, fold in the
   * 25 readings (waiting `temp & 3` ms before each of the last two) and
   * return the two-bit digit of the final seed.
   */
  method CalculateNewRandom(board: Board, seed0: bv16, samples: seq<bv32>) returns (r: Byte)
    requires board.Valid() && |samples| == Readings
    modifies board
    ensures board.Valid()
    ensures r == Draw(seed0, samples) && r < 4
    ensures board.trace == old(board.trace) + DrawTrace(seed0, samples)
  {
    board.SetPinsAsInputs();
    var seed := seed0;
    var temp: bv8 := 0; // not read before the first iteration sets it
    board.Delay(1);
    ghost var settled := board.trace;
    for i := 0 to Readings
      invariant board.Valid()
      invariant seed == Mixed(seed0, samples[..i])
      invariant i > 0 ==> temp == Diffuse(seed)
      invariant board.trace == settled + Jitters(seed0, samples, i)
    {
      NextReading(seed0, samples, i);
      if i > 22 {
        ghost var j := Jitters(seed0, samples, i);
        board.Delay(JitterMs(temp));
        assert board.trace == settled + (j + [Pause(JitterMs(temp))]);
      } else {
        assert Jitters(seed0, samples, i + 1) == Jitters(seed0, samples, i);
      }
      seed := XorIn(seed, samples[i]);
      seed := Lcg(seed);
      temp := XorBytes(seed);
      temp := XorNibbles(temp);
    }
    assert samples[..Readings] == samples;
    r := XorPairs(temp) as int;
  }
}
