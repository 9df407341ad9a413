/** What the two scanners compute, as functions of the pin levels they sample.
    A level is `true` when the pin reads 1; every button input is active-low,
    so a pressed button reads `false`. */
module Scan {
  import opened Mask

  // ---------------------------------------------------------------- Sega DB9

  /** The levels ScanSega reads while the SEL line is low. */
  datatype SegaLow = SegaLow(left: bool, right: bool, ba: bool, cst: bool)

  /** The levels ScanSega reads after the SEL line has gone back high. */
  datatype SegaHigh = SegaHigh(up: bool, down: bool, left: bool, right: bool, ba: bool, cst: bool)

  /** A Genesis pad grounds LEFT and RIGHT while SEL is low; no plain
      joystick can press both at once. */
  predicate GenesisDetected(low: SegaLow) {
    !low.left && !low.right
  }

  /** Which buttons a Sega scan reports. While SEL is low a Genesis pad puts
      A on the B/A pin and Start on the C/Start pin; they become SEL and STRT,
      and only when the pad is detected. While SEL is high the same two pins
      carry B and C, which become TRGA and TRGB, beside the four directions. */
  function SegaButtons(low: SegaLow, high: SegaHigh): Buttons {
    Buttons(trgA := !high.ba, trgB := !high.cst,
            sel := GenesisDetected(low) && !low.ba, strt := GenesisDetected(low) && !low.cst,
            up := !high.up, down := !high.down, left := !high.left, right := !high.right)
  }

  function SegaMask(low: SegaLow, high: SegaHigh): Mask {
    Encode(SegaButtons(low, high))
  }

  /** What ScanSega has accumulated when SEL goes back high, from `data = 0`. */
  function SegaSelLow(low: SegaLow): Mask {
    if !low.left && !low.right then Flag(!low.ba, Sel) | Flag(!low.cst, Strt) else 0
  }

  /** The second phase ORs the six SEL-high flags into `data`. */
  function SegaSelHigh(data: Mask, high: SegaHigh): Mask {
    data | Flag(!high.up, Up) | Flag(!high.down, Down) | Flag(!high.left, Left)
         | Flag(!high.right, Right) | Flag(!high.ba, TrgA) | Flag(!high.cst, TrgB)
  }

  /** The two phases together compute the Sega mask. */
  lemma SegaPhases(low: SegaLow, high: SegaHigh)
    ensures SegaSelHigh(SegaSelLow(low), high) == SegaMask(low, high)
  {
  }

  /** Without the Genesis signature bits 2 and 3 stay clear; with it they are
      the SEL-low samples of B/A and C/Start. */
  lemma SegaExtraButtons(low: SegaLow, high: SegaHigh)
    ensures !GenesisDetected(low) ==> SegaMask(low, high) & (Sel | Strt) == 0
    ensures GenesisDetected(low) ==>
              Has(SegaMask(low, high), Sel) == !low.ba && Has(SegaMask(low, high), Strt) == !low.cst
  {
  }

  /** The six flags of the second phase depend on the second phase only. */
  lemma SegaSecondPhase(low: SegaLow, high: SegaHigh)
    ensures Has(SegaMask(low, high), Up) == !high.up && Has(SegaMask(low, high), Down) == !high.down
    ensures Has(SegaMask(low, high), Left) == !high.left && Has(SegaMask(low, high), Right) == !high.right
    ensures Has(SegaMask(low, high), TrgA) == !high.ba && Has(SegaMask(low, high), TrgB) == !high.cst
  {
  }

  // ---------------------------------------------------------------- NES/SNES

  /** The eight DATA levels ScanNES reads, one per clock round, in order. */
  type NesSamples = s: seq<bool> | |s| == 8 witness [true, true, true, true, true, true, true, true]

  /** The controller shifts out A B Select Start Up Down Left Right, so the
      i-th sample is the button of bit i. */
  function NesButtons(s: NesSamples): Buttons {
    Buttons(!s[0], !s[1], !s[2], !s[3], !s[4], !s[5], !s[6], !s[7])
  }

  function NesMask(s: NesSamples): Mask {
    Encode(NesButtons(s))
  }

  /** One round of the ScanNES loop on the accumulator: shift right, then set
      bit 7 when DATA reads low. */
  function ShiftIn(data: Mask, level: bool): (r: Mask)
    ensures Bit(r, 7) == !level
    ensures forall t: nat :: t < 7 ==> Bit(r, t) == Bit(data, t + 1)
  {
    (data >> 1) | (if !level then 0x80 else 0)
  }

  /** The accumulator after one round per level, from `data`. */
  function ShiftInAll(data: Mask, levels: seq<bool>): Mask
    requires |levels| <= 8
  {
    if levels == [] then data
    else ShiftIn(ShiftInAll(data, levels[..|levels| - 1]), levels[|levels| - 1])
  }

  /** After k rounds the k samples occupy the top k bits, the first one
      lowest, and what was in `data` has moved down by k. */
  lemma {:induction false} ShiftInAllBits(data: Mask, levels: seq<bool>)
    requires |levels| <= 8
    ensures forall j: nat :: j < |levels| ==> Bit(ShiftInAll(data, levels), 8 - |levels| + j) == !levels[j]
    ensures forall t: nat :: t < 8 - |levels| ==> Bit(ShiftInAll(data, levels), t) == Bit(data, t + |levels|)
  {
    if levels != [] {
      var k := |levels|;
      var prefix := levels[..k - 1];
      ShiftInAllBits(data, prefix);
      var before := ShiftInAll(data, prefix);
      var r := ShiftInAll(data, levels);
      assert r == ShiftIn(before, levels[k - 1]);
      forall j: nat | j < k - 1
        ensures Bit(r, 8 - k + j) == !levels[j]
      {
        assert prefix[j] == levels[j];
        assert Bit(r, 8 - k + j) == Bit(before, 8 - (k - 1) + j);
      }
    }
  }

  /** Eight rounds place sample i in bit i, whatever the accumulator held
      before: the initial `data = 0` is shifted out completely. */
  lemma ShiftInAllIsNesMask(data: Mask, s: NesSamples)
    ensures ShiftInAll(data, s) == NesMask(s)
  {
    ShiftInAllBits(data, s);
    NesMaskBits(s);
    BitsEqual(ShiftInAll(data, s), NesMask(s));
  }

  /** The first sample lands in TRGA (bit 0), the eighth in RIGHT (bit 7). */
  lemma NesMaskBits(s: NesSamples)
    ensures forall i: nat :: i < 8 ==> Bit(NesMask(s), i) == !s[i]
  {
  }

  // ------------------------------------------------------------ SEL/LAT line

  /** The levels written on the shared SEL/LAT line, newest last. */
  datatype Wave = Begin | Then(before: Wave, level: bool)

  /** The levels of a wave in the order they were written. */
  function Levels(w: Wave): seq<bool> {
    match w
    case Begin => []
    case Then(before, level) => Levels(before) + [level]
  }

  /** `n` clock pulses on a line that is low: high, then low again, n times. */
  function Pulses(w: Wave, n: nat): Wave {
    if n == 0 then w else Then(Then(Pulses(w, n - 1), true), false)
  }

  /** `n` clock pulses as levels. */
  function PulseLevels(n: nat): seq<bool> {
    if n == 0 then [] else PulseLevels(n - 1) + [true, false]
  }

  lemma {:induction false} PulsesLevels(w: Wave, n: nat)
    ensures Levels(Pulses(w, n)) == Levels(w) + PulseLevels(n)
  {
    if n > 0 {
      PulsesLevels(w, n - 1);
      assert Levels(Pulses(w, n)) == Levels(w) + PulseLevels(n - 1) + [true] + [false];
    }
  }

  /** A pulse train is high at even positions and low at odd ones. */
  lemma {:induction false} PulseLevelsShape(n: nat)
    ensures |PulseLevels(n)| == 2 * n
    ensures forall i :: 0 <= i < 2 * n ==> PulseLevels(n)[i] == (i % 2 == 0)
  {
    if n > 0 {
      PulseLevelsShape(n - 1);
      var before := PulseLevels(n - 1);
      assert PulseLevels(n) == before + [true, false];
      forall i | 0 <= i < 2 * n
        ensures PulseLevels(n)[i] == (i % 2 == 0)
      {
        if i < 2 * (n - 1) {
          assert PulseLevels(n)[i] == before[i];
        }
      }
    }
  }

  /** What ScanSega writes on the shared line: low, then high. */
  function SegaWave(w: Wave): Wave {
    Then(Then(w, false), true)
  }

  /** What ScanNES writes on the shared line: the latch going low, eight
      clock pulses, and the line restored high. */
  function NesWave(w: Wave): Wave {
    Then(Pulses(Then(w, false), 8), true)
  }

  /** ScanNES's levels on the line: low, then eight pulses, then high. */
  lemma NesWaveLevels(w: Wave)
    ensures Levels(NesWave(w)) == Levels(w) + [false] + PulseLevels(8) + [true]
  {
    PulsesLevels(Then(w, false), 8);
  }
}
