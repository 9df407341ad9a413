/** The button/direction state of one loop iteration: a byte holding one flag
    per button, in the bit layout both scanners share
    (bit 0 first: TRGA TRGB SEL STRT UP DOWN LEFT RIGHT). */
module Mask {

  /** An unsigned byte, as `uint8_t` in the firmware. */
  type Mask = bv8

  const TrgA: Mask := 0x01
  const TrgB: Mask := 0x02
  const Sel: Mask := 0x04
  const Strt: Mask := 0x08
  const Up: Mask := 0x10
  const Down: Mask := 0x20
  const Left: Mask := 0x40
  const Right: Mask := 0x80

  /** The C test `stick & flag`: a flag is set when the masked value is non-zero. */
  predicate Has(m: Mask, flag: Mask) {
    m & flag != 0
  }

  /** Bit `i` of `m`, counting from the least significant one. */
  predicate Bit(m: Mask, i: nat)
    requires i < 8
  {
    (m >> i) & 1 == 1
  }

  /** The eight flags as a record. */
  datatype Buttons = Buttons(trgA: bool, trgB: bool, sel: bool, strt: bool,
                             up: bool, down: bool, left: bool, right: bool)

  const Released := Buttons(false, false, false, false, false, false, false, false)

  function Decode(m: Mask): (b: Buttons)
    ensures b.trgA == Bit(m, 0) && b.trgB == Bit(m, 1) && b.sel == Bit(m, 2) && b.strt == Bit(m, 3)
    ensures b.up == Bit(m, 4) && b.down == Bit(m, 5) && b.left == Bit(m, 6) && b.right == Bit(m, 7)
  {
    Buttons(Has(m, TrgA), Has(m, TrgB), Has(m, Sel), Has(m, Strt),
            Has(m, Up), Has(m, Down), Has(m, Left), Has(m, Right))
  }

  function Flag(on: bool, flag: Mask): Mask {
    if on then flag else 0
  }

  /** The byte whose flags are exactly those of `b`. */
  function Encode(b: Buttons): (m: Mask)
    ensures Decode(m) == b
  {
    Flag(b.trgA, TrgA) | Flag(b.trgB, TrgB) | Flag(b.sel, Sel) | Flag(b.strt, Strt) |
    Flag(b.up, Up) | Flag(b.down, Down) | Flag(b.left, Left) | Flag(b.right, Right)
  }

  /** Every byte is the encoding of its own flags: the layout leaves no bit unused. */
  lemma EncodeDecode(m: Mask)
    ensures Encode(Decode(m)) == m
  {
  }

  lemma ReleasedIsZero()
    ensures Encode(Released) == 0 && Decode(0) == Released
  {
  }

  /** Two bytes that agree on every bit are equal. */
  lemma BitsEqual(a: Mask, b: Mask)
    requires forall i: nat :: i < 8 ==> Bit(a, i) == Bit(b, i)
    ensures a == b
  {
    assert Bit(a, 0) == Bit(b, 0) && Bit(a, 1) == Bit(b, 1);
    assert Bit(a, 2) == Bit(b, 2) && Bit(a, 3) == Bit(b, 3);
    assert Bit(a, 4) == Bit(b, 4) && Bit(a, 5) == Bit(b, 5);
    assert Bit(a, 6) == Bit(b, 6) && Bit(a, 7) == Bit(b, 7);
    assert Decode(a) == Decode(b);
    EncodeDecode(a);
    EncodeDecode(b);
  }

  /** A button is pressed when either controller reports it pressed. */
  function Either(a: Buttons, b: Buttons): Buttons {
    Buttons(a.trgA || b.trgA, a.trgB || b.trgB, a.sel || b.sel, a.strt || b.strt,
            a.up || b.up, a.down || b.down, a.left || b.left, a.right || b.right)
  }

  /** `stick = ScanSega(); stick |= ScanNES();`: the combined mask holds every
      flag that either scan set. */
  function Merge(sega: Mask, nes: Mask): (m: Mask)
    ensures Decode(m) == Either(Decode(sega), Decode(nes))
  {
    sega | nes
  }

  /** The order of the two scans does not affect the combined mask. */
  lemma MergeCommutes(a: Mask, b: Mask)
    ensures Merge(a, b) == Merge(b, a)
  {
  }
}
