/** What the output stage drives for a given mask: the Atari 5200 port
    emulation. Each axis is a three-position selector formed by the
    (TRIS, PORT) bits of its HALF and POT pins; the fire lines are sunk or
    released; the keypad lines are driven high when pressed. */
module Drive {
  import opened Mask

  datatype Vertical = North | VMiddle | South
  datatype Horizontal = West | HMiddle | East

  /** The vertical rule: Up and Down together give the middle, one alone
      gives its extreme, neither gives the middle. */
  function VerticalOf(m: Mask): (v: Vertical)
    ensures v == North <==> Has(m, Up) && !Has(m, Down)
    ensures v == South <==> Has(m, Down) && !Has(m, Up)
    ensures v == VMiddle <==> Has(m, Up) == Has(m, Down)
  {
    if Has(m, Up) && Has(m, Down) then VMiddle
    else if Has(m, Up) then North
    else if Has(m, Down) then South
    else VMiddle
  }

  /** The horizontal rule, the same with Left and Right. */
  function HorizontalOf(m: Mask): (h: Horizontal)
    ensures h == West <==> Has(m, Left) && !Has(m, Right)
    ensures h == East <==> Has(m, Right) && !Has(m, Left)
    ensures h == HMiddle <==> Has(m, Left) == Has(m, Right)
  {
    if Has(m, Left) && Has(m, Right) then HMiddle
    else if Has(m, Left) then West
    else if Has(m, Right) then East
    else HMiddle
  }

  /** The four register bits of one axis; a TRIS bit is true for an input
      (high impedance), a PORT bit is the level driven when it is an output. */
  datatype AxisPins = AxisPins(trisHalf: bool, trisPot: bool, pinHalf: bool, pinPot: bool)

  /** set_Y_north, set_Y_middle, set_Y_south. */
  function YPins(v: Vertical): AxisPins {
    match v
    case North => AxisPins(trisHalf := true, trisPot := false, pinHalf := false, pinPot := true)
    case VMiddle => AxisPins(trisHalf := false, trisPot := true, pinHalf := true, pinPot := false)
    case South => AxisPins(trisHalf := true, trisPot := true, pinHalf := false, pinPot := false)
  }

  /** set_X_left, set_X_middle, set_X_right. */
  function XPins(h: Horizontal): AxisPins {
    match h
    case West => AxisPins(trisHalf := true, trisPot := false, pinHalf := false, pinPot := true)
    case HMiddle => AxisPins(trisHalf := false, trisPot := true, pinHalf := true, pinPot := false)
    case East => AxisPins(trisHalf := true, trisPot := true, pinHalf := false, pinPot := false)
  }

  /** The three configurations of an axis are pairwise distinct, so the
      position can be read back from the pins. */
  lemma AxisPinsDistinct(v1: Vertical, v2: Vertical, h1: Horizontal, h2: Horizontal)
    ensures YPins(v1) == YPins(v2) <==> v1 == v2
    ensures XPins(h1) == XPins(h2) <==> h1 == h2
  {
  }

  /** The (TRIS, PORT) bits of a fire line. */
  datatype LinePins = LinePins(tris: bool, pin: bool)

  /** fire1Low / fire2Low: an output driven low, which sinks the trigger. */
  const FireLow := LinePins(tris := false, pin := false)
  /** fire1Open / fire2Open: an input, so the line is released. */
  const FireOpen := LinePins(tris := true, pin := true)

  /** A fire line sinks while its trigger is pressed and is released otherwise. */
  function FireLine(pressed: bool): LinePins {
    if pressed then FireLow else FireOpen
  }

  /** Every register bit the output stage writes. */
  datatype PortOutputs = PortOutputs(y: AxisPins, x: AxisPins, fire1: LinePins, fire2: LinePins,
                                     pause: bool, start: bool)

  /** The outputs one pass of the drive step leaves for `stick`. */
  function DriveOutputs(stick: Mask): PortOutputs {
    PortOutputs(y := YPins(VerticalOf(stick)), x := XPins(HorizontalOf(stick)),
                fire1 := FireLine(Has(stick, TrgA)), fire2 := FireLine(Has(stick, TrgB)),
                pause := Has(stick, Sel), start := Has(stick, Strt))
  }

  /** Every output channel is in one of its legal configurations. */
  predicate Legal(o: PortOutputs) {
    && (o.y == YPins(North) || o.y == YPins(VMiddle) || o.y == YPins(South))
    && (o.x == XPins(West) || o.x == XPins(HMiddle) || o.x == XPins(East))
    && (o.fire1 == FireLow || o.fire1 == FireOpen)
    && (o.fire2 == FireLow || o.fire2 == FireOpen)
  }

  /** The drive step only produces legal configurations, and every legal
      configuration is what it produces for some mask. */
  lemma LegalIsDriven(o: PortOutputs)
    ensures Legal(o) <==> exists stick: Mask :: DriveOutputs(stick) == o
  {
    if Legal(o) {
      var b := Buttons(trgA := o.fire1 == FireLow, trgB := o.fire2 == FireLow,
                       sel := o.pause, strt := o.start,
                       up := o.y == YPins(North), down := o.y == YPins(South),
                       left := o.x == XPins(West), right := o.x == XPins(East));
      var stick := Encode(b);
      assert DriveOutputs(stick) == o;
    }
  }

  /** The drive step only produces legal configurations. */
  lemma DriveIsLegal(stick: Mask)
    ensures Legal(DriveOutputs(stick))
  {
  }

  /** Which fire and key lines follow which flags. */
  lemma FireAndKeys(stick: Mask)
    ensures DriveOutputs(stick).fire1 == FireLow <==> Has(stick, TrgA)
    ensures DriveOutputs(stick).fire2 == FireLow <==> Has(stick, TrgB)
    ensures DriveOutputs(stick).pause <==> Has(stick, Sel)
    ensures DriveOutputs(stick).start <==> Has(stick, Strt)
  {
  }

  /** The idle state: with no flag set both axes are in the middle, both fire
      lines are released and both keys are up. */
  const Idle := PortOutputs(YPins(VMiddle), XPins(HMiddle), FireOpen, FireOpen, false, false)

  lemma IdleIsDriveOfZero()
    ensures DriveOutputs(0) == Idle
  {
  }

  /** Up alone: north, middle, nothing else. */
  lemma UpOnly()
    ensures DriveOutputs(Up) == Idle.(y := YPins(North))
  {
  }

  /** Left, Right and trigger A: horizontal in the middle, fire 1 sinks. */
  lemma LeftRightFire()
    ensures DriveOutputs(Left | Right | TrgA) == Idle.(fire1 := FireLow)
  {
  }

  /** Select and Start: both keys pressed, axes and fires idle. */
  lemma SelectStart()
    ensures DriveOutputs(Sel | Strt) == Idle.(pause := true, start := true)
  {
  }

  /** Opposing directions resolve to the middle whatever the other flags are. */
  lemma OpposingCentre(stick: Mask)
    ensures DriveOutputs(stick | Up | Down).y == YPins(VMiddle)
    ensures DriveOutputs(stick | Left | Right).x == XPins(HMiddle)
  {
  }
}
