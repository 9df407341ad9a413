/** The firmware's register state and its code: the pin macros, the two
    scanners, the drive step, the initialisation in `main` and its loop. */
module Firmware {
  import opened Mask
  import opened Scan
  import opened Drive

  /** The input of one pass of the main loop: what ScanSega reads in its two
      phases and the eight DATA levels ScanNES reads. */
  datatype Round = Round(low: SegaLow, high: SegaHigh, nes: NesSamples)

  /** `stick` after `stick = ScanSega(); stick |= ScanNES();`. */
  function StickOf(r: Round): Mask {
    Merge(SegaMask(r.low, r.high), NesMask(r.nes))
  }

  /** The levels `n` passes of the loop write on the SEL/LAT line after `w`. */
  function RoundWaves(w: Wave, n: nat): Wave {
    if n == 0 then w else NesWave(SegaWave(RoundWaves(w, n - 1)))
  }

  /** The register bits of the pins the firmware configures. A TRIS bit is
      true for an input (high impedance); a pin bit is the level the port
      latch drives when the pin is an output. */
  class Ports {
    var trisStart: bool
    var trisData: bool
    var trisBottom: bool
    var trisTop: bool
    var trisPause: bool
    var trisBA: bool
    var trisSelLat: bool
    var trisCStart: bool
    var trisPotY: bool
    var trisHalfY: bool
    var trisPotX: bool
    var trisHalfX: bool
    var trisUp: bool
    var trisDown: bool
    var trisLeft: bool
    var trisRight: bool

    var pinStart: bool
    var pinBottom: bool
    var pinTop: bool
    var pinPause: bool
    var pinSelLat: bool
    var pinPotY: bool
    var pinHalfY: bool
    var pinPotX: bool
    var pinHalfX: bool

    /** Every level written to the SEL/LAT line, oldest first. */
    ghost var latchTrace: Wave

    /** The register bits of the vertical axis. */
    function YAxis(): AxisPins
      reads this`trisHalfY, this`trisPotY, this`pinHalfY, this`pinPotY
    {
      AxisPins(trisHalfY, trisPotY, pinHalfY, pinPotY)
    }

    /** The register bits of the horizontal axis. */
    function XAxis(): AxisPins
      reads this`trisHalfX, this`trisPotX, this`pinHalfX, this`pinPotX
    {
      AxisPins(trisHalfX, trisPotX, pinHalfX, pinPotX)
    }

    /** The register bits of the TOP (fire 1) line. */
    function Fire1(): LinePins
      reads this`trisTop, this`pinTop
    {
      LinePins(trisTop, pinTop)
    }

    /** The register bits of the BOTTOM (fire 2) line. */
    function Fire2(): LinePins
      reads this`trisBottom, this`pinBottom
    {
      LinePins(trisBottom, pinBottom)
    }

    /** The bits the drive step writes. */
    function Outputs(): PortOutputs
      reads this`trisHalfY, this`trisPotY, this`pinHalfY, this`pinPotY
      reads this`trisHalfX, this`trisPotX, this`pinHalfX, this`pinPotX
      reads this`trisTop, this`pinTop, this`trisBottom, this`pinBottom
      reads this`pinPause, this`pinStart
    {
      PortOutputs(YAxis(), XAxis(), Fire1(), Fire2(), pinPause, pinStart)
    }

    /** The directions set up once in `main` and never changed afterwards:
        the key lines and SEL/LAT are outputs, the controller lines inputs. */
    predicate Directions()
      reads this
    {
      && !trisStart && !trisPause && !trisSelLat
      && trisData && trisBA && trisCStart
      && trisUp && trisDown && trisLeft && trisRight
    }

    /** The pin initialisation of `main`. */
    constructor Init()
      ensures Directions()
      ensures Outputs() == Idle && Outputs() == DriveOutputs(0)
      ensures pinSelLat && latchTrace == Then(Begin, true)
    {
      trisStart := false;
      trisData := true;
      trisBottom := true;
      trisTop := true;
      trisPause := false;
      trisBA := true;
      trisSelLat := false;
      trisCStart := true;

      pinStart := false;
      pinBottom := true;
      pinTop := true;
      pinPause := false;
      pinSelLat := true;
      latchTrace := Then(Begin, true);

      trisPotY := true;
      trisHalfY := false;
      trisPotX := true;
      trisHalfX := false;

      trisUp := true;
      trisDown := true;
      trisLeft := true;
      trisRight := true;

      pinPotY := false;
      pinHalfY := true;
      pinPotX := false;
      pinHalfX := true;
      IdleIsDriveOfZero();
    }

    // ------------------------------------------------------------ macros

    method SetLatClkLow()
      modifies this`pinSelLat, this`latchTrace
      ensures !pinSelLat && latchTrace == Then(old(latchTrace), false)
    {
      pinSelLat := false;
      latchTrace := Then(latchTrace, false);
    }

    method SetLatClkHigh()
      modifies this`pinSelLat, this`latchTrace
      ensures pinSelLat && latchTrace == Then(old(latchTrace), true)
    {
      pinSelLat := true;
      latchTrace := Then(latchTrace, true);
    }

    method Fire1Low()
      modifies this`trisTop, this`pinTop
      ensures Fire1() == FireLow
    {
      trisTop := false;
      pinTop := false;
    }

    method Fire1Open()
      modifies this`trisTop, this`pinTop
      ensures Fire1() == FireOpen
    {
      trisTop := true;
      pinTop := true;
    }

    method Fire2Low()
      modifies this`trisBottom, this`pinBottom
      ensures Fire2() == FireLow
    {
      trisBottom := false;
      pinBottom := false;
    }

    method Fire2Open()
      modifies this`trisBottom, this`pinBottom
      ensures Fire2() == FireOpen
    {
      trisBottom := true;
      pinBottom := true;
    }

    method SetKeySel()
      modifies this`pinPause
      ensures pinPause
    {
      pinPause := true;
    }

    method ReleaseKeySel()
      modifies this`pinPause
      ensures !pinPause
    {
      pinPause := false;
    }

    method SetKeyStart()
      modifies this`pinStart
      ensures pinStart
    {
      pinStart := true;
    }

    method ReleaseKeyStart()
      modifies this`pinStart
      ensures !pinStart
    {
      pinStart := false;
    }

    method SetXLeft()
      modifies this`trisHalfX, this`trisPotX, this`pinHalfX, this`pinPotX
      ensures XAxis() == XPins(West)
    {
      trisHalfX := true;
      trisPotX := false;
      pinHalfX := false;
      pinPotX := true;
    }

    method SetXMiddle()
      modifies this`trisHalfX, this`trisPotX, this`pinHalfX, this`pinPotX
      ensures XAxis() == XPins(HMiddle)
    {
      trisHalfX := false;
      trisPotX := true;
      pinHalfX := true;
      pinPotX := false;
    }

    method SetXRight()
      modifies this`trisHalfX, this`trisPotX, this`pinHalfX, this`pinPotX
      ensures XAxis() == XPins(East)
    {
      trisHalfX := true;
      trisPotX := true;
      pinHalfX := false;
      pinPotX := false;
    }

    method SetYNorth()
      modifies this`trisHalfY, this`trisPotY, this`pinHalfY, this`pinPotY
      ensures YAxis() == YPins(North)
    {
      trisHalfY := true;
      trisPotY := false;
      pinHalfY := false;
      pinPotY := true;
    }

    method SetYMiddle()
      modifies this`trisHalfY, this`trisPotY, this`pinHalfY, this`pinPotY
      ensures YAxis() == YPins(VMiddle)
    {
      trisHalfY := false;
      trisPotY := true;
      pinHalfY := true;
      pinPotY := false;
    }

    method SetYSouth()
      modifies this`trisHalfY, this`trisPotY, this`pinHalfY, this`pinPotY
      ensures YAxis() == YPins(South)
    {
      trisHalfY := true;
      trisPotY := true;
      pinHalfY := false;
      pinPotY := false;
    }

    // ---------------------------------------------------------- scanners

    /** Reads the DB9 port: SEL low, the Genesis test, SEL high, the six
        second-phase lines. The settling delays are no-ops here. */
    method ScanSega(low: SegaLow, high: SegaHigh) returns (data: Mask)
      modifies this`pinSelLat, this`latchTrace
      ensures data == SegaMask(low, high)
      ensures pinSelLat && latchTrace == SegaWave(old(latchTrace))
    {
      SetLatClkLow();
      data := SegaSelLow(low);
      SetLatClkHigh();
      data := SegaSelHigh(data, high);
      SegaPhases(low, high);
    }

    /** Reads the NES/SNES port: latch low, eight rounds of shift, sample and
        clock pulse, then the line restored high. */
    method ScanNES(levels: NesSamples) returns (data: Mask)
      modifies this`pinSelLat, this`latchTrace
      ensures data == NesMask(levels)
      ensures pinSelLat && latchTrace == NesWave(old(latchTrace))
    {
      SetLatClkLow();
      data := 0;
      var i := 0;
      while i < 8
        invariant 0 <= i <= 8
        invariant data == ShiftInAll(0, levels[..i])
        invariant !pinSelLat && latchTrace == Pulses(Then(old(latchTrace), false), i)
      {
        assert levels[..i + 1][..i] == levels[..i];
        data := data >> 1;
        if !levels[i] {
          data := data | 0x80;
        }
        SetLatClkHigh();
        SetLatClkLow();
        i := i + 1;
      }
      SetLatClkHigh();
      assert levels[..8] == levels;
      ShiftInAllIsNesMask(0, levels);
    }

    // -------------------------------------------------------------- drive

    /** The vertical half of "Activate 5200 port accordingly". */
    method DriveY(stick: Mask)
      modifies this`trisHalfY, this`trisPotY, this`pinHalfY, this`pinPotY
      ensures YAxis() == YPins(VerticalOf(stick))
    {
      if Has(stick, Up) && Has(stick, Down) {
        SetYMiddle();
      } else if Has(stick, Up) {
        SetYNorth();
      } else if Has(stick, Down) {
        SetYSouth();
      } else {
        SetYMiddle();
      }
    }

    /** The horizontal half of "Activate 5200 port accordingly". */
    method DriveX(stick: Mask)
      modifies this`trisHalfX, this`trisPotX, this`pinHalfX, this`pinPotX
      ensures XAxis() == XPins(HorizontalOf(stick))
    {
      if Has(stick, Left) && Has(stick, Right) {
        SetXMiddle();
      } else if Has(stick, Left) {
        SetXLeft();
      } else if Has(stick, Right) {
        SetXRight();
      } else {
        SetXMiddle();
      }
    }

    /** "Activate fire buttons accordingly": a set trigger sinks its line. */
    method DriveFire(stick: Mask)
      modifies this`trisTop, this`pinTop, this`trisBottom, this`pinBottom
      ensures Fire1() == FireLine(Has(stick, TrgA)) && Fire2() == FireLine(Has(stick, TrgB))
    {
      if Has(stick, TrgA) { Fire1Low(); } else { Fire1Open(); }
      if Has(stick, TrgB) { Fire2Low(); } else { Fire2Open(); }
    }

    /** "Activate keypad functions accordingly": a set key drives its line high. */
    method DriveKeys(stick: Mask)
      modifies this`pinPause, this`pinStart
      ensures pinPause == Has(stick, Sel) && pinStart == Has(stick, Strt)
    {
      if Has(stick, Sel) { SetKeySel(); } else { ReleaseKeySel(); }
      if Has(stick, Strt) { SetKeyStart(); } else { ReleaseKeyStart(); }
    }

    /** The drive step of the main loop: every output bit is rewritten from
        `stick` alone, so the previous output state has no influence. */
    method Drive(stick: Mask)
      modifies this`trisHalfY, this`trisPotY, this`pinHalfY, this`pinPotY
      modifies this`trisHalfX, this`trisPotX, this`pinHalfX, this`pinPotX
      modifies this`trisTop, this`pinTop, this`trisBottom, this`pinBottom
      modifies this`pinPause, this`pinStart
      ensures Outputs() == DriveOutputs(stick)
    {
      DriveY(stick);
      DriveX(stick);
      DriveFire(stick);
      DriveKeys(stick);
    }

    /** One pass of the `for (;;)` body: scan both ports, merge, drive. */
    method Iterate(r: Round)
      modifies this`trisHalfY, this`trisPotY, this`pinHalfY, this`pinPotY
      modifies this`trisHalfX, this`trisPotX, this`pinHalfX, this`pinPotX
      modifies this`trisTop, this`pinTop, this`trisBottom, this`pinBottom
      modifies this`pinPause, this`pinStart, this`pinSelLat, this`latchTrace
      ensures Outputs() == DriveOutputs(StickOf(r))
      ensures pinSelLat && latchTrace == NesWave(SegaWave(old(latchTrace)))
    {
      var stick := ScanSega(r.low, r.high);
      var nes := ScanNES(r.nes);
      stick := Merge(stick, nes);
      Drive(stick);
    }

    /** The main loop, run for as many passes as `rounds` has entries. Each
        pass leaves a legal configuration determined by its own round. */
    method Run(rounds: seq<Round>)
      modifies this`trisHalfY, this`trisPotY, this`pinHalfY, this`pinPotY
      modifies this`trisHalfX, this`trisPotX, this`pinHalfX, this`pinPotX
      modifies this`trisTop, this`pinTop, this`trisBottom, this`pinBottom
      modifies this`pinPause, this`pinStart, this`pinSelLat, this`latchTrace
      ensures |rounds| > 0 ==> Outputs() == DriveOutputs(StickOf(rounds[|rounds| - 1]))
      ensures |rounds| == 0 ==> Outputs() == old(Outputs())
      ensures Legal(old(Outputs())) ==> Legal(Outputs())
      ensures latchTrace == RoundWaves(old(latchTrace), |rounds|)
    {
      var i := 0;
      while i < |rounds|
        invariant 0 <= i <= |rounds|
        invariant i > 0 ==> Outputs() == DriveOutputs(StickOf(rounds[i - 1])) && Legal(Outputs())
        invariant i == 0 ==> Outputs() == old(Outputs())
        invariant latchTrace == RoundWaves(old(latchTrace), i)
      {
        Iterate(rounds[i]);
        DriveIsLegal(StickOf(rounds[i]));
        i := i + 1;
      }
    }
  }

  /** Driving twice with the same mask leaves the same outputs as driving once,
      and touches no field beyond the output bits. */
  method DriveTwice(p: Ports, stick: Mask) returns (first: PortOutputs, second: PortOutputs)
    modifies p`trisHalfY, p`trisPotY, p`pinHalfY, p`pinPotY
    modifies p`trisHalfX, p`trisPotX, p`pinHalfX, p`pinPotX
    modifies p`trisTop, p`pinTop, p`trisBottom, p`pinBottom
    modifies p`pinPause, p`pinStart
    ensures first == second == DriveOutputs(stick) == p.Outputs()
  {
    p.Drive(stick);
    first := p.Outputs();
    p.Drive(stick);
    second := p.Outputs();
  }
}
