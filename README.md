# Manchester firmware: one pass of the scan–merge–drive loop

The Manchester firmware runs on a PIC16F628. It reads a Sega DB9 controller
and an NES/SNES controller and presents them as an Atari 5200 joystick.
Each pass of its main loop does three things:

- It scans both controllers. The two scans share the SEL/LAT line.
- It ORs the two button masks into `stick`.
- It drives every output from `stick`: two three-position axes, two fire
  lines and two keypad lines.

This project models that pass in Dafny. Physical pins become abstract
samples, and the register bits become fields of a class.

- `mask.dfy` (module `Mask`) defines the byte `stick` (`bv8`) and the flags
  `_TRGA` … `_RIGHT` at bits 0 … 7. It gives them as a `Buttons` record
  with `Encode`/`Decode` round trips and defines the OR merge.
- `scan.dfy` (module `Scan`) says what each scanner computes from the pin
  levels it samples. A level is `true` when the pin reads 1, and buttons
  are active-low. For ScanSega: the two-phase read with the Genesis test.
  For ScanNES: the shift-in fold, proved to place sample *i* in bit *i*.
  The module also gives the waveform each scanner writes on SEL/LAT.
- `drive.dfy` (module `Drive`) says what the drive step must produce: the
  axis rules, the pin configurations of the `set_X_*`/`set_Y_*` and
  `fire*` macros, and the legal output states.
- `firmware.dfy` (module `Firmware`) holds class `Ports`, whose fields are
  the register bits, named after the macros (`trisHalfX` is `TRIS_HALFX`,
  `pinSelLat` is `PIN_SEL_LAT`). It has one method per output macro, `ScanSega`,
  `ScanNES` (with the counted loop of the source), the drive step, the pin
  initialisation of `main`, one loop pass (`Iterate`) and a bounded run of
  the loop (`Run`). A ghost field `latchTrace` records every level written
  to SEL/LAT. The read macros (`dataIn()`, `pinUP()` … `pinCSTART()`) have
  no method: each is the negation of a sampled pin level that the model
  takes as a parameter.

A TRIS bit is `true` when the pin is an input (high impedance). A pin bit
is the level its port latch drives.

On the NES bit order the code and its comments agree. ScanNES shifts right
and ORs each sample into bit 7, so the first sample ends up in bit 0
(`_TRGA`) and the eighth in bit 7 (`_RIGHT`). This is the order of the
timing diagram and of the bit table beside `_TRGA` … `_RIGHT`.

Where the code and its comments differ, the model follows the code:

- The comment above ScanSega lists bit 0 as C and bit 1 as B. The code sets
  `_TRGA` (bit 0) from the B/A pin and `_TRGB` (bit 1) from the C/Start pin
  in the SEL-high phase, and the model does the same.

## Model

| member | source | states |
|---|---|---|
| `Mask.Decode` | firmware/main.c:114-121 | flag *k* of the record is bit *k* of the byte, in the `_TRGA` … `_RIGHT` layout |
| `Mask.Encode` | firmware/main.c:114-121 | the byte built from a record decodes back to that record |
| `Mask.EncodeDecode` | firmware/main.c:114-121 | every byte is the encoding of its own flags: all eight bits are used |
| `Mask.ReleasedIsZero` | firmware/main.c:168 | the all-released record is the byte 0, and 0 decodes to all released |
| `Mask.Merge` | firmware/main.c:305-306 | `stick` holds a flag exactly when the Sega or the NES mask holds it |
| `Mask.MergeCommutes` | firmware/main.c:305-306 | the order of the two scans does not change the merged mask |
| `Scan.SegaPhases` | firmware/main.c:163-187 | the SEL-low accumulation followed by the SEL-high one computes the Sega mask |
| `Scan.SegaExtraButtons` | firmware/main.c:168-173 | without LEFT and RIGHT both low in the SEL-low phase, bits 2–3 are 0; with them, `_SEL`/`_STRT` are the SEL-low B/A and C/Start samples |
| `Scan.SegaSecondPhase` | firmware/main.c:179-184 | UP, DOWN, LEFT, RIGHT, TRGA and TRGB are the active-low SEL-high samples of UP, DOWN, LEFT, RIGHT, B/A and C/Start |
| `Scan.ShiftIn` | firmware/main.c:208-210 | one round moves every bit down by one and puts the active-low sample in bit 7 |
| `Scan.ShiftInAllBits` | firmware/main.c:206-216 | after *k* rounds the samples fill the top *k* bits, the first lowest, and the old contents have moved down by *k* |
| `Scan.ShiftInAllIsNesMask` | firmware/main.c:206-216 | eight rounds give the NES mask whatever the accumulator started with: the initial `data = 0` is shifted out |
| `Scan.NesMaskBits` | firmware/main.c:114-121 | bit *i* of the NES mask is the *i*-th active-low sample: the first lands in `_TRGA`, the eighth in `_RIGHT` |
| `Scan.PulsesLevels` | firmware/main.c:212-215 | a train of *n* clock pulses appends high, low *n* times to the line's levels |
| `Scan.PulseLevelsShape` | firmware/main.c:207-216 | *n* pulses are 2*n* levels, high at even positions and low at odd ones |
| `Scan.NesWaveLevels` | firmware/main.c:200-219 | ScanNES writes low, eight pulses, then high on SEL/LAT |
| `Drive.VerticalOf` | firmware/main.c:310-317 | north exactly when Up alone is set, south exactly when Down alone is set, middle exactly when both or neither are set |
| `Drive.HorizontalOf` | firmware/main.c:319-325 | west exactly when Left alone is set, east exactly when Right alone is set, middle exactly when both or neither are set |
| `Drive.AxisPinsDistinct` | firmware/main.c:141-147 | the three (TRIS, PORT) configurations of each axis are pairwise distinct |
| `Drive.DriveIsLegal` | firmware/main.c:309-334 | every mask drives each axis to one of its three configurations and each fire line to sink or open |
| `Drive.LegalIsDriven` | firmware/main.c:309-334 | an output state is legal exactly when it is the drive of some mask |
| `Drive.FireAndKeys` | firmware/main.c:328-334 | fire 1 sinks iff `_TRGA`, fire 2 sinks iff `_TRGB`, PAUSE is high iff `_SEL`, START is high iff `_STRT` |
| `Drive.IdleIsDriveOfZero` | firmware/main.c:309-334 | mask 0 puts both axes in the middle, both fire lines open and both keys released |
| `Drive.UpOnly` | firmware/main.c:310-334 | Up alone gives north, middle, fires open and keys released |
| `Drive.LeftRightFire` | firmware/main.c:319-329 | Left, Right and trigger A give a middle horizontal axis and fire 1 sinking, and nothing else changes from idle |
| `Drive.SelectStart` | firmware/main.c:333-334 | Select and Start press both keys and leave the axes and fires idle |
| `Drive.OpposingCentre` | firmware/main.c:310-311 | Up with Down, or Left with Right, gives the middle whatever else is set |
| `Firmware.Ports.Init` | firmware/main.c:249-281 | the initialisation makes the key lines and SEL/LAT outputs and the controller lines inputs, drives SEL/LAT high, and leaves exactly the outputs of driving mask 0 |
| `Firmware.Ports.SetLatClkLow` | firmware/main.c:109 | SEL/LAT goes low; only that bit changes |
| `Firmware.Ports.SetLatClkHigh` | firmware/main.c:110 | SEL/LAT goes high; only that bit changes |
| `Firmware.Ports.Fire1Low` | firmware/main.c:130 | TOP becomes an output driven low; only its two bits change |
| `Firmware.Ports.Fire1Open` | firmware/main.c:131 | TOP becomes an input with its latch at 1; only its two bits change |
| `Firmware.Ports.Fire2Low` | firmware/main.c:132 | BOTTOM becomes an output driven low; only its two bits change |
| `Firmware.Ports.Fire2Open` | firmware/main.c:133 | BOTTOM becomes an input with its latch at 1; only its two bits change |
| `Firmware.Ports.SetKeySel` | firmware/main.c:135 | PAUSE is driven high; nothing else changes |
| `Firmware.Ports.ReleaseKeySel` | firmware/main.c:136 | PAUSE is driven low; nothing else changes |
| `Firmware.Ports.SetKeyStart` | firmware/main.c:137 | START is driven high; nothing else changes |
| `Firmware.Ports.ReleaseKeyStart` | firmware/main.c:138 | START is driven low; nothing else changes |
| `Firmware.Ports.SetXLeft` | firmware/main.c:141 | the X axis takes its west configuration; only its four bits change |
| `Firmware.Ports.SetXMiddle` | firmware/main.c:142 | the X axis takes its middle configuration; only its four bits change |
| `Firmware.Ports.SetXRight` | firmware/main.c:143 | the X axis takes its east configuration; only its four bits change |
| `Firmware.Ports.SetYNorth` | firmware/main.c:145 | the Y axis takes its north configuration; only its four bits change |
| `Firmware.Ports.SetYMiddle` | firmware/main.c:146 | the Y axis takes its middle configuration; only its four bits change |
| `Firmware.Ports.SetYSouth` | firmware/main.c:147 | the Y axis takes its south configuration; only its four bits change |
| `Firmware.Ports.ScanSega` | firmware/main.c:163-187 | returns the Sega mask of the two phases' samples; SEL/LAT is pulled low, then left high; only that line changes |
| `Firmware.Ports.ScanNES` | firmware/main.c:196-222 | returns the NES mask of the eight samples; SEL/LAT goes low, gets exactly eight clock pulses and is left high; only that line changes |
| `Firmware.Ports.DriveY` | firmware/main.c:310-317 | the Y axis is set to the configuration of the vertical rule for `stick` |
| `Firmware.Ports.DriveX` | firmware/main.c:319-325 | the X axis is set to the configuration of the horizontal rule for `stick` |
| `Firmware.Ports.DriveFire` | firmware/main.c:328-330 | each fire line sinks when its trigger flag is set and is open otherwise |
| `Firmware.Ports.DriveKeys` | firmware/main.c:332-334 | PAUSE is high iff `_SEL`, START is high iff `_STRT` |
| `Firmware.Ports.Drive` | firmware/main.c:309-334 | every output bit is rewritten as a function of `stick` alone; no other register bit changes |
| `Firmware.Ports.Iterate` | firmware/main.c:303-338 | one loop pass leaves the drive of the OR of both scans' masks, with SEL/LAT high and the Sega then NES waveform appended |
| `Firmware.Ports.Run` | firmware/main.c:303-340 | after any number of passes the outputs are those of the last pass's mask, a legal state stays legal, and each pass appends its waveform |
| `Firmware.DriveTwice` | firmware/main.c:309-334 | driving the same mask twice leaves the same outputs as driving it once; only the output bits may change, so SEL/LAT, its trace and the pin directions stay as they were |

## Left out

- The busy-wait delays (`delay5us`, `delay4us`, the 12-, 20- and 100-round spin loops, the inline `nop`s) are no-ops here. They only set timing and have no logical effect.
- The chip configuration word and the `OSCCON`, `ANSEL`, `SPEN` and `CMCON` setup are hardware settings with no logic to model.
- The writes to the port latches of input pins (`PIN_DATAIN`, `PIN_B_A`, `PIN_C_ST`, `PIN_UP` … `PIN_RIGHT` in the initialisation) are not modelled, because an input pin ignores its latch.
- The electrical meaning of the outputs (resistances, RC settling) is out of scope: pin reads are arbitrary booleans. Each phase of ScanSega is modelled as one sample record, so two reads of the same pin within one phase see the same level. The short-circuit read of RIGHT after LEFT does not affect the result.
- The physical port and bit numbering is not modelled: pins are named by their macros. The defines disagree with the pinout drawing. `PIN_C_ST` is `RA6` and `PIN_SEL_LAT` is `RA7`, while `TRIS_SELLAT` is `TRISA6`, `TRIS_CSTART` is `TRISA7`, and the drawing puts SEL/LAT on RA6 and C_ST on RA7.
- The endless `for (;;)` loop is modelled as `Run` over a finite sequence of passes.
- SNES bits 8–15, autofire, 6-button MODE support and NES/SNES detection are not implemented in the firmware.
- Waveform timing (pulse widths, the latch-low interval) sits in the delays above. The model records only the order of levels on SEL/LAT.
- The trace does not record when each sample is read against the SEL/LAT edges. Nothing states that the `SegaLow` record is read while SEL is low, or that each NES sample comes before its clock pulse. The samples are parameters of the scan methods.
