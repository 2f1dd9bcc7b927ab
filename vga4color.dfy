/**
 * The 4-colour multimonitor VGA driver: two bytes per buffer unit (four RGB
 * triples in the low twelve bits, two unused bits, horizontal sync in bit 14
 * and vertical sync in bit 15), sixteen output bits, I2S1 unless told
 * otherwise.
 */
module VGA4Color {
  import opened I2SDriver
  import opened Multimonitor

  /** Two bytes per buffer unit. */
  const UnitBytes: nat := 2
  /** Sixteen output bits. */
  const BitCount: nat := 16
  /** The I2S unit used when none is given. */
  const DefaultI2SIndex: int := 1
  const FrontColor: int := 0xf
  /** The monitor grid `init` uses when none is given. */
  const DefaultMonitorsX: nat := 2
  const DefaultMonitorsY: nat := 2

  /**
   * The pin of output bit k is entry k: four red-green-blue triples, two
   * unconnected bits (-1), then hsync and vsync.
   */
  function PinMap(r0: int, g0: int, b0: int, r1: int, g1: int, b1: int,
                  r2: int, g2: int, b2: int, r3: int, g3: int, b3: int,
                  hsyncPin: int, vsyncPin: int): (pinMap: seq<int>)
    ensures |pinMap| == BitCount
    ensures pinMap[..12] == [r0, g0, b0, r1, g1, b1, r2, g2, b2, r3, g3, b3]
    ensures pinMap[12] == -1 && pinMap[13] == -1
    ensures pinMap[14] == hsyncPin && pinMap[15] == vsyncPin
  {
    [r0, g0, b0, r1, g1, b1, r2, g2, b2, r3, g3, b3, -1, -1, hsyncPin, vsyncPin]
  }

  /**
   * The sync pins sit on the sync bits: bits 14 and 15 of a unit, the ones
   * the sync masks select.
   */
  lemma SyncPinsOnSyncBits(r0: int, g0: int, b0: int, r1: int, g1: int, b1: int,
                           r2: int, g2: int, b2: int, r3: int, g3: int, b3: int,
                           hsyncPin: int, vsyncPin: int)
    ensures HSyncMask(UnitBytes) == 1 << 14 && VSyncMask(UnitBytes) == 1 << 15
    ensures PinMap(r0, g0, b0, r1, g1, b1, r2, g2, b2, r3, g3, b3, hsyncPin, vsyncPin)[14] == hsyncPin
    ensures PinMap(r0, g0, b0, r1, g1, b1, r2, g2, b2, r3, g3, b3, hsyncPin, vsyncPin)[15] == vsyncPin
  {
  }

  /** A driver on the given I2S unit with front colour 0xf and no buffers yet. */
  method New(samplesPerUnit: nat, replicate: nat, device: Registers, i2sIndex: int := DefaultI2SIndex)
    returns (e: Engine)
    requires samplesPerUnit >= 1
    ensures fresh(e) && fresh(e.i2s)
    ensures e.unitBytes == UnitBytes && e.samplesPerUnit == samplesPerUnit && e.replicate == replicate
    ensures e.i2s.i2sIndex == i2sIndex && e.frontColor == FrontColor
    ensures e.i2s.dmaBufferDescriptors == null && e.currentBufferToAssign == 0
  {
    e := new Engine(UnitBytes, samplesPerUnit, replicate, i2sIndex, device, FrontColor);
  }

  /**
   * `init` with one pin per colour bit: records the monitor grid and starts the
   * overlapping-buffer layout with the 16-entry pin map. The R4 and G4 pins
   * take no part in it.
   */
  method Init(e: Engine, mode: Mode, r0: int, g0: int, b0: int, r1: int, g1: int, b1: int,
              r2: int, g2: int, b2: int, r3: int, g3: int, b3: int, r4: int, g4: int,
              hsyncPin: int, vsyncPin: int, clockPin: int := -1,
              horMonitorCount: nat := DefaultMonitorsX, verMonitorCount: nat := DefaultMonitorsY)
    returns (outcome: Outcome)
    requires e.unitBytes == UnitBytes && mode.vDiv > 0
    modifies e`mx, e`my, e`lineBufferCount, e`rendererBufferCount, e`mode, e`wx, e`wy, e`totalLines
    modifies e`hsyncBit, e`hsyncBitI, e`vsyncBit, e`vsyncBitI
    modifies e`descriptorsPerLine, e`xres, e`yres, e`currentLine, e`vSyncPassed, e`pins
    modifies e.i2s`regs, e.i2s`dmaBufferDescriptorActive, e.i2s`apll
    ensures outcome == Ok
    ensures e.mx == horMonitorCount && e.my == verMonitorCount
    ensures e.OverlappingLayout(mode, Parallel(PinMap(r0, g0, b0, r1, g1, b1, r2, g2, b2, r3, g3, b3, hsyncPin, vsyncPin), clockPin))
    ensures e.xres == horMonitorCount * mode.hRes
    ensures e.yres * mode.vDiv <= verMonitorCount * mode.vRes < (e.yres + 1) * mode.vDiv
  {
    e.mx, e.my := horMonitorCount, verMonitorCount;
    var pinMap := PinMap(r0, g0, b0, r1, g1, b1, r2, g2, b2, r3, g3, b3, hsyncPin, vsyncPin);
    outcome := e.InitOverlappingBuffers(mode, Parallel(pinMap, clockPin));
  }

  /** `init` from a pin configuration: its 14-bit pin map and its clock pin. */
  method InitWithPinConfig(e: Engine, mode: Mode, pinConfig: PinConfig,
                           horMonitorCount: nat := DefaultMonitorsX, verMonitorCount: nat := DefaultMonitorsY)
    returns (outcome: Outcome)
    requires e.unitBytes == UnitBytes && mode.vDiv > 0
    modifies e`mx, e`my, e`lineBufferCount, e`rendererBufferCount, e`mode, e`wx, e`wy, e`totalLines
    modifies e`hsyncBit, e`hsyncBitI, e`vsyncBit, e`vsyncBitI
    modifies e`descriptorsPerLine, e`xres, e`yres, e`currentLine, e`vSyncPassed, e`pins
    modifies e.i2s`regs, e.i2s`dmaBufferDescriptorActive, e.i2s`apll
    ensures outcome == Ok
    ensures e.mx == horMonitorCount && e.my == verMonitorCount
    ensures e.OverlappingLayout(mode, Parallel(pinConfig.map14Bit, pinConfig.clock))
  {
    e.mx, e.my := horMonitorCount, verMonitorCount;
    outcome := e.InitOverlappingBuffers(mode, Parallel(pinConfig.map14Bit, pinConfig.clock));
  }

  /**
   * `init` from a pin configuration alone: a 3 by 2 monitor grid, not the
   * 2 by 2 grid of the other `init` overloads.
   */
  method InitWithPinConfigOnly(e: Engine, mode: Mode, pinConfig: PinConfig) returns (outcome: Outcome)
    requires e.unitBytes == UnitBytes && mode.vDiv > 0
    modifies e`mx, e`my, e`lineBufferCount, e`rendererBufferCount, e`mode, e`wx, e`wy, e`totalLines
    modifies e`hsyncBit, e`hsyncBitI, e`vsyncBit, e`vsyncBitI
    modifies e`descriptorsPerLine, e`xres, e`yres, e`currentLine, e`vSyncPassed, e`pins
    modifies e.i2s`regs, e.i2s`dmaBufferDescriptorActive, e.i2s`apll
    ensures outcome == Ok
    ensures e.mx == 3 && e.my == 2
    ensures e.OverlappingLayout(mode, Parallel(pinConfig.map14Bit, pinConfig.clock))
  {
    outcome := InitWithPinConfig(e, mode, pinConfig, 3, 2);
  }

  /**
   * In a 16-bit unit the horizontal sync bit (bit 14) is set exactly when its
   * request differs from its polarity, the same for vertical sync (bit 15),
   * and no colour bit is set.
   */
  lemma SyncUnitDrivesPins(hSync: bool, vSync: bool, hPolarity: bool, vPolarity: bool)
    ensures var u := SyncUnit(UnitBytes, hSync, vSync, hPolarity, vPolarity);
            && u & 0x4000 == (if hSync != hPolarity then 0x4000 else 0)
            && u & 0x8000 == (if vSync != vPolarity then 0x8000 else 0)
            && u & !0xC000 == 0
  {
  }

  /** The numeric value of a 16-bit sync unit: 0x4000 for an active hsync pin, 0x8000 for vsync. */
  lemma SyncUnitValue(hSync: bool, vSync: bool, hPolarity: bool, vPolarity: bool)
    ensures SyncUnit(UnitBytes, hSync, vSync, hPolarity, vPolarity) as int
            == (if hSync != hPolarity then 0x4000 else 0) + (if vSync != vPolarity then 0x8000 else 0)
  {
    LevelOf(HSyncMask(UnitBytes), hPolarity, hSync);
    LevelOf(VSyncMask(UnitBytes), vPolarity, vSync);
  }

  /**
   * Multiplying a unit below 0x10000 by the half-word replicator 0x00010001
   * puts a copy of it in each half of the word.
   */
  lemma {:induction false} ReplicatedIntoEachHalf(u: nat)
    requires u < 0x1_0000
    ensures var w := u * 0x0001_0001;
            w < Uint32Modulus && w % 0x1_0000 == u && w / 0x1_0000 == u
  {
    QuotientRemainder(u, u, 0x1_0000);
  }
  /**
   * With the levels set and the half-word replicator 0x00010001, the word
   * `syncBits` returns carries in each half the hsync bit 0x4000 exactly when
   * hsync is requested against its polarity, and likewise the vsync bit 0x8000;
   * read as a signed 32-bit `long`, the word is negative exactly when the
   * vsync bit is set.
   */
  lemma SyncWordDrivesPins(e: Engine, hSync: bool, vSync: bool)
    requires e.unitBytes == UnitBytes && e.replicate == 0x0001_0001 && e.SyncLevelsSet()
    ensures var u := (if hSync != e.mode.hSyncPolarity then 0x4000 else 0)
                   + (if vSync != e.mode.vSyncPolarity then 0x8000 else 0);
            var w := e.SyncBits(hSync, vSync);
            var bits := w % Uint32Modulus;
            && bits % 0x1_0000 == u && bits / 0x1_0000 == u
            && (w < 0 <==> vSync != e.mode.vSyncPolarity)
  {
    var unit := SyncUnit(UnitBytes, hSync, vSync, e.mode.hSyncPolarity, e.mode.vSyncPolarity);
    SyncUnitValue(hSync, vSync, e.mode.hSyncPolarity, e.mode.vSyncPolarity);
    ReplicatedIntoEachHalf(unit as int);
    var x := unit as int * 0x0001_0001;
    assert e.SyncBits(hSync, vSync) == Signed32(x);
    assert x % Uint32Modulus == x;
  }

}
