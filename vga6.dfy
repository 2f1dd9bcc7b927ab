/**
 * The 6-bit multimonitor VGA driver: one byte per buffer unit (six colour
 * bits, horizontal sync in bit 6 and vertical sync in bit 7), eight output
 * pins, I2S1, and a `clear` that keeps the sync bits of every unit.
 */
module VGA6 {
  import opened Dma
  import opened I2SDriver
  import opened Multimonitor

  /** One byte per buffer unit. */
  const UnitBytes: nat := 1
  /** Eight output bits, one pin each. */
  const BitCount: nat := 8
  /** The 8-bit modes only run on I2S1. */
  const I2SIndex: int := 1
  const FrontColor: int := 1
  /** The monitor grid `init` uses when none is given. */
  const DefaultMonitorsX: nat := 3
  const DefaultMonitorsY: nat := 2
  /** The unit bits `clear` keeps: the two sync bits. */
  const KeptBits: bv8 := 0xC0

  /** The pin of output bit k is entry k: six colour pins, then hsync and vsync. */
  function PinMap(m0: int, m1: int, m2: int, m3: int, m4: int, m5: int,
                  hsyncPin: int, vsyncPin: int): (pinMap: seq<int>)
    ensures |pinMap| == BitCount
    ensures pinMap[..6] == [m0, m1, m2, m3, m4, m5]
    ensures pinMap[6] == hsyncPin && pinMap[7] == vsyncPin
  {
    [m0, m1, m2, m3, m4, m5, hsyncPin, vsyncPin]
  }

  /**
   * The sync pins sit on the sync bits: the pin of the bit the horizontal sync
   * mask selects is the hsync pin, and likewise for vertical sync.
   */
  lemma SyncPinsOnSyncBits(m0: int, m1: int, m2: int, m3: int, m4: int, m5: int,
                           hsyncPin: int, vsyncPin: int)
    ensures HSyncMask(UnitBytes) == 1 << 6 && VSyncMask(UnitBytes) == 1 << 7
    ensures PinMap(m0, m1, m2, m3, m4, m5, hsyncPin, vsyncPin)[6] == hsyncPin
    ensures PinMap(m0, m1, m2, m3, m4, m5, hsyncPin, vsyncPin)[7] == vsyncPin
  {
  }

  /** A driver on I2S1 with front colour 1 and no buffers yet. */
  method New(samplesPerUnit: nat, replicate: nat, device: Registers) returns (e: Engine)
    requires samplesPerUnit >= 1
    ensures fresh(e) && fresh(e.i2s)
    ensures e.unitBytes == UnitBytes && e.samplesPerUnit == samplesPerUnit && e.replicate == replicate
    ensures e.i2s.i2sIndex == I2SIndex && e.frontColor == FrontColor
    ensures e.i2s.dmaBufferDescriptors == null && e.currentBufferToAssign == 0
  {
    e := new Engine(UnitBytes, samplesPerUnit, replicate, I2SIndex, device, FrontColor);
  }

  /**
   * `init` with one pin per bit: records the monitor grid and starts the
   * overlapping-buffer layout with the 8-entry pin map.
   */
  method Init(e: Engine, mode: Mode, m0: int, m1: int, m2: int, m3: int, m4: int, m5: int,
              hsyncPin: int, vsyncPin: int, clockPin: int := -1,
              horMonitorCount: nat := DefaultMonitorsX, verMonitorCount: nat := DefaultMonitorsY)
    returns (outcome: Outcome)
    requires e.unitBytes == UnitBytes && mode.vDiv > 0
    modifies e`mx, e`my, e`lineBufferCount, e`rendererBufferCount, e`mode, e`wx, e`wy, e`totalLines
    modifies e`hsyncBit, e`hsyncBitI, e`vsyncBit, e`vsyncBitI
    modifies e`descriptorsPerLine, e`xres, e`yres, e`currentLine, e`vSyncPassed, e`pins
    modifies e.i2s`regs, e.i2s`dmaBufferDescriptorActive, e.i2s`apll
    ensures outcome == Ok
    ensures e.mx == horMonitorCount && e.my == verMonitorCount
    ensures e.OverlappingLayout(mode, Parallel(PinMap(m0, m1, m2, m3, m4, m5, hsyncPin, vsyncPin), clockPin))
    ensures e.xres == horMonitorCount * mode.hRes
    ensures e.yres * mode.vDiv <= verMonitorCount * mode.vRes < (e.yres + 1) * mode.vDiv
  {
    e.mx, e.my := horMonitorCount, verMonitorCount;
    outcome := e.InitOverlappingBuffers(mode, Parallel(PinMap(m0, m1, m2, m3, m4, m5, hsyncPin, vsyncPin), clockPin));
  }

  /** `init` with a pin list and a bit map: the same, with the pins given as they are. */
  method InitBitMapped(e: Engine, mode: Mode, pinMap: seq<int>, pinMapBit: seq<int>, pinCount: int,
                       clockPin: int := -1,
                       horMonitorCount: nat := DefaultMonitorsX, verMonitorCount: nat := DefaultMonitorsY)
    returns (outcome: Outcome)
    requires e.unitBytes == UnitBytes && mode.vDiv > 0
    modifies e`mx, e`my, e`lineBufferCount, e`rendererBufferCount, e`mode, e`wx, e`wy, e`totalLines
    modifies e`hsyncBit, e`hsyncBitI, e`vsyncBit, e`vsyncBitI
    modifies e`descriptorsPerLine, e`xres, e`yres, e`currentLine, e`vSyncPassed, e`pins
    modifies e.i2s`regs, e.i2s`dmaBufferDescriptorActive, e.i2s`apll
    ensures outcome == Ok
    ensures e.mx == horMonitorCount && e.my == verMonitorCount
    ensures e.OverlappingLayout(mode, BitMapped(pinMap, pinMapBit, pinCount, clockPin))
  {
    e.mx, e.my := horMonitorCount, verMonitorCount;
    outcome := e.InitOverlappingBuffers(mode, BitMapped(pinMap, pinMapBit, pinCount, clockPin));
  }

  /** `init` from a pin configuration: its 6-bit pin map and its clock pin. */
  method InitWithPinConfig(e: Engine, mode: Mode, pinConfig: PinConfig,
                           horMonitorCount: nat := DefaultMonitorsX, verMonitorCount: nat := DefaultMonitorsY)
    returns (outcome: Outcome)
    requires e.unitBytes == UnitBytes && mode.vDiv > 0
    modifies e`mx, e`my, e`lineBufferCount, e`rendererBufferCount, e`mode, e`wx, e`wy, e`totalLines
    modifies e`hsyncBit, e`hsyncBitI, e`vsyncBit, e`vsyncBitI
    modifies e`descriptorsPerLine, e`xres, e`yres, e`currentLine, e`vSyncPassed, e`pins
    modifies e.i2s`regs, e.i2s`dmaBufferDescriptorActive, e.i2s`apll
    ensures outcome == Ok
    ensures e.mx == horMonitorCount && e.my == verMonitorCount
    ensures e.OverlappingLayout(mode, Parallel(pinConfig.map6Bit, pinConfig.clock))
  {
    e.mx, e.my := horMonitorCount, verMonitorCount;
    outcome := e.InitOverlappingBuffers(mode, Parallel(pinConfig.map6Bit, pinConfig.clock));
  }

  /** `init` from a pin configuration alone: a 3 by 2 monitor grid. */
  method InitWithPinConfigOnly(e: Engine, mode: Mode, pinConfig: PinConfig) returns (outcome: Outcome)
    requires e.unitBytes == UnitBytes && mode.vDiv > 0
    modifies e`mx, e`my, e`lineBufferCount, e`rendererBufferCount, e`mode, e`wx, e`wy, e`totalLines
    modifies e`hsyncBit, e`hsyncBitI, e`vsyncBit, e`vsyncBitI
    modifies e`descriptorsPerLine, e`xres, e`yres, e`currentLine, e`vSyncPassed, e`pins
    modifies e.i2s`regs, e.i2s`dmaBufferDescriptorActive, e.i2s`apll
    ensures outcome == Ok
    ensures e.mx == 3 && e.my == 2
    ensures e.OverlappingLayout(mode, Parallel(pinConfig.map6Bit, pinConfig.clock))
  {
    outcome := InitWithPinConfig(e, mode, pinConfig, 3, 2);
  }

  /**
   * In a 6-bit unit the horizontal sync bit is set exactly when its request
   * differs from its polarity, the same for vertical sync, and no colour bit
   * is set.
   */
  lemma SyncUnitDrivesPins(hSync: bool, vSync: bool, hPolarity: bool, vPolarity: bool)
    ensures var u := SyncUnit(UnitBytes, hSync, vSync, hPolarity, vPolarity);
            && u & 0x40 == (if hSync != hPolarity then 0x40 else 0)
            && u & 0x80 == (if vSync != vPolarity then 0x80 else 0)
            && u & !0xC0 == 0
  {
  }

  /** The numeric value of a 6-bit sync unit: 0x40 for an active hsync pin, 0x80 for vsync. */
  lemma SyncUnitValue(hSync: bool, vSync: bool, hPolarity: bool, vPolarity: bool)
    ensures SyncUnit(UnitBytes, hSync, vSync, hPolarity, vPolarity) as int
            == (if hSync != hPolarity then 0x40 else 0) + (if vSync != vPolarity then 0x80 else 0)
  {
    LevelOf(HSyncMask(UnitBytes), hPolarity, hSync);
    LevelOf(VSyncMask(UnitBytes), vPolarity, vSync);
  }

  /**
   * Multiplying a unit below 0x100 by the byte replicator 0x01010101 puts a
   * copy of it in each of the four bytes of the word.
   */
  lemma {:induction false} ReplicatedIntoEachByte(u: nat)
    requires u < 0x100
    ensures var w := u * 0x01010101;
            && w < Uint32Modulus
            && w % 0x100 == u && w / 0x100 % 0x100 == u
            && w / 0x1_0000 % 0x100 == u && w / 0x100_0000 == u
  {
    var w := u * 0x01010101;
    // w = (u*0x10101)*0x100 + u, u*0x10101 = (u*0x101)*0x100 + u,
    // w = (u*0x101)*0x10000 + u*0x101, u*0x101 = u*0x100 + u, w = u*0x1000000 + u*0x10101
    QuotientRemainder(u * 0x10101, u, 0x100);
    QuotientRemainder(u * 0x101, u, 0x100);
    QuotientRemainder(u * 0x101, u * 0x101, 0x1_0000);
    QuotientRemainder(u, u, 0x100);
    QuotientRemainder(u, u * 0x10101, 0x100_0000);
  }

  /**
   * With the levels set and the byte replicator 0x01010101, the word `syncBits`
   * returns carries in each of its four bytes the hsync bit 0x40 exactly when
   * hsync is requested against its polarity, and likewise the vsync bit 0x80;
   * read as a signed 32-bit `long`, the word is negative exactly when the
   * vsync bit is set.
   */
  lemma SyncWordDrivesPins(e: Engine, hSync: bool, vSync: bool)
    requires e.unitBytes == UnitBytes && e.replicate == 0x01010101 && e.SyncLevelsSet()
    ensures var u := (if hSync != e.mode.hSyncPolarity then 0x40 else 0)
                   + (if vSync != e.mode.vSyncPolarity then 0x80 else 0);
            var w := e.SyncBits(hSync, vSync);
            var bits := w % Uint32Modulus;
            && bits % 0x100 == u && bits / 0x100 % 0x100 == u
            && bits / 0x1_0000 % 0x100 == u && bits / 0x100_0000 == u
            && (w < 0 <==> vSync != e.mode.vSyncPolarity)
  {
    var unit := SyncUnit(UnitBytes, hSync, vSync, e.mode.hSyncPolarity, e.mode.vSyncPolarity);
    SyncUnitValue(hSync, vSync, e.mode.hSyncPolarity, e.mode.vSyncPolarity);
    ReplicatedIntoEachByte(unit as int);
    var x := unit as int * 0x01010101;
    assert e.SyncBits(hSync, vSync) == Signed32(x);
    assert x % Uint32Modulus == x;
  }

  /** Byte `j` of block `b` is one of the first `cols` units of line `line`. */
  ghost predicate InRow(line: Ptr, cols: nat, b: array<bv8>, j: int)
  {
    line.block == b && line.offset <= j < line.offset + cols
  }

  /** Byte `j` of block `b` lies in the first `cols` units of one of lines `0..rows-1`. */
  ghost predicate InWindow(lines: seq<Ptr>, rows: nat, cols: nat, b: array<bv8>, j: int)
    requires rows <= |lines|
  {
    exists y :: 0 <= y < rows && InRow(lines[y], cols, b, j)
  }

  /** Every line of the window is a whole row of `cols` units inside its block. */
  ghost predicate WindowFits(lines: seq<Ptr>, rows: nat, cols: nat)
  {
    && rows <= |lines|
    && forall y :: 0 <= y < rows ==>
         lines[y].block != null && 0 <= lines[y].offset && lines[y].offset + cols <= lines[y].block.Length
  }

  /** The blocks the window's lines point into. */
  ghost function WindowBlocks(lines: seq<Ptr>, rows: nat): set<array?<bv8>>
    requires rows <= |lines|
  {
    set y | 0 <= y < rows :: lines[y].block
  }

  /** One more line of window: the old window and that line's first `cols` units. */
  lemma InWindowGrows(lines: seq<Ptr>, rows: nat, cols: nat, b: array<bv8>, j: int)
    requires rows < |lines|
    ensures InWindow(lines, rows + 1, cols, b, j) <==>
              InWindow(lines, rows, cols, b, j) || InRow(lines[rows], cols, b, j)
  {
    if InWindow(lines, rows + 1, cols, b, j) && !InRow(lines[rows], cols, b, j) {
      var y :| 0 <= y < rows + 1 && InRow(lines[y], cols, b, j);
      assert y < rows;
    }
  }

  /** One more unit of line `y`: the units visited before and that one. */
  lemma VisitedGrows(lines: seq<Ptr>, cols: nat, y: nat, x: nat, b: array<bv8>, j: int)
    requires y < |lines|
    ensures Visited(lines, cols, y, x + 1, b, j) <==>
              Visited(lines, cols, y, x, b, j) || (b == lines[y].block && j == lines[y].offset + x)
  {
  }

  /** Visited so far: lines before `y`, and the first `x` units of line `y`. */
  ghost predicate Visited(lines: seq<Ptr>, cols: nat, y: nat, x: nat, b: array<bv8>, j: int)
    requires y <= |lines|
  {
    InWindow(lines, y, cols, b, j) || (y < |lines| && InRow(lines[y], x, b, j))
  }

  /**
   * `clear`: every unit of the `wx` by `wy` window of the back buffer keeps
   * only its two sync bits; every other byte of those blocks is unchanged.
   * Lines that share bytes are harmless, since masking twice is masking once.
   */
  method Clear(e: Engine)
    requires WindowFits(e.backBuffer, e.wy, e.wx)
    modifies WindowBlocks(e.backBuffer, e.wy)
    ensures forall b: array<bv8>, j :: b in WindowBlocks(e.backBuffer, e.wy) && 0 <= j < b.Length ==>
              b[j] == if InWindow(e.backBuffer, e.wy, e.wx, b, j) then old(b[j]) & KeptBits else old(b[j])
  {
    var lines, rows, cols := e.backBuffer, e.wy, e.wx;
    ghost var blocks := WindowBlocks(lines, rows);
    for y := 0 to rows
      invariant forall b: array<bv8>, j :: b in blocks && 0 <= j < b.Length ==>
                  b[j] == if InWindow(lines, y, cols, b, j) then old(b[j]) & KeptBits else old(b[j])
    {
      for x := 0 to cols
        invariant forall b: array<bv8>, j :: b in blocks && 0 <= j < b.Length ==>
                    b[j] == if Visited(lines, cols, y, x, b, j) then old(b[j]) & KeptBits else old(b[j])
      {
        var line := lines[y];
        assert line.block in blocks;
        label before:
        line.block[line.offset + x] := line.block[line.offset + x] & KeptBits;
        forall b: array<bv8>, j | b in blocks && 0 <= j < b.Length
          ensures b[j] == if Visited(lines, cols, y, x + 1, b, j) then old(b[j]) & KeptBits else old(b[j])
        {
          VisitedGrows(lines, cols, y, x, b, j);
          if b == line.block && j == line.offset + x {
            assert b[j] == old@before(b[j]) & KeptBits;
          } else {
            assert b[j] == old@before(b[j]);
          }
        }
      }
      forall b: array<bv8>, j | b in blocks && 0 <= j < b.Length
        ensures b[j] == if InWindow(lines, y + 1, cols, b, j) then old(b[j]) & KeptBits else old(b[j])
      {
        InWindowGrows(lines, y, cols, b, j);
      }
    }
  }
}
