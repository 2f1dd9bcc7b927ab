/**
 * The multi-monitor tiling and buffer-swap layer shared by the 6-bit and the
 * 4-colour multimonitor VGA drivers.
 *
 * One frame is drawn as `mx` by `my` monitors of the video mode's size. Each
 * scanline of the output is two DMA descriptors (a sync part and a data part)
 * or one; scrolling repoints the data descriptors of the retired frame buffer
 * at the back buffer's lines.
 *
 * A buffer unit is `unitBytes` bytes wide (1 for the 6-bit driver, 2 for the
 * 4-colour driver); the two sync signals are its two top bits.
 */
module Multimonitor {
  import opened Dma
  import opened I2SDriver
  import opened ClockSynth

  /** The timing of a video mode; the line and field lengths are taken as given. */
  datatype Mode = Mode(
    hRes: nat,
    vRes: nat,
    vDiv: nat,
    hSyncPolarity: bool,
    vSyncPolarity: bool,
    pixelClock: nat,
    pixelsPerLine: nat,
    linesPerField: nat)

  /** How the output pins are given: one pin per bit, or a pin list with a bit map. */
  datatype PinSetup =
    | Parallel(pinMap: seq<int>, clockPin: int)
    | BitMapped(pinMap: seq<int>, pinMapBit: seq<int>, pinCount: int, clockPin: int)

  /**
   * A pin configuration as the drivers use it: the pin maps it fills for the
   * 6-bit and the 14-bit layouts, and the clock pin.
   */
  datatype PinConfig = PinConfig(map6Bit: seq<int>, map14Bit: seq<int>, clock: int)

  /** Success, or the error the driver reports. */
  datatype Outcome = Ok | Failure(message: string)

  /** What `show` does: nothing, or a presentation with an optional wait in microseconds. */
  datatype ShowStep = Skipped | Presented(waitUs: Option<nat>)

  /** Frame and monitor sizes derived from the mode and the monitor grid. */
  datatype Tiling = Tiling(xres: nat, yres: nat, wx: nat, wy: nat)

  const Uint32Modulus: nat := 0x1_0000_0000
  const Uint64Modulus: nat := 0x1_0000_0000_0000_0000

  /**
   * A product as the 32-bit signed `long` it is stored in: its low 32 bits,
   * read in two's complement.
   */
  function Signed32(x: int): (r: int)
    ensures -0x8000_0000 <= r < 0x8000_0000
    ensures r % Uint32Modulus == x % Uint32Modulus
    ensures 0 <= x < 0x8000_0000 ==> r == x
  {
    var low := x % Uint32Modulus;
    if low < 0x8000_0000 then low else low - Uint32Modulus
  }

  /** A unit multiplied by the replication factor, as the signed 32-bit word it is returned in. */
  function ReplicatedWord(unit: bv32, replicate: nat): (w: int)
    ensures -0x8000_0000 <= w < 0x8000_0000
  {
    Signed32(unit as int * replicate)
  }

  /** The horizontal sync bit of a buffer unit of `unitBytes` bytes (bit `8*unitBytes-2`). */
  function HSyncMask(unitBytes: nat): bv32
    requires 1 <= unitBytes <= 4
  {
    if unitBytes == 1 then 0x40
    else if unitBytes == 2 then 0x4000
    else if unitBytes == 3 then 0x40_0000
    else 0x4000_0000
  }

  /** The vertical sync bit of a buffer unit (bit `8*unitBytes-1`). */
  function VSyncMask(unitBytes: nat): bv32
    requires 1 <= unitBytes <= 4
  {
    if unitBytes == 1 then 0x80
    else if unitBytes == 2 then 0x8000
    else if unitBytes == 3 then 0x80_0000
    else 0x8000_0000
  }

  /**
   * The masks are the source's shifts `1 << (8*unitBytes-2)` and
   * `1 << (8*unitBytes-1)`: single bits, vertical sync the one above horizontal sync.
   */
  lemma SyncMasksAreShifts(unitBytes: nat)
    requires 1 <= unitBytes <= 4
    ensures HSyncMask(unitBytes) == 1 << (8 * unitBytes - 2)
    ensures VSyncMask(unitBytes) == 1 << (8 * unitBytes - 1)
    ensures VSyncMask(unitBytes) == HSyncMask(unitBytes) << 1
  {
    if unitBytes == 1 {
    } else if unitBytes == 2 {
    } else if unitBytes == 3 {
    } else {
    }
  }

  /** The two sync bits are the top two bits of the unit: nothing above them, nothing of the unit lost. */
  lemma SyncMasksAreTopBits(unitBytes: nat)
    requires 1 <= unitBytes <= 4
    ensures HSyncMask(unitBytes) & VSyncMask(unitBytes) == 0
    ensures unitBytes < 4 ==> (HSyncMask(unitBytes) | VSyncMask(unitBytes)) >> (8 * unitBytes) == 0
    ensures (HSyncMask(unitBytes) | VSyncMask(unitBytes)) >> (8 * unitBytes - 2) == 3
  {
    if unitBytes == 1 {
    } else if unitBytes == 2 {
    } else if unitBytes == 3 {
    } else {
    }
  }

  /** The idle level of a sync signal: its bit when the polarity is set, no bit otherwise. */
  function IdleLevel(mask: bv32, polarity: bool): bv32
  {
    if polarity then mask else 0
  }

  /** The asserted level of a sync signal: the idle level with the sync bit flipped. */
  function AssertedLevel(mask: bv32, polarity: bool): bv32
  {
    IdleLevel(mask, polarity) ^ mask
  }

  /** The level a sync signal drives: asserted when requested, idle otherwise. */
  function Level(mask: bv32, polarity: bool, active: bool): bv32
  {
    if active then AssertedLevel(mask, polarity) else IdleLevel(mask, polarity)
  }

  /** The two levels of a signal never share a bit and together are its bit. */
  lemma LevelsPartitionMask(mask: bv32, polarity: bool)
    ensures AssertedLevel(mask, polarity) & IdleLevel(mask, polarity) == 0
    ensures AssertedLevel(mask, polarity) | IdleLevel(mask, polarity) == mask
  {
  }

  /** The sync part of one buffer unit: the levels of both signals, ORed. */
  function SyncUnit(unitBytes: nat, hSync: bool, vSync: bool, hPolarity: bool, vPolarity: bool): bv32
    requires 1 <= unitBytes <= 4
  {
    Level(HSyncMask(unitBytes), hPolarity, hSync) | Level(VSyncMask(unitBytes), vPolarity, vSync)
  }

  /** A signal drives its bit exactly when the request differs from the polarity. */
  lemma LevelOf(mask: bv32, polarity: bool, active: bool)
    ensures Level(mask, polarity, active) == if active != polarity then mask else 0
  {
  }

  /**
   * The tiled frame: `xres = mx*hRes`, `yres = (my*vRes)/vDiv` (multiplication
   * first), one monitor is `hRes` by `vRes/vDiv`.
   */
  function TiledResolution(mode: Mode, mx: nat, my: nat): (t: Tiling)
    requires mode.vDiv > 0
    ensures t.xres == mx * mode.hRes && t.wx == mode.hRes
    ensures t.yres * mode.vDiv <= my * mode.vRes < (t.yres + 1) * mode.vDiv
    ensures t.wy * mode.vDiv <= mode.vRes < (t.wy + 1) * mode.vDiv
  {
    Tiling(mx * mode.hRes, my * mode.vRes / mode.vDiv, mode.hRes, mode.vRes / mode.vDiv)
  }

  /**
   * The tiled height holds `my` whole monitors, and less than one more line per
   * monitor row is lost to the rounding of `vRes/vDiv`.
   */
  lemma TiledHeightCoversMonitors(mode: Mode, mx: nat, my: nat)
    requires mode.vDiv > 0 && my >= 1
    ensures my * TiledResolution(mode, mx, my).wy <= TiledResolution(mode, mx, my).yres
    ensures TiledResolution(mode, mx, my).yres < my * (TiledResolution(mode, mx, my).wy + 1)
  {
    var t := TiledResolution(mode, mx, my);
    var d, v, w, y := mode.vDiv, mode.vRes, t.wy, t.yres;
    // lower bound: (my*w)*d == my*(w*d) <= my*v < (y+1)*d
    assert (my * w) * d == my * (w * d);
    MulLeftMonotone(my, w * d, v);
    LargestMultipleBelow(my * w, y, d, my * v);
    // upper bound: y*d <= my*v < my*((w+1)*d) == (my*(w+1))*d
    assert my * v < my * ((w + 1) * d) by {
      MulLeftMonotone(my, v + 1, (w + 1) * d);
    }
    assert my * ((w + 1) * d) == (my * (w + 1)) * d;
    if y >= my * (w + 1) {
      MulRightMonotone(my * (w + 1), y, d);
    }
  }

  lemma MulLeftMonotone(a: nat, b: nat, c: nat)
    requires b <= c
    ensures a * b <= a * c
  {
  }

  lemma MulRightMonotone(a: nat, b: nat, d: nat)
    requires a <= b
    ensures a * d <= b * d
  {
  }

  /** If `x*d <= n < (q+1)*d` then `x <= q`. */
  lemma LargestMultipleBelow(x: nat, q: nat, d: nat, n: nat)
    requires d > 0 && x * d <= n && n < (q + 1) * d
    ensures x <= q
  {
    if x > q {
      MulRightMonotone(q + 1, x, d);
    }
  }

  lemma QuotientBelow(i: nat, d: nat, m: nat)
    requires d > 0 && i < m * d
    ensures i / d < m
  {
    LargestMultipleBelow(i / d, m - 1, d, i);
  }

  lemma FloorOf(p: nat, d: nat)
    requires d > 0
    ensures (p / d) * d <= p < (p / d + 1) * d
  {
    assert p == (p / d) * d + p % d;
  }

  /** Dividing `q*m + r` by `m`, for `r < m`, gives back `q` and `r`. */
  lemma QuotientRemainder(q: nat, r: nat, m: nat)
    requires r < m
    ensures (q * m + r) / m == q && (q * m + r) % m == r
  {
    var n := q * m + r;
    var d, e := n / m, n % m;
    assert n == d * m + e;
    if d > q {
      MulRightMonotone(q + 1, d, m);
      assert false;
    } else if d < q {
      MulRightMonotone(d + 1, q, m);
      assert false;
    }
  }

  lemma ModShift(a: nat, n: nat)
    requires a < n
    ensures (a + n) % n == a
  {
    assert a + n == 1 * n + a;
  }

  /** `(cur + n - 1) % n`: the buffer before the current one in round-robin order. */
  function RetiredBuffer(current: nat, count: nat): (r: nat)
    requires count >= 1
    ensures r < count
    ensures current < count ==> r == if current == 0 then count - 1 else current - 1
  {
    var r := (current + count - 1) % count;
    if 0 < current < count then ModShift(current - 1, count); r
    else r
  }

  /**
   * The retired buffer is the one the current buffer follows in round-robin
   * order, and with two or more buffers it is never the current one.
   */
  lemma RetiredBufferPrecedesCurrent(current: nat, count: nat)
    requires count >= 1 && current < count
    ensures (RetiredBuffer(current, count) + 1) % count == current
    ensures count >= 2 ==> RetiredBuffer(current, count) != current
  {
    if current == 0 {
      assert count % count == 0;
    }
  }

  /** Descriptor `i*dpl + dpl - 1` after `base`: the last descriptor of line `i`. */
  function Target(base: nat, i: nat, dpl: nat): (j: nat)
    requires dpl >= 1
    ensures base + i * dpl <= j < base + (i + 1) * dpl
  {
    base + i * dpl + dpl - 1
  }

  /** Distinct lines have distinct last descriptors, in increasing order. */
  lemma TargetIncreasing(base: nat, i: nat, k: nat, dpl: nat)
    requires dpl >= 1 && i < k
    ensures Target(base, i, dpl) < Target(base, k, dpl)
  {
    MulRightMonotone(i + 1, k, dpl);
  }

  /** The last descriptors of `n` lines all lie in the `n*dpl` descriptors from `base`. */
  lemma TargetInBlock(base: nat, i: nat, n: nat, dpl: nat)
    requires dpl >= 1 && i < n
    ensures Target(base, i, dpl) < base + n * dpl
  {
    MulRightMonotone(i + 1, n, dpl);
  }

  /** With two descriptors per line, line i's sync descriptor `base + 2i` is never a target. */
  lemma TargetSparesSyncDescriptors(base: nat, i: nat, k: nat)
    ensures Target(base, i, 2) != base + 2 * k
  {
  }

  /** How many output lines a scroll rewrites: `yres*vDiv/my`. */
  function ScrollLineCount(yres: nat, vDiv: nat, my: nat): (n: nat)
    requires my >= 1
    ensures n * my <= yres * vDiv < (n + 1) * my
  {
    yres * vDiv / my
  }

  /** For a tiled frame a scroll rewrites no more than one monitor's `vRes` lines. */
  lemma ScrollLinesAtMostMonitorHeight(mode: Mode, mx: nat, my: nat)
    requires mode.vDiv > 0 && my >= 1
    ensures ScrollLineCount(TiledResolution(mode, mx, my).yres, mode.vDiv, my) <= mode.vRes
  {
    var t := TiledResolution(mode, mx, my);
    var n := ScrollLineCount(t.yres, mode.vDiv, my);
    assert n * my <= mode.vRes * my;
    LargestMultipleBelow(n, mode.vRes, my, mode.vRes * my);
  }

  /** Every rewritten output line `i` shows a frame line `i/vDiv` that exists. */
  lemma ScrollRowInFrame(yres: nat, vDiv: nat, my: nat, i: nat)
    requires vDiv > 0 && my >= 1
    requires i < ScrollLineCount(yres, vDiv, my)
    ensures i / vDiv < yres
  {
    var n := ScrollLineCount(yres, vDiv, my);
    MulLeftMonotone(n, 1, my);
    assert i < yres * vDiv;
    QuotientBelow(i, vDiv, yres);
  }

  /**
   * The frame duration `ppl*lpf*1000000/pixelClock` in microseconds, computed
   * in unsigned 64-bit arithmetic and stored in an unsigned 32-bit variable.
   */
  function FrameDurationUs(pixelsPerLine: nat, linesPerField: nat, pixelClock: nat): (us: nat)
    requires pixelClock > 0
    ensures us < Uint32Modulus
  {
    (pixelsPerLine * linesPerField * 1000000 % Uint64Modulus) / pixelClock % Uint32Modulus
  }

  /**
   * Without overflow the wait is the frame duration rounded down to a whole
   * microsecond: `us` microseconds at `pixelClock` are at most one frame and
   * one more microsecond is more than a frame.
   */
  lemma FrameDurationRoundsDown(pixelsPerLine: nat, linesPerField: nat, pixelClock: nat)
    requires pixelClock > 0
    requires pixelsPerLine * linesPerField * 1000000 < Uint64Modulus
    requires pixelsPerLine * linesPerField * 1000000 / pixelClock < Uint32Modulus
    ensures var us := FrameDurationUs(pixelsPerLine, linesPerField, pixelClock);
            us * pixelClock <= pixelsPerLine * linesPerField * 1000000 < (us + 1) * pixelClock
  {
    var p := pixelsPerLine * linesPerField * 1000000;
    assert p % Uint64Modulus == p;
    assert FrameDurationUs(pixelsPerLine, linesPerField, pixelClock) == p / pixelClock;
    FloorOf(p, pixelClock);
  }

  /** The standard 640x480 mode (800 pixels, 525 lines at 25.175 MHz) waits 16683 microseconds. */
  lemma FrameDurationVga640x480()
    ensures FrameDurationUs(800, 525, 25175000) == 16683
  {
  }

  /**
   * The engine state the multimonitor drivers keep: the mode, the tiling, the
   * frame-buffer bookkeeping, the sync levels and the I2S channel whose
   * descriptor ring it repoints.
   */
  class Engine {
    /** Bytes per buffer unit. */
    const unitBytes: nat
    /** Samples per buffer unit, from the buffer layout. */
    const samplesPerUnit: nat
    /** The factor that replicates one unit across a 32-bit word. */
    const replicate: nat
    const i2s: I2S

    var frontColor: int
    var mode: Mode
    var pins: PinSetup
    var mx: nat
    var my: nat
    var xres: nat
    var yres: nat
    var wx: nat
    var wy: nat
    var totalLines: nat
    var lineBufferCount: nat
    var rendererBufferCount: nat
    var frameBufferCount: nat
    var currentFrameBuffer: nat
    var currentLine: int
    var vSyncPassed: bool
    var descriptorsPerLine: nat
    /** Index of the first descriptor of each renderer buffer. */
    var indexRendererDataBuffer: seq<nat>
    /** The lines of the buffer being drawn. */
    var backBuffer: seq<Ptr>
    var dataOffsetInLineInBytes: int
    var currentBufferToAssign: int
    var hsyncBit: bv32
    var hsyncBitI: bv32
    var vsyncBit: bv32
    var vsyncBitI: bv32

    constructor (unitBytes: nat, samplesPerUnit: nat, replicate: nat, i2sIndex: int,
                 device: Registers, frontColor: int)
      requires 1 <= unitBytes <= 4 && samplesPerUnit >= 1
      ensures this.unitBytes == unitBytes && this.samplesPerUnit == samplesPerUnit
      ensures this.replicate == replicate && this.frontColor == frontColor
      ensures fresh(i2s) && i2s.i2sIndex == i2sIndex && i2s.regs == device
      ensures i2s.dmaBufferDescriptors == null && i2s.dmaBufferDescriptorCount == 0
      ensures currentBufferToAssign == 0
      ensures frameBufferCount == 0 && backBuffer == [] && indexRendererDataBuffer == []
    {
      this.unitBytes := unitBytes;
      this.samplesPerUnit := samplesPerUnit;
      this.replicate := replicate;
      i2s := new I2S(i2sIndex, device);
      this.frontColor := frontColor;
      mode := Mode(0, 0, 1, false, false, 0, 0, 0);
      pins := Parallel([], -1);
      mx, my := 0, 0;
      xres, yres, wx, wy, totalLines := 0, 0, 0, 0, 0;
      lineBufferCount, rendererBufferCount, frameBufferCount, currentFrameBuffer := 0, 0, 0, 0;
      currentLine, vSyncPassed := 0, false;
      descriptorsPerLine := 0;
      indexRendererDataBuffer, backBuffer := [], [];
      dataOffsetInLineInBytes := 0;
      currentBufferToAssign := 0;
      hsyncBit, hsyncBitI, vsyncBit, vsyncBitI := 0, 0, 0, 0;
    }

    /** Sets the four sync levels from the mode's polarities. */
    method InitSyncBits()
      requires 1 <= unitBytes <= 4
      modifies this`hsyncBit, this`hsyncBitI, this`vsyncBit, this`vsyncBitI
      ensures SyncLevelsSet()
    {
      hsyncBitI := IdleLevel(HSyncMask(unitBytes), mode.hSyncPolarity);
      vsyncBitI := IdleLevel(VSyncMask(unitBytes), mode.vSyncPolarity);
      hsyncBit := AssertedLevel(HSyncMask(unitBytes), mode.hSyncPolarity);
      vsyncBit := AssertedLevel(VSyncMask(unitBytes), mode.vSyncPolarity);
    }

    /** The four sync levels are those of the mode's polarities. */
    ghost predicate SyncLevelsSet()
      requires 1 <= unitBytes <= 4
      reads this`mode, this`hsyncBit, this`hsyncBitI, this`vsyncBit, this`vsyncBitI
    {
      && hsyncBitI == IdleLevel(HSyncMask(unitBytes), mode.hSyncPolarity)
      && hsyncBit == AssertedLevel(HSyncMask(unitBytes), mode.hSyncPolarity)
      && vsyncBitI == IdleLevel(VSyncMask(unitBytes), mode.vSyncPolarity)
      && vsyncBit == AssertedLevel(VSyncMask(unitBytes), mode.vSyncPolarity)
    }

    /**
     * The sync unit for the requested signals, replicated across a 32-bit word
     * and returned as a signed 32-bit `long`; once the levels are set, it is the
     * mode's sync unit.
     */
    function SyncBits(hSync: bool, vSync: bool): (w: int)
      requires 1 <= unitBytes <= 4
      reads this
      ensures SyncLevelsSet() ==>
                w == ReplicatedWord(SyncUnit(unitBytes, hSync, vSync, mode.hSyncPolarity, mode.vSyncPolarity), replicate)
    {
      var unit := (if hSync then hsyncBit else hsyncBitI) | (if vSync then vsyncBit else vsyncBitI);
      assert SyncLevelsSet() ==>
               unit == SyncUnit(unitBytes, hSync, vSync, mode.hSyncPolarity, mode.vSyncPolarity) by {
        FieldsGiveSyncUnit(hSync, vSync);
      }
      ReplicatedWord(unit, replicate)
    }

    /** With the levels set, the unit read from the fields is the mode's sync unit. */
    lemma FieldsGiveSyncUnit(hSync: bool, vSync: bool)
      requires 1 <= unitBytes <= 4
      ensures SyncLevelsSet() ==>
                (if hSync then hsyncBit else hsyncBitI) | (if vSync then vsyncBit else vsyncBitI)
                == SyncUnit(unitBytes, hSync, vSync, mode.hSyncPolarity, mode.vSyncPolarity)
    {
    }

    /**
     * The mode-dependent part of `initMulti`: records the mode, the size of one
     * monitor and the field length, and sets the sync levels.
     */
    method ApplyMode(mode: Mode)
      requires 1 <= unitBytes <= 4 && mode.vDiv > 0
      modifies this`mode, this`wx, this`wy, this`totalLines
      modifies this`hsyncBit, this`hsyncBitI, this`vsyncBit, this`vsyncBitI
      ensures this.mode == mode && totalLines == mode.linesPerField
      ensures wx == TiledResolution(mode, mx, my).wx && wy == TiledResolution(mode, mx, my).wy
      ensures SyncLevelsSet()
    {
      this.mode := mode;
      wx := mode.hRes;
      wy := mode.vRes / mode.vDiv;
      InitSyncBits();
      totalLines := mode.linesPerField;
    }

    /** Records the tiled frame size. */
    method PropagateResolution(xres: nat, yres: nat)
      modifies this`xres, this`yres
      ensures this.xres == xres && this.yres == yres
    {
      this.xres, this.yres := xres, yres;
    }

    /**
     * Records the mode and the tiling, sets the sync levels, and either reports
     * an error for a descriptors-per-line value outside 1..2 or records that
     * layout, resets the line state, sets the clock for the mode's pixel clock
     * and starts transmission.
     */
    method InitMulti(mode: Mode, pins: PinSetup, descriptorsPerLine: int) returns (outcome: Outcome)
      requires 1 <= unitBytes <= 4 && mode.vDiv > 0
      modifies this`mode, this`wx, this`wy, this`totalLines
      modifies this`hsyncBit, this`hsyncBitI, this`vsyncBit, this`vsyncBitI
      modifies this`descriptorsPerLine, this`xres, this`yres, this`currentLine, this`vSyncPassed, this`pins
      modifies i2s`regs, i2s`dmaBufferDescriptorActive, i2s`apll
      ensures this.mode == mode && totalLines == mode.linesPerField
      ensures wx == TiledResolution(mode, mx, my).wx && wy == TiledResolution(mode, mx, my).wy
      ensures SyncLevelsSet()
      ensures outcome.Failure? <==> descriptorsPerLine < 1 || descriptorsPerLine > 2
      ensures outcome.Failure? ==>
                && this.descriptorsPerLine == old(this.descriptorsPerLine)
                && xres == old(xres) && yres == old(yres)
                && currentLine == old(currentLine) && vSyncPassed == old(vSyncPassed)
                && this.pins == old(this.pins) && i2s.regs == old(i2s.regs)
                && i2s.dmaBufferDescriptorActive == old(i2s.dmaBufferDescriptorActive)
                && i2s.apll == old(i2s.apll)
      ensures outcome.Ok? ==> this.descriptorsPerLine == descriptorsPerLine && Streaming(pins)
    {
      ApplyMode(mode);
      if descriptorsPerLine < 1 || descriptorsPerLine > 2 {
        return Failure("Wrong number of descriptors per line");
      }
      StartStreaming(pins, descriptorsPerLine);
      outcome := Ok;
    }

    /**
     * The tail of `initMulti` once the layout is accepted: records the layout,
     * the frame size and the pins, resets the line state, sets the clock for the
     * mode's pixel clock and starts transmission.
     */
    method StartStreaming(pins: PinSetup, descriptorsPerLine: nat)
      requires mode.vDiv > 0
      modifies this`descriptorsPerLine, this`xres, this`yres, this`currentLine, this`vSyncPassed, this`pins
      modifies i2s`regs, i2s`dmaBufferDescriptorActive, i2s`apll
      ensures this.descriptorsPerLine == descriptorsPerLine && Streaming(pins)
    {
      var t := TiledResolution(mode, mx, my);
      this.descriptorsPerLine := descriptorsPerLine;
      PropagateResolution(t.xres, t.yres);
      currentLine := 0;
      vSyncPassed := false;
      this.pins := pins;
      ghost var conf0 := i2s.regs.conf;
      i2s.InitParallelOutputMode(mode.pixelClock);
      ghost var conf1 := i2s.regs.conf;
      OutputModeConf(conf0);
      i2s.StartTX();
      StartKeepsParallelTx(conf1);
    }

    /**
     * The state transmission runs in once `initMulti` has accepted the layout:
     * the tiled frame size recorded, the line state reset, the clock chosen for
     * the pixel clock, and the channel in parallel output mode (tx_right_first
     * set, serial-mode flags clear) transmitting from its first descriptor.
     */
    ghost predicate Streaming(pins: PinSetup)
      reads this, i2s
    {
      && this.pins == pins && mode.vDiv > 0
      && xres == TiledResolution(mode, mx, my).xres && yres == TiledResolution(mode, mx, my).yres
      && currentLine == 0 && !vSyncPassed
      && ChosenSetting(mode.pixelClock, i2s.apll)
      && i2s.dmaBufferDescriptorActive == 0
      && i2s.regs.outLink == LinkReg(i2s.FirstDescriptorAddress(), true)
      && i2s.regs.conf & TxStart == TxStart
      && i2s.regs.conf & TxRightFirst == TxRightFirst && i2s.regs.conf & TxSerialFlags == 0
    }

    /**
     * The layout `initoverlappingbuffers` sets up for `mode` and `pins`: the
     * mode, its tiling and its sync levels recorded, two descriptors per line,
     * one line buffer per monitor line, one renderer buffer per frame buffer,
     * and transmission running.
     */
    ghost predicate OverlappingLayout(mode: Mode, pins: PinSetup)
      requires 1 <= unitBytes <= 4
      reads this, i2s
    {
      && this.mode == mode && mode.vDiv > 0 && totalLines == mode.linesPerField
      && wx == TiledResolution(mode, mx, my).wx && wy == TiledResolution(mode, mx, my).wy
      && SyncLevelsSet()
      && descriptorsPerLine == 2
      && lineBufferCount == mode.vRes / mode.vDiv
      && rendererBufferCount == frameBufferCount
      && Streaming(pins)
    }

    /**
     * One frame line per monitor line, as many renderer buffers as frame
     * buffers, and always two descriptors per line.
     */
    method InitOverlappingBuffers(mode: Mode, pins: PinSetup) returns (outcome: Outcome)
      requires 1 <= unitBytes <= 4 && mode.vDiv > 0
      modifies this`lineBufferCount, this`rendererBufferCount
      modifies this`mode, this`wx, this`wy, this`totalLines
      modifies this`hsyncBit, this`hsyncBitI, this`vsyncBit, this`vsyncBitI
      modifies this`descriptorsPerLine, this`xres, this`yres, this`currentLine, this`vSyncPassed, this`pins
      modifies i2s`regs, i2s`dmaBufferDescriptorActive, i2s`apll
      ensures outcome == Ok
      ensures OverlappingLayout(mode, pins)
    {
      lineBufferCount := mode.vRes / mode.vDiv;
      rendererBufferCount := frameBufferCount;
      outcome := InitMulti(mode, pins, 2);
    }

    /**
     * A line table of `yres` entries for the next frame buffer to assign: entry
     * `y` is that buffer's line `swy(y)`; each call advances to the next buffer.
     */
    method AllocateFrameBuffer(swy: int -> int, lineOf: (int, int) -> Ptr) returns (lines: array<Ptr>)
      modifies this`currentBufferToAssign
      ensures fresh(lines) && lines.Length == yres
      ensures forall y :: 0 <= y < yres ==> lines[y] == lineOf(swy(y), old(currentBufferToAssign))
      ensures currentBufferToAssign == old(currentBufferToAssign) + 1
    {
      var buffer := currentBufferToAssign;
      lines := new Ptr[yres](_ => NullPtr);
      for y := 0 to lines.Length
        invariant forall k :: 0 <= k < y ==> lines[k] == lineOf(swy(k), buffer)
      {
        lines[y] := lineOf(swy(y), buffer);
      }
      currentBufferToAssign := buffer + 1;
    }

    /**
     * What `show` does: nothing without frame buffers; otherwise it presents,
     * and only with exactly two buffers it waits one frame duration.
     */
    function ShowPlan(): (s: ShowStep)
      reads this
      requires frameBufferCount == 2 ==> mode.pixelClock > 0
      ensures s == Skipped <==> frameBufferCount == 0
      ensures s.Presented? && s.waitUs.Some? <==> frameBufferCount == 2
      ensures s.Presented? && s.waitUs.Some? ==>
                s.waitUs.value == FrameDurationUs(mode.pixelsPerLine, mode.linesPerField, mode.pixelClock)
    {
      if frameBufferCount == 0 then Skipped
      else if frameBufferCount == 2 then
        Presented(Some(FrameDurationUs(mode.pixelsPerLine, mode.linesPerField, mode.pixelClock)))
      else Presented(None)
    }

    /** Number of descriptors a scroll repoints. */
    function ScrollLines(): (n: nat)
      reads this
      requires my >= 1
      ensures n * my <= yres * mode.vDiv < (n + 1) * my
    {
      ScrollLineCount(yres, mode.vDiv, my)
    }

    /** Bytes of a line a scroll shows: the visible line with two or more descriptors per line, else the whole line. */
    function LineBytes(): nat
      reads this
    {
      (if descriptorsPerLine > 1 then mode.hRes else mode.pixelsPerLine) * unitBytes
    }

    /** Byte length a repointed descriptor gets: `LineBytes()` divided by the samples per unit, rounded down. */
    function ScrollLength(): (len: nat)
      reads this
      requires samplesPerUnit >= 1
      ensures len * samplesPerUnit <= LineBytes() < (len + 1) * samplesPerUnit
    {
      FloorOf(LineBytes(), samplesPerUnit);
      LineBytes() / samplesPerUnit
    }

    /** What a scroll needs before the plan can be formed. */
    predicate PlanDefined()
      reads this
    {
      && my >= 1 && samplesPerUnit >= 1 && frameBufferCount >= 1
      && RetiredBuffer(currentFrameBuffer, frameBufferCount) < |indexRendererDataBuffer|
    }

    /** The scroll the current state asks for. */
    function Plan(): (p: ScrollPlan)
      reads this
      requires PlanDefined()
      ensures p.base == indexRendererDataBuffer[RetiredBuffer(currentFrameBuffer, frameBufferCount)]
      ensures p.dpl == descriptorsPerLine && p.count == ScrollLines() && p.length == ScrollLength()
      ensures p.lines == backBuffer && p.vDiv == mode.vDiv && p.dataOffset == dataOffsetInLineInBytes
    {
      ScrollPlan(indexRendererDataBuffer[RetiredBuffer(currentFrameBuffer, frameBufferCount)],
                 descriptorsPerLine, ScrollLines(), backBuffer, mode.vDiv, dataOffsetInLineInBytes,
                 ScrollLength())
    }

    /**
     * Repoints the last descriptor of each of the first `ScrollLines()` lines of
     * the retired buffer at back-buffer line `i/vDiv` (less the data offset),
     * with `ScrollLength()` bytes. Without descriptors nothing happens.
     * `RepointedTargets`, `RepointedOthers` and `RepointedKeepsLinks` state
     * what this does to each descriptor.
     */
    method Scroll()
      requires i2s.dmaBufferDescriptors != null ==>
                 PlanDefined() && PlanFits(Plan(), i2s.dmaBufferDescriptors.Length)
      modifies i2s.dmaBufferDescriptors
      ensures i2s.dmaBufferDescriptors != null ==>
                i2s.dmaBufferDescriptors[..] == Repointed(old(i2s.dmaBufferDescriptors[..]), Plan(), Plan().count)
    {
      var descs := i2s.dmaBufferDescriptors;
      if descs == null {
        return;
      }
      ghost var plan := Plan();
      ghost var before := descs[..];
      var n := yres * mode.vDiv / my;
      var base := indexRendererDataBuffer[(currentFrameBuffer + frameBufferCount - 1) % frameBufferCount];
      var dpl := descriptorsPerLine;
      var len := (if dpl > 1 then mode.hRes else mode.pixelsPerLine) * unitBytes / samplesPerUnit;
      var lines, vDiv, dataOffset := backBuffer, mode.vDiv, dataOffsetInLineInBytes;
      assert n == plan.count && base == plan.base && dpl == plan.dpl && len == plan.length;
      assert lines == plan.lines && vDiv == plan.vDiv && dataOffset == plan.dataOffset;
      for i := 0 to n
        invariant descs[..] == Repointed(before, plan, i)
      {
        var t := base + i * dpl + dpl - 1;
        TargetInBlock(base, i, n, dpl);
        QuotientBelow(i, vDiv, |lines|);
        var source := Offset(lines[i / vDiv], -dataOffset);
        assert t == Target(plan.base, i, plan.dpl) && source == LineSource(plan, i);
        RepointedStep(before, plan, i);
        descs[t] := SetBuffer(descs[t], source, len);
      }
    }
  }

  /**
   * The parameters of one scroll: the retired buffer's first descriptor, the
   * descriptors per line, how many lines are repointed, the back buffer's
   * lines, the vertical divider, the data offset and the new byte length.
   */
  datatype ScrollPlan = ScrollPlan(
    base: nat,
    dpl: nat,
    count: nat,
    lines: seq<Ptr>,
    vDiv: nat,
    dataOffset: int,
    length: nat)

  /** Every target lies within `size` descriptors and every line it shows exists. */
  predicate PlanFits(p: ScrollPlan, size: nat)
  {
    p.dpl >= 1 && p.vDiv > 0 && p.base + p.count * p.dpl <= size && p.count <= |p.lines| * p.vDiv
  }

  /** Where output line `i` of the scroll now reads from: its frame line less the data offset. */
  function LineSource(p: ScrollPlan, i: nat): (q: Ptr)
    requires p.vDiv > 0 && i < p.count <= |p.lines| * p.vDiv
    ensures i / p.vDiv < |p.lines|
    ensures q.block == p.lines[i / p.vDiv].block
    ensures q.offset == p.lines[i / p.vDiv].offset - p.dataOffset
  {
    QuotientBelow(i, p.vDiv, |p.lines|);
    Offset(p.lines[i / p.vDiv], -p.dataOffset)
  }

  /** The descriptors after the first `k` lines of the scroll are repointed. */
  function Repointed(s: seq<Descriptor>, p: ScrollPlan, k: nat): (t: seq<Descriptor>)
    requires PlanFits(p, |s|) && k <= p.count
    ensures |t| == |s|
    decreases k
  {
    if k == 0 then s
    else
      var prev := Repointed(s, p, k - 1);
      TargetInBlock(p.base, k - 1, p.count, p.dpl);
      var j := Target(p.base, k - 1, p.dpl);
      prev[j := SetBuffer(prev[j], LineSource(p, k - 1), p.length)]
  }

  /** One more line of the scroll repoints that line's last descriptor and nothing else. */
  lemma RepointedStep(s: seq<Descriptor>, p: ScrollPlan, i: nat)
    requires PlanFits(p, |s|) && i < p.count
    ensures Target(p.base, i, p.dpl) < |s|
    ensures var prev := Repointed(s, p, i);
            Repointed(s, p, i + 1)
            == prev[Target(p.base, i, p.dpl) := SetBuffer(prev[Target(p.base, i, p.dpl)], LineSource(p, i), p.length)]
  {
    TargetInBlock(p.base, i, p.count, p.dpl);
  }

  /** Each of the first `k` lines' last descriptor shows that line's frame line with the plan's length. */
  lemma {:induction false} RepointedTargets(s: seq<Descriptor>, p: ScrollPlan, k: nat, i: nat)
    requires PlanFits(p, |s|) && i < k <= p.count
    ensures Target(p.base, i, p.dpl) < |s|
    ensures Repointed(s, p, k)[Target(p.base, i, p.dpl)]
            == SetBuffer(s[Target(p.base, i, p.dpl)], LineSource(p, i), p.length)
    decreases k
  {
    TargetInBlock(p.base, i, p.count, p.dpl);
    if i < k - 1 {
      RepointedTargets(s, p, k - 1, i);
      TargetIncreasing(p.base, i, k - 1, p.dpl);
    } else {
      forall m | 0 <= m < k - 1
        ensures Target(p.base, i, p.dpl) != Target(p.base, m, p.dpl)
      {
        TargetIncreasing(p.base, m, i, p.dpl);
      }
      RepointedOthers(s, p, k - 1, Target(p.base, i, p.dpl));
    }
  }

  /** A descriptor that is no line's target keeps its value. */
  lemma {:induction false} RepointedOthers(s: seq<Descriptor>, p: ScrollPlan, k: nat, j: nat)
    requires PlanFits(p, |s|) && k <= p.count && j < |s|
    requires forall i :: 0 <= i < k ==> j != Target(p.base, i, p.dpl)
    ensures Repointed(s, p, k)[j] == s[j]
    decreases k
  {
    if k > 0 {
      RepointedOthers(s, p, k - 1, j);
    }
  }

  /** A scroll changes buffers and lengths only, never a `next` link. */
  lemma {:induction false} RepointedKeepsLinks(s: seq<Descriptor>, p: ScrollPlan, k: nat)
    requires PlanFits(p, |s|) && k <= p.count
    ensures forall j :: 0 <= j < |s| ==> Repointed(s, p, k)[j].next == s[j].next
    decreases k
  {
    if k > 0 {
      RepointedKeepsLinks(s, p, k - 1);
    }
  }

  /** With two descriptors per line the sync descriptors `base + 2m` are left alone. */
  lemma RepointedSparesSyncDescriptors(s: seq<Descriptor>, p: ScrollPlan, m: nat)
    requires PlanFits(p, |s|) && p.dpl == 2 && p.base + 2 * m < |s|
    ensures Repointed(s, p, p.count)[p.base + 2 * m] == s[p.base + 2 * m]
  {
    forall i | 0 <= i < p.count
      ensures p.base + 2 * m != Target(p.base, i, p.dpl)
    {
      TargetSparesSyncDescriptors(p.base, i, m);
    }
    RepointedOthers(s, p, p.count, p.base + 2 * m);
  }

  /** A scroll keeps the descriptor ring a ring, so every walk of its length still returns. */
  lemma RepointedKeepsRing(s: seq<Descriptor>, p: ScrollPlan)
    requires PlanFits(p, |s|) && IsRing(s)
    ensures IsRing(Repointed(s, p, p.count))
    ensures forall i :: 0 <= i < |s| ==> Follow(Repointed(s, p, p.count), i, |s|) == i
  {
    var t := Repointed(s, p, p.count);
    RepointedKeepsLinks(s, p, p.count);
    RepointKeepsRing(s, t);
    forall i | 0 <= i < |s|
      ensures Follow(t, i, |s|) == i
    {
      RingReturns(t, i);
    }
  }
}
