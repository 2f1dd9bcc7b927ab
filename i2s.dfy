/**
 * The I2S peripheral driver: the register effects of reset, start and stop,
 * and the descriptor ring it allocates and releases.
 *
 * The memory-mapped register block is modelled as a value of type `Registers`
 * held in the driver object; each register the driver writes is a field.
 * Register bit positions are those of the ESP32 I2S register map.
 */
module I2SDriver {
  import opened Dma
  import opened ClockSynth

  // conf register bits
  const TxReset: bv32 := 1 << 0
  const RxReset: bv32 := 1 << 1
  const TxFifoReset: bv32 := 1 << 2
  const RxFifoReset: bv32 := 1 << 3
  const TxStart: bv32 := 1 << 4
  const RxStart: bv32 := 1 << 5
  const TxRightFirst: bv32 := 1 << 8
  const TxMsbShift: bv32 := 1 << 10
  const TxShortSync: bv32 := 1 << 12
  const TxMono: bv32 := 1 << 14
  const TxMsbRight: bv32 := 1 << 16

  // lc_conf register bits
  const InRst: bv32 := 1 << 0
  const OutRst: bv32 := 1 << 1
  const AhbmFifoRst: bv32 := 1 << 2
  const AhbmRst: bv32 := 1 << 3

  // int_raw / int_clr / int_ena bits
  const InDoneInt: bv32 := 1 << 8
  const OutEofInt: bv32 := 1 << 12
  const OutDscrErrInt: bv32 := 1 << 14

  /** The flags `reset` pulses in lc_conf and in conf. */
  const LcConfResetFlags: bv32 := InRst | OutRst | AhbmRst | AhbmFifoRst
  const ConfResetFlags: bv32 := RxReset | RxFifoReset | TxReset | TxFifoReset
  /** The FIFO reset flags `resetFIFO` pulses, and the DMA reset flags `resetDMA` pulses. */
  const FifoResetFlags: bv32 := RxFifoReset | TxFifoReset
  const DmaResetFlags: bv32 := InRst | OutRst
  /** The serial-mode flags the parallel output mode clears. */
  const TxSerialFlags: bv32 := TxMsbRight | TxMsbShift | TxMono | TxShortSync

  /** What an in_link/out_link address field points at. */
  datatype DescriptorAddress = NoDescriptor | DescriptorOf(ring: array<Descriptor>, index: nat)

  /** An in_link/out_link register: the first descriptor's address and the start bit. */
  datatype LinkReg = LinkReg(addr: DescriptorAddress, start: bool)

  /** The registers of one I2S channel that the driver writes. */
  datatype Registers = Registers(
    lcConf: bv32,
    conf: bv32,
    intRaw: bv32,
    intClr: bv32,
    intEna: bv32,
    outLink: LinkReg,
    inLink: LinkReg,
    rxEofNum: nat)

  /** Setting flags and then masking them out leaves exactly those flags cleared. */
  lemma FlagPulseClears(v: bv32, flags: bv32)
    ensures (v | flags) & !flags == v & !flags
    ensures (v & !flags) & flags == 0
  {
  }

  /** A register value with `flags` cleared. */
  function Cleared(c: bv32, flags: bv32): bv32
  {
    c & !flags
  }

  /** conf with the four reset flags cleared. */
  function ConfAfterResets(c: bv32): bv32
  {
    Cleared(c, ConfResetFlags)
  }

  /** Clearing tx_reset and rx_reset, then the two FIFO flags, clears the four conf reset flags. */
  lemma ResetsCompose(c: bv32)
    ensures Cleared(Cleared(c, TxReset | RxReset), FifoResetFlags) == ConfAfterResets(c)
  {
  }

  /** conf with tx_right_first set and the serial-mode flags cleared. */
  function ConfWithParallelTx(c: bv32): bv32
  {
    (c | TxRightFirst) & !TxSerialFlags
  }

  /**
   * The conf value `initParallelOutputMode` leaves has tx_right_first set, the
   * reset and serial-mode flags clear, the start bits of before, and every
   * other bit of before.
   */
  lemma OutputModeConf(c: bv32)
    ensures var r := ConfWithParallelTx(ConfAfterResets(c));
            && r & TxRightFirst == TxRightFirst && r & (TxSerialFlags | ConfResetFlags) == 0
            && r & (TxStart | RxStart) == c & (TxStart | RxStart)
            && r & !(TxRightFirst | TxSerialFlags | ConfResetFlags) == c & !(TxRightFirst | TxSerialFlags | ConfResetFlags)
  {
  }

  /** Starting TX keeps tx_right_first set and the serial-mode flags clear. */
  lemma StartKeepsParallelTx(c: bv32)
    requires c & TxRightFirst == TxRightFirst && c & TxSerialFlags == 0
    ensures ((c & !ConfResetFlags) | TxStart) & TxRightFirst == TxRightFirst
    ensures ((c & !ConfResetFlags) | TxStart) & TxSerialFlags == 0
  {
  }

  class I2S {
    const i2sIndex: int
    var regs: Registers
    var dmaBufferDescriptorCount: nat
    var dmaBufferDescriptors: array?<Descriptor>
    var dmaBufferDescriptorActive: int
    var stopSignal: bool
    /** The audio PLL arguments last handed to the clock, which drives the output. */
    var apll: ApllSetting

    /** The descriptor array and its recorded count agree. */
    ghost predicate Valid()
      reads this
    {
      if dmaBufferDescriptors == null then dmaBufferDescriptorCount == 0
      else dmaBufferDescriptors.Length == dmaBufferDescriptorCount
    }

    /** The driver starts with no descriptors; `device` is the register block as found. */
    constructor (i2sIndex: int, device: Registers)
      ensures Valid()
      ensures this.i2sIndex == i2sIndex && regs == device
      ensures dmaBufferDescriptorCount == 0 && dmaBufferDescriptors == null
      ensures dmaBufferDescriptorActive == 0 && !stopSignal
    {
      this.i2sIndex := i2sIndex;
      regs := device;
      dmaBufferDescriptorCount := 0;
      dmaBufferDescriptorActive := 0;
      dmaBufferDescriptors := null;
      stopSignal := false;
      apll := ApllSetting(0, 0, 0, 0);
    }

    /** Address of descriptor 0 (the null address when no ring exists). */
    function FirstDescriptorAddress(): (a: DescriptorAddress)
      reads this
      ensures dmaBufferDescriptors == null <==> a == NoDescriptor
      ensures a.DescriptorOf? ==> a.ring == dmaBufferDescriptors && a.index == 0
    {
      if dmaBufferDescriptors == null then NoDescriptor else DescriptorOf(dmaBufferDescriptors, 0)
    }

    /**
     * Pulses the DMA/AHB reset flags of lc_conf and the TX/RX reset flags of conf:
     * those bits end up 0 and every other bit keeps its value.
     */
    method Reset()
      modifies this`regs
      ensures regs.lcConf == old(regs.lcConf) & !LcConfResetFlags
      ensures regs.conf == old(regs.conf) & !ConfResetFlags
      ensures regs.(lcConf := old(regs.lcConf), conf := old(regs.conf)) == old(regs)
    {
      regs := regs.(lcConf := regs.lcConf | LcConfResetFlags);
      regs := regs.(lcConf := regs.lcConf & !LcConfResetFlags);
      FlagPulseClears(old(regs.lcConf), LcConfResetFlags);
      regs := regs.(conf := regs.conf | ConfResetFlags);
      regs := regs.(conf := regs.conf & !ConfResetFlags);
      FlagPulseClears(old(regs.conf), ConfResetFlags);
    }

    /** Resets the channel and clears both start bits. */
    method I2sStop()
      modifies this`regs
      ensures regs.conf & (RxStart | TxStart) == 0
      ensures regs.conf == (old(regs.conf) & !ConfResetFlags) & !(RxStart | TxStart)
      ensures regs.lcConf == old(regs.lcConf) & !LcConfResetFlags
      ensures regs.(lcConf := old(regs.lcConf), conf := old(regs.conf)) == old(regs)
    {
      Reset();
      regs := regs.(conf := regs.conf & !RxStart);
      regs := regs.(conf := regs.conf & !TxStart);
    }

    /**
     * Starts streaming: the DMA head is descriptor 0, pending interrupts are
     * acknowledged, exactly the end-of-frame and descriptor-error interrupts are
     * enabled, and tx_start is set.
     */
    method StartTX()
      modifies this`regs, this`dmaBufferDescriptorActive
      ensures dmaBufferDescriptorActive == 0
      ensures regs.outLink == LinkReg(FirstDescriptorAddress(), true)
      ensures regs.intEna == OutEofInt | OutDscrErrInt
      ensures regs.intClr == old(regs.intRaw)
      ensures regs.conf & TxStart == TxStart
      ensures regs.conf == (old(regs.conf) & !ConfResetFlags) | TxStart
      ensures regs.lcConf == (old(regs.lcConf) & !LcConfResetFlags)
      ensures regs.inLink == old(regs.inLink) && regs.rxEofNum == old(regs.rxEofNum)
      ensures regs.intRaw == old(regs.intRaw)
    {
      Reset();
      dmaBufferDescriptorActive := 0;
      regs := regs.(outLink := regs.outLink.(addr := FirstDescriptorAddress()));
      regs := regs.(outLink := regs.outLink.(start := true));
      regs := regs.(intClr := regs.intRaw);
      regs := regs.(intEna := 0);
      regs := regs.(intEna := regs.intEna | OutEofInt);
      regs := regs.(intEna := regs.intEna | OutDscrErrInt);
      regs := regs.(conf := regs.conf | TxStart);
    }

    /**
     * Starts capture: the end-of-frame count is descriptor 0's sample count, the
     * DMA head is descriptor 0, only the in_done interrupt is enabled, and
     * rx_start is set.
     */
    method StartRX()
      requires dmaBufferDescriptors != null && dmaBufferDescriptors.Length >= 1
      modifies this`regs, this`dmaBufferDescriptorActive
      ensures dmaBufferDescriptorActive == 0
      ensures regs.rxEofNum == SampleCount(dmaBufferDescriptors[0])
      ensures regs.inLink == LinkReg(DescriptorOf(dmaBufferDescriptors, 0), true)
      ensures regs.intEna == InDoneInt
      ensures regs.intClr == old(regs.intRaw)
      ensures regs.conf & RxStart == RxStart
      ensures regs.conf == (old(regs.conf) & !ConfResetFlags) | RxStart
      ensures regs.lcConf == (old(regs.lcConf) & !LcConfResetFlags)
      ensures regs.outLink == old(regs.outLink) && regs.intRaw == old(regs.intRaw)
    {
      Reset();
      dmaBufferDescriptorActive := 0;
      regs := regs.(rxEofNum := SampleCount(dmaBufferDescriptors[0]));
      regs := regs.(inLink := regs.inLink.(addr := FirstDescriptorAddress()));
      regs := regs.(inLink := regs.inLink.(start := true));
      regs := regs.(intClr := regs.intRaw);
      regs := regs.(intEna := 0);
      regs := regs.(intEna := regs.intEna | InDoneInt);
      regs := regs.(conf := regs.conf | RxStart);
    }

    /** Pulses the two FIFO reset flags of conf; every other bit and register is kept. */
    method ResetFIFO()
      modifies this`regs
      ensures regs.conf == Cleared(old(regs.conf), FifoResetFlags)
      ensures regs.(conf := old(regs.conf)) == old(regs)
    {
      regs := regs.(conf := regs.conf | RxFifoReset);
      regs := regs.(conf := regs.conf & !RxFifoReset);
      regs := regs.(conf := regs.conf | TxFifoReset);
      regs := regs.(conf := regs.conf & !TxFifoReset);
    }

    /** Pulses the in and out DMA reset flags of lc_conf; every other bit and register is kept. */
    method ResetDMA()
      modifies this`regs
      ensures regs.lcConf == Cleared(old(regs.lcConf), DmaResetFlags)
      ensures regs.(lcConf := old(regs.lcConf)) == old(regs)
    {
      regs := regs.(lcConf := regs.lcConf | InRst);
      regs := regs.(lcConf := regs.lcConf & !InRst);
      regs := regs.(lcConf := regs.lcConf | OutRst);
      regs := regs.(lcConf := regs.lcConf & !OutRst);
    }

    /**
     * The register and clock part of `initParallelOutputMode`: the TX/RX, FIFO
     * and DMA resets are pulsed, the audio PLL gets the setting the divider
     * search picks for `sampleRate` (whose arguments fit their fields whenever
     * the rate is at least the minimum), tx_right_first is set and the serial
     * mode flags are cleared. The start bits and the other registers are kept.
     */
    method InitParallelOutputMode(sampleRate: nat)
      modifies this`regs, this`apll
      ensures ChosenSetting(sampleRate, apll)
      ensures sampleRate >= MinSampleRate ==>
                0 <= apll.sdm0 <= 255 && 0 <= apll.sdm1 <= 255 && 0 <= apll.sdm2 <= 63
      ensures regs.conf == ConfWithParallelTx(ConfAfterResets(old(regs.conf)))
      ensures regs.lcConf == Cleared(old(regs.lcConf), DmaResetFlags)
      ensures regs.(conf := old(regs.conf), lcConf := old(regs.lcConf)) == old(regs)
    {
      ResetForOutput();
      apll := SynthesizeClock(sampleRate);
      if sampleRate >= MinSampleRate {
        ChosenSettingInRange(sampleRate, apll);
      }
      SetParallelTxFlags();
    }

    /**
     * The resets at the start of `initParallelOutputMode`: tx_reset and
     * rx_reset pulsed, then `resetFIFO` and `resetDMA`.
     */
    method ResetForOutput()
      modifies this`regs
      ensures regs.conf == ConfAfterResets(old(regs.conf))
      ensures regs.lcConf == Cleared(old(regs.lcConf), DmaResetFlags)
      ensures regs.(conf := old(regs.conf), lcConf := old(regs.lcConf)) == old(regs)
    {
      PulseTxRxReset();
      ResetFIFO();
      ResetDMA();
      ResetsCompose(old(regs.conf));
    }

    /** Pulses tx_reset and then rx_reset of conf; every other bit and register is kept. */
    method PulseTxRxReset()
      modifies this`regs
      ensures regs.conf == Cleared(old(regs.conf), TxReset | RxReset)
      ensures regs.(conf := old(regs.conf)) == old(regs)
    {
      regs := regs.(conf := regs.conf | TxReset);
      regs := regs.(conf := regs.conf & !TxReset);
      regs := regs.(conf := regs.conf | RxReset);
      regs := regs.(conf := regs.conf & !RxReset);
    }

    /**
     * Sets tx_right_first and clears tx_msb_right, tx_msb_shift, tx_mono and
     * tx_short_sync; every other bit and register is kept.
     */
    method SetParallelTxFlags()
      modifies this`regs
      ensures regs.conf == ConfWithParallelTx(old(regs.conf))
      ensures regs.(conf := old(regs.conf)) == old(regs)
    {
      regs := regs.(conf := regs.conf | TxRightFirst);
      regs := regs.(conf := regs.conf & !TxMsbRight);
      regs := regs.(conf := regs.conf & !TxMsbShift);
      regs := regs.(conf := regs.conf & !TxMono);
      regs := regs.(conf := regs.conf & !TxShortSync);
    }

    /** A descriptor whose buffer is a whole block of `bytes` bytes. */
    ghost predicate OwnsBuffer(d: Descriptor, bytes: nat)
    {
      && d.length == bytes
      && d.buf.offset == 0
      && d.buf.block != null
      && d.buf.block.Length == bytes
    }

    /**
     * Builds a ring of `count` descriptors, each owning its own buffer of
     * `bytes` bytes; descriptor i-1 links to i and the last to 0.
     */
    method AllocateDMABuffers(count: nat, bytes: nat)
      requires count >= 1
      modifies this`dmaBufferDescriptors, this`dmaBufferDescriptorCount
      ensures Valid()
      ensures dmaBufferDescriptorCount == count
      ensures dmaBufferDescriptors != null && fresh(dmaBufferDescriptors)
      ensures IsRing(dmaBufferDescriptors[..])
      ensures forall i :: 0 <= i < count ==> OwnsBuffer(dmaBufferDescriptors[i], bytes)
      ensures forall i :: 0 <= i < count ==> fresh(dmaBufferDescriptors[i].buf.block)
      ensures forall i, j :: 0 <= i < j < count ==>
                dmaBufferDescriptors[i].buf.block != dmaBufferDescriptors[j].buf.block
    {
      dmaBufferDescriptorCount := count;
      var descs := new Descriptor[count](_ => EmptyDescriptor);
      dmaBufferDescriptors := descs;
      for i := 0 to count
        invariant dmaBufferDescriptors == descs && dmaBufferDescriptorCount == count
        invariant forall k :: 0 <= k < i ==> OwnsBuffer(descs[k], bytes) && fresh(descs[k].buf.block)
        invariant forall k :: 0 <= k && k + 1 < i ==> descs[k].next == Next(k + 1)
        invariant forall k, j :: 0 <= k < j < i ==> descs[k].buf.block != descs[j].buf.block
      {
        var block := new bv8[bytes](_ => 0);
        descs[i] := SetBuffer(descs[i], Ptr(block, 0), bytes);
        if i > 0 {
          descs[i - 1] := descs[i - 1].(next := Next(i));
        }
      }
      descs[count - 1] := descs[count - 1].(next := Next(0));
      ChainClosedIsRing(descs[..]);
    }

    /**
     * Releases the ring. With no ring it does nothing; otherwise it leaves
     * no descriptors and a count of 0, so a second call does nothing.
     */
    method DeleteDMABuffers()
      requires Valid()
      modifies this`dmaBufferDescriptors, this`dmaBufferDescriptorCount
      ensures Valid()
      ensures dmaBufferDescriptors == null && dmaBufferDescriptorCount == 0
      ensures old(dmaBufferDescriptors) == null ==>
                dmaBufferDescriptorCount == old(dmaBufferDescriptorCount)
    {
      if dmaBufferDescriptors == null {
        return;
      }
      dmaBufferDescriptors := null;
      dmaBufferDescriptorCount := 0;
    }
  }
}
