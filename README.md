# ESP32Lib DMA scanline engine, modelled in Dafny

This project models the part of ESP32Lib that streams a VGA picture out of the
ESP32's I2S peripheral by DMA, together with its multi-monitor layer.

The I2S driver (`src/I2S/I2S.cpp`) owns a ring of DMA descriptors. It pulses
the peripheral's reset flags, starts transmission or capture, and releases the
ring. It also searches for the audio PLL divider and multiplier that give the
pixel clock. The two multimonitor drivers (`src/VGA/VGA6Multimonitor.h` and
`src/VGA/VGA4ColorMultimonitor.h`) draw one frame as `mx` by `my` monitors.
They place the horizontal and vertical sync signals in the two top bits of
each buffer unit. To scroll, they repoint the last descriptor of each line of
the retired frame buffer at the back buffer.

Modules:

- `Dma` (`dma.dfy`): byte pointers, descriptors, the ring invariant `IsRing`
  and the walk `Follow` along `next` links. A link is the index of the next
  descriptor in its array.
- `I2SDriver` (`i2s.dfy`): the register block as a value of named `bv32`
  fields. The class `I2S` holds the registers, the descriptor array and the
  driver's counters, and the audio PLL setting its clock step records.
- `ClockSynth` (`clock.dfy`): the clamp, the divider search and the split of
  the multiplier into the PLL's byte arguments.
- `Multimonitor` (`multimonitor.dfy`): the code both VGA headers share. This
  covers the sync masks and levels, tiling, the retired-buffer index, the
  frame duration and the scroll targets. The class `Engine` has the drivers'
  fields. It is used with a unit of one byte (6-bit driver) and of two bytes
  (4-colour driver).
- `VGA6` (`vga6.dfy`) and `VGA4Color` (`vga4color.dfy`): the per-driver
  constants, pin maps and `init` overloads, the per-width sync lemmas, and the
  6-bit `clear`.

Both VGA headers hold the same code for `initMulti`, `initoverlappingbuffers`,
the sync functions, `allocateFrameBuffer`, `show` and `scroll`. Each such
member has one row below citing the 6-bit header. The same lines of
`src/VGA/VGA4ColorMultimonitor.h` are `initMulti` 67-88,
`initoverlappingbuffers` 103-108, masks 93-101, `initSyncBits`/`syncBits`
110-121, `allocateFrameBuffer` 128-141, `show` 143-160 and `scroll` 162-175.

The PinConfig-only `init` of the 4-colour driver uses a 3 by 2 grid, while
the overload it calls defaults to 2 by 2. The model keeps the 3 by 2
(`VGA4Color.InitWithPinConfigOnly`).

To verify, give Dafny all six files together:

    dafny verify --resource-limit 2000000 --warn-contradictory-assumptions dma.dfy i2s.dfy clock.dfy multimonitor.dfy vga6.dfy vga4color.dfy

## Model

| member | source | states |
|---|---|---|
| `Dma.Offset` | src/VGA/VGA6Multimonitor.h:216 | Pointer arithmetic keeps the block and moves the offset by exactly `delta`. |
| `Dma.SampleCount` | src/I2S/I2S.cpp:84 | A descriptor's sample count is its byte length in whole 32-bit samples: `n*4 <= length < (n+1)*4`. |
| `Dma.SetBuffer` | src/I2S/I2S.cpp:317 | `setBuffer` sets the buffer and length and keeps the `next` link. |
| `Dma.Follow` | src/I2S/I2S.cpp:319-321 | Following `next` k times from a descriptor of a ring stays inside the ring. |
| `Dma.ChainClosedIsRing` | src/I2S/I2S.cpp:315-321 | A chain `i -> i+1` closed by `last -> 0` is a ring: every descriptor links to `(i+1) mod n`. |
| `Dma.NextInRing` | src/I2S/I2S.cpp:318-321 | In a ring one step goes from i to i+1, or from the last descriptor to 0. |
| `Dma.FollowAdd` | src/I2S/I2S.cpp:318-321 | A walk of a+b steps is a walk of a steps and then b more. |
| `Dma.FollowForward` | src/I2S/I2S.cpp:318-319 | Before wrapping, k steps from i reach i+k. |
| `Dma.RingReturns` | src/I2S/I2S.cpp:311-322 | Walking exactly `count` links from any descriptor returns to it, and no shorter non-empty walk does. |
| `Dma.RepointKeepsRing` | src/I2S/I2S.cpp:317 | Changing only buffers and lengths keeps the ring property, in both directions. |
| `I2SDriver.FlagPulseClears` | src/I2S/I2S.cpp:38-44 | ORing flags in and then masking them out clears exactly those flags and keeps every other bit. |
| `I2SDriver.I2S.constructor` | src/I2S/I2S.cpp:18-26 | A new driver has no descriptors, a count of 0, active index 0 and no stop request. |
| `I2SDriver.I2S.FirstDescriptorAddress` | src/I2S/I2S.cpp:112-115 | The address of descriptor 0 of the ring, or the null address when no ring exists. |
| `I2SDriver.I2S.Reset` | src/I2S/I2S.cpp:35-47 | The four lc_conf and four conf reset flags end up 0; every other bit and register is unchanged. |
| `I2SDriver.I2S.I2sStop` | src/I2S/I2S.cpp:49-56 | After the reset, rx_start and tx_start are both 0; the rest of conf is the reset's result. |
| `I2SDriver.I2S.StartTX` | src/I2S/I2S.cpp:58-75 | Active index 0. out_link holds descriptor 0 with start set. Pending interrupts are acknowledged. The enable mask is exactly out_eof and out_dscr_err. tx_start is set. The input side is untouched. |
| `I2SDriver.I2S.StartRX` | src/I2S/I2S.cpp:77-92 | rx_eof_num is descriptor 0's sample count. in_link holds descriptor 0 with start set. Only in_done is enabled. rx_start is set. The output side is untouched. |
| `I2SDriver.I2S.InitParallelOutputMode` | src/I2S/I2S.cpp:229-301 | The conf reset flags and the lc_conf DMA reset flags are pulsed, so they end up 0. The PLL gets the setting the divider search picks for the sample rate: the first divider where the search stops and its multiplier. From 303031 Hz upward every argument fits its field. tx_right_first ends up 1 and tx_msb_right, tx_msb_shift, tx_mono and tx_short_sync end up 0. Every other conf bit and every other modelled register is kept. |
| `I2SDriver.I2S.ResetForOutput` | src/I2S/I2S.cpp:229-236 | tx_reset, rx_reset and the two FIFO reset flags end up 0 in conf, in_rst and out_rst end up 0 in lc_conf, and nothing else changes. |
| `I2SDriver.I2S.PulseTxRxReset` | src/I2S/I2S.cpp:230-233 | tx_reset and rx_reset end up 0; every other bit and register is kept. |
| `I2SDriver.I2S.ResetFIFO` | src/I2S/I2S.cpp:103-110 | rx_fifo_reset and tx_fifo_reset end up 0; every other bit and register is kept. |
| `I2SDriver.I2S.ResetDMA` | src/I2S/I2S.cpp:94-101 | in_rst and out_rst end up 0 in lc_conf; every other bit and register is kept. |
| `I2SDriver.I2S.SetParallelTxFlags` | src/I2S/I2S.cpp:292-301 | tx_right_first is set and the four serial-mode flags cleared; every other bit and register is kept. |
| `I2SDriver.ResetsCompose` | src/I2S/I2S.cpp:229-236 | Clearing tx_reset and rx_reset and then the FIFO flags clears exactly the four conf reset flags. |
| `I2SDriver.OutputModeConf` | src/I2S/I2S.cpp:229-301 | The conf value the output mode leaves has tx_right_first set, the reset and serial-mode flags clear, the start bits unchanged, and every other bit as before. |
| `I2SDriver.StartKeepsParallelTx` | src/I2S/I2S.cpp:58-75 | `startTX`'s conf writes keep tx_right_first set and the serial-mode flags clear. |
| `I2SDriver.I2S.AllocateDMABuffers` | src/I2S/I2S.cpp:310-322 | The count is `count`. The array is a ring: i-1 links to i and the last to 0. Each descriptor owns a fresh buffer of `bytes` bytes, distinct from the others. |
| `I2SDriver.I2S.DeleteDMABuffers` | src/I2S/I2S.cpp:324-333 | Without a ring nothing changes. Otherwise the array is gone and the count is 0, so a second call does nothing. |
| `ClockSynth.ScaledFrequency` | src/I2S/I2S.cpp:262 | The request is capped at 36249999, not rejected, then multiplied by 8. |
| `ClockSynth.Sdm` | src/I2S/I2S.cpp:268-269 | The multiplier for divider `odir` is the largest fixed-point `sdm` whose PLL output does not exceed `freq`. |
| `ClockSynth.SearchDivider` | src/I2S/I2S.cpp:263-270 | The do-while stops with `odir` in 0..31 and `sdm` the multiplier of that divider. The continue condition fails there and held for every smaller divider. |
| `ClockSynth.ApllArgs` | src/I2S/I2S.cpp:271 | `sdm & 255` and `(sdm >> 8) & 255` are in 0..255, and with `sdm >> 16` they recompose `sdm`. |
| `ClockSynth.SynthesizeClock` | src/I2S/I2S.cpp:262-271 | Clamp, search and split, as written: the PLL gets the first divider where the search stops, and that divider's multiplier. |
| `ClockSynth.SdmMonotoneInDivider` | src/I2S/I2S.cpp:268 | The multiplier is non-decreasing in `odir`. |
| `ClockSynth.SdmMonotoneInFrequency` | src/I2S/I2S.cpp:268 | The multiplier is non-decreasing in the frequency. |
| `ClockSynth.SearchResultBelowCeiling` | src/I2S/I2S.cpp:262-270 | Whatever the request, the chosen multiplier is below 2^22, so `sdm >> 16` is at most 63. |
| `ClockSynth.NextLimitImpliesNonNegative` | src/I2S/I2S.cpp:269-270 | Stopping on the next divider's limit implies the current multiplier is not negative. |
| `ClockSynth.SearchResultNonNegative` | src/I2S/I2S.cpp:262-271 | From 303031 Hz upward the chosen multiplier is not negative. |
| `ClockSynth.LowRateKeepsSearching` | src/I2S/I2S.cpp:265-270 | Below 303031 Hz the continue condition holds at every divider below 31. |
| `ClockSynth.LowRateGivesNegativeSdm` | src/I2S/I2S.cpp:265-270 | Below 303031 Hz the search ends at divider 31 with a negative multiplier. |
| `ClockSynth.LowRateApllOutOfRange` | src/I2S/I2S.cpp:271 | Below 303031 Hz, the top multiplier byte passed to the PLL is negative. |
| `ClockSynth.LowRateExample` | src/I2S/I2S.cpp:262-271 | A request of 303030 Hz hands the PLL `(255, 255, -1, 31)`. |
| `ClockSynth.ChosenSettingInRange` | src/I2S/I2S.cpp:262-271 | From 303031 Hz upward the setting the search picks has all PLL arguments in their 8/8/6-bit fields. |
| `ClockSynth.SynthesizeClockChecked` | src/I2S/I2S.cpp:262-271 | Fails exactly below 303031 Hz. Otherwise all four PLL arguments are in their 8/8/6/5-bit ranges. |
| `Multimonitor.SyncMasksAreShifts` | src/VGA/VGA6Multimonitor.h:123-131 | The hsync mask is `1 << (8*unitBytes-2)` and the vsync mask `1 << (8*unitBytes-1)`, one bit above. |
| `Multimonitor.SyncMasksAreTopBits` | src/VGA/VGA6Multimonitor.h:123-131 | The two masks are distinct single bits, the top two of the unit, with nothing above them. |
| `Multimonitor.LevelsPartitionMask` | src/VGA/VGA6Multimonitor.h:157-160 | The asserted and idle levels of a signal share no bit and together make up its mask (the XOR law). |
| `Multimonitor.LevelOf` | src/VGA/VGA6Multimonitor.h:155-166 | A signal drives its bit exactly when its request differs from its polarity. |
| `Multimonitor.TiledResolution` | src/VGA/VGA6Multimonitor.h:78-81 | `xres = mx*hRes`, `yres = (my*vRes)/vDiv` with the multiplication first, `wx = hRes`, `wy = vRes/vDiv`. |
| `Multimonitor.TiledHeightCoversMonitors` | src/VGA/VGA6Multimonitor.h:79-81 | The tiled height holds `my` monitors of `wy` lines, and less than one more line per monitor row. |
| `Multimonitor.RetiredBuffer` | src/VGA/VGA6Multimonitor.h:213 | `(cur+n-1)%n` is a buffer index: the buffer before the current one, or the last one when the current is 0. |
| `Multimonitor.RetiredBufferPrecedesCurrent` | src/VGA/VGA6Multimonitor.h:213 | The current buffer follows the retired one in round-robin order, and with two or more buffers they differ. |
| `Multimonitor.Target` | src/VGA/VGA6Multimonitor.h:212-214 | Line i's target lies in line i's group of `dpl` descriptors. |
| `Multimonitor.TargetIncreasing` | src/VGA/VGA6Multimonitor.h:211-214 | Distinct lines have distinct targets, in increasing order. |
| `Multimonitor.TargetInBlock` | src/VGA/VGA6Multimonitor.h:211-214 | The targets of `n` lines lie within the `n*dpl` descriptors from the buffer's start. |
| `Multimonitor.TargetSparesSyncDescriptors` | src/VGA/VGA6Multimonitor.h:212-214 | With two descriptors per line no target is a line's first (sync) descriptor. |
| `Multimonitor.ScrollLineCount` | src/VGA/VGA6Multimonitor.h:211 | A scroll rewrites `yres*vDiv/my` lines, rounded down. |
| `Multimonitor.ScrollLinesAtMostMonitorHeight` | src/VGA/VGA6Multimonitor.h:211 | For a tiled frame that count is at most one monitor's `vRes`. |
| `Multimonitor.ScrollRowInFrame` | src/VGA/VGA6Multimonitor.h:216 | Each rewritten line shows a frame line `i/vDiv` below `yres`. |
| `Multimonitor.FrameDurationUs` | src/VGA/VGA6Multimonitor.h:202 | The wait `ppl*lpf*1000000/pixelClock`, computed in 64 bits and stored in 32 bits, fits 32 bits. |
| `Multimonitor.FrameDurationRoundsDown` | src/VGA/VGA6Multimonitor.h:202 | Without overflow the wait is one frame rounded down to whole microseconds. |
| `Multimonitor.FrameDurationVga640x480` | src/VGA/VGA6Multimonitor.h:202 | The 640x480 mode at 25.175 MHz waits 16683 microseconds. |
| `Multimonitor.Engine.constructor` | src/VGA/VGA6Multimonitor.h:20-24 | A new driver records its unit width, has a fresh I2S channel with no descriptors and a front colour, and assigns frame buffers from 0. |
| `Multimonitor.Engine.InitSyncBits` | src/VGA/VGA6Multimonitor.h:155-161 | The four sync fields become the idle and asserted levels of the mode's polarities. |
| `Multimonitor.Signed32` | src/VGA/VGA6Multimonitor.h:163-166 | A value stored in a 32-bit `long` keeps its low 32 bits, read in two's complement: the result is in -2^31..2^31-1 and agrees with the value modulo 2^32. |
| `Multimonitor.ReplicatedWord` | src/VGA/VGA6Multimonitor.h:163-166 | The replicated unit as the signed 32-bit word `syncBits` returns. |
| `Multimonitor.Engine.SyncBits` | src/VGA/VGA6Multimonitor.h:163-166 | With the levels set, the result is the mode's sync unit for the request, times the replicator, as a signed 32-bit `long`. |
| `Multimonitor.Engine.FieldsGiveSyncUnit` | src/VGA/VGA6Multimonitor.h:163-166 | The OR of the chosen fields is the sync unit of the mode's polarities. |
| `Multimonitor.Engine.ApplyMode` | src/VGA/VGA6Multimonitor.h:77-85 | Records the mode, the monitor size and the field length, and sets the sync levels. |
| `Multimonitor.Engine.PropagateResolution` | src/VGA/VGA6Multimonitor.h:168-171 | Records the tiled frame size. |
| `Multimonitor.Engine.InitMulti` | src/VGA/VGA6Multimonitor.h:75-96 | Records the mode, monitor size, field length and sync levels. Fails exactly when descriptors per line is outside 1..2, and then changes nothing else: layout, size, line state, pins, registers, active index and PLL setting. Otherwise it records the layout and reaches `Streaming`: tiled size and pins recorded, line state reset, the PLL set by the clock search on the mode's pixel clock, conf in parallel TX form (tx_right_first set, serial-mode flags clear), and TX started on descriptor 0. |
| `Multimonitor.Engine.StartStreaming` | src/VGA/VGA6Multimonitor.h:87-94 | Records layout, tiled size and pins, zeroes the line state, runs the output-mode setup on the pixel clock (PLL by the clock search, tx_right_first set, serial-mode flags clear), then sets tx_start with out_link on descriptor 0 (`Streaming`). |
| `Multimonitor.Engine.InitOverlappingBuffers` | src/VGA/VGA6Multimonitor.h:141-146 | Always succeeds and reaches `OverlappingLayout`: `lineBufferCount = vRes/vDiv`, `rendererBufferCount = frameBufferCount`, two descriptors per line, the mode, tiling and sync levels recorded, and `Streaming`. Only the fields it names may change, so the frame-buffer count and everything else is kept. |
| `Multimonitor.Engine.AllocateFrameBuffer` | src/VGA/VGA6Multimonitor.h:175-186 | A fresh table of `yres` entries, entry y being line `swy(y)` of the buffer being assigned, and the counter advances by exactly one. |
| `Multimonitor.Engine.ShowPlan` | src/VGA/VGA6Multimonitor.h:188-205 | Nothing happens with no frame buffers. It presents otherwise, and waits exactly when there are two buffers, for the frame duration. |
| `Multimonitor.Engine.ScrollLines` | src/VGA/VGA6Multimonitor.h:211 | The number of lines a scroll rewrites, `yres*vDiv/my`. |
| `Multimonitor.Engine.ScrollLength` | src/VGA/VGA6Multimonitor.h:217-218 | The new length is `LineBytes()`, the visible line with two descriptors per line or else the whole line, in bytes, divided by samples per unit and rounded down: `len*spu <= LineBytes() < (len+1)*spu`. |
| `Multimonitor.Engine.Plan` | src/VGA/VGA6Multimonitor.h:211-218 | The scroll the state asks for: the retired buffer's first descriptor, the layout, the line count, the back buffer, the offset and the length. |
| `Multimonitor.Engine.Scroll` | src/VGA/VGA6Multimonitor.h:207-220 | With no descriptors nothing happens. Otherwise the array becomes `Repointed` of its old value by the whole plan. |
| `Multimonitor.LineSource` | src/VGA/VGA6Multimonitor.h:216 | Line i now reads from frame line `i/vDiv` of the back buffer, less the data offset. |
| `Multimonitor.RepointedStep` | src/VGA/VGA6Multimonitor.h:211-218 | One more loop iteration repoints line i's last descriptor at line i's source with the plan's length and changes no other descriptor. |
| `Multimonitor.Repointed` | src/VGA/VGA6Multimonitor.h:211-218 | Repointing the first k lines keeps the number of descriptors. |
| `Multimonitor.RepointedTargets` | src/VGA/VGA6Multimonitor.h:212-218 | Each rewritten line's last descriptor points at its frame line with the new length, and keeps its link. |
| `Multimonitor.RepointedOthers` | src/VGA/VGA6Multimonitor.h:211-218 | Every descriptor that is no line's target keeps its value. |
| `Multimonitor.RepointedKeepsLinks` | src/VGA/VGA6Multimonitor.h:215 | A scroll changes no `next` link. |
| `Multimonitor.RepointedSparesSyncDescriptors` | src/VGA/VGA4ColorMultimonitor.h:166-173 | With two descriptors per line a scroll leaves every sync descriptor alone. |
| `Multimonitor.RepointedKeepsRing` | src/VGA/VGA6Multimonitor.h:207-220 | After a scroll the descriptors are still a ring, and every walk of its length returns. |
| `VGA6.PinMap` | src/VGA/VGA6Multimonitor.h:34-39 | Eight entries: the six colour pins in order, then hsync in slot 6 and vsync in slot 7. |
| `VGA6.SyncPinsOnSyncBits` | src/VGA/VGA6Multimonitor.h:34-39 | The pin map puts the hsync and vsync pins on bits 6 and 7, the very bits the shared masks `1 << (8*1-2)` and `1 << (8*1-1)` set, so the sync levels come out on the sync pins. |
| `VGA6.New` | src/VGA/VGA6Multimonitor.h:20-24 | A one-byte-unit driver on I2S1 with front colour 1 and no descriptors. |
| `VGA6.Init` | src/VGA/VGA6Multimonitor.h:26-44 | Records the monitor grid (default 3 by 2) and reaches `OverlappingLayout` with the 8-entry pin map: mode, tiling, sync levels, two descriptors per line, line state reset, PLL set and TX started. The frame size is `mx*hRes` by `my*vRes/vDiv`. Only the fields `initoverlappingbuffers` sets may change. |
| `VGA6.InitBitMapped` | src/VGA/VGA6Multimonitor.h:46-56 | The same `OverlappingLayout`, with the pin list and bit map passed through, under the same narrow frame. |
| `VGA6.InitWithPinConfig` | src/VGA/VGA6Multimonitor.h:63-73 | The same `OverlappingLayout`, with the configuration's 6-bit map and clock pin and a 3 by 2 default grid, under the same narrow frame. |
| `VGA6.InitWithPinConfigOnly` | src/VGA/VGA6Multimonitor.h:58-61 | Delegates with a 3 by 2 grid and reaches the same `OverlappingLayout` under the same narrow frame. |
| `VGA6.SyncUnitDrivesPins` | src/VGA/VGA6Multimonitor.h:155-166 | In a byte unit bit 6 is set exactly when hsync differs from its polarity, bit 7 likewise for vsync, and no colour bit is set. |
| `VGA6.SyncUnitValue` | src/VGA/VGA6Multimonitor.h:155-166 | The unit's value is 0x40 for an active hsync pin plus 0x80 for an active vsync pin. |
| `VGA6.ReplicatedIntoEachByte` | src/VGA/VGA6Multimonitor.h:165 | Times 0x01010101, a byte lands in each of the four bytes of a 32-bit word. |
| `VGA6.SyncWordDrivesPins` | src/VGA/VGA6Multimonitor.h:163-166 | With the byte replicator, each byte of the 32-bit pattern of `syncBits` carries 0x40 exactly for an active hsync pin and 0x80 exactly for an active vsync pin. As a signed `long` the word is negative exactly when vsync is active. |
| `VGA6.InWindowGrows` | src/VGA/VGA6Multimonitor.h:135-136 | The window of y+1 lines is the window of y lines plus line y. |
| `VGA6.Clear` | src/VGA/VGA6Multimonitor.h:133-139 | Every unit of the `wx` by `wy` window keeps only its two sync bits (AND `0b11000000`). Every other byte of those blocks is unchanged. |
| `VGA4Color.PinMap` | src/VGA/VGA4ColorMultimonitor.h:35-43 | Sixteen entries: the twelve colour pins in order, -1 in slots 12 and 13, hsync in 14 and vsync in 15. |
| `VGA4Color.SyncPinsOnSyncBits` | src/VGA/VGA4ColorMultimonitor.h:93-101 | The pin map puts the hsync and vsync pins on bits 14 and 15, the very bits the masks `1 << (8*2-2)` and `1 << (8*2-1)` set, so the sync levels come out on the sync pins. |
| `VGA4Color.New` | src/VGA/VGA4ColorMultimonitor.h:20-24 | A two-byte-unit driver on the given I2S unit (default 1) with front colour 0xf and no descriptors. |
| `VGA4Color.Init` | src/VGA/VGA4ColorMultimonitor.h:26-48 | Records the grid (default 2 by 2) and reaches `OverlappingLayout` with the 16-entry pin map (R4 and G4 play no part): mode, tiling, sync levels, two descriptors per line, line state reset, PLL set and TX started. The frame size is `mx*hRes` by `my*vRes/vDiv`. Only the fields `initoverlappingbuffers` sets may change. |
| `VGA4Color.InitWithPinConfig` | src/VGA/VGA4ColorMultimonitor.h:55-65 | The same `OverlappingLayout`, with the configuration's 14-bit map and clock pin and a 2 by 2 default grid, under the same narrow frame. |
| `VGA4Color.InitWithPinConfigOnly` | src/VGA/VGA4ColorMultimonitor.h:50-53 | Delegates with a 3 by 2 grid, not the 2 by 2 default, and reaches the same `OverlappingLayout` under the same narrow frame. |
| `VGA4Color.SyncUnitDrivesPins` | src/VGA/VGA4ColorMultimonitor.h:110-121 | In a 16-bit unit bit 14 is set exactly when hsync differs from its polarity, bit 15 likewise, and no colour bit is set. |
| `VGA4Color.SyncUnitValue` | src/VGA/VGA4ColorMultimonitor.h:110-121 | The unit's value is 0x4000 for an active hsync pin plus 0x8000 for an active vsync pin. |
| `VGA4Color.ReplicatedIntoEachHalf` | src/VGA/VGA4ColorMultimonitor.h:120 | Times 0x00010001, a 16-bit unit lands in both halves of a 32-bit word. |
| `VGA4Color.SyncWordDrivesPins` | src/VGA/VGA4ColorMultimonitor.h:118-121 | With the half-word replicator, each half of the 32-bit pattern of `syncBits` carries 0x4000 exactly for an active hsync pin and 0x8000 exactly for an active vsync pin. As a signed `long` the word is negative exactly when vsync is active. |

## Left out

- GPIO routing, module enable and interrupt allocation, enabling and disabling are hardware calls with nothing to state. The 24-entry routing loop is not modelled either.
- The spin-wait on `rx_fifo_reset_back` in `reset` waits on hardware, and `stop()` is a handshake with the interrupt handler. Neither is modelled; `stop()`'s flag is only a field.
- `initParallelInputMode` is not modelled. `initParallelOutputMode` is modelled by `I2SDriver.I2S.InitParallelOutputMode` for its conf and lc_conf writes and the clock setting. Its pin routing is not modelled, and neither are the whole-register writes to `conf2`, `sample_rate_conf`, `clkm_conf`, `fifo_conf`, `conf1`, `conf_chan` and `timing`; `Registers` has no fields for them.
- The drivers' `initParallelOutputMode` calls (src/VGA/VGA6Multimonitor.h:93 and :116, src/VGA/VGA4ColorMultimonitor.h:85) pass a bit count and a clock pin, and the bit-mapped one passes six arguments. They resolve to overloads in `VGAI2SEngine.h`, which is not part of this model. `Multimonitor.Engine.StartStreaming` takes them to perform the register and clock part of I2S.cpp:229-301 on the mode's pixel clock, and records the pin arguments as `pins`.
- I2SDriver.I2S.InitParallelOutputMode: keeps the clock search as written, so below 303031 Hz it records the out-of-range arguments described under Findings; the in-range guarantee it states holds from 303031 Hz upward.
- `rtc_clk_apll_enable` is not modelled; `ApllSetting` is the argument list it receives.
- ClockSynth.Sdm: exact integer floor division replaces the source's `double` quotient. Where the floating-point rounding crosses an integer boundary, the source's multiplier can differ by one unit of its last fraction bit.
- ClockSynth.ScaledFrequency: the sample rate is a `nat`; negative `long` requests are not modelled.
- `DMABufferDescriptor` is not part of this model. Its `sampleCount` is taken to be the byte length over 4, and its buffer allocation gives a fresh zero-filled block.
- Allocation failure (`malloc` returning null, the "Not enough memory" error) is not modelled, and `free` is modelled only as dropping the reference.
- I2SDriver.I2S.AllocateDMABuffers: requires `count >= 1`; with 0 the source writes the descriptor before the array, which is undefined.
- Register bit positions (`TxStart`, `OutEofInt` and the others) are the ESP32 I2S register layout. `VGAI2SEngine.h` is not part of this model, so the fields `interruptHandle`, `vsyncPin` and `hsyncPin` are left out. The source assigns the last two to themselves.
- `Graphics::show`, `Graphics::scroll`, `switchToRendererBuffer`, and `allocateRendererBuffers1DescriptorsPerLine`/`2DescriptorsPerLine` are in headers that are not part of this model. `initMulti` records the chosen layout as `descriptorsPerLine` and the pins as `pins`.
- `getBufferDescriptor` and `graphics_swy` are parameters of `AllocateFrameBuffer`. `setResolution` is recorded as `xres`/`yres`.
- `samplesPerBufferUnit` and `rendererStaticReplicate32` are constructor parameters. The per-driver sync-word lemmas assume the byte replicator 0x01010101 and the half-word replicator 0x00010001.
- `PinConfig::fill6Bit`/`fill14Bit` are not part of this model; a `PinConfig` carries the maps they fill.
- Monitor counts are `nat`; negative counts are not modelled.
- `micros()` and `delay(0)` in `show` are left out. `ShowPlan` states the wait decision and duration; the presentation itself is in `Graphics.h`, which is not part of this model.
- Multimonitor.RetiredBuffer: names the preceding buffer only when the current index is below the count; beyond that it only promises an index below the count.
- Multimonitor.Engine.Scroll: requires every target index and every back-buffer line to be in range, which the source assumes without checking.
- Multimonitor.Repointed: its own contract only keeps the length; the lemmas beside it state what each descriptor becomes.
- The sync masks are defined by a table over unit widths 1 to 4. `SyncMasksAreShifts` proves they equal the source's shifts. The pin-level lemmas are stated per driver, for one- and two-byte units.
- VGA6.Clear: requires each window line to lie inside its block. Lines may share bytes, since masking twice is masking once.

## Findings

| source | as written | input that shows it | evidently intended | confidence | as-written member | corrected member |
|---|---|---|---|---|---|---|
| src/I2S/I2S.cpp:262-271 | Below 303031 Hz the search runs to `odir = 31` with a negative multiplier, so `sdm >> 16` is negative and outside the PLL's 0..63 field. | a sample rate of 303030 gives the PLL arguments (255, 255, -1, 31) | reject such requests, or keep every PLL argument in range | not executed | `ClockSynth.SynthesizeClock` (with `ClockSynth.LowRateApllOutOfRange`, `ClockSynth.LowRateExample`) | `ClockSynth.SynthesizeClockChecked` |
