# jimbot core in Dafny

A model of the core of jimbot, a Game Boy (DMG) emulator written in Rust, with proofs
about it. The model follows jimbot's own structure, one Dafny module per Rust file:

- **CPU** (`registers.dfy`, `instruction.dfy`, `fetcher.dfy`, `decoder.dfy`,
  `executor.dfy`, `alu.dfy`, `cpu.dfy`). This covers the register file and its 16-bit
  pairs, and the byte-at-a-time fetcher that resolves an opcode and its operands. The
  decoder's opcode tables for the plain and `0xCB` pages are here too. So are the
  executor's operations, each stated against a pure function of the old registers
  (ADD, ADC, SUB, SBC, DAA, rotates, shifts, BIT/SET/RES, loads, jumps, calls, RST).
  Last comes the CPU cycle, with HALT, IME latching and interrupt service by priority.
- **Bus** (`mmu.dfy` and the register decoders `interrupt_flag.dfy`, `lcdc.dfy`,
  `lcdstat.dfy`, `bgp.dfy`, `tac.dfy`, `sprite.dfy`, `joypad.dfy`). It gives the read
  and write memory maps and every register's write rule. It also covers OAM DMA, the
  boot ROM overlay, the joypad matrix and interrupt requests.
- **Timer** (`timer.dfy`): DIV, TIMA, TMA and TAC, with the falling-edge increment and
  the overflow reload.
- **PPU** (`ppu.dfy`, `oam_search.dfy`, `lcd_transfer.dfy`, `pixel_fetcher.dfy`,
  `sprite_pixel_fetcher.dfy`, `pixel_fifo.dfy`, `sprite_pixel_fifo.dfy`,
  `pixel_type.dfy`, `video_memory.dfy`). It covers the dot-by-dot line timing (LY,
  STAT, VBlank and STAT interrupts), the OAM search and the pixel FIFO pipeline. The
  background, window and sprite fetchers and sprite mixing are included, as are the
  two LCD buffers.
- **Cartridge** (`cartridge.dfy` and one file per controller: ROM only, MBC1, MBC1+RAM,
  MBC1+RAM+battery, MBC2+battery, MBC3+RAM+battery, MBC5, MBC5+RAM+battery). It holds
  the controllers' bank switching and RAM enabling, plus header parsing
  (`metadata.dfy`, `rom_size.dfy`, `ram_size.dfy`).
- **APU integer sub-units** (`apu.dfy`, `channel1.dfy`-`channel4.dfy`, `length.dfy`,
  `envelope.dfy`, `frequency.dfy`, `frequency_sweep.dfy`, `noise_frequency.dfy`,
  `wave_length.dfy`): register reads and writes, triggers, length counters, envelopes,
  frequency timers, the sweep and the noise LFSR.
- **Driver** (`jimbot.dfy`): `Jimbot::run`. Each call makes one CPU step, then four
  rounds of timer, APU and PPU. The CPU step's effect is stated on `run` itself; the
  rounds' effects are stated one round at a time (see "Left out").

Conventions:

- Bytes and words are `bv8` and `bv16`.
- Counters that jimbot handles arithmetically are `int` or `nat`, bounded by each
  class's `Valid()`.
- jimbot's `+` and `-` on integers are unchecked, so a debug build panics where they
  overflow. Where a caller could trigger that, the model checks the condition.
  - Inside a unit, the condition becomes a precondition.
  - The CPU cycle, the PPU dot and `run` instead return `panicked` and stop where
    the process would panic. The one exception is a vertically flipped sprite's row
    offset, which the model wraps (see Findings and "Left out").
- Objects whose fields jimbot updates in place are classes with `modifies` and `reads`
  frames: the CPU, the bus, the timer, the PPU units, the cartridge controllers and the
  APU channels. Decoding and arithmetic are functions.

## Model

| member | source | states |
|---|---|---|
| Timer.FallingEdgeWhenLowBitsAllOnes | jimbot/src/timer.rs:33-36 | the selected divider bit (3, 5, 7, 9, or 13 for the APU) falls on an increment exactly when all bits up to it were ones, so TIMA ticks once every 2^(k+1) cycles |
| Timer.Timer.constructor | jimbot/src/timer.rs:13-21 | DIV, TIMA, TMA, TAC and the frame-sequencer step all start at zero |
| Timer.Timer.Cycle | jimbot/src/timer.rs:26-52 | DIV counts up modulo 2^16; TIMA ticks on a falling selected bit while enabled, reloads from TMA from 0xFF and the result is true exactly on that overflow; when DIV bit 13 falls the APU is clocked with the frame-sequencer step before the call (`Apu.APU.Clocked`) and the step advances modulo 8, and otherwise the APU is untouched |
| Timer.Timer.TickTima | jimbot/src/timer.rs:30-43 | TIMA unchanged without a tick; on a tick from 0xFF it takes TMA and reports an overflow, otherwise it counts up by one; DIV, TMA, TAC untouched |
| Timer.Timer.Set | jimbot/src/timer.rs:54-62 | a write to DIV clears it whatever the value; TIMA, TMA and TAC read back the value written; the other registers keep theirs |
| Timer.Timer.Get | jimbot/src/timer.rs:64-72 | DIV reads as the high byte of the 16-bit divider |
| Tac.TAC.IsTimerEnable | jimbot/src/mmu/tac.rs:8-10 | the timer is enabled exactly when TAC bit 2 is set |
| Tac.TAC.ClockSelect | jimbot/src/mmu/tac.rs:12-21 | the two low bits choose divider bit 9, 3, 5 or 7 (for 00, 01, 10, 11) |
| Tac.OnlyLowBitsMatter | jimbot/src/mmu/tac.rs:7-22 | two TAC bytes that agree on bits 0-2 behave the same |
| Bgp.BgpColor | jimbot/src/mmu/bgp.rs:8-16 | colour index i maps to the two palette bits at 2i, a shade 0-3 |
| Bgp.ObpColor | jimbot/src/mmu/bgp.rs:26-34 | sprite colour 0 is always shade 0 (transparent); colours 1-3 map as in the background palette |
| InterruptFlag.Priority | jimbot/src/mmu/interrupt_flag.rs:2-8 | the five sources have priorities 0-4 (VBlank highest) |
| InterruptFlag.RoutineLocation | jimbot/src/mmu/interrupt_flag.rs:11-19 | handler address is 0x40 + 8 * priority; each source has its own of 0x40, 0x48, 0x50, 0x58, 0x60 |
| InterruptFlag.Interrupts.GetRequestByPriority | jimbot/src/mmu/interrupt_flag.rs:29-38 | lists exactly the sources whose bit is set, in strictly increasing priority number (highest priority first) |
| InterruptFlag.Interrupts.EnableRequest | jimbot/src/mmu/interrupt_flag.rs:40-48 | the source's bit becomes set; all other bits, and every other source's state, are unchanged |
| InterruptFlag.Interrupts.DisableRequest | jimbot/src/mmu/interrupt_flag.rs:61-69 | the source's bit becomes clear; all other bits, and every other source's state, are unchanged |
| InterruptFlag.EnableIdempotent | jimbot/src/mmu/interrupt_flag.rs:40-48 | requesting the same interrupt twice is the same as requesting it once |
| InterruptFlag.DisableAfterEnable | jimbot/src/mmu/interrupt_flag.rs:40-69 | clearing a request after setting it is the same as clearing it directly |
| Lcdc.TileMapArea.Address | jimbot/src/mmu/lcdc.rs:8-13 | the map address is the area's base plus the offset |
| Lcdc.TileMapArea.Base | jimbot/src/mmu/lcdc.rs:8-13 | a tile map starts at 0x9800 or 0x9C00 |
| Lcdc.TileDataArea.Address | jimbot/src/mmu/lcdc.rs:24-35 | tile addresses are 16-byte aligned; the 0x8000 area indexes unsigned from 0x8000, the 0x8800 area signed around 0x9000 (0x8800-0x97F0) |
| Lcdc.LCDC.SpriteHeight | jimbot/src/mmu/lcdc.rs:46-48 | sprites are 8 rows tall with LCDC bit 2 clear, 16 with it set |
| Lcdc.LCDC.BgTilemapArea | jimbot/src/mmu/lcdc.rs:50-56 | the background uses the 0x9C00 map exactly when bit 3 is set |
| Lcdc.LCDC.WindowTilemapArea | jimbot/src/mmu/lcdc.rs:58-64 | the window uses the 0x9C00 map exactly when bit 6 is set |
| Lcdc.LCDC.BgWindowTiledataArea | jimbot/src/mmu/lcdc.rs:66-72 | background and window use the 0x8000 tile data exactly when bit 4 is set |
| Lcdc.LCDC.IsSpriteEnable | jimbot/src/mmu/lcdc.rs:74-76 | sprites are on exactly when bit 1 is set |
| Lcdc.LCDC.IsDisplayEnable | jimbot/src/mmu/lcdc.rs:78-80 | the LCD is on exactly when bit 7 is set |
| Lcdc.LCDC.IsWindowEnable | jimbot/src/mmu/lcdc.rs:82-84 | the window is on exactly when bits 5 and 0 are both set, so it implies the background is on |
| Lcdc.LCDC.IsBgWindowEnable | jimbot/src/mmu/lcdc.rs:86-88 | background and window are on exactly when bit 0 is set |
| LcdStat.ModeBits | jimbot/src/mmu/lcdstat.rs:2-7 | each PPU mode has a two-bit code |
| LcdStat.NewStat | jimbot/src/mmu/lcdstat.rs:17-21 | a new STAT holds the mode and nothing else |
| LcdStat.LCDSTAT.Mode | jimbot/src/mmu/lcdstat.rs:23-32 | the mode read back is the one whose code is in bits 0-1 |
| LcdStat.LCDSTAT.LyEqLyc | jimbot/src/mmu/lcdstat.rs:34 | the LY=LYC interrupt select is bit 6 |
| LcdStat.LCDSTAT.OamInterrupt | jimbot/src/mmu/lcdstat.rs:35 | the OAM interrupt select is bit 5 |
| LcdStat.LCDSTAT.VBlankInterrupt | jimbot/src/mmu/lcdstat.rs:36 | the VBlank interrupt select is bit 4 |
| LcdStat.LCDSTAT.HBlankInterrupt | jimbot/src/mmu/lcdstat.rs:37 | the HBlank interrupt select is bit 3 |
| LcdStat.LCDSTAT.SetCoincidence | jimbot/src/mmu/lcdstat.rs:39-41 | the coincidence flag reads back as set, and every other bit is kept |
| LcdStat.LCDSTAT.Coincidence | jimbot/src/mmu/lcdstat.rs:43-45 | the coincidence flag is bit 2 |
| LcdStat.LCDSTAT.SetMode | jimbot/src/mmu/lcdstat.rs:47-55 | the mode reads back as set, and bits 2-7 are kept |
| LcdStat.SetCoincidenceKeepsMode | jimbot/src/mmu/lcdstat.rs:39-41 | setting the coincidence flag changes neither the mode nor the interrupt selects |
| LcdStat.SetModeKeepsFlags | jimbot/src/mmu/lcdstat.rs:47-55 | changing the mode keeps the coincidence flag and all four interrupt selects |
| LcdStat.SetModeKeepsSelects | jimbot/src/mmu/lcdstat.rs:47-55 | changing the mode keeps bits 3-7 |
| Sprite.Flag.IsXFlipped | jimbot/src/mmu/sprite.rs:9 | X flip is attribute bit 5 |
| Sprite.Flag.IsYFlipped | jimbot/src/mmu/sprite.rs:10 | Y flip is attribute bit 6 |
| Sprite.Flag.BgPrior | jimbot/src/mmu/sprite.rs:11 | background priority is attribute bit 7 |
| Sprite.Flag.Palette1 | jimbot/src/mmu/sprite.rs:12 | the OBP1 palette select is attribute bit 4 |
| Sprite.FromBytes | jimbot/src/mmu/sprite.rs:24-31 | the four OAM bytes become y, x, tile index and flags, in that order |
| Sprite.DefaultSprite | jimbot/src/mmu/sprite.rs:56-58 | the default sprite is the one read from four zero bytes |
| Sprite.FromBytesOfFields | jimbot/src/mmu/sprite.rs:24-31 | reading back a sprite's own four bytes gives the same sprite (round trip) |
| Joypad.JoyPad.constructor | jimbot/src/mmu/joypad.rs:31-43 | no group is selected and no key is pressed |
| Joypad.JoyPad.Write | jimbot/src/mmu/joypad.rs:47-55 | bit 5 clear selects the action keys, otherwise the direction keys; the "none" mode is never chosen; key states are kept |
| Joypad.JoyPad.Press | jimbot/src/mmu/joypad.rs:57-68 | the key becomes pressed; every other key and the mode are unchanged |
| Joypad.JoyPad.Release | jimbot/src/mmu/joypad.rs:70-81 | the key becomes released; every other key and the mode are unchanged |
| Joypad.JoyPad.Bytes | jimbot/src/mmu/joypad.rs:83-105 | 0xFF with no group selected; otherwise bits 6-7 are set, the selected group's bit 4/5 is clear, and each low bit is clear exactly when its key in that group is pressed |
| ApuEnvelope.ClockStep | jimbot/src/apu/envelope.rs:29-45 | with period 0 nothing changes; a counter above 1 only counts down; at 1 the counter reloads from the period and at 0 it stays, and the volume takes one step toward 15 (increase) or 0 (decrease), saturating; the volume never moves on any other clock |
| ApuEnvelope.Envelope.constructor | jimbot/src/apu/envelope.rs:12-18 | NRx2 as given, period counter and volume zero |
| ApuEnvelope.Envelope.InitialVolume | jimbot/src/apu/envelope.rs:51-53 | the starting volume is NRx2's high nibble |
| ApuEnvelope.Envelope.Sweep | jimbot/src/apu/envelope.rs:59-61 | the step period is NRx2's low three bits |
| ApuEnvelope.Envelope.Restart | jimbot/src/apu/envelope.rs:20-23 | volume takes the starting volume and the counter the period; NRx2 is kept |
| ApuEnvelope.Envelope.Set | jimbot/src/apu/envelope.rs:25-27 | NRx2 is stored; counter and volume are kept |
| ApuEnvelope.Envelope.Clock | jimbot/src/apu/envelope.rs:29-45 | the new (counter, volume) pair is `ClockStep` of the old one under NRx2's period and direction |
| ApuFrequency.InitialFrequencyOf | jimbot/src/apu/frequency.rs:36-38 | the 11-bit frequency has NRx3 as its low byte and NRx4 bits 0-2 as its high bits |
| ApuFrequency.Frequency.constructor | jimbot/src/apu/frequency.rs:11-18 | all registers and timers zero |
| ApuFrequency.Frequency.Restart | jimbot/src/apu/frequency.rs:22-24 | the timer reloads to (2048 - frequency) * 4, at least 4 |
| ApuFrequency.Frequency.SetNrx3 | jimbot/src/apu/frequency.rs:26-29 | NRx3 is stored and the frequency is recomputed from NRx3 and NRx4; the timer is kept |
| ApuFrequency.Frequency.SetNrx4 | jimbot/src/apu/frequency.rs:31-34 | NRx4 is stored and the frequency is recomputed from NRx3 and NRx4; the timer is kept |
| ApuFrequency.Frequency.CalculateInitialFrequency | jimbot/src/apu/frequency.rs:36-38 | the frequency becomes the value NRx3 and NRx4 encode |
| ApuFrequency.Frequency.Cycle | jimbot/src/apu/frequency.rs:40-49 | with frequency 0 nothing happens; otherwise the timer counts down and ticks exactly when it reaches 0, reloading from the frequency; a running timer stays positive |
| ApuFrequency.Frequency.SetNewFrequency | jimbot/src/apu/frequency.rs:54-56 | only the frequency changes, to the value given |
| ApuFrequencySweep.FrequencySweep.constructor | jimbot/src/apu/frequency_sweep.rs:9-16 | NR10, shadow frequency and timer zero, sweep disabled |
| ApuFrequencySweep.FrequencySweep.Set | jimbot/src/apu/frequency_sweep.rs:21-23 | NR10 is stored and nothing else changes |
| ApuFrequencySweep.FrequencySweep.SweepTime | jimbot/src/apu/frequency_sweep.rs:78-80 | the sweep period is NR10 bits 4-6 |
| ApuFrequencySweep.FrequencySweep.Shift | jimbot/src/apu/frequency_sweep.rs:86-88 | the shift is NR10 bits 0-2 |
| ApuFrequencySweep.FrequencySweep.ReloadTime | jimbot/src/apu/frequency_sweep.rs:27-31 | the timer reloads from the period, or 8 when the period is 0 |
| ApuFrequencySweep.FrequencySweep.NextFrequency | jimbot/src/apu/frequency_sweep.rs:64-70 | a decreasing sweep never raises the shadow frequency; an increasing one never lowers it and stays below 4096 |
| ApuFrequencySweep.FrequencySweep.CalculateNewFrequency | jimbot/src/apu/frequency_sweep.rs:64-76 | returns the next frequency and disables the sweep exactly when it exceeds 2047 |
| ApuFrequencySweep.FrequencySweep.Restart | jimbot/src/apu/frequency_sweep.rs:25-36 | the shadow takes the channel's frequency and the timer its reload value; with shift 0 the sweep is enabled exactly when the period is non-zero, otherwise exactly when the first computed frequency fits in 11 bits |
| ApuFrequencySweep.FrequencySweep.Clock | jimbot/src/apu/frequency_sweep.rs:38-62 | a running timer only counts down; at 0 it reloads, and the result is a new frequency exactly when the sweep is enabled with non-zero period and shift and the computed frequency is below 2048, and then it is the shadow; the sweep stays enabled exactly when neither the first computation (with a non-zero period) nor the second one from the new shadow exceeds 2047 |
| ApuLength.Length.constructor | jimbot/src/apu/length.rs:14-20 | NR31 as given, counter stopped at 0 |
| ApuLength.Length.Restart | jimbot/src/apu/length.rs:22-24 | the counter reloads to 255 - NR31 |
| ApuLength.Length.ClockLength | jimbot/src/apu/length.rs:26-34 | a stopped counter is untouched; a running one counts down, and reaching 0 stops it and reports expiry |
| ApuLength.Length.EnableLength | jimbot/src/apu/length.rs:36-38 | the counter is started; its value is kept |
| ApuLength.Length.Set | jimbot/src/apu/length.rs:40-42 | NR31 is stored and read back as the length |
| ApuLength.Length.Length | jimbot/src/apu/length.rs:44 | the length is the full NR31 byte |
| ApuNoiseFrequency.NoiseFrequency.constructor | jimbot/src/apu/noise_frequency.rs:9-14 | NR43 and timer zero |
| ApuNoiseFrequency.NoiseFrequency.Restart | jimbot/src/apu/noise_frequency.rs:18-20 | the timer reloads to the initial frequency |
| ApuNoiseFrequency.NoiseFrequency.SetNr43 | jimbot/src/apu/noise_frequency.rs:22-24 | NR43 is stored; the timer is kept |
| ApuNoiseFrequency.NoiseFrequency.InitialFrequency | jimbot/src/apu/noise_frequency.rs:26-28 | the divisor shifted by the clock shift, truncated to 16 bits |
| ApuNoiseFrequency.NoiseFrequency.Divisor | jimbot/src/apu/noise_frequency.rs:30-43 | code 0 divides by 8, code k by 16k |
| ApuNoiseFrequency.NoiseFrequency.Shift | jimbot/src/apu/noise_frequency.rs:45-47 | the clock shift is NR43's high nibble |
| ApuNoiseFrequency.NoiseFrequency.IsWidthMode | jimbot/src/apu/noise_frequency.rs:49-51 | 7-bit width mode is NR43 bit 3 |
| ApuNoiseFrequency.NoiseFrequency.Cycle | jimbot/src/apu/noise_frequency.rs:53-62 | with initial frequency 0 nothing happens; otherwise the timer counts down and ticks exactly when it reaches 0, reloading |
| ApuWaveLength.DutyRatios | jimbot/src/apu.rs:49-54 | the four duty patterns are high for 1, 2, 4 and 5 of their 8 steps (12.5%, 25%, 50% and 62.5%) |
| ApuWaveLength.WaveLength.constructor | jimbot/src/apu/wave_length.rs:15-22 | NRx1 as given, duty position 0, counter stopped at 0 |
| ApuWaveLength.WaveLength.Restart | jimbot/src/apu/wave_length.rs:24-27 | the duty position resets and the counter reloads to 64 - length, between 33 and 64 |
| ApuWaveLength.WaveLength.ClockLength | jimbot/src/apu/wave_length.rs:29-37 | a stopped counter is untouched; a running one counts down, and reaching 0 stops it and reports expiry |
| ApuWaveLength.WaveLength.GetAmp | jimbot/src/apu/wave_length.rs:39-41 | the amplitude is 1 exactly when the selected duty pattern is high at the current position |
| ApuWaveLength.WaveLength.EnableLength | jimbot/src/apu/wave_length.rs:43-45 | the counter is started; its value and the duty position are kept |
| ApuWaveLength.WaveLength.Set | jimbot/src/apu/wave_length.rs:47-49 | NRx1 is stored; counter and duty position are kept |
| ApuWaveLength.WaveLength.Next | jimbot/src/apu/wave_length.rs:51-53 | the duty position advances modulo 8; nothing else changes |
| ApuWaveLength.WaveLength.WavePatternDuty | jimbot/src/apu/wave_length.rs:55-57 | the duty is NRx1 bits 6-7 |
| ApuWaveLength.WaveLength.Wave | jimbot/src/apu/wave_length.rs:59-61 | the selected pattern has eight 0/1 steps |
| ApuWaveLength.WaveLength.Length | jimbot/src/apu/wave_length.rs:63-65 | the length is NRx1 bits 0-4 |
| ApuChannel1.Channel1.constructor | jimbot/src/apu/channel1.rs:21-34 | the channel starts disabled with NR10-NR14 zero |
| ApuChannel1.Channel1.Restart | jimbot/src/apu/channel1.rs:38-43 | duty position 0 and length 64 - NR11 length; envelope volume and period reload; frequency timer (2048 - f) * 4; the sweep's shadow takes the current frequency and its timer reloads; registers and enable unchanged |
| ApuChannel1.Channel1.Cycle | jimbot/src/apu/channel1.rs:45-50 | a disabled channel is untouched; an enabled one advances the duty position modulo 8 exactly when the frequency timer ticks |
| ApuChannel1.Channel1.ClockLength | jimbot/src/apu/channel1.rs:55-58 | a length clock that expires the counter disables the channel and zeroes NR14; otherwise enable and NR14 are kept; a running counter counts down by one |
| ApuChannel1.Channel1.ClockSweep | jimbot/src/apu/channel1.rs:60-62 | a sweep clock installs `SweptFrequency`: the sweep's next frequency when the timer has run out, the sweep is enabled with a non-zero period and shift and that frequency is below 2048, and the old frequency otherwise; the sweep timer reloads at 0 and counts down otherwise; the registers and the length counter are kept |
| ApuChannel1.Channel1.Clock | jimbot/src/apu/channel1.rs:52-84 | steps 0, 2, 4, 6 clock the length (expiry disables and zeroes NR14); steps 2 and 6 also clock the sweep, installing its new frequency exactly as `SweptFrequency` says; step 7 applies `ClockStep` to the envelope; other steps change none of these; the enable guard does not stop a disabled channel |
| ApuChannel1.Channel1.Set | jimbot/src/apu/channel1.rs:96-136 | the write has the effect `Stored` describes, and `get` reads the written byte back |
| ApuChannel2.Channel2.constructor | jimbot/src/apu/channel2.rs:19-30 | the channel starts disabled with NR21-NR24 zero |
| ApuChannel2.Channel2.Restart | jimbot/src/apu/channel2.rs:34-38 | duty position 0 and length 64 - NR21 length; envelope reloads; frequency timer (2048 - f) * 4; registers and enable unchanged |
| ApuChannel2.Channel2.Cycle | jimbot/src/apu/channel2.rs:40-45 | a disabled channel is untouched; an enabled one advances the duty position modulo 8 exactly when the frequency timer ticks |
| ApuChannel2.Channel2.Clock | jimbot/src/apu/channel2.rs:47-69 | steps 0, 2, 4, 6 clock the length (expiry disables and zeroes NR24); step 7 applies `ClockStep` to the envelope; other steps change neither; the enable guard does not stop a disabled channel |
| ApuChannel2.Channel2.Set | jimbot/src/apu/channel2.rs:81-116 | the write has the effect `Stored` describes, and `get` reads the written byte back |
| ApuChannel3.SamplesOfByte | jimbot/src/apu/channel3.rs:127-131 | wave RAM byte i supplies sample 2i (its high nibble) and sample 2i + 1 (its low nibble) |
| ApuChannel3.Channel3.constructor | jimbot/src/apu/channel3.rs:23-37 | disabled, registers zero, sample index 0, wave RAM all zero |
| ApuChannel3.Channel3.Restart | jimbot/src/apu/channel3.rs:41-45 | sample index 0, length reloads to 255 - NR31, frequency timer (2048 - f) * 4; registers, enable and wave RAM unchanged |
| ApuChannel3.Channel3.Cycle | jimbot/src/apu/channel3.rs:47-52 | a disabled channel is untouched; an enabled one advances the sample index modulo 32 exactly when the frequency timer ticks; a running timer stays positive |
| ApuChannel3.Channel3.Clock | jimbot/src/apu/channel3.rs:54-75 | steps 0, 2, 4, 6 clock the length counter, and expiry disables the channel and zeroes NR30; other steps change nothing; the enable guard is a no-op |
| ApuChannel3.Channel3.OutputShift | jimbot/src/apu/channel3.rs:86-94 | volume codes 0, 1, 2, 3 in NR32 bits 5-6 shift samples right by 4, 0, 1, 2 |
| ApuChannel3.Channel3.RebuildPattern | jimbot/src/apu/channel3.rs:127-131 | after the loop every one of the 32 samples is the matching nibble of wave RAM |
| ApuChannel3.Channel3.Set | jimbot/src/apu/channel3.rs:96-147 | the write has the effect `Stored` describes, and `get` reads the written byte back |
| ApuChannel3.Channel3.SetNr34 | jimbot/src/apu/channel3.rs:117-124 | the NR34 write as `Stored` describes it, read back by `get` |
| ApuChannel3.Channel3.SetWaveRam | jimbot/src/apu/channel3.rs:125-132 | the wave RAM write as `Stored` describes it, read back by `get` |
| ApuChannel4.LfsrStaysFifteenBits | jimbot/src/apu/channel4.rs:47-52 | a 15-bit LFSR stays within 15 bits after a shift |
| ApuChannel4.LfsrFeedbackAtBit14 | jimbot/src/apu/channel4.rs:47-48 | the XOR of the two low bits enters at bit 14 |
| ApuChannel4.LfsrShiftsRight | jimbot/src/apu/channel4.rs:48 | without width mode bits 0-13 are the old bits 1-14 |
| ApuChannel4.LfsrWidthShiftsRight | jimbot/src/apu/channel4.rs:48-51 | in width mode every bit 0-13 except bit 6 is the old bit one higher |
| ApuChannel4.LfsrWidthBitSix | jimbot/src/apu/channel4.rs:49-51 | in width mode bit 6 is the old bit 7 OR-ed with the feedback |
| ApuChannel4.WidthMaskIsAllOnes | jimbot/src/apu/channel4.rs:50 | the width-mode mask `!(1 >> 6)` is 0xFFFF, so it clears nothing |
| ApuChannel4.WidthModeKeepsBitSix | jimbot/src/apu/channel4.rs:49-51 | in width mode a set bit 7 always gives a set bit 6 |
| ApuChannel4.Channel4.constructor | jimbot/src/apu/channel4.rs:21-33 | disabled, LFSR and registers zero |
| ApuChannel4.Channel4.Restart | jimbot/src/apu/channel4.rs:37-42 | the LFSR fills with fifteen ones; length reloads to 64 - NR41 length; envelope reloads; noise timer takes the initial frequency |
| ApuChannel4.Channel4.Cycle | jimbot/src/apu/channel4.rs:44-54 | a disabled channel is untouched; an enabled one shifts the LFSR (`LfsrStep`) exactly when the noise timer ticks; a running timer stays positive |
| ApuChannel4.Channel4.StepLfsr | jimbot/src/apu/channel4.rs:47-52 | the LFSR becomes `LfsrStep` of itself in the width mode NR43 selects; registers and enable unchanged |
| ApuChannel4.Channel4.Clock | jimbot/src/apu/channel4.rs:56-78 | a disabled channel returns at once; otherwise steps 0, 2, 4, 6 clock the length (expiry disables and zeroes NR44) and step 7 applies `ClockStep` to the envelope |
| ApuChannel4.Channel4.Set | jimbot/src/apu/channel4.rs:90-124 | the write has the effect `Stored` describes, and `get` reads the written byte back |
| Apu.APU.constructor | jimbot/src/apu.rs:32-44 | NR50-NR52 zero, so sound is off |
| Apu.APU.Cycle | jimbot/src/apu.rs:56-75 | with NR52 bit 7 clear nothing changes; otherwise each channel cycles, no channel's enable changes and the next cycle still cannot panic |
| Apu.APU.Clock | jimbot/src/apu.rs:86-91 | NR50-NR52 are kept and each channel takes the frame-sequencer step with its own clock effect (`Clocked` of channels 1-4); off the length steps no channel's enable changes; the frequency timers are untouched |
| Apu.APU.Set | jimbot/src/apu.rs:93-106 | a channel register or wave RAM write has that channel's `Stored` effect and leaves the other channels and NR50-NR52 unchanged; NR50-NR52 store the byte; `get` reads it back |
| Apu.APU.SetChannel1 | jimbot/src/apu.rs:96 | a channel 1 write has channel 1's `Stored` effect and reads back |
| Apu.APU.SetChannel2 | jimbot/src/apu.rs:97 | a channel 2 write has channel 2's `Stored` effect and reads back |
| Apu.APU.SetChannel3 | jimbot/src/apu.rs:98-99 | a channel 3 or wave RAM write has channel 3's `Stored` effect and reads back |
| Apu.APU.SetChannel4 | jimbot/src/apu.rs:100 | a channel 4 write has channel 4's `Stored` effect and reads back |
| Apu.APU.SetControl | jimbot/src/apu.rs:101-103 | NR50, NR51 or NR52 takes the byte; the other two keep theirs |
| Cartridge.Cartridge.Set | jimbot/src/cartridge.rs:33-34 | a write through the cartridge interface has exactly the selected controller's effect (its `Stored` relation); a ROM-only cartridge changes nothing; a write that lands in enabled cartridge RAM reads back as written (MBC2 keeps the low nibble) |
| CartridgeRomOnly.RomOnly.Get | jimbot/src/cartridge/cartridge_rom_only.rs:9-11 | a read returns the image byte at the address |
| CartridgeRomOnly.RomOnly.Set | jimbot/src/cartridge/cartridge_rom_only.rs:13 | a write leaves the image as it was |
| CartridgeRomOnly.ReadsIgnoreWrites | jimbot/src/cartridge/cartridge_rom_only.rs:9-13 | after any sequence of writes, the image and every read are those of the fresh cartridge |
| CartridgeMbc1.RomNumberBitMask | jimbot/src/cartridge/cartridge_mbc1.rs:58-69 | for 2-32 banks the mask is bank count - 1; for 64 and 128 banks it is 0x1F |
| CartridgeMbc1.SelectRomBank | jimbot/src/cartridge/cartridge_mbc1.rs:30-33 | the selected bank is the masked value, or 1 when that is 0; it is always in 1-31 and below the bank count when there are at most 32 banks |
| CartridgeMbc1.RomIndex | jimbot/src/cartridge/cartridge_mbc1.rs:16 | a switchable-bank read indexes bank `bank` at offset address - 0x4000 in 16 KiB banks |
| CartridgeMbc1.Mbc1.constructor | jimbot/src/cartridge/cartridge_mbc1.rs:47-55 | ROM bank 1, RAM bank 0, simple mode, the given header and image |
| CartridgeMbc1.Mbc1.Get | jimbot/src/cartridge/cartridge_mbc1.rs:13-23 | bank 0 reads the image directly, 0x4000-0x7FFF reads the selected bank, external RAM reads 0xFF |
| CartridgeMbc1.Mbc1.Set | jimbot/src/cartridge/cartridge_mbc1.rs:25-39 | 0x2000-0x3FFF selects the ROM bank, 0x6000-0x7FFF sets the mode bit from bit 0; every other write changes nothing, and any write outside the bank range leaves every read unchanged |
| CartridgeMbc1Ram.RamIndex | jimbot/src/cartridge/cartridge_mbc1_ram.rs:31-32 | the RAM offset is address - 0xA000 modulo the RAM size, so it is in range and equals the offset when that fits |
| CartridgeMbc1Ram.Mbc1Ram.constructor | jimbot/src/cartridge/cartridge_mbc1_ram.rs:78-89 | ROM bank 1, RAM bank 0, RAM disabled, simple mode, RAM of the header's size filled with zeros |
| CartridgeMbc1Ram.Mbc1Ram.Get | jimbot/src/cartridge/cartridge_mbc1_ram.rs:18-39 | ROM reads as on MBC1; external RAM reads 0xFF while disabled and the byte at the wrapped offset while enabled |
| CartridgeMbc1Ram.Mbc1Ram.Set | jimbot/src/cartridge/cartridge_mbc1_ram.rs:41-70 | RAM enable iff the low nibble is 0xA; ROM bank select; the RAM bank number ORs in the low two bits (it only gains bits); mode bit; an enabled, mapped RAM write is read back |
| CartridgeMbc1RamBattery.Mbc1RamBattery.constructor | jimbot/src/cartridge/cartridge_mbc1_ram_battery.rs:80-118 | ROM bank 1, RAM bank 0, RAM disabled, simple mode, zero-filled RAM of the header's size |
| CartridgeMbc1RamBattery.Mbc1RamBattery.Get | jimbot/src/cartridge/cartridge_mbc1_ram_battery.rs:21-42 | ROM reads as on MBC1; external RAM reads 0xFF while disabled and the stored byte while enabled |
| CartridgeMbc1RamBattery.Mbc1RamBattery.Set | jimbot/src/cartridge/cartridge_mbc1_ram_battery.rs:44-72 | the MBC1 register writes; the RAM bank number only gains bits; an enabled RAM write is read back |
| CartridgeMbc2Battery.RamIndex | jimbot/src/cartridge/cartridge_mbc2_battery.rs:49-52 | the built-in 512-entry RAM is indexed by the address modulo 512 |
| CartridgeMbc2Battery.SelectNibbleBank | jimbot/src/cartridge/cartridge_mbc2_battery.rs:42-47 | the ROM bank is the low nibble of the value, or 1 when that is 0, so it is in 1-15 |
| CartridgeMbc2Battery.Mbc2Battery.constructor | jimbot/src/cartridge/cartridge_mbc2_battery.rs:85-142 | ROM bank 1, RAM disabled, zero-filled 512-entry RAM |
| CartridgeMbc2Battery.Mbc2Battery.Get | jimbot/src/cartridge/cartridge_mbc2_battery.rs:19-38 | ROM reads as banked; RAM reads 0xFF while disabled and the entry at address modulo 512 while enabled |
| CartridgeMbc2Battery.Mbc2Battery.Set | jimbot/src/cartridge/cartridge_mbc2_battery.rs:40-66 | in 0x0000-0x3FFF address bit 8 chooses between RAM enable and ROM bank select; an enabled RAM write stores and reads back the low nibble of the value |
| CartridgeMbc3RamBattery.SelectFullBank | jimbot/src/cartridge/cartridge_mbc3_ram_battery.rs:70-72 | the ROM bank is the whole value, or 1 when it is 0 |
| CartridgeMbc3RamBattery.RamIndex | jimbot/src/cartridge/cartridge_mbc3_ram_battery.rs:95-98 | external RAM is indexed by bank times 8 KiB plus address - 0xA000 |
| CartridgeMbc3RamBattery.Mbc3RamBattery.constructor | jimbot/src/cartridge/cartridge_mbc3_ram_battery.rs:148-208 | ROM bank 1, RAM bank 0, RAM and clock disabled, no RAM/clock selection yet, latch byte 0xFF, zero-filled RAM |
| CartridgeMbc3RamBattery.Mbc3RamBattery.Get | jimbot/src/cartridge/cartridge_mbc3_ram_battery.rs:29-62 | ROM reads as banked; external RAM reads 0xFF while disabled and the byte of the selected bank while enabled |
| CartridgeMbc3RamBattery.Mbc3RamBattery.Set | jimbot/src/cartridge/cartridge_mbc3_ram_battery.rs:64-129 | RAM and clock enable; full-byte ROM bank select; values 0-3 select a RAM bank and 8-0xC the clock; the latch byte is recorded; an enabled RAM write is read back |
| CartridgeMbc5.WithLowByte | jimbot/src/cartridge/cartridge_mbc5.rs:42-46 | a write to 0x2000-0x2FFF replaces the low byte of the ROM bank number and keeps the high byte |
| CartridgeMbc5.WithHighByte | jimbot/src/cartridge/cartridge_mbc5.rs:47-51 | a write to 0x3000-0x3FFF replaces the high byte of the ROM bank number and keeps the low byte |
| CartridgeMbc5.SelectBothBytes | jimbot/src/cartridge/cartridge_mbc5.rs:42-51 | writing both bank bytes, in either order, selects the bank formed from them |
| CartridgeMbc5.Mbc5.constructor | jimbot/src/cartridge/cartridge_mbc5.rs:84-91 | ROM bank 1, RAM bank 0, simple mode, the given image |
| CartridgeMbc5.Mbc5.Get | jimbot/src/cartridge/cartridge_mbc5.rs:23-38 | bank 0 reads the image directly and 0x4000-0x7FFF reads the selected 16-bit-numbered bank |
| CartridgeMbc5.Mbc5.Set | jimbot/src/cartridge/cartridge_mbc5.rs:40-65 | the two bank bytes and the RAM bank number are set by their ranges; nothing else changes |
| CartridgeMbc5RamBattery.Mbc5RamBattery.constructor | jimbot/src/cartridge/cartridge_mbc5_ram_battery.rs:125-185 | ROM bank 1, RAM bank 0, RAM disabled, simple mode, zero-filled RAM of the header's size |
| CartridgeMbc5RamBattery.Mbc5RamBattery.Get | jimbot/src/cartridge/cartridge_mbc5_ram_battery.rs:31-55 | ROM reads as banked; external RAM reads 0xFF while disabled and the byte of the selected bank while enabled |
| CartridgeMbc5RamBattery.Mbc5RamBattery.Set | jimbot/src/cartridge/cartridge_mbc5_ram_battery.rs:57-105 | RAM enable; the two bank bytes; the RAM bank; an enabled RAM write is read back |
| CartridgeMetadata.AsciiIsUtf8 | jimbot/src/cartridge/metadata.rs:37 | a title of ASCII bytes always passes the UTF-8 check that header parsing makes |
| CartridgeMetadata.LeadingNuls | jimbot/src/cartridge/metadata.rs:37 | the count of leading NUL bytes: all counted bytes are NUL and the next one is not |
| CartridgeMetadata.TrailingNuls | jimbot/src/cartridge/metadata.rs:37 | the count of trailing NUL bytes: all counted bytes are NUL and the one before them is not |
| CartridgeMetadata.TrimNul | jimbot/src/cartridge/metadata.rs:37 | the trimmed title is a contiguous slice of the field, only NULs are dropped on either side, and it is empty or starts and ends with a non-NUL byte |
| CartridgeMetadata.TrimNulIdempotent | jimbot/src/cartridge/metadata.rs:37 | trimming a trimmed title changes nothing |
| CartridgeMetadata.TitleField | jimbot/src/cartridge/metadata.rs:15-16 | the title field is the 15 bytes 0x134-0x142 of the image |
| CartridgeMetadata.MetadataOf | jimbot/src/cartridge/metadata.rs:36-47 | the type, ROM size and RAM size are decoded from bytes 0x147, 0x148 and 0x149; the title is the title field from its first non-NUL byte to its last: it begins and ends with a non-NUL byte, matches the header byte for byte, and only NULs follow it |
| RamSizeType.RamSizeOf | jimbot/src/cartridge/ram_size_type.rs:8-18 | code 0 means no RAM; code 1 is 2 KiB in one bank; the other codes are their bank count times 8 KiB (4 banks for code 3, 16 for code 4, 8 for code 5) |
| RomSizeType.RomSizeOf | jimbot/src/cartridge/rom_size_type.rs:8-24 | codes 0-8 give 2^(code+1) banks of 16 KiB; code 0x54 gives 96 banks and 1.5 MiB |
| Bits.Word | jimbot/src/cpu/registers.rs:124-133 | a big-endian pair has the first byte as its high half and the second as its low half |
| Bits.WordOfHalves | jimbot/src/cpu/registers.rs:95-133 | splitting a word into the two bytes `set16` stores and joining them as `get16` does gives the word back |
| CpuRegisters.FlagMask | jimbot/src/cpu/registers.rs:64-67 | Z, N, H and C are bits 7, 6, 5 and 4 of F, each the only flag with its mask, none in the low nibble |
| CpuRegisters.Stored16 | jimbot/src/cpu/registers.rs:95-122 | a pair write reads back unchanged except that AF drops the low nibble of F; the high byte always reads back |
| CpuRegisters.Stored8 | jimbot/src/cpu/registers.rs:135-150 | an 8-bit write reads back unchanged except that F drops its low nibble |
| CpuRegisters.RegFile.Get16 | jimbot/src/cpu/registers.rs:124-133 | a pair reads the high register as its high byte and the low register as its low byte |
| CpuRegisters.RegFile.With8 | jimbot/src/cpu/registers.rs:135-150 | writing one register sets that register (F masked) and leaves the other eleven unchanged |
| CpuRegisters.RegFile.With16 | jimbot/src/cpu/registers.rs:95-122 | writing a pair sets the pair (F masked) and leaves every register outside the pair unchanged |
| CpuRegisters.RegFile.WithFlags | jimbot/src/cpu/registers.rs:169-181 | F then holds exactly the given four flags; no other register changes |
| CpuRegisters.FlagsByte | jimbot/src/cpu/registers.rs:169-176 | an F built from flags has its low nibble clear |
| CpuRegisters.WithFlagKeepsOthers | jimbot/src/cpu/registers.rs:169-181 | setting or clearing one flag in an F with a clear low nibble changes that flag, as `get_f` reads it, and no other |
| CpuRegisters.Registers.constructor | jimbot/src/cpu/registers.rs:45-60 | every register starts at zero |
| CpuRegisters.Registers.Get16 | jimbot/src/cpu/registers.rs:124-133 | a pair is read big-endian from its two registers |
| CpuRegisters.Registers.Set8 | jimbot/src/cpu/registers.rs:135-150 | the file afterwards is the old file with the one register written; F keeps a clear low nibble |
| CpuRegisters.Registers.Set16 | jimbot/src/cpu/registers.rs:95-122 | the file afterwards is the old file with the pair written |
| CpuRegisters.Registers.Get16I | jimbot/src/cpu/registers.rs:69-73 | returns the pair's old value and leaves it increased by `by`; the add must not overflow |
| CpuRegisters.Registers.Get16D | jimbot/src/cpu/registers.rs:75-79 | returns the pair's old value and leaves it decreased by `by`; the subtraction must not underflow |
| CpuRegisters.Registers.Inc16 | jimbot/src/cpu/registers.rs:87-89 | the pair increases by `by`, without overflow |
| CpuRegisters.Registers.Dec16 | jimbot/src/cpu/registers.rs:91-93 | the pair decreases by `by`, without underflow |
| CpuRegisters.Registers.SetF | jimbot/src/cpu/registers.rs:169-176 | one flag takes the given value, the other flags and registers keep theirs |
| CpuInstruction.DefaultInstruction | jimbot/src/cpu/instruction.rs:14-19 | the default instruction is a single Nop step without operands or successor |
| CpuInstruction.SetIns | jimbot/src/cpu/instruction.rs:29-31 | replacing the step keeps the chain behind it and the chain's length |
| CpuInstruction.TakeNext | jimbot/src/cpu/instruction.rs:36-38 | taking the successor returns the chain behind the step and leaves the step alone; the chain is one step shorter |
| CpuFetcher.Pending | jimbot/src/cpu/fetcher.rs:13-28 | an operand still needs one byte (8-bit fetches, or a 16-bit fetch with its low byte) or two (an empty 16-bit fetch); other operands need none |
| CpuFetcher.ResolveByte | jimbot/src/cpu/fetcher.rs:13-20 | one byte completes a one-byte operand |
| CpuFetcher.ResolveWord | jimbot/src/cpu/fetcher.rs:21-28 | one byte brings a 16-bit operand one byte closer to complete |
| CpuFetcher.Resolve | jimbot/src/cpu/fetcher.rs:11-31 | a fetch keeps the op, changes at most one operand, and brings the step exactly one byte closer to complete; a step with nothing to fetch is returned unchanged and done |
| CpuFetcher.FetchByte | jimbot/src/cpu/fetcher.rs:13 | reads the byte at PC and leaves PC one higher |
| CpuFetcher.Fetch | jimbot/src/cpu/fetcher.rs:11-31 | a step that fetches gets the byte at PC resolved into it and PC advances by one; a step that does not is done, unchanged, and PC stays |
| CpuFetcher.NothingToFetch | jimbot/src/cpu/fetcher.rs:29 | a step without fetch operands is returned done and unchanged |
| CpuFetcher.U16TakesTwoBytes | jimbot/src/cpu/fetcher.rs:21-22 | a 16-bit immediate takes two fetches, low byte first, and is not done after the first |
| CpuFetcher.AddrU16TakesTwoBytes | jimbot/src/cpu/fetcher.rs:25-28 | a 16-bit address takes two fetches, low byte first |
| CpuFetcher.InAddrU8CostsACycle | jimbot/src/cpu/fetcher.rs:19 | fetching a high-page address byte is reported as not done |
| CpuFetcher.ByteFetchIsDone | jimbot/src/cpu/fetcher.rs:13-18 | a one-byte immediate is done after one fetch |
| CpuFetcher.FirstOperandFirst | jimbot/src/cpu/fetcher.rs:11-31 | when the first operand needs bytes, a fetch resolves it and leaves the second alone |
| CpuDecoder.Operand | jimbot/src/cpu/decoder.rs:223-298 | the three-bit register code names B, C, D, E, H, L, the byte at (HL), or A; only code 6 is the memory operand |
| CpuDecoder.BaseTableFacts | jimbot/src/cpu/decoder.rs:12-322 | every base opcode decodes to an instruction or to the unknown-opcode error, and an immediate entry is a single step with nothing to fetch |
| CpuDecoder.DecodeUnknownOpcodes | jimbot/src/cpu/decoder.rs:320 | exactly the twelve opcodes 0x10, 0xD3, 0xDB, 0xDD, 0xE3, 0xE4, 0xEB, 0xEC, 0xED, 0xF4, 0xFC and 0xFD decode to an error; every other opcode decodes to an instruction |
| CpuDecoder.DecodeImmediateIsSingle | jimbot/src/cpu/decoder.rs:12-616 | in both tables an entry that asks to run at once is one step with no chain, no operand left to fetch and no further decode |
| CpuDecoder.DecodeCBRegular | jimbot/src/cpu/decoder.rs:324-616 | each CB opcode follows the regular layout: a rotate or shift chosen by bits 3-5 below 0x40, then BIT, RES and SET with the bit index in bits 3-5; the operand from bits 0-2; immediate unless the operand is (HL) |
| CpuDecoder.DecodeCBTotal | jimbot/src/cpu/decoder.rs:614 | every CB byte decodes to an instruction, so the CB unknown-opcode arm is never taken |
| CpuDecoder.DecodeLdGrid | jimbot/src/cpu/decoder.rs:223-298 | opcodes 0x40-0x7F load the register coded by bits 3-5 from the one coded by bits 0-2 (immediate unless (HL) is involved), except 0x76, which is HALT |
| CpuDecoder.DecodeAluGrid | jimbot/src/cpu/decoder.rs:72-192 | opcodes 0x80-0xBF apply ADD, ADC, SUB, SBC, AND, XOR, OR or CP (bits 3-5) to A and the operand coded by bits 0-2 |
| CpuDecoder.DecodeRstVector | jimbot/src/cpu/decoder.rs:25-32 | each RST opcode calls the vector held in its bits 3-5 |
| CpuDecoder.DecodePush | jimbot/src/cpu/decoder.rs:838-848 | PUSH is an internal cycle, then the high register and then the low register stored at a pre-decremented SP |
| CpuDecoder.DecodePop | jimbot/src/cpu/decoder.rs:827-836 | POP loads the low register and then the high register from a post-incremented SP |
| CpuDecoder.DecodeReturns | jimbot/src/cpu/decoder.rs:916-942 | RET and RETI pop PC low byte first; RET ends with an internal cycle and RETI with enabling interrupts at once |
| CpuAlu.CarryIn | jimbot/src/cpu/executor.rs:821 | the carry flag read as a number is 1 when set and 0 when clear |
| CpuAlu.AddOut | jimbot/src/cpu/executor.rs:786-793 | ADD gives a + b modulo 256; Z when that is 0, N clear, H on a carry out of bit 3, C on a carry out of bit 7 |
| CpuAlu.AdcMeaning | jimbot/src/cpu/executor.rs:819-830 | ADC gives a + b + carry modulo 256; H and C on a carry out of bit 3 and bit 7 of the three-way sum |
| CpuAlu.SubOut | jimbot/src/cpu/executor.rs:795-801 | SUB and CP give a - b modulo 256; Z iff a == b, N set, H on a borrow from bit 4, C iff a < b |
| CpuAlu.SbcMeaning | jimbot/src/cpu/executor.rs:918-929 | SBC gives a - b - carry modulo 256; H and C on a borrow from bit 4 and bit 8 of the three-way difference |
| CpuAlu.AndOut | jimbot/src/cpu/executor.rs:872-879 | AND sets exactly the bits set in both operands; Z from the result, N clear, H set, C clear |
| CpuAlu.OrOut | jimbot/src/cpu/executor.rs:741-748 | OR sets exactly the bits set in either operand; Z from the result, N, H and C clear |
| CpuAlu.XorOut | jimbot/src/cpu/executor.rs:938-945 | XOR sets exactly the bits where the operands differ; Z from the result, N, H and C clear |
| CpuAlu.IncOut | jimbot/src/cpu/executor.rs:522-551 | INC gives x + 1 modulo 256; Z iff x was 0xFF, N clear, H iff the low nibble was 0xF, C kept |
| CpuAlu.DecOut | jimbot/src/cpu/executor.rs:535-541 | DEC gives x - 1 modulo 256; Z iff x was 1, N set, H iff the low nibble was 0, C kept |
| CpuAlu.RlcOut | jimbot/src/cpu/executor.rs:382-390 | RLC rotates left with bit 7 going to bit 0 and to C; Z from the result, N and H clear |
| CpuAlu.RrcOut | jimbot/src/cpu/executor.rs:461-469 | RRC rotates right with bit 0 going to bit 7 and to C |
| CpuAlu.RlOut | jimbot/src/cpu/executor.rs:358-365 | RL shifts left taking the old carry into bit 0; bit 7 goes to C |
| CpuAlu.RrOut | jimbot/src/cpu/executor.rs:214-221 | RR shifts right taking the old carry into bit 7; bit 0 goes to C |
| CpuAlu.SlaOut | jimbot/src/cpu/executor.rs:434-444 | SLA doubles modulo 256; bit 7 goes to C |
| CpuAlu.SraOut | jimbot/src/cpu/executor.rs:407-417 | SRA halves the signed value, rounding toward minus infinity; bit 0 goes to C |
| CpuAlu.SrlOut | jimbot/src/cpu/executor.rs:647-654 | SRL halves the unsigned value; bit 0 goes to C |
| CpuAlu.SwapOut | jimbot/src/cpu/executor.rs:190-197 | SWAP exchanges the nibbles; Z from the result, the other flags clear |
| CpuAlu.BitFlags | jimbot/src/cpu/executor.rs:626-630 | BIT sets Z iff bit n is clear, clears N, sets H and keeps C |
| CpuAlu.SetBit | jimbot/src/cpu/executor.rs:595-597 | SET gives the byte with bit n set and the other bits kept |
| CpuAlu.ResBit | jimbot/src/cpu/executor.rs:612-614 | RES gives the byte with bit n clear and the other bits kept |
| CpuAlu.WriteFlags | jimbot/src/cpu/executor.rs:788-791 | F afterwards holds exactly the four given flags; no other register changes |
| CpuAlu.Add | jimbot/src/cpu/executor.rs:786-793 | returns the ADD result and writes its flags; nothing else changes |
| CpuAlu.Adc | jimbot/src/cpu/executor.rs:819-830 | returns the ADC result with the carry read before the call and writes its flags |
| CpuAlu.Sub | jimbot/src/cpu/executor.rs:848-855 | returns the SUB result and writes its flags |
| CpuAlu.Cp | jimbot/src/cpu/executor.rs:795-801 | writes the SUB flags and nothing else; no result is kept |
| CpuAlu.Sbc | jimbot/src/cpu/executor.rs:918-929 | returns the SBC result with the carry read before the call and writes its flags |
| CpuAlu.And | jimbot/src/cpu/executor.rs:872-879 | returns the AND result and writes its flags |
| CpuAlu.Or | jimbot/src/cpu/executor.rs:741-748 | returns the OR result and writes its flags |
| CpuAlu.Xor | jimbot/src/cpu/executor.rs:938-945 | returns the XOR result and writes its flags |
| CpuAlu.Inc | jimbot/src/cpu/executor.rs:543-551 | returns x + 1 and writes Z, N and H; C keeps its value |
| CpuAlu.Dec | jimbot/src/cpu/executor.rs:535-541 | returns x - 1 and writes Z, N and H; C keeps its value |
| CpuAlu.Rlc | jimbot/src/cpu/executor.rs:382-390 | returns the RLC result and writes its flags |
| CpuAlu.Rrc | jimbot/src/cpu/executor.rs:461-469 | returns the RRC result and writes its flags |
| CpuAlu.Rl | jimbot/src/cpu/executor.rs:358-365 | returns the RL result with the carry read before the call and writes its flags |
| CpuAlu.Rr | jimbot/src/cpu/executor.rs:214-221 | returns the RR result with the carry read before the call and writes its flags |
| CpuAlu.Sla | jimbot/src/cpu/executor.rs:434-444 | returns the SLA result and writes its flags |
| CpuAlu.Sra | jimbot/src/cpu/executor.rs:407-417 | returns the SRA result and writes its flags |
| CpuAlu.Srl | jimbot/src/cpu/executor.rs:647-654 | returns the SRL result and writes its flags |
| CpuAlu.Swap | jimbot/src/cpu/executor.rs:190-197 | returns the SWAP result and writes its flags |
| CpuAlu.Bit | jimbot/src/cpu/executor.rs:626-630 | writes the BIT flags; the byte examined is not changed |
| CpuAlu.CarryClearIsPlain | jimbot/src/cpu/executor.rs:786-830 | ADC with C clear is ADD, and SBC with C clear is SUB |
| CpuAlu.SubUndoesAdd | jimbot/src/cpu/executor.rs:786-855 | SUB of b undoes ADD of b, borrowing exactly where the addition carried (C and H) |
| CpuAlu.SbcUndoesAdc | jimbot/src/cpu/executor.rs:819-929 | SBC with the same carry undoes ADC and borrows out of bit 8 exactly where ADC carried |
| CpuAlu.RotateCircularInverse | jimbot/src/cpu/executor.rs:382-469 | RRC and RLC undo each other |
| CpuAlu.RotateThroughCarryInverse | jimbot/src/cpu/executor.rs:214-365 | RR fed the carry RL produced gives back the byte and the carry RL consumed, and the other way round |
| CpuAlu.SwapInvolution | jimbot/src/cpu/executor.rs:190-197 | SWAP twice is the identity |
| CpuAlu.ShiftRoundTrip | jimbot/src/cpu/executor.rs:434-654 | SRL after SLA loses only bit 7; SLA after SRL loses only bit 0 |
| CpuAlu.BitSeesSetAndRes | jimbot/src/cpu/executor.rs:595-630 | BIT finds set a bit SET set and clear a bit RES cleared; RES after SET, and SET after RES, depend only on the other bits |
| CpuExecutor.PushChain | jimbot/src/cpu/executor.rs:492-500 | a push is two steps: the high byte and then the low byte stored at a pre-decremented SP |
| CpuExecutor.ReturnChain | jimbot/src/cpu/executor.rs:141-155 | a return is three steps: PC low byte and PC high byte popped through SP, then an internal cycle |
| CpuExecutor.JumpDistance | jimbot/src/cpu/executor.rs:567-580 | a relative jump moves PC forward by an offset below 0x80 and back by 0x100 minus any other offset, modulo 2^16 |
| CpuExecutor.AccRotateOut | jimbot/src/cpu/executor.rs:164-173 | RLCA, RRCA, RLA and RRA always clear Z, N and H |
| CpuExecutor.AccRotateValues | jimbot/src/cpu/executor.rs:274-307 | RLCA, RRCA, RLA and RRA rotate A as RLC, RRC, RL and RR do, and C takes the bit shifted out |
| CpuExecutor.DaaOut | jimbot/src/cpu/executor.rs:316-341 | after DAA, Z reflects the new A, N is kept, H is clear; C stays set once set, and is set after an addition when A was above 0x99 |
| CpuExecutor.DaaAfterAdd | jimbot/src/cpu/executor.rs:316-341 | after ADD of two BCD bytes, DAA leaves in A their decimal sum, digit by digit, and sets C exactly when the tens carried past 9 |
| CpuExecutor.DaaAfterSub | jimbot/src/cpu/executor.rs:316-341 | after SUB of two BCD bytes, DAA leaves in A their decimal difference, digit by digit, and sets C exactly when the tens borrowed |
| CpuExecutor.SpOffsetFlags | jimbot/src/cpu/executor.rs:126-139 | ADD SP,e and LD HL,SP+e clear Z and N and take H and C from adding the low byte of the word and the offset byte unsigned |
| CpuExecutor.AddWordCarries | jimbot/src/cpu/executor.rs:699-708 | ADD rr,rr keeps Z, clears N, sets H on a carry out of bit 11 and C on a carry out of bit 15 |
| CpuExecutor.Arith | jimbot/src/cpu/executor.rs:676-945 | an ALU operation on a register writes the operation's flags and then its result into that register; CP writes only the flags |
| CpuExecutor.ArithByte | jimbot/src/cpu/executor.rs:786-929 | the ADD, ADC, SUB and SBC helpers return the ALU result and write its flags, with the carry read before the call |
| CpuExecutor.LogicByte | jimbot/src/cpu/executor.rs:741-945 | the AND, OR and XOR helpers return the ALU result and write its flags |
| CpuExecutor.Shift | jimbot/src/cpu/executor.rs:183-654 | a CB rotate or shift on a register writes the operation's flags and then its result into the register |
| CpuExecutor.ShiftByte | jimbot/src/cpu/executor.rs:190-654 | the rotate and shift helpers return the ALU result and write its flags |
| CpuExecutor.IncR8 | jimbot/src/cpu/executor.rs:543-551 | INC r writes the INC flags (C kept) and then the incremented byte into the register |
| CpuExecutor.DecR8 | jimbot/src/cpu/executor.rs:507-512 | DEC r writes the DEC flags (C kept) and then the decremented byte into the register |
| CpuExecutor.PairMoves | jimbot/src/cpu/executor.rs:502-556 | moving a pair up or down by one is writing its word plus or minus one |
| CpuExecutor.IncR16 | jimbot/src/cpu/executor.rs:553-556 | INC rr adds one to the pair; the unchecked add requires the pair below 0xFFFF |
| CpuExecutor.DecR16 | jimbot/src/cpu/executor.rs:502-505 | DEC rr subtracts one from the pair; the unchecked subtraction requires the pair above 0 |
| CpuExecutor.BitOf | jimbot/src/cpu/executor.rs:616-630 | BIT writes the BIT flags of the byte read and changes nothing else |
| CpuExecutor.SetR8 | jimbot/src/cpu/executor.rs:581-585 | SET n,r sets bit n of the register and changes nothing else |
| CpuExecutor.ResR8 | jimbot/src/cpu/executor.rs:598-602 | RES n,r clears bit n of the register and changes nothing else |
| CpuExecutor.AccRotate | jimbot/src/cpu/executor.rs:164-307 | RLCA, RRCA, RLA and RRA write the rotated A and their flags |
| CpuExecutor.Cpl | jimbot/src/cpu/executor.rs:265-272 | CPL complements A and sets N and H; Z and C are kept |
| CpuExecutor.Ccf | jimbot/src/cpu/executor.rs:309-314 | CCF complements C and clears N and H; Z is kept |
| CpuExecutor.Scf | jimbot/src/cpu/executor.rs:157-162 | SCF sets C and clears N and H; Z is kept |
| CpuExecutor.Daa | jimbot/src/cpu/executor.rs:316-341 | DAA writes the corrected A and then the DAA flags |
| CpuExecutor.AddR16I8 | jimbot/src/cpu/executor.rs:126-139 | ADD SP,e writes the pair plus the sign-extended offset, then the offset flags, and hands back two internal cycles |
| CpuExecutor.LdR16Spi8 | jimbot/src/cpu/executor.rs:967-979 | LD HL,SP+e writes the offset flags, then SP plus the sign-extended offset into the pair, and hands back one internal cycle |
| CpuExecutor.AddR16R16 | jimbot/src/cpu/executor.rs:699-708 | ADD rr,rr writes the word-addition flags and then the 16-bit sum into the first pair |
| CpuExecutor.JpU16 | jimbot/src/cpu/executor.rs:244-247 | JP a16 loads PC with the address and hands back one internal cycle |
| CpuExecutor.JpR16 | jimbot/src/cpu/executor.rs:260-263 | JP HL loads PC with the pair and hands back nothing more |
| CpuExecutor.CallU16 | jimbot/src/cpu/executor.rs:471-476 | CALL loads PC with the address and hands back an internal cycle followed by pushing the old PC, high byte first |
| CpuExecutor.RstU16 | jimbot/src/cpu/executor.rs:478-482 | RST loads PC with the vector and hands back the push of the old PC, without the internal cycle |
| CpuExecutor.LdR8 | jimbot/src/cpu/executor.rs:947-955 | LD r,n and LD r,r' write the byte into the register and nothing else |
| CpuExecutor.LdR16 | jimbot/src/cpu/executor.rs:957-965 | LD rr,nn and LD rr,rr' write the word into the pair and nothing else |
| CpuExecutor.LdR8FromPairInc | jimbot/src/cpu/executor.rs:1003-1007 | LD r,(rr+) moves the pair up by one and writes the byte read at its old value into the register |
| CpuExecutor.LdR8FromPairDec | jimbot/src/cpu/executor.rs:1009-1013 | LD r,(rr-) moves the pair down by one and writes the byte read at its old value into the register |
| CpuExecutor.ModifyInMemory | jimbot/src/cpu/executor.rs:514-533 | INC, DEC and the CB rotates and shifts on (HL) write their flags now and hand back the step that stores the result at the address |
| CpuExecutor.SetResByte | jimbot/src/cpu/executor.rs:587-614 | SET and RES on (HL) produce the byte with bit n set or cleared and every other bit kept |
| CpuExecutor.StoreAtPairInc | jimbot/src/cpu/executor.rs:1044-1048 | LD (rr+),r stores at the old pair and leaves the pair one higher; the byte stored is the register after that update |
| CpuExecutor.StoreAtPairDec | jimbot/src/cpu/executor.rs:1091-1095 | LD (rr-),r stores at the old pair and leaves the pair one lower |
| CpuExecutor.StoreAtPairPreDec | jimbot/src/cpu/executor.rs:1056-1066 | PUSH's stores write at the pair minus one and leave the pair there; the byte is the immediate or the register read after the update |
| CpuExecutor.PreDecrement | jimbot/src/cpu/executor.rs:1057 | the pair moves down by one and the new value is the address |
| CpuExecutor.StoreWordChain | jimbot/src/cpu/executor.rs:1026-1036 | LD (a16),SP stores the low byte at the address and then the high byte at the next address; the two bytes make the word |
| CpuExecutor.ReturnIf | jimbot/src/cpu/executor.rs:141-155 | a conditional return yields the return chain exactly when the condition holds |
| CpuCore.DecodeStep | jimbot/src/cpu.rs:1966 | the step waiting at an instruction boundary is a decode of the byte at PC, with nothing chained after it |
| CpuCore.Following | jimbot/src/cpu.rs:2000-2006 | after a completed step the CPU works on the instruction `execute` handed back if any, else the rest of the current chain, else a fresh decode |
| CpuCore.Runs | jimbot/src/cpu/executor.rs:656-674 | the step `execute` runs for an immediate decode is the decoded step, and when the decode succeeds that step matches an arm |
| CpuCore.HighPage | jimbot/src/cpu/executor.rs:1068-1089 | an LDH address is in the high page 0xFF00-0xFFFF |
| CpuCore.WriteRequest | jimbot/src/cpu/executor.rs:58-66 | only LD to memory and the deferred WRITE ever write to the bus |
| CpuCore.LoadThroughPairDec | jimbot/src/cpu/executor.rs:1009-1013 | LD r,(HL-) loads the byte read into r and moves HL down by one |
| CpuCore.LoadThroughPairInc | jimbot/src/cpu/executor.rs:1003-1007 | LD r,(HL+) loads the byte read into r and moves HL up by one |
| CpuCore.AfterFetch | jimbot/src/cpu/fetcher.rs:11-31 | fetching leaves the registers alone for a step with nothing to read, and otherwise moves PC on by exactly one |
| CpuCore.InterruptChain | jimbot/src/cpu.rs:2044-2058 | the interrupt dispatch is a chain of exactly five steps |
| CpuCore.FirstEnabledIsFirst | jimbot/src/cpu.rs:2028-2060 | the request the loop stops at is in the list and enabled; there is none exactly when no listed request is enabled; in a list sorted by priority it comes before every other enabled one |
| CpuCore.ServicedIsHighestPriority | jimbot/src/cpu.rs:2021-2061 | a request is serviced exactly when IME is set and some request is both raised and enabled, and then it is the raised and enabled request of highest priority |
| CpuCore.RequestedWakes | jimbot/src/cpu.rs:2020 | a raised and enabled request always means IE and IF share a set bit, which ends a halt |
| CpuCore.StepLatches | jimbot/src/cpu/executor.rs:223-242 | DI clears IME and a pending EI; EI only asks for IME; the immediate EI sets IME; HALT halts; every other step, and a step no arm matches, keeps the latches |
| CpuCore.InterruptServicesHighest | jimbot/src/cpu.rs:2019-2058 | at a decode with IME set, the highest-priority pending request is serviced: only its IF bit is cleared, IME is cleared, a halted CPU wakes, and the five-step dispatch chain replaces the decode |
| CpuCore.InterruptIdle | jimbot/src/cpu.rs:2019-2065 | at a decode with nothing to service the chain and IF stay; a pending EI sets IME only when IME was clear; a halted CPU wakes exactly when IE and IF share a bit |
| CpuCore.ServicedStep | jimbot/src/cpu.rs:2019-2059 | the interrupt step when a request is serviced, written out field by field |
| CpuCore.UnservicedStep | jimbot/src/cpu.rs:2019-2065 | the interrupt step at a decode when no request is serviced, written out field by field |
| CpuCore.Access | jimbot/src/cpu/executor.rs:58-79 | a step's bus access yields the byte at its read address (zero when it reads nothing), then writes its write, or leaves the bus untouched when it writes nothing |
| CpuCore.FirstRequest | jimbot/src/cpu.rs:2028-2061 | the loop over the requests in priority order finds the first one IE enables |
| CpuCore.Cpu.constructor | jimbot/src/cpu.rs:1959-1970 | a new CPU has zeroed registers, is not halted, has IME and a pending EI clear, and waits to decode |
| CpuCore.Cpu.ExecArith | jimbot/src/cpu/executor.rs:19-37 | the arithmetic arms change the registers exactly as `ArithEffect` says and hand back its chain |
| CpuCore.Cpu.ExecBitOp | jimbot/src/cpu/executor.rs:30-31 | BIT, RES and SET change the registers exactly as `BitOpEffect` says and hand back its chain |
| CpuCore.Cpu.ExecUnary | jimbot/src/cpu/executor.rs:42-51 | INC, DEC and the CB rotates and shifts change the registers exactly as `UnaryEffect` says and hand back its chain |
| CpuCore.Cpu.ExecStorePair | jimbot/src/cpu/executor.rs:60-63 | an LD through HL+, HL- or a pre-decremented SP writes at the pair (or the pair minus one) and moves that pair by one |
| CpuCore.Cpu.ExecStore | jimbot/src/cpu/executor.rs:58-68 | the other stores leave the registers and ask for the bus write `WriteRequest` names |
| CpuCore.Cpu.ExecLoadWord | jimbot/src/cpu/executor.rs:69-71 | LD into a pair sets it to the immediate or the other pair, or to SP+e with the SP offset flags |
| CpuCore.Cpu.ExecLoadByte | jimbot/src/cpu/executor.rs:72-79 | LD into a register takes the immediate, a register or the byte read, moving HL for HL+ and HL- |
| CpuCore.Cpu.ExecLoadThroughPair | jimbot/src/cpu/executor.rs:1003-1013 | LD r,(HL+) and LD r,(HL-) load the byte read and move HL |
| CpuCore.Cpu.ExecControl | jimbot/src/cpu/executor.rs:32-33 | jumps, calls, returns and restarts change the registers exactly as `ControlEffect` says and hand back its chain |
| CpuCore.Cpu.ExecPlain | jimbot/src/cpu/executor.rs:34-39 | the operations without operands, READ and WRITE change the registers as `PlainEffect` says and ask for the write `WriteRequest` names |
| CpuCore.Cpu.ExecAcc | jimbot/src/cpu/executor.rs:265-341 | CCF, CPL, SCF, DAA and the accumulator rotates change A and F as `AccEffect` says |
| CpuCore.Cpu.ExecAlu | jimbot/src/cpu/executor.rs:19-51 | the ALU arms follow `StepEffect` |
| CpuCore.Cpu.ExecLd | jimbot/src/cpu/executor.rs:58-79 | LD follows `LdEffect` and asks for exactly the write `WriteRequest` names |
| CpuCore.Cpu.ExecLatch | jimbot/src/cpu/executor.rs:223-242 | DI, EI, the immediate EI and HALT change only the latches, as `StepLatches` says |
| CpuCore.Cpu.ExecuteOnRegisters | jimbot/src/cpu/executor.rs:17-124 | a step no arm matches is an error and leaves the registers; any other step follows `StepEffect`; the write is `WriteRequest`'s and the latches move as `StepLatches` says |
| CpuCore.Cpu.ExecuteStep | jimbot/src/cpu/executor.rs:17-124 | a step other than a decode fails exactly when no arm matches; otherwise the registers and the chain returned are `StepEffect` of the old registers and the byte read from the bus, and the bus takes the step's write request (`BusWrote`); the latches move as `StepLatches` says |
| CpuCore.Cpu.RunStep | jimbot/src/cpu/executor.rs:17-124 | a step an arm matches reads the bus, runs its arm and writes: the registers after it and the chain it returns are `StepEffect` of the old registers and the byte read, and the bus took exactly the step's write request (`BusWrote`) |
| CpuCore.Cpu.Execute | jimbot/src/cpu/executor.rs:17-124 | `execute` fails exactly when the step, or the decoded opcode, matches no arm; otherwise the registers and the chain returned are `Executed` of the old registers and the byte read; the bus takes the write of the step it runs, and the latches move as that step says |
| CpuCore.Cpu.ExecuteDecode | jimbot/src/cpu/executor.rs:656-674 | a decode step: an immediate table entry runs its single step at once, with that step's register, bus and latch effect; any other entry is handed back with the registers and the bus untouched; it fails exactly when the entry or its step is unknown |
| CpuCore.Cpu.ExecuteImmediate | jimbot/src/cpu/executor.rs:658-660 | an immediate decode runs the decoded step: it fails exactly when that step matches no arm, and otherwise changes the registers, the bus and the latches as that step does |
| CpuCore.Cpu.ExecuteRan | jimbot/src/cpu/executor.rs:17-124 | `execute` with its register and bus effect as one relation (`Ran`): `Executed` of the old registers and the byte read, with the step's write, for a handled step; registers and bus untouched otherwise; IF and IE change only by a write to 0xFF0F or 0xFFFF (`RegisterAfter`) |
| CpuCore.Cpu.ExecuteAndMoveOn | jimbot/src/cpu.rs:1999-2006 | `execute` with its `Ran` effect on the registers and the bus (IF and IE as `RegisterAfter`), then on success the chain moves on as `Following` says; on an error the chain stays |
| CpuCore.Cpu.Wake | jimbot/src/cpu.rs:2020 | a halted CPU wakes exactly when IE and IF share a set bit; nothing else changes |
| CpuCore.Cpu.Service | jimbot/src/cpu.rs:2036-2058 | servicing clears the request's IF bit and IME and installs the dispatch chain with the current PC bytes |
| CpuCore.Cpu.HandleInterrupt | jimbot/src/cpu.rs:2013-2067 | `handle_interrupt` changes the CPU latches, the chain and IF exactly as `InterruptStep` says |
| CpuCore.Cpu.InterruptAtDecode | jimbot/src/cpu.rs:2019-2066 | at a decode step, the wake, then the service or the pending EI, as `InterruptStep` says |
| CpuCore.Cpu.ServiceFirst | jimbot/src/cpu.rs:2021-2061 | with IME set, the first raised request in priority order that IE enables is serviced, as `InterruptStep` says |
| CpuCore.Cpu.FetchStep | jimbot/src/cpu.rs:1994 | a fetch completes or not and yields the step as `Resolve` says for the byte at PC, moving PC by `AfterFetch`; whether the fetched step can run, and for one that can the byte it will read, are as in the state before the fetch |
| CpuCore.Cpu.Hold | jimbot/src/cpu.rs:1995-1998 | a step still missing bytes is stored back into the chain; the latches stay |
| CpuCore.Cpu.MoveOn | jimbot/src/cpu.rs:2000-2006 | after a step the chain moves on as `Following` says; the latches stay |
| CpuCore.Cpu.Complete | jimbot/src/cpu.rs:1999-2006 | a complete step panics exactly when jimbot would (a register or bus access `execute` cannot make), leaving registers and bus; otherwise it fails exactly when no arm matches, the registers and the bus change as `Ran` says (IF and IE as `RegisterAfter`), and on success the chain moves on |
| CpuCore.Cpu.Step | jimbot/src/cpu.rs:1977-2006 | the running part of `cycle`: it panics exactly when `Panics` holds before it; an incomplete step is stored back with PC moved by `AfterFetch`; a complete one errs exactly when unmatched, leaves the registers as `Executed` of the registers after the fetch and the byte read, leaves IF and IE as the step's write to 0xFF0F or 0xFFFF makes them (`RegisterAfter`), and moves the chain on |
| CpuCore.Cpu.Finish | jimbot/src/cpu.rs:1995-2006 | after the fetch: an incomplete step is stored back with the registers and the bus kept; a complete one panics exactly when the executor handles it and cannot run it, errs exactly when unmatched, changes the registers and the bus as `Ran` says (IF and IE as `RegisterAfter`), and on success moves the chain on |
| CpuCore.Cpu.FetchAndFinish | jimbot/src/cpu.rs:1994-2006 | a fetch that can be made, then the rest: it panics exactly when the step it completes is handled but cannot run after the fetch; an incomplete step is stored with PC moved by `AfterFetch`; a complete one errs exactly when unmatched, leaves the registers as `Executed` of the registers after the fetch and the byte read before it, and IF and IE as the step's write makes them (`RegisterAfter`) |
| CpuCore.Cpu.Cycle | jimbot/src/cpu.rs:1973-2011 | `cycle`: it panics exactly when the CPU is not halted and `Panics` holds; a halted CPU keeps its registers and only handles interrupts; otherwise the running part, with the executed step's registers and handed-back instruction `Executed` of the registers after the fetch and the byte read, and then, unless it stopped at an incomplete step, an error or a panic, `handle_interrupt` as `InterruptStep` says, applied to the chain moved on past that instruction (`Following`) and to IF and IE as the step's write left them (`RegisterAfter`) |
| CpuCore.RegisterAfter | jimbot/src/mmu.rs:180-221 | a register of the bus after a step's write: the written byte when the write hits its address, and the old value when the step writes nothing |
| CpuCore.WroteInterruptRegisters | jimbot/src/mmu.rs:180-221 | a bus write leaves IF (0xFF0F) and IE (0xFFFF) as `RegisterAfter` says: only a write to that address changes it |
| Mmu.ApuAddressIsRegister | jimbot/src/mmu.rs:118-125 | every address the bus routes to the APU is one of the APU's registers |
| Mmu.MMU.constructor | jimbot/src/mmu.rs:55-84 | a new bus is in boot mode with the boot ROM and cartridge given, STAT 0x84, every other register zero, and video RAM, work RAM, OAM and high RAM zeroed |
| Mmu.MMU.NewMemories | jimbot/src/mmu.rs:63-73 | the boot ROM holds its 256 bytes and the other memories are fresh and zeroed, apart from each other and the devices |
| Mmu.MMU.NewDevices | jimbot/src/mmu.rs:70-81 | the timer, joypad and APU start fresh in their default state, apart from the cartridge |
| Mmu.MMU.Memory | jimbot/src/mmu.rs:61 | a fresh array holding the given bytes |
| Mmu.MMU.ZeroMemory | jimbot/src/mmu.rs:63-73 | a fresh array of the given size, all zero |
| Mmu.MMU.GetOther | jimbot/src/mmu.rs:107-108 | work RAM reads its cell, and echo RAM reads the work RAM cell 0x2000 lower |
| Mmu.MMU.Get | jimbot/src/mmu.rs:85-150 | the read memory map: the boot ROM under 0x100 in boot mode, the cartridge for ROM and external RAM, video RAM, work RAM and its echo, OAM, the I/O registers, high RAM and IE; every unmapped I/O address reads 0xFF |
| Mmu.MMU.WramIndex | jimbot/src/mmu.rs:169-170 | work RAM and echo addresses map to the work RAM cell at their offset from 0xC000 modulo 0x2000 |
| Mmu.MMU.Set | jimbot/src/mmu.rs:151-224 | a write changes exactly what `Written` names: the addressed cell, device or register under its write rule (STAT keeps its mode bits, WX is at least 7, LY ignores writes, 0xFF46 copies a page into OAM, 0xFF50 leaves boot mode, cartridge ROM writes dropped in boot mode) and nothing else |
| Mmu.MMU.SetMemoryMap | jimbot/src/mmu.rs:154-222 | the write dispatch by address range, with the same effect as `Written` |
| Mmu.MMU.SetEcho | jimbot/src/mmu.rs:170 | an echo RAM write is the write of the same value 0x2000 lower |
| Mmu.MMU.EchoWritten | jimbot/src/mmu.rs:170 | the effect of a write 0x2000 lower is the effect of the echo write |
| Mmu.MMU.SetCartridgeRange | jimbot/src/mmu.rs:155-168 | ROM-range writes reach the controller only outside boot mode, external RAM writes always, and nothing happens without a cartridge |
| Mmu.MMU.SetRam | jimbot/src/mmu.rs:160-171 | video RAM, work RAM and OAM writes change the one addressed cell |
| Mmu.MMU.SetVram | jimbot/src/mmu.rs:160-163 | a video RAM write changes the one addressed cell |
| Mmu.MMU.SetWram | jimbot/src/mmu.rs:169 | a work RAM write changes the one addressed cell |
| Mmu.MMU.SetOam | jimbot/src/mmu.rs:171 | an OAM write changes the one addressed cell |
| Mmu.MMU.SetIo | jimbot/src/mmu.rs:172-222 | writes from 0xFEA0 up reach the joypad, timer, APU, DMA, the bus's registers or high RAM, and unusable addresses change nothing |
| Mmu.MMU.SetHram | jimbot/src/mmu.rs:220 | a high RAM write changes the one addressed cell |
| Mmu.MMU.SetCartridge | jimbot/src/mmu.rs:156-158 | the controller's own write rule applies, and nothing else on the bus changes |
| Mmu.MMU.SetJoypad | jimbot/src/mmu.rs:173 | a P1 write selects the key row and keeps every key's state |
| Mmu.MMU.SetTimer | jimbot/src/mmu.rs:176-179 | a write to DIV, TIMA, TMA or TAC follows the timer's write rule and touches nothing else |
| Mmu.MMU.SetApu | jimbot/src/mmu.rs:181-185 | a write to an APU register reads back as written and touches nothing else |
| Mmu.MMU.StartDma | jimbot/src/mmu.rs:203 | a write to 0xFF46 copies the page into OAM and changes nothing else |
| Mmu.MMU.SetBusRegister | jimbot/src/mmu.rs:174-221 | a write to one of the bus's own registers changes that register alone |
| Mmu.MMU.SetRegister | jimbot/src/mmu.rs:174-221 | the bus's registers from 0xFF01 to 0xFFFF take the value under their write rules and the others keep theirs |
| Mmu.MMU.SetVideoRegister | jimbot/src/mmu.rs:186-217 | LCDC, SCY, SCX, LYC, BGP, OBP0, OBP1 and WY take the value; STAT keeps its two mode bits; WX is at least 7; LY ignores the write |
| Mmu.MMU.Dma | jimbot/src/mmu.rs:226-233 | OAM bytes 0-0x9E take the 0x9F bytes read from the page and OAM's last byte keeps its value |
| Mmu.MMU.ReadBlock | jimbot/src/mmu.rs:230-232 | the bytes read are those at consecutive addresses from the start |
| Mmu.MMU.SetLy | jimbot/src/mmu.rs:262 | LY takes the value and the other registers keep theirs |
| Mmu.MMU.SetLcdstat | jimbot/src/mmu.rs:265-267 | STAT takes the whole byte, mode bits included, and the other registers keep theirs |
| Mmu.MMU.SetInterruptFlags | jimbot/src/mmu.rs:290-292 | IF takes the value and the other registers keep theirs |
| Mmu.MMU.SetInterruptEnables | jimbot/src/mmu.rs:294-296 | IE takes the value and the other registers keep theirs |
| Mmu.MMU.RequestInterrupt | jimbot/src/mmu.rs:302-306 | the request's IF bit is set and every other request bit keeps its value |
| Mmu.MMU.JoypadPress | jimbot/src/mmu.rs:308-311 | the key goes down, every other key keeps its state, and the joypad interrupt is requested |
| Mmu.MMU.JoypadRelease | jimbot/src/mmu.rs:313-315 | the key comes up and every other key keeps its state |
| Mmu.MMU.CycleTimer | jimbot/src/mmu.rs:272-276 | the timer takes one cycle (`Cycled`), a TIMA overflow sets the timer bit of IF and nothing else in IF, and the APU is clocked with the old frame-sequencer step exactly when DIV bit 13 falls, and untouched otherwise (`ApuFollowed`) |
| Mmu.MMU.RequestTimerIf | jimbot/src/mmu.rs:274-275 | IF gains the timer request exactly when TIMA overflowed, and no other bit or register changes |
| Mmu.MMU.ClockTimer | jimbot/src/mmu.rs:273 | the timer takes one cycle and reports whether TIMA overflowed; the APU is clocked with the old frame-sequencer step exactly when DIV bit 13 falls, and untouched otherwise; the bus's own registers are kept |
| Mmu.MMU.CycleApu | jimbot/src/mmu.rs:278-280 | one APU cycle: a switched-off APU is left untouched; NR50-NR52 and every channel's enable flag are kept, and the next cycle can run |
| Mmu.DmaSource | jimbot/src/mmu.rs:227-228 | the DMA source starts at the page times 0x100 and the copy stays below 0x10000 |
| Ppu.LineEvents | jimbot/src/ppu.rs:76-152 | VBlank is requested exactly at line 144 dot 0; LY is written exactly at dot 0 of every line (with the line number) and at dot 4 of line 153 (with 0); the STAT line is raised only by a selected source, and on visible lines only at dots 0 and 4 |
| Ppu.LineEventsStat | jimbot/src/ppu.rs:76-152 | the STAT a dot leaves: OAM search at dot 4 and LCD transfer at dot 84 of a visible line, VBlank at line 144 dot 4, the mode kept otherwise; the coincidence bit refreshed at dot 4 of lines 1-153 and dot 12 of line 153; the interrupt-select bits kept |
| Ppu.LineEventsMode | jimbot/src/ppu.rs:76-152 | the mode after the line events: OAM search from dot 4 on the visible lines, LCD transfer from dot 84, VBlank from line 144 dot 4, otherwise unchanged |
| Ppu.LineEventsCoincidence | jimbot/src/ppu.rs:94-147 | the coincidence bit becomes LY == LYC at dot 4 of lines 1-153 and dot 12 of line 153, and keeps its value otherwise |
| Ppu.LineEventsSelects | jimbot/src/ppu.rs:76-152 | the line events never change STAT's interrupt-select bits |
| Ppu.LineEventsStatIsOneOf | jimbot/src/ppu.rs:76-152 | the new STAT is the old one, or it with the coincidence bit set from LY and LYC, with at most a new mode |
| Ppu.LyFollowsScanline | jimbot/src/ppu.rs:79-140 | whatever LY held before a line, after each of its dots LY is the line number, except that line 153 reads 0 after its dot 4 |
| Ppu.Raise | jimbot/src/ppu.rs:169 | without a request IF is unchanged; with one, that interrupt's bit is set |
| Ppu.ClearLcd | jimbot/src/ppu.rs:57-63 | every pixel of the buffer becomes 0 |
| Ppu.PPU.constructor | jimbot/src/ppu.rs:29-42 | a new PPU is off, at line 0 dot 0, drawing into buffer 0 with blank buffers, an empty sprite buffer, the STAT line low, and fresh search and transfer units |
| Ppu.PPU.Lcd | jimbot/src/ppu.rs:182-184 | the frame shown is 160 columns of 144 shades, read pixel by pixel from the buffer that is not being drawn |
| Ppu.PPU.Cycle | jimbot/src/ppu.rs:48-181 | the dot: turning the display off resets the PPU, blanks the buffers and sets LY 0 and mode HBlank; while off nothing changes; while on it runs the line events (LY, STAT, VBlank), the mode's unit, the STAT interrupt on a rising line, and advances one dot; in LCD transfer it draws the pixel of its ghost action (`Painted`), in the FIFO's first shade at (x, LY), and leaves the sprite buffer without the sprite it took; in OAM search the sprite buffer grows as `Scan` of the entry evaluated says; only LY, STAT and IF on the bus change; a panic happens only with the display on in mode 2 or 3 |
| Ppu.PPU.Dot | jimbot/src/ppu.rs:48-181 | the dot as the driver sees it: the APU untouched, the dot counter moves on with the display on, no panic with the display off, a panic leaves a unit stuck, and otherwise LY, STAT and IF are written as `StatusWritten` says (the line events' values with the display on, LY 0 and HBlank when it is switched off, nothing while it stays off) |
| Ppu.PPU.Run | jimbot/src/ppu.rs:74-170 | one dot with the display on: the line events, then OAM search or LCD transfer as the mode says, then STAT and the STAT interrupt; a transfer draws the pixel its action chose and nothing else, and leaves the sprite buffer without the sprite it took, or empty when it ends the line and enters HBlank; OAM search leaves the sprite buffer as `Scan` of the entry evaluated says; other modes leave the drawing buffer; a panic leaves the mode's unit failing with LY already written |
| Ppu.PPU.Advance | jimbot/src/ppu.rs:154-181 | after the line events: the mode's unit, STAT (HBlank when the transfer ends the line) and the STAT interrupt on a rising line, then one dot on; the pixel drawn and the sprite buffer (after a transfer, or `Scan` in OAM search) as for `Ppu.PPU.RunMode` |
| Ppu.PPU.Finish | jimbot/src/ppu.rs:168-170 | STAT is written, LCDStat is requested exactly when the STAT line rises, and the line level is kept for the next dot |
| Ppu.PPU.TurnOff | jimbot/src/ppu.rs:51-67 | the PPU is off at line 0 dot 0 with blank buffers and no sprites; LY is 0 and STAT is in HBlank |
| Ppu.PPU.ApplyEvents | jimbot/src/ppu.rs:79-140 | LY takes the event's value, VBlank is requested when the event says so, and STAT is untouched |
| Ppu.PPU.RunMode | jimbot/src/ppu.rs:154-167 | OAM search takes a dot in mode 2 (the sprite buffer as `Scan` says), LCD transfer in mode 3 and reports the end of the line; HBlank and VBlank do nothing; it panics exactly when the mode's unit fails its condition (`Fails`); in mode 3 the dot does what `NextAction` chose, draws only that pixel (`Painted`) and leaves the sprite buffer without the sprite it took |
| Ppu.PPU.Transfer | jimbot/src/ppu.rs:159-164 | an LCD transfer dot: the action is `NextAction`'s, only the pixel it draws changes (`Painted`), and the sprite buffer loses the sprite it took, or is emptied when the line is done |
| Ppu.PPU.Tick | jimbot/src/ppu.rs:172-180 | the position in the frame moves one dot forward modulo 154 * 456, and the drawing buffer flips exactly when a frame ends |
| LcdTransfer.FirstReached | jimbot/src/ppu/lcd_transfer.rs:85-95 | the index of the first buffered sprite with X at most the LCD x plus 8, or none when no sprite is reached |
| LcdTransfer.FirstReachedIsFirst | jimbot/src/ppu/lcd_transfer.rs:88-93 | a reached sprite with no reached sprite before it is the one found |
| LcdTransfer.Shade | jimbot/src/ppu/lcd_transfer.rs:55-63 | the shade is at most 3 (background and window pixels through BGP, sprite pixels through OBP0 or OBP1), and a sprite pixel of colour 0 shades to 0 |
| LcdTransfer.LCDTransfer.constructor | jimbot/src/ppu/lcd_transfer.rs:17-26 | a new transfer starts a line at x 0 with an empty FIFO, no window line and an idle sprite fetcher |
| LcdTransfer.LCDTransfer.NextAction | jimbot/src/ppu/lcd_transfer.rs:40-76 | the choice for the dot: the sprite fetcher's step while it runs, the window fetch when the window starts here, otherwise a discarded pixel, a reached sprite or a drawn pixel when the FIFO holds eight, or a background step |
| LcdTransfer.LCDTransfer.Cycle | jimbot/src/ppu/lcd_transfer.rs:30-83 | the line's first call latches the window line and the discard count; the dot does what NextAction chose; the line is done exactly when the 160th pixel is drawn, and then the transfer resets; a drawn pixel takes the FIFO's first shade at (x, LY) and no other pixel of the LCD changes (`Painted`); on a line not done, a discarded or drawn pixel leaves the FIFO's tail and a fetcher step on it, and any other fetcher step leaves the fetcher and FIFO as `PixelFetcher.AfterStep` says |
| LcdTransfer.LCDTransfer.Latch | jimbot/src/ppu/lcd_transfer.rs:31-38 | the window line is set when LY equals WY and the pixels to discard are SCX mod 8 |
| LcdTransfer.LCDTransfer.Act | jimbot/src/ppu/lcd_transfer.rs:40-76 | x moves only on a drawn pixel and the discard count falls only on a discarded one; only a drawn pixel changes the LCD, at (x, LY) in the FIFO's first shade; a discarded or drawn pixel is taken off the FIFO before the fetcher steps (`PixelFetcher.AfterStep` of the FIFO's tail), a dot without a pixel steps the fetcher on the whole FIFO |
| LcdTransfer.LCDTransfer.Pop | jimbot/src/ppu/lcd_transfer.rs:46-68 | with eight pixels in the FIFO: a discard, a sprite fetch for the first reached sprite, or a drawn pixel; a discard or a draw removes the front pixel and then steps the fetcher, leaving fetcher and FIFO as `PixelFetcher.AfterStep` of the FIFO's tail |
| LcdTransfer.LCDTransfer.DrawPixel | jimbot/src/ppu/lcd_transfer.rs:55-66 | the FIFO's first pixel is removed and its shade written at (x, LY), x moves on, and no other pixel changes |
| LcdTransfer.LCDTransfer.GetSprite | jimbot/src/ppu/lcd_transfer.rs:85-95 | the first reached sprite is removed from the buffer and returned; with none reached the buffer is unchanged |
| LcdTransfer.LCDTransfer.Reset | jimbot/src/ppu/lcd_transfer.rs:97-103 | back to the start of a line with an empty FIFO; the window line is forgotten only at the last visible line; the fetcher resets |
| OamSearch.Entry | jimbot/src/ppu/oam_search.rs:27-33 | the sprite's four bytes are OAM bytes 4e to 4e + 3 |
| OamSearch.CanTestOnScreen | jimbot/src/ppu/oam_search.rs:34-36 | on a line at most 223 the visibility test's u8 sums cannot overflow |
| OamSearch.Admit | jimbot/src/ppu/oam_search.rs:34-39 | the entry is appended exactly when it covers the line and the buffer holds fewer than ten; otherwise the buffer is unchanged |
| OamSearch.FirstFew | jimbot/src/ppu/oam_search.rs:37 | the first n elements, or all when there are fewer |
| OamSearch.ScanKeepsFirstVisible | jimbot/src/ppu/oam_search.rs:19-41 | searching entries from..until leaves the buffer followed by the first visible entries in OAM order, as many as there is room for |
| OamSearch.ScanStep | jimbot/src/ppu/oam_search.rs:19-41 | one more entry keeps that property |
| OamSearch.AdmitKeepsFirst | jimbot/src/ppu/oam_search.rs:34-39 | admitting an entry after the first few visible ones gives the first few of one more |
| OamSearch.FirstFewGrows | jimbot/src/ppu/oam_search.rs:37-38 | an element joins the first few only while there is room |
| OamSearch.ScanComposes | jimbot/src/ppu/oam_search.rs:19-41 | searching in two runs equals searching in one |
| OamSearch.OAMSearch.constructor | jimbot/src/ppu/oam_search.rs:10-15 | a new search is at entry 0 with no banked dot |
| OamSearch.OAMSearch.Cycle | jimbot/src/ppu/oam_search.rs:19-50 | every second call evaluates the next entry with Admit; the call that evaluates entry 40 resets and returns true, so the search ends exactly on the 80th call |
| OamSearch.OAMSearch.Reset | jimbot/src/ppu/oam_search.rs:52-55 | back to entry 0 with no banked dot |
| PixelFetcher.MapBase | jimbot/src/mmu/lcdc.rs:7-14 | the tile map starts at 0x9800 or 0x9C00 |
| PixelFetcher.MapAddressAgrees | jimbot/src/mmu/lcdc.rs:8-13 | the tile map area's address is its base plus the offset |
| PixelFetcher.TileDataAddress | jimbot/src/mmu/lcdc.rs:23-36 | tile data is 16 bytes per tile from 0x8000 for unsigned indices, or around 0x9000 for signed ones, always inside 0x8000-0x97F0 |
| PixelFetcher.TileDataAddressAgrees | jimbot/src/mmu/lcdc.rs:24-35 | the area's address computation, with its sign extension through i8 and i32, gives that address |
| PixelFetcher.MapOffset | jimbot/src/ppu/pixel_fetcher.rs:84-86 | the tile map offset is below 0x400 |
| PixelFetcher.BackgroundOffset | jimbot/src/ppu/pixel_fetcher.rs:84-86 | for the background the offset is 32 times the scrolled line over 8 plus the scrolled column wrapped at 32 |
| PixelFetcher.WindowOffset | jimbot/src/ppu/pixel_fetcher.rs:84-86 | for the window the offset is 32 times the window line over 8 plus the counter |
| PixelFetcher.WrapDropsWholeMaps | jimbot/src/ppu/pixel_fetcher.rs:86 | masking with 0x3FF drops whole multiples of 1024 |
| PixelFetcher.TileRow | jimbot/src/ppu/pixel_fetcher.rs:129-143 | eight window or background pixels: the decoded tile row, or all 0 with the background and window off |
| PixelFetcher.PixelFetcher.constructor | jimbot/src/ppu/pixel_fetcher.rs:27-36 | a new fetcher waits to read a tile index with no banked dot, outside window mode, with zero counters and an idle sprite fetcher |
| PixelFetcher.PixelFetcher.MapAddress | jimbot/src/ppu/pixel_fetcher.rs:80-87 | the tile index is read from 0x9800-0x9FFF |
| PixelFetcher.PixelFetcher.RowAddress | jimbot/src/ppu/pixel_fetcher.rs:101-104 | the row's low byte is read from 0x8000-0x97FE |
| PixelFetcher.PixelFetcher.FetchSprite | jimbot/src/ppu/pixel_fetcher.rs:44-47 | the sprite fetcher starts on the sprite and takes its first step |
| PixelFetcher.PixelFetcher.FetchWindow | jimbot/src/ppu/pixel_fetcher.rs:49-57 | window mode starts at column 0 with a tile index read, and the FIFO is untouched |
| PixelFetcher.PixelFetcher.Step | jimbot/src/ppu/pixel_fetcher.rs:59-73 | a running sprite fetch takes the step (stage and FIFO as `SpritePixelFetcher.AfterStep`, the background fetcher untouched); otherwise a dot is banked, a stage with two dots reads the map or tile data, and the row is pushed at the back when at most eight pixels are queued, or held and later pushed at the front; the whole new state and FIFO are `AfterStep` |
| PixelFetcher.PixelFetcher.BackgroundStep | jimbot/src/ppu/pixel_fetcher.rs:63-71 | a dot is banked and the current stage runs: the next stage, the FIFO with the row pushed, and the tile counter one on only after a push |
| PixelFetcher.PixelFetcher.State | jimbot/src/ppu/pixel_fetcher.rs:17-23 | the fetcher state one step can change: stage, banked dot and tile counter, and the sprite fetcher's stage and banked dot |
| PixelFetcher.PixelFetcher.FetchTileDataIndexStage | jimbot/src/ppu/pixel_fetcher.rs:75-93 | with two dots banked the tile index is read from the map address and the next stage reads the low byte; otherwise nothing changes |
| PixelFetcher.PixelFetcher.FetchTileDataLowStage | jimbot/src/ppu/pixel_fetcher.rs:95-110 | with two dots banked the row's low byte is read at the tile data address plus twice the row within the tile |
| PixelFetcher.PixelFetcher.FetchTileDataHiStage | jimbot/src/ppu/pixel_fetcher.rs:112-123 | with two dots banked the high byte is read one address after the low one |
| PixelFetcher.PixelFetcher.PushToFifoStage | jimbot/src/ppu/pixel_fetcher.rs:125-158 | with two dots banked the row is appended when the FIFO holds at most eight, moving to the next tile, or kept waiting otherwise |
| PixelFetcher.PixelFetcher.WaitFifoStage | jimbot/src/ppu/pixel_fetcher.rs:160-169 | a waiting row is pushed to the FIFO's front once it holds at most eight, moving to the next tile |
| PixelFetcher.PixelFetcher.Reset | jimbot/src/ppu/pixel_fetcher.rs:171-179 | back to the tile index stage outside window mode; the window line counter goes up after a window line and to 0 at VBlank |
| PixelFifo.PixelFifo.constructor | jimbot/src/ppu/pixel_fifo.rs:9-13 | a new FIFO is empty |
| PixelFifo.PixelFifo.Pop | jimbot/src/ppu/pixel_fifo.rs:20-23 | the first pixel is removed and returned |
| PixelFifo.PixelFifo.PushRow | jimbot/src/ppu/pixel_fifo.rs:24-30 | the row is appended at the back |
| PixelFifo.PixelFifo.PushRowFront | jimbot/src/ppu/pixel_fifo.rs:31-38 | the row is put in front, in its order |
| PixelFifo.PixelFifo.Reset | jimbot/src/ppu/pixel_fifo.rs:39-42 | the FIFO is empty |
| PixelFifo.PixelFifo.PopFront8 | jimbot/src/ppu/pixel_fifo.rs:43-49 | the first eight pixels are removed and returned in order |
| PixelFifo.PopPushFront | jimbot/src/ppu/pixel_fifo.rs:43-49 | taking eight and pushing eight back in front keeps the rest, and restores the FIFO when the same eight go back |
| PixelType.ColorIndex | jimbot/src/ppu/pixel_type.rs:14-21 | pixel i's colour index is at most 3, with bit 0 from the low plane's bit 7-i and bit 1 from the high plane's |
| PixelType.FromBgTileData | jimbot/src/ppu/pixel_type.rs:12-23 | eight background pixels with the colour indices of the row |
| PixelType.FromWindowTileData | jimbot/src/ppu/pixel_type.rs:25-36 | eight window pixels with the colour indices of the row |
| PixelType.FromSpriteTileData | jimbot/src/ppu/pixel_type.rs:38-49 | eight sprite pixels with the colour indices of the row and the palette given |
| PixelType.PlaneBit | jimbot/src/ppu/pixel_type.rs:14-21 | a plane bit is 0 or 1 |
| PixelType.DecodedValuesBounded | jimbot/src/ppu/pixel_type.rs:12-49 | every decoded pixel value is at most 3 |
| PixelType.DecodersAgree | jimbot/src/ppu/pixel_type.rs:12-49 | the three decoders give the same colour index at every position |
| PixelType.DecodeRoundTrip | jimbot/src/ppu/pixel_type.rs:12-23 | the two planes read back from a decoded row are the bytes decoded |
| PixelType.PlaneOfRow | jimbot/src/ppu/pixel_type.rs:12-23 | reading a plane back from a decoded row gives that plane's byte |
| PixelType.PlaneBitsOfIndex | jimbot/src/ppu/pixel_type.rs:14-21 | bit 0 of pixel i's index is the low plane's bit 7-i and bit 1 the high plane's |
| PixelType.ZeroRowIffZeroPlanes | jimbot/src/ppu/pixel_type.rs:12-23 | a row is all colour 0 exactly when both planes are zero |
| SpritePixelFetcher.StagesLeft | jimbot/src/ppu/sprite_pixel_fetcher.rs:35-40 | at most three stages are left, and none exactly when idle |
| SpritePixelFetcher.RowOffsetAsWritten | jimbot/src/ppu/sprite_pixel_fetcher.rs:57 | the row offset as written is even and inside the sprite's tile data, with the flipped case defined only when LY is at least the sprite's Y |
| SpritePixelFetcher.FlippedRowUnderflows | jimbot/src/ppu/sprite_pixel_fetcher.rs:57 | every sprite that covers line LY has Y above LY, so the flipped case's unchecked subtraction underflows |
| SpritePixelFetcher.RowOffset | jimbot/src/ppu/sprite_pixel_fetcher.rs:57 | the offset with both subtractions wrapping is even and inside the tile data, and agrees with the unflipped case as written |
| SpritePixelFetcher.RowOffsetSelectsLine | jimbot/src/ppu/sprite_pixel_fetcher.rs:57 | for a sprite covering the line the offset selects row LY + 16 - Y, or row height - 1 - (LY + 16 - Y) when flipped vertically |
| SpritePixelFetcher.WrappedRow | jimbot/src/ppu/sprite_pixel_fetcher.rs:57 | the wrapped difference LY - Y taken modulo the height is the line within the sprite |
| SpritePixelFetcher.TileAddress | jimbot/src/ppu/sprite_pixel_fetcher.rs:58-62 | sprite tile data lies from 0x8000, 16 bytes per tile, with the index's low bit dropped for 8x16 sprites |
| SpritePixelFetcher.Clipped | jimbot/src/ppu/sprite_pixel_fetcher.rs:65-71 | a plane byte is shifted only for a sprite with X below 8 |
| SpritePixelFetcher.SpriteRow | jimbot/src/ppu/sprite_pixel_fetcher.rs:96-101 | eight sprite pixels with the sprite's palette: the decoded row, reversed when flipped horizontally, or all 0 with sprites off |
| SpritePixelFetcher.MixPixel | jimbot/src/ppu/sprite_pixel_fetcher.rs:104-130 | a sprite pixel replaces a background or window pixel when it is not 0 and the sprite is above the background or the background pixel is 0 |
| SpritePixelFetcher.EarlierSpriteWins | jimbot/src/ppu/sprite_pixel_fetcher.rs:106-129 | a pixel already from a sprite is never replaced |
| SpritePixelFetcher.TransparentOrHidden | jimbot/src/ppu/sprite_pixel_fetcher.rs:107-119 | a transparent sprite pixel, or one behind a non-zero background with priority set, leaves the pixel |
| SpritePixelFetcher.SpritePixelFetcher.constructor | jimbot/src/ppu/sprite_pixel_fetcher.rs:21-26 | a new sprite fetcher is idle with no banked dot |
| SpritePixelFetcher.SpritePixelFetcher.RowAddress | jimbot/src/ppu/sprite_pixel_fetcher.rs:57-63 | the row's low byte is read from 0x8000-0x900E |
| SpritePixelFetcher.SpritePixelFetcher.Fetch | jimbot/src/ppu/sprite_pixel_fetcher.rs:30-33 | the fetch starts at the low-byte stage and takes its first step, five dots from idle |
| SpritePixelFetcher.SpritePixelFetcher.Step | jimbot/src/ppu/sprite_pixel_fetcher.rs:42-50 | each step brings idle one dot closer; only the last changes the FIFO, mixing the sprite row over its first eight pixels (`MixedRow`); the new stage, banked dot and FIFO are `AfterStep` |
| SpritePixelFetcher.SpritePixelFetcher.FetchTileDataLowStage | jimbot/src/ppu/sprite_pixel_fetcher.rs:52-73 | with two dots banked the row's low byte is read at the row offset and clipped |
| SpritePixelFetcher.SpritePixelFetcher.FetchTileDataHiStage | jimbot/src/ppu/sprite_pixel_fetcher.rs:75-91 | with two dots banked the high byte is read one address later and clipped |
| SpritePixelFetcher.SpritePixelFetcher.PushToFifoStage | jimbot/src/ppu/sprite_pixel_fetcher.rs:93-135 | with two dots banked the FIFO's first eight pixels are mixed with the sprite row and the fetcher goes idle |
| SpritePixelFetcher.SpritePixelFetcher.Reset | jimbot/src/ppu/sprite_pixel_fetcher.rs:137-140 | the step is kept and nothing is banked |
| SpritePixelFetcher.Mix | jimbot/src/ppu/sprite_pixel_fetcher.rs:102-131 | pixel i of the result is the sprite's where MixPixel lets it replace the FIFO's, and the FIFO's otherwise |
| SpritePixelFetcher.MixedRow | jimbot/src/ppu/sprite_pixel_fetcher.rs:102-131 | the FIFO after a sprite row is mixed over it: the same length, pixel i < 8 is `MixPixel` of the FIFO's and the row's pixel i, the rest kept |
| SpritePixelFifo.SpritePixelFifo.constructor | jimbot/src/ppu/sprite_pixel_fifo.rs:9-13 | a new sprite FIFO is empty |
| SpritePixelFifo.SpritePixelFifo.Pop | jimbot/src/ppu/sprite_pixel_fifo.rs:19-21 | an empty FIFO gives none; otherwise the first entry is removed and returned |
| SpritePixelFifo.SpritePixelFifo.PushRow | jimbot/src/ppu/sprite_pixel_fifo.rs:22-32 | transparent entries among the first eight take the row's pixel, the others keep theirs, and the row's rest is appended |
| SpritePixelFifo.SpritePixelFifo.Reset | jimbot/src/ppu/sprite_pixel_fifo.rs:33-35 | the FIFO is empty |
| SpritePixelFifo.EarlierSpriteWins | jimbot/src/ppu/sprite_pixel_fifo.rs:22-32 | after a push, every opaque entry already there is kept and every other position of the first eight holds the row's pixel |
| VideoMemory.VideoByteIsGet | jimbot/src/mmu.rs:96-99 | in 0x8000-0x9FFF the bus read never aborts and returns video RAM's byte |
| Jimbot.FrameStep | jimbot/src/jimbot.rs:52-56 | one more dot after a dots lands where a + 1 dots do, counted within a frame |
| Jimbot.Jimbot.NewParts | jimbot/src/jimbot.rs:38-43 | the bus, CPU and PPU of a new emulator are each consistent and own disjoint objects |
| Jimbot.Jimbot.constructor | jimbot/src/jimbot.rs:35-45 | a new emulator has its parts assembled and no error latched |
| Jimbot.Jimbot.ClearError | jimbot/src/jimbot.rs:72-74 | the latched error is forgotten |
| Jimbot.Jimbot.Run | jimbot/src/jimbot.rs:47-57 | with an error latched nothing changes; otherwise the CPU's result is latched, and that result and the registers are the CPU cycle's (`CycleEffect`: kept when halted, `AfterFetch` for an incomplete step, `Executed` for a complete one, an error exactly when unmatched); then four dots leave the PPU four dots further into its frame with the display on; a running CPU whose step panics (`Panics`) panics the call, and a panic comes only from that or from a device left stuck (`DotStuck`) |
| Jimbot.Jimbot.Latch | jimbot/src/jimbot.rs:51 | the CPU's error is latched, or the previous one forgotten, and the PPU is not touched |
| Jimbot.Jimbot.Step | jimbot/src/jimbot.rs:51-56 | a CPU step then four dots: the CPU's result and registers are as `CycleEffect` says; with the display on the PPU moves four dots; it panics when the running CPU's step does, and otherwise only with a device stuck |
| Jimbot.Jimbot.CpuStep | jimbot/src/jimbot.rs:51 | a running CPU panics exactly when `Panics` holds; otherwise the result and the registers are the cycle's (`CycleEffect`); the PPU keeps its position |
| Jimbot.Jimbot.Dots | jimbot/src/jimbot.rs:52-56 | four rounds move the PPU four dots with the display on; LCDC and the CPU are kept; a timer that cannot cycle panics, and a panic leaves a device stuck |
| Jimbot.Jimbot.Dot | jimbot/src/jimbot.rs:53-55 | one timer cycle, one APU cycle and one PPU dot: without a panic the timer has cycled (`Cycled`) and its divider counted one; the timer's failing condition panics; with the display off it panics exactly when the timer or the APU cannot cycle; a panic leaves a device stuck |
| Jimbot.Jimbot.PpuDot | jimbot/src/jimbot.rs:55 | the PPU's dot: it cannot panic with the display off, leaves the timer and the APU's condition alone, a panic leaves one of its units stuck, and otherwise LY, STAT and IF are written as `StatusWritten` says |
| Jimbot.Jimbot.Devices | jimbot/src/jimbot.rs:53-54 | the timer and APU cycles panic exactly when one of their conditions fails; without a panic the timer has cycled (`Cycled`) and IF gains the timer request exactly when TIMA overflowed |

## Left out

- Floating-point audio: the APU's sample output (`get_data`), its `f32` mixing and its `sample_counter` are not modelled. The APU's integer state is.
- Save files: reading and writing a battery cartridge's RAM from and to a file, and the `Saver` hook. Battery controllers start with zeroed RAM.
- `new_cartridge_from_bytes` and `new_cartridge_from_file_path`, which pick a controller from the header: these are I/O and construction only. The driver takes the boot ROM and a built cartridge as parameters. Their panic on an unsupported cartridge type is not modelled.
- RomSizeType.RomSizeOf: codes 0x52 and 0x53 are excluded by its precondition, because their sizes come from floating-point products.
- `Jimbot::default`, which reads the command line and a file, is not modelled. The same goes for the accessors that only forward to a part (`mmu`, `cpu`, `ppu`, `cartridge`, `save_data`, `get_sound_data`, `test`). `joypad_press` and `joypad_release` forward to `Mmu.MMU.JoypadPress` and `Mmu.MMU.JoypadRelease`, which are modelled.
- The legacy instruction interpreter at the top of jimbot/src/cpu.rs is not modelled. It sits inside one block comment (lines 1-1925), so it is not compiled.
- `println!` diagnostics are treated as no-ops.
- Integer overflow follows a debug build. An unchecked `+` or `-` that overflows is a panic, never a wrap-around. Release builds wrap instead, and that behaviour is not modelled. There is one exception: the row offset of a vertically flipped sprite (see Findings). The model computes it with the wrapping subtraction, as the corrected member of that row does.
- The instruction chain (`Box<Instruction>` with `next`) is an immutable datatype value held in a CPU field, not a heap object. Aliasing of chain nodes is not modelled; jimbot never shares them.
- Cartridge RAM (`Vec<u8>`) is a `seq` field of fixed length, not a heap array.
- Apu.APU.Cycle: states that NR50-NR52 and every channel's enable flag are kept and that the next cycle still cannot panic. Each channel's own effect is stated by that channel's `Cycle`, not restated here.
- Mmu.MMU.CycleApu: forwards what `Apu.APU.Cycle` states and no more.
- SpritePixelFetcher.SpritePixelFetcher.RowAddress: uses the corrected, wrapping row offset `RowOffset`. jimbot as written panics in a debug build at jimbot/src/ppu/sprite_pixel_fetcher.rs:57 for every vertically flipped sprite; the model draws the row instead. `RowOffsetAsWritten` and `FlippedRowUnderflows` keep the code as written.
- SpritePixelFetcher.SpritePixelFetcher.FetchTileDataLowStage: reads at the corrected `RowAddress`, so it does not panic on a vertically flipped sprite where jimbot as written does. The same holds for `Step` and `Fetch` of the sprite fetcher and for the LCD transfer, which run it.
- Ppu.PPU.Cycle: a panic is tied to the failing unit (`Fails`) only in the state where the call stops, after LY is written. The converse (no panic when the unit's condition holds after that write) is stated only on `Ppu.PPU.RunMode`, because the state between the LY write and the unit's check has no name in a postcondition. In LCD transfer the dot's action (draw, discard, fetch) is named as `NextAction` only on `Ppu.PPU.RunMode` and `Ppu.PPU.Transfer`; here it is a ghost result that the drawn pixel and the sprite buffer follow, because the action is chosen after the dot's LY write, a state this contract cannot name.
- Ppu.PPU.Run: the same as for `Ppu.PPU.Cycle`: the panic implies `Fails` in the final state, and the converse is stated on `Ppu.PPU.RunMode`. In LCD transfer the dot's action (draw, discard, fetch) is named as `NextAction` only on `Ppu.PPU.RunMode` and `Ppu.PPU.Transfer`; here it is a ghost result that the drawn pixel and the sprite buffer follow, because the action is chosen after the dot's LY write, a state this contract cannot name.
- CpuCore.Cpu.Step: states the registers after the executed step as `Executed` of the registers after the fetch, and IF and IE after its write; the rest of the step's bus write (`BusWrote`: memory, cartridge, timer, APU and PPU registers) is stated on `CpuCore.Cpu.Finish` and not carried back across the fetch.
- CpuCore.Cpu.Cycle: the same as for `CpuCore.Cpu.Step`: the executed step's registers, the instruction it hands back and IF and IE after its write are stated; the rest of its bus write only on `CpuCore.Cpu.Finish`.
- Ppu.PPU.Dot: states only that a panic leaves a unit stuck (`Stuck`), for the reason given for `Ppu.PPU.Cycle`. Of `Cycle`'s effects it forwards LY, STAT and IF (`StatusWritten`) and the dot counter; the pixel drawn in LCD transfer and the sprite buffer are stated on `Ppu.PPU.Cycle` only.
- Jimbot.Jimbot.PpuDot: states only that a panic leaves a PPU unit stuck, for the reason given for `Ppu.PPU.Cycle`. Like `Ppu.PPU.Dot`, it states LY, STAT and IF but not the pixel drawn.
- Jimbot.Jimbot.Dot: states the panic exactly only with the display off. With it on, a panic is tied to a device left stuck (`DotStuck`) in the final state, for the reason given for `Ppu.PPU.Cycle`. Of the devices' effects it states the timer's cycle; IF after both the timer and the PPU, the APU's cycle and LY/STAT are stated on `Jimbot.Jimbot.Devices`, `Mmu.MMU.CycleApu` and `Jimbot.Jimbot.PpuDot` and not composed here, because the PPU's dot starts from the IF the timer left.
- Jimbot.Jimbot.Devices: states the timer's cycle and the timer interrupt; the APU's cycle is stated on `Mmu.MMU.CycleApu` (registers and enable flags kept) and `Apu.APU.Cycle`, and here only as the condition for the next cycle.
- Jimbot.Jimbot.Dots: states that a timer that cannot cycle panics, and that a panic leaves a device stuck (`DotStuck`). It does not state that four dots without a stuck device never panic, since the later dots start from states the contract cannot name. For the same reason the four timer, APU and PPU effects are stated per round on `Jimbot.Jimbot.Dot` and not summed: DIV counting up by four, the timer interrupts, the APU and the PPU's LY, STAT, IF and pixels are not stated over the four rounds.
- Jimbot.Jimbot.Step: a panic of the CPU's step (`Panics`) always panics the call. Any other panic is tied to `DotStuck` one way only, as for `Jimbot.Jimbot.Dots`. The CPU's result and registers are stated (`CycleEffect`); its bus write and the four rounds' device effects are not carried to this level, as for `CpuCore.Cpu.Cycle` and `Jimbot.Jimbot.Dots`.
- Jimbot.Jimbot.CpuStep: states the CPU cycle's result and registers (`CycleEffect`); the chain, IF and IE that the interrupt handling starts from are stated on `CpuCore.Cpu.Cycle`, and the rest of the executed step's bus write on `CpuCore.Cpu.Finish`, not here.
- Jimbot.Jimbot.Run: as for `Jimbot.Jimbot.Step`, once no error is latched.
- CpuExecutor.DaaAfterAdd and CpuExecutor.DaaAfterSub: the decimal meaning of DAA is proved for ADD and SUB of two BCD bytes. The ADC and SBC forms and non-BCD operands are covered only by `DaaOut`'s bit-level contract.
- Threads, the desktop and web front ends, and the debuggers are not part of this model.

## Findings

| source | as written | input that shows it | evidently intended | confidence | as-written member | corrected member |
|---|---|---|---|---|---|---|
| jimbot/src/ppu/sprite_pixel_fetcher.rs:57 | the row of a vertically flipped sprite uses the unchecked `ly - sprite.y()`. OAM search only buffers sprites with `y > ly` (jimbot/src/ppu/oam_search.rs:35-36), so it underflows for every flipped sprite it is asked to draw, and a debug build panics | LY = 0 and a sprite with Y = 16, X = 8 and flags 0x40 (Y flip), in 8-pixel-high mode | the wrapping subtraction that the unflipped branch uses, which selects row `(h - 1) - (ly + 16 - y)` because 256 is a multiple of the height | high; not executed | SpritePixelFetcher.FlippedRowUnderflows | SpritePixelFetcher.RowOffsetSelectsLine |
