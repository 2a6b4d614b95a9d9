# RDA5807 FM tuner driver: a verified model

This project models the register-level driver for the RDA5807 single-chip FM
receiver (`RDA_5807/RDA_5807.h`, `RDA_5807/RDA_5807.c`). The driver talks to
the chip over I2C and keeps a shadow of its registers in one static
`RDA_Handle`. The model has three parts:

- **Register codec** (`bitfield.dfy`, `registers.dfy`). Every register is a
  16-bit word split into named bit-fields.
  - `BitField` defines field read (`Get`) and field write (`Set`) as
    arithmetic on a number `0..65535`. It proves the generic laws: read
    after write, other fields untouched, last write wins, and tiling gives
    an encode/decode bijection.
  - Modules `Reg02`, `Reg03`, `Reg04`, `Reg05`, `Reg0A` and `Reg0B` give
    each union's layout. Each proves that its offsets are the LSB-first
    allocation of the declared widths, and that the fields tile all 16 bits.
  - `RegisterMap` holds the addresses and selector codes.
- **Bus and chip** (`bus.dfy`).
  - A write is one `Write(reg, hi, lo)` transfer.
  - A status read is one `Read(reg, first, second)` transfer. The two reply
    bytes become a word low byte first.
  - The chip is a function `replies` from the index of a read to the two
    bytes it answers.
- **Tuning arithmetic** (`tuning.dfy`). The band and spacing tables; the
  channel computed by `RDA_Tune`; the frequency reported by
  `RDA_GetRealFrequency`; the targets of manual stepping. It proves their
  bounds, round trips and edge cases.
- **Driver** (`driver.dfy`). Class `Radio` is the static handle: the shadow
  words `reg02`..`reg05` and `reg0A`..`reg0F`, the four scalars, the reply
  cursor `served`, and a ghost `bus` trace. Every API function is a method.
  Its postcondition gives the new shadow fields, which fields changed, and
  the exact transfers appended to `bus`. `BoardStartup` replays the board's
  start-up sequence from `src/main.c`.

Units: frequencies are in 10 kHz (8700 is 87.00 MHz) and spacings in kHz.
The C `BOOL` enum is `Flag` (FALSE = 0, TRUE = 1, MAX = 2). A `BOOL`
stored into a 1-bit field keeps its value modulo 2.

The model follows the code where the API names, comments or a reader's
expectations point elsewhere:

- `RDA_ManualDown` raises the frequency and `RDA_ManualUp` lowers it.
  Neither clamps at the band edge. Down wraps to the lower edge only from
  the upper edge or beyond. Up wraps to the upper edge only from the lower
  edge or below.
- The channel is truncated, not rounded. The step `spacing / 10.0` is 10,
  20, 5 or 2.5, and each of these is exact in binary. The sums and
  products the driver forms with it are exact too, because they stay below
  2^17. Only the division in `RDA_Tune` is rounded. IEEE division is
  correctly rounded, so an integral quotient comes out exact. A
  non-integral quotient is a multiple of 1/20, and it lies at least 1/20 from
  every integer. The rounding error is far smaller than that, so the
  conversion to `uint16_t` truncates to the same integer as the exact
  quotient would. With 25 kHz spacing a step up adds 2 units and a step
  down subtracts 3.
- `registerWrite` never touches the shadow. Setters update the shadow first,
  then write it.
- `RDA_Tune` records `currentFrequency` only after the STC poll returns.
- `RDA_SetChannel` always writes BAND = 0 and SPACE = 0, so a tune undoes
  an earlier `RDA_SetBand`/`RDA_SetSpace`.
- `currentFMBand` and `currentFMSpace` are never written, so they keep
  their zero initial values. No method's `modifies` clause names them.
- `RDA_GetRDSInfoState` refreshes only register 0x0B. It uses RDSS from the
  cached 0x0A shadow.
- Reading back the channel of a tuned frequency gives a frequency less than
  one spacing below it (`RealFrequencyOfChannel`). It is exact only on the
  channel grid. With 25 kHz spacing, tuning to a read-back frequency can
  select a different channel.
- In the world band at 25 kHz spacing, channels from 101.60 MHz up do not
  fit the 10-bit CHAN field. Such a channel is stored modulo 1024.
- The header's comments on `RDA_SEEK_DOWN`/`RDA_SEEK_UP` are swapped. The
  values (0 = down, 1 = up) agree with the SEEKUP field and the `RDA_Seek`
  parameter documentation, and the model uses the values.

## Model

| member | source | states |
|---|---|---|
| BitField.Get | RDA_5807/RDA_5807.h:125-144 | reading a `width`-bit field gives a value below 2^width |
| BitField.Set | RDA_5807/RDA_5807.h:125-144 | writing v to a field and reading it back gives v mod 2^width; the word stays 16-bit |
| BitField.SetKeepsDisjoint | RDA_5807/RDA_5807.h:125-144 | writing one field leaves every disjoint field's value unchanged |
| BitField.SetOwnValue | RDA_5807/RDA_5807.h:125-144 | writing a field's current value back leaves the word unchanged |
| BitField.SetTwice | RDA_5807/RDA_5807.h:125-144 | of two writes to the same field, only the last counts |
| BitField.TilesDisjoint | RDA_5807/RDA_5807.h:125-144 | fields that tile the word all fit in 16 bits and pairwise share no bit |
| BitField.AllocateTiles | RDA_5807/RDA_5807.h:125-144 | LSB-first allocation of positive widths tiles exactly the bits the widths sum to |
| BitField.AllocationTiles | RDA_5807/RDA_5807.h:125-144 | a layout allocated from positive widths summing to 16 tiles the word |
| BitField.FieldsDetermineWord | RDA_5807/RDA_5807.h:182-192 | two words that agree on every field of a tiling layout are equal: no bit is outside a field |
| BitField.DecodeEncode | RDA_5807/RDA_5807.h:182-192 | encoding in-range field values and decoding the word returns exactly those values |
| BitField.EncodeDecode | RDA_5807/RDA_5807.h:182-192 | decoding a word and encoding its fields returns the word |
| BitField.SetInLayout | RDA_5807/RDA_5807.h:201-237 | a field write in a tiled layout sets that field to v mod 2^width and changes no other field |
| BitField.SetPairInLayout | RDA_5807/RDA_5807.h:125-144 | two writes to different fields set both and change no third field |
| Reg02.LayoutIsAllocation | RDA_5807/RDA_5807.h:125-144 | the Reg02 offsets are the LSB-first allocation of widths 1,1,1,1,3,1,1,1,1,1,1,1,1,1 summing to 16 |
| Reg02.LayoutTiles | RDA_5807/RDA_5807.h:125-144 | the fourteen Reg02 fields tile bits 0..15 |
| Reg02.FieldsInOneByte | RDA_5807/RDA_5807.h:125-144 | no `uint8_t` field of Reg02 crosses a byte boundary |
| Reg03.LayoutIsAllocation | RDA_5807/RDA_5807.h:182-192 | SPACE 0-1, BAND 2-3, TUNE 4, DIRECT_MODE 5, CHAN 6-15 is the allocation of widths 2,2,1,1,10 |
| Reg03.LayoutTiles | RDA_5807/RDA_5807.h:182-192 | the Reg03 fields tile bits 0..15 |
| Reg04.LayoutIsAllocation | RDA_5807/RDA_5807.h:201-219 | the Reg04 offsets (AFCD 8 … STCIEN 14) are the allocation of its widths, summing to 16 |
| Reg04.LayoutTiles | RDA_5807/RDA_5807.h:201-219 | the Reg04 fields tile bits 0..15 |
| Reg04.FieldsInOneByte | RDA_5807/RDA_5807.h:201-219 | no `uint8_t` field of Reg04 crosses a byte boundary |
| Reg05.LayoutIsAllocation | RDA_5807/RDA_5807.h:225-237 | VOLUME 0-3, LNA_ICSEL_BIT 4-5, LNA_PORT_SEL 6-7, SEEKTH 8-11, SEEK_MODE 13-14, INT_MODE 15 is the allocation of its widths |
| Reg05.LayoutTiles | RDA_5807/RDA_5807.h:225-237 | the Reg05 fields tile bits 0..15 |
| Reg05.FieldsInOneByte | RDA_5807/RDA_5807.h:225-237 | no `uint8_t` field of Reg05 crosses a byte boundary |
| Reg0A.LayoutIsAllocation | RDA_5807/RDA_5807.h:325-337 | READCHAN 0-9, ST 10, BLK_E 11, RDSS 12, SF 13, STC 14, RDSR 15 is the allocation of its widths |
| Reg0A.LayoutTiles | RDA_5807/RDA_5807.h:325-337 | the Reg0A fields tile bits 0..15 |
| Reg0B.LayoutIsAllocation | RDA_5807/RDA_5807.h:354-366 | BLERB 0-1, BLERA 2-3, ABCD_E 4, RSVD1 5-6, FM_READY 7, FM_TRUE 8, RSSI 9-15 is the allocation of its widths |
| Reg0B.LayoutTiles | RDA_5807/RDA_5807.h:354-366 | the Reg0B fields tile bits 0..15 |
| Reg0B.FieldsInOneByte | RDA_5807/RDA_5807.h:354-366 | no `uint8_t` field of Reg0B crosses a byte boundary |
| Bus.WriteFrame | RDA_5807/RDA_5807.c:169-177 | a register write sends the register number, then a high and a low byte that together are the value |
| Bus.WriteFrameBytes | RDA_5807/RDA_5807.c:169-177 | a frame with bytes hi, lo is the write of a value exactly when hi * 256 + lo is that value, so the frame determines the value and the value the frame |
| Bus.ReplyWord | RDA_5807/RDA_5807.c:132-158 | the first byte received is the low byte of the word and the second the high byte |
| Bus.ReplyWordRoundTrip | RDA_5807/RDA_5807.c:53-60 | assembling reply bytes into a word is a bijection |
| Bus.StcSetIsField | RDA_5807/RDA_5807.c:245 | the loop's STC test is the STC field of the Reg0A layout |
| Bus.HasStcBit | RDA_5807/RDA_5807.h:325-337 | STC is set exactly when bit 6 of the second reply byte is set |
| Bus.PollTrace | RDA_5807/RDA_5807.c:236-246 | polling replies lo..hi leaves hi - lo reads on the bus |
| Bus.PollTraceAt | RDA_5807/RDA_5807.c:236-246 | the i-th read of a poll carries the i-th reply of the poll |
| Tuning.TruncDiv | RDA_5807/RDA_5807.c:329 | the converted quotient truncates toward zero, and is non-negative exactly when the numerator exceeds minus the divisor |
| Tuning.Channel | RDA_5807/RDA_5807.c:329 | for f at or above the band start, c spacings fit in f - start and c + 1 do not; c >= 0 exactly when the exact quotient exceeds -1; c fits a uint16_t |
| Tuning.TuneWord | RDA_5807/RDA_5807.c:310-316 | (c mod 1024) * 64 + 16 decodes to SPACE 0, BAND 0, TUNE 1, DIRECT_MODE 0, CHAN c mod 1024 |
| Tuning.TuneWordFields | RDA_5807/RDA_5807.h:182-192 | c * 64 + 16 for c < 1024 decodes to the fields 0, 0, 1, 0, c |
| Tuning.RealFrequency | RDA_5807/RDA_5807.c:391-394 | the reported frequency is the band start plus c spacings, truncated to 10 kHz units |
| Tuning.AddStep | RDA_5807/RDA_5807.c:343 | `f += spacing / 10.0` stores the exact sum truncated |
| Tuning.SubStep | RDA_5807/RDA_5807.c:361 | `f -= spacing / 10.0` stores the exact difference truncated |
| Tuning.StepSizes | RDA_5807/RDA_5807.c:343-361 | from any frequency of at least 20 units, the steps are +10/-10, +20/-20 and +5/-5 for 100, 200 and 50 kHz; at 25 kHz a step adds 2 and subtracts 3 |
| Tuning.DownTarget | RDA_5807/RDA_5807.c:341-348 | below the upper edge it moves up by one truncated step and passes the edge by less than one spacing; otherwise it goes to the lower edge |
| Tuning.UpTarget | RDA_5807/RDA_5807.c:359-366 | above the lower edge it moves down by one truncated step; otherwise it goes to the upper edge |
| Tuning.DownTunable | RDA_5807/RDA_5807.c:339-350 | from any frequency at or above the band start, the down target is one `RDA_Tune` accepts |
| Tuning.DownFromZeroUndefined | RDA_5807/RDA_5807.c:339-350 | from frequency 0 the down target makes `RDA_Tune` store a negative channel |
| Tuning.UpTunable | RDA_5807/RDA_5807.c:357-368 | the up target is always one `RDA_Tune` accepts |
| Tuning.UpAfterDown | RDA_5807/RDA_5807.c:339-368 | inside a band, up after down returns to f for 100, 200 and 50 kHz, and to f - 1 for 25 kHz |
| Tuning.DownAfterUp | RDA_5807/RDA_5807.c:339-368 | above the lower edge, down after up returns to f for 100, 200 and 50 kHz, and to f - 1 for 25 kHz |
| Tuning.ChannelFitsChan | RDA_5807/RDA_5807.h:182-192 | every in-band frequency's channel is 0..1023 except in the world band at 25 kHz |
| Tuning.ChannelOverflowsChan | RDA_5807/RDA_5807.h:182-192 | world band at 25 kHz: the channel fits CHAN exactly below 101.60 MHz, and 108.00 MHz is channel 1280, stored as 256 |
| Tuning.RealFrequencyOfChannel | RDA_5807/RDA_5807.h:174-178 | the read-back frequency of a tuned channel is at or below f and less than one spacing below it |
| Tuning.RealFrequencyOnGrid | RDA_5807/RDA_5807.h:473-477 | a tuned frequency is read back exactly if and only if it lies on the channel grid of its band |
| Tuning.ChannelOfRealFrequency | RDA_5807/RDA_5807.c:329 | for 100, 200 and 50 kHz, tuning to a channel's reported frequency selects that channel again |
| Tuning.ChannelOfRealFrequencyLossy | RDA_5807/RDA_5807.c:393 | at 25 kHz in band 3, channel 1 reports 65.02 MHz, which tunes to channel 0 |
| Tuning.TuneExample | src/main.c:47 | 104.00 MHz at band 0 and 100 kHz is channel 170, word 0x2A90, read back as 104.00 MHz |
| Tuning.BandAndSpaceCodes | RDA_5807/RDA_5807.c:7-9 | the band codes index edges 87.0-108.0, 76.0-91.0, 76.0-108.0 and 65.0-76.0 MHz; channel 0 is the band base; SPACE codes are 100/200/50/25 kHz |
| Driver.Radio.constructor | RDA_5807/RDA_5807.c:51 | the static handle starts with every register and scalar 0 and an empty bus |
| Driver.Radio.RegisterWrite | RDA_5807/RDA_5807.c:169-181 | one write frame goes on the bus; no other state changes |
| Driver.Radio.GetStatus | RDA_5807/RDA_5807.c:190-230 | outside 0x0A..0x0F: no bus traffic and no shadow change; otherwise one read, and only that register's shadow takes the next reply |
| Driver.Radio.RefreshedShadow | RDA_5807/RDA_5807.c:207-229 | after a refresh of register reg, the status shadow is the old one with only entry SH_REG(reg) replaced by the received word |
| Driver.Radio.WaitAndFinishTune | RDA_5807/RDA_5807.c:236-246 | register 0x0A is read at least once, and reading stops at the first reply with STC set; that word is in the shadow; registers 0x0B..0x0F are unchanged; the bus holds exactly those reads |
| Driver.Radio.SetChannel | RDA_5807/RDA_5807.c:310-319 | whatever register 0x03 held, it becomes the tune command for the channel; it is written once, then polled to STC |
| Driver.Radio.Tune | RDA_5807/RDA_5807.c:327-332 | register 0x03 gets the command for the channel of f in the current band and spacing; the poll ends at STC; `currentFrequency` becomes f |
| Driver.Radio.ManualDown | RDA_5807/RDA_5807.c:339-350 | `currentFrequency` becomes its down target, and that frequency is tuned |
| Driver.Radio.ManualUp | RDA_5807/RDA_5807.c:357-368 | `currentFrequency` becomes its up target, and that frequency is tuned without any precondition on the starting frequency |
| Driver.Radio.GetRealChannel | RDA_5807/RDA_5807.c:375-379 | one fresh read of 0x0A; the result is its READCHAN, below 1024 |
| Driver.Radio.GetRealFrequency | RDA_5807/RDA_5807.c:391-394 | one fresh read of 0x0A; the result is the frequency of its READCHAN in the current band and spacing |
| Driver.Radio.Init | RDA_5807/RDA_5807.c:253-279 | register 0x02 becomes 0xF001 (ENABLE, BASS, MONO, DMUTE, DHIZ set, all else 0) and is written, then register 0x05 becomes 0x0880 (LNA_PORT_SEL 2, SEEKTH 8, all else 0) and is written; `currentVolume` is untouched |
| Driver.Radio.DeInit | RDA_5807/RDA_5807.c:286-291 | SEEK and ENABLE are cleared, every other Reg02 field is kept, and register 0x02 is written |
| Driver.Radio.SoftReset | RDA_5807/RDA_5807.c:298-302 | SOFT_RESET is set, nothing else in Reg02 changes, and register 0x02 is written |
| Driver.Radio.Seek | RDA_5807/RDA_5807.c:403-409 | SEEK = 1, SKMODE and SEEKUP take the arguments mod 2, nothing else changes; one write and no poll |
| Driver.Radio.SetSeekThreshold | RDA_5807/RDA_5807.c:417-421 | SEEKTH takes the value mod 16, nothing else in Reg05 changes, and register 0x05 is written |
| Driver.Radio.SetBand | RDA_5807/RDA_5807.c:435-439 | BAND takes the value mod 4 and nothing else in Reg03 changes; `currentFMBand` is unchanged |
| Driver.Radio.SetSpace | RDA_5807/RDA_5807.c:453-457 | SPACE takes the value mod 4 and nothing else in Reg03 changes; `currentFMSpace` is unchanged |
| Driver.Radio.SetSoftMute | RDA_5807/RDA_5807.c:478-482 | SOFTMUTE_EN takes the value mod 2, nothing else in Reg04 changes, and register 0x04 is written |
| Driver.Radio.SetMute | RDA_5807/RDA_5807.c:490-495 | SEEK is cleared and DHIZ is 1 exactly when the argument is FALSE; nothing else changes |
| Driver.Radio.SetMono | RDA_5807/RDA_5807.c:503-508 | SEEK is cleared, MONO takes the value mod 2, and nothing else changes |
| Driver.Radio.SetBass | RDA_5807/RDA_5807.c:516-521 | SEEK is cleared, BASS takes the value mod 2, and nothing else changes |
| Driver.Radio.SetFMDeEmphasis | RDA_5807/RDA_5807.c:593-597 | DE takes the value mod 2, nothing else in Reg04 changes, and register 0x04 is written |
| Driver.Radio.SetRDS | RDA_5807/RDA_5807.c:605-610 | SEEK is cleared, RDS_EN takes the value mod 2, and nothing else changes |
| Driver.Radio.SetRBDS | RDA_5807/RDA_5807.c:618-626 | SEEK is cleared and RDS_EN is set, then register 0x02 is written; RBDS takes the value mod 2, then register 0x04 is written; nothing else changes |
| Driver.Radio.SetRDSFifo | RDA_5807/RDA_5807.c:694-698 | RDS_FIFO_EN takes the value mod 2, nothing else in Reg04 changes, and register 0x04 is written |
| Driver.Radio.ClearRDSFifo | RDA_5807/RDA_5807.c:705-709 | RDS_FIFO_CLR is set, nothing else in Reg04 changes, and register 0x04 is written |
| Driver.Radio.SetVolume | RDA_5807/RDA_5807.c:541-546 | VOLUME and `currentVolume` both become min(value, 15); the other Reg05 fields are kept; register 0x05 is written |
| Driver.Radio.GetVolume | RDA_5807/RDA_5807.c:554-557 | the result is the cached `currentVolume`, at most 15, and nothing is read from the chip |
| Driver.Radio.SetVolumeUp | RDA_5807/RDA_5807.c:564-571 | at 15 nothing changes and nothing is written; otherwise volume + 1 goes to both VOLUME and `currentVolume`, with one write |
| Driver.Radio.SetVolumeDown | RDA_5807/RDA_5807.c:578-585 | at 0 nothing changes and nothing is written; otherwise volume - 1 goes to both VOLUME and `currentVolume`, with one write |
| Driver.Radio.GetQuality | RDA_5807/RDA_5807.c:466-470 | one fresh read of 0x0B; the result is its RSSI, below 128 |
| Driver.Radio.GetStereoStatus | RDA_5807/RDA_5807.c:529-533 | one fresh read of 0x0A; the result is whether ST is set |
| Driver.Radio.GetRDSReady | RDA_5807/RDA_5807.c:634-638 | one fresh read of 0x0A; the result is whether RDSR is set |
| Driver.Radio.GetRDSSync | RDA_5807/RDA_5807.c:646-650 | one fresh read of 0x0A; the result is whether RDSS is set |
| Driver.Radio.GetBlockId | RDA_5807/RDA_5807.c:658-662 | one fresh read of 0x0B; the result is its ABCD_E |
| Driver.Radio.GetErrorBlockB | RDA_5807/RDA_5807.c:670-674 | one fresh read of 0x0B; the result is its BLERB |
| Driver.Radio.GetRDSInfoState | RDA_5807/RDA_5807.c:682-686 | only 0x0B is read; the result is cached RDSS = 1, ABCD_E = 0 and BLERB = 0 |
| Driver.ChannelCommand | RDA_5807/RDA_5807.c:312-316 | the five field writes of `RDA_SetChannel` give the tune word whatever register 0x03 held |
| Driver.InitReg02Word | RDA_5807/RDA_5807.c:259-269 | the Init writes to register 0x02 from zero give 0xF001, which decodes to ENABLE, BASS, MONO, DMUTE and DHIZ set |
| Driver.InitReg05Word | RDA_5807/RDA_5807.c:272-277 | the Init writes to register 0x05 from zero give 0x0880, which decodes to LNA_PORT_SEL 2 and SEEKTH 8 |
| Driver.BassOnInitWord | RDA_5807/RDA_5807.c:516-521 | `RDA_SetBass(TRUE)` right after Init leaves 0xF001 unchanged |
| Driver.VolumeOnInitWord | RDA_5807/RDA_5807.c:541-546 | `RDA_SetVolume(15)` right after Init turns 0x0880 into 0x088F |
| Driver.BoardStartup | src/main.c:44-47 | the board sequence writes 0xF001 to 0x02, 0x0880 then 0x088F to 0x05, and 0x2A90 to 0x03, with an extra 0x02 write between, then polls to STC; it ends at 104.00 MHz and volume 15 |
| Driver.StartupSettings | src/main.c:44-46 | Init, SetBass(TRUE) and SetVolume(15) leave 0xF001 in register 0x02, 0x088F in register 0x05 and volume 15, after four writes: 0xF001, 0x0880, 0xF001, 0x088F |
| Driver.SeekCodes | RDA_5807/RDA_5807.h:41-44 | SEEK_WRAP and SEEK_DOWN store 0, and SEEK_STOP and SEEK_UP store 1, in SKMODE and SEEKUP |

## Left out

- I2C transport (`I2C_Start`, `I2C_Write`, `I2C_Read`, `I2C_Stop`). These are
  foreign calls that busy-wait on peripheral flags. A write is one `Write`
  transfer. `getStatus` makes two I2C transactions: a pointer write of the
  register number, then a two-byte read. The model records them as one
  `Read` transfer. The 7-bit bus address (always the direct-access address 0x11)
  and the START/STOP/ACK handshakes are not recorded.
- SysTick delays (`Delay_Init`, `getMillis`, `Delay`, `SysTick_Handler` and
  the `Delay` calls). These are timer and interrupt code with no effect on
  the modelled state.
- When the chip sets STC and what it reports in status registers. These are
  hardware behaviour: the `replies` function stands for them.
- Driver.Radio.WaitAndFinishTune: requires that some future reply has STC set.
  The C loop waits forever otherwise; here termination must be proved.
- Floating-point arithmetic. It is replaced by the exact integer arithmetic
  it computes, as argued above.
- `RDA_Tune` on a frequency whose exact channel is -1 or less converts a
  negative double to `uint16_t`, which is undefined behaviour. `Tune` and
  `ManualDown` require that this does not happen (`TuneDefined`).
- Registers `Reg00`, `Reg01`, `Reg06`, `Reg07` and `Reg08`. The driver never
  reads or writes them.
- The RDS block words 0x0C-0x0F. They are kept as opaque words and never
  decoded.
- `src/main.c`. The GPIO, LED and I2C peripheral set-up and the idle loop
  are board wiring. Only its four driver calls are modelled, as
  `BoardStartup`.
- Bit-field allocation and the `wordToByte` union are implementation-defined
  C. The model assumes LSB-first allocation in declaration order and a
  little-endian union. It proves that no `uint8_t` field straddles a byte.
- Driver.Radio.SetVolumeUp: requires `Valid()` (`currentVolume <= 15`),
  which the code keeps.
- Driver.Radio.SetVolumeDown: requires `Valid()`, which the code keeps.
- Driver.Radio.GetVolume: requires `Valid()`, which the code keeps.
  `RDA_SetVolume` caps `currentVolume` at 15. The `++` in
  `RDA_SetVolumeUp` is guarded by `< 15`, and the `--` in
  `RDA_SetVolumeDown` by `> 0`. The three volume setters each preserve
  `Valid()`.
- Driver.Radio.Tune: requires `Valid()`, because the band and space tables
  are indexed by `currentFMBand` and `currentFMSpace`. These are never
  written, so they stay 0.
- Driver.Radio.ManualDown: requires `Valid()`, for the same table lookups.
- Driver.Radio.ManualUp: requires `Valid()`, for the same table lookups.
- Driver.Radio.GetRealFrequency: requires `Valid()`, for the same table
  lookups.
