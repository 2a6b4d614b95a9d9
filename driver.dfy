/*
 * The driver proper: the shadow handle and the API that keeps it and the
 * chip in step.  Every setter is a read-modify-write of shadow words
 * followed by `registerWrite`; every getter refreshes one status register
 * through `getStatus` and extracts a field.  The chip is the function
 * `replies`: the n-th register read the driver makes is answered with
 * `replies(n)`.  The bus is a ghost record of every transaction.
 */
module Driver {
  import opened BitField
  import opened Bus
  import opened Tuning
  import opened RegisterMap
  import Reg02
  import Reg03
  import Reg04
  import Reg05
  import Reg0A
  import Reg0B

  /** The C `BOOL` enum: FALSE = 0, TRUE = 1, MAX = 2. */
  type Flag = x: nat | x < 3

  const FALSE: Flag := 0
  const TRUE: Flag := 1

  /** `static RDA_Handle handle`, together with the chip it talks to. */
  class Radio {
    var reg02: Word
    var reg03: Word
    var reg04: Word
    var reg05: Word
    var reg0A: Word
    var reg0B: Word
    var reg0C: Word
    var reg0D: Word
    var reg0E: Word
    var reg0F: Word
    var currentFrequency: Word
    var currentFMBand: Byte
    var currentFMSpace: Byte
    var currentVolume: Byte

    /** The chip's answer to the driver's n-th register read. */
    const replies: nat -> Reply
    /** How many register reads the chip has answered so far. */
    var served: nat
    /** Every transaction on the bus so far, oldest first. */
    ghost var bus: seq<Transfer>

    /** The band and space codes index the tables, and the volume is a VOLUME value. */
    ghost predicate Valid()
      reads this`currentFMBand, this`currentFMSpace, this`currentVolume
    {
      currentFMBand < 4 && currentFMSpace < 4 && currentVolume <= 15
    }

    /** The status shadow, indexed by SH_REG0A..SH_REG0F. */
    function Status(): seq<Word>
      reads this`reg0A, this`reg0B, this`reg0C, this`reg0D, this`reg0E, this`reg0F
    {
      [reg0A, reg0B, reg0C, reg0D, reg0E, reg0F]
    }

    /** The chip will, at some read still to come, report Seek/Tune Complete. */
    ghost predicate StcPending()
      reads this`served
    {
      exists k :: served <= k && HasStc(replies(k))
    }

    /**
     * The state after `getStatus(reg)` has been answered by the next reply:
     * one read on the bus, and that register's shadow, alone, replaced.
     */
    ghost predicate Refreshed(reg: nat, status0: seq<Word>, served0: nat, bus0: seq<Transfer>)
      requires REG0A <= reg <= REG0F && |status0| == 6
      reads this`reg0A, this`reg0B, this`reg0C, this`reg0D, this`reg0E, this`reg0F, this`served, this`bus
    {
      var w := ReplyWord(replies(served0));
      && served == served0 + 1
      && bus == bus0 + [ReadFrame(reg, replies(served0))]
      && reg0A == (if reg == REG0A then w else status0[SH_REG0A])
      && reg0B == (if reg == REG0B then w else status0[SH_REG0B])
      && reg0C == (if reg == REG0C then w else status0[SH_REG0C])
      && reg0D == (if reg == REG0D then w else status0[SH_REG0D])
      && reg0E == (if reg == REG0E then w else status0[SH_REG0E])
      && reg0F == (if reg == REG0F then w else status0[SH_REG0F])
    }

    /**
     * `getStatus`'s `switch`: a refresh of `reg` replaces the shadow entry
     * at `reg`'s SH_ position by the word the chip sent, and keeps the other five.
     */
    lemma RefreshedShadow(reg: nat, status0: seq<Word>, served0: nat, bus0: seq<Transfer>)
      requires REG0A <= reg <= REG0F && |status0| == 6
      requires Refreshed(reg, status0, served0, bus0)
      ensures Status() == status0[ShadowIndex(reg) := ReplyWord(replies(served0))]
    {
    }

    /**
     * The state after polling register 0x0A from read `from` on: at least one
     * read, the last one the first to report STC, and its word in the shadow.
     */
    ghost predicate StoppedAtStc(from: nat)
      reads this`reg0A, this`served
    {
      && from < served
      && HasStc(replies(served - 1))
      && (forall j :: from <= j < served - 1 ==> !HasStc(replies(j)))
      && reg0A == ReplyWord(replies(served - 1))
    }

    /**
     * The state after `RDA_SetChannel(channel)` from the given earlier state:
     * the tune command in register 0x03 written once, then register 0x0A
     * polled until STC, the other status registers untouched.
     */
    ghost predicate TunedTo(channel: Word, status0: seq<Word>, served0: nat, bus0: seq<Transfer>)
      requires |status0| == 6
      reads this`reg03, this`reg0A, this`reg0B, this`reg0C, this`reg0D, this`reg0E, this`reg0F, this`served, this`bus
    {
      && reg03 == TuneWord(channel)
      && StoppedAtStc(served0)
      && Status()[1..] == status0[1..]
      && bus == bus0 + [WriteFrame(REG03, TuneWord(channel))] + PollTrace(replies, served0, served)
    }

    /** The zero-initialised static handle, before any call. */
    constructor (replies: nat -> Reply)
      ensures this.replies == replies && served == 0 && bus == []
      ensures reg02 == 0 && reg03 == 0 && reg04 == 0 && reg05 == 0
      ensures Status() == [0, 0, 0, 0, 0, 0]
      ensures currentFrequency == 0 && currentFMBand == 0 && currentFMSpace == 0 && currentVolume == 0
      ensures Valid()
    {
      this.replies := replies;
      served := 0;
      bus := [];
      reg02, reg03, reg04, reg05 := 0, 0, 0, 0;
      reg0A, reg0B, reg0C, reg0D, reg0E, reg0F := 0, 0, 0, 0, 0, 0;
      currentFrequency, currentFMBand, currentFMSpace, currentVolume := 0, 0, 0, 0;
    }

    // -------------------------------------------------------------------------
    // Bus transactions.

    /** `registerWrite(reg, value)`: one write frame, and no shadow change. */
    method RegisterWrite(reg: Byte, value: Word)
      modifies this`bus
      ensures bus == old(bus) + [WriteFrame(reg, value)]
    {
      bus := bus + [WriteFrame(reg, value)];
    }

    /**
     * `getStatus(reg)`: outside 0x0A..0x0F nothing happens at all; otherwise
     * the chip's next reply, assembled low byte first, replaces the shadow of
     * `reg` and no other.
     */
    method GetStatus(reg: Byte)
      modifies this`reg0A, this`reg0B, this`reg0C, this`reg0D, this`reg0E, this`reg0F, this`served, this`bus
      ensures !(REG0A <= reg <= REG0F) ==> Status() == old(Status()) && served == old(served) && bus == old(bus)
      ensures REG0A <= reg <= REG0F ==> Refreshed(reg, old(Status()), old(served), old(bus))
    {
      if reg < REG0A || reg > REG0F {
        return;
      }
      var r := replies(served);
      bus := bus + [ReadFrame(reg, r)];
      served := served + 1;
      var temp := ReplyWord(r);
      if reg == REG0A {
        reg0A := temp;
      } else if reg == REG0B {
        reg0B := temp;
      } else if reg == REG0C {
        reg0C := temp;
      } else if reg == REG0D {
        reg0D := temp;
      } else if reg == REG0E {
        reg0E := temp;
      } else {
        reg0F := temp;
      }
    }

    /**
     * `waitAndFinishTune`: read register 0x0A, and again for as long as its
     * STC bit reads 0.
     */
    method WaitAndFinishTune()
      requires StcPending()
      modifies this`reg0A, this`reg0B, this`reg0C, this`reg0D, this`reg0E, this`reg0F, this`served, this`bus
      ensures StoppedAtStc(old(served)) && StcSet(reg0A)
      ensures reg0B == old(reg0B) && reg0C == old(reg0C) && reg0D == old(reg0D)
      ensures reg0E == old(reg0E) && reg0F == old(reg0F)
      ensures bus == old(bus) + PollTrace(replies, old(served), served)
    {
      ghost var k :| served <= k && HasStc(replies(k));
      ghost var start := served;
      GetStatus(REG0A);
      while !StcSet(reg0A)
        invariant start < served <= k + 1
        invariant reg0A == ReplyWord(replies(served - 1))
        invariant forall j :: start <= j < served - 1 ==> !HasStc(replies(j))
        invariant reg0B == old(reg0B) && reg0C == old(reg0C) && reg0D == old(reg0D)
        invariant reg0E == old(reg0E) && reg0F == old(reg0F)
        invariant bus == old(bus) + PollTrace(replies, start, served)
        decreases k + 1 - served
      {
        GetStatus(REG0A);
      }
    }

    // -------------------------------------------------------------------------
    // Tuning.

    /**
     * `RDA_SetChannel(channel)`: CHAN, TUNE, BAND, SPACE and DIRECT_MODE
     * written, the word sent, then the poll for STC.
     */
    method SetChannel(channel: Word)
      requires StcPending()
      modifies this`reg03, this`reg0A, this`reg0B, this`reg0C, this`reg0D, this`reg0E, this`reg0F, this`served, this`bus
      ensures TunedTo(channel, old(Status()), old(served), old(bus))
    {
      ChannelCommand(reg03, channel);
      reg03 := Set(reg03, Reg03.CHAN, channel);
      reg03 := Set(reg03, Reg03.TUNE, 1);
      reg03 := Set(reg03, Reg03.BAND, 0);
      reg03 := Set(reg03, Reg03.SPACE, 0);
      reg03 := Set(reg03, Reg03.DIRECT_MODE, 0);
      RegisterWrite(REG03, reg03);
      WaitAndFinishTune();
    }

    /**
     * `RDA_Tune(frequency)`: the channel of `frequency` in the current band
     * and spacing, tuned; `currentFrequency` is recorded only once the poll
     * has seen STC.
     */
    method Tune(frequency: Word)
      requires Valid() && TuneDefined(frequency, currentFMBand, currentFMSpace)
      requires StcPending()
      modifies this`reg03, this`reg0A, this`reg0B, this`reg0C, this`reg0D, this`reg0E, this`reg0F, this`served, this`bus
      modifies this`currentFrequency
      ensures currentFrequency == frequency
      ensures TunedTo(Channel(frequency, currentFMBand, currentFMSpace), old(Status()), old(served), old(bus))
    {
      var channel: Word := Channel(frequency, currentFMBand, currentFMSpace);
      SetChannel(channel);
      currentFrequency := frequency;
    }

    /**
     * `RDA_ManualDown`: one step up the band, or back to its lower edge from
     * the upper edge or beyond, then tuned there.
     */
    method ManualDown()
      requires Valid() && TuneDefined(DownTarget(currentFrequency, currentFMBand, currentFMSpace), currentFMBand, currentFMSpace)
      requires StcPending()
      modifies this`reg03, this`reg0A, this`reg0B, this`reg0C, this`reg0D, this`reg0E, this`reg0F, this`served, this`bus
      modifies this`currentFrequency
      ensures currentFrequency == DownTarget(old(currentFrequency), currentFMBand, currentFMSpace)
      ensures TunedTo(Channel(currentFrequency, currentFMBand, currentFMSpace), old(Status()), old(served), old(bus))
    {
      if currentFrequency < END_BAND[currentFMBand] {
        currentFrequency := AddStep(currentFrequency, FM_SPACE[currentFMSpace]);
      } else {
        currentFrequency := START_BAND[currentFMBand];
      }
      Tune(currentFrequency);
    }

    /**
     * `RDA_ManualUp`: one step down the band, or round to its upper edge
     * from the lower edge or below, then tuned there.  No precondition on the
     * frequency is needed: the target is always one `RDA_Tune` accepts.
     */
    method ManualUp()
      requires Valid() && StcPending()
      modifies this`reg03, this`reg0A, this`reg0B, this`reg0C, this`reg0D, this`reg0E, this`reg0F, this`served, this`bus
      modifies this`currentFrequency
      ensures currentFrequency == UpTarget(old(currentFrequency), currentFMBand, currentFMSpace)
      ensures TunedTo(Channel(currentFrequency, currentFMBand, currentFMSpace), old(Status()), old(served), old(bus))
    {
      UpTunable(currentFrequency, currentFMBand, currentFMSpace);
      if currentFrequency > START_BAND[currentFMBand] {
        currentFrequency := SubStep(currentFrequency, FM_SPACE[currentFMSpace]);
      } else {
        currentFrequency := END_BAND[currentFMBand];
      }
      Tune(currentFrequency);
    }

    /** `RDA_GetRealChannel`: READCHAN of a fresh read of register 0x0A. */
    method GetRealChannel() returns (channel: nat)
      modifies this`reg0A, this`reg0B, this`reg0C, this`reg0D, this`reg0E, this`reg0F, this`served, this`bus
      ensures Refreshed(REG0A, old(Status()), old(served), old(bus))
      ensures channel == Get(reg0A, Reg0A.READCHAN) && channel < 1024
    {
      GetStatus(REG0A);
      Pow2Table();
      channel := Get(reg0A, Reg0A.READCHAN);
    }

    /** `RDA_GetRealFrequency`: the frequency of the channel the chip reports. */
    method GetRealFrequency() returns (frequency: Word)
      requires Valid()
      modifies this`reg0A, this`reg0B, this`reg0C, this`reg0D, this`reg0E, this`reg0F, this`served, this`bus
      ensures Refreshed(REG0A, old(Status()), old(served), old(bus))
      ensures frequency == RealFrequency(Get(reg0A, Reg0A.READCHAN), currentFMBand, currentFMSpace)
    {
      var channel := GetRealChannel();
      frequency := RealFrequency(channel, currentFMBand, currentFMSpace);
    }

    // -------------------------------------------------------------------------
    // Power and reset.

    /**
     * `RDA_Init`: register 0x02 built from zero (powered up, forced mono,
     * unmuted, output enabled, bass boost, 32.768 kHz crystal) and written,
     * then register 0x05 built from zero (LNAP input, seek threshold 8,
     * volume 0) and written.  `currentVolume` is left as it was.
     */
    method Init()
      modifies this`reg02, this`reg05, this`bus
      ensures reg02 == 0xF001 && Decode(Reg02.LAYOUT, reg02) == [1, 0, 0, 0, 0, 0, 0, 0, 0, 0, 1, 1, 1, 1]
      ensures reg05 == 0x0880 && Decode(Reg05.LAYOUT, reg05) == [0, 0, 2, 8, 0, 0, 0]
      ensures bus == old(bus) + [WriteFrame(REG02, 0xF001), WriteFrame(REG05, 0x0880)]
    {
      reg02 := 0;
      reg02 := Set(reg02, Reg02.NEW_METHOD, 0);
      reg02 := Set(reg02, Reg02.RDS_EN, 0);
      reg02 := Set(reg02, Reg02.CLK_MODE, CLOCK_32K);
      reg02 := Set(reg02, Reg02.RCLK_DIRECT_IN, OSCILLATOR_TYPE_CRYSTAL);
      reg02 := Set(reg02, Reg02.MONO, 1);
      reg02 := Set(reg02, Reg02.DMUTE, 1);
      reg02 := Set(reg02, Reg02.DHIZ, 1);
      reg02 := Set(reg02, Reg02.ENABLE, 1);
      reg02 := Set(reg02, Reg02.BASS, 1);
      reg02 := Set(reg02, Reg02.SEEK, 0);
      InitReg02Word();
      RegisterWrite(REG02, reg02);

      reg05 := 0;
      reg05 := Set(reg05, Reg05.INT_MODE, 0);
      reg05 := Set(reg05, Reg05.LNA_PORT_SEL, 2);
      reg05 := Set(reg05, Reg05.LNA_ICSEL_BIT, 0);
      reg05 := Set(reg05, Reg05.SEEKTH, 8);
      reg05 := Set(reg05, Reg05.VOLUME, 0);
      InitReg05Word();
      RegisterWrite(REG05, reg05);
    }

    /** `RDA_DeInit`: SEEK and ENABLE cleared, register 0x02 written. */
    method DeInit()
      modifies this`reg02, this`bus
      ensures Get(reg02, Reg02.SEEK) == 0 && Get(reg02, Reg02.ENABLE) == 0
      ensures ChangedOnly(old(reg02), reg02, Reg02.LAYOUT, {Reg02.SEEK, Reg02.ENABLE})
      ensures bus == old(bus) + [WriteFrame(REG02, reg02)]
    {
      Reg02.LayoutTiles();
      SetPairInLayout(reg02, Reg02.SEEK, 0, Reg02.ENABLE, 0, Reg02.LAYOUT);
      reg02 := Set(reg02, Reg02.SEEK, 0);
      reg02 := Set(reg02, Reg02.ENABLE, 0);
      RegisterWrite(REG02, reg02);
    }

    /** `RDA_SoftReset`: SOFT_RESET set, register 0x02 written. */
    method SoftReset()
      modifies this`reg02, this`bus
      ensures Get(reg02, Reg02.SOFT_RESET) == 1
      ensures ChangedOnly(old(reg02), reg02, Reg02.LAYOUT, {Reg02.SOFT_RESET})
      ensures bus == old(bus) + [WriteFrame(REG02, reg02)]
    {
      Reg02.LayoutTiles();
      SetInLayout(reg02, Reg02.SOFT_RESET, 1, Reg02.LAYOUT);
      reg02 := Set(reg02, Reg02.SOFT_RESET, 1);
      RegisterWrite(REG02, reg02);
    }

    // -------------------------------------------------------------------------
    // Seek and receiver configuration.

    /**
     * `RDA_Seek(seekMode, direction)`: SEEK set, SKMODE and SEEKUP stored,
     * register 0x02 written; the driver does not wait for the seek.
     */
    method Seek(seekMode: Byte, direction: Byte)
      modifies this`reg02, this`bus
      ensures Get(reg02, Reg02.SEEK) == 1
      ensures Get(reg02, Reg02.SKMODE) == seekMode % 2 && Get(reg02, Reg02.SEEKUP) == direction % 2
      ensures ChangedOnly(old(reg02), reg02, Reg02.LAYOUT, {Reg02.SEEK, Reg02.SKMODE, Reg02.SEEKUP})
      ensures bus == old(bus) + [WriteFrame(REG02, reg02)]
    {
      Reg02.LayoutTiles();
      Pow2Table();
      SetPairInLayout(reg02, Reg02.SEEK, 1, Reg02.SKMODE, seekMode, Reg02.LAYOUT);
      reg02 := Set(reg02, Reg02.SEEK, 1);
      reg02 := Set(reg02, Reg02.SKMODE, seekMode);
      SetInLayout(reg02, Reg02.SEEKUP, direction, Reg02.LAYOUT);
      reg02 := Set(reg02, Reg02.SEEKUP, direction);
      RegisterWrite(REG02, reg02);
    }

    /** `RDA_SetSeekThreshold(value)`: SEEKTH stored, register 0x05 written. */
    method SetSeekThreshold(value: Byte)
      modifies this`reg05, this`bus
      ensures Get(reg05, Reg05.SEEKTH) == value % 16
      ensures ChangedOnly(old(reg05), reg05, Reg05.LAYOUT, {Reg05.SEEKTH})
      ensures bus == old(bus) + [WriteFrame(REG05, reg05)]
    {
      Reg05.LayoutTiles();
      SetInLayout(reg05, Reg05.SEEKTH, value, Reg05.LAYOUT);
      reg05 := Set(reg05, Reg05.SEEKTH, value);
      RegisterWrite(REG05, reg05);
    }

    /** `RDA_SetBand(band)`: BAND stored, register 0x03 written; `currentFMBand` is not updated. */
    method SetBand(band: Byte)
      modifies this`reg03, this`bus
      ensures Get(reg03, Reg03.BAND) == band % 4
      ensures ChangedOnly(old(reg03), reg03, Reg03.LAYOUT, {Reg03.BAND})
      ensures bus == old(bus) + [WriteFrame(REG03, reg03)]
    {
      Reg03.LayoutTiles();
      SetInLayout(reg03, Reg03.BAND, band, Reg03.LAYOUT);
      reg03 := Set(reg03, Reg03.BAND, band);
      RegisterWrite(REG03, reg03);
    }

    /** `RDA_SetSpace(space)`: SPACE stored, register 0x03 written; `currentFMSpace` is not updated. */
    method SetSpace(space: Byte)
      modifies this`reg03, this`bus
      ensures Get(reg03, Reg03.SPACE) == space % 4
      ensures ChangedOnly(old(reg03), reg03, Reg03.LAYOUT, {Reg03.SPACE})
      ensures bus == old(bus) + [WriteFrame(REG03, reg03)]
    {
      Reg03.LayoutTiles();
      SetInLayout(reg03, Reg03.SPACE, space, Reg03.LAYOUT);
      reg03 := Set(reg03, Reg03.SPACE, space);
      RegisterWrite(REG03, reg03);
    }

    /** `RDA_SetSoftMute(value)`: SOFTMUTE_EN stored, register 0x04 written. */
    method SetSoftMute(value: Flag)
      modifies this`reg04, this`bus
      ensures Get(reg04, Reg04.SOFTMUTE_EN) == value % 2
      ensures ChangedOnly(old(reg04), reg04, Reg04.LAYOUT, {Reg04.SOFTMUTE_EN})
      ensures bus == old(bus) + [WriteFrame(REG04, reg04)]
    {
      Reg04.LayoutTiles();
      SetInLayout(reg04, Reg04.SOFTMUTE_EN, value, Reg04.LAYOUT);
      reg04 := Set(reg04, Reg04.SOFTMUTE_EN, value);
      RegisterWrite(REG04, reg04);
    }

    /** `RDA_SetMute(value)`: SEEK cleared, DHIZ set to `!value`, register 0x02 written. */
    method SetMute(value: Flag)
      modifies this`reg02, this`bus
      ensures Get(reg02, Reg02.SEEK) == 0 && Get(reg02, Reg02.DHIZ) == (if value == FALSE then 1 else 0)
      ensures ChangedOnly(old(reg02), reg02, Reg02.LAYOUT, {Reg02.SEEK, Reg02.DHIZ})
      ensures bus == old(bus) + [WriteFrame(REG02, reg02)]
    {
      Reg02.LayoutTiles();
      SetPairInLayout(reg02, Reg02.SEEK, 0, Reg02.DHIZ, if value == FALSE then 1 else 0, Reg02.LAYOUT);
      reg02 := Set(reg02, Reg02.SEEK, 0);
      reg02 := Set(reg02, Reg02.DHIZ, if value == FALSE then 1 else 0);
      RegisterWrite(REG02, reg02);
    }

    /** `RDA_SetMono(value)`: SEEK cleared, MONO stored, register 0x02 written. */
    method SetMono(value: Flag)
      modifies this`reg02, this`bus
      ensures Get(reg02, Reg02.SEEK) == 0 && Get(reg02, Reg02.MONO) == value % 2
      ensures ChangedOnly(old(reg02), reg02, Reg02.LAYOUT, {Reg02.SEEK, Reg02.MONO})
      ensures bus == old(bus) + [WriteFrame(REG02, reg02)]
    {
      Reg02.LayoutTiles();
      SetPairInLayout(reg02, Reg02.SEEK, 0, Reg02.MONO, value, Reg02.LAYOUT);
      reg02 := Set(reg02, Reg02.SEEK, 0);
      reg02 := Set(reg02, Reg02.MONO, value);
      RegisterWrite(REG02, reg02);
    }

    /** `RDA_SetBass(value)`: SEEK cleared, BASS stored, register 0x02 written. */
    method SetBass(value: Flag)
      modifies this`reg02, this`bus
      ensures Get(reg02, Reg02.SEEK) == 0 && Get(reg02, Reg02.BASS) == value % 2
      ensures ChangedOnly(old(reg02), reg02, Reg02.LAYOUT, {Reg02.SEEK, Reg02.BASS})
      ensures bus == old(bus) + [WriteFrame(REG02, reg02)]
    {
      Reg02.LayoutTiles();
      SetPairInLayout(reg02, Reg02.SEEK, 0, Reg02.BASS, value, Reg02.LAYOUT);
      reg02 := Set(reg02, Reg02.SEEK, 0);
      reg02 := Set(reg02, Reg02.BASS, value);
      RegisterWrite(REG02, reg02);
    }

    /** `RDA_SetFMDeEmphasis(deEmphasis)`: DE stored, register 0x04 written. */
    method SetFMDeEmphasis(deEmphasis: Byte)
      modifies this`reg04, this`bus
      ensures Get(reg04, Reg04.DE) == deEmphasis % 2
      ensures ChangedOnly(old(reg04), reg04, Reg04.LAYOUT, {Reg04.DE})
      ensures bus == old(bus) + [WriteFrame(REG04, reg04)]
    {
      Reg04.LayoutTiles();
      SetInLayout(reg04, Reg04.DE, deEmphasis, Reg04.LAYOUT);
      reg04 := Set(reg04, Reg04.DE, deEmphasis);
      RegisterWrite(REG04, reg04);
    }

    /** `RDA_SetRDS(value)`: SEEK cleared, RDS_EN stored, register 0x02 written. */
    method SetRDS(value: Flag)
      modifies this`reg02, this`bus
      ensures Get(reg02, Reg02.SEEK) == 0 && Get(reg02, Reg02.RDS_EN) == value % 2
      ensures ChangedOnly(old(reg02), reg02, Reg02.LAYOUT, {Reg02.SEEK, Reg02.RDS_EN})
      ensures bus == old(bus) + [WriteFrame(REG02, reg02)]
    {
      Reg02.LayoutTiles();
      SetPairInLayout(reg02, Reg02.SEEK, 0, Reg02.RDS_EN, value, Reg02.LAYOUT);
      reg02 := Set(reg02, Reg02.SEEK, 0);
      reg02 := Set(reg02, Reg02.RDS_EN, value);
      RegisterWrite(REG02, reg02);
    }

    /**
     * `RDA_SetRBDS(value)`: SEEK cleared and RDS_EN set, register 0x02
     * written; then RBDS stored and register 0x04 written.
     */
    method SetRBDS(value: Flag)
      modifies this`reg02, this`reg04, this`bus
      ensures Get(reg02, Reg02.SEEK) == 0 && Get(reg02, Reg02.RDS_EN) == 1
      ensures ChangedOnly(old(reg02), reg02, Reg02.LAYOUT, {Reg02.SEEK, Reg02.RDS_EN})
      ensures Get(reg04, Reg04.RBDS) == value % 2
      ensures ChangedOnly(old(reg04), reg04, Reg04.LAYOUT, {Reg04.RBDS})
      ensures bus == old(bus) + [WriteFrame(REG02, reg02), WriteFrame(REG04, reg04)]
    {
      Reg02.LayoutTiles();
      Reg04.LayoutTiles();
      SetPairInLayout(reg02, Reg02.SEEK, 0, Reg02.RDS_EN, 1, Reg02.LAYOUT);
      reg02 := Set(reg02, Reg02.SEEK, 0);
      reg02 := Set(reg02, Reg02.RDS_EN, 1);
      RegisterWrite(REG02, reg02);
      SetInLayout(reg04, Reg04.RBDS, value, Reg04.LAYOUT);
      reg04 := Set(reg04, Reg04.RBDS, value);
      RegisterWrite(REG04, reg04);
    }

    /** `RDA_SetRDSFifo(value)`: RDS_FIFO_EN stored, register 0x04 written. */
    method SetRDSFifo(value: Flag)
      modifies this`reg04, this`bus
      ensures Get(reg04, Reg04.RDS_FIFO_EN) == value % 2
      ensures ChangedOnly(old(reg04), reg04, Reg04.LAYOUT, {Reg04.RDS_FIFO_EN})
      ensures bus == old(bus) + [WriteFrame(REG04, reg04)]
    {
      Reg04.LayoutTiles();
      SetInLayout(reg04, Reg04.RDS_FIFO_EN, value, Reg04.LAYOUT);
      reg04 := Set(reg04, Reg04.RDS_FIFO_EN, value);
      RegisterWrite(REG04, reg04);
    }

    /** `RDA_ClearRDSFifo`: RDS_FIFO_CLR set, register 0x04 written. */
    method ClearRDSFifo()
      modifies this`reg04, this`bus
      ensures Get(reg04, Reg04.RDS_FIFO_CLR) == 1
      ensures ChangedOnly(old(reg04), reg04, Reg04.LAYOUT, {Reg04.RDS_FIFO_CLR})
      ensures bus == old(bus) + [WriteFrame(REG04, reg04)]
    {
      Reg04.LayoutTiles();
      SetInLayout(reg04, Reg04.RDS_FIFO_CLR, 1, Reg04.LAYOUT);
      reg04 := Set(reg04, Reg04.RDS_FIFO_CLR, 1);
      RegisterWrite(REG04, reg04);
    }

    // -------------------------------------------------------------------------
    // Volume.

    /**
     * `RDA_SetVolume(value)`: `value` capped at 15 becomes both VOLUME and
     * `currentVolume`; register 0x05 written.
     */
    method SetVolume(value: Byte)
      modifies this`reg05, this`currentVolume, this`bus
      ensures currentVolume == (if value > 15 then 15 else value)
      ensures old(Valid()) ==> Valid()
      ensures Get(reg05, Reg05.VOLUME) == currentVolume
      ensures ChangedOnly(old(reg05), reg05, Reg05.LAYOUT, {Reg05.VOLUME})
      ensures bus == old(bus) + [WriteFrame(REG05, reg05)]
    {
      var v := if value > 15 then 15 else value;
      Reg05.LayoutTiles();
      Pow2Table();
      SetInLayout(reg05, Reg05.VOLUME, v, Reg05.LAYOUT);
      currentVolume := v;
      reg05 := Set(reg05, Reg05.VOLUME, v);
      RegisterWrite(REG05, reg05);
    }

    /** `RDA_GetVolume`: the cached volume; nothing is read from the chip. */
    method GetVolume() returns (volume: Byte)
      requires Valid()
      ensures volume == currentVolume && volume <= 15
    {
      volume := currentVolume;
    }

    /** `RDA_SetVolumeUp`: one level louder, or nothing at all at 15. */
    method SetVolumeUp()
      requires Valid()
      modifies this`reg05, this`currentVolume, this`bus
      ensures Valid()
      ensures old(currentVolume) >= 15 ==> currentVolume == old(currentVolume) && reg05 == old(reg05) && bus == old(bus)
      ensures old(currentVolume) < 15 ==>
        && currentVolume == old(currentVolume) + 1
        && Get(reg05, Reg05.VOLUME) == currentVolume
        && ChangedOnly(old(reg05), reg05, Reg05.LAYOUT, {Reg05.VOLUME})
        && bus == old(bus) + [WriteFrame(REG05, reg05)]
    {
      if currentVolume < 15 {
        currentVolume := currentVolume + 1;
        SetVolume(currentVolume);
      }
    }

    /** `RDA_SetVolumeDown`: one level quieter, or nothing at all at 0. */
    method SetVolumeDown()
      requires Valid()
      modifies this`reg05, this`currentVolume, this`bus
      ensures Valid()
      ensures old(currentVolume) == 0 ==> currentVolume == 0 && reg05 == old(reg05) && bus == old(bus)
      ensures old(currentVolume) > 0 ==>
        && currentVolume == old(currentVolume) - 1
        && Get(reg05, Reg05.VOLUME) == currentVolume
        && ChangedOnly(old(reg05), reg05, Reg05.LAYOUT, {Reg05.VOLUME})
        && bus == old(bus) + [WriteFrame(REG05, reg05)]
    {
      if currentVolume > 0 {
        currentVolume := currentVolume - 1;
        SetVolume(currentVolume);
      }
    }

    // -------------------------------------------------------------------------
    // Status queries.

    /** `RDA_GetQuality`: RSSI of a fresh read of register 0x0B. */
    method GetQuality() returns (rssi: int)
      modifies this`reg0A, this`reg0B, this`reg0C, this`reg0D, this`reg0E, this`reg0F, this`served, this`bus
      ensures Refreshed(REG0B, old(Status()), old(served), old(bus))
      ensures rssi == Get(reg0B, Reg0B.RSSI) && rssi < 128
    {
      GetStatus(REG0B);
      Pow2Table();
      rssi := Get(reg0B, Reg0B.RSSI);
    }

    /** `RDA_GetSterioStatus`: ST of a fresh read of register 0x0A. */
    method GetStereoStatus() returns (stereo: bool)
      modifies this`reg0A, this`reg0B, this`reg0C, this`reg0D, this`reg0E, this`reg0F, this`served, this`bus
      ensures Refreshed(REG0A, old(Status()), old(served), old(bus))
      ensures stereo == (Get(reg0A, Reg0A.ST) == 1)
    {
      GetStatus(REG0A);
      Pow2Table();
      stereo := Get(reg0A, Reg0A.ST) == 1;
    }

    /** `RDA_GetRDSReady`: RDSR of a fresh read of register 0x0A. */
    method GetRDSReady() returns (ready: bool)
      modifies this`reg0A, this`reg0B, this`reg0C, this`reg0D, this`reg0E, this`reg0F, this`served, this`bus
      ensures Refreshed(REG0A, old(Status()), old(served), old(bus))
      ensures ready == (Get(reg0A, Reg0A.RDSR) == 1)
    {
      GetStatus(REG0A);
      Pow2Table();
      ready := Get(reg0A, Reg0A.RDSR) == 1;
    }

    /** `RDA_GetRDSSync`: RDSS of a fresh read of register 0x0A. */
    method GetRDSSync() returns (synced: bool)
      modifies this`reg0A, this`reg0B, this`reg0C, this`reg0D, this`reg0E, this`reg0F, this`served, this`bus
      ensures Refreshed(REG0A, old(Status()), old(served), old(bus))
      ensures synced == (Get(reg0A, Reg0A.RDSS) == 1)
    {
      GetStatus(REG0A);
      Pow2Table();
      synced := Get(reg0A, Reg0A.RDSS) == 1;
    }

    /** `RDA_GetBlockId`: ABCD_E of a fresh read of register 0x0B. */
    method GetBlockId() returns (blockId: nat)
      modifies this`reg0A, this`reg0B, this`reg0C, this`reg0D, this`reg0E, this`reg0F, this`served, this`bus
      ensures Refreshed(REG0B, old(Status()), old(served), old(bus))
      ensures blockId == Get(reg0B, Reg0B.ABCD_E) && blockId < 2
    {
      GetStatus(REG0B);
      Pow2Table();
      blockId := Get(reg0B, Reg0B.ABCD_E);
    }

    /** `RDA_GetErrorBlockB`: BLERB of a fresh read of register 0x0B. */
    method GetErrorBlockB() returns (errors: nat)
      modifies this`reg0A, this`reg0B, this`reg0C, this`reg0D, this`reg0E, this`reg0F, this`served, this`bus
      ensures Refreshed(REG0B, old(Status()), old(served), old(bus))
      ensures errors == Get(reg0B, Reg0B.BLERB) && errors < 4
    {
      GetStatus(REG0B);
      Pow2Table();
      errors := Get(reg0B, Reg0B.BLERB);
    }

    /**
     * `RDA_GetRDSInfoState`: register 0x0B is read afresh, but RDSS comes
     * from the register 0x0A shadow as it already was.
     */
    method GetRDSInfoState() returns (ready: bool)
      modifies this`reg0A, this`reg0B, this`reg0C, this`reg0D, this`reg0E, this`reg0F, this`served, this`bus
      ensures Refreshed(REG0B, old(Status()), old(served), old(bus)) && reg0A == old(reg0A)
      ensures ready == (Get(old(reg0A), Reg0A.RDSS) == 1 && Get(reg0B, Reg0B.ABCD_E) == 0 && Get(reg0B, Reg0B.BLERB) == 0)
    {
      GetStatus(REG0B);
      ready := Get(reg0A, Reg0A.RDSS) == 1 && Get(reg0B, Reg0B.ABCD_E) == 0 && Get(reg0B, Reg0B.BLERB) == 0;
    }
  }

  /**
   * Whatever register 0x03 held, `RDA_SetChannel(c)` leaves it holding the
   * tune command for channel `c`: the five writes cover every field.
   */
  lemma ChannelCommand(w: Word, c: Word)
    ensures Set(Set(Set(Set(Set(w, Reg03.CHAN, c), Reg03.TUNE, 1), Reg03.BAND, 0), Reg03.SPACE, 0), Reg03.DIRECT_MODE, 0)
      == TuneWord(c)
  {
    Reg03.LayoutTiles();
    Pow2Table();
    var fs := Reg03.LAYOUT;
    var w1 := Set(w, Reg03.CHAN, c);
    SetInLayout(w, Reg03.CHAN, c, fs);
    var w2 := Set(w1, Reg03.TUNE, 1);
    SetInLayout(w1, Reg03.TUNE, 1, fs);
    var w3 := Set(w2, Reg03.BAND, 0);
    SetInLayout(w2, Reg03.BAND, 0, fs);
    var w4 := Set(w3, Reg03.SPACE, 0);
    SetInLayout(w3, Reg03.SPACE, 0, fs);
    var w5 := Set(w4, Reg03.DIRECT_MODE, 0);
    SetInLayout(w4, Reg03.DIRECT_MODE, 0, fs);
    var t := TuneWord(c);
    assert Decode(fs, t) == [0, 0, 1, 0, c % 1024];
    forall f | f in fs
      ensures Get(w5, f) == Get(t, f)
    {
      var i :| 0 <= i < |fs| && fs[i] == f;
      assert Get(t, fs[i]) == Decode(fs, t)[i];
    }
    FieldsDetermineWord(fs, w5, t);
  }

  /** The writes of `RDA_Init` to register 0x02, from zero, give 0xF001. */
  lemma InitReg02Word()
    ensures Set(Set(Set(Set(Set(Set(Set(Set(Set(Set(0,
      Reg02.NEW_METHOD, 0), Reg02.RDS_EN, 0), Reg02.CLK_MODE, CLOCK_32K), Reg02.RCLK_DIRECT_IN, OSCILLATOR_TYPE_CRYSTAL),
      Reg02.MONO, 1), Reg02.DMUTE, 1), Reg02.DHIZ, 1), Reg02.ENABLE, 1), Reg02.BASS, 1), Reg02.SEEK, 0) == 0xF001
    ensures Decode(Reg02.LAYOUT, 0xF001) == [1, 0, 0, 0, 0, 0, 0, 0, 0, 0, 1, 1, 1, 1]
  {
    Pow2Table();
    var w := Set(0, Reg02.NEW_METHOD, 0);
    assert w == 0;
    w := Set(w, Reg02.RDS_EN, 0);
    assert w == 0;
    w := Set(w, Reg02.CLK_MODE, CLOCK_32K);
    assert w == 0;
    w := Set(w, Reg02.RCLK_DIRECT_IN, OSCILLATOR_TYPE_CRYSTAL);
    assert w == 0;
    w := Set(w, Reg02.MONO, 1);
    assert w == 0x2000;
    w := Set(w, Reg02.DMUTE, 1);
    assert w == 0x6000;
    w := Set(w, Reg02.DHIZ, 1);
    assert w == 0xE000;
    w := Set(w, Reg02.ENABLE, 1);
    assert w == 0xE001;
    w := Set(w, Reg02.BASS, 1);
    assert w == 0xF001;
    w := Set(w, Reg02.SEEK, 0);
    assert w == 0xF001;
  }

  /** The writes of `RDA_Init` to register 0x05, from zero, give 0x0880. */
  lemma InitReg05Word()
    ensures Set(Set(Set(Set(Set(0,
      Reg05.INT_MODE, 0), Reg05.LNA_PORT_SEL, 2), Reg05.LNA_ICSEL_BIT, 0), Reg05.SEEKTH, 8), Reg05.VOLUME, 0) == 0x0880
    ensures Decode(Reg05.LAYOUT, 0x0880) == [0, 0, 2, 8, 0, 0, 0]
  {
    Pow2Table();
    var w := Set(0, Reg05.INT_MODE, 0);
    assert w == 0;
    w := Set(w, Reg05.LNA_PORT_SEL, 2);
    assert w == 0x0080;
    w := Set(w, Reg05.LNA_ICSEL_BIT, 0);
    assert w == 0x0080;
    w := Set(w, Reg05.SEEKTH, 8);
    assert w == 0x0880;
    w := Set(w, Reg05.VOLUME, 0);
    assert w == 0x0880;
  }

  /**
   * The board's start-up sequence (`src/main.c:44-47`) on a fresh handle:
   * `RDA_Init`, `RDA_SetBass(TRUE)`, `RDA_SetVolume(15)`, `RDA_Tune(10400)`.
   * Five register writes, then the poll of register 0x0A.
   */
  method BoardStartup(replies: nat -> Reply) returns (radio: Radio)
    requires exists k :: 0 <= k && HasStc(replies(k))
    ensures fresh(radio) && radio.replies == replies
    ensures radio.reg02 == 0xF001 && radio.reg05 == 0x088F && radio.reg03 == 0x2A90
    ensures radio.currentVolume == 15 && radio.currentFrequency == 10400
    ensures radio.StoppedAtStc(0)
    ensures radio.bus == [Write(REG02, 0xF0, 0x01), Write(REG05, 0x08, 0x80), Write(REG02, 0xF0, 0x01),
                          Write(REG05, 0x08, 0x8F), Write(REG03, 0x2A, 0x90)] + PollTrace(replies, 0, radio.served)
  {
    radio := new Radio(replies);
    StartupSettings(radio);
    TuneExample();
    radio.Tune(10400);
    StartupFrames();
  }

  /** `src/main.c:44-46`: `RDA_Init`, `RDA_SetBass(TRUE)` and `RDA_SetVolume(15)`, four register writes. */
  method StartupSettings(radio: Radio)
    modifies radio`reg02, radio`reg05, radio`currentVolume, radio`bus
    ensures radio.reg02 == 0xF001 && radio.reg05 == 0x088F && radio.currentVolume == 15
    ensures radio.bus == old(radio.bus) + [WriteFrame(REG02, 0xF001), WriteFrame(REG05, 0x0880),
                                           WriteFrame(REG02, 0xF001), WriteFrame(REG05, 0x088F)]
  {
    radio.Init();
    ghost var afterInit := radio.bus;
    radio.SetBass(TRUE);
    BassOnInitWord(radio.reg02);
    ghost var afterBass := radio.bus;
    assert afterBass == afterInit + [WriteFrame(REG02, 0xF001)];
    radio.SetVolume(15);
    VolumeOnInitWord(radio.reg05);
    assert radio.bus == afterBass + [WriteFrame(REG05, 0x088F)];
  }

  /** The bytes of the four words the start-up sequence writes. */
  lemma StartupFrames()
    ensures WriteFrame(REG02, 0xF001) == Write(REG02, 0xF0, 0x01)
    ensures WriteFrame(REG05, 0x0880) == Write(REG05, 0x08, 0x80)
    ensures WriteFrame(REG05, 0x088F) == Write(REG05, 0x08, 0x8F)
    ensures WriteFrame(REG03, 0x2A90) == Write(REG03, 0x2A, 0x90)
  {
  }

  /** `RDA_SetBass(TRUE)` right after `RDA_Init` leaves register 0x02 as it was. */
  lemma BassOnInitWord(w: Word)
    requires ChangedOnly(0xF001, w, Reg02.LAYOUT, {Reg02.SEEK, Reg02.BASS})
    requires Get(w, Reg02.SEEK) == 0 && Get(w, Reg02.BASS) == 1
    ensures w == 0xF001
  {
    Reg02.LayoutTiles();
    InitReg02Word();
    forall f | f in Reg02.LAYOUT
      ensures Get(w, f) == Get(0xF001, f)
    {
      var i :| 0 <= i < |Reg02.LAYOUT| && Reg02.LAYOUT[i] == f;
      assert Get(0xF001, Reg02.LAYOUT[i]) == Decode(Reg02.LAYOUT, 0xF001)[i];
    }
    FieldsDetermineWord(Reg02.LAYOUT, w, 0xF001);
  }

  /** `RDA_SetVolume(15)` right after `RDA_Init` turns register 0x05 into 0x088F. */
  lemma VolumeOnInitWord(w: Word)
    requires ChangedOnly(0x0880, w, Reg05.LAYOUT, {Reg05.VOLUME})
    requires Get(w, Reg05.VOLUME) == 15
    ensures w == 0x088F
  {
    Reg05.LayoutTiles();
    InitReg05Word();
    Pow2Table();
    assert Decode(Reg05.LAYOUT, 0x088F) == [15, 0, 2, 8, 0, 0, 0];
    forall f | f in Reg05.LAYOUT
      ensures Get(w, f) == Get(0x088F, f)
    {
      var i :| 0 <= i < |Reg05.LAYOUT| && Reg05.LAYOUT[i] == f;
      assert Get(0x088F, Reg05.LAYOUT[i]) == Decode(Reg05.LAYOUT, 0x088F)[i];
      assert Get(0x0880, Reg05.LAYOUT[i]) == Decode(Reg05.LAYOUT, 0x0880)[i];
    }
    FieldsDetermineWord(Reg05.LAYOUT, w, 0x088F);
  }

  /**
   * The seek selectors are the one-bit values `RDA_Seek` stores: WRAP and
   * DOWN clear SKMODE and SEEKUP, STOP and UP set them.
   */
  lemma SeekCodes(w: Word)
    ensures Get(Set(w, Reg02.SKMODE, RDA_SEEK_WRAP), Reg02.SKMODE) == 0
    ensures Get(Set(w, Reg02.SKMODE, RDA_SEEK_STOP), Reg02.SKMODE) == 1
    ensures Get(Set(w, Reg02.SEEKUP, RDA_SEEK_DOWN), Reg02.SEEKUP) == 0
    ensures Get(Set(w, Reg02.SEEKUP, RDA_SEEK_UP), Reg02.SEEKUP) == 1
  {
  }
}
