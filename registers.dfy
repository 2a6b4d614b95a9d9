/*
 * The register layouts of the RDA5807 header, one module per union.  Each
 * field is written with the offset that LSB-first allocation in declaration
 * order gives it, and each module proves that its offsets are exactly that
 * allocation of the declared widths, and that the widths tile the 16 bits.
 */

/** Register addresses, shadow positions and the selector codes of the header. */
module RegisterMap {
  /** Seven-bit bus addresses of the chip. */
  const I2C_ADDR_DIRECT_ACCESS := 0x11
  const I2C_ADDR_FULL_ACCESS := 0x10

  const REG00 := 0x00
  const REG02 := 0x02
  const REG03 := 0x03
  const REG04 := 0x04
  const REG05 := 0x05
  const REG06 := 0x06
  const REG07 := 0x07
  const REG0A := 0x0A
  const REG0B := 0x0B
  const REG0C := 0x0C
  const REG0D := 0x0D
  const REG0E := 0x0E
  const REG0F := 0x0F

  /** Positions of the read registers 0x0A..0x0F in the status shadow. */
  const SH_REG0A := 0
  const SH_REG0B := 1
  const SH_REG0C := 2
  const SH_REG0D := 3
  const SH_REG0E := 4
  const SH_REG0F := 5

  const OSCILLATOR_TYPE_CRYSTAL := 0
  const OSCILLATOR_TYPE_REFCLK := 1

  /** CLK_MODE codes; 4 is not assigned. */
  const CLOCK_32K := 0
  const CLOCK_12M := 1
  const CLOCK_13M := 2
  const CLOCK_19_2M := 3
  const CLOCK_24M := 5
  const CLOCK_26M := 6
  const CLOCK_38_4M := 7

  const RDS_STANDARD := 0
  const RDS_VERBOSE := 1

  /** BAND codes of register 0x03. */
  const RDA_FM_BAND_USA_EU := 0
  const RDA_FM_BAND_JAPAN_WIDE := 1
  const RDA_FM_BAND_WORLD := 2
  const RDA_FM_BAND_SPECIAL := 3

  /** SKMODE and SEEKUP codes of register 0x02. */
  const RDA_SEEK_WRAP := 0
  const RDA_SEEK_STOP := 1
  const RDA_SEEK_DOWN := 0
  const RDA_SEEK_UP := 1

  /** Each read register 0x0A..0x0F lives at its own shadow position, in address order. */
  function ShadowIndex(reg: nat): nat
    requires REG0A <= reg <= REG0F
  {
    reg - REG0A
  }
}

/** Register 0x02 (`RDA_Reg02`): power-up, reset, clock, seek control, audio switches. */
module Reg02 {
  import opened BitField

  const ENABLE := Field(0, 1)
  const SOFT_RESET := Field(1, 1)
  const NEW_METHOD := Field(2, 1)
  const RDS_EN := Field(3, 1)
  const CLK_MODE := Field(4, 3)
  const SKMODE := Field(7, 1)
  const SEEK := Field(8, 1)
  const SEEKUP := Field(9, 1)
  const RCLK_DIRECT_IN := Field(10, 1)
  const NON_CALIBRATE := Field(11, 1)
  const BASS := Field(12, 1)
  const MONO := Field(13, 1)
  const DMUTE := Field(14, 1)
  const DHIZ := Field(15, 1)

  /** The declared widths, in declaration order. */
  const WIDTHS: seq<nat> := [1, 1, 1, 1, 3, 1, 1, 1, 1, 1, 1, 1, 1, 1]

  const LAYOUT: seq<Field> := [ENABLE, SOFT_RESET, NEW_METHOD, RDS_EN, CLK_MODE, SKMODE, SEEK,
    SEEKUP, RCLK_DIRECT_IN, NON_CALIBRATE, BASS, MONO, DMUTE, DHIZ]

  lemma LayoutIsAllocation()
    ensures LAYOUT == Allocate(WIDTHS, 0) && Sum(WIDTHS) == 16
  {
  }

  lemma WidthsPositive()
    ensures Positive(WIDTHS)
  {
  }

  lemma LayoutTiles()
    ensures Tiles(LAYOUT, 0, 16)
  {
    LayoutIsAllocation();
    WidthsPositive();
    AllocationTiles(LAYOUT, WIDTHS);
  }

  /** Every field is declared `uint8_t`: none of them may cross a byte boundary, and none does. */
  lemma FieldsInOneByte()
    ensures forall f :: f in LAYOUT ==> InOneByte(f)
  {
  }
}

/** Register 0x03 (`RDA_Reg03`): channel spacing, band, tune command, channel number. */
module Reg03 {
  import opened BitField

  const SPACE := Field(0, 2)
  const BAND := Field(2, 2)
  const TUNE := Field(4, 1)
  const DIRECT_MODE := Field(5, 1)
  const CHAN := Field(6, 10)

  const WIDTHS: seq<nat> := [2, 2, 1, 1, 10]

  const LAYOUT: seq<Field> := [SPACE, BAND, TUNE, DIRECT_MODE, CHAN]

  lemma LayoutIsAllocation()
    ensures LAYOUT == Allocate(WIDTHS, 0) && Sum(WIDTHS) == 16
  {
  }

  lemma WidthsPositive()
    ensures Positive(WIDTHS)
  {
  }

  lemma LayoutTiles()
    ensures Tiles(LAYOUT, 0, 16)
  {
    LayoutIsAllocation();
    WidthsPositive();
    AllocationTiles(LAYOUT, WIDTHS);
  }
}

/** Register 0x04 (`RDA_Reg04`): GPIOs, AFC, soft mute, RDS FIFO, de-emphasis, RBDS, interrupt. */
module Reg04 {
  import opened BitField

  const GPIO1 := Field(0, 2)
  const GPIO2 := Field(2, 2)
  const GPIO3 := Field(4, 2)
  const I2S_ENABLE := Field(6, 1)
  const RSVD1 := Field(7, 1)
  const AFCD := Field(8, 1)
  const SOFTMUTE_EN := Field(9, 1)
  const RDS_FIFO_CLR := Field(10, 1)
  const DE := Field(11, 1)
  const RDS_FIFO_EN := Field(12, 1)
  const RBDS := Field(13, 1)
  const STCIEN := Field(14, 1)
  const RSVD2 := Field(15, 1)

  const WIDTHS: seq<nat> := [2, 2, 2, 1, 1, 1, 1, 1, 1, 1, 1, 1, 1]

  const LAYOUT: seq<Field> := [GPIO1, GPIO2, GPIO3, I2S_ENABLE, RSVD1, AFCD, SOFTMUTE_EN,
    RDS_FIFO_CLR, DE, RDS_FIFO_EN, RBDS, STCIEN, RSVD2]

  lemma LayoutIsAllocation()
    ensures LAYOUT == Allocate(WIDTHS, 0) && Sum(WIDTHS) == 16
  {
  }

  lemma WidthsPositive()
    ensures Positive(WIDTHS)
  {
  }

  lemma LayoutTiles()
    ensures Tiles(LAYOUT, 0, 16)
  {
    LayoutIsAllocation();
    WidthsPositive();
    AllocationTiles(LAYOUT, WIDTHS);
  }

  /** Every field is declared `uint8_t`: none of them may cross a byte boundary, and none does. */
  lemma FieldsInOneByte()
    ensures forall f :: f in LAYOUT ==> InOneByte(f)
  {
  }
}

/** Register 0x05 (`RDA_Reg05`): volume, LNA, seek threshold and mode, interrupt mode. */
module Reg05 {
  import opened BitField

  const VOLUME := Field(0, 4)
  const LNA_ICSEL_BIT := Field(4, 2)
  const LNA_PORT_SEL := Field(6, 2)
  const SEEKTH := Field(8, 4)
  const RSVD2 := Field(12, 1)
  const SEEK_MODE := Field(13, 2)
  const INT_MODE := Field(15, 1)

  const WIDTHS: seq<nat> := [4, 2, 2, 4, 1, 2, 1]

  const LAYOUT: seq<Field> := [VOLUME, LNA_ICSEL_BIT, LNA_PORT_SEL, SEEKTH, RSVD2, SEEK_MODE, INT_MODE]

  lemma LayoutIsAllocation()
    ensures LAYOUT == Allocate(WIDTHS, 0) && Sum(WIDTHS) == 16
  {
  }

  lemma WidthsPositive()
    ensures Positive(WIDTHS)
  {
  }

  lemma LayoutTiles()
    ensures Tiles(LAYOUT, 0, 16)
  {
    LayoutIsAllocation();
    WidthsPositive();
    AllocationTiles(LAYOUT, WIDTHS);
  }

  /** Every field is declared `uint8_t`: none of them may cross a byte boundary, and none does. */
  lemma FieldsInOneByte()
    ensures forall f :: f in LAYOUT ==> InOneByte(f)
  {
  }
}

/** Register 0x0A (`RDA_Reg0A`): read-back channel and the seek/tune, stereo and RDS flags. */
module Reg0A {
  import opened BitField

  const READCHAN := Field(0, 10)
  const ST := Field(10, 1)
  const BLK_E := Field(11, 1)
  const RDSS := Field(12, 1)
  const SF := Field(13, 1)
  const STC := Field(14, 1)
  const RDSR := Field(15, 1)

  const WIDTHS: seq<nat> := [10, 1, 1, 1, 1, 1, 1]

  const LAYOUT: seq<Field> := [READCHAN, ST, BLK_E, RDSS, SF, STC, RDSR]

  lemma LayoutIsAllocation()
    ensures LAYOUT == Allocate(WIDTHS, 0) && Sum(WIDTHS) == 16
  {
  }

  lemma WidthsPositive()
    ensures Positive(WIDTHS)
  {
  }

  lemma LayoutTiles()
    ensures Tiles(LAYOUT, 0, 16)
  {
    LayoutIsAllocation();
    WidthsPositive();
    AllocationTiles(LAYOUT, WIDTHS);
  }
}

/** Register 0x0B (`RDA_Reg0B`): RDS block error levels, block id, station flags, RSSI. */
module Reg0B {
  import opened BitField

  const BLERB := Field(0, 2)
  const BLERA := Field(2, 2)
  const ABCD_E := Field(4, 1)
  const RSVD1 := Field(5, 2)
  const FM_READY := Field(7, 1)
  const FM_TRUE := Field(8, 1)
  const RSSI := Field(9, 7)

  const WIDTHS: seq<nat> := [2, 2, 1, 2, 1, 1, 7]

  const LAYOUT: seq<Field> := [BLERB, BLERA, ABCD_E, RSVD1, FM_READY, FM_TRUE, RSSI]

  lemma LayoutIsAllocation()
    ensures LAYOUT == Allocate(WIDTHS, 0) && Sum(WIDTHS) == 16
  {
  }

  lemma WidthsPositive()
    ensures Positive(WIDTHS)
  {
  }

  lemma LayoutTiles()
    ensures Tiles(LAYOUT, 0, 16)
  {
    LayoutIsAllocation();
    WidthsPositive();
    AllocationTiles(LAYOUT, WIDTHS);
  }

  /** Every field is declared `uint8_t`: none of them may cross a byte boundary, and none does. */
  lemma FieldsInOneByte()
    ensures forall f :: f in LAYOUT ==> InOneByte(f)
  {
  }
}
