/*
 * The frequency and channel arithmetic of the driver.  Frequencies are in
 * units of 10 kHz (8700 is 87.00 MHz) and channel spacings in kHz, so one
 * channel step is `spacing / 10` frequency units.  The driver computes
 * with `double` and stores the result in a `uint16_t`, truncating toward
 * zero.  The step `spacing / 10.0` is 10, 20, 5 or 2.5, each exact in
 * binary, and so are the sums and products with it that the driver forms
 * (all below 2^17).  Only the quotient `n / step` is rounded: IEEE
 * division is correctly rounded, so an integral quotient comes out exact,
 * and a non-integral one (a multiple of 1/20) lies at least 1/20 from every
 * integer, far more than the relative 2^-53 rounding error, so truncating
 * the double gives the truncated exact quotient.  The functions here are
 * that exact arithmetic.
 */
module Tuning {
  import opened Arith
  import opened BitField
  import Reg03
  import opened RegisterMap

  /** Lower band edges, indexed by the BAND code. */
  const START_BAND: seq<int> := [8700, 7600, 7600, 6500]

  /** Upper band edges, indexed by the BAND code. */
  const END_BAND: seq<int> := [10800, 9100, 10800, 7600]

  /** Channel spacing in kHz, indexed by the SPACE code. */
  const FM_SPACE: seq<int> := [100, 200, 50, 25]

  /** A BAND or SPACE code: an index into the tables. */
  type Code = x: nat | x < 4

  /** Euclidean division of a non-negative number: the quotient is the number of whole `d`s. */
  lemma DivBounds(n: int, d: int)
    requires 0 <= n && 0 < d
    ensures 0 <= n / d && (n / d) * d <= n < (n / d) * d + d
    ensures n / d == 0 <==> n < d
  {
    assert n == (n / d) * d + n % d;
    if n < d {
      ModSmall(n, d);
    } else {
      DivLess(n, d, n / d + 1);
      MulLe(0, n / d, d);
    }
  }

  /** C's conversion of a quotient to an integer: division truncating toward zero. */
  function TruncDiv(n: int, d: int): (q: int)
    requires d > 0
    ensures n >= 0 ==> 0 <= q && q * d <= n < q * d + d
    ensures n < 0 ==> q <= 0 && n <= q * d < n + d
    ensures q >= 0 <==> n + d > 0
  {
    if n >= 0 then DivBounds(n, d); n / d
    else DivBounds(-n, d); -((-n) / d)
  }

  /**
   * The channel `RDA_Tune(f)` selects (`:329`): how many spacings above the
   * band's lower edge `f` lies, truncated.  It is a non-negative integer,
   * and so a defined store into a `uint16_t`, exactly when the exact
   * quotient exceeds -1.
   */
  function Channel(f: int, b: Code, s: Code): (c: int)
    ensures f >= START_BAND[b] ==> c >= 0 && c * FM_SPACE[s] <= (f - START_BAND[b]) * 10 < (c + 1) * FM_SPACE[s]
    ensures c >= 0 <==> (f - START_BAND[b]) * 10 + FM_SPACE[s] > 0
    ensures f < 0x1_0000 ==> c < 0x1_0000
  {
    var n, d := (f - START_BAND[b]) * 10, FM_SPACE[s];
    var c := TruncDiv(n, d);
    assert f < 0x1_0000 ==> c < 0x1_0000 by {
      if f < 0x1_0000 && c > 0 {
        MulLe(25, d, c);
      }
    }
    c
  }

  /** `RDA_Tune(f)` converts a non-negative value: the only `f` it is defined for. */
  predicate TuneDefined(f: int, b: Code, s: Code) {
    Channel(f, b, s) >= 0
  }

  /**
   * Register 0x03 as `RDA_SetChannel(c)` leaves it (`:312-316`): CHAN holds
   * `c` modulo 2^10, TUNE is set, and BAND, SPACE and DIRECT_MODE are 0.
   */
  function TuneWord(c: Word): (w: Word)
    ensures Decode(Reg03.LAYOUT, w) == [0, 0, 1, 0, c % 1024]
  {
    var w := (c % 1024) * 64 + 16;
    TuneWordFields(c % 1024);
    w
  }

  /** The five fields of `(c * 64) + 16`, one digit at a time. */
  lemma TuneWordFields(c: nat)
    requires c < 1024
    ensures (c * 64 + 16) < 0x1_0000
    ensures Decode(Reg03.LAYOUT, c * 64 + 16) == [0, 0, 1, 0, c]
  {
    var w := c * 64 + 16;
    Pow2Table();
    assert w == ((c * 16 + 4) * 4 + 0) * 1 + 0;
    ComposeDigits(c * 16 + 4, 0, 0, 1, 4);
    assert w == ((c * 4 + 1) * 4 + 0) * 4 + 0;
    ComposeDigits(c * 4 + 1, 0, 0, 4, 4);
    assert w == ((c * 2) * 2 + 1) * 16 + 0;
    ComposeDigits(c * 2, 1, 0, 16, 2);
    assert w == (c * 2 + 0) * 32 + 16;
    ComposeDigits(c, 0, 16, 32, 2);
    assert w == (0 * 1024 + c) * 64 + 16;
    ComposeDigits(0, c, 16, 64, 1024);
  }

  /**
   * The frequency `RDA_GetRealFrequency` reports for channel `c`
   * (`:393`): `c` spacings above the band's lower edge, truncated to
   * 10 kHz units.
   */
  function RealFrequency(c: nat, b: Code, s: Code): (f: Word)
    requires c < 1024
    ensures f >= START_BAND[b]
    ensures (f - START_BAND[b]) * 10 <= c * FM_SPACE[s] < (f - START_BAND[b]) * 10 + 10
  {
    MulLe(c, 1023, FM_SPACE[s]);
    c * FM_SPACE[s] / 10 + START_BAND[b]
  }

  // ---------------------------------------------------------------------------
  // Manual stepping (`RDA_ManualDown` / `RDA_ManualUp`).

  /** `f += spacing / 10.0` stored back into the `uint16_t`: the exact sum, truncated. */
  function AddStep(f: nat, sp: nat): (r: nat)
    ensures r * 10 <= f * 10 + sp < r * 10 + 10
  {
    f + sp / 10
  }

  /** `f -= spacing / 10.0` stored back into the `uint16_t`: the exact difference, truncated. */
  function SubStep(f: nat, sp: nat): (r: nat)
    requires sp <= f * 10
    ensures r * 10 <= f * 10 - sp < r * 10 + 10
  {
    f - (sp + 9) / 10
  }

  /** The step sizes: 100, 200 and 50 kHz are whole units; 25 kHz adds 2 and subtracts 3. */
  lemma StepSizes(f: nat)
    requires f >= 20
    ensures AddStep(f, FM_SPACE[0]) == f + 10 && SubStep(f, FM_SPACE[0]) == f - 10
    ensures AddStep(f, FM_SPACE[1]) == f + 20 && SubStep(f, FM_SPACE[1]) == f - 20
    ensures AddStep(f, FM_SPACE[2]) == f + 5 && SubStep(f, FM_SPACE[2]) == f - 5
    ensures AddStep(f, FM_SPACE[3]) == f + 2 && SubStep(f, FM_SPACE[3]) == f - 3
  {
  }

  /**
   * The frequency `RDA_ManualDown` tunes to (`:341-348`): one step up while
   * below the band's upper edge, otherwise back to the lower edge.
   */
  function DownTarget(f: Word, b: Code, s: Code): (t: Word)
    ensures f < END_BAND[b] ==> f < t && t * 10 <= f * 10 + FM_SPACE[s] < t * 10 + 10
    ensures f < END_BAND[b] ==> t * 10 < END_BAND[b] * 10 + FM_SPACE[s]
    ensures f >= END_BAND[b] ==> t == START_BAND[b]
  {
    if f < END_BAND[b] then AddStep(f, FM_SPACE[s]) else START_BAND[b]
  }

  /**
   * The frequency `RDA_ManualUp` tunes to (`:359-366`): one step down while
   * above the band's lower edge, otherwise round to the upper edge.
   */
  function UpTarget(f: Word, b: Code, s: Code): (t: Word)
    ensures f > START_BAND[b] ==> t < f && t * 10 <= f * 10 - FM_SPACE[s] < t * 10 + 10
    ensures f <= START_BAND[b] ==> t == END_BAND[b]
  {
    if f > START_BAND[b] then SubStep(f, FM_SPACE[s]) else END_BAND[b]
  }

  /** A step up from inside a band stays defined for `RDA_Tune`; so does the wrap to the lower edge. */
  lemma DownTunable(f: Word, b: Code, s: Code)
    requires f >= START_BAND[b]
    ensures TuneDefined(DownTarget(f, b, s), b, s)
  {
  }

  /** From frequency 0, `RDA_ManualDown` asks `RDA_Tune` to store a negative channel. */
  lemma DownFromZeroUndefined(b: Code, s: Code)
    ensures !TuneDefined(DownTarget(0, b, s), b, s)
  {
  }

  /**
   * A step down never goes further below the lower edge than one spacing,
   * so `RDA_ManualUp` always hands `RDA_Tune` a frequency it is defined for.
   */
  lemma UpTunable(f: Word, b: Code, s: Code)
    ensures TuneDefined(UpTarget(f, b, s), b, s)
  {
    var t := UpTarget(f, b, s);
    if f > START_BAND[b] {
      assert (t - START_BAND[b]) * 10 + FM_SPACE[s] > 0;
    }
  }

  /**
   * Inside a band, a step down undoes a step up exactly for the 100, 200
   * and 50 kHz spacings; with 25 kHz spacing the pair loses one unit.
   */
  lemma UpAfterDown(f: Word, b: Code, s: Code)
    requires START_BAND[b] <= f < END_BAND[b]
    ensures s < 3 ==> UpTarget(DownTarget(f, b, s), b, s) == f
    ensures s == 3 ==> UpTarget(DownTarget(f, b, s), b, s) == f - 1
  {
  }

  /** Likewise in the other order, from above the lower edge up to the upper edge. */
  lemma DownAfterUp(f: Word, b: Code, s: Code)
    requires START_BAND[b] < f <= END_BAND[b]
    ensures s < 3 ==> DownTarget(UpTarget(f, b, s), b, s) == f
    ensures s == 3 ==> DownTarget(UpTarget(f, b, s), b, s) == f - 1
  {
  }

  // ---------------------------------------------------------------------------
  // Channels and frequencies.

  /**
   * Every frequency of a band, at every spacing, has a channel that CHAN's
   * ten bits can hold, except in the world band at 25 kHz spacing.
   */
  lemma ChannelFitsChan(f: Word, b: Code, s: Code)
    requires START_BAND[b] <= f <= END_BAND[b] && !(b == 2 && s == 3)
    ensures 0 <= Channel(f, b, s) < 1024
  {
    var c := Channel(f, b, s);
    if c >= 1024 {
      MulLe(1024, c, FM_SPACE[s]);
    }
  }

  /**
   * In the world band at 25 kHz spacing the channel outgrows CHAN exactly
   * from 101.60 MHz on, and the top of the band wraps to channel 256.
   */
  lemma ChannelOverflowsChan(f: Word)
    requires f >= START_BAND[2]
    ensures Channel(f, 2, 3) < 1024 <==> f < 10160
    ensures Channel(END_BAND[2], 2, 3) == 1280 && Channel(END_BAND[2], 2, 3) % 1024 == 256
  {
    var c := Channel(f, 2, 3);
    if c >= 1024 {
      MulLe(1024, c, 25);
    } else {
      MulLe(c + 1, 1024, 25);
    }
  }

  /**
   * Reading back the channel that `RDA_Tune(f)` selected reports a frequency
   * at or below `f`, and less than one spacing below it.
   */
  lemma RealFrequencyOfChannel(f: Word, b: Code, s: Code)
    requires f >= START_BAND[b] && Channel(f, b, s) < 1024
    ensures RealFrequency(Channel(f, b, s), b, s) <= f
    ensures (f - RealFrequency(Channel(f, b, s), b, s)) * 10 < FM_SPACE[s]
  {
    var n := f - START_BAND[b];
    var c := Channel(f, b, s);
    if s == 0 {
      assert c == n / 10;
    } else if s == 1 {
      assert c == n / 20;
    } else if s == 2 {
      assert c == n / 5;
    } else {
      assert c == (n * 2) / 5;
    }
  }

  /** A tuned frequency is reported back exactly if, and only if, it lies on the channel grid of its band. */
  lemma RealFrequencyOnGrid(f: Word, b: Code, s: Code)
    requires f >= START_BAND[b] && Channel(f, b, s) < 1024
    ensures RealFrequency(Channel(f, b, s), b, s) == f <==> ((f - START_BAND[b]) * 10) % FM_SPACE[s] == 0
  {
    var c, n, d := Channel(f, b, s), (f - START_BAND[b]) * 10, FM_SPACE[s];
    if n % d == 0 {
      assert n == (n / d) * d;
      DivModUnique(n, d, c, n - c * d);
    }
    if RealFrequency(c, b, s) == f {
      assert c * d == n;
      DivModUnique(n, d, c, 0);
    }
  }

  /**
   * Tuning to the frequency a channel reports selects that channel again for
   * the 100, 200 and 50 kHz spacings.
   */
  lemma ChannelOfRealFrequency(c: nat, b: Code, s: Code)
    requires c < 1024 && s < 3
    ensures Channel(RealFrequency(c, b, s), b, s) == c
  {
    var n := RealFrequency(c, b, s) - START_BAND[b];
    if s == 0 {
      assert n == c * 10;
    } else if s == 1 {
      assert n == c * 20;
    } else {
      assert n == c * 5;
    }
    DivModUnique(n * 10, FM_SPACE[s], c, 0);
  }

  /** With 25 kHz spacing channel 1 reports 65.02 MHz in band 3, which tunes back to channel 0. */
  lemma ChannelOfRealFrequencyLossy()
    ensures RealFrequency(1, 3, 3) == 6502 && Channel(RealFrequency(1, 3, 3), 3, 3) == 0
  {
  }

  /** The board's station: 104.00 MHz in the US/Europe band at 100 kHz is channel 170, word 0x2A90. */
  lemma TuneExample()
    ensures Channel(10400, 0, 0) == 170 && TuneWord(170) == 0x2A90
    ensures RealFrequency(170, 0, 0) == 10400
  {
  }

  /**
   * The tables agree with the selector codes: each band is a non-empty
   * range starting at its channel-0 base (87.0, 76.0, 76.0 and 65.0 MHz),
   * and SPACE codes 0..3 are 100, 200, 50 and 25 kHz.
   */
  lemma BandAndSpaceCodes(s: Code)
    ensures START_BAND[RDA_FM_BAND_USA_EU] == 8700 && END_BAND[RDA_FM_BAND_USA_EU] == 10800
    ensures START_BAND[RDA_FM_BAND_JAPAN_WIDE] == 7600 && END_BAND[RDA_FM_BAND_JAPAN_WIDE] == 9100
    ensures START_BAND[RDA_FM_BAND_WORLD] == 7600 && END_BAND[RDA_FM_BAND_WORLD] == 10800
    ensures START_BAND[RDA_FM_BAND_SPECIAL] == 6500 && END_BAND[RDA_FM_BAND_SPECIAL] == 7600
    ensures forall b: Code :: START_BAND[b] < END_BAND[b] && RealFrequency(0, b, s) == START_BAND[b]
    ensures FM_SPACE == [100, 200, 50, 25]
  {
  }
}
