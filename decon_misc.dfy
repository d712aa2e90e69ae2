/**
 * Two small computations of the DECON driver outside the staging path: the
 * pixel clock filled in for a video mode that lacks one
 * (decon_missing_pixclock), and the register walk that loads the three
 * 65-entry DPU gamma tables (gamma_lut_reg_set).
 */
module DeconMisc {

  import opened KernelTypes

  // ---------------------------------------------------------------------
  // decon_missing_pixclock
  // ---------------------------------------------------------------------

  /** Picoseconds per second: the u64 dividend. */
  const PICOS_PER_SECOND: int := 1_000_000_000_000

  /** The refresh rate used: the mode's own, or 60 when it is 0. */
  function RefreshOrDefault(refresh: int): int
  {
    if refresh != 0 then refresh else 60
  }

  /** The u32 divisor xres * yres * refresh, wrapped to 32 bits. */
  function PixclockDivisor(xres: int, yres: int, refresh: int): (d: int)
    ensures 0 <= d < U32_MODULUS
  {
    U32(xres * yres * RefreshOrDefault(refresh))
  }

  /** The pixel period in picoseconds stored into the u32 pixclock field.
      do_div by a zero divisor traps, so the caller must give a mode whose
      divisor is not 0. */
  function MissingPixclock(xres: int, yres: int, refresh: int): (p: int)
    requires PixclockDivisor(xres, yres, refresh) != 0
    ensures 0 <= p < U32_MODULUS
    ensures var d := PixclockDivisor(xres, yres, refresh);
      PICOS_PER_SECOND / d < U32_MODULUS ==> p * d <= PICOS_PER_SECOND < (p + 1) * d
  {
    U32(PICOS_PER_SECOND / PixclockDivisor(xres, yres, refresh))
  }

  /** A mode without a refresh rate is clocked as a 60 Hz mode. */
  lemma MissingRefreshIsSixtyHertz(xres: int, yres: int)
    requires PixclockDivisor(xres, yres, 60) != 0
    ensures PixclockDivisor(xres, yres, 0) == PixclockDivisor(xres, yres, 60)
    ensures MissingPixclock(xres, yres, 0) == MissingPixclock(xres, yres, 60)
  {
  }

  /** 1280x720 at 60 Hz: a period of 18084 ps (55.3 MHz). */
  lemma PixclockExample()
    ensures PixclockDivisor(1280, 720, 0) == 55296000
    ensures MissingPixclock(1280, 720, 0) == 18084
  {
    assert 1280 * 720 * 60 == 55296000;
    assert PICOS_PER_SECOND / 55296000 == 18084;
  }

  // ---------------------------------------------------------------------
  // gamma_lut_reg_set
  // ---------------------------------------------------------------------

  const GAMMA_CHANNELS: nat := 3
  const GAMMA_ENTRIES: nat := 65

  /** The half of a gamma register word an entry goes to (the
      DPU_GAMMA_LUT_Y and DPU_GAMMA_LUT_X fields). */
  datatype GammaField = GammaY | GammaX

  /** One dpu_reg_set_gamma call: register offset, field, and the table
      value the field macro packs. */
  datatype GammaWrite = GammaWrite(offset: int, field: GammaField, value: int)

  /** Where entry i of channel j goes: the channels lie gammaOffset apart
      (DPU_GAMMA_OFFSET), and entries 2k and 2k+1 share the word 4k. */
  function GammaAddress(gammaOffset: int, j: nat, i: nat): int
  {
    j * gammaOffset + 4 * (i / 2)
  }

  function GammaFieldOf(i: nat): GammaField
  {
    if i % 2 == 0 then GammaY else GammaX
  }

  predicate GammaTableShaped(lut: seq<seq<int>>)
  {
    |lut| == GAMMA_CHANNELS && forall j :: 0 <= j < GAMMA_CHANNELS ==> |lut[j]| == GAMMA_ENTRIES
  }

  /** The k-th write of the walk: entry k % 65 of channel k / 65. */
  function GammaWriteAt(lut: seq<seq<int>>, gammaOffset: int, k: nat): (w: GammaWrite)
    requires GammaTableShaped(lut) && k < GAMMA_CHANNELS * GAMMA_ENTRIES
  {
    var j := k / GAMMA_ENTRIES;
    var i := k % GAMMA_ENTRIES;
    GammaWrite(GammaAddress(gammaOffset, j, i), GammaFieldOf(i), lut[j][i])
  }

  /** gamma_lut_reg_set: channel by channel, entry by entry. offsetIn is
      the word offset inside the channel, offsetEx the channel's base. */
  method GammaLutRegSet(lut: seq<seq<int>>, gammaOffset: int) returns (ret: int, writes: seq<GammaWrite>)
    requires GammaTableShaped(lut)
    ensures ret == 0 && |writes| == GAMMA_CHANNELS * GAMMA_ENTRIES
    ensures forall k :: 0 <= k < |writes| ==> writes[k] == GammaWriteAt(lut, gammaOffset, k)
  {
    writes := [];
    var offsetIn := 0;
    var offsetEx := 0;
    var j := 0;
    while j < GAMMA_CHANNELS
      invariant 0 <= j <= GAMMA_CHANNELS && offsetEx == j * gammaOffset && offsetIn == 0
      invariant |writes| == j * GAMMA_ENTRIES
      invariant forall k :: 0 <= k < |writes| ==> writes[k] == GammaWriteAt(lut, gammaOffset, k)
    {
      var i := 0;
      while i < GAMMA_ENTRIES
        invariant 0 <= i <= GAMMA_ENTRIES
        invariant offsetIn == (if i == GAMMA_ENTRIES then 0 else if i == 0 then 0 else 4 * ((i - 1) / 2))
        invariant |writes| == j * GAMMA_ENTRIES + i
        invariant forall k :: 0 <= k < |writes| ==> writes[k] == GammaWriteAt(lut, gammaOffset, k)
      {
        var field;
        if i % 2 == 0 {
          if i >= 2 {
            offsetIn := offsetIn + 4;
          }
          field := GammaY;
        } else {
          field := GammaX;
        }
        assert offsetIn == 4 * (i / 2);
        writes := writes + [GammaWrite(offsetIn + offsetEx, field, lut[j][i])];
        if i == GAMMA_ENTRIES - 1 {
          offsetIn := 0;
        }
        i := i + 1;
      }
      offsetEx := offsetEx + gammaOffset;
      j := j + 1;
    }
    ret := 0;
  }

  /** With the channels further apart than one table (33 words), no
      register field is written twice: the walk loads each entry into a
      place of its own. */
  lemma GammaWritesDistinct(lut: seq<seq<int>>, gammaOffset: int, k1: nat, k2: nat)
    requires GammaTableShaped(lut) && gammaOffset > 4 * (GAMMA_ENTRIES / 2)
    requires k1 < k2 < GAMMA_CHANNELS * GAMMA_ENTRIES
    ensures var w1 := GammaWriteAt(lut, gammaOffset, k1); var w2 := GammaWriteAt(lut, gammaOffset, k2);
      (w1.offset, w1.field) != (w2.offset, w2.field)
  {
    var j1, i1 := k1 / GAMMA_ENTRIES, k1 % GAMMA_ENTRIES;
    var j2, i2 := k2 / GAMMA_ENTRIES, k2 % GAMMA_ENTRIES;
    if j1 == j2 {
      assert i1 < i2;
      if i1 / 2 == i2 / 2 {
        assert i1 % 2 == 0 && i2 % 2 == 1;
      }
    } else {
      assert j1 < j2;
      assert 4 * (i1 / 2) <= 4 * (GAMMA_ENTRIES / 2) < gammaOffset;
      assert j1 * gammaOffset + gammaOffset <= j2 * gammaOffset;
    }
  }
}
