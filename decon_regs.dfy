/**
 * Register-word encoders of the DECON window engine: the window control word
 * (WINCON), the blend equation (BLENDEQ), and the four on-screen-display
 * words (VIDOSD_A..D).
 *
 * The macros that place fields at bit positions are in a header that is not
 * part of this model, so each word is kept abstract: WINCON is the set of
 * flags ORed into it (`|=` is union, `&= ~F` removes F), the VIDOSD words are
 * records of the field values the macros receive, and BLENDEQ is either the
 * literal 0 or its four coefficient fields.
 */
module DeconRegs {

  import opened KernelTypes
  import opened DeconFormat

  datatype WinconFlag =
    | BppModeFlag(mode: BppMode)   // one of the WINCON_BPPMODE_* codes
    | InterpolationEn              // WINCON_INTERPOLATION_EN
    | BldPix                       // WINCON_BLD_PIX
    | AlphaSel                     // WINCON_ALPHA_SEL
    | AlphaMul                     // WINCON_ALPHA_MUL
    | EnWin                        // WINCON_ENWIN
    | BurstLen16Word               // WINCON_BURSTLEN_16WORD

  type Wincon = set<WinconFlag>

  /** wincon(bits_per_pixel, transp_length, format) */
  function WinconWord(bpp: nat, transpLength: nat, f: PixelFormat): (w: Wincon)
    ensures AlphaSel in w <==> transpLength != 1
    ensures EnWin !in w && BurstLen16Word !in w && AlphaMul !in w
    ensures InterpolationEn in w <==> bpp == 12
    ensures BldPix in w <==> (bpp == 24 || bpp == 32) && transpLength > 0
    ensures bpp !in {12, 16, 24, 32} ==> w <= {AlphaSel}
    // the BPPMODE code the word selects
    ensures BppModeFlag(ModeNv12) in w <==> bpp == 12 && (f == Nv12 || f == Nv12M)
    ensures BppModeFlag(ModeNv21) in w <==> bpp == 12 && (f == Nv21 || f == Nv21M || f == Nv21MFull)
    ensures BppModeFlag(ModeRgb565) in w <==> bpp == 16
    ensures BppModeFlag(ModeArgb8888) in w <==> (bpp == 24 || bpp == 32) && transpLength > 0
    ensures BppModeFlag(ModeXrgb8888) in w <==> (bpp == 24 || bpp == 32) && transpLength == 0
  {
    var data: Wincon :=
      if bpp == 12 then
        (if f == Nv12 || f == Nv12M then {BppModeFlag(ModeNv12)}
         else if f == Nv21 || f == Nv21M || f == Nv21MFull then {BppModeFlag(ModeNv21)}
         else {}) + {InterpolationEn}
      else if bpp == 16 then {BppModeFlag(ModeRgb565)}
      else if bpp == 24 || bpp == 32 then
        (if transpLength > 0 then {BldPix, BppModeFlag(ModeArgb8888)} else {BppModeFlag(ModeXrgb8888)})
      else {};
    if transpLength != 1 then data + {AlphaSel} else data
  }

  datatype Blending = BlendingNone | BlendingPremult | BlendingCoverage | BlendingUnknown(code: int)

  datatype Coef = CoefZero | CoefOne | CoefAlphaA | CoefOneMinusAlphaA | CoefAlpha0

  /** A BLENDEQ word: 0, or the A/B/P/Q coefficient fields. */
  datatype BlendWord = BlendZero | BlendEq(a: Coef, b: Coef, p: Coef, q: Coef)

  /** `0 < plane_alpha < 255`: a constant per-plane alpha is in use. */
  predicate IsPlaneAlpha(planeAlpha: int)
  {
    0 < planeAlpha < 255
  }

  type U8 = x: nat | x < 256

  /** blendeq(blending, transp_length, plane_alpha) */
  function BlendEqWord(blending: Blending, transpLength: U8, planeAlpha: int): (r: BlendWord)
  {
    var mode := if transpLength == 1 && blending == BlendingPremult then BlendingCoverage else blending;
    match mode
    case BlendingNone => BlendEq(CoefOne, CoefZero, CoefZero, CoefZero)
    case BlendingPremult =>
      if !IsPlaneAlpha(planeAlpha) then BlendEq(CoefOne, CoefOneMinusAlphaA, CoefZero, CoefZero)
      else BlendEq(CoefAlpha0, CoefOneMinusAlphaA, CoefZero, CoefZero)
    case BlendingCoverage => BlendEq(CoefAlphaA, CoefOneMinusAlphaA, CoefZero, CoefZero)
    case BlendingUnknown(_) => BlendZero
  }

  /** Premultiplied blending of a format with a 1-bit alpha is encoded as
      coverage blending. */
  lemma PremultWithOneBitAlphaIsCoverage(transpLength: U8, planeAlpha: int)
    requires transpLength == 1
    ensures BlendEqWord(BlendingPremult, transpLength, planeAlpha)
         == BlendEqWord(BlendingCoverage, transpLength, planeAlpha)
  {
  }

  /** The `a` coefficient of premultiplied blending is ALPHA0 exactly when a
      plane alpha is in use, ONE otherwise; `b`, `p` and `q` do not depend on it. */
  lemma PremultCoefficients(transpLength: U8, planeAlpha: int)
    requires transpLength != 1
    ensures var w := BlendEqWord(BlendingPremult, transpLength, planeAlpha);
      && w.BlendEq?
      && (w.a == CoefAlpha0 <==> IsPlaneAlpha(planeAlpha))
      && (w.a == CoefOne <==> !IsPlaneAlpha(planeAlpha))
      && w.b == CoefOneMinusAlphaA && w.p == CoefZero && w.q == CoefZero
  {
  }

  /** Exactly the unknown blending modes encode to 0. */
  lemma BlendZeroIffUnknown(blending: Blending, transpLength: U8, planeAlpha: int)
    ensures BlendEqWord(blending, transpLength, planeAlpha) == BlendZero <==> blending.BlendingUnknown?
  {
  }

  /** VIDOSD_A: top-left corner. */
  datatype TopLeft = TopLeft(x: int, y: int)
  /** VIDOSD_B: bottom-right corner (inclusive). */
  datatype BotRight = BotRight(x: int, y: int)
  /** VIDOSD_C / VIDOSD_D: per-channel alpha constants. */
  datatype AlphaWord = AlphaWord(r: U8, g: U8, b: U8)

  function VidosdA(x: int, y: int): TopLeft
  {
    TopLeft(x, y)
  }

  /** The bottom-right corner of a w x h window whose top-left is (x, y). */
  function VidosdB(x: int, y: int, w: int, h: int): BotRight
  {
    BotRight(x + w - 1, y + h - 1)
  }

  function VidosdC(r0: U8, g0: U8, b0: U8): AlphaWord
  {
    AlphaWord(r0, g0, b0)
  }

  function VidosdD(r1: U8, g1: U8, b1: U8): AlphaWord
  {
    AlphaWord(r1, g1, b1)
  }
}
