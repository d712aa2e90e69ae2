/**
 * Pixel-format metadata of the DECON window engine: per-channel lengths and
 * offsets, padding, the RGB-order word, the derived bits per pixel, and the
 * number of memory planes.
 *
 * The numeric values of the format enumeration live in a header that is not
 * part of this model. The one property of that ordering the code relies on
 * (`format <= DECON_PIXEL_FORMAT_RGB_565` selects the packed RGB formats) is
 * stated once, as the predicate IsPackedRgb.
 */
module DeconFormat {

  import opened KernelTypes

  /** The formats the driver names, plus any other value of the enumeration
      (`belowMax`: the value is below DECON_PIXEL_FORMAT_MAX). */
  datatype PixelFormat =
    | Argb8888 | Abgr8888 | Rgba8888 | Bgra8888
    | Xrgb8888 | Xbgr8888 | Rgbx8888 | Bgrx8888
    | Rgba5551 | Rgb565
    | Nv12 | Nv21 | Nv12M | Nv21M | Nv21MFull
    | Unlisted(belowMax: bool)

  /** ASSUMED ENUMERATION ORDER: the ten packed RGB formats are exactly the
      values `<= DECON_PIXEL_FORMAT_RGB_565`; every YUV format and every
      unlisted value lies above RGB_565. */
  predicate IsPackedRgb(f: PixelFormat)
  {
    f in {Argb8888, Abgr8888, Rgba8888, Bgra8888, Xrgb8888, Xbgr8888, Rgbx8888, Bgrx8888, Rgba5551, Rgb565}
  }

  /** `format < DECON_PIXEL_FORMAT_MAX` */
  predicate InEnumRange(f: PixelFormat)
  {
    !(f.Unlisted? && !f.belowMax)
  }

  predicate IsYuv(f: PixelFormat)
  {
    f in {Nv12, Nv21, Nv12M, Nv21M, Nv21MFull}
  }

  /** The eight 32-bit RGB layouts (is_decon_rgb32). */
  predicate IsRgb32(f: PixelFormat)
  {
    f in {Argb8888, Abgr8888, Rgba8888, Bgra8888, Xrgb8888, Xbgr8888, Rgbx8888, Bgrx8888}
  }

  function RedLength(f: PixelFormat): nat
  {
    match f
    case Argb8888 | Abgr8888 | Rgba8888 | Bgra8888 | Xrgb8888 | Xbgr8888 | Rgbx8888 | Bgrx8888 => 8
    case Rgba5551 => 5
    case Rgb565 => 5
    case _ => 0
  }

  function RedOffset(f: PixelFormat): nat
  {
    match f
    case Rgba8888 | Rgbx8888 | Rgba5551 => 0
    case Argb8888 | Xrgb8888 => 8
    case Rgb565 => 11
    case Bgra8888 | Bgrx8888 => 16
    case Abgr8888 | Xbgr8888 => 24
    case _ => 0
  }

  function GreenLength(f: PixelFormat): nat
  {
    match f
    case Argb8888 | Abgr8888 | Rgba8888 | Bgra8888 | Xrgb8888 | Xbgr8888 | Rgbx8888 | Bgrx8888 => 8
    case Rgba5551 => 5
    case Rgb565 => 6
    case _ => 0
  }

  function GreenOffset(f: PixelFormat): nat
  {
    match f
    case Rgba8888 | Rgbx8888 | Bgra8888 | Bgrx8888 => 8
    case Argb8888 | Abgr8888 | Xrgb8888 | Xbgr8888 => 16
    case Rgba5551 | Rgb565 => 5
    case _ => 0
  }

  function BlueLength(f: PixelFormat): nat
  {
    RedLength(f)
  }

  function BlueOffset(f: PixelFormat): nat
  {
    match f
    case Rgba8888 | Rgbx8888 => 16
    case Rgba5551 => 10
    case Abgr8888 | Xbgr8888 => 8
    case Argb8888 | Xrgb8888 => 24
    case Rgb565 | Bgra8888 | Bgrx8888 => 0
    case _ => 0
  }

  /** The table has no case for ARGB/ABGR/XRGB/XBGR: those fall to the
      "unrecognized pixel format" default and get 0. */
  function TranspLength(f: PixelFormat): nat
  {
    match f
    case Rgba8888 | Bgra8888 => 8
    case Rgba5551 => 1
    case _ => 0
  }

  function TranspOffset(f: PixelFormat): nat
  {
    match f
    case Rgba8888 | Bgra8888 => 24
    case Rgba5551 => 15
    case Rgbx8888 => BlueOffset(f)
    case Bgrx8888 => RedOffset(f)
    case _ => 0
  }

  /** Padding bits: only the two X-last layouts are listed. */
  function Padding(f: PixelFormat): nat
  {
    match f
    case Rgbx8888 | Bgrx8888 => 8
    case _ => 0
  }

  /** The WINCON bits-per-pixel mode codes (abstract tags). */
  datatype BppMode =
    | ModeNv12 | ModeNv21 | ModeRgb565
    | ModeArgb8888 | ModeXrgb8888 | ModeAbgr8888 | ModeXbgr8888
    | ModeBgra8888 | ModeRgba8888 | ModeBgrx8888 | ModeRgbx8888

  /** decon_rgborder: the byte-order mode for a packed format, None for "0". */
  function RgbOrder(f: PixelFormat): Option<BppMode>
  {
    match f
    case Rgba8888 => Some(ModeAbgr8888)
    case Rgbx8888 => Some(ModeXbgr8888)
    case Rgb565 => Some(ModeRgb565)
    case Bgra8888 => Some(ModeArgb8888)
    case Bgrx8888 => Some(ModeXrgb8888)
    case Argb8888 => Some(ModeBgra8888)
    case Abgr8888 => Some(ModeRgba8888)
    case Xrgb8888 => Some(ModeBgrx8888)
    case Xbgr8888 => Some(ModeRgbx8888)
    case _ => None
  }

  /** Bits per pixel as decon_set_win_buffer derives it: the sum of the
      channel lengths and the padding for packed formats, 12 otherwise. */
  function BitsPerPixel(f: PixelFormat): nat
  {
    if IsPackedRgb(f) then
      RedLength(f) + GreenLength(f) + BlueLength(f) + TranspLength(f) + Padding(f)
    else
      12
  }

  /** The value of the derivation, format by format. The four formats that
      place alpha or padding first derive 24, not 32, because neither the
      transparency table nor the padding table lists them. */
  lemma BitsPerPixelTable(f: PixelFormat)
    ensures BitsPerPixel(f) == (
      if f in {Rgba8888, Bgra8888, Rgbx8888, Bgrx8888} then 32
      else if f in {Argb8888, Abgr8888, Xrgb8888, Xbgr8888} then 24
      else if f in {Rgba5551, Rgb565} then 16
      else 12)
  {
  }

  /** Packed formats derive 16, 24 or 32 bits, so 32/bpp is 2 or 1 and never 0. */
  lemma PackedPixelAlignment(f: PixelFormat)
    requires IsPackedRgb(f)
    ensures BitsPerPixel(f) in {16, 24, 32}
    ensures 32 / BitsPerPixel(f) == (if f in {Rgba5551, Rgb565} then 2 else 1)
  {
    BitsPerPixelTable(f);
  }

  /** For every format that all tables list, each channel lies inside the
      derived pixel: offset + length <= bits per pixel. */
  lemma ChannelsInsidePixel(f: PixelFormat)
    requires f in {Rgba8888, Bgra8888, Rgbx8888, Bgrx8888, Rgba5551, Rgb565}
    ensures RedOffset(f) + RedLength(f) <= BitsPerPixel(f)
    ensures GreenOffset(f) + GreenLength(f) <= BitsPerPixel(f)
    ensures BlueOffset(f) + BlueLength(f) <= BitsPerPixel(f)
    ensures TranspOffset(f) + TranspLength(f) <= BitsPerPixel(f)
  {
    BitsPerPixelTable(f);
  }

  /** decon_get_memory_plane_cnt */
  function PlaneCount(f: PixelFormat): (r: int)
    ensures r == -1 <==> !IsPackedRgb(f) && !IsYuv(f)
    ensures r == 2 <==> f in {Nv12M, Nv21M, Nv21MFull}
    ensures r == 1 <==> IsPackedRgb(f) || f in {Nv12, Nv21}
  {
    match f
    case Argb8888 | Abgr8888 | Rgba8888 | Bgra8888 | Xrgb8888 | Xbgr8888 | Rgbx8888 | Bgrx8888 => 1
    case Rgba5551 | Rgb565 => 1
    case Nv12M | Nv21M | Nv21MFull => 2
    case Nv12 | Nv21 => 1
    case _ => -1
  }

  /** decon_is_plane_offset_calc_required: the single-buffer semi-planar formats. */
  predicate PlaneOffsetRequired(f: PixelFormat)
  {
    f == Nv12 || f == Nv21
  }
}
