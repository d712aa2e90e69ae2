/**
 * Rectangle arithmetic of the DECON driver: edge-form rectangles with
 * inclusive right/bottom edges, the overlap test and the intersection, the
 * scaling test, the x-alignment check, and the per-window bandwidth estimate.
 */
module DeconGeometry {

  import opened KernelTypes

  /** struct decon_rect: inclusive edges. */
  datatype Rect = Rect(left: int, top: int, right: int, bottom: int)

  /** struct decon_frame: origin, size, and the full buffer size f_w x f_h. */
  datatype Frame = Frame(x: int, y: int, w: nat, h: nat, fW: nat, fH: nat)

  /** struct decon_win_rect */
  datatype WinRect = WinRect(x: int, y: int, w: nat, h: nat)

  predicate WellFormed(r: Rect)
  {
    r.left <= r.right && r.top <= r.bottom
  }

  predicate Contains(r: Rect, x: int, y: int)
  {
    r.left <= x <= r.right && r.top <= y <= r.bottom
  }

  /** The edge form of a frame's visible area, as every caller builds it. */
  function FrameRect(f: Frame): (r: Rect)
    ensures f.w > 0 && f.h > 0 ==> WellFormed(r)
    ensures r.right - r.left + 1 == f.w && r.bottom - r.top + 1 == f.h
  {
    Rect(f.x, f.y, f.x + f.w - 1, f.y + f.h - 1)
  }

  /** decon_intersect */
  predicate Intersect(r1: Rect, r2: Rect)
  {
    !(r1.left > r2.right || r1.right < r2.left || r1.top > r2.bottom || r1.bottom < r2.top)
  }

  /** For well-formed rectangles, the overlap test holds exactly when some
      point lies in both. */
  lemma IntersectIffCommonPoint(r1: Rect, r2: Rect)
    requires WellFormed(r1) && WellFormed(r2)
    ensures Intersect(r1, r2) <==> exists x, y :: Contains(r1, x, y) && Contains(r2, x, y)
  {
    if Intersect(r1, r2) {
      var x, y := Max(r1.left, r2.left), Max(r1.top, r2.top);
      assert Contains(r1, x, y) && Contains(r2, x, y);
    }
  }

  /** decon_intersection: writes max/min of the edges into its out-parameter. */
  method Intersection(r1: Rect, r2: Rect) returns (r3: Rect)
    ensures forall x, y :: Contains(r3, x, y) <==> Contains(r1, x, y) && Contains(r2, x, y)
    ensures WellFormed(r1) && WellFormed(r2) && Intersect(r1, r2) ==>
      WellFormed(r3)
      && r1.left <= r3.left && r3.right <= r1.right && r1.top <= r3.top && r3.bottom <= r1.bottom
      && r2.left <= r3.left && r3.right <= r2.right && r2.top <= r3.top && r3.bottom <= r2.bottom
    ensures r3 == IntersectionOf(r1, r2)
  {
    r3 := Rect(0, 0, 0, 0);
    r3 := r3.(top := Max(r1.top, r2.top));
    r3 := r3.(bottom := Min(r1.bottom, r2.bottom));
    r3 := r3.(left := Max(r1.left, r2.left));
    r3 := r3.(right := Min(r1.right, r2.right));
  }

  /** The value decon_intersection writes, for use in specifications. */
  function IntersectionOf(r1: Rect, r2: Rect): Rect
  {
    Rect(Max(r1.left, r2.left), Max(r1.top, r2.top), Min(r1.right, r2.right), Min(r1.bottom, r2.bottom))
  }

  /** is_decon_rect_differ: false exactly when all four edges agree. */
  predicate RectDiffer(r1: Rect, r2: Rect)
  {
    r1.left != r2.left || r1.top != r2.top || r1.right != r2.right || r1.bottom != r2.bottom
  }

  lemma RectDifferIffUnequal(r1: Rect, r2: Rect)
    ensures !RectDiffer(r1, r2) <==> r1 == r2
  {
  }

  /** does_layer_need_scale */
  predicate NeedsScale(dst: Frame, src: Frame)
  {
    dst.w != src.w || dst.h != src.h
  }

  /** decon_validate_x_alignment. The 8-bit `32 / bpp` is the pixel count of
      a 32-bit burst; `x + w` is computed in unsigned 32-bit arithmetic. */
  predicate XAligned(x: int, w: nat, bpp: nat)
    requires 0 < bpp <= 32
  {
    var pixelAlignment := 32 / bpp;
    x % pixelAlignment == 0 && U32(x + w) % pixelAlignment == 0
  }

  /** Both edges of the window are multiples of 32/bpp. */
  lemma XAlignedIff(x: int, w: nat, bpp: nat)
    requires 0 < bpp <= 32
    requires 0 <= x && x + w < U32_MODULUS
    ensures XAligned(x, w, bpp) <==> x % (32 / bpp) == 0 && (x + w) % (32 / bpp) == 0
  {
  }

  lemma XAlignedExamples()
    ensures !XAligned(3, 5, 16)
    ensures XAligned(4, 6, 16)
  {
  }

  /** decon_calc_bandwidth: w*h*bytes*fps in unsigned 32-bit arithmetic. */
  function CalcBandwidth(w: nat, h: nat, bytesPerPixel: nat, fps: int): (bw: int)
    ensures 0 <= bw < U32_MODULUS
  {
    U32(U32(U32(w * h) * bytesPerPixel) * U32(fps))
  }

  /** Without overflow the estimate is the exact product. */
  lemma CalcBandwidthExact(w: nat, h: nat, bytesPerPixel: nat, fps: nat)
    requires w * h * bytesPerPixel * fps < U32_MODULUS
    ensures CalcBandwidth(w, h, bytesPerPixel, fps) == w * h * bytesPerPixel * fps
  {
    var area := w * h;
    var perFrame := area * bytesPerPixel;
    if bytesPerPixel == 0 || fps == 0 {
      assert U32(area) * bytesPerPixel * U32(fps) == 0;
    } else {
      ProductBound(area, bytesPerPixel);
      ProductBound(perFrame, fps);
      assert U32(area) == area;
      assert U32(perFrame) == perFrame;
      if perFrame > 0 {
        ProductBound(fps, perFrame);
        assert U32(fps) == fps;
      }
    }
  }

  lemma ProductBound(a: nat, b: nat)
    requires b > 0
    ensures a <= a * b
  {
  }
}
