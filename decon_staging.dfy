/**
 * Per-window staging of one submission: the alpha-blending words, the
 * validation and register fill of a BUFFER window, the second-plane address
 * of single-buffer semi-planar formats, and the blocking-mode rectangle.
 *
 * Each imperative operation writes the RegData arrays in place and is
 * specified by a pure function of the values it reads; the properties of
 * the driver are stated on those functions.
 */
module DeconStaging {

  import opened KernelTypes
  import opened DeconFormat
  import opened DeconRegs
  import opened DeconGeometry
  import opened DeconState

  // ---------------------------------------------------------------------
  // decon_set_alpha_blending
  // ---------------------------------------------------------------------

  /** What decon_set_alpha_blending writes for one window: the two alpha
      words, the window's WINCON word, the (possibly rewritten) blending mode
      of the request, and the BLENDEQ word (None for window 0). */
  datatype AlphaStage = AlphaStage(c: AlphaWord, d: AlphaWord, wincon: Wincon, blending: Blending, blendeq: Option<BlendWord>)

  function AlphaBlendingStage(planeAlpha: int, blending: Blending, winNo: nat, transpLength: U8, wincon: Wincon): (s: AlphaStage)
    // a per-plane alpha is the constant alpha 0 and alpha 1 is zero
    ensures IsPlaneAlpha(planeAlpha) ==> s.c == AlphaWord(planeAlpha, planeAlpha, planeAlpha) && s.d == AlphaWord(0, 0, 0)
    ensures !IsPlaneAlpha(planeAlpha) ==> s.d == AlphaWord(255, 255, 255)
    // window 0 has no blend equation and keeps its WINCON word
    ensures s.blendeq.None? <==> winNo == 0
    ensures winNo == 0 ==> s.wincon == wincon && s.blending == blending
    ensures s.blendeq.Some? ==> s.blendeq.value == BlendEqWord(s.blending, transpLength, planeAlpha)
    // the only rewrite of the request: premultiplied becomes coverage for a
    // plane-alpha window whose format has no alpha channel
    ensures s.blending != blending ==>
      winNo > 0 && IsPlaneAlpha(planeAlpha) && transpLength == 0
      && blending == BlendingPremult && s.blending == BlendingCoverage
    // only the ALPHA_MUL and ALPHA_SEL bits can change
    ensures s.wincon - {AlphaMul, AlphaSel} == wincon - {AlphaMul, AlphaSel}
  {
    var alpha0: U8 :=
      if IsPlaneAlpha(planeAlpha) then planeAlpha
      else if transpLength == 1 && blending == BlendingNone then 255
      else 0;
    var alpha1: U8 := if IsPlaneAlpha(planeAlpha) then 0 else 255;
    var c := VidosdC(alpha0, alpha0, alpha0);
    var d := VidosdD(alpha1, alpha1, alpha1);
    if winNo == 0 then
      AlphaStage(c, d, wincon, blending, None)
    else
      var w :=
        if !IsPlaneAlpha(planeAlpha) then wincon
        else if transpLength != 0 then (if blending != BlendingNone then wincon + {AlphaMul} else wincon)
        else wincon - {AlphaSel};
      var b :=
        if IsPlaneAlpha(planeAlpha) && transpLength == 0 && blending == BlendingPremult then BlendingCoverage
        else blending;
      AlphaStage(c, d, w, b, Some(BlendEqWord(b, transpLength, planeAlpha)))
  }

  /** A plane-alpha window on a format with an alpha channel and a blending
      mode other than NONE multiplies per-pixel alpha by the plane alpha; on
      a format without one, per-pixel alpha selection is switched off. */
  lemma PlaneAlphaWincon(planeAlpha: int, blending: Blending, winNo: nat, transpLength: U8, wincon: Wincon)
    requires winNo > 0 && IsPlaneAlpha(planeAlpha)
    ensures var s := AlphaBlendingStage(planeAlpha, blending, winNo, transpLength, wincon);
      && (transpLength != 0 && blending != BlendingNone ==> AlphaMul in s.wincon)
      && (transpLength == 0 ==> AlphaSel !in s.wincon && s.blendeq == Some(BlendEqWord(
            if blending == BlendingPremult then BlendingCoverage else blending, 0, planeAlpha)))
  {
  }

  /** decon_set_alpha_blending(win_config, regs, win_no, transp_length) */
  method SetAlphaBlending(cfgs: array<WinConfig>, regs: RegData, winNo: nat, transpLength: U8)
    requires regs.Valid() && winNo < regs.maxWin && winNo < cfgs.Length
    modifies cfgs, regs.vidosdC, regs.vidosdD, regs.wincon, regs.blendeq
    ensures var s := AlphaBlendingStage(old(cfgs[winNo].planeAlpha), old(cfgs[winNo].blending), winNo, transpLength, old(regs.wincon[winNo]));
      && regs.vidosdC[..] == old(regs.vidosdC[..])[winNo := s.c]
      && regs.vidosdD[..] == old(regs.vidosdD[..])[winNo := s.d]
      && regs.wincon[..] == old(regs.wincon[..])[winNo := s.wincon]
      && cfgs[..] == old(cfgs[..])[winNo := old(cfgs[winNo]).(blending := s.blending)]
      && (winNo == 0 ==> regs.blendeq[..] == old(regs.blendeq[..]))
      && (winNo > 0 ==> regs.blendeq[..] == old(regs.blendeq[..])[winNo - 1 := s.blendeq.value])
  {
    var cfg := cfgs[winNo];
    var alpha0: U8, alpha1: U8;
    if IsPlaneAlpha(cfg.planeAlpha) {
      alpha0, alpha1 := cfg.planeAlpha, 0;
    } else if transpLength == 1 && cfg.blending == BlendingNone {
      alpha0, alpha1 := 255, 255;
    } else {
      alpha0, alpha1 := 0, 255;
    }
    regs.vidosdC[winNo] := VidosdC(alpha0, alpha0, alpha0);
    regs.vidosdD[winNo] := VidosdD(alpha1, alpha1, alpha1);

    if winNo != 0 {
      if IsPlaneAlpha(cfg.planeAlpha) {
        if transpLength != 0 {
          if cfg.blending != BlendingNone {
            regs.wincon[winNo] := regs.wincon[winNo] + {AlphaMul};
          }
        } else {
          regs.wincon[winNo] := regs.wincon[winNo] - {AlphaSel};
          if cfg.blending == BlendingPremult {
            cfgs[winNo] := cfgs[winNo].(blending := BlendingCoverage);
          }
        }
      }
      regs.blendeq[winNo - 1] := BlendEqWord(cfgs[winNo].blending, transpLength, cfgs[winNo].planeAlpha);
    }
  }

  // ---------------------------------------------------------------------
  // decon_calc_plane_offset
  // ---------------------------------------------------------------------

  /** The three plane records of one window after decon_calc_plane_offset:
      for NV12/NV21 the chroma plane follows the luma plane after
      f_w * f_h bytes (unsigned 32-bit product) and plane 2 has address 0. */
  function PlaneOffsets(f: PixelFormat, src: Frame, row: seq<DmaBufData>): (r: seq<DmaBufData>)
    requires |row| == MAX_BUF_PLANE_CNT
    ensures |r| == MAX_BUF_PLANE_CNT && r[0] == row[0]
    ensures !PlaneOffsetRequired(f) ==> r == row
    ensures PlaneOffsetRequired(f) ==>
      && r[1].dmaAddr == row[0].dmaAddr + U32(src.fW * src.fH) && r[2].dmaAddr == 0
      && r[1] == row[1].(dmaAddr := r[1].dmaAddr) && r[2] == row[2].(dmaAddr := 0)
  {
    if PlaneOffsetRequired(f) then
      row[1 := row[1].(dmaAddr := row[0].dmaAddr + U32(src.fW * src.fH))][2 := row[2].(dmaAddr := 0)]
    else
      row
  }

  function RowOf(a: array2<DmaBufData>, r: nat): (row: seq<DmaBufData>)
    reads a
    requires r < a.Length0 && a.Length1 == MAX_BUF_PLANE_CNT
    ensures |row| == MAX_BUF_PLANE_CNT
    ensures forall j :: 0 <= j < MAX_BUF_PLANE_CNT ==> row[j] == a[r, j]
  {
    [a[r, 0], a[r, 1], a[r, 2]]
  }

  /** The buffer records, one row per window. */
  function Rows(a: array2<DmaBufData>): seq<seq<DmaBufData>>
    reads a
    requires a.Length1 == MAX_BUF_PLANE_CNT
  {
    seq(a.Length0, i requires 0 <= i < a.Length0 reads a => RowOf(a, i))
  }

  /** An array whose row i is row and whose other rows are those of
      before has rows before[i := row]. */
  lemma RowsSet(bufs: array2<DmaBufData>, before: seq<seq<DmaBufData>>, i: nat, row: seq<DmaBufData>)
    requires bufs.Length1 == MAX_BUF_PLANE_CNT && |before| == bufs.Length0 && i < bufs.Length0
    requires |row| == MAX_BUF_PLANE_CNT && forall a :: 0 <= a < |before| ==> |before[a]| == MAX_BUF_PLANE_CNT
    requires forall a, b :: 0 <= a < bufs.Length0 && 0 <= b < MAX_BUF_PLANE_CNT ==>
      bufs[a, b] == (if a == i then row[b] else before[a][b])
    ensures Rows(bufs) == before[i := row]
  {
    forall a | 0 <= a < |before|
      ensures Rows(bufs)[a] == before[i := row][a]
    {
      assert RowOf(bufs, a) == (if a == i then row else before[a]);
    }
  }

  method CalcPlaneOffset(cfg: WinConfig, bufs: array2<DmaBufData>, winNo: nat)
    requires winNo < bufs.Length0 && bufs.Length1 == MAX_BUF_PLANE_CNT
    modifies bufs
    ensures forall i, j :: 0 <= i < bufs.Length0 && 0 <= j < MAX_BUF_PLANE_CNT ==>
      bufs[i, j] == (if i == winNo then PlaneOffsets(cfg.format, cfg.src, old(RowOf(bufs, winNo)))[j] else old(bufs[i, j]))
  {
    var stride := cfg.src.fW;
    var vstride := cfg.src.fH;
    if PlaneOffsetRequired(cfg.format) {
      bufs[winNo, 1] := bufs[winNo, 1].(dmaAddr := bufs[winNo, 0].dmaAddr + U32(stride * vstride));
      bufs[winNo, 2] := bufs[winNo, 2].(dmaAddr := 0);
    }
  }

  // ---------------------------------------------------------------------
  // decon_set_win_buffer
  // ---------------------------------------------------------------------

  /** The result of importing the request's buffers through ION and mapping
      them: an error code, or one mapped record per plane together with the
      size of the last buffer mapped. */
  datatype ImportOutcome = ImportFailed(err: int) | Imported(planes: seq<DmaBufData>, bufSize: nat)

  /** The import loop runs decon_get_memory_plane_cnt times (never, for -1). */
  function PlanesToImport(f: PixelFormat): (n: nat)
    ensures n <= MAX_BUF_PLANE_CNT
    ensures n == 0 <==> PlaneCount(f) < 0
  {
    if PlaneCount(f) < 0 then 0 else PlaneCount(f)
  }

  /** What the allocator can return for a format: a negative error only when
      a plane is imported; otherwise one mapped record per plane, with no
      fence yet and a non-zero address, and a non-zero size when a plane was
      mapped. */
  predicate ImportFits(imp: ImportOutcome, f: PixelFormat)
  {
    match imp
    case ImportFailed(err) => err < 0 && PlanesToImport(f) > 0
    case Imported(planes, size) =>
      && |planes| == PlanesToImport(f)
      && (|planes| == 0 <==> size == 0)
      && forall i :: 0 <= i < |planes| ==> planes[i].dmaAddr != 0 && planes[i].fence.None?
  }

  /** The screen-info colour fields and bits per pixel as decon_set_win_buffer
      assigns them. */
  function ColourVar(v: VarInfo, f: PixelFormat): (r: VarInfo)
    ensures r.bitsPerPixel == BitsPerPixel(f)
    ensures r.transpLength == TranspLength(f) && r.transpLength <= 8
    ensures r.xres == v.xres && r.yres == v.yres && r.xoffset == v.xoffset && r.yoffset == v.yoffset
  {
    var r := v.(redLength := RedLength(f), redOffset := RedOffset(f),
                greenLength := GreenLength(f), greenOffset := GreenOffset(f),
                blueLength := BlueLength(f), blueOffset := BlueOffset(f),
                transpLength := TranspLength(f), transpOffset := TranspOffset(f));
    r.(bitsPerPixel :=
      if IsPackedRgb(f) then r.redLength + r.greenLength + r.blueLength + r.transpLength + Padding(f)
      else 12)
  }

  /** The checks made before any field is written. */
  predicate RequestMalformed(cfg: WinConfig, winNo: nat)
  {
    || !InEnumRange(cfg.format)
    || cfg.blending.BlendingUnknown?
    || (winNo == 0 && cfg.blending != BlendingNone)
    || cfg.dst.w == 0 || cfg.dst.h == 0 || cfg.dst.x < 0 || cfg.dst.y < 0
  }

  /** The checks made once bits per pixel is known: a line of fewer than 128
      bytes, a buffer narrower than the window, a packed window whose edges
      are not burst-aligned. */
  predicate GeometryRejected(cfg: WinConfig)
  {
    var bpp := BitsPerPixel(cfg.format);
    || U32(cfg.dst.w * bpp) / 8 < 128
    || cfg.src.fW < cfg.dst.w
    || (IsPackedRgb(cfg.format) && (PackedPixelAlignment(cfg.format); !XAligned(cfg.dst.x, cfg.dst.w, bpp)))
  }

  /** window_size: w * h * bpp / 8 in unsigned 32-bit arithmetic. */
  function WindowSize(dst: Frame, bpp: nat): nat
  {
    U32(U32(dst.w * dst.h) * bpp) / 8
  }

  /** fb_panstep */
  function Panstep(res: nat, resVirtual: nat): nat
  {
    if resVirtual > res then 1 else 0
  }

  /** The WINCON bits decon_rgborder contributes. */
  function RgbOrderFlags(f: PixelFormat): (w: Wincon)
    ensures |w| <= 1
    ensures w == {} <==> !IsPackedRgb(f) || f == Rgba5551
  {
    match RgbOrder(f)
    case None => {}
    case Some(m) => {BppModeFlag(m)}
  }

  /** The outcome of decon_set_win_buffer on a request: rejected with an
      error code and the mapped planes to release, or staged with the new
      screen info and the plane records to hand to the registers. */
  datatype BufferOutcome =
    | Rejected(err: int, release: seq<DmaBufData>)
    | Staged(varInfo: VarInfo, fix: FixInfo, planes: seq<DmaBufData>)

  function BufferStage(cfg: WinConfig, winNo: nat, v: VarInfo, imp: ImportOutcome, fence: Option<FenceId>): (o: BufferOutcome)
    requires ImportFits(imp, cfg.format)
    ensures o.Rejected? ==> o.err < 0
    ensures RequestMalformed(cfg, winNo) || GeometryRejected(cfg) ==> o == Rejected(-EINVAL, [])
    ensures o.Staged? ==>
      && o.varInfo.bitsPerPixel == BitsPerPixel(cfg.format)
      && o.varInfo.transpLength == TranspLength(cfg.format) && o.varInfo.transpLength <= 8
      && o.varInfo.xres == cfg.dst.w && o.varInfo.yres == cfg.dst.h
      && o.varInfo.xoffset == cfg.src.x && o.varInfo.yoffset == cfg.src.y
      && imp.Imported? && o.fix.smemLen == imp.bufSize
      && |o.planes| == PlanesToImport(cfg.format)
      && (IsPackedRgb(cfg.format) ==> WindowSize(cfg.dst, BitsPerPixel(cfg.format)) <= imp.bufSize)
      && (|o.planes| > 0 ==> o.fix.smemStart == o.planes[0].dmaAddr)
  {
    if RequestMalformed(cfg, winNo) then Rejected(-EINVAL, [])
    else
      var v1 := ColourVar(v, cfg.format);
      var bpp := v1.bitsPerPixel;
      if GeometryRejected(cfg) then Rejected(-EINVAL, [])
      else
        match imp
        case ImportFailed(err) => Rejected(err, [])
        case Imported(planes, bufSize) =>
          if cfg.fenceFd >= 0 && fence.None? then Rejected(-EINVAL, planes)
          else
            var fenced := if cfg.fenceFd >= 0 && |planes| > 0 then planes[0 := planes[0].(fence := fence)] else planes;
            if IsPackedRgb(cfg.format) && WindowSize(cfg.dst, bpp) > bufSize then Rejected(-EINVAL, fenced)
            else
              var smemStart := if |fenced| > 0 then fenced[0].dmaAddr else 0;
              Staged(
                v1.(xres := cfg.dst.w, xresVirtual := cfg.dst.fW, yres := cfg.dst.h, yresVirtual := cfg.dst.fH,
                    xoffset := cfg.src.x, yoffset := cfg.src.y),
                FixInfo(smemStart, bufSize, U32(cfg.src.fW * bpp) / 8, Panstep(cfg.dst.w, cfg.dst.fW), Panstep(cfg.dst.h, cfg.dst.fH)),
                fenced)
  }

  /** A buffer window is staged exactly when it passes every check: a known
      format and blending mode, no blending on window 0, a non-empty window
      at a non-negative origin, at least 128 bytes per line, a buffer at least
      as wide as the window, burst-aligned edges for packed formats, a
      successful import, an acquire fence that resolves, and, for packed
      formats, a buffer large enough for the window. */
  lemma BufferStagedIff(cfg: WinConfig, winNo: nat, v: VarInfo, imp: ImportOutcome, fence: Option<FenceId>)
    requires ImportFits(imp, cfg.format)
    ensures BufferStage(cfg, winNo, v, imp, fence).Staged? <==>
      && !RequestMalformed(cfg, winNo)
      && !GeometryRejected(cfg)
      && imp.Imported?
      && !(cfg.fenceFd >= 0 && fence.None?)
      && !(IsPackedRgb(cfg.format) && WindowSize(cfg.dst, BitsPerPixel(cfg.format)) > imp.bufSize)
  {
  }

  /** Window 0 with any blending mode other than NONE is refused. */
  lemma BlendingOnWindowZeroRejected(cfg: WinConfig, v: VarInfo, imp: ImportOutcome, fence: Option<FenceId>)
    requires ImportFits(imp, cfg.format) && cfg.blending != BlendingNone
    ensures BufferStage(cfg, 0, v, imp, fence) == Rejected(-EINVAL, [])
  {
  }

  /** A staged window's line length is the buffer's full width in bytes, its
      planes are the imported ones with the acquire fence on the first, and
      its WINCON word has no enable or burst bit yet. */
  lemma StagedScreenInfo(cfg: WinConfig, winNo: nat, v: VarInfo, imp: ImportOutcome, fence: Option<FenceId>)
    requires ImportFits(imp, cfg.format)
    requires BufferStage(cfg, winNo, v, imp, fence).Staged?
    ensures var o := BufferStage(cfg, winNo, v, imp, fence);
      && o.fix.lineLength == U32(cfg.src.fW * BitsPerPixel(cfg.format)) / 8
      && o.varInfo.xresVirtual == cfg.dst.fW && o.varInfo.yresVirtual == cfg.dst.fH
      && (cfg.fenceFd >= 0 && |o.planes| > 0 ==> o.planes[0].fence == fence)
      && (cfg.fenceFd < 0 ==> o.planes == imp.planes)
      && |o.planes| == |imp.planes|
      && (forall i :: 0 < i < |o.planes| ==> o.planes[i] == imp.planes[i])
  {
  }

  /** Mapped records among `planes` (those decon_free_dma_buf releases). */
  function MappedCount(planes: seq<DmaBufData>): (n: nat)
    ensures n <= |planes|
  {
    if |planes| == 0 then 0
    else MappedCount(planes[..|planes| - 1]) + (if planes[|planes| - 1].dmaAddr != 0 then 1 else 0)
  }

  /** Mapped records among `planes` that hold a fence. */
  function FencedCount(planes: seq<DmaBufData>): (n: nat)
    ensures n <= MappedCount(planes)
  {
    if |planes| == 0 then 0
    else FencedCount(planes[..|planes| - 1]) + (if planes[|planes| - 1].dmaAddr != 0 && planes[|planes| - 1].fence.Some? then 1 else 0)
  }

  /** The err_offset path: decon_free_dma_buf on every imported plane. */
  method ReleasePlanes(dev: DeconDevice, planes: seq<DmaBufData>)
    modifies dev`fencePuts, dev`bufferReleases
    ensures dev.fencePuts == old(dev.fencePuts) + FencedCount(planes)
    ensures dev.bufferReleases == old(dev.bufferReleases) + MappedCount(planes)
  {
    var i := 0;
    while i < |planes|
      invariant 0 <= i <= |planes|
      invariant dev.fencePuts == old(dev.fencePuts) + FencedCount(planes[..i])
      invariant dev.bufferReleases == old(dev.bufferReleases) + MappedCount(planes[..i])
    {
      assert planes[..i + 1][..i] == planes[..i];
      var _ := FreeDmaBuf(dev, planes[i]);
      i := i + 1;
    }
    assert planes[..|planes|] == planes;
  }

  /** The row of dma_buf_data a staged window leaves in the registers: the
      imported planes over the previous contents, then the plane offset. */
  function StagedRow(oldRow: seq<DmaBufData>, planes: seq<DmaBufData>, cfg: WinConfig): seq<DmaBufData>
    requires |oldRow| == MAX_BUF_PLANE_CNT && |planes| <= MAX_BUF_PLANE_CNT
  {
    PlaneOffsets(cfg.format, cfg.src, planes + oldRow[|planes|..])
  }

  /** The copy of the imported plane records into the window's row of
      dma_buf_data, followed by decon_calc_plane_offset when the format
      needs it. */
  method StagePlanes(cfg: WinConfig, bufs: array2<DmaBufData>, winNo: nat, local: seq<DmaBufData>)
    requires winNo < bufs.Length0 && bufs.Length1 == MAX_BUF_PLANE_CNT && |local| <= MAX_BUF_PLANE_CNT
    modifies bufs
    ensures forall i, j :: 0 <= i < bufs.Length0 && 0 <= j < MAX_BUF_PLANE_CNT ==>
      bufs[i, j] == (if i == winNo then StagedRow(old(RowOf(bufs, winNo)), local, cfg)[j] else old(bufs[i, j]))
  {
    ghost var row0 := RowOf(bufs, winNo);
    var i := 0;
    while i < |local|
      invariant 0 <= i <= |local|
      invariant forall a, b :: 0 <= a < bufs.Length0 && 0 <= b < MAX_BUF_PLANE_CNT ==>
        bufs[a, b] == (if a == winNo && b < i then local[b] else old(bufs[a, b]))
    {
      bufs[winNo, i] := local[i];
      i := i + 1;
    }
    assert RowOf(bufs, winNo) == local + row0[|local|..];
    CalcPlaneOffset(cfg, bufs, winNo);
  }

  /** The alpha-blending stage of a buffer window, applied to the WINCON
      word decon_set_win_buffer has just built. */
  function FillAlpha(cfg: WinConfig, winNo: nat, bpp: nat, transp: U8): AlphaStage
  {
    AlphaBlendingStage(cfg.planeAlpha, cfg.blending, winNo, transp,
                       WinconWord(bpp, transp, cfg.format) + RgbOrderFlags(cfg.format))
  }

  /** The corners VIDOSD_A and VIDOSD_B are programmed with are the
      inclusive edges of the window's destination frame, the same rectangle
      the overlap and blocking tests work on. */
  lemma VidosdSpansFrame(dst: Frame)
    ensures var a, b := VidosdA(dst.x, dst.y), VidosdB(dst.x, dst.y, dst.w, dst.h);
      Rect(a.x, a.y, b.x, b.y) == FrameRect(dst)
  {
  }

  /** The register fill of decon_set_win_buffer for a window that passed
      every check, first part: the plane records, the buffer start, and the
      position, source and protection words. */
  method FillWinPosition(cfg: WinConfig, regs: RegData, winNo: nat, local: seq<DmaBufData>, smemStart: int)
    requires regs.Valid() && winNo < regs.maxWin
    requires |local| <= MAX_BUF_PLANE_CNT
    modifies regs.vidosdA, regs.vidosdB, regs.dmaBufData, regs.bufStart, regs.srcRegs, regs.protection
    ensures regs.bufStart[..] == old(regs.bufStart[..])[winNo := smemStart]
    ensures regs.vidosdA[..] == old(regs.vidosdA[..])[winNo := VidosdA(cfg.dst.x, cfg.dst.y)]
    ensures regs.vidosdB[..] == old(regs.vidosdB[..])[winNo := VidosdB(cfg.dst.x, cfg.dst.y, cfg.dst.w, cfg.dst.h)]
    ensures regs.srcRegs[..] == old(regs.srcRegs[..])[winNo := SrcRegs(cfg.src.fW, cfg.src.fH, cfg.src.x, cfg.src.y)]
    ensures regs.protection[..] == old(regs.protection[..])[winNo := cfg.protection]
    ensures forall i, j :: 0 <= i < regs.maxWin && 0 <= j < MAX_BUF_PLANE_CNT ==>
      regs.dmaBufData[i, j] == (if i == winNo then StagedRow(old(RowOf(regs.dmaBufData, winNo)), local, cfg)[j]
                                else old(regs.dmaBufData[i, j]))
  {
    StagePlanes(cfg, regs.dmaBufData, winNo, local);
    regs.bufStart[winNo] := smemStart;
    regs.vidosdA[winNo] := VidosdA(cfg.dst.x, cfg.dst.y);
    regs.vidosdB[winNo] := VidosdB(cfg.dst.x, cfg.dst.y, cfg.dst.w, cfg.dst.h);
    regs.srcRegs[winNo] := SrcRegs(cfg.src.fW, cfg.src.fH, cfg.src.x, cfg.src.y);
    regs.protection[winNo] := cfg.protection;
  }

  /** Second part: the WINCON word with its RGB order, then
      decon_set_alpha_blending. */
  method FillWinMode(cfgs: array<WinConfig>, regs: RegData, winNo: nat, bpp: nat, transp: U8)
    requires regs.Valid() && winNo < regs.maxWin && winNo < cfgs.Length
    modifies cfgs, regs.wincon, regs.vidosdC, regs.vidosdD, regs.blendeq
    ensures var s := FillAlpha(old(cfgs[winNo]), winNo, bpp, transp);
      && regs.wincon[..] == old(regs.wincon[..])[winNo := s.wincon]
      && regs.vidosdC[..] == old(regs.vidosdC[..])[winNo := s.c]
      && regs.vidosdD[..] == old(regs.vidosdD[..])[winNo := s.d]
      && (winNo == 0 ==> regs.blendeq[..] == old(regs.blendeq[..]))
      && (winNo > 0 ==> regs.blendeq[..] == old(regs.blendeq[..])[winNo - 1 := s.blendeq.value])
      && cfgs[..] == old(cfgs[..])[winNo := old(cfgs[winNo]).(blending := s.blending)]
  {
    var f := cfgs[winNo].format;
    ghost var before := regs.wincon[..];
    regs.wincon[winNo] := WinconWord(bpp, transp, f);
    regs.wincon[winNo] := regs.wincon[winNo] + RgbOrderFlags(f);
    SetAlphaBlending(cfgs, regs, winNo, transp);
    UpdateTwice(before, winNo, WinconWord(bpp, transp, f) + RgbOrderFlags(f), regs.wincon[winNo]);
  }

  lemma UpdateTwice<T>(s: seq<T>, i: nat, a: T, b: T)
    requires i < |s|
    ensures s[i := a][i := b] == s[i := b]
  {
  }

  /** The checks and screen-info updates of decon_set_win_buffer: every
      path up to the register fill. The allocator's answer for the import
      loop and the fence lookup for the request's fence fd are parameters. */
  method ValidateWinBuffer(dev: DeconDevice, win: DeconWindow, cfg: WinConfig, imp: ImportOutcome, fence: Option<FenceId>)
    returns (ret: int, local: seq<DmaBufData>)
    requires ImportFits(imp, cfg.format)
    modifies win.fbinfo, dev`fencePuts, dev`bufferReleases
    ensures var o := BufferStage(cfg, win.index, old(win.fbinfo.varInfo), imp, fence);
      && (ret == 0 <==> o.Staged?)
      && (o.Rejected? ==>
          && ret == o.err
          && win.fbinfo.varInfo == old(win.fbinfo.varInfo) && win.fbinfo.fix == old(win.fbinfo.fix)
          && dev.fencePuts == old(dev.fencePuts) + FencedCount(o.release)
          && dev.bufferReleases == old(dev.bufferReleases) + MappedCount(o.release))
      && (o.Staged? ==>
          && win.fbinfo.varInfo == o.varInfo && win.fbinfo.fix == o.fix && local == o.planes
          && dev.fencePuts == old(dev.fencePuts) && dev.bufferReleases == old(dev.bufferReleases))
  {
    var winNo := win.index;
    var prevVar := win.fbinfo.varInfo;
    local := [];

    // unknown format or blending, blending on window 0, empty or misplaced window
    if RequestMalformed(cfg, winNo) {
      return -EINVAL, local;
    }

    var f := cfg.format;
    win.fbinfo.varInfo := ColourVar(win.fbinfo.varInfo, f);
    var bpp := win.fbinfo.varInfo.bitsPerPixel;

    // narrow line, narrow buffer, unaligned packed window
    if GeometryRejected(cfg) {
      win.fbinfo.varInfo := prevVar;
      return -EINVAL, local;
    }

    if imp.ImportFailed? {
      win.fbinfo.varInfo := prevVar;
      return imp.err, local;
    }
    local := imp.planes;
    var bufSize := imp.bufSize;

    if cfg.fenceFd >= 0 && fence.None? {
      ReleasePlanes(dev, local);
      win.fbinfo.varInfo := prevVar;
      return -EINVAL, local;
    }
    if cfg.fenceFd >= 0 && |local| > 0 {
      local := local[0 := local[0].(fence := fence)];
    }

    if IsPackedRgb(f) && WindowSize(cfg.dst, bpp) > bufSize {
      ReleasePlanes(dev, local);
      win.fbinfo.varInfo := prevVar;
      return -EINVAL, local;
    }

    var smemStart := if |local| > 0 then local[0].dmaAddr else 0;
    win.fbinfo.varInfo := win.fbinfo.varInfo.(xres := cfg.dst.w, xresVirtual := cfg.dst.fW, yres := cfg.dst.h,
                                yresVirtual := cfg.dst.fH, xoffset := cfg.src.x, yoffset := cfg.src.y);
    win.fbinfo.fix := FixInfo(smemStart, bufSize, U32(cfg.src.fW * bpp) / 8,
                       Panstep(cfg.dst.w, win.fbinfo.varInfo.xresVirtual), Panstep(cfg.dst.h, win.fbinfo.varInfo.yresVirtual));
    return 0, local;
  }

  /** The register fill of decon_set_win_buffer for a staged outcome. */
  method FillStaged(cfgs: array<WinConfig>, regs: RegData, winNo: nat, o: BufferOutcome)
    requires regs.Valid() && winNo < regs.maxWin && winNo < cfgs.Length
    requires o.Staged? && |o.planes| <= MAX_BUF_PLANE_CNT && o.varInfo.transpLength <= 8
    modifies cfgs, regs.wincon, regs.vidosdA, regs.vidosdB, regs.vidosdC, regs.vidosdD, regs.blendeq,
      regs.dmaBufData, regs.bufStart, regs.srcRegs, regs.protection
    ensures var cfg := old(cfgs[winNo]);
        && regs.bufStart[..] == old(regs.bufStart[..])[winNo := o.fix.smemStart]
        && regs.vidosdA[..] == old(regs.vidosdA[..])[winNo := VidosdA(cfg.dst.x, cfg.dst.y)]
        && regs.vidosdB[..] == old(regs.vidosdB[..])[winNo := VidosdB(cfg.dst.x, cfg.dst.y, cfg.dst.w, cfg.dst.h)]
        && regs.srcRegs[..] == old(regs.srcRegs[..])[winNo := SrcRegs(cfg.src.fW, cfg.src.fH, cfg.src.x, cfg.src.y)]
        && regs.protection[..] == old(regs.protection[..])[winNo := cfg.protection]
        && (forall i, j :: 0 <= i < regs.maxWin && 0 <= j < MAX_BUF_PLANE_CNT ==>
              regs.dmaBufData[i, j] == (if i == winNo then StagedRow(old(RowOf(regs.dmaBufData, winNo)), o.planes, cfg)[j]
                                        else old(regs.dmaBufData[i, j])))
    ensures var cfg := old(cfgs[winNo]);
        var s := FillAlpha(cfg, winNo, o.varInfo.bitsPerPixel, o.varInfo.transpLength);
        && regs.wincon[..] == old(regs.wincon[..])[winNo := s.wincon]
        && regs.vidosdC[..] == old(regs.vidosdC[..])[winNo := s.c]
        && regs.vidosdD[..] == old(regs.vidosdD[..])[winNo := s.d]
        && (winNo == 0 ==> regs.blendeq[..] == old(regs.blendeq[..]))
        && (winNo > 0 ==> regs.blendeq[..] == old(regs.blendeq[..])[winNo - 1 := s.blendeq.value])
        && cfgs[..] == old(cfgs[..])[winNo := cfg.(blending := s.blending)]
  {
    FillWinPosition(cfgs[winNo], regs, winNo, o.planes, o.fix.smemStart);
    FillWinMode(cfgs, regs, winNo, o.varInfo.bitsPerPixel, o.varInfo.transpLength);
  }

  /** decon_set_win_buffer: validation, then the register fill. */
  method SetWinBuffer(dev: DeconDevice, win: DeconWindow, cfgs: array<WinConfig>, regs: RegData,
                      imp: ImportOutcome, fence: Option<FenceId>) returns (ret: int)
    requires regs.Valid() && win.index < regs.maxWin && win.index < cfgs.Length
    requires ImportFits(imp, cfgs[win.index].format)
    modifies win.fbinfo, cfgs, regs.wincon, regs.vidosdA, regs.vidosdB, regs.vidosdC,
      regs.vidosdD, regs.blendeq, regs.dmaBufData, regs.bufStart, regs.srcRegs, regs.protection,
      dev`fencePuts, dev`bufferReleases
    ensures ret == 0 <==> BufferStage(old(cfgs[win.index]), win.index, old(win.fbinfo.varInfo), imp, fence).Staged?
    // a rejected window leaves the screen info, the request and the registers as they were
    ensures var o := BufferStage(old(cfgs[win.index]), win.index, old(win.fbinfo.varInfo), imp, fence);
      o.Rejected? ==>
        && ret == o.err
        && win.fbinfo.varInfo == old(win.fbinfo.varInfo) && win.fbinfo.fix == old(win.fbinfo.fix)
        && unchanged(cfgs, regs.wincon, regs.vidosdA, regs.vidosdB, regs.vidosdC, regs.vidosdD, regs.blendeq)
        && unchanged(regs.dmaBufData, regs.bufStart, regs.srcRegs, regs.protection)
        && dev.fencePuts == old(dev.fencePuts) + FencedCount(o.release)
        && dev.bufferReleases == old(dev.bufferReleases) + MappedCount(o.release)
    ensures var cfg := old(cfgs[win.index]);
      var o := BufferStage(cfg, win.index, old(win.fbinfo.varInfo), imp, fence);
      o.Staged? ==>
        && win.fbinfo.varInfo == o.varInfo && win.fbinfo.fix == o.fix
        && dev.fencePuts == old(dev.fencePuts) && dev.bufferReleases == old(dev.bufferReleases)
        && regs.bufStart[..] == old(regs.bufStart[..])[win.index := o.fix.smemStart]
        && regs.vidosdA[..] == old(regs.vidosdA[..])[win.index := VidosdA(cfg.dst.x, cfg.dst.y)]
        && regs.vidosdB[..] == old(regs.vidosdB[..])[win.index := VidosdB(cfg.dst.x, cfg.dst.y, cfg.dst.w, cfg.dst.h)]
        && regs.srcRegs[..] == old(regs.srcRegs[..])[win.index := SrcRegs(cfg.src.fW, cfg.src.fH, cfg.src.x, cfg.src.y)]
        && regs.protection[..] == old(regs.protection[..])[win.index := cfg.protection]
        && (forall i, j :: 0 <= i < regs.maxWin && 0 <= j < MAX_BUF_PLANE_CNT ==>
              regs.dmaBufData[i, j] == (if i == win.index then StagedRow(old(RowOf(regs.dmaBufData, win.index)), o.planes, cfg)[j]
                                        else old(regs.dmaBufData[i, j])))
    ensures var cfg := old(cfgs[win.index]);
      var o := BufferStage(cfg, win.index, old(win.fbinfo.varInfo), imp, fence);
      o.Staged? ==>
        var s := FillAlpha(cfg, win.index, o.varInfo.bitsPerPixel, o.varInfo.transpLength);
        && regs.wincon[..] == old(regs.wincon[..])[win.index := s.wincon]
        && regs.vidosdC[..] == old(regs.vidosdC[..])[win.index := s.c]
        && regs.vidosdD[..] == old(regs.vidosdD[..])[win.index := s.d]
        && (win.index == 0 ==> regs.blendeq[..] == old(regs.blendeq[..]))
        && (win.index > 0 ==> regs.blendeq[..] == old(regs.blendeq[..])[win.index - 1 := s.blendeq.value])
        && cfgs[..] == old(cfgs[..])[win.index := cfg.(blending := s.blending)]
  {
    var winNo := win.index;
    var cfg := cfgs[winNo];
    var local;
    ret, local := ValidateWinBuffer(dev, win, cfg, imp, fence);
    if ret != 0 {
      return;
    }
    FillStaged(cfgs, regs, winNo, Staged(win.fbinfo.varInfo, win.fbinfo.fix, local));
  }
}
