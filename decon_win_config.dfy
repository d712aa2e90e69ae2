/**
 * decon_set_win_config: the per-window loop that normalises each request,
 * stages it according to its state, sets the enable and burst bits and the
 * window map, and sums the bandwidth of the buffer windows; then the
 * submission is queued for the commit worker or undone.
 *
 * The file-descriptor table, the sync framework and the allocator are
 * outside the model: the result of get_unused_fd, of the snapshot
 * allocation and of each window's buffer import are parameters.
 */
module DeconWinConfig {

  import opened KernelTypes
  import opened DeconFormat
  import opened DeconRegs
  import opened DeconGeometry
  import opened DeconState
  import opened DeconStaging
  import opened DeconBlocking
  import opened DeconWinUpdate

  /** The state a request has when the switch looks at it: a window that
      needs scaling, or whose format has no plane count, is disabled. */
  function NormalisedState(c: WinConfig): (s: WinState)
    ensures s == Disabled <==> c.state == Disabled || NeedsScale(c.dst, c.src) || PlaneCount(c.format) < 0
    ensures s != Disabled ==> s == c.state
  {
    if NeedsScale(c.dst, c.src) || PlaneCount(c.format) < 0 then Disabled else c.state
  }

  /** The COLOR case: a solid-colour window, placed and blended without a
      per-pixel alpha. */
  method StageColorWindow(cfgs: array<WinConfig>, regs: RegData, i: nat)
    requires regs.Valid() && i < regs.maxWin && regs.maxWin <= cfgs.Length
    modifies cfgs, regs.vidosdA, regs.vidosdB, regs.vidosdC, regs.vidosdD, regs.wincon, regs.blendeq
    ensures var c := old(cfgs[i]);
      var s := AlphaBlendingStage(c.planeAlpha, c.blending, i, 0, old(regs.wincon[i]));
      && regs.vidosdA[..] == old(regs.vidosdA[..])[i := VidosdA(c.dst.x, c.dst.y)]
      && regs.vidosdB[..] == old(regs.vidosdB[..])[i := VidosdB(c.dst.x, c.dst.y, c.dst.w, c.dst.h)]
      && regs.vidosdC[..] == old(regs.vidosdC[..])[i := s.c]
      && regs.vidosdD[..] == old(regs.vidosdD[..])[i := s.d]
      && regs.wincon[..] == old(regs.wincon[..])[i := s.wincon]
      && cfgs[..] == old(cfgs[..])[i := c.(blending := s.blending)]
      && (i == 0 ==> regs.blendeq[..] == old(regs.blendeq[..]))
      && (i > 0 ==> regs.blendeq[..] == old(regs.blendeq[..])[i - 1 := s.blendeq.value])
  {
    var c := cfgs[i];
    regs.vidosdA[i] := VidosdA(c.dst.x, c.dst.y);
    regs.vidosdB[i] := VidosdB(c.dst.x, c.dst.y, c.dst.w, c.dst.h);
    SetAlphaBlending(cfgs, regs, i, 0);
  }

  /** The COLOR case in terms of window words: window i's become ColorWords
      of its request as rewritten, every other window's stay. */
  method StageColorWords(cfgs: array<WinConfig>, regs: RegData, i: nat)
    requires regs.Valid() && i < regs.maxWin && regs.maxWin <= cfgs.Length
    modifies cfgs, regs.vidosdA, regs.vidosdB, regs.vidosdC, regs.vidosdD, regs.wincon, regs.blendeq
    ensures cfgs[..] == old(cfgs[..])[i := old(cfgs[i]).(blending := cfgs[i].blending)]
    ensures regs.wincon[..] == old(regs.wincon[..])[i := regs.wincon[i]]
    ensures Words(regs) == old(Words(regs))[i := ColorWords(cfgs[i], i, old(Words(regs))[i])]
  {
    ghost var c, w := cfgs[i], regs.wincon[i];
    ghost var a, b, cc, d, be := regs.vidosdA[..], regs.vidosdB[..], regs.vidosdC[..], regs.vidosdD[..], regs.blendeq[..];
    StageColorWindow(cfgs, regs, i);
    ColorStagedWords(regs, i, c, w, a, b, cc, d, be);
  }

  /** The arrays decon_set_alpha_blending leaves for a COLOR window i hold
      the words of before, with window i's replaced by ColorWords of its
      request as rewritten. */
  lemma ColorStagedWords(regs: RegData, i: nat, c: WinConfig, w: Wincon,
                         a: seq<TopLeft>, b: seq<BotRight>, cc: seq<AlphaWord>, d: seq<AlphaWord>, be: seq<BlendWord>)
    requires regs.Valid() && i < regs.maxWin
    requires |a| == |b| == |cc| == |d| == regs.maxWin && |be| + 1 == regs.maxWin
    requires var s := AlphaBlendingStage(c.planeAlpha, c.blending, i, 0, w);
      && regs.vidosdA[..] == a[i := VidosdA(c.dst.x, c.dst.y)]
      && regs.vidosdB[..] == b[i := VidosdB(c.dst.x, c.dst.y, c.dst.w, c.dst.h)]
      && regs.vidosdC[..] == cc[i := s.c]
      && regs.vidosdD[..] == d[i := s.d]
      && (i == 0 ==> regs.blendeq[..] == be)
      && (i > 0 ==> regs.blendeq[..] == be[i - 1 := s.blendeq.value])
    ensures var s := AlphaBlendingStage(c.planeAlpha, c.blending, i, 0, w);
      var rows, st, src, prot := Rows(regs.dmaBufData), regs.bufStart[..], regs.srcRegs[..], regs.protection[..];
      var ws := WordsFrom(a, b, cc, d, be, rows, st, src, prot, regs.maxWin);
      Words(regs) == ws[i := ColorWords(c.(blending := s.blending), i, ws[i])]
  {
    var s := AlphaBlendingStage(c.planeAlpha, c.blending, i, 0, w);
    var rows, st, src, prot := Rows(regs.dmaBufData), regs.bufStart[..], regs.srcRegs[..], regs.protection[..];
    var ws := WordsFrom(a, b, cc, d, be, rows, st, src, prot, regs.maxWin);
    var w' := ws[i].(a := VidosdA(c.dst.x, c.dst.y), b := VidosdB(c.dst.x, c.dst.y, c.dst.w, c.dst.h),
                     c := s.c, d := s.d, blend := s.blendeq);
    WordsSet(a, b, cc, d, be, rows, st, src, prot, regs.maxWin, i, w');
    ColorWordsOfStaged(c, i, w, ws[i]);
  }

  /** Whether blocking mode finds window i hidden entirely. */
  predicate Hidden(cfgs: seq<WinConfig>, i: nat, maxWin: nat, blocking: bool, minW: nat, minH: nat)
    requires i < maxWin <= |cfgs|
  {
    && blocking && cfgs[i].state == Buffer && IsRgb32(cfgs[i].format)
    && ScanUpTo(cfgs, i, maxWin, minW, minH).Covered?
  }

  /** decon_set_win_buffer does not look at the block area, which blocking
      mode may have written into request 0 just before. */
  lemma BufferStageIgnoresBlockArea(c: WinConfig, b: WinRect, winNo: nat, v: VarInfo, imp: ImportOutcome, fence: Option<FenceId>)
    requires ImportFits(imp, c.format)
    ensures BufferStage(c.(blockArea := b), winNo, v, imp, fence) == BufferStage(c, winNo, v, imp, fence)
  {
  }

  /** b is a with every request after the i-th kept, and every one before
      it kept up to its block area. */
  predicate KeptBut(a: seq<WinConfig>, b: seq<WinConfig>, i: nat)
  {
    && |a| == |b| && i < |a| && b[i + 1..] == a[i + 1..]
    && forall k :: 0 <= k < i ==> b[k] == a[k].(blockArea := b[k].blockArea)
  }

  // ---------------------------------------------------------------------
  // The per-window words a submission stages
  // ---------------------------------------------------------------------

  /** The words of one window besides WINCON and WINMAP: VIDOSD A to D,
      its BLENDEQ word (None for window 0, which has none), its row of
      dma_buf_data, buf_start, the source words and the protection flag. */
  datatype WindowWords = WindowWords(a: TopLeft, b: BotRight, c: AlphaWord, d: AlphaWord, blend: Option<BlendWord>,
                                     row: seq<DmaBufData>, start: int, src: SrcRegs, prot: int)

  /** The words of windows 0 to n - 1, read window by window out of the
      register arrays; blendeq[k - 1] belongs to window k. */
  function WordsFrom(a: seq<TopLeft>, b: seq<BotRight>, c: seq<AlphaWord>, d: seq<AlphaWord>, blendeq: seq<BlendWord>,
                     rows: seq<seq<DmaBufData>>, start: seq<int>, src: seq<SrcRegs>, prot: seq<int>, n: nat): seq<WindowWords>
    requires |a| == n && |b| == n && |c| == n && |d| == n && |blendeq| + 1 == n
    requires |rows| == n && |start| == n && |src| == n && |prot| == n
  {
    seq(n, k requires 0 <= k < n =>
      WindowWords(a[k], b[k], c[k], d[k], if k == 0 then None else Some(blendeq[k - 1]), rows[k], start[k], src[k], prot[k]))
  }

  /** The staged words of every window of a snapshot. */
  function Words(r: RegData): seq<WindowWords>
    reads r.vidosdA, r.vidosdB, r.vidosdC, r.vidosdD, r.blendeq, r.dmaBufData, r.bufStart, r.srcRegs, r.protection
    requires r.Valid()
  {
    WordsFrom(r.vidosdA[..], r.vidosdB[..], r.vidosdC[..], r.vidosdD[..], r.blendeq[..], Rows(r.dmaBufData),
              r.bufStart[..], r.srcRegs[..], r.protection[..], r.maxWin)
  }

  /** Window k's words are read from position k of every array. */
  lemma WordsAt(r: RegData, k: nat)
    requires r.Valid() && k < r.maxWin
    ensures Words(r)[k] == WindowWords(r.vidosdA[k], r.vidosdB[k], r.vidosdC[k], r.vidosdD[k],
                                       if k == 0 then None else Some(r.blendeq[k - 1]), RowOf(r.dmaBufData, k),
                                       r.bufStart[k], r.srcRegs[k], r.protection[k])
  {
  }

  /** Writing window i's words into every array changes window i's words
      and no other window's. */
  lemma WordsSet(a: seq<TopLeft>, b: seq<BotRight>, c: seq<AlphaWord>, d: seq<AlphaWord>, blendeq: seq<BlendWord>,
                 rows: seq<seq<DmaBufData>>, start: seq<int>, src: seq<SrcRegs>, prot: seq<int>, n: nat, i: nat, w: WindowWords)
    requires |a| == n && |b| == n && |c| == n && |d| == n && |blendeq| + 1 == n
    requires |rows| == n && |start| == n && |src| == n && |prot| == n && i < n
    requires w.blend.None? <==> i == 0
    ensures var blendeq' := if i == 0 then blendeq else blendeq[i - 1 := w.blend.value];
      WordsFrom(a[i := w.a], b[i := w.b], c[i := w.c], d[i := w.d], blendeq', rows[i := w.row],
                start[i := w.start], src[i := w.src], prot[i := w.prot], n)
      == WordsFrom(a, b, c, d, blendeq, rows, start, src, prot, n)[i := w]
  {
  }

  /** The words kzalloc leaves in a fresh snapshot of n windows. */
  function ZeroWords(n: nat): seq<WindowWords>
  {
    seq(n, k => WindowWords(TopLeft(0, 0), BotRight(0, 0), AlphaWord(0, 0, 0), AlphaWord(0, 0, 0),
                            if k == 0 then None else Some(BlendZero), [ZeroDma, ZeroDma, ZeroDma], 0, SrcRegs(0, 0, 0, 0), 0))
  }

  /** A fresh snapshot holds ZeroWords. */
  lemma ZeroedWords(r: RegData)
    requires r.Valid() && r.Zeroed()
    ensures Words(r) == ZeroWords(r.maxWin)
  {
    forall k | 0 <= k < r.maxWin
      ensures Rows(r.dmaBufData)[k] == [ZeroDma, ZeroDma, ZeroDma]
    {
      assert RowOf(r.dmaBufData, k) == [ZeroDma, ZeroDma, ZeroDma];
    }
  }

  /** The words of a COLOR window: its position and the alpha and blend
      words of decon_set_alpha_blending with no per-pixel alpha. */
  function ColorWords(cfg: WinConfig, k: nat, w0: WindowWords): WindowWords
  {
    var s := AlphaBlendingStage(cfg.planeAlpha, cfg.blending, k, 0, {});
    w0.(a := VidosdA(cfg.dst.x, cfg.dst.y), b := VidosdB(cfg.dst.x, cfg.dst.y, cfg.dst.w, cfg.dst.h),
        c := s.c, d := s.d, blend := s.blendeq)
  }

  /** The words decon_set_win_buffer stages for a BUFFER window it
      accepts: its position, alpha and blend words, the imported plane
      records over the previous row, the buffer start, the source words and
      the protection flag. A request it rejects stages none. */
  function BufferWords(cfg: WinConfig, k: nat, imp: ImportOutcome, fence: Option<FenceId>, w0: WindowWords): WindowWords
    requires ImportFits(imp, cfg.format) && |w0.row| == MAX_BUF_PLANE_CNT
  {
    var o := BufferStage(cfg, k, ZeroVarInfo, imp, fence);
    if o.Rejected? then w0
    else
      var s := FillAlpha(cfg, k, o.varInfo.bitsPerPixel, o.varInfo.transpLength);
      WindowWords(VidosdA(cfg.dst.x, cfg.dst.y), VidosdB(cfg.dst.x, cfg.dst.y, cfg.dst.w, cfg.dst.h), s.c, s.d,
                  s.blendeq, StagedRow(w0.row, o.planes, cfg), o.fix.smemStart,
                  SrcRegs(cfg.src.fW, cfg.src.fH, cfg.src.x, cfg.src.y), cfg.protection)
  }

  /** The words the loop of decon_set_win_config leaves in window k, given
      the request as the loop leaves it: COLOR and BUFFER windows are
      staged, any other window keeps its words. An import that does not fit
      the format, which the loop never receives, stages nothing. */
  function StagedWords(cfg: WinConfig, k: nat, imp: ImportOutcome, fence: Option<FenceId>, w0: WindowWords): WindowWords
  {
    match cfg.state
    case Color => ColorWords(cfg, k, w0)
    case Buffer =>
      if ImportFits(imp, cfg.format) && |w0.row| == MAX_BUF_PLANE_CNT then BufferWords(cfg, k, imp, fence, w0) else w0
    case _ => w0
  }

  /** The words after the loop has handled windows 0 to i - 1, over the
      words w0 the snapshot started with. */
  function StagedWordsUpTo(w0: seq<WindowWords>, cur: seq<WinConfig>, imps: seq<ImportOutcome>,
                           fences: seq<Option<FenceId>>, i: nat): seq<WindowWords>
    requires i <= |w0| <= |cur| && |w0| <= |imps| && |w0| <= |fences|
  {
    seq(|w0|, k requires 0 <= k < |w0| =>
      if k < i then StagedWords(cur[k], k, imps[k], fences[k], w0[k]) else w0[k])
  }

  /** What decon_set_win_buffer decides for window k, when the loop hands
      it the window: c0 is the request as submitted and c as the loop
      leaves it, which is still BUFFER exactly when blocking mode did not
      hide it. */
  function VisibleOutcome(c0: WinConfig, c: WinConfig, k: nat, v: VarInfo, imp: ImportOutcome, fence: Option<FenceId>)
    : Option<BufferOutcome>
  {
    if c.state == Buffer && ImportFits(imp, c0.format) then Some(BufferStage(c0, k, v, imp, fence)) else None
  }

  /** The error window k stops the loop with, 0 when it does not: the
      rejection of decon_set_win_buffer, or -EINVAL for an UPDATE or unknown
      state. */
  function WindowError(c0: WinConfig, c: WinConfig, k: nat, v: VarInfo, imp: ImportOutcome, fence: Option<FenceId>): int
  {
    match VisibleOutcome(c0, c, k, v, imp, fence)
    case Some(Rejected(err, _)) => err
    case Some(Staged(_, _, _)) => 0
    case None => if NormalisedState(c0).Update? || NormalisedState(c0).UnknownState? then -EINVAL else 0
  }

  /** The screen info window k is left with: a staged BUFFER window gets
      the var and fix of its buffer, any other keeps `info`. */
  function WindowInfo(c0: WinConfig, c: WinConfig, k: nat, info: (VarInfo, FixInfo), imp: ImportOutcome,
                      fence: Option<FenceId>): (VarInfo, FixInfo)
  {
    match VisibleOutcome(c0, c, k, info.0, imp, fence)
    case Some(Staged(v, f, _)) => (v, f)
    case _ => info
  }

  /** The plane records window k releases itself: those a rejected BUFFER
      window had imported. */
  function WindowRelease(c0: WinConfig, c: WinConfig, k: nat, v: VarInfo, imp: ImportOutcome, fence: Option<FenceId>)
    : seq<DmaBufData>
  {
    match VisibleOutcome(c0, c, k, v, imp, fence)
    case Some(Rejected(_, release)) => release
    case _ => []
  }

  /** A window that stops the loop with no error releases no buffer of its
      own; one that does stops it with a negative error. */
  lemma WindowErrorSign(c0: WinConfig, c: WinConfig, k: nat, v: VarInfo, imp: ImportOutcome, fence: Option<FenceId>)
    ensures WindowError(c0, c, k, v, imp, fence) <= 0
    ensures WindowError(c0, c, k, v, imp, fence) == 0 ==> WindowRelease(c0, c, k, v, imp, fence) == []
  {
  }

  /** What window k's turn of the loop leaves outside the snapshot, for
      the request c0 it was handed and c as it leaves it: its error, its
      screen info, and the allocator calls of the buffers it released. */
  predicate WindowAccounted(c0: WinConfig, c: WinConfig, k: nat, info0: (VarInfo, FixInfo), info: (VarInfo, FixInfo),
                            imp: ImportOutcome, fence: Option<FenceId>, ret: int, rel0: nat, rel: nat, puts0: nat, puts: nat)
  {
    && ret == WindowError(c0, c, k, info0.0, imp, fence)
    && info == WindowInfo(c0, c, k, info0, imp, fence)
    && rel == rel0 + MappedCount(WindowRelease(c0, c, k, info0.0, imp, fence))
    && puts == puts0 + FencedCount(WindowRelease(c0, c, k, info0.0, imp, fence))
  }

  /** The screen info windows 0 to n - 1 are left with, from infos. */
  function StagedInfos(orig: seq<WinConfig>, cur: seq<WinConfig>, infos: seq<(VarInfo, FixInfo)>, imps: seq<ImportOutcome>,
                       fences: seq<Option<FenceId>>, n: nat): seq<(VarInfo, FixInfo)>
    requires n <= |infos| <= |orig| && |infos| <= |cur| && |infos| <= |imps| && |infos| <= |fences|
  {
    seq(|infos|, k requires 0 <= k < |infos| =>
      if k < n then WindowInfo(orig[k], cur[k], k, infos[k], imps[k], fences[k]) else infos[k])
  }

  /** None of windows 0 to n - 1 stopped the loop. */
  predicate NoErrorUpTo(orig: seq<WinConfig>, cur: seq<WinConfig>, infos: seq<(VarInfo, FixInfo)>, imps: seq<ImportOutcome>,
                        fences: seq<Option<FenceId>>, n: nat)
    requires n <= |infos| <= |orig| && |infos| <= |cur| && |infos| <= |imps| && |infos| <= |fences|
  {
    forall k :: 0 <= k < n ==> WindowError(orig[k], cur[k], k, infos[k].0, imps[k], fences[k]) == 0
  }

  /** The account of the loop before window n, from the screen infos
      infos0 it started with: every examined window's screen info as its
      turn left it; for ret 0, no examined window stopped the loop and no
      buffer was released; otherwise window n - 1 stopped it with ret after
      none before it did, and only the buffers that window released itself
      are counted. */
  predicate LoopAccounted(orig: seq<WinConfig>, cur: seq<WinConfig>, infos0: seq<(VarInfo, FixInfo)>,
                          infos: seq<(VarInfo, FixInfo)>, imps: seq<ImportOutcome>, fences: seq<Option<FenceId>>,
                          n: nat, ret: int, rel0: nat, rel: nat, puts0: nat, puts: nat)
  {
    && n <= |infos0| <= |orig| && |infos0| <= |cur| && |infos0| <= |imps| && |infos0| <= |fences|
    && infos == StagedInfos(orig, cur, infos0, imps, fences, n)
    && (ret == 0 ==> NoErrorUpTo(orig, cur, infos0, imps, fences, n) && rel == rel0 && puts == puts0)
    && (ret != 0 ==>
          && 0 < n && NoErrorUpTo(orig, cur, infos0, imps, fences, n - 1)
          && WindowAccounted(orig[n - 1], cur[n - 1], n - 1, infos0[n - 1], infos[n - 1], imps[n - 1], fences[n - 1],
                             ret, rel0, rel, puts0, puts))
  }

  /** What the loop decides for a window depends on the state the loop
      leaves it in, not on its block area. */
  lemma VisibleOutcomeByState(c0: WinConfig, c: WinConfig, c': WinConfig, k: nat, v: VarInfo, imp: ImportOutcome,
                              fence: Option<FenceId>)
    requires c'.state == c.state
    ensures VisibleOutcome(c0, c', k, v, imp, fence) == VisibleOutcome(c0, c, k, v, imp, fence)
  {
  }

  /** For a BUFFER request c0 that blocking mode left visible (c1, then c
      after the buffer step): the window's error, screen info, released
      planes and words are those of the buffer step's outcome. */
  lemma VisibleBufferAccount(c0: WinConfig, c1: WinConfig, c: WinConfig, k: nat, info: (VarInfo, FixInfo),
                             imp: ImportOutcome, fence: Option<FenceId>, w: WindowWords)
    requires c0.state == Buffer && ImportFits(imp, c0.format) && |w.row| == MAX_BUF_PLANE_CNT
    requires c1 == c0.(blockArea := c1.blockArea) && c == c1.(blending := c.blending)
    ensures var o := BufferStage(c1, k, info.0, imp, fence);
      && WindowError(c0, c, k, info.0, imp, fence) == (if o.Rejected? then o.err else 0)
      && WindowInfo(c0, c, k, info, imp, fence) == (if o.Staged? then (o.varInfo, o.fix) else info)
      && WindowRelease(c0, c, k, info.0, imp, fence) == (if o.Rejected? then o.release else [])
      && StagedWords(c, k, imp, fence, w) == BufferWords(c, k, imp, fence, w)
  {
    BufferStageIgnoresBlockArea(c0, c1.blockArea, k, info.0, imp, fence);
  }

  /** The account of the loop carried over window i's turn. */
  lemma AccountingStep(orig: seq<WinConfig>, cur: seq<WinConfig>, cur': seq<WinConfig>, infos0: seq<(VarInfo, FixInfo)>,
                       infos: seq<(VarInfo, FixInfo)>, info': (VarInfo, FixInfo), imps: seq<ImportOutcome>,
                       fences: seq<Option<FenceId>>, i: nat, ret: int, rel0: nat, rel: nat, rel': nat,
                       puts0: nat, puts: nat, puts': nat)
    requires LoopAccounted(orig, cur, infos0, infos, imps, fences, i, 0, rel0, rel, puts0, puts)
    requires i < |infos0| && KeptBut(cur, cur', i) && cur[i] == orig[i]
    requires WindowAccounted(orig[i], cur'[i], i, infos[i], info', imps[i], fences[i], ret, rel, rel', puts, puts')
    ensures LoopAccounted(orig, cur', infos0, infos[i := info'], imps, fences, i + 1, ret, rel0, rel', puts0, puts')
  {
    forall k | 0 <= k < i
      ensures VisibleOutcome(orig[k], cur'[k], k, infos0[k].0, imps[k], fences[k])
           == VisibleOutcome(orig[k], cur[k], k, infos0[k].0, imps[k], fences[k])
    {
      VisibleOutcomeByState(orig[k], cur[k], cur'[k], k, infos0[k].0, imps[k], fences[k]);
    }
    assert infos[i] == infos0[i];
    WindowErrorSign(orig[i], cur'[i], i, infos0[i].0, imps[i], fences[i]);
    assert infos[i := info'] == StagedInfos(orig, cur', infos0, imps, fences, i + 1);
  }

  /** Re-running decon_set_alpha_blending on the blending mode it chose
      gives the same alpha and blend words. */
  lemma AlphaStageStable(planeAlpha: int, blending: Blending, winNo: nat, transp: U8, w: Wincon, w': Wincon)
    ensures var s := AlphaBlendingStage(planeAlpha, blending, winNo, transp, w);
      var s' := AlphaBlendingStage(planeAlpha, s.blending, winNo, transp, w');
      s'.c == s.c && s'.d == s.d && s'.blendeq == s.blendeq && s'.blending == s.blending
  {
  }

  /** A COLOR window staged by decon_set_alpha_blending holds ColorWords of
      its request as rewritten. */
  lemma ColorWordsOfStaged(cfg: WinConfig, k: nat, w: Wincon, w0: WindowWords)
    ensures var s := AlphaBlendingStage(cfg.planeAlpha, cfg.blending, k, 0, w);
      ColorWords(cfg.(blending := s.blending), k, w0)
      == w0.(a := VidosdA(cfg.dst.x, cfg.dst.y), b := VidosdB(cfg.dst.x, cfg.dst.y, cfg.dst.w, cfg.dst.h),
             c := s.c, d := s.d, blend := s.blendeq)
  {
    AlphaStageStable(cfg.planeAlpha, cfg.blending, k, 0, w, {});
  }

  /** A BUFFER window staged by decon_set_win_buffer holds BufferWords of
      its request as rewritten, whatever screen info the window had. */
  lemma BufferWordsOfStaged(cfg: WinConfig, k: nat, v: VarInfo, imp: ImportOutcome, fence: Option<FenceId>, w0: WindowWords)
    requires ImportFits(imp, cfg.format) && |w0.row| == MAX_BUF_PLANE_CNT
    requires BufferStage(cfg, k, v, imp, fence).Staged?
    ensures var o := BufferStage(cfg, k, v, imp, fence);
      var s := FillAlpha(cfg, k, o.varInfo.bitsPerPixel, o.varInfo.transpLength);
      BufferWords(cfg.(blending := s.blending), k, imp, fence, w0)
      == WindowWords(VidosdA(cfg.dst.x, cfg.dst.y), VidosdB(cfg.dst.x, cfg.dst.y, cfg.dst.w, cfg.dst.h), s.c, s.d,
                     s.blendeq, StagedRow(w0.row, o.planes, cfg), o.fix.smemStart,
                     SrcRegs(cfg.src.fW, cfg.src.fH, cfg.src.x, cfg.src.y), cfg.protection)
  {
    var o := BufferStage(cfg, k, v, imp, fence);
    var s := FillAlpha(cfg, k, o.varInfo.bitsPerPixel, o.varInfo.transpLength);
    var cfg' := cfg.(blending := s.blending);
    var o' := BufferStage(cfg', k, ZeroVarInfo, imp, fence);
    assert o'.Staged? && o'.planes == o.planes && o'.fix.smemStart == o.fix.smemStart;
    AlphaStageStable(cfg.planeAlpha, cfg.blending, k, o.varInfo.transpLength,
                     WinconWord(o.varInfo.bitsPerPixel, o.varInfo.transpLength, cfg.format) + RgbOrderFlags(cfg.format),
                     WinconWord(o.varInfo.bitsPerPixel, o.varInfo.transpLength, cfg.format) + RgbOrderFlags(cfg.format));
  }

  /** The block area blocking mode writes does not change what a window
      stages. */
  lemma StagedWordsIgnoresBlockArea(cfg: WinConfig, area: WinRect, k: nat, imp: ImportOutcome, fence: Option<FenceId>,
                                    w0: WindowWords)
    ensures StagedWords(cfg.(blockArea := area), k, imp, fence, w0) == StagedWords(cfg, k, imp, fence, w0)
  {
    if cfg.state == Buffer && ImportFits(imp, cfg.format) {
      BufferStageIgnoresBlockArea(cfg, area, k, ZeroVarInfo, imp, fence);
    }
  }

  /** Staging window i, leaving the earlier requests as they were up to
      their block area, extends the staged prefix by window i. */
  lemma StagedWordsStep(w0: seq<WindowWords>, cur: seq<WinConfig>, cur': seq<WinConfig>, imps: seq<ImportOutcome>,
                        fences: seq<Option<FenceId>>, i: nat, ws: seq<WindowWords>, ws': seq<WindowWords>)
    requires i < |w0| <= |cur| && |w0| <= |imps| && |w0| <= |fences| && KeptBut(cur, cur', i)
    requires ws == StagedWordsUpTo(w0, cur, imps, fences, i)
    requires ws' == ws[i := StagedWords(cur'[i], i, imps[i], fences[i], ws[i])]
    ensures ws' == StagedWordsUpTo(w0, cur', imps, fences, i + 1)
  {
    forall k | 0 <= k < i
      ensures StagedWords(cur'[k], k, imps[k], fences[k], w0[k]) == StagedWords(cur[k], k, imps[k], fences[k], w0[k])
    {
      StagedWordsIgnoresBlockArea(cur[k], cur'[k].blockArea, k, imps[k], fences[k], w0[k]);
    }
  }

  /** The arrays decon_set_win_buffer leaves for a staged window i hold
      the words of before, with window i's replaced by BufferWords of its
      request as rewritten. */
  lemma BufferStagedWords(regs: RegData, i: nat, c: WinConfig, v: VarInfo, imp: ImportOutcome, fence: Option<FenceId>,
                          a: seq<TopLeft>, b: seq<BotRight>, cc: seq<AlphaWord>, d: seq<AlphaWord>, be: seq<BlendWord>,
                          rows: seq<seq<DmaBufData>>, st: seq<int>, src: seq<SrcRegs>, prot: seq<int>)
    requires regs.Valid() && i < regs.maxWin && ImportFits(imp, c.format)
    requires |a| == |b| == |cc| == |d| == |rows| == |st| == |src| == |prot| == regs.maxWin && |be| + 1 == regs.maxWin
    requires forall k :: 0 <= k < |rows| ==> |rows[k]| == MAX_BUF_PLANE_CNT
    requires var o := BufferStage(c, i, v, imp, fence);
      o.Staged? &&
      var s := FillAlpha(c, i, o.varInfo.bitsPerPixel, o.varInfo.transpLength);
      && regs.bufStart[..] == st[i := o.fix.smemStart]
      && regs.vidosdA[..] == a[i := VidosdA(c.dst.x, c.dst.y)]
      && regs.vidosdB[..] == b[i := VidosdB(c.dst.x, c.dst.y, c.dst.w, c.dst.h)]
      && regs.srcRegs[..] == src[i := SrcRegs(c.src.fW, c.src.fH, c.src.x, c.src.y)]
      && regs.protection[..] == prot[i := c.protection]
      && (forall x, y :: 0 <= x < regs.maxWin && 0 <= y < MAX_BUF_PLANE_CNT ==>
            regs.dmaBufData[x, y] == (if x == i then StagedRow(rows[i], o.planes, c)[y] else rows[x][y]))
      && regs.vidosdC[..] == cc[i := s.c]
      && regs.vidosdD[..] == d[i := s.d]
      && (i == 0 ==> regs.blendeq[..] == be)
      && (i > 0 ==> regs.blendeq[..] == be[i - 1 := s.blendeq.value])
    ensures var o := BufferStage(c, i, v, imp, fence);
      var s := FillAlpha(c, i, o.varInfo.bitsPerPixel, o.varInfo.transpLength);
      var ws := WordsFrom(a, b, cc, d, be, rows, st, src, prot, regs.maxWin);
      Words(regs) == ws[i := BufferWords(c.(blending := s.blending), i, imp, fence, ws[i])]
  {
    var o := BufferStage(c, i, v, imp, fence);
    var s := FillAlpha(c, i, o.varInfo.bitsPerPixel, o.varInfo.transpLength);
    var ws := WordsFrom(a, b, cc, d, be, rows, st, src, prot, regs.maxWin);
    var w := WindowWords(VidosdA(c.dst.x, c.dst.y), VidosdB(c.dst.x, c.dst.y, c.dst.w, c.dst.h), s.c, s.d,
                         s.blendeq, StagedRow(rows[i], o.planes, c), o.fix.smemStart,
                         SrcRegs(c.src.fW, c.src.fH, c.src.x, c.src.y), c.protection);
    RowsSet(regs.dmaBufData, rows, i, w.row);
    WordsSet(a, b, cc, d, be, rows, st, src, prot, regs.maxWin, i, w);
    BufferWordsOfStaged(c, i, v, imp, fence, ws[i]);
  }

  /** decon_set_win_buffer on a window blocking mode left visible. */
  method StageVisibleBuffer(dev: DeconDevice, win: DeconWindow, cfgs: array<WinConfig>, regs: RegData, i: nat,
                            imp: ImportOutcome, fence: Option<FenceId>)
    returns (ret: int)
    requires regs.Valid() && i < regs.maxWin && regs.maxWin <= cfgs.Length && win.index == i
    requires ImportFits(imp, cfgs[i].format)
    modifies cfgs, regs.wincon, regs.vidosdA, regs.vidosdB, regs.vidosdC, regs.vidosdD, regs.blendeq,
      regs.dmaBufData, regs.bufStart, regs.srcRegs, regs.protection,
      win.fbinfo, dev`fencePuts, dev`bufferReleases
    ensures var o := BufferStage(old(cfgs[i]), i, old(win.fbinfo.varInfo), imp, fence);
      && (ret == 0 <==> o.Staged?)
      && (o.Rejected? ==> ret == o.err)
      && (o.Staged? ==> win.fbinfo.varInfo == o.varInfo && win.fbinfo.fix == o.fix)
    ensures var o := BufferStage(old(cfgs[i]), i, old(win.fbinfo.varInfo), imp, fence);
      && (o.Rejected? ==> win.fbinfo.varInfo == old(win.fbinfo.varInfo) && win.fbinfo.fix == old(win.fbinfo.fix))
      && dev.bufferReleases == old(dev.bufferReleases) + MappedCount(if o.Rejected? then o.release else [])
      && dev.fencePuts == old(dev.fencePuts) + FencedCount(if o.Rejected? then o.release else [])
    ensures ret <= 0
    ensures cfgs[..] == old(cfgs[..])[i := old(cfgs[i]).(blending := cfgs[i].blending)]
    ensures regs.wincon[..] == old(regs.wincon[..])[i := regs.wincon[i]]
    ensures ret == 0 ==> Words(regs) == old(Words(regs))[i := BufferWords(cfgs[i], i, imp, fence, old(Words(regs))[i])]
    ensures ret != 0 ==> Words(regs) == old(Words(regs))
  {
    ghost var c, v, ws := cfgs[i], win.fbinfo.varInfo, Words(regs);
    ghost var a, b, cc, d, be := regs.vidosdA[..], regs.vidosdB[..], regs.vidosdC[..], regs.vidosdD[..], regs.blendeq[..];
    ghost var rows, st, src, prot := Rows(regs.dmaBufData), regs.bufStart[..], regs.srcRegs[..], regs.protection[..];
    ret := SetWinBuffer(dev, win, cfgs, regs, imp, fence);
    if ret == 0 {
      BufferStagedWords(regs, i, c, v, imp, fence, a, b, cc, d, be, rows, st, src, prot);
    }
  }

  /** Blocking mode, when configured, for BUFFER window i; true when it
      hid the window. */
  method BlockingStep(cfgs: array<WinConfig>, regs: RegData, i: nat, blocking: bool, minW: nat, minH: nat)
    returns (hidden: bool)
    requires regs.Valid() && i < regs.maxWin && regs.maxWin <= cfgs.Length && cfgs[i].state == Buffer
    modifies cfgs, regs.blockRect
    ensures hidden == Hidden(old(cfgs[..]), i, regs.maxWin, blocking, minW, minH)
    ensures KeptBut(old(cfgs[..]), cfgs[..], i)
    ensures hidden ==> cfgs[i] == old(cfgs[i]).(state := Disabled)
    ensures !hidden ==> cfgs[i] == old(cfgs[i]).(blockArea := cfgs[i].blockArea)
  {
    var covered := 0;
    if blocking {
      covered := SetWinBlockingMode(cfgs, i, regs, minW, minH);
    }
    hidden := covered != 0;
  }

  /** The BUFFER case: blocking mode first (when configured); a window it
      does not hide is staged by decon_set_win_buffer. */
  method StageBufferWindow(dev: DeconDevice, win: DeconWindow, cfgs: array<WinConfig>, regs: RegData, i: nat,
                           blocking: bool, minW: nat, minH: nat, imp: ImportOutcome, fence: Option<FenceId>)
    returns (ret: int, enabled: bool)
    requires regs.Valid() && dev.WindowsValid() && regs.maxWin == dev.maxWin
    requires i < regs.maxWin && regs.maxWin <= cfgs.Length && win == dev.windows[i]
    requires cfgs[i].state == Buffer && ImportFits(imp, cfgs[i].format)
    modifies cfgs, regs.wincon, regs.vidosdA, regs.vidosdB, regs.vidosdC, regs.vidosdD, regs.blendeq,
      regs.dmaBufData, regs.bufStart, regs.srcRegs, regs.protection, regs.blockRect,
      win.fbinfo, dev`fencePuts, dev`bufferReleases
    ensures var c := old(cfgs[i]);
      Hidden(old(cfgs[..]), i, regs.maxWin, blocking, minW, minH) ==>
        ret == 0 && !enabled && cfgs[i] == c.(state := Disabled)
    ensures var c := old(cfgs[i]);
      var o := BufferStage(c, i, old(win.fbinfo.varInfo), imp, fence);
      !Hidden(old(cfgs[..]), i, regs.maxWin, blocking, minW, minH) ==>
        && cfgs[i].state == Buffer
        && (enabled <==> o.Staged?) && (enabled <==> ret == 0)
        && (o.Rejected? ==> ret == o.err)
        && (o.Staged? ==> win.fbinfo.varInfo == o.varInfo && win.fbinfo.fix == o.fix)
    ensures var c0, v0 := old(cfgs[i]), old(win.fbinfo.varInfo);
      && ret == WindowError(c0, cfgs[i], i, v0, imp, fence)
      && (win.fbinfo.varInfo, win.fbinfo.fix) == WindowInfo(c0, cfgs[i], i, (v0, old(win.fbinfo.fix)), imp, fence)
      && dev.bufferReleases == old(dev.bufferReleases) + MappedCount(WindowRelease(c0, cfgs[i], i, v0, imp, fence))
      && dev.fencePuts == old(dev.fencePuts) + FencedCount(WindowRelease(c0, cfgs[i], i, v0, imp, fence))
    ensures ret <= 0
    ensures KeptBut(old(cfgs[..]), cfgs[..], i)
    ensures cfgs[i] == old(cfgs[i]).(state := cfgs[i].state, blending := cfgs[i].blending, blockArea := cfgs[i].blockArea)
    ensures regs.wincon[..] == old(regs.wincon[..])[i := regs.wincon[i]]
    ensures ret == 0 ==> Words(regs) == old(Words(regs))[i := StagedWords(cfgs[i], i, imp, fence, old(Words(regs))[i])]
    ensures ret != 0 ==> Words(regs) == old(Words(regs))
  {
    ghost var ws := Words(regs);
    var hidden := BlockingStep(cfgs, regs, i, blocking, minW, minH);
    assert Words(regs) == ws;
    if hidden {
      assert ws[i := ws[i]] == ws;
      assert VisibleOutcome(old(cfgs[i]), cfgs[i], i, old(win.fbinfo.varInfo), imp, fence) == None;
      return 0, false;
    }
    ghost var c1 := cfgs[i];
    ret := StageVisibleBuffer(dev, win, cfgs, regs, i, imp, fence);
    enabled := ret == 0;
    VisibleBufferAccount(old(cfgs[i]), c1, cfgs[i], i, (old(win.fbinfo.varInfo), old(win.fbinfo.fix)), imp, fence, ws[i]);
  }

  /** The switch of decon_set_win_config for window i, after normalisation.
      Returns the error, whether the window is enabled, and its window map:
      the colour for a COLOR window, 0 for a staged BUFFER window, and
      MAP | COLOUR(0) otherwise. */
  method StageWindow(dev: DeconDevice, win: DeconWindow, cfgs: array<WinConfig>, regs: RegData, i: nat,
                     blocking: bool, minW: nat, minH: nat, imp: ImportOutcome, fence: Option<FenceId>)
    returns (ret: int, enabled: bool, colorMap: WinMap)
    requires regs.Valid() && dev.WindowsValid() && regs.maxWin == dev.maxWin
    requires i < regs.maxWin && regs.maxWin <= cfgs.Length && win == dev.windows[i]
    requires ImportFits(imp, cfgs[i].format)
    modifies cfgs, regs.wincon, regs.vidosdA, regs.vidosdB, regs.vidosdC, regs.vidosdD, regs.blendeq,
      regs.dmaBufData, regs.bufStart, regs.srcRegs, regs.protection, regs.blockRect,
      win.fbinfo, dev`fencePuts, dev`bufferReleases
    ensures var st := NormalisedState(old(cfgs[i]));
      && (st == Disabled ==> ret == 0 && cfgs[i].state == Disabled)
      && (st == Color ==> ret == 0 && cfgs[i].state == Color)
      && (st == Buffer ==> cfgs[i].state == Buffer || (ret == 0 && cfgs[i].state == Disabled))
      && (st.Update? || st.UnknownState? ==> ret == -EINVAL && cfgs[i].state == st)
    ensures var st := NormalisedState(old(cfgs[i]));
      var o := BufferStage(old(cfgs[i]), i, old(win.fbinfo.varInfo), imp, fence);
      st == Buffer && cfgs[i].state == Buffer ==> (ret == 0 <==> o.Staged?) && (o.Rejected? ==> ret == o.err)
    ensures var c0, v0 := old(cfgs[i]), old(win.fbinfo.varInfo);
      && ret == WindowError(c0, cfgs[i], i, v0, imp, fence)
      && (win.fbinfo.varInfo, win.fbinfo.fix) == WindowInfo(c0, cfgs[i], i, (v0, old(win.fbinfo.fix)), imp, fence)
      && dev.bufferReleases == old(dev.bufferReleases) + MappedCount(WindowRelease(c0, cfgs[i], i, v0, imp, fence))
      && dev.fencePuts == old(dev.fencePuts) + FencedCount(WindowRelease(c0, cfgs[i], i, v0, imp, fence))
    ensures ret <= 0
    ensures ret == 0 && cfgs[i].state == Buffer ==> win.fbinfo.varInfo.bitsPerPixel == BitsPerPixel(cfgs[i].format)
    ensures enabled <==> ret == 0 && (cfgs[i].state == Color || cfgs[i].state == Buffer)
    ensures colorMap == (if !enabled then MapColour(0) else if cfgs[i].state == Color then MapColour(cfgs[i].color) else MapOff)
    ensures KeptBut(old(cfgs[..]), cfgs[..], i)
    ensures cfgs[i] == old(cfgs[i]).(state := cfgs[i].state, blending := cfgs[i].blending, blockArea := cfgs[i].blockArea)
    ensures regs.wincon[..] == old(regs.wincon[..])[i := regs.wincon[i]]
    ensures ret == 0 ==> Words(regs) == old(Words(regs))[i := StagedWords(cfgs[i], i, imp, fence, old(Words(regs))[i])]
    ensures ret != 0 ==> Words(regs) == old(Words(regs))
  {
    NormaliseWindow(cfgs, i);
    ret, enabled, colorMap := StageNormalised(dev, win, cfgs, regs, i, blocking, minW, minH, imp, fence, old(cfgs[i]));
  }

  /** The two normalisations before the switch: a window that needs
      scaling, or whose format has no plane count, becomes DISABLED. */
  method NormaliseWindow(cfgs: array<WinConfig>, i: nat)
    requires i < cfgs.Length
    modifies cfgs
    ensures cfgs[..] == old(cfgs[..])[i := old(cfgs[i]).(state := NormalisedState(old(cfgs[i])))]
  {
    if NeedsScale(cfgs[i].dst, cfgs[i].src) {
      cfgs[i] := cfgs[i].(state := Disabled);
    }
    if PlaneCount(cfgs[i].format) < 0 {
      cfgs[i] := cfgs[i].(state := Disabled);
    }
  }

  /** The switch itself, on window i as normalised from the request c0. */
  method StageNormalised(dev: DeconDevice, win: DeconWindow, cfgs: array<WinConfig>, regs: RegData, i: nat,
                         blocking: bool, minW: nat, minH: nat, imp: ImportOutcome, fence: Option<FenceId>,
                         ghost c0: WinConfig)
    returns (ret: int, enabled: bool, colorMap: WinMap)
    requires regs.Valid() && dev.WindowsValid() && regs.maxWin == dev.maxWin
    requires i < regs.maxWin && regs.maxWin <= cfgs.Length && win == dev.windows[i]
    requires ImportFits(imp, cfgs[i].format) && cfgs[i] == c0.(state := NormalisedState(c0))
    modifies cfgs, regs.wincon, regs.vidosdA, regs.vidosdB, regs.vidosdC, regs.vidosdD, regs.blendeq,
      regs.dmaBufData, regs.bufStart, regs.srcRegs, regs.protection, regs.blockRect,
      win.fbinfo, dev`fencePuts, dev`bufferReleases
    ensures var st := NormalisedState(c0);
      && (st == Disabled ==> ret == 0 && cfgs[i].state == Disabled)
      && (st == Color ==> ret == 0 && cfgs[i].state == Color)
      && (st == Buffer ==> cfgs[i].state == Buffer || (ret == 0 && cfgs[i].state == Disabled))
      && (st.Update? || st.UnknownState? ==> ret == -EINVAL && cfgs[i].state == st)
    ensures var st := NormalisedState(c0);
      var o := BufferStage(c0, i, old(win.fbinfo.varInfo), imp, fence);
      st == Buffer && cfgs[i].state == Buffer ==> (ret == 0 <==> o.Staged?) && (o.Rejected? ==> ret == o.err)
    ensures var v0 := old(win.fbinfo.varInfo);
      && ret == WindowError(c0, cfgs[i], i, v0, imp, fence)
      && (win.fbinfo.varInfo, win.fbinfo.fix) == WindowInfo(c0, cfgs[i], i, (v0, old(win.fbinfo.fix)), imp, fence)
      && dev.bufferReleases == old(dev.bufferReleases) + MappedCount(WindowRelease(c0, cfgs[i], i, v0, imp, fence))
      && dev.fencePuts == old(dev.fencePuts) + FencedCount(WindowRelease(c0, cfgs[i], i, v0, imp, fence))
    ensures ret <= 0
    ensures ret == 0 && cfgs[i].state == Buffer ==> win.fbinfo.varInfo.bitsPerPixel == BitsPerPixel(cfgs[i].format)
    ensures enabled <==> ret == 0 && (cfgs[i].state == Color || cfgs[i].state == Buffer)
    ensures colorMap == (if !enabled then MapColour(0) else if cfgs[i].state == Color then MapColour(cfgs[i].color) else MapOff)
    ensures KeptBut(old(cfgs[..]), cfgs[..], i)
    ensures cfgs[i] == c0.(state := cfgs[i].state, blending := cfgs[i].blending, blockArea := cfgs[i].blockArea)
    ensures regs.wincon[..] == old(regs.wincon[..])[i := regs.wincon[i]]
    ensures ret == 0 ==> Words(regs) == old(Words(regs))[i := StagedWords(cfgs[i], i, imp, fence, old(Words(regs))[i])]
    ensures ret != 0 ==> Words(regs) == old(Words(regs))
  {
    ret, enabled, colorMap := 0, false, MapColour(0);
    match cfgs[i].state
    case Disabled =>
    case Color =>
      enabled := true;
      colorMap := MapColour(cfgs[i].color);
      StageColorWords(cfgs, regs, i);
    case Buffer =>
      ret, enabled := StageBufferWindow(dev, win, cfgs, regs, i, blocking, minW, minH, imp, fence);
      if enabled {
        colorMap := MapOff;
      }
    case _ =>
      ret := -EINVAL;
  }

  /** DIV_ROUND_UP(n, 8): bytes per pixel from bits per pixel. */
  function BytesPerPixel(bpp: nat): (b: nat)
    ensures b * 8 >= bpp && (b == 0 || (b - 1) * 8 < bpp)
  {
    (bpp + 7) / 8
  }

  /** The bandwidth estimate of one staged window (0 for any other): a
      staged BUFFER window's screen info carries the bits per pixel of its
      format. */
  function WindowBandwidth(c: WinConfig, fps: int): (bw: int)
    ensures 0 <= bw < U32_MODULUS
    ensures c.state != Buffer ==> bw == 0
  {
    if c.state == Buffer then CalcBandwidth(c.dst.w, c.dst.h, BytesPerPixel(BitsPerPixel(c.format)), fps) else 0
  }

  /** A running sum with window c's estimate added in unsigned 32-bit
      arithmetic. */
  function AddBandwidth(sum: int, c: WinConfig, fps: int): int
  {
    U32(sum + WindowBandwidth(c, fps))
  }

  /** The unsigned 32-bit running sum of the first n windows' estimates. */
  function BufferBandwidth(cfgs: seq<WinConfig>, fps: seq<int>, n: nat): (bw: int)
    requires n <= |cfgs| && n <= |fps|
    ensures 0 <= bw < U32_MODULUS
    decreases n
  {
    if n == 0 then 0
    else AddBandwidth(BufferBandwidth(cfgs, fps, n - 1), cfgs[n - 1], fps[n - 1])
  }

  /** The same sum without wrap-around. */
  function PlainBandwidth(cfgs: seq<WinConfig>, fps: seq<int>, n: nat): (bw: int)
    requires n <= |cfgs| && n <= |fps|
    decreases n
  {
    if n == 0 then 0
    else PlainBandwidth(cfgs, fps, n - 1) + WindowBandwidth(cfgs[n - 1], fps[n - 1])
  }

  /** While the total fits in 32 bits, the running sum is the exact sum of
      the estimates of the buffer windows. */
  lemma {:induction false} BandwidthNoWrap(cfgs: seq<WinConfig>, fps: seq<int>, n: nat)
    requires n <= |cfgs| && n <= |fps|
    requires PlainBandwidth(cfgs, fps, n) < U32_MODULUS
    ensures BufferBandwidth(cfgs, fps, n) == PlainBandwidth(cfgs, fps, n)
    decreases n
  {
    if n > 0 {
      assert PlainBandwidth(cfgs, fps, n - 1) <= PlainBandwidth(cfgs, fps, n);
      BandwidthNoWrap(cfgs, fps, n - 1);
    }
  }

  /** The sum reads only the state, size and format of each window. */
  lemma {:induction false} BandwidthDependsOnlyOn(a: seq<WinConfig>, b: seq<WinConfig>, fps: seq<int>, n: nat)
    requires n <= |a| && n <= |b| && n <= |fps|
    requires forall k :: 0 <= k < n ==> a[k].state == b[k].state && a[k].dst == b[k].dst && a[k].format == b[k].format
    ensures BufferBandwidth(a, fps, n) == BufferBandwidth(b, fps, n)
    decreases n
  {
    if n > 0 {
      BandwidthDependsOnlyOn(a, b, fps, n - 1);
      assert WindowBandwidth(a[n - 1], fps[n - 1]) == WindowBandwidth(b[n - 1], fps[n - 1]);
    }
  }

  /** Adding window n's estimate to the running sum of the first n. */
  lemma BandwidthStep(cfgs: seq<WinConfig>, fps: seq<int>, n: nat, f: int, bw0: int, bw: int)
    requires n < |cfgs| && n < |fps| && f == fps[n]
    requires bw0 == BufferBandwidth(cfgs, fps, n) && bw == AddBandwidth(bw0, cfgs[n], f)
    ensures bw == BufferBandwidth(cfgs, fps, n + 1)
  {
  }

  /** Number of BUFFER windows among the first n. */
  function BufferCount(cfgs: seq<WinConfig>, n: nat): (c: nat)
    requires n <= |cfgs|
    ensures c <= n
    decreases n
  {
    if n == 0 then 0 else BufferCount(cfgs, n - 1) + (if cfgs[n - 1].state == Buffer then 1 else 0)
  }

  lemma {:induction false} BufferCountDependsOnlyOnState(a: seq<WinConfig>, b: seq<WinConfig>, n: nat)
    requires n <= |a| && n <= |b|
    requires forall k :: 0 <= k < n ==> a[k].state == b[k].state
    ensures BufferCount(a, n) == BufferCount(b, n)
    decreases n
  {
    if n > 0 {
      BufferCountDependsOnlyOnState(a, b, n - 1);
    }
  }

  /** The fps of each window. */
  function WindowFps(ws: seq<DeconWindow>): seq<int>
  {
    seq(|ws|, k requires 0 <= k < |ws| => ws[k].fps)
  }

  /** The window map a staged window gets. */
  function MapOf(c: WinConfig): WinMap
  {
    if c.state == Color then MapColour(c.color) else if c.state == Buffer then MapOff else MapColour(0)
  }

  /** How the loop leaves a window it staged without error, given the state
      normalisation gave the request: DISABLED, COLOR or BUFFER as
      normalisation and staging decided, enabled exactly when COLOR or BUFFER,
      with the burst bit and its window map. */
  predicate WindowStaged(st0: WinState, c: WinConfig, w: Wincon, m: WinMap)
  {
    && (c.state == Disabled || c.state == Color || c.state == Buffer)
    && (st0 == Disabled ==> c.state == Disabled)
    && (c.state == Color <==> st0 == Color)
    && (c.state == Buffer ==> st0 == Buffer)
    && BurstLen16Word in w
    && (EnWin in w <==> c.state == Color || c.state == Buffer)
    && m == MapOf(c)
  }

  /** Each of the first n windows is staged from its submitted request. */
  predicate AllStaged(orig: seq<WinConfig>, cur: seq<WinConfig>, wc: seq<Wincon>, wm: seq<WinMap>, n: nat)
  {
    n <= |orig| && n <= |cur| && n <= |wc| && n <= |wm|
    && forall k :: 0 <= k < n ==> WindowStaged(NormalisedState(orig[k]), cur[k], wc[k], wm[k])
  }

  /** What a staged snapshot holds for the windows it was built from: each
      window DISABLED, COLOR or BUFFER, the burst bit always set, the enable
      bit exactly on COLOR and BUFFER windows, its window map. */
  predicate Composed(cur: seq<WinConfig>, wc: seq<Wincon>, wm: seq<WinMap>, n: nat)
  {
    n <= |cur| && n <= |wc| && n <= |wm|
    && forall k :: 0 <= k < n ==>
      && (cur[k].state == Disabled || cur[k].state == Color || cur[k].state == Buffer)
      && BurstLen16Word in wc[k]
      && (EnWin in wc[k] <==> cur[k].state == Color || cur[k].state == Buffer)
      && wm[k] == MapOf(cur[k])
  }

  lemma AllStagedComposed(orig: seq<WinConfig>, cur: seq<WinConfig>, wc: seq<Wincon>, wm: seq<WinMap>, n: nat)
    requires AllStaged(orig, cur, wc, wm, n)
    ensures Composed(cur, wc, wm, n)
  {
    forall k | 0 <= k < n
      ensures WindowStaged(NormalisedState(orig[k]), cur[k], wc[k], wm[k])
    {
    }
  }

  /** Every request keeps its size and format. */
  predicate SameGeometry(a: seq<WinConfig>, b: seq<WinConfig>)
  {
    |a| == |b| && forall k :: 0 <= k < |a| ==> b[k].dst == a[k].dst && b[k].format == a[k].format
  }

  /** The state of the loop of decon_set_win_config before window i: every
      request keeps its size and format, those not yet examined are as
      submitted, and, while no error occurred, each
      examined window is staged. */
  predicate Progress(orig: seq<WinConfig>, cur: seq<WinConfig>, wc: seq<Wincon>, wm: seq<WinMap>, i: nat, ok: bool)
  {
    && SameGeometry(orig, cur) && i <= |wc| && i <= |wm| && i <= |orig|
    && cur[i..] == orig[i..]
    && (ok ==> AllStaged(orig, cur, wc, wm, i))
  }

  /** The requests after window i are still as submitted once window i is
      staged. */
  lemma SuffixStep(orig: seq<WinConfig>, cur: seq<WinConfig>, cur': seq<WinConfig>, i: nat)
    requires i < |cur| == |cur'| == |orig| && cur[i..] == orig[i..] && cur'[i + 1..] == cur[i + 1..]
    ensures cur'[i + 1..] == orig[i + 1..]
    ensures forall k :: i < k < |cur'| ==> cur'[k] == cur[k]
  {
    assert cur[i + 1..] == cur[i..][1..] && orig[i + 1..] == orig[i..][1..];
    forall k | i < k < |cur'|
      ensures cur'[k] == cur[k]
    {
      assert cur'[k] == cur'[i + 1..][k - i - 1] && cur[k] == cur[i + 1..][k - i - 1];
    }
  }

  lemma GeometryStep(orig: seq<WinConfig>, cur: seq<WinConfig>, cur': seq<WinConfig>, i: nat)
    requires SameGeometry(orig, cur) && KeptBut(cur, cur', i)
    requires cur'[i].dst == cur[i].dst && cur'[i].format == cur[i].format
    requires forall k :: i < k < |cur'| ==> cur'[k] == cur[k]
    ensures SameGeometry(orig, cur')
  {
  }

  lemma StagedStep(orig: seq<WinConfig>, cur: seq<WinConfig>, wc: seq<Wincon>, wm: seq<WinMap>,
                   cur': seq<WinConfig>, wc': seq<Wincon>, wm': seq<WinMap>, i: nat)
    requires AllStaged(orig, cur, wc, wm, i) && KeptBut(cur, cur', i) && i < |orig|
    requires i < |wc| && i < |wm| && i < |wc'| && i < |wm'| && wc' == wc[i := wc'[i]] && wm' == wm[i := wm'[i]]
    requires WindowStaged(NormalisedState(orig[i]), cur'[i], wc'[i], wm'[i])
    ensures AllStaged(orig, cur', wc', wm', i + 1)
  {
    forall k | 0 <= k < i
      ensures WindowStaged(NormalisedState(orig[k]), cur'[k], wc'[k], wm'[k])
    {
      assert cur'[k].state == cur[k].state && cur'[k].color == cur[k].color;
    }
  }

  /** Staging window i keeps the progress of the loop, and the totals over
      the windows already examined. */
  lemma ProgressStep(orig: seq<WinConfig>, cur: seq<WinConfig>, wc: seq<Wincon>, wm: seq<WinMap>,
                     cur': seq<WinConfig>, wc': seq<Wincon>, wm': seq<WinMap>, fps: seq<int>, i: nat, ok: bool)
    requires Progress(orig, cur, wc, wm, i, true) && i < |orig| && i < |wc| && i < |wm| && i <= |fps|
    requires KeptBut(cur, cur', i) && cur'[i].dst == cur[i].dst && cur'[i].format == cur[i].format
    requires i < |wc'| && i < |wm'| && wc' == wc[i := wc'[i]] && wm' == wm[i := wm'[i]]
    requires ok ==> WindowStaged(NormalisedState(orig[i]), cur'[i], wc'[i], wm'[i])
    ensures Progress(orig, cur', wc', wm', i + 1, ok)
    ensures BufferBandwidth(cur', fps, i) == BufferBandwidth(cur, fps, i)
    ensures BufferCount(cur', i) == BufferCount(cur, i)
  {
    SuffixStep(orig, cur, cur', i);
    GeometryStep(orig, cur, cur', i);
    if ok {
      StagedStep(orig, cur, wc, wm, cur', wc', wm', i);
    }
    BandwidthDependsOnlyOn(cur, cur', fps, i);
    BufferCountDependsOnlyOnState(cur, cur', i);
  }

  /** The enable bit, the burst bit and the window map, after the switch. */
  function FinishedWincon(w: Wincon, enabled: bool): (r: Wincon)
    ensures BurstLen16Word in r && (EnWin in r <==> enabled)
    ensures forall f :: f != EnWin && f != BurstLen16Word ==> (f in r <==> f in w)
  {
    (if enabled then w + {EnWin} else w - {EnWin}) + {BurstLen16Word}
  }

  method FinishWindow(regs: RegData, i: nat, enabled: bool, colorMap: WinMap)
    requires regs.Valid() && i < regs.maxWin
    modifies regs.wincon, regs.winmap
    ensures regs.wincon[..] == old(regs.wincon[..])[i := FinishedWincon(old(regs.wincon[i]), enabled)]
    ensures regs.winmap[..] == old(regs.winmap[..])[i := colorMap]
  {
    if enabled {
      regs.wincon[i] := regs.wincon[i] + {EnWin};
    } else {
      regs.wincon[i] := regs.wincon[i] - {EnWin};
    }
    // the burst-length field has no shadow register: always keep it set
    regs.wincon[i] := regs.wincon[i] + {BurstLen16Word};
    regs.winmap[i] := colorMap;
  }

  /** What the switch leaves for a window it staged without error, given
      the state normalisation gave the request. */
  predicate SwitchDone(st: WinState, c: WinConfig, enabled: bool, colorMap: WinMap)
  {
    && (st == Disabled || st == Color || st == Buffer)
    && (st == Disabled ==> c.state == Disabled)
    && (st == Color ==> c.state == Color)
    && (st == Buffer ==> c.state == Buffer || c.state == Disabled)
    && (c.state == Disabled || c.state == Color || c.state == Buffer)
    && (enabled <==> c.state == Color || c.state == Buffer)
    && colorMap == (if !enabled then MapColour(0) else if c.state == Color then MapColour(c.color) else MapOff)
  }

  /** With the enable and burst bits and the window map set after it, such a
      window is staged. */
  lemma SwitchStaged(st: WinState, c: WinConfig, w: Wincon, enabled: bool, colorMap: WinMap)
    requires SwitchDone(st, c, enabled, colorMap)
    ensures WindowStaged(st, c, FinishedWincon(w, enabled), colorMap)
  {
  }

  /** The switch, with its outcome stated as the loop needs it. */
  method StageSwitch(dev: DeconDevice, win: DeconWindow, cfgs: array<WinConfig>, regs: RegData, i: nat,
                     blocking: bool, minW: nat, minH: nat, imp: ImportOutcome, fence: Option<FenceId>)
    returns (ret: int, enabled: bool, colorMap: WinMap)
    requires regs.Valid() && dev.WindowsValid() && regs.maxWin == dev.maxWin
    requires i < regs.maxWin && regs.maxWin <= cfgs.Length && win == dev.windows[i]
    requires ImportFits(imp, cfgs[i].format)
    modifies cfgs, regs.wincon, regs.vidosdA, regs.vidosdB, regs.vidosdC, regs.vidosdD, regs.blendeq,
      regs.dmaBufData, regs.bufStart, regs.srcRegs, regs.protection, regs.blockRect,
      win.fbinfo, dev`fencePuts, dev`bufferReleases
    ensures ret <= 0
    ensures KeptBut(old(cfgs[..]), cfgs[..], i) && cfgs[i].dst == old(cfgs[i].dst) && cfgs[i].format == old(cfgs[i].format)
    ensures regs.wincon[..] == old(regs.wincon[..])[i := regs.wincon[i]]
    ensures ret == 0 ==> SwitchDone(NormalisedState(old(cfgs[i])), cfgs[i], enabled, colorMap)
    ensures ret == 0 && cfgs[i].state == Buffer ==> win.fbinfo.varInfo.bitsPerPixel == BitsPerPixel(cfgs[i].format)
    ensures ret == 0 ==> Words(regs) == old(Words(regs))[i := StagedWords(cfgs[i], i, imp, fence, old(Words(regs))[i])]
    ensures WindowAccounted(old(cfgs[i]), cfgs[i], i, old((win.fbinfo.varInfo, win.fbinfo.fix)), (win.fbinfo.varInfo, win.fbinfo.fix), imp, fence,
                            ret, old(dev.bufferReleases), dev.bufferReleases, old(dev.fencePuts), dev.fencePuts)
    ensures ret != 0 ==> Words(regs) == old(Words(regs))
  {
    ret, enabled, colorMap := StageWindow(dev, win, cfgs, regs, i, blocking, minW, minH, imp, fence);
  }

  /** One iteration of the loop of decon_set_win_config: the switch, the
      enable and burst bits, the window map, and the window's share of the
      bandwidth sum and window count. */
  method StageOne(dev: DeconDevice, win: DeconWindow, cfgs: array<WinConfig>, regs: RegData, i: nat,
                  blocking: bool, minW: nat, minH: nat, imp: ImportOutcome, fence: Option<FenceId>, bw0: int, fps: int)
    returns (ret: int, bw: int)
    requires regs.Valid() && dev.WindowsValid() && regs.maxWin == dev.maxWin
    requires i < regs.maxWin && regs.maxWin <= cfgs.Length && win == dev.windows[i] && fps == win.fps
    requires ImportFits(imp, cfgs[i].format) && 0 <= bw0 < U32_MODULUS
    modifies cfgs, regs.wincon, regs.winmap, regs.vidosdA, regs.vidosdB, regs.vidosdC, regs.vidosdD, regs.blendeq,
      regs.dmaBufData, regs.bufStart, regs.srcRegs, regs.protection, regs.blockRect, regs`numOfWindow,
      win.fbinfo, dev`fencePuts, dev`bufferReleases
    ensures ret <= 0
    ensures KeptBut(old(cfgs[..]), cfgs[..], i) && cfgs[i].dst == old(cfgs[i].dst) && cfgs[i].format == old(cfgs[i].format)
    ensures regs.wincon[..] == old(regs.wincon[..])[i := regs.wincon[i]]
    ensures regs.winmap[..] == old(regs.winmap[..])[i := regs.winmap[i]]
    ensures ret == 0 ==> WindowStaged(NormalisedState(old(cfgs[i])), cfgs[i], regs.wincon[i], regs.winmap[i])
    ensures ret == 0 ==> bw == AddBandwidth(bw0, cfgs[i], fps)
    ensures ret == 0 ==> regs.numOfWindow == old(regs.numOfWindow) + (if cfgs[i].state == Buffer then 1 else 0)
    ensures ret == 0 ==> Words(regs) == old(Words(regs))[i := StagedWords(cfgs[i], i, imp, fence, old(Words(regs))[i])]
    ensures WindowAccounted(old(cfgs[i]), cfgs[i], i, old((win.fbinfo.varInfo, win.fbinfo.fix)), (win.fbinfo.varInfo, win.fbinfo.fix), imp, fence,
                            ret, old(dev.bufferReleases), dev.bufferReleases, old(dev.fencePuts), dev.fencePuts)
    ensures ret != 0 ==> Words(regs) == old(Words(regs))
  {
    ghost var st := NormalisedState(cfgs[i]);
    var enabled, colorMap;
    ret, enabled, colorMap := StageSwitch(dev, win, cfgs, regs, i, blocking, minW, minH, imp, fence);
    var c, bpp := cfgs[i], win.fbinfo.varInfo.bitsPerPixel;
    ghost var cs, ws := cfgs[..], Words(regs);
    ghost var done := ret == 0 ==> SwitchDone(st, c, enabled, colorMap) && (c.state == Buffer ==> bpp == BitsPerPixel(c.format));
    assert done;
    bw := FinishOne(regs, i, c, st, enabled, colorMap, bpp, fps, bw0);
    assert cfgs[..] == cs && Words(regs) == ws && cfgs[i] == c;
  }

  /** The rest of an iteration after the switch for window c: the enable and
      burst bits, the window map, and, for an enabled BUFFER window, its
      estimate added to the bandwidth sum in unsigned 32-bit arithmetic and
      one added to the window count. */
  method FinishOne(regs: RegData, i: nat, c: WinConfig, ghost st: WinState, enabled: bool, colorMap: WinMap,
                   bpp: nat, fps: int, bw0: int)
    returns (bw: int)
    requires regs.Valid() && i < regs.maxWin
    modifies regs.wincon, regs.winmap, regs`numOfWindow
    ensures regs.wincon[..] == old(regs.wincon[..])[i := regs.wincon[i]]
    ensures regs.winmap[..] == old(regs.winmap[..])[i := regs.winmap[i]]
    ensures SwitchDone(st, c, enabled, colorMap) ==> WindowStaged(st, c, regs.wincon[i], regs.winmap[i])
    ensures SwitchDone(st, c, enabled, colorMap) && 0 <= bw0 < U32_MODULUS && (c.state == Buffer ==> bpp == BitsPerPixel(c.format))
      ==> bw == AddBandwidth(bw0, c, fps)
    ensures SwitchDone(st, c, enabled, colorMap) ==>
      regs.numOfWindow == old(regs.numOfWindow) + (if c.state == Buffer then 1 else 0)
    ensures Words(regs) == old(Words(regs))
  {
    ghost var w := regs.wincon[i];
    FinishWindow(regs, i, enabled, colorMap);
    if SwitchDone(st, c, enabled, colorMap) {
      SwitchStaged(st, c, w, enabled, colorMap);
    }
    bw := bw0;
    if enabled && c.state == Buffer {
      bw := U32(bw + CalcBandwidth(c.dst.w, c.dst.h, BytesPerPixel(bpp), fps));
      regs.numOfWindow := regs.numOfWindow + 1;
    }
  }

  /** The invariant of the loop of decon_set_win_config before window i,
      with the bandwidth sum and the window count over the windows examined. */
  predicate StagingState(orig: seq<WinConfig>, cur: seq<WinConfig>, wc: seq<Wincon>, wm: seq<WinMap>, fps: seq<int>,
                         i: nat, ok: bool, bw: int, count: int, base: int)
  {
    && Progress(orig, cur, wc, wm, i, ok) && i <= |fps|
    && (ok ==> bw == BufferBandwidth(cur, fps, i) && count == base + BufferCount(cur, i))
  }

  /** One iteration of the loop, stated as the step of its invariant. */
  method StageNext(dev: DeconDevice, win: DeconWindow, cfgs: array<WinConfig>, regs: RegData, i: nat,
                   blocking: bool, minW: nat, minH: nat, imps: seq<ImportOutcome>, fences: seq<Option<FenceId>>, bw0: int,
                   ghost orig: seq<WinConfig>, ghost fps: seq<int>, ghost base: int, ghost w0: seq<WindowWords>,
                   ghost infos0: seq<(VarInfo, FixInfo)>, ghost rel0: nat, ghost puts0: nat)
    returns (ret: int, bw: int)
    requires regs.Valid() && dev.WindowsValid() && regs.maxWin == dev.maxWin
    requires i < regs.maxWin && regs.maxWin <= cfgs.Length && win == dev.windows[i] && |fps| == regs.maxWin && fps[i] == win.fps
    requires |imps| == regs.maxWin && |fences| == regs.maxWin && |w0| == regs.maxWin
    requires StagingState(orig, cfgs[..], regs.wincon[..], regs.winmap[..], fps, i, true, bw0, regs.numOfWindow, base)
    requires Words(regs) == StagedWordsUpTo(w0, cfgs[..], imps, fences, i)
    requires ImportFits(imps[i], orig[i].format)
    requires LoopAccounted(orig, cfgs[..], infos0, ScreenInfos(dev.windows), imps, fences, i, 0,
                           rel0, dev.bufferReleases, puts0, dev.fencePuts)
    modifies cfgs, regs.wincon, regs.winmap, regs.vidosdA, regs.vidosdB, regs.vidosdC, regs.vidosdD, regs.blendeq,
      regs.dmaBufData, regs.bufStart, regs.srcRegs, regs.protection, regs.blockRect, regs`numOfWindow,
      win.fbinfo, dev`fencePuts, dev`bufferReleases
    ensures ret <= 0
    ensures StagingState(orig, cfgs[..], regs.wincon[..], regs.winmap[..], fps, i + 1, ret == 0, bw, regs.numOfWindow, base)
    ensures ret == 0 ==> Words(regs) == StagedWordsUpTo(w0, cfgs[..], imps, fences, i + 1)
    ensures ret != 0 ==> Words(regs) == StagedWordsUpTo(w0, cfgs[..], imps, fences, i)
    ensures LoopAccounted(orig, cfgs[..], infos0, ScreenInfos(dev.windows), imps, fences, i + 1, ret,
                          rel0, dev.bufferReleases, puts0, dev.fencePuts)
  {
    ghost var cur, wc, wm, ws, count := cfgs[..], regs.wincon[..], regs.winmap[..], Words(regs), regs.numOfWindow;
    ghost var infos, rel, puts := ScreenInfos(dev.windows), dev.bufferReleases, dev.fencePuts;
    assert cfgs[i] == cfgs[..][i..][0] == orig[i..][0];
    ret, bw := StageOne(dev, win, cfgs, regs, i, blocking, minW, minH, imps[i], fences[i], bw0, win.fps);
    ghost var cur', wc', wm', ws' := cfgs[..], regs.wincon[..], regs.winmap[..], Words(regs);
    StagingStep(orig, cur, wc, wm, cur', wc', wm', fps, i, ret == 0,
                bw0, bw, count, regs.numOfWindow, base, w0, imps, fences, ws, ws');
    assert forall k :: 0 <= k < |dev.windows| && k != i ==> dev.windows[k].fbinfo != win.fbinfo;
    assert ScreenInfos(dev.windows) == infos[i := (win.fbinfo.varInfo, win.fbinfo.fix)];
    AccountingStep(orig, cur, cur', infos0, infos, (win.fbinfo.varInfo, win.fbinfo.fix), imps, fences, i, ret,
                   rel0, rel, dev.bufferReleases, puts0, puts, dev.fencePuts);
  }

  /** The invariant of the loop, and the staged words, carried over one
      iteration. */
  lemma StagingStep(orig: seq<WinConfig>, cur: seq<WinConfig>, wc: seq<Wincon>, wm: seq<WinMap>,
                    cur': seq<WinConfig>, wc': seq<Wincon>, wm': seq<WinMap>, fps: seq<int>, i: nat, ok: bool,
                    bw0: int, bw: int, count: int, count': int, base: int,
                    w0: seq<WindowWords>, imps: seq<ImportOutcome>, fences: seq<Option<FenceId>>,
                    ws: seq<WindowWords>, ws': seq<WindowWords>)
    requires StagingState(orig, cur, wc, wm, fps, i, true, bw0, count, base)
    requires i < |orig| && i < |wc| && i < |wm| && i < |fps| && i < |w0| <= |cur| && |w0| <= |imps| && |w0| <= |fences|
    requires KeptBut(cur, cur', i) && cur'[i].dst == cur[i].dst && cur'[i].format == cur[i].format
    requires i < |wc'| && i < |wm'| && wc' == wc[i := wc'[i]] && wm' == wm[i := wm'[i]]
    requires ws == StagedWordsUpTo(w0, cur, imps, fences, i)
    requires ok ==>
      && WindowStaged(NormalisedState(orig[i]), cur'[i], wc'[i], wm'[i])
      && bw == AddBandwidth(bw0, cur'[i], fps[i])
      && count' == count + (if cur'[i].state == Buffer then 1 else 0)
      && ws' == ws[i := StagedWords(cur'[i], i, imps[i], fences[i], ws[i])]
    requires !ok ==> ws' == ws
    ensures StagingState(orig, cur', wc', wm', fps, i + 1, ok, bw, count', base)
    ensures ok ==> ws' == StagedWordsUpTo(w0, cur', imps, fences, i + 1)
    ensures !ok ==> ws' == StagedWordsUpTo(w0, cur', imps, fences, i)
  {
    ProgressStep(orig, cur, wc, wm, cur', wc', wm', fps, i, ok);
    if ok {
      BandwidthStep(cur', fps, i, fps[i], bw0, bw);
      StagedWordsStep(w0, cur, cur', imps, fences, i, ws, ws');
    } else {
      StagedWordsKept(w0, cur, cur', imps, fences, i);
    }
  }

  /** The words staged for windows 0 to i - 1 do not change when the turn
      of window i leaves the earlier requests as they were up to their block
      area. */
  lemma StagedWordsKept(w0: seq<WindowWords>, cur: seq<WinConfig>, cur': seq<WinConfig>, imps: seq<ImportOutcome>,
                        fences: seq<Option<FenceId>>, i: nat)
    requires i < |w0| <= |cur| && |w0| <= |imps| && |w0| <= |fences| && KeptBut(cur, cur', i)
    ensures StagedWordsUpTo(w0, cur', imps, fences, i) == StagedWordsUpTo(w0, cur, imps, fences, i)
  {
    forall k | 0 <= k < i
      ensures StagedWords(cur'[k], k, imps[k], fences[k], w0[k]) == StagedWords(cur[k], k, imps[k], fences[k], w0[k])
    {
      StagedWordsIgnoresBlockArea(cur[k], cur'[k].blockArea, k, imps[k], fences[k], w0[k]);
    }
  }

  /** The loop of decon_set_win_config over the max_win windows, stopping
      at the first error, stated as its invariant on exit. */
  method StagingLoop(dev: DeconDevice, cfgs: array<WinConfig>, regs: RegData,
                     blocking: bool, minW: nat, minH: nat, imps: seq<ImportOutcome>, fences: seq<Option<FenceId>>,
                     ghost fps: seq<int>)
    returns (ret: int, bw: int, ghost n: nat)
    requires regs.Valid() && dev.WindowsValid() && regs.maxWin == dev.maxWin && regs.maxWin <= cfgs.Length
    requires |imps| == regs.maxWin && |fences| == regs.maxWin && fps == WindowFps(dev.windows)
    requires forall k :: 0 <= k < regs.maxWin ==> ImportFits(imps[k], cfgs[k].format)
    modifies cfgs, regs.wincon, regs.winmap, regs.vidosdA, regs.vidosdB, regs.vidosdC, regs.vidosdD, regs.blendeq,
      regs.dmaBufData, regs.bufStart, regs.srcRegs, regs.protection, regs.blockRect, regs`numOfWindow,
      Screens(dev.windows), dev`fencePuts, dev`bufferReleases
    ensures ret <= 0 && (ret == 0 ==> n == regs.maxWin)
    ensures StagingState(old(cfgs[..]), cfgs[..], regs.wincon[..], regs.winmap[..], fps, n, ret == 0, bw, regs.numOfWindow, old(regs.numOfWindow))
    ensures ret == 0 ==> Words(regs) == StagedWordsUpTo(old(Words(regs)), cfgs[..], imps, fences, regs.maxWin)
    ensures ret != 0 ==> 0 < n && Words(regs) == StagedWordsUpTo(old(Words(regs)), cfgs[..], imps, fences, n - 1)
    ensures LoopAccounted(old(cfgs[..]), cfgs[..], old(ScreenInfos(dev.windows)), ScreenInfos(dev.windows), imps, fences,
                          n, ret, old(dev.bufferReleases), dev.bufferReleases, old(dev.fencePuts), dev.fencePuts)
  {
    ret, bw := 0, 0;
    ghost var orig, w0 := cfgs[..], Words(regs);
    ghost var infos0, rel0, puts0 := ScreenInfos(dev.windows), dev.bufferReleases, dev.fencePuts;
    assert StagedInfos(orig, orig, infos0, imps, fences, 0) == infos0;
    assert forall k :: 0 <= k < regs.maxWin ==> ImportFits(imps[k], orig[k].format);
    var i := 0;
    while i < regs.maxWin && ret == 0
      invariant 0 <= i <= regs.maxWin && ret <= 0
      invariant forall k :: 0 <= k < regs.maxWin ==> ImportFits(imps[k], orig[k].format)
      invariant StagingState(orig, cfgs[..], regs.wincon[..], regs.winmap[..], fps, i, ret == 0, bw, regs.numOfWindow, old(regs.numOfWindow))
      invariant ret == 0 ==> Words(regs) == StagedWordsUpTo(w0, cfgs[..], imps, fences, i)
      invariant ret != 0 ==> 0 < i && Words(regs) == StagedWordsUpTo(w0, cfgs[..], imps, fences, i - 1)
      invariant LoopAccounted(orig, cfgs[..], infos0, ScreenInfos(dev.windows), imps, fences, i, ret,
                              rel0, dev.bufferReleases, puts0, dev.fencePuts)
      decreases regs.maxWin - i
    {
      ret, bw := StageNext(dev, dev.windows[i], cfgs, regs, i, blocking, minW, minH, imps, fences, bw, orig, fps,
                           old(regs.numOfWindow), w0, infos0, rel0, puts0);
      i := i + 1;
    }
    n := i;
  }

  /** The loop of decon_set_win_config over the max_win windows, stopping
      at the first error. On success every window ends DISABLED, COLOR or
      BUFFER, with the enable bit set exactly on COLOR and BUFFER windows, the
      burst bit on every window, its window map, and the 32-bit sum of the
      buffer windows' bandwidth estimates. */
  method StageWindows(dev: DeconDevice, cfgs: array<WinConfig>, regs: RegData,
                      blocking: bool, minW: nat, minH: nat, imps: seq<ImportOutcome>, fences: seq<Option<FenceId>>)
    returns (ret: int, bw: int, ghost n: nat)
    requires regs.Valid() && dev.WindowsValid() && regs.maxWin == dev.maxWin && regs.maxWin <= cfgs.Length
    requires |imps| == regs.maxWin && |fences| == regs.maxWin
    requires forall k :: 0 <= k < regs.maxWin ==> ImportFits(imps[k], cfgs[k].format)
    modifies cfgs, regs.wincon, regs.winmap, regs.vidosdA, regs.vidosdB, regs.vidosdC, regs.vidosdD, regs.blendeq,
      regs.dmaBufData, regs.bufStart, regs.srcRegs, regs.protection, regs.blockRect, regs`numOfWindow,
      Screens(dev.windows), dev`fencePuts, dev`bufferReleases
    ensures ret <= 0
    ensures SameGeometry(old(cfgs[..]), cfgs[..])
    ensures ret == 0 ==> AllStaged(old(cfgs[..]), cfgs[..], regs.wincon[..], regs.winmap[..], regs.maxWin)
    ensures ret == 0 ==> Composed(cfgs[..], regs.wincon[..], regs.winmap[..], regs.maxWin)
    ensures ret == 0 ==>
      && bw == BufferBandwidth(cfgs[..], WindowFps(dev.windows), regs.maxWin)
      && regs.numOfWindow == old(regs.numOfWindow) + BufferCount(cfgs[..], regs.maxWin)
    ensures ret == 0 ==> Words(regs) == StagedWordsUpTo(old(Words(regs)), cfgs[..], imps, fences, regs.maxWin)
    ensures ret == 0 ==> n == regs.maxWin
    ensures LoopAccounted(old(cfgs[..]), cfgs[..], old(ScreenInfos(dev.windows)), ScreenInfos(dev.windows), imps, fences,
                          n, ret, old(dev.bufferReleases), dev.bufferReleases, old(dev.fencePuts), dev.fencePuts)
    ensures ret != 0 ==> Words(regs) == StagedWordsUpTo(old(Words(regs)), cfgs[..], imps, fences, n - 1)
    ensures SavedInfos(dev.windows) == old(SavedInfos(dev.windows))
  {
    ret, bw, n := StagingLoop(dev, cfgs, regs, blocking, minW, minH, imps, fences, WindowFps(dev.windows));
    if ret == 0 {
      AllStagedComposed(old(cfgs[..]), cfgs[..], regs.wincon[..], regs.winmap[..], regs.maxWin);
    }
  }
}
