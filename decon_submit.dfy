/**
 * decon_set_win_config around its per-window loop: the early exits for a
 * missing file descriptor, a display that is off or handed to the trusted
 * UI, and a failed allocation; the saved screen info; the window-update
 * clip; the copy of the requests into the snapshot; and either the undo of
 * a rejected submission or its hand-off to the commit worker's queue.
 *
 * The file-descriptor table and the sync framework are outside the model:
 * the descriptor get_unused_fd returns and whether kzalloc succeeds are
 * parameters, and a release fence is the descriptor it is installed on.
 */
module DeconSubmit {

  import opened KernelTypes
  import opened DeconFormat
  import opened DeconRegs
  import opened DeconState
  import opened DeconStaging
  import opened DeconGeometry
  import opened DeconWinUpdate
  import opened DeconWinConfig

  /** The prev_var / prev_fix save loop over the windows. */
  method SaveScreenInfo(dev: DeconDevice)
    modifies dev.windows`prevVar, dev.windows`prevFix
    ensures SavedInfos(dev.windows) == ScreenInfos(dev.windows) == old(ScreenInfos(dev.windows))
  {
    var i := 0;
    while i < |dev.windows|
      invariant 0 <= i <= |dev.windows|
      invariant forall k :: 0 <= k < i ==>
        dev.windows[k].prevVar == dev.windows[k].fbinfo.varInfo && dev.windows[k].prevFix == dev.windows[k].fbinfo.fix
    {
      dev.windows[i].prevFix := dev.windows[i].fbinfo.fix;
      dev.windows[i].prevVar := dev.windows[i].fbinfo.varInfo;
      i := i + 1;
    }
  }

  /** The undo loop of a rejected submission: every window gets its saved
      screen info back. */
  method RestoreScreenInfo(dev: DeconDevice)
    requires dev.WindowsValid()
    modifies Screens(dev.windows)
    ensures ScreenInfos(dev.windows) == SavedInfos(dev.windows) == old(SavedInfos(dev.windows))
  {
    var i := 0;
    while i < |dev.windows|
      invariant 0 <= i <= |dev.windows|
      invariant forall k :: 0 <= k < i ==>
        dev.windows[k].fbinfo.varInfo == dev.windows[k].prevVar && dev.windows[k].fbinfo.fix == dev.windows[k].prevFix
    {
      dev.windows[i].fbinfo.fix := dev.windows[i].prevFix;
      dev.windows[i].fbinfo.varInfo := dev.windows[i].prevVar;
      i := i + 1;
    }
  }

  /** The memcpy loop into regs->win_config. */
  method CopyConfigs(cfgs: array<WinConfig>, regs: RegData)
    requires regs.Valid() && regs.maxWin <= cfgs.Length && cfgs != regs.winConfig
    modifies regs.winConfig
    ensures regs.winConfig[..] == cfgs[..regs.maxWin]
  {
    var i := 0;
    while i < regs.maxWin
      invariant 0 <= i <= regs.maxWin
      invariant regs.winConfig[..i] == cfgs[..i]
    {
      regs.winConfig[i] := cfgs[i];
      assert regs.winConfig[..i + 1] == regs.winConfig[..i] + [cfgs[i]];
      i := i + 1;
    }
    assert regs.winConfig[..] == regs.winConfig[..regs.maxWin];
  }

  /** Mapped counts add up over a concatenation. */
  lemma {:induction false} MappedCountAppend(a: seq<DmaBufData>, b: seq<DmaBufData>)
    ensures MappedCount(a + b) == MappedCount(a) + MappedCount(b)
    ensures FencedCount(a + b) == FencedCount(a) + FencedCount(b)
    decreases |b|
  {
    if |b| == 0 {
      assert a + b == a;
    } else {
      assert (a + b)[..|a + b| - 1] == a + b[..|b| - 1];
      MappedCountAppend(a, b[..|b| - 1]);
    }
  }

  /** The plane records the undo loop hands to decon_free_dma_buf in window
      i: the first decon_get_memory_plane_cnt of its row (none for -1). */
  function PlanesOfRow(row: seq<DmaBufData>, c: WinConfig): seq<DmaBufData>
  {
    row[..Min(PlanesToImport(c.format), |row|)]
  }

  /** The plane records the undo loop frees, window after window. */
  function FreedPlanes(rows: seq<seq<DmaBufData>>, cs: seq<WinConfig>, n: nat): seq<DmaBufData>
    requires n <= |rows| && n <= |cs|
  {
    if n == 0 then [] else FreedPlanes(rows, cs, n - 1) + PlanesOfRow(rows[n - 1], cs[n - 1])
  }

  /** The plane loop for one window: decon_free_dma_buf on each of its
      first n records. */
  method FreeRow(dev: DeconDevice, bufs: array2<DmaBufData>, i: nat, n: nat)
    requires i < bufs.Length0 && bufs.Length1 == MAX_BUF_PLANE_CNT && n <= MAX_BUF_PLANE_CNT
    modifies bufs, dev`fencePuts, dev`bufferReleases
    ensures forall a, b :: 0 <= a < bufs.Length0 && 0 <= b < MAX_BUF_PLANE_CNT ==>
      bufs[a, b] == (if a == i && b < n then FreedRecord(old(bufs[a, b])) else old(bufs[a, b]))
    ensures dev.bufferReleases == old(dev.bufferReleases) + MappedCount(old(RowOf(bufs, i))[..n])
    ensures dev.fencePuts == old(dev.fencePuts) + FencedCount(old(RowOf(bufs, i))[..n])
  {
    ghost var row := RowOf(bufs, i);
    var j := 0;
    while j < n
      invariant 0 <= j <= n
      invariant forall a, b :: 0 <= a < bufs.Length0 && 0 <= b < MAX_BUF_PLANE_CNT ==>
        bufs[a, b] == (if a == i && b < j then FreedRecord(old(bufs[a, b])) else old(bufs[a, b]))
      invariant dev.bufferReleases == old(dev.bufferReleases) + MappedCount(row[..j])
      invariant dev.fencePuts == old(dev.fencePuts) + FencedCount(row[..j])
    {
      assert row[..j + 1][..j] == row[..j];
      bufs[i, j] := FreeDmaBuf(dev, bufs[i, j]);
      j := j + 1;
    }
  }

  /** The plane records of the first i windows are freed, the others are
      as they were. */
  predicate FreedUpTo(bufs: array2<DmaBufData>, rows: seq<seq<DmaBufData>>, cs: seq<WinConfig>, i: nat)
    reads bufs
  {
    && bufs.Length1 == MAX_BUF_PLANE_CNT && bufs.Length0 == |rows| && |rows| <= |cs| && i <= |rows|
    && (forall a :: 0 <= a < |rows| ==> |rows[a]| == MAX_BUF_PLANE_CNT)
    && forall a, b :: 0 <= a < bufs.Length0 && 0 <= b < MAX_BUF_PLANE_CNT ==>
      bufs[a, b] == (if a < i && b < PlanesToImport(cs[a].format) then FreedRecord(rows[a][b]) else rows[a][b])
  }

  /** One iteration of the undo loop's buffer release. */
  method FreeNext(dev: DeconDevice, bufs: array2<DmaBufData>, i: nat, n: nat, ghost rows: seq<seq<DmaBufData>>,
                  ghost cs: seq<WinConfig>, ghost puts: nat, ghost releases: nat)
    requires FreedUpTo(bufs, rows, cs, i) && i < |rows| && n == PlanesToImport(cs[i].format)
    requires dev.bufferReleases == releases + MappedCount(FreedPlanes(rows, cs, i))
    requires dev.fencePuts == puts + FencedCount(FreedPlanes(rows, cs, i))
    modifies bufs, dev`fencePuts, dev`bufferReleases
    ensures FreedUpTo(bufs, rows, cs, i + 1)
    ensures dev.bufferReleases == releases + MappedCount(FreedPlanes(rows, cs, i + 1))
    ensures dev.fencePuts == puts + FencedCount(FreedPlanes(rows, cs, i + 1))
  {
    assert RowOf(bufs, i) == rows[i];
    FreeRow(dev, bufs, i, n);
    MappedCountAppend(FreedPlanes(rows, cs, i), PlanesOfRow(rows[i], cs[i]));
  }

  /** The window loop of the buffer release, from its invariant at the
      start to its invariant at the end. */
  method FreeLoop(dev: DeconDevice, regs: RegData, ghost rows: seq<seq<DmaBufData>>, ghost cs: seq<WinConfig>)
    requires regs.Valid() && cs == regs.winConfig[..] && FreedUpTo(regs.dmaBufData, rows, cs, 0)
    modifies regs.dmaBufData, dev`fencePuts, dev`bufferReleases
    ensures FreedUpTo(regs.dmaBufData, rows, cs, regs.maxWin)
    ensures dev.bufferReleases == old(dev.bufferReleases) + MappedCount(FreedPlanes(rows, cs, regs.maxWin))
    ensures dev.fencePuts == old(dev.fencePuts) + FencedCount(FreedPlanes(rows, cs, regs.maxWin))
  {
    var i := 0;
    while i < regs.maxWin
      invariant 0 <= i <= regs.maxWin
      invariant FreedUpTo(regs.dmaBufData, rows, cs, i)
      invariant dev.bufferReleases == old(dev.bufferReleases) + MappedCount(FreedPlanes(rows, cs, i))
      invariant dev.fencePuts == old(dev.fencePuts) + FencedCount(FreedPlanes(rows, cs, i))
    {
      FreeNext(dev, regs.dmaBufData, i, PlanesToImport(regs.winConfig[i].format), rows, cs,
               old(dev.fencePuts), old(dev.bufferReleases));
      i := i + 1;
    }
  }

  /** Every window's row of plane records, from its words. */
  function WordRows(ws: seq<WindowWords>): seq<seq<DmaBufData>>
  {
    seq(|ws|, k requires 0 <= k < |ws| => ws[k].row)
  }

  /** The rows of a snapshot's plane records are those of its words. */
  lemma RowsOfWords(r: RegData)
    requires r.Valid()
    ensures Rows(r.dmaBufData) == WordRows(Words(r))
  {
    forall k | 0 <= k < r.maxWin
      ensures Rows(r.dmaBufData)[k] == WordRows(Words(r))[k]
    {
      WordsAt(r, k);
    }
  }

  /** The buffer release of a rejected submission: for every window, its
      first decon_get_memory_plane_cnt plane records are freed. Records of
      planes never mapped are zero, so the guard of decon_free_dma_buf makes
      them release nothing. */
  method FreeStagedBuffers(dev: DeconDevice, regs: RegData)
    requires regs.Valid()
    modifies regs.dmaBufData, dev`fencePuts, dev`bufferReleases
    ensures FreedUpTo(regs.dmaBufData, old(Rows(regs.dmaBufData)), regs.winConfig[..], regs.maxWin)
    ensures var freed := FreedPlanes(old(Rows(regs.dmaBufData)), regs.winConfig[..], regs.maxWin);
      && dev.bufferReleases == old(dev.bufferReleases) + MappedCount(freed)
      && dev.fencePuts == old(dev.fencePuts) + FencedCount(freed)
  {
    ghost var rows := Rows(regs.dmaBufData);
    FreeLoop(dev, regs, rows, regs.winConfig[..]);
  }

  /** The plane records a rejected submission hands back to the allocator
      when window n - 1 stopped the loop: those that window released
      itself, then the first plane records of every window of the
      snapshot, which holds the words staged over w0 for the windows
      before it. */
  function RejectedPlanes(orig: seq<WinConfig>, cur: seq<WinConfig>, infos0: seq<(VarInfo, FixInfo)>,
                          imps: seq<ImportOutcome>, fences: seq<Option<FenceId>>, w0: seq<WindowWords>, n: nat)
    : seq<DmaBufData>
    requires 0 < n <= |w0| <= |orig| && |w0| <= |cur| && |w0| <= |infos0| && |w0| <= |imps| && |w0| <= |fences|
  {
    WindowRelease(orig[n - 1], cur[n - 1], n - 1, infos0[n - 1].0, imps[n - 1], fences[n - 1])
      + FreedPlanes(WordRows(StagedWordsUpTo(w0, cur, imps, fences, n - 1)), cur[..|w0|], |w0|)
  }

  /** What a rejected submission leaves once undone, when window n - 1 of
      the requests orig stopped the loop with ret: the screen infos infos0
      it started from, no error in the windows before, and the allocator
      calls of RejectedPlanes counted. */
  predicate RejectionUndone(orig: seq<WinConfig>, cur: seq<WinConfig>, infos0: seq<(VarInfo, FixInfo)>,
                            infos: seq<(VarInfo, FixInfo)>, imps: seq<ImportOutcome>, fences: seq<Option<FenceId>>,
                            w0: seq<WindowWords>, n: nat, ret: int, rel0: nat, rel: nat, puts0: nat, puts: nat)
  {
    && 0 < n <= |w0| <= |orig| && |w0| <= |cur| && |w0| == |infos0| && |w0| <= |imps| && |w0| <= |fences|
    && infos == infos0
    && NoErrorUpTo(orig, cur, infos0, imps, fences, n - 1)
    && ret == WindowError(orig[n - 1], cur[n - 1], n - 1, infos0[n - 1].0, imps[n - 1], fences[n - 1])
    && rel == rel0 + MappedCount(RejectedPlanes(orig, cur, infos0, imps, fences, w0, n))
    && puts == puts0 + FencedCount(RejectedPlanes(orig, cur, infos0, imps, fences, w0, n))
  }

  /** The undo of a rejected submission: every window gets its saved screen
      info back, and the first plane records of every window of the
      snapshot are freed; the requests themselves are left alone. The
      loop's account on entry, with window n - 1 having stopped it, becomes
      the account of the whole rejection. */
  method UndoSubmission(dev: DeconDevice, regs: RegData, cfgs: array<WinConfig>, ghost orig: seq<WinConfig>,
                        ghost infos0: seq<(VarInfo, FixInfo)>, ghost imps: seq<ImportOutcome>,
                        ghost fences: seq<Option<FenceId>>, ghost w0: seq<WindowWords>, ghost n: nat, ghost ret: int,
                        ghost rel0: nat, ghost puts0: nat)
    requires regs.Valid() && dev.WindowsValid() && ret != 0 && |w0| == regs.maxWin && |infos0| == regs.maxWin
    requires LoopAccounted(orig, cfgs[..], infos0, ScreenInfos(dev.windows), imps, fences, n, ret,
                           rel0, dev.bufferReleases, puts0, dev.fencePuts)
    requires regs.winConfig[..] == cfgs[..regs.maxWin]
    requires SavedInfos(dev.windows) == infos0 && Words(regs) == StagedWordsUpTo(w0, cfgs[..], imps, fences, n - 1)
    modifies Screens(dev.windows), regs.dmaBufData, dev`fencePuts, dev`bufferReleases
    ensures cfgs[..] == old(cfgs[..])
    ensures RejectionUndone(orig, cfgs[..], infos0, ScreenInfos(dev.windows), imps, fences, w0, n, ret,
                            rel0, dev.bufferReleases, puts0, dev.fencePuts)
    ensures BookOf(dev, regs) == old(BookOf(dev, regs))
  {
    ghost var cur, infos1, ws, rel1, puts1 := cfgs[..], ScreenInfos(dev.windows), Words(regs), dev.bufferReleases, dev.fencePuts;
    RowsOfWords(regs);
    ghost var rows, wc := Rows(regs.dmaBufData), regs.winConfig[..];
    RestoreScreenInfo(dev);
    FreeStagedBuffers(dev, regs);
    assert cfgs[..] == cur && regs.winConfig[..] == wc == cur[..|w0|] && rows == WordRows(ws);
    ghost var freed := FreedPlanes(rows, wc, regs.maxWin);
    assert dev.bufferReleases == rel1 + MappedCount(freed) && dev.fencePuts == puts1 + FencedCount(freed);
    RejectionTotals(orig, cur, infos0, infos1, ScreenInfos(dev.windows), imps, fences, w0, ws, n, ret,
                    rel0, rel1, dev.bufferReleases, puts0, puts1, dev.fencePuts);
  }

  /** A snapshot ready for the commit worker: its copy of the requests, the
      32-bit bandwidth sum, the number of buffer windows, the enable, burst
      and window-map words, and every other word of each window. */
  predicate Snapshot(r: RegData, cfgs: seq<WinConfig>, fps: seq<int>, words: seq<WindowWords>)
    reads r, r.winConfig, r.wincon, r.winmap, r.vidosdA, r.vidosdB, r.vidosdC, r.vidosdD, r.blendeq, r.dmaBufData,
      r.bufStart, r.srcRegs, r.protection
  {
    && r.Valid() && r.maxWin <= |cfgs| && r.maxWin <= |fps|
    && r.winConfig[..] == cfgs[..r.maxWin]
    && r.bandwidth == BufferBandwidth(cfgs, fps, r.maxWin)
    && r.numOfWindow == BufferCount(cfgs, r.maxWin)
    && Composed(cfgs, r.wincon[..], r.winmap[..], r.maxWin)
    && Words(r) == words
  }

  /** In the snapshot of an accepted submission, which starts from kzalloc,
      a window the loop left DISABLED keeps every word zero. */
  lemma SnapshotDisabledWindow(r: RegData, cfgs: seq<WinConfig>, fps: seq<int>, imps: seq<ImportOutcome>,
                               fences: seq<Option<FenceId>>, k: nat)
    requires r.maxWin <= |cfgs| && |imps| == r.maxWin && |fences| == r.maxWin
    requires Snapshot(r, cfgs, fps, StagedWordsUpTo(ZeroWords(r.maxWin), cfgs, imps, fences, r.maxWin))
    requires k < r.maxWin && cfgs[k].state == Disabled
    ensures r.vidosdA[k] == TopLeft(0, 0) && r.vidosdB[k] == BotRight(0, 0)
    ensures r.vidosdC[k] == AlphaWord(0, 0, 0) && r.vidosdD[k] == AlphaWord(0, 0, 0)
    ensures k > 0 ==> r.blendeq[k - 1] == BlendZero
    ensures forall j :: 0 <= j < MAX_BUF_PLANE_CNT ==> r.dmaBufData[k, j] == ZeroDma
    ensures r.bufStart[k] == 0 && r.srcRegs[k] == SrcRegs(0, 0, 0, 0) && r.protection[k] == 0
  {
    WordsAt(r, k);
    assert Words(r)[k] == ZeroWords(r.maxWin)[k];
  }

  /** ... a COLOR window holds its position and the alpha and blend words
      of decon_set_alpha_blending without a per-pixel alpha; its buffer,
      source and protection words stay zero. */
  lemma SnapshotColorWindow(r: RegData, cfgs: seq<WinConfig>, fps: seq<int>, imps: seq<ImportOutcome>,
                            fences: seq<Option<FenceId>>, k: nat)
    requires r.maxWin <= |cfgs| && |imps| == r.maxWin && |fences| == r.maxWin
    requires Snapshot(r, cfgs, fps, StagedWordsUpTo(ZeroWords(r.maxWin), cfgs, imps, fences, r.maxWin))
    requires k < r.maxWin && cfgs[k].state == Color
    ensures var c := cfgs[k];
      var s := AlphaBlendingStage(c.planeAlpha, c.blending, k, 0, {});
      && r.vidosdA[k] == VidosdA(c.dst.x, c.dst.y) && r.vidosdB[k] == VidosdB(c.dst.x, c.dst.y, c.dst.w, c.dst.h)
      && r.vidosdC[k] == s.c && r.vidosdD[k] == s.d
      && (k > 0 ==> s.blendeq == Some(r.blendeq[k - 1]))
    ensures forall j :: 0 <= j < MAX_BUF_PLANE_CNT ==> r.dmaBufData[k, j] == ZeroDma
    ensures r.bufStart[k] == 0 && r.srcRegs[k] == SrcRegs(0, 0, 0, 0) && r.protection[k] == 0
  {
    WordsAt(r, k);
    assert Words(r)[k] == ColorWords(cfgs[k], k, ZeroWords(r.maxWin)[k]);
  }

  /** ... and a BUFFER window decon_set_win_buffer accepted holds its
      position, its alpha and blend words, the imported plane records with
      their offsets, the start of its first plane, its source words and its
      protection flag. */
  lemma SnapshotBufferWindow(r: RegData, cfgs: seq<WinConfig>, fps: seq<int>, imps: seq<ImportOutcome>,
                             fences: seq<Option<FenceId>>, k: nat)
    requires r.maxWin <= |cfgs| && |imps| == r.maxWin && |fences| == r.maxWin
    requires Snapshot(r, cfgs, fps, StagedWordsUpTo(ZeroWords(r.maxWin), cfgs, imps, fences, r.maxWin))
    requires k < r.maxWin && cfgs[k].state == Buffer && ImportFits(imps[k], cfgs[k].format)
    requires BufferStage(cfgs[k], k, ZeroVarInfo, imps[k], fences[k]).Staged?
    ensures var c, o := cfgs[k], BufferStage(cfgs[k], k, ZeroVarInfo, imps[k], fences[k]);
      var s := FillAlpha(c, k, o.varInfo.bitsPerPixel, o.varInfo.transpLength);
      && r.vidosdA[k] == VidosdA(c.dst.x, c.dst.y) && r.vidosdB[k] == VidosdB(c.dst.x, c.dst.y, c.dst.w, c.dst.h)
      && r.vidosdC[k] == s.c && r.vidosdD[k] == s.d
      && (k > 0 ==> s.blendeq == Some(r.blendeq[k - 1]))
      && RowOf(r.dmaBufData, k) == StagedRow([ZeroDma, ZeroDma, ZeroDma], o.planes, c)
      && r.bufStart[k] == o.fix.smemStart && (|o.planes| > 0 ==> r.bufStart[k] == o.planes[0].dmaAddr)
      && r.srcRegs[k] == SrcRegs(c.src.fW, c.src.fH, c.src.x, c.src.y) && r.protection[k] == c.protection
  {
    WordsAt(r, k);
    assert Words(r)[k] == BufferWords(cfgs[k], k, imps[k], fences[k], ZeroWords(r.maxWin)[k]);
  }

  /** The requests the per-window loop receives: on a DSI panel those
      decon_set_win_update_config leaves, on any other output the submitted
      ones. */
  function PreparedRequests(cs: seq<WinConfig>, maxWin: nat, outType: OutType, stored: WinRect, xres: nat): (r: seq<WinConfig>)
    requires |cs| == maxWin + 1
    ensures |r| == |cs|
  {
    if outType == OutDsi then UpdatedRequests(cs, maxWin, stored, xres) else cs
  }

  /** The window-update bookkeeping after that step, for the submitted
      update slot c. */
  function PreparedBook(c: WinConfig, outType: OutType, lcd: LcdInfo, b: UpdateBook): UpdateBook
  {
    if outType == OutDsi then BookAfter(CalibratedUpdate(c, b.devWin, lcd.xres), lcd, b) else b
  }

  /** The prev_var / prev_fix save, then the window-update step on a DSI
      panel: the update slot calibrated, every window clipped into it, and
      the update rectangle recorded in the device and the snapshot. */
  method PrepareSubmission(dev: DeconDevice, cfgs: array<WinConfig>, regs: RegData)
    requires cfgs.Length == dev.maxWin + 1 && regs.Valid()
    modifies cfgs, dev.windows`prevVar, dev.windows`prevFix, dev`needUpdate, dev`updateWin, regs`needUpdate, regs`updateWin
    ensures cfgs[..] == PreparedRequests(old(cfgs[..]), dev.maxWin, dev.outType, old(dev.updateWin), dev.lcd.xres)
    ensures BookOf(dev, regs) == PreparedBook(old(cfgs[dev.maxWin]), dev.outType, dev.lcd, old(BookOf(dev, regs)))
    ensures forall k :: 0 <= k < dev.maxWin ==> cfgs[k].format == old(cfgs[k].format)
    ensures SavedInfos(dev.windows) == ScreenInfos(dev.windows) == old(ScreenInfos(dev.windows))
    ensures Words(regs) == old(Words(regs))
  {
    ghost var words := Words(regs);
    SaveScreenInfo(dev);
    assert Words(regs) == words;
    if dev.outType == OutDsi {
      SetWinUpdateConfig(dev, cfgs, regs);
      UpdatedRequestsKeepFormat(old(cfgs[..]), dev.maxWin, old(dev.updateWin), dev.lcd.xres);
    }
  }

  /** The per-window loop, the copy of the requests and the bandwidth. */
  method BuildSnapshot(dev: DeconDevice, cfgs: array<WinConfig>, regs: RegData,
                       blocking: bool, minW: nat, minH: nat, imps: seq<ImportOutcome>, fences: seq<Option<FenceId>>)
    returns (ret: int, ghost n: nat)
    requires regs.Valid() && dev.WindowsValid() && regs.maxWin == dev.maxWin && cfgs.Length == dev.maxWin + 1
    requires cfgs != regs.winConfig && regs.numOfWindow == 0
    requires |imps| == dev.maxWin && |fences| == dev.maxWin
    requires forall k :: 0 <= k < dev.maxWin ==> ImportFits(imps[k], cfgs[k].format)
    modifies cfgs, regs.wincon, regs.winmap, regs.vidosdA, regs.vidosdB, regs.vidosdC, regs.vidosdD, regs.blendeq,
      regs.dmaBufData, regs.bufStart, regs.srcRegs, regs.protection, regs.blockRect, regs.winConfig,
      regs`numOfWindow, regs`bandwidth, Screens(dev.windows), dev`fencePuts, dev`bufferReleases
    ensures ret <= 0 && SameGeometry(old(cfgs[..]), cfgs[..])
    ensures ret == 0 ==> n == regs.maxWin && AllStaged(old(cfgs[..]), cfgs[..], regs.wincon[..], regs.winmap[..], regs.maxWin)
    ensures ret == 0 ==>
      Snapshot(regs, cfgs[..], WindowFps(dev.windows), StagedWordsUpTo(old(Words(regs)), cfgs[..], imps, fences, regs.maxWin))
    ensures LoopAccounted(old(cfgs[..]), cfgs[..], old(ScreenInfos(dev.windows)), ScreenInfos(dev.windows), imps, fences,
                          n, ret, old(dev.bufferReleases), dev.bufferReleases, old(dev.fencePuts), dev.fencePuts)
    ensures ret != 0 ==> Words(regs) == StagedWordsUpTo(old(Words(regs)), cfgs[..], imps, fences, n - 1)
    ensures regs.winConfig[..] == cfgs[..regs.maxWin]
    ensures SavedInfos(dev.windows) == old(SavedInfos(dev.windows)) && BookOf(dev, regs) == old(BookOf(dev, regs))
  {
    var bw;
    ghost var w0 := Words(regs);
    ret, bw, n := StageWindows(dev, cfgs, regs, blocking, minW, minH, imps, fences);
    ghost var cur := cfgs[..];
    RecordSubmission(dev, cfgs, regs, bw);
    if ret == 0 {
      assert Snapshot(regs, cur, WindowFps(dev.windows), StagedWordsUpTo(w0, cur, imps, fences, regs.maxWin));
    } else {
      assert Words(regs) == StagedWordsUpTo(w0, cur, imps, fences, n - 1);
    }
  }

  /** The copy of the requests into the snapshot, and its bandwidth. */
  method RecordSubmission(dev: DeconDevice, cfgs: array<WinConfig>, regs: RegData, bw: int)
    requires regs.Valid() && regs.maxWin <= cfgs.Length && cfgs != regs.winConfig
    modifies regs.winConfig, regs`bandwidth
    ensures regs.winConfig[..] == cfgs[..regs.maxWin] && regs.bandwidth == bw
    ensures Words(regs) == old(Words(regs)) && regs.wincon[..] == old(regs.wincon[..]) && regs.winmap[..] == old(regs.winmap[..])
    ensures cfgs[..] == old(cfgs[..]) && BookOf(dev, regs) == old(BookOf(dev, regs))
    ensures ScreenInfos(dev.windows) == old(ScreenInfos(dev.windows)) && SavedInfos(dev.windows) == old(SavedInfos(dev.windows))
  {
    CopyConfigs(cfgs, regs);
    regs.bandwidth := bw;
  }

  /** Everything between the allocation of the snapshot and the decision to
      queue it: the saved screen info, the window-update clip on a DSI
      panel, the per-window loop, the copy of the requests and the
      bandwidth; for a rejected submission, the restored screen info and
      the released buffers. */
  method StageSubmission(dev: DeconDevice, cfgs: array<WinConfig>, regs: RegData,
                         blocking: bool, minW: nat, minH: nat, imps: seq<ImportOutcome>, fences: seq<Option<FenceId>>,
                         ghost w0: seq<WindowWords>)
    returns (ret: int, ghost n: nat)
    requires regs.Valid() && dev.WindowsValid() && regs.maxWin == dev.maxWin && cfgs.Length == dev.maxWin + 1
    requires Words(regs) == w0
    requires cfgs != regs.winConfig && regs.numOfWindow == 0
    requires |imps| == dev.maxWin && |fences| == dev.maxWin
    requires forall k :: 0 <= k < dev.maxWin ==> ImportFits(imps[k], cfgs[k].format)
    modifies cfgs, regs.wincon, regs.winmap, regs.vidosdA, regs.vidosdB, regs.vidosdC, regs.vidosdD, regs.blendeq,
      regs.dmaBufData, regs.bufStart, regs.srcRegs, regs.protection, regs.blockRect, regs.winConfig,
      regs`numOfWindow, regs`bandwidth, regs`needUpdate, regs`updateWin,
      Screens(dev.windows), dev.windows`prevVar, dev.windows`prevFix,
      dev`fencePuts, dev`bufferReleases, dev`needUpdate, dev`updateWin
    ensures ret <= 0
    ensures var prepared := PreparedRequests(old(cfgs[..]), dev.maxWin, dev.outType, old(dev.updateWin), dev.lcd.xres);
      SameGeometry(prepared, cfgs[..])
    ensures BookOf(dev, regs) == PreparedBook(old(cfgs[dev.maxWin]), dev.outType, dev.lcd, old(BookOf(dev, regs)))
    ensures ret == 0 ==>
      Snapshot(regs, cfgs[..], WindowFps(dev.windows), StagedWordsUpTo(w0, cfgs[..], imps, fences, regs.maxWin))
    ensures var prepared := PreparedRequests(old(cfgs[..]), dev.maxWin, dev.outType, old(dev.updateWin), dev.lcd.xres);
      ret == 0 ==>
      && AllStaged(prepared, cfgs[..], regs.wincon[..], regs.winmap[..], regs.maxWin)
      && LoopAccounted(prepared, cfgs[..], old(ScreenInfos(dev.windows)), ScreenInfos(dev.windows), imps, fences,
                       dev.maxWin, 0, old(dev.bufferReleases), dev.bufferReleases, old(dev.fencePuts), dev.fencePuts)
    ensures var prepared := PreparedRequests(old(cfgs[..]), dev.maxWin, dev.outType, old(dev.updateWin), dev.lcd.xres);
      ret != 0 ==>
      RejectionUndone(prepared, cfgs[..], old(ScreenInfos(dev.windows)), ScreenInfos(dev.windows), imps, fences,
                      w0, n, ret, old(dev.bufferReleases), dev.bufferReleases, old(dev.fencePuts), dev.fencePuts)
  {
    PrepareSubmission(dev, cfgs, regs);
    ghost var prepared, infos0 := cfgs[..], ScreenInfos(dev.windows);
    ghost var rel0, puts0, book := dev.bufferReleases, dev.fencePuts, BookOf(dev, regs);
    assert prepared == PreparedRequests(old(cfgs[..]), dev.maxWin, dev.outType, old(dev.updateWin), dev.lcd.xres);
    assert infos0 == old(ScreenInfos(dev.windows)) && Words(regs) == w0;
    ret, n := BuildSnapshot(dev, cfgs, regs, blocking, minW, minH, imps, fences);
    ghost var cur := cfgs[..];
    if ret != 0 {
      UndoSubmission(dev, regs, cfgs, prepared, infos0, imps, fences, w0, n, ret, rel0, puts0);
      assert cfgs[..] == cur;
    }
    assert BookOf(dev, regs) == book;
  }

  /** The totals of a rejection: the loop's own account of the window that
      stopped it, then the undo's release of the snapshot's plane records. */
  lemma RejectionTotals(orig: seq<WinConfig>, cur: seq<WinConfig>, infos0: seq<(VarInfo, FixInfo)>,
                        infos1: seq<(VarInfo, FixInfo)>, infos: seq<(VarInfo, FixInfo)>, imps: seq<ImportOutcome>,
                        fences: seq<Option<FenceId>>, w0: seq<WindowWords>, ws: seq<WindowWords>, n: nat, ret: int,
                        rel0: nat, rel1: nat, rel: nat, puts0: nat, puts1: nat, puts: nat)
    requires LoopAccounted(orig, cur, infos0, infos1, imps, fences, n, ret, rel0, rel1, puts0, puts1) && ret != 0
    requires |w0| == |infos0| && infos == infos0 && ws == StagedWordsUpTo(w0, cur, imps, fences, n - 1)
    requires var freed := FreedPlanes(WordRows(ws), cur[..|w0|], |w0|);
      rel == rel1 + MappedCount(freed) && puts == puts1 + FencedCount(freed)
    ensures RejectionUndone(orig, cur, infos0, infos, imps, fences, w0, n, ret, rel0, rel, puts0, puts)
  {
    MappedCountAppend(WindowRelease(orig[n - 1], cur[n - 1], n - 1, infos0[n - 1].0, imps[n - 1], fences[n - 1]),
                      FreedPlanes(WordRows(ws), cur[..|w0|], |w0|));
  }

  /** A display that is off, ignores vsync or is handed to the trusted UI
      takes no submission: the caller gets a fence on the next timeline
      point, and the timeline advances by one; the new fence waits for the
      next commit or bypass. */
  predicate Bypassed(dev: DeconDevice)
    reads dev`state, dev`ignoreVsync
  {
    dev.state == StateOff || dev.ignoreVsync || dev.outType == OutTui
  }

  /** decon_set_win_config once the snapshot is allocated: staging, then
      either the undo of a rejected submission or, on a DSI panel, the
      release fence on the next timeline point and the snapshot queued last
      for the commit worker. On a rejection, n - 1 is the window that
      stopped the loop. */
  method SubmitSnapshot(dev: DeconDevice, cfgs: array<WinConfig>, fd: int, zeroConfig: WinConfig,
                        blocking: bool, minW: nat, minH: nat, imps: seq<ImportOutcome>, fences: seq<Option<FenceId>>)
    returns (ret: int, fence: Option<int>, ghost n: nat, ghost queued: RegData)
    requires dev.WindowsValid() && cfgs.Length == dev.maxWin + 1
    requires |imps| == dev.maxWin && |fences| == dev.maxWin
    requires forall k :: 0 <= k < dev.maxWin ==> ImportFits(imps[k], cfgs[k].format)
    modifies cfgs, dev`timelineMax, dev`queue, dev`fencePuts, dev`bufferReleases, dev`needUpdate, dev`updateWin,
      Screens(dev.windows), dev.windows`prevVar, dev.windows`prevFix
    ensures ret <= 0
    ensures var prepared := PreparedRequests(old(cfgs[..]), dev.maxWin, dev.outType, old(dev.updateWin), dev.lcd.xres);
      SameGeometry(prepared, cfgs[..])
    ensures var book := PreparedBook(old(cfgs[dev.maxWin]), dev.outType, dev.lcd,
                                     UpdateBook(old(dev.needUpdate), old(dev.updateWin), false, WinRect(0, 0, 0, 0)));
      dev.needUpdate == book.devNeed && dev.updateWin == book.devWin
    ensures var prepared := PreparedRequests(old(cfgs[..]), dev.maxWin, dev.outType, old(dev.updateWin), dev.lcd.xres);
      ret != 0 ==>
      && fence.None? && dev.timelineMax == old(dev.timelineMax) && dev.queue == old(dev.queue)
      && RejectionUndone(prepared, cfgs[..], old(ScreenInfos(dev.windows)), ScreenInfos(dev.windows), imps, fences,
                         ZeroWords(dev.maxWin), n, ret, old(dev.bufferReleases), dev.bufferReleases,
                         old(dev.fencePuts), dev.fencePuts)
    ensures var prepared := PreparedRequests(old(cfgs[..]), dev.maxWin, dev.outType, old(dev.updateWin), dev.lcd.xres);
      ret == 0 ==>
      LoopAccounted(prepared, cfgs[..], old(ScreenInfos(dev.windows)), ScreenInfos(dev.windows), imps, fences,
                    dev.maxWin, 0, old(dev.bufferReleases), dev.bufferReleases, old(dev.fencePuts), dev.fencePuts)
    ensures var prepared := PreparedRequests(old(cfgs[..]), dev.maxWin, dev.outType, old(dev.updateWin), dev.lcd.xres);
      ret == 0 && dev.outType == OutDsi ==>
      && fence == Some(fd) && dev.timelineMax == old(dev.timelineMax) + 1
      && dev.queue == old(dev.queue) + [queued]
      && fresh(queued)
      && Snapshot(queued, cfgs[..], WindowFps(dev.windows), StagedWordsUpTo(ZeroWords(dev.maxWin), cfgs[..], imps, fences, dev.maxWin))
      && AllStaged(prepared, cfgs[..], queued.wincon[..], queued.winmap[..], dev.maxWin)
      && BookOf(dev, queued) == PreparedBook(old(cfgs[dev.maxWin]), dev.outType, dev.lcd,
                                             UpdateBook(old(dev.needUpdate), old(dev.updateWin), false, WinRect(0, 0, 0, 0)))
    ensures ret == 0 && dev.outType != OutDsi ==>
      && fence.None? && dev.timelineMax == old(dev.timelineMax) && dev.queue == old(dev.queue)
  {
    var regs;
    ret, regs, n := StageFreshSnapshot(dev, cfgs, zeroConfig, blocking, minW, minH, imps, fences);
    queued := regs;
    fence := Enqueue(dev, regs, ret, fd, cfgs,
                     PreparedRequests(old(cfgs[..]), dev.maxWin, dev.outType, old(dev.updateWin), dev.lcd.xres),
                     old(ScreenInfos(dev.windows)), old(dev.bufferReleases), old(dev.fencePuts), imps, fences, n,
                     PreparedBook(old(cfgs[dev.maxWin]), dev.outType, dev.lcd,
                                  UpdateBook(old(dev.needUpdate), old(dev.updateWin), false, WinRect(0, 0, 0, 0))));
  }

  /** kzalloc of the snapshot, then StageSubmission on it: an accepted
      submission's snapshot holds the words staged over all-zero ones, and
      a rejected one releases what the loop staged over them. */
  method StageFreshSnapshot(dev: DeconDevice, cfgs: array<WinConfig>, zeroConfig: WinConfig,
                            blocking: bool, minW: nat, minH: nat, imps: seq<ImportOutcome>, fences: seq<Option<FenceId>>)
    returns (ret: int, regs: RegData, ghost n: nat)
    requires dev.WindowsValid() && cfgs.Length == dev.maxWin + 1
    requires |imps| == dev.maxWin && |fences| == dev.maxWin
    requires forall k :: 0 <= k < dev.maxWin ==> ImportFits(imps[k], cfgs[k].format)
    modifies cfgs, Screens(dev.windows), dev.windows`prevVar, dev.windows`prevFix,
      dev`fencePuts, dev`bufferReleases, dev`needUpdate, dev`updateWin
    ensures ret <= 0 && fresh(regs) && regs.Valid() && regs.maxWin == dev.maxWin
    ensures var prepared := PreparedRequests(old(cfgs[..]), dev.maxWin, dev.outType, old(dev.updateWin), dev.lcd.xres);
      SameGeometry(prepared, cfgs[..])
    ensures BookOf(dev, regs) == PreparedBook(old(cfgs[dev.maxWin]), dev.outType, dev.lcd,
                                              UpdateBook(old(dev.needUpdate), old(dev.updateWin), false, WinRect(0, 0, 0, 0)))
    ensures ret == 0 ==>
      Snapshot(regs, cfgs[..], WindowFps(dev.windows), StagedWordsUpTo(ZeroWords(dev.maxWin), cfgs[..], imps, fences, dev.maxWin))
    ensures var prepared := PreparedRequests(old(cfgs[..]), dev.maxWin, dev.outType, old(dev.updateWin), dev.lcd.xres);
      ret == 0 ==>
      && AllStaged(prepared, cfgs[..], regs.wincon[..], regs.winmap[..], dev.maxWin)
      && LoopAccounted(prepared, cfgs[..], old(ScreenInfos(dev.windows)), ScreenInfos(dev.windows), imps, fences,
                       dev.maxWin, 0, old(dev.bufferReleases), dev.bufferReleases, old(dev.fencePuts), dev.fencePuts)
    ensures var prepared := PreparedRequests(old(cfgs[..]), dev.maxWin, dev.outType, old(dev.updateWin), dev.lcd.xres);
      ret != 0 ==>
      RejectionUndone(prepared, cfgs[..], old(ScreenInfos(dev.windows)), ScreenInfos(dev.windows), imps, fences,
                      ZeroWords(dev.maxWin), n, ret, old(dev.bufferReleases), dev.bufferReleases,
                      old(dev.fencePuts), dev.fencePuts)
  {
    regs := AllocSnapshot(dev.maxWin, zeroConfig);
    ret, n := StageSubmission(dev, cfgs, regs, blocking, minW, minH, imps, fences, ZeroWords(dev.maxWin));
  }

  /** kzalloc of the snapshot: valid, empty, and zero in every word. */
  method AllocSnapshot(maxWin: nat, zeroConfig: WinConfig) returns (regs: RegData)
    requires maxWin >= 1
    ensures fresh(regs) && regs.Valid() && regs.maxWin == maxWin && Words(regs) == ZeroWords(maxWin)
    ensures regs.numOfWindow == 0 && !regs.needUpdate && regs.updateWin == WinRect(0, 0, 0, 0)
    ensures fresh(regs.wincon) && fresh(regs.winmap) && fresh(regs.vidosdA) && fresh(regs.vidosdB)
    ensures fresh(regs.vidosdC) && fresh(regs.vidosdD) && fresh(regs.blendeq) && fresh(regs.dmaBufData)
    ensures fresh(regs.bufStart) && fresh(regs.srcRegs) && fresh(regs.protection) && fresh(regs.blockRect)
    ensures fresh(regs.winConfig)
  {
    regs := new RegData(maxWin, zeroConfig);
    ZeroedWords(regs);
  }

  /** The hand-off that follows staging: an accepted submission on a DSI
      panel gets the release fence on the next timeline point and its
      snapshot is queued last; otherwise nothing is queued and no fence is
      made. Everything staging established about the requests, the windows
      and the snapshot still holds afterwards. */
  method Enqueue(dev: DeconDevice, regs: RegData, ret: int, fd: int, cfgs: array<WinConfig>,
                 ghost prepared: seq<WinConfig>, ghost infos0: seq<(VarInfo, FixInfo)>, ghost rel0: nat, ghost puts0: nat,
                 ghost imps: seq<ImportOutcome>, ghost fences: seq<Option<FenceId>>, ghost n: nat, ghost book: UpdateBook)
    returns (fence: Option<int>)
    requires dev.WindowsValid() && |imps| == dev.maxWin && |fences| == dev.maxWin && cfgs.Length == dev.maxWin + 1
    requires SameGeometry(prepared, cfgs[..])
    requires ret != 0 ==>
      RejectionUndone(prepared, cfgs[..], infos0, ScreenInfos(dev.windows), imps, fences,
                      ZeroWords(dev.maxWin), n, ret, rel0, dev.bufferReleases, puts0, dev.fencePuts)
    requires ret == 0 ==>
      && LoopAccounted(prepared, cfgs[..], infos0, ScreenInfos(dev.windows), imps, fences,
                       dev.maxWin, 0, rel0, dev.bufferReleases, puts0, dev.fencePuts)
      && Snapshot(regs, cfgs[..], WindowFps(dev.windows), StagedWordsUpTo(ZeroWords(dev.maxWin), cfgs[..], imps, fences, dev.maxWin))
      && AllStaged(prepared, cfgs[..], regs.wincon[..], regs.winmap[..], dev.maxWin)
    requires BookOf(dev, regs) == book
    modifies dev`timelineMax, dev`queue
    ensures SameGeometry(prepared, cfgs[..])
    ensures dev.needUpdate == book.devNeed && dev.updateWin == book.devWin
    ensures ret != 0 ==>
      && fence.None? && dev.timelineMax == old(dev.timelineMax) && dev.queue == old(dev.queue)
      && RejectionUndone(prepared, cfgs[..], infos0, ScreenInfos(dev.windows), imps, fences,
                         ZeroWords(dev.maxWin), n, ret, rel0, dev.bufferReleases, puts0, dev.fencePuts)
    ensures ret == 0 ==>
      LoopAccounted(prepared, cfgs[..], infos0, ScreenInfos(dev.windows), imps, fences,
                    dev.maxWin, 0, rel0, dev.bufferReleases, puts0, dev.fencePuts)
    ensures ret == 0 && dev.outType == OutDsi ==>
      && fence == Some(fd) && dev.timelineMax == old(dev.timelineMax) + 1
      && dev.queue == old(dev.queue) + [regs]
      && Snapshot(regs, cfgs[..], WindowFps(dev.windows), StagedWordsUpTo(ZeroWords(dev.maxWin), cfgs[..], imps, fences, dev.maxWin))
      && AllStaged(prepared, cfgs[..], regs.wincon[..], regs.winmap[..], dev.maxWin)
      && BookOf(dev, regs) == book
    ensures ret == 0 && dev.outType != OutDsi ==>
      && fence.None? && dev.timelineMax == old(dev.timelineMax) && dev.queue == old(dev.queue)
  {
    fence := None;
    if ret == 0 && dev.outType == OutDsi {
      dev.timelineMax := dev.timelineMax + 1;
      fence := Some(fd);
      dev.queue := dev.queue + [regs];
    }
  }

  /** decon_set_win_config. `fd` is what get_unused_fd returns, `allocOk`
      whether kzalloc of the snapshot succeeds, and `zeroConfig` the
      all-zero request the fresh snapshot holds; `imps` and `fences` are the
      allocator's and the sync framework's answers for each window. Returns
      the error and the release fence handed back in win_data->fence, if
      one is installed; on a rejection, n - 1 is the window that stopped
      the loop. */
  method SetWinConfig(dev: DeconDevice, cfgs: array<WinConfig>, fd: int, allocOk: bool, zeroConfig: WinConfig,
                      blocking: bool, minW: nat, minH: nat, imps: seq<ImportOutcome>, fences: seq<Option<FenceId>>)
    returns (ret: int, fence: Option<int>, ghost n: nat)
    requires dev.WindowsValid() && cfgs.Length == dev.maxWin + 1
    requires |imps| == dev.maxWin && |fences| == dev.maxWin
    requires forall k :: 0 <= k < dev.maxWin ==> ImportFits(imps[k], cfgs[k].format)
    modifies cfgs, dev`timelineMax, dev`timelineValue, dev`queue, dev`fencePuts, dev`bufferReleases,
      dev`needUpdate, dev`updateWin, Screens(dev.windows), dev.windows`prevVar, dev.windows`prevFix
    ensures old(dev.TimelineBalanced()) ==> dev.TimelineBalanced()
    // no descriptor: nothing happens
    ensures fd < 0 ==> ret == -EINVAL && fence.None? && unchanged(dev)
    // no staging at all: the requests, the screen infos, the buffers and
    // the window-update bookkeeping stay as they were
    ensures fd < 0 || old(Bypassed(dev)) || !allocOk ==>
      && unchanged(cfgs) && ScreenInfos(dev.windows) == old(ScreenInfos(dev.windows))
      && SavedInfos(dev.windows) == old(SavedInfos(dev.windows))
      && dev.bufferReleases == old(dev.bufferReleases) && dev.fencePuts == old(dev.fencePuts)
      && dev.windowBufs == old(dev.windowBufs) && dev.prevBw == old(dev.prevBw)
      && dev.needUpdate == old(dev.needUpdate) && dev.updateWin == old(dev.updateWin)
    // nothing to show: a fence on the next timeline point, which the
    // timeline reaches only with the next commit or bypass
    ensures fd >= 0 && old(Bypassed(dev)) ==>
      && ret == 0 && fence == Some(fd)
      && dev.timelineMax == old(dev.timelineMax) + 1 && dev.timelineValue == old(dev.timelineValue) + 1
      && dev.queue == old(dev.queue)
      && (old(dev.TimelineBalanced()) ==> dev.timelineValue < dev.timelineMax)
    ensures fd >= 0 && !old(Bypassed(dev)) && !allocOk ==>
      && ret == -ENOMEM && fence.None? && dev.timelineMax == old(dev.timelineMax) && dev.queue == old(dev.queue)
    ensures fd >= 0 && !old(Bypassed(dev)) && allocOk ==> ret <= 0 && dev.timelineValue == old(dev.timelineValue)
    // staging: the window-update step on a DSI panel, then the loop over
    // the requests as that step left them
    ensures var prepared := PreparedRequests(old(cfgs[..]), dev.maxWin, dev.outType, old(dev.updateWin), dev.lcd.xres);
      var book := PreparedBook(old(cfgs[dev.maxWin]), dev.outType, dev.lcd,
                               UpdateBook(old(dev.needUpdate), old(dev.updateWin), false, WinRect(0, 0, 0, 0)));
      fd >= 0 && !old(Bypassed(dev)) && allocOk ==>
      && SameGeometry(prepared, cfgs[..])
      && dev.needUpdate == book.devNeed && dev.updateWin == book.devWin
    // a rejected submission: no fence, every window's screen info as it
    // was, and the buffers of the failing window and of the snapshot
    // released
    ensures var prepared := PreparedRequests(old(cfgs[..]), dev.maxWin, dev.outType, old(dev.updateWin), dev.lcd.xres);
      fd >= 0 && !old(Bypassed(dev)) && allocOk && ret != 0 ==>
      && fence.None? && dev.timelineMax == old(dev.timelineMax) && dev.queue == old(dev.queue)
      && RejectionUndone(prepared, cfgs[..], old(ScreenInfos(dev.windows)), ScreenInfos(dev.windows), imps, fences,
                         ZeroWords(dev.maxWin), n, ret, old(dev.bufferReleases), dev.bufferReleases,
                         old(dev.fencePuts), dev.fencePuts)
    // an accepted submission: every window's screen info as staged, no
    // buffer released
    ensures var prepared := PreparedRequests(old(cfgs[..]), dev.maxWin, dev.outType, old(dev.updateWin), dev.lcd.xres);
      fd >= 0 && !old(Bypassed(dev)) && allocOk && ret == 0 ==>
      LoopAccounted(prepared, cfgs[..], old(ScreenInfos(dev.windows)), ScreenInfos(dev.windows), imps, fences,
                    dev.maxWin, 0, old(dev.bufferReleases), dev.bufferReleases, old(dev.fencePuts), dev.fencePuts)
    // on a DSI panel it is queued behind the earlier ones, with a fence one
    // step further on the timeline
    ensures var prepared := PreparedRequests(old(cfgs[..]), dev.maxWin, dev.outType, old(dev.updateWin), dev.lcd.xres);
      fd >= 0 && !old(Bypassed(dev)) && allocOk && ret == 0 && dev.outType == OutDsi ==>
      && fence == Some(fd) && dev.timelineMax == old(dev.timelineMax) + 1
      && |dev.queue| == |old(dev.queue)| + 1 && dev.queue[..|old(dev.queue)|] == old(dev.queue)
      && var queued := dev.queue[|old(dev.queue)|];
      && fresh(queued)
      && Snapshot(queued, cfgs[..], WindowFps(dev.windows), StagedWordsUpTo(ZeroWords(dev.maxWin), cfgs[..], imps, fences, dev.maxWin))
      && AllStaged(prepared, cfgs[..], queued.wincon[..], queued.winmap[..], dev.maxWin)
      && BookOf(dev, queued) == PreparedBook(old(cfgs[dev.maxWin]), dev.outType, dev.lcd,
                                             UpdateBook(old(dev.needUpdate), old(dev.updateWin), false, WinRect(0, 0, 0, 0)))
    // an accepted submission on another output is not queued
    ensures fd >= 0 && !old(Bypassed(dev)) && allocOk && ret == 0 && dev.outType != OutDsi ==>
      && fence.None? && dev.timelineMax == old(dev.timelineMax) && dev.queue == old(dev.queue)
  {
    n := 0;
    if fd < 0 {
      return -EINVAL, None, n;
    }
    if Bypassed(dev) {
      dev.timelineMax := dev.timelineMax + 1;
      fence := Some(fd);
      dev.timelineValue := dev.timelineValue + 1;
      return 0, fence, n;
    }
    if !allocOk {
      return -ENOMEM, None, n;
    }
    ghost var queued;
    ret, fence, n, queued := SubmitSnapshot(dev, cfgs, fd, zeroConfig, blocking, minW, minH, imps, fences);
  }
}
