/**
 * State of the DECON driver that the staging and commit logic reads and
 * writes: the per-window request record (decon_win_config), the per-plane
 * buffer record (decon_dma_buf_data), the register snapshot a submission
 * builds (decon_reg_data), the framebuffer window (decon_win with the parts
 * of fb_var_screeninfo / fb_fix_screeninfo the driver sets), and the device
 * (decon_device, restricted to the fields this logic touches).
 */
module DeconState {

  import opened KernelTypes
  import opened DeconFormat
  import opened DeconRegs
  import opened DeconGeometry

  /** Window states; UnknownState stands for any other value of the enum. */
  datatype WinState = Disabled | Color | Buffer | Update | UnknownState(code: int)

  /** idma_type: the DMA channel feeding a window. The channel bitmap of
      decon_reg_chmap_validate is an unsigned short, so channels are below 16. */
  type IdmaType = x: nat | x < 16

  /** struct decon_win_config, restricted to the fields the driver reads. */
  datatype WinConfig = WinConfig(
    state: WinState,
    dst: Frame,
    src: Frame,
    format: PixelFormat,
    blending: Blending,
    planeAlpha: int,
    color: int,
    idmaType: IdmaType,
    fenceFd: int,
    protection: int,
    blockArea: WinRect)

  /** An acquire fence object (an opaque sync_fence). */
  type FenceId = nat

  /** struct decon_dma_buf_data: the mapped address, the buffer size, the
      acquire fence and an opaque tag for the ION handle / attachment. */
  datatype DmaBufData = DmaBufData(dmaAddr: int, fence: Option<FenceId>, handle: nat)

  /** The record after memset(0). */
  const ZeroDma: DmaBufData := DmaBufData(0, None, 0)

  /** MAX_BUF_PLANE_CNT */
  const MAX_BUF_PLANE_CNT: nat := 3

  /** A WINMAP word: 0, or WIN_MAP_MAP with a colour. */
  datatype WinMap = MapOff | MapColour(colour: int)

  /** whole_w / whole_h / offset_x / offset_y of one window. */
  datatype SrcRegs = SrcRegs(wholeW: nat, wholeH: nat, offsetX: int, offsetY: int)

  /** The fb_var_screeninfo fields decon_set_win_buffer assigns. */
  datatype VarInfo = VarInfo(
    redLength: nat, redOffset: nat,
    greenLength: nat, greenOffset: nat,
    blueLength: nat, blueOffset: nat,
    transpLength: nat, transpOffset: nat,
    bitsPerPixel: nat,
    xres: nat, xresVirtual: nat, yres: nat, yresVirtual: nat,
    xoffset: int, yoffset: int)

  /** The fb_fix_screeninfo fields decon_set_win_buffer assigns. */
  datatype FixInfo = FixInfo(smemStart: int, smemLen: nat, lineLength: nat, xpanstep: nat, ypanstep: nat)

  /** The screen info of a freshly allocated framebuffer: all zero. */
  const ZeroVarInfo := VarInfo(0, 0, 0, 0, 0, 0, 0, 0, 0, 0, 0, 0, 0, 0, 0)
  const ZeroFixInfo := FixInfo(0, 0, 0, 0, 0)

  /** A fresh array of n copies of v. */
  method Filled<T>(n: nat, v: T) returns (a: array<T>)
    ensures fresh(a) && a.Length == n && forall i :: 0 <= i < n ==> a[i] == v
  {
    a := new T[n](_ => v);
  }

  /** A fresh n by MAX_BUF_PLANE_CNT array of copies of v. */
  method FilledRows<T>(n: nat, v: T) returns (a: array2<T>)
    ensures fresh(a) && a.Length0 == n && a.Length1 == MAX_BUF_PLANE_CNT
    ensures forall i, j :: 0 <= i < n && 0 <= j < MAX_BUF_PLANE_CNT ==> a[i, j] == v
  {
    a := new T[n, MAX_BUF_PLANE_CNT]((_, _) => v);
  }

  /** The position, alpha, blend, buffer-start, source and protection
      arrays of a fresh snapshot of n windows, all zero. */
  method ZeroWordArrays(n: nat)
    returns (a: array<TopLeft>, b: array<BotRight>, c: array<AlphaWord>, d: array<AlphaWord>, be: array<BlendWord>,
             st: array<int>, src: array<SrcRegs>, prot: array<int>)
    requires n >= 1
    ensures fresh(a) && fresh(b) && fresh(c) && fresh(d) && fresh(be) && fresh(st) && fresh(src) && fresh(prot)
    ensures c != d && st != prot
    ensures a.Length == n && b.Length == n && c.Length == n && d.Length == n && be.Length == n - 1
    ensures st.Length == n && src.Length == n && prot.Length == n
    ensures forall i :: 0 <= i < a.Length ==> a[i] == TopLeft(0, 0)
    ensures forall i :: 0 <= i < b.Length ==> b[i] == BotRight(0, 0)
    ensures forall i :: 0 <= i < c.Length ==> c[i] == AlphaWord(0, 0, 0)
    ensures forall i :: 0 <= i < d.Length ==> d[i] == AlphaWord(0, 0, 0)
    ensures forall i :: 0 <= i < be.Length ==> be[i] == BlendZero
    ensures forall i :: 0 <= i < st.Length ==> st[i] == 0
    ensures forall i :: 0 <= i < src.Length ==> src[i] == SrcRegs(0, 0, 0, 0)
    ensures forall i :: 0 <= i < prot.Length ==> prot[i] == 0
  {
    a := Filled(n, TopLeft(0, 0));
    b := Filled(n, BotRight(0, 0));
    c := Filled(n, AlphaWord(0, 0, 0));
    d := Filled(n, AlphaWord(0, 0, 0));
    be := Filled(n - 1, BlendZero);
    st := Filled(n, 0);
    src := Filled(n, SrcRegs(0, 0, 0, 0));
    prot := Filled(n, 0);
  }

  /** struct decon_reg_data: one staged submission. */
  class RegData {
    const maxWin: nat
    const wincon: array<Wincon>
    const winmap: array<WinMap>
    const vidosdA: array<TopLeft>
    const vidosdB: array<BotRight>
    const vidosdC: array<AlphaWord>
    const vidosdD: array<AlphaWord>
    /** blendeq[i - 1] belongs to window i: window 0 has none. */
    const blendeq: array<BlendWord>
    const dmaBufData: array2<DmaBufData>
    const bufStart: array<int>
    const srcRegs: array<SrcRegs>
    const protection: array<int>
    const blockRect: array<WinRect>
    const winConfig: array<WinConfig>
    var bandwidth: int
    var numOfWindow: nat
    var needUpdate: bool
    var updateWin: WinRect

    predicate Valid()
    {
      && maxWin >= 1
      && wincon.Length == maxWin && winmap.Length == maxWin
      && vidosdA.Length == maxWin && vidosdB.Length == maxWin
      && vidosdC.Length == maxWin && vidosdD.Length == maxWin
      && blendeq.Length == maxWin - 1
      && dmaBufData.Length0 == maxWin && dmaBufData.Length1 == MAX_BUF_PLANE_CNT
      && bufStart.Length == maxWin && srcRegs.Length == maxWin
      && protection.Length == maxWin && blockRect.Length == maxWin
      && winConfig.Length == maxWin
      && vidosdC != vidosdD && bufStart != protection
    }

    /** Every position, alpha, blend, buffer, source and protection word
        zero, as kzalloc leaves them. */
    predicate Zeroed()
      reads vidosdA, vidosdB, vidosdC, vidosdD, blendeq, dmaBufData, bufStart, srcRegs, protection
    {
      && (forall i :: 0 <= i < vidosdA.Length ==> vidosdA[i] == TopLeft(0, 0))
      && (forall i :: 0 <= i < vidosdB.Length ==> vidosdB[i] == BotRight(0, 0))
      && (forall i :: 0 <= i < vidosdC.Length ==> vidosdC[i] == AlphaWord(0, 0, 0))
      && (forall i :: 0 <= i < vidosdD.Length ==> vidosdD[i] == AlphaWord(0, 0, 0))
      && (forall i :: 0 <= i < blendeq.Length ==> blendeq[i] == BlendZero)
      && (forall i, j :: 0 <= i < dmaBufData.Length0 && 0 <= j < dmaBufData.Length1 ==> dmaBufData[i, j] == ZeroDma)
      && (forall i :: 0 <= i < bufStart.Length ==> bufStart[i] == 0)
      && (forall i :: 0 <= i < srcRegs.Length ==> srcRegs[i] == SrcRegs(0, 0, 0, 0))
      && (forall i :: 0 <= i < protection.Length ==> protection[i] == 0)
    }

    /** kzalloc of a decon_reg_data: every word zero. */
    constructor (maxWin: nat, zeroConfig: WinConfig)
      requires maxWin >= 1
      ensures Valid() && this.maxWin == maxWin && Zeroed()
      ensures forall i :: 0 <= i < maxWin ==> wincon[i] == {} && winmap[i] == MapOff
      ensures forall i, j :: 0 <= i < maxWin && 0 <= j < MAX_BUF_PLANE_CNT ==> dmaBufData[i, j] == ZeroDma
      ensures bandwidth == 0 && numOfWindow == 0 && !needUpdate && updateWin == WinRect(0, 0, 0, 0)
      ensures fresh(wincon) && fresh(winmap) && fresh(vidosdA) && fresh(vidosdB)
      ensures fresh(vidosdC) && fresh(vidosdD) && fresh(blendeq) && fresh(dmaBufData)
      ensures fresh(bufStart) && fresh(srcRegs) && fresh(protection) && fresh(blockRect) && fresh(winConfig)
    {
      this.maxWin := maxWin;
      var wc := Filled(maxWin, {});
      var wm := Filled(maxWin, MapOff);
      var a, b, c, d, be, st, src, prot := ZeroWordArrays(maxWin);
      var bufs := FilledRows(maxWin, ZeroDma);
      var rects := Filled(maxWin, WinRect(0, 0, 0, 0));
      var cfgs := Filled(maxWin, zeroConfig);
      wincon, winmap, vidosdA, vidosdB, vidosdC, vidosdD, blendeq := wc, wm, a, b, c, d, be;
      dmaBufData, bufStart, srcRegs, protection, blockRect, winConfig := bufs, st, src, prot, rects, cfgs;
      bandwidth := 0;
      numOfWindow := 0;
      needUpdate := false;
      updateWin := WinRect(0, 0, 0, 0);
    }
  }

  /** A window's framebuffer (fb_info): the screen info the window shows. */
  class FbInfo {
    var varInfo: VarInfo
    var fix: FixInfo

    constructor (v: VarInfo, f: FixInfo)
      ensures varInfo == v && fix == f
    {
      varInfo := v;
      fix := f;
    }
  }

  /** struct decon_win: the framebuffer window with its screen info, the
      copies saved by decon_set_win_config and its frame rate. The saved
      copies start zeroed, as framebuffer_alloc leaves them. */
  class DeconWindow {
    const index: nat
    const fps: int
    const fbinfo: FbInfo
    var prevVar: VarInfo
    var prevFix: FixInfo

    constructor (index: nat, fps: int, v: VarInfo, f: FixInfo)
      ensures this.index == index && this.fps == fps && fresh(fbinfo) && fbinfo.varInfo == v && fbinfo.fix == f
      ensures prevVar == ZeroVarInfo && prevFix == ZeroFixInfo
    {
      this.index := index;
      this.fps := fps;
      fbinfo := new FbInfo(v, f);
      prevVar := ZeroVarInfo;
      prevFix := ZeroFixInfo;
    }
  }

  /** The framebuffers of the windows ws, in window order. */
  function Screens(ws: seq<DeconWindow>): (fbs: seq<FbInfo>)
    ensures |fbs| == |ws| && forall k :: 0 <= k < |ws| ==> fbs[k] == ws[k].fbinfo
  {
    seq(|ws|, k requires 0 <= k < |ws| => ws[k].fbinfo)
  }

  /** Every window's screen info. */
  function ScreenInfos(ws: seq<DeconWindow>): seq<(VarInfo, FixInfo)>
    reads Screens(ws)
  {
    seq(|ws|, k requires 0 <= k < |ws| reads Screens(ws) => (ws[k].fbinfo.varInfo, ws[k].fbinfo.fix))
  }

  /** Every window's saved copy of its screen info. */
  function SavedInfos(ws: seq<DeconWindow>): seq<(VarInfo, FixInfo)>
    reads ws
  {
    seq(|ws|, k requires 0 <= k < |ws| reads ws => (ws[k].prevVar, ws[k].prevFix))
  }

  datatype PowerState = StateOff | StateOn | StateLpd
  datatype OutType = OutDsi | OutTui | OutOther

  /** The panel timing fields the window-update code reads (decon_lcd). */
  datatype LcdInfo = LcdInfo(xres: nat, yres: nat, hfp: nat, vfp: nat)

  /** struct decon_device, restricted to the fields the staging and
      bookkeeping logic uses. The allocator and sync-framework calls are
      recorded as counters and traces. */
  class DeconDevice {
    const maxWin: nat
    const lcd: LcdInfo
    const outType: OutType
    /** psr_mode == DECON_VIDEO_MODE */
    const videoMode: bool
    const maxWinBw: int
    const windows: seq<DeconWindow>

    var state: PowerState
    var ignoreVsync: bool

    /** Window-update bookkeeping. */
    var updateWin: WinRect
    var needUpdate: bool

    /** Bandwidth request last issued, and every request issued so far. */
    var prevBw: int
    var qosRequests: seq<int>

    /** sw_sync timeline: the signalled value and the last value handed out. */
    var timelineValue: nat
    var timelineMax: nat
    /** update_regs_list: submissions waiting for the commit worker. */
    var queue: seq<RegData>

    /** vsync_info */
    var irqRefcount: int
    var vsyncActive: bool
    /** Whether the vsync interrupt is switched on in hardware. */
    var vsyncIrqEnabled: bool

    /** Protected-content bookkeeping: the channels of the protected windows
        of the last commit (a bitmap), and the secure-monitor calls issued. */
    var prevProtectionStatus: bool
    var curProtectionBitmask: set<IdmaType>
    var smcCalls: seq<bool>

    /** The buffer records the windows hold on screen: row i is
        windows[i]->dma_buf_data. */
    var windowBufs: seq<seq<DmaBufData>>

    /** Allocator calls of decon_free_dma_buf. */
    var fencePuts: nat
    var bufferReleases: nat

    predicate WindowsValid()
    {
      |windows| == maxWin && maxWin >= 1
      && (forall i :: 0 <= i < |windows| ==> windows[i].index == i)
      && (forall i, j :: 0 <= i < |windows| && 0 <= j < |windows| && i != j ==> windows[i].fbinfo != windows[j].fbinfo)
    }

    /** The last point handed out runs one step per queued snapshot, plus
        one, ahead of the timeline. A release fence on point p signals once
        the value reaches p, so the fence handed out last stays pending
        until one more commit or bypass follows the commits of the queued
        snapshots. */
    predicate TimelineBalanced()
      reads this`timelineMax, this`timelineValue, this`queue
    {
      timelineMax == timelineValue + |queue| + 1
    }

    constructor (maxWin: nat, lcd: LcdInfo, outType: OutType, videoMode: bool, maxWinBw: int, windows: seq<DeconWindow>)
      requires |windows| == maxWin && maxWin >= 1
      requires forall i :: 0 <= i < |windows| ==> windows[i].index == i
      requires forall i, j :: 0 <= i < |windows| && 0 <= j < |windows| && i != j ==> windows[i].fbinfo != windows[j].fbinfo
      ensures WindowsValid() && this.windows == windows && this.lcd == lcd && this.outType == outType
      ensures this.videoMode == videoMode && this.maxWinBw == maxWinBw
      ensures state == StateOn && !ignoreVsync
      ensures updateWin == WinRect(0, 0, 0, 0) && !needUpdate
      ensures prevBw == 0 && qosRequests == []
      ensures timelineValue == 0 && timelineMax == 1 && queue == [] && TimelineBalanced()
      ensures irqRefcount == 0 && !vsyncActive && !vsyncIrqEnabled
      ensures !prevProtectionStatus && curProtectionBitmask == {} && smcCalls == []
      ensures fencePuts == 0 && bufferReleases == 0
      ensures windowBufs == seq(maxWin, _ => [ZeroDma, ZeroDma, ZeroDma])
    {
      this.maxWin := maxWin;
      this.lcd := lcd;
      this.outType := outType;
      this.videoMode := videoMode;
      this.maxWinBw := maxWinBw;
      this.windows := windows;
      state := StateOn;
      ignoreVsync := false;
      updateWin := WinRect(0, 0, 0, 0);
      needUpdate := false;
      prevBw := 0;
      qosRequests := [];
      timelineValue := 0;
      timelineMax := 1;
      queue := [];
      irqRefcount := 0;
      vsyncActive := false;
      vsyncIrqEnabled := false;
      prevProtectionStatus := false;
      curProtectionBitmask := {};
      smcCalls := [];
      fencePuts := 0;
      bufferReleases := 0;
      windowBufs := seq(maxWin, _ => [ZeroDma, ZeroDma, ZeroDma]);
    }
  }

  /** The record decon_free_dma_buf leaves behind. */
  function FreedRecord(dma: DmaBufData): DmaBufData
  {
    if dma.dmaAddr == 0 then dma else ZeroDma
  }

  /** decon_free_dma_buf: a record whose address is 0 is left alone and
      releases nothing; any other record puts its fence (if any), releases
      its mapping and is zeroed. */
  method FreeDmaBuf(dev: DeconDevice, dma: DmaBufData) returns (after: DmaBufData)
    modifies dev`fencePuts, dev`bufferReleases
    ensures after == FreedRecord(dma)
    ensures dma.dmaAddr == 0 ==> dev.fencePuts == old(dev.fencePuts) && dev.bufferReleases == old(dev.bufferReleases)
    ensures dma.dmaAddr != 0 ==>
      dev.fencePuts == old(dev.fencePuts) + (if dma.fence.Some? then 1 else 0)
      && dev.bufferReleases == old(dev.bufferReleases) + 1
  {
    if dma.dmaAddr == 0 {
      return dma;
    }
    if dma.fence.Some? {
      dev.fencePuts := dev.fencePuts + 1;
    }
    dev.bufferReleases := dev.bufferReleases + 1;
    after := ZeroDma;
  }

  /** Freeing twice releases nothing the second time: the guard makes the
      call idempotent. */
  lemma FreeDmaBufIdempotent(dma: DmaBufData)
    ensures FreedRecord(dma).dmaAddr == 0
    ensures FreedRecord(FreedRecord(dma)) == FreedRecord(dma)
  {
  }
}
