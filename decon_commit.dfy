/**
 * The commit side's bookkeeping: the DMA-channel conflict removal of
 * decon_reg_chmap_validate, the bandwidth rule of decon_set_qos, the vsync
 * interrupt reference count, the protected-content switch, and the commit
 * worker that drains the queue of staged snapshots in order.
 *
 * Register writes, waits and the secure monitor are outside the model: a
 * bus-bandwidth request, a secure-monitor call and the steps of a commit are
 * recorded, and the hardware vsync interrupt is a flag.
 */
module DeconCommit {

  import opened KernelTypes
  import opened DeconFormat
  import opened DeconRegs
  import opened DeconState
  import opened DeconStaging
  import opened DeconSubmit

  // ---------------------------------------------------------------------
  // decon_reg_chmap_validate
  // ---------------------------------------------------------------------

  /** A window that reads memory: ENWIN set and WIN_MAP_MAP clear. */
  predicate Fetching(w: Wincon, m: WinMap)
  {
    EnWin in w && m == MapOff
  }

  /** The channel bitmap after the first n windows: the channels of the
      windows among them that were fetching when the loop reached them. */
  function Claimed(wc: seq<Wincon>, wm: seq<WinMap>, cs: seq<WinConfig>, n: nat): set<IdmaType>
    requires n <= |wc| && n <= |wm| && n <= |cs|
  {
    if n == 0 then {}
    else Claimed(wc, wm, cs, n - 1) + (if Fetching(wc[n - 1], wm[n - 1]) then {cs[n - 1].idmaType} else {})
  }

  lemma {:induction false} ClaimedIff(wc: seq<Wincon>, wm: seq<WinMap>, cs: seq<WinConfig>, n: nat, x: IdmaType)
    requires n <= |wc| && n <= |wm| && n <= |cs|
    ensures x in Claimed(wc, wm, cs, n) <==> exists j :: 0 <= j < n && Fetching(wc[j], wm[j]) && cs[j].idmaType == x
  {
    if n > 0 {
      ClaimedIff(wc, wm, cs, n - 1, x);
    }
  }

  /** Window i's WINCON word after the loop: a fetching window whose
      channel an earlier fetching window already claimed loses ENWIN. */
  function ChmapWord(wc: seq<Wincon>, wm: seq<WinMap>, cs: seq<WinConfig>, i: nat): (w: Wincon)
    requires i < |wc| && i < |wm| && i < |cs|
    ensures w - {EnWin} == wc[i] - {EnWin}
    ensures EnWin in w ==> EnWin in wc[i]
  {
    if Fetching(wc[i], wm[i]) && cs[i].idmaType in Claimed(wc, wm, cs, i) then wc[i] - {EnWin} else wc[i]
  }

  function ChmapValidated(wc: seq<Wincon>, wm: seq<WinMap>, cs: seq<WinConfig>): (r: seq<Wincon>)
    requires |wc| <= |wm| && |wc| <= |cs|
    ensures |r| == |wc|
  {
    seq(|wc|, i requires 0 <= i < |wc| => ChmapWord(wc, wm, cs, i))
  }

  /** After the loop no two fetching windows share a channel. */
  lemma ChmapNoConflict(wc: seq<Wincon>, wm: seq<WinMap>, cs: seq<WinConfig>, i: nat, j: nat)
    requires |wc| <= |wm| && |wc| <= |cs| && i < j < |wc|
    requires var r := ChmapValidated(wc, wm, cs); Fetching(r[i], wm[i]) && Fetching(r[j], wm[j])
    ensures cs[i].idmaType != cs[j].idmaType
  {
    var r := ChmapValidated(wc, wm, cs);
    assert r[j] == ChmapWord(wc, wm, cs, j) && r[i] == ChmapWord(wc, wm, cs, i);
    ClaimedIff(wc, wm, cs, j, cs[i].idmaType);
  }

  /** A fetching window keeps ENWIN exactly when no earlier fetching window
      uses its channel: on every channel the lowest-index window wins. */
  lemma ChmapFirstKeeps(wc: seq<Wincon>, wm: seq<WinMap>, cs: seq<WinConfig>, i: nat)
    requires |wc| <= |wm| && |wc| <= |cs| && i < |wc| && Fetching(wc[i], wm[i])
    ensures var r := ChmapValidated(wc, wm, cs);
      EnWin in r[i] <==> forall j :: 0 <= j < i && Fetching(wc[j], wm[j]) ==> cs[j].idmaType != cs[i].idmaType
  {
    ClaimedIff(wc, wm, cs, i, cs[i].idmaType);
  }

  /** Windows that do not fetch are left alone. */
  lemma ChmapKeepsOthers(wc: seq<Wincon>, wm: seq<WinMap>, cs: seq<WinConfig>, i: nat)
    requires |wc| <= |wm| && |wc| <= |cs| && i < |wc| && !Fetching(wc[i], wm[i])
    ensures ChmapValidated(wc, wm, cs)[i] == wc[i]
  {
  }

  /** decon_reg_chmap_validate. The channel bitmap is an unsigned short and
      channels are below 16, so it is a set of channels. */
  method ChmapValidate(regs: RegData)
    requires regs.Valid()
    modifies regs.wincon
    ensures regs.wincon[..] == ChmapValidated(old(regs.wincon[..]), regs.winmap[..], regs.winConfig[..])
  {
    ghost var wc := regs.wincon[..];
    var bitmap: set<IdmaType> := {};
    var i := 0;
    while i < regs.maxWin
      invariant 0 <= i <= regs.maxWin
      invariant bitmap == Claimed(wc, regs.winmap[..], regs.winConfig[..], i)
      invariant forall k :: 0 <= k < i ==> regs.wincon[k] == ChmapWord(wc, regs.winmap[..], regs.winConfig[..], k)
      invariant forall k :: i <= k < regs.maxWin ==> regs.wincon[k] == wc[k]
    {
      if EnWin in regs.wincon[i] && regs.winmap[i] == MapOff {
        var ch := regs.winConfig[i].idmaType;
        if ch in bitmap {
          regs.wincon[i] := regs.wincon[i] - {EnWin};
        }
        bitmap := bitmap + {ch};
      }
      i := i + 1;
    }
    assert regs.wincon[..] == ChmapValidated(wc, regs.winmap[..], regs.winConfig[..]);
  }

  // ---------------------------------------------------------------------
  // decon_set_qos
  // ---------------------------------------------------------------------

  /** The bandwidth asked for: 0 for the default request, the snapshot's
      sum otherwise, and three times the per-window maximum without a
      snapshot. */
  function QosRequest(snapshotBw: Option<int>, isDefaultQos: bool, maxWinBw: int): int
  {
    match snapshotBw
    case None => maxWinBw * 3
    case Some(bw) => if isDefaultQos then 0 else bw
  }

  /** Whether decon_set_qos issues a request: only for a changed value, a
      raise before the commit or a drop after it. */
  predicate QosIssues(prevBw: int, req: int, isAfter: bool)
  {
    prevBw != req && ((isAfter && prevBw > req) || (!isAfter && prevBw < req))
  }

  /** prev_bw after decon_set_qos. */
  function QosStep(prevBw: int, req: int, isAfter: bool): (p: int)
    ensures p == prevBw || p == req
    ensures !isAfter ==> p >= prevBw
    ensures isAfter ==> p <= prevBw
  {
    if QosIssues(prevBw, req, isAfter) then req else prevBw
  }

  /** The before-commit call only raises, the after-commit call only
      lowers, and an unchanged value issues nothing. */
  lemma QosDirection(prevBw: int, req: int)
    ensures QosIssues(prevBw, req, false) <==> req > prevBw
    ensures QosIssues(prevBw, req, true) <==> req < prevBw
    ensures !QosIssues(prevBw, prevBw, false) && !QosIssues(prevBw, prevBw, true)
  {
  }

  /** A before-commit call followed by an after-commit call for the same
      request leaves prev_bw at that request, having issued at most one of
      the two. */
  lemma QosPairSettles(prevBw: int, req: int)
    ensures QosStep(QosStep(prevBw, req, false), req, true) == req
    ensures !(QosIssues(prevBw, req, false) && QosIssues(QosStep(prevBw, req, false), req, true))
  {
  }

  /** decon_set_qos. `snapshotBw` is the snapshot's bandwidth, None for a
      call without one. Values are not truncated to 64 bits. */
  method SetQos(dev: DeconDevice, snapshotBw: Option<int>, isAfter: bool, isDefaultQos: bool)
    modifies dev`prevBw, dev`qosRequests
    ensures var req := QosRequest(snapshotBw, isDefaultQos, dev.maxWinBw);
      && dev.prevBw == QosStep(old(dev.prevBw), req, isAfter)
      && dev.qosRequests == old(dev.qosRequests) + (if QosIssues(old(dev.prevBw), req, isAfter) then [req] else [])
    ensures dev.prevBw != old(dev.prevBw) <==> |dev.qosRequests| == |old(dev.qosRequests)| + 1
  {
    var req := QosRequest(snapshotBw, isDefaultQos, dev.maxWinBw);
    if dev.prevBw == req {
      return;
    }
    if (isAfter && dev.prevBw > req) || (!isAfter && dev.prevBw < req) {
      dev.qosRequests := dev.qosRequests + [req];
      dev.prevBw := req;
    }
  }

  // ---------------------------------------------------------------------
  // vsync interrupt reference count
  // ---------------------------------------------------------------------

  /** In video mode the hardware vsync interrupt is on exactly while the
      reference count is positive. */
  predicate VsyncConsistent(dev: DeconDevice)
    reads dev`vsyncIrqEnabled, dev`irqRefcount
  {
    dev.videoMode ==> (dev.vsyncIrqEnabled <==> dev.irqRefcount > 0)
  }

  /** decon_activate_vsync: the first reference switches the interrupt on
      in video mode. */
  method ActivateVsync(dev: DeconDevice)
    requires VsyncConsistent(dev)
    modifies dev`irqRefcount, dev`vsyncIrqEnabled
    ensures dev.irqRefcount == old(dev.irqRefcount) + 1 && VsyncConsistent(dev)
    ensures !dev.videoMode ==> dev.vsyncIrqEnabled == old(dev.vsyncIrqEnabled)
  {
    var prevRefcount := dev.irqRefcount;
    dev.irqRefcount := dev.irqRefcount + 1;
    if prevRefcount == 0 && dev.videoMode {
      dev.vsyncIrqEnabled := true;
    }
  }

  /** decon_deactivate_vsync: the last reference switches it off. A count
      that goes negative only draws a warning. */
  method DeactivateVsync(dev: DeconDevice)
    requires VsyncConsistent(dev)
    modifies dev`irqRefcount, dev`vsyncIrqEnabled
    ensures dev.irqRefcount == old(dev.irqRefcount) - 1 && VsyncConsistent(dev)
    ensures !dev.videoMode ==> dev.vsyncIrqEnabled == old(dev.vsyncIrqEnabled)
  {
    dev.irqRefcount := dev.irqRefcount - 1;
    if dev.irqRefcount == 0 && dev.videoMode {
      dev.vsyncIrqEnabled := false;
    }
  }

  /** The reference vsync_info.active holds: one while it is set. */
  function ActiveRef(active: bool): int
  {
    if active then 1 else 0
  }

  /** decon_set_vsync_int: a reference is taken or dropped only on a change
      of vsync_info.active, so the count always holds exactly one reference
      for it while it is set, on top of the others. */
  method SetVsyncInt(dev: DeconDevice, active: bool) returns (ret: int)
    requires VsyncConsistent(dev)
    modifies dev`vsyncActive, dev`irqRefcount, dev`vsyncIrqEnabled
    ensures ret == 0 && dev.vsyncActive == active && VsyncConsistent(dev)
    ensures dev.irqRefcount - ActiveRef(dev.vsyncActive) == old(dev.irqRefcount - ActiveRef(dev.vsyncActive))
  {
    var prevActive := dev.vsyncActive;
    dev.vsyncActive := active;
    if active && !prevActive {
      ActivateVsync(dev);
    } else if !active && prevActive {
      DeactivateVsync(dev);
    }
    return 0;
  }

  // ---------------------------------------------------------------------
  // decon_set_protected_content
  // ---------------------------------------------------------------------

  /** The protection state asked for: on only when enabling with a
      protected window in the snapshot. */
  function ProtectionWanted(enable: bool, bitmask: set<IdmaType>): bool
  {
    enable && bitmask != {}
  }

  /** decon_set_protected_content: the secure monitor is called only when
      the state changes, and the state is remembered. */
  method SetProtectedContent(dev: DeconDevice, enable: bool)
    modifies dev`prevProtectionStatus, dev`smcCalls
    ensures var en := ProtectionWanted(enable, dev.curProtectionBitmask);
      && dev.prevProtectionStatus == en
      && dev.smcCalls == old(dev.smcCalls) + (if en == old(dev.prevProtectionStatus) then [] else [en])
  {
    var en := ProtectionWanted(enable, dev.curProtectionBitmask);
    if en == dev.prevProtectionStatus {
      return;
    }
    dev.smcCalls := dev.smcCalls + [en];
    dev.prevProtectionStatus := en;
  }

  // ---------------------------------------------------------------------
  // decon_update_regs and __decon_update_regs
  // ---------------------------------------------------------------------

  /** The steps of one commit, in the order they happen. Programming the
      registers, the timed waits and the hardware start are one step. */
  datatype CommitStep = WaitFence(window: nat) | QosBefore | Program | ReleaseOld | SignalTimeline | QosAfter

  predicate RowsWellFormed(rows: seq<seq<DmaBufData>>)
  {
    forall k :: 0 <= k < |rows| ==> |rows[k]| == MAX_BUF_PLANE_CNT
  }

  /** The fence waits of the first n windows: one for each window whose
      first plane carries an acquire fence. */
  function FenceWaits(rows: seq<seq<DmaBufData>>, n: nat): (r: seq<CommitStep>)
    requires n <= |rows| && RowsWellFormed(rows)
    ensures forall k :: 0 <= k < |r| ==> r[k].WaitFence? && r[k].window < n
  {
    if n == 0 then []
    else FenceWaits(rows, n - 1) + (if rows[n - 1][0].fence.Some? then [WaitFence(n - 1)] else [])
  }

  lemma {:induction false} FenceWaitsIff(rows: seq<seq<DmaBufData>>, n: nat, i: nat)
    requires n <= |rows| && RowsWellFormed(rows)
    ensures WaitFence(i) in FenceWaits(rows, n) <==> i < n && rows[i][0].fence.Some?
  {
    if n > 0 {
      FenceWaitsIff(rows, n - 1, i);
    }
  }

  /** The first loop of decon_update_regs: set every window's records
      aside and wait for the acquire fences of the new frame. */
  method CollectOld(dev: DeconDevice, regs: RegData) returns (oldRows: seq<seq<DmaBufData>>, waits: seq<CommitStep>)
    requires regs.Valid()
    ensures oldRows == dev.windowBufs
    ensures waits == FenceWaits(Rows(regs.dmaBufData), regs.maxWin)
  {
    ghost var rows := Rows(regs.dmaBufData);
    oldRows := dev.windowBufs;
    waits := [];
    var i := 0;
    while i < regs.maxWin
      invariant 0 <= i <= regs.maxWin
      invariant waits == FenceWaits(rows, i)
    {
      if regs.dmaBufData[i, 0].fence.Some? {
        waits := waits + [WaitFence(i)];
      }
      i := i + 1;
    }
  }

  /** The channels of the protected windows among the first n. */
  function ProtectedChannels(prot: seq<int>, cs: seq<WinConfig>, n: nat): set<IdmaType>
    requires n <= |prot| && n <= |cs|
  {
    if n == 0 then {}
    else ProtectedChannels(prot, cs, n - 1) + (if prot[n - 1] != 0 then {cs[n - 1].idmaType} else {})
  }

  lemma {:induction false} ProtectedChannelsEmpty(prot: seq<int>, cs: seq<WinConfig>, n: nat)
    requires n <= |prot| && n <= |cs|
    ensures ProtectedChannels(prot, cs, n) == {} <==> forall k :: 0 <= k < n ==> prot[k] == 0
  {
    if n > 0 {
      ProtectedChannelsEmpty(prot, cs, n - 1);
    }
  }

  /** A window's records after the commit: the snapshot's records for the
      planes its format uses, zeroed records for the rest. */
  function InstalledRow(row: seq<DmaBufData>, c: WinConfig): (r: seq<DmaBufData>)
    requires |row| == MAX_BUF_PLANE_CNT
    ensures |r| == MAX_BUF_PLANE_CNT
    ensures forall j :: 0 <= j < MAX_BUF_PLANE_CNT ==> r[j] == if j < PlaneCount(c.format) then row[j] else ZeroDma
  {
    PlanesOfRow(row, c) + seq(MAX_BUF_PLANE_CNT - PlanesToImport(c.format), _ => ZeroDma)
  }

  function InstalledRows(rows: seq<seq<DmaBufData>>, cs: seq<WinConfig>, n: nat): (r: seq<seq<DmaBufData>>)
    requires n <= |rows| && n <= |cs| && RowsWellFormed(rows)
    ensures |r| == n && RowsWellFormed(r)
  {
    seq(n, k requires 0 <= k < n => InstalledRow(rows[k], cs[k]))
  }

  /** The inner loop of __decon_update_regs for window i; it writes every
      one of the window's records. */
  method InstallRow(regs: RegData, i: nat) returns (row: seq<DmaBufData>)
    requires regs.Valid() && i < regs.maxWin
    ensures row == InstalledRow(RowOf(regs.dmaBufData, i), regs.winConfig[i])
  {
    var planeCnt := PlaneCount(regs.winConfig[i].format);
    row := seq(MAX_BUF_PLANE_CNT, _ => ZeroDma);
    var j := 0;
    while j < MAX_BUF_PLANE_CNT
      invariant 0 <= j <= MAX_BUF_PLANE_CNT && |row| == MAX_BUF_PLANE_CNT
      invariant forall k :: 0 <= k < j ==> row[k] == if k < planeCnt then regs.dmaBufData[i, k] else ZeroDma
    {
      if j < planeCnt {
        row := row[j := regs.dmaBufData[i, j]];
      } else {
        row := row[j := ZeroDma];
      }
      j := j + 1;
    }
  }

  /** The window loop of __decon_update_regs: collect the protected
      channels and hand every window the snapshot's records. */
  method ProgramWindows(dev: DeconDevice, regs: RegData)
    requires regs.Valid() && dev.curProtectionBitmask == {}
    modifies dev`curProtectionBitmask, dev`windowBufs
    ensures dev.curProtectionBitmask == ProtectedChannels(regs.protection[..], regs.winConfig[..], regs.maxWin)
    ensures dev.windowBufs == InstalledRows(Rows(regs.dmaBufData), regs.winConfig[..], regs.maxWin)
  {
    ghost var rows := Rows(regs.dmaBufData);
    ghost var prot := regs.protection[..];
    ghost var cs := regs.winConfig[..];
    var bufs := [];
    var i := 0;
    while i < regs.maxWin
      invariant 0 <= i <= regs.maxWin
      invariant dev.curProtectionBitmask == ProtectedChannels(prot, cs, i)
      invariant bufs == InstalledRows(rows, cs, i)
    {
      if regs.protection[i] != 0 {
        dev.curProtectionBitmask := dev.curProtectionBitmask + {regs.winConfig[i].idmaType};
      }
      var row := InstallRow(regs, i);
      bufs := bufs + [row];
      i := i + 1;
    }
    dev.windowBufs := bufs;
  }

  /** __decon_update_regs without its register writes: drop the old
      protection bitmap, remove channel conflicts, hand the windows the new
      records and switch protected content to match the new frame. */
  method CommitRegs(dev: DeconDevice, regs: RegData)
    requires regs.Valid()
    modifies dev`curProtectionBitmask, dev`prevProtectionStatus, dev`smcCalls, dev`windowBufs, regs.wincon
    ensures regs.wincon[..] == ChmapValidated(old(regs.wincon[..]), regs.winmap[..], regs.winConfig[..])
    ensures dev.windowBufs == InstalledRows(Rows(regs.dmaBufData), regs.winConfig[..], regs.maxWin)
    ensures dev.curProtectionBitmask == ProtectedChannels(regs.protection[..], regs.winConfig[..], regs.maxWin)
    ensures var en := dev.curProtectionBitmask != {};
      && dev.prevProtectionStatus == en
      && dev.smcCalls == old(dev.smcCalls) + (if en == old(dev.prevProtectionStatus) then [] else [en])
  {
    dev.curProtectionBitmask := {};
    ChmapValidate(regs);
    ProgramWindows(dev, regs);
    SetProtectedContent(dev, true);
  }

  /** The records of all windows, one row after another. */
  function Flatten(rows: seq<seq<DmaBufData>>): seq<DmaBufData>
  {
    if |rows| == 0 then [] else Flatten(rows[..|rows| - 1]) + rows[|rows| - 1]
  }

  /** The last loop of decon_update_regs but one: decon_free_dma_buf on
      every record the windows held before the commit. */
  method ReleaseRows(dev: DeconDevice, rows: seq<seq<DmaBufData>>)
    modifies dev`fencePuts, dev`bufferReleases
    ensures dev.fencePuts == old(dev.fencePuts) + FencedCount(Flatten(rows))
    ensures dev.bufferReleases == old(dev.bufferReleases) + MappedCount(Flatten(rows))
  {
    var i := 0;
    while i < |rows|
      invariant 0 <= i <= |rows|
      invariant dev.fencePuts == old(dev.fencePuts) + FencedCount(Flatten(rows[..i]))
      invariant dev.bufferReleases == old(dev.bufferReleases) + MappedCount(Flatten(rows[..i]))
    {
      assert rows[..i + 1][..i] == rows[..i];
      MappedCountAppend(Flatten(rows[..i]), rows[i]);
      ReleasePlanes(dev, rows[i]);
      i := i + 1;
    }
    assert rows[..|rows|] == rows;
  }

  lemma {:induction false} ZeroRecordsUnmapped(n: nat)
    ensures MappedCount(seq(n, _ => ZeroDma)) == 0 && FencedCount(seq(n, _ => ZeroDma)) == 0
  {
    if n > 0 {
      ZeroRecordsUnmapped(n - 1);
      assert seq(n, _ => ZeroDma)[..n - 1] == seq(n - 1, _ => ZeroDma);
    }
  }

  /** The zeroed tail of an installed row releases nothing. */
  lemma InstalledRowCounts(row: seq<DmaBufData>, c: WinConfig)
    requires |row| == MAX_BUF_PLANE_CNT
    ensures MappedCount(InstalledRow(row, c)) == MappedCount(PlanesOfRow(row, c))
    ensures FencedCount(InstalledRow(row, c)) == FencedCount(PlanesOfRow(row, c))
  {
    var zeros := seq(MAX_BUF_PLANE_CNT - PlanesToImport(c.format), _ => ZeroDma);
    ZeroRecordsUnmapped(|zeros|);
    MappedCountAppend(PlanesOfRow(row, c), zeros);
  }

  /** Buffer lifetime: the records a commit installs are released by the
      next commit exactly as the undo path of decon_set_win_config would
      have released them, so every buffer imported for a frame is freed
      once, after the frame that replaces it is on screen. */
  lemma {:induction false} InstalledReleaseMatchesImport(rows: seq<seq<DmaBufData>>, cs: seq<WinConfig>, n: nat)
    requires n <= |rows| && n <= |cs| && RowsWellFormed(rows)
    ensures MappedCount(Flatten(InstalledRows(rows, cs, n))) == MappedCount(FreedPlanes(rows, cs, n))
    ensures FencedCount(Flatten(InstalledRows(rows, cs, n))) == FencedCount(FreedPlanes(rows, cs, n))
  {
    if n > 0 {
      InstalledReleaseMatchesImport(rows, cs, n - 1);
      var inst := InstalledRows(rows, cs, n);
      assert inst[..n - 1] == InstalledRows(rows, cs, n - 1);
      assert Flatten(inst) == Flatten(inst[..n - 1]) + InstalledRow(rows[n - 1], cs[n - 1]);
      InstalledRowCounts(rows[n - 1], cs[n - 1]);
      MappedCountAppend(Flatten(inst[..n - 1]), InstalledRow(rows[n - 1], cs[n - 1]));
      MappedCountAppend(FreedPlanes(rows, cs, n - 1), PlanesOfRow(rows[n - 1], cs[n - 1]));
    }
  }

  /** The steps decon_update_regs takes: the fence waits, the
      before-commit decon_set_qos call when the bandwidth differs, the
      commit, the release of the old records, the timeline signal, and the
      after-commit call when prev_bw still differs. */
  function CommitTrace(waits: seq<CommitStep>, prevBw: int, bw: int): seq<CommitStep>
  {
    waits + (if prevBw != bw then [QosBefore] else []) + [Program, ReleaseOld, SignalTimeline]
      + (if QosStep(prevBw, bw, false) != bw then [QosAfter] else [])
  }

  /** Step p of t is the commit, followed by the release and the timeline
      signal; before it come only fence waits and a raising call, after
      them only a lowering call. */
  predicate CommitPhases(t: seq<CommitStep>, p: nat, prevBw: int, bw: int)
  {
    && p + 2 < |t| && t[p] == Program && t[p + 1] == ReleaseOld && t[p + 2] == SignalTimeline
    && (forall k :: 0 <= k < p ==> t[k].WaitFence? || (t[k] == QosBefore && prevBw != bw))
    && (forall k :: p + 2 < k < |t| ==> t[k] == QosAfter && prevBw > bw)
  }

  /** The order of a commit: every wait and the before-commit call come
      before the commit, the old buffers are released right after it, then the
      timeline is signalled, and only a lowering call can follow. */
  lemma CommitOrder(waits: seq<CommitStep>, prevBw: int, bw: int)
    requires forall k :: 0 <= k < |waits| ==> waits[k].WaitFence?
    ensures exists p :: CommitPhases(CommitTrace(waits, prevBw, bw), p, prevBw, bw)
  {
    var p := |waits| + (if prevBw != bw then 1 else 0);
    assert CommitPhases(CommitTrace(waits, prevBw, bw), p, prevBw, bw);
  }

  /** decon_update_regs up to the commit: set the old records aside, wait
      for the fences, raise the bandwidth if needed, and commit. */
  method StartCommit(dev: DeconDevice, regs: RegData) returns (oldRows: seq<seq<DmaBufData>>, steps: seq<CommitStep>)
    requires regs.Valid()
    modifies dev`prevBw, dev`qosRequests, dev`curProtectionBitmask, dev`prevProtectionStatus, dev`smcCalls
    modifies dev`windowBufs, regs.wincon
    ensures oldRows == old(dev.windowBufs)
    ensures steps == FenceWaits(Rows(regs.dmaBufData), regs.maxWin)
      + (if old(dev.prevBw) != regs.bandwidth then [QosBefore] else []) + [Program]
    ensures dev.prevBw == QosStep(old(dev.prevBw), regs.bandwidth, false)
    ensures dev.qosRequests == old(dev.qosRequests)
      + (if QosIssues(old(dev.prevBw), regs.bandwidth, false) then [regs.bandwidth] else [])
    ensures regs.wincon[..] == ChmapValidated(old(regs.wincon[..]), regs.winmap[..], regs.winConfig[..])
    ensures dev.windowBufs == InstalledRows(Rows(regs.dmaBufData), regs.winConfig[..], regs.maxWin)
    ensures var en := ProtectedChannels(regs.protection[..], regs.winConfig[..], regs.maxWin) != {};
      && dev.prevProtectionStatus == en
      && dev.smcCalls == old(dev.smcCalls) + (if en == old(dev.prevProtectionStatus) then [] else [en])
  {
    var waits;
    oldRows, waits := CollectOld(dev, regs);
    steps := waits;
    if dev.prevBw != regs.bandwidth {
      steps := steps + [QosBefore];
      SetQos(dev, Some(regs.bandwidth), false, false);
    }
    CommitRegs(dev, regs);
    steps := steps + [Program];
  }

  /** decon_update_regs after the commit: release the old records, signal
      the timeline, and lower the bandwidth if needed. */
  method FinishCommit(dev: DeconDevice, regs: RegData, oldRows: seq<seq<DmaBufData>>) returns (steps: seq<CommitStep>)
    modifies dev`prevBw, dev`qosRequests, dev`fencePuts, dev`bufferReleases, dev`timelineValue
    ensures steps == [ReleaseOld, SignalTimeline] + (if old(dev.prevBw) != regs.bandwidth then [QosAfter] else [])
    ensures dev.prevBw == QosStep(old(dev.prevBw), regs.bandwidth, true)
    ensures dev.qosRequests == old(dev.qosRequests)
      + (if QosIssues(old(dev.prevBw), regs.bandwidth, true) then [regs.bandwidth] else [])
    ensures dev.fencePuts == old(dev.fencePuts) + FencedCount(Flatten(oldRows))
    ensures dev.bufferReleases == old(dev.bufferReleases) + MappedCount(Flatten(oldRows))
    ensures dev.timelineValue == old(dev.timelineValue) + 1
  {
    ReleaseRows(dev, oldRows);
    dev.timelineValue := dev.timelineValue + 1;
    steps := [ReleaseOld, SignalTimeline];
    if dev.prevBw != regs.bandwidth {
      steps := steps + [QosAfter];
      SetQos(dev, Some(regs.bandwidth), true, false);
    }
  }

  /** decon_update_regs. Leaving the low-power state, the vsync and update
      waits and the trigger mask are hardware steps outside the model. */
  method UpdateRegs(dev: DeconDevice, regs: RegData) returns (steps: seq<CommitStep>)
    requires regs.Valid()
    modifies dev`prevBw, dev`qosRequests, dev`curProtectionBitmask, dev`prevProtectionStatus, dev`smcCalls
    modifies dev`fencePuts, dev`bufferReleases, dev`timelineValue, dev`windowBufs, regs.wincon
    ensures steps == CommitTrace(FenceWaits(Rows(regs.dmaBufData), regs.maxWin), old(dev.prevBw), regs.bandwidth)
    ensures dev.prevBw == regs.bandwidth
    ensures dev.qosRequests == old(dev.qosRequests) + (if old(dev.prevBw) != regs.bandwidth then [regs.bandwidth] else [])
    ensures regs.wincon[..] == ChmapValidated(old(regs.wincon[..]), regs.winmap[..], regs.winConfig[..])
    ensures dev.windowBufs == InstalledRows(Rows(regs.dmaBufData), regs.winConfig[..], regs.maxWin)
    ensures var en := ProtectedChannels(regs.protection[..], regs.winConfig[..], regs.maxWin) != {};
      && dev.prevProtectionStatus == en
      && dev.smcCalls == old(dev.smcCalls) + (if en == old(dev.prevProtectionStatus) then [] else [en])
    ensures dev.fencePuts == old(dev.fencePuts) + FencedCount(Flatten(old(dev.windowBufs)))
    ensures dev.bufferReleases == old(dev.bufferReleases) + MappedCount(Flatten(old(dev.windowBufs)))
    ensures dev.timelineValue == old(dev.timelineValue) + 1
  {
    ghost var prev := dev.prevBw;
    var oldRows, before := StartCommit(dev, regs);
    var after := FinishCommit(dev, regs, oldRows);
    steps := before + after;
    QosPairSettles(prev, regs.bandwidth);
  }

  // ---------------------------------------------------------------------
  // decon_update_regs_handler
  // ---------------------------------------------------------------------

  /** The records a commit of r leaves in the windows. */
  function Installed(r: RegData): (rows: seq<seq<DmaBufData>>)
    reads r.dmaBufData, r.winConfig
    requires r.Valid()
    ensures |rows| == r.maxWin && RowsWellFormed(rows)
  {
    InstalledRows(Rows(r.dmaBufData), r.winConfig[..], r.maxWin)
  }

  /** One entry of the drain, reduced to what the next entries depend on. */
  method CommitEntry(dev: DeconDevice, r: RegData)
    requires r.Valid()
    modifies dev`prevBw, dev`qosRequests, dev`curProtectionBitmask, dev`prevProtectionStatus, dev`smcCalls
    modifies dev`fencePuts, dev`bufferReleases, dev`timelineValue, dev`windowBufs, r.wincon
    ensures dev.timelineValue == old(dev.timelineValue) + 1 && dev.prevBw == r.bandwidth
    ensures dev.windowBufs == Installed(r)
    ensures dev.fencePuts == old(dev.fencePuts) + FencedCount(Flatten(old(dev.windowBufs)))
    ensures dev.bufferReleases == old(dev.bufferReleases) + MappedCount(Flatten(old(dev.windowBufs)))
  {
    var _ := UpdateRegs(dev, r);
  }

  /** The rows each snapshot of saved installs. */
  function InstalledAll(saved: seq<RegData>): seq<seq<seq<DmaBufData>>>
    reads set r | r in saved :: r.dmaBufData
    reads set r | r in saved :: r.winConfig
    requires forall k :: 0 <= k < |saved| ==> saved[k].Valid()
  {
    seq(|saved|, k requires 0 <= k < |saved| && saved[k].Valid()
      reads if 0 <= k < |saved| then {saved[k].dmaBufData, saved[k].winConfig} else {}
      => Installed(saved[k]))
  }

  /** The records the windows hold after n commits, starting from first,
      where ins[k] is what the k-th commit installs. */
  function HeldAfter(first: seq<seq<DmaBufData>>, ins: seq<seq<seq<DmaBufData>>>, n: nat): seq<seq<DmaBufData>>
    requires n <= |ins|
  {
    if n == 0 then first else ins[n - 1]
  }

  /** The records n commits release, in commit order: each commit releases
      what the windows held before it. */
  function Released(first: seq<seq<DmaBufData>>, ins: seq<seq<seq<DmaBufData>>>, n: nat): seq<DmaBufData>
    requires n <= |ins|
  {
    if n == 0 then [] else Released(first, ins, n - 1) + Flatten(HeldAfter(first, ins, n - 1))
  }

  /** One iteration of the drain: the release totals gain what the windows
      held before this commit. */
  method CommitNext(dev: DeconDevice, saved: seq<RegData>, i: nat,
                    ghost first: seq<seq<DmaBufData>>, ghost ins: seq<seq<seq<DmaBufData>>>,
                    ghost releases: int, ghost puts: int)
    requires forall k :: 0 <= k < |saved| ==> saved[k].Valid()
    requires i < |saved| == |ins| && forall k :: i <= k < |saved| ==> ins[k] == Installed(saved[k])
    requires dev.windowBufs == HeldAfter(first, ins, i)
    requires dev.bufferReleases == releases + MappedCount(Released(first, ins, i))
    requires dev.fencePuts == puts + FencedCount(Released(first, ins, i))
    modifies dev`prevBw, dev`qosRequests, dev`curProtectionBitmask, dev`prevProtectionStatus, dev`smcCalls
    modifies dev`fencePuts, dev`bufferReleases, dev`timelineValue, dev`windowBufs, saved[i].wincon
    ensures dev.timelineValue == old(dev.timelineValue) + 1 && dev.prevBw == saved[i].bandwidth
    ensures dev.windowBufs == HeldAfter(first, ins, i + 1) == Installed(saved[i])
    ensures forall k :: i < k < |saved| ==> ins[k] == Installed(saved[k])
    ensures dev.bufferReleases == releases + MappedCount(Released(first, ins, i + 1))
    ensures dev.fencePuts == puts + FencedCount(Released(first, ins, i + 1))
  {
    MappedCountAppend(Released(first, ins, i), Flatten(dev.windowBufs));
    CommitEntry(dev, saved[i]);
  }

  /** The loop of decon_update_regs_handler over the list it took. */
  method CommitAll(dev: DeconDevice, saved: seq<RegData>)
    requires forall k :: 0 <= k < |saved| ==> saved[k].Valid()
    modifies dev`prevBw, dev`qosRequests, dev`curProtectionBitmask, dev`prevProtectionStatus, dev`smcCalls
    modifies dev`fencePuts, dev`bufferReleases, dev`timelineValue, dev`windowBufs
    modifies set r | r in saved :: r.wincon
    ensures dev.timelineValue == old(dev.timelineValue) + |saved|
    ensures |saved| > 0 ==> var last := saved[|saved| - 1]; dev.prevBw == last.bandwidth && dev.windowBufs == Installed(last)
    ensures var ins := old(InstalledAll(saved));
      dev.bufferReleases == old(dev.bufferReleases) + MappedCount(Released(old(dev.windowBufs), ins, |saved|))
    ensures var ins := old(InstalledAll(saved));
      dev.fencePuts == old(dev.fencePuts) + FencedCount(Released(old(dev.windowBufs), ins, |saved|))
  {
    ghost var ins := InstalledAll(saved);
    var i := 0;
    while i < |saved|
      invariant 0 <= i <= |saved| && |ins| == |saved|
      invariant forall k :: i <= k < |saved| ==> ins[k] == Installed(saved[k])
      invariant dev.timelineValue == old(dev.timelineValue) + i
      invariant i > 0 ==> dev.prevBw == saved[i - 1].bandwidth && dev.windowBufs == Installed(saved[i - 1])
      invariant dev.windowBufs == HeldAfter(old(dev.windowBufs), ins, i)
      invariant dev.bufferReleases == old(dev.bufferReleases) + MappedCount(Released(old(dev.windowBufs), ins, i))
      invariant dev.fencePuts == old(dev.fencePuts) + FencedCount(Released(old(dev.windowBufs), ins, i))
    {
      CommitNext(dev, saved, i, old(dev.windowBufs), ins, old(dev.bufferReleases), old(dev.fencePuts));
      i := i + 1;
    }
  }

  /** decon_update_regs_handler: take the whole queue and commit its
      snapshots in the order decon_set_win_config queued them. Afterwards
      the windows hold the last snapshot's records, prev_bw is its
      bandwidth, and the timeline stands one point behind the last one
      handed out: every fence but the last is signalled, and the last waits
      for the next commit or bypass. */
  method DrainQueue(dev: DeconDevice) returns (committed: seq<RegData>)
    requires forall r :: r in dev.queue ==> r.Valid()
    modifies dev`queue, dev`prevBw, dev`qosRequests, dev`curProtectionBitmask, dev`prevProtectionStatus, dev`smcCalls
    modifies dev`fencePuts, dev`bufferReleases, dev`timelineValue, dev`windowBufs
    modifies set r | r in dev.queue :: r.wincon
    ensures committed == old(dev.queue) && dev.queue == []
    ensures dev.timelineValue == old(dev.timelineValue) + |committed|
    ensures old(dev.TimelineBalanced()) ==> dev.TimelineBalanced() && dev.timelineValue == dev.timelineMax - 1
    ensures |committed| > 0 ==> var last := committed[|committed| - 1];
      && last.Valid() && dev.prevBw == last.bandwidth && dev.windowBufs == Installed(last)
    // every commit releases the records the windows held before it
    ensures var ins := old(InstalledAll(committed));
      dev.bufferReleases == old(dev.bufferReleases) + MappedCount(Released(old(dev.windowBufs), ins, |committed|))
    ensures var ins := old(InstalledAll(committed));
      dev.fencePuts == old(dev.fencePuts) + FencedCount(Released(old(dev.windowBufs), ins, |committed|))
  {
    var saved := dev.queue;
    dev.queue := [];
    CommitAll(dev, saved);
    committed := saved;
  }
}
