/**
 * Blocking mode: for a 32-bit RGB buffer window, the hardware may skip
 * fetching the part hidden by an opaque window stacked above it. The driver
 * picks the largest such covered sub-rectangle, or disables the window when
 * one opaque window above covers it entirely.
 */
module DeconBlocking {

  import opened KernelTypes
  import opened DeconFormat
  import opened DeconRegs
  import opened DeconGeometry
  import opened DeconState

  /** A window stacked above that hides what lies beneath it: a BUFFER
      window in a format without per-pixel alpha and without plane alpha. */
  predicate IsOpaqueCover(cfg: WinConfig)
  {
    && cfg.state == Buffer
    && cfg.format !in {Argb8888, Abgr8888, Rgba8888, Bgra8888, Rgba5551}
    && !IsPlaneAlpha(cfg.planeAlpha)
  }

  /** overlap_size: (right - left) * (bottom - top), into an unsigned int. */
  function OverlapSize(r: Rect): nat
  {
    U32((r.right - r.left) * (r.bottom - r.top))
  }

  /** MIN_BLK_MODE_WIDTH / MIN_BLK_MODE_HEIGHT */
  predicate LargeEnough(r: Rect, minW: nat, minH: nat)
  {
    r.right - r.left + 1 >= minW && r.bottom - r.top + 1 >= minH
  }

  /** The overlap of window `idx` with a window stacked above it. */
  function OverlapWith(cfgs: seq<WinConfig>, idx: nat, k: nat): Rect
    requires idx < |cfgs| && k < |cfgs|
  {
    IntersectionOf(FrameRect(cfgs[idx].dst), FrameRect(cfgs[k].dst))
  }

  /** Window k is a candidate block for window idx: opaque, overlapping,
      not covering idx entirely, and at least the minimum block size. */
  predicate Candidate(cfgs: seq<WinConfig>, idx: nat, k: nat, minW: nat, minH: nat)
    requires idx < |cfgs| && k < |cfgs|
  {
    && IsOpaqueCover(cfgs[k])
    && Intersect(FrameRect(cfgs[idx].dst), FrameRect(cfgs[k].dst))
    && RectDiffer(FrameRect(cfgs[idx].dst), OverlapWith(cfgs, idx, k))
    && LargeEnough(OverlapWith(cfgs, idx, k), minW, minH)
  }

  /** Window k hides window idx entirely. */
  predicate Covers(cfgs: seq<WinConfig>, idx: nat, k: nat)
    requires idx < |cfgs| && k < |cfgs|
  {
    && IsOpaqueCover(cfgs[k])
    && Intersect(FrameRect(cfgs[idx].dst), FrameRect(cfgs[k].dst))
    && !RectDiffer(FrameRect(cfgs[idx].dst), OverlapWith(cfgs, idx, k))
  }

  /** The loop state: the window was found covered, or the best block so far
      with its size and whether one was found. */
  datatype BlockScan = Covered | Scanning(best: Rect, bestSize: nat, enabled: bool)

  /** One iteration of the loop of decon_set_win_blocking_mode. */
  function BlockStep(s: BlockScan, cfgs: seq<WinConfig>, idx: nat, k: nat, minW: nat, minH: nat): BlockScan
    requires idx < |cfgs| && k < |cfgs|
  {
    if s.Covered? || !IsOpaqueCover(cfgs[k]) then s
    else if !Intersect(FrameRect(cfgs[idx].dst), FrameRect(cfgs[k].dst)) then s
    else
      var ov := OverlapWith(cfgs, idx, k);
      if !RectDiffer(FrameRect(cfgs[idx].dst), ov) then Covered
      else if !LargeEnough(ov, minW, minH) then s
      else if OverlapSize(ov) > s.bestSize then Scanning(ov, OverlapSize(ov), true)
      else s
  }

  /** The loop state after windows idx+1 .. j-1 have been examined. */
  function ScanUpTo(cfgs: seq<WinConfig>, idx: nat, j: nat, minW: nat, minH: nat): (s: BlockScan)
    requires idx < j <= |cfgs|
    ensures s.Scanning? && s.enabled ==> LargeEnough(s.best, minW, minH) && s.bestSize == OverlapSize(s.best) && s.bestSize > 0
    ensures s.Scanning? && !s.enabled ==> s.bestSize == 0 && s.best == Rect(0, 0, 0, 0)
    decreases j
  {
    if j == idx + 1 then Scanning(Rect(0, 0, 0, 0), 0, false)
    else BlockStep(ScanUpTo(cfgs, idx, j - 1, minW, minH), cfgs, idx, j - 1, minW, minH)
  }

  /** Once covered, the scan stays covered (the driver returns at once). */
  lemma {:induction false} CoveredPersists(cfgs: seq<WinConfig>, idx: nat, j: nat, j': nat, minW: nat, minH: nat)
    requires idx < j <= j' <= |cfgs|
    requires ScanUpTo(cfgs, idx, j, minW, minH).Covered?
    ensures ScanUpTo(cfgs, idx, j', minW, minH).Covered?
    decreases j' - j
  {
    if j' > j {
      CoveredPersists(cfgs, idx, j, j' - 1, minW, minH);
    }
  }

  /** The scan reports Covered exactly when some window above hides window
      idx entirely. */
  lemma {:induction false} CoveredIffSomeCover(cfgs: seq<WinConfig>, idx: nat, j: nat, minW: nat, minH: nat)
    requires idx < j <= |cfgs|
    ensures ScanUpTo(cfgs, idx, j, minW, minH).Covered? <==> exists k :: idx < k < j && Covers(cfgs, idx, k)
    decreases j
  {
    if j > idx + 1 {
      CoveredIffSomeCover(cfgs, idx, j - 1, minW, minH);
      if ScanUpTo(cfgs, idx, j, minW, minH).Covered? && !ScanUpTo(cfgs, idx, j - 1, minW, minH).Covered? {
        assert Covers(cfgs, idx, j - 1);
      }
    }
  }

  /** A window that is covered is hidden point for point: every pixel of it
      lies inside the covering window. */
  lemma CoverHidesWindow(cfgs: seq<WinConfig>, idx: nat, k: nat)
    requires idx < |cfgs| && k < |cfgs|
    requires Covers(cfgs, idx, k)
    ensures forall x, y :: Contains(FrameRect(cfgs[idx].dst), x, y) ==> Contains(FrameRect(cfgs[k].dst), x, y)
  {
  }

  /** The block chosen is the overlap with one candidate window above, no
      candidate window examined has a larger overlap, and every earlier
      candidate has a strictly smaller one (ties keep the first). */
  lemma {:induction false} BlockIsLargestCandidate(cfgs: seq<WinConfig>, idx: nat, j: nat, minW: nat, minH: nat)
    requires idx < j <= |cfgs|
    requires ScanUpTo(cfgs, idx, j, minW, minH).Scanning?
    ensures var s := ScanUpTo(cfgs, idx, j, minW, minH);
      && (forall k :: idx < k < j && Candidate(cfgs, idx, k, minW, minH) ==> OverlapSize(OverlapWith(cfgs, idx, k)) <= s.bestSize)
      && (s.enabled <==> exists k :: idx < k < j && Candidate(cfgs, idx, k, minW, minH) && OverlapSize(OverlapWith(cfgs, idx, k)) > 0)
      && (s.enabled ==> exists k :: && idx < k < j && Candidate(cfgs, idx, k, minW, minH)
                                    && s.best == OverlapWith(cfgs, idx, k)
                                    && forall k' :: idx < k' < k && Candidate(cfgs, idx, k', minW, minH) ==>
                                         OverlapSize(OverlapWith(cfgs, idx, k')) < s.bestSize)
    decreases j
  {
    if j > idx + 1 {
      var prev := ScanUpTo(cfgs, idx, j - 1, minW, minH);
      assert prev.Scanning?;
      BlockIsLargestCandidate(cfgs, idx, j - 1, minW, minH);
      var s := ScanUpTo(cfgs, idx, j, minW, minH);
      if s.enabled && s.best != prev.best {
        assert s.best == OverlapWith(cfgs, idx, j - 1);
        assert Candidate(cfgs, idx, j - 1, minW, minH);
      }
    }
  }

  /** The block as decon_set_win_blocking_mode stores it: relative to the
      window's own origin, with inclusive edges turned into a size. */
  function BlockWinRect(b: Rect, dst: Frame): WinRect
    requires b.right - b.left + 1 >= 0 && b.bottom - b.top + 1 >= 0
  {
    WinRect(b.left - dst.x, b.top - dst.y, b.right - b.left + 1, b.bottom - b.top + 1)
  }

  /** The loop of decon_set_win_blocking_mode over the windows stacked above
      window idx: it stops at the first window hiding idx entirely, and
      otherwise keeps the largest overlap large enough to be a block. */
  method ScanBlocks(cfgs: array<WinConfig>, idx: nat, n: nat, minW: nat, minH: nat)
    returns (covered: bool, blockRect: Rect, blockingSize: nat, enabled: bool)
    requires idx < n <= cfgs.Length
    ensures covered <==> ScanUpTo(cfgs[..], idx, n, minW, minH).Covered?
    ensures !covered ==> ScanUpTo(cfgs[..], idx, n, minW, minH) == Scanning(blockRect, blockingSize, enabled)
  {
    var r1 := FrameRect(cfgs[idx].dst);
    blockRect, blockingSize, enabled := Rect(0, 0, 0, 0), 0, false;
    var j := idx + 1;
    while j < n
      invariant idx + 1 <= j <= n
      invariant ScanUpTo(cfgs[..], idx, j, minW, minH) == Scanning(blockRect, blockingSize, enabled)
    {
      var cj := cfgs[j];
      assert cfgs[..][j] == cj && FrameRect(cfgs[..][idx].dst) == r1;
      assert ScanUpTo(cfgs[..], idx, j + 1, minW, minH) == BlockStep(Scanning(blockRect, blockingSize, enabled), cfgs[..], idx, j, minW, minH);
      // windows below, transparent formats and plane-alpha windows are skipped
      if IsOpaqueCover(cj) {
        var r2 := FrameRect(cj.dst);
        if Intersect(r1, r2) {
          var overlap := Intersection(r1, r2);
          if !RectDiffer(r1, overlap) {
            CoveredPersists(cfgs[..], idx, j + 1, n, minW, minH);
            return true, blockRect, blockingSize, enabled;
          }
          if LargeEnough(overlap, minW, minH) {
            var overlapSize := OverlapSize(overlap);
            if overlapSize > blockingSize {
              blockRect := overlap;
              blockingSize := OverlapSize(blockRect);
              enabled := true;
            }
          }
        }
      }
      j := j + 1;
    }
    covered := false;
  }

  /** decon_set_win_blocking_mode for window idx among the first
      `regs.maxWin` requests. Returns 1 when the window was disabled because
      it is covered entirely. */
  method SetWinBlockingMode(cfgs: array<WinConfig>, idx: nat, regs: RegData, minW: nat, minH: nat) returns (r: int)
    requires regs.Valid() && idx < regs.maxWin && regs.maxWin <= cfgs.Length
    modifies cfgs, regs.blockRect
    ensures r == 0 || r == 1
    ensures var c := old(cfgs[idx]);
      !(c.state == Buffer && IsRgb32(c.format)) ==> r == 0 && unchanged(cfgs, regs.blockRect)
    ensures var c := old(cfgs[idx]);
      c.state == Buffer && IsRgb32(c.format) ==>
        var s := ScanUpTo(old(cfgs[..]), idx, regs.maxWin, minW, minH);
        && (r == 1 <==> s.Covered?)
        && (s.Covered? ==> cfgs[..] == old(cfgs[..])[idx := c.(state := Disabled)] && unchanged(regs.blockRect))
        && (s.Scanning? && s.enabled ==>
              && regs.blockRect[..] == old(regs.blockRect[..])[idx := BlockWinRect(s.best, c.dst)]
              && cfgs[..] == old(cfgs[..])[0 := old(cfgs[0]).(blockArea := BlockWinRect(s.best, c.dst))])
        && (s.Scanning? && !s.enabled ==> unchanged(cfgs, regs.blockRect))
  {
    var c := cfgs[idx];
    if c.state != Buffer {
      return 0;
    }
    // blocking mode is supported for 32-bit RGB formats only
    if !IsRgb32(c.format) {
      return 0;
    }
    var covered, blockRect, blockingSize, enabled := ScanBlocks(cfgs, idx, regs.maxWin, minW, minH);
    if covered {
      cfgs[idx] := cfgs[idx].(state := Disabled);
      return 1;
    }
    if enabled {
      regs.blockRect[idx] := BlockWinRect(blockRect, c.dst);
      cfgs[0] := cfgs[0].(blockArea := regs.blockRect[idx]);
    }
    return 0;
  }

  /** The block-mode setting decon_enable_blocking_mode programs at commit:
      on, with the stored rectangle, exactly when it has a non-zero area. */
  datatype BlockModeSetting = BlockModeSetting(x: int, y: int, w: nat, h: nat, enable: bool)

  function EnableBlockingMode(rect: WinRect): BlockModeSetting
  {
    if rect.w * rect.h != 0 then BlockModeSetting(rect.x, rect.y, rect.w, rect.h, true)
    else BlockModeSetting(0, 0, 0, 0, false)
  }

  /** A block chosen with positive minimum sizes is switched on at commit. */
  lemma ChosenBlockIsEnabled(cfgs: seq<WinConfig>, idx: nat, j: nat, minW: nat, minH: nat)
    requires idx < j <= |cfgs| && minW >= 1 && minH >= 1
    requires ScanUpTo(cfgs, idx, j, minW, minH).Scanning? && ScanUpTo(cfgs, idx, j, minW, minH).enabled
    ensures var s := ScanUpTo(cfgs, idx, j, minW, minH);
      EnableBlockingMode(BlockWinRect(s.best, cfgs[idx].dst)).enable
  {
    var s := ScanUpTo(cfgs, idx, j, minW, minH);
    var b := BlockWinRect(s.best, cfgs[idx].dst);
    assert b.w >= 1 && b.h >= 1;
    assert b.w * b.h >= 1 by { MulPositive(b.w, b.h); }
  }

  /** The block stored for window idx lies inside that window, in the
      window's own coordinates, and is at least the minimum block size. */
  lemma ChosenBlockInsideWindow(cfgs: seq<WinConfig>, idx: nat, j: nat, minW: nat, minH: nat)
    requires idx < j <= |cfgs|
    requires ScanUpTo(cfgs, idx, j, minW, minH).Scanning? && ScanUpTo(cfgs, idx, j, minW, minH).enabled
    ensures var dst := cfgs[idx].dst;
      var b := BlockWinRect(ScanUpTo(cfgs, idx, j, minW, minH).best, dst);
      && 0 <= b.x && b.x + b.w <= dst.w && 0 <= b.y && b.y + b.h <= dst.h
      && b.w >= minW && b.h >= minH
  {
    BlockIsLargestCandidate(cfgs, idx, j, minW, minH);
  }

  lemma MulPositive(a: nat, b: nat)
    requires a >= 1 && b >= 1
    ensures a * b >= 1
  {
  }
}
