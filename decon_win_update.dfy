/**
 * Partial-update ("window update") logic of the DECON driver: the update
 * request travels in the extra slot after the last window. It is calibrated
 * to 8-pixel columns, remembered in the device, and every window is clipped
 * into it; a return to normal mode restores the full-screen rectangle.
 *
 * The update slot is the element at index max_win of the request array.
 */
module DeconWinUpdate {

  import opened KernelTypes
  import opened DeconGeometry
  import opened DeconState

  /** The horizontal snap of decon_calibrate_win_update_size: x is moved
      down to a multiple of 8 (w grows by what x lost), w is rounded up to a
      multiple of 8, and a result that runs past the panel becomes the full
      panel width. `x & 7` is `x % 8` and `x & ~7` is `x - x % 8` for x >= 0. */
  function CalibratedDst(dst: Frame, xres: nat): (d: Frame)
    requires dst.x >= 0
    ensures d.y == dst.y && d.h == dst.h && d.fW == dst.fW && d.fH == dst.fH
    ensures d.x >= 0 && d.x + d.w <= xres
    ensures var w := dst.w + dst.x % 8;
      var snapped := (w + 7) - (w + 7) % 8;
      if dst.x - dst.x % 8 + snapped > xres then d.x == 0 && d.w == xres
      else d.x % 8 == 0 && d.w % 8 == 0 && d.x <= dst.x && dst.x + dst.w <= d.x + d.w && d.w < dst.w + dst.x % 8 + 8 && dst.x - d.x < 8
  {
    var w := if dst.x % 8 != 0 then dst.w + dst.x % 8 else dst.w;
    var x := if dst.x % 8 != 0 then dst.x - dst.x % 8 else dst.x;
    var w' := (w + 7) - (w + 7) % 8;
    if x + w' > xres then dst.(x := 0, w := xres) else dst.(x := x, w := w')
  }

  /** The 8-pixel worked example: a request starting at column 3 and 50
      wide becomes columns 0 .. 55. */
  lemma CalibrationExample(dst: Frame, xres: nat)
    requires dst.x == 3 && dst.w == 50 && xres >= 56
    ensures CalibratedDst(dst, xres).x == 0 && CalibratedDst(dst, xres).w == 56
  {
  }

  /** A request that fits on the panel is still covered after calibration. */
  lemma CalibrationCovers(dst: Frame, xres: nat)
    requires dst.x >= 0 && dst.x + dst.w <= xres
    ensures var d := CalibratedDst(dst, xres); d.x <= dst.x && dst.x + dst.w <= d.x + d.w
  {
  }

  /** The update request after decon_calibrate_win_update_size, given the
      stored update rectangle and the panel width. */
  function CalibratedUpdate(c: WinConfig, stored: WinRect, xres: nat): (r: WinConfig)
    ensures c.state != Update ==> r == c
    ensures c.state == Update && (c.dst.x < 0 || c.dst.y < 0 || stored.w == 0 || stored.h == 0) ==>
      r == c.(state := Disabled)
    ensures r.state == Update ==> r.dst.x >= 0 && r.dst.y >= 0 && r.dst.x + r.dst.w <= xres
    ensures r.state == Update <==> c.state == Update && c.dst.x >= 0 && c.dst.y >= 0 && stored.w != 0 && stored.h != 0
    ensures r.(dst := c.dst) == c || r == c.(state := Disabled)
  {
    if c.state != Update then c
    else if c.dst.x < 0 || c.dst.y < 0 then c.(state := Disabled)
    else if stored.w == 0 || stored.h == 0 then c.(state := Disabled)
    else c.(dst := CalibratedDst(c.dst, xres))
  }

  /** decon_calibrate_win_update_size on the update slot `u` of `cfgs`. */
  method CalibrateWinUpdateSize(dev: DeconDevice, cfgs: array<WinConfig>, u: nat)
    requires u < cfgs.Length
    modifies cfgs
    ensures cfgs[..] == old(cfgs[..])[u := CalibratedUpdate(old(cfgs[u]), dev.updateWin, dev.lcd.xres)]
  {
    var c := cfgs[u];
    if c.state != Update {
      return;
    }
    if c.dst.x < 0 || c.dst.y < 0 {
      cfgs[u] := c.(state := Disabled);
      return;
    }
    if dev.updateWin.w == 0 || dev.updateWin.h == 0 {
      cfgs[u] := c.(state := Disabled);
      return;
    }
    var d := c.dst;
    if d.x % 8 != 0 {
      d := d.(w := d.w + d.x % 8);
      d := d.(x := d.x - d.x % 8);
    }
    d := d.(w := (d.w + 7) - (d.w + 7) % 8);
    if d.x + d.w > dev.lcd.xres {
      d := d.(w := dev.lcd.xres);
      d := d.(x := 0);
    }
    cfgs[u] := c.(dst := d);
  }

  /** The update rectangle a calibrated request describes. */
  function UpdateRectOf(d: Frame): WinRect
  {
    WinRect(d.x, d.y, d.w, d.h)
  }

  /** Whether the request differs from the stored update rectangle. */
  predicate UpdateDiffers(d: Frame, stored: WinRect)
  {
    d.x != stored.x || d.y != stored.y || d.w != stored.w || d.h != stored.h
  }

  function Translate(r: Rect, dx: int, dy: int): Rect
  {
    Rect(r.left + dx, r.top + dy, r.right + dx, r.bottom + dy)
  }

  /** One window after the clip loop of decon_set_win_update_config, for
      the update rectangle `u`. Coordinates become relative to the update
      origin. */
  function ClipWindow(c: WinConfig, u: Frame): (r: WinConfig)
    ensures c.state == Disabled ==> r == c
    ensures c.state != Disabled && !Intersect(FrameRect(u), FrameRect(c.dst)) ==> r == c.(state := Disabled)
    ensures c.state != Disabled && Intersect(FrameRect(u), FrameRect(c.dst)) ==>
      && r.(dst := c.dst, src := c.src) == c
      && r.dst.x >= 0 && r.dst.y >= 0
      && r.src.w == r.dst.w && r.src.h == r.dst.h
      && r.src.x == c.src.x + Max(u.x - c.dst.x, 0)
      && r.src.y == c.src.y + Max(u.y - c.dst.y, 0)
      && r.dst.fW == c.dst.fW && r.dst.fH == c.dst.fH && r.src.fW == c.src.fW && r.src.fH == c.src.fH
  {
    if c.state == Disabled then c
    else if !Intersect(FrameRect(u), FrameRect(c.dst)) then c.(state := Disabled)
    else
      var w: nat :=
        if u.x > c.dst.x then Min(u.w, c.dst.x + c.dst.w - u.x)
        else if u.x + u.w < c.dst.x + c.dst.w then Min(c.dst.w, u.w + u.x - c.dst.x)
        else c.dst.w;
      var h: nat :=
        if u.y > c.dst.y then Min(u.h, c.dst.y + c.dst.h - u.y)
        else if u.y + u.h < c.dst.y + c.dst.h then Min(c.dst.h, u.h + u.y - c.dst.y)
        else c.dst.h;
      var dst := c.dst.(w := w, h := h, x := Max(c.dst.x - u.x, 0), y := Max(c.dst.y - u.y, 0));
      var sx := if u.x > c.dst.x then c.src.x + (u.x - c.dst.x) else c.src.x;
      var sy := if u.y > c.dst.y then c.src.y + (u.y - c.dst.y) else c.src.y;
      c.(dst := dst, src := c.src.(x := sx, y := sy, w := w, h := h))
  }

  /** The clipped window, moved back by the update origin, is exactly the
      part of the old window inside the update rectangle. */
  lemma ClipIsIntersection(c: WinConfig, u: Frame)
    requires c.state != Disabled && Intersect(FrameRect(u), FrameRect(c.dst))
    ensures Translate(FrameRect(ClipWindow(c, u).dst), u.x, u.y) == IntersectionOf(FrameRect(u), FrameRect(c.dst))
  {
    var r := ClipWindow(c, u);
    assert r.dst.x + u.x == Max(u.x, c.dst.x);
    assert r.dst.y + u.y == Max(u.y, c.dst.y);
  }

  /** A clipped window fits inside the update rectangle (in the update's
      own coordinates), and is not empty when neither rectangle is. */
  lemma ClipFitsUpdate(c: WinConfig, u: Frame)
    requires c.state != Disabled && Intersect(FrameRect(u), FrameRect(c.dst))
    requires u.w > 0 && u.h > 0 && c.dst.w > 0 && c.dst.h > 0
    ensures var d := ClipWindow(c, u).dst; d.x + d.w <= u.w && d.y + d.h <= u.h && d.w >= 1 && d.h >= 1
  {
    ClipIsIntersection(c, u);
  }

  /** The body of the clip loop of decon_set_win_update_config for one
      window, step by step as the driver rewrites it. */
  method ClipOne(config0: WinConfig, u: Frame) returns (config: WinConfig)
    ensures config == ClipWindow(config0, u)
  {
    config := config0;
    if config.state == Disabled {
      return;
    }
    var r1 := FrameRect(u);
    var r2 := FrameRect(config.dst);
    if !Intersect(r1, r2) {
      config := config.(state := Disabled);
      return;
    }
    var temp := config;
    if u.x > config.dst.x {
      config := config.(dst := config.dst.(w := Min(u.w, config.dst.x + config.dst.w - u.x)));
    } else if u.x + u.w < config.dst.x + config.dst.w {
      config := config.(dst := config.dst.(w := Min(config.dst.w, u.w + u.x - config.dst.x)));
    }
    if u.y > config.dst.y {
      config := config.(dst := config.dst.(h := Min(u.h, config.dst.y + config.dst.h - u.y)));
    } else if u.y + u.h < config.dst.y + config.dst.h {
      config := config.(dst := config.dst.(h := Min(config.dst.h, u.h + u.y - config.dst.y)));
    }
    config := config.(dst := config.dst.(x := Max(config.dst.x - u.x, 0)));
    config := config.(dst := config.dst.(y := Max(config.dst.y - u.y, 0)));
    if u.y > temp.dst.y {
      config := config.(src := config.src.(y := config.src.y + (u.y - temp.dst.y)));
    }
    if u.x > temp.dst.x {
      config := config.(src := config.src.(x := config.src.x + (u.x - temp.dst.x)));
    }
    config := config.(src := config.src.(w := config.dst.w, h := config.dst.h));
  }

  /** The clip loop of decon_set_win_update_config over the first n
      requests; the update slot after them is left alone. */
  method ClipWindowsToUpdate(cfgs: array<WinConfig>, n: nat, u: Frame)
    requires n <= cfgs.Length
    modifies cfgs
    ensures forall k :: 0 <= k < n ==> cfgs[k] == ClipWindow(old(cfgs[k]), u)
    ensures forall k :: n <= k < cfgs.Length ==> cfgs[k] == old(cfgs[k])
  {
    var i := 0;
    while i < n
      invariant 0 <= i <= n
      invariant forall k :: 0 <= k < i ==> cfgs[k] == ClipWindow(old(cfgs[k]), u)
      invariant forall k :: i <= k < cfgs.Length ==> cfgs[k] == old(cfgs[k])
    {
      cfgs[i] := ClipOne(cfgs[i], u);
      i := i + 1;
    }
  }

  /** decon_update_2_full: back to the full panel. */
  method Update2Full(dev: DeconDevice, regs: RegData, flag: bool)
    modifies dev`needUpdate, dev`updateWin, regs`needUpdate, regs`updateWin
    ensures regs.needUpdate == (flag || old(regs.needUpdate))
    ensures !dev.needUpdate && dev.updateWin == WinRect(0, 0, dev.lcd.xres, dev.lcd.yres)
    ensures regs.updateWin == old(regs.updateWin).(w := dev.lcd.xres, h := dev.lcd.yres)
  {
    if flag {
      regs.needUpdate := true;
    }
    dev.needUpdate := false;
    dev.updateWin := WinRect(0, 0, dev.lcd.xres, dev.lcd.yres);
    regs.updateWin := regs.updateWin.(w := dev.lcd.xres, h := dev.lcd.yres);
  }

  /** decon_win_update_rect_reset: forget the update rectangle. */
  method RectReset(dev: DeconDevice)
    modifies dev`updateWin, dev`needUpdate
    ensures dev.updateWin == WinRect(0, 0, 0, 0) && dev.needUpdate
  {
    dev.updateWin := WinRect(0, 0, 0, 0);
    dev.needUpdate := true;
  }

  /** After a reset, the next update request is refused by calibration:
      the stored rectangle has no width. */
  lemma ResetRefusesNextUpdate(c: WinConfig, xres: nat)
    requires c.state == Update
    ensures CalibratedUpdate(c, WinRect(0, 0, 0, 0), xres).state == Disabled
  {
  }

  /** The requests decon_set_win_update_config leaves in a batch of
      maxWin windows and the update slot: the slot calibrated and, when it
      is still an update, every window clipped into it; otherwise the
      windows as they were. */
  function UpdatedRequests(cs: seq<WinConfig>, maxWin: nat, stored: WinRect, xres: nat): (r: seq<WinConfig>)
    requires |cs| == maxWin + 1
    ensures |r| == |cs|
  {
    var u := CalibratedUpdate(cs[maxWin], stored, xres);
    seq(maxWin + 1, k requires 0 <= k <= maxWin =>
      if k == maxWin then u else if u.state == Update then ClipWindow(cs[k], u.dst) else cs[k])
  }

  /** Every request keeps its format, and a window clipping disables is
      one that does not meet the update rectangle. */
  lemma UpdatedRequestsKeepFormat(cs: seq<WinConfig>, maxWin: nat, stored: WinRect, xres: nat)
    requires |cs| == maxWin + 1
    ensures var r := UpdatedRequests(cs, maxWin, stored, xres);
      forall k :: 0 <= k < maxWin ==> r[k].format == cs[k].format && r[k].color == cs[k].color
    ensures var r, u := UpdatedRequests(cs, maxWin, stored, xres), CalibratedUpdate(cs[maxWin], stored, xres);
      forall k :: 0 <= k < maxWin && cs[k].state != Disabled && r[k].state == Disabled ==>
        u.state == Update && !Intersect(FrameRect(u.dst), FrameRect(cs[k].dst))
  {
    var r, u := UpdatedRequests(cs, maxWin, stored, xres), CalibratedUpdate(cs[maxWin], stored, xres);
    forall k | 0 <= k < maxWin
      ensures r[k].format == cs[k].format && r[k].color == cs[k].color
      ensures cs[k].state != Disabled && r[k].state == Disabled ==>
        u.state == Update && !Intersect(FrameRect(u.dst), FrameRect(cs[k].dst))
    {
      if u.state == Update && cs[k].state != Disabled && Intersect(FrameRect(u.dst), FrameRect(cs[k].dst)) {
        assert r[k].(dst := cs[k].dst, src := cs[k].src) == cs[k];
      }
    }
  }

  /** The window-update bookkeeping: the device's flag and stored
      rectangle, and the snapshot's. */
  datatype UpdateBook = UpdateBook(devNeed: bool, devWin: WinRect, regsNeed: bool, regsWin: WinRect)

  function BookOf(dev: DeconDevice, regs: RegData): UpdateBook
    reads dev`needUpdate, dev`updateWin, regs`needUpdate, regs`updateWin
  {
    UpdateBook(dev.needUpdate, dev.updateWin, regs.needUpdate, regs.updateWin)
  }

  /** The bookkeeping decon_set_win_update_config leaves for the calibrated
      request u: a new update rectangle is stored in both and flagged; a
      return to normal mode while an update was active stores the full
      panel and flags the snapshot; an unchanged update rectangle is copied
      into the snapshot while an update is active; otherwise nothing
      changes. */
  function BookAfter(u: WinConfig, lcd: LcdInfo, b: UpdateBook): (a: UpdateBook)
    ensures u.state == Update ==> a.devWin == UpdateRectOf(u.dst)
    ensures u.state != Update ==> !a.devNeed
    ensures a.regsNeed == (b.regsNeed || (u.state == Update && UpdateDiffers(u.dst, b.devWin)) || (u.state != Update && b.devNeed))
  {
    if u.state == Update && UpdateDiffers(u.dst, b.devWin) then
      UpdateBook(true, UpdateRectOf(u.dst), true, UpdateRectOf(u.dst))
    else if u.state != Update && b.devNeed then
      UpdateBook(false, WinRect(0, 0, lcd.xres, lcd.yres), true, b.regsWin.(w := lcd.xres, h := lcd.yres))
    else if u.state == Update && b.devNeed then
      b.(regsWin := UpdateRectOf(u.dst))
    else b
  }

  /** decon_set_win_update_config: calibrate the request in slot max_win,
      remember it or return to full screen, then clip every window into it. */
  method SetWinUpdateConfig(dev: DeconDevice, cfgs: array<WinConfig>, regs: RegData)
    requires cfgs.Length == dev.maxWin + 1
    modifies cfgs, dev`needUpdate, dev`updateWin, regs`needUpdate, regs`updateWin
    ensures ScreenInfos(dev.windows) == old(ScreenInfos(dev.windows)) && SavedInfos(dev.windows) == old(SavedInfos(dev.windows))
    ensures cfgs[..] == UpdatedRequests(old(cfgs[..]), dev.maxWin, old(dev.updateWin), dev.lcd.xres)
    ensures BookOf(dev, regs) ==
      BookAfter(CalibratedUpdate(old(cfgs[dev.maxWin]), old(dev.updateWin), dev.lcd.xres), dev.lcd, old(BookOf(dev, regs)))
    ensures var u := CalibratedUpdate(old(cfgs[dev.maxWin]), old(dev.updateWin), dev.lcd.xres);
      && cfgs[dev.maxWin] == u
      && (u.state == Update ==>
            && dev.updateWin == UpdateRectOf(u.dst)
            && forall k :: 0 <= k < dev.maxWin ==> cfgs[k] == ClipWindow(old(cfgs[k]), u.dst))
      && (u.state != Update ==> forall k :: 0 <= k < dev.maxWin ==> cfgs[k] == old(cfgs[k]))
    ensures var u := CalibratedUpdate(old(cfgs[dev.maxWin]), old(dev.updateWin), dev.lcd.xres);
      u.state == Update && UpdateDiffers(u.dst, old(dev.updateWin)) ==>
        && dev.needUpdate && regs.needUpdate && regs.updateWin == UpdateRectOf(u.dst)
    ensures var u := CalibratedUpdate(old(cfgs[dev.maxWin]), old(dev.updateWin), dev.lcd.xres);
      u.state != Update && old(dev.needUpdate) ==>
        && !dev.needUpdate && dev.updateWin == WinRect(0, 0, dev.lcd.xres, dev.lcd.yres)
        && regs.needUpdate && regs.updateWin == old(regs.updateWin).(w := dev.lcd.xres, h := dev.lcd.yres)
    ensures var u := CalibratedUpdate(old(cfgs[dev.maxWin]), old(dev.updateWin), dev.lcd.xres);
      u.state == Update && !UpdateDiffers(u.dst, old(dev.updateWin)) ==>
        && dev.needUpdate == old(dev.needUpdate) && regs.needUpdate == old(regs.needUpdate)
        && regs.updateWin == (if old(dev.needUpdate) then UpdateRectOf(u.dst) else old(regs.updateWin))
    ensures var u := CalibratedUpdate(old(cfgs[dev.maxWin]), old(dev.updateWin), dev.lcd.xres);
      u.state != Update && !old(dev.needUpdate) ==>
        && !dev.needUpdate && dev.updateWin == old(dev.updateWin)
        && regs.needUpdate == old(regs.needUpdate) && regs.updateWin == old(regs.updateWin)
  {
    var ui := dev.maxWin;
    CalibrateWinUpdateSize(dev, cfgs, ui);
    var u := cfgs[ui];

    if u.state == Update && UpdateDiffers(u.dst, dev.updateWin) {
      dev.updateWin := UpdateRectOf(u.dst);
      dev.needUpdate := true;
      regs.needUpdate := true;
      regs.updateWin := UpdateRectOf(u.dst);
    } else if dev.needUpdate && u.state != Update {
      // the platform asked for normal mode: switch back to the full panel
      Update2Full(dev, regs, true);
      return;
    } else if dev.needUpdate {
      regs.updateWin := UpdateRectOf(u.dst);
    }

    if u.state != Update {
      return;
    }

    ClipWindowsToUpdate(cfgs, dev.maxWin, u.dst);
  }

  /** The porch values decon_win_update_disp_config hands to the DSI
      side: the panel shrinks to the update size, half of the lost width goes
      to the horizontal front porch and all of the lost height to the
      vertical one. The subtractions are unsigned 32-bit. */
  function PartialLcd(lcd: LcdInfo, w: nat, h: nat): (p: LcdInfo)
    ensures p.xres == w && p.yres == h
    ensures w <= lcd.xres && h <= lcd.yres && lcd.hfp + lcd.xres < U32_MODULUS && lcd.vfp + lcd.yres < U32_MODULUS ==>
      && p.vfp + p.yres == lcd.vfp + lcd.yres
      && p.hfp + p.xres + (lcd.xres - w + 1) / 2 == lcd.hfp + lcd.xres
  {
    LcdInfo(w, h, U32(lcd.hfp + U32(lcd.xres - w) / 2), U32(lcd.vfp + lcd.yres - h))
  }

  /** decon_win_update_disp_config, with the result of the porch ioctl as a
      parameter: a failure forgets the update rectangle. */
  method WinUpdateDispConfig(dev: DeconDevice, rect: WinRect, porchResult: int) returns (ret: int, lcdInfo: LcdInfo)
    modifies dev`updateWin, dev`needUpdate
    ensures ret == porchResult && lcdInfo == PartialLcd(dev.lcd, rect.w, rect.h)
    ensures ret != 0 ==> dev.updateWin == WinRect(0, 0, 0, 0) && dev.needUpdate
    ensures ret == 0 ==> dev.updateWin == old(dev.updateWin) && dev.needUpdate == old(dev.needUpdate)
  {
    lcdInfo := dev.lcd.(xres := rect.w, yres := rect.h);
    lcdInfo := lcdInfo.(hfp := U32(dev.lcd.hfp + U32(dev.lcd.xres - rect.w) / 2));
    lcdInfo := lcdInfo.(vfp := U32(dev.lcd.vfp + dev.lcd.yres - rect.h));
    ret := porchResult;
    if ret != 0 {
      RectReset(dev);
    }
  }
}
