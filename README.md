# DECON window staging and KL5KUSB105 framing, in Dafny

This project models two sequential pieces of logic from two Linux drivers and
proves properties of them.

**Exynos 7580 DECON display controller** (`decon_core.c`). A frame submission
is an array of per-window requests (`decon_win_config`), with the partial-update
rectangle in the last slot. `decon_set_win_config` turns it into a register
snapshot (`decon_reg_data`): channel lengths, offsets and bits per pixel from the
pixel-format tables; the VIDOSD position and alpha words; the WINCON and BLENDEQ
words; the DMA buffer records; and the bandwidth sum. Along the way it disables
windows that need scaling, windows with an unknown format and windows hidden by a
window above them (blocking mode). It snaps the update rectangle to 8-pixel
columns and clips every window into that rectangle. The commit side is modelled
as plain state:

- channel-conflict removal;
- the raise-before / lower-after bandwidth (QoS) rule;
- the protected-content toggle;
- installing the new buffers and releasing the previous ones;
- the sw_sync timeline;
- the FIFO of queued snapshots.

The vsync interrupt reference count, the pixel clock of a mode that lacks one
and the gamma-table register walk are modelled too.

The modules are:

- `DeconFormat`: pixel formats and their tables;
- `DeconRegs`: register words;
- `DeconGeometry`: rectangles and bandwidth;
- `DeconBlocking`: the blocking-mode choice;
- `DeconState`: the `decon_device`, `decon_win`, `fb_info` and `decon_reg_data` classes and the buffer record;
- `DeconStaging`: `decon_set_alpha_blending` and `decon_set_win_buffer`;
- `DeconWinUpdate`: partial update;
- `DeconWinConfig`: the per-window loop of `decon_set_win_config`;
- `DeconSubmit`: the rest of `decon_set_win_config`;
- `DeconCommit`: the commit side and vsync;
- `DeconMisc`: pixclock and gamma.

Register macros and enum values live in headers outside this model. They are
kept abstract:

- a WINCON word is a set of named flags, where OR is union and `&= ~F` is removal;
- a VIDOSD word is a record of its field values;
- a BLENDEQ word is a datatype whose `BlendZero` is the source's `return 0`;
- a pixel format is one of the fifteen named formats or `Unlisted(belowMax)`.

The code relies on an enum order in which the packed RGB formats are exactly those
`<= DECON_PIXEL_FORMAT_RGB_565`. The model states this as the predicate
`IsPackedRgb`.

**KL5KUSB105 USB serial adapter** (`kl5kusb105.c`), module `Kl5kusb105`:

- the write path puts a 2-byte little-endian length in front of the payload it drains from the port FIFO;
- the read path parses that header and clamps the length to what arrived;
- the device status word maps to modem-line bits;
- `set_termios` maps the baud rate and character size to device codes and clears the flags the device cannot honour;
- `port_probe` sets the default settings;
- `tiocmset` always fails.

`KernelTypes` holds the shared `Option`, error numbers and u32 wrap-around.

## Model

All DECON paths are `drivers/video/exynos/decon_7580/decon_core.c`; all serial paths are `drivers/usb/serial/kl5kusb105.c`.

| member | source | states |
|---|---|---|
| DeconFormat.BitsPerPixelTable | drivers/video/exynos/decon_7580/decon_core.c:1573-1587 | bits per pixel (red+green+blue+transp lengths plus padding for packed RGB, 12 otherwise) is 32 for RGBA/BGRA/RGBX/BGRX, 24 for ARGB/ABGR/XRGB/XBGR (their table entries are missing), 16 for RGBA5551/RGB565 and 12 for every other format |
| DeconFormat.PackedPixelAlignment | drivers/video/exynos/decon_7580/decon_core.c:555-572 | a packed RGB format has 16, 24 or 32 bits per pixel, so the x-alignment divisor 32/bpp is 2 for the 16-bit formats and 1 otherwise |
| DeconFormat.ChannelsInsidePixel | drivers/video/exynos/decon_7580/decon_core.c:258-516 | for the formats whose tables are complete, every channel's offset+length lies inside the pixel |
| DeconFormat.PlaneCount | drivers/video/exynos/decon_7580/decon_core.c:1378-1406 | -1 exactly for formats that are neither packed RGB nor YUV; 2 exactly for NV12M/NV21M/NV21M_FULL; 1 exactly for packed RGB and NV12/NV21 |
| DeconRegs.WinconWord | drivers/video/exynos/decon_7580/decon_core.c:179-216 | ALPHA_SEL iff transp_length is not 1; never ENWIN, BURSTLEN or ALPHA_MUL; INTERPOLATION iff 12 bpp; BLD_PIX iff 24/32 bpp with an alpha channel; only ALPHA_SEL for an unsupported bpp; BPPMODE is NV12 iff 12 bpp with an NV12/NV12M format, NV21 iff 12 bpp with an NV21/NV21M/NV21M_FULL format, RGB565 iff 16 bpp, ARGB8888 iff 24/32 bpp with an alpha channel, XRGB8888 iff 24/32 bpp without one |
| DeconRegs.PremultWithOneBitAlphaIsCoverage | drivers/video/exynos/decon_7580/decon_core.c:218-256 | with transp_length 1, PREMULT gives the same BLENDEQ word as COVERAGE |
| DeconRegs.PremultCoefficients | drivers/video/exynos/decon_7580/decon_core.c:218-256 | otherwise PREMULT uses the ALPHA0 coefficient iff 0 < plane_alpha < 255 and ONE iff not, always with 1-ALPHA_A for b and zero for p, q |
| DeconRegs.BlendZeroIffUnknown | drivers/video/exynos/decon_7580/decon_core.c:218-256 | the BLENDEQ word is 0 exactly for an unknown blending mode |
| DeconGeometry.FrameRect | drivers/video/exynos/decon_7580/decon_core.c:619-633 | the rectangle of a frame spans exactly w columns and h rows, and is well formed when both are positive |
| DeconGeometry.IntersectIffCommonPoint | drivers/video/exynos/decon_7580/decon_core.c:619-623 | for well-formed rectangles, decon_intersect holds iff they share a pixel |
| DeconGeometry.Intersection | drivers/video/exynos/decon_7580/decon_core.c:625-633 | the result holds exactly the pixels of both inputs; when they intersect it is well formed and inside each |
| DeconGeometry.RectDifferIffUnequal | drivers/video/exynos/decon_7580/decon_core.c:607-612 | is_decon_rect_differ is false exactly when all four edges are equal |
| DeconGeometry.XAlignedIff | drivers/video/exynos/decon_7580/decon_core.c:555-572 | x alignment holds iff x and x+w are both multiples of 32/bpp (the u32 sum kept below 2^32) |
| DeconGeometry.XAlignedExamples | drivers/video/exynos/decon_7580/decon_core.c:555-572 | at 16 bpp, (3,5) is refused and (4,6) accepted |
| DeconGeometry.CalcBandwidth | drivers/video/exynos/decon_7580/decon_core.c:574-582 | the unsigned product wraps into 32 bits |
| DeconGeometry.CalcBandwidthExact | drivers/video/exynos/decon_7580/decon_core.c:574-582 | whenever w*h*bytes-per-pixel*fps fits in 32 bits (a zero factor included) the bandwidth is exactly that product |
| DeconBlocking.ScanUpTo | drivers/video/exynos/decon_7580/decon_core.c:652-733 | the scan state after the windows above idx: a chosen block is at least MIN_BLK_MODE in size and its size is the recorded blocking size; no choice leaves a zero block |
| DeconBlocking.CoveredPersists | drivers/video/exynos/decon_7580/decon_core.c:694-701 | once a window above covers idx the scan stops for good |
| DeconBlocking.CoveredIffSomeCover | drivers/video/exynos/decon_7580/decon_core.c:675-701 | the scan ends covered iff some opaque buffer window above idx contains all of it |
| DeconBlocking.CoverHidesWindow | drivers/video/exynos/decon_7580/decon_core.c:694-701 | a covering window contains every pixel of the covered one |
| DeconBlocking.BlockIsLargestCandidate | drivers/video/exynos/decon_7580/decon_core.c:675-719 | the chosen block is the overlap with the first candidate of largest size; no candidate overlaps more; a block is chosen iff some candidate has a positive overlap |
| DeconBlocking.ChosenBlockInsideWindow | drivers/video/exynos/decon_7580/decon_core.c:702-730 | the block stored for a window lies inside that window in its own coordinates, and is at least MIN_BLK_MODE wide and high |
| DeconBlocking.ScanBlocks | drivers/video/exynos/decon_7580/decon_core.c:674-719 | the loop over the windows above ends in exactly the state ScanUpTo defines |
| DeconBlocking.SetWinBlockingMode | drivers/video/exynos/decon_7580/decon_core.c:652-733 | only an opaque 32-bit buffer window is considered; it returns 1 and becomes disabled iff it is covered; a chosen block goes into block_rect[idx] and win_config[0].block_area; otherwise nothing changes |
| DeconBlocking.ChosenBlockIsEnabled | drivers/video/exynos/decon_7580/decon_core.c:702-752 | a block chosen by the scan always enables blocking mode |
| DeconWinUpdate.CalibratedDst | drivers/video/exynos/decon_7580/decon_core.c:1771-1779 | x snapped down to a multiple of 8 and w widened by x&7 then rounded up to a multiple of 8, covering the original; if that overruns xres, x=0 and w=xres; x+w <= xres afterwards |
| DeconWinUpdate.CalibrationExample | drivers/video/exynos/decon_7580/decon_core.c:1771-1779 | (3, 50) becomes x=0, w=56 |
| DeconWinUpdate.CalibrationCovers | drivers/video/exynos/decon_7580/decon_core.c:1771-1779 | the calibrated rectangle contains the requested one |
| DeconWinUpdate.CalibratedUpdate | drivers/video/exynos/decon_7580/decon_core.c:1748-1782 | a negative origin or a stored update_win of zero width or height disables the update slot; otherwise only dst changes and it ends inside the screen |
| DeconWinUpdate.CalibrateWinUpdateSize | drivers/video/exynos/decon_7580/decon_core.c:1748-1782 | the update slot is rewritten to CalibratedUpdate and no other slot changes |
| DeconWinUpdate.ClipWindow | drivers/video/exynos/decon_7580/decon_core.c:1836-1884 | a disabled window stays as it is; a window missing the update rectangle becomes disabled; an intersecting one gets dst.x, dst.y >= 0, src.w=dst.w, src.h=dst.h and its src origin advanced by how far the update origin exceeds its dst origin |
| DeconWinUpdate.ClipIsIntersection | drivers/video/exynos/decon_7580/decon_core.c:1836-1884 | the clipped dst, moved back to screen coordinates, is the intersection with the update rectangle |
| DeconWinUpdate.ClipFitsUpdate | drivers/video/exynos/decon_7580/decon_core.c:1836-1884 | the clipped dst is non-empty and lies inside the update rectangle |
| DeconWinUpdate.ClipOne | drivers/video/exynos/decon_7580/decon_core.c:1841-1883 | the in-place clip of one request computes ClipWindow |
| DeconWinUpdate.ClipWindowsToUpdate | drivers/video/exynos/decon_7580/decon_core.c:1836-1884 | every window below the update slot is replaced by its clip and the rest is untouched |
| DeconWinUpdate.UpdatedRequestsKeepFormat | drivers/video/exynos/decon_7580/decon_core.c:1836-1884 | the window-update step keeps every window's format and colour, and it disables a window only when the update rectangle misses it |
| DeconWinUpdate.BookAfter | drivers/video/exynos/decon_7580/decon_core.c:1796-1826 | a changed update rectangle is stored and marks device and snapshot for update; a non-update request clears the device flag; the snapshot is flagged iff it was, the rectangle changed, or a pending update falls back to full screen |
| DeconWinUpdate.Update2Full | drivers/video/exynos/decon_7580/decon_core.c:1727-1746 | the stored update rectangle becomes the full screen and need_update is cleared; the snapshot gets the full size and its need_update is raised with the flag |
| DeconWinUpdate.RectReset | drivers/video/exynos/decon_7580/decon_core.c:768-775 | the stored rectangle is zeroed and need_update raised |
| DeconWinUpdate.ResetRefusesNextUpdate | drivers/video/exynos/decon_7580/decon_core.c:768-775 | after a reset the next partial update is refused |
| DeconWinUpdate.SetWinUpdateConfig | drivers/video/exynos/decon_7580/decon_core.c:1784-1887 | the update slot becomes CalibratedUpdate of the request; when it is an update every window becomes its ClipWindow, otherwise every window is kept; device and snapshot flags and rectangles follow BookAfter, branch by branch; no screen info changes |
| DeconWinUpdate.PartialLcd | drivers/video/exynos/decon_7580/decon_core.c:822-827 | the partial mode has the update size, keeps the vertical total and keeps the horizontal total less half the width removed |
| DeconWinUpdate.WinUpdateDispConfig | drivers/video/exynos/decon_7580/decon_core.c:816-848 | returns the porch-setting result with the partial mode; on failure the update rectangle is reset |
| DeconState.RegData.constructor | drivers/video/exynos/decon_7580/decon_core.c:2234-2239 | a zeroed snapshot (Zeroed): empty WINCON words, no colour maps, zero VIDOSD, BLENDEQ, buffer-record, buffer-start, source and protection words, zero bandwidth, no windows, no update |
| DeconState.DeconWindow.constructor | drivers/video/exynos/decon_7580/decon_core.c:2850-2861 | a window with its index and fps and a fresh framebuffer (fb_info) holding the given screen info; the saved prev_var / prev_fix copies start zeroed, as framebuffer_alloc leaves them |
| DeconState.FbInfo.constructor | drivers/video/exynos/decon_7580/decon_core.c:2850-2861 | a framebuffer holding the given var and fix screen info |
| DeconState.DeconDevice.constructor | drivers/video/exynos/decon_7580/decon_core.c:4446-4447 | timeline at 0 with max 1 and an empty queue, no vsync reference, protection off, no update, prev_bw 0, empty buffer rows |
| DeconState.FreeDmaBuf | drivers/video/exynos/decon_7580/decon_core.c:1358-1376 | an unmapped record costs nothing; a mapped one is released once and its fence put once if it has one |
| DeconState.FreeDmaBufIdempotent | drivers/video/exynos/decon_7580/decon_core.c:1358-1376 | a freed record is unmapped and freeing it again changes nothing |
| DeconStaging.AlphaBlendingStage | drivers/video/exynos/decon_7580/decon_core.c:1488-1523 | plane alpha gives alpha0=plane_alpha, alpha1=0, else alpha1=255; window 0 gets no BLENDEQ entry and keeps its WINCON word; PREMULT becomes COVERAGE only for a plane-alpha window without an alpha channel; only ALPHA_MUL and ALPHA_SEL can change |
| DeconStaging.PlaneAlphaWincon | drivers/video/exynos/decon_7580/decon_core.c:1496-1520 | a plane-alpha window with an alpha channel and blending gets ALPHA_MUL; without an alpha channel it loses ALPHA_SEL and blends premultiplied as coverage |
| DeconStaging.SetAlphaBlending | drivers/video/exynos/decon_7580/decon_core.c:1488-1523 | writes the staged alpha words, WINCON word, blending and (above window 0) BLENDEQ[win-1] and nothing else |
| DeconStaging.PlaneOffsets | drivers/video/exynos/decon_7580/decon_core.c:1408-1440 | for NV12/NV21 plane 1 is plane 0 plus f_w*f_h and plane 2 is 0; other formats keep the row |
| DeconStaging.CalcPlaneOffset | drivers/video/exynos/decon_7580/decon_core.c:1420-1440 | the window's buffer row becomes PlaneOffsets of it and no other row changes |
| DeconStaging.RowsSet | drivers/video/exynos/decon_7580/decon_core.c:1678-1683 | an array whose row i was replaced, and whose other rows are kept, has the old rows with row i replaced |
| DeconStaging.PlanesToImport | drivers/video/exynos/decon_7580/decon_core.c:1614-1639 | at most three planes are imported and none for an unknown format |
| DeconStaging.ColourVar | drivers/video/exynos/decon_7580/decon_core.c:1563-1587 | the screen info gets the bits per pixel and transp length of the format; size and offsets kept |
| DeconStaging.RgbOrderFlags | drivers/video/exynos/decon_7580/decon_core.c:520-553 | at most one order flag; none exactly for RGBA5551 and non-RGB formats |
| DeconStaging.BufferStage | drivers/video/exynos/decon_7580/decon_core.c:1525-1724 | any malformed request (unknown format or blending, blending on window 0, empty or negative dst, under 128 bytes wide, f_w < w, misaligned) is -EINVAL with nothing to release; a staged window has the format's bpp, the dst size, the src offsets, the imported size and planes, and a buffer large enough for the window |
| DeconStaging.BufferStagedIff | drivers/video/exynos/decon_7580/decon_core.c:1538-1660 | a window is staged iff the request is well formed, the import succeeds, a given fence resolves and the buffer is large enough |
| DeconStaging.BlendingOnWindowZeroRejected | drivers/video/exynos/decon_7580/decon_core.c:1548-1551 | any blending on window 0 is -EINVAL |
| DeconStaging.StagedScreenInfo | drivers/video/exynos/decon_7580/decon_core.c:1640-1676 | line_length is the (u32) f_w*bpp/8, the virtual size is dst's frame, plane 0 carries the fence, other planes are the imports |
| DeconStaging.MappedCount | drivers/video/exynos/decon_7580/decon_core.c:1358-1376 | counts the records a free would release, never more than there are |
| DeconStaging.FencedCount | drivers/video/exynos/decon_7580/decon_core.c:1364-1365 | counts the fences a free would put, never more than the mapped records |
| DeconStaging.ReleasePlanes | drivers/video/exynos/decon_7580/decon_core.c:1712-1714 | the error path releases each mapped plane once and puts each fence once |
| DeconStaging.StagePlanes | drivers/video/exynos/decon_7580/decon_core.c:1678-1683 | the window's row gets the imported planes with the plane offsets applied; other rows kept |
| DeconStaging.FillWinPosition | drivers/video/exynos/decon_7580/decon_core.c:1678-1699 | buffer start, VIDOSD A/B, source frame, protection and the buffer row of the window are set and nothing else |
| DeconStaging.VidosdSpansFrame | drivers/video/exynos/decon_7580/decon_core.c:153-163 | the VIDOSD_A / VIDOSD_B corners are the inclusive edges of the destination frame, the same rectangle the overlap tests use |
| DeconStaging.FillWinMode | drivers/video/exynos/decon_7580/decon_core.c:1696-1702 | the WINCON word (format bits, RGB order, then alpha) and the alpha words of the window are set |
| DeconStaging.ValidateWinBuffer | drivers/video/exynos/decon_7580/decon_core.c:1525-1676 | returns 0 iff staged; a rejection restores the screen info and releases what was imported; success installs the new screen info |
| DeconStaging.FillStaged | drivers/video/exynos/decon_7580/decon_core.c:1678-1702 | every register of the window is set from the staged outcome |
| DeconStaging.SetWinBuffer | drivers/video/exynos/decon_7580/decon_core.c:1525-1724 | returns 0 iff BufferStage stages the window; a rejection leaves screen info, request and every register as they were and releases the imports; success writes exactly the window's registers |
| DeconWinConfig.NormalisedState | drivers/video/exynos/decon_7580/decon_core.c:2261-2272 | a window is disabled iff it was, needs scaling or has an unknown format; otherwise its state is kept |
| DeconWinConfig.NormaliseWindow | drivers/video/exynos/decon_7580/decon_core.c:2261-2272 | the window's request gets its normalised state and nothing else changes |
| DeconWinConfig.StageColorWindow | drivers/video/exynos/decon_7580/decon_core.c:2277-2284 | a COLOR window gets its position words and alpha blending at transp 0 |
| DeconWinConfig.ColorStagedWords | drivers/video/exynos/decon_7580/decon_core.c:2277-2284 | the arrays a COLOR window leaves hold the old words with only that window's replaced by ColorWords of its request as rewritten |
| DeconWinConfig.StageColorWords | drivers/video/exynos/decon_7580/decon_core.c:2277-2284 | the COLOR case in window words: the window's words become ColorWords of its request, every other window's words stay, and only its request's blending and its WINCON word change |
| DeconWinConfig.ZeroedWords | drivers/video/exynos/decon_7580/decon_core.c:2234-2239 | a fresh snapshot holds all-zero words (ZeroWords) in every window |
| DeconWinConfig.AlphaStageStable | drivers/video/exynos/decon_7580/decon_core.c:1488-1523 | running decon_set_alpha_blending again on the blending mode it chose gives the same alpha and blend words and keeps the mode |
| DeconWinConfig.ColorWordsOfStaged | drivers/video/exynos/decon_7580/decon_core.c:1488-1523 | a COLOR window staged by decon_set_alpha_blending holds ColorWords of its rewritten request |
| DeconWinConfig.BufferWordsOfStaged | drivers/video/exynos/decon_7580/decon_core.c:1678-1702 | a BUFFER window staged by decon_set_win_buffer holds BufferWords of its rewritten request, whatever screen info the window had before |
| DeconWinConfig.StagedWordsIgnoresBlockArea | drivers/video/exynos/decon_7580/decon_core.c:721-730 | the block area blocking mode writes into request 0 does not change the words any window stages |
| DeconWinConfig.StagedWordsStep | drivers/video/exynos/decon_7580/decon_core.c:2254-2324 | staging window i, with the earlier requests changed at most in their block area, extends the staged prefix of words by window i |
| DeconWinConfig.BufferStageIgnoresBlockArea | drivers/video/exynos/decon_7580/decon_core.c:1525-1724 | the block area written into win_config[0] by blocking mode does not affect buffer staging |
| DeconWinConfig.StageVisibleBuffer | drivers/video/exynos/decon_7580/decon_core.c:2291-2295 | a visible BUFFER window returns 0 iff it is staged; on success its words become BufferWords of its request and no other window's words change; on failure no word changes |
| DeconWinConfig.VisibleBufferAccount | drivers/video/exynos/decon_7580/decon_core.c:2285-2296 | for a BUFFER window blocking mode left visible, its error, screen info, released planes and words are those of BufferStage of its request |
| DeconWinConfig.BufferStagedWords | drivers/video/exynos/decon_7580/decon_core.c:1678-1702 | the arrays decon_set_win_buffer leaves for a staged window hold the old words with only that window's replaced by BufferWords of its request as rewritten |
| DeconWinConfig.StageBufferWindow | drivers/video/exynos/decon_7580/decon_core.c:2285-2296 | a window hidden by blocking mode is disabled with no error; otherwise it is enabled iff staged, and a failure is its error; on success its words become StagedWords and no other window's change; on failure no word changes |
| DeconWinConfig.BlockingStep | drivers/video/exynos/decon_7580/decon_core.c:2285-2290 | reports whether blocking mode finds the window hidden; a hidden window becomes disabled, a visible one changes at most in its block area, and no other request changes |
| DeconWinConfig.StageWindow | drivers/video/exynos/decon_7580/decon_core.c:2261-2302 | disabled and COLOR windows succeed; an UPDATE or unknown state is -EINVAL; a BUFFER window is staged or hidden; enabled windows get colour map 0 (buffer) or their colour, disabled ones colour 0; on success the window's words become StagedWords of its request and no other window's change; on failure no word changes |
| DeconWinConfig.StageNormalised | drivers/video/exynos/decon_7580/decon_core.c:2274-2302 | the switch on the normalised request: disabled and COLOR windows succeed, UPDATE and unknown states are -EINVAL, a BUFFER window is staged, hidden or rejected by BufferStage; the error, screen info and release totals are WindowError, WindowInfo and WindowRelease of the submitted request |
| DeconWinConfig.WindowErrorSign | drivers/video/exynos/decon_7580/decon_core.c:2274-2302 | a window's error is never positive, and a window that does not stop the loop releases nothing of its own |
| DeconWinConfig.VisibleOutcomeByState | drivers/video/exynos/decon_7580/decon_core.c:2274-2302 | what the loop decides for a window depends on its state as left, not on the rest of the request |
| DeconWinConfig.BytesPerPixel | drivers/video/exynos/decon_7580/decon_core.c:2320 | DIV_ROUND_UP(bpp, 8) |
| DeconWinConfig.WindowBandwidth | drivers/video/exynos/decon_7580/decon_core.c:2317-2321 | only BUFFER windows cost bandwidth, a u32 value |
| DeconWinConfig.BufferBandwidth | drivers/video/exynos/decon_7580/decon_core.c:2319-2321 | the bandwidth sum as an unsigned int |
| DeconWinConfig.BandwidthNoWrap | drivers/video/exynos/decon_7580/decon_core.c:2319-2321 | without overflow the sum is the plain sum over the buffer windows |
| DeconWinConfig.BandwidthDependsOnlyOn | drivers/video/exynos/decon_7580/decon_core.c:2317-2321 | the sum depends only on each window's state, dst and format |
| DeconWinConfig.BandwidthStep | drivers/video/exynos/decon_7580/decon_core.c:2319-2321 | one iteration adds exactly that window's bandwidth |
| DeconWinConfig.BufferCount | drivers/video/exynos/decon_7580/decon_core.c:2322 | num_of_window never exceeds the windows scanned |
| DeconWinConfig.BufferCountDependsOnlyOnState | drivers/video/exynos/decon_7580/decon_core.c:2317-2322 | num_of_window depends only on the states |
| DeconWinConfig.FinishedWincon | drivers/video/exynos/decon_7580/decon_core.c:2303-2313 | ENWIN iff enabled, BURSTLEN_16WORD always, other bits kept |
| DeconWinConfig.FinishWindow | drivers/video/exynos/decon_7580/decon_core.c:2303-2315 | the window's WINCON word is finished and its colour map written |
| DeconWinConfig.SwitchStaged | drivers/video/exynos/decon_7580/decon_core.c:2274-2315 | a finished window is staged as its normalised state demands |
| DeconWinConfig.StageSwitch | drivers/video/exynos/decon_7580/decon_core.c:2261-2302 | the switch never writes other windows' requests or WINCON words and keeps dst and format; on success the enable flag and colour map are those its normalised state demands and the window's words become StagedWords |
| DeconWinConfig.StageOne | drivers/video/exynos/decon_7580/decon_core.c:2255-2323 | one iteration: on success the window is staged, its words become StagedWords, the bandwidth grows by its u32 share and num_of_window by one for a buffer window |
| DeconWinConfig.FinishOne | drivers/video/exynos/decon_7580/decon_core.c:2303-2323 | after a successful switch the window is staged as its normalised state demands, the bandwidth grows by its u32 estimate and num_of_window by one for a buffer window; other windows' WINCON and map words are kept |
| DeconWinConfig.StageNext | drivers/video/exynos/decon_7580/decon_core.c:2254-2324 | one iteration keeps the loop invariant: the windows staged so far, their words, and the account of errors, screen infos and release totals |
| DeconWinConfig.StagingStep | drivers/video/exynos/decon_7580/decon_core.c:2254-2324 | the loop invariant, the bandwidth sum, the window count and the staged prefix of words each grow by one window |
| DeconWinConfig.AccountingStep | drivers/video/exynos/decon_7580/decon_core.c:2254-2324 | the account of errors, screen infos and release totals of windows 0..i-1 extends to window i |
| DeconWinConfig.StagedWordsKept | drivers/video/exynos/decon_7580/decon_core.c:2254-2324 | a later window's turn leaves the words staged for the earlier windows as they were |
| DeconWinConfig.StagingLoop | drivers/video/exynos/decon_7580/decon_core.c:2254-2324 | the loop stops at the first error and otherwise runs over all windows; every window before the stop is staged over the words it started from, and the screen infos and release totals are those of the windows it ran over |
| DeconWinConfig.StageWindows | drivers/video/exynos/decon_7580/decon_core.c:2254-2324 | geometry and formats are never changed; on success every window is staged as its normalised request demands (AllStaged against the submitted requests), its words are StagedWords over the starting ones, bw is the u32 bandwidth sum and num_of_window counts the buffer windows; the screen infos and release totals follow the account of the windows it ran over |
| DeconSubmit.SaveScreenInfo | drivers/video/exynos/decon_7580/decon_core.c:2241-2246 | the saved copy of every window's screen info becomes its current screen info, which is unchanged |
| DeconSubmit.RestoreScreenInfo | drivers/video/exynos/decon_7580/decon_core.c:2334-2337 | every window's screen info becomes its saved copy, which is unchanged |
| DeconSubmit.CopyConfigs | drivers/video/exynos/decon_7580/decon_core.c:2326-2328 | the snapshot holds a copy of the window requests |
| DeconSubmit.MappedCountAppend | drivers/video/exynos/decon_7580/decon_core.c:2334-2344 | the release counts add up over concatenated rows |
| DeconSubmit.FreeRow | drivers/video/exynos/decon_7580/decon_core.c:2338-2340 | the first n records of the row are freed; release counts grow by what they held |
| DeconSubmit.FreeNext | drivers/video/exynos/decon_7580/decon_core.c:2336-2341 | one window of the undo loop keeps its invariant |
| DeconSubmit.FreeLoop | drivers/video/exynos/decon_7580/decon_core.c:2336-2341 | every window's imported planes are freed and released once |
| DeconSubmit.FreeStagedBuffers | drivers/video/exynos/decon_7580/decon_core.c:2334-2344 | undoing a failed submission frees exactly the imported planes of every window |
| DeconSubmit.UndoSubmission | drivers/video/exynos/decon_7580/decon_core.c:2333-2344 | undoing a rejected submission restores every window's saved screen info, frees the first plane records of every window of the snapshot, and leaves the requests alone: the result is RejectionUndone, with the failing window's own releases and the freed planes counted |
| DeconSubmit.RejectionTotals | drivers/video/exynos/decon_7580/decon_core.c:2333-2344 | the loop's account of a failing window plus the planes freed by the undo is the whole rejection (RejectionUndone) |
| DeconSubmit.RowsOfWords | drivers/video/exynos/decon_7580/decon_core.c:2336-2341 | the plane records the undo frees are those the snapshot's words hold |
| DeconWinConfig.AllStagedComposed | drivers/video/exynos/decon_7580/decon_core.c:2303-2315 | in a staged snapshot each WINCON word carries BURSTLEN, and ENWIN exactly for enabled windows |
| DeconSubmit.PrepareSubmission | drivers/video/exynos/decon_7580/decon_core.c:2241-2252 | the saved screen info becomes the current one; the requests become PreparedRequests: on a DSI panel the update slot calibrated and the windows clipped into it, otherwise unchanged; the window-update bookkeeping of device and snapshot follows PreparedBook; every window keeps its format |
| DeconSubmit.BuildSnapshot | drivers/video/exynos/decon_7580/decon_core.c:2254-2331 | geometry and formats kept; on success every window is staged against the submitted requests (AllStaged) and the snapshot (Snapshot) holds the copied requests, the u32 bandwidth, the window count, the composed WINCON and map words and every window's words staged over the previous ones; on failure the words of the windows before the failing one; the screen infos and release totals follow the loop's account; the saved screen info and the window-update bookkeeping are kept |
| DeconSubmit.RecordSubmission | drivers/video/exynos/decon_7580/decon_core.c:2326-2331 | the snapshot holds a copy of the requests and the bandwidth |
| DeconSubmit.StageSubmission | drivers/video/exynos/decon_7580/decon_core.c:2241-2344 | over the requests as the window-update step prepared them: geometry kept and the bookkeeping of PreparedBook; on success every window staged (AllStaged), the Snapshot with words staged over the starting ones, and the screen infos as staged with no buffer released; on failure the screen infos as before and the release totals of the failing window and of the freed snapshot (RejectionUndone) |
| DeconSubmit.AllocSnapshot | drivers/video/exynos/decon_7580/decon_core.c:2234-2239 | a fresh, valid snapshot for max_win windows, empty and zero in every word |
| DeconSubmit.SnapshotDisabledWindow | drivers/video/exynos/decon_7580/decon_core.c:2234-2324 | in an accepted submission's snapshot a DISABLED window keeps every word zero |
| DeconSubmit.SnapshotColorWindow | drivers/video/exynos/decon_7580/decon_core.c:2277-2284 | in an accepted submission's snapshot a COLOR window holds its position, the alpha and blend words of decon_set_alpha_blending at transp 0, and zero buffer, source and protection words |
| DeconSubmit.SnapshotBufferWindow | drivers/video/exynos/decon_7580/decon_core.c:1678-1702 | in an accepted submission's snapshot a staged BUFFER window holds its position, its alpha and blend words, the imported plane records with their offsets, the start of its first plane, its source words and its protection flag |
| DeconSubmit.StageFreshSnapshot | drivers/video/exynos/decon_7580/decon_core.c:2234-2344 | a freshly allocated snapshot staged over all-zero words: on success AllStaged against the prepared requests, the Snapshot and the staged screen infos; on failure RejectionUndone; geometry and window-update bookkeeping as StageSubmission states |
| DeconSubmit.Enqueue | drivers/video/exynos/decon_7580/decon_core.c:2345-2355 | on a DSI success the release fence is the fd on the next timeline point and the snapshot goes last in the queue; otherwise no fence and no change to timeline or queue; what staging established about requests, windows and snapshot still holds |
| DeconSubmit.SubmitSnapshot | drivers/video/exynos/decon_7580/decon_core.c:2234-2355 | after allocation, over the prepared requests: a failure gives no fence, leaves timeline and queue alone and is RejectionUndone; a success leaves the screen infos as staged and releases nothing; a DSI success queues a fresh snapshot last with a fence on the next point, staged against the prepared requests (AllStaged, Snapshot, PreparedBook); another output queues nothing |
| DeconSubmit.SetWinConfig | drivers/video/exynos/decon_7580/decon_core.c:2189-2362 | no fd: -EINVAL and nothing changes; bypass: a fence on the next timeline point while the timeline advances by one, with requests, screen infos, buffers, prev_bw and update bookkeeping as they were; no memory: -ENOMEM with the same; otherwise over the prepared requests: a failure gives no fence and is RejectionUndone, a success leaves the staged screen infos, and a DSI success queues a snapshot staged against the prepared requests last, with a fence on the next point; the timeline stays balanced |
| DeconCommit.ClaimedIff | drivers/video/exynos/decon_7580/decon_core.c:1890-1905 | a channel is in the bitmap iff an earlier fetching window uses it |
| DeconCommit.ChmapWord | drivers/video/exynos/decon_7580/decon_core.c:1897-1904 | only ENWIN can be cleared |
| DeconCommit.ChmapValidated | drivers/video/exynos/decon_7580/decon_core.c:1890-1905 | one WINCON word per window |
| DeconCommit.ChmapNoConflict | drivers/video/exynos/decon_7580/decon_core.c:1890-1905 | afterwards no two fetching windows share an idma channel |
| DeconCommit.ChmapFirstKeeps | drivers/video/exynos/decon_7580/decon_core.c:1890-1905 | a fetching window keeps ENWIN iff no earlier fetching window claimed its channel |
| DeconCommit.ChmapKeepsOthers | drivers/video/exynos/decon_7580/decon_core.c:1890-1905 | windows that do not fetch keep their word |
| DeconCommit.ChmapValidate | drivers/video/exynos/decon_7580/decon_core.c:1890-1905 | the loop over windows computes ChmapValidated in place |
| DeconCommit.QosStep | drivers/video/exynos/decon_7580/decon_core.c:1995-2013 | prev_bw becomes the request or stays; before the commit it only rises, after it only falls |
| DeconCommit.QosDirection | drivers/video/exynos/decon_7580/decon_core.c:2003-2010 | a request is issued before the commit iff it raises and after iff it lowers; an equal request is never issued |
| DeconCommit.QosPairSettles | drivers/video/exynos/decon_7580/decon_core.c:2102-2103 | the before/after pair always ends at the request, and issues it at most once |
| DeconCommit.SetQos | drivers/video/exynos/decon_7580/decon_core.c:1995-2013 | prev_bw follows QosStep and the request is recorded iff issued; prev_bw changes exactly when a request is issued |
| DeconCommit.ActivateVsync | drivers/video/exynos/decon_7580/decon_core.c:1186-1208 | the reference count goes up by one; the interrupt is on iff the count is positive (video mode) |
| DeconCommit.DeactivateVsync | drivers/video/exynos/decon_7580/decon_core.c:1210-1233 | the reference count goes down by one, keeping the same coupling |
| DeconCommit.SetVsyncInt | drivers/video/exynos/decon_7580/decon_core.c:1295-1310 | returns 0, records the request and takes or drops one reference only on a change, so the count less the active reference is unchanged |
| DeconCommit.SetProtectedContent | drivers/video/exynos/decon_7580/decon_core.c:1442-1486 | protection is wanted iff enabled with a non-empty bitmask; the secure call is made only when that differs from the previous status |
| DeconCommit.FenceWaits | drivers/video/exynos/decon_7580/decon_core.c:2093-2100 | only fence waits, for windows below max_win |
| DeconCommit.FenceWaitsIff | drivers/video/exynos/decon_7580/decon_core.c:2093-2100 | window i's fence is waited on iff its first plane has one |
| DeconCommit.CollectOld | drivers/video/exynos/decon_7580/decon_core.c:2089-2100 | the old buffers are the installed ones; the waits are FenceWaits |
| DeconCommit.ProtectedChannelsEmpty | drivers/video/exynos/decon_7580/decon_core.c:1952-1953 | the protection bitmask is empty iff no window is protected |
| DeconCommit.InstalledRow | drivers/video/exynos/decon_7580/decon_core.c:1954-1962 | the installed row keeps the format's planes and zeroes the rest |
| DeconCommit.InstalledRows | drivers/video/exynos/decon_7580/decon_core.c:1954-1962 | one installed row per window |
| DeconCommit.InstallRow | drivers/video/exynos/decon_7580/decon_core.c:1954-1962 | the copy loop computes InstalledRow |
| DeconCommit.ProgramWindows | drivers/video/exynos/decon_7580/decon_core.c:1949-1965 | the bitmask and the device's buffer rows are those of the snapshot |
| DeconCommit.CommitRegs | drivers/video/exynos/decon_7580/decon_core.c:1920-1982 | channel conflicts removed, snapshot buffers installed, protection set from the bitmask |
| DeconCommit.ReleaseRows | drivers/video/exynos/decon_7580/decon_core.c:2155-2158 | the old buffers are each released once |
| DeconCommit.ZeroRecordsUnmapped | drivers/video/exynos/decon_7580/decon_core.c:1954-1962 | zero records cost no release |
| DeconCommit.InstalledRowCounts | drivers/video/exynos/decon_7580/decon_core.c:1954-1962 | an installed row releases what the window imported |
| DeconCommit.InstalledReleaseMatchesImport | drivers/video/exynos/decon_7580/decon_core.c:2155-2158 | releasing the installed rows later releases exactly the planes imported for them |
| DeconCommit.CommitOrder | drivers/video/exynos/decon_7580/decon_core.c:2070-2164 | the commit trace is fence waits, a QoS raise, the program step, the release, the timeline signal and a QoS lowering, in that order |
| DeconCommit.StartCommit | drivers/video/exynos/decon_7580/decon_core.c:2070-2103 | waits and a raising QoS call, then the register commit |
| DeconCommit.FinishCommit | drivers/video/exynos/decon_7580/decon_core.c:2155-2163 | release of the old buffers, timeline +1, a lowering QoS call |
| DeconCommit.UpdateRegs | drivers/video/exynos/decon_7580/decon_core.c:2070-2164 | the whole commit: the ordered trace, prev_bw equal to the snapshot bandwidth, the request issued once iff it changed, the new buffers installed, the old ones released, timeline +1 |
| DeconCommit.Installed | drivers/video/exynos/decon_7580/decon_core.c:1954-1962 | the rows a snapshot installs |
| DeconCommit.CommitEntry | drivers/video/exynos/decon_7580/decon_core.c:2181-2185 | one queued snapshot is committed: the timeline advances by one, the windows hold its records, and every fence and mapping the windows held before is put and released |
| DeconCommit.CommitNext | drivers/video/exynos/decon_7580/decon_core.c:2181-2185 | one iteration of the drain keeps its invariant: the windows hold what this snapshot installs and the totals gain what they held before |
| DeconCommit.CommitAll | drivers/video/exynos/decon_7580/decon_core.c:2181-2186 | the timeline advances once per snapshot, the state is that of the last one, and the release and fence-put totals grow by exactly the records each commit displaced (Released) |
| DeconCommit.DrainQueue | drivers/video/exynos/decon_7580/decon_core.c:2166-2187 | the queue is committed in submission order and emptied; the timeline stays balanced and ends one point behind the last fence handed out, which waits for the next commit or bypass; every snapshot releases the buffers of the one before it (the first, those the windows held) |
| DeconMisc.PixclockDivisor | drivers/video/exynos/decon_7580/decon_core.c:2825-2838 | the divisor is a u32 |
| DeconMisc.MissingPixclock | drivers/video/exynos/decon_7580/decon_core.c:2825-2838 | the period is a u32 and, when it fits, p*d <= 10^12 < (p+1)*d |
| DeconMisc.MissingRefreshIsSixtyHertz | drivers/video/exynos/decon_7580/decon_core.c:2825-2838 | a mode without a refresh rate is clocked as 60 Hz |
| DeconMisc.PixclockExample | drivers/video/exynos/decon_7580/decon_core.c:2825-2838 | 1280x720 gives 18084 ps |
| DeconMisc.GammaLutRegSet | drivers/video/exynos/decon_7580/decon_core.c:3235-3260 | returns 0 after 195 writes, the k-th loading entry k%65 of channel k/65 into its word and half |
| DeconMisc.GammaWritesDistinct | drivers/video/exynos/decon_7580/decon_core.c:3235-3260 | with channels more than 33 words apart no register field is written twice |
| Kl5kusb105.Le16Bytes | drivers/usb/serial/kl5kusb105.c:390 | two bytes |
| Kl5kusb105.GetLe16 | drivers/usb/serial/kl5kusb105.c:412 | a 16-bit value |
| Kl5kusb105.Le16RoundTrip | drivers/usb/serial/kl5kusb105.c:390-412 | reading the header back gives the count modulo 2^16 |
| Kl5kusb105.SerialPort.constructor | drivers/usb/serial/kl5kusb105.c:382-393 | a port with the given write FIFO |
| Kl5kusb105.EncodeFrame | drivers/usb/serial/kl5kusb105.c:382-393 | the payload behind a two-byte header |
| Kl5kusb105.FifoOut | drivers/usb/serial/kl5kusb105.c:388-389 | min(size, fifo) bytes move from the FIFO front to dest, the rest of dest untouched |
| Kl5kusb105.PrepareWriteBuffer | drivers/usb/serial/kl5kusb105.c:382-393 | returns count+2, count <= size; dest[0..1] is count little-endian, dest[2..2+count) the payload, the FIFO loses it; for count < 2^16 this is EncodeFrame |
| Kl5kusb105.ProcessReadUrb | drivers/usb/serial/kl5kusb105.c:397-420 | nothing for length 0 or <= 2; otherwise data[2..2+len) with len = min(LE16, actual_length-2), clamped iff the header claimed more |
| Kl5kusb105.FrameRoundTrip | drivers/usb/serial/kl5kusb105.c:382-420 | a frame of 1..65535 bytes read back whole delivers exactly its payload; an empty frame is refused |
| Kl5kusb105.TruncatedFrameDeliversReceived | drivers/usb/serial/kl5kusb105.c:412-418 | a frame cut short delivers the bytes that arrived |
| Kl5kusb105.Status2LineState | drivers/usb/serial/kl5kusb105.c:158-167 | DSR iff the DSR bit, CTS iff the CTS bit, nothing else |
| Kl5kusb105.StatusOtherBitsIgnored | drivers/usb/serial/kl5kusb105.c:158-167 | other status bits do not matter |
| Kl5kusb105.KlsiPrivate.constructor | drivers/usb/serial/kl5kusb105.c:231-237 | pktlen 5, 9600 baud, 8 data bits, unknown1 0, unknown2 1, no lines |
| Kl5kusb105.PortProbe | drivers/usb/serial/kl5kusb105.c:222-246 | -ENOMEM without memory, else 0 and a fresh record with the defaults |
| Kl5kusb105.Tty.constructor | drivers/usb/serial/kl5kusb105.c:422-430 | a tty with the given termios |
| Kl5kusb105.BaudCodeOf | drivers/usb/serial/kl5kusb105.c:463-495 | no code exactly for 0 |
| Kl5kusb105.BaudTable | drivers/usb/serial/kl5kusb105.c:463-495 | the eight supported rates map to their codes; any other non-zero rate to 9600; the code's rate is the rate re-encoded |
| Kl5kusb105.BaudCodesRoundTrip | drivers/usb/serial/kl5kusb105.c:463-495 | every code comes from its own rate |
| Kl5kusb105.ClearedFlags | drivers/usb/serial/kl5kusb105.c:537-577 | a parity or stop change clears PARENB, PARODD and CSTOPB; a flow change clears CRTSCTS; baud, size and IXON/IXOFF kept |
| Kl5kusb105.ClearedFlagsStable | drivers/usb/serial/kl5kusb105.c:537-577 | clearing again against the result changes nothing |
| Kl5kusb105.SetTermios | drivers/usb/serial/kl5kusb105.c:422-585 | no memory: nothing; baud 0 keeps the code, else BaudCodeOf; the CBAUD rate of the tty termios becomes the effective rate, also when a change to CS5/CS6 then returns unsent; otherwise databits for a size change, flags cleared and the settings sent |
| Kl5kusb105.SetTermiosSettles | drivers/usb/serial/kl5kusb105.c:510-577 | a second call with the result as both terms changes nothing |
| Kl5kusb105.Tiocmset | drivers/usb/serial/kl5kusb105.c:629-654 | always -EINVAL |

## Left out

- I/O and hardware. Register writes, waits for the line counter, frame-done and vsync waits, LPD exit and ION/dma-buf calls are all outside the model. The ION import and the fence lookup are parameters (`ImportOutcome`, an optional fence), and the DSIM subdevice call is a flag.
- Concurrency. The kthread worker, the list and vsync locks and the interrupt handlers are not modelled. The queue of snapshots is a sequence drained in order.
- Power, clocks, enable/disable/blank, probe/remove, the LPD notifier and the debugfs writers are not part of this model. The exception is the gamma register walk.
- `decon_set_win_config` descriptor handling. The fd/overlay juggling (2209-2220) and the sync-point files are not modelled: the fence is the fd returned. On a non-DSI output the source neither installs the fd nor frees the snapshot; the model returns no fence and leaves the queue alone.
- `UpdateRegs` does not run the DSI window-update step of `__decon_update_regs` (1944-1947: `decon_reg_set_win_update_config` at 1908-1917, with the partial command of 777-814). A failed partial or porch command there calls `decon_win_update_rect_reset`; in the model a commit never resets `update_win` this way. The step's register writes are hardware. `__decon_update_regs` is otherwise modelled only for its state (channel map, protection, installed buffers).
- `DeconSubmit.SetWinConfig`: the -ENOMEM path of kzalloc is a parameter.
- `DeconCommit.SetQos`: the QoS values are unbounded integers, not u64.
- u32 wrap-around is modelled for bandwidth, pixclock, the plane offset and the line length. Other geometry is unbounded `int`.
- `DeconGeometry.XAlignedIff`: stated for 0 <= x and x+w < 2^32. The u32 sum is not modelled beyond that.
- Platform constants are parameters or const fields:
  - max_win, xres/yres, MIN_BLK_MODE width and height, DPU_GAMMA_OFFSET, max_win_bw;
  - the KL5KUSB105A_DSR/CTS masks, whose header is not part of this model.
- DECON_WIN_UPDATE_IDX is taken as max_win, the last slot of the request array.
- `DeconCommit.ChmapValidate`: idma_type is taken to fit the 16-bit bitmap.
- The enum order of pixel formats is an explicit assumption, `IsPackedRgb`.
- The per-plane `dma_buf_data` of every window is the device field `windowBufs`, one row per window.
- A window's `fb_info` holds only its `var` and `fix` screen info. Its other fields (ops, flags, the `par` back pointer) are not modelled; distinct windows are required to have distinct framebuffers.
- `DeconState.DeconWindow.constructor`: the window's fps is a constructor parameter. decon_core.c never assigns win->fps; it only reads it in decon_set_win_config (2321), so within this file the bandwidth estimate of every window is 0. Whatever sets fps elsewhere is not part of this model.
- `DeconState.DeconWindow.constructor`: decon_acquire_windows fills fbinfo->var from the LCD mode through fb_videomode_to_var and decon_check_var, which are not part of this model; the current screen info is a parameter.
- `DeconStaging.BufferStage`: decon_set_win_buffer also writes each plane's dma address into win_config->vpp_parm.addr (1636). The request has no vpp_parm field here, so that copy, and its copy into the snapshot, are not modelled.
- `DeconStaging.BufferStage`: with no plane imported (plane count -1, a format decon_set_win_config disables before this call), smem_start and the buffer start come from the uninitialised dma_buf_data[0] (1662). The model uses 0 there.
- The protection bitmask is the set of channels of protected windows. Protection values other than 0 and 1 are not distinguished.
- Blocking mode copies the chosen block into `win_config[0].block_area`, index 0 regardless of the window, as the code does.
- The transp-length and padding tables have no entries for ARGB/ABGR/XRGB/XBGR, which gives those formats 24 bits per pixel. The model follows the code.
- `DeconMisc.MissingPixclock`: do_div by a zero divisor traps. A non-zero divisor is a requires.
- `DeconCommit.DeactivateVsync`: the WARN_ON on a negative count is not modelled. The caller keeps the count consistent.
- `Kl5kusb105.PrepareWriteBuffer`: dest is taken to hold size+2 bytes, because the generic serial caller is not part of this model. The "at most 62 bytes" of the comment is not assumed: a count of 2^16 or more wraps in the header, and the frame round trip is stated below that.
- `Kl5kusb105.SetTermios`: the baud rate from tty_get_baud_rate is a parameter. The termios lock, the saved termios copy and the USB message to the device are not modelled; the settings it would send are the result.
- klsi_105_open, klsi_105_close, klsi_105_get_line_state, klsi_105_chg_port_settings, klsi_105_tiocmget and port_remove are USB control messages and generic-serial calls. They are outside the model, so `line_state` is only ever the probe default.
