# darktable output colour module and histogram widget, modelled in Dafny

This project models two pieces of darktable's sequential logic and proves
what they promise.

**The output colour module (`src/iop/colorout.c`).**

- `lerp_lut`, the NaN-safe lookup into a tone curve of `LUT_SAMPLES`
  samples.
- `process`, which converts Lab pixels to the output colour space on one
  of two paths:
  - the fast path multiplies by a 3x3 matrix and applies one tone curve per
    channel, pixel by pixel, at a stride of `ch` floats;
  - the fallback packs each row into dense Lab triples, hands it to the
    colour-management transform of slot 0, and unpacks the result.
- `commit_params`, which rebuilds the module's plan for a pipe:
  1. it tears down the previous profile and transforms;
  2. it selects a profile name and intent, with the export overrides;
  3. it resolves the name to a built-in profile or a file;
  4. it derives the matrix, or else builds one transform per worker thread;
  5. it replaces a plan that is still unusable by sRGB, after a warning.
- `init_pipe` and `init`, which set up the initial state and the default
  parameters.

**The histogram side panel (`src/libs/histogram.c`).**

- The button layout set by the configure callback.
- The hit-test and hook calls of the motion callback.
- The mode button, the channel toggles and drag start of the press
  callback.
- The release, leave and scroll callbacks.
- The in-place channel mask the draw callback applies to the waveform's
  BGRA buffer.

**How the model is built.**

- Buffers the source updates in place are Dafny arrays: the pixel buffers,
  the per-thread transform slots and the waveform bytes.
- Records the callbacks update field by field are classes. These are
  `ColorOut.Piece`, `Histogram.HistogramLib` and `Histogram.Develop`.
- Each method is proved against a specification function or predicate on
  values. The properties are proved as lemmas about those functions.
- External libraries are oracles: function-typed fields of `ColorOut.Env`,
  or parameters. Their outputs are uninterpreted. These are:
  - the colour-management library's profile constructors, matrix
    derivation, transform creation and transform application;
  - the Lab-to-XYZ conversion;
  - the profile lookup on disk;
  - darktable's exposure hooks.
- Floating-point values are reals. Where the source's behaviour on NaN
  and the infinities matters, values are an extended `Float` with the IEEE
  rules: the argument of `lerp_lut`, and the pointer-to-allocation
  quotients of the histogram.

Files:

- `wrappers.dfy`: the `Option` type.
- `arith.dfy`: a product on naturals for index arithmetic.
- `lut.dfy`: `lerp_lut`.
- `matrix.dfy`: the 3x3 matrix product.
- `colorout.dfy`: `commit_params`, `init_pipe` and `init`.
- `process.dfy`: `process`.
- `waveform_mask.dfy`: the waveform mask.
- `histogram.dfy`: the histogram callbacks.

A profile file that cannot be opened is replaced by sRGB silently
(src/iop/colorout.c:301). The only warning of a commit is logged by the
final check (src/iop/colorout.c:346-348), which fires only when neither a
matrix nor a transform is available. `ColorOut.MissingFileMeansSRgb` states
this behaviour.

The final check overwrites every transform slot with sRGB's transforms
(src/iop/colorout.c:355) without deleting what the primary attempt created
there (src/iop/colorout.c:306). The model reproduces this.
`ColorOut.ReplacementDropsLaterSlots` states it: when slot 0 fails but slot
1 builds, and sRGB is not derivable either, slot 1's handle is created and
never deleted.

## Model

| member | source | states |
|---|---|---|
| Lut.ClampIndex | src/iop/colorout.c:143 | for every argument, finite, NaN or infinite, the clamped index is between 0 and LUT_SAMPLES-2, so both samples read are inside the table |
| Lut.ClampIndexCases | src/iop/colorout.c:143 | NaN and -inf give index 0; +inf gives LUT_SAMPLES-2; a finite ft gives its floor inside the table, 0 at or below zero, and LUT_SAMPLES-2 at or above the last segment |
| Lut.ClampBelowTable | src/iop/colorout.c:143 | a finite ft <= 0 gives index 0 |
| Lut.ClampInTable | src/iop/colorout.c:143 | a finite ft with 0 < ft < LUT_SAMPLES-2 gives index floor(ft) |
| Lut.ClampAboveTable | src/iop/colorout.c:143 | a finite ft >= LUT_SAMPLES-2 gives index LUT_SAMPLES-2 |
| Lut.LerpFiniteIffFinite | src/iop/colorout.c:141-147 | every argument reads an in-bounds segment, and the result is finite exactly when the argument is |
| Lut.LerpNaN | src/iop/colorout.c:141-147 | a NaN argument reads index 0 and yields NaN |
| Lut.LerpInRange | src/iop/colorout.c:143-147 | inside the table, t = floor(ft) and 0 <= f < 1; the result is lut[t]*(1-f)+lut[t+1]*f and lies between the two samples |
| Lut.LerpLutFiniteBetween | src/iop/colorout.c:141-147 | the same bound on the real-valued lookup used by the pixel loop, with t = floor(v*LUT_SAMPLES) |
| Lut.LerpLut | src/iop/colorout.c:138-148 | `lerp_lut`: the result is finite exactly when the argument is, and a NaN argument gives NaN |
| Lut.LerpScaled | src/iop/colorout.c:143-147 | after the scaling, a finite ft reads the samples at the clamped index t and t+1 and blends them by the unclamped ft - t; any other ft gives a value that is not finite |
| Lut.LerpLutFinite | src/iop/colorout.c:141-147 | on a finite argument the result is the point at ft of the line through the two samples at the clamped index, lut[t]+(lut[t+1]-lut[t])*(ft-t) |
| Lut.LerpLutFiniteAgrees | src/iop/colorout.c:138-148 | on a finite argument, the real-valued lookup equals the extended-float lookup |
| Lut.LerpBelowTable | src/iop/colorout.c:143-147 | for ft <= 0 only the index is clamped: f = ft, and the result is the first segment extended linearly, lut[0]+(lut[1]-lut[0])*ft |
| Lut.FirstSegmentLine | src/iop/colorout.c:143-147 | whenever the index clamps to 0, the result is the line through the first two samples |
| Lut.LerpAboveTable | src/iop/colorout.c:143-147 | for ft >= LUT_SAMPLES-2, t = LUT_SAMPLES-2 and f = ft-(LUT_SAMPLES-2) is unclamped, so the last segment is extended linearly |
| Lut.LerpAtOne | src/iop/colorout.c:141-147 | at v = 1 the fraction is 2, and the result extrapolates one spacing past the last sample |
| Lut.Blend | src/iop/colorout.c:147 | the blend is finite exactly when the fraction is, and is then l1*(1-f)+l2*f |
| ColorMatrix.MatVec | src/iop/colorout.c:202-206 | each entry of the product is the left-to-right accumulation of its row, the sum the inner loop forms |
| ColorMatrix.MultiplyMatrix | src/iop/colorout.c:202-206 | the accumulation loop computes rgb[i] = sum over j of cmatrix[3i+j]*XYZ[j], for each i < 3 |
| ColorMatrix.MatVecLinear | src/iop/colorout.c:202-206 | the product is linear in the XYZ vector |
| ColorOutProcess.ConvertPixel | src/iop/colorout.c:195-207 | pixel k's channels 0 to 2 become the lookup of the matrix product of its own Lab input, and no other entry of out changes |
| ColorOutProcess.ProcessMatrix | src/iop/colorout.c:193-209 | for every k < width*height, channels 0 to 2 of pixel k are the fast-path colour of in[ch*k..ch*k+2], channels >= 3 are untouched, and so is everything past the image |
| ColorOutProcess.MatrixStep | src/iop/colorout.c:193-209 | writing pixel k after a correct prefix of k pixels gives a correct prefix of k+1 pixels, since the pixel regions do not overlap |
| ColorOutProcess.FastPixel | src/iop/colorout.c:198-207 | output channel c of a pixel is `lerp_lut` of curve c (the extended-float lookup) applied to channel c of the matrix product of the pixel's XYZ |
| ColorOutProcess.FastPixelBetweenSamples | src/iop/colorout.c:202-207 | a channel whose scaled matrix output lies inside the table is bounded by the two curve samples around it |
| ColorOutProcess.PackLab | src/iop/colorout.c:226-232 | the packed row holds, at 3l+c, channel c of column l of the row starting at m |
| ColorOutProcess.PackRow | src/iop/colorout.c:226-232 | the local Lab row has 3*width floats, with Lab[3l+c] = in[m+ch*l+c] for l < width and c < 3 |
| ColorOutProcess.UnpackRow | src/iop/colorout.c:237-243 | out[m+ch*l+c] = rgb[3l+c] for l < width and c < 3; every other entry of out keeps its value |
| ColorOutProcess.UnpackStep | src/iop/colorout.c:237-243 | unpacking column l extends a correct prefix of l columns to l+1 columns |
| ColorOutProcess.FallbackRow | src/iop/colorout.c:220-243 | row k, starting at m = k*width*ch, fits in the image and becomes the transform of its own packed Lab row; nothing else changes |
| ColorOutProcess.ProcessFallback | src/iop/colorout.c:211-244 | every row's channels 0 to 2 are the transform of that row's packed input, channels >= 3 are untouched, and so is everything past the image |
| ColorOutProcess.FallbackStep | src/iop/colorout.c:220-243 | finishing row k after a correct prefix of k rows gives a correct prefix of k+1 rows |
| ColorOutProcess.RowStartIsProduct | src/iop/colorout.c:225 | the row offset m = k*(width*ch) is the start of row k |
| ColorOutProcess.RowsFit | src/iop/colorout.c:214-225 | every row of width*ch floats ends before the next begins, and within the image |
| ColorOutProcess.Process | src/iop/colorout.c:181-246 | the fast-path result when cmatrix[0] is not the sentinel, and the fallback result using the transform of slot 0 otherwise |
| ColorOut.DefaultParams | src/iop/colorout.c:434-436 | the defaults are "sRGB" and "X profile", both with the perceptual intent |
| ColorOut.Teardown | src/iop/colorout.c:259-268 | the output profile is released and cleared, every slot is null, cmatrix[0] is the sentinel and process_cl_ready is 1; the rest of the matrix and the curves are kept |
| ColorOut.Select | src/iop/colorout.c:270-274 | an export pipe uses iccprofile and intent. A configured profile that is neither null nor "image" replaces iccprofile, and a configured intent >= 0 replaces intent; nothing else changes them. Other pipes use displayprofile and displayintent and change nothing |
| ColorOut.Resolve | src/iop/colorout.c:275-301 | the four built-in names select their profiles; "X profile" selects the display profile; any other name is a file lookup; a profile that did not open becomes sRGB |
| ColorOut.Requested | src/iop/colorout.c:270-337 | a display pipe resolves displayprofile at displayintent; an export pipe resolves the iccprofile and intent as rewritten by the overrides |
| ColorOut.TryDerive | src/iop/colorout.c:302-307 | a successful derivation installs its matrix and curves and leaves the slots, the flag and the effects alone; a failed one sets the sentinel, clears process_cl_ready, keeps the curves and fills slot t with the transform created for t, one creation each |
| ColorOut.Primary | src/iop/colorout.c:259-344 | the slot count is kept, the output profile is the resolved one, the teardown's effects come first, and a derivable profile leaves process_cl_ready set and every slot null |
| ColorOut.FinalCheck | src/iop/colorout.c:346-357 | a usable plan is left alone with no effect; an unusable one becomes the sRGB derivation's plan, after a warning followed by the release of the previous output profile |
| ColorOut.Commit | src/iop/colorout.c:248-361 | a commit keeps the slot count and leaves the parameters as the selection rewrote them; the final plan is unusable only if the primary plan was and sRGB is not derivable or collides with the sentinel |
| ColorOut.NoDeletionAfterTeardown | src/iop/colorout.c:269-357 | after the teardown a commit deletes no transform |
| ColorOut.ReplacementDropsLaterSlots | src/iop/colorout.c:306-355 | when slot 0 fails, slot 1 builds and sRGB is not derivable, slot 1's handle is created, replaced by sRGB's and never deleted |
| ColorOut.Creations | src/iop/colorout.c:306 | a failed derivation creates exactly one transform per thread slot |
| ColorOut.Fresh | src/iop/colorout.c:370-372 | init_pipe starts with no output profile and a null transform in each of num_threads slots |
| ColorOut.DeleteAllExact | src/iop/colorout.c:262-266 | the teardown deletes each non-null transform exactly once and nothing else |
| ColorOut.DeleteTransforms | src/iop/colorout.c:262-266 | the loop over slots deletes every held transform in slot order and nulls all slots |
| ColorOut.CreateTransforms | src/iop/colorout.c:306 | the loop over slots stores the transform created for each slot, and records one creation per slot |
| ColorOut.CommitShape | src/iop/colorout.c:248-361 | a commit keeps the number of slots, and its effects are the teardown's, then the primary attempt's, then the final check's |
| ColorOut.CommitReleasesPreviousPlan | src/iop/colorout.c:259-268 | before resolving anything, a commit releases the previous output profile first, and deletes every transform the previous plan held; those are its only first effects |
| ColorOut.CommitMatrixPath | src/iop/colorout.c:302-307 | a derivable profile gives its matrix and curves, null slots, process_cl_ready = 1, the fast path, and no effect beyond the teardown |
| ColorOut.CommitTransformPath | src/iop/colorout.c:302-307 | on a failed derivation, with slot 0 built, the sentinel is kept, process_cl_ready = 0, exactly one creation happens per slot, and no warning is logged |
| ColorOut.CommitWarnsOnce | src/iop/colorout.c:346-348 | the warning is logged at most once, and exactly when the primary attempt left neither a matrix nor a slot-0 transform |
| ColorOut.PrimaryWarnsNot | src/iop/colorout.c:259-344 | the teardown and the primary attempt log no warning |
| ColorOut.FinalCheckWarns | src/iop/colorout.c:346-357 | the final check warns once exactly when it replaces an unusable plan |
| ColorOut.PrimaryUnusableIff | src/iop/colorout.c:302-346 | the primary plan is unusable exactly when derivation failed and slot 0 did not build, or the derived matrix starts with the sentinel value |
| ColorOut.CommitReplacementUsesIntent | src/iop/colorout.c:349-356 | the replacement is sRGB, and its transforms are created at the parameters' intent even on a display pipe |
| ColorOut.CommitClReadyIff | src/iop/colorout.c:268 | process_cl_ready is 1 at exit exactly when no derivation attempt of the commit failed (the flag is cleared at lines 305, 341 and 354) |
| ColorOut.CommitEndsUsable | src/iop/colorout.c:346-357 | when sRGB is derivable, every commit ends with a matrix or a slot-0 transform |
| ColorOut.MissingFileMeansSRgb | src/iop/colorout.c:294-301 | a profile file that does not open gives exactly sRGB's plan, with no warning when sRGB is derivable |
| ColorOut.CommitIdempotent | src/iop/colorout.c:248-361 | committing again with the parameters a commit left gives the same plan and parameters, after releasing every transform the first plan held |
| ColorOut.CommitPlanIdempotent | src/iop/colorout.c:248-361 | a commit's plan is a fixed point of committing its own parameters again |
| ColorOut.SelectIdempotent | src/iop/colorout.c:270-274 | applying the export overrides a second time changes nothing |
| ColorOut.InitPipeDefaults | src/iop/colorout.c:363-376 | the first commit of a fresh instance releases nothing; with the defaults on an unconfigured export pipe it takes sRGB's matrix path |
| ColorOut.NoDeletesWhenEmpty | src/iop/colorout.c:262-266 | slots that are all null cause no deletion |
| ColorOut.Piece.constructor | src/iop/colorout.c:368-372 | a fresh piece: no output profile and num_threads null slots |
| ColorOut.Piece.ReleasePlan | src/iop/colorout.c:259-268 | updates the piece in place to the teardown state, with the teardown's effects |
| ColorOut.Piece.Derive | src/iop/colorout.c:302-307 | installs the derived matrix and curves, or sets the sentinel, clears process_cl_ready and fills every slot |
| ColorOut.Piece.ReplaceUnusable | src/iop/colorout.c:346-357 | replaces an unusable plan in place by sRGB after a warning, and leaves a usable one alone |
| ColorOut.Piece.CommitParams | src/iop/colorout.c:248-361 | the piece, the rewritten parameters and the effects are exactly those of the commit specification on the previous state |
| ColorOut.InitPipe | src/iop/colorout.c:363-376 | a new piece whose state is that of committing the default parameters to a fresh instance |
| WaveformMask.ApplyChannelMask | src/libs/histogram.c:260-265 | for each channel k < 3 (blue, green, red) whose toggle is off, exactly the bytes y*stride+4x+k with y < height and x < width become 0; alpha, enabled channels, padding and the rest of the buffer keep their values |
| WaveformMask.ClearRow | src/libs/histogram.c:263-265 | one row's pass of channel k zeroes that channel's byte of each pixel of the row and nothing else |
| WaveformMask.MaskPixelBytes | src/libs/histogram.c:260-265 | in the loop's coordinates, byte k of pixel x of row y is 0 for a disabled colour channel and unchanged otherwise |
| WaveformMask.MaskKeepsPadding | src/libs/histogram.c:260-265 | the padding bytes between 4*width and stride are unchanged |
| WaveformMask.MaskDeterministic | src/libs/histogram.c:260-265 | the mask determines the whole resulting buffer |
| WaveformMask.MaskIdempotent | src/libs/histogram.c:260-265 | masking an already-masked buffer changes nothing |
| WaveformMask.AllEnabledIsIdentity | src/libs/histogram.c:260-265 | with all three channels enabled the buffer is unchanged |
| WaveformMask.Decompose | src/libs/histogram.c:263-265 | every index of the image is some byte of some row |
| WaveformMask.ByteInjective | src/libs/histogram.c:265 | distinct (row, byte) pairs address distinct bytes of the image |
| Histogram.InitialWidget | src/libs/histogram.c:562-567 | the record starts zeroed, not dragging, with no highlight and the three toggles from the configuration |
| Histogram.Trunc | src/libs/histogram.c:483-484 | storing a pointer coordinate in an int truncates towards zero |
| Histogram.Quotient | src/libs/histogram.c:363-364 | dividing by the allocation is exact for a non-zero size; for a zero size the result is NaN exactly when the coordinate is 0 |
| Histogram.ConfigureLayout | src/libs/histogram.c:164-172 | buttons are 6% of the width, 2% apart and 2% from the top; blue_x + button_w + button_spacing = width; x positions differ by button_w + button_spacing; mode_x < red_x < green_x < blue_x for width > 0 |
| Histogram.Configure | src/libs/histogram.c:164-172 | the configure callback sets the layout and no other field |
| Histogram.ButtonsApart | src/libs/histogram.c:164-172 | after configure with a non-negative width, each button ends no later than the next begins |
| Histogram.HitTest | src/libs/histogram.c:361-412 | outside the unit square there is no result; otherwise the result is one of the regions 1 to 6 |
| Histogram.HitTestFindsButton | src/libs/histogram.c:368-401 | over a configured widget, the hit-test reports a button exactly when the pointer is inside that button, so the precedence among buttons never matters |
| Histogram.HitTestRegions | src/libs/histogram.c:402-412 | off the buttons, the result is the black region exactly when posx < 0.2 outside the waveform or posy > 7/9 in it, and the exposure region otherwise |
| Histogram.OutsideIffOffWidget | src/libs/histogram.c:363-366 | for a non-empty allocation, the unit-square test is the test for the widget's rectangle |
| Histogram.EmptyAllocationNotOutside | src/libs/histogram.c:363-366 | for a zero-width allocation, a pointer at x = 0 gives NaN and is not treated as outside: the hit-test sets a highlight in 1 to 6 |
| Histogram.DragCalls | src/libs/histogram.c:344-357 | a drag motion makes at most one call: the exposure setter exactly over region 2, the black setter exactly over region 1 |
| Histogram.Motion | src/libs/histogram.c:328-430 | without hooks nothing happens; motion changes at most highlight; while dragging it changes nothing, otherwise it calls nothing and sets highlight to the hit-test's region, keeping the state when the pointer is outside |
| Histogram.NoHooksNoChange | src/libs/histogram.c:336-338 | without the exposure hooks, press and motion change nothing and call nothing (also lines 438-440) |
| Histogram.DragKeepsState | src/libs/histogram.c:342-358 | while dragging, motion changes no state, including highlight, and calls at most one setter: exposure over region 2, black over region 1 |
| Histogram.DragBackRestores | src/libs/histogram.c:344-356 | dragging back to the press position sets the exposure or black value snapshotted at the press |
| Histogram.HoverSetsHighlight | src/libs/histogram.c:361-412 | when not dragging, motion changes only highlight: it is unchanged outside the widget and in 1 to 6 inside, and no hook is called |
| Histogram.Press | src/libs/histogram.c:431-491 | without hooks nothing happens; a double click only resets; a press never changes highlight or the layout, changes the mode only on the mode button, and changes dragging only off the buttons |
| Histogram.Toggle | src/libs/histogram.c:460-474 | the toggle of a channel flips exactly when its button is highlighted, and no other field changes |
| Histogram.StartDrag | src/libs/histogram.c:477-484 | sets dragging and the truncated press position, snapshots exposure only over region 2 and black only over region 1, and changes nothing else |
| Histogram.Release | src/libs/histogram.c:521 | clears dragging and no other field |
| Histogram.Leave | src/libs/histogram.c:537-538 | clears dragging and highlight and no other field |
| Histogram.Scroll | src/libs/histogram.c:505-510 | at most one call: the exposure setter exactly for a unit step over region 2, the black setter exactly for one over region 1, always with a finite value |
| Histogram.NextMode | src/libs/histogram.c:450 | the mode advances by one modulo DT_DEV_HISTOGRAM_N and stays in range |
| Histogram.ModePress | src/libs/histogram.c:448-458 | a press with highlight 3 changes only the mode, advancing it, and reprocesses the preview exactly when the new mode is the waveform |
| Histogram.PressModeAdvances | src/libs/histogram.c:448-450 | n presses on the mode button advance the mode by n modulo DT_DEV_HISTOGRAM_N and change no widget field |
| Histogram.ModeCycleRestores | src/libs/histogram.c:448-450 | DT_DEV_HISTOGRAM_N presses on the mode button restore the state |
| Histogram.ChannelPress | src/libs/histogram.c:460-474 | a press with highlight 4, 5 or 6 negates exactly red, green or blue; every other field, the mode and the hooks are untouched |
| Histogram.ChannelPressInvolutive | src/libs/histogram.c:460-474 | two presses on the same channel button restore the state |
| Histogram.PressStartsDrag | src/libs/histogram.c:475-485 | any other single press starts a drag at the truncated pointer position, snapshotting exposure only for highlight 2 and black only for highlight 1 |
| Histogram.DoubleClickOnlyResets | src/libs/histogram.c:442-445 | a double click only calls the reset hook and changes no field and not the mode |
| Histogram.ReleaseEndsDrag | src/libs/histogram.c:521 | release clears dragging, so the next motion calls no hook |
| Histogram.LeaveClears | src/libs/histogram.c:537-538 | leave clears dragging and highlight; scrolling then calls nothing, and a press starts a drag that snapshots nothing |
| Histogram.ScrollRoundTrip | src/libs/histogram.c:505-510 | over region 2 or 1, one unit step produces one setter call, and the opposite step from its result restores the value |
| Histogram.Develop.constructor | src/libs/histogram.c:336 | the develop object's mode and hook availability, with no hook call yet |
| Histogram.HistogramLib.constructor | src/libs/histogram.c:562-567 | the record as gui_init allocates it |
| Histogram.HistogramLib.ConfigureEvent | src/libs/histogram.c:156-175 | updates the layout fields in place as the configure specification says, and nothing else |
| Histogram.HistogramLib.MotionNotify | src/libs/histogram.c:328-430 | the record, the mode and the hook calls become those of the motion specification |
| Histogram.HistogramLib.ButtonPressEvent | src/libs/histogram.c:431-491 | the record, the mode and the hook calls become those of the press specification |
| Histogram.HistogramLib.ToggleChannel | src/libs/histogram.c:460-474 | negates the toggle of the highlighted channel button in place |
| Histogram.HistogramLib.BeginDrag | src/libs/histogram.c:475-485 | starts the drag in place as the drag-start specification says |
| Histogram.HistogramLib.ScrollEvent | src/libs/histogram.c:493-514 | appends the scroll specification's calls and leaves the record and the mode alone |
| Histogram.HistogramLib.ButtonReleaseEvent | src/libs/histogram.c:516-523 | clears dragging and nothing else |
| Histogram.HistogramLib.LeaveNotify | src/libs/histogram.c:532-542 | clears dragging and highlight and nothing else |

## Left out

- `process_cl` (src/iop/colorout.c:151-178): the OpenCL buffer upload and kernel launch are device plumbing. `process_cl_ready` is modelled only as a flag.
- OpenMP parallelism: both pixel loops are sequential. The fallback always uses the transform of slot 0, because its parallel pragma is disabled and the loop runs on thread 0.
- ColorOutProcess.Process: requires a non-null transform in slot 0 on the fallback path. The source would pass a null transform to the colour-management library, whose behaviour is outside this model. `ColorOut.CommitEndsUsable` states when a commit rules that case out.
- ColorOutProcess.Process: requires distinct input and output buffers, as the pixelpipe provides them.
- The colour-management library and darktable's colour-space helpers are oracles with uninterpreted results. These are the profile constructors, profile opening from a file or memory, matrix derivation, transform creation and application, and Lab-to-XYZ conversion. No colour mathematics is verified.
- Bit-exact single-precision arithmetic of the matrix product, the LUT blend and the drag and scroll updates is not modelled. Finite values are reals; NaN and the infinities appear only where the source's comparisons depend on them.
- ColorOut.TryDerive: a failed derivation keeps the previous entries 1 to 8 of the matrix and the previous curves. What the derivation helper may have written before failing is not modelled; `process` reads neither on the fallback path.
- ColorOut.Piece.constructor: the matrix and curves, which `init_pipe` allocates uninitialised, are modelled as zeros.
- The export override is copied into `iccprofile` by `snprintf` with a length limit of `DT_IOP_COLOR_ICC_LEN`. The truncation of long names is not modelled.
- ColorOut.DefaultParams: the field order of the parameters (iccprofile, displayprofile, intent, displayintent) and the value 0 of DT_INTENT_PERCEPTUAL are assumed from `init`'s initialiser. The unset `displayintent` is therefore perceptual. The headers that define them are not part of this model.
- The `LUT_SAMPLES` constant is defined in colorout.h, which is not part of this model. The value 0x10000 is assumed.
- The order of the histogram types is assumed to be logarithmic, linear, waveform, taken from the mode tooltips. develop.h is not part of this model.
- Freeing the configuration string, the Lab profile of `init_pipe` and `cleanup_pipe` are not modelled (resource release beyond the commit's).
- The text of the log message and the tooltips are not modelled. The warning is one `Warn` effect, and the tooltips are GTK output.
- `dt_conf_set_*` persistence of the mode and the toggles is not modelled (configuration I/O).
- GTK and Cairo drawing, cursor changes, redraw requests, `gui_init`'s widget setup, `gui_update`, `gui_cleanup` and the collapse accelerator are not modelled. Of `gui_init`, only the initial record is modelled.
- The mutex-protected copy of the histogram buffer in the draw callback is concurrency and is not modelled. Only its channel-mask loop is.
- Directory scanning of colorout's `gui_init` and the profile search path of `dt_colorspaces_find_profile` are not modelled (file-system I/O). A file lookup is the oracle `openFile`.
- The event type, the pointer position, the allocation and the scroll step are parameters. The exposure getter hooks are parameters too.
- Histogram.Trunc: the overflow of the int32 conversion for coordinates outside its range is not modelled.
- Histogram.HistogramType: only the three valid mode values are admitted; an out-of-range stored mode is not modelled.
- Histogram.HistogramLib.ScrollEvent: like the source, it does not check for the exposure hooks.
