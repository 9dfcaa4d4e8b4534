# jsegue in Dafny

A model of the core of jsegue, a small Java library that animates a transition
("segue") from a source image to a destination image. It covers three parts:

- **The segue run** (`Segue.AnimatedSegue`). A segue is bound to one renderer
  and holds a source, a destination, a duration, a frame rate, an overlay flag
  and two observer registries. `Start` checks the images and delivers the frame
  at progress 0 to every animation observer. It then shuts down any earlier
  timer and schedules a periodic task on a new one. Each run of that task
  (`Tick`) reads the clamped progress `(now - startTime) / durationMs`. Below 1
  it checks the images and delivers the frame at the current progress.
  Otherwise it renders the frame at exactly 1 without checking the images,
  delivers it, stops the timer and tells every completion observer.
- **The builder** (`Builder.SegueBuilder`). It collects an image or a paint for
  each side plus the settings and observers. `Build` runs three ordered checks,
  materialises a paint-only side at the other side's size, enlarges two images
  of different sizes onto a common canvas, and hands everything to a new segue.
- **The renderers**: pixel dissolve, wipe down, wipe right, wipe up, plain and
  freeze, each a function over a width x height pixel grid (`Effects.Frame`
  dispatches on the renderer kind).

How the model is built:

- Images are values (`Images.Image`, rows of ARGB pixels, never empty).
- Frame buffers are `array2<Pixel>`. The two drawing primitives are imperative
  loops proved against pure functions: `Images.DrawImage` is a source-over
  draw clipped to the buffer, and `Images.FillRect` is a paint fill.
- The dissolve and wipe renderers have a `Render` method that allocates a
  buffer and paints it as the Java does. It is proved equal to the renderer's
  pure `Frame`, and the geometric properties are lemmas about `Frame`. Plain
  and freeze return the source image itself, so they are plain functions.
- The wall clock is a parameter. `Start(now)` takes one reading, and
  `Tick(checkAt, renderAt)` takes the two readings the task makes.
- Every notification goes, in order, into the ghost `log`, along with every
  timer shutdown between them. The ghost `run` holds the progress values
  delivered since the progress base (start time, duration) last changed.
- `Valid()` is the class invariant. At most one timer is alive and it is the
  current one, a task only runs on a live timer, and the delivered progress
  values are in [0, 1], non-decreasing and never past what the clock has
  reached.
- Thrown exceptions are `Outcome`/`Result` failures. `SegueError` covers the
  segue, and `BuildError` covers the three messages of `build`.

Where the code and its documentation disagree, the model follows the code:

- `isRunning` reports the opposite of its documentation.
- The resize height is `max(destination width, destination height)`, not the
  larger of the two heights. So a 50x50 source and an 80x60 destination both
  become 80x80 (`Builder.WideDestinationIsPadded`).

The two defects are listed under Findings.

Where neither the code nor its documentation says otherwise, the model keeps
what the code does: given both an image and a paint for one side, `build`
uses the image and ignores the paint (`Builder.ImageWinsOverPaint`).

## Model

| member | source | states |
|---|---|---|
| Images.Over | src/main/java/com/defano/jsegue/renderers/WipeDownEffect.java:23-24 | source-over: an opaque top pixel hides the bottom, a fully transparent one leaves it, and a top pixel over a transparent one is kept |
| Images.Flatten | src/main/java/com/defano/jsegue/SegueBuilder.java:266-268 | a pixel drawn onto a fresh transparent buffer is kept if it has any alpha, and is transparent otherwise |
| Images.Blank | src/main/java/com/defano/jsegue/renderers/WipeDownEffect.java:16 | a fresh ARGB image has the requested size and is transparent everywhere |
| Images.Subimage | src/main/java/com/defano/jsegue/renderers/WipeDownEffect.java:21 | the sub-image has the requested size and pixel (i, j) is the original's pixel (x + i, y + j) |
| Images.DrawingBlankChangesNothing | src/main/java/com/defano/jsegue/renderers/WipeDownEffect.java:23 | drawing a fully transparent image leaves the canvas as it was, which is how a missing destination is drawn |
| Images.Composite | src/main/java/com/defano/jsegue/renderers/WipeDownEffect.java:23-24 | drawing keeps the canvas size; covered pixels are composited over, the others are kept |
| Images.Snapshot | src/main/java/com/defano/jsegue/renderers/WipeDownEffect.java:26 | the image a buffer holds has the buffer's size and its pixels |
| Images.NewFrame | src/main/java/com/defano/jsegue/renderers/WipeDownEffect.java:16 | a fresh buffer of the given size that holds the blank image |
| Images.DrawImage | src/main/java/com/defano/jsegue/renderers/WipeDownEffect.java:23-24 | after the nested loop the buffer holds exactly the composite of its old contents and the image at the offset, clipped |
| Images.Fill | src/main/java/com/defano/jsegue/SegueBuilder.java:277-278 | filling keeps the size and composites the paint's colour over every pixel |
| Images.FillRect | src/main/java/com/defano/jsegue/SegueBuilder.java:277-278 | after the nested loop the buffer holds exactly its old contents filled with the paint |
| Wipe.Distance | src/main/java/com/defano/jsegue/renderers/WipeDownEffect.java:20 | the wipe distance lies in [0, dim - 1] and never exceeds the truncated progress * dim |
| Wipe.DistanceMonotone | src/main/java/com/defano/jsegue/renderers/WipeDownEffect.java:20 | the distance is non-decreasing in progress |
| Wipe.DistanceAtEnds | src/main/java/com/defano/jsegue/renderers/WipeDownEffect.java:20 | the distance is 0 at progress 0 and dim - 1 at progress 1 |
| WipeDown.Frame | src/main/java/com/defano/jsegue/renderers/WipeDownEffect.java:16 | the frame has the source's size |
| WipeDown.Render | src/main/java/com/defano/jsegue/renderers/WipeDownEffect.java:15-27 | the two drawImage passes on a fresh buffer produce exactly the frame |
| WipeDown.FrameAt | src/main/java/com/defano/jsegue/renderers/WipeDownEffect.java:20-24 | rows above the distance show the destination; the rest show the source over the destination |
| WipeDown.WipedRowsStayWiped | src/main/java/com/defano/jsegue/renderers/WipeDownEffect.java:20-24 | a row showing the destination keeps showing it at every later progress |
| WipeDown.FinalFrame | src/main/java/com/defano/jsegue/renderers/WipeDownEffect.java:20-24 | at progress 1 every row but the bottom one shows the destination; the bottom row still shows the source |
| WipeDown.FirstFrameIsOpaqueSource | src/main/java/com/defano/jsegue/renderers/WipeDownEffect.java:20-24 | at progress 0 an opaque source is rendered unchanged |
| WipeRight.Frame | src/main/java/com/defano/jsegue/renderers/WipeRightEffect.java:16 | the frame has the source's size |
| WipeRight.Render | src/main/java/com/defano/jsegue/renderers/WipeRightEffect.java:15-27 | the two drawImage passes on a fresh buffer produce exactly the frame |
| WipeRight.FrameAt | src/main/java/com/defano/jsegue/renderers/WipeRightEffect.java:20-24 | columns left of the distance show the destination; the rest show the source over the destination |
| WipeRight.WipedColumnsStayWiped | src/main/java/com/defano/jsegue/renderers/WipeRightEffect.java:20-24 | a column showing the destination keeps showing it at every later progress |
| WipeRight.FinalFrame | src/main/java/com/defano/jsegue/renderers/WipeRightEffect.java:20-24 | at progress 1 the rightmost column still shows the source |
| WipeRight.FirstFrameIsOpaqueSource | src/main/java/com/defano/jsegue/renderers/WipeRightEffect.java:20-24 | at progress 0 an opaque source is rendered unchanged |
| WipeUp.Frame | src/main/java/com/defano/jsegue/renderers/WipeUpEffect.java:16 | the frame has the source's size |
| WipeUp.Render | src/main/java/com/defano/jsegue/renderers/WipeUpEffect.java:15-27 | the two drawImage passes on a fresh buffer produce exactly the frame |
| WipeUp.FrameAt | src/main/java/com/defano/jsegue/renderers/WipeUpEffect.java:20-24 | rows from height - distance down show the destination; the rows above show the source over the destination |
| WipeUp.WipedRowsStayWiped | src/main/java/com/defano/jsegue/renderers/WipeUpEffect.java:20-24 | a row showing the destination keeps showing it at every later progress |
| WipeUp.FinalFrame | src/main/java/com/defano/jsegue/renderers/WipeUpEffect.java:20-21 | at progress 1 the top row still shows the source |
| WipeUp.FirstFrameIsOpaqueSource | src/main/java/com/defano/jsegue/renderers/WipeUpEffect.java:20-24 | at progress 0 an opaque source is rendered unchanged |
| PixelDissolve.Threshold | src/main/java/com/defano/jsegue/renderers/PixelDissolveEffect.java:24 | the threshold lies in 1..100 and is at least the truncated 100 * progress |
| PixelDissolve.PixelAt | src/main/java/com/defano/jsegue/renderers/PixelDissolveEffect.java:24 | each pixel is the destination's or the source's pixel at the same coordinates |
| PixelDissolve.Frame | src/main/java/com/defano/jsegue/renderers/PixelDissolveEffect.java:21-27 | the frame has the source's size and each pixel is chosen by its own draw; the destination is read at the same coordinates, so it must be at least as large |
| PixelDissolve.Render | src/main/java/com/defano/jsegue/renderers/PixelDissolveEffect.java:15-30 | the x-outer, y-inner loop drawing once per pixel produces exactly the frame |
| PixelDissolve.PixelFromSourceOrDestination | src/main/java/com/defano/jsegue/renderers/PixelDissolveEffect.java:24 | a pixel is the destination's when its draw is at most the threshold, and the source's otherwise |
| PixelDissolve.ThresholdMonotone | src/main/java/com/defano/jsegue/renderers/PixelDissolveEffect.java:24 | the threshold is non-decreasing in progress |
| PixelDissolve.DissolvedStaysDissolved | src/main/java/com/defano/jsegue/renderers/PixelDissolveEffect.java:17-24 | a pixel showing the destination at p shows it at every later progress |
| PixelDissolve.FirstFrame | src/main/java/com/defano/jsegue/renderers/PixelDissolveEffect.java:24 | at progress 0 the threshold is 1, so pixels drawing 0 or 1 already show the destination |
| PixelDissolve.LastFrameIsDestination | src/main/java/com/defano/jsegue/renderers/PixelDissolveEffect.java:24 | at progress 1 the frame is the destination cut to the source's size, and exactly the destination when the sizes agree |
| Plain.Render | src/main/java/com/defano/jsegue/renderers/PlainEffect.java:14-17 | returns the source image itself; its properties are stated by the next row |
| Plain.IgnoresDestinationAndProgress | src/main/java/com/defano/jsegue/renderers/PlainEffect.java:14-17 | the frame is the source for every destination and progress, including 1 |
| Freeze.Render | src/main/java/com/defano/jsegue/renderers/FreezeEffect.java:10-13 | returns the source image itself; its properties are stated by the next row |
| Freeze.SameAsPlain | src/main/java/com/defano/jsegue/renderers/FreezeEffect.java:10-13 | freezing renders the source, the same frame as the plain renderer, for every input |
| Effects.Frame | src/main/java/com/defano/jsegue/AnimatedSegue.java:36-43 | every renderer's frame has the source's size, and so the size of both images when they agree; only the dissolve needs a destination at least as large as the source |
| Effects.Render | src/main/java/com/defano/jsegue/AnimatedSegue.java:43 | rendering produces exactly the frame of the bound renderer |
| Effects.FinalFrame | src/main/java/com/defano/jsegue/AnimatedSegue.java:69-71 | the unchecked render at 1 gives a frame exactly when the source is present and, for the dissolve, the destination is present and at least as large; plain and freeze give the source; for checked images it is the ordinary frame at 1 |
| Effects.RenderFinal | src/main/java/com/defano/jsegue/AnimatedSegue.java:71 | the unchecked render at 1 produces exactly that final frame, or fails where it does |
| Segue.GetProgress | src/main/java/com/defano/jsegue/AnimatedSegue.java:262-272 | a number is always in [0, 1]; NaN arises exactly from a zero duration read at the start time |
| Segue.Reached | src/main/java/com/defano/jsegue/AnimatedSegue.java:262-272 | the progress reached, reading NaN as complete, lies in [0, 1] |
| Segue.ProgressIsClampedFraction | src/main/java/com/defano/jsegue/AnimatedSegue.java:262-272 | for a positive duration: 0 up to the start, 1 from the end on, and in between the exact fraction, below 1 |
| Segue.ReachedMonotone | src/main/java/com/defano/jsegue/AnimatedSegue.java:262-272 | while the clock does not run backwards, the progress reached never decreases |
| Segue.CheckImages | src/main/java/com/defano/jsegue/AnimatedSegue.java:274-282 | passes iff both images are present and equal in width and height; fails with the null-image error iff one is missing |
| Segue.BelowOne | src/main/java/com/defano/jsegue/AnimatedSegue.java:66 | the comparison with 1 is false for NaN, so a NaN progress takes the final branch |
| Segue.TickPeriod | src/main/java/com/defano/jsegue/AnimatedSegue.java:76 | a computed period is at least 1 ms, and the division error arises exactly for fps 0 |
| Segue.TickPeriodRange | src/main/java/com/defano/jsegue/AnimatedSegue.java:76 | a task can be scheduled iff fps lies in 1..1000, and its period is then 1000 / fps ms |
| Segue.Timer.constructor | src/main/java/com/defano/jsegue/AnimatedSegue.java:64 | a new executor is live and runs no task |
| Segue.Timer.ShutdownNow | src/main/java/com/defano/jsegue/AnimatedSegue.java:60 | the executor is shut down and its task cancelled |
| Segue.Timer.ScheduleAtFixedRate | src/main/java/com/defano/jsegue/AnimatedSegue.java:65-76 | the task is scheduled at the given period on a live executor |
| Segue.Timer.TaskFailed | src/main/java/com/defano/jsegue/AnimatedSegue.java:67 | a task that threw runs no more, and the executor is not shut down |
| Segue.AnimatedSegue.constructor | src/main/java/com/defano/jsegue/AnimatedSegue.java:18-26 | no observers, 1000 ms, 30 fps, no overlay, no images, no timer |
| Segue.AnimatedSegue.AtMostOneTimerAlive | src/main/java/com/defano/jsegue/AnimatedSegue.java:58-64 | no two of the segue's timers are alive at once, and only the current one runs a task |
| Segue.AnimatedSegue.IsRunning | src/main/java/com/defano/jsegue/AnimatedSegue.java:93-95 | `isRunning` as written: a segue without a timer reports running |
| Segue.AnimatedSegue.IsAnimating | src/main/java/com/defano/jsegue/AnimatedSegue.java:88-91 | the documented meaning of `isRunning`: only true while a timer exists that has not been shut down |
| Segue.AnimatedSegue.TickingSegueIsAnimating | src/main/java/com/defano/jsegue/AnimatedSegue.java:89-95 | while the task is scheduled a timer exists and has not terminated |
| Segue.AnimatedSegue.IsRunningIsInverted | src/main/java/com/defano/jsegue/AnimatedSegue.java:93-95 | `isRunning` as written is the exact negation of "a timer exists and has not terminated" |
| Segue.IdleSegueReportsRunning | src/main/java/com/defano/jsegue/AnimatedSegue.java:93-95 | a segue without a timer reports running |
| Segue.AnimatedSegue.Start | src/main/java/com/defano/jsegue/AnimatedSegue.java:51-77 | on bad images: that error, no frame, no timer change; otherwise one frame at 0 to each observer, then the old timer shut down, then a fresh live timer, ticking iff the period is valid |
| Segue.AnimatedSegue.ReplaceTimer | src/main/java/com/defano/jsegue/AnimatedSegue.java:58-64 | the previous timer is shut down (logged) before a fresh timer becomes the only live one |
| Segue.AnimatedSegue.ScheduleTicks | src/main/java/com/defano/jsegue/AnimatedSegue.java:64-76 | the task is scheduled every 1000 / fps ms, or the division or scheduling error is reported and nothing ticks |
| Segue.AnimatedSegue.Tick | src/main/java/com/defano/jsegue/AnimatedSegue.java:65-76 | below 1: the image check, then one frame at the current progress and no completion, and failed images stop the task; at 1: the unchecked final frame, then the shutdown, then every completion, and no further ticks, unless that render throws, which stops the task |
| Segue.AnimatedSegue.DeliverFrameAt | src/main/java/com/defano/jsegue/AnimatedSegue.java:66-68 | the frame at the progress read at that moment goes to each observer and extends the ordered run |
| Segue.AnimatedSegue.DeliverFrame | src/main/java/com/defano/jsegue/AnimatedSegue.java:68 | the bound renderer's frame at the progress goes to each animation observer once |
| Segue.AnimatedSegue.Finish | src/main/java/com/defano/jsegue/AnimatedSegue.java:69-75 | the frame rendered at 1 is delivered, then the timer is shut down, then every completion observer is told; nothing animates afterwards |
| Segue.AnimatedSegue.Stop | src/main/java/com/defano/jsegue/AnimatedSegue.java:82-86 | no timer: nothing happens; otherwise the timer is shut down, and a second stop leaves it as it was |
| Segue.AnimatedSegue.AddCompletionObserver | src/main/java/com/defano/jsegue/AnimatedSegue.java:102-104 | the registry gains the observer; adding a present one changes nothing |
| Segue.AnimatedSegue.AddCompletionObservers | src/main/java/com/defano/jsegue/AnimatedSegue.java:111-113 | the registry becomes its union with the given observers |
| Segue.AnimatedSegue.AddAnimationObserver | src/main/java/com/defano/jsegue/AnimatedSegue.java:120-122 | the registry gains the observer; adding a present one changes nothing |
| Segue.AnimatedSegue.AddAnimationObservers | src/main/java/com/defano/jsegue/AnimatedSegue.java:129-131 | the registry becomes its union with the given observers |
| Segue.AnimatedSegue.RemoveAnimationObserver | src/main/java/com/defano/jsegue/AnimatedSegue.java:140-142 | answers true iff the observer was registered, and it is no longer |
| Segue.AnimatedSegue.RemoveCompletionObserver | src/main/java/com/defano/jsegue/AnimatedSegue.java:151-153 | answers true iff the observer was registered, and it is no longer |
| Segue.AnimatedSegue.SetDurationMs | src/main/java/com/defano/jsegue/AnimatedSegue.java:169-171 | the duration is replaced, which starts a new run of progress values |
| Segue.AnimatedSegue.SetSource | src/main/java/com/defano/jsegue/AnimatedSegue.java:187-189 | the source is replaced |
| Segue.AnimatedSegue.SetDestination | src/main/java/com/defano/jsegue/AnimatedSegue.java:205-207 | the destination is replaced |
| Segue.AnimatedSegue.SetFps | src/main/java/com/defano/jsegue/AnimatedSegue.java:225-227 | the frame rate is replaced |
| Segue.AnimatedSegue.SetOverlay | src/main/java/com/defano/jsegue/AnimatedSegue.java:246-248 | the overlay flag is replaced |
| Segue.AnimatedSegue.FireFrameRendered | src/main/java/com/defano/jsegue/AnimatedSegue.java:250-254 | each observer of the registry's snapshot is told exactly once about the frame, and nothing else is logged |
| Segue.AnimatedSegue.FireCompleted | src/main/java/com/defano/jsegue/AnimatedSegue.java:256-260 | each observer of the registry's snapshot is told exactly once about completion |
| Builder.Validate | src/main/java/com/defano/jsegue/SegueBuilder.java:172-182 | no source at all fails first; then no destination at all; then two paints; everything else passes |
| Builder.Painted | src/main/java/com/defano/jsegue/SegueBuilder.java:274-282 | a paint image has the requested size and each pixel is the paint's colour drawn onto a transparent pixel |
| Builder.Enlarged | src/main/java/com/defano/jsegue/SegueBuilder.java:265-272 | the enlarged image has the target size; inside the original it holds the original's pixel, beyond it transparent, and the original is cropped to the target |
| Builder.TargetSize | src/main/java/com/defano/jsegue/SegueBuilder.java:190-191 | as written: the larger width, and for the height the larger of the destination's two sides, whatever the source's height |
| Builder.IntendedTargetSize | src/main/java/com/defano/jsegue/SegueBuilder.java:190-191 | the larger width and the larger height: at least each image's size and equal to one of them |
| Builder.Sides | src/main/java/com/defano/jsegue/SegueBuilder.java:185-186 | a side given as an image keeps it; a side with only a paint becomes a paint image of the other side's size |
| Builder.Normalise | src/main/java/com/defano/jsegue/SegueBuilder.java:188-195 | the two results always share a size: same-sized images are kept, others are both enlarged to the target size |
| Builder.Resolve | src/main/java/com/defano/jsegue/SegueBuilder.java:171-195 | fails exactly when a check fails, with that check's error |
| Builder.ResolveIntended | src/main/java/com/defano/jsegue/SegueBuilder.java:189-195 | the resolution with the intended size fails exactly when a check fails |
| Builder.ImageWinsOverPaint | src/main/java/com/defano/jsegue/SegueBuilder.java:185-189 | given images of one size, those images are used even if paints were also given |
| Builder.PaintTakesOtherSize | src/main/java/com/defano/jsegue/SegueBuilder.java:185-186 | a paint-only side becomes a paint image of the other image's size, and that image passes through unchanged |
| Builder.ResolvedImagesMatch | src/main/java/com/defano/jsegue/SegueBuilder.java:189-195 | the two resolved images always have the same size, so the segue's image check passes |
| Builder.AsWrittenResize | src/main/java/com/defano/jsegue/SegueBuilder.java:189-195 | for every pair of differently sized images: both become the larger width by the destination's longer side; the destination survives whole; source pixels in the rows above that height survive and the rows below it are cut off |
| Builder.TallSourceIsCropped | src/main/java/com/defano/jsegue/SegueBuilder.java:190-191 | a 50x100 source with an 80x60 destination is cut to 80x80 |
| Builder.WideDestinationIsPadded | src/main/java/com/defano/jsegue/SegueBuilder.java:190-191 | a 50x50 source with an 80x60 destination gives two 80x80 images, where the intended size is 80x60 |
| Builder.IntendedResizeKeepsEveryPixel | src/main/java/com/defano/jsegue/SegueBuilder.java:189-195 | with the intended size both images fit, and every original pixel survives at its own coordinates |
| Builder.SegueBuilder.Of | src/main/java/com/defano/jsegue/SegueBuilder.java:21-38 | a builder for the effect with nothing given, 30 fps, 1500 ms, no overlay and no observers |
| Builder.SegueBuilder.WithSourceImage | src/main/java/com/defano/jsegue/SegueBuilder.java:48-51 | sets the source image and returns the same builder |
| Builder.SegueBuilder.WithDestinationImage | src/main/java/com/defano/jsegue/SegueBuilder.java:61-64 | sets the destination image and returns the same builder |
| Builder.SegueBuilder.WithSourcePaint | src/main/java/com/defano/jsegue/SegueBuilder.java:73-76 | sets the source paint and returns the same builder |
| Builder.SegueBuilder.WithDestinationPaint | src/main/java/com/defano/jsegue/SegueBuilder.java:85-88 | sets the destination paint and returns the same builder |
| Builder.SegueBuilder.WithMaxFramesPerSecond | src/main/java/com/defano/jsegue/SegueBuilder.java:100-103 | sets the frame-rate cap and returns the same builder |
| Builder.SegueBuilder.WithDurationMs | src/main/java/com/defano/jsegue/SegueBuilder.java:112-115 | sets the duration and returns the same builder |
| Builder.SegueBuilder.Overlay | src/main/java/com/defano/jsegue/SegueBuilder.java:136-139 | sets the overlay flag and returns the same builder |
| Builder.SegueBuilder.WithAnimationObserver | src/main/java/com/defano/jsegue/SegueBuilder.java:146-149 | adds the observer (a present one changes nothing) and returns the same builder |
| Builder.SegueBuilder.WithCompletionObserver | src/main/java/com/defano/jsegue/SegueBuilder.java:156-159 | adds the observer (a present one changes nothing) and returns the same builder |
| Builder.SegueBuilder.Build | src/main/java/com/defano/jsegue/SegueBuilder.java:171-207 | the failed check's error, or a fresh, valid, idle segue for the effect holding the resolved images and the builder's settings verbatim |
| Builder.SegueBuilder.Assemble | src/main/java/com/defano/jsegue/SegueBuilder.java:197-204 | the new segue holds the two images, duration, fps, overlay flag and both observer sets, and has no timer and no notifications |
| Builder.SegueBuilder.ResolveImages | src/main/java/com/defano/jsegue/SegueBuilder.java:172-195 | the checks, paint materialisation and resize produce exactly the resolution |
| Builder.EnlargeImage | src/main/java/com/defano/jsegue/SegueBuilder.java:265-272 | drawing the image at the origin of a fresh buffer produces exactly the enlarged image |
| Builder.PaintImage | src/main/java/com/defano/jsegue/SegueBuilder.java:274-282 | filling a fresh buffer produces exactly the paint image |

## Left out

- The mapping from effect names to renderer classes (`getEffect`) and `SegueName` are not part of this model. The builder takes the renderer kind directly. The renderers other than the six above have no shown geometry and are not modelled.
- `withDuration(int, TimeUnit)` is not modelled; it needs time-unit conversion.
- The getters of the segue are not modelled as members; the model reads the fields directly.
- Threads and real timers are not modelled. So ticks in flight while `stop` or `start` runs, the initial delay of 0, and the `ScheduledFuture` that `start` returns are all out. A task run is a call of `Tick`, and the clock is a parameter.
- Observer callbacks are identities. Their side effects are not modelled, including one that changes a registry or the segue while it is being notified. The `this` argument is not modelled either. Each logged frame event records its progress, which the callback does not receive.
- The demo application, GIF export and the test helpers are not part of this model.
- Segue.GetProgress: computes the quotient exactly over the reals. Java's conversion of the elapsed `long` to `float` and its single-precision division and rounding are not modelled; only the infinite and NaN results of a zero duration are.
- Wipe.Distance: takes the product `progress * dim` exactly over the reals, not in `float`. Likewise `PixelDissolve.Threshold` for `100.0 * progress`.
- Images.Over / Images.Flatten: only the first two laws are exact, that an opaque top pixel hides the bottom and a fully transparent one leaves it. The third law, that a top pixel drawn onto a transparent one is kept unchanged, is an idealisation. Java2D composites an ARGB buffer in 8-bit premultiplied arithmetic, so a translucent pixel drawn onto a transparent one can come back with shifted colour channels: alpha 10 and red 201 reads back with red 204. The blend of a translucent pixel over another translucent one is an integer stand-in. So `Builder.Enlarged`, `Builder.Painted`, `Builder.AsWrittenResize`, `Builder.IntendedResizeKeepsEveryPixel` and the wipes' `FrameAt` lemmas are exact only for pixels that are opaque or fully transparent.
- The overlay flag is stored and copied by the builder, but no modelled renderer reads it.
- PixelDissolve.Frame: the draws of `new Random(0).nextInt(101)` are a fixed parameter stream; the generator's algorithm is not modelled.
- Images.Fill: a paint is a colour per pixel. Gradient and texture internals are not modelled, and neither is a paint that depends on the device or the transform.
- Segue.AnimatedSegue.Tick: with no source, the plain and freeze renderers return null in Java, and the final tick delivers that null frame, stops the timer and completes. The model has no null frame: it reports `RenderFailure` there and stops the task. Where a renderer does throw, which exception it throws is not modelled.
- Effects.FinalFrame: a missing destination is drawn as a fully transparent image, as `Graphics2D.drawImage` draws nothing for a null image; that library behaviour is assumed, not derived.
- Segue.AnimatedSegue.Tick: requires clock readings that never run backwards (`clock <= checkAt <= renderAt`), and `Start` requires `clock <= now`; the ordered run in `Valid()` depends on this. `System.currentTimeMillis` can step back. Java then delivers decreasing progress values, and with a zero duration it can even render at NaN: a check before the start time reads 0, and a render at the start time reads NaN.
- Observer callbacks never throw in the model. In Java, one that throws inside `start` aborts it before the old timer is shut down. One that throws inside a tick suppresses every later run of the task, so the run never completes.
- Segue.Timer.IsTerminated: reads "has been shut down". In Java the final tick calls `stop` from inside the task, so the executor only terminates after that task returns. `isRunning` read in between is not modelled.
- Integer widths are not modelled: the `long` start time, the `int` fields and their overflow. `1000 / fps` is modelled with Java's truncating division.

## Findings

| source | as written | input that shows it | evidently intended | confidence | as-written member | corrected member |
|---|---|---|---|---|---|---|
| src/main/java/com/defano/jsegue/AnimatedSegue.java:93-95 | `isRunning` is true when there is no timer or it has terminated | a segue that was never started has no timer, yet reports running | true exactly while a timer exists and has not terminated, as documented | high; not executed | Segue.IdleSegueReportsRunning | Segue.AnimatedSegue.TickingSegueIsAnimating |
| src/main/java/com/defano/jsegue/SegueBuilder.java:191 | the target height is `max(destination width, destination height)` | a 50x100 source with an 80x60 destination is enlarged to 80x80, losing its lower 20 rows | the target height is `max(source height, destination height)` | high; not executed | Builder.TallSourceIsCropped | Builder.IntendedResizeKeepsEveryPixel |

`Builder.SegueBuilder.Build` follows the code as written. `Builder.ResolveIntended`
is the corrected resolution, and `Segue.AnimatedSegue.IsAnimating` is the
corrected `isRunning`; the contracts of `Start`, `Tick`, `Finish` and `Stop`
are stated with it.
