/**
 * An animated segue: one renderer bound to a source and a destination image,
 * driven by a single-threaded timer that renders frames at a fixed rate for a
 * fixed duration and notifies two registries of observers.
 *
 * The wall clock is a parameter (`now`), and each execution of the timer's
 * periodic task is an explicit call of `Tick`. The notifications observers
 * receive are recorded, in order, in the ghost `log`.
 */
module Segue {
  import opened Wrappers
  import opened Images
  import Effects

  /** An observer, known only by its identity. */
  datatype Observer = Observer(id: nat)

  /** What observers see, and the timer shutdowns between their notifications. */
  datatype Event =
    | FrameRendered(observer: Observer, progress: real, frame: Image)
    | AnimationCompleted(observer: Observer)
    | TimerShutdown

  datatype SegueError =
    | NullImage          // neither source nor destination image may be null
    | BoundsMismatch     // source and destination images must have identical bounds
    | DivisionByZero     // the tick period 1000 / fps with fps == 0
    | NonPositivePeriod  // a fixed-rate task needs a period of at least 1 ms
    | RenderFailure      // the unchecked final render threw: no source, or a dissolve without a large enough destination

  // ---------------------------------------------------------------------------
  // Progress

  /** A single-precision progress value: a number, or NaN from dividing 0 by a zero duration. */
  datatype Progress = Num(value: real) | NaN

  /** `(now - startTime) / durationMs` clamped into [0, 1]; with a zero duration the quotient is infinite or NaN. */
  function GetProgress(startTime: int, now: int, durationMs: int): (p: Progress)
    ensures p.Num? ==> 0.0 <= p.value <= 1.0
    ensures p.NaN? <==> durationMs == 0 && now == startTime
  {
    var elapsed := now - startTime;
    if durationMs == 0 then
      if elapsed == 0 then NaN else if elapsed < 0 then Num(0.0) else Num(1.0)
    else
      var quotient := elapsed as real / durationMs as real;
      if quotient < 0.0 then Num(0.0) else if quotient > 1.0 then Num(1.0) else Num(quotient)
  }

  /** The check `getProgress() < 1.0f`: false for NaN, as every comparison with NaN is. */
  predicate BelowOne(p: Progress)
    ensures p.NaN? ==> !BelowOne(p)
  {
    p.Num? && p.value < 1.0
  }

  /** The progress reached at `now`, reading NaN as complete. */
  function Reached(startTime: int, now: int, durationMs: int): (r: real)
    ensures 0.0 <= r <= 1.0
  {
    match GetProgress(startTime, now, durationMs)
    case Num(v) => v
    case NaN => 1.0
  }

  /** For a positive duration the progress is the elapsed fraction, 0 before the start and 1 from the end on. */
  lemma ProgressIsClampedFraction(startTime: int, now: int, durationMs: int)
    requires durationMs > 0
    ensures now <= startTime ==> GetProgress(startTime, now, durationMs) == Num(0.0)
    ensures now - startTime >= durationMs ==> GetProgress(startTime, now, durationMs) == Num(1.0)
    ensures startTime <= now < startTime + durationMs ==>
              GetProgress(startTime, now, durationMs) == Num((now - startTime) as real / durationMs as real)
              && BelowOne(GetProgress(startTime, now, durationMs))
  {
    var e, d := (now - startTime) as real, durationMs as real;
    if now <= startTime {
      assert e / d <= 0.0;
    }
    if now - startTime >= durationMs {
      assert e / d >= 1.0;
    }
    if startTime <= now < startTime + durationMs {
      assert 0.0 <= e / d < 1.0;
    }
  }

  /** While the clock does not run backwards, the progress reached never decreases. */
  lemma ReachedMonotone(startTime: int, durationMs: int, t1: int, t2: int)
    requires startTime <= t1 <= t2
    ensures Reached(startTime, t1, durationMs) <= Reached(startTime, t2, durationMs)
  {
    var e1, e2 := (t1 - startTime) as real, (t2 - startTime) as real;
    var d := durationMs as real;
    if durationMs > 0 {
      assert (e2 - e1) / d >= 0.0;
      assert e2 / d - e1 / d == (e2 - e1) / d;
    } else if durationMs < 0 {
      assert e1 / d <= 0.0 && e2 / d <= 0.0;
    }
  }

  // ---------------------------------------------------------------------------
  // Configuration checks

  /** `assertImages`: both images present, then of identical bounds. */
  function CheckImages(source: Option<Image>, destination: Option<Image>): (r: Outcome<SegueError>)
    ensures r.Pass? <==> source.Some? && destination.Some? && SameSize(source.value, destination.value)
    ensures r == Fail(NullImage) <==> source.None? || destination.None?
    ensures r.Fail? ==> r.error in {NullImage, BoundsMismatch}
  {
    if source.None? || destination.None? then Fail(NullImage)
    else if !SameSize(source.value, destination.value) then Fail(BoundsMismatch)
    else Pass
  }

  /** Integer division truncating toward zero, as `int / int` does in the source language. */
  function TruncatedDiv(a: int, b: int): int
    requires b != 0
  {
    var q := (if a < 0 then -a else a) / (if b < 0 then -b else b);
    if (a < 0) != (b < 0) then -q else q
  }

  /** The tick period `1000 / fps` in milliseconds, and the failures computing and scheduling it. */
  function TickPeriod(fps: int): (r: Result<int, SegueError>)
    ensures r.Success? ==> r.value >= 1
    ensures r == Failure(DivisionByZero) <==> fps == 0
  {
    if fps == 0 then Failure(DivisionByZero)
    else
      var period := TruncatedDiv(1000, fps);
      if period <= 0 then Failure(NonPositivePeriod) else Success(period)
  }

  /** A run can be scheduled exactly when fps lies in 1..1000, and its period is then 1000 / fps ms. */
  lemma TickPeriodRange(fps: int)
    ensures TickPeriod(fps).Success? <==> 1 <= fps <= 1000
    ensures TickPeriod(fps).Success? ==> TickPeriod(fps).value == 1000 / fps >= 1
  {
    if fps < 0 {
      assert TruncatedDiv(1000, fps) == -(1000 / -fps);
    } else if fps > 1000 {
      assert 1000 / fps == 0;
    }
  }

  // ---------------------------------------------------------------------------
  // Notifications

  /** The observers notified by a stretch of the log. */
  ghost function Recipients(seg: seq<Event>): set<Observer>
  {
    if seg == [] then {}
    else
      var last := seg[|seg| - 1];
      Recipients(seg[..|seg| - 1]) + (if last.TimerShutdown? then {} else {last.observer})
  }

  lemma {:induction false} RecipientsAppend(seg: seq<Event>, e: Event)
    requires !e.TimerShutdown?
    ensures Recipients(seg + [e]) == Recipients(seg) + {e.observer}
  {
    assert (seg + [e])[..|seg|] == seg;
  }

  /** `seg` tells each observer of `to` exactly once about the frame rendered at `progress`. */
  ghost predicate FramesSent(seg: seq<Event>, to: set<Observer>, progress: real, frame: Image) {
    && |seg| == |to| && Recipients(seg) == to
    && forall i | 0 <= i < |seg| :: seg[i].FrameRendered? && seg[i].progress == progress && seg[i].frame == frame
  }

  /** `seg` tells each observer of `to` exactly once that the animation completed. */
  ghost predicate CompletionsSent(seg: seq<Event>, to: set<Observer>) {
    && |seg| == |to| && Recipients(seg) == to
    && forall i | 0 <= i < |seg| :: seg[i].AnimationCompleted?
  }

  ghost predicate FrameDelivered(before: seq<Event>, after: seq<Event>, to: set<Observer>, progress: real, frame: Image) {
    && |after| == |before| + |to| && after[..|before|] == before
    && FramesSent(after[|before|..], to, progress, frame)
  }

  ghost predicate CompletionDelivered(before: seq<Event>, after: seq<Event>, to: set<Observer>) {
    && |after| == |before| + |to| && after[..|before|] == before
    && CompletionsSent(after[|before|..], to)
  }

  /** Progress values delivered in order, all in [0, 1], none beyond what the clock has reached. */
  ghost predicate RunInOrder(run: seq<real>, reached: real) {
    && (forall i | 0 <= i < |run| :: 0.0 <= run[i] <= 1.0)
    && (forall i, j | 0 <= i < j < |run| :: run[i] <= run[j])
    && (run != [] ==> run[|run| - 1] <= reached)
  }

  // ---------------------------------------------------------------------------
  // The timer

  /** A single-threaded scheduled executor running at most one fixed-rate task. */
  class Timer {
    var isShutdown: bool
    /** The fixed-rate task is scheduled and has neither been cancelled nor thrown. */
    var taskLive: bool
    var period: int

    constructor ()
      ensures !isShutdown && !taskLive
    {
      isShutdown := false;
      taskLive := false;
      period := 0;
    }

    /** Stops the executor and cancels its task; repeating it changes nothing. */
    method ShutdownNow()
      modifies this
      ensures isShutdown && !taskLive && period == old(period)
    {
      isShutdown := true;
      taskLive := false;
    }

    method ScheduleAtFixedRate(periodMs: int)
      requires !isShutdown && periodMs >= 1
      modifies this
      ensures !isShutdown && taskLive && period == periodMs
    {
      taskLive := true;
      period := periodMs;
    }

    /** A run of the task threw: the executor suppresses every later run but keeps its thread. */
    method TaskFailed()
      modifies this
      ensures !taskLive && isShutdown == old(isShutdown) && period == old(period)
    {
      taskLive := false;
    }

    predicate IsTerminated()
      reads this
    {
      isShutdown
    }

    ghost function State(): (bool, bool, int)
      reads this
    {
      (isShutdown, taskLive, period)
    }
  }

  // ---------------------------------------------------------------------------
  // The segue

  /** Everything about a segue that only its setters and observer registration change. */
  datatype Settings = Settings(
    animationObservers: set<Observer>, completionObservers: set<Observer>,
    durationMs: int, fps: int, isOverlay: bool,
    source: Option<Image>, destination: Option<Image>)

  class AnimatedSegue {
    /** The renderer this segue is bound to. */
    const effect: Effects.Effect
    var animationObservers: set<Observer>
    var completionObservers: set<Observer>
    var durationMs: int
    var fps: int
    var isOverlay: bool
    var animatorService: Timer?
    var startTime: int
    var source: Option<Image>
    var destination: Option<Image>

    /** Every timer this segue has created. */
    ghost var timers: set<Timer>
    /** Every notification sent, and every timer shutdown, in order. */
    ghost var log: seq<Event>
    /** Progress of each frame delivered since the progress base (start time, duration) last changed. */
    ghost var run: seq<real>
    /** The latest clock reading. */
    ghost var clock: int

    /**
     * At most one timer is alive, and it is the current one; a task only runs
     * on a live timer; the frames of the current run are in order.
     */
    ghost predicate Valid()
      reads this, timers
    {
      && (animatorService != null ==> animatorService in timers && (animatorService.taskLive ==> !animatorService.isShutdown))
      && (forall t | t in timers && t != animatorService :: t.isShutdown && !t.taskLive)
      && startTime <= clock
      && (run != [] ==> RunInOrder(run, Reached(startTime, clock, durationMs)))
    }

    ghost function Config(): Settings
      reads this
    {
      Settings(animationObservers, completionObservers, durationMs, fps, isOverlay, source, destination)
    }

    /** The timer's task is scheduled and will run again. */
    predicate Ticking()
      reads this, animatorService
    {
      animatorService != null && animatorService.taskLive
    }

    /** The frame the renderer gives for the current images at `progress`. */
    ghost function FrameAt(progress: real): Image
      reads this
      requires CheckImages(source, destination).Pass? && 0.0 <= progress <= 1.0
    {
      Effects.Frame(effect, source.value, destination.value, progress)
    }

    constructor (effect: Effects.Effect)
      ensures Valid() && this.effect == effect
      ensures Config() == Settings({}, {}, 1000, 30, false, None, None)
      ensures animatorService == null && startTime == 0 && clock == 0
      ensures timers == {} && log == [] && run == []
    {
      this.effect := effect;
      animationObservers, completionObservers := {}, {};
      durationMs, fps, isOverlay := 1000, 30, false;
      animatorService := null;
      startTime := 0;
      source, destination := None, None;
      timers, log, run, clock := {}, [], [], 0;
    }

    /** `isRunning` as written: true when there is no timer or it has terminated. */
    predicate IsRunning()
      reads this, animatorService
      ensures animatorService == null ==> IsRunning()
    {
      animatorService == null || animatorService.IsTerminated()
    }

    /** What `isRunning` documents: a timer exists and has not terminated. */
    predicate IsAnimating()
      reads this, animatorService
      ensures IsAnimating() ==> animatorService != null && !animatorService.isShutdown
    {
      animatorService != null && !animatorService.IsTerminated()
    }

    /** No two timers of this segue are alive at once. */
    lemma AtMostOneTimerAlive()
      requires Valid()
      ensures forall t, u | t in timers && u in timers && !t.isShutdown && !u.isShutdown :: t == u
      ensures Ticking() ==> forall t | t in timers && t.taskLive :: t == animatorService
    {
    }

    /** While the task is scheduled the segue is animating, which is what `isRunning` is documented to report. */
    lemma TickingSegueIsAnimating()
      requires Valid()
      ensures Ticking() ==> IsAnimating() && !IsRunning()
    {
    }

    /** The two are exact opposites: `isRunning` answers the inverse question. */
    lemma IsRunningIsInverted()
      ensures IsRunning() <==> !IsAnimating()
    {
    }

    /**
     * Begins a run at clock time `now`: validates the images, delivers the
     * frame at progress 0, shuts down the previous timer and schedules a new one.
     */
    method Start(now: int) returns (r: Outcome<SegueError>)
      requires Valid() && clock <= now
      modifies this`startTime, this`clock, this`run, this`log, this`animatorService, this`timers, animatorService
      ensures Valid()
      ensures startTime == now && clock == now
      ensures CheckImages(source, destination).Fail? ==>
                && r == CheckImages(source, destination)
                && log == old(log) && run == []
                && animatorService == old(animatorService) && timers == old(timers)
                && (old(animatorService) != null ==> unchanged(old(animatorService)))
      ensures CheckImages(source, destination).Pass? ==>
                var n := |old(log)| + |animationObservers|;
                && run == [0.0]
                && n <= |log|
                && FrameDelivered(old(log), log[..n], animationObservers, 0.0, FrameAt(0.0))
                && log[n..] == (if old(animatorService) != null then [TimerShutdown] else [])
                && (old(animatorService) != null ==> old(animatorService).isShutdown)
                && animatorService != null && fresh(animatorService)
                && timers == old(timers) + {animatorService}
                && IsAnimating()
                && (TickPeriod(fps).Success? ==>
                      r == Pass && Ticking() && animatorService.period == TickPeriod(fps).value)
                && (TickPeriod(fps).Failure? ==>
                      r == Fail(TickPeriod(fps).error) && !Ticking())
    {
      startTime := now;
      clock := now;
      run := [];
      var check := CheckImages(source, destination);
      if check.Fail? {
        return check;
      }
      DeliverFrame(0.0);
      ghost var framed := log;
      ReplaceTimer();
      assert log[..|framed|] == framed;
      r := ScheduleTicks();
    }

    /** Shuts down the previous timer, if any, and installs a new one with nothing scheduled yet. */
    method ReplaceTimer()
      requires Valid()
      modifies this`animatorService, this`timers, this`log, animatorService
      ensures Valid()
      ensures log == old(log) + (if old(animatorService) != null then [TimerShutdown] else [])
      ensures old(animatorService) != null ==> old(animatorService).isShutdown
      ensures animatorService != null && fresh(animatorService)
      ensures !animatorService.isShutdown && !animatorService.taskLive
      ensures timers == old(timers) + {animatorService}
    {
      if animatorService != null {
        animatorService.ShutdownNow();
        log := log + [TimerShutdown];
      }
      var timer := new Timer();
      animatorService := timer;
      timers := timers + {timer};
    }

    /** Schedules the tick task on the new timer every `1000 / fps` ms, if that period is valid. */
    method ScheduleTicks() returns (r: Outcome<SegueError>)
      requires Valid() && animatorService != null
      requires !animatorService.isShutdown && !animatorService.taskLive
      modifies animatorService
      ensures Valid() && IsAnimating()
      ensures TickPeriod(fps).Success? ==> r == Pass && Ticking() && animatorService.period == TickPeriod(fps).value
      ensures TickPeriod(fps).Failure? ==> r == Fail(TickPeriod(fps).error) && !Ticking()
    {
      var period := TickPeriod(fps);
      if period.Failure? {
        return Fail(period.error);
      }
      animatorService.ScheduleAtFixedRate(period.value);
      r := Pass;
    }

    /**
     * One run of the timer's task. The clock is read at `checkAt` for the
     * check against 1 and again at `renderAt` for the frame's progress.
     */
    method Tick(checkAt: int, renderAt: int) returns (r: Outcome<SegueError>)
      requires Valid() && Ticking()
      requires clock <= checkAt <= renderAt
      modifies this`clock, this`run, this`log, animatorService
      ensures Valid()
      ensures startTime == old(startTime) && animatorService == old(animatorService) && timers == old(timers)
      ensures var checked := GetProgress(startTime, checkAt, durationMs);
              var check := CheckImages(source, destination);
              && (BelowOne(checked) && check.Fail? ==>
                    && r == check
                    && !Ticking() && !animatorService.isShutdown
                    && log == old(log) && run == old(run))
              && (BelowOne(checked) && check.Pass? ==>
                    var p := Reached(startTime, renderAt, durationMs);
                    && r == Pass && Ticking()
                    && 0.0 <= p <= 1.0
                    && run == old(run) + [p]
                    && FrameDelivered(old(log), log, animationObservers, p, FrameAt(p)))
              && (!BelowOne(checked) ==>
                    var final := Effects.FinalFrame(effect, source, destination);
                    && (final.None? ==>
                          && r == Fail(RenderFailure)
                          && !Ticking() && !animatorService.isShutdown
                          && log == old(log) && run == old(run))
                    && (final.Some? ==>
                          var n := |old(log)| + |animationObservers|;
                          && r == Pass
                          && run == old(run) + [1.0]
                          && n < |log|
                          && FrameDelivered(old(log), log[..n], animationObservers, 1.0, final.value)
                          && log[n] == TimerShutdown
                          && CompletionDelivered(log[..n + 1], log, completionObservers)
                          && animatorService.isShutdown && !IsAnimating() && !Ticking()))
    {
      var checked := GetProgress(startTime, checkAt, durationMs);
      ReachedMonotone(startTime, durationMs, clock, checkAt);
      clock := checkAt;
      var check := CheckImages(source, destination);
      if BelowOne(checked) {
        if check.Fail? {
          animatorService.TaskFailed();
          return check;
        }
        DeliverFrameAt(renderAt);
      } else {
        // The final frame is rendered without checking the images first.
        var frame := Effects.RenderFinal(effect, source, destination);
        if frame.None? {
          animatorService.TaskFailed();
          return Fail(RenderFailure);
        }
        Finish(frame.value);
      }
      r := Pass;
    }

    /** Renders the frame for the progress read at `now` and delivers it to the animation observers. */
    method DeliverFrameAt(now: int)
      requires Valid() && clock <= now
      requires CheckImages(source, destination).Pass? && GetProgress(startTime, now, durationMs).Num?
      modifies this`log, this`run, this`clock
      ensures Valid() && clock == now
      ensures var p := Reached(startTime, now, durationMs);
              && run == old(run) + [p]
              && FrameDelivered(old(log), log, animationObservers, p, FrameAt(p))
    {
      var progress := GetProgress(startTime, now, durationMs);
      ReachedMonotone(startTime, durationMs, clock, now);
      clock := now;
      DeliverFrame(progress.value);
    }

    /** Renders the frame at `progress` and delivers it to the animation observers. */
    method DeliverFrame(progress: real)
      requires Valid() && CheckImages(source, destination).Pass?
      requires 0.0 <= progress <= Reached(startTime, clock, durationMs)
      requires run != [] ==> run[|run| - 1] <= progress
      modifies this`log, this`run
      ensures Valid()
      ensures run == old(run) + [progress]
      ensures FrameDelivered(old(log), log, animationObservers, progress, FrameAt(progress))
    {
      var frame := Effects.Render(effect, source.value, destination.value, progress);
      FireFrameRendered(progress, frame);
    }

    /** The last frame: delivers the frame rendered at progress 1, stops the timer and tells the completion observers. */
    method Finish(frame: Image)
      requires Valid() && Reached(startTime, clock, durationMs) == 1.0
      modifies this`log, this`run, animatorService
      ensures Valid()
      ensures var n := |old(log)| + |animationObservers|;
              && run == old(run) + [1.0]
              && n <= |log|
              && FrameDelivered(old(log), log[..n], animationObservers, 1.0, frame)
              && CompletionDelivered(log[..n] + (if animatorService != null then [TimerShutdown] else []),
                                     log, completionObservers)
              && !IsAnimating() && !Ticking()
    {
      FireFrameRendered(1.0, frame);
      ghost var framed := log;
      Stop();
      ghost var stopped := log;
      FireCompleted();
      assert log[..|framed|] == framed;
      assert log[..|stopped|] == stopped;
    }

    /** Shuts the timer down, if there is one; has no further effect once it is shut down. */
    method Stop()
      requires Valid()
      modifies this`log, animatorService
      ensures Valid()
      ensures !Ticking() && !IsAnimating()
      ensures animatorService == old(animatorService)
      ensures old(animatorService) == null ==> log == old(log)
      ensures old(animatorService) != null ==> log == old(log) + [TimerShutdown]
      ensures old(animatorService) != null && old(animatorService.isShutdown) ==>
                animatorService.State() == old(animatorService.State())
    {
      if animatorService != null {
        assert animatorService in timers;
        assert animatorService.isShutdown ==> !animatorService.taskLive;
        animatorService.ShutdownNow();
        log := log + [TimerShutdown];
      }
    }

    method AddCompletionObserver(observer: Observer)
      requires Valid()
      modifies this`completionObservers
      ensures Valid()
      ensures completionObservers == old(completionObservers) + {observer}
      ensures observer in old(completionObservers) ==> completionObservers == old(completionObservers)
    {
      completionObservers := completionObservers + {observer};
    }

    method AddCompletionObservers(observers: set<Observer>)
      requires Valid()
      modifies this`completionObservers
      ensures Valid()
      ensures completionObservers == old(completionObservers) + observers
    {
      completionObservers := completionObservers + observers;
    }

    method AddAnimationObserver(observer: Observer)
      requires Valid()
      modifies this`animationObservers
      ensures Valid()
      ensures animationObservers == old(animationObservers) + {observer}
      ensures observer in old(animationObservers) ==> animationObservers == old(animationObservers)
    {
      animationObservers := animationObservers + {observer};
    }

    method AddAnimationObservers(observers: set<Observer>)
      requires Valid()
      modifies this`animationObservers
      ensures Valid()
      ensures animationObservers == old(animationObservers) + observers
    {
      animationObservers := animationObservers + observers;
    }

    /** Removes `observer`; the answer says whether it was registered. */
    method RemoveAnimationObserver(observer: Observer) returns (removed: bool)
      requires Valid()
      modifies this`animationObservers
      ensures Valid()
      ensures removed <==> observer in old(animationObservers)
      ensures animationObservers == old(animationObservers) - {observer}
    {
      removed := observer in animationObservers;
      animationObservers := animationObservers - {observer};
    }

    /** Removes `observer`; the answer says whether it was registered. */
    method RemoveCompletionObserver(observer: Observer) returns (removed: bool)
      requires Valid()
      modifies this`completionObservers
      ensures Valid()
      ensures removed <==> observer in old(completionObservers)
      ensures completionObservers == old(completionObservers) - {observer}
    {
      removed := observer in completionObservers;
      completionObservers := completionObservers - {observer};
    }

    /** A new duration changes how progress is computed, so it begins a new run of frames. */
    method SetDurationMs(durationMs: int)
      requires Valid()
      modifies this`durationMs, this`run
      ensures Valid() && this.durationMs == durationMs && run == []
    {
      this.durationMs := durationMs;
      run := [];
    }

    method SetSource(source: Option<Image>)
      requires Valid()
      modifies this`source
      ensures Valid()
      ensures this.source == source
    {
      this.source := source;
    }

    method SetDestination(destination: Option<Image>)
      requires Valid()
      modifies this`destination
      ensures Valid()
      ensures this.destination == destination
    {
      this.destination := destination;
    }

    method SetFps(fps: int)
      requires Valid()
      modifies this`fps
      ensures Valid()
      ensures this.fps == fps
    {
      this.fps := fps;
    }

    method SetOverlay(isOverlay: bool)
      requires Valid()
      modifies this`isOverlay
      ensures Valid()
      ensures this.isOverlay == isOverlay
    {
      this.isOverlay := isOverlay;
    }

    /** Notifies each animation observer of a snapshot of the registry once, and records the frame in the run. */
    method FireFrameRendered(progress: real, frame: Image)
      modifies this`log, this`run
      ensures FrameDelivered(old(log), log, animationObservers, progress, frame)
      ensures run == old(run) + [progress]
    {
      var pending := animationObservers;
      ghost var sent: set<Observer> := {};
      ghost var seg: seq<Event> := [];
      while pending != {}
        invariant sent !! pending && sent + pending == animationObservers
        invariant log == old(log) + seg
        invariant FramesSent(seg, sent, progress, frame)
        invariant run == old(run)
        decreases pending
      {
        var observer :| observer in pending;
        RecipientsAppend(seg, FrameRendered(observer, progress, frame));
        seg := seg + [FrameRendered(observer, progress, frame)];
        log := log + [FrameRendered(observer, progress, frame)];
        sent := sent + {observer};
        pending := pending - {observer};
      }
      assert log[|old(log)|..] == seg;
      run := run + [progress];
    }

    /** Notifies each completion observer of a snapshot of the registry once. */
    method FireCompleted()
      modifies this`log
      ensures CompletionDelivered(old(log), log, completionObservers)
    {
      var pending := completionObservers;
      ghost var sent: set<Observer> := {};
      ghost var seg: seq<Event> := [];
      while pending != {}
        invariant sent !! pending && sent + pending == completionObservers
        invariant log == old(log) + seg
        invariant CompletionsSent(seg, sent)
        decreases pending
      {
        var observer :| observer in pending;
        RecipientsAppend(seg, AnimationCompleted(observer));
        seg := seg + [AnimationCompleted(observer)];
        log := log + [AnimationCompleted(observer)];
        sent := sent + {observer};
        pending := pending - {observer};
      }
      assert log[|old(log)|..] == seg;
    }
  }

  /** A segue that has never been started has no timer, yet `isRunning` reports it running. */
  lemma IdleSegueReportsRunning(segue: AnimatedSegue)
    requires segue.animatorService == null
    ensures segue.IsRunning() && !segue.IsAnimating()
  {
  }
}
