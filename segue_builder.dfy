/**
 * The segue builder: collects a source and a destination (each an image or a
 * paint), timing settings and observers, and builds a segue whose two images
 * are guaranteed to have the same width and height.
 */
module Builder {
  import opened Wrappers
  import opened Images
  import Effects
  import opened Segue

  datatype BuildError =
    | NoSource       // neither a source image nor a source paint was given
    | NoDestination  // neither a destination image nor a destination paint was given
    | PaintOnly      // both sides are paints, so no side fixes the size

  function Max(a: int, b: int): int {
    if a < b then b else a
  }

  // ---------------------------------------------------------------------------
  // The three checks of `build`, in order

  function Validate(source: Option<Image>, sourcePaint: Option<Paint>,
                    destination: Option<Image>, destinationPaint: Option<Paint>): (r: Outcome<BuildError>)
    ensures r == Fail(NoSource) <==> source.None? && sourcePaint.None?
    ensures r == Fail(NoDestination) <==>
              (source.Some? || sourcePaint.Some?) && destination.None? && destinationPaint.None?
    ensures r == Fail(PaintOnly) <==>
              source.None? && sourcePaint.Some? && destination.None? && destinationPaint.Some?
    ensures r.Pass? <==> (source.Some? || sourcePaint.Some?) && (destination.Some? || destinationPaint.Some?)
                         && (source.Some? || destination.Some?)
  {
    if sourcePaint.None? && source.None? then Fail(NoSource)
    else if destinationPaint.None? && destination.None? then Fail(NoDestination)
    else if source.None? && destination.None? then Fail(PaintOnly)
    else Pass
  }

  // ---------------------------------------------------------------------------
  // Materialising paints and resizing

  /** A fresh width x height image filled with `paint`. */
  function Painted(width: int, height: int, paint: Paint): (r: Image)
    requires width >= 1 && height >= 1
    ensures r.width == width && r.height == height
    ensures forall x, y | 0 <= x < width && 0 <= y < height :: At(r, x, y) == Flatten(paint.colorAt(x, y))
  {
    Fill(Blank(width, height), paint)
  }

  /** `img` copied at the origin onto a fresh width x height image: cropped beyond it, transparent elsewhere. */
  function Enlarged(width: int, height: int, img: Image): (r: Image)
    requires width >= 1 && height >= 1
    ensures r.width == width && r.height == height
    ensures forall x, y | 0 <= x < width && 0 <= y < height ::
              At(r, x, y) == if x < img.width && y < img.height then Flatten(At(img, x, y)) else Clear
  {
    Composite(Blank(width, height), img, 0, 0)
  }

  /**
   * The size both images are resized to when they differ, as the builder
   * computes it: the larger width, but for the height the larger of the
   * destination's two sides; the source's height plays no part.
   */
  function TargetSize(source: Image, destination: Image): (size: (int, int))
    ensures size.0 >= source.width && size.0 >= destination.width
    ensures size.0 == source.width || size.0 == destination.width
    ensures size.1 >= destination.height && size.1 >= destination.width
    ensures size.1 == destination.height || size.1 == destination.width
  {
    (Max(source.width, destination.width), Max(destination.width, destination.height))
  }

  /** The size evidently meant: the larger width and the larger height. */
  function IntendedTargetSize(source: Image, destination: Image): (size: (int, int))
    ensures size.0 >= source.width && size.0 >= destination.width
    ensures size.1 >= source.height && size.1 >= destination.height
    ensures size.0 == source.width || size.0 == destination.width
    ensures size.1 == source.height || size.1 == destination.height
  {
    (Max(source.width, destination.width), Max(source.height, destination.height))
  }

  /** Resizes two images of different sizes to `size`; images of equal size are kept. */
  function Normalise(source: Image, destination: Image, size: (int, int)): (r: (Image, Image))
    requires size.0 >= 1 && size.1 >= 1
    ensures SameSize(r.0, r.1)
    ensures SameSize(source, destination) ==> r == (source, destination)
    ensures !SameSize(source, destination) ==>
              && r.0.width == size.0 && r.0.height == size.1
              && r.0 == Enlarged(size.0, size.1, source) && r.1 == Enlarged(size.0, size.1, destination)
  {
    if SameSize(source, destination) then (source, destination)
    else (Enlarged(size.0, size.1, source), Enlarged(size.0, size.1, destination))
  }

  /** Each side's image, or else its paint materialised at the other side's size. */
  function Sides(source: Option<Image>, sourcePaint: Option<Paint>,
                 destination: Option<Image>, destinationPaint: Option<Paint>): (r: (Image, Image))
    requires Validate(source, sourcePaint, destination, destinationPaint).Pass?
    ensures source.Some? ==> r.0 == source.value
    ensures destination.Some? ==> r.1 == destination.value
    ensures source.None? ==> r.0 == Painted(r.1.width, r.1.height, sourcePaint.value) && SameSize(r.0, r.1)
    ensures destination.None? ==> r.1 == Painted(r.0.width, r.0.height, destinationPaint.value) && SameSize(r.0, r.1)
  {
    if source.None? then
      (Painted(destination.value.width, destination.value.height, sourcePaint.value), destination.value)
    else if destination.None? then
      (source.value, Painted(source.value.width, source.value.height, destinationPaint.value))
    else (source.value, destination.value)
  }

  /** The two images `build` hands to the segue, or the check that failed. */
  function Resolve(source: Option<Image>, sourcePaint: Option<Paint>,
                   destination: Option<Image>, destinationPaint: Option<Paint>): (r: Result<(Image, Image), BuildError>)
    ensures r.Failure? <==> Validate(source, sourcePaint, destination, destinationPaint).Fail?
    ensures r.Failure? ==> r.error == Validate(source, sourcePaint, destination, destinationPaint).error
  {
    var check := Validate(source, sourcePaint, destination, destinationPaint);
    if check.Fail? then Failure(check.error)
    else
      var sides := Sides(source, sourcePaint, destination, destinationPaint);
      Success(Normalise(sides.0, sides.1, TargetSize(sides.0, sides.1)))
  }

  /** `Resolve` with the intended target size. */
  function ResolveIntended(source: Option<Image>, sourcePaint: Option<Paint>,
                           destination: Option<Image>, destinationPaint: Option<Paint>): (r: Result<(Image, Image), BuildError>)
    ensures r.Failure? <==> Validate(source, sourcePaint, destination, destinationPaint).Fail?
  {
    var check := Validate(source, sourcePaint, destination, destinationPaint);
    if check.Fail? then Failure(check.error)
    else
      var sides := Sides(source, sourcePaint, destination, destinationPaint);
      Success(Normalise(sides.0, sides.1, IntendedTargetSize(sides.0, sides.1)))
  }

  // ---------------------------------------------------------------------------
  // Properties of resolution

  /** A side given as an image is used as is, even when a paint was given too, unless resizing is needed. */
  lemma ImageWinsOverPaint(source: Image, sourcePaint: Option<Paint>, destination: Image, destinationPaint: Option<Paint>)
    requires SameSize(source, destination)
    ensures Resolve(Some(source), sourcePaint, Some(destination), destinationPaint) == Success((source, destination))
  {
  }

  /** A paint-only side is materialised at the other image's size, so no resize follows. */
  lemma PaintTakesOtherSize(image: Image, paint: Paint, imagePaint: Option<Paint>, otherImagePaint: Option<Paint>)
    ensures Resolve(None, Some(paint), Some(image), imagePaint)
              == Success((Painted(image.width, image.height, paint), image))
    ensures Resolve(Some(image), imagePaint, None, Some(paint))
              == Success((image, Painted(image.width, image.height, paint)))
  {
  }

  /** Whatever was given, a successful resolution yields two images of one size, which the segue accepts. */
  lemma ResolvedImagesMatch(source: Option<Image>, sourcePaint: Option<Paint>,
                            destination: Option<Image>, destinationPaint: Option<Paint>)
    requires Resolve(source, sourcePaint, destination, destinationPaint).Success?
    ensures var images := Resolve(source, sourcePaint, destination, destinationPaint).value;
            && SameSize(images.0, images.1)
            && CheckImages(Some(images.0), Some(images.1)) == Pass
  {
    var sides := Sides(source, sourcePaint, destination, destinationPaint);
    var size := TargetSize(sides.0, sides.1);
    if !SameSize(sides.0, sides.1) {
      var images := Normalise(sides.0, sides.1, size);
      assert images.0.width == size.0 && images.1.width == size.0;
    }
  }

  /**
   * The resize as written, for every pair of images of different sizes: both
   * become as wide as the wider one and as tall as the destination's longer
   * side. The destination survives whole; a source pixel survives exactly when
   * its row lies above that height, so a taller source loses its lower rows.
   */
  lemma AsWrittenResize(source: Image, sourcePaint: Option<Paint>, destination: Image, destinationPaint: Option<Paint>)
    requires !SameSize(source, destination)
    ensures var images := Resolve(Some(source), sourcePaint, Some(destination), destinationPaint).value;
            var height := Max(destination.width, destination.height);
            && images.0.width == images.1.width == Max(source.width, destination.width)
            && images.0.height == images.1.height == height
            && (source.height > height ==> images.0.height < source.height)
            && (forall x, y | 0 <= x < source.width && 0 <= y < source.height && y < height ::
                  At(images.0, x, y) == Flatten(At(source, x, y)))
            && (forall x, y | 0 <= x < destination.width && 0 <= y < destination.height ::
                  At(images.1, x, y) == Flatten(At(destination, x, y)))
  {
  }

  /** With the size as written, a source taller than the destination's longer side loses its lower rows. */
  lemma TallSourceIsCropped(source: Image, destination: Image)
    requires source.width == 50 && source.height == 100
    requires destination.width == 80 && destination.height == 60
    ensures var images := Resolve(Some(source), None, Some(destination), None).value;
            images.0.width == 80 && images.0.height == 80 && images.0.height < source.height
  {
  }

  /** With the size as written, a 50x50 source and an 80x60 destination both become 80x80, not 80x60. */
  lemma WideDestinationIsPadded(source: Image, destination: Image)
    requires source.width == 50 && source.height == 50
    requires destination.width == 80 && destination.height == 60
    ensures var images := Resolve(Some(source), None, Some(destination), None).value;
            && images.0.width == images.1.width == 80 && images.0.height == images.1.height == 80
            && ResolveIntended(Some(source), None, Some(destination), None).value.1.height == 60
  {
  }

  /** With the intended size every pixel of both images survives the resize, at its own coordinates. */
  lemma IntendedResizeKeepsEveryPixel(source: Image, destination: Image)
    ensures var images := ResolveIntended(Some(source), None, Some(destination), None).value;
            && SameSize(images.0, images.1)
            && source.width <= images.0.width && source.height <= images.0.height
            && destination.width <= images.1.width && destination.height <= images.1.height
            && (forall x, y | 0 <= x < source.width && 0 <= y < source.height ::
                  At(images.0, x, y) == if SameSize(source, destination) then At(source, x, y) else Flatten(At(source, x, y)))
            && (forall x, y | 0 <= x < destination.width && 0 <= y < destination.height ::
                  At(images.1, x, y) == if SameSize(source, destination) then At(destination, x, y) else Flatten(At(destination, x, y)))
  {
  }

  // ---------------------------------------------------------------------------
  // The builder

  class SegueBuilder {
    /** The renderer the built segue uses. */
    const effect: Effects.Effect
    var source: Option<Image>
    var destination: Option<Image>
    var sourcePaint: Option<Paint>
    var destinationPaint: Option<Paint>
    var maxFps: int
    var durationMs: int
    var overlay: bool
    var animationObservers: set<Observer>
    var completionObservers: set<Observer>

    /** A builder for `effect` with the defaults: 30 fps, 1500 ms, no overlay, nothing given yet. */
    constructor Of(effect: Effects.Effect)
      ensures this.effect == effect
      ensures source == None && destination == None && sourcePaint == None && destinationPaint == None
      ensures maxFps == 30 && durationMs == 1500 && !overlay
      ensures animationObservers == {} && completionObservers == {}
    {
      this.effect := effect;
      source, destination := None, None;
      sourcePaint, destinationPaint := None, None;
      maxFps, durationMs, overlay := 30, 1500, false;
      animationObservers, completionObservers := {}, {};
    }

    method WithSourceImage(source: Option<Image>) returns (b: SegueBuilder)
      modifies this`source
      ensures this.source == source && b == this
    {
      this.source := source;
      b := this;
    }

    method WithDestinationImage(destination: Option<Image>) returns (b: SegueBuilder)
      modifies this`destination
      ensures this.destination == destination && b == this
    {
      this.destination := destination;
      b := this;
    }

    method WithSourcePaint(paint: Option<Paint>) returns (b: SegueBuilder)
      modifies this`sourcePaint
      ensures sourcePaint == paint && b == this
    {
      sourcePaint := paint;
      b := this;
    }

    method WithDestinationPaint(paint: Option<Paint>) returns (b: SegueBuilder)
      modifies this`destinationPaint
      ensures destinationPaint == paint && b == this
    {
      destinationPaint := paint;
      b := this;
    }

    method WithMaxFramesPerSecond(maxFps: int) returns (b: SegueBuilder)
      modifies this`maxFps
      ensures this.maxFps == maxFps && b == this
    {
      this.maxFps := maxFps;
      b := this;
    }

    method WithDurationMs(durationMs: int) returns (b: SegueBuilder)
      modifies this`durationMs
      ensures this.durationMs == durationMs && b == this
    {
      this.durationMs := durationMs;
      b := this;
    }

    method Overlay(overlayDestination: bool) returns (b: SegueBuilder)
      modifies this`overlay
      ensures overlay == overlayDestination && b == this
    {
      overlay := overlayDestination;
      b := this;
    }

    /** Registers an observer of frames; registering it again changes nothing. */
    method WithAnimationObserver(observer: Observer) returns (b: SegueBuilder)
      modifies this`animationObservers
      ensures animationObservers == old(animationObservers) + {observer} && b == this
      ensures observer in old(animationObservers) ==> animationObservers == old(animationObservers)
    {
      animationObservers := animationObservers + {observer};
      b := this;
    }

    /** Registers an observer of completion; registering it again changes nothing. */
    method WithCompletionObserver(observer: Observer) returns (b: SegueBuilder)
      modifies this`completionObservers
      ensures completionObservers == old(completionObservers) + {observer} && b == this
      ensures observer in old(completionObservers) ==> completionObservers == old(completionObservers)
    {
      completionObservers := completionObservers + {observer};
      b := this;
    }

    /**
     * Checks what was given, materialises a paint-only side, resizes images of
     * different sizes, and hands everything to a new segue.
     */
    method Build() returns (r: Result<AnimatedSegue, BuildError>)
      ensures var resolved := Resolve(source, sourcePaint, destination, destinationPaint);
              && (resolved.Failure? ==> r == Failure(resolved.error))
              && (resolved.Success? ==>
                    && r.Success? && fresh(r.value)
                    && r.value.Valid() && r.value.effect == effect
                    && r.value.Config() == Settings(animationObservers, completionObservers, durationMs, maxFps, overlay,
                                                    Some(resolved.value.0), Some(resolved.value.1))
                    && r.value.animatorService == null && r.value.log == [])
    {
      var images := ResolveImages();
      if images.Failure? {
        return Failure(images.error);
      }
      var segue := Assemble(images.value.0, images.value.1);
      r := Success(segue);
    }

    /** The segue for this builder's effect, given the two images and every setting of the builder. */
    method Assemble(theSource: Image, theDestination: Image) returns (segue: AnimatedSegue)
      ensures fresh(segue) && segue.Valid() && segue.effect == effect
      ensures segue.Config() == Settings(animationObservers, completionObservers, durationMs, maxFps, overlay,
                                         Some(theSource), Some(theDestination))
      ensures segue.animatorService == null && segue.log == []
    {
      segue := new AnimatedSegue(effect);
      segue.SetSource(Some(theSource));
      segue.SetDestination(Some(theDestination));
      segue.SetDurationMs(durationMs);
      segue.SetFps(maxFps);
      segue.SetOverlay(overlay);
      segue.AddAnimationObservers(animationObservers);
      segue.AddCompletionObservers(completionObservers);
    }

    /** The checks, the paint-or-image choice and the resize of `Build`. */
    method ResolveImages() returns (r: Result<(Image, Image), BuildError>)
      ensures r == Resolve(source, sourcePaint, destination, destinationPaint)
    {
      if sourcePaint.None? && source.None? {
        return Failure(NoSource);
      }
      if destinationPaint.None? && destination.None? {
        return Failure(NoDestination);
      }
      if source.None? && destination.None? {
        return Failure(PaintOnly);
      }

      var theSource, theDestination;
      if source.None? {
        theSource := PaintImage(destination.value.width, destination.value.height, sourcePaint.value);
      } else {
        theSource := source.value;
      }
      if destination.None? {
        theDestination := PaintImage(source.value.width, source.value.height, destinationPaint.value);
      } else {
        theDestination := destination.value;
      }
      assert (theSource, theDestination) == Sides(source, sourcePaint, destination, destinationPaint);

      if theSource.width != theDestination.width || theSource.height != theDestination.height {
        var targetWidth := Max(theSource.width, theDestination.width);
        var targetHeight := Max(theDestination.width, theDestination.height);
        theSource := EnlargeImage(targetWidth, targetHeight, theSource);
        theDestination := EnlargeImage(targetWidth, targetHeight, theDestination);
      }
      r := Success((theSource, theDestination));
    }
  }

  /** Copies `image` at the origin of a fresh width x height buffer. */
  method EnlargeImage(width: int, height: int, image: Image) returns (enlarged: Image)
    requires width >= 1 && height >= 1
    ensures enlarged == Enlarged(width, height, image)
  {
    var buf := NewFrame(width, height);
    DrawImage(buf, image, 0, 0);
    enlarged := Snapshot(buf);
  }

  /** Fills a fresh width x height buffer with `paint`. */
  method PaintImage(width: int, height: int, paint: Paint) returns (painted: Image)
    requires width >= 1 && height >= 1
    ensures painted == Painted(width, height, paint)
  {
    var buf := NewFrame(width, height);
    FillRect(buf, paint);
    painted := Snapshot(buf);
  }
}
