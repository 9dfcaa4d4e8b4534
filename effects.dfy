/** The renderer a segue is bound to, and the frame it renders. */
module Effects {
  import opened Wrappers
  import opened Images
  import PixelDissolve
  import WipeDown
  import WipeRight
  import WipeUp
  import Plain
  import Freeze

  /**
   * The renderers of this model. A pixel dissolve carries the stream of
   * values its freshly seeded generator yields; being fixed, it is the same
   * stream at every render.
   */
  datatype Effect =
    | PlainEffect
    | FreezeEffect
    | PixelDissolveEffect(draws: nat -> PixelDissolve.Draw)
    | WipeDownEffect
    | WipeRightEffect
    | WipeUpEffect

  /**
   * A renderer can draw `dst` under `src` without throwing: the dissolve reads
   * the destination at every position of the source, the others never read
   * outside it.
   */
  predicate Renders(effect: Effect, src: Image, dst: Image) {
    effect.PixelDissolveEffect? ==> Covers(dst, src)
  }

  /** The frame `effect` renders from `src` and `dst` at `progress`; it has the source's size. */
  function Frame(effect: Effect, src: Image, dst: Image, progress: real): (r: Image)
    requires Renders(effect, src, dst) && 0.0 <= progress <= 1.0
    ensures SameSize(r, src)
    ensures SameSize(src, dst) ==> SameSize(r, dst)
  {
    match effect
    case PlainEffect => Plain.Render(src, dst, progress)
    case FreezeEffect => Freeze.Render(src, dst, progress)
    case PixelDissolveEffect(draws) => PixelDissolve.Frame(src, dst, progress, draws)
    case WipeDownEffect => WipeDown.Frame(src, dst, progress)
    case WipeRightEffect => WipeRight.Frame(src, dst, progress)
    case WipeUpEffect => WipeUp.Frame(src, dst, progress)
  }

  method Render(effect: Effect, src: Image, dst: Image, progress: real) returns (frame: Image)
    requires Renders(effect, src, dst) && 0.0 <= progress <= 1.0
    ensures frame == Frame(effect, src, dst, progress)
  {
    match effect
    case PlainEffect => frame := Plain.Render(src, dst, progress);
    case FreezeEffect => frame := Freeze.Render(src, dst, progress);
    case PixelDissolveEffect(draws) => frame := PixelDissolve.Render(src, dst, progress, draws);
    case WipeDownEffect => frame := WipeDown.Render(src, dst, progress);
    case WipeRightEffect => frame := WipeRight.Render(src, dst, progress);
    case WipeUpEffect => frame := WipeUp.Render(src, dst, progress);
  }

  /**
   * The frame at progress 1 rendered from images that were not checked first,
   * or None where the renderer throws. A missing source is dereferenced by
   * every renderer that reads it. A missing destination is drawn as nothing,
   * which is the same as drawing a transparent image; the dissolve reads it
   * at every pixel instead, and also fails on a destination smaller than the
   * source.
   */
  function FinalFrame(effect: Effect, src: Option<Image>, dst: Option<Image>): (r: Option<Image>)
    ensures r.Some? <==>
              src.Some? && (effect.PixelDissolveEffect? ==> dst.Some? && Covers(dst.value, src.value))
    ensures r.Some? ==> SameSize(r.value, src.value)
    ensures src.Some? && (effect.PlainEffect? || effect.FreezeEffect?) ==> r == src
    ensures src.Some? && dst.Some? && SameSize(src.value, dst.value) ==>
              r == Some(Frame(effect, src.value, dst.value, 1.0))
  {
    if src.None? then None
    else if dst.None? then
      if effect.PixelDissolveEffect? then None
      else Some(Frame(effect, src.value, Blank(src.value.width, src.value.height), 1.0))
    else if !Renders(effect, src.value, dst.value) then None
    else Some(Frame(effect, src.value, dst.value, 1.0))
  }

  /** Renders the frame at progress 1 without checking the images first. */
  method RenderFinal(effect: Effect, src: Option<Image>, dst: Option<Image>) returns (frame: Option<Image>)
    ensures frame == FinalFrame(effect, src, dst)
  {
    if src.None? || (effect.PixelDissolveEffect? && (dst.None? || !Covers(dst.value, src.value))) {
      return None;
    }
    var back := if dst.Some? then dst.value else Blank(src.value.width, src.value.height);
    var f := Render(effect, src.value, back, 1.0);
    frame := Some(f);
  }
}
