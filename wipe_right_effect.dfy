/** Slides the destination image over the source from left to right. */
module WipeRight {
  import opened Images
  import Wipe

  /**
   * The frame at `progress`: a fresh buffer of the source's size, the whole
   * destination drawn onto it, then the columns of the source from the wipe
   * distance rightwards drawn on top at their own position.
   */
  function Frame(src: Image, dst: Image, progress: real): (r: Image)
    requires 0.0 <= progress <= 1.0
    ensures SameSize(r, src)
  {
    var d := Wipe.Distance(progress, src.width);
    Composite(Composite(Blank(src.width, src.height), dst, 0, 0),
              Subimage(src, d, 0, src.width - d, src.height), d, 0)
  }

  method Render(src: Image, dst: Image, progress: real) returns (frame: Image)
    requires 0.0 <= progress <= 1.0
    ensures frame == Frame(src, dst, progress)
  {
    var buf := NewFrame(src.width, src.height);
    var distance := Wipe.Distance(progress, src.width);
    var sub := Subimage(src, distance, 0, src.width - distance, src.height);
    DrawImage(buf, dst, 0, 0);
    DrawImage(buf, sub, distance, 0);
    frame := Snapshot(buf);
  }

  /** Columns left of the wipe distance show the destination; the rest show the source over it. */
  lemma FrameAt(src: Image, dst: Image, progress: real, x: int, y: int)
    requires SameSize(src, dst) && 0.0 <= progress <= 1.0
    requires 0 <= x < src.width && 0 <= y < src.height
    ensures var back := Flatten(At(dst, x, y));
            At(Frame(src, dst, progress), x, y)
            == if x < Wipe.Distance(progress, src.width) then back else Over(At(src, x, y), back)
  {
  }

  /** A column once showing the destination keeps showing it at every later progress. */
  lemma WipedColumnsStayWiped(src: Image, dst: Image, p: real, q: real, x: int, y: int)
    requires SameSize(src, dst) && 0.0 <= p <= q <= 1.0
    requires 0 <= x < src.width && 0 <= y < src.height
    requires x < Wipe.Distance(p, src.width)
    ensures At(Frame(src, dst, q), x, y) == Flatten(At(dst, x, y))
  {
    Wipe.DistanceMonotone(p, q, src.width);
    FrameAt(src, dst, q, x, y);
  }

  /** At progress 1 every column but the rightmost shows the destination; the rightmost still shows the source. */
  lemma FinalFrame(src: Image, dst: Image, x: int, y: int)
    requires SameSize(src, dst)
    requires 0 <= x < src.width && 0 <= y < src.height
    ensures var back := Flatten(At(dst, x, y));
            At(Frame(src, dst, 1.0), x, y) == if x < src.width - 1 then back else Over(At(src, x, y), back)
  {
    Wipe.DistanceAtEnds(src.width);
    FrameAt(src, dst, 1.0, x, y);
  }

  /** At progress 0 an opaque source is shown unchanged. */
  lemma FirstFrameIsOpaqueSource(src: Image, dst: Image)
    requires SameSize(src, dst)
    requires forall x, y | 0 <= x < src.width && 0 <= y < src.height :: Opaque(At(src, x, y))
    ensures Frame(src, dst, 0.0) == src
  {
    Wipe.DistanceAtEnds(src.width);
    forall x, y | 0 <= x < src.width && 0 <= y < src.height
      ensures At(Frame(src, dst, 0.0), x, y) == At(src, x, y)
    {
      FrameAt(src, dst, 0.0, x, y);
    }
    SameImage(Frame(src, dst, 0.0), src);
  }
}
