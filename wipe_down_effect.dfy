/** Slides the destination image over the source from top to bottom. */
module WipeDown {
  import opened Images
  import Wipe

  /**
   * The frame at `progress`: a fresh buffer of the source's size, the whole
   * destination drawn onto it, then the rows of the source from the wipe
   * distance down drawn on top at their own position.
   */
  function Frame(src: Image, dst: Image, progress: real): (r: Image)
    requires 0.0 <= progress <= 1.0
    ensures SameSize(r, src)
  {
    var d := Wipe.Distance(progress, src.height);
    Composite(Composite(Blank(src.width, src.height), dst, 0, 0),
              Subimage(src, 0, d, src.width, src.height - d), 0, d)
  }

  method Render(src: Image, dst: Image, progress: real) returns (frame: Image)
    requires 0.0 <= progress <= 1.0
    ensures frame == Frame(src, dst, progress)
  {
    var buf := NewFrame(src.width, src.height);
    var distance := Wipe.Distance(progress, src.height);
    var sub := Subimage(src, 0, distance, src.width, src.height - distance);
    DrawImage(buf, dst, 0, 0);
    DrawImage(buf, sub, 0, distance);
    frame := Snapshot(buf);
  }

  /** Rows above the wipe distance show the destination; the rest show the source over it. */
  lemma FrameAt(src: Image, dst: Image, progress: real, x: int, y: int)
    requires SameSize(src, dst) && 0.0 <= progress <= 1.0
    requires 0 <= x < src.width && 0 <= y < src.height
    ensures var back := Flatten(At(dst, x, y));
            At(Frame(src, dst, progress), x, y)
            == if y < Wipe.Distance(progress, src.height) then back else Over(At(src, x, y), back)
  {
  }

  /** A row once showing the destination keeps showing it at every later progress. */
  lemma WipedRowsStayWiped(src: Image, dst: Image, p: real, q: real, x: int, y: int)
    requires SameSize(src, dst) && 0.0 <= p <= q <= 1.0
    requires 0 <= x < src.width && 0 <= y < src.height
    requires y < Wipe.Distance(p, src.height)
    ensures At(Frame(src, dst, q), x, y) == Flatten(At(dst, x, y))
  {
    Wipe.DistanceMonotone(p, q, src.height);
    FrameAt(src, dst, q, x, y);
  }

  /** At progress 1 every row but the bottom one shows the destination; the bottom row still shows the source. */
  lemma FinalFrame(src: Image, dst: Image, x: int, y: int)
    requires SameSize(src, dst)
    requires 0 <= x < src.width && 0 <= y < src.height
    ensures var back := Flatten(At(dst, x, y));
            At(Frame(src, dst, 1.0), x, y) == if y < src.height - 1 then back else Over(At(src, x, y), back)
  {
    Wipe.DistanceAtEnds(src.height);
    FrameAt(src, dst, 1.0, x, y);
  }

  /** At progress 0 an opaque source is shown unchanged. */
  lemma FirstFrameIsOpaqueSource(src: Image, dst: Image)
    requires SameSize(src, dst)
    requires forall x, y | 0 <= x < src.width && 0 <= y < src.height :: Opaque(At(src, x, y))
    ensures Frame(src, dst, 0.0) == src
  {
    Wipe.DistanceAtEnds(src.height);
    forall x, y | 0 <= x < src.width && 0 <= y < src.height
      ensures At(Frame(src, dst, 0.0), x, y) == At(src, x, y)
    {
      FrameAt(src, dst, 0.0, x, y);
    }
    SameImage(Frame(src, dst, 0.0), src);
  }
}
