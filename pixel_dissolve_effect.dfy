/** Cross-dissolve from source to destination by replacing source pixels with destination pixels at random. */
module PixelDissolve {
  import opened Images

  /** One value of the generator's stream: `nextInt(101)` lies in 0..100. */
  type Draw = x: int | 0 <= x <= 100

  /**
   * A pixel takes the destination when its draw is at most this value:
   * the truncated `100 * progress`, but never below 1.
   */
  function Threshold(progress: real): (t: int)
    requires 0.0 <= progress <= 1.0
    ensures 1 <= t <= 100
    ensures t >= (100.0 * progress).Floor
  {
    var scaled := (100.0 * progress).Floor;
    if 1 >= scaled then 1 else scaled
  }

  /** Pixels are visited column by column, so (x, y) consumes draw number x * height + y. */
  function DrawIndex(x: int, y: int, height: int): (k: nat)
    requires 0 <= x && 0 <= y < height
  {
    x * height + y
  }

  /**
   * The pixel at (x, y) of the frame at `progress`, where `draws` is the stream
   * of a generator freshly seeded with 0 (the same stream at every render).
   */
  function PixelAt(src: Image, dst: Image, progress: real, draws: nat -> Draw, x: int, y: int): (p: Pixel)
    requires Covers(dst, src) && 0.0 <= progress <= 1.0
    requires 0 <= x < src.width && 0 <= y < src.height
    ensures p == At(dst, x, y) || p == At(src, x, y)
  {
    if draws(DrawIndex(x, y, src.height)) <= Threshold(progress) then At(dst, x, y) else At(src, x, y)
  }

  /**
   * The frame at `progress`, of the source's size. The destination is read at
   * the same coordinates, so it must be at least as large as the source.
   */
  function Frame(src: Image, dst: Image, progress: real, draws: nat -> Draw): (r: Image)
    requires Covers(dst, src) && 0.0 <= progress <= 1.0
    ensures SameSize(r, src)
    ensures forall x, y | 0 <= x < src.width && 0 <= y < src.height ::
              At(r, x, y) == PixelAt(src, dst, progress, draws, x, y)
  {
    Raster(src.width, src.height,
           seq(src.height, y requires 0 <= y < src.height =>
             seq(src.width, x requires 0 <= x < src.width => PixelAt(src, dst, progress, draws, x, y))))
  }

  /** Renders into a fresh buffer, drawing once per pixel, x outer and y inner, and copying the chosen pixel. */
  method Render(src: Image, dst: Image, progress: real, draws: nat -> Draw) returns (frame: Image)
    requires Covers(dst, src) && 0.0 <= progress <= 1.0
    ensures frame == Frame(src, dst, progress, draws)
  {
    var w, h := src.width, src.height;
    var buf := NewFrame(w, h);
    var k: nat := 0;
    var x := 0;
    while x < w
      invariant 0 <= x <= w
      invariant k == x * h
      invariant forall j, i | 0 <= j < h && 0 <= i < w && i < x ::
                  buf[j, i] == PixelAt(src, dst, progress, draws, i, j)
    {
      var y := 0;
      while y < h
        invariant 0 <= y <= h
        invariant k == x * h + y
        invariant forall j, i | 0 <= j < h && 0 <= i < w && (i < x || (i == x && j < y)) ::
                    buf[j, i] == PixelAt(src, dst, progress, draws, i, j)
      {
        var rgb := if draws(k) <= Threshold(progress) then At(dst, x, y) else At(src, x, y);
        buf[y, x] := rgb;
        k := k + 1;
        y := y + 1;
      }
      x := x + 1;
    }
    frame := Snapshot(buf);
    SameImage(frame, Frame(src, dst, progress, draws));
  }

  /** Every pixel of a frame is the destination's pixel or the source's pixel at the same place, as its draw decides. */
  lemma PixelFromSourceOrDestination(src: Image, dst: Image, draws: nat -> Draw, p: real, x: int, y: int)
    requires Covers(dst, src) && 0.0 <= p <= 1.0
    requires 0 <= x < src.width && 0 <= y < src.height
    ensures draws(DrawIndex(x, y, src.height)) <= Threshold(p) ==> At(Frame(src, dst, p, draws), x, y) == At(dst, x, y)
    ensures draws(DrawIndex(x, y, src.height)) > Threshold(p) ==> At(Frame(src, dst, p, draws), x, y) == At(src, x, y)
  {
  }

  /** The threshold never decreases as progress grows. */
  lemma ThresholdMonotone(p: real, q: real)
    requires 0.0 <= p <= q <= 1.0
    ensures Threshold(p) <= Threshold(q)
  {
    assert 100.0 * p <= 100.0 * q;
  }

  /** Nothing un-dissolves: a pixel whose draw admits the destination at p shows it at every later progress. */
  lemma DissolvedStaysDissolved(src: Image, dst: Image, draws: nat -> Draw, p: real, q: real, x: int, y: int)
    requires Covers(dst, src) && 0.0 <= p <= q <= 1.0
    requires 0 <= x < src.width && 0 <= y < src.height
    requires draws(DrawIndex(x, y, src.height)) <= Threshold(p)
    ensures At(Frame(src, dst, q, draws), x, y) == At(dst, x, y)
  {
    ThresholdMonotone(p, q);
  }

  /** At progress 0 the threshold is already 1: pixels drawing 0 or 1 show the destination in the first frame. */
  lemma FirstFrame(src: Image, dst: Image, draws: nat -> Draw, x: int, y: int)
    requires Covers(dst, src)
    requires 0 <= x < src.width && 0 <= y < src.height
    ensures Threshold(0.0) == 1
    ensures At(Frame(src, dst, 0.0, draws), x, y)
            == if draws(DrawIndex(x, y, src.height)) <= 1 then At(dst, x, y) else At(src, x, y)
  {
  }

  /**
   * At progress 1 every draw is admitted, so the frame is the destination cut
   * to the source's size: exactly the destination when the two have one size.
   */
  lemma LastFrameIsDestination(src: Image, dst: Image, draws: nat -> Draw)
    requires Covers(dst, src)
    ensures Frame(src, dst, 1.0, draws) == Subimage(dst, 0, 0, src.width, src.height)
    ensures SameSize(src, dst) ==> Frame(src, dst, 1.0, draws) == dst
  {
    assert Threshold(1.0) == 100;
    SameImage(Frame(src, dst, 1.0, draws), Subimage(dst, 0, 0, src.width, src.height));
    if SameSize(src, dst) {
      SameImage(Subimage(dst, 0, 0, src.width, src.height), dst);
    }
  }
}
