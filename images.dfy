/**
 * Pixels, images and the two drawing primitives every renderer is built from:
 * a freshly allocated ARGB frame buffer (all pixels transparent) and
 * `drawImage`, which composites one image onto a buffer at an offset,
 * clipped to the buffer, with the source-over rule.
 */
module Images {

  type Channel = x: int | 0 <= x < 256

  /** A non-premultiplied ARGB pixel, as stored by an ARGB buffer. */
  datatype Pixel = Argb(alpha: Channel, red: Channel, green: Channel, blue: Channel)

  /** The pixel a fresh ARGB buffer holds everywhere. */
  const Clear: Pixel := Argb(0, 0, 0, 0)

  predicate Opaque(p: Pixel) {
    p.alpha == 255
  }

  function Clamp(v: int): Channel {
    if v < 0 then 0 else if v > 255 then 255 else v
  }

  /** Mix of two translucent pixels; a stand-in for the blending arithmetic of the graphics library. */
  function Blend(top: Pixel, bottom: Pixel): Pixel {
    var a := Clamp(top.alpha + bottom.alpha * (255 - top.alpha) / 255);
    if a == 0 then Clear
    else
      Argb(a,
           Clamp((top.red * top.alpha + bottom.red * bottom.alpha * (255 - top.alpha) / 255) / a),
           Clamp((top.green * top.alpha + bottom.green * bottom.alpha * (255 - top.alpha) / 255) / a),
           Clamp((top.blue * top.alpha + bottom.blue * bottom.alpha * (255 - top.alpha) / 255) / a))
  }

  /**
   * Source-over compositing of `top` onto `bottom`. Only three laws are relied
   * on: an opaque top hides the bottom, a fully transparent top leaves the
   * bottom, and a top drawn onto a transparent pixel is kept as is. The first
   * two are exact; the third idealises 8-bit premultiplied compositing, which
   * can shift the channels of a translucent pixel.
   */
  function Over(top: Pixel, bottom: Pixel): (r: Pixel)
    ensures Opaque(top) ==> r == top
    ensures top.alpha == 0 ==> r == bottom
    ensures top.alpha != 0 && bottom.alpha == 0 ==> r == top
  {
    if top.alpha == 0 then bottom
    else if Opaque(top) || bottom.alpha == 0 then top
    else Blend(top, bottom)
  }

  /** What a pixel becomes when drawn onto a fresh (transparent) buffer. */
  function Flatten(p: Pixel): (r: Pixel)
    ensures p.alpha != 0 ==> r == p
    ensures p.alpha == 0 ==> r == Clear
  {
    Over(p, Clear)
  }

  /** A width x height grid of pixels, stored row by row: `rows[y][x]`. */
  datatype Raster = Raster(width: int, height: int, rows: seq<seq<Pixel>>)

  predicate Wellformed(r: Raster) {
    && r.width >= 1 && r.height >= 1
    && |r.rows| == r.height
    && forall y | 0 <= y < r.height :: |r.rows[y]| == r.width
  }

  /** An image: never empty, as an image buffer cannot have a zero width or height. */
  type Image = r: Raster | Wellformed(r) witness Raster(1, 1, [[Clear]])

  function At(img: Image, x: int, y: int): Pixel
    requires 0 <= x < img.width && 0 <= y < img.height
  {
    img.rows[y][x]
  }

  predicate SameSize(a: Image, b: Image) {
    a.width == b.width && a.height == b.height
  }

  /** Two images of one size that agree on every pixel are the same image. */
  lemma SameImage(a: Image, b: Image)
    requires SameSize(a, b)
    requires forall x, y | 0 <= x < a.width && 0 <= y < a.height :: At(a, x, y) == At(b, x, y)
    ensures a == b
  {
    forall y | 0 <= y < a.height
      ensures a.rows[y] == b.rows[y]
    {
      assert forall x | 0 <= x < a.width :: a.rows[y][x] == At(a, x, y);
    }
  }

  /** A fresh ARGB image: transparent everywhere. */
  function Blank(width: int, height: int): (r: Image)
    requires width >= 1 && height >= 1
    ensures r.width == width && r.height == height
    ensures forall x, y | 0 <= x < width && 0 <= y < height :: At(r, x, y) == Clear
  {
    Raster(width, height, seq(height, y => seq(width, x => Clear)))
  }

  /** The sub-image of `img` with its top-left corner at (x, y); it must lie inside `img`. */
  function Subimage(img: Image, x: int, y: int, w: int, h: int): (r: Image)
    requires 0 <= x && 0 <= y && w >= 1 && h >= 1
    requires x + w <= img.width && y + h <= img.height
    ensures r.width == w && r.height == h
    ensures forall i, j | 0 <= i < w && 0 <= j < h :: At(r, i, j) == At(img, x + i, y + j)
  {
    Raster(w, h, seq(h, j requires 0 <= j < h => img.rows[y + j][x .. x + w]))
  }

  /** The pixel at (x, y) of `canvas` after `img` is drawn onto it with its origin at (ox, oy). */
  function CompositeAt(canvas: Image, img: Image, ox: int, oy: int, x: int, y: int): Pixel
    requires 0 <= x < canvas.width && 0 <= y < canvas.height
  {
    if ox <= x < ox + img.width && oy <= y < oy + img.height
    then Over(At(img, x - ox, y - oy), At(canvas, x, y))
    else At(canvas, x, y)
  }

  /** `canvas` after drawing `img` at (ox, oy): covered pixels are composited, the rest are kept. */
  function Composite(canvas: Image, img: Image, ox: int, oy: int): (r: Image)
    ensures SameSize(r, canvas)
    ensures forall x, y | 0 <= x < canvas.width && 0 <= y < canvas.height ::
              At(r, x, y) == CompositeAt(canvas, img, ox, oy, x, y)
  {
    Raster(canvas.width, canvas.height,
           seq(canvas.height, y requires 0 <= y < canvas.height =>
             seq(canvas.width, x requires 0 <= x < canvas.width => CompositeAt(canvas, img, ox, oy, x, y))))
  }

  /** `a` is at least as wide and as tall as `b`: every pixel position of `b` lies inside `a`. */
  predicate Covers(a: Image, b: Image) {
    a.width >= b.width && a.height >= b.height
  }

  /** Drawing a fully transparent image changes nothing; this is also what drawing a null image does. */
  lemma DrawingBlankChangesNothing(canvas: Image, width: int, height: int, ox: int, oy: int)
    requires width >= 1 && height >= 1
    ensures Composite(canvas, Blank(width, height), ox, oy) == canvas
  {
    SameImage(Composite(canvas, Blank(width, height), ox, oy), canvas);
  }

  /** The image a frame buffer (indexed [y, x]) currently holds. */
  function Snapshot(buf: array2<Pixel>): (r: Image)
    requires buf.Length0 >= 1 && buf.Length1 >= 1
    reads buf
    ensures r.width == buf.Length1 && r.height == buf.Length0
    ensures forall x, y | 0 <= x < buf.Length1 && 0 <= y < buf.Length0 :: At(r, x, y) == buf[y, x]
  {
    Raster(buf.Length1, buf.Length0,
           seq(buf.Length0, y requires 0 <= y < buf.Length0 reads buf =>
             seq(buf.Length1, x requires 0 <= x < buf.Length1 reads buf => buf[y, x])))
  }

  /** Allocates a width x height ARGB frame buffer; every pixel starts transparent. */
  method NewFrame(width: int, height: int) returns (buf: array2<Pixel>)
    requires width >= 1 && height >= 1
    ensures fresh(buf)
    ensures buf.Length0 == height && buf.Length1 == width
    ensures Snapshot(buf) == Blank(width, height)
  {
    buf := new Pixel[height, width]((y, x) => Clear);
    SameImage(Snapshot(buf), Blank(width, height));
  }

  /** Draws `img` onto the buffer with its origin at (ox, oy), clipped to the buffer. */
  method DrawImage(buf: array2<Pixel>, img: Image, ox: int, oy: int)
    requires buf.Length0 >= 1 && buf.Length1 >= 1
    modifies buf
    ensures Snapshot(buf) == Composite(old(Snapshot(buf)), img, ox, oy)
  {
    ghost var before := Snapshot(buf);
    var h, w := buf.Length0, buf.Length1;
    var y := 0;
    while y < h
      invariant 0 <= y <= h
      invariant forall j, i | 0 <= j < h && 0 <= i < w ::
                  buf[j, i] == if j < y then CompositeAt(before, img, ox, oy, i, j) else At(before, i, j)
    {
      var x := 0;
      while x < w
        invariant 0 <= x <= w
        invariant forall j, i | 0 <= j < h && 0 <= i < w ::
                    buf[j, i] == if j < y || (j == y && i < x) then CompositeAt(before, img, ox, oy, i, j)
                                 else At(before, i, j)
      {
        if ox <= x < ox + img.width && oy <= y < oy + img.height {
          buf[y, x] := Over(At(img, x - ox, y - oy), buf[y, x]);
        }
        x := x + 1;
      }
      y := y + 1;
    }
    SameImage(Snapshot(buf), Composite(before, img, ox, oy));
  }
  /** A paint: the colour it gives each pixel of a filled area (solid, gradient or texture alike). */
  datatype Paint = Paint(colorAt: (int, int) -> Pixel)

  /** The pixel at (x, y) of `canvas` after it is filled with `paint`. */
  function FillAt(canvas: Image, paint: Paint, x: int, y: int): Pixel
    requires 0 <= x < canvas.width && 0 <= y < canvas.height
  {
    Over(paint.colorAt(x, y), At(canvas, x, y))
  }

  /** `canvas` after filling all of it with `paint`, each painted pixel composited source-over. */
  function Fill(canvas: Image, paint: Paint): (r: Image)
    ensures SameSize(r, canvas)
    ensures forall x, y | 0 <= x < canvas.width && 0 <= y < canvas.height ::
              At(r, x, y) == FillAt(canvas, paint, x, y)
  {
    Raster(canvas.width, canvas.height,
           seq(canvas.height, y requires 0 <= y < canvas.height =>
             seq(canvas.width, x requires 0 <= x < canvas.width => FillAt(canvas, paint, x, y))))
  }

  /** Fills the whole buffer with `paint`. */
  method FillRect(buf: array2<Pixel>, paint: Paint)
    requires buf.Length0 >= 1 && buf.Length1 >= 1
    modifies buf
    ensures Snapshot(buf) == Fill(old(Snapshot(buf)), paint)
  {
    ghost var before := Snapshot(buf);
    var h, w := buf.Length0, buf.Length1;
    var y := 0;
    while y < h
      invariant 0 <= y <= h
      invariant forall j, i | 0 <= j < h && 0 <= i < w ::
                  buf[j, i] == if j < y then FillAt(before, paint, i, j) else At(before, i, j)
    {
      var x := 0;
      while x < w
        invariant 0 <= x <= w
        invariant forall j, i | 0 <= j < h && 0 <= i < w ::
                    buf[j, i] == if j < y || (j == y && i < x) then FillAt(before, paint, i, j)
                                 else At(before, i, j)
      {
        buf[y, x] := Over(paint.colorAt(x, y), buf[y, x]);
        x := x + 1;
      }
      y := y + 1;
    }
    SameImage(Snapshot(buf), Fill(before, paint));
  }
}
