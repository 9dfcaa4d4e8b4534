/** A no-op transition that renders the source image. */
module Plain {
  import opened Images

  /** The source itself, whatever the destination and the progress. */
  function Render(src: Image, dst: Image, progress: real): Image {
    src
  }

  /** Neither the destination nor the progress affects the frame, so even the last frame is the source. */
  lemma IgnoresDestinationAndProgress(src: Image, dst1: Image, dst2: Image, p: real, q: real)
    ensures Render(src, dst1, p) == Render(src, dst2, q) == src
    ensures Render(src, dst1, 1.0) == src
  {
  }
}
