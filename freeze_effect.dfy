/** A transition that holds the source image for the whole run. */
module Freeze {
  import opened Images
  import Plain

  /** The source itself, whatever the destination and the progress. */
  function Render(src: Image, dst: Image, progress: real): Image {
    src
  }

  /** Freezing and the plain transition render the same frame for every input. */
  lemma SameAsPlain(src: Image, dst: Image, progress: real)
    ensures Render(src, dst, progress) == Plain.Render(src, dst, progress) == src
  {
  }
}
