/** The wipe distance shared by the three wipe renderers. */
module Wipe {

  /** Scaling an edge length by a progress in [0, 1] stays in [0, dim] and preserves order. */
  lemma ScaleBounds(p: real, q: real, dim: int)
    requires 0.0 <= p <= q <= 1.0 && dim >= 1
    ensures 0.0 <= p * dim as real <= q * dim as real <= dim as real
  {
    var n := dim as real;
    assert (q - p) * n >= 0.0;
    assert (1.0 - q) * n >= 0.0;
    assert p * n >= 0.0;
  }

  /**
   * How far a wipe has advanced along an edge of `dim` pixels at `progress`:
   * the truncated product `progress * dim`, held below `dim` so that the part of
   * the source still to be drawn is never empty.
   */
  function Distance(progress: real, dim: int): (d: int)
    requires 0.0 <= progress <= 1.0 && dim >= 1
    ensures 0 <= d <= dim - 1
    ensures d <= (progress * dim as real).Floor
  {
    ScaleBounds(progress, progress, dim);
    var reached := (progress * dim as real).Floor;
    if dim - 1 <= reached then dim - 1 else reached
  }

  /** A wipe never moves backwards as progress grows. */
  lemma DistanceMonotone(p: real, q: real, dim: int)
    requires 0.0 <= p <= q <= 1.0 && dim >= 1
    ensures Distance(p, dim) <= Distance(q, dim)
  {
    ScaleBounds(p, q, dim);
  }

  /** At progress 0 nothing is wiped; at progress 1 every line but the last is. */
  lemma DistanceAtEnds(dim: int)
    requires dim >= 1
    ensures Distance(0.0, dim) == 0
    ensures Distance(1.0, dim) == dim - 1
  {
  }
}
