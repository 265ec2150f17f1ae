/** The per-frame screen wrap applied to every node, one axis at a time. */
module Wrap {

  /** One axis of the wrap, from the coordinate `p` read before the frame changes
      anything, the node's extent `size` on that axis and the scene's extent `limit`.
      A node more than its own size past the far edge moves to `-size`; a node more
      than its own size before the near edge moves to `limit + size / 2` (this test
      comes second, so it wins when both hold). The boundary values themselves stay. */
  function WrapCoord(p: real, size: real, limit: real): (r: real)
    ensures -size <= p <= limit + size ==> r == p
    ensures p < -size ==> r == limit + size / 2.0
    ensures p - size > limit && -size <= p ==> r == -size
  {
    var afterFar := if p - size > limit then -size else p;
    if p < -size then limit + size / 2.0 else afterFar
  }

  /** With a non-negative node size and scene extent, a wrapped coordinate lies in
      the band that the wrap leaves alone, so wrapping again changes nothing. */
  lemma WrapLandsInBand(p: real, size: real, limit: real)
    requires 0.0 <= size && 0.0 <= limit
    ensures -size <= WrapCoord(p, size, limit) <= limit + size
    ensures WrapCoord(WrapCoord(p, size, limit), size, limit) == WrapCoord(p, size, limit)
  {
  }
}
