/** The host's `Math.random()` as an oracle: an infinite stream of draws in [0, 1),
    consumed one draw per call, in the order the program makes its calls. */
module Randomness {

  /** One outcome of `Math.random()`. */
  type Draw = r: real | 0.0 <= r < 1.0

  /** The stream of outcomes and the position of the next one to be consumed. */
  datatype Rng = Rng(source: nat -> Draw, next: nat)
  {
    /** The next outcome. */
    function Peek(): Draw { source(next) }

    /** The stream after `n` more outcomes have been consumed. */
    function Skip(n: nat): (r: Rng)
      ensures r.source == source && r.next == next + n
    {
      Rng(source, next + n)
    }
  }

  /** `Math.floor(r * n)`: the index `Math.random()` picks from a list of length `n`. */
  function Pick(r: Draw, n: nat): (k: nat)
    requires n > 0
    ensures k < n
    ensures k as real <= r * n as real < k as real + 1.0
  {
    ScaleBelow(r, n as real);
    (r * n as real).Floor
  }

  /** `lo + r * width`, the source's idiom for a uniform value in [lo, lo + width). */
  function Spread(lo: real, width: real, r: Draw): (v: real)
    requires width > 0.0
    ensures lo <= v < lo + width
  {
    ScaleBelow(r, width);
    lo + r * width
  }

  /** A draw scales a positive width to a value inside [0, width). */
  lemma ScaleBelow(r: Draw, w: real)
    requires w > 0.0
    ensures 0.0 <= r * w < w
  {
  }
}
