/** Facts about real multiplication that the solver does not find unaided. */
module Reals {
  lemma NonNegative(x: real, y: real)
    requires 0.0 <= x && 0.0 <= y
    ensures 0.0 <= x * y
  {
  }
}
