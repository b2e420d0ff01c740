/** Monotonicity of multiplication by a non-negative real, which the
    solver does not find on its own in the ratio arguments. */
module Arith {
  lemma MulMono(a: real, b: real, c: real)
    requires a <= b && c >= 0.0
    ensures a * c <= b * c
  {
  }

  lemma MulStrict(a: real, b: real, c: real)
    requires a < b && c > 0.0
    ensures a * c < b * c
  {
  }
}
