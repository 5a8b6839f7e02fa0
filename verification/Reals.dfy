/** Signs of products, where the solver needs to be told. */
module Reals {
  lemma Product(a: real, b: real)
    requires b >= 0.0
    ensures a >= 0.0 ==> a * b >= 0.0
    ensures a > 0.0 && b > 0.0 ==> a * b > 0.0
  {}
}
