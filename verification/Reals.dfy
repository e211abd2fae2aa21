/** Exact reals and vectors of them. */
module Reals {
  type Vec = seq<real>

  function Abs(x: real): real {
    if x >= 0.0 then x else -x
  }

  /** The sum of products over the components both vectors have. */
  function Dot(a: Vec, b: Vec): real {
    if a == [] || b == [] then 0.0 else a[0] * b[0] + Dot(a[1..], b[1..])
  }
}
