/** The `rows.filter(p).length` counts of the statistics queries. */
module Tally {

  /** How many elements of `xs` satisfy `p`. */
  function CountWhere<T>(xs: seq<T>, p: T -> bool): (n: nat)
    ensures n <= |xs|
  {
    if xs == [] then 0 else (if p(xs[0]) then 1 else 0) + CountWhere(xs[1..], p)
  }
}
