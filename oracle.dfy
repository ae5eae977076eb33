/** Random draws as oracle inputs, and the fatal errors of the engine.

    Every random value the engine uses is read from one stream of drawn
    integers at a position the caller threads through. A uniform draw from
    `lo..hi` maps the raw value into the range; a Gaussian perturbation is the
    raw value itself (the `as i32` truncation of the sample). */
module Oracle {

  /** The stream of raw drawn integers. */
  type Draws = nat -> int

  /** The fatal conditions under which the source panics. */
  datatype Fault =
    | EmptyRange                 // `gen_range(lo..hi)` with `lo >= hi`
    | TooManyMutationAttempts    // a retry-until-valid loop exhausted its budget
    | WrongVertexCount(count: nat)

  datatype Result<T> = Ok(value: T) | Err(fault: Fault)

  /** A uniform draw from the half-open range `lo..hi`. */
  function Uniform(d: int, lo: int, hi: int): (r: int)
    requires lo < hi
    ensures lo <= r < hi
  {
    lo + d % (hi - lo)
  }

  /** Every value of the range is drawn by some raw value. */
  lemma UniformReaches(v: int, lo: int, hi: int)
    requires lo <= v < hi
    ensures Uniform(v - lo, lo, hi) == v
  {
  }

  /** `gen_range(lo..hi)`: panics on an empty range. */
  function GenRange(d: int, lo: int, hi: int): (r: Result<int>)
    ensures r.Ok? <==> lo < hi
    ensures r.Ok? ==> lo <= r.value < hi
    ensures r.Err? ==> r.fault == EmptyRange
  {
    if lo < hi then Ok(Uniform(d, lo, hi)) else Err(EmptyRange)
  }
}
