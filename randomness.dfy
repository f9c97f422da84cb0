/** `random.randint`, modelled as a nondeterministic choice within its bounds. */
module Randomness {
  import opened Wrappers

  /** randint(lo, hi): some integer in the inclusive range [lo, hi];
      ValueError ("empty range") when hi < lo. */
  method RandInt(lo: int, hi: int) returns (r: Result<int, Exception>)
    ensures r.Success? <==> lo <= hi
    ensures r.Success? ==> lo <= r.value <= hi
    ensures r.Failure? ==> r.error == ValueError
  {
    if hi < lo {
      return Failure(ValueError);
    }
    var v :| lo <= v <= hi;
    return Success(v);
  }
}
