/** Searches over a range of positions, used for the regex engine's choices:
    the leftmost start at which a pattern matches, and the longest greedy
    group that still lets the rest of the pattern match. */
module Scan {
  import opened Wrappers

  /** The greatest `y` with `lo < y <= hi` and `p(y)`, if any. */
  function LastIn(p: nat -> bool, lo: nat, hi: nat): (r: Option<nat>)
    ensures r.Some? ==> lo < r.value <= hi && p(r.value)
    ensures r.Some? ==> forall y :: r.value < y <= hi ==> !p(y)
    ensures r.None? ==> forall y :: lo < y <= hi ==> !p(y)
    decreases hi
  {
    if hi <= lo then None
    else if p(hi) then Some(hi)
    else LastIn(p, lo, hi - 1)
  }

  /** The least `y` with `lo <= y < hi` and `p(y)`, if any. */
  function FirstIn(p: nat -> bool, lo: nat, hi: nat): (r: Option<nat>)
    ensures r.Some? ==> lo <= r.value < hi && p(r.value)
    ensures r.Some? ==> forall y :: lo <= y < r.value ==> !p(y)
    ensures r.None? ==> forall y :: lo <= y < hi ==> !p(y)
    decreases hi - lo
  {
    if hi <= lo then None
    else if p(lo) then Some(lo)
    else FirstIn(p, lo + 1, hi)
  }
}
