/** The half-open integer range `std::views::iota(lo, hi)`, used by two of the
    items to build their vectors. */
module Ranges {

  /** The values lo, lo + 1, ..., hi - 1 in increasing order. `iota(lo, hi)`
      requires its bound to be reachable from its start. */
  function Iota(lo: int, hi: int): (r: seq<int>)
    requires lo <= hi
    ensures |r| == hi - lo
    ensures forall k :: 0 <= k < |r| ==> r[k] == lo + k
    decreases hi - lo
  {
    if lo == hi then [] else [lo] + Iota(lo + 1, hi)
  }
}
