/** Rust's `Iterator::zip`: pairs elements position by position and stops at
    the end of the shorter input. */
module Zipping {

  function Min(a: int, b: int): int { if a <= b then a else b }

  function Zip<A, B>(a: seq<A>, b: seq<B>): (r: seq<(A, B)>)
    ensures |r| == Min(|a|, |b|)
    ensures forall k :: 0 <= k < |r| ==> r[k] == (a[k], b[k])
  {
    if a == [] || b == [] then [] else [(a[0], b[0])] + Zip(a[1..], b[1..])
  }
}
