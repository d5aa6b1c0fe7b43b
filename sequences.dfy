/** Facts about slices of concatenations, shared by the generated lists and the packed buffer. */
module Sequences {

  /** A block of w floats appended after lo floats is the slice [lo, lo + w) of the result. */
  lemma ConcatRight(a: seq<real>, b: seq<real>, lo: nat, w: nat)
    requires |a| == lo && |b| == w
    ensures (a + b)[lo..lo + w] == b
  {
  }
}
