/** Bytes, as the codecs and scanners see them. */
module Bytes {
  newtype byte = x: int | 0 <= x < 256

  /** `m` stands at position `p` of `s`. */
  predicate At(s: seq<byte>, m: seq<byte>, p: nat) {
    p + |m| <= |s| && forall i :: p <= i < p + |m| ==> s[i] == m[i - p]
  }

  ghost predicate Occurs(s: seq<byte>, m: seq<byte>) { exists p: nat :: At(s, m, p) }
}
