/** Bytes and the few functions on byte strings that the archive readers share. */
module Bytes {

  type Byte = b: int | 0 <= b < 256

  type Bytes = seq<Byte>

  const SLASH: Byte := 47
  const DOT: Byte := 46
  const BACKSLASH: Byte := 92

  predicate AllZero(s: Bytes) {
    forall i | 0 <= i < |s| :: s[i] == 0
  }

  function Zeros(n: nat): (r: Bytes)
    ensures |r| == n && AllZero(r)
  {
    seq(n, _ => 0)
  }

  function Sum(s: Bytes): nat {
    if s == [] then 0 else Sum(s[..|s| - 1]) + s[|s| - 1]
  }

  lemma {:induction false} SumAppends(s: Bytes, t: Bytes)
    ensures Sum(s + t) == Sum(s) + Sum(t)
  {
    if t == [] {
      assert s + t == s;
    } else {
      assert (s + t)[..|s + t| - 1] == s + t[..|t| - 1];
      SumAppends(s, t[..|t| - 1]);
    }
  }

  const BLOCK: nat := 512

  /** Bytes missing up to a multiple of four: Python's `(-size) % 4`. */
  function PaddingFor(size: nat): (r: nat)
    ensures r < 4 && (size + r) % 4 == 0
  {
    (0 - size) % 4
  }

  /** Bytes missing up to a multiple of a tar block. */
  function BlockPadding(size: nat): (r: nat)
    ensures r < BLOCK && (size + r) % BLOCK == 0
  {
    (0 - size) % BLOCK
  }
}
