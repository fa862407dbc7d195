/** Bytes and fixed-width big-endian words. */
module Bytes {

  type byte = b: int | 0 <= b < 256

  /** The range of Rust's `u64`. */
  type u64 = n: nat | n < 0x1_0000_0000_0000_0000

  /** 256^k, the number of values that fit in k bytes. */
  function Pow256(k: nat): (p: nat)
    ensures p >= 1
  {
    if k == 0 then 1 else 256 * Pow256(k - 1)
  }

  /** 2^256, the number of values of a 32-byte word. */
  const WORD_BOUND: nat := 0x1_0000000000000000000000000000000000000000000000000000000000000000

  lemma WordBoundIsPow256()
    ensures Pow256(32) == WORD_BOUND
  {
    assert Pow256(8) == 0x1_0000_0000_0000_0000;
    assert Pow256(16) == 0x1_0000_0000_0000_0000_0000_0000_0000_0000;
    assert Pow256(24) == 0x1_0000_0000_0000_0000_0000_0000_0000_0000_0000_0000_0000_0000;
  }

  /** The `len` low-order bytes of `n`, most significant byte first. */
  function BigEndian(n: nat, len: nat): (r: seq<byte>)
    ensures |r| == len
  {
    if len == 0 then [] else BigEndian(n / 256, len - 1) + [n % 256]
  }

  /** The unsigned number whose big-endian representation is `bs`. */
  function ValueOf(bs: seq<byte>): nat
  {
    if bs == [] then 0 else ValueOf(bs[..|bs| - 1]) * 256 + bs[|bs| - 1]
  }

  lemma {:induction false} ValueOfBigEndian(n: nat, len: nat)
    requires n < Pow256(len)
    ensures ValueOf(BigEndian(n, len)) == n
  {
    if len > 0 {
      var bs := BigEndian(n, len);
      assert bs[..len - 1] == BigEndian(n / 256, len - 1);
      ValueOfBigEndian(n / 256, len - 1);
    }
  }

  lemma {:induction false} ValueOfBound(bs: seq<byte>)
    ensures ValueOf(bs) < Pow256(|bs|)
  {
    if bs != [] {
      ValueOfBound(bs[..|bs| - 1]);
    }
  }

  /** A value below 256^k occupies only the last k bytes of its representation. */
  lemma {:induction false} LeadingZeros(n: nat, len: nat, k: nat)
    requires n < Pow256(k) && k <= len
    ensures forall i :: 0 <= i < len - k ==> BigEndian(n, len)[i] == 0
  {
    if k < len {
      var bs := BigEndian(n, len);
      if k == 0 {
        LeadingZeros(n / 256, len - 1, 0);
      } else {
        LeadingZeros(n / 256, len - 1, k - 1);
      }
      forall i | 0 <= i < len - k ensures bs[i] == 0 {
        if i < len - 1 {
          assert bs[i] == BigEndian(n / 256, len - 1)[i];
        }
      }
    }
  }

  function Zeros(n: nat): (r: seq<byte>)
    ensures |r| == n && forall i :: 0 <= i < n ==> r[i] == 0
  {
    seq(n, _ => 0)
  }

  /** `e` appears in `r` starting at position `p`. */
  predicate Occurs(r: seq<byte>, p: nat, e: seq<byte>)
  {
    p + |e| <= |r| && r[p..p + |e|] == e
  }

  lemma OccursMove(r: seq<byte>, p1: nat, p2: nat, e1: seq<byte>, e2: seq<byte>)
    requires p1 == p2 && e1 == e2 && Occurs(r, p1, e1)
    ensures Occurs(r, p2, e2)
  {
  }

  lemma OccursSplit(r: seq<byte>, p: nat, x: seq<byte>, y: seq<byte>)
    requires Occurs(r, p, x + y)
    ensures Occurs(r, p, x) && Occurs(r, p + |x|, y)
  {
    assert r[p..p + |x|] == (x + y)[..|x|];
    assert r[p + |x|..p + |x| + |y|] == (x + y)[|x|..];
  }
}
