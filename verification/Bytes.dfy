/** Bytes and the raw little-endian integers that the wire formats copy with memcpy. */
module Bytes {

  type byte = x: int | 0 <= x < 256

  type bytes = seq<byte>

  const TWO_16 := 0x1_0000
  const TWO_32 := 0x1_0000_0000
  const TWO_64 := 0x1_0000_0000_0000_0000

  function Pow256(n: nat): (p: nat)
    ensures p > 0
  {
    if n == 0 then 1 else 256 * Pow256(n - 1)
  }

  /** The low `n` bytes of `v`, least significant first. */
  function EncodeLE(v: nat, n: nat): (b: bytes)
    ensures |b| == n
    decreases n, v  // both, so that the verifier does not unfold EncodeLE(v, 8) eight times
  {
    if n == 0 then [] else [v % 256] + EncodeLE(v / 256, n - 1)
  }

  function DecodeLE(b: bytes): (v: nat)
    ensures v < Pow256(|b|)
  {
    if b == [] then 0 else b[0] + 256 * DecodeLE(b[1..])
  }

  lemma {:induction false} DecodeEncodeLE(v: nat, n: nat)
    requires v < Pow256(n)
    ensures DecodeLE(EncodeLE(v, n)) == v
  {
    if n > 0 {
      DecodeEncodeLE(v / 256, n - 1);
      assert EncodeLE(v, n)[1..] == EncodeLE(v / 256, n - 1);
    }
  }

  lemma {:induction false} EncodeDecodeLE(b: bytes)
    ensures EncodeLE(DecodeLE(b), |b|) == b
  {
    if b != [] {
      EncodeDecodeLE(b[1..]);
      var v := DecodeLE(b);
      assert v % 256 == b[0] && v / 256 == DecodeLE(b[1..]);
      assert b == [b[0]] + b[1..];
    }
  }

  lemma Widths()
    ensures Pow256(1) == 256 && Pow256(2) == TWO_16 && Pow256(4) == TWO_32 && Pow256(8) == TWO_64
  {
    assert Pow256(4) == 256 * (256 * (256 * Pow256(1)));
    assert Pow256(8) == 256 * (256 * (256 * (256 * Pow256(4))));
  }

  function Zeros(n: nat): (z: bytes)
    ensures |z| == n && forall i :: 0 <= i < n ==> z[i] == 0
  {
    seq(n, _ => 0)
  }

  lemma ZerosAppend(m: nat, n: nat)
    ensures Zeros(m) + Zeros(n) == Zeros(m + n)
  {
  }

  lemma {:induction false} DecodeZeros(n: nat)
    ensures DecodeLE(Zeros(n)) == 0
  {
    if n > 0 {
      DecodeZeros(n - 1);
      assert Zeros(n)[1..] == Zeros(n - 1);
    }
  }

  /** Zero bytes above the value do not change it. */
  lemma {:induction false} DecodePadded(b: bytes, n: nat)
    ensures DecodeLE(b + Zeros(n)) == DecodeLE(b)
  {
    if b == [] {
      DecodeZeros(n);
      assert b + Zeros(n) == Zeros(n);
    } else {
      DecodePadded(b[1..], n);
      assert (b + Zeros(n))[1..] == b[1..] + Zeros(n);
    }
  }

  lemma AppendAssoc<T>(a: seq<T>, b: seq<T>, c: seq<T>)
    ensures (a + b) + c == a + (b + c)
  {
  }
}
