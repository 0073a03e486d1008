/** Bytes, 32-byte digests, and the two integer readings of a byte string. */
module Bytes {
  type Byte = b: nat | b < 256

  type Digest = d: seq<Byte> | |d| == 32 witness seq(32, _ => 0)

  function ZeroDigest(): Digest { seq(32, _ => 0) }

  /** The 256-bit and 32-bit machine words the contract computes with. */
  type U256 = x: nat | x < TWO_256

  type U32 = x: nat | x < 0x1_0000_0000

  const TWO_256: nat := 0x1_00000000_00000000_00000000_00000000_00000000_00000000_00000000_00000000

  /** 256 to the power `n`. */
  function Pow256(n: nat): (p: nat)
    ensures p > 0
  {
    if n == 0 then 1 else 256 * Pow256(n - 1)
  }

  lemma {:induction false} PowAdd(a: nat, b: nat)
    ensures Pow256(a + b) == Pow256(a) * Pow256(b)
  {
    if a != 0 {
      PowAdd(a - 1, b);
    }
  }

  lemma {:induction false} PowMonotone(a: nat, b: nat)
    requires a <= b
    ensures Pow256(a) <= Pow256(b)
  {
    if a < b {
      PowMonotone(a, b - 1);
    }
  }

  lemma PowValues()
    ensures Pow256(1) == 0x100 && Pow256(2) == 0x1_0000 && Pow256(3) == 0x100_0000
    ensures Pow256(4) == 0x1_0000_0000
  {
    assert Pow256(1) == 256 * Pow256(0);
    assert Pow256(2) == 256 * Pow256(1);
    assert Pow256(3) == 256 * Pow256(2);
    assert Pow256(4) == 256 * Pow256(3);
  }

  /** Stated for a variable so that the solver does not unfold the power. */
  lemma PowOf32(n: nat)
    requires n == 32
    ensures Pow256(n) == TWO_256
  {
    hide Pow256;
    PowValues();
    PowAdd(4, 4);
    PowAdd(8, 8);
    PowAdd(16, n - 16);
  }

  /** The integer a byte string spells most significant byte first. */
  function BigEndian(s: seq<Byte>): (v: nat)
    ensures v < Pow256(|s|)
  {
    if s == [] then 0 else 256 * BigEndian(s[..|s| - 1]) + s[|s| - 1]
  }

  /** The integer a byte string spells least significant byte first. */
  function LittleEndian(s: seq<Byte>): (v: nat)
    ensures v < Pow256(|s|)
  {
    if s == [] then 0 else s[0] + 256 * LittleEndian(s[1..])
  }

  /** `n` bytes that spell `v` least significant byte first. */
  function EncodeLE(v: nat, n: nat): (s: seq<Byte>)
    ensures |s| == n
  {
    if n == 0 then [] else [v % 256] + EncodeLE(v / 256, n - 1)
  }

  lemma {:induction false} EncodeDecode(v: nat, n: nat)
    requires v < Pow256(n)
    ensures LittleEndian(EncodeLE(v, n)) == v
  {
    if n > 0 {
      EncodeDecode(v / 256, n - 1);
      assert EncodeLE(v, n)[1..] == EncodeLE(v / 256, n - 1);
    }
  }

  function Reversed(s: seq<Byte>): (r: seq<Byte>)
    ensures |r| == |s|
  {
    if s == [] then [] else Reversed(s[1..]) + [s[0]]
  }

  lemma {:induction false} ReversedAt(s: seq<Byte>, k: nat)
    requires k < |s|
    ensures Reversed(s)[k] == s[|s| - 1 - k]
  {
    if k < |s| - 1 {
      ReversedAt(s[1..], k);
    }
  }

  /** Reading the reversed bytes big-endian is reading the bytes little-endian. */
  lemma {:induction false} BigEndianOfReversed(s: seq<Byte>)
    ensures BigEndian(Reversed(s)) == LittleEndian(s)
  {
    if s != [] {
      BigEndianOfReversed(s[1..]);
      assert Reversed(s)[..|s| - 1] == Reversed(s[1..]);
    }
  }
}
