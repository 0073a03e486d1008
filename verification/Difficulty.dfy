/** Compact difficulty targets, work and retargeting (bitcoin-spv/src/difficulty.rs). */
module Difficulty {
  import opened Wrappers
  import opened Arithmetic
  import opened Bytes
  import opened SpvTypes

  const RETARGET_INTERVAL: nat := 2016
  const TARGET_TIMESPAN: nat := 14 * 24 * 60 * 60

  // ---------------------------------------------------------------- decoding

  function ExponentOf(bits: U32): nat { bits / 0x100_0000 }

  function MantissaOf(bits: U32): nat { bits % 0x80_0000 }

  predicate SignBitSet(bits: U32) { bits / 0x80_0000 % 2 == 1 }

  /** The host's 256-bit left shift by whole bytes: bits shifted past the top are dropped. */
  function ShiftLeftBytes(x: U256, k: nat): (r: U256)
    requires k < 32
  {
    x * Pow256(k) % TWO_256
  }

  function ShiftRightBytes(x: U256, k: nat): (r: U256) {
    DivAtMost(x, Pow256(k));
    x / Pow256(k)
  }

  function BitsToTarget(bits: U32): Result<U256, SpvError> {
    var exponent := ExponentOf(bits);
    var mantissa := MantissaOf(bits);
    if mantissa != 0 && SignBitSet(bits) then
      Err(InvalidDifficultyBits)
    else if mantissa != 0
            && (exponent > 34 || (mantissa > 0xff && exponent > 33) || (mantissa > 0xffff && exponent > 32)) then
      Err(InvalidDifficultyBits)
    else if mantissa == 0 then
      Ok(0)
    else if exponent <= 3 then
      Ok(ShiftRightBytes(mantissa, 3 - exponent))
    else
      Ok(ShiftLeftBytes(mantissa, exponent - 3))
  }

  /** Three byte ranges of a mantissa against the exponent that still fits. */
  lemma FitsByRange(mantissa: nat, exponent: nat)
    requires 0 < mantissa < 0x80_0000
    ensures mantissa * Pow256(exponent) < 0x100_0000 * TWO_256
       <==> !(exponent > 34 || (mantissa > 0xff && exponent > 33) || (mantissa > 0xffff && exponent > 32))
  {
    var size := if mantissa <= 0xff then 1 else if mantissa <= 0xffff then 2 else 3;
    var top := size + (35 - size);
    FitsBySize(mantissa, size, exponent, top);
  }

  lemma FitsBySize(mantissa: nat, size: nat, exponent: nat, top: nat)
    requires top == 35 && 1 <= size <= 3
    requires 0 < mantissa < 0x80_0000
    requires size == if mantissa <= 0xff then 1 else if mantissa <= 0xffff then 2 else 3
    ensures mantissa * Pow256(exponent) < 0x100_0000 * TWO_256 <==> exponent + size <= top
  {
    PowValues();
    PowOf32(top - 3);
    PowAdd(3, top - 3);
    assert Pow256(top) == 0x100_0000 * TWO_256;
    assert Pow256(size - 1) <= mantissa < Pow256(size);
    if exponent + size <= top {
      PowMonotone(exponent + size, top);
      PowAdd(size, exponent);
      MulStrict(mantissa, Pow256(size), Pow256(exponent));
    } else {
      PowMonotone(top, exponent + size - 1);
      PowAdd(size - 1, exponent);
      MulMonotone(Pow256(size - 1), mantissa, Pow256(exponent));
    }
  }

  /** A left shift that fits is a plain product. */
  lemma ShiftExact(m: nat, e: nat)
    requires e > 3
    ensures m * Pow256(e) == m * Pow256(e - 3) * 0x100_0000
    ensures m * Pow256(e) / 0x100_0000 == m * Pow256(e - 3)
    ensures m * Pow256(e) < 0x100_0000 * TWO_256 ==> m * Pow256(e - 3) % TWO_256 == m * Pow256(e - 3) < TWO_256
  {
    PowValues();
    PowAdd(e - 3, 3);
    var q := m * Pow256(e - 3);
    assert m * (Pow256(e - 3) * 0x100_0000) == q * 0x100_0000;
  }

  /**
   * What a compact value means: it is accepted exactly when its mantissa is
   * zero, or it is non-negative and mantissa * 256^(exponent - 3) fits in 256
   * bits, and then it is the floor of that number.
   */
  lemma BitsToTargetMeaning(bits: U32)
    ensures var m, e, negative := bits % 0x80_0000, bits / 0x100_0000, bits / 0x80_0000 % 2 == 1;
            && (BitsToTarget(bits).Ok? <==> m == 0 || (!negative && m * Pow256(e) < 0x100_0000 * TWO_256))
            && (BitsToTarget(bits).Ok? ==> BitsToTarget(bits).value == m * Pow256(e) / 0x100_0000)
            && (BitsToTarget(bits).Err? ==> BitsToTarget(bits).error == InvalidDifficultyBits)
  {
    var m, e := MantissaOf(bits), ExponentOf(bits);
    if m != 0 {
      FitsByRange(m, e);
      if e <= 3 {
        PowValues();
        PowAdd(e, 3 - e);
        DivCancel(m, Pow256(3 - e), Pow256(e));
      } else {
        ShiftExact(m, e);
      }
    }
  }

  /** No compact value decodes to the largest 256-bit integer, so `target + 1` never overflows. */
  lemma DecodedBelowMax(bits: U32)
    requires BitsToTarget(bits).Ok?
    ensures BitsToTarget(bits).value < TWO_256 - 1
  {
    var m, e := MantissaOf(bits), ExponentOf(bits);
    if m != 0 && e > 3 {
      FitsByRange(m, e);
      ShiftExact(m, e);
      assert Pow256(e - 3) == 256 * Pow256(e - 4);
      assert m * Pow256(e - 3) == 256 * (m * Pow256(e - 4));
    } else if m != 0 {
      DivAtMost(m, Pow256(3 - e));
    }
  }

  // ---------------------------------------------------------------- encoding

  /** Bytes needed to write `t`: the least n with t < 256^n. */
  function ByteLen(t: nat): (n: nat)
    ensures t < Pow256(n)
    ensures n > 0 ==> Pow256(n - 1) <= t
    ensures t > 0 ==> n > 0
  {
    if t == 0 then 0
    else
      var n := 1 + ByteLen(t / 256);
      n
  }

  lemma ByteLenUnique(t: nat, n: nat)
    requires n > 0 && Pow256(n - 1) <= t < Pow256(n)
    ensures ByteLen(t) == n
  {
    var k := ByteLen(t);
    if k < n {
      PowMonotone(k, n - 1);
    } else if n < k {
      PowMonotone(n, k - 1);
    }
  }

  /** The three leading bytes of `t`, padded with zero bytes when `t` is shorter. */
  function LeadingBytes(t: U256): (raw: nat) { TopThreeBytes(t, ByteLen(t)) }

  function TopThreeBytes(t: U256, size: nat): (raw: nat)
  {
    if size <= 3 then
      MulMonotone(0, t, Pow256(3 - size));
      t * Pow256(3 - size)
    else
      DivAtMost(t, Pow256(size - 3));
      t / Pow256(size - 3)
  }

  lemma ByteLenAtMost(t: nat, n: nat)
    requires t < Pow256(n)
    ensures ByteLen(t) <= n
  {
    var k := ByteLen(t);
    PowMonotone(n, if n < k then k - 1 else n);
  }

  lemma ByteLenAtMost32(t: U256, n: nat)
    requires n == 32
    ensures ByteLen(t) <= n
  {
    PowOf32(n);
    ByteLenAtMost(t, n);
  }

  lemma LeadingBytesRange(t: U256)
    requires t > 0
    ensures 0x1_0000 <= LeadingBytes(t) < 0x100_0000
  {
    PowValues();
    var size := ByteLen(t);
    if size > 3 {
      PowAdd(2, size - 3);
      PowAdd(3, size - 3);
      DivRange(t, Pow256(size - 3), 0x1_0000, 0x100_0000);
    } else if size == 1 {
      assert LeadingBytes(t) == t * 0x1_0000;
    } else if size == 2 {
      assert LeadingBytes(t) == t * 0x100;
    } else {
      assert LeadingBytes(t) == t * Pow256(0);
    }
  }

  /** Bitcoin's compact form of `t`: three bytes of mantissa, moved down a byte to clear the sign bit. */
  function Compact(t: U256): (bits: U32)
  {
    if t == 0 then 0
    else
      LeadingBytesRange(t);
      ByteLenAtMost32(t, 32);
      var raw, size := LeadingBytes(t), ByteLen(t);
      if raw >= 0x80_0000 then raw / 256 + (size + 1) * 0x100_0000 else raw + size * 0x100_0000
  }

  /** The exponent of the compact form: one byte more than `t` when its top bit is set. */
  function CompactExponent(t: nat): nat { ByteLen(2 * t) }

  /** The mantissa of the compact form: `t` in units of 256^(exponent - 3), rounded down. */
  function CompactMantissa(t: nat): nat
  {
    var e := CompactExponent(t);
    if e <= 3 then t * Pow256(3 - e) else t / Pow256(e - 3)
  }

  lemma LeadingBytesSmall(t: U256)
    requires t > 0 && ByteLen(t) <= 3
    ensures LeadingBytes(t) == (if ByteLen(t) == 1 then t * 0x1_0000 else if ByteLen(t) == 2 then t * 0x100 else t)
  {
    PowValues();
  }

  lemma TopBitOfQuotient(t: nat, p: nat)
    requires p > 0
    ensures t / p >= 0x80_0000 <==> 0x100_0000 * p <= 2 * t
  {
    var q := t / p;
    assert t == q * p + t % p;
    if q >= 0x80_0000 {
      MulMonotone(0x80_0000, q, p);
    } else {
      MulMonotone(q + 1, 0x80_0000, p);
    }
  }

  /** The top bit of the leading bytes is the top bit of `t`. */
  lemma TopBit(t: U256)
    requires t > 0
    ensures LeadingBytes(t) >= 0x80_0000 <==> Pow256(ByteLen(t)) <= 2 * t
  {
    var size := ByteLen(t);
    PowValues();
    if size > 3 {
      PowAdd(3, size - 3);
      TopBitOfQuotient(t, Pow256(size - 3));
    } else {
      LeadingBytesSmall(t);
    }
  }

  lemma CompactExponentIs(t: U256)
    requires t > 0
    ensures CompactExponent(t) == if LeadingBytes(t) >= 0x80_0000 then ByteLen(t) + 1 else ByteLen(t)
  {
    TopBit(t);
    var size := ByteLen(t);
    if LeadingBytes(t) >= 0x80_0000 {
      assert Pow256(size + 1) == 256 * Pow256(size);
      ByteLenUnique(2 * t, size + 1);
    } else {
      ByteLenUnique(2 * t, size);
    }
  }

  lemma CompactMantissaIs(t: U256)
    requires t > 0
    ensures CompactMantissa(t) == if LeadingBytes(t) >= 0x80_0000 then LeadingBytes(t) / 256 else LeadingBytes(t)
  {
    var raw, size := LeadingBytes(t), ByteLen(t);
    CompactExponentIs(t);
    if size <= 3 {
      PowValues();
      LeadingBytesSmall(t);
      if size == 1 {
        assert CompactMantissa(t) == if raw >= 0x80_0000 then t * 0x100 else t * 0x1_0000;
      } else if size == 2 {
        assert CompactMantissa(t) == if raw >= 0x80_0000 then t * Pow256(0) else t * 0x100;
      }
    } else if raw >= 0x80_0000 {
      assert Pow256(size - 2) == 256 * Pow256(size - 3);
      DivDiv(t, Pow256(size - 3), 256);
    }
  }

  /** The two-step encoding of the source is the mantissa and exponent above. */
  lemma CompactForm(t: U256)
    requires t > 0
    ensures Compact(t) == CompactMantissa(t) + CompactExponent(t) * 0x100_0000
    ensures 0x8000 <= CompactMantissa(t) < 0x80_0000 && 1 <= CompactExponent(t) <= 33
  {
    CompactExponentIs(t);
    CompactMantissaIs(t);
    LeadingBytesRange(t);
    ByteLenAtMost32(t, 32);
  }

  lemma PackedFields(m: nat, e: nat)
    requires m < 0x80_0000 && e < 256
    ensures var bits := m + e * 0x100_0000;
            MantissaOf(bits) == m && ExponentOf(bits) == e && !SignBitSet(bits)
  {
  }

  /** What an encoded target decodes to: `t` rounded down to a multiple of 256^(exponent - 3). */
  function Truncated(t: nat): (d: nat)
  {
    var e := CompactExponent(t);
    if e <= 3 then t else t / Pow256(e - 3) * Pow256(e - 3)
  }

  /** Rounding down to a multiple of `k` loses little when `t` is at least 2^15 of them. */
  lemma RoundDown(t: nat, k: nat)
    requires k > 0 && 0x1_0000 * k <= 2 * t
    ensures var d := t / k * k;
            d <= t && (t - d) * 0x8000 <= t && 0x1_0000 * k <= 2 * d && d / k == t / k
  {
    var q := t / k;
    assert t == q * k + t % k;
    if q < 0x8000 {
      MulMonotone(q + 1, 0x8000, k);
    }
    MulMonotone(0x8000, q, k);
    QuotientUnique(q * k, k, q, 0);
  }

  lemma TruncatedBound(t: nat)
    ensures Truncated(t) <= t
    ensures (t - Truncated(t)) * 0x8000 <= t
    ensures CompactExponent(Truncated(t)) == CompactExponent(t)
    ensures CompactMantissa(Truncated(t)) == CompactMantissa(t)
  {
    var e := CompactExponent(t);
    if e > 3 {
      PowValues();
      PowAdd(2, e - 3);
      RoundDown(t, Pow256(e - 3));
      ByteLenUnique(2 * Truncated(t), e);
    }
  }

  lemma CompactDecodesTo(t: U256)
    ensures BitsToTarget(Compact(t)).Ok?
    ensures BitsToTarget(Compact(t)).value == Truncated(t)
  {
    if t != 0 {
      CompactForm(t);
      var m, e := CompactMantissa(t), CompactExponent(t);
      PackedFields(m, e);
      if e > 3 {
        TruncatedBound(t);
        ShiftExact(m, e);
        FitsByRange(m, e);
      } else {
        QuotientUnique(m, Pow256(3 - e), t, 0);
      }
    }
  }

  /**
   * Round trip of the compact form: every 256-bit target encodes to bits that
   * decode, to a value at most one part in 2^15 below it, and that value
   * encodes to the same bits.
   */
  lemma CompactRoundTrip(t: U256)
    ensures var r := BitsToTarget(Compact(t));
            && r.Ok?
            && r.value <= t
            && (t - r.value) * 0x8000 <= t
            && Compact(r.value) == Compact(t)
  {
    CompactDecodesTo(t);
    TruncatedBound(t);
    var d := Truncated(t);
    if t != 0 {
      assert d > 0;
      CompactForm(t);
      CompactForm(d);
    }
  }

  /** Leading zero bits of a byte. */
  function LeadingZeros(b: Byte): (z: nat)
  {
    if b == 0 then 8 else if b < 2 then 7 else if b < 4 then 6 else if b < 8 then 5
    else if b < 16 then 4 else if b < 32 then 3 else if b < 64 then 2 else if b < 128 then 1 else 0
  }

  /** `target`'s 32 bytes, most significant first. */
  function ToBeBytes(target: U256): (s: seq<Byte>)
    ensures |s| == 32
  {
    seq(32, i requires 0 <= i < 32 => target / Pow256(31 - i) % 256)
  }

  lemma TopByte(t: nat, n: nat)
    requires n > 0 && t < Pow256(n)
    ensures t / Pow256(n - 1) % 256 == 0 <==> t < Pow256(n - 1)
  {
    assert Pow256(n) == 256 * Pow256(n - 1);
    DivRange(t, Pow256(n - 1), 0, 256);
    if t < Pow256(n - 1) {
      DivRange(t, Pow256(n - 1), 0, 1);
    } else {
      DivRange(t, Pow256(n - 1), 1, 256);
    }
  }

  /** The position of the first non-zero byte, which says how many bytes `target` needs. */
  method FirstNonzero(arr: seq<Byte>, target: U256) returns (first: nat)
    requires arr == ToBeBytes(target)
    ensures first <= 32 && 32 - first == ByteLen(target)
    ensures first < 32 ==> arr[first] != 0
  {
    first := 0;
    ghost var left := 32;
    PowOf32(left);
    while first < 32 && arr[first] == 0
      invariant first <= 32 && left == 32 - first
      invariant target < Pow256(left)
    {
      TopByte(target, left);
      first, left := first + 1, left - 1;
    }
    if first < 32 {
      TopByte(target, left);
      ByteLenUnique(target, left);
    }
  }

  /** The encoder as the contract runs it: find the first non-zero byte, size the value, take the top bytes. */
  method TargetToBits(target: U256) returns (bits: U32)
    ensures bits == Compact(target)
  {
    var arr := ToBeBytes(target);
    var first := FirstNonzero(arr, target);
    if first == 32 {
      return 0;
    }
    var bitLen := (32 - first) * 8 - LeadingZeros(arr[first]);
    var size := (bitLen + 7) / 8;
    assert size == 32 - first;
    var compact := TopThreeBytes(target, size);
    CompactSteps(target, compact, size);
    if compact / 0x80_0000 % 2 == 1 {
      compact := compact / 256;
      size := size + 1;
    }
    bits := compact + size * 0x100_0000;
  }

  lemma CompactSteps(target: U256, compact: nat, size: nat)
    requires target > 0 && size == ByteLen(target) && compact == LeadingBytes(target)
    ensures Compact(target) == if compact / 0x80_0000 % 2 == 1
                               then compact / 256 + (size + 1) * 0x100_0000
                               else compact + size * 0x100_0000
  {
    hide LeadingBytes;
    hide ByteLen;
    LeadingBytesRange(target);
    ByteLenAtMost32(target, 32);
  }

  // -------------------------------------------------------- proof of work

  /** A digest read as Bitcoin reads it: reverse the bytes in place, then read them big-endian. */
  method HashAsU256(hash: Digest) returns (v: nat)
    ensures v == LittleEndian(hash)
  {
    var arr := new Byte[32](i requires 0 <= i < 32 => hash[i]);
    assert arr[..] == hash;
    var i := 0;
    while i < 16
      invariant 0 <= i <= 16
      invariant forall k :: 0 <= k < i ==> arr[k] == hash[31 - k] && arr[31 - k] == hash[k]
      invariant forall k :: i <= k < 32 - i ==> arr[k] == hash[k]
    {
      arr[i], arr[31 - i] := arr[31 - i], arr[i];
      i := i + 1;
    }
    forall k | 0 <= k < 32 ensures arr[..][k] == Reversed(hash)[k] {
      ReversedAt(hash, k);
    }
    assert arr[..] == Reversed(hash);
    BigEndianOfReversed(hash);
    v := BigEndian(arr[..]);
  }

  /** SHA256d(header) < target(bits), with the declared bits decoded first. */
  function ValidateProofOfWork(hash: Digest, bits: U32): Result<(), SpvError>
  {
    match BitsToTarget(bits)
    case Err(e) => Err(e)
    case Ok(target) => if LittleEndian(hash) < target then Ok(()) else Err(InsufficientProofOfWork)
  }

  /**
   * The check of a header's hash: the digest, read as a number, lies below the
   * target its own bits declare, or the error says which part failed.
   */
  method CheckProofOfWork(hash: Digest, bits: U32) returns (r: Result<(), SpvError>)
    ensures r == ValidateProofOfWork(hash, bits)
    ensures r.Ok? <==> BitsToTarget(bits).Ok? && LittleEndian(hash) < BitsToTarget(bits).value
    ensures r == Err(InsufficientProofOfWork) <==> BitsToTarget(bits).Ok? && LittleEndian(hash) >= BitsToTarget(bits).value
    ensures r == Err(InvalidDifficultyBits) <==> BitsToTarget(bits).Err?
  {
    BitsToTargetMeaning(bits);
    var target := BitsToTarget(bits);
    if target.Err? {
      return Err(target.error);
    }
    var v := HashAsU256(hash);
    if v < target.value {
      return Ok(());
    }
    return Err(InsufficientProofOfWork);
  }

  /** Work of a target, in the form that never leaves 256 bits. */
  function WorkFromTarget(target: U256): (work: nat)
    requires target < TWO_256 - 1
  {
    DivAtMost(TWO_256 - 1 - target, target + 1);
    (TWO_256 - 1 - target) / (target + 1) + 1
  }

  /** The form above is Bitcoin's floor(2^256 / (target + 1)), so every header adds at least 1. */
  lemma WorkMeaning(target: U256)
    requires target < TWO_256 - 1
    ensures WorkFromTarget(target) == TWO_256 / (target + 1)
    ensures 1 <= WorkFromTarget(target) <= TWO_256
  {
    var d := target + 1;
    var q, r := (TWO_256 - d) / d, (TWO_256 - d) % d;
    assert TWO_256 - d == q * d + r;
    assert TWO_256 == (q + 1) * d + r;
    QuotientUnique(TWO_256, d, q + 1, r);
    DivAtMost(TWO_256, d);
  }

  // ---------------------------------------------------------- retargeting

  function Clamp(x: int, lo: int, hi: int): (r: int)
    requires lo <= hi
  {
    if x < lo then lo else if x > hi then hi else x
  }

  /** The period's duration, limited to a factor of four either way. */
  function Timespan(time: U32, periodStart: U32): (t: nat)
    ensures TARGET_TIMESPAN / 4 <= t <= TARGET_TIMESPAN * 4
  {
    Clamp(time - periodStart, TARGET_TIMESPAN / 4, TARGET_TIMESPAN * 4)
  }

  /** The host's checked multiplication: nothing when the product leaves 256 bits. */
  function CheckedMul(a: U256, b: U256): (r: Option<U256>)
  {
    if a * b < TWO_256 then Some(a * b) else None
  }

  function NewTarget(parentTarget: U256, timespan: nat, powLimit: U256): (t: U256)
    requires timespan <= TARGET_TIMESPAN * 4
    ensures t <= powLimit
  {
    match CheckedMul(parentTarget, timespan)
    case None => powLimit
    case Some(v) =>
      if v / TARGET_TIMESPAN <= powLimit then v / TARGET_TIMESPAN else powLimit
  }

  /** The bits a header at `height` must carry, given its parent's bits, time and period start. */
  function ExpectedBits(bits: U32, time: U32, periodStart: U32, height: nat, powLimit: U256): (r: Result<U32, SpvError>)
  {
    if height % RETARGET_INTERVAL != 0 then
      Ok(bits)
    else
      match BitsToTarget(bits)
      case Err(e) => Err(e)
      case Ok(parentTarget) => Ok(Compact(NewTarget(parentTarget, Timespan(time, periodStart), powLimit)))
  }

  predicate LimitLeavesRoom(powLimit: U256) { powLimit * (4 * TARGET_TIMESPAN) < TWO_256 }

  /**
   * Bitcoin's rule at a period boundary: the parent's target times the seconds
   * the period took, held between half a week and eight weeks, over two weeks,
   * rounded down and never above the limit. A product that leaves 256 bits
   * counts as above the limit.
   */
  function RetargetRule(parent: nat, took: int, powLimit: nat): (target: nat)
    ensures target <= powLimit
  {
    var span := if took < 302_400 then 302_400 else if took > 4_838_400 then 4_838_400 else took;
    if parent * span >= TWO_256 || parent * span / 1_209_600 > powLimit then powLimit else parent * span / 1_209_600
  }

  /** `d` is `exact` or less, by at most one part in 2^15: what a compact target can express. */
  predicate JustBelow(d: nat, exact: nat) { d <= exact && (exact - d) * 0x8000 <= exact }

  /**
   * The required bits: the parent's inside a period; at a boundary the
   * encoding of the rule's target, which decodes to just below it.
   */
  lemma RetargetFollowsRule(bits: U32, time: U32, periodStart: U32, height: nat, powLimit: U256)
    requires BitsToTarget(bits).Ok?
    ensures var rule := RetargetRule(BitsToTarget(bits).value, time - periodStart, powLimit);
            var r := ExpectedBits(bits, time, periodStart, height, powLimit);
            && r == Ok(if height % 2016 != 0 then bits else Compact(rule))
            && BitsToTarget(r.value).Ok?
            && (height % 2016 == 0 ==> JustBelow(BitsToTarget(r.value).value, rule))
  {
    hide Compact;
    hide BitsToTarget;
    CompactRoundTrip(RetargetRule(BitsToTarget(bits).value, time - periodStart, powLimit));
  }

  /**
   * At a period boundary the required bits decode to a target within one part
   * in 2^15 below the exact rule, never above the limit or four times the
   * parent's target, and the multiplication does not overflow.
   */
  lemma RetargetBounds(bits: U32, time: U32, periodStart: U32, height: nat, powLimit: U256)
    requires height % RETARGET_INTERVAL == 0
    requires BitsToTarget(bits).Ok? && BitsToTarget(bits).value <= powLimit && LimitLeavesRoom(powLimit)
    ensures var parent := BitsToTarget(bits).value;
            var took := time - periodStart;
            var span := if took < 302_400 then 302_400 else if took > 4_838_400 then 4_838_400 else took;
            var scaled := parent * span / 1_209_600;
            var exact := if scaled <= powLimit then scaled else powLimit;
            var r := ExpectedBits(bits, time, periodStart, height, powLimit);
            && parent * span < TWO_256
            && r.Ok? && BitsToTarget(r.value).Ok?
            && var d := BitsToTarget(r.value).value;
            && d <= exact && (exact - d) * 0x8000 <= exact
            && d <= powLimit && d <= 4 * parent
  {
    hide Compact;
    hide BitsToTarget;
    hide ExpectedBits;
    var parent, took := BitsToTarget(bits).value, time - periodStart;
    var span := if took < 302_400 then 302_400 else if took > 4_838_400 then 4_838_400 else took;
    RetargetProduct(parent, span, powLimit);
    RetargetFollowsRule(bits, time, periodStart, height, powLimit);
  }

  lemma RetargetProduct(parent: U256, span: nat, powLimit: U256)
    requires parent <= powLimit && LimitLeavesRoom(powLimit) && span <= 4 * TARGET_TIMESPAN
    ensures parent * span < TWO_256 && parent * span / TARGET_TIMESPAN <= 4 * parent
  {
    MulMonotone(parent, powLimit, 4 * TARGET_TIMESPAN);
    MulMonotone(span, 4 * TARGET_TIMESPAN, parent);
    assert span * parent == parent * span;
  }

  /** Whatever the parent, required bits always decode, to a target at or below the limit or the parent's. */
  lemma ExpectedBitsWithinLimit(bits: U32, time: U32, periodStart: U32, height: nat, powLimit: U256)
    requires BitsToTarget(bits).Ok? && BitsToTarget(bits).value <= powLimit
    ensures var r := ExpectedBits(bits, time, periodStart, height, powLimit);
            r.Ok? && BitsToTarget(r.value).Ok? && BitsToTarget(r.value).value <= powLimit
  {
    if height % RETARGET_INTERVAL == 0 {
      CompactRoundTrip(NewTarget(BitsToTarget(bits).value, Timespan(time, periodStart), powLimit));
    }
  }

  const MAINNET_POW_LIMIT_BITS: U32 := 0x1d00ffff
  const SIGNET_POW_LIMIT_BITS: U32 := 0x1e0377ae

  lemma ScaledProduct(m: nat, k: nat, spare: nat, p: nat)
    requires p > 0 && m * k < spare && 1 <= k
    ensures m * p * k < spare * p && m * p <= m * p * k
  {
    MulStrict(m * k, spare, p);
    assert m * k * p == m * p * k;
    MulMonotone(1, k, m * p);
  }

  lemma LimitRoom(bits: U32, m: nat, e: nat, spare: nat, top: nat)
    requires m == MantissaOf(bits) && e == ExponentOf(bits) && !SignBitSet(bits) && 0 < m && 3 < e
    requires top == 32 && spare + e - 3 == top && m * (4 * TARGET_TIMESPAN) < Pow256(spare)
    ensures BitsToTarget(bits).Ok? && LimitLeavesRoom(BitsToTarget(bits).value)
  {
    PowOf32(top);
    PowAdd(spare, e - 3);
    ScaledProduct(m, 4 * TARGET_TIMESPAN, Pow256(spare), Pow256(e - 3));
    ShiftExact(m, e);
    BitsToTargetMeaning(bits);
  }

  /** Both networks' limits leave room for the retarget multiplication (signet by less than one part in 10^5). */
  lemma NetworkLimitsLeaveRoom()
    ensures BitsToTarget(MAINNET_POW_LIMIT_BITS).Ok? && LimitLeavesRoom(BitsToTarget(MAINNET_POW_LIMIT_BITS).value)
    ensures BitsToTarget(SIGNET_POW_LIMIT_BITS).Ok? && LimitLeavesRoom(BitsToTarget(SIGNET_POW_LIMIT_BITS).value)
  {
    PowValues();
    PowAdd(1, 4);
    PowAdd(2, 4);
    LimitRoom(MAINNET_POW_LIMIT_BITS, 0xffff, 0x1d, 6, 32);
    LimitRoom(SIGNET_POW_LIMIT_BITS, 0x377ae, 0x1e, 5, 32);
  }
}
