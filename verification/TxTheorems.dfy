/** What the parsers compute on transactions: the stripped serialization, and one collateral output between them. */
module TxTheorems {
  import opened Wrappers
  import opened Bytes
  import opened TxFormat
  import opened TxParsing

  // ------------------------------------------------- reading what was written

  lemma VarIntAt(buf: seq<Byte>, i: nat, n: nat, wide: bool)
    requires n <= MAX_U32 && At(buf, i, VarInt(n)) && (wide || n <= 0xffff)
    ensures ReadVarInt(buf, i, wide) == Some((n, |VarInt(n)|))
  {
    var v := VarInt(n);
    AtIndex(buf, i, v, 0);
    PowValues();
    if 0xfd <= n <= 0xffff {
      EncodeDecode(n, 2);
      AtSplit(buf, i, [0xfd], EncodeLE(n, 2));
      AtSlice(buf, i + 1, EncodeLE(n, 2));
    } else if n > 0xffff {
      EncodeDecode(n, 4);
      AtSplit(buf, i, [0xfe], EncodeLE(n, 4));
      AtSlice(buf, i + 1, EncodeLE(n, 4));
    }
  }

  lemma {:induction false} LittleEndianConcat(a: seq<Byte>, b: seq<Byte>)
    ensures LittleEndian(a + b) == LittleEndian(a) + Pow256(|a|) * LittleEndian(b)
  {
    if a == [] {
      assert a + b == b;
    } else {
      LittleEndianConcat(a[1..], b);
      assert (a + b)[1..] == a[1..] + b;
      ScaledBy256(LittleEndian(a[1..]), Pow256(|a| - 1), LittleEndian(b));
    }
  }

  lemma ScaledBy256(x: nat, p: nat, y: nat)
    ensures 256 * (x + p * y) == 256 * x + 256 * p * y
  {
  }

  /**
   * What a length reads as: the first byte itself, or the 2, 4 or 8 bytes after
   * it, least significant first, whether or not fewer would have done. It is
   * refused when they are not all there, when 8 of them spell more than 32
   * bits, and by the contract when it takes more than 2.
   */
  lemma VarIntMeaning(buf: seq<Byte>, i: nat, wide: bool)
    ensures i >= |buf| ==> ReadVarInt(buf, i, wide) == None
    ensures i < |buf| ==>
      var r, width := ReadVarInt(buf, i, wide), if buf[i] < 0xfd then 0 else if buf[i] == 0xfd then 2 else if buf[i] == 0xfe then 4 else 8;
      if i + 1 + width > |buf| then r == None
      else
        var n := if width == 0 then buf[i] else LittleEndian(buf[i + 1..i + 1 + width]);
        r == if (wide || width <= 2) && n < 0x1_0000_0000 then Some((n, 1 + width)) else None
  {
    hide LittleEndian;
    hide Pow256;
    PowValues();
    if i + 9 <= |buf| {
      EightBytes(buf[i + 1..i + 5], buf[i + 5..i + 9]);
      assert buf[i + 1..i + 9] == buf[i + 1..i + 5] + buf[i + 5..i + 9];
    }
  }

  /** Eight bytes spell at most 32 bits exactly when the last four are zero, and then what the first four spell. */
  lemma EightBytes(a: seq<Byte>, b: seq<Byte>)
    requires |a| == |b| == 4
    ensures LittleEndian(b) == 0 ==> LittleEndian(a + b) == LittleEndian(a)
    ensures LittleEndian(b) > 0 ==> LittleEndian(a + b) >= 0x1_0000_0000
  {
    hide LittleEndian;
    hide Pow256;
    PowValues();
    LittleEndianConcat(a, b);
  }

  /** A length-prefixed string: its length reads back and the string follows. */
  lemma PrefixedAt(buf: seq<Byte>, i: nat, s: seq<Byte>, wide: bool)
    requires |s| <= MAX_U32 && At(buf, i, Prefixed(s)) && (wide || |s| <= 0xffff)
    ensures ReadVarInt(buf, i, wide) == Some((|s|, |VarInt(|s|)|))
    ensures At(buf, i + |VarInt(|s|)|, s)
  {
    hide ReadVarInt;
    hide VarInt;
    AtSplit(buf, i, VarInt(|s|), s);
    VarIntAt(buf, i, |s|, wide);
  }

  /** Scripts short enough for the contract's parser. */
  predicate ShortIns(ins: seq<TxIn>) { forall i | 0 <= i < |ins| :: |ins[i].script| <= 0xffff }

  predicate ShortOuts(outs: seq<TxOut>) { forall i | 0 <= i < |outs| :: |outs[i].script| <= 0xffff }

  lemma InputAt(buf: seq<Byte>, i: nat, x: TxIn, rest: seq<Byte>, wide: bool)
    requires InShape(x) && At(buf, i, InBytes(x) + rest) && (wide || |x.script| <= 0xffff)
    ensures ReadVarInt(buf, i + 36, wide) == Some((|x.script|, |VarInt(|x.script|)|))
    ensures |InBytes(x)| == 36 + |VarInt(|x.script|)| + |x.script| + 4
    ensures At(buf, i + |InBytes(x)|, rest)
  {
    hide ReadVarInt;
    hide VarInt;
    AtSplit(buf, i, InBytes(x), rest);
    AtSplit(buf, i, x.prevout + Prefixed(x.script), x.sequence);
    AtSplit(buf, i, x.prevout, Prefixed(x.script));
    PrefixedAt(buf, i + 36, x.script, wide);
  }

  lemma OutputAt(buf: seq<Byte>, i: nat, o: TxOut, rest: seq<Byte>, wide: bool)
    requires OutShape(o) && At(buf, i, OutBytes(o) + rest) && (wide || |o.script| <= 0xffff)
    ensures ReadVarInt(buf, i + 8, wide) == Some((|o.script|, |VarInt(|o.script|)|))
    ensures |OutBytes(o)| == 8 + |VarInt(|o.script|)| + |o.script|
    ensures i + |OutBytes(o)| <= |buf| && LittleEndian(buf[i..i + 8]) == o.value
    ensures buf[i + 8 + |VarInt(|o.script|)|..i + |OutBytes(o)|] == o.script
    ensures At(buf, i + |OutBytes(o)|, rest)
  {
    hide ReadVarInt;
    hide VarInt;
    AtSplit(buf, i, OutBytes(o), rest);
    AtSplit(buf, i, EncodeLE(o.value, 8), Prefixed(o.script));
    EncodeDecode(o.value, 8);
    AtSlice(buf, i, EncodeLE(o.value, 8));
    PrefixedAt(buf, i + 8, o.script, wide);
    AtSlice(buf, i + 8 + |VarInt(|o.script|)|, o.script);
  }

  lemma StackAt(buf: seq<Byte>, i: nat, s: seq<seq<Byte>>, rest: seq<Byte>)
    requires StackShape(s) && At(buf, i, VarInt(|s|) + ItemsBytes(s) + rest)
    ensures ReadVarInt(buf, i, true) == Some((|s|, |VarInt(|s|)|))
    ensures SkipItems(buf, i + |VarInt(|s|)|, |s|) == Some(i + |VarInt(|s|)| + |ItemsBytes(s)|)
    ensures At(buf, i + |VarInt(|s|)| + |ItemsBytes(s)|, rest)
  {
    hide ReadVarInt;
    hide SkipItems;
    hide VarInt;
    hide ItemsBytes;
    AtSplit(buf, i, VarInt(|s|) + ItemsBytes(s), rest);
    AtSplit(buf, i, VarInt(|s|), ItemsBytes(s));
    VarIntAt(buf, i, |s|, true);
    SkipItemsAt(buf, i + |VarInt(|s|)|, s);
  }

  lemma AtEnd(buf: seq<Byte>, i: nat, piece: seq<Byte>)
    requires At(buf, i, piece)
    ensures i + |piece| <= |buf|
  {
  }

  lemma SkipOneInput(buf: seq<Byte>, i: nat, n: nat, wide: bool, checked: bool, len: nat, size: nat)
    requires n > 0 && ReadVarInt(buf, i + 36, wide) == Some((len, size)) && i + 36 + size + len + 4 <= |buf|
    ensures SkipInputs(buf, i, n, wide, checked) == SkipInputs(buf, i + 36 + size + len + 4, n - 1, wide, checked)
  {
  }

  lemma {:induction false} SkipInputsAt(buf: seq<Byte>, i: nat, ins: seq<TxIn>, wide: bool, checked: bool)
    requires (forall k | 0 <= k < |ins| :: InShape(ins[k])) && At(buf, i, InsBytes(ins)) && (wide || ShortIns(ins))
    ensures SkipInputs(buf, i, |ins|, wide, checked) == Some(i + |InsBytes(ins)|)
    decreases |ins|
  {
    hide ReadVarInt;
    if ins != [] {
      var x, rest := ins[0], ins[1..];
      InputAt(buf, i, x, InsBytes(rest), wide);
      AtEnd(buf, i + |InBytes(x)|, InsBytes(rest));
      SkipOneInput(buf, i, |ins|, wide, checked, |x.script|, |VarInt(|x.script|)|);
      SkipInputsAt(buf, i + |InBytes(x)|, rest, wide, checked);
    }
  }

  lemma {:induction false} SkipOutputsAt(buf: seq<Byte>, i: nat, outs: seq<TxOut>)
    requires (forall k | 0 <= k < |outs| :: OutShape(outs[k])) && At(buf, i, OutsBytes(outs))
    ensures SkipOutputs(buf, i, |outs|) == Some(i + |OutsBytes(outs)|)
    decreases |outs|
  {
    hide ReadVarInt;
    hide At;
    hide VarInt;
    hide OutBytes;
    if outs != [] {
      var o, rest := outs[0], outs[1..];
      OutputAt(buf, i, o, OutsBytes(rest), true);
      SkipOutputsAt(buf, i + |OutBytes(o)|, rest);
    }
  }

  lemma {:induction false} SkipItemsAt(buf: seq<Byte>, i: nat, items: seq<seq<Byte>>)
    requires (forall k | 0 <= k < |items| :: |items[k]| <= MAX_U32) && At(buf, i, ItemsBytes(items))
    ensures SkipItems(buf, i, |items|) == Some(i + |ItemsBytes(items)|)
    decreases |items|
  {
    hide ReadVarInt;
    hide VarInt;
    if items != [] {
      AtSplit(buf, i, Prefixed(items[0]), ItemsBytes(items[1..]));
      PrefixedAt(buf, i, items[0], true);
      SkipItemsAt(buf, i + |Prefixed(items[0])|, items[1..]);
    }
  }

  lemma SkipOneStack(buf: seq<Byte>, i: nat, n: nat, items: nat, size: nat, j: nat)
    requires n > 0 && ReadVarInt(buf, i, true) == Some((items, size)) && SkipItems(buf, i + size, items) == Some(j)
    ensures SkipStacks(buf, i, n) == SkipStacks(buf, j, n - 1)
  {
    hide ReadVarInt;
    hide SkipItems;
  }

  lemma {:induction false} SkipStacksAt(buf: seq<Byte>, i: nat, stacks: seq<seq<seq<Byte>>>)
    requires (forall k | 0 <= k < |stacks| :: StackShape(stacks[k])) && At(buf, i, StacksBytes(stacks))
    ensures SkipStacks(buf, i, |stacks|) == Some(i + |StacksBytes(stacks)|)
    decreases |stacks|
  {
    hide ReadVarInt;
    hide SkipItems;
    hide VarInt;
    hide ItemsBytes;
    if stacks != [] {
      var s, rest := stacks[0], stacks[1..];
      assert StackShape(s);
      StackAt(buf, i, s, StacksBytes(rest));
      var j := i + |VarInt(|s|)| + |ItemsBytes(s)|;
      SkipOneStack(buf, i, |stacks|, |s|, |VarInt(|s|)|, j);
      SkipStacksAt(buf, j, rest);
    }
  }

  /** Where the pieces of a core standing at `i` are. */
  lemma CorePieces(buf: seq<Byte>, i: nat, tx: Tx)
    requires WellFormed(tx) && At(buf, i, CoreBytes(tx))
    ensures At(buf, i, VarInt(|tx.ins|))
    ensures At(buf, i + |VarInt(|tx.ins|)|, InsBytes(tx.ins))
    ensures At(buf, i + |VarInt(|tx.ins|)| + |InsBytes(tx.ins)|, VarInt(|tx.outs|))
    ensures At(buf, i + |VarInt(|tx.ins|)| + |InsBytes(tx.ins)| + |VarInt(|tx.outs|)|, OutsBytes(tx.outs))
  {
    var a, b, c := VarInt(|tx.ins|), InsBytes(tx.ins), VarInt(|tx.outs|);
    AtSplit(buf, i, a + b + c, OutsBytes(tx.outs));
    AtSplit(buf, i, a + b, c);
    AtSplit(buf, i, a, b);
  }

  lemma OutputsEndFrom(buf: seq<Byte>, j: nat, outputs: nat, size: nat, k: nat)
    requires ReadVarInt(buf, j, true) == Some((outputs, size)) && SkipOutputs(buf, j + size, outputs) == Some(k)
    ensures OutputsEnd(buf, j) == Some(k)
  {
    hide ReadVarInt;
    hide SkipOutputs;
  }

  lemma CoreEndFrom(buf: seq<Byte>, i: nat, inputs: nat, size: nat, j: nat, k: nat)
    requires ReadVarInt(buf, i, true) == Some((inputs, size)) && SkipInputs(buf, i + size, inputs, true, true) == Some(j)
    requires OutputsEnd(buf, j) == Some(k)
    ensures CoreEnd(buf, i) == Some((inputs, k))
  {
    hide ReadVarInt;
    hide SkipInputs;
    hide OutputsEnd;
  }

  lemma CoreEndAt(buf: seq<Byte>, i: nat, tx: Tx)
    requires WellFormed(tx) && At(buf, i, CoreBytes(tx))
    ensures CoreEnd(buf, i) == Some((|tx.ins|, i + |CoreBytes(tx)|))
  {
    hide ReadVarInt;
    hide SkipInputs;
    hide SkipOutputs;
    hide CoreEnd;
    hide VarInt;
    hide InsBytes;
    hide OutsBytes;
    hide At;
    CorePieces(buf, i, tx);
    var j := i + |VarInt(|tx.ins|)|;
    VarIntAt(buf, i, |tx.ins|, true);
    SkipInputsAt(buf, j, tx.ins, true, true);
    var k := j + |InsBytes(tx.ins)|;
    VarIntAt(buf, k, |tx.outs|, true);
    SkipOutputsAt(buf, k + |VarInt(|tx.outs|)|, tx.outs);
    OutputsEndFrom(buf, k, |tx.outs|, |VarInt(|tx.outs|)|, i + |CoreBytes(tx)|);
    CoreEndFrom(buf, i, |tx.ins|, |VarInt(|tx.ins|)|, k, i + |CoreBytes(tx)|);
  }

  // ---------------------------------------------------------- stripWitness

  lemma ExtendedPieces(tx: Tx)
    requires WellFormed(tx)
    ensures var buf, c := Extended(tx), |CoreBytes(tx)|;
            && IsSegwit(buf)
            && At(buf, 0, tx.version) && At(buf, 6, CoreBytes(tx))
            && At(buf, 6 + c, StacksBytes(tx.stacks))
            && At(buf, 6 + c + |StacksBytes(tx.stacks)|, tx.locktime)
  {
    hide CoreBytes;
    hide StacksBytes;
    var buf := Extended(tx);
    assert At(buf, 0, buf);
    AtSplit(buf, 0, tx.version + [0, 1] + CoreBytes(tx) + StacksBytes(tx.stacks), tx.locktime);
    AtSplit(buf, 0, tx.version + [0, 1] + CoreBytes(tx), StacksBytes(tx.stacks));
    AtSplit(buf, 0, tx.version + [0, 1], CoreBytes(tx));
    AtSplit(buf, 0, tx.version, [0, 1]);
    AtIndex(buf, 4, [0, 1], 0);
    AtIndex(buf, 4, [0, 1], 1);
  }

  lemma StripPieces(buf: seq<Byte>, version: seq<Byte>, core: seq<Byte>, locktime: seq<Byte>, inputs: nat, w: nat)
    requires IsSegwit(buf) && |version| == |locktime| == 4
    requires At(buf, 0, version) && At(buf, 6, core) && At(buf, w, locktime)
    requires CoreEnd(buf, 6) == Some((inputs, 6 + |core|)) && SkipStacks(buf, 6 + |core|, inputs) == Some(w)
    ensures Stripped(buf) == Some(version + core + locktime)
  {
    hide CoreEnd;
    hide SkipStacks;
    AtSlice(buf, 0, version);
    AtSlice(buf, 6, core);
    AtSlice(buf, w, locktime);
  }

  /** Stripping the extended serialization yields the legacy one. */
  lemma StripExtended(tx: Tx)
    requires WellFormed(tx)
    ensures Stripped(Extended(tx)) == Some(Legacy(tx))
  {
    hide CoreEnd;
    hide SkipStacks;
    hide Stripped;
    hide CoreBytes;
    hide StacksBytes;
    hide At;
    var buf, c := Extended(tx), |CoreBytes(tx)|;
    ExtendedPieces(tx);
    CoreEndAt(buf, 6, tx);
    SkipStacksAt(buf, 6 + c, tx.stacks);
    StripPieces(buf, tx.version, CoreBytes(tx), tx.locktime, |tx.ins|, 6 + c + |StacksBytes(tx.stacks)|);
  }

  lemma LegacyPieces(tx: Tx)
    requires WellFormed(tx)
    ensures At(Legacy(tx), 0, tx.version) && At(Legacy(tx), 4, CoreBytes(tx))
  {
    var buf := Legacy(tx);
    assert At(buf, 0, buf);
    AtSplit(buf, 0, tx.version + CoreBytes(tx), tx.locktime);
    AtSplit(buf, 0, tx.version, CoreBytes(tx));
  }

  lemma VarIntHead(n: nat)
    requires n <= MAX_U32
    ensures (VarInt(n)[0] == 0 <==> n == 0) && (VarInt(n)[0] == 1 <==> n == 1) && (n == 0 ==> |VarInt(n)| == 1)
  {
    hide EncodeLE;
  }

  lemma LegacyLength(tx: Tx)
    requires WellFormed(tx)
    ensures |Legacy(tx)| >= 10
  {
    hide VarInt;
    hide InsBytes;
    hide OutsBytes;
  }

  lemma NoInputs(ins: seq<TxIn>)
    requires ins == []
    ensures InsBytes(ins) == []
  {
  }

  /** A legacy serialization shows the marker exactly when it has no inputs and one output. */
  lemma LegacyMarker(tx: Tx)
    requires WellFormed(tx)
    ensures HasMarker(Legacy(tx)) <==> |tx.ins| == 0 && |tx.outs| == 1
    ensures IsSegwit(Legacy(tx)) <==> HasMarker(Legacy(tx))
  {
    hide Legacy;
    hide CoreBytes;
    hide InsBytes;
    hide OutsBytes;
    hide VarInt;
    hide At;
    var buf := Legacy(tx);
    LegacyLength(tx);
    LegacyPieces(tx);
    CorePieces(buf, 4, tx);
    VarIntHead(|tx.ins|);
    VarIntHead(|tx.outs|);
    AtIndex(buf, 4, VarInt(|tx.ins|), 0);
    if |tx.ins| == 0 {
      NoInputs(tx.ins);
      AtIndex(buf, 5, VarInt(|tx.outs|), 0);
    }
  }

  lemma {:induction false} StacksEnd(buf: seq<Byte>, i: nat, n: nat)
    ensures SkipStacks(buf, i, n).Some? ==> SkipStacks(buf, i, n).value >= i
    decreases n
  {
    if n > 0 {
      var r := ReadVarInt(buf, i, true);
      if r.Some? {
        ItemsEnd(buf, i + r.value.1, r.value.0);
        var j := SkipItems(buf, i + r.value.1, r.value.0);
        if j.Some? {
          StacksEnd(buf, j.value, n - 1);
        }
      }
    }
  }

  lemma {:induction false} ItemsEnd(buf: seq<Byte>, i: nat, n: nat)
    ensures SkipItems(buf, i, n).Some? ==> SkipItems(buf, i, n).value >= i
    decreases n
  {
    if n > 0 {
      var r := ReadVarInt(buf, i, true);
      if r.Some? {
        ItemsEnd(buf, i + r.value.1 + r.value.0, n - 1);
      }
    }
  }

  /** Whatever is stripped comes out at least two bytes shorter. */
  lemma StripShortens(buf: seq<Byte>)
    requires IsSegwit(buf) && Stripped(buf).Some?
    ensures |Stripped(buf).value| <= |buf| - 2
  {
    var (inputs, k) := CoreEnd(buf, 6).value;
    StacksEnd(buf, k, inputs);
  }

  /**
   * A legacy serialization is returned unchanged exactly when it does not
   * look like an extended one, that is unless it has no inputs and exactly
   * one output.
   */
  lemma StripLegacy(tx: Tx)
    requires WellFormed(tx)
    ensures Stripped(Legacy(tx)) == Some(Legacy(tx)) <==> !(|tx.ins| == 0 && |tx.outs| == 1)
  {
    LegacyMarker(tx);
    if IsSegwit(Legacy(tx)) && Stripped(Legacy(tx)).Some? {
      StripShortens(Legacy(tx));
    }
  }

  // ------------------------------------------------------- outputs by index

  lemma {:induction false} OutputFromAt(buf: seq<Byte>, i: nat, outs: seq<TxOut>, k: nat)
    requires (forall j | 0 <= j < |outs| :: OutShape(outs[j])) && At(buf, i, OutsBytes(outs)) && k < |outs|
    ensures OutputFrom(buf, i, k)
         == if forall j | 0 <= j <= k :: outs[j].value <= MAX_SAFE_INTEGER then Some(outs[k]) else None
    decreases k
  {
    hide ReadVarInt;
    hide VarInt;
    hide OutBytes;
    hide LittleEndian;
    hide At;
    var o := outs[0];
    OutputAt(buf, i, o, OutsBytes(outs[1..]), true);
    if k > 0 {
      OutputFromAt(buf, i + |OutBytes(o)|, outs[1..], k - 1);
      if o.value <= MAX_SAFE_INTEGER {
        SafeShift(outs, k);
      }
    }
  }

  lemma SafeShift(outs: seq<TxOut>, k: nat)
    requires 0 < k < |outs| && outs[0].value <= MAX_SAFE_INTEGER
    ensures (forall j | 0 <= j <= k - 1 :: outs[1..][j].value <= MAX_SAFE_INTEGER)
       <==> (forall j | 0 <= j <= k :: outs[j].value <= MAX_SAFE_INTEGER)
  {
    if forall j | 0 <= j <= k - 1 :: outs[1..][j].value <= MAX_SAFE_INTEGER {
      forall j | 0 <= j <= k
        ensures outs[j].value <= MAX_SAFE_INTEGER
      {
        if j > 0 {
          assert outs[1..][j - 1] == outs[j];
        }
      }
    }
  }

  /** A serialization of `tx` that the parsers place correctly: the extended one, or a legacy one that shows no marker. */
  predicate Serializes(buf: seq<Byte>, tx: Tx)
    requires WellFormed(tx)
  {
    buf == Extended(tx) || (buf == Legacy(tx) && |tx.ins| > 0)
  }

  lemma CoreStarts(buf: seq<Byte>, tx: Tx) returns (start: nat)
    requires WellFormed(tx) && Serializes(buf, tx)
    ensures start == if HasMarker(buf) then 6 else 4
    ensures At(buf, start, CoreBytes(tx))
  {
    if buf == Extended(tx) {
      ExtendedPieces(tx);
      start := 6;
    } else {
      LegacyPieces(tx);
      LegacyMarker(tx);
      start := 4;
    }
  }

  lemma OutputsAtFrom(buf: seq<Byte>, start: nat, inputs: nat, size: nat, j: nat, wide: bool, checked: bool)
    requires start == if HasMarker(buf) then 6 else 4
    requires ReadVarInt(buf, start, wide) == Some((inputs, size)) && SkipInputs(buf, start + size, inputs, wide, checked) == Some(j)
    ensures OutputsAt(buf, wide, checked) == Some(j)
  {
    hide ReadVarInt;
    hide SkipInputs;
  }

  lemma OutputsFound(buf: seq<Byte>, tx: Tx, wide: bool, checked: bool) returns (j: nat)
    requires WellFormed(tx) && Serializes(buf, tx) && (wide || (|tx.ins| <= 0xffff && ShortIns(tx.ins)))
    ensures |buf| >= 5 && OutputsAt(buf, wide, checked) == Some(j)
    ensures At(buf, j, VarInt(|tx.outs|)) && At(buf, j + |VarInt(|tx.outs|)|, OutsBytes(tx.outs))
  {
    hide VarInt;
    hide At;
    hide CoreBytes;
    hide ReadVarInt;
    hide SkipInputs;
    hide OutputsAt;
    hide InsBytes;
    hide OutsBytes;
    hide Serializes;
    var start := CoreStarts(buf, tx);
    CorePieces(buf, start, tx);
    VarIntAt(buf, start, |tx.ins|, wide);
    SkipInputsAt(buf, start + |VarInt(|tx.ins|)|, tx.ins, wide, checked);
    j := start + |VarInt(|tx.ins|)| + |InsBytes(tx.ins)|;
    AtEnd(buf, start, VarInt(|tx.ins|));
    OutputsAtFrom(buf, start, |tx.ins|, |VarInt(|tx.ins|)|, j, wide, checked);
  }

  lemma OutputOfFrom(buf: seq<Byte>, index: nat, j: nat, outputs: nat, size: nat)
    requires OutputsAt(buf, true, false) == Some(j) && ReadVarInt(buf, j, true) == Some((outputs, size))
    ensures OutputOf(buf, index) == if index >= outputs then None else OutputFrom(buf, j + size, index)
  {
    hide ReadVarInt;
    hide OutputsAt;
    hide OutputFrom;
  }

  /** `parseOutput` returns output `index` when it exists and every value up to it is a safe integer. */
  lemma ParseOutputMeaning(buf: seq<Byte>, tx: Tx, index: nat)
    requires WellFormed(tx) && Serializes(buf, tx)
    ensures OutputOf(buf, index)
         == if index < |tx.outs| && forall j | 0 <= j <= index :: tx.outs[j].value <= MAX_SAFE_INTEGER
            then Some(tx.outs[index]) else None
  {
    hide ReadVarInt;
    hide OutputsAt;
    hide OutputFrom;
    hide OutputOf;
    hide OutsBytes;
    hide VarInt;
    var j := OutputsFound(buf, tx, true, false);
    VarIntAt(buf, j, |tx.outs|, true);
    OutputOfFrom(buf, index, j, |tx.outs|, |VarInt(|tx.outs|)|);
    if index < |tx.outs| {
      OutputFromAt(buf, j + |VarInt(|tx.outs|)|, tx.outs, index);
    }
  }

  // ------------------------------------------------------ the matching output

  /** The first output that pays `spk`. */
  function FirstMatch(outs: seq<TxOut>, spk: seq<Byte>): (r: Option<nat>)
    ensures r.Some? ==> r.value < |outs| && outs[r.value].script == spk
    ensures r.Some? ==> forall j | 0 <= j < r.value :: outs[j].script != spk
    ensures r.None? ==> forall j | 0 <= j < |outs| :: outs[j].script != spk
  {
    if outs == [] then None
    else if outs[0].script == spk then Some(0)
    else
      match FirstMatch(outs[1..], spk)
      case None => None
      case Some(k) => Some(k + 1)
  }

  lemma PassOneOutput(buf: seq<Byte>, i: nat, n: nat, spk: seq<Byte>, len: nat, size: nat)
    requires n > 0 && ReadVarInt(buf, i + 8, false) == Some((len, size)) && i + 8 + size + len <= |buf|
    ensures ValueFrom(buf, i, n, spk)
         == if buf[i + 8 + size..i + 8 + size + len] == spk then Some(LittleEndian(buf[i..i + 8]))
            else ValueFrom(buf, i + 8 + size + len, n - 1, spk)
  {
  }

  lemma {:induction false} ValueFromAt(buf: seq<Byte>, i: nat, outs: seq<TxOut>, spk: seq<Byte>)
    requires (forall j | 0 <= j < |outs| :: OutShape(outs[j])) && At(buf, i, OutsBytes(outs)) && ShortOuts(outs)
    ensures ValueFrom(buf, i, |outs|, spk)
         == match FirstMatch(outs, spk) case None => None case Some(k) => Some(outs[k].value)
    decreases |outs|
  {
    hide ReadVarInt;
    hide VarInt;
    hide LittleEndian;
    hide At;
    if outs != [] {
      var o, rest := outs[0], outs[1..];
      OutputAt(buf, i, o, OutsBytes(rest), false);
      PassOneOutput(buf, i, |outs|, spk, |o.script|, |VarInt(|o.script|)|);
      ValueFromAt(buf, i + |OutBytes(o)|, rest, spk);
    }
  }

  predicate WithinContractLimits(tx: Tx)
  {
    |tx.ins| <= 0xffff && |tx.outs| <= 0xffff && ShortIns(tx.ins) && ShortOuts(tx.outs)
  }

  /** The contract answers the value of the first output that pays `spk`, if there is one. */
  lemma FindValueMeaning(buf: seq<Byte>, tx: Tx, spk: seq<Byte>)
    requires WellFormed(tx) && WithinContractLimits(tx) && Serializes(buf, tx)
    ensures ValueOf(buf, spk) == match FirstMatch(tx.outs, spk) case None => None case Some(k) => Some(tx.outs[k].value)
  {
    hide ReadVarInt;
    hide OutputsAt;
    hide ValueFrom;
    hide FirstMatch;
    hide OutsBytes;
    hide VarInt;
    var j := OutputsFound(buf, tx, false, true);
    VarIntAt(buf, j, |tx.outs|, false);
    ValueFromAt(buf, j + |VarInt(|tx.outs|)|, tx.outs, spk);
  }

  /** The outputs the relayer can reach: at most 64, and none after an unsafe value. */
  predicate Reachable(tx: Tx, k: nat)
    requires k < |tx.outs|
  {
    k < MAX_OUTPUTS_SEARCHED && forall j | 0 <= j <= k :: tx.outs[j].value <= MAX_SAFE_INTEGER
  }

  lemma {:induction false} IndexFromMeaning(buf: seq<Byte>, tx: Tx, spk: seq<Byte>, from: nat, k: nat)
    requires WellFormed(tx) && Serializes(buf, tx) && FirstMatch(tx.outs, spk) == Some(k) && from <= k
    ensures IndexFrom(buf, spk, from) == if Reachable(tx, k) then Some(k) else None
    decreases k - from
  {
    hide OutputOf;
    ParseOutputMeaning(buf, tx, from);
    if from < k {
      IndexFromMeaning(buf, tx, spk, from + 1, k);
    }
  }

  lemma {:induction false} IndexFromNone(buf: seq<Byte>, tx: Tx, spk: seq<Byte>, from: nat)
    requires WellFormed(tx) && Serializes(buf, tx) && FirstMatch(tx.outs, spk) == None
    ensures IndexFrom(buf, spk, from) == None
    decreases MAX_OUTPUTS_SEARCHED - from
  {
    hide OutputOf;
    if from < MAX_OUTPUTS_SEARCHED {
      ParseOutputMeaning(buf, tx, from);
      IndexFromNone(buf, tx, spk, from + 1);
    }
  }

  /**
   * The two parsers agree on the collateral. For every transaction within the
   * contract's limits, the relayer's search over the full serialization finds
   * an output exactly when the contract's, over the stripped one, finds a
   * value and that output is within the relayer's reach; the output found is
   * the first one paying the script and carries exactly the contract's value.
   */
  lemma ParsersAgree(tx: Tx, spk: seq<Byte>)
    requires WellFormed(tx) && WithinContractLimits(tx) && |tx.ins| > 0
    ensures Stripped(Extended(tx)) == Some(Legacy(tx))
    ensures var value, index := ValueOf(Legacy(tx), spk), IndexFrom(Extended(tx), spk, 0);
            && (index.Some? ==> value.Some? && OutputOf(Extended(tx), index.value) == Some(TxOut(value.value, spk)))
            && (index.Some? <==> value.Some? && FirstMatch(tx.outs, spk).Some? && Reachable(tx, FirstMatch(tx.outs, spk).value))
  {
    StripExtended(tx);
    FindValueMeaning(Legacy(tx), tx, spk);
    match FirstMatch(tx.outs, spk)
    case None =>
      IndexFromNone(Extended(tx), tx, spk, 0);
    case Some(k) =>
      IndexFromMeaning(Extended(tx), tx, spk, 0, k);
      ParseOutputMeaning(Extended(tx), tx, k);
  }
}
