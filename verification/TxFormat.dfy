/** Bitcoin transactions and their two serializations: legacy, and extended with witnesses (BIP 144, "Serialization"). */
module TxFormat {
  import opened Bytes

  datatype TxIn = TxIn(prevout: seq<Byte>, script: seq<Byte>, sequence: seq<Byte>)

  datatype TxOut = TxOut(value: nat, script: seq<Byte>)

  /** A transaction; `stacks` holds one witness stack of items per input. */
  datatype Tx = Tx(version: seq<Byte>, ins: seq<TxIn>, outs: seq<TxOut>, stacks: seq<seq<seq<Byte>>>, locktime: seq<Byte>)

  const MAX_U32: nat := 0xffff_ffff

  predicate InShape(x: TxIn) { |x.prevout| == 36 && |x.sequence| == 4 && |x.script| <= MAX_U32 }

  predicate OutShape(o: TxOut) { o.value < Pow256(8) && |o.script| <= MAX_U32 }

  predicate StackShape(s: seq<seq<Byte>>) { |s| <= MAX_U32 && forall i | 0 <= i < |s| :: |s[i]| <= MAX_U32 }

  predicate WellFormed(tx: Tx)
  {
    && |tx.version| == 4 && |tx.locktime| == 4
    && |tx.ins| <= MAX_U32 && |tx.outs| <= MAX_U32 && |tx.stacks| == |tx.ins|
    && (forall i | 0 <= i < |tx.ins| :: InShape(tx.ins[i]))
    && (forall i | 0 <= i < |tx.outs| :: OutShape(tx.outs[i]))
    && (forall i | 0 <= i < |tx.stacks| :: StackShape(tx.stacks[i]))
  }

  // ---------------------------------------------------------- serialization

  lemma {:induction false} LittleEndianAppend(s: seq<Byte>, b: Byte)
    ensures LittleEndian(s + [b]) == LittleEndian(s) + b * Pow256(|s|)
  {
    if s == [] {
      assert [b][1..] == [];
    } else {
      LittleEndianAppend(s[1..], b);
      assert (s + [b])[1..] == s[1..] + [b];
      TimesBase(b, Pow256(|s| - 1));
    }
  }

  lemma TimesBase(b: nat, p: nat)
    ensures b * (256 * p) == 256 * (b * p)
  {
  }

  function VarInt(n: nat): (s: seq<Byte>)
    requires n <= MAX_U32
    ensures |s| >= 1
  {
    if n < 0xfd then [n] else if n <= 0xffff then [0xfd] + EncodeLE(n, 2) else [0xfe] + EncodeLE(n, 4)
  }

  function Prefixed(s: seq<Byte>): seq<Byte>
    requires |s| <= MAX_U32
  {
    VarInt(|s|) + s
  }

  function InBytes(x: TxIn): seq<Byte>
    requires InShape(x)
  {
    x.prevout + Prefixed(x.script) + x.sequence
  }

  function OutBytes(o: TxOut): seq<Byte>
    requires OutShape(o)
  {
    EncodeLE(o.value, 8) + Prefixed(o.script)
  }

  function InsBytes(ins: seq<TxIn>): seq<Byte>
    requires forall i | 0 <= i < |ins| :: InShape(ins[i])
  {
    if ins == [] then [] else InBytes(ins[0]) + InsBytes(ins[1..])
  }

  function OutsBytes(outs: seq<TxOut>): seq<Byte>
    requires forall i | 0 <= i < |outs| :: OutShape(outs[i])
  {
    if outs == [] then [] else OutBytes(outs[0]) + OutsBytes(outs[1..])
  }

  function ItemsBytes(items: seq<seq<Byte>>): seq<Byte>
    requires forall i | 0 <= i < |items| :: |items[i]| <= MAX_U32
  {
    if items == [] then [] else Prefixed(items[0]) + ItemsBytes(items[1..])
  }

  function StacksBytes(stacks: seq<seq<seq<Byte>>>): seq<Byte>
    requires forall i | 0 <= i < |stacks| :: StackShape(stacks[i])
  {
    if stacks == [] then []
    else
      assert StackShape(stacks[0]);
      VarInt(|stacks[0]|) + ItemsBytes(stacks[0]) + StacksBytes(stacks[1..])
  }

  /** Inputs and outputs with their counts: the part both serializations share. */
  function CoreBytes(tx: Tx): seq<Byte>
    requires WellFormed(tx)
  {
    VarInt(|tx.ins|) + InsBytes(tx.ins) + VarInt(|tx.outs|) + OutsBytes(tx.outs)
  }

  function Legacy(tx: Tx): seq<Byte>
    requires WellFormed(tx)
  {
    tx.version + CoreBytes(tx) + tx.locktime
  }

  function Extended(tx: Tx): seq<Byte>
    requires WellFormed(tx)
  {
    tx.version + [0, 1] + CoreBytes(tx) + StacksBytes(tx.stacks) + tx.locktime
  }

  // ------------------------------------------------------- pieces in a buffer

  /** `piece` stands in `buf` at `i`. */
  ghost predicate At(buf: seq<Byte>, i: nat, piece: seq<Byte>)
  {
    i + |piece| <= |buf| && forall k {:trigger piece[k]} | 0 <= k < |piece| :: buf[i + k] == piece[k]
  }

  lemma AtSplit(buf: seq<Byte>, i: nat, a: seq<Byte>, b: seq<Byte>)
    requires At(buf, i, a + b)
    ensures At(buf, i, a) && At(buf, i + |a|, b)
  {
    var c := a + b;
    forall k | 0 <= k < |a|
      ensures buf[i + k] == a[k]
    {
      assert c[k] == a[k];
    }
    forall k | 0 <= k < |b|
      ensures buf[i + |a| + k] == b[k]
    {
      assert c[|a| + k] == b[k];
    }
  }

  lemma AtSlice(buf: seq<Byte>, i: nat, piece: seq<Byte>)
    requires At(buf, i, piece)
    ensures i + |piece| <= |buf| && buf[i..i + |piece|] == piece
  {
    forall k | 0 <= k < |piece|
      ensures buf[i..i + |piece|][k] == piece[k]
    {
    }
  }

  lemma AtIndex(buf: seq<Byte>, i: nat, piece: seq<Byte>, k: nat)
    requires At(buf, i, piece) && k < |piece|
    ensures buf[i + k] == piece[k]
  {
  }
}
