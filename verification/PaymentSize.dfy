/** Where the sizes of the fee estimate come from: the serialization of the payment itself (bitcoin-script/src/payment.ts). */
module PaymentSize {
  import opened Bytes
  import opened TxFormat
  import CoinSelection

  // ------------------------------------------------------ a P2WPKH payment

  /** The longest signature in DER form, with its type byte, and a compressed public key. */
  const SIGNATURE_BYTES: nat := 72
  const PUBKEY_BYTES: nat := 33

  /** An input that spends a P2WPKH output: nothing in its script, a signature and a public key in its witness. */
  predicate SpendsP2wpkh(x: TxIn, stack: seq<seq<Byte>>)
  {
    x.script == [] && |stack| == 2 && |stack[0]| <= SIGNATURE_BYTES && |stack[1]| == PUBKEY_BYTES
  }

  /** All inputs are of that kind, and the scripts of the outputs are short enough for a one-byte length. */
  predicate IsPayment(tx: Tx)
  {
    && WellFormed(tx) && |tx.outs| < 0xfd
    && (forall i | 0 <= i < |tx.ins| :: SpendsP2wpkh(tx.ins[i], tx.stacks[i]))
    && (forall i | 0 <= i < |tx.outs| :: |tx.outs[i].script| < 0xfd)
  }

  /** The weight and the virtual size of BIP 141: three times the size without witnesses, plus the size with them, over four. */
  function Weight(tx: Tx): nat
    requires WellFormed(tx)
  {
    3 * |Legacy(tx)| + |Extended(tx)|
  }

  function Vsize(tx: Tx): nat
    requires WellFormed(tx)
  {
    (Weight(tx) + 3) / 4
  }

  /** The bytes of the outputs' values, script lengths and scripts. */
  function OutSizes(outs: seq<TxOut>): nat
  {
    if outs == [] then 0 else 8 + 1 + |outs[0].script| + OutSizes(outs[1..])
  }

  // ------------------------------------------------------------ the parts

  lemma ShortVarInt(n: nat)
    requires n <= MAX_U32
    ensures |VarInt(n)| == if n < 0xfd then 1 else if n <= 0xffff then 3 else 5
  {
    hide EncodeLE;
  }

  lemma {:induction false} InsSize(ins: seq<TxIn>)
    requires forall i | 0 <= i < |ins| :: InShape(ins[i]) && ins[i].script == []
    ensures |InsBytes(ins)| == 41 * |ins|
    decreases |ins|
  {
    hide VarInt;
    ShortVarInt(0);
    if ins != [] {
      InsSize(ins[1..]);
    }
  }

  lemma {:induction false} OutsSize(outs: seq<TxOut>)
    requires forall i | 0 <= i < |outs| :: OutShape(outs[i]) && |outs[i].script| < 0xfd
    ensures |OutsBytes(outs)| == OutSizes(outs)
    decreases |outs|
  {
    hide VarInt;
    hide EncodeLE;
    if outs != [] {
      ShortVarInt(|outs[0].script|);
      OutsSize(outs[1..]);
    }
  }

  predicate TwoItems(stack: seq<seq<Byte>>) { |stack| == 2 && |stack[0]| <= SIGNATURE_BYTES && |stack[1]| == PUBKEY_BYTES }

  /** The signature is as long as signatures get. */
  predicate LongSignature(stack: seq<seq<Byte>>) { stack != [] && |stack[0]| == SIGNATURE_BYTES }

  lemma StackSize(stack: seq<seq<Byte>>)
    requires TwoItems(stack) && StackShape(stack)
    ensures |VarInt(|stack|) + ItemsBytes(stack)| == 36 + |stack[0]|
  {
    hide VarInt;
    ShortVarInt(2);
    ShortVarInt(|stack[0]|);
    ShortVarInt(|stack[1]|);
    var rest := stack[1..];
    assert rest[0] == stack[1] && rest[1..] == [];
    assert |ItemsBytes(rest)| == |Prefixed(stack[1])| + |ItemsBytes(rest[1..])|;
  }

  /** A witness takes 108 bytes, or fewer when its signature is shorter. */
  lemma {:induction false} StacksSize(stacks: seq<seq<seq<Byte>>>)
    requires forall i | 0 <= i < |stacks| :: StackShape(stacks[i]) && TwoItems(stacks[i])
    ensures |StacksBytes(stacks)| <= 108 * |stacks|
    ensures (forall i | 0 <= i < |stacks| :: LongSignature(stacks[i])) ==> |StacksBytes(stacks)| == 108 * |stacks|
    decreases |stacks|
  {
    hide VarInt;
    hide ItemsBytes;
    if stacks != [] {
      assert StackShape(stacks[0]) && TwoItems(stacks[0]);
      assert LongSignature(stacks[0]) <==> |stacks[0][0]| == SIGNATURE_BYTES;
      StackSize(stacks[0]);
      StacksSize(stacks[1..]);
    }
  }

  /** The two serializations of a payment, part by part. */
  lemma PaymentSizes(tx: Tx)
    requires IsPayment(tx)
    ensures |Legacy(tx)| == 8 + |VarInt(|tx.ins|)| + 41 * |tx.ins| + 1 + OutSizes(tx.outs)
    ensures |Extended(tx)| == |Legacy(tx)| + 2 + |StacksBytes(tx.stacks)|
  {
    hide VarInt;
    hide InsBytes;
    hide OutsBytes;
    hide StacksBytes;
    forall i | 0 <= i < |tx.ins|
      ensures tx.ins[i].script == []
    {
      assert SpendsP2wpkh(tx.ins[i], tx.stacks[i]);
    }
    InsSize(tx.ins);
    OutsSize(tx.outs);
    ShortVarInt(|tx.outs|);
  }

  // ------------------------------------------------------------ the estimate

  /**
   * The estimate is the virtual size the payment has with the longest
   * signatures, and so never less than its real size, up to 252 inputs; beyond
   * them the input count takes two bytes more, which the estimate leaves out.
   */
  lemma EstimateIsVsize(tx: Tx, recipientBytes: nat, withChange: bool)
    requires IsPayment(tx)
    requires |tx.outs| == (if withChange then 2 else 1) && |tx.outs[0].script| == recipientBytes
    requires withChange ==> |tx.outs[1].script| == CoinSelection.CHANGE_SCRIPT_BYTES
    ensures var longer := if |tx.ins| < 0xfd then 0 else if |tx.ins| <= 0xffff then 2 else 4;
            var estimate := CoinSelection.EstimateVsize(|tx.ins|, recipientBytes, withChange);
            && Vsize(tx) <= estimate + longer
            && ((forall i | 0 <= i < |tx.stacks| :: LongSignature(tx.stacks[i])) ==> Vsize(tx) == estimate + longer)
  {
    hide Legacy;
    hide Extended;
    hide StacksBytes;
    hide VarInt;
    PaymentSizes(tx);
    ShortVarInt(|tx.ins|);
    forall i | 0 <= i < |tx.stacks|
      ensures TwoItems(tx.stacks[i])
    {
      assert SpendsP2wpkh(tx.ins[i], tx.stacks[i]);
    }
    StacksSize(tx.stacks);
    TwoOutputs(tx.outs);
  }

  lemma TwoOutputs(outs: seq<TxOut>)
    requires 1 <= |outs| <= 2
    ensures OutSizes(outs) == 9 + |outs[0].script| + if |outs| == 2 then 9 + |outs[1].script| else 0
  {
    if |outs| == 2 {
      assert outs[1..][0] == outs[1] && outs[1..][1..] == [];
    } else {
      assert outs[1..] == [];
    }
  }
}
