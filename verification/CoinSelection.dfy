/** Input selection, fee and change of a P2WPKH payment (bitcoin-script/src/payment.ts). */
module CoinSelection {
  import opened Arithmetic
  import opened Wrappers

  const P2WPKH_DUST_LIMIT_SAT: nat := 294
  const TX_OVERHEAD_VB: nat := 11
  const P2WPKH_INPUT_VB: nat := 68
  /** Length of the payer's own P2WPKH script, which receives the change. */
  const CHANGE_SCRIPT_BYTES: nat := 22

  datatype Utxo = Utxo(txid: string, vout: nat, value: nat)

  /** Satoshis per virtual byte, as a fraction. */
  datatype FeeRate = FeeRate(num: nat, den: nat)

  /** Whose script an output pays: the recipient's, or the payer's own for the change. */
  datatype Payee = Recipient | Payer

  datatype Output = Output(to: Payee, value: nat)

  datatype Payment = Payment(inputs: seq<Utxo>, outputs: seq<Output>, feeSat: nat, changeSat: nat)

  datatype PaymentError =
    | InvalidAmount
    | InvalidFeeRate
    | InsufficientFunds(availableSat: nat, requiredSat: nat)

  function OutputVbytes(scriptBytes: nat): nat { 8 + 1 + scriptBytes }

  /** Estimated size with `inputs` inputs, the recipient's output and, if asked, a change output. */
  function EstimateVsize(inputs: nat, recipientBytes: nat, withChange: bool): nat
  {
    TX_OVERHEAD_VB + inputs * P2WPKH_INPUT_VB + OutputVbytes(recipientBytes)
    + (if withChange then OutputVbytes(CHANGE_SCRIPT_BYTES) else 0)
  }

  predicate Usable(rate: FeeRate) { rate.num > 0 && rate.den > 0 }

  /** The estimated size times the rate, rounded up. */
  function Fee(inputs: nat, recipientBytes: nat, withChange: bool, rate: FeeRate): nat
    requires Usable(rate)
  {
    (EstimateVsize(inputs, recipientBytes, withChange) * rate.num + rate.den - 1) / rate.den
  }

  function Total(utxos: seq<Utxo>): nat
  {
    if utxos == [] then 0 else Total(utxos[..|utxos| - 1]) + utxos[|utxos| - 1].value
  }

  function TotalOut(outputs: seq<Output>): nat
  {
    if outputs == [] then 0 else TotalOut(outputs[..|outputs| - 1]) + outputs[|outputs| - 1].value
  }

  /**
   * The payment is a transaction that pays the recipient the amount and keeps
   * the rest: its inputs are its outputs and the fee together, the recipient's
   * output comes first, and the payer's, if there is one, holds the change.
   */
  predicate Pays(p: Payment, amountSat: nat)
  {
    && p.inputs != [] && Total(p.inputs) == TotalOut(p.outputs) + p.feeSat
    && 1 <= |p.outputs| <= 2 && p.outputs[0] == Output(Recipient, amountSat)
    && (|p.outputs| == 2 <==> p.changeSat > 0)
    && (|p.outputs| == 2 ==> p.outputs[1] == Output(Payer, p.changeSat))
  }

  /** What the outputs of a payment add up to. */
  lemma OutputsAddUp(recipient: nat, change: nat)
    ensures TotalOut([Output(Recipient, recipient)]) == recipient
    ensures TotalOut([Output(Recipient, recipient), Output(Payer, change)]) == recipient + change
  {
    var one, two := [Output(Recipient, recipient)], [Output(Recipient, recipient), Output(Payer, change)];
    assert one[..|one| - 1] == [] && two[..|two| - 1] == one;
  }

  /** The outputs of the transaction, in the order they are added. */
  method AddOutputs(amountSat: nat, changeSat: nat) returns (outputs: seq<Output>)
    ensures TotalOut(outputs) == amountSat + changeSat && 1 <= |outputs| <= 2 && outputs[0] == Output(Recipient, amountSat)
    ensures (|outputs| == 2 <==> changeSat > 0) && (|outputs| == 2 ==> outputs[1] == Output(Payer, changeSat))
  {
    OutputsAddUp(amountSat, changeSat);
    outputs := [Output(Recipient, amountSat)];
    if changeSat > 0 {
      outputs := outputs + [Output(Payer, changeSat)];
    }
  }

  /** So split, the transaction pays. */
  lemma PaysSoSplit(p: Payment, amountSat: nat)
    requires p.inputs != [] && Total(p.inputs) == amountSat + p.changeSat + p.feeSat
    requires TotalOut(p.outputs) == amountSat + p.changeSat && 1 <= |p.outputs| <= 2 && p.outputs[0] == Output(Recipient, amountSat)
    requires (|p.outputs| == 2 <==> p.changeSat > 0) && (|p.outputs| == 2 ==> p.outputs[1] == Output(Payer, p.changeSat))
    ensures Pays(p, amountSat)
  {
  }

  lemma NoneTotal()
    ensures Total([]) == 0
  {
  }

  lemma OneMore(utxos: seq<Utxo>, i: nat)
    requires i < |utxos|
    ensures Total(utxos[..i + 1]) == Total(utxos[..i]) + utxos[i].value
  {
    assert utxos[..i + 1][..i] == utxos[..i];
  }

  /** The first `k` candidates pay the amount and the fee of a payment without change. */
  predicate Covers(utxos: seq<Utxo>, k: nat, recipientBytes: nat, amountSat: nat, rate: FeeRate)
    requires Usable(rate) && k <= |utxos|
  {
    k > 0 && Total(utxos[..k]) >= amountSat + Fee(k, recipientBytes, false, rate)
  }

  /** A change output never makes a payment cheaper. */
  lemma ChangeCostsMore(k: nat, recipientBytes: nat, rate: FeeRate)
    requires Usable(rate)
    ensures Fee(k, recipientBytes, false, rate) <= Fee(k, recipientBytes, true, rate)
  {
    var a, b := EstimateVsize(k, recipientBytes, false), EstimateVsize(k, recipientBytes, true);
    MulMonotone(a, b, rate.num);
    DivMonotone(a * rate.num + rate.den - 1, b * rate.num + rate.den - 1, rate.den);
  }

  /** The fee is the least whole number of satoshis not below rate times size. */
  lemma FeeIsCeiling(inputs: nat, recipientBytes: nat, withChange: bool, rate: FeeRate)
    requires Usable(rate)
    ensures var size, fee := EstimateVsize(inputs, recipientBytes, withChange), Fee(inputs, recipientBytes, withChange, rate);
            size * rate.num <= fee * rate.den < size * rate.num + rate.den
  {
    var n := EstimateVsize(inputs, recipientBytes, withChange) * rate.num + rate.den - 1;
    assert n == n / rate.den * rate.den + n % rate.den;
  }

  /**
   * Selection. It answers the shortest covering prefix and splits its value
   * exactly into amount, fee and change: change is zero or above dust, a
   * payment with change pays exactly the estimated fee, and one without pays
   * at least its estimate and less than the with-change fee plus dust. It
   * reports insufficient funds exactly when no prefix covers.
   */
  method BuildPayment(utxos: seq<Utxo>, recipientBytes: nat, amountSat: nat, rate: FeeRate)
    returns (r: Result<Payment, PaymentError>)
    ensures amountSat == 0 <==> r == Err(InvalidAmount)
    ensures amountSat > 0 && !Usable(rate) <==> r == Err(InvalidFeeRate)
    ensures r.Ok? ==>
              && Usable(rate)
              && var k, p := |r.value.inputs|, r.value;
              && k <= |utxos| && p.inputs == utxos[..k]
              && Covers(utxos, k, recipientBytes, amountSat, rate)
              && (forall j | 0 <= j < k :: !Covers(utxos, j, recipientBytes, amountSat, rate))
              && Pays(p, amountSat)
              && Total(p.inputs) == amountSat + p.feeSat + p.changeSat
              && (p.changeSat == 0 || p.changeSat >= P2WPKH_DUST_LIMIT_SAT)
              && (p.changeSat > 0 ==> p.feeSat == Fee(k, recipientBytes, true, rate))
              && (p.changeSat == 0 ==>
                    Fee(k, recipientBytes, false, rate) <= p.feeSat
                    < Fee(k, recipientBytes, true, rate) + P2WPKH_DUST_LIMIT_SAT)
    ensures amountSat > 0 && Usable(rate) ==>
              (r.Err? <==> forall j | 0 <= j <= |utxos| :: !Covers(utxos, j, recipientBytes, amountSat, rate))
    ensures amountSat > 0 && Usable(rate) && r.Err? ==>
              && r.error.InsufficientFunds? && r.error.availableSat == Total(utxos) < r.error.requiredSat
              && r.error.requiredSat == amountSat + Fee(if |utxos| > 1 then |utxos| else 1, recipientBytes, false, rate)
  {
    hide Fee;
    hide Total;
    hide TotalOut;
    hide Pays;
    assert Total([]) == 0 by { NoneTotal(); }
    if amountSat == 0 {
      return Err(InvalidAmount);
    }
    if !Usable(rate) {
      return Err(InvalidFeeRate);
    }
    var selected: seq<Utxo> := [];
    var total := 0;
    for i := 0 to |utxos|
      invariant selected == utxos[..i] && total == Total(utxos[..i])
      invariant forall j | 0 <= j <= i :: !Covers(utxos, j, recipientBytes, amountSat, rate)
    {
      selected := selected + [utxos[i]];
      total := total + utxos[i].value;
      OneMore(utxos, i);
      assert selected == utxos[..i + 1];
      ChangeCostsMore(i + 1, recipientBytes, rate);
      var feeWithChange := Fee(i + 1, recipientBytes, true, rate);
      var change := total - amountSat - feeWithChange;
      if change >= P2WPKH_DUST_LIMIT_SAT {
        var outputs := AddOutputs(amountSat, change);
        r := Ok(Payment(selected, outputs, feeWithChange, change));
        PaysSoSplit(r.value, amountSat);
        return;
      }
      var feeNoChange := Fee(i + 1, recipientBytes, false, rate);
      if total - amountSat >= feeNoChange {
        var outputs := AddOutputs(amountSat, 0);
        r := Ok(Payment(selected, outputs, total - amountSat, 0));
        PaysSoSplit(r.value, amountSat);
        return;
      }
    }
    assert utxos[..|utxos|] == utxos;
    var counted := if |utxos| > 1 then |utxos| else 1;
    var minFee := Fee(counted, recipientBytes, false, rate);
    assert !Covers(utxos, |utxos|, recipientBytes, amountSat, rate);
    return Err(InsufficientFunds(total, amountSat + minFee));
  }
}
