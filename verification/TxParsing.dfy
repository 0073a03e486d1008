/**
 * The two transaction parsers: the relayer's (relayer/src/bitcoin/tx.ts,
 * relayer/src/repay-watcher/handler.ts) and the contract's
 * (spv-types/src/btc_parser.rs). `None` stands for a thrown RangeError in
 * the first and for the `None` answer of the second.
 */
module TxParsing {
  import opened Wrappers
  import opened Bytes
  import opened TxFormat

  // ------------------------------------------------------------ reading

  /** A variable-length integer and its size. `wide` readers accept the 5- and 9-byte forms, the contract's does not. */
  function ReadVarInt(buf: seq<Byte>, i: nat, wide: bool): (r: Option<(nat, nat)>)
    ensures r.Some? ==> i + r.value.1 <= |buf| && r.value.1 >= 1
  {
    if i >= |buf| then None
    else if buf[i] < 0xfd then Some((buf[i], 1))
    else if buf[i] == 0xfd then
      if i + 3 > |buf| then None else Some((LittleEndian(buf[i + 1..i + 3]), 3))
    else if !wide then None
    else if buf[i] == 0xfe then
      if i + 5 > |buf| then None else Some((LittleEndian(buf[i + 1..i + 5]), 5))
    else
      if i + 9 > |buf| || LittleEndian(buf[i + 5..i + 9]) > 0 then None
      else Some((LittleEndian(buf[i + 1..i + 5]), 9))
  }

  /** Where `n` inputs starting at `i` end. Only `checked` readers refuse inputs that run past the buffer. */
  function SkipInputs(buf: seq<Byte>, i: nat, n: nat, wide: bool, checked: bool): (r: Option<nat>)
    ensures r.Some? && checked && i <= |buf| ==> i <= r.value <= |buf|
    decreases n
  {
    if n == 0 then Some(i)
    else if checked && i + 36 > |buf| then None
    else
      match ReadVarInt(buf, i + 36, wide)
      case None => None
      case Some((len, size)) =>
        var j := i + 36 + size + len + 4;
        if checked && j > |buf| then None else SkipInputs(buf, j, n - 1, wide, checked)
  }

  /** Where `n` outputs starting at `i` end. */
  function SkipOutputs(buf: seq<Byte>, i: nat, n: nat): (r: Option<nat>)
    ensures r.Some? && i <= |buf| ==> i <= r.value <= |buf|
    decreases n
  {
    if n == 0 then Some(i)
    else if i + 8 > |buf| then None
    else
      match ReadVarInt(buf, i + 8, true)
      case None => None
      case Some((len, size)) =>
        var j := i + 8 + size + len;
        if j > |buf| then None else SkipOutputs(buf, j, n - 1)
  }

  function SkipItems(buf: seq<Byte>, i: nat, n: nat): Option<nat>
    decreases n
  {
    if n == 0 then Some(i)
    else
      match ReadVarInt(buf, i, true)
      case None => None
      case Some((len, size)) => SkipItems(buf, i + size + len, n - 1)
  }

  /** Where `n` witness stacks starting at `i` end. */
  function SkipStacks(buf: seq<Byte>, i: nat, n: nat): Option<nat>
    decreases n
  {
    if n == 0 then Some(i)
    else
      match ReadVarInt(buf, i, true)
      case None => None
      case Some((items, size)) =>
        match SkipItems(buf, i + size, items)
        case None => None
        case Some(j) => SkipStacks(buf, j, n - 1)
  }

  predicate HasMarker(buf: seq<Byte>) { |buf| > 5 && buf[4] == 0 && buf[5] == 1 }

  predicate IsSegwit(buf: seq<Byte>) { |buf| > 6 && HasMarker(buf) }

  /** Where the outputs end, from their count at `j`. */
  function OutputsEnd(buf: seq<Byte>, j: nat): (r: Option<nat>)
    ensures r.Some? && j <= |buf| ==> j <= r.value <= |buf|
  {
    match ReadVarInt(buf, j, true)
    case None => None
    case Some((outputs, size)) => SkipOutputs(buf, j + size, outputs)
  }

  /** The input count at `i`, and where the outputs end. */
  function CoreEnd(buf: seq<Byte>, i: nat): (r: Option<(nat, nat)>)
    ensures r.Some? && i <= |buf| ==> i <= r.value.1 <= |buf|
  {
    match ReadVarInt(buf, i, true)
    case None => None
    case Some((inputs, size)) =>
      match SkipInputs(buf, i + size, inputs, true, true)
      case None => None
      case Some(j) => if OutputsEnd(buf, j).Some? then Some((inputs, OutputsEnd(buf, j).value)) else None
  }

  /** What `stripWitness` computes: the version, the inputs and outputs, and the last four bytes after the stacks. */
  function Stripped(buf: seq<Byte>): Option<seq<Byte>>
  {
    if !IsSegwit(buf) then Some(buf)
    else
      match CoreEnd(buf, 6)
      case None => None
      case Some((inputs, k)) =>
        match SkipStacks(buf, k, inputs)
        case None => None
        case Some(w) => if w + 4 > |buf| then None else Some(buf[..4] + buf[6..k] + buf[w..w + 4])
  }

  /** What has been copied when the cursor stands at `i`: everything but the marker and flag. */
  function Kept(buf: seq<Byte>, i: nat): seq<Byte>
    requires 6 <= i <= |buf|
  {
    buf[..4] + buf[6..i]
  }

  lemma KeptMore(buf: seq<Byte>, i: nat, end: nat)
    requires 6 <= i <= end <= |buf|
    ensures Kept(buf, i) + buf[i..end] == Kept(buf, end)
  {
  }

  /** The stripping loop: a cursor over the buffer and an output that grows piece by piece. */
  method StripWitness(buf: seq<Byte>) returns (r: Option<seq<Byte>>)
    ensures r == Stripped(buf)
  {
    if !IsSegwit(buf) {
      return Some(buf);
    }
    var core := CopyCore(buf, 6);
    if core.None? {
      return None;
    }
    var (inputCount, i, out) := core.value;
    var skipped := SkipWitness(buf, i, inputCount);
    if skipped.None? || skipped.value + 4 > |buf| {
      return None;
    }
    return Some(out + buf[skipped.value..skipped.value + 4]);
  }

  /** Everything up to the end of the outputs; answers the input count, the cursor and the copy. */
  method CopyCore(buf: seq<Byte>, start: nat) returns (r: Option<(nat, nat, seq<Byte>)>)
    requires 6 <= start <= |buf|
    ensures r.Some? <==> CoreEnd(buf, start).Some?
    ensures r.Some? ==> CoreEnd(buf, start) == Some((r.value.0, r.value.1))
    ensures r.Some? ==> 6 <= r.value.1 <= |buf| && r.value.2 == Kept(buf, r.value.1)
  {
    hide Kept;
    hide ReadVarInt;
    hide SkipInputs;
    hide SkipOutputs;
    var inputCount := ReadVarInt(buf, start, true);
    if inputCount.None? {
      return None;
    }
    var i := start + inputCount.value.1;
    KeptMore(buf, start, i);
    var inputs := CopyInputs(buf, i, inputCount.value.0, Kept(buf, start) + buf[start..i]);
    if inputs.None? {
      return None;
    }
    var outputCount := ReadVarInt(buf, inputs.value.1, true);
    if outputCount.None? {
      return None;
    }
    var j := inputs.value.1 + outputCount.value.1;
    KeptMore(buf, inputs.value.1, j);
    var outputs := CopyOutputs(buf, j, outputCount.value.0, inputs.value.0 + buf[inputs.value.1..j]);
    if outputs.None? {
      return None;
    }
    return Some((inputCount.value.0, outputs.value.1, outputs.value.0));
  }

  /** The input loop: each input's outpoint, script and sequence are copied as they stand. */
  method CopyInputs(buf: seq<Byte>, start: nat, inputCount: nat, copied: seq<Byte>) returns (r: Option<(seq<Byte>, nat)>)
    requires 6 <= start <= |buf| && copied == Kept(buf, start)
    ensures r.Some? <==> SkipInputs(buf, start, inputCount, true, true).Some?
    ensures r.Some? ==> Some(r.value.1) == SkipInputs(buf, start, inputCount, true, true)
    ensures r.Some? ==> 6 <= r.value.1 <= |buf| && r.value.0 == Kept(buf, r.value.1)
  {
    var i, out := start, copied;
    for k := 0 to inputCount
      invariant 6 <= i <= |buf| && out == Kept(buf, i)
      invariant SkipInputs(buf, i, inputCount - k, true, true) == SkipInputs(buf, start, inputCount, true, true)
    {
      if i + 36 > |buf| {
        return None;
      }
      var script := ReadVarInt(buf, i + 36, true);
      if script.None? {
        return None;
      }
      var end := i + 36 + script.value.1 + script.value.0 + 4;
      if end > |buf| {
        return None;
      }
      KeptMore(buf, i, end);
      out := out + buf[i..end];
      i := end;
    }
    return Some((out, i));
  }

  /** The output loop: each output's value and script are copied as they stand. */
  method CopyOutputs(buf: seq<Byte>, start: nat, outputCount: nat, copied: seq<Byte>) returns (r: Option<(seq<Byte>, nat)>)
    requires 6 <= start <= |buf| && copied == Kept(buf, start)
    ensures r.Some? <==> SkipOutputs(buf, start, outputCount).Some?
    ensures r.Some? ==> Some(r.value.1) == SkipOutputs(buf, start, outputCount)
    ensures r.Some? ==> 6 <= r.value.1 <= |buf| && r.value.0 == Kept(buf, r.value.1)
  {
    var i, out := start, copied;
    for k := 0 to outputCount
      invariant 6 <= i <= |buf| && out == Kept(buf, i)
      invariant SkipOutputs(buf, i, outputCount - k) == SkipOutputs(buf, start, outputCount)
    {
      if i + 8 > |buf| {
        return None;
      }
      var script := ReadVarInt(buf, i + 8, true);
      if script.None? {
        return None;
      }
      var end := i + 8 + script.value.1 + script.value.0;
      if end > |buf| {
        return None;
      }
      KeptMore(buf, i, end);
      out := out + buf[i..end];
      i := end;
    }
    return Some((out, i));
  }

  /** The witness loop: one stack per input, none of it copied. */
  method SkipWitness(buf: seq<Byte>, start: nat, inputCount: nat) returns (r: Option<nat>)
    ensures r == SkipStacks(buf, start, inputCount)
  {
    hide ReadVarInt;
    hide SkipItems;
    var i: nat := start;
    for k := 0 to inputCount
      invariant SkipStacks(buf, i, inputCount - k) == SkipStacks(buf, start, inputCount)
    {
      var stack := ReadVarInt(buf, i, true);
      if stack.None? {
        return None;
      }
      var skipped := SkipStack(buf, i + stack.value.1, stack.value.0);
      if skipped.None? {
        return None;
      }
      i := skipped.value;
    }
    return Some(i);
  }

  /** The inner loop over one stack's items. */
  method SkipStack(buf: seq<Byte>, start: nat, items: nat) returns (r: Option<nat>)
    ensures r == SkipItems(buf, start, items)
  {
    var i := start;
    for j := 0 to items
      invariant SkipItems(buf, i, items - j) == SkipItems(buf, start, items)
    {
      var item := ReadVarInt(buf, i, true);
      if item.None? {
        return None;
      }
      i := i + item.value.1 + item.value.0;
    }
    return Some(i);
  }

  // ----------------------------------------------------- one output (relayer)

  const MAX_SAFE_INTEGER: nat := 0x1f_ffff_ffff_ffff

  /** Output `k` counted from position `i`; every value read on the way must be a safe integer. */
  function OutputFrom(buf: seq<Byte>, i: nat, k: nat): Option<TxOut>
    decreases k
  {
    if i + 8 > |buf| || LittleEndian(buf[i..i + 8]) > MAX_SAFE_INTEGER then None
    else
      match ReadVarInt(buf, i + 8, true)
      case None => None
      case Some((len, size)) =>
        var start := i + 8 + size;
        if start + len > |buf| then None
        else if k == 0 then Some(TxOut(LittleEndian(buf[i..i + 8]), buf[start..start + len]))
        else OutputFrom(buf, start + len, k - 1)
  }

  /** Where the outputs' count stands, skipping the marker if there is one. */
  function OutputsAt(buf: seq<Byte>, wide: bool, checked: bool): Option<nat>
  {
    var start := if HasMarker(buf) then 6 else 4;
    match ReadVarInt(buf, start, wide)
    case None => None
    case Some((inputs, size)) => SkipInputs(buf, start + size, inputs, wide, checked)
  }

  function OutputOf(buf: seq<Byte>, index: nat): Option<TxOut>
  {
    match OutputsAt(buf, true, false)
    case None => None
    case Some(j) =>
      match ReadVarInt(buf, j, true)
      case None => None
      case Some((outputs, size)) => if index >= outputs then None else OutputFrom(buf, j + size, index)
  }

  /** The relayer's input loop when it looks for an output: nothing but the script lengths is checked. */
  method PassInputs(buf: seq<Byte>, start: nat, inputCount: nat) returns (r: Option<nat>)
    ensures r == SkipInputs(buf, start, inputCount, true, false)
  {
    var i := start;
    for k := 0 to inputCount
      invariant SkipInputs(buf, i, inputCount - k, true, false) == SkipInputs(buf, start, inputCount, true, false)
    {
      var script := ReadVarInt(buf, i + 36, true);
      if script.None? {
        return None;
      }
      i := i + 36 + script.value.1 + script.value.0 + 4;
    }
    return Some(i);
  }

  /** The relayer's output loop: every output up to `index` is parsed. */
  method ReadOutput(buf: seq<Byte>, start: nat, index: nat) returns (r: Option<TxOut>)
    ensures r == OutputFrom(buf, start, index)
  {
    var i: nat, k: nat := start, 0;
    while true
      invariant k <= index && OutputFrom(buf, i, index - k) == OutputFrom(buf, start, index)
      decreases index - k
    {
      if i + 8 > |buf| || LittleEndian(buf[i..i + 8]) > MAX_SAFE_INTEGER {
        return None;
      }
      var valueSat := LittleEndian(buf[i..i + 8]);
      var script := ReadVarInt(buf, i + 8, true);
      if script.None? {
        return None;
      }
      var from := i + 8 + script.value.1;
      i := from + script.value.0;
      if i > |buf| {
        return None;
      }
      if k == index {
        return Some(TxOut(valueSat, buf[from..i]));
      }
      k := k + 1;
    }
  }

  method ParseOutput(buf: seq<Byte>, index: nat) returns (r: Option<TxOut>)
    ensures r == OutputOf(buf, index)
  {
    hide ReadVarInt;
    hide SkipInputs;
    var i: nat := if HasMarker(buf) then 6 else 4;
    var inputCount := ReadVarInt(buf, i, true);
    if inputCount.None? {
      return None;
    }
    var passed := PassInputs(buf, i + inputCount.value.1, inputCount.value.0);
    if passed.None? {
      return None;
    }
    var outputCount := ReadVarInt(buf, passed.value, true);
    if outputCount.None? || index >= outputCount.value.0 {
      return None;
    }
    r := ReadOutput(buf, passed.value + outputCount.value.1, index);
  }

  const MAX_OUTPUTS_SEARCHED: nat := 64

  /** The first output from `from` whose script is `spk`; the search ends at the first output that does not parse. */
  function IndexFrom(buf: seq<Byte>, spk: seq<Byte>, from: nat): Option<nat>
    decreases MAX_OUTPUTS_SEARCHED - from
  {
    if from >= MAX_OUTPUTS_SEARCHED then None
    else
      match OutputOf(buf, from)
      case None => None
      case Some(o) => if o.script == spk then Some(from) else IndexFrom(buf, spk, from + 1)
  }

  method FindOutputIndex(buf: seq<Byte>, spk: seq<Byte>) returns (r: Option<nat>)
    ensures r == IndexFrom(buf, spk, 0)
  {
    for i := 0 to MAX_OUTPUTS_SEARCHED
      invariant IndexFrom(buf, spk, i) == IndexFrom(buf, spk, 0)
    {
      var o := ParseOutput(buf, i);
      if o.None? {
        return None;
      }
      if o.value.script == spk {
        return Some(i);
      }
    }
    return None;
  }

  // ------------------------------------------------- matching output (contract)

  /** The value of the first of `n` outputs from `i` whose script is `spk`. */
  function ValueFrom(buf: seq<Byte>, i: nat, n: nat, spk: seq<Byte>): Option<nat>
    decreases n
  {
    if n == 0 || i + 8 > |buf| then None
    else
      match ReadVarInt(buf, i + 8, false)
      case None => None
      case Some((len, size)) =>
        var start := i + 8 + size;
        if start + len > |buf| then None
        else if buf[start..start + len] == spk then Some(LittleEndian(buf[i..i + 8]))
        else ValueFrom(buf, start + len, n - 1, spk)
  }

  function ValueOf(buf: seq<Byte>, spk: seq<Byte>): Option<nat>
  {
    if |buf| < 5 then None
    else
      match OutputsAt(buf, false, true)
      case None => None
      case Some(j) =>
        match ReadVarInt(buf, j, false)
        case None => None
        case Some((outputs, size)) => ValueFrom(buf, j + size, outputs, spk)
  }

  /** Eight bytes accumulated least significant first. */
  method ReadU64(buf: seq<Byte>, pos: nat) returns (v: nat)
    requires pos + 8 <= |buf|
    ensures v == LittleEndian(buf[pos..pos + 8])
  {
    v := 0;
    var scale: nat := 1;
    assert buf[pos..pos] == [];
    for i := 0 to 8
      invariant scale == Pow256(i) && v == LittleEndian(buf[pos..pos + i])
    {
      LittleEndianAppend(buf[pos..pos + i], buf[pos + i]);
      assert buf[pos..pos + i] + [buf[pos + i]] == buf[pos..pos + i + 1];
      v := v + buf[pos + i] * scale;
      scale := scale * 256;
    }
  }

  /** The contract's input loop, every read checked against the buffer's end. */
  method PassInputsChecked(buf: seq<Byte>, start: nat, inputCount: nat) returns (r: Option<nat>)
    ensures r == SkipInputs(buf, start, inputCount, false, true)
  {
    var pos: nat := start;
    for k := 0 to inputCount
      invariant SkipInputs(buf, pos, inputCount - k, false, true) == SkipInputs(buf, start, inputCount, false, true)
    {
      if pos + 36 > |buf| {
        return None;
      }
      var script := ReadVarInt(buf, pos + 36, false);
      if script.None? {
        return None;
      }
      pos := pos + 36 + script.value.1 + script.value.0;
      if pos + 4 > |buf| {
        return None;
      }
      pos := pos + 4;
    }
    return Some(pos);
  }

  /** The contract's output loop: the first output with the expected script answers. */
  method MatchOutput(buf: seq<Byte>, start: nat, outputCount: nat, spk: seq<Byte>) returns (r: Option<nat>)
    ensures r == ValueFrom(buf, start, outputCount, spk)
  {
    var pos: nat := start;
    for k := 0 to outputCount
      invariant ValueFrom(buf, pos, outputCount - k, spk) == ValueFrom(buf, start, outputCount, spk)
    {
      if pos + 8 > |buf| {
        return None;
      }
      var value := ReadU64(buf, pos);
      var script := ReadVarInt(buf, pos + 8, false);
      if script.None? {
        return None;
      }
      var from := pos + 8 + script.value.1;
      var end := from + script.value.0;
      if end > |buf| {
        return None;
      }
      if buf[from..end] == spk {
        return Some(value);
      }
      pos := end;
    }
    return None;
  }

  method FindP2wshOutput(buf: seq<Byte>, spk: seq<Byte>) returns (r: Option<nat>)
    ensures r == ValueOf(buf, spk)
  {
    hide ReadVarInt;
    hide SkipInputs;
    if |buf| < 5 {
      return None;
    }
    var pos: nat := 4;
    if buf[4] == 0 {
      if |buf| == 5 {
        return None;
      }
      if buf[5] == 1 {
        pos := 6;
      }
    }
    var inputCount := ReadVarInt(buf, pos, false);
    if inputCount.None? {
      return None;
    }
    var passed := PassInputsChecked(buf, pos + inputCount.value.1, inputCount.value.0);
    assert passed == OutputsAt(buf, false, true);
    if passed.None? {
      return None;
    }
    var outputCount := ReadVarInt(buf, passed.value, false);
    if outputCount.None? {
      return None;
    }
    r := MatchOutput(buf, passed.value + outputCount.value.1, outputCount.value.0, spk);
  }
}
