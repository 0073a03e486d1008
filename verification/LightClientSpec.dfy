/** The light client as a state machine: calls, their results and whole runs (bitcoin-spv/src/lib.rs). */
module LightClientSpec {
  import opened Wrappers
  import opened Bytes
  import opened SpvTypes
  import opened Difficulty
  import opened Merkle
  import opened HeaderTree
  import opened CanonicalIndex

  const MAX_HEADERS_PER_SUBMIT: nat := 16
  const MAX_FUTURE_DRIFT_SECS: nat := 2 * 60 * 60
  const MAX_U64: nat := 0xffff_ffff_ffff_ffff

  type U64 = x: nat | x <= MAX_U64

  datatype State = State(
    config: Option<Config>,
    checkpoint: Option<Checkpoint>,
    headers: Headers,
    canonical: Index,
    bestTip: Option<BestTip>)

  datatype Call =
    | SetCheckpoint(caller: nat, checkpoint: Checkpoint)
    | SubmitHeaders(headers: seq<Header>, now: U64)

  // ------------------------------------------------------------ operations

  /** The state the constructor leaves; deployment fails unless the limit decodes. */
  function Deployed(admin: nat, powLimitBits: U32): State
  {
    State(Some(Config(admin, powLimitBits)), None, map[], map[], None)
  }

  function RootEntry(cp: Checkpoint): HeaderEntry
  {
    HeaderEntry(ZeroDigest(), ZeroDigest(), cp.height, cp.bits, cp.time, cp.periodStart, 0)
  }

  function DoSetCheckpoint(st: State, caller: nat, cp: Checkpoint): Result<State, SpvError>
  {
    if st.config.None? then Err(NotInitialized)
    else if caller != st.config.value.admin then Err(Unauthorized)
    else if st.checkpoint.Some? then Err(CheckpointAlreadySet)
    else
      var target, powLimit := BitsToTarget(cp.bits), BitsToTarget(st.config.value.powLimitBits);
      if target.Err? then Err(target.error)
      else if powLimit.Err? then Err(powLimit.error)
      else if target.value > powLimit.value || cp.periodStart > cp.time then Err(InvalidCheckpoint)
      else
        Ok(st.(
          checkpoint := Some(cp),
          headers := st.headers[cp.hash := RootEntry(cp)],
          canonical := st.canonical[cp.height := cp.hash],
          bestTip := Some(BestTip(cp.hash, cp.height, 0))))
  }

  /** The record of a new header under `parent`, or the first rule it breaks. */
  function NewEntry(parent: HeaderEntry, h: Header, powLimit: U256, now: U64): Result<HeaderEntry, SpvError>
  {
    var pow := ValidateProofOfWork(h.hash, h.bits);
    if pow.Err? then Err(pow.error)
    else if parent.height + 1 >= 0x1_0000_0000 then Err(HostTrap)
    else
      var height := parent.height + 1;
      var expected := ExpectedBits(parent.bits, parent.time, parent.periodStart, height, powLimit);
      if expected.Err? then Err(expected.error)
      else if h.bits != expected.value then Err(UnexpectedDifficulty)
      else if h.time > Latest(now) then Err(TimestampTooFarInFuture)
      else if parent.chainwork + WorkOf(h.bits) >= TWO_256 then Err(HostTrap)
      else
        Ok(HeaderEntry(
             h.prev, h.merkleRoot, height, h.bits, h.time,
             if height % RETARGET_INTERVAL == 0 then h.time else parent.periodStart,
             parent.chainwork + WorkOf(h.bits)))
  }

  /** The latest header time accepted at ledger time `now` (a saturating addition). */
  function Latest(now: U64): (t: U64)
  {
    if now + MAX_FUTURE_DRIFT_SECS > MAX_U64 then MAX_U64 else now + MAX_FUTURE_DRIFT_SECS
  }

  /** Storing one header: skipped when its hash is known, else checked against its stored parent. */
  function StoreHeader(headers: Headers, h: Header, powLimit: U256, now: U64): Result<Headers, SpvError>
  {
    if h.hash in headers then Ok(headers)
    else if h.prev !in headers then Err(UnknownParent)
    else
      match NewEntry(headers[h.prev], h, powLimit, now)
      case Err(e) => Err(e)
      case Ok(entry) => Ok(headers[h.hash := entry])
  }

  function StoreAll(headers: Headers, hs: seq<Header>, powLimit: U256, now: U64): Result<Headers, SpvError>
  {
    if hs == [] then Ok(headers)
    else
      match StoreAll(headers, hs[..|hs| - 1], powLimit, now)
      case Err(e) => Err(e)
      case Ok(stored) => StoreHeader(stored, hs[|hs| - 1], powLimit, now)
  }

  /** Fork choice: only the last header of the vector is compared with the best tip. */
  function ChooseTip(st: State, tip: Digest): Result<State, SpvError>
    requires tip in st.headers
  {
    if st.bestTip.None? then Err(CheckpointNotSet)
    else if st.headers[tip].chainwork <= st.bestTip.value.chainwork then Ok(st)
    else
      match Rewrite(st.canonical, st.headers, tip, 0)
      case Err(e) => Err(e)
      case Ok(canonical) =>
        var e := st.headers[tip];
        Ok(st.(canonical := canonical, bestTip := Some(BestTip(tip, e.height, e.chainwork))))
  }

  function DoSubmitHeaders(st: State, hs: seq<Header>, now: U64): Result<State, SpvError>
  {
    if st.config.None? then Err(NotInitialized)
    else if st.checkpoint.None? then Err(CheckpointNotSet)
    else if hs == [] then Err(NoHeaders)
    else if |hs| > MAX_HEADERS_PER_SUBMIT then Err(TooManyHeaders)
    else
      match BitsToTarget(st.config.value.powLimitBits)
      case Err(e) => Err(e)
      case Ok(powLimit) =>
        match StoreAll(st.headers, hs, powLimit, now)
        case Err(e) => Err(e)
        case Ok(stored) =>
          StoresLast(st.headers, hs, powLimit, now);
          ChooseTip(st.(headers := stored), hs[|hs| - 1].hash)
  }

  lemma StoresLast(headers: Headers, hs: seq<Header>, powLimit: U256, now: U64)
    requires hs != [] && StoreAll(headers, hs, powLimit, now).Ok?
    ensures hs[|hs| - 1].hash in StoreAll(headers, hs, powLimit, now).value
  {
  }

  /** One call as the ledger sees it: a failed call changes nothing. */
  function Apply(st: State, call: Call): State
  {
    var r := Outcome(st, call);
    if r.Ok? then r.value else st
  }

  function Outcome(st: State, call: Call): Result<State, SpvError>
  {
    match call
    case SetCheckpoint(caller, cp) => DoSetCheckpoint(st, caller, cp)
    case SubmitHeaders(hs, now) => DoSubmitHeaders(st, hs, now)
  }

  function Run(st: State, calls: seq<Call>): State
    decreases |calls|
  {
    if calls == [] then st else Run(Apply(st, calls[0]), calls[1..])
  }

  /** The checks of `verify_transaction`, in order. */
  function VerifyTransaction(sha: Sha256d, st: State, blockHash: Digest, proof: seq<Digest>, txIndex: U32,
                             rawTx: seq<Byte>, minConfirmations: U32): Result<VerificationResult, SpvError>
  {
    if minConfirmations == 0 then Err(ZeroMinConfirmations)
    else if rawTx == [] then Err(EmptyTransaction)
    else if |rawTx| == 64 then Err(AmbiguousTransactionLength)
    else if st.config.None? then Err(NotInitialized)
    else if st.checkpoint.None? then Err(CheckpointNotSet)
    else if blockHash !in st.headers then Err(HeaderNotFound)
    else
      var entry := st.headers[blockHash];
      if entry.height <= st.checkpoint.value.height then Err(BlockNotAfterCheckpoint)
      else if st.bestTip.None? then Err(CheckpointNotSet)
      else
        var best := st.bestTip.value;
        if entry.height > best.height || !Points(st.canonical, entry.height, blockHash) then Err(NotOnBestChain)
        else if best.height - entry.height + 1 < minConfirmations then Err(InsufficientConfirmations)
        else if Fold(sha, sha(rawTx), txIndex, proof) != entry.merkleRoot then Err(MerkleProofInvalid)
        else Ok(VerificationResult(sha(rawTx), blockHash, entry.height, best.height - entry.height + 1))
  }

  // ------------------------------------------------- invariant of every run

  function PowLimit(st: State): U256
    requires st.config.Some? && BitsToTarget(st.config.value.powLimitBits).Ok?
  {
    BitsToTarget(st.config.value.powLimitBits).value
  }

  /** What holds once the checkpoint is set. */
  ghost predicate Tracking(st: State)
    requires st.config.Some? && BitsToTarget(st.config.value.powLimitBits).Ok? && st.checkpoint.Some?
  {
    var cp := st.checkpoint.value;
    && Consensus(st.headers, cp.hash, cp.height, PowLimit(st))
    && st.headers[cp.hash] == RootEntry(cp)
    && IndexSound(st.canonical, st.headers, cp.hash, cp.height)
    && st.bestTip.Some?
    && var best := st.bestTip.value;
    && best.hash in st.headers
    && cp.height <= best.height
    && best == BestTip(best.hash, st.headers[best.hash].height, st.headers[best.hash].chainwork)
    && IndexWithin(st.canonical, st.headers, best.chainwork)
  }

  ghost predicate Valid(st: State)
  {
    && st.config.Some? && BitsToTarget(st.config.value.powLimitBits).Ok?
    && (st.checkpoint.None? ==> st.headers == map[] && st.canonical == map[] && st.bestTip.None?)
    && (st.checkpoint.Some? ==> Tracking(st))
  }

  /** A valid state whose checkpoint is set, so that it has a tree and a tip. */
  ghost predicate Live(st: State) { Valid(st) && st.checkpoint.Some? }

  lemma StoreHeaderConsensus(headers: Headers, h: Header, powLimit: U256, now: U64, root: Digest, base: nat)
    requires Consensus(headers, root, base, powLimit) && StoreHeader(headers, h, powLimit, now).Ok?
    ensures Consensus(StoreHeader(headers, h, powLimit, now).value, root, base, powLimit)
    ensures Extends(headers, StoreHeader(headers, h, powLimit, now).value)
  {
    if h.hash !in headers {
      ConsensusExtend(headers, root, base, powLimit, h.hash, NewEntry(headers[h.prev], h, powLimit, now).value);
    }
  }

  lemma {:induction false} StoreAllConsensus(headers: Headers, hs: seq<Header>, powLimit: U256, now: U64, root: Digest, base: nat)
    requires Consensus(headers, root, base, powLimit) && StoreAll(headers, hs, powLimit, now).Ok?
    ensures Consensus(StoreAll(headers, hs, powLimit, now).value, root, base, powLimit)
    ensures Extends(headers, StoreAll(headers, hs, powLimit, now).value)
    decreases |hs|
  {
    if hs != [] {
      var init := hs[..|hs| - 1];
      StoreAllConsensus(headers, init, powLimit, now, root, base);
      StoreHeaderConsensus(StoreAll(headers, init, powLimit, now).value, hs[|hs| - 1], powLimit, now, root, base);
    }
  }

  // --------------------------------------------- one header, rule by rule

  /** The target the bits of a child of `parent` must encode: the parent's own, or the rule's at a boundary. */
  predicate CarriesRequiredBits(parent: HeaderEntry, bits: U32, powLimit: U256)
    requires BitsToTarget(parent.bits).Ok?
  {
    if (parent.height + 1) % 2016 != 0 then bits == parent.bits
    else bits == Compact(RetargetRule(BitsToTarget(parent.bits).value, parent.time - parent.periodStart, powLimit))
  }

  lemma LatestMeaning(time: U32, now: U64)
    ensures time <= Latest(now) <==> time <= now + 7200
  {
  }

  lemma ProofOfWorkMeaning(hash: Digest, bits: U32)
    ensures var r, target := ValidateProofOfWork(hash, bits), BitsToTarget(bits);
            r == if target.Err? then Err(InvalidDifficultyBits)
                 else if LittleEndian(hash) < target.value then Ok(()) else Err(InsufficientProofOfWork)
  {
    BitsToTargetMeaning(bits);
  }

  /**
   * Exactly when a header may follow `parent`, what its record holds, and
   * which rule each refusal names: its bits decode, its hash is below the
   * target, the bits are the required ones, its time is at most two hours
   * ahead, and neither height nor work leaves its width.
   */
  lemma NewEntryMeaning(parent: HeaderEntry, h: Header, powLimit: U256, now: U64)
    requires BitsToTarget(parent.bits).Ok?
    ensures var target := BitsToTarget(h.bits);
            var mined := target.Ok? && LittleEndian(h.hash) < target.value;
            var fits := parent.height + 1 < 0x1_0000_0000;
            var required := CarriesRequiredBits(parent, h.bits, powLimit);
            var intime := h.time <= now + 7200;
            var r := NewEntry(parent, h, powLimit, now);
            && (r.Ok? <==> mined && fits && required && intime && parent.chainwork + BlockWork(h.bits) < TWO_256)
            && (r.Ok? ==>
                  r.value == HeaderEntry(
                    h.prev, h.merkleRoot, parent.height + 1, h.bits, h.time,
                    if (parent.height + 1) % 2016 == 0 then h.time else parent.periodStart,
                    parent.chainwork + BlockWork(h.bits)))
            && (r == Err(InvalidDifficultyBits) <==> target.Err?)
            && (r == Err(InsufficientProofOfWork) <==> target.Ok? && LittleEndian(h.hash) >= target.value)
            && (r == Err(UnexpectedDifficulty) <==> mined && fits && !required)
            && (r == Err(TimestampTooFarInFuture) <==> mined && fits && required && !intime)
  {
    hide BitsToTarget;
    hide RetargetRule;
    hide ExpectedBits;
    hide BlockWork;
    hide WorkOf;
    hide ValidateProofOfWork;
    hide LittleEndian;
    hide Latest;
    ProofOfWorkMeaning(h.hash, h.bits);
    RetargetFollowsRule(parent.bits, parent.time, parent.periodStart, parent.height + 1, powLimit);
    WorkOfIsBlockWork(h.bits);
    LatestMeaning(h.time, now);
  }

  /** Storing a header: a known one is skipped, an orphan refused, and any other is stored under its hash exactly as above. */
  lemma StoreHeaderMeaning(headers: Headers, h: Header, powLimit: U256, now: U64)
    ensures var r := StoreHeader(headers, h, powLimit, now);
            && (h.hash in headers ==> r == Ok(headers))
            && (h.hash !in headers ==>
                  && (r == Err(UnknownParent) <==> h.prev !in headers)
                  && (h.prev in headers ==>
                        var entry := NewEntry(headers[h.prev], h, powLimit, now);
                        r == if entry.Ok? then Ok(headers[h.hash := entry.value]) else Err(entry.error)))
  {
    BitsToTargetMeaning(h.bits);
  }

  /** The headers stored by a submission are the ones already there and the ones submitted. */
  lemma {:induction false} StoreAllKeys(headers: Headers, hs: seq<Header>, powLimit: U256, now: U64)
    requires StoreAll(headers, hs, powLimit, now).Ok?
    ensures StoreAll(headers, hs, powLimit, now).value.Keys == headers.Keys + set h | h in hs :: h.hash
    decreases |hs|
  {
    if hs != [] {
      var init, h := hs[..|hs| - 1], hs[|hs| - 1];
      StoreAllKeys(headers, init, powLimit, now);
      assert hs == init + [h];
      assert (set x | x in hs :: x.hash) == (set x | x in init :: x.hash) + {h.hash};
    }
  }

  lemma IndexStable(index: Index, headers: Headers, more: Headers, root: Digest, base: nat)
    requires IndexSound(index, headers, root, base) && Extends(headers, more)
    ensures IndexSound(index, more, root, base)
    ensures forall work: nat :: IndexWithin(index, headers, work) ==> IndexWithin(index, more, work)
  {
  }

  /** What a successful submission did: the tip stayed, or the last header outweighed it and the walk ran. */
  ghost predicate Submitted(st: State, hs: seq<Header>, st': State)
    requires Live(st) && Live(st') && st'.checkpoint == st.checkpoint
  {
    var cp, best := st.checkpoint.value, st.bestTip.value;
    && st'.config == st.config
    && Extends(st.headers, st'.headers)
    && hs != [] && hs[|hs| - 1].hash in st'.headers
    && var tip := hs[|hs| - 1].hash;
    if st'.headers[tip].chainwork <= best.chainwork then
      st'.canonical == st.canonical && st'.bestTip == st.bestTip
    else
      var stop := StopHeight(st.canonical, st'.headers, cp.hash, cp.height, tip);
      && IndexSound(st.canonical, st'.headers, cp.hash, cp.height)
      && Repointed(st.canonical, st'.canonical, st'.headers, cp.hash, cp.height, tip, stop)
      && st'.headers[tip].height - stop <= MAX_REORG_DEPTH
      && st'.bestTip.value.hash == tip
  }

  lemma SubmitKeepsValid(st: State, hs: seq<Header>, now: U64)
    requires Live(st) && DoSubmitHeaders(st, hs, now).Ok?
    ensures var st' := DoSubmitHeaders(st, hs, now).value;
            Live(st') && st'.checkpoint == st.checkpoint && Submitted(st, hs, st')
  {
    var cp, powLimit := st.checkpoint.value, PowLimit(st);
    StoreAllConsensus(st.headers, hs, powLimit, now, cp.hash, cp.height);
    var stored := StoreAll(st.headers, hs, powLimit, now).value;
    var tip := hs[|hs| - 1].hash;
    IndexStable(st.canonical, st.headers, stored, cp.hash, cp.height);
    if stored[tip].chainwork > st.bestTip.value.chainwork {
      RewriteMeaning(st.canonical, stored, cp.hash, cp.height, tip, 0);
      DescendsFromRoot(stored, cp.hash, cp.height, tip);
      var stop := StopHeight(st.canonical, stored, cp.hash, cp.height, tip);
      RepointedSound(st.canonical, Rewrite(st.canonical, stored, tip, 0).value, stored, cp.hash, cp.height, powLimit, tip, stop);
    }
  }

  lemma CheckpointMakesLive(st: State, caller: nat, cp: Checkpoint)
    requires Valid(st) && DoSetCheckpoint(st, caller, cp).Ok?
    ensures Live(DoSetCheckpoint(st, caller, cp).value)
  {
    ConsensusRoot(cp.hash, RootEntry(cp), PowLimit(st));
  }

  lemma ApplyKeepsValid(st: State, call: Call)
    requires Valid(st)
    ensures Valid(Apply(st, call))
    ensures st.checkpoint.Some? ==> Apply(st, call).checkpoint == st.checkpoint
  {
    if Outcome(st, call).Ok? {
      match call
      case SetCheckpoint(caller, cp) => CheckpointMakesLive(st, caller, cp);
      case SubmitHeaders(hs, now) => SubmitKeepsValid(st, hs, now);
    }
  }

  /** Every state of every run, whatever calls are made and whether they succeed, is valid. */
  lemma {:induction false} RunValid(st: State, calls: seq<Call>)
    requires Valid(st)
    ensures Valid(Run(st, calls))
    decreases |calls|
  {
    if calls != [] {
      ApplyKeepsValid(st, calls[0]);
      RunValid(Apply(st, calls[0]), calls[1..]);
    }
  }

  lemma DeployedValid(admin: nat, powLimitBits: U32)
    requires BitsToTarget(powLimitBits).Ok?
    ensures Valid(Deployed(admin, powLimitBits))
  {
  }
}
