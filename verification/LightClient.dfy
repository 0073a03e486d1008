/** The contract object: persistent storage changed in place, one method per entry point (bitcoin-spv/src/lib.rs, header.rs, storage.rs). */
module LightClient {
  import opened Wrappers
  import opened Bytes
  import opened SpvTypes
  import opened Difficulty
  import opened Merkle
  import opened HeaderTree
  import opened CanonicalIndex
  import opened LightClientSpec

  /** Little-endian field of four bytes. */
  function ReadU32(raw: RawHeader, offset: nat): (v: U32)
    requires offset + 4 <= 80
  {
    PowValues();
    LittleEndian(raw[offset..offset + 4])
  }

  function Parse(sha: Sha256d, raw: RawHeader): Header
  {
    Header(sha(raw), raw[4..36], raw[36..68], ReadU32(raw, 68), ReadU32(raw, 72))
  }

  /** A block header as Bitcoin lays it out: version, parent, Merkle root, time, bits, nonce. */
  function HeaderBytes(version: U32, prev: Digest, merkleRoot: Digest, time: U32, bits: U32, nonce: U32): RawHeader
  {
    EncodeLE(version, 4) + prev + merkleRoot + EncodeLE(time, 4) + EncodeLE(bits, 4) + EncodeLE(nonce, 4)
  }

  /** The contract reads each field where Bitcoin puts it, and hashes the whole header. */
  lemma ParseInvertsBytes(sha: Sha256d, version: U32, prev: Digest, merkleRoot: Digest, time: U32, bits: U32, nonce: U32)
    ensures var raw := HeaderBytes(version, prev, merkleRoot, time, bits, nonce);
            Parse(sha, raw) == Header(sha(raw), prev, merkleRoot, time, bits)
  {
    hide LittleEndian;
    hide EncodeLE;
    var raw := HeaderBytes(version, prev, merkleRoot, time, bits, nonce);
    PowValues();
    EncodeDecode(time, 4);
    EncodeDecode(bits, 4);
    assert raw[4..36] == prev && raw[36..68] == merkleRoot;
    assert raw[68..72] == EncodeLE(time, 4) && raw[72..76] == EncodeLE(bits, 4);
  }

  function ParseAll(sha: Sha256d, raws: seq<RawHeader>): (hs: seq<Header>)
    ensures |hs| == |raws|
    ensures forall i | 0 <= i < |raws| :: hs[i] == Parse(sha, raws[i])
  {
    seq(|raws|, i requires 0 <= i < |raws| => Parse(sha, raws[i]))
  }

  /** An error part way through a vector is the error of the whole vector. */
  lemma {:induction false} StoreAllStops(headers: Headers, hs: seq<Header>, powLimit: U256, now: U64, n: nat)
    requires n <= |hs| && StoreAll(headers, hs[..n], powLimit, now).Err?
    ensures StoreAll(headers, hs, powLimit, now) == StoreAll(headers, hs[..n], powLimit, now)
    decreases |hs|
  {
    if n == |hs| {
      assert hs[..n] == hs;
    } else {
      var init := hs[..|hs| - 1];
      assert init[..n] == hs[..n];
      StoreAllStops(headers, init, powLimit, now, n);
    }
  }

  lemma StoreAllNext(headers: Headers, hs: seq<Header>, powLimit: U256, now: U64, n: nat)
    requires n < |hs| && StoreAll(headers, hs[..n], powLimit, now).Ok?
    ensures StoreAll(headers, hs[..n + 1], powLimit, now)
         == StoreHeader(StoreAll(headers, hs[..n], powLimit, now).value, hs[n], powLimit, now)
  {
    assert hs[..n + 1][..|hs[..n + 1]| - 1] == hs[..n];
  }

  function Discard<T>(r: Result<T, SpvError>): Result<(), SpvError>
  {
    match r
    case Ok(_) => Ok(())
    case Err(e) => Err(e)
  }

  class BitcoinSpv {
    const sha: Sha256d
    var config: Option<Config>
    var checkpoint: Option<Checkpoint>
    var headers: Headers
    var canonical: Index
    var bestTip: Option<BestTip>

    function Snapshot(): State
      reads this
    {
      State(config, checkpoint, headers, canonical, bestTip)
    }

    constructor (sha: Sha256d, admin: nat, powLimitBits: U32)
      requires BitsToTarget(powLimitBits).Ok?
      ensures this.sha == sha && Snapshot() == Deployed(admin, powLimitBits)
    {
      this.sha := sha;
      config := Some(Config(admin, powLimitBits));
      checkpoint := None;
      headers := map[];
      canonical := map[];
      bestTip := None;
    }

    /** Sets the trust root, once, by the admin only. */
    method SetCheckpoint(caller: nat, cp: Checkpoint) returns (r: Result<(), SpvError>)
      modifies this
      ensures Snapshot() == Apply(old(Snapshot()), Call.SetCheckpoint(caller, cp))
      ensures r == Discard(DoSetCheckpoint(old(Snapshot()), caller, cp))
      ensures old(Valid(Snapshot())) ==> Valid(Snapshot())
    {
      ghost var before := Snapshot();
      if Valid(before) {
        ApplyKeepsValid(before, Call.SetCheckpoint(caller, cp));
      }
      if config.None? {
        return Err(NotInitialized);
      }
      if caller != config.value.admin {
        return Err(Unauthorized);
      }
      if checkpoint.Some? {
        return Err(CheckpointAlreadySet);
      }
      var target := BitsToTarget(cp.bits);
      if target.Err? {
        return Err(target.error);
      }
      var powLimit := BitsToTarget(config.value.powLimitBits);
      if powLimit.Err? {
        return Err(powLimit.error);
      }
      if target.value > powLimit.value || cp.periodStart > cp.time {
        return Err(InvalidCheckpoint);
      }
      checkpoint := Some(cp);
      headers := headers[cp.hash := RootEntry(cp)];
      canonical := canonical[cp.height := cp.hash];
      bestTip := Some(BestTip(cp.hash, cp.height, 0));
      return Ok(());
    }

    /**
     * Adds a run of headers. The host undoes every write of a call that
     * returns an error, so a failed call leaves the storage as it was.
     */
    method SubmitHeaders(raws: seq<RawHeader>, now: U64) returns (r: Result<U32, SpvError>)
      modifies this
      ensures Snapshot() == Apply(old(Snapshot()), Call.SubmitHeaders(ParseAll(sha, raws), now))
      ensures var outcome := DoSubmitHeaders(old(Snapshot()), ParseAll(sha, raws), now);
              && (r.Ok? <==> outcome.Ok?)
              && (r.Ok? ==> bestTip.Some? && r.value == bestTip.value.height)
              && (r.Err? ==> r.error == outcome.error)
      ensures old(Valid(Snapshot())) ==> Valid(Snapshot())
    {
      ghost var before := Snapshot();
      if Valid(before) {
        ApplyKeepsValid(before, Call.SubmitHeaders(ParseAll(sha, raws), now));
      }
      var savedHeaders, savedCanonical, savedTip := headers, canonical, bestTip;
      r := Submit(raws, now);
      if r.Err? {
        headers, canonical, bestTip := savedHeaders, savedCanonical, savedTip;
      }
    }

    /** The body of `submit_headers`, which writes as it goes and may stop part way. */
    method Submit(raws: seq<RawHeader>, now: U64) returns (r: Result<U32, SpvError>)
      modifies this`headers, this`canonical, this`bestTip
      ensures var outcome := DoSubmitHeaders(old(Snapshot()), ParseAll(sha, raws), now);
              && (r.Ok? <==> outcome.Ok?)
              && (r.Ok? ==> Snapshot() == outcome.value && bestTip.Some? && r.value == bestTip.value.height)
              && (r.Err? ==> r.error == outcome.error)
    {
      if config.None? {
        return Err(NotInitialized);
      }
      if checkpoint.None? {
        return Err(CheckpointNotSet);
      }
      if |raws| == 0 {
        return Err(NoHeaders);
      }
      if |raws| > MAX_HEADERS_PER_SUBMIT {
        return Err(TooManyHeaders);
      }
      var limit := BitsToTarget(config.value.powLimitBits);
      if limit.Err? {
        return Err(limit.error);
      }
      var powLimit := limit.value;
      var stored := StoreVector(raws, powLimit, now);
      if stored.Err? {
        return Err(stored.error);
      }
      var tipHash := stored.value;
      StoresLast(old(headers), ParseAll(sha, raws), powLimit, now);
      if bestTip.None? {
        return Err(CheckpointNotSet);
      }
      var tipEntry := headers[tipHash];
      if tipEntry.chainwork > bestTip.value.chainwork {
        var walked := WalkBack(tipHash);
        if walked.Err? {
          return Err(walked.error);
        }
        bestTip := Some(BestTip(tipHash, tipEntry.height, tipEntry.chainwork));
      }
      return Ok(bestTip.value.height);
    }

    /** Checks a header against its stored parent, rule by rule in the contract's order, and makes its record. */
    method MakeEntry(parent: HeaderEntry, header: Header, powLimit: U256, now: U64) returns (r: Result<HeaderEntry, SpvError>)
      ensures r == NewEntry(parent, header, powLimit, now)
      ensures r.Ok? ==>
        && BitsToTarget(header.bits).Ok? && LittleEndian(header.hash) < BitsToTarget(header.bits).value
        && header.time <= now + 7200
        && r.value.prev == header.prev && r.value.merkleRoot == header.merkleRoot && r.value.height == parent.height + 1
        && r.value.bits == header.bits && r.value.time == header.time
        && r.value.periodStart == (if r.value.height % 2016 == 0 then header.time else parent.periodStart)
        && r.value.chainwork == parent.chainwork + TWO_256 / (BitsToTarget(header.bits).value + 1)
    {
      hide BitsToTarget;
      hide ExpectedBits;
      var mined := CheckProofOfWork(header.hash, header.bits);
      if mined.Err? {
        return Err(mined.error);
      }
      if parent.height + 1 >= 0x1_0000_0000 {
        return Err(HostTrap);
      }
      var height := parent.height + 1;
      var expected := ExpectedBits(parent.bits, parent.time, parent.periodStart, height, powLimit);
      if expected.Err? {
        return Err(expected.error);
      }
      if header.bits != expected.value {
        return Err(UnexpectedDifficulty);
      }
      if header.time > Latest(now) {
        return Err(TimestampTooFarInFuture);
      }
      LatestMeaning(header.time, now);
      WorkOfIsBlockWork(header.bits);
      var work := WorkOf(header.bits);
      if parent.chainwork + work >= TWO_256 {
        return Err(HostTrap);
      }
      var periodStart := if height % RETARGET_INTERVAL == 0 then header.time else parent.periodStart;
      return Ok(HeaderEntry(header.prev, header.merkleRoot, height, header.bits, header.time, periodStart, parent.chainwork + work));
    }

    /** Checks and stores each header in turn; answers the last one's hash. */
    method StoreVector(raws: seq<RawHeader>, powLimit: U256, now: U64) returns (r: Result<Digest, SpvError>)
      requires |raws| > 0
      modifies this`headers
      ensures var outcome := StoreAll(old(headers), ParseAll(sha, raws), powLimit, now);
              && (r.Ok? <==> outcome.Ok?)
              && (r.Ok? ==> headers == outcome.value && r.value == ParseAll(sha, raws)[|raws| - 1].hash)
              && (r.Err? ==> r.error == outcome.error)
    {
      ghost var hs := ParseAll(sha, raws);
      var last := ZeroDigest();
      for i := 0 to |raws|
        invariant StoreAll(old(headers), hs[..i], powLimit, now) == Ok(headers)
        invariant i > 0 ==> last == hs[i - 1].hash
      {
        var header := Parse(sha, raws[i]);
        StoreAllNext(old(headers), hs, powLimit, now, i);
        if header.hash !in headers {
          if header.prev !in headers {
            StoreAllStops(old(headers), hs, powLimit, now, i + 1);
            return Err(UnknownParent);
          }
          var entry := MakeEntry(headers[header.prev], header, powLimit, now);
          if entry.Err? {
            StoreAllStops(old(headers), hs, powLimit, now, i + 1);
            return Err(entry.error);
          }
          headers := headers[header.hash := entry.value];
        }
        last := header.hash;
      }
      assert hs[..|raws|] == hs;
      return Ok(last);
    }

    /** Re-points the index from the new tip down to the first height that already agrees. */
    method WalkBack(tip: Digest) returns (r: Result<(), SpvError>)
      requires tip in headers
      modifies this`canonical
      ensures var outcome := Rewrite(old(canonical), headers, tip, 0);
              && (r.Ok? <==> outcome.Ok?)
              && (r.Ok? ==> canonical == outcome.value)
              && (r.Err? ==> r.error == outcome.error)
    {
      var hash, entry, rewritten := tip, headers[tip], 0;
      while !Points(canonical, entry.height, hash)
        invariant hash in headers && entry == headers[hash] && rewritten <= MAX_REORG_DEPTH
        invariant Rewrite(canonical, headers, hash, rewritten) == Rewrite(old(canonical), headers, tip, 0)
        decreases MAX_REORG_DEPTH - rewritten
      {
        rewritten := rewritten + 1;
        if rewritten > MAX_REORG_DEPTH {
          return Err(ReorgTooDeep);
        }
        canonical := canonical[entry.height := hash];
        var parent := entry.prev;
        if parent !in headers {
          return Err(UnknownParent);
        }
        entry := headers[parent];
        hash := parent;
      }
      return Ok(());
    }

    /** Proves a transaction against a stored header of the best chain; changes nothing. */
    method VerifyTransaction(blockHash: Digest, proof: seq<Digest>, txIndex: U32, rawTx: seq<Byte>, minConfirmations: U32)
      returns (r: Result<VerificationResult, SpvError>)
      ensures r == LightClientSpec.VerifyTransaction(sha, Snapshot(), blockHash, proof, txIndex, rawTx, minConfirmations)
    {
      if minConfirmations == 0 {
        return Err(ZeroMinConfirmations);
      }
      if |rawTx| == 0 {
        return Err(EmptyTransaction);
      }
      if |rawTx| == 64 {
        return Err(AmbiguousTransactionLength);
      }
      if config.None? {
        return Err(NotInitialized);
      }
      if checkpoint.None? {
        return Err(CheckpointNotSet);
      }
      if blockHash !in headers {
        return Err(HeaderNotFound);
      }
      var entry := headers[blockHash];
      if entry.height <= checkpoint.value.height {
        return Err(BlockNotAfterCheckpoint);
      }
      if bestTip.None? {
        return Err(CheckpointNotSet);
      }
      var best := bestTip.value;
      if entry.height > best.height || !Points(canonical, entry.height, blockHash) {
        return Err(NotOnBestChain);
      }
      var confirmations := best.height - entry.height + 1;
      if confirmations < minConfirmations {
        return Err(InsufficientConfirmations);
      }
      var txid := sha(rawTx);
      var included := VerifyMerkleInclusion(sha, txid, txIndex, proof, entry.merkleRoot);
      if included.Err? {
        return Err(included.error);
      }
      return Ok(VerificationResult(txid, blockHash, entry.height, confirmations));
    }
  }
}
