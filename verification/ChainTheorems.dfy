/** What the light client guarantees over whole runs: the index, finality and the choice of tip. */
module ChainTheorems {
  import opened Wrappers
  import opened Bytes
  import opened SpvTypes
  import opened Difficulty
  import opened Merkle
  import opened HeaderTree
  import opened CanonicalIndex
  import opened LightClientSpec

  // ------------------------------------------------------ stored headers

  /** In every reachable state, what each stored header says of itself is what its path says. */
  lemma HeadersAreAccountedFor(admin: nat, powLimitBits: U32, calls: seq<Call>, h: Digest)
    requires BitsToTarget(powLimitBits).Ok?
    requires h in Run(Deployed(admin, powLimitBits), calls).headers
    ensures var st := Run(Deployed(admin, powLimitBits), calls);
            && Live(st)
            && var cp, e := st.checkpoint.value, st.headers[h];
            && AncestorAt(st.headers, cp.hash, cp.height, h, cp.height) == cp.hash
            && e.chainwork == PathWork(st.headers, cp.hash, cp.height, h)
            && e.periodStart == PeriodStartTime(st.headers, cp.hash, cp.height, h)
            && BitsToTarget(e.bits).Ok? && BitsToTarget(e.bits).value <= PowLimit(st)
            && (h != cp.hash ==>
                  && LittleEndian(h) < BitsToTarget(e.bits).value
                  && LinkedTo(st.headers, cp.height, h)
                  && Obeys(st.headers[e.prev], h, e, PowLimit(st)))
  {
    DeployedValid(admin, powLimitBits);
    RunValid(Deployed(admin, powLimitBits), calls);
    var st := Run(Deployed(admin, powLimitBits), calls);
    var cp := st.checkpoint.value;
    DescendsFromRoot(st.headers, cp.hash, cp.height, h);
    ChainworkIsPathWork(st.headers, cp.hash, cp.height, PowLimit(st), h);
    PeriodStartMeaning(st.headers, cp.hash, cp.height, PowLimit(st), h);
    TargetsWithinLimit(st.headers, cp.hash, cp.height, PowLimit(st), h);
    if h != cp.hash {
      MeetsTarget(st.headers, cp.hash, cp.height, PowLimit(st), h);
    }
  }

  /**
   * In every reachable state the difficulty rule holds along every path: equal
   * bits inside a period, and at each boundary a target just below the
   * parent's, scaled by the time between the first and the last header of the
   * period, as the tree records them.
   */
  lemma TargetsFollowTheRule(admin: nat, powLimitBits: U32, calls: seq<Call>, h: Digest)
    requires BitsToTarget(powLimitBits).Ok?
    requires h in Run(Deployed(admin, powLimitBits), calls).headers
    ensures var st := Run(Deployed(admin, powLimitBits), calls);
            && Live(st)
            && var cp, e := st.checkpoint.value, st.headers[h];
            && (h != cp.hash ==>
                  && LinkedTo(st.headers, cp.height, h)
                  && var parent := st.headers[e.prev];
                  && BitsToTarget(parent.bits).Ok? && BitsToTarget(e.bits).Ok?
                  && (e.height % 2016 != 0 ==> e.bits == parent.bits)
                  && (e.height % 2016 == 0 ==>
                        var took := parent.time - PeriodBegan(st.headers, cp.hash, cp.height, h);
                        JustBelow(BitsToTarget(e.bits).value, RetargetRule(BitsToTarget(parent.bits).value, took, PowLimit(st)))))
  {
    DeployedValid(admin, powLimitBits);
    RunValid(Deployed(admin, powLimitBits), calls);
    var st := Run(Deployed(admin, powLimitBits), calls);
    var cp := st.checkpoint.value;
    if h != cp.hash {
      BitsFollowRule(st.headers, cp.hash, cp.height, PowLimit(st), h);
    }
  }

  /** In every run, with no hypothesis on the calls, headers are never lost or changed and the tip's work never drops. */
  lemma {:induction false} RunMonotone(st: State, calls: seq<Call>)
    requires Live(st)
    ensures Live(Run(st, calls)) && Run(st, calls).checkpoint == st.checkpoint
    ensures Extends(st.headers, Run(st, calls).headers)
    ensures Run(st, calls).bestTip.value.chainwork >= st.bestTip.value.chainwork
    decreases |calls|
  {
    if calls != [] {
      StepMonotone(st, calls[0]);
      RunMonotone(Apply(st, calls[0]), calls[1..]);
    }
  }

  lemma StepMonotone(st: State, call: Call)
    requires Live(st)
    ensures Live(Apply(st, call)) && Apply(st, call).checkpoint == st.checkpoint
    ensures Extends(st.headers, Apply(st, call).headers)
    ensures Apply(st, call).bestTip.value.chainwork >= st.bestTip.value.chainwork
  {
    ApplyKeepsValid(st, call);
    if call.SubmitHeaders? && Outcome(st, call).Ok? {
      SubmitKeepsValid(st, call.headers, call.now);
    }
  }

  // ------------------------------------------------------------ the index

  /** The index holds exactly the best tip's ancestors, from the checkpoint to the tip. */
  ghost predicate IndexFollowsTip(st: State)
    requires Live(st)
  {
    var cp := st.checkpoint.value;
    IndexExact(st.canonical, st.headers, cp.hash, cp.height, st.bestTip.value.hash)
  }

  /** The tree with the vector stored. */
  ghost function Stored(st: State, hs: seq<Header>, now: U64): (m: Headers)
    requires Live(st) && StoreAll(st.headers, hs, PowLimit(st), now).Ok?
    ensures Consensus(m, st.checkpoint.value.hash, st.checkpoint.value.height, PowLimit(st)) && Extends(st.headers, m)
    ensures forall h | h in hs :: h.hash in m
  {
    StoreAllConsensus(st.headers, hs, PowLimit(st), now, st.checkpoint.value.hash, st.checkpoint.value.height);
    StoreAllNames(st.headers, hs, PowLimit(st), now);
    StoreAll(st.headers, hs, PowLimit(st), now).value
  }

  lemma StoreAllNames(headers: Headers, hs: seq<Header>, powLimit: U256, now: U64)
    requires StoreAll(headers, hs, powLimit, now).Ok?
    ensures forall h | h in hs :: h.hash in StoreAll(headers, hs, powLimit, now).value
  {
    StoreAllKeys(headers, hs, powLimit, now);
    forall h | h in hs
      ensures h.hash in StoreAll(headers, hs, powLimit, now).value
    {
      assert h.hash in (set x | x in hs :: x.hash);
    }
  }

  /**
   * Submitting `hs` will switch the tip: every header can be stored, the last
   * one outweighs the best tip, and the index agrees with its path no more
   * than 20 heights below it.
   */
  ghost predicate WillSwitch(st: State, hs: seq<Header>, now: U64)
    requires Live(st)
  {
    && 0 < |hs| <= MAX_HEADERS_PER_SUBMIT && StoreAll(st.headers, hs, PowLimit(st), now).Ok?
    && var cp, stored, tip := st.checkpoint.value, Stored(st, hs, now), hs[|hs| - 1].hash;
    && stored[tip].chainwork > st.bestTip.value.chainwork
    && stored[tip].height - StopHeight(st.canonical, stored, cp.hash, cp.height, tip) <= MAX_REORG_DEPTH
  }

  lemma SwitchForeseen(st: State, hs: seq<Header>, now: U64)
    requires Live(st)
    ensures WillSwitch(st, hs, now) <==> DoSubmitHeaders(st, hs, now).Ok? && DoSubmitHeaders(st, hs, now).value.bestTip != st.bestTip
  {
    if 0 < |hs| <= MAX_HEADERS_PER_SUBMIT && StoreAll(st.headers, hs, PowLimit(st), now).Ok? {
      var cp, stored, tip := st.checkpoint.value, Stored(st, hs, now), hs[|hs| - 1].hash;
      IndexStable(st.canonical, st.headers, stored, cp.hash, cp.height);
      RewriteMeaning(st.canonical, stored, cp.hash, cp.height, tip, 0);
    }
  }

  /**
   * Submitting will switch the tip while an index entry left above the old
   * tip already lies on the new tip's path.
   */
  ghost predicate SwitchMeetsStale(st: State, call: Call)
    requires Live(st)
  {
    && call.SubmitHeaders? && WillSwitch(st, call.headers, call.now)
    && var cp, stored := st.checkpoint.value, Stored(st, call.headers, call.now);
    StaleMatch(st.canonical, stored, cp.hash, cp.height, st.bestTip.value.height, call.headers[|call.headers| - 1].hash)
  }

  /** One call on a state with an exact index: exact afterwards if and only if it met no stale entry. */
  lemma StepKeepsIndex(st: State, call: Call)
    requires Live(st) && IndexFollowsTip(st)
    ensures Live(Apply(st, call))
    ensures IndexFollowsTip(Apply(st, call)) <==> !SwitchMeetsStale(st, call)
  {
    hide StaleMatch;
    hide IndexExact;
    hide Rewrite;
    StepMonotone(st, call);
    if call.SubmitHeaders? {
      SwitchForeseen(st, call.headers, call.now);
    }
    if call.SubmitHeaders? && Outcome(st, call).Ok? {
      SubmitKeepsValid(st, call.headers, call.now);
      var cp, st', best := st.checkpoint.value, Apply(st, call), st.bestTip.value;
      IndexExactStable(st.canonical, st.headers, st'.headers, cp.hash, cp.height, best.hash);
      if st'.bestTip != st.bestTip {
        var tip := st'.bestTip.value.hash;
        IndexStable(st.canonical, st.headers, st'.headers, cp.hash, cp.height);
        SwitchKeepsIndex(st.canonical, st'.canonical, st'.headers, cp.hash, cp.height, PowLimit(st),
                         best.hash, tip, StopHeight(st.canonical, st'.headers, cp.hash, cp.height, tip));
      }
    }
  }

  lemma IndexExactStable(index: Index, headers: Headers, more: Headers, root: Digest, base: nat, tip: Digest)
    requires Linked(headers, root, base) && Linked(more, root, base) && Extends(headers, more) && tip in headers
    requires IndexExact(index, headers, root, base, tip)
    ensures IndexExact(index, more, root, base, tip)
  {
    forall k | base <= k <= more[tip].height
      ensures Points(index, k, AncestorAt(more, root, base, tip, k))
    {
      AncestorStable(headers, more, root, base, tip, k);
    }
  }

  /** No call of the run meets a stale entry. */
  ghost predicate StaleFree(st: State, calls: seq<Call>)
    requires Live(st)
    decreases |calls|
  {
    calls == [] || (
      && !SwitchMeetsStale(st, calls[0])
      && (StepMonotone(st, calls[0]); StaleFree(Apply(st, calls[0]), calls[1..])))
  }

  lemma {:induction false} RunKeepsIndex(st: State, calls: seq<Call>)
    requires Live(st) && IndexFollowsTip(st) && StaleFree(st, calls)
    ensures Live(Run(st, calls)) && IndexFollowsTip(Run(st, calls))
    decreases |calls|
  {
    if calls != [] {
      StepKeepsIndex(st, calls[0]);
      RunKeepsIndex(Apply(st, calls[0]), calls[1..]);
    }
  }

  /** Setting the checkpoint leaves an exact index with nothing above it. */
  lemma CheckpointIndex(st: State, caller: nat, cp: Checkpoint)
    requires Valid(st) && DoSetCheckpoint(st, caller, cp).Ok?
    ensures var st' := DoSetCheckpoint(st, caller, cp).value;
            Live(st') && IndexFollowsTip(st') && NothingAbove(st')
  {
    CheckpointMakesLive(st, caller, cp);
  }

  // ------------------------------------------------- height-monotone runs

  ghost predicate NothingAbove(st: State)
    requires Live(st)
  {
    forall k :: k in st.canonical ==> k <= st.bestTip.value.height
  }

  /** No call of the run lowers the best tip's height. */
  ghost predicate HeightMonotone(st: State, calls: seq<Call>)
    requires Live(st)
    decreases |calls|
  {
    calls == [] || (
      && (StepMonotone(st, calls[0]); Apply(st, calls[0]).bestTip.value.height >= st.bestTip.value.height)
      && HeightMonotone(Apply(st, calls[0]), calls[1..]))
  }

  /** Until a tip is lower than the one before, nothing stale exists, so the index stays exact. */
  lemma {:induction false} HeightMonotoneKeepsIndex(st: State, calls: seq<Call>)
    requires Live(st) && IndexFollowsTip(st) && NothingAbove(st) && HeightMonotone(st, calls)
    ensures Live(Run(st, calls)) && IndexFollowsTip(Run(st, calls)) && NothingAbove(Run(st, calls))
    decreases |calls|
  {
    if calls != [] {
      var st' := Apply(st, calls[0]);
      StepMonotone(st, calls[0]);
      NothingAboveStep(st, calls[0]);
      StepKeepsIndex(st, calls[0]);
      HeightMonotoneKeepsIndex(st', calls[1..]);
    }
  }

  lemma NothingAboveStep(st: State, call: Call)
    requires Live(st) && NothingAbove(st)
    requires Live(Apply(st, call)) && Apply(st, call).bestTip.value.height >= st.bestTip.value.height
    ensures NothingAbove(Apply(st, call)) && !SwitchMeetsStale(st, call)
  {
    if call.SubmitHeaders? {
      SwitchForeseen(st, call.headers, call.now);
      if Outcome(st, call).Ok? {
        SubmitKeepsValid(st, call.headers, call.now);
      }
    }
  }

  /** When every stored header carries the same bits, work is linear in height, so no tip switch lowers the height. */
  lemma EqualBitsAreHeightMonotone(st: State, call: Call, bits: U32)
    requires Live(st) && Live(Apply(st, call))
    requires forall h :: h in Apply(st, call).headers ==> Apply(st, call).headers[h].bits == bits
    ensures Apply(st, call).bestTip.value.height >= st.bestTip.value.height
  {
    StepMonotone(st, call);
    var cp, st' := st.checkpoint.value, Apply(st, call);
    EqualBitsUniform(st'.headers, cp.hash, cp.height, PowLimit(st'), bits);
    if st'.bestTip.value.height < st.bestTip.value.height {
      LowerIsLighter(st'.headers, cp.hash, cp.height, WorkOf(bits), st'.bestTip.value.hash, st.bestTip.value.hash);
    }
  }

  /** While all headers of a run carry equal bits, the run is height-monotone. */
  lemma {:induction false} EqualBitsRunsAreHeightMonotone(st: State, calls: seq<Call>, bits: U32)
    requires Live(st) && Live(Run(st, calls))
    requires forall h :: h in Run(st, calls).headers ==> Run(st, calls).headers[h].bits == bits
    ensures HeightMonotone(st, calls)
    decreases |calls|
  {
    if calls != [] {
      var st' := Apply(st, calls[0]);
      StepMonotone(st, calls[0]);
      RunMonotone(st', calls[1..]);
      EqualBitsAreHeightMonotone(st, calls[0], bits);
      EqualBitsRunsAreHeightMonotone(st', calls[1..], bits);
    }
  }

  // --------------------------------------------------------- verification

  /** `block` is an ancestor of the best tip (or the tip itself) above the checkpoint. */
  ghost predicate OnBestChain(st: State, block: Digest)
    requires Live(st)
  {
    var cp, best := st.checkpoint.value, st.bestTip.value;
    && block in st.headers
    && cp.height < st.headers[block].height <= best.height
    && AncestorAt(st.headers, cp.hash, cp.height, best.hash, st.headers[block].height) == block
  }

  /**
   * With an exact index, `verify_transaction` accepts exactly the blocks on
   * the best chain that are deep enough and whose root the proof reaches, and
   * answers with the transaction's own hash, its block and the block's depth.
   * Each refusal names what was missing.
   */
  lemma VerifyMeaning(sha: Sha256d, st: State, block: Digest, proof: seq<Digest>, index: U32, rawTx: seq<Byte>, min: U32)
    requires Live(st) && IndexFollowsTip(st)
    ensures var r := VerifyTransaction(sha, st, block, proof, index, rawTx, min);
            r.Ok? <==>
              && min > 0 && rawTx != [] && |rawTx| != 64
              && OnBestChain(st, block)
              && st.bestTip.value.height - st.headers[block].height + 1 >= min
              && Fold(sha, sha(rawTx), index, proof) == st.headers[block].merkleRoot
    ensures var r := VerifyTransaction(sha, st, block, proof, index, rawTx, min);
            r.Ok? ==>
              block in st.headers
              && r.value.txid == sha(rawTx) && r.value.blockHash == block && r.value.height == st.headers[block].height
              && r.value.confirmations == st.bestTip.value.height - st.headers[block].height + 1
    ensures var r := VerifyTransaction(sha, st, block, proof, index, rawTx, min);
            var asked := min > 0 && rawTx != [] && |rawTx| != 64;
            && (r == Err(ZeroMinConfirmations) <==> min == 0)
            && (r == Err(EmptyTransaction) <==> min > 0 && rawTx == [])
            && (r == Err(AmbiguousTransactionLength) <==> min > 0 && |rawTx| == 64)
            && (r == Err(HeaderNotFound) <==> asked && block !in st.headers)
            && (r == Err(BlockNotAfterCheckpoint) <==> asked && block in st.headers && st.headers[block].height <= st.checkpoint.value.height)
            && (r == Err(NotOnBestChain) <==>
                  asked && block in st.headers && st.headers[block].height > st.checkpoint.value.height && !OnBestChain(st, block))
            && (r == Err(InsufficientConfirmations) <==>
                  asked && OnBestChain(st, block) && st.bestTip.value.height - st.headers[block].height + 1 < min)
            && (r == Err(MerkleProofInvalid) <==>
                  asked && OnBestChain(st, block) && st.bestTip.value.height - st.headers[block].height + 1 >= min
                  && Fold(sha, sha(rawTx), index, proof) != st.headers[block].merkleRoot)
  {
    hide Fold;
    var cp, best := st.checkpoint.value, st.bestTip.value;
    if block in st.headers && cp.height < st.headers[block].height <= best.height {
      assert Points(st.canonical, st.headers[block].height,
                    AncestorAt(st.headers, cp.hash, cp.height, best.hash, st.headers[block].height));
    }
  }

  /**
   * A deposit accepted against a block whose stored root is that of `txs` is
   * one of those transactions, in a block buried under the best tip, unless
   * the hashed strings contain an explicit collision.
   */
  lemma AcceptedDepositIsReal(sha: Sha256d, st: State, block: Digest, proof: seq<Digest>, index: U32, rawTx: seq<Byte>,
                              min: U32, txs: seq<seq<Byte>>)
    requires Live(st) && IndexFollowsTip(st)
    requires VerifyTransaction(sha, st, block, proof, index, rawTx, min).Ok?
    requires |txs| > 0 && No64ByteTransaction(txs) && st.headers[block].merkleRoot == Root(sha, Leaves(sha, txs))
    ensures OnBestChain(st, block)
    ensures VerifyTransaction(sha, st, block, proof, index, rawTx, min).value.confirmations >= min
    ensures || VerifyTransaction(sha, st, block, proof, index, rawTx, min).value.txid == Leaves(sha, txs)[Landing(|txs|, index)]
            || Collides(sha, BlockPreimages(sha, txs), ProofPreimages(sha, rawTx, index, proof))
    ensures || (rawTx == txs[Landing(|txs|, index)] && (index < |txs| ==> rawTx == txs[index]))
            || Collides(sha, BlockPreimages(sha, txs), ProofPreimages(sha, rawTx, index, proof))
  {
    VerifyMeaning(sha, st, block, proof, index, rawTx, min);
    MerkleSoundness(sha, txs, rawTx, index, proof);
    if index < |txs| {
      LandingOfPosition(|txs|, index);
    }
  }

  // ------------------------------------------------------------- finality

  /** A depth no single call can reach: one more than the walk may re-point. */
  const FINAL_CONFIRMATIONS: nat := MAX_REORG_DEPTH + 1

  /** A call re-points no height 20 or more below the tip it leaves. */
  lemma StepKeepsDeepEntry(st: State, call: Call, k: nat, d: Digest)
    requires Live(st) && Points(st.canonical, k, d) && Live(Apply(st, call))
    requires k + MAX_REORG_DEPTH <= Apply(st, call).bestTip.value.height
    ensures Points(Apply(st, call).canonical, k, d)
  {
    if call.SubmitHeaders? && Outcome(st, call).Ok? {
      SubmitKeepsValid(st, call.headers, call.now);
    }
  }

  /** No tip of the run is lower than `height`. */
  ghost predicate TipsAtLeast(st: State, calls: seq<Call>, height: nat)
    requires Live(st)
    decreases |calls|
  {
    && st.bestTip.value.height >= height
    && (calls == [] || (StepMonotone(st, calls[0]); TipsAtLeast(Apply(st, calls[0]), calls[1..], height)))
  }

  /** The call is accepted for a block of this height exactly when it is deep enough now. */
  ghost predicate AcceptedWhileDeep(sha: Sha256d, st: State, height: nat, block: Digest, proof: seq<Digest>, index: U32,
                                    rawTx: seq<Byte>, min: U32)
    requires Live(st) && st.bestTip.value.height >= height
  {
    var r, depth := VerifyTransaction(sha, st, block, proof, index, rawTx, min), st.bestTip.value.height - height + 1;
    && block in st.headers && Fold(sha, sha(rawTx), index, proof) == st.headers[block].merkleRoot
    && (r.Ok? <==> depth >= min) && (r.Err? ==> r.error == InsufficientConfirmations) && (r.Ok? ==> r.value.confirmations == depth)
  }

  lemma StepKeepsAccepted(sha: Sha256d, st: State, call: Call, height: nat, block: Digest, proof: seq<Digest>, index: U32,
                          rawTx: seq<Byte>, min: U32)
    requires Live(st) && block in st.headers && st.headers[block].height == height
    requires st.bestTip.value.height >= height && AcceptedWhileDeep(sha, st, height, block, proof, index, rawTx, min)
    requires Live(Apply(st, call)) && Apply(st, call).bestTip.value.height >= height + MAX_REORG_DEPTH
    ensures AcceptedWhileDeep(sha, Apply(st, call), height, block, proof, index, rawTx, min)
  {
    StepMonotone(st, call);
    if Points(st.canonical, height, block) {
      StepKeepsDeepEntry(st, call, height, block);
    }
  }

  /**
   * Finality: once a transaction is accepted with 21 confirmations, nothing
   * short of a tip within 20 blocks of it takes that back. In every further
   * run whose tips stay 20 or more above the block, the same call is accepted
   * exactly when the tip is still deep enough for the confirmations it asks.
   */
  lemma {:induction false} Finality(sha: Sha256d, st: State, calls: seq<Call>, height: nat, block: Digest, proof: seq<Digest>,
                                    index: U32, rawTx: seq<Byte>, min: U32)
    requires Live(st) && block in st.headers && st.headers[block].height == height
    requires TipsAtLeast(st, calls, height + MAX_REORG_DEPTH)
    requires AcceptedWhileDeep(sha, st, height, block, proof, index, rawTx, min)
    ensures Live(Run(st, calls)) && Run(st, calls).bestTip.value.height >= height + MAX_REORG_DEPTH
    ensures AcceptedWhileDeep(sha, Run(st, calls), height, block, proof, index, rawTx, min)
    decreases |calls|
  {
    if calls != [] {
      var st' := Apply(st, calls[0]);
      StepMonotone(st, calls[0]);
      StepKeepsAccepted(sha, st, calls[0], height, block, proof, index, rawTx, min);
      Finality(sha, st', calls[1..], height, block, proof, index, rawTx, min);
    }
  }

  /** An accepted call is one `Finality` speaks of. */
  lemma AcceptanceStarts(sha: Sha256d, st: State, block: Digest, proof: seq<Digest>, index: U32, rawTx: seq<Byte>, min: U32)
    requires Live(st) && VerifyTransaction(sha, st, block, proof, index, rawTx, min).Ok?
    ensures block in st.headers && st.bestTip.value.height >= st.headers[block].height
    ensures AcceptedWhileDeep(sha, st, st.headers[block].height, block, proof, index, rawTx, min)
  {
  }

  lemma {:induction false} MonotoneTipsStay(st: State, calls: seq<Call>, height: nat)
    requires Live(st) && HeightMonotone(st, calls) && st.bestTip.value.height >= height
    ensures TipsAtLeast(st, calls, height)
    ensures Live(Run(st, calls)) && Run(st, calls).bestTip.value.height >= st.bestTip.value.height
    decreases |calls|
  {
    if calls != [] {
      StepMonotone(st, calls[0]);
      MonotoneTipsStay(Apply(st, calls[0]), calls[1..], height);
    }
  }

  /** Over height-monotone runs: accepted with 21 confirmations, accepted for good, with no fewer confirmations. */
  lemma MonotoneFinality(sha: Sha256d, st: State, calls: seq<Call>, block: Digest, proof: seq<Digest>, index: U32,
                         rawTx: seq<Byte>, min: U32)
    requires Live(st) && VerifyTransaction(sha, st, block, proof, index, rawTx, min).Ok?
    requires VerifyTransaction(sha, st, block, proof, index, rawTx, min).value.confirmations >= FINAL_CONFIRMATIONS
    requires HeightMonotone(st, calls)
    ensures var r, r' := VerifyTransaction(sha, st, block, proof, index, rawTx, min),
                         VerifyTransaction(sha, Run(st, calls), block, proof, index, rawTx, min);
            r'.Ok? && r'.value.confirmations >= r.value.confirmations
  {
    AcceptanceStarts(sha, st, block, proof, index, rawTx, min);
    var height := st.headers[block].height;
    MonotoneTipsStay(st, calls, height + MAX_REORG_DEPTH);
    Finality(sha, st, calls, height, block, proof, index, rawTx, min);
  }

  // ------------------------------------------------------ the heaviest tip

  /** No stored header outweighs the best tip. */
  ghost predicate TipIsHeaviest(st: State)
    requires Live(st)
  {
    forall h :: h in st.headers ==> st.headers[h].chainwork <= st.bestTip.value.chainwork
  }

  /**
   * The vector is one run: each header names the one before as its parent,
   * the checkpoint comes first if at all, and no hash appears with two
   * different parents.
   */
  ghost predicate ContiguousRun(st: State, hs: seq<Header>)
    requires Live(st)
  {
    && (forall i | 0 < i < |hs| ::
          && hs[i].prev == hs[i - 1].hash
          && hs[i].hash != st.checkpoint.value.hash
          && (hs[i].hash in st.headers ==> st.headers[hs[i].hash].prev == hs[i].prev))
    && (forall i, j | 0 <= i < j < |hs| :: hs[i].hash == hs[j].hash ==> hs[i].prev == hs[j].prev)
  }

  /**
   * Whether a submission that succeeds keeps the tip heaviest can be told
   * before it: exactly when no header of the vector, stored, outweighs both
   * the best tip and the vector's last header.
   */
  lemma HeaviestAfterSubmit(st: State, hs: seq<Header>, now: U64)
    requires Live(st) && TipIsHeaviest(st) && DoSubmitHeaders(st, hs, now).Ok?
    ensures hs != [] && StoreAll(st.headers, hs, PowLimit(st), now).Ok? && Live(DoSubmitHeaders(st, hs, now).value)
    ensures var stored, best := Stored(st, hs, now), st.bestTip.value.chainwork;
            var last := stored[hs[|hs| - 1].hash].chainwork;
            TipIsHeaviest(DoSubmitHeaders(st, hs, now).value) <==>
              forall h | h in hs :: stored[h.hash].chainwork <= if last > best then last else best
  {
    SubmitKeepsValid(st, hs, now);
    SubmittedKeys(st, hs, now);
  }

  lemma SubmittedKeys(st: State, hs: seq<Header>, now: U64)
    requires Live(st) && DoSubmitHeaders(st, hs, now).Ok?
    ensures var headers := DoSubmitHeaders(st, hs, now).value.headers;
            && (forall h | h in hs :: h.hash in headers)
            && (forall x | x in headers :: x in st.headers || exists h :: h in hs && h.hash == x)
  {
    StoreAllKeys(st.headers, hs, PowLimit(st), now);
    StoreAllNames(st.headers, hs, PowLimit(st), now);
  }

  lemma StoreHeaderAdds(headers: Headers, h: Header, powLimit: U256, now: U64)
    requires StoreHeader(headers, h, powLimit, now).Ok?
    ensures var stored := StoreHeader(headers, h, powLimit, now).value;
            && h.hash in stored && (h.hash !in headers ==> stored[h.hash].prev == h.prev)
            && forall x | x in headers :: x in stored && stored[x] == headers[x]
  {
  }

  lemma StoredBefore(headers: Headers, hs: seq<Header>, powLimit: U256, now: U64, x: Digest) returns (j: nat)
    requires StoreAll(headers, hs, powLimit, now).Ok? && x in StoreAll(headers, hs, powLimit, now).value && x !in headers
    ensures j < |hs| && hs[j].hash == x
  {
    hide StoreAll;
    StoreAllKeys(headers, hs, powLimit, now);
    j :| 0 <= j < |hs| && hs[j].hash == x;
  }

  lemma {:induction false} StoredParent(headers: Headers, hs: seq<Header>, powLimit: U256, now: U64, i: nat)
    requires StoreAll(headers, hs, powLimit, now).Ok? && i < |hs|
    requires hs[i].hash in headers ==> headers[hs[i].hash].prev == hs[i].prev
    requires forall j, k | 0 <= j < k < |hs| :: hs[j].hash == hs[k].hash ==> hs[j].prev == hs[k].prev
    ensures hs[i].hash in StoreAll(headers, hs, powLimit, now).value
    ensures StoreAll(headers, hs, powLimit, now).value[hs[i].hash].prev == hs[i].prev
    decreases |hs|
  {
    hide StoreHeader;
    var init, h := hs[..|hs| - 1], hs[|hs| - 1];
    var before := StoreAll(headers, init, powLimit, now).value;
    StoreHeaderAdds(before, h, powLimit, now);
    if i < |init| {
      StoredParent(headers, init, powLimit, now, i);
    } else if h.hash in before {
      if h.hash in headers {
        StoreAllKeeps(headers, init, powLimit, now, h.hash);
      } else {
        var j := StoredBefore(headers, init, powLimit, now, h.hash);
        StoredParent(headers, init, powLimit, now, j);
      }
    }
  }

  lemma {:induction false} StoreAllKeeps(headers: Headers, hs: seq<Header>, powLimit: U256, now: U64, x: Digest)
    requires StoreAll(headers, hs, powLimit, now).Ok? && x in headers
    ensures x in StoreAll(headers, hs, powLimit, now).value
    ensures StoreAll(headers, hs, powLimit, now).value[x] == headers[x]
    decreases |hs|
  {
    if hs != [] {
      StoreAllKeeps(headers, hs[..|hs| - 1], powLimit, now, x);
    }
  }

  /** In a contiguous run each header outweighs the one before. */
  lemma NextOutweighs(st: State, hs: seq<Header>, now: U64, n: nat)
    requires Live(st) && ContiguousRun(st, hs) && DoSubmitHeaders(st, hs, now).Ok? && 0 < n < |hs|
    ensures var headers := DoSubmitHeaders(st, hs, now).value.headers;
            && hs[n - 1].hash in headers && hs[n].hash in headers
            && headers[hs[n - 1].hash].chainwork < headers[hs[n].hash].chainwork
  {
    SubmitKeepsValid(st, hs, now);
    var st', cp := DoSubmitHeaders(st, hs, now).value, st.checkpoint.value;
    assert hs[n].prev == hs[n - 1].hash && hs[n].hash != cp.hash;
    StoredParent(st.headers, hs, PowLimit(st), now, n);
    ChildOutweighs(st'.headers, cp.hash, cp.height, PowLimit(st), hs[n].hash);
  }

  /** So its last header is its heaviest. */
  lemma {:induction false} LastIsHeaviest(st: State, hs: seq<Header>, now: U64, i: nat, n: nat)
    requires Live(st) && ContiguousRun(st, hs) && DoSubmitHeaders(st, hs, now).Ok?
    requires i <= n < |hs|
    ensures var headers := DoSubmitHeaders(st, hs, now).value.headers;
            hs[i].hash in headers && hs[n].hash in headers && headers[hs[i].hash].chainwork <= headers[hs[n].hash].chainwork
    decreases n
  {
    SubmittedKeys(st, hs, now);
    if i < n {
      LastIsHeaviest(st, hs, now, i, n - 1);
      NextOutweighs(st, hs, now, n);
    }
  }

  /** Every submitted vector of the run is contiguous. */
  ghost predicate Contiguous(st: State, calls: seq<Call>)
    requires Live(st)
    decreases |calls|
  {
    calls == [] || (
      && (calls[0].SubmitHeaders? ==> ContiguousRun(st, calls[0].headers))
      && (StepMonotone(st, calls[0]); Contiguous(Apply(st, calls[0]), calls[1..])))
  }

  lemma StepKeepsHeaviest(st: State, call: Call)
    requires Live(st) && TipIsHeaviest(st) && (call.SubmitHeaders? ==> ContiguousRun(st, call.headers))
    ensures Live(Apply(st, call)) && TipIsHeaviest(Apply(st, call))
  {
    hide StoreAll;
    hide ContiguousRun;
    StepMonotone(st, call);
    if call.SubmitHeaders? && Outcome(st, call).Ok? {
      var hs, st' := call.headers, Apply(st, call);
      SubmitKeepsValid(st, hs, call.now);
      HeaviestAfterSubmit(st, hs, call.now);
      forall h | h in hs
        ensures st'.headers[h.hash].chainwork <= st'.bestTip.value.chainwork
      {
        var i :| 0 <= i < |hs| && hs[i] == h;
        LastIsHeaviest(st, hs, call.now, i, |hs| - 1);
      }
    }
  }

  /** When every submitted vector is a contiguous run, the best tip is always the heaviest stored header. */
  lemma {:induction false} RunKeepsHeaviest(st: State, calls: seq<Call>)
    requires Live(st) && TipIsHeaviest(st) && Contiguous(st, calls)
    ensures Live(Run(st, calls)) && TipIsHeaviest(Run(st, calls))
    decreases |calls|
  {
    if calls != [] {
      StepKeepsHeaviest(st, calls[0]);
      RunKeepsHeaviest(Apply(st, calls[0]), calls[1..]);
    }
  }
}
