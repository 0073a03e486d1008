/** What one call of the light client answers and writes, told in the caller's terms, and what stays of it in every later state. */
module ChainCalls {
  import opened Wrappers
  import opened Bytes
  import opened SpvTypes
  import opened Difficulty
  import opened HeaderTree
  import opened CanonicalIndex
  import opened LightClientSpec
  import opened ChainTheorems

  // ------------------------------------------------------ the checkpoint

  /** The checkpoint's target is within the network's limit, and its period began no later than it. */
  predicate Plausible(st: State, cp: Checkpoint)
    requires st.config.Some? && BitsToTarget(st.config.value.powLimitBits).Ok?
  {
    BitsToTarget(cp.bits).Ok? && BitsToTarget(cp.bits).value <= PowLimit(st) && cp.periodStart <= cp.time
  }

  /**
   * The checkpoint is set exactly for the admin, exactly once, and only when
   * plausible; then the tree, the index and the tip consist of it alone.
   */
  lemma SetCheckpointMeaning(st: State, caller: nat, cp: Checkpoint)
    requires Valid(st)
    ensures var r, admin := DoSetCheckpoint(st, caller, cp), st.config.value.admin;
            && (r.Ok? <==> caller == admin && st.checkpoint.None? && Plausible(st, cp))
            && (r == Err(Unauthorized) <==> caller != admin)
            && (r == Err(CheckpointAlreadySet) <==> caller == admin && st.checkpoint.Some?)
            && (r == Err(InvalidDifficultyBits) <==> caller == admin && st.checkpoint.None? && BitsToTarget(cp.bits).Err?)
            && (r == Err(InvalidCheckpoint) <==>
                  caller == admin && st.checkpoint.None? && BitsToTarget(cp.bits).Ok? && !Plausible(st, cp))
            && (r.Ok? ==>
                  && r.value.config == st.config && r.value.checkpoint == Some(cp)
                  && r.value.headers == map[cp.hash := HeaderEntry(ZeroDigest(), ZeroDigest(), cp.height, cp.bits, cp.time, cp.periodStart, 0)]
                  && r.value.canonical == map[cp.height := cp.hash]
                  && r.value.bestTip == Some(BestTip(cp.hash, cp.height, 0)))
  {
    hide BitsToTarget;
    BitsToTargetMeaning(cp.bits);
  }

  /** The checkpoint of every reachable state is one that the admin set in a call of the run, and is plausible. */
  lemma {:induction false} CheckpointIsTheAdmins(admin: nat, powLimitBits: U32, calls: seq<Call>)
    requires BitsToTarget(powLimitBits).Ok?
    ensures var st := Run(Deployed(admin, powLimitBits), calls);
            && Valid(st) && st.config == Some(Config(admin, powLimitBits))
            && (st.checkpoint.Some? ==> SetCheckpoint(admin, st.checkpoint.value) in calls && Plausible(st, st.checkpoint.value))
    decreases |calls|
  {
    DeployedValid(admin, powLimitBits);
    if calls != [] {
      var front, last := calls[..|calls| - 1], calls[|calls| - 1];
      CheckpointIsTheAdmins(admin, powLimitBits, front);
      var st := Run(Deployed(admin, powLimitBits), front);
      LastCall(Deployed(admin, powLimitBits), calls);
      CheckpointStep(st, last);
      assert last in calls && forall c | c in front :: c in calls;
    }
  }

  /** A call leaves the configuration, and the checkpoint unless it is the one that sets it. */
  lemma CheckpointStep(st: State, call: Call)
    requires Valid(st)
    ensures var st' := Apply(st, call);
            && Valid(st') && st'.config == st.config
            && (st'.checkpoint == st.checkpoint
                || (&& call.SetCheckpoint? && call.caller == st.config.value.admin && st'.checkpoint == Some(call.checkpoint)
                    && Plausible(st, call.checkpoint)))
  {
    hide Consensus;
    ApplyKeepsValid(st, call);
    match call
    case SetCheckpoint(caller, cp) => SetCheckpointMeaning(st, caller, cp);
    case SubmitHeaders(hs, now) => SubmitKeepsConfig(st, hs, now);
  }

  lemma SubmitKeepsConfig(st: State, hs: seq<Header>, now: U64)
    ensures var st' := Apply(st, SubmitHeaders(hs, now)); st'.config == st.config && st'.checkpoint == st.checkpoint
  {
    hide StoreAll;
    hide Rewrite;
  }

  lemma {:induction false} LastCall(st: State, calls: seq<Call>)
    requires calls != []
    ensures Run(st, calls) == Apply(Run(st, calls[..|calls| - 1]), calls[|calls| - 1])
    decreases |calls|
  {
    hide Apply;
    var front, last := calls[..|calls| - 1], calls[|calls| - 1];
    if |calls| > 1 {
      LastCall(Apply(st, calls[0]), calls[1..]);
      assert calls[1..][..|calls| - 2] == front[1..];
    } else {
      assert calls == [last];
    }
  }

  // ----------------------------------------------------------- a submission

  /**
   * Exactly when a submission succeeds: one to 16 headers, every one of which
   * can be stored in turn, and a last one that does not outweigh the tip or
   * whose path meets the index within 20 heights. Each refusal names the first
   * of these that fails.
   */
  lemma SubmitMeaning(st: State, hs: seq<Header>, now: U64)
    requires Live(st)
    ensures var r, cp, stored := DoSubmitHeaders(st, hs, now), st.checkpoint.value, StoreAll(st.headers, hs, PowLimit(st), now);
            && (r == Err(NoHeaders) <==> hs == [])
            && (r == Err(TooManyHeaders) <==> |hs| > 16)
            && (1 <= |hs| <= 16 ==>
                  if stored.Err? then r == Err(stored.error)
                  else
                    var m, tip := Stored(st, hs, now), hs[|hs| - 1].hash;
                    var heavier := m[tip].chainwork > st.bestTip.value.chainwork;
                    var deep := m[tip].height - StopHeight(st.canonical, m, cp.hash, cp.height, tip) > 20;
                    && (r.Ok? <==> !(heavier && deep)) && (heavier && deep <==> r == Err(ReorgTooDeep))
                    && (r.Ok? ==>
                          && r.value.headers == m && r.value.checkpoint == st.checkpoint
                          && r.value.bestTip == if heavier then Some(BestTip(tip, m[tip].height, m[tip].chainwork)) else st.bestTip))
  {
    StoreAllErrors(st.headers, hs, PowLimit(st), now);
    if 1 <= |hs| <= 16 && StoreAll(st.headers, hs, PowLimit(st), now).Ok? {
      var cp, stored, tip := st.checkpoint.value, Stored(st, hs, now), hs[|hs| - 1].hash;
      IndexStable(st.canonical, st.headers, stored, cp.hash, cp.height);
      RewriteMeaning(st.canonical, stored, cp.hash, cp.height, tip, 0);
    }
  }

  lemma {:induction false} StoreAllErrors(headers: Headers, hs: seq<Header>, powLimit: U256, now: U64)
    ensures var r := StoreAll(headers, hs, powLimit, now);
            r.Err? ==> r.error in {UnknownParent, InvalidDifficultyBits, InsufficientProofOfWork, UnexpectedDifficulty,
                                   TimestampTooFarInFuture, HostTrap}
    decreases |hs|
  {
    if hs != [] {
      StoreAllErrors(headers, hs[..|hs| - 1], powLimit, now);
      var before := StoreAll(headers, hs[..|hs| - 1], powLimit, now);
      if before.Ok? {
        StoreErrors(before.value, hs[|hs| - 1], powLimit, now);
      }
    }
  }

  lemma StoreErrors(headers: Headers, h: Header, powLimit: U256, now: U64)
    ensures var r := StoreHeader(headers, h, powLimit, now);
            r.Err? ==> r.error in {UnknownParent, InvalidDifficultyBits, InsufficientProofOfWork, UnexpectedDifficulty,
                                   TimestampTooFarInFuture, HostTrap}
  {
    hide BitsToTarget;
    BitsToTargetMeaning(h.bits);
    if h.prev in headers {
      BitsToTargetMeaning(headers[h.prev].bits);
    }
  }

  /** What the record of a submitted header says, in the header's own words. */
  predicate Records(e: HeaderEntry, h: Header)
  {
    e.prev == h.prev && e.merkleRoot == h.merkleRoot && e.bits == h.bits && e.time == h.time
  }

  /** The first header of the vector under a hash not stored before is recorded as it is, and is at most two hours ahead. */
  lemma {:induction false} StoredAsSubmitted(st: State, hs: seq<Header>, now: U64, i: nat)
    requires Live(st) && StoreAll(st.headers, hs, PowLimit(st), now).Ok? && i < |hs|
    requires hs[i].hash !in st.headers && forall j | 0 <= j < i :: hs[j].hash != hs[i].hash
    ensures var stored := Stored(st, hs, now);
            hs[i].hash in stored && Records(stored[hs[i].hash], hs[i]) && hs[i].time <= now + 7200
    decreases |hs|
  {
    hide StoreHeader;
    hide NewEntry;
    hide Consensus;
    hide BitsToTarget;
    var front, h := hs[..|hs| - 1], hs[|hs| - 1];
    var before := Stored(st, front, now);
    StoreHeaderAdds(before, h, PowLimit(st), now);
    if i < |front| {
      StoredAsSubmitted(st, front, now, i);
    } else {
      StoreAllKeys(st.headers, front, PowLimit(st), now);
      assert h.hash !in before;
      StoreHeaderMeaning(before, h, PowLimit(st), now);
      TargetsWithinLimit(before, st.checkpoint.value.hash, st.checkpoint.value.height, PowLimit(st), h.prev);
      NewEntryMeaning(before[h.prev], h, PowLimit(st), now);
    }
  }

  /**
   * From a successful submission on, in every later state, each header it was
   * the first to bring is stored field by field as it was submitted.
   */
  lemma SubmittedIsRecorded(st: State, hs: seq<Header>, now: U64, i: nat, later: seq<Call>)
    requires Live(st) && DoSubmitHeaders(st, hs, now).Ok? && i < |hs|
    requires hs[i].hash !in st.headers && forall j | 0 <= j < i :: hs[j].hash != hs[i].hash
    ensures var headers := Run(Apply(st, SubmitHeaders(hs, now)), later).headers;
            hs[i].hash in headers && Records(headers[hs[i].hash], hs[i]) && hs[i].time <= now + 7200
  {
    SubmitMeaning(st, hs, now);
    StoredAsSubmitted(st, hs, now, i);
    SubmitKeepsValid(st, hs, now);
    RunMonotone(Apply(st, SubmitHeaders(hs, now)), later);
  }
}
