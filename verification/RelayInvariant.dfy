/** What every step of the relay keeps. */
module RelayInvariant {
  import opened Wrappers
  import opened RelayRecords
  import opened RelayProtocol

  // ------------------------------------------------------------ one record

  predicate Rejected(r: Record) { r.phase == Failed && r.code.Some? && Final(r.code.value) }

  /** An open record is early in its streak, and late enough for its next failure to keep pace. */
  predicate StreakOk(r: Record, now: Time)
  {
    if r.since.None? then r.attempts == 0
    else r.since.value <= now && r.attempts <= MOST_RETRIES && Paced(r.since.value, r.attempts, now)
  }

  predicate RetryOk(r: Record, now: Time)
  {
    && r.retryable && r.since.Some? && r.since.value <= now && r.attempts <= MOST_RETRIES && !Rejected(r)
    && r.retryAt.Some? && Paced(r.since.value, r.attempts, r.retryAt.value)
  }

  predicate RecordOk(now: Time, chain: Chain, r: Record)
  {
    && (!Settled(r) ==> r.retryAt.None? && StreakOk(r, now))
    && (r.phase == Failed <==> r.code.Some?)
    && (Retrying(r) ==> RetryOk(r, now))
    && (Rejected(r) ==> !r.retryable && r.retryAt.None?)
    && (r.since.Some? ==> r.attempts <= MOST_RETRIES + 1)
    && (r.signed.None? ==> r.mintHash.None?)
    && (r.phase == Sent || r.phase == Confirming ==> r.signed.None?)
    && (r.phase == Confirmed || r.phase == Submitted ==> r.signed.Some?)
    && (r.phase == Arrived ==> r.since.None? && r.signed.Some? && r.signed.value in chain.spent)
    && (r.submittedAt.Some? ==> r.submittedAt.value <= now)
  }

  predicate HasReverted(chain: Chain, tx: TxHash) { tx in chain.mints && chain.mints[tx].receipt == Reverts }

  predicate Superseded(chain: Chain, sent: seq<TxHash>)
  {
    forall i | 0 <= i < |sent| - 1 :: HasReverted(chain, sent[i])
  }

  /** The record names the last of the burn's recorded broadcasts, and all earlier ones reverted. */
  predicate SentOk(chain: Chain, r: Record, sent: seq<TxHash>)
  {
    && Superseded(chain, sent)
    && (r.phase != Arrived ==>
         if sent == [] then r.mintHash.None? else r.mintHash == Some(sent[|sent| - 1]) && r.mintedBy == Some(ByRelay))
  }

  /** The burn's recorded broadcast, if any, reverted. */
  predicate MayResend(chain: Chain, r: Record) { r.mintHash.Some? ==> HasReverted(chain, r.mintHash.value) }

  predicate PointOk(now: Time, chain: Chain, r: Record, p: Point)
  {
    match p
    case CheckingGas => Retrying(r) && r.retryAt.value <= now
    case Polling(begun) => (r.phase == Sent || r.phase == Confirming) && begun <= now
    case Queued => !Settled(r) && r.signed.Some?
    case EarlierReceipt(n, tx) => Minting(r, n) && r.mintHash == Some(tx)
    case EarlierNonce(n) => Minting(r, n)
    case CheckingNonce(n) => Minting(r, n) && (MayResend(chain, r) || n in chain.spent)
    case Simulating(n) => Minting(r, n) && MayResend(chain, r)
    case SimulationFailed(n, _) => Minting(r, n)
    case Sending(n, _) => Minting(r, n) && MayResend(chain, r)
    case AwaitingReceipt(n, tx) => Minting(r, n) && r.mintHash == Some(tx)
    case LastNonce(n, _) => Minting(r, n)
    case FindingMint(n) => Minting(r, n) && n in chain.spent
    case CheckingBalance => r.phase == Arrived
    case SearchingAgain => r.phase == Arrived
    case Done => true
  }

  predicate Minting(r: Record, n: Nonce) { !Settled(r) && r.signed == Some(n) }

  predicate ChainOk(chain: Chain)
  {
    forall tx | tx in chain.mints && chain.mints[tx].receipt == Success :: chain.mints[tx].nonce in chain.spent
  }

  /** The broadcasts recorded for a burn carry its nonce. */
  predicate NoncesOk(chain: Chain, r: Record, sent: seq<TxHash>)
  {
    forall i | 0 <= i < |sent| :: sent[i] in chain.mints && r.signed == Some(chain.mints[sent[i]].nonce)
  }

  predicate BurnOk(now: Time, chain: Chain, r: Record, job: Option<Point>, sent: seq<TxHash>)
  {
    && RecordOk(now, chain, r) && SentOk(chain, r, sent) && NoncesOk(chain, r, sent)
    && (job.Some? ==> PointOk(now, chain, r, job.value))
    && (job.Some? && job.value.Sending? && job.value.onChain.Some? ==>
          job.value.onChain.value in chain.mints && chain.mints[job.value.onChain.value].nonce == job.value.n)
  }

  // ------------------------------------------------------------ the whole relay

  function JobOf(s: State, b: Burn): Option<Point> { if b in s.jobs then Some(s.jobs[b]) else None }

  predicate AllBurnsOk(s: State)
  {
    forall b | b in s.records :: BurnOk(s.now, s.chain, s.records[b], JobOf(s, b), SentBy(s, b))
  }

  /** Past the cap check and not yet recorded. */
  predicate Cleared(p: Point) { p.Simulating? || p.SimulationFailed? || p.Sending? }

  /** What the lock holder did last. */
  predicate HolderLog(log: seq<Action>, b: Burn, p: Point)
  {
    match p
    case EarlierReceipt(_, _) => |log| >= 1 && log[|log| - 1] == Took(b)
    case EarlierNonce(_) => |log| >= 1 && log[|log| - 1] == Took(b)
    case CheckingNonce(_) => |log| >= 1 && log[|log| - 1] == Took(b)
    case Simulating(n) => |log| >= 2 && log[|log| - 2..] == [Took(b), ReadUnspent(b, n)]
    case Sending(n, None) => |log| >= 2 && log[|log| - 2..] == [Took(b), ReadUnspent(b, n)]
    case _ => true
  }

  predicate HolderOk(c: Settings, s: State)
  {
    s.lock.Some? ==>
      var b := s.lock.value;
      && b in s.jobs && InMint(s.jobs[b]) && HolderLog(s.log, b, s.jobs[b])
      && (Cleared(s.jobs[b]) ==> |SubmittedSince(s.records, StartOfUtcDay(s.now))| < c.dailyCap)
  }

  /** Only the lock holder is inside `mint`. */
  predicate LockOk(s: State) { forall b | b in s.jobs :: InMint(s.jobs[b]) ==> s.lock == Some(b) }

  predicate CapHolds(c: Settings, s: State) { |SubmittedSince(s.records, StartOfUtcDay(s.now))| <= c.dailyCap }

  /** Every broadcast directly follows taking the lock and reading that nonce as unspent. */
  predicate LogOk(log: seq<Action>)
  {
    forall i {:trigger log[i].Broadcast?} | 0 <= i < |log| && log[i].Broadcast? ::
      i >= 2 && log[i - 2] == Took(log[i].b) && log[i - 1] == ReadUnspent(log[i].b, log[i].n)
  }

  predicate KeysOk(s: State) { s.jobs.Keys <= s.records.Keys && s.sent.Keys <= s.records.Keys }

  predicate Inv(c: Settings, s: State)
  {
    KeysOk(s) && ChainOk(s.chain) && AllBurnsOk(s) && HolderOk(c, s) && LockOk(s) && CapHolds(c, s) && LogOk(s.log)
  }

  // ------------------------------------------------------- keeping a record

  lemma PacedStart(now: Time)
    ensures Paced(now, 0, now)
  {
    assert Elapsed(0) == 0;
  }

  /** A transient failure keeps pace and counts one attempt, or is the last. */
  lemma TransientKeeps(now: Time, chain: Chain, r: Record, code: FailureCode)
    requires RecordOk(now, chain, r) && !Final(code) && r.phase != Arrived
    requires !Settled(r) || (Retrying(r) && r.retryAt.value <= now)
    ensures RecordOk(now, chain, Transient(r, now, code))
  {
    hide Paced;
    hide RetryDelay;
    hide StartOfUtcDay;
    var since := StreakStart(r, now);
    if r.since.None? {
      PacedStart(now);
    } else if Retrying(r) {
      PacedLater(since, r.attempts, r.retryAt.value, now);
    }
    if now - since < RETRY_GIVE_UP {
      FewAttempts(since, r.attempts, now);
      PacedOnce(since, r.attempts, now, code);
    }
  }

  lemma ResumedKeeps(now: Time, chain: Chain, r: Record)
    requires RecordOk(now, chain, r) && Retrying(r) && r.retryAt.value <= now
    ensures RecordOk(now, chain, Resumed(r)) && !Settled(Resumed(r))
  {
    PacedLater(r.since.value, r.attempts, r.retryAt.value, now);
  }

  lemma LaterKeeps(now: Time, later: Time, chain: Chain, r: Record, job: Option<Point>, sent: seq<TxHash>)
    requires BurnOk(now, chain, r, job, sent) && now <= later
    ensures BurnOk(later, chain, r, job, sent)
  {
    if !Settled(r) && r.since.Some? {
      PacedLater(r.since.value, r.attempts, now, later);
    }
  }

  /** Spent nonces stay spent, mints stay known and reverted ones reverted. */
  predicate Grows(before: Chain, after: Chain)
  {
    && before.spent <= after.spent
    && (forall tx | tx in before.mints :: tx in after.mints && after.mints[tx].nonce == before.mints[tx].nonce
                      && (before.mints[tx].receipt == Reverts ==> after.mints[tx].receipt == Reverts))
  }

  lemma GrowthKeeps(now: Time, chain: Chain, chain': Chain, r: Record, job: Option<Point>, sent: seq<TxHash>)
    requires BurnOk(now, chain, r, job, sent) && Grows(chain, chain')
    ensures BurnOk(now, chain', r, job, sent)
  {
  }

  // ------------------------------------------------------- counting

  lemma CountSame(records: map<Burn, Record>, b: Burn, r: Record, t: Time)
    requires if b in records then r.submittedAt == records[b].submittedAt else r.submittedAt.None?
    ensures SubmittedSince(records[b := r], t) == SubmittedSince(records, t)
  {
  }

  lemma CountOneMore(records: map<Burn, Record>, b: Burn, r: Record, t: Time)
    requires b in records
    ensures |SubmittedSince(records[b := r], t)| <= |SubmittedSince(records, t)| + 1
  {
    SubsetSize(SubmittedSince(records[b := r], t), SubmittedSince(records, t) + {b});
  }

  lemma CountLater(records: map<Burn, Record>, t: Time, u: Time)
    requires t <= u
    ensures |SubmittedSince(records, u)| <= |SubmittedSince(records, t)|
  {
    SubsetSize(SubmittedSince(records, u), SubmittedSince(records, t));
  }

  lemma {:induction false} SubsetSize<T>(a: set<T>, b: set<T>)
    requires a <= b
    ensures |a| <= |b|
  {
    if a != {} {
      var x :| x in a;
      SubsetSize(a - {x}, b - {x});
    }
  }

  lemma MidnightMonotone(t: Time, u: Time)
    requires t <= u
    ensures StartOfUtcDay(t) <= StartOfUtcDay(u)
  {
    DayMonotone(t, u);
    assert t == (t / DAY) * DAY + t % DAY && u == (u / DAY) * DAY + u % DAY;
    assert (t / DAY) * DAY <= (u / DAY) * DAY;
  }

  // ------------------------------------------------------- a job's step

  /** A job that writes its record and goes on to `p` keeps the invariant when both fit. */
  lemma GoesKeeps(c: Settings, s: State, b: Burn, r: Record, p: Point)
    requires Inv(c, s) && b in s.jobs
    requires BurnOk(s.now, s.chain, r, Some(p), SentBy(s, b))
    requires r.submittedAt == s.records[b].submittedAt
    requires InMint(p) ==> s.lock == Some(b) && HolderLog(s.log, b, p) && (Cleared(p) ==> Cleared(s.jobs[b]))
    ensures Inv(c, Goes(s, b, r, p))
  {
    hide LogOk;
    hide BurnOk;
    hide SubmittedSince;
    hide StartOfUtcDay;
    var s' := Goes(s, b, r, p);
    CountSame(s.records, b, r, StartOfUtcDay(s.now));
    forall b' | b' in s'.records
      ensures BurnOk(s'.now, s'.chain, s'.records[b'], JobOf(s', b'), SentBy(s', b'))
    {
      if b' != b {
        assert BurnOk(s.now, s.chain, s.records[b'], JobOf(s, b'), SentBy(s, b'));
      }
    }
  }

  lemma Fits(s: State, b: Burn)
    requires b in s.records && b in s.jobs && BurnOk(s.now, s.chain, s.records[b], JobOf(s, b), SentBy(s, b))
    ensures PointOk(s.now, s.chain, s.records[b], s.jobs[b])
  {
  }

  lemma Moves(now: Time, chain: Chain, r: Record, p: Point, p': Point, sent: seq<TxHash>)
    requires BurnOk(now, chain, r, Some(p), sent) && PointOk(now, chain, r, p')
    requires p'.Sending? ==> p'.onChain.None?
    ensures BurnOk(now, chain, r, Some(p'), sent)
  {
  }

  /** Adding to the log is harmless to everyone but the holder. */
  lemma LoggedKeeps(c: Settings, s: State, b: Burn, a: Action, p: Point)
    requires Inv(c, s) && s.lock == Some(b) && a.ReadUnspent? && a.b == b
    requires b in s.jobs && s.jobs[b].CheckingNonce? && p == Simulating(s.jobs[b].n) && a.n == p.n
    requires p.n !in s.chain.spent && !CapReached(c, s)
    ensures Inv(c, Goes(s.(log := s.log + [a]), b, s.records[b], p))
  {
    hide LogOk;
    hide BurnOk;
    hide SubmittedSince;
    hide StartOfUtcDay;
    hide ChainOk;
    hide HolderLog;
    var s' := Goes(s.(log := s.log + [a]), b, s.records[b], p);
    CountSame(s.records, b, s.records[b], StartOfUtcDay(s.now));
    forall b' | b' in s'.records
      ensures BurnOk(s'.now, s'.chain, s'.records[b'], JobOf(s', b'), SentBy(s', b'))
    {
      assert BurnOk(s.now, s.chain, s.records[b'], JobOf(s, b'), SentBy(s, b'));
      if b' == b {
        PassesCheck(s, b);
      }
    }
    LogGrows(s.log, a);
    ReadFollowsTake(s.log, b, p.n);
  }

  /** Reading the nonce comes right after taking the lock. */
  lemma ReadFollowsTake(log: seq<Action>, b: Burn, n: Nonce)
    requires HolderLog(log, b, CheckingNonce(n))
    ensures HolderLog(log + [ReadUnspent(b, n)], b, Simulating(n))
  {
    var log' := log + [ReadUnspent(b, n)];
    assert log'[|log'| - 2..] == [log[|log| - 1], ReadUnspent(b, n)];
  }

  lemma PassesCheck(s: State, b: Burn)
    requires b in s.records && b in s.jobs && BurnOk(s.now, s.chain, s.records[b], JobOf(s, b), SentBy(s, b))
    requires s.jobs[b].CheckingNonce? && s.jobs[b].n !in s.chain.spent
    ensures BurnOk(s.now, s.chain, s.records[b], Some(Simulating(s.jobs[b].n)), SentBy(s, b))
  {
    hide RecordOk;
    Fits(s, b);
    Moves(s.now, s.chain, s.records[b], s.jobs[b], Simulating(s.jobs[b].n), SentBy(s, b));
  }

  lemma LogGrows(log: seq<Action>, a: Action)
    requires LogOk(log)
    requires a.Broadcast? ==> |log| >= 2 && log[|log| - 2..] == [Took(a.b), ReadUnspent(a.b, a.n)]
    ensures LogOk(log + [a])
  {
    var log' := log + [a];
    forall i | 0 <= i < |log'| && log'[i].Broadcast?
      ensures i >= 2 && log'[i - 2] == Took(log'[i].b) && log'[i - 1] == ReadUnspent(log'[i].b, log'[i].n)
    {
      if i < |log| {
        assert log[i].Broadcast?;
      } else {
        assert log[|log| - 2] == log[|log| - 2..][0] && log[|log| - 1] == log[|log| - 2..][1];
      }
    }
  }
}
