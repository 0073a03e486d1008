/**
 * What the daily cap bounds. The store counts the burns whose latest recorded
 * broadcast is of today; these lemmas say by how much that differs from the
 * mints broadcast today, in every state and at every step.
 */
module RelayCap {
  import opened Wrappers
  import opened RelayRecords
  import opened RelayProtocol
  import opened RelayInvariant
  import opened RelaySteps
  import opened RelayTheorems

  // ------------------------------------------------------- the day's mints

  /** The mints that reached the chain at or after `t`. */
  function BroadcastSince(s: State, t: Time): set<TxHash> { set tx | tx in s.broadcasts && s.broadcasts[tx].at >= t }

  predicate WasRecorded(a: Attempt, t: Time) { a.recordedAt.Some? && a.recordedAt.value >= t }

  /** The broadcasts recorded at or after `t`. */
  function RecordedSince(s: State, t: Time): set<TxHash> { set tx | tx in s.broadcasts && WasRecorded(s.broadcasts[tx], t) }

  /** Those of the mints since `t` whose answer never came back, or has not yet. */
  function UnrecordedSince(s: State, t: Time): set<TxHash>
  {
    set tx | tx in s.broadcasts && s.broadcasts[tx].at >= t && s.broadcasts[tx].recordedAt.None?
  }

  /** Broadcast before `t` and recorded after it. */
  function RecordedLate(s: State, t: Time): set<TxHash>
  {
    set tx | tx in s.broadcasts && s.broadcasts[tx].at < t && WasRecorded(s.broadcasts[tx], t)
  }

  function BurnsOf(s: State, txs: set<TxHash>): set<Burn>
    requires txs <= s.broadcasts.Keys
  {
    set tx | tx in txs :: s.broadcasts[tx].b
  }

  /** How many of the broadcasts recorded since `t` repeat a burn. */
  function Repeats(s: State, t: Time): int { |RecordedSince(s, t)| - |BurnsOf(s, RecordedSince(s, t))| }

  // ------------------------------------------------------- the invariant

  predicate AttemptOk(now: Time, records: map<Burn, Record>, a: Attempt)
  {
    && a.at <= now && a.b in records
    && (a.recordedAt.Some? ==>
          && a.at <= a.recordedAt.value <= now
          && records[a.b].submittedAt.Some? && a.recordedAt.value <= records[a.b].submittedAt.value)
  }

  predicate HasAttempt(broadcasts: map<TxHash, Attempt>, b: Burn, at: Time)
  {
    exists tx | tx in broadcasts :: broadcasts[tx].b == b && broadcasts[tx].recordedAt == Some(at)
  }

  predicate SendingKnown(broadcasts: map<TxHash, Attempt>, b: Burn, p: Point)
  {
    p.Sending? && p.onChain.Some? ==> p.onChain.value in broadcasts && broadcasts[p.onChain.value].b == b
  }

  /** The history lists exactly the mints on chain, and each record knows its burn's last recorded one. */
  predicate HistoryOk(s: State)
  {
    && s.broadcasts.Keys == s.chain.mints.Keys
    && (forall tx | tx in s.broadcasts :: AttemptOk(s.now, s.records, s.broadcasts[tx]))
    && (forall b | b in s.records && s.records[b].submittedAt.Some? :: HasAttempt(s.broadcasts, b, s.records[b].submittedAt.value))
    && (forall b | b in s.jobs :: SendingKnown(s.broadcasts, b, s.jobs[b]))
  }

  // ------------------------------------------------------- what a step does

  /** The event brings a mint to the chain. */
  predicate Reaches(s: State, e: Event)
  {
    e.MintReaches? && e.b in s.jobs && e.b in s.records && s.jobs[e.b].Sending? && s.jobs[e.b].onChain.None?
    && e.tx !in s.chain.mints
  }

  /** The event records the broadcast of `e.b`. */
  predicate Records(s: State, e: Event)
  {
    e.SendSays? && e.response == Accepted && e.b in s.jobs && e.b in s.records && s.jobs[e.b].Sending? && s.jobs[e.b].onChain.Some?
  }

  predicate SameTimes(records: map<Burn, Record>, records': map<Burn, Record>)
  {
    && (forall b | b in records :: b in records' && records'[b].submittedAt == records[b].submittedAt)
    && (forall b | b in records' && b !in records :: records'[b].submittedAt.None?)
  }

  /** Nothing the cap is about changes. */
  predicate Quiet(s: State, s': State)
  {
    && s'.broadcasts == s.broadcasts && s'.chain.mints.Keys == s.chain.mints.Keys && SameTimes(s.records, s'.records)
    && (forall b | b in s'.jobs && s'.jobs[b].Sending? && s'.jobs[b].onChain.Some? :: b in s.jobs && s.jobs[b] == s'.jobs[b])
  }

  lemma GoesQuietly(s: State, b: Burn, r: Record, p: Point)
    requires b in s.records && r.submittedAt == s.records[b].submittedAt && (p.Sending? ==> p.onChain.None?)
    ensures Quiet(s, Goes(s, b, r, p))
  {
  }

  lemma FailsQuietly(s: State, b: Burn, code: FailureCode)
    requires b in s.records
    ensures Quiet(s, Fails(s, b, code))
  {
    hide Quiet;
    hide Transient;
    TransientFrame(s.records[b], s.now, code);
    GoesQuietly(s, b, Transient(s.records[b], s.now, code), Done);
  }

  lemma QuietTwice(s: State, s': State, s'': State)
    requires Quiet(s, s') && Quiet(s', s'')
    ensures Quiet(s, s'')
  {
  }

  lemma IrisQuietly(c: Settings, s: State, b: Burn, begun: Time, answer: IrisAnswer)
    requires b in s.records
    ensures Quiet(s, DoIris(c, s, b, begun, answer))
  {
    hide Quiet;
    hide AfterPoll;
    var r := s.records[b];
    match answer
    case Complete(n) => GoesQuietly(s, b, r.(phase := Confirmed, signed := Some(n)), Queued);
    case Refuses => GoesQuietly(s, b, Stopped(r, Refused), Done);
    case PendingFinality =>
      var r' := if r.phase == Sent then r.(phase := Confirming) else r;
      var s' := Goes(s, b, r', Polling(begun));
      GoesQuietly(s, b, r', Polling(begun));
      PollQuietly(c, s', b, begun);
      QuietTwice(s, s', AfterPoll(c, s', b, begun));
    case NoAnswer => PollQuietly(c, s, b, begun);
  }

  lemma PollQuietly(c: Settings, s: State, b: Burn, begun: Time)
    requires b in s.records
    ensures Quiet(s, AfterPoll(c, s, b, begun))
  {
    hide Quiet;
    hide Fails;
    Unmoved(s, s);
    FailsQuietly(s, b, ConfirmTimeout);
    GoesQuietly(s, b, Stopped(s.records[b], Unseen), Done);
  }

  lemma NonceQuietly(c: Settings, s: State, b: Burn, p: Point)
    requires b in s.records
    ensures Quiet(s, DoNonce(c, s, b, p))
  {
    hide Quiet;
    hide Fails;
    hide CapReached;
    Unmoved(s, s);
    match p
    case EarlierNonce(n) =>
      GoesQuietly(s, b, s.records[b], CheckingNonce(n));
      FailsQuietly(s, b, NotMined);
    case CheckingNonce(n) =>
      GoesQuietly(s, b, s.records[b], FindingMint(n));
      FailsQuietly(s, b, DailyCap);
      LoggedQuietly(s, b, ReadUnspent(b, n), Simulating(n));
    case SimulationFailed(n, _) =>
      GoesQuietly(s, b, s.records[b], FindingMint(n));
      FailsQuietly(s, b, Rpc);
      GoesQuietly(s, b, Stopped(s.records[b], MintRefused), Done);
    case LastNonce(n, _) =>
      GoesQuietly(s, b, s.records[b], FindingMint(n));
      FailsQuietly(s, b, Reverted);
      FailsQuietly(s, b, NotMined);
    case _ =>
  }

  lemma LoggedQuietly(s: State, b: Burn, a: Action, p: Point)
    requires b in s.records && !p.Sending?
    ensures Quiet(s, Goes(s.(log := s.log + [a]), b, s.records[b], p))
  {
  }

  lemma Unmoved(s: State, s': State)
    requires s'.records == s.records && s'.broadcasts == s.broadcasts && s'.chain.mints.Keys == s.chain.mints.Keys
    requires forall b | b in s'.jobs && s'.jobs[b].Sending? && s'.jobs[b].onChain.Some? :: b in s.jobs && s.jobs[b] == s'.jobs[b]
    ensures Quiet(s, s')
  {
  }

  lemma LockQuietly(s: State, b: Burn)
    requires b in s.records
    ensures Quiet(s, DoTake(s, b))
  {
    hide Quiet;
    var r, s' := s.records[b], s.(lock := Some(b), log := s.log + [Took(b)]);
    Unmoved(s, s');
    GoesQuietly(s', b, r, DoTake(s, b).jobs[b]);
    QuietTwice(s, s', DoTake(s, b));
  }

  lemma ReceiptQuietly(s: State, b: Burn, p: Point, outcome: Receipt)
    requires b in s.records && (p.EarlierReceipt? || p.AwaitingReceipt?)
    ensures Quiet(s, DoReceipt(s, b, p, outcome))
  {
    hide Quiet;
    hide Truthful;
    var r := s.records[b];
    Unmoved(s, s);
    if outcome == Success {
      GoesQuietly(s, b, Arrive(r, s.now, Some(p.tx), ByRelay), if p.EarlierReceipt? then Done else CheckingBalance);
    } else if p.AwaitingReceipt? {
      GoesQuietly(s, b, r, LastNonce(p.n, outcome == Reverts));
    } else {
      GoesQuietly(s, b, r, if outcome == Pending then EarlierNonce(p.n) else CheckingNonce(p.n));
    }
  }

  lemma FoundQuietly(s: State, b: Burn, p: Point, found: Option<(TxHash, Minter)>)
    requires b in s.records
    ensures Quiet(s, DoFound(s, b, p, found))
  {
    hide RetryDelay;
  }

  lemma JobQuietly(c: Settings, s: State, b: Burn, e: Event)
    requires b in s.jobs && b in s.records && OfJob(e) && e.b == b && !Reaches(s, e) && !Records(s, e)
    ensures Quiet(s, JobStep(c, s, b, s.jobs[b], e))
  {
    hide Transient;
    hide DoIris;
    hide DoNonce;
    hide Quiet;
    hide Fails;
    var r, p := s.records[b], s.jobs[b];
    Unmoved(s, s);
    FailsQuietly(s, b, OutOfGas);
    FailsQuietly(s, b, SendFailed);
    FailsQuietly(s, b, Unexpected);
    NonceQuietly(c, s, b, p);
    match e
    case GasAnswer(_, _) => GoesQuietly(s, b, Resumed(r), RunPoint(Resumed(r), s.now));
    case IrisSays(_, answer) => if p.Polling? { IrisQuietly(c, s, b, p.begun, answer); }
    case TakeLock(_) => LockQuietly(s, b);
    case ReceiptSays(_, outcome) => if p.EarlierReceipt? || p.AwaitingReceipt? { ReceiptQuietly(s, b, p, outcome); }
    case SimulationSays(_, ok, transient) =>
      if p.Simulating? { GoesQuietly(s, b, r, if ok then Sending(p.n, None) else SimulationFailed(p.n, transient)); }
    case MintFound(_, found) => FoundQuietly(s, b, p, found);
    case BalanceRead(_) => GoesQuietly(s, b, r, Done);
    case Throws(_) => GoesQuietly(s, b, r, Done);
    case Finishes(_) => Unmoved(s, s.(jobs := s.jobs - {b}));
    case _ =>
  }

  lemma RetryQuietly(c: Settings, s: State, b: Burn)
    ensures Quiet(s, DoRetry(c, s, b))
  {
    hide Quiet;
    Unmoved(s, s);
    if b in s.records {
      Unmoved(s, s.(jobs := s.jobs[b := SearchingAgain]));
      Unmoved(s, s.(jobs := s.jobs[b := CheckingGas]));
      var r := Resumed(s.records[b]);
      GoesQuietly(s, b, r, RunPoint(r, s.now));
    }
  }

  lemma StartQuietly(s: State, b: Burn, r: Record)
    requires if b in s.records then r.submittedAt == s.records[b].submittedAt else r.submittedAt.None?
    ensures Quiet(s, Start(s.(records := s.records[b := r]), b))
  {
  }

  lemma RequestQuietly(c: Settings, s: State, b: Burn)
    ensures Quiet(s, DoRequest(c, s, b))
  {
    hide Quiet;
    hide DoRetry;
    RetryQuietly(c, s, b);
    Unmoved(s, s);
    if b in s.records {
      StartQuietly(s, b, s.records[b]);
      assert s.records[b := s.records[b]] == s.records;
    }
    StartQuietly(s, b, if b in s.records then Restarted(s.records[b]) else NewRecord());
  }

  lemma JobEventQuietly(c: Settings, s: State, e: Event)
    requires OfJob(e) && !Reaches(s, e) && !Records(s, e)
    ensures Quiet(s, Step(c, s, e))
  {
    hide Quiet;
    hide JobStep;
    Unmoved(s, s);
    if e.b in s.jobs && e.b in s.records {
      JobQuietly(c, s, e.b, e);
    }
  }

  lemma MineQuietly(s: State, tx: TxHash, ok: bool)
    ensures Quiet(s, DoMine(s, tx, ok))
  {
    hide Quiet;
    Unmoved(s, DoMine(s, tx, ok));
  }

  lemma ResumeQuietly(s: State)
    ensures Quiet(s, DoResume(s))
  {
    hide Quiet;
    Unmoved(s, DoResume(s));
  }

  /** Only a mint that reaches the chain and the recording of a broadcast touch what the cap is about. */
  lemma OthersAreQuiet(c: Settings, s: State, e: Event)
    requires !Reaches(s, e) && !Records(s, e)
    ensures Quiet(s, Step(c, s, e))
  {
    hide Quiet;
    hide JobStep;
    hide DoRequest;
    hide DoRetry;
    hide DoResume;
    hide DoMine;
    if OfJob(e) {
      JobEventQuietly(c, s, e);
    } else {
      match e
      case Request(b) => RequestQuietly(c, s, b);
      case Retry(b) => RetryQuietly(c, s, b);
      case Tick(_) => Unmoved(s, Step(c, s, e));
      case Resume => ResumeQuietly(s);
      case Crash => Unmoved(s, Step(c, s, e));
      case Mined(tx, ok) => MineQuietly(s, tx, ok);
      case SomeoneSpends(_) => Unmoved(s, Step(c, s, e));
    }
  }

  lemma ReachEffect(c: Settings, s: State, e: Event)
    requires Reaches(s, e)
    ensures var s' := Step(c, s, e);
            && s'.now == s.now && s'.records == s.records
            && s'.broadcasts == s.broadcasts[e.tx := Attempt(e.b, s.now, None)]
            && s'.chain.mints.Keys == s.chain.mints.Keys + {e.tx}
            && s'.jobs == s.jobs[e.b := Sending(s.jobs[e.b].n, Some(e.tx))]
  {
  }

  lemma RecordEffect(c: Settings, s: State, e: Event)
    requires Records(s, e)
    ensures var s' := Step(c, s, e); var tx := s.jobs[e.b].onChain.value;
            && s'.now == s.now && s'.chain == s.chain && s'.broadcasts == Noted(s.broadcasts, tx, s.now)
            && s'.records.Keys == s.records.Keys && s'.records[e.b].submittedAt == Some(s.now)
            && (forall b | b in s.records && b != e.b :: s'.records[b] == s.records[b])
            && s'.jobs == s.jobs[e.b := AwaitingReceipt(s.jobs[e.b].n, tx)]
  {
  }

  lemma NowGrows(c: Settings, s: State, e: Event)
    ensures s.now <= Step(c, s, e).now
  {
    hide JobStep;
    if OfJob(e) && e.b in s.jobs && e.b in s.records {
      JobTakesNoTime(c, s, e.b, s.jobs[e.b], e);
    }
  }

  lemma JobTakesNoTime(c: Settings, s: State, b: Burn, p: Point, e: Event)
    requires b in s.records
    ensures JobStep(c, s, b, p, e).now == s.now
  {
    hide Transient;
    hide CapReached;
  }

  // ------------------------------------------------------- whole runs

  lemma QuietKeeps(s: State, s': State)
    requires HistoryOk(s) && Quiet(s, s') && s.now <= s'.now
    ensures HistoryOk(s')
  {
    forall tx | tx in s'.broadcasts
      ensures AttemptOk(s'.now, s'.records, s'.broadcasts[tx])
    {
      assert AttemptOk(s.now, s.records, s.broadcasts[tx]);
    }
    forall b | b in s'.jobs
      ensures SendingKnown(s'.broadcasts, b, s'.jobs[b])
    {
      if b in s.jobs {
        assert SendingKnown(s.broadcasts, b, s.jobs[b]);
      }
    }
  }

  lemma ReachKeepsHistory(c: Settings, s: State, e: Event)
    requires HistoryOk(s) && Reaches(s, e)
    ensures HistoryOk(Step(c, s, e))
  {
    hide Step;
    ReachEffect(c, s, e);
    var s' := Step(c, s, e);
    forall tx | tx in s'.broadcasts
      ensures AttemptOk(s'.now, s'.records, s'.broadcasts[tx])
    {
      if tx != e.tx {
        assert AttemptOk(s.now, s.records, s.broadcasts[tx]);
      }
    }
    forall b | b in s'.records && s'.records[b].submittedAt.Some?
      ensures HasAttempt(s'.broadcasts, b, s'.records[b].submittedAt.value)
    {
      var at := s.records[b].submittedAt.value;
      assert HasAttempt(s.broadcasts, b, at);
      var tx :| tx in s.broadcasts && s.broadcasts[tx].b == b && s.broadcasts[tx].recordedAt == Some(at);
      assert s'.broadcasts[tx] == s.broadcasts[tx];
    }
    forall b | b in s'.jobs
      ensures SendingKnown(s'.broadcasts, b, s'.jobs[b])
    {
      if b != e.b {
        assert SendingKnown(s.broadcasts, b, s.jobs[b]);
      }
    }
  }

  lemma RecordKeepsHistory(c: Settings, s: State, e: Event)
    requires HistoryOk(s) && Records(s, e)
    ensures HistoryOk(Step(c, s, e))
  {
    hide Step;
    RecordEffect(c, s, e);
    var s', sent := Step(c, s, e), s.jobs[e.b].onChain.value;
    assert SendingKnown(s.broadcasts, e.b, s.jobs[e.b]);
    forall tx | tx in s'.broadcasts
      ensures AttemptOk(s'.now, s'.records, s'.broadcasts[tx])
    {
      assert AttemptOk(s.now, s.records, s.broadcasts[tx]);
    }
    forall b | b in s'.records && s'.records[b].submittedAt.Some?
      ensures HasAttempt(s'.broadcasts, b, s'.records[b].submittedAt.value)
    {
      if b == e.b {
        assert s'.broadcasts[sent].recordedAt == Some(s.now);
      } else {
        var at := s.records[b].submittedAt.value;
        assert HasAttempt(s.broadcasts, b, at);
        var tx :| tx in s.broadcasts && s.broadcasts[tx].b == b && s.broadcasts[tx].recordedAt == Some(at);
        assert s'.broadcasts[tx] == s.broadcasts[tx];
      }
    }
    forall b | b in s'.jobs
      ensures SendingKnown(s'.broadcasts, b, s'.jobs[b])
    {
      if b != e.b {
        assert SendingKnown(s.broadcasts, b, s.jobs[b]);
      }
    }
  }

  lemma StepKeepsHistory(c: Settings, s: State, e: Event)
    requires HistoryOk(s)
    ensures HistoryOk(Step(c, s, e))
  {
    hide Step;
    hide HistoryOk;
    NowGrows(c, s, e);
    if Reaches(s, e) {
      ReachKeepsHistory(c, s, e);
    } else if Records(s, e) {
      RecordKeepsHistory(c, s, e);
    } else {
      OthersAreQuiet(c, s, e);
      QuietKeeps(s, Step(c, s, e));
    }
  }

  /** In every run the history is exact: it lists the mints on chain, no more and no less. */
  lemma {:induction false} RunKeepsHistory(c: Settings, now: Time, spent: set<Nonce>, events: seq<Event>)
    ensures HistoryOk(Run(c, Initial(now, spent), events))
    decreases |events|
  {
    hide Step;
    if events != [] {
      RunKeepsHistory(c, now, spent, events[..|events| - 1]);
      StepKeepsHistory(c, Run(c, Initial(now, spent), events[..|events| - 1]), events[|events| - 1]);
    }
  }

  // ------------------------------------------------------- the day adds up

  /** The store counts the burns of the broadcasts recorded since `t`. */
  lemma StoreCountsBurns(s: State, t: Time)
    requires HistoryOk(s)
    ensures BurnsOf(s, RecordedSince(s, t)) == SubmittedSince(s.records, t)
  {
    forall b
      ensures b in BurnsOf(s, RecordedSince(s, t)) <==> b in SubmittedSince(s.records, t)
    {
      if b in BurnsOf(s, RecordedSince(s, t)) {
        var tx :| tx in RecordedSince(s, t) && s.broadcasts[tx].b == b;
        assert AttemptOk(s.now, s.records, s.broadcasts[tx]);
      }
      if b in SubmittedSince(s.records, t) {
        var at := s.records[b].submittedAt.value;
        assert HasAttempt(s.broadcasts, b, at);
        var tx :| tx in s.broadcasts && s.broadcasts[tx].b == b && s.broadcasts[tx].recordedAt == Some(at);
        assert tx in RecordedSince(s, t);
      }
    }
  }

  /** Two of the transactions are mints of one burn. */
  predicate SameBurnTwice(s: State, txs: set<TxHash>)
    requires txs <= s.broadcasts.Keys
  {
    exists x, y | x in txs && y in txs :: x != y && s.broadcasts[x].b == s.broadcasts[y].b
  }

  lemma {:induction false} BurnsAreFewer(s: State, txs: set<TxHash>)
    requires txs <= s.broadcasts.Keys
    ensures |BurnsOf(s, txs)| <= |txs|
    ensures |BurnsOf(s, txs)| == |txs| <==> !SameBurnTwice(s, txs)
    decreases |txs|
  {
    if txs == {} {
      assert BurnsOf(s, txs) == {};
    } else {
      var x :| x in txs;
      var rest, b := txs - {x}, s.broadcasts[x].b;
      BurnsAreFewer(s, rest);
      assert BurnsOf(s, txs) == BurnsOf(s, rest) + {b};
      if b in BurnsOf(s, rest) {
        var y :| y in rest && s.broadcasts[y].b == b;
        assert BurnsOf(s, txs) == BurnsOf(s, rest);
        assert SameBurnTwice(s, txs);
      } else {
        assert |BurnsOf(s, txs)| == |BurnsOf(s, rest)| + 1;
        if SameBurnTwice(s, txs) {
          var y, z :| y in txs && z in txs && y != z && s.broadcasts[y].b == s.broadcasts[z].b;
          assert y in rest && z in rest;
        }
      }
    }
  }

  lemma SizesAddUp(s: State, t: Time)
    requires forall tx | tx in s.broadcasts && s.broadcasts[tx].recordedAt.Some? :: s.broadcasts[tx].at <= s.broadcasts[tx].recordedAt.value
    ensures |BroadcastSince(s, t)| + |RecordedLate(s, t)| == |RecordedSince(s, t)| + |UnrecordedSince(s, t)|
  {
    var all, late, recorded, lost := BroadcastSince(s, t), RecordedLate(s, t), RecordedSince(s, t), UnrecordedSince(s, t);
    assert all + late == recorded + lost;
    assert all * late == {} && recorded * lost == {};
    Sizes(all, late);
    Sizes(recorded, lost);
  }

  lemma Sizes(a: set<TxHash>, b: set<TxHash>)
    requires a * b == {}
    ensures |a + b| == |a| + |b|
  {
  }

  /**
   * The mints broadcast in the current UTC day are the burns the store counts,
   * and the repeats of a burn, and those whose answer was lost or is still due,
   * less those recorded today though broadcast before midnight. So they stay
   * within the cap if and only if these corrections leave the count within it.
   */
  lemma CapAgainstBroadcasts(c: Settings, now: Time, spent: set<Nonce>, events: seq<Event>)
    ensures var s := Run(c, Initial(now, spent), events); var t := StartOfUtcDay(s.now);
            var counted, corrections := |SubmittedSince(s.records, t)|, Repeats(s, t) + |UnrecordedSince(s, t)| - |RecordedLate(s, t)|;
            && s.broadcasts.Keys == s.chain.mints.Keys
            && |BroadcastSince(s, t)| == counted + corrections
            && (|BroadcastSince(s, t)| <= c.dailyCap <==> counted + corrections <= c.dailyCap)
            && Repeats(s, t) >= 0 && (Repeats(s, t) == 0 <==> !SameBurnTwice(s, RecordedSince(s, t)))
            && counted <= c.dailyCap
  {
    hide Step;
    var s := Run(c, Initial(now, spent), events);
    var t := StartOfUtcDay(s.now);
    RunKeepsHistory(c, now, spent, events);
    DailyCapHolds(c, now, spent, events);
    AddsUp(s, t);
  }

  lemma AddsUp(s: State, t: Time)
    requires HistoryOk(s)
    ensures |BroadcastSince(s, t)| == |SubmittedSince(s.records, t)| + Repeats(s, t) + |UnrecordedSince(s, t)| - |RecordedLate(s, t)|
    ensures Repeats(s, t) >= 0 && (Repeats(s, t) == 0 <==> !SameBurnTwice(s, RecordedSince(s, t)))
  {
    forall tx | tx in s.broadcasts && s.broadcasts[tx].recordedAt.Some?
      ensures s.broadcasts[tx].at <= s.broadcasts[tx].recordedAt.value
    {
      assert AttemptOk(s.now, s.records, s.broadcasts[tx]);
    }
    SizesAddUp(s, t);
    StoreCountsBurns(s, t);
    BurnsAreFewer(s, RecordedSince(s, t));
  }

  // ------------------------------------------------- step by step, beforehand

  /** The record of `b` shows a broadcast in the current day. */
  predicate SentToday(s: State, b: Burn) { b in SubmittedSince(s.records, StartOfUtcDay(s.now)) }

  /** By how much the day's broadcasts exceed what the store counts. */
  function Excess(s: State): int
  {
    var t := StartOfUtcDay(s.now);
    |BroadcastSince(s, t)| - |SubmittedSince(s.records, t)|
  }

  /**
   * Within a day, a mint that reaches the chain puts the count one behind, and
   * recording it catches up exactly unless its burn was already sent today;
   * nothing else changes the difference. So a lost answer or a repeat leaves
   * the count behind for the rest of the day.
   */
  lemma StepExcess(c: Settings, s: State, e: Event)
    requires HistoryOk(s) && StartOfUtcDay(Step(c, s, e).now) == StartOfUtcDay(s.now)
    ensures Excess(Step(c, s, e))
         == Excess(s) + (if Reaches(s, e) then 1 else 0) - (if Records(s, e) && !SentToday(s, e.b) then 1 else 0)
  {
    hide Step;
    hide StartOfUtcDay;
    hide BroadcastSince;
    hide SubmittedSince;
    hide Quiet;
    var s', t := Step(c, s, e), StartOfUtcDay(s.now);
    TodayIsPast(s.now);
    if Reaches(s, e) {
      ReachEffect(c, s, e);
      OneMoreBroadcast(s, s', t, e.tx, e.b);
    } else if Records(s, e) {
      RecordEffect(c, s, e);
      OneMoreBurn(s, s', t, s.jobs[e.b].onChain.value, e.b);
    } else {
      OthersAreQuiet(c, s, e);
      SameCounts(s, s', t);
    }
  }

  lemma OneMoreBroadcast(s: State, s': State, t: Time, tx: TxHash, b: Burn)
    requires tx !in s.broadcasts && s'.broadcasts == s.broadcasts[tx := Attempt(b, s.now, None)] && t <= s.now
    ensures |BroadcastSince(s', t)| == |BroadcastSince(s, t)| + 1
  {
    assert BroadcastSince(s', t) == BroadcastSince(s, t) + {tx};
  }

  lemma OneMoreBurn(s: State, s': State, t: Time, tx: TxHash, b: Burn)
    requires b in s.records && s'.records.Keys == s.records.Keys && t <= s.now
    requires s'.broadcasts == Noted(s.broadcasts, tx, s.now) && s'.records[b].submittedAt == Some(s.now)
    requires forall b' | b' in s.records && b' != b :: s'.records[b'] == s.records[b']
    ensures BroadcastSince(s', t) == BroadcastSince(s, t)
    ensures |SubmittedSince(s'.records, t)| == |SubmittedSince(s.records, t)| + if b in SubmittedSince(s.records, t) then 0 else 1
  {
    assert SubmittedSince(s'.records, t) == SubmittedSince(s.records, t) + {b};
    if b in SubmittedSince(s.records, t) {
      assert SubmittedSince(s'.records, t) == SubmittedSince(s.records, t);
    }
  }

  lemma SameCounts(s: State, s': State, t: Time)
    requires Quiet(s, s')
    ensures BroadcastSince(s', t) == BroadcastSince(s, t) && SubmittedSince(s'.records, t) == SubmittedSince(s.records, t)
  {
  }

  /**
   * What the guard before a broadcast would have to look at: the mint leaves
   * the day within the cap if and only if the store's count with the repeats
   * and the unrecorded added, and those recorded late taken off, is below it.
   * The code looks at the count alone.
   */
  lemma BroadcastWithinCap(c: Settings, s: State, e: Event)
    requires HistoryOk(s) && Reaches(s, e)
    ensures var t := StartOfUtcDay(s.now);
            |BroadcastSince(Step(c, s, e), t)| <= c.dailyCap <==>
              |SubmittedSince(s.records, t)| + Repeats(s, t) + |UnrecordedSince(s, t)| - |RecordedLate(s, t)| < c.dailyCap
  {
    hide Step;
    hide StartOfUtcDay;
    ReachEffect(c, s, e);
    StepExcess(c, s, e);
    AddsUp(s, StartOfUtcDay(s.now));
  }

  lemma TodayIsPast(now: Time)
    ensures StartOfUtcDay(now) <= now
  {
  }

  /** Midnight clears the difference. */
  lemma MidnightClearsExcess(c: Settings, s: State, to: Time)
    requires HistoryOk(s) && StartOfUtcDay(to) > s.now
    ensures Excess(Step(c, s, Tick(to))) == 0
  {
    var s' := Step(c, s, Tick(to));
    var t := StartOfUtcDay(to);
    TodayIsPast(to);
    forall tx | tx in s.broadcasts
      ensures s.broadcasts[tx].at < t && !WasRecorded(s.broadcasts[tx], t)
    {
      assert AttemptOk(s.now, s.records, s.broadcasts[tx]);
    }
    assert BroadcastSince(s', t) == {} && RecordedSince(s', t) == {};
    assert HistoryOk(s') by { QuietKeeps(s, s'); }
    StoreCountsBurns(s', t);
    assert BurnsOf(s', RecordedSince(s', t)) == {};
  }
}
