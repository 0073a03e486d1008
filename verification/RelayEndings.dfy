/**
 * Which answer leads to which ending. `Causes` says of every failure code
 * where the job waits, what it hears and what the chain shows when a transfer
 * ends with it; these lemmas prove that a step and a run agree with it both ways.
 */
module RelayEndings {
  import opened Wrappers
  import opened RelayRecords
  import opened RelayProtocol
  import opened RelayInvariant
  import opened RelaySteps
  import opened RelayTheorems

  // ------------------------------------------------------------ the causes

  /** The nonce the job of `b` is minting for is read, and is not spent. */
  predicate ReadsUnspent(s: State, b: Burn, e: Event)
    requires b in s.jobs
  {
    var p := s.jobs[b];
    e == NonceSays(b) && (p.EarlierNonce? || p.CheckingNonce? || p.SimulationFailed? || p.LastNonce?) && p.n !in s.chain.spent
  }

  /** A poll of Iris brings no signed message: it is silent, or has only seen the burn. */
  predicate StillWaits(e: Event, b: Burn) { e == IrisSays(b, NoAnswer) || e == IrisSays(b, PendingFinality) }

  /** Why the transfer of `b` ends its attempt with `code` at event `e`. */
  predicate Causes(c: Settings, s: State, b: Burn, e: Event, code: FailureCode)
    requires b in s.records
  {
    b in s.jobs
    && var p, r := s.jobs[b], s.records[b];
    match code
    // Circle or the message itself refuses the transfer.
    case Refused => p.Polling? && e == IrisSays(b, Refuses)
    // Ten minutes, or the whole window if it is shorter, without a word of the burn.
    case Unseen =>
      p.Polling? && e == IrisSays(b, NoAnswer) && r.phase == Sent
      && (s.now - p.begun >= 600_000 || s.now - p.begun >= c.confirmTimeout)
    // The burn has been seen, but the window closes without a signature.
    case ConfirmTimeout =>
      p.Polling? && StillWaits(e, b) && (r.phase != Sent || e == IrisSays(b, PendingFinality)) && s.now - p.begun >= c.confirmTimeout
    // An earlier or the new broadcast is still pending and the nonce unspent.
    case NotMined => ReadsUnspent(s, b, e) && (p.EarlierNonce? || (p.LastNonce? && !p.reverted))
    case Reverted => ReadsUnspent(s, b, e) && p.LastNonce? && p.reverted
    case DailyCap =>
      ReadsUnspent(s, b, e) && p.CheckingNonce? && |SubmittedSince(s.records, s.now - s.now % 86_400_000)| >= c.dailyCap
    // The simulation failed: because the node could not be asked, or because the contract said no.
    case Rpc => ReadsUnspent(s, b, e) && p.SimulationFailed? && p.transient
    case MintRefused => ReadsUnspent(s, b, e) && p.SimulationFailed? && !p.transient
    case OutOfGas => (p.CheckingGas? && e == GasAnswer(b, false)) || (p.Sending? && e == SendSays(b, NoFunds))
    case SendFailed => p.Sending? && e == SendSays(b, Lost)
    // An error nobody handles, in a job whose transfer has not arrived.
    case Unexpected =>
      e == Throws(b) && r.phase != Arrived
      && !(p.CheckingGas? || p.Queued? || p.Sending? || p.FindingMint? || p.CheckingBalance? || p.SearchingAgain? || p.Done?)
    case GaveUp => false
  }

  // ----------------------------------------------------------- the endings

  /** All but how the transfer stands is as it was. */
  predicate SameTransfer(r: Record, r': Record)
  {
    r'.signed == r.signed && r'.mintHash == r.mintHash && r'.mintedBy == r.mintedBy && r'.submittedAt == r.submittedAt
  }

  /**
   * One more failure of a streak: tried again later, at the next UTC midnight
   * after the daily cap and otherwise after the backoff, or given up for good
   * exactly when the streak has lasted a day.
   */
  predicate FailsWith(r: Record, r': Record, now: Time, code: FailureCode)
  {
    var since := if r.since.Some? then r.since.value else now;
    && SameTransfer(r, r') && r'.phase == Failed && r'.retryable && r'.attempts == r.attempts + 1 && r'.since == Some(since)
    && if now - since >= 86_400_000 then r'.code == Some(GaveUp) && r'.retryAt == None
       else r'.code == Some(code)
            && r'.retryAt == Some(if code == DailyCap then (now / 86_400_000 + 1) * 86_400_000 else now + RetryDelay(r.attempts + 1))
  }

  /** Stopped: by refusal for ever, unseen until someone asks again. */
  predicate StopsWith(r: Record, r': Record, code: FailureCode)
  {
    && SameTransfer(r, r') && r'.phase == Failed && r'.code == Some(code) && r'.retryAt == None
    && (r'.retryable <==> code == Unseen) && r'.attempts == r.attempts && r'.since == r.since
  }

  predicate Stopping(code: FailureCode) { code == Refused || code == MintRefused || code == Unseen }

  predicate EndsWith(r: Record, r': Record, now: Time, code: FailureCode)
  {
    if Stopping(code) then StopsWith(r, r', code) else FailsWith(r, r', now, code)
  }

  /** The attempt of `b` is over: its record has ended with `code`, its job is done and the lock is free. */
  predicate Over(s: State, s': State, b: Burn, code: FailureCode)
    requires b in s.records
  {
    && b in s'.records && EndsWith(s.records[b], s'.records[b], s.now, code)
    && b in s'.jobs && s'.jobs[b] == Done && s'.lock != Some(b)
  }

  lemma TransientFails(r: Record, now: Time, code: FailureCode)
    ensures FailsWith(r, Transient(r, now, code), now, code)
  {
    hide RetryDelay;
    NextMidnight(now);
  }

  lemma FailsOver(s: State, b: Burn, code: FailureCode)
    requires b in s.records && !Stopping(code)
    ensures Over(s, Fails(s, b, code), b, code)
  {
    hide FailsWith;
    hide Transient;
    TransientFails(s.records[b], s.now, code);
  }

  lemma StopsOver(s: State, b: Burn, code: FailureCode)
    requires b in s.records && Stopping(code)
    ensures Over(s, Stops(s, b, code), b, code)
  {
  }

  /** A code ends the attempt, or the transfer has not failed at this step. */
  ghost predicate EndsIffCaused(c: Settings, s: State, b: Burn, e: Event, s': State)
    requires b in s.records
  {
    && b in s'.records
    && (forall code :: Causes(c, s, b, e, code) ==> Over(s, s', b, code))
    && (s'.records[b].phase == Failed && s'.records[b] != s.records[b] ==> exists code :: Causes(c, s, b, e, code))
  }

  lemma CausedBy(c: Settings, s: State, b: Burn, e: Event, s': State, code: FailureCode)
    requires b in s.records && Causes(c, s, b, e, code) && Over(s, s', b, code)
    requires forall k | k != code :: !Causes(c, s, b, e, k)
    ensures EndsIffCaused(c, s, b, e, s')
  {
    hide Over;
    hide Causes;
    assert b in s'.records by { assert Over(s, s', b, code); OverKnows(s, s', b, code); }
  }

  lemma OverKnows(s: State, s': State, b: Burn, code: FailureCode)
    requires b in s.records && Over(s, s', b, code)
    ensures b in s'.records
  {
  }

  lemma NotCaused(c: Settings, s: State, b: Burn, e: Event, s': State)
    requires b in s.records && b in s'.records && forall k :: !Causes(c, s, b, e, k)
    requires s'.records[b].phase == Failed ==> s'.records[b] == s.records[b]
    ensures EndsIffCaused(c, s, b, e, s')
  {
    hide Over;
    hide Causes;
  }

  // ---------------------------------------------------------- event by event

  lemma NonceEnds(c: Settings, s: State, b: Burn)
    requires b in s.records && b in s.jobs
    ensures EndsIffCaused(c, s, b, NonceSays(b), DoNonce(c, s, b, s.jobs[b]))
  {
    hide EndsIffCaused;
    hide Over;
    hide Fails;
    hide Stops;
    var p, e := s.jobs[b], NonceSays(b);
    var s' := DoNonce(c, s, b, p);
    if ReadsUnspent(s, b, e) {
      match p
      case EarlierNonce(n) => FailsOver(s, b, NotMined); CausedBy(c, s, b, e, s', NotMined);
      case CheckingNonce(n) =>
        if CapReached(c, s) {
          FailsOver(s, b, DailyCap);
          CausedBy(c, s, b, e, s', DailyCap);
        } else {
          NotCaused(c, s, b, e, s');
        }
      case SimulationFailed(n, transient) =>
        if transient {
          FailsOver(s, b, Rpc);
          CausedBy(c, s, b, e, s', Rpc);
        } else {
          StopsOver(s, b, MintRefused);
          CausedBy(c, s, b, e, s', MintRefused);
        }
      case LastNonce(n, reverted) =>
        FailsOver(s, b, if reverted then Reverted else NotMined);
        CausedBy(c, s, b, e, s', if reverted then Reverted else NotMined);
    } else {
      NotCaused(c, s, b, e, s');
    }
  }

  lemma SendEnds(c: Settings, s: State, b: Burn, answer: SendAnswer)
    requires b in s.records && b in s.jobs && s.jobs[b].Sending?
    ensures EndsIffCaused(c, s, b, SendSays(b, answer), DoSend(s, b, s.jobs[b].n, s.jobs[b].onChain, answer))
  {
    hide EndsIffCaused;
    hide Over;
    hide Fails;
    var p, e := s.jobs[b], SendSays(b, answer);
    var s' := DoSend(s, b, p.n, p.onChain, answer);
    match answer
    case Accepted => NotCaused(c, s, b, e, s');
    case NoFunds => FailsOver(s, b, OutOfGas); CausedBy(c, s, b, e, s', OutOfGas);
    case Lost => FailsOver(s, b, SendFailed); CausedBy(c, s, b, e, s', SendFailed);
  }

  /** The window of a poll that has brought nothing, once the burn has been seen and before. */
  lemma PollEnds(c: Settings, s: State, b: Burn, answer: IrisAnswer)
    requires b in s.records && b in s.jobs && s.jobs[b].Polling? && s.jobs[b].begun <= s.now
    requires s.records[b].phase == Sent || s.records[b].phase == Confirming
    requires answer == NoAnswer || answer == PendingFinality
    ensures EndsIffCaused(c, s, b, IrisSays(b, answer), DoIris(c, s, b, s.jobs[b].begun, answer))
  {
    hide EndsIffCaused;
    hide Over;
    hide Fails;
    hide Stops;
    var r, begun, e := s.records[b], s.jobs[b].begun, IrisSays(b, answer);
    var seen := if answer == PendingFinality && r.phase == Sent then r.(phase := Confirming) else r;
    var s1 := if answer == PendingFinality then Goes(s, b, seen, Polling(begun)) else s;
    var s' := DoIris(c, s, b, begun, answer);
    assert s' == AfterPoll(c, s1, b, begun);
    if Causes(c, s, b, e, Unseen) {
      StopsOver(s, b, Unseen);
      CausedBy(c, s, b, e, s', Unseen);
    } else if Causes(c, s, b, e, ConfirmTimeout) {
      FailsOver(s1, b, ConfirmTimeout);
      SeenFirst(s, s1, s', b);
      CausedBy(c, s, b, e, s', ConfirmTimeout);
    } else {
      NotCaused(c, s, b, e, s');
    }
  }

  /** That the burn was seen at this very poll makes no difference to the ending. */
  lemma SeenFirst(s: State, s1: State, s': State, b: Burn)
    requires b in s.records && b in s1.records && s1.now == s.now && Over(s1, s', b, ConfirmTimeout)
    requires s1.records[b] == s.records[b] || s1.records[b] == s.records[b].(phase := Confirming)
    ensures Over(s, s', b, ConfirmTimeout)
  {
  }

  lemma IrisEnds(c: Settings, s: State, b: Burn, answer: IrisAnswer)
    requires b in s.records && b in s.jobs && s.jobs[b].Polling? && s.jobs[b].begun <= s.now
    requires s.records[b].phase == Sent || s.records[b].phase == Confirming
    ensures EndsIffCaused(c, s, b, IrisSays(b, answer), DoIris(c, s, b, s.jobs[b].begun, answer))
  {
    hide EndsIffCaused;
    hide Over;
    hide Stops;
    hide AfterPoll;
    var e, s' := IrisSays(b, answer), DoIris(c, s, b, s.jobs[b].begun, answer);
    match answer
    case Complete(n) => NotCaused(c, s, b, e, s');
    case Refuses => StopsOver(s, b, Refused); CausedBy(c, s, b, e, s', Refused);
    case PendingFinality => PollEnds(c, s, b, answer);
    case NoAnswer => PollEnds(c, s, b, answer);
  }

  lemma GasEnds(c: Settings, s: State, b: Burn, enough: bool)
    requires b in s.records && b in s.jobs && s.jobs[b].CheckingGas?
    ensures EndsIffCaused(c, s, b, GasAnswer(b, enough), JobStep(c, s, b, s.jobs[b], GasAnswer(b, enough)))
  {
    hide EndsIffCaused;
    hide Over;
    hide Fails;
    var e := GasAnswer(b, enough);
    var s' := JobStep(c, s, b, s.jobs[b], e);
    if enough {
      NotCaused(c, s, b, e, s');
    } else {
      FailsOver(s, b, OutOfGas);
      CausedBy(c, s, b, e, s', OutOfGas);
    }
  }

  lemma ThrowEnds(c: Settings, s: State, b: Burn)
    requires b in s.records && b in s.jobs
    ensures EndsIffCaused(c, s, b, Throws(b), JobStep(c, s, b, s.jobs[b], Throws(b)))
  {
    hide EndsIffCaused;
    hide Over;
    hide Fails;
    var e := Throws(b);
    var s' := JobStep(c, s, b, s.jobs[b], e);
    if Causes(c, s, b, e, Unexpected) {
      FailsOver(s, b, Unexpected);
      CausedBy(c, s, b, e, s', Unexpected);
    } else {
      NotCaused(c, s, b, e, s');
    }
  }

  /** The events that never fail a transfer. */
  predicate Harmless(e: Event)
  {
    e.TakeLock? || e.ReceiptSays? || e.SimulationSays? || e.MintReaches? || e.MintFound? || e.BalanceRead? || e.Finishes?
  }

  lemma HarmlessNotCaused(c: Settings, s: State, b: Burn, e: Event)
    requires b in s.records && Harmless(e)
    ensures forall code :: !Causes(c, s, b, e, code)
  {
  }

  lemma HarmlessFailsNone(c: Settings, s: State, b: Burn, e: Event)
    requires b in s.records && b in s.jobs && Harmless(e) && e.b == b
    requires s.jobs[b].SearchingAgain? ==> s.records[b].phase == Arrived
    ensures var s' := JobStep(c, s, b, s.jobs[b], e);
            b in s'.records && (s'.records[b].phase == Failed ==> s'.records[b] == s.records[b])
  {
    hide RetryDelay;
    hide Truthful;
    hide SentBy;
    hide Noted;
  }

  lemma HarmlessEnds(c: Settings, s: State, b: Burn, e: Event)
    requires b in s.records && b in s.jobs && Harmless(e) && e.b == b
    requires s.jobs[b].SearchingAgain? ==> s.records[b].phase == Arrived
    ensures EndsIffCaused(c, s, b, e, JobStep(c, s, b, s.jobs[b], e))
  {
    hide EndsIffCaused;
    hide JobStep;
    hide Causes;
    HarmlessNotCaused(c, s, b, e);
    HarmlessFailsNone(c, s, b, e);
    NotCaused(c, s, b, e, JobStep(c, s, b, s.jobs[b], e));
  }

  lemma JobEnds(c: Settings, s: State, b: Burn, e: Event)
    requires Inv(c, s) && b in s.jobs && OfJob(e) && e.b == b
    ensures b in s.records && EndsIffCaused(c, s, b, e, JobStep(c, s, b, s.jobs[b], e))
  {
    hide Inv;
    hide EndsIffCaused;
    hide DoNonce;
    hide DoSend;
    hide DoIris;
    hide DoReceipt;
    hide DoFound;
    hide DoTake;
    hide Rerun;
    hide Fails;
    JobFacts(c, s, b);
    var p := s.jobs[b];
    match e
    case GasAnswer(_, enough) => if p.CheckingGas? { GasEnds(c, s, b, enough); } else { NotCaused(c, s, b, e, s); }
    case IrisSays(_, answer) => if p.Polling? { IrisEnds(c, s, b, answer); } else { NotCaused(c, s, b, e, s); }
    case NonceSays(_) => NonceEnds(c, s, b);
    case SendSays(_, answer) => if p.Sending? { SendEnds(c, s, b, answer); } else { NotCaused(c, s, b, e, s); }
    case Throws(_) => ThrowEnds(c, s, b);
    case _ => HarmlessEnds(c, s, b, e);
  }

  /** What a request, a retry, a restart, the clock or the chain does to a record: nothing, or it opens it again. */
  lemma PlainOpens(c: Settings, s: State, e: Event, b: Burn)
    requires b in s.records && !OfJob(e)
    ensures b in Step(c, s, e).records
    ensures Step(c, s, e).records[b] == s.records[b] || Step(c, s, e).records[b].code.None?
    ensures Step(c, s, e).records[b] == s.records[b] || !Settled(Step(c, s, e).records[b])
  {
    hide RunPoint;
    hide OnlyReported;
    hide Retrying;
    hide DoMine;
    if e.Mined? {
      MineKeepsRecords(s, e.tx, e.ok);
    }
  }

  lemma MineKeepsRecords(s: State, tx: TxHash, ok: bool)
    ensures DoMine(s, tx, ok).records == s.records
  {
  }

  lemma PlainNotCaused(c: Settings, s: State, e: Event, b: Burn)
    requires b in s.records && !OfJob(e)
    ensures forall code :: !Causes(c, s, b, e, code)
  {
  }

  lemma PlainEnds(c: Settings, s: State, e: Event, b: Burn)
    requires b in s.records && !OfJob(e)
    ensures EndsIffCaused(c, s, b, e, Step(c, s, e))
  {
    hide EndsIffCaused;
    hide Step;
    hide Causes;
    PlainOpens(c, s, e, b);
    PlainNotCaused(c, s, e, b);
    NotCaused(c, s, b, e, Step(c, s, e));
  }

  /**
   * The endings, both ways: at every step, each cause leads to its ending and
   * lets go of the lock, and a record that turns failed has one of the causes.
   */
  lemma EndingsExactly(c: Settings, s: State, e: Event, b: Burn)
    requires Inv(c, s) && b in s.records
    ensures var s' := Step(c, s, e);
            && b in s'.records
            && (forall code :: Causes(c, s, b, e, code) ==> Over(s, s', b, code))
            && (s'.records[b].phase == Failed && s'.records[b] != s.records[b] ==> exists code :: Causes(c, s, b, e, code))
  {
    hide Inv;
    hide Over;
    hide JobStep;
    if !OfJob(e) {
      PlainEnds(c, s, e, b);
    } else if e.b == b && b in s.jobs {
      JobEnds(c, s, b, e);
    } else {
      if e.b in s.jobs && e.b in s.records && e.b != b {
        OthersKeep(c, s, e.b, s.jobs[e.b], e, b);
      }
      ElsewhereNotCaused(c, s, e, b);
    }
  }

  lemma ElsewhereNotCaused(c: Settings, s: State, e: Event, b: Burn)
    requires b in s.records && OfJob(e) && (e.b != b || b !in s.jobs)
    ensures forall code :: !Causes(c, s, b, e, code)
  {
  }

  // ------------------------------------------------------------ over a run

  /** What a step does to a burn the relay has not heard of: nothing, or a fresh record. */
  lemma NewRecordsAreOpen(c: Settings, s: State, e: Event, b: Burn)
    requires Inv(c, s) && b !in s.records
    ensures b in Step(c, s, e).records ==> Step(c, s, e).records[b].phase == Sent
  {
    hide Inv;
    hide RunPoint;
    hide JobStep;
    hide DoMine;
    if e.Mined? {
      MineKeepsRecords(s, e.tx, e.ok);
    }
    if OfJob(e) && e.b in s.jobs && e.b in s.records {
      JobAddsNone(c, s, e.b, s.jobs[e.b], e, b);
    }
  }

  lemma JobAddsNone(c: Settings, s: State, a: Burn, p: Point, e: Event, b: Burn)
    requires a in s.records && b !in s.records
    ensures b !in JobStep(c, s, a, p, e).records
  {
    hide Transient;
    hide Truthful;
    hide CapReached;
    hide RunPoint;
    hide LookedUp;
    hide Arrive;
    hide Noted;
    hide DoNonce;
    hide DoIris;
    hide DoReceipt;
    NonceAddsNone(c, s, a, p, b);
    if p.Polling? && e.IrisSays? {
      IrisAddsNone(c, s, a, p.begun, e.answer, b);
    }
    if (p.EarlierReceipt? || p.AwaitingReceipt?) && e.ReceiptSays? {
      ReceiptAddsNone(s, a, p, e.outcome, b);
    }
  }

  lemma NonceAddsNone(c: Settings, s: State, a: Burn, p: Point, b: Burn)
    requires a in s.records && b !in s.records
    ensures b !in DoNonce(c, s, a, p).records
  {
    hide Transient;
    hide CapReached;
  }

  lemma IrisAddsNone(c: Settings, s: State, a: Burn, begun: Time, answer: IrisAnswer, b: Burn)
    requires a in s.records && b !in s.records
    ensures b !in DoIris(c, s, a, begun, answer).records
  {
    hide Transient;
  }

  lemma ReceiptAddsNone(s: State, a: Burn, p: Point, outcome: Receipt, b: Burn)
    requires a in s.records && b !in s.records && (p.EarlierReceipt? || p.AwaitingReceipt?)
    ensures b !in DoReceipt(s, a, p, outcome).records
  {
    hide Truthful;
    hide Arrive;
  }

  /** Event `j` of the run ended the transfer of `b` with `cause`, and its record has been the same since. */
  ghost predicate EndedAt(c: Settings, start: State, events: seq<Event>, b: Burn, j: nat, cause: FailureCode)
  {
    j < |events|
    && var s, s' := Run(c, start, events[..j]), Run(c, start, events[..j + 1]);
    && b in s.records && Causes(c, s, b, events[j], cause) && Over(s, s', b, cause)
    && b in s'.records && b in Run(c, start, events).records && Run(c, start, events).records[b] == s'.records[b]
  }

  lemma RunPrefix(c: Settings, start: State, events: seq<Event>)
    requires events != []
    ensures Run(c, start, events) == Step(c, Run(c, start, events[..|events| - 1]), events[|events| - 1])
  {
  }

  lemma EndedEarlier(c: Settings, start: State, events: seq<Event>, b: Burn, j: nat, cause: FailureCode)
    requires events != [] && EndedAt(c, start, events[..|events| - 1], b, j, cause)
    requires b in Run(c, start, events).records && Run(c, start, events).records[b] == Run(c, start, events[..|events| - 1]).records[b]
    ensures EndedAt(c, start, events, b, j, cause)
  {
    hide Over;
    hide Causes;
    hide Run;
    var front := events[..|events| - 1];
    assert front[..j] == events[..j] && front[..j + 1] == events[..j + 1] && front[j] == events[j];
  }

  lemma EndedNow(c: Settings, start: State, events: seq<Event>, b: Burn, cause: FailureCode)
    requires events != []
    requires var s := Run(c, start, events[..|events| - 1]);
             b in s.records && Causes(c, s, b, events[|events| - 1], cause) && Over(s, Run(c, start, events), b, cause)
    ensures EndedAt(c, start, events, b, |events| - 1, cause)
  {
    hide Causes;
    hide Run;
    hide EndsWith;
    assert events[..|events| - 1 + 1] == events;
  }

  /**
   * In every run, a transfer that stands failed was ended by one event of the
   * run, for one of the causes, and its record is the one that ending left.
   */
  lemma {:induction false} FailuresHaveCauses(c: Settings, now: Time, spent: set<Nonce>, events: seq<Event>, b: Burn)
    returns (j: nat, cause: FailureCode)
    requires var s := Run(c, Initial(now, spent), events); b in s.records && s.records[b].phase == Failed
    ensures EndedAt(c, Initial(now, spent), events, b, j, cause)
    decreases |events|
  {
    hide Inv;
    hide Step;
    hide Causes;
    hide Over;
    hide EndedAt;
    var start := Initial(now, spent);
    var front, e := events[..|events| - 1], events[|events| - 1];
    var s := Run(c, start, front);
    InitialOk(c, now, spent);
    RunKeeps(c, start, front);
    RunPrefix(c, start, events);
    if b !in s.records {
      NewRecordsAreOpen(c, s, e, b);
      assert false;
    } else if Step(c, s, e).records[b] == s.records[b] {
      j, cause := FailuresHaveCauses(c, now, spent, front, b);
      EndedEarlier(c, start, events, b, j, cause);
    } else {
      EndingsExactly(c, s, e, b);
      cause :| Causes(c, s, b, e, cause);
      j := |front|;
      EndedNow(c, start, events, b, cause);
    }
  }
}
