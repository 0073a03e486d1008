/** What holds of the relay in every interleaving of requests, sweeps, crashes and chain events. */
module RelayTheorems {
  import opened Wrappers
  import opened RelayRecords
  import opened RelayProtocol
  import opened RelayInvariant
  import opened RelaySteps

  lemma InitialOk(c: Settings, now: Time, spent: set<Nonce>)
    ensures Inv(c, Initial(now, spent))
  {
    assert SubmittedSince(map[], StartOfUtcDay(now)) == {};
  }

  lemma {:induction false} RunKeeps(c: Settings, s: State, events: seq<Event>)
    requires Inv(c, s)
    ensures Inv(c, Run(c, s, events))
    decreases |events|
  {
    if events != [] {
      RunKeeps(c, s, events[..|events| - 1]);
      StepKeeps(c, Run(c, s, events[..|events| - 1]), events[|events| - 1]);
    }
  }

  // ------------------------------------------------------------ the promises

  /** A transfer is reported as arrived only once its nonce is spent on Base Sepolia. */
  lemma ArrivedIsMinted(c: Settings, now: Time, spent: set<Nonce>, events: seq<Event>, b: Burn)
    ensures var s := Run(c, Initial(now, spent), events);
            b in s.records && s.records[b].phase == Arrived ==>
              s.records[b].signed.Some? && s.records[b].signed.value in s.chain.spent
  {
    InitialOk(c, now, spent);
    RunKeeps(c, Initial(now, spent), events);
    var s := Run(c, Initial(now, spent), events);
    if b in s.records {
      BurnFacts(c, s, b);
    }
  }

  /**
   * No mint is sent without need: every broadcast comes right after the relay
   * took the lock for that burn and then read that very nonce as unspent.
   */
  lemma SendsAreGuarded(c: Settings, now: Time, spent: set<Nonce>, events: seq<Event>, i: nat)
    ensures var log := Run(c, Initial(now, spent), events).log;
            i < |log| && log[i].Broadcast? ==>
              i >= 2 && log[i - 2] == Took(log[i].b) && log[i - 1] == ReadUnspent(log[i].b, log[i].n)
  {
    InitialOk(c, now, spent);
    RunKeeps(c, Initial(now, spent), events);
  }

  /**
   * A job about to broadcast holds the lock alone, on a transfer still open,
   * and the broadcast recorded for its burn before, if any, has reverted.
   */
  lemma ResendsOnlyAfterRevert(c: Settings, now: Time, spent: set<Nonce>, events: seq<Event>, b: Burn)
    ensures var s := Run(c, Initial(now, spent), events);
            b in s.jobs && s.jobs[b].Sending? ==>
              && s.lock == Some(b) && b in s.records && !Settled(s.records[b]) && s.records[b].signed == Some(s.jobs[b].n)
              && (s.records[b].mintHash.Some? ==> HasReverted(s.chain, s.records[b].mintHash.value))
  {
    InitialOk(c, now, spent);
    RunKeeps(c, Initial(now, spent), events);
    var s := Run(c, Initial(now, spent), events);
    hide Inv;
    if b in s.jobs {
      JobFacts(c, s, b);
    }
  }

  /** Of the broadcasts recorded for one burn, all but the latest have reverted. */
  lemma OnlyOneCanLand(c: Settings, now: Time, spent: set<Nonce>, events: seq<Event>, b: Burn, i: nat)
    ensures var s := Run(c, Initial(now, spent), events);
            i + 1 < |SentBy(s, b)| ==> HasReverted(s.chain, SentBy(s, b)[i])
  {
    InitialOk(c, now, spent);
    RunKeeps(c, Initial(now, spent), events);
    var s := Run(c, Initial(now, spent), events);
    if b in s.records {
      BurnFacts(c, s, b);
    } else {
      UnknownBurn(c, s, b);
    }
  }

  /** The mint lock excludes: at most one job is between taking the lock and letting it go. */
  lemma OneMintAtATime(c: Settings, now: Time, spent: set<Nonce>, events: seq<Event>, a: Burn, b: Burn)
    ensures var s := Run(c, Initial(now, spent), events);
            a in s.jobs && b in s.jobs && InMint(s.jobs[a]) && InMint(s.jobs[b]) ==> a == b
  {
    InitialOk(c, now, spent);
    RunKeeps(c, Initial(now, spent), events);
    var s := Run(c, Initial(now, spent), events);
    if a in s.jobs && b in s.jobs {
      JobFacts(c, s, a);
      JobFacts(c, s, b);
    }
  }

  /** At any time, at most `dailyCap` burns have their latest broadcast in the current UTC day. */
  lemma DailyCapHolds(c: Settings, now: Time, spent: set<Nonce>, events: seq<Event>)
    ensures var s := Run(c, Initial(now, spent), events);
            |SubmittedSince(s.records, StartOfUtcDay(s.now))| <= c.dailyCap
  {
    InitialOk(c, now, spent);
    RunKeeps(c, Initial(now, spent), events);
  }

  // --------------------------------------------------- what a step may change

  /** An open transfer moves on within its streak, arrives, or fails once more. */
  predicate OpenChange(r: Record, r': Record, now: Time)
  {
    && (r.signed.Some? ==> r'.signed == r.signed)
    && (|| (r'.since == r.since && r'.attempts == r.attempts && !Retrying(r'))
        || r'.phase == Arrived
        || FailedAgain(r, r', now))
  }

  /** One more transient failure: counted, and final exactly when the streak has reached the deadline. */
  predicate FailedAgain(r: Record, r': Record, now: Time)
  {
    && r'.phase == Failed && r'.attempts == r.attempts + 1 && r'.since == Some(StreakStart(r, now))
    && (Retrying(r') <==> now - StreakStart(r, now) < RETRY_GIVE_UP)
    && (Retrying(r') ==> r'.retryAt.value > now)
    && (!Retrying(r') ==> r'.code == Some(GaveUp))
  }

  predicate Due(r: Record, now: Time) { Retrying(r) && r.retryAt.value <= now }

  predicate LegalChange(now: Time, e: Event, b: Burn, r: Record, r': Record)
  {
    || r' == r
    || (!Settled(r) && OpenChange(r, r', now))
    || (Due(r, now) && r'.signed == r.signed && (r' == Resumed(r) || FailedAgain(r, r', now)))
    || (r.phase == Arrived && r'.phase == Arrived && r'.signed == r.signed && r'.code == r.code)
    || (e == Request(b) && !OnlyReported(r) && r' == Restarted(r))
  }

  lemma TransientMeaning(r: Record, now: Time, code: FailureCode)
    requires r.since.Some? ==> r.since.value <= now
    ensures FailedAgain(r, Transient(r, now, code), now) && Transient(r, now, code).signed == r.signed
  {
    hide RetryDelay;
    DelayValues(r.attempts + 1);
    NextMidnight(now);
  }

  lemma PollChange(c: Settings, s: State, b: Burn, begun: Time, e: Event, r: Record)
    requires b in s.records && (s.records[b].phase == Sent || s.records[b].phase == Confirming)
    requires RecordOk(s.now, s.chain, s.records[b])
    requires r == s.records[b] || (r.phase == Sent && r.(phase := Confirming) == s.records[b])
    ensures b in AfterPoll(c, s, b, begun).records && LegalChange(s.now, e, b, r, AfterPoll(c, s, b, begun).records[b])
  {
    hide Transient;
    hide Paced;
    TransientMeaning(s.records[b], s.now, ConfirmTimeout);
  }

  lemma IrisChange(c: Settings, s: State, b: Burn, answer: IrisAnswer, e: Event)
    requires Inv(c, s) && b in s.jobs && s.jobs[b].Polling?
    ensures b in s.records && b in DoIris(c, s, b, s.jobs[b].begun, answer).records
    ensures LegalChange(s.now, e, b, s.records[b], DoIris(c, s, b, s.jobs[b].begun, answer).records[b])
  {
    hide Inv;
    hide AfterPoll;
    hide Paced;
    JobFacts(c, s, b);
    var r, begun := s.records[b], s.jobs[b].begun;
    if answer == PendingFinality {
      var r' := if r.phase == Sent then r.(phase := Confirming) else r;
      PollChange(c, Goes(s, b, r', Polling(begun)), b, begun, e, r);
    } else if answer == NoAnswer {
      PollChange(c, s, b, begun, e, r);
    }
  }

  lemma SendChange(s: State, b: Burn, n: Nonce, onChain: Option<TxHash>, answer: SendAnswer, e: Event)
    requires b in s.records && !Settled(s.records[b]) && RecordOk(s.now, s.chain, s.records[b]) && MayResend(s.chain, s.records[b])
    ensures b in DoSend(s, b, n, onChain, answer).records
    ensures LegalChange(s.now, e, b, s.records[b], DoSend(s, b, n, onChain, answer).records[b])
  {
    hide Transient;
    hide Paced;
    hide FailedAgain;
    TransientMeaning(s.records[b], s.now, OutOfGas);
    TransientMeaning(s.records[b], s.now, SendFailed);
  }

  lemma MintChange(c: Settings, s: State, b: Burn, e: Event)
    requires Inv(c, s) && b in s.jobs && OfJob(e) && InMint(s.jobs[b])
    ensures b in s.records && b in JobStep(c, s, b, s.jobs[b], e).records
    ensures LegalChange(s.now, e, b, s.records[b], JobStep(c, s, b, s.jobs[b], e).records[b])
  {
    hide Inv;
    hide Transient;
    hide Paced;
    hide FailedAgain;
    hide DoNonce;
    hide DoReceipt;
    hide DoSend;
    JobFacts(c, s, b);
    var r, p := s.records[b], s.jobs[b];
    if !Settled(r) {
      TransientMeaning(r, s.now, Unexpected);
      TransientMeaning(r, s.now, OutOfGas);
      TransientMeaning(r, s.now, SendFailed);
      NonceChange(c, s, b, p, e);
      if p.EarlierReceipt? || p.AwaitingReceipt? {
        ReceiptChange(s, b, p, e);
      }
      if p.Sending? && e.SendSays? {
        SendChange(s, b, p.n, p.onChain, e.response, e);
      }
    } else {
      SettledNonce(c, s, b, p);
    }
  }

  lemma ReceiptChange(s: State, b: Burn, p: Point, e: Event)
    requires b in s.records && !Settled(s.records[b]) && RecordOk(s.now, s.chain, s.records[b])
    requires p.EarlierReceipt? || p.AwaitingReceipt?
    ensures forall outcome ::
              b in DoReceipt(s, b, p, outcome).records
              && LegalChange(s.now, e, b, s.records[b], DoReceipt(s, b, p, outcome).records[b])
  {
    hide Paced;
  }

  /** Once the transfer has arrived no read of a nonce is left. */
  lemma SettledNonce(c: Settings, s: State, b: Burn, p: Point)
    requires b in s.records && Settled(s.records[b]) && PointOk(s.now, s.chain, s.records[b], p)
    ensures b in DoNonce(c, s, b, p).records && DoNonce(c, s, b, p).records[b] == s.records[b]
  {
    hide Transient;
    hide CapReached;
  }

  lemma NonceChange(c: Settings, s: State, b: Burn, p: Point, e: Event)
    requires b in s.records && !Settled(s.records[b]) && RecordOk(s.now, s.chain, s.records[b])
    ensures b in DoNonce(c, s, b, p).records && LegalChange(s.now, e, b, s.records[b], DoNonce(c, s, b, p).records[b])
  {
    hide Transient;
    hide Paced;
    hide CapReached;
    hide FailedAgain;
    forall code: FailureCode
      ensures FailedAgain(s.records[b], Transient(s.records[b], s.now, code), s.now)
      ensures Transient(s.records[b], s.now, code).signed == s.records[b].signed
    {
      TransientMeaning(s.records[b], s.now, code);
    }
  }

  lemma OtherJobChange(c: Settings, s: State, b: Burn, e: Event)
    requires Inv(c, s) && b in s.jobs && OfJob(e) && !InMint(s.jobs[b])
    ensures b in s.records && b in JobStep(c, s, b, s.jobs[b], e).records
    ensures LegalChange(s.now, e, b, s.records[b], JobStep(c, s, b, s.jobs[b], e).records[b])
  {
    hide Inv;
    hide Transient;
    hide Paced;
    JobFacts(c, s, b);
    var r, p := s.records[b], s.jobs[b];
    if e.IrisSays? && p.Polling? {
      IrisChange(c, s, b, e.answer, e);
    } else if p.CheckingGas? {
      TransientMeaning(r, s.now, OutOfGas);
    } else if e.Throws? && p.Polling? {
      TransientMeaning(r, s.now, Unexpected);
    }
  }

  /** No step removes a record, and each changes one only in the ways above. */
  lemma StepChange(c: Settings, s: State, e: Event, b: Burn)
    requires Inv(c, s) && b in s.records
    ensures b in Step(c, s, e).records && LegalChange(s.now, e, b, s.records[b], Step(c, s, e).records[b])
  {
    hide Inv;
    hide LegalChange;
    Unchanged(s.now, e, b, s.records[b]);
    if OfJob(e) {
      if e.b in s.jobs && e.b in s.records {
        if e.b != b {
          OthersKeep(c, s, e.b, s.jobs[e.b], e, b);
        } else if InMint(s.jobs[b]) {
          MintChange(c, s, b, e);
        } else {
          OtherJobChange(c, s, b, e);
        }
      }
    } else {
      PlainChange(c, s, e, b);
    }
  }

  lemma Unchanged(now: Time, e: Event, b: Burn, r: Record)
    ensures LegalChange(now, e, b, r, r)
  {
  }

  lemma IrisTouchesOne(c: Settings, s: State, a: Burn, begun: Time, answer: IrisAnswer, b: Burn)
    requires a in s.records && b in s.records && a != b
    ensures b in DoIris(c, s, a, begun, answer).records && DoIris(c, s, a, begun, answer).records[b] == s.records[b]
  {
    hide Transient;
  }

  lemma NonceTouchesOne(c: Settings, s: State, a: Burn, p: Point, b: Burn)
    requires a in s.records && b in s.records && a != b
    ensures b in DoNonce(c, s, a, p).records && DoNonce(c, s, a, p).records[b] == s.records[b]
  {
    hide Transient;
    hide CapReached;
  }

  /** A job touches only its own record. */
  lemma OthersKeep(c: Settings, s: State, a: Burn, p: Point, e: Event, b: Burn)
    requires a in s.records && b in s.records && a != b
    ensures b in JobStep(c, s, a, p, e).records && JobStep(c, s, a, p, e).records[b] == s.records[b]
  {
    hide Transient;
    hide Truthful;
    hide MayThrow;
    hide Settled;
    hide DoIris;
    hide DoNonce;
    if e.IrisSays? && p.Polling? {
      IrisTouchesOne(c, s, a, p.begun, e.answer, b);
    }
    NonceTouchesOne(c, s, a, p, b);
  }

  lemma PlainChange(c: Settings, s: State, e: Event, b: Burn)
    requires Inv(c, s) && b in s.records && !OfJob(e)
    ensures b in Step(c, s, e).records && LegalChange(s.now, e, b, s.records[b], Step(c, s, e).records[b])
  {
    hide Inv;
    hide LegalChange;
    hide DoRetry;
    Unchanged(s.now, e, b, s.records[b]);
    match e
    case Request(a) => RequestChange(c, s, a, b);
    case Retry(a) => RetryChange(c, s, a, e, b);
    case _ =>
  }

  lemma RetryChange(c: Settings, s: State, a: Burn, e: Event, b: Burn)
    requires b in s.records
    ensures b in DoRetry(c, s, a).records && LegalChange(s.now, e, b, s.records[b], DoRetry(c, s, a).records[b])
  {
    hide OpenChange;
    hide FailedAgain;
  }

  lemma RequestChange(c: Settings, s: State, a: Burn, b: Burn)
    requires b in s.records
    ensures b in DoRequest(c, s, a).records && LegalChange(s.now, Request(a), b, s.records[b], DoRequest(c, s, a).records[b])
  {
    hide DoRetry;
    hide OpenChange;
    hide FailedAgain;
    hide RunPoint;
    RetryChange(c, s, a, Request(a), b);
  }

  // ------------------------------------------------------------ whole runs

  /** What never changes again: an arrived transfer, and one of the two refusals. */
  predicate Closed(r: Record) { r.phase == Arrived || Rejected(r) }

  /** An arrival or a refusal is for good: no later step changes it. */
  lemma {:induction false} ClosedForever(c: Settings, s: State, events: seq<Event>, b: Burn)
    requires Inv(c, s) && b in s.records && Closed(s.records[b])
    ensures var s' := Run(c, s, events);
            b in s'.records && s'.records[b].phase == s.records[b].phase && s'.records[b].code == s.records[b].code
            && s'.records[b].signed == s.records[b].signed
    decreases |events|
  {
    hide Inv;
    hide Step;
    hide OpenChange;
    if events != [] {
      var t, e := Run(c, s, events[..|events| - 1]), events[|events| - 1];
      ClosedForever(c, s, events[..|events| - 1], b);
      RunKeeps(c, s, events[..|events| - 1]);
      StepChange(c, t, e, b);
      BurnFacts(c, t, b);
      assert RecordOk(t.now, t.chain, t.records[b]);
    }
  }

  /** Between two attempts nothing happens: a failure waiting for its retry is untouched until the retry is due. */
  lemma NoEarlyAttempt(c: Settings, s: State, e: Event, b: Burn)
    requires Inv(c, s) && b in s.records && Retrying(s.records[b]) && s.now < s.records[b].retryAt.value
    ensures b in Step(c, s, e).records && Step(c, s, e).records[b] == s.records[b]
  {
    hide Inv;
    hide Step;
    hide OpenChange;
    StepChange(c, s, e, b);
  }

  /** The record of `b` after the first `i` events. */
  function After(c: Settings, s: State, events: seq<Event>, b: Burn, i: nat): Option<Record>
    requires i <= |events|
  {
    var t := Run(c, s, events[..i]);
    if b in t.records then Some(t.records[b]) else None
  }

  /** The whole run stays in one streak of `b`. */
  predicate OneStreak(c: Settings, s: State, events: seq<Event>, b: Burn, since: Time)
  {
    forall i | 0 <= i <= |events| :: After(c, s, events, b, i).Some? && After(c, s, events, b, i).value.since == Some(since)
  }

  /** How many steps of the run were one more failed attempt of `b`. */
  function Failures(c: Settings, s: State, events: seq<Event>, b: Burn): nat
  {
    if events == [] then 0
    else
      var before, now := After(c, s, events, b, |events| - 1), After(c, s, events, b, |events|);
      Failures(c, s, events[..|events| - 1], b)
      + if before.Some? && now.Some? && now.value.attempts > before.value.attempts then 1 else 0
  }

  lemma RecordFacts(c: Settings, s: State, b: Burn)
    requires Inv(c, s) && b in s.records
    ensures RecordOk(s.now, s.chain, s.records[b])
  {
    BurnFacts(c, s, b);
  }

  lemma StreakStep(c: Settings, s: State, e: Event, b: Burn, since: Time)
    requires Inv(c, s) && b in s.records && s.records[b].since == Some(since)
    ensures var s' := Step(c, s, e);
            && b in s'.records
            && (s'.records[b].since == Some(since) || s'.records[b].since == None)
            && (s'.records[b].since == Some(since) ==> s.records[b].attempts <= s'.records[b].attempts <= s.records[b].attempts + 1)
  {
    hide Step;
    hide Inv;
    StepKeeps(c, s, e);
    StepChange(c, s, e, b);
    RecordFacts(c, s, b);
    RecordFacts(c, Step(c, s, e), b);
  }

  lemma StreakShrinks(c: Settings, s: State, events: seq<Event>, b: Burn, since: Time)
    requires events != [] && OneStreak(c, s, events, b, since)
    ensures OneStreak(c, s, events[..|events| - 1], b, since)
  {
    var shorter := events[..|events| - 1];
    forall i | 0 <= i <= |shorter|
      ensures After(c, s, shorter, b, i).Some? && After(c, s, shorter, b, i).value.since == Some(since)
    {
      assert shorter[..i] == events[..i];
      assert After(c, s, events, b, i).Some?;
    }
  }

  /**
   * A retry streak ends: however its failures and its waits for the daily cap
   * are mixed, and whatever crashes in between, it holds at most 102 failed attempts.
   */
  lemma {:induction false} StreakEnds(c: Settings, s: State, events: seq<Event>, b: Burn, since: Time)
    requires Inv(c, s) && OneStreak(c, s, events, b, since)
    ensures b in s.records && b in Run(c, s, events).records
    ensures s.records[b].attempts + Failures(c, s, events, b) == Run(c, s, events).records[b].attempts <= MOST_RETRIES + 1
    decreases |events|
  {
    hide Step;
    hide Paced;
    RunKeeps(c, s, events);
    assert events[..|events|] == events && After(c, s, events, b, |events|).Some?;
    BurnFacts(c, Run(c, s, events), b);
    if events == [] {
    } else {
      var shorter := events[..|events| - 1];
      assert After(c, s, events, b, |events| - 1).Some?;
      StreakShrinks(c, s, events, b, since);
      StreakEnds(c, s, shorter, b, since);
      RunKeeps(c, s, shorter);
      StreakStep(c, Run(c, s, shorter), events[|events| - 1], b, since);
    }
  }
}
