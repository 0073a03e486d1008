/**
 * The way of a job through `run` and `mint`, told stop by stop (relayer/src/cctp/service.ts): where
 * each answer takes it, when a transfer arrives, and what a request or a due retry starts.
 */
module RelayItinerary {
  import opened Wrappers
  import opened RelayRecords
  import opened RelayProtocol
  import opened RelayInvariant
  import opened RelaySteps
  import opened RelayTheorems
  import opened RelayEndings

  /** The first stop of a job: over if the transfer is, at the lock with a signed message, and else with Iris. */
  predicate StartsAt(r: Record, now: Time, p: Point)
  {
    if r.phase == Arrived || r.phase == Failed then p == Done else if r.signed.Some? then p == Queued else p == Polling(now)
  }

  /** The poll at `e` closes the window: a shorter one of ten minutes while Circle has not seen the burn. */
  predicate WindowCloses(c: Settings, r: Record, begun: Time, now: Time, seen: bool)
  {
    now - begun >= c.confirmTimeout || (r.phase == Sent && !seen && now - begun >= 600_000)
  }

  /** The job of `b`, waiting at its stop, hears `e` and goes on to `next`. */
  predicate LeadsTo(c: Settings, s: State, b: Burn, e: Event, next: Point)
    requires b in s.jobs && b in s.records
  {
    var p, r := s.jobs[b], s.records[b];
    match p
    case CheckingGas =>
      if e == GasAnswer(b, true) then StartsAt(r.(phase := if r.signed.Some? then Confirmed else Sent), s.now, next)
      else next == if e == GasAnswer(b, false) then Done else p
    case Polling(begun) =>
      next == if e.IrisSays? && e.answer.Complete? then Queued
              else if e == IrisSays(b, Refuses) || e == Throws(b) then Done
              else if e.IrisSays? && WindowCloses(c, r, begun, s.now, e.answer == PendingFinality) then Done
              else p
    case Queued =>
      next == if e != TakeLock(b) || s.lock.Some? then p
              else if r.phase == Arrived || r.phase == Failed || r.signed.None? then Done
              else if r.mintHash.Some? && r.mintedBy == Some(ByRelay) then EarlierReceipt(r.signed.value, r.mintHash.value)
              else CheckingNonce(r.signed.value)
    case EarlierReceipt(n, tx) =>
      next == if e == ReceiptSays(b, Success) && tx in s.chain.mints && s.chain.mints[tx].receipt == Success then Done
              else if e == ReceiptSays(b, Reverts) && tx in s.chain.mints && s.chain.mints[tx].receipt == Reverts then CheckingNonce(n)
              else if e == ReceiptSays(b, Pending) then EarlierNonce(n)
              else if e == Throws(b) then Done
              else p
    case EarlierNonce(n) =>
      next == if e == NonceSays(b) then (if n in s.chain.spent then CheckingNonce(n) else Done) else if e == Throws(b) then Done else p
    case CheckingNonce(n) =>
      next == if e == Throws(b) then Done
              else if e != NonceSays(b) then p
              else if n in s.chain.spent then FindingMint(n)
              else if CapReached(c, s) then Done
              else Simulating(n)
    case Simulating(n) =>
      next == if e == Throws(b) then Done
              else if !e.SimulationSays? then p
              else if e.ok then Sending(n, None)
              else SimulationFailed(n, e.transient)
    case SimulationFailed(n, _) =>
      next == if e == Throws(b) then Done else if e != NonceSays(b) then p else if n in s.chain.spent then FindingMint(n) else Done
    case Sending(n, onChain) =>
      next == if e.MintReaches? && onChain.None? && e.tx !in s.chain.mints then Sending(n, Some(e.tx))
              else if e == SendSays(b, Accepted) && onChain.Some? then AwaitingReceipt(n, onChain.value)
              else if e == SendSays(b, NoFunds) || e == SendSays(b, Lost) then Done
              else p
    case AwaitingReceipt(n, tx) =>
      next == if e == ReceiptSays(b, Success) && tx in s.chain.mints && s.chain.mints[tx].receipt == Success then CheckingBalance
              else if e == ReceiptSays(b, Reverts) && tx in s.chain.mints && s.chain.mints[tx].receipt == Reverts then LastNonce(n, true)
              else if e == ReceiptSays(b, Pending) then LastNonce(n, false)
              else if e == Throws(b) then Done
              else p
    case LastNonce(n, _) =>
      next == if e == Throws(b) then Done else if e != NonceSays(b) then p else if n in s.chain.spent then FindingMint(n) else Done
    case FindingMint(_) => next == if e.MintFound? then Done else p
    case SearchingAgain => next == if e.MintFound? then Done else p
    case CheckingBalance => next == if e == BalanceRead(b) then Done else p
    case Done => next == Done
  }

  /** Where the job of `b` waits after the step, if it still exists. */
  ghost predicate Follows(c: Settings, s: State, b: Burn, e: Event, s': State)
    requires b in s.jobs && b in s.records
  {
    if e == Finishes(b) && s.jobs[b] == Done then s'.jobs == s.jobs - {b}
    else b in s'.jobs && s'.jobs == s.jobs[b := s'.jobs[b]] && LeadsTo(c, s, b, e, s'.jobs[b])
  }

  lemma StaysPut(c: Settings, s: State, b: Burn, e: Event)
    requires b in s.jobs && b in s.records && LeadsTo(c, s, b, e, s.jobs[b]) && !(e == Finishes(b) && s.jobs[b] == Done)
    ensures Follows(c, s, b, e, s)
  {
    hide LeadsTo;
    assert s.jobs == s.jobs[b := s.jobs[b]];
  }

  lemma MovesOn(c: Settings, s: State, b: Burn, e: Event, next: Point, s': State)
    requires b in s.jobs && b in s.records && LeadsTo(c, s, b, e, next) && !e.Finishes? && s'.jobs == s.jobs[b := next]
    ensures Follows(c, s, b, e, s')
  {
    hide LeadsTo;
  }

  lemma NonceFollows(c: Settings, s: State, b: Burn)
    requires b in s.jobs && b in s.records
    ensures Follows(c, s, b, NonceSays(b), DoNonce(c, s, b, s.jobs[b]))
  {
    hide Follows;
    hide Transient;
    hide CapReached;
    var p, e, s' := s.jobs[b], NonceSays(b), DoNonce(c, s, b, s.jobs[b]);
    if p.EarlierNonce? || p.CheckingNonce? || p.SimulationFailed? || p.LastNonce? {
      MovesOn(c, s, b, e, s'.jobs[b], s');
    } else {
      StaysPut(c, s, b, e);
    }
  }

  lemma IrisFollows(c: Settings, s: State, b: Burn, answer: IrisAnswer)
    requires b in s.jobs && b in s.records && s.jobs[b].Polling? && s.jobs[b].begun <= s.now
    requires s.records[b].phase == Sent || s.records[b].phase == Confirming
    ensures Follows(c, s, b, IrisSays(b, answer), DoIris(c, s, b, s.jobs[b].begun, answer))
  {
    hide Follows;
    hide Transient;
    var e, s' := IrisSays(b, answer), DoIris(c, s, b, s.jobs[b].begun, answer);
    assert s'.jobs == s.jobs[b := s'.jobs[b]];
    MovesOn(c, s, b, e, s'.jobs[b], s');
  }

  lemma ReceiptFollows(c: Settings, s: State, b: Burn, outcome: Receipt)
    requires b in s.jobs && b in s.records && (s.jobs[b].EarlierReceipt? || s.jobs[b].AwaitingReceipt?)
    ensures Follows(c, s, b, ReceiptSays(b, outcome), DoReceipt(s, b, s.jobs[b], outcome))
  {
    hide Follows;
    hide Arrive;
    var p, e, s' := s.jobs[b], ReceiptSays(b, outcome), DoReceipt(s, b, s.jobs[b], outcome);
    if Truthful(s, p.tx, outcome) {
      MovesOn(c, s, b, e, s'.jobs[b], s');
    } else {
      StaysPut(c, s, b, e);
    }
  }

  lemma SendFollows(c: Settings, s: State, b: Burn, answer: SendAnswer)
    requires b in s.jobs && b in s.records && s.jobs[b].Sending?
    ensures Follows(c, s, b, SendSays(b, answer), DoSend(s, b, s.jobs[b].n, s.jobs[b].onChain, answer))
  {
    hide Follows;
    hide Transient;
    hide Noted;
    var p, e := s.jobs[b], SendSays(b, answer);
    var s' := DoSend(s, b, p.n, p.onChain, answer);
    if answer == Accepted && p.onChain.None? {
      StaysPut(c, s, b, e);
    } else {
      MovesOn(c, s, b, e, s'.jobs[b], s');
    }
  }

  lemma RerunFollows(c: Settings, s: State, b: Burn)
    requires b in s.jobs && b in s.records && s.jobs[b].CheckingGas?
    ensures Follows(c, s, b, GasAnswer(b, true), Rerun(s, b))
  {
    hide Follows;
    var s' := Rerun(s, b);
    MovesOn(c, s, b, GasAnswer(b, true), s'.jobs[b], s');
  }

  lemma TakeFollows(c: Settings, s: State, b: Burn)
    requires b in s.jobs && b in s.records && s.jobs[b].Queued? && s.lock.None?
    ensures Follows(c, s, b, TakeLock(b), DoTake(s, b))
  {
    hide Follows;
    var s' := DoTake(s, b);
    MovesOn(c, s, b, TakeLock(b), s'.jobs[b], s');
  }

  lemma ThrowFollows(c: Settings, s: State, b: Burn)
    requires b in s.jobs && b in s.records
    ensures Follows(c, s, b, Throws(b), JobStep(c, s, b, s.jobs[b], Throws(b)))
  {
    hide Follows;
    hide Transient;
    var p, e := s.jobs[b], Throws(b);
    var s' := JobStep(c, s, b, p, e);
    if MayThrow(p) {
      MovesOn(c, s, b, e, Done, s');
    } else {
      StaysPut(c, s, b, e);
    }
  }

  lemma ReachFollows(c: Settings, s: State, b: Burn, tx: TxHash)
    requires b in s.jobs && b in s.records && s.jobs[b].Sending? && s.jobs[b].onChain.None?
    ensures Follows(c, s, b, MintReaches(b, tx), DoReach(s, b, s.jobs[b].n, tx))
  {
    hide Follows;
    var e, n := MintReaches(b, tx), s.jobs[b].n;
    if tx in s.chain.mints {
      StaysPut(c, s, b, e);
    } else {
      MovesOn(c, s, b, e, Sending(n, Some(tx)), DoReach(s, b, n, tx));
    }
  }

  lemma FoundFollows(c: Settings, s: State, b: Burn, found: Option<(TxHash, Minter)>)
    requires b in s.jobs && b in s.records && (s.jobs[b].FindingMint? || s.jobs[b].SearchingAgain?)
    ensures Follows(c, s, b, MintFound(b, found), DoFound(s, b, s.jobs[b], found))
  {
    hide Follows;
    hide LookedUp;
    hide Arrive;
    MovesOn(c, s, b, MintFound(b, found), Done, DoFound(s, b, s.jobs[b], found));
  }

  lemma PassFollows(c: Settings, s: State, b: Burn, e: Event)
    requires b in s.jobs && b in s.records && OfJob(e) && e.b == b
    requires (s.jobs[b].CheckingGas? && e == GasAnswer(b, false)) || (s.jobs[b].Simulating? && e.SimulationSays?)
             || (s.jobs[b].CheckingBalance? && e.BalanceRead?)
    ensures Follows(c, s, b, e, JobStep(c, s, b, s.jobs[b], e))
  {
    hide Follows;
    hide Transient;
    var s' := JobStep(c, s, b, s.jobs[b], e);
    MovesOn(c, s, b, e, s'.jobs[b], s');
  }

  /** A step of a job takes it exactly where the stops say, and moves no other job. */
  lemma JobFollows(c: Settings, s: State, b: Burn, e: Event)
    requires Inv(c, s) && b in s.jobs && OfJob(e) && e.b == b
    ensures b in s.records && Follows(c, s, b, e, JobStep(c, s, b, s.jobs[b], e))
  {
    hide Inv;
    hide Follows;
    hide DoNonce;
    hide DoSend;
    hide DoIris;
    hide DoReceipt;
    hide DoFound;
    hide DoTake;
    hide DoReach;
    hide DoSimulation;
    hide Rerun;
    hide Fails;
    hide MayThrow;
    hide LeadsTo;
    JobFacts(c, s, b);
    var p := s.jobs[b];
    if p.CheckingGas? && e == GasAnswer(b, true) {
      RerunFollows(c, s, b);
    } else if (p.CheckingGas? && e.GasAnswer?) || (p.Simulating? && e.SimulationSays?) || (p.CheckingBalance? && e.BalanceRead?) {
      PassFollows(c, s, b, e);
    } else if p.Polling? && e.IrisSays? {
      IrisFollows(c, s, b, e.answer);
    } else if p.Queued? && s.lock.None? && e.TakeLock? {
      TakeFollows(c, s, b);
    } else if (p.EarlierReceipt? || p.AwaitingReceipt?) && e.ReceiptSays? {
      ReceiptFollows(c, s, b, e.outcome);
    } else if p.Sending? && e.SendSays? {
      SendFollows(c, s, b, e.response);
    } else if p.Sending? && p.onChain.None? && e.MintReaches? {
      ReachFollows(c, s, b, e.tx);
    } else if (p.FindingMint? || p.SearchingAgain?) && e.MintFound? {
      FoundFollows(c, s, b, e.found);
    } else if e.NonceSays? {
      NonceFollows(c, s, b);
    } else if e.Throws? {
      ThrowFollows(c, s, b);
    } else if p == Done && e.Finishes? {
      FinishFollows(c, s, b);
    } else {
      Deaf(c, s, b, e);
    }
  }

  /** What a job at its stop does not listen for changes nothing. */
  lemma Deaf(c: Settings, s: State, b: Burn, e: Event)
    requires b in s.jobs && b in s.records && OfJob(e) && !Hears(s.jobs[b], e) && e.b == b && !e.NonceSays? && !e.Throws?
    requires e.TakeLock? && s.jobs[b].Queued? ==> s.lock.Some?
    ensures Follows(c, s, b, e, s)
  {
    hide Follows;
    StaysPut(c, s, b, e);
  }

  predicate Hears(p: Point, e: Event)
  {
    || (p.CheckingGas? && e.GasAnswer?) || (p.Simulating? && e.SimulationSays?) || (p.CheckingBalance? && e.BalanceRead?)
    || (p.Polling? && e.IrisSays?) || ((p.EarlierReceipt? || p.AwaitingReceipt?) && e.ReceiptSays?)
    || (p.Sending? && e.SendSays?) || (p.Sending? && p.onChain.None? && e.MintReaches?)
    || ((p.FindingMint? || p.SearchingAgain?) && e.MintFound?) || (p == Done && e.Finishes?)
  }

  lemma FinishFollows(c: Settings, s: State, b: Burn)
    requires b in s.jobs && b in s.records && s.jobs[b] == Done
    ensures Follows(c, s, b, Finishes(b), JobStep(c, s, b, Done, Finishes(b)))
  {
  }

  // ------------------------------------------------------------ arrivals

  /** The transfer of `b` arrives at `e`: its mint's receipt says so, or its spent nonce's mint has been looked for. */
  predicate ArrivesBy(s: State, b: Burn, e: Event, tx: Option<TxHash>, who: Minter)
  {
    b in s.jobs
    && var p := s.jobs[b];
    || (&& (p.EarlierReceipt? || p.AwaitingReceipt?) && e == ReceiptSays(b, Success)
        && p.tx in s.chain.mints && s.chain.mints[p.tx].receipt == Success && tx == Some(p.tx) && who == ByRelay)
    || (p.FindingMint? && e == MintFound(b, None) && tx == None && who == ByOther)
    || (p.FindingMint? && tx.Some? && e == MintFound(b, Some((tx.value, who))))
  }

  /** Arrived, with the mint that did it; without its hash, a search for it half a minute later. */
  predicate ArrivedWith(r: Record, r': Record, now: Time, tx: Option<TxHash>, who: Minter)
  {
    && r'.phase == Arrived && r'.mintHash == tx && r'.mintedBy == Some(who)
    && r'.retryAt == (if tx.Some? then None else Some(now + 30_000))
    && r'.code == None && !r'.retryable && r'.attempts == 0 && r'.since == None
    && r'.signed == r.signed && r'.submittedAt == r.submittedAt
  }

  lemma ReceiptArrives(s: State, b: Burn, outcome: Receipt)
    requires b in s.jobs && b in s.records && (s.jobs[b].EarlierReceipt? || s.jobs[b].AwaitingReceipt?)
    ensures b in DoReceipt(s, b, s.jobs[b], outcome).records
    ensures var r, r' := s.records[b], DoReceipt(s, b, s.jobs[b], outcome).records[b];
            var e := ReceiptSays(b, outcome);
            if ArrivesBy(s, b, e, Some(s.jobs[b].tx), ByRelay) then ArrivedWith(r, r', s.now, Some(s.jobs[b].tx), ByRelay)
            else r' == r && forall tx, who :: !ArrivesBy(s, b, e, tx, who)
  {
  }

  lemma FoundArrives(s: State, b: Burn, found: Option<(TxHash, Minter)>)
    requires b in s.jobs && b in s.records && s.jobs[b].FindingMint?
    ensures b in DoFound(s, b, s.jobs[b], found).records
    ensures var r, r' := s.records[b], DoFound(s, b, s.jobs[b], found).records[b];
            match found
            case Some((tx, who)) => ArrivesBy(s, b, MintFound(b, found), Some(tx), who) && ArrivedWith(r, r', s.now, Some(tx), who)
            case None => ArrivesBy(s, b, MintFound(b, found), None, ByOther) && ArrivedWith(r, r', s.now, None, ByOther)
  {
  }

  /**
   * Arrivals, both ways: each of the answers above makes the record arrived,
   * with that mint and nothing else changed, and a record turns arrived by no
   * other step.
   */
  lemma ArrivalsExactly(c: Settings, s: State, e: Event, b: Burn)
    requires Inv(c, s) && b in s.records
    ensures var s' := Step(c, s, e);
            && b in s'.records
            && (forall tx, who :: ArrivesBy(s, b, e, tx, who) ==> ArrivedWith(s.records[b], s'.records[b], s.now, tx, who))
            && (s'.records[b].phase == Arrived && s.records[b].phase != Arrived ==> exists tx, who :: ArrivesBy(s, b, e, tx, who))
  {
    hide Inv;
    hide ArrivedWith;
    hide JobStep;
    if !OfJob(e) {
      PlainDoesNotArrive(c, s, e, b);
    } else if e.b == b && b in s.jobs {
      JobFacts(c, s, b);
      JobArrives(c, s, b, e);
    } else {
      if e.b in s.jobs && e.b in s.records && e.b != b {
        OthersKeep(c, s, e.b, s.jobs[e.b], e, b);
      }
    }
  }

  lemma PlainDoesNotArrive(c: Settings, s: State, e: Event, b: Burn)
    requires b in s.records && !OfJob(e)
    ensures b in Step(c, s, e).records && (Step(c, s, e).records[b].phase == Arrived ==> Step(c, s, e).records[b] == s.records[b])
    ensures forall tx, who :: !ArrivesBy(s, b, e, tx, who)
  {
    hide Step;
    PlainOpens(c, s, e, b);
  }

  lemma JobArrives(c: Settings, s: State, b: Burn, e: Event)
    requires b in s.records && b in s.jobs && OfJob(e) && e.b == b && PointOk(s.now, s.chain, s.records[b], s.jobs[b])
    ensures var s' := JobStep(c, s, b, s.jobs[b], e);
            && b in s'.records
            && (forall tx, who :: ArrivesBy(s, b, e, tx, who) ==> ArrivedWith(s.records[b], s'.records[b], s.now, tx, who))
            && (s'.records[b].phase == Arrived && s.records[b].phase != Arrived ==> exists tx, who :: ArrivesBy(s, b, e, tx, who))
  {
    hide ArrivedWith;
    hide DoReceipt;
    hide DoFound;
    hide Transient;
    var p := s.jobs[b];
    if (p.EarlierReceipt? || p.AwaitingReceipt?) && e.ReceiptSays? {
      ReceiptArrives(s, b, e.outcome);
    } else if p.FindingMint? && e.MintFound? {
      FoundArrives(s, b, e.found);
    } else {
      DoesNotArrive(c, s, b, e);
    }
  }

  lemma NonceDoesNotArrive(c: Settings, s: State, b: Burn, p: Point)
    requires b in s.records
    ensures b in DoNonce(c, s, b, p).records
    ensures DoNonce(c, s, b, p).records[b].phase == Failed || DoNonce(c, s, b, p).records[b] == s.records[b]
  {
    hide CapReached;
    hide RetryDelay;
  }

  lemma IrisDoesNotArrive(c: Settings, s: State, b: Burn, begun: Time, answer: IrisAnswer)
    requires b in s.records
    ensures b in DoIris(c, s, b, begun, answer).records
    ensures DoIris(c, s, b, begun, answer).records[b].phase == Arrived ==> s.records[b].phase == Arrived
  {
    hide RetryDelay;
  }

  lemma SendDoesNotArrive(s: State, b: Burn, n: Nonce, onChain: Option<TxHash>, answer: SendAnswer)
    requires b in s.records
    ensures b in DoSend(s, b, n, onChain, answer).records
    ensures DoSend(s, b, n, onChain, answer).records[b].phase == Arrived ==> s.records[b].phase == Arrived
  {
    hide RetryDelay;
    hide Noted;
  }

  lemma NotHeard(s: State, b: Burn, e: Event)
    requires b in s.jobs && OfJob(e) && e.b == b
    requires !((s.jobs[b].EarlierReceipt? || s.jobs[b].AwaitingReceipt?) && e.ReceiptSays?) && !(s.jobs[b].FindingMint? && e.MintFound?)
    ensures forall tx, who :: !ArrivesBy(s, b, e, tx, who)
  {
  }

  lemma DoesNotArrive(c: Settings, s: State, b: Burn, e: Event)
    requires b in s.records && b in s.jobs && OfJob(e) && e.b == b && PointOk(s.now, s.chain, s.records[b], s.jobs[b])
    requires !((s.jobs[b].EarlierReceipt? || s.jobs[b].AwaitingReceipt?) && e.ReceiptSays?) && !(s.jobs[b].FindingMint? && e.MintFound?)
    ensures var s' := JobStep(c, s, b, s.jobs[b], e);
            b in s'.records && (s'.records[b].phase == Arrived ==> s.records[b].phase == Arrived)
    ensures forall tx, who :: !ArrivesBy(s, b, e, tx, who)
  {
    hide RetryDelay;
    hide Minting;
    hide DoNonce;
    hide DoIris;
    hide DoSend;
    hide DoReceipt;
    hide ArrivesBy;
    NotHeard(s, b, e);
    var p := s.jobs[b];
    NonceDoesNotArrive(c, s, b, p);
    if p.Polling? && e.IrisSays? {
      IrisDoesNotArrive(c, s, b, p.begun, e.answer);
    } else if p.Sending? && e.SendSays? {
      SendDoesNotArrive(s, b, p.n, p.onChain, e.response);
    }
  }

  // ------------------------------------------- the other changes of a record

  /** Open again: at the stage its signed message puts it, with no failure and no retry scheduled. */
  function Reopened(r: Record): Record
  {
    r.(phase := if r.signed.Some? then Confirmed else Sent, code := None, retryable := false, retryAt := None)
  }

  /** After another search for the mint: found, or to be searched for again, seven times at most. */
  function Searched(r: Record, now: Time, found: Option<(TxHash, Minter)>): Record
  {
    if found.Some? then r.(mintHash := Some(found.value.0), mintedBy := Some(found.value.1), retryAt := None, attempts := 0)
    else r.(attempts := r.attempts + 1,
            retryAt := if r.signed.Some? && r.attempts + 1 < 8 then Some(now + RetryDelay(r.attempts + 2)) else None)
  }

  /** The transfer of `b` goes on at `e`, and its record becomes `r'`. */
  predicate Advances(c: Settings, s: State, b: Burn, e: Event, r': Record)
    requires b in s.jobs && b in s.records
  {
    var p, r := s.jobs[b], s.records[b];
    // Circle has signed the burn, or has seen it.
    || (p.Polling? && e.IrisSays? && e.answer.Complete? && r' == r.(phase := Confirmed, signed := Some(e.answer.n)))
    || (&& p.Polling? && e == IrisSays(b, PendingFinality) && r.phase == Sent && !WindowCloses(c, r, p.begun, s.now, true)
        && r' == r.(phase := Confirming))
    // The relay's own mint has been sent.
    || (&& p.Sending? && p.onChain.Some? && e == SendSays(b, Accepted)
        && r' == r.(phase := Submitted, mintHash := p.onChain, mintedBy := Some(ByRelay), submittedAt := Some(s.now)))
    // The account can pay again; the mint of an arrived transfer has been searched for.
    || (p.CheckingGas? && e == GasAnswer(b, true) && r' == Reopened(r))
    || (p.SearchingAgain? && e.MintFound? && r' == Searched(r, s.now, e.found))
  }

  /** Besides its endings and its arrival, a job's step advances the record as above, or leaves it as it is. */
  lemma AdvancesExactly(c: Settings, s: State, e: Event, b: Burn)
    requires Inv(c, s) && b in s.jobs && OfJob(e) && e.b == b
    ensures b in s.records && b in Step(c, s, e).records
    ensures var r, r' := s.records[b], Step(c, s, e).records[b];
            && (forall x :: Advances(c, s, b, e, x) ==> r' == x)
            && (r' != r ==> r'.phase == Failed || (r'.phase == Arrived && r.phase != Arrived) || Advances(c, s, b, e, r'))
  {
    hide Inv;
    hide JobStep;
    JobFacts(c, s, b);
    JobAdvances(c, s, e, b);
  }

  lemma IrisAdvances(c: Settings, s: State, b: Burn, answer: IrisAnswer)
    requires b in s.records && b in s.jobs && s.jobs[b].Polling? && s.jobs[b].begun <= s.now
    requires s.records[b].phase == Sent || s.records[b].phase == Confirming
    ensures b in DoIris(c, s, b, s.jobs[b].begun, answer).records
    ensures var r, r', e := s.records[b], DoIris(c, s, b, s.jobs[b].begun, answer).records[b], IrisSays(b, answer);
            (forall x :: Advances(c, s, b, e, x) ==> r' == x) && (r' != r ==> r'.phase == Failed || Advances(c, s, b, e, r'))
  {
    hide RetryDelay;
  }

  lemma NotAdvanced(c: Settings, s: State, b: Burn, e: Event)
    requires b in s.jobs && b in s.records && OfJob(e) && e.b == b
    requires !(s.jobs[b].Polling? && e.IrisSays?) && !(s.jobs[b].Sending? && e.SendSays?)
    requires !(s.jobs[b].CheckingGas? && e.GasAnswer?) && !(s.jobs[b].SearchingAgain? && e.MintFound?)
    ensures forall x :: !Advances(c, s, b, e, x)
  {
  }

  lemma SendAdvances(c: Settings, s: State, b: Burn, answer: SendAnswer)
    requires b in s.jobs && b in s.records && s.jobs[b].Sending?
    ensures b in DoSend(s, b, s.jobs[b].n, s.jobs[b].onChain, answer).records
    ensures var r, r', e := s.records[b], DoSend(s, b, s.jobs[b].n, s.jobs[b].onChain, answer).records[b], SendSays(b, answer);
            (forall x :: Advances(c, s, b, e, x) ==> r' == x) && (r' != r ==> r'.phase == Failed || Advances(c, s, b, e, r'))
  {
    hide RetryDelay;
    hide Noted;
  }

  /** The rest of a job's answers change no record, or fail the transfer, or make it arrive. */
  lemma OthersAdvanceNone(c: Settings, s: State, b: Burn, e: Event)
    requires b in s.records && b in s.jobs && OfJob(e) && e.b == b && PointOk(s.now, s.chain, s.records[b], s.jobs[b])
    requires !(s.jobs[b].Polling? && e.IrisSays?) && !(s.jobs[b].Sending? && e.SendSays?)
    requires !(s.jobs[b].CheckingGas? && e.GasAnswer?) && !(s.jobs[b].SearchingAgain? && e.MintFound?)
    ensures b in JobStep(c, s, b, s.jobs[b], e).records
    ensures var r, r' := s.records[b], JobStep(c, s, b, s.jobs[b], e).records[b];
            r' == r || r'.phase == Failed || (r'.phase == Arrived && r.phase != Arrived)
  {
    hide DoNonce;
    hide DoReceipt;
    hide Transient;
    var p := s.jobs[b];
    NonceDoesNotArrive(c, s, b, p);
    TransientIsFailed(s.records[b], s.now);
    if (p.EarlierReceipt? || p.AwaitingReceipt?) && e.ReceiptSays? {
      ReceiptAdvances(s, b, e.outcome);
    }
  }

  lemma JobAdvances(c: Settings, s: State, e: Event, b: Burn)
    requires b in s.records && b in s.jobs && OfJob(e) && e.b == b && PointOk(s.now, s.chain, s.records[b], s.jobs[b])
    ensures b in JobStep(c, s, b, s.jobs[b], e).records
    ensures var r, r' := s.records[b], JobStep(c, s, b, s.jobs[b], e).records[b];
            && (forall x :: Advances(c, s, b, e, x) ==> r' == x)
            && (r' != r ==> r'.phase == Failed || (r'.phase == Arrived && r.phase != Arrived) || Advances(c, s, b, e, r'))
  {
    hide RetryDelay;
    hide DoNonce;
    hide DoIris;
    hide DoSend;
    hide DoReceipt;
    hide Transient;
    hide WindowCloses;
    var p := s.jobs[b];
    if p.Polling? && e.IrisSays? {
      IrisAdvances(c, s, b, e.answer);
    } else if p.Sending? && e.SendSays? {
      SendAdvances(c, s, b, e.response);
    } else if p.CheckingGas? && e.GasAnswer? {
      TransientIsFailed(s.records[b], s.now);
    } else if p.SearchingAgain? && e.MintFound? {
    } else {
      NotAdvanced(c, s, b, e);
      OthersAdvanceNone(c, s, b, e);
    }
  }

  lemma ReceiptAdvances(s: State, b: Burn, outcome: Receipt)
    requires b in s.records && b in s.jobs && (s.jobs[b].EarlierReceipt? || s.jobs[b].AwaitingReceipt?)
    ensures b in DoReceipt(s, b, s.jobs[b], outcome).records
    ensures var r, r' := s.records[b], DoReceipt(s, b, s.jobs[b], outcome).records[b]; r' == r || r'.phase == Arrived
  {
  }

  lemma TransientIsFailed(r: Record, now: Time)
    ensures forall code :: Transient(r, now, code).phase == Failed
  {
    hide RetryDelay;
  }

  // ------------------------------------------------- requests and retries

  /** A retry of `b` is due and there is room for it. */
  predicate MayRetry(c: Settings, s: State, b: Burn)
  {
    && b in s.records && b !in s.jobs && |s.jobs| < c.maxOpen
    && s.records[b].retryAt.Some? && s.records[b].retryAt.value <= s.now
    && (s.records[b].phase == Arrived || s.records[b].phase == Failed)
  }

  /**
   * What a retry does: nothing unless one is due; for an arrived transfer
   * another search for its mint; after running out of gas a look at the
   * balance; and otherwise the transfer opens again and its job starts.
   */
  predicate Retried(c: Settings, s: State, b: Burn, s': State)
  {
    if !MayRetry(c, s, b) then s' == s
    else
      var r := s.records[b];
      if r.phase == Arrived then s' == s.(jobs := s.jobs[b := SearchingAgain])
      else if r.code == Some(OutOfGas) then s' == s.(jobs := s.jobs[b := CheckingGas])
      else
        && b in s'.jobs && StartsAt(Reopened(r), s.now, s'.jobs[b])
        && s' == s.(records := s.records[b := Reopened(r)], jobs := s.jobs[b := s'.jobs[b]])
  }

  lemma RetryMeaning(c: Settings, s: State, b: Burn)
    requires Inv(c, s)
    ensures Retried(c, s, b, Step(c, s, Retry(b)))
  {
    hide Inv;
    hide Rerun;
    hide StartsAt;
    hide Reopened;
    if MayRetry(c, s, b) {
      BurnFacts(c, s, b);
      LockHolderWorks(c, s, b);
      Reopens(s, b);
    }
  }

  lemma Reopens(s: State, b: Burn)
    requires b in s.records && s.lock != Some(b)
    ensures var s' := Rerun(s, b);
            && b in s'.jobs && StartsAt(Reopened(s.records[b]), s.now, s'.jobs[b])
            && s' == s.(records := s.records[b := Reopened(s.records[b])], jobs := s.jobs[b := s'.jobs[b]])
  {
  }

  lemma LockHolderWorks(c: Settings, s: State, b: Burn)
    requires Inv(c, s) && b !in s.jobs
    ensures s.lock != Some(b)
  {
  }

  /**
   * What a request does, by where the transfer stands: a new burn starts if
   * there is room; one in flight has its job; one that waits for a retry, or
   * has arrived, is retried if that is due; one that was refused stays refused;
   * and one the relay stopped on by itself starts over, its streak forgotten.
   */
  lemma RequestMeaning(c: Settings, s: State, b: Burn)
    requires Inv(c, s)
    ensures var s' := Step(c, s, Request(b)); var room := |s.jobs| < c.maxOpen;
            && (b !in s.records && !room ==> s' == s)
            && (b !in s.records && room ==>
                  s' == s.(records := s.records[b := Record(Sent, None, None, None, None, false, None, 0, None, None)],
                           jobs := s.jobs[b := Polling(s.now)]))
            && (b in s.records ==>
                  var r := s.records[b];
                  if r.phase == Arrived || (r.phase == Failed && (r.retryAt.Some? || !r.retryable)) then Retried(c, s, b, s')
                  else if r.phase == Failed && !room then s' == s
                  else
                    var r' := if r.phase == Failed then Reopened(r).(attempts := 0, since := None) else r;
                    && b in s'.jobs && (if b in s.jobs then s'.jobs[b] == s.jobs[b] else StartsAt(r', s.now, s'.jobs[b]))
                    && s' == s.(records := s.records[b := r'], jobs := s.jobs[b := s'.jobs[b]]))
  {
    hide Inv;
    hide DoRetry;
    hide Retried;
    RetryMeaning(c, s, b);
    if b in s.records {
      BurnFacts(c, s, b);
      assert s.records[b := s.records[b]] == s.records;
      assert b in s.jobs ==> s.jobs[b := s.jobs[b]] == s.jobs;
    } else {
      UnknownBurn(c, s, b);
    }
  }

  /** What a restart does: every transfer in flight without a job gets one at its first stop, and nothing else changes. */
  lemma ResumeMeaning(c: Settings, s: State, b: Burn)
    ensures var s' := Step(c, s, Resume);
            && s' == s.(jobs := s'.jobs)
            && (b in s'.jobs <==> b in s.jobs || (b in s.records && s.records[b].phase != Arrived && s.records[b].phase != Failed))
            && (b in s'.jobs ==> if b in s.jobs then s'.jobs[b] == s.jobs[b] else StartsAt(s.records[b], s.now, s'.jobs[b]))
  {
    ResumedJob(s, b);
  }

  // --------------------------------------------- why a mint stands refused

  /** The jobs stay, or get one more at a start of its own. */
  predicate OnlyStarts(s: State, s': State)
  {
    forall b | b in s'.jobs :: (b in s.jobs && s'.jobs[b] == s.jobs[b]) || !s'.jobs[b].SimulationFailed?
  }

  lemma StartOnlyStarts(s: State, s': State, b: Burn)
    requires b in s.records && s.jobs == s'.jobs
    ensures OnlyStarts(s', Start(s, b))
  {
  }

  lemma RetryOnlyStarts(c: Settings, s: State, b: Burn)
    ensures OnlyStarts(s, DoRetry(c, s, b))
  {
  }

  lemma RequestOnlyStarts(c: Settings, s: State, b: Burn)
    ensures OnlyStarts(s, DoRequest(c, s, b))
  {
    hide OnlyStarts;
    hide Start;
    hide DoRetry;
    RetryOnlyStarts(c, s, b);
    var r := if b in s.records then Restarted(s.records[b]) else NewRecord();
    StartOnlyStarts(s.(records := s.records[b := r]), s, b);
    if b in s.records {
      StartOnlyStarts(s, s, b);
    }
    Same(s);
  }

  lemma Same(s: State)
    ensures OnlyStarts(s, s)
  {
  }

  lemma ResumeOnlyStarts(s: State)
    ensures OnlyStarts(s, DoResume(s))
  {
  }

  lemma PlainStarts(c: Settings, s: State, e: Event, b: Burn)
    requires !OfJob(e)
    ensures b in Step(c, s, e).jobs && Step(c, s, e).jobs[b].SimulationFailed? ==> b in s.jobs && s.jobs[b] == Step(c, s, e).jobs[b]
  {
    hide DoRequest;
    hide DoRetry;
    hide DoResume;
    hide DoMine;
    match e
    case Request(a) => RequestOnlyStarts(c, s, a);
    case Retry(a) => RetryOnlyStarts(c, s, a);
    case Resume => ResumeOnlyStarts(s);
    case Mined(tx, ok) => MineKeepsJobs(s, tx, ok);
    case Tick(_) =>
    case Crash =>
    case SomeoneSpends(_) =>
  }

  lemma MineKeepsJobs(s: State, tx: TxHash, ok: bool)
    ensures DoMine(s, tx, ok).jobs == s.jobs
  {
  }

  /** The job of `b` waits after a failed simulation exactly because an answer said so. */
  lemma SimulationStep(c: Settings, s: State, e: Event, b: Burn)
    requires Inv(c, s) && b in Step(c, s, e).jobs && Step(c, s, e).jobs[b].SimulationFailed?
    ensures b in s.jobs
    ensures var p, p' := s.jobs[b], Step(c, s, e).jobs[b]; p == p' || (p == Simulating(p'.n) && e == SimulationSays(b, false, p'.transient))
  {
    hide Inv;
    hide JobStep;
    hide LeadsTo;
    if !OfJob(e) {
      PlainStarts(c, s, e, b);
    } else if e.b in s.jobs && e.b in s.records {
      JobFollows(c, s, e.b, e);
      if e.b == b {
        LeadsToFailedSimulation(c, s, b, e, Step(c, s, e).jobs[b]);
      }
    }
  }

  lemma LeadsToFailedSimulation(c: Settings, s: State, b: Burn, e: Event, next: Point)
    requires OfJob(e) && e.b == b && b in s.jobs && b in s.records && LeadsTo(c, s, b, e, next) && next.SimulationFailed?
    ensures s.jobs[b] == next || (s.jobs[b] == Simulating(next.n) && e == SimulationSays(b, false, next.transient))
  {
  }
  lemma {:induction false} FailedSimulationAnswered(c: Settings, start: State, events: seq<Event>, b: Burn) returns (i: nat)
    requires Inv(c, start) && start.jobs == map[]
    requires var s := Run(c, start, events); b in s.jobs && s.jobs[b].SimulationFailed?
    ensures i < |events| && events[i] == SimulationSays(b, false, Run(c, start, events).jobs[b].transient)
    decreases |events|
  {
    hide Step;
    hide Inv;
    var front, e := events[..|events| - 1], events[|events| - 1];
    var s := Run(c, start, front);
    RunKeeps(c, start, front);
    RunPrefix(c, start, events);
    SimulationStep(c, s, e, b);
    if b in s.jobs && s.jobs[b] == Run(c, start, events).jobs[b] {
      i := FailedSimulationAnswered(c, start, front, b);
    } else {
      i := |front|;
    }
  }

  /**
   * In every run, a mint stands refused only because its simulation answered
   * that the contract said no, and the nonce read after that was unspent.
   */
  lemma RefusedOnlyBySimulation(c: Settings, now: Time, spent: set<Nonce>, events: seq<Event>, b: Burn) returns (i: nat, j: nat)
    requires var s := Run(c, Initial(now, spent), events); b in s.records && s.records[b].code == Some(MintRefused)
    ensures i < j < |events| && events[i] == SimulationSays(b, false, false) && events[j] == NonceSays(b)
    ensures var s := Run(c, Initial(now, spent), events[..j]);
            b in s.jobs && s.jobs[b].SimulationFailed? && !s.jobs[b].transient && s.jobs[b].n !in s.chain.spent
  {
    hide Inv;
    hide Step;
    var start := Initial(now, spent);
    var s := Run(c, start, events);
    InitialOk(c, now, spent);
    RunKeeps(c, start, events);
    BurnFacts(c, s, b);
    var cause;
    j, cause := FailuresHaveCauses(c, now, spent, events, b);
    i := FailedSimulationAnswered(c, start, events[..j], b);
  }
}
