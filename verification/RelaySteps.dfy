/** Every step keeps the relay's invariant, event by event. */
module RelaySteps {
  import opened Wrappers
  import opened RelayRecords
  import opened RelayProtocol
  import opened RelayInvariant

  // ------------------------------------------------------- what a job can do

  lemma JobFacts(c: Settings, s: State, b: Burn)
    requires Inv(c, s) && b in s.jobs
    ensures b in s.records && BurnOk(s.now, s.chain, s.records[b], Some(s.jobs[b]), SentBy(s, b))
    ensures InMint(s.jobs[b]) ==> s.lock == Some(b) && HolderLog(s.log, b, s.jobs[b])
  {
  }

  lemma MoveKeeps(c: Settings, s: State, b: Burn, p: Point)
    requires Inv(c, s) && b in s.jobs && PointOk(s.now, s.chain, s.records[b], p)
    requires p.Sending? ==> p.onChain.None?
    requires InMint(p) ==> s.lock == Some(b) && HolderLog(s.log, b, p) && (Cleared(p) ==> Cleared(s.jobs[b]))
    ensures Inv(c, Goes(s, b, s.records[b], p))
  {
    hide Inv;
    JobFacts(c, s, b);
    Moves(s.now, s.chain, s.records[b], s.jobs[b], p, SentBy(s, b));
    GoesKeeps(c, s, b, s.records[b], p);
  }

  /** The job stops on a failure the relay retries by itself. */
  lemma FailsKeeps(c: Settings, s: State, b: Burn, code: FailureCode)
    requires Inv(c, s) && b in s.jobs && !Final(code)
    requires !Settled(s.records[b]) || s.jobs[b].CheckingGas?
    ensures Inv(c, Fails(s, b, code))
  {
    hide Inv;
    JobFacts(c, s, b);
    var r := s.records[b];
    TransientKeeps(s.now, s.chain, r, code);
    TransientFrame(r, s.now, code);
    GoesKeeps(c, s, b, Transient(r, s.now, code), Done);
  }

  lemma TransientFrame(r: Record, now: Time, code: FailureCode)
    ensures var r' := Transient(r, now, code);
            r'.submittedAt == r.submittedAt && r'.mintHash == r.mintHash && r'.mintedBy == r.mintedBy
            && r'.signed == r.signed && r'.phase == Failed
  {
  }

  lemma StopsKeeps(c: Settings, s: State, b: Burn, code: FailureCode)
    requires Inv(c, s) && b in s.jobs && !Settled(s.records[b])
    ensures Inv(c, Stops(s, b, code))
  {
    hide Inv;
    hide Paced;
    JobFacts(c, s, b);
    GoesKeeps(c, s, b, Stopped(s.records[b], code), Done);
  }

  lemma ArriveKeeps(c: Settings, s: State, b: Burn, mintHash: Option<TxHash>, who: Minter, p: Point)
    requires Inv(c, s) && b in s.jobs && !Settled(s.records[b])
    requires s.records[b].signed.Some? && s.records[b].signed.value in s.chain.spent
    requires p == Done || (p == CheckingBalance && s.lock == Some(b))
    ensures Inv(c, Goes(s, b, Arrive(s.records[b], s.now, mintHash, who), p))
  {
    hide Inv;
    hide Paced;
    JobFacts(c, s, b);
    GoesKeeps(c, s, b, Arrive(s.records[b], s.now, mintHash, who), p);
  }

  lemma ChainFacts(c: Settings, s: State)
    requires Inv(c, s)
    ensures ChainOk(s.chain)
  {
  }

  /** A mint of the burn that succeeded spent the burn's nonce. */
  lemma SuccessSpends(c: Settings, s: State, b: Burn, tx: TxHash)
    requires Inv(c, s) && b in s.jobs && !Settled(s.records[b]) && s.records[b].mintHash == Some(tx)
    requires tx in s.chain.mints && s.chain.mints[tx].receipt == Success
    ensures s.records[b].signed.Some? && s.records[b].signed.value in s.chain.spent
  {
    hide Inv;
    hide Paced;
    JobFacts(c, s, b);
    ChainFacts(c, s);
    var sent := SentBy(s, b);
    assert sent[|sent| - 1] == tx;
  }

  // ------------------------------------------------------------ job events

  lemma RerunKeeps(c: Settings, s: State, b: Burn)
    requires Inv(c, s) && b in s.jobs && s.jobs[b].CheckingGas?
    ensures Inv(c, Rerun(s, b))
  {
    hide Inv;
    hide Paced;
    JobFacts(c, s, b);
    ResumedKeeps(s.now, s.chain, s.records[b]);
    var r := Resumed(s.records[b]);
    GoesKeeps(c, s, b, r, RunPoint(r, s.now));
  }

  lemma AfterPollKeeps(c: Settings, s: State, b: Burn, begun: Time)
    requires Inv(c, s) && b in s.jobs && s.jobs[b].Polling?
    ensures Inv(c, AfterPoll(c, s, b, begun))
  {
    hide Inv;
    JobFacts(c, s, b);
    if s.records[b].phase == Sent {
      StopsKeeps(c, s, b, Unseen);
    } else {
      FailsKeeps(c, s, b, ConfirmTimeout);
    }
  }

  lemma IrisKeeps(c: Settings, s: State, b: Burn, answer: IrisAnswer)
    requires Inv(c, s) && b in s.jobs && s.jobs[b].Polling?
    ensures Inv(c, DoIris(c, s, b, s.jobs[b].begun, answer))
  {
    hide Inv;
    hide Paced;
    JobFacts(c, s, b);
    var r, begun := s.records[b], s.jobs[b].begun;
    match answer
    case Complete(n) =>
      assert SentBy(s, b) == [];
      GoesKeeps(c, s, b, r.(phase := Confirmed, signed := Some(n)), Queued);
    case Refuses => StopsKeeps(c, s, b, Refused);
    case PendingFinality =>
      var r' := if r.phase == Sent then r.(phase := Confirming) else r;
      GoesKeeps(c, s, b, r', Polling(begun));
      AfterPollKeeps(c, Goes(s, b, r', Polling(begun)), b, begun);
    case NoAnswer => AfterPollKeeps(c, s, b, begun);
  }

  lemma TakeKeeps(c: Settings, s: State, b: Burn)
    requires Inv(c, s) && b in s.jobs && s.jobs[b].Queued? && s.lock.None?
    ensures Inv(c, DoTake(s, b))
  {
    hide LogOk;
    hide BurnOk;
    hide SubmittedSince;
    hide StartOfUtcDay;
    var s' := DoTake(s, b);
    TakenPoint(c, s, b);
    CountSame(s.records, b, s.records[b], StartOfUtcDay(s.now));
    forall b' | b' in s'.records
      ensures BurnOk(s'.now, s'.chain, s'.records[b'], JobOf(s', b'), SentBy(s', b'))
    {
      assert BurnOk(s.now, s.chain, s.records[b'], JobOf(s, b'), SentBy(s, b'));
    }
    LogGrows(s.log, Took(b));
  }

  lemma TakenPoint(c: Settings, s: State, b: Burn)
    requires Inv(c, s) && b in s.jobs && s.jobs[b].Queued? && s.lock.None?
    ensures var p := DoTake(s, b).jobs[b];
            BurnOk(s.now, s.chain, s.records[b], Some(p), SentBy(s, b)) && (p.EarlierReceipt? || p.CheckingNonce?)
  {
    hide Inv;
    JobFacts(c, s, b);
    Moves(s.now, s.chain, s.records[b], s.jobs[b], DoTake(s, b).jobs[b], SentBy(s, b));
  }

  lemma ReceiptKeeps(c: Settings, s: State, b: Burn, outcome: Receipt)
    requires Inv(c, s) && b in s.jobs && (s.jobs[b].EarlierReceipt? || s.jobs[b].AwaitingReceipt?)
    ensures Inv(c, DoReceipt(s, b, s.jobs[b], outcome))
  {
    hide Inv;
    hide RecordOk;
    JobFacts(c, s, b);
    var p := s.jobs[b];
    if Truthful(s, p.tx, outcome) {
      if outcome == Success {
        SuccessSpends(c, s, b, p.tx);
        ArriveKeeps(c, s, b, Some(p.tx), ByRelay, if p.EarlierReceipt? then Done else CheckingBalance);
      } else if p.AwaitingReceipt? {
        MoveKeeps(c, s, b, LastNonce(p.n, outcome == Reverts));
      } else if outcome == Pending {
        MoveKeeps(c, s, b, EarlierNonce(p.n));
      } else {
        MoveKeeps(c, s, b, CheckingNonce(p.n));
      }
    }
  }

  lemma NonceKeeps(c: Settings, s: State, b: Burn)
    requires Inv(c, s) && b in s.jobs
    ensures Inv(c, DoNonce(c, s, b, s.jobs[b]))
  {
    hide Inv;
    hide RecordOk;
    hide CapReached;
    JobFacts(c, s, b);
    match s.jobs[b]
    case EarlierNonce(n) =>
      if n in s.chain.spent {
        MoveKeeps(c, s, b, CheckingNonce(n));
      } else {
        FailsKeeps(c, s, b, NotMined);
      }
    case CheckingNonce(n) =>
      if n in s.chain.spent {
        MoveKeeps(c, s, b, FindingMint(n));
      } else if CapReached(c, s) {
        FailsKeeps(c, s, b, DailyCap);
      } else {
        LoggedKeeps(c, s, b, ReadUnspent(b, n), Simulating(n));
      }
    case SimulationFailed(n, transient) =>
      if n in s.chain.spent {
        MoveKeeps(c, s, b, FindingMint(n));
      } else if transient {
        FailsKeeps(c, s, b, Rpc);
      } else {
        StopsKeeps(c, s, b, MintRefused);
      }
    case LastNonce(n, reverted) =>
      if n in s.chain.spent {
        MoveKeeps(c, s, b, FindingMint(n));
      } else {
        FailsKeeps(c, s, b, if reverted then Reverted else NotMined);
      }
    case _ =>
  }

  lemma SimulationKeeps(c: Settings, s: State, b: Burn, ok: bool, transient: bool)
    requires Inv(c, s) && b in s.jobs && s.jobs[b].Simulating?
    ensures Inv(c, DoSimulation(s, b, s.jobs[b].n, ok, transient))
  {
    hide Inv;
    hide RecordOk;
    JobFacts(c, s, b);
    var n := s.jobs[b].n;
    MoveKeeps(c, s, b, if ok then Sending(n, None) else SimulationFailed(n, transient));
  }

  /** The chain changes under everyone. */
  lemma ChainKeeps(c: Settings, s: State, chain: Chain)
    requires Inv(c, s) && Grows(s.chain, chain) && ChainOk(chain)
    ensures Inv(c, s.(chain := chain))
  {
    hide BurnOk;
    hide Grows;
    hide LogOk;
    var s' := s.(chain := chain);
    forall b | b in s'.records
      ensures BurnOk(s'.now, s'.chain, s'.records[b], JobOf(s', b), SentBy(s', b))
    {
      assert BurnOk(s.now, s.chain, s.records[b], JobOf(s, b), SentBy(s, b));
      GrowthKeeps(s.now, s.chain, chain, s.records[b], JobOf(s, b), SentBy(s, b));
    }
  }

  /** The list of broadcasts is history: no invariant reads it. */
  lemma HistoryIsFree(c: Settings, s: State, broadcasts: map<TxHash, Attempt>)
    requires Inv(c, s)
    ensures Inv(c, s.(broadcasts := broadcasts))
  {
    hide LogOk;
    hide BurnOk;
    hide SubmittedSince;
    hide StartOfUtcDay;
    var s' := s.(broadcasts := broadcasts);
    forall b | b in s'.records
      ensures BurnOk(s'.now, s'.chain, s'.records[b], JobOf(s', b), SentBy(s', b))
    {
      assert BurnOk(s.now, s.chain, s.records[b], JobOf(s, b), SentBy(s, b));
    }
  }

  lemma ReachKeeps(c: Settings, s: State, b: Burn, tx: TxHash)
    requires Inv(c, s) && b in s.jobs && s.jobs[b].Sending? && s.jobs[b].onChain.None?
    ensures Inv(c, DoReach(s, b, s.jobs[b].n, tx))
  {
    if tx !in s.chain.mints {
      var n := s.jobs[b].n;
      var chain := s.chain.(mints := s.chain.mints[tx := Mint(n, Pending)]);
      ChainKeeps(c, s, chain);
      BroadcastKeeps(c, s.(chain := chain), b, tx);
      var s' := s.(chain := chain, jobs := s.jobs[b := Sending(n, Some(tx))], log := s.log + [Broadcast(b, n, tx)]);
      HistoryIsFree(c, s', s.broadcasts[tx := Attempt(b, s.now, None)]);
    }
  }

  lemma BroadcastKeeps(c: Settings, s: State, b: Burn, tx: TxHash)
    requires Inv(c, s) && b in s.jobs && s.jobs[b].Sending? && s.jobs[b].onChain.None?
    requires tx in s.chain.mints && s.chain.mints[tx].nonce == s.jobs[b].n
    ensures Inv(c, s.(jobs := s.jobs[b := Sending(s.jobs[b].n, Some(tx))], log := s.log + [Broadcast(b, s.jobs[b].n, tx)]))
  {
    hide SentOk;
    hide NoncesOk;
    hide Paced;
    hide LogOk;
    hide SubmittedSince;
    hide StartOfUtcDay;
    hide RecordOk;
    var n := s.jobs[b].n;
    var s' := s.(jobs := s.jobs[b := Sending(n, Some(tx))], log := s.log + [Broadcast(b, n, tx)]);
    JobFacts(c, s, b);
    forall b' | b' in s'.records
      ensures BurnOk(s'.now, s'.chain, s'.records[b'], JobOf(s', b'), SentBy(s', b'))
    {
      assert BurnOk(s.now, s.chain, s.records[b'], JobOf(s, b'), SentBy(s, b'));
    }
    LogGrows(s.log, Broadcast(b, n, tx));
  }

  lemma AcceptedKeeps(c: Settings, s: State, b: Burn)
    requires Inv(c, s) && b in s.jobs && s.jobs[b].Sending? && s.jobs[b].onChain.Some?
    ensures Inv(c, DoSend(s, b, s.jobs[b].n, s.jobs[b].onChain, Accepted))
  {
    hide LogOk;
    hide SubmittedSince;
    hide StartOfUtcDay;
    hide BurnOk;
    var s' := DoSend(s, b, s.jobs[b].n, s.jobs[b].onChain, Accepted);
    JobFacts(c, s, b);
    RecordedOk(s, b);
    CountOneMore(s.records, b, s'.records[b], StartOfUtcDay(s.now));
    forall b' | b' in s'.records
      ensures BurnOk(s'.now, s'.chain, s'.records[b'], JobOf(s', b'), SentBy(s', b'))
    {
      if b' != b {
        assert BurnOk(s.now, s.chain, s.records[b'], JobOf(s, b'), SentBy(s, b'));
      }
    }
  }

  lemma RecordedOk(s: State, b: Burn)
    requires b in s.jobs && s.jobs[b].Sending? && s.jobs[b].onChain.Some? && b in s.records
    requires BurnOk(s.now, s.chain, s.records[b], Some(s.jobs[b]), SentBy(s, b))
    ensures var s' := DoSend(s, b, s.jobs[b].n, s.jobs[b].onChain, Accepted);
            BurnOk(s.now, s.chain, s'.records[b], Some(s'.jobs[b]), SentBy(s', b))
  {
    hide Paced;
    var sent, tx := SentBy(s, b), s.jobs[b].onChain.value;
    var sent' := sent + [tx];
    forall i | 0 <= i < |sent'| - 1
      ensures HasReverted(s.chain, sent'[i])
    {
      assert sent'[i] == sent[i];
    }
    forall i | 0 <= i < |sent'|
      ensures sent'[i] in s.chain.mints && s.records[b].signed == Some(s.chain.mints[sent'[i]].nonce)
    {
      if i < |sent| {
        assert sent'[i] == sent[i];
      }
    }
  }

  lemma SendKeeps(c: Settings, s: State, b: Burn, response: SendAnswer)
    requires Inv(c, s) && b in s.jobs && s.jobs[b].Sending?
    ensures Inv(c, DoSend(s, b, s.jobs[b].n, s.jobs[b].onChain, response))
  {
    hide Inv;
    hide RecordOk;
    JobFacts(c, s, b);
    match response
    case Accepted =>
      if s.jobs[b].onChain.Some? {
        AcceptedKeeps(c, s, b);
      }
    case NoFunds => FailsKeeps(c, s, b, OutOfGas);
    case Lost => FailsKeeps(c, s, b, SendFailed);
  }

  lemma FoundKeeps(c: Settings, s: State, b: Burn, found: Option<(TxHash, Minter)>)
    requires Inv(c, s) && b in s.jobs && (s.jobs[b].FindingMint? || s.jobs[b].SearchingAgain?)
    ensures Inv(c, DoFound(s, b, s.jobs[b], found))
  {
    hide Inv;
    hide Paced;
    hide RetryDelay;
    JobFacts(c, s, b);
    if s.jobs[b].SearchingAgain? {
      GoesKeeps(c, s, b, LookedUp(s.records[b], s.now, found), Done);
    } else {
      match found
      case Some((tx, who)) => ArriveKeeps(c, s, b, Some(tx), who, Done);
      case None => ArriveKeeps(c, s, b, None, ByOther, Done);
    }
  }

  lemma FinishKeeps(c: Settings, s: State, b: Burn)
    requires Inv(c, s) && b in s.jobs && s.jobs[b].Done?
    ensures Inv(c, s.(jobs := s.jobs - {b}))
  {
    hide LogOk;
    hide SubmittedSince;
    hide StartOfUtcDay;
    hide RecordOk;
    var s' := s.(jobs := s.jobs - {b});
    forall b' | b' in s'.records
      ensures BurnOk(s'.now, s'.chain, s'.records[b'], JobOf(s', b'), SentBy(s', b'))
    {
      assert BurnOk(s.now, s.chain, s.records[b'], JobOf(s, b'), SentBy(s, b'));
    }
  }

  lemma ThrowKeeps(c: Settings, s: State, b: Burn)
    requires Inv(c, s) && b in s.jobs
    ensures Inv(c, JobStep(c, s, b, s.jobs[b], Throws(b)))
  {
    hide Inv;
    hide RecordOk;
    hide Fails;
    JobFacts(c, s, b);
    if MayThrow(s.jobs[b]) {
      FailsKeeps(c, s, b, Unexpected);
    }
  }

  lemma JobStepKeeps(c: Settings, s: State, b: Burn, e: Event)
    requires Inv(c, s) && b in s.jobs && OfJob(e)
    ensures Inv(c, JobStep(c, s, b, s.jobs[b], e))
  {
    hide Inv;
    hide BurnOk;
    JobFacts(c, s, b);
    var p := s.jobs[b];
    match e
    case GasAnswer(_, enough) =>
      if p.CheckingGas? {
        RerunKeeps(c, s, b);
        FailsKeeps(c, s, b, OutOfGas);
      }
    case IrisSays(_, answer) => if p.Polling? { IrisKeeps(c, s, b, answer); }
    case TakeLock(_) => if p.Queued? && s.lock.None? { TakeKeeps(c, s, b); }
    case ReceiptSays(_, outcome) => if p.EarlierReceipt? || p.AwaitingReceipt? { ReceiptKeeps(c, s, b, outcome); }
    case NonceSays(_) => NonceKeeps(c, s, b);
    case SimulationSays(_, ok, transient) => if p.Simulating? { SimulationKeeps(c, s, b, ok, transient); }
    case MintReaches(_, tx) => if p.Sending? && p.onChain.None? { ReachKeeps(c, s, b, tx); }
    case SendSays(_, response) => if p.Sending? { SendKeeps(c, s, b, response); }
    case MintFound(_, found) => if p.FindingMint? || p.SearchingAgain? { FoundKeeps(c, s, b, found); }
    case BalanceRead(_) => if p.CheckingBalance? { MoveKeeps(c, s, b, Done); }
    case Throws(_) => ThrowKeeps(c, s, b);
    case Finishes(_) => if p.Done? { FinishKeeps(c, s, b); }
    case _ =>
  }

  // ---------------------------------------------- requests, retries, restarts

  /** A job begins: `b` had none. */
  lemma BeginKeeps(c: Settings, s: State, b: Burn, r: Record, p: Point)
    requires Inv(c, s) && b !in s.jobs && !InMint(p)
    requires BurnOk(s.now, s.chain, r, Some(p), SentBy(s, b))
    requires if b in s.records then r.submittedAt == s.records[b].submittedAt else r.submittedAt.None?
    ensures Inv(c, s.(records := s.records[b := r], jobs := s.jobs[b := p]))
  {
    hide LogOk;
    hide BurnOk;
    hide SubmittedSince;
    hide StartOfUtcDay;
    var s' := s.(records := s.records[b := r], jobs := s.jobs[b := p]);
    CountSame(s.records, b, r, StartOfUtcDay(s.now));
    forall b' | b' in s'.records
      ensures BurnOk(s'.now, s'.chain, s'.records[b'], JobOf(s', b'), SentBy(s', b'))
    {
      if b' != b {
        assert BurnOk(s.now, s.chain, s.records[b'], JobOf(s, b'), SentBy(s, b'));
      }
    }
  }

  lemma BurnFacts(c: Settings, s: State, b: Burn)
    requires Inv(c, s) && b in s.records
    ensures BurnOk(s.now, s.chain, s.records[b], JobOf(s, b), SentBy(s, b))
  {
  }

  lemma StartKeeps(c: Settings, s: State, b: Burn)
    requires Inv(c, s) && b in s.records && !Settled(s.records[b])
    ensures Inv(c, Start(s, b))
  {
    hide Inv;
    hide Paced;
    BurnFacts(c, s, b);
    if b !in s.jobs {
      BeginKeeps(c, s, b, s.records[b], RunPoint(s.records[b], s.now));
      assert s.records[b := s.records[b]] == s.records;
    }
  }

  lemma RetryKeeps(c: Settings, s: State, b: Burn)
    requires Inv(c, s)
    ensures Inv(c, DoRetry(c, s, b))
  {
    hide Inv;
    hide Paced;
    if b in s.records && b !in s.jobs && s.records[b].retryAt.Some? && s.records[b].retryAt.value <= s.now {
      BurnFacts(c, s, b);
      var r := s.records[b];
      assert s.records[b := r] == s.records;
      if r.phase == Arrived {
        BeginKeeps(c, s, b, r, SearchingAgain);
      } else if Retrying(r) {
        if r.code == Some(OutOfGas) {
          BeginKeeps(c, s, b, r, CheckingGas);
        } else {
          ResumedKeeps(s.now, s.chain, r);
          BeginKeeps(c, s, b, Resumed(r), RunPoint(Resumed(r), s.now));
          FreeLock(c, s, b);
        }
      }
    }
  }

  /** A burn without a job does not hold the lock. */
  lemma FreeLock(c: Settings, s: State, b: Burn)
    requires Inv(c, s) && b !in s.jobs
    ensures s.lock != Some(b)
  {
  }

  lemma RequestKeeps(c: Settings, s: State, b: Burn)
    requires Inv(c, s)
    ensures Inv(c, DoRequest(c, s, b))
  {
    hide Inv;
    hide Paced;
    if b in s.records && OnlyReported(s.records[b]) {
      if Settled(s.records[b]) {
        RetryKeeps(c, s, b);
      } else {
        StartKeeps(c, s, b);
      }
    } else if |s.jobs| < c.maxOpen {
      var r := if b in s.records then Restarted(s.records[b]) else NewRecord();
      FreshFits(c, s, b, r);
      if b in s.jobs {
        GoesKeeps(c, s, b, r, s.jobs[b]);
        FreeIfDone(c, s, b);
        assert s.jobs[b := s.jobs[b]] == s.jobs;
      } else {
        BeginKeeps(c, s, b, r, RunPoint(r, s.now));
      }
    }
  }

  /** A stopped record has at most a finished job, and a restarted one fits both that and a new job. */
  lemma FreshFits(c: Settings, s: State, b: Burn, r: Record)
    requires Inv(c, s) && (b in s.records ==> !OnlyReported(s.records[b]))
    requires r == if b in s.records then Restarted(s.records[b]) else NewRecord()
    ensures b in s.jobs ==> b in s.records && s.jobs[b] == Done
    ensures BurnOk(s.now, s.chain, r, Some(Done), SentBy(s, b)) && BurnOk(s.now, s.chain, r, Some(RunPoint(r, s.now)), SentBy(s, b))
  {
    hide Inv;
    hide Paced;
    if b in s.records {
      BurnFacts(c, s, b);
    } else {
      UnknownBurn(c, s, b);
    }
  }

  lemma UnknownBurn(c: Settings, s: State, b: Burn)
    requires Inv(c, s) && b !in s.records
    ensures b !in s.jobs && SentBy(s, b) == []
  {
  }

  lemma FreeIfDone(c: Settings, s: State, b: Burn)
    requires Inv(c, s) && b in s.jobs && s.jobs[b] == Done
    ensures s.lock != Some(b)
  {
  }

  /** The jobs there were stay; the new ones are at the start of a transfer in flight. */
  lemma ResumedJob(s: State, b: Burn)
    ensures var s' := DoResume(s);
            && (b in s.jobs ==> b in s'.jobs && s'.jobs[b] == s.jobs[b])
            && (b !in s.jobs && b in s'.jobs ==> b in s.records && !Settled(s.records[b]) && s'.jobs[b] == RunPoint(s.records[b], s.now))
  {
    hide RunPoint;
  }

  lemma ResumedBurn(now: Time, chain: Chain, r: Record, sent: seq<TxHash>)
    requires BurnOk(now, chain, r, None, sent) && !Settled(r)
    ensures BurnOk(now, chain, r, Some(RunPoint(r, now)), sent)
    ensures !InMint(RunPoint(r, now))
  {
    hide SentOk;
    hide NoncesOk;
    hide Paced;
  }

  lemma ResumeKeeps(c: Settings, s: State)
    requires Inv(c, s)
    ensures Inv(c, DoResume(s))
  {
    hide LogOk;
    hide HolderLog;
    hide SubmittedSince;
    hide StartOfUtcDay;
    hide BurnOk;
    hide DoResume;
    hide RunPoint;
    var s' := DoResume(s);
    ResumeFrame(s);
    forall b | b in s'.records
      ensures BurnOk(s'.now, s'.chain, s'.records[b], JobOf(s', b), SentBy(s', b))
      ensures b in s'.jobs && InMint(s'.jobs[b]) ==> s'.lock == Some(b)
    {
      ResumedJob(s, b);
      if b !in s.jobs && !Settled(s.records[b]) {
        ResumedBurn(s.now, s.chain, s.records[b], SentBy(s, b));
      }
    }
    if s.lock.Some? {
      ResumedJob(s, s.lock.value);
    }
  }

  lemma ResumeFrame(s: State)
    ensures DoResume(s) == s.(jobs := DoResume(s).jobs)
    ensures s.jobs.Keys <= s.records.Keys ==> DoResume(s).jobs.Keys <= s.records.Keys
  {
    hide RunPoint;
  }

  lemma CrashKeeps(c: Settings, s: State)
    requires Inv(c, s)
    ensures Inv(c, s.(jobs := map[], lock := None))
  {
    hide LogOk;
    hide SubmittedSince;
    hide StartOfUtcDay;
    hide RecordOk;
    var s' := s.(jobs := map[], lock := None);
    forall b | b in s'.records
      ensures BurnOk(s'.now, s'.chain, s'.records[b], JobOf(s', b), SentBy(s', b))
    {
      assert BurnOk(s.now, s.chain, s.records[b], JobOf(s, b), SentBy(s, b));
    }
  }

  lemma TickKeeps(c: Settings, s: State, to: Time)
    requires Inv(c, s) && s.now <= to
    ensures Inv(c, s.(now := to))
  {
    hide LogOk;
    hide SubmittedSince;
    hide StartOfUtcDay;
    hide BurnOk;
    var s' := s.(now := to);
    MidnightMonotone(s.now, to);
    CountLater(s.records, StartOfUtcDay(s.now), StartOfUtcDay(to));
    forall b | b in s'.records
      ensures BurnOk(s'.now, s'.chain, s'.records[b], JobOf(s', b), SentBy(s', b))
    {
      assert BurnOk(s.now, s.chain, s.records[b], JobOf(s, b), SentBy(s, b));
      LaterKeeps(s.now, to, s.chain, s.records[b], JobOf(s, b), SentBy(s, b));
    }
  }

  lemma MineKeeps(c: Settings, s: State, tx: TxHash, ok: bool)
    requires Inv(c, s)
    ensures Inv(c, DoMine(s, tx, ok))
  {
    hide Inv;
    ChainFacts(c, s);
    if tx in s.chain.mints && s.chain.mints[tx].receipt == Pending {
      MinedGrows(s, tx, ok);
      ChainKeeps(c, s, DoMine(s, tx, ok).chain);
    }
  }

  lemma MinedGrows(s: State, tx: TxHash, ok: bool)
    requires ChainOk(s.chain) && tx in s.chain.mints && s.chain.mints[tx].receipt == Pending
    ensures Grows(s.chain, DoMine(s, tx, ok).chain) && ChainOk(DoMine(s, tx, ok).chain)
    ensures DoMine(s, tx, ok) == s.(chain := DoMine(s, tx, ok).chain)
  {
  }

  /** Every step keeps the invariant. */
  lemma StepKeeps(c: Settings, s: State, e: Event)
    requires Inv(c, s)
    ensures Inv(c, Step(c, s, e))
  {
    hide Inv;
    match e
    case Tick(to) => if s.now <= to { TickKeeps(c, s, to); }
    case Request(b) => RequestKeeps(c, s, b);
    case Retry(b) => RetryKeeps(c, s, b);
    case Resume => ResumeKeeps(c, s);
    case Crash => CrashKeeps(c, s);
    case Mined(tx, ok) => MineKeeps(c, s, tx, ok);
    case SomeoneSpends(n) => SpendKeeps(c, s, n);
    case _ => if e.b in s.jobs && e.b in s.records { JobStepKeeps(c, s, e.b, e); }
  }

  lemma SpendKeeps(c: Settings, s: State, n: Nonce)
    requires Inv(c, s)
    ensures Inv(c, s.(chain := s.chain.(spent := s.chain.spent + {n})))
  {
    ChainKeeps(c, s, s.chain.(spent := s.chain.spent + {n}));
  }
}
