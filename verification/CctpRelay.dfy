/**
 * The relay object (relayer/src/cctp/service.ts): its record store, its jobs
 * and its lock, changed in place. Each method is what runs between two
 * `await`s, and each is proved to be the protocol's step.
 */
module CctpRelay {
  import opened Wrappers
  import opened RelayRecords
  import P = RelayProtocol

  datatype RelayError = RelayBusy

  class Relay {
    const settings: P.Settings
    var records: map<Burn, Record>
    var jobs: map<Burn, P.Point>
    var lock: Option<Burn>
    ghost var sent: map<Burn, seq<TxHash>>
    ghost var log: seq<P.Action>
    ghost var broadcasts: map<TxHash, P.Attempt>

    /** The protocol state this object is in, on a given chain at a given time. */
    ghost function Abs(now: Time, chain: P.Chain): P.State
      reads this
    {
      P.State(now, records, jobs, lock, chain, sent, log, broadcasts)
    }

    constructor (settings: P.Settings)
      ensures this.settings == settings
      ensures forall now, spent :: Abs(now, P.Chain(spent, map[])) == P.Initial(now, spent)
    {
      this.settings := settings;
      records := map[];
      jobs := map[];
      lock := None;
      sent := map[];
      log := [];
      broadcasts := map[];
    }

    // ----------------------------------------------------------- the store

    /** Counts the burns whose latest broadcast is at or after `since`, one record at a time. */
    method CountSubmittedSince(since: Time) returns (n: nat)
      ensures n == |P.SubmittedSince(records, since)|
    {
      n := 0;
      var rest := records.Keys;
      ghost var counted: set<Burn> := {};
      while rest != {}
        invariant rest <= records.Keys && n == |counted|
        invariant counted == P.SubmittedSince(records, since) - rest
        decreases |rest|
      {
        var b :| b in rest;
        rest := rest - {b};
        var at := records[b].submittedAt;
        if at.Some? && at.value >= since {
          n := n + 1;
          counted := counted + {b};
        }
      }
    }

    /** The records whose `retryAt` has come. */
    function Due(now: Time): set<Burn>
      reads this
    {
      set b | b in records && records[b].retryAt.Some? && records[b].retryAt.value <= now
    }

    predicate InOrder(due: seq<Burn>)
      reads this
    {
      forall i, j | 0 <= i < j < |due| && due[i] in records && due[j] in records
                    && records[due[i]].retryAt.Some? && records[due[j]].retryAt.Some? ::
        records[due[i]].retryAt.value <= records[due[j]].retryAt.value
    }

    /** One of the burns in `rest` that is due first. */
    method Earliest(rest: set<Burn>, now: Time) returns (first: Burn)
      requires rest != {} && rest <= Due(now)
      ensures first in rest
      ensures forall b | b in rest :: records[first].retryAt.value <= records[b].retryAt.value
    {
      first :| first in rest;
      var others := rest - {first};
      while others != {}
        invariant others <= rest && first in rest
        invariant forall b | b in rest - others :: records[first].retryAt.value <= records[b].retryAt.value
        decreases |others|
      {
        var b :| b in others;
        others := others - {b};
        if records[b].retryAt.value < records[first].retryAt.value {
          first := b;
        }
      }
    }

    lemma NothingToOrder()
      ensures InOrder([])
    {
    }

    lemma NextInOrder(due: seq<Burn>, next: Burn)
      requires InOrder(due) && next in records && records[next].retryAt.Some?
      requires forall a | a in due :: a in records && records[a].retryAt.Some? && records[a].retryAt.value <= records[next].retryAt.value
      ensures InOrder(due + [next])
    {
    }

    /** Exactly the due burns, each once, earliest first. */
    method ListDue(now: Time) returns (due: seq<Burn>)
      ensures forall b :: b in due <==> b in Due(now)
      ensures forall b :: b in due <==> b in records && records[b].retryAt.Some? && records[b].retryAt.value <= now
      ensures forall i, j | 0 <= i < j < |due| :: due[i] != due[j]
      ensures InOrder(due)
    {
      hide InOrder;
      due := [];
      var rest := Due(now);
      NothingToOrder();
      while rest != {}
        invariant rest <= Due(now)
        invariant forall b :: b in due <==> b in Due(now) - rest
        invariant forall i, j | 0 <= i < j < |due| :: due[i] != due[j]
        invariant InOrder(due)
        invariant forall a, b | a in due && b in rest :: records[a].retryAt.value <= records[b].retryAt.value
        decreases |rest|
      {
        var first := Earliest(rest, now);
        NextInOrder(due, first);
        due := due + [first];
        rest := rest - {first};
      }
    }

    // ------------------------------------------------- failing and arriving

    method Update(b: Burn, r: Record)
      modifies this`records
      ensures records == old(records)[b := r]
    {
      records := records[b := r];
    }

    method Fail(b: Burn, code: FailureCode)
      requires b in records
      modifies this`records
      ensures records == old(records)[b := Stopped(old(records[b]), code)]
    {
      var retryable := code != Refused && code != MintRefused;
      Update(b, records[b].(phase := Failed, retryable := retryable, code := Some(code), retryAt := None));
    }

    /** Schedules a retry with backoff, or gives up once the streak has lasted long enough. */
    method FailForNow(b: Burn, now: Time, code: FailureCode)
      requires b in records
      modifies this`records
      ensures records == old(records)[b := Transient(old(records[b]), now, code)]
    {
      var current := records[b];
      var since := if current.since.Some? then current.since.value else now;
      var attempts := current.attempts + 1;
      if now - since >= RETRY_GIVE_UP {
        Update(b, current.(attempts := attempts, since := Some(since)));
        Fail(b, GaveUp);
        return;
      }
      var retryAt: Time;
      if code == DailyCap {
        retryAt := StartOfUtcDay(now) + DAY;
      } else {
        retryAt := now + RetryDelay(attempts);
      }
      Update(b, current.(phase := Failed, retryable := true, code := Some(code), retryAt := Some(retryAt),
                         attempts := attempts, since := Some(since)));
    }

    method HasArrived(b: Burn, now: Time, mintHash: Option<TxHash>, mintedBy: Minter)
      requires b in records
      modifies this`records
      ensures records == old(records)[b := Arrive(old(records[b]), now, mintHash, mintedBy)]
    {
      var retryAt := if mintHash.Some? then None else Some(now + RETRY_INITIAL);
      Update(b, records[b].(phase := Arrived, mintHash := mintHash, mintedBy := Some(mintedBy), code := None,
                            retryable := false, retryAt := retryAt, attempts := 0, since := None));
    }

    // ------------------------------------------------------- starting jobs

    /** One job per burn: a second launch while one runs does nothing. */
    method Launch(b: Burn, p: P.Point) returns (launched: bool)
      modifies this`jobs
      ensures launched == (b !in old(jobs))
      ensures jobs == if launched then old(jobs)[b := p] else old(jobs)
    {
      if b in jobs {
        return false;
      }
      jobs := jobs[b := p];
      return true;
    }

    /** Up to the first `await` of `run`. */
    method StartRun(b: Burn, now: Time) returns (launched: bool)
      requires b in records
      modifies this`jobs
      ensures launched == (b !in old(jobs))
      ensures jobs == if launched then old(jobs)[b := P.RunPoint(records[b], now)] else old(jobs)
      ensures forall chain :: Abs(now, chain) == P.Start(old(Abs(now, chain)), b)
    {
      launched := Launch(b, P.RunPoint(records[b], now));
    }

    method Retry(b: Burn, now: Time) returns (started: bool)
      requires lock != Some(b) || b in jobs
      modifies this`records, this`jobs
      ensures forall chain :: Abs(now, chain) == P.DoRetry(settings, old(Abs(now, chain)), b)
      ensures started <==> b !in old(jobs) && b in jobs
      ensures jobs.Keys == if started then old(jobs).Keys + {b} else old(jobs).Keys
      ensures old(records).Keys <= records.Keys
    {
      hide P.RunPoint;
      if b !in records || records[b].retryAt.None? || records[b].retryAt.value > now {
        return false;
      }
      if b in jobs || |jobs| >= settings.maxOpen {
        return false;
      }
      var r := records[b];
      if r.phase == Arrived {
        started := Launch(b, P.SearchingAgain);
        return;
      }
      if !Retrying(r) {
        return false;
      }
      if r.code == Some(OutOfGas) {
        started := Launch(b, P.CheckingGas);
        return;
      }
      Update(b, r.(phase := if r.signed.Some? then Confirmed else Sent, code := None, retryable := false, retryAt := None));
      started := Launch(b, P.RunPoint(records[b], now));
    }

    method Request(b: Burn, now: Time) returns (answer: Result<Record, RelayError>)
      requires lock != Some(b) || b in jobs
      modifies this`records, this`jobs
      ensures forall chain :: Abs(now, chain) == P.DoRequest(settings, old(Abs(now, chain)), b)
      ensures answer.Ok? ==> b in records && answer.value == records[b]
      ensures answer.Err? <==> !(b in old(records) && P.OnlyReported(old(records[b]))) && |old(jobs)| >= settings.maxOpen
    {
      if b in records && P.OnlyReported(records[b]) {
        if !Settled(records[b]) {
          var _ := StartRun(b, now);
        } else {
          var _ := Retry(b, now);
        }
        return Ok(records[b]);
      }
      if |jobs| >= settings.maxOpen {
        return Err(RelayBusy);
      }
      if b in records {
        Update(b, Restarted(records[b]));
      } else {
        Update(b, NewRecord());
      }
      var _ := StartRun(b, now);
      return Ok(records[b]);
    }

    /** The retries of `due`, one after the other. */
    static function RetryAll(c: P.Settings, s: P.State, due: seq<Burn>): P.State
    {
      if due == [] then s else P.DoRetry(c, RetryAll(c, s, due[..|due| - 1]), due[|due| - 1])
    }

    static lemma NoRetries(c: P.Settings, s: P.State, due: seq<Burn>)
      ensures RetryAll(c, s, due[..0]) == s
    {
    }

    static lemma OneMoreRetry(c: P.Settings, s: P.State, due: seq<Burn>, i: nat)
      requires i < |due|
      ensures RetryAll(c, s, due[..i + 1]) == P.DoRetry(c, RetryAll(c, s, due[..i]), due[i])
    {
      hide P.DoRetry;
      assert due[..i + 1][..i] == due[..i];
    }

    /** The sweep: every due retry in order, as long as there is room. */
    method RetryDue(now: Time, ghost chain: P.Chain) returns (started: nat, ghost due: seq<Burn>)
      requires forall b :: lock == Some(b) ==> b in jobs
      modifies this`records, this`jobs
      ensures forall b :: b in due <==> b in old(Due(now))
      ensures old(InOrder(due))
      ensures Abs(now, chain) == RetryAll(settings, old(Abs(now, chain)), due)
      ensures |jobs.Keys| == |old(jobs).Keys| + started
    {
      hide P.DoRetry;
      hide RetryAll;
      var list := ListDue(now);
      due := list;
      NoRetries(settings, Abs(now, chain), list);
      started := 0;
      for i := 0 to |list|
        invariant forall b :: lock == Some(b) ==> b in jobs
        invariant lock == old(lock) && old(jobs).Keys <= jobs.Keys
        invariant Abs(now, chain) == RetryAll(settings, old(Abs(now, chain)), list[..i])
        invariant |jobs.Keys| == |old(jobs).Keys| + started
      {
        var launched := Retry(list[i], now);
        OneMoreRetry(settings, old(Abs(now, chain)), list, i);
        if launched {
          started := started + 1;
        }
      }
      assert list[..|list|] == list;
    }

    /** The transfers still in flight. */
    function Open(): set<Burn>
      reads this
    {
      set b | b in records && !Settled(records[b])
    }

    /** The jobs after those of `done` have been started where there was none. */
    static function Started(jobs: map<Burn, P.Point>, records: map<Burn, Record>, done: set<Burn>, now: Time): map<Burn, P.Point>
      requires done <= records.Keys
    {
      jobs + map b | b in done && b !in jobs :: P.RunPoint(records[b], now)
    }

    static lemma NoneStarted(jobs: map<Burn, P.Point>, records: map<Burn, Record>, now: Time)
      ensures Started(jobs, records, {}, now) == jobs
    {
    }

    static lemma OneMoreStarted(jobs: map<Burn, P.Point>, records: map<Burn, Record>, done: set<Burn>, b: Burn, now: Time)
      requires done <= records.Keys && b in records && b !in done
      ensures var was, more := Started(jobs, records, done, now), Started(jobs, records, done + {b}, now);
              more == if b in was then was else was[b := P.RunPoint(records[b], now)]
    {
      hide P.RunPoint;
    }

    static lemma AllStarted(s: P.State, done: set<Burn>)
      requires done <= s.records.Keys && forall b | b in s.records :: b in done <==> !Settled(s.records[b])
      ensures P.DoResume(s) == s.(jobs := Started(s.jobs, s.records, done, s.now))
    {
      hide P.RunPoint;
      assert P.DoResume(s).jobs == Started(s.jobs, s.records, done, s.now);
    }

    /** Starts a job for each of these transfers that has none. */
    method StartAll(opens: set<Burn>, now: Time) returns (count: nat)
      requires opens <= records.Keys
      modifies this`jobs
      ensures jobs == Started(old(jobs), records, opens, now) && count == |opens|
    {
      hide P.RunPoint;
      hide Started;
      count := 0;
      var rest := opens;
      ghost var done: set<Burn> := {};
      NoneStarted(jobs, records, now);
      while rest != {}
        invariant rest <= opens <= records.Keys && done == opens - rest && count == |done|
        invariant jobs == Started(old(jobs), records, done, now)
        decreases |rest|
      {
        var b :| b in rest;
        OneMoreStarted(old(jobs), records, done, b, now);
        var _ := Launch(b, P.RunPoint(records[b], now));
        rest := rest - {b};
        done := done + {b};
        count := count + 1;
      }
      assert done == opens;
    }

    /** Every transfer still in flight gets its job back, one after the other; those that have one keep it. */
    method Resume(now: Time, ghost chain: P.Chain) returns (open: nat)
      modifies this`jobs
      ensures Abs(now, chain) == P.DoResume(old(Abs(now, chain)))
      ensures open == |old(Open())|
    {
      hide P.RunPoint;
      hide Started;
      hide P.DoResume;
      hide Settled;
      open := StartAll(Open(), now);
      AllStarted(old(Abs(now, chain)), old(Open()));
    }

    /** The balance is there: a transfer that ran out of gas resumes once the account can pay for a mint. */
    method WithBalance(b: Burn, enough: bool, now: Time)
      requires b in records && b in jobs && jobs[b].CheckingGas?
      modifies this`records, this`jobs, this`lock
      ensures forall chain :: Abs(now, chain) == (if enough then P.Rerun(old(Abs(now, chain)), b) else P.Fails(old(Abs(now, chain)), b, OutOfGas))
    {
      if !enough {
        FailForNow(b, now, OutOfGas);
        WaitAt(b, P.Done);
        return;
      }
      var r := records[b];
      Update(b, r.(phase := if r.signed.Some? then Confirmed else Sent, code := None, retryable := false, retryAt := None));
      WaitAt(b, P.RunPoint(records[b], now));
    }

    // ------------------------------------------------------------- minting

    /** The job of `b` goes on to wait at `p`. */
    method WaitAt(b: Burn, p: P.Point)
      requires b in records
      modifies this`jobs, this`lock
      ensures forall now, chain :: Abs(now, chain) == P.Goes(old(Abs(now, chain)), b, records[b], p)
    {
      assert records[b := records[b]] == records;
      jobs := jobs[b := p];
      if !P.InMint(p) && lock == Some(b) {
        lock := None;
      }
    }

    /** `mint` begins: the record is read again inside the lock. */
    method BeginMint(b: Burn)
      requires b in records && b in jobs && jobs[b] == P.Queued && lock == None
      modifies this`jobs, this`lock, this`log
      ensures forall now, chain :: Abs(now, chain) == P.DoTake(old(Abs(now, chain)), b)
    {
      lock := Some(b);
      log := log + [P.Took(b)];
      var r := records[b];
      if Settled(r) || r.signed.None? {
        WaitAt(b, P.Done);
        return;
      }
      if r.mintHash.Some? && r.mintedBy == Some(ByRelay) {
        WaitAt(b, P.EarlierReceipt(r.signed.value, r.mintHash.value));
        return;
      }
      WaitAt(b, P.CheckingNonce(r.signed.value));
    }

    /** `mint` goes on with a receipt. */
    method WithReceipt(b: Burn, outcome: P.Receipt, now: Time, ghost chain: P.Chain)
      requires b in records && b in jobs && (jobs[b].EarlierReceipt? || jobs[b].AwaitingReceipt?)
      requires P.Truthful(Abs(now, chain), jobs[b].tx, outcome)
      modifies this`records, this`jobs, this`lock
      ensures Abs(now, chain) == P.DoReceipt(old(Abs(now, chain)), b, old(jobs[b]), outcome)
    {
      var p := jobs[b];
      if outcome == P.Success {
        HasArrived(b, now, Some(p.tx), ByRelay);
        WaitAt(b, if p.EarlierReceipt? then P.Done else P.CheckingBalance);
        return;
      }
      if p.AwaitingReceipt? {
        WaitAt(b, P.LastNonce(p.n, outcome == P.Reverts));
        return;
      }
      WaitAt(b, if outcome == P.Pending then P.EarlierNonce(p.n) else P.CheckingNonce(p.n));
    }

    /** `mint` goes on knowing whether the nonce is spent. */
    method WithNonce(b: Burn, used: bool, now: Time, ghost chain: P.Chain)
      requires b in records && b in jobs
      requires jobs[b].EarlierNonce? || jobs[b].CheckingNonce? || jobs[b].SimulationFailed? || jobs[b].LastNonce?
      requires used <==> jobs[b].n in chain.spent
      modifies this`records, this`jobs, this`lock, this`log
      ensures Abs(now, chain) == P.DoNonce(settings, old(Abs(now, chain)), b, old(jobs[b]))
    {
      hide Transient;
      hide P.SubmittedSince;
      var p := jobs[b];
      if used {
        WaitAt(b, if p.EarlierNonce? then P.CheckingNonce(p.n) else P.FindingMint(p.n));
        return;
      }
      match p {
        case EarlierNonce(_) =>
          FailForNow(b, now, NotMined);
        case CheckingNonce(n) =>
          var today := CountSubmittedSince(StartOfUtcDay(now));
          if today < settings.dailyCap {
            log := log + [P.ReadUnspent(b, n)];
            WaitAt(b, P.Simulating(n));
            return;
          }
          FailForNow(b, now, DailyCap);
        case SimulationFailed(_, transient) =>
          if transient {
            FailForNow(b, now, Rpc);
          } else {
            Fail(b, MintRefused);
          }
        case LastNonce(_, reverted) =>
          FailForNow(b, now, if reverted then Reverted else NotMined);
      }
      WaitAt(b, P.Done);
    }

    /** `mint` goes on with the simulation: it broadcasts, or asks once more whether the nonce is spent. */
    method WithSimulation(b: Burn, ok: bool, transient: bool)
      requires b in records && b in jobs && jobs[b].Simulating?
      modifies this`jobs, this`lock
      ensures forall now, chain :: Abs(now, chain) == P.DoSimulation(old(Abs(now, chain)), b, old(jobs[b]).n, ok, transient)
    {
      var n := jobs[b].n;
      WaitAt(b, if ok then P.Sending(n, None) else P.SimulationFailed(n, transient));
    }

    /** `mint` goes on with the answer to its broadcast. */
    method WithBroadcast(b: Burn, response: P.SendAnswer, now: Time)
      requires b in records && b in jobs && jobs[b].Sending? && (response == P.Accepted ==> jobs[b].onChain.Some?)
      modifies this`records, this`jobs, this`lock, this`sent, this`broadcasts
      ensures forall chain :: Abs(now, chain) == P.DoSend(old(Abs(now, chain)), b, old(jobs[b]).n, old(jobs[b]).onChain, response)
    {
      var p := jobs[b];
      match response {
        case Accepted =>
          var tx := p.onChain.value;
          Update(b, records[b].(phase := Submitted, mintHash := Some(tx), mintedBy := Some(ByRelay), submittedAt := Some(now)));
          sent := sent[b := (if b in sent then sent[b] else []) + [tx]];
          broadcasts := P.Noted(broadcasts, tx, now);
          WaitAt(b, P.AwaitingReceipt(p.n, tx));
        case NoFunds =>
          FailForNow(b, now, OutOfGas);
          WaitAt(b, P.Done);
        case Lost =>
          FailForNow(b, now, SendFailed);
          WaitAt(b, P.Done);
      }
    }

    /** The search for the mint has ended, for a transfer just found minted or one that arrived without a hash. */
    method WithMint(b: Burn, found: Option<(TxHash, Minter)>, now: Time)
      requires b in records && b in jobs && (jobs[b].FindingMint? || jobs[b].SearchingAgain?)
      modifies this`records, this`jobs, this`lock
      ensures forall chain :: Abs(now, chain) == P.DoFound(old(Abs(now, chain)), b, old(jobs[b]), found)
    {
      if jobs[b].FindingMint? {
        match found {
          case Some((tx, who)) => HasArrived(b, now, Some(tx), who);
          case None => HasArrived(b, now, None, ByOther);
        }
        WaitAt(b, P.Done);
        return;
      }
      var r := records[b];
      match found {
        case Some((tx, who)) =>
          Update(b, r.(mintHash := Some(tx), mintedBy := Some(who), retryAt := None, attempts := 0));
        case None =>
          var attempts := r.attempts + 1;
          var more := r.signed.Some? && attempts < MINT_LOOKUP_ATTEMPTS;
          Update(b, r.(attempts := attempts, retryAt := if more then Some(now + RetryDelay(attempts + 1)) else None));
      }
      WaitAt(b, P.Done);
    }

    /** Nothing to mint yet: keep polling, or stop once the window has closed. */
    method PollAgain(b: Burn, begun: Time, now: Time)
      requires b in records
      modifies this`records, this`jobs, this`lock
      ensures forall chain :: Abs(now, chain) == P.AfterPoll(settings, old(Abs(now, chain)), b, begun)
    {
      var unseen := records[b].phase == Sent;
      var limit := if unseen && UNSEEN_TIMEOUT < settings.confirmTimeout then UNSEEN_TIMEOUT else settings.confirmTimeout;
      if now - begun >= limit {
        if unseen {
          Fail(b, Unseen);
        } else {
          FailForNow(b, now, ConfirmTimeout);
        }
        WaitAt(b, P.Done);
      }
    }

    /** One answer of Iris to the poll of an unsigned burn. */
    method WithIris(b: Burn, answer: P.IrisAnswer, now: Time)
      requires b in records && b in jobs && jobs[b].Polling?
      modifies this`records, this`jobs, this`lock
      ensures forall chain :: Abs(now, chain) == P.DoIris(settings, old(Abs(now, chain)), b, old(jobs[b]).begun, answer)
    {
      var begun := jobs[b].begun;
      match answer {
        case Complete(n) =>
          Update(b, records[b].(phase := Confirmed, signed := Some(n)));
          WaitAt(b, P.Queued);
          return;
        case Refuses =>
          Fail(b, Refused);
          WaitAt(b, P.Done);
          return;
        case PendingFinality =>
          if records[b].phase == Sent {
            Update(b, records[b].(phase := Confirming));
          }
          WaitAt(b, P.Polling(begun));
        case NoAnswer =>
      }
      PollAgain(b, begun, now);
    }
  }
}
