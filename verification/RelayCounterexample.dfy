/**
 * The daily cap counts burns, not mints: it reads only the latest recorded
 * broadcast of each burn. So one burn whose mints keep reverting can broadcast
 * more often in a day than the cap allows, and so can two burns when the
 * answer to one broadcast is lost.
 */
module RelayCounterexample {
  import opened Wrappers
  import opened RelayRecords
  import opened RelayProtocol
  import opened RelayInvariant
  import opened RelayCap

  lemma {:induction false} RunConcat(c: Settings, s: State, a: seq<Event>, b: seq<Event>)
    ensures Run(c, s, a + b) == Run(c, Run(c, s, a), b)
    decreases |b|
  {
    if b == [] {
      assert a + b == a;
    } else {
      RunConcat(c, s, a, b[..|b| - 1]);
      assert (a + b)[..|a + b| - 1] == a + b[..|b| - 1];
    }
  }

  lemma RunOne(c: Settings, s: State, e: Event)
    ensures Run(c, s, [e]) == Step(c, s, e)
  {
    assert [e][..0] == [];
  }

  /** One more step at the end of a run. */
  lemma RunThen(c: Settings, s: State, events: seq<Event>, e: Event)
    ensures Run(c, s, events + [e]) == Step(c, Run(c, s, events), e)
  {
    RunConcat(c, s, events, [e]);
    RunOne(c, Run(c, s, events), e);
  }

  /** The burn `b` is alone and about to read its unspent nonce inside the lock. */
  predicate AboutToMint(s: State, b: Burn, n: Nonce)
  {
    && s.records.Keys == {b} && s.jobs == map[b := CheckingNonce(n)] && s.lock == Some(b) && n !in s.chain.spent
    && !Settled(s.records[b]) && s.records[b].signed == Some(n)
    && (s.records[b].since.Some? ==> s.now - s.records[b].since.value < RETRY_GIVE_UP)
  }

  function Broadcasting(r: Record, tx: TxHash, now: Time): Record
  {
    r.(phase := Submitted, mintHash := Some(tx), mintedBy := Some(ByRelay), submittedAt := Some(now))
  }

  /** The mint was broadcast and reverted; the burn waits for its retry. */
  predicate Waiting(s: State, b: Burn, n: Nonce, r: Record, tx: TxHash)
  {
    && s.records == map[b := r] && s.jobs == map[] && s.lock == None && n !in s.chain.spent
    && tx in s.chain.mints && s.chain.mints[tx] == Mint(n, Reverts)
    && Retrying(r) && r.code == Some(Reverted) && r.signed == Some(n) && r.mintHash == Some(tx) && r.mintedBy == Some(ByRelay)
  }

  lemma OneBurn(records: map<Burn, Record>, b: Burn, t: Time)
    requires records.Keys == {b}
    ensures |SubmittedSince(records, t)| <= 1
  {
    SubsetSize(SubmittedSince(records, t), {b});
  }

  /** The burn `b` is alone, its job waiting inside `mint`. */
  predicate Alone(s: State, b: Burn, r: Record, p: Point)
  {
    s.records == map[b := r] && s.jobs == map[b := p] && s.lock == Some(b)
  }

  /** The job of `b` waits inside `mint`, whatever else goes on. */
  predicate Inside(s: State, b: Burn, r: Record, p: Point)
  {
    b in s.records && s.records[b] == r && b in s.jobs && s.jobs[b] == p && s.lock == Some(b)
  }

  /** One event of the job, which goes on to `p'` without touching the record. */
  lemma NextPoint(c: Settings, s: State, b: Burn, r: Record, p: Point, e: Event, p': Point)
    requires Inside(s, b, r, p) && OfJob(e) && e.b == b && InMint(p')
    requires JobStep(c, s, b, p, e).records == s.records[b := r] && JobStep(c, s, b, p, e).jobs == s.jobs[b := p']
    requires JobStep(c, s, b, p, e).lock == s.lock
    ensures Inside(Step(c, s, e), b, r, p') && Step(c, s, e) == JobStep(c, s, b, p, e)
    ensures Alone(s, b, r, p) ==> Alone(Step(c, s, e), b, r, p')
  {
    hide JobStep;
  }

  function Signed(n: Nonce): Record { NewRecord().(phase := Confirmed, signed := Some(n)) }

  lemma NoTime(c: Settings, s: State)
    ensures Step(c, s, Tick(s.now)) == s
  {
  }

  /** A new burn comes in, is signed, and its job takes the free lock. */
  lemma Begins(c: Settings, s: State, b: Burn, n: Nonce) returns (events: seq<Event>)
    requires b !in s.records && b !in s.jobs && s.lock.None? && |s.jobs| < c.maxOpen
    ensures Run(c, s, events)
         == s.(records := s.records[b := Signed(n)], jobs := s.jobs[b := CheckingNonce(n)], lock := Some(b), log := s.log + [Took(b)])
  {
    hide Step;
    events := [Request(b), IrisSays(b, Complete(n)), TakeLock(b), Tick(s.now)];
    var s2 := s.(records := s.records[b := Signed(n)], jobs := s.jobs[b := Queued]);
    assert Step(c, Step(c, s, events[0]), events[1]) == s2 by { IsSigned(c, s, b, n); }
    var s3 := s2.(jobs := s.jobs[b := CheckingNonce(n)], lock := Some(b), log := s.log + [Took(b)]);
    assert Step(c, s2, events[2]) == s3 by { TakesLock(c, s2, b, n); }
    NoTime(c, s3);
    Four(c, s, events);
  }

  lemma IsSigned(c: Settings, s: State, b: Burn, n: Nonce)
    requires b !in s.records && b !in s.jobs && s.lock.None? && |s.jobs| < c.maxOpen
    ensures Step(c, Step(c, s, Request(b)), IrisSays(b, Complete(n)))
         == s.(records := s.records[b := Signed(n)], jobs := s.jobs[b := Queued])
  {
    var s1 := s.(records := s.records[b := NewRecord()], jobs := s.jobs[b := Polling(s.now)]);
    assert Step(c, s, Request(b)) == s1;
    var s2 := DoIris(c, s1, b, s.now, Complete(n));
    assert s2.records == s.records[b := Signed(n)] && s2.jobs == s.jobs[b := Queued];
  }

  lemma TakesLock(c: Settings, s: State, b: Burn, n: Nonce)
    requires b in s.records && s.records[b] == Signed(n) && b in s.jobs && s.jobs[b] == Queued && s.lock.None?
    ensures Step(c, s, TakeLock(b)) == s.(jobs := s.jobs[b := CheckingNonce(n)], lock := Some(b), log := s.log + [Took(b)])
  {
    var s' := DoTake(s, b);
    assert s'.records == s.records && s'.jobs == s.jobs[b := CheckingNonce(n)];
  }

  /** From the read of the nonce until the mint is on chain. */
  lemma GetsOnChain(c: Settings, s: State, b: Burn, n: Nonce, r: Record, tx: TxHash) returns (events: seq<Event>)
    requires Inside(s, b, r, CheckingNonce(n)) && n !in s.chain.spent && !CapReached(c, s) && tx !in s.chain.mints
    ensures Run(c, s, events)
         == s.(jobs := s.jobs[b := Sending(n, Some(tx))], chain := s.chain.(mints := s.chain.mints[tx := Mint(n, Pending)]),
               log := s.log + [ReadUnspent(b, n)] + [Broadcast(b, n, tx)], broadcasts := s.broadcasts[tx := Attempt(b, s.now, None)])
  {
    hide Step;
    hide CapReached;
    events := [NonceSays(b), SimulationSays(b, true, false), MintReaches(b, tx), Tick(s.now)];
    PassesCap(c, s, b, n, r);
    var s1 := s.(jobs := s.jobs[b := Simulating(n)], log := s.log + [ReadUnspent(b, n)]);
    Simulates(c, s1, b, n, r);
    var s2 := s1.(jobs := s.jobs[b := Sending(n, None)]);
    ReachesChain(c, s2, b, n, r, tx);
    assert s2.jobs[b := Sending(n, Some(tx))] == s.jobs[b := Sending(n, Some(tx))];
    var s3 := s.(jobs := s.jobs[b := Sending(n, Some(tx))], chain := s.chain.(mints := s.chain.mints[tx := Mint(n, Pending)]),
                 log := s.log + [ReadUnspent(b, n)] + [Broadcast(b, n, tx)], broadcasts := s.broadcasts[tx := Attempt(b, s.now, None)]);
    NoTime(c, s3);
    Four(c, s, events);
    assert Step(c, s, events[0]) == s1;
    assert Step(c, s1, events[1]) == s2;
    assert Step(c, s2, events[2]) == s3;
  }

  lemma PassesCap(c: Settings, s: State, b: Burn, n: Nonce, r: Record)
    requires Inside(s, b, r, CheckingNonce(n)) && n !in s.chain.spent && !CapReached(c, s)
    ensures Step(c, s, NonceSays(b)) == s.(jobs := s.jobs[b := Simulating(n)], log := s.log + [ReadUnspent(b, n)])
  {
    hide CapReached;
    assert s.records[b := r] == s.records;
    NextPoint(c, s, b, r, CheckingNonce(n), NonceSays(b), Simulating(n));
  }

  lemma Simulates(c: Settings, s: State, b: Burn, n: Nonce, r: Record)
    requires Inside(s, b, r, Simulating(n))
    ensures Step(c, s, SimulationSays(b, true, false)) == s.(jobs := s.jobs[b := Sending(n, None)])
  {
    assert s.records[b := r] == s.records;
    NextPoint(c, s, b, r, Simulating(n), SimulationSays(b, true, false), Sending(n, None));
  }

  lemma ReachesChain(c: Settings, s: State, b: Burn, n: Nonce, r: Record, tx: TxHash)
    requires Inside(s, b, r, Sending(n, None)) && tx !in s.chain.mints
    ensures Step(c, s, MintReaches(b, tx))
         == s.(jobs := s.jobs[b := Sending(n, Some(tx))], chain := s.chain.(mints := s.chain.mints[tx := Mint(n, Pending)]),
               log := s.log + [Broadcast(b, n, tx)], broadcasts := s.broadcasts[tx := Attempt(b, s.now, None)])
  {
    assert Step(c, s, MintReaches(b, tx)) == JobStep(c, s, b, Sending(n, None), MintReaches(b, tx));
    assert JobStep(c, s, b, Sending(n, None), MintReaches(b, tx)) == DoReach(s, b, n, tx);
  }

  /** From the read of the nonce to the recorded broadcast. */
  lemma SendOnce(c: Settings, s: State, b: Burn, n: Nonce, tx: TxHash) returns (events: seq<Event>)
    requires AboutToMint(s, b, n) && c.dailyCap >= 2 && tx !in s.chain.mints
    ensures var s' := Run(c, s, events);
            && Alone(s', b, Broadcasting(s.records[b], tx, s.now), AwaitingReceipt(n, tx))
            && s'.now == s.now && s'.chain == Chain(s.chain.spent, s.chain.mints[tx := Mint(n, Pending)])
            && SentBy(s', b) == SentBy(s, b) + [tx]
  {
    hide Step;
    OneBurn(s.records, b, StartOfUtcDay(s.now));
    var r := s.records[b];
    var first := GetsOnChain(c, s, b, n, r, tx);
    assert s.records == map[b := r];
    Accepts(c, Run(c, s, first), b, r, n, tx);
    events := first + [SendSays(b, Accepted)];
    RunThen(c, s, first, SendSays(b, Accepted));
  }

  lemma Accepts(c: Settings, s: State, b: Burn, r: Record, n: Nonce, tx: TxHash)
    requires Alone(s, b, r, Sending(n, Some(tx)))
    ensures var s' := Step(c, s, SendSays(b, Accepted));
            && Alone(s', b, Broadcasting(r, tx, s.now), AwaitingReceipt(n, tx))
            && s'.now == s.now && s'.chain == s.chain && SentBy(s', b) == SentBy(s, b) + [tx]
  {
  }

  /** From the broadcast to its revert and the end of the job. */
  lemma RevertOnce(c: Settings, s: State, b: Burn, n: Nonce, r: Record, tx: TxHash) returns (events: seq<Event>)
    requires Alone(s, b, r, AwaitingReceipt(n, tx)) && tx in s.chain.mints && s.chain.mints[tx] == Mint(n, Pending)
    requires n !in s.chain.spent
    ensures |events| == 4
    ensures var s' := Run(c, s, events);
            && s'.records == map[b := Transient(r, s.now, Reverted)] && s'.jobs == map[] && s'.lock == None
            && s'.now == s.now && s'.sent == s.sent && s'.chain == Chain(s.chain.spent, s.chain.mints[tx := Mint(n, Reverts)])
  {
    hide Step;
    hide Transient;
    events := [Mined(tx, false), ReceiptSays(b, Reverts), NonceSays(b), Finishes(b)];
    var s1 := s.(chain := s.chain.(mints := s.chain.mints[tx := Mint(n, Reverts)]));
    MinedBadly(c, s, tx);
    NextPoint(c, s1, b, r, AwaitingReceipt(n, tx), events[1], LastNonce(n, true));
    var s2 := Step(c, s1, events[1]);
    Ends(c, s2, b, n, r);
    Four(c, s, events);
  }

  lemma MinedBadly(c: Settings, s: State, tx: TxHash)
    requires tx in s.chain.mints && s.chain.mints[tx].receipt == Pending
    ensures Step(c, s, Mined(tx, false))
         == s.(chain := s.chain.(mints := s.chain.mints[tx := Mint(s.chain.mints[tx].nonce, Reverts)]))
  {
  }

  lemma Ends(c: Settings, s: State, b: Burn, n: Nonce, r: Record)
    requires Alone(s, b, r, LastNonce(n, true)) && n !in s.chain.spent
    ensures Step(c, Step(c, s, NonceSays(b)), Finishes(b))
         == s.(records := map[b := Transient(r, s.now, Reverted)], jobs := map[], lock := None)
  {
    hide Step;
    hide Transient;
    var r' := Transient(r, s.now, Reverted);
    var s1 := s.(records := map[b := r'], jobs := map[b := Done], lock := None);
    EndsReverted(c, s, b, n, r);
    JobFinishes(c, s1, b);
    assert s1.jobs - {b} == map[];
  }

  lemma EndsReverted(c: Settings, s: State, b: Burn, n: Nonce, r: Record)
    requires Alone(s, b, r, LastNonce(n, true)) && n !in s.chain.spent
    ensures Step(c, s, NonceSays(b))
         == s.(records := map[b := Transient(r, s.now, Reverted)], jobs := map[b := Done], lock := None)
  {
    hide Transient;
  }

  lemma JobFinishes(c: Settings, s: State, b: Burn)
    requires b in s.records && b in s.jobs && s.jobs[b] == Done
    ensures Step(c, s, Finishes(b)) == s.(jobs := s.jobs - {b})
  {
  }

  /** One broadcast that reverts, under a cap of two or more. */
  lemma OneBroadcast(c: Settings, s: State, b: Burn, n: Nonce, tx: TxHash) returns (events: seq<Event>)
    requires AboutToMint(s, b, n) && c.dailyCap >= 2 && tx !in s.chain.mints
    ensures var s' := Run(c, s, events);
            && Waiting(s', b, n, Transient(Broadcasting(s.records[b], tx, s.now), s.now, Reverted), tx)
            && s'.now == s.now && SentBy(s', b) == SentBy(s, b) + [tx] && s'.chain.mints.Keys == s.chain.mints.Keys + {tx}
  {
    hide Step;
    hide Transient;
    var r := Broadcasting(s.records[b], tx, s.now);
    var first := SendOnce(c, s, b, n, tx);
    var rest := RevertOnce(c, Run(c, s, first), b, n, r, tx);
    events := first + rest;
    RunConcat(c, s, first, rest);
    Again(r, s.now);
  }

  lemma Again(r: Record, now: Time)
    requires r.since.Some? ==> now - r.since.value < RETRY_GIVE_UP
    ensures var r' := Transient(r, now, Reverted);
            Retrying(r') && r'.code == Some(Reverted) && r'.signed == r.signed && r'.mintHash == r.mintHash && r'.mintedBy == r.mintedBy
  {
  }

  lemma Four(c: Settings, s: State, e: seq<Event>)
    requires |e| == 4
    ensures Run(c, s, e) == Step(c, Step(c, Step(c, Step(c, s, e[0]), e[1]), e[2]), e[3])
  {
    hide Step;
    RunOne(c, s, e[0]);
    RunThen(c, s, [e[0]], e[1]);
    RunThen(c, s, [e[0], e[1]], e[2]);
    RunThen(c, s, [e[0], e[1], e[2]], e[3]);
    assert [e[0]] + [e[1]] == [e[0], e[1]] && [e[0], e[1]] + [e[2]] == [e[0], e[1], e[2]];
    assert [e[0], e[1], e[2]] + [e[3]] == e;
  }

  /** The retry comes due and finds the earlier broadcast reverted. */
  lemma RetryLater(c: Settings, s: State, b: Burn, n: Nonce, r: Record, tx: TxHash) returns (events: seq<Event>)
    requires Waiting(s, b, n, r, tx) && c.maxOpen >= 1 && s.now <= r.retryAt.value
    requires r.since.Some? && r.retryAt.value - r.since.value < RETRY_GIVE_UP
    ensures var s' := Run(c, s, events);
            && AboutToMint(s', b, n) && s'.now == r.retryAt.value && s'.records[b] == Resumed(r)
            && s'.sent == s.sent && s'.chain == s.chain
  {
    hide Step;
    events := [Tick(r.retryAt.value), Retry(b), TakeLock(b), ReceiptSays(b, Reverts)];
    var s2 := Requeued(c, s, b, r);
    TakesUpReverted(c, s2, b, n, Resumed(r), tx);
    Four(c, s, events);
  }

  lemma TakesUpReverted(c: Settings, s: State, b: Burn, n: Nonce, r: Record, tx: TxHash)
    requires s.records == map[b := r] && s.jobs == map[b := Queued] && s.lock.None?
    requires !Settled(r) && r.signed == Some(n) && r.mintHash == Some(tx) && r.mintedBy == Some(ByRelay)
    requires HasReverted(s.chain, tx) && n !in s.chain.spent && (r.since.Some? ==> s.now - r.since.value < RETRY_GIVE_UP)
    ensures var s' := Step(c, Step(c, s, TakeLock(b)), ReceiptSays(b, Reverts));
            AboutToMint(s', b, n) && s'.now == s.now && s'.records[b] == r && s'.sent == s.sent && s'.chain == s.chain
  {
    hide Step;
    hide JobStep;
    TakesAgain(c, s, b, n, r, tx);
    var s3 := Step(c, s, TakeLock(b));
    FindsReverted(c, s3, b, n, r, tx);
    NextPoint(c, s3, b, r, EarlierReceipt(n, tx), ReceiptSays(b, Reverts), CheckingNonce(n));
  }

  lemma Requeued(c: Settings, s: State, b: Burn, r: Record) returns (s': State)
    requires s.records == map[b := r] && s.jobs == map[] && s.lock.None? && c.maxOpen >= 1
    requires Retrying(r) && s.now <= r.retryAt.value && r.code != Some(OutOfGas) && r.signed.Some?
    ensures s' == Step(c, Step(c, s, Tick(r.retryAt.value)), Retry(b))
    ensures s' == s.(now := r.retryAt.value, records := map[b := Resumed(r)], jobs := map[b := Queued])
  {
    s' := Step(c, s.(now := r.retryAt.value), Retry(b));
    assert s'.records == map[b := Resumed(r)] && s'.jobs == map[b := Queued];
  }

  lemma TakesAgain(c: Settings, s: State, b: Burn, n: Nonce, r: Record, tx: TxHash)
    requires s.records == map[b := r] && s.jobs == map[b := Queued] && s.lock.None?
    requires !Settled(r) && r.signed == Some(n) && r.mintHash == Some(tx) && r.mintedBy == Some(ByRelay)
    ensures var s' := Step(c, s, TakeLock(b));
            Alone(s', b, r, EarlierReceipt(n, tx)) && s'.now == s.now && s'.chain == s.chain && s'.sent == s.sent
  {
  }

  lemma FindsReverted(c: Settings, s: State, b: Burn, n: Nonce, r: Record, tx: TxHash)
    requires Alone(s, b, r, EarlierReceipt(n, tx)) && HasReverted(s.chain, tx)
    ensures JobStep(c, s, b, EarlierReceipt(n, tx), ReceiptSays(b, Reverts)) == Goes(s, b, r, CheckingNonce(n))
  {
  }

  lemma FirstTime(c: Settings, b: Burn, n: Nonce) returns (events: seq<Event>)
    requires c.maxOpen >= 1
    ensures var s' := Run(c, Initial(0, {}), events);
            AboutToMint(s', b, n) && s'.now == 0 && SentBy(s', b) == [] && s'.chain == Chain({}, map[])
            && s'.records[b] == Signed(n)
  {
    hide Step;
    events := Begins(c, Initial(0, {}), b, n);
  }

  /** With a cap of two, one burn is broadcast three times within ninety seconds of one UTC day. */
  lemma CapCountsBurns(c: Settings, b: Burn, n: Nonce) returns (events: seq<Event>)
    requires c.dailyCap == 2 && c.maxOpen >= 1
    ensures var s := Run(c, Initial(0, {}), events);
            |SentBy(s, b)| == 3 > c.dailyCap && s.now == 90_000 < DAY
  {
    hide Step;
    hide AboutToMint;
    hide Waiting;
    var start := Initial(0, {});
    var e0 := FirstTime(c, b, n);
    var s0 := Run(c, start, e0);
    ReadyFacts(s0, b, n);
    var e1 := OneBroadcast(c, s0, b, n, 1);
    var s1 := Run(c, s0, e1);
    var r1 := Transient(Broadcasting(s0.records[b], 1, s0.now), s0.now, Reverted);
    DelayValues(1);
    assert r1.retryAt == Some(30_000) && r1.since == Some(0) && r1.attempts == 1;
    var e2 := RetryLater(c, s1, b, n, r1, 1);
    var s2 := Run(c, s1, e2);
    ReadyFacts(s2, b, n);
    var e3 := OneBroadcast(c, s2, b, n, 2);
    var s3 := Run(c, s2, e3);
    var r3 := Transient(Broadcasting(s2.records[b], 2, s2.now), s2.now, Reverted);
    assert r3.retryAt == Some(90_000) && r3.since == Some(0);
    var e4 := RetryLater(c, s3, b, n, r3, 2);
    var s4 := Run(c, s3, e4);
    ReadyFacts(s4, b, n);
    var e5 := OneBroadcast(c, s4, b, n, 3);
    events := e0 + e1 + e2 + e3 + e4 + e5;
    RunConcat(c, start, e0 + e1 + e2 + e3 + e4, e5);
    RunConcat(c, start, e0 + e1 + e2 + e3, e4);
    RunConcat(c, start, e0 + e1 + e2, e3);
    RunConcat(c, start, e0 + e1, e2);
    RunConcat(c, start, e0, e1);
  }

  lemma ReadyFacts(s: State, b: Burn, n: Nonce)
    requires AboutToMint(s, b, n)
    ensures b in s.records
  {
  }

  /**
   * With a cap of one, two burns are broadcast at the same moment: the answer
   * to the first was lost, so the store counts only the second. No burn is
   * repeated.
   */
  lemma LostBroadcastIsNotCounted(c: Settings, b: Burn, n: Nonce, b': Burn, n': Nonce) returns (events: seq<Event>)
    requires c.dailyCap == 1 && c.maxOpen >= 2 && b != b'
    ensures var s := Run(c, Initial(0, {}), events); var t := StartOfUtcDay(s.now);
            && |BroadcastSince(s, t)| == 2 > c.dailyCap && |SubmittedSince(s.records, t)| == 1
            && UnrecordedSince(s, t) == {1} && Repeats(s, t) == 0 && RecordedLate(s, t) == {}
  {
    hide Step;
    var start := Initial(0, {});
    var first := OneIsLost(c, b, n);
    var s := Run(c, start, first);
    var second := OneIsCounted(c, s, b', n');
    events := first + second;
    RunConcat(c, start, first, second);
    DayOfTwo(Run(c, start, events), b, b');
  }

  /** A first burn: its mint reaches the chain, the answer is lost. */
  lemma OneIsLost(c: Settings, b: Burn, n: Nonce) returns (events: seq<Event>)
    requires c.dailyCap == 1 && c.maxOpen >= 2
    ensures var s := Run(c, Initial(0, {}), events);
            && s.now == 0 && s.records == map[b := Transient(Signed(n), 0, SendFailed)] && s.jobs == map[b := Done] && s.lock.None?
            && s.chain == Chain({}, map[1 := Mint(n, Pending)]) && s.broadcasts == map[1 := Attempt(b, 0, None)]
  {
    hide Step;
    var start := Initial(0, {});
    var e0 := Begins(c, start, b, n);
    var s0 := Run(c, start, e0);
    NoneSubmitted(c, s0);
    var e1 := GetsOnChain(c, s0, b, n, Signed(n), 1);
    IsLost(c, Run(c, s0, e1), b, n, Signed(n), 1);
    events := e0 + e1 + [SendSays(b, Lost)];
    RunConcat(c, start, e0, e1);
    RunThen(c, start, e0 + e1, SendSays(b, Lost));
  }

  /** A second burn: its mint reaches the chain and is recorded. */
  lemma OneIsCounted(c: Settings, s: State, b: Burn, n: Nonce) returns (events: seq<Event>)
    requires c.dailyCap == 1 && |s.jobs| < c.maxOpen && b !in s.records && b !in s.jobs && s.lock.None?
    requires n !in s.chain.spent && 2 !in s.chain.mints && forall x | x in s.records :: s.records[x].submittedAt.None?
    ensures var s' := Run(c, s, events);
            && s'.now == s.now && s'.records == s.records[b := Broadcasting(Signed(n), 2, s.now)]
            && s'.broadcasts == s.broadcasts[2 := Attempt(b, s.now, Some(s.now))]
  {
    hide Step;
    hide Run;
    hide CapReached;
    var e0 := Begins(c, s, b, n);
    var s0 := Run(c, s, e0);
    NoneSubmitted(c, s0);
    var e1 := GetsOnChain(c, s0, b, n, Signed(n), 2);
    IsAccepted(c, Run(c, s0, e1), b, n, Signed(n), 2);
    events := e0 + e1 + [SendSays(b, Accepted)];
    RunConcat(c, s, e0, e1);
    RunThen(c, s, e0 + e1, SendSays(b, Accepted));
  }

  lemma NoneSubmitted(c: Settings, s: State)
    requires c.dailyCap >= 1 && forall b | b in s.records :: s.records[b].submittedAt.None?
    ensures !CapReached(c, s)
  {
    assert SubmittedSince(s.records, StartOfUtcDay(s.now)) == {};
  }

  lemma IsLost(c: Settings, s: State, b: Burn, n: Nonce, r: Record, tx: TxHash)
    requires Inside(s, b, r, Sending(n, Some(tx)))
    ensures Step(c, s, SendSays(b, Lost))
         == s.(records := s.records[b := Transient(r, s.now, SendFailed)], jobs := s.jobs[b := Done], lock := None)
  {
    hide Transient;
  }

  lemma IsAccepted(c: Settings, s: State, b: Burn, n: Nonce, r: Record, tx: TxHash)
    requires Inside(s, b, r, Sending(n, Some(tx)))
    ensures var s' := Step(c, s, SendSays(b, Accepted));
            && s'.now == s.now && s'.records == s.records[b := Broadcasting(r, tx, s.now)]
            && s'.broadcasts == Noted(s.broadcasts, tx, s.now)
  {
  }

  lemma DayOfTwo(s: State, b: Burn, b': Burn)
    requires b != b' && s.now == 0 && s.records.Keys == {b, b'}
    requires s.records[b].submittedAt.None? && s.records[b'].submittedAt == Some(0)
    requires s.broadcasts == map[1 := Attempt(b, 0, None), 2 := Attempt(b', 0, Some(0))]
    ensures |BroadcastSince(s, 0)| == 2 && |SubmittedSince(s.records, 0)| == 1
    ensures UnrecordedSince(s, 0) == {1} && Repeats(s, 0) == 0 && RecordedLate(s, 0) == {}
  {
    assert BroadcastSince(s, 0) == {1, 2};
    assert SubmittedSince(s.records, 0) == {b'};
    assert RecordedSince(s, 0) == {2};
    assert BurnsOf(s, {2}) == {b'};
  }
}
