/**
 * The relay as a state machine (relayer/src/cctp/service.ts). One step is
 * what runs between two `await`s; every answer of Iris or of the chain, every
 * crash and every move of the clock is a choice of the environment.
 */
module RelayProtocol {
  import opened Wrappers
  import opened RelayRecords

  datatype Receipt = Pending | Success | Reverts

  datatype Mint = Mint(nonce: Nonce, receipt: Receipt)

  /** Base Sepolia: the nonces spent so far and the relay's own mint transactions. */
  datatype Chain = Chain(spent: set<Nonce>, mints: map<TxHash, Mint>)

  datatype Settings = Settings(dailyCap: nat, maxOpen: nat, confirmTimeout: nat)

  /** Where a job waits. */
  datatype Point =
    | CheckingGas
    | Polling(begun: Time)
    | Queued
    | EarlierReceipt(n: Nonce, tx: TxHash)
    | EarlierNonce(n: Nonce)
    | CheckingNonce(n: Nonce)
    | Simulating(n: Nonce)
    | SimulationFailed(n: Nonce, transient: bool)
    | Sending(n: Nonce, onChain: Option<TxHash>)
    | AwaitingReceipt(n: Nonce, tx: TxHash)
    | LastNonce(n: Nonce, reverted: bool)
    | FindingMint(n: Nonce)
    | CheckingBalance
    | SearchingAgain
    | Done

  /** What the relay did, in order: took the lock, read a nonce as unspent, had a mint reach the chain. */
  datatype Action = Took(b: Burn) | ReadUnspent(b: Burn, n: Nonce) | Broadcast(b: Burn, n: Nonce, tx: TxHash)

  /** A mint that reached the chain: for which burn, when, and when the relay recorded it, if it did. */
  datatype Attempt = Attempt(b: Burn, at: Time, recordedAt: Option<Time>)

  /**
   * `sent` lists the broadcasts recorded for each burn and `broadcasts` every
   * mint that reached the chain; with `log` they are history only.
   */
  datatype State = State(
    now: Time,
    records: map<Burn, Record>,
    jobs: map<Burn, Point>,
    lock: Option<Burn>,
    chain: Chain,
    sent: map<Burn, seq<TxHash>>,
    log: seq<Action>,
    broadcasts: map<TxHash, Attempt>)

  datatype IrisAnswer = Complete(n: Nonce) | Refuses | PendingFinality | NoAnswer

  datatype SendAnswer = Accepted | NoFunds | Lost

  datatype Event =
    | Tick(to: Time)
    | Request(b: Burn)
    | Retry(b: Burn)
    | Resume
    | Crash
    | GasAnswer(b: Burn, enough: bool)
    | IrisSays(b: Burn, answer: IrisAnswer)
    | TakeLock(b: Burn)
    | ReceiptSays(b: Burn, outcome: Receipt)
    | NonceSays(b: Burn)
    | SimulationSays(b: Burn, ok: bool, transient: bool)
    | MintReaches(b: Burn, tx: TxHash)
    | SendSays(b: Burn, response: SendAnswer)
    | MintFound(b: Burn, found: Option<(TxHash, Minter)>)
    | BalanceRead(b: Burn)
    | Throws(b: Burn)
    | Finishes(b: Burn)
    | Mined(tx: TxHash, ok: bool)
    | SomeoneSpends(n: Nonce)

  /** The points inside `mint`, where the job holds the lock. */
  predicate InMint(p: Point) { !(p.CheckingGas? || p.Polling? || p.Queued? || p.SearchingAgain? || p.Done?) }

  function SentBy(s: State, b: Burn): seq<TxHash> { if b in s.sent then s.sent[b] else [] }

  // ------------------------------------------------------------ daily cap

  /** Burns whose latest recorded broadcast is at or after `t`. */
  function SubmittedSince(records: map<Burn, Record>, t: Time): set<Burn>
  {
    set b | b in records && records[b].submittedAt.Some? && records[b].submittedAt.value >= t
  }

  predicate CapReached(c: Settings, s: State)
  {
    |SubmittedSince(s.records, StartOfUtcDay(s.now))| >= c.dailyCap
  }

  // ------------------------------------------------------------ job steps

  function ReleasedBy(s: State, b: Burn): Option<Burn> { if s.lock == Some(b) then None else s.lock }

  /** The job of `b` writes record `r` and goes on to wait at `p`, letting go of the lock when `mint` is over. */
  function Goes(s: State, b: Burn, r: Record, p: Point): State
  {
    s.(records := s.records[b := r], jobs := s.jobs[b := p], lock := if InMint(p) then s.lock else ReleasedBy(s, b))
  }

  /** Where `run` first waits. */
  function RunPoint(r: Record, now: Time): Point
  {
    if Settled(r) then Done else if r.signed.None? then Polling(now) else Queued
  }

  function Start(s: State, b: Burn): State
    requires b in s.records
  {
    if b in s.jobs then s else s.(jobs := s.jobs[b := RunPoint(s.records[b], s.now)])
  }

  function Rerun(s: State, b: Burn): State
    requires b in s.records
  {
    var r := Resumed(s.records[b]);
    Goes(s, b, r, RunPoint(r, s.now))
  }

  function DoRetry(c: Settings, s: State, b: Burn): State
  {
    if b !in s.records then s
    else
      var r := s.records[b];
      if r.retryAt.None? || r.retryAt.value > s.now then s
      else if b in s.jobs || |s.jobs| >= c.maxOpen then s
      else if r.phase == Arrived then s.(jobs := s.jobs[b := SearchingAgain])
      else if !Retrying(r) then s
      else if r.code == Some(OutOfGas) then s.(jobs := s.jobs[b := CheckingGas])
      else Rerun(s, b)
  }

  /** Burns that only get reported or retried: everything but new ones and the stops a new request starts over. */
  predicate OnlyReported(r: Record) { Retrying(r) || !(r.phase == Failed && r.retryable) }

  function DoRequest(c: Settings, s: State, b: Burn): State
  {
    if b in s.records && OnlyReported(s.records[b]) then
      if !Settled(s.records[b]) then Start(s, b) else DoRetry(c, s, b)
    else if |s.jobs| >= c.maxOpen then s
    else
      var r := if b in s.records then Restarted(s.records[b]) else NewRecord();
      Start(s.(records := s.records[b := r]), b)
  }

  function DoResume(s: State): State
  {
    s.(jobs := s.jobs + map b | b in s.records && !Settled(s.records[b]) && b !in s.jobs :: RunPoint(s.records[b], s.now))
  }

  /** A failure that ends the job. */
  function Fails(s: State, b: Burn, code: FailureCode): State
    requires b in s.records
  {
    Goes(s, b, Transient(s.records[b], s.now, code), Done)
  }

  function Stops(s: State, b: Burn, code: FailureCode): State
    requires b in s.records
  {
    Goes(s, b, Stopped(s.records[b], code), Done)
  }

  /** Nothing to mint yet: wait for the next poll, or stop once the window has closed. */
  function AfterPoll(c: Settings, s: State, b: Burn, begun: Time): State
    requires b in s.records
  {
    var unseen := s.records[b].phase == Sent;
    var limit := if unseen && UNSEEN_TIMEOUT < c.confirmTimeout then UNSEEN_TIMEOUT else c.confirmTimeout;
    if s.now - begun < limit then s else if unseen then Stops(s, b, Unseen) else Fails(s, b, ConfirmTimeout)
  }

  function DoIris(c: Settings, s: State, b: Burn, begun: Time, answer: IrisAnswer): State
    requires b in s.records
  {
    var r := s.records[b];
    match answer
    case Complete(n) => Goes(s, b, r.(phase := Confirmed, signed := Some(n)), Queued)
    case Refuses => Stops(s, b, Refused)
    case PendingFinality => AfterPoll(c, Goes(s, b, if r.phase == Sent then r.(phase := Confirming) else r, Polling(begun)), b, begun)
    case NoAnswer => AfterPoll(c, s, b, begun)
  }

  function DoTake(s: State, b: Burn): State
    requires b in s.records
  {
    var r := s.records[b];
    var s' := s.(lock := Some(b), log := s.log + [Took(b)]);
    if Settled(r) || r.signed.None? then Goes(s', b, r, Done)
    else if r.mintHash.Some? && r.mintedBy == Some(ByRelay) then Goes(s', b, r, EarlierReceipt(r.signed.value, r.mintHash.value))
    else Goes(s', b, r, CheckingNonce(r.signed.value))
  }

  /** A receipt can be answered only as the chain has it; `Pending` can always be the answer. */
  predicate Truthful(s: State, tx: TxHash, outcome: Receipt)
  {
    outcome == Pending || (tx in s.chain.mints && s.chain.mints[tx].receipt == outcome)
  }

  function DoReceipt(s: State, b: Burn, p: Point, outcome: Receipt): State
    requires b in s.records && (p.EarlierReceipt? || p.AwaitingReceipt?)
  {
    var r := s.records[b];
    if !Truthful(s, p.tx, outcome) then s
    else if outcome == Success then
      var p' := if p.EarlierReceipt? then Done else CheckingBalance;
      Goes(s, b, Arrive(r, s.now, Some(p.tx), ByRelay), p')
    else if p.AwaitingReceipt? then Goes(s, b, r, LastNonce(p.n, outcome == Reverts))
    else if outcome == Pending then Goes(s, b, r, EarlierNonce(p.n))
    else Goes(s, b, r, CheckingNonce(p.n))
  }

  function DoNonce(c: Settings, s: State, b: Burn, p: Point): State
    requires b in s.records
  {
    var r := s.records[b];
    match p
    case EarlierNonce(n) => if n in s.chain.spent then Goes(s, b, r, CheckingNonce(n)) else Fails(s, b, NotMined)
    case CheckingNonce(n) =>
      if n in s.chain.spent then Goes(s, b, r, FindingMint(n))
      else if CapReached(c, s) then Fails(s, b, DailyCap)
      else Goes(s.(log := s.log + [ReadUnspent(b, n)]), b, r, Simulating(n))
    case SimulationFailed(n, transient) =>
      if n in s.chain.spent then Goes(s, b, r, FindingMint(n))
      else if transient then Fails(s, b, Rpc)
      else Stops(s, b, MintRefused)
    case LastNonce(n, reverted) =>
      if n in s.chain.spent then Goes(s, b, r, FindingMint(n))
      else Fails(s, b, if reverted then Reverted else NotMined)
    case _ => s
  }

  function DoSimulation(s: State, b: Burn, n: Nonce, ok: bool, transient: bool): State
    requires b in s.records
  {
    Goes(s, b, s.records[b], if ok then Sending(n, None) else SimulationFailed(n, transient))
  }

  /** The mint reaches the chain, whether or not the relay will hear of it. */
  function DoReach(s: State, b: Burn, n: Nonce, tx: TxHash): State
  {
    if tx in s.chain.mints then s
    else s.(chain := s.chain.(mints := s.chain.mints[tx := Mint(n, Pending)]),
            jobs := s.jobs[b := Sending(n, Some(tx))],
            log := s.log + [Broadcast(b, n, tx)],
            broadcasts := s.broadcasts[tx := Attempt(b, s.now, None)])
  }

  /** The relay learns that `tx` was sent. */
  function Noted(broadcasts: map<TxHash, Attempt>, tx: TxHash, now: Time): map<TxHash, Attempt>
  {
    if tx in broadcasts then broadcasts[tx := broadcasts[tx].(recordedAt := Some(now))] else broadcasts
  }

  function DoSend(s: State, b: Burn, n: Nonce, onChain: Option<TxHash>, answer: SendAnswer): State
    requires b in s.records
  {
    match answer
    case Accepted =>
      if onChain.None? then s
      else
        var tx := onChain.value;
        var r := s.records[b].(phase := Submitted, mintHash := Some(tx), mintedBy := Some(ByRelay), submittedAt := Some(s.now));
        Goes(s.(sent := s.sent[b := SentBy(s, b) + [tx]], broadcasts := Noted(s.broadcasts, tx, s.now)), b, r, AwaitingReceipt(n, tx))
    case NoFunds => Fails(s, b, OutOfGas)
    case Lost => Fails(s, b, SendFailed)
  }

  function DoFound(s: State, b: Burn, p: Point, found: Option<(TxHash, Minter)>): State
    requires b in s.records
  {
    var r := s.records[b];
    if p == SearchingAgain then Goes(s, b, LookedUp(r, s.now, found), Done)
    else
      match found
      case Some((tx, who)) => Goes(s, b, Arrive(r, s.now, Some(tx), who), Done)
      case None => Goes(s, b, Arrive(r, s.now, None, ByOther), Done)
  }

  /** The points whose call may reject; the others catch every error themselves. */
  predicate MayThrow(p: Point)
  {
    p.Polling? || p.EarlierReceipt? || p.EarlierNonce? || p.CheckingNonce? || p.Simulating? || p.SimulationFailed?
    || p.AwaitingReceipt? || p.LastNonce?
  }

  function DoMine(s: State, tx: TxHash, ok: bool): State
  {
    if tx !in s.chain.mints || s.chain.mints[tx].receipt != Pending then s
    else
      var n := s.chain.mints[tx].nonce;
      if ok && n !in s.chain.spent then
        s.(chain := Chain(s.chain.spent + {n}, s.chain.mints[tx := Mint(n, Success)]))
      else s.(chain := s.chain.(mints := s.chain.mints[tx := Mint(n, Reverts)]))
  }

  /** A step of the job of `b`, waiting at `p`. */
  function JobStep(c: Settings, s: State, b: Burn, p: Point, e: Event): State
    requires b in s.records
  {
    match e
    case GasAnswer(_, enough) => if !p.CheckingGas? then s else if enough then Rerun(s, b) else Fails(s, b, OutOfGas)
    case IrisSays(_, answer) => if p.Polling? then DoIris(c, s, b, p.begun, answer) else s
    case TakeLock(_) => if p.Queued? && s.lock.None? then DoTake(s, b) else s
    case ReceiptSays(_, outcome) => if p.EarlierReceipt? || p.AwaitingReceipt? then DoReceipt(s, b, p, outcome) else s
    case NonceSays(_) => DoNonce(c, s, b, p)
    case SimulationSays(_, ok, transient) => if p.Simulating? then DoSimulation(s, b, p.n, ok, transient) else s
    case MintReaches(_, tx) => if p.Sending? && p.onChain.None? then DoReach(s, b, p.n, tx) else s
    case SendSays(_, answer) => if p.Sending? then DoSend(s, b, p.n, p.onChain, answer) else s
    case MintFound(_, found) => if p.FindingMint? || p.SearchingAgain? then DoFound(s, b, p, found) else s
    case BalanceRead(_) => if p.CheckingBalance? then Goes(s, b, s.records[b], Done) else s
    case Throws(_) => if !MayThrow(p) then s else if s.records[b].phase == Arrived then Goes(s, b, s.records[b], Done) else Fails(s, b, Unexpected)
    case Finishes(_) => if p.Done? then s.(jobs := s.jobs - {b}) else s
    case _ => s
  }

  predicate OfJob(e: Event) { !(e.Tick? || e.Request? || e.Retry? || e.Resume? || e.Crash? || e.Mined? || e.SomeoneSpends?) }

  /** One step. An event that cannot happen where the state stands changes nothing. */
  function Step(c: Settings, s: State, e: Event): State
  {
    match e
    case Tick(to) => if to < s.now then s else s.(now := to)
    case Request(b) => DoRequest(c, s, b)
    case Retry(b) => DoRetry(c, s, b)
    case Resume => DoResume(s)
    case Crash => s.(jobs := map[], lock := None)
    case Mined(tx, ok) => DoMine(s, tx, ok)
    case SomeoneSpends(n) => s.(chain := s.chain.(spent := s.chain.spent + {n}))
    case _ => if e.b in s.jobs && e.b in s.records then JobStep(c, s, e.b, s.jobs[e.b], e) else s
  }

  /** A relay that has never run, on a chain it has not touched. */
  function Initial(now: Time, spent: set<Nonce>): State
  {
    State(now, map[], map[], None, Chain(spent, map[]), map[], [], map[])
  }

  function Run(c: Settings, s: State, events: seq<Event>): State
  {
    if events == [] then s else Step(c, Run(c, s, events[..|events| - 1]), events[|events| - 1])
  }
}
