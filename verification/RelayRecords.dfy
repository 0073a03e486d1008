/** Relay records, one per burn, and how a failure or an arrival changes one (relayer/src/cctp/store.ts, service.ts). */
module RelayRecords {
  import opened Wrappers

  /** Unix milliseconds. */
  type Time = nat

  /** Stellar burn hashes, CCTP nonces and Base Sepolia transaction hashes, as plain identifiers. */
  type Burn = nat

  type Nonce = nat

  type TxHash = nat

  datatype Phase = Sent | Confirming | Confirmed | Submitted | Arrived | Failed

  datatype FailureCode =
    | ConfirmTimeout | Rpc | OutOfGas | DailyCap | SendFailed | NotMined | Reverted | Unexpected
    | Refused | MintRefused | Unseen | GaveUp

  datatype Minter = ByRelay | ByOther

  /**
   * `signed` is the nonce, stored together with the message and its
   * attestation. `attempts` is 0 where the source leaves it unset.
   */
  datatype Record = Record(
    phase: Phase,
    signed: Option<Nonce>,
    mintHash: Option<TxHash>,
    mintedBy: Option<Minter>,
    code: Option<FailureCode>,
    retryable: bool,
    retryAt: Option<Time>,
    attempts: nat,
    since: Option<Time>,
    submittedAt: Option<Time>)

  const DAY: nat := 86_400_000
  const RETRY_INITIAL: nat := 30_000
  const RETRY_MAX: nat := 900_000
  const RETRY_GIVE_UP: nat := DAY
  const MINT_LOOKUP_ATTEMPTS: nat := 8
  const UNSEEN_TIMEOUT: nat := 600_000

  predicate Settled(r: Record) { r.phase == Arrived || r.phase == Failed }

  predicate Retrying(r: Record) { r.phase == Failed && r.retryAt.Some? }

  /** The two refusals, which never change. */
  predicate Final(code: FailureCode) { code == Refused || code == MintRefused }

  function StartOfUtcDay(t: Time): Time { t - t % DAY }

  function Pow2(n: nat): (p: nat)
    ensures p >= 1
  {
    if n == 0 then 1 else 2 * Pow2(n - 1)
  }

  function RetryDelay(attempt: nat): nat
  {
    var d := RETRY_INITIAL * Pow2(if attempt == 0 then 0 else attempt - 1);
    if d < RETRY_MAX then d else RETRY_MAX
  }

  // ------------------------------------------------------- record updates

  function NewRecord(): Record { Record(Sent, None, None, None, None, false, None, 0, None, None) }

  function Stage(r: Record): Phase { if r.signed.Some? then Confirmed else Sent }

  function Restarted(r: Record): Record
  {
    r.(phase := Stage(r), code := None, retryable := false, retryAt := None, attempts := 0, since := None)
  }

  function Resumed(r: Record): Record
  {
    r.(phase := Stage(r), code := None, retryable := false, retryAt := None)
  }

  function Stopped(r: Record, code: FailureCode): Record
  {
    r.(phase := Failed, retryable := !Final(code), code := Some(code), retryAt := None)
  }

  /** When the streak `r` is in began, if it fails again now. */
  function StreakStart(r: Record, now: Time): Time { if r.since.Some? then r.since.value else now }

  function Transient(r: Record, now: Time, code: FailureCode): Record
  {
    var since, attempts := StreakStart(r, now), r.attempts + 1;
    if now - since >= RETRY_GIVE_UP then Stopped(r.(attempts := attempts, since := Some(since)), GaveUp)
    else
      var retryAt := if code == DailyCap then StartOfUtcDay(now) + DAY else now + RetryDelay(attempts);
      r.(phase := Failed, retryable := true, code := Some(code), retryAt := Some(retryAt), attempts := attempts, since := Some(since))
  }

  function Arrive(r: Record, now: Time, mintHash: Option<TxHash>, mintedBy: Minter): Record
  {
    r.(phase := Arrived, mintHash := mintHash, mintedBy := Some(mintedBy), code := None, retryable := false,
       retryAt := if mintHash.Some? then None else Some(now + RETRY_INITIAL), attempts := 0, since := None)
  }

  /** Another search for the mint of an arrived transfer. */
  function LookedUp(r: Record, now: Time, found: Option<(TxHash, Minter)>): Record
  {
    match found
    case Some((tx, who)) => r.(mintHash := Some(tx), mintedBy := Some(who), retryAt := None, attempts := 0)
    case None =>
      var attempts := r.attempts + 1;
      var more := r.signed.Some? && attempts < MINT_LOOKUP_ATTEMPTS;
      r.(attempts := attempts, retryAt := if more then Some(now + RetryDelay(attempts + 1)) else None)
  }

  // ------------------------------------------------------- pacing of a streak

  /** The waits before attempts 2 to `k + 1`, were none of them for the daily cap. */
  function Elapsed(k: nat): nat
  {
    if k == 0 then 0 else Elapsed(k - 1) + RetryDelay(k)
  }

  lemma {:induction false} PowAtLeast(n: nat)
    requires n >= 5
    ensures Pow2(n) >= 32
  {
    if n == 5 {
      assert Pow2(1) == 2 && Pow2(2) == 4 && Pow2(3) == 8 && Pow2(4) == 16;
    } else {
      PowAtLeast(n - 1);
    }
  }

  /** The delays are 30, 60, 120, 240, 480 and then 900 seconds. */
  lemma DelayValues(k: nat)
    ensures RetryDelay(1) == 30_000 && RetryDelay(2) == 60_000 && RetryDelay(3) == 120_000
    ensures RetryDelay(4) == 240_000 && RetryDelay(5) == 480_000
    ensures k >= 6 ==> RetryDelay(k) == RETRY_MAX
    ensures 0 < RetryDelay(k) <= RETRY_MAX
  {
    assert Pow2(0) == 1 && Pow2(1) == 2 && Pow2(2) == 4 && Pow2(3) == 8 && Pow2(4) == 16;
    if k >= 6 {
      PowAtLeast(k - 1);
    }
  }

  lemma {:induction false} ElapsedValue(k: nat)
    requires k >= 5
    ensures Elapsed(k) == 930_000 + (k - 5) * RETRY_MAX
  {
    DelayValues(k);
    if k == 5 {
      assert Elapsed(1) == 30_000;
      assert Elapsed(2) == 90_000;
      assert Elapsed(3) == 210_000;
      assert Elapsed(4) == 450_000;
    } else {
      ElapsedValue(k - 1);
    }
  }

  /**
   * Moment `x` is late enough for attempt `k + 1` of a streak that began at
   * `since`: all the waits are over, or all but one of them that was cut short by a
   * UTC midnight, or the streak has outlived the deadline.
   */
  predicate Paced(since: Time, k: nat, x: Time)
  {
    || x >= since + Elapsed(k)
    || (x + RETRY_MAX >= since + Elapsed(k) && x / DAY > since / DAY)
    || x >= since + RETRY_GIVE_UP
  }

  lemma PacedLater(since: Time, k: nat, x: Time, y: Time)
    requires Paced(since, k, x) && x <= y
    ensures Paced(since, k, y)
  {
    DayMonotone(x, y);
  }

  lemma DayMonotone(x: Time, y: Time)
    requires x <= y
    ensures x / DAY <= y / DAY
  {
  }

  /** The next UTC midnight is later, on the next day, and at least two days after the day before. */
  lemma NextMidnight(t: Time)
    ensures t < StartOfUtcDay(t) + DAY && (StartOfUtcDay(t) + DAY) / DAY == t / DAY + 1
    ensures StartOfUtcDay(t) + DAY == (t / DAY + 1) * DAY
  {
    var q := t / DAY;
    assert t == q * DAY + t % DAY;
    assert StartOfUtcDay(t) + DAY == (q + 1) * DAY;
  }

  const MOST_RETRIES: nat := 101

  /** A streak that has not reached the deadline has seen few attempts. */
  lemma FewAttempts(since: Time, k: nat, now: Time)
    requires Paced(since, k, now) && now - since < RETRY_GIVE_UP
    ensures k + 1 <= MOST_RETRIES
  {
    if k >= MOST_RETRIES {
      ElapsedValue(k);
    }
  }

  /** One more transient failure keeps the streak paced: its next attempt is late enough again. */
  lemma PacedOnce(since: Time, k: nat, now: Time, code: FailureCode)
    requires Paced(since, k, now) && since <= now && now - since < RETRY_GIVE_UP
    ensures Paced(since, k + 1, if code == DailyCap then StartOfUtcDay(now) + DAY else now + RetryDelay(k + 1))
  {
    DelayValues(k + 1);
    if code == DailyCap {
      NextMidnight(now);
      DayMonotone(since, now);
      if now / DAY > since / DAY {
        NextMidnight(since);
        assert (now / DAY + 1) * DAY >= (since / DAY + 2) * DAY;
      }
    } else {
      DayMonotone(now, now + RetryDelay(k + 1));
    }
  }
}
