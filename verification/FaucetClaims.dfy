/** Recorded claims and the limits on them (relayer/src/faucet/store.ts, service.ts). */
module FaucetClaims {
  import opened Wrappers

  type Time = nat

  const DAY: nat := 86_400_000

  datatype Claimant = Claimant(address: string, stellar: string, userKey: string)

  datatype Claim = Claim(who: Claimant, ip: string, at: Time)

  datatype Limits = Limits(dailyCap: nat, ipClaims: nat, ipWindow: nat, amountSat: nat)

  datatype Refusal = AccountClaimed | StellarClaimed | AddressClaimed | IpCooldown(freesAt: Time) | DailyCapReached

  function StartOfUtcDay(t: Time): Time { t - t % DAY }

  predicate HasUser(claims: seq<Claim>, key: string) { exists c | c in claims :: c.who.userKey == key }

  predicate HasStellar(claims: seq<Claim>, stellar: string) { exists c | c in claims :: c.who.stellar == stellar }

  predicate HasAddress(claims: seq<Claim>, address: string) { exists c | c in claims :: c.who.address == address }

  /** The times of the claims from `ip` at or after `since`; `since` may lie before the epoch. */
  function IpTimes(claims: seq<Claim>, ip: string, since: int): seq<Time>
  {
    if claims == [] then []
    else
      var c := claims[|claims| - 1];
      IpTimes(claims[..|claims| - 1], ip, since) + if c.ip == ip && c.at >= since then [c.at] else []
  }

  function CountSince(claims: seq<Claim>, since: Time): nat
  {
    if claims == [] then 0
    else CountSince(claims[..|claims| - 1], since) + if claims[|claims| - 1].at >= since then 1 else 0
  }

  /**
   * What `checkLimits` answers at `t`. Before the login is verified the
   * account is not known yet, so `user` says whether to look at it.
   */
  function Check(l: Limits, claims: seq<Claim>, who: Claimant, user: bool, ip: string, t: Time): Option<Refusal>
  {
    var times := IpTimes(claims, ip, t - l.ipWindow + 1);
    if user && HasUser(claims, who.userKey) then Some(AccountClaimed)
    else if HasStellar(claims, who.stellar) then Some(StellarClaimed)
    else if HasAddress(claims, who.address) then Some(AddressClaimed)
    else if |times| >= l.ipClaims then Some(IpCooldown(if l.ipClaims == 0 then t else times[|times| - l.ipClaims] + l.ipWindow))
    else if CountSince(claims, StartOfUtcDay(t)) >= l.dailyCap then Some(DailyCapReached)
    else None
  }

  // ------------------------------------------------------------ the ledger

  predicate InOrder(claims: seq<Claim>) { forall i, j | 0 <= i < j < |claims| :: claims[i].at <= claims[j].at }

  predicate Distinct(claims: seq<Claim>)
  {
    forall i, j | 0 <= i < j < |claims| ::
      && claims[i].who.userKey != claims[j].who.userKey && claims[i].who.stellar != claims[j].who.stellar
      && claims[i].who.address != claims[j].who.address
  }

  /** Claim `c` was within the limits after `earlier`. */
  predicate Within(l: Limits, earlier: seq<Claim>, c: Claim)
  {
    |IpTimes(earlier, c.ip, c.at - l.ipWindow + 1)| < l.ipClaims && CountSince(earlier, StartOfUtcDay(c.at)) < l.dailyCap
  }

  /** Each claim was within the limits when it was recorded. */
  predicate Admitted(l: Limits, claims: seq<Claim>)
  {
    claims == [] || (Admitted(l, claims[..|claims| - 1]) && Within(l, claims[..|claims| - 1], claims[|claims| - 1]))
  }

  predicate LedgerOk(l: Limits, claims: seq<Claim>, now: Time)
  {
    && InOrder(claims) && Distinct(claims) && Admitted(l, claims)
    && (forall c | c in claims :: c.at <= now)
  }

  lemma {:induction false} IpTimesFewer(claims: seq<Claim>, ip: string, s: int, t: int)
    requires s <= t
    ensures |IpTimes(claims, ip, t)| <= |IpTimes(claims, ip, s)|
  {
    if claims != [] {
      IpTimesFewer(claims[..|claims| - 1], ip, s, t);
    }
  }

  lemma {:induction false} CountFewer(claims: seq<Claim>, s: Time, t: Time)
    requires s <= t
    ensures CountSince(claims, t) <= CountSince(claims, s)
  {
    if claims != [] {
      CountFewer(claims[..|claims| - 1], s, t);
    }
  }

  lemma DayMonotone(s: Time, t: Time)
    requires s <= t
    ensures StartOfUtcDay(s) <= StartOfUtcDay(t)
  {
    assert s / DAY <= t / DAY;
    assert s == (s / DAY) * DAY + s % DAY && t == (t / DAY) * DAY + t % DAY;
    assert (s / DAY) * DAY <= (t / DAY) * DAY;
  }

  /** A claim that passed the check may be recorded any time later, if nothing was recorded in between. */
  lemma RecordKeeps(l: Limits, claims: seq<Claim>, c: Claim, checked: Time)
    requires LedgerOk(l, claims, checked) && Check(l, claims, c.who, true, c.ip, checked) == None && checked <= c.at
    ensures LedgerOk(l, claims + [c], c.at)
  {
    var all := claims + [c];
    StillWithin(l, claims, c, checked);
    assert all[..|all| - 1] == claims;
    forall i, j | 0 <= i < j < |all|
      ensures all[i].at <= all[j].at && all[i].who.userKey != all[j].who.userKey
           && all[i].who.stellar != all[j].who.stellar && all[i].who.address != all[j].who.address
    {
      if j == |claims| {
        assert claims[i] in claims;
      }
    }
  }

  lemma StillWithin(l: Limits, claims: seq<Claim>, c: Claim, checked: Time)
    requires Check(l, claims, c.who, true, c.ip, checked) == None && checked <= c.at
    ensures Within(l, claims, c)
  {
    hide HasUser;
    hide HasStellar;
    hide HasAddress;
    IpTimesFewer(claims, c.ip, checked - l.ipWindow + 1, c.at - l.ipWindow + 1);
    DayMonotone(checked, c.at);
    CountFewer(claims, StartOfUtcDay(checked), StartOfUtcDay(c.at));
  }

  // ------------------------------------------------------ intervals and days

  /** Claims from `ip` at times in `[from, to)`. */
  function IpBetween(claims: seq<Claim>, ip: string, from: int, to: int): nat
  {
    if claims == [] then 0
    else
      var c := claims[|claims| - 1];
      IpBetween(claims[..|claims| - 1], ip, from, to) + if c.ip == ip && from <= c.at < to then 1 else 0
  }

  function Between(claims: seq<Claim>, from: Time, to: Time): nat
  {
    if claims == [] then 0
    else
      var c := claims[|claims| - 1];
      Between(claims[..|claims| - 1], from, to) + if from <= c.at < to then 1 else 0
  }

  lemma {:induction false} IpBetweenAtMost(claims: seq<Claim>, ip: string, from: int, to: int, since: int)
    requires since <= from
    ensures IpBetween(claims, ip, from, to) <= |IpTimes(claims, ip, since)|
  {
    if claims != [] {
      IpBetweenAtMost(claims[..|claims| - 1], ip, from, to, since);
    }
  }

  lemma {:induction false} BetweenAtMost(claims: seq<Claim>, from: Time, to: Time, since: Time)
    requires since <= from
    ensures Between(claims, from, to) <= CountSince(claims, since)
  {
    if claims != [] {
      BetweenAtMost(claims[..|claims| - 1], from, to, since);
    }
  }

  /** Every interval of `ipWindow` milliseconds holds at most the allowance from one IP. */
  lemma {:induction false} WindowHolds(l: Limits, claims: seq<Claim>, ip: string, from: int)
    requires Admitted(l, claims)
    ensures IpBetween(claims, ip, from, from + l.ipWindow) <= l.ipClaims
    decreases |claims|
  {
    if claims != [] {
      var shorter, c := claims[..|claims| - 1], claims[|claims| - 1];
      if c.ip == ip && from <= c.at < from + l.ipWindow {
        IpBetweenAtMost(shorter, ip, from, from + l.ipWindow, c.at - l.ipWindow + 1);
      } else {
        WindowHolds(l, shorter, ip, from);
      }
    }
  }

  /** Every UTC day holds at most the daily cap. */
  lemma {:induction false} DayHolds(l: Limits, claims: seq<Claim>, day: nat)
    requires Admitted(l, claims)
    ensures Between(claims, day * DAY, (day + 1) * DAY) <= l.dailyCap
    decreases |claims|
  {
    if claims != [] {
      var shorter, c := claims[..|claims| - 1], claims[|claims| - 1];
      if day * DAY <= c.at < (day + 1) * DAY {
        DayOf(c.at, day);
        BetweenAtMost(shorter, day * DAY, (day + 1) * DAY, day * DAY);
      } else {
        DayHolds(l, shorter, day);
      }
    }
  }

  lemma DayOf(t: Time, day: nat)
    requires day * DAY <= t < (day + 1) * DAY
    ensures StartOfUtcDay(t) == day * DAY
  {
    assert t / DAY == day;
  }

  // ------------------------------------------------------------ the check

  /** The recorded claims of a kind, by their places. */
  function FromIp(claims: seq<Claim>, ip: string, since: int): set<nat>
  {
    set i | 0 <= i < |claims| && claims[i].ip == ip && claims[i].at >= since
  }

  function RecordedSince(claims: seq<Claim>, since: int): set<nat> { set i | 0 <= i < |claims| && claims[i].at >= since }

  lemma {:induction false} FromIpCounts(claims: seq<Claim>, ip: string, since: int)
    ensures |IpTimes(claims, ip, since)| == |FromIp(claims, ip, since)|
  {
    if claims != [] {
      var front, last := claims[..|claims| - 1], claims[|claims| - 1];
      FromIpCounts(front, ip, since);
      assert FromIp(claims, ip, since) == FromIp(front, ip, since) + (if last.ip == ip && last.at >= since then {|front|} else {});
    }
  }

  lemma {:induction false} RecordedCounts(claims: seq<Claim>, since: Time)
    ensures CountSince(claims, since) == |RecordedSince(claims, since)|
  {
    if claims != [] {
      var front, last := claims[..|claims| - 1], claims[|claims| - 1];
      RecordedCounts(front, since);
      assert RecordedSince(claims, since) == RecordedSince(front, since) + (if last.at >= since then {|front|} else {});
    }
  }

  /**
   * Who is refused, and why: an account, once it is known, a Stellar address
   * or a Signet address that has claimed before, in this order; then an IP
   * with its allowance used up within the window that ends now; then anyone
   * once the day's claims have reached the cap.
   */
  lemma CheckMeaning(l: Limits, claims: seq<Claim>, who: Claimant, user: bool, ip: string, t: Time)
    ensures var r := Check(l, claims, who, user, ip, t);
            var account := user && exists i | 0 <= i < |claims| :: claims[i].who.userKey == who.userKey;
            var stellar := exists i | 0 <= i < |claims| :: claims[i].who.stellar == who.stellar;
            var address := exists i | 0 <= i < |claims| :: claims[i].who.address == who.address;
            var full := |FromIp(claims, ip, t - l.ipWindow + 1)| >= l.ipClaims;
            var spent := |RecordedSince(claims, t - t % 86_400_000)| >= l.dailyCap;
            && (r == Some(AccountClaimed) <==> account)
            && (r == Some(StellarClaimed) <==> !account && stellar)
            && (r == Some(AddressClaimed) <==> !account && !stellar && address)
            && (r.Some? && r.value.IpCooldown? <==> !account && !stellar && !address && full)
            && (r == Some(DailyCapReached) <==> !account && !stellar && !address && !full && spent)
            && (r == None <==> !account && !stellar && !address && !full && !spent)
  {
    hide IpTimes;
    hide CountSince;
    FromIpCounts(claims, ip, t - l.ipWindow + 1);
    RecordedCounts(claims, StartOfUtcDay(t));
  }

  // ------------------------------------------------------------ retry hints

  /** `late` are the last of `all`: those at or after `t`; none is past `top`. */
  predicate LateOnes(all: seq<Time>, late: seq<Time>, t: int, top: int)
  {
    && |late| <= |all| && all[|all| - |late|..] == late
    && (forall i | 0 <= i < |all| - |late| :: all[i] < t)
    && (forall i | 0 <= i < |late| :: late[i] >= t) && (forall i | 0 <= i < |all| :: all[i] <= top)
  }

  lemma OneMoreLate(all: seq<Time>, late: seq<Time>, t: int, top: int, x: Time)
    requires LateOnes(all, late, t, x) && t <= x <= top
    ensures LateOnes(all + [x], late + [x], t, top)
  {
    assert (all + [x])[|all| - |late|..] == all[|all| - |late|..] + [x];
  }

  lemma OneMoreEarly(all: seq<Time>, late: seq<Time>, t: int, top: int, x: Time)
    requires LateOnes(all, late, t, x) && x < t && x <= top
    ensures late == [] && LateOnes(all + [x], [], t, top)
  {
    NoneLate(all, late, t, x);
  }

  lemma NoneLate(all: seq<Time>, late: seq<Time>, t: int, top: int)
    requires LateOnes(all, late, t, top)
    ensures late == [] || top >= t
  {
    if late != [] {
      assert all[|all| - |late|] == late[0];
    }
  }

  lemma LaterTop(all: seq<Time>, late: seq<Time>, t: int, top: int, top': int)
    requires LateOnes(all, late, t, top) && top <= top'
    ensures LateOnes(all, late, t, top')
  {
  }

  lemma {:induction false} LaterIsSuffix(claims: seq<Claim>, ip: string, s: int, t: int, top: Time)
    requires InOrder(claims) && s <= t && forall i | 0 <= i < |claims| :: claims[i].at <= top
    ensures LateOnes(IpTimes(claims, ip, s), IpTimes(claims, ip, t), t, top)
    decreases |claims|
  {
    if claims != [] {
      hide LateOnes;
      var shorter, c := claims[..|claims| - 1], claims[|claims| - 1];
      LaterIsSuffix(shorter, ip, s, t, c.at);
      var all, late := IpTimes(shorter, ip, s), IpTimes(shorter, ip, t);
      if c.ip == ip && s <= c.at {
        if c.at >= t {
          OneMoreLate(all, late, t, top, c.at);
        } else {
          OneMoreEarly(all, late, t, top, c.at);
        }
      } else {
        LaterTop(all, late, t, c.at, top);
      }
    }
  }

  /** Of enough times, `n` are late if and only if the `n`th from the end is. */
  lemma LateFromTheEnd(all: seq<Time>, late: seq<Time>, t: int, top: int, n: nat)
    requires LateOnes(all, late, t, top) && 1 <= n <= |all|
    ensures |late| >= n <==> all[|all| - n] >= t
  {
    var k := |all| - n;
    if |late| >= n {
      assert all[|all| - |late|..][k - (|all| - |late|)] == all[k];
    }
  }

  /**
   * The time an IP refusal names is exact: if nothing more is recorded, the IP
   * is within its allowance from that moment on and not a millisecond earlier.
   */
  lemma CooldownIsExact(l: Limits, claims: seq<Claim>, who: Claimant, user: bool, ip: string, t: Time, later: Time)
    requires InOrder(claims) && l.ipClaims >= 1 && t <= later
    requires Check(l, claims, who, user, ip, t).Some? && Check(l, claims, who, user, ip, t).value.IpCooldown?
    ensures |IpTimes(claims, ip, later - l.ipWindow + 1)| < l.ipClaims
       <==> later >= Check(l, claims, who, user, ip, t).value.freesAt
  {
    hide IpTimes;
    hide LateOnes;
    var all, late := IpTimes(claims, ip, t - l.ipWindow + 1), IpTimes(claims, ip, later - l.ipWindow + 1);
    var top := if claims == [] then 0 else claims[|claims| - 1].at;
    LaterIsSuffix(claims, ip, t - l.ipWindow + 1, later - l.ipWindow + 1, top);
    LateFromTheEnd(all, late, later - l.ipWindow + 1, top, l.ipClaims);
  }
}
