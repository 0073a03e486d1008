/** The faucet object (relayer/src/faucet/service.ts): its claims, reservations and change, changed in place. */
module Faucet {
  import opened Wrappers
  import opened FaucetClaims
  import P = FaucetProtocol
  import CoinSelection

  class SignetFaucet {
    const limits: Limits
    var claims: seq<Claim>
    var reserved: map<P.Outpoint, Time>
    var pending: seq<P.Change>
    ghost var stage: P.Stage
    ghost var sent: seq<P.Broadcast>
    ghost var pruned: Time

    ghost function Abs(now: Time): P.State
      reads this
    {
      P.State(now, claims, reserved, pending, stage, sent, pruned)
    }

    constructor (limits: Limits, now: Time)
      ensures this.limits == limits && Abs(now) == P.Initial(now)
    {
      this.limits := limits;
      claims, reserved, pending := [], map[], [];
      stage, sent, pruned := P.Free, [], now;
    }

    // ------------------------------------------------------------ the store

    method HasClaim(who: Claimant) returns (user: bool, stellar: bool, address: bool)
      ensures user == HasUser(claims, who.userKey)
      ensures stellar == HasStellar(claims, who.stellar)
      ensures address == HasAddress(claims, who.address)
    {
      user, stellar, address := false, false, false;
      for i := 0 to |claims|
        invariant user == HasUser(claims[..i], who.userKey)
        invariant stellar == HasStellar(claims[..i], who.stellar)
        invariant address == HasAddress(claims[..i], who.address)
      {
        var c := claims[i];
        assert claims[..i + 1] == claims[..i] + [c];
        user := user || c.who.userKey == who.userKey;
        stellar := stellar || c.who.stellar == who.stellar;
        address := address || c.who.address == who.address;
      }
      assert claims[..|claims|] == claims;
    }

    method IpClaimsSince(ip: string, since: int) returns (times: seq<Time>)
      ensures times == IpTimes(claims, ip, since)
    {
      times := [];
      for i := 0 to |claims|
        invariant times == IpTimes(claims[..i], ip, since)
      {
        assert claims[..i + 1][..i] == claims[..i];
        if claims[i].ip == ip && claims[i].at >= since {
          times := times + [claims[i].at];
        }
      }
      assert claims[..|claims|] == claims;
    }

    method CountClaimsSince(since: Time) returns (n: nat)
      ensures n == CountSince(claims, since)
    {
      n := 0;
      for i := 0 to |claims|
        invariant n == CountSince(claims[..i], since)
      {
        assert claims[..i + 1][..i] == claims[..i];
        if claims[i].at >= since {
          n := n + 1;
        }
      }
      assert claims[..|claims|] == claims;
    }

    /** Refuses whoever has already claimed, then applies the IP and daily limits. */
    method CheckLimits(who: Claimant, verified: bool, ip: string, now: Time) returns (refusal: Option<Refusal>)
      requires limits.ipClaims >= 1
      ensures refusal == Check(limits, claims, who, verified, ip, now)
    {
      var user, stellar, address := HasClaim(who);
      if verified && user {
        return Some(AccountClaimed);
      }
      if stellar {
        return Some(StellarClaimed);
      }
      if address {
        return Some(AddressClaimed);
      }
      var ipTimes := IpClaimsSince(ip, now - limits.ipWindow + 1);
      if |ipTimes| >= limits.ipClaims {
        var freesAt := ipTimes[|ipTimes| - limits.ipClaims] + limits.ipWindow;
        return Some(IpCooldown(freesAt));
      }
      var today := CountClaimsSince(StartOfUtcDay(now));
      if today >= limits.dailyCap {
        return Some(DailyCapReached);
      }
      return None;
    }

    // ------------------------------------------------------------ the coins

    /** Deletes what has expired, one reservation at a time. */
    method Prune(now: Time)
      modifies this`reserved, this`pending, this`pruned
      ensures Abs(now) == P.Pruned(old(Abs(now)))
    {
      var rest := reserved.Keys;
      while rest != {}
        invariant pending == old(pending) && pruned == old(pruned) && rest <= old(reserved).Keys && rest <= reserved.Keys
        invariant forall o :: o in reserved <==> o in old(reserved) && (o in rest || old(reserved)[o] > now)
        invariant forall o | o in reserved :: reserved[o] == old(reserved)[o]
        decreases |rest|
      {
        var o :| o in rest;
        rest := rest - {o};
        if reserved[o] <= now {
          reserved := reserved - {o};
        }
      }
      assert reserved == P.Live(old(reserved), now);
      var kept := [];
      for i := 0 to |pending|
        invariant kept == P.LiveChange(pending[..i], now)
      {
        assert pending[..i + 1][..i] == pending[..i];
        if pending[i].expiresAt > now {
          kept := kept + [pending[i]];
        }
      }
      assert pending[..|pending|] == pending;
      pending := kept;
      pruned := now;
    }

    /** Drops the change among `points`. */
    method DropChange(points: seq<P.Outpoint>)
      modifies this`pending
      ensures pending == P.Unlisted(old(pending), points)
    {
      var kept := [];
      for i := 0 to |pending|
        invariant kept == P.Unlisted(pending[..i], points)
      {
        assert pending[..i + 1][..i] == pending[..i];
        if P.Point(pending[i].coin) !in points {
          kept := kept + [pending[i]];
        }
      }
      assert pending[..|pending|] == pending;
      pending := kept;
    }

    method WithoutReserved(coins: seq<P.Utxo>) returns (free: seq<P.Utxo>)
      ensures free == P.Unreserved(coins, reserved)
    {
      free := [];
      for i := 0 to |coins|
        invariant free == P.Unreserved(coins[..i], reserved)
      {
        assert coins[..i + 1][..i] == coins[..i];
        if P.Point(coins[i]) !in reserved {
          free := free + [coins[i]];
        }
      }
      assert coins[..|coins|] == coins;
    }

    method FreeOnly(coins: seq<P.ListedCoin>) returns (free: seq<P.ListedCoin>)
      ensures free == P.FreeListings(coins, reserved)
    {
      free := [];
      for i := 0 to |coins|
        invariant free == P.FreeListings(coins[..i], reserved)
      {
        assert coins[..i + 1][..i] == coins[..i];
        if P.Point(coins[i].coin) !in reserved {
          free := free + [coins[i]];
        }
      }
      assert coins[..|coins|] == coins;
    }

    /** Sorts the coins, one at a time behind those that may stand before it. */
    method Rank(coins: seq<P.ListedCoin>) returns (ranked: seq<P.ListedCoin>)
      ensures ranked == P.Ranked(coins)
    {
      ranked := [];
      for i := 0 to |coins|
        invariant ranked == P.Ranked(coins[..i])
      {
        assert coins[..i + 1][..i] == coins[..i];
        ranked := P.Place(ranked, coins[i]);
      }
      assert coins[..|coins|] == coins;
    }

    /** What `spendable` answers once the listing is there. */
    method Spendable(listed: seq<P.ListedCoin>, ghost now: Time) returns (offered: seq<P.Utxo>)
      modifies this`pending
      ensures pending == P.Unlisted(old(pending), P.Points(P.CoinsOf(listed)))
      ensures offered == P.Offer(listed, old(Abs(now)))
    {
      DropChange(P.Points(P.CoinsOf(listed)));
      var usable := FreeOnly(listed);
      usable := Rank(usable);
      var change := WithoutReserved(P.Coins(pending));
      return P.CoinsOf(usable) + change;
    }

    method Reserve(inputs: seq<P.Utxo>, now: Time)
      modifies this`reserved, this`pending
      ensures Abs(now) == P.Reserve(old(Abs(now)), inputs)
    {
      for i := 0 to |inputs|
        invariant reserved == P.ReserveAll(old(reserved), inputs[..i], now + P.RESERVATION_TTL)
        invariant pending == old(pending)
      {
        assert inputs[..i + 1][..i] == inputs[..i];
        reserved := reserved[P.Point(inputs[i]) := now + P.RESERVATION_TTL];
      }
      assert inputs[..|inputs|] == inputs;
      DropChange(P.Points(inputs));
    }

    /** The claim enters the lock: the limits are checked once more, then the listing is asked for. */
    method Enter(who: Claimant, ip: string, now: Time) returns (refusal: Option<Refusal>)
      requires limits.ipClaims >= 1 && stage.Free?
      modifies this`reserved, this`pending, this`pruned, this`stage
      ensures refusal == Check(limits, claims, who, true, ip, now)
      ensures Abs(now) == P.Step(limits, old(Abs(now)), P.Enter(who, ip))
    {
      refusal := CheckLimits(who, true, ip, now);
      if refusal.None? {
        Prune(now);
        stage := P.Listing(who, ip, now);
      }
    }

    /** The listing is there; the fee rate comes next. */
    method WithListing(listed: seq<P.ListedCoin>, now: Time) returns (offered: seq<P.Utxo>)
      requires stage.Listing?
      modifies this`pending, this`stage
      ensures Abs(now) == P.Step(limits, old(Abs(now)), P.Listed(listed))
      ensures stage.Pricing? && stage.offered == offered
    {
      offered := Spendable(listed, now);
      stage := P.Pricing(stage.who, stage.ip, stage.checked, offered);
    }

    /** The fee rate is there: the coins are selected and the broadcast begins, or the faucet cannot pay. */
    method WithRate(offered: seq<P.Utxo>, recipientBytes: nat, rate: CoinSelection.FeeRate, now: Time)
      returns (payment: Result<P.Payment, CoinSelection.PaymentError>)
      requires stage.Pricing? && stage.offered == offered
      modifies this`stage
      ensures payment.Ok? ==> Abs(now) == P.Step(limits, old(Abs(now)), P.Priced(payment.value)) && stage.Sending? && stage.payment == payment.value
      ensures payment.Err? ==> Abs(now) == P.Step(limits, old(Abs(now)), P.CannotPay)
    {
      payment := CoinSelection.BuildPayment(offered, recipientBytes, limits.amountSat, rate);
      if payment.Err? {
        stage := P.Free;
      } else {
        stage := P.Sending(stage.who, stage.ip, stage.checked, payment.value, now);
      }
    }

    /** The end of `send`: reservations, change and the record, or the refusal. */
    method Finish(who: Claimant, ip: string, payment: P.Payment, outcome: P.Outcome, now: Time)
      requires stage.Sending? && stage.who == who && stage.ip == ip && stage.payment == payment
      requires outcome.Accepted? ==> P.IdNames(Abs(now), outcome.txid, payment.inputs)
      modifies this
      ensures Abs(now) == P.Settle(old(Abs(now)), outcome)
    {
      ghost var at := stage.at;
      stage := P.Free;
      match outcome {
        case Rejected =>
        case Unknown =>
          Reserve(payment.inputs, now);
          sent := sent + [P.Broadcast(P.Points(payment.inputs), payment, at, now, None)];
        case Accepted(txid, recorded) =>
          Reserve(payment.inputs, now);
          sent := sent + [P.Broadcast(P.Points(payment.inputs), payment, at, now, Some(txid))];
          if payment.changeSat > 0 {
            pending := pending + [P.Change(CoinSelection.Utxo(txid, 1, payment.changeSat), now + P.RESERVATION_TTL)];
          }
          if recorded {
            claims := claims + [Claim(who, ip, now)];
          }
      }
    }
  }
}
