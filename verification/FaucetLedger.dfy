/** What becomes of each claim and of each coin of the faucet, over its runs (relayer/src/faucet/service.ts). */
module FaucetLedger {
  import opened Wrappers
  import opened FaucetClaims
  import opened FaucetProtocol
  import opened FaucetTheorems
  import CoinSelection

  // ------------------------------------------------------------ claims

  /** The claim now inside the lock, if any, entered in this run. */
  predicate StageEntered(s: State, events: seq<Event>)
  {
    s.stage.Free? || Enter(s.stage.who, s.stage.ip) in events
  }

  lemma StageStep(l: Limits, s: State, events: seq<Event>, e: Event)
    requires StageEntered(s, events)
    ensures StageEntered(Step(l, s, e), events + [e])
  {
    hide Check;
    hide Offer;
    hide CoinSelection.Pays;
    hide IdNames;
  }

  lemma {:induction false} RunEntered(l: Limits, now: Time, events: seq<Event>)
    ensures StageEntered(Run(l, Initial(now), events), events)
    decreases |events|
  {
    hide StageEntered;
    hide Step;
    if events == [] {
      assert StageEntered(Initial(now), []) by { Idle(now); }
    } else {
      var front, e := events[..|events| - 1], events[|events| - 1];
      RunEntered(l, now, front);
      StageStep(l, Run(l, Initial(now), front), front, e);
      assert front + [e] == events;
    }
  }

  lemma Idle(now: Time)
    ensures StageEntered(Initial(now), [])
  {
  }

  /** Event `j` of the run is the answer that accepted the payment of `c`, and recorded it. */
  ghost predicate PaidAt(l: Limits, now: Time, events: seq<Event>, c: Claim, j: nat)
  {
    && j < |events| && events[j].Answered? && events[j].outcome.Accepted? && events[j].outcome.recorded
    && var s := Run(l, Initial(now), events[..j]);
    && s.stage.Sending? && s.stage.who == c.who && s.stage.ip == c.ip && s.now == c.at
  }

  /** A step keeps every claim, and adds one only for a payment that was accepted, under its claimant, its IP and the time of the answer. */
  lemma ClaimStep(l: Limits, s: State, e: Event)
    ensures var s' := Step(l, s, e);
            || s'.claims == s.claims
            || (&& e.Answered? && e.outcome.Accepted? && e.outcome.recorded && s.stage.Sending?
                && s'.claims == s.claims + [Claim(s.stage.who, s.stage.ip, s.now)])
  {
    hide Check;
    hide Offer;
    hide CoinSelection.Pays;
    hide IdNames;
  }

  /**
   * Every recorded claim was entered by its claimant from its IP in this run,
   * and carries the time at which its payment was accepted.
   */
  lemma {:induction false} ClaimsArePaid(l: Limits, now: Time, events: seq<Event>, c: Claim) returns (j: nat)
    requires c in Run(l, Initial(now), events).claims
    ensures PaidAt(l, now, events, c, j) && Enter(c.who, c.ip) in events[..j]
    decreases |events|
  {
    hide Step;
    var front, e := events[..|events| - 1], events[|events| - 1];
    var s := Run(l, Initial(now), front);
    ClaimStep(l, s, e);
    if c in s.claims {
      j := ClaimsArePaid(l, now, front, c);
      assert front[..j] == events[..j] && front[j] == events[j];
    } else {
      j := |front|;
      RunEntered(l, now, front);
    }
  }

  /** Claims outlive everything, a restart included: later claims only come after them. */
  lemma {:induction false} ClaimsStay(l: Limits, s: State, events: seq<Event>)
    ensures s.claims <= Run(l, s, events).claims
    decreases |events|
  {
    hide Step;
    if events != [] {
      var front := events[..|events| - 1];
      ClaimsStay(l, s, front);
      ClaimStep(l, Run(l, s, front), events[|events| - 1]);
    }
  }

  // ------------------------------------------------------------ change

  lemma {:induction false} LiveChangeExactly(pending: seq<Change>, t: Time, p: Change)
    ensures p in LiveChange(pending, t) <==> p in pending && p.expiresAt > t
  {
    if pending != [] {
      var front, last := pending[..|pending| - 1], pending[|pending| - 1];
      LiveChangeExactly(front, t, p);
      assert pending == front + [last];
    }
  }

  lemma {:induction false} UnlistedExactly(pending: seq<Change>, points: seq<Outpoint>, p: Change)
    ensures p in Unlisted(pending, points) <==> p in pending && Point(p.coin) !in points
  {
    if pending != [] {
      var front, last := pending[..|pending| - 1], pending[|pending| - 1];
      UnlistedExactly(front, points, p);
      assert pending == front + [last];
    }
  }

  /** Why unlisted change may be forgotten at a step. */
  predicate MayForget(l: Limits, s: State, e: Event, p: Change)
  {
    // The process restarts, or the change expires.
    || e.Restart?
    || ((e.Enter? || e.StatusBegins?) && p.expiresAt <= s.now)
    // The indexer lists it.
    || ((e.Listed? || e.StatusListed?) && Point(p.coin) in Points(CoinsOf(e.coins)))
    // A broadcast spends it.
    || (e.Answered? && !e.outcome.Rejected? && s.stage.Sending? && Point(p.coin) in Points(s.stage.payment.inputs))
  }

  /** Change leaves the faucet's keeping for one of these reasons only. */
  lemma ChangeLeaves(l: Limits, s: State, e: Event, p: Change)
    requires p in s.pending && p !in Step(l, s, e).pending
    ensures MayForget(l, s, e, p)
  {
    hide Check;
    hide Offer;
    hide CoinSelection.Pays;
    hide IdNames;
    hide LiveChange;
    hide Unlisted;
    LiveChangeExactly(s.pending, s.now, p);
    if e.Listed? || e.StatusListed? {
      UnlistedExactly(s.pending, Points(CoinsOf(e.coins)), p);
    } else if e.Answered? && s.stage.Sending? {
      UnlistedExactly(s.pending, Points(s.stage.payment.inputs), p);
    }
  }

  /** And while it is kept it is offered, unless the indexer lists it or it is reserved. */
  lemma KeptChangeIsOffered(coins: seq<ListedCoin>, s: State, p: Change)
    requires p in s.pending && Point(p.coin) !in Points(CoinsOf(coins)) && Point(p.coin) !in s.reserved
    ensures p.coin in Offer(coins, s)
  {
    var left := Unlisted(s.pending, Points(CoinsOf(coins)));
    UnlistedExactly(s.pending, Points(CoinsOf(coins)), p);
    var i :| 0 <= i < |left| && left[i] == p;
    assert Coins(left)[i] == p.coin;
    UnreservedExactly(Coins(left), s.reserved, p.coin);
  }

  /** The selection sees the listed coins first, in rank, and then the change the indexer does not list. */
  lemma OfferInOrder(coins: seq<ListedCoin>, s: State) returns (ranked: seq<ListedCoin>)
    ensures InRank(ranked) && (forall c | c in ranked :: c in coins && Point(c.coin) !in s.reserved)
    ensures |ranked| <= |Offer(coins, s)| && Offer(coins, s)[..|ranked|] == CoinsOf(ranked)
    ensures forall u | u in Offer(coins, s)[|ranked|..] ::
              u in Coins(s.pending) && Point(u) !in Points(CoinsOf(coins)) && Point(u) !in s.reserved
  {
    var free := FreeListings(coins, s.reserved);
    ranked := Ranked(free);
    RankedIsSorted(free);
    FreeOnes(coins, s.reserved);
    var points := Points(CoinsOf(coins));
    var left := Unlisted(s.pending, points);
    forall u | u in Unreserved(Coins(left), s.reserved)
      ensures u in Coins(s.pending) && Point(u) !in points && Point(u) !in s.reserved
    {
      UnreservedExactly(Coins(left), s.reserved, u);
      var i :| 0 <= i < |left| && Coins(left)[i] == u;
      assert left[i] in left;
      UnlistedExactly(s.pending, points, left[i]);
      var j :| 0 <= j < |s.pending| && s.pending[j] == left[i];
      assert Coins(s.pending)[j] == u;
    }
  }

  lemma {:induction false} FreeOnes(coins: seq<ListedCoin>, reserved: map<Outpoint, Time>)
    ensures forall c :: c in FreeListings(coins, reserved) <==> c in coins && Point(c.coin) !in reserved
  {
    if coins != [] {
      FreeOnes(coins[..|coins| - 1], reserved);
      assert coins == coins[..|coins| - 1] + [coins[|coins| - 1]];
    }
  }

  // ------------------------------------------------------------ the end of a send

  /** Each of `points` is reserved for half an hour from now, and the others are as they were. */
  ghost predicate ReservedNow(s: State, s': State, points: seq<Outpoint>)
  {
    forall o ::
      && (o in s'.reserved <==> o in s.reserved || o in points)
      && (o in s'.reserved ==> s'.reserved[o] == if o in points then s.now + 1_800_000 else s.reserved[o])
  }

  /**
   * What the answer to a broadcast changes. A refusal changes nothing but that
   * the lock is free. After an accepted one, or one of unknown outcome, the
   * inputs are reserved; only an accepted one leaves a claim and change, and a
   * claim only if the store took it.
   */
  lemma AnswerMeaning(l: Limits, s: State, outcome: Outcome)
    requires s.stage.Sending? && (outcome.Accepted? ==> IdNames(s, outcome.txid, s.stage.payment.inputs))
    ensures var s', points := Step(l, s, Answered(outcome)), Points(s.stage.payment.inputs);
            && s'.stage.Free? && s'.now == s.now && s'.pruned == s.pruned
            && (outcome.Rejected? ==> s' == s.(stage := Free))
            && (!outcome.Rejected? ==> ReservedNow(s, s', points) && |s'.sent| == |s.sent| + 1 && s.sent <= s'.sent)
            && s'.claims == (if outcome.Accepted? && outcome.recorded then s.claims + [Claim(s.stage.who, s.stage.ip, s.now)] else s.claims)
            && (outcome.Unknown? ==> forall p | p in s'.pending :: p in s.pending)
  {
    hide ReserveAll;
    hide IdNames;
    hide Unlisted;
    var until := s.now + RESERVATION_TTL;
    forall o
      ensures var r := ReserveAll(s.reserved, s.stage.payment.inputs, until);
              && (o in r <==> o in s.reserved || o in Points(s.stage.payment.inputs))
              && (o in r ==> r[o] == if o in Points(s.stage.payment.inputs) then until else s.reserved[o])
    {
      ReserveFacts(s.reserved, s.stage.payment.inputs, until, o);
    }
    forall p
      ensures p in Unlisted(s.pending, Points(s.stage.payment.inputs)) ==> p in s.pending
    {
      UnlistedExactly(s.pending, Points(s.stage.payment.inputs), p);
    }
  }

  /** A claim that fails before its broadcast leaves the lock free and changes nothing else. */
  lemma FailureFreesLock(l: Limits, s: State)
    ensures s.stage.Listing? ==> Step(l, s, UpstreamFails) == s.(stage := Free)
    ensures s.stage.Pricing? ==> Step(l, s, CannotPay) == s.(stage := Free)
  {
  }
}
