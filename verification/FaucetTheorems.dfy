/** What holds of the faucet for every order of concurrent claims and every lag of the indexer. */
module FaucetTheorems {
  import opened Wrappers
  import opened FaucetClaims
  import opened FaucetProtocol
  import CoinSelection

  // ------------------------------------------------------------ filters

  lemma {:induction false} UnreservedFacts(coins: seq<Utxo>, reserved: map<Outpoint, Time>)
    ensures var r := Unreserved(coins, reserved);
            && (forall u | u in r :: u in coins && Point(u) !in reserved)
            && (NoRepeats(Points(coins)) ==> NoRepeats(Points(r)))
  {
    if coins != [] {
      var front, last := coins[..|coins| - 1], coins[|coins| - 1];
      UnreservedFacts(front, reserved);
      FrontRepeats(coins);
      if NoRepeats(Points(coins)) && Point(last) !in reserved {
        AppendRepeats(Unreserved(front, reserved), last, front);
      }
    }
  }

  lemma FrontRepeats(coins: seq<Utxo>)
    requires coins != []
    ensures var front, last := coins[..|coins| - 1], coins[|coins| - 1];
            NoRepeats(Points(coins)) ==> NoRepeats(Points(front)) && forall u | u in front :: Point(u) != Point(last)
  {
    var front, last := coins[..|coins| - 1], coins[|coins| - 1];
    if NoRepeats(Points(coins)) {
      assert forall i | 0 <= i < |front| :: Points(front)[i] == Points(coins)[i];
      forall u | u in front
        ensures Point(u) != Point(last)
      {
        var i :| 0 <= i < |front| && front[i] == u;
        assert Points(coins)[i] == Point(u) && Points(coins)[|coins| - 1] == Point(last);
      }
    }
  }

  /** A coin unlike all of `all` can be added to coins taken from it. */
  lemma AppendRepeats(coins: seq<Utxo>, last: Utxo, all: seq<Utxo>)
    requires NoRepeats(Points(coins)) && (forall u | u in coins :: u in all) && (forall u | u in all :: Point(u) != Point(last))
    ensures NoRepeats(Points(coins + [last]))
  {
    var ps := Points(coins + [last]);
    forall i, j | 0 <= i < j < |ps|
      ensures ps[i] != ps[j]
    {
      assert coins[i] in coins;
      if j < |coins| {
        assert Points(coins)[i] == ps[i] && Points(coins)[j] == ps[j];
      }
    }
  }

  lemma {:induction false} UnlistedFacts(pending: seq<Change>, points: seq<Outpoint>)
    ensures var r := Unlisted(pending, points);
            && (forall p | p in r :: p in pending && Point(p.coin) !in points)
            && (NoRepeats(Points(Coins(pending))) ==> NoRepeats(Points(Coins(r))))
  {
    if pending != [] {
      var front, last := pending[..|pending| - 1], pending[|pending| - 1];
      UnlistedFacts(front, points);
      KeepFront(pending, Unlisted(front, points));
    }
  }

  lemma {:induction false} LiveChangeFacts(pending: seq<Change>, t: Time)
    ensures var r := LiveChange(pending, t);
            && (forall p | p in r :: p in pending)
            && (NoRepeats(Points(Coins(pending))) ==> NoRepeats(Points(Coins(r))))
  {
    if pending != [] {
      var front, last := pending[..|pending| - 1], pending[|pending| - 1];
      LiveChangeFacts(front, t);
      KeepFront(pending, LiveChange(front, t));
    }
  }

  /** Change filtered from the front may be followed by the last change. */
  lemma KeepFront(pending: seq<Change>, kept: seq<Change>)
    requires pending != [] && (forall p | p in kept :: p in pending[..|pending| - 1])
    ensures var front, last := pending[..|pending| - 1], pending[|pending| - 1];
            NoRepeats(Points(Coins(pending))) ==>
              && NoRepeats(Points(Coins(front)))
              && (NoRepeats(Points(Coins(kept))) ==> NoRepeats(Points(Coins(kept + [last]))))
  {
    var front, last := pending[..|pending| - 1], pending[|pending| - 1];
    assert Coins(pending)[..|pending| - 1] == Coins(front);
    FrontRepeats(Coins(pending));
    if NoRepeats(Points(Coins(pending))) && NoRepeats(Points(Coins(kept))) {
      forall u | u in Coins(kept)
        ensures u in Coins(front)
      {
        var i :| 0 <= i < |kept| && kept[i].coin == u;
        assert kept[i] in kept && kept[i] in front;
        var j :| 0 <= j < |front| && front[j] == kept[i];
        assert Coins(front)[j] == u;
      }
      AppendRepeats(Coins(kept), last.coin, Coins(front));
      assert Coins(kept + [last]) == Coins(kept) + [last.coin];
    }
  }

  lemma {:induction false} FreeFacts(coins: seq<ListedCoin>, reserved: map<Outpoint, Time>)
    ensures CoinsOf(FreeListings(coins, reserved)) == Unreserved(CoinsOf(coins), reserved)
  {
    if coins != [] {
      var front, last := coins[..|coins| - 1], coins[|coins| - 1];
      FreeFacts(front, reserved);
      assert CoinsOf(coins) == CoinsOf(front) + [last.coin];
      assert CoinsOf(coins)[..|coins| - 1] == CoinsOf(front);
    }
  }

  lemma {:induction false} PlaceFacts(ranked: seq<ListedCoin>, x: ListedCoin)
    ensures forall l :: l in Place(ranked, x) <==> l in ranked || l == x
    ensures multiset(Place(ranked, x)) == multiset(ranked) + multiset{x}
    decreases |ranked|
  {
    if ranked != [] && !Ahead(ranked[|ranked| - 1], x) {
      var front, last := ranked[..|ranked| - 1], ranked[|ranked| - 1];
      PlaceFacts(front, x);
      assert ranked == front + [last];
    }
  }

  /** Confirmed coins before the others, and larger ones before smaller ones among equals. */
  predicate InRank(coins: seq<ListedCoin>)
  {
    forall i, j | 0 <= i < j < |coins| ::
      && (coins[j].confirmed ==> coins[i].confirmed)
      && (coins[i].confirmed == coins[j].confirmed ==> coins[i].coin.value >= coins[j].coin.value)
  }

  /** The coins that the order does not tell apart, as they come. */
  function Alike(coins: seq<ListedCoin>, confirmed: bool, value: nat): seq<ListedCoin>
  {
    if coins == [] then []
    else
      var rest, last := Alike(coins[..|coins| - 1], confirmed, value), coins[|coins| - 1];
      if last.confirmed == confirmed && last.coin.value == value then rest + [last] else rest
  }

  lemma {:induction false} PlaceIsStable(ranked: seq<ListedCoin>, x: ListedCoin, confirmed: bool, value: nat)
    ensures Alike(Place(ranked, x), confirmed, value) == Alike(ranked + [x], confirmed, value)
    decreases |ranked|
  {
    assert (ranked + [x])[..|ranked|] == ranked;
    if ranked != [] && !Ahead(ranked[|ranked| - 1], x) {
      var front, last := ranked[..|ranked| - 1], ranked[|ranked| - 1];
      PlaceIsStable(front, x, confirmed, value);
      assert (front + [x])[..|front|] == front;
      assert (Place(front, x) + [last])[..|Place(front, x)|] == Place(front, x);
    }
  }

  /** The sort is stable: coins it does not tell apart stay in the order listed. */
  lemma {:induction false} RankedIsStable(coins: seq<ListedCoin>, confirmed: bool, value: nat)
    ensures Alike(Ranked(coins), confirmed, value) == Alike(coins, confirmed, value)
    decreases |coins|
  {
    if coins != [] {
      var front, last := coins[..|coins| - 1], coins[|coins| - 1];
      RankedIsStable(front, confirmed, value);
      PlaceIsStable(Ranked(front), last, confirmed, value);
      assert (Ranked(front) + [last])[..|Ranked(front)|] == Ranked(front);
    }
  }

  lemma {:induction false} PlaceKeepsRank(ranked: seq<ListedCoin>, x: ListedCoin)
    requires InRank(ranked)
    ensures InRank(Place(ranked, x))
    decreases |ranked|
  {
    if ranked != [] && !Ahead(ranked[|ranked| - 1], x) {
      var front, last := ranked[..|ranked| - 1], ranked[|ranked| - 1];
      PlaceKeepsRank(front, x);
      PlaceFacts(front, x);
      var p := Place(front, x);
      forall i | 0 <= i < |p|
        ensures Ahead(p[i], last)
      {
        assert p[i] in p;
      }
    }
  }

  /** The coins come out as a sort promises: the same coins, confirmed ones first, larger ones first among equals. */
  lemma {:induction false} RankedIsSorted(coins: seq<ListedCoin>)
    ensures InRank(Ranked(coins)) && multiset(Ranked(coins)) == multiset(coins)
    ensures forall l :: l in Ranked(coins) <==> l in coins
    decreases |coins|
  {
    if coins != [] {
      var front, last := coins[..|coins| - 1], coins[|coins| - 1];
      RankedIsSorted(front);
      PlaceFacts(Ranked(front), last);
      PlaceKeepsRank(Ranked(front), last);
      assert coins == front + [last];
    }
  }

  lemma CoinIn(coins: seq<ListedCoin>, u: Utxo)
    ensures u in CoinsOf(coins) <==> exists l :: l in coins && l.coin == u
  {
    if u in CoinsOf(coins) {
      var i :| 0 <= i < |coins| && CoinsOf(coins)[i] == u;
      assert coins[i] in coins;
    }
    if l :| l in coins && l.coin == u {
      var i :| 0 <= i < |coins| && coins[i] == l;
      assert CoinsOf(coins)[i] == u;
    }
  }

  /** Ranking moves coins about, no more. */
  lemma RankedCoins(coins: seq<ListedCoin>, u: Utxo)
    ensures u in CoinsOf(Ranked(coins)) <==> u in CoinsOf(coins)
  {
    RankedIsSorted(coins);
    CoinIn(coins, u);
    CoinIn(Ranked(coins), u);
  }

  lemma {:induction false} PlaceNoRepeats(ranked: seq<ListedCoin>, x: ListedCoin)
    requires NoRepeats(Points(CoinsOf(ranked))) && forall l | l in ranked :: Point(l.coin) != Point(x.coin)
    ensures NoRepeats(Points(CoinsOf(Place(ranked, x))))
    decreases |ranked|
  {
    var us := CoinsOf(ranked);
    if ranked == [] || Ahead(ranked[|ranked| - 1], x) {
      forall u | u in us
        ensures Point(u) != Point(x.coin)
      {
        CoinIn(ranked, u);
      }
      AppendRepeats(us, x.coin, us);
      assert CoinsOf(ranked + [x]) == us + [x.coin];
    } else {
      var front, last := ranked[..|ranked| - 1], ranked[|ranked| - 1];
      assert us[..|us| - 1] == CoinsOf(front);
      FrontRepeats(us);
      PlaceNoRepeats(front, x);
      PlaceFacts(front, x);
      var p := CoinsOf(Place(front, x));
      forall u | u in p
        ensures Point(u) != Point(last.coin)
      {
        CoinIn(Place(front, x), u);
        CoinIn(front, u);
        assert last in ranked;
      }
      AppendRepeats(p, last.coin, p);
      assert CoinsOf(Place(front, x) + [last]) == p + [last.coin];
    }
  }

  lemma {:induction false} RankedNoRepeats(coins: seq<ListedCoin>)
    requires NoRepeats(Points(CoinsOf(coins)))
    ensures NoRepeats(Points(CoinsOf(Ranked(coins))))
    decreases |coins|
  {
    if coins != [] {
      var front, last := coins[..|coins| - 1], coins[|coins| - 1];
      assert CoinsOf(coins)[..|coins| - 1] == CoinsOf(front);
      FrontRepeats(CoinsOf(coins));
      RankedNoRepeats(front);
      RankedIsSorted(front);
      forall l | l in Ranked(front)
        ensures Point(l.coin) != Point(last.coin)
      {
        CoinIn(front, l.coin);
      }
      PlaceNoRepeats(Ranked(front), last);
    }
  }

  lemma {:induction false} ReserveFacts(reserved: map<Outpoint, Time>, inputs: seq<Utxo>, until: Time, o: Outpoint)
    ensures var r := ReserveAll(reserved, inputs, until);
            if o in Points(inputs) then o in r && r[o] == until
            else (o in r <==> o in reserved) && (o in r ==> r[o] == reserved[o])
  {
    if inputs != [] {
      var front, last := inputs[..|inputs| - 1], inputs[|inputs| - 1];
      ReserveFacts(reserved, front, until, o);
      assert Points(inputs) == Points(front) + [Point(last)];
    }
  }

  // ------------------------------------------------------------ the offer

  lemma PointIn(coins: seq<Utxo>, u: Utxo)
    requires u in coins
    ensures Point(u) in Points(coins)
  {
    var i :| 0 <= i < |coins| && coins[i] == u;
    assert Points(coins)[i] == Point(u);
  }

  /** A coin survives the filter exactly when its outpoint is not reserved. */
  lemma {:induction false} UnreservedExactly(coins: seq<Utxo>, reserved: map<Outpoint, Time>, u: Utxo)
    ensures u in Unreserved(coins, reserved) <==> u in coins && Point(u) !in reserved
  {
    if coins != [] {
      UnreservedExactly(coins[..|coins| - 1], reserved, u);
      assert coins == coins[..|coins| - 1] + [coins[|coins| - 1]];
    }
  }

  /** No coin offered is reserved, and a listed coin is offered exactly when it is not. */
  lemma OfferIsFree(coins: seq<ListedCoin>, s: State, u: Utxo)
    ensures u in Offer(coins, s) ==> Point(u) !in s.reserved
    ensures u in CoinsOf(coins) ==> (u in Offer(coins, s) <==> Point(u) !in s.reserved)
  {
    var listed := FreeListings(coins, s.reserved);
    var change := Coins(Unlisted(s.pending, Points(CoinsOf(coins))));
    FreeFacts(coins, s.reserved);
    RankedCoins(listed, u);
    UnreservedExactly(CoinsOf(coins), s.reserved, u);
    UnreservedExactly(change, s.reserved, u);
  }

  /**
   * The coins offered to the selection are pairwise distinct if the indexer
   * names each once: change that it lists by now is not offered a second time.
   */
  lemma OfferIsSound(coins: seq<ListedCoin>, s: State)
    requires NoRepeats(Points(CoinsOf(coins))) && NoRepeats(Points(Coins(s.pending)))
    ensures NoRepeats(Points(Offer(coins, s)))
  {
    var free := FreeListings(coins, s.reserved);
    var listed := CoinsOf(Ranked(free));
    var unlisted := Unlisted(s.pending, Points(CoinsOf(coins)));
    var change := Unreserved(Coins(unlisted), s.reserved);
    FreeFacts(coins, s.reserved);
    UnreservedFacts(CoinsOf(coins), s.reserved);
    UnlistedFacts(s.pending, Points(CoinsOf(coins)));
    UnreservedFacts(Coins(unlisted), s.reserved);
    RankedNoRepeats(free);
    hide NoRepeats;
    forall u, v | u in listed && v in change
      ensures Point(u) != Point(v)
    {
      RankedCoins(free, u);
      PointIn(CoinsOf(coins), u);
      var k :| 0 <= k < |unlisted| && Coins(unlisted)[k] == v;
      assert unlisted[k] in unlisted;
    }
    AppendAll(listed, change);
  }

  lemma AppendAll(a: seq<Utxo>, b: seq<Utxo>)
    requires NoRepeats(Points(a)) && NoRepeats(Points(b)) && forall u, v | u in a && v in b :: Point(u) != Point(v)
    ensures NoRepeats(Points(a + b))
  {
    var ps := Points(a + b);
    forall i, j | 0 <= i < j < |ps|
      ensures ps[i] != ps[j]
    {
      if j < |a| {
        assert ps[i] == Points(a)[i] && ps[j] == Points(a)[j];
      } else if i >= |a| {
        assert ps[i] == Points(b)[i - |a|] && ps[j] == Points(b)[j - |a|];
      } else {
        assert a[i] in a && b[j - |a|] in b;
      }
    }
  }

  // ------------------------------------------------------------ the invariant

  /** Some broadcast spent `o` and was answered so that the reservation ends at `until`. */
  predicate SpentUntil(sent: seq<Broadcast>, o: Outpoint, until: Time)
  {
    exists b | b in sent :: o in b.inputs && b.answered + RESERVATION_TTL == until
  }

  /** What is reserved is exactly what a broadcast has spent and no prune has found expired. */
  predicate ReservedOk(s: State)
  {
    && (forall o | o in s.reserved :: SpentUntil(s.sent, o, s.reserved[o]) && s.reserved[o] > s.pruned)
    && (forall b, o | b in s.sent && o in b.inputs && b.answered + RESERVATION_TTL > s.pruned ::
          o in s.reserved && s.reserved[o] >= b.answered + RESERVATION_TTL)
  }

  /** By `t`, every broadcast that spent one of the points was answered a reservation ago. */
  predicate Rested(sent: seq<Broadcast>, points: seq<Outpoint>, t: Time)
  {
    forall b, o | b in sent && o in b.inputs && o in points :: t >= b.answered + RESERVATION_TTL
  }

  predicate Spaced(sent: seq<Broadcast>)
  {
    forall i, j, o | 0 <= i < j < |sent| && o in sent[i].inputs && o in sent[j].inputs ::
      sent[j].at >= sent[i].answered + RESERVATION_TTL
  }

  predicate StageOk(l: Limits, s: State)
  {
    match s.stage
    case Free => true
    case Listing(who, ip, checked) => Cleared(l, s, who, ip, checked)
    case Pricing(who, ip, checked, offered) => Cleared(l, s, who, ip, checked) && Rested(s.sent, Points(offered), s.pruned)
    case Sending(who, ip, checked, payment, at) =>
      Cleared(l, s, who, ip, checked) && CoinSelection.Pays(payment, l.amountSat) && at <= s.now
      && Rested(s.sent, Points(payment.inputs), at) && Rested(s.sent, Points(payment.inputs), s.pruned)
  }

  /** The claim inside the lock passed its check on the very claims recorded now, and pruned after it. */
  predicate Cleared(l: Limits, s: State, who: Claimant, ip: string, checked: Time)
  {
    && checked <= s.pruned && LedgerOk(l, s.claims, checked) && Check(l, s.claims, who, true, ip, checked) == None
  }

  /** Coin `u` is an output of the broadcast `b`, and one that pays the faucet. */
  predicate PaysUs(b: Broadcast, u: Utxo)
  {
    b.txid == Some(u.txid) && u.vout < |b.payment.outputs| && b.payment.outputs[u.vout] == CoinSelection.Output(CoinSelection.Payer, u.value)
  }

  /** Change not yet listed is the faucet's own output of a broadcast whose reservations no prune has found expired. */
  predicate FromBroadcast(sent: seq<Broadcast>, p: Change, pruned: Time)
  {
    && p.expiresAt > pruned
    && exists b | b in sent :: PaysUs(b, p.coin) && p.expiresAt == b.answered + RESERVATION_TTL
  }

  predicate PendingOk(s: State)
  {
    NoRepeats(Points(Coins(s.pending))) && forall p | p in s.pending :: FromBroadcast(s.sent, p, s.pruned)
  }

  /** Every broadcast carried a payment of the faucet's amount from just those inputs. */
  predicate PaymentsOk(l: Limits, sent: seq<Broadcast>)
  {
    forall b | b in sent :: b.inputs == Points(b.payment.inputs) && CoinSelection.Pays(b.payment, l.amountSat)
  }

  predicate TimesOk(s: State) { s.pruned <= s.now && forall b | b in s.sent :: b.at <= b.answered <= s.now }

  predicate Inv(l: Limits, s: State)
  {
    LedgerOk(l, s.claims, s.now) && StageOk(l, s) && ReservedOk(s) && Spaced(s.sent) && PendingOk(s) && TimesOk(s)
    && PaymentsOk(l, s.sent)
  }

  lemma PrunedReserved(s: State)
    requires ReservedOk(s) && TimesOk(s)
    ensures ReservedOk(Pruned(s))
  {
    var s' := Pruned(s);
    forall b, o | b in s'.sent && o in b.inputs && b.answered + RESERVATION_TTL > s'.pruned
      ensures o in s'.reserved && s'.reserved[o] >= b.answered + RESERVATION_TTL
    {
      assert o in s.reserved && s.reserved[o] >= b.answered + RESERVATION_TTL;
    }
  }

  lemma {:induction false} LiveChangeLives(pending: seq<Change>, t: Time)
    ensures forall p | p in LiveChange(pending, t) :: p.expiresAt > t
  {
    if pending != [] {
      LiveChangeLives(pending[..|pending| - 1], t);
    }
  }

  lemma PrunedPending(s: State)
    requires PendingOk(s) && s.pruned <= s.now
    ensures PendingOk(Pruned(s))
  {
    LiveChangeFacts(s.pending, s.now);
    LiveChangeLives(s.pending, s.now);
    forall p | p in Pruned(s).pending
      ensures FromBroadcast(s.sent, p, s.now)
    {
      assert FromBroadcast(s.sent, p, s.pruned);
    }
  }

  lemma PrunedKeeps(l: Limits, s: State)
    requires Inv(l, s)
    ensures Inv(l, Pruned(s))
  {
    hide LedgerOk;
    hide Check;
    hide ReservedOk;
    hide PendingOk;
    PrunedReserved(s);
    PrunedPending(s);
  }

  lemma UnlistedKeeps(s: State, points: seq<Outpoint>)
    requires PendingOk(s)
    ensures PendingOk(s.(pending := Unlisted(s.pending, points)))
  {
    hide FromBroadcast;
    UnlistedFacts(s.pending, points);
  }

  /** What is offered is rested: exactly the unreserved is. */
  lemma OfferRested(s: State, offered: seq<Utxo>)
    requires ReservedOk(s) && forall u | u in offered :: Point(u) !in s.reserved
    ensures Rested(s.sent, Points(offered), s.pruned)
  {
    forall b, o | b in s.sent && o in b.inputs && o in Points(offered)
      ensures s.pruned >= b.answered + RESERVATION_TTL
    {
      var i :| 0 <= i < |offered| && Points(offered)[i] == o;
      assert offered[i] in offered;
    }
  }

  lemma ListedKeeps(l: Limits, s: State, coins: seq<ListedCoin>)
    requires Inv(l, s) && s.stage.Listing?
    ensures Inv(l, Step(l, s, Listed(coins)))
  {
    hide LedgerOk;
    hide Check;
    hide PendingOk;
    hide Offer;
    UnlistedKeeps(s, Points(CoinsOf(coins)));
    forall u | u in Offer(coins, s)
      ensures Point(u) !in s.reserved
    {
      OfferIsFree(coins, s, u);
    }
    OfferRested(s, Offer(coins, s));
    PendingOnly(s, Step(l, s, Listed(coins)));
  }

  /** Only the change and the stage differ. */
  lemma PendingOnly(s: State, s': State)
    requires s'.sent == s.sent && s'.reserved == s.reserved && s'.pruned == s.pruned && s'.now == s.now
    ensures ReservedOk(s) <==> ReservedOk(s')
    ensures s'.pending == s.pending ==> (PendingOk(s) <==> PendingOk(s'))
    ensures forall pending :: s'.pending == pending ==> (PendingOk(s.(pending := pending)) <==> PendingOk(s'))
  {
  }

  lemma PrefixPoints(coins: seq<Utxo>, k: nat)
    requires k <= |coins|
    ensures forall o | o in Points(coins[..k]) :: o in Points(coins)
    ensures NoRepeats(Points(coins)) ==> NoRepeats(Points(coins[..k]))
  {
    var all, part := Points(coins), Points(coins[..k]);
    assert forall i | 0 <= i < k :: part[i] == all[i];
  }

  lemma PricedKeeps(l: Limits, s: State, payment: Payment)
    requires Inv(l, s) && s.stage.Pricing? && payment.inputs <= s.stage.offered && CoinSelection.Pays(payment, l.amountSat)
    ensures Inv(l, Step(l, s, Priced(payment)))
  {
    hide LedgerOk;
    hide Check;
    hide PendingOk;
    hide ReservedOk;
    hide CoinSelection.Pays;
    PrefixPoints(s.stage.offered, |payment.inputs|);
    assert s.stage.offered[..|payment.inputs|] == payment.inputs;
    PendingOnly(s, Step(l, s, Priced(payment)));
  }

  lemma SpentMore(sent: seq<Broadcast>, b: Broadcast, o: Outpoint, until: Time)
    requires SpentUntil(sent, o, until)
    ensures SpentUntil(sent + [b], o, until)
  {
    var b' :| b' in sent && o in b'.inputs && b'.answered + RESERVATION_TTL == until;
    assert b' in sent + [b];
  }

  lemma SpentLast(sent: seq<Broadcast>, b: Broadcast, o: Outpoint)
    requires o in b.inputs
    ensures SpentUntil(sent + [b], o, b.answered + RESERVATION_TTL)
  {
    assert b in sent + [b];
  }

  lemma ReservedMore(s: State, inputs: seq<Utxo>, b: Broadcast)
    requires ReservedOk(s) && TimesOk(s) && b.inputs == Points(inputs) && b.answered == s.now
    ensures ReservedOk(s.(reserved := ReserveAll(s.reserved, inputs, s.now + RESERVATION_TTL), sent := s.sent + [b]))
  {
    hide SpentUntil;
    hide ReserveAll;
    hide Points;
    var until := s.now + RESERVATION_TTL;
    var reserved, sent := ReserveAll(s.reserved, inputs, until), s.sent + [b];
    forall o
      ensures if o in b.inputs then o in reserved && reserved[o] == until
              else (o in reserved <==> o in s.reserved) && (o in reserved ==> reserved[o] == s.reserved[o])
    {
      ReserveFacts(s.reserved, inputs, until, o);
    }
    forall o | o in reserved
      ensures SpentUntil(sent, o, reserved[o]) && reserved[o] > s.pruned
    {
      if o in b.inputs {
        SpentLast(s.sent, b, o);
      } else {
        SpentMore(s.sent, b, o, s.reserved[o]);
      }
    }
    forall b', o | b' in sent && o in b'.inputs && b'.answered + RESERVATION_TTL > s.pruned
      ensures o in reserved && reserved[o] >= b'.answered + RESERVATION_TTL
    {
      assert b' in s.sent || b' == b;
    }
  }

  /** The inputs of the broadcast that just ended join the history and are reserved. */
  lemma SentKeeps(s: State, inputs: seq<Utxo>, b: Broadcast)
    requires ReservedOk(s) && Spaced(s.sent) && TimesOk(s)
    requires b.inputs == Points(inputs) && b.at <= b.answered == s.now && Rested(s.sent, b.inputs, b.at)
    ensures var s' := s.(reserved := ReserveAll(s.reserved, inputs, s.now + RESERVATION_TTL), sent := s.sent + [b]);
            ReservedOk(s') && Spaced(s'.sent) && TimesOk(s')
  {
    hide ReservedOk;
    hide Spaced;
    hide Rested;
    hide ReserveAll;
    hide Points;
    ReservedMore(s, inputs, b);
    SpacedMore(s.sent, b);
  }

  lemma SpacedMore(sent: seq<Broadcast>, b: Broadcast)
    requires Spaced(sent) && Rested(sent, b.inputs, b.at)
    ensures Spaced(sent + [b])
  {
    var more := sent + [b];
    forall i, j, o | 0 <= i < j < |more| && o in more[i].inputs && o in more[j].inputs
      ensures more[j].at >= more[i].answered + RESERVATION_TTL
    {
      assert more[i] == sent[i] && sent[i] in sent;
    }
  }

  lemma MoreHistory(sent: seq<Broadcast>, b: Broadcast, p: Change, pruned: Time)
    requires FromBroadcast(sent, p, pruned)
    ensures FromBroadcast(sent + [b], p, pruned)
  {
    var b' :| b' in sent && PaysUs(b', p.coin) && p.expiresAt == b'.answered + RESERVATION_TTL;
    assert b' in sent + [b];
  }

  /** The unlisted change after a broadcast: what was there and not spent, and the new change if there is any. */
  lemma ChangeKeeps(s: State, inputs: seq<Utxo>, b: Broadcast, change: seq<Change>)
    requires PendingOk(s) && TimesOk(s) && inputs != [] && b.inputs == Points(inputs) && b.answered == s.now
    requires Rested(s.sent, b.inputs, s.pruned)
    requires change == [] || (b.txid.Some? && IdNames(s, b.txid.value, inputs) && |change| == 1
               && PaysUs(b, change[0].coin) && change[0].expiresAt == s.now + RESERVATION_TTL)
    ensures var pending := Unlisted(s.pending, b.inputs) + change;
            && NoRepeats(Points(Coins(pending)))
            && forall p | p in pending :: FromBroadcast(s.sent + [b], p, s.pruned)
  {
    var kept := Unlisted(s.pending, b.inputs);
    UnlistedFacts(s.pending, b.inputs);
    forall p | p in kept
      ensures FromBroadcast(s.sent + [b], p, s.pruned)
    {
      MoreHistory(s.sent, b, p, s.pruned);
    }
    if change == [] {
      assert kept + change == kept;
    } else {
      assert b in s.sent + [b];
      assert FromBroadcast(s.sent + [b], change[0], s.pruned);
      forall p | p in kept
        ensures p.coin.txid != b.txid.value
      {
        SameIdIsGone(s, inputs, b, p);
      }
      NewChange(kept, change[0]);
      assert change == [change[0]];
    }
  }

  /** When the same transaction is broadcast again, the change of the first time has expired with its reservations. */
  lemma SameIdIsGone(s: State, inputs: seq<Utxo>, b: Broadcast, p: Change)
    requires inputs != [] && b.inputs == Points(inputs) && b.txid.Some? && IdNames(s, b.txid.value, inputs)
    requires Rested(s.sent, b.inputs, s.pruned) && FromBroadcast(s.sent, p, s.pruned)
    ensures p.coin.txid != b.txid.value
  {
    assert Points(inputs)[0] in b.inputs;
  }

  lemma NewChange(kept: seq<Change>, c: Change)
    requires NoRepeats(Points(Coins(kept))) && forall p | p in kept :: p.coin.txid != c.coin.txid
    ensures NoRepeats(Points(Coins(kept + [c])))
  {
    forall u | u in Coins(kept)
      ensures Point(u) != Point(c.coin)
    {
      var i :| 0 <= i < |kept| && kept[i].coin == u;
      assert kept[i] in kept;
    }
    AppendRepeats(Coins(kept), c.coin, Coins(kept));
    assert Coins(kept + [c]) == Coins(kept) + [c.coin];
  }

  lemma AnsweredKeeps(l: Limits, s: State, outcome: Outcome)
    requires Inv(l, s) && s.stage.Sending?
    ensures Inv(l, Settle(s, outcome))
  {
    hide Check;
    hide NoRepeats;
    hide FromBroadcast;
    hide SpentUntil;
    hide Spaced;
    hide LedgerOk;
    var p := s.stage;
    match outcome
    case Rejected =>
    case Unknown =>
      var b := Broadcast(Points(p.payment.inputs), p.payment, p.at, s.now, None);
      SentKeeps(s, p.payment.inputs, b);
      ChangeKeeps(s, p.payment.inputs, b, []);
      PaymentsMore(l, s.sent, b);
      assert Unlisted(s.pending, b.inputs) + [] == Unlisted(s.pending, b.inputs);
    case Accepted(txid, recorded) =>
      if IdNames(s, txid, p.payment.inputs) {
        var b := Broadcast(Points(p.payment.inputs), p.payment, p.at, s.now, Some(txid));
        SentKeeps(s, p.payment.inputs, b);
        ChangeIsOwn(l, b, txid);
        ChangeKeeps(s, p.payment.inputs, b, ChangeOf(txid, p.payment, s.now));
        PaymentsMore(l, s.sent, b);
        RecordKeeps(l, s.claims, Claim(p.who, p.ip, s.now), p.checked);
      }
  }

  lemma PaymentsMore(l: Limits, sent: seq<Broadcast>, b: Broadcast)
    requires PaymentsOk(l, sent) && b.inputs == Points(b.payment.inputs) && CoinSelection.Pays(b.payment, l.amountSat)
    ensures PaymentsOk(l, sent + [b])
  {
  }

  /** What the faucet keeps of a payment is the output that pays the faucet. */
  lemma ChangeIsOwn(l: Limits, b: Broadcast, txid: string)
    requires b.txid == Some(txid) && CoinSelection.Pays(b.payment, l.amountSat)
    ensures forall c | c in ChangeOf(txid, b.payment, b.answered) :: PaysUs(b, c.coin)
  {
  }

  lemma TickKeeps(l: Limits, s: State, to: Time)
    requires Inv(l, s) && s.now <= to
    ensures Inv(l, s.(now := to))
  {
    hide Check;
    hide NoRepeats;
    hide FromBroadcast;
    hide SpentUntil;
  }

  lemma EnterKeeps(l: Limits, s: State, who: Claimant, ip: string)
    requires Inv(l, s)
    ensures Inv(l, Step(l, s, Enter(who, ip)))
  {
    hide Check;
    hide LedgerOk;
    hide NoRepeats;
    hide FromBroadcast;
    hide SpentUntil;
    PrunedKeeps(l, s);
  }

  lemma RestartKeeps(l: Limits, s: State)
    requires Inv(l, s)
    ensures Inv(l, Step(l, s, Restart))
  {
  }

  lemma StepKeeps(l: Limits, s: State, e: Event)
    requires Inv(l, s)
    ensures Inv(l, Step(l, s, e))
  {
    hide LedgerOk;
    hide Check;
    hide NoRepeats;
    hide FromBroadcast;
    hide SpentUntil;
    hide Spaced;
    match e
    case Tick(to) => if s.now <= to { TickKeeps(l, s, to); }
    case Enter(who, ip) => EnterKeeps(l, s, who, ip);
    case Listed(coins) => if s.stage.Listing? { ListedKeeps(l, s, coins); }
    case Priced(payment) =>
      if s.stage.Pricing? && payment.inputs <= s.stage.offered && CoinSelection.Pays(payment, l.amountSat) { PricedKeeps(l, s, payment); }
    case Answered(outcome) => if s.stage.Sending? { AnsweredKeeps(l, s, outcome); }
    case StatusBegins => PrunedKeeps(l, s);
    case StatusListed(coins) => UnlistedKeeps(s, Points(CoinsOf(coins)));
    case UpstreamFails =>
    case CannotPay =>
    case Restart => RestartKeeps(l, s);
  }

  lemma {:induction false} RunKeeps(l: Limits, now: Time, events: seq<Event>)
    ensures Inv(l, Run(l, Initial(now), events))
    decreases |events|
  {
    if events != [] {
      RunKeeps(l, now, events[..|events| - 1]);
      StepKeeps(l, Run(l, Initial(now), events[..|events| - 1]), events[|events| - 1]);
    }
  }

  // ------------------------------------------------- transactions of distinct inputs

  predicate Distinctly(s: State)
  {
    && (s.stage.Pricing? ==> NoRepeats(Points(s.stage.offered)))
    && (s.stage.Sending? ==> NoRepeats(Points(s.stage.payment.inputs)))
    && forall b | b in s.sent :: NoRepeats(b.inputs)
  }

  /** No listing of the run names an outpoint twice. */
  predicate CleanListings(events: seq<Event>)
  {
    forall i | 0 <= i < |events| && events[i].Listed? :: NoRepeats(Points(CoinsOf(events[i].coins)))
  }

  lemma StepKeepsDistinct(l: Limits, s: State, e: Event)
    requires Inv(l, s) && Distinctly(s) && (e.Listed? ==> NoRepeats(Points(CoinsOf(e.coins))))
    ensures Distinctly(Step(l, s, e))
  {
    hide LedgerOk;
    hide Check;
    hide NoRepeats;
    hide Offer;
    if e.Listed? {
      OfferIsSound(e.coins, s);
    } else if e.Priced? && s.stage.Pricing? && e.payment.inputs <= s.stage.offered {
      PrefixPoints(s.stage.offered, |e.payment.inputs|);
      assert s.stage.offered[..|e.payment.inputs|] == e.payment.inputs;
    }
  }

  lemma {:induction false} RunKeepsDistinct(l: Limits, now: Time, events: seq<Event>)
    requires CleanListings(events)
    ensures Distinctly(Run(l, Initial(now), events))
    decreases |events|
  {
    if events != [] {
      var front := events[..|events| - 1];
      assert CleanListings(front) by {
        assert forall i | 0 <= i < |front| :: front[i] == events[i];
      }
      RunKeeps(l, now, front);
      RunKeepsDistinct(l, now, front);
      StepKeepsDistinct(l, Run(l, Initial(now), front), events[|events| - 1]);
    }
  }

  // ------------------------------------------------------------ the promises

  /** No two recorded claims share an account, a Stellar address or a Signet address. */
  lemma OneClaimEach(l: Limits, now: Time, events: seq<Event>, i: nat, j: nat)
    ensures var claims := Run(l, Initial(now), events).claims;
            i < j < |claims| ==>
              && claims[i].who.userKey != claims[j].who.userKey
              && claims[i].who.stellar != claims[j].who.stellar
              && claims[i].who.address != claims[j].who.address
  {
    RunKeeps(l, now, events);
  }

  /** Every interval of the window's length holds at most the allowance of claims from one IP. */
  lemma IpLimitHolds(l: Limits, now: Time, events: seq<Event>, ip: string, from: int)
    ensures IpBetween(Run(l, Initial(now), events).claims, ip, from, from + l.ipWindow) <= l.ipClaims
  {
    RunKeeps(l, now, events);
    WindowHolds(l, Run(l, Initial(now), events).claims, ip, from);
  }

  /** Every UTC day holds at most `dailyCap` recorded claims. */
  lemma DailyLimitHolds(l: Limits, now: Time, events: seq<Event>, day: nat)
    ensures Between(Run(l, Initial(now), events).claims, day * DAY, (day + 1) * DAY) <= l.dailyCap
  {
    RunKeeps(l, now, events);
    DayHolds(l, Run(l, Initial(now), events).claims, day);
  }

  /**
   * Whatever the indexer lists and however late, an outpoint that was an input
   * of an accepted broadcast, or of one of unknown outcome, is not an input of
   * another one the same process makes within the reservation time after the
   * first was answered.
   */
  lemma NoDoubleSpend(l: Limits, now: Time, events: seq<Event>, i: nat, j: nat, o: Outpoint)
    ensures var sent := Run(l, Initial(now), events).sent;
            i < j < |sent| && o in sent[i].inputs && o in sent[j].inputs ==> sent[j].at >= sent[i].answered + 1_800_000
  {
    RunKeeps(l, now, events);
  }

  /** If no listing names an outpoint twice, no transaction spends one twice. */
  lemma DistinctInputs(l: Limits, now: Time, events: seq<Event>, i: nat)
    requires CleanListings(events)
    ensures var sent := Run(l, Initial(now), events).sent;
            i < |sent| ==> NoRepeats(sent[i].inputs)
  {
    RunKeepsDistinct(l, now, events);
    var sent := Run(l, Initial(now), events).sent;
    if i < |sent| {
      assert sent[i] in sent;
    }
  }

  /** Once expired reservations are forgotten, a listed coin is offered exactly when none on it ends later than now. */
  lemma OfferedAfterPruning(coins: seq<ListedCoin>, s: State, u: Utxo)
    requires u in CoinsOf(coins)
    ensures u in Offer(coins, Pruned(s)) <==> !(Point(u) in s.reserved && s.reserved[Point(u)] > s.now)
  {
    hide Offer;
    OfferIsFree(coins, Pruned(s), u);
  }

  /**
   * Exactly when a coin the indexer still lists is offered again: when at the
   * last pruning, which is no older than the claim's entry, every broadcast
   * that spent it had been answered half an hour before. Whether it is still
   * listed makes no difference.
   */
  lemma ListedCoinIsOfferedExactly(l: Limits, now: Time, events: seq<Event>, coins: seq<ListedCoin>, u: Utxo)
    requires u in CoinsOf(coins) && Run(l, Initial(now), events).stage.Listing?
    ensures var s := Run(l, Initial(now), events);
            && s.stage.checked <= s.pruned <= s.now
            && (u in Offer(coins, s) <==> forall b | b in s.sent && Point(u) in b.inputs :: b.answered + 1_800_000 <= s.pruned)
  {
    hide Offer;
    var s := Run(l, Initial(now), events);
    RunKeeps(l, now, events);
    OfferIsFree(coins, s, u);
    if Point(u) in s.reserved {
      assert SpentUntil(s.sent, Point(u), s.reserved[Point(u)]);
    }
  }

  // ------------------------------------------------------------ the change

  /**
   * Over every run, each coin the faucet keeps as unlisted change is an output
   * of a broadcast of its own that was accepted: the one that pays the faucet,
   * holding what the inputs leave after the amount and the fee. It is no
   * output of a claimant's.
   */
  lemma ChangeIsOurs(l: Limits, now: Time, events: seq<Event>, p: Change) returns (b: Broadcast)
    requires p in Run(l, Initial(now), events).pending
    ensures var sent := Run(l, Initial(now), events).sent;
            && b in sent && b.txid == Some(p.coin.txid) && p.expiresAt == b.answered + RESERVATION_TTL
            && p.coin.vout < |b.payment.outputs| && b.payment.outputs[p.coin.vout].to == CoinSelection.Payer
            && (forall i | 0 <= i < |b.payment.outputs| && i != p.coin.vout :: b.payment.outputs[i].to == CoinSelection.Recipient)
            && p.coin.value + l.amountSat + b.payment.feeSat == CoinSelection.Total(b.payment.inputs)
            && b.inputs == Points(b.payment.inputs)
  {
    RunKeeps(l, now, events);
    var s := Run(l, Initial(now), events);
    assert FromBroadcast(s.sent, p, s.pruned);
    b :| b in s.sent && PaysUs(b, p.coin) && p.expiresAt == b.answered + RESERVATION_TTL;
    CoinSelection.OutputsAddUp(l.amountSat, b.payment.changeSat);
    assert |b.payment.outputs| == 2 ==>
      b.payment.outputs == [CoinSelection.Output(CoinSelection.Recipient, l.amountSat),
                            CoinSelection.Output(CoinSelection.Payer, b.payment.changeSat)];
  }

  /** Every broadcast of every run pays its claimant the faucet's amount, and spends no more than its own inputs. */
  lemma BroadcastsPay(l: Limits, now: Time, events: seq<Event>, b: Broadcast)
    requires b in Run(l, Initial(now), events).sent
    ensures b.inputs == Points(b.payment.inputs) && b.payment.outputs != []
    ensures b.payment.outputs[0] == CoinSelection.Output(CoinSelection.Recipient, l.amountSat)
    ensures CoinSelection.Total(b.payment.inputs) == CoinSelection.TotalOut(b.payment.outputs) + b.payment.feeSat
    ensures forall i | 1 <= i < |b.payment.outputs| :: b.payment.outputs[i].to == CoinSelection.Payer
  {
    RunKeeps(l, now, events);
  }

  /** So a coin offered to the selection that the indexer does not list is the faucet's own. */
  lemma OfferedChangeIsOurs(l: Limits, now: Time, events: seq<Event>, coins: seq<ListedCoin>, u: Utxo) returns (b: Broadcast)
    requires u in Offer(coins, Run(l, Initial(now), events)) && u !in CoinsOf(coins)
    ensures b in Run(l, Initial(now), events).sent && b.txid == Some(u.txid)
    ensures u.vout < |b.payment.outputs| && b.payment.outputs[u.vout] == CoinSelection.Output(CoinSelection.Payer, u.value)
  {
    var s := Run(l, Initial(now), events);
    var p := OfferedUnlisted(coins, s, u);
    RunKeeps(l, now, events);
    assert FromBroadcast(s.sent, p, s.pruned);
    b :| b in s.sent && PaysUs(b, p.coin) && p.expiresAt == b.answered + RESERVATION_TTL;
  }

  lemma OfferedUnlisted(coins: seq<ListedCoin>, s: State, u: Utxo) returns (p: Change)
    requires u in Offer(coins, s) && u !in CoinsOf(coins)
    ensures p in s.pending && p.coin == u
  {
    FreeFacts(coins, s.reserved);
    RankedCoins(FreeListings(coins, s.reserved), u);
    UnreservedFacts(CoinsOf(coins), s.reserved);
    var left := Unlisted(s.pending, Points(CoinsOf(coins)));
    UnreservedFacts(Coins(left), s.reserved);
    UnlistedFacts(s.pending, Points(CoinsOf(coins)));
    assert u in Coins(left);
    var i :| 0 <= i < |left| && left[i].coin == u;
    p := left[i];
  }

  /** And none is forgotten: the moment a payment is accepted, every output of it that pays the faucet is kept. */
  lemma AcceptedChangeIsKept(l: Limits, now: Time, events: seq<Event>, txid: string, recorded: bool, i: nat)
    requires var s := Run(l, Initial(now), events);
             s.stage.Sending? && IdNames(s, txid, s.stage.payment.inputs)
             && i < |s.stage.payment.outputs| && s.stage.payment.outputs[i].to == CoinSelection.Payer
    ensures var s := Run(l, Initial(now), events);
            Change(CoinSelection.Utxo(txid, i, s.stage.payment.outputs[i].value), s.now + RESERVATION_TTL)
              in Step(l, s, Answered(Accepted(txid, recorded))).pending
  {
    hide Settle;
    hide Pruned;
    hide Offer;
    RunKeeps(l, now, events);
    var s := Run(l, Initial(now), events);
    StagePays(l, s);
    SettledChange(l, s, txid, recorded, i);
  }

  lemma StagePays(l: Limits, s: State)
    requires Inv(l, s) && s.stage.Sending?
    ensures CoinSelection.Pays(s.stage.payment, l.amountSat)
  {
    hide LedgerOk;
    hide Check;
    hide ReservedOk;
    hide PendingOk;
    hide Spaced;
    hide CoinSelection.Pays;
  }

  lemma SettledChange(l: Limits, s: State, txid: string, recorded: bool, i: nat)
    requires s.stage.Sending? && IdNames(s, txid, s.stage.payment.inputs) && CoinSelection.Pays(s.stage.payment, l.amountSat)
    requires i < |s.stage.payment.outputs| && s.stage.payment.outputs[i].to == CoinSelection.Payer
    ensures Change(CoinSelection.Utxo(txid, i, s.stage.payment.outputs[i].value), s.now + RESERVATION_TTL)
              in Settle(s, Accepted(txid, recorded)).pending
  {
    hide Unlisted;
    hide ReserveAll;
    hide IdNames;
    var kept := ChangeOf(txid, s.stage.payment, s.now);
    assert kept[0] in Reserve(s, s.stage.payment.inputs).pending + kept;
  }

  // ----------------------------------------------------- spent while listed

  lemma {:induction false} RunSteps(l: Limits, s: State, events: seq<Event>, e: Event)
    ensures Run(l, s, events + [e]) == Step(l, Run(l, s, events), e)
  {
    assert (events + [e])[..|events|] == events;
  }

  lemma Enters(l: Limits, s: State, who: Claimant, ip: string)
    requires s.stage.Free? && Check(l, s.claims, who, true, ip, s.now) == None && s.pending == []
    ensures Step(l, s, Enter(who, ip)) == s.(reserved := Live(s.reserved, s.now), pruned := s.now, stage := Listing(who, ip, s.now))
  {
    hide Check;
    hide Live;
  }

  lemma OneFree(coins: seq<ListedCoin>, reserved: map<Outpoint, Time>, u: Utxo)
    requires coins == [ListedCoin(u, true)] && Point(u) !in reserved
    ensures CoinsOf(Ranked(FreeListings(coins, reserved))) == [u]
  {
    assert coins[..|coins| - 1] == [];
    assert FreeListings([], reserved) == [] && FreeListings(coins, reserved) == coins;
    assert Place([], coins[0]) == coins && Ranked(coins) == coins;
  }

  lemma NoChange(points: seq<Outpoint>, reserved: map<Outpoint, Time>)
    ensures Unlisted([], points) == [] && Unreserved(Coins([]), reserved) == []
  {
  }

  lemma OneReserved(reserved: map<Outpoint, Time>, u: Utxo, until: Time)
    ensures ReserveAll(reserved, [u], until) == reserved[Point(u) := until] && Points([u]) == [Point(u)]
  {
    var inputs := [u];
    assert inputs[..|inputs| - 1] == [] && ReserveAll(reserved, [], until) == reserved;
  }

  lemma ListsOne(l: Limits, s: State, u: Utxo)
    requires s.stage.Listing? && s.pending == [] && Point(u) !in s.reserved
    ensures Step(l, s, Listed([ListedCoin(u, true)])) == s.(stage := Pricing(s.stage.who, s.stage.ip, s.stage.checked, [u]))
  {
    hide FreeListings;
    hide Ranked;
    hide CoinsOf;
    hide Unlisted;
    hide Unreserved;
    hide Coins;
    hide Points;
    var coins := [ListedCoin(u, true)];
    OneFree(coins, s.reserved, u);
    NoChange(Points(CoinsOf(coins)), s.reserved);
    assert [u] + [] == [u];
  }

  /** All of one coin, less the amount, for the fee. */
  function Plain(u: Utxo, amountSat: nat): Payment
    requires u.value >= amountSat
  {
    CoinSelection.Payment([u], [CoinSelection.Output(CoinSelection.Recipient, amountSat)], u.value - amountSat, 0)
  }

  lemma PlainPays(u: Utxo, amountSat: nat)
    requires u.value >= amountSat
    ensures CoinSelection.Pays(Plain(u, amountSat), amountSat)
  {
    CoinSelection.OutputsAddUp(amountSat, 0);
    var inputs := [u];
    assert inputs[..|inputs| - 1] == [] && CoinSelection.Total([]) == 0;
  }

  lemma PricesOne(l: Limits, s: State, u: Utxo)
    requires s.stage.Pricing? && s.stage.offered == [u] && u.value >= l.amountSat
    ensures Step(l, s, Priced(Plain(u, l.amountSat)))
         == s.(stage := Sending(s.stage.who, s.stage.ip, s.stage.checked, Plain(u, l.amountSat), s.now))
  {
    hide CoinSelection.Pays;
    PlainPays(u, l.amountSat);
  }

  lemma SettlesOne(l: Limits, s: State, u: Utxo, txid: string)
    requires u.value >= l.amountSat && s.stage.Sending? && s.stage.payment == Plain(u, l.amountSat) && s.pending == []
    requires forall b | b in s.sent :: b.txid != Some(txid)
    ensures Step(l, s, Answered(Accepted(txid, true)))
         == s.(stage := Free, reserved := s.reserved[Point(u) := s.now + RESERVATION_TTL],
               sent := s.sent + [Broadcast([Point(u)], Plain(u, l.amountSat), s.stage.at, s.now, Some(txid))],
               claims := s.claims + [Claim(s.stage.who, s.stage.ip, s.now)])
  {
    hide ReserveAll;
    hide Points;
    hide Unlisted;
    OneReserved(s.reserved, u, s.now + RESERVATION_TTL);
    NoChange(Points([u]), s.reserved);
    assert s.pending + [] == s.pending;
  }

  /** A claim is served from the one coin the indexer lists, without change. */
  lemma Serve(l: Limits, s: State, who: Claimant, ip: string, u: Utxo, txid: string) returns (events: seq<Event>)
    requires u.value >= l.amountSat
    requires s.stage.Free? && Check(l, s.claims, who, true, ip, s.now) == None && s.pending == []
    requires Point(u) in s.reserved ==> s.reserved[Point(u)] <= s.now
    requires forall b | b in s.sent :: b.txid != Some(txid)
    ensures var s' := Run(l, s, events);
            && s'.stage.Free? && s'.now == s.now && s'.pending == [] && s'.claims == s.claims + [Claim(who, ip, s.now)]
            && s'.sent == s.sent + [Broadcast([Point(u)], Plain(u, l.amountSat), s.now, s.now, Some(txid))]
            && Point(u) in s'.reserved && s'.reserved[Point(u)] == s.now + RESERVATION_TTL
    ensures Listed([ListedCoin(u, true)]) in events
    ensures forall e | e in events && e.Listed? :: e.coins == [ListedCoin(u, true)]
  {
    hide Check;
    hide Step;
    events := [Enter(who, ip), Listed([ListedCoin(u, true)]), Priced(Plain(u, l.amountSat)), Answered(Accepted(txid, true))];
    var s1 := s.(reserved := Live(s.reserved, s.now), pruned := s.now, stage := Listing(who, ip, s.now));
    var s2 := s1.(stage := Pricing(who, ip, s.now, [u]));
    var s3 := s1.(stage := Sending(who, ip, s.now, Plain(u, l.amountSat), s.now));
    Enters(l, s, who, ip);
    ListsOne(l, s1, u);
    PricesOne(l, s2, u);
    SettlesOne(l, s3, u, txid);
    FourSteps(l, s, events);
  }

  lemma FourSteps(l: Limits, s: State, e: seq<Event>)
    requires |e| == 4
    ensures Run(l, s, e) == Step(l, Step(l, Step(l, Step(l, s, e[0]), e[1]), e[2]), e[3])
  {
    hide Step;
    assert e[..1] == [] + [e[0]] && e[..2] == e[..1] + [e[1]] && e[..3] == e[..2] + [e[2]] && e == e[..3] + [e[3]];
    RunSteps(l, s, [], e[0]);
    RunSteps(l, s, e[..1], e[1]);
    RunSteps(l, s, e[..2], e[2]);
    RunSteps(l, s, e[..3], e[3]);
  }

  lemma {:induction false} RunsOn(l: Limits, s: State, a: seq<Event>, b: seq<Event>)
    ensures Run(l, s, a + b) == Run(l, Run(l, s, a), b)
    decreases |b|
  {
    if b == [] {
      assert a + b == a;
    } else {
      RunsOn(l, s, a, b[..|b| - 1]);
      assert (a + b)[..|a + b| - 1] == a + b[..|b| - 1];
    }
  }

  /**
   * An indexer that lists a spent coin for half an hour gets it spent twice:
   * the second broadcast is accepted the moment the reservation runs out.
   */
  lemma StillListedIsSpentAgain(l: Limits, u: Utxo) returns (events: seq<Event>)
    requires l.dailyCap >= 2 && l.ipClaims >= 1 && u.value >= l.amountSat
    ensures var sent := Run(l, Initial(0), events).sent;
            && |sent| == 2 && sent[0].txid.Some? && sent[1].txid.Some?
            && sent[0].inputs == sent[1].inputs == [Point(u)] && sent[1].at == sent[0].answered + 1_800_000
    ensures Listed([ListedCoin(u, true)]) in events
    ensures forall e | e in events && e.Listed? :: e.coins == [ListedCoin(u, true)]
  {
    hide Step;
    var first, second := Claimant("a", "A", "alice"), Claimant("b", "B", "bob");
    var e1 := Serve(l, Initial(0), first, "one", u, "x");
    var s1 := Run(l, Initial(0), e1);
    var wait := [Tick(RESERVATION_TTL)];
    var s2 := Run(l, s1, wait);
    assert s2 == s1.(now := RESERVATION_TTL) by { Waits(l, s1, RESERVATION_TTL); }
    assert Check(l, s2.claims, second, true, "two", s2.now) == None by { SecondClaim(l, first, second); }
    var e2 := Serve(l, s2, second, "two", u, "y");
    events := e1 + wait + e2;
    RunsOn(l, Initial(0), e1 + wait, e2);
    RunsOn(l, Initial(0), e1, wait);
  }

  lemma Waits(l: Limits, s: State, to: Time)
    requires s.now <= to
    ensures Run(l, s, [Tick(to)]) == s.(now := to)
  {
    assert [Tick(to)] == [] + [Tick(to)];
    RunSteps(l, s, [], Tick(to));
  }

  lemma SecondClaim(l: Limits, first: Claimant, second: Claimant)
    requires l.dailyCap >= 2 && l.ipClaims >= 1
    requires first.userKey != second.userKey && first.stellar != second.stellar && first.address != second.address
    ensures Check(l, [] + [Claim(first, "one", 0)], second, true, "two", RESERVATION_TTL) == None
  {
    var claims := [Claim(first, "one", 0)];
    assert [] + claims == claims;
    assert IpTimes(claims, "two", RESERVATION_TTL - l.ipWindow + 1) == [];
    assert CountSince(claims, StartOfUtcDay(RESERVATION_TTL)) <= 1;
  }
}
