/**
 * The faucet as a state machine (relayer/src/faucet/service.ts). One step is
 * what runs between two `await`s; sends go one at a time through the lock,
 * while status requests read the coins at any moment.
 */
module FaucetProtocol {
  import opened Wrappers
  import opened FaucetClaims
  import CoinSelection

  type Utxo = CoinSelection.Utxo

  datatype Outpoint = Outpoint(txid: string, vout: nat)

  datatype Change = Change(coin: Utxo, expiresAt: Time)

  /** A coin as the indexer lists it. */
  datatype ListedCoin = ListedCoin(coin: Utxo, confirmed: bool)

  type Payment = CoinSelection.Payment

  /**
   * A broadcast that was accepted or whose outcome is unknown, with the times
   * it was made and answered, and the payment it carried.
   */
  datatype Broadcast = Broadcast(inputs: seq<Outpoint>, payment: Payment, at: Time, answered: Time, txid: Option<string>)

  /** Where the claim inside the lock waits. */
  datatype Stage =
    | Free
    | Listing(who: Claimant, ip: string, checked: Time)
    | Pricing(who: Claimant, ip: string, checked: Time, offered: seq<Utxo>)
    | Sending(who: Claimant, ip: string, checked: Time, payment: Payment, at: Time)

  /**
   * History: `sent` lists the broadcasts of this process and `pruned` is when
   * it last forgot expired reservations. Only the claims outlive a restart.
   */
  datatype State = State(
    now: Time,
    claims: seq<Claim>,
    reserved: map<Outpoint, Time>,
    pending: seq<Change>,
    stage: Stage,
    sent: seq<Broadcast>,
    pruned: Time)

  datatype Outcome = Accepted(txid: string, recorded: bool) | Rejected | Unknown

  datatype Event =
    | Tick(to: Time)
    | Enter(who: Claimant, ip: string)
    | Listed(coins: seq<ListedCoin>)
    | UpstreamFails
    | Priced(payment: Payment)
    | CannotPay
    | Answered(outcome: Outcome)
    | StatusBegins
    | StatusListed(coins: seq<ListedCoin>)
    | Restart

  const RESERVATION_TTL: nat := 1_800_000

  function Point(u: Utxo): Outpoint { Outpoint(u.txid, u.vout) }

  function Points(coins: seq<Utxo>): seq<Outpoint> { seq(|coins|, i requires 0 <= i < |coins| => Point(coins[i])) }

  // ------------------------------------------------------------ spendable

  /** Reservations and change that have expired are forgotten. */
  function Live(reserved: map<Outpoint, Time>, t: Time): map<Outpoint, Time>
  {
    map o | o in reserved && reserved[o] > t :: reserved[o]
  }

  function LiveChange(pending: seq<Change>, t: Time): seq<Change>
  {
    if pending == [] then []
    else
      var rest := LiveChange(pending[..|pending| - 1], t);
      if pending[|pending| - 1].expiresAt > t then rest + [pending[|pending| - 1]] else rest
  }

  function Unlisted(pending: seq<Change>, points: seq<Outpoint>): seq<Change>
  {
    if pending == [] then []
    else
      var rest := Unlisted(pending[..|pending| - 1], points);
      if Point(pending[|pending| - 1].coin) in points then rest else rest + [pending[|pending| - 1]]
  }

  function Unreserved(coins: seq<Utxo>, reserved: map<Outpoint, Time>): seq<Utxo>
  {
    if coins == [] then []
    else
      var rest := Unreserved(coins[..|coins| - 1], reserved);
      if Point(coins[|coins| - 1]) in reserved then rest else rest + [coins[|coins| - 1]]
  }

  // ------------------------------------------------------------ the order

  /** `a` may stand before `b`: confirmed coins first, then the larger ones. */
  predicate Ahead(a: ListedCoin, b: ListedCoin) { (a.confirmed && !b.confirmed) || (a.confirmed == b.confirmed && a.coin.value >= b.coin.value) }

  /** `x` goes behind every coin that may stand before it, as a stable sort puts it. */
  function Place(ranked: seq<ListedCoin>, x: ListedCoin): seq<ListedCoin>
  {
    if ranked == [] || Ahead(ranked[|ranked| - 1], x) then ranked + [x]
    else Place(ranked[..|ranked| - 1], x) + [ranked[|ranked| - 1]]
  }

  function Ranked(coins: seq<ListedCoin>): seq<ListedCoin>
  {
    if coins == [] then [] else Place(Ranked(coins[..|coins| - 1]), coins[|coins| - 1])
  }

  /** The listed coins that are not reserved, as listed. */
  function FreeListings(coins: seq<ListedCoin>, reserved: map<Outpoint, Time>): seq<ListedCoin>
  {
    if coins == [] then []
    else
      var rest := FreeListings(coins[..|coins| - 1], reserved);
      if Point(coins[|coins| - 1].coin) in reserved then rest else rest + [coins[|coins| - 1]]
  }

  function CoinsOf(coins: seq<ListedCoin>): seq<Utxo> { seq(|coins|, i requires 0 <= i < |coins| => coins[i].coin) }

  function Coins(pending: seq<Change>): seq<Utxo> { seq(|pending|, i requires 0 <= i < |pending| => pending[i].coin) }

  /** The listed coins in their order, then the unlisted change, each without what is reserved. */
  function Offer(coins: seq<ListedCoin>, s: State): seq<Utxo>
  {
    CoinsOf(Ranked(FreeListings(coins, s.reserved)))
    + Unreserved(Coins(Unlisted(s.pending, Points(CoinsOf(coins)))), s.reserved)
  }

  /** The part of `spendable` before the listing is asked for. */
  function Pruned(s: State): State
  {
    s.(reserved := Live(s.reserved, s.now), pending := LiveChange(s.pending, s.now), pruned := s.now)
  }

  // ------------------------------------------------------------ sending

  function ReserveAll(reserved: map<Outpoint, Time>, inputs: seq<Utxo>, until: Time): map<Outpoint, Time>
  {
    if inputs == [] then reserved
    else ReserveAll(reserved, inputs[..|inputs| - 1], until)[Point(inputs[|inputs| - 1]) := until]
  }

  function Reserve(s: State, inputs: seq<Utxo>): State
  {
    s.(reserved := ReserveAll(s.reserved, inputs, s.now + RESERVATION_TTL), pending := Unlisted(s.pending, Points(inputs)))
  }

  /**
   * An id is the hash of its transaction, so it names one set of inputs. It may
   * come again: the same claimant, inputs and fee give the same transaction.
   */
  predicate IdNames(s: State, txid: string, inputs: seq<Utxo>)
  {
    forall b | b in s.sent && b.txid == Some(txid) :: b.inputs == Points(inputs)
  }

  function Settle(s: State, outcome: Outcome): State
    requires s.stage.Sending?
  {
    var p := s.stage;
    match outcome
    case Rejected => s.(stage := Free)
    case Unknown =>
      Reserve(s, p.payment.inputs).(
        stage := Free, sent := s.sent + [Broadcast(Points(p.payment.inputs), p.payment, p.at, s.now, None)])
    case Accepted(txid, recorded) =>
      if !IdNames(s, txid, p.payment.inputs) then s
      else
        var r := Reserve(s, p.payment.inputs);
        r.(stage := Free,
           sent := s.sent + [Broadcast(Points(p.payment.inputs), p.payment, p.at, s.now, Some(txid))],
           pending := r.pending + ChangeOf(txid, p.payment, s.now),
           claims := if recorded then s.claims + [Claim(p.who, p.ip, s.now)] else s.claims)
  }

  /** What the faucet keeps of its own payment until the indexer lists it. */
  function ChangeOf(txid: string, payment: Payment, now: Time): seq<Change>
  {
    if payment.changeSat > 0 then [Change(CoinSelection.Utxo(txid, 1, payment.changeSat), now + RESERVATION_TTL)] else []
  }

  /** No outpoint twice. */
  predicate NoRepeats(points: seq<Outpoint>) { forall i, j | 0 <= i < j < |points| :: points[i] != points[j] }

  function Step(l: Limits, s: State, e: Event): State
  {
    match e
    case Tick(to) => if to < s.now then s else s.(now := to)
    case Enter(who, ip) =>
      if !s.stage.Free? || Check(l, s.claims, who, true, ip, s.now).Some? then s
      else Pruned(s).(stage := Listing(who, ip, s.now))
    case Listed(coins) =>
      if !s.stage.Listing? then s
      else
        s.(pending := Unlisted(s.pending, Points(CoinsOf(coins))), stage := Pricing(s.stage.who, s.stage.ip, s.stage.checked, Offer(coins, s)))
    case UpstreamFails => if s.stage.Listing? then s.(stage := Free) else s
    case Priced(payment) =>
      if !s.stage.Pricing? || !(payment.inputs <= s.stage.offered) || !CoinSelection.Pays(payment, l.amountSat) then s
      else s.(stage := Sending(s.stage.who, s.stage.ip, s.stage.checked, payment, s.now))
    case CannotPay => if s.stage.Pricing? then s.(stage := Free) else s
    case Answered(outcome) => if s.stage.Sending? then Settle(s, outcome) else s
    case StatusBegins => Pruned(s)
    case StatusListed(coins) => s.(pending := Unlisted(s.pending, Points(CoinsOf(coins))))
    case Restart => s.(reserved := map[], pending := [], stage := Free, sent := [], pruned := s.now)
  }

  function Initial(now: Time): State { State(now, [], map[], [], Free, [], now) }

  function Run(l: Limits, s: State, events: seq<Event>): State
  {
    if events == [] then s else Step(l, Run(l, s, events[..|events| - 1]), events[|events| - 1])
  }
}
