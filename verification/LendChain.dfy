/**
 * What the relayer needs of the lending contract's chain: its events in
 * order, paged reads of them, and views of the contract's state. The answers
 * follow the contract assumed of the RPC: a page holds every event between
 * its cursors, and an empty page means that nothing newer exists.
 */
module LendChain {
  import opened Wrappers

  /** RPC event ids and cursors. Both are zero-padded, so their order as text is their order as numbers. */
  type Id = nat

  /** An id is a 64-bit TOID, whose high half is the ledger, followed by a ten-digit index. */
  const IDS_PER_LEDGER: nat := 0x1_0000_0000 * 10_000_000_000

  function LedgerOf(id: Id): nat { id / IDS_PER_LEDGER }

  /** The cursor just before the first event of a ledger. */
  function CursorForLedger(ledger: nat): Id { ledger * IDS_PER_LEDGER }

  datatype Name = Deposit | Borrow | Repay | RepayFull | Liquidate | Supply | Withdraw

  /** An archived event; `subject` is a position or a supplier. */
  datatype Row = Row(id: Id, name: Name, subject: string, amount: int)

  /** An event of the contract; administrative ones decode to no row. */
  datatype Event = Event(id: Id, row: Option<Row>)

  datatype Status = Active | Closed | Liquidated

  /** The contract's state, as far as the views show it. */
  datatype Views = Views(positions: map<string, Status>, scaled: map<string, nat>, total: int)

  predicate Ordered(history: seq<Event>)
  {
    && (forall i, j | 0 <= i < j < |history| :: history[i].id < history[j].id)
    && (forall i | 0 <= i < |history| && history[i].row.Some? :: history[i].row.value.id == history[i].id)
  }

  /** How many events come at or before `cursor`. */
  function Pos(history: seq<Event>, cursor: Id): (n: nat)
    ensures n <= |history|
  {
    if history == [] then 0
    else if history[|history| - 1].id <= cursor then |history|
    else Pos(history[..|history| - 1], cursor)
  }

  lemma {:induction false} PosMeaning(history: seq<Event>, cursor: Id)
    requires Ordered(history)
    ensures var n := Pos(history, cursor);
            && (forall i | 0 <= i < n :: history[i].id <= cursor)
            && (forall i | n <= i < |history| :: history[i].id > cursor)
  {
    if history != [] && history[|history| - 1].id > cursor {
      PosMeaning(history[..|history| - 1], cursor);
    }
  }

  lemma PosUnique(history: seq<Event>, cursor: Id, n: nat)
    requires Ordered(history) && n <= |history|
    requires n > 0 ==> history[n - 1].id <= cursor
    requires n < |history| ==> history[n].id > cursor
    ensures Pos(history, cursor) == n
  {
    PosMeaning(history, cursor);
  }

  /** A cursor into a ledger whose events have all happened leaves none of its events out. */
  lemma PosInThePast(history: seq<Event>, cursor: Id, latest: nat, tip: nat)
    requires Ordered(history) && LedgerOf(cursor) <= latest
    requires forall k | 0 <= k < |history| && LedgerOf(history[k].id) <= latest :: k < tip
    ensures Pos(history, cursor) <= tip
  {
    PosMeaning(history, cursor);
    var n := Pos(history, cursor);
    if n > 0 {
      assert history[n - 1].id <= cursor;
      assert LedgerOf(history[n - 1].id) <= LedgerOf(cursor);
    }
  }

  /** The rows of a run of events. */
  function Decoded(events: seq<Event>): seq<Row>
  {
    if events == [] then []
    else
      var rest, last := Decoded(events[..|events| - 1]), events[|events| - 1];
      if last.row.Some? then rest + [last.row.value] else rest
  }

  lemma {:induction false} DecodedConcat(a: seq<Event>, b: seq<Event>)
    ensures Decoded(a + b) == Decoded(a) + Decoded(b)
    decreases |b|
  {
    if b == [] {
      assert a + b == a;
    } else {
      DecodedConcat(a, b[..|b| - 1]);
      assert (a + b)[..|a + b| - 1] == a + b[..|b| - 1];
    }
  }

  /**
   * The chain while the relayer runs. `history` and `world` are fixed in
   * advance; `tip` says how many events have happened so far, and any call
   * may find it, or the published releases, further on.
   */
  class Chain {
    const history: seq<Event>
    const world: seq<Views>
    var tip: nat
    var released: set<string>

    /** `world[n]` is the state after `n` events; an event without a row changes nothing the views show. */
    predicate Valid()
      reads this
    {
      && Ordered(history) && |world| == |history| + 1 && tip <= |history|
      && (forall k | 0 <= k < |history| :: LedgerOf(history[k].id) >= 1)
      && forall k | 0 <= k < |history| && history[k].row.None? :: world[k + 1] == world[k]
    }

    /** Time passes: events happen and releases are published, none is undone. */
    method Later()
      requires Valid()
      modifies this
      ensures Valid() && old(tip) <= tip && old(released) <= released
    {
      var t :| tip <= t <= |history|;
      tip := t;
      var more: set<string> := *;
      released := released + more;
    }

    /** The ledgers the RPC can serve events for; every event of the latest and before has happened. */
    method LedgerRange() returns (range: Option<(nat, nat)>)
      requires Valid()
      modifies this
      ensures Valid() && old(tip) <= tip && old(released) <= released
      ensures range.Some? ==> forall k | 0 <= k < |history| && LedgerOf(history[k].id) <= range.value.1 :: k < tip
    {
      Later();
      var fails: bool := *;
      if fails {
        return None;
      }
      assert forall k | 0 <= k < |history| && LedgerOf(history[k].id) <= 0 :: k < tip;
      var latest: nat :| forall k | 0 <= k < |history| && LedgerOf(history[k].id) <= latest :: k < tip;
      var oldest: nat := *;
      return Some((oldest, latest));
    }

    /** A page of events after `cursor`, and where the next one continues; `None` when the call fails. */
    method GetEvents(cursor: Id) returns (page: Option<(seq<Event>, Id)>)
      requires Valid() && Pos(history, cursor) <= tip
      modifies this
      ensures Valid() && old(tip) <= tip && old(released) <= released
      ensures page.Some? ==>
        var a, b := Pos(history, cursor), Pos(history, page.value.1);
        cursor <= page.value.1 && a <= b <= tip && page.value.0 == history[a..b] && (a == b ==> b == tip)
    {
      Later();
      var fails: bool := *;
      if fails {
        return None;
      }
      var a := Pos(history, cursor);
      var b :| a <= b <= tip && (a == b ==> b == tip);
      var next := if b == a then cursor else history[b - 1].id;
      if b > a {
        PosMeaning(history, cursor);
        PosUnique(history, next, b);
      }
      return Some((history[a..b], next));
    }

    /** The views answer for the moment they are asked, or fail. */
    method PositionStatus(position: string) returns (status: Option<Option<Status>>)
      requires Valid()
      modifies this
      ensures Valid() && old(tip) <= tip && old(released) <= released
      ensures status.Some? ==>
        status.value == if position in world[tip].positions then Some(world[tip].positions[position]) else None
    {
      Later();
      var fails: bool := *;
      status := if fails then None
        else Some(if position in world[tip].positions then Some(world[tip].positions[position]) else None);
    }

    method ScaledSupply(supplier: string) returns (scaled: Option<int>)
      requires Valid()
      modifies this
      ensures Valid() && old(tip) <= tip && old(released) <= released
      ensures scaled.Some? ==> scaled.value == ScaledOf(world[tip], supplier)
    {
      Later();
      var fails: bool := *;
      scaled := if fails then None else Some(ScaledOf(world[tip], supplier));
    }

    method TotalScaledSupply() returns (total: Option<int>)
      requires Valid()
      modifies this
      ensures Valid() && old(tip) <= tip && old(released) <= released
      ensures total.Some? ==> total.value == world[tip].total
    {
      Later();
      var fails: bool := *;
      total := if fails then None else Some(world[tip].total);
    }

    method HasRelease(position: string) returns (published: Option<bool>)
      requires Valid()
      modifies this
      ensures Valid() && old(tip) <= tip && old(released) <= released
      ensures published.Some? ==> published.value == (position in released)
    {
      Later();
      var fails: bool := *;
      published := if fails then None else Some(position in released);
    }
  }

  /** A supplier the contract does not know holds nothing. */
  function ScaledOf(v: Views, supplier: string): nat { if supplier in v.scaled then v.scaled[supplier] else 0 }
}
