/** The repay watcher: its durable table of owed releases and its cursor (relayer/src/repay-watcher/release-store.ts, poller.ts). */
module ReleaseWatcher {
  import opened Wrappers
  import opened LendChain

  type Time = nat

  const BASE_RETRY_DELAY: nat := 30_000
  const MAX_RETRY_DELAY: nat := 3_600_000
  const MAX_RELEASE_ATTEMPTS: nat := 24
  const SWEEP_LIMIT: nat := 10

  datatype Pending = Pending(firstSeen: Time, attempts: nat, next: Time)

  function Pow2(n: nat): nat { if n == 0 then 1 else 2 * Pow2(n - 1) }

  function ReleaseRetryDelay(attempts: nat): nat
    requires attempts >= 1
  {
    var d := BASE_RETRY_DELAY * Pow2(if attempts - 1 < 20 then attempts - 1 else 20);
    if d < MAX_RETRY_DELAY then d else MAX_RETRY_DELAY
  }

  // ------------------------------------------------------- durable state

  function Record(rows: map<string, Pending>, txids: seq<string>, now: Time): map<string, Pending>
  {
    if txids == [] then rows
    else
      var rest, txid := Record(rows, txids[..|txids| - 1], now), txids[|txids| - 1];
      if txid in rest then rest else rest[txid := Pending(now, 0, now)]
  }

  function Failing(p: Pending, now: Time): Pending
  {
    Pending(p.firstSeen, p.attempts + 1, now + ReleaseRetryDelay(p.attempts + 1))
  }

  predicate IsDue(p: Pending, now: Time) { p.next <= now && p.attempts < MAX_RELEASE_ATTEMPTS }

  /** The positions repaid in full by a run of events. */
  function Repaid(events: seq<Event>): seq<string>
  {
    if events == [] then []
    else
      var rest, last := Repaid(events[..|events| - 1]), events[|events| - 1];
      if last.row.Some? && last.row.value.name == RepayFull then rest + [last.row.value.subject] else rest
  }

  /** Every position repaid in full up to `at` is a pending row or has its release on chain. */
  ghost predicate Covered(rows: map<string, Pending>, at: Id, history: seq<Event>, released: set<string>)
  {
    forall txid | txid in Repaid(history[..Pos(history, at)]) :: txid in rows || txid in released
  }

  lemma {:induction false} RepaidConcat(a: seq<Event>, b: seq<Event>)
    ensures Repaid(a + b) == Repaid(a) + Repaid(b)
    decreases |b|
  {
    if b == [] {
      assert a + b == a;
    } else {
      RepaidConcat(a, b[..|b| - 1]);
      assert (a + b)[..|a + b| - 1] == a + b[..|b| - 1];
    }
  }

  lemma {:induction false} RecordFacts(rows: map<string, Pending>, txids: seq<string>, now: Time)
    ensures var r := Record(rows, txids, now);
            && (forall t | t in rows :: t in r && r[t] == rows[t])
            && (forall t :: t in r <==> t in rows || t in txids)
            && (forall t | t in r && t !in rows :: r[t].firstSeen == now && r[t].attempts == 0 && r[t].next == now)
    decreases |txids|
  {
    if txids != [] {
      RecordFacts(rows, txids[..|txids| - 1], now);
      assert txids == txids[..|txids| - 1] + [txids[|txids| - 1]];
    }
  }

  /** Recording a page keeps every row, and covers what the page repaid. */
  lemma RecordCovers(rows: map<string, Pending>, at: Id, next: Id, now: Time, history: seq<Event>, released: set<string>)
    requires Covered(rows, at, history, released) && Pos(history, at) <= Pos(history, next)
    ensures Covered(Record(rows, Repaid(history[Pos(history, at)..Pos(history, next)]), now), next, history, released)
  {
    var a, b := Pos(history, at), Pos(history, next);
    RecordFacts(rows, Repaid(history[a..b]), now);
    RepaidConcat(history[..a], history[a..b]);
    assert history[..a] + history[a..b] == history[..b];
  }

  // ------------------------------------------- every crash, in every order

  /** What survives a crash, next to what the chain shows. */
  datatype Durable = Durable(rows: map<string, Pending>, at: Id, tip: nat, released: set<string>)

  /**
   * The writes to the durable state, each one transaction, and the chain's own
   * progress. A crash only decides which write is the last before a restart.
   */
  datatype Write =
    | ChainMoves(tip: nat, released: set<string>)
    | PageRecorded(next: Id, now: Time)
    | PublishFailed(txid: string, now: Time)
    | ReleaseSeen(txid: string)

  function Apply(history: seq<Event>, d: Durable, w: Write): Durable
  {
    match w
    case ChainMoves(tip, released) =>
      if d.tip <= tip <= |history| then d.(tip := tip, released := d.released + released) else d
    case PageRecorded(next, now) =>
      var a, b := Pos(history, d.at), Pos(history, next);
      if a <= b <= d.tip then d.(rows := Record(d.rows, Repaid(history[a..b]), now), at := next) else d
    case PublishFailed(txid, now) => if txid in d.rows then d.(rows := d.rows[txid := Failing(d.rows[txid], now)]) else d
    case ReleaseSeen(txid) => if txid in d.released then d.(rows := d.rows - {txid}) else d
  }

  function ApplyAll(history: seq<Event>, d: Durable, writes: seq<Write>): Durable
  {
    if writes == [] then d else Apply(history, ApplyAll(history, d, writes[..|writes| - 1]), writes[|writes| - 1])
  }

  /**
   * No repayment is lost: after any run of writes, from any covered start,
   * every position repaid in full at or before the cursor is pending or released.
   */
  lemma {:induction false} NothingIsLost(history: seq<Event>, d: Durable, writes: seq<Write>)
    requires Covered(d.rows, d.at, history, d.released)
    ensures var d' := ApplyAll(history, d, writes); Covered(d'.rows, d'.at, history, d'.released)
    decreases |writes|
  {
    if writes != [] {
      var front, w := writes[..|writes| - 1], writes[|writes| - 1];
      NothingIsLost(history, d, front);
      var m := ApplyAll(history, d, front);
      if w.PageRecorded? && Pos(history, m.at) <= Pos(history, w.next) {
        RecordCovers(m.rows, m.at, w.next, w.now, history, m.released);
      }
    }
  }

  /** A row leaves the table only when its release is on chain. */
  lemma {:induction false} RowsLeaveWhenReleased(history: seq<Event>, d: Durable, writes: seq<Write>, txid: string)
    requires txid in d.rows
    ensures var d' := ApplyAll(history, d, writes); txid in d'.rows || txid in d'.released
    decreases |writes|
  {
    if writes != [] {
      var front, w := writes[..|writes| - 1], writes[|writes| - 1];
      RowsLeaveWhenReleased(history, d, front, txid);
      var m := ApplyAll(history, d, front);
      if w.PageRecorded? && Pos(history, m.at) <= Pos(history, w.next) {
        RecordFacts(m.rows, Repaid(history[Pos(history, m.at)..Pos(history, w.next)]), w.now);
      }
    }
  }

  predicate Names(w: Write, txid: string) { (w.PublishFailed? || w.ReleaseSeen?) && w.txid == txid }

  /** However the other releases fail or succeed, a row no write names stays as it is. */
  lemma {:induction false} OthersUntouched(history: seq<Event>, d: Durable, writes: seq<Write>, txid: string)
    requires txid in d.rows && forall w | w in writes :: !Names(w, txid)
    ensures var d' := ApplyAll(history, d, writes); txid in d'.rows && d'.rows[txid] == d.rows[txid]
    decreases |writes|
  {
    if writes != [] {
      var front, w := writes[..|writes| - 1], writes[|writes| - 1];
      OthersUntouched(history, d, front, txid);
      var m := ApplyAll(history, d, front);
      assert w in writes;
      if w.PageRecorded? && Pos(history, m.at) <= Pos(history, w.next) {
        RecordFacts(m.rows, Repaid(history[Pos(history, m.at)..Pos(history, w.next)]), w.now);
      }
    }
  }

  predicate AboutRelease(w: Write) { w.PublishFailed? || w.ReleaseSeen? }

  /** The writes without those about releases. */
  function Reading(writes: seq<Write>): seq<Write>
  {
    if writes == [] then []
    else
      var rest, last := Reading(writes[..|writes| - 1]), writes[|writes| - 1];
      if AboutRelease(last) then rest else rest + [last]
  }

  /** Two durable states that differ in their rows only. */
  predicate SameReading(d: Durable, d': Durable) { d.at == d'.at && d.tip == d'.tip && d.released == d'.released }

  lemma ReadsAlike(history: seq<Event>, d: Durable, d': Durable, w: Write)
    requires SameReading(d, d')
    ensures SameReading(Apply(history, d, w), Apply(history, d', w))
  {
    hide Record;
    hide Repaid;
    hide Pos;
  }

  lemma ReleasesReadNothing(history: seq<Event>, d: Durable, w: Write)
    requires AboutRelease(w)
    ensures SameReading(d, Apply(history, d, w))
  {
  }

  /** No release holds back the cursor: it ends where it would have ended without any. */
  lemma {:induction false} CursorIgnoresReleases(history: seq<Event>, d: Durable, writes: seq<Write>)
    ensures SameReading(ApplyAll(history, d, writes), ApplyAll(history, d, Reading(writes)))
    decreases |writes|
  {
    hide Apply;
    if writes != [] {
      var front, w := writes[..|writes| - 1], writes[|writes| - 1];
      CursorIgnoresReleases(history, d, front);
      var rest := Reading(front);
      if AboutRelease(w) {
        ReleasesReadNothing(history, ApplyAll(history, d, front), w);
      } else {
        ReadsAlike(history, ApplyAll(history, d, front), ApplyAll(history, d, rest), w);
        LastWrite(history, d, rest, w);
      }
    }
  }

  lemma LastWrite(history: seq<Event>, d: Durable, writes: seq<Write>, w: Write)
    ensures ApplyAll(history, d, writes + [w]) == Apply(history, ApplyAll(history, d, writes), w)
  {
    hide Apply;
    assert (writes + [w])[..|writes|] == writes;
  }

  lemma {:induction false} PowGrows(m: nat, n: nat)
    requires m <= n
    ensures Pow2(m) <= Pow2(n)
  {
    if m < n {
      PowGrows(m, n - 1);
    }
  }

  /** The waits are half a minute, doubled after each failed attempt, and an hour from the eighth on. */
  lemma ReleaseDelayValues(k: nat)
    requires k >= 1
    ensures ReleaseRetryDelay(1) == 30_000 && ReleaseRetryDelay(2) == 60_000 && ReleaseRetryDelay(3) == 120_000
    ensures ReleaseRetryDelay(4) == 240_000 && ReleaseRetryDelay(5) == 480_000 && ReleaseRetryDelay(6) == 960_000
    ensures ReleaseRetryDelay(7) == 1_920_000 && (k >= 8 ==> ReleaseRetryDelay(k) == 3_600_000)
  {
    assert Pow2(0) == 1 && Pow2(1) == 2 && Pow2(2) == 4 && Pow2(3) == 8 && Pow2(4) == 16 && Pow2(5) == 32 && Pow2(6) == 64;
    assert Pow2(7) == 2 * Pow2(6);
    if k >= 8 {
      PowGrows(7, if k - 1 < 20 then k - 1 else 20);
    }
  }

  /** The waits between the 24 attempts on one release. */
  function Waits(k: nat): nat { if k == 0 then 0 else Waits(k - 1) + ReleaseRetryDelay(k) }

  lemma {:induction false} PowFrom7(n: nat)
    requires n >= 7
    ensures Pow2(n) >= 128
  {
    if n == 7 {
      assert Pow2(3) == 8 && Pow2(5) == 32;
    } else {
      PowFrom7(n - 1);
    }
  }

  lemma {:induction false} WaitsValue(k: nat)
    requires k >= 7
    ensures Waits(k) == 3_810_000 + (k - 7) * MAX_RETRY_DELAY
    decreases k
  {
    if k == 7 {
      assert Pow2(0) == 1 && Pow2(1) == 2 && Pow2(2) == 4 && Pow2(3) == 8 && Pow2(4) == 16 && Pow2(5) == 32 && Pow2(6) == 64;
      assert Waits(3) == 210_000;
      assert Waits(5) == 930_000;
    } else {
      WaitsValue(k - 1);
      PowFrom7(if k - 1 < 20 then k - 1 else 20);
    }
  }

  /** Attempts stop after waits of 17 hours, 3 minutes and 30 seconds in all. */
  lemma AttemptsSpan(k: nat)
    requires k == MAX_RELEASE_ATTEMPTS - 1
    ensures Waits(k) == 61_410_000
  {
    WaitsValue(k);
  }

  // ------------------------------------------------------- the store itself

  class ReleaseStore {
    var cursor: Option<Id>
    var rows: map<string, Pending>

    constructor ()
      ensures cursor == None && rows == map[]
    {
      cursor := None;
      rows := map[];
    }

    function Reads(deploy: Id): Id
      reads this
    {
      if cursor.Some? then cursor.value else deploy
    }

    /** Records the positions and moves the cursor, in one transaction. */
    method RecordBatch(txids: seq<string>, next: Id, now: Time)
      modifies this
      ensures rows == Record(old(rows), txids, now) && cursor == Some(next)
    {
      for i := 0 to |txids|
        invariant rows == Record(old(rows), txids[..i], now)
      {
        assert txids[..i + 1][..i] == txids[..i];
        if txids[i] !in rows {
          rows := rows[txids[i] := Pending(now, 0, now)];
        }
      }
      assert txids[..|txids|] == txids;
      cursor := Some(next);
    }

    method MarkFailed(txid: string, now: Time)
      modifies this`rows
      ensures rows == if txid in old(rows) then old(rows)[txid := Failing(old(rows)[txid], now)] else old(rows)
      ensures txid in old(rows) ==>
        && rows[txid].firstSeen == old(rows)[txid].firstSeen && rows[txid].attempts == old(rows)[txid].attempts + 1
        && rows[txid].next == now + ReleaseRetryDelay(rows[txid].attempts)
    {
      if txid in rows {
        var attempts := rows[txid].attempts + 1;
        rows := rows[txid := rows[txid].(attempts := attempts, next := now + ReleaseRetryDelay(attempts))];
      }
    }

    method Remove(txid: string)
      modifies this`rows
      ensures rows == old(rows) - {txid}
    {
      rows := rows - {txid};
    }

    function DueSet(now: Time): set<string>
      reads this
    {
      set t | t in rows && IsDue(rows[t], now)
    }

    /** The oldest row of a set. */
    method Oldest(rest: set<string>) returns (first: string)
      requires rest != {} && rest <= rows.Keys
      ensures first in rest && forall t | t in rest :: rows[first].firstSeen <= rows[t].firstSeen
    {
      first :| first in rest;
      var others := rest - {first};
      while others != {}
        invariant others <= rest && first in rest
        invariant forall t | t in rest - others :: rows[first].firstSeen <= rows[t].firstSeen
        decreases |others|
      {
        var t :| t in others;
        others := others - {t};
        if rows[t].firstSeen < rows[first].firstSeen {
          first := t;
        }
      }
    }

    /** Up to `SWEEP_LIMIT` due rows, oldest first; none that is left out is older than one that is not. */
    method Due(now: Time) returns (due: seq<string>)
      ensures |due| <= 10 && (forall i, j | 0 <= i < j < |due| :: due[i] != due[j])
      ensures forall t | t in due :: t in DueSet(now)
      ensures forall t :: t in DueSet(now) <==> t in rows && rows[t].next <= now && rows[t].attempts < 24
      ensures |due| < 10 ==> forall t | t in DueSet(now) :: t in due
      ensures forall t, u | t in due && u in DueSet(now) && u !in due :: rows[t].firstSeen <= rows[u].firstSeen
      ensures forall i, j | 0 <= i < j < |due| && due[i] in rows && due[j] in rows :: rows[due[i]].firstSeen <= rows[due[j]].firstSeen
    {
      due := [];
      var rest := DueSet(now);
      while rest != {} && |due| < SWEEP_LIMIT
        invariant |due| <= SWEEP_LIMIT && rest <= DueSet(now)
        invariant forall t | t in due :: t in DueSet(now)
        invariant forall t | t in DueSet(now) :: t in due <==> t !in rest
        invariant forall i, j | 0 <= i < j < |due| :: due[i] != due[j]
        invariant forall t, u | t in due && u in rest :: rows[t].firstSeen <= rows[u].firstSeen
        invariant forall i, j | 0 <= i < j < |due| && due[i] in rows && due[j] in rows :: rows[due[i]].firstSeen <= rows[due[j]].firstSeen
        decreases |rest|
      {
        var first := Oldest(rest);
        due := due + [first];
        rest := rest - {first};
      }
    }
  }

  // ------------------------------------------------------- the two steps

  ghost function DurableState(chain: Chain, store: ReleaseStore, deploy: Id): Durable
    reads chain, store
  {
    Durable(store.rows, store.Reads(deploy), chain.tip, chain.released)
  }

  /** The writes say nothing of releases but of these. */
  ghost predicate NamesOnly(writes: seq<Write>, txids: seq<string>)
  {
    forall w | w in writes && AboutRelease(w) :: w.txid in txids
  }

  lemma {:induction false} ApplyConcat(history: seq<Event>, d: Durable, a: seq<Write>, b: seq<Write>)
    ensures ApplyAll(history, d, a + b) == ApplyAll(history, ApplyAll(history, d, a), b)
    decreases |b|
  {
    hide Apply;
    if b == [] {
      assert a + b == a;
    } else {
      ApplyConcat(history, d, a, b[..|b| - 1]);
      assert (a + b)[..|a + b| - 1] == a + b[..|b| - 1];
    }
  }

  /** Two writes, one after the other. */
  lemma ApplyTwo(history: seq<Event>, d: Durable, v: Write, w: Write)
    ensures ApplyAll(history, d, [v, w]) == Apply(history, Apply(history, d, v), w)
  {
    hide Apply;
    LastWrite(history, d, [], v);
    LastWrite(history, d, [v], w);
    assert [] + [v] == [v] && [v] + [w] == [v, w];
  }

  lemma ApplyOne(history: seq<Event>, d: Durable, w: Write)
    ensures ApplyAll(history, d, [w]) == Apply(history, d, w)
  {
    hide Apply;
    LastWrite(history, d, [], w);
    assert [] + [w] == [w];
  }

  /** The chain's own progress is a write of its own. */
  lemma ChainMoved(history: seq<Event>, d: Durable, tip: nat, released: set<string>)
    requires d.tip <= tip <= |history| && d.released <= released
    ensures Apply(history, d, ChainMoves(tip, released)) == d.(tip := tip, released := released)
  {
    assert d.released + released == released;
  }

  method RepaidIn(events: seq<Event>) returns (repaid: seq<string>)
    ensures repaid == Repaid(events)
  {
    repaid := [];
    for i := 0 to |events|
      invariant repaid == Repaid(events[..i])
    {
      assert events[..i + 1][..i] == events[..i];
      if events[i].row.Some? && events[i].row.value.name == RepayFull {
        repaid := repaid + [events[i].row.value.subject];
      }
    }
    assert events[..|events|] == events;
  }

  /** Reads one page from the cursor and records it in one write; if either fails nothing changes. */
  method PollCycle(chain: Chain, store: ReleaseStore, deploy: Id, now: Time) returns (ok: bool, ghost writes: seq<Write>)
    requires chain.Valid() && Pos(chain.history, store.Reads(deploy)) <= chain.tip
    requires Covered(store.rows, store.Reads(deploy), chain.history, chain.released)
    modifies chain, store
    ensures chain.Valid() && old(chain.tip) <= chain.tip && old(chain.released) <= chain.released
    ensures Covered(store.rows, store.Reads(deploy), chain.history, chain.released)
    ensures Pos(chain.history, old(store.Reads(deploy))) <= Pos(chain.history, store.Reads(deploy)) <= chain.tip
    ensures !ok ==> store.rows == old(store.rows) && store.cursor == old(store.cursor)
    ensures ok ==> var a, b := Pos(chain.history, old(store.Reads(deploy))), Pos(chain.history, store.Reads(deploy));
                   store.cursor.Some? && store.rows == Record(old(store.rows), Repaid(chain.history[a..b]), now)
    ensures DurableState(chain, store, deploy) == ApplyAll(chain.history, old(DurableState(chain, store, deploy)), writes)
    ensures NamesOnly(writes, [])
  {
    ghost var at, before := store.Reads(deploy), DurableState(chain, store, deploy);
    var response := chain.GetEvents(store.Reads(deploy));
    ghost var moves := ChainMoves(chain.tip, chain.released);
    ChainMoved(chain.history, before, chain.tip, chain.released);
    ApplyOne(chain.history, before, moves);
    if response.None? {
      return false, [moves];
    }
    var repaid := RepaidIn(response.value.0);
    var recordFails: bool := *;
    if recordFails {
      return false, [moves];
    }
    RecordCovers(store.rows, at, response.value.1, now, chain.history, chain.released);
    store.RecordBatch(repaid, response.value.1, now);
    ApplyTwo(chain.history, before, moves, PageRecorded(response.value.1, now));
    return true, [moves, PageRecorded(response.value.1, now)];
  }

  /** One row of the sweep came out as it should: removed with its release on chain, or failed once more. */
  ghost predicate Handled(before: Pending, rows: map<string, Pending>, txid: string, released: set<string>, now: Time)
  {
    if txid in rows then
      rows[txid].firstSeen == before.firstSeen && rows[txid].attempts == before.attempts + 1
      && rows[txid].next >= now + ReleaseRetryDelay(before.attempts + 1)
    else txid in released
  }

  lemma HandledStays(before: Pending, rows: map<string, Pending>, rows': map<string, Pending>, txid: string,
                     released: set<string>, released': set<string>, now: Time)
    requires Handled(before, rows, txid, released, now) && released <= released'
    requires (txid in rows <==> txid in rows') && (txid in rows ==> rows[txid] == rows'[txid])
    ensures Handled(before, rows', txid, released', now)
  {
  }

  /**
   * One row: publishing may throw or not be visible yet, or the question or the
   * removal may fail, which costs the row an attempt; the row goes only when the
   * contract shows the release. If not even the failure can be written, nothing has changed.
   */
  method PublishOne(chain: Chain, store: ReleaseStore, txid: string, deploy: Id, now: Time) returns (ok: bool, ghost writes: seq<Write>)
    requires chain.Valid() && Covered(store.rows, store.Reads(deploy), chain.history, chain.released)
    requires txid in store.rows
    modifies chain, store`rows
    ensures chain.Valid() && old(chain.tip) <= chain.tip && old(chain.released) <= chain.released
    ensures Covered(store.rows, store.Reads(deploy), chain.history, chain.released)
    ensures if ok then Handled(old(store.rows)[txid], store.rows, txid, chain.released, now) else store.rows == old(store.rows)
    ensures forall t | t != txid :: t in store.rows <==> t in old(store.rows)
    ensures forall t | t in old(store.rows) && t != txid :: store.rows[t] == old(store.rows)[t]
    ensures DurableState(chain, store, deploy) == ApplyAll(chain.history, old(DurableState(chain, store, deploy)), writes)
    ensures NamesOnly(writes, if ok then [txid] else [])
  {
    ghost var before := DurableState(chain, store, deploy);
    var published: bool, removeFails: bool, markFails: bool := *, *, *;
    chain.Later();
    var visible: Option<bool> := None;
    if published {
      visible := chain.HasRelease(txid);
    }
    ghost var moves := ChainMoves(chain.tip, chain.released);
    ChainMoved(chain.history, before, chain.tip, chain.released);
    ApplyOne(chain.history, before, moves);
    if visible == Some(true) && !removeFails {
      store.Remove(txid);
      ApplyTwo(chain.history, before, moves, ReleaseSeen(txid));
      return true, [moves, ReleaseSeen(txid)];
    }
    if markFails {
      return false, [moves];
    }
    var clock: Time :| clock >= now;
    store.MarkFailed(txid, clock);
    ApplyTwo(chain.history, before, moves, PublishFailed(txid, clock));
    return true, [moves, PublishFailed(txid, clock)];
  }

  /** Of the rows in `before`, exactly those of `due` have been handled. */
  ghost predicate Swept(before: map<string, Pending>, rows: map<string, Pending>, due: seq<string>, released: set<string>, now: Time)
  {
    && (forall t | t in due :: t in before && Handled(before[t], rows, t, released, now))
    && (forall t | t !in due :: t in rows <==> t in before)
    && (forall t | t in before && t !in due :: t in rows && rows[t] == before[t])
  }

  lemma SweptOneMore(before: map<string, Pending>, rows: map<string, Pending>, rows': map<string, Pending>, due: seq<string>, txid: string,
                     released: set<string>, released': set<string>, now: Time)
    requires Swept(before, rows, due, released, now) && txid in before && txid !in due && released <= released'
    requires Handled(before[txid], rows', txid, released', now)
    requires forall t | t != txid :: t in rows <==> t in rows'
    requires forall t | t in rows && t != txid :: rows'[t] == rows[t]
    ensures Swept(before, rows', due + [txid], released', now)
  {
    hide Handled;
    forall t | t in due
      ensures Handled(before[t], rows', t, released', now)
    {
      HandledStays(before[t], rows, rows', t, released, released', now);
    }
  }

  /**
   * Publishes what is due; a release that fails changes only its own row. An
   * error that cannot even be written ends the sweep, after `handled` rows.
   */
  method Sweep(chain: Chain, store: ReleaseStore, deploy: Id, now: Time)
    returns (due: seq<string>, handled: nat, ghost writes: seq<Write>)
    requires chain.Valid() && Covered(store.rows, store.Reads(deploy), chain.history, chain.released)
    modifies chain, store`rows
    ensures chain.Valid() && old(chain.tip) <= chain.tip && old(chain.released) <= chain.released
    ensures Covered(store.rows, store.Reads(deploy), chain.history, chain.released)
    ensures forall t | t in due :: t in old(store.DueSet(now))
    ensures handled <= |due| && Swept(old(store.rows), store.rows, due[..handled], chain.released, now)
    ensures DurableState(chain, store, deploy) == ApplyAll(chain.history, old(DurableState(chain, store, deploy)), writes)
    ensures NamesOnly(writes, due[..handled])
  {
    hide Covered;
    hide Swept;
    hide Handled;
    hide IsDue;
    hide Apply;
    due := store.Due(now);
    handled, writes := 0, [];
    ghost var before := DurableState(chain, store, deploy);
    NothingSwept(store.rows, due[..0], chain.released, now);
    while handled < |due|
      invariant chain.Valid() && old(chain.tip) <= chain.tip && old(chain.released) <= chain.released && handled <= |due|
      invariant Covered(store.rows, store.Reads(deploy), chain.history, chain.released)
      invariant Swept(old(store.rows), store.rows, due[..handled], chain.released, now)
      invariant DurableState(chain, store, deploy) == ApplyAll(chain.history, before, writes)
      invariant NamesOnly(writes, due[..handled])
    {
      var txid := due[handled];
      assert txid in due && txid !in due[..handled];
      ghost var rows, released := store.rows, chain.released;
      Unswept(old(store.rows), rows, due[..handled], txid, released, now);
      var ok;
      ghost var more;
      ok, more := PublishOne(chain, store, txid, deploy, now);
      ApplyConcat(chain.history, before, writes, more);
      if !ok {
        SweptLater(old(store.rows), rows, due[..handled], released, chain.released, now);
        assert due[..handled] + [] == due[..handled];
        NamedSoFar(writes, due[..handled], more, []);
        writes := writes + more;
        return;
      }
      NamedSoFar(writes, due[..handled], more, [txid]);
      writes := writes + more;
      SweptOneMore(old(store.rows), rows, store.rows, due[..handled], txid, released, chain.released, now);
      assert due[..handled + 1] == due[..handled] + [txid];
      handled := handled + 1;
    }
  }

  lemma NamedSoFar(writes: seq<Write>, txids: seq<string>, more: seq<Write>, others: seq<string>)
    requires NamesOnly(writes, txids) && NamesOnly(more, others)
    ensures NamesOnly(writes + more, txids + others)
  {
  }

  lemma SweptLater(before: map<string, Pending>, rows: map<string, Pending>, due: seq<string>,
                   released: set<string>, released': set<string>, now: Time)
    requires Swept(before, rows, due, released, now) && released <= released'
    ensures Swept(before, rows, due, released', now)
  {
    hide Handled;
    forall t | t in due
      ensures Handled(before[t], rows, t, released', now)
    {
      HandledStays(before[t], rows, rows, t, released, released', now);
    }
  }

  lemma NothingSwept(rows: map<string, Pending>, due: seq<string>, released: set<string>, now: Time)
    requires due == []
    ensures Swept(rows, rows, due, released, now)
  {
  }

  lemma Unswept(before: map<string, Pending>, rows: map<string, Pending>, due: seq<string>, txid: string, released: set<string>, now: Time)
    requires Swept(before, rows, due, released, now) && txid in before && txid !in due
    ensures txid in rows && rows[txid] == before[txid]
  {
  }

  /**
   * The watcher's loop, for as many rounds as it runs: a poll, and a sweep if
   * the poll went well. All it does to the durable state is a run of writes, so
   * the laws above hold of it wherever it stops.
   */
  method Watch(chain: Chain, store: ReleaseStore, deploy: Id, rounds: nat) returns (ghost writes: seq<Write>)
    requires chain.Valid() && Pos(chain.history, store.Reads(deploy)) <= chain.tip
    requires Covered(store.rows, store.Reads(deploy), chain.history, chain.released)
    modifies chain, store
    ensures chain.Valid() && old(chain.tip) <= chain.tip && old(chain.released) <= chain.released
    ensures DurableState(chain, store, deploy) == ApplyAll(chain.history, old(DurableState(chain, store, deploy)), writes)
    ensures Covered(store.rows, store.Reads(deploy), chain.history, chain.released)
    ensures forall t | t in old(store.rows) :: t in store.rows || t in chain.released
  {
    hide Covered;
    hide Apply;
    writes := [];
    ghost var before := DurableState(chain, store, deploy);
    for round := 0 to rounds
      invariant chain.Valid() && old(chain.tip) <= chain.tip && old(chain.released) <= chain.released
      invariant Pos(chain.history, store.Reads(deploy)) <= chain.tip
      invariant Covered(store.rows, store.Reads(deploy), chain.history, chain.released)
      invariant DurableState(chain, store, deploy) == ApplyAll(chain.history, before, writes)
    {
      var clock: Time := *;
      var ok;
      ghost var polled;
      ok, polled := PollCycle(chain, store, deploy, clock);
      ApplyConcat(chain.history, before, writes, polled);
      writes := writes + polled;
      if ok {
        var due, handled;
        ghost var swept;
        due, handled, swept := Sweep(chain, store, deploy, clock);
        ApplyConcat(chain.history, before, writes, swept);
        writes := writes + swept;
      }
    }
    forall t | t in before.rows
      ensures t in store.rows || t in chain.released
    {
      RowsLeaveWhenReleased(chain.history, before, writes, t);
    }
  }
}
