/** Rebuilding the lending state from events and proving it against the contract (relayer/src/lend-rebuild/). */
module LendRebuild {
  import opened Wrappers
  import opened LendChain
  import opened LendArchive
  import opened ReleaseWatcher

  // ------------------------------------------------------------ replay.ts

  /** What the events say the contract's state must be. */
  datatype Replayed = Replayed(positions: map<string, Status>, scaled: map<string, int>, repaid: seq<string>)

  function Moved(scaled: map<string, int>, supplier: string, change: int): map<string, int>
  {
    scaled[supplier := (if supplier in scaled then scaled[supplier] else 0) + change]
  }

  function ApplyRow(s: Replayed, r: Row): Replayed
  {
    match r.name
    case Deposit => s.(positions := s.positions[r.subject := Active])
    case RepayFull => s.(positions := s.positions[r.subject := Closed], repaid := s.repaid + [r.subject])
    case Liquidate => s.(positions := s.positions[r.subject := Liquidated])
    case Supply => s.(scaled := Moved(s.scaled, r.subject, r.amount))
    case Withdraw => s.(scaled := Moved(s.scaled, r.subject, -r.amount))
    case Borrow => s
    case Repay => s
  }

  function Replay(rows: seq<Row>): Replayed
  {
    if rows == [] then Replayed(map[], map[], []) else ApplyRow(Replay(rows[..|rows| - 1]), rows[|rows| - 1])
  }

  /** What the last row about a position says. */
  function LastStatus(rows: seq<Row>, position: string): Option<Status>
  {
    if rows == [] then None
    else
      var last := rows[|rows| - 1];
      if last.subject != position then LastStatus(rows[..|rows| - 1], position)
      else
        match last.name
        case Deposit => Some(Active)
        case RepayFull => Some(Closed)
        case Liquidate => Some(Liquidated)
        case _ => LastStatus(rows[..|rows| - 1], position)
  }

  /** Supplied less withdrawn. */
  function Net(rows: seq<Row>, supplier: string): int
  {
    if rows == [] then 0
    else
      var last := rows[|rows| - 1];
      Net(rows[..|rows| - 1], supplier)
      + (if last.subject == supplier && last.name == Supply then last.amount else 0)
      - (if last.subject == supplier && last.name == Withdraw then last.amount else 0)
  }

  /** The replay: the last word on each position, and each supplier's net supply. */
  lemma {:induction false} ReplayMeaning(rows: seq<Row>, subject: string)
    ensures var s := Replay(rows);
            && (LastStatus(rows, subject) == if subject in s.positions then Some(s.positions[subject]) else None)
            && (Net(rows, subject) == if subject in s.scaled then s.scaled[subject] else 0)
    decreases |rows|
  {
    if rows != [] {
      ReplayMeaning(rows[..|rows| - 1], subject);
    }
  }

  /** The positions owed a release are those the watcher records. */
  lemma {:induction false} ReplayRepaid(events: seq<Event>)
    ensures Replay(Decoded(events)).repaid == Repaid(events)
    decreases |events|
  {
    if events != [] {
      var front, last := events[..|events| - 1], events[|events| - 1];
      ReplayRepaid(front);
      if last.row.Some? {
        assert (Decoded(front) + [last.row.value])[..|Decoded(front)|] == Decoded(front);
      }
    }
  }

  /** The sum of a map's values over some of its keys. */
  ghost function SumOver(keys: set<string>, m: map<string, int>): int
    requires keys <= m.Keys
  {
    if keys == {} then 0
    else
      var k :| k in keys;
      m[k] + SumOver(keys - {k}, m)
  }

  lemma {:induction false} SumWithout(keys: set<string>, m: map<string, int>, k: string)
    requires keys <= m.Keys && k in keys
    ensures SumOver(keys, m) == m[k] + SumOver(keys - {k}, m)
    decreases |keys|
  {
    var j :| j in keys && SumOver(keys, m) == m[j] + SumOver(keys - {j}, m);
    if j != k {
      SumWithout(keys - {j}, m, k);
      SumWithout(keys - {k}, m, j);
      assert keys - {j} - {k} == keys - {k} - {j};
    }
  }

  method ReplayRows(rows: seq<Row>) returns (state: Replayed, totalScaled: int)
    ensures state == Replay(rows)
    ensures totalScaled == SumOver(state.scaled.Keys, state.scaled)
  {
    var positions: map<string, Status> := map[];
    var scaled: map<string, int> := map[];
    var repaid: seq<string> := [];
    for i := 0 to |rows|
      invariant Replayed(positions, scaled, repaid) == Replay(rows[..i])
    {
      assert rows[..i + 1][..i] == rows[..i];
      var row := rows[i];
      match row.name {
        case Deposit => positions := positions[row.subject := Active];
        case RepayFull =>
          positions := positions[row.subject := Closed];
          repaid := repaid + [row.subject];
        case Liquidate => positions := positions[row.subject := Liquidated];
        case Supply => scaled := Moved(scaled, row.subject, row.amount);
        case Withdraw => scaled := Moved(scaled, row.subject, -row.amount);
        case Borrow =>
        case Repay =>
      }
    }
    assert rows[..|rows|] == rows;
    state := Replayed(positions, scaled, repaid);
    totalScaled := 0;
    var rest := scaled.Keys;
    while rest != {}
      invariant rest <= scaled.Keys && totalScaled + SumOver(rest, scaled) == SumOver(scaled.Keys, scaled)
      decreases |rest|
    {
      var k :| k in rest;
      SumWithout(rest, scaled, k);
      totalScaled := totalScaled + scaled[k];
      rest := rest - {k};
    }
  }

  // ------------------------------------------------------------ verify.ts

  predicate PositionAgrees(state: Replayed, v: Views, p: string)
    requires p in state.positions
  {
    p in v.positions && v.positions[p] == state.positions[p]
  }

  /** Every view the check makes agrees with the replay. */
  ghost predicate Matches(state: Replayed, v: Views)
  {
    && (forall p | p in state.positions :: PositionAgrees(state, v, p))
    && (forall s | s in state.scaled :: ScaledOf(v, s) == state.scaled[s])
    && SumOver(state.scaled.Keys, state.scaled) == v.total
  }

  /** Nothing the views show changes between two points of the chain. */
  ghost predicate Still(world: seq<Views>, a: nat, b: nat)
  {
    forall n | a <= n <= b && n < |world| :: world[n] == world[a]
  }

  method VerifyPositions(state: Replayed, chain: Chain) returns (agree: Option<bool>)
    requires chain.Valid()
    modifies chain
    ensures chain.Valid() && old(chain.tip) <= chain.tip && old(chain.released) <= chain.released
    ensures agree.Some? && Still(chain.world, old(chain.tip), chain.tip) ==>
              (agree.value <==> forall p | p in state.positions :: PositionAgrees(state, chain.world[old(chain.tip)], p))
  {
    var rest := state.positions.Keys;
    while rest != {}
      invariant chain.Valid() && old(chain.tip) <= chain.tip && old(chain.released) <= chain.released
      invariant rest <= state.positions.Keys
      invariant Still(chain.world, old(chain.tip), chain.tip) ==>
                  forall p | p in state.positions && p !in rest :: PositionAgrees(state, chain.world[old(chain.tip)], p)
      decreases |rest|
    {
      var p :| p in rest;
      rest := rest - {p};
      var status := chain.PositionStatus(p);
      if status.None? {
        return None;
      }
      if status.value != Some(state.positions[p]) {
        return Some(false);
      }
    }
    return Some(true);
  }

  method VerifySuppliers(state: Replayed, chain: Chain) returns (agree: Option<bool>)
    requires chain.Valid()
    modifies chain
    ensures chain.Valid() && old(chain.tip) <= chain.tip && old(chain.released) <= chain.released
    ensures agree.Some? && Still(chain.world, old(chain.tip), chain.tip) ==>
              (agree.value <==> forall s | s in state.scaled :: ScaledOf(chain.world[old(chain.tip)], s) == state.scaled[s])
  {
    var rest := state.scaled.Keys;
    while rest != {}
      invariant chain.Valid() && old(chain.tip) <= chain.tip && old(chain.released) <= chain.released
      invariant rest <= state.scaled.Keys
      invariant Still(chain.world, old(chain.tip), chain.tip) ==>
                  forall s | s in state.scaled && s !in rest :: ScaledOf(chain.world[old(chain.tip)], s) == state.scaled[s]
      decreases |rest|
    {
      var s :| s in rest;
      rest := rest - {s};
      var scaled := chain.ScaledSupply(s);
      if scaled.None? {
        return None;
      }
      if scaled.value != state.scaled[s] {
        return Some(false);
      }
    }
    return Some(true);
  }

  method MissingReleases(repaid: seq<string>, chain: Chain) returns (r: Option<seq<string>>)
    requires chain.Valid()
    modifies chain
    ensures chain.Valid() && old(chain.tip) <= chain.tip && old(chain.released) <= chain.released
    ensures r.Some? ==> forall t | t in repaid :: t in r.value || t in chain.released
    ensures r.Some? ==> forall t | t in r.value :: t in repaid && t !in old(chain.released)
  {
    var missing: seq<string> := [];
    for i := 0 to |repaid|
      invariant chain.Valid() && old(chain.tip) <= chain.tip && old(chain.released) <= chain.released
      invariant forall t | t in repaid[..i] :: t in missing || t in chain.released
      invariant forall t | t in missing :: t in repaid && t !in old(chain.released)
    {
      var published := chain.HasRelease(repaid[i]);
      if published.None? {
        return None;
      }
      assert repaid[..i + 1] == repaid[..i] + [repaid[i]];
      if !published.value {
        missing := missing + [repaid[i]];
      }
    }
    assert repaid[..|repaid|] == repaid;
    return Some(missing);
  }

  datatype Verdict = Mismatches | Agrees(missing: seq<string>)

  /** The views one after the other; a verdict is exact when the chain stood still meanwhile. */
  method VerifyAgainstChain(state: Replayed, totalScaled: int, chain: Chain) returns (r: Option<Verdict>)
    requires chain.Valid() && totalScaled == SumOver(state.scaled.Keys, state.scaled)
    modifies chain
    ensures chain.Valid() && old(chain.tip) <= chain.tip && old(chain.released) <= chain.released
    ensures r.Some? && Still(chain.world, old(chain.tip), chain.tip) ==> (r.value.Agrees? <==> Matches(state, chain.world[old(chain.tip)]))
    ensures r.Some? && r.value.Agrees? ==> forall t | t in state.repaid :: t in r.value.missing || t in chain.released
    ensures r.Some? && r.value.Agrees? ==> forall t | t in r.value.missing :: t in state.repaid && t !in old(chain.released)
  {
    var positions := VerifyPositions(state, chain);
    if positions != Some(true) {
      return if positions.None? then None else Some(Mismatches);
    }
    var suppliers := VerifySuppliers(state, chain);
    if suppliers != Some(true) {
      return if suppliers.None? then None else Some(Mismatches);
    }
    var total := chain.TotalScaledSupply();
    if total != Some(totalScaled) {
      return if total.None? then None else Some(Mismatches);
    }
    var missing := MissingReleases(state.repaid, chain);
    return if missing.None? then None else Some(Agrees(missing.value));
  }

  // ------------------------------------------------ what a match is worth

  /** The contract's total is the sum of its balances. */
  ghost predicate Consistent(v: Views)
  {
    v.total == SumOver(v.scaled.Keys, map s | s in v.scaled :: v.scaled[s] as int)
  }

  lemma {:induction false} SumAtLeast(keys: set<string>, m: map<string, int>, k: string)
    requires keys <= m.Keys && k in keys && forall s | s in keys :: m[s] >= 0
    ensures SumOver(keys, m) >= m[k]
  {
    SumWithout(keys, m, k);
    SumNonNegative(keys - {k}, m);
  }

  lemma {:induction false} SumNonNegative(keys: set<string>, m: map<string, int>)
    requires keys <= m.Keys && forall s | s in keys :: m[s] >= 0
    ensures SumOver(keys, m) >= 0
    decreases |keys|
  {
    if keys != {} {
      var k :| k in keys && SumOver(keys, m) == m[k] + SumOver(keys - {k}, m);
      SumNonNegative(keys - {k}, m);
    }
  }

  /** Replayed balances that agree with the contract's add up to the contract's sum over the same suppliers. */
  lemma {:induction false} SumAgrees(keys: set<string>, scaled: map<string, int>, all: map<string, int>)
    requires keys <= scaled.Keys
    requires forall s | s in keys :: scaled[s] == if s in all then all[s] else 0
    ensures SumOver(keys, scaled) == SumOver(keys * all.Keys, all)
    decreases |keys|
  {
    if keys == {} {
      assert keys * all.Keys == {};
    } else {
      var k :| k in keys && SumOver(keys, scaled) == scaled[k] + SumOver(keys - {k}, scaled);
      SumAgrees(keys - {k}, scaled, all);
      if k in all {
        SumWithout(keys * all.Keys, all, k);
        assert keys * all.Keys - {k} == (keys - {k}) * all.Keys;
      } else {
        assert keys * all.Keys == (keys - {k}) * all.Keys;
      }
    }
  }

  lemma {:induction false} SumSplit(keys: set<string>, part: set<string>, m: map<string, int>)
    requires part <= keys <= m.Keys
    ensures SumOver(keys, m) == SumOver(part, m) + SumOver(keys - part, m)
    decreases |part|
  {
    if part == {} {
      assert keys - part == keys;
    } else {
      var k :| k in part && SumOver(part, m) == m[k] + SumOver(part - {k}, m);
      SumWithout(keys, m, k);
      SumSplit(keys - {k}, part - {k}, m);
      assert keys - {k} - (part - {k}) == keys - part;
    }
  }

  /**
   * A supplier the replay has missed holds nothing: the balances are not
   * negative and the totals agree, so there is nothing left for them.
   */
  lemma MissedSuppliersHoldNothing(state: Replayed, v: Views, supplier: string)
    requires Matches(state, v) && Consistent(v) && supplier !in state.scaled
    ensures ScaledOf(v, supplier) == 0
  {
    var all := map s | s in v.scaled :: v.scaled[s] as int;
    assert all.Keys == v.scaled.Keys;
    var part := state.scaled.Keys * all.Keys;
    SumAgrees(state.scaled.Keys, state.scaled, all);
    SumSplit(all.Keys, part, all);
    if supplier in all {
      SumAtLeast(all.Keys - part, all, supplier);
    }
  }

  // ------------------------------------------------------------ rebuild.ts

  const MAX_VERIFY_ROUNDS: nat := 5
  const MAX_CYCLES: nat := 1_000

  /** `FileFailed` is an error of the file system or the archive's database, `ReleasesFailed` one of the release store's. */
  datatype RebuildError =
    | Mismatch | Busy | ReplayIncomplete | CallFailed
    | OutsideRetention | ArchiveTooOld | ArchivePastTip
    | FileFailed | ReleasesFailed | CleanupFailed

  datatype Report = Report(rows: seq<Row>, cursor: Id, missing: seq<string>)

  /**
   * What the checks have proved of a report: it replays to what the views of
   * the chain after `n` events show, as they still do, it follows `base` with
   * every later event so far, and it names the releases that are not on chain.
   */
  ghost predicate Proven(chain: Chain, base: seq<Row>, from: Id, n: nat, report: Report)
    reads chain
  {
    && chain.Valid() && n <= chain.tip && Still(chain.world, n, chain.tip) && Matches(Replay(report.rows), chain.world[n])
    && Pos(chain.history, report.cursor) == chain.tip
    && Synced(report.rows, report.cursor, chain.history, base, from)
    && (forall t | t in Replay(report.rows).repaid :: t in report.missing || t in chain.released)
    && (forall t | t in report.missing :: t in Replay(report.rows).repaid)
  }

  /** Everything the chain supplies after `base`, replayed, is not what the views show after `n` events, as they still do. */
  ghost predicate Refuted(chain: Chain, base: seq<Row>, from: Id, n: nat)
    reads chain
  {
    && chain.Valid() && Pos(chain.history, from) <= chain.tip && n <= chain.tip && Still(chain.world, n, chain.tip)
    && !Matches(Replay(base + Decoded(chain.history[Pos(chain.history, from)..chain.tip])), chain.world[n])
  }

  lemma {:induction false} NoRowsNoChange(chain: Chain, a: nat, b: nat)
    requires chain.Valid() && a <= b <= |chain.history| && Decoded(chain.history[a..b]) == []
    ensures Still(chain.world, a, b)
    decreases b
  {
    if a < b {
      assert chain.history[a..b][..b - a - 1] == chain.history[a..b - 1];
      NoRowsNoChange(chain, a, b - 1);
    }
  }

  /** If the archive has not grown, nothing the views show has changed. */
  lemma QuietWindow(chain: Chain, base: seq<Row>, p: nat, a: nat, b: nat)
    requires chain.Valid() && p <= a <= b <= |chain.history|
    requires |base + Decoded(chain.history[p..b])| == |base + Decoded(chain.history[p..a])|
    ensures Still(chain.world, a, b)
  {
    DecodedConcat(chain.history[p..a], chain.history[a..b]);
    assert chain.history[p..a] + chain.history[a..b] == chain.history[p..b];
    NoRowsNoChange(chain, a, b);
  }

  /** Cycles until the tip is reached. */
  method CatchUp(chain: Chain, store: LendEventStore, deploy: Id, ghost base: seq<Row>, ghost from: Id) returns (r: Result<(), RebuildError>)
    requires chain.Valid() && Pos(chain.history, store.Reads(deploy)) <= chain.tip
    requires Synced(store.rows, store.Reads(deploy), chain.history, base, from)
    modifies chain, store
    ensures chain.Valid() && old(chain.tip) <= chain.tip && old(chain.released) <= chain.released
    ensures Synced(store.rows, store.Reads(deploy), chain.history, base, from)
    ensures Pos(chain.history, old(store.Reads(deploy))) <= Pos(chain.history, store.Reads(deploy)) <= chain.tip
    ensures if r.Ok? then Pos(chain.history, store.Reads(deploy)) == chain.tip && store.cursor.Some? else r.error in {ReplayIncomplete, CallFailed}
  {
    for i := 0 to MAX_CYCLES
      invariant chain.Valid() && old(chain.tip) <= chain.tip && old(chain.released) <= chain.released
      invariant Synced(store.rows, store.Reads(deploy), chain.history, base, from)
      invariant Pos(chain.history, old(store.Reads(deploy))) <= Pos(chain.history, store.Reads(deploy)) <= chain.tip
    {
      var done := RunCycle(chain, store, deploy, base, from);
      if done.None? {
        return Err(CallFailed);
      }
      if done.value {
        return Ok(());
      }
    }
    return Err(ReplayIncomplete);
  }

  /** A finished replay, before it is swapped in. */
  method Prove(chain: Chain, temp: LendEventStore, deploy: Id, ghost base: seq<Row>, ghost from: Id)
    returns (r: Result<Report, RebuildError>, ghost n: nat)
    requires chain.Valid() && Pos(chain.history, temp.Reads(deploy)) <= chain.tip
    requires Synced(temp.rows, temp.Reads(deploy), chain.history, base, from)
    modifies chain, temp
    ensures chain.Valid() && old(chain.tip) <= chain.tip && old(chain.released) <= chain.released
    ensures r.Ok? ==> old(chain.tip) <= n && Proven(chain, base, from, n, r.value)
    ensures r.Err? ==> r.error in {Mismatch, Busy, ReplayIncomplete, CallFailed}
    ensures r == Err(Mismatch) ==> Refuted(chain, base, from, n)
  {
    n := 0;
    var caught := CatchUp(chain, temp, deploy, base, from);
    if caught.Err? {
      return Err(caught.error), n;
    }
    for round := 0 to MAX_VERIFY_ROUNDS
      invariant chain.Valid() && old(chain.tip) <= chain.tip && old(chain.released) <= chain.released
      invariant Synced(temp.rows, temp.Reads(deploy), chain.history, base, from)
      invariant Pos(chain.history, temp.Reads(deploy)) == chain.tip && temp.cursor.Some?
    {
      var before := |temp.rows|;
      n := chain.tip;
      ghost var rows := temp.rows;
      var state, totalScaled := ReplayRows(temp.rows);
      var verdict := VerifyAgainstChain(state, totalScaled, chain);
      if verdict.None? {
        return Err(CallFailed), n;
      }
      ghost var seen := chain.tip;
      caught := CatchUp(chain, temp, deploy, base, from);
      if caught.Err? {
        return Err(caught.error), n;
      }
      if |temp.rows| == before {
        QuietWindow(chain, base, Pos(chain.history, from), n, chain.tip);
        SameRows(chain.history, Pos(chain.history, from), n, chain.tip, base, rows, temp.rows);
        StillPrefix(chain.world, n, seen, chain.tip);
        if verdict.value.Mismatches? {
          return Err(Mismatch), n;
        }
        return Ok(Report(temp.rows, temp.cursor.value, verdict.value.missing)), n;
      }
    }
    return Err(Busy), n;
  }

  lemma StillPrefix(world: seq<Views>, a: nat, b: nat, c: nat)
    requires a <= b <= c && Still(world, a, c)
    ensures Still(world, a, b)
  {
  }

  lemma SameRows(history: seq<Event>, p: nat, a: nat, b: nat, base: seq<Row>, rows: seq<Row>, rows': seq<Row>)
    requires p <= a <= b <= |history|
    requires rows == base + Decoded(history[p..a]) && rows' == base + Decoded(history[p..b]) && |rows| == |rows'|
    ensures rows == rows'
  {
    DecodedConcat(history[p..a], history[a..b]);
    assert history[p..a] + history[a..b] == history[p..b];
    assert Decoded(history[a..b]) == [];
  }

  /** Whether the RPC can serve everything after where the replay starts. */
  function Startable(deployLedger: nat, archive: Option<(seq<Row>, Id)>, oldest: nat, latest: nat): (refusal: Option<RebuildError>)
  {
    if archive.Some? then
      var resume := LedgerOf(archive.value.1);
      if resume < oldest then Some(ArchiveTooOld) else if resume > latest then Some(ArchivePastTip) else None
    else if deployLedger < oldest then Some(OutsideRetention)
    else None
  }

  /**
   * The temporary archive a replay starts from, a file's rows or nothing. A
   * start is refused exactly when the range of ledgers does not allow it; `range` is what the RPC said.
   */
  method Begin(chain: Chain, deployLedger: nat, archive: Option<(seq<Row>, Id)>)
    returns (r: Result<LendEventStore, RebuildError>, ghost range: Option<(nat, nat)>)
    requires chain.Valid() && Pos(chain.history, CursorForLedger(deployLedger)) <= chain.tip
    requires archive.Some? ==> Upto(archive.value.0, archive.value.1)
    modifies chain
    ensures chain.Valid() && old(chain.tip) <= chain.tip && old(chain.released) <= chain.released
    ensures r.Ok? ==>
      && fresh(r.value) && r.value.rows == BaseOf(archive) && r.value.Reads(CursorForLedger(deployLedger)) == FromOf(archive, deployLedger)
      && Pos(chain.history, FromOf(archive, deployLedger)) <= chain.tip
      && Synced(r.value.rows, FromOf(archive, deployLedger), chain.history, BaseOf(archive), FromOf(archive, deployLedger))
    ensures range.None? ==> r == Err(CallFailed)
    ensures range.Some? ==>
      var oldest, latest := range.value.0, range.value.1;
      if archive.Some? then
        var resume := LedgerOf(archive.value.1);
        && (r == Err(ArchiveTooOld) <==> resume < oldest)
        && (r == Err(ArchivePastTip) <==> oldest <= resume && latest < resume)
        && (r.Ok? || r == Err(FileFailed) <==> oldest <= resume <= latest)
      else
        && (r == Err(OutsideRetention) <==> deployLedger < oldest)
        && (r.Ok? || r == Err(FileFailed) <==> oldest <= deployLedger)
  {
    var served := chain.LedgerRange();
    range := served;
    if served.None? {
      return Err(CallFailed), range;
    }
    var refusal := Startable(deployLedger, archive, served.value.0, served.value.1);
    if refusal.Some? {
      return Err(refusal.value), range;
    }
    var openFails: bool := *;
    if openFails {
      return Err(FileFailed), range;
    }
    var temp := new LendEventStore();
    if archive.Some? {
      temp.Commit(archive.value.0, archive.value.1);
      FromFile(archive.value.0);
      PosInThePast(chain.history, archive.value.1, served.value.1, chain.tip);
    }
    assert BaseOf(archive) + [] == BaseOf(archive);
    return Ok(temp), range;
  }

  /** The rows a replay starts from, and where it goes on from there. */
  function BaseOf(archive: Option<(seq<Row>, Id)>): seq<Row> { if archive.Some? then archive.value.0 else [] }

  function FromOf(archive: Option<(seq<Row>, Id)>, deployLedger: nat): Id
  {
    if archive.Some? then archive.value.1 else CursorForLedger(deployLedger)
  }

  // ------------------------------------------------- what reaches the disk

  /** The live archive and the release store as a run finds and leaves them. */
  datatype Disk = Disk(rows: seq<Row>, cursor: Option<Id>, pending: map<string, Pending>, read: Option<Id>)

  ghost function OnDisk(live: LendEventStore, releases: ReleaseStore): Disk
    reads live, releases
  {
    Disk(live.rows, live.cursor, releases.rows, releases.cursor)
  }

  /** How far the writes of a rebuild have come, where it ends or where a crash ends it. */
  datatype Progress = Untouched | Unlogged | Swapped(report: Report) | Finished(report: Report)

  /**
   * The disk at that point. `file` is what the old archive's file holds without
   * its write-ahead log, which goes just before the new file takes its place.
   */
  function At(p: Progress, before: Disk, file: (seq<Row>, Option<Id>), now: Time): Disk
  {
    match p
    case Untouched => before
    case Unlogged => before.(rows := file.0, cursor := file.1)
    case Swapped(report) => before.(rows := report.rows, cursor := Some(report.cursor))
    case Finished(report) =>
      Disk(report.rows, Some(report.cursor), Record(before.pending, report.missing, now), Some(report.cursor))
  }

  /** Whether a rebuild that ends with `e` may have come as far as `p`. */
  predicate EndsAt(e: RebuildError, p: Progress)
  {
    match e
    case FileFailed => p.Untouched? || p.Unlogged?
    case ReleasesFailed => p.Swapped?
    case CleanupFailed => true
    case _ => p.Untouched?
  }

  /** Puts the finished archive in place, and only then opens the release store and records what is owed. */
  method SwapIn(report: Report, file: (seq<Row>, Option<Id>), live: LendEventStore, releases: ReleaseStore, now: Time)
    returns (failure: Option<RebuildError>, ghost reached: Progress)
    modifies live, releases
    ensures OnDisk(live, releases) == At(reached, old(OnDisk(live, releases)), file, now)
    ensures reached.Swapped? || reached.Finished? ==> reached.report == report
    ensures if failure.Some? then failure.value in {FileFailed, ReleasesFailed} && EndsAt(failure.value, reached) else reached.Finished?
  {
    var exportFails: bool, renameFails: bool, recordFails: bool := *, *, *;
    if exportFails {
      return Some(FileFailed), Untouched;
    }
    live.rows, live.cursor := file.0, file.1;
    if renameFails {
      return Some(FileFailed), Unlogged;
    }
    live.rows, live.cursor := report.rows, Some(report.cursor);
    if recordFails {
      return Some(ReleasesFailed), Swapped(report);
    }
    releases.RecordBatch(report.missing, report.cursor, now);
    return None, Finished(report);
  }

  /**
   * The rebuild. Whatever is swapped in replays to exactly what the views of
   * one and the same chain state show, though they were read one at a time, and
   * follows the file's rows with every later event up to that state. A
   * rehearsal, and a run that fails before the swap begins, change nothing; one
   * that fails later has come as far as `reached` says, and until it is all
   * done no repayment is lost to the release store. `archive` is what
   * `ParseArchive` answers for a file.
   */
  method Rebuild(chain: Chain, deployLedger: nat, archive: Option<(seq<Row>, Id)>, file: (seq<Row>, Option<Id>),
                 live: LendEventStore, releases: ReleaseStore, dryRun: bool, now: Time)
    returns (r: Result<Report, RebuildError>, ghost n: nat, ghost reached: Progress)
    requires chain.Valid() && Pos(chain.history, CursorForLedger(deployLedger)) <= chain.tip
    requires archive.Some? ==> Upto(archive.value.0, archive.value.1)
    modifies chain, live, releases
    ensures chain.Valid() && old(chain.tip) <= chain.tip && old(chain.released) <= chain.released
    ensures r.Ok? ==> old(chain.tip) <= n && Proven(chain, BaseOf(archive), FromOf(archive, deployLedger), n, r.value)
    ensures r == Err(Mismatch) ==> Refuted(chain, BaseOf(archive), FromOf(archive, deployLedger), n)
    ensures reached.Swapped? || reached.Finished? ==>
              old(chain.tip) <= n && Proven(chain, BaseOf(archive), FromOf(archive, deployLedger), n, reached.report)
    ensures OnDisk(live, releases) == At(reached, old(OnDisk(live, releases)), file, now)
    ensures if r.Err? then EndsAt(r.error, reached) else reached == if dryRun then Untouched else Finished(r.value)
    ensures dryRun ==> reached.Untouched?
    ensures var deploy := CursorForLedger(deployLedger);
            old(Covered(releases.rows, releases.Reads(deploy), chain.history, chain.released)) && !reached.Finished? ==>
              Covered(releases.rows, releases.Reads(deploy), chain.history, chain.released)
  {
    hide Proven;
    hide Refuted;
    hide Covered;
    hide Synced;
    n, reached := 0, Untouched;
    ghost var at, held := releases.Reads(CursorForLedger(deployLedger)), chain.released;
    var temp, _ := Begin(chain, deployLedger, archive);
    StillCovered(releases.rows, at, chain.history, held, chain.released);
    if temp.Err? {
      return Err(temp.error), n, reached;
    }
    r, n := Prove(chain, temp.value, CursorForLedger(deployLedger), BaseOf(archive), FromOf(archive, deployLedger));
    if r.Ok? && !dryRun {
      var failure;
      failure, reached := SwapIn(r.value, file, live, releases, now);
      if failure.Some? {
        r := Err(failure.value);
      }
    }
    var clearFails: bool := *;
    if clearFails {
      r := Err(CleanupFailed);
    }
    if !reached.Finished? {
      StillCovered(releases.rows, at, chain.history, held, chain.released);
    }
  }

  lemma StillCovered(rows: map<string, Pending>, at: Id, history: seq<Event>, released: set<string>, released': set<string>)
    requires released <= released'
    ensures Covered(rows, at, history, released) ==> Covered(rows, at, history, released')
  {
  }

  /**
   * A rebuild that fails halfway: a relayer that has lost its data, a position
   * opened and repaid, every check passed and the archive in place, and then
   * the release store cannot be opened. The archive has changed, and the owed
   * release is neither recorded nor on chain. The watcher's own cursor has not
   * moved, so it still comes to it.
   */
  lemma FailsHalfway(file: (seq<Row>, Option<Id>), now: Time) returns (history: seq<Event>, v: Views, report: Report)
    ensures Ordered(history) && Matches(Replay(report.rows), v)
    ensures Synced(report.rows, report.cursor, history, [], CursorForLedger(1)) && Pos(history, report.cursor) == |history|
    ensures |report.missing| == 1 && report.missing == Replay(report.rows).repaid
    ensures var before := Disk([], None, map[], None); var after := At(Swapped(report), before, file, now);
            && EndsAt(ReleasesFailed, Swapped(report))
            && after.rows == Decoded(history) && after.rows != before.rows && after.cursor == Some(report.cursor)
            && !Covered(after.pending, report.cursor, history, {})
            && after.read == None && Covered(after.pending, CursorForLedger(1), history, {})
  {
    hide Replay;
    hide Decoded;
    hide Repaid;
    hide Pos;
    hide Matches;
    hide Covered;
    var id, position := CursorForLedger(1) + 1, "p";
    var first, second := Row(id, Deposit, position, 0), Row(id + 1, RepayFull, position, 0);
    history := [Event(id, Some(first)), Event(id + 1, Some(second))];
    v := Views(map[position := Closed], map[], 0);
    report := Report([first, second], id + 1, [position]);
    OpenedAndRepaid(first, second, history, CursorForLedger(1));
    MatchesOne(position, v);
    OwedOnly(position, history, CursorForLedger(1), id + 1);
    assert history[0..2] == history;
  }

  lemma OpenedAndRepaid(a: Row, b: Row, history: seq<Event>, before: Id)
    requires a.name == Deposit && b.name == RepayFull && a.subject == b.subject && before < a.id < b.id
    requires history == [Event(a.id, Some(a)), Event(b.id, Some(b))]
    ensures Decoded(history) == [a, b] && Repaid(history) == [a.subject]
    ensures Replay([a, b]) == Replayed(map[a.subject := Closed], map[], [a.subject])
    ensures Pos(history, before) == 0 && Pos(history, b.id) == 2
  {
    var one, rows := [history[0]], [a, b];
    assert history[..|history| - 1] == one && one[..|one| - 1] == [];
    assert rows[..|rows| - 1] == [a] && [a][..|[a]| - 1] == [];
    assert Decoded(one) == [a] && Repaid(one) == [];
    assert Replay([a]) == Replayed(map[a.subject := Active], map[], []);
  }

  lemma MatchesOne(position: string, v: Views)
    requires v == Views(map[position := Closed], map[], 0)
    ensures Matches(Replayed(map[position := Closed], map[], [position]), v)
  {
  }

  lemma OwedOnly(position: string, history: seq<Event>, before: Id, after: Id)
    requires Repaid(history) == [position] && Pos(history, before) == 0 && Pos(history, after) == |history|
    ensures Covered(map[], before, history, {}) && !Covered(map[], after, history, {})
  {
    assert history[..|history|] == history && position in Repaid(history);
  }

  /** Rows in order fill an empty archive as they are. */
  lemma FromFile(rows: seq<Row>)
    requires Increasing(rows)
    ensures InsertAll([], rows) == rows
  {
    FromFileUpTo(rows, |rows|);
    assert rows[..|rows|] == rows;
  }

  lemma {:induction false} FromFileUpTo(rows: seq<Row>, n: nat)
    requires Increasing(rows) && n <= |rows|
    ensures InsertAll([], rows[..n]) == rows[..n]
    decreases n
  {
    if n > 0 {
      FromFileUpTo(rows, n - 1);
      assert rows[..n][..n - 1] == rows[..n - 1];
      assert rows[..n - 1] + [rows[n - 1]] == rows[..n];
    }
  }

  // --------------------------------------------- what a file may leave out

  lemma {:induction false} ReplayConcat(a: seq<Row>, b: seq<Row>, t: string)
    ensures t in Replay(a + b).repaid <==> t in Replay(a).repaid || t in Replay(b).repaid
    decreases |b|
  {
    if b == [] {
      assert a + b == a;
    } else {
      ReplayConcat(a, b[..|b| - 1], t);
      assert (a + b)[..|a + b| - 1] == a + b[..|b| - 1];
    }
  }

  /** The positions repaid after `from` are in the replay. */
  lemma LaterRepaymentsReplay(report: Report, history: seq<Event>, base: seq<Row>, from: Id, t: string)
    requires Synced(report.rows, report.cursor, history, base, from)
    ensures t in Repaid(history[..Pos(history, report.cursor)]) ==>
              t in Repaid(history[..Pos(history, from)]) || t in Replay(report.rows).repaid
    ensures t in Repaid(history[..Pos(history, from)]) ==> t in Repaid(history[..Pos(history, report.cursor)])
  {
    var p, n := Pos(history, from), Pos(history, report.cursor);
    RepaidConcat(history[..p], history[p..n]);
    assert history[..p] + history[p..n] == history[..n];
    ReplayRepaid(history[p..n]);
    ReplayConcat(base, Decoded(history[p..n]), t);
  }

  /**
   * Exactly when a rebuild leaves no repayment out: when every position repaid
   * in full before the events the chain supplied was already pending, has its
   * release on chain, or is repaid in the rebuilt archive. Without a file
   * there is nothing before, so it always holds.
   */
  lemma RebuiltIsCovered(history: seq<Event>, base: seq<Row>, from: Id, report: Report, rows: map<string, Pending>, now: nat,
                         released: set<string>)
    requires Synced(report.rows, report.cursor, history, base, from)
    requires forall t | t in Replay(report.rows).repaid :: t in report.missing || t in released
    requires forall t | t in report.missing :: t in Replay(report.rows).repaid
    ensures Covered(Record(rows, report.missing, now), report.cursor, history, released) <==>
              forall t | t in Repaid(history[..Pos(history, from)]) :: t in rows || t in released || t in Replay(report.rows).repaid
    ensures Pos(history, from) == 0 ==> Covered(Record(rows, report.missing, now), report.cursor, history, released)
  {
    RecordFacts(rows, report.missing, now);
    forall t
      ensures t in Repaid(history[..Pos(history, report.cursor)]) ==>
                t in Repaid(history[..Pos(history, from)]) || t in Replay(report.rows).repaid
      ensures t in Repaid(history[..Pos(history, from)]) ==> t in Repaid(history[..Pos(history, report.cursor)])
    {
      LaterRepaymentsReplay(report, history, base, from, t);
    }
  }

  predicate AboutPosition(r: Row, position: string) { r.subject == position && r.name != Supply && r.name != Withdraw }

  /** The rows without those about one position. */
  function Without(rows: seq<Row>, position: string): seq<Row>
  {
    if rows == [] then []
    else
      var rest, last := Without(rows[..|rows| - 1], position), rows[|rows| - 1];
      if AboutPosition(last, position) then rest else rest + [last]
  }

  /** `less` is `s` without one position. */
  ghost predicate Lacks(less: Replayed, s: Replayed, position: string)
  {
    && less.positions == s.positions - {position} && less.scaled == s.scaled
    && forall t :: t in less.repaid <==> t in s.repaid && t != position
  }

  lemma RowAbout(less: Replayed, s: Replayed, r: Row, position: string)
    requires Lacks(less, s, position) && AboutPosition(r, position)
    ensures Lacks(less, ApplyRow(s, r), position)
  {
  }

  lemma RowNotAbout(less: Replayed, s: Replayed, r: Row, position: string)
    requires Lacks(less, s, position) && !AboutPosition(r, position)
    ensures Lacks(ApplyRow(less, r), ApplyRow(s, r), position)
  {
  }

  /** Leaving a position's rows out takes it, and nothing else, out of the replay. */
  lemma {:induction false} ReplayWithout(rows: seq<Row>, position: string)
    ensures Lacks(Replay(Without(rows, position)), Replay(rows), position)
    decreases |rows|
  {
    hide Lacks;
    if rows == [] {
      assert Lacks(Replayed(map[], map[], []), Replayed(map[], map[], []), position) by { Nothing(position); }
    } else {
      var front, last := rows[..|rows| - 1], rows[|rows| - 1];
      var rest := Without(front, position);
      ReplayWithout(front, position);
      if AboutPosition(last, position) {
        RowAbout(Replay(rest), Replay(front), last, position);
      } else {
        RowNotAbout(Replay(rest), Replay(front), last, position);
        assert (rest + [last])[..|rest|] == rest;
      }
    }
  }

  lemma Nothing(position: string)
    ensures Lacks(Replayed(map[], map[], []), Replayed(map[], map[], []), position)
  {
  }

  lemma {:induction false} WithoutUpto(rows: seq<Row>, position: string, cursor: Id)
    requires Upto(rows, cursor)
    ensures Upto(Without(rows, position), cursor)
    ensures forall r | r in Without(rows, position) :: r in rows
    decreases |rows|
  {
    if rows != [] {
      var front, last := rows[..|rows| - 1], rows[|rows| - 1];
      assert Upto(front, cursor) by {
        forall r | r in front
          ensures r.id <= cursor
        {
          assert r in rows;
        }
      }
      WithoutUpto(front, position, cursor);
      var rest := Without(front, position);
      forall r | r in rest
        ensures r.id < last.id
      {
        assert r in front;
      }
    }
  }

  /**
   * Why the condition is needed: the check asks the contract only about the
   * positions the replay knows. From every archive that passes, the rows of
   * any position can be left out, and what remains is in order, still passes,
   * and owes that position no release.
   */
  lemma OmissionGoesUnnoticed(rows: seq<Row>, cursor: Id, v: Views, position: string)
    requires Upto(rows, cursor) && Matches(Replay(rows), v)
    ensures var rest := Without(rows, position);
            && Upto(rest, cursor) && Matches(Replay(rest), v)
            && position !in Replay(rest).positions && position !in Replay(rest).repaid
  {
    ReplayWithout(rows, position);
    WithoutUpto(rows, position, cursor);
  }
}
