/** The event archive and its poller (relayer/src/lend-events/store.ts, poller.ts). */
module LendArchive {
  import opened Wrappers
  import opened LendChain

  predicate Increasing(rows: seq<Row>) { forall i, j | 0 <= i < j < |rows| :: rows[i].id < rows[j].id }

  /** The table after inserting `r`, listed by id; a row whose id is known changes nothing. */
  function Insert(rows: seq<Row>, r: Row): seq<Row>
  {
    if rows == [] || rows[|rows| - 1].id < r.id then rows + [r]
    else if rows[|rows| - 1].id == r.id then rows
    else Insert(rows[..|rows| - 1], r) + [rows[|rows| - 1]]
  }

  function InsertAll(rows: seq<Row>, batch: seq<Row>): seq<Row>
  {
    if batch == [] then rows else Insert(InsertAll(rows, batch[..|batch| - 1]), batch[|batch| - 1])
  }

  /** All of `rows` at or before `cursor`, in order. */
  predicate Upto(rows: seq<Row>, cursor: Id) { Increasing(rows) && forall r | r in rows :: r.id <= cursor }

  lemma {:induction false} InsertNew(rows: seq<Row>, batch: seq<Row>, cursor: Id)
    requires Upto(rows, cursor) && Increasing(batch) && forall r | r in batch :: r.id > cursor
    ensures InsertAll(rows, batch) == rows + batch
    decreases |batch|
  {
    if batch == [] {
      assert rows + batch == rows;
    } else {
      var front, last := batch[..|batch| - 1], batch[|batch| - 1];
      FrontIncreases(batch);
      forall r | r in front
        ensures r.id > cursor
      {
        assert r in batch;
      }
      InsertNew(rows, front, cursor);
      LastIsNewest(rows, front, last, cursor);
      assert rows + batch == (rows + front) + [last];
    }
  }

  lemma FrontIncreases(batch: seq<Row>)
    requires batch != [] && Increasing(batch)
    ensures var front, last := batch[..|batch| - 1], batch[|batch| - 1];
            Increasing(front) && (front == [] || front[|front| - 1].id < last.id)
  {
  }

  /** A row newer than all others goes to the end. */
  lemma LastIsNewest(rows: seq<Row>, front: seq<Row>, last: Row, cursor: Id)
    requires (forall r | r in rows :: r.id <= cursor) && last.id > cursor && (front == [] || front[|front| - 1].id < last.id)
    ensures Insert(rows + front, last) == (rows + front) + [last]
  {
    if front == [] && rows != [] {
      assert rows[|rows| - 1] in rows;
    }
  }

  /** What an insertion does to a table in order: every row stays, and the new one joins at its place unless its id is known. */
  lemma {:induction false} InsertExactly(rows: seq<Row>, r: Row)
    requires Increasing(rows)
    ensures Increasing(Insert(rows, r))
    ensures forall x :: x in Insert(rows, r) <==> x in rows || (x == r && forall y | y in rows :: y.id != r.id)
    decreases |rows|
  {
    if rows != [] {
      var front, last := rows[..|rows| - 1], rows[|rows| - 1];
      assert rows == front + [last];
      if last.id > r.id {
        InsertExactly(front, r);
        InsertBefore(front, last, Insert(front, r), r);
      } else if last.id < r.id {
        NewestLast(rows, r);
      }
    }
  }

  lemma NewestLast(rows: seq<Row>, r: Row)
    requires Increasing(rows) && rows != [] && rows[|rows| - 1].id < r.id
    ensures Increasing(rows + [r]) && forall y | y in rows :: y.id < r.id
  {
    forall y | y in rows
      ensures y.id < r.id
    {
      var i :| 0 <= i < |rows| && rows[i] == y;
    }
  }

  lemma InsertBefore(front: seq<Row>, last: Row, more: seq<Row>, r: Row)
    requires Increasing(front + [last]) && Increasing(more) && r.id < last.id
    requires forall x :: x in more <==> x in front || (x == r && forall y | y in front :: y.id != r.id)
    ensures Increasing(more + [last])
    ensures forall x :: x in more + [last] <==> x in front + [last] || (x == r && forall y | y in front + [last] :: y.id != r.id)
  {
    forall x | x in more
      ensures x.id < last.id
    {
      if x in front {
        var i :| 0 <= i < |front| && front[i] == x;
        assert (front + [last])[i] == x && (front + [last])[|front|] == last;
      }
    }
  }

  lemma {:induction false} KnownRow(rows: seq<Row>, r: Row)
    requires Increasing(rows) && r in rows
    ensures Insert(rows, r) == rows
  {
    var front, last := rows[..|rows| - 1], rows[|rows| - 1];
    if last != r {
      var i :| 0 <= i < |rows| && rows[i] == r;
      assert front[i] == r;
      KnownRow(front, r);
      assert front + [last] == rows;
    }
  }

  /** Reading a page twice changes nothing. */
  lemma {:induction false} ReadTwice(rows: seq<Row>, batch: seq<Row>)
    requires Increasing(rows) && forall r | r in batch :: r in rows
    ensures InsertAll(rows, batch) == rows
    decreases |batch|
  {
    if batch != [] {
      ReadTwice(rows, batch[..|batch| - 1]);
      KnownRow(rows, batch[|batch| - 1]);
    }
  }

  class LendEventStore {
    var rows: seq<Row>
    var cursor: Option<Id>

    constructor ()
      ensures rows == [] && cursor == None
    {
      rows := [];
      cursor := None;
    }

    /** Writes a page's rows and its cursor in one transaction. */
    method Commit(batch: seq<Row>, next: Id)
      modifies this
      ensures rows == InsertAll(old(rows), batch) && cursor == Some(next)
    {
      for i := 0 to |batch|
        invariant rows == InsertAll(old(rows), batch[..i])
      {
        assert batch[..i + 1][..i] == batch[..i];
        rows := Insert(rows, batch[i]);
      }
      assert batch[..|batch|] == batch;
      cursor := Some(next);
    }

    /** Where reading continues: after the cursor, or at the deployment. */
    function Reads(deploy: Id): Id
      reads this
    {
      if cursor.Some? then cursor.value else deploy
    }
  }

  /**
   * The archive holds `base`, which ends at `from`, and then exactly the rows
   * of every event after `from` up to its cursor.
   */
  ghost predicate Synced(rows: seq<Row>, at: Id, history: seq<Event>, base: seq<Row>, from: Id)
  {
    && from <= at && Upto(base, from) && Pos(history, from) <= Pos(history, at)
    && rows == base + Decoded(history[Pos(history, from)..Pos(history, at)])
  }

  lemma SliceFront(history: seq<Event>, a: nat, b: nat)
    requires a < b <= |history|
    ensures history[a..b][..b - a - 1] == history[a..b - 1] && history[a..b][b - a - 1] == history[b - 1]
  {
  }

  /** The rows of a run of events are in order and come from those events. */
  lemma {:induction false} DecodedIds(history: seq<Event>, a: nat, b: nat)
    requires Ordered(history) && a <= b <= |history|
    ensures Increasing(Decoded(history[a..b]))
    ensures forall r | r in Decoded(history[a..b]) :: exists i :: a <= i < b && history[i].row == Some(r)
    decreases b
  {
    if a < b {
      DecodedIds(history, a, b - 1);
      SliceFront(history, a, b);
      var rest := Decoded(history[a..b - 1]);
      forall i | 0 <= i < |rest|
        ensures rest[i].id < history[b - 1].id
      {
        assert rest[i] in rest;
      }
    }
  }

  lemma SyncedUpto(rows: seq<Row>, at: Id, history: seq<Event>, base: seq<Row>, from: Id)
    requires Ordered(history) && Synced(rows, at, history, base, from)
    ensures Upto(rows, at)
  {
    var p, q := Pos(history, from), Pos(history, at);
    DecodedIds(history, p, q);
    PosMeaning(history, from);
    PosMeaning(history, at);
    var tail := Decoded(history[p..q]);
    forall r | r in tail
      ensures from < r.id <= at
    {
      var i :| p <= i < q && history[i].row == Some(r);
    }
    forall i, j | 0 <= i < j < |rows|
      ensures rows[i].id < rows[j].id
    {
      if i < |base| && |base| <= j {
        assert base[i] in base && tail[j - |base|] in tail;
      }
    }
  }

  /** The rows of a page all come after its cursor. */
  lemma NewIds(history: seq<Event>, at: Id, n: nat)
    requires Ordered(history) && Pos(history, at) <= n <= |history|
    ensures Increasing(Decoded(history[Pos(history, at)..n]))
    ensures forall r | r in Decoded(history[Pos(history, at)..n]) :: r.id > at
  {
    DecodedIds(history, Pos(history, at), n);
    PosMeaning(history, at);
    forall r | r in Decoded(history[Pos(history, at)..n])
      ensures r.id > at
    {
      var i :| Pos(history, at) <= i < n && history[i].row == Some(r);
    }
  }

  lemma DecodedJoin(history: seq<Event>, p: nat, q: nat, n: nat, base: seq<Row>)
    requires p <= q <= n <= |history|
    ensures (base + Decoded(history[p..q])) + Decoded(history[q..n]) == base + Decoded(history[p..n])
  {
    DecodedConcat(history[p..q], history[q..n]);
    assert history[p..q] + history[q..n] == history[p..n];
    Associates(base, Decoded(history[p..q]), Decoded(history[q..n]));
  }

  lemma Associates(a: seq<Row>, b: seq<Row>, c: seq<Row>)
    ensures (a + b) + c == a + (b + c)
  {
  }

  /** Committing a page continues the archive where it stopped. */
  lemma PageKeepsSynced(rows: seq<Row>, at: Id, next: Id, history: seq<Event>, base: seq<Row>, from: Id)
    requires Ordered(history) && Synced(rows, at, history, base, from) && at <= next
    requires Pos(history, at) <= Pos(history, next)
    ensures Synced(InsertAll(rows, Decoded(history[Pos(history, at)..Pos(history, next)])), next, history, base, from)
  {
    var p, q, n := Pos(history, from), Pos(history, at), Pos(history, next);
    var batch := Decoded(history[q..n]);
    hide Ordered;
    hide Increasing;
    hide Decoded;
    hide Pos;
    hide InsertAll;
    hide Upto;
    SyncedUpto(rows, at, history, base, from);
    NewIds(history, at, n);
    InsertNew(rows, batch, at);
    DecodedJoin(history, p, q, n, base);
  }

  method Decode(events: seq<Event>) returns (rows: seq<Row>)
    ensures rows == Decoded(events)
  {
    rows := [];
    for i := 0 to |events|
      invariant rows == Decoded(events[..i])
    {
      assert events[..i + 1][..i] == events[..i];
      if events[i].row.Some? {
        rows := rows + [events[i].row.value];
      }
    }
    assert events[..|events|] == events;
  }

  const MAX_PAGES_PER_POLL: nat := 20

  /**
   * One poll: pages until nothing is newer. Wherever it stops, by the page
   * limit, by a failed call or by a failed commit, the archive holds every event
   * up to its cursor; when it answers true that is every event there was.
   */
  method RunCycle(chain: Chain, store: LendEventStore, deploy: Id, ghost base: seq<Row>, ghost from: Id) returns (done: Option<bool>)
    requires chain.Valid() && Pos(chain.history, store.Reads(deploy)) <= chain.tip
    requires Synced(store.rows, store.Reads(deploy), chain.history, base, from)
    modifies chain, store
    ensures chain.Valid() && old(chain.tip) <= chain.tip && old(chain.released) <= chain.released
    ensures Synced(store.rows, store.Reads(deploy), chain.history, base, from)
    ensures Pos(chain.history, old(store.Reads(deploy))) <= Pos(chain.history, store.Reads(deploy)) <= chain.tip
    ensures done == Some(true) ==> Pos(chain.history, store.Reads(deploy)) == chain.tip && store.cursor.Some?
  {
    for page := 0 to MAX_PAGES_PER_POLL
      invariant chain.Valid() && old(chain.tip) <= chain.tip && old(chain.released) <= chain.released
      invariant Synced(store.rows, store.Reads(deploy), chain.history, base, from)
      invariant Pos(chain.history, old(store.Reads(deploy))) <= Pos(chain.history, store.Reads(deploy)) <= chain.tip
    {
      ghost var rows, at := store.rows, store.Reads(deploy);
      var response := chain.GetEvents(store.Reads(deploy));
      var commitFails: bool := *;
      if response.None? || commitFails {
        return None;
      }
      var (events, next) := response.value;
      var batch := Decode(events);
      PageKeepsSynced(rows, at, next, chain.history, base, from);
      store.Commit(batch, next);
      if |events| == 0 {
        return Some(true);
      }
    }
    return Some(false);
  }

  // ------------------------------------------------------- archive-file.ts

  /** The header of an archive file, after its format, network and contract have been checked. */
  datatype Header = Header(cursor: Id, events: nat, firstLedger: Option<nat>, lastLedger: Option<nat>)

  /** A line of the file; `decodes` says that its raw event decodes to the columns it states. */
  datatype Line = Line(id: Id, ledger: nat, name: Name, subject: string, amount: int, decodes: bool)

  datatype ArchiveError = OutOfOrder(line: nat) | PastCursor(line: nat) | WrongLedger(line: nat) | Edited(line: nat) | WrongCount | WrongLedgers

  function RowOf(l: Line): Row { Row(l.id, l.name, l.subject, l.amount) }

  function RowsOf(lines: seq<Line>): (rows: seq<Row>)
    ensures |rows| == |lines| && forall i | 0 <= i < |lines| :: rows[i] == RowOf(lines[i])
  {
    seq(|lines|, i requires 0 <= i < |lines| => RowOf(lines[i]))
  }

  predicate LinesOk(lines: seq<Line>, cursor: Id)
  {
    && (forall i, j | 0 <= i < j < |lines| :: lines[i].id < lines[j].id)
    && (forall i | 0 <= i < |lines| :: lines[i].id <= cursor && lines[i].ledger == LedgerOf(lines[i].id) && lines[i].decodes)
  }

  function LedgerAt(lines: seq<Line>, i: int): Option<nat> { if 0 <= i < |lines| then Some(lines[i].ledger) else None }

  predicate FileOk(h: Header, lines: seq<Line>)
  {
    && LinesOk(lines, h.cursor) && h.events == |lines|
    && h.firstLedger == LedgerAt(lines, 0) && h.lastLedger == LedgerAt(lines, |lines| - 1)
  }

  /** What each refusal says of the file: up to the line it names all is well, and that line breaks the rule. */
  predicate Faulty(h: Header, lines: seq<Line>, e: ArchiveError)
  {
    match e
    case OutOfOrder(k) => 0 < k < |lines| && LinesOk(lines[..k], h.cursor) && lines[k].id <= lines[k - 1].id
    case PastCursor(k) => k < |lines| && LinesOk(lines[..k], h.cursor) && lines[k].id > h.cursor
    case WrongLedger(k) => k < |lines| && LinesOk(lines[..k], h.cursor) && lines[k].id <= h.cursor && lines[k].ledger != LedgerOf(lines[k].id)
    case Edited(k) => k < |lines| && LinesOk(lines[..k], h.cursor) && lines[k].ledger == LedgerOf(lines[k].id) && !lines[k].decodes
    case WrongCount => LinesOk(lines, h.cursor) && h.events != |lines|
    case WrongLedgers =>
      LinesOk(lines, h.cursor) && h.events == |lines|
      && !(h.firstLedger == (if lines == [] then None else Some(lines[0].ledger))
           && h.lastLedger == (if lines == [] then None else Some(lines[|lines| - 1].ledger)))
  }

  /** Reads a file line by line: exactly the consistent ones pass, and their rows are in order and end at the cursor. */
  method ParseArchive(h: Header, lines: seq<Line>) returns (r: Result<(seq<Row>, Id), ArchiveError>)
    ensures r.Ok? <==> FileOk(h, lines)
    ensures r.Ok? ==> r.value == (RowsOf(lines), h.cursor) && Upto(r.value.0, r.value.1)
    ensures r.Err? ==> Faulty(h, lines, r.error)
  {
    var rows: seq<Row> := [];
    for i := 0 to |lines|
      invariant |rows| == i && rows == RowsOf(lines[..i]) && LinesOk(lines[..i], h.cursor)
    {
      var l := lines[i];
      assert lines[..i + 1] == lines[..i] + [l];
      if i > 0 && l.id <= lines[i - 1].id {
        assert lines[i].id <= lines[i - 1].id;
        return Err(OutOfOrder(i));
      }
      if l.id > h.cursor {
        return Err(PastCursor(i));
      }
      if l.ledger != LedgerOf(l.id) {
        return Err(WrongLedger(i));
      }
      if !l.decodes {
        return Err(Edited(i));
      }
      rows := rows + [RowOf(l)];
      assert forall j | 0 <= j < i :: lines[j].id < l.id by {
        forall j | 0 <= j < i
          ensures lines[j].id < l.id
        {
          assert lines[..i][j].id <= lines[..i][i - 1].id;
        }
      }
    }
    assert lines[..|lines|] == lines;
    if |rows| != h.events {
      return Err(WrongCount);
    }
    if h.firstLedger != LedgerAt(lines, 0) || h.lastLedger != LedgerAt(lines, |lines| - 1) {
      return Err(WrongLedgers);
    }
    return Ok((rows, h.cursor));
  }

  function LineOf(r: Row): Line { Line(r.id, LedgerOf(r.id), r.name, r.subject, r.amount, true) }

  function Exported(rows: seq<Row>): (lines: seq<Line>)
    ensures |lines| == |rows| && forall i | 0 <= i < |rows| :: lines[i] == LineOf(rows[i])
  {
    seq(|rows|, i requires 0 <= i < |rows| => LineOf(rows[i]))
  }

  function HeaderOf(rows: seq<Row>, cursor: Id): Header
  {
    Header(cursor, |rows|, LedgerAt(Exported(rows), 0), LedgerAt(Exported(rows), |rows| - 1))
  }

  /** What an archive exports, a rebuild reads back: every archive that follows the chain passes, row for row. */
  lemma ExportParses(rows: seq<Row>, cursor: Id, history: seq<Event>, base: seq<Row>, from: Id)
    requires Ordered(history) && Synced(rows, cursor, history, base, from)
    ensures FileOk(HeaderOf(rows, cursor), Exported(rows)) && RowsOf(Exported(rows)) == rows
  {
    SyncedUpto(rows, cursor, history, base, from);
    forall i | 0 <= i < |rows|
      ensures rows[i].id <= cursor
    {
      assert rows[i] in rows;
    }
  }
}
