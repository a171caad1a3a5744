/** The run ledger (`src/pipeline/run_tracker.py`): a SQLite table `runs`
    with one row per run, unique on `(date_run, range, mode)`.  `init_db`
    creates the table when it is absent; `log_run` inserts a row or, when a
    row with the same key exists, replaces that row's other columns.

    The database file is a `RunLedger` object holding whether the table
    exists, its rows in insertion order and the next `AUTOINCREMENT` id.
    SQL `NULL` is `None`: a row whose `mode` is `NULL` never conflicts with
    another, since `NULL` is distinct from every value in a `UNIQUE`
    constraint.  The `parameters` column holds `json.dumps(parameters)`,
    kept here as opaque text. */
module RunTracker {
  import opened Common

  datatype Row = Row(
    id: nat,
    runTime: string,
    dateRun: string,
    range: string,
    mode: Option<string>,
    parameters: string,
    processId: int,
    success: int,
    numRecords: int,
    logPath: Option<string>,
    pointsFilePath: Option<string>)

  /** Two rows collide on the unique key: equal `date_run`, `range` and a
      non-`NULL` equal `mode`. */
  predicate SameKey(a: Row, b: Row)
  {
    a.dateRun == b.dateRun && a.range == b.range && a.mode.Some? && a.mode == b.mode
  }

  /** The table's invariant: no two rows collide, and ids grow in insertion
      order below `nextId`. */
  predicate WellFormed(rows: seq<Row>, nextId: nat)
  {
    && (forall i, j :: 0 <= i < j < |rows| ==> !SameKey(rows[i], rows[j]))
    && (forall i, j :: 0 <= i < j < |rows| ==> rows[i].id < rows[j].id)
    && (forall i :: 0 <= i < |rows| ==> rows[i].id < nextId)
  }

  /** Where a row colliding with `r` sits, if one does. */
  function KeyIndex(rows: seq<Row>, r: Row): (k: Option<nat>)
    ensures k.Some? ==> k.value < |rows| && SameKey(rows[k.value], r)
    ensures k.None? ==> forall i :: 0 <= i < |rows| ==> !SameKey(rows[i], r)
  {
    if rows == [] then None
    else if SameKey(rows[|rows| - 1], r) then Some(|rows| - 1)
    else KeyIndex(rows[..|rows| - 1], r)
  }

  /** `INSERT … ON CONFLICT(date_run, range, mode) DO UPDATE SET …`: a new
      row with id `nextId`, or the colliding row with every column but its
      id and key replaced.  SQLite draws the `AUTOINCREMENT` id before it
      checks the unique key, so the counter advances on both paths: the id
      drawn for a call that updates is never used. */
  function Upsert(rows: seq<Row>, nextId: nat, r: Row): (res: (seq<Row>, nat))
    ensures res.1 == nextId + 1 && |rows| <= |res.0| <= |rows| + 1
  {
    match KeyIndex(rows, r)
    case None => (rows + [r.(id := nextId)], nextId + 1)
    case Some(k) => (rows[k := r.(id := rows[k].id, dateRun := rows[k].dateRun,
                                  range := rows[k].range, mode := rows[k].mode)], nextId + 1)
  }

  /** After an upsert exactly one row carries the call's key and it holds
      the call's columns, with the id it had or, when it is new, the id
      drawn; every other row is unchanged; the table grows by one row
      exactly when the key was absent; and the table's invariant is
      kept. */
  lemma UpsertSpec(rows: seq<Row>, nextId: nat, r: Row)
    requires WellFormed(rows, nextId)
    ensures var (rows', nextId') := Upsert(rows, nextId, r);
      && WellFormed(rows', nextId')
      && (|rows'| == |rows| + 1 <==> KeyIndex(rows, r).None?)
      && (KeyIndex(rows, r).Some? ==> |rows'| == |rows|)
      && (var k := Slot(rows, r);
          k < |rows'| && rows'[k] == r.(id := rows'[k].id) && rows'[k].id == (if k < |rows| then rows[k].id else nextId))
      && (r.mode.Some? ==> forall i, j :: 0 <= i < j < |rows'| && SameKey(rows'[i], r) ==> !SameKey(rows'[j], r))
      && (forall i :: 0 <= i < |rows| && !SameKey(rows[i], r) ==> rows'[i] == rows[i])
  {
    var (rows', nextId') := Upsert(rows, nextId, r);
    match KeyIndex(rows, r)
    case None =>
    case Some(k) =>
      assert forall x :: SameKey(rows'[k], x) <==> SameKey(rows[k], x);
  }

  /** An update followed by an insert leaves a gap in the ids: the new row
      gets `nextId + 1`, because the id drawn by the update is never used.
      Logging one key twice and then another in an empty table gives ids 1
      and 3. */
  lemma UpdateSkipsAnId(rows: seq<Row>, nextId: nat, a: Row, b: Row)
    requires WellFormed(rows, nextId) && KeyIndex(rows, a).Some? && KeyIndex(rows, b).None?
    ensures var (rows2, n2) := Upsert(rows, nextId, a);
      var (rows3, n3) := Upsert(rows2, n2, b);
      |rows3| == |rows| + 1 && rows3[|rows|].id == nextId + 1 && n3 == nextId + 2
  {
  }

  /** The position of the row an upsert writes: the colliding row's, or the
      end of the table. */
  function Slot(rows: seq<Row>, r: Row): nat
  {
    match KeyIndex(rows, r)
    case None => |rows|
    case Some(k) => k
  }

  /** `success` is stored as `int(success)`. */
  function SuccessColumn(success: bool): (v: int)
    ensures 0 <= v <= 1 && (v == 1 <==> success)
  {
    if success then 1 else 0
  }

  /** The database file: whether `runs` exists, and its rows. */
  class RunLedger {
    var tableExists: bool
    var rows: seq<Row>
    var nextId: nat

    ghost predicate Valid()
      reads this
    {
      WellFormed(rows, nextId) && (!tableExists ==> rows == [])
    }

    /** A database file with no table yet. */
    constructor ()
      ensures Valid() && !tableExists && rows == [] && nextId == 1
    {
      tableExists := false;
      rows := [];
      nextId := 1;
    }

    /** `init_db()`: `CREATE TABLE IF NOT EXISTS runs …`.  The table exists
        afterwards and no row is touched, so a repeated call changes
        nothing. */
    method InitDb()
      modifies this
      requires Valid()
      ensures Valid() && tableExists
      ensures rows == old(rows) && nextId == old(nextId)
    {
      tableExists := true;
    }

    /** `log_run(…)`: the upsert of the call's row.  Without the table the
        statement raises (`ok == false`) and nothing changes. */
    method LogRun(runTime: string, dateRun: string, range: string, mode: Option<string>,
                  parameters: string, processId: int, success: bool, numRecords: int,
                  logPath: Option<string>, pointsFilePath: Option<string>) returns (ok: bool)
      modifies this
      requires Valid()
      ensures Valid()
      ensures ok == old(tableExists) && tableExists == old(tableExists)
      ensures !ok ==> rows == old(rows) && nextId == old(nextId)
      ensures ok ==> (rows, nextId) == Upsert(old(rows), old(nextId),
                        Row(0, runTime, dateRun, range, mode, parameters, processId,
                            SuccessColumn(success), numRecords, logPath, pointsFilePath))
    {
      if !tableExists {
        return false;
      }
      var r := Row(0, runTime, dateRun, range, mode, parameters, processId,
                   SuccessColumn(success), numRecords, logPath, pointsFilePath);
      UpsertSpec(rows, nextId, r);
      var (rs, n) := Upsert(rows, nextId, r);
      rows, nextId := rs, n;
      ok := true;
    }
  }
}
