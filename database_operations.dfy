/** `etl_pipeline/database_operations.py`: recreating the summary tables from SQL
    files, and writing a data frame into a table row by row. */
module DatabaseOperations {
  import opened Options
  import opened PyText
  import opened Odbc

  /** A pandas data frame: its column names and its rows. */
  datatype Frame = Frame(columns: seq<string>, rows: seq<Row>)

  /** `', '.join(['?'] * n)`. */
  function Placeholders(n: nat): string
  {
    JoinWith(", ", seq(n, i => "?"))
  }

  /** `f"INSERT INTO {table_name} ({columns}) VALUES ({placeholders})"`. */
  function InsertStatement(table: string, columns: seq<string>, n: nat): string
  {
    "INSERT INTO " + table + " (" + JoinWith(", ", columns) + ") VALUES (" + Placeholders(n) + ")"
  }

  lemma PlaceholdersUnfold(n: nat)
    requires n >= 2
    ensures Placeholders(n) == "?, " + Placeholders(n - 1)
  {
    var xs := seq(n, i => "?");
    assert xs[1..] == seq(n - 1, i => "?");
  }

  /** The placeholder list is `?, ?, ..., ?`: a `?` at every third position, each
      followed by `, ` except the last. */
  lemma {:induction false} PlaceholdersShape(n: nat)
    ensures |Placeholders(n)| == if n == 0 then 0 else 3 * n - 2
    ensures forall i :: 0 <= i < |Placeholders(n)| ==>
      Placeholders(n)[i] == (if i % 3 == 0 then '?' else if i % 3 == 1 then ',' else ' ')
  {
    if n == 1 {
      assert seq(1, i => "?") == ["?"];
    } else if n >= 2 {
      PlaceholdersUnfold(n);
      PlaceholdersShape(n - 1);
      var p := Placeholders(n - 1);
      forall i | 3 <= i < |Placeholders(n)|
        ensures Placeholders(n)[i] == p[i - 3]
      {
      }
    }
  }

  /** One `?` per value. */
  lemma {:induction false} PlaceholdersCount(n: nat)
    ensures CountChar('?', Placeholders(n)) == n
  {
    if n == 1 {
      assert seq(1, i => "?") == ["?"];
      assert CountChar('?', "?") == 1 + CountChar('?', "");
    } else if n >= 2 {
      PlaceholdersUnfold(n);
      PlaceholdersCount(n - 1);
      CountCharAppend('?', "?, ", Placeholders(n - 1));
      assert CountChar('?', "?, ") == 1;
    }
  }

  /** A character found in neither the separator nor the pieces is not in their join. */
  lemma {:induction false} JoinWithAbsent(c: char, sep: string, xs: seq<string>)
    requires c !in sep && forall i :: 0 <= i < |xs| ==> c !in xs[i]
    ensures c !in JoinWith(sep, xs)
  {
    if |xs| > 1 {
      JoinWithAbsent(c, sep, xs[1..]);
      assert c !in xs[0];
    }
  }

  /** For a table and column names without `?`, the statement holds exactly one `?`
      per row value. */
  lemma InsertPlaceholders(table: string, columns: seq<string>, n: nat)
    requires '?' !in table && forall i :: 0 <= i < |columns| ==> '?' !in columns[i]
    ensures CountChar('?', InsertStatement(table, columns, n)) == n
  {
    var cols := JoinWith(", ", columns);
    JoinWithAbsent('?', ", ", columns);
    var a := "INSERT INTO " + table + " (" + cols + ") VALUES (";
    assert '?' !in a;
    CountCharAbsent('?', a);
    CountCharAbsent('?', ")");
    CountCharAppend('?', a, Placeholders(n));
    CountCharAppend('?', a + Placeholders(n), ")");
    PlaceholdersCount(n);
  }

  /** A list of SQL file reads, one per path. */
  function FileSteps(paths: seq<string>): seq<Step>
  {
    seq(|paths|, i requires 0 <= i < |paths| => RunFile(paths[i]))
  }

  /** The three drop files, then the three create files (`sql_files.items()` in order). */
  const TablePaths: seq<string> := [
    "sql_files/table_management/drop_payment_summary_table.sql",
    "sql_files/table_management/drop_duration_summary_table.sql",
    "sql_files/table_management/drop_profitable_actors_table.sql",
    "sql_files/table_management/create_payment_summary_table.sql",
    "sql_files/table_management/create_duration_summary_table.sql",
    "sql_files/table_management/create_profitable_actors_table.sql"
  ]

  /** `manage_tables`: a cursor, the six files, one commit. */
  function ManagePlan(): seq<Step>
  {
    [Do(Cursor)] + FileSteps(TablePaths) + [Do(Commit)]
  }

  function ManageRun(files: FileSystem, failAt: Option<nat>, base: nat): Run
  {
    Session(ManagePlan(), files, failAt, base)
  }

  /** The six executes of a run in which every file is readable. */
  function TableSql(files: FileSystem): seq<Call>
  {
    Calls(FileSteps(TablePaths), files)
  }

  /** One insert per row, in row order, with that row's values as parameters. */
  function Inserts(table: string, frame: Frame): seq<Call>
  {
    seq(|frame.rows|, i requires 0 <= i < |frame.rows| =>
      Execute(InsertStatement(table, frame.columns, |frame.rows[i]|), frame.rows[i]))
  }

  /** `write_dataframe_to_db`: a cursor, the inserts, one commit. */
  function WritePlan(table: string, frame: Frame): seq<Step>
  {
    [Do(Cursor)] + DoAll(Inserts(table, frame)) + [Do(Commit)]
  }

  function WriteRun(table: string, frame: Frame, failAt: Option<nat>, base: nat): Run
  {
    Session(WritePlan(table, frame), map[], failAt, base)
  }

  /** Each insert carries one row's values, and its statement one `?` per value. */
  lemma InsertsMatchRows(table: string, frame: Frame)
    requires '?' !in table && forall i :: 0 <= i < |frame.columns| ==> '?' !in frame.columns[i]
    ensures |Inserts(table, frame)| == |frame.rows|
    ensures forall i :: 0 <= i < |frame.rows| ==>
      Inserts(table, frame)[i].Execute? && Inserts(table, frame)[i].params == frame.rows[i]
      && CountChar('?', Inserts(table, frame)[i].sql) == |frame.rows[i]|
  {
    forall i | 0 <= i < |frame.rows|
      ensures CountChar('?', Inserts(table, frame)[i].sql) == |frame.rows[i]|
    {
      InsertPlaceholders(table, frame.columns, |frame.rows[i]|);
    }
  }

  /** A pandas frame is rectangular: every row holds one value per column. On such a
      frame each insert binds as many values as it names columns. */
  lemma RectangularInsertsBalanced(table: string, frame: Frame)
    requires '?' !in table && forall i :: 0 <= i < |frame.columns| ==> '?' !in frame.columns[i]
    requires forall i :: 0 <= i < |frame.rows| ==> |frame.rows[i]| == |frame.columns|
    ensures forall i :: 0 <= i < |frame.rows| ==>
      |Inserts(table, frame)[i].params| == |frame.columns|
      && CountChar('?', Inserts(table, frame)[i].sql) == |frame.columns|
  {
    InsertsMatchRows(table, frame);
  }

  /** The statement opens with the table name and closes the value list. */
  lemma InsertStatementFrame(table: string, columns: seq<string>, n: nat)
    ensures StartsWith(InsertStatement(table, columns, n), "INSERT INTO " + table + " (")
    ensures EndsWith(InsertStatement(table, columns, n), ")")
  {
    var s := InsertStatement(table, columns, n);
    var head := "INSERT INTO " + table + " (";
    assert s == head + (JoinWith(", ", columns) + ") VALUES (" + Placeholders(n) + ")");
    assert s[..|head|] == head;
  }

  /** The steps of the write plan: the cursor, one insert per row, the commit. */
  lemma WritePlanShape(table: string, frame: Frame)
    ensures var plan := WritePlan(table, frame);
      && |plan| == |frame.rows| + 2 && plan[0] == Do(Cursor) && plan[|frame.rows| + 1] == Do(Commit)
      && forall i :: 0 <= i < |frame.rows| ==>
           plan[1 + i] == Do(Execute(InsertStatement(table, frame.columns, |frame.rows[i]|), frame.rows[i]))
  {
    var ins := Inserts(table, frame);
    forall i | 0 <= i < |frame.rows|
      ensures WritePlan(table, frame)[1 + i] == Do(ins[i])
    {
      assert DoAll(ins)[i] == Do(ins[i]);
    }
  }

  lemma WritePlanCalls(table: string, frame: Frame)
    ensures |WritePlan(table, frame)| == |frame.rows| + 2
    ensures forall j :: 0 <= j < |WritePlan(table, frame)| ==> WritePlan(table, frame)[j].Do?
    ensures Calls(WritePlan(table, frame), map[]) == [Cursor] + Inserts(table, frame) + [Commit]
    ensures forall j :: 0 <= j <= |frame.rows| ==>
      Calls(WritePlan(table, frame)[..j + 1], map[]) == [Cursor] + Inserts(table, frame)[..j]
  {
    var ins := Inserts(table, frame);
    var plan := WritePlan(table, frame);
    CallsAppend([Do(Cursor)] + DoAll(ins), [Do(Commit)], map[]);
    CallsAppend([Do(Cursor)], DoAll(ins), map[]);
    CallsDoAll(ins, map[]);
    forall j | 0 <= j <= |frame.rows|
      ensures Calls(plan[..j + 1], map[]) == [Cursor] + ins[..j]
    {
      assert plan[..j + 1] == [Do(Cursor)] + DoAll(ins[..j]);
      CallsAppend([Do(Cursor)], DoAll(ins[..j]), map[]);
      CallsDoAll(ins[..j], map[]);
    }
  }

  /** The trace of a write. The connect is log position `base`, the cursor `base + 1`,
      the insert of row `j` `base + 2 + j` and the commit `base + 2 + |rows|`. A failed
      connect leaves nothing to close; any other failure skips the rest, and close follows. */
  lemma WriteTrace(table: string, frame: Frame, failAt: Option<nat>, base: nat)
    ensures var r := WriteRun(table, frame, failAt, base);
      var done := [Connect, Cursor] + Inserts(table, frame);
      && (failAt == Some(base) ==> r == Run([Connect], Some(DbError)))
      && (failAt == Some(base + 1) ==> r == Run([Connect, Cursor, Close], Some(DbError)))
      && (failAt == Some(base + 2 + |frame.rows|) ==> r == Run(done + [Commit, Close], Some(DbError)))
      && ((failAt.None? || failAt.value < base || failAt.value > base + 2 + |frame.rows|) ==>
            r == Run(done + [Commit, Close], None))
  {
    var plan := WritePlan(table, frame);
    var n := |frame.rows|;
    var ins := Inserts(table, frame);
    WritePlanCalls(table, frame);
    if failAt == Some(base + 1) {
      SessionFailsAt(plan, 0, map[], failAt, base);
      assert plan[..0] == [];
    } else if failAt == Some(base + 2 + n) {
      SessionFailsAt(plan, n + 1, map[], failAt, base);
      assert Calls(plan[..n + 1], map[]) == [Cursor] + ins;
      assert [Connect] + ([Cursor] + ins) + [Commit] + [Close] == [Connect, Cursor] + ins + [Commit, Close];
    } else if failAt.None? || failAt.value < base || failAt.value > base + 2 + n {
      SessionClean(plan, map[], failAt, base);
      assert [Connect] + ([Cursor] + ins + [Commit]) + [Close] == [Connect, Cursor] + ins + [Commit, Close];
    }
  }

  /** A failed insert of row `j` ends the write after that insert: no later row, no
      commit, and the connection is closed. */
  lemma WriteFailsAtRow(table: string, frame: Frame, failAt: Option<nat>, base: nat, j: nat)
    requires j < |frame.rows| && failAt == Some(base + 2 + j)
    ensures WriteRun(table, frame, failAt, base)
         == Run([Connect, Cursor] + Inserts(table, frame)[..j + 1] + [Close], Some(DbError))
  {
    var plan := WritePlan(table, frame);
    WritePlanCalls(table, frame);
    SessionFailsAt(plan, j + 1, map[], failAt, base);
    var ins := Inserts(table, frame);
    assert ins[..j + 1] == ins[..j] + [ins[j]];
  }

  /** The connection is closed exactly when the connect succeeded, and the close is
      then the last call. */
  lemma WriteClosesIff(table: string, frame: Frame, failAt: Option<nat>, base: nat)
    ensures var r := WriteRun(table, frame, failAt, base);
      && (Close in r.issued <==> failAt != Some(base))
      && (failAt != Some(base) ==> r.issued[|r.issued| - 1] == Close)
  {
    WriteTrace(table, frame, failAt, base);
    var r := WriteRun(table, frame, failAt, base);
    var n := |frame.rows|;
    if failAt == Some(base) {
      assert r.issued == [Connect];
    } else if failAt.Some? && base + 2 <= failAt.value < base + 2 + n {
      WriteFailsAtRow(table, frame, failAt, base, failAt.value - base - 2);
    }
  }

  /** A run stopped by the connect, the cursor or an insert issues no commit. */
  lemma WriteStopsBeforeCommit(table: string, frame: Frame, failAt: Option<nat>, base: nat)
    requires failAt.Some? && base <= failAt.value < base + 2 + |frame.rows|
    ensures Commit !in WriteRun(table, frame, failAt, base).issued
  {
    WriteTrace(table, frame, failAt, base);
    var r := WriteRun(table, frame, failAt, base);
    if failAt == Some(base) {
      assert r.issued == [Connect];
    } else if failAt == Some(base + 1) {
      assert r.issued == [Connect, Cursor, Close];
    } else {
      var ins := Inserts(table, frame);
      var j := failAt.value - base - 2;
      WriteFailsAtRow(table, frame, failAt, base, j);
      var done := ins[..j + 1];
      assert r.issued == [Connect, Cursor] + done + [Close];
      forall i | 0 <= i < |r.issued|
        ensures r.issued[i] != Commit
      {
        if 2 <= i < 2 + |done| {
          assert r.issued[i] == ins[i - 2];
        }
      }
    }
  }

  /** The commit is issued exactly when the cursor and every insert succeeded;
      zero rows means the commit directly follows the cursor. */
  lemma WriteCommitIff(table: string, frame: Frame, failAt: Option<nat>, base: nat)
    ensures var r := WriteRun(table, frame, failAt, base);
      && (Commit in r.issued <==> forall p :: base <= p < base + 2 + |frame.rows| ==> failAt != Some(p))
      && (frame.rows == [] && Commit in r.issued ==> r.issued[..3] == [Connect, Cursor, Commit])
  {
    var n := |frame.rows|;
    if failAt.Some? && base <= failAt.value < base + 2 + n {
      WriteStopsBeforeCommit(table, frame, failAt, base);
    } else {
      WriteTrace(table, frame, failAt, base);
      var r := WriteRun(table, frame, failAt, base);
      assert r.issued == [Connect, Cursor] + Inserts(table, frame) + [Commit, Close];
      assert r.issued[2 + n] == Commit;
    }
  }


  /** The steps of the `manage_tables` plan: the cursor, one step per file, the commit. */
  lemma ManagePlanShape()
    ensures |ManagePlan()| == 8 && ManagePlan()[0] == Do(Cursor) && ManagePlan()[7] == Do(Commit)
    ensures forall j :: 1 <= j <= 6 ==> ManagePlan()[j] == RunFile(TablePaths[j - 1])
  {
    var fs := FileSteps(TablePaths);
    assert |fs| == 6;
    forall j | 1 <= j <= 6
      ensures ManagePlan()[j] == RunFile(TablePaths[j - 1])
    {
      assert ManagePlan()[j] == fs[j - 1];
    }
  }

  /** The calls of the `manage_tables` plan: the cursor, one execute per file, the
      commit; the first `j + 1` steps are the cursor and the first `j` executes. */
  lemma ManagePlanCalls(files: FileSystem)
    ensures |ManagePlan()| == 8 && ManagePlan()[0] == Do(Cursor) && ManagePlan()[7] == Do(Commit)
    ensures forall j :: 1 <= j <= 6 ==> ManagePlan()[j] == RunFile(TablePaths[j - 1])
    ensures Calls(ManagePlan(), files) == [Cursor] + TableSql(files) + [Commit]
    ensures forall j :: 0 <= j <= 6 ==> Calls(ManagePlan()[..j + 1], files) == [Cursor] + TableSql(files)[..j]
  {
    var plan := ManagePlan();
    var fs := FileSteps(TablePaths);
    ManagePlanAllCalls(files);
    forall j | 0 <= j <= 6
      ensures Calls(plan[..j + 1], files) == [Cursor] + TableSql(files)[..j]
    {
      assert plan[..j + 1] == [Do(Cursor)] + fs[..j];
      CallsAppend([Do(Cursor)], fs[..j], files);
    }
  }

  /** The calls of a clean run: the cursor, the six executes, the commit. */
  lemma ManagePlanAllCalls(files: FileSystem)
    ensures Calls(ManagePlan(), files) == [Cursor] + TableSql(files) + [Commit]
  {
    var fs := FileSteps(TablePaths);
    CallsAppend([Do(Cursor)] + fs, [Do(Commit)], files);
    CallsAppend([Do(Cursor)], fs, files);
  }

  /** Every execute of the six files is an `execute` of some SQL text without parameters.
      That no run commits before its last step is `ManageStopsBeforeCommit`. */
  lemma TableSqlShape(files: FileSystem)
    ensures |TableSql(files)| == 6
    ensures forall i :: 0 <= i < 6 ==> TableSql(files)[i] == Execute(
      if TablePaths[i] in files && files[TablePaths[i]].Readable? then files[TablePaths[i]].text else "", [])
  {
  }

  /** The trace of `manage_tables`. A failed connect leaves nothing to close. Otherwise,
      if the first step to raise is step `j` of the plan (`1 <= j <= 6` is the file
      `TablePaths[j - 1]`, `7` the commit), the calls before it, its own call if it got
      that far, and the close are issued; with no such step every call is issued. */
  lemma ManageTrace(files: FileSystem, failAt: Option<nat>, base: nat)
    ensures var r := ManageRun(files, failAt, base);
      var plan := ManagePlan();
      && (failAt == Some(base) ==> r == Run([Connect], Some(DbError)))
      && (failAt != Some(base) && FirstBad(plan, files, failAt, base + 1).None? ==>
            r == Run([Connect, Cursor] + TableSql(files) + [Commit, Close], None))
      && (failAt != Some(base) && FirstBad(plan, files, failAt, base + 1).Some? ==>
            var j := FirstBad(plan, files, failAt, base + 1).value;
            var a := Attempt(plan[j], files, failAt, base + 1 + j);
            r == Run([Connect] + Calls(plan[..j], files) + a.issued + [Close], a.error) && a.error.Some?)
  {
    SessionTrace(ManagePlan(), files, failAt, base);
    ManagePlanAllCalls(files);
  }

  /** A run stopped by step `j < 7` (the cursor or a file) issues no commit. */
  lemma ManageStopsBeforeCommit(files: FileSystem, failAt: Option<nat>, base: nat, j: nat)
    requires j < 7 && failAt != Some(base)
    requires FirstBad(ManagePlan(), files, failAt, base + 1) == Some(j)
    ensures Commit !in ManageRun(files, failAt, base).issued
  {
    var plan := ManagePlan();
    ManagePlanShape();
    SessionFailsAt(plan, j, files, failAt, base);
    var a := Attempt(plan[j], files, failAt, base + 1 + j);
    var before := Calls(plan[..j], files);
    forall i | 0 <= i < j
      ensures before[i] != Commit
    {
      assert before[i] == CallOf(plan[i], files);
      assert i == 0 || plan[i] == RunFile(TablePaths[i - 1]);
    }
    assert Commit !in a.issued by {
      assert j == 0 || plan[j] == RunFile(TablePaths[j - 1]);
    }
  }

  /** A run that got past the six files issues the commit, at index `8`, the ninth of
      the session's ten calls. */
  lemma ManageReachesCommit(files: FileSystem, failAt: Option<nat>, base: nat)
    requires failAt != Some(base)
    requires var b := FirstBad(ManagePlan(), files, failAt, base + 1); b.None? || b == Some(7)
    ensures |ManageRun(files, failAt, base).issued| == 10 && ManageRun(files, failAt, base).issued[8] == Commit
  {
    var plan := ManagePlan();
    ManageTrace(files, failAt, base);
    ManagePlanCalls(files);
    TableSqlShape(files);
  }

  /** The commit is issued exactly when the connect, the cursor and all six files
      succeeded; the run ends without an error, the tables committed, exactly when the
      commit succeeded as well; the connection is closed exactly when the connect
      succeeded. */
  lemma ManageCommitIff(files: FileSystem, failAt: Option<nat>, base: nat)
    ensures var r := ManageRun(files, failAt, base);
      && (Commit in r.issued <==>
            failAt != Some(base) && forall j :: 0 <= j < 7 ==> StepOk(ManagePlan()[j], files, failAt, base + 1 + j))
      && (r.error.None? <==>
            failAt != Some(base) && forall j :: 0 <= j < 8 ==> StepOk(ManagePlan()[j], files, failAt, base + 1 + j))
      && (Close in r.issued <==> failAt != Some(base))
      && (failAt != Some(base) ==> r.issued[|r.issued| - 1] == Close)
  {
    var plan := ManagePlan();
    ManageTrace(files, failAt, base);
    ManagePlanShape();
    if failAt != Some(base) {
      var b := FirstBad(plan, files, failAt, base + 1);
      if b.Some? {
        assert !StepOk(plan[b.value], files, failAt, base + 1 + b.value);
      }
      if b.Some? && b.value < 7 {
        ManageStopsBeforeCommit(files, failAt, base, b.value);
      } else {
        ManageReachesCommit(files, failAt, base);
      }
    }
  }

  /** Every exception of `manage_tables` and `write_dataframe_to_db` is caught. */
  lemma AnyErrorCaught(error: Option<Exception>)
    ensures !Handle(error, AnyError).Raised?
    ensures Handle(error, AnyError) == if error.None? then Completed else Logged(error.value)
  {
    if error.Some? {
      match error.value
      case DbError =>
      case FileNotFound =>
      case OsError =>
      case ValueError =>
      case UnboundLocal =>
    }
  }

  /** `manage_tables` of `etl_pipeline/database_operations.py`: all six files run on one
      cursor, then one commit; every exception is caught and logged (`except Exception`);
      the connection is closed if it was opened. */
  method ManageTables(db: Database, files: FileSystem) returns (status: Status)
    modifies db
    ensures db.log == old(db.log) + ManageRun(files, db.failAt, |old(db.log)|).issued
    ensures status == Handle(ManageRun(files, db.failAt, |old(db.log)|).error, AnyError)
  {
    var err := db.Request(Connect);
    if err.Some? {
      status := Handle(err, AnyError);
      return;
    }
    err := RunTableFiles(db, files);
    CloseSession(db, files, ManagePlan(), old(db.log));
    status := Handle(err, AnyError);
  }

  /** The statements of the `try` block after `pyodbc.connect`: the cursor, the six
      files in order, and the commit, each run only while nothing has raised. */
  method RunTableFiles(db: Database, files: FileSystem) returns (err: Option<Exception>)
    modifies db
    ensures db.log == old(db.log) + Perform(ManagePlan(), files, db.failAt, |old(db.log)|).issued
    ensures err == Perform(ManagePlan(), files, db.failAt, |old(db.log)|).error
  {
    ghost var plan := ManagePlan();
    ghost var start := db.log;
    ManagePlanShape();
    assert plan[..0] == [];
    err := Advance(db, files, Do(Cursor), plan, 0, start);
    err := ExecuteFiles(db, files, TablePaths, err, plan, start);
    if err.None? {
      err := Advance(db, files, Do(Commit), plan, 7, start);
      assert plan[..8] == plan;
    } else {
      PerformStopped(plan, 7, files, db.failAt, |start|);
    }
  }

  /** The nested loop over the file lists: `cursor.execute` of each file's text, in
      order, while nothing has raised. The files are steps `1` to `|paths|` of the plan. */
  method ExecuteFiles(db: Database, files: FileSystem, paths: seq<string>, pending: Option<Exception>,
                      ghost plan: seq<Step>, ghost start: seq<Call>)
    returns (err: Option<Exception>)
    requires |paths| < |plan| && forall j :: 0 <= j < |paths| ==> plan[1 + j] == RunFile(paths[j])
    requires db.log == start + Perform(plan[..1], files, db.failAt, |start|).issued
    requires pending == Perform(plan[..1], files, db.failAt, |start|).error
    modifies db
    ensures db.log == start + Perform(plan[..1 + |paths|], files, db.failAt, |start|).issued
    ensures err == Perform(plan[..1 + |paths|], files, db.failAt, |start|).error
  {
    err := pending;
    var i := 0;
    while i < |paths| && err.None?
      invariant 0 <= i <= |paths|
      invariant db.log == start + Perform(plan[..1 + i], files, db.failAt, |start|).issued
      invariant err == Perform(plan[..1 + i], files, db.failAt, |start|).error
    {
      err := Advance(db, files, RunFile(paths[i]), plan, 1 + i, start);
      i := i + 1;
    }
    if i < |paths| {
      ghost var done := plan[..1 + |paths|];
      assert done[..1 + i] == plan[..1 + i];
      PerformStopped(done, 1 + i, files, db.failAt, |start|);
    }
  }

  /** `write_dataframe_to_db` of `etl_pipeline/database_operations.py`: one insert per
      row on one cursor, then one commit; every exception is caught and logged. */
  method WriteDataframeToDb(db: Database, frame: Frame, table: string) returns (status: Status)
    modifies db
    ensures db.log == old(db.log) + WriteRun(table, frame, db.failAt, |old(db.log)|).issued
    ensures status == Handle(WriteRun(table, frame, db.failAt, |old(db.log)|).error, AnyError)
  {
    var err := WriteRows(db, frame, table);
    status := Handle(err, AnyError);
  }

  /** The body of `write_dataframe_to_db` up to its `except` clause, shared with the
      copy in `run_etl_as_script.py`; returns the exception that ended it, if any. */
  method WriteRows(db: Database, frame: Frame, table: string) returns (err: Option<Exception>)
    modifies db
    ensures db.log == old(db.log) + WriteRun(table, frame, db.failAt, |old(db.log)|).issued
    ensures err == WriteRun(table, frame, db.failAt, |old(db.log)|).error
  {
    err := db.Request(Connect);
    if err.Some? {
      return;
    }
    err := InsertAndCommit(db, frame, table);
    CloseSession(db, map[], WritePlan(table, frame), old(db.log));
  }

  /** The statements of the `try` block after `pyodbc.connect`: the cursor, one insert
      per row and the commit, each run only while nothing has raised. */
  method InsertAndCommit(db: Database, frame: Frame, table: string) returns (err: Option<Exception>)
    modifies db
    ensures db.log == old(db.log) + Perform(WritePlan(table, frame), map[], db.failAt, |old(db.log)|).issued
    ensures err == Perform(WritePlan(table, frame), map[], db.failAt, |old(db.log)|).error
  {
    ghost var plan := WritePlan(table, frame);
    ghost var start := db.log;
    var n := |frame.rows|;
    WritePlanShape(table, frame);
    assert plan[..0] == [];
    err := Advance(db, map[], Do(Cursor), plan, 0, start);
    err := InsertRows(db, frame, table, err, plan, start);
    if err.None? {
      err := Advance(db, map[], Do(Commit), plan, 1 + n, start);
      assert plan[..2 + n] == plan;
    } else {
      PerformStopped(plan, 1 + n, map[], db.failAt, |start|);
    }
  }

  /** The loop over the rows: one insert per row, in order, while nothing has raised.
      The inserts are steps `1` to `|frame.rows|` of the plan. */
  method InsertRows(db: Database, frame: Frame, table: string, pending: Option<Exception>,
                    ghost plan: seq<Step>, ghost start: seq<Call>)
    returns (err: Option<Exception>)
    requires |frame.rows| < |plan|
    requires forall i :: 0 <= i < |frame.rows| ==>
      plan[1 + i] == Do(Execute(InsertStatement(table, frame.columns, |frame.rows[i]|), frame.rows[i]))
    requires db.log == start + Perform(plan[..1], map[], db.failAt, |start|).issued
    requires pending == Perform(plan[..1], map[], db.failAt, |start|).error
    modifies db
    ensures db.log == start + Perform(plan[..1 + |frame.rows|], map[], db.failAt, |start|).issued
    ensures err == Perform(plan[..1 + |frame.rows|], map[], db.failAt, |start|).error
  {
    err := pending;
    var i := 0;
    while i < |frame.rows| && err.None?
      invariant 0 <= i <= |frame.rows|
      invariant db.log == start + Perform(plan[..1 + i], map[], db.failAt, |start|).issued
      invariant err == Perform(plan[..1 + i], map[], db.failAt, |start|).error
    {
      var row := frame.rows[i];
      var sql := InsertSql(table, frame.columns, row);
      err := Advance(db, map[], Do(Execute(sql, row)), plan, 1 + i, start);
      i := i + 1;
    }
    if i < |frame.rows| {
      ghost var done := plan[..1 + |frame.rows|];
      assert done[..1 + i] == plan[..1 + i];
      PerformStopped(done, 1 + i, map[], db.failAt, |start|);
    }
  }


  /** The statement the loop body builds for one row. */
  method InsertSql(table: string, frameColumns: seq<string>, row: Row) returns (sql: string)
    ensures sql == InsertStatement(table, frameColumns, |row|)
    ensures StartsWith(sql, "INSERT INTO " + table + " (") && EndsWith(sql, ")")
    ensures '?' !in table && (forall i :: 0 <= i < |frameColumns| ==> '?' !in frameColumns[i]) ==>
      CountChar('?', sql) == |row|
  {
    var placeholders := JoinWith(", ", seq(|row|, k => "?"));
    var columns := JoinWith(", ", frameColumns);
    sql := "INSERT INTO " + table + " (" + columns + ") VALUES (" + placeholders + ")";
    InsertStatementFrame(table, frameColumns, |row|);
    if '?' !in table && forall i :: 0 <= i < |frameColumns| ==> '?' !in frameColumns[i] {
      InsertPlaceholders(table, frameColumns, |row|);
    }
  }
}
