/** `run_etl_as_script.py`: the stand-alone copy of the pipeline. Its `manage_tables`
    commits twice and catches only database errors and missing files, its query
    functions return a data frame built from the fetched rows, and its main block
    assembles the ODBC connection string from the entered server and credentials. */
module EtlScript {
  import opened Options
  import opened PyText
  import opened Odbc
  import opened DatabaseOperations

  /** `os.path.join(a, b)` on POSIX: an absolute `b` replaces `a`; otherwise one `/`
      separates them unless `a` is empty or already ends with one. */
  function PathJoin(a: string, b: string): string
  {
    if |b| > 0 && b[0] == '/' then b
    else if a == "" || a[|a| - 1] == '/' then a + b
    else a + "/" + b
  }

  /** `os.path.basename`: what follows the last `/`. */
  function Basename(p: string): string
  {
    if p == [] || p[|p| - 1] == '/' then []
    else Basename(p[..|p| - 1]) + [p[|p| - 1]]
  }

  lemma {:induction false} BasenameAfterSlash(a: string, b: string)
    requires '/' !in b
    ensures Basename(a + "/" + b) == b
  {
    if b != [] {
      var n := |b| - 1;
      BasenameAfterSlash(a, b[..n]);
      assert (a + "/" + b)[..|a| + 1 + n] == a + "/" + b[..n];
      assert b[..n] + [b[n]] == b;
    } else {
      assert a + "/" + b == a + "/";
    }
  }

  lemma {:induction false} BasenameOfName(b: string)
    requires '/' !in b
    ensures Basename(b) == b
  {
    if b != [] {
      var n := |b| - 1;
      BasenameOfName(b[..n]);
      assert b[..n] + [b[n]] == b;
    }
  }

  /** Joining a plain file name to a folder gives a path whose base name is that name,
      and for a folder without a trailing `/` the path is exactly `folder/name`. */
  lemma PathJoinName(folder: string, name: string)
    requires '/' !in name
    ensures Basename(PathJoin(folder, name)) == name
    ensures folder != "" && folder[|folder| - 1] != '/' ==> PathJoin(folder, name) == folder + "/" + name
  {
    if folder == "" || folder[|folder| - 1] == '/' {
      if folder == "" {
        assert folder + name == name;
        BasenameOfName(name);
      } else {
        var f := folder[..|folder| - 1];
        assert folder == f + "/";
        assert folder + name == f + "/" + name;
        BasenameAfterSlash(f, name);
      }
    } else {
      BasenameAfterSlash(folder, name);
    }
  }

  /** The folder of the script's SQL files for the tables. */
  const TableDir: string := "sqlFiles/tableManagement"

  /** The six files `manage_tables` reads, drops first. */
  const TableFileNames: seq<string> := [
    "drop_payment_summary_table.sql",
    "drop_duration_summary_table.sql",
    "drop_profitable_actors_table.sql",
    "create_payment_summary_table.sql",
    "create_duration_summary_table.sql",
    "create_profitable_actors_table.sql"
  ]

  /** Their paths, each joined to `TableDir`. */
  function ScriptPaths(): seq<string>
  {
    [PathJoin(TableDir, "drop_payment_summary_table.sql"),
     PathJoin(TableDir, "drop_duration_summary_table.sql"),
     PathJoin(TableDir, "drop_profitable_actors_table.sql"),
     PathJoin(TableDir, "create_payment_summary_table.sql"),
     PathJoin(TableDir, "create_duration_summary_table.sql"),
     PathJoin(TableDir, "create_profitable_actors_table.sql")]
  }

  /** Each path is `sqlFiles/tableManagement/<file>`: the folder has no trailing `/`
      and no file name starts with one, so the join puts exactly one `/` between them. */
  lemma ScriptPathsAre(i: nat)
    requires i < 6
    ensures ScriptPaths()[i] == TableDir + "/" + TableFileNames[i]
  {
    var name := TableFileNames[i];
    assert ScriptPaths()[i] == PathJoin(TableDir, name);
    assert TableDir[|TableDir| - 1] == 't';
    assert name[0] == 'd' || name[0] == 'c';
  }

  /** The script's `manage_tables` over its six paths: a cursor, the three drops,
      a commit, the three creates, a second commit. */
  function ScriptPlan(paths: seq<string>): seq<Step>
    requires |paths| == 6
  {
    [Do(Cursor), RunFile(paths[0]), RunFile(paths[1]), RunFile(paths[2]), Do(Commit),
     RunFile(paths[3]), RunFile(paths[4]), RunFile(paths[5]), Do(Commit)]
  }

  function ScriptSession(paths: seq<string>, files: FileSystem, failAt: Option<nat>, base: nat): Run
    requires |paths| == 6
  {
    Session(ScriptPlan(paths), files, failAt, base)
  }

  function ScriptManageRun(files: FileSystem, failAt: Option<nat>, base: nat): Run
  {
    ScriptSession(ScriptPaths(), files, failAt, base)
  }

  /** `except pyodbc.Error` and `except FileNotFoundError`. */
  const ScriptManageCaught: set<Exception> := {DbError, FileNotFound}

  /** The text a file step executes, `""` when it has none. */
  function FileSql(files: FileSystem, path: string): string
  {
    if path in files && files[path].Readable? then files[path].text else ""
  }

  /** The call each step of the plan makes: executes of the six files, with the
      commits at plan positions 4 and 8. */
  lemma ScriptPlanCalls(paths: seq<string>, files: FileSystem)
    requires |paths| == 6
    ensures |ScriptPlan(paths)| == 9
    ensures forall j :: 0 <= j < 9 ==> (CallOf(ScriptPlan(paths)[j], files) == Commit <==> j == 4 || j == 8)
    ensures Calls(ScriptPlan(paths), files) == [Cursor,
      Execute(FileSql(files, paths[0]), []), Execute(FileSql(files, paths[1]), []),
      Execute(FileSql(files, paths[2]), []), Commit,
      Execute(FileSql(files, paths[3]), []), Execute(FileSql(files, paths[4]), []),
      Execute(FileSql(files, paths[5]), []), Commit]
  {
    var plan := ScriptPlan(paths);
    forall j | 0 <= j < 9
      ensures CallOf(plan[j], files) == Commit <==> j == 4 || j == 8
    {
      assert j != 0 && j != 4 && j != 8 ==> plan[j].RunFile?;
    }
  }

  /** With a good connection and all six files readable, every call is issued: the
      drops, the first commit, the creates, the second commit, then close. */
  lemma ScriptManageClean(paths: seq<string>, files: FileSystem, failAt: Option<nat>, base: nat)
    requires |paths| == 6
    requires failAt.None? || failAt.value < base || failAt.value >= base + 10
    requires forall i :: 0 <= i < 6 ==> paths[i] in files && files[paths[i]].Readable?
    ensures ScriptSession(paths, files, failAt, base) == Run([Connect] + Calls(ScriptPlan(paths), files) + [Close], None)
    ensures var r := ScriptSession(paths, files, failAt, base);
      |r.issued| == 11 && r.issued[5] == Commit && r.issued[9] == Commit && r.issued[10] == Close
  {
    var plan := ScriptPlan(paths);
    forall j | 0 <= j < |plan|
      ensures StepOk(plan[j], files, failAt, base + 1 + j)
    {
      assert 1 <= j <= 3 || 5 <= j <= 7 ==> plan[j].RunFile? && plan[j].path in files;
    }
    SessionClean(plan, files, failAt, base);
    ScriptPlanCalls(paths, files);
  }

  /** A run stopped by plan step `j`, the first to raise, issues the calls before it,
      its own call if it got that far, then close. */
  lemma ScriptManageStopped(paths: seq<string>, files: FileSystem, failAt: Option<nat>, base: nat, j: nat)
    requires |paths| == 6 && failAt != Some(base) && j < 9
    requires forall i :: 0 <= i < j ==> StepOk(ScriptPlan(paths)[i], files, failAt, base + 1 + i)
    requires !StepOk(ScriptPlan(paths)[j], files, failAt, base + 1 + j)
    ensures var r := ScriptSession(paths, files, failAt, base);
      var a := Attempt(ScriptPlan(paths)[j], files, failAt, base + 1 + j);
      && r.error == a.error && r.error.Some?
      && r.issued == [Connect] + Calls(ScriptPlan(paths)[..j], files) + a.issued + [Close]
      && (j != 4 && j != 8 ==> Commit !in a.issued)
  {
    SessionFailsAt(ScriptPlan(paths), j, files, failAt, base);
    ScriptPlanCalls(paths, files);
  }

  /** If a drop (or the cursor) fails, nothing is committed. */
  lemma ScriptDropFails(paths: seq<string>, files: FileSystem, failAt: Option<nat>, base: nat, j: nat)
    requires |paths| == 6 && failAt != Some(base) && j < 4
    requires forall i :: 0 <= i < j ==> StepOk(ScriptPlan(paths)[i], files, failAt, base + 1 + i)
    requires !StepOk(ScriptPlan(paths)[j], files, failAt, base + 1 + j)
    ensures Commit !in ScriptSession(paths, files, failAt, base).issued
  {
    var plan := ScriptPlan(paths);
    ScriptManageStopped(paths, files, failAt, base, j);
    ScriptPlanCalls(paths, files);
    var before := Calls(plan[..j], files);
    forall i | 0 <= i < j
      ensures before[i] != Commit
    {
      assert before[i] == CallOf(plan[i], files);
    }
  }

  /** If a create step fails, the drops have already been committed (call `5` of the
      session) and the second commit does not happen. */
  lemma ScriptCreateFailsAfterDropCommit(paths: seq<string>, files: FileSystem, failAt: Option<nat>, base: nat, j: nat)
    requires |paths| == 6 && failAt != Some(base) && 5 <= j <= 7
    requires forall i :: 0 <= i < j ==> StepOk(ScriptPlan(paths)[i], files, failAt, base + 1 + i)
    requires !StepOk(ScriptPlan(paths)[j], files, failAt, base + 1 + j)
    ensures var r := ScriptSession(paths, files, failAt, base);
      5 < |r.issued| && r.issued[5] == Commit && Commit !in r.issued[6..] && r.error.Some?
  {
    var plan := ScriptPlan(paths);
    ScriptManageStopped(paths, files, failAt, base, j);
    ScriptPlanCalls(paths, files);
    var r := ScriptSession(paths, files, failAt, base);
    var before := Calls(plan[..j], files);
    var a := Attempt(plan[j], files, failAt, base + 1 + j);
    assert r.issued[5] == before[4] == CallOf(plan[4], files);
    forall p | 6 <= p < |r.issued|
      ensures r.issued[p] != Commit
    {
      if p - 1 < j {
        assert r.issued[p] == before[p - 1] == CallOf(plan[p - 1], files);
      } else if p - 1 - j < |a.issued| {
        assert r.issued[p] == a.issued[p - 1 - j];
      }
    }
  }

  /** A run of file and call steps ends with no exception, a database error, a missing
      file, or an unreadable one. */
  lemma {:induction false} PerformErrors(steps: seq<Step>, files: FileSystem, failAt: Option<nat>, base: nat)
    ensures Perform(steps, files, failAt, base).error in {None, Some(DbError), Some(FileNotFound), Some(OsError)}
  {
    if steps != [] {
      PerformErrors(steps[..|steps| - 1], files, failAt, base);
    }
  }

  /** The script's `manage_tables` logs database errors and missing files; only an
      unreadable file that exists escapes. */
  lemma ScriptManageStatus(files: FileSystem, failAt: Option<nat>, base: nat)
    ensures var e := ScriptManageRun(files, failAt, base).error;
      && (Handle(e, ScriptManageCaught).Raised? <==> e == Some(OsError))
      && (e.Some? && e != Some(OsError) ==> Handle(e, ScriptManageCaught) == Logged(e.value))
  {
    PerformErrors(ScriptPlan(ScriptPaths()), files, failAt, base + 1);
  }

  /** `manage_tables` of `run_etl_as_script.py`. */
  method ScriptManageTables(db: Database, files: FileSystem) returns (status: Status)
    modifies db
    ensures db.log == old(db.log) + ScriptManageRun(files, db.failAt, |old(db.log)|).issued
    ensures status == Handle(ScriptManageRun(files, db.failAt, |old(db.log)|).error, ScriptManageCaught)
  {
    var err := db.Request(Connect);
    if err.Some? {
      status := Handle(err, ScriptManageCaught);
      return;
    }
    err := RunScriptTableFiles(db, files);
    CloseSession(db, files, ScriptPlan(ScriptPaths()), old(db.log));
    status := Handle(err, ScriptManageCaught);
  }

  /** The statements of its `try` block after `pyodbc.connect`, straight-line: each runs
      only while nothing has raised. */
  method RunScriptTableFiles(db: Database, files: FileSystem) returns (err: Option<Exception>)
    modifies db
    ensures db.log == old(db.log) + Perform(ScriptPlan(ScriptPaths()), files, db.failAt, |old(db.log)|).issued
    ensures err == Perform(ScriptPlan(ScriptPaths()), files, db.failAt, |old(db.log)|).error
  {
    var dropPaymentTableFile := PathJoin(TableDir, "drop_payment_summary_table.sql");
    var dropDurationTableFile := PathJoin(TableDir, "drop_duration_summary_table.sql");
    var dropProfitableTableFile := PathJoin(TableDir, "drop_profitable_actors_table.sql");
    var createPaymentTableFile := PathJoin(TableDir, "create_payment_summary_table.sql");
    var createDurationTableFile := PathJoin(TableDir, "create_duration_summary_table.sql");
    var createProfitableActorsTableFile := PathJoin(TableDir, "create_profitable_actors_table.sql");
    var paths := [dropPaymentTableFile, dropDurationTableFile, dropProfitableTableFile,
                  createPaymentTableFile, createDurationTableFile, createProfitableActorsTableFile];
    assert paths == ScriptPaths();
    err := RunScriptSteps(db, files, paths);
  }

  /** The cursor and the eight statements that follow it, for given paths. */
  method RunScriptSteps(db: Database, files: FileSystem, paths: seq<string>) returns (err: Option<Exception>)
    requires |paths| == 6
    modifies db
    ensures db.log == old(db.log) + Perform(ScriptPlan(paths), files, db.failAt, |old(db.log)|).issued
    ensures err == Perform(ScriptPlan(paths), files, db.failAt, |old(db.log)|).error
  {
    ghost var plan := ScriptPlan(paths);
    ghost var start := db.log;
    assert plan[..0] == [];
    err := Advance(db, files, Do(Cursor), plan, 0, start);
    err := DropTables(db, files, paths, err, plan, start);
    err := CreateTables(db, files, paths, err, plan, start);
    assert plan[..9] == plan;
  }

  /** The three drops and the first commit: steps `1` to `4` of the plan. */
  method DropTables(db: Database, files: FileSystem, paths: seq<string>, pending: Option<Exception>,
                    ghost plan: seq<Step>, ghost start: seq<Call>)
    returns (err: Option<Exception>)
    requires |paths| == 6 && |plan| == 9
    requires plan[1] == RunFile(paths[0]) && plan[2] == RunFile(paths[1]) && plan[3] == RunFile(paths[2])
    requires plan[4] == Do(Commit)
    requires db.log == start + Perform(plan[..1], files, db.failAt, |start|).issued
    requires pending == Perform(plan[..1], files, db.failAt, |start|).error
    modifies db
    ensures db.log == start + Perform(plan[..5], files, db.failAt, |start|).issued
    ensures err == Perform(plan[..5], files, db.failAt, |start|).error
  {
    err := Proceed(db, files, RunFile(paths[0]), pending, plan, 1, start);
    err := Proceed(db, files, RunFile(paths[1]), err, plan, 2, start);
    err := Proceed(db, files, RunFile(paths[2]), err, plan, 3, start);
    err := Proceed(db, files, Do(Commit), err, plan, 4, start);
  }

  /** The three creates and the second commit: steps `5` to `8` of the plan. */
  method CreateTables(db: Database, files: FileSystem, paths: seq<string>, pending: Option<Exception>,
                      ghost plan: seq<Step>, ghost start: seq<Call>)
    returns (err: Option<Exception>)
    requires |paths| == 6 && |plan| == 9
    requires plan[5] == RunFile(paths[3]) && plan[6] == RunFile(paths[4]) && plan[7] == RunFile(paths[5])
    requires plan[8] == Do(Commit)
    requires db.log == start + Perform(plan[..5], files, db.failAt, |start|).issued
    requires pending == Perform(plan[..5], files, db.failAt, |start|).error
    modifies db
    ensures db.log == start + Perform(plan[..9], files, db.failAt, |start|).issued
    ensures err == Perform(plan[..9], files, db.failAt, |start|).error
  {
    err := Proceed(db, files, RunFile(paths[3]), pending, plan, 5, start);
    err := Proceed(db, files, RunFile(paths[4]), err, plan, 6, start);
    err := Proceed(db, files, RunFile(paths[5]), err, plan, 7, start);
    err := Proceed(db, files, Do(Commit), err, plan, 8, start);
  }

  /** `except pyodbc.Error`. */
  const DbErrorOnly: set<Exception> := {DbError}

  /** The script's `write_dataframe_to_db` catches only `pyodbc.Error`, which is all a
      write can raise, so it ends as the package version does. */
  lemma ScriptWriteAgrees(table: string, frame: Frame, failAt: Option<nat>, base: nat)
    ensures Handle(WriteRun(table, frame, failAt, base).error, DbErrorOnly)
         == Handle(WriteRun(table, frame, failAt, base).error, AnyError)
    ensures !Handle(WriteRun(table, frame, failAt, base).error, DbErrorOnly).Raised?
  {
    WritePlanCalls(table, frame);
    DoOnlyRaisesDbError(WritePlan(table, frame), map[], failAt, base + 1);
  }

  /** `write_dataframe_to_db` of `run_etl_as_script.py`: the same calls as the package's. */
  method ScriptWriteDataframeToDb(db: Database, frame: Frame, table: string) returns (status: Status)
    modifies db
    ensures db.log == old(db.log) + WriteRun(table, frame, db.failAt, |old(db.log)|).issued
    ensures status == Handle(WriteRun(table, frame, db.failAt, |old(db.log)|).error, DbErrorOnly)
  {
    var err := WriteRows(db, frame, table);
    status := Handle(err, DbErrorOnly);
  }

  /** How a function that returns a value ends. */
  datatype Outcome<T> = Returned(value: T) | Thrown(e: Exception)

  /** A query function: a cursor, `execute` of the file's text, `fetchall`. */
  function QueryPlan(path: string): seq<Step>
  {
    [Do(Cursor), RunFile(path), Do(FetchAll)]
  }

  function QueryRun(path: string, files: FileSystem, failAt: Option<nat>, base: nat): Run
  {
    Session(QueryPlan(path), files, failAt, base)
  }

  /** The widest row: pandas makes one column per position of the longest tuple. */
  function Width(rows: seq<Row>): (w: nat)
    ensures forall i :: 0 <= i < |rows| ==> |rows[i]| <= w
    ensures rows == [] ==> w == 0
    ensures rows != [] ==> exists i :: 0 <= i < |rows| && |rows[i]| == w
  {
    if rows == [] then 0
    else
      var w := Width(rows[..|rows| - 1]);
      var last := |rows[|rows| - 1]|;
      assert forall i :: 0 <= i < |rows| - 1 ==> rows[..|rows| - 1][i] == rows[i];
      if last > w then last else w
  }

  /** `pd.DataFrame(tuple(t) for t in rows)`: shorter rows are filled with nulls. */
  function Padded(rows: seq<Row>): seq<Row>
  {
    seq(|rows|, i requires 0 <= i < |rows| => rows[i] + seq(Width(rows) - |rows[i]|, _ => NullValue))
  }

  /** What a query function returns or raises after its session. A database error
      leaves the result variable unbound, so the `return` raises `UnboundLocalError`;
      a missing or unreadable file escapes, as only `pyodbc.Error` is caught; so does
      pandas' `ValueError` when the row width differs from the column names (as it
      does for zero rows). */
  function QueryOutcome(path: string, columns: seq<string>, files: FileSystem, failAt: Option<nat>,
                        base: nat, answers: map<string, seq<Row>>): Outcome<Frame>
  {
    Settle(QueryRun(path, files, failAt, base).error, AnswerOf(answers, FileSql(files, path)), columns)
  }

  /** The outcome once the session has ended with `error` and the query's rows are `rows`. */
  function Settle(error: Option<Exception>, rows: seq<Row>, columns: seq<string>): Outcome<Frame>
  {
    if error == Some(DbError) then Thrown(UnboundLocal)
    else if error.Some? then Thrown(error.value)
    else if Width(rows) != |columns| then Thrown(ValueError)
    else Returned(Frame(columns, Padded(rows)))
  }


  /** The query's steps once connected: the cursor, the file's text, the fetch. */
  lemma QuerySteps(path: string, files: FileSystem, failAt: Option<nat>, b: nat)
    ensures var r := Perform(QueryPlan(path), files, failAt, b);
      && (failAt == Some(b) ==> r == Run([Cursor], Some(DbError)))
      && (failAt != Some(b) ==>
            && (path !in files ==> r == Run([Cursor], Some(FileNotFound)))
            && (path in files && files[path].Unreadable? ==> r == Run([Cursor], Some(OsError)))
            && (path in files && files[path].Readable? ==>
                  r == if failAt == Some(b + 1) then Run([Cursor, Execute(files[path].text, [])], Some(DbError))
                       else Run([Cursor, Execute(files[path].text, []), FetchAll], Fault(failAt, b + 2))))
  {
    PerformStep([], Do(Cursor), files, failAt, b);
    assert [] + [Do(Cursor)] == [Do(Cursor)];
    PerformStep([Do(Cursor)], RunFile(path), files, failAt, b);
    assert [Do(Cursor)] + [RunFile(path)] == [Do(Cursor), RunFile(path)];
    PerformStep([Do(Cursor), RunFile(path)], Do(FetchAll), files, failAt, b);
    assert [Do(Cursor), RunFile(path)] + [Do(FetchAll)] == QueryPlan(path);
    var r1 := Perform([Do(Cursor)], files, failAt, b);
    var r2 := Perform([Do(Cursor), RunFile(path)], files, failAt, b);
    assert r1 == Run([Cursor], Fault(failAt, b));
    assert r2 == Extend(r1, RunFile(path), files, failAt, b);
    if failAt != Some(b) && path in files && files[path].Readable? {
      var text := files[path].text;
      assert r2 == Run([Cursor, Execute(text, [])], Fault(failAt, b + 1));
    }
  }

  /** The trace of a query session: which call raises decides how far it got. */
  lemma QueryTrace(path: string, files: FileSystem, failAt: Option<nat>, base: nat)
    ensures var r := QueryRun(path, files, failAt, base);
      var text := FileSql(files, path);
      && (failAt == Some(base) ==> r == Run([Connect], Some(DbError)))
      && (failAt == Some(base + 1) ==> r == Run([Connect, Cursor, Close], Some(DbError)))
      && (failAt != Some(base) && failAt != Some(base + 1) ==>
            && (path !in files ==> r == Run([Connect, Cursor, Close], Some(FileNotFound)))
            && (path in files && files[path].Unreadable? ==> r == Run([Connect, Cursor, Close], Some(OsError)))
            && (path in files && files[path].Readable? ==>
                  && (failAt == Some(base + 2) ==> r == Run([Connect, Cursor, Execute(text, []), Close], Some(DbError)))
                  && (failAt == Some(base + 3) ==> r == Run([Connect, Cursor, Execute(text, []), FetchAll, Close], Some(DbError)))
                  && (failAt.None? || failAt.value < base || failAt.value > base + 3 ==>
                        r == Run([Connect, Cursor, Execute(text, []), FetchAll, Close], None))))
  {
    if failAt != Some(base) {
      var b1 := base + 1;
      QuerySteps(path, files, failAt, b1);
      var p := Perform(QueryPlan(path), files, failAt, b1);
      assert QueryRun(path, files, failAt, base) == Run([Connect] + p.issued + [Close], p.error);
      if path in files && files[path].Readable? && failAt != Some(b1) {
        var text := files[path].text;
        assert FileSql(files, path) == text;
        if failAt == Some(b1 + 1) {
          assert p == Run([Cursor, Execute(text, [])], Some(DbError));
        } else {
          assert p.issued == [Cursor, Execute(text, []), FetchAll];
        }
      }
    }
  }

  /** A query function that hits a database error never returns a frame: the
      `return` that follows raises `UnboundLocalError`. */
  lemma QueryDbErrorUnbound(path: string, columns: seq<string>, files: FileSystem, failAt: Option<nat>,
                            base: nat, answers: map<string, seq<Row>>)
    requires failAt == Some(base) || failAt == Some(base + 1)
      || (path in files && files[path].Readable? && (failAt == Some(base + 2) || failAt == Some(base + 3)))
    ensures QueryOutcome(path, columns, files, failAt, base, answers) == Thrown(UnboundLocal)
  {
    QueryTrace(path, files, failAt, base);
  }

  /** A missing query file escapes after the connection has been closed. */
  lemma QueryMissingFileEscapes(path: string, columns: seq<string>, files: FileSystem, failAt: Option<nat>,
                                base: nat, answers: map<string, seq<Row>>)
    requires path !in files && failAt != Some(base) && failAt != Some(base + 1)
    ensures QueryOutcome(path, columns, files, failAt, base, answers) == Thrown(FileNotFound)
    ensures QueryRun(path, files, failAt, base).issued == [Connect, Cursor, Close]
  {
    QueryTrace(path, files, failAt, base);
  }

  /** A query function returns a frame exactly when its session raised nothing and
      the rows are as wide as the column names; the frame has those names, one row
      per fetched row, each row holding its values followed by nulls. */
  lemma QueryReturnsIff(path: string, columns: seq<string>, files: FileSystem, failAt: Option<nat>,
                        base: nat, answers: map<string, seq<Row>>)
    ensures var o := QueryOutcome(path, columns, files, failAt, base, answers);
      var rows := AnswerOf(answers, FileSql(files, path));
      && (o.Returned? <==> QueryRun(path, files, failAt, base).error.None? && Width(rows) == |columns|)
      && (o.Returned? ==>
            && o.value.columns == columns && |o.value.rows| == |rows|
            && forall i :: 0 <= i < |rows| ==>
                 |o.value.rows[i]| == |columns| && o.value.rows[i][..|rows[i]|] == rows[i]
                 && forall k :: |rows[i]| <= k < |columns| ==> o.value.rows[i][k] == NullValue)
  {
    var o := QueryOutcome(path, columns, files, failAt, base, answers);
    var rows := AnswerOf(answers, FileSql(files, path));
    if o.Returned? {
      forall i | 0 <= i < |rows|
        ensures |o.value.rows[i]| == |columns| && o.value.rows[i][..|rows[i]|] == rows[i]
      {
        assert o.value.rows[i] == rows[i] + seq(Width(rows) - |rows[i]|, _ => NullValue);
      }
    }
  }

  /** A query that fetches no rows cannot name its columns: pandas raises
      `ValueError`, which escapes. */
  lemma QueryNoRowsRaises(path: string, columns: seq<string>, files: FileSystem, failAt: Option<nat>,
                          base: nat, answers: map<string, seq<Row>>)
    requires columns != [] && AnswerOf(answers, FileSql(files, path)) == []
    requires QueryRun(path, files, failAt, base).error.None?
    ensures QueryOutcome(path, columns, files, failAt, base, answers) == Thrown(ValueError)
  {
  }

  /** The common body of the three query functions: connect, cursor, read the file,
      execute it, fetch the rows and name the columns, closing the connection in
      `finally` when it was opened. */
  method CalculateSummary(db: Database, files: FileSystem, sqlFilePath: string, columns: seq<string>)
    returns (outcome: Outcome<Frame>)
    modifies db
    ensures db.log == old(db.log) + QueryRun(sqlFilePath, files, db.failAt, |old(db.log)|).issued
    ensures outcome == QueryOutcome(sqlFilePath, columns, files, db.failAt, |old(db.log)|, db.answers)
  {
    var err := db.Request(Connect);
    if err.Some? {
      outcome := Thrown(UnboundLocal);
      return;
    }
    outcome := RunQuery(db, files, sqlFilePath, columns);
    db.CloseConnection();
  }

  /** The `try` block of a query function and what follows its `finally`: the steps
      after the connect, and the frame it returns or the exception that leaves it. */
  method RunQuery(db: Database, files: FileSystem, sqlFilePath: string, columns: seq<string>)
    returns (outcome: Outcome<Frame>)
    modifies db
    ensures db.log == old(db.log) + Perform(QueryPlan(sqlFilePath), files, db.failAt, |old(db.log)|).issued
    ensures outcome == Settle(Perform(QueryPlan(sqlFilePath), files, db.failAt, |old(db.log)|).error,
                              AnswerOf(db.answers, FileSql(files, sqlFilePath)), columns)
  {
    QuerySteps(sqlFilePath, files, db.failAt, |db.log|);
    var result: Option<Frame> := None;
    var escaping: Option<Exception> := None;
    var err := db.Request(Cursor);
    if err.None? {
      if sqlFilePath !in files {
        escaping := Some(FileNotFound);
      } else if files[sqlFilePath].Unreadable? {
        escaping := Some(OsError);
      } else {
        var sqlQuery := files[sqlFilePath].text;
        err := db.Request(Execute(sqlQuery, []));
        if err.None? {
          var rows;
          rows, err := db.FetchAllRows();
          if err.None? {
            if Width(rows) != |columns| {
              escaping := Some(ValueError);
            } else {
              result := Some(Frame(columns, Padded(rows)));
            }
          }
        }
      }
    }
    if escaping.Some? {
      outcome := Thrown(escaping.value);
    } else if result.None? {
      outcome := Thrown(UnboundLocal);
    } else {
      outcome := Returned(result.value);
    }
  }


  const PaymentColumns: seq<string> := ["Records", "Minimum", "Maximum", "Total", "Average"]
  const DurationColumns: seq<string> := ["Minimum", "Maximum", "Total", "Average"]
  const ActorColumns: seq<string> := ["ActorID", "FirstName", "LastName", "TotalSale"]

  /** `calculate_payments`. */
  method CalculatePayments(db: Database, files: FileSystem, sqlFilePath: string) returns (outcome: Outcome<Frame>)
    modifies db
    ensures db.log == old(db.log) + QueryRun(sqlFilePath, files, db.failAt, |old(db.log)|).issued
    ensures outcome == QueryOutcome(sqlFilePath, PaymentColumns, files, db.failAt, |old(db.log)|, db.answers)
  {
    outcome := CalculateSummary(db, files, sqlFilePath, PaymentColumns);
  }

  /** `calculate_duration`. */
  method CalculateDuration(db: Database, files: FileSystem, sqlFilePath: string) returns (outcome: Outcome<Frame>)
    modifies db
    ensures db.log == old(db.log) + QueryRun(sqlFilePath, files, db.failAt, |old(db.log)|).issued
    ensures outcome == QueryOutcome(sqlFilePath, DurationColumns, files, db.failAt, |old(db.log)|, db.answers)
  {
    outcome := CalculateSummary(db, files, sqlFilePath, DurationColumns);
  }

  /** `calculate_profitable_actors`. */
  method CalculateProfitableActors(db: Database, files: FileSystem, sqlFilePath: string) returns (outcome: Outcome<Frame>)
    modifies db
    ensures db.log == old(db.log) + QueryRun(sqlFilePath, files, db.failAt, |old(db.log)|).issued
    ensures outcome == QueryOutcome(sqlFilePath, ActorColumns, files, db.failAt, |old(db.log)|, db.answers)
  {
    outcome := CalculateSummary(db, files, sqlFilePath, ActorColumns);
  }

  /** `write_local_txt_output`: the path written to, or `None` when creating the folder
      or writing the file fails (`written == false`). */
  function WriteLocalTxtOutput(folderPath: string, fileName: string, written: bool): (r: Option<string>)
  {
    if written then Some(PathJoin(folderPath, fileName)) else None
  }

  /** The returned path names the file inside the folder; a failed write returns `None`. */
  lemma WriteLocalTxtOutputPath(folderPath: string, fileName: string, written: bool)
    requires '/' !in fileName
    ensures WriteLocalTxtOutput(folderPath, fileName, written).None? <==> !written
    ensures written ==> Basename(WriteLocalTxtOutput(folderPath, fileName, written).value) == fileName
    ensures written && folderPath != "" && folderPath[|folderPath| - 1] != '/' ==>
      WriteLocalTxtOutput(folderPath, fileName, written) == Some(folderPath + "/" + fileName)
  {
    PathJoinName(folderPath, fileName);
  }

  /** An example: the path of the main block's first report. */
  lemma PaymentReportPath()
    ensures WriteLocalTxtOutput("reports", "payment_summary.txt", true) == Some("reports/payment_summary.txt")
  {
    var folder, name := "reports", "payment_summary.txt";
    assert '/' !in name;
    assert folder[|folder| - 1] == 's';
    PathJoinName(folder, name);
    assert folder + "/" + name == "reports/payment_summary.txt";
  }

  /** One attribute of an ODBC connection string, terminated by `;`. */
  function Field(key: string, value: string): string
  {
    key + "=" + value + ";"
  }

  /** The connection string of the main block, from the entered server, user name and
      password, each stripped of surrounding whitespace: the f-string's attributes
      written one after the other. */
  function ConnectionString(server: string, username: string, password: string): string
  {
    Field("Driver", "{ODBC Driver 18 for SQL Server}")
      + Field("Server", Strip(server) + ",1433")
      + Field("Database", "sakila")
      + Field("Uid", Strip(username))
      + Field("Pwd", Strip(password))
      + Field("Encrypt", "yes") + Field("TrustServerCertificate", "no") + Field("Connection Timeout", "30")
  }

  /** The attributes the main block gives the driver, by name. */
  function ConnectionFields(server: string, username: string, password: string): seq<(string, string)>
  {
    [("Driver", "{ODBC Driver 18 for SQL Server}"), ("Server", server + ",1433"), ("Database", "sakila"),
     ("Uid", username), ("Pwd", password),
     ("Encrypt", "yes"), ("TrustServerCertificate", "no"), ("Connection Timeout", "30")]
  }

  /** A list of attributes written out. */
  function Format(fields: seq<(string, string)>): string
  {
    if fields == [] then "" else Field(fields[0].0, fields[0].1) + Format(fields[1..])
  }

  /** One `key=value` attribute: split at the first `=`. */
  function Attribute(piece: string): (string, string)
  {
    if '=' in piece then
      var i := IndexOf(piece, '=');
      (piece[..i], piece[i + 1..])
    else (piece, "")
  }

  /** The attributes of a connection string, one per `;`-separated piece. */
  function Attributes(cs: string): seq<(string, string)>
  {
    var pieces := SplitOn(cs, ';');
    seq(|pieces|, i requires 0 <= i < |pieces| => Attribute(pieces[i]))
  }

  lemma AttributeOf(key: string, value: string)
    requires '=' !in key
    ensures Attribute(key + "=" + value) == (key, value)
  {
    IndexOfJoined(key, '=', value);
    var s := key + "=" + value;
    assert s == key + ['='] + value;
    assert s[..|key|] == key && s[|key| + 1..] == value;
  }

  /** Attributes whose names hold neither `=` nor `;` and whose values hold no `;`. */
  predicate Separable(fields: seq<(string, string)>)
  {
    forall i :: 0 <= i < |fields| ==> '=' !in fields[i].0 && ';' !in fields[i].0 && ';' !in fields[i].1
  }

  /** One attribute written as `key=value`, without its `;`. */
  function Piece(field: (string, string)): string
  {
    field.0 + "=" + field.1
  }

  /** The `key=value` pieces of a list of attributes. */
  function Pieces(fields: seq<(string, string)>): seq<string>
  {
    seq(|fields|, i requires 0 <= i < |fields| => Piece(fields[i]))
  }

  /** Writing the attributes out is writing their pieces, each followed by `;`. */
  lemma {:induction false} FormatTerminated(fields: seq<(string, string)>)
    ensures Format(fields) == Terminated(Pieces(fields), ';')
  {
    if fields != [] {
      var rest := fields[1..];
      FormatTerminated(rest);
      assert Pieces(fields)[1..] == Pieces(rest);
      assert Field(fields[0].0, fields[0].1) == Piece(fields[0]) + [';'];
    }
  }

  /** Written-out separable attributes split back into their `key=value` pieces. */
  lemma SplitFormat(fields: seq<(string, string)>)
    requires Separable(fields)
    ensures SplitOn(Format(fields), ';') == Pieces(fields) + [""]
  {
    FormatTerminated(fields);
    forall i | 0 <= i < |fields|
      ensures ';' !in Pieces(fields)[i]
    {
      assert Pieces(fields)[i] == fields[i].0 + "=" + fields[i].1;
    }
    SplitTerminated(Pieces(fields), ';');
  }

  /** Parsing written-out separable attributes gives them back, and an empty last
      piece after the final `;`. */
  lemma FormatRoundTrip(fields: seq<(string, string)>)
    requires Separable(fields)
    ensures Attributes(Format(fields)) == fields + [("", "")]
  {
    SplitFormat(fields);
    forall i | 0 <= i < |fields|
      ensures Attribute(Piece(fields[i])) == fields[i]
    {
      AttributeOf(fields[i].0, fields[i].1);
    }
    assert ';' !in "" && '=' !in "";
  }

  lemma ConnectionStringFormat(server: string, username: string, password: string)
    ensures ConnectionString(server, username, password)
         == Format(ConnectionFields(Strip(server), Strip(username), Strip(password)))
  {
    var fs := ConnectionFields(Strip(server), Strip(username), Strip(password));
    assert fs[..0] == [];
    FormatSnoc(fs, 0);
    assert Format(fs[..1]) == Field("Driver", "{ODBC Driver 18 for SQL Server}");
    FormatSnoc(fs, 1);
    FormatSnoc(fs, 2);
    FormatSnoc(fs, 3);
    FormatSnoc(fs, 4);
    FormatSnoc(fs, 5);
    FormatSnoc(fs, 6);
    FormatSnoc(fs, 7);
    assert fs[..8] == fs;
  }

  lemma FormatSnoc(fs: seq<(string, string)>, k: nat)
    requires k < |fs|
    ensures Format(fs[..k + 1]) == Format(fs[..k]) + Field(fs[k].0, fs[k].1)
  {
    FormatAppend(fs[..k], [fs[k]]);
    assert [fs[k]][1..] == [];
    assert fs[..k + 1] == fs[..k] + [fs[k]];
  }

  lemma {:induction false} FormatAppend(a: seq<(string, string)>, b: seq<(string, string)>)
    ensures Format(a + b) == Format(a) + Format(b)
  {
    if a == [] {
      assert a + b == b;
    } else {
      var head := Field(a[0].0, a[0].1);
      assert (a + b)[0] == a[0] && (a + b)[1..] == a[1..] + b;
      calc {
        Format(a + b);
        head + Format(a[1..] + b);
        { FormatAppend(a[1..], b); }
        head + (Format(a[1..]) + Format(b));
        (head + Format(a[1..])) + Format(b);
      }
    }
  }

  /** No attribute name of the connection string holds `=` or `;`. */
  lemma ConnectionNamesSeparable()
    ensures forall i :: 0 <= i < 8 ==> '=' !in ConnectionFields("", "", "")[i].0 && ';' !in ConnectionFields("", "", "")[i].0
  {
    NamePlain("Driver");
    NamePlain("Server");
    NamePlain("Database");
    NamePlain("Uid");
    NamePlain("Pwd");
    NamePlain("Encrypt");
    NamePlain("TrustServerCertificate");
    NamePlain("Connection Timeout");
  }

  /** A name made of letters and spaces holds neither separator. */
  lemma NamePlain(name: string)
    requires forall i :: 0 <= i < |name| ==> name[i] == ' ' || 'A' <= name[i] <= 'Z' || 'a' <= name[i] <= 'z'
    ensures '=' !in name && ';' !in name
  {
  }

  /** Entered values free of `;` give attribute values free of `;`. */
  lemma ConnectionValuesSeparable(server: string, username: string, password: string)
    requires ';' !in server && ';' !in username && ';' !in password
    ensures forall i :: 0 <= i < 8 ==> ';' !in ConnectionFields(server, username, password)[i].1
  {
    assert ';' !in ",1433";
  }

  /** Read back attribute by attribute, the connection string names the ODBC 18
      driver, port 1433 of the entered server, the `sakila` database, the entered
      user and password, and the encryption settings, in that order, provided the
      entered values hold no `;`. */
  lemma ConnectionAttributes(server: string, username: string, password: string)
    requires ';' !in Strip(server) && ';' !in Strip(username) && ';' !in Strip(password)
    ensures Attributes(ConnectionString(server, username, password))
         == ConnectionFields(Strip(server), Strip(username), Strip(password)) + [("", "")]
  {
    var fs := ConnectionFields(Strip(server), Strip(username), Strip(password));
    ConnectionStringFormat(server, username, password);
    ConnectionNamesSeparable();
    ConnectionValuesSeparable(Strip(server), Strip(username), Strip(password));
    assert forall i :: 0 <= i < 8 ==> fs[i].0 == ConnectionFields("", "", "")[i].0;
    FormatRoundTrip(fs);
  }

  /** Whitespace around the entered values never reaches the connection string. */
  lemma ConnectionStringStripped(server: string, username: string, password: string)
    ensures ConnectionString(Strip(server), Strip(username), Strip(password)) == ConnectionString(server, username, password)
  {
    StripIdempotent(server);
    StripIdempotent(username);
    StripIdempotent(password);
  }
}
