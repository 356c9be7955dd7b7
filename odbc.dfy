/** The abstract database connection the ETL functions talk to through `pyodbc`,
    and their SQL files. A connection is an append-only log of the calls made on it;
    one optional position of that log is the call that raises `pyodbc.Error`. */
module Odbc {
  import opened Options

  /** One value of a row or of an INSERT parameter tuple. */
  datatype Value = IntValue(i: int) | RealValue(r: real) | TextValue(s: string) | NullValue

  type Row = seq<Value>

  /** The calls the ETL functions make: `pyodbc.connect`, `connection.cursor()`,
      `cursor.execute(sql, params)`, `cursor.fetchall()`, `connection.commit()`
      and `connection.close()`. */
  datatype Call =
    | Connect
    | Cursor
    | Execute(sql: string, params: seq<Value>)
    | FetchAll
    | Commit
    | Close

  /** The exceptions that matter here: `pyodbc.Error`, `FileNotFoundError`, any other
      `OSError` raised while reading a file, pandas' `ValueError` and `UnboundLocalError`. */
  datatype Exception = DbError | FileNotFound | OsError | ValueError | UnboundLocal

  /** What `open(path).read()` finds: the text, or a file it cannot read (a directory,
      no permission). A path missing from the file system raises `FileNotFoundError`. */
  datatype FileEntry = Readable(text: string) | Unreadable

  type FileSystem = map<string, FileEntry>

  /** One step of a database function: a call, or `execute` of an SQL file's text. */
  datatype Step = Do(call: Call) | RunFile(path: string)

  /** The calls issued by a sequence of steps and the exception, if any, that ended it. */
  datatype Run = Run(issued: seq<Call>, error: Option<Exception>)

  /** The call at log position `pos` raises exactly when it is the failure point. */
  function Fault(failAt: Option<nat>, pos: nat): Option<Exception>
  {
    if failAt == Some(pos) then Some(DbError) else None
  }

  /** One step whose call would land at log position `pos`. */
  function Attempt(step: Step, files: FileSystem, failAt: Option<nat>, pos: nat): Run
  {
    match step
    case Do(c) => Run([c], Fault(failAt, pos))
    case RunFile(p) =>
      if p !in files then Run([], Some(FileNotFound))
      else match files[p]
        case Unreadable => Run([], Some(OsError))
        case Readable(text) => Run([Execute(text, [])], Fault(failAt, pos))
  }

  predicate StepOk(step: Step, files: FileSystem, failAt: Option<nat>, pos: nat)
  {
    Attempt(step, files, failAt, pos).error.None?
  }

  /** The call a step makes when it gets that far. */
  function CallOf(step: Step, files: FileSystem): Call
  {
    match step
    case Do(c) => c
    case RunFile(p) => Execute(if p in files && files[p].Readable? then files[p].text else "", [])
  }

  function Calls(steps: seq<Step>, files: FileSystem): seq<Call>
  {
    seq(|steps|, i requires 0 <= i < |steps| => CallOf(steps[i], files))
  }

  /** Python's exception semantics for straight-line code: once a step has raised,
      the later steps do not run. */
  function Extend(prev: Run, step: Step, files: FileSystem, failAt: Option<nat>, base: nat): Run
  {
    if prev.error.Some? then prev
    else
      var a := Attempt(step, files, failAt, base + |prev.issued|);
      Run(prev.issued + a.issued, a.error)
  }

  /** The steps run one after the other, the first call landing at log position `base`. */
  function Perform(steps: seq<Step>, files: FileSystem, failAt: Option<nat>, base: nat): Run
  {
    if steps == [] then Run([], None)
    else Extend(Perform(steps[..|steps| - 1], files, failAt, base), steps[|steps| - 1], files, failAt, base)
  }

  lemma PerformStep(steps: seq<Step>, step: Step, files: FileSystem, failAt: Option<nat>, base: nat)
    ensures Perform(steps + [step], files, failAt, base) == Extend(Perform(steps, files, failAt, base), step, files, failAt, base)
  {
    assert (steps + [step])[..|steps|] == steps;
  }

  lemma PerformPrefix(steps: seq<Step>, i: nat, files: FileSystem, failAt: Option<nat>, base: nat)
    requires i < |steps|
    ensures Perform(steps[..i + 1], files, failAt, base) == Extend(Perform(steps[..i], files, failAt, base), steps[i], files, failAt, base)
  {
    assert steps[..i + 1][..i] == steps[..i];
  }

  /** When every step succeeds, each issues exactly its own call, in order. */
  lemma {:induction false} PerformClean(steps: seq<Step>, files: FileSystem, failAt: Option<nat>, base: nat)
    requires forall j :: 0 <= j < |steps| ==> StepOk(steps[j], files, failAt, base + j)
    ensures Perform(steps, files, failAt, base) == Run(Calls(steps, files), None)
  {
    if steps != [] {
      var n := |steps| - 1;
      var init := steps[..n];
      assert forall j :: 0 <= j < |init| ==> init[j] == steps[j];
      PerformClean(init, files, failAt, base);
      assert Calls(steps, files) == Calls(init, files) + [CallOf(steps[n], files)];
    }
  }

  /** The first step that raises ends the run: the steps before it issued their calls,
      it issued its own call if it got that far, and nothing follows. */
  lemma {:induction false} PerformFailsAt(steps: seq<Step>, j: nat, files: FileSystem, failAt: Option<nat>, base: nat)
    requires j < |steps|
    requires forall i :: 0 <= i < j ==> StepOk(steps[i], files, failAt, base + i)
    requires !StepOk(steps[j], files, failAt, base + j)
    ensures Perform(steps, files, failAt, base)
         == Run(Calls(steps[..j], files) + Attempt(steps[j], files, failAt, base + j).issued,
                Attempt(steps[j], files, failAt, base + j).error)
  {
    var n := |steps| - 1;
    if j == n {
      var init := steps[..n];
      assert forall i :: 0 <= i < |init| ==> init[i] == steps[i];
      PerformClean(init, files, failAt, base);
    } else {
      var init := steps[..n];
      assert forall i :: 0 <= i <= j ==> init[i] == steps[i];
      assert init[..j] == steps[..j];
      PerformFailsAt(init, j, files, failAt, base);
    }
  }

  /** A step that raised stays the outcome whatever was planned after it. */
  lemma {:induction false} PerformSticky(a: seq<Step>, b: seq<Step>, files: FileSystem, failAt: Option<nat>, base: nat)
    requires Perform(a, files, failAt, base).error.Some?
    ensures Perform(a + b, files, failAt, base) == Perform(a, files, failAt, base)
  {
    if b == [] {
      assert a + b == a;
    } else {
      var n := |b| - 1;
      PerformSticky(a, b[..n], files, failAt, base);
      assert (a + b)[..|a| + n] == a + b[..n];
    }
  }

  /** A `try ... finally: if connection: connection.close()` around `pyodbc.connect`
      and the steps: a failed connect binds no connection, so nothing is closed;
      otherwise `close` follows whatever the steps did. Closing does not raise. */
  function Session(steps: seq<Step>, files: FileSystem, failAt: Option<nat>, base: nat): Run
  {
    if failAt == Some(base) then Run([Connect], Some(DbError))
    else
      var r := Perform(steps, files, failAt, base + 1);
      Run([Connect] + r.issued + [Close], r.error)
  }

  /** Once the connect has succeeded, the session is the steps' run between connect and close. */
  lemma SessionConnected(steps: seq<Step>, files: FileSystem, failAt: Option<nat>, base: nat)
    requires failAt != Some(base)
    ensures Session(steps, files, failAt, base)
         == Run([Connect] + Perform(steps, files, failAt, base + 1).issued + [Close], Perform(steps, files, failAt, base + 1).error)
  {
  }

  /** A session whose connect and steps all succeed: connect, every step's call, close. */
  lemma SessionClean(steps: seq<Step>, files: FileSystem, failAt: Option<nat>, base: nat)
    requires failAt != Some(base)
    requires forall j :: 0 <= j < |steps| ==> StepOk(steps[j], files, failAt, base + 1 + j)
    ensures Session(steps, files, failAt, base) == Run([Connect] + Calls(steps, files) + [Close], None)
  {
    PerformClean(steps, files, failAt, base + 1);
  }

  /** A session whose step `j` is the first to raise: the calls before it, its own
      call if it got that far, then close, and the exception of step `j`. */
  lemma SessionFailsAt(steps: seq<Step>, j: nat, files: FileSystem, failAt: Option<nat>, base: nat)
    requires failAt != Some(base) && j < |steps|
    requires forall i :: 0 <= i < j ==> StepOk(steps[i], files, failAt, base + 1 + i)
    requires !StepOk(steps[j], files, failAt, base + 1 + j)
    ensures Session(steps, files, failAt, base)
         == Run([Connect] + Calls(steps[..j], files) + Attempt(steps[j], files, failAt, base + 1 + j).issued + [Close],
                Attempt(steps[j], files, failAt, base + 1 + j).error)
  {
    PerformFailsAt(steps, j, files, failAt, base + 1);
  }

  /** The first step that would raise, if any, when each earlier step issued its call. */
  function FirstBad(steps: seq<Step>, files: FileSystem, failAt: Option<nat>, base: nat): (r: Option<nat>)
    ensures r.Some? ==> r.value < |steps| && !StepOk(steps[r.value], files, failAt, base + r.value)
    ensures r.Some? ==> forall i :: 0 <= i < r.value ==> StepOk(steps[i], files, failAt, base + i)
    ensures r.None? ==> forall i :: 0 <= i < |steps| ==> StepOk(steps[i], files, failAt, base + i)
  {
    if steps == [] then None
    else if !StepOk(steps[0], files, failAt, base) then Some(0)
    else
      match FirstBad(steps[1..], files, failAt, base + 1)
      case None => None
      case Some(k) => Some(k + 1)
  }
  /** The trace of a session, for any steps: a failed connect leaves nothing to close;
      otherwise the first step to raise decides what is issued before the close, and
      with no such step every call is issued. */
  lemma SessionTrace(steps: seq<Step>, files: FileSystem, failAt: Option<nat>, base: nat)
    ensures var r := Session(steps, files, failAt, base);
      && (failAt == Some(base) ==> r == Run([Connect], Some(DbError)))
      && (failAt != Some(base) && FirstBad(steps, files, failAt, base + 1).None? ==>
            r == Run([Connect] + Calls(steps, files) + [Close], None))
      && (failAt != Some(base) && FirstBad(steps, files, failAt, base + 1).Some? ==>
            var j := FirstBad(steps, files, failAt, base + 1).value;
            var a := Attempt(steps[j], files, failAt, base + 1 + j);
            r == Run([Connect] + Calls(steps[..j], files) + a.issued + [Close], a.error) && a.error.Some?)
  {
    if failAt != Some(base) {
      match FirstBad(steps, files, failAt, base + 1)
      case None =>
        SessionClean(steps, files, failAt, base);
      case Some(j) =>
        SessionFailsAt(steps, j, files, failAt, base);
    }
  }


  lemma CallsAppend(a: seq<Step>, b: seq<Step>, files: FileSystem)
    ensures Calls(a + b, files) == Calls(a, files) + Calls(b, files)
  {
  }

  /** A step list made only of calls, one per given call. */
  function DoAll(calls: seq<Call>): seq<Step>
  {
    seq(|calls|, i requires 0 <= i < |calls| => Do(calls[i]))
  }

  /** `Calls` inverts `DoAll`. */
  lemma CallsDoAll(calls: seq<Call>, files: FileSystem)
    ensures Calls(DoAll(calls), files) == calls
  {
  }

  /** A plan that reads no file can only raise `pyodbc.Error`. */
  lemma {:induction false} DoOnlyRaisesDbError(steps: seq<Step>, files: FileSystem, failAt: Option<nat>, base: nat)
    requires forall i :: 0 <= i < |steps| ==> steps[i].Do?
    ensures Perform(steps, files, failAt, base).error in {None, Some(DbError)}
  {
    if steps != [] {
      var init := steps[..|steps| - 1];
      assert forall i :: 0 <= i < |init| ==> init[i] == steps[i];
      DoOnlyRaisesDbError(init, files, failAt, base);
    }
  }

  /** How a function that returns nothing ends: normally, with an `except` clause
      logging the exception, or with the exception escaping. */
  datatype Status = Completed | Logged(e: Exception) | Raised(e: Exception)

  function Handle(error: Option<Exception>, caught: set<Exception>): Status
  {
    if error.None? then Completed
    else if error.value in caught then Logged(error.value)
    else Raised(error.value)
  }

  /** `except Exception`. */
  const AnyError: set<Exception> := {DbError, FileNotFound, OsError, ValueError, UnboundLocal}

  /** The rows a query returns; a query the server knows no rows for returns none. */
  function AnswerOf(answers: map<string, seq<Row>>, sql: string): seq<Row>
  {
    if sql in answers then answers[sql] else []
  }

  /** The database server: every call made on any connection lands in `log`. */
  class Database {
    var log: seq<Call>
    /** The result set of the last successful `execute`. */
    var current: seq<Row>
    const failAt: Option<nat>
    /** The rows each query returns. */
    const answers: map<string, seq<Row>>

    constructor (failAt: Option<nat>, answers: map<string, seq<Row>>)
      ensures log == [] && current == []
      ensures this.failAt == failAt && this.answers == answers
    {
      this.failAt := failAt;
      this.answers := answers;
      log := [];
      current := [];
    }

    function Answer(sql: string): seq<Row>
      reads this
    {
      AnswerOf(answers, sql)
    }

    /** Any call but `close`; an `execute` that succeeds makes its query's rows current. */
    method Request(c: Call) returns (err: Option<Exception>)
      requires c != Close
      modifies this
      ensures log == old(log) + [c]
      ensures err == Fault(failAt, |old(log)|)
      ensures current == if c.Execute? && err.None? then Answer(c.sql) else old(current)
    {
      log := log + [c];
      err := Fault(failAt, |log| - 1);
      if c.Execute? && err.None? {
        current := Answer(c.sql);
      }
    }

    /** `cursor.fetchall()`. */
    method FetchAllRows() returns (rows: seq<Row>, err: Option<Exception>)
      modifies this
      ensures log == old(log) + [FetchAll] && current == old(current)
      ensures err == Fault(failAt, |old(log)|)
      ensures err.None? ==> rows == current
    {
      err := Request(FetchAll);
      rows := current;
    }

    /** `connection.close()`. */
    method CloseConnection()
      modifies this
      ensures log == old(log) + [Close] && current == old(current)
    {
      log := log + [Close];
    }

    /** One step: `with open(path) as f: cursor.execute(f.read())`, or a plain call. */
    method Apply(step: Step, files: FileSystem) returns (err: Option<Exception>)
      requires step.Do? ==> step.call != Close
      modifies this
      ensures log == old(log) + Attempt(step, files, failAt, |old(log)|).issued
      ensures err == Attempt(step, files, failAt, |old(log)|).error
    {
      match step
      case Do(c) =>
        err := Request(c);
      case RunFile(p) =>
        if p !in files {
          err := Some(FileNotFound);
        } else if files[p].Unreadable? {
          err := Some(OsError);
        } else {
          err := Request(Execute(files[p].text, []));
        }
    }
  }

  /** Runs step `k` of `plan` after the steps before it all succeeded, on a connection
      whose calls since `start` are those of the earlier steps. */
  method Advance(db: Database, files: FileSystem, step: Step, ghost plan: seq<Step>, ghost k: nat, ghost start: seq<Call>)
    returns (err: Option<Exception>)
    requires k < |plan| && plan[k] == step
    requires step.Do? ==> step.call != Close
    requires db.log == start + Perform(plan[..k], files, db.failAt, |start|).issued
    requires Perform(plan[..k], files, db.failAt, |start|).error.None?
    modifies db
    ensures db.log == start + Perform(plan[..k + 1], files, db.failAt, |start|).issued
    ensures err == Perform(plan[..k + 1], files, db.failAt, |start|).error
  {
    PerformPrefix(plan, k, files, db.failAt, |start|);
    err := db.Apply(step, files);
  }

  /** Step `k` of `plan` in straight-line code: skipped when an earlier step has raised
      (`pending`), run otherwise; either way the connection's calls since `start` are
      those of the first `k + 1` steps. */
  method Proceed(db: Database, files: FileSystem, step: Step, pending: Option<Exception>,
                 ghost plan: seq<Step>, ghost k: nat, ghost start: seq<Call>)
    returns (err: Option<Exception>)
    requires k < |plan| && plan[k] == step
    requires step.Do? ==> step.call != Close
    requires db.log == start + Perform(plan[..k], files, db.failAt, |start|).issued
    requires pending == Perform(plan[..k], files, db.failAt, |start|).error
    modifies db
    ensures db.log == start + Perform(plan[..k + 1], files, db.failAt, |start|).issued
    ensures err == Perform(plan[..k + 1], files, db.failAt, |start|).error
  {
    if pending.Some? {
      PerformPrefix(plan, k, files, db.failAt, |start|);
      err := pending;
    } else {
      err := Advance(db, files, step, plan, k, start);
    }
  }

  /** A plan cut short by an exception at step `k` ends as its first `k` steps did. */
  lemma PerformStopped(plan: seq<Step>, k: nat, files: FileSystem, failAt: Option<nat>, base: nat)
    requires k <= |plan| && Perform(plan[..k], files, failAt, base).error.Some?
    ensures Perform(plan, files, failAt, base) == Perform(plan[..k], files, failAt, base)
  {
    PerformSticky(plan[..k], plan[k..], files, failAt, base);
    assert plan[..k] + plan[k..] == plan;
  }

  /** The `finally` clause once a connection is bound: `connection.close()`, which
      completes the session of `plan` begun at log position `|before|`. */
  method CloseSession(db: Database, files: FileSystem, ghost plan: seq<Step>, ghost before: seq<Call>)
    requires db.failAt != Some(|before|)
    requires db.log == before + [Connect] + Perform(plan, files, db.failAt, |before| + 1).issued
    modifies db
    ensures db.log == before + Session(plan, files, db.failAt, |before|).issued
    ensures Session(plan, files, db.failAt, |before|).error == Perform(plan, files, db.failAt, |before| + 1).error
  {
    ghost var r := Perform(plan, files, db.failAt, |before| + 1);
    db.CloseConnection();
    SessionConnected(plan, files, db.failAt, |before|);
    assert db.log == before + ([Connect] + r.issued + [Close]);
  }
}
