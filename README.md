# Sakila ETL tools, modelled in Dafny

This project models the core of a small Python ETL pipeline. The pipeline talks to a
SQL Server holding the `sakila` sample database. The model covers five parts:

- `etl_pipeline/database_operations.py`. `manage_tables` drops and recreates three
  summary tables from six SQL files. `write_dataframe_to_db` inserts a data frame
  row by row with `?` placeholders and commits once.
- `run_etl_as_script.py`, the stand-alone copy of the pipeline:
  - its own `manage_tables`, which commits after the drops and again after the creates;
  - the three query functions, which build data frames from fetched rows;
  - its `write_dataframe_to_db` and `write_local_txt_output`;
  - the ODBC connection string its main block assembles.
- `etl_pipeline/manage_notebook.py`. Its parser splits the ETL script into a
  libraries prefix, one text per top-level function and the main block. Its
  `create_or_update_notebook` rebuilds a teaching notebook from scratch.
- `update_notebook.py`. It carries the same parser. Its `create_or_update_notebook`
  keeps the stored notebook's markdown cells and replaces all code with cells
  tagged by section.
- `generate_readme.py`, which assembles documentation text from module and
  function docstrings.

How the model is built:

- **The database is a log.** A `Database` object (`odbc.dfy`) records every call
  made on any connection. One log position, `failAt`, may raise `pyodbc.Error`.
  Each query text has a fixed answer.
- **Files are a map** from path to contents. A missing path raises
  `FileNotFoundError`. An unreadable entry raises an `OSError` or a decoding error; both are
  modelled as one `OsError` outcome, and every handler treats them alike.
- **Each database function has a plan,** a list of steps. Its promised behaviour is
  `Session(plan, …)`:
  - it connects first;
  - it runs the steps until one raises;
  - it closes exactly when the connect succeeded.
- **The methods follow the source's statements.** They are proved to leave exactly
  that session's calls in the log. The lemmas then state the traces, the commit
  conditions and the handling of exceptions.
- **The notebook tools are methods over a `Notebook` object** whose `cells` they
  reassign and append to. They are proved equal to reference cell lists, and the
  layout lemmas are proved about those lists.
- **Parsing is an input.** The script's lines and the top-level statements that
  `ast.parse` gives for them are parameters.

Points where the code behaves differently from what a reader might expect:

- The query functions of `run_etl_as_script.py` catch only `pyodbc.Error`.
  - A missing or unreadable SQL file therefore escapes to the caller, after the
    connection is closed (`EtlScript.QueryMissingFileEscapes`). The notebook prose
    for `calculate_payments` (etl_pipeline/manage_notebook.py:301-302) says the
    function logs its errors, which holds for database errors only.
  - After a caught database error, the `return` names a variable that was never
    bound, so the function raises `UnboundLocalError` (`EtlScript.QueryDbErrorUnbound`).
- A query that fetches no rows builds a frame with no columns. Naming its columns
  then raises pandas' `ValueError`, which escapes too (`EtlScript.QueryNoRowsRaises`).
  More generally, a frame is returned only when the widest fetched row has as many
  values as there are column names. Shorter rows are padded with nulls, as pandas
  pads them.
- The script's `manage_tables` catches `pyodbc.Error` and `FileNotFoundError` only.
  An SQL file that exists but cannot be read escapes (`EtlScript.ScriptManageStatus`).
  A failed create step leaves the drops committed by the first commit
  (`EtlScript.ScriptCreateFailsAfterDropCommit`).
- The package's functions catch every exception
  (`DatabaseOperations.AnyErrorCaught`). Their plans still state which calls were
  made before the failure.

Lines 9-56 of `update_notebook.py` are the same text as lines 9-56 of
`etl_pipeline/manage_notebook.py`. Both tools therefore use one parser,
`ScriptParser.ParseScript`. The package's nested loop over `sql_files.items()`
visits the three drop files, then the three create files. It is modelled as one
loop over those six paths (`DatabaseOperations.ExecuteFiles`). The lemmas about the
script's `manage_tables` are stated for any six paths. `EtlScript.ScriptPathsAre`
then states the paths the script actually joins.

## Model

The functions these rows mention inside their contracts (such as `EtlScript.ConnectionString`,
`EtlScript.WriteLocalTxtOutput`, `EtlScript.Settle`, `DatabaseOperations.InsertStatement`,
`Odbc.Session`, `Odbc.Perform`, `ManageNotebook.ManageCells`, `UpdateNotebook.UpdateCells`,
`ReadmeGenerator.FileSection` and `ReadmeGenerator.ReadmeText`) are the reference
definitions of the source lines their rows cite.

| member | source | states |
|---|---|---|
| ScriptParser.FirstWhere | etl_pipeline/manage_notebook.py:28-31 | the index found satisfies the test, no earlier line does, and `None` means no line does |
| ScriptParser.LastDef | etl_pipeline/manage_notebook.py:35-40 | the position returned is a top-level `def` of the name and no later statement defines it, so a repeated name keeps its last definition |
| ScriptParser.DefNamesSnoc | etl_pipeline/manage_notebook.py:35-37 | one more statement adds its name to the defined names exactly when it is a `def` |
| ScriptParser.FunctionsOfSnoc | etl_pipeline/manage_notebook.py:35-40 | one more statement changes only the entry of the `def` it adds, and a later definition replaces an earlier one |
| ScriptParser.FunctionsOfSnocDef | etl_pipeline/manage_notebook.py:35-40 | one more `def` sets the entry of its name to its own text and keeps every other entry |
| ScriptParser.FunctionsOfSnocOther | etl_pipeline/manage_notebook.py:35-36 | one more statement that is not a `def` leaves the dictionary unchanged |
| ScriptParser.FunctionsOfEntry | etl_pipeline/manage_notebook.py:35-40 | the entry of one name after one more statement: that statement's text when it defines the name, the earlier entry otherwise |
| ScriptParser.LastDefSnoc | etl_pipeline/manage_notebook.py:35-40 | the last definition of a name after one more statement is that statement when it defines the name, the earlier last definition otherwise |
| ScriptParser.FirstWhereAt | etl_pipeline/manage_notebook.py:28-31 | a line that passes the test, with no earlier line passing, is the one found |
| ScriptParser.LibrariesBeforeFirstDef | etl_pipeline/manage_notebook.py:27-32 | the libraries prefix is the stripped text of the lines before the first line whose stripped text starts with `def ` |
| ScriptParser.LibrariesMissing | etl_pipeline/manage_notebook.py:10-32 | the libraries entry stays `None` exactly when no line is a definition line |
| ScriptParser.LibrariesEmptyWhenScriptStartsWithDef | etl_pipeline/manage_notebook.py:28-30 | a script whose first line is a definition has the empty, falsy libraries text |
| ScriptParser.MainCharacterised | etl_pipeline/manage_notebook.py:43-54 | the main block is found exactly when some stripped line is the marker comment, and a found block is never empty |
| ScriptParser.MainRunsToEnd | etl_pipeline/manage_notebook.py:46-51 | capture runs from the first marker to the end of the file; lines added later extend it and a second marker does not restart it |
| ScriptParser.FunctionTextInRange | etl_pipeline/manage_notebook.py:38-40 | a definition inside the file contributes the stripped text of its lines `lineno` to `end_lineno`; a missing end runs to the end of the file |
| ScriptParser.ParseLibraries | etl_pipeline/manage_notebook.py:27-32 | the first loop yields the reference libraries text, or `None` when no definition line exists |
| ScriptParser.ParseFunctions | etl_pipeline/manage_notebook.py:35-40 | the second loop yields one entry per top-level `def` name, holding the text of its last definition |
| ScriptParser.ParseMain | etl_pipeline/manage_notebook.py:43-54 | the third loop yields the stripped text from the first marker line to the end, or `None` without a marker |
| ScriptParser.ParseScript | etl_pipeline/manage_notebook.py:9-56 | the sections dictionary equals the reference parse of the script's lines and statements |
| PyText.TrimLeftSpec | etl_pipeline/manage_notebook.py:29 | the leading half of `str.strip` keeps the longest suffix not starting with whitespace and removes only whitespace |
| PyText.TrimRightSpec | etl_pipeline/manage_notebook.py:47 | the trailing half of `str.strip` keeps the longest prefix not ending with whitespace and removes only whitespace |
| PyText.StripInfix | etl_pipeline/manage_notebook.py:30 | `strip` returns the infix left after cutting a whitespace prefix and suffix, and the result neither starts nor ends with whitespace |
| PyText.StripIdempotent | run_etl_as_script.py:165-167 | stripping twice is stripping once |
| PyText.SliceBound | etl_pipeline/manage_notebook.py:40 | a slice bound is clamped into `0..n`; in-range bounds are kept and negative ones count from the end |
| PyText.PySlice | etl_pipeline/manage_notebook.py:40 | a Python slice never fails, is no longer than the list, and equals the plain slice for in-range bounds |
| NotebookModel.PresentSpec | etl_pipeline/manage_notebook.py:374-382 | the positions listed are exactly the names with a truthy body, each once and in increasing order |
| NotebookModel.PresentSound | etl_pipeline/manage_notebook.py:377-378 | every listed position is in range and holds a truthy body |
| NotebookModel.PresentIncreasing | etl_pipeline/manage_notebook.py:374 | the listed positions follow the order of `function_names` |
| NotebookModel.PresentComplete | etl_pipeline/manage_notebook.py:377-380 | every name with a truthy body is listed |
| NotebookModel.PresentSnoc | etl_pipeline/manage_notebook.py:374-378 | one more name adds its position exactly when its body is truthy |
| NotebookModel.Notebook.constructor | etl_pipeline/manage_notebook.py:80-85 | the notebook holds the stored cells, or no cells when the file is missing or not JSON |
| NotebookModel.Notebook.Append | etl_pipeline/manage_notebook.py:358 | appending adds the cell at the end and changes nothing else |
| ManageNotebook.PairCellsLayout | etl_pipeline/manage_notebook.py:374-382 | the function part holds two cells per found name: its explanation at `2k`, then its code at `2k + 1` |
| ManageNotebook.CellCount | etl_pipeline/manage_notebook.py:356-390 | three markdown cells, plus one per truthy libraries and main text, plus two per found function |
| ManageNotebook.CellLayout | etl_pipeline/manage_notebook.py:356-390 | where every cell goes: the introductions, the libraries code, each function's explanation before its code, the closing text, and the main code last |
| ManageNotebook.AddFunctionCells | etl_pipeline/manage_notebook.py:374-382 | the loop appends the explanation and code of each name with a truthy body, in list order |
| ManageNotebook.AddOpening | etl_pipeline/manage_notebook.py:357-361 | both introductions are appended, then the libraries code when truthy |
| ManageNotebook.AddClosing | etl_pipeline/manage_notebook.py:385-390 | the closing text is appended, then the main code when truthy |
| ManageNotebook.BuildNotebook | etl_pipeline/manage_notebook.py:79-390 | the saved cells are the reference cell list, whatever the stored notebook held |
| ManageNotebook.CreateOrUpdateNotebook | etl_pipeline/manage_notebook.py:58-396 | the notebook is saved with the reference cells of the parsed script |
| UpdateNotebook.MarkdownOnlyAppend | update_notebook.py:89 | the filter works cell by cell, so filtering a concatenation concatenates the filtered parts |
| UpdateNotebook.MarkdownOnlyMembers | update_notebook.py:89 | a cell survives the filter exactly when it is a markdown cell of the input |
| UpdateNotebook.MarkdownOnlyIsMarkdown | update_notebook.py:89 | every cell left by the filter is a markdown cell |
| UpdateNotebook.MarkdownOnlyKeepsMarkdown | update_notebook.py:89 | markdown cells pass the filter unchanged |
| UpdateNotebook.MarkdownOnlyDropsCode | update_notebook.py:89 | code cells are all removed |
| UpdateNotebook.TagCellsLayout | update_notebook.py:93-118 | one code cell per truthy text, in key order, each tagged with its own key |
| UpdateNotebook.TaggedAfter | update_notebook.py:93-118 | after any kept cells, the appended cells are the kept ones unchanged followed by one tagged code cell per truthy text, in key order |
| UpdateNotebook.TagCellsAppend | update_notebook.py:93-118 | tagging in two runs gives the cells of tagging in one |
| UpdateNotebook.TagCellsAreCode | update_notebook.py:95-118 | every tagged cell is a code cell |
| UpdateNotebook.KeptThenTagged | update_notebook.py:88-118 | for any keys, the markdown cells come first in their order, then the tagged code cells |
| UpdateNotebook.UpdateLayout | update_notebook.py:88-118 | the saved notebook is the stored markdown first, then libraries, the seven functions in list order and the main block, each only when truthy and tagged with its section |
| UpdateNotebook.RefilterTagged | update_notebook.py:89-118 | filtering the kept markdown plus any tagged cells gives back the kept markdown |
| UpdateNotebook.UpdateIdempotent | update_notebook.py:58-124 | running the update twice from the same script saves the same cells as running it once |
| UpdateNotebook.MissingNotebookStartsEmpty | update_notebook.py:80-89 | a missing or invalid notebook yields only the tagged code cells |
| UpdateNotebook.SectionCellsSplit | update_notebook.py:93-118 | the tagged cells come in three runs: libraries, the functions, the main block |
| UpdateNotebook.AddFunctionCells | update_notebook.py:108-112 | the loop appends one tagged code cell per name with a truthy body |
| UpdateNotebook.AddSectionCells | update_notebook.py:91-118 | the libraries, function and main cells are appended as the reference tagging says |
| UpdateNotebook.RebuildNotebook | update_notebook.py:79-118 | the saved cells are the stored markdown plus the tagged code cells |
| UpdateNotebook.CreateOrUpdateNotebook | update_notebook.py:58-124 | the notebook is saved with the updated cells of the parsed script |
| Odbc.PerformClean | run_etl_as_script.py:37-57 | when no step raises, every step issues exactly its own call, in order |
| Odbc.PerformFailsAt | run_etl_as_script.py:37-57 | the first step that raises ends the run; the later statements of the `try` block do not run |
| Odbc.PerformSticky | run_etl_as_script.py:37-57 | an exception raised early stays the outcome whatever was planned after it |
| Odbc.PerformStopped | etl_pipeline/database_operations.py:64-89 | a plan cut short at step `k` ends as its first `k` steps did |
| Odbc.SessionConnected | etl_pipeline/database_operations.py:64-93 | once connected, the session is the steps' run between connect and close |
| Odbc.SessionClean | etl_pipeline/database_operations.py:64-93 | a session in which nothing raises issues connect, every step's call, then close |
| Odbc.SessionFailsAt | etl_pipeline/database_operations.py:64-93 | a session whose step `j` raises first issues the calls before it, its own call if it got that far, and close |
| Odbc.FirstBad | etl_pipeline/database_operations.py:64-89 | the step found is the first that raises; `None` means none raises |
| Odbc.SessionTrace | etl_pipeline/database_operations.py:64-93 | a failed connect closes nothing; otherwise the first step to raise sets what is issued before the close, and its exception is the outcome |
| Odbc.DoOnlyRaisesDbError | run_etl_as_script.py:133-145 | a plan that reads no file can raise only `pyodbc.Error` |
| Odbc.Database.Request | etl_pipeline/database_operations.py:65-66 | the call is logged; it raises exactly at the failure position; a good execute makes its rows current |
| Odbc.Database.FetchAllRows | run_etl_as_script.py:82 | `fetchall` is logged and returns the rows of the last execute |
| Odbc.Database.CloseConnection | etl_pipeline/database_operations.py:91-93 | `close` is logged and never raises |
| Odbc.Database.Apply | etl_pipeline/database_operations.py:81-83 | a file step reads the file, raising for a missing or unreadable file, then executes its text |
| Odbc.Advance | etl_pipeline/database_operations.py:79-84 | running step `k` after clean earlier steps extends the log and error to those of the first `k + 1` steps |
| Odbc.Proceed | run_etl_as_script.py:50-57 | a straight-line statement is skipped after an exception and run otherwise, matching the plan's first `k + 1` steps |
| Odbc.CloseSession | etl_pipeline/database_operations.py:91-93 | the `finally` close completes the session that began with the connect |
| DatabaseOperations.PlaceholdersShape | etl_pipeline/database_operations.py:132 | the placeholder list is `?, ?, …, ?`: `3n - 2` characters with a `?` at every third position |
| DatabaseOperations.PlaceholdersCount | etl_pipeline/database_operations.py:132 | the placeholder list holds one `?` per value |
| DatabaseOperations.InsertPlaceholders | etl_pipeline/database_operations.py:132-134 | for a table and columns without `?`, the INSERT statement holds exactly one `?` per row value |
| DatabaseOperations.InsertsMatchRows | etl_pipeline/database_operations.py:131-135 | one insert per row, in row order, carrying that row's values and one placeholder per value |
| DatabaseOperations.RectangularInsertsBalanced | etl_pipeline/database_operations.py:131-135 | on a rectangular frame, every insert binds one value per column and holds one `?` per column |
| DatabaseOperations.InsertStatementFrame | etl_pipeline/database_operations.py:134 | every statement opens with `INSERT INTO <table> (` and ends with `)` |
| DatabaseOperations.WritePlanShape | etl_pipeline/database_operations.py:129-136 | the write plan is the cursor, the insert of each row in order, then the commit |
| DatabaseOperations.WritePlanCalls | etl_pipeline/database_operations.py:129-136 | the plan reads no file; its calls are the cursor, the inserts and the commit, and every prefix is the cursor plus the first inserts |
| DatabaseOperations.WriteTrace | etl_pipeline/database_operations.py:127-142 | the calls for each failure position: connect alone, cursor then close, all inserts without commit, or everything with commit and close |
| DatabaseOperations.WriteFailsAtRow | etl_pipeline/database_operations.py:131-142 | a failed insert of row `j` issues the inserts up to `j`, no later row and no commit, then closes |
| DatabaseOperations.WriteClosesIff | etl_pipeline/database_operations.py:140-142 | the connection is closed exactly when the connect succeeded, and the close is then the last call |
| DatabaseOperations.WriteStopsBeforeCommit | etl_pipeline/database_operations.py:128-136 | a failure at the connect, the cursor or any insert means no commit |
| DatabaseOperations.WriteCommitIff | etl_pipeline/database_operations.py:128-136 | the commit is issued exactly when the connect, the cursor and every insert succeed; with no rows it directly follows the cursor |
| DatabaseOperations.ManagePlanShape | etl_pipeline/database_operations.py:65-84 | the plan is the cursor, the six files in order (drops before creates), then the commit |
| DatabaseOperations.ManagePlanCalls | etl_pipeline/database_operations.py:65-84 | the calls are the cursor, one execute per file and the commit, and each prefix is the cursor plus the first executes |
| DatabaseOperations.ManagePlanAllCalls | etl_pipeline/database_operations.py:65-84 | a clean run issues the cursor, the six executes and the commit |
| DatabaseOperations.TableSqlShape | etl_pipeline/database_operations.py:79-83 | each of the six executes runs one file's text without parameters |
| DatabaseOperations.ManageTrace | etl_pipeline/database_operations.py:63-93 | a failed connect closes nothing; otherwise the first failing step sets where the run stops, and close follows |
| DatabaseOperations.ManageStopsBeforeCommit | etl_pipeline/database_operations.py:64-90 | a run stopped by the cursor or a file issues no commit |
| DatabaseOperations.ManageReachesCommit | etl_pipeline/database_operations.py:79-84 | a run that got past the six files issues the commit at index 8, the ninth of its ten calls |
| DatabaseOperations.ManageCommitIff | etl_pipeline/database_operations.py:64-93 | the commit is issued exactly when the connect, the cursor and all six files succeed; the run ends without an error, the tables committed, exactly when the commit succeeds as well; close happens exactly when the connect succeeded, and comes last |
| DatabaseOperations.AnyErrorCaught | etl_pipeline/database_operations.py:89-90 | `except Exception` logs every exception and lets none escape |
| DatabaseOperations.ManageTables | etl_pipeline/database_operations.py:27-93 | the log gains exactly the `manage_tables` session, and the status is that session's handled error |
| DatabaseOperations.RunTableFiles | etl_pipeline/database_operations.py:65-84 | the `try` block after the connect issues the plan's calls until the first exception |
| DatabaseOperations.ExecuteFiles | etl_pipeline/database_operations.py:79-83 | the file loop executes each file in order while nothing has raised |
| DatabaseOperations.WriteDataframeToDb | etl_pipeline/database_operations.py:96-142 | the log gains exactly the write session, and the status is its handled error |
| DatabaseOperations.WriteRows | etl_pipeline/database_operations.py:128-142 | the connect, the `try` block and the `finally` close issue exactly the write session |
| DatabaseOperations.InsertAndCommit | etl_pipeline/database_operations.py:130-136 | the cursor, the inserts and the commit follow the write plan until the first exception |
| DatabaseOperations.InsertRows | etl_pipeline/database_operations.py:131-135 | the row loop issues one insert per row, in order, while nothing has raised |
| DatabaseOperations.InsertSql | etl_pipeline/database_operations.py:132-134 | the statement opens with `INSERT INTO <table> (`, closes with `)`, and holds one `?` per row value when the table and column names hold none |
| EtlScript.PathJoinName | run_etl_as_script.py:40-45 | joining a plain name to a folder gives a path with that base name, and exactly `folder/name` for a folder without a trailing `/` |
| EtlScript.ScriptPathsAre | run_etl_as_script.py:40-45 | each of the six paths is `sqlFiles/tableManagement/<file>` |
| EtlScript.ScriptPlanCalls | run_etl_as_script.py:38-57 | the nine calls are the cursor, three drops, a commit, three creates and a commit; commits only at positions 4 and 8 |
| EtlScript.ScriptManageClean | run_etl_as_script.py:37-68 | with a good connection and readable files, every call is issued: drops, first commit, creates, second commit, close |
| EtlScript.ScriptManageStopped | run_etl_as_script.py:37-68 | the first failing step ends the run with its exception, and close follows |
| EtlScript.ScriptDropFails | run_etl_as_script.py:50-53 | if the cursor or a drop fails, nothing is committed |
| EtlScript.ScriptCreateFailsAfterDropCommit | run_etl_as_script.py:50-57 | if a create fails, the drops are already committed and no second commit follows |
| EtlScript.PerformErrors | run_etl_as_script.py:37-65 | such a run ends cleanly, with a database error, with a missing file or with an unreadable file |
| EtlScript.ScriptManageStatus | run_etl_as_script.py:62-65 | database errors and missing files are logged; only an unreadable existing file escapes |
| EtlScript.ScriptManageTables | run_etl_as_script.py:32-68 | the log gains exactly the script's `manage_tables` session, and the status is its error handled by the two `except` clauses |
| EtlScript.RunScriptTableFiles | run_etl_as_script.py:38-57 | the joined paths and straight-line statements issue the plan's calls until the first exception |
| EtlScript.RunScriptSteps | run_etl_as_script.py:39-57 | the cursor and the eight statements after it follow the plan, for any six paths |
| EtlScript.DropTables | run_etl_as_script.py:50-53 | the three drops and the first commit are plan steps 1 to 4 |
| EtlScript.CreateTables | run_etl_as_script.py:54-57 | the three creates and the second commit are plan steps 5 to 8 |
| EtlScript.ScriptWriteAgrees | run_etl_as_script.py:131-148 | catching only `pyodbc.Error` loses nothing for a write, which can raise nothing else |
| EtlScript.ScriptWriteDataframeToDb | run_etl_as_script.py:131-148 | the log gains exactly the write session, and the status is its handled error |
| EtlScript.Width | run_etl_as_script.py:83 | the width bounds every row, is reached by some row, and is 0 for no rows |
| EtlScript.QuerySteps | run_etl_as_script.py:78-82 | after the connect, a query issues the cursor, the file's text and the fetch until the first exception |
| EtlScript.QueryTrace | run_etl_as_script.py:76-90 | the calls issued for each failure position and each state of the query file, with close after every successful connect |
| EtlScript.QueryDbErrorUnbound | run_etl_as_script.py:86-91 | after a caught database error the function raises `UnboundLocalError` instead of returning |
| EtlScript.QueryMissingFileEscapes | run_etl_as_script.py:79-90 | a missing query file escapes, after the connection is closed |
| EtlScript.QueryReturnsIff | run_etl_as_script.py:76-91 | a frame is returned exactly when nothing raised and the row width matches the names; it has those names and each fetched row, padded with nulls |
| EtlScript.QueryNoRowsRaises | run_etl_as_script.py:83-84 | with no rows, naming the columns raises a `ValueError` that escapes |
| EtlScript.CalculateSummary | run_etl_as_script.py:71-91 | the log gains the query session, and the outcome is the reference outcome of the query |
| EtlScript.RunQuery | run_etl_as_script.py:76-91 | the steps after the connect follow the query plan, and the result settles as the reference says |
| EtlScript.CalculatePayments | run_etl_as_script.py:71-91 | the query session with the five payment columns |
| EtlScript.CalculateDuration | run_etl_as_script.py:93-110 | the query session with the four duration columns |
| EtlScript.CalculateProfitableActors | run_etl_as_script.py:112-129 | the query session with the four actor columns |
| EtlScript.WriteLocalTxtOutputPath | run_etl_as_script.py:150-160 | `None` exactly when the write failed; otherwise the path names the file inside the folder |
| EtlScript.PaymentReportPath | run_etl_as_script.py:184 | an example: the first report is written to `reports/payment_summary.txt` |
| EtlScript.FormatTerminated | run_etl_as_script.py:168-174 | the connection string is the `key=value` pieces, each followed by `;` |
| EtlScript.SplitFormat | run_etl_as_script.py:168-174 | splitting at `;` gives back the pieces, then an empty last piece |
| EtlScript.FormatRoundTrip | run_etl_as_script.py:168-174 | parsing the written attributes gives them back |
| EtlScript.ConnectionStringFormat | run_etl_as_script.py:165-174 | the connection string is the eight attributes written in order, using the stripped inputs |
| EtlScript.ConnectionAttributes | run_etl_as_script.py:165-174 | read back, the string names the ODBC 18 driver, port 1433 of the server, `sakila`, the user, the password and the encryption settings |
| EtlScript.ConnectionStringStripped | run_etl_as_script.py:165-167 | whitespace around the entered values never reaches the connection string |
| ReadmeGenerator.TopLevelFunctionsSpec | generate_readme.py:11-17 | the listed functions are exactly the top-level `def` statements, in body order |
| ReadmeGenerator.TopLevelFunctionsSound | generate_readme.py:12-17 | entry `k` is the name and docstring of the `def` at the `k`-th recorded position |
| ReadmeGenerator.DefPositionsIncreasing | generate_readme.py:11 | the recorded positions follow body order |
| ReadmeGenerator.DefPositionsComplete | generate_readme.py:11-12 | every top-level `def` is recorded |
| ReadmeGenerator.ListedIffTopLevelDef | generate_readme.py:11-17 | a name is listed exactly when some top-level statement is a `def` of it |
| ReadmeGenerator.ExtractDocstrings | generate_readme.py:4-18 | the result is the module docstring and the reference list of top-level functions |
| ReadmeGenerator.WalkTextAppend | generate_readme.py:25-44 | more directories only add text after what the earlier ones produced |
| ReadmeGenerator.ReadmeStartsWithHeader | generate_readme.py:22-23 | the generated text always opens with the two header lines |
| ReadmeGenerator.NoDocumentedFiles | generate_readme.py:22-27 | with no admitted file, the text is exactly the header |
| ReadmeGenerator.SkippedFileAddsNothing | generate_readme.py:27 | a file not ending in `.py`, or starting with `__`, adds nothing to the text, wherever it is listed |
| ReadmeGenerator.AdmittedFileAddsSection | generate_readme.py:26-43 | an admitted file adds exactly its own section, built from its extracted docstrings, between the texts of the files around it |
| ReadmeGenerator.OneFileText | generate_readme.py:26-27 | the text of a listing is the text before a file, that file's contribution, then the text after it |
| ReadmeGenerator.FilterExamples | generate_readme.py:27 | examples, on three names from the repository: `database_operations.py` is admitted, `__init__.py` and `README.md` are not |
| ReadmeGenerator.AppendFunctionSections | generate_readme.py:39-44 | the inner loop appends one section per function, in list order |
| ReadmeGenerator.AppendFunctionSection | generate_readme.py:39-43 | the appended text opens with the function's `### Function:` heading and ends with its docstring when that is truthy, with the fallback sentence otherwise |
| ReadmeGenerator.AppendFileSections | generate_readme.py:26-44 | the file loop appends each file's contribution in listing order |
| ReadmeGenerator.AppendFileText | generate_readme.py:27-44 | an admitted file adds its section; any other file adds nothing |
| ReadmeGenerator.AppendFileSection | generate_readme.py:29-44 | an admitted file adds its heading, its module docstring or the fallback, then its functions |
| ReadmeGenerator.GenerateReadme | generate_readme.py:20-45 | the content written is the header followed by the walk's text |

## Left out

- `clear_folder` (both copies), `etl_pipeline/data_processing.py`, `etl_pipeline/file_operations.py`, `run_etl_as_package.py` and `etl_pipeline/__init__.py` are not part of this model. They are outside the modelled core.
- Logging, `print` and the success or error messages are left out. They are output only and change no state the model tracks.
- The prompts of the main block (`input`, `getpass`) are left out. Their answers are the parameters of `EtlScript.ConnectionString`.
- Reading files is left out. File contents are a map given as input, and a path is either readable, unreadable or missing.
- Parsing with `ast.parse` is left out. The top-level statements it yields, with their line numbers and docstrings, are inputs. Syntax errors in a parsed file are not modelled.
- Reading and writing the notebook file is left out. A stored notebook is a cell list or `None` for a missing or non-JSON file; other `nbformat` errors are not modelled. The methods return the cells that would be saved.
- Writing with `to_csv` and `os.makedirs` is left out. Whether the write succeeded is the `written` parameter of `EtlScript.WriteLocalTxtOutput`, and the tab-separated rendering of the frame is not modelled.
- Writing README.md and printing are left out of `ReadmeGenerator.GenerateReadme`. It returns the content. The directories and file order of `os.walk` are its input.
- pandas' type coercion of fetched values and inserted parameters is left out. Values pass through unchanged.
- pandas frames are rectangular, so in the source every row has one value per column. The model allows rows of any length and agrees with the source on rectangular frames (`DatabaseOperations.RectangularInsertsBalanced`).
- `connection.close()` is modelled as never raising.
- At most one call per log can raise `pyodbc.Error` (`failAt`). A run with several failing calls stops at its first one, so later failure points could not change what is observed.
- The ten markdown texts of `manage_notebook.py` are a parameter `prose` of length ten. Their wording is not modelled.
- The ordering of the main blocks is left out: the notebook tools called at import time, and the order of the ETL steps. Each function is modelled on its own.
- `EtlScript.PathJoin` models `os.path.join` with two arguments on POSIX only, which is every use in the source.
- EtlScript.ScriptPathsAre: states each joined path in full. It does not separately restate the base name, which follows from `EtlScript.PathJoinName`.
