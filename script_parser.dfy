/** `parse_etl_script_with_ast_and_main`: splits the ETL script's lines into the
    libraries-and-logging prefix, one text per top-level function, and the main block.
    The two notebook tools carry the same parser, line for line. */
module ScriptParser {
  import opened Options
  import opened PyText
  import opened PyAst

  /** The comment line that opens the main block. */
  const MainMarker := "# Main block starts here"

  /** The `sections` dictionary: `libraries_and_logging`, `functions`, `main_script`. */
  datatype Sections = Sections(libraries: Option<string>, functions: map<string, string>, main: Option<string>)

  /** A line that, once stripped, starts a function definition. */
  predicate IsDefLine(line: string)
  {
    StartsWith(Strip(line), "def ")
  }

  predicate IsMainMarker(line: string)
  {
    Strip(line) == MainMarker
  }

  /** The index of the first line satisfying `p`, if any. */
  function FirstWhere(lines: seq<string>, p: string -> bool): (r: Option<nat>)
    ensures r.Some? ==> r.value < |lines| && p(lines[r.value])
    ensures r.Some? ==> forall j :: 0 <= j < r.value ==> !p(lines[j])
    ensures r.None? ==> forall j :: 0 <= j < |lines| ==> !p(lines[j])
  {
    if lines == [] then None
    else if p(lines[0]) then Some(0)
    else match FirstWhere(lines[1..], p)
      case None => None
      case Some(k) => Some(k + 1)
  }

  /** Libraries and logging: the stripped text of every line before the first
      definition line, or nothing when the script has no definition line. */
  function LibrariesOf(lines: seq<string>): Option<string>
  {
    match FirstWhere(lines, IsDefLine)
    case None => None
    case Some(k) => Some(Strip(Concat(lines[..k])))
  }

  /** The main block: the stripped text from the first marker line to the end of
      the script, or nothing when there is no marker line. */
  function MainOf(lines: seq<string>): Option<string>
  {
    match FirstWhere(lines, IsMainMarker)
    case None => None
    case Some(k) => Some(Strip(Concat(lines[k..])))
  }

  /** `getattr(node, "end_lineno", None) or len(lines)`: a missing or zero end line
      stands for the end of the file. */
  function EndLine(node: Node, lineCount: nat): int
    requires node.FunctionDef?
  {
    if node.endLineno.None? || node.endLineno.value == 0 then lineCount else node.endLineno.value
  }

  /** The stripped source of one definition: `lines[lineno - 1 : end]`. */
  function FunctionText(lines: seq<string>, node: Node): string
    requires node.FunctionDef?
  {
    Strip(Concat(PySlice(lines, node.lineno - 1, EndLine(node, |lines|))))
  }

  /** Names of the top-level `def`s of a module body. */
  function DefNames(body: seq<Node>): set<string>
  {
    set i | 0 <= i < |body| && body[i].FunctionDef? :: body[i].name
  }

  /** The position of the last top-level `def` of `name`. */
  function LastDef(body: seq<Node>, name: string): (i: nat)
    requires name in DefNames(body)
    ensures i < |body| && Defines(body[i], name)
    ensures forall j :: i < j < |body| ==> !Defines(body[j], name)
  {
    var last := body[|body| - 1];
    if Defines(last, name) then |body| - 1
    else
      assert name in DefNames(body[..|body| - 1]) by {
        var i :| 0 <= i < |body| && body[i].FunctionDef? && body[i].name == name;
        assert i < |body| - 1 && body[..|body| - 1][i] == body[i];
      }
      LastDef(body[..|body| - 1], name)
  }

  /** The `functions` dictionary as a reference definition: one entry per defined
      name, holding the text of that name's LAST top-level definition. */
  function FunctionsOf(lines: seq<string>, body: seq<Node>): map<string, string>
  {
    map n | n in DefNames(body) :: FunctionText(lines, body[LastDef(body, n)])
  }

  function ParsedSections(lines: seq<string>, body: seq<Node>): Sections
  {
    Sections(LibrariesOf(lines), FunctionsOf(lines, body), MainOf(lines))
  }

  /** Adding one statement to the body adds its name to the defined names when it is a `def`. */
  lemma DefNamesSnoc(body: seq<Node>, node: Node)
    ensures DefNames(body + [node]) == if node.FunctionDef? then DefNames(body) + {node.name} else DefNames(body)
  {
    var b := body + [node];
    var want := if node.FunctionDef? then DefNames(body) + {node.name} else DefNames(body);
    forall n | n in DefNames(b)
      ensures n in want
    {
      var i :| 0 <= i < |b| && b[i].FunctionDef? && b[i].name == n;
      if i < |body| {
        assert body[i] == b[i];
      }
    }
    forall n | n in want
      ensures n in DefNames(b)
    {
      if n in DefNames(body) {
        var i :| 0 <= i < |body| && body[i].FunctionDef? && body[i].name == n;
        assert b[i] == body[i];
      } else {
        assert b[|body|] == node;
      }
    }
  }

  /** Adding one statement to the body only changes the entry of a `def` it adds;
      a later definition of a name replaces an earlier one. */
  lemma FunctionsOfSnoc(lines: seq<string>, body: seq<Node>, node: Node)
    ensures FunctionsOf(lines, body + [node]) ==
      if node.FunctionDef? then FunctionsOf(lines, body)[node.name := FunctionText(lines, node)]
      else FunctionsOf(lines, body)
  {
    if node.FunctionDef? {
      FunctionsOfSnocDef(lines, body, node);
    } else {
      FunctionsOfSnocOther(lines, body, node);
    }
  }

  /** A `def` appended to the body sets the entry of its name. */
  lemma FunctionsOfSnocDef(lines: seq<string>, body: seq<Node>, node: Node)
    requires node.FunctionDef?
    ensures FunctionsOf(lines, body + [node]) == FunctionsOf(lines, body)[node.name := FunctionText(lines, node)]
  {
    var m1 := FunctionsOf(lines, body + [node]);
    var want := FunctionsOf(lines, body)[node.name := FunctionText(lines, node)];
    assert m1.Keys == want.Keys by {
      DefNamesSnoc(body, node);
    }
    assert forall n :: n in m1.Keys ==> m1[n] == want[n] by {
      forall n | n in m1.Keys
        ensures m1[n] == want[n]
      {
        FunctionsOfEntry(lines, body, node, n);
      }
    }
    SameEntries(m1, want);
  }

  /** Any other statement appended to the body leaves the dictionary as it was. */
  lemma FunctionsOfSnocOther(lines: seq<string>, body: seq<Node>, node: Node)
    requires !node.FunctionDef?
    ensures FunctionsOf(lines, body + [node]) == FunctionsOf(lines, body)
  {
    var m0 := FunctionsOf(lines, body);
    var m1 := FunctionsOf(lines, body + [node]);
    assert m1.Keys == m0.Keys by {
      DefNamesSnoc(body, node);
    }
    assert forall n :: n in m1.Keys ==> m1[n] == m0[n] by {
      forall n | n in m1.Keys
        ensures m1[n] == m0[n]
      {
        FunctionsOfEntry(lines, body, node, n);
      }
    }
    SameEntries(m1, m0);
  }

  /** Two dictionaries with the same keys and the same entries are equal. */
  lemma SameEntries(m1: map<string, string>, m2: map<string, string>)
    requires m1.Keys == m2.Keys
    requires forall n :: n in m1.Keys ==> m1[n] == m2[n]
    ensures m1 == m2
  { }

  /** The entry of one name after one more statement. */
  lemma FunctionsOfEntry(lines: seq<string>, body: seq<Node>, node: Node, name: string)
    requires name in DefNames(body + [node])
    ensures Defines(node, name) ==> FunctionsOf(lines, body + [node])[name] == FunctionText(lines, node)
    ensures !Defines(node, name) ==>
      name in FunctionsOf(lines, body) && FunctionsOf(lines, body + [node])[name] == FunctionsOf(lines, body)[name]
  {
    var b := body + [node];
    LastDefSnoc(body, node, name);
    if Defines(node, name) {
      assert b[|body|] == node;
    } else {
      assert b[LastDef(body, name)] == body[LastDef(body, name)];
    }
  }

  /** The last definition of a name after one more statement: that statement when it
      defines the name, the earlier last definition otherwise. */
  lemma LastDefSnoc(body: seq<Node>, node: Node, name: string)
    requires name in DefNames(body + [node])
    ensures Defines(node, name) ==> LastDef(body + [node], name) == |body|
    ensures !Defines(node, name) ==> name in DefNames(body) && LastDef(body + [node], name) == LastDef(body, name)
  {
    var b := body + [node];
    assert b[|b| - 1] == node;
    if !Defines(node, name) {
      assert b[..|b| - 1] == body;
    }
  }

  /** The first line satisfying `p` is found at the position where it stands. */
  lemma FirstWhereAt(lines: seq<string>, p: string -> bool, k: nat)
    requires k < |lines| && p(lines[k])
    requires forall j :: 0 <= j < k ==> !p(lines[j])
    ensures FirstWhere(lines, p) == Some(k)
  {
    var f := FirstWhere(lines, p);
    assert f.Some?;
    assert !(f.value < k);
  }

  /** The libraries prefix is the stripped text of the lines before the first
      definition line. */
  lemma LibrariesBeforeFirstDef(lines: seq<string>, k: nat)
    requires k < |lines| && IsDefLine(lines[k])
    requires forall j :: 0 <= j < k ==> !IsDefLine(lines[j])
    ensures LibrariesOf(lines) == Some(Strip(Concat(lines[..k])))
  {
    FirstWhereAt(lines, IsDefLine, k);
  }

  /** The libraries prefix is missing exactly when no line is a definition line. */
  lemma LibrariesMissing(lines: seq<string>)
    ensures LibrariesOf(lines).None? <==> forall j :: 0 <= j < |lines| ==> !IsDefLine(lines[j])
  {
    var f := FirstWhere(lines, IsDefLine);
    if f.Some? {
      assert IsDefLine(lines[f.value]);
    }
  }

  /** A script whose very first line defines a function has an empty (falsy) libraries prefix. */
  lemma LibrariesEmptyWhenScriptStartsWithDef(lines: seq<string>)
    requires |lines| > 0 && IsDefLine(lines[0])
    ensures LibrariesOf(lines) == Some("")
  {
    assert lines[..0] == [];
  }

  /** The main block is found exactly when some line is the marker line, and a found
      main block is never empty: it holds at least the marker itself. */
  lemma MainCharacterised(lines: seq<string>)
    ensures MainOf(lines).Some? <==> exists j :: 0 <= j < |lines| && IsMainMarker(lines[j])
    ensures MainOf(lines).Some? ==> MainOf(lines).value != ""
  {
    match FirstWhere(lines, IsMainMarker)
    case None =>
    case Some(k) =>
      assert Strip(lines[k]) == MainMarker;
      assert MainMarker[0] == '#';
      var q := StripWitness(lines[k]);
      var tail := lines[k..];
      assert tail[0] == lines[k];
      var p := ConcatHolds(tail, 0, q);
      StripKeepsNonSpace(Concat(tail), p);
  }

  lemma {:induction false} FirstWhereAppend(a: seq<string>, b: seq<string>, p: string -> bool)
    requires FirstWhere(a, p).Some?
    ensures FirstWhere(a + b, p) == FirstWhere(a, p)
  {
    var k := FirstWhere(a, p).value;
    assert (a + b)[k] == a[k];
    assert forall j :: 0 <= j < k ==> (a + b)[j] == a[j];
    FirstWhereAt(a + b, p, k);
  }

  /** Capture runs from the first marker to the end of the file: lines appended after
      it, further marker lines included, extend the main block and never restart it. */
  lemma MainRunsToEnd(lines: seq<string>, more: seq<string>, k: nat)
    requires FirstWhere(lines, IsMainMarker) == Some(k)
    ensures MainOf(lines) == Some(Strip(Concat(lines[k..])))
    ensures MainOf(lines + more) == Some(Strip(Concat(lines[k..]) + Concat(more)))
  {
    FirstWhereAppend(lines, more, IsMainMarker);
    assert (lines + more)[k..] == lines[k..] + more;
    ConcatAppend(lines[k..], more);
  }

  /** A definition whose positions lie inside the file contributes exactly the
      stripped text of its lines `lineno .. end_lineno`; a missing end runs to the end of file. */
  lemma FunctionTextInRange(lines: seq<string>, node: Node)
    requires node.FunctionDef? && 1 <= node.lineno
    requires node.lineno - 1 <= EndLine(node, |lines|) <= |lines|
    ensures FunctionText(lines, node) == Strip(Concat(lines[node.lineno - 1..EndLine(node, |lines|)]))
    ensures node.endLineno.None? ==> FunctionText(lines, node) == Strip(Concat(lines[node.lineno - 1..]))
  {
    assert lines[node.lineno - 1..|lines|] == lines[node.lineno - 1..];
  }

  /** The first loop of the parser: collect lines until the first stripped line
      starting with `def `. */
  method ParseLibraries(lines: seq<string>) returns (libraries: Option<string>)
    ensures libraries == LibrariesOf(lines)
  {
    libraries := None;
    var collected: seq<string> := [];
    var idx := 0;
    while idx < |lines|
      invariant idx <= |lines|
      invariant collected == lines[..idx]
      invariant forall j :: 0 <= j < idx ==> !IsDefLine(lines[j])
      invariant libraries == None
    {
      if StartsWith(Strip(lines[idx]), "def ") {
        LibrariesBeforeFirstDef(lines, idx);
        libraries := Some(Strip(Concat(collected)));
        return;
      }
      collected := collected + [lines[idx]];
      idx := idx + 1;
    }
    LibrariesMissing(lines);
  }

  /** The second loop: one entry per top-level `def`; a repeated name keeps its
      last definition. */
  method ParseFunctions(lines: seq<string>, body: seq<Node>) returns (functions: map<string, string>)
    ensures functions == FunctionsOf(lines, body)
  {
    functions := map[];
    var n := 0;
    while n < |body|
      invariant n <= |body|
      invariant functions == FunctionsOf(lines, body[..n])
    {
      var node := body[n];
      if node.FunctionDef? {
        var start := node.lineno - 1;
        var end := if node.endLineno.Some? && node.endLineno.value != 0 then node.endLineno.value else |lines|;
        functions := functions[node.name := Strip(Concat(PySlice(lines, start, end)))];
      }
      FunctionsOfSnoc(lines, body[..n], node);
      assert body[..n + 1] == body[..n] + [node];
      n := n + 1;
    }
    assert body[..n] == body;
  }

  /** The third loop: every line from the first marker line on. */
  method ParseMain(lines: seq<string>) returns (main: Option<string>)
    ensures main == MainOf(lines)
  {
    var started := false;
    var block: seq<string> := [];
    var i := 0;
    ghost var first := FirstWhere(lines, IsMainMarker);
    while i < |lines|
      invariant i <= |lines|
      invariant started == (first.Some? && first.value < i)
      invariant started ==> block == lines[first.value..i]
      invariant !started ==> block == []
    {
      var line := lines[i];
      if Strip(line) == MainMarker {
        if !started {
          FirstWhereAt(lines, IsMainMarker, i);
        }
        started := true;
      }
      if started {
        block := block + [line];
      }
      i := i + 1;
    }
    main := None;
    if |block| > 0 {
      main := Some(Strip(Concat(block)));
    }
    if first.Some? {
      assert block == lines[first.value..];
    }
  }

  /** `parse_etl_script_with_ast_and_main`, over the script's lines (`readlines()`)
      and the top-level statements `ast.parse` gives for the same text. */
  method ParseScript(lines: seq<string>, body: seq<Node>) returns (sections: Sections)
    ensures sections == ParsedSections(lines, body)
  {
    var libraries := ParseLibraries(lines);
    var functions := ParseFunctions(lines, body);
    var main := ParseMain(lines);
    sections := Sections(libraries, functions, main);
  }
}
