/** `generate_readme.py`: documentation text assembled from the docstrings of the
    Python files of a folder tree. The walk of the tree and the parsing of each
    file happen outside the model: their results are inputs. */
module ReadmeGenerator {
  import opened Options
  import opened PyText
  import opened PyAst

  /** One entry of `docs["functions"]`. */
  datatype FunctionDoc = FunctionDoc(name: string, doc: Option<string>)

  /** What `extract_docstrings` returns: the module docstring and the functions. */
  datatype Docs = Docs(moduleDoc: Option<string>, functions: seq<FunctionDoc>)

  /** A file found by `os.walk`, with the tree `ast.parse` makes of its text. */
  datatype SourceFile = SourceFile(name: string, tree: Module)

  /** One directory of the walk, with its files in listing order. */
  datatype Directory = Directory(root: string, files: seq<SourceFile>)

  /** The top-level `def` statements of a body, in order; `async def`, classes and
      anything nested inside them are not listed. */
  function TopLevelFunctions(body: seq<Node>): seq<FunctionDoc>
  {
    if body == [] then []
    else
      var n := |body| - 1;
      TopLevelFunctions(body[..n])
        + (if body[n].FunctionDef? then [FunctionDoc(body[n].name, body[n].doc)] else [])
  }

  /** The positions of the top-level `def` statements of a body, in increasing order. */
  function DefPositions(body: seq<Node>): seq<nat>
  {
    if body == [] then []
    else
      var n := |body| - 1;
      DefPositions(body[..n]) + (if body[n].FunctionDef? then [n] else [])
  }

  /** The listed functions are exactly the top-level `def` statements in body order:
      entry `k` is the statement at the `k`-th such position, the positions increase,
      and every top-level `def` has one. */
  lemma TopLevelFunctionsSpec(body: seq<Node>)
    ensures |TopLevelFunctions(body)| == |DefPositions(body)|
    ensures forall k :: 0 <= k < |DefPositions(body)| ==>
      DefPositions(body)[k] < |body| && body[DefPositions(body)[k]].FunctionDef?
      && TopLevelFunctions(body)[k] == FunctionDoc(body[DefPositions(body)[k]].name, body[DefPositions(body)[k]].doc)
    ensures forall k, l :: 0 <= k < l < |DefPositions(body)| ==> DefPositions(body)[k] < DefPositions(body)[l]
    ensures forall i :: 0 <= i < |body| && body[i].FunctionDef? ==> i in DefPositions(body)
  {
    TopLevelFunctionsSound(body);
    DefPositionsIncreasing(body);
    DefPositionsComplete(body);
  }

  /** Entry `k` of the list is the `def` at the `k`-th recorded position. */
  lemma {:induction false} TopLevelFunctionsSound(body: seq<Node>)
    ensures |TopLevelFunctions(body)| == |DefPositions(body)|
    ensures forall k :: 0 <= k < |DefPositions(body)| ==>
      DefPositions(body)[k] < |body| && body[DefPositions(body)[k]].FunctionDef?
      && TopLevelFunctions(body)[k] == FunctionDoc(body[DefPositions(body)[k]].name, body[DefPositions(body)[k]].doc)
  {
    if body != [] {
      var n := |body| - 1;
      var init := body[..n];
      TopLevelFunctionsSound(init);
      var fs, p, q := TopLevelFunctions(body), DefPositions(init), DefPositions(body);
      assert q == p + (if body[n].FunctionDef? then [n] else []);
      assert fs == TopLevelFunctions(init) + (if body[n].FunctionDef? then [FunctionDoc(body[n].name, body[n].doc)] else []);
      forall k | 0 <= k < |q|
        ensures q[k] < |body| && body[q[k]].FunctionDef?
        ensures fs[k] == FunctionDoc(body[q[k]].name, body[q[k]].doc)
      {
        if k < |p| {
          assert q[k] == p[k] && init[p[k]] == body[p[k]];
          assert fs[k] == TopLevelFunctions(init)[k];
        }
      }
    }
  }

  /** The recorded positions increase. */
  lemma {:induction false} DefPositionsIncreasing(body: seq<Node>)
    ensures forall k, l :: 0 <= k < l < |DefPositions(body)| ==> DefPositions(body)[k] < DefPositions(body)[l]
  {
    if body != [] {
      var n := |body| - 1;
      var init := body[..n];
      DefPositionsIncreasing(init);
      DefPositionsBounded(init);
      var p, q := DefPositions(init), DefPositions(body);
      assert q == p + (if body[n].FunctionDef? then [n] else []);
      forall k, l | 0 <= k < l < |q|
        ensures q[k] < q[l]
      {
        assert q[k] == p[k] && p[k] < n;
        if l < |p| {
          assert q[l] == p[l];
        }
      }
    }
  }

  lemma {:induction false} DefPositionsBounded(body: seq<Node>)
    ensures forall k :: 0 <= k < |DefPositions(body)| ==> DefPositions(body)[k] < |body|
  {
    if body != [] {
      var n := |body| - 1;
      DefPositionsBounded(body[..n]);
      var p, q := DefPositions(body[..n]), DefPositions(body);
      assert q == p + (if body[n].FunctionDef? then [n] else []);
      forall k | 0 <= k < |q|
        ensures q[k] < |body|
      {
        if k < |p| {
          assert q[k] == p[k];
        }
      }
    }
  }

  /** Every top-level `def` has its position recorded. */
  lemma {:induction false} DefPositionsComplete(body: seq<Node>)
    ensures forall i :: 0 <= i < |body| && body[i].FunctionDef? ==> i in DefPositions(body)
  {
    if body != [] {
      var n := |body| - 1;
      var init := body[..n];
      DefPositionsComplete(init);
      var p, q := DefPositions(init), DefPositions(body);
      assert q == p + (if body[n].FunctionDef? then [n] else []);
      forall i | 0 <= i < |body| && body[i].FunctionDef?
        ensures i in q
      {
        if i < n {
          assert init[i] == body[i];
        } else {
          assert q[|q| - 1] == n;
        }
      }
    }
  }

  /** A name is listed exactly when some top-level statement is a `def` of it. */
  lemma ListedIffTopLevelDef(body: seq<Node>, name: string)
    ensures (exists k :: 0 <= k < |TopLevelFunctions(body)| && TopLevelFunctions(body)[k].name == name)
        <==> (exists i :: 0 <= i < |body| && Defines(body[i], name))
  {
    TopLevelFunctionsSpec(body);
    var fs, ps := TopLevelFunctions(body), DefPositions(body);
    if exists k :: 0 <= k < |fs| && fs[k].name == name {
      var k :| 0 <= k < |fs| && fs[k].name == name;
      assert Defines(body[ps[k]], name);
    }
    if exists i :: 0 <= i < |body| && Defines(body[i], name) {
      var i :| 0 <= i < |body| && Defines(body[i], name);
      var k :| 0 <= k < |ps| && ps[k] == i;
      assert fs[k].name == name;
    }
  }

  /** `extract_docstrings` on a parsed file. */
  method ExtractDocstrings(tree: Module) returns (docs: Docs)
    ensures docs == Docs(tree.doc, TopLevelFunctions(tree.body))
  {
    docs := Docs(tree.doc, []);
    for i := 0 to |tree.body|
      invariant docs == Docs(tree.doc, TopLevelFunctions(tree.body[..i]))
    {
      var node := tree.body[i];
      assert tree.body[..i + 1][..i] == tree.body[..i];
      if node.FunctionDef? {
        var funcDoc := node.doc;
        docs := docs.(functions := docs.functions + [FunctionDoc(node.name, funcDoc)]);
      }
    }
    assert tree.body[..|tree.body|] == tree.body;
  }

  /** The opening lines of every generated file. */
  const Header: string := "# ETL Pipeline Documentation\n\n" + "This document is auto-generated from the codebase.\n\n"

  /** `file.endswith(".py") and not file.startswith("__")`. */
  predicate IsDocumented(file: string)
  {
    EndsWith(file, ".py") && !StartsWith(file, "__")
  }

  /** The text for one function: its heading, then its docstring or a fallback. */
  function FunctionSection(f: FunctionDoc): string
  {
    "### Function: `" + f.name + "`\n\n"
      + (if Truthy(f.doc) then f.doc.value + "\n\n" else "No documentation available.\n\n")
  }

  /** The sections of a list of functions, one after the other. */
  function FunctionsText(fs: seq<FunctionDoc>): string
  {
    ConcatMap(FunctionSection, fs)
  }

  /** The text for one file: its heading, its module docstring or a fallback, and
      one section per listed function. */
  function FileSection(file: string, docs: Docs): string
  {
    "## " + file + "\n\n"
      + (if Truthy(docs.moduleDoc) then docs.moduleDoc.value + "\n\n" else "No module-level documentation available.\n\n")
      + FunctionsText(docs.functions)
  }

  /** What one walked file contributes: its section when the filter admits it. */
  function FileText(f: SourceFile): string
  {
    if IsDocumented(f.name) then FileSection(f.name, Docs(f.tree.doc, TopLevelFunctions(f.tree.body))) else ""
  }

  /** What the files of one directory contribute, in listing order. */
  function FilesText(files: seq<SourceFile>): string
  {
    ConcatMap(FileText, files)
  }

  function DirectoryText(d: Directory): string
  {
    FilesText(d.files)
  }

  /** What the whole walk contributes, directory by directory. */
  function WalkText(walk: seq<Directory>): string
  {
    ConcatMap(DirectoryText, walk)
  }

  /** The content written to the output file. */
  function ReadmeText(walk: seq<Directory>): string
  {
    Header + WalkText(walk)
  }

  /** Walking more directories only adds text after what the earlier ones produced. */
  lemma WalkTextAppend(walk: seq<Directory>, more: seq<Directory>)
    ensures WalkText(walk + more) == WalkText(walk) + WalkText(more)
  {
    ConcatMapAppend(DirectoryText, walk, more);
  }

  /** The text always opens with the header. */
  lemma ReadmeStartsWithHeader(walk: seq<Directory>)
    ensures StartsWith(ReadmeText(walk), Header)
  {
    assert ReadmeText(walk)[..|Header|] == Header;
  }

  /** With no file the filter admits, the text is exactly the header. */
  lemma NoDocumentedFiles(walk: seq<Directory>)
    requires forall d, i :: 0 <= d < |walk| && 0 <= i < |walk[d].files| ==> !IsDocumented(walk[d].files[i].name)
    ensures ReadmeText(walk) == Header
  {
    forall d | 0 <= d < |walk|
      ensures DirectoryText(walk[d]) == ""
    {
      ConcatMapEmpty(FileText, walk[d].files);
    }
    ConcatMapEmpty(DirectoryText, walk);
  }

  /** A file the filter refuses (not ending in `.py`, or starting with `__`) adds
      nothing to the text, wherever it is listed. */
  lemma SkippedFileAddsNothing(xs: seq<SourceFile>, f: SourceFile, ys: seq<SourceFile>)
    requires !IsDocumented(f.name)
    ensures FilesText(xs + [f] + ys) == FilesText(xs + ys)
  {
    OneFileText(xs, f, ys);
    ConcatMapAppend(FileText, xs, ys);
  }

  /** A file the filter admits adds its own section, built from its extracted
      docstrings, between the texts of the files around it. */
  lemma AdmittedFileAddsSection(xs: seq<SourceFile>, f: SourceFile, ys: seq<SourceFile>)
    requires IsDocumented(f.name)
    ensures FilesText(xs + [f] + ys)
      == FilesText(xs) + FileSection(f.name, Docs(f.tree.doc, TopLevelFunctions(f.tree.body))) + FilesText(ys)
  {
    OneFileText(xs, f, ys);
  }

  /** The text of a listing split around one file. */
  lemma OneFileText(xs: seq<SourceFile>, f: SourceFile, ys: seq<SourceFile>)
    ensures FilesText(xs + [f] + ys) == FilesText(xs) + FileText(f) + FilesText(ys)
  {
    ConcatMapAppend(FileText, xs + [f], ys);
    ConcatMapAppend(FileText, xs, [f]);
    assert [f][..0] == [];
  }

  /** Examples of the filter on names from the repository: a module is documented, a package
      initialiser and a Markdown file are not. */
  lemma FilterExamples()
    ensures IsDocumented("database_operations.py")
    ensures !IsDocumented("__init__.py")
    ensures !IsDocumented("README.md")
  {
    var f := "database_operations.py";
    assert |f| == 22 && f[19..] == ".py";
    assert f[..2][0] == 'd';
    assert "__init__.py"[..2] == "__";
    assert "README.md"[6..] != ".py";
  }

  /** The inner loop: one section per function, in list order. */
  method AppendFunctionSections(content: string, functions: seq<FunctionDoc>) returns (out: string)
    ensures out == content + FunctionsText(functions)
  {
    out := content;
    for k := 0 to |functions|
      invariant out == content + FunctionsText(functions[..k])
    {
      ghost var before := out;
      out := AppendFunctionSection(out, functions[k]);
      ConcatMapStep(FunctionSection, functions, k, content, before, out);
    }
    assert functions[..|functions|] == functions;
  }

  /** The body of the inner loop for one function. */
  method AppendFunctionSection(content: string, func: FunctionDoc) returns (out: string)
    ensures out == content + FunctionSection(func)
    ensures StartsWith(out[|content|..], "### Function: `" + func.name + "`\n\n")
    ensures Truthy(func.doc) ==> EndsWith(out, func.doc.value + "\n\n")
    ensures !Truthy(func.doc) ==> EndsWith(out, "No documentation available.\n\n")
  {
    var heading := "### Function: `" + func.name + "`\n\n";
    out := content + heading;
    var tail;
    if Truthy(func.doc) {
      tail := func.doc.value + "\n\n";
    } else {
      tail := "No documentation available.\n\n";
    }
    out := out + tail;
    assert FunctionSection(func) == heading + tail;
    assert out[|content|..] == heading + tail;
    assert (heading + tail)[..|heading|] == heading;
    assert out[|out| - |tail|..] == tail;
  }

  /** The loop over the files of one directory. */
  method AppendFileSections(content: string, files: seq<SourceFile>) returns (out: string)
    ensures out == content + FilesText(files)
  {
    out := content;
    for j := 0 to |files|
      invariant out == content + FilesText(files[..j])
    {
      ghost var before := out;
      out := AppendFileText(out, files[j]);
      ConcatMapStep(FileText, files, j, content, before, out);
    }
    assert files[..|files|] == files;
  }

  /** The body of that loop for one file: nothing unless the filter admits it. */
  method AppendFileText(content: string, file: SourceFile) returns (out: string)
    ensures out == content + FileText(file)
  {
    if IsDocumented(file.name) {
      var docs := ExtractDocstrings(file.tree);
      out := AppendFileSection(content, file.name, docs);
    } else {
      out := content;
      assert content + "" == content;
    }
  }

  /** The section of one admitted file: heading, module docstring, then its functions. */
  method AppendFileSection(content: string, file: string, docs: Docs) returns (out: string)
    ensures out == content + FileSection(file, docs)
  {
    var heading := "## " + file + "\n\n";
    var moduleText;
    if Truthy(docs.moduleDoc) {
      moduleText := docs.moduleDoc.value + "\n\n";
    } else {
      moduleText := "No module-level documentation available.\n\n";
    }
    var opening := heading + moduleText;
    assert FileSection(file, docs) == opening + FunctionsText(docs.functions);
    out := AppendFunctionSections(content + opening, docs.functions);
  }

  /** `generate_readme`: the content it writes to the output file. */
  method GenerateReadme(walk: seq<Directory>) returns (readmeContent: string)
    ensures readmeContent == ReadmeText(walk)
  {
    readmeContent := "# ETL Pipeline Documentation\n\n";
    readmeContent := readmeContent + "This document is auto-generated from the codebase.\n\n";
    for d := 0 to |walk|
      invariant readmeContent == Header + WalkText(walk[..d])
    {
      ghost var before := readmeContent;
      readmeContent := AppendFileSections(readmeContent, walk[d].files);
      ConcatMapStep(DirectoryText, walk, d, Header, before, readmeContent);
    }
    assert walk[..|walk|] == walk;
  }
}
