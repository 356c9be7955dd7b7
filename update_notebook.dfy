/** `create_or_update_notebook` of `update_notebook.py`: keeps the markdown cells of
    the stored notebook and replaces its code by freshly parsed, section-tagged cells. */
module UpdateNotebook {
  import opened Options
  import opened PyAst
  import opened ScriptParser
  import opened NotebookModel

  /** `[cell for cell in cells if cell.cell_type == "markdown"]`. */
  function MarkdownOnly(cells: seq<Cell>): seq<Cell>
  {
    if cells == [] then []
    else (if cells[0].Markdown? then [cells[0]] else []) + MarkdownOnly(cells[1..])
  }

  /** The `section` keys, in the order their cells are appended. */
  const SectionKeys: seq<string> := ["libraries_and_logging"] + FunctionNames + ["main_script"]

  /** The text parsed for each key of `SectionKeys`. */
  function SectionTexts(sections: Sections): seq<Option<string>>
  {
    [sections.libraries] + FunctionTexts(sections.functions) + [sections.main]
  }

  /** One code cell per truthy text, tagged with the key at the same position. */
  function TagCells(keys: seq<string>, texts: seq<Option<string>>): seq<Cell>
    requires |keys| == |texts|
  {
    if texts == [] then []
    else
      var n := |texts| - 1;
      TagCells(keys[..n], texts[..n])
        + (if Truthy(texts[n]) then [Code(texts[n].value, Some(keys[n]))] else [])
  }

  /** The cells the notebook is saved with. */
  function UpdateCells(cells: seq<Cell>, sections: Sections): seq<Cell>
  {
    MarkdownOnly(cells) + TagCells(SectionKeys, SectionTexts(sections))
  }

  /** The filter works cell by cell, so it keeps the relative order of what it keeps. */
  lemma {:induction false} MarkdownOnlyAppend(a: seq<Cell>, b: seq<Cell>)
    ensures MarkdownOnly(a + b) == MarkdownOnly(a) + MarkdownOnly(b)
  {
    if a == [] {
      assert a + b == b;
    } else {
      assert (a + b)[0] == a[0] && (a + b)[1..] == a[1..] + b;
      MarkdownOnlyAppend(a[1..], b);
    }
  }

  /** What the filter keeps is exactly the markdown cells. */
  lemma {:induction false} MarkdownOnlyMembers(cells: seq<Cell>)
    ensures forall c :: c in MarkdownOnly(cells) <==> c in cells && c.Markdown?
  {
    if cells != [] {
      MarkdownOnlyMembers(cells[1..]);
      assert cells == [cells[0]] + cells[1..];
    }
  }

  /** Every cell the filter keeps is a markdown cell. */
  lemma {:induction false} MarkdownOnlyIsMarkdown(cells: seq<Cell>)
    ensures forall i :: 0 <= i < |MarkdownOnly(cells)| ==> MarkdownOnly(cells)[i].Markdown?
  {
    if cells != [] {
      MarkdownOnlyIsMarkdown(cells[1..]);
      var head: seq<Cell> := if cells[0].Markdown? then [cells[0]] else [];
      var rest := MarkdownOnly(cells[1..]);
      assert MarkdownOnly(cells) == head + rest;
      forall i | 0 <= i < |head + rest|
        ensures (head + rest)[i].Markdown?
      {
        if i >= |head| {
          assert (head + rest)[i] == rest[i - |head|];
        }
      }
    }
  }

  /** A list of markdown cells passes the filter unchanged. */
  lemma {:induction false} MarkdownOnlyKeepsMarkdown(cells: seq<Cell>)
    requires forall i :: 0 <= i < |cells| ==> cells[i].Markdown?
    ensures MarkdownOnly(cells) == cells
  {
    if cells != [] {
      assert forall i :: 0 <= i < |cells[1..]| ==> cells[1..][i] == cells[i + 1];
      MarkdownOnlyKeepsMarkdown(cells[1..]);
    }
  }

  /** The filter removes every code cell it is given. */
  lemma {:induction false} MarkdownOnlyDropsCode(cells: seq<Cell>)
    requires forall i :: 0 <= i < |cells| ==> cells[i].Code?
    ensures MarkdownOnly(cells) == []
  {
    if cells != [] {
      assert forall i :: 0 <= i < |cells[1..]| ==> cells[1..][i] == cells[i + 1];
      MarkdownOnlyDropsCode(cells[1..]);
    }
  }

  /** The tagged cells: one code cell per truthy text, in key order, whose `section`
      entry is the key of its text. */
  lemma {:induction false} TagCellsLayout(keys: seq<string>, texts: seq<Option<string>>)
    requires |keys| == |texts|
    ensures |TagCells(keys, texts)| == |Present(texts)|
    ensures forall k :: 0 <= k < |Present(texts)| ==>
      Present(texts)[k] < |texts| && Truthy(texts[Present(texts)[k]])
      && TagCells(keys, texts)[k] == Code(texts[Present(texts)[k]].value, Some(keys[Present(texts)[k]]))
  {
    PresentSpec(texts);
    if texts != [] {
      var n := |texts| - 1;
      var ks, tx := keys[..n], texts[..n];
      TagCellsLayout(ks, tx);
      var prev := TagCells(ks, tx);
      var p := Present(tx);
      var cells := TagCells(keys, texts);
      assert cells == prev + (if Truthy(texts[n]) then [Code(texts[n].value, Some(keys[n]))] else []);
      assert Present(texts) == p + (if Truthy(texts[n]) then [n] else []);
      forall k | 0 <= k < |p|
        ensures cells[k] == Code(texts[p[k]].value, Some(keys[p[k]]))
      {
        assert cells[k] == prev[k];
        assert ks[p[k]] == keys[p[k]] && tx[p[k]] == texts[p[k]];
      }
    }
  }

  /** Appending in two runs tags the same cells as appending in one. */
  lemma {:induction false} TagCellsAppend(k1: seq<string>, t1: seq<Option<string>>, k2: seq<string>, t2: seq<Option<string>>)
    requires |k1| == |t1| && |k2| == |t2|
    ensures TagCells(k1 + k2, t1 + t2) == TagCells(k1, t1) + TagCells(k2, t2)
  {
    if t2 == [] {
      assert k1 + k2 == k1 && t1 + t2 == t1;
    } else {
      var n := |t2| - 1;
      var ks, ts := k1 + k2, t1 + t2;
      var m := |ts| - 1;
      assert ks[..m] == k1 + k2[..n] && ts[..m] == t1 + t2[..n];
      assert ks[m] == k2[n] && ts[m] == t2[n];
      var last := if Truthy(t2[n]) then [Code(t2[n].value, Some(k2[n]))] else [];
      calc {
        TagCells(ks, ts);
        TagCells(ks[..m], ts[..m]) + last;
        TagCells(k1 + k2[..n], t1 + t2[..n]) + last;
        { TagCellsAppend(k1, t1, k2[..n], t2[..n]); }
        TagCells(k1, t1) + TagCells(k2[..n], t2[..n]) + last;
        TagCells(k1, t1) + (TagCells(k2[..n], t2[..n]) + last);
        TagCells(k1, t1) + TagCells(k2, t2);
      }
    }
  }

  /** Every tagged cell is a code cell. */
  lemma TagCellsAreCode(keys: seq<string>, texts: seq<Option<string>>)
    requires |keys| == |texts|
    ensures forall i :: 0 <= i < |TagCells(keys, texts)| ==> TagCells(keys, texts)[i].Code?
  {
    TagCellsLayout(keys, texts);
  }

  /** Markdown cells followed by tagged cells, for any keys and texts. */
  lemma KeptThenTagged(cells: seq<Cell>, keys: seq<string>, texts: seq<Option<string>>)
    requires |keys| == |texts|
    ensures |MarkdownOnly(cells) + TagCells(keys, texts)| == |MarkdownOnly(cells)| + |Present(texts)|
    ensures (MarkdownOnly(cells) + TagCells(keys, texts))[..|MarkdownOnly(cells)|] == MarkdownOnly(cells)
    ensures forall i :: 0 <= i < |MarkdownOnly(cells)| ==> MarkdownOnly(cells)[i].Markdown?
    ensures forall k :: 0 <= k < |Present(texts)| ==>
      Present(texts)[k] < |keys| && Truthy(texts[Present(texts)[k]])
      && (MarkdownOnly(cells) + TagCells(keys, texts))[|MarkdownOnly(cells)| + k]
         == Code(texts[Present(texts)[k]].value, Some(keys[Present(texts)[k]]))
  {
    MarkdownOnlyIsMarkdown(cells);
    TaggedAfter(MarkdownOnly(cells), keys, texts);
  }

  /** Tagged cells appended after any cells: tagged cell `k` lands at `|kept| + k`. */
  lemma TaggedAfter(kept: seq<Cell>, keys: seq<string>, texts: seq<Option<string>>)
    requires |keys| == |texts|
    ensures |kept + TagCells(keys, texts)| == |kept| + |Present(texts)|
    ensures (kept + TagCells(keys, texts))[..|kept|] == kept
    ensures forall k :: 0 <= k < |Present(texts)| ==>
      Present(texts)[k] < |keys| && Truthy(texts[Present(texts)[k]])
      && (kept + TagCells(keys, texts))[|kept| + k] == Code(texts[Present(texts)[k]].value, Some(keys[Present(texts)[k]]))
  {
    TagCellsLayout(keys, texts);
    var tags := TagCells(keys, texts);
    var saved := kept + tags;
    assert saved[..|kept|] == kept;
    forall k | 0 <= k < |Present(texts)|
      ensures saved[|kept| + k] == tags[k]
    {
    }
  }

  /** The saved notebook is the stored markdown cells, in their order, followed by
      the tagged code cells: libraries first, then the seven functions in list order,
      then the main block, each only when its text is truthy and each tagged with its key. */
  lemma UpdateLayout(cells: seq<Cell>, sections: Sections)
    ensures var saved := UpdateCells(cells, sections);
      var kept := MarkdownOnly(cells);
      var texts := SectionTexts(sections);
      var found := Present(texts);
      && |saved| == |kept| + |found|
      && saved[..|kept|] == kept
      && (forall i :: 0 <= i < |kept| ==> kept[i].Markdown?)
      && (forall k :: 0 <= k < |found| ==>
            found[k] < |SectionKeys| && Truthy(texts[found[k]])
            && saved[|kept| + k] == Code(texts[found[k]].value, Some(SectionKeys[found[k]])))
  {
    KeptThenTagged(cells, SectionKeys, SectionTexts(sections));
  }

  /** Filtering the markdown cells plus any tagged cells keeps only the markdown cells. */
  lemma RefilterTagged(cells: seq<Cell>, keys: seq<string>, texts: seq<Option<string>>)
    requires |keys| == |texts|
    ensures MarkdownOnly(MarkdownOnly(cells) + TagCells(keys, texts)) == MarkdownOnly(cells)
  {
    var kept := MarkdownOnly(cells);
    var tags := TagCells(keys, texts);
    MarkdownOnlyAppend(kept, tags);
    MarkdownOnlyIsMarkdown(cells);
    MarkdownOnlyKeepsMarkdown(kept);
    TagCellsAreCode(keys, texts);
    MarkdownOnlyDropsCode(tags);
  }

  /** Updating twice from the same script gives the cells of updating once: the code
      cells added by the first run are all removed by the second. */
  lemma UpdateIdempotent(cells: seq<Cell>, sections: Sections)
    ensures UpdateCells(UpdateCells(cells, sections), sections) == UpdateCells(cells, sections)
  {
    RefilterTagged(cells, SectionKeys, SectionTexts(sections));
  }

  /** A missing or invalid notebook starts from no cells, so only the tagged code cells are saved. */
  lemma MissingNotebookStartsEmpty(sections: Sections)
    ensures UpdateCells(LoadedCells(None), sections) == TagCells(SectionKeys, SectionTexts(sections))
  {
    assert MarkdownOnly([]) == [];
  }

  /** A single tagged cell, when its text is truthy. */
  function TagOne(key: string, text: Option<string>): seq<Cell>
  {
    if Truthy(text) then [Code(text.value, Some(key))] else []
  }

  /** The tagged cells come in three runs: libraries, the functions, the main block. */
  lemma SectionCellsSplit(sections: Sections)
    ensures TagCells(SectionKeys, SectionTexts(sections))
      == TagOne("libraries_and_logging", sections.libraries)
         + TagCells(FunctionNames, FunctionTexts(sections.functions))
         + TagOne("main_script", sections.main)
  {
    var fts := FunctionTexts(sections.functions);
    TagCellsAppend(["libraries_and_logging"], [sections.libraries], FunctionNames, fts);
    TagCellsAppend(["libraries_and_logging"] + FunctionNames, [sections.libraries] + fts,
                   ["main_script"], [sections.main]);
    assert TagCells(["libraries_and_logging"], [sections.libraries]) == TagOne("libraries_and_logging", sections.libraries) by {
      assert ["libraries_and_logging"][..0] == [];
    }
    assert TagCells(["main_script"], [sections.main]) == TagOne("main_script", sections.main) by {
      assert ["main_script"][..0] == [];
    }
  }

  /** The loop over `function_names`: one tagged code cell per truthy body. */
  method AddFunctionCells(notebook: Notebook, functions: map<string, string>)
    modifies notebook
    ensures notebook.cells == old(notebook.cells) + TagCells(FunctionNames, FunctionTexts(functions))
  {
    ghost var head := notebook.cells;
    ghost var texts := FunctionTexts(functions);
    for idx := 0 to |FunctionNames|
      invariant notebook.cells == head + TagCells(FunctionNames[..idx], texts[..idx])
    {
      var funcName := FunctionNames[idx];
      var funcBody := Get(functions, funcName);
      assert FunctionNames[..idx + 1][..idx] == FunctionNames[..idx] && texts[..idx + 1][..idx] == texts[..idx];
      assert texts[idx] == funcBody;
      if Truthy(funcBody) {
        notebook.Append(Code(funcBody.value, Some(funcName)));
      }
    }
    assert FunctionNames[..|FunctionNames|] == FunctionNames && texts[..|FunctionNames|] == texts;
  }

  /** The libraries cell, the function cells and the main cell,
      each appended only when its text is truthy. */
  method AddSectionCells(notebook: Notebook, sections: Sections)
    modifies notebook
    ensures notebook.cells == old(notebook.cells) + TagCells(SectionKeys, SectionTexts(sections))
  {
    ghost var kept := notebook.cells;
    var librariesCode := sections.libraries;
    if Truthy(librariesCode) {
      notebook.Append(Code(librariesCode.value, Some("libraries_and_logging")));
    }
    ghost var withLibraries := notebook.cells;
    AddFunctionCells(notebook, sections.functions);
    ghost var withFunctions := notebook.cells;
    var mainCode := sections.main;
    if Truthy(mainCode) {
      notebook.Append(Code(mainCode.value, Some("main_script")));
    }
    SectionCellsSplit(sections);
    ghost var a := TagOne("libraries_and_logging", librariesCode);
    ghost var f := TagCells(FunctionNames, FunctionTexts(sections.functions));
    ghost var m := TagOne("main_script", mainCode);
    assert withLibraries == kept + a;
    assert withFunctions == kept + a + f;
    assert notebook.cells == kept + a + f + m;
    assert kept + a + f + m == kept + (a + f + m);
  }

  /** `create_or_update_notebook` over the script's lines and AST body and the stored
      notebook (`None` when missing or not JSON); returns the cells it saves. */
  method CreateOrUpdateNotebook(lines: seq<string>, body: seq<Node>, stored: Option<seq<Cell>>)
    returns (saved: seq<Cell>)
    ensures saved == UpdateCells(LoadedCells(stored), ParsedSections(lines, body))
  {
    var sections := ParseScript(lines, body);
    saved := RebuildNotebook(sections, stored);
  }

  /** The cell-rebuilding part of `create_or_update_notebook`, for sections already found. */
  method RebuildNotebook(sections: Sections, stored: Option<seq<Cell>>) returns (saved: seq<Cell>)
    ensures saved == UpdateCells(LoadedCells(stored), sections)
  {
    var notebook := new Notebook(stored);
    notebook.cells := MarkdownOnly(notebook.cells);
    AddSectionCells(notebook, sections);
    saved := notebook.cells;
  }
}
