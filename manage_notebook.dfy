/** `create_or_update_notebook` of `etl_pipeline/manage_notebook.py`: rebuilds the
    teaching notebook from scratch, pairing each found function with its explanation. */
module ManageNotebook {
  import opened Options
  import opened PyAst
  import opened ScriptParser
  import opened NotebookModel

  /** The ten markdown texts (`markdown_cells`): two introductions, one explanation
      per function of `FunctionNames`, and the text before the main block. */
  predicate ProseShape(prose: seq<string>)
  {
    |prose| == 2 + |FunctionNames| + 1
  }

  /** A code cell without metadata, as `new_code_cell(text)` makes it. */
  function PlainCode(text: Option<string>): seq<Cell>
  {
    if Truthy(text) then [Code(text.value, None)] else []
  }

  /** The function part of the notebook: for each truthy body, its explanation
      followed by its code, in list order. */
  function PairCells(titles: seq<string>, texts: seq<Option<string>>): seq<Cell>
    requires |titles| == |texts|
  {
    if texts == [] then []
    else
      var n := |texts| - 1;
      PairCells(titles[..n], texts[..n])
        + (if Truthy(texts[n]) then [Markdown(titles[n]), Code(texts[n].value, None)] else [])
  }

  /** The cells the notebook is saved with. */
  function ManageCells(sections: Sections, prose: seq<string>): seq<Cell>
    requires ProseShape(prose)
  {
    [Markdown(prose[0]), Markdown(prose[1])]
      + PlainCode(sections.libraries)
      + PairCells(prose[2..9], FunctionTexts(sections.functions))
      + [Markdown(prose[9])]
      + PlainCode(sections.main)
  }

  /** The function part holds two cells per truthy body: cell `2k` is the explanation
      of the `k`-th found name and cell `2k + 1` its code. */
  lemma {:induction false} PairCellsLayout(titles: seq<string>, texts: seq<Option<string>>)
    requires |titles| == |texts|
    ensures |PairCells(titles, texts)| == 2 * |Present(texts)|
    ensures forall k :: 0 <= k < |Present(texts)| ==>
      Present(texts)[k] < |texts| && Truthy(texts[Present(texts)[k]])
      && PairCells(titles, texts)[2 * k] == Markdown(titles[Present(texts)[k]])
      && PairCells(titles, texts)[2 * k + 1] == Code(texts[Present(texts)[k]].value, None)
  {
    if texts != [] {
      var n := |texts| - 1;
      var tl, tx := titles[..n], texts[..n];
      PairCellsLayout(tl, tx);
      var prev := PairCells(tl, tx);
      var p := Present(tx);
      var added := if Truthy(texts[n]) then [Markdown(titles[n]), Code(texts[n].value, None)] else [];
      var cells := PairCells(titles, texts);
      assert cells == prev + added;
      assert Present(texts) == p + (if Truthy(texts[n]) then [n] else []);
      forall k | 0 <= k < |p|
        ensures p[k] < |texts| && Truthy(texts[p[k]])
        ensures cells[2 * k] == Markdown(titles[p[k]])
        ensures cells[2 * k + 1] == Code(texts[p[k]].value, None)
      {
        assert cells[2 * k] == prev[2 * k];
        assert cells[2 * k + 1] == prev[2 * k + 1];
        assert tl[p[k]] == titles[p[k]] && tx[p[k]] == texts[p[k]];
      }
    }
  }

  function Count(b: bool): nat
  {
    if b then 1 else 0
  }

  /** Number of cells: the three fixed markdown cells, one libraries cell if present,
      two cells per found function and one main cell if present. */
  lemma CellCount(sections: Sections, prose: seq<string>)
    requires ProseShape(prose)
    ensures |ManageCells(sections, prose)|
      == 3 + Count(Truthy(sections.libraries)) + 2 * |Present(FunctionTexts(sections.functions))| + Count(Truthy(sections.main))
  {
    PairCellsLayout(prose[2..9], FunctionTexts(sections.functions));
  }

  /** Where each cell goes: the two introductions open the notebook, function `i` of
      the list is explained by `prose[2 + i]` right before its code, and the closing
      text precedes the main code, which is the last cell when present. */
  lemma CellLayout(sections: Sections, prose: seq<string>)
    requires ProseShape(prose)
    ensures var cells := ManageCells(sections, prose);
      var texts := FunctionTexts(sections.functions);
      var found := Present(texts);
      var offset := 2 + Count(Truthy(sections.libraries));
      && |cells| == offset + 2 * |found| + 1 + Count(Truthy(sections.main))
      && cells[0] == Markdown(prose[0]) && cells[1] == Markdown(prose[1])
      && (Truthy(sections.libraries) ==> cells[2] == Code(sections.libraries.value, None))
      && (forall k :: 0 <= k < |found| ==>
            found[k] < |FunctionNames| && Truthy(Get(sections.functions, FunctionNames[found[k]]))
            && cells[offset + 2 * k] == Markdown(prose[2 + found[k]])
            && cells[offset + 2 * k + 1] == Code(Get(sections.functions, FunctionNames[found[k]]).value, None))
      && cells[offset + 2 * |found|] == Markdown(prose[9])
      && (Truthy(sections.main) ==> cells[|cells| - 1] == Code(sections.main.value, None))
  {
    var texts := FunctionTexts(sections.functions);
    PairCellsLayout(prose[2..9], texts);
    var head := [Markdown(prose[0]), Markdown(prose[1])] + PlainCode(sections.libraries);
    var pairs := PairCells(prose[2..9], texts);
    var cells := ManageCells(sections, prose);
    assert cells == head + pairs + [Markdown(prose[9])] + PlainCode(sections.main);
    var offset := 2 + Count(Truthy(sections.libraries));
    forall k | 0 <= k < |Present(texts)|
      ensures cells[offset + 2 * k] == pairs[2 * k] && cells[offset + 2 * k + 1] == pairs[2 * k + 1]
    {
    }
  }

  /** The loop over `function_names`: each name whose body is truthy gets its
      explanation `titles[idx]` and then its code. */
  method AddFunctionCells(notebook: Notebook, functions: map<string, string>, titles: seq<string>)
    requires |titles| == |FunctionNames|
    modifies notebook
    ensures notebook.cells == old(notebook.cells) + PairCells(titles, FunctionTexts(functions))
  {
    ghost var head := notebook.cells;
    ghost var texts := FunctionTexts(functions);
    for idx := 0 to |FunctionNames|
      invariant notebook.cells == head + PairCells(titles[..idx], texts[..idx])
    {
      var markdownTitle := titles[idx];
      var funcBody := Get(functions, FunctionNames[idx]);
      assert titles[..idx + 1][..idx] == titles[..idx] && texts[..idx + 1][..idx] == texts[..idx];
      assert texts[idx] == funcBody;
      if Truthy(funcBody) {
        notebook.Append(Markdown(markdownTitle));
        notebook.Append(Code(funcBody.value, None));
      }
    }
    assert titles[..|FunctionNames|] == titles && texts[..|FunctionNames|] == texts;
  }

  /** The opening cells: both introductions, then the imports when truthy. */
  method AddOpening(notebook: Notebook, first: string, second: string, libraries: Option<string>)
    modifies notebook
    ensures notebook.cells == old(notebook.cells) + [Markdown(first), Markdown(second)] + PlainCode(libraries)
  {
    notebook.Append(Markdown(first));
    notebook.Append(Markdown(second));
    if Truthy(libraries) {
      notebook.Append(Code(libraries.value, None));
    }
  }

  /** The closing cells: the text before the main block, then its code when truthy. */
  method AddClosing(notebook: Notebook, closing: string, main: Option<string>)
    modifies notebook
    ensures notebook.cells == old(notebook.cells) + [Markdown(closing)] + PlainCode(main)
  {
    notebook.Append(Markdown(closing));
    if Truthy(main) {
      notebook.Append(Code(main.value, None));
    }
  }

  /** `create_or_update_notebook` over the script's lines and AST body, the stored
      notebook (`None` when missing or not JSON) and the ten markdown texts; returns
      the cells it saves. The stored cells do not matter: the list is cleared first. */
  method CreateOrUpdateNotebook(lines: seq<string>, body: seq<Node>, stored: Option<seq<Cell>>, prose: seq<string>)
    returns (saved: seq<Cell>)
    requires ProseShape(prose)
    ensures saved == ManageCells(ParsedSections(lines, body), prose)
  {
    var sections := ParseScript(lines, body);
    saved := BuildNotebook(sections, stored, prose);
  }

  /** The cell-building part of `create_or_update_notebook`, for sections already found. */
  method BuildNotebook(sections: Sections, stored: Option<seq<Cell>>, prose: seq<string>) returns (saved: seq<Cell>)
    requires ProseShape(prose)
    ensures saved == ManageCells(sections, prose)
  {
    var notebook := new Notebook(stored);
    notebook.cells := [];
    AddOpening(notebook, prose[0], prose[1], sections.libraries);
    AddFunctionCells(notebook, sections.functions, prose[2..9]);
    AddClosing(notebook, prose[9], sections.main);
    saved := notebook.cells;
  }
}
