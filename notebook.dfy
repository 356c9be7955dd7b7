/** The part of `nbformat` the notebook tools use: a notebook object whose `cells`
    list they replace and append to, and the fixed order of the pipeline's functions. */
module NotebookModel {
  import opened Options

  /** One cell. A code cell carries the optional `section` entry of its metadata. */
  datatype Cell =
    | Markdown(source: string)
    | Code(source: string, section: Option<string>)
    | Raw(source: string)

  /** The seven functions of the ETL script, in the order the notebook shows them. */
  const FunctionNames: seq<string> := [
    "clear_folder",
    "manage_tables",
    "calculate_payments",
    "calculate_duration",
    "calculate_profitable_actors",
    "write_dataframe_to_db",
    "write_local_txt_output"
  ]

  /** `d.get(k)`. */
  function Get(m: map<string, string>, k: string): Option<string>
  {
    if k in m then Some(m[k]) else None
  }

  /** The body found for each of the seven names, in list order. */
  function FunctionTexts(functions: map<string, string>): seq<Option<string>>
  {
    seq(|FunctionNames|, i requires 0 <= i < |FunctionNames| => Get(functions, FunctionNames[i]))
  }

  /** The positions of `texts` holding a truthy string, in increasing order. */
  function Present(texts: seq<Option<string>>): seq<nat>
  {
    if texts == [] then []
    else Present(texts[..|texts| - 1]) + (if Truthy(texts[|texts| - 1]) then [|texts| - 1] else [])
  }

  /** `Present` lists exactly the truthy positions, each once and in increasing order. */
  lemma PresentSpec(texts: seq<Option<string>>)
    ensures forall k :: 0 <= k < |Present(texts)| ==> Present(texts)[k] < |texts| && Truthy(texts[Present(texts)[k]])
    ensures forall k, l :: 0 <= k < l < |Present(texts)| ==> Present(texts)[k] < Present(texts)[l]
    ensures forall i :: 0 <= i < |texts| && Truthy(texts[i]) ==> i in Present(texts)
  {
    PresentSound(texts);
    PresentIncreasing(texts);
    PresentComplete(texts);
  }

  /** Every listed position is in range and holds a truthy string. */
  lemma {:induction false} PresentSound(texts: seq<Option<string>>)
    ensures forall k :: 0 <= k < |Present(texts)| ==> Present(texts)[k] < |texts| && Truthy(texts[Present(texts)[k]])
  {
    if texts != [] {
      var n := |texts| - 1;
      var init := texts[..n];
      PresentSound(init);
      var p, q := Present(init), Present(texts);
      assert q == p + (if Truthy(texts[n]) then [n] else []);
      forall k | 0 <= k < |q|
        ensures q[k] < |texts| && Truthy(texts[q[k]])
      {
        if k < |p| {
          assert q[k] == p[k] && init[p[k]] == texts[p[k]];
        }
      }
    }
  }

  /** The listed positions increase. */
  lemma {:induction false} PresentIncreasing(texts: seq<Option<string>>)
    ensures forall k, l :: 0 <= k < l < |Present(texts)| ==> Present(texts)[k] < Present(texts)[l]
  {
    if texts != [] {
      var n := |texts| - 1;
      var init := texts[..n];
      PresentIncreasing(init);
      PresentSound(init);
      var p, q := Present(init), Present(texts);
      assert q == p + (if Truthy(texts[n]) then [n] else []);
      forall k, l | 0 <= k < l < |q|
        ensures q[k] < q[l]
      {
        assert q[k] == p[k] && p[k] < n;
        if l < |p| {
          assert q[l] == p[l];
        }
      }
    }
  }

  /** Every truthy position is listed. */
  lemma {:induction false} PresentComplete(texts: seq<Option<string>>)
    ensures forall i :: 0 <= i < |texts| && Truthy(texts[i]) ==> i in Present(texts)
  {
    if texts != [] {
      var n := |texts| - 1;
      var init := texts[..n];
      PresentComplete(init);
      var p, q := Present(init), Present(texts);
      assert q == p + (if Truthy(texts[n]) then [n] else []);
      forall i | 0 <= i < |texts| && Truthy(texts[i])
        ensures i in q
      {
        if i < n {
          assert init[i] == texts[i];
        } else {
          assert q[|q| - 1] == n;
        }
      }
    }
  }

  /** Keeping a longer list's prefix keeps the truthy positions found in it. */
  lemma PresentSnoc(texts: seq<Option<string>>, i: nat)
    requires i < |texts|
    ensures Present(texts[..i + 1]) == Present(texts[..i]) + (if Truthy(texts[i]) then [i] else [])
  {
    assert texts[..i + 1][..i] == texts[..i];
  }

  /** What the notebook holds after `nbformat.read`: the stored cells, or, when the
      file is missing or not JSON (`stored == None`), the empty cell list of `new_notebook()`. */
  function LoadedCells(stored: Option<seq<Cell>>): seq<Cell>
  {
    if stored.Some? then stored.value else []
  }

  /** The notebook object, whose `cells` list the tools reassign and append to. */
  class Notebook {
    var cells: seq<Cell>

    /** Reading the notebook file, or starting a new notebook when there is none. */
    constructor (stored: Option<seq<Cell>>)
      ensures cells == LoadedCells(stored)
      ensures stored.None? ==> cells == []
    {
      cells := LoadedCells(stored);
    }

    /** `notebook.cells.append(cell)`. */
    method Append(cell: Cell)
      modifies this
      ensures cells == old(cells) + [cell]
    {
      cells := cells + [cell];
    }
  }
}
