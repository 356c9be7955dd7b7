/** What the tools read from `ast.parse`: the top-level statements of a module,
    with the positions and docstrings the parser attaches to them. Parsing itself
    happens outside the model; its results are inputs. */
module PyAst {
  import opened Options

  /** One statement of a module or class body. `lineno` and `endLineno` are the
      1-based first and last source lines that `ast` records (`end_lineno` may be
      missing); `doc` is what `ast.get_docstring` returns for the definition. */
  datatype Node =
    | FunctionDef(name: string, lineno: int, endLineno: Option<int>, doc: Option<string>, body: seq<Node>)
    | AsyncFunctionDef(name: string, lineno: int, endLineno: Option<int>, doc: Option<string>, body: seq<Node>)
    | ClassDef(name: string, body: seq<Node>)
    | OtherStatement

  /** A parsed source file: its module docstring and its top-level statements. */
  datatype Module = Module(doc: Option<string>, body: seq<Node>)

  /** `isinstance(node, ast.FunctionDef) and node.name == name` (an `async def` is not an `ast.FunctionDef`). */
  predicate Defines(node: Node, name: string)
  {
    node.FunctionDef? && node.name == name
  }
}
