/** The abstract syntax tree of the drawing language.

    A node carries a type tag, an optional payload and an ordered list of
    children. As a datatype the tree is acyclic and unshared by construction,
    so rendering is plain structural recursion. */
module Ast {

  datatype Option<+T> = None | Some(value: T)

  /** The type tags the parser ever creates. */
  datatype Tag =
    | Program
    | Draw
    | WriteStatement
    | GridStatement
    | GridContent
    | Expression
    | Identifier
    | Number

  /** A node's payload: the text of an operator, identifier or number,
      or the (rows, cols) texts of a grid. */
  datatype Value = Text(text: string) | Pair(rows: string, cols: string)

  datatype Node = Node(tag: Tag, value: Option<Value>, children: seq<Node>)

  function Leaf(tag: Tag, text: string): Node {
    Node(tag, Some(Text(text)), [])
  }

  /** An expression tree: an identifier or number leaf, a nested draw, or a
      binary operator node over two expressions. */
  predicate IsExpr(n: Node) {
    match n.tag
    case Identifier => n.value.Some? && n.value.value.Text? && n.children == []
    case Number => n.value.Some? && n.value.value.Text? && n.children == []
    case Draw => n.value.None? && |n.children| == 1 && IsExpr(n.children[0])
    case Expression =>
      && n.value.Some? && n.value.value.Text? && |n.children| == 2
      && IsExpr(n.children[0]) && IsExpr(n.children[1])
    case _ => false
  }

  /** A write statement: one expression child and no payload. */
  predicate IsWrite(n: Node) {
    n.tag == WriteStatement && n.value.None? && |n.children| == 1 && IsExpr(n.children[0])
  }

  /** What may stand inside a grid body: a draw or a write statement. */
  predicate IsGridItem(n: Node) {
    (n.tag == Draw && IsExpr(n)) || IsWrite(n)
  }

  predicate IsGridContent(n: Node) {
    && n.tag == GridContent && n.value.None?
    && forall i :: 0 <= i < |n.children| ==> IsGridItem(n.children[i])
  }

  predicate IsGrid(n: Node) {
    && n.tag == GridStatement && n.value.Some? && n.value.value.Pair?
    && |n.children| == 1 && IsGridContent(n.children[0])
  }

  /** A top-level statement: a write, a grid, or any expression (a draw
      statement, or a bare parenthesized expression). */
  predicate IsStatement(n: Node) {
    IsWrite(n) || IsGrid(n) || IsExpr(n)
  }

  predicate IsProgram(n: Node) {
    && n.tag == Program && n.value.None?
    && forall i :: 0 <= i < |n.children| ==> IsStatement(n.children[i])
  }

  /** A node is never among its own children. */
  lemma NoSelfChild(n: Node)
    ensures n !in n.children
  {
  }

  // ---------------------------------------------------------------------
  // Rendering: `type(value): [child, child, ...]`

  function TagName(t: Tag): (s: string)
    ensures |s| > 0
  {
    match t
    case Program => "Program"
    case Draw => "Draw"
    case WriteStatement => "WriteStatement"
    case GridStatement => "GridStatement"
    case GridContent => "GridContent"
    case Expression => "Expression"
    case Identifier => "Identifier"
    case Number => "Number"
  }

  /** How a payload is formatted: an absent value reads `None`, a text reads
      as itself, a pair reads as a tuple of quoted strings. */
  function ValueText(v: Option<Value>): string {
    match v
    case None => "None"
    case Some(Text(s)) => s
    case Some(Pair(r, c)) => "('" + r + "', '" + c + "')"
  }

  /** The rendering of a node: its tag, its payload in parentheses, and the
      comma-separated renderings of its children in brackets. */
  function Render(n: Node): (r: string)
    ensures |TagName(n.tag)| + 5 <= |r|
    ensures r[..|TagName(n.tag)|] == TagName(n.tag)
    ensures r[|TagName(n.tag)|] == '('
    ensures r[|r| - 1] == ']'
    decreases n, 1
  {
    TagName(n.tag) + "(" + ValueText(n.value) + "): [" + RenderAll(n.children) + "]"
  }

  /** The renderings of `ns` joined by ", ". */
  function RenderAll(ns: seq<Node>): (r: string)
    ensures ns == [] <==> r == []
    decreases ns, 0
  {
    if ns == [] then ""
    else if |ns| == 1 then Render(ns[0])
    else Render(ns[0]) + ", " + RenderAll(ns[1..])
  }
}
