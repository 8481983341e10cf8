/** Further properties of the grammar: one `Expression` node per operator
    token, the idle `+` loop of the write statement, the skipped semicolon,
    and small programs that show the edges of the language (symbols checked
    by kind only, left-leaning operator chains, the errors and the crash). */
module Properties {
  import opened Ast
  import opened Grammar
  import opened Printer
  import opened Shapes
  import opened RoundTrip

  // ---------------------------------------------------------------------
  // One `Expression` node per operator token

  /** The number of `Expression` nodes in a tree. */
  function ExpressionNodes(n: Node): nat
    decreases n, 1
  {
    (if n.tag == Expression then 1 else 0) + ExpressionNodesAll(n.children)
  }

  function ExpressionNodesAll(ns: seq<Node>): nat
    decreases ns, 0
  {
    if ns == [] then 0 else ExpressionNodes(ns[0]) + ExpressionNodesAll(ns[1..])
  }

  lemma NodesOfOne(e: Node)
    ensures ExpressionNodesAll([e]) == ExpressionNodes(e)
  {
    assert [e][1..] == [];
  }

  lemma NodesOfTwo(l: Node, r: Node)
    ensures ExpressionNodesAll([l, r]) == ExpressionNodes(l) + ExpressionNodes(r)
  {
    assert [l, r][1..] == [r];
    NodesOfOne(r);
  }

  /** The number of operator tokens among `ts[p..q]`. */
  function OperatorCount(ts: seq<Token>, p: nat, q: nat): nat
    requires p <= q <= |ts|
    decreases q - p
  {
    if p == q then 0 else (if ts[p].kind == OPERATOR then 1 else 0) + OperatorCount(ts, p + 1, q)
  }

  lemma {:induction false} CountSplit(ts: seq<Token>, p: nat, q: nat, r: nat)
    requires p <= q <= r <= |ts|
    ensures OperatorCount(ts, p, r) == OperatorCount(ts, p, q) + OperatorCount(ts, q, r)
    decreases q - p
  {
    if p < q {
      CountSplit(ts, p + 1, q, r);
    }
  }

  /** Two tokens that are not operators around `ts[p + 1..q - 1]`. */
  lemma CountInside(ts: seq<Token>, p: nat, q: nat)
    requires p + 2 <= q <= |ts| && ts[p].kind != OPERATOR && ts[q - 1].kind != OPERATOR
    ensures OperatorCount(ts, p, q) == OperatorCount(ts, p + 1, q - 1)
  {
    CountSplit(ts, p + 1, q - 1, q);
  }

  lemma {:induction false} DrawCount(ts: seq<Token>, p: nat)
    requires TokenAt(ts, p, Keyword("draw"))
    ensures var r := DrawAt(ts, p);
            r.Success? ==> ExpressionNodes(r.value.val) == OperatorCount(ts, p, r.value.next)
    decreases |ts| - p, 0
  {
    var r := DrawAt(ts, p);
    if r.Success? {
      var e := ExpressionAt(ts, p + 2);
      ExpressionCount(ts, p + 2);
      CountInside(ts, p, r.value.next);
      CountInside(ts, p + 1, r.value.next);
      NodesOfOne(e.value.val);
    }
  }

  lemma {:induction false} FactorCount(ts: seq<Token>, p: nat)
    requires p <= |ts|
    ensures var r := FactorAt(ts, p);
            r.Success? ==> ExpressionNodes(r.value.val) == OperatorCount(ts, p, r.value.next)
    decreases |ts| - p, 1
  {
    var r := FactorAt(ts, p);
    if TokenAt(ts, p, Keyword("draw")) {
      DrawCount(ts, p);
    } else if TokenAt(ts, p, Symbol("(")) && r.Success? {
      ExpressionCount(ts, p + 1);
      CountInside(ts, p, r.value.next);
    }
  }

  /** An expression has exactly as many `Expression` nodes as it took
      operator tokens, nested ones included. */
  lemma {:induction false} ExpressionCount(ts: seq<Token>, p: nat)
    requires p <= |ts|
    ensures var r := ExpressionAt(ts, p);
            r.Success? ==> ExpressionNodes(r.value.val) == OperatorCount(ts, p, r.value.next)
    decreases |ts| - p, 2
  {
    var r := ExpressionAt(ts, p);
    var f := FactorAt(ts, p);
    if r.Success? {
      FactorCount(ts, p);
      ExprTailCount(ts, f.value.val, f.value.next);
      CountSplit(ts, p, f.value.next, r.value.next);
    }
  }

  /** Each round of the operator loop adds one node for one operator token. */
  lemma {:induction false} ExprTailCount(ts: seq<Token>, left: Node, p: nat)
    requires p <= |ts|
    ensures var r := ExprTailAt(ts, left, p);
            r.Success? ==> ExpressionNodes(r.value.val) == ExpressionNodes(left) + OperatorCount(ts, p, r.value.next)
    decreases |ts| - p, 3
  {
    var r := ExprTailAt(ts, left, p);
    if KindAt(ts, p, OPERATOR) && r.Success? {
      var right := FactorAt(ts, p + 1);
      var folded := Node(Expression, Some(Text(ts[p].text)), [left, right.value.val]);
      FactorCount(ts, p + 1);
      ExprTailCount(ts, folded, right.value.next);
      CountSplit(ts, p + 1, right.value.next, r.value.next);
      NodesOfTwo(left, right.value.val);
    }
  }

  // ---------------------------------------------------------------------
  // Statements

  /** The `+` loop of a write statement never runs: the expression before it
      has already taken every operator, `+` included. */
  lemma WriteLoopIdle(ts: seq<Token>, p: nat)
    requires p <= |ts|
    ensures var e := ExpressionAt(ts, p);
            e.Success? ==> WriteTailAt(ts, e.value.val, e.value.next) == Success(e.value)
  {
    ExpressionShape(ts, p);
  }

  /** A `;` adds nothing to the program. */
  lemma SemicolonSkipped(ts: seq<Token>, p: nat)
    requires TokenAt(ts, p, Symbol(";"))
    ensures StatementsAt(ts, p) == StatementsAt(ts, p + 1)
  {
    PrefixedNothing(StatementsAt(ts, p + 1));
  }

  // ---------------------------------------------------------------------
  // Small programs

  function Id(x: string): Token { Token(IDENTIFIER, x) }
  function Op(o: string): Token { Token(OPERATOR, o) }

  /** The parentheses of a draw statement are eaten by kind: any two special
      symbols will do, so `draw , x ;` is `draw(x)`. */
  lemma DrawByKindOnly(x: string, open: string, close: string)
    ensures ProgramAt([Keyword("draw"), Symbol(open), Id(x), Symbol(close)], 0)
         == Success(Parsed(Node(Program, None, [Node(Draw, None, [Leaf(Identifier, x)])]), 4))
  {
    var ts := [Keyword("draw"), Symbol(open), Id(x), Symbol(close)];
    var d := Node(Draw, None, [Leaf(Identifier, x)]);
    assert ExpressionAt(ts, 2) == Success(Parsed(Leaf(Identifier, x), 3));
    assert StatementAt(ts, 0) == Success(Parsed(Some(d), 4));
    assert StatementsAt(ts, 0) == Prefixed([d], Success(Parsed([], 4)));
    assert [d] + [] == [d];
  }

  /** `a o1 b o2 c` is `(a o1 b) o2 c`. */
  lemma LeftAssociative(a: string, o1: string, b: string, o2: string, c: string)
    ensures ExpressionAt([Id(a), Op(o1), Id(b), Op(o2), Id(c)], 0)
         == Success(Parsed(Node(Expression, Some(Text(o2)),
                             [Node(Expression, Some(Text(o1)), [Leaf(Identifier, a), Leaf(Identifier, b)]),
                              Leaf(Identifier, c)]), 5))
  {
    var ab := Node(Expression, Some(Text(o1)), [Leaf(Identifier, a), Leaf(Identifier, b)]);
    var abc := Node(Expression, Some(Text(o2)), [ab, Leaf(Identifier, c)]);
    assert ExprTokens(Leaf(Identifier, a)) == [Id(a)];
    assert OperandTokens(Leaf(Identifier, b)) == [Id(b)];
    assert OperandTokens(Leaf(Identifier, c)) == [Id(c)];
    assert ExprTokens(ab) == [Id(a)] + [Op(o1)] + [Id(b)];
    assert ExprTokens(abc) == ExprTokens(ab) + [Op(o2)] + [Id(c)];
    assert ExprTokens(abc) == [Id(a), Op(o1), Id(b), Op(o2), Id(c)];
    ExprTokensRoundTrip(abc);
  }

  /** `grid(2, 3, write(y))`: the header's numbers become the payload and
      the items the body. */
  lemma GridExample(y: string)
    ensures ProgramAt([Keyword("grid"), Symbol("("), Token(NUMBER, "2"), Symbol(","), Token(NUMBER, "3"), Symbol(","),
                       Keyword("write"), Symbol("("), Id(y), Symbol(")"), Symbol(")")], 0)
         == Success(Parsed(Node(Program, None, [
              Node(GridStatement, Some(Pair("2", "3")), [
                Node(GridContent, None, [Node(WriteStatement, None, [Leaf(Identifier, y)])])])]), 11))
  {
    var ts := [Keyword("grid"), Symbol("("), Token(NUMBER, "2"), Symbol(","), Token(NUMBER, "3"), Symbol(","),
               Keyword("write"), Symbol("("), Id(y), Symbol(")"), Symbol(")")];
    var write := Node(WriteStatement, None, [Leaf(Identifier, y)]);
    var grid := Node(GridStatement, Some(Pair("2", "3")), [Node(GridContent, None, [write])]);
    assert ExpressionAt(ts, 8) == Success(Parsed(Leaf(Identifier, y), 9));
    assert WriteAt(ts, 6) == Success(Parsed(write, 10));
    assert GridItemsAt(ts, 6) == Success(Parsed([write], 10));
    assert GridAt(ts, 0) == Success(Parsed(grid, 11));
    assert StatementsAt(ts, 0) == Prefixed([grid], Success(Parsed([], 11)));
    assert [grid] + [] == [grid];
  }

  /** Without a comma between them, the second item ends the grid body and
      the `)` the grid expects is not there. */
  lemma GridMissingComma()
    ensures ProgramAt([Keyword("grid"), Symbol("("), Token(NUMBER, "1"), Symbol(","), Token(NUMBER, "1"), Symbol(","),
                       Keyword("draw"), Symbol("("), Id("x"), Symbol(")"),
                       Keyword("draw"), Symbol("("), Id("y"), Symbol(")"), Symbol(")")], 0)
         == Failure(Expected(SPECIAL, Some(Keyword("draw"))))
  {
    var ts := [Keyword("grid"), Symbol("("), Token(NUMBER, "1"), Symbol(","), Token(NUMBER, "1"), Symbol(","),
               Keyword("draw"), Symbol("("), Id("x"), Symbol(")"),
               Keyword("draw"), Symbol("("), Id("y"), Symbol(")"), Symbol(")")];
    assert ExpressionAt(ts, 8) == Success(Parsed(Leaf(Identifier, "x"), 9));
    assert DrawAt(ts, 6) == Success(Parsed(Node(Draw, None, [Leaf(Identifier, "x")]), 10));
    assert GridItemsAt(ts, 6) == Success(Parsed([Node(Draw, None, [Leaf(Identifier, "x")])], 10));
  }

  /** `draw(x` stops where the `)` is due, at the end of the input. */
  lemma UnclosedDraw(x: string)
    ensures ProgramAt([Keyword("draw"), Symbol("("), Id(x)], 0) == Failure(Expected(SPECIAL, None))
  {
    var ts := [Keyword("draw"), Symbol("("), Id(x)];
    assert ExpressionAt(ts, 2) == Success(Parsed(Leaf(Identifier, x), 3));
    assert StatementAt(ts, 0) == Failure(Expected(SPECIAL, None));
  }

  /** A keyword that starts no statement is an unknown statement. */
  lemma UnknownKeyword(x: string)
    ensures ProgramAt([Keyword("erase"), Symbol("("), Id(x), Symbol(")")], 0) == Failure(UnknownStatement("erase"))
  {
  }

  /** A grid header cut short at a number crashes rather than failing with
      a syntax error. */
  lemma GridCrash()
    ensures ProgramAt([Keyword("grid"), Symbol("(")], 0) == Failure(NoCurrentToken)
  {
  }
}
