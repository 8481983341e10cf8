/** Parsing the tokens of a well-formed tree gives back that tree: for
    expressions, statements, grid bodies and whole programs. Together with
    the shape guarantees of module Shapes (whatever parses is well-formed)
    this says that the trees the parser can produce are exactly the
    well-formed trees, with the operators of a chain folded to the left.
    It does not say that every accepted token sequence is the printed form
    of a tree: redundant parentheses and symbols eaten by kind alone are
    accepted too. */
module RoundTrip {
  import opened Ast
  import opened Grammar
  import opened Printer
  import opened Spelling

  // ---------------------------------------------------------------------
  // The left spine of an operator chain `f0 op1 f1 ... opk fk`

  /** The leftmost factor `f0`. */
  function Head(e: Node): (h: Node)
    requires IsExpr(e)
    ensures IsExpr(h) && h.tag != Expression
  {
    if e.tag == Expression then Head(e.children[0]) else e
  }

  /** `e` with its leftmost factor replaced by `acc`. */
  function Rebase(e: Node, acc: Node): Node
    requires IsExpr(e)
  {
    if e.tag == Expression then Node(Expression, e.value, [Rebase(e.children[0], acc), e.children[1]])
    else acc
  }

  lemma {:induction false} RebaseHead(e: Node)
    requires IsExpr(e)
    ensures Rebase(e, Head(e)) == e
  {
    if e.tag == Expression {
      RebaseHead(e.children[0]);
      assert e.children == [e.children[0], e.children[1]];
    }
  }

  /** An expression's tokens are those of its leftmost factor followed by
      the operators and operands of its tail. */
  lemma {:induction false} HeadSplit(ts: seq<Token>, p: nat, e: Node)
    requires IsExpr(e) && SpellsExpr(ts, p, e)
    ensures Width(e) == Width(Head(e)) + TailWidth(e)
    ensures SpellsExpr(ts, p, Head(e)) && SpellsTail(ts, p + Width(Head(e)), e)
  {
    if e.tag == Expression {
      HeadSplit(ts, p, e.children[0]);
    }
  }

  /** A spelled expression lies within the tokens. */
  lemma {:induction false} ExprWithin(ts: seq<Token>, p: nat, e: Node)
    requires IsExpr(e) && SpellsExpr(ts, p, e)
    ensures p + Width(e) <= |ts|
    decreases e, 0
  {
    if e.tag == Expression {
      OperandWithin(ts, p + Width(e.children[0]) + 1, e.children[1]);
    }
  }

  lemma {:induction false} OperandWithin(ts: seq<Token>, p: nat, e: Node)
    requires IsExpr(e) && SpellsOperand(ts, p, e)
    ensures p + OperandWidth(e) <= |ts|
    decreases e, 1
  {
    if e.tag != Expression {
      ExprWithin(ts, p, e);
    }
  }

  // ---------------------------------------------------------------------
  // Expressions

  /** A factor's tokens parse back to the factor. */
  lemma {:induction false} FactorRoundTrip(ts: seq<Token>, p: nat, e: Node)
    requires IsExpr(e) && SpellsOperand(ts, p, e)
    ensures p + OperandWidth(e) <= |ts| && FactorAt(ts, p) == Success(Parsed(e, p + OperandWidth(e)))
    decreases e, if e.tag == Expression then 4 else 0
  {
    OperandWithin(ts, p, e);
    match e.tag
    case Identifier =>
    case Number =>
    case Draw =>
      var c := e.children[0];
      ExpressionRoundTrip(ts, p + 2, c);
      assert e.children == [c];
    case Expression =>
      ParenRoundTrip(ts, p, e);
  }

  /** `( e )` parses as a factor to `e`: the parentheses leave no node. */
  lemma {:induction false} ParenRoundTrip(ts: seq<Token>, p: nat, e: Node)
    requires IsExpr(e) && TokenAt(ts, p, Symbol("("))
    requires SpellsExpr(ts, p + 1, e) && TokenAt(ts, p + 1 + Width(e), Symbol(")"))
    ensures FactorAt(ts, p) == Success(Parsed(e, p + 2 + Width(e)))
    decreases e, 3
  {
    ExpressionRoundTrip(ts, p + 1, e);
  }

  /** The first factor parse reads the leftmost factor. */
  lemma {:induction false} HeadRoundTrip(ts: seq<Token>, p: nat, e: Node)
    requires IsExpr(e) && SpellsExpr(ts, p, Head(e))
    ensures FactorAt(ts, p) == Success(Parsed(Head(e), p + Width(Head(e))))
    decreases e, 1
  {
    if e.tag == Expression {
      HeadRoundTrip(ts, p, e.children[0]);
    } else {
      FactorRoundTrip(ts, p, e);
    }
  }

  /** The operator loop, fed the tail tokens of `e` after an accumulated
      left operand `acc`, builds `e` with `acc` in place of its leftmost
      factor: each new operator node takes everything so far as its left
      child. */
  lemma {:induction false} ExprTailRoundTrip(ts: seq<Token>, p: nat, e: Node, acc: Node)
    requires IsExpr(e) && SpellsTail(ts, p, e) && p + TailWidth(e) <= |ts|
    ensures ExprTailAt(ts, acc, p) == ExprTailAt(ts, Rebase(e, acc), p + TailWidth(e))
    decreases e, 1
  {
    if e.tag == Expression {
      var l, r := e.children[0], e.children[1];
      ExprTailRoundTrip(ts, p, l, acc);
      FactorRoundTrip(ts, p + TailWidth(l) + 1, r);
    }
  }

  /** An expression's tokens, followed by anything but an operator, parse
      back to the expression. */
  lemma {:induction false} ExpressionRoundTrip(ts: seq<Token>, p: nat, e: Node)
    requires IsExpr(e) && SpellsExpr(ts, p, e) && !KindAt(ts, p + Width(e), OPERATOR)
    ensures ExpressionAt(ts, p) == Success(Parsed(e, p + Width(e)))
    decreases e, 2
  {
    var h := Head(e);
    ExprWithin(ts, p, e);
    HeadSplit(ts, p, e);
    HeadRoundTrip(ts, p, e);
    ExprTailRoundTrip(ts, p + Width(h), e, h);
    RebaseHead(e);
  }

  /** The printer's tokens for an expression parse back to it. */
  lemma ExprTokensRoundTrip(e: Node)
    requires IsExpr(e)
    ensures ExpressionAt(ExprTokens(e), 0) == Success(Parsed(e, |ExprTokens(e)|))
  {
    PrintedExpr(e);
    ExpressionRoundTrip(ExprTokens(e), 0, e);
  }

  // ---------------------------------------------------------------------
  // Statements

  lemma {:induction false} WriteRoundTrip(ts: seq<Token>, p: nat, n: Node)
    requires IsWrite(n) && SpellsWrite(ts, p, n)
    ensures WriteAt(ts, p) == Success(Parsed(n, p + Width(n.children[0]) + 3))
  {
    var e := n.children[0];
    ExpressionRoundTrip(ts, p + 2, e);
    assert WriteTailAt(ts, e, p + 2 + Width(e)) == Success(Parsed(e, p + 2 + Width(e)));
    assert n.children == [e];
  }

  lemma {:induction false} ItemRoundTrip(ts: seq<Token>, p: nat, n: Node)
    requires IsGridItem(n) && SpellsItem(ts, p, n)
    ensures KindAt(ts, p, KEYWORD)
    ensures GridItemAt(ts, p) == Success(Parsed(n, p + ItemWidth(n)))
  {
    if n.tag == Draw {
      FactorRoundTrip(ts, p, n);
    } else {
      WriteRoundTrip(ts, p, n);
    }
  }

  /** Comma-separated items followed by `)` parse back to the items. */
  lemma {:induction false} ItemsRoundTrip(ts: seq<Token>, p: nat, items: seq<Node>)
    requires forall i :: 0 <= i < |items| ==> IsGridItem(items[i])
    requires SpellsItems(ts, p, items) && TokenAt(ts, p + ItemsWidth(items), Symbol(")"))
    ensures GridItemsAt(ts, p) == Success(Parsed(items, p + ItemsWidth(items)))
    decreases |items|
  {
    if |items| == 1 {
      LastItem(ts, p, items[0]);
      assert items == [items[0]];
    } else if |items| > 1 {
      ItemsRoundTrip(ts, p + ItemWidth(items[0]) + 1, items[1..]);
      NextItem(ts, p, items);
    }
  }

  /** An item followed by `)` ends the list. */
  lemma {:induction false} LastItem(ts: seq<Token>, p: nat, item: Node)
    requires IsGridItem(item) && SpellsItem(ts, p, item) && TokenAt(ts, p + ItemWidth(item), Symbol(")"))
    ensures GridItemsAt(ts, p) == Success(Parsed([item], p + ItemWidth(item)))
  {
    ItemRoundTrip(ts, p, item);
  }

  /** An item and a comma put the item in front of the items after them. */
  lemma {:induction false} NextItem(ts: seq<Token>, p: nat, items: seq<Node>)
    requires |items| > 1 && forall i :: 0 <= i < |items| ==> IsGridItem(items[i])
    requires SpellsItems(ts, p, items)
    requires GridItemsAt(ts, p + ItemWidth(items[0]) + 1) == Success(Parsed(items[1..], p + ItemsWidth(items)))
    ensures GridItemsAt(ts, p) == Success(Parsed(items, p + ItemsWidth(items)))
  {
    ItemRoundTrip(ts, p, items[0]);
    assert [items[0]] + items[1..] == items;
  }

  lemma {:induction false} GridRoundTrip(ts: seq<Token>, p: nat, n: Node)
    requires IsGrid(n) && SpellsGrid(ts, p, n)
    ensures GridAt(ts, p) == Success(Parsed(n, p + ItemsWidth(n.children[0].children) + 7))
  {
    var content, size := n.children[0], n.value.value;
    var end := p + 6 + ItemsWidth(content.children);
    ItemsRoundTrip(ts, p + 6, content.children);
    assert content == Node(GridContent, None, content.children);
    GridUnfold(ts, p, content, end);
    assert ts[p + 2].text == size.rows && ts[p + 4].text == size.cols;
    assert n == Node(GridStatement, Some(Pair(size.rows, size.cols)), [content]);
  }

  /** A grid header, a body and a `)` make a grid statement. */
  lemma GridUnfold(ts: seq<Token>, p: nat, content: Node, end: nat)
    requires KindAt(ts, p, KEYWORD) && KindAt(ts, p + 1, SPECIAL) && KindAt(ts, p + 2, NUMBER)
    requires KindAt(ts, p + 3, SPECIAL) && KindAt(ts, p + 4, NUMBER) && KindAt(ts, p + 5, SPECIAL)
    requires GridContentAt(ts, p + 6) == Success(Parsed(content, end)) && KindAt(ts, end, SPECIAL)
    ensures GridAt(ts, p) == Success(Parsed(Node(GridStatement, Some(Pair(ts[p + 2].text, ts[p + 4].text)), [content]), end + 1))
  {
  }

  /** Every statement starts with a keyword or `(`, never an operator. */
  lemma {:induction false} StatementStart(ts: seq<Token>, p: nat, n: Node)
    requires IsStatement(n) && SpellsStatement(ts, p, n)
    ensures p < |ts| && ts[p].kind != OPERATOR && StatementWidth(n) > 0
  {
  }

  /** A statement's tokens, followed by anything but an operator, parse
      back to the statement. */
  lemma {:induction false} StatementRoundTrip(ts: seq<Token>, p: nat, n: Node)
    requires IsStatement(n) && SpellsStatement(ts, p, n)
    requires !KindAt(ts, p + StatementWidth(n), OPERATOR)
    ensures StatementAt(ts, p) == Success(Parsed(Some(n), p + StatementWidth(n)))
  {
    if IsWrite(n) {
      WriteRoundTrip(ts, p, n);
    } else if IsGrid(n) {
      GridRoundTrip(ts, p, n);
    } else if n.tag == Draw {
      FactorRoundTrip(ts, p, n);
    } else {
      var end := p + StatementWidth(n);
      ParenRoundTrip(ts, p, n);
      assert ExprTailAt(ts, n, end) == Success(Parsed(n, end));
    }
  }

  lemma {:induction false} StatementsRoundTrip(ts: seq<Token>, p: nat, statements: seq<Node>)
    requires forall i :: 0 <= i < |statements| ==> IsStatement(statements[i])
    requires SpellsStatements(ts, p, statements) && p + StatementsWidth(statements) == |ts|
    ensures StatementsAt(ts, p) == Success(Parsed(statements, |ts|))
    decreases |statements|
  {
    if statements != [] {
      var first, rest := statements[0], statements[1..];
      var q := p + StatementWidth(first);
      if rest != [] {
        StatementStart(ts, q, rest[0]);
      }
      StatementRoundTrip(ts, p, first);
      StatementsRoundTrip(ts, q, rest);
      assert [first] + rest == statements;
    }
  }

  /** Every well-formed program is what the parser reads from its printed
      tokens. */
  lemma ProgramRoundTrip(program: Node)
    requires IsProgram(program)
    ensures var ts := ProgramTokens(program.children);
            ProgramAt(ts, 0) == Success(Parsed(program, |ts|))
  {
    PrintedStatements(program.children);
    StatementsRoundTrip(ProgramTokens(program.children), 0, program.children);
  }
}
