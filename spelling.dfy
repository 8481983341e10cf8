/** Where a well-formed tree's tokens stand in a token sequence, stated
    position by position: `SpellsX(ts, p, n)` says that the tokens of `n`
    occupy `ts` from `p` on, and `XWidth(n)` counts them. This is the
    reference the parser is checked against in module RoundTrip; the
    printer's output is shown to spell its tree here. */
module Spelling {
  import opened Ast
  import opened Grammar
  import opened Printer

  // ---------------------------------------------------------------------
  // Token counts

  function Width(e: Node): nat
    requires IsExpr(e)
    decreases e, 0
  {
    match e.tag
    case Draw => Width(e.children[0]) + 3
    case Expression => Width(e.children[0]) + 1 + OperandWidth(e.children[1])
    case _ => 1
  }

  function OperandWidth(e: Node): nat
    requires IsExpr(e)
    decreases e, 1
  {
    if e.tag == Expression then Width(e) + 2 else Width(e)
  }

  /** The tokens after the leftmost factor: `op1 f1 ... opk fk`. */
  function TailWidth(e: Node): nat
    requires IsExpr(e)
  {
    if e.tag == Expression then TailWidth(e.children[0]) + 1 + OperandWidth(e.children[1]) else 0
  }

  function ItemWidth(n: Node): nat
    requires IsGridItem(n)
  {
    if n.tag == Draw then Width(n) else Width(n.children[0]) + 3
  }

  function ItemsWidth(items: seq<Node>): nat
    requires forall i :: 0 <= i < |items| ==> IsGridItem(items[i])
  {
    if items == [] then 0
    else if |items| == 1 then ItemWidth(items[0])
    else ItemWidth(items[0]) + 1 + ItemsWidth(items[1..])
  }

  function StatementWidth(n: Node): nat
    requires IsStatement(n)
  {
    if IsWrite(n) then Width(n.children[0]) + 3
    else if IsGrid(n) then ItemsWidth(n.children[0].children) + 7
    else if n.tag == Draw then Width(n)
    else Width(n) + 2
  }

  function StatementsWidth(statements: seq<Node>): nat
    requires forall i :: 0 <= i < |statements| ==> IsStatement(statements[i])
  {
    if statements == [] then 0
    else StatementWidth(statements[0]) + StatementsWidth(statements[1..])
  }

  // ---------------------------------------------------------------------
  // Token placement

  /** The tokens of expression `e` stand from `p` on. */
  predicate SpellsExpr(ts: seq<Token>, p: nat, e: Node)
    requires IsExpr(e)
    decreases e, 0
  {
    match e.tag
    case Identifier => TokenAt(ts, p, Token(IDENTIFIER, e.value.value.text))
    case Number => TokenAt(ts, p, Token(NUMBER, e.value.value.text))
    case Draw =>
      && TokenAt(ts, p, Keyword("draw")) && TokenAt(ts, p + 1, Symbol("("))
      && SpellsExpr(ts, p + 2, e.children[0])
      && TokenAt(ts, p + 2 + Width(e.children[0]), Symbol(")"))
    case Expression =>
      && SpellsExpr(ts, p, e.children[0])
      && TokenAt(ts, p + Width(e.children[0]), Token(OPERATOR, e.value.value.text))
      && SpellsOperand(ts, p + Width(e.children[0]) + 1, e.children[1])
  }

  /** A right operand: an operator node stands in parentheses. */
  predicate SpellsOperand(ts: seq<Token>, p: nat, e: Node)
    requires IsExpr(e)
    decreases e, 1
  {
    if e.tag == Expression then
      TokenAt(ts, p, Symbol("(")) && SpellsExpr(ts, p + 1, e) && TokenAt(ts, p + 1 + Width(e), Symbol(")"))
    else
      SpellsExpr(ts, p, e)
  }

  /** The operators and operands after the leftmost factor of `e`. */
  predicate SpellsTail(ts: seq<Token>, p: nat, e: Node)
    requires IsExpr(e)
  {
    e.tag == Expression ==>
      && SpellsTail(ts, p, e.children[0])
      && TokenAt(ts, p + TailWidth(e.children[0]), Token(OPERATOR, e.value.value.text))
      && SpellsOperand(ts, p + TailWidth(e.children[0]) + 1, e.children[1])
  }

  predicate SpellsWrite(ts: seq<Token>, p: nat, n: Node)
    requires IsWrite(n)
  {
    && TokenAt(ts, p, Keyword("write")) && TokenAt(ts, p + 1, Symbol("("))
    && SpellsExpr(ts, p + 2, n.children[0])
    && TokenAt(ts, p + 2 + Width(n.children[0]), Symbol(")"))
  }

  predicate SpellsItem(ts: seq<Token>, p: nat, n: Node)
    requires IsGridItem(n)
  {
    if n.tag == Draw then SpellsExpr(ts, p, n) else SpellsWrite(ts, p, n)
  }

  predicate SpellsItems(ts: seq<Token>, p: nat, items: seq<Node>)
    requires forall i :: 0 <= i < |items| ==> IsGridItem(items[i])
    decreases items
  {
    if items == [] then true
    else if |items| == 1 then SpellsItem(ts, p, items[0])
    else
      && SpellsItem(ts, p, items[0])
      && TokenAt(ts, p + ItemWidth(items[0]), Symbol(","))
      && SpellsItems(ts, p + ItemWidth(items[0]) + 1, items[1..])
  }

  predicate SpellsGrid(ts: seq<Token>, p: nat, n: Node)
    requires IsGrid(n)
  {
    && TokenAt(ts, p, Keyword("grid")) && TokenAt(ts, p + 1, Symbol("("))
    && TokenAt(ts, p + 2, Token(NUMBER, n.value.value.rows)) && TokenAt(ts, p + 3, Symbol(","))
    && TokenAt(ts, p + 4, Token(NUMBER, n.value.value.cols)) && TokenAt(ts, p + 5, Symbol(","))
    && SpellsItems(ts, p + 6, n.children[0].children)
    && TokenAt(ts, p + 6 + ItemsWidth(n.children[0].children), Symbol(")"))
  }

  predicate SpellsStatement(ts: seq<Token>, p: nat, n: Node)
    requires IsStatement(n)
  {
    if IsWrite(n) then SpellsWrite(ts, p, n)
    else if IsGrid(n) then SpellsGrid(ts, p, n)
    else if n.tag == Draw then SpellsExpr(ts, p, n)
    else TokenAt(ts, p, Symbol("(")) && SpellsExpr(ts, p + 1, n) && TokenAt(ts, p + 1 + Width(n), Symbol(")"))
  }

  predicate SpellsStatements(ts: seq<Token>, p: nat, statements: seq<Node>)
    requires forall i :: 0 <= i < |statements| ==> IsStatement(statements[i])
    decreases statements
  {
    if statements == [] then true
    else SpellsStatement(ts, p, statements[0]) && SpellsStatements(ts, p + StatementWidth(statements[0]), statements[1..])
  }

  // ---------------------------------------------------------------------
  // Spelling survives tokens added in front or behind

  lemma {:induction false} FramedExpr(xs: seq<Token>, ys: seq<Token>, zs: seq<Token>, q: nat, e: Node)
    requires IsExpr(e) && SpellsExpr(ys, q, e)
    ensures SpellsExpr(xs + ys, |xs| + q, e) && SpellsExpr(ys + zs, q, e)
    decreases e, 0
  {
    match e.tag
    case Identifier =>
    case Number =>
    case Draw =>
      FramedExpr(xs, ys, zs, q + 2, e.children[0]);
    case Expression =>
      FramedExpr(xs, ys, zs, q, e.children[0]);
      FramedOperand(xs, ys, zs, q + Width(e.children[0]) + 1, e.children[1]);
  }

  lemma {:induction false} FramedOperand(xs: seq<Token>, ys: seq<Token>, zs: seq<Token>, q: nat, e: Node)
    requires IsExpr(e) && SpellsOperand(ys, q, e)
    ensures SpellsOperand(xs + ys, |xs| + q, e) && SpellsOperand(ys + zs, q, e)
    decreases e, 1
  {
    if e.tag == Expression {
      FramedExpr(xs, ys, zs, q + 1, e);
    } else {
      FramedExpr(xs, ys, zs, q, e);
    }
  }

  lemma {:induction false} FramedWrite(xs: seq<Token>, ys: seq<Token>, zs: seq<Token>, q: nat, n: Node)
    requires IsWrite(n) && SpellsWrite(ys, q, n)
    ensures SpellsWrite(xs + ys, |xs| + q, n) && SpellsWrite(ys + zs, q, n)
  {
    FramedExpr(xs, ys, zs, q + 2, n.children[0]);
  }

  lemma {:induction false} FramedItem(xs: seq<Token>, ys: seq<Token>, zs: seq<Token>, q: nat, n: Node)
    requires IsGridItem(n) && SpellsItem(ys, q, n)
    ensures SpellsItem(xs + ys, |xs| + q, n) && SpellsItem(ys + zs, q, n)
  {
    if n.tag == Draw {
      FramedExpr(xs, ys, zs, q, n);
    } else {
      FramedWrite(xs, ys, zs, q, n);
    }
  }

  lemma {:induction false} FramedItems(xs: seq<Token>, ys: seq<Token>, zs: seq<Token>, q: nat, items: seq<Node>)
    requires forall i :: 0 <= i < |items| ==> IsGridItem(items[i])
    requires SpellsItems(ys, q, items)
    ensures SpellsItems(xs + ys, |xs| + q, items) && SpellsItems(ys + zs, q, items)
    decreases |items|
  {
    if items != [] {
      FramedItem(xs, ys, zs, q, items[0]);
      if |items| > 1 {
        FramedItems(xs, ys, zs, q + ItemWidth(items[0]) + 1, items[1..]);
      }
    }
  }

  lemma {:induction false} FramedGrid(xs: seq<Token>, ys: seq<Token>, zs: seq<Token>, q: nat, n: Node)
    requires IsGrid(n) && SpellsGrid(ys, q, n)
    ensures SpellsGrid(xs + ys, |xs| + q, n) && SpellsGrid(ys + zs, q, n)
  {
    FramedItems(xs, ys, zs, q + 6, n.children[0].children);
  }

  lemma {:induction false} FramedStatement(xs: seq<Token>, ys: seq<Token>, zs: seq<Token>, q: nat, n: Node)
    requires IsStatement(n) && SpellsStatement(ys, q, n)
    ensures SpellsStatement(xs + ys, |xs| + q, n) && SpellsStatement(ys + zs, q, n)
  {
    if IsWrite(n) {
      FramedWrite(xs, ys, zs, q, n);
    } else if IsGrid(n) {
      FramedGrid(xs, ys, zs, q, n);
    } else if n.tag == Draw {
      FramedExpr(xs, ys, zs, q, n);
    } else {
      FramedExpr(xs, ys, zs, q + 1, n);
    }
  }

  lemma {:induction false} FramedStatements(xs: seq<Token>, ys: seq<Token>, q: nat, statements: seq<Node>)
    requires forall i :: 0 <= i < |statements| ==> IsStatement(statements[i])
    requires SpellsStatements(ys, q, statements)
    ensures SpellsStatements(xs + ys, |xs| + q, statements)
    decreases |statements|
  {
    if statements != [] {
      FramedStatement(xs, ys, [], q, statements[0]);
      FramedStatements(xs, ys, q + StatementWidth(statements[0]), statements[1..]);
    }
  }

  // ---------------------------------------------------------------------
  // Spellings put together

  /** `( xs )`, where `xs` spells `e`. */
  lemma {:induction false} SpellsParenthesized(xs: seq<Token>, e: Node)
    requires IsExpr(e) && |xs| == Width(e) && SpellsExpr(xs, 0, e)
    ensures var ts := Parenthesized(xs);
            && |ts| == Width(e) + 2 && TokenAt(ts, 0, Symbol("("))
            && SpellsExpr(ts, 1, e) && TokenAt(ts, 1 + Width(e), Symbol(")"))
  {
    FramedExpr([Symbol("(")], xs, [Symbol(")")], 0, e);
    FramedExpr([], [Symbol("(")] + xs, [Symbol(")")], 1, e);
  }

  /** `k ( xs )`, where `xs` spells `e`: a draw or a write. */
  lemma {:induction false} SpellsCall(k: string, xs: seq<Token>, e: Node)
    requires IsExpr(e) && |xs| == Width(e) && SpellsExpr(xs, 0, e)
    ensures var ts := [Keyword(k)] + Parenthesized(xs);
            && |ts| == Width(e) + 3 && TokenAt(ts, 0, Keyword(k)) && TokenAt(ts, 1, Symbol("("))
            && SpellsExpr(ts, 2, e) && TokenAt(ts, 2 + Width(e), Symbol(")"))
  {
    SpellsParenthesized(xs, e);
    FramedExpr([Keyword(k)], Parenthesized(xs), [], 1, e);
  }

  /** `xs op ys`, where `xs` spells the left and `ys` the right operand. */
  lemma {:induction false} SpellsBinary(xs: seq<Token>, op: Token, ys: seq<Token>, e: Node)
    requires IsExpr(e) && e.tag == Expression && op == Token(OPERATOR, e.value.value.text)
    requires |xs| == Width(e.children[0]) && SpellsExpr(xs, 0, e.children[0])
    requires |ys| == OperandWidth(e.children[1]) && SpellsOperand(ys, 0, e.children[1])
    ensures |xs + [op] + ys| == Width(e) && SpellsExpr(xs + [op] + ys, 0, e)
  {
    FramedExpr([], xs, [op], 0, e.children[0]);
    FramedExpr([], xs + [op], ys, 0, e.children[0]);
    FramedOperand(xs + [op], ys, [], 0, e.children[1]);
  }

  /** `xs , ys`, where `xs` spells one grid item and `ys` the rest. */
  lemma {:induction false} SpellsSeparated(xs: seq<Token>, ys: seq<Token>, items: seq<Node>)
    requires |items| > 1 && forall i :: 0 <= i < |items| ==> IsGridItem(items[i])
    requires |xs| == ItemWidth(items[0]) && SpellsItem(xs, 0, items[0])
    requires |ys| == ItemsWidth(items[1..]) && SpellsItems(ys, 0, items[1..])
    ensures |xs + [Symbol(",")] + ys| == ItemsWidth(items) && SpellsItems(xs + [Symbol(",")] + ys, 0, items)
  {
    var ts := xs + [Symbol(",")] + ys;
    FramedItem([], xs, [Symbol(",")], 0, items[0]);
    FramedItem([], xs + [Symbol(",")], ys, 0, items[0]);
    FramedItems(xs + [Symbol(",")], ys, [], 0, items[1..]);
    assert SpellsItem(ts, 0, items[0]);
    assert TokenAt(ts, ItemWidth(items[0]), Symbol(","));
    assert SpellsItems(ts, ItemWidth(items[0]) + 1, items[1..]);
  }

  /** A statement's tokens followed by those of further statements. */
  lemma {:induction false} SpellsSequence(xs: seq<Token>, ys: seq<Token>, statements: seq<Node>)
    requires statements != [] && forall i :: 0 <= i < |statements| ==> IsStatement(statements[i])
    requires |xs| == StatementWidth(statements[0]) && SpellsStatement(xs, 0, statements[0])
    requires |ys| == StatementsWidth(statements[1..]) && SpellsStatements(ys, 0, statements[1..])
    ensures |xs + ys| == StatementsWidth(statements) && SpellsStatements(xs + ys, 0, statements)
  {
    FramedStatement([], xs, ys, 0, statements[0]);
    FramedStatements(xs, ys, 0, statements[1..]);
    assert SpellsStatement(xs + ys, 0, statements[0]);
    assert SpellsStatements(xs + ys, StatementWidth(statements[0]), statements[1..]);
  }

  // ---------------------------------------------------------------------
  // The printer's tokens spell the printed tree

  lemma {:induction false} PrintedExpr(e: Node)
    requires IsExpr(e)
    ensures |ExprTokens(e)| == Width(e) && SpellsExpr(ExprTokens(e), 0, e)
    decreases e, 0
  {
    match e.tag
    case Identifier =>
    case Number =>
    case Draw =>
      PrintedExpr(e.children[0]);
      SpellsCall("draw", ExprTokens(e.children[0]), e.children[0]);
    case Expression =>
      PrintedExpr(e.children[0]);
      PrintedOperand(e.children[1]);
      SpellsBinary(ExprTokens(e.children[0]), Token(OPERATOR, e.value.value.text), OperandTokens(e.children[1]), e);
  }

  lemma {:induction false} PrintedOperand(e: Node)
    requires IsExpr(e)
    ensures |OperandTokens(e)| == OperandWidth(e) && SpellsOperand(OperandTokens(e), 0, e)
    decreases e, 1
  {
    PrintedExpr(e);
    if e.tag == Expression {
      SpellsParenthesized(ExprTokens(e), e);
    }
  }

  lemma {:induction false} PrintedWrite(n: Node)
    requires IsWrite(n)
    ensures |WriteTokens(n)| == Width(n.children[0]) + 3 && SpellsWrite(WriteTokens(n), 0, n)
  {
    PrintedExpr(n.children[0]);
    SpellsCall("write", ExprTokens(n.children[0]), n.children[0]);
  }

  lemma {:induction false} PrintedItem(n: Node)
    requires IsGridItem(n)
    ensures |ItemTokens(n)| == ItemWidth(n) && SpellsItem(ItemTokens(n), 0, n)
  {
    if n.tag == Draw {
      PrintedExpr(n);
    } else {
      PrintedWrite(n);
    }
  }

  lemma {:induction false} PrintedItems(items: seq<Node>)
    requires forall i :: 0 <= i < |items| ==> IsGridItem(items[i])
    ensures |ItemsTokens(items)| == ItemsWidth(items) && SpellsItems(ItemsTokens(items), 0, items)
    decreases |items|
  {
    if |items| == 1 {
      PrintedItem(items[0]);
    } else if |items| > 1 {
      PrintedItem(items[0]);
      PrintedItems(items[1..]);
      SpellsSeparated(ItemTokens(items[0]), ItemsTokens(items[1..]), items);
    }
  }

  lemma {:induction false} PrintedGrid(n: Node)
    requires IsGrid(n)
    ensures |GridTokens(n)| == ItemsWidth(n.children[0].children) + 7 && SpellsGrid(GridTokens(n), 0, n)
  {
    var size := n.value.value;
    var header := [Keyword("grid"), Symbol("("), Token(NUMBER, size.rows), Symbol(","), Token(NUMBER, size.cols), Symbol(",")];
    var items := n.children[0].children;
    PrintedItems(items);
    FramedItems(header, ItemsTokens(items), [Symbol(")")], 0, items);
    FramedItems([], header + ItemsTokens(items), [Symbol(")")], 6, items);
  }

  lemma {:induction false} PrintedStatement(n: Node)
    requires IsStatement(n)
    ensures |StatementTokens(n)| == StatementWidth(n) && SpellsStatement(StatementTokens(n), 0, n)
  {
    if IsWrite(n) {
      PrintedWrite(n);
    } else if IsGrid(n) {
      PrintedGrid(n);
    } else if n.tag == Draw {
      PrintedExpr(n);
    } else {
      PrintedExpr(n);
      SpellsParenthesized(ExprTokens(n), n);
    }
  }

  lemma {:induction false} PrintedStatements(statements: seq<Node>)
    requires forall i :: 0 <= i < |statements| ==> IsStatement(statements[i])
    ensures |ProgramTokens(statements)| == StatementsWidth(statements)
    ensures SpellsStatements(ProgramTokens(statements), 0, statements)
    decreases |statements|
  {
    if statements != [] {
      PrintedStatement(statements[0]);
      PrintedStatements(statements[1..]);
      SpellsSequence(StatementTokens(statements[0]), ProgramTokens(statements[1..]), statements);
    }
  }
}
