/** A printer from well-formed trees back to tokens: the inverse the parser
    is checked against. Parentheses are emitted only where the tree needs
    them: around an operator node that stands as a right operand, and around
    a top-level expression statement (such a statement has to start with
    `(`). */
module Printer {
  import opened Ast
  import opened Grammar

  function ExprTokens(e: Node): (ts: seq<Token>)
    requires IsExpr(e)
    ensures ts != [] && ts[0].kind != OPERATOR
    decreases e, 0
  {
    match e.tag
    case Identifier => [Token(IDENTIFIER, e.value.value.text)]
    case Number => [Token(NUMBER, e.value.value.text)]
    case Draw => [Keyword("draw")] + Parenthesized(ExprTokens(e.children[0]))
    case Expression =>
      ExprTokens(e.children[0]) + [Token(OPERATOR, e.value.value.text)] + OperandTokens(e.children[1])
    case _ => []
  }

  /** The tokens of a right operand: an operator node is parenthesized so
      that it is not absorbed by the left-leaning fold. */
  function OperandTokens(e: Node): (ts: seq<Token>)
    requires IsExpr(e)
    decreases e, 1
  {
    if e.tag == Expression then Parenthesized(ExprTokens(e)) else ExprTokens(e)
  }

  function Parenthesized(ts: seq<Token>): seq<Token> {
    [Symbol("(")] + ts + [Symbol(")")]
  }

  function WriteTokens(n: Node): seq<Token>
    requires IsWrite(n)
  {
    [Keyword("write")] + Parenthesized(ExprTokens(n.children[0]))
  }

  function ItemTokens(n: Node): seq<Token>
    requires IsGridItem(n)
  {
    if n.tag == Draw then ExprTokens(n) else WriteTokens(n)
  }

  /** Grid items separated by commas. */
  function ItemsTokens(items: seq<Node>): seq<Token>
    requires forall i :: 0 <= i < |items| ==> IsGridItem(items[i])
  {
    if items == [] then []
    else if |items| == 1 then ItemTokens(items[0])
    else ItemTokens(items[0]) + [Symbol(",")] + ItemsTokens(items[1..])
  }

  function GridTokens(n: Node): seq<Token>
    requires IsGrid(n)
  {
    var size := n.value.value;
    [Keyword("grid"), Symbol("("), Token(NUMBER, size.rows), Symbol(","), Token(NUMBER, size.cols), Symbol(",")]
    + ItemsTokens(n.children[0].children) + [Symbol(")")]
  }

  /** A statement's tokens; they never begin with an operator, so a
      following statement cannot extend the one before it. */
  function StatementTokens(n: Node): (ts: seq<Token>)
    requires IsStatement(n)
    ensures ts != [] && ts[0].kind != OPERATOR
  {
    if IsWrite(n) then WriteTokens(n)
    else if IsGrid(n) then GridTokens(n)
    else if n.tag == Draw then ExprTokens(n)
    else Parenthesized(ExprTokens(n))
  }

  function ProgramTokens(statements: seq<Node>): seq<Token>
    requires forall i :: 0 <= i < |statements| ==> IsStatement(statements[i])
  {
    if statements == [] then []
    else StatementTokens(statements[0]) + ProgramTokens(statements[1..])
  }
}
