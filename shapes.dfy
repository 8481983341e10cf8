/** What the grammar guarantees about the trees it builds and the errors it
    reports: whatever parses is well-formed (module Ast), an expression never
    stops in front of an operator, a parse inside an expression can fail
    only with a syntax error about a token, and within a program the crash
    at end of input can happen only in the header of a grid statement. */
module Shapes {
  import opened Ast
  import opened Grammar

  /** The errors an expression can stop with: an `eat` of the wrong kind or
      a token no factor can start with. */
  predicate ExprError(e: Err) {
    e.Expected? || e.UnexpectedToken?
  }

  /** The errors a grid item can stop with: those of an expression, or a
      keyword other than `draw` and `write`. */
  predicate ItemError(e: Err) {
    ExprError(e) || e.UnexpectedKeyword?
  }

  // ---------------------------------------------------------------------
  // Expressions (same measure as the productions: tokens left, then rank)

  lemma {:induction false} DrawShape(ts: seq<Token>, p: nat)
    requires TokenAt(ts, p, Keyword("draw"))
    ensures var r := DrawAt(ts, p);
            && (r.Success? ==> r.value.val.tag == Draw && IsExpr(r.value.val))
            && (r.Failure? ==> ExprError(r.error))
    decreases |ts| - p, 0
  {
    if KindAt(ts, p + 1, SPECIAL) {
      ExpressionShape(ts, p + 2);
    }
  }

  /** A factor is well-formed; a token that starts none of its four forms,
      or the end of the input, fails as an unexpected token. */
  lemma {:induction false} FactorShape(ts: seq<Token>, p: nat)
    requires p <= |ts|
    ensures var r := FactorAt(ts, p);
            && (r.Success? ==> IsExpr(r.value.val))
            && (r.Failure? ==> ExprError(r.error))
            && (!TokenAt(ts, p, Keyword("draw")) && !KindAt(ts, p, IDENTIFIER) && !KindAt(ts, p, NUMBER) &&
                !TokenAt(ts, p, Symbol("(")) ==>
                  r == Failure(UnexpectedToken(Current(ts, p))))
    decreases |ts| - p, 1
  {
    if TokenAt(ts, p, Keyword("draw")) {
      DrawShape(ts, p);
    } else if TokenAt(ts, p, Symbol("(")) {
      ExpressionShape(ts, p + 1);
    }
  }

  /** An expression is well-formed, and the token after it, if any, is not
      an operator. */
  lemma {:induction false} ExpressionShape(ts: seq<Token>, p: nat)
    requires p <= |ts|
    ensures var r := ExpressionAt(ts, p);
            && (r.Success? ==> IsExpr(r.value.val) && !KindAt(ts, r.value.next, OPERATOR))
            && (r.Failure? ==> ExprError(r.error))
    decreases |ts| - p, 2
  {
    FactorShape(ts, p);
    var f := FactorAt(ts, p);
    if f.Success? {
      ExprTailShape(ts, f.value.val, f.value.next);
    }
  }

  /** The operator loop keeps a well-formed accumulator well-formed and runs
      until no operator follows. */
  lemma {:induction false} ExprTailShape(ts: seq<Token>, left: Node, p: nat)
    requires p <= |ts|
    ensures var r := ExprTailAt(ts, left, p);
            && (r.Success? ==> !KindAt(ts, r.value.next, OPERATOR))
            && (r.Success? && IsExpr(left) ==> IsExpr(r.value.val))
            && (r.Failure? ==> ExprError(r.error))
    decreases |ts| - p, 3
  {
    if KindAt(ts, p, OPERATOR) {
      FactorShape(ts, p + 1);
      var right := FactorAt(ts, p + 1);
      if right.Success? {
        ExprTailShape(ts, Node(Expression, Some(Text(ts[p].text)), [left, right.value.val]), right.value.next);
      }
    }
  }

  // ---------------------------------------------------------------------
  // Statements

  lemma {:induction false} WriteTailShape(ts: seq<Token>, acc: Node, p: nat)
    requires p <= |ts|
    ensures var r := WriteTailAt(ts, acc, p);
            && (r.Success? && IsExpr(acc) ==> IsExpr(r.value.val))
            && (r.Failure? ==> ExprError(r.error))
    decreases |ts| - p
  {
    if TokenAt(ts, p, Token(OPERATOR, "+")) {
      ExpressionShape(ts, p + 1);
      var right := ExpressionAt(ts, p + 1);
      if right.Success? {
        WriteTailShape(ts, Node(Expression, Some(Text("+")), [acc, right.value.val]), right.value.next);
      }
    }
  }

  lemma {:induction false} WriteShape(ts: seq<Token>, p: nat)
    requires p <= |ts|
    ensures var r := WriteAt(ts, p);
            && (r.Success? ==> IsWrite(r.value.val))
            && (r.Failure? ==> ExprError(r.error))
  {
    if KindAt(ts, p, KEYWORD) && KindAt(ts, p + 1, SPECIAL) {
      ExpressionShape(ts, p + 2);
      var e := ExpressionAt(ts, p + 2);
      if e.Success? {
        WriteTailShape(ts, e.value.val, e.value.next);
      }
    }
  }

  /** A grid item is a draw or a write statement; every other keyword, and
      only that, fails as an unexpected keyword. */
  lemma {:induction false} GridItemShape(ts: seq<Token>, p: nat)
    requires KindAt(ts, p, KEYWORD)
    ensures var r := GridItemAt(ts, p);
            && (r.Success? ==> IsGridItem(r.value.val))
            && (r.Failure? ==> ItemError(r.error))
            && (r.Failure? && r.error.UnexpectedKeyword? <==> ts[p].text != "draw" && ts[p].text != "write")
            && (ts[p].text != "draw" && ts[p].text != "write" ==> r == Failure(UnexpectedKeyword(ts[p].text)))
  {
    if ts[p].text == "draw" {
      DrawShape(ts, p);
    } else if ts[p].text == "write" {
      WriteShape(ts, p);
    }
  }

  lemma {:induction false} GridItemsShape(ts: seq<Token>, p: nat)
    requires p <= |ts|
    ensures var r := GridItemsAt(ts, p);
            && (r.Success? ==> forall i :: 0 <= i < |r.value.val| ==> IsGridItem(r.value.val[i]))
            && (r.Failure? ==> ItemError(r.error))
    decreases |ts| - p
  {
    if KindAt(ts, p, KEYWORD) {
      GridItemShape(ts, p);
      var item := GridItemAt(ts, p);
      if item.Success? && TokenAt(ts, item.value.next, Symbol(",")) {
        GridItemsShape(ts, item.value.next + 1);
      }
    }
  }

  /** A grid statement is well-formed and carries the texts of its two
      number tokens; it is the one statement that can crash, at a missing
      number. */
  lemma {:induction false} GridShape(ts: seq<Token>, p: nat)
    requires p <= |ts|
    ensures var r := GridAt(ts, p);
            && (r.Success? ==> IsGrid(r.value.val) && r.value.val.value == Some(Pair(ts[p + 2].text, ts[p + 4].text)))
            && (r.Failure? ==> !r.error.UnknownStatement? && !r.error.UnexpectedImageToken?)
  {
    if && KindAt(ts, p, KEYWORD) && KindAt(ts, p + 1, SPECIAL) && KindAt(ts, p + 2, NUMBER)
       && KindAt(ts, p + 3, SPECIAL) && KindAt(ts, p + 4, NUMBER) && KindAt(ts, p + 5, SPECIAL)
    {
      GridItemsShape(ts, p + 6);
    }
  }

  /** A statement that yields a node yields a well-formed one. A statement
      fails as unknown exactly when it starts with a keyword other than
      `draw`, `grid` and `write`; any token that is not a keyword, `(` or `;`
      fails as an unexpected token; it crashes only at end of input or in a
      grid statement. */
  lemma {:induction false} StatementShape(ts: seq<Token>, p: nat)
    requires p <= |ts|
    ensures var r := StatementAt(ts, p);
            && (r.Success? && r.value.val.Some? ==> IsStatement(r.value.val.value))
            && (r.Failure? && r.error.UnknownStatement? <==>
                KindAt(ts, p, KEYWORD) && ts[p].text != "draw" && ts[p].text != "grid" && ts[p].text != "write")
            && (r.Failure? && r.error.NoCurrentToken? ==> p == |ts| || TokenAt(ts, p, Keyword("grid")))
            && (p < |ts| && ts[p].kind != KEYWORD && ts[p] != Symbol("(") && ts[p] != Symbol(";") ==>
                r == Failure(UnexpectedToken(Some(ts[p]))))
  {
    if p < |ts| {
      if ts[p].kind == KEYWORD {
        if ts[p].text == "draw" {
          DrawShape(ts, p);
        } else if ts[p].text == "grid" {
          GridShape(ts, p);
        } else if ts[p].text == "write" {
          WriteShape(ts, p);
        }
      } else if ts[p] == Symbol("(") {
        ExpressionShape(ts, p);
      }
    }
  }

  /** Every node the statement loop collects is a well-formed statement, and
      a crash comes from a grid statement. */
  lemma {:induction false} StatementsShape(ts: seq<Token>, p: nat)
    requires p <= |ts|
    ensures var r := StatementsAt(ts, p);
            && (r.Success? ==> forall i :: 0 <= i < |r.value.val| ==> IsStatement(r.value.val[i]))
            && (r.Failure? && r.error.NoCurrentToken? ==> exists i :: p <= i < |ts| && ts[i] == Keyword("grid"))
    decreases |ts| - p
  {
    if p < |ts| {
      StatementShape(ts, p);
      var s := StatementAt(ts, p);
      if s.Success? {
        StatementsShape(ts, s.value.next);
      } else if s.error.NoCurrentToken? {
        assert ts[p] == Keyword("grid");
      }
    }
  }

  /** Whatever the parser accepts is a well-formed program. */
  lemma {:induction false} ProgramShape(ts: seq<Token>)
    ensures var r := ProgramAt(ts, 0);
            && (r.Success? ==> IsProgram(r.value.val))
            && (r.Failure? && r.error.NoCurrentToken? ==> exists i :: 0 <= i < |ts| && ts[i] == Keyword("grid"))
  {
    StatementsShape(ts, 0);
  }
}
