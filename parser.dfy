/** The recursive-descent parser: a cursor over an immutable token sequence,
    one method per production. `Eat` is the only statement that moves the
    cursor. Every production is proved to compute exactly what the grammar
    function of the same name in module Grammar describes, started at the
    cursor's position on entry. */
module Parsing {
  import opened Ast
  import opened Grammar

  class Parser {
    const tokens: seq<Token>
    var position: nat

    ghost predicate Valid()
      reads this
    {
      position <= |tokens|
    }

    constructor (tokens: seq<Token>)
      ensures Valid() && this.tokens == tokens && position == 0
    {
      this.tokens := tokens;
      position := 0;
    }

    /** The token under the cursor, or none past the end. */
    method CurrentToken() returns (t: Option<Token>)
      requires Valid()
      ensures t.Some? <==> position < |tokens|
      ensures t.Some? ==> t.value == tokens[position]
    {
      t := if position < |tokens| then Some(tokens[position]) else None;
    }

    /** Consume the current token if its kind is `kind`; the text is not
        compared. */
    method Eat(kind: string) returns (o: Outcome)
      requires Valid()
      modifies this
      ensures Valid()
      ensures o.Pass? <==> KindAt(tokens, old(position), kind)
      ensures o.Pass? ==> position == old(position) + 1
      ensures o.Fail? ==> position == old(position) && o.error == Expected(kind, Current(tokens, position))
    {
      var current := CurrentToken();
      if current.Some? && current.value.kind == kind {
        position := position + 1;
        o := Pass;
      } else {
        o := Fail(Expected(kind, current));
      }
    }

    method ParseProgram() returns (r: Result<Node>)
      requires Valid()
      modifies this
      ensures Valid() && old(position) <= position
      ensures With(r, position) == ProgramAt(tokens, old(position))
      ensures r.Success? ==> position == |tokens|
    {
      ghost var p0 := position;
      var kids: seq<Node> := [];
      PrefixedNothing(StatementsAt(tokens, p0));
      while position < |tokens|
        invariant Valid() && p0 <= position
        invariant StatementsAt(tokens, p0) == Prefixed(kids, StatementsAt(tokens, position))
        decreases |tokens| - position
      {
        ghost var before := position;
        var statement :- ParseStatement();
        ghost var yielded := if statement.Some? then [statement.value] else [];
        assert StatementsAt(tokens, before) == Prefixed(yielded, StatementsAt(tokens, position));
        if statement.Some? {
          PrefixedTwice(kids, yielded, StatementsAt(tokens, position));
          kids := kids + [statement.value];
        } else {
          PrefixedNothing(StatementsAt(tokens, position));
        }
      }
      assert kids + [] == kids;
      r := Success(Node(Program, None, kids));
    }

    method ParseStatement() returns (r: Result<Option<Node>>)
      requires Valid()
      modifies this
      ensures Valid() && old(position) <= position
      ensures With(r, position) == StatementAt(tokens, old(position))
    {
      var current := CurrentToken();
      if current.Some? && current.value.kind == KEYWORD {
        var keyword := current.value.text;
        var s: Node;
        if keyword == "draw" {
          s :- ParseDrawStatement();
        } else if keyword == "grid" {
          s :- ParseGridStatement();
        } else if keyword == "write" {
          s :- ParseWriteStatement();
        } else {
          return Failure(UnknownStatement(keyword));
        }
        r := Success(Some(s));
      } else if current.None? {
        // the source reads the kind of the absent token here and crashes
        r := Failure(NoCurrentToken);
      } else if current.value == Symbol("(") {
        var e :- ParseExpression();
        r := Success(Some(e));
      } else if current.value == Symbol(";") {
        var semicolon := Eat(SPECIAL);
        assert semicolon.Pass?;
        r := Success(None);
      } else {
        r := Failure(UnexpectedToken(current));
      }
    }

    method ParseDrawStatement() returns (r: Result<Node>)
      requires Valid() && TokenAt(tokens, position, Keyword("draw"))
      modifies this
      ensures Valid() && old(position) <= position
      ensures With(r, position) == DrawAt(tokens, old(position))
      decreases |tokens| - position, 0
    {
      var keyword := Eat(KEYWORD);
      assert keyword.Pass?;
      :- Eat(SPECIAL);
      var expr :- ParseExpression();
      :- Eat(SPECIAL);
      r := Success(Node(Draw, None, [expr]));
    }

    method ParseWriteStatement() returns (r: Result<Node>)
      requires Valid()
      modifies this
      ensures Valid() && old(position) <= position
      ensures With(r, position) == WriteAt(tokens, old(position))
    {
      ghost var p0 := position;
      :- Eat(KEYWORD);
      :- Eat(SPECIAL);
      var expression :- ParseExpression();
      ghost var e0, q0 := expression, position;
      var current := CurrentToken();
      // The expression parser never stops in front of an operator, so this
      // loop's body never runs (lemma WriteLoopIdle).
      while current.Some? && current.value == Token(OPERATOR, "+")
        invariant Valid() && q0 <= position
        invariant current == Current(tokens, position)
        invariant WriteTailAt(tokens, e0, q0) == WriteTailAt(tokens, expression, position)
        decreases |tokens| - position
      {
        var plus := Eat(OPERATOR);
        assert plus.Pass?;
        var right :- ParseExpression();
        expression := Node(Expression, Some(Text("+")), [expression, right]);
        current := CurrentToken();
      }
      :- Eat(SPECIAL);
      r := Success(Node(WriteStatement, None, [expression]));
    }

    method ParseExpression() returns (r: Result<Node>)
      requires Valid()
      modifies this
      ensures Valid() && old(position) <= position
      ensures With(r, position) == ExpressionAt(tokens, old(position))
      decreases |tokens| - position, 2
    {
      ghost var p0 := position;
      var left :- ParseFactor();
      while true
        invariant Valid() && p0 < position
        invariant ExpressionAt(tokens, p0) == ExprTailAt(tokens, left, position)
        decreases |tokens| - position
      {
        var current := CurrentToken();
        if current.Some? && current.value.kind == OPERATOR {
          var operator := current.value.text;
          var eaten := Eat(OPERATOR);
          assert eaten.Pass?;
          var right :- ParseFactor();
          // The fold keeps the previous left operand as the first child, as
          // the write statement's loop does. The source instead rebinds
          // `left` to the new node first and then makes that node its own
          // first child (see module HeapAst).
          left := Node(Expression, Some(Text(operator)), [left, right]);
        } else {
          break;
        }
      }
      r := Success(left);
    }

    method ParseFactor() returns (r: Result<Node>)
      requires Valid()
      modifies this
      ensures Valid() && old(position) <= position
      ensures With(r, position) == FactorAt(tokens, old(position))
      decreases |tokens| - position, 1
    {
      var current := CurrentToken();
      if current == Some(Keyword("draw")) {
        r := ParseDrawStatement();
      } else if current.Some? && current.value.kind == IDENTIFIER {
        var identifier := current.value.text;
        var eaten := Eat(IDENTIFIER);
        assert eaten.Pass?;
        r := Success(Leaf(Identifier, identifier));
      } else if current.Some? && current.value.kind == NUMBER {
        var number := current.value.text;
        var eaten := Eat(NUMBER);
        assert eaten.Pass?;
        r := Success(Leaf(Number, number));
      } else if current == Some(Symbol("(")) {
        var open := Eat(SPECIAL);
        assert open.Pass?;
        var expr :- ParseExpression();
        :- Eat(SPECIAL);
        r := Success(expr);
      } else {
        r := Failure(UnexpectedToken(current));
      }
    }

    /** Never called by the other productions. */
    method ParseImage() returns (r: Result<Node>)
      requires Valid()
      modifies this
      ensures Valid() && old(position) <= position
      ensures With(r, position) == ImageAt(tokens, old(position))
    {
      var current := CurrentToken();
      if current.None? {
        // the source reads the kind of the absent token here and crashes
        return Failure(NoCurrentToken);
      }
      if current.value.kind == IDENTIFIER {
        var identifier := current.value.text;
        var eaten := Eat(IDENTIFIER);
        assert eaten.Pass?;
        r := Success(Leaf(Identifier, identifier));
      } else {
        r := Failure(UnexpectedImageToken(current.value));
      }
    }

    method ParseNumber() returns (r: Result<string>)
      requires Valid()
      modifies this
      ensures Valid() && old(position) <= position
      ensures With(r, position) == NumberAt(tokens, old(position))
    {
      var current := CurrentToken();
      if current.None? {
        // the source reads the text of the absent token here and crashes
        return Failure(NoCurrentToken);
      }
      var number := current.value.text;
      :- Eat(NUMBER);
      r := Success(number);
    }

    method ParseGridContent() returns (r: Result<Node>)
      requires Valid()
      modifies this
      ensures Valid() && old(position) <= position
      ensures With(r, position) == GridContentAt(tokens, old(position))
    {
      ghost var p0 := position;
      var items: seq<Node> := [];
      PrefixedNothing(GridItemsAt(tokens, p0));
      while position < |tokens|
        invariant Valid() && p0 <= position
        invariant GridItemsAt(tokens, p0) == Prefixed(items, GridItemsAt(tokens, position))
        decreases |tokens| - position
      {
        var current := CurrentToken();
        if current.value.kind == KEYWORD {
          ghost var before := position;
          var parsed := ParseGridItem();
          if parsed.Failure? {
            GridItemsStop(tokens, before, parsed.error);
            return Failure(parsed.error);
          }
          var item := parsed.value;
          GridItemsStep(tokens, before, item, position);
          current := CurrentToken();
          if current == Some(Symbol(",")) {
            var comma := Eat(SPECIAL);
            assert comma.Pass?;
            PrefixedTwice(items, [item], GridItemsAt(tokens, position));
            items := items + [item];
          } else {
            items := items + [item];
            assert GridItemsAt(tokens, p0) == Success(Parsed(items, position));
            break;
          }
        } else {
          // a `)` or any other token ends the list
          assert GridItemsAt(tokens, p0) == Success(Parsed(items + [], position));
          break;
        }
      }
      assert items + [] == items;
      r := Success(Node(GridContent, None, items));
    }

    /** One item of a grid body, dispatched on its keyword. The grid content
        loop does this inline; it is a method of its own here so that the
        loop's proof does not carry the two productions it dispatches to. */
    method ParseGridItem() returns (r: Result<Node>)
      requires Valid() && KindAt(tokens, position, KEYWORD)
      modifies this
      ensures Valid() && old(position) <= position
      ensures With(r, position) == GridItemAt(tokens, old(position))
    {
      var current := CurrentToken();
      if current.value.text == "draw" {
        r := ParseDrawStatement();
      } else if current.value.text == "write" {
        r := ParseWriteStatement();
      } else {
        r := Failure(UnexpectedKeyword(current.value.text));
      }
    }

    method ParseGridStatement() returns (r: Result<Node>)
      requires Valid()
      modifies this
      ensures Valid() && old(position) <= position
      ensures With(r, position) == GridAt(tokens, old(position))
    {
      ghost var p0 := position;
      :- Eat(KEYWORD);
      :- Eat(SPECIAL);
      var rows :- ParseNumber();
      :- Eat(SPECIAL);
      var cols :- ParseNumber();
      :- Eat(SPECIAL);
      var content :- ParseGridContent();
      :- Eat(SPECIAL);
      r := Success(Node(GridStatement, Some(Pair(rows, cols)), [content]));
    }
  }

  /** Parse a whole token sequence with a fresh parser. */
  method Parse(ts: seq<Token>) returns (r: Result<Node>)
    ensures With(r, |ts|) == ProgramAt(ts, 0)
  {
    var parser := new Parser(ts);
    r := parser.ParseProgram();
  }
}
