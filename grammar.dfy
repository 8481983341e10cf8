/** The drawing language's grammar as pure functions over an immutable
    token sequence.

    Each production `XAt(ts, p)` parses from position `p` and yields either
    the parsed value together with the position after it, or the error at
    which the parse stops. Failures are fail-fast: nothing is returned but
    the error. These functions are the reference that the imperative parser
    in module Parsing is proved against. */
module Grammar {
  import opened Ast

  /** A token as the lexer hands it over: its kind and its text. Kinds are
      plain strings; the parser compares them against the names below. */
  datatype Token = Token(kind: string, text: string)

  const KEYWORD := "Keyword"
  const IDENTIFIER := "Identifier"
  const NUMBER := "Number"
  const OPERATOR := "Operator"
  const SPECIAL := "SpecialSymbol"

  function Symbol(text: string): Token { Token(SPECIAL, text) }
  function Keyword(text: string): Token { Token(KEYWORD, text) }

  /** Why a parse stops. All but `NoCurrentToken` are syntax errors;
      `NoCurrentToken` is the crash of reading the kind or text of an
      absent token (at end of input). */
  datatype Err =
    | Expected(kind: string, found: Option<Token>)
    | UnknownStatement(keyword: string)
    | UnexpectedToken(found: Option<Token>)
    | UnexpectedImageToken(token: Token)
    | UnexpectedKeyword(keyword: string)
    | NoCurrentToken
  {
    predicate IsSyntaxError() { !NoCurrentToken? }
  }

  datatype Result<+T> = Success(value: T) | Failure(error: Err) {
    predicate IsFailure() { Failure? }
    function PropagateFailure<U>(): Result<U>
      requires Failure?
    {
      Failure(error)
    }
    function Extract(): T
      requires Success?
    {
      value
    }
  }

  /** Success or failure without a value, as the cursor primitive `eat` reports it. */
  datatype Outcome = Pass | Fail(error: Err) {
    predicate IsFailure() { Fail? }
    function PropagateFailure<U>(): Result<U>
      requires Fail?
    {
      Failure(error)
    }
  }

  /** The outcome of consuming one token: the position after it, or the
      error. */
  datatype Step = Next(pos: nat) | Stop(error: Err) {
    predicate IsFailure() { Stop? }
    function PropagateFailure<U>(): Result<U>
      requires Stop?
    {
      Failure(error)
    }
    function Extract(): nat
      requires Next?
    {
      pos
    }
  }

  /** A parsed value and the position just after the tokens it took. */
  datatype Parsed<+T> = Parsed(val: T, next: nat)

  /** The result of an imperative production, `r`, together with where its
      cursor ended, in the form the grammar functions report it. */
  function With<T>(r: Result<T>, p: nat): Result<Parsed<T>> {
    match r
    case Success(v) => Success(Parsed(v, p))
    case Failure(e) => Failure(e)
  }

  /** `kids` put in front of the list a parse produced. */
  function Prefixed(kids: seq<Node>, r: Result<Parsed<seq<Node>>>): Result<Parsed<seq<Node>>> {
    match r
    case Success(Parsed(s, q)) => Success(Parsed(kids + s, q))
    case Failure(e) => Failure(e)
  }

  lemma PrefixedNothing(r: Result<Parsed<seq<Node>>>)
    ensures Prefixed([], r) == r
  {
    if r.Success? {
      assert [] + r.value.val == r.value.val;
    }
  }

  lemma PrefixedTwice(kids: seq<Node>, more: seq<Node>, r: Result<Parsed<seq<Node>>>)
    ensures Prefixed(kids, Prefixed(more, r)) == Prefixed(kids + more, r)
  {
    if r.Success? {
      assert kids + (more + r.value.val) == (kids + more) + r.value.val;
    }
  }

  // ---------------------------------------------------------------------
  // Cursor primitives

  function Current(ts: seq<Token>, p: nat): (t: Option<Token>)
    ensures t.Some? <==> p < |ts|
    ensures t.Some? ==> t.value == ts[p]
  {
    if p < |ts| then Some(ts[p]) else None
  }

  predicate KindAt(ts: seq<Token>, p: nat, kind: string) {
    p < |ts| && ts[p].kind == kind
  }

  predicate TokenAt(ts: seq<Token>, p: nat, t: Token) {
    p < |ts| && ts[p] == t
  }

  /** Consume one token of the given kind; its text is not looked at. */
  function EatAt(ts: seq<Token>, p: nat, kind: string): (r: Step)
    ensures r.Next? <==> KindAt(ts, p, kind)
    ensures r.Next? ==> r.pos == p + 1
    ensures r.Stop? ==> r.error == Expected(kind, Current(ts, p))
  {
    if KindAt(ts, p, kind) then Next(p + 1) else Stop(Expected(kind, Current(ts, p)))
  }

  // ---------------------------------------------------------------------
  // Expressions
  //
  // The four productions below are mutually recursive; the measure is the
  // number of tokens left, then a rank (Draw < Factor < Expression < tail).

  /** `"draw" "(" Expression ")"`, entered only on a `draw` keyword. */
  function DrawAt(ts: seq<Token>, p: nat): (r: Result<Parsed<Node>>)
    requires TokenAt(ts, p, Keyword("draw"))
    ensures r.Success? ==> p + 4 <= r.value.next <= |ts|
    decreases |ts| - p, 0
  {
    var p2 :- EatAt(ts, p + 1, SPECIAL);
    var e :- ExpressionAt(ts, p2);
    var p3 :- EatAt(ts, e.next, SPECIAL);
    Success(Parsed(Node(Draw, None, [e.val]), p3))
  }

  /** A nested draw, an identifier, a number, or `"(" Expression ")"`; the
      parentheses leave no node behind. */
  function FactorAt(ts: seq<Token>, p: nat): (r: Result<Parsed<Node>>)
    requires p <= |ts|
    ensures r.Success? ==> p < r.value.next <= |ts|
    decreases |ts| - p, 1
  {
    if TokenAt(ts, p, Keyword("draw")) then
      DrawAt(ts, p)
    else if KindAt(ts, p, IDENTIFIER) then
      Success(Parsed(Leaf(Identifier, ts[p].text), p + 1))
    else if KindAt(ts, p, NUMBER) then
      Success(Parsed(Leaf(Number, ts[p].text), p + 1))
    else if TokenAt(ts, p, Symbol("(")) then
      var e :- ExpressionAt(ts, p + 1);
      var q :- EatAt(ts, e.next, SPECIAL);
      Success(Parsed(e.val, q))
    else
      Failure(UnexpectedToken(Current(ts, p)))
  }

  /** `Factor (Operator Factor)*`, folded to the left. */
  function ExpressionAt(ts: seq<Token>, p: nat): (r: Result<Parsed<Node>>)
    requires p <= |ts|
    ensures r.Success? ==> p < r.value.next <= |ts|
    decreases |ts| - p, 2
  {
    var f :- FactorAt(ts, p);
    ExprTailAt(ts, f.val, f.next)
  }

  /** The operator loop of an expression: while an operator follows, take it
      and one more factor, and make a new `Expression` node whose left child
      is everything parsed so far and whose right child is the new factor. */
  function ExprTailAt(ts: seq<Token>, left: Node, p: nat): (r: Result<Parsed<Node>>)
    requires p <= |ts|
    ensures r.Success? ==> p <= r.value.next <= |ts|
    decreases |ts| - p, 3
  {
    if KindAt(ts, p, OPERATOR) then
      var right :- FactorAt(ts, p + 1);
      ExprTailAt(ts, Node(Expression, Some(Text(ts[p].text)), [left, right.val]), right.next)
    else
      Success(Parsed(left, p))
  }

  // ---------------------------------------------------------------------
  // Statements

  /** `"write" "(" Expression ("+" Expression)* ")"`. The keyword is eaten by
      kind only. */
  function WriteAt(ts: seq<Token>, p: nat): (r: Result<Parsed<Node>>)
    requires p <= |ts|
    ensures r.Success? ==> p + 4 <= r.value.next <= |ts|
  {
    var p1 :- EatAt(ts, p, KEYWORD);
    var p2 :- EatAt(ts, p1, SPECIAL);
    var e :- ExpressionAt(ts, p2);
    var t :- WriteTailAt(ts, e.val, e.next);
    var p3 :- EatAt(ts, t.next, SPECIAL);
    Success(Parsed(Node(WriteStatement, None, [t.val]), p3))
  }

  /** The `+` loop of a write statement, folded to the left. */
  function WriteTailAt(ts: seq<Token>, acc: Node, p: nat): (r: Result<Parsed<Node>>)
    requires p <= |ts|
    ensures r.Success? ==> p <= r.value.next <= |ts|
    decreases |ts| - p
  {
    if TokenAt(ts, p, Token(OPERATOR, "+")) then
      var right :- ExpressionAt(ts, p + 1);
      WriteTailAt(ts, Node(Expression, Some(Text("+")), [acc, right.val]), right.next)
    else
      Success(Parsed(acc, p))
  }

  /** The text of a number token; crashes at end of input. */
  function NumberAt(ts: seq<Token>, p: nat): (r: Result<Parsed<string>>)
    requires p <= |ts|
    ensures r.Success? <==> KindAt(ts, p, NUMBER)
    ensures r.Success? ==> r.value == Parsed(ts[p].text, p + 1)
    ensures r.Failure? ==> r.error == if p == |ts| then NoCurrentToken else Expected(NUMBER, Some(ts[p]))
  {
    if p == |ts| then Failure(NoCurrentToken)
    else
      var q :- EatAt(ts, p, NUMBER);
      Success(Parsed(ts[p].text, q))
  }

  /** An identifier leaf; the production exists but nothing calls it. */
  function ImageAt(ts: seq<Token>, p: nat): (r: Result<Parsed<Node>>)
    requires p <= |ts|
    ensures r.Success? <==> KindAt(ts, p, IDENTIFIER)
    ensures r.Success? ==> r.value == Parsed(Leaf(Identifier, ts[p].text), p + 1)
    ensures r.Failure? ==> r.error == if p == |ts| then NoCurrentToken else UnexpectedImageToken(ts[p])
  {
    if p == |ts| then Failure(NoCurrentToken)
    else if ts[p].kind == IDENTIFIER then
      Success(Parsed(Leaf(Identifier, ts[p].text), p + 1))
    else
      Failure(UnexpectedImageToken(ts[p]))
  }

  /** The items of a grid body: draw or write statements separated by
      commas. A missing comma, a `)`, any other token or the end of input
      ends the list without an error; only a keyword other than `draw` or
      `write` where an item is due fails. */
  function GridItemsAt(ts: seq<Token>, p: nat): (r: Result<Parsed<seq<Node>>>)
    requires p <= |ts|
    ensures r.Success? ==> p <= r.value.next <= |ts|
    decreases |ts| - p
  {
    if KindAt(ts, p, KEYWORD) then
      var item :- GridItemAt(ts, p);
      if TokenAt(ts, item.next, Symbol(",")) then
        Prefixed([item.val], GridItemsAt(ts, item.next + 1))
      else
        Success(Parsed([item.val], item.next))
    else
      Success(Parsed([], p))
  }

  /** One step of the item list: an item, then either a comma and more
      items or the end of the list. */
  lemma GridItemsStep(ts: seq<Token>, p: nat, item: Node, q: nat)
    requires KindAt(ts, p, KEYWORD) && GridItemAt(ts, p) == Success(Parsed(item, q))
    ensures q <= |ts|
    ensures GridItemsAt(ts, p) ==
      if TokenAt(ts, q, Symbol(",")) then Prefixed([item], GridItemsAt(ts, q + 1))
      else Success(Parsed([item], q))
  {
  }

  /** An item that fails fails the whole list. */
  lemma GridItemsStop(ts: seq<Token>, p: nat, e: Err)
    requires KindAt(ts, p, KEYWORD) && GridItemAt(ts, p) == Failure(e)
    ensures GridItemsAt(ts, p) == Failure(e)
  {
  }

  /** One item of a grid body, dispatched on its keyword. */
  function GridItemAt(ts: seq<Token>, p: nat): (r: Result<Parsed<Node>>)
    requires KindAt(ts, p, KEYWORD)
    ensures r.Success? ==> p < r.value.next <= |ts|
  {
    if ts[p].text == "draw" then DrawAt(ts, p)
    else if ts[p].text == "write" then WriteAt(ts, p)
    else Failure(UnexpectedKeyword(ts[p].text))
  }

  function GridContentAt(ts: seq<Token>, p: nat): (r: Result<Parsed<Node>>)
    requires p <= |ts|
    ensures r.Success? ==> p <= r.value.next <= |ts|
  {
    var items :- GridItemsAt(ts, p);
    Success(Parsed(Node(GridContent, None, items.val), items.next))
  }

  /** `"grid" "(" Number "," Number "," GridContent ")"`; the payload is the
      pair of the two number texts. Every symbol is eaten by kind only. */
  function GridAt(ts: seq<Token>, p: nat): (r: Result<Parsed<Node>>)
    requires p <= |ts|
    ensures r.Success? ==> p + 7 <= r.value.next <= |ts|
  {
    var p1 :- EatAt(ts, p, KEYWORD);
    var p2 :- EatAt(ts, p1, SPECIAL);
    var rows :- NumberAt(ts, p2);
    var p3 :- EatAt(ts, rows.next, SPECIAL);
    var cols :- NumberAt(ts, p3);
    var p4 :- EatAt(ts, cols.next, SPECIAL);
    var content :- GridContentAt(ts, p4);
    var p5 :- EatAt(ts, content.next, SPECIAL);
    Success(Parsed(Node(GridStatement, Some(Pair(rows.val, cols.val)), [content.val]), p5))
  }

  /** Dispatch on the current token. A `;` is eaten and yields no node. */
  function StatementAt(ts: seq<Token>, p: nat): (r: Result<Parsed<Option<Node>>>)
    requires p <= |ts|
    ensures r.Success? ==> p < r.value.next <= |ts|
    ensures r.Success? && r.value.val.None? <==> TokenAt(ts, p, Symbol(";"))
  {
    if p == |ts| then
      Failure(NoCurrentToken)
    else if ts[p].kind == KEYWORD then
      var s :-
        if ts[p].text == "draw" then DrawAt(ts, p)
        else if ts[p].text == "grid" then GridAt(ts, p)
        else if ts[p].text == "write" then WriteAt(ts, p)
        else Failure(UnknownStatement(ts[p].text));
      Success(Parsed(Some(s.val), s.next))
    else if ts[p] == Symbol("(") then
      var e :- ExpressionAt(ts, p);
      Success(Parsed(Some(e.val), e.next))
    else if ts[p] == Symbol(";") then
      Success(Parsed(None, p + 1))
    else
      Failure(UnexpectedToken(Some(ts[p])))
  }

  /** Statements until the tokens are exhausted; the nodes of those that
      yield one, in order. */
  function StatementsAt(ts: seq<Token>, p: nat): (r: Result<Parsed<seq<Node>>>)
    requires p <= |ts|
    ensures r.Success? ==> r.value.next == |ts|
    decreases |ts| - p
  {
    if p < |ts| then
      var s :- StatementAt(ts, p);
      Prefixed(if s.val.Some? then [s.val.value] else [], StatementsAt(ts, s.next))
    else
      Success(Parsed([], p))
  }

  /** The whole program: a `Program` root over the top-level statements. */
  function ProgramAt(ts: seq<Token>, p: nat): (r: Result<Parsed<Node>>)
    requires p <= |ts|
    ensures r.Success? ==> r.value.next == |ts|
  {
    var kids :- StatementsAt(ts, p);
    Success(Parsed(Node(Program, None, kids.val), kids.next))
  }
}
