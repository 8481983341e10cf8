# A verified model of the drawing-language parser

The system is a recursive-descent parser for a small drawing language. It
reads a list of `(kind, text)` tokens and builds a tree of nodes, each with
a type tag, an optional value and an ordered list of children. The language
has three kinds of statement: `draw(e)`, `write(e)` and
`grid(rows, cols, item, item, ...)`. It also has bare parenthesized
expressions and `;`. An expression is a chain of factors joined by operator
tokens. A factor is an identifier, a number, a nested `draw(...)` or a
parenthesized expression.

The model has these parts:

- **`Ast`** (`ast.dfy`). The tree as an immutable datatype `Node(tag, value, children)`.
  - Well-formedness predicates say which shapes each production builds.
  - `Render` is the node's rendering, `type(value): [child, ...]`.
- **`HeapAst`** (`heap_ast.dfy`). The same node as a mutable object with an append-only child list.
  - It is used to state the one thing a value cannot express: the self-child that the expression production creates as written.
- **`Grammar`** (`grammar.dfy`). Every production as a pure function `XAt(ts, p)`.
  - It returns the parsed value and the position after it, or the error the parse stops with.
  - `NoCurrentToken` stands for the crash (not a syntax error) of reading an absent token.
- **`Parsing`** (`parser.dfy`). The parser as a class with an immutable token sequence and a mutable `position`.
  - There is one method per production, with the loops of the source.
  - Each method is proved to produce what the `Grammar` function of the same production gives at the cursor's starting position.
- **`Printer` and `Spelling`** (`printer.dfy`, `spelling.dfy`). A printer from well-formed trees back to tokens.
  - Position-based predicates say that a tree's tokens stand at position `p`.
- **`RoundTrip`** (`roundtrip.dfy`). Parsing the printed tokens of any well-formed expression, statement or program gives back the tree.
- **`Shapes`** (`shapes.dfy`). What any successful parse builds is well-formed.
  - It also proves which errors each production can stop with.
- **`Properties`** (`properties.dfy`). Further properties:
  - one `Expression` node per operator token;
  - the idle `+` loop of the write statement;
  - the skipped `;`;
  - small programs that show the edges of the language.

Together, `RoundTrip` and `Shapes` say that the trees the parser can produce are exactly the well-formed trees, and that in them operator chains lean to the left. They do not say that every accepted token sequence is the printed form of a tree. `a + ( b )` reads as the tree printed `a + b`, and `draw , x ;` is accepted because symbols are eaten by kind alone.

## Model

| member | source | states |
|---|---|---|
| Ast.Render | parser.py:14-21 | a rendering starts with the type name and `(`, and ends with `]` |
| Ast.RenderAll | parser.py:20 | the joined rendering of the children is empty exactly when there are no children |
| Ast.NoSelfChild | parser.py:131-133 | no tree value is among its own children, so the self-child built at these lines has no value counterpart |
| HeapAst.AstNode.constructor | parser.py:2-5 | a new node has the given type and value and no children |
| HeapAst.AstNode.AddChild | parser.py:7-8 | the child is appended at the end; type and value are unchanged |
| HeapAst.FoldAsWritten | parser.py:131-133 | the new operator node's children are itself and the right factor; when the right operand is a different node (as it always is in the parser), the previous left operand is not among them |
| HeapAst.FoldAsIntended | parser.py:105-108 | the new operator node's children are the previous left operand and the right operand, and the node is not its own child |
| HeapAst.SumAsWritten | parser.py:120-137 | for `a + b` as written, the `+` node's children are itself and `b`, and `a` is lost |
| Grammar.Current | parser.py:29-30 | the current token exists exactly when the position is inside the tokens, and it is the token there |
| Grammar.EatAt | parser.py:32-37 | eating succeeds exactly when a current token of the given kind exists, and then moves one token on; otherwise it fails with the expected kind and the token found |
| Grammar.DrawAt | parser.py:76-91 | a draw statement consumes at least four tokens |
| Grammar.FactorAt | parser.py:140-163 | a factor consumes at least one token |
| Grammar.ExpressionAt | parser.py:120-137 | an expression consumes at least one token |
| Grammar.ExprTailAt | parser.py:123-135 | the operator loop never moves back |
| Grammar.WriteAt | parser.py:94-117 | a write statement consumes at least four tokens |
| Grammar.WriteTailAt | parser.py:102-108 | the `+` loop never moves back |
| Grammar.NumberAt | parser.py:175-178 | a number succeeds exactly on a Number token, returning its text; it crashes at end of input and otherwise fails as an `eat` of Number |
| Grammar.ImageAt | parser.py:166-173 | an image succeeds exactly on an Identifier token, giving an Identifier leaf; it crashes at end of input and otherwise fails with the offending token |
| Grammar.GridItemsAt | parser.py:183-202 | the item loop never moves back |
| Grammar.GridItemsStep | parser.py:186-198 | after one item, the list continues past a comma and ends otherwise |
| Grammar.GridItemAt | parser.py:186-192 | an item consumes at least one token |
| Grammar.GridContentAt | parser.py:180-204 | grid content never moves back |
| Grammar.GridAt | parser.py:207-220 | a grid statement consumes at least seven tokens |
| Grammar.StatementAt | parser.py:47-73 | a statement consumes at least one token, and it yields no node exactly on `;` |
| Grammar.StatementsAt | parser.py:41-44 | a successful statement loop ends at the end of the tokens |
| Grammar.ProgramAt | parser.py:39-45 | a successful program ends at the end of the tokens |
| Parsing.Parser.constructor | parser.py:25-27 | the cursor starts at position 0 over the given tokens |
| Parsing.Parser.CurrentToken | parser.py:29-30 | the result is the token under the cursor, or none past the end |
| Parsing.Parser.Eat | parser.py:32-37 | succeeds exactly on a current token of the given kind (text not compared); on success the position moves by exactly one, on failure it stays and the error names the kind and the token found |
| Parsing.Parser.ParseProgram | parser.py:39-45 | the result and final position are those of `ProgramAt` from the starting position; on success the cursor is at the end of the tokens |
| Parsing.Parser.ParseStatement | parser.py:47-73 | the result and final position are those of `StatementAt` |
| Parsing.Parser.ParseDrawStatement | parser.py:76-91 | the result and final position are those of `DrawAt` |
| Parsing.Parser.ParseWriteStatement | parser.py:94-117 | the result and final position are those of `WriteAt`, with the `+` loop as written |
| Parsing.Parser.ParseExpression | parser.py:120-137 | the result and final position are those of `ExpressionAt` |
| Parsing.Parser.ParseFactor | parser.py:140-163 | the result and final position are those of `FactorAt` |
| Parsing.Parser.ParseImage | parser.py:166-173 | the result and final position are those of `ImageAt` |
| Parsing.Parser.ParseNumber | parser.py:175-178 | the result and final position are those of `NumberAt` |
| Parsing.Parser.ParseGridContent | parser.py:180-204 | the result and final position are those of `GridContentAt` |
| Parsing.Parser.ParseGridItem | parser.py:186-192 | the result and final position are those of `GridItemAt`: a draw or a write statement, or an unexpected-keyword failure |
| Parsing.Parser.ParseGridStatement | parser.py:207-220 | the result and final position are those of `GridAt` |
| Parsing.Parse | parser.py:25-45 | a fresh parser's program parse is `ProgramAt` from position 0 |
| Printer.ExprTokens | parser.py:140-163 | the tokens of an expression are never empty and never start with an operator |
| Printer.StatementTokens | parser.py:47-73 | the tokens of a statement are never empty and never start with an operator |
| RoundTrip.FactorRoundTrip | parser.py:140-163 | a factor's tokens parse back to that factor |
| RoundTrip.ParenRoundTrip | parser.py:156-160 | `( e )` parses as a factor to `e`, with no wrapper node |
| RoundTrip.HeadRoundTrip | parser.py:121 | the first factor parse of an expression reads its leftmost factor |
| RoundTrip.ExprTailRoundTrip | parser.py:123-135 | the operator loop rebuilds a chain with each new node taking everything so far as its left child |
| RoundTrip.ExpressionRoundTrip | parser.py:120-137 | an expression's tokens, followed by anything but an operator, parse back to the expression |
| RoundTrip.ExprTokensRoundTrip | parser.py:120-137 | the printed tokens of any well-formed expression parse back to it, consuming them all |
| RoundTrip.WriteRoundTrip | parser.py:94-117 | a write statement's tokens parse back to it |
| RoundTrip.ItemRoundTrip | parser.py:186-192 | a grid item's tokens start with a keyword and parse back to the item |
| RoundTrip.ItemsRoundTrip | parser.py:183-202 | comma-separated items followed by `)` parse back to the items, in order |
| RoundTrip.GridRoundTrip | parser.py:207-220 | a grid statement's tokens parse back to it |
| RoundTrip.StatementRoundTrip | parser.py:47-73 | a statement's tokens, followed by anything but an operator, parse back to it |
| RoundTrip.StatementsRoundTrip | parser.py:41-44 | a sequence of statements' tokens parses back to those statements |
| RoundTrip.ProgramRoundTrip | parser.py:39-45 | every well-formed program is what the parser reads from its printed tokens |
| Shapes.DrawShape | parser.py:76-91 | a draw statement yields a well-formed `Draw` node with one expression child; it fails only with a syntax error about a token |
| Shapes.FactorShape | parser.py:140-163 | a factor is a well-formed expression; it fails only with a syntax error about a token; a token other than `draw`, an identifier, a number or `(`, or the end of input, fails as an unexpected token |
| Shapes.ExpressionShape | parser.py:120-137 | an expression is well-formed and no operator follows it; it fails only with a syntax error about a token |
| Shapes.ExprTailShape | parser.py:123-135 | the operator loop stops only where no operator follows, and keeps a well-formed accumulator well-formed |
| Shapes.WriteTailShape | parser.py:102-108 | the `+` loop keeps a well-formed accumulator well-formed |
| Shapes.WriteShape | parser.py:94-117 | a write statement yields a `WriteStatement` node with one expression child |
| Shapes.GridItemShape | parser.py:186-192 | a grid item is a draw or a write statement; it fails as an unexpected keyword exactly when its keyword is neither `draw` nor `write` |
| Shapes.GridItemsShape | parser.py:183-202 | every collected grid item is a draw or a write statement |
| Shapes.GridShape | parser.py:207-220 | a grid statement has the two number texts as its value and one `GridContent` child of draw and write items |
| Shapes.StatementShape | parser.py:47-73 | a statement's node is well-formed; it fails as unknown exactly on a keyword other than `draw`, `grid` and `write`; a token that is not a keyword, `(` or `;` fails as an unexpected token; it crashes only at end of input or in a grid statement |
| Shapes.StatementsShape | parser.py:41-44 | every collected statement is well-formed, and a crash implies a `grid` keyword in the tokens |
| Shapes.ProgramShape | parser.py:39-45 | whatever the parser accepts is a well-formed program, and it can crash only when a `grid` keyword occurs |
| Properties.DrawCount | parser.py:76-91 | a draw statement has as many `Expression` nodes as it took operator tokens |
| Properties.FactorCount | parser.py:140-163 | a factor has as many `Expression` nodes as it took operator tokens |
| Properties.ExpressionCount | parser.py:120-137 | an expression has as many `Expression` nodes as it took operator tokens, nested ones included |
| Properties.ExprTailCount | parser.py:123-135 | each round of the operator loop adds one `Expression` node for one operator token |
| Properties.WriteLoopIdle | parser.py:102-108 | the write statement's `+` loop never runs, because the expression before it has taken every operator |
| Properties.SemicolonSkipped | parser.py:68-71 | a `;` adds no node to the program |
| Properties.DrawByKindOnly | parser.py:80-87 | any two special symbols serve as a draw statement's parentheses, so `draw , x ;` reads as `draw(x)` |
| Properties.LeftAssociative | parser.py:123-135 | `a o1 b o2 c` reads as `(a o1 b) o2 c` |
| Properties.GridExample | parser.py:207-220 | `grid(2, 3, write(y))` reads as a grid with value `("2", "3")` over one write item |
| Properties.GridMissingComma | parser.py:195-198 | without a comma the item list ends, and the grid's closing `eat` fails on the next `draw` |
| Properties.UnclosedDraw | parser.py:87 | `draw(x` fails where the `)` is due, with nothing found |
| Properties.UnknownKeyword | parser.py:60-61 | `erase(x)` fails as an unknown statement |
| Properties.GridCrash | parser.py:176 | `grid(` crashes at the missing number rather than failing with a syntax error |

## Left out

- Debug output: the `print` calls in the statement production (parser.py:52, 55, 58, 65) and the write production (parser.py:95, 116) are console output, and nothing reads them.
- Recursion depth: the productions recurse on nested parentheses and draws, and Python stops such recursion after about a thousand frames with a RecursionError. The model's recursion is unbounded, so deeply nested input that the source rejects with that error parses in the model and round-trips in `RoundTrip.ProgramRoundTrip`.
- Error messages: failures are the `Err` datatype, which carries the expected kind, the offending token or the keyword. The formatted message text is not modelled.
- Rendering of shared or cyclic nodes: `Ast.Render` is plain structural recursion over values. The identity-keyed visited set only changes the output for a node reached twice, and a value tree has no such node.
- Ast.ValueText: a text payload is rendered as the text itself, and a pair as `('r', 'c')`. Python's quoting of texts that contain quotes or backslashes is not modelled.
- Grammar.DrawAt: the production requires a `draw` keyword at the cursor. The source falls through and returns `None` otherwise, but every caller dispatches on that keyword first, so the fall-through is never reached.
- Parsing.Parser.ParseExpression: it builds the left-leaning fold of the write statement's `+` loop, not the self-child of the source. See Findings.
- Python truthiness: `if statement:` at parser.py:43 is modelled as a test for an absent node. A node has no other falsy form.
- The lexer and any user of the tree are not part of this model. The tokens are an input sequence of `(kind, text)` pairs.

## Findings

| source | as written | input that shows it | evidently intended | confidence | as-written member | corrected member |
|---|---|---|---|---|---|---|
| parser.py:131-133 | `left` is rebound to the new operator node before `left.add_child(left)`, so the node becomes its own first child and the previous left operand is dropped | `a + b`: the `+` node's children are the `+` node itself and `b` | the previous left operand as first child, as the write statement's loop does at parser.py:105-108 | high; not executed | HeapAst.FoldAsWritten | Grammar.ExprTailAt |

`HeapAst.SumAsWritten` exhibits the input. `RoundTrip.ExprTailRoundTrip` and `Properties.LeftAssociative` prove the intended left-leaning chain about the corrected `Grammar.ExprTailAt`. `Parsing.Parser.ParseExpression` implements the corrected fold.
