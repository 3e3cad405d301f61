# jlox parser and runtime objects, in Dafny

This project models three parts of the jlox interpreter.

- **The recursive-descent parser** (`Parser.java`) turns a token list into statements. It holds a
  `current` cursor that only moves forward, and it reports syntax errors through `Lox.error`.
  A parse error unwinds to `declaration`, which recovers with `synchronize` (panic mode) and
  yields `null` for that declaration.
- **Class instances** (`LoxInstance.java`): a class and a table of fields, with `get`, `set` and
  `toString`.
- **User functions** (`runtime/LoxFunction.java`): a declaration and the environment it closes
  over, with `arity`, `bind`, `call` and `toString`.

Modules:

- `Tokens` (tokens.dfy) holds token kinds, tokens, the messages of syntax errors, the "where"
  part of an error report, and the first end-of-input token of a list.
- `Ast` (ast.dfy) holds expression and statement trees.
- `Grammar` (grammar.dfy) gives the expression rules as pure functions over the token list and a
  parser state `PState(pos, log)`. The position is the cursor; the log holds the syntax errors
  reported so far. Each rule returns a `Step`: an outcome (`Done(value)`, or `Failed` in place of
  the thrown `ParseError`) and the new state. The four binary levels (equality, comparison, term,
  factor) share one definition parameterised by a `Level`. The operators of each level are
  exactly the ones its `match` call lists.
- `Statements` (statements.dfy) models the statement rules, panic-mode recovery and `parse` in
  the same way.
- `LoxParser` (parser.dfy) is the parser itself: a class with the `tokens`, the `current` cursor
  and the error log as fields. Each method has the loops and branches of its Java method. Each
  is proved to leave the parser exactly where the rule of the same name in `Grammar` or
  `Statements` says, with the same result. The `Valid` invariant says the cursor stands inside
  the list and has not passed the first end-of-input token. Every method preserves it.
- `RoundTrip` (roundtrip.dfy) holds the main theorem about the expression rules. Take any tree
  of the shape the rules build, in tokens that spell it (`SpelledAt`) and followed by end of
  input. `expression` parses those tokens back into exactly that tree, without reporting an
  error, and stops at the end of input. A spelling has no parentheses other than the tree's own
  groupings. So the theorem fixes precedence and associativity: operators group to the left
  within a level, tighter levels nest below looser ones, and assignment nests to the right.
- `StatementRoundTrip` (statement_roundtrip.dfy) carries the theorem over to statements.
  `print e ;`, `e ;`, `var x ;` and `var x = e ;`, for any spelled expression `e`, parse to the
  statement around exactly `e`, with no error, and stop behind the ";". It also states what
  `declaration` makes of a statement that parses and of one that fails.
- `Scenarios` (scenarios.dfy) works out six inputs for any tokens of the given kinds. Four are
  expressions: `a - b - c`, `a + b * c`, `a = b = c`, and the invalid target `a + b = c`. Two
  are programs with a syntax error, where panic-mode recovery takes over: `print ; var x ;` and
  an unclosed `{`.
- `Runtime` (runtime.dfy) holds values, instances with their field tables, and functions with
  their closures.

Where the code and its own grammar comment disagree, the model follows the code:

- the comment says `expression → equality`, while the code goes through `assignment`;
- `primary` also accepts an identifier.

`Parser.java` refers to the same-package `Expr` and `Stmt` classes, which have no variable,
assignment, `var` or block nodes. The trees here take the shapes of `ast/Expr.java` and
`ast/Stmt.java`, which have all the nodes the parser builds.

## Model

| member | source | states |
|---|---|---|
| Tokens.FirstEof | jlox/src/main/java/com/chabao18/interpreter/jlox/Parser.java:189-191 | the position where `isAtEnd` first holds: it is in the list and holds the end-of-input token |
| Tokens.BeforeFirstEof | jlox/src/main/java/com/chabao18/interpreter/jlox/Parser.java:189-191 | no token before that position is the end-of-input token |
| Tokens.Text | jlox/src/main/java/com/chabao18/interpreter/jlox/Parser.java:57-278 | the message strings `error` is given at lines 57, 149, 152, 242, 247, 263, 269 and 278. Each is a sentence that ends in a full stop |
| Tokens.TextDistinct | jlox/src/main/java/com/chabao18/interpreter/jlox/Parser.java:57-278 | no two messages have the same text |
| Tokens.Where | jlox/src/main/java/com/chabao18/interpreter/jlox/Lox.java:76-82 | an error at the end-of-input token is reported "at end"; at any other token, "at '" then the token's lexeme then "'" |
| Grammar.Check | jlox/src/main/java/com/chabao18/interpreter/jlox/Parser.java:175-180 | `check` never holds at end of input; elsewhere it holds exactly when the current token has the kind |
| Grammar.Advance | jlox/src/main/java/com/chabao18/interpreter/jlox/Parser.java:182-187 | the cursor moves by one, except on the end-of-input token, where it stays; it stays inside the list |
| Grammar.AtEndMeans | jlox/src/main/java/com/chabao18/interpreter/jlox/Parser.java:189-191 | for a cursor that has not passed the first end-of-input token, `isAtEnd` holds exactly when the cursor is on that token |
| Grammar.IsAtEnd | jlox/src/main/java/com/chabao18/interpreter/jlox/Parser.java:189-191 | defined as: the current token is the end-of-input token. `Grammar.AtEndMeans` ties it to the first such token |
| Grammar.Match | jlox/src/main/java/com/chabao18/interpreter/jlox/Parser.java:158-166 | defined as: the kinds, tried in order, check at the cursor. `match` then advances; `Grammar.MatchMeans` states the result |
| Grammar.MatchFrom | jlox/src/main/java/com/chabao18/interpreter/jlox/Parser.java:158-166 | defined as: the loop of `match` from the i-th kind on. `Grammar.MatchFromMeans` states the result |
| Grammar.MatchFromMeans | jlox/src/main/java/com/chabao18/interpreter/jlox/Parser.java:158-166 | the loop from the i-th kind on succeeds exactly when the current token is not end of input and has one of the remaining kinds |
| Grammar.MatchMeans | jlox/src/main/java/com/chabao18/interpreter/jlox/Parser.java:158-166 | trying the kinds in order succeeds exactly when the current token is not end of input and has one of the kinds |
| Grammar.MatchOne | jlox/src/main/java/com/chabao18/interpreter/jlox/Parser.java:158-166 | `match` with a single kind is `check` of that kind |
| Grammar.MatchTwo | jlox/src/main/java/com/chabao18/interpreter/jlox/Parser.java:158-166 | `match` with two kinds is `check` of either one |
| Grammar.Consume | jlox/src/main/java/com/chabao18/interpreter/jlox/Parser.java:168-173 | succeeds exactly when `check` holds. It then returns the current token, which has the expected kind, and moves past it. Otherwise it reports the message at the current token and does not move |
| Grammar.OperatorsOfLevel | jlox/src/main/java/com/chabao18/interpreter/jlox/Parser.java:65-112 | the kinds each binary level's `match` lists are exactly the operators of that level |
| Grammar.OperatorTables | jlox/src/main/java/com/chabao18/interpreter/jlox/Parser.java:65-125 | an operator of a level or of a tighter level is one or the other, never both. What binds tighter than a level is what binds at least as tight as the next level. Neither "=" nor "!" is a binary operator |
| Grammar.OperandShape | jlox/src/main/java/com/chabao18/interpreter/jlox/Parser.java:65-125 | an operand of a level holds only operators of tighter levels at its root, or else it is a unary tree |
| Grammar.LevelShape | jlox/src/main/java/com/chabao18/interpreter/jlox/Parser.java:65-125 | a tree of a level has an operator of that level or a tighter one at its root, or else it is a unary tree |
| Grammar.Loosen | jlox/src/main/java/com/chabao18/interpreter/jlox/Parser.java:65-112 | a tree the rule of a tighter level builds is also a tree of the next looser level |
| Grammar.OperandAtLevel | jlox/src/main/java/com/chabao18/interpreter/jlox/Parser.java:65-112 | an operand of a level is also a tree of that level (a chain with no operator) |
| Grammar.EqualityIsExpression | jlox/src/main/java/com/chabao18/interpreter/jlox/Parser.java:48-60 | what `equality` builds is an expression, and when it is a variable its name is an identifier token |
| Grammar.ParsePrimary | jlox/src/main/java/com/chabao18/interpreter/jlox/Parser.java:131-153 | `primary` stays inside the list and only appends errors. A success consumes at least one token and is a literal, a variable or a grouping; a failure has reported an error |
| Grammar.ParseGrouping | jlox/src/main/java/com/chabao18/interpreter/jlox/Parser.java:147-151 | the grouping alternative consumes at least one token when it succeeds, and it yields a Grouping node |
| Grammar.PrimaryByMatch | jlox/src/main/java/com/chabao18/interpreter/jlox/Parser.java:131-153 | `primary` is the chain of `match` calls, in the source's order: false, true, nil, number or string, identifier, "(", else "Expect expression." at the current token |
| Grammar.ParseUnary | jlox/src/main/java/com/chabao18/interpreter/jlox/Parser.java:118-125 | `unary` consumes at least one token on success and builds a chain of "!" and "-" over a primary; on failure it has reported an error |
| Grammar.ParseOperand | jlox/src/main/java/com/chabao18/interpreter/jlox/Parser.java:65-112 | the operand rule of a level builds an operand of that level |
| Grammar.BinaryLoop | jlox/src/main/java/com/chabao18/interpreter/jlox/Parser.java:67-71 | the loop of a binary level only moves forward; if it started on a tree of its level, what it returns is one too |
| Grammar.ParseBinary | jlox/src/main/java/com/chabao18/interpreter/jlox/Parser.java:65-112 | `equality`, `comparison`, `term` and `factor`: a success consumes at least one token and is a tree of that level; a failure has reported an error |
| Grammar.ParseAssignment | jlox/src/main/java/com/chabao18/interpreter/jlox/Parser.java:40-60 | `expression` and `assignment` build an expression: assignments nested to the right, ending in an equality |
| Grammar.AssignmentWithoutEquals | jlox/src/main/java/com/chabao18/interpreter/jlox/Parser.java:48-50 | with no "=" after the equality, `assignment` returns that equality and state unchanged |
| Grammar.AssignmentToVariable | jlox/src/main/java/com/chabao18/interpreter/jlox/Parser.java:50-56 | a variable, "=" and a value parsed right-recursively make an assignment of that value to the variable's name |
| Grammar.AssignmentToOther | jlox/src/main/java/com/chabao18/interpreter/jlox/Parser.java:50-59 | any other target before "=" is reported as an invalid target at the "=" token, after the value has been parsed. The result is the target, and the parse does not fail |
| Grammar.FailedOperand | jlox/src/main/java/com/chabao18/interpreter/jlox/Parser.java:65-112 | a binary level fails, with the same state, when its first operand fails |
| Grammar.FailedTarget | jlox/src/main/java/com/chabao18/interpreter/jlox/Parser.java:48-49 | `assignment` fails, with the same state, when its equality fails |
| Grammar.NoUnaryAt | jlox/src/main/java/com/chabao18/interpreter/jlox/Parser.java:118-153 | at a token that is neither "!", "-" nor a primary's first token, `unary` fails at once. It reports "Expect expression." at that token and consumes nothing |
| Grammar.NoExpressionAt | jlox/src/main/java/com/chabao18/interpreter/jlox/Parser.java:40-153 | at a token no expression starts with (end of input among them), `expression` fails. It reports exactly one error, "Expect expression." at that token, and consumes nothing |
| Statements.SyncPoint | jlox/src/main/java/com/chabao18/interpreter/jlox/Parser.java:208-227 | defined as the three places `synchronize` stops: end of input, just after ";", or on one of the keywords `StatementStarts` lists (class, fun, var, for, if, while, print, return) |
| Statements.SyncLoop | jlox/src/main/java/com/chabao18/interpreter/jlox/Parser.java:210-226 | the loop stops at the first position where a statement may begin: end of input, just after ";", or on a statement keyword. It stops at no earlier position |
| Statements.Synchronize | jlox/src/main/java/com/chabao18/interpreter/jlox/Parser.java:208-227 | `synchronize` discards the current token and stops at the first point after it where a statement may begin. Unless it starts at end of input, it strictly advances |
| Statements.ParseVarDeclaration | jlox/src/main/java/com/chabao18/interpreter/jlox/Parser.java:241-249 | on success it consumes tokens and builds a `var` statement whose name is an identifier and whose optional initializer is an expression; on failure it has reported an error |
| Statements.ParsePrintStatement | jlox/src/main/java/com/chabao18/interpreter/jlox/Parser.java:261-265 | on success it consumes tokens and builds a print statement of an expression; on failure it has reported an error |
| Statements.ParseExpressionStatement | jlox/src/main/java/com/chabao18/interpreter/jlox/Parser.java:267-271 | on success it consumes tokens and builds an expression statement; on failure it has reported an error |
| Statements.ParseStatement | jlox/src/main/java/com/chabao18/interpreter/jlox/Parser.java:251-259 | on success it consumes tokens and builds a well-shaped statement; on failure it has reported an error |
| Statements.TryDeclaration | jlox/src/main/java/com/chabao18/interpreter/jlox/Parser.java:230-234 | the guarded part of `declaration` consumes tokens on success and builds a well-shaped statement; on failure it has reported an error |
| Statements.ParseDeclaration | jlox/src/main/java/com/chabao18/interpreter/jlox/Parser.java:229-239 | `declaration` never fails and only moves forward. Unless it starts at end of input, it consumes a token. Giving up (null) means an error was reported; otherwise the statement is well shaped |
| Statements.BlockLoop | jlox/src/main/java/com/chabao18/interpreter/jlox/Parser.java:275-277 | the loop of `block` stops on "}" or at end of input, and every statement it parsed is well shaped |
| Statements.ParseBlock | jlox/src/main/java/com/chabao18/interpreter/jlox/Parser.java:273-280 | `block` consumes tokens on success and every statement in it is well shaped; on failure it has reported an error |
| Statements.ProgramLoop | jlox/src/main/java/com/chabao18/interpreter/jlox/Parser.java:31-33 | the loop of `parse` stops at end of input, and every statement it parsed is well shaped |
| Statements.ParseProgram | jlox/src/main/java/com/chabao18/interpreter/jlox/Parser.java:29-35 | `parse` reaches the end-of-input token, and every statement it returns is well shaped |
| Statements.BlockCounts | jlox/src/main/java/com/chabao18/interpreter/jlox/Parser.java:273-280 | a block has at least as many reported errors as declarations it gave up on |
| Statements.ProgramCounts | jlox/src/main/java/com/chabao18/interpreter/jlox/Parser.java:29-35 | a program has at most one declaration per token before end of input, and at least as many reported errors as declarations given up on |
| Statements.ProgramLoopCounts | jlox/src/main/java/com/chabao18/interpreter/jlox/Parser.java:31-33 | the loop of `parse` only appends to its list, at most one entry per token it consumes. It reports at least as many new errors as entries it gives up on |
| Statements.BlockLoopCounts | jlox/src/main/java/com/chabao18/interpreter/jlox/Parser.java:275-277 | the loop of `block` only appends to its list, at most one entry per token it consumes. It reports at least as many new errors as entries it gives up on |
| LoxParser.Parser.constructor | jlox/src/main/java/com/chabao18/interpreter/jlox/Parser.java:22-27 | the parser starts on the first token with no errors reported |
| LoxParser.Parser.Parse | jlox/src/main/java/com/chabao18/interpreter/jlox/Parser.java:29-35 | the loop returns exactly the declarations and state of `Statements.ProgramLoop` from the state it starts in. From a fresh parser those are `Statements.ParseProgram`'s |
| LoxParser.Parser.Expression | jlox/src/main/java/com/chabao18/interpreter/jlox/Parser.java:40-42 | result and new cursor and log are those of `Grammar.ParseAssignment` |
| LoxParser.Parser.Assignment | jlox/src/main/java/com/chabao18/interpreter/jlox/Parser.java:48-60 | result and new state are those of `Grammar.ParseAssignment` |
| LoxParser.Parser.Equality | jlox/src/main/java/com/chabao18/interpreter/jlox/Parser.java:65-73 | the while loop yields the result and state of `Grammar.ParseBinary` at the equality level |
| LoxParser.Parser.Comparison | jlox/src/main/java/com/chabao18/interpreter/jlox/Parser.java:78-86 | the while loop yields the result and state of `Grammar.ParseBinary` at the comparison level |
| LoxParser.Parser.Term | jlox/src/main/java/com/chabao18/interpreter/jlox/Parser.java:91-99 | the while loop yields the result and state of `Grammar.ParseBinary` at the term level |
| LoxParser.Parser.Factor | jlox/src/main/java/com/chabao18/interpreter/jlox/Parser.java:104-112 | the while loop yields the result and state of `Grammar.ParseBinary` at the factor level |
| LoxParser.Parser.Unary | jlox/src/main/java/com/chabao18/interpreter/jlox/Parser.java:118-125 | result and new state are those of `Grammar.ParseUnary` |
| LoxParser.Parser.Primary | jlox/src/main/java/com/chabao18/interpreter/jlox/Parser.java:131-153 | result and new state are those of `Grammar.ParsePrimary` |
| LoxParser.Parser.Match | jlox/src/main/java/com/chabao18/interpreter/jlox/Parser.java:158-166 | the loop over the kinds answers `Grammar.Match` and advances by one exactly when it answers true |
| LoxParser.Parser.Consume | jlox/src/main/java/com/chabao18/interpreter/jlox/Parser.java:168-173 | result and new state are those of `Grammar.Consume` |
| LoxParser.Parser.Check | jlox/src/main/java/com/chabao18/interpreter/jlox/Parser.java:175-180 | agrees with `Grammar.Check` at the cursor |
| LoxParser.Parser.Advance | jlox/src/main/java/com/chabao18/interpreter/jlox/Parser.java:182-187 | moves the cursor as `Grammar.Advance` says and returns the token just behind the new cursor |
| LoxParser.Parser.IsAtEnd | jlox/src/main/java/com/chabao18/interpreter/jlox/Parser.java:189-191 | holds exactly when the cursor stands on the first end-of-input token |
| LoxParser.Parser.Error | jlox/src/main/java/com/chabao18/interpreter/jlox/Parser.java:203-206 | appends exactly one syntax error, for the token and message given, to the log |
| LoxParser.Parser.Synchronize | jlox/src/main/java/com/chabao18/interpreter/jlox/Parser.java:208-227 | the loop leaves the cursor where `Statements.Synchronize` stops |
| LoxParser.Parser.Declaration | jlox/src/main/java/com/chabao18/interpreter/jlox/Parser.java:229-239 | result and new state are those of `Statements.ParseDeclaration` |
| LoxParser.Parser.VarDeclaration | jlox/src/main/java/com/chabao18/interpreter/jlox/Parser.java:241-249 | result and new state are those of `Statements.ParseVarDeclaration` |
| LoxParser.Parser.Statement | jlox/src/main/java/com/chabao18/interpreter/jlox/Parser.java:251-259 | result and new state are those of `Statements.ParseStatement` |
| LoxParser.Parser.PrintStatement | jlox/src/main/java/com/chabao18/interpreter/jlox/Parser.java:261-265 | result and new state are those of `Statements.ParsePrintStatement` |
| LoxParser.Parser.ExpressionStatement | jlox/src/main/java/com/chabao18/interpreter/jlox/Parser.java:267-271 | result and new state are those of `Statements.ParseExpressionStatement` |
| LoxParser.Parser.Block | jlox/src/main/java/com/chabao18/interpreter/jlox/Parser.java:273-280 | the while loop yields the result and state of `Statements.ParseBlock` |
| RoundTrip.LiteralRoundTrip | jlox/src/main/java/com/chabao18/interpreter/jlox/Parser.java:132-143 | on a token that writes a literal, `primary` returns that literal and moves past the token |
| RoundTrip.GroupingRoundTrip | jlox/src/main/java/com/chabao18/interpreter/jlox/Parser.java:147-151 | on "(", a spelled expression and ")", `primary` returns the grouping and stops behind the ")" |
| RoundTrip.PrimaryRoundTrip | jlox/src/main/java/com/chabao18/interpreter/jlox/Parser.java:131-153 | `primary` returns every spelled primary tree and stops right behind its tokens |
| RoundTrip.UnaryRoundTrip | jlox/src/main/java/com/chabao18/interpreter/jlox/Parser.java:118-125 | `unary` returns every spelled unary tree and stops right behind its tokens |
| RoundTrip.OperandRoundTrip | jlox/src/main/java/com/chabao18/interpreter/jlox/Parser.java:65-112 | the operand rule of a level returns every spelled operand of that level, provided the next token binds no tighter |
| RoundTrip.LoopRoundTrip | jlox/src/main/java/com/chabao18/interpreter/jlox/Parser.java:67-71 | the loop of a level runs through a spelled chain of operators and operands. It continues behind them with the chain grafted, left-nested, onto the tree it was given |
| RoundTrip.LevelRoundTrip | jlox/src/main/java/com/chabao18/interpreter/jlox/Parser.java:65-112 | each binary level returns every spelled tree of its shape, with operators nested to the left, provided the next token is no operator of that level or a tighter one |
| RoundTrip.AssignmentRoundTrip | jlox/src/main/java/com/chabao18/interpreter/jlox/Parser.java:48-60 | `assignment` returns every spelled expression without reporting an error, provided the next token is neither "=" nor a binary operator |
| RoundTrip.AssignRoundTrip | jlox/src/main/java/com/chabao18/interpreter/jlox/Parser.java:50-56 | `assignment` returns a spelled right-nested chain of assignments to variables |
| RoundTrip.ParseSpelled | jlox/src/main/java/com/chabao18/interpreter/jlox/Parser.java:40-153 | from the first token, `expression` parses any spelled expression followed by end of input back into that tree, with no errors, and stops on the end-of-input token |
| RoundTrip.ChainParts | jlox/src/main/java/com/chabao18/interpreter/jlox/Parser.java:65-112 | a chain of a level splits into its leftmost operand and a tail; the widths add up, and putting the operand back gives the chain |
| StatementRoundTrip.ExpressionBeforeSemicolon | jlox/src/main/java/com/chabao18/interpreter/jlox/Parser.java:40-60 | a spelled expression followed by ";" is returned by `expression`, with no error, up to the ";"; it begins with a token an expression can start with |
| StatementRoundTrip.PrintValue | jlox/src/main/java/com/chabao18/interpreter/jlox/Parser.java:261-265 | an expression followed by ";" completes a print statement of that expression, behind the ";" |
| StatementRoundTrip.ExpressionValue | jlox/src/main/java/com/chabao18/interpreter/jlox/Parser.java:267-271 | an expression followed by ";" completes an expression statement of it, behind the ";" |
| StatementRoundTrip.StatementByKind | jlox/src/main/java/com/chabao18/interpreter/jlox/Parser.java:251-259 | `statement` takes the print rule on "print"; on any token but "print" and "{" it takes the expression-statement rule |
| StatementRoundTrip.PrintRoundTrip | jlox/src/main/java/com/chabao18/interpreter/jlox/Parser.java:251-265 | "print", a spelled expression and ";" parse to the print statement of exactly that expression, with no error, stopping behind the ";" |
| StatementRoundTrip.ExpressionStatementRoundTrip | jlox/src/main/java/com/chabao18/interpreter/jlox/Parser.java:251-271 | a spelled expression and ";" parse to the expression statement of exactly that expression, with no error, stopping behind the ";" |
| StatementRoundTrip.VarDeclared | jlox/src/main/java/com/chabao18/interpreter/jlox/Parser.java:229-234 | on "var", `declaration` yields the variable declaration parsed behind it, with its state |
| StatementRoundTrip.VarRoundTrip | jlox/src/main/java/com/chabao18/interpreter/jlox/Parser.java:229-249 | "var", a name and ";" declare that name with no initializer, with no error, stopping behind the ";" |
| StatementRoundTrip.VarInitValue | jlox/src/main/java/com/chabao18/interpreter/jlox/Parser.java:241-249 | a name, "=", an expression and ";" complete a variable declaration of that name with that initializer |
| StatementRoundTrip.VarInitRoundTrip | jlox/src/main/java/com/chabao18/interpreter/jlox/Parser.java:229-249 | "var", a name, "=", a spelled expression and ";" declare the name with exactly that initializer, with no error, stopping behind the ";" |
| StatementRoundTrip.StatementDeclared | jlox/src/main/java/com/chabao18/interpreter/jlox/Parser.java:229-237 | a statement not led by "var" that `statement` parses is what `declaration` yields, with the same state |
| StatementRoundTrip.StatementGivenUp | jlox/src/main/java/com/chabao18/interpreter/jlox/Parser.java:229-239 | a statement not led by "var" that `statement` fails on is given up on: `declaration` yields null, keeps the errors, and resumes where `synchronize` stops |
| Scenarios.SubtractionGroupsLeft | jlox/src/main/java/com/chabao18/interpreter/jlox/Parser.java:91-99 | `a - b - c` parses to `(a - b) - c` and stops on the end-of-input token |
| Scenarios.ProductBindsTighter | jlox/src/main/java/com/chabao18/interpreter/jlox/Parser.java:91-112 | `a + b * c` parses to `a + (b * c)` |
| Scenarios.AssignmentNestsRight | jlox/src/main/java/com/chabao18/interpreter/jlox/Parser.java:48-56 | `a = b = c` parses to `a = (b = c)` |
| Scenarios.InvalidTargetReported | jlox/src/main/java/com/chabao18/interpreter/jlox/Parser.java:48-60 | `a + b = c` yields `a + b`, consumes all five tokens, and logs exactly one error: "Invalid assignment target." at the "=" |
| Scenarios.RecoveryAfterMissingExpression | jlox/src/main/java/com/chabao18/interpreter/jlox/Parser.java:29-35 | `print ; var x ;` gives a null declaration, then `var x`. There is the one error "Expect expression." at the first ";", and the parse ends on the end-of-input token |
| Scenarios.UnclosedBlock | jlox/src/main/java/com/chabao18/interpreter/jlox/Parser.java:273-280 | a lone `{` gives one null declaration and the one error "Expect '}' after block." at the end-of-input token |
| Runtime.LoxInstance.constructor | jlox/src/main/java/com/chabao18/interpreter/jlox/LoxInstance.java:6-12 | a new instance of the class has no fields |
| Runtime.LoxInstance.ToString | jlox/src/main/java/com/chabao18/interpreter/jlox/LoxInstance.java:14-17 | the class name followed by " instance" |
| Runtime.LoxInstance.Get | jlox/src/main/java/com/chabao18/interpreter/jlox/LoxInstance.java:19-25 | succeeds exactly when a field of the token's name exists, and then yields its value. Otherwise it is a runtime error at that token, saying "Undefined property '<name>'." |
| Runtime.LoxInstance.Set | jlox/src/main/java/com/chabao18/interpreter/jlox/LoxInstance.java:27-29 | stores the value under the token's name. Reading that name back yields the value, every other field keeps its value, and the class is unchanged |
| Runtime.UndefinedProperty | jlox/src/main/java/com/chabao18/interpreter/jlox/LoxInstance.java:24 | the message is "Undefined property '", then the name, then "'." |
| Runtime.LoxFunction.constructor | jlox/src/main/java/com/chabao18/interpreter/jlox/runtime/LoxFunction.java:13-16 | keeps the declaration and the closure |
| Runtime.LoxFunction.Arity | jlox/src/main/java/com/chabao18/interpreter/jlox/runtime/LoxFunction.java:25-28 | the number of declared parameters |
| Runtime.LoxFunction.Bind | jlox/src/main/java/com/chabao18/interpreter/jlox/runtime/LoxFunction.java:18-22 | a new function with the same declaration and arity. Its closure is a new environment inside the old one that binds exactly "this" to the instance |
| Runtime.LoxFunction.Call | jlox/src/main/java/com/chabao18/interpreter/jlox/runtime/LoxFunction.java:30-47 | the body runs in a new environment inside the closure, not the caller's. It binds the parameters as `Bindings` says; with distinct names, each one is bound to the argument at its position. The call yields the returned value, or nil when the body completes normally. A runtime error the body raises passes out of the call unchanged |
| Runtime.LoxFunction.ToString | jlox/src/main/java/com/chabao18/interpreter/jlox/runtime/LoxFunction.java:49-52 | "<fn ", then the function's name, then ">" |
| Runtime.Bindings | jlox/src/main/java/com/chabao18/interpreter/jlox/runtime/LoxFunction.java:35-37 | defining the parameters one after another binds exactly the parameters' names |
| Runtime.LastBindingWins | jlox/src/main/java/com/chabao18/interpreter/jlox/runtime/LoxFunction.java:35-37 | a parameter that no later parameter shadows is bound to the argument at its position |
| Runtime.DistinctBindings | jlox/src/main/java/com/chabao18/interpreter/jlox/runtime/LoxFunction.java:35-37 | with distinct parameter names, every parameter is bound to the argument at its position |
| Runtime.Environment.Define | jlox/src/main/java/com/chabao18/interpreter/jlox/runtime/LoxFunction.java:20 | binds the name in this scope, replacing an earlier binding of it |

## Left out

- Printing of syntax errors: `Lox.error` prints a report and sets `hadError`. The model appends
  a `SyntaxError` (token and message) to the parser's log instead. `Tokens.Text` gives the
  message strings, and `Tokens.Where` the "at ..." part of the report. The row and column
  formatting of the printed line is not modelled.
- Exceptions: the thrown `ParseError` is the `Failed` outcome. How a function body ends is the
  `Completion` that `LoxFunction.Call` receives. The `Return` exception is `Returned`, and any
  runtime error the body raises is `Raised`. `call` catches only `Return`, so it passes
  `Raised` out as a `Failure`.
- Running a function body: `interpreter.executeBlock` is not part of this model.
  `LoxFunction.Call` receives how the body completed as its `completion` parameter, and returns
  the new environment it ran the body in.
- `Environment` and `LoxClass` are not part of this model beyond the least they need: a scope is
  a table of names with an optional enclosing scope and `define`, and a class is its name.
- Numbers and literal objects: a token's `Object` literal is a `LiteralValue`; numbers are
  opaque `real`s, and nothing computes with them.
- Statement kinds the parser does not build (functions, classes, `if`, `while`, `for`,
  `return`) are not modelled; `FunctionDecl` has only what `LoxFunction` uses.
- LoxFunction.Call: requires at least as many arguments as parameters. The Java code would fail
  on `arguments.get(i)` otherwise; its callers check the arity first.
- LoxParser.Parser.Advance: requires that the cursor is not both on the first token and at end
  of input, because `previous()` would then read before the list. `LoxParser.Parser.Synchronize`
  and `LoxParser.Parser.Declaration` carry the same requirement, and every caller meets it.
- Peek and Previous (`Parser.java:194-201`) are the plain reads `tokens[current]` and
  `tokens[current - 1]`. They are helpers of the class's methods and have no contract of their own.
- The round trip covers trees in their spelled form. For inputs that contain a syntax error, the
  model gives the exact result of every rule (the `Grammar` and `Statements` functions, which
  the class's methods match), plus the counting properties of `Statements`. It proves no round
  trip for those inputs.
