/**
 * The recursive-descent parser: a token list, a cursor that only moves
 * forward, and the log of the syntax errors it reported. Every method is
 * proved to compute exactly what the rule of the same name in modules
 * Grammar and Statements computes, which is where the properties of the
 * parse are proved.
 *
 * The `hide` statement at the head of a proof keeps the solver from unfolding
 * the definitions that proof does not need, which keeps it small; it changes
 * nothing that is proved.
 */
module LoxParser {
  import opened Tokens
  import opened Ast
  import opened Grammar
  import opened Statements

  class Parser {
    const tokens: seq<Token>
    var current: nat
    /** The errors reported so far, in order (the driver prints them as they come). */
    var errors: seq<SyntaxError>

    /** The cursor never passes the end-of-input token, so it always indexes the list. */
    ghost predicate Valid()
      reads this
    {
      WellFormed(tokens) && Inside(tokens, current)
    }

    /** The state the grammar functions take and return. */
    function State(): PState
      reads this
    {
      PState(current, errors)
    }

    constructor (tokens: seq<Token>)
      requires WellFormed(tokens)
      ensures Valid() && this.tokens == tokens && current == 0 && errors == []
    {
      this.tokens := tokens;
      current := 0;
      errors := [];
    }

    /** `parse`: declarations until end of input, None for each one given up on. */
    method Parse() returns (statements: seq<Option<Stmt>>)
      requires Valid()
      modifies this
      ensures Valid()
      ensures Declarations(statements, State()) == ProgramLoop(tokens, old(State()), [])
      ensures old(current) == 0 && old(errors) == [] ==>
        Declarations(statements, State()) == ParseProgram(tokens)
    {
      hide Grammar.Match, Grammar.MatchFrom, Grammar.Check, Grammar.Consume, Grammar.Advance, Consumes, Progress, IsPrimary, IsUnary, IsOperand, AtLevel, IsExpression, IsStatement, AllStatements, CountFailed, ParseAssignment, ParseBinary, ParseOperand, BinaryLoop, ParseUnary, ParsePrimary, ParseGrouping, ParseVarDeclaration, ParsePrintStatement, ParseExpressionStatement, ParseStatement, ParseDeclaration, BlockLoop, ParseBlock, Statements.Synchronize, SyncLoop;
      statements := [];
      while !IsAtEnd()
        invariant Valid()
        invariant ProgramLoop(tokens, State(), statements) == ProgramLoop(tokens, old(State()), [])
        decreases |tokens| - current
      {
        var d := Declaration();
        statements := statements + [d];
      }
    }

    /** `expression`. */
    method Expression() returns (r: Outcome<Expr>)
      requires Valid()
      modifies this
      ensures Valid() && Step(r, State()) == ParseAssignment(tokens, old(State()))
      decreases |tokens| - current, 21
    {
      hide Grammar.Match, Grammar.MatchFrom, Grammar.Check, Grammar.Consume, Grammar.Advance, Consumes, Progress, IsPrimary, IsUnary, IsOperand, AtLevel, IsExpression, IsStatement, AllStatements, CountFailed, ParseAssignment, ParseBinary, ParseOperand, BinaryLoop, ParseUnary, ParsePrimary, ParseGrouping, ParseVarDeclaration, ParsePrintStatement, ParseExpressionStatement, ParseStatement, ParseDeclaration, BlockLoop, ParseBlock, ProgramLoop, ParseProgram, Statements.Synchronize, SyncLoop;
      r := Assignment();
    }

    /** `assignment`. */
    method Assignment() returns (r: Outcome<Expr>)
      requires Valid()
      modifies this
      ensures Valid() && Step(r, State()) == ParseAssignment(tokens, old(State()))
      decreases |tokens| - current, 20
    {
      hide Grammar.Match, Grammar.MatchFrom, Grammar.Check, Grammar.Consume, Grammar.Advance, IsPrimary, IsUnary, IsOperand, AtLevel, IsExpression, IsStatement, AllStatements, CountFailed, ParseBinary, ParseOperand, BinaryLoop, ParseUnary, ParsePrimary, ParseGrouping, ParseVarDeclaration, ParsePrintStatement, ParseExpressionStatement, ParseStatement, ParseDeclaration, BlockLoop, ParseBlock, ProgramLoop, ParseProgram, Statements.Synchronize, SyncLoop;
      var target := Equality();
      if target.Failed? {
        return Failed;
      }
      var expr := target.value;
      MatchOne(tokens, current, Equal);
      var matched := Match([Equal]);
      if matched {
        var equals := Previous();
        var value := Assignment();
        if value.Failed? {
          return Failed;
        }
        if expr.Variable? {
          return Done(Assign(expr.name, value.value));
        }
        Error(equals, InvalidAssignmentTarget);
      }
      return Done(expr);
    }

    /** `equality`. */
    method Equality() returns (r: Outcome<Expr>)
      requires Valid()
      modifies this
      ensures Valid() && Step(r, State()) == ParseBinary(tokens, EqualityLevel, old(State()))
      decreases |tokens| - current, 13
    {
      hide Grammar.Match, Grammar.MatchFrom, Grammar.Check, Grammar.Consume, Grammar.Advance, IsPrimary, IsUnary, IsOperand, AtLevel, IsExpression, IsStatement, AllStatements, CountFailed, ParseAssignment, ParseUnary, ParsePrimary, ParseGrouping, ParseVarDeclaration, ParsePrintStatement, ParseExpressionStatement, ParseStatement, ParseDeclaration, BlockLoop, ParseBlock, ProgramLoop, ParseProgram, Statements.Synchronize, SyncLoop;
      var first := Comparison();
      if first.Failed? {
        return Failed;
      }
      var expr := first.value;
      while true
        invariant Valid() && old(current) <= current
        invariant BinaryLoop(tokens, EqualityLevel, expr, State()) == ParseBinary(tokens, EqualityLevel, old(State()))
        decreases |tokens| - current
      {
        var matched := Match([BangEqual, EqualEqual]);
        if !matched {
          break;
        }
        var operator := Previous();
        var right := Comparison();
        if right.Failed? {
          return Failed;
        }
        expr := Binary(expr, operator, right.value);
      }
      return Done(expr);
    }

    /** `comparison`. */
    method Comparison() returns (r: Outcome<Expr>)
      requires Valid()
      modifies this
      ensures Valid() && Step(r, State()) == ParseBinary(tokens, ComparisonLevel, old(State()))
      decreases |tokens| - current, 10
    {
      hide Grammar.Match, Grammar.MatchFrom, Grammar.Check, Grammar.Consume, Grammar.Advance, IsPrimary, IsUnary, IsOperand, AtLevel, IsExpression, IsStatement, AllStatements, CountFailed, ParseAssignment, ParseUnary, ParsePrimary, ParseGrouping, ParseVarDeclaration, ParsePrintStatement, ParseExpressionStatement, ParseStatement, ParseDeclaration, BlockLoop, ParseBlock, ProgramLoop, ParseProgram, Statements.Synchronize, SyncLoop;
      var first := Term();
      if first.Failed? {
        return Failed;
      }
      var expr := first.value;
      while true
        invariant Valid() && old(current) <= current
        invariant BinaryLoop(tokens, ComparisonLevel, expr, State()) == ParseBinary(tokens, ComparisonLevel, old(State()))
        decreases |tokens| - current
      {
        var matched := Match([Greater, GreaterEqual, Less, LessEqual]);
        if !matched {
          break;
        }
        var operator := Previous();
        var right := Term();
        if right.Failed? {
          return Failed;
        }
        expr := Binary(expr, operator, right.value);
      }
      return Done(expr);
    }

    /** `term`. */
    method Term() returns (r: Outcome<Expr>)
      requires Valid()
      modifies this
      ensures Valid() && Step(r, State()) == ParseBinary(tokens, TermLevel, old(State()))
      decreases |tokens| - current, 7
    {
      hide Grammar.Match, Grammar.MatchFrom, Grammar.Check, Grammar.Consume, Grammar.Advance, IsPrimary, IsUnary, IsOperand, AtLevel, IsExpression, IsStatement, AllStatements, CountFailed, ParseAssignment, ParseUnary, ParsePrimary, ParseGrouping, ParseVarDeclaration, ParsePrintStatement, ParseExpressionStatement, ParseStatement, ParseDeclaration, BlockLoop, ParseBlock, ProgramLoop, ParseProgram, Statements.Synchronize, SyncLoop;
      var first := Factor();
      if first.Failed? {
        return Failed;
      }
      var expr := first.value;
      while true
        invariant Valid() && old(current) <= current
        invariant BinaryLoop(tokens, TermLevel, expr, State()) == ParseBinary(tokens, TermLevel, old(State()))
        decreases |tokens| - current
      {
        var matched := Match([Minus, Plus]);
        if !matched {
          break;
        }
        var operator := Previous();
        var right := Factor();
        if right.Failed? {
          return Failed;
        }
        expr := Binary(expr, operator, right.value);
      }
      return Done(expr);
    }

    /** `factor`. */
    method Factor() returns (r: Outcome<Expr>)
      requires Valid()
      modifies this
      ensures Valid() && Step(r, State()) == ParseBinary(tokens, FactorLevel, old(State()))
      decreases |tokens| - current, 4
    {
      hide Grammar.Match, Grammar.MatchFrom, Grammar.Check, Grammar.Consume, Grammar.Advance, IsPrimary, IsUnary, IsOperand, AtLevel, IsExpression, IsStatement, AllStatements, CountFailed, ParseAssignment, ParseUnary, ParsePrimary, ParseGrouping, ParseVarDeclaration, ParsePrintStatement, ParseExpressionStatement, ParseStatement, ParseDeclaration, BlockLoop, ParseBlock, ProgramLoop, ParseProgram, Statements.Synchronize, SyncLoop;
      var first := Unary();
      if first.Failed? {
        return Failed;
      }
      var expr := first.value;
      while true
        invariant Valid() && old(current) <= current
        invariant BinaryLoop(tokens, FactorLevel, expr, State()) == ParseBinary(tokens, FactorLevel, old(State()))
        decreases |tokens| - current
      {
        var matched := Match([Slash, Star]);
        if !matched {
          break;
        }
        var operator := Previous();
        var right := Unary();
        if right.Failed? {
          return Failed;
        }
        expr := Binary(expr, operator, right.value);
      }
      return Done(expr);
    }

    /** `unary`. */
    method Unary() returns (r: Outcome<Expr>)
      requires Valid()
      modifies this
      ensures Valid() && Step(r, State()) == ParseUnary(tokens, old(State()))
      decreases |tokens| - current, 1
    {
      hide Grammar.Match, Grammar.MatchFrom, Grammar.Check, Grammar.Consume, Grammar.Advance, Consumes, Progress, IsPrimary, IsUnary, IsOperand, AtLevel, IsExpression, IsStatement, AllStatements, CountFailed, ParseAssignment, ParseBinary, ParseOperand, BinaryLoop, ParsePrimary, ParseGrouping, ParseVarDeclaration, ParsePrintStatement, ParseExpressionStatement, ParseStatement, ParseDeclaration, BlockLoop, ParseBlock, ProgramLoop, ParseProgram, Statements.Synchronize, SyncLoop;
      var matched := Match([Bang, Minus]);
      if matched {
        var operator := Previous();
        var right := Unary();
        if right.Failed? {
          return Failed;
        }
        return Done(Expr.Unary(operator, right.value));
      }
      r := Primary();
    }

    /** `primary`. */
    method Primary() returns (r: Outcome<Expr>)
      requires Valid()
      modifies this
      ensures Valid() && Step(r, State()) == ParsePrimary(tokens, old(State()))
      decreases |tokens| - current, 0
    {
      hide Grammar.Match, Grammar.MatchFrom, Grammar.Check, Grammar.Consume, Grammar.Advance, Consumes, Progress, IsPrimary, IsUnary, IsOperand, AtLevel, IsExpression, IsStatement, AllStatements, CountFailed, ParseAssignment, ParseBinary, ParseOperand, BinaryLoop, ParseUnary, ParsePrimary, ParseVarDeclaration, ParsePrintStatement, ParseExpressionStatement, ParseStatement, ParseDeclaration, BlockLoop, ParseBlock, ProgramLoop, ParseProgram, Statements.Synchronize, SyncLoop;
      PrimaryByMatch(tokens, State());
      var matched := Match([False]);
      if matched {
        return Done(Literal(BoolLiteral(false)));
      }
      matched := Match([True]);
      if matched {
        return Done(Literal(BoolLiteral(true)));
      }
      matched := Match([Nil]);
      if matched {
        return Done(Literal(NilLiteral));
      }
      matched := Match([Number, String]);
      if matched {
        return Done(Literal(Previous().literal));
      }
      matched := Match([Identifier]);
      if matched {
        return Done(Variable(Previous()));
      }
      matched := Match([LeftParen]);
      if matched {
        var inner := Expression();
        if inner.Failed? {
          return Failed;
        }
        var close := Consume(RightParen, ExpectRightParen);
        if close.Failed? {
          return Failed;
        }
        return Done(Grouping(inner.value));
      }
      Error(Peek(), ExpectExpression);
      return Failed;
    }

    /** `match`: try the kinds in order; on the first that checks, advance and say so. */
    method Match(kinds: seq<TokenType>) returns (matched: bool)
      requires Valid()
      modifies this`current
      ensures Valid()
      ensures matched == Grammar.Match(tokens, old(current), kinds)
      ensures current == if matched then old(current) + 1 else old(current)
    {
      for i := 0 to |kinds|
        invariant current == old(current)
        invariant Grammar.Match(tokens, current, kinds) == MatchFrom(tokens, current, kinds, i)
      {
        if Check(kinds[i]) {
          var _ := Advance();
          return true;
        }
      }
      return false;
    }

    /** `consume`. */
    method Consume(kind: TokenType, message: Message) returns (r: Outcome<Token>)
      requires Valid()
      modifies this
      ensures Valid() && Step(r, State()) == Grammar.Consume(tokens, old(State()), kind, message)
    {
      if Check(kind) {
        var token := Advance();
        return Done(token);
      }
      Error(Peek(), message);
      return Failed;
    }

    /** `check`. */
    function Check(kind: TokenType): (r: bool)
      requires Valid()
      reads this
      ensures r == Grammar.Check(tokens, current, kind)
    {
      if IsAtEnd() then false else Peek().kind == kind
    }

    /** `advance`: move past the current token unless it is the end of input; return the previous token. */
    method Advance() returns (previous: Token)
      requires Valid() && (current > 0 || !IsAtEnd())
      modifies this`current
      ensures Valid()
      ensures current == Grammar.Advance(tokens, old(current))
      ensures previous == tokens[current - 1]
    {
      if !IsAtEnd() {
        current := current + 1;
      }
      previous := Previous();
    }

    /** `isAtEnd`: the cursor stands on the end-of-input token, which is the first one in the list. */
    predicate IsAtEnd(): (r: bool)
      requires Valid()
      reads this
      ensures r <==> current == FirstEof(tokens)
    {
      AtEndMeans(tokens, current);
      Peek().kind == Eof
    }

    /** `peek`: the token to be consumed. */
    function Peek(): Token
      requires Valid()
      reads this
    {
      tokens[current]
    }

    /** `previous`: the token consumed last. */
    function Previous(): Token
      requires Valid() && current > 0
      reads this
    {
      tokens[current - 1]
    }

    /** `error`: report a syntax error; the caller then fails. */
    method Error(token: Token, message: Message)
      modifies this`errors
      ensures errors == old(errors) + [SyntaxError(token, message)]
    {
      errors := errors + [SyntaxError(token, message)];
    }

    /** `synchronize`: panic-mode recovery after a syntax error. */
    method Synchronize()
      requires Valid() && (current > 0 || !IsAtEnd())
      modifies this`current
      ensures Valid()
      ensures current == Statements.Synchronize(tokens, old(current))
    {
      var _ := Advance();
      while !IsAtEnd()
        invariant Valid() && current > 0
        invariant SyncLoop(tokens, current) == Statements.Synchronize(tokens, old(current))
        decreases |tokens| - current
      {
        if Previous().kind == Semicolon {
          return;
        }
        if Peek().kind in StatementStarts {
          return;
        }
        var _ := Advance();
      }
    }

    /** `declaration`: on a parse error, recover and yield None. */
    method Declaration() returns (d: Option<Stmt>)
      requires Valid() && (current > 0 || !IsAtEnd())
      modifies this
      ensures Valid() && Declared(d, State()) == ParseDeclaration(tokens, old(State()))
      decreases |tokens| - current, 25
    {
      hide Grammar.Match, Grammar.MatchFrom, Grammar.Check, Grammar.Consume, Grammar.Advance, Consumes, Progress, IsPrimary, IsUnary, IsOperand, AtLevel, IsExpression, IsStatement, AllStatements, CountFailed, ParseAssignment, ParseBinary, ParseOperand, BinaryLoop, ParseUnary, ParsePrimary, ParseGrouping, ParseVarDeclaration, ParsePrintStatement, ParseExpressionStatement, ParseStatement, BlockLoop, ParseBlock, ProgramLoop, ParseProgram, Statements.Synchronize, SyncLoop;
      MatchOne(tokens, current, Var);
      var isVar := Match([Var]);
      var attempt: Outcome<Stmt>;
      if isVar {
        attempt := VarDeclaration();
      } else {
        attempt := Statement();
      }
      if attempt.Done? {
        return Some(attempt.value);
      }
      Synchronize();
      return None;
    }

    /** `varDeclaration`. */
    method VarDeclaration() returns (r: Outcome<Stmt>)
      requires Valid()
      modifies this
      ensures Valid() && Step(r, State()) == ParseVarDeclaration(tokens, old(State()))
      decreases |tokens| - current, 23
    {
      hide Grammar.Match, Grammar.MatchFrom, Grammar.Check, Grammar.Consume, Grammar.Advance, Consumes, Progress, IsPrimary, IsUnary, IsOperand, AtLevel, IsExpression, IsStatement, AllStatements, CountFailed, ParseAssignment, ParseBinary, ParseOperand, BinaryLoop, ParseUnary, ParsePrimary, ParseGrouping, ParsePrintStatement, ParseExpressionStatement, ParseStatement, ParseDeclaration, BlockLoop, ParseBlock, ProgramLoop, ParseProgram, Statements.Synchronize, SyncLoop;
      var name := Consume(Identifier, ExpectVariableName);
      if name.Failed? {
        return Failed;
      }
      var initializer: Option<Expr> := None;
      MatchOne(tokens, current, Equal);
      var matched := Match([Equal]);
      if matched {
        var e := Expression();
        if e.Failed? {
          return Failed;
        }
        initializer := Some(e.value);
      }
      var semi := Consume(Semicolon, ExpectSemicolonAfterVar);
      if semi.Failed? {
        return Failed;
      }
      return Done(VarStmt(name.value, initializer));
    }

    /** `statement`. */
    method Statement() returns (r: Outcome<Stmt>)
      requires Valid()
      modifies this
      ensures Valid() && Step(r, State()) == ParseStatement(tokens, old(State()))
      decreases |tokens| - current, 24
    {
      hide Grammar.Match, Grammar.MatchFrom, Grammar.Check, Grammar.Consume, Grammar.Advance, Consumes, Progress, IsPrimary, IsUnary, IsOperand, AtLevel, IsExpression, IsStatement, AllStatements, CountFailed, ParseAssignment, ParseBinary, ParseOperand, BinaryLoop, ParseUnary, ParsePrimary, ParseGrouping, ParseVarDeclaration, ParsePrintStatement, ParseExpressionStatement, ParseDeclaration, BlockLoop, ParseBlock, ProgramLoop, ParseProgram, Statements.Synchronize, SyncLoop;
      MatchOne(tokens, current, Print);
      var matched := Match([Print]);
      if matched {
        r := PrintStatement();
        return;
      }
      MatchOne(tokens, current, LeftBrace);
      matched := Match([LeftBrace]);
      if matched {
        var body := Block();
        if body.Failed? {
          return Failed;
        }
        return Done(BlockStmt(body.value));
      }
      r := ExpressionStatement();
    }

    /** `printStatement`. */
    method PrintStatement() returns (r: Outcome<Stmt>)
      requires Valid()
      modifies this
      ensures Valid() && Step(r, State()) == ParsePrintStatement(tokens, old(State()))
      decreases |tokens| - current, 22
    {
      hide Grammar.Match, Grammar.MatchFrom, Grammar.Check, Grammar.Consume, Grammar.Advance, Consumes, Progress, IsPrimary, IsUnary, IsOperand, AtLevel, IsExpression, IsStatement, AllStatements, CountFailed, ParseAssignment, ParseBinary, ParseOperand, BinaryLoop, ParseUnary, ParsePrimary, ParseGrouping, ParseVarDeclaration, ParseExpressionStatement, ParseStatement, ParseDeclaration, BlockLoop, ParseBlock, ProgramLoop, ParseProgram, Statements.Synchronize, SyncLoop;
      var value := Expression();
      if value.Failed? {
        return Failed;
      }
      var semi := Consume(Semicolon, ExpectSemicolonAfterValue);
      if semi.Failed? {
        return Failed;
      }
      return Done(PrintStmt(value.value));
    }

    /** `expressionStatement`. */
    method ExpressionStatement() returns (r: Outcome<Stmt>)
      requires Valid()
      modifies this
      ensures Valid() && Step(r, State()) == ParseExpressionStatement(tokens, old(State()))
      decreases |tokens| - current, 22
    {
      hide Grammar.Match, Grammar.MatchFrom, Grammar.Check, Grammar.Consume, Grammar.Advance, Consumes, Progress, IsPrimary, IsUnary, IsOperand, AtLevel, IsExpression, IsStatement, AllStatements, CountFailed, ParseAssignment, ParseBinary, ParseOperand, BinaryLoop, ParseUnary, ParsePrimary, ParseGrouping, ParseVarDeclaration, ParsePrintStatement, ParseStatement, ParseDeclaration, BlockLoop, ParseBlock, ProgramLoop, ParseProgram, Statements.Synchronize, SyncLoop;
      var expr := Expression();
      if expr.Failed? {
        return Failed;
      }
      var semi := Consume(Semicolon, ExpectSemicolonAfterExpression);
      if semi.Failed? {
        return Failed;
      }
      return Done(ExpressionStmt(expr.value));
    }

    /** `block`. */
    method Block() returns (r: Outcome<seq<Option<Stmt>>>)
      requires Valid()
      modifies this
      ensures Valid() && Step(r, State()) == ParseBlock(tokens, old(State()))
      decreases |tokens| - current, 26
    {
      hide Grammar.Match, Grammar.MatchFrom, Grammar.Check, Grammar.Consume, Grammar.Advance, Consumes, Progress, IsPrimary, IsUnary, IsOperand, AtLevel, IsExpression, IsStatement, AllStatements, CountFailed, ParseAssignment, ParseBinary, ParseOperand, BinaryLoop, ParseUnary, ParsePrimary, ParseGrouping, ParseVarDeclaration, ParsePrintStatement, ParseExpressionStatement, ParseStatement, ParseDeclaration, ProgramLoop, ParseProgram, Statements.Synchronize, SyncLoop;
      var statements: seq<Option<Stmt>> := [];
      while !Check(RightBrace) && !IsAtEnd()
        invariant Valid() && old(current) <= current
        invariant BlockLoop(tokens, State(), statements) == BlockLoop(tokens, old(State()), [])
        decreases |tokens| - current
      {
        var d := Declaration();
        statements := statements + [d];
      }
      var close := Consume(RightBrace, ExpectRightBrace);
      if close.Failed? {
        return Failed;
      }
      return Done(statements);
    }
  }
}
