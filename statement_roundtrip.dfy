/**
 * The statement rules, started on the tokens of a statement, build that
 * statement around the very expression `expression` parses back from its
 * tokens, and stop right behind its ";".
 *
 * The `hide` statement at the head of a proof keeps the solver from unfolding
 * the definitions that proof does not need, which keeps it small; it changes
 * nothing that is proved.
 */
module StatementRoundTrip {
  import opened Tokens
  import opened Ast
  import opened Grammar
  import opened Statements
  import opened RoundTrip

  /** A spelled expression ends in front of a ";": `assignment` returns it and stops there. */
  lemma {:induction false} ExpressionBeforeSemicolon(tokens: seq<Token>, e: Expr, p: nat, log: seq<SyntaxError>)
    requires WellFormed(tokens) && Inside(tokens, p)
    requires IsExpression(e) && SpelledAt(tokens, p, e)
    requires p + Width(e) < |tokens| && tokens[p + Width(e)].kind == Semicolon
    ensures ParseAssignment(tokens, PState(p, log)) == Step(Done(e), PState(p + Width(e), log))
    ensures tokens[p].kind in ExpressionStarts
  {
    assert LevelOf(Semicolon).None?;
    AssignmentRoundTrip(tokens, e, PState(p, log));
    if tokens[p].kind !in ExpressionStarts {
      NoExpressionAt(tokens, PState(p, log));
    }
  }

  /** An expression followed by ";" completes a print statement. */
  lemma {:induction false} PrintValue(tokens: seq<Token>, s: PState, e: Expr, t: PState)
    requires WellFormed(tokens) && Inside(tokens, s.pos)
    requires ParseAssignment(tokens, s) == Step(Done(e), t) && tokens[t.pos].kind == Semicolon
    ensures ParsePrintStatement(tokens, s) == Step(Done(PrintStmt(e)), PState(t.pos + 1, t.log))
  {
    hide Match, MatchFrom, Consumes, Progress, IsExpression, IsStatement, ParseAssignment, ParseBinary, ParseStatement, ParseBlock, ParseDeclaration;
  }

  /** An expression followed by ";" completes an expression statement. */
  lemma {:induction false} ExpressionValue(tokens: seq<Token>, s: PState, e: Expr, t: PState)
    requires WellFormed(tokens) && Inside(tokens, s.pos)
    requires ParseAssignment(tokens, s) == Step(Done(e), t) && tokens[t.pos].kind == Semicolon
    ensures ParseExpressionStatement(tokens, s) == Step(Done(ExpressionStmt(e)), PState(t.pos + 1, t.log))
  {
    hide Match, MatchFrom, Consumes, Progress, IsExpression, IsStatement, ParseAssignment, ParseBinary, ParseStatement, ParseBlock, ParseDeclaration;
  }

  /** `statement` picks its rule by the current token. */
  lemma {:induction false} StatementByKind(tokens: seq<Token>, s: PState)
    requires WellFormed(tokens) && Inside(tokens, s.pos)
    ensures tokens[s.pos].kind == Print ==> ParseStatement(tokens, s) == ParsePrintStatement(tokens, PState(s.pos + 1, s.log))
    ensures tokens[s.pos].kind != Print && tokens[s.pos].kind != LeftBrace ==>
      ParseStatement(tokens, s) == ParseExpressionStatement(tokens, s)
  {
    hide Match, MatchFrom, Consume, Consumes, Progress, IsExpression, IsStatement, ParseAssignment, ParseBinary, ParsePrintStatement, ParseExpressionStatement, ParseVarDeclaration, ParseBlock, BlockLoop, ParseDeclaration, TryDeclaration;
  }

  /** `print e ;` is the print statement of `e`, and nothing is reported. */
  lemma {:induction false} PrintRoundTrip(tokens: seq<Token>, e: Expr, s: PState)
    requires WellFormed(tokens) && Inside(tokens, s.pos) && tokens[s.pos].kind == Print
    requires IsExpression(e) && SpelledAt(tokens, s.pos + 1, e)
    requires s.pos + 1 + Width(e) < |tokens| && tokens[s.pos + 1 + Width(e)].kind == Semicolon
    ensures ParseStatement(tokens, s) == Step(Done(PrintStmt(e)), PState(s.pos + Width(e) + 2, s.log))
  {
    hide Match, MatchFrom, Check, Consume, Consumes, Progress, IsExpression, IsStatement, ParseAssignment, ParseBinary, ParsePrintStatement, ParseExpressionStatement, ParseVarDeclaration, ParseBlock, BlockLoop, ParseStatement, ParseDeclaration, TryDeclaration, SpelledAt, Width;
    var p: nat := s.pos + 1;
    var w := Width(e);
    ExpressionBeforeSemicolon(tokens, e, p, s.log);
    PrintValue(tokens, PState(p, s.log), e, PState(p + w, s.log));
    StatementByKind(tokens, s);
  }

  /** `e ;` is the expression statement of `e`, and nothing is reported. */
  lemma {:induction false} ExpressionStatementRoundTrip(tokens: seq<Token>, e: Expr, s: PState)
    requires WellFormed(tokens) && Inside(tokens, s.pos)
    requires IsExpression(e) && SpelledAt(tokens, s.pos, e)
    requires s.pos + Width(e) < |tokens| && tokens[s.pos + Width(e)].kind == Semicolon
    ensures ParseStatement(tokens, s) == Step(Done(ExpressionStmt(e)), PState(s.pos + Width(e) + 1, s.log))
  {
    hide Match, MatchFrom, Check, Consume, Consumes, Progress, IsExpression, IsStatement, ParseAssignment, ParseBinary, ParsePrintStatement, ParseExpressionStatement, ParseVarDeclaration, ParseBlock, BlockLoop, ParseStatement, ParseDeclaration, TryDeclaration, SpelledAt, Width;
    ExpressionBeforeSemicolon(tokens, e, s.pos, s.log);
    ExpressionValue(tokens, s, e, PState(s.pos + Width(e), s.log));
    StatementByKind(tokens, s);
  }

  /** A variable declaration that `varDeclaration` parses behind "var" is what `declaration` yields. */
  lemma {:induction false} VarDeclared(tokens: seq<Token>, s: PState, stmt: Stmt, t: PState)
    requires WellFormed(tokens) && Inside(tokens, s.pos) && tokens[s.pos].kind == Var
    requires ParseVarDeclaration(tokens, PState(s.pos + 1, s.log)) == Step(Done(stmt), t)
    ensures ParseDeclaration(tokens, s) == Declared(Some(stmt), t)
  {
    hide Match, MatchFrom, Consume, Consumes, Progress, IsExpression, IsStatement, ParseAssignment, ParseBinary, ParseVarDeclaration, ParseStatement, Synchronize, SyncLoop;
  }

  /** `var x ;` declares `x` with no initializer. */
  lemma {:induction false} VarRoundTrip(tokens: seq<Token>, s: PState)
    requires WellFormed(tokens) && Inside(tokens, s.pos) && tokens[s.pos].kind == Var
    requires s.pos + 2 < |tokens| && tokens[s.pos + 1].kind == Identifier && tokens[s.pos + 2].kind == Semicolon
    ensures ParseDeclaration(tokens, s) == Declared(Some(VarStmt(tokens[s.pos + 1], None)), PState(s.pos + 3, s.log))
  {
    hide Match, MatchFrom, Consumes, Progress, IsExpression, IsStatement, ParseAssignment, ParseBinary, ParseStatement, ParseDeclaration, Synchronize, SyncLoop;
    assert ParseVarDeclaration(tokens, PState(s.pos + 1, s.log)) == Step(Done(VarStmt(tokens[s.pos + 1], None)), PState(s.pos + 3, s.log));
    VarDeclared(tokens, s, VarStmt(tokens[s.pos + 1], None), PState(s.pos + 3, s.log));
  }

  /** A name, "=", an expression and ";" complete a variable declaration with that initializer. */
  lemma {:induction false} VarInitValue(tokens: seq<Token>, s: PState, e: Expr, t: PState)
    requires WellFormed(tokens) && Inside(tokens, s.pos) && s.pos + 1 < |tokens|
    requires tokens[s.pos].kind == Identifier && tokens[s.pos + 1].kind == Equal
    requires ParseAssignment(tokens, PState(s.pos + 2, s.log)) == Step(Done(e), t) && tokens[t.pos].kind == Semicolon
    ensures ParseVarDeclaration(tokens, s) == Step(Done(VarStmt(tokens[s.pos], Some(e))), PState(t.pos + 1, t.log))
  {
    hide Match, MatchFrom, Consumes, Progress, IsExpression, IsStatement, ParseAssignment, ParseBinary, ParseStatement, ParseDeclaration, Synchronize, SyncLoop;
  }

  /** `var x = e ;` declares `x` with `e` as its initializer. */
  lemma {:induction false} VarInitRoundTrip(tokens: seq<Token>, e: Expr, s: PState)
    requires WellFormed(tokens) && Inside(tokens, s.pos) && tokens[s.pos].kind == Var
    requires s.pos + 2 < |tokens| && tokens[s.pos + 1].kind == Identifier && tokens[s.pos + 2].kind == Equal
    requires IsExpression(e) && SpelledAt(tokens, s.pos + 3, e)
    requires s.pos + 3 + Width(e) < |tokens| && tokens[s.pos + 3 + Width(e)].kind == Semicolon
    ensures ParseDeclaration(tokens, s) ==
      Declared(Some(VarStmt(tokens[s.pos + 1], Some(e))), PState(s.pos + Width(e) + 4, s.log))
  {
    hide Match, MatchFrom, Check, Consume, Consumes, Progress, IsExpression, IsStatement, ParseAssignment, ParseBinary, ParseVarDeclaration, ParseStatement, ParseDeclaration, TryDeclaration, Synchronize, SyncLoop, SpelledAt, Width;
    var p: nat := s.pos + 3;
    ExpressionBeforeSemicolon(tokens, e, p, s.log);
    VarInitValue(tokens, PState(s.pos + 1, s.log), e, PState(p + Width(e), s.log));
    VarDeclared(tokens, s, VarStmt(tokens[s.pos + 1], Some(e)), PState(p + Width(e) + 1, s.log));
  }

  /** A statement that `statement` parses, not led by "var", is what `declaration` yields. */
  lemma {:induction false} StatementDeclared(tokens: seq<Token>, s: PState, stmt: Stmt, t: PState)
    requires WellFormed(tokens) && Inside(tokens, s.pos) && tokens[s.pos].kind != Var
    requires s.pos > 0 || !IsAtEnd(tokens, s.pos)
    requires ParseStatement(tokens, s) == Step(Done(stmt), t)
    ensures ParseDeclaration(tokens, s) == Declared(Some(stmt), t)
  {
    hide Match, MatchFrom, Consumes, Progress, IsExpression, IsStatement, ParseStatement, ParseVarDeclaration, Synchronize, SyncLoop;
  }

  /**
   * A statement, not led by "var", that `statement` fails on is given up on:
   * `declaration` yields None and resumes where `synchronize` stops, keeping
   * every error reported.
   */
  lemma {:induction false} StatementGivenUp(tokens: seq<Token>, s: PState, t: PState)
    requires WellFormed(tokens) && Inside(tokens, s.pos) && tokens[s.pos].kind != Var
    requires s.pos > 0 || !IsAtEnd(tokens, s.pos)
    requires ParseStatement(tokens, s) == Step(Failed, t)
    ensures t.pos > 0 || !IsAtEnd(tokens, t.pos)
    ensures ParseDeclaration(tokens, s) == Declared(None, PState(Synchronize(tokens, t.pos), t.log))
  {
    hide Match, MatchFrom, Consumes, Progress, IsExpression, IsStatement, ParseStatement, ParseVarDeclaration, SyncLoop;
  }
}
