/**
 * The statement layer of the parser and its panic-mode error recovery, as
 * functions over the token list and the parser state.
 *
 *   program     -> declaration* EOF
 *   declaration -> "var" varDecl | statement
 *   varDecl     -> IDENTIFIER ( "=" expression )? ";"
 *   statement   -> "print" expression ";" | "{" declaration* "}" | expression ";"
 */
module Statements {
  import opened Tokens
  import opened Ast
  import opened Grammar

  /** The result of `declaration`: a statement, or None where the parser gave up and recovered. */
  datatype Declared = Declared(decl: Option<Stmt>, state: PState)

  /** The statements a loop over `declaration` collected, and the state after it. */
  datatype Declarations = Declarations(decls: seq<Option<Stmt>>, state: PState)

  /** The keywords that begin a statement; recovery stops in front of them. */
  const StatementStarts: set<TokenType> := {Class, Fun, Var, For, If, While, Print, Return}

  /** Where `synchronize` may stop: at end of input, just after a ";" or just before a statement keyword. */
  predicate SyncPoint(tokens: seq<Token>, pos: nat)
    requires 0 < pos < |tokens|
  {
    IsAtEnd(tokens, pos) || tokens[pos - 1].kind == Semicolon || tokens[pos].kind in StatementStarts
  }

  /** A statement whose expressions all have the shapes the expression rules build. */
  ghost predicate IsStatement(stmt: Stmt) {
    match stmt
    case ExpressionStmt(e) => IsExpression(e)
    case PrintStmt(e) => IsExpression(e)
    case VarStmt(name, init) => name.kind == Identifier && (init.Some? ==> IsExpression(init.value))
    case BlockStmt(stmts) => forall i | 0 <= i < |stmts| :: stmts[i].Some? ==> IsStatement(stmts[i].value)
  }

  /** Every statement that was parsed (not given up on) is well shaped. */
  ghost predicate AllStatements(decls: seq<Option<Stmt>>) {
    forall i | 0 <= i < |decls| :: decls[i].Some? ==> IsStatement(decls[i].value)
  }

  /** The number of declarations the parser gave up on. */
  function CountFailed(decls: seq<Option<Stmt>>): (n: nat)
    ensures n <= |decls|
  {
    if |decls| == 0 then 0
    else CountFailed(decls[..|decls| - 1]) + (if decls[|decls| - 1].None? then 1 else 0)
  }

  /** Appending a declaration counts it when it was given up on. */
  lemma CountFailedAppend(decls: seq<Option<Stmt>>, d: Option<Stmt>)
    ensures CountFailed(decls + [d]) == CountFailed(decls) + (if d.None? then 1 else 0)
  {
    assert (decls + [d])[..|decls|] == decls;
  }

  /** Appending a well-shaped (or given-up) declaration keeps every parsed statement well shaped. */
  lemma AllStatementsAppend(decls: seq<Option<Stmt>>, d: Option<Stmt>)
    ensures AllStatements(decls) && (d.Some? ==> IsStatement(d.value)) ==> AllStatements(decls + [d])
  {
  }

  /** The loop of `synchronize`: skip tokens until a point where a new statement may begin. */
  function SyncLoop(tokens: seq<Token>, pos: nat): (stop: nat)
    requires WellFormed(tokens) && Inside(tokens, pos) && pos > 0
    ensures Inside(tokens, stop) && pos <= stop
    ensures SyncPoint(tokens, stop)
    ensures forall j | pos <= j < stop :: !SyncPoint(tokens, j)
    decreases |tokens| - pos
  {
    if IsAtEnd(tokens, pos) then pos
    else if tokens[pos - 1].kind == Semicolon then pos
    else if tokens[pos].kind in StatementStarts then pos
    else SyncLoop(tokens, pos + 1)
  }

  /**
   * `synchronize`: discard the current token, then stop at the first point
   * where a new statement may begin. Unless already at end of input, the
   * cursor strictly advances.
   */
  function Synchronize(tokens: seq<Token>, pos: nat): (stop: nat)
    requires WellFormed(tokens) && Inside(tokens, pos)
    requires pos > 0 || !IsAtEnd(tokens, pos)
    ensures Inside(tokens, stop) && pos <= stop
    ensures !IsAtEnd(tokens, pos) ==> pos < stop
    ensures SyncPoint(tokens, stop)
    ensures forall j | Advance(tokens, pos) <= j < stop :: !SyncPoint(tokens, j)
  {
    SyncLoop(tokens, Advance(tokens, pos))
  }

  /** `varDeclaration`, entered just after "var". */
  function ParseVarDeclaration(tokens: seq<Token>, s: PState): (r: Step<Stmt>)
    requires WellFormed(tokens) && Inside(tokens, s.pos)
    ensures Consumes(tokens, s, r)
    ensures r.outcome.Done? ==> r.outcome.value.VarStmt? && IsStatement(r.outcome.value)
    decreases |tokens| - s.pos, 22
  {
    var name := Consume(tokens, s, Identifier, ExpectVariableName);
    if name.outcome.Failed? then Step(Failed, name.state)
    else
      var init: Step<Option<Expr>> :=
        if Check(tokens, name.state.pos, Equal) then
          var e := ParseAssignment(tokens, PState(name.state.pos + 1, name.state.log));
          if e.outcome.Failed? then Step(Failed, e.state) else Step(Done(Some(e.outcome.value)), e.state)
        else Step(Done(None), name.state);
      if init.outcome.Failed? then Step(Failed, init.state)
      else
        var semi := Consume(tokens, init.state, Semicolon, ExpectSemicolonAfterVar);
        if semi.outcome.Failed? then Step(Failed, semi.state)
        else Step(Done(VarStmt(name.outcome.value, init.outcome.value)), semi.state)
  }

  /** `printStatement`, entered just after "print". */
  function ParsePrintStatement(tokens: seq<Token>, s: PState): (r: Step<Stmt>)
    requires WellFormed(tokens) && Inside(tokens, s.pos)
    ensures Consumes(tokens, s, r)
    ensures r.outcome.Done? ==> r.outcome.value.PrintStmt? && IsStatement(r.outcome.value)
    decreases |tokens| - s.pos, 21
  {
    var value := ParseAssignment(tokens, s);
    if value.outcome.Failed? then Step(Failed, value.state)
    else
      var semi := Consume(tokens, value.state, Semicolon, ExpectSemicolonAfterValue);
      if semi.outcome.Failed? then Step(Failed, semi.state)
      else Step(Done(PrintStmt(value.outcome.value)), semi.state)
  }

  /** `expressionStatement`. */
  function ParseExpressionStatement(tokens: seq<Token>, s: PState): (r: Step<Stmt>)
    requires WellFormed(tokens) && Inside(tokens, s.pos)
    ensures Consumes(tokens, s, r)
    ensures r.outcome.Done? ==> r.outcome.value.ExpressionStmt? && IsStatement(r.outcome.value)
    decreases |tokens| - s.pos, 21
  {
    var expr := ParseAssignment(tokens, s);
    if expr.outcome.Failed? then Step(Failed, expr.state)
    else
      var semi := Consume(tokens, expr.state, Semicolon, ExpectSemicolonAfterExpression);
      if semi.outcome.Failed? then Step(Failed, semi.state)
      else Step(Done(ExpressionStmt(expr.outcome.value)), semi.state)
  }

  /** `statement`. */
  function ParseStatement(tokens: seq<Token>, s: PState): (r: Step<Stmt>)
    requires WellFormed(tokens) && Inside(tokens, s.pos)
    ensures Consumes(tokens, s, r)
    ensures r.outcome.Done? ==> IsStatement(r.outcome.value)
    decreases |tokens| - s.pos, 23
  {
    if Check(tokens, s.pos, Print) then ParsePrintStatement(tokens, PState(s.pos + 1, s.log))
    else if Check(tokens, s.pos, LeftBrace) then
      var body := ParseBlock(tokens, PState(s.pos + 1, s.log));
      if body.outcome.Failed? then Step(Failed, body.state)
      else Step(Done(BlockStmt(body.outcome.value)), body.state)
    else ParseExpressionStatement(tokens, s)
  }

  /** The guarded part of `declaration`: "var" and a variable declaration, or a statement. */
  function TryDeclaration(tokens: seq<Token>, s: PState): (r: Step<Stmt>)
    requires WellFormed(tokens) && Inside(tokens, s.pos)
    ensures Consumes(tokens, s, r)
    ensures r.outcome.Done? ==> IsStatement(r.outcome.value)
    decreases |tokens| - s.pos, 24
  {
    if Check(tokens, s.pos, Var) then ParseVarDeclaration(tokens, PState(s.pos + 1, s.log))
    else ParseStatement(tokens, s)
  }

  /**
   * `declaration`: a variable declaration or a statement; on a parse error it
   * recovers with `synchronize` and yields None. It never fails, and unless
   * it starts at end of input it consumes at least one token.
   */
  function ParseDeclaration(tokens: seq<Token>, s: PState): (r: Declared)
    requires WellFormed(tokens) && Inside(tokens, s.pos)
    requires s.pos > 0 || !IsAtEnd(tokens, s.pos)
    ensures Progress(tokens, s, r.state)
    ensures !IsAtEnd(tokens, s.pos) ==> r.state.pos > s.pos
    ensures r.decl.None? ==> |r.state.log| > |s.log|
    ensures r.decl.Some? ==> IsStatement(r.decl.value)
    decreases |tokens| - s.pos, 25
  {
    var attempt := TryDeclaration(tokens, s);
    if attempt.outcome.Done? then Declared(Some(attempt.outcome.value), attempt.state)
    else Declared(None, PState(Synchronize(tokens, attempt.state.pos), attempt.state.log))
  }

  /** The loop of `block`: declarations until "}" or end of input. */
  function BlockLoop(tokens: seq<Token>, s: PState, acc: seq<Option<Stmt>>): (r: Declarations)
    requires WellFormed(tokens) && Inside(tokens, s.pos)
    ensures Progress(tokens, s, r.state)
    ensures Check(tokens, r.state.pos, RightBrace) || IsAtEnd(tokens, r.state.pos)
    ensures AllStatements(acc) ==> AllStatements(r.decls)
    decreases |tokens| - s.pos, 26
  {
    if Check(tokens, s.pos, RightBrace) || IsAtEnd(tokens, s.pos) then Declarations(acc, s)
    else
      var d := ParseDeclaration(tokens, s);
      AllStatementsAppend(acc, d.decl);
      BlockLoop(tokens, d.state, acc + [d.decl])
  }

  /** `block`, entered just after "{": declarations, then the closing "}". */
  function ParseBlock(tokens: seq<Token>, s: PState): (r: Step<seq<Option<Stmt>>>)
    requires WellFormed(tokens) && Inside(tokens, s.pos)
    ensures Progress(tokens, s, r.state)
    ensures r.outcome.Done? ==> r.state.pos > s.pos && AllStatements(r.outcome.value)
    ensures r.outcome.Failed? ==> |r.state.log| > |s.log|
    decreases |tokens| - s.pos, 27
  {
    var body := BlockLoop(tokens, s, []);
    var close := Consume(tokens, body.state, RightBrace, ExpectRightBrace);
    if close.outcome.Failed? then Step(Failed, close.state)
    else Step(Done(body.decls), close.state)
  }

  /** The loop of `parse`: declarations until end of input. */
  function ProgramLoop(tokens: seq<Token>, s: PState, acc: seq<Option<Stmt>>): (r: Declarations)
    requires WellFormed(tokens) && Inside(tokens, s.pos)
    ensures Progress(tokens, s, r.state) && IsAtEnd(tokens, r.state.pos)
    ensures AllStatements(acc) ==> AllStatements(r.decls)
    decreases |tokens| - s.pos
  {
    if IsAtEnd(tokens, s.pos) then Declarations(acc, s)
    else
      var d := ParseDeclaration(tokens, s);
      AllStatementsAppend(acc, d.decl);
      ProgramLoop(tokens, d.state, acc + [d.decl])
  }

  /**
   * `parse`: the whole token list, one entry per declaration (None for one
   * the parser gave up on), up to the end-of-input token.
   */
  function ParseProgram(tokens: seq<Token>): (r: Declarations)
    requires WellFormed(tokens)
    ensures Inside(tokens, r.state.pos) && IsAtEnd(tokens, r.state.pos)
    ensures AllStatements(r.decls)
  {
    ProgramLoop(tokens, PState(0, []), [])
  }

  /**
   * The loop of `block` appends to what it was given: at most one entry per
   * token it consumed, and each entry it gave up on reported an error.
   */
  lemma {:induction false} BlockLoopCounts(tokens: seq<Token>, s: PState, acc: seq<Option<Stmt>>)
    requires WellFormed(tokens) && Inside(tokens, s.pos)
    ensures var r := BlockLoop(tokens, s, acc);
      && acc <= r.decls && |r.decls| - |acc| <= r.state.pos - s.pos
      && CountFailed(r.decls) - CountFailed(acc) <= |r.state.log| - |s.log|
    decreases |tokens| - s.pos
  {
    if !(Check(tokens, s.pos, RightBrace) || IsAtEnd(tokens, s.pos)) {
      var d := ParseDeclaration(tokens, s);
      CountFailedAppend(acc, d.decl);
      BlockLoopCounts(tokens, d.state, acc + [d.decl]);
    }
  }

  /** Every declaration a block gave up on reported an error. */
  lemma BlockCounts(tokens: seq<Token>, s: PState)
    requires WellFormed(tokens) && Inside(tokens, s.pos)
    ensures var r := ParseBlock(tokens, s);
      r.outcome.Done? ==> CountFailed(r.outcome.value) <= |r.state.log| - |s.log|
  {
    BlockLoopCounts(tokens, s, []);
  }

  /** The loop of `parse` appends to what it was given, in the same way. */
  lemma {:induction false} ProgramLoopCounts(tokens: seq<Token>, s: PState, acc: seq<Option<Stmt>>)
    requires WellFormed(tokens) && Inside(tokens, s.pos)
    ensures var r := ProgramLoop(tokens, s, acc);
      && acc <= r.decls && |r.decls| - |acc| <= r.state.pos - s.pos
      && CountFailed(r.decls) - CountFailed(acc) <= |r.state.log| - |s.log|
    decreases |tokens| - s.pos
  {
    if !IsAtEnd(tokens, s.pos) {
      var d := ParseDeclaration(tokens, s);
      CountFailedAppend(acc, d.decl);
      ProgramLoopCounts(tokens, d.state, acc + [d.decl]);
    }
  }

  /**
   * A program has at most one declaration per token before the end of input,
   * and there are at least as many errors reported as declarations given up on.
   */
  lemma ProgramCounts(tokens: seq<Token>)
    requires WellFormed(tokens)
    ensures var r := ParseProgram(tokens);
      |r.decls| <= r.state.pos && CountFailed(r.decls) <= |r.state.log|
  {
    ProgramLoopCounts(tokens, PState(0, []), []);
  }
}
