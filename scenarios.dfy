/**
 * Worked inputs: what `expression` builds from a few short token lists, read
 * off the round-trip theorem and the one-step facts about `assignment`, and
 * what `parse` makes of two programs with syntax errors, where panic-mode
 * recovery skips to the next statement. Each holds for any tokens of the
 * given kinds.
 *
 * The `hide` statement at the head of a proof keeps the solver from unfolding
 * the definitions that proof does not need, which keeps it small; it changes
 * nothing that is proved.
 */
module Scenarios {
  import opened Tokens
  import opened Ast
  import opened Grammar
  import opened Statements
  import opened RoundTrip
  import opened StatementRoundTrip

  /** A variable is an operand of the factor and term levels. */
  lemma Operands(name: Token)
    requires name.kind == Identifier
    ensures IsOperand(FactorLevel, Variable(name)) && IsOperand(TermLevel, Variable(name))
  {
    assert IsUnary(Variable(name));
    OperandAtLevel(FactorLevel, Variable(name));
  }

  /** `a - b - c` groups to the left: `(a - b) - c`. */
  lemma SubtractionGroupsLeft(tokens: seq<Token>)
    requires |tokens| == 6 && tokens[5].kind == Eof
    requires tokens[0].kind == Identifier && tokens[2].kind == Identifier && tokens[4].kind == Identifier
    requires tokens[1].kind == Minus && tokens[3].kind == Minus
    ensures ParseAssignment(tokens, PState(0, [])) ==
      Step(Done(Binary(Binary(Variable(tokens[0]), tokens[1], Variable(tokens[2])), tokens[3], Variable(tokens[4]))), PState(5, []))
  {
    hide Match, MatchFrom, Check, Consume, ParsePrimary, ParseGrouping, ParseUnary, ParseOperand, BinaryLoop, ParseBinary, ParseAssignment;
    var ab := Binary(Variable(tokens[0]), tokens[1], Variable(tokens[2]));
    var e := Binary(ab, tokens[3], Variable(tokens[4]));
    Operands(tokens[0]);
    Operands(tokens[2]);
    Operands(tokens[4]);
    OperandAtLevel(TermLevel, Variable(tokens[0]));
    assert AtLevel(TermLevel, e) by { OperatorTables(TermLevel); }
    Loosen(ComparisonLevel, e);
    Loosen(EqualityLevel, e);
    assert SpelledAt(tokens, 0, Variable(tokens[0])) && SpelledAt(tokens, 2, Variable(tokens[2]));
    assert SpelledAt(tokens, 4, Variable(tokens[4]));
    assert SpelledAt(tokens, 0, ab);
    assert SpelledAt(tokens, 0, e);
    ParseSpelled(tokens, e);
  }

  /** `a + b * c`: the factor operator binds tighter, giving `a + (b * c)`. */
  lemma ProductBindsTighter(tokens: seq<Token>)
    requires |tokens| == 6 && tokens[5].kind == Eof
    requires tokens[0].kind == Identifier && tokens[2].kind == Identifier && tokens[4].kind == Identifier
    requires tokens[1].kind == Plus && tokens[3].kind == Star
    ensures ParseAssignment(tokens, PState(0, [])) ==
      Step(Done(Binary(Variable(tokens[0]), tokens[1], Binary(Variable(tokens[2]), tokens[3], Variable(tokens[4])))), PState(5, []))
  {
    hide Match, MatchFrom, Check, Consume, ParsePrimary, ParseGrouping, ParseUnary, ParseOperand, BinaryLoop, ParseBinary, ParseAssignment;
    var bc := Binary(Variable(tokens[2]), tokens[3], Variable(tokens[4]));
    var e := Binary(Variable(tokens[0]), tokens[1], bc);
    Operands(tokens[0]);
    Operands(tokens[2]);
    Operands(tokens[4]);
    OperandAtLevel(TermLevel, Variable(tokens[0]));
    OperandAtLevel(FactorLevel, Variable(tokens[2]));
    assert AtLevel(FactorLevel, bc) by { OperatorTables(FactorLevel); }
    assert AtLevel(TermLevel, e) by { OperatorTables(TermLevel); }
    Loosen(ComparisonLevel, e);
    Loosen(EqualityLevel, e);
    assert SpelledAt(tokens, 0, Variable(tokens[0])) && SpelledAt(tokens, 2, Variable(tokens[2]));
    assert SpelledAt(tokens, 4, Variable(tokens[4]));
    assert SpelledAt(tokens, 2, bc);
    assert SpelledAt(tokens, 0, e);
    ParseSpelled(tokens, e);
  }

  /** `a = b = c` nests to the right: `a = (b = c)`. */
  lemma AssignmentNestsRight(tokens: seq<Token>)
    requires |tokens| == 6 && tokens[5].kind == Eof
    requires tokens[0].kind == Identifier && tokens[2].kind == Identifier && tokens[4].kind == Identifier
    requires tokens[1].kind == Equal && tokens[3].kind == Equal
    ensures ParseAssignment(tokens, PState(0, [])) ==
      Step(Done(Assign(tokens[0], Assign(tokens[2], Variable(tokens[4])))), PState(5, []))
  {
    hide Match, MatchFrom, Check, Consume, ParsePrimary, ParseGrouping, ParseUnary, ParseOperand, BinaryLoop, ParseBinary, ParseAssignment;
    var bc := Assign(tokens[2], Variable(tokens[4]));
    var e := Assign(tokens[0], bc);
    VariableAtLevel(tokens[4]);
    assert IsExpression(Variable(tokens[4]));
    assert IsExpression(e);
    assert SpelledAt(tokens, 4, Variable(tokens[4]));
    assert SpelledAt(tokens, 2, bc);
    assert SpelledAt(tokens, 0, e);
    ParseSpelled(tokens, e);
  }

  /**
   * `a + b = c`: the left side is not a variable, so `assignment` reports an
   * invalid target at the "=", still parses the right side, and yields the
   * left side unchanged.
   */
  lemma InvalidTargetReported(tokens: seq<Token>)
    requires |tokens| == 6 && tokens[5].kind == Eof
    requires tokens[0].kind == Identifier && tokens[2].kind == Identifier && tokens[4].kind == Identifier
    requires tokens[1].kind == Plus && tokens[3].kind == Equal
    ensures ParseAssignment(tokens, PState(0, [])) ==
      Step(Done(Binary(Variable(tokens[0]), tokens[1], Variable(tokens[2]))), PState(5, [SyntaxError(tokens[3], InvalidAssignmentTarget)]))
  {
    hide Match, MatchFrom, Check, Consume, ParsePrimary, ParseGrouping, ParseUnary, ParseOperand, BinaryLoop, ParseBinary, ParseAssignment;
    var ab := Binary(Variable(tokens[0]), tokens[1], Variable(tokens[2]));
    Operands(tokens[0]);
    Operands(tokens[2]);
    OperandAtLevel(TermLevel, Variable(tokens[0]));
    assert AtLevel(TermLevel, ab) by { OperatorTables(TermLevel); }
    Loosen(ComparisonLevel, ab);
    Loosen(EqualityLevel, ab);
    assert SpelledAt(tokens, 0, Variable(tokens[0])) && SpelledAt(tokens, 2, Variable(tokens[2]));
    assert SpelledAt(tokens, 0, ab);
    NotOperators();
    LevelRoundTrip(tokens, EqualityLevel, ab, PState(0, []));
    VariableAtLevel(tokens[4]);
    assert IsExpression(Variable(tokens[4])) && SpelledAt(tokens, 4, Variable(tokens[4]));
    AssignmentRoundTrip(tokens, Variable(tokens[4]), PState(4, []));
    AssignmentToOther(tokens, PState(0, []), ab, PState(3, []), Variable(tokens[4]), PState(5, []));
  }

  /**
   * `print ; var x ;`: the print statement has no expression, so "Expect
   * expression." is reported at the ";" and the declaration is given up on;
   * recovery stops just after that ";", and `var x ;` is parsed as usual.
   */
  lemma {:induction false} RecoveryAfterMissingExpression(tokens: seq<Token>)
    requires |tokens| == 6 && tokens[5].kind == Eof
    requires tokens[0].kind == Print && tokens[1].kind == Semicolon && tokens[2].kind == Var
    requires tokens[3].kind == Identifier && tokens[4].kind == Semicolon
    ensures ParseProgram(tokens) ==
      Declarations([None, Some(VarStmt(tokens[3], None))], PState(5, [SyntaxError(tokens[1], ExpectExpression)]))
  {
    hide Match, MatchFrom, Consumes, Progress, IsExpression, IsStatement, ParsePrimary, ParseGrouping, ParseUnary, ParseOperand, BinaryLoop, ParseBinary, ParseAssignment, ParseExpressionStatement, ParseVarDeclaration, ParseBlock, BlockLoop, ParseStatement, ParseDeclaration;
    assert FirstEof(tokens) == 5;
    var log := [SyntaxError(tokens[1], ExpectExpression)];
    NoExpressionAt(tokens, PState(1, []));
    assert ParsePrintStatement(tokens, PState(1, [])) == Step(Failed, PState(1, log));
    StatementByKind(tokens, PState(0, []));
    assert Synchronize(tokens, 1) == 2;
    StatementGivenUp(tokens, PState(0, []), PState(1, log));
    VarRoundTrip(tokens, PState(2, log));
    var decls: seq<Option<Stmt>> := [None, Some(VarStmt(tokens[3], None))];
    assert [None] + [decls[1]] == decls;
    assert ParseDeclaration(tokens, PState(0, [])) == Declared(decls[0], PState(2, log));
    assert [] + [decls[0]] == [None];
    assert ProgramLoop(tokens, PState(5, log), decls) == Declarations(decls, PState(5, log));
    assert ProgramLoop(tokens, PState(2, log), [None]) == ProgramLoop(tokens, PState(5, log), decls);
    assert ProgramLoop(tokens, PState(0, []), []) == ProgramLoop(tokens, PState(2, log), [None]);
  }

  /**
   * `{` with nothing after it: the block ends at the end of input without its
   * "}", so "Expect '}' after block." is reported at the end-of-input token
   * and the declaration is given up on.
   */
  lemma {:induction false} UnclosedBlock(tokens: seq<Token>)
    requires |tokens| == 2 && tokens[0].kind == LeftBrace && tokens[1].kind == Eof
    ensures ParseProgram(tokens) == Declarations([None], PState(1, [SyntaxError(tokens[1], ExpectRightBrace)]))
  {
    hide Match, MatchFrom, Consumes, Progress, IsExpression, IsStatement, ParsePrimary, ParseGrouping, ParseUnary, ParseOperand, BinaryLoop, ParseBinary, ParseAssignment, ParsePrintStatement, ParseExpressionStatement, ParseVarDeclaration, TryDeclaration, ParseDeclaration;
    assert FirstEof(tokens) == 1;
    var log := [SyntaxError(tokens[1], ExpectRightBrace)];
    assert BlockLoop(tokens, PState(1, []), []) == Declarations([], PState(1, []));
    assert ParseBlock(tokens, PState(1, [])) == Step(Failed, PState(1, log));
    assert ParseStatement(tokens, PState(0, [])) == Step(Failed, PState(1, log));
    assert Synchronize(tokens, 1) == 1;
    StatementGivenUp(tokens, PState(0, []), PState(1, log));
    assert ProgramLoop(tokens, PState(1, log), [None]) == Declarations([None], PState(1, log));
    assert ProgramLoop(tokens, PState(0, []), []) == ProgramLoop(tokens, PState(1, log), [None]);
  }
}
