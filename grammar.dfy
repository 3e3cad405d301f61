/**
 * The expression grammar of the parser, as functions over a fixed token list
 * and a parser state (the cursor and the error log). Each function is what the
 * parser method of the same rule computes; the class in module LoxParser is
 * proved to agree with them.
 *
 *   expression -> assignment
 *   assignment -> equality ( "=" assignment )?
 *   equality   -> comparison ( ( "!=" | "==" ) comparison )*
 *   comparison -> term ( ( ">" | ">=" | "<" | "<=" ) term )*
 *   term       -> factor ( ( "-" | "+" ) factor )*
 *   factor     -> unary ( ( "/" | "*" ) unary )*
 *   unary      -> ( "!" | "-" ) unary | primary
 *   primary    -> "false" | "true" | "nil" | NUMBER | STRING | IDENTIFIER
 *               | "(" expression ")"
 *
 * The `hide` statement at the head of a proof keeps the solver from unfolding
 * the definitions that proof does not need, which keeps it small; it changes
 * nothing that is proved.
 */
module Grammar {
  import opened Tokens
  import opened Ast

  /** The parser's mutable state: the cursor and the errors reported so far. */
  datatype PState = PState(pos: nat, log: seq<SyntaxError>)

  /** A rule either produces a value or has thrown (a ParseError). */
  datatype Outcome<+T> = Done(value: T) | Failed

  /** What a rule returns, together with the state it leaves behind. */
  datatype Step<+T> = Step(outcome: Outcome<T>, state: PState)

  /**
   * The cursor stands on a token of the list and has not passed any
   * end-of-input token.
   */
  predicate Inside(tokens: seq<Token>, pos: nat) {
    WellFormed(tokens) && pos <= FirstEof(tokens)
  }

  /** A rule moved the cursor forward (or not at all), stayed inside, and only appended errors. */
  ghost predicate Progress(tokens: seq<Token>, s: PState, t: PState) {
    s.pos <= t.pos && Inside(tokens, t.pos) && s.log <= t.log
  }

  /**
   * The contract every expression rule keeps: progress, a success consumes
   * at least one token, and a failure has reported at least one error.
   */
  ghost predicate Consumes<T>(tokens: seq<Token>, s: PState, r: Step<T>) {
    && Progress(tokens, s, r.state)
    && (r.outcome.Done? ==> r.state.pos > s.pos)
    && (r.outcome.Failed? ==> |r.state.log| > |s.log|)
  }

  predicate IsAtEnd(tokens: seq<Token>, pos: nat)
    requires pos < |tokens|
  {
    tokens[pos].kind == Eof
  }

  /** Inside the list, the cursor is at the end exactly when it stands on the first end-of-input token. */
  lemma AtEndMeans(tokens: seq<Token>, pos: nat)
    requires Inside(tokens, pos)
    ensures IsAtEnd(tokens, pos) <==> pos == FirstEof(tokens)
  {
    if pos < FirstEof(tokens) {
      BeforeFirstEof(tokens, pos);
    }
  }

  /** `check`: the current token has the given kind; never true at the end of input. */
  function Check(tokens: seq<Token>, pos: nat, kind: TokenType): (r: bool)
    requires pos < |tokens|
    ensures IsAtEnd(tokens, pos) ==> !r
    ensures !IsAtEnd(tokens, pos) ==> (r <==> tokens[pos].kind == kind)
  {
    if IsAtEnd(tokens, pos) then false else tokens[pos].kind == kind
  }

  /** `advance`: the cursor moves by one unless it stands on the end-of-input token. */
  function Advance(tokens: seq<Token>, pos: nat): (next: nat)
    requires WellFormed(tokens) && Inside(tokens, pos)
    ensures Inside(tokens, next)
    ensures IsAtEnd(tokens, pos) ==> next == pos
    ensures !IsAtEnd(tokens, pos) ==> next == pos + 1
  {
    if !IsAtEnd(tokens, pos) then pos + 1 else pos
  }

  /**
   * `match`, without its move: whether one of the kinds, tried in order,
   * checks at the cursor.
   */
  predicate Match(tokens: seq<Token>, pos: nat, kinds: seq<TokenType>)
    requires pos < |tokens|
  {
    MatchFrom(tokens, pos, kinds, 0)
  }

  /** The kinds from index `i` on, tried in order. */
  predicate MatchFrom(tokens: seq<Token>, pos: nat, kinds: seq<TokenType>, i: nat)
    requires pos < |tokens|
    decreases |kinds| - i
  {
    i < |kinds| && (Check(tokens, pos, kinds[i]) || MatchFrom(tokens, pos, kinds, i + 1))
  }

  /** Trying the kinds in order finds one exactly when the current token, not end of input, has one of them. */
  lemma MatchMeans(tokens: seq<Token>, pos: nat, kinds: seq<TokenType>)
    requires pos < |tokens|
    ensures Match(tokens, pos, kinds) <==> !IsAtEnd(tokens, pos) && tokens[pos].kind in kinds
  {
    MatchFromMeans(tokens, pos, kinds, 0);
  }

  lemma {:induction false} MatchFromMeans(tokens: seq<Token>, pos: nat, kinds: seq<TokenType>, i: nat)
    requires pos < |tokens| && i <= |kinds|
    ensures MatchFrom(tokens, pos, kinds, i) <==>
      !IsAtEnd(tokens, pos) && exists j | i <= j < |kinds| :: kinds[j] == tokens[pos].kind
    decreases |kinds| - i
  {
    if i < |kinds| {
      MatchFromMeans(tokens, pos, kinds, i + 1);
    }
  }

  /** `match` with one kind is `check` (and then advance). */
  lemma MatchOne(tokens: seq<Token>, pos: nat, kind: TokenType)
    requires pos < |tokens|
    ensures Match(tokens, pos, [kind]) == Check(tokens, pos, kind)
  {
    assert !MatchFrom(tokens, pos, [kind], 1);
  }

  /** `match` with two kinds is `check` of either. */
  lemma MatchTwo(tokens: seq<Token>, pos: nat, first: TokenType, second: TokenType)
    requires pos < |tokens|
    ensures Match(tokens, pos, [first, second]) == (Check(tokens, pos, first) || Check(tokens, pos, second))
  {
    assert MatchFrom(tokens, pos, [first, second], 1) == Check(tokens, pos, second);
  }

  /**
   * `consume`: the current token if it has the expected kind (and the cursor
   * moves past it); otherwise the error is reported at the current token.
   */
  function Consume(tokens: seq<Token>, s: PState, kind: TokenType, message: Message): (r: Step<Token>)
    requires WellFormed(tokens) && Inside(tokens, s.pos)
    ensures Progress(tokens, s, r.state)
    ensures r.outcome.Done? <==> Check(tokens, s.pos, kind)
    ensures r.outcome.Done? ==>
      r.outcome.value == tokens[s.pos] && r.outcome.value.kind == kind && r.state == PState(s.pos + 1, s.log)
    ensures r.outcome.Failed? ==>
      r.state == PState(s.pos, s.log + [SyntaxError(tokens[s.pos], message)])
  {
    if Check(tokens, s.pos, kind) then Step(Done(tokens[s.pos]), PState(s.pos + 1, s.log))
    else Step(Failed, PState(s.pos, s.log + [SyntaxError(tokens[s.pos], message)]))
  }

  // ---------------------------------------------------------------------------
  // Binary precedence levels, loosest first.

  datatype Level = EqualityLevel | ComparisonLevel | TermLevel | FactorLevel

  /** How tightly a level binds: factor binds tightest. */
  function Strength(level: Level): nat {
    match level
    case FactorLevel => 0
    case TermLevel => 1
    case ComparisonLevel => 2
    case EqualityLevel => 3
  }

  /** The operators of a level, in the order `match` tries them. */
  function Operators(level: Level): seq<TokenType> {
    match level
    case EqualityLevel => [BangEqual, EqualEqual]
    case ComparisonLevel => [Greater, GreaterEqual, Less, LessEqual]
    case TermLevel => [Minus, Plus]
    case FactorLevel => [Slash, Star]
  }

  /** The level whose rule parses the operands of a level (factor's operands are unary). */
  function Tighter(level: Level): Level
    requires level != FactorLevel
  {
    match level
    case EqualityLevel => ComparisonLevel
    case ComparisonLevel => TermLevel
    case TermLevel => FactorLevel
  }

  /** The level a binary operator belongs to; None for every other kind of token. */
  function LevelOf(kind: TokenType): Option<Level> {
    match kind
    case BangEqual => Some(EqualityLevel)
    case EqualEqual => Some(EqualityLevel)
    case Greater => Some(ComparisonLevel)
    case GreaterEqual => Some(ComparisonLevel)
    case Less => Some(ComparisonLevel)
    case LessEqual => Some(ComparisonLevel)
    case Minus => Some(TermLevel)
    case Plus => Some(TermLevel)
    case Slash => Some(FactorLevel)
    case Star => Some(FactorLevel)
    case _ => None
  }

  /** The kind is an operator of `level`. */
  predicate OperatorOf(level: Level, kind: TokenType) {
    LevelOf(kind) == Some(level)
  }

  /** The kind is an operator of a level that binds tighter than `level`. */
  predicate BindsTighter(level: Level, kind: TokenType) {
    LevelOf(kind).Some? && Strength(LevelOf(kind).value) < Strength(level)
  }

  /** The kind is an operator of `level` or of a tighter level. */
  predicate BindsAtLeast(level: Level, kind: TokenType) {
    LevelOf(kind).Some? && Strength(LevelOf(kind).value) <= Strength(level)
  }

  /** The operators `match` tries at a level are exactly the operators of the level. */
  lemma OperatorsOfLevel(level: Level, kind: TokenType)
    ensures kind in Operators(level) <==> OperatorOf(level, kind)
  {
  }

  /**
   * How the levels fit together: an operator of a level or a tighter one is
   * an operator of the level or binds tighter, not both; what binds tighter
   * than a level is what binds at least as tight as the next level; and
   * neither `=` nor a prefix-only `!` is a binary operator.
   */
  lemma OperatorTables(level: Level)
    ensures forall k :: BindsAtLeast(level, k) <==> OperatorOf(level, k) || BindsTighter(level, k)
    ensures forall k :: OperatorOf(level, k) ==> !BindsTighter(level, k)
    ensures level != FactorLevel ==> forall k :: BindsTighter(level, k) <==> BindsAtLeast(Tighter(level), k)
    ensures LevelOf(Equal).None? && LevelOf(Bang).None?
  {
    forall k ensures BindsAtLeast(level, k) <==> OperatorOf(level, k) || BindsTighter(level, k) {
      if LevelOf(k).Some? {
        StrengthInjective(level, LevelOf(k).value);
      }
    }
    if level != FactorLevel {
      forall k ensures BindsTighter(level, k) <==> BindsAtLeast(Tighter(level), k) {
      }
    }
  }

  lemma StrengthInjective(a: Level, b: Level)
    ensures Strength(a) == Strength(b) ==> a == b
  {
  }

  // ---------------------------------------------------------------------------
  // The shapes of the trees the rules build.

  /** A tree `primary` builds. */
  ghost predicate IsPrimary(e: Expr)
    decreases Size(e), 0
  {
    match e
    case Literal(_) => true
    case Variable(name) => name.kind == Identifier
    case Grouping(inner) => IsExpression(inner)
    case _ => false
  }

  /** A tree `unary` builds: prefix operators over a primary. */
  ghost predicate IsUnary(e: Expr)
    decreases Size(e), 1
  {
    match e
    case Unary(operator, right) => (operator.kind == Bang || operator.kind == Minus) && IsUnary(right)
    case Binary(_, _, _) => false
    case Assign(_, _) => false
    case _ => IsPrimary(e)
  }

  /** A tree the operand rule of `level` builds. */
  ghost predicate IsOperand(level: Level, e: Expr)
    decreases Size(e), 2 + 2 * Strength(level)
  {
    if level == FactorLevel then IsUnary(e) else AtLevel(Tighter(level), e)
  }

  /**
   * A tree the rule of `level` builds: a left-leaning chain of the level's
   * operators whose right operands (and leftmost operand) are operands of the level.
   */
  ghost predicate AtLevel(level: Level, e: Expr)
    decreases Size(e), 3 + 2 * Strength(level)
  {
    if e.Binary? && OperatorOf(level, e.operator.kind) then
      AtLevel(level, e.left) && IsOperand(level, e.right)
    else IsOperand(level, e)
  }

  /** A tree `assignment` builds: a right-nested chain of assignments ending in an equality. */
  ghost predicate IsExpression(e: Expr)
    decreases Size(e), 20
  {
    if e.Assign? then e.name.kind == Identifier && IsExpression(e.value)
    else AtLevel(EqualityLevel, e)
  }

  /** Below the operators of its own level, an operand holds only tighter operators or is unary. */
  lemma {:induction false} OperandShape(level: Level, e: Expr)
    requires IsOperand(level, e)
    ensures e.Binary? ==> BindsTighter(level, e.operator.kind)
    ensures !e.Binary? ==> IsUnary(e)
    decreases Strength(level), 0
  {
    OperatorTables(level);
    if level != FactorLevel {
      LevelShape(Tighter(level), e);
    }
  }

  /** A tree of a level has an operator of that level or a tighter one at its root, or is unary. */
  lemma {:induction false} LevelShape(level: Level, e: Expr)
    requires AtLevel(level, e)
    ensures e.Binary? ==> BindsAtLeast(level, e.operator.kind)
    ensures !e.Binary? ==> IsUnary(e)
    decreases Strength(level), 1
  {
    OperatorTables(level);
    if !(e.Binary? && OperatorOf(level, e.operator.kind)) {
      OperandShape(level, e);
    }
  }

  /** A tree the rule of a tighter level builds is also one the next looser level builds. */
  lemma Loosen(level: Level, e: Expr)
    requires level != FactorLevel && AtLevel(Tighter(level), e)
    ensures AtLevel(level, e)
  {
    OperatorTables(level);
    LevelShape(Tighter(level), e);
  }

  /** An operand of a level is also a tree of that level (a chain of length zero). */
  lemma OperandAtLevel(level: Level, e: Expr)
    requires IsOperand(level, e)
    ensures AtLevel(level, e)
  {
    OperatorTables(level);
    OperandShape(level, e);
  }

  /** A tree of the equality level is an expression: it is no assignment. */
  lemma EqualityIsExpression(e: Expr)
    requires AtLevel(EqualityLevel, e)
    ensures IsExpression(e)
    ensures e.Variable? ==> e.name.kind == Identifier
  {
    LevelShape(EqualityLevel, e);
  }

  // ---------------------------------------------------------------------------
  // The rules.

  /**
   * `primary`: the alternative is chosen by the kind of the current token
   * (the end-of-input token is none of them and is reported).
   */
  function ParsePrimary(tokens: seq<Token>, s: PState): (r: Step<Expr>)
    requires WellFormed(tokens) && Inside(tokens, s.pos)
    ensures Consumes(tokens, s, r)
    ensures r.outcome.Done? ==> IsPrimary(r.outcome.value)
    decreases |tokens| - s.pos, 1
  {
    var p := s.pos;
    match tokens[p].kind
    case False => Step(Done(Literal(BoolLiteral(false))), PState(p + 1, s.log))
    case True => Step(Done(Literal(BoolLiteral(true))), PState(p + 1, s.log))
    case Nil => Step(Done(Literal(NilLiteral)), PState(p + 1, s.log))
    case Number => Step(Done(Literal(tokens[p].literal)), PState(p + 1, s.log))
    case String => Step(Done(Literal(tokens[p].literal)), PState(p + 1, s.log))
    case Identifier => Step(Done(Variable(tokens[p])), PState(p + 1, s.log))
    case LeftParen => ParseGrouping(tokens, s)
    case _ => Step(Failed, PState(p, s.log + [SyntaxError(tokens[p], ExpectExpression)]))
  }

  /** The grouping alternative of `primary`, the cursor on its "(": an expression, then ")". */
  function ParseGrouping(tokens: seq<Token>, s: PState): (r: Step<Expr>)
    requires WellFormed(tokens) && Inside(tokens, s.pos) && Check(tokens, s.pos, LeftParen)
    ensures Consumes(tokens, s, r)
    ensures r.outcome.Done? ==> r.outcome.value.Grouping? && IsPrimary(r.outcome.value)
    decreases |tokens| - s.pos, 0
  {
    var inner := ParseAssignment(tokens, PState(s.pos + 1, s.log));
    if inner.outcome.Failed? then Step(Failed, inner.state)
    else
      var close := Consume(tokens, inner.state, RightParen, ExpectRightParen);
      if close.outcome.Failed? then Step(Failed, close.state)
      else Step(Done(Grouping(inner.outcome.value)), close.state)
  }

  /** The cases of `primary`, as a chain of comparisons of the current kind. */
  lemma PrimaryByKind(tokens: seq<Token>, s: PState)
    requires WellFormed(tokens) && Inside(tokens, s.pos)
    ensures var p := s.pos; var k := tokens[p].kind;
      ParsePrimary(tokens, s) ==
        if k == False then Step(Done(Literal(BoolLiteral(false))), PState(p + 1, s.log))
        else if k == True then Step(Done(Literal(BoolLiteral(true))), PState(p + 1, s.log))
        else if k == Nil then Step(Done(Literal(NilLiteral)), PState(p + 1, s.log))
        else if k == Number || k == String then Step(Done(Literal(tokens[p].literal)), PState(p + 1, s.log))
        else if k == Identifier then Step(Done(Variable(tokens[p])), PState(p + 1, s.log))
        else if k == LeftParen then ParseGrouping(tokens, s)
        else Step(Failed, PState(p, s.log + [SyntaxError(tokens[p], ExpectExpression)]))
  {
    hide Match, MatchFrom, Check, Consume, Consumes, Progress, IsPrimary, IsUnary, IsOperand, AtLevel, IsExpression, ParseAssignment, ParseBinary, ParseOperand, BinaryLoop, ParseUnary, ParseGrouping;
  }

  /**
   * `primary` is the chain of `match` calls the parser makes: the first
   * alternative whose kinds match the current token is taken.
   */
  lemma PrimaryByMatch(tokens: seq<Token>, s: PState)
    requires WellFormed(tokens) && Inside(tokens, s.pos)
    ensures var p := s.pos;
      ParsePrimary(tokens, s) ==
        if Match(tokens, p, [False]) then Step(Done(Literal(BoolLiteral(false))), PState(p + 1, s.log))
        else if Match(tokens, p, [True]) then Step(Done(Literal(BoolLiteral(true))), PState(p + 1, s.log))
        else if Match(tokens, p, [Nil]) then Step(Done(Literal(NilLiteral)), PState(p + 1, s.log))
        else if Match(tokens, p, [Number, String]) then Step(Done(Literal(tokens[p].literal)), PState(p + 1, s.log))
        else if Match(tokens, p, [Identifier]) then Step(Done(Variable(tokens[p])), PState(p + 1, s.log))
        else if Match(tokens, p, [LeftParen]) then ParseGrouping(tokens, s)
        else Step(Failed, PState(p, s.log + [SyntaxError(tokens[p], ExpectExpression)]))
  {
    hide Match, MatchFrom, Check, Consume, Consumes, Progress, IsPrimary, IsUnary, IsOperand, AtLevel, IsExpression, ParseAssignment, ParseBinary, ParseOperand, BinaryLoop, ParseUnary, ParseGrouping, ParsePrimary;
    var p := s.pos;
    PrimaryByKind(tokens, s);
    MatchOne(tokens, p, False);
    if !Check(tokens, p, False) {
      MatchOne(tokens, p, True);
      if !Check(tokens, p, True) {
        MatchOne(tokens, p, Nil);
        if !Check(tokens, p, Nil) {
          MatchTwo(tokens, p, Number, String);
          if !(Check(tokens, p, Number) || Check(tokens, p, String)) {
            MatchOne(tokens, p, Identifier);
            MatchOne(tokens, p, LeftParen);
          }
        }
      }
    }
  }

  /** `unary`: right-recursive over the prefix operators. */
  function ParseUnary(tokens: seq<Token>, s: PState): (r: Step<Expr>)
    requires WellFormed(tokens) && Inside(tokens, s.pos)
    ensures Consumes(tokens, s, r)
    ensures r.outcome.Done? ==> IsUnary(r.outcome.value)
    decreases |tokens| - s.pos, 2
  {
    MatchMeans(tokens, s.pos, [Bang, Minus]);
    if Match(tokens, s.pos, [Bang, Minus]) then
      var operator := tokens[s.pos];
      var right := ParseUnary(tokens, PState(s.pos + 1, s.log));
      if right.outcome.Failed? then Step(Failed, right.state)
      else Step(Done(Expr.Unary(operator, right.outcome.value)), right.state)
    else ParsePrimary(tokens, s)
  }

  /** The rule that parses one operand of `level`. */
  function ParseOperand(tokens: seq<Token>, level: Level, s: PState): (r: Step<Expr>)
    requires WellFormed(tokens) && Inside(tokens, s.pos)
    ensures Consumes(tokens, s, r)
    ensures r.outcome.Done? ==> IsOperand(level, r.outcome.value)
    decreases |tokens| - s.pos, 3 + 3 * Strength(level)
  {
    if level == FactorLevel then ParseUnary(tokens, s) else ParseBinary(tokens, Tighter(level), s)
  }

  /**
   * The loop of a binary level: while the current token is one of the
   * level's operators, consume it, parse the next operand and fold both into
   * a Binary node whose left child is everything parsed so far.
   */
  function BinaryLoop(tokens: seq<Token>, level: Level, left: Expr, s: PState): (r: Step<Expr>)
    requires WellFormed(tokens) && Inside(tokens, s.pos)
    ensures Progress(tokens, s, r.state)
    ensures r.outcome.Failed? ==> |r.state.log| > |s.log|
    ensures r.outcome.Done? && AtLevel(level, left) ==> AtLevel(level, r.outcome.value)
    decreases |tokens| - s.pos, 4 + 3 * Strength(level)
  {
    MatchMeans(tokens, s.pos, Operators(level));
    OperatorsOfLevel(level, tokens[s.pos].kind);
    if Match(tokens, s.pos, Operators(level)) then
      var operator := tokens[s.pos];
      var right := ParseOperand(tokens, level, PState(s.pos + 1, s.log));
      if right.outcome.Failed? then Step(Failed, right.state)
      else BinaryLoop(tokens, level, Binary(left, operator, right.outcome.value), right.state)
    else Step(Done(left), s)
  }

  /** `equality`, `comparison`, `term` and `factor`: one operand, then the loop. */
  function ParseBinary(tokens: seq<Token>, level: Level, s: PState): (r: Step<Expr>)
    requires WellFormed(tokens) && Inside(tokens, s.pos)
    ensures Consumes(tokens, s, r)
    ensures r.outcome.Done? ==> AtLevel(level, r.outcome.value)
    decreases |tokens| - s.pos, 5 + 3 * Strength(level)
  {
    var first := ParseOperand(tokens, level, s);
    if first.outcome.Failed? then first
    else
      OperandAtLevel(level, first.outcome.value);
      BinaryLoop(tokens, level, first.outcome.value, first.state)
  }

  /**
   * `assignment` (and `expression`, which is just `assignment`): an equality,
   * then optionally "=" and, right-recursively, the assigned value. Only a
   * variable may stand on the left; any other target is reported and the left
   * expression is returned without failing.
   */
  function ParseAssignment(tokens: seq<Token>, s: PState): (r: Step<Expr>)
    requires WellFormed(tokens) && Inside(tokens, s.pos)
    ensures Consumes(tokens, s, r)
    ensures r.outcome.Done? ==> IsExpression(r.outcome.value)
    decreases |tokens| - s.pos, 20
  {
    var target := ParseBinary(tokens, EqualityLevel, s);
    if target.outcome.Failed? then target
    else
      EqualityIsExpression(target.outcome.value);
      var q := target.state;
      if Check(tokens, q.pos, Equal) then
        var equals := tokens[q.pos];
        var value := ParseAssignment(tokens, PState(q.pos + 1, q.log));
        if value.outcome.Failed? then Step(Failed, value.state)
        else if target.outcome.value.Variable? then
          Step(Done(Assign(target.outcome.value.name, value.outcome.value)), value.state)
        else
          Step(Done(target.outcome.value),
               PState(value.state.pos, value.state.log + [SyntaxError(equals, InvalidAssignmentTarget)]))
      else target
  }

  /** With no "=" behind it, `assignment` returns the equality it parsed. */
  lemma AssignmentWithoutEquals(tokens: seq<Token>, s: PState, target: Expr, t: PState)
    requires WellFormed(tokens) && Inside(tokens, s.pos)
    requires ParseBinary(tokens, EqualityLevel, s) == Step(Done(target), t)
    requires tokens[t.pos].kind != Equal
    ensures ParseAssignment(tokens, s) == Step(Done(target), t)
  {
    hide Match, MatchFrom, Consume, Consumes, Progress, IsPrimary, IsUnary, IsOperand, AtLevel, IsExpression, ParsePrimary, ParseGrouping, ParseUnary, ParseOperand, BinaryLoop, ParseBinary;
  }

  /**
   * A variable, "=" and a value make an assignment to the variable: the
   * value is parsed right-recursively, so `a = b = c` assigns `b = c` to `a`.
   */
  lemma AssignmentToVariable(tokens: seq<Token>, s: PState, name: Token, t: PState, value: Expr, u: PState)
    requires WellFormed(tokens) && Inside(tokens, s.pos)
    requires ParseBinary(tokens, EqualityLevel, s) == Step(Done(Variable(name)), t)
    requires tokens[t.pos].kind == Equal && Inside(tokens, t.pos + 1)
    requires ParseAssignment(tokens, PState(t.pos + 1, t.log)) == Step(Done(value), u)
    ensures ParseAssignment(tokens, s) == Step(Done(Assign(name, value)), u)
  {
    hide Match, MatchFrom, Consume, Consumes, Progress, IsPrimary, IsUnary, IsOperand, AtLevel, IsExpression, ParsePrimary, ParseGrouping, ParseUnary, ParseOperand, BinaryLoop, ParseBinary;
  }

  /**
   * Any other target before "=" is reported at the "=" without failing: the
   * value is parsed and dropped, and the target is the result.
   */
  lemma AssignmentToOther(tokens: seq<Token>, s: PState, target: Expr, t: PState, value: Expr, u: PState)
    requires WellFormed(tokens) && Inside(tokens, s.pos)
    requires ParseBinary(tokens, EqualityLevel, s) == Step(Done(target), t) && !target.Variable?
    requires tokens[t.pos].kind == Equal && Inside(tokens, t.pos + 1)
    requires ParseAssignment(tokens, PState(t.pos + 1, t.log)) == Step(Done(value), u)
    ensures ParseAssignment(tokens, s) ==
      Step(Done(target), PState(u.pos, u.log + [SyntaxError(tokens[t.pos], InvalidAssignmentTarget)]))
  {
    hide Match, MatchFrom, Consume, Consumes, Progress, IsPrimary, IsUnary, IsOperand, AtLevel, IsExpression, ParsePrimary, ParseGrouping, ParseUnary, ParseOperand, BinaryLoop, ParseBinary;
  }

  /** The kinds an expression can start with: a literal, a name, "(" or a prefix operator. */
  const ExpressionStarts: set<TokenType> := {False, True, Nil, Number, String, Identifier, LeftParen, Bang, Minus}

  /** A failed operand fails its level's rule, with the same state. */
  lemma {:induction false} FailedOperand(tokens: seq<Token>, level: Level, s: PState, t: PState)
    requires WellFormed(tokens) && Inside(tokens, s.pos)
    requires ParseOperand(tokens, level, s) == Step(Failed, t)
    ensures ParseBinary(tokens, level, s) == Step(Failed, t)
  {
    hide Match, MatchFrom, Check, Consume, Consumes, Progress, IsPrimary, IsUnary, IsOperand, AtLevel, IsExpression, ParsePrimary, ParseGrouping, ParseUnary, ParseOperand, BinaryLoop, ParseAssignment;
  }

  /** A failed equality fails `assignment`, with the same state. */
  lemma {:induction false} FailedTarget(tokens: seq<Token>, s: PState, t: PState)
    requires WellFormed(tokens) && Inside(tokens, s.pos)
    requires ParseBinary(tokens, EqualityLevel, s) == Step(Failed, t)
    ensures ParseAssignment(tokens, s) == Step(Failed, t)
  {
    hide Match, MatchFrom, Check, Consume, Consumes, Progress, IsPrimary, IsUnary, IsOperand, AtLevel, IsExpression, ParsePrimary, ParseGrouping, ParseUnary, ParseOperand, BinaryLoop, ParseBinary;
  }

  /** At a token that is neither a prefix operator nor a primary, `unary` fails at once. */
  lemma {:induction false} NoUnaryAt(tokens: seq<Token>, s: PState)
    requires WellFormed(tokens) && Inside(tokens, s.pos)
    requires tokens[s.pos].kind !in ExpressionStarts
    ensures ParseUnary(tokens, s) ==
      Step(Failed, PState(s.pos, s.log + [SyntaxError(tokens[s.pos], ExpectExpression)]))
  {
    hide Match, MatchFrom, Check, Consume, Consumes, Progress, IsPrimary, IsUnary, IsOperand, AtLevel, IsExpression, ParsePrimary, ParseGrouping, ParseOperand, ParseBinary, BinaryLoop, ParseAssignment;
    PrimaryByKind(tokens, s);
    MatchMeans(tokens, s.pos, [Bang, Minus]);
  }

  /**
   * At a token no expression starts with (the end of input among them),
   * `expression` fails at once: `primary` reports "Expect expression." at
   * that token, the failure passes up through every level unchanged, and no
   * token is consumed.
   */
  lemma {:induction false} NoExpressionAt(tokens: seq<Token>, s: PState)
    requires WellFormed(tokens) && Inside(tokens, s.pos)
    requires tokens[s.pos].kind !in ExpressionStarts
    ensures ParseAssignment(tokens, s) ==
      Step(Failed, PState(s.pos, s.log + [SyntaxError(tokens[s.pos], ExpectExpression)]))
  {
    hide Match, MatchFrom, Check, Consume, Consumes, Progress, IsPrimary, IsUnary, IsOperand, AtLevel, IsExpression, ParsePrimary, ParseGrouping, ParseUnary, ParseBinary, BinaryLoop, ParseAssignment;
    var t := PState(s.pos, s.log + [SyntaxError(tokens[s.pos], ExpectExpression)]);
    NoUnaryAt(tokens, s);
    FailedOperand(tokens, FactorLevel, s, t);
    FailedOperand(tokens, TermLevel, s, t);
    FailedOperand(tokens, ComparisonLevel, s, t);
    FailedOperand(tokens, EqualityLevel, s, t);
    FailedTarget(tokens, s, t);
  }
}
