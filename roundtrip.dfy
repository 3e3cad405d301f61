/**
 * The round trip: the expression rules parse the tokens that spell a tree of
 * the shape they build back into that very tree, and stop exactly behind
 * it. Since a spelling holds no parentheses beyond the tree's own Grouping
 * nodes, this pins down associativity and precedence: `a - b - c` is the
 * left-nested tree, `a + b * c` nests the product on the right, and
 * `a = b = c` nests the assignments to the right.
 *
 * The `hide` statement at the head of a proof keeps the solver from unfolding
 * the definitions that proof does not need, which keeps it small; it changes
 * nothing that is proved.
 */
module RoundTrip {
  import opened Tokens
  import opened Ast
  import opened Grammar

  /** The number of tokens of a tree. */
  function Width(e: Expr): (n: nat)
    ensures n >= 1
  {
    match e
    case Literal(_) => 1
    case Grouping(inner) => Width(inner) + 2
    case Unary(_, right) => 1 + Width(right)
    case Binary(left, _, right) => Width(left) + 1 + Width(right)
    case Variable(_) => 1
    case Assign(_, value) => 2 + Width(value)
  }

  /** The token a literal is written with: its keyword, or a NUMBER or STRING token carrying it. */
  predicate SpellsLiteral(token: Token, v: LiteralValue) {
    match v
    case NilLiteral => token.kind == Nil
    case BoolLiteral(b) => token.kind == (if b then True else False)
    case NumberLiteral(_) => token.kind == Number && token.literal == v
    case StringLiteral(_) => token.kind == String && token.literal == v
  }

  /**
   * The tokens from position `p` on spell the tree: its own tokens where it
   * keeps them, a token written with the literal for a literal, and tokens
   * of the right kind for the parentheses and the "=" it does not keep.
   */
  predicate SpelledAt(tokens: seq<Token>, p: nat, e: Expr)
    decreases e
  {
    p + Width(e) <= |tokens| &&
    match e
    case Literal(v) => SpellsLiteral(tokens[p], v)
    case Grouping(inner) =>
      tokens[p].kind == LeftParen && SpelledAt(tokens, p + 1, inner) && tokens[p + 1 + Width(inner)].kind == RightParen
    case Unary(operator, right) => tokens[p] == operator && SpelledAt(tokens, p + 1, right)
    case Binary(left, operator, right) =>
      SpelledAt(tokens, p, left) && tokens[p + Width(left)] == operator && SpelledAt(tokens, p + Width(left) + 1, right)
    case Variable(name) => tokens[p] == name
    case Assign(name, value) => tokens[p] == name && tokens[p + 1].kind == Equal && SpelledAt(tokens, p + 2, value)
  }

  // ---------------------------------------------------------------------------
  // A chain of one level, split at its leftmost operand.

  /** The leftmost operand of the chain of `level` at the root of `e`. */
  function Leftmost(level: Level, e: Expr): (x: Expr)
    ensures Size(x) <= Size(e)
  {
    if e.Binary? && OperatorOf(level, e.operator.kind) then Leftmost(level, e.left) else e
  }

  /** The number of tokens of the chain after its leftmost operand. */
  function TailWidth(level: Level, e: Expr): nat {
    if e.Binary? && OperatorOf(level, e.operator.kind) then TailWidth(level, e.left) + 1 + Width(e.right) else 0
  }

  /** The tokens from `q` on spell the chain after its leftmost operand: operators and right operands. */
  predicate TailSpelledAt(tokens: seq<Token>, q: nat, level: Level, e: Expr)
    decreases e
  {
    q + TailWidth(level, e) <= |tokens| &&
    if e.Binary? && OperatorOf(level, e.operator.kind) then
      TailSpelledAt(tokens, q, level, e.left) && tokens[q + TailWidth(level, e.left)] == e.operator &&
      SpelledAt(tokens, q + TailWidth(level, e.left) + 1, e.right)
    else true
  }

  /** The chain with its leftmost operand replaced by `x`. */
  function Graft(level: Level, x: Expr, e: Expr): Expr {
    if e.Binary? && OperatorOf(level, e.operator.kind) then
      Binary(Graft(level, x, e.left), e.operator, e.right)
    else x
  }

  /** A chain is as wide as its leftmost operand and its tail; grafting the leftmost operand back gives the chain. */
  lemma {:induction false} ChainParts(level: Level, e: Expr)
    ensures Width(e) == Width(Leftmost(level, e)) + TailWidth(level, e)
    ensures Graft(level, Leftmost(level, e), e) == e
  {
    hide LevelOf, OperatorOf, BindsTighter, BindsAtLeast;
    if e.Binary? && OperatorOf(level, e.operator.kind) {
      ChainParts(level, e.left);
    }
  }

  /** A spelled binary tree: its spelled left operand, its operator, its spelled right operand. */
  lemma BinarySpelled(tokens: seq<Token>, p: nat, e: Expr)
    requires e.Binary? && SpelledAt(tokens, p, e)
    ensures SpelledAt(tokens, p, e.left) && SpelledAt(tokens, p + Width(e.left) + 1, e.right)
    ensures p + Width(e.left) < |tokens| && tokens[p + Width(e.left)] == e.operator
  {
  }

  /** A spelled tree fits in the token list. */
  lemma SpelledWithin(tokens: seq<Token>, p: nat, e: Expr)
    requires SpelledAt(tokens, p, e)
    ensures p + Width(e) <= |tokens|
  {
  }

  /** The leftmost operand of a spelled chain is spelled where the chain starts. */
  lemma {:induction false} LeftmostSpelled(tokens: seq<Token>, p: nat, level: Level, e: Expr)
    requires SpelledAt(tokens, p, e)
    ensures SpelledAt(tokens, p, Leftmost(level, e))
    decreases e
  {
    hide LevelOf, OperatorOf, BindsTighter, BindsAtLeast, SpelledAt;
    if e.Binary? && OperatorOf(level, e.operator.kind) {
      BinarySpelled(tokens, p, e);
      LeftmostSpelled(tokens, p, level, e.left);
    }
  }

  /** The tail of a spelled chain is spelled right behind its leftmost operand. */
  lemma {:induction false} TailSpelled(tokens: seq<Token>, p: nat, level: Level, e: Expr)
    requires SpelledAt(tokens, p, e)
    ensures TailSpelledAt(tokens, p + Width(Leftmost(level, e)), level, e)
    decreases e
  {
    hide LevelOf, OperatorOf, BindsTighter, BindsAtLeast, SpelledAt, Graft;
    SpelledWithin(tokens, p, e);
    if e.Binary? && OperatorOf(level, e.operator.kind) {
      var x := Leftmost(level, e.left);
      BinarySpelled(tokens, p, e);
      TailSpelled(tokens, p, level, e.left);
      ChainParts(level, e.left);
      assert Leftmost(level, e) == x;
      assert p + Width(x) + TailWidth(level, e.left) == p + Width(e.left);
      assert TailWidth(level, e) == TailWidth(level, e.left) + 1 + Width(e.right);
    }
  }

  /** A spelled tail that is not empty starts with an operator of its level. */
  lemma {:induction false} TailStartsWithOperator(tokens: seq<Token>, q: nat, level: Level, e: Expr)
    requires TailSpelledAt(tokens, q, level, e) && TailWidth(level, e) > 0
    ensures q < |tokens| && OperatorOf(level, tokens[q].kind)
    decreases e
  {
    hide LevelOf, OperatorOf, BindsTighter, BindsAtLeast, SpelledAt;
    if TailWidth(level, e.left) > 0 {
      TailStartsWithOperator(tokens, q, level, e.left);
    }
  }

  /** The leftmost operand of a tree of a level is an operand of that level. */
  lemma {:induction false} LeftmostOperand(level: Level, e: Expr)
    requires AtLevel(level, e)
    ensures IsOperand(level, Leftmost(level, e))
    decreases Size(e)
  {
    hide LevelOf, OperatorOf, BindsTighter, BindsAtLeast;
    if e.Binary? && OperatorOf(level, e.operator.kind) {
      LeftmostOperand(level, e.left);
    }
  }

  /** The tokens that end an expression are no binary operators. */
  lemma NotOperators()
    ensures LevelOf(RightParen).None? && LevelOf(Equal).None? && LevelOf(Eof).None?
  {
  }

  // ---------------------------------------------------------------------------
  // The round trip, rule by rule. Each rule, started on the tokens of a
  // tree of its shape, returns that tree, leaves the log alone and stops
  // right behind the tokens, provided the token that follows cannot
  // continue the rule.

  /** `primary` returns the literal whose token it is started on. */
  lemma LiteralRoundTrip(tokens: seq<Token>, v: LiteralValue, s: PState)
    requires WellFormed(tokens) && Inside(tokens, s.pos)
    requires SpelledAt(tokens, s.pos, Literal(v))
    ensures ParsePrimary(tokens, s) == Step(Done(Literal(v)), PState(s.pos + 1, s.log))
  {
    hide Match, MatchFrom, Check, Consume, Consumes, Progress, IsPrimary, IsUnary, IsOperand, AtLevel, IsExpression, ParseUnary, ParseOperand, BinaryLoop, ParseBinary, ParseAssignment, ParseGrouping, LevelOf;
    var kind := tokens[s.pos].kind;
    match v
    case NilLiteral => assert kind == Nil;
    case BoolLiteral(b) => assert kind == if b then True else False;
    case NumberLiteral(_) => assert kind == Number && tokens[s.pos].literal == v;
    case StringLiteral(_) => assert kind == String && tokens[s.pos].literal == v;
  }

  /** On a "(", `primary` is the grouping alternative. */
  lemma PrimaryAtParen(tokens: seq<Token>, s: PState)
    requires WellFormed(tokens) && Inside(tokens, s.pos) && tokens[s.pos].kind == LeftParen
    ensures ParsePrimary(tokens, s) == ParseGrouping(tokens, s)
  {
    hide Match, MatchFrom, Check, Consume, Consumes, Progress, IsPrimary, IsUnary, IsOperand, AtLevel, IsExpression, ParseUnary, ParseOperand, BinaryLoop, ParseBinary, ParseAssignment, ParseGrouping, LevelOf;
  }

  /** A grouping: "(", an expression, and the ")" right behind it. */
  lemma GroupingStep(tokens: seq<Token>, s: PState, inner: Expr, t: PState)
    requires WellFormed(tokens) && Inside(tokens, s.pos) && tokens[s.pos].kind == LeftParen
    requires Inside(tokens, s.pos + 1) && ParseAssignment(tokens, PState(s.pos + 1, s.log)) == Step(Done(inner), t)
    requires t.pos < |tokens| && tokens[t.pos].kind == RightParen
    ensures ParseGrouping(tokens, s) == Step(Done(Grouping(inner)), PState(t.pos + 1, t.log))
  {
    hide Match, MatchFrom, Consumes, Progress, IsPrimary, IsUnary, IsOperand, AtLevel, IsExpression, ParsePrimary, ParseUnary, ParseOperand, BinaryLoop, ParseBinary, ParseAssignment, LevelOf;
  }

  /** `primary`, started on a "(", returns the grouping spelled there. */
  lemma {:induction false} GroupingRoundTrip(tokens: seq<Token>, inner: Expr, s: PState)
    requires WellFormed(tokens) && Inside(tokens, s.pos)
    requires IsExpression(inner) && SpelledAt(tokens, s.pos, Grouping(inner))
    ensures ParsePrimary(tokens, s) == Step(Done(Grouping(inner)), PState(s.pos + Width(inner) + 2, s.log))
    decreases Size(Grouping(inner)), 0
  {
    hide Match, MatchFrom, Check, Consume, Consumes, Progress, IsPrimary, IsUnary, IsOperand, AtLevel, IsExpression, ParsePrimary, ParseGrouping, ParseUnary, ParseOperand, BinaryLoop, ParseBinary, ParseAssignment, LevelOf;
    NotOperators();
    var close := s.pos + 1 + Width(inner);
    assert tokens[s.pos].kind == LeftParen && SpelledAt(tokens, s.pos + 1, inner) && tokens[close].kind == RightParen;
    PrimaryAtParen(tokens, s);
    AssignmentRoundTrip(tokens, inner, PState(s.pos + 1, s.log));
    GroupingStep(tokens, s, inner, PState(close, s.log));
  }

  /** `primary` returns the tree it is started on; it never looks beyond it. */
  lemma {:induction false} PrimaryRoundTrip(tokens: seq<Token>, e: Expr, s: PState)
    requires WellFormed(tokens) && Inside(tokens, s.pos)
    requires IsPrimary(e) && SpelledAt(tokens, s.pos, e)
    ensures ParsePrimary(tokens, s) == Step(Done(e), PState(s.pos + Width(e), s.log))
    decreases Size(e), 1
  {
    hide Match, MatchFrom, Check, Consume, Consumes, Progress, IsUnary, IsOperand, AtLevel, IsExpression, ParseUnary, ParseOperand, BinaryLoop, ParseBinary, ParseAssignment, ParseGrouping, LevelOf;
    match e
    case Literal(v) => LiteralRoundTrip(tokens, v, s);
    case Variable(_) =>
    case Grouping(inner) => GroupingRoundTrip(tokens, inner, s);
  }

  /** `unary` returns the tree it is started on. */
  lemma {:induction false} UnaryRoundTrip(tokens: seq<Token>, e: Expr, s: PState)
    requires WellFormed(tokens) && Inside(tokens, s.pos)
    requires IsUnary(e) && SpelledAt(tokens, s.pos, e)
    ensures ParseUnary(tokens, s) == Step(Done(e), PState(s.pos + Width(e), s.log))
    decreases Size(e), 2
  {
    hide Match, MatchFrom, Check, Consume, Consumes, Progress, IsOperand, AtLevel, IsExpression, ParsePrimary, ParseGrouping, ParseOperand, BinaryLoop, ParseBinary, ParseAssignment, Leftmost, TailWidth, TailSpelledAt, Graft, LevelOf, OperatorOf, BindsTighter, BindsAtLeast;
    MatchMeans(tokens, s.pos, [Bang, Minus]);
    if e.Unary? {
      UnaryRoundTrip(tokens, e.right, PState(s.pos + 1, s.log));
    } else {
      PrimaryRoundTrip(tokens, e, s);
    }
  }

  /** The operand rule of a level returns the tree it is started on. */
  lemma {:induction false} OperandRoundTrip(tokens: seq<Token>, level: Level, e: Expr, s: PState)
    requires WellFormed(tokens) && Inside(tokens, s.pos)
    requires IsOperand(level, e) && SpelledAt(tokens, s.pos, e)
    requires s.pos + Width(e) < |tokens| && !BindsTighter(level, tokens[s.pos + Width(e)].kind)
    ensures ParseOperand(tokens, level, s) == Step(Done(e), PState(s.pos + Width(e), s.log))
    decreases Size(e), 3 + 2 * Strength(level)
  {
    hide Match, MatchFrom, Check, Consume, Consumes, Progress, IsPrimary, IsUnary, AtLevel, IsExpression, ParsePrimary, ParseGrouping, ParseUnary, BinaryLoop, ParseBinary, ParseAssignment, SpelledAt, Leftmost, TailWidth, TailSpelledAt, Graft, LevelOf, OperatorOf, BindsTighter, BindsAtLeast;
    if level == FactorLevel {
      UnaryRoundTrip(tokens, e, s);
    } else {
      OperatorTables(level);
      LevelRoundTrip(tokens, Tighter(level), e, s);
    }
  }

  /** One turn of the loop of a level, on an operator of the level. */
  lemma LoopStep(tokens: seq<Token>, level: Level, left: Expr, s: PState, right: Expr, t: PState)
    requires WellFormed(tokens) && Inside(tokens, s.pos) && OperatorOf(level, tokens[s.pos].kind)
    requires Inside(tokens, s.pos + 1) && ParseOperand(tokens, level, PState(s.pos + 1, s.log)) == Step(Done(right), t)
    ensures BinaryLoop(tokens, level, left, s) == BinaryLoop(tokens, level, Binary(left, tokens[s.pos], right), t)
  {
    hide Check, Consume, Consumes, Progress, IsPrimary, IsUnary, IsOperand, AtLevel, IsExpression, ParsePrimary, ParseGrouping, ParseUnary, ParseOperand, ParseBinary, ParseAssignment, LevelOf, OperatorOf, BindsTighter, BindsAtLeast;
    MatchMeans(tokens, s.pos, Operators(level));
    OperatorsOfLevel(level, tokens[s.pos].kind);
  }

  /** The loop of a level stops, with what it has, on a token that is no operator of the level. */
  lemma LoopStop(tokens: seq<Token>, level: Level, left: Expr, s: PState)
    requires WellFormed(tokens) && Inside(tokens, s.pos) && !OperatorOf(level, tokens[s.pos].kind)
    ensures BinaryLoop(tokens, level, left, s) == Step(Done(left), s)
  {
    hide Check, Consume, Consumes, Progress, IsPrimary, IsUnary, IsOperand, AtLevel, IsExpression, ParsePrimary, ParseGrouping, ParseUnary, ParseOperand, ParseBinary, ParseAssignment, LevelOf, OperatorOf;
    MatchMeans(tokens, s.pos, Operators(level));
    OperatorsOfLevel(level, tokens[s.pos].kind);
  }

  /** The rule of a level parses one operand, then runs the loop on it. */
  lemma BinaryStart(tokens: seq<Token>, level: Level, s: PState, first: Expr, t: PState)
    requires WellFormed(tokens) && Inside(tokens, s.pos)
    requires ParseOperand(tokens, level, s) == Step(Done(first), t)
    ensures Inside(tokens, t.pos) && ParseBinary(tokens, level, s) == BinaryLoop(tokens, level, first, t)
  {
    hide Match, MatchFrom, Check, Consume, IsPrimary, IsUnary, IsOperand, AtLevel, IsExpression, ParsePrimary, ParseGrouping, ParseUnary, ParseOperand, BinaryLoop, ParseAssignment, LevelOf, OperatorOf;
  }

  /**
   * The loop of a level, started on the tail of a chain with `x` parsed so
   * far, folds the tail onto `x` exactly as the chain nests.
   */
  /** One link of a chain: what the spelling and the shape of `e` say about its last operator. */
  lemma TailLink(tokens: seq<Token>, q: nat, level: Level, e: Expr, x: Expr)
    requires e.Binary? && OperatorOf(level, e.operator.kind)
    requires AtLevel(level, e) && TailSpelledAt(tokens, q, level, e)
    ensures AtLevel(level, e.left) && IsOperand(level, e.right)
    ensures TailSpelledAt(tokens, q, level, e.left)
    ensures tokens[q + TailWidth(level, e.left)] == e.operator && e.operator.kind != Eof
    ensures SpelledAt(tokens, q + TailWidth(level, e.left) + 1, e.right)
    ensures TailWidth(level, e) == TailWidth(level, e.left) + 1 + Width(e.right)
    ensures Graft(level, x, e) == Binary(Graft(level, x, e.left), e.operator, e.right)
  {
    NotOperators();
  }

  /** Past the last link of a chain there is nothing left to graft. */
  lemma TailEnd(level: Level, e: Expr, x: Expr)
    requires !(e.Binary? && OperatorOf(level, e.operator.kind))
    ensures TailWidth(level, e) == 0 && Graft(level, x, e) == x
  {
  }

  lemma {:induction false} LoopRoundTrip(tokens: seq<Token>, level: Level, e: Expr, x: Expr, s: PState)
    requires WellFormed(tokens) && Inside(tokens, s.pos)
    requires AtLevel(level, e) && TailSpelledAt(tokens, s.pos, level, e)
    requires s.pos + TailWidth(level, e) < |tokens| && !BindsTighter(level, tokens[s.pos + TailWidth(level, e)].kind)
    ensures Inside(tokens, s.pos + TailWidth(level, e))
    ensures BinaryLoop(tokens, level, x, s) == BinaryLoop(tokens, level, Graft(level, x, e), PState(s.pos + TailWidth(level, e), s.log))
    decreases Size(e), 3 + 2 * Strength(level)
  {
    hide Match, MatchFrom, Check, Consume, IsPrimary, IsUnary, IsOperand, AtLevel, IsExpression, ParsePrimary, ParseGrouping, ParseUnary, ParseOperand, BinaryLoop, ParseBinary, ParseAssignment, SpelledAt, TailSpelledAt, Leftmost, TailWidth, Graft, LevelOf, OperatorOf, BindsTighter, BindsAtLeast;
    if e.Binary? && OperatorOf(level, e.operator.kind) {
      TailLink(tokens, s.pos, level, e, x);
      OperatorTables(level);
      var q := s.pos + TailWidth(level, e.left);
      var t := PState(s.pos + TailWidth(level, e), s.log);
      LoopRoundTrip(tokens, level, e.left, x, s);
      assert q < FirstEof(tokens) && Inside(tokens, q + 1);
      OperandRoundTrip(tokens, level, e.right, PState(q + 1, s.log));
      LoopStep(tokens, level, Graft(level, x, e.left), PState(q, s.log), e.right, t);
    } else {
      TailEnd(level, e, x);
    }
  }


  /** The rule of a level returns the tree it is started on. */
  lemma {:induction false} LevelRoundTrip(tokens: seq<Token>, level: Level, e: Expr, s: PState)
    requires WellFormed(tokens) && Inside(tokens, s.pos)
    requires AtLevel(level, e) && SpelledAt(tokens, s.pos, e)
    requires s.pos + Width(e) < |tokens| && !BindsAtLeast(level, tokens[s.pos + Width(e)].kind)
    ensures ParseBinary(tokens, level, s) == Step(Done(e), PState(s.pos + Width(e), s.log))
    decreases Size(e), 4 + 2 * Strength(level)
  {
    hide Match, MatchFrom, Check, Consume, IsPrimary, IsUnary, IsOperand, AtLevel, IsExpression, ParsePrimary, ParseGrouping, ParseUnary, ParseOperand, BinaryLoop, ParseBinary, ParseAssignment, SpelledAt, TailSpelledAt, Leftmost, TailWidth, Graft, LevelOf, OperatorOf, BindsTighter, BindsAtLeast;
    OperatorTables(level);
    var x := Leftmost(level, e);
    ChainParts(level, e);
    LeftmostSpelled(tokens, s.pos, level, e);
    TailSpelled(tokens, s.pos, level, e);
    if TailWidth(level, e) > 0 {
      TailStartsWithOperator(tokens, s.pos + Width(x), level, e);
    }
    LeftmostOperand(level, e);
    OperandRoundTrip(tokens, level, x, s);
    BinaryStart(tokens, level, s, x, PState(s.pos + Width(x), s.log));
    LoopRoundTrip(tokens, level, e, x, PState(s.pos + Width(x), s.log));
    LoopStop(tokens, level, e, PState(s.pos + Width(e), s.log));
  }

  /** A variable is a tree of every level. */
  lemma VariableAtLevel(name: Token)
    requires name.kind == Identifier
    ensures AtLevel(EqualityLevel, Variable(name))
  {
    assert IsUnary(Variable(name));
    assert AtLevel(FactorLevel, Variable(name));
    assert AtLevel(TermLevel, Variable(name));
    assert AtLevel(ComparisonLevel, Variable(name));
  }

  /** `assignment` returns the tree it is started on. */
  lemma {:induction false} AssignmentRoundTrip(tokens: seq<Token>, e: Expr, s: PState)
    requires WellFormed(tokens) && Inside(tokens, s.pos)
    requires IsExpression(e) && SpelledAt(tokens, s.pos, e)
    requires s.pos + Width(e) < |tokens|
    requires tokens[s.pos + Width(e)].kind != Equal
    requires !BindsAtLeast(EqualityLevel, tokens[s.pos + Width(e)].kind)
    ensures ParseAssignment(tokens, s) == Step(Done(e), PState(s.pos + Width(e), s.log))
    decreases Size(e), 21
  {
    hide Match, MatchFrom, Check, Consume, Consumes, Progress, IsPrimary, IsUnary, IsOperand, AtLevel, ParsePrimary, ParseGrouping, ParseUnary, ParseOperand, BinaryLoop, ParseBinary, ParseAssignment, Leftmost, TailWidth, TailSpelledAt, Graft, LevelOf, SpelledAt;
    if e.Assign? {
      AssignRoundTrip(tokens, e.name, e.value, s);
    } else {
      LevelRoundTrip(tokens, EqualityLevel, e, s);
      AssignmentWithoutEquals(tokens, s, e, PState(s.pos + Width(e), s.log));
    }
  }

  /** `assignment` returns the assignment it is started on. */
  /** The parts of a spelled assignment: the variable, the "=" and the spelled value behind them. */
  lemma AssignSpelled(tokens: seq<Token>, p: nat, name: Token, value: Expr)
    requires IsExpression(Assign(name, value)) && SpelledAt(tokens, p, Assign(name, value))
    ensures Width(Assign(name, value)) == Width(value) + 2 && Width(Variable(name)) == 1
    ensures p + Width(value) + 2 <= |tokens| && tokens[p] == name && tokens[p + 1].kind == Equal
    ensures name.kind == Identifier && IsExpression(value)
    ensures SpelledAt(tokens, p, Variable(name)) && SpelledAt(tokens, p + 2, value)
  {
  }

  lemma {:induction false} AssignRoundTrip(tokens: seq<Token>, name: Token, value: Expr, s: PState)
    requires WellFormed(tokens) && Inside(tokens, s.pos)
    requires IsExpression(Assign(name, value)) && SpelledAt(tokens, s.pos, Assign(name, value))
    requires s.pos + Width(value) + 2 < |tokens|
    requires tokens[s.pos + Width(value) + 2].kind != Equal
    requires !BindsAtLeast(EqualityLevel, tokens[s.pos + Width(value) + 2].kind)
    ensures ParseAssignment(tokens, s) == Step(Done(Assign(name, value)), PState(s.pos + Width(value) + 2, s.log))
    decreases Size(Assign(name, value)), 20
  {
    hide Match, MatchFrom, Check, Consume, Consumes, Progress, IsPrimary, IsUnary, IsOperand, AtLevel, ParsePrimary, ParseGrouping, ParseUnary, ParseOperand, BinaryLoop, ParseBinary, ParseAssignment, Leftmost, TailWidth, TailSpelledAt, Graft, LevelOf, SpelledAt, Width, IsExpression;
    NotOperators();
    var t := PState(s.pos + 1, s.log);
    AssignSpelled(tokens, s.pos, name, value);
    VariableAtLevel(name);
    LevelRoundTrip(tokens, EqualityLevel, Variable(name), s);
    AssignmentRoundTrip(tokens, value, PState(s.pos + 2, s.log));
    AssignmentToVariable(tokens, s, name, t, value, PState(s.pos + Width(value) + 2, s.log));
  }

  /**
   * The round trip: tokens that spell a tree `assignment` can build, followed
   * by the end of input, parse back into that very tree with no error, and
   * the parse stops at the end of input.
   */
  lemma ParseSpelled(tokens: seq<Token>, e: Expr)
    requires IsExpression(e) && SpelledAt(tokens, 0, e)
    requires Width(e) < |tokens| && tokens[Width(e)].kind == Eof && WellFormed(tokens)
    ensures ParseAssignment(tokens, PState(0, [])) == Step(Done(e), PState(Width(e), []))
  {
    hide LevelOf;
    NotOperators();
    AssignmentRoundTrip(tokens, e, PState(0, []));
  }
}
