/**
 * The syntax tree the parser builds: the expression forms it produces and the
 * statement forms of its statement layer.
 */
module Ast {
  import opened Tokens

  datatype Option<+T> = None | Some(value: T)

  /** Expressions, shaped like the generated expression node classes. */
  datatype Expr =
    | Literal(literal: LiteralValue)
    | Grouping(expression: Expr)
    | Unary(operator: Token, right: Expr)
    | Binary(left: Expr, operator: Token, right: Expr)
    | Variable(name: Token)
    | Assign(name: Token, value: Expr)

  /**
   * Statements. A block holds the results of `declaration`, which are `None`
   * (Java's null) for a declaration the parser had to give up on.
   */
  datatype Stmt =
    | ExpressionStmt(expression: Expr)
    | PrintStmt(expression: Expr)
    | VarStmt(name: Token, initializer: Option<Expr>)
    | BlockStmt(statements: seq<Option<Stmt>>)

  /** A function declaration: its name, its parameters and its body. */
  datatype FunctionDecl = FunctionDecl(name: Token, params: seq<Token>, body: seq<Stmt>)

  /** The number of syntax nodes of an expression. */
  function Size(e: Expr): (n: nat)
    ensures n >= 1
  {
    match e
    case Literal(_) => 1
    case Grouping(inner) => 1 + Size(inner)
    case Unary(_, right) => 1 + Size(right)
    case Binary(left, _, right) => 1 + Size(left) + Size(right)
    case Variable(_) => 1
    case Assign(_, value) => 1 + Size(value)
  }
}
