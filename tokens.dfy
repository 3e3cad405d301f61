/**
 * Tokens as the scanner hands them to the parser, and the syntax errors the
 * parser reports about them.
 */
module Tokens {

  /** The kinds of token of the Lox language. */
  datatype TokenType =
    // single-character tokens
    | LeftParen | RightParen | LeftBrace | RightBrace
    | Comma | Dot | Minus | Plus | Semicolon | Slash | Star
    // one- or two-character tokens
    | Bang | BangEqual | Equal | EqualEqual
    | Greater | GreaterEqual | Less | LessEqual
    // literals
    | Identifier | String | Number
    // keywords
    | And | Class | Else | False | Fun | For | If | Nil | Or
    | Print | Return | Super | This | True | Var | While
    | Eof

  /**
   * The literal a token carries: a number or a text for NUMBER and STRING
   * tokens, nothing (Java's null) for every other token. Numbers are opaque
   * here; nothing computes with them.
   */
  datatype LiteralValue =
    | NilLiteral
    | BoolLiteral(b: bool)
    | NumberLiteral(n: real)
    | StringLiteral(s: string)

  /** A token: its kind, its text, its literal and where it stands in the source. */
  datatype Token = Token(
    kind: TokenType,
    lexeme: string,
    literal: LiteralValue,
    row: int,
    offset: int,
    length: int)

  /** The messages of the syntax errors the parser reports. */
  datatype Message =
    | ExpectExpression | ExpectRightParen | InvalidAssignmentTarget | ExpectVariableName
    | ExpectSemicolonAfterVar | ExpectSemicolonAfterValue | ExpectSemicolonAfterExpression
    | ExpectRightBrace

  /** The text the parser reports for each message: a sentence, ending in a full stop. */
  function Text(message: Message): (text: string)
    ensures |text| > 0 && text[|text| - 1] == '.'
  {
    match message
    case ExpectExpression => "Expect expression."
    case ExpectRightParen => "Expect ')' after expression."
    case InvalidAssignmentTarget => "Invalid assignment target."
    case ExpectVariableName => "Expect variable name."
    case ExpectSemicolonAfterVar => "Expect ';' after variable declaration."
    case ExpectSemicolonAfterValue => "Expect ';' after value."
    case ExpectSemicolonAfterExpression => "Expect ';' after expression."
    case ExpectRightBrace => "Expect '}' after block."
  }

  /** No two messages have the same text, so a report names its message. */
  lemma TextDistinct(a: Message, b: Message)
    requires a != b
    ensures Text(a) != Text(b)
  {
    // The length and the ninth character tell the texts apart.
    assert |Text(a)| != |Text(b)| || Text(a)[8] != Text(b)[8];
  }

  /** A syntax error the parser reported: the offending token and the message. */
  datatype SyntaxError = SyntaxError(token: Token, message: Message)

  /** The scanner always ends the token list with an end-of-input token. */
  predicate WellFormed(tokens: seq<Token>) {
    |tokens| > 0 && tokens[|tokens| - 1].kind == Eof
  }

  /** The position of the first end-of-input token. */
  function FirstEof(tokens: seq<Token>): (k: nat)
    requires WellFormed(tokens)
    ensures k < |tokens| && tokens[k].kind == Eof
  {
    EofFrom(tokens, 0)
  }

  /** The position of the first end-of-input token at or after `from`. */
  function EofFrom(tokens: seq<Token>, from: nat): (k: nat)
    requires WellFormed(tokens) && from < |tokens|
    ensures from <= k < |tokens| && tokens[k].kind == Eof
    decreases |tokens| - from
  {
    if tokens[from].kind == Eof then from else EofFrom(tokens, from + 1)
  }

  /** No end-of-input token stands before the first one. */
  lemma {:induction false} BeforeFirstEof(tokens: seq<Token>, i: nat)
    requires WellFormed(tokens) && i < FirstEof(tokens)
    ensures tokens[i].kind != Eof
  {
    BeforeEofFrom(tokens, 0, i);
  }

  /** No end-of-input token stands between `from` and the first one after it. */
  lemma {:induction false} BeforeEofFrom(tokens: seq<Token>, from: nat, i: nat)
    requires WellFormed(tokens) && from < |tokens| && from <= i < EofFrom(tokens, from)
    ensures tokens[i].kind != Eof
    decreases i - from
  {
    if from < i {
      BeforeEofFrom(tokens, from + 1, i);
    }
  }

  /**
   * The context part of a static error report: "at end" for the end-of-input
   * token, "at '<lexeme>'" for every other token.
   */
  function Where(token: Token): (where: string)
    ensures token.kind == Eof ==> where == "at end"
    ensures token.kind != Eof ==>
      |where| == |token.lexeme| + 5 && where[..4] == "at '" &&
      where[4..4 + |token.lexeme|] == token.lexeme && where[|where| - 1] == '\''
  {
    if token.kind == Eof then "at end" else "at '" + token.lexeme + "'"
  }
}
