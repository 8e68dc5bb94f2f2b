/**
 * Tokens, the plain values a program text can denote, and the diagnostics that
 * every stage reports instead of writing to a global error sink.
 */
module Lexicon {

  datatype Option<+T> = None | Some(value: T)

  /** The values of the language that exist without any runtime object: Kotlin `null`, Boolean, Double and String. */
  datatype Value = Nil | Bool(b: bool) | Num(n: real) | Str(s: string)

  /** The closed set of lexical categories. */
  datatype TokenType =
    // single-character punctuation
    | LeftParen | RightParen | LeftBrace | RightBrace
    | Comma | Dot | Minus | Plus | Semicolon | Slash | Star
    // one- or two-character operators
    | Bang | BangEqual | Equal | EqualEqual
    | Greater | GreaterEqual | Less | LessEqual
    // literals
    | Identifier | String | Number
    // keywords
    | And | Class | Else | False | Fun | For | If | Nil | Or
    | Print | Return | Super | This | True | Var | While
    | Eof

  predicate IsKeyword(kind: TokenType) {
    kind.And? || kind.Class? || kind.Else? || kind.False? || kind.Fun? || kind.For? ||
    kind.If? || kind.Nil? || kind.Or? || kind.Print? || kind.Return? || kind.Super? ||
    kind.This? || kind.True? || kind.Var? || kind.While?
  }

  /** The punctuation and operator kinds: those whose lexeme is always the same one or two characters. */
  predicate HasFixedSpelling(kind: TokenType) {
    !(kind.Identifier? || kind.String? || kind.Number? || kind.Eof? || IsKeyword(kind))
  }

  /** The text of a punctuation or operator token (the keywords' texts are the scanner's keyword table). */
  function Spelling(kind: TokenType): (s: string)
    ensures HasFixedSpelling(kind) <==> |s| > 0
  {
    match kind
    case LeftParen => "(" case RightParen => ")" case LeftBrace => "{" case RightBrace => "}"
    case Comma => "," case Dot => "." case Minus => "-" case Plus => "+"
    case Semicolon => ";" case Slash => "/" case Star => "*"
    case Bang => "!" case BangEqual => "!=" case Equal => "=" case EqualEqual => "=="
    case Greater => ">" case GreaterEqual => ">=" case Less => "<" case LessEqual => "<="
    case _ => ""
  }

  /** A scanned token: its kind, the exact source text, its decoded literal (Nil when none) and its line. */
  datatype Token = Token(kind: TokenType, lexeme: string, literal: Value, line: nat)

  /** One reported compile-time error: `[line N] Error<where>: <message>`. */
  datatype Diagnostic = Diagnostic(line: nat, location: string, message: string)

  /** An error reported against a line only (the scanner's form). */
  function ErrorAtLine(line: nat, message: string): (d: Diagnostic)
    ensures d.line == line && d.location == "" && d.message == message
  {
    Diagnostic(line, "", message)
  }

  /** An error reported against a token: at end of input, or at the token's lexeme. */
  function ErrorAt(token: Token, message: string): (d: Diagnostic)
    ensures d.line == token.line && d.message == message
    ensures token.kind == Eof ==> d.location == " at end"
    ensures token.kind != Eof ==> d.location == " at '" + token.lexeme + "'"
  {
    if token.kind == Eof then Diagnostic(token.line, " at end", message)
    else Diagnostic(token.line, " at '" + token.lexeme + "'", message)
  }
}
