// Token kinds and tokens as the scanner produces them and the parser consumes them.
// The Ruby TokenType constant module is not part of this model; its members are
// those named by the scanner, the parser and the error reporter.
module Tokens {

  datatype TokenType =
    // Single-character tokens.
    | LeftParen | RightParen | LeftBrace | RightBrace
    | Comma | Dot | Minus | Plus | Semicolon | Slash | Star
    // One or two character tokens.
    | Bang | BangEqual | Equal | EqualEqual
    | Greater | GreaterEqual | Less | LessEqual
    // Literals.
    | Identifier | String | Number
    // Keywords.
    | And | Class | Else | False | Fun | For | If | Nil | Or
    | Print | Return | Super | This | True | Var | While
    | Eof

  /** The literal a token carries: a string's text between the quotes, or a
      number kept as its lexeme (the conversion to a float is not modelled). */
  datatype TokenLiteral = NoLiteral | StringLiteral(text: string) | NumberLiteral(text: string)

  datatype Token = Token(kind: TokenType, lexeme: string, literal: TokenLiteral, line: nat)
}
