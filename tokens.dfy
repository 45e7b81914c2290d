/** Tokens: the (type, value) pairs the lexer hands to the parser. */
module Tokens {

  /** The token types, spelt as the lexer spells them. */
  datatype Kind =
    | IF | ELSE | WHILE | FOR | LET | PRINT | RETURN
    | IDENTIFIER | NUMBER | STRING
    | EQUALS | NOT_EQUALS | LESS_EQUALS | GREATER_EQUALS | ASSIGN
    | PLUS | MINUS | MULTIPLY | DIVIDE
    | LPAREN | RPAREN | LBRACE | RBRACE
    | SEMICOLON | LESS | GREATER | COMMA
    | EOF

  /** A token's value: a number, the text of the lexeme, or nothing (EOF's `null`). */
  datatype Literal = NumLit(r: real) | TextLit(s: string) | NoLit

  datatype Token = Token(kind: Kind, value: Literal)

  /** The value shape each kind carries: a number, EOF's `null`, or else the lexeme's text. */
  predicate WellShaped(t: Token)
  {
    match t.kind
    case NUMBER => t.value.NumLit?
    case EOF => t.value.NoLit?
    case _ => t.value.TextLit?
  }

  /** The text a token carries; identifiers and keywords always carry one. */
  function TextOf(t: Token): string
  {
    if t.value.TextLit? then t.value.s else ""
  }

  /** The number a token carries; number tokens always carry one. */
  function NumberOf(t: Token): real
  {
    if t.value.NumLit? then t.value.r else 0.0
  }
}
