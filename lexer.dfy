/**
 * The lexer of src/lexer.js: a cursor over the input text that hands out one
 * token per call of `GetNextToken`.
 *
 * The pure functions (`SpanEnd`, `Scan`, ...) say what one call computes from
 * the input and the cursor position; the class `Lexer` is the source's
 * stateful object, whose methods are proved to follow those functions.
 */
module Lexing {
  import opened Wrappers
  import opened Errors
  import opened Tokens

  // ---------------------------------------------------------------------------
  // Character classes
  // ---------------------------------------------------------------------------

  /** The characters accepted by the regular expression `\s` of JavaScript. */
  const Whitespace: set<char> := {
    '\t', '\n', '\U{0B}', '\U{0C}', '\r', ' ', '\U{A0}', '\U{1680}',
    '\U{2000}', '\U{2001}', '\U{2002}', '\U{2003}', '\U{2004}', '\U{2005}',
    '\U{2006}', '\U{2007}', '\U{2008}', '\U{2009}', '\U{200A}',
    '\U{2028}', '\U{2029}', '\U{202F}', '\U{205F}', '\U{3000}', '\U{FEFF}'
  }

  predicate IsSpace(c: char) { c in Whitespace }

  /** `\d`: an ASCII digit. */
  predicate IsDigit(c: char) { '0' <= c <= '9' }

  /** `[a-zA-Z_]`: a character that starts an identifier. */
  predicate IsIdentStart(c: char) { 'a' <= c <= 'z' || 'A' <= c <= 'Z' || c == '_' }

  /** `[a-zA-Z_0-9]`: a character that continues an identifier. */
  predicate IsIdentChar(c: char) { IsIdentStart(c) || IsDigit(c) }

  predicate NotQuote(c: char) { c != '"' }

  predicate IsDigits(s: string) { forall i | 0 <= i < |s| :: IsDigit(s[i]) }

  /** The keyword table of the lexer's constructor. */
  const Keywords: map<string, Kind> := map[
    "if" := IF, "else" := ELSE, "while" := WHILE, "for" := FOR,
    "let" := LET, "print" := PRINT, "return" := RETURN
  ]

  /** The single-character symbol map of `getNextToken`. */
  const Symbols: map<char, Kind> := map[
    '+' := PLUS, '-' := MINUS, '*' := MULTIPLY, '/' := DIVIDE,
    '(' := LPAREN, ')' := RPAREN, '{' := LBRACE, '}' := RBRACE,
    ';' := SEMICOLON, '<' := LESS, '>' := GREATER, ',' := COMMA
  ]

  // ---------------------------------------------------------------------------
  // The cursor
  // ---------------------------------------------------------------------------

  /** `currentChar` for a cursor at `pos`: the character there, or `null` past the end. */
  function CharAt(input: string, pos: nat): Option<char>
  {
    if pos < |input| then Some(input[pos]) else None
  }

  /** Characters left under and after the cursor; the lexer's termination measure. */
  function Rem(input: string, pos: nat): nat
  {
    if pos < |input| then |input| - pos else 0
  }

  /** The end of the maximal run of `inClass` characters that starts at `pos`. */
  function SpanEnd(input: string, pos: nat, inClass: char -> bool): (e: nat)
    decreases |input| - pos
    ensures pos <= e
    ensures e == pos || e <= |input|
    ensures forall i | pos <= i < e :: inClass(input[i])
    ensures e < |input| ==> !inClass(input[e])
  {
    if pos < |input| && inClass(input[pos]) then SpanEnd(input, pos + 1, inClass) else pos
  }

  // ---------------------------------------------------------------------------
  // Number literals: the value `parseInt` / `parseFloat` give the scanned text
  // ---------------------------------------------------------------------------

  function DigitValue(c: char): nat
    requires IsDigit(c)
  {
    c as int - '0' as int
  }

  /** The value of a decimal digit string, read from the left. */
  function DigitsValue(ds: string): nat
    requires IsDigits(ds)
  {
    if |ds| == 0 then 0 else DigitsValue(ds[..|ds| - 1]) * 10 + DigitValue(ds[|ds| - 1])
  }

  /** The value of the digits after a decimal point. */
  function FracValue(ds: string): (f: real)
    requires IsDigits(ds)
    ensures 0.0 <= f < 1.0
  {
    if |ds| == 0 then 0.0
    else assert IsDigits(ds[1..]); (DigitValue(ds[0]) as real + FracValue(ds[1..])) / 10.0
  }

  /** `parseInt` applied to a text that starts with a digit: the leading digit run. */
  function ParseInt(s: string): real
  {
    DigitsValue(s[..SpanEnd(s, 0, IsDigit)]) as real
  }

  /** `parseFloat` applied to a text that starts with a digit: digits, `.`, digits. */
  function ParseFloat(s: string): real
  {
    var k := SpanEnd(s, 0, IsDigit);
    var whole := DigitsValue(s[..k]) as real;
    if k < |s| && s[k] == '.' then whole + FracValue(s[k + 1..SpanEnd(s, k + 1, IsDigit)])
    else whole
  }

  // ---------------------------------------------------------------------------
  // One call of getNextToken, as a function of the input and the cursor
  // ---------------------------------------------------------------------------

  /** The token for a scanned word: its keyword kind, or IDENTIFIER; the value is the word. */
  function WordToken(w: string): Token
  {
    Token(if w in Keywords then Keywords[w] else IDENTIFIER, TextLit(w))
  }

  /** The number token starting at the digit at `p`, and the position after it. */
  function NumberAt(input: string, p: nat): (Token, nat)
    requires p < |input| && IsDigit(input[p])
  {
    var e1 := SpanEnd(input, p, IsDigit);
    if CharAt(input, e1) == Some('.') then
      var e2 := SpanEnd(input, e1 + 1, IsDigit);
      (Token(NUMBER, NumLit(ParseFloat(input[p..e2]))), e2)
    else
      (Token(NUMBER, NumLit(ParseInt(input[p..e1]))), e1)
  }

  /** The string token whose opening quote is at `p`, and the position after the closing quote. */
  function StringAt(input: string, p: nat): (Token, nat)
    requires p < |input|
  {
    var e := SpanEnd(input, p + 1, NotQuote);
    (Token(STRING, TextLit(input[p + 1..e])), e + 1)
  }

  /** The token that starts at the non-space character at `p`. */
  function ScanAt(input: string, p: nat): Result<(Token, nat), Error>
    requires p < |input|
  {
    var c := input[p];
    var next := CharAt(input, p + 1);
    if IsIdentStart(c) then
      var e := SpanEnd(input, p, IsIdentChar);
      Success((WordToken(input[p..e]), e))
    else if IsDigit(c) then Success(NumberAt(input, p))
    else if c == '"' then Success(StringAt(input, p))
    else if c == '=' && next == Some('=') then Success((Token(EQUALS, TextLit("==")), p + 2))
    else if c == '!' && next == Some('=') then Success((Token(NOT_EQUALS, TextLit("!=")), p + 2))
    else if c == '<' && next == Some('=') then Success((Token(LESS_EQUALS, TextLit("<=")), p + 2))
    else if c == '>' && next == Some('=') then Success((Token(GREATER_EQUALS, TextLit(">=")), p + 2))
    else if c == '=' then Success((Token(ASSIGN, TextLit("=")), p + 1))
    else if c in Symbols then Success((Token(Symbols[c], TextLit([c])), p + 1))
    else Failure(LexError(c))
  }

  /**
   * One call of getNextToken from a cursor at `pos`: skip whitespace, then
   * EOF at the end of the input, or the token that starts there, with the
   * new cursor position.  The position never moves back, a token other than
   * EOF consumes at least one character, and every token has the value shape
   * of its kind.
   */
  function Scan(input: string, pos: nat): (r: Result<(Token, nat), Error>)
    ensures r.Success? ==> pos <= r.value.1
    ensures r.Success? ==>
      Rem(input, r.value.1) + (if r.value.0.kind == EOF then 0 else 1) <= Rem(input, pos)
    ensures r.Success? ==> WellShaped(r.value.0)
  {
    var p := SpanEnd(input, pos, IsSpace);
    if p < |input| then ScanAt(input, p) else Success((Token(EOF, NoLit), p))
  }

  /** What one call of getNextToken gives: a token and the position after it, or an error. */
  datatype Pull = Got(tok: Token, after: nat) | Err(error: Error)

  function PullOf(r: Result<(Token, nat), Error>): Pull
  {
    match r
    case Success((t, p)) => Got(t, p)
    case Failure(e) => Err(e)
  }

  /**
   * What repeated calls of getNextToken from `pos` give, up to and including
   * the first EOF or the first error: every pull but the last is a token
   * other than EOF, and the last is EOF or an error.
   */
  function Pulls(input: string, pos: nat): (ps: seq<Pull>)
    decreases Rem(input, pos)
    ensures |ps| > 0 && ps[0] == PullOf(Scan(input, pos))
    ensures forall j | 0 <= j < |ps| - 1 :: ps[j].Got? && ps[j].tok.kind != EOF
    ensures ps[|ps| - 1].Err? || ps[|ps| - 1].tok.kind == EOF
  {
    match Scan(input, pos)
    case Failure(e) => [Err(e)]
    case Success((t, p)) =>
      if t.kind == EOF then [Got(t, p)] else [Got(t, p)] + Pulls(input, p)
  }

  // ---------------------------------------------------------------------------
  // The lexer object
  // ---------------------------------------------------------------------------

  class Lexer {
    const input: string
    var position: nat
    var currentChar: Option<char>

    /** `currentChar` is always the character under the cursor. */
    ghost predicate Valid()
      reads this
    {
      currentChar == CharAt(input, position)
    }

    constructor (input: string)
      ensures Valid() && this.input == input && position == 0
    {
      this.input := input;
      position := 0;
      currentChar := CharAt(input, 0);
    }

    method Advance()
      modifies this
      ensures Valid() && position == old(position) + 1
    {
      position := position + 1;
      currentChar := if position < |input| then Some(input[position]) else None;
    }

    method SkipWhitespace()
      requires Valid()
      modifies this
      ensures Valid() && position == SpanEnd(input, old(position), IsSpace)
    {
      while currentChar.Some? && IsSpace(currentChar.value)
        invariant Valid() && old(position) <= position
        invariant SpanEnd(input, position, IsSpace) == SpanEnd(input, old(position), IsSpace)
        decreases |input| - position
      {
        Advance();
      }
    }

    /** One character of lookahead past the cursor (`null` past the end). */
    method Peek() returns (c: Option<char>)
      ensures c == CharAt(input, position + 1)
    {
      var peekPos := position + 1;
      c := if peekPos < |input| then Some(input[peekPos]) else None;
    }

    method Identifier() returns (t: Token)
      requires Valid() && currentChar.Some? && IsIdentStart(currentChar.value)
      modifies this
      ensures Valid() && position == SpanEnd(input, old(position), IsIdentChar)
      ensures t == WordToken(input[old(position)..position])
    {
      var result := "";
      while currentChar.Some? && IsIdentChar(currentChar.value)
        invariant Valid() && old(position) <= position <= |input|
        invariant result == input[old(position)..position]
        invariant SpanEnd(input, position, IsIdentChar) == SpanEnd(input, old(position), IsIdentChar)
        decreases |input| - position
      {
        result := result + [currentChar.value];
        Advance();
      }
      t := if result in Keywords then Token(Keywords[result], TextLit(result))
           else Token(IDENTIFIER, TextLit(result));
    }

    /** The digit loop of `number`, appending each digit to `result`; it runs twice per literal. */
    method ReadDigits(result: string) returns (r: string)
      requires Valid() && position <= |input|
      modifies this
      ensures Valid() && position == SpanEnd(input, old(position), IsDigit)
      ensures r == result + input[old(position)..position]
    {
      r := result;
      while currentChar.Some? && IsDigit(currentChar.value)
        invariant Valid() && old(position) <= position <= |input|
        invariant r == result + input[old(position)..position]
        invariant SpanEnd(input, position, IsDigit) == SpanEnd(input, old(position), IsDigit)
        decreases |input| - position
      {
        r := r + [currentChar.value];
        Advance();
      }
    }

    method Number() returns (t: Token)
      requires Valid() && currentChar.Some? && IsDigit(currentChar.value)
      modifies this
      ensures Valid() && (t, position) == NumberAt(input, old(position))
    {
      var result := ReadDigits("");
      ghost var e1 := position;
      if currentChar == Some('.') {
        result := result + [currentChar.value];
        Advance();
        result := ReadDigits(result);
        assert result == input[old(position)..position];
        t := Token(NUMBER, NumLit(ParseFloat(result)));
        assert (t, position) == NumberAt(input, old(position)) by {
          assert CharAt(input, e1) == Some('.');
        }
      } else {
        assert result == input[old(position)..position];
        t := Token(NUMBER, NumLit(ParseInt(result)));
        assert (t, position) == NumberAt(input, old(position)) by {
          assert CharAt(input, e1) != Some('.');
        }
      }
    }

    method String() returns (t: Token)
      requires Valid() && currentChar == Some('"')
      modifies this
      ensures Valid() && (t, position) == StringAt(input, old(position))
    {
      var result := "";
      Advance();  // the opening quote
      while currentChar.Some? && currentChar.value != '"'
        invariant Valid() && old(position) + 1 <= position <= |input|
        invariant result == input[old(position) + 1..position]
        invariant SpanEnd(input, position, NotQuote) == SpanEnd(input, old(position) + 1, NotQuote)
        decreases |input| - position
      {
        result := result + [currentChar.value];
        Advance();
      }
      Advance();  // the closing quote, or one past the end of the input
      t := Token(STRING, TextLit(result));
    }

    /**
     * One call of getNextToken.  On success it returns what `Scan` gives and
     * moves the cursor where `Scan` says; on an invalid character the cursor
     * stays on that character.
     */
    method GetNextToken() returns (r: Result<Token, Error>)
      requires Valid()
      modifies this
      ensures Valid()
      ensures Scan(input, old(position)).Success? ==>
        r == Success(Scan(input, old(position)).value.0) && position == Scan(input, old(position)).value.1
      ensures Scan(input, old(position)).Failure? ==>
        r == Failure(Scan(input, old(position)).error) && position == SpanEnd(input, old(position), IsSpace)
    {
      while currentChar.Some?
        invariant Valid() && old(position) <= position
        invariant SpanEnd(input, position, IsSpace) == SpanEnd(input, old(position), IsSpace)
        decreases |input| - position
      {
        var c := currentChar.value;
        if IsSpace(c) {
          SkipWhitespace();
          continue;
        }
        if IsIdentStart(c) {
          var t := Identifier();
          return Success(t);
        }
        if IsDigit(c) {
          var t := Number();
          return Success(t);
        }
        if c == '"' {
          var t := String();
          return Success(t);
        }
        var next := Peek();
        if c == '=' && next == Some('=') {
          Advance();
          Advance();
          return Success(Token(EQUALS, TextLit("==")));
        }
        if c == '!' && next == Some('=') {
          Advance();
          Advance();
          return Success(Token(NOT_EQUALS, TextLit("!=")));
        }
        if c == '<' && next == Some('=') {
          Advance();
          Advance();
          return Success(Token(LESS_EQUALS, TextLit("<=")));
        }
        if c == '>' && next == Some('=') {
          Advance();
          Advance();
          return Success(Token(GREATER_EQUALS, TextLit(">=")));
        }
        if c == '=' {
          Advance();
          return Success(Token(ASSIGN, TextLit("=")));
        }
        if c in Symbols {
          var token := Token(Symbols[c], TextLit([c]));
          Advance();
          return Success(token);
        }
        return Failure(LexError(c));
      }
      return Success(Token(EOF, NoLit));
    }
  }
}
