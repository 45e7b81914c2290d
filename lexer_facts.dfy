/** What one call of getNextToken promises, stated against `Lexing.Scan`. */
module LexingFacts {
  import opened Wrappers
  import opened Errors
  import opened Tokens
  import opened Lexing

  /** The token kinds a word can be classified as. */
  const KeywordKinds: set<Kind> := {IF, ELSE, WHILE, FOR, LET, PRINT, RETURN}

  /**
   * A token that starts at a letter or `_` is the maximal run of `[A-Za-z0-9_]`
   * characters from there; its value is exactly that text and its kind is a
   * keyword kind or IDENTIFIER.
   */
  lemma IdentifierIsMaximalRun(input: string, pos: nat)
    requires SpanEnd(input, pos, IsSpace) < |input|
    requires IsIdentStart(input[SpanEnd(input, pos, IsSpace)])
    ensures Scan(input, pos).Success?
    ensures var p, t, e := SpanEnd(input, pos, IsSpace), Scan(input, pos).value.0, Scan(input, pos).value.1;
      && p < e <= |input|
      && t.value == TextLit(input[p..e])
      && (forall i | p <= i < e :: IsIdentChar(input[i]))
      && (e == |input| || !IsIdentChar(input[e]))
      && (t.kind == IDENTIFIER || t.kind in KeywordKinds)
  {
    var p := SpanEnd(input, pos, IsSpace);
    assert SpanEnd(input, p, IsIdentChar) == SpanEnd(input, p + 1, IsIdentChar);
  }

  /** Exactly the seven words of the keyword table get a keyword kind; every other word is an IDENTIFIER. */
  lemma WordsAreClassified(w: string)
    ensures WordToken(w).value == TextLit(w)
    ensures w == "if" ==> WordToken(w).kind == IF
    ensures w == "else" ==> WordToken(w).kind == ELSE
    ensures w == "while" ==> WordToken(w).kind == WHILE
    ensures w == "for" ==> WordToken(w).kind == FOR
    ensures w == "let" ==> WordToken(w).kind == LET
    ensures w == "print" ==> WordToken(w).kind == PRINT
    ensures w == "return" ==> WordToken(w).kind == RETURN
    ensures WordToken(w).kind == IDENTIFIER <==> w !in {"if", "else", "while", "for", "let", "print", "return"}
  {
  }

  /**
   * The two-character operators win over their one-character prefixes:
   * `==`, `!=`, `<=`, `>=` are single tokens; `=` alone is ASSIGN, `<` and `>`
   * alone are LESS and GREATER, and `!` alone is an invalid character.
   */
  lemma OperatorsLongestFirst(input: string, pos: nat)
    requires SpanEnd(input, pos, IsSpace) < |input|
    ensures var p := SpanEnd(input, pos, IsSpace);
      var c, eq := input[p], CharAt(input, p + 1) == Some('=');
      && (c == '=' && eq ==> Scan(input, pos) == Success((Token(EQUALS, TextLit("==")), p + 2)))
      && (c == '!' && eq ==> Scan(input, pos) == Success((Token(NOT_EQUALS, TextLit("!=")), p + 2)))
      && (c == '<' && eq ==> Scan(input, pos) == Success((Token(LESS_EQUALS, TextLit("<=")), p + 2)))
      && (c == '>' && eq ==> Scan(input, pos) == Success((Token(GREATER_EQUALS, TextLit(">=")), p + 2)))
      && (c == '=' && !eq ==> Scan(input, pos) == Success((Token(ASSIGN, TextLit("=")), p + 1)))
      && (c == '<' && !eq ==> Scan(input, pos) == Success((Token(LESS, TextLit("<")), p + 1)))
      && (c == '>' && !eq ==> Scan(input, pos) == Success((Token(GREATER, TextLit(">")), p + 1)))
      && (c == '!' && !eq ==> Scan(input, pos) == Failure(LexError('!')))
  {
    var p := SpanEnd(input, pos, IsSpace);
    assert Scan(input, pos) == ScanAt(input, p);
  }

  /** The characters a token may start with (`!` only when `=` follows it). */
  predicate CanStartToken(input: string, p: nat)
    requires p < |input|
  {
    var c := input[p];
    || IsIdentStart(c) || IsDigit(c) || c == '"' || c == '=' || c in Symbols
    || (c == '!' && CharAt(input, p + 1) == Some('='))
  }

  /**
   * A call fails exactly when the first non-space character cannot start a
   * token, and the error names that character.
   */
  lemma InvalidCharacter(input: string, pos: nat)
    ensures var p := SpanEnd(input, pos, IsSpace);
      Scan(input, pos).Failure? <==> p < |input| && !CanStartToken(input, p)
    ensures Scan(input, pos).Failure? ==>
      Scan(input, pos).error == LexError(input[SpanEnd(input, pos, IsSpace)])
  {
  }

  /**
   * A call returns EOF exactly when only whitespace is left, and a call from
   * where an EOF left the cursor returns EOF again without moving it.
   */
  lemma EofIsSticky(input: string, pos: nat)
    ensures Scan(input, pos).Success? && Scan(input, pos).value.0.kind == EOF
        <==> SpanEnd(input, pos, IsSpace) >= |input|
    ensures Scan(input, pos).Success? && Scan(input, pos).value.0.kind == EOF ==>
      var p := Scan(input, pos).value.1;
      Scan(input, p) == Success((Token(EOF, NoLit), p))
  {
    var p := SpanEnd(input, pos, IsSpace);
    if p < |input| {
      var c := input[p];
      if IsIdentStart(c) {
        IdentifierIsMaximalRun(input, pos);
      }
    }
  }

  /** A string token's value is the text strictly between the quotes; it contains no quote. */
  lemma StringLiteral(input: string, pos: nat)
    requires SpanEnd(input, pos, IsSpace) < |input| && input[SpanEnd(input, pos, IsSpace)] == '"'
    ensures Scan(input, pos).Success?
    ensures var p, t, e := SpanEnd(input, pos, IsSpace), Scan(input, pos).value.0, Scan(input, pos).value.1;
      && t.kind == STRING
      && p + 2 <= e <= |input| + 1
      && t.value == TextLit(input[p + 1..e - 1])
      && (forall i | p < i < e - 1 :: input[i] != '"')
      && (e <= |input| ==> input[e - 1] == '"')
  {
  }

  /** An unterminated string takes the rest of the input without an error. */
  lemma UnterminatedString(input: string, pos: nat)
    requires SpanEnd(input, pos, IsSpace) < |input| && input[SpanEnd(input, pos, IsSpace)] == '"'
    requires forall i | SpanEnd(input, pos, IsSpace) < i < |input| :: input[i] != '"'
    ensures var p := SpanEnd(input, pos, IsSpace);
      Scan(input, pos) == Success((Token(STRING, TextLit(input[p + 1..])), |input| + 1))
  {
    var p := SpanEnd(input, pos, IsSpace);
    SpanEndRunsToEnd(input, p + 1, NotQuote);
    assert StringAt(input, p) == (Token(STRING, TextLit(input[p + 1..|input|])), |input| + 1);
    assert input[p + 1..|input|] == input[p + 1..];
  }

  lemma {:induction false} SpanEndRunsToEnd(input: string, j: nat, inClass: char -> bool)
    requires j <= |input|
    requires forall i | j <= i < |input| :: inClass(input[i])
    ensures SpanEnd(input, j, inClass) == |input|
    decreases |input| - j
  {
    if j < |input| {
      SpanEndRunsToEnd(input, j + 1, inClass);
    }
  }

  /** A run measured inside a slice that covers it ends where it ends in the whole text. */
  lemma {:induction false} SpanEndOfSlice(input: string, p: nat, q: nat, j: nat, inClass: char -> bool)
    requires p <= j && q <= |input|
    requires SpanEnd(input, j, inClass) <= q
    ensures SpanEnd(input[p..q], j - p, inClass) == SpanEnd(input, j, inClass) - p
    decreases q - j
  {
    if j < q && inClass(input[j]) {
      SpanEndOfSlice(input, p, q, j + 1, inClass);
    }
  }

  /**
   * After whitespace, the first character alone picks the token rule: a
   * letter or `_` a word, a digit a number, a quote a string.
   */
  lemma ScanDispatch(input: string, pos: nat)
    requires SpanEnd(input, pos, IsSpace) < |input|
    ensures var p := SpanEnd(input, pos, IsSpace);
      && (IsIdentStart(input[p]) ==>
            Scan(input, pos) == Success((WordToken(input[p..SpanEnd(input, p, IsIdentChar)]), SpanEnd(input, p, IsIdentChar))))
      && (IsDigit(input[p]) ==> Scan(input, pos) == Success(NumberAt(input, p)))
      && (input[p] == '"' ==> Scan(input, pos) == Success(StringAt(input, p)))
  {
  }

  /**
   * A number token consumes a digit run, then optionally `.` and a further
   * digit run; its value is the decimal value of that text, whose integer
   * part is the value of the digits before the point.
   */
  lemma NumberLiteral(input: string, p: nat)
    requires p < |input| && IsDigit(input[p])
    ensures var t, e := NumberAt(input, p).0, NumberAt(input, p).1;
      var e1 := SpanEnd(input, p, IsDigit);
      && t.kind == NUMBER && t.value.NumLit?
      && p < e1 <= e <= |input|
      && IsDigits(input[p..e1])
      && (e == e1 ==> e1 == |input| || input[e1] != '.')
      && (e > e1 ==> input[e1] == '.' && IsDigits(input[e1 + 1..e]) && (e == |input| || !IsDigit(input[e])))
      && t.value.r == DigitsValue(input[p..e1]) as real + (if e > e1 then FracValue(input[e1 + 1..e]) else 0.0)
      && t.value.r.Floor == DigitsValue(input[p..e1])
  {
    if CharAt(input, SpanEnd(input, p, IsDigit)) == Some('.') {
      NumberWithPoint(input, p);
    } else {
      NumberWithoutPoint(input, p);
    }
  }

  /** `NumberLiteral` for a literal with a decimal point, stated on `NumberAt`. */
  lemma NumberWithPoint(input: string, p: nat)
    requires p < |input| && IsDigit(input[p])
    requires CharAt(input, SpanEnd(input, p, IsDigit)) == Some('.')
    ensures var e1, e2 := SpanEnd(input, p, IsDigit), SpanEnd(input, SpanEnd(input, p, IsDigit) + 1, IsDigit);
      && IsDigits(input[p..e1]) && IsDigits(input[e1 + 1..e2])
      && NumberAt(input, p) == (Token(NUMBER, NumLit(DigitsValue(input[p..e1]) as real + FracValue(input[e1 + 1..e2]))), e2)
      && (DigitsValue(input[p..e1]) as real + FracValue(input[e1 + 1..e2])).Floor == DigitsValue(input[p..e1])
  {
    var e1 := SpanEnd(input, p, IsDigit);
    var e2 := SpanEnd(input, e1 + 1, IsDigit);
    ParseFloatOfLiteral(input, p);
    assert NumberAt(input, p) == (Token(NUMBER, NumLit(ParseFloat(input[p..e2]))), e2);
    FloorOfNumber(DigitsValue(input[p..e1]), FracValue(input[e1 + 1..e2]));
  }

  /** `parseFloat` of the scanned text reads the two digit runs around the point. */
  lemma ParseFloatOfLiteral(input: string, p: nat)
    requires p < |input| && IsDigit(input[p])
    requires CharAt(input, SpanEnd(input, p, IsDigit)) == Some('.')
    ensures var e1, e2 := SpanEnd(input, p, IsDigit), SpanEnd(input, SpanEnd(input, p, IsDigit) + 1, IsDigit);
      && IsDigits(input[p..e1]) && IsDigits(input[e1 + 1..e2])
      && ParseFloat(input[p..e2]) == DigitsValue(input[p..e1]) as real + FracValue(input[e1 + 1..e2])
  {
    var e1 := SpanEnd(input, p, IsDigit);
    var e2 := SpanEnd(input, e1 + 1, IsDigit);
    assert p < e1 < |input| && e1 < e2 <= |input|;
    var s := input[p..e2];
    var k := e1 - p;
    SpanEndOfSlice(input, p, e2, p, IsDigit);
    assert SpanEnd(s, 0, IsDigit) == k;
    SpanEndOfSlice(input, p, e2, e1 + 1, IsDigit);
    assert SpanEnd(s, k + 1, IsDigit) == |s|;
    assert s[..k] == input[p..e1];
    assert s[k + 1..] == input[e1 + 1..e2];
    ParseFloatSplit(s, k);
    assert IsDigits(input[p..e1]) && IsDigits(input[e1 + 1..e2]);
    assert ParseFloat(s) == DigitsValue(input[p..e1]) as real + FracValue(input[e1 + 1..e2]);
  }

  lemma ParseFloatSplit(s: string, k: nat)
    requires k < |s| && s[k] == '.'
    requires SpanEnd(s, 0, IsDigit) == k && SpanEnd(s, k + 1, IsDigit) == |s|
    ensures IsDigits(s[..k]) && IsDigits(s[k + 1..])
    ensures ParseFloat(s) == DigitsValue(s[..k]) as real + FracValue(s[k + 1..])
  {
    assert s[k + 1..|s|] == s[k + 1..];
  }

  lemma FloorOfNumber(w: nat, f: real)
    requires 0.0 <= f < 1.0
    ensures (w as real + f).Floor == w
  {
  }

  /** `NumberLiteral` for a literal without a decimal point, stated on `NumberAt`. */
  lemma NumberWithoutPoint(input: string, p: nat)
    requires p < |input| && IsDigit(input[p])
    requires CharAt(input, SpanEnd(input, p, IsDigit)) != Some('.')
    ensures var e1 := SpanEnd(input, p, IsDigit);
      && IsDigits(input[p..e1])
      && NumberAt(input, p) == (Token(NUMBER, NumLit(DigitsValue(input[p..e1]) as real)), e1)
  {
    var e1 := SpanEnd(input, p, IsDigit);
    var s := input[p..e1];
    SpanEndOfSlice(input, p, e1, p, IsDigit);
    assert s[..SpanEnd(s, 0, IsDigit)] == s;
  }

  // A few literals, as parseInt / parseFloat read them.

  lemma IntegerValues()
    ensures ParseInt("42") == 42.0
    ensures ParseInt("007") == 7.0
  {
    assert SpanEnd("42", 0, IsDigit) == 2 by {
      assert SpanEnd("42", 2, IsDigit) == 2;
    }
    assert "42"[..2] == "42";
    assert DigitsValue("4") == 4 by { assert "4"[..0] == ""; }
    assert "42"[..1] == "4";
    assert SpanEnd("007", 0, IsDigit) == 3 by {
      assert SpanEnd("007", 3, IsDigit) == 3;
    }
    assert "007"[..3] == "007" && "007"[..2] == "00" && "00"[..1] == "0" && "0"[..0] == "";
  }

  lemma FloatValues()
    ensures ParseFloat("1.") == 1.0
    ensures ParseFloat("2.5") == 2.5
    ensures ParseFloat("10.25") == 10.25
  {
    assert SpanEnd("1.", 0, IsDigit) == 1;
    assert "1."[..1] == "1" && "1"[..0] == "";
    assert SpanEnd("1.", 2, IsDigit) == 2;
    assert "1."[2..2] == "";
    assert SpanEnd("2.5", 0, IsDigit) == 1;
    assert SpanEnd("2.5", 2, IsDigit) == 3 by {
      assert SpanEnd("2.5", 3, IsDigit) == 3;
    }
    assert "2.5"[..1] == "2" && "2"[..0] == "";
    assert "2.5"[2..3] == "5" && "5"[1..] == "";
    assert SpanEnd("10.25", 0, IsDigit) == 2 by {
      assert SpanEnd("10.25", 2, IsDigit) == 2;
    }
    assert SpanEnd("10.25", 3, IsDigit) == 5 by {
      assert SpanEnd("10.25", 5, IsDigit) == 5;
      assert SpanEnd("10.25", 4, IsDigit) == 5;
    }
    assert "10.25"[..2] == "10" && "10"[..1] == "1" && "1"[..0] == "";
    assert "10.25"[3..5] == "25" && "25"[1..] == "5" && "5"[1..] == "";
  }

  /**
   * The pull after a token is the next call of getNextToken from where that
   * token left the cursor; after EOF that call returns the same EOF without
   * moving.  So the pull sequence is exactly what a client that keeps calling
   * getNextToken sees.
   */
  lemma {:induction false} PullsStep(input: string, pos: nat, i: nat)
    requires i < |Pulls(input, pos)| && Pulls(input, pos)[i].Got?
    ensures var ps := Pulls(input, pos);
      var q := ps[i].after;
      && (ps[i].tok.kind != EOF ==> i + 1 < |ps| && ps[i + 1] == PullOf(Scan(input, q)))
      && (ps[i].tok.kind == EOF ==> Scan(input, q) == Success((ps[i].tok, q)))
    decreases i
  {
    var ps := Pulls(input, pos);
    assert Scan(input, pos).Success?;
    var s := Scan(input, pos).value;
    assert ps[0] == Got(s.0, s.1);
    if i == 0 {
      if s.0.kind == EOF {
        EofIsSticky(input, pos);
        assert s.0 == Token(EOF, NoLit);
      } else {
        assert ps == [Got(s.0, s.1)] + Pulls(input, s.1);
      }
    } else {
      assert ps[i] == Pulls(input, s.1)[i - 1];
      PullsStep(input, s.1, i - 1);
    }
  }

  /**
   * What `Pulls` promises, one pull at a time: every pull before the last is
   * a token other than EOF, the pull after a token is what scanning from the
   * token's end gives, and scanning after a final EOF gives that EOF again.
   */
  ghost predicate Handed(input: string, ps: seq<Pull>)
  {
    && |ps| > 0
    && (forall j | 0 <= j < |ps| - 1 :: ps[j].Got? && ps[j].tok.kind != EOF)
    && (ps[|ps| - 1].Err? || ps[|ps| - 1].tok.kind == EOF)
    && forall j {:trigger Scan(input, ps[j].after)} | 0 <= j < |ps| && ps[j].Got? ::
         if j + 1 < |ps| then ps[j + 1] == PullOf(Scan(input, ps[j].after))
         else Scan(input, ps[j].after) == Success((ps[j].tok, ps[j].after))
  }

  lemma PullsHanded(input: string, pos: nat)
    ensures Handed(input, Pulls(input, pos))
  {
    var ps := Pulls(input, pos);
    forall j | 0 <= j < |ps| && ps[j].Got?
      ensures if j + 1 < |ps| then ps[j + 1] == PullOf(Scan(input, ps[j].after))
              else Scan(input, ps[j].after) == Success((ps[j].tok, ps[j].after))
    {
      PullsStep(input, pos, j);
      if j + 1 < |ps| {
        assert ps[j].tok.kind != EOF;
      } else {
        assert ps[j].tok.kind == EOF;
      }
    }
    assert |ps| > 0;
    assert forall j | 0 <= j < |ps| - 1 :: ps[j].Got? && ps[j].tok.kind != EOF;
    assert ps[|ps| - 1].Err? || ps[|ps| - 1].tok.kind == EOF;
    assert forall j {:trigger Scan(input, ps[j].after)} | 0 <= j < |ps| && ps[j].Got? ::
         if j + 1 < |ps| then ps[j + 1] == PullOf(Scan(input, ps[j].after))
         else Scan(input, ps[j].after) == Success((ps[j].tok, ps[j].after));
  }
}
