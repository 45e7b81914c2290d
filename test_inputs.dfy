/**
 * The assertions of src/test.js on the input strings themselves: each string
 * lexes to the token stream that `TestExpressions` reasons about, so the whole
 * pipeline, from the text to the value, yields what the test expects.
 */
module TestInputs {
  import opened Wrappers
  import opened Tokens
  import opened Lexing
  import opened Parsing
  import opened Values
  import opened Interpreting
  import opened Pipeline
  import opened LexingFacts
  import opened TestExpressions

  // ---------------------------------------------------------------------------
  // One call of getNextToken on the lexemes the tests use
  // ---------------------------------------------------------------------------

  /** A cursor on a character outside the class does not move; one inside moves on. */
  lemma SpanEndStep(s: string, p: nat, inClass: char -> bool)
    requires p < |s|
    ensures !inClass(s[p]) ==> SpanEnd(s, p, inClass) == p
    ensures inClass(s[p]) ==> SpanEnd(s, p, inClass) == SpanEnd(s, p + 1, inClass)
  {
  }

  /** A number token of one digit at `p`, not followed by a digit or a point. */
  lemma ScanOneDigit(s: string, pos: nat, p: nat)
    requires SpanEnd(s, pos, IsSpace) == p && p < |s| && IsDigit(s[p])
    requires p + 1 == |s| || (!IsDigit(s[p + 1]) && s[p + 1] != '.')
    ensures Scan(s, pos) == Success((NumTok(DigitValue(s[p]) as real), p + 1))
  {
    SpanEndStep(s, p, IsDigit);
    if p + 1 < |s| { SpanEndStep(s, p + 1, IsDigit); }
    ScanDispatch(s, pos);
    NumberWithoutPoint(s, p);
    var w := s[p..p + 1];
    assert w[..0] == [];
  }

  /** A number token of two digits at `p`, not followed by a digit or a point. */
  lemma ScanTwoDigits(s: string, pos: nat, p: nat)
    requires SpanEnd(s, pos, IsSpace) == p && p + 1 < |s| && IsDigit(s[p]) && IsDigit(s[p + 1])
    requires p + 2 == |s| || (!IsDigit(s[p + 2]) && s[p + 2] != '.')
    ensures Scan(s, pos) == Success((NumTok((DigitValue(s[p]) * 10 + DigitValue(s[p + 1])) as real), p + 2))
  {
    SpanEndStep(s, p, IsDigit);
    SpanEndStep(s, p + 1, IsDigit);
    if p + 2 < |s| { SpanEndStep(s, p + 2, IsDigit); }
    ScanDispatch(s, pos);
    NumberWithoutPoint(s, p);
    var w := s[p..p + 2];
    assert w[..1] == [s[p]] && w[..1][..0] == [] && w[1] == s[p + 1];
    assert DigitsValue(w[..1]) == DigitValue(s[p]);
    assert DigitsValue(w) == DigitsValue(w[..1]) * 10 + DigitValue(w[1]);
  }

  /** A one-character operator or bracket at `p`. */
  lemma ScanSymbol(s: string, pos: nat, p: nat, k: Kind)
    requires SpanEnd(s, pos, IsSpace) == p && p < |s|
    requires s[p] in Symbols && Symbols[s[p]] == k
    requires s[p] != '<' && s[p] != '>'
    ensures Scan(s, pos) == Success((SymTok(k, [s[p]]), p + 1))
  {
  }

  /** Only whitespace from `pos` on: EOF. */
  lemma ScanEnd(s: string, pos: nat)
    requires SpanEnd(s, pos, IsSpace) == |s|
    ensures Scan(s, pos) == Success((Token(EOF, NoLit), |s|))
  {
  }

  /** A token that is not EOF, followed by the pulls after it. */
  lemma PullsCons(s: string, p: nat, t: Token, q: nat)
    requires Scan(s, p) == Success((t, q)) && t.kind != EOF
    ensures Pulls(s, p) == [Got(t, q)] + Pulls(s, q)
  {
  }

  /** A stream the lexer builds from `s` that yields `v` makes the whole run of `s` yield `v`. */
  lemma TextYields(s: string, v: Value)
    requires Pulls(s, 0)[0].Got? && Yields(Pulls(s, 0), v)
    ensures Evaluate(s, 0).result == Success(Some(v))
  {
  }

  // ---------------------------------------------------------------------------
  // One token after at most one blank, then the rest of the stream
  // ---------------------------------------------------------------------------

  /** Digits are not whitespace. */
  lemma DigitNotSpace(c: char)
    requires IsDigit(c)
    ensures !IsSpace(c)
  {
  }

  /** Nor are the operators and brackets. */
  lemma SymbolNotSpace(c: char)
    requires c == '+' || c == '-' || c == '*' || c == '/' || c == '(' || c == ')'
    ensures !IsSpace(c)
  {
  }

  /** A blank and then a character that is not whitespace: the cursor skips exactly the blank. */
  lemma OneBlank(s: string, pos: nat)
    requires pos + 1 < |s| && s[pos] == ' ' && !IsSpace(s[pos + 1])
    ensures SpanEnd(s, pos, IsSpace) == pos + 1
  {
    SpanEndStep(s, pos, IsSpace);
    SpanEndStep(s, pos + 1, IsSpace);
  }

  /** The cursor at `pos` skips no blank or one; then `p` is where the next token starts. */
  ghost predicate Before(s: string, pos: nat, p: nat)
  {
    p < |s| && (p == pos || (p == pos + 1 && s[pos] == ' '))
  }

  /** ... so skipping whitespace from `pos` stops at `p`. */
  lemma SkipBefore(s: string, pos: nat, p: nat)
    requires Before(s, pos, p) && !IsSpace(s[p])
    ensures SpanEnd(s, pos, IsSpace) == p
  {
    if p == pos { SpanEndStep(s, p, IsSpace); } else { OneBlank(s, pos); }
  }

  /** A one-digit number after at most one blank, then the pulls after it. */
  lemma OneDigitStep(s: string, pos: nat, p: nat)
    requires Before(s, pos, p) && IsDigit(s[p])
    requires p + 1 == |s| || (!IsDigit(s[p + 1]) && s[p + 1] != '.')
    ensures Pulls(s, pos) == [Got(NumTok(DigitValue(s[p]) as real), p + 1)] + Pulls(s, p + 1)
  {
    DigitNotSpace(s[p]);
    SkipBefore(s, pos, p);
    ScanOneDigit(s, pos, p);
    PullsCons(s, pos, NumTok(DigitValue(s[p]) as real), p + 1);
  }

  /** A two-digit number of value `v` after at most one blank, then the pulls after it. */
  lemma TwoDigitStep(s: string, pos: nat, p: nat, v: nat)
    requires Before(s, pos, p) && p + 1 < |s| && IsDigit(s[p]) && IsDigit(s[p + 1])
    requires DigitValue(s[p]) * 10 + DigitValue(s[p + 1]) == v
    requires p + 2 == |s| || (!IsDigit(s[p + 2]) && s[p + 2] != '.')
    ensures Pulls(s, pos) == [Got(NumTok(v as real), p + 2)] + Pulls(s, p + 2)
  {
    DigitNotSpace(s[p]);
    SkipBefore(s, pos, p);
    ScanTwoDigits(s, pos, p);
    PullsCons(s, pos, NumTok(v as real), p + 2);
  }

  /** The one-character tokens the tests use, with their kinds. */
  predicate OperatorChar(c: char, k: Kind)
  {
    || (c == '+' && k == PLUS) || (c == '-' && k == MINUS) || (c == '*' && k == MULTIPLY)
    || (c == '/' && k == DIVIDE) || (c == '(' && k == LPAREN) || (c == ')' && k == RPAREN)
  }

  /** An operator or bracket after at most one blank, then the pulls after it. */
  lemma SymbolStep(s: string, pos: nat, p: nat, c: char, k: Kind)
    requires Before(s, pos, p) && s[p] == c && OperatorChar(c, k)
    ensures Pulls(s, pos) == [Got(SymTok(k, [c]), p + 1)] + Pulls(s, p + 1)
  {
    SymbolNotSpace(c);
    SkipBefore(s, pos, p);
    assert c in Symbols && Symbols[c] == k;
    ScanSymbol(s, pos, p, k);
    PullsCons(s, pos, SymTok(k, [c]), p + 1);
  }

  /** The cursor at the end of the input: EOF. */
  lemma EndStep(s: string)
    ensures Pulls(s, |s|) == [Got(Token(EOF, NoLit), |s|)]
  {
    ScanEnd(s, |s|);
  }

  // ---------------------------------------------------------------------------
  // Proof helpers that model nothing.  `Cons2`..`Cons8` restate a pull in front
  // of a display as one display, and `CarriesThree`..`CarriesSeven` restate a
  // display as `Carries`; they keep the per-input lemmas below from asking the
  // solver to compare long displays element by element.
  // ---------------------------------------------------------------------------

  /** A pull in front of a display of pulls, flattened into one display. */
  lemma Cons2(ps: seq<Pull>, a: Pull, b: Pull)
    requires ps == [a] + [b]
    ensures ps == [a, b]
  {
  }

  lemma Cons3(ps: seq<Pull>, a: Pull, b: Pull, c: Pull)
    requires ps == [a] + [b, c]
    ensures ps == [a, b, c]
  {
  }

  lemma Cons4(ps: seq<Pull>, a: Pull, b: Pull, c: Pull, d: Pull)
    requires ps == [a] + [b, c, d]
    ensures ps == [a, b, c, d]
  {
  }

  lemma Cons5(ps: seq<Pull>, a: Pull, b: Pull, c: Pull, d: Pull, e: Pull)
    requires ps == [a] + [b, c, d, e]
    ensures ps == [a, b, c, d, e]
  {
  }

  lemma Cons6(ps: seq<Pull>, a: Pull, b: Pull, c: Pull, d: Pull, e: Pull, f: Pull)
    requires ps == [a] + [b, c, d, e, f]
    ensures ps == [a, b, c, d, e, f]
  {
  }

  lemma Cons7(ps: seq<Pull>, a: Pull, b: Pull, c: Pull, d: Pull, e: Pull, f: Pull, g: Pull)
    requires ps == [a] + [b, c, d, e, f, g]
    ensures ps == [a, b, c, d, e, f, g]
  {
  }

  lemma Cons8(ps: seq<Pull>, a: Pull, b: Pull, c: Pull, d: Pull, e: Pull, f: Pull, g: Pull, h: Pull)
    requires ps == [a] + [b, c, d, e, f, g, h]
    ensures ps == [a, b, c, d, e, f, g, h]
  {
  }

  /** Three tokens and EOF, as `Carries` states them. */
  lemma CarriesThree(ps: seq<Pull>, t0: Token, e0: nat, t1: Token, e1: nat, t2: Token, e2: nat, e3: nat)
    requires ps == [Got(t0, e0), Got(t1, e1), Got(t2, e2), Got(Token(EOF, NoLit), e3)]
    ensures ps[0].Got? && Carries(ps, 0, [t0, t1, t2]) && Tok(ps, 3).kind == EOF
  {
  }

  /** Five tokens and EOF, as `Carries` states them. */
  lemma CarriesFive(ps: seq<Pull>, t0: Token, e0: nat, t1: Token, e1: nat, t2: Token, e2: nat,
                    t3: Token, e3: nat, t4: Token, e4: nat, e5: nat)
    requires ps == [Got(t0, e0), Got(t1, e1), Got(t2, e2), Got(t3, e3), Got(t4, e4), Got(Token(EOF, NoLit), e5)]
    ensures ps[0].Got? && Carries(ps, 0, [t0, t1, t2, t3, t4]) && Tok(ps, 5).kind == EOF
  {
  }

  /** Seven tokens and EOF, as `Carries` states them. */
  lemma CarriesSeven(ps: seq<Pull>, t0: Token, e0: nat, t1: Token, e1: nat, t2: Token, e2: nat,
                     t3: Token, e3: nat, t4: Token, e4: nat, t5: Token, e5: nat, t6: Token, e6: nat, e7: nat)
    requires ps == [Got(t0, e0), Got(t1, e1), Got(t2, e2), Got(t3, e3), Got(t4, e4), Got(t5, e5), Got(t6, e6), Got(Token(EOF, NoLit), e7)]
    ensures ps[0].Got? && Carries(ps, 0, [t0, t1, t2, t3, t4, t5, t6]) && Tok(ps, 7).kind == EOF
  {
  }

  // ---------------------------------------------------------------------------
  // The inputs of src/test.js, one token per lemma from the end backwards
  // ---------------------------------------------------------------------------

  /** The tokens of `2 + 3` from position 3 on. */
  lemma TwoPlusThreeFrom3(s: string)
    requires |s| == 5
    requires s[3] == ' ' && s[4] == '3'
    ensures Pulls(s, 3) == [Got(NumTok(3.0), 5), Got(Token(EOF, NoLit), 5)]
  {
    EndStep(s);
    OneDigitStep(s, 3, 4);
    Cons2(Pulls(s, 3), Got(NumTok(3.0), 5), Got(Token(EOF, NoLit), 5));
  }

  /** The tokens of `2 + 3` from position 1 on. */
  lemma TwoPlusThreeFrom1(s: string)
    requires |s| == 5
    requires s[1] == ' ' && s[2] == '+' && s[3] == ' ' && s[4] == '3'
    ensures Pulls(s, 1) == [Got(SymTok(PLUS, "+"), 3), Got(NumTok(3.0), 5), Got(Token(EOF, NoLit), 5)]
  {
    SymbolStep(s, 1, 2, '+', PLUS);
    TwoPlusThreeFrom3(s);
    Cons3(Pulls(s, 1), Got(SymTok(PLUS, "+"), 3), Got(NumTok(3.0), 5), Got(Token(EOF, NoLit), 5));
  }

  /** The tokens of `2 + 3` from position 0 on. */
  lemma TwoPlusThreeFrom0(s: string)
    requires |s| == 5
    requires s[0] == '2' && s[1] == ' ' && s[2] == '+' && s[3] == ' ' && s[4] == '3'
    ensures Pulls(s, 0) == [Got(NumTok(2.0), 1), Got(SymTok(PLUS, "+"), 3), Got(NumTok(3.0), 5), Got(Token(EOF, NoLit), 5)]
  {
    OneDigitStep(s, 0, 0);
    TwoPlusThreeFrom1(s);
    Cons4(Pulls(s, 0), Got(NumTok(2.0), 1), Got(SymTok(PLUS, "+"), 3), Got(NumTok(3.0), 5), Got(Token(EOF, NoLit), 5));
  }

  /** `2 + 3` lexes to two numbers around `+`. */
  lemma TwoPlusThreeLexes(s: string)
    requires s == "2 + 3"
    ensures Pulls(s, 0) == [Got(NumTok(2.0), 1), Got(SymTok(PLUS, "+"), 3), Got(NumTok(3.0), 5), Got(Token(EOF, NoLit), 5)]
  {
    TwoPlusThreeFrom0(s);
  }

  /** `testExpression('2 + 3', 5)`. */
  lemma TwoPlusThreeText()
    ensures Evaluate("2 + 3", 0).result == Success(Some(Number(5.0)))
  {
    var s := "2 + 3";
    TwoPlusThreeLexes(s);
    CarriesThree(Pulls(s, 0), NumTok(2.0), 1, SymTok(PLUS, "+"), 3, NumTok(3.0), 5, 5);
    TwoPlusThree(Pulls(s, 0));
    TextYields(s, Number(5.0));
  }

  /** The tokens of `5 - 2` from position 3 on. */
  lemma FiveMinusTwoFrom3(s: string)
    requires |s| == 5
    requires s[3] == ' ' && s[4] == '2'
    ensures Pulls(s, 3) == [Got(NumTok(2.0), 5), Got(Token(EOF, NoLit), 5)]
  {
    EndStep(s);
    OneDigitStep(s, 3, 4);
    Cons2(Pulls(s, 3), Got(NumTok(2.0), 5), Got(Token(EOF, NoLit), 5));
  }

  /** The tokens of `5 - 2` from position 1 on. */
  lemma FiveMinusTwoFrom1(s: string)
    requires |s| == 5
    requires s[1] == ' ' && s[2] == '-' && s[3] == ' ' && s[4] == '2'
    ensures Pulls(s, 1) == [Got(SymTok(MINUS, "-"), 3), Got(NumTok(2.0), 5), Got(Token(EOF, NoLit), 5)]
  {
    SymbolStep(s, 1, 2, '-', MINUS);
    FiveMinusTwoFrom3(s);
    Cons3(Pulls(s, 1), Got(SymTok(MINUS, "-"), 3), Got(NumTok(2.0), 5), Got(Token(EOF, NoLit), 5));
  }

  /** The tokens of `5 - 2` from position 0 on. */
  lemma FiveMinusTwoFrom0(s: string)
    requires |s| == 5
    requires s[0] == '5' && s[1] == ' ' && s[2] == '-' && s[3] == ' ' && s[4] == '2'
    ensures Pulls(s, 0) == [Got(NumTok(5.0), 1), Got(SymTok(MINUS, "-"), 3), Got(NumTok(2.0), 5), Got(Token(EOF, NoLit), 5)]
  {
    OneDigitStep(s, 0, 0);
    FiveMinusTwoFrom1(s);
    Cons4(Pulls(s, 0), Got(NumTok(5.0), 1), Got(SymTok(MINUS, "-"), 3), Got(NumTok(2.0), 5), Got(Token(EOF, NoLit), 5));
  }

  /** `5 - 2` lexes to two numbers around `-`. */
  lemma FiveMinusTwoLexes(s: string)
    requires s == "5 - 2"
    ensures Pulls(s, 0) == [Got(NumTok(5.0), 1), Got(SymTok(MINUS, "-"), 3), Got(NumTok(2.0), 5), Got(Token(EOF, NoLit), 5)]
  {
    FiveMinusTwoFrom0(s);
  }

  /** `testExpression('5 - 2', 3)`. */
  lemma FiveMinusTwoText()
    ensures Evaluate("5 - 2", 0).result == Success(Some(Number(3.0)))
  {
    var s := "5 - 2";
    FiveMinusTwoLexes(s);
    CarriesThree(Pulls(s, 0), NumTok(5.0), 1, SymTok(MINUS, "-"), 3, NumTok(2.0), 5, 5);
    FiveMinusTwo(Pulls(s, 0));
    TextYields(s, Number(3.0));
  }

  /** The tokens of `3 * 4` from position 3 on. */
  lemma ThreeTimesFourFrom3(s: string)
    requires |s| == 5
    requires s[3] == ' ' && s[4] == '4'
    ensures Pulls(s, 3) == [Got(NumTok(4.0), 5), Got(Token(EOF, NoLit), 5)]
  {
    EndStep(s);
    OneDigitStep(s, 3, 4);
    Cons2(Pulls(s, 3), Got(NumTok(4.0), 5), Got(Token(EOF, NoLit), 5));
  }

  /** The tokens of `3 * 4` from position 1 on. */
  lemma ThreeTimesFourFrom1(s: string)
    requires |s| == 5
    requires s[1] == ' ' && s[2] == '*' && s[3] == ' ' && s[4] == '4'
    ensures Pulls(s, 1) == [Got(SymTok(MULTIPLY, "*"), 3), Got(NumTok(4.0), 5), Got(Token(EOF, NoLit), 5)]
  {
    SymbolStep(s, 1, 2, '*', MULTIPLY);
    ThreeTimesFourFrom3(s);
    Cons3(Pulls(s, 1), Got(SymTok(MULTIPLY, "*"), 3), Got(NumTok(4.0), 5), Got(Token(EOF, NoLit), 5));
  }

  /** The tokens of `3 * 4` from position 0 on. */
  lemma ThreeTimesFourFrom0(s: string)
    requires |s| == 5
    requires s[0] == '3' && s[1] == ' ' && s[2] == '*' && s[3] == ' ' && s[4] == '4'
    ensures Pulls(s, 0) == [Got(NumTok(3.0), 1), Got(SymTok(MULTIPLY, "*"), 3), Got(NumTok(4.0), 5), Got(Token(EOF, NoLit), 5)]
  {
    OneDigitStep(s, 0, 0);
    ThreeTimesFourFrom1(s);
    Cons4(Pulls(s, 0), Got(NumTok(3.0), 1), Got(SymTok(MULTIPLY, "*"), 3), Got(NumTok(4.0), 5), Got(Token(EOF, NoLit), 5));
  }

  /** `3 * 4` lexes to two numbers around `*`. */
  lemma ThreeTimesFourLexes(s: string)
    requires s == "3 * 4"
    ensures Pulls(s, 0) == [Got(NumTok(3.0), 1), Got(SymTok(MULTIPLY, "*"), 3), Got(NumTok(4.0), 5), Got(Token(EOF, NoLit), 5)]
  {
    ThreeTimesFourFrom0(s);
  }

  /** `testExpression('3 * 4', 12)`. */
  lemma ThreeTimesFourText()
    ensures Evaluate("3 * 4", 0).result == Success(Some(Number(12.0)))
  {
    var s := "3 * 4";
    ThreeTimesFourLexes(s);
    CarriesThree(Pulls(s, 0), NumTok(3.0), 1, SymTok(MULTIPLY, "*"), 3, NumTok(4.0), 5, 5);
    ThreeTimesFour(Pulls(s, 0));
    TextYields(s, Number(12.0));
  }

  /** The tokens of `10 / 2` from position 4 on. */
  lemma TenOverTwoFrom4(s: string)
    requires |s| == 6
    requires s[4] == ' ' && s[5] == '2'
    ensures Pulls(s, 4) == [Got(NumTok(2.0), 6), Got(Token(EOF, NoLit), 6)]
  {
    EndStep(s);
    OneDigitStep(s, 4, 5);
    Cons2(Pulls(s, 4), Got(NumTok(2.0), 6), Got(Token(EOF, NoLit), 6));
  }

  /** The tokens of `10 / 2` from position 2 on. */
  lemma TenOverTwoFrom2(s: string)
    requires |s| == 6
    requires s[2] == ' ' && s[3] == '/' && s[4] == ' ' && s[5] == '2'
    ensures Pulls(s, 2) == [Got(SymTok(DIVIDE, "/"), 4), Got(NumTok(2.0), 6), Got(Token(EOF, NoLit), 6)]
  {
    SymbolStep(s, 2, 3, '/', DIVIDE);
    TenOverTwoFrom4(s);
    Cons3(Pulls(s, 2), Got(SymTok(DIVIDE, "/"), 4), Got(NumTok(2.0), 6), Got(Token(EOF, NoLit), 6));
  }

  /** The tokens of `10 / 2` from position 0 on. */
  lemma TenOverTwoFrom0(s: string)
    requires |s| == 6
    requires s[0] == '1' && s[1] == '0' && s[2] == ' ' && s[3] == '/' && s[4] == ' ' && s[5] == '2'
    ensures Pulls(s, 0) == [Got(NumTok(10.0), 2), Got(SymTok(DIVIDE, "/"), 4), Got(NumTok(2.0), 6), Got(Token(EOF, NoLit), 6)]
  {
    TwoDigitStep(s, 0, 0, 10);
    TenOverTwoFrom2(s);
    Cons4(Pulls(s, 0), Got(NumTok(10.0), 2), Got(SymTok(DIVIDE, "/"), 4), Got(NumTok(2.0), 6), Got(Token(EOF, NoLit), 6));
  }

  /** `10 / 2` lexes to two numbers around `/`. */
  lemma TenOverTwoLexes(s: string)
    requires s == "10 / 2"
    ensures Pulls(s, 0) == [Got(NumTok(10.0), 2), Got(SymTok(DIVIDE, "/"), 4), Got(NumTok(2.0), 6), Got(Token(EOF, NoLit), 6)]
  {
    TenOverTwoFrom0(s);
  }

  /** `testExpression('10 / 2', 5)`. */
  lemma TenOverTwoText()
    ensures Evaluate("10 / 2", 0).result == Success(Some(Number(5.0)))
  {
    var s := "10 / 2";
    TenOverTwoLexes(s);
    CarriesThree(Pulls(s, 0), NumTok(10.0), 2, SymTok(DIVIDE, "/"), 4, NumTok(2.0), 6, 6);
    TenOverTwo(Pulls(s, 0));
    TextYields(s, Number(5.0));
  }

  /** The tokens of `2 + 3 * 4` from position 7 on. */
  lemma TwoPlusThreeTimesFourFrom7(s: string)
    requires |s| == 9
    requires s[7] == ' ' && s[8] == '4'
    ensures Pulls(s, 7) == [Got(NumTok(4.0), 9), Got(Token(EOF, NoLit), 9)]
  {
    EndStep(s);
    OneDigitStep(s, 7, 8);
    Cons2(Pulls(s, 7), Got(NumTok(4.0), 9), Got(Token(EOF, NoLit), 9));
  }

  /** The tokens of `2 + 3 * 4` from position 5 on. */
  lemma TwoPlusThreeTimesFourFrom5(s: string)
    requires |s| == 9
    requires s[5] == ' ' && s[6] == '*' && s[7] == ' ' && s[8] == '4'
    ensures Pulls(s, 5) == [Got(SymTok(MULTIPLY, "*"), 7), Got(NumTok(4.0), 9), Got(Token(EOF, NoLit), 9)]
  {
    SymbolStep(s, 5, 6, '*', MULTIPLY);
    TwoPlusThreeTimesFourFrom7(s);
    Cons3(Pulls(s, 5), Got(SymTok(MULTIPLY, "*"), 7), Got(NumTok(4.0), 9), Got(Token(EOF, NoLit), 9));
  }

  /** The tokens of `2 + 3 * 4` from position 3 on. */
  lemma TwoPlusThreeTimesFourFrom3(s: string)
    requires |s| == 9
    requires s[3] == ' ' && s[4] == '3' && s[5] == ' ' && s[6] == '*' && s[7] == ' ' && s[8] == '4'
    ensures Pulls(s, 3) == [Got(NumTok(3.0), 5), Got(SymTok(MULTIPLY, "*"), 7), Got(NumTok(4.0), 9), Got(Token(EOF, NoLit), 9)]
  {
    OneDigitStep(s, 3, 4);
    TwoPlusThreeTimesFourFrom5(s);
    Cons4(Pulls(s, 3), Got(NumTok(3.0), 5), Got(SymTok(MULTIPLY, "*"), 7), Got(NumTok(4.0), 9), Got(Token(EOF, NoLit), 9));
  }

  /** The tokens of `2 + 3 * 4` from position 1 on. */
  lemma TwoPlusThreeTimesFourFrom1(s: string)
    requires |s| == 9
    requires s[1] == ' ' && s[2] == '+' && s[3] == ' ' && s[4] == '3' && s[5] == ' ' && s[6] == '*' && s[7] == ' ' && s[8] == '4'
    ensures Pulls(s, 1) == [Got(SymTok(PLUS, "+"), 3), Got(NumTok(3.0), 5), Got(SymTok(MULTIPLY, "*"), 7), Got(NumTok(4.0), 9), Got(Token(EOF, NoLit), 9)]
  {
    SymbolStep(s, 1, 2, '+', PLUS);
    TwoPlusThreeTimesFourFrom3(s);
    Cons5(Pulls(s, 1), Got(SymTok(PLUS, "+"), 3), Got(NumTok(3.0), 5), Got(SymTok(MULTIPLY, "*"), 7), Got(NumTok(4.0), 9), Got(Token(EOF, NoLit), 9));
  }

  /** The tokens of `2 + 3 * 4` from position 0 on. */
  lemma TwoPlusThreeTimesFourFrom0(s: string)
    requires |s| == 9
    requires s[0] == '2' && s[1] == ' ' && s[2] == '+' && s[3] == ' ' && s[4] == '3' && s[5] == ' ' && s[6] == '*' && s[7] == ' ' && s[8] == '4'
    ensures Pulls(s, 0) == [Got(NumTok(2.0), 1), Got(SymTok(PLUS, "+"), 3), Got(NumTok(3.0), 5), Got(SymTok(MULTIPLY, "*"), 7), Got(NumTok(4.0), 9), Got(Token(EOF, NoLit), 9)]
  {
    OneDigitStep(s, 0, 0);
    TwoPlusThreeTimesFourFrom1(s);
    Cons6(Pulls(s, 0), Got(NumTok(2.0), 1), Got(SymTok(PLUS, "+"), 3), Got(NumTok(3.0), 5), Got(SymTok(MULTIPLY, "*"), 7), Got(NumTok(4.0), 9), Got(Token(EOF, NoLit), 9));
  }

  /** `2 + 3 * 4` lexes to three numbers and two operators. */
  lemma TwoPlusThreeTimesFourLexes(s: string)
    requires s == "2 + 3 * 4"
    ensures Pulls(s, 0) == [Got(NumTok(2.0), 1), Got(SymTok(PLUS, "+"), 3), Got(NumTok(3.0), 5), Got(SymTok(MULTIPLY, "*"), 7), Got(NumTok(4.0), 9), Got(Token(EOF, NoLit), 9)]
  {
    TwoPlusThreeTimesFourFrom0(s);
  }

  /** `testExpression('2 + 3 * 4', 14)`. */
  lemma TwoPlusThreeTimesFourText()
    ensures Evaluate("2 + 3 * 4", 0).result == Success(Some(Number(14.0)))
  {
    var s := "2 + 3 * 4";
    TwoPlusThreeTimesFourLexes(s);
    CarriesFive(Pulls(s, 0), NumTok(2.0), 1, SymTok(PLUS, "+"), 3, NumTok(3.0), 5, SymTok(MULTIPLY, "*"), 7, NumTok(4.0), 9, 9);
    TwoPlusThreeTimesFour(Pulls(s, 0));
    TextYields(s, Number(14.0));
  }

  /** The tokens of `10 - 2 * 3` from position 8 on. */
  lemma TenMinusTwoTimesThreeFrom8(s: string)
    requires |s| == 10
    requires s[8] == ' ' && s[9] == '3'
    ensures Pulls(s, 8) == [Got(NumTok(3.0), 10), Got(Token(EOF, NoLit), 10)]
  {
    EndStep(s);
    OneDigitStep(s, 8, 9);
    Cons2(Pulls(s, 8), Got(NumTok(3.0), 10), Got(Token(EOF, NoLit), 10));
  }

  /** The tokens of `10 - 2 * 3` from position 6 on. */
  lemma TenMinusTwoTimesThreeFrom6(s: string)
    requires |s| == 10
    requires s[6] == ' ' && s[7] == '*' && s[8] == ' ' && s[9] == '3'
    ensures Pulls(s, 6) == [Got(SymTok(MULTIPLY, "*"), 8), Got(NumTok(3.0), 10), Got(Token(EOF, NoLit), 10)]
  {
    SymbolStep(s, 6, 7, '*', MULTIPLY);
    TenMinusTwoTimesThreeFrom8(s);
    Cons3(Pulls(s, 6), Got(SymTok(MULTIPLY, "*"), 8), Got(NumTok(3.0), 10), Got(Token(EOF, NoLit), 10));
  }

  /** The tokens of `10 - 2 * 3` from position 4 on. */
  lemma TenMinusTwoTimesThreeFrom4(s: string)
    requires |s| == 10
    requires s[4] == ' ' && s[5] == '2' && s[6] == ' ' && s[7] == '*' && s[8] == ' ' && s[9] == '3'
    ensures Pulls(s, 4) == [Got(NumTok(2.0), 6), Got(SymTok(MULTIPLY, "*"), 8), Got(NumTok(3.0), 10), Got(Token(EOF, NoLit), 10)]
  {
    OneDigitStep(s, 4, 5);
    TenMinusTwoTimesThreeFrom6(s);
    Cons4(Pulls(s, 4), Got(NumTok(2.0), 6), Got(SymTok(MULTIPLY, "*"), 8), Got(NumTok(3.0), 10), Got(Token(EOF, NoLit), 10));
  }

  /** The tokens of `10 - 2 * 3` from position 2 on. */
  lemma TenMinusTwoTimesThreeFrom2(s: string)
    requires |s| == 10
    requires s[2] == ' ' && s[3] == '-' && s[4] == ' ' && s[5] == '2' && s[6] == ' ' && s[7] == '*' && s[8] == ' ' && s[9] == '3'
    ensures Pulls(s, 2) == [Got(SymTok(MINUS, "-"), 4), Got(NumTok(2.0), 6), Got(SymTok(MULTIPLY, "*"), 8), Got(NumTok(3.0), 10), Got(Token(EOF, NoLit), 10)]
  {
    SymbolStep(s, 2, 3, '-', MINUS);
    TenMinusTwoTimesThreeFrom4(s);
    Cons5(Pulls(s, 2), Got(SymTok(MINUS, "-"), 4), Got(NumTok(2.0), 6), Got(SymTok(MULTIPLY, "*"), 8), Got(NumTok(3.0), 10), Got(Token(EOF, NoLit), 10));
  }

  /** The tokens of `10 - 2 * 3` from position 0 on. */
  lemma TenMinusTwoTimesThreeFrom0(s: string)
    requires |s| == 10
    requires s[0] == '1' && s[1] == '0' && s[2] == ' ' && s[3] == '-' && s[4] == ' ' && s[5] == '2' && s[6] == ' ' && s[7] == '*' && s[8] == ' ' && s[9] == '3'
    ensures Pulls(s, 0) == [Got(NumTok(10.0), 2), Got(SymTok(MINUS, "-"), 4), Got(NumTok(2.0), 6), Got(SymTok(MULTIPLY, "*"), 8), Got(NumTok(3.0), 10), Got(Token(EOF, NoLit), 10)]
  {
    TwoDigitStep(s, 0, 0, 10);
    TenMinusTwoTimesThreeFrom2(s);
    Cons6(Pulls(s, 0), Got(NumTok(10.0), 2), Got(SymTok(MINUS, "-"), 4), Got(NumTok(2.0), 6), Got(SymTok(MULTIPLY, "*"), 8), Got(NumTok(3.0), 10), Got(Token(EOF, NoLit), 10));
  }

  /** `10 - 2 * 3` lexes to three numbers and two operators. */
  lemma TenMinusTwoTimesThreeLexes(s: string)
    requires s == "10 - 2 * 3"
    ensures Pulls(s, 0) == [Got(NumTok(10.0), 2), Got(SymTok(MINUS, "-"), 4), Got(NumTok(2.0), 6), Got(SymTok(MULTIPLY, "*"), 8), Got(NumTok(3.0), 10), Got(Token(EOF, NoLit), 10)]
  {
    TenMinusTwoTimesThreeFrom0(s);
  }

  /** `testExpression('10 - 2 * 3', 4)`. */
  lemma TenMinusTwoTimesThreeText()
    ensures Evaluate("10 - 2 * 3", 0).result == Success(Some(Number(4.0)))
  {
    var s := "10 - 2 * 3";
    TenMinusTwoTimesThreeLexes(s);
    CarriesFive(Pulls(s, 0), NumTok(10.0), 2, SymTok(MINUS, "-"), 4, NumTok(2.0), 6, SymTok(MULTIPLY, "*"), 8, NumTok(3.0), 10, 10);
    TenMinusTwoTimesThree(Pulls(s, 0));
    TextYields(s, Number(4.0));
  }

  /** The tokens of `(2 + 3) * 4` from position 9 on. */
  lemma GroupTimesFourFrom9(s: string)
    requires |s| == 11
    requires s[9] == ' ' && s[10] == '4'
    ensures Pulls(s, 9) == [Got(NumTok(4.0), 11), Got(Token(EOF, NoLit), 11)]
  {
    EndStep(s);
    OneDigitStep(s, 9, 10);
    Cons2(Pulls(s, 9), Got(NumTok(4.0), 11), Got(Token(EOF, NoLit), 11));
  }

  /** The tokens of `(2 + 3) * 4` from position 7 on. */
  lemma GroupTimesFourFrom7(s: string)
    requires |s| == 11
    requires s[7] == ' ' && s[8] == '*' && s[9] == ' ' && s[10] == '4'
    ensures Pulls(s, 7) == [Got(SymTok(MULTIPLY, "*"), 9), Got(NumTok(4.0), 11), Got(Token(EOF, NoLit), 11)]
  {
    SymbolStep(s, 7, 8, '*', MULTIPLY);
    GroupTimesFourFrom9(s);
    Cons3(Pulls(s, 7), Got(SymTok(MULTIPLY, "*"), 9), Got(NumTok(4.0), 11), Got(Token(EOF, NoLit), 11));
  }

  /** The tokens of `(2 + 3) * 4` from position 6 on. */
  lemma GroupTimesFourFrom6(s: string)
    requires |s| == 11
    requires s[6] == ')' && s[7] == ' ' && s[8] == '*' && s[9] == ' ' && s[10] == '4'
    ensures Pulls(s, 6) == [Got(SymTok(RPAREN, ")"), 7), Got(SymTok(MULTIPLY, "*"), 9), Got(NumTok(4.0), 11), Got(Token(EOF, NoLit), 11)]
  {
    SymbolStep(s, 6, 6, ')', RPAREN);
    GroupTimesFourFrom7(s);
    Cons4(Pulls(s, 6), Got(SymTok(RPAREN, ")"), 7), Got(SymTok(MULTIPLY, "*"), 9), Got(NumTok(4.0), 11), Got(Token(EOF, NoLit), 11));
  }

  /** The tokens of `(2 + 3) * 4` from position 4 on. */
  lemma GroupTimesFourFrom4(s: string)
    requires |s| == 11
    requires s[4] == ' ' && s[5] == '3' && s[6] == ')' && s[7] == ' ' && s[8] == '*' && s[9] == ' ' && s[10] == '4'
    ensures Pulls(s, 4) == [Got(NumTok(3.0), 6), Got(SymTok(RPAREN, ")"), 7), Got(SymTok(MULTIPLY, "*"), 9), Got(NumTok(4.0), 11), Got(Token(EOF, NoLit), 11)]
  {
    OneDigitStep(s, 4, 5);
    GroupTimesFourFrom6(s);
    Cons5(Pulls(s, 4), Got(NumTok(3.0), 6), Got(SymTok(RPAREN, ")"), 7), Got(SymTok(MULTIPLY, "*"), 9), Got(NumTok(4.0), 11), Got(Token(EOF, NoLit), 11));
  }

  /** The tokens of `(2 + 3) * 4` from position 2 on. */
  lemma GroupTimesFourFrom2(s: string)
    requires |s| == 11
    requires s[2] == ' ' && s[3] == '+' && s[4] == ' ' && s[5] == '3' && s[6] == ')' && s[7] == ' ' && s[8] == '*' && s[9] == ' ' && s[10] == '4'
    ensures Pulls(s, 2) == [Got(SymTok(PLUS, "+"), 4), Got(NumTok(3.0), 6), Got(SymTok(RPAREN, ")"), 7), Got(SymTok(MULTIPLY, "*"), 9), Got(NumTok(4.0), 11), Got(Token(EOF, NoLit), 11)]
  {
    SymbolStep(s, 2, 3, '+', PLUS);
    GroupTimesFourFrom4(s);
    Cons6(Pulls(s, 2), Got(SymTok(PLUS, "+"), 4), Got(NumTok(3.0), 6), Got(SymTok(RPAREN, ")"), 7), Got(SymTok(MULTIPLY, "*"), 9), Got(NumTok(4.0), 11), Got(Token(EOF, NoLit), 11));
  }

  /** The tokens of `(2 + 3) * 4` from position 1 on. */
  lemma GroupTimesFourFrom1(s: string)
    requires |s| == 11
    requires s[1] == '2' && s[2] == ' ' && s[3] == '+' && s[4] == ' ' && s[5] == '3' && s[6] == ')' && s[7] == ' ' && s[8] == '*' && s[9] == ' ' && s[10] == '4'
    ensures Pulls(s, 1) == [Got(NumTok(2.0), 2), Got(SymTok(PLUS, "+"), 4), Got(NumTok(3.0), 6), Got(SymTok(RPAREN, ")"), 7), Got(SymTok(MULTIPLY, "*"), 9), Got(NumTok(4.0), 11), Got(Token(EOF, NoLit), 11)]
  {
    OneDigitStep(s, 1, 1);
    GroupTimesFourFrom2(s);
    Cons7(Pulls(s, 1), Got(NumTok(2.0), 2), Got(SymTok(PLUS, "+"), 4), Got(NumTok(3.0), 6), Got(SymTok(RPAREN, ")"), 7), Got(SymTok(MULTIPLY, "*"), 9), Got(NumTok(4.0), 11), Got(Token(EOF, NoLit), 11));
  }

  /** The tokens of `(2 + 3) * 4` from position 0 on. */
  lemma GroupTimesFourFrom0(s: string)
    requires |s| == 11
    requires s[0] == '(' && s[1] == '2' && s[2] == ' ' && s[3] == '+' && s[4] == ' ' && s[5] == '3' && s[6] == ')' && s[7] == ' ' && s[8] == '*' && s[9] == ' ' && s[10] == '4'
    ensures Pulls(s, 0) == [Got(SymTok(LPAREN, "("), 1), Got(NumTok(2.0), 2), Got(SymTok(PLUS, "+"), 4), Got(NumTok(3.0), 6), Got(SymTok(RPAREN, ")"), 7), Got(SymTok(MULTIPLY, "*"), 9), Got(NumTok(4.0), 11), Got(Token(EOF, NoLit), 11)]
  {
    SymbolStep(s, 0, 0, '(', LPAREN);
    GroupTimesFourFrom1(s);
    Cons8(Pulls(s, 0), Got(SymTok(LPAREN, "("), 1), Got(NumTok(2.0), 2), Got(SymTok(PLUS, "+"), 4), Got(NumTok(3.0), 6), Got(SymTok(RPAREN, ")"), 7), Got(SymTok(MULTIPLY, "*"), 9), Got(NumTok(4.0), 11), Got(Token(EOF, NoLit), 11));
  }

  /** `(2 + 3) * 4` lexes to a parenthesised sum and a product. */
  lemma GroupTimesFourLexes(s: string)
    requires s == "(2 + 3) * 4"
    ensures Pulls(s, 0) == [Got(SymTok(LPAREN, "("), 1), Got(NumTok(2.0), 2), Got(SymTok(PLUS, "+"), 4), Got(NumTok(3.0), 6), Got(SymTok(RPAREN, ")"), 7), Got(SymTok(MULTIPLY, "*"), 9), Got(NumTok(4.0), 11), Got(Token(EOF, NoLit), 11)]
  {
    GroupTimesFourFrom0(s);
  }

  /** `testExpression('(2 + 3) * 4', 20)`. */
  lemma GroupTimesFourText()
    ensures Evaluate("(2 + 3) * 4", 0).result == Success(Some(Number(20.0)))
  {
    var s := "(2 + 3) * 4";
    GroupTimesFourLexes(s);
    CarriesSeven(Pulls(s, 0), SymTok(LPAREN, "("), 1, NumTok(2.0), 2, SymTok(PLUS, "+"), 4, NumTok(3.0), 6, SymTok(RPAREN, ")"), 7, SymTok(MULTIPLY, "*"), 9, NumTok(4.0), 11, 11);
    GroupTimesFour(Pulls(s, 0));
    TextYields(s, Number(20.0));
  }
}
