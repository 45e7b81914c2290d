/**
 * The recursive-descent parser of src/parser.js.
 *
 * The parser pulls tokens from the lexer one at a time.  What those calls
 * return is fixed by the input: the pull sequence `Lexing.Pulls`, which stops
 * at the first EOF or lexical error.  So a grammar rule is a function of that
 * sequence and of the index of the lookahead token; a lexical error surfaces
 * exactly when the parser eats the token before it.  The class `Parser` is the
 * source's object, whose methods are proved to follow those functions.
 */
module Parsing {
  import opened Wrappers
  import opened Errors
  import opened Tokens
  import opened Lexing
  import opened LexingFacts
  import opened Ast

  /** What a rule returns: the node it built and the index of the lookahead after it. */
  type Parsed = Result<(Node, nat), Error>

  /** The lookahead at index `i` (`currentToken`); past the pulls, EOF. */
  function Tok(ps: seq<Pull>, i: nat): Token
  {
    if i < |ps| && ps[i].Got? then ps[i].tok else Token(EOF, NoLit)
  }

  /** Pulls left from `i`; the parser's termination measure. */
  function Measure(ps: seq<Pull>, i: nat): nat
  {
    if i < |ps| then |ps| - i else 0
  }

  // ---------------------------------------------------------------------------
  // Which tokens a rule consumed
  // ---------------------------------------------------------------------------

  /**
   * The parser moved from `i` to `d` eating only tokens other than EOF and
   * `;`, and wherever it moved to holds a token (or lies past the pulls).
   */
  ghost predicate Clean(ps: seq<Pull>, i: nat, d: nat)
  {
    && i <= d && (d == i || d == |ps| || (d < |ps| && ps[d].Got?))
    && forall j | i <= j < d :: Tok(ps, j).kind != EOF && Tok(ps, j).kind != SEMICOLON
  }

  /** `Clean`, and at least one token was eaten. */
  ghost predicate Advanced(ps: seq<Pull>, i: nat, d: nat)
  {
    Clean(ps, i, d) && i < d
  }

  // ---------------------------------------------------------------------------
  // The grammar rules
  // ---------------------------------------------------------------------------

  /**
   * `eat(k)`: when the lookahead has kind `k`, pull the next token (which may
   * be a lexical error); otherwise a syntax error.  Pulling after EOF gives
   * EOF again, so eating EOF stays put.
   */
  function EatToken(ps: seq<Pull>, i: nat, k: Kind): (r: Result<nat, Error>)
    ensures r.Success? ==> Tok(ps, i).kind == k
    ensures Tok(ps, i).kind != k ==> r == Failure(SyntaxError)
    ensures r.Success? && k == EOF ==> r.value == i
    ensures r.Success? && k != EOF && k != SEMICOLON ==> Advanced(ps, i, r.value)
  {
    if Tok(ps, i).kind != k then Failure(SyntaxError)
    else if k == EOF then Success(i)
    else if i + 1 < |ps| && ps[i + 1].Err? then Failure(ps[i + 1].error)
    else Success(i + 1)
  }

  /** `factor := ('+'|'-') factor | NUMBER | STRING | IDENTIFIER | '(' expr ')'`. */
  function ParseFactor(ps: seq<Pull>, i: nat): (r: Parsed)
    decreases Measure(ps, i), 0
    ensures r.Success? ==> Advanced(ps, i, r.value.1) && IsExpr(r.value.0)
  {
    var t := Tok(ps, i);
    if t.kind == PLUS || t.kind == MINUS then
      var i1 :- EatToken(ps, i, t.kind);
      var f :- ParseFactor(ps, i1);
      Success((UnaryOp(t.kind, f.0), f.1))
    else if t.kind == NUMBER then
      var i1 :- EatToken(ps, i, NUMBER);
      Success((Num(NumberOf(t)), i1))
    else if t.kind == STRING then
      var i1 :- EatToken(ps, i, STRING);
      Success((Str(TextOf(t)), i1))
    else if t.kind == IDENTIFIER then
      var i1 :- EatToken(ps, i, IDENTIFIER);
      Success((Var(TextOf(t)), i1))
    else if t.kind == LPAREN then
      var i1 :- EatToken(ps, i, LPAREN);
      var e :- ParseExpr(ps, i1);
      var i2 :- EatToken(ps, e.1, RPAREN);
      Success((e.0, i2))
    else Failure(SyntaxError)
  }

  /** One round of the loop of `term`: eat the operator, then parse the factor after it. */
  function ParseFactorOperand(ps: seq<Pull>, i: nat): (r: Parsed)
    requires Tok(ps, i).kind in TermOps
    decreases Measure(ps, i), 1
    ensures r.Success? ==> Advanced(ps, i, r.value.1) && IsExpr(r.value.0)
  {
    var i1 :- EatToken(ps, i, Tok(ps, i).kind);
    ParseFactor(ps, i1)
  }

  /** The loop of `term`: while the lookahead is `*` or `/`, fold in one more factor on the left. */
  function ParseTermRest(ps: seq<Pull>, node: Node, i: nat): (r: Parsed)
    decreases Measure(ps, i), 2
    ensures r.Success? ==> Clean(ps, i, r.value.1) && Tok(ps, r.value.1).kind !in TermOps
    ensures r.Success? && IsExpr(node) ==> IsExpr(r.value.0)
  {
    if Tok(ps, i).kind in TermOps then
      var f :- ParseFactorOperand(ps, i);
      ParseTermRest(ps, BinOp(node, Tok(ps, i).kind, f.0), f.1)
    else Success((node, i))
  }

  /** `term := factor (('*'|'/') factor)*`. */
  function ParseTerm(ps: seq<Pull>, i: nat): (r: Parsed)
    decreases Measure(ps, i), 3
    ensures r.Success? ==> Advanced(ps, i, r.value.1) && IsExpr(r.value.0)
    ensures r.Success? ==> Tok(ps, r.value.1).kind !in TermOps
  {
    var f :- ParseFactor(ps, i);
    ParseTermRest(ps, f.0, f.1)
  }

  /** One round of the loop of `expr`: eat the operator, then parse the term after it. */
  function ParseOperand(ps: seq<Pull>, i: nat): (r: Parsed)
    requires Tok(ps, i).kind in ExprOps
    decreases Measure(ps, i), 4
    ensures r.Success? ==> Advanced(ps, i, r.value.1) && IsExpr(r.value.0)
    ensures r.Success? ==> Tok(ps, r.value.1).kind !in TermOps
  {
    var i1 :- EatToken(ps, i, Tok(ps, i).kind);
    ParseTerm(ps, i1)
  }

  /** The loop of `expr`: while the lookahead is an `expr` operator, fold in one more term on the left. */
  function ParseExprRest(ps: seq<Pull>, node: Node, i: nat): (r: Parsed)
    requires Tok(ps, i).kind !in TermOps  // where `term` stopped
    decreases Measure(ps, i), 5
    ensures r.Success? ==> Clean(ps, i, r.value.1)
    ensures r.Success? ==> Tok(ps, r.value.1).kind !in ExprOps && Tok(ps, r.value.1).kind !in TermOps
    ensures r.Success? && IsExpr(node) ==> IsExpr(r.value.0)
  {
    if Tok(ps, i).kind in ExprOps then
      var t :- ParseOperand(ps, i);
      ParseExprRest(ps, BinOp(node, Tok(ps, i).kind, t.0), t.1)
    else Success((node, i))
  }

  /** `expr := term (op term)*` for the eight operators of ExprOps. */
  function ParseExpr(ps: seq<Pull>, i: nat): (r: Parsed)
    decreases Measure(ps, i), 6
    ensures r.Success? ==> Advanced(ps, i, r.value.1) && IsExpr(r.value.0)
    ensures r.Success? ==> Tok(ps, r.value.1).kind !in ExprOps && Tok(ps, r.value.1).kind !in TermOps
  {
    var t :- ParseTerm(ps, i);
    ParseExprRest(ps, t.0, t.1)
  }

  /** `block := '{' statement* '}'`. */
  function ParseBlock(ps: seq<Pull>, i: nat): (r: Parsed)
    decreases Measure(ps, i), 7
    ensures r.Success? ==> Advanced(ps, i, r.value.1) && IsStmt(r.value.0) && r.value.0.Block?
  {
    var i1 :- EatToken(ps, i, LBRACE);
    ParseBlockRest(ps, i1, [])
  }

  /** The loop of `block`: statements up to the closing brace, which it eats. */
  function ParseBlockRest(ps: seq<Pull>, i: nat, done: seq<Node>): (r: Parsed)
    decreases Measure(ps, i), 10
    ensures r.Success? ==> Advanced(ps, i, r.value.1) && r.value.0.Block?
    ensures r.Success? && (forall s | s in done :: IsStmt(s)) ==> IsStmt(r.value.0)
  {
    if Tok(ps, i).kind == RBRACE then
      var i1 :- EatToken(ps, i, RBRACE);
      Success((Block(done), i1))
    else
      var s :- ParseStatement(ps, i);
      ParseBlockRest(ps, s.1, done + [s.0])
  }

  /** The `'(' expr ')'` after `if` and `while`. */
  function ParseCondition(ps: seq<Pull>, i: nat): (r: Parsed)
    decreases Measure(ps, i), 7
    ensures r.Success? ==> Advanced(ps, i, r.value.1) && IsExpr(r.value.0)
  {
    var i1 :- EatToken(ps, i, LPAREN);
    var e :- ParseExpr(ps, i1);
    var i2 :- EatToken(ps, e.1, RPAREN);
    Success((e.0, i2))
  }

  /** `ifStmt := 'if' '(' expr ')' statement ('else' statement)?`. */
  function ParseIf(ps: seq<Pull>, i: nat): (r: Parsed)
    decreases Measure(ps, i), 8
    ensures r.Success? ==> Advanced(ps, i, r.value.1) && IsStmt(r.value.0) && r.value.0.If?
    ensures r.Success? && r.value.0.If? && r.value.0.elseStmt.None? ==> Tok(ps, r.value.1).kind != ELSE
  {
    var i1 :- EatToken(ps, i, IF);
    var cond :- ParseCondition(ps, i1);
    var then_ :- ParseStatement(ps, cond.1);
    ParseElse(ps, cond.0, then_.0, then_.1)
  }

  /** The tail of `ifStmt`: an `else` right after the then-branch is always taken. */
  function ParseElse(ps: seq<Pull>, cond: Node, then_: Node, i: nat): (r: Parsed)
    decreases Measure(ps, i), 8
    ensures r.Success? ==> Clean(ps, i, r.value.1)
    ensures r.Success? ==> r.value.0.If? && r.value.0.condition == cond && r.value.0.thenStmt == then_
    ensures r.Success? && IsExpr(cond) && IsStmt(then_) ==> IsStmt(r.value.0)
    ensures r.Success? && r.value.0.If? && r.value.0.elseStmt.None? ==> Tok(ps, r.value.1).kind != ELSE
  {
    if Tok(ps, i).kind == ELSE then
      var i1 :- EatToken(ps, i, ELSE);
      var else_ :- ParseStatement(ps, i1);
      Success((If(cond, then_, Some(else_.0)), else_.1))
    else
      Success((If(cond, then_, None), i))
  }

  /** `whileStmt := 'while' '(' expr ')' statement`. */
  function ParseWhile(ps: seq<Pull>, i: nat): (r: Parsed)
    decreases Measure(ps, i), 8
    ensures r.Success? ==> Advanced(ps, i, r.value.1) && IsStmt(r.value.0) && r.value.0.While?
  {
    var i1 :- EatToken(ps, i, WHILE);
    var cond :- ParseCondition(ps, i1);
    var body :- ParseStatement(ps, cond.1);
    Success((While(cond.0, body.0), body.1))
  }

  /** `varDecl := 'let' IDENTIFIER '=' expr`; the name is the value of the token after `let`. */
  function ParseVarDecl(ps: seq<Pull>, i: nat): (r: Parsed)
    decreases Measure(ps, i), 8
    ensures r.Success? ==> Advanced(ps, i, r.value.1) && IsStmt(r.value.0) && r.value.0.VarDecl?
  {
    var i1 :- EatToken(ps, i, LET);
    var name := TextOf(Tok(ps, i1));
    var i2 :- EatToken(ps, i1, IDENTIFIER);
    var i3 :- EatToken(ps, i2, ASSIGN);
    var init :- ParseExpr(ps, i3);
    Success((VarDecl(name, init.0), init.1))
  }

  /** `printStmt := 'print' expr`. */
  function ParsePrint(ps: seq<Pull>, i: nat): (r: Parsed)
    decreases Measure(ps, i), 8
    ensures r.Success? ==> Advanced(ps, i, r.value.1) && IsStmt(r.value.0) && r.value.0.Print?
  {
    var i1 :- EatToken(ps, i, PRINT);
    var e :- ParseExpr(ps, i1);
    Success((Print(e.0), e.1))
  }

  /** `assignStmt := IDENTIFIER '=' expr`. */
  function ParseAssignment(ps: seq<Pull>, i: nat): (r: Parsed)
    decreases Measure(ps, i), 8
    ensures r.Success? ==> Advanced(ps, i, r.value.1) && IsStmt(r.value.0) && r.value.0.Assign?
    ensures r.Success? ==> r.value.0.Assign? && r.value.0.name == TextOf(Tok(ps, i))
  {
    var name := TextOf(Tok(ps, i));
    var i1 :- EatToken(ps, i, IDENTIFIER);
    var i2 :- EatToken(ps, i1, ASSIGN);
    var e :- ParseExpr(ps, i2);
    Success((Assign(name, e.0), e.1))
  }

  /** `statement`: a switch on the lookahead's kind; anything else is an expression. */
  function ParseStatement(ps: seq<Pull>, i: nat): (r: Parsed)
    decreases Measure(ps, i), 9
    ensures r.Success? ==> Advanced(ps, i, r.value.1) && IsStmt(r.value.0)
    ensures r.Success? && r.value.0.If? && r.value.0.elseStmt.None? ==> Tok(ps, r.value.1).kind != ELSE
  {
    match Tok(ps, i).kind
    case LBRACE => ParseBlock(ps, i)
    case IF => ParseIf(ps, i)
    case WHILE => ParseWhile(ps, i)
    case LET => ParseVarDecl(ps, i)
    case PRINT => ParsePrint(ps, i)
    case IDENTIFIER => ParseAssignment(ps, i)
    case _ => ParseExpr(ps, i)
  }

  /** `program := statement* EOF`: the loop runs until the lookahead is EOF. */
  function ParseProgram(ps: seq<Pull>, i: nat, done: seq<Node>): (r: Parsed)
    decreases Measure(ps, i), 10
    ensures r.Success? ==> Clean(ps, i, r.value.1) && Tok(ps, r.value.1).kind == EOF
    ensures r.Success? ==> r.value.0.Program?
    ensures r.Success? && (forall s | s in done :: IsStmt(s)) ==> IsProgram(r.value.0)
  {
    if Tok(ps, i).kind == EOF then Success((Program(done), i))
    else
      var s :- ParseStatement(ps, i);
      ParseProgram(ps, s.1, done + [s.0])
  }

  /** `parse()` from the lookahead at `i`: a program, then a check that EOF was reached. */
  function ParseFrom(ps: seq<Pull>, i: nat): (r: Result<Node, Error>)
    ensures r.Success? ==> IsProgram(r.value)
  {
    var p :- ParseProgram(ps, i, []);
    if Tok(ps, p.1).kind != EOF then Failure(SyntaxError) else Success(p.0)
  }

  /** `new Parser(new Lexer(input)).parse()`: the constructor's first pull may already fail. */
  function ParseInput(input: string): (r: Result<Node, Error>)
    ensures r.Success? ==> IsProgram(r.value)
  {
    var ps := Pulls(input, 0);
    if ps[0].Err? then Failure(ps[0].error) else ParseFrom(ps, 0)
  }

  // ---------------------------------------------------------------------------
  // The parser object
  // ---------------------------------------------------------------------------

  /**
   * A parser method's outcome agrees with a grammar rule's: the same node and
   * the lookahead at the same index afterwards, or the same error.
   */
  predicate Follows(r: Result<Node, Error>, spec: Parsed, now: nat)
  {
    match spec
    case Success((n, d)) => r == Success(n) && now == d
    case Failure(e) => r == Failure(e)
  }

  class Parser {
    const lexer: Lexer
    var currentToken: Token
    /** What the lexer hands out, from its position when the parser was made. */
    ghost const pulls: seq<Pull>
    /** The index of `currentToken` among the pulls. */
    ghost var index: nat

    ghost predicate Valid()
      reads this, lexer
    {
      && lexer.Valid()
      && Handed(lexer.input, pulls)
      && index < |pulls|
      && pulls[index] == Got(currentToken, lexer.position)
    }

    constructor Init(lexer: Lexer, first: Token, ghost ps: seq<Pull>)
      requires lexer.Valid() && Handed(lexer.input, ps) && ps[0] == Got(first, lexer.position)
      ensures Valid() && this.lexer == lexer && pulls == ps && index == 0
    {
      this.lexer := lexer;
      currentToken := first;
      pulls := ps;
      index := 0;
    }

    /** `new Parser(lexer)`: the constructor pulls the first token, which may fail. */
    static method Create(lexer: Lexer) returns (r: Result<Parser, Error>)
      requires lexer.Valid()
      modifies lexer
      ensures var ps := Pulls(lexer.input, old(lexer.position));
        && (ps[0].Err? ==> r == Failure(ps[0].error))
        && (ps[0].Got? ==> && r.Success? && fresh(r.value) && r.value.lexer == lexer
                           && r.value.Valid() && r.value.pulls == ps && r.value.index == 0)
    {
      ghost var ps := Pulls(lexer.input, lexer.position);
      PullsHanded(lexer.input, lexer.position);
      var first :- lexer.GetNextToken();
      var p := new Parser.Init(lexer, first, ps);
      return Success(p);
    }

    /** `eat(k)`: on a match pull the next token, otherwise a syntax error and nothing moves. */
    method Eat(k: Kind) returns (r: Outcome<Error>)
      requires Valid()
      modifies this, lexer
      ensures r.Pass? ==> Valid()
      ensures EatToken(pulls, old(index), k).Success? ==>
        r == Pass && index == EatToken(pulls, old(index), k).value
      ensures EatToken(pulls, old(index), k).Failure? ==>
        r == Fail(EatToken(pulls, old(index), k).error)
      ensures old(currentToken.kind) != k ==> unchanged(this, lexer)
    {
      if currentToken.kind == k {
        var t := lexer.GetNextToken();
        match t
        case Success(tok) =>
          currentToken := tok;
          if k != EOF {
            index := index + 1;
          }
          return Pass;
        case Failure(e) =>
          return Fail(e);
      }
      return Fail(SyntaxError);
    }

    /** `program()`: statements until the lookahead is EOF. */
    method Program() returns (r: Result<Node, Error>)
      requires Valid()
      modifies this, lexer
      decreases Measure(pulls, index), 10
      ensures r.Success? ==> Valid()
      ensures Follows(r, ParseProgram(pulls, old(index), []), index)
    {
      var statements := [];
      while currentToken.kind != EOF
        invariant Valid()
        invariant ParseProgram(pulls, index, statements) == ParseProgram(pulls, old(index), [])
        invariant Measure(pulls, index) <= Measure(pulls, old(index))
        decreases Measure(pulls, index)
      {
        var s :- Statement();
        statements := statements + [s];
      }
      return Success(Node.Program(statements));
    }

    /** `statement()`: a switch on the lookahead's kind. */
    method Statement() returns (r: Result<Node, Error>)
      requires Valid()
      modifies this, lexer
      decreases Measure(pulls, index), 9
      ensures r.Success? ==> Valid()
      ensures Follows(r, ParseStatement(pulls, old(index)), index)
    {
      match currentToken.kind
      case LBRACE => r := Block();
      case IF => r := IfStatement();
      case WHILE => r := WhileStatement();
      case LET => r := VarDeclaration();
      case PRINT => r := PrintStatement();
      case IDENTIFIER => r := AssignmentStatement();
      case _ => r := Expr();
    }

    /** `block()`: `{`, statements until `}`, then `}`. */
    method Block() returns (r: Result<Node, Error>)
      requires Valid()
      modifies this, lexer
      decreases Measure(pulls, index), 7
      ensures r.Success? ==> Valid()
      ensures Follows(r, ParseBlock(pulls, old(index)), index)
    {
      var eaten := Eat(LBRACE);
      if eaten.Fail? {
        return Failure(eaten.error);
      }
      var statements := [];
      while currentToken.kind != RBRACE
        invariant Valid()
        invariant ParseBlockRest(pulls, index, statements) == ParseBlock(pulls, old(index))
        invariant Measure(pulls, index) < Measure(pulls, old(index))
        decreases Measure(pulls, index)
      {
        var s :- Statement();
        statements := statements + [s];
      }
      :- Eat(RBRACE);
      return Success(Node.Block(statements));
    }

    /** `ifStatement()`: the else branch is taken whenever `else` follows the then-branch. */
    method IfStatement() returns (r: Result<Node, Error>)
      requires Valid()
      modifies this, lexer
      decreases Measure(pulls, index), 8
      ensures r.Success? ==> Valid()
      ensures Follows(r, ParseIf(pulls, old(index)), index)
    {
      var eaten := Eat(IF);
      if eaten.Fail? {
        return Failure(eaten.error);
      }
      var condition :- Condition();
      var thenStmt :- Statement();
      r := ElseClause(condition, thenStmt);
    }

    /** The end of `ifStatement()`: an `else` after the then-branch, and its statement, if present. */
    method ElseClause(condition: Node, thenStmt: Node) returns (r: Result<Node, Error>)
      requires Valid()
      modifies this, lexer
      decreases Measure(pulls, index), 8
      ensures r.Success? ==> Valid()
      ensures Follows(r, ParseElse(pulls, condition, thenStmt, old(index)), index)
    {
      if currentToken.kind != ELSE {
        return Success(If(condition, thenStmt, None));
      }
      ghost var start := index;
      var eaten := Eat(ELSE);
      if eaten.Fail? {
        assert ParseElse(pulls, condition, thenStmt, start) == Failure(eaten.error);
        return Failure(eaten.error);
      }
      ghost var afterElse := index;
      assert EatToken(pulls, start, ELSE) == Success(afterElse);
      var elseStmt := Statement();
      if elseStmt.Failure? {
        assert ParseElse(pulls, condition, thenStmt, start) == Failure(elseStmt.error);
        return Failure(elseStmt.error);
      }
      assert ParseElse(pulls, condition, thenStmt, start) == Success((If(condition, thenStmt, Some(elseStmt.value)), index));
      return Success(If(condition, thenStmt, Some(elseStmt.value)));
    }

    /** `eat(LPAREN); expr(); eat(RPAREN)`, written out in both `ifStatement()` and `whileStatement()`. */
    method Condition() returns (r: Result<Node, Error>)
      requires Valid()
      modifies this, lexer
      decreases Measure(pulls, index), 7
      ensures r.Success? ==> Valid()
      ensures Follows(r, ParseCondition(pulls, old(index)), index)
    {
      var eaten := Eat(LPAREN);
      if eaten.Fail? {
        return Failure(eaten.error);
      }
      var condition :- Expr();
      :- Eat(RPAREN);
      return Success(condition);
    }

    /** `whileStatement()`. */
    method WhileStatement() returns (r: Result<Node, Error>)
      requires Valid()
      modifies this, lexer
      decreases Measure(pulls, index), 8
      ensures r.Success? ==> Valid()
      ensures Follows(r, ParseWhile(pulls, old(index)), index)
    {
      var eaten := Eat(WHILE);
      if eaten.Fail? {
        return Failure(eaten.error);
      }
      var condition :- Condition();
      var body :- Statement();
      return Success(While(condition, body));
    }

    /** `varDeclaration()`: the name is read from the token after `let`, before it is checked. */
    method VarDeclaration() returns (r: Result<Node, Error>)
      requires Valid()
      modifies this, lexer
      decreases Measure(pulls, index), 8
      ensures r.Success? ==> Valid()
      ensures Follows(r, ParseVarDecl(pulls, old(index)), index)
    {
      var eaten := Eat(LET);
      if eaten.Fail? {
        return Failure(eaten.error);
      }
      var name := TextOf(currentToken);
      :- Eat(IDENTIFIER);
      :- Eat(ASSIGN);
      var initialValue :- Expr();
      return Success(VarDecl(name, initialValue));
    }

    /** `printStatement()`. */
    method PrintStatement() returns (r: Result<Node, Error>)
      requires Valid()
      modifies this, lexer
      decreases Measure(pulls, index), 8
      ensures r.Success? ==> Valid()
      ensures Follows(r, ParsePrint(pulls, old(index)), index)
    {
      var eaten := Eat(PRINT);
      if eaten.Fail? {
        return Failure(eaten.error);
      }
      var e :- Expr();
      return Success(Print(e));
    }

    /** `assignmentStatement()`. */
    method AssignmentStatement() returns (r: Result<Node, Error>)
      requires Valid()
      modifies this, lexer
      decreases Measure(pulls, index), 8
      ensures r.Success? ==> Valid()
      ensures Follows(r, ParseAssignment(pulls, old(index)), index)
    {
      var name := TextOf(currentToken);
      :- Eat(IDENTIFIER);
      :- Eat(ASSIGN);
      var value :- Expr();
      return Success(Assign(name, value));
    }

    /** `expr()`: a term, then a left fold over the `expr` operators. */
    method Expr() returns (r: Result<Node, Error>)
      requires Valid()
      modifies this, lexer
      decreases Measure(pulls, index), 6
      ensures r.Success? ==> Valid()
      ensures Follows(r, ParseExpr(pulls, old(index)), index)
    {
      var node :- Term();
      while currentToken.kind in ExprOps
        invariant Valid()
        invariant currentToken.kind !in TermOps
        invariant ParseExprRest(pulls, node, index) == ParseExpr(pulls, old(index))
        invariant Measure(pulls, index) < Measure(pulls, old(index))
        decreases Measure(pulls, index)
      {
        var op := currentToken.kind;
        :- Eat(op);
        var right :- Term();
        node := BinOp(node, op, right);
      }
      return Success(node);
    }

    /** `term()`: a factor, then a left fold over `*` and `/`. */
    method Term() returns (r: Result<Node, Error>)
      requires Valid()
      modifies this, lexer
      decreases Measure(pulls, index), 3
      ensures r.Success? ==> Valid()
      ensures Follows(r, ParseTerm(pulls, old(index)), index)
    {
      var node :- Factor();
      while currentToken.kind in TermOps
        invariant Valid()
        invariant ParseTermRest(pulls, node, index) == ParseTerm(pulls, old(index))
        invariant Measure(pulls, index) < Measure(pulls, old(index))
        decreases Measure(pulls, index)
      {
        var op := currentToken.kind;
        :- Eat(op);
        var right :- Factor();
        node := BinOp(node, op, right);
      }
      return Success(node);
    }

    /** `factor()`. */
    method Factor() returns (r: Result<Node, Error>)
      requires Valid()
      modifies this, lexer
      decreases Measure(pulls, index), 0
      ensures r.Success? ==> Valid()
      ensures Follows(r, ParseFactor(pulls, old(index)), index)
    {
      var token := currentToken;
      match token.kind
      case PLUS | MINUS =>
        :- Eat(token.kind);
        var f :- Factor();
        return Success(UnaryOp(token.kind, f));
      case NUMBER =>
        :- Eat(NUMBER);
        return Success(Num(NumberOf(token)));
      case STRING =>
        :- Eat(STRING);
        return Success(Str(TextOf(token)));
      case IDENTIFIER =>
        :- Eat(IDENTIFIER);
        return Success(Var(TextOf(token)));
      case LPAREN =>
        :- Eat(LPAREN);
        var node :- Expr();
        :- Eat(RPAREN);
        return Success(node);
      case _ =>
        return Failure(SyntaxError);
    }

    /** `parse()`: a program, then a check that the lookahead is EOF. */
    method Parse() returns (r: Result<Node, Error>)
      requires Valid()
      modifies this, lexer
      ensures r == ParseFrom(pulls, old(index))
    {
      var node :- Program();
      if currentToken.kind != EOF {
        return Failure(SyntaxError);
      }
      return Success(node);
    }
  }
}
