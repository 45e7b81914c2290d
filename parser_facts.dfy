/** What src/parser.js promises about the trees it builds, stated on the grammar functions. */
module ParsingFacts {
  import opened Wrappers
  import opened Errors
  import opened Tokens
  import opened Lexing
  import opened Ast
  import opened Parsing

  /** `eat(k)` on a matching lookahead steps to the next pull, or surfaces the lexical error found there. */
  lemma EatStepsOnce(ps: seq<Pull>, i: nat, k: Kind)
    requires Tok(ps, i).kind == k && k != EOF
    ensures i + 1 < |ps| && ps[i + 1].Err? ==> EatToken(ps, i, k) == Failure(ps[i + 1].error)
    ensures !(i + 1 < |ps| && ps[i + 1].Err?) ==> EatToken(ps, i, k) == Success(i + 1)
  {
  }

  /**
   * `factor()`: a sign and the factor after it, a number, a string or a
   * name as one token, or a parenthesised expression, which leaves no node.
   */
  lemma FactorParts(ps: seq<Pull>, i: nat, n: Node, k: nat)
    requires ParseFactor(ps, i) == Success((n, k))
    ensures Tok(ps, i).kind in {PLUS, MINUS} ==>
      n.UnaryOp? && n.op == Tok(ps, i).kind && ParseFactor(ps, i + 1) == Success((n.expr, k))
    ensures Tok(ps, i).kind == NUMBER ==> n == Num(NumberOf(Tok(ps, i))) && k == i + 1
    ensures Tok(ps, i).kind == STRING ==> n == Str(TextOf(Tok(ps, i))) && k == i + 1
    ensures Tok(ps, i).kind == IDENTIFIER ==> n == Var(TextOf(Tok(ps, i))) && k == i + 1
    ensures Tok(ps, i).kind == LPAREN ==>
      exists m: nat :: ParseExpr(ps, i + 1) == Success((n, m)) && EatToken(ps, m, RPAREN) == Success(k)
  {
    if Tok(ps, i).kind == LPAREN {
      var e := ParseExpr(ps, i + 1).value;
      assert EatToken(ps, e.1, RPAREN) == Success(k);
    }
  }

  /** Any other token cannot start a factor. */
  lemma FactorRejects(ps: seq<Pull>, i: nat)
    requires Tok(ps, i).kind !in {PLUS, MINUS, NUMBER, STRING, IDENTIFIER, LPAREN}
    ensures ParseFactor(ps, i) == Failure(SyntaxError)
  {
  }

  /** `statement()` picks its rule from the first token's kind alone, and the node shows which rule it was. */
  lemma StatementDispatch(ps: seq<Pull>, i: nat)
    ensures var r := ParseStatement(ps, i);
      r.Success? ==>
        && (r.value.0.Block? <==> Tok(ps, i).kind == LBRACE)
        && (r.value.0.If? <==> Tok(ps, i).kind == IF)
        && (r.value.0.While? <==> Tok(ps, i).kind == WHILE)
        && (r.value.0.VarDecl? <==> Tok(ps, i).kind == LET)
        && (r.value.0.Print? <==> Tok(ps, i).kind == PRINT)
        && (r.value.0.Assign? <==> Tok(ps, i).kind == IDENTIFIER)
  {
  }

  /**
   * What follows the then-branch ending at `m`: after an `else`, the
   * else-branch `e` is the statement after it and the `if` ends where that
   * statement ends, at `k`; without `else` there is none and `k` is `m`.
   */
  ghost predicate ElseTail(ps: seq<Pull>, m: nat, e: Option<Node>, k: nat)
  {
    if Tok(ps, m).kind == ELSE then e.Some? && ParseStatement(ps, m + 1) == Success((e.value, k))
    else e.None? && k == m
  }

  /** The tail of `ifStatement()`: it keeps the condition and the then-branch and adds the else tail found at `i`. */
  lemma ElseParts(ps: seq<Pull>, cond: Node, then_: Node, i: nat, n: Node, k: nat)
    requires ParseElse(ps, cond, then_, i) == Success((n, k))
    ensures n.If? && n.condition == cond && n.thenStmt == then_
    ensures ElseTail(ps, i, n.elseStmt, k)
  {
  }

  /** `ifStatement()` is `if`, a condition and a then-branch, followed by the tail `ParseElse`. */
  lemma IfThenElse(ps: seq<Pull>, i: nat)
    ensures var r := ParseIf(ps, i); var c := ParseCondition(ps, i + 1);
      r.Success? ==>
        && Tok(ps, i).kind == IF && c.Success?
        && var t := ParseStatement(ps, c.value.1);
           t.Success? && r == ParseElse(ps, c.value.0, t.value.0, t.value.1)
  {
  }

  /**
   * `ifStatement()`: the condition is the parenthesised expression after `if`,
   * the then-branch the statement `t` after it, and the else-branch, when
   * `else` follows `t`, the statement after `else`.
   */
  lemma IfParts(ps: seq<Pull>, i: nat, n: Node, k: nat)
    requires ParseIf(ps, i) == Success((n, k))
    ensures Tok(ps, i).kind == IF && n.If?
    ensures var c := ParseCondition(ps, i + 1);
      && c.Success? && n.condition == c.value.0
      && var t := ParseStatement(ps, c.value.1);
         t.Success? && n.thenStmt == t.value.0 && ElseTail(ps, t.value.1, n.elseStmt, k)
  {
    IfThenElse(ps, i);
    var c := ParseCondition(ps, i + 1);
    var t := ParseStatement(ps, c.value.1);
    ElseParts(ps, c.value.0, t.value.0, t.value.1, n, k);
  }

  /** `whileStatement()`: the condition is the parenthesised expression after `while`, the body the statement after it. */
  lemma WhileParts(ps: seq<Pull>, i: nat)
    ensures var r := ParseWhile(ps, i); var c := ParseCondition(ps, i + 1);
      r.Success? ==>
        && Tok(ps, i).kind == WHILE && r.value.0.While?
        && c.Success? && r.value.0.condition == c.value.0
        && ParseStatement(ps, c.value.1) == Success((r.value.0.body, r.value.1))
  {
  }

  /** `varDeclaration()`: `let`, an identifier whose text is the name, `=`, and the initialiser after it. */
  lemma VarDeclParts(ps: seq<Pull>, i: nat)
    ensures var r := ParseVarDecl(ps, i);
      r.Success? ==>
        && Tok(ps, i).kind == LET && Tok(ps, i + 1).kind == IDENTIFIER && Tok(ps, i + 2).kind == ASSIGN
        && r.value.0.VarDecl? && r.value.0.name == TextOf(Tok(ps, i + 1))
        && ParseExpr(ps, i + 3) == Success((r.value.0.initialValue, r.value.1))
  {
  }

  /** `printStatement()`: the printed expression is the one after `print`. */
  lemma PrintParts(ps: seq<Pull>, i: nat)
    ensures var r := ParsePrint(ps, i);
      r.Success? ==> Tok(ps, i).kind == PRINT && r.value.0.Print? && ParseExpr(ps, i + 1) == Success((r.value.0.expr, r.value.1))
  {
  }

  /** `assignmentStatement()`: an identifier, `=`, and the value after it. */
  lemma AssignmentParts(ps: seq<Pull>, i: nat)
    ensures var r := ParseAssignment(ps, i);
      r.Success? ==>
        && Tok(ps, i).kind == IDENTIFIER && Tok(ps, i + 1).kind == ASSIGN && r.value.0.Assign?
        && r.value.0.name == TextOf(Tok(ps, i))
        && ParseExpr(ps, i + 2) == Success((r.value.0.value, r.value.1))
  {
  }

  // ---------------------------------------------------------------------------
  // The statement loops of `block` and `program`
  // ---------------------------------------------------------------------------

  /**
   * `ss` are the statements that successive `statement()` calls parse from the
   * lookahead at `i`, each started on a token other than `stop`, leaving the
   * lookahead at `j`.
   */
  ghost predicate Statements(ps: seq<Pull>, i: nat, j: nat, ss: seq<Node>, stop: Kind)
    decreases |ss|
  {
    if ss == [] then i == j
    else
      var r := ParseStatement(ps, i);
      && Tok(ps, i).kind != stop && r.Success? && r.value.0 == ss[0]
      && Statements(ps, r.value.1, j, ss[1..], stop)
  }

  /** Appending one statement and then more is appending them all at once. */
  lemma Regroup(done: seq<Node>, s: Node, ss: seq<Node>)
    ensures done + [s] + ss == done + ([s] + ss)
  {
  }

  /** Appending statements to none leaves them as they are. */
  lemma NothingBefore(ss: seq<Node>)
    ensures [] + ss == ss
  {
  }

  /** The loop of `block` adds, in order, the statements parsed up to a `}`, and ends by eating that `}`. */
  lemma {:induction false} BlockRestParts(ps: seq<Pull>, i: nat, done: seq<Node>, b: Node, k: nat)
    requires ParseBlockRest(ps, i, done) == Success((b, k))
    decreases Measure(ps, i)
    ensures exists j: nat, ss: seq<Node> ::
      && Statements(ps, i, j, ss, RBRACE) && Tok(ps, j).kind == RBRACE
      && EatToken(ps, j, RBRACE) == Success(k) && b == Block(done + ss)
  {
    if Tok(ps, i).kind == RBRACE {
      assert done + [] == done;
      assert Statements(ps, i, i, [], RBRACE);
    } else {
      var s := ParseStatement(ps, i).value;
      assert ParseBlockRest(ps, s.1, done + [s.0]) == Success((b, k));
      BlockRestParts(ps, s.1, done + [s.0], b, k);
      var j: nat, ss: seq<Node> :|
        && Statements(ps, s.1, j, ss, RBRACE) && Tok(ps, j).kind == RBRACE
        && EatToken(ps, j, RBRACE) == Success(k) && b == Block(done + [s.0] + ss);
      assert ([s.0] + ss)[1..] == ss;
      assert Statements(ps, i, j, [s.0] + ss, RBRACE);
      Regroup(done, s.0, ss);
    }
  }

  /** And conversely: statements parsed up to a `}` that can be eaten are exactly what the loop adds. */
  lemma {:induction false} BlockRestCollects(ps: seq<Pull>, i: nat, j: nat, ss: seq<Node>, done: seq<Node>, k: nat)
    requires Statements(ps, i, j, ss, RBRACE) && Tok(ps, j).kind == RBRACE && EatToken(ps, j, RBRACE) == Success(k)
    decreases |ss|
    ensures ParseBlockRest(ps, i, done) == Success((Block(done + ss), k))
  {
    if ss == [] {
      assert done + ss == done;
    } else {
      var s := ParseStatement(ps, i).value;
      assert ParseBlockRest(ps, i, done) == ParseBlockRest(ps, s.1, done + [s.0]);
      assert [s.0] + ss[1..] == ss by {}
      calc {
        ParseBlockRest(ps, s.1, done + [s.0]);
        { BlockRestCollects(ps, s.1, j, ss[1..], done + [s.0], k); }
        Success((Block(done + [s.0] + ss[1..]), k));
        { Regroup(done, s.0, ss[1..]); }
        Success((Block(done + ss), k));
      }
    }
  }

  /**
   * `block()`: a `{`, then the statements parsed one after another up to a
   * `}`, in order, and the block ends where that `}` was eaten.
   */
  lemma BlockParts(ps: seq<Pull>, i: nat, b: Node, k: nat)
    requires ParseBlock(ps, i) == Success((b, k))
    ensures Tok(ps, i).kind == LBRACE
    ensures exists j: nat, ss: seq<Node> ::
      && Statements(ps, i + 1, j, ss, RBRACE) && Tok(ps, j).kind == RBRACE
      && EatToken(ps, j, RBRACE) == Success(k) && b == Block(ss)
  {
    assert EatToken(ps, i, LBRACE) == Success(i + 1);
    assert ParseBlockRest(ps, i + 1, []) == Success((b, k));
    BlockRestParts(ps, i + 1, [], b, k);
    var j: nat, ss: seq<Node> :|
      && Statements(ps, i + 1, j, ss, RBRACE) && Tok(ps, j).kind == RBRACE
      && EatToken(ps, j, RBRACE) == Success(k) && b == Block([] + ss);
    NothingBefore(ss);
  }

  /** The loop of `program` adds, in source order, the statements parsed up to EOF. */
  lemma {:induction false} ProgramParts(ps: seq<Pull>, i: nat, done: seq<Node>, p: Node, k: nat)
    requires ParseProgram(ps, i, done) == Success((p, k))
    decreases Measure(ps, i)
    ensures exists ss: seq<Node> :: Statements(ps, i, k, ss, EOF) && p == Program(done + ss)
  {
    if Tok(ps, i).kind == EOF {
      assert done + [] == done;
      assert Statements(ps, i, k, [], EOF);
    } else {
      var s := ParseStatement(ps, i).value;
      assert ParseProgram(ps, s.1, done + [s.0]) == Success((p, k));
      ProgramParts(ps, s.1, done + [s.0], p, k);
      var ss: seq<Node> :| Statements(ps, s.1, k, ss, EOF) && p == Program(done + [s.0] + ss);
      assert ([s.0] + ss)[1..] == ss;
      assert Statements(ps, i, k, [s.0] + ss, EOF);
      Regroup(done, s.0, ss);
    }
  }

  /** `parse()`: an accepted program holds, in source order, the statements parsed one after another up to EOF. */
  lemma ProgramInOrder(ps: seq<Pull>, i: nat, p: Node)
    requires ParseFrom(ps, i) == Success(p)
    ensures exists j: nat, ss: seq<Node> :: Statements(ps, i, j, ss, EOF) && Tok(ps, j).kind == EOF && p == Program(ss)
  {
    var r := ParseProgram(ps, i, []).value;
    ProgramParts(ps, i, [], r.0, r.1);
    var ss: seq<Node> :| Statements(ps, i, r.1, ss, EOF) && r.0 == Program([] + ss);
    NothingBefore(ss);
  }

  /** And conversely: statements parsed one after another up to EOF are exactly the program's. */
  lemma {:induction false} ProgramCollects(ps: seq<Pull>, i: nat, j: nat, ss: seq<Node>, done: seq<Node>)
    requires Statements(ps, i, j, ss, EOF) && Tok(ps, j).kind == EOF
    decreases |ss|
    ensures ParseProgram(ps, i, done) == Success((Program(done + ss), j))
  {
    if ss == [] {
      assert done + ss == done;
    } else {
      var s := ParseStatement(ps, i).value;
      assert ParseProgram(ps, i, done) == ParseProgram(ps, s.1, done + [s.0]);
      assert [s.0] + ss[1..] == ss by {}
      calc {
        ParseProgram(ps, s.1, done + [s.0]);
        { ProgramCollects(ps, s.1, j, ss[1..], done + [s.0]); }
        Success((Program(done + [s.0] + ss[1..]), j));
        { Regroup(done, s.0, ss[1..]); }
        Success((Program(done + ss), j));
      }
    }
  }

  /**
   * A statement that starts with an identifier is an assignment: without `=`
   * after the name it fails, even where the name alone would be an expression.
   */
  lemma IdentifierCommitsToAssignment(ps: seq<Pull>, i: nat)
    requires Tok(ps, i).kind == IDENTIFIER && Tok(ps, i + 1).kind != ASSIGN
    ensures ParseStatement(ps, i) == Failure(if i + 1 < |ps| && ps[i + 1].Err? then ps[i + 1].error else SyntaxError)
  {
  }

  /** The `expr` operators share one tier and associate to the left: `a o1 b o2 c` is `(a o1 b) o2 c`. */
  lemma ExprLeftAssociative(ps: seq<Pull>, i: nat, a: Node, b: Node, c: Node, i1: nat, j1: nat, i2: nat, j2: nat, i3: nat)
    requires ParseTerm(ps, i) == Success((a, i1))
    requires Tok(ps, i1).kind in ExprOps && EatToken(ps, i1, Tok(ps, i1).kind) == Success(j1)
    requires ParseTerm(ps, j1) == Success((b, i2))
    requires Tok(ps, i2).kind in ExprOps && EatToken(ps, i2, Tok(ps, i2).kind) == Success(j2)
    requires ParseTerm(ps, j2) == Success((c, i3))
    requires Tok(ps, i3).kind !in ExprOps
    ensures ParseExpr(ps, i) == Success((BinOp(BinOp(a, Tok(ps, i1).kind, b), Tok(ps, i2).kind, c), i3))
  {
    var o1, o2 := Tok(ps, i1).kind, Tok(ps, i2).kind;
    var n := BinOp(BinOp(a, o1, b), o2, c);
    assert ParseExprRest(ps, n, i3) == Success((n, i3));
    assert ParseOperand(ps, i2) == Success((c, i3));
    assert ParseExprRest(ps, BinOp(a, o1, b), i2) == Success((n, i3));
    assert ParseOperand(ps, i1) == Success((b, i2));
    assert ParseExprRest(ps, a, i1) == Success((n, i3));
  }

  /** `*` and `/` associate to the left as well: `a o1 b o2 c` is `(a o1 b) o2 c`. */
  lemma TermLeftAssociative(ps: seq<Pull>, i: nat, a: Node, b: Node, c: Node, i1: nat, j1: nat, i2: nat, j2: nat, i3: nat)
    requires ParseFactor(ps, i) == Success((a, i1))
    requires Tok(ps, i1).kind in TermOps && EatToken(ps, i1, Tok(ps, i1).kind) == Success(j1)
    requires ParseFactor(ps, j1) == Success((b, i2))
    requires Tok(ps, i2).kind in TermOps && EatToken(ps, i2, Tok(ps, i2).kind) == Success(j2)
    requires ParseFactor(ps, j2) == Success((c, i3))
    requires Tok(ps, i3).kind !in TermOps
    ensures ParseTerm(ps, i) == Success((BinOp(BinOp(a, Tok(ps, i1).kind, b), Tok(ps, i2).kind, c), i3))
  {
    var o1, o2 := Tok(ps, i1).kind, Tok(ps, i2).kind;
    var n := BinOp(BinOp(a, o1, b), o2, c);
    assert ParseTermRest(ps, n, i3) == Success((n, i3));
    assert ParseFactorOperand(ps, i2) == Success((c, i3));
    assert ParseTermRest(ps, BinOp(a, o1, b), i2) == Success((n, i3));
    assert ParseFactorOperand(ps, i1) == Success((b, i2));
    assert ParseTermRest(ps, a, i1) == Success((n, i3));
  }

  /** A factor with no `*` or `/` after it is a whole term. */
  lemma TermOfOne(ps: seq<Pull>, i: nat, a: Node, i1: nat)
    requires ParseFactor(ps, i) == Success((a, i1)) && Tok(ps, i1).kind !in TermOps
    ensures ParseTerm(ps, i) == Success((a, i1))
  {
    assert ParseTermRest(ps, a, i1) == Success((a, i1));
  }

  /** `a o b` for `o` in `*` and `/`, with no further `*` or `/` after it. */
  lemma TermOfTwo(ps: seq<Pull>, i: nat, a: Node, b: Node, i1: nat, j1: nat, i2: nat)
    requires ParseFactor(ps, i) == Success((a, i1))
    requires Tok(ps, i1).kind in TermOps && EatToken(ps, i1, Tok(ps, i1).kind) == Success(j1)
    requires ParseFactor(ps, j1) == Success((b, i2)) && Tok(ps, i2).kind !in TermOps
    ensures ParseTerm(ps, i) == Success((BinOp(a, Tok(ps, i1).kind, b), i2))
  {
    var n := BinOp(a, Tok(ps, i1).kind, b);
    assert ParseTermRest(ps, n, i2) == Success((n, i2));
    assert ParseFactorOperand(ps, i1) == Success((b, i2));
    assert ParseTermRest(ps, a, i1) == Success((n, i2));
  }

  /** A term with no `expr` operator after it is a whole expression. */
  lemma ExprOfOne(ps: seq<Pull>, i: nat, a: Node, i1: nat)
    requires ParseTerm(ps, i) == Success((a, i1)) && Tok(ps, i1).kind !in ExprOps
    ensures ParseExpr(ps, i) == Success((a, i1))
  {
    assert ParseExprRest(ps, a, i1) == Success((a, i1));
  }

  /** `a o b` for an `expr` operator `o`, with no further `expr` operator after it. */
  lemma ExprOfTwo(ps: seq<Pull>, i: nat, a: Node, b: Node, i1: nat, j1: nat, i2: nat)
    requires ParseTerm(ps, i) == Success((a, i1))
    requires Tok(ps, i1).kind in ExprOps && EatToken(ps, i1, Tok(ps, i1).kind) == Success(j1)
    requires ParseTerm(ps, j1) == Success((b, i2)) && Tok(ps, i2).kind !in ExprOps
    ensures ParseExpr(ps, i) == Success((BinOp(a, Tok(ps, i1).kind, b), i2))
  {
    var n := BinOp(a, Tok(ps, i1).kind, b);
    assert ParseExprRest(ps, n, i2) == Success((n, i2));
    assert ParseOperand(ps, i1) == Success((b, i2));
    assert ParseExprRest(ps, a, i1) == Success((n, i2));
  }

  /** `*` and `/` bind tighter than the `expr` operators on their right: `a + b * c` is `a + (b * c)`. */
  lemma TermBindsTighterOnTheRight(ps: seq<Pull>, i: nat, a: Node, b: Node, c: Node, i1: nat, j1: nat, i2: nat, j2: nat, i3: nat)
    requires ParseFactor(ps, i) == Success((a, i1))
    requires Tok(ps, i1).kind in ExprOps && EatToken(ps, i1, Tok(ps, i1).kind) == Success(j1)
    requires ParseFactor(ps, j1) == Success((b, i2))
    requires Tok(ps, i2).kind in TermOps && EatToken(ps, i2, Tok(ps, i2).kind) == Success(j2)
    requires ParseFactor(ps, j2) == Success((c, i3))
    requires Tok(ps, i3).kind !in ExprOps + TermOps
    ensures ParseExpr(ps, i) == Success((BinOp(a, Tok(ps, i1).kind, BinOp(b, Tok(ps, i2).kind, c)), i3))
  {
    TermOfOne(ps, i, a, i1);
    TermOfTwo(ps, j1, b, c, i2, j2, i3);
    ExprOfTwo(ps, i, a, BinOp(b, Tok(ps, i2).kind, c), i1, j1, i3);
  }

  /** ... and on their left: `a * b + c` is `(a * b) + c`. */
  lemma TermBindsTighterOnTheLeft(ps: seq<Pull>, i: nat, a: Node, b: Node, c: Node, i1: nat, j1: nat, i2: nat, j2: nat, i3: nat)
    requires ParseFactor(ps, i) == Success((a, i1))
    requires Tok(ps, i1).kind in TermOps && EatToken(ps, i1, Tok(ps, i1).kind) == Success(j1)
    requires ParseFactor(ps, j1) == Success((b, i2))
    requires Tok(ps, i2).kind in ExprOps && EatToken(ps, i2, Tok(ps, i2).kind) == Success(j2)
    requires ParseFactor(ps, j2) == Success((c, i3))
    requires Tok(ps, i3).kind !in ExprOps + TermOps
    ensures ParseExpr(ps, i) == Success((BinOp(BinOp(a, Tok(ps, i1).kind, b), Tok(ps, i2).kind, c), i3))
  {
    TermOfTwo(ps, i, a, b, i1, j1, i2);
    TermOfOne(ps, j2, c, i3);
    ExprOfTwo(ps, i, BinOp(a, Tok(ps, i1).kind, b), c, i2, j2, i3);
  }

  /** A parenthesised expression is the inner node itself: the parentheses leave no node behind. */
  lemma ParenthesesLeaveNoNode(ps: seq<Pull>, i: nat, e: Node, j: nat, k: nat, m: nat)
    requires EatToken(ps, i, LPAREN) == Success(j)
    requires ParseExpr(ps, j) == Success((e, k))
    requires EatToken(ps, k, RPAREN) == Success(m)
    ensures ParseFactor(ps, i) == Success((e, m))
  {
  }

  /**
   * `else` goes to the nearest `if`: when the then-branch is an `if` left
   * without an `else`, the outer `if` is left without one too.
   */
  lemma ElseGoesToNearestIf(ps: seq<Pull>, i: nat)
    ensures var r := ParseIf(ps, i);
      r.Success? && r.value.0.thenStmt.If? && r.value.0.thenStmt.elseStmt.None? ==> r.value.0.elseStmt.None?
  {
  }

  /** Reaching EOF inside a block is a syntax error, not a loop. */
  lemma BlockNeedsClosingBrace(ps: seq<Pull>, i: nat, done: seq<Node>)
    requires Tok(ps, i).kind == EOF
    ensures ParseBlockRest(ps, i, done) == Failure(SyntaxError)
  {
    assert ParseFactor(ps, i) == Failure(SyntaxError);
    assert ParseTerm(ps, i) == Failure(SyntaxError);
    assert ParseExpr(ps, i) == Failure(SyntaxError);
    assert ParseStatement(ps, i) == Failure(SyntaxError);
  }

  /**
   * No rule eats `;`: a program parsed from a pull sequence shaped like the
   * lexer's ran through every pull up to the final EOF, so none is a lexical
   * error and none is a `;` token.
   */
  lemma {:induction false} AcceptedPullsHaveNoSemicolon(ps: seq<Pull>)
    requires |ps| > 0 && ps[0].Got?
    requires forall j | 0 <= j < |ps| - 1 :: ps[j].Got? && ps[j].tok.kind != EOF
    requires ps[|ps| - 1].Err? || ps[|ps| - 1].tok.kind == EOF
    requires ParseFrom(ps, 0).Success?
    ensures forall j | 0 <= j < |ps| :: ps[j].Got? && ps[j].tok.kind != SEMICOLON
  {
    var d := ParseProgram(ps, 0, []).value.1;
    assert Clean(ps, 0, d) && Tok(ps, d).kind == EOF;
    assert Tok(ps, |ps| - 1).kind == EOF;
    assert d < |ps| && ps[d].Got?;
    assert d == |ps| - 1;
    forall j | 0 <= j < |ps|
      ensures ps[j].Got? && ps[j].tok.kind != SEMICOLON
    {
      if j < d {
        assert Tok(ps, j).kind != SEMICOLON;
      }
    }
  }

  /** So an input the parser accepts lexes without error and without a single `;` token. */
  lemma AcceptedInputHasNoSemicolon(input: string)
    ensures ParseInput(input).Success? ==>
      var ps := Pulls(input, 0);
      forall j | 0 <= j < |ps| :: ps[j].Got? && ps[j].tok.kind != SEMICOLON
  {
    if ParseInput(input).Success? {
      AcceptedPullsHaveNoSemicolon(Pulls(input, 0));
    }
  }

  /** So a `;` anywhere in the token stream makes `parse` fail. */
  lemma SemicolonRejected(input: string, j: nat)
    requires j < |Pulls(input, 0)| && Pulls(input, 0)[j].Got? && Pulls(input, 0)[j].tok.kind == SEMICOLON
    ensures ParseInput(input).Failure?
  {
    AcceptedInputHasNoSemicolon(input);
  }
}
