/** What src/interpreter.js promises about running a tree, stated on `Exec`. */
module InterpretingFacts {
  import opened Wrappers
  import opened Errors
  import opened Tokens
  import opened Ast
  import opened Values
  import opened Interpreting

  // ---------------------------------------------------------------------------
  // Operators
  // ---------------------------------------------------------------------------

  /** `===` is strict: true exactly for equal values, so never across kinds; `!==` is its negation. */
  lemma StrictEquality(l: Value, r: Value)
    ensures ApplyBinary(EQUALS, l, r) == Success(Boolean(true)) <==> l == r
    ensures ApplyBinary(NOT_EQUALS, l, r) == Success(Boolean(!ApplyBinary(EQUALS, l, r).value.b))
    ensures (l.Number? != r.Number? || l.Text? != r.Text?) ==> ApplyBinary(EQUALS, l, r) == Success(Boolean(false))
  {
  }

  /** `+` adds two numbers and concatenates two strings; on any other pair it fails. */
  lemma PlusOperands(l: Value, r: Value)
    ensures ApplyBinary(PLUS, l, r).Success? <==> (l.Number? && r.Number?) || (l.Text? && r.Text?)
    ensures l.Number? && r.Number? ==> ApplyBinary(PLUS, l, r) == Success(Number(l.n + r.n))
    ensures l.Text? && r.Text? ==> ApplyBinary(PLUS, l, r) == Success(Text(l.s + r.s))
  {
  }

  /** No string is below itself. */
  lemma {:induction false} TextLessIrreflexive(a: string)
    ensures !TextLess(a, a)
    decreases |a|
  {
    if |a| > 0 {
      TextLessIrreflexive(a[1..]);
    }
  }

  /** Of two different strings exactly one is below the other. */
  lemma {:induction false} TextLessTotal(a: string, b: string)
    ensures a != b ==> TextLess(a, b) != TextLess(b, a)
    ensures a == b ==> !TextLess(a, b)
    decreases |a|
  {
    if a == b {
      TextLessIrreflexive(a);
    } else if |a| > 0 && |b| > 0 && a[0] == b[0] {
      assert a == [a[0]] + a[1..] && b == [b[0]] + b[1..];
      TextLessTotal(a[1..], b[1..]);
    }
  }

  /**
   * On two operands of one kind the orderings agree with each other: `<=` is
   * `<` or `===`, and `>` is `<` turned round.
   */
  lemma OrderingsAgree(l: Value, r: Value)
    requires Less(l, r).Some?
    ensures ApplyBinary(LESS_EQUALS, l, r) == Success(Boolean(Less(l, r).value || l == r))
    ensures ApplyBinary(GREATER, l, r) == ApplyBinary(LESS, r, l)
    ensures ApplyBinary(GREATER_EQUALS, l, r) == ApplyBinary(LESS_EQUALS, r, l)
  {
    if l.Text? {
      TextLessTotal(l.s, r.s);
    }
  }

  // ---------------------------------------------------------------------------
  // Expressions
  // ---------------------------------------------------------------------------

  /** An expression reads only its own names: two scopes that agree on them give the same value. */
  lemma {:induction false} EvalReadsNames(e: Node, s1: Scope, s2: Scope)
    requires IsExpr(e)
    requires forall x | x in Names(e) :: (x in s1 <==> x in s2) && (x in s1 ==> s1[x] == s2[x])
    ensures Eval(e, s1) == Eval(e, s2)
  {
    match e
    case Var(x) =>
    case Num(_) =>
    case Str(_) =>
    case BinOp(l, _, r) =>
      EvalReadsNames(l, s1, s2);
      EvalReadsNames(r, s1, s2);
    case UnaryOp(_, x) =>
      EvalReadsNames(x, s1, s2);
  }

  /** `visit_Var`: the bound value, or the not-defined error naming the variable. */
  lemma VarLookup(x: string, scope: Scope)
    ensures x in scope ==> Eval(Var(x), scope) == Success(scope[x])
    ensures x !in scope ==> Eval(Var(x), scope) == Failure(NameError(x))
  {
  }

  /** `visit_Num` and `visit_Str`: a literal is its own value, whatever the scope. */
  lemma LiteralValues(n: real, t: string, scope: Scope)
    ensures Eval(Num(n), scope) == Success(Number(n))
    ensures Eval(Str(t), scope) == Success(Text(t))
  {
  }

  /** `visit_UnaryOp`: the operand first, whose error is the error of the whole, then the operator. */
  lemma UnaryOperandFirst(op: Kind, x: Node, scope: Scope)
    requires IsExpr(UnaryOp(op, x))
    ensures Eval(x, scope).Failure? ==> Eval(UnaryOp(op, x), scope) == Failure(Eval(x, scope).error)
    ensures Eval(x, scope).Success? ==> Eval(UnaryOp(op, x), scope) == ApplyUnary(op, Eval(x, scope).value)
  {
  }

  /** Both operands are evaluated, left first: an error on the left is the error of the whole. */
  lemma BinOpLeftFirst(l: Node, op: Kind, r: Node, scope: Scope)
    requires IsExpr(BinOp(l, op, r))
    ensures Eval(l, scope).Failure? ==> Eval(BinOp(l, op, r), scope) == Failure(Eval(l, scope).error)
    ensures Eval(l, scope).Success? && Eval(r, scope).Failure? ==>
      Eval(BinOp(l, op, r), scope) == Failure(Eval(r, scope).error)
    ensures Eval(l, scope).Success? && Eval(r, scope).Success? ==>
      Eval(BinOp(l, op, r), scope) == ApplyBinary(op, Eval(l, scope).value, Eval(r, scope).value)
  {
  }

  // ---------------------------------------------------------------------------
  // Statements
  // ---------------------------------------------------------------------------

  /**
   * `visit_Program` and `visit_Block` run their statements in order and
   * return the last one's result: running one more statement after a list is
   * running that statement in the state the list left.
   */
  lemma {:induction false} SeqThenOne(ss: seq<Node>, s: Node, last: Option<Value>, st: State, fuel: nat)
    requires forall t | t in ss :: IsStmt(t)
    requires IsStmt(s)
    ensures var c := ExecSeq(ss, last, st, fuel);
      ExecSeq(ss + [s], last, st, fuel) == if c.result.Failure? then c else Exec(s, c.state, fuel)
    decreases |ss|
  {
    if |ss| == 0 {
      assert ss + [s] == [s];
      assert [s][1..] == [];
    } else {
      assert (ss + [s])[0] == ss[0];
      assert (ss + [s])[1..] == ss[1..] + [s];
      var c := Exec(ss[0], st, fuel);
      if c.result.Success? {
        SeqThenOne(ss[1..], s, c.result.value, c.state, fuel);
      }
    }
  }

  /** A list with no statements yields `undefined` and changes nothing. */
  lemma EmptySeq(st: State, fuel: nat)
    ensures ExecSeq([], None, st, fuel) == Completion(Success(None), st)
  {
  }

  /** `visit_VarDecl` binds the name to the initialiser's value, bound before or not; nothing else changes. */
  lemma VarDeclBinds(x: string, e: Node, st: State, fuel: nat)
    requires IsExpr(e)
    ensures var c := Exec(VarDecl(x, e), st, fuel);
      match Eval(e, st.scope)
      case Success(v) => c == Completion(Success(None), State(st.scope[x := v], st.output))
      case Failure(err) => c == Completion(Failure(err), st)
  {
  }

  /**
   * `visit_Assign` throws the not-defined error for an unbound name before
   * evaluating the value, so nothing changes; a bound name is overwritten and
   * no other binding changes.
   */
  lemma AssignRebinds(x: string, e: Node, st: State, fuel: nat)
    requires IsExpr(e)
    ensures x !in st.scope ==> Exec(Assign(x, e), st, fuel) == Completion(Failure(NameError(x)), st)
    ensures x in st.scope && Eval(e, st.scope).Success? ==>
      var c := Exec(Assign(x, e), st, fuel);
      && c.result == Success(None) && c.state.output == st.output
      && c.state.scope.Keys == st.scope.Keys
      && c.state.scope[x] == Eval(e, st.scope).value
      && forall y | y in st.scope && y != x :: c.state.scope[y] == st.scope[y]
  {
  }

  /** `visit_If`: the then-branch on a truthy condition, the else-branch or nothing on a falsy one. */
  lemma IfBranches(cond: Node, t: Node, e: Option<Node>, st: State, fuel: nat)
    requires IsStmt(If(cond, t, e))
    requires Eval(cond, st.scope).Success?
    ensures Truthy(Eval(cond, st.scope).value) ==> Exec(If(cond, t, e), st, fuel) == Exec(t, st, fuel)
    ensures !Truthy(Eval(cond, st.scope).value) && e.Some? ==> Exec(If(cond, t, e), st, fuel) == Exec(e.value, st, fuel)
    ensures !Truthy(Eval(cond, st.scope).value) && e.None? ==> Exec(If(cond, t, e), st, fuel) == Completion(Success(None), st)
  {
  }

  /** `visit_Print` appends exactly the value it returns to the output, and leaves the scope. */
  lemma PrintAppendsOne(e: Node, st: State, fuel: nat)
    requires IsExpr(e)
    ensures var c := Exec(Print(e), st, fuel);
      && (Eval(e, st.scope).Success? ==>
           && c.result == Success(Some(Eval(e, st.scope).value))
           && c.state == State(st.scope, st.output + [Eval(e, st.scope).value]))
      && (Eval(e, st.scope).Failure? ==> c == Completion(Failure(Eval(e, st.scope).error), st))
  {
  }

  /**
   * A block opens no scope: a name declared inside it stays bound in the one
   * `globalScope` after the block, and reading it there gives its value.
   */
  lemma BlockOpensNoScope(x: string, e: Node, st: State, fuel: nat)
    requires IsExpr(e) && Eval(e, st.scope).Success?
    ensures var c := Exec(Block([VarDecl(x, e)]), st, fuel);
      && c == Completion(Success(None), State(st.scope[x := Eval(e, st.scope).value], st.output))
      && Eval(Var(x), c.state.scope) == Eval(e, st.scope)
  {
    var d := Exec(VarDecl(x, e), st, fuel);
    assert d == Completion(Success(None), State(st.scope[x := Eval(e, st.scope).value], st.output));
    assert [VarDecl(x, e)][1..] == [];
    assert ExecSeq([VarDecl(x, e)], None, st, fuel) == ExecSeq([], None, d.state, fuel);
  }

  /** A `while` loop that ends normally ends because its condition, evaluated in the final state, is falsy. */
  lemma {:induction false} WhileEndsFalsy(cond: Node, body: Node, last: Option<Value>, st: State, fuel: nat)
    requires IsExpr(cond) && IsStmt(body)
    ensures var c := ExecWhile(cond, body, last, st, fuel);
      c.result.Success? ==> Eval(cond, c.state.scope).Success? && !Truthy(Eval(cond, c.state.scope).value)
    decreases fuel
  {
    var v := Eval(cond, st.scope);
    if v.Success? && Truthy(v.value) && fuel > 0 {
      var k := Exec(body, st, fuel - 1);
      if k.result.Success? {
        WhileEndsFalsy(cond, body, k.result.value, k.state, fuel - 1);
      }
    }
  }

  /** A `while` whose condition is falsy at once runs nothing and yields `undefined`. */
  lemma WhileFalsyAtOnce(cond: Node, body: Node, st: State, fuel: nat)
    requires IsStmt(While(cond, body))
    requires Eval(cond, st.scope).Success? && !Truthy(Eval(cond, st.scope).value)
    ensures Exec(While(cond, body), st, fuel) == Completion(Success(None), st)
  {
  }

  // ---------------------------------------------------------------------------
  // Fuel
  // ---------------------------------------------------------------------------

  /** The fuel bound is only a bound: a run that did not run out gives the same completion with more fuel. */
  lemma {:induction false} ExecFuel(s: Node, st: State, fuel: nat, more: nat)
    requires IsStmt(s) && fuel <= more
    requires Exec(s, st, fuel).result != Failure(OutOfFuel)
    ensures Exec(s, st, more) == Exec(s, st, fuel)
    decreases fuel, s
  {
    match s
    case Block(ss) => ExecSeqFuel(ss, None, st, fuel, more);
    case If(cond, t, e) =>
      var v := Eval(cond, st.scope);
      if v.Success? {
        if Truthy(v.value) {
          ExecFuel(t, st, fuel, more);
        } else if e.Some? {
          ExecFuel(e.value, st, fuel, more);
        }
      }
    case While(cond, body) => ExecWhileFuel(cond, body, None, st, fuel, more);
    case _ =>
  }

  lemma {:induction false} ExecSeqFuel(ss: seq<Node>, last: Option<Value>, st: State, fuel: nat, more: nat)
    requires (forall t | t in ss :: IsStmt(t)) && fuel <= more
    requires ExecSeq(ss, last, st, fuel).result != Failure(OutOfFuel)
    ensures ExecSeq(ss, last, st, more) == ExecSeq(ss, last, st, fuel)
    decreases fuel, ss
  {
    if |ss| > 0 {
      var c := Exec(ss[0], st, fuel);
      ExecFuel(ss[0], st, fuel, more);
      if c.result.Success? {
        ExecSeqFuel(ss[1..], c.result.value, c.state, fuel, more);
      }
    }
  }

  lemma {:induction false} ExecWhileFuel(cond: Node, body: Node, last: Option<Value>, st: State, fuel: nat, more: nat)
    requires IsExpr(cond) && IsStmt(body) && fuel <= more
    requires ExecWhile(cond, body, last, st, fuel).result != Failure(OutOfFuel)
    ensures ExecWhile(cond, body, last, st, more) == ExecWhile(cond, body, last, st, fuel)
    decreases fuel, body, 1
  {
    var v := Eval(cond, st.scope);
    if v.Success? && Truthy(v.value) {
      WhileStepFuel(cond, body, last, st, fuel, more);
    }
  }

  /** One iteration of `ExecWhileFuel`: the body, then the rest of the loop, with more fuel. */
  lemma {:induction false} WhileStepFuel(cond: Node, body: Node, last: Option<Value>, st: State, fuel: nat, more: nat)
    requires IsExpr(cond) && IsStmt(body) && fuel <= more
    requires Eval(cond, st.scope).Success? && Truthy(Eval(cond, st.scope).value)
    requires ExecWhile(cond, body, last, st, fuel).result != Failure(OutOfFuel)
    ensures ExecWhile(cond, body, last, st, more) == ExecWhile(cond, body, last, st, fuel)
    decreases fuel, body, 0
  {
    assert fuel > 0;
    var k := Exec(body, st, fuel - 1);
    ExecFuel(body, st, fuel - 1, more - 1);
    if k.result.Success? {
      ExecWhileFuel(cond, body, k.result.value, k.state, fuel - 1, more - 1);
    }
  }
}
