/**
 * The tree-walking interpreter of src/interpreter.js.
 *
 * Expressions only read the environment, so `Eval` is a function of the
 * node and the scope.  Statements change the one flat `globalScope` and append
 * to the output; `Exec` says what a statement does to a `State`, and the class
 * `Interpreter` is the source's object, whose `visit` methods are proved to
 * follow `Exec`.  A `while` loop need not end, so every iteration spends one
 * unit of a `fuel` budget; running out of fuel is an error of the model only.
 */
module Interpreting {
  import opened Wrappers
  import opened Errors
  import opened Tokens
  import opened Ast
  import opened Values

  /** `globalScope`: one map for the whole run, shared by every block. */
  type Scope = map<string, Value>

  /** The names an expression reads. */
  function Names(e: Node): set<string>
    requires IsExpr(e)
  {
    match e
    case Var(x) => {x}
    case Num(_) => {}
    case Str(_) => {}
    case BinOp(l, _, r) => Names(l) + Names(r)
    case UnaryOp(_, x) => Names(x)
  }

  /**
   * `visit` on an expression node: `visit_Var`, `visit_Num`, `visit_Str`,
   * `visit_BinOp` (left operand, then right, then the operator) and
   * `visit_UnaryOp`.  A name is looked up only when it is read.
   */
  function Eval(e: Node, scope: Scope): (r: Result<Value, Error>)
    requires IsExpr(e)
    ensures r.Failure? ==> r.error.NameError? || r.error.OperandError?
    ensures r.Failure? && r.error.NameError? ==> r.error.name in Names(e) && r.error.name !in scope
    ensures Names(e) <= scope.Keys ==> r.Failure? ==> r.error.OperandError?
  {
    match e
    case Var(x) => if x in scope then Success(scope[x]) else Failure(NameError(x))
    case Num(n) => Success(Number(n))
    case Str(s) => Success(Text(s))
    case BinOp(l, op, r) =>
      var a :- Eval(l, scope);
      var b :- Eval(r, scope);
      ApplyBinary(op, a, b)
    case UnaryOp(op, x) =>
      var v :- Eval(x, scope);
      ApplyUnary(op, v)
  }

  /** What a run has changed so far: the scope and the values printed, in order. */
  datatype State = State(scope: Scope, output: seq<Value>)

  /**
   * The end of a `visit`: its result (`None` for JavaScript's `undefined`) or
   * the error it threw, and the state it left.  An error does not roll back
   * what the statements before it did.
   */
  datatype Completion = Completion(result: Result<Option<Value>, Error>, state: State)

  /** A statement that evaluates `e` for its value and changes nothing. */
  function ExprCompletion(e: Node, st: State): (c: Completion)
    requires IsExpr(e)
    ensures c.state == st
  {
    var v := Eval(e, st.scope);
    if v.Failure? then Completion(Failure(v.error), st) else Completion(Success(Some(v.value)), st)
  }

  /** `visit` on a statement node. */
  function Exec(s: Node, st: State, fuel: nat): (c: Completion)
    requires IsStmt(s)
    decreases fuel, s
    ensures st.scope.Keys <= c.state.scope.Keys
    ensures st.output <= c.state.output
  {
    match s
    case Block(ss) => ExecSeq(ss, None, st, fuel)
    case VarDecl(x, e) =>
      var v := Eval(e, st.scope);
      if v.Failure? then Completion(Failure(v.error), st)
      else Completion(Success(None), st.(scope := st.scope[x := v.value]))
    case Assign(x, e) =>
      if x !in st.scope then Completion(Failure(NameError(x)), st)
      else
        var v := Eval(e, st.scope);
        if v.Failure? then Completion(Failure(v.error), st)
        else Completion(Success(None), st.(scope := st.scope[x := v.value]))
    case If(cond, t, e) =>
      var v := Eval(cond, st.scope);
      if v.Failure? then Completion(Failure(v.error), st)
      else if Truthy(v.value) then Exec(t, st, fuel)
      else if e.Some? then Exec(e.value, st, fuel)
      else Completion(Success(None), st)
    case While(cond, body) => ExecWhile(cond, body, None, st, fuel)
    case Print(e) =>
      var v := Eval(e, st.scope);
      if v.Failure? then Completion(Failure(v.error), st)
      else Completion(Success(Some(v.value)), st.(output := st.output + [v.value]))
    case Var(_) => ExprCompletion(s, st)
    case Num(_) => ExprCompletion(s, st)
    case Str(_) => ExprCompletion(s, st)
    case BinOp(_, _, _) => ExprCompletion(s, st)
    case UnaryOp(_, _) => ExprCompletion(s, st)
  }

  /**
   * The loop of `visit_Program` and `visit_Block`: the statements in order,
   * stopping at the first error; the result is the last statement's, or
   * `last` when there are none left.
   */
  function ExecSeq(ss: seq<Node>, last: Option<Value>, st: State, fuel: nat): (c: Completion)
    requires forall s | s in ss :: IsStmt(s)
    decreases fuel, ss
    ensures st.scope.Keys <= c.state.scope.Keys
    ensures st.output <= c.state.output
  {
    if |ss| == 0 then Completion(Success(last), st)
    else
      var c := Exec(ss[0], st, fuel);
      if c.result.Failure? then c else ExecSeq(ss[1..], c.result.value, c.state, fuel)
  }

  /**
   * The loop of `visit_While`: the condition is evaluated before every
   * iteration; the result is the last iteration's, or `last` when the
   * condition is falsy at once.  An iteration costs one unit of fuel.
   */
  function ExecWhile(cond: Node, body: Node, last: Option<Value>, st: State, fuel: nat): (c: Completion)
    requires IsExpr(cond) && IsStmt(body)
    decreases fuel, body
    ensures st.scope.Keys <= c.state.scope.Keys
    ensures st.output <= c.state.output
  {
    var v := Eval(cond, st.scope);
    if v.Failure? then Completion(Failure(v.error), st)
    else if !Truthy(v.value) then Completion(Success(last), st)
    else if fuel == 0 then Completion(Failure(OutOfFuel), st)
    else
      var k := Exec(body, st, fuel - 1);
      if k.result.Failure? then k else ExecWhile(cond, body, k.result.value, k.state, fuel - 1)
  }

  /** `interpret(tree)` on the Program node the parser returns. */
  function Interpret(tree: Node, st: State, fuel: nat): (c: Completion)
    requires IsProgram(tree)
    ensures st.scope.Keys <= c.state.scope.Keys
    ensures st.output <= c.state.output
  {
    ExecSeq(tree.statements, None, st, fuel)
  }

  class Interpreter {
    var globalScope: Scope
    /** What `console.log` has been handed, in order. */
    var output: seq<Value>

    function Now(): State
      reads this
    {
      State(globalScope, output)
    }

    constructor ()
      ensures globalScope == map[] && output == []
    {
      globalScope := map[];
      output := [];
    }

    /** `visit(node)` on a statement: the exhaustive form of the dispatch on the node's class. */
    method Visit(node: Node, fuel: nat) returns (r: Result<Option<Value>, Error>)
      requires IsStmt(node)
      modifies this
      decreases fuel, node, 1
      ensures Completion(r, Now()) == Exec(node, old(Now()), fuel)
    {
      match node
      case Block(_) => r := VisitBlock(node, fuel);
      case VarDecl(_, _) => r := VisitVarDecl(node);
      case Assign(_, _) => r := VisitAssign(node);
      case If(_, _, _) => r := VisitIf(node, fuel);
      case While(_, _) => r := VisitWhile(node, fuel);
      case Print(_) => r := VisitPrint(node);
      case Var(_) => r := VisitExpr(node);
      case Num(_) => r := VisitExpr(node);
      case Str(_) => r := VisitExpr(node);
      case BinOp(_, _, _) => r := VisitExpr(node);
      case UnaryOp(_, _) => r := VisitExpr(node);
    }

    /** An expression visited as a statement: `visit_BinOp` and the rest only read the scope. */
    method VisitExpr(node: Node) returns (r: Result<Option<Value>, Error>)
      requires IsExpr(node)
      ensures Completion(r, Now()) == ExprCompletion(node, Now())
    {
      var v :- Eval(node, globalScope);
      return Success(Some(v));
    }

    /** `visit_Program`: the statements in order; the result is the last one's. */
    method VisitProgram(node: Node, fuel: nat) returns (r: Result<Option<Value>, Error>)
      requires IsProgram(node)
      modifies this
      decreases fuel, node, 0
      ensures Completion(r, Now()) == Interpret(node, old(Now()), fuel)
    {
      var result := None;
      for k := 0 to |node.statements|
        invariant ExecSeq(node.statements[k..], result, Now(), fuel) == ExecSeq(node.statements, None, old(Now()), fuel)
      {
        assert node.statements[k..][1..] == node.statements[k + 1..];
        result :- Visit(node.statements[k], fuel);
      }
      return Success(result);
    }

    /** `visit_Block`: the same loop as `visit_Program`, in the same one scope. */
    method VisitBlock(node: Node, fuel: nat) returns (r: Result<Option<Value>, Error>)
      requires IsStmt(node) && node.Block?
      modifies this
      decreases fuel, node, 0
      ensures Completion(r, Now()) == Exec(node, old(Now()), fuel)
    {
      var result := None;
      for k := 0 to |node.statements|
        invariant ExecSeq(node.statements[k..], result, Now(), fuel) == ExecSeq(node.statements, None, old(Now()), fuel)
      {
        assert node.statements[k..][1..] == node.statements[k + 1..];
        result :- Visit(node.statements[k], fuel);
      }
      return Success(result);
    }

    /** `visit_VarDecl`: bind the name to the initialiser's value, whether or not it was bound. */
    method VisitVarDecl(node: Node) returns (r: Result<Option<Value>, Error>)
      requires IsStmt(node) && node.VarDecl?
      modifies this
      ensures Completion(r, Now()) == Exec(node, old(Now()), 0)
    {
      var v :- Eval(node.initialValue, globalScope);
      globalScope := globalScope[node.name := v];
      return Success(None);
    }

    /** `visit_Assign`: the name must be bound already; it is checked before the value is evaluated. */
    method VisitAssign(node: Node) returns (r: Result<Option<Value>, Error>)
      requires IsStmt(node) && node.Assign?
      modifies this
      ensures Completion(r, Now()) == Exec(node, old(Now()), 0)
    {
      if node.name !in globalScope {
        return Failure(NameError(node.name));
      }
      var v :- Eval(node.value, globalScope);
      globalScope := globalScope[node.name := v];
      return Success(None);
    }

    /** `visit_If`: the then-branch on a truthy condition, else the else-branch if there is one. */
    method VisitIf(node: Node, fuel: nat) returns (r: Result<Option<Value>, Error>)
      requires IsStmt(node) && node.If?
      modifies this
      decreases fuel, node, 0
      ensures Completion(r, Now()) == Exec(node, old(Now()), fuel)
    {
      var v :- Eval(node.condition, globalScope);
      if Truthy(v) {
        r := Visit(node.thenStmt, fuel);
      } else if node.elseStmt.Some? {
        r := Visit(node.elseStmt.value, fuel);
      } else {
        r := Success(None);
      }
    }

    /** `visit_While`: re-evaluate the condition before every iteration; each iteration spends one unit of fuel. */
    method VisitWhile(node: Node, fuel: nat) returns (r: Result<Option<Value>, Error>)
      requires IsStmt(node) && node.While?
      modifies this
      decreases fuel, node, 0
      ensures Completion(r, Now()) == Exec(node, old(Now()), fuel)
    {
      var result := None;
      var f: nat := fuel;
      var v :- Eval(node.condition, globalScope);
      while Truthy(v)
        invariant f <= fuel
        invariant Eval(node.condition, globalScope) == Success(v)
        invariant ExecWhile(node.condition, node.body, result, Now(), f) == Exec(node, old(Now()), fuel)
        decreases f
      {
        if f == 0 {
          return Failure(OutOfFuel);
        }
        result :- Visit(node.body, f - 1);
        f := f - 1;
        v :- Eval(node.condition, globalScope);
      }
      return Success(result);
    }

    /** `visit_Print`: log the value once and return it. */
    method VisitPrint(node: Node) returns (r: Result<Option<Value>, Error>)
      requires IsStmt(node) && node.Print?
      modifies this
      ensures Completion(r, Now()) == Exec(node, old(Now()), 0)
    {
      var v :- Eval(node.expr, globalScope);
      output := output + [v];
      return Success(Some(v));
    }

    /** `interpret(tree)`. */
    method Run(tree: Node, fuel: nat) returns (r: Result<Option<Value>, Error>)
      requires IsProgram(tree)
      modifies this
      ensures Completion(r, Now()) == Interpret(tree, old(Now()), fuel)
    {
      r := VisitProgram(tree, fuel);
    }
  }
}
