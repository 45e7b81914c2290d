/** The syntax tree node classes of src/parser.js, as one datatype. */
module Ast {
  import opened Wrappers
  import opened Tokens

  datatype Node =
    | Program(statements: seq<Node>)
    | Block(statements: seq<Node>)
    | VarDecl(name: string, initialValue: Node)
    | Assign(name: string, value: Node)
    | Var(name: string)
    | BinOp(left: Node, op: Kind, right: Node)
    | UnaryOp(op: Kind, expr: Node)
    | Num(number: real)
    | Str(text: string)
    | If(condition: Node, thenStmt: Node, elseStmt: Option<Node>)
    | While(condition: Node, body: Node)
    | Print(expr: Node)

  /** The operators of `expr`: one left-associative tier. */
  const ExprOps: set<Kind> := {PLUS, MINUS, EQUALS, NOT_EQUALS, LESS, GREATER, LESS_EQUALS, GREATER_EQUALS}

  /** The operators of `term`, binding tighter than those of `expr`. */
  const TermOps: set<Kind> := {MULTIPLY, DIVIDE}

  /** An expression node as the parser builds one. */
  predicate IsExpr(n: Node)
  {
    match n
    case Var(_) => true
    case Num(_) => true
    case Str(_) => true
    case BinOp(l, op, r) => op in ExprOps + TermOps && IsExpr(l) && IsExpr(r)
    case UnaryOp(op, e) => (op == PLUS || op == MINUS) && IsExpr(e)
    case _ => false
  }

  /** A statement node as the parser builds one; a bare expression is a statement too. */
  predicate IsStmt(n: Node)
  {
    match n
    case Program(_) => false
    case Block(ss) => forall s | s in ss :: IsStmt(s)
    case VarDecl(_, e) => IsExpr(e)
    case Assign(_, e) => IsExpr(e)
    case If(c, t, e) => IsExpr(c) && IsStmt(t) && (e.Some? ==> IsStmt(e.value))
    case While(c, b) => IsExpr(c) && IsStmt(b)
    case Print(e) => IsExpr(e)
    case _ => IsExpr(n)
  }

  /** The root the parser returns: a Program whose statements are statements. */
  predicate IsProgram(n: Node)
  {
    n.Program? && forall s | s in n.statements :: IsStmt(s)
  }
}
