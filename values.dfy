/**
 * The run-time values of src/interpreter.js and what its operators do to them.
 *
 * JavaScript values are narrowed to the three kinds a program can build:
 * numbers (as exact reals), strings and booleans.  An operator is given the
 * meaning JavaScript gives it on operands of the kinds listed below; on any
 * other combination (coercions, NaN, division by zero) it fails.
 */
module Values {
  import opened Wrappers
  import opened Errors
  import opened Tokens

  datatype Value = Number(n: real) | Text(s: string) | Boolean(b: bool)

  /** JavaScript truthiness: `0`, `""` and `false` are the falsy values. */
  predicate Truthy(v: Value)
  {
    match v
    case Number(n) => n != 0.0
    case Text(s) => s != ""
    case Boolean(b) => b
  }

  /** `<` on strings: character by character (Unicode scalar values), a proper prefix first. */
  predicate TextLess(a: string, b: string)
    decreases |a|
  {
    if |a| == 0 then |b| > 0
    else if |b| == 0 then false
    else if a[0] != b[0] then a[0] < b[0]
    else TextLess(a[1..], b[1..])
  }

  /** `<` on booleans compares them as `0` and `1`. */
  function BoolRank(b: bool): int
  {
    if b then 1 else 0
  }

  /** `l < r` on two operands of one kind; `None` for operands of different kinds. */
  function Less(l: Value, r: Value): Option<bool>
  {
    match (l, r)
    case (Number(a), Number(b)) => Some(a < b)
    case (Text(a), Text(b)) => Some(TextLess(a, b))
    case (Boolean(a), Boolean(b)) => Some(BoolRank(a) < BoolRank(b))
    case _ => None
  }

  /** The four orderings of `visit_BinOp`, each through `<`. */
  function Compare(op: Kind, l: Value, r: Value): Option<bool>
    requires op in {LESS, GREATER, LESS_EQUALS, GREATER_EQUALS}
  {
    match op
    case LESS => Less(l, r)
    case GREATER => Less(r, l)
    case LESS_EQUALS => if Less(r, l).Some? then Some(!Less(r, l).value) else None
    case GREATER_EQUALS => if Less(l, r).Some? then Some(!Less(l, r).value) else None
  }

  /** The text naming an operator in an error. */
  function OpName(op: Kind): string
  {
    match op
    case PLUS => "+"
    case MINUS => "-"
    case MULTIPLY => "*"
    case DIVIDE => "/"
    case EQUALS => "=="
    case NOT_EQUALS => "!="
    case LESS => "<"
    case GREATER => ">"
    case LESS_EQUALS => "<="
    case GREATER_EQUALS => ">="
    case _ => "?"
  }

  /** The switch of `visit_BinOp`, applied to the two evaluated operands. */
  function ApplyBinary(op: Kind, l: Value, r: Value): (v: Result<Value, Error>)
    requires op in {PLUS, MINUS, MULTIPLY, DIVIDE, EQUALS, NOT_EQUALS, LESS, GREATER, LESS_EQUALS, GREATER_EQUALS}
    ensures v.Failure? ==> v.error == OperandError(OpName(op))
  {
    match op
    case PLUS =>
      if l.Number? && r.Number? then Success(Number(l.n + r.n))
      else if l.Text? && r.Text? then Success(Text(l.s + r.s))
      else Failure(OperandError("+"))
    case MINUS =>
      if l.Number? && r.Number? then Success(Number(l.n - r.n)) else Failure(OperandError("-"))
    case MULTIPLY =>
      if l.Number? && r.Number? then Success(Number(l.n * r.n)) else Failure(OperandError("*"))
    case DIVIDE =>
      if l.Number? && r.Number? && r.n != 0.0 then Success(Number(l.n / r.n)) else Failure(OperandError("/"))
    case EQUALS => Success(Boolean(l == r))
    case NOT_EQUALS => Success(Boolean(l != r))
    case LESS | GREATER | LESS_EQUALS | GREATER_EQUALS =>
      var c := Compare(op, l, r);
      if c.Some? then Success(Boolean(c.value)) else Failure(OperandError(OpName(op)))
  }

  /** `visit_UnaryOp`: `+` and `-` on a number. */
  function ApplyUnary(op: Kind, v: Value): (r: Result<Value, Error>)
    requires op == PLUS || op == MINUS
    ensures r.Success? <==> v.Number?
    ensures r.Success? ==> r.value == Number(if op == PLUS then v.n else -v.n)
  {
    if !v.Number? then Failure(OperandError(OpName(op)))
    else if op == PLUS then Success(v)
    else Success(Number(-v.n))
  }
}
