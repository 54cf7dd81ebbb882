/** The formula evaluator a synthetic series is computed with, reduced to
    integer arithmetic: literals, variables and the four operators, where a
    division by zero raises ZeroDivisionError and a variable the frame does
    not bind raises UnboundVariable. */
module Formula {
  import opened Ruby

  datatype Expr =
    | Lit(n: int)
    | Var(name: string)
    | Add(left: Expr, right: Expr)
    | Sub(left: Expr, right: Expr)
    | Mul(left: Expr, right: Expr)
    | Div(left: Expr, right: Expr)

  /** Ruby's Integer#/: the quotient rounded towards negative infinity, so the
      remainder a - q * b takes the sign of the divisor. */
  function FloorDiv(a: int, b: int): (q: int)
    requires b != 0
    ensures b > 0 ==> q * b <= a < q * b + b
    ensures b < 0 ==> q * b + b < a <= q * b
  {
    if b > 0 then a / b else (-a) / (-b)
  }

  /** The variables an expression mentions. */
  function FreeVars(e: Expr): set<string> {
    match e
    case Lit(_) => {}
    case Var(x) => {x}
    case Add(l, r) => FreeVars(l) + FreeVars(r)
    case Sub(l, r) => FreeVars(l) + FreeVars(r)
    case Mul(l, r) => FreeVars(l) + FreeVars(r)
    case Div(l, r) => FreeVars(l) + FreeVars(r)
  }

  predicate HasDivision(e: Expr) {
    match e
    case Lit(_) => false
    case Var(_) => false
    case Add(l, r) => HasDivision(l) || HasDivision(r)
    case Sub(l, r) => HasDivision(l) || HasDivision(r)
    case Mul(l, r) => HasDivision(l) || HasDivision(r)
    case Div(_, _) => true
  }

  /** Evaluates e with the variables bound by env, left operand first. Only
      an unbound variable that e mentions, or a division, can make it raise. */
  function Eval(e: Expr, env: map<string, int>): (r: Try<int>)
    ensures r.Raised? ==>
      (r.error.UnboundVariable? && r.error.name in FreeVars(e) && r.error.name !in env) ||
      (r.error == ZeroDivisionError && HasDivision(e))
  {
    match e
    case Lit(n) => Ok(n)
    case Var(x) => if x in env then Ok(env[x]) else Raised(UnboundVariable(x))
    case Add(l, r) => Arith(e, Eval(l, env), Eval(r, env))
    case Sub(l, r) => Arith(e, Eval(l, env), Eval(r, env))
    case Mul(l, r) => Arith(e, Eval(l, env), Eval(r, env))
    case Div(l, r) => Arith(e, Eval(l, env), Eval(r, env))
  }

  /** Combines the operands' outcomes for the operator at the root of e. */
  function Arith(e: Expr, a: Try<int>, b: Try<int>): Try<int>
    requires !e.Lit? && !e.Var?
  {
    if a.Raised? then a
    else if b.Raised? then b
    else match e
      case Add(_, _) => Ok(a.value + b.value)
      case Sub(_, _) => Ok(a.value - b.value)
      case Mul(_, _) => Ok(a.value * b.value)
      case Div(_, _) => if b.value == 0 then Raised(ZeroDivisionError) else Ok(FloorDiv(a.value, b.value))
  }

  /** The outcome depends only on the values of the variables e mentions, so
      extra names in a frame change nothing. */
  lemma {:induction false} EvalReadsOnlyFreeVars(e: Expr, env1: map<string, int>, env2: map<string, int>)
    requires forall x :: x in FreeVars(e) ==> (x in env1 <==> x in env2)
    requires forall x :: x in FreeVars(e) && x in env1 ==> env1[x] == env2[x]
    ensures Eval(e, env1) == Eval(e, env2)
  {
    match e
    case Lit(_) =>
    case Var(_) =>
    case Add(l, r) => EvalReadsOnlyFreeVars(l, env1, env2); EvalReadsOnlyFreeVars(r, env1, env2);
    case Sub(l, r) => EvalReadsOnlyFreeVars(l, env1, env2); EvalReadsOnlyFreeVars(r, env1, env2);
    case Mul(l, r) => EvalReadsOnlyFreeVars(l, env1, env2); EvalReadsOnlyFreeVars(r, env1, env2);
    case Div(l, r) => EvalReadsOnlyFreeVars(l, env1, env2); EvalReadsOnlyFreeVars(r, env1, env2);
  }

  /** With every variable bound, a formula without a division always
      evaluates. */
  lemma {:induction false} EvalDefined(e: Expr, env: map<string, int>)
    requires FreeVars(e) <= env.Keys
    requires !HasDivision(e)
    ensures Eval(e, env).Ok?
  {
    match e
    case Lit(_) =>
    case Var(_) =>
    case Add(l, r) => EvalDefined(l, env); EvalDefined(r, env);
    case Sub(l, r) => EvalDefined(l, env); EvalDefined(r, env);
    case Mul(l, r) => EvalDefined(l, env); EvalDefined(r, env);
  }
}
