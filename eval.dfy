/** Evaluation of an expression tree against a binding of its variables. */
module Evaluation {
  import opened Syntax

  /** The binary64 arithmetic and the math-library routines evaluation calls
      on. Their rounding behaviour is not modelled: the caller supplies them. */
  datatype FloatOps = FloatOps(
    add: (Float64, Float64) -> Float64,
    sub: (Float64, Float64) -> Float64,
    mul: (Float64, Float64) -> Float64,
    quo: (Float64, Float64) -> Float64,
    pow: (Float64, Float64) -> Float64,
    log: Float64 -> Float64,
    sqrt: Float64 -> Float64,
    sin: Float64 -> Float64,
    cos: Float64 -> Float64,
    tan: Float64 -> Float64)

  const SignBit: Float64 := 0x8000_0000_0000_0000

  /** IEEE-754 negation, which is exact: it flips the sign bit and nothing else. */
  function Neg(v: Float64): Float64 {
    v ^ SignBit
  }

  /** The trees Eval can walk without reaching one of its panics and without
      indexing a call's arguments out of range. A `!` node never evaluates its
      operand, and a call only evaluates the arguments its function uses. */
  ghost predicate WellFormed(e: Expr)
    decreases e
  {
    match e
    case Var(_) => true
    case Literal(_) => true
    case Unary(op, x) => op == '!' || ((op == '+' || op == '-') && WellFormed(x))
    case Binary(op, x, y) =>
      (op == '+' || op == '-' || op == '*' || op == '/') && WellFormed(x) && WellFormed(y)
    case Call(fn, args) =>
      if fn == "pow" then |args| >= 2 && WellFormed(args[0]) && WellFormed(args[1])
      else (fn == "log" || fn == "sqrt" || fn == "sin" || fn == "cos" || fn == "tan") &&
           |args| >= 1 && WellFormed(args[0])
  }

  /** The value of `e` under `env`. An unbound variable reads as +0.0. */
  function Eval(e: Expr, env: Env, ops: FloatOps): Float64
    requires WellFormed(e)
    decreases e
  {
    match e
    case Var(v) => Lookup(env, v)
    case Literal(value) => value
    case Unary(op, x) =>
      (match op
       case '+' => Eval(x, env, ops)
       case '-' => Neg(Eval(x, env, ops))
       case '!' => PositiveZero)
    case Binary(op, x, y) =>
      (match op
       case '+' => ops.add(Eval(x, env, ops), Eval(y, env, ops))
       case '-' => ops.sub(Eval(x, env, ops), Eval(y, env, ops))
       case '*' => ops.mul(Eval(x, env, ops), Eval(y, env, ops))
       case '/' => ops.quo(Eval(x, env, ops), Eval(y, env, ops)))
    case Call(fn, args) =>
      match fn
      case "pow" => ops.pow(Eval(args[0], env, ops), Eval(args[1], env, ops))
      case "log" => ops.log(Eval(args[0], env, ops))
      case "sqrt" => ops.sqrt(Eval(args[0], env, ops))
      case "sin" => ops.sin(Eval(args[0], env, ops))
      case "cos" => ops.cos(Eval(args[0], env, ops))
      case "tan" => ops.tan(Eval(args[0], env, ops))
  }

  /** A variable missing from the binding is not an error: it reads as +0.0,
      and a bound one reads as its binding. */
  lemma EvalVar(v: string, env: Env, ops: FloatOps)
    ensures v !in env ==> Eval(Var(v), env, ops) == PositiveZero
    ensures v in env ==> Eval(Var(v), env, ops) == env[v]
  {
  }

  /** A literal evaluates to itself whatever the binding. */
  lemma EvalLiteral(c: Float64, env1: Env, env2: Env, ops: FloatOps)
    ensures Eval(Literal(c), env1, ops) == Eval(Literal(c), env2, ops) == c
  {
  }

  /** `+x` is `x`, `-x` differs from `x` in the sign bit alone, so `--x` is `x`. */
  lemma EvalSigns(x: Expr, env: Env, ops: FloatOps)
    requires WellFormed(x)
    ensures Eval(Unary('+', x), env, ops) == Eval(x, env, ops)
    ensures Eval(Unary('-', x), env, ops) ^ Eval(x, env, ops) == SignBit
    ensures Eval(Unary('-', Unary('-', x)), env, ops) == Eval(x, env, ops)
  {
  }

  /** `!x` is +0.0 for every operand, even one Eval could not walk. */
  lemma EvalNotIsZero(x: Expr, env: Env, ops: FloatOps)
    ensures WellFormed(Unary('!', x))
    ensures Eval(Unary('!', x), env, ops) == PositiveZero
  {
  }

  /** `-x` with x = -1.0 gives 1.0, and `!x` with x = 1.0 gives 0. */
  lemma EvalSignScenarios(ops: FloatOps)
    ensures Eval(Unary('-', Var("x")), map["x" := MinusOne], ops) == One
    ensures Eval(Unary('!', Var("x")), map["x" := One], ops) == PositiveZero
  {
  }

  /** Eval reads the binding only at the variables occurring in the tree: two
      bindings that agree there give the same value. */
  lemma {:induction false} EvalReadsOnlyItsVars(e: Expr, env1: Env, env2: Env, ops: FloatOps)
    requires WellFormed(e)
    requires forall v :: v in VarsOf(e) ==> Lookup(env1, v) == Lookup(env2, v)
    ensures Eval(e, env1, ops) == Eval(e, env2, ops)
    decreases e
  {
    match e
    case Var(_) =>
    case Literal(_) =>
    case Unary(op, x) =>
      if op != '!' {
        EvalReadsOnlyItsVars(x, env1, env2, ops);
      }
    case Binary(_, x, y) =>
      EvalReadsOnlyItsVars(x, env1, env2, ops);
      EvalReadsOnlyItsVars(y, env1, env2, ops);
    case Call(fn, args) =>
      VarsOfArgsHas(args, 0);
      EvalReadsOnlyItsVars(args[0], env1, env2, ops);
      if fn == "pow" {
        VarsOfArgsHas(args, 1);
        EvalReadsOnlyItsVars(args[1], env1, env2, ops);
      }
  }
}
