/** The expression tree of the evaluator, the tables its checker consults,
    and the two facts about a tree that do not depend on a traversal order:
    whether every node obeys the grammar, and which variable names occur. */
module Syntax {

  /** A float64, held as its IEEE-754 binary64 bit pattern. */
  type Float64 = bv64

  /** +0.0: Go's float64 zero, also what indexing a map at a missing key yields. */
  const PositiveZero: Float64 := 0

  /** 1.0, -1.0 and 3.0 as binary64 bit patterns. */
  const One: Float64 := 0x3FF0_0000_0000_0000
  const MinusOne: Float64 := 0xBFF0_0000_0000_0000
  const Three: Float64 := 0x4008_0000_0000_0000

  /** The five node kinds; the set is closed. */
  datatype Expr =
    | Var(name: string)
    | Literal(value: Float64)
    | Unary(op: char, x: Expr)
    | Binary(op: char, x: Expr, y: Expr)
    | Call(fn: string, args: seq<Expr>)

  /** A binding of variable names to values, supplied by the caller of Eval. */
  type Env = map<string, Float64>

  /** The value of `v` in `env`, or +0.0 when `v` is not bound. */
  function Lookup(env: Env, v: string): Float64 {
    if v in env then env[v] else PositiveZero
  }

  /** The operator characters the checker accepts. */
  const UnaryOps: string := "+-!"
  const BinaryOps: string := "+-*/"

  /** The built-in functions and the number of arguments each takes. */
  const Params: map<string, nat> :=
    map["pow" := 2, "log" := 1, "sqrt" := 1, "sin" := 1, "cos" := 1, "tan" := 1]

  /** A tree the checker accepts: every operator is a legal one and every call
      names a known function with exactly its number of arguments. */
  ghost predicate Valid(e: Expr)
    decreases e
  {
    match e
    case Var(_) => true
    case Literal(_) => true
    case Unary(op, x) => op in UnaryOps && Valid(x)
    case Binary(op, x, y) => op in BinaryOps && Valid(x) && Valid(y)
    case Call(fn, args) =>
      fn in Params && |args| == Params[fn] && forall a :: a in args ==> Valid(a)
  }

  /** The distinct variable names occurring anywhere in `e`. */
  ghost function VarsOf(e: Expr): set<string>
    decreases e
  {
    match e
    case Var(v) => {v}
    case Literal(_) => {}
    case Unary(_, x) => VarsOf(x)
    case Binary(_, x, y) => VarsOf(x) + VarsOf(y)
    case Call(_, args) => VarsOfArgs(args)
  }

  ghost function VarsOfArgs(args: seq<Expr>): set<string>
    decreases args
  {
    if args == [] then {} else VarsOf(args[0]) + VarsOfArgs(args[1..])
  }

  /** The variables of each argument are among the call's variables. */
  lemma {:induction false} VarsOfArgsHas(args: seq<Expr>, i: nat)
    requires i < |args|
    ensures VarsOf(args[i]) <= VarsOfArgs(args)
    decreases i
  {
    if i > 0 {
      VarsOfArgsHas(args[1..], i - 1);
    }
  }
}
