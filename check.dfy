/** The checker: a walk that rejects the first illegal node it meets and
    records, in a map its caller owns, every variable name it passes. */
module Checker {
  import opened Syntax
  import opened Evaluation

  datatype CheckError =
    | InvalidUnaryOp(op: char)
    | InvalidBinaryOp(op: char)
    | UnknownFunction(fn: string)
    | ArityMismatch(fn: string, got: nat, want: nat)

  /** What a check reports: success, or the error it stopped at. */
  datatype Outcome = Pass | Fail(error: CheckError)

  /** The complaint about node `e` itself, its children aside. */
  ghost function NodeError(e: Expr): Outcome {
    match e
    case Var(_) => Pass
    case Literal(_) => Pass
    case Unary(op, _) => if op in UnaryOps then Pass else Fail(InvalidUnaryOp(op))
    case Binary(op, _, _) => if op in BinaryOps then Pass else Fail(InvalidBinaryOp(op))
    case Call(fn, args) =>
      if fn !in Params then Fail(UnknownFunction(fn))
      else if |args| != Params[fn] then Fail(ArityMismatch(fn, |args|, Params[fn]))
      else Pass
  }

  /** Every complaint in the tree, each node before its children and left
      before right: what a checker that kept going would collect. */
  ghost function Errors(e: Expr): seq<CheckError>
    decreases e
  {
    var own := if NodeError(e).Fail? then [NodeError(e).error] else [];
    match e
    case Var(_) => own
    case Literal(_) => own
    case Unary(_, x) => own + Errors(x)
    case Binary(_, x, y) => own + Errors(x) + Errors(y)
    case Call(_, args) => own + ErrorsOfArgs(args)
  }

  ghost function ErrorsOfArgs(args: seq<Expr>): seq<CheckError>
    decreases args
  {
    if args == [] then [] else Errors(args[0]) + ErrorsOfArgs(args[1..])
  }

  /** The outcome of Check: the node's own test first, then the operand, the
      left child before the right one, the arguments in order, stopping at the
      first failure. */
  ghost function FirstError(e: Expr): Outcome
    decreases e
  {
    match e
    case Var(_) => Pass
    case Literal(_) => Pass
    case Unary(op, x) =>
      if op !in UnaryOps then Fail(InvalidUnaryOp(op)) else FirstError(x)
    case Binary(op, x, y) =>
      if op !in BinaryOps then Fail(InvalidBinaryOp(op))
      else if FirstError(x).Fail? then FirstError(x)
      else FirstError(y)
    case Call(fn, args) =>
      if fn !in Params then Fail(UnknownFunction(fn))
      else if |args| != Params[fn] then Fail(ArityMismatch(fn, |args|, Params[fn]))
      else FirstErrorOfArgs(args)
  }

  ghost function FirstErrorOfArgs(args: seq<Expr>): Outcome
    decreases args
  {
    if args == [] then Pass
    else if FirstError(args[0]).Fail? then FirstError(args[0])
    else FirstErrorOfArgs(args[1..])
  }

  /** The variable names Check records before it returns: those of every
      `Var` node it reaches, which is all of them unless it fails early. */
  ghost function Marked(e: Expr): set<string>
    decreases e
  {
    match e
    case Var(v) => {v}
    case Literal(_) => {}
    case Unary(op, x) => if op !in UnaryOps then {} else Marked(x)
    case Binary(op, x, y) =>
      if op !in BinaryOps then {}
      else if FirstError(x).Fail? then Marked(x)
      else Marked(x) + Marked(y)
    case Call(fn, args) =>
      if fn !in Params || |args| != Params[fn] then {} else MarkedByArgs(args)
  }

  ghost function MarkedByArgs(args: seq<Expr>): set<string>
    decreases args
  {
    if args == [] then {}
    else if FirstError(args[0]).Fail? then Marked(args[0])
    else Marked(args[0]) + MarkedByArgs(args[1..])
  }

  /** `m` with every name in `names` set to true and every other entry kept. */
  ghost function Mark(m: map<string, bool>, names: set<string>): (r: map<string, bool>)
    ensures r.Keys == m.Keys + names
    ensures forall k :: k in names ==> r[k]
    ensures forall k :: k in m && k !in names ==> r[k] == m[k]
  {
    map k | k in m.Keys + names :: if k in names then true else m[k]
  }

  lemma MarkNothing(m: map<string, bool>)
    ensures Mark(m, {}) == m
  {
  }

  lemma MarkTwice(m: map<string, bool>, a: set<string>, b: set<string>)
    ensures Mark(Mark(m, a), b) == Mark(m, a + b)
  {
  }

  /** The map from variable names to presence that the caller hands to Check. */
  class VarTable {
    var entries: map<string, bool>

    constructor ()
      ensures entries == map[]
    {
      entries := map[];
    }

    /** Records `v`, overwriting any entry it had. */
    method Insert(v: string)
      modifies this
      ensures entries == old(entries)[v := true]
    {
      entries := entries[v := true];
    }
  }

  /** Checks `e`, recording its variables in `vars`. */
  method Check(e: Expr, vars: VarTable) returns (err: Outcome)
    modifies vars
    decreases e, 1
    ensures err == FirstError(e)
    ensures vars.entries == Mark(old(vars.entries), Marked(e))
    ensures err.Pass? <==> Valid(e)
    ensures err.Pass? ==> WellFormed(e) && vars.entries == Mark(old(vars.entries), VarsOf(e))
    ensures old(vars.entries).Keys <= vars.entries.Keys <= old(vars.entries).Keys + VarsOf(e)
    ensures forall k :: k in vars.entries ==>
      (k in old(vars.entries) && vars.entries[k] == old(vars.entries)[k]) || (k in VarsOf(e) && vars.entries[k])
  {
    match e {
      case Var(v) => err := CheckVar(v, vars);
      case Literal(_) => err := CheckLiteral(vars);
      case Unary(op, x) => err := CheckUnary(op, x, vars);
      case Binary(op, x, y) => err := CheckBinary(op, x, y, vars);
      case Call(fn, args) => err := CheckCall(fn, args, vars);
    }
    CheckFacts(e, err, old(vars.entries), vars.entries);
  }

  /** What follows from Check's outcome and effect, given the lemmas below. */
  lemma CheckFacts(e: Expr, err: Outcome, before: map<string, bool>, after: map<string, bool>)
    requires err == FirstError(e) && after == Mark(before, Marked(e))
    ensures err.Pass? <==> Valid(e)
    ensures err.Pass? ==> WellFormed(e) && after == Mark(before, VarsOf(e))
    ensures before.Keys <= after.Keys <= before.Keys + VarsOf(e)
    ensures forall k :: k in after ==>
      (k in before && after[k] == before[k]) || (k in VarsOf(e) && after[k])
  {
    PassIffValid(e);
    MarkedWithinVars(e);
    MarkedOnPass(e);
    if err.Pass? {
      ValidIsWellFormed(e);
    }
  }

  /** A variable always passes and is recorded as present. */
  method CheckVar(v: string, vars: VarTable) returns (err: Outcome)
    modifies vars
    ensures err == Pass
    ensures vars.entries == old(vars.entries)[v := true] == Mark(old(vars.entries), {v})
  {
    vars.Insert(v);
    err := Pass;
  }

  /** A literal always passes and records nothing. */
  method CheckLiteral(vars: VarTable) returns (err: Outcome)
    ensures err == Pass
  {
    err := Pass;
  }

  /** An operator outside `+-!` fails before the operand is looked at;
      otherwise the outcome is the operand's. */
  method CheckUnary(op: char, x: Expr, vars: VarTable) returns (err: Outcome)
    modifies vars
    decreases Unary(op, x), 0
    ensures err == FirstError(Unary(op, x))
    ensures vars.entries == Mark(old(vars.entries), Marked(Unary(op, x)))
    ensures op !in UnaryOps ==> err == Fail(InvalidUnaryOp(op)) && vars.entries == old(vars.entries)
  {
    if op !in UnaryOps {
      err := Fail(InvalidUnaryOp(op));
      MarkNothing(vars.entries);
    } else {
      err := Check(x, vars);
    }
  }

  /** An operator other than `+`, `-`, `*` and `/` fails before either child is looked at;
      otherwise the left child is checked, and the right one only if the left
      passed. */
  method CheckBinary(op: char, x: Expr, y: Expr, vars: VarTable) returns (err: Outcome)
    modifies vars
    decreases Binary(op, x, y), 0
    ensures err == FirstError(Binary(op, x, y))
    ensures vars.entries == Mark(old(vars.entries), Marked(Binary(op, x, y)))
    ensures op !in BinaryOps ==> err == Fail(InvalidBinaryOp(op)) && vars.entries == old(vars.entries)
    ensures op in BinaryOps && FirstError(x).Fail? ==>
      err == FirstError(x) && vars.entries == Mark(old(vars.entries), Marked(x))
  {
    if op !in BinaryOps {
      err := Fail(InvalidBinaryOp(op));
      MarkNothing(vars.entries);
    } else {
      ghost var before := vars.entries;
      err := Check(x, vars);
      if err.Pass? {
        err := Check(y, vars);
        MarkTwice(before, Marked(x), Marked(y));
      }
    }
  }

  /** An unknown function, then a wrong number of arguments, fail before any
      argument is looked at; otherwise the arguments are checked in order. */
  method CheckCall(fn: string, args: seq<Expr>, vars: VarTable) returns (err: Outcome)
    modifies vars
    decreases Call(fn, args), 0
    ensures err == FirstError(Call(fn, args))
    ensures vars.entries == Mark(old(vars.entries), Marked(Call(fn, args)))
    ensures fn !in Params ==> err == Fail(UnknownFunction(fn)) && vars.entries == old(vars.entries)
    ensures fn in Params && |args| != Params[fn] ==>
      err == Fail(ArityMismatch(fn, |args|, Params[fn])) && vars.entries == old(vars.entries)
  {
    if fn !in Params {
      err := Fail(UnknownFunction(fn));
      MarkNothing(vars.entries);
    } else {
      var arity := Params[fn];
      if |args| != arity {
        err := Fail(ArityMismatch(fn, |args|, arity));
        MarkNothing(vars.entries);
      } else {
        err := CheckArgs(args, vars);
      }
    }
  }

  /** Checks the arguments of a call in order, stopping at the first one
      that fails. */
  method CheckArgs(args: seq<Expr>, vars: VarTable) returns (err: Outcome)
    modifies vars
    decreases args
    ensures err == FirstErrorOfArgs(args)
    ensures vars.entries == Mark(old(vars.entries), MarkedByArgs(args))
  {
    err := Pass;
    var i := 0;
    assert args[i..] == args;
    while i < |args| && err.Pass?
      invariant 0 <= i <= |args|
      invariant err.Pass? ==> FirstErrorOfArgs(args) == FirstErrorOfArgs(args[i..])
      invariant err.Pass? ==>
        Mark(vars.entries, MarkedByArgs(args[i..])) == Mark(old(vars.entries), MarkedByArgs(args))
      invariant err.Fail? ==>
        err == FirstErrorOfArgs(args) && vars.entries == Mark(old(vars.entries), MarkedByArgs(args))
    {
      assert args[i..][0] == args[i] && args[i..][1..] == args[i + 1..];
      ghost var before := vars.entries;
      err := Check(args[i], vars);
      MarkTwice(before, Marked(args[i]), MarkedByArgs(args[i + 1..]));
      i := i + 1;
    }
    if err.Pass? {
      MarkNothing(vars.entries);
    }
  }

  /** First error wins: Check reports the first of all the complaints the
      tree deserves, in the order the walk meets them. */
  lemma {:induction false} FirstErrorIsFirstOfAll(e: Expr)
    ensures FirstError(e) == if Errors(e) == [] then Pass else Fail(Errors(e)[0])
    decreases e
  {
    match e
    case Var(_) =>
    case Literal(_) =>
    case Unary(_, x) =>
      FirstErrorIsFirstOfAll(x);
    case Binary(_, x, y) =>
      FirstErrorIsFirstOfAll(x);
      FirstErrorIsFirstOfAll(y);
    case Call(_, args) =>
      FirstErrorOfArgsIsFirstOfAll(args);
  }

  lemma {:induction false} FirstErrorOfArgsIsFirstOfAll(args: seq<Expr>)
    ensures FirstErrorOfArgs(args) ==
      if ErrorsOfArgs(args) == [] then Pass else Fail(ErrorsOfArgs(args)[0])
    decreases args
  {
    if args != [] {
      FirstErrorIsFirstOfAll(args[0]);
      FirstErrorOfArgsIsFirstOfAll(args[1..]);
    }
  }

  /** A tree deserves no complaint exactly when it obeys the grammar. */
  lemma {:induction false} NoErrorsIffValid(e: Expr)
    ensures Errors(e) == [] <==> Valid(e)
    decreases e
  {
    match e
    case Var(_) =>
    case Literal(_) =>
    case Unary(_, x) =>
      NoErrorsIffValid(x);
    case Binary(_, x, y) =>
      NoErrorsIffValid(x);
      NoErrorsIffValid(y);
    case Call(_, args) =>
      NoErrorsOfArgsIffValid(args);
  }

  lemma {:induction false} NoErrorsOfArgsIffValid(args: seq<Expr>)
    ensures ErrorsOfArgs(args) == [] <==> forall a :: a in args ==> Valid(a)
    decreases args
  {
    if args != [] {
      NoErrorsIffValid(args[0]);
      NoErrorsOfArgsIffValid(args[1..]);
      assert forall a :: a in args ==> a == args[0] || a in args[1..];
    }
  }

  /** Check passes exactly on the trees the grammar admits, whatever the order
      in which it visits them. */
  lemma PassIffValid(e: Expr)
    ensures FirstError(e).Pass? <==> Valid(e)
  {
    FirstErrorIsFirstOfAll(e);
    NoErrorsIffValid(e);
  }

  /** Check records nothing but variable names of the tree. */
  lemma {:induction false} MarkedWithinVars(e: Expr)
    ensures Marked(e) <= VarsOf(e)
    decreases e
  {
    match e
    case Var(_) =>
    case Literal(_) =>
    case Unary(_, x) =>
      MarkedWithinVars(x);
    case Binary(_, x, y) =>
      MarkedWithinVars(x);
      MarkedWithinVars(y);
    case Call(_, args) =>
      MarkedByArgsWithinVars(args);
  }

  lemma {:induction false} MarkedByArgsWithinVars(args: seq<Expr>)
    ensures MarkedByArgs(args) <= VarsOfArgs(args)
    decreases args
  {
    if args != [] {
      MarkedWithinVars(args[0]);
      MarkedByArgsWithinVars(args[1..]);
    }
  }

  /** When Check passes it has recorded every variable name of the tree. */
  lemma {:induction false} MarkedOnPass(e: Expr)
    ensures FirstError(e).Pass? ==> Marked(e) == VarsOf(e)
    decreases e
  {
    match e
    case Var(_) =>
    case Literal(_) =>
    case Unary(_, x) =>
      MarkedOnPass(x);
    case Binary(_, x, y) =>
      MarkedOnPass(x);
      MarkedOnPass(y);
    case Call(_, args) =>
      MarkedByArgsOnPass(args);
  }

  lemma {:induction false} MarkedByArgsOnPass(args: seq<Expr>)
    ensures FirstErrorOfArgs(args).Pass? ==> MarkedByArgs(args) == VarsOfArgs(args)
    decreases args
  {
    if args != [] {
      MarkedOnPass(args[0]);
      MarkedByArgsOnPass(args[1..]);
    }
  }

  /** Every tree the checker accepts can be evaluated: each operator reaches
      one of Eval's cases and each call has the arguments Eval reads. */
  lemma {:induction false} ValidIsWellFormed(e: Expr)
    requires Valid(e)
    ensures WellFormed(e)
    decreases e
  {
    match e
    case Var(_) =>
    case Literal(_) =>
    case Unary(op, x) =>
      assert op in UnaryOps;
      ValidIsWellFormed(x);
    case Binary(op, x, y) =>
      assert op in BinaryOps;
      ValidIsWellFormed(x);
      ValidIsWellFormed(y);
    case Call(fn, args) =>
      assert args[0] in args;
      ValidIsWellFormed(args[0]);
      if fn == "pow" {
        assert args[1] in args;
        ValidIsWellFormed(args[1]);
      }
  }

  /** The gate of Eval is wider than Check's: `!(1.0 % 1.0)` and `pow` with three
      arguments evaluate without a panic, yet Check rejects both. */
  lemma WellFormedIsWeakerThanValid()
    ensures WellFormed(Unary('!', Binary('%', Literal(One), Literal(One))))
    ensures FirstError(Unary('!', Binary('%', Literal(One), Literal(One)))) == Fail(InvalidBinaryOp('%'))
    ensures WellFormed(Call("pow", [Literal(One), Literal(One), Literal(One)]))
    ensures FirstError(Call("pow", [Literal(One), Literal(One), Literal(One)])) == Fail(ArityMismatch("pow", 3, 2))
  {
  }

  /** After Check passes, the variables it recorded are all Eval reads: two
      bindings that agree on them give the same value. */
  lemma CheckedVarsDetermineEval(e: Expr, env1: Env, env2: Env, ops: FloatOps)
    requires FirstError(e).Pass?
    requires forall v :: v in Marked(e) ==> Lookup(env1, v) == Lookup(env2, v)
    ensures WellFormed(e)
    ensures Eval(e, env1, ops) == Eval(e, env2, ops)
  {
    PassIffValid(e);
    ValidIsWellFormed(e);
    MarkedOnPass(e);
    EvalReadsOnlyItsVars(e, env1, env2, ops);
  }

  /** `log(x, y)` is rejected with got 2, want 1, before any variable is
      recorded; `pow(x, 3) + pow(y, 3)` passes and records x and y. */
  lemma CheckScenarios()
    ensures FirstError(Call("log", [Var("x"), Var("y")])) == Fail(ArityMismatch("log", 2, 1))
    ensures Marked(Call("log", [Var("x"), Var("y")])) == {}
    ensures FirstError(Binary('+', Call("pow", [Var("x"), Literal(Three)]),
                                   Call("pow", [Var("y"), Literal(Three)]))) == Pass
    ensures Marked(Binary('+', Call("pow", [Var("x"), Literal(Three)]),
                               Call("pow", [Var("y"), Literal(Three)]))) == {"x", "y"}
  {
    PowOfVarPasses("x");
    PowOfVarPasses("y");
  }

  /** `pow(v, 3)` passes and records `v` alone. */
  lemma PowOfVarPasses(v: string)
    ensures FirstError(Call("pow", [Var(v), Literal(Three)])) == Pass
    ensures Marked(Call("pow", [Var(v), Literal(Three)])) == {v}
  {
    var args := [Var(v), Literal(Three)];
    assert "pow" in Params && Params["pow"] == |args|;
    assert args[1..] == [Literal(Three)] && args[1..][1..] == [];
    assert FirstErrorOfArgs(args[1..]) == Pass && MarkedByArgs(args[1..]) == {};
    assert FirstErrorOfArgs(args) == Pass && MarkedByArgs(args) == {v};
  }
}
