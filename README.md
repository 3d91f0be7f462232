# Arithmetic expression trees: checking and evaluation

This project models the core of a small Go expression evaluator (`expr.go`). A
parsed expression is a tree of five node kinds: variable, literal, unary
operation, binary operation and call of a built-in function. Two recursive walks
run over the tree:

- **Check** validates the tree and returns the first error it meets. Unary
  operators must be `+ - !`, binary operators `+ - * /`, and every call must
  name `pow`, `log`, `sqrt`, `sin`, `cos` or `tan` with exactly that
  function's number of arguments. While it walks, Check records every variable
  name it passes in a map that the caller owns.
- **Eval** computes the tree's float64 value under a binding of variable names.
  An unbound variable reads as zero.

Layout:

- `syntax.dfy` (module `Syntax`) holds the tree and the operator and arity
  tables. It also holds two order-free facts about a tree: `Valid` (every node
  obeys the grammar) and `VarsOf` (the variable names that occur in it).
- `eval.dfy` (module `Evaluation`) holds `Eval` as a recursive function. Its
  precondition `WellFormed` says that no panic branch is reached and that no
  argument is indexed out of range.
- `check.dfy` (module `Checker`) holds `Check` as imperative methods, one per
  node kind, as in the source. They mutate a `VarTable` object, whose field
  `entries: map<string, bool>` is the Go `map[Var]bool`. `CheckArgs` holds the
  loop over a call's arguments. Each method is proved against two
  specification functions:
  - `FirstError`: the outcome;
  - `Marked`: the names recorded before the walk returns.

  Lemmas relate these functions to the rest of the model:
  - `FirstErrorIsFirstOfAll`: the reported error is the head of `Errors`, the
    list of all errors in the tree (first error wins);
  - `PassIffValid`: Check passes exactly on `Valid` trees;
  - `MarkedOnPass`: on success the recorded names are exactly `VarsOf`;
  - `ValidIsWellFormed`: a tree that Check accepts can be evaluated.

A float64 is represented by its IEEE-754 binary64 bit pattern (`bv64`). Unary
minus is exact in IEEE arithmetic (it flips the sign bit), so the model
computes it. The result of `!` and the value of a missing variable are +0.0
(bit pattern 0). The caller supplies the rounded arithmetic and the `math`
routines as a `FloatOps` value.

Three points of the Go code that the model keeps as they are:

- A call evaluates only the arguments its function reads: `args[0]`, plus
  `args[1]` for `pow`.
- Unary and binary operators have separate errors, `InvalidUnaryOp` and
  `InvalidBinaryOp`.
- Eval panics on an unsupported operator or function. The model makes this its
  precondition `WellFormed`.

## Model

| member | source | states |
|---|---|---|
| `Checker.Check` | expr.go:13-15 | The outcome is `FirstError(e)` and the new map is the old one with the `Marked(e)` names set to true. Check passes iff the tree is `Valid`. On a pass the tree is `WellFormed` for Eval and exactly its variable names were added. The map only gains keys, and those are names from the tree. An entry changes only by becoming true for such a name. |
| `Checker.CheckFacts` | expr.go:13-15 | From the outcome and the effect of a check, derives: pass iff valid; pass implies evaluable; the recorded names are exactly the tree's; the map gains no other keys; untouched entries keep their values. |
| `Checker.CheckVar` | expr.go:49-52 | A variable always passes. The map becomes the old map with that name set to true. |
| `Checker.CheckLiteral` | expr.go:58-60 | A literal always passes and leaves the map unchanged (the method modifies nothing). |
| `Checker.CheckUnary` | expr.go:75-80 | An operator outside `+-!` fails with `InvalidUnaryOp(op)` and leaves the map untouched. Otherwise the outcome and the effect are those of checking the operand. |
| `Checker.CheckBinary` | expr.go:97-105 | An operator outside `+-*/` fails with `InvalidBinaryOp(op)` and leaves the map untouched. Otherwise the left child is checked first. If it fails, its error is returned and the right child is never visited. |
| `Checker.CheckCall` | expr.go:126-142 | An unknown name fails with `UnknownFunction(fn)`. A known name with the wrong number of arguments fails with `ArityMismatch(fn, len(args), arity)`. In both cases the map is untouched. Otherwise the outcome is that of checking the arguments. |
| `Checker.CheckArgs` | expr.go:136-141 | Checks the arguments left to right and stops at the first failure. The outcome is the first argument error. The recorded names are those of the arguments visited. |
| `Checker.VarTable.Insert` | expr.go:50 | Sets the entry for the name to true and leaves every other entry as it was. |
| `Checker.FirstErrorIsFirstOfAll` | expr.go:75-142 | First error wins. Check's outcome is the first of all the errors the tree deserves, taken parents before children and left before right, or a pass when there are none. |
| `Checker.FirstErrorOfArgsIsFirstOfAll` | expr.go:136-140 | The same property for a call's argument list. |
| `Checker.NoErrorsIffValid` | expr.go:75-135 | A tree deserves no error exactly when every operator is legal and every call names a known function with its exact arity. |
| `Checker.NoErrorsOfArgsIffValid` | expr.go:136-140 | The same property for a call's argument list. |
| `Checker.PassIffValid` | expr.go:75-142 | Check passes iff the tree is valid, whatever order it visits the nodes in. |
| `Checker.MarkedWithinVars` | expr.go:50 | Check records only names of variables that occur in the tree, even when it fails part-way. |
| `Checker.MarkedByArgsWithinVars` | expr.go:136-140 | The same property for a call's argument list. |
| `Checker.MarkedOnPass` | expr.go:13-15 | When Check passes, the recorded names are exactly the variables occurring in the tree. |
| `Checker.MarkedByArgsOnPass` | expr.go:136-140 | The same property for a call's argument list. |
| `Checker.ValidIsWellFormed` | expr.go:62-142 | A tree that Check accepts never reaches a panic in Eval and never indexes `args` out of range: `pow` has two arguments and the others have one. |
| `Checker.WellFormedIsWeakerThanValid` | expr.go:68-69 | The converse fails. `!(1.0 % 1.0)` and `pow(1.0, 1.0, 1.0)` evaluate without a panic, because `!` never evaluates its operand and extra arguments are never read. Check rejects both, with `InvalidBinaryOp('%')` and `ArityMismatch("pow", 3, 2)`. |
| `Checker.CheckedVarsDetermineEval` | expr.go:13-15 | After a passing check, the tree can be evaluated. Two bindings that agree on the recorded names give the same value. |
| `Checker.CheckScenarios` | expr.go:126-134 | `log(x, y)` fails with `ArityMismatch("log", 2, 1)` and records nothing. `pow(x, 3) + pow(y, 3)` passes and records `x` and `y`. |
| `Checker.PowOfVarPasses` | expr.go:128-141 | `pow(v, 3.0)` has the arity `pow` needs. It passes and records exactly `v`. |
| `Evaluation.EvalVar` | expr.go:45-47 | A variable evaluates to its binding, or to +0.0 when it is unbound (not an error). |
| `Evaluation.EvalLiteral` | expr.go:54-56 | A literal evaluates to its own value under every binding. |
| `Evaluation.EvalSigns` | expr.go:62-67 | `+x` is `x`. `-x` differs from `x` in the sign bit only. `--x` is `x`. |
| `Evaluation.EvalNotIsZero` | expr.go:68-69 | `!x` is +0.0 for every operand, including one that could not be evaluated. |
| `Evaluation.EvalSignScenarios` | expr.go:62-69 | `-x` with x = -1.0 gives 1.0. `!x` with x = 1.0 gives 0. |
| `Evaluation.EvalReadsOnlyItsVars` | expr.go:45-124 | Eval reads the binding only at the tree's variables. Two bindings that agree on those give the same value. |

## Left out

- Floating-point arithmetic: IEEE `+ - * /` (including division by zero) and
  `math.Pow`, `Log`, `Sqrt`, `Sin`, `Cos` and `Tan` are not modelled. They
  arrive as the caller-supplied functions of `FloatOps`. Properties that
  depend on their values, such as `sqrt(pi * pi)` giving 3.14159, are not
  stated.
- The text of the `fmt.Errorf` error messages and the `fmt.Sprintf` panic
  messages. Errors are the `CheckError` datatype.
- The panics in Eval on an unsupported operator or function. They are the
  precondition `WellFormed` of `Eval` and are never reached at run time.
- The Go `Expr` interface and its dynamic dispatch. These are a closed
  datatype and a `match`.
- Writing into a nil `vars` map, which panics in Go. `VarTable` is always an
  allocated object.
- `Parse`, which builds trees from text, is not part of this model, and
  neither is the test driver that prints formatted floats.
- Go's `rune` is any int32 and Go's `string` is a byte sequence. The model uses
  Dafny's `char` (Unicode scalar values) and `seq<char>` for operators, names
  and the `VarTable` keys. A node whose operator is a negative or surrogate rune,
  or whose name is not valid UTF-8, cannot be represented, though Go's Check
  would reject such an operator.
- Recursion depth and stack exhaustion on very deep trees. Dafny's trees are
  finite, and its recursion is unbounded.
- Eval's purity ("never modifies the binding or the tree") is not stated as a
  lemma. It holds by construction, because `Eval` is a function on values.
