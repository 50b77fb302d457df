/**
 * The tree-walking interpreter (`src/interpreter.rs`).
 *
 * Operators, indexing and property access are pure functions of values.
 * Evaluating an expression and executing a statement change the environment
 * (scopes are pushed and popped, variables defined) and the console output,
 * so they are functions from one `RunState` to the next paired with the
 * outcome. Programs need not terminate, so evaluation carries a step bound
 * `fuel`: every call of a user function or lambda and every further loop
 * iteration spends one unit, and running out is the outcome `NoFuel`. The
 * standard library the interpreter calls into is a parameter (`Library`);
 * module `Stdlib` provides its pure part.
 *
 * The class `Interpreter` runs a program, a `for` loop and a user function
 * call step by step, in place, and is proved to end in the state the
 * functions give.
 */
module Interpreter {
  import opened Wrappers
  import opened Values
  import Ast
  import BigNum
  import Errors
  import Vm
  import Bytecode
  import Strings
  import BytecodeCompiling

  type FlowError = Errors.FlowError

  /** How evaluation ends other than with a value. */
  datatype Abrupt =
    | Raise(error: FlowError)   // an `Err`, including the `Return` signal
    | Panic                     // a Rust integer-overflow panic
    | NoFuel                    // the step bound ran out

  /** What evaluation reads and writes: the environment and the lines printed so far. */
  datatype RunState = RunState(env: Env, output: string)

  /**
   * The standard library as the interpreter sees it: `has_function` is
   * membership in `names`; `call_function` is `call`, which answers every
   * name (an unknown one with an error).
   */
  datatype Library = Library(names: set<string>, call: (string, seq<Value>) -> Result<Value, FlowError>)

  function Lift<T>(r: Result<T, FlowError>): Result<T, Abrupt>
  {
    match r
    case Ok(v) => Ok(v)
    case Err(e) => Err(Raise(e))
  }

  /** `define_variable`: bind in the innermost scope. */
  function Define(st: RunState, name: string, v: Value): RunState
  {
    st.(env := st.env.(variables := st.env.variables[name := v]))
  }

  function PopState(st: RunState): RunState
  {
    st.(env := Popped(st.env))
  }

  // ---------------------------------------------------------------------
  // Syntactic sizes, for termination at a fixed fuel
  // ---------------------------------------------------------------------

  function Size(e: Ast.Expression): nat
    decreases e, 1, 0
  {
    match e
    case Literal(_) => 1
    case Identifier(_) => 1
    case Binary(l, _, r) => 1 + Size(l) + Size(r)
    case Unary(_, o) => 1 + Size(o)
    case FunctionCall(_, args) => 1 + SizeList(args)
    case MethodCall(recv, _, args) => 1 + Size(recv) + SizeList(args)
    case ArrayExpr(es) => 1 + SizeList(es)
    case ObjectExpr(ps) => 1 + SizeProps(e, ps)
    case Index(o, i) => 1 + Size(o) + Size(i)
    case PropertyAccess(o, _) => 1 + Size(o)
    case Lambda(_, _) => 1
  }

  function SizeList(es: seq<Ast.Expression>): nat
    decreases es, 0, 0
  {
    if |es| == 0 then 0 else 1 + Size(es[0]) + SizeList(es[1..])
  }

  function SizeProps(parent: Ast.Expression, ps: seq<(string, Ast.Expression)>): nat
    requires forall k :: 0 <= k < |ps| ==> ps[k].1 < parent
    decreases parent, 0, |ps|
  {
    if |ps| == 0 then 0 else 1 + Size(ps[0].1) + SizeProps(parent, ps[1..])
  }

  function ParamsSize(ps: seq<Ast.Parameter>): nat
  {
    if |ps| == 0 then 0
    else 1 + (match ps[0].defaultValue case Some(d) => Size(d) case None => 0) + ParamsSize(ps[1..])
  }

  function SSize(s: Ast.Statement): nat
    decreases s
  {
    match s
    case VariableDeclaration(_, v) => 1 + Size(v)
    case FunctionDeclaration(_, _, _) => 1
    case If(c, t, e) => 1 + Size(c) + BSize(t) + (match e case NoElse => 0 case Else(b) => BSize(b))
    case While(c, body) => 2 + Size(c) + BSize(body)
    case For(_, a, b, body) => 2 + Size(a) + Size(b) + BSize(body)
    case Show(e) => 1 + Size(e)
    case Return(r) => 1 + (match r case Some(e) => Size(e) case None => 0)
    case ExpressionStatement(e) => 1 + Size(e)
    case Import(_) => 1
    case Export(inner) => 1 + SSize(inner)
    case TryCatch(t, _, c) => 1 + BSize(t) + BSize(c)
  }

  function BSize(ss: seq<Ast.Statement>): nat
    decreases ss
  {
    if |ss| == 0 then 0 else 1 + SSize(ss[0]) + BSize(ss[1..])
  }

  lemma {:induction false} SizeListElement(es: seq<Ast.Expression>, k: nat)
    requires k < |es|
    ensures Size(es[k]) < SizeList(es)
    decreases k
  {
    if k > 0 {
      SizeListElement(es[1..], k - 1);
    }
  }

  // ---------------------------------------------------------------------
  // Operators
  // ---------------------------------------------------------------------

  /**
   * The operand pairs on which an operator panics: `BigInt::from_i64` of
   * i64::MIN when promoting (add, subtract and multiply are all checked here)
   * and `i64::MIN % -1`.
   */
  predicate BinaryPanics(op: Ast.BinaryOperator, a: Value, b: Value)
  {
    match op
    case Add => Vm.AddPanics(a, b)
    case Subtract => Vm.PromotionPanics(a, b, if a.Integer? && b.Integer? then a.i - b.i else 0)
    case Multiply => Vm.MultiplyPanics(a, b)
    case Modulo => Vm.ModuloPanics(a, b)
    case _ => false
  }

  function Cannot(verb: string, a: Value, b: Value): FlowError
  {
    Errors.TypeError(Vm.CannotText(verb, a, b))
  }

  /** The exact sum, difference or product of two whole numbers, as the checked i64 operations and BigInt give it. */
  function Exact(op: Ast.BinaryOperator, x: int, y: int): int
    requires op.Add? || op.Subtract? || op.Multiply?
  {
    if op.Add? then x + y else if op.Subtract? then x - y else x * y
  }

  function ExactReal(op: Ast.BinaryOperator, x: real, y: real): real
    requires op.Add? || op.Subtract? || op.Multiply?
  {
    if op.Add? then x + y else if op.Subtract? then x - y else x * y
  }

  function Verb(op: Ast.BinaryOperator): string
    requires op.Add? || op.Subtract? || op.Multiply?
  {
    if op.Add? then "add" else if op.Subtract? then "subtract" else "multiply"
  }

  /**
   * `+`, `-` and `*`: two Integers give the Integer result or, on overflow,
   * the exact BigInteger; a BigInteger on either side with an Integer or
   * BigInteger gives a BigInteger; Floats mix with Integers; `+` with a
   * String on either side concatenates the other side's Display text.
   */
  function Arithmetic(op: Ast.BinaryOperator, a: Value, b: Value): Result<Value, FlowError>
    requires op.Add? || op.Subtract? || op.Multiply?
    requires !BinaryPanics(op, a, b)
  {
    match (a, b)
    case (Integer(x), Integer(y)) => Ok(Vm.Checked(Exact(op, x, y)))
    case (Float(x), Float(y)) => Ok(Float(ExactReal(op, x, y)))
    case (Integer(x), Float(y)) => Ok(Float(ExactReal(op, x as real, y)))
    case (Float(x), Integer(y)) => Ok(Float(ExactReal(op, x, y as real)))
    case (BigInteger(_), BigInteger(_)) => Ok(Vm.Big(Exact(op, Vm.IntegerValue(a), Vm.IntegerValue(b))))
    case (BigInteger(_), Integer(_)) => Ok(Vm.Big(Exact(op, Vm.IntegerValue(a), Vm.IntegerValue(b))))
    case (Integer(_), BigInteger(_)) => Ok(Vm.Big(Exact(op, Vm.IntegerValue(a), Vm.IntegerValue(b))))
    case (Str(x), Str(y)) => if op.Add? then Ok(Str(x + y)) else Err(Cannot(Verb(op), a, b))
    case (Str(x), _) => if op.Add? then Ok(Str(x + ValueText(b))) else Err(Cannot(Verb(op), a, b))
    case (_, Str(y)) => if op.Add? then Ok(Str(ValueText(a) + y)) else Err(Cannot(Verb(op), a, b))
    case _ => Err(Cannot(Verb(op), a, b))
  }

  /** Rust's truncating `%` on i64. */
  function Remainder(x: int, y: int): int
    requires y != 0
  {
    Vm.TruncRem(x, y)
  }

  /** `/` always gives a Float and `%` needs two Integers; a zero divisor is DivisionByZero. */
  function Division(op: Ast.BinaryOperator, a: Value, b: Value): Result<Value, FlowError>
    requires op.Divide? || op.Modulo?
    requires !BinaryPanics(op, a, b)
  {
    if op.Divide? then
      match (a, b)
      case (Integer(x), Integer(y)) => if y == 0 then Err(Errors.DivisionByZero) else Ok(Float(x as real / y as real))
      case (Float(x), Float(y)) => if y == 0.0 then Err(Errors.DivisionByZero) else Ok(Float(x / y))
      case (Integer(x), Float(y)) => if y == 0.0 then Err(Errors.DivisionByZero) else Ok(Float(x as real / y))
      case (Float(x), Integer(y)) => if y == 0 then Err(Errors.DivisionByZero) else Ok(Float(x / y as real))
      case _ => Err(Cannot("divide", a, b))
    else
      match (a, b)
      case (Integer(x), Integer(y)) => if y == 0 then Err(Errors.DivisionByZero) else Ok(Integer(Remainder(x, y)))
      case _ => Err(Cannot("modulo", a, b))
  }

  /** The interpreter's `values_equal`: scalars of the same kind, numbers across Integer and Float within f64::EPSILON. */
  predicate ValuesEqual(a: Value, b: Value)
  {
    match (a, b)
    case (Str(x), Str(y)) => x == y
    case (Integer(x), Integer(y)) => x == y
    case (Float(x), Float(y)) => Bytecode.Abs(x - y) < Bytecode.EPSILON
    case (Integer(x), Float(y)) => Bytecode.Abs(x as real - y) < Bytecode.EPSILON
    case (Float(x), Integer(y)) => Bytecode.Abs(x - y as real) < Bytecode.EPSILON
    case (Boolean(x), Boolean(y)) => x == y
    case (Null, Null) => true
    case _ => false
  }

  predicate IsNumber(v: Value) { v.Integer? || v.Float? }

  function AsReal(v: Value): real
    requires IsNumber(v)
  {
    if v.Integer? then v.i as real else v.f
  }

  predicate IsComparison(op: Ast.BinaryOperator)
  {
    op.Greater? || op.GreaterEqual? || op.Less? || op.LessEqual?
  }

  /** `>`, `>=`, `<`, `<=` on Integers and Floats only. */
  function Comparison(op: Ast.BinaryOperator, a: Value, b: Value): Result<Value, FlowError>
    requires IsComparison(op)
  {
    if !IsNumber(a) || !IsNumber(b) then Err(Cannot("compare", a, b))
    else
      var x := AsReal(a);
      var y := AsReal(b);
      Ok(Boolean(if op.Greater? then x > y else if op.GreaterEqual? then x >= y else if op.Less? then x < y else x <= y))
  }

  /** `apply_binary_operator`. `and` and `or` pick one of their (already evaluated) operands. */
  function ApplyBinary(a: Value, op: Ast.BinaryOperator, b: Value): Result<Value, FlowError>
    requires !BinaryPanics(op, a, b)
  {
    match op
    case Add => Arithmetic(op, a, b)
    case Subtract => Arithmetic(op, a, b)
    case Multiply => Arithmetic(op, a, b)
    case Divide => Division(op, a, b)
    case Modulo => Division(op, a, b)
    case Equal => Ok(Boolean(ValuesEqual(a, b)))
    case NotEqual => Ok(Boolean(!ValuesEqual(a, b)))
    case And => Ok(if IsTruthy(a) then b else a)
    case Or => Ok(if IsTruthy(a) then a else b)
    case _ => Comparison(op, a, b)
  }

  /** Negating i64::MIN overflows and panics. */
  predicate UnaryPanics(op: Ast.UnaryOperator, v: Value)
  {
    op.Minus? && v == Integer(BigNum.I64_MIN)
  }

  /** `apply_unary_operator`. */
  function ApplyUnary(op: Ast.UnaryOperator, v: Value): Result<Value, FlowError>
    requires !UnaryPanics(op, v)
  {
    match op
    case Not => Ok(Boolean(!IsTruthy(v)))
    case Minus =>
      match v
      case Integer(i) => Ok(Integer(-i))
      case Float(f) => Ok(Float(-f))
      case _ => Err(Errors.TypeError("Cannot negate " + TypeName(v)))
  }

  /** `get_index`: arrays by Integer position, objects by String key (a missing key is Null). */
  function GetIndex(container: Value, index: Value): Result<Value, FlowError>
  {
    match (container, index)
    case (Array(items), Integer(i)) =>
      if 0 <= i < |items| then Ok(items[i])
      else Err(Errors.RuntimeErrorNoLine("Array index " + BigNum.IntToString(i) + " out of bounds"))
    case (Object(props), Str(key)) => Ok(if key in props then props[key] else Null)
    case _ => Err(Errors.TypeError("Cannot index " + TypeName(container) + " with " + TypeName(index)))
  }

  /** `get_property`: object fields (a missing one is Null) and an array's `length`. */
  function GetProperty(container: Value, property: string): Result<Value, FlowError>
  {
    match container
    case Object(props) => Ok(if property in props then props[property] else Null)
    case Array(items) =>
      if property == "length" then Ok(Integer(Vm.UsizeAsI64(|items|)))
      else Err(Errors.RuntimeErrorNoLine("Array has no property '" + property + "'"))
    case _ => Err(Errors.TypeError("Cannot access property '" + property + "' on " + TypeName(container)))
  }

  // ---------------------------------------------------------------------
  // Evaluation
  // ---------------------------------------------------------------------

  /** `evaluate_expression`. */
  function Eval(lib: Library, st: RunState, e: Ast.Expression, fuel: nat): (RunState, Result<Value, Abrupt>)
    decreases fuel, Size(e), 1
  {
    match e
    case Literal(l) => (st, Ok(BytecodeCompiling.LiteralValue(l)))
    case Identifier(name) =>
      (st, match Lookup(st.env, name, Variables)
           case Some(v) => Ok(v)
           case None => Err(Raise(Errors.UndefinedVariable(name))))
    case Binary(l, op, r) => EvalBinary(lib, st, e, fuel)
    case Unary(op, operand) =>
      var (st1, r) := Eval(lib, st, operand, fuel);
      (st1, match r
            case Err(x) => Err(x)
            case Ok(v) => if UnaryPanics(op, v) then Err(Panic) else Lift(ApplyUnary(op, v)))
    case FunctionCall(name, args) => CallFunction(lib, st, name, args, fuel)
    case MethodCall(recv, m, args) =>
      var (st1, r) := Eval(lib, st, recv, fuel);
      (match r
       case Err(x) => (st1, Err(x))
       case Ok(v) => CallMethod(lib, st1, v, m, args, fuel))
    case ArrayExpr(es) =>
      var (st1, r) := EvalEach(lib, st, es, [], fuel);
      (st1, match r case Err(x) => Err(x) case Ok(vs) => Ok(Array(vs)))
    case ObjectExpr(ps) =>
      var (st1, r) := EvalProps(lib, st, e, ps, map[], fuel);
      (st1, match r case Err(x) => Err(x) case Ok(m) => Ok(Object(m)))
    case Index(o, i) => EvalIndex(lib, st, e, fuel)
    case PropertyAccess(o, p) =>
      var (st1, r) := Eval(lib, st, o, fuel);
      (st1, match r case Err(x) => Err(x) case Ok(v) => Lift(GetProperty(v, p)))
    case Lambda(params, body) => (st, Ok(Values.Lambda(params, body, st.env)))
  }

  /** Both operands are evaluated, left first, before the operator is applied (so `and`/`or` do not short-circuit). */
  function EvalBinary(lib: Library, st: RunState, e: Ast.Expression, fuel: nat): (RunState, Result<Value, Abrupt>)
    requires e.Binary?
    decreases fuel, Size(e), 0
  {
    var (st1, r1) := Eval(lib, st, e.left, fuel);
    match r1
    case Err(x) => (st1, Err(x))
    case Ok(a) =>
      var (st2, r2) := Eval(lib, st1, e.right, fuel);
      (st2, match r2
            case Err(x) => Err(x)
            case Ok(b) => if BinaryPanics(e.operator, a, b) then Err(Panic) else Lift(ApplyBinary(a, e.operator, b)))
  }

  function EvalIndex(lib: Library, st: RunState, e: Ast.Expression, fuel: nat): (RunState, Result<Value, Abrupt>)
    requires e.Index?
    decreases fuel, Size(e), 0
  {
    var (st1, r1) := Eval(lib, st, e.indexed, fuel);
    match r1
    case Err(x) => (st1, Err(x))
    case Ok(o) =>
      var (st2, r2) := Eval(lib, st1, e.index, fuel);
      (st2, match r2 case Err(x) => Err(x) case Ok(i) => Lift(GetIndex(o, i)))
  }

  /** Evaluates `rest` left to right, appending each value to `acc`; stops at the first failure. */
  function EvalEach(lib: Library, st: RunState, rest: seq<Ast.Expression>, acc: seq<Value>, fuel: nat)
    : (RunState, Result<seq<Value>, Abrupt>)
    decreases fuel, SizeList(rest), 1
  {
    if |rest| == 0 then (st, Ok(acc))
    else
      var (st1, r) := Eval(lib, st, rest[0], fuel);
      match r
      case Err(x) => (st1, Err(x))
      case Ok(v) => EvalEach(lib, st1, rest[1..], acc + [v], fuel)
  }

  /** An object expression: each value evaluated in order and inserted, a later key replacing an earlier one. */
  function EvalProps(lib: Library, st: RunState, parent: Ast.Expression, ps: seq<(string, Ast.Expression)>,
                     acc: map<string, Value>, fuel: nat): (RunState, Result<map<string, Value>, Abrupt>)
    requires forall k :: 0 <= k < |ps| ==> ps[k].1 < parent
    decreases fuel, SizeProps(parent, ps), 1
  {
    if |ps| == 0 then (st, Ok(acc))
    else
      var (st1, r) := Eval(lib, st, ps[0].1, fuel);
      match r
      case Err(x) => (st1, Err(x))
      case Ok(v) => EvalProps(lib, st1, parent, ps[1..], acc[ps[0].0 := v], fuel)
  }

  /** A standard-library call: the arguments are evaluated, then the library is called. */
  function CallLibrary(lib: Library, st: RunState, name: string, args: seq<Ast.Expression>, fuel: nat)
    : (RunState, Result<Value, Abrupt>)
    decreases fuel, SizeList(args), 2
  {
    var (st1, r) := EvalEach(lib, st, args, [], fuel);
    (st1, match r case Err(x) => Err(x) case Ok(vs) => Lift(lib.call(name, vs)))
  }

  /**
   * `call_function`: a function binding, else a variable binding, else the
   * standard library. A user function runs through
   * `call_function_with_params`; a lambda runs in its captured environment,
   * and the caller's environment is put back afterwards.
   */
  function CallFunction(lib: Library, st: RunState, name: string, args: seq<Ast.Expression>, fuel: nat)
    : (RunState, Result<Value, Abrupt>)
    decreases fuel, SizeList(args), 3
  {
    var found := match Lookup(st.env, name, Functions) case Some(f) => Some(f) case None => Lookup(st.env, name, Variables);
    match found
    case None =>
      if name in lib.names then CallLibrary(lib, st, name, args, fuel)
      else (st, Err(Raise(Errors.UndefinedFunction(name))))
    case Some(f) =>
      match f
      case Function(fname, params, body) =>
        if fname in lib.names then CallLibrary(lib, st, fname, args, fuel)
        else if fuel == 0 then (st, Err(NoFuel))
        else CallWithParams(lib, st, params, body, args, fuel - 1)
      case Lambda(params, body, closure) =>
        if fuel == 0 then (st, Err(NoFuel))
        else
          var (st1, r) := CallLambda(lib, st.(env := closure), params, body, args, fuel - 1);
          (st1.(env := st.env), r)
      case _ => (st, Err(Raise(Errors.RuntimeErrorNoLine("'" + name + "' is not a function"))))
  }

  function MissingParameter(name: string): FlowError
  {
    Errors.RuntimeErrorNoLine("Missing required parameter '" + name + "'")
  }

  /**
   * The parameter-binding loop of `call_function_with_params`, from the
   * parameters still to bind and the arguments not yet used: a variadic
   * parameter evaluates every remaining argument and binds the array of all
   * values collected so far (`collected` is shared by every variadic
   * parameter); otherwise the next argument, else the default, else the
   * scope is popped and the call fails. Arguments and defaults are evaluated
   * inside the new scope, after the earlier parameters were bound. An
   * evaluation error leaves the new scope in place.
   */
  function BindParams(lib: Library, st: RunState, params: seq<Ast.Parameter>, rest: seq<Ast.Expression>,
                      collected: seq<Value>, fuel: nat): (RunState, Result<(), Abrupt>)
    decreases fuel, SizeList(rest) + ParamsSize(params), 0
  {
    if |params| == 0 then (st, Ok(()))
    else
      var p := params[0];
      if p.isVariadic then
        var (st1, r) := EvalEach(lib, st, rest, collected, fuel);
        match r
        case Err(x) => (st1, Err(x))
        case Ok(all) => BindParams(lib, Define(st1, p.name, Array(all)), params[1..], [], all, fuel)
      else if |rest| > 0 then
        var (st1, r) := Eval(lib, st, rest[0], fuel);
        match r
        case Err(x) => (st1, Err(x))
        case Ok(v) => BindParams(lib, Define(st1, p.name, v), params[1..], rest[1..], collected, fuel)
      else
        match p.defaultValue
        case Some(d) =>
          var (st1, r) := Eval(lib, st, d, fuel);
          (match r
           case Err(x) => (st1, Err(x))
           case Ok(v) => BindParams(lib, Define(st1, p.name, v), params[1..], [], collected, fuel))
        case None => (PopState(st), Err(Raise(MissingParameter(p.name))))
  }

  /**
   * `call_function_with_params`: push a scope, bind the parameters, run the
   * body until a statement fails; a `Return` signal gives the result, the
   * end of the body gives Null. The scope is popped unless binding failed
   * while evaluating.
   */
  function CallWithParams(lib: Library, st: RunState, params: seq<Ast.Parameter>, body: seq<Ast.Statement>,
                          args: seq<Ast.Expression>, fuel: nat): (RunState, Result<Value, Abrupt>)
    decreases fuel, SizeList(args) + ParamsSize(params) + BSize(body) + 1, 0
  {
    var (st1, r) := BindParams(lib, st.(env := Pushed(st.env)), params, args, [], fuel);
    match r
    case Err(x) => (st1, Err(x))
    case Ok(_) =>
      var (st2, r2) := ExecBlock(lib, st1, body, fuel);
      (PopState(st2), match r2
                      case Ok(_) => Ok(Null)
                      case Err(Raise(Return(v))) => Ok(v)
                      case Err(x) => Err(x))
  }

  /** `call_lambda_with_params`: as for a function, with an expression as the body. */
  function CallLambda(lib: Library, st: RunState, params: seq<Ast.Parameter>, body: Ast.Expression,
                      args: seq<Ast.Expression>, fuel: nat): (RunState, Result<Value, Abrupt>)
    decreases fuel, SizeList(args) + ParamsSize(params) + Size(body) + 1, 0
  {
    var (st1, r) := BindParams(lib, st.(env := Pushed(st.env)), params, args, [], fuel);
    match r
    case Err(x) => (st1, Err(x))
    case Ok(_) =>
      var (st2, r2) := Eval(lib, st1, body, fuel);
      (PopState(st2), r2)
  }

  function ArgumentCount(method_: string, expected: string): FlowError
  {
    Errors.RuntimeErrorNoLine(method_ + "() expects " + expected)
  }

  /** `call_method` on an array: push/pop/length/slice return new values and leave the receiver alone. */
  function CallArrayMethod(lib: Library, st: RunState, items: seq<Value>, m: string, args: seq<Ast.Expression>, fuel: nat)
    : (RunState, Result<Value, Abrupt>)
    decreases fuel, SizeList(args), 3
  {
    if m == "push" then
      if |args| != 1 then (st, Err(Raise(ArgumentCount("push", "exactly 1 argument"))))
      else
        SizeListElement(args, 0);
        var (st1, r) := Eval(lib, st, args[0], fuel);
        (st1, match r case Err(x) => Err(x) case Ok(v) => Ok(Array(items + [v])))
    else if m == "pop" then
      if |args| != 0 then (st, Err(Raise(ArgumentCount("pop", "no arguments"))))
      else (st, Ok(if |items| == 0 then Null else items[|items| - 1]))
    else if m == "length" then
      if |args| != 0 then (st, Err(Raise(ArgumentCount("length", "no arguments"))))
      else (st, Ok(Integer(Vm.UsizeAsI64(|items|))))
    else if m == "slice" then
      if |args| != 2 then (st, Err(Raise(ArgumentCount("slice", "exactly 2 arguments (start, end)"))))
      else
        SizeListElement(args, 0);
        SizeListElement(args, 1);
        var (st1, r1) := Eval(lib, st, args[0], fuel);
        match r1
        case Err(x) => (st1, Err(x))
        case Ok(a) =>
          var (st2, r2) := Eval(lib, st1, args[1], fuel);
          (st2, match r2
                case Err(x) => Err(x)
                case Ok(b) =>
                  if a.Integer? && b.Integer? then
                    match SliceOf(items, Bytecode.TwosComplement(a.i), Bytecode.TwosComplement(b.i))
                    case Ok(s) => Ok(Array(s))
                    case Err(msg) => Err(Raise(Errors.RuntimeErrorNoLine(msg)))
                  else Err(Raise(Errors.TypeError("slice() arguments must be integers"))))
    else (st, Err(Raise(Errors.RuntimeErrorNoLine("Array has no method '" + m + "'"))))
  }

  /**
   * `call_method` on an object: a property holding a function value names a
   * library function to call; otherwise keys/has/remove.
   */
  function CallObjectMethod(lib: Library, st: RunState, props: map<string, Value>, m: string,
                            args: seq<Ast.Expression>, fuel: nat): (RunState, Result<Value, Abrupt>)
    decreases fuel, SizeList(args), 3
  {
    if m in props && props[m].Function? then CallLibrary(lib, st, props[m].name, args, fuel)
    else if m == "keys" then
      if |args| != 0 then (st, Err(Raise(ArgumentCount("keys", "no arguments"))))
      else (st, Ok(Array(KeyValues(props))))
    else if m == "has" || m == "remove" then
      if |args| != 1 then (st, Err(Raise(ArgumentCount(m, "exactly 1 argument"))))
      else
        SizeListElement(args, 0);
        var (st1, r) := Eval(lib, st, args[0], fuel);
        (st1, match r
              case Err(x) => Err(x)
              case Ok(k) =>
                if !k.Str? then Err(Raise(Errors.TypeError("Object key must be a string")))
                else if m == "has" then Ok(Boolean(k.s in props))
                else Ok(if k.s in props then props[k.s] else Null))
    else (st, Err(Raise(Errors.RuntimeErrorNoLine("Object has no method '" + m + "'"))))
  }

  function CallMethod(lib: Library, st: RunState, receiver: Value, m: string, args: seq<Ast.Expression>, fuel: nat)
    : (RunState, Result<Value, Abrupt>)
    decreases fuel, SizeList(args), 4
  {
    match receiver
    case Array(items) => CallArrayMethod(lib, st, items, m, args, fuel)
    case Object(props) => CallObjectMethod(lib, st, props, m, args, fuel)
    case _ => (st, Err(Raise(Errors.TypeError("Cannot call method '" + m + "' on " + TypeName(receiver)))))
  }

  // ---------------------------------------------------------------------
  // Statements
  // ---------------------------------------------------------------------

  const FOR_BOUNDS := Errors.TypeError("For loop bounds must be integers")

  /** `execute_statement`. */
  function ExecStmt(lib: Library, st: RunState, s: Ast.Statement, fuel: nat): (RunState, Result<(), Abrupt>)
    decreases fuel, SSize(s), 1
  {
    match s
    case VariableDeclaration(name, value) =>
      var (st1, r) := Eval(lib, st, value, fuel);
      (match r case Err(x) => (st1, Err(x)) case Ok(v) => (Define(st1, name, v), Ok(())))
    case FunctionDeclaration(name, params, body) =>
      (st.(env := st.env.(functions := st.env.functions[name := Function(name, params, body)])), Ok(()))
    case If(c, thenBranch, elseBranch) => ExecIf(lib, st, s, fuel)
    case While(c, body) => ExecWhile(lib, st, c, body, fuel)
    case For(v, a, b, body) => ExecForStatement(lib, st, s, fuel)
    case Show(e) =>
      var (st1, r) := Eval(lib, st, e, fuel);
      (match r case Err(x) => (st1, Err(x)) case Ok(v) => (st1.(output := st1.output + ValueText(v) + "\n"), Ok(())))
    case Return(returned) =>
      (match returned
       case None => (st, Err(Raise(Errors.Return(Null))))
       case Some(e) =>
         var (st1, r) := Eval(lib, st, e, fuel);
         (st1, match r case Err(x) => Err(x) case Ok(v) => Err(Raise(Errors.Return(v)))))
    case ExpressionStatement(e) =>
      var (st1, r) := Eval(lib, st, e, fuel);
      (st1, match r case Err(x) => Err(x) case Ok(_) => Ok(()))
    case Import(_) => (st, Ok(()))
    case Export(inner) => ExecStmt(lib, st, inner, fuel)
    case TryCatch(tryBlock, variable, catchBlock) =>
      var (st1, r) := ExecBlock(lib, st, tryBlock, fuel);
      match r
      case Err(Raise(err)) => ExecBlock(lib, Define(st1, variable, Str(Errors.ErrorText(err))), catchBlock, fuel)
      case _ => (st1, r)
  }

  function ExecIf(lib: Library, st: RunState, s: Ast.Statement, fuel: nat): (RunState, Result<(), Abrupt>)
    requires s.If?
    decreases fuel, SSize(s), 0
  {
    var (st1, r) := Eval(lib, st, s.condition, fuel);
    match r
    case Err(x) => (st1, Err(x))
    case Ok(c) =>
      if IsTruthy(c) then ExecBlock(lib, st1, s.thenBranch, fuel)
      else match s.elseBranch
        case NoElse => (st1, Ok(()))
        case Else(b) => ExecBlock(lib, st1, b, fuel)
  }

  function ExecForStatement(lib: Library, st: RunState, s: Ast.Statement, fuel: nat): (RunState, Result<(), Abrupt>)
    requires s.For?
    decreases fuel, SSize(s), 0
  {
    var (st1, r1) := Eval(lib, st, s.start, fuel);
    match r1
    case Err(x) => (st1, Err(x))
    case Ok(a) =>
      var (st2, r2) := Eval(lib, st1, s.end, fuel);
      match r2
      case Err(x) => (st2, Err(x))
      case Ok(b) =>
        if a.Integer? && b.Integer? then ExecFor(lib, st2, s.variable, a.i, b.i, s.body, fuel)
        else (st2, Err(Raise(FOR_BOUNDS)))
  }

  /** The statements of a block in order, stopping at the first that fails. */
  function ExecBlock(lib: Library, st: RunState, ss: seq<Ast.Statement>, fuel: nat): (RunState, Result<(), Abrupt>)
    decreases fuel, BSize(ss), 1
  {
    if |ss| == 0 then (st, Ok(()))
    else
      var (st1, r) := ExecStmt(lib, st, ss[0], fuel);
      match r
      case Err(x) => (st1, Err(x))
      case Ok(_) => ExecBlock(lib, st1, ss[1..], fuel)
  }

  /** `while`: test, run the body, repeat; each repetition after the first spends one unit of fuel. */
  function ExecWhile(lib: Library, st: RunState, c: Ast.Expression, body: seq<Ast.Statement>, fuel: nat)
    : (RunState, Result<(), Abrupt>)
    decreases fuel, Size(c) + BSize(body) + 1, 0
  {
    var (st1, r) := Eval(lib, st, c, fuel);
    match r
    case Err(x) => (st1, Err(x))
    case Ok(v) =>
      if !IsTruthy(v) then (st1, Ok(()))
      else
        var (st2, r2) := ExecBlock(lib, st1, body, fuel);
        match r2
        case Err(x) => (st2, Err(x))
        case Ok(_) => if fuel == 0 then (st2, Err(NoFuel)) else ExecWhile(lib, st2, c, body, fuel - 1)
  }

  /**
   * `for i in start..=end`: the variable is defined as i before each run of
   * the body; each iteration after the first spends one unit of fuel.
   */
  function ExecFor(lib: Library, st: RunState, v: string, i: int, end: int, body: seq<Ast.Statement>, fuel: nat)
    : (RunState, Result<(), Abrupt>)
    decreases fuel, BSize(body) + 1, 0
  {
    if i > end then (st, Ok(()))
    else
      var (st1, r) := ExecBlock(lib, Define(st, v, Integer(i)), body, fuel);
      match r
      case Err(x) => (st1, Err(x))
      case Ok(_) =>
        if i == end then (st1, Ok(()))
        else if fuel == 0 then (st1, Err(NoFuel))
        else ExecFor(lib, st1, v, i + 1, end, body, fuel - 1)
  }

  /** `execute`: the statements in order; a `Return` signal ends the program normally, any other error ends it. */
  function ExecProgram(lib: Library, st: RunState, ss: seq<Ast.Statement>, fuel: nat): (RunState, Result<(), Abrupt>)
    decreases |ss|
  {
    if |ss| == 0 then (st, Ok(()))
    else
      var (st1, r) := ExecStmt(lib, st, ss[0], fuel);
      match r
      case Ok(_) => ExecProgram(lib, st1, ss[1..], fuel)
      case Err(Raise(Return(_))) => (st1, Ok(()))
      case Err(x) => (st1, Err(x))
  }

  // ---------------------------------------------------------------------
  // The interpreter object
  // ---------------------------------------------------------------------

  class Interpreter {
    var env: Env
    var output: string
    const lib: Library

    /** `Interpreter::new`: one empty scope and nothing printed. */
    constructor (lib: Library)
      ensures Current() == RunState(Env(map[], map[], None), "") && this.lib == lib
    {
      this.lib := lib;
      env := Env(map[], map[], None);
      output := "";
    }

    function Current(): RunState
      reads this
    {
      RunState(env, output)
    }

    method Load(st: RunState)
      modifies this
      ensures Current() == st
    {
      env := st.env;
      output := st.output;
    }

    /** `execute`: each statement in turn until one fails; a `Return` signal ends the program normally. */
    method Execute(program: Ast.Program, fuel: nat) returns (r: Result<(), Abrupt>)
      modifies this
      ensures (Current(), r) == ExecProgram(lib, old(Current()), program.statements, fuel)
    {
      var ss := program.statements;
      for k := 0 to |ss|
        invariant ExecProgram(lib, old(Current()), ss, fuel) == ExecProgram(lib, Current(), ss[k..], fuel)
      {
        assert ss[k..][0] == ss[k] && ss[k..][1..] == ss[k + 1..];
        var (st1, res) := ExecStmt(lib, Current(), ss[k], fuel);
        Load(st1);
        match res {
          case Ok(_) =>
          case Err(Raise(Return(_))) => return Ok(());
          case Err(x) => return Err(x);
        }
      }
      r := Ok(());
    }

    /** The statements of a block in turn, stopping at the first failure (`for stmt in block { execute_statement(stmt)?; }`). */
    method RunBlock(ss: seq<Ast.Statement>, fuel: nat) returns (r: Result<(), Abrupt>)
      modifies this
      ensures (Current(), r) == ExecBlock(lib, old(Current()), ss, fuel)
    {
      for k := 0 to |ss|
        invariant ExecBlock(lib, old(Current()), ss, fuel) == ExecBlock(lib, Current(), ss[k..], fuel)
      {
        assert ss[k..][0] == ss[k] && ss[k..][1..] == ss[k + 1..];
        var (st1, res) := ExecStmt(lib, Current(), ss[k], fuel);
        Load(st1);
        if res.Err? {
          return res;
        }
      }
      r := Ok(());
    }

    /** The `for i in start..=end` loop of a `for` statement. */
    method RunFor(v: string, start: int, end: int, body: seq<Ast.Statement>, fuel: nat) returns (r: Result<(), Abrupt>)
      modifies this
      ensures (Current(), r) == ExecFor(lib, old(Current()), v, start, end, body, fuel)
    {
      if start > end {
        return Ok(());
      }
      var i := start;
      var f := fuel;
      while true
        invariant start <= i <= end
        invariant ExecFor(lib, old(Current()), v, start, end, body, fuel) == ExecFor(lib, Current(), v, i, end, body, f)
        decreases end - i
      {
        ghost var before := Current();
        env := env.(variables := env.variables[v := Integer(i)]);
        assert Current() == Define(before, v, Integer(i));
        r := RunBlock(body, f);
        if r.Err? {
          return;
        }
        if i == end {
          return Ok(());
        }
        if f == 0 {
          return Err(NoFuel);
        }
        i, f := i + 1, f - 1;
      }
    }

    /**
     * `call_function_with_params`: push a scope, bind the parameters, run
     * the body, pop the scope.
     */
    method CallFunctionWithParams(params: seq<Ast.Parameter>, body: seq<Ast.Statement>, args: seq<Ast.Expression>, fuel: nat)
      returns (r: Result<Value, Abrupt>)
      modifies this
      ensures (Current(), r) == CallWithParams(lib, old(Current()), params, body, args, fuel)
    {
      env := Pushed(env);
      var bound := BindParameters(params, args, fuel);
      if bound.Err? {
        return Err(bound.error);
      }
      var res := RunBlock(body, fuel);
      env := Popped(env);
      match res {
        case Ok(_) => r := Ok(Null);
        case Err(Raise(Return(v))) => r := Ok(v);
        case Err(x) => r := Err(x);
      }
    }

    /**
     * The parameter loop of `call_function_with_params` in the freshly pushed
     * scope; `arg_index` counts the arguments used.
     */
    method BindParameters(params: seq<Ast.Parameter>, args: seq<Ast.Expression>, fuel: nat) returns (r: Result<(), Abrupt>)
      modifies this
      ensures (Current(), r) == BindParams(lib, old(Current()), params, args, [], fuel)
    {
      hide Eval;
      var argIndex: nat := 0;
      var variadic: seq<Value> := [];
      for k := 0 to |params|
        invariant argIndex <= |args|
        invariant BindParams(lib, old(Current()), params, args, [], fuel) ==
                  BindParams(lib, Current(), params[k..], args[argIndex..], variadic, fuel)
      {
        var p := params[k];
        assert params[k..][0] == p && params[k..][1..] == params[k + 1..];
        if p.isVariadic {
          var collected;
          argIndex, collected := CollectVariadic(args, argIndex, variadic, fuel);
          if collected.Err? {
            return Err(collected.error);
          }
          variadic := collected.value;
          env := env.(variables := env.variables[p.name := Array(variadic)]);
        } else if argIndex < |args| {
          assert args[argIndex..][0] == args[argIndex] && args[argIndex..][1..] == args[argIndex + 1..];
          var (st1, res) := Eval(lib, Current(), args[argIndex], fuel);
          Load(st1);
          if res.Err? {
            return Err(res.error);
          }
          env := env.(variables := env.variables[p.name := res.value]);
          argIndex := argIndex + 1;
        } else if p.defaultValue.Some? {
          var (st1, res) := Eval(lib, Current(), p.defaultValue.value, fuel);
          Load(st1);
          if res.Err? {
            return Err(res.error);
          }
          env := env.(variables := env.variables[p.name := res.value]);
          assert args[argIndex..] == [];
        } else {
          env := Popped(env);
          return Err(Raise(MissingParameter(p.name)));
        }
      }
      r := Ok(());
    }

    /** The variadic parameter's `while arg_index < arguments.len()` loop, pushing each value onto `collected`. */
    method CollectVariadic(args: seq<Ast.Expression>, from: nat, collected: seq<Value>, fuel: nat)
      returns (argIndex: nat, r: Result<seq<Value>, Abrupt>)
      requires from <= |args|
      modifies this
      ensures r.Ok? ==> argIndex == |args|
      ensures (Current(), r) == EvalEach(lib, old(Current()), args[from..], collected, fuel)
    {
      hide Eval;
      argIndex := from;
      var values := collected;
      while argIndex < |args|
        invariant from <= argIndex <= |args|
        invariant EvalEach(lib, old(Current()), args[from..], collected, fuel) ==
                  EvalEach(lib, Current(), args[argIndex..], values, fuel)
      {
        assert args[argIndex..][0] == args[argIndex] && args[argIndex..][1..] == args[argIndex + 1..];
        var (st1, res) := Eval(lib, Current(), args[argIndex], fuel);
        Load(st1);
        if res.Err? {
          return argIndex, Err(res.error);
        }
        values := values + [res.value];
        argIndex := argIndex + 1;
      }
      r := Ok(values);
    }
  }
}
