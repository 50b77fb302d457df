/**
 * The bytecode virtual machine: the value arithmetic of `add_values` and its
 * siblings, `values_equal`, `compare_values`, the built-in functions, one
 * step of the fetch-execute loop as a function of the machine state, and the
 * `VirtualMachine` object whose `run` loop is proved to follow those steps.
 */
module Vm {
  import opened Wrappers
  import opened Values
  import opened Bytecode
  import BigNum
  import Errors
  import Strings
  import Utf8
  import Ast

  type FlowError = Errors.FlowError

  const I64_MIN := BigNum.I64_MIN
  const I64_MAX := BigNum.I64_MAX

  const UNDERFLOW := Errors.RuntimeErrorNoLine("Stack underflow")
  const FLOAT_CONVERSION := Errors.RuntimeErrorNoLine("BigInteger too large for float conversion")
  const DIVISION_BY_ZERO := Errors.RuntimeErrorNoLine("Division by zero")
  const MODULO_BY_ZERO := Errors.RuntimeErrorNoLine("Modulo by zero")

  // The runtime errors `run` reports, by their messages.
  const INVALID_CONSTANT := Errors.RuntimeErrorNoLine("Invalid constant index")
  const NO_FRAME_FOR_LOAD := Errors.RuntimeErrorNoLine("No active frame for local access")
  const INVALID_LOCAL := Errors.RuntimeErrorNoLine("Invalid local index")
  const NO_FRAME_FOR_STORE := Errors.RuntimeErrorNoLine("No active frame for local storage")
  const EXPECTED_COUNT := Errors.RuntimeErrorNoLine("Expected argument count for builtin call")
  const TOO_FEW_BUILTIN_ARGS := Errors.RuntimeErrorNoLine("Not enough arguments for builtin call")
  const TOO_FEW_ELEMENTS := Errors.RuntimeErrorNoLine("Not enough elements for array creation")
  const INDEX_UNDERFLOW := Errors.RuntimeErrorNoLine("Stack underflow for index access")
  const INDEX_OUT_OF_BOUNDS := Errors.RuntimeErrorNoLine("Array index out of bounds")
  const INVALID_INDEX := Errors.RuntimeErrorNoLine("Invalid index operation")
  const INDEX_ASSIGNMENT_UNDERFLOW := Errors.RuntimeErrorNoLine("Stack underflow for index assignment")
  const INVALID_INDEX_ASSIGNMENT := Errors.RuntimeErrorNoLine("Invalid index assignment")
  const PROPERTY_OF_NON_OBJECT := Errors.RuntimeErrorNoLine("Property access on non-object")
  const PROPERTY_ASSIGNMENT_UNDERFLOW := Errors.RuntimeErrorNoLine("Stack underflow for property assignment")
  const PROPERTY_ASSIGNMENT_TO_NON_OBJECT := Errors.RuntimeErrorNoLine("Property assignment on non-object")
  const NO_FUNCTION := Errors.RuntimeErrorNoLine("Stack underflow: no function to call")
  const TOO_FEW_CALL_ARGS := Errors.RuntimeErrorNoLine("Stack underflow: not enough arguments")
  const NOT_CALLABLE := Errors.RuntimeErrorNoLine("Cannot call non-function value")
  const NO_METHOD_CALLS := Errors.RuntimeErrorNoLine("Method calls not yet implemented")
  const UNKNOWN_BUILTIN := "Unknown builtin function: "
  const UNIMPLEMENTED := "Unimplemented instruction: "

  // ---------------------------------------------------------------------
  // Integers and big integers
  // ---------------------------------------------------------------------

  predicate IsIntegral(v: Value) { v.Integer? || v.BigInteger? }

  /** The whole number an Integer or a BigInteger stands for. */
  function IntegerValue(v: Value): int
    requires IsIntegral(v)
  {
    if v.Integer? then v.i else BigNum.Value(v.big)
  }

  /**
   * The BigInteger holding `n`, in the normalized form `from_i64` and the
   * BigInt `+`, `-` and `*` produce (BigNum.Add, BigNum.Sub and BigNum.Mul
   * are proved to return exactly this for normalized operands).
   */
  function Big(n: int): (r: Value)
    ensures r.BigInteger? && BigNum.Normalized(r.big) && BigNum.Value(r.big) == n
  {
    BigNum.FromIntCorrect(n);
    BigInteger(BigNum.FromInt(n))
  }

  /**
   * `BigInt::to_i64`, as BigNum.ToI64 is proved to compute it: the value when
   * there are at most two limbs and the magnitude fits in an i64.
   */
  function BigToI64(b: BigNum.BigInt): (r: Option<int>)
    ensures r.Some? ==> r.value == BigNum.Value(b)
  {
    if |b.digits| <= 2 && BigNum.Mag(b.digits) <= I64_MAX then Some(BigNum.Value(b)) else None
  }

  /** The remainder of Rust's `%` on integers: it truncates, so it takes the sign of the dividend. */
  function TruncRem(x: int, y: int): int
    requires y != 0
  {
    var r := Abs(x) % Abs(y);
    if x < 0 then -r else r
  }

  function Abs(x: int): nat { if x < 0 then -x else x }

  /** Rust's `/` on integers, rounding toward zero. */
  function TruncDiv(x: int, y: int): int
    requires y != 0
  {
    var q := Abs(x) / Abs(y);
    if (x < 0) == (y < 0) then q else -q
  }

  /** The truncating remainder: x is q * y + r with r taking x's sign and smaller than y in size. */
  lemma TruncRemSpec(x: int, y: int)
    requires y != 0
    ensures x == TruncDiv(x, y) * y + TruncRem(x, y)
    ensures Abs(TruncRem(x, y)) < Abs(y)
    ensures TruncRem(x, y) != 0 ==> (TruncRem(x, y) < 0 <==> x < 0)
  {
    var q := Abs(x) / Abs(y);
    var r := Abs(x) % Abs(y);
    assert Abs(x) == q * Abs(y) + r;
    if x < 0 && y < 0 {
      assert x == q * y - r;
    } else if x < 0 {
      assert x == (-q) * y - r;
    } else if y < 0 {
      assert x == (-q) * y + r;
    }
  }

  // ---------------------------------------------------------------------
  // add_values, subtract_values, multiply_values, divide_values, modulo_values
  // ---------------------------------------------------------------------

  function CannotText(verb: string, a: Value, b: Value): string
  {
    "Cannot " + (verb + (" " + (TypeName(a) + (" and " + TypeName(b)))))
  }

  /**
   * The operand pairs on which `add_values` or `multiply_values` panics:
   * `BigInt::from_i64` negates its argument and so overflows on i64::MIN,
   * which happens when an overflowing Integer pair or a mixed pair has it.
   */
  predicate PromotionPanics(a: Value, b: Value, exact: int)
  {
    match (a, b)
    case (Integer(x), Integer(y)) => !Ast.IsI64(exact) && (x == I64_MIN || y == I64_MIN)
    case (Integer(x), BigInteger(_)) => x == I64_MIN
    case (BigInteger(_), Integer(y)) => y == I64_MIN
    case _ => false
  }

  predicate AddPanics(a: Value, b: Value)
  {
    PromotionPanics(a, b, if a.Integer? && b.Integer? then a.i + b.i else 0)
  }

  predicate MultiplyPanics(a: Value, b: Value)
  {
    PromotionPanics(a, b, if a.Integer? && b.Integer? then a.i * b.i else 0)
  }

  /** Subtraction of two Integers is unchecked, so a difference outside i64 panics as well. */
  predicate SubtractPanics(a: Value, b: Value)
  {
    match (a, b)
    case (Integer(x), Integer(y)) => !Ast.IsI64(x - y)
    case (Integer(x), BigInteger(_)) => x == I64_MIN
    case (BigInteger(_), Integer(y)) => y == I64_MIN
    case _ => false
  }

  /** `i64::MIN % -1` overflows and panics. */
  predicate ModuloPanics(a: Value, b: Value)
  {
    a.Integer? && b.Integer? && a.i == I64_MIN && b.i == -1
  }

  /** A checked i64 result: an Integer when `n` fits in an i64, the exact BigInteger otherwise. */
  function Checked(n: int): Value
  {
    if Ast.IsI64(n) then Integer(n) else Big(n)
  }

  /** `add_values`. */
  function AddValues(a: Value, b: Value): Result<Value, FlowError>
    requires !AddPanics(a, b)
  {
    match (a, b)
    case (Integer(x), Integer(y)) => Ok(Checked(x + y))
    case (Integer(_), BigInteger(_)) => Ok(Big(IntegerValue(a) + IntegerValue(b)))
    case (BigInteger(_), Integer(_)) => Ok(Big(IntegerValue(a) + IntegerValue(b)))
    case (BigInteger(_), BigInteger(_)) => Ok(Big(IntegerValue(a) + IntegerValue(b)))
    case (Float(x), Float(y)) => Ok(Float(x + y))
    case (Integer(x), Float(y)) => Ok(Float(x as real + y))
    case (Float(x), Integer(y)) => Ok(Float(x + y as real))
    case (BigInteger(x), Float(y)) =>
      (match BigToI64(x) case Some(n) => Ok(Float(n as real + y)) case None => Err(FLOAT_CONVERSION))
    case (Float(x), BigInteger(y)) =>
      (match BigToI64(y) case Some(n) => Ok(Float(x + n as real)) case None => Err(FLOAT_CONVERSION))
    case (Str(x), Str(y)) => Ok(Str(x + y))
    case _ => Err(Errors.TypeError(CannotText("add", a, b)))
  }

  /** `subtract_values`: like `add_values` without the overflow check and without strings. */
  function SubtractValues(a: Value, b: Value): Result<Value, FlowError>
    requires !SubtractPanics(a, b)
  {
    match (a, b)
    case (Integer(x), Integer(y)) => Ok(Integer(x - y))
    case (Float(x), Float(y)) => Ok(Float(x - y))
    case (Integer(x), Float(y)) => Ok(Float(x as real - y))
    case (Float(x), Integer(y)) => Ok(Float(x - y as real))
    case (BigInteger(_), BigInteger(_)) => Ok(Big(IntegerValue(a) - IntegerValue(b)))
    case (Integer(_), BigInteger(_)) => Ok(Big(IntegerValue(a) - IntegerValue(b)))
    case (BigInteger(_), Integer(_)) => Ok(Big(IntegerValue(a) - IntegerValue(b)))
    case _ => Err(Errors.TypeError(CannotText("subtract", a, b)))
  }

  /** `multiply_values`. */
  function MultiplyValues(a: Value, b: Value): Result<Value, FlowError>
    requires !MultiplyPanics(a, b)
  {
    match (a, b)
    case (Integer(x), Integer(y)) => Ok(Checked(x * y))
    case (BigInteger(_), BigInteger(_)) => Ok(Big(IntegerValue(a) * IntegerValue(b)))
    case (Integer(_), BigInteger(_)) => Ok(Big(IntegerValue(a) * IntegerValue(b)))
    case (BigInteger(_), Integer(_)) => Ok(Big(IntegerValue(a) * IntegerValue(b)))
    case (Float(x), Float(y)) => Ok(Float(x * y))
    case (Integer(x), Float(y)) => Ok(Float(x as real * y))
    case (Float(x), Integer(y)) => Ok(Float(x * y as real))
    case (BigInteger(x), Float(y)) =>
      (match BigToI64(x) case Some(n) => Ok(Float(n as real * y)) case None => Err(FLOAT_CONVERSION))
    case (Float(x), BigInteger(y)) =>
      (match BigToI64(y) case Some(n) => Ok(Float(x * n as real)) case None => Err(FLOAT_CONVERSION))
    case _ => Err(Errors.TypeError(CannotText("multiply", a, b)))
  }

  /** `divide_values`: any quotient of numbers is a Float; a zero divisor is a runtime error. */
  function DivideValues(a: Value, b: Value): Result<Value, FlowError>
  {
    match (a, b)
    case (Integer(x), Integer(y)) => if y == 0 then Err(DIVISION_BY_ZERO) else Ok(Float(x as real / y as real))
    case (Float(x), Float(y)) => if y == 0.0 then Err(DIVISION_BY_ZERO) else Ok(Float(x / y))
    case (Integer(x), Float(y)) => if y == 0.0 then Err(DIVISION_BY_ZERO) else Ok(Float(x as real / y))
    case (Float(x), Integer(y)) => if y == 0 then Err(DIVISION_BY_ZERO) else Ok(Float(x / y as real))
    case _ => Err(Errors.TypeError(CannotText("divide", a, b)))
  }

  /** `modulo_values`: only for two Integers, with Rust's truncating remainder. */
  function ModuloValues(a: Value, b: Value): Result<Value, FlowError>
    requires !ModuloPanics(a, b)
  {
    match (a, b)
    case (Integer(x), Integer(y)) => if y == 0 then Err(MODULO_BY_ZERO) else Ok(Integer(TruncRem(x, y)))
    case _ => Err(Errors.TypeError(CannotText("modulo", a, b)))
  }

  // ---------------------------------------------------------------------
  // values_equal and compare_values
  // ---------------------------------------------------------------------

  /**
   * The VM's `values_equal`: the constant pool's equality (Bytecode.PoolEqual)
   * plus an Integer and a Float closer than f64::EPSILON.
   */
  predicate ValuesEqual(a: Value, b: Value)
  {
    match (a, b)
    case (Integer(x), Float(y)) => Bytecode.Abs(x as real - y) < EPSILON
    case (Float(x), Integer(y)) => Bytecode.Abs(x - y as real) < EPSILON
    case _ => PoolEqual(a, b)
  }

  /** `compare_values` before the operator's test: numbers against numbers, strings against strings. */
  function CompareValues(a: Value, b: Value): Result<BigNum.Ordering, FlowError>
  {
    match (a, b)
    case (Integer(x), Integer(y)) => Ok(BigNum.CompareInt(x, y))
    case (Float(x), Float(y)) => Ok(CompareReal(x, y))
    case (Integer(x), Float(y)) => Ok(CompareReal(x as real, y))
    case (Float(x), Integer(y)) => Ok(CompareReal(x, y as real))
    case (Str(x), Str(y)) => Ok(Strings.CompareStrings(x, y))
    case _ => Err(Errors.TypeError(CannotText("compare", a, b)))
  }

  // ---------------------------------------------------------------------
  // The binary instructions
  // ---------------------------------------------------------------------

  predicate IsBinary(i: Instruction)
  {
    i.Add? || i.Subtract? || i.Multiply? || i.Divide? || i.Modulo? || i.Equal? || i.NotEqual? ||
    i.Greater? || i.GreaterEqual? || i.Less? || i.LessEqual?
  }

  predicate BinaryPanics(i: Instruction, a: Value, b: Value)
  {
    (i.Add? && AddPanics(a, b)) || (i.Subtract? && SubtractPanics(a, b)) ||
    (i.Multiply? && MultiplyPanics(a, b)) || (i.Modulo? && ModuloPanics(a, b))
  }

  /** The comparison instruction's test on the ordering of its operands. */
  function OrderingTest(i: Instruction, o: BigNum.Ordering): bool
    requires i.Greater? || i.GreaterEqual? || i.Less? || i.LessEqual?
  {
    if i.Greater? then o == BigNum.Greater
    else if i.GreaterEqual? then o != BigNum.Less
    else if i.Less? then o == BigNum.Less
    else o != BigNum.Greater
  }

  /** The value a binary instruction pushes for operands `a` (pushed first) and `b`. */
  function Binary(i: Instruction, a: Value, b: Value): Result<Value, FlowError>
    requires IsBinary(i) && !BinaryPanics(i, a, b)
  {
    if i.Add? then AddValues(a, b)
    else if i.Subtract? then SubtractValues(a, b)
    else if i.Multiply? then MultiplyValues(a, b)
    else if i.Divide? then DivideValues(a, b)
    else if i.Modulo? then ModuloValues(a, b)
    else if i.Equal? then Ok(Boolean(ValuesEqual(a, b)))
    else if i.NotEqual? then Ok(Boolean(!ValuesEqual(a, b)))
    else
      match CompareValues(a, b)
      case Ok(o) => Ok(Boolean(OrderingTest(i, o)))
      case Err(e) => Err(e)
  }

  // ---------------------------------------------------------------------
  // The built-in functions
  // ---------------------------------------------------------------------

  const BUILTIN_NAMES: set<string> := {"show", "print", "len", "type", "str", "int", "float"}

  /** A usize reinterpreted as an i64 (`as i64`): wraps past i64::MAX. */
  function UsizeAsI64(n: nat): int
  {
    SignedOf(n % U64)
  }

  /** `builtin_len`: bytes of a string's UTF-8 form, elements of an array, properties of an object. */
  function BuiltinLen(v: Value): Result<Value, FlowError>
  {
    match v
    case Str(s) => Ok(Integer(UsizeAsI64(|Utf8.Encode(s)|)))
    case Array(items) => Ok(Integer(UsizeAsI64(|items|)))
    case Object(props) => Ok(Integer(UsizeAsI64(|props|)))
    case _ => Err(Errors.RuntimeErrorNoLine("len() can only be called on strings, arrays, or objects"))
  }

  /** `builtin_type`: the type name, except that a bytecode function reports itself as "function". */
  function BuiltinType(v: Value): Value
  {
    Str(if v.BytecodeFunction? then "function" else TypeName(v))
  }

  /** `f as i64`: truncation toward zero, saturating at the ends of the i64 range. */
  function FloatAsI64(f: real): (r: int)
    ensures Ast.IsI64(r)
  {
    var t := if f >= 0.0 then f.Floor else -((-f).Floor);
    if t < I64_MIN then I64_MIN else if t > I64_MAX then I64_MAX else t
  }

  /** `builtin_int`. */
  function BuiltinInt(v: Value): Result<Value, FlowError>
  {
    match v
    case Integer(i) => Ok(Integer(i))
    case Float(f) => Ok(Integer(FloatAsI64(f)))
    case Str(s) =>
      (match Ast.ParseI64(s)
       case Some(i) => Ok(Integer(i))
       case None => Err(Errors.RuntimeErrorNoLine("Cannot convert '" + (s + "' to integer"))))
    case Boolean(b) => Ok(Integer(if b then 1 else 0))
    case _ => Err(Errors.RuntimeErrorNoLine("Cannot convert value to integer"))
  }

  /**
   * `builtin_float`. Parsing a string as an f64 is Rust's `str::parse::<f64>`,
   * which this model takes as the parameter `parseFloat`.
   */
  function BuiltinFloat(v: Value, parseFloat: string -> Option<real>): Result<Value, FlowError>
  {
    match v
    case Integer(i) => Ok(Float(i as real))
    case Float(f) => Ok(Float(f))
    case Str(s) =>
      (match parseFloat(s)
       case Some(f) => Ok(Float(f))
       case None => Err(Errors.RuntimeErrorNoLine("Cannot convert '" + (s + "' to float"))))
    case Boolean(b) => Ok(Float(if b then 1.0 else 0.0))
    case _ => Err(Errors.RuntimeErrorNoLine("Cannot convert value to float"))
  }

  /**
   * Calls the built-in `name` on `args`, giving its result and the console
   * output after it: `show` writes the value and a newline, `print` the value
   * alone. Every built-in takes exactly one argument.
   */
  function Builtin(name: string, args: seq<Value>, output: string, parseFloat: string -> Option<real>)
    : (r: Result<(Value, string), FlowError>)
    requires name in BUILTIN_NAMES
    ensures |args| != 1 ==> r == Err(Errors.RuntimeErrorNoLine(name + "() takes exactly 1 argument"))
    ensures r.Ok? && name != "show" && name != "print" ==> r.value.1 == output
    ensures r.Ok? ==> output <= r.value.1
  {
    if |args| != 1 then Err(Errors.RuntimeErrorNoLine(name + "() takes exactly 1 argument"))
    else
      var v := args[0];
      if name == "show" then Ok((Null, output + (ValueText(v) + "\n")))
      else if name == "print" then Ok((Null, output + ValueText(v)))
      else
        var r :=
          if name == "len" then BuiltinLen(v)
          else if name == "type" then Ok(BuiltinType(v))
          else if name == "str" then Ok(Str(ValueText(v)))
          else if name == "int" then BuiltinInt(v)
          else BuiltinFloat(v, parseFloat);
        match r
        case Ok(x) => Ok((x, output))
        case Err(e) => Err(e)
  }

  // ---------------------------------------------------------------------
  // The machine state and one step of `run`
  // ---------------------------------------------------------------------

  /** A call frame's local slots (the frame's other fields are never read by `run`). */
  datatype Frame = Frame(locals: seq<Value>)

  /**
   * The parts of the VM that `run` reads and changes: the value stack, the
   * call frames, the globals, the instruction pointer and the console output
   * written so far.
   */
  datatype Machine = Machine(stack: seq<Value>, frames: seq<Frame>, globals: map<string, Value>, ip: nat, output: string)

  /**
   * How a step ends. `Continue` goes on to the next instruction; `Stop` is
   * `run` returning Ok (Halt, or the end of the code); `Fail` is `run`
   * returning that error; `Panic` is a Rust panic (an arithmetic overflow);
   * `Delegate` is a call whose body the tree-walking interpreter would run,
   * which this model does not follow; `OutOfFuel` ends a run cut short after
   * the number of steps it was given.
   */
  datatype Status = Continue | Stop | Fail(error: FlowError) | Panic | Delegate | OutOfFuel

  function Top(m: Machine): Value requires |m.stack| > 0 { m.stack[|m.stack| - 1] }

  function DropTop(m: Machine): Machine requires |m.stack| > 0 { m.(stack := m.stack[..|m.stack| - 1]) }

  function PushOnto(m: Machine, v: Value): Machine { m.(stack := m.stack + [v]) }

  /** LoadConstant, LoadLocal, StoreLocal, LoadGlobal and StoreGlobal. */
  function ExecVariable(constants: seq<Value>, i: Instruction, m: Machine): (r: (Machine, Status))
    requires i.LoadConstant? || i.LoadLocal? || i.StoreLocal? || i.LoadGlobal? || i.StoreGlobal?
    ensures r.0.ip == m.ip && r.0.output == m.output && |r.0.frames| == |m.frames|
    ensures !i.StoreLocal? ==> r.0.frames == m.frames
    ensures !i.StoreGlobal? ==> r.0.globals == m.globals
  {
    match i
    case LoadConstant(k) =>
      if k >= |constants| then (m, Fail(INVALID_CONSTANT))
      else (PushOnto(m, constants[k]), Continue)
    case LoadLocal(k) =>
      if |m.frames| == 0 then (m, Fail(NO_FRAME_FOR_LOAD))
      else if k >= |m.frames[|m.frames| - 1].locals| then (m, Fail(INVALID_LOCAL))
      else (PushOnto(m, m.frames[|m.frames| - 1].locals[k]), Continue)
    case StoreLocal(k) =>
      if |m.stack| == 0 then (m, Fail(UNDERFLOW))
      else
        var p := DropTop(m);
        if |m.frames| == 0 then (p, Fail(NO_FRAME_FOR_STORE))
        else
          var f := m.frames[|m.frames| - 1];
          if k >= |f.locals| then (p, Fail(INVALID_LOCAL))
          else (p.(frames := m.frames[|m.frames| - 1 := Frame(f.locals[k := Top(m)])]), Continue)
    case LoadGlobal(name) =>
      if name in m.globals then (PushOnto(m, m.globals[name]), Continue)
      else (m, Fail(Errors.UndefinedVariable(name)))
    case StoreGlobal(name) =>
      if |m.stack| == 0 then (m, Fail(UNDERFLOW))
      else (DropTop(m).(globals := m.globals[name := Top(m)]), Continue)
  }

  /** A binary instruction: at least two values, the top two replaced by the result. */
  function ExecBinary(i: Instruction, m: Machine): (r: (Machine, Status))
    requires IsBinary(i)
    ensures r.0 == m.(stack := r.0.stack)
  {
    var n := |m.stack|;
    if n < 2 then (m, Fail(UNDERFLOW))
    else
      var a, b, rest := m.stack[n - 2], m.stack[n - 1], m.stack[..n - 2];
      if BinaryPanics(i, a, b) then (m.(stack := rest), Panic)
      else match Binary(i, a, b)
        case Ok(v) => (m.(stack := rest + [v]), Continue)
        case Err(e) => (m.(stack := rest), Fail(e))
  }

  /** Not, Negate, Jump, JumpIfFalse, Print and Pop. */
  function ExecSimple(i: Instruction, m: Machine): (r: (Machine, Status))
    requires i.Not? || i.Negate? || i.Jump? || i.JumpIfFalse? || i.Print? || i.Pop?
    ensures r.0.frames == m.frames && r.0.globals == m.globals && m.output <= r.0.output
    ensures !i.Jump? && !i.JumpIfFalse? ==> r.0.ip == m.ip
  {
    if i.Jump? then (m.(ip := i.target), Continue)
    else if |m.stack| == 0 then (m, Fail(UNDERFLOW))
    else
      var v, p := Top(m), DropTop(m);
      match i
      case Not => (PushOnto(p, Boolean(!IsTruthy(v))), Continue)
      case Negate =>
        (match v
         case Integer(x) => if x == I64_MIN then (p, Panic) else (PushOnto(p, Integer(-x)), Continue)
         case Float(f) => (PushOnto(p, Float(-f)), Continue)
         case _ => (p, Fail(Errors.TypeError("Cannot negate " + TypeName(v)))))
      case JumpIfFalse(t) => (if IsTruthy(v) then p else p.(ip := t), Continue)
      case Print => (p.(output := m.output + (ValueText(v) + "\n")), Continue)
      case Pop => (p, Continue)
  }

  /**
   * CallBuiltin: the top of the stack is the argument count, an Integer; the
   * arguments below it are passed in the order they were pushed.
   */
  function ExecBuiltin(name: string, m: Machine, parseFloat: string -> Option<real>): (r: (Machine, Status))
    ensures r.0 == m.(stack := r.0.stack, output := r.0.output) && m.output <= r.0.output
  {
    if name !in BUILTIN_NAMES then (m, Fail(Errors.RuntimeErrorNoLine(UNKNOWN_BUILTIN + name)))
    else if |m.stack| == 0 then (m, Fail(EXPECTED_COUNT))
    else
      var p := DropTop(m);
      if !Top(m).Integer? then (p, Fail(EXPECTED_COUNT))
      else
        // A negative count becomes a huge usize, more than the stack can hold.
        var count := Top(m).i;
        if count < 0 || |p.stack| < count then (p, Fail(TOO_FEW_BUILTIN_ARGS))
        else
          var k := |p.stack| - count;
          var below := p.(stack := p.stack[..k]);
          match Builtin(name, p.stack[k..], m.output, parseFloat)
          case Ok((v, out)) => (PushOnto(below, v).(output := out), Continue)
          case Err(e) => (below, Fail(e))
  }

  /** NewArray, GetIndex and SetIndex. */
  function ExecArray(i: Instruction, m: Machine): (r: (Machine, Status))
    requires i.NewArray? || i.GetIndex? || i.SetIndex?
    ensures r.0 == m.(stack := r.0.stack)
  {
    var n := |m.stack|;
    match i
    case NewArray(size) =>
      if n < size then (m, Fail(TOO_FEW_ELEMENTS))
      else (m.(stack := m.stack[..n - size] + [Array(m.stack[n - size..])]), Continue)
    case GetIndex =>
      if n < 2 then (m, Fail(INDEX_UNDERFLOW))
      else
        var target, index, rest := m.stack[n - 2], m.stack[n - 1], m.(stack := m.stack[..n - 2]);
        if target.Array? && index.Integer? then
          if 0 <= index.i < |target.elements| then (PushOnto(rest, target.elements[index.i]), Continue)
          else (rest, Fail(INDEX_OUT_OF_BOUNDS))
        else (rest, Fail(INVALID_INDEX))
    case SetIndex =>
      if n < 3 then (m, Fail(INDEX_ASSIGNMENT_UNDERFLOW))
      else
        var target, index, value, rest := m.stack[n - 3], m.stack[n - 2], m.stack[n - 1], m.(stack := m.stack[..n - 3]);
        if target.Array? && index.Integer? then
          if 0 <= index.i < |target.elements| then
            (PushOnto(rest, Array(target.elements[index.i := value])), Continue)
          else (rest, Fail(INDEX_OUT_OF_BOUNDS))
        else (rest, Fail(INVALID_INDEX_ASSIGNMENT))
  }

  /** NewObject, GetProperty and SetProperty. */
  function ExecObject(i: Instruction, m: Machine): (r: (Machine, Status))
    requires i.NewObject? || i.GetProperty? || i.SetProperty?
    ensures r.0 == m.(stack := r.0.stack)
  {
    var n := |m.stack|;
    match i
    case NewObject => (PushOnto(m, Object(map[])), Continue)
    case GetProperty(name) =>
      if n == 0 then (m, Fail(UNDERFLOW))
      else
        var receiver, rest := Top(m), DropTop(m);
        if receiver.Object? then
          (PushOnto(rest, if name in receiver.properties then receiver.properties[name] else Null), Continue)
        else (rest, Fail(PROPERTY_OF_NON_OBJECT))
    case SetProperty(name) =>
      if n < 2 then (m, Fail(PROPERTY_ASSIGNMENT_UNDERFLOW))
      else
        var receiver, value, rest := m.stack[n - 2], m.stack[n - 1], m.(stack := m.stack[..n - 2]);
        if receiver.Object? then (PushOnto(rest, Object(receiver.properties[name := value])), Continue)
        else (rest, Fail(PROPERTY_ASSIGNMENT_TO_NON_OBJECT))
  }

  /**
   * Call: the callee is on top, its arguments below it. A function with an
   * empty body returns Null; any other body is run by the tree-walking
   * interpreter, which this model does not follow (`Delegate`). Any other
   * value, a bytecode function included, cannot be called.
   */
  function ExecCall(argc: nat, m: Machine): (r: (Machine, Status))
    ensures r.0 == m.(stack := r.0.stack)
  {
    if |m.stack| == 0 then (m, Fail(NO_FUNCTION))
    else
      var f, p := Top(m), DropTop(m);
      if |p.stack| < argc then (p.(stack := []), Fail(TOO_FEW_CALL_ARGS))
      else
        var below := p.(stack := p.stack[..|p.stack| - argc]);
        if !f.Function? then (below, Fail(NOT_CALLABLE))
        else if f.body == [] then (PushOnto(below, Null), Continue)
        else (below, Delegate)
  }

  /** The placeholders NewFunction and NewClosure push. */
  const ANONYMOUS := Function("anonymous", [], [])
  const CLOSURE := Function("closure", [], [])

  /** The instructions `run` has no arm for. */
  predicate Unimplemented(i: Instruction)
  {
    i.Duplicate? || i.Swap? || i.And? || i.Or? || i.JumpIfTrue? || i.Return? || i.ReturnValue?
  }

  /** The Debug text of an instruction `run` has no arm for. */
  function DebugText(i: Instruction): string
    requires Unimplemented(i)
  {
    match i
    case Duplicate => "Duplicate"
    case Swap => "Swap"
    case And => "And"
    case Or => "Or"
    case JumpIfTrue(t) => "JumpIfTrue(" + (BigNum.NatToString(t) + ")")
    case Return => "Return"
    case ReturnValue => "ReturnValue"
  }

  /** Executes one fetched instruction; the instruction pointer already points past it. */
  function Execute(constants: seq<Value>, i: Instruction, m: Machine, parseFloat: string -> Option<real>): (r: (Machine, Status))
    ensures |r.0.frames| == |m.frames| && m.output <= r.0.output
    ensures !i.Jump? && !i.JumpIfFalse? ==> r.0.ip == m.ip
  {
    if i.LoadConstant? || i.LoadLocal? || i.StoreLocal? || i.LoadGlobal? || i.StoreGlobal? then
      ExecVariable(constants, i, m)
    else if IsBinary(i) then ExecBinary(i, m)
    else if i.Not? || i.Negate? || i.Jump? || i.JumpIfFalse? || i.Print? || i.Pop? then ExecSimple(i, m)
    else if i.CallBuiltin? then ExecBuiltin(i.builtinName, m, parseFloat)
    else if i.NewArray? || i.GetIndex? || i.SetIndex? then ExecArray(i, m)
    else if i.NewObject? || i.GetProperty? || i.SetProperty? then ExecObject(i, m)
    else if i.NewFunction? then (PushOnto(m, ANONYMOUS), Continue)
    else if i.NewClosure? then (PushOnto(m, CLOSURE), Continue)
    else if i.Call? then ExecCall(i.argc, m)
    else if i.CallMethod? then (m, Fail(NO_METHOD_CALLS))
    else if i.Halt? then (m, Stop)
    else (m, Fail(Errors.RuntimeErrorNoLine(UNIMPLEMENTED + DebugText(i))))
  }

  /** One iteration of `run`: stop at the end of the code, else fetch, advance the instruction pointer, execute. */
  function Step(code: seq<Instruction>, constants: seq<Value>, m: Machine, parseFloat: string -> Option<real>): (Machine, Status)
  {
    if m.ip >= |code| then (m, Stop)
    else Execute(constants, code[m.ip], m.(ip := m.ip + 1), parseFloat)
  }

  /** At most `fuel` iterations of `run`, from `m`. */
  function Exec(code: seq<Instruction>, constants: seq<Value>, m: Machine, fuel: nat, parseFloat: string -> Option<real>): (Machine, Status)
    decreases fuel
  {
    if fuel == 0 then (m, OutOfFuel)
    else
      var (next, status) := Step(code, constants, m, parseFloat);
      if status == Continue then Exec(code, constants, next, fuel - 1, parseFloat) else (next, status)
  }

  /** With fuel left and the instruction pointer past the code, the run stops where it is. */
  lemma ExecStopsAtEnd(code: seq<Instruction>, constants: seq<Value>, m: Machine, fuel: nat, parseFloat: string -> Option<real>)
    requires fuel > 0 && m.ip >= |code|
    ensures Exec(code, constants, m, fuel, parseFloat) == (m, Stop)
  {
    hide Execute;
  }

  /** With fuel left and an instruction to fetch, the run executes it and goes on unless it stopped. */
  lemma ExecFetches(code: seq<Instruction>, constants: seq<Value>, m: Machine, fuel: nat, parseFloat: string -> Option<real>)
    requires fuel > 0 && m.ip < |code|
    ensures var (next, status) := Execute(constants, code[m.ip], m.(ip := m.ip + 1), parseFloat);
      Exec(code, constants, m, fuel, parseFloat) ==
        if status == Continue then Exec(code, constants, next, fuel - 1, parseFloat) else (next, status)
  {
    hide Execute;
  }

  // ---------------------------------------------------------------------
  // VirtualMachine
  // ---------------------------------------------------------------------

  /** A loaded chunk as `run` reads it: its code and its constant pool. */
  datatype ChunkData = ChunkData(code: seq<Instruction>, constants: seq<Value>)

  /**
   * `VirtualMachine`. The built-in table is the fixed set BUILTIN_NAMES; the
   * garbage-collection counters and the unused `locals` and `constant_pool`
   * fields are not part of this model.
   */
  class VirtualMachine {
    var stack: seq<Value>
    var frames: seq<Frame>
    var chunks: seq<ChunkData>
    var currentChunk: nat
    var ip: nat
    var globals: map<string, Value>
    var output: string

    function State(): Machine
      reads this
    {
      Machine(stack, frames, globals, ip, output)
    }

    /** `VirtualMachine::new`: nothing loaded, an empty stack, no frames and no globals. */
    constructor()
      ensures State() == Machine([], [], map[], 0, "")
      ensures chunks == [] && currentChunk == 0
    {
      stack := [];
      frames := [];
      chunks := [];
      currentChunk := 0;
      ip := 0;
      globals := map[];
      output := "";
    }

    /** `load_chunk`: appends the chunk; the first chunk loaded becomes current and runs from its start. */
    method LoadChunk(chunk: Chunk)
      modifies this`chunks, this`currentChunk, this`ip
      ensures chunks == old(chunks) + [ChunkData(chunk.instructions, chunk.constants)]
      ensures |old(chunks)| == 0 ==> currentChunk == 0 && ip == 0
      ensures |old(chunks)| != 0 ==> currentChunk == old(currentChunk) && ip == old(ip)
    {
      chunks := chunks + [ChunkData(chunk.instructions, chunk.constants)];
      if |chunks| == 1 {
        currentChunk := 0;
        ip := 0;
      }
    }

    method PushValue(v: Value)
      modifies this`stack
      ensures State() == PushOnto(old(State()), v)
    {
      stack := stack + [v];
    }

    method PopValue() returns (v: Value)
      requires |stack| > 0
      modifies this`stack
      ensures v == Top(old(State())) && State() == DropTop(old(State()))
    {
      v := stack[|stack| - 1];
      stack := stack[..|stack| - 1];
    }

    /** Pops `count` values and returns them in the order they were pushed. */
    method PopMany(count: nat) returns (values: seq<Value>)
      requires count <= |stack|
      modifies this`stack
      ensures values == old(stack)[|old(stack)| - count..]
      ensures stack == old(stack)[..|old(stack)| - count]
    {
      values := [];
      var k := 0;
      while k < count
        invariant k <= count
        invariant stack == old(stack)[..|old(stack)| - k]
        invariant values == old(stack)[|old(stack)| - k..]
      {
        var v := PopValue();
        // Prepending keeps the push order, as the source's `reverse` after the pops does.
        values := [v] + values;
        k := k + 1;
      }
    }

    method ExecuteVariable(constants: seq<Value>, instruction: Instruction) returns (status: Status)
      requires instruction.LoadConstant? || instruction.LoadLocal? || instruction.StoreLocal? ||
               instruction.LoadGlobal? || instruction.StoreGlobal?
      modifies this`stack, this`frames, this`globals
      ensures (State(), status) == ExecVariable(constants, instruction, old(State()))
    {
      match instruction {
      case LoadConstant(index) =>
        if index >= |constants| {
          return Fail(INVALID_CONSTANT);
        }
        PushValue(constants[index]);
      case LoadLocal(index) =>
        if |frames| == 0 {
          return Fail(NO_FRAME_FOR_LOAD);
        }
        var frame := frames[|frames| - 1];
        if index >= |frame.locals| {
          return Fail(INVALID_LOCAL);
        }
        PushValue(frame.locals[index]);
      case StoreLocal(index) =>
        if |stack| == 0 {
          return Fail(UNDERFLOW);
        }
        var value := PopValue();
        if |frames| == 0 {
          return Fail(NO_FRAME_FOR_STORE);
        }
        var frame := frames[|frames| - 1];
        if index >= |frame.locals| {
          return Fail(INVALID_LOCAL);
        }
        frames := frames[|frames| - 1 := Frame(frame.locals[index := value])];
      case LoadGlobal(name) =>
        if name !in globals {
          return Fail(Errors.UndefinedVariable(name));
        }
        PushValue(globals[name]);
      case StoreGlobal(name) =>
        if |stack| == 0 {
          return Fail(UNDERFLOW);
        }
        var value := PopValue();
        globals := globals[name := value];
      }
      status := Continue;
    }

    method ExecuteBinary(instruction: Instruction) returns (status: Status)
      requires IsBinary(instruction)
      modifies this`stack
      ensures (State(), status) == ExecBinary(instruction, old(State()))
    {
      if |stack| < 2 {
        return Fail(UNDERFLOW);
      }
      var b := PopValue();
      var a := PopValue();
      assert stack == old(stack)[..|old(stack)| - 2];
      if BinaryPanics(instruction, a, b) {
        return Panic;
      }
      var result := Binary(instruction, a, b);
      if result.Err? {
        return Fail(result.error);
      }
      PushValue(result.value);
      status := Continue;
    }

    method ExecuteSimple(instruction: Instruction) returns (status: Status)
      requires instruction.Not? || instruction.Negate? || instruction.Jump? || instruction.JumpIfFalse? ||
               instruction.Print? || instruction.Pop?
      modifies this`stack, this`ip, this`output
      ensures (State(), status) == ExecSimple(instruction, old(State()))
    {
      if instruction.Jump? {
        ip := instruction.target;
        return Continue;
      }
      if |stack| == 0 {
        return Fail(UNDERFLOW);
      }
      var value := PopValue();
      status := Continue;
      match instruction
      case Not =>
        PushValue(Boolean(!IsTruthy(value)));
      case Negate =>
        match value {
          case Integer(x) =>
            if x == I64_MIN {
              return Panic;
            }
            PushValue(Integer(-x));
          case Float(f) =>
            PushValue(Float(-f));
          case _ =>
            return Fail(Errors.TypeError("Cannot negate " + TypeName(value)));
        }
      case JumpIfFalse(address) =>
        if !IsTruthy(value) {
          ip := address;
        }
      case Print =>
        output := output + (ValueText(value) + "\n");
      case Pop =>
    }

    method ExecuteBuiltin(name: string, parseFloat: string -> Option<real>) returns (status: Status)
      modifies this`stack, this`output
      ensures (State(), status) == ExecBuiltin(name, old(State()), parseFloat)
    {
      if name !in BUILTIN_NAMES {
        return Fail(Errors.RuntimeErrorNoLine(UNKNOWN_BUILTIN + name));
      }
      if |stack| == 0 {
        return Fail(EXPECTED_COUNT);
      }
      var top := PopValue();
      if !top.Integer? {
        return Fail(EXPECTED_COUNT);
      }
      if top.i < 0 || |stack| < top.i {
        return Fail(TOO_FEW_BUILTIN_ARGS);
      }
      var args := PopMany(top.i);
      var result := Builtin(name, args, output, parseFloat);
      if result.Err? {
        return Fail(result.error);
      }
      PushValue(result.value.0);
      output := result.value.1;
      status := Continue;
    }

    method ExecuteNewArray(size: nat) returns (status: Status)
      modifies this`stack
      ensures (State(), status) == ExecArray(NewArray(size), old(State()))
    {
      if |stack| < size {
        return Fail(TOO_FEW_ELEMENTS);
      }
      var elements := PopMany(size);
      PushValue(Array(elements));
      status := Continue;
    }

    method ExecuteGetIndex() returns (status: Status)
      modifies this`stack
      ensures (State(), status) == ExecArray(GetIndex, old(State()))
    {
      if |stack| < 2 {
        return Fail(INDEX_UNDERFLOW);
      }
      var index := PopValue();
      var target := PopValue();
      assert stack == old(stack)[..|old(stack)| - 2];
      if !(target.Array? && index.Integer?) {
        return Fail(INVALID_INDEX);
      }
      if !(0 <= index.i < |target.elements|) {
        return Fail(INDEX_OUT_OF_BOUNDS);
      }
      PushValue(target.elements[index.i]);
      status := Continue;
    }

    method ExecuteSetIndex() returns (status: Status)
      modifies this`stack
      ensures (State(), status) == ExecArray(SetIndex, old(State()))
    {
      if |stack| < 3 {
        return Fail(INDEX_ASSIGNMENT_UNDERFLOW);
      }
      var value := PopValue();
      var index := PopValue();
      var target := PopValue();
      assert stack == old(stack)[..|old(stack)| - 3];
      if !(target.Array? && index.Integer?) {
        return Fail(INVALID_INDEX_ASSIGNMENT);
      }
      if !(0 <= index.i < |target.elements|) {
        return Fail(INDEX_OUT_OF_BOUNDS);
      }
      PushValue(Array(target.elements[index.i := value]));
      status := Continue;
    }

    method ExecuteObject(instruction: Instruction) returns (status: Status)
      requires instruction.NewObject? || instruction.GetProperty? || instruction.SetProperty?
      modifies this`stack
      ensures (State(), status) == ExecObject(instruction, old(State()))
    {
      status := Continue;
      match instruction
      case NewObject =>
        PushValue(Object(map[]));
      case GetProperty(name) =>
        if |stack| == 0 {
          return Fail(UNDERFLOW);
        }
        var receiver := PopValue();
        if !receiver.Object? {
          return Fail(PROPERTY_OF_NON_OBJECT);
        }
        if name in receiver.properties {
          PushValue(receiver.properties[name]);
        } else {
          PushValue(Null);
        }
      case SetProperty(name) =>
        if |stack| < 2 {
          return Fail(PROPERTY_ASSIGNMENT_UNDERFLOW);
        }
        var value := PopValue();
        var receiver := PopValue();
        assert stack == old(stack)[..|old(stack)| - 2];
        if !receiver.Object? {
          return Fail(PROPERTY_ASSIGNMENT_TO_NON_OBJECT);
        }
        PushValue(Object(receiver.properties[name := value]));
    }

    method ExecuteCall(argc: nat) returns (status: Status)
      modifies this`stack
      ensures (State(), status) == ExecCall(argc, old(State()))
    {
      if |stack| == 0 {
        return Fail(NO_FUNCTION);
      }
      var callee := PopValue();
      if |stack| < argc {
        // The source pops until the stack runs dry, then fails.
        stack := [];
        return Fail(TOO_FEW_CALL_ARGS);
      }
      var args := PopMany(argc);
      if !callee.Function? {
        return Fail(NOT_CALLABLE);
      }
      if callee.body != [] {
        return Delegate;
      }
      // A frame is pushed for the call and popped after it; an empty body returns Null.
      PushValue(Null);
      status := Continue;
    }

    /** Executes one fetched instruction, as `Execute` specifies. */
    method ExecuteInstruction(constants: seq<Value>, instruction: Instruction, parseFloat: string -> Option<real>)
      returns (status: Status)
      modifies this`stack, this`frames, this`globals, this`ip, this`output
      ensures (State(), status) == Execute(constants, instruction, old(State()), parseFloat)
    {
      // Each group's own method is proved against that group's function.
      hide ExecVariable;
      hide ExecBinary;
      hide ExecSimple;
      hide ExecBuiltin;
      hide ExecArray;
      hide ExecObject;
      hide ExecCall;
      var i := instruction;
      if i.LoadConstant? || i.LoadLocal? || i.StoreLocal? || i.LoadGlobal? || i.StoreGlobal? {
        status := ExecuteVariable(constants, i);
      } else if IsBinary(i) {
        status := ExecuteBinary(i);
      } else if i.Not? || i.Negate? || i.Jump? || i.JumpIfFalse? || i.Print? || i.Pop? {
        status := ExecuteSimple(i);
      } else if i.CallBuiltin? {
        status := ExecuteBuiltin(i.builtinName, parseFloat);
      } else if i.NewArray? {
        status := ExecuteNewArray(i.size);
      } else if i.GetIndex? {
        status := ExecuteGetIndex();
      } else if i.SetIndex? {
        status := ExecuteSetIndex();
      } else if i.NewObject? || i.GetProperty? || i.SetProperty? {
        status := ExecuteObject(i);
      } else if i.NewFunction? {
        PushValue(ANONYMOUS);
        status := Continue;
      } else if i.NewClosure? {
        PushValue(CLOSURE);
        status := Continue;
      } else if i.Call? {
        status := ExecuteCall(i.argc);
      } else if i.CallMethod? {
        status := Fail(NO_METHOD_CALLS);
      } else if i.Halt? {
        status := Stop;
      } else {
        status := Fail(Errors.RuntimeErrorNoLine(UNIMPLEMENTED + DebugText(i)));
      }
    }

    /**
     * `run`, for at most `fuel` iterations: the final state and status are the
     * ones `Exec` gives. With no chunk to run it panics, as indexing the
     * chunk list does.
     */
    method Run(fuel: nat, parseFloat: string -> Option<real>) returns (status: Status)
      modifies this`stack, this`frames, this`globals, this`ip, this`output
      ensures currentChunk >= |chunks| ==> status == Panic && State() == old(State())
      ensures currentChunk < |chunks| ==>
        (State(), status) == Exec(chunks[currentChunk].code, chunks[currentChunk].constants, old(State()), fuel, parseFloat)
    {
      // The loop needs only the contracts of the step, not its definition.
      hide Step;
      hide Execute;
      if currentChunk >= |chunks| {
        return Panic;
      }
      var code := chunks[currentChunk].code;
      var constants := chunks[currentChunk].constants;
      var remaining := fuel;
      while true
        invariant Exec(code, constants, State(), remaining, parseFloat) == Exec(code, constants, old(State()), fuel, parseFloat)
        decreases remaining
      {
        if remaining == 0 {
          return OutOfFuel;
        }
        if ip >= |code| {
          ExecStopsAtEnd(code, constants, State(), remaining, parseFloat);
          return Stop;
        }
        ghost var before := State();
        ExecFetches(code, constants, before, remaining, parseFloat);
        var instruction := code[ip];
        ip := ip + 1;
        status := ExecuteInstruction(constants, instruction, parseFloat);
        if status != Continue {
          return;
        }
        remaining := remaining - 1;
      }
    }
  }
}
