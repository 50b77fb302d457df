/**
 * What the bytecode virtual machine's steps promise: the fetch-execute
 * protocol, the shape of the stack around each kind of instruction, the exact
 * integer arithmetic with promotion to BigInteger, the equality and ordering
 * of values, and a complete run of a small program.
 */
module VmProperties {
  import opened Wrappers
  import opened Values
  import opened Bytecode
  import opened Vm
  import BigNum
  import Errors
  import Strings
  import Utf8
  import Ast

  // ---------------------------------------------------------------------
  // The fetch-execute protocol
  // ---------------------------------------------------------------------

  /** Halt stops the run and changes nothing. */
  lemma HaltStops(constants: seq<Value>, m: Machine, pf: string -> Option<real>)
    ensures Execute(constants, Halt, m, pf) == (m, Stop)
  {
    hide ExecVariable;
    hide ExecBinary;
    hide ExecSimple;
    hide ExecBuiltin;
    hide ExecArray;
    hide ExecObject;
    hide ExecCall;
  }

  /**
   * Every instruction but the two jumps leaves the instruction pointer where the fetch put
   * it, one past the instruction; only Jump and JumpIfFalse move it.
   */
  lemma StepAdvancesPointer(code: seq<Instruction>, constants: seq<Value>, m: Machine, pf: string -> Option<real>)
    requires m.ip < |code| && !code[m.ip].Jump? && !code[m.ip].JumpIfFalse?
    ensures Step(code, constants, m, pf).0.ip == m.ip + 1
  {
    hide Execute;
  }

  /** Jump sets the instruction pointer to its operand: an absolute address, not a distance. */
  lemma JumpIsAbsolute(constants: seq<Value>, target: nat, m: Machine, pf: string -> Option<real>)
    ensures Execute(constants, Jump(target), m, pf) == (m.(ip := target), Continue)
  {
    hide ExecVariable;
    hide ExecBinary;
    hide ExecBuiltin;
    hide ExecArray;
    hide ExecObject;
    hide ExecCall;
  }

  /**
   * JumpIfFalse pops the condition and jumps to its absolute operand exactly
   * when the condition is falsy; on an empty stack it fails and changes nothing.
   */
  lemma JumpIfFalsePopsAndJumps(constants: seq<Value>, target: nat, m: Machine, pf: string -> Option<real>)
    ensures |m.stack| == 0 ==> Execute(constants, JumpIfFalse(target), m, pf) == (m, Fail(UNDERFLOW))
    ensures |m.stack| > 0 ==>
      Execute(constants, JumpIfFalse(target), m, pf) ==
        (m.(stack := m.stack[..|m.stack| - 1], ip := if IsTruthy(Top(m)) then m.ip else target), Continue)
  {
    hide ExecVariable;
    hide ExecBinary;
    hide ExecBuiltin;
    hide ExecArray;
    hide ExecObject;
    hide ExecCall;
  }

  /** The instructions `run` has no arm for fail with an "Unimplemented instruction" error and change nothing. */
  lemma UnimplementedFails(constants: seq<Value>, i: Instruction, m: Machine, pf: string -> Option<real>)
    requires Unimplemented(i)
    ensures Execute(constants, i, m, pf) == (m, Fail(Errors.RuntimeErrorNoLine(UNIMPLEMENTED + DebugText(i))))
  {
    hide ExecVariable;
    hide ExecBinary;
    hide ExecSimple;
    hide ExecBuiltin;
    hide ExecArray;
    hide ExecObject;
    hide ExecCall;
  }

  // ---------------------------------------------------------------------
  // The stack around an instruction
  // ---------------------------------------------------------------------

  /**
   * A binary instruction needs two values; when it continues, the top two
   * values are replaced by the one result and nothing else changes.
   */
  lemma BinaryStackShape(constants: seq<Value>, i: Instruction, m: Machine, pf: string -> Option<real>)
    requires IsBinary(i)
    ensures |m.stack| < 2 ==> Execute(constants, i, m, pf) == (m, Fail(UNDERFLOW))
    ensures var (next, status) := Execute(constants, i, m, pf);
      status == Continue ==>
        |m.stack| >= 2 && |next.stack| == |m.stack| - 1 &&
        next.stack[..|next.stack| - 1] == m.stack[..|m.stack| - 2] &&
        next == m.(stack := next.stack)
  {
    hide ExecVariable;
    hide ExecSimple;
    hide ExecBuiltin;
    hide ExecArray;
    hide ExecObject;
    hide ExecCall;
    assert !(i.LoadConstant? || i.LoadLocal? || i.StoreLocal? || i.LoadGlobal? || i.StoreGlobal?);
    hide Binary;
  }

  /** The result a binary instruction pushes is `Binary` of the two values below the top, in push order. */
  lemma BinaryPushesResult(constants: seq<Value>, i: Instruction, s: seq<Value>, a: Value, b: Value,
                           m: Machine, pf: string -> Option<real>)
    requires IsBinary(i) && m.stack == s + [a, b] && !BinaryPanics(i, a, b)
    ensures Binary(i, a, b).Ok? ==> Execute(constants, i, m, pf) == (m.(stack := s + [Binary(i, a, b).value]), Continue)
    ensures Binary(i, a, b).Err? ==> Execute(constants, i, m, pf) == (m.(stack := s), Fail(Binary(i, a, b).error))
  {
    hide ExecVariable;
    hide ExecSimple;
    hide ExecBuiltin;
    hide ExecArray;
    hide ExecObject;
    hide ExecCall;
    var n := |m.stack|;
    assert m.stack[n - 2] == a && m.stack[n - 1] == b && m.stack[..n - 2] == s;
    assert !(i.LoadConstant? || i.LoadLocal? || i.StoreLocal? || i.LoadGlobal? || i.StoreGlobal?);
    hide Binary;
  }

  /** StoreGlobal followed by LoadGlobal of the same name puts the stored value back on the stack. */
  lemma StoreThenLoadGlobal(constants: seq<Value>, name: string, m: Machine, pf: string -> Option<real>)
    requires |m.stack| > 0
    ensures var (m1, s1) := Execute(constants, StoreGlobal(name), m, pf);
      s1 == Continue && m1.globals == m.globals[name := Top(m)] &&
      Execute(constants, LoadGlobal(name), m1, pf) == (m1.(stack := m.stack), Continue)
  {
    hide ExecBinary;
    hide ExecSimple;
    hide ExecBuiltin;
    hide ExecArray;
    hide ExecObject;
    hide ExecCall;
    var m1 := DropTop(m).(globals := m.globals[name := Top(m)]);
    assert Execute(constants, StoreGlobal(name), m, pf) == (m1, Continue);
    assert m1.stack + [Top(m)] == m.stack;
  }

  /** LoadGlobal of a name nothing has stored is an undefined-variable error. */
  lemma LoadUnboundGlobal(constants: seq<Value>, name: string, m: Machine, pf: string -> Option<real>)
    requires name !in m.globals
    ensures Execute(constants, LoadGlobal(name), m, pf) == (m, Fail(Errors.UndefinedVariable(name)))
  {
    hide ExecBinary;
    hide ExecSimple;
    hide ExecBuiltin;
    hide ExecArray;
    hide ExecObject;
    hide ExecCall;
  }

  /**
   * A run never pushes or pops a call frame and only ever appends to the
   * console output. So in a run that starts without frames, as a new
   * VirtualMachine does, every LoadLocal and StoreLocal fails.
   */
  lemma {:induction false} ExecKeepsFramesAndOutput(code: seq<Instruction>, constants: seq<Value>, m: Machine,
                                                    fuel: nat, pf: string -> Option<real>)
    ensures var final := Exec(code, constants, m, fuel, pf).0;
      |final.frames| == |m.frames| && m.output <= final.output
    decreases fuel
  {
    hide Execute;
    if fuel > 0 && m.ip < |code| {
      ExecFetches(code, constants, m, fuel, pf);
      var next := Execute(constants, code[m.ip], m.(ip := m.ip + 1), pf).0;
      ExecKeepsFramesAndOutput(code, constants, next, fuel - 1, pf);
    } else if fuel > 0 {
      ExecStopsAtEnd(code, constants, m, fuel, pf);
    }
  }

  lemma LocalsNeedAFrame(constants: seq<Value>, k: nat, m: Machine, pf: string -> Option<real>)
    requires m.frames == []
    ensures Execute(constants, LoadLocal(k), m, pf) == (m, Fail(NO_FRAME_FOR_LOAD))
    ensures |m.stack| > 0 ==> Execute(constants, StoreLocal(k), m, pf) == (DropTop(m), Fail(NO_FRAME_FOR_STORE))
  {
    hide ExecBinary;
    hide ExecSimple;
    hide ExecBuiltin;
    hide ExecArray;
    hide ExecObject;
    hide ExecCall;
  }

  /** CallBuiltin passes the arguments below the count in the order they were pushed, and pops them all. */
  lemma CallBuiltinArguments(constants: seq<Value>, name: string, s: seq<Value>, args: seq<Value>, m: Machine,
                             pf: string -> Option<real>)
    requires name in BUILTIN_NAMES && m.stack == s + args + [Integer(|args|)]
    ensures var r := Builtin(name, args, m.output, pf);
      Execute(constants, CallBuiltin(name), m, pf) ==
        if r.Ok? then (m.(stack := s + [r.value.0], output := r.value.1), Continue)
        else (m.(stack := s), Fail(r.error))
  {
    hide ExecVariable;
    hide ExecBinary;
    hide ExecSimple;
    hide ExecArray;
    hide ExecObject;
    hide ExecCall;
    var p := DropTop(m);
    assert p.stack == s + args;
    assert p.stack[..|s|] == s && p.stack[|s|..] == args;
    hide Builtin;
  }

  /** NewArray(n) gathers the top n values into one array, in the order they were pushed. */
  lemma NewArrayKeepsOrder(constants: seq<Value>, s: seq<Value>, xs: seq<Value>, m: Machine, pf: string -> Option<real>)
    requires m.stack == s + xs
    ensures Execute(constants, NewArray(|xs|), m, pf) == (m.(stack := s + [Array(xs)]), Continue)
  {
    hide ExecVariable;
    hide ExecBinary;
    hide ExecSimple;
    hide ExecBuiltin;
    hide ExecObject;
    hide ExecCall;
    assert m.stack[..|s|] == s && m.stack[|s|..] == xs;
  }

  /** Reading back an index just written gives the written value. */
  lemma SetThenGetIndex(constants: seq<Value>, s: seq<Value>, items: seq<Value>, k: int, v: Value, m: Machine,
                        pf: string -> Option<real>)
    requires 0 <= k < |items| && m.stack == s + [Array(items), Integer(k), v]
    ensures var (m1, s1) := Execute(constants, SetIndex, m, pf);
      s1 == Continue && m1.stack == s + [Array(items[k := v])] &&
      Execute(constants, GetIndex, m1.(stack := m1.stack + [Integer(k)]), pf) == (m.(stack := s + [v]), Continue)
  {
    hide ExecVariable;
    hide ExecBinary;
    hide ExecSimple;
    hide ExecBuiltin;
    hide ExecObject;
    hide ExecCall;
    var n := |m.stack|;
    assert m.stack[n - 3] == Array(items) && m.stack[n - 2] == Integer(k) && m.stack[n - 1] == v;
    assert m.stack[..n - 3] == s;
    var m1 := m.(stack := s + [Array(items[k := v])]);
    assert Execute(constants, SetIndex, m, pf) == (m1, Continue);
    var m2 := m1.(stack := m1.stack + [Integer(k)]);
    assert m2.stack[|m2.stack| - 2] == Array(items[k := v]) && m2.stack[..|m2.stack| - 2] == s;
  }

  /** Reading back a property just set gives the value set; an object without the key reads as Null. */
  lemma SetThenGetProperty(constants: seq<Value>, s: seq<Value>, props: map<string, Value>, name: string, v: Value,
                           m: Machine, pf: string -> Option<real>)
    requires m.stack == s + [Object(props), v]
    ensures var (m1, s1) := Execute(constants, SetProperty(name), m, pf);
      s1 == Continue && m1 == m.(stack := s + [Object(props[name := v])]) &&
      Execute(constants, GetProperty(name), m1, pf) == (m.(stack := s + [v]), Continue)
    ensures name !in props ==>
      Execute(constants, GetProperty(name), m.(stack := s + [Object(props)]), pf) == (m.(stack := s + [Null]), Continue)
  {
    hide ExecVariable;
    hide ExecBinary;
    hide ExecSimple;
    hide ExecBuiltin;
    hide ExecArray;
    hide ExecCall;
    var n := |m.stack|;
    assert m.stack[n - 2] == Object(props) && m.stack[n - 1] == v && m.stack[..n - 2] == s;
    var m1 := m.(stack := s + [Object(props[name := v])]);
    assert Execute(constants, SetProperty(name), m, pf) == (m1, Continue);
    assert DropTop(m1).stack == s;
    assert DropTop(m.(stack := s + [Object(props)])).stack == s;
  }

  /**
   * The receiver of GetProperty is the value on top of the stack; when the
   * top is the property's name as a string, the access fails.
   */
  lemma GetPropertyOfName(constants: seq<Value>, name: string, m: Machine, pf: string -> Option<real>)
    requires |m.stack| > 0 && Top(m) == Str(name)
    ensures Execute(constants, GetProperty(name), m, pf) == (DropTop(m), Fail(PROPERTY_OF_NON_OBJECT))
  {
    hide ExecVariable;
    hide ExecBinary;
    hide ExecSimple;
    hide ExecBuiltin;
    hide ExecArray;
    hide ExecCall;
  }

  /** A bytecode function is not callable: Call rejects every value but a tree-walking Function. */
  lemma CallRejectsNonFunctions(constants: seq<Value>, argc: nat, s: seq<Value>, args: seq<Value>, f: Value,
                                m: Machine, pf: string -> Option<real>)
    requires m.stack == s + args + [f] && |args| == argc && !f.Function?
    ensures Execute(constants, Call(argc), m, pf) == (m.(stack := s), Fail(NOT_CALLABLE))
  {
    hide ExecVariable;
    hide ExecBinary;
    hide ExecSimple;
    hide ExecBuiltin;
    hide ExecArray;
    hide ExecObject;
    assert DropTop(m).stack == s + args;
    assert (s + args)[..|s + args| - argc] == s;
  }

  // ---------------------------------------------------------------------
  // Integer arithmetic is exact
  // ---------------------------------------------------------------------

  /** An i64 result is an Integer; any other whole number is the exact BigInteger. */
  lemma CheckedIsExact(n: int)
    ensures IsIntegral(Checked(n)) && IntegerValue(Checked(n)) == n
    ensures Checked(n).Integer? <==> Ast.IsI64(n)
  {
  }

  /**
   * Adding two whole numbers never loses a digit: the result stands for the
   * exact sum, and it is an Integer exactly when both operands are and the
   * sum fits in an i64.
   */
  lemma AddIsExact(a: Value, b: Value)
    requires IsIntegral(a) && IsIntegral(b) && !AddPanics(a, b)
    ensures AddValues(a, b).Ok? && IsIntegral(AddValues(a, b).value)
    ensures IntegerValue(AddValues(a, b).value) == IntegerValue(a) + IntegerValue(b)
    ensures AddValues(a, b).value.Integer? <==> a.Integer? && b.Integer? && Ast.IsI64(a.i + b.i)
  {
  }

  lemma MultiplyIsExact(a: Value, b: Value)
    requires IsIntegral(a) && IsIntegral(b) && !MultiplyPanics(a, b)
    ensures MultiplyValues(a, b).Ok? && IsIntegral(MultiplyValues(a, b).value)
    ensures IntegerValue(MultiplyValues(a, b).value) == IntegerValue(a) * IntegerValue(b)
    ensures MultiplyValues(a, b).value.Integer? <==> a.Integer? && b.Integer? && Ast.IsI64(a.i * b.i)
  {
  }

  /** Subtraction is exact too; two Integers give an Integer because an out-of-range difference panics. */
  lemma SubtractIsExact(a: Value, b: Value)
    requires IsIntegral(a) && IsIntegral(b) && !SubtractPanics(a, b)
    ensures SubtractValues(a, b).Ok? && IsIntegral(SubtractValues(a, b).value)
    ensures IntegerValue(SubtractValues(a, b).value) == IntegerValue(a) - IntegerValue(b)
    ensures SubtractValues(a, b).value.Integer? <==> a.Integer? && b.Integer?
  {
  }

  /** The sum overflows only into a BigInteger: i64::MAX + 1 is the BigInteger 2^63. */
  lemma AddOverflowPromotes()
    ensures AddValues(Integer(I64_MAX), Integer(1)) == Ok(Big(I64_MAX + 1))
  {
    hide Big;
  }

  /** Modulo is Rust's truncating remainder: its sign follows the dividend. */
  lemma ModuloSign(x: int, y: int)
    requires y != 0 && !ModuloPanics(Integer(x), Integer(y))
    ensures ModuloValues(Integer(x), Integer(y)).Ok?
    ensures var r := ModuloValues(Integer(x), Integer(y)).value.i;
      x == TruncDiv(x, y) * y + r && Vm.Abs(r) < Vm.Abs(y) && (r != 0 ==> (r < 0 <==> x < 0))
  {
    TruncRemSpec(x, y);
  }

  /** A zero divisor is an error for Divide and Modulo alike. */
  lemma DivisionByZero(a: Value)
    ensures (a.Integer? || a.Float?) ==> DivideValues(a, Integer(0)) == Err(DIVISION_BY_ZERO)
    ensures a.Integer? ==> ModuloValues(a, Integer(0)) == Err(MODULO_BY_ZERO)
  {
  }

  // ---------------------------------------------------------------------
  // Equality and order of values
  // ---------------------------------------------------------------------

  lemma ValuesEqualSymmetric(a: Value, b: Value)
    ensures ValuesEqual(a, b) <==> ValuesEqual(b, a)
  {
  }

  /** The VM's equality extends the constant pool's: pool-equal values are equal. */
  lemma PoolEqualIsValuesEqual(a: Value, b: Value)
    ensures PoolEqual(a, b) ==> ValuesEqual(a, b)
    ensures ValuesEqual(a, b) && !PoolEqual(a, b) ==> (a.Integer? && b.Float?) || (a.Float? && b.Integer?)
  {
  }

  /** Big integers, arrays and objects are never equal, not even to themselves. */
  lemma ContainersNeverEqual(a: Value)
    requires a.BigInteger? || a.Array? || a.Object?
    ensures !ValuesEqual(a, a)
  {
  }

  predicate Numeric(v: Value) { v.Integer? || v.Float? }

  /** Comparison is defined exactly for two numbers or two strings. */
  lemma CompareDefinedOn(a: Value, b: Value)
    ensures CompareValues(a, b).Ok? <==> (Numeric(a) && Numeric(b)) || (a.Str? && b.Str?)
  {
  }

  /** Swapping the operands reverses the order. */
  lemma CompareFlips(a: Value, b: Value)
    ensures CompareValues(a, b).Ok? ==>
      CompareValues(b, a) == Ok(Strings.Flip(CompareValues(a, b).value))
  {
    if a.Str? && b.Str? {
      Strings.CompareStringsFlip(a.s, b.s);
    }
  }

  /** So `a < b` and `b > a` agree. */
  lemma LessIsFlippedGreater(a: Value, b: Value)
    ensures Binary(Less, a, b) == Binary(Greater, b, a) || (Binary(Less, a, b).Err? && Binary(Greater, b, a).Err?)
  {
    CompareDefinedOn(a, b);
    CompareDefinedOn(b, a);
    CompareFlips(a, b);
  }

  // ---------------------------------------------------------------------
  // Built-in functions
  // ---------------------------------------------------------------------

  /** `type()` agrees with the type name on every value but a bytecode function. */
  lemma BuiltinTypeIsTypeName(v: Value)
    ensures BuiltinType(v) == Str(TypeName(v)) <==> !v.BytecodeFunction?
  {
  }

  /** `len()` of a string counts UTF-8 bytes, which for ASCII text is its number of characters. */
  lemma LenOfAscii(s: string)
    requires Utf8.IsAscii(s) && |s| <= I64_MAX
    ensures BuiltinLen(Str(s)) == Ok(Integer(|s|))
  {
    Utf8.EncodeAscii(s);
  }

  /** `int()` of a float truncates toward zero and saturates at the ends of the i64 range. */
  lemma FloatAsI64Truncates(f: real)
    ensures I64_MIN as real <= f < (I64_MAX + 1) as real ==>
      Vm.Abs(FloatAsI64(f)) as real <= (if f < 0.0 then -f else f) < (Vm.Abs(FloatAsI64(f)) + 1) as real
    ensures f < I64_MIN as real ==> FloatAsI64(f) == I64_MIN
    ensures f >= (I64_MAX + 1) as real ==> FloatAsI64(f) == I64_MAX
  {
  }

  /** A whole number in the i64 range converts to itself. */
  lemma FloatAsI64OfWhole(n: int)
    requires Ast.IsI64(n)
    ensures FloatAsI64(n as real) == n
  {
  }

  // ---------------------------------------------------------------------
  // A whole run
  // ---------------------------------------------------------------------

  /** `print(x + y)` compiled to straight-line code, the right operand at pool index `j`. */
  function SumCode(j: nat): seq<Instruction>
  {
    [LoadConstant(0), LoadConstant(j), Add, Print, Halt]
  }

  const SUM_PROGRAM: seq<Instruction> := SumCode(1)

  /** A checked result prints as the exact decimal of the whole number, whether it fits in an i64 or not. */
  lemma CheckedText(n: int)
    ensures ValueText(Checked(n)) == BigNum.IntToString(n)
  {
    if !Ast.IsI64(n) {
      BigNum.DisplayIsDecimal(Checked(n).big);
    }
  }

  /** LoadConstant pushes the pool entry it names. */
  lemma LoadConstantPushes(constants: seq<Value>, k: nat, m: Machine, pf: string -> Option<real>)
    ensures k < |constants| ==> Execute(constants, LoadConstant(k), m, pf) == (PushOnto(m, constants[k]), Continue)
    ensures k >= |constants| ==> Execute(constants, LoadConstant(k), m, pf) == (m, Fail(INVALID_CONSTANT))
  {
    hide ExecBinary;
    hide ExecSimple;
    hide ExecBuiltin;
    hide ExecArray;
    hide ExecObject;
    hide ExecCall;
  }

  /** Print pops the top value and writes its text and a newline to the console. */
  lemma PrintWrites(constants: seq<Value>, m: Machine, pf: string -> Option<real>)
    requires |m.stack| > 0
    ensures Execute(constants, Print, m, pf) == (DropTop(m).(output := m.output + (ValueText(Top(m)) + "\n")), Continue)
  {
    hide ExecVariable;
    hide ExecBinary;
    hide ExecBuiltin;
    hide ExecArray;
    hide ExecObject;
    hide ExecCall;
  }

  /** The two loads push the constants in order. */
  lemma SumProgramLoads(j: nat, k: seq<Value>, x: int, y: int, fuel: nat, pf: string -> Option<real>)
    requires j < |k| && k[0] == Integer(x) && k[j] == Integer(y) && fuel >= 2
    ensures Exec(SumCode(j), k, Machine([], [], map[], 0, ""), fuel, pf) ==
      Exec(SumCode(j), k, Machine([Integer(x), Integer(y)], [], map[], 2, ""), fuel - 2, pf)
  {
    hide Execute;
    hide Exec;
    var code := SumCode(j);
    var m0 := Machine([], [], map[], 0, "");
    var m1 := PushOnto(m0.(ip := 1), Integer(x));
    var m2 := PushOnto(m1.(ip := 2), Integer(y));
    assert code[0] == LoadConstant(0) && code[1] == LoadConstant(j);
    LoadConstantPushes(k, 0, m0.(ip := 1), pf);
    LoadConstantPushes(k, j, m1.(ip := 2), pf);
    assert m2 == Machine([Integer(x), Integer(y)], [], map[], 2, "");
    ExecFetches(code, k, m0, fuel, pf);
    ExecFetches(code, k, m1, fuel - 1, pf);
  }

  /** Add replaces the two constants by their exact sum, and Print writes its decimal text. */
  lemma SumProgramAddsAndPrints(j: nat, k: seq<Value>, x: int, y: int, fuel: nat, pf: string -> Option<real>)
    requires Ast.IsI64(x) && Ast.IsI64(y) && x != I64_MIN && y != I64_MIN && fuel >= 2
    ensures Exec(SumCode(j), k, Machine([Integer(x), Integer(y)], [], map[], 2, ""), fuel, pf) ==
      Exec(SumCode(j), k, Machine([], [], map[], 4, BigNum.IntToString(x + y) + "\n"), fuel - 2, pf)
  {
    hide Execute;
    hide Exec;
    hide ValueText;
    hide Checked;
    hide BigNum.IntToString;
    var code := SumCode(j);
    var sum := Checked(x + y);
    var m2 := Machine([Integer(x), Integer(y)], [], map[], 2, "");
    var m3 := m2.(ip := 3, stack := [] + [sum]);
    var m4 := DropTop(m3.(ip := 4)).(output := m3.output + (ValueText(sum) + "\n"));
    assert code[2] == Add && code[3] == Print;
    assert m2.(ip := 3).stack == [] + [Integer(x), Integer(y)];
    assert AddValues(Integer(x), Integer(y)) == Ok(sum);
    BinaryPushesResult(k, Add, [], Integer(x), Integer(y), m2.(ip := 3), pf);
    PrintWrites(k, m3.(ip := 4), pf);
    CheckedText(x + y);
    assert m4 == Machine([], [], map[], 4, BigNum.IntToString(x + y) + "\n") by {
      assert m4.stack == [];
      assert m4.output == BigNum.IntToString(x + y) + "\n";
    }
    ExecFetches(code, k, m2, fuel, pf);
    ExecFetches(code, k, m3, fuel - 1, pf);
  }

  /**
   * `print(x + y)` for two i64 constants, compiled to straight-line code,
   * prints the exact decimal sum: an overflowing sum such as
   * `9223372036854775807 + 1` becomes a BigInteger and prints as
   * 9223372036854775808.
   */
  lemma SumProgramPrintsExactly(j: nat, k: seq<Value>, x: int, y: int, fuel: nat, pf: string -> Option<real>)
    requires j < |k| && k[0] == Integer(x) && k[j] == Integer(y)
    requires Ast.IsI64(x) && Ast.IsI64(y) && x != I64_MIN && y != I64_MIN && fuel >= 5
    ensures Exec(SumCode(j), k, Machine([], [], map[], 0, ""), fuel, pf) ==
      (Machine([], [], map[], 5, BigNum.IntToString(x + y) + "\n"), Stop)
  {
    hide Execute;
    hide Exec;
    var m4 := Machine([], [], map[], 4, BigNum.IntToString(x + y) + "\n");
    SumProgramLoads(j, k, x, y, fuel, pf);
    SumProgramAddsAndPrints(j, k, x, y, fuel - 2, pf);
    assert SumCode(j)[4] == Halt;
    HaltStops(k, m4.(ip := 5), pf);
    ExecFetches(SumCode(j), k, m4, fuel - 4, pf);
  }
}
