/**
 * Code from the compiler run on the virtual machine. Straight-line global
 * code runs as intended; several constructs do not, because the compiler and
 * `run` disagree about what an instruction does: `JumpIfFalse` already pops
 * its condition, so the compiler's extra `Pop`s underflow; property access
 * leaves the property name on top of the object it reads from; `Return` has
 * no arm in `run`. The unused second compiler patches its jumps with
 * distances, which `run` takes for addresses.
 */
module CompiledRuns {
  import opened Wrappers
  import opened Values
  import opened Bytecode
  import opened Vm
  import opened Compiler
  import CompilerProperties
  import BytecodeCompiling
  import VmProperties
  import Ast
  import BigNum
  import Errors

  /** Pop on an empty stack fails and changes nothing. */
  lemma PopOnEmptyFails(constants: seq<Value>, m: Machine, pf: string -> Option<real>)
    requires |m.stack| == 0
    ensures Execute(constants, Pop, m, pf) == (m, Fail(UNDERFLOW))
  {
    hide ExecVariable;
    hide ExecBinary;
    hide ExecBuiltin;
    hide ExecArray;
    hide ExecObject;
    hide ExecCall;
  }

  /**
   * An `if` without an else-branch whose condition is falsy, run with the
   * condition as the only value on the stack: `JumpIfFalse` pops it and lands
   * on the final `Pop`, which fails on the empty stack.
   */
  lemma FalsyIfUnderflows(st: CompilerState, s: Ast.Statement, code: seq<Instruction>, constants: seq<Value>,
                          m: Machine, fuel: nat, pf: string -> Option<real>)
    requires s.If? && s.elseBranch.NoElse? && StatementCompiled(st, s).Ok? && ExpressionCompiled(st, s.condition).Ok?
    requires StatementCompiled(st, s).value.code <= code
    requires m.ip == |ExpressionCompiled(st, s.condition).value.code|
    requires |m.stack| == 1 && !IsTruthy(m.stack[0]) && fuel >= 2
    ensures Exec(code, constants, m, fuel, pf) ==
      (m.(stack := [], ip := |StatementCompiled(st, s).value.code|), Fail(UNDERFLOW))
  {
    hide Execute;
    hide Exec;
    hide StatementCompiled;
    hide ExpressionCompiled;
    CompilerProperties.IfShape(st, s);
    var r := StatementCompiled(st, s).value.code;
    var c := m.ip;
    assert code[c] == r[c] == JumpIfFalse(|r| - 1);
    assert code[|r| - 1] == r[|r| - 1] == Pop;
    VmProperties.JumpIfFalsePopsAndJumps(constants, |r| - 1, m.(ip := c + 1), pf);
    ExecFetches(code, constants, m, fuel, pf);
    var landed := m.(stack := [], ip := |r| - 1);
    PopOnEmptyFails(constants, landed.(ip := |r|), pf);
    ExecFetches(code, constants, landed, fuel - 1, pf);
  }

  /**
   * An `if` without an else-branch and with an empty then-branch whose
   * condition is truthy, run with the condition as the only value on the
   * stack: `JumpIfFalse` pops it and falls through to the `Pop` after it,
   * which fails on the empty stack.
   */
  lemma TruthyIfUnderflows(st: CompilerState, s: Ast.Statement, code: seq<Instruction>, constants: seq<Value>,
                           m: Machine, fuel: nat, pf: string -> Option<real>)
    requires s.If? && s.elseBranch.NoElse? && s.thenBranch == []
    requires StatementCompiled(st, s).Ok? && ExpressionCompiled(st, s.condition).Ok?
    requires StatementCompiled(st, s).value.code <= code
    requires m.ip == |ExpressionCompiled(st, s.condition).value.code|
    requires |m.stack| == 1 && IsTruthy(m.stack[0]) && fuel >= 2
    ensures Exec(code, constants, m, fuel, pf) == (m.(stack := [], ip := m.ip + 2), Fail(UNDERFLOW))
  {
    hide Execute;
    hide Exec;
    hide StatementCompiled;
    hide ExpressionCompiled;
    CompilerProperties.IfShape(st, s);
    var r := StatementCompiled(st, s).value.code;
    var c := m.ip;
    assert code[c] == r[c] == JumpIfFalse(|r| - 1);
    assert code[c + 1] == r[c + 1] == Pop;
    VmProperties.JumpIfFalsePopsAndJumps(constants, |r| - 1, m.(ip := c + 1), pf);
    ExecFetches(code, constants, m, fuel, pf);
    var fallen := m.(stack := [], ip := c + 1);
    PopOnEmptyFails(constants, fallen.(ip := c + 2), pf);
    ExecFetches(code, constants, fallen, fuel - 1, pf);
  }

  /** The program `if b then end`, for either boolean literal. */
  function EmptyIf(b: bool): seq<Ast.Statement>
  {
    [Ast.If(Ast.Literal(Ast.BooleanLit(b)), [], Ast.NoElse)]
  }

  /**
   * `if b then end` compiles, and running it from a fresh machine fails with
   * a stack underflow whichever way the condition goes.
   */
  lemma EmptyIfUnderflows(b: bool, fuel: nat, pf: string -> Option<real>)
    requires fuel >= 3
    ensures ProgramCompiled(EmptyIf(b)).Ok?
    ensures var chunk := ProgramCompiled(EmptyIf(b)).value;
      Exec(chunk.code, chunk.constants, Machine([], [], map[], 0, ""), fuel, pf).1 == Fail(UNDERFLOW)
  {
    hide Execute;
    hide Exec;
    var s := EmptyIf(b)[0];
    var condition := ConstantEmitted(FRESH, Boolean(b));
    assert condition.code == [LoadConstant(0)] && condition.constants == [Boolean(b)];
    assert ExpressionCompiled(FRESH, s.condition) == Ok(condition);
    var thenStart := Emitted(Emitted(condition, JumpIfFalse(0)), Pop);
    assert BlockCompiled(thenStart, s.thenBranch) == Ok(thenStart);
    var joined := Emitted(Patched(thenStart, 1), Pop);
    assert BranchesJoined(thenStart, s, 1) == Ok(joined);
    assert IfCompiled(FRESH, s) == Ok(joined);
    assert StatementCompiled(FRESH, s) == Ok(joined);
    assert BlockCompiled(FRESH, EmptyIf(b)) == Ok(joined) by {
      assert EmptyIf(b)[1..] == [];
    }
    var chunk := ProgramCompiled(EmptyIf(b)).value;
    assert chunk.code == joined.code + [Halt] && chunk.constants == [Boolean(b)];
    var m0 := Machine([], [], map[], 0, "");
    VmProperties.LoadConstantPushes(chunk.constants, 0, m0.(ip := 1), pf);
    ExecFetches(chunk.code, chunk.constants, m0, fuel, pf);
    var loaded := Machine([Boolean(b)], [], map[], 1, "");
    assert PushOnto(m0.(ip := 1), Boolean(b)) == loaded;
    if b {
      TruthyIfUnderflows(FRESH, s, chunk.code, chunk.constants, loaded, fuel - 1, pf);
    } else {
      FalsyIfUnderflows(FRESH, s, chunk.code, chunk.constants, loaded, fuel - 1, pf);
    }
  }

  /**
   * A compiled property access, run from the point where the receiver is on
   * the stack: the property name is pushed on top of it, `GetProperty` takes
   * the name as its receiver, and the access fails whatever the object was;
   * the stack is back where it was.
   */
  lemma PropertyAccessFails(st: CompilerState, e: Ast.Expression, code: seq<Instruction>, constants: seq<Value>,
                            m: Machine, fuel: nat, pf: string -> Option<real>)
    requires e.PropertyAccess? && ExpressionCompiled(st, e).Ok? && ExpressionCompiled(st, e.accessed).Ok?
    requires ExpressionCompiled(st, e).value.code <= code && ExpressionCompiled(st, e).value.constants <= constants
    requires m.ip == |ExpressionCompiled(st, e.accessed).value.code| && fuel >= 2
    ensures Exec(code, constants, m, fuel, pf) == (m.(ip := m.ip + 2), Fail(PROPERTY_OF_NON_OBJECT))
  {
    hide Execute;
    hide Exec;
    hide ExpressionCompiled;
    CompilerProperties.PropertyAccessShape(st, e);
    var r := ExpressionCompiled(st, e).value;
    var p := m.ip;
    var k := r.code[p].constantIndex;
    assert code[p] == r.code[p] == LoadConstant(k);
    assert code[p + 1] == r.code[p + 1] == GetProperty(e.property);
    assert constants[k] == r.constants[k] == Str(e.property);
    VmProperties.LoadConstantPushes(constants, k, m.(ip := p + 1), pf);
    ExecFetches(code, constants, m, fuel, pf);
    var named := PushOnto(m.(ip := p + 1), Str(e.property));
    VmProperties.GetPropertyOfName(constants, e.property, named.(ip := p + 2), pf);
    assert DropTop(named.(ip := p + 2)) == m.(ip := p + 2) by {
      assert named.stack[..|named.stack| - 1] == m.stack;
    }
    ExecFetches(code, constants, named, fuel - 1, pf);
  }

  /**
   * A compiled `return` ends with a `Return` instruction, which `run` has no
   * arm for: reaching it fails with the unimplemented-instruction error.
   */
  lemma ReturnRejected(st: CompilerState, s: Ast.Statement, code: seq<Instruction>, constants: seq<Value>,
                       m: Machine, fuel: nat, pf: string -> Option<real>)
    requires s.Return? && StatementCompiled(st, s).Ok?
    requires StatementCompiled(st, s).value.code <= code
    requires m.ip == |StatementCompiled(st, s).value.code| - 1 && fuel >= 1
    ensures Exec(code, constants, m, fuel, pf) ==
      (m.(ip := m.ip + 1), Fail(Errors.RuntimeErrorNoLine(UNIMPLEMENTED + "Return")))
  {
    hide Execute;
    hide Exec;
    hide ExpressionCompiled;
    var r := StatementCompiled(st, s).value.code;
    assert r[|r| - 1] == Instruction.Return;
    assert code[m.ip] == Instruction.Return;
    VmProperties.UnimplementedFails(constants, Instruction.Return, m.(ip := m.ip + 1), pf);
    ExecFetches(code, constants, m, fuel, pf);
  }

  /** The program `show x + y`, for two integer literals. */
  function ShowSum(x: int, y: int): seq<Ast.Statement>
  {
    [Ast.Show(Ast.Binary(Ast.Literal(Ast.IntegerLit(x)), Ast.Add, Ast.Literal(Ast.IntegerLit(y))))]
  }

  /**
   * `show x + y` compiles to two constant loads, `Add`, `Print` and `Halt`
   * (both loads name the one pool entry when x == y, since the pool shares
   * equal constants), and running it prints the exact decimal sum:
   * `show 9223372036854775807 + 1` prints 9223372036854775808.
   */
  lemma ShowSumPrintsExactly(x: int, y: int, fuel: nat, pf: string -> Option<real>)
    requires Ast.IsI64(x) && Ast.IsI64(y) && x != BigNum.I64_MIN && y != BigNum.I64_MIN && fuel >= 5
    ensures ProgramCompiled(ShowSum(x, y)).Ok?
    ensures var chunk := ProgramCompiled(ShowSum(x, y)).value;
      && (x != y ==> chunk.code == VmProperties.SUM_PROGRAM && chunk.constants == [Integer(x), Integer(y)])
      && (x == y ==> chunk.code == VmProperties.SumCode(0) && chunk.constants == [Integer(x)])
      && Exec(chunk.code, chunk.constants, Machine([], [], map[], 0, ""), fuel, pf) ==
           (Machine([], [], map[], 5, BigNum.IntToString(x + y) + "\n"), Stop)
  {
    hide Execute;
    hide Exec;
    var e := ShowSum(x, y)[0].shown;
    var left := ConstantEmitted(FRESH, Integer(x));
    assert left.code == [LoadConstant(0)] && left.constants == [Integer(x)];
    assert ExpressionCompiled(FRESH, e.left) == Ok(left);
    var right := ConstantEmitted(left, Integer(y));
    var j := if x == y then 0 else 1;
    if x == y {
      assert PoolEqual(Integer(x), Integer(y));
      assert right.code == [LoadConstant(0), LoadConstant(0)] && right.constants == [Integer(x)];
    } else {
      assert !PoolEqual(Integer(x), Integer(y));
      assert right.code == [LoadConstant(0), LoadConstant(1)] && right.constants == [Integer(x), Integer(y)];
    }
    assert ExpressionCompiled(left, e.right) == Ok(right);
    var added := Emitted(right, Add);
    assert ExpressionCompiled(FRESH, e) == Ok(added);
    var shown := Emitted(added, Print);
    assert BlockCompiled(FRESH, ShowSum(x, y)) == Ok(shown) by {
      assert ShowSum(x, y)[1..] == [];
    }
    var chunk := ProgramCompiled(ShowSum(x, y)).value;
    assert chunk.code == VmProperties.SumCode(j);
    VmProperties.SumProgramPrintsExactly(j, chunk.constants, x, y, fuel, pf);
  }

  /** What the second compiler makes of `if false then end`, in its main chunk. */
  const RELATIVE_IF: seq<Instruction> := [LoadConstant(0), JumpIfFalse(0), Halt]

  /** The second compiler compiles `if false then end` to RELATIVE_IF, with the one constant `false`. */
  lemma RelativeIfCompiled()
    ensures var r := BytecodeCompiling.ProgramEmitted(BytecodeCompiling.START, EmptyIf(false));
      BytecodeCompiling.Code(r) == RELATIVE_IF && BytecodeCompiling.Pool(r) == [Boolean(false)]
  {
    var st := BytecodeCompiling.START;
    var s := EmptyIf(false)[0];
    var condition := BytecodeCompiling.ConstantEmitted(st, Boolean(false));
    assert BytecodeCompiling.Code(condition) == [LoadConstant(0)];
    var thenStart := BytecodeCompiling.Emitted(condition, JumpIfFalse(0));
    var joined := BytecodeCompiling.Patched(thenStart, 1);
    assert BytecodeCompiling.Code(joined) == [LoadConstant(0), JumpIfFalse(0)];
    assert BytecodeCompiling.StatementEmitted(st, s) == joined;
    assert BytecodeCompiling.BlockEmitted(st, EmptyIf(false)) == joined by {
      assert EmptyIf(false)[1..] == [];
    }
  }

  /**
   * Run on the virtual machine, RELATIVE_IF never halts: the `JumpIfFalse`
   * meant to skip nothing carries the distance 0, which `run` takes as the
   * address of the first instruction, so the condition is loaded again and
   * again until the fuel runs out, however much there is.
   */
  lemma {:induction false} RelativeIfLoopsForever(fuel: nat, pf: string -> Option<real>)
    ensures Exec(RELATIVE_IF, [Boolean(false)], Machine([], [], map[], 0, ""), fuel, pf).1 == OutOfFuel
    decreases fuel
  {
    if fuel > 0 {
      hide Execute;
      var k := [Boolean(false)];
      var m0 := Machine([], [], map[], 0, "");
      var m1 := Machine([Boolean(false)], [], map[], 1, "");
      VmProperties.LoadConstantPushes(k, 0, m0.(ip := 1), pf);
      assert PushOnto(m0.(ip := 1), Boolean(false)) == m1;
      ExecFetches(RELATIVE_IF, k, m0, fuel, pf);
      if fuel > 1 {
        hide Exec;
        VmProperties.JumpIfFalsePopsAndJumps(k, 0, m1.(ip := 2), pf);
        ExecFetches(RELATIVE_IF, k, m1, fuel - 1, pf);
        RelativeIfLoopsForever(fuel - 2, pf);
      }
    }
  }
}
