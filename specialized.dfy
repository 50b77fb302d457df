/**
 * The register-based executor for specialised instructions: fast integer
 * arithmetic with two's-complement wrap-around, a counted loop, tail calls
 * bounded in depth, element-wise vector addition, bulk register copies,
 * inlined calls and predicted jumps, together with the optimiser that is
 * meant to produce them.
 */
module Specialized {
  import opened Wrappers
  import opened Values
  import opened Bytecode
  import BigNum
  import Ast
  import Errors
  import Vm

  /** Rust's `i64`. */
  type I64 = x: int | BigNum.I64_MIN <= x <= BigNum.I64_MAX

  const TWO_64: int := 0x1_0000_0000_0000_0000

  datatype SpecializedInstruction =
    | FastAddInt(a: I64, b: I64, resultReg: nat)
    | FastSubInt(a: I64, b: I64, resultReg: nat)
    | FastMulInt(a: I64, b: I64, resultReg: nat)
    | FastDivInt(a: I64, b: I64, resultReg: nat)
    | FastModInt(a: I64, b: I64, resultReg: nat)
    | FastAddFloat(x: real, y: real, resultReg: nat)
    | FastSubFloat(x: real, y: real, resultReg: nat)
    | FastMulFloat(x: real, y: real, resultReg: nat)
    | FastDivFloat(x: real, y: real, resultReg: nat)
    | FastForLoop(counterReg: nat, startValue: I64, endValue: I64, step: I64, bodyStart: nat, bodyEnd: nat, breakTarget: nat)
    | FastWhileLoop(conditionReg: nat, bodyStart: nat, bodyEnd: nat, breakTarget: nat)
    | TailCall(functionAddress: nat, argCount: nat, preserveLocals: bool)
    | TailRecursiveCall(currentFunction: nat, argMapping: seq<(nat, nat)>)
    | VectorAddInt(aRegs: seq<nat>, bRegs: seq<nat>, resultRegs: seq<nat>)
    | VectorMulInt(aRegs: seq<nat>, bRegs: seq<nat>, resultRegs: seq<nat>)
    | VectorAddFloat(aRegs: seq<nat>, bRegs: seq<nat>, resultRegs: seq<nat>)
    | VectorMulFloat(aRegs: seq<nat>, bRegs: seq<nat>, resultRegs: seq<nat>)
    | BulkCopy(srcStart: nat, dstStart: nat, count: nat)
    | BulkFill(startReg: nat, count: nat, value: Value)
    | InlinedCall(originalAddress: nat, inlinedInstructions: seq<SpecializedInstruction>, returnReg: nat)
    | LoadPrecomputedResult(result: Value, targetReg: nat)
    | PredictedJumpTrue(conditionReg: nat, target: nat, predictionConfidence: real)
    | PredictedJumpFalse(conditionReg: nat, target: nat, predictionConfidence: real)

  /**
   * How an instruction ends. `Panicked` stands for a Rust panic: a register
   * index out of range, a stack shorter than the arguments it should hold,
   * or an overflow of plain `i64` arithmetic.
   */
  datatype Outcome = Done | Failed(error: Errors.FlowError) | Panicked

  /** `PerformanceCounters`. */
  datatype Counters = Counters(
    fastArithmeticOps: nat,
    optimizedLoops: nat,
    tailCalls: nat,
    simdOperations: nat,
    bulkOperations: nat,
    inlinedCalls: nat,
    predictedBranches: nat,
    branchMispredictions: nat)

  const NO_COUNTS := Counters(0, 0, 0, 0, 0, 0, 0, 0)

  /** What an instruction may change in a `SpecializedExecutionContext`. */
  datatype Context = Context(registers: seq<Value>, stack: seq<Value>, ip: nat, counters: Counters)

  const MAX_TAIL_CALL_DEPTH: nat := 1000

  const DIVISION_BY_ZERO := Errors.RuntimeErrorNoLine("Division by zero")
  const TAIL_CALL_DEPTH_EXCEEDED := Errors.RuntimeErrorNoLine("Maximum tail call depth exceeded")
  const INVALID_CONDITION := Errors.RuntimeErrorNoLine("Invalid condition type for jump")

  // ---------------------------------------------------------------------
  // Integer arithmetic
  // ---------------------------------------------------------------------

  /**
   * Two's-complement wrap-around into `i64`: values in range are kept, and
   * a value that overshoots the range by less than 2^64 moves by exactly
   * 2^64.
   */
  function Wrap(x: int): (r: I64)
    ensures Ast.IsI64(x) ==> r == x
    ensures BigNum.I64_MAX < x <= BigNum.I64_MAX + TWO_64 ==> r == x - TWO_64
    ensures BigNum.I64_MIN - TWO_64 <= x < BigNum.I64_MIN ==> r == x + TWO_64
  {
    (x - BigNum.I64_MIN) % TWO_64 + BigNum.I64_MIN
  }

  /** Wrapping changes a value by a multiple of 2^64 only. */
  lemma WrapCongruent(x: int)
    ensures (Wrap(x) - x) % TWO_64 == 0
  {
    var y := x - BigNum.I64_MIN;
    var q := y / TWO_64;
    assert y == q * TWO_64 + y % TWO_64;
    assert Wrap(x) - x == -q * TWO_64;
  }

  lemma MultiplierMonotone(q: nat, d: nat, e: nat)
    requires d <= e
    ensures q * d <= q * e
    decreases e - d
  {
    if d < e {
      MultiplierMonotone(q, d + 1, e);
      assert q * (d + 1) == q * d + q;
    }
  }

  lemma QuotientShrinks(n: nat, d: nat)
    requires d >= 1
    ensures n / d <= n
    ensures d >= 2 ==> n / d * 2 <= n
  {
    var q := n / d;
    assert q * d + n % d == n;
    MultiplierMonotone(q, 1, d);
    if d >= 2 {
      MultiplierMonotone(q, 2, d);
    }
  }

  /** The division `i64 / i64` panics on: the one quotient outside the range. */
  predicate DivOverflows(a: I64, b: I64)
  {
    a == BigNum.I64_MIN && b == -1
  }

  /** Rust's `i64` division truncates toward zero and, apart from the overflowing case, stays in range. */
  lemma TruncDivInRange(a: I64, b: I64)
    requires b != 0 && !DivOverflows(a, b)
    ensures Ast.IsI64(Vm.TruncDiv(a, b))
  {
    QuotientShrinks(Vm.Abs(a), Vm.Abs(b));
  }

  /** The integer an arithmetic arm stores, before its register is written. */
  function IntResult(instruction: SpecializedInstruction): (r: I64)
    requires instruction.FastAddInt? || instruction.FastSubInt? || instruction.FastMulInt? || instruction.FastDivInt?
    requires instruction.FastDivInt? ==> instruction.b != 0 && !DivOverflows(instruction.a, instruction.b)
    ensures Ast.IsI64(ExactResult(instruction)) ==> r == ExactResult(instruction)
    ensures (r - ExactResult(instruction)) % TWO_64 == 0
  {
    if instruction.FastDivInt? then
      TruncDivInRange(instruction.a, instruction.b);
      Vm.TruncDiv(instruction.a, instruction.b)
    else
      WrapCongruent(ExactResult(instruction));
      Wrap(ExactResult(instruction))
  }

  /** The mathematically exact result an arithmetic arm approximates. */
  function ExactResult(instruction: SpecializedInstruction): int
    requires instruction.FastAddInt? || instruction.FastSubInt? || instruction.FastMulInt? || instruction.FastDivInt?
    requires instruction.FastDivInt? ==> instruction.b != 0
  {
    match instruction
    case FastAddInt(a, b, _) => a + b
    case FastSubInt(a, b, _) => a - b
    case FastMulInt(a, b, _) => a * b
    case FastDivInt(a, b, _) => Vm.TruncDiv(a, b)
  }

  predicate IsArithmetic(instruction: SpecializedInstruction)
  {
    instruction.FastAddInt? || instruction.FastSubInt? || instruction.FastMulInt? || instruction.FastDivInt? ||
    instruction.FastAddFloat? || instruction.FastMulFloat?
  }

  /**
   * The arithmetic arms: the result goes to `resultReg` and is counted as
   * one fast operation. Division by zero is an error that changes
   * nothing; the one overflowing division and a register out of range
   * panic.
   */
  function ArithmeticStep(c: Context, instruction: SpecializedInstruction): (r: (Context, Outcome))
    requires IsArithmetic(instruction)
    ensures r.1 == Failed(DIVISION_BY_ZERO) <==> instruction.FastDivInt? && instruction.b == 0
    ensures r.1 == Done <==>
      instruction.resultReg < |c.registers| && !(instruction.FastDivInt? && (instruction.b == 0 || DivOverflows(instruction.a, instruction.b)))
    ensures r.1 != Done ==> r.0 == c
    ensures r.1 == Done ==>
      r.0.stack == c.stack && r.0.ip == c.ip &&
      r.0.counters == c.counters.(fastArithmeticOps := c.counters.fastArithmeticOps + 1) &&
      |r.0.registers| == |c.registers| &&
      (forall j :: 0 <= j < |c.registers| && j != instruction.resultReg ==> r.0.registers[j] == c.registers[j])
    ensures r.1 == Done && !instruction.FastAddFloat? && !instruction.FastMulFloat? ==>
      r.0.registers[instruction.resultReg] == Integer(IntResult(instruction))
  {
    if instruction.FastDivInt? && instruction.b == 0 then (c, Failed(DIVISION_BY_ZERO))
    else if instruction.FastDivInt? && DivOverflows(instruction.a, instruction.b) then (c, Panicked)
    else if instruction.resultReg >= |c.registers| then (c, Panicked)
    else
      var v :=
        if instruction.FastAddFloat? then Float(instruction.x + instruction.y)
        else if instruction.FastMulFloat? then Float(instruction.x * instruction.y)
        else Integer(IntResult(instruction));
      (c.(registers := c.registers[instruction.resultReg := v],
          counters := c.counters.(fastArithmeticOps := c.counters.fastArithmeticOps + 1)), Done)
  }

  // ---------------------------------------------------------------------
  // FastForLoop
  // ---------------------------------------------------------------------

  /** The loop's exit test: counting up past or onto the end, or counting down onto or below it. */
  predicate LoopExits(current: int, end: int, step: int)
  {
    (step > 0 && current >= end) || (step < 0 && current <= end)
  }

  /** The counter as the loop reads it: an Integer register, or the start value when the register holds anything else. */
  function CounterValue(v: Value, startValue: I64): int
  {
    if v.Integer? then v.i else startValue
  }

  /**
   * One pass of `FastForLoop`: exit to `breakTarget`, or store the counter
   * advanced by `step` and enter the body. The addition is plain `i64`
   * addition and panics on overflow.
   */
  function ForLoopStep(c: Context, instruction: SpecializedInstruction): (r: (Context, Outcome))
    requires instruction.FastForLoop?
    ensures r.1 == Done || r.1 == Panicked
    ensures r.1 == Done ==>
      r.0.stack == c.stack &&
      r.0.counters == c.counters.(optimizedLoops := c.counters.optimizedLoops + 1) &&
      instruction.counterReg < |c.registers| &&
      var current := CounterValue(c.registers[instruction.counterReg], instruction.startValue);
      if LoopExits(current, instruction.endValue, instruction.step) then
        r.0.registers == c.registers && r.0.ip == instruction.breakTarget
      else
        r.0.registers == c.registers[instruction.counterReg := Integer(current + instruction.step)] && r.0.ip == instruction.bodyStart
    ensures r.1 == Panicked ==> r.0 == c
  {
    if instruction.counterReg >= |c.registers| then (c, Panicked)
    else
      var current := CounterValue(c.registers[instruction.counterReg], instruction.startValue);
      var counted := c.counters.(optimizedLoops := c.counters.optimizedLoops + 1);
      if LoopExits(current, instruction.endValue, instruction.step) then
        (c.(ip := instruction.breakTarget, counters := counted), Done)
      else if !Ast.IsI64(current + instruction.step) then (c, Panicked)
      else
        (c.(registers := c.registers[instruction.counterReg := Integer(current + instruction.step)],
            ip := instruction.bodyStart, counters := counted), Done)
  }

  /** How many times the loop enters its body, starting from `current`, before it exits. */
  function Trips(current: int, end: int, step: int): nat
    requires step != 0
    decreases if step > 0 then end - current else current - end
  {
    if LoopExits(current, end, step) then 0 else 1 + Trips(current + step, end, step)
  }

  /** Counting up, the body runs the least number of times that carries the counter to the end. */
  lemma {:induction false} TripsReachEnd(current: int, end: int, step: int)
    requires step > 0
    ensures current + Trips(current, end, step) * step >= end
    ensures Trips(current, end, step) > 0 ==> current + (Trips(current, end, step) - 1) * step < end
    decreases end - current
  {
    if !LoopExits(current, end, step) {
      var t := Trips(current + step, end, step);
      TripsReachEnd(current + step, end, step);
      assert (1 + t) * step == step + t * step;
      if t > 0 {
        assert t * step == step + (t - 1) * step;
      }
    }
  }

  /**
   * Each pass of the loop instruction over an Integer counter uses up one
   * trip: it exits exactly when no trips are left, and otherwise leaves a
   * counter with one trip fewer.
   */
  lemma ForLoopUsesOneTrip(c: Context, instruction: SpecializedInstruction, current: int)
    requires instruction.FastForLoop? && instruction.step != 0
    requires instruction.counterReg < |c.registers| && c.registers[instruction.counterReg] == Integer(current)
    requires Ast.IsI64(current + instruction.step)
    ensures ForLoopStep(c, instruction).1 == Done
    ensures Trips(current, instruction.endValue, instruction.step) == 0 ==>
      ForLoopStep(c, instruction).0.ip == instruction.breakTarget && ForLoopStep(c, instruction).0.registers == c.registers
    ensures Trips(current, instruction.endValue, instruction.step) > 0 ==>
      ForLoopStep(c, instruction).0.ip == instruction.bodyStart &&
      ForLoopStep(c, instruction).0.registers[instruction.counterReg] == Integer(current + instruction.step) &&
      Trips(current + instruction.step, instruction.endValue, instruction.step) == Trips(current, instruction.endValue, instruction.step) - 1
  {
  }

  // ---------------------------------------------------------------------
  // TailCall
  // ---------------------------------------------------------------------

  /**
   * `TailCall`: refused once the depth has reached its maximum; otherwise
   * the top `argCount` stack values move, in order, into the first
   * registers, the call jumps to the function, and the depth grows by one.
   */
  function TailCallStep(c: Context, depth: nat, instruction: SpecializedInstruction): (r: (Context, nat, Outcome))
    requires instruction.TailCall?
    ensures r.2 == Failed(TAIL_CALL_DEPTH_EXCEEDED) <==> depth >= MAX_TAIL_CALL_DEPTH
    ensures r.2 != Done ==> r.0 == c && r.1 == depth
    ensures r.2 == Done ==>
      var n := instruction.argCount;
      r.1 == depth + 1 <= MAX_TAIL_CALL_DEPTH &&
      n <= |c.stack| && n <= |c.registers| && |r.0.registers| == |c.registers| &&
      r.0.stack + r.0.registers[..n] == c.stack &&
      r.0.registers[n..] == c.registers[n..] &&
      r.0.ip == instruction.functionAddress &&
      r.0.counters == c.counters.(tailCalls := c.counters.tailCalls + 1)
  {
    var n := instruction.argCount;
    if depth >= MAX_TAIL_CALL_DEPTH then (c, depth, Failed(TAIL_CALL_DEPTH_EXCEEDED))
    else if n > |c.stack| || n > |c.registers| then (c, depth, Panicked)
    else
      var stackLen := |c.stack|;
      assert c.stack[..stackLen - n] + c.stack[stackLen - n..] == c.stack;
      (c.(registers := c.stack[stackLen - n..] + c.registers[n..],
          stack := c.stack[..stackLen - n],
          ip := instruction.functionAddress,
          counters := c.counters.(tailCalls := c.counters.tailCalls + 1)), depth + 1, Done)
  }

  // ---------------------------------------------------------------------
  // VectorAddInt
  // ---------------------------------------------------------------------

  /** The number of triples `zip` forms: the shortest of the three register lists. */
  function Zipped(aRegs: seq<nat>, bRegs: seq<nat>, resultRegs: seq<nat>): (n: nat)
    ensures n <= |aRegs| && n <= |bRegs| && n <= |resultRegs|
  {
    if |aRegs| <= |bRegs| && |aRegs| <= |resultRegs| then |aRegs|
    else if |bRegs| <= |resultRegs| then |bRegs|
    else |resultRegs|
  }

  /**
   * The registers after the first `k` triples of `VectorAddInt`, in order:
   * a triple whose sources both hold Integers writes their sum, any other
   * triple writes nothing; None when a triple panics.
   */
  function VectorSums(registers: seq<Value>, aRegs: seq<nat>, bRegs: seq<nat>, resultRegs: seq<nat>, k: nat): (r: Option<seq<Value>>)
    requires k <= Zipped(aRegs, bRegs, resultRegs)
    ensures r.Some? ==> |r.value| == |registers|
  {
    if k == 0 then Some(registers)
    else
      var before := VectorSums(registers, aRegs, bRegs, resultRegs, k - 1);
      if before.None? then None
      else
        var regs := before.value;
        var (a, b, target) := (aRegs[k - 1], bRegs[k - 1], resultRegs[k - 1]);
        if a >= |regs| || b >= |regs| then None
        else if regs[a].Integer? && regs[b].Integer? then
          if !Ast.IsI64(regs[a].i + regs[b].i) || target >= |regs| then None
          else Some(regs[target := Integer(regs[a].i + regs[b].i)])
        else Some(regs)
  }

  /** Once a triple panics, the whole instruction does. */
  lemma {:induction false} VectorPanicsPersist(registers: seq<Value>, aRegs: seq<nat>, bRegs: seq<nat>, resultRegs: seq<nat>, k: nat, m: nat)
    requires k <= m <= Zipped(aRegs, bRegs, resultRegs)
    requires VectorSums(registers, aRegs, bRegs, resultRegs, k).None?
    ensures VectorSums(registers, aRegs, bRegs, resultRegs, m).None?
    decreases m
  {
    if k < m {
      VectorPanicsPersist(registers, aRegs, bRegs, resultRegs, k, m - 1);
    }
  }

  /** A register named by none of the first `k` targets keeps its value. */
  lemma {:induction false} VectorSumsKeepOthers(registers: seq<Value>, aRegs: seq<nat>, bRegs: seq<nat>, resultRegs: seq<nat>, k: nat, j: nat)
    requires k <= Zipped(aRegs, bRegs, resultRegs)
    requires j < |registers| && j !in resultRegs[..k]
    requires VectorSums(registers, aRegs, bRegs, resultRegs, k).Some?
    ensures VectorSums(registers, aRegs, bRegs, resultRegs, k).value[j] == registers[j]
  {
    if k > 0 {
      assert resultRegs[..k - 1] <= resultRegs[..k];
      VectorSumsKeepOthers(registers, aRegs, bRegs, resultRegs, k - 1, j);
      assert resultRegs[k - 1] in resultRegs[..k];
    }
  }

  /** Each triple whose target no later triple overwrites and whose sources no earlier triple wrote holds the sum of the original sources. */
  lemma {:induction false} VectorSumsAdd(registers: seq<Value>, aRegs: seq<nat>, bRegs: seq<nat>, resultRegs: seq<nat>, k: nat, i: nat)
    requires k <= Zipped(aRegs, bRegs, resultRegs) && i < k
    requires VectorSums(registers, aRegs, bRegs, resultRegs, k).Some?
    requires aRegs[i] !in resultRegs[..i] && bRegs[i] !in resultRegs[..i] && resultRegs[i] !in resultRegs[i + 1..k]
    requires aRegs[i] < |registers| && bRegs[i] < |registers| && resultRegs[i] < |registers|
    requires registers[aRegs[i]].Integer? && registers[bRegs[i]].Integer?
    ensures VectorSums(registers, aRegs, bRegs, resultRegs, k).value[resultRegs[i]] ==
            Integer(registers[aRegs[i]].i + registers[bRegs[i]].i)
  {
    var before := VectorSums(registers, aRegs, bRegs, resultRegs, k - 1);
    if i == k - 1 {
      VectorSumsKeepOthers(registers, aRegs, bRegs, resultRegs, i, aRegs[i]);
      VectorSumsKeepOthers(registers, aRegs, bRegs, resultRegs, i, bRegs[i]);
    } else {
      assert resultRegs[i + 1..k - 1] <= resultRegs[i + 1..k];
      VectorSumsAdd(registers, aRegs, bRegs, resultRegs, k - 1, i);
      assert resultRegs[k - 1] in resultRegs[i + 1..k];
    }
  }

  // ---------------------------------------------------------------------
  // BulkCopy
  // ---------------------------------------------------------------------

  /**
   * The registers after the first `k` steps of `BulkCopy`: step i copies
   * register `src + i` to `dst + i` when both exist, reading the registers
   * as the earlier steps left them.
   */
  function Copied(registers: seq<Value>, src: nat, dst: nat, k: nat): (r: seq<Value>)
    ensures |r| == |registers|
  {
    if k == 0 then registers
    else
      var regs := Copied(registers, src, dst, k - 1);
      if src + k - 1 < |regs| && dst + k - 1 < |regs| then regs[dst + k - 1 := regs[src + k - 1]] else regs
  }

  /**
   * When the two ranges lie inside the registers and do not overlap, the
   * copy is the block move it is meant to be: the destination range holds
   * the source range and every other register is unchanged.
   */
  lemma {:induction false} CopyMovesBlock(registers: seq<Value>, src: nat, dst: nat, k: nat, j: nat)
    requires src + k <= |registers| && dst + k <= |registers|
    requires src + k <= dst || dst + k <= src
    requires j < |registers|
    ensures Copied(registers, src, dst, k)[j] == if dst <= j < dst + k then registers[src + j - dst] else registers[j]
  {
    if k > 0 {
      CopyMovesBlock(registers, src, dst, k - 1, j);
      CopyMovesBlock(registers, src, dst, k - 1, src + k - 1);
    }
  }

  /** With overlapping ranges copied forward, the first value is smeared across the destination instead of moved. */
  lemma OverlappingCopySmears(x: Value, y: Value, z: Value)
    ensures Copied([x, y, z], 0, 1, 2) == [x, x, x]
  {
    assert Copied([x, y, z], 0, 1, 1) == [x, x, z];
  }

  // ---------------------------------------------------------------------
  // PredictedJumpTrue
  // ---------------------------------------------------------------------

  /**
   * `PredictedJumpTrue`: true jumps and counts a predicted branch, false
   * falls through and counts a misprediction, anything else is an error.
   */
  function PredictedJumpStep(c: Context, instruction: SpecializedInstruction): (r: (Context, Outcome))
    requires instruction.PredictedJumpTrue?
    ensures r.1 == Done <==> instruction.conditionReg < |c.registers| && c.registers[instruction.conditionReg].Boolean?
    ensures r.1 == Failed(INVALID_CONDITION) <==>
      instruction.conditionReg < |c.registers| && !c.registers[instruction.conditionReg].Boolean?
    ensures r.1 != Done ==> r.0 == c
    ensures r.1 == Done ==>
      r.0.registers == c.registers && r.0.stack == c.stack &&
      r.0.counters.predictedBranches + r.0.counters.branchMispredictions ==
        c.counters.predictedBranches + c.counters.branchMispredictions + 1 &&
      (c.registers[instruction.conditionReg].b <==> r.0.counters.predictedBranches == c.counters.predictedBranches + 1) &&
      r.0.ip == if c.registers[instruction.conditionReg].b then instruction.target else c.ip
  {
    if instruction.conditionReg >= |c.registers| then (c, Panicked)
    else match c.registers[instruction.conditionReg]
      case Boolean(true) =>
        (c.(ip := instruction.target, counters := c.counters.(predictedBranches := c.counters.predictedBranches + 1)), Done)
      case Boolean(false) =>
        (c.(counters := c.counters.(branchMispredictions := c.counters.branchMispredictions + 1)), Done)
      case _ => (c, Failed(INVALID_CONDITION))
  }

  // ---------------------------------------------------------------------
  // execute_specialized
  // ---------------------------------------------------------------------

  /**
   * `execute_specialized` on a context and a tail-call depth. The arms the
   * executor does not handle (integer modulo, float subtraction and
   * division, while loops, recursive tail calls, the other vector
   * operations, bulk fills and `PredictedJumpFalse`) succeed and change
   * nothing. The depth only ever grows.
   */
  function Step(c: Context, depth: nat, instruction: SpecializedInstruction): (r: (Context, nat, Outcome))
    ensures depth <= r.1
    decreases instruction, 1
  {
    if IsArithmetic(instruction) then
      var (c1, outcome) := ArithmeticStep(c, instruction);
      (c1, depth, outcome)
    else match instruction
      case FastForLoop(_, _, _, _, _, _, _) =>
        var (c1, outcome) := ForLoopStep(c, instruction);
        (c1, depth, outcome)
      case TailCall(_, _, _) => TailCallStep(c, depth, instruction)
      case VectorAddInt(aRegs, bRegs, resultRegs) =>
        var sums := VectorSums(c.registers, aRegs, bRegs, resultRegs, Zipped(aRegs, bRegs, resultRegs));
        if sums.None? then (c, depth, Panicked)
        else (c.(registers := sums.value, counters := c.counters.(simdOperations := c.counters.simdOperations + 1)), depth, Done)
      case BulkCopy(src, dst, count) =>
        (c.(registers := Copied(c.registers, src, dst, count),
            counters := c.counters.(bulkOperations := c.counters.bulkOperations + 1)), depth, Done)
      case InlinedCall(_, body, _) =>
        var (c1, depth1, outcome) := RunSequence(c, depth, body, instruction);
        if outcome == Done then (c1.(counters := c1.counters.(inlinedCalls := c1.counters.inlinedCalls + 1)), depth1, Done)
        else (c1, depth1, outcome)
      case LoadPrecomputedResult(result, target) =>
        if target < |c.registers| then (c.(registers := c.registers[target := result]), depth, Done)
        else (c, depth, Panicked)
      case PredictedJumpTrue(_, _, _) =>
        var (c1, outcome) := PredictedJumpStep(c, instruction);
        (c1, depth, outcome)
      case _ => (c, depth, Done)
  }

  /**
   * A sequence of instructions run one after another, stopping at the
   * first that does not succeed; `parent` is the instruction the sequence
   * belongs to.
   */
  function RunSequence(c: Context, depth: nat, code: seq<SpecializedInstruction>, ghost parent: SpecializedInstruction): (r: (Context, nat, Outcome))
    requires forall k :: k in code ==> k < parent
    ensures depth <= r.1
    decreases parent, 0, |code|
  {
    if |code| == 0 then (c, depth, Done)
    else
      assert code[0] in code;
      assert forall k :: k in code[1..] ==> k in code;
      var (c1, depth1, outcome) := Step(c, depth, code[0]);
      if outcome == Done then RunSequence(c1, depth1, code[1..], parent) else (c1, depth1, outcome)
  }

  /** No instruction, however deeply inlined, takes the tail-call depth past its maximum. */
  lemma {:induction false} StepKeepsDepthBound(c: Context, depth: nat, instruction: SpecializedInstruction)
    requires depth <= MAX_TAIL_CALL_DEPTH
    ensures Step(c, depth, instruction).1 <= MAX_TAIL_CALL_DEPTH
    decreases instruction, 1
  {
    if instruction.InlinedCall? && !IsArithmetic(instruction) {
      RunKeepsDepthBound(c, depth, instruction.inlinedInstructions, instruction);
    }
  }

  lemma {:induction false} RunKeepsDepthBound(c: Context, depth: nat, code: seq<SpecializedInstruction>, parent: SpecializedInstruction)
    requires forall k :: k in code ==> k < parent
    requires depth <= MAX_TAIL_CALL_DEPTH
    ensures RunSequence(c, depth, code, parent).1 <= MAX_TAIL_CALL_DEPTH
    decreases parent, 0, |code|
  {
    if |code| > 0 {
      assert code[0] in code;
      assert forall k :: k in code[1..] ==> k in code;
      StepKeepsDepthBound(c, depth, code[0]);
      var (c1, depth1, outcome) := Step(c, depth, code[0]);
      if outcome == Done {
        RunKeepsDepthBound(c1, depth1, code[1..], parent);
      }
    }
  }

  /**
   * Without a reset, a run of argument-less tail calls from depth d
   * succeeds exactly when it has at most 1000 - d calls.
   */
  lemma {:induction false} TailCallsUpToLimit(c: Context, depth: nat, code: seq<SpecializedInstruction>, parent: SpecializedInstruction)
    requires forall k :: k in code ==> k < parent
    requires forall k :: k in code ==> k.TailCall? && k.argCount == 0
    requires depth <= MAX_TAIL_CALL_DEPTH
    ensures RunSequence(c, depth, code, parent).2 == Done <==> depth + |code| <= MAX_TAIL_CALL_DEPTH
    ensures RunSequence(c, depth, code, parent).2 != Done ==> RunSequence(c, depth, code, parent).2 == Failed(TAIL_CALL_DEPTH_EXCEEDED)
    decreases |code|
  {
    if |code| > 0 {
      assert code[0] in code;
      assert forall k :: k in code[1..] ==> k in code;
      var (c1, depth1, outcome) := Step(c, depth, code[0]);
      if outcome == Done {
        TailCallsUpToLimit(c1, depth1, code[1..], parent);
      }
    }
  }

  // ---------------------------------------------------------------------
  // The executor and its context
  // ---------------------------------------------------------------------

  /** `SpecializedExecutionContext`; the call stack it declares is never touched by the executor. */
  class SpecializedExecutionContext {
    var registers: seq<Value>
    var stack: seq<Value>
    var instructionPointer: nat
    var counters: Counters

    function State(): Context
      reads this
    {
      Context(registers, stack, instructionPointer, counters)
    }

    constructor (registers: seq<Value>, stack: seq<Value>)
      ensures State() == Context(registers, stack, 0, NO_COUNTS)
    {
      this.registers := registers;
      this.stack := stack;
      instructionPointer := 0;
      counters := NO_COUNTS;
    }
  }

  /** `SpecializedExecutor`. */
  class SpecializedExecutor {
    var tailCallDepth: nat
    const maxTailCallDepth: nat

    constructor ()
      ensures tailCallDepth == 0 && maxTailCallDepth == MAX_TAIL_CALL_DEPTH
    {
      tailCallDepth := 0;
      maxTailCallDepth := MAX_TAIL_CALL_DEPTH;
    }

    /** `reset_tail_call_depth`, called when a function returns. */
    method ResetTailCallDepth()
      modifies this
      ensures tailCallDepth == 0
    {
      tailCallDepth := 0;
    }

    /** `execute_specialized`. */
    method ExecuteSpecialized(instruction: SpecializedInstruction, context: SpecializedExecutionContext) returns (outcome: Outcome)
      requires maxTailCallDepth == MAX_TAIL_CALL_DEPTH
      modifies this, context
      ensures (context.State(), tailCallDepth, outcome) == Step(old(context.State()), old(tailCallDepth), instruction)
      decreases instruction, 1
    {
      hide ArithmeticStep, ForLoopStep, TailCallStep, PredictedJumpStep, RunSequence, VectorSums, Copied;
      if IsArithmetic(instruction) {
        outcome := ExecuteArithmetic(instruction, context);
        return;
      }
      match instruction {
        case FastForLoop(_, _, _, _, _, _, _) =>
          outcome := ExecuteForLoop(instruction, context);
        case TailCall(_, _, _) =>
          outcome := ExecuteTailCall(instruction, context);
        case VectorAddInt(_, _, _) =>
          outcome := ExecuteVectorAdd(instruction, context);
        case BulkCopy(_, _, _) =>
          outcome := ExecuteBulkCopy(instruction, context);
        case InlinedCall(_, body, _) =>
          outcome := ExecuteSequence(body, context, instruction);
          if outcome == Done {
            context.counters := context.counters.(inlinedCalls := context.counters.inlinedCalls + 1);
          }
        case LoadPrecomputedResult(result, target) =>
          if target >= |context.registers| {
            return Panicked;
          }
          context.registers := context.registers[target := result];
          outcome := Done;
        case PredictedJumpTrue(_, _, _) =>
          outcome := ExecutePredictedJump(instruction, context);
        case _ =>
          outcome := Done;
      }
    }

    /** The loop over an inlined call's instructions, stopping at the first error. */
    method ExecuteSequence(code: seq<SpecializedInstruction>, context: SpecializedExecutionContext, ghost parent: SpecializedInstruction)
      returns (outcome: Outcome)
      requires maxTailCallDepth == MAX_TAIL_CALL_DEPTH
      requires forall k :: k in code ==> k < parent
      modifies this, context
      ensures (context.State(), tailCallDepth, outcome) == RunSequence(old(context.State()), old(tailCallDepth), code, parent)
      decreases parent, 0
    {
      var i := 0;
      while i < |code|
        invariant i <= |code|
        invariant forall k :: k in code[i..] ==> k in code
        invariant RunSequence(context.State(), tailCallDepth, code[i..], parent) ==
                  RunSequence(old(context.State()), old(tailCallDepth), code, parent)
        decreases |code| - i
      {
        assert code[i..][0] == code[i] && code[i..][1..] == code[i + 1..];
        assert code[i] in code[i..];
        assert forall k :: k in code[i + 1..] ==> k in code[i..];
        outcome := ExecuteSpecialized(code[i], context);
        if outcome != Done {
          return;
        }
        i := i + 1;
      }
      outcome := Done;
    }

    method ExecuteArithmetic(instruction: SpecializedInstruction, context: SpecializedExecutionContext) returns (outcome: Outcome)
      requires IsArithmetic(instruction)
      modifies context
      ensures (context.State(), outcome) == ArithmeticStep(old(context.State()), instruction)
    {
      if instruction.FastDivInt? && instruction.b == 0 {
        return Failed(DIVISION_BY_ZERO);
      }
      if instruction.FastDivInt? && DivOverflows(instruction.a, instruction.b) {
        return Panicked;
      }
      if instruction.resultReg >= |context.registers| {
        return Panicked;
      }
      var v;
      if instruction.FastAddFloat? {
        v := Float(instruction.x + instruction.y);
      } else if instruction.FastMulFloat? {
        v := Float(instruction.x * instruction.y);
      } else {
        v := Integer(IntResult(instruction));
      }
      ghost var expected := ArithmeticStep(context.State(), instruction);
      assert expected.1 == Done;
      assert expected.0.registers[instruction.resultReg] == v;
      assert expected.0.registers == context.registers[instruction.resultReg := v];
      context.registers := context.registers[instruction.resultReg := v];
      context.counters := context.counters.(fastArithmeticOps := context.counters.fastArithmeticOps + 1);
      outcome := Done;
    }

    method ExecuteForLoop(instruction: SpecializedInstruction, context: SpecializedExecutionContext) returns (outcome: Outcome)
      requires instruction.FastForLoop?
      modifies context
      ensures (context.State(), outcome) == ForLoopStep(old(context.State()), instruction)
    {
      if instruction.counterReg >= |context.registers| {
        return Panicked;
      }
      var current := CounterValue(context.registers[instruction.counterReg], instruction.startValue);
      if LoopExits(current, instruction.endValue, instruction.step) {
        context.instructionPointer := instruction.breakTarget;
      } else {
        if !Ast.IsI64(current + instruction.step) {
          return Panicked;
        }
        context.registers := context.registers[instruction.counterReg := Integer(current + instruction.step)];
        context.instructionPointer := instruction.bodyStart;
      }
      context.counters := context.counters.(optimizedLoops := context.counters.optimizedLoops + 1);
      outcome := Done;
    }

    method ExecuteTailCall(instruction: SpecializedInstruction, context: SpecializedExecutionContext) returns (outcome: Outcome)
      requires instruction.TailCall? && maxTailCallDepth == MAX_TAIL_CALL_DEPTH
      modifies this, context
      ensures (context.State(), tailCallDepth, outcome) == TailCallStep(old(context.State()), old(tailCallDepth), instruction)
    {
      if tailCallDepth >= maxTailCallDepth {
        return Failed(TAIL_CALL_DEPTH_EXCEEDED);
      }
      var n := instruction.argCount;
      var stackLen := |context.stack|;
      if n > stackLen || n > |context.registers| {
        return Panicked;
      }
      var stack, original := context.stack, context.registers;
      var registers := original;
      for i := 0 to n
        invariant |registers| == |original|
        invariant forall j :: 0 <= j < i ==> registers[j] == stack[stackLen - n + j]
        invariant forall j :: i <= j < |registers| ==> registers[j] == original[j]
      {
        if stackLen > i {
          registers := registers[i := stack[stackLen - n + i]];
        }
      }
      assert registers == stack[stackLen - n..] + original[n..];
      context.registers := registers;
      context.instructionPointer := instruction.functionAddress;
      context.stack := context.stack[..stackLen - n];
      tailCallDepth := tailCallDepth + 1;
      context.counters := context.counters.(tailCalls := context.counters.tailCalls + 1);
      outcome := Done;
    }

    method ExecuteVectorAdd(instruction: SpecializedInstruction, context: SpecializedExecutionContext) returns (outcome: Outcome)
      requires instruction.VectorAddInt?
      modifies context
      ensures var sums := VectorSums(old(context.registers), instruction.aRegs, instruction.bRegs, instruction.resultRegs,
                                     Zipped(instruction.aRegs, instruction.bRegs, instruction.resultRegs));
        if sums.None? then outcome == Panicked && context.State() == old(context.State())
        else (outcome == Done && context.State() ==
          old(context.State()).(registers := sums.value, counters := old(context.counters).(simdOperations := old(context.counters).simdOperations + 1)))
    {
      var aRegs, bRegs, resultRegs := instruction.aRegs, instruction.bRegs, instruction.resultRegs;
      var registers := context.registers;
      for k := 0 to Zipped(aRegs, bRegs, resultRegs)
        invariant VectorSums(context.registers, aRegs, bRegs, resultRegs, k) == Some(registers)
      {
        var a, b, target := aRegs[k], bRegs[k], resultRegs[k];
        if a >= |registers| || b >= |registers| {
          VectorPanicsPersist(context.registers, aRegs, bRegs, resultRegs, k + 1, Zipped(aRegs, bRegs, resultRegs));
          return Panicked;
        }
        if registers[a].Integer? && registers[b].Integer? {
          var sum := registers[a].i + registers[b].i;
          if !Ast.IsI64(sum) || target >= |registers| {
            VectorPanicsPersist(context.registers, aRegs, bRegs, resultRegs, k + 1, Zipped(aRegs, bRegs, resultRegs));
            return Panicked;
          }
          registers := registers[target := Integer(sum)];
        }
      }
      context.registers := registers;
      context.counters := context.counters.(simdOperations := context.counters.simdOperations + 1);
      outcome := Done;
    }

    method ExecuteBulkCopy(instruction: SpecializedInstruction, context: SpecializedExecutionContext) returns (outcome: Outcome)
      requires instruction.BulkCopy?
      modifies context
      ensures outcome == Done
      ensures context.State() == old(context.State()).(
        registers := Copied(old(context.registers), instruction.srcStart, instruction.dstStart, instruction.count),
        counters := old(context.counters).(bulkOperations := old(context.counters).bulkOperations + 1))
    {
      var src, dst := instruction.srcStart, instruction.dstStart;
      var registers := context.registers;
      for i := 0 to instruction.count
        invariant registers == Copied(context.registers, src, dst, i)
      {
        if src + i < |registers| && dst + i < |registers| {
          registers := registers[dst + i := registers[src + i]];
        }
      }
      context.registers := registers;
      context.counters := context.counters.(bulkOperations := context.counters.bulkOperations + 1);
      outcome := Done;
    }

    method ExecutePredictedJump(instruction: SpecializedInstruction, context: SpecializedExecutionContext) returns (outcome: Outcome)
      requires instruction.PredictedJumpTrue?
      modifies context
      ensures (context.State(), outcome) == PredictedJumpStep(old(context.State()), instruction)
    {
      if instruction.conditionReg >= |context.registers| {
        return Panicked;
      }
      match context.registers[instruction.conditionReg] {
        case Boolean(true) =>
          context.instructionPointer := instruction.target;
          context.counters := context.counters.(predictedBranches := context.counters.predictedBranches + 1);
          outcome := Done;
        case Boolean(false) =>
          context.counters := context.counters.(branchMispredictions := context.counters.branchMispredictions + 1);
          outcome := Done;
        case _ =>
          outcome := Failed(INVALID_CONDITION);
      }
    }
  }

  // ---------------------------------------------------------------------
  // InstructionOptimizer
  // ---------------------------------------------------------------------

  /** `try_optimize_arithmetic`: no arithmetic pattern is recognised yet. */
  function TryOptimizeArithmetic(window: seq<Instruction>): Option<SpecializedInstruction>
  {
    None
  }

  /** `try_optimize_loop`: no loop pattern is recognised yet. */
  function TryOptimizeLoop(window: seq<Instruction>): Option<SpecializedInstruction>
  {
    None
  }

  /**
   * `optimize_sequence`: the scan tries a three-instruction arithmetic
   * window, then a six-instruction loop window, and otherwise skips one
   * instruction without keeping it. As no pattern matches, nothing is
   * ever emitted.
   */
  method OptimizeSequence(instructions: seq<Instruction>) returns (optimized: seq<SpecializedInstruction>)
    ensures optimized == []
  {
    optimized := [];
    var i := 0;
    while i < |instructions|
      invariant i <= |instructions|
      invariant optimized == []
      decreases |instructions| - i
    {
      var found := false;
      if i + 2 < |instructions| {
        match TryOptimizeArithmetic(instructions[i..i + 3]) {
          case Some(specialized) =>
            optimized := optimized + [specialized];
            i := i + 3;
            found := true;
          case None =>
        }
      }
      if !found && i + 5 < |instructions| {
        match TryOptimizeLoop(instructions[i..i + 6]) {
          case Some(specialized) =>
            optimized := optimized + [specialized];
            i := i + 6;
            found := true;
          case None =>
        }
      }
      if !found {
        i := i + 1;
      }
    }
  }
}
