/**
 * The optimising front end of the bytecode VM: instructions lowered to fast
 * variants, a peephole pass that recognises the addition of two integer
 * constants, one call-site cache per call instruction, and the loop that
 * runs the optimised code on the base VM's stack and locals.
 */
module OptimizedVm {
  import opened Wrappers
  import opened Values
  import opened Bytecode
  import Vm
  import Errors
  import Utf8

  datatype BuiltinFunction = Show | Length | Type | ToString

  datatype OptimizedInstruction =
    | AddIntInt
    | AddIntFloat
    | AddFloatFloat
    | MulIntInt
    | MulIntFloat
    | MulFloatFloat
    | LoadConstInt(i: int)
    | LoadConstFloat(f: real)
    | LoadConstString(s: string)
    | LoadConstBool(b: bool)
    | LoadLocalFast(localIndex: nat)
    | StoreLocalFast(localIndex: nat)
    | CallBuiltinFast(builtin: BuiltinFunction)
    | CallFunctionCached(address: nat, cacheSlot: nat)
    | JumpIfTrueFast(target: nat)
    | JumpIfFalseFast(target: nat)
    | JumpFast(target: nat)
    | Original(instruction: Instruction)

  // ---------------------------------------------------------------------
  // CallSiteCache
  // ---------------------------------------------------------------------

  /** What one call site has seen: the last target and the hits and misses so far. */
  datatype CacheState = CacheState(targetAddress: Option<nat>, hitCount: nat, missCount: nat)

  /** `CallSiteCache::hit`: a hit when the call goes where the last one went; a miss records the new target. */
  function CacheHit(c: CacheState, address: nat): (r: (bool, CacheState))
    ensures r.0 <==> c.targetAddress == Some(address)
    ensures r.1.targetAddress == Some(address)
    ensures r.1.hitCount + r.1.missCount == c.hitCount + c.missCount + 1
  {
    if c.targetAddress == Some(address) then (true, c.(hitCount := c.hitCount + 1))
    else (false, c.(targetAddress := Some(address), missCount := c.missCount + 1))
  }

  /** A call to the same target as the one before it always hits. */
  lemma RepeatedCallHits(c: CacheState, address: nat)
    ensures CacheHit(CacheHit(c, address).1, address).0
  {
  }

  /** The cache after a run of calls. */
  function CacheAfter(c: CacheState, addresses: seq<nat>): CacheState
    decreases |addresses|
  {
    if |addresses| == 0 then c else CacheAfter(CacheHit(c, addresses[0]).1, addresses[1..])
  }

  /** How many calls in a run go to the same target as the call before them (`last` before the first). */
  function Repeats(last: Option<nat>, addresses: seq<nat>): (r: nat)
    ensures r <= |addresses|
    decreases |addresses|
  {
    if |addresses| == 0 then 0
    else (if last == Some(addresses[0]) then 1 else 0) + Repeats(Some(addresses[0]), addresses[1..])
  }

  /** Over a run of calls, the hits are exactly the repeated targets and every other call is a miss. */
  lemma {:induction false} HitsAreRepeats(c: CacheState, addresses: seq<nat>)
    ensures CacheAfter(c, addresses).hitCount == c.hitCount + Repeats(c.targetAddress, addresses)
    ensures CacheAfter(c, addresses).missCount == c.missCount + |addresses| - Repeats(c.targetAddress, addresses)
    decreases |addresses|
  {
    if |addresses| > 0 {
      HitsAreRepeats(CacheHit(c, addresses[0]).1, addresses[1..]);
    }
  }

  /** `CallSiteCache`. */
  class CallSiteCache {
    var targetAddress: Option<nat>
    var hitCount: nat
    var missCount: nat

    function State(): CacheState
      reads this
    {
      CacheState(targetAddress, hitCount, missCount)
    }

    constructor ()
      ensures State() == CacheState(None, 0, 0)
    {
      targetAddress := None;
      hitCount := 0;
      missCount := 0;
    }

    method Hit(address: nat) returns (r: bool)
      modifies this
      ensures (r, State()) == CacheHit(old(State()), address)
    {
      if targetAddress == Some(address) {
        hitCount := hitCount + 1;
        r := true;
      } else {
        missCount := missCount + 1;
        targetAddress := Some(address);
        r := false;
      }
    }
  }

  // ---------------------------------------------------------------------
  // optimize_single_instruction and optimize_instructions
  // ---------------------------------------------------------------------

  /** The constants a load is inlined for. */
  predicate Inlinable(v: Value)
  {
    v.Integer? || v.Float? || v.Str? || v.Boolean?
  }

  /**
   * `optimize_single_instruction`, with `slot` the number of cache slots
   * made so far: constant loads of an inlinable constant carry the
   * constant, locals and jumps take their fast forms, a call takes the
   * next cache slot, and everything else is kept as it was.
   */
  function OptimizeSingle(constants: seq<Value>, instruction: Instruction, slot: nat): OptimizedInstruction
  {
    match instruction
    case LoadConstant(index) =>
      if index < |constants| then
        match constants[index]
        case Integer(i) => LoadConstInt(i)
        case Float(f) => LoadConstFloat(f)
        case Str(s) => LoadConstString(s)
        case Boolean(b) => LoadConstBool(b)
        case _ => Original(instruction)
      else Original(instruction)
    case LoadLocal(index) => LoadLocalFast(index)
    case StoreLocal(index) => StoreLocalFast(index)
    case Call(_) => CallFunctionCached(0, slot)
    case JumpIfTrue(target) => JumpIfTrueFast(target)
    case JumpIfFalse(target) => JumpIfFalseFast(target)
    case Jump(target) => JumpFast(target)
    case _ => Original(instruction)
  }

  /** The value an inlined constant load pushes. */
  function InlinedConstant(op: OptimizedInstruction): Option<Value>
  {
    match op
    case LoadConstInt(i) => Some(Integer(i))
    case LoadConstFloat(f) => Some(Float(f))
    case LoadConstString(s) => Some(Str(s))
    case LoadConstBool(b) => Some(Boolean(b))
    case _ => None
  }

  /** The original instruction an optimised one stands for, where it names one. */
  function Restored(op: OptimizedInstruction): Option<Instruction>
  {
    match op
    case LoadLocalFast(index) => Some(LoadLocal(index))
    case StoreLocalFast(index) => Some(StoreLocal(index))
    case JumpIfTrueFast(target) => Some(JumpIfTrue(target))
    case JumpIfFalseFast(target) => Some(JumpIfFalse(target))
    case JumpFast(target) => Some(Jump(target))
    case Original(instruction) => Some(instruction)
    case _ => None
  }

  /**
   * Lowering keeps every operand: an inlined load carries exactly the
   * constant the pool holds, and does so only for an integer, float,
   * string or boolean in range; a call becomes its cache slot; every other
   * instruction reads back as itself.
   */
  lemma LoweringKeepsMeaning(constants: seq<Value>, instruction: Instruction, slot: nat)
    ensures var op := OptimizeSingle(constants, instruction, slot);
      InlinedConstant(op).Some? <==>
        instruction.LoadConstant? && instruction.constantIndex < |constants| && Inlinable(constants[instruction.constantIndex])
    ensures var op := OptimizeSingle(constants, instruction, slot);
      InlinedConstant(op).Some? ==> InlinedConstant(op).value == constants[instruction.constantIndex]
    ensures var op := OptimizeSingle(constants, instruction, slot);
      instruction.Call? ==> op == CallFunctionCached(0, slot)
    ensures var op := OptimizeSingle(constants, instruction, slot);
      InlinedConstant(op).None? && !instruction.Call? ==> Restored(op) == Some(instruction)
  {
  }

  /** The number of call instructions in a stretch of code. */
  function CallCount(code: seq<Instruction>): (r: nat)
    ensures r <= |code|
  {
    if |code| == 0 then 0 else CallCount(code[..|code| - 1]) + (if code[|code| - 1].Call? then 1 else 0)
  }

  /** `optimize_instructions` before its peephole pass: each instruction lowered with the slots made before it. */
  function Lowered(constants: seq<Value>, code: seq<Instruction>): (r: seq<OptimizedInstruction>)
    ensures |r| == |code|
  {
    if |code| == 0 then []
    else
      var n := |code| - 1;
      Lowered(constants, code[..n]) + [OptimizeSingle(constants, code[n], CallCount(code[..n]))]
  }

  lemma {:induction false} LoweredAt(constants: seq<Value>, code: seq<Instruction>, i: nat)
    requires i < |code|
    ensures Lowered(constants, code)[i] == OptimizeSingle(constants, code[i], CallCount(code[..i]))
  {
    var n := |code| - 1;
    if i < n {
      LoweredAt(constants, code[..n], i);
      assert code[..n][..i] == code[..i];
    }
  }

  lemma {:induction false} CallCountMonotone(code: seq<Instruction>, i: nat, j: nat)
    requires i <= j <= |code|
    ensures CallCount(code[..i]) <= CallCount(code[..j])
    ensures i < j && code[i].Call? ==> CallCount(code[..i]) < CallCount(code[..j])
    decreases j
  {
    if i < j {
      CallCountMonotone(code, i, j - 1);
      assert code[..j][..j - 1] == code[..j - 1];
    }
  }

  /** Every call gets a cache slot of its own, numbered in order, and within the caches made. */
  lemma CacheSlotsDistinct(constants: seq<Value>, code: seq<Instruction>, i: nat, j: nat)
    requires i < j < |code| && code[i].Call? && code[j].Call?
    ensures Lowered(constants, code)[i].CallFunctionCached? && Lowered(constants, code)[j].CallFunctionCached?
    ensures Lowered(constants, code)[i].cacheSlot < Lowered(constants, code)[j].cacheSlot < CallCount(code)
  {
    LoweredAt(constants, code, i);
    LoweredAt(constants, code, j);
    CallCountMonotone(code, i, j);
    CallCountMonotone(code, j, |code|);
    assert code[..|code|] == code;
  }

  // ---------------------------------------------------------------------
  // peephole_optimize
  // ---------------------------------------------------------------------

  /** The code starts with two integer constant loads and an unoptimised add. */
  predicate Folds(code: seq<OptimizedInstruction>)
  {
    |code| >= 3 && code[0].LoadConstInt? && code[1].LoadConstInt? && code[2] == Original(Add)
  }

  /** `peephole_optimize`: scanning from the front, each such triple gets `AddIntInt` for its add. */
  function Peephole(code: seq<OptimizedInstruction>): (r: seq<OptimizedInstruction>)
    ensures |r| == |code|
    decreases |code|
  {
    if |code| == 0 then []
    else if Folds(code) then code[..2] + [AddIntInt] + Peephole(code[3..])
    else [code[0]] + Peephole(code[1..])
  }

  lemma PeepholeFolding(c: seq<OptimizedInstruction>, i: nat)
    requires i + 2 < |c| && c[i].LoadConstInt? && c[i + 1].LoadConstInt? && c[i + 2] == Original(Add)
    ensures Peephole(c[i..]) == [c[i], c[i + 1], AddIntInt] + Peephole(c[i + 3..])
  {
    var rest := c[i..];
    assert Folds(rest) && rest[..2] == [c[i], c[i + 1]] && rest[3..] == c[i + 3..];
  }

  lemma PeepholeKeeping(c: seq<OptimizedInstruction>, i: nat)
    requires i < |c| && !(i + 2 < |c| && c[i].LoadConstInt? && c[i + 1].LoadConstInt? && c[i + 2] == Original(Add))
    ensures Peephole(c[i..]) == [c[i]] + Peephole(c[i + 1..])
  {
    var rest := c[i..];
    assert !Folds(rest) && rest[0] == c[i] && rest[1..] == c[i + 1..];
  }

  /** Position i is the add of a foldable triple. */
  predicate ClosesFold(code: seq<OptimizedInstruction>, i: nat)
    requires i < |code|
  {
    i >= 2 && code[i - 2].LoadConstInt? && code[i - 1].LoadConstInt? && code[i] == Original(Add)
  }

  /**
   * The pass changes exactly the adds preceded by two integer constant
   * loads, into `AddIntInt`, and leaves every other instruction alone.
   */
  lemma {:induction false} PeepholeAt(code: seq<OptimizedInstruction>, i: nat)
    requires i < |code|
    ensures Peephole(code)[i] == if ClosesFold(code, i) then AddIntInt else code[i]
    decreases |code|
  {
    if Folds(code) {
      if i >= 3 {
        PeepholeAt(code[3..], i - 3);
      }
    } else if i >= 1 {
      PeepholeAt(code[1..], i - 1);
    }
  }

  /** Running the pass twice changes nothing more. */
  lemma PeepholeIdempotent(code: seq<OptimizedInstruction>)
    ensures Peephole(Peephole(code)) == Peephole(code)
  {
    var p := Peephole(code);
    forall i | 0 <= i < |p|
      ensures Peephole(p)[i] == p[i]
    {
      PeepholeAt(p, i);
      PeepholeAt(code, i);
      if ClosesFold(p, i) {
        PeepholeAt(code, i - 1);
        PeepholeAt(code, i - 2);
      }
    }
  }

  // ---------------------------------------------------------------------
  // execute_optimized and execute_builtin_fast
  // ---------------------------------------------------------------------

  /** What the optimised loop reads and changes: the base VM's stack and locals, the console, and the instruction counter. */
  datatype OptMachine = OptMachine(stack: seq<Value>, locals: seq<Value>, output: string, executed: nat)

  const TYPE_MISMATCH_ADD := Errors.RuntimeErrorNoLine("Type mismatch in optimized add")
  const LOCAL_NOT_FOUND := Errors.RuntimeErrorNoLine("Local variable not found")
  const LOCAL_OUT_OF_BOUNDS := Errors.RuntimeErrorNoLine("Local variable index out of bounds")
  const SINGLE_NOT_IMPLEMENTED := Errors.RuntimeErrorNoLine("Single instruction execution not implemented")
  const UNIMPLEMENTED_OPTIMIZED := Errors.RuntimeErrorNoLine("Unimplemented optimized instruction")
  const LENGTH_UNSUPPORTED := Errors.TypeError("Length not supported for this type")

  function BuiltinUnderflow(b: BuiltinFunction): Errors.FlowError
  {
    Errors.RuntimeErrorNoLine("Stack underflow in " + match b
      case Show => "show"
      case Length => "length"
      case Type => "type"
      case ToString => "toString")
  }

  /** `pop_stack`: the stack without its top, and the top if there was one. */
  function Unpushed(stack: seq<Value>): (seq<Value>, Option<Value>)
  {
    if |stack| == 0 then (stack, None) else (stack[..|stack| - 1], Some(stack[|stack| - 1]))
  }

  /**
   * `execute_builtin_fast`: each builtin pops its argument and, when it
   * succeeds, pushes one result, so the stack keeps its depth; only `show`
   * writes to the console, and only by appending.
   */
  function BuiltinStep(m: OptMachine, b: BuiltinFunction): (r: (OptMachine, Vm.Status))
    ensures r.1 == Vm.Continue || r.1.Fail?
    ensures r.1 == Vm.Continue ==> |r.0.stack| == |m.stack| && m.output <= r.0.output
    ensures r.1 == Vm.Continue && b != Show ==> r.0.output == m.output
    ensures r.0.locals == m.locals && r.0.executed == m.executed
    ensures |m.stack| == 0 <==> r.1 == Vm.Fail(BuiltinUnderflow(b))
  {
    var (below, top) := Unpushed(m.stack);
    var popped := m.(stack := below);
    if top.None? then (popped, Vm.Fail(BuiltinUnderflow(b)))
    else
      var v := top.value;
      match b
      case Show => (m.(stack := below + [Null], output := m.output + (ValueText(v) + "\n")), Vm.Continue)
      case Length =>
        if v.Str? then (m.(stack := below + [Integer(|Utf8.Encode(v.s)|)]), Vm.Continue)
        else if v.Array? then (m.(stack := below + [Integer(|v.elements|)]), Vm.Continue)
        else (popped, Vm.Fail(LENGTH_UNSUPPORTED))
      case Type => (m.(stack := below + [Str(TypeName(v))]), Vm.Continue)
      case ToString => (m.(stack := below + [Str(ValueText(v))]), Vm.Continue)
  }

  /**
   * The three typed additions: each pops two values and pushes their sum
   * when they have the types it was lowered for, and reports a type
   * mismatch otherwise. An integer sum outside i64 panics, as Rust's
   * checked addition does in a debug build.
   */
  function AddStep(m: OptMachine, pc: nat, op: OptimizedInstruction): (r: (OptMachine, nat, Vm.Status))
    requires op.AddIntInt? || op.AddIntFloat? || op.AddFloatFloat?
    ensures r.0.locals == m.locals && r.0.output == m.output && r.0.executed == m.executed
    ensures r.2 == Vm.Continue ==> |m.stack| >= 2 && |r.0.stack| == |m.stack| - 1 && r.1 == pc + 1
  {
    match op
    case AddIntInt =>
      var (s1, b) := Unpushed(m.stack);
      var (s2, a) := Unpushed(s1);
      if a.Some? && a.value.Integer? && b.Some? && b.value.Integer? then
        if Vm.AddPanics(a.value, b.value) then (m.(stack := s2), pc, Vm.Panic)
        else (m.(stack := s2 + [Vm.Checked(a.value.i + b.value.i)]), pc + 1, Vm.Continue)
      else (m.(stack := s2), pc, Vm.Fail(TYPE_MISMATCH_ADD))
    case AddIntFloat =>
      var (s1, b) := Unpushed(m.stack);
      var (s2, a) := Unpushed(s1);
      if a.Some? && a.value.Integer? && b.Some? && b.value.Float? then
        (m.(stack := s2 + [Float(a.value.i as real + b.value.f)]), pc + 1, Vm.Continue)
      else (m.(stack := s2), pc, Vm.Fail(TYPE_MISMATCH_ADD))
    case AddFloatFloat =>
      var (s1, b) := Unpushed(m.stack);
      var (s2, a) := Unpushed(s1);
      if a.Some? && a.value.Float? && b.Some? && b.value.Float? then
        (m.(stack := s2 + [Float(a.value.f + b.value.f)]), pc + 1, Vm.Continue)
      else (m.(stack := s2), pc, Vm.Fail(TYPE_MISMATCH_ADD))
  }

  /** The fast local-variable accesses: a load needs the slot to exist, a store needs a value and the slot. */
  function LocalStep(m: OptMachine, pc: nat, op: OptimizedInstruction): (r: (OptMachine, nat, Vm.Status))
    requires op.LoadLocalFast? || op.StoreLocalFast?
    ensures r.0.output == m.output && r.0.executed == m.executed
    ensures r.2 == Vm.Continue <==> op.localIndex < |m.locals| && (op.StoreLocalFast? ==> |m.stack| > 0)
    ensures r.2 == Vm.Continue ==> r.1 == pc + 1 && |r.0.locals| == |m.locals|
  {
    match op
    case LoadLocalFast(index) =>
      if index < |m.locals| then (m.(stack := m.stack + [m.locals[index]]), pc + 1, Vm.Continue)
      else (m, pc, Vm.Fail(LOCAL_NOT_FOUND))
    case StoreLocalFast(index) =>
      var (below, top) := Unpushed(m.stack);
      if top.None? then (m, pc, Vm.Fail(Vm.UNDERFLOW))
      else if index < |m.locals| then (m.(stack := below, locals := m.locals[index := top.value]), pc + 1, Vm.Continue)
      else (m.(stack := below), pc, Vm.Fail(LOCAL_OUT_OF_BOUNDS))
  }

  /** The fast conditional jumps: each pops the condition and jumps on its truthiness, or falls through. */
  function BranchStep(m: OptMachine, pc: nat, op: OptimizedInstruction): (r: (OptMachine, nat, Vm.Status))
    requires op.JumpIfTrueFast? || op.JumpIfFalseFast?
    ensures r.0.locals == m.locals && r.0.output == m.output && r.0.executed == m.executed
    ensures r.2 == Vm.Continue <==> |m.stack| > 0
    ensures r.2 == Vm.Continue ==>
      r.0.stack == m.stack[..|m.stack| - 1] &&
      (r.1 == op.target || r.1 == pc + 1) &&
      (IsTruthy(m.stack[|m.stack| - 1]) == op.JumpIfTrueFast? ==> r.1 == op.target) &&
      (IsTruthy(m.stack[|m.stack| - 1]) != op.JumpIfTrueFast? ==> r.1 == pc + 1)
  {
    match op
    case JumpIfTrueFast(target) =>
      var (below, top) := Unpushed(m.stack);
      if top.None? then (m, pc, Vm.Fail(Vm.UNDERFLOW))
      else (m.(stack := below), if IsTruthy(top.value) then target else pc + 1, Vm.Continue)
    case JumpIfFalseFast(target) =>
      var (below, top) := Unpushed(m.stack);
      if top.None? then (m, pc, Vm.Fail(Vm.UNDERFLOW))
      else (m.(stack := below), if !IsTruthy(top.value) then target else pc + 1, Vm.Continue)
  }

  /**
   * One iteration of `execute_optimized` at `pc`: the machine afterwards,
   * the next `pc`, and how the step ends. Every step is counted.
   */
  function OptStep(m: OptMachine, pc: nat, op: OptimizedInstruction): (r: (OptMachine, nat, Vm.Status))
    ensures r.0.executed == m.executed + 1
    ensures r.2 == Vm.Continue || r.2.Fail? || r.2 == Vm.Panic
  {
    var m := m.(executed := m.executed + 1);
    if InlinedConstant(op).Some? then (m.(stack := m.stack + [InlinedConstant(op).value]), pc + 1, Vm.Continue)
    else match op
    case AddIntInt => AddStep(m, pc, op)
    case AddIntFloat => AddStep(m, pc, op)
    case AddFloatFloat => AddStep(m, pc, op)
    case LoadLocalFast(_) => LocalStep(m, pc, op)
    case StoreLocalFast(_) => LocalStep(m, pc, op)
    case JumpIfTrueFast(_) => BranchStep(m, pc, op)
    case JumpIfFalseFast(_) => BranchStep(m, pc, op)
    case JumpFast(target) => (m, target, Vm.Continue)
    case CallBuiltinFast(b) =>
      var (m1, status) := BuiltinStep(m, b);
      (m1, if status == Vm.Continue then pc + 1 else pc, status)
    case Original(_) => (m, pc, Vm.Fail(SINGLE_NOT_IMPLEMENTED))
    case _ => (m, pc, Vm.Fail(UNIMPLEMENTED_OPTIMIZED))
  }

  /**
   * `execute_optimized` from `pc`, for at most `fuel` steps: it returns Ok
   * (`Stop`) once `pc` leaves the code, and stops at the first error or
   * panic.
   */
  function RunFrom(code: seq<OptimizedInstruction>, m: OptMachine, pc: nat, fuel: nat): (r: (OptMachine, Vm.Status))
    ensures r.1 == Vm.Stop || r.1.Fail? || r.1 == Vm.Panic || r.1 == Vm.OutOfFuel
    decreases fuel
  {
    if fuel == 0 then (m, Vm.OutOfFuel)
    else if pc >= |code| then (m, Vm.Stop)
    else
      var (m1, next, status) := OptStep(m, pc, code[pc]);
      if status == Vm.Continue then RunFrom(code, m1, next, fuel - 1) else (m1, status)
  }

  /** A step that continues hands the rest of the fuel to the next instruction. */
  lemma RunsOn(code: seq<OptimizedInstruction>, m: OptMachine, pc: nat, fuel: nat)
    requires pc < |code| && OptStep(m, pc, code[pc]).2 == Vm.Continue
    ensures RunFrom(code, m, pc, fuel + 1) == RunFrom(code, OptStep(m, pc, code[pc]).0, OptStep(m, pc, code[pc]).1, fuel)
  {
  }

  /** Past the last instruction the run stops with the machine as it is. */
  lemma RunsOut(code: seq<OptimizedInstruction>, m: OptMachine, pc: nat, fuel: nat)
    requires |code| <= pc
    ensures RunFrom(code, m, pc, fuel + 1) == (m, Vm.Stop)
  {
  }

  /** On two Integers, `AddIntInt` pushes exactly what the base VM's `Add` computes, or panics where it does. */
  lemma AddIntIntAgreesWithAdd(m: OptMachine, pc: nat, below: seq<Value>, a: int, b: int)
    requires m.stack == below + [Integer(a), Integer(b)]
    ensures Vm.AddPanics(Integer(a), Integer(b)) ==> OptStep(m, pc, AddIntInt).2 == Vm.Panic
    ensures !Vm.AddPanics(Integer(a), Integer(b)) ==>
      Vm.AddValues(Integer(a), Integer(b)) == Ok(Vm.Checked(a + b)) &&
      OptStep(m, pc, AddIntInt) == (m.(stack := below + [Vm.Checked(a + b)], executed := m.executed + 1), pc + 1, Vm.Continue)
  {
    assert (below + [Integer(a), Integer(b)])[..|below| + 1] == below + [Integer(a)];
    assert (below + [Integer(a)])[..|below|] == below;
  }

  /** Two integer constant loads at the head of the code push both constants, in order. */
  lemma LoadsRun(code: seq<OptimizedInstruction>, m: OptMachine, a: int, b: int, fuel: nat)
    requires |code| >= 2 && code[0] == LoadConstInt(a) && code[1] == LoadConstInt(b)
    ensures RunFrom(code, m, 0, fuel + 2) ==
            RunFrom(code, m.(stack := m.stack + [Integer(a), Integer(b)], executed := m.executed + 2), 2, fuel)
  {
    var m1 := m.(stack := m.stack + [Integer(a)], executed := m.executed + 1);
    assert OptStep(m, 0, code[0]) == (m1, 1, Vm.Continue);
    assert m1.stack + [Integer(b)] == m.stack + [Integer(a), Integer(b)];
    assert OptStep(m1, 1, code[1]) == (m.(stack := m.stack + [Integer(a), Integer(b)], executed := m.executed + 2), 2, Vm.Continue);
  }

  /** An unoptimised instruction always fails: the single-instruction fallback is not implemented. */
  lemma OriginalFails(m: OptMachine, pc: nat, instruction: Instruction)
    ensures OptStep(m, pc, Original(instruction)).2 == Vm.Fail(SINGLE_NOT_IMPLEMENTED)
  {
  }

  /** Once folded, two constant loads and an add run to completion, leaving the checked sum. */
  lemma FoldedAddRuns(m: OptMachine, a: int, b: int)
    requires !Vm.AddPanics(Integer(a), Integer(b))
    ensures RunFrom([LoadConstInt(a), LoadConstInt(b), AddIntInt], m, 0, 4) ==
            (m.(stack := m.stack + [Vm.Checked(a + b)], executed := m.executed + 3), Vm.Stop)
  {
    hide OptStep, RunFrom, Vm.Checked, Vm.AddPanics;
    var folded := [LoadConstInt(a), LoadConstInt(b), AddIntInt];
    var m2 := m.(stack := m.stack + [Integer(a), Integer(b)], executed := m.executed + 2);
    var m3 := m.(stack := m.stack + [Vm.Checked(a + b)], executed := m.executed + 3);
    LoadsRun(folded, m, a, b, 2);
    AddIntIntAgreesWithAdd(m2, 2, m.stack, a, b);
    RunsOn(folded, m2, 2, 1);
    RunsOut(folded, m3, 3, 0);
  }

  /**
   * The peephole pass changes what a program does: it folds two constant
   * loads and an add, which then run to the checked sum, while the
   * unfolded add fails.
   */
  lemma FoldingRescuesConstantAdd(m: OptMachine, a: int, b: int)
    requires !Vm.AddPanics(Integer(a), Integer(b))
    ensures Peephole([LoadConstInt(a), LoadConstInt(b), Original(Add)]) == [LoadConstInt(a), LoadConstInt(b), AddIntInt]
    ensures RunFrom([LoadConstInt(a), LoadConstInt(b), AddIntInt], m, 0, 4).1 == Vm.Stop
    ensures RunFrom([LoadConstInt(a), LoadConstInt(b), Original(Add)], m, 0, 4).1 == Vm.Fail(SINGLE_NOT_IMPLEMENTED)
  {
    hide OptStep;
    var plain := [LoadConstInt(a), LoadConstInt(b), Original(Add)];
    assert Folds(plain) && plain[3..] == [];
    FoldedAddRuns(m, a, b);
    LoadsRun(plain, m, a, b, 2);
    OriginalFails(m.(stack := m.stack + [Integer(a), Integer(b)], executed := m.executed + 2), 2, Add);
  }

  /** On the same stack, exactly one of the two conditional jumps is taken. */
  lemma ConditionalJumpsComplement(m: OptMachine, pc: nat, target: nat)
    requires |m.stack| > 0 && target != pc + 1
    ensures OptStep(m, pc, JumpIfTrueFast(target)).2 == Vm.Continue
    ensures OptStep(m, pc, JumpIfFalseFast(target)).2 == Vm.Continue
    ensures (OptStep(m, pc, JumpIfTrueFast(target)).1 == target) != (OptStep(m, pc, JumpIfFalseFast(target)).1 == target)
    ensures OptStep(m, pc, JumpIfTrueFast(target)).1 == target <==> IsTruthy(m.stack[|m.stack| - 1])
  {
  }

  // ---------------------------------------------------------------------
  // OptimizedVM
  // ---------------------------------------------------------------------

  /** `OptimizedVM` over the base VM's stack, locals and constant pool. */
  class OptimizedVM {
    var stack: seq<Value>
    var locals: seq<Value>
    const constants: seq<Value>
    var output: string
    var code: seq<OptimizedInstruction>
    var caches: seq<CallSiteCache>
    var instructionsExecuted: nat

    function State(): OptMachine
      reads this
    {
      OptMachine(stack, locals, output, instructionsExecuted)
    }

    /** `with_base_vm`: no optimised code yet and no caches. */
    constructor (stack: seq<Value>, locals: seq<Value>, constants: seq<Value>)
      ensures State() == OptMachine(stack, locals, "", 0) && this.constants == constants
      ensures code == [] && caches == []
    {
      this.stack := stack;
      this.locals := locals;
      this.constants := constants;
      output := "";
      code := [];
      caches := [];
      instructionsExecuted := 0;
    }

    /** `optimize_instructions`: lower every instruction, one cache per call, then run the peephole pass. */
    method OptimizeInstructions(instructions: seq<Instruction>)
      modifies this`code, this`caches
      ensures code == Peephole(Lowered(constants, instructions))
      ensures |caches| == CallCount(instructions)
      ensures forall k :: 0 <= k < |caches| ==> fresh(caches[k])
    {
      code := [];
      caches := [];
      for i := 0 to |instructions|
        invariant code == Lowered(constants, instructions[..i])
        invariant |caches| == CallCount(instructions[..i])
        invariant forall k :: 0 <= k < |caches| ==> fresh(caches[k])
      {
        var prefix := instructions[..i + 1];
        assert prefix[..i] == instructions[..i] && prefix[i] == instructions[i];
        var optimized := OptimizeSingleInstruction(instructions[i]);
        code := code + [optimized];
      }
      assert instructions[..|instructions|] == instructions;
      PeepholeOptimize();
    }

    /** `optimize_single_instruction`: a call also gets a new cache. */
    method OptimizeSingleInstruction(instruction: Instruction) returns (r: OptimizedInstruction)
      modifies this`caches
      ensures r == OptimizeSingle(constants, instruction, old(|caches|))
      ensures instruction.Call? ==> |caches| == old(|caches|) + 1 && caches[..old(|caches|)] == old(caches) && fresh(caches[old(|caches|)])
      ensures !instruction.Call? ==> caches == old(caches)
    {
      match instruction {
        case LoadConstant(index) =>
          r := Original(instruction);
          if index < |constants| {
            match constants[index] {
              case Integer(i) => r := LoadConstInt(i);
              case Float(f) => r := LoadConstFloat(f);
              case Str(s) => r := LoadConstString(s);
              case Boolean(b) => r := LoadConstBool(b);
              case _ =>
            }
          }
        case LoadLocal(index) => r := LoadLocalFast(index);
        case StoreLocal(index) => r := StoreLocalFast(index);
        case Call(_) =>
          var slot := |caches|;
          var cache := new CallSiteCache();
          caches := caches + [cache];
          r := CallFunctionCached(0, slot);
        case JumpIfTrue(target) => r := JumpIfTrueFast(target);
        case JumpIfFalse(target) => r := JumpIfFalseFast(target);
        case Jump(target) => r := JumpFast(target);
        case _ => r := Original(instruction);
      }
    }

    /** `peephole_optimize`: one scan, building the new code. */
    method PeepholeOptimize()
      modifies this`code
      ensures code == Peephole(old(code))
    {
      hide Peephole;
      var c := code;
      var out := [];
      var i := 0;
      while i < |c|
        invariant i <= |c|
        invariant Peephole(c) == out + Peephole(c[i..])
        decreases |c| - i
      {
        if i + 2 < |c| && c[i].LoadConstInt? && c[i + 1].LoadConstInt? && c[i + 2] == Original(Add) {
          PeepholeFolding(c, i);
          out := out + [c[i], c[i + 1], AddIntInt];
          i := i + 3;
        } else {
          PeepholeKeeping(c, i);
          out := out + [c[i]];
          i := i + 1;
        }
      }
      assert c[i..] == [];
      assert |Peephole(c[i..])| == 0;
      code := out;
    }

    method PopStack() returns (v: Option<Value>)
      modifies this`stack
      ensures (stack, v) == Unpushed(old(stack))
    {
      if |stack| == 0 {
        return None;
      }
      v := Some(stack[|stack| - 1]);
      stack := stack[..|stack| - 1];
    }

    /** `execute_builtin_fast`. */
    method ExecuteBuiltinFast(b: BuiltinFunction) returns (status: Vm.Status)
      modifies this`stack, this`output
      ensures (State(), status) == BuiltinStep(old(State()), b)
    {
      var top := PopStack();
      if top.None? {
        return Vm.Fail(BuiltinUnderflow(b));
      }
      var v := top.value;
      status := Vm.Continue;
      match b {
        case Show =>
          output := output + (ValueText(v) + "\n");
          stack := stack + [Null];
        case Length =>
          if v.Str? {
            stack := stack + [Integer(|Utf8.Encode(v.s)|)];
          } else if v.Array? {
            stack := stack + [Integer(|v.elements|)];
          } else {
            status := Vm.Fail(LENGTH_UNSUPPORTED);
          }
        case Type =>
          stack := stack + [Str(TypeName(v))];
        case ToString =>
          stack := stack + [Str(ValueText(v))];
      }
    }

    /** The typed additions of `execute_optimized`. */
    method ExecuteAdd(pc: nat, op: OptimizedInstruction) returns (next: nat, status: Vm.Status)
      requires op.AddIntInt? || op.AddIntFloat? || op.AddFloatFloat?
      modifies this`stack
      ensures (State(), next, status) == AddStep(old(State()), pc, op)
    {
      next, status := pc + 1, Vm.Continue;
      match op {
        case AddIntInt =>
          var b := PopStack();
          var a := PopStack();
          if a.Some? && a.value.Integer? && b.Some? && b.value.Integer? {
            if Vm.AddPanics(a.value, b.value) {
              return pc, Vm.Panic;
            }
            stack := stack + [Vm.Checked(a.value.i + b.value.i)];
          } else {
            return pc, Vm.Fail(TYPE_MISMATCH_ADD);
          }
        case AddIntFloat =>
          var b := PopStack();
          var a := PopStack();
          if a.Some? && a.value.Integer? && b.Some? && b.value.Float? {
            stack := stack + [Float(a.value.i as real + b.value.f)];
          } else {
            return pc, Vm.Fail(TYPE_MISMATCH_ADD);
          }
        case AddFloatFloat =>
          var b := PopStack();
          var a := PopStack();
          if a.Some? && a.value.Float? && b.Some? && b.value.Float? {
            stack := stack + [Float(a.value.f + b.value.f)];
          } else {
            return pc, Vm.Fail(TYPE_MISMATCH_ADD);
          }
      }
    }

    /** The fast local-variable accesses of `execute_optimized`. */
    method ExecuteLocal(pc: nat, op: OptimizedInstruction) returns (next: nat, status: Vm.Status)
      requires op.LoadLocalFast? || op.StoreLocalFast?
      modifies this`stack, this`locals
      ensures (State(), next, status) == LocalStep(old(State()), pc, op)
    {
      next, status := pc + 1, Vm.Continue;
      match op {
        case LoadLocalFast(index) =>
          if index < |locals| {
            stack := stack + [locals[index]];
          } else {
            return pc, Vm.Fail(LOCAL_NOT_FOUND);
          }
        case StoreLocalFast(index) =>
          var top := PopStack();
          if top.None? {
            return pc, Vm.Fail(Vm.UNDERFLOW);
          }
          if index < |locals| {
            locals := locals[index := top.value];
          } else {
            return pc, Vm.Fail(LOCAL_OUT_OF_BOUNDS);
          }
      }
    }

    /** The fast conditional jumps of `execute_optimized`. */
    method ExecuteBranch(pc: nat, op: OptimizedInstruction) returns (next: nat, status: Vm.Status)
      requires op.JumpIfTrueFast? || op.JumpIfFalseFast?
      modifies this`stack
      ensures (State(), next, status) == BranchStep(old(State()), pc, op)
    {
      next, status := pc + 1, Vm.Continue;
      match op {
        case JumpIfTrueFast(target) =>
          var top := PopStack();
          if top.None? {
            return pc, Vm.Fail(Vm.UNDERFLOW);
          }
          if IsTruthy(top.value) {
            next := target;
          }
        case JumpIfFalseFast(target) =>
          var top := PopStack();
          if top.None? {
            return pc, Vm.Fail(Vm.UNDERFLOW);
          }
          if !IsTruthy(top.value) {
            next := target;
          }
      }
    }

    /** The body of `execute_optimized`'s loop for one instruction. */
    method ExecuteOne(pc: nat, op: OptimizedInstruction) returns (next: nat, status: Vm.Status)
      modifies this`stack, this`locals, this`output, this`instructionsExecuted
      ensures (State(), next, status) == OptStep(old(State()), pc, op)
    {
      hide AddStep, LocalStep, BranchStep, BuiltinStep;
      instructionsExecuted := instructionsExecuted + 1;
      next, status := pc + 1, Vm.Continue;
      var constant := InlinedConstant(op);
      if constant.Some? {
        stack := stack + [constant.value];
        return;
      }
      match op {
        case AddIntInt => next, status := ExecuteAdd(pc, op);
        case AddIntFloat => next, status := ExecuteAdd(pc, op);
        case AddFloatFloat => next, status := ExecuteAdd(pc, op);
        case LoadLocalFast(_) => next, status := ExecuteLocal(pc, op);
        case StoreLocalFast(_) => next, status := ExecuteLocal(pc, op);
        case JumpIfTrueFast(_) => next, status := ExecuteBranch(pc, op);
        case JumpIfFalseFast(_) => next, status := ExecuteBranch(pc, op);
        case JumpFast(target) =>
          next := target;
        case CallBuiltinFast(b) =>
          status := ExecuteBuiltinFast(b);
          if status != Vm.Continue {
            next := pc;
          }
        case Original(_) =>
          return pc, Vm.Fail(SINGLE_NOT_IMPLEMENTED);
        case _ =>
          return pc, Vm.Fail(UNIMPLEMENTED_OPTIMIZED);
      }
    }

    /** `execute_optimized`, for at most `fuel` iterations. */
    method ExecuteOptimized(fuel: nat) returns (status: Vm.Status)
      modifies this`stack, this`locals, this`output, this`instructionsExecuted
      ensures (State(), status) == RunFrom(code, old(State()), 0, fuel)
    {
      hide OptStep;
      var pc: nat := 0;
      var remaining := fuel;
      while true
        invariant RunFrom(code, State(), pc, remaining) == RunFrom(code, old(State()), 0, fuel)
        decreases remaining
      {
        if remaining == 0 {
          return Vm.OutOfFuel;
        }
        if pc >= |code| {
          return Vm.Stop;
        }
        var next;
        next, status := ExecuteOne(pc, code[pc]);
        if status != Vm.Continue {
          return;
        }
        pc := next;
        remaining := remaining - 1;
      }
    }
  }
}
