/**
 * The JIT compiler's bookkeeping: profiling counts that mark a hot path at
 * 100 executions and compile it at 1000, the optimisation level chosen for
 * a compiled path, the placeholder native code per level, the accounting of
 * executable memory, the adaptive strategy ladder, and the native execution
 * of the specialised integer instructions.
 */
module Jit {
  import opened Wrappers
  import opened Values
  import opened Bytecode
  import Errors
  import Utf8
  import Ast
  import Vm
  import Specialized

  const HOT_PATH_THRESHOLD: nat := 100
  const COMPILATION_THRESHOLD: nat := 1000
  const ADAPTIVE_THRESHOLD: nat := 10000

  /** The length of the hot path `find_hot_path_end` assumes. */
  const HOT_PATH_LENGTH: nat := 10

  /** The x86 `nop` the placeholder native code is made of. */
  const NOP: Utf8.Byte := 0x90

  const HOT_PATH_NOT_FOUND := Errors.RuntimeErrorNoLine("Hot path not found")
  const DIVISION_BY_ZERO := Errors.RuntimeErrorNoLine("Division by zero")

  datatype JitBackend = Cranelift | Llvm | Native

  datatype OptimizationLevel = None | Basic | Aggressive | Maximum

  datatype OptimizationStrategy = Conservative | Balanced | Aggressive | Experimental

  /** `HotPath`, without its timings. */
  datatype HotPath = HotPath(
    startAddress: nat,
    endAddress: nat,
    executionCount: nat,
    compiled: bool,
    nativeCode: Option<seq<Utf8.Byte>>,
    optimizationLevel: OptimizationLevel)

  /** `CompiledFunction`, without its entry pointer, timing and gain. */
  datatype CompiledFunction = CompiledFunction(
    address: nat,
    nativeCode: seq<Utf8.Byte>,
    optimizationLevel: OptimizationLevel,
    executionCount: nat)

  /**
   * Everything the profiling and compilation paths read and change:
   * per-address execution counts and total times (in nanoseconds), the hot
   * paths and compiled functions by address, the adaptive optimiser's
   * strategy and baseline, and the executable memory in use.
   */
  datatype JitState = JitState(
    counts: map<nat, nat>,
    times: map<nat, nat>,
    hotPaths: map<nat, HotPath>,
    compiled: map<nat, CompiledFunction>,
    strategy: OptimizationStrategy,
    instructionsPerSecond: real,
    totalUsed: nat)

  /** `JitCompiler::new`: nothing profiled, the Balanced strategy, a zero baseline. */
  const INITIAL := JitState(map[], map[], map[], map[], OptimizationStrategy.Balanced, 0.0, 0)

  /** A count or total read from a map, zero when the address has none yet. */
  function CountAt(m: map<nat, nat>, address: nat): nat
  {
    if address in m then m[address] else 0
  }

  // ---------------------------------------------------------------------
  // Optimisation level and generated code
  // ---------------------------------------------------------------------

  /** The level `compile_hot_path` picks for a path executed `count` times. */
  function LevelFor(count: nat): (r: OptimizationLevel)
    ensures r == Maximum <==> count > ADAPTIVE_THRESHOLD
    ensures r == OptimizationLevel.Aggressive <==> 2 * COMPILATION_THRESHOLD < count <= ADAPTIVE_THRESHOLD
    ensures r == Basic <==> count <= 2 * COMPILATION_THRESHOLD
  {
    if count > ADAPTIVE_THRESHOLD then Maximum
    else if count > COMPILATION_THRESHOLD * 2 then OptimizationLevel.Aggressive
    else Basic
  }

  function LevelRank(level: OptimizationLevel): nat
  {
    match level
    case None => 0
    case Basic => 1
    case Aggressive => 2
    case Maximum => 3
  }

  /** A path executed more often is compiled at a level at least as high. */
  lemma LevelMonotone(count: nat, more: nat)
    requires count <= more
    ensures LevelRank(LevelFor(count)) <= LevelRank(LevelFor(more))
  {
  }

  /**
   * The placeholder code `compile_with_cranelift` emits for a level (the
   * LLVM and native backends call it too): 32, 64, 128 or 256 `nop`s.
   */
  function GeneratedCode(level: OptimizationLevel): (code: seq<Utf8.Byte>)
    ensures forall i :: 0 <= i < |code| ==> code[i] == NOP
  {
    var size := match level
      case None => 32
      case Basic => 64
      case Aggressive => 128
      case Maximum => 256;
    seq(size, _ => NOP)
  }

  /** Each level up doubles the generated code. */
  lemma CodeDoublesPerLevel(level: OptimizationLevel)
    ensures |GeneratedCode(level)| == 32 * Pow2(LevelRank(level))
  {
  }

  function Pow2(n: nat): nat
  {
    if n == 0 then 1 else 2 * Pow2(n - 1)
  }

  // ---------------------------------------------------------------------
  // JitMemoryManager
  // ---------------------------------------------------------------------

  /** `allocate_executable`'s accounting: the code's length is added to the memory in use. */
  function Allocated(totalUsed: nat, code: seq<Utf8.Byte>): (r: nat)
    ensures r >= totalUsed && r - totalUsed == |code|
  {
    totalUsed + |code|
  }

  /** `deallocate`: the size is taken off, stopping at zero. */
  function Deallocated(totalUsed: nat, size: nat): (r: nat)
    ensures r <= totalUsed
    ensures size <= totalUsed ==> r + size == totalUsed
    ensures size > totalUsed ==> r == 0
  {
    if size <= totalUsed then totalUsed - size else 0
  }

  /** Releasing what was allocated restores the accounting. */
  lemma DeallocateUndoesAllocate(totalUsed: nat, code: seq<Utf8.Byte>)
    ensures Deallocated(Allocated(totalUsed, code), |code|) == totalUsed
  {
  }

  /** `JitMemoryManager`; its code pages and free blocks are never used and are not modelled. */
  class JitMemoryManager {
    var totalUsed: nat
    const garbageCollectionThreshold: nat

    constructor ()
      ensures totalUsed == 0 && garbageCollectionThreshold == 1024 * 1024
    {
      totalUsed := 0;
      garbageCollectionThreshold := 1024 * 1024;
    }

    method AllocateExecutable(code: seq<Utf8.Byte>)
      modifies this
      ensures totalUsed == Allocated(old(totalUsed), code)
    {
      totalUsed := totalUsed + |code|;
    }

    method Deallocate(size: nat)
      modifies this
      ensures totalUsed == Deallocated(old(totalUsed), size)
    {
      if size <= totalUsed {
        totalUsed := totalUsed - size;
      } else {
        totalUsed := 0;
      }
    }
  }

  // ---------------------------------------------------------------------
  // AdaptiveOptimizer
  // ---------------------------------------------------------------------

  /** One step up the strategy ladder, staying at the top. */
  function MoreAggressive(s: OptimizationStrategy): (r: OptimizationStrategy)
    ensures r == Experimental <==> s == Experimental || s == OptimizationStrategy.Aggressive
  {
    match s
    case Conservative => Balanced
    case Balanced => OptimizationStrategy.Aggressive
    case Aggressive => Experimental
    case Experimental => Experimental
  }

  /** One step down the strategy ladder, staying at the bottom. */
  function MoreConservative(s: OptimizationStrategy): (r: OptimizationStrategy)
    ensures r == Conservative <==> s == Conservative || s == Balanced
  {
    match s
    case Experimental => OptimizationStrategy.Aggressive
    case Aggressive => Balanced
    case Balanced => Conservative
    case Conservative => Conservative
  }

  function StrategyRank(s: OptimizationStrategy): nat
  {
    match s
    case Conservative => 0
    case Balanced => 1
    case Aggressive => 2
    case Experimental => 3
  }

  /** The two steps undo each other away from the ends of the ladder, and each moves by exactly one rung or stays at its end. */
  lemma LadderSteps(s: OptimizationStrategy)
    ensures s != Experimental ==> MoreConservative(MoreAggressive(s)) == s
    ensures s != Conservative ==> MoreAggressive(MoreConservative(s)) == s
    ensures StrategyRank(MoreAggressive(s)) == if StrategyRank(s) == 3 then 3 else StrategyRank(s) + 1
    ensures StrategyRank(MoreConservative(s)) == if StrategyRank(s) == 0 then 0 else StrategyRank(s) - 1
  {
  }

  /** `calculate_performance_score`: executions per second, zero when no time was recorded. */
  function PerformanceScore(count: nat, nanos: nat): (r: real)
    ensures r >= 0.0
    ensures r > 0.0 <==> count > 0 && nanos > 0
  {
    if nanos > 0 then count as real / (nanos as real / 1_000_000_000.0) else 0.0
  }

  /** `analyze_and_optimize`: a score more than 10% under the baseline climbs, more than 10% over it descends. */
  function Analyzed(s: OptimizationStrategy, baseline: real, count: nat, nanos: nat): OptimizationStrategy
  {
    var score := PerformanceScore(count, nanos);
    if score < baseline * 0.9 then MoreAggressive(s)
    else if score > baseline * 1.1 then MoreConservative(s)
    else s
  }

  /**
   * The baseline is never updated from 0.0, so every analysis of an
   * address with recorded time steps down the ladder and nothing ever
   * makes the strategy more aggressive.
   */
  lemma ZeroBaselineOnlyDescends(s: OptimizationStrategy, count: nat, nanos: nat)
    ensures Analyzed(s, 0.0, count, nanos) == if count > 0 && nanos > 0 then MoreConservative(s) else s
  {
  }

  /** `AdaptiveOptimizer`; its history and metrics other than the baseline are never read. */
  class AdaptiveOptimizer {
    var currentStrategy: OptimizationStrategy
    var instructionsPerSecond: real

    constructor ()
      ensures currentStrategy == Balanced && instructionsPerSecond == 0.0
    {
      currentStrategy := Balanced;
      instructionsPerSecond := 0.0;
    }

    method AdjustStrategyMoreAggressive()
      modifies this`currentStrategy
      ensures currentStrategy == MoreAggressive(old(currentStrategy))
    {
      match currentStrategy {
        case Conservative => currentStrategy := Balanced;
        case Balanced => currentStrategy := OptimizationStrategy.Aggressive;
        case Aggressive => currentStrategy := Experimental;
        case Experimental => currentStrategy := Experimental;
      }
    }

    method AdjustStrategyMoreConservative()
      modifies this`currentStrategy
      ensures currentStrategy == MoreConservative(old(currentStrategy))
    {
      match currentStrategy {
        case Experimental => currentStrategy := OptimizationStrategy.Aggressive;
        case Aggressive => currentStrategy := Balanced;
        case Balanced => currentStrategy := Conservative;
        case Conservative => currentStrategy := Conservative;
      }
    }

    method AnalyzeAndOptimize(count: nat, nanos: nat)
      modifies this`currentStrategy
      ensures currentStrategy == Analyzed(old(currentStrategy), instructionsPerSecond, count, nanos)
    {
      var score := PerformanceScore(count, nanos);
      if score < instructionsPerSecond * 0.9 {
        AdjustStrategyMoreAggressive();
      } else if score > instructionsPerSecond * 1.1 {
        AdjustStrategyMoreConservative();
      }
    }
  }

  // ---------------------------------------------------------------------
  // Profiling and compilation
  // ---------------------------------------------------------------------

  /** `detect_hot_path`: a path of ten instructions from `start`, uncompiled, recording the count seen now. */
  function NewHotPath(start: nat, count: nat): HotPath
  {
    HotPath(start, start + HOT_PATH_LENGTH, count, false, Option.None, Basic)
  }

  /**
   * `compile_hot_path` for a registered path: the level follows the count
   * the path recorded, the code is allocated, the function is recorded
   * with no executions yet, and the path is marked compiled.
   */
  function CompiledPath(s: JitState, address: nat): (r: JitState)
    requires address in s.hotPaths
    ensures address in r.compiled && r.hotPaths.Keys == s.hotPaths.Keys && r.compiled.Keys == s.compiled.Keys + {address}
    ensures r.hotPaths[address].compiled
    ensures r.compiled[address].optimizationLevel == LevelFor(s.hotPaths[address].executionCount)
    ensures r.totalUsed == s.totalUsed + |r.compiled[address].nativeCode|
    ensures r.counts == s.counts && r.times == s.times && r.strategy == s.strategy
  {
    var path := s.hotPaths[address];
    var level := LevelFor(path.executionCount);
    var code := GeneratedCode(level);
    s.(compiled := s.compiled[address := CompiledFunction(address, code, level, 0)],
       hotPaths := s.hotPaths[address := path.(compiled := true, nativeCode := Some(code), optimizationLevel := level)],
       totalUsed := Allocated(s.totalUsed, code))
  }

  /** `compile_hot_path`: an error, changing nothing, when the address has no hot path. */
  function Compilation(s: JitState, address: nat): (r: Result<JitState, Errors.FlowError>)
    ensures r.Err? <==> address !in s.hotPaths
    ensures r.Err? ==> r.error == HOT_PATH_NOT_FOUND
  {
    if address in s.hotPaths then Ok(CompiledPath(s, address)) else Err(HOT_PATH_NOT_FOUND)
  }

  /** The first step of `profile_instruction`: one more execution and its time. */
  function Counted(s: JitState, address: nat, executionTime: nat): (r: JitState)
    ensures r.counts == s.counts[address := CountAt(s.counts, address) + 1]
    ensures r.times == s.times[address := CountAt(s.times, address) + executionTime]
    ensures r == s.(counts := r.counts, times := r.times)
  {
    s.(counts := s.counts[address := CountAt(s.counts, address) + 1],
       times := s.times[address := CountAt(s.times, address) + executionTime])
  }

  /** At 100 executions an address without a hot path gets one. */
  function Detected(s: JitState, address: nat): (r: JitState)
    ensures r.hotPaths.Keys == s.hotPaths.Keys + (if CountAt(s.counts, address) >= HOT_PATH_THRESHOLD then {address} else {})
    ensures r == s.(hotPaths := r.hotPaths)
  {
    var count := CountAt(s.counts, address);
    if count >= HOT_PATH_THRESHOLD && address !in s.hotPaths then
      s.(hotPaths := s.hotPaths[address := NewHotPath(address, count)])
    else s
  }

  /** Whether `profile_instruction` compiles the address's hot path now. */
  predicate CompilationDue(s: JitState, address: nat)
  {
    CountAt(s.counts, address) >= COMPILATION_THRESHOLD && address in s.hotPaths && !s.hotPaths[address].compiled
  }

  /** From 1000 executions an uncompiled hot path is compiled; the result of the compilation is ignored. */
  function CompiledIfDue(s: JitState, address: nat): (r: JitState)
    ensures r.hotPaths.Keys == s.hotPaths.Keys
    ensures r.compiled.Keys == s.compiled.Keys + (if CompilationDue(s, address) then {address} else {})
    ensures r.counts == s.counts && r.times == s.times && r.strategy == s.strategy && r.instructionsPerSecond == s.instructionsPerSecond
  {
    if CompilationDue(s, address) then CompiledPath(s, address) else s
  }

  /** From 10000 executions the adaptive optimiser analyses the address. */
  function AnalyzedIfDue(s: JitState, address: nat): (r: JitState)
    ensures r == s.(strategy := r.strategy)
  {
    var count := CountAt(s.counts, address);
    if count >= ADAPTIVE_THRESHOLD then
      s.(strategy := Analyzed(s.strategy, s.instructionsPerSecond, count, CountAt(s.times, address)))
    else s
  }

  /**
   * `profile_instruction`: count the execution and add its time; at 100
   * executions register a hot path, from 1000 compile it if it is not yet
   * compiled, and from 10000 let the adaptive optimiser analyse the address.
   */
  function Profiled(s: JitState, address: nat, executionTime: nat): (r: JitState)
    ensures address in r.counts && r.counts == s.counts[address := CountAt(s.counts, address) + 1]
    ensures r.hotPaths.Keys >= s.hotPaths.Keys && r.compiled.Keys >= s.compiled.Keys
    ensures CountAt(s.counts, address) + 1 >= HOT_PATH_THRESHOLD ==> address in r.hotPaths
    ensures r.instructionsPerSecond == s.instructionsPerSecond
  {
    AnalyzedIfDue(CompiledIfDue(Detected(Counted(s, address, executionTime), address), address), address)
  }

  /** `execute_if_compiled`: a compiled address counts one more execution and yields the placeholder 42. */
  function ExecutedIfCompiled(s: JitState, address: nat): (r: (Option<Value>, JitState))
    ensures r.0.Some? <==> address in s.compiled
    ensures r.1.compiled.Keys == s.compiled.Keys
    ensures address in s.compiled ==> r.1.compiled[address].executionCount == s.compiled[address].executionCount + 1
    ensures forall a :: a in s.compiled && a != address ==> r.1.compiled[a] == s.compiled[a]
    ensures r.1 == s.(compiled := r.1.compiled)
  {
    if address in s.compiled then
      var f := s.compiled[address];
      (Some(Integer(42)), s.(compiled := s.compiled[address := f.(executionCount := f.executionCount + 1)]))
    else (Option.None, s)
  }

  /**
   * What profiling alone maintains: every address counted 100 times has a
   * hot path; each hot path recorded the count 100, so a compiled one was
   * compiled at the Basic level into 64 bytes; the compiled functions are
   * exactly the compiled paths; and the memory in use is 64 bytes for each.
   */
  ghost predicate ProfilingInvariant(s: JitState)
  {
    s.instructionsPerSecond == 0.0 && CountsCovered(s) && PathsInvariant(s)
  }

  ghost predicate CountsCovered(s: JitState)
  {
    forall a :: a in s.counts && s.counts[a] >= HOT_PATH_THRESHOLD ==> a in s.hotPaths
  }

  lemma InitialSatisfiesInvariant()
    ensures ProfilingInvariant(INITIAL)
  {
  }

  /** The invariant's clauses about hot paths, compiled functions and memory, which counting leaves alone. */
  ghost predicate PathsInvariant(s: JitState)
  {
    (forall a :: a in s.hotPaths ==> s.hotPaths[a].executionCount == HOT_PATH_THRESHOLD) &&
    (forall a :: a in s.compiled <==> a in s.hotPaths && s.hotPaths[a].compiled) &&
    (forall a :: a in s.compiled ==>
      s.compiled[a].optimizationLevel == Basic && s.compiled[a].nativeCode == GeneratedCode(Basic)) &&
    s.totalUsed == |GeneratedCode(Basic)| * |s.compiled|
  }

  /** Counting breaks the invariant at most for the counted address, and only when it has just reached 100. */
  lemma CountingKeepsPaths(s: JitState, address: nat, executionTime: nat)
    requires ProfilingInvariant(s)
    ensures var c := Counted(s, address, executionTime);
      c.instructionsPerSecond == 0.0 && PathsInvariant(c) &&
      (forall a :: a in c.counts && c.counts[a] >= HOT_PATH_THRESHOLD && a != address ==> a in c.hotPaths) &&
      (address !in c.hotPaths ==> c.counts[address] <= HOT_PATH_THRESHOLD)
  {
  }

  /** Registering the hot path restores the invariant, recording the count 100. */
  lemma DetectionRestoresInvariant(c: JitState, address: nat)
    requires c.instructionsPerSecond == 0.0 && PathsInvariant(c) && address in c.counts
    requires forall a :: a in c.counts && c.counts[a] >= HOT_PATH_THRESHOLD && a != address ==> a in c.hotPaths
    requires address !in c.hotPaths ==> c.counts[address] <= HOT_PATH_THRESHOLD
    ensures ProfilingInvariant(Detected(c, address))
  {
    if c.counts[address] >= HOT_PATH_THRESHOLD && address !in c.hotPaths {
      RegisteringKeepsPaths(c, address);
    }
  }

  /** A new, uncompiled hot path recorded at 100 executions keeps the path clauses. */
  lemma RegisteringKeepsPaths(c: JitState, address: nat)
    requires PathsInvariant(c) && address !in c.hotPaths
    ensures PathsInvariant(c.(hotPaths := c.hotPaths[address := NewHotPath(address, HOT_PATH_THRESHOLD)]))
  {
    var r := c.(hotPaths := c.hotPaths[address := NewHotPath(address, HOT_PATH_THRESHOLD)]);
    hide GeneratedCode;
    assert address !in c.compiled;
    assert forall a :: a in r.compiled <==> a in r.hotPaths && r.hotPaths[a].compiled;
  }

  /** Compiling a path registered at 100 executions compiles it at the Basic level. */
  lemma CompilationKeepsInvariant(d: JitState, address: nat)
    requires ProfilingInvariant(d)
    ensures ProfilingInvariant(CompiledIfDue(d, address))
  {
    if CompilationDue(d, address) {
      CompiledPathKeepsInvariant(d, address);
    }
  }

  lemma CompiledPathKeepsInvariant(d: JitState, address: nat)
    requires ProfilingInvariant(d) && CompilationDue(d, address)
    ensures ProfilingInvariant(CompiledPath(d, address))
  {
    var path := d.hotPaths[address];
    assert LevelFor(path.executionCount) == Basic;
    assert CompiledPath(d, address) == Compiling(d, address);
    CompilingKeepsPaths(d, address);
  }

  /** `CompiledPath` for a path registered at 100 executions, written out. */
  function Compiling(d: JitState, address: nat): JitState
    requires address in d.hotPaths
  {
    var code := GeneratedCode(Basic);
    d.(compiled := d.compiled[address := CompiledFunction(address, code, Basic, 0)],
       hotPaths := d.hotPaths[address := d.hotPaths[address].(compiled := true, nativeCode := Some(code), optimizationLevel := Basic)],
       totalUsed := d.totalUsed + |code|)
  }

  lemma CompilingKeepsPaths(d: JitState, address: nat)
    requires PathsInvariant(d) && address in d.hotPaths && !d.hotPaths[address].compiled
    ensures PathsInvariant(Compiling(d, address))
  {
    var r := Compiling(d, address);
    assert |GeneratedCode(Basic)| == 64;
    hide GeneratedCode;
    assert address !in d.compiled;
    assert |r.compiled| == |d.compiled| + 1;
    assert forall a :: a in r.compiled <==> a in r.hotPaths && r.hotPaths[a].compiled;
  }

  /**
   * Profiling keeps the invariant: a hot path is registered at exactly
   * 100 executions and never updated, so the Aggressive and Maximum
   * levels are never reached by profiling.
   */
  lemma {:induction false} ProfilingPreservesInvariant(s: JitState, address: nat, executionTime: nat)
    requires ProfilingInvariant(s)
    ensures ProfilingInvariant(Profiled(s, address, executionTime))
  {
    var c := Counted(s, address, executionTime);
    CountingKeepsPaths(s, address, executionTime);
    DetectionRestoresInvariant(c, address);
    CompilationKeepsInvariant(Detected(c, address), address);
  }

  /** Whatever sequence of profiled executions, every compiled function is at the Basic level. */
  lemma ProfilingCompilesOnlyBasic(s: JitState, a: nat)
    requires ProfilingInvariant(s) && a in s.compiled
    ensures s.compiled[a].optimizationLevel == Basic && |s.compiled[a].nativeCode| == 64
  {
  }

  /** Running compiled code leaves the invariant in place. */
  lemma ExecutionPreservesInvariant(s: JitState, address: nat)
    requires ProfilingInvariant(s)
    ensures ProfilingInvariant(ExecutedIfCompiled(s, address).1)
  {
    var r := ExecutedIfCompiled(s, address).1;
    assert r.compiled.Keys == s.compiled.Keys;
    assert |r.compiled| == |r.compiled.Keys| == |s.compiled.Keys| == |s.compiled|;
  }

  /** `JitCompiler`; its tail-call optimiser and settings are never read by these paths. */
  class JitCompiler {
    const backend: JitBackend
    var counts: map<nat, nat>
    var times: map<nat, nat>
    var hotPaths: map<nat, HotPath>
    var compiledFunctions: map<nat, CompiledFunction>
    const memory: JitMemoryManager
    const adaptive: AdaptiveOptimizer

    function State(): JitState
      reads this, memory, adaptive
    {
      JitState(counts, times, hotPaths, compiledFunctions, adaptive.currentStrategy, adaptive.instructionsPerSecond, memory.totalUsed)
    }

    constructor (backend: JitBackend)
      ensures State() == INITIAL && this.backend == backend
      ensures fresh(memory) && fresh(adaptive)
    {
      this.backend := backend;
      counts := map[];
      times := map[];
      hotPaths := map[];
      compiledFunctions := map[];
      memory := new JitMemoryManager();
      adaptive := new AdaptiveOptimizer();
    }

    method ProfileInstruction(address: nat, executionTime: nat)
      modifies this, memory, adaptive
      ensures State() == Profiled(old(State()), address, executionTime)
    {
      var count := CountAt(counts, address) + 1;
      counts := counts[address := count];
      times := times[address := CountAt(times, address) + executionTime];
      hide Counted, Detected, CompiledIfDue, AnalyzedIfDue;
      DetectIfDue(address);
      CompileIfDue(address);
      AnalyzeIfDue(address);
    }

    /** The detection step of `profile_instruction`. */
    method DetectIfDue(address: nat)
      modifies this`hotPaths
      ensures State() == Detected(old(State()), address)
    {
      if CountAt(counts, address) >= HOT_PATH_THRESHOLD && address !in hotPaths {
        DetectHotPath(address);
      }
    }

    /** The compilation step of `profile_instruction`. */
    method CompileIfDue(address: nat)
      modifies this, memory
      ensures State() == CompiledIfDue(old(State()), address)
    {
      if CountAt(counts, address) >= COMPILATION_THRESHOLD && address in hotPaths && !hotPaths[address].compiled {
        var _ := CompileHotPath(address);
      }
    }

    /** The analysis step of `profile_instruction`. */
    method AnalyzeIfDue(address: nat)
      modifies adaptive
      ensures State() == AnalyzedIfDue(old(State()), address)
    {
      var count := CountAt(counts, address);
      if count >= ADAPTIVE_THRESHOLD {
        adaptive.AnalyzeAndOptimize(count, CountAt(times, address));
      }
    }

    /** `detect_hot_path`; the source reads the count with an index that would panic on an unprofiled address. */
    method DetectHotPath(start: nat)
      requires start in counts
      modifies this`hotPaths
      ensures hotPaths == old(hotPaths)[start := NewHotPath(start, counts[start])]
    {
      var end := start + HOT_PATH_LENGTH;
      hotPaths := hotPaths[start := HotPath(start, end, counts[start], false, Option.None, Basic)];
    }

    method CompileHotPath(address: nat) returns (r: Result<(), Errors.FlowError>)
      modifies this, memory
      ensures match Compilation(old(State()), address)
        case Ok(s) => r == Ok(()) && State() == s
        case Err(e) => r == Err(e) && State() == old(State())
    {
      if address !in hotPaths {
        return Err(HOT_PATH_NOT_FOUND);
      }
      var path := hotPaths[address];
      var level;
      if path.executionCount > ADAPTIVE_THRESHOLD {
        level := Maximum;
      } else if path.executionCount > COMPILATION_THRESHOLD * 2 {
        level := OptimizationLevel.Aggressive;
      } else {
        level := Basic;
      }
      var code := GeneratedCode(level);
      memory.AllocateExecutable(code);
      compiledFunctions := compiledFunctions[address := CompiledFunction(address, code, level, 0)];
      hotPaths := hotPaths[address := path.(compiled := true, nativeCode := Some(code), optimizationLevel := level)];
      r := Ok(());
    }

    method ExecuteIfCompiled(address: nat) returns (v: Option<Value>)
      modifies this`compiledFunctions
      ensures (v, State()) == ExecutedIfCompiled(old(State()), address)
    {
      if address in compiledFunctions {
        var f := compiledFunctions[address];
        compiledFunctions := compiledFunctions[address := f.(executionCount := f.executionCount + 1)];
        v := Some(Integer(42));
      } else {
        v := Option.None;
      }
    }
  }

  // ---------------------------------------------------------------------
  // JitInstruction::execute_native
  // ---------------------------------------------------------------------

  datatype JitInstruction =
    | FastAddInt(a: Specialized.I64, b: Specialized.I64)
    | FastMulInt(a: Specialized.I64, b: Specialized.I64)
    | FastSubInt(a: Specialized.I64, b: Specialized.I64)
    | FastDivInt(a: Specialized.I64, b: Specialized.I64)
    | FastLoop(counterReg: nat, startValue: Specialized.I64, endValue: Specialized.I64, step: Specialized.I64, bodyStart: nat, bodyEnd: nat)
    | TailCall(functionAddress: nat, argCount: nat, preserveStack: bool)
    | InlinedCall(originalAddress: nat, inlinedCode: seq<Instruction>)
    | VectorAdd(values: seq<real>)
    | VectorMul(values: seq<real>)
    | BulkCopy(srcAddr: nat, dstAddr: nat, size: nat)

  /** How native execution ends: a value, an error, or a Rust panic (the overflowing division). */
  datatype NativeOutcome = Returned(value: Value) | Raised(error: Errors.FlowError) | NativePanic

  /** `Iterator::sum` over floats, as exact reals. */
  function Sum(values: seq<real>): real
  {
    if |values| == 0 then 0.0 else Sum(values[..|values| - 1]) + values[|values| - 1]
  }

  /** `Iterator::product` over floats, as exact reals. */
  function Product(values: seq<real>): real
  {
    if |values| == 0 then 1.0 else Product(values[..|values| - 1]) * values[|values| - 1]
  }

  /**
   * `execute_native`: wrapping integer arithmetic, a division that refuses
   * zero, the sum and product of a vector, and Null for every other
   * instruction.
   */
  function ExecuteNative(instruction: JitInstruction): (r: NativeOutcome)
    ensures r.Raised? <==> instruction.FastDivInt? && instruction.b == 0
    ensures r.NativePanic? <==> instruction.FastDivInt? && Specialized.DivOverflows(instruction.a, instruction.b)
    ensures r.Returned? && (instruction.FastAddInt? || instruction.FastSubInt? || instruction.FastMulInt? || instruction.FastDivInt?) ==>
      r.value.Integer? && Ast.IsI64(r.value.i)
  {
    match instruction
    case FastAddInt(a, b) => Returned(Integer(Specialized.Wrap(a + b)))
    case FastMulInt(a, b) => Returned(Integer(Specialized.Wrap(a * b)))
    case FastSubInt(a, b) => Returned(Integer(Specialized.Wrap(a - b)))
    case FastDivInt(a, b) =>
      if b == 0 then Raised(DIVISION_BY_ZERO)
      else if Specialized.DivOverflows(a, b) then NativePanic
      else
        Specialized.TruncDivInRange(a, b);
        Returned(Integer(Vm.TruncDiv(a, b)))
    case VectorAdd(values) => Returned(Float(Sum(values)))
    case VectorMul(values) => Returned(Float(Product(values)))
    case _ => Returned(Null)
  }

  /**
   * Native execution computes what the register executor stores for the
   * same operands: the same wrapped sum, difference and product, and the
   * same truncated quotient.
   */
  lemma NativeAgreesWithRegisterExecutor(a: Specialized.I64, b: Specialized.I64, reg: nat)
    ensures ExecuteNative(FastAddInt(a, b)) == Returned(Integer(Specialized.IntResult(Specialized.FastAddInt(a, b, reg))))
    ensures ExecuteNative(FastSubInt(a, b)) == Returned(Integer(Specialized.IntResult(Specialized.FastSubInt(a, b, reg))))
    ensures ExecuteNative(FastMulInt(a, b)) == Returned(Integer(Specialized.IntResult(Specialized.FastMulInt(a, b, reg))))
    ensures b != 0 && !Specialized.DivOverflows(a, b) ==>
      ExecuteNative(FastDivInt(a, b)) == Returned(Integer(Specialized.IntResult(Specialized.FastDivInt(a, b, reg))))
  {
  }
}
