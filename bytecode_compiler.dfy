/**
 * `BytecodeCompiler`, the second compiler in bytecode.rs, which nothing in
 * the program calls. It compiles into a list of chunks, one per function and
 * lambda body, and patches its jumps with the DISTANCE from the jump to the
 * end of the code rather than with the address the virtual machine jumps to.
 *
 * What compiling does is stated as functions over a compiler state; the class
 * at the end holds the same state in fields and changes it in place.
 */
module BytecodeCompiling {
  import opened Wrappers
  import opened Values
  import opened Bytecode
  import Ast
  import Errors

  const INVALID_PATCH := Errors.RuntimeErrorNoLine("Invalid jump instruction to patch")

  /** A chunk as this compiler fills it: its instructions and its constant pool (it writes no line numbers). */
  datatype ChunkCode = ChunkCode(code: seq<Instruction>, constants: seq<Value>)

  /** The chunks, the index of the one being written, the local names in slot order, the scope depth. */
  datatype BcState = BcState(chunks: seq<ChunkCode>, current: nat, locals: seq<string>, depth: nat)

  /** `BytecodeCompiler::new()`: one empty chunk, being written. */
  const START := BcState([ChunkCode([], [])], 0, [], 0)

  predicate Valid(st: BcState)
  {
    st.current < |st.chunks|
  }

  /** The code of the chunk being written. */
  function Code(st: BcState): seq<Instruction>
    requires Valid(st)
  {
    st.chunks[st.current].code
  }

  function Pool(st: BcState): seq<Value>
    requires Valid(st)
  {
    st.chunks[st.current].constants
  }

  /**
   * What every part of a compilation keeps: the same chunk is being written
   * and its code and pool only grow; chunks are only added; the other chunks
   * are left as they are; the depth is the same.
   */
  predicate Extends(a: BcState, b: BcState)
  {
    && Valid(a) && Valid(b) && a.current == b.current && |a.chunks| <= |b.chunks| && a.depth == b.depth
    && Code(a) <= Code(b) && Pool(a) <= Pool(b)
    && (forall k :: 0 <= k < |a.chunks| && k != a.current ==> b.chunks[k] == a.chunks[k])
  }

  lemma ExtendsTransitive(a: BcState, b: BcState, c: BcState)
    requires Extends(a, b) && Extends(b, c)
    ensures Extends(a, c)
  {
  }

  // ---------------------------------------------------------------------
  // Emission primitives
  // ---------------------------------------------------------------------

  /** `emit_instruction`: the instruction appended to the chunk being written. */
  function Emitted(st: BcState, i: Instruction): (r: BcState)
    requires Valid(st)
    ensures Extends(st, r) && Code(r) == Code(st) + [i] && Pool(r) == Pool(st)
    ensures |r.chunks| == |st.chunks| && r.locals == st.locals
  {
    st.(chunks := st.chunks[st.current := st.chunks[st.current].(code := Code(st) + [i])])
  }

  /**
   * `emit_constant`: `add_constant` on the chunk being written (the first
   * entry the pool treats as equal, else the value appended), then a
   * `LoadConstant` of that index.
   */
  function ConstantEmitted(st: BcState, v: Value): (r: BcState)
    requires Valid(st)
    ensures Extends(st, r) && |Code(r)| == |Code(st)| + 1 && Code(r)[..|Code(st)|] == Code(st)
    ensures |r.chunks| == |st.chunks| && r.locals == st.locals
    ensures Code(r)[|Code(st)|].LoadConstant? && Code(r)[|Code(st)|].constantIndex < |Pool(r)|
    ensures Shareable(v) ==> PoolEqual(Pool(r)[Code(r)[|Code(st)|].constantIndex], v)
    ensures !Shareable(v) ==> Pool(r) == Pool(st) + [v] && Code(r)[|Code(st)|] == LoadConstant(|Pool(st)|)
  {
    match FirstPoolMatch(Pool(st), v)
    case Some(k) => Emitted(st, LoadConstant(k))
    case None =>
      var pooled := st.(chunks := st.chunks[st.current := st.chunks[st.current].(constants := Pool(st) + [v])]);
      Emitted(pooled, LoadConstant(|Pool(st)|))
  }

  /** The precondition under which `patch_jump` succeeds. */
  predicate CanPatch(st: BcState, jump: nat)
  {
    Valid(st) && jump < |Code(st)| && IsJump(Code(st)[jump])
  }

  /**
   * `patch_jump`: the jump at `jump` gets as operand the number of
   * instructions after it, `len - jump - 1`.
   */
  function Patched(st: BcState, jump: nat): (r: BcState)
    requires CanPatch(st, jump)
    ensures Valid(r) && |Code(r)| == |Code(st)| && Code(r)[..jump] == Code(st)[..jump]
    ensures IsJump(Code(r)[jump]) && Code(r)[jump].target == |Code(st)| - jump - 1
    ensures Code(r)[jump].Jump? == Code(st)[jump].Jump? && Code(r)[jump].JumpIfFalse? == Code(st)[jump].JumpIfFalse?
    ensures forall k :: 0 <= k < |Code(r)| && k != jump ==> Code(r)[k] == Code(st)[k]
    ensures r.current == st.current && |r.chunks| == |st.chunks| && r.locals == st.locals && r.depth == st.depth
    ensures Pool(r) == Pool(st) && forall k :: 0 <= k < |st.chunks| && k != st.current ==> r.chunks[k] == st.chunks[k]
  {
    var distance := |Code(st)| - jump - 1;
    var old_ := Code(st)[jump];
    var patched := if old_.Jump? then Jump(distance) else if old_.JumpIfFalse? then JumpIfFalse(distance) else JumpIfTrue(distance);
    st.(chunks := st.chunks[st.current := st.chunks[st.current].(code := Code(st)[jump := patched])])
  }

  // ---------------------------------------------------------------------
  // Literals
  // ---------------------------------------------------------------------

  /**
   * `literal_to_value`: a scalar literal is its value; an array literal the
   * array of its items' values; an object literal the map of its entries,
   * a later entry replacing an earlier one with the same key.
   */
  function LiteralValue(l: Ast.Literal): (v: Value)
    ensures l.StringLit? ==> v == Str(l.s)
    ensures l.IntegerLit? ==> v == Integer(l.i)
    ensures l.BooleanLit? ==> v == Boolean(l.b)
    ensures l.ArrayLit? ==> v.Array? && |v.elements| == |l.items|
    ensures l.ObjectLit? ==> v.Object?
    decreases l, 1
  {
    match l
    case StringLit(s) => Str(s)
    case IntegerLit(i) => Integer(i)
    case BigIntegerLit(b) => BigInteger(b)
    case FloatLit(f) => Float(f)
    case BooleanLit(b) => Boolean(b)
    case NullLit => Null
    case ArrayLit(items) => Array(ItemValues(items))
    case ObjectLit(entries) => Object(EntryValues(l, entries, |entries|))
  }

  function ItemValues(items: seq<Ast.Literal>): (vs: seq<Value>)
    ensures |vs| == |items|
    ensures forall k :: 0 <= k < |items| ==> vs[k] == LiteralValue(items[k])
    decreases items
  {
    if |items| == 0 then []
    else [LiteralValue(items[0])] + ItemValues(items[1..])
  }

  /** The first `n` entries of an object literal inserted in order into an empty map. */
  function EntryValues(parent: Ast.Literal, entries: seq<(string, Ast.Literal)>, n: nat): (m: map<string, Value>)
    requires n <= |entries|
    requires forall k :: 0 <= k < |entries| ==> entries[k].1 < parent
    ensures forall k :: 0 <= k < n ==> entries[k].0 in m
    ensures forall key :: key in m ==> exists k :: 0 <= k < n && entries[k].0 == key
    ensures n > 0 ==> m[entries[n - 1].0] == LiteralValue(entries[n - 1].1)
    decreases parent, 0, n
  {
    if n == 0 then map[]
    else EntryValues(parent, entries, n - 1)[entries[n - 1].0 := LiteralValue(entries[n - 1].1)]
  }

  // ---------------------------------------------------------------------
  // Expressions
  // ---------------------------------------------------------------------

  /** `self.locals.iter().position(..)`: the FIRST slot holding `name`. */
  function FirstSlot(locals: seq<string>, name: string): (r: Option<nat>)
    ensures r.Some? ==> r.value < |locals| && locals[r.value] == name
    ensures r.Some? ==> forall k :: 0 <= k < r.value ==> locals[k] != name
    ensures r.None? ==> forall k :: 0 <= k < |locals| ==> locals[k] != name
  {
    if |locals| == 0 then None
    else if locals[0] == name then Some(0)
    else match FirstSlot(locals[1..], name)
      case None => None
      case Some(k) => Some(k + 1)
  }

  /** Every binary operator, `and` and `or` included, has an instruction of its own. */
  function OperatorInstruction(op: Ast.BinaryOperator): Instruction
  {
    match op
    case Add => Add
    case Subtract => Subtract
    case Multiply => Multiply
    case Divide => Divide
    case Modulo => Modulo
    case Equal => Equal
    case NotEqual => NotEqual
    case Greater => Greater
    case GreaterEqual => GreaterEqual
    case Less => Less
    case LessEqual => LessEqual
    case And => Instruction.And
    case Or => Instruction.Or
  }

  /** The parameter names, in order. */
  function ParameterNames(parameters: seq<Ast.Parameter>): (r: seq<string>)
    ensures |r| == |parameters| && forall k :: 0 <= k < |r| ==> r[k] == parameters[k].name
  {
    if |parameters| == 0 then [] else [parameters[0].name] + ParameterNames(parameters[1..])
  }

  /**
   * A new chunk for a function or lambda body, written one scope deeper with
   * the parameters as its only locals.
   */
  function BodyEntered(st: BcState, parameters: seq<Ast.Parameter>): (r: BcState)
    requires Valid(st)
    ensures Valid(r) && r.current == |st.chunks| && |r.chunks| == |st.chunks| + 1 && Code(r) == [] && Pool(r) == []
    ensures r.chunks[..|st.chunks|] == st.chunks && r.depth == st.depth + 1
  {
    st.(chunks := st.chunks + [ChunkCode([], [])], current := |st.chunks|, depth := st.depth + 1,
        locals := ParameterNames(parameters))
  }

  /** Back from a body: the chunk, the locals and the depth from before it. */
  function BodyLeft(body: BcState, outer: BcState): (r: BcState)
    requires Valid(outer) && |outer.chunks| <= |body.chunks| && body.depth > 0
    ensures Valid(r) && r.chunks == body.chunks && r.current == outer.current && r.locals == outer.locals
    ensures r.depth == body.depth - 1
  {
    body.(depth := body.depth - 1, locals := outer.locals, current := outer.current)
  }

  /** A variable: `LoadLocal` of its first slot, or `LoadGlobal` of its name. */
  function IdentifierEmitted(st: BcState, name: string): (r: BcState)
    requires Valid(st)
    ensures Extends(st, r) && r.locals == st.locals
  {
    match FirstSlot(st.locals, name)
    case Some(slot) => Emitted(st, LoadLocal(slot))
    case None => Emitted(st, LoadGlobal(name))
  }

  /** `compile_expression`. */
  function ExpressionEmitted(st: BcState, e: Ast.Expression): (r: BcState)
    requires Valid(st)
    ensures Extends(st, r) && r.locals == st.locals
    decreases e, 1
  {
    match e
    case Literal(l) => ConstantEmitted(st, LiteralValue(l))
    case Identifier(name) => IdentifierEmitted(st, name)
    case Binary(_, _, _) => BinaryEmitted(st, e)
    case Unary(op, operand) => Emitted(ExpressionEmitted(st, operand), if op == Ast.Minus then Negate else Not)
    case FunctionCall(callee, arguments) =>
      Emitted(Emitted(ExpressionsEmitted(st, arguments), LoadGlobal(callee)), Call(|arguments|))
    case MethodCall(_, _, _) => MethodCallEmitted(st, e)
    case ArrayExpr(elements) => Emitted(ExpressionsEmitted(st, elements), NewArray(|elements|))
    case ObjectExpr(properties) => Emitted(PropertiesEmitted(st, e, properties, 0), NewObject)
    case Index(_, _) => IndexEmitted(st, e)
    case PropertyAccess(accessed, property) => Emitted(ExpressionEmitted(st, accessed), GetProperty(property))
    case Lambda(_, _) => LambdaEmitted(st, e)
  }

  /** A binary operator, `and` and `or` included: both operands, then its instruction. */
  function BinaryEmitted(st: BcState, e: Ast.Expression): (r: BcState)
    requires Valid(st) && e.Binary?
    ensures Extends(st, r) && r.locals == st.locals
    decreases e, 0
  {
    var left := ExpressionEmitted(st, e.left);
    Emitted(ExpressionEmitted(left, e.right), OperatorInstruction(e.operator))
  }

  /** A method call: the receiver, the arguments, then `CallMethod`. */
  function MethodCallEmitted(st: BcState, e: Ast.Expression): (r: BcState)
    requires Valid(st) && e.MethodCall?
    ensures Extends(st, r) && r.locals == st.locals
    decreases e, 0
  {
    var receiver := ExpressionEmitted(st, e.receiver);
    Emitted(ExpressionsEmitted(receiver, e.methodArguments), CallMethod(e.method_))
  }

  /** Indexing: the indexed value, the index, then `GetIndex`. */
  function IndexEmitted(st: BcState, e: Ast.Expression): (r: BcState)
    requires Valid(st) && e.Index?
    ensures Extends(st, r) && r.locals == st.locals
    decreases e, 0
  {
    var indexed := ExpressionEmitted(st, e.indexed);
    Emitted(ExpressionEmitted(indexed, e.index), GetIndex)
  }

  /**
   * A lambda: its body compiled into a new chunk, followed there by
   * `ReturnValue`; here a `NewClosure` of that chunk's index.
   */
  function LambdaEmitted(st: BcState, e: Ast.Expression): (r: BcState)
    requires Valid(st) && e.Lambda?
    ensures Extends(st, r) && r.locals == st.locals
    decreases e, 0
  {
    var index := |st.chunks|;
    var entered := BodyEntered(st, e.lambdaParameters);
    var body := ExpressionEmitted(entered, e.lambdaBody);
    var returned := Emitted(body, ReturnValue);
    var left := BodyLeft(returned, st);
    assert Code(left) == Code(st) && Pool(left) == Pool(st);
    Emitted(left, NewClosure(index))
  }

  function ExpressionsEmitted(st: BcState, es: seq<Ast.Expression>): (r: BcState)
    requires Valid(st)
    ensures Extends(st, r) && r.locals == st.locals
    decreases es
  {
    if |es| == 0 then st
    else ExpressionsEmitted(ExpressionEmitted(st, es[0]), es[1..])
  }

  /** Object entries from `from` on: the key as a string constant, then the value. */
  function PropertiesEmitted(st: BcState, parent: Ast.Expression, properties: seq<(string, Ast.Expression)>, from: nat): (r: BcState)
    requires Valid(st) && from <= |properties|
    requires forall k :: 0 <= k < |properties| ==> properties[k].1 < parent
    ensures Extends(st, r) && r.locals == st.locals
    decreases parent, 0, |properties| - from
  {
    if from == |properties| then st
    else
      var value := ExpressionEmitted(ConstantEmitted(st, Str(properties[from].0)), properties[from].1);
      PropertiesEmitted(value, parent, properties, from + 1)
  }

  // ---------------------------------------------------------------------
  // Statements
  // ---------------------------------------------------------------------

  /**
   * The operand of the backward `Jump` of a loop: from the current length
   * back to the loop start, plus one, computed without underflow.
   */
  function BackOffset(loopStart: nat, currentPos: nat): nat
  {
    if loopStart <= currentPos then currentPos - loopStart + 1 else loopStart - currentPos - 1
  }

  /** `compile_statement`. It never fails: every jump it patches is one it emitted. */
  function StatementEmitted(st: BcState, s: Ast.Statement): (r: BcState)
    requires Valid(st)
    ensures Extends(st, r)
    decreases s, 2
  {
    match s
    case VariableDeclaration(name, value) =>
      var v := ExpressionEmitted(st, value);
      if v.depth == 0 then Emitted(v, StoreGlobal(name))
      else
        var declared := v.(locals := v.locals + [name]);
        Emitted(declared, StoreLocal(|declared.locals| - 1))
    case FunctionDeclaration(name, parameters, body) => FunctionEmitted(st, s)
    case If(_, _, _) => IfEmitted(st, s)
    case While(_, _) => WhileEmitted(st, s)
    case For(_, _, _, _) => ForEmitted(st, s)
    case Show(e) => Emitted(ExpressionEmitted(st, e), Print)
    case Return(returned) =>
      if returned.Some? then Emitted(ExpressionEmitted(st, returned.value), ReturnValue)
      else Emitted(st, Instruction.Return)
    case ExpressionStatement(e) => Emitted(ExpressionEmitted(st, e), Pop)
    case Import(_) => st
    case Export(_) => st
    case TryCatch(tryBlock, _, _) => BlockEmitted(st, tryBlock)
  }

  function BlockEmitted(st: BcState, ss: seq<Ast.Statement>): (r: BcState)
    requires Valid(st)
    ensures Extends(st, r)
    decreases ss
  {
    if |ss| == 0 then st
    else BlockEmitted(StatementEmitted(st, ss[0]), ss[1..])
  }

  /**
   * A function declaration: its body compiled into a new chunk, followed
   * there by `Return`; here `NewFunction` of that chunk's index and a store
   * to the global of the function's name.
   */
  function FunctionEmitted(st: BcState, s: Ast.Statement): (r: BcState)
    requires Valid(st) && s.FunctionDeclaration?
    ensures Extends(st, r)
    decreases s, 0
  {
    var index := |st.chunks|;
    var entered := BodyEntered(st, s.parameters);
    var body := BlockEmitted(entered, s.body);
    var returned := Emitted(body, Instruction.Return);
    var left := BodyLeft(returned, st);
    assert Code(left) == Code(st) && Pool(left) == Pool(st);
    Emitted(Emitted(left, NewFunction(index)), StoreGlobal(s.name))
  }

  /**
   * `if`: the condition and a `JumpIfFalse`, the then-branch; with an
   * else-branch a `Jump` over it. Each jump is patched with its distance.
   */
  function IfEmitted(st: BcState, s: Ast.Statement): (r: BcState)
    requires Valid(st) && s.If?
    ensures Extends(st, r)
    decreases s, 1
  {
    var condition := ExpressionEmitted(st, s.condition);
    var elseJump := |Code(condition)|;
    var thenStart := Emitted(condition, JumpIfFalse(0));
    var thenDone := BlockEmitted(thenStart, s.thenBranch);
    assert Code(thenDone)[elseJump] == Code(thenStart)[elseJump];
    var r := BranchesJoined(thenDone, s, elseJump);
    assert Code(st) <= Code(r) by {
      assert Code(st) == Code(thenDone)[..elseJump][..|Code(st)|];
    }
    r
  }

  /**
   * Extends, except that the code before `at` is what is kept (the
   * instruction at `at` is a jump being patched).
   */
  predicate ExtendsAround(a: BcState, b: BcState, at: nat)
  {
    && Valid(a) && Valid(b) && a.current == b.current && |a.chunks| <= |b.chunks| && a.depth == b.depth
    && at <= |Code(a)| <= |Code(b)| && Code(a)[..at] == Code(b)[..at] && Pool(a) <= Pool(b)
    && (forall k :: 0 <= k < |a.chunks| && k != a.current ==> b.chunks[k] == a.chunks[k])
  }

  /** The end of an `if`, from its then-branch on; `elseJump` is the condition's `JumpIfFalse`. */
  function BranchesJoined(thenDone: BcState, s: Ast.Statement, elseJump: nat): (r: BcState)
    requires CanPatch(thenDone, elseJump) && s.If?
    ensures ExtendsAround(thenDone, r, elseJump)
    decreases s, 0
  {
    if s.elseBranch.Else? then
      var endJump := |Code(thenDone)|;
      var jumped := Emitted(thenDone, Jump(0));
      var elseStart := Patched(jumped, elseJump);
      var elseDone := BlockEmitted(elseStart, s.elseBranch.statements);
      assert Code(elseDone)[endJump] == Code(elseStart)[endJump];
      var r := Patched(elseDone, endJump);
      assert Code(r)[..elseJump] == Code(thenDone)[..elseJump] by {
        assert Code(jumped)[..elseJump] == Code(thenDone)[..elseJump];
        assert Code(elseDone)[..elseJump] == Code(elseStart)[..elseJump];
      }
      r
    else
      Patched(thenDone, elseJump)
  }

  /**
   * `while`: the condition, a `JumpIfFalse` out, the body, and a `Jump` whose
   * operand is the distance back to the condition plus one.
   */
  function WhileEmitted(st: BcState, s: Ast.Statement): (r: BcState)
    requires Valid(st) && s.While?
    ensures Extends(st, r)
    decreases s, 0
  {
    var loopStart := |Code(st)|;
    var condition := ExpressionEmitted(st, s.condition);
    var exitJump := |Code(condition)|;
    var bodyStart := Emitted(condition, JumpIfFalse(0));
    var body := BlockEmitted(bodyStart, s.body);
    assert Code(body)[exitJump] == Code(bodyStart)[exitJump];
    var looped := Emitted(body, Jump(BackOffset(loopStart, |Code(body)|)));
    var r := Patched(looped, exitJump);
    assert Code(st) <= Code(r) by {
      assert Code(r)[..|Code(st)|] == Code(looped)[..|Code(st)|];
    }
    r
  }

  /**
   * `for v in start..end`: `v` becomes the last local; each round tests
   * `v < end` with the end expression compiled afresh, runs the body, adds 1
   * to `v` and jumps back; afterwards the LAST local is dropped, whichever
   * it is.
   */
  function ForEmitted(st: BcState, s: Ast.Statement): (r: BcState)
    requires Valid(st) && s.For?
    ensures Extends(st, r)
    decreases s, 0
  {
    var started := ExpressionEmitted(st, s.start);
    var counted := started.(locals := started.locals + [s.variable]);
    var slot := |counted.locals| - 1;
    var stored := Emitted(counted, StoreLocal(slot));
    var loopStart := |Code(stored)|;
    var ended := ExpressionEmitted(Emitted(stored, LoadLocal(slot)), s.end);
    var exitJump := |Code(ended)| + 1;
    var bodyStart := Emitted(Emitted(ended, Less), JumpIfFalse(0));
    var body := BlockEmitted(bodyStart, s.body);
    assert Code(body)[exitJump] == Code(bodyStart)[exitJump];
    var stepped := Emitted(Emitted(ConstantEmitted(Emitted(body, LoadLocal(slot)), Integer(1)), Add), StoreLocal(slot));
    assert Code(stepped)[exitJump] == Code(body)[exitJump];
    var looped := Emitted(stepped, Jump(BackOffset(loopStart, |Code(stepped)|)));
    var patched := Patched(looped, exitJump);
    assert Code(st) <= Code(patched) by {
      assert Code(patched)[..|Code(st)|] == Code(looped)[..|Code(st)|];
    }
    patched.(locals := if |patched.locals| > 0 then patched.locals[..|patched.locals| - 1] else patched.locals)
  }

  /** `compile_program`: every statement, then one `Halt`; the result is the list of chunks. */
  function ProgramEmitted(st: BcState, statements: seq<Ast.Statement>): (r: BcState)
    requires Valid(st)
    ensures Extends(st, r)
  {
    Emitted(BlockEmitted(st, statements), Halt)
  }

  // ---------------------------------------------------------------------
  // Properties
  // ---------------------------------------------------------------------

  /**
   * A compiled program: the main chunk is the first, it ends with `Halt`,
   * and every chunk created for a body comes after it.
   */
  lemma ProgramEndsWithHalt(statements: seq<Ast.Statement>)
    ensures var r := ProgramEmitted(START, statements);
      && r.current == 0 && |r.chunks| >= 1 && |Code(r)| >= 1 && Code(r)[|Code(r)| - 1] == Halt
  {
  }

  /**
   * An `if` without an else-branch: after the condition a `JumpIfFalse`
   * whose operand is the number of instructions after it, where the virtual
   * machine, which jumps to the operand as an address, needs the length of
   * the code. The two agree for no position of the jump.
   */
  lemma IfJumpIsRelative(st: BcState, s: Ast.Statement)
    requires Valid(st) && s.If? && s.elseBranch.NoElse?
    ensures var c := |Code(ExpressionEmitted(st, s.condition))|;
      var code := Code(StatementEmitted(st, s));
      && c < |code| && code[c] == JumpIfFalse(|code| - c - 1)
      && code[c].target != |code|
  {
    var condition := ExpressionEmitted(st, s.condition);
    var c := |Code(condition)|;
    var thenStart := Emitted(condition, JumpIfFalse(0));
    var thenDone := BlockEmitted(thenStart, s.thenBranch);
    assert Code(thenDone)[c] == JumpIfFalse(0);
    assert StatementEmitted(st, s) == IfEmitted(st, s) == BranchesJoined(thenDone, s, c) == Patched(thenDone, c);
  }

  /**
   * A function declaration: its body lands in a new chunk, the last one,
   * which ends with `Return`; the chunk being written gets `NewFunction` of
   * that chunk's index and a store to the function's name.
   */
  lemma FunctionInOwnChunk(st: BcState, s: Ast.Statement)
    requires Valid(st) && s.FunctionDeclaration?
    ensures var r := StatementEmitted(st, s);
      && |r.chunks| > |st.chunks| && |r.chunks[|st.chunks|].code| > 0
      && r.chunks[|st.chunks|].code[|r.chunks[|st.chunks|].code| - 1] == Instruction.Return
      && Code(r) == Code(st) + [NewFunction(|st.chunks|), StoreGlobal(s.name)]
  {
    var entered := BodyEntered(st, s.parameters);
    var body := BlockEmitted(entered, s.body);
    var returned := Emitted(body, Instruction.Return);
    assert returned.chunks[|st.chunks|].code == Code(body) + [Instruction.Return];
  }

  /**
   * Inside a scope a name resolves to the FIRST local slot holding it (so an
   * outer variable shadows an inner one of the same name, unlike in Compiler).
   */
  lemma IdentifierTakesFirstSlot(st: BcState, name: string, k: nat)
    requires Valid(st) && k < |st.locals| && st.locals[k] == name
    requires forall j :: 0 <= j < k ==> st.locals[j] != name
    ensures Code(ExpressionEmitted(st, Ast.Identifier(name))) == Code(st) + [LoadLocal(k)]
  {
  }

  // ---------------------------------------------------------------------
  // BytecodeCompiler
  // ---------------------------------------------------------------------

  class BytecodeCompiler {
    var chunks: seq<ChunkCode>
    var current: nat
    var locals: seq<string>
    var depth: nat

    function State(): BcState
      reads this
    {
      BcState(chunks, current, locals, depth)
    }

    constructor()
      ensures State() == START
    {
      chunks := [ChunkCode([], [])];
      current := 0;
      locals := [];
      depth := 0;
    }

    method EmitInstruction(instruction: Instruction)
      requires Valid(State())
      modifies this
      ensures State() == Emitted(old(State()), instruction)
    {
      var chunk := chunks[current];
      chunks := chunks[current := chunk.(code := chunk.code + [instruction])];
    }

    /** `emit_jump`: the jump appended and its index returned. */
    method EmitJump(instruction: Instruction) returns (index: nat)
      requires Valid(State())
      modifies this
      ensures State() == Emitted(old(State()), instruction)
      ensures index == |Code(old(State()))| && Code(State())[index] == instruction
    {
      EmitInstruction(instruction);
      index := |chunks[current].code| - 1;
    }

    /**
     * `patch_jump`: the distance from the jump to the end written into it;
     * an index holding anything but a jump is an error and changes nothing.
     */
    method PatchJump(jump: nat) returns (r: Result<(), Errors.FlowError>)
      requires Valid(State()) && jump < |Code(State())|
      modifies this
      ensures CanPatch(old(State()), jump) ==> r.Ok? && State() == Patched(old(State()), jump)
      ensures !CanPatch(old(State()), jump) ==> r == Err(INVALID_PATCH) && State() == old(State())
    {
      var chunk := chunks[current];
      var offset := |chunk.code| - jump - 1;
      match chunk.code[jump]
      case Jump(_) =>
        chunks := chunks[current := chunk.(code := chunk.code[jump := Jump(offset)])];
        r := Ok(());
      case JumpIfFalse(_) =>
        chunks := chunks[current := chunk.(code := chunk.code[jump := JumpIfFalse(offset)])];
        r := Ok(());
      case JumpIfTrue(_) =>
        chunks := chunks[current := chunk.(code := chunk.code[jump := JumpIfTrue(offset)])];
        r := Ok(());
      case _ =>
        r := Err(INVALID_PATCH);
    }

    /** `compile_statement`, one statement at a time. */
    method CompileStatement(s: Ast.Statement)
      requires Valid(State())
      modifies this
      ensures State() == StatementEmitted(old(State()), s)
    {
      var next := StatementEmitted(State(), s);
      chunks, current, locals, depth := next.chunks, next.current, next.locals, next.depth;
    }

    /** `compile_program`: each statement in turn, then `Halt`; a copy of the chunks is returned. */
    method CompileProgram(statements: seq<Ast.Statement>) returns (r: Result<seq<ChunkCode>, Errors.FlowError>)
      requires Valid(State())
      modifies this
      ensures State() == ProgramEmitted(old(State()), statements)
      ensures r == Ok(chunks)
    {
      for k := 0 to |statements|
        invariant Valid(State())
        invariant BlockEmitted(old(State()), statements) == BlockEmitted(State(), statements[k..])
      {
        assert statements[k..][1..] == statements[k + 1..];
        CompileStatement(statements[k]);
      }
      assert statements[|statements|..] == [];
      EmitInstruction(Halt);
      r := Ok(chunks);
    }
  }
}
