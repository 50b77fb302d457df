/**
 * The one-pass compiler from FlowLang syntax trees to stack-machine
 * instructions (`src/compiler.rs`).
 *
 * The first half states what compiling does, as functions from one
 * `CompilerState` (the chunk being written plus the compiler's own fields)
 * to the next. The class `Compiler` in the second half does it step by
 * step, in place, and each of its methods is proved to end in the state the
 * functions give. A compilation that fails returns the error; the state it
 * leaves behind is discarded by the caller and is not specified.
 */
module Compiler {
  import opened Wrappers
  import opened Values
  import opened Bytecode
  import Ast
  import Errors
  import Vm

  const EXPORT_UNSUPPORTED := "Export statements not yet implemented"
  const IMPORT_UNSUPPORTED := "Import statements not yet implemented"
  const TRY_UNSUPPORTED := "Try-catch statements not yet implemented"
  const NESTED_UNSUPPORTED := "Nested arrays/objects in literals not yet supported"

  /** The name of the hidden local a `for` loop keeps its end value in. */
  const END_LOCAL := "__end"

  /** A local variable slot: its name and the scope depth it was declared at. */
  datatype Local = Local(name: string, depth: nat)

  /**
   * What compiling reads and writes: the chunk's instructions, line numbers
   * and constant pool, the locals in slot order, the scope depth and the
   * stacks of loop starts and pending loop exits.
   */
  datatype CompilerState = CompilerState(
    code: seq<Instruction>,
    lines: seq<nat>,
    constants: seq<Value>,
    locals: seq<Local>,
    depth: nat,
    loopStarts: seq<nat>,
    loopExits: seq<seq<nat>>)

  /** `Compiler::new()`: an empty chunk, no locals, the top-level scope. */
  const FRESH := CompilerState([], [], [], [], 0, [], [])

  /** `is_builtin_function`: exactly the names the VM's `CallBuiltin` knows. */
  function IsBuiltinFunction(name: string): (b: bool)
    ensures b <==> name in Vm.BUILTIN_NAMES
  {
    name == "show" || name == "print" || name == "len" || name == "type"
    || name == "str" || name == "int" || name == "float"
  }

  /** What each part of a compilation keeps: the code written so far is left as it is. */
  predicate Grows(a: CompilerState, b: CompilerState)
  {
    a.code <= b.code
  }

  /** What compiling an expression keeps: the scopes and loop stacks. */
  predicate SameScopes(a: CompilerState, b: CompilerState)
  {
    a.locals == b.locals && a.depth == b.depth && a.loopStarts == b.loopStarts && a.loopExits == b.loopExits
  }

  // ---------------------------------------------------------------------
  // Emission primitives
  // ---------------------------------------------------------------------

  /** `emit_instruction`: one instruction appended, with line 0. */
  function Emitted(st: CompilerState, i: Instruction): CompilerState
  {
    st.(code := st.code + [i], lines := st.lines + [0])
  }

  /** Several instructions emitted one after the other. */
  function EmittedAll(st: CompilerState, instructions: seq<Instruction>): CompilerState
  {
    st.(code := st.code + instructions, lines := st.lines + seq(|instructions|, _ => 0))
  }

  /**
   * `make_constant`: the pool index of a value the pool treats as equal to
   * `v`, appending `v` when there is none.
   */
  function Pooled(st: CompilerState, v: Value): (r: (CompilerState, nat))
    ensures r.1 < |r.0.constants| && (Shareable(v) ==> PoolEqual(r.0.constants[r.1], v))
    ensures st.constants <= r.0.constants && |r.0.constants| <= |st.constants| + 1
    ensures r.0 == st.(constants := r.0.constants)
    ensures !Shareable(v) ==> r.0.constants == st.constants + [v] && r.1 == |st.constants|
  {
    match FirstPoolMatch(st.constants, v)
    case Some(k) => (st, k)
    case None => (st.(constants := st.constants + [v]), |st.constants|)
  }

  /** `emit_constant`: the value pooled and a `LoadConstant` of its index emitted. */
  function ConstantEmitted(st: CompilerState, v: Value): (r: CompilerState)
    ensures r == st.(code := r.code, lines := r.lines, constants := r.constants)
    ensures |r.code| == |st.code| + 1 && r.code[..|st.code|] == st.code && r.lines == st.lines + [0]
    ensures st.constants <= r.constants
    ensures r.code[|st.code|].LoadConstant? && r.code[|st.code|].constantIndex < |r.constants|
    ensures Shareable(v) ==> PoolEqual(r.constants[r.code[|st.code|].constantIndex], v)
    ensures !Shareable(v) ==> r.constants == st.constants + [v] && r.code[|st.code|] == LoadConstant(|st.constants|)
  {
    var (pooled, index) := Pooled(st, v);
    Emitted(pooled, LoadConstant(index))
  }

  /** The precondition of `patch_jump`: anything else at `offset` makes it panic. */
  predicate CanPatch(st: CompilerState, offset: nat)
  {
    offset < |st.code| && IsJump(st.code[offset])
  }

  /** `patch_jump`: the jump at `offset` now targets the next instruction to be emitted. */
  function Patched(st: CompilerState, offset: nat): (r: CompilerState)
    requires CanPatch(st, offset)
    ensures |r.code| == |st.code| && r.code[..offset] == st.code[..offset]
    ensures IsJump(r.code[offset]) && r.code[offset].target == |st.code|
    ensures r.code[offset].Jump? == st.code[offset].Jump?
    ensures r.code[offset].JumpIfFalse? == st.code[offset].JumpIfFalse?
    ensures r == st.(code := r.code)
  {
    st.(code := st.code[offset := st.code[offset].(target := |st.code|)])
  }

  /** Patching one jump leaves every other jump patchable. */
  lemma PatchKeepsJumps(st: CompilerState, offset: nat, other: nat)
    requires CanPatch(st, offset) && CanPatch(st, other)
    ensures CanPatch(Patched(st, offset), other)
  {
    if other != offset {
      assert Patched(st, offset).code[other] == st.code[other];
    }
  }

  /** The `for exit in exits { patch_jump(exit) }` loops, over pending break jumps. */
  predicate AllPatchable(st: CompilerState, offsets: seq<nat>)
  {
    forall k :: 0 <= k < |offsets| ==> CanPatch(st, offsets[k])
  }

  function AllPatched(st: CompilerState, offsets: seq<nat>): (r: CompilerState)
    requires AllPatchable(st, offsets)
    ensures |r.code| == |st.code| && r == st.(code := r.code)
    decreases |offsets|
  {
    if |offsets| == 0 then st
    else
      var next := Patched(st, offsets[0]);
      assert forall k :: 1 <= k < |offsets| ==> CanPatch(next, offsets[k]) by {
        forall k | 1 <= k < |offsets| { PatchKeepsJumps(st, offsets[0], offsets[k]); }
      }
      AllPatched(next, offsets[1..])
  }

  /** `add_local`: a slot for `name` at the current depth. */
  function LocalAdded(st: CompilerState, name: string): CompilerState
  {
    st.(locals := st.locals + [Local(name, st.depth)])
  }

  /**
   * `resolve_local`: the highest slot holding `name`, or None when no slot
   * does (the variable is then a global).
   */
  function Resolved(locals: seq<Local>, name: string): (r: Option<nat>)
    ensures r.Some? ==> r.value < |locals|
  {
    if |locals| == 0 then None
    else if locals[|locals| - 1].name == name then Some(|locals| - 1)
    else Resolved(locals[..|locals| - 1], name)
  }

  /** `n` `Pop` instructions. */
  function Pops(n: nat): (r: seq<Instruction>)
    ensures |r| == n && forall k :: 0 <= k < n ==> r[k] == Pop
  {
    seq(n, _ => Pop)
  }

  /**
   * The loop of `end_scope`: while the innermost local is deeper than the
   * current depth, drop it and emit a `Pop`.
   */
  function LocalsPopped(st: CompilerState): (r: CompilerState)
    ensures st.code <= r.code && r == st.(code := r.code, lines := r.lines, locals := r.locals)
    decreases |st.locals|
  {
    if |st.locals| > 0 && st.locals[|st.locals| - 1].depth > st.depth then
      LocalsPopped(Emitted(st.(locals := st.locals[..|st.locals| - 1]), Pop))
    else st
  }

  /** `end_scope`: one scope left; the locals declared in it are dropped, one `Pop` each. */
  function ScopeEnded(st: CompilerState): (r: CompilerState)
    requires st.depth > 0
  {
    LocalsPopped(st.(depth := st.depth - 1))
  }

  /**
   * `resolve_local` finds the highest slot holding the name, and finds none
   * exactly when no slot holds it.
   */
  lemma {:induction false} ResolvedIsHighest(locals: seq<Local>, name: string)
    ensures Resolved(locals, name).Some? ==> locals[Resolved(locals, name).value].name == name
    ensures Resolved(locals, name).Some? ==>
      forall j :: Resolved(locals, name).value < j < |locals| ==> locals[j].name != name
    ensures Resolved(locals, name).None? <==> forall j :: 0 <= j < |locals| ==> locals[j].name != name
    decreases |locals|
  {
    if |locals| > 0 && locals[|locals| - 1].name != name {
      var front := locals[..|locals| - 1];
      ResolvedIsHighest(front, name);
      assert forall j :: 0 <= j < |front| ==> front[j] == locals[j];
    }
  }

  /**
   * `end_scope` drops exactly the innermost locals deeper than the new depth
   * (the first one it keeps, if any, is not deeper) and emits one `Pop` for
   * each; nothing else changes.
   */
  lemma {:induction false} LocalsPoppedShape(st: CompilerState)
    ensures var r := LocalsPopped(st);
      && |r.locals| <= |st.locals| && r.locals == st.locals[..|r.locals|]
      && (forall j :: |r.locals| <= j < |st.locals| ==> st.locals[j].depth > st.depth)
      && (|r.locals| > 0 ==> r.locals[|r.locals| - 1].depth <= st.depth)
      && r.code == st.code + Pops(|st.locals| - |r.locals|)
      && r.lines == st.lines + seq(|st.locals| - |r.locals|, _ => 0)
    decreases |st.locals|
  {
    if |st.locals| > 0 && st.locals[|st.locals| - 1].depth > st.depth {
      var next := Emitted(st.(locals := st.locals[..|st.locals| - 1]), Pop);
      LocalsPoppedShape(next);
      var r := LocalsPopped(st);
      assert r == LocalsPopped(next);
      assert next.locals[..|r.locals|] == st.locals[..|r.locals|];
      RepeatedAfter(st.code, Pop, |next.locals| - |r.locals|);
      RepeatedAfter(st.lines, 0, |next.locals| - |r.locals|);
    }
  }

  /** One more copy of `x` before a run of them. */
  lemma RepeatedAfter<T>(s: seq<T>, x: T, n: nat)
    ensures (s + [x]) + seq(n, _ => x) == s + seq(n + 1, _ => x)
  {
    assert [x] + seq(n, _ => x) == seq(n + 1, _ => x);
  }

  // ---------------------------------------------------------------------
  // Expressions
  // ---------------------------------------------------------------------

  /** The constant a scalar literal denotes; None for array and object literals. */
  function ScalarValue(l: Ast.Literal): (r: Option<Value>)
    ensures r.None? <==> l.ArrayLit? || l.ObjectLit?
  {
    match l
    case StringLit(s) => Some(Str(s))
    case IntegerLit(i) => Some(Integer(i))
    case BigIntegerLit(b) => Some(BigInteger(b))
    case FloatLit(f) => Some(Float(f))
    case BooleanLit(b) => Some(Boolean(b))
    case NullLit => Some(Null)
    case _ => None
  }

  /** The elements of an array literal, each loaded as a constant; a nested one is an error. */
  function ItemsPooled(st: CompilerState, items: seq<Ast.Literal>): (r: Result<CompilerState, Errors.FlowError>)
    ensures r.Ok? ==> Grows(st, r.value) && SameScopes(st, r.value)
    decreases |items|
  {
    if |items| == 0 then Ok(st)
    else match ScalarValue(items[0])
      case None => Err(Errors.CompilationError(NESTED_UNSUPPORTED))
      case Some(v) =>
        ItemsPooled(ConstantEmitted(st, v), items[1..])
  }

  /** The entries of an object literal: key then value, each loaded as a constant. */
  function EntriesPooled(st: CompilerState, entries: seq<(string, Ast.Literal)>): (r: Result<CompilerState, Errors.FlowError>)
    ensures r.Ok? ==> Grows(st, r.value) && SameScopes(st, r.value)
    decreases |entries|
  {
    if |entries| == 0 then Ok(st)
    else
      var keyed := ConstantEmitted(st, Str(entries[0].0));
      match ScalarValue(entries[0].1)
      case None => Err(Errors.CompilationError(NESTED_UNSUPPORTED))
      case Some(v) =>
        EntriesPooled(ConstantEmitted(keyed, v), entries[1..])
  }

  /** A literal: a scalar as one constant; an array or object literal element by element. */
  function LiteralCompiled(st: CompilerState, l: Ast.Literal): (r: Result<CompilerState, Errors.FlowError>)
    ensures r.Ok? ==> Grows(st, r.value) && SameScopes(st, r.value)
  {
    match l
    case ArrayLit(items) =>
      var pooled :- ItemsPooled(st, items);
      Ok(Emitted(pooled, NewArray(|items|)))
    case ObjectLit(entries) =>
      var pooled :- EntriesPooled(st, entries);
      Ok(Emitted(pooled, NewObject))
    case _ => Ok(ConstantEmitted(st, ScalarValue(l).value))
  }

  /** The instruction of a binary operator other than `and` and `or`. */
  function BinaryInstruction(op: Ast.BinaryOperator): (i: Instruction)
    requires op != Ast.And && op != Ast.Or
    ensures Vm.IsBinary(i)
  {
    match op
    case Add => Add
    case Subtract => Subtract
    case Multiply => Multiply
    case Divide => Divide
    case Modulo => Modulo
    case Equal => Equal
    case NotEqual => NotEqual
    case Greater => Greater
    case GreaterEqual => GreaterEqual
    case Less => Less
    case LessEqual => LessEqual
  }

  /** The parameters as locals of a fresh compiler, all at depth 0. */
  function ParameterLocals(parameters: seq<Ast.Parameter>): (r: seq<Local>)
    ensures |r| == |parameters|
    ensures forall k :: 0 <= k < |r| ==> r[k] == Local(parameters[k].name, 0)
  {
    if |parameters| == 0 then []
    else ParameterLocals(parameters[..|parameters| - 1]) + [Local(parameters[|parameters| - 1].name, 0)]
  }

  /** `compile_expression`: one case per kind of expression. */
  function ExpressionCompiled(st: CompilerState, e: Ast.Expression): (r: Result<CompilerState, Errors.FlowError>)
    ensures r.Ok? ==> Grows(st, r.value) && SameScopes(st, r.value)
    decreases e, 1
  {
    match e
    case Literal(l) => LiteralCompiled(st, l)
    case Identifier(name) => Ok(IdentifierCompiled(st, name))
    case Binary(_, op, _) =>
      if op == Ast.And then AndCompiled(st, e)
      else if op == Ast.Or then OrCompiled(st, e)
      else BinaryCompiled(st, e)
    case Unary(_, _) => UnaryCompiled(st, e)
    case FunctionCall(_, _) => CallCompiled(st, e)
    case MethodCall(_, _, _) => MethodCallCompiled(st, e)
    case ArrayExpr(_) => ArrayCompiled(st, e)
    case ObjectExpr(_) => ObjectCompiled(st, e)
    case Index(_, _) => IndexCompiled(st, e)
    case PropertyAccess(_, _) => PropertyAccessCompiled(st, e)
    case Lambda(_, _) => LambdaCompiled(st, e)
  }

  /** A variable: `LoadLocal` of its highest slot, or `LoadGlobal` of its name. */
  function IdentifierCompiled(st: CompilerState, name: string): CompilerState
  {
    match Resolved(st.locals, name)
    case Some(slot) => Emitted(st, LoadLocal(slot))
    case None => Emitted(st, LoadGlobal(name))
  }

  /** Any other binary operator: both operands, then its instruction. */
  function BinaryCompiled(st: CompilerState, e: Ast.Expression): (r: Result<CompilerState, Errors.FlowError>)
    requires e.Binary? && e.operator != Ast.And && e.operator != Ast.Or
    ensures r.Ok? ==> Grows(st, r.value) && SameScopes(st, r.value)
    decreases e, 0
  {
    var left :- ExpressionCompiled(st, e.left);
    var right :- ExpressionCompiled(left, e.right);
    Ok(Emitted(right, BinaryInstruction(e.operator)))
  }

  /** A unary operator: the operand, then `Negate` or `Not`. */
  function UnaryCompiled(st: CompilerState, e: Ast.Expression): (r: Result<CompilerState, Errors.FlowError>)
    requires e.Unary?
    ensures r.Ok? ==> Grows(st, r.value) && SameScopes(st, r.value)
    decreases e, 0
  {
    var operand :- ExpressionCompiled(st, e.operand);
    Ok(Emitted(operand, if e.unaryOperator == Ast.Minus then Negate else Not))
  }

  /**
   * A call by name: the arguments; for a builtin the argument count as a
   * constant and `CallBuiltin`, otherwise `LoadGlobal` of the name and `Call`.
   */
  function CallCompiled(st: CompilerState, e: Ast.Expression): (r: Result<CompilerState, Errors.FlowError>)
    requires e.FunctionCall?
    ensures r.Ok? ==> Grows(st, r.value) && SameScopes(st, r.value)
    decreases e, 0
  {
    var args :- ExpressionsCompiled(st, e.arguments);
    if IsBuiltinFunction(e.callee) then
      Ok(Emitted(ConstantEmitted(args, Integer(|e.arguments|)), CallBuiltin(e.callee)))
    else
      Ok(Emitted(Emitted(args, LoadGlobal(e.callee)), Call(|e.arguments|)))
  }

  /** A method call: the receiver, the arguments, then `CallMethod`. */
  function MethodCallCompiled(st: CompilerState, e: Ast.Expression): (r: Result<CompilerState, Errors.FlowError>)
    requires e.MethodCall?
    ensures r.Ok? ==> Grows(st, r.value) && SameScopes(st, r.value)
    decreases e, 0
  {
    var receiver :- ExpressionCompiled(st, e.receiver);
    var args :- ExpressionsCompiled(receiver, e.methodArguments);
    Ok(Emitted(args, CallMethod(e.method_)))
  }

  /** An array expression: the elements, then `NewArray` of their count. */
  function ArrayCompiled(st: CompilerState, e: Ast.Expression): (r: Result<CompilerState, Errors.FlowError>)
    requires e.ArrayExpr?
    ensures r.Ok? ==> Grows(st, r.value) && SameScopes(st, r.value)
    decreases e, 0
  {
    var items :- ExpressionsCompiled(st, e.elements);
    Ok(Emitted(items, NewArray(|e.elements|)))
  }

  /** An object expression: key constant and value per entry, then `NewObject`. */
  function ObjectCompiled(st: CompilerState, e: Ast.Expression): (r: Result<CompilerState, Errors.FlowError>)
    requires e.ObjectExpr?
    ensures r.Ok? ==> Grows(st, r.value) && SameScopes(st, r.value)
    decreases e, 0
  {
    var entries :- PropertiesCompiled(st, e, e.properties, 0);
    Ok(Emitted(entries, NewObject))
  }

  /** Indexing: the indexed value, the index, then `GetIndex`. */
  function IndexCompiled(st: CompilerState, e: Ast.Expression): (r: Result<CompilerState, Errors.FlowError>)
    requires e.Index?
    ensures r.Ok? ==> Grows(st, r.value) && SameScopes(st, r.value)
    decreases e, 0
  {
    var indexed :- ExpressionCompiled(st, e.indexed);
    var index :- ExpressionCompiled(indexed, e.index);
    Ok(Emitted(index, GetIndex))
  }

  /** A property access: the object, the property name as a string constant, then `GetProperty`. */
  function PropertyAccessCompiled(st: CompilerState, e: Ast.Expression): (r: Result<CompilerState, Errors.FlowError>)
    requires e.PropertyAccess?
    ensures r.Ok? ==> Grows(st, r.value) && SameScopes(st, r.value)
    decreases e, 0
  {
    var receiver :- ExpressionCompiled(st, e.accessed);
    Ok(Emitted(ConstantEmitted(receiver, Str(e.property)), GetProperty(e.property)))
  }

  /**
   * `and`: the left operand, a `JumpIfFalse` over a `Pop` and the right
   * operand, patched to land after the right operand.
   */
  function AndCompiled(st: CompilerState, e: Ast.Expression): (r: Result<CompilerState, Errors.FlowError>)
    requires e.Binary? && e.operator == Ast.And
    ensures r.Ok? ==> Grows(st, r.value) && SameScopes(st, r.value)
    decreases e, 0
  {
    var left :- ExpressionCompiled(st, e.left);
    var endJump := |left.code|;
    var right :- ExpressionCompiled(Emitted(Emitted(left, JumpIfFalse(0)), Pop), e.right);
    Ok(Patched(right, endJump))
  }

  /**
   * `or`: the left operand, a `JumpIfFalse` to the right operand and a `Jump`
   * over it; the right operand is preceded by a `Pop`.
   */
  function OrCompiled(st: CompilerState, e: Ast.Expression): (r: Result<CompilerState, Errors.FlowError>)
    requires e.Binary? && e.operator == Ast.Or
    ensures r.Ok? ==> Grows(st, r.value) && SameScopes(st, r.value)
    decreases e, 0
  {
    var left :- ExpressionCompiled(st, e.left);
    var elseJump := |left.code|;
    var endJump := elseJump + 1;
    var jumped := Emitted(Emitted(left, JumpIfFalse(0)), Jump(0));
    var right :- ExpressionCompiled(Emitted(Patched(jumped, elseJump), Pop), e.right);
    Ok(Patched(right, endJump))
  }

  /**
   * A lambda: its body compiled by a fresh compiler whose locals are the
   * parameters (that chunk is then dropped); here only a `BytecodeFunction`
   * appended to the pool and a `NewClosure` of its index.
   */
  function LambdaCompiled(st: CompilerState, e: Ast.Expression): (r: Result<CompilerState, Errors.FlowError>)
    requires e.Lambda?
    ensures r.Ok? ==> Grows(st, r.value) && SameScopes(st, r.value)
    decreases e, 0
  {
    var inner :- ExpressionCompiled(FRESH.(locals := ParameterLocals(e.lambdaParameters)), e.lambdaBody);
    var address := |st.constants|;
    var closure := BytecodeFunction(address, |e.lambdaParameters|, |inner.locals|);
    Ok(Emitted(st.(constants := st.constants + [closure]), NewClosure(address)))
  }

  /** Arguments and elements, left to right. */
  function ExpressionsCompiled(st: CompilerState, es: seq<Ast.Expression>): (r: Result<CompilerState, Errors.FlowError>)
    ensures r.Ok? ==> Grows(st, r.value) && SameScopes(st, r.value)
    decreases es
  {
    if |es| == 0 then Ok(st)
    else
      var first :- ExpressionCompiled(st, es[0]);
      ExpressionsCompiled(first, es[1..])
  }

  /** Object expression entries from `from` on: the key as a string constant, then the value. */
  function PropertiesCompiled(st: CompilerState, parent: Ast.Expression, properties: seq<(string, Ast.Expression)>, from: nat): (r: Result<CompilerState, Errors.FlowError>)
    requires from <= |properties|
    requires forall k :: 0 <= k < |properties| ==> properties[k].1 < parent
    ensures r.Ok? ==> Grows(st, r.value) && SameScopes(st, r.value)
    decreases parent, 0, |properties| - from
  {
    if from == |properties| then Ok(st)
    else
      var value :- ExpressionCompiled(ConstantEmitted(st, Str(properties[from].0)), properties[from].1);
      PropertiesCompiled(value, parent, properties, from + 1)
  }

  // ---------------------------------------------------------------------
  // Statements
  // ---------------------------------------------------------------------

  /** What compiling a statement keeps: the scope depth and the loop stacks. */
  predicate SameLoops(a: CompilerState, b: CompilerState)
  {
    a.depth == b.depth && a.loopStarts == b.loopStarts && a.loopExits == b.loopExits
  }

  /** `compile_statement`. */
  function StatementCompiled(st: CompilerState, s: Ast.Statement): (r: Result<CompilerState, Errors.FlowError>)
    ensures r.Ok? ==> Grows(st, r.value) && SameLoops(st, r.value)
    decreases s, 2
  {
    match s
    case ExpressionStatement(e) =>
      var value :- ExpressionCompiled(st, e);
      Ok(Emitted(value, Pop))
    case VariableDeclaration(name, e) =>
      var value :- ExpressionCompiled(st, e);
      if value.depth == 0 then Ok(Emitted(value, StoreGlobal(name)))
      else Ok(LocalAdded(value, name))
    case FunctionDeclaration(_, _, _) => FunctionCompiled(st, s)
    case If(_, _, _) => IfCompiled(st, s)
    case While(_, _) => WhileCompiled(st, s)
    case For(_, _, _, _) => ForCompiled(st, s)
    case Return(returned) =>
      if returned.Some? then
        var value :- ExpressionCompiled(st, returned.value);
        Ok(Emitted(value, Instruction.Return))
      else Ok(Emitted(ConstantEmitted(st, Null), Instruction.Return))
    case Show(e) =>
      var value :- ExpressionCompiled(st, e);
      Ok(Emitted(value, Print))
    case Export(_) => Err(Errors.CompilationError(EXPORT_UNSUPPORTED))
    case Import(_) => Err(Errors.CompilationError(IMPORT_UNSUPPORTED))
    case TryCatch(_, _, _) => Err(Errors.CompilationError(TRY_UNSUPPORTED))
  }

  /** The statements of a block, in order; the first error stops the block. */
  function BlockCompiled(st: CompilerState, ss: seq<Ast.Statement>): (r: Result<CompilerState, Errors.FlowError>)
    ensures r.Ok? ==> Grows(st, r.value) && SameLoops(st, r.value)
    decreases ss
  {
    if |ss| == 0 then Ok(st)
    else
      var first :- StatementCompiled(st, ss[0]);
      BlockCompiled(first, ss[1..])
  }

  /**
   * `compile_function`: the body compiled by a fresh compiler whose locals
   * are the parameters, followed there by `return null` (that chunk is then
   * dropped). Here the `BytecodeFunction` is appended to the pool, then
   * pooled again by `emit_constant` (it is never shared, so it lands in the
   * next slot), loaded, and stored in the global of the function's name.
   */
  function FunctionCompiled(st: CompilerState, s: Ast.Statement): (r: Result<CompilerState, Errors.FlowError>)
    requires s.FunctionDeclaration?
    ensures r.Ok? ==> Grows(st, r.value) && SameLoops(st, r.value)
    decreases s, 0
  {
    var body :- BlockCompiled(FRESH.(locals := ParameterLocals(s.parameters)), s.body);
    var address := |st.constants|;
    var compiled := BytecodeFunction(address, |s.parameters|, |body.locals|);
    Ok(Emitted(ConstantEmitted(st.(constants := st.constants + [compiled]), compiled), StoreGlobal(s.name)))
  }

  /**
   * `if`: the condition, a `JumpIfFalse` and a `Pop`, the then-branch; with an
   * else-branch a `Jump` over it, which the `JumpIfFalse` lands after, then a
   * `Pop` and the else-branch; without one the `JumpIfFalse` lands on a final `Pop`.
   */
  function IfCompiled(st: CompilerState, s: Ast.Statement): (r: Result<CompilerState, Errors.FlowError>)
    requires s.If?
    ensures r.Ok? ==> Grows(st, r.value) && SameLoops(st, r.value)
    decreases s, 1
  {
    var condition :- ExpressionCompiled(st, s.condition);
    var elseJump := |condition.code|;
    var thenStart := Emitted(Emitted(condition, JumpIfFalse(0)), Pop);
    var thenDone :- BlockCompiled(thenStart, s.thenBranch);
    assert thenDone.code[elseJump] == thenStart.code[elseJump];
    var joined :- BranchesJoined(thenDone, s, elseJump);
    assert st.code == thenDone.code[..elseJump][..|st.code|];
    Ok(joined)
  }

  /** The end of an `if`, from its then-branch on; `elseJump` is the condition's `JumpIfFalse`. */
  function BranchesJoined(thenDone: CompilerState, s: Ast.Statement, elseJump: nat): (r: Result<CompilerState, Errors.FlowError>)
    requires s.If? && CanPatch(thenDone, elseJump)
    ensures r.Ok? ==> |r.value.code| > |thenDone.code| && r.value.code[..elseJump] == thenDone.code[..elseJump]
    ensures r.Ok? ==> SameLoops(thenDone, r.value)
    decreases s, 0
  {
    if s.elseBranch.Else? then
      var endJump := |thenDone.code|;
      var elseStart := Emitted(Patched(Emitted(thenDone, Jump(0)), elseJump), Pop);
      var elseDone :- BlockCompiled(elseStart, s.elseBranch.statements);
      assert elseDone.code[endJump] == elseStart.code[endJump];
      Ok(Patched(elseDone, endJump))
    else
      Ok(Emitted(Patched(thenDone, elseJump), Pop))
  }

  /** The end of a loop: its pending exits popped and patched, its start popped. */
  function LoopClosed(st: CompilerState): (r: CompilerState)
    requires |st.loopStarts| > 0 && |st.loopExits| > 0
    requires AllPatchable(st, st.loopExits[|st.loopExits| - 1])
  {
    var exits := st.loopExits[|st.loopExits| - 1];
    var popped := st.(loopExits := st.loopExits[..|st.loopExits| - 1]);
    var patched := AllPatched(popped, exits);
    patched.(loopStarts := patched.loopStarts[..|patched.loopStarts| - 1])
  }

  /**
   * `while`: the condition, a `JumpIfFalse` and a `Pop`, the body and a `Jump`
   * back to the condition; the `JumpIfFalse` lands on a final `Pop`.
   */
  function WhileCompiled(st: CompilerState, s: Ast.Statement): (r: Result<CompilerState, Errors.FlowError>)
    requires s.While?
    ensures r.Ok? ==> Grows(st, r.value) && SameLoops(st, r.value)
    decreases s, 0
  {
    var loopStart := |st.code|;
    var entered := st.(loopStarts := st.loopStarts + [loopStart], loopExits := st.loopExits + [[]]);
    var condition :- ExpressionCompiled(entered, s.condition);
    var exitJump := |condition.code|;
    var bodyStart := Emitted(Emitted(condition, JumpIfFalse(0)), Pop);
    var body :- BlockCompiled(bodyStart, s.body);
    assert body.code[exitJump] == bodyStart.code[exitJump];
    Ok(LoopClosed(Emitted(Patched(Emitted(body, Jump(loopStart)), exitJump), Pop)))
  }

  /**
   * The head of `for v in start..end`: a new scope; the start value becomes
   * local `v` and the end value the hidden local `__end`, the last slot; the
   * loop is entered at the next instruction.
   */
  function ForEntered(st: CompilerState, s: Ast.Statement): (r: Result<CompilerState, Errors.FlowError>)
    requires s.For?
    ensures r.Ok? ==> Grows(st, r.value) && r.value.depth == st.depth + 1
    ensures r.Ok? ==> r.value.loopStarts == st.loopStarts + [|r.value.code|] && r.value.loopExits == st.loopExits + [[]]
    ensures r.Ok? ==> |r.value.locals| > 0 && Resolved(r.value.locals, s.variable).Some?
    decreases s, 0
  {
    var scoped := st.(depth := st.depth + 1);
    var started :- ExpressionCompiled(scoped, s.start);
    var counted := LocalAdded(started, s.variable);
    var ended :- ExpressionCompiled(counted, s.end);
    var bounded := LocalAdded(ended, END_LOCAL);
    assert Resolved(bounded.locals, s.variable).Some? by {
      ResolvedIsHighest(bounded.locals, s.variable);
      assert bounded.locals[|started.locals|].name == s.variable;
    }
    Ok(bounded.(loopStarts := bounded.loopStarts + [|bounded.code|], loopExits := bounded.loopExits + [[]]))
  }

  /** `for v in start..end`: the head, then the rounds. */
  function ForCompiled(st: CompilerState, s: Ast.Statement): (r: Result<CompilerState, Errors.FlowError>)
    requires s.For?
    ensures r.Ok? ==> Grows(st, r.value) && SameLoops(st, r.value)
    decreases s, 1
  {
    var entered :- ForEntered(st, s);
    ForRounds(entered, s)
  }

  /**
   * Each round of a `for` loop loads `v` and `__end`, tests `GreaterEqual`
   * and leaves by `JumpIfTrue`, otherwise pops the test, runs the body and
   * steps `v`.
   */
  function ForRounds(entered: CompilerState, s: Ast.Statement): (r: Result<CompilerState, Errors.FlowError>)
    requires s.For? && entered.depth > 0 && |entered.locals| > 0 && Resolved(entered.locals, s.variable).Some?
    requires |entered.loopStarts| > 0 && |entered.loopExits| > 0 && entered.loopExits[|entered.loopExits| - 1] == []
    ensures r.Ok? ==> Grows(entered, r.value) && r.value.depth == entered.depth - 1
    ensures r.Ok? ==> r.value.loopStarts == entered.loopStarts[..|entered.loopStarts| - 1]
    ensures r.Ok? ==> r.value.loopExits == entered.loopExits[..|entered.loopExits| - 1]
    decreases s, 0
  {
    var counter := Resolved(entered.locals, s.variable).value;
    var exitJump := |entered.code| + 3;
    var bodyStart := ForTested(entered, counter);
    var body :- BlockCompiled(bodyStart, s.body);
    assert body.code[exitJump] == bodyStart.code[exitJump];
    var closed := ForClosed(body, counter, |entered.code|, exitJump);
    assert entered.code == body.code[..exitJump][..|entered.code|];
    Ok(closed)
  }

  /** The test of a `for` round: `v >= __end` (the last slot), a `JumpIfTrue` out and a `Pop`. */
  function ForTested(entered: CompilerState, counter: nat): (r: CompilerState)
    requires |entered.locals| > 0
  {
    EmittedAll(entered, [LoadLocal(counter), LoadLocal(|entered.locals| - 1), GreaterEqual, JumpIfTrue(0), Pop])
  }

  /**
   * The end of a `for` round: `v + 1` stored back into `v`, a `Jump` back to
   * the test, the exit jump patched to land on a final `Pop`, the loop and
   * then the scope closed.
   */
  function ForClosed(body: CompilerState, counter: nat, loopStart: nat, exitJump: nat): (r: CompilerState)
    requires CanPatch(body, exitJump) && body.depth > 0
    requires |body.loopStarts| > 0 && |body.loopExits| > 0 && body.loopExits[|body.loopExits| - 1] == []
    ensures |r.code| > |body.code| && r.code[..exitJump] == body.code[..exitJump] && r.depth == body.depth - 1
    ensures r.loopStarts == body.loopStarts[..|body.loopStarts| - 1] && r.loopExits == body.loopExits[..|body.loopExits| - 1]
  {
    var stepped := Emitted(Emitted(Emitted(ConstantEmitted(Emitted(body, LoadLocal(counter)), Integer(1)), Add), StoreLocal(counter)), Pop);
    ScopeEnded(LoopClosed(Emitted(Patched(Emitted(stepped, Jump(loopStart)), exitJump), Pop)))
  }

  /** `compile`: every statement, then one `Halt`. */
  function Compiled(st: CompilerState, statements: seq<Ast.Statement>): (r: Result<CompilerState, Errors.FlowError>)
  {
    var body :- BlockCompiled(st, statements);
    Ok(Emitted(body, Halt))
  }

  /** `compile_program`: `compile` on a fresh compiler. */
  function ProgramCompiled(statements: seq<Ast.Statement>): (r: Result<CompilerState, Errors.FlowError>)
  {
    Compiled(FRESH, statements)
  }

  // ---------------------------------------------------------------------
  // The compiler object
  // ---------------------------------------------------------------------

  /** How a compiling method's result and final state agree with what the functions above give. */
  predicate Outcome(spec: Result<CompilerState, Errors.FlowError>, r: Result<(), Errors.FlowError>, now: CompilerState)
  {
    match spec
    case Ok(st) => r == Ok(()) && now == st
    case Err(e) => r == Err(e)
  }

  /**
   * `Compiler`: the chunk being written and the compiler's own fields. Its
   * `function_type` is written but never read by the source and is not kept.
   */
  class Compiler {
    var chunk: Chunk
    var locals: seq<Local>
    var scopeDepth: nat
    var loopStarts: seq<nat>
    var loopExits: seq<seq<nat>>

    function State(): CompilerState
      reads this, chunk
    {
      CompilerState(chunk.instructions, chunk.lines, chunk.constants, locals, scopeDepth, loopStarts, loopExits)
    }

    constructor()
      ensures State() == FRESH && fresh(chunk)
    {
      chunk := new Chunk();
      locals := [];
      scopeDepth := 0;
      loopStarts := [];
      loopExits := [];
    }

    /** A fresh compiler with the parameters added as locals, as `compile_function` and lambdas start. */
    static method WithParameters(parameters: seq<Ast.Parameter>) returns (c: Compiler)
      ensures fresh(c) && fresh(c.chunk)
      ensures c.State() == FRESH.(locals := ParameterLocals(parameters))
    {
      c := new Compiler();
      var i := 0;
      while i < |parameters|
        invariant 0 <= i <= |parameters|
        invariant fresh(c) && fresh(c.chunk)
        invariant c.State() == FRESH.(locals := ParameterLocals(parameters[..i]))
      {
        assert parameters[..i + 1][..i] == parameters[..i];
        c.AddLocal(parameters[i].name);
        i := i + 1;
      }
      assert parameters[..i] == parameters;
    }

    method EmitInstruction(instruction: Instruction)
      modifies chunk
      ensures State() == Emitted(old(State()), instruction)
    {
      chunk.WriteInstruction(instruction, 0);
    }

    method MakeConstant(value: Value) returns (index: nat)
      modifies chunk
      ensures (State(), index) == Pooled(old(State()), value)
    {
      index := chunk.AddConstant(value);
    }

    method EmitConstant(value: Value)
      modifies chunk
      ensures State() == ConstantEmitted(old(State()), value)
    {
      var index := MakeConstant(value);
      EmitInstruction(LoadConstant(index));
    }

    /** `emit_jump`: the jump appended; its index returned for patching. */
    method EmitJump(instruction: Instruction) returns (offset: nat)
      modifies chunk
      ensures State() == Emitted(old(State()), instruction)
      ensures offset == |old(chunk.instructions)| && chunk.instructions[offset] == instruction
    {
      EmitInstruction(instruction);
      offset := |chunk.instructions| - 1;
    }

    method PatchJump(offset: nat)
      requires CanPatch(State(), offset)
      modifies chunk
      ensures State() == Patched(old(State()), offset)
    {
      var target := |chunk.instructions|;
      chunk.instructions := chunk.instructions[offset := chunk.instructions[offset].(target := target)];
    }

    /** `emit_loop`: an absolute `Jump` back to the loop's start. */
    method EmitLoop(loopStart: nat)
      modifies chunk
      ensures State() == Emitted(old(State()), Jump(loopStart))
    {
      EmitInstruction(Jump(loopStart));
    }

    method BeginScope()
      modifies this`scopeDepth
      ensures State() == old(State()).(depth := old(scopeDepth) + 1)
    {
      scopeDepth := scopeDepth + 1;
    }

    /** `end_scope`; the source's `usize` decrement panics at depth 0, hence the precondition. */
    method EndScope()
      requires scopeDepth > 0
      modifies this`scopeDepth, this`locals, chunk
      ensures State() == ScopeEnded(old(State()))
    {
      scopeDepth := scopeDepth - 1;
      while |locals| > 0 && locals[|locals| - 1].depth > scopeDepth
        invariant LocalsPopped(State()) == ScopeEnded(old(State()))
        decreases |locals|
      {
        locals := locals[..|locals| - 1];
        EmitInstruction(Pop);
      }
    }

    method AddLocal(name: string)
      modifies this`locals
      ensures State() == LocalAdded(old(State()), name)
    {
      locals := locals + [Local(name, scopeDepth)];
    }

    /** `resolve_local`: the slots searched from the highest down. */
    method ResolveLocal(name: string) returns (r: Option<nat>)
      ensures r == Resolved(locals, name)
    {
      ResolvedIsHighest(locals, name);
      var i := |locals|;
      while i > 0
        invariant 0 <= i <= |locals|
        invariant forall j :: i <= j < |locals| ==> locals[j].name != name
      {
        if locals[i - 1].name == name {
          return Some(i - 1);
        }
        i := i - 1;
      }
      return None;
    }

    // Expressions

    /** `compile_expression`: one method per kind of expression. */
    method CompileExpression(e: Ast.Expression) returns (r: Result<(), Errors.FlowError>)
      modifies this`locals, this`scopeDepth, this`loopStarts, this`loopExits, chunk
      ensures Outcome(ExpressionCompiled(old(State()), e), r, State())
      decreases e, 1
    {
      hide LiteralCompiled, IdentifierCompiled, AndCompiled, OrCompiled, BinaryCompiled, UnaryCompiled, CallCompiled;
      hide MethodCallCompiled, ArrayCompiled, ObjectCompiled, IndexCompiled, PropertyAccessCompiled, LambdaCompiled;
      match e
      case Literal(l) => r := CompileLiteral(l);
      case Identifier(name) =>
        CompileIdentifier(name);
        r := Ok(());
      case Binary(_, op, _) =>
        if op == Ast.And {
          r := CompileAnd(e);
        } else if op == Ast.Or {
          r := CompileOr(e);
        } else {
          r := CompileBinary(e);
        }
      case Unary(_, _) => r := CompileUnary(e);
      case FunctionCall(_, _) => r := CompileCall(e);
      case MethodCall(_, _, _) => r := CompileMethodCall(e);
      case ArrayExpr(_) => r := CompileArray(e);
      case ObjectExpr(_) => r := CompileObject(e);
      case Index(_, _) => r := CompileIndex(e);
      case PropertyAccess(_, _) => r := CompilePropertyAccess(e);
      case Lambda(_, _) => r := CompileLambda(e);
    }

    /** Literals; an array or object literal element by element. */
    method CompileLiteral(l: Ast.Literal) returns (r: Result<(), Errors.FlowError>)
      modifies chunk
      ensures Outcome(LiteralCompiled(old(State()), l), r, State())
    {
      match l
      case ArrayLit(items) =>
        r := PoolItems(items);
        if r.Ok? {
          EmitInstruction(NewArray(|items|));
        }
      case ObjectLit(entries) =>
        r := PoolEntries(entries);
        if r.Ok? {
          EmitInstruction(NewObject);
        }
      case _ =>
        EmitConstant(ScalarValue(l).value);
        r := Ok(());
    }

    method PoolItems(items: seq<Ast.Literal>) returns (r: Result<(), Errors.FlowError>)
      modifies chunk
      ensures Outcome(ItemsPooled(old(State()), items), r, State())
    {
      var i := 0;
      while i < |items|
        invariant 0 <= i <= |items|
        invariant ItemsPooled(old(State()), items) == ItemsPooled(State(), items[i..])
      {
        assert items[i..][1..] == items[i + 1..];
        var value := ScalarValue(items[i]);
        if value.None? {
          return Err(Errors.CompilationError(NESTED_UNSUPPORTED));
        }
        EmitConstant(value.value);
        i := i + 1;
      }
      r := Ok(());
    }

    method PoolEntries(entries: seq<(string, Ast.Literal)>) returns (r: Result<(), Errors.FlowError>)
      modifies chunk
      ensures Outcome(EntriesPooled(old(State()), entries), r, State())
    {
      var i := 0;
      while i < |entries|
        invariant 0 <= i <= |entries|
        invariant EntriesPooled(old(State()), entries) == EntriesPooled(State(), entries[i..])
      {
        assert entries[i..][1..] == entries[i + 1..];
        EmitConstant(Str(entries[i].0));
        var value := ScalarValue(entries[i].1);
        if value.None? {
          return Err(Errors.CompilationError(NESTED_UNSUPPORTED));
        }
        EmitConstant(value.value);
        i := i + 1;
      }
      r := Ok(());
    }

    method CompileIdentifier(name: string)
      modifies chunk
      ensures State() == IdentifierCompiled(old(State()), name)
    {
      var slot := ResolveLocal(name);
      if slot.Some? {
        EmitInstruction(LoadLocal(slot.value));
      } else {
        EmitInstruction(LoadGlobal(name));
      }
    }

    method CompileUnary(e: Ast.Expression) returns (r: Result<(), Errors.FlowError>)
      requires e.Unary?
      modifies this`locals, this`scopeDepth, this`loopStarts, this`loopExits, chunk
      ensures Outcome(UnaryCompiled(old(State()), e), r, State())
      decreases e, 0
    {
      r := CompileExpression(e.operand);
      if r.Ok? {
        EmitInstruction(if e.unaryOperator == Ast.Minus then Negate else Not);
      }
    }

    method CompileMethodCall(e: Ast.Expression) returns (r: Result<(), Errors.FlowError>)
      requires e.MethodCall?
      modifies this`locals, this`scopeDepth, this`loopStarts, this`loopExits, chunk
      ensures Outcome(MethodCallCompiled(old(State()), e), r, State())
      decreases e, 0
    {
      r := CompileExpression(e.receiver);
      if r.Err? {
        return;
      }
      r := CompileExpressions(e.methodArguments);
      if r.Ok? {
        EmitInstruction(CallMethod(e.method_));
      }
    }

    method CompileArray(e: Ast.Expression) returns (r: Result<(), Errors.FlowError>)
      requires e.ArrayExpr?
      modifies this`locals, this`scopeDepth, this`loopStarts, this`loopExits, chunk
      ensures Outcome(ArrayCompiled(old(State()), e), r, State())
      decreases e, 0
    {
      r := CompileExpressions(e.elements);
      if r.Ok? {
        EmitInstruction(NewArray(|e.elements|));
      }
    }

    method CompileObject(e: Ast.Expression) returns (r: Result<(), Errors.FlowError>)
      requires e.ObjectExpr?
      modifies this`locals, this`scopeDepth, this`loopStarts, this`loopExits, chunk
      ensures Outcome(ObjectCompiled(old(State()), e), r, State())
      decreases e, 0
    {
      r := CompileProperties(e, e.properties);
      if r.Ok? {
        EmitInstruction(NewObject);
      }
    }

    method CompileIndex(e: Ast.Expression) returns (r: Result<(), Errors.FlowError>)
      requires e.Index?
      modifies this`locals, this`scopeDepth, this`loopStarts, this`loopExits, chunk
      ensures Outcome(IndexCompiled(old(State()), e), r, State())
      decreases e, 0
    {
      r := CompileExpression(e.indexed);
      if r.Err? {
        return;
      }
      r := CompileExpression(e.index);
      if r.Ok? {
        EmitInstruction(GetIndex);
      }
    }

    method CompilePropertyAccess(e: Ast.Expression) returns (r: Result<(), Errors.FlowError>)
      requires e.PropertyAccess?
      modifies this`locals, this`scopeDepth, this`loopStarts, this`loopExits, chunk
      ensures Outcome(PropertyAccessCompiled(old(State()), e), r, State())
      decreases e, 0
    {
      r := CompileExpression(e.accessed);
      if r.Ok? {
        EmitConstant(Str(e.property));
        EmitInstruction(GetProperty(e.property));
      }
    }

    method CompileAnd(e: Ast.Expression) returns (r: Result<(), Errors.FlowError>)
      requires e.Binary? && e.operator == Ast.And
      modifies this`locals, this`scopeDepth, this`loopStarts, this`loopExits, chunk
      ensures Outcome(AndCompiled(old(State()), e), r, State())
      decreases e, 0
    {
      hide ExpressionCompiled;
      r := CompileExpression(e.left);
      if r.Err? {
        return;
      }
      var endJump := EmitJump(JumpIfFalse(0));
      EmitInstruction(Pop);
      ghost var rightStart := State();
      r := CompileExpression(e.right);
      if r.Err? {
        return;
      }
      assert chunk.instructions[endJump] == rightStart.code[endJump];
      PatchJump(endJump);
    }

    method CompileOr(e: Ast.Expression) returns (r: Result<(), Errors.FlowError>)
      requires e.Binary? && e.operator == Ast.Or
      modifies this`locals, this`scopeDepth, this`loopStarts, this`loopExits, chunk
      ensures Outcome(OrCompiled(old(State()), e), r, State())
      decreases e, 0
    {
      hide ExpressionCompiled;
      r := CompileExpression(e.left);
      if r.Err? {
        return;
      }
      var elseJump := EmitJump(JumpIfFalse(0));
      var endJump := EmitJump(Jump(0));
      PatchJump(elseJump);
      EmitInstruction(Pop);
      ghost var rightStart := State();
      r := CompileExpression(e.right);
      if r.Err? {
        return;
      }
      assert chunk.instructions[endJump] == rightStart.code[endJump];
      PatchJump(endJump);
    }

    method CompileBinary(e: Ast.Expression) returns (r: Result<(), Errors.FlowError>)
      requires e.Binary? && e.operator != Ast.And && e.operator != Ast.Or
      modifies this`locals, this`scopeDepth, this`loopStarts, this`loopExits, chunk
      ensures Outcome(BinaryCompiled(old(State()), e), r, State())
      decreases e, 0
    {
      r := CompileExpression(e.left);
      if r.Err? {
        return;
      }
      r := CompileExpression(e.right);
      if r.Err? {
        return;
      }
      EmitInstruction(BinaryInstruction(e.operator));
    }

    method CompileCall(e: Ast.Expression) returns (r: Result<(), Errors.FlowError>)
      requires e.FunctionCall?
      modifies this`locals, this`scopeDepth, this`loopStarts, this`loopExits, chunk
      ensures Outcome(CallCompiled(old(State()), e), r, State())
      decreases e, 0
    {
      r := CompileExpressions(e.arguments);
      if r.Err? {
        return;
      }
      if IsBuiltinFunction(e.callee) {
        EmitConstant(Integer(|e.arguments|));
        EmitInstruction(CallBuiltin(e.callee));
      } else {
        EmitInstruction(LoadGlobal(e.callee));
        EmitInstruction(Call(|e.arguments|));
      }
    }

    /** A lambda's body goes to a compiler of its own, whose chunk is then dropped. */
    method CompileLambda(e: Ast.Expression) returns (r: Result<(), Errors.FlowError>)
      requires e.Lambda?
      modifies this`locals, this`scopeDepth, this`loopStarts, this`loopExits, chunk
      ensures Outcome(LambdaCompiled(old(State()), e), r, State())
      decreases e, 0
    {
      var inner := WithParameters(e.lambdaParameters);
      r := inner.CompileExpression(e.lambdaBody);
      if r.Err? {
        return;
      }
      inner.EmitInstruction(Instruction.Return);
      var address := |chunk.constants|;
      chunk.constants := chunk.constants + [BytecodeFunction(address, |e.lambdaParameters|, |inner.locals|)];
      EmitInstruction(NewClosure(address));
    }

    method CompileExpressions(es: seq<Ast.Expression>) returns (r: Result<(), Errors.FlowError>)
      modifies this`locals, this`scopeDepth, this`loopStarts, this`loopExits, chunk
      ensures Outcome(ExpressionsCompiled(old(State()), es), r, State())
      decreases es
    {
      var i := 0;
      while i < |es|
        invariant 0 <= i <= |es|
        invariant ExpressionsCompiled(old(State()), es) == ExpressionsCompiled(State(), es[i..])
      {
        assert es[i..][1..] == es[i + 1..];
        r := CompileExpression(es[i]);
        if r.Err? {
          return;
        }
        i := i + 1;
      }
      r := Ok(());
    }

    method CompileProperties(parent: Ast.Expression, properties: seq<(string, Ast.Expression)>) returns (r: Result<(), Errors.FlowError>)
      requires forall k :: 0 <= k < |properties| ==> properties[k].1 < parent
      modifies this`locals, this`scopeDepth, this`loopStarts, this`loopExits, chunk
      ensures Outcome(PropertiesCompiled(old(State()), parent, properties, 0), r, State())
      decreases parent, 0, |properties|
    {
      hide ExpressionCompiled, ConstantEmitted;
      var i := 0;
      while i < |properties|
        invariant 0 <= i <= |properties|
        invariant PropertiesCompiled(old(State()), parent, properties, 0) == PropertiesCompiled(State(), parent, properties, i)
      {
        EmitConstant(Str(properties[i].0));
        r := CompileExpression(properties[i].1);
        if r.Err? {
          return;
        }
        i := i + 1;
      }
      r := Ok(());
    }

    // Statements

    /** `compile_statement`: one method per kind of compound statement. */
    method CompileStatement(s: Ast.Statement) returns (r: Result<(), Errors.FlowError>)
      modifies this`locals, this`scopeDepth, this`loopStarts, this`loopExits, chunk
      ensures Outcome(StatementCompiled(old(State()), s), r, State())
      decreases s, 2
    {
      hide ExpressionCompiled, FunctionCompiled, IfCompiled, WhileCompiled, ForCompiled;
      match s
      case ExpressionStatement(e) =>
        r := CompileExpression(e);
        if r.Ok? {
          EmitInstruction(Pop);
        }
      case VariableDeclaration(name, e) =>
        r := CompileExpression(e);
        if r.Ok? {
          if scopeDepth == 0 {
            EmitInstruction(StoreGlobal(name));
          } else {
            AddLocal(name);
          }
        }
      case FunctionDeclaration(_, _, _) => r := CompileFunction(s);
      case If(_, _, _) => r := CompileIf(s);
      case While(_, _) => r := CompileWhile(s);
      case For(_, _, _, _) => r := CompileFor(s);
      case Return(returned) =>
        if returned.Some? {
          r := CompileExpression(returned.value);
          if r.Err? {
            return;
          }
        } else {
          EmitConstant(Null);
          r := Ok(());
        }
        EmitInstruction(Instruction.Return);
      case Show(e) =>
        r := CompileExpression(e);
        if r.Ok? {
          EmitInstruction(Print);
        }
      case Export(_) => r := Err(Errors.CompilationError(EXPORT_UNSUPPORTED));
      case Import(_) => r := Err(Errors.CompilationError(IMPORT_UNSUPPORTED));
      case TryCatch(_, _, _) => r := Err(Errors.CompilationError(TRY_UNSUPPORTED));
    }

    /** The `for stmt in ... { compile_statement(stmt)? }` loops. */
    method CompileBlock(ss: seq<Ast.Statement>) returns (r: Result<(), Errors.FlowError>)
      modifies this`locals, this`scopeDepth, this`loopStarts, this`loopExits, chunk
      ensures Outcome(BlockCompiled(old(State()), ss), r, State())
      decreases ss
    {
      hide StatementCompiled;
      var i := 0;
      while i < |ss|
        invariant 0 <= i <= |ss|
        invariant BlockCompiled(old(State()), ss) == BlockCompiled(State(), ss[i..])
      {
        assert ss[i..][1..] == ss[i + 1..];
        r := CompileStatement(ss[i]);
        if r.Err? {
          return;
        }
        i := i + 1;
      }
      r := Ok(());
    }

    /** `compile_function`: the body goes to a compiler of its own, whose chunk is then dropped. */
    method CompileFunction(s: Ast.Statement) returns (r: Result<(), Errors.FlowError>)
      requires s.FunctionDeclaration?
      modifies chunk
      ensures Outcome(FunctionCompiled(old(State()), s), r, State())
      decreases s, 0
    {
      hide BlockCompiled, ConstantEmitted, ParameterLocals;
      var inner := WithParameters(s.parameters);
      r := inner.CompileBlock(s.body);
      if r.Err? {
        return;
      }
      inner.EmitConstant(Null);
      inner.EmitInstruction(Instruction.Return);
      var address := |chunk.constants|;
      var compiled := BytecodeFunction(address, |s.parameters|, |inner.locals|);
      chunk.constants := chunk.constants + [compiled];
      EmitConstant(compiled);
      EmitInstruction(StoreGlobal(s.name));
    }

    method CompileIf(s: Ast.Statement) returns (r: Result<(), Errors.FlowError>)
      requires s.If?
      modifies this`locals, this`scopeDepth, this`loopStarts, this`loopExits, chunk
      ensures Outcome(IfCompiled(old(State()), s), r, State())
      decreases s, 1
    {
      hide ExpressionCompiled, BlockCompiled, BranchesJoined;
      r := CompileExpression(s.condition);
      if r.Err? {
        return;
      }
      var elseJump := EmitJump(JumpIfFalse(0));
      EmitInstruction(Pop);
      ghost var thenStart := State();
      r := CompileBlock(s.thenBranch);
      if r.Err? {
        return;
      }
      assert chunk.instructions[elseJump] == thenStart.code[elseJump];
      r := JoinBranches(s, elseJump);
    }

    /** The end of an `if`, from its then-branch on. */
    method JoinBranches(s: Ast.Statement, elseJump: nat) returns (r: Result<(), Errors.FlowError>)
      requires s.If? && CanPatch(State(), elseJump)
      modifies this`locals, this`scopeDepth, this`loopStarts, this`loopExits, chunk
      ensures Outcome(BranchesJoined(old(State()), s, elseJump), r, State())
      decreases s, 0
    {
      hide BlockCompiled;
      if s.elseBranch.Else? {
        var endJump := EmitJump(Jump(0));
        PatchJump(elseJump);
        EmitInstruction(Pop);
        ghost var elseStart := State();
        r := CompileBlock(s.elseBranch.statements);
        if r.Err? {
          return;
        }
        assert chunk.instructions[endJump] == elseStart.code[endJump];
        PatchJump(endJump);
      } else {
        PatchJump(elseJump);
        EmitInstruction(Pop);
        r := Ok(());
      }
    }

    /** The end of `while` and `for`: the loop's pending exits popped and patched, its start popped. */
    method CloseLoop()
      requires |loopStarts| > 0 && |loopExits| > 0
      requires AllPatchable(State(), loopExits[|loopExits| - 1])
      modifies this`loopStarts, this`loopExits, chunk
      ensures State() == LoopClosed(old(State()))
    {
      var exits := loopExits[|loopExits| - 1];
      loopExits := loopExits[..|loopExits| - 1];
      ghost var popped := State();
      for k := 0 to |exits|
        invariant AllPatchable(State(), exits[k..])
        invariant AllPatched(popped, exits) == AllPatched(State(), exits[k..])
      {
        assert exits[k..][1..] == exits[k + 1..];
        forall j | k + 1 <= j < |exits| {
          PatchKeepsJumps(State(), exits[k], exits[j]);
        }
        PatchJump(exits[k]);
      }
      loopStarts := loopStarts[..|loopStarts| - 1];
    }

    method CompileWhile(s: Ast.Statement) returns (r: Result<(), Errors.FlowError>)
      requires s.While?
      modifies this`locals, this`scopeDepth, this`loopStarts, this`loopExits, chunk
      ensures Outcome(WhileCompiled(old(State()), s), r, State())
      decreases s, 0
    {
      hide ExpressionCompiled, BlockCompiled;
      var loopStart := |chunk.instructions|;
      loopStarts := loopStarts + [loopStart];
      loopExits := loopExits + [[]];
      r := CompileExpression(s.condition);
      if r.Err? {
        return;
      }
      var exitJump := EmitJump(JumpIfFalse(0));
      EmitInstruction(Pop);
      ghost var bodyStart := State();
      r := CompileBlock(s.body);
      if r.Err? {
        return;
      }
      assert chunk.instructions[exitJump] == bodyStart.code[exitJump];
      EmitLoop(loopStart);
      PatchJump(exitJump);
      EmitInstruction(Pop);
      CloseLoop();
    }

    method CompileFor(s: Ast.Statement) returns (r: Result<(), Errors.FlowError>)
      requires s.For?
      modifies this`locals, this`scopeDepth, this`loopStarts, this`loopExits, chunk
      ensures Outcome(ForCompiled(old(State()), s), r, State())
      decreases s, 1
    {
      hide ForEntered, ForRounds;
      r := CompileForHead(s);
      if r.Ok? {
        r := CompileForRounds(s);
      }
    }

    /** The head of a `for` loop: a scope, the two bounds as locals, the loop entered. */
    method CompileForHead(s: Ast.Statement) returns (r: Result<(), Errors.FlowError>)
      requires s.For?
      modifies this`locals, this`scopeDepth, this`loopStarts, this`loopExits, chunk
      ensures Outcome(ForEntered(old(State()), s), r, State())
      decreases s, 0
    {
      hide ExpressionCompiled;
      BeginScope();
      r := CompileExpression(s.start);
      if r.Err? {
        return;
      }
      AddLocal(s.variable);
      r := CompileExpression(s.end);
      if r.Err? {
        return;
      }
      AddLocal(END_LOCAL);
      loopStarts := loopStarts + [|chunk.instructions|];
      loopExits := loopExits + [[]];
    }

    /** The test, the body and the step of a `for` loop, then its end. */
    method CompileForRounds(s: Ast.Statement) returns (r: Result<(), Errors.FlowError>)
      requires s.For? && scopeDepth > 0 && |locals| > 0 && Resolved(locals, s.variable).Some?
      requires |loopStarts| > 0 && |loopExits| > 0 && loopExits[|loopExits| - 1] == []
      modifies this`locals, this`scopeDepth, this`loopStarts, this`loopExits, chunk
      ensures Outcome(ForRounds(old(State()), s), r, State())
      decreases s, 0
    {
      hide BlockCompiled, ForClosed, ForTested;
      var loopStart := |chunk.instructions|;
      var counter := ResolveLocal(s.variable);
      var exitJump := EmitForTest(counter.value);
      ghost var bodyStart := State();
      r := CompileBlock(s.body);
      if r.Err? {
        return;
      }
      ghost var body := State();
      assert Grows(bodyStart, body) && SameLoops(bodyStart, body);
      assert body.code[exitJump] == bodyStart.code[exitJump];
      CloseForRound(counter.value, loopStart, exitJump);
    }

    /** The test of a `for` round; returns the index of its exit jump. */
    method EmitForTest(counter: nat) returns (exitJump: nat)
      requires |locals| > 0
      modifies chunk
      ensures State() == ForTested(old(State()), counter)
      ensures exitJump == |old(chunk.instructions)| + 3 && CanPatch(State(), exitJump)
    {
      var endLocal := |locals| - 1;
      EmitInstruction(LoadLocal(counter));
      EmitInstruction(LoadLocal(endLocal));
      EmitInstruction(GreaterEqual);
      exitJump := EmitJump(JumpIfTrue(0));
      EmitInstruction(Pop);
    }

    /** The step of the counter, the jump back, the exit patched, the loop and its scope closed. */
    method CloseForRound(counter: nat, loopStart: nat, exitJump: nat)
      requires CanPatch(State(), exitJump) && scopeDepth > 0
      requires |loopStarts| > 0 && |loopExits| > 0 && loopExits[|loopExits| - 1] == []
      modifies this`locals, this`scopeDepth, this`loopStarts, this`loopExits, chunk
      ensures State() == ForClosed(old(State()), counter, loopStart, exitJump)
    {
      EmitInstruction(LoadLocal(counter));
      EmitConstant(Integer(1));
      EmitInstruction(Add);
      EmitInstruction(StoreLocal(counter));
      EmitInstruction(Pop);
      EmitLoop(loopStart);
      assert chunk.instructions[exitJump] == old(chunk.instructions)[exitJump];
      PatchJump(exitJump);
      EmitInstruction(Pop);
      CloseLoop();
      EndScope();
    }

    /** `compile`: every statement, then `Halt`; the caller gets a copy of the chunk. */
    method Compile(statements: seq<Ast.Statement>) returns (r: Result<Chunk, Errors.FlowError>)
      modifies this`locals, this`scopeDepth, this`loopStarts, this`loopExits, chunk
      ensures Compiled(old(State()), statements).Err? ==> r == Err(Compiled(old(State()), statements).error)
      ensures Compiled(old(State()), statements).Ok? ==>
        && State() == Compiled(old(State()), statements).value
        && r.Ok? && fresh(r.value)
        && r.value.instructions == chunk.instructions && r.value.lines == chunk.lines
        && r.value.constants == chunk.constants && r.value.header == chunk.header
    {
      hide BlockCompiled;
      var body := CompileBlock(statements);
      if body.Err? {
        return Err(body.error);
      }
      EmitInstruction(Halt);
      var copy := new Chunk();
      copy.instructions := chunk.instructions;
      copy.lines := chunk.lines;
      copy.constants := chunk.constants;
      copy.header := chunk.header;
      r := Ok(copy);
    }
  }

  /** `compile_program`: `compile` on a fresh compiler. */
  method CompileProgram(statements: seq<Ast.Statement>) returns (r: Result<Chunk, Errors.FlowError>)
    ensures ProgramCompiled(statements).Err? ==> r == Err(ProgramCompiled(statements).error)
    ensures ProgramCompiled(statements).Ok? ==>
      && r.Ok? && fresh(r.value)
      && r.value.instructions == ProgramCompiled(statements).value.code
      && r.value.lines == ProgramCompiled(statements).value.lines
      && r.value.constants == ProgramCompiled(statements).value.constants
  {
    var compiler := new Compiler();
    r := compiler.Compile(statements);
  }
}
