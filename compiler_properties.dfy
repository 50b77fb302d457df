/**
 * What compiling a program guarantees about the chunk it produces, proved
 * over the functions of module Compiler by following their recursion:
 * exactly one `Halt`, at the end, and every jump landing on an instruction
 * of the chunk; then the shapes the individual constructs compile to.
 */
module CompilerProperties {
  import opened Wrappers
  import opened Values
  import opened Bytecode
  import opened Compiler
  import Ast
  import Errors

  // ---------------------------------------------------------------------
  // Code a compilation can go on from
  // ---------------------------------------------------------------------

  /** No `Halt` yet, and no jump further than one past the last instruction. */
  predicate Sound(code: seq<Instruction>)
  {
    forall k :: 0 <= k < |code| ==> code[k] != Halt && (IsJump(code[k]) ==> code[k].target <= |code|)
  }

  predicate SoundResult(r: Result<CompilerState, Errors.FlowError>)
  {
    r.Ok? ==> Sound(r.value.code)
  }

  lemma EmittedSound(st: CompilerState, i: Instruction)
    requires Sound(st.code) && i != Halt && (IsJump(i) ==> i.target <= |st.code| + 1)
    ensures Sound(Emitted(st, i).code)
  {
    var code := Emitted(st, i).code;
    forall k | 0 <= k < |code|
      ensures code[k] != Halt && (IsJump(code[k]) ==> code[k].target <= |code|)
    {
      if k < |st.code| {
        assert code[k] == st.code[k];
      }
    }
  }

  lemma ConstantEmittedSound(st: CompilerState, v: Value)
    requires Sound(st.code)
    ensures Sound(ConstantEmitted(st, v).code)
  {
    var code := ConstantEmitted(st, v).code;
    forall k | 0 <= k < |code|
      ensures code[k] != Halt && (IsJump(code[k]) ==> code[k].target <= |code|)
    {
      if k < |st.code| {
        assert code[k] == code[..|st.code|][k];
      }
    }
  }

  lemma PatchedSound(st: CompilerState, offset: nat)
    requires Sound(st.code) && CanPatch(st, offset)
    ensures Sound(Patched(st, offset).code)
  {
    var code := Patched(st, offset).code;
    forall k | 0 <= k < |code|
      ensures code[k] != Halt && (IsJump(code[k]) ==> code[k].target <= |code|)
    {
      if k != offset {
        assert code[k] == st.code[k];
      }
    }
  }

  lemma {:induction false} AllPatchedSound(st: CompilerState, offsets: seq<nat>)
    requires Sound(st.code) && AllPatchable(st, offsets)
    ensures Sound(AllPatched(st, offsets).code)
    decreases |offsets|
  {
    if |offsets| > 0 {
      var next := Patched(st, offsets[0]);
      PatchedSound(st, offsets[0]);
      forall k | 1 <= k < |offsets| {
        PatchKeepsJumps(st, offsets[0], offsets[k]);
      }
      assert AllPatchable(next, offsets[1..]);
      AllPatchedSound(next, offsets[1..]);
    }
  }

  lemma LoopClosedSound(st: CompilerState)
    requires |st.loopStarts| > 0 && |st.loopExits| > 0
    requires AllPatchable(st, st.loopExits[|st.loopExits| - 1])
    requires Sound(st.code)
    ensures Sound(LoopClosed(st).code)
  {
    var popped := st.(loopExits := st.loopExits[..|st.loopExits| - 1]);
    AllPatchedSound(popped, st.loopExits[|st.loopExits| - 1]);
  }

  lemma ScopeEndedSound(st: CompilerState)
    requires st.depth > 0 && Sound(st.code)
    ensures Sound(ScopeEnded(st).code)
  {
    var lowered := st.(depth := st.depth - 1);
    LocalsPoppedShape(lowered);
    var code := ScopeEnded(st).code;
    forall k | 0 <= k < |code|
      ensures code[k] != Halt && (IsJump(code[k]) ==> code[k].target <= |code|)
    {
      if k < |st.code| {
        assert code[k] == st.code[k];
      } else {
        assert code[k] == Pop;
      }
    }
  }

  // ---------------------------------------------------------------------
  // Expressions
  // ---------------------------------------------------------------------

  lemma {:induction false} ExpressionSound(st: CompilerState, e: Ast.Expression)
    requires Sound(st.code)
    ensures SoundResult(ExpressionCompiled(st, e))
    decreases e, 1
  {
    hide LiteralCompiled, AndCompiled, OrCompiled, BinaryCompiled, UnaryCompiled, CallCompiled, MethodCallCompiled, ArrayCompiled, ObjectCompiled, IndexCompiled, PropertyAccessCompiled, LambdaCompiled;
    match e
    case Literal(l) => LiteralSound(st, l);
    case Identifier(name) =>
      if Resolved(st.locals, name).Some? {
        EmittedSound(st, LoadLocal(Resolved(st.locals, name).value));
      } else {
        EmittedSound(st, LoadGlobal(name));
      }
    case Binary(_, op, _) =>
      if op == Ast.And {
        AndSound(st, e);
      } else if op == Ast.Or {
        OrSound(st, e);
      } else {
        BinarySound(st, e);
      }
    case Unary(_, _) => UnarySound(st, e);
    case FunctionCall(_, _) => CallSound(st, e);
    case MethodCall(_, _, _) => MethodCallSound(st, e);
    case ArrayExpr(_) => ArraySound(st, e);
    case ObjectExpr(_) => ObjectSound(st, e);
    case Index(_, _) => IndexSound(st, e);
    case PropertyAccess(_, _) => PropertyAccessSound(st, e);
    case Lambda(_, _) => LambdaSound(st, e);
  }

  lemma {:induction false} ItemsSound(st: CompilerState, items: seq<Ast.Literal>)
    requires Sound(st.code)
    ensures SoundResult(ItemsPooled(st, items))
    decreases |items|
  {
    if |items| > 0 && ScalarValue(items[0]).Some? {
      var v := ScalarValue(items[0]).value;
      ConstantEmittedSound(st, v);
      ItemsSound(ConstantEmitted(st, v), items[1..]);
    }
  }

  lemma {:induction false} EntriesSound(st: CompilerState, entries: seq<(string, Ast.Literal)>)
    requires Sound(st.code)
    ensures SoundResult(EntriesPooled(st, entries))
    decreases |entries|
  {
    if |entries| > 0 && ScalarValue(entries[0].1).Some? {
      var keyed := ConstantEmitted(st, Str(entries[0].0));
      var v := ScalarValue(entries[0].1).value;
      ConstantEmittedSound(st, Str(entries[0].0));
      ConstantEmittedSound(keyed, v);
      EntriesSound(ConstantEmitted(keyed, v), entries[1..]);
    }
  }

  lemma LiteralSound(st: CompilerState, l: Ast.Literal)
    requires Sound(st.code)
    ensures SoundResult(LiteralCompiled(st, l))
  {
    hide ItemsPooled, EntriesPooled, ConstantEmitted;
    match l
    case ArrayLit(items) =>
      ItemsSound(st, items);
      if ItemsPooled(st, items).Ok? {
        EmittedSound(ItemsPooled(st, items).value, NewArray(|items|));
      }
    case ObjectLit(entries) =>
      EntriesSound(st, entries);
      if EntriesPooled(st, entries).Ok? {
        EmittedSound(EntriesPooled(st, entries).value, NewObject);
      }
    case _ => ConstantEmittedSound(st, ScalarValue(l).value);
  }

  lemma {:induction false} BinarySound(st: CompilerState, e: Ast.Expression)
    requires e.Binary? && e.operator != Ast.And && e.operator != Ast.Or && Sound(st.code)
    ensures SoundResult(BinaryCompiled(st, e))
    decreases e, 0
  {
    hide ExpressionCompiled;
    ExpressionSound(st, e.left);
    var left := ExpressionCompiled(st, e.left);
    if left.Ok? {
      ExpressionSound(left.value, e.right);
      var right := ExpressionCompiled(left.value, e.right);
      if right.Ok? {
        EmittedSound(right.value, BinaryInstruction(e.operator));
      }
    }
  }

  lemma {:induction false} UnarySound(st: CompilerState, e: Ast.Expression)
    requires e.Unary? && Sound(st.code)
    ensures SoundResult(UnaryCompiled(st, e))
    decreases e, 0
  {
    hide ExpressionCompiled;
    ExpressionSound(st, e.operand);
    var operand := ExpressionCompiled(st, e.operand);
    if operand.Ok? {
      EmittedSound(operand.value, if e.unaryOperator == Ast.Minus then Negate else Not);
    }
  }

  lemma {:induction false} CallSound(st: CompilerState, e: Ast.Expression)
    requires e.FunctionCall? && Sound(st.code)
    ensures SoundResult(CallCompiled(st, e))
    decreases e, 0
  {
    hide ExpressionsCompiled, ConstantEmitted;
    ExpressionsSound(st, e.arguments);
    var args := ExpressionsCompiled(st, e.arguments);
    if args.Ok? {
      if IsBuiltinFunction(e.callee) {
        ConstantEmittedSound(args.value, Integer(|e.arguments|));
        EmittedSound(ConstantEmitted(args.value, Integer(|e.arguments|)), CallBuiltin(e.callee));
      } else {
        EmittedSound(args.value, LoadGlobal(e.callee));
        EmittedSound(Emitted(args.value, LoadGlobal(e.callee)), Call(|e.arguments|));
      }
    }
  }

  lemma {:induction false} MethodCallSound(st: CompilerState, e: Ast.Expression)
    requires e.MethodCall? && Sound(st.code)
    ensures SoundResult(MethodCallCompiled(st, e))
    decreases e, 0
  {
    hide ExpressionCompiled, ExpressionsCompiled;
    ExpressionSound(st, e.receiver);
    var receiver := ExpressionCompiled(st, e.receiver);
    if receiver.Ok? {
      ExpressionsSound(receiver.value, e.methodArguments);
      var args := ExpressionsCompiled(receiver.value, e.methodArguments);
      if args.Ok? {
        EmittedSound(args.value, CallMethod(e.method_));
      }
    }
  }

  lemma {:induction false} ArraySound(st: CompilerState, e: Ast.Expression)
    requires e.ArrayExpr? && Sound(st.code)
    ensures SoundResult(ArrayCompiled(st, e))
    decreases e, 0
  {
    hide ExpressionsCompiled;
    ExpressionsSound(st, e.elements);
    var items := ExpressionsCompiled(st, e.elements);
    if items.Ok? {
      EmittedSound(items.value, NewArray(|e.elements|));
    }
  }

  lemma {:induction false} ObjectSound(st: CompilerState, e: Ast.Expression)
    requires e.ObjectExpr? && Sound(st.code)
    ensures SoundResult(ObjectCompiled(st, e))
    decreases e, 0
  {
    hide PropertiesCompiled;
    PropertiesSound(st, e, e.properties, 0);
    var entries := PropertiesCompiled(st, e, e.properties, 0);
    if entries.Ok? {
      EmittedSound(entries.value, NewObject);
    }
  }

  lemma {:induction false} IndexSound(st: CompilerState, e: Ast.Expression)
    requires e.Index? && Sound(st.code)
    ensures SoundResult(IndexCompiled(st, e))
    decreases e, 0
  {
    hide ExpressionCompiled;
    ExpressionSound(st, e.indexed);
    var indexed := ExpressionCompiled(st, e.indexed);
    if indexed.Ok? {
      ExpressionSound(indexed.value, e.index);
      var index := ExpressionCompiled(indexed.value, e.index);
      if index.Ok? {
        EmittedSound(index.value, GetIndex);
      }
    }
  }

  lemma {:induction false} PropertyAccessSound(st: CompilerState, e: Ast.Expression)
    requires e.PropertyAccess? && Sound(st.code)
    ensures SoundResult(PropertyAccessCompiled(st, e))
    decreases e, 0
  {
    hide ExpressionCompiled, ConstantEmitted;
    ExpressionSound(st, e.accessed);
    var receiver := ExpressionCompiled(st, e.accessed);
    if receiver.Ok? {
      ConstantEmittedSound(receiver.value, Str(e.property));
      EmittedSound(ConstantEmitted(receiver.value, Str(e.property)), GetProperty(e.property));
    }
  }

  lemma {:induction false} AndSound(st: CompilerState, e: Ast.Expression)
    requires e.Binary? && e.operator == Ast.And && Sound(st.code)
    ensures SoundResult(AndCompiled(st, e))
    decreases e, 0
  {
    hide ExpressionCompiled;
    ExpressionSound(st, e.left);
    var left := ExpressionCompiled(st, e.left);
    if left.Ok? {
      var endJump := |left.value.code|;
      var jumped := Emitted(left.value, JumpIfFalse(0));
      EmittedSound(left.value, JumpIfFalse(0));
      EmittedSound(jumped, Pop);
      var rightStart := Emitted(jumped, Pop);
      ExpressionSound(rightStart, e.right);
      var right := ExpressionCompiled(rightStart, e.right);
      if right.Ok? {
        assert right.value.code[endJump] == rightStart.code[endJump];
        PatchedSound(right.value, endJump);
      }
    }
  }

  lemma {:induction false} OrSound(st: CompilerState, e: Ast.Expression)
    requires e.Binary? && e.operator == Ast.Or && Sound(st.code)
    ensures SoundResult(OrCompiled(st, e))
    decreases e, 0
  {
    hide ExpressionCompiled;
    ExpressionSound(st, e.left);
    var left := ExpressionCompiled(st, e.left);
    if left.Ok? {
      var elseJump := |left.value.code|;
      var endJump := elseJump + 1;
      var tested := Emitted(left.value, JumpIfFalse(0));
      var jumped := Emitted(tested, Jump(0));
      EmittedSound(left.value, JumpIfFalse(0));
      EmittedSound(tested, Jump(0));
      PatchedSound(jumped, elseJump);
      EmittedSound(Patched(jumped, elseJump), Pop);
      var rightStart := Emitted(Patched(jumped, elseJump), Pop);
      ExpressionSound(rightStart, e.right);
      var right := ExpressionCompiled(rightStart, e.right);
      if right.Ok? {
        assert right.value.code[endJump] == rightStart.code[endJump];
        PatchedSound(right.value, endJump);
      }
    }
  }

  lemma LambdaSound(st: CompilerState, e: Ast.Expression)
    requires e.Lambda? && Sound(st.code)
    ensures SoundResult(LambdaCompiled(st, e))
  {
    hide ExpressionCompiled;
    var inner := ExpressionCompiled(FRESH.(locals := ParameterLocals(e.lambdaParameters)), e.lambdaBody);
    if inner.Ok? {
      var address := |st.constants|;
      var closure := BytecodeFunction(address, |e.lambdaParameters|, |inner.value.locals|);
      EmittedSound(st.(constants := st.constants + [closure]), NewClosure(address));
    }
  }

  lemma {:induction false} ExpressionsSound(st: CompilerState, es: seq<Ast.Expression>)
    requires Sound(st.code)
    ensures SoundResult(ExpressionsCompiled(st, es))
    decreases es
  {
    hide ExpressionCompiled;
    if |es| > 0 {
      ExpressionSound(st, es[0]);
      var first := ExpressionCompiled(st, es[0]);
      if first.Ok? {
        ExpressionsSound(first.value, es[1..]);
      }
    }
  }

  lemma {:induction false} PropertiesSound(st: CompilerState, parent: Ast.Expression, properties: seq<(string, Ast.Expression)>, from: nat)
    requires from <= |properties|
    requires forall k :: 0 <= k < |properties| ==> properties[k].1 < parent
    requires Sound(st.code)
    ensures SoundResult(PropertiesCompiled(st, parent, properties, from))
    decreases parent, 0, |properties| - from
  {
    hide ExpressionCompiled, ConstantEmitted;
    if from < |properties| {
      var keyed := ConstantEmitted(st, Str(properties[from].0));
      ConstantEmittedSound(st, Str(properties[from].0));
      ExpressionSound(keyed, properties[from].1);
      var value := ExpressionCompiled(keyed, properties[from].1);
      if value.Ok? {
        PropertiesSound(value.value, parent, properties, from + 1);
      }
    }
  }

  // ---------------------------------------------------------------------
  // Statements
  // ---------------------------------------------------------------------

  lemma {:induction false} StatementSound(st: CompilerState, s: Ast.Statement)
    requires Sound(st.code)
    ensures SoundResult(StatementCompiled(st, s))
    decreases s, 2
  {
    hide ExpressionCompiled, FunctionCompiled, IfCompiled, WhileCompiled, ForCompiled, ConstantEmitted;
    match s
    case ExpressionStatement(_) => SimpleStatementSound(st, s);
    case VariableDeclaration(_, _) => SimpleStatementSound(st, s);
    case FunctionDeclaration(_, _, _) => FunctionSound(st, s);
    case If(_, _, _) => IfSound(st, s);
    case While(_, _) => WhileSound(st, s);
    case For(_, _, _, _) => ForSound(st, s);
    case Return(_) => ReturnSound(st, s);
    case Show(_) => SimpleStatementSound(st, s);
    case Export(_) =>
    case Import(_) =>
    case TryCatch(_, _, _) =>
  }

  lemma {:induction false} ReturnSound(st: CompilerState, s: Ast.Statement)
    requires s.Return? && Sound(st.code)
    ensures SoundResult(StatementCompiled(st, s))
    decreases s, 1
  {
    hide ExpressionCompiled, ConstantEmitted;
    if s.returned.Some? {
      ExpressionSound(st, s.returned.value);
      if ExpressionCompiled(st, s.returned.value).Ok? {
        EmittedSound(ExpressionCompiled(st, s.returned.value).value, Instruction.Return);
      }
    } else {
      ConstantEmittedSound(st, Null);
      EmittedSound(ConstantEmitted(st, Null), Instruction.Return);
    }
  }

  /** The statements that compile one expression and one more instruction, or add a local. */
  lemma {:induction false} SimpleStatementSound(st: CompilerState, s: Ast.Statement)
    requires s.ExpressionStatement? || s.VariableDeclaration? || s.Show?
    requires Sound(st.code)
    ensures SoundResult(StatementCompiled(st, s))
    decreases s, 1
  {
    hide ExpressionCompiled, ConstantEmitted;
    match s
    case ExpressionStatement(e) =>
      ExpressionSound(st, e);
      if ExpressionCompiled(st, e).Ok? {
        EmittedSound(ExpressionCompiled(st, e).value, Pop);
      }
    case VariableDeclaration(name, e) =>
      ExpressionSound(st, e);
      if ExpressionCompiled(st, e).Ok? {
        EmittedSound(ExpressionCompiled(st, e).value, StoreGlobal(name));
      }
    case Show(e) =>
      ExpressionSound(st, e);
      if ExpressionCompiled(st, e).Ok? {
        EmittedSound(ExpressionCompiled(st, e).value, Print);
      }
  }

  lemma {:induction false} BlockSound(st: CompilerState, ss: seq<Ast.Statement>)
    requires Sound(st.code)
    ensures SoundResult(BlockCompiled(st, ss))
    decreases ss
  {
    hide StatementCompiled;
    if |ss| > 0 {
      StatementSound(st, ss[0]);
      var first := StatementCompiled(st, ss[0]);
      if first.Ok? {
        BlockSound(first.value, ss[1..]);
      }
    }
  }

  lemma FunctionSound(st: CompilerState, s: Ast.Statement)
    requires s.FunctionDeclaration? && Sound(st.code)
    ensures SoundResult(FunctionCompiled(st, s))
  {
    hide BlockCompiled, ConstantEmitted;
    var body := BlockCompiled(FRESH.(locals := ParameterLocals(s.parameters)), s.body);
    if body.Ok? {
      var compiled := BytecodeFunction(|st.constants|, |s.parameters|, |body.value.locals|);
      var added := st.(constants := st.constants + [compiled]);
      ConstantEmittedSound(added, compiled);
      EmittedSound(ConstantEmitted(added, compiled), StoreGlobal(s.name));
    }
  }

  lemma {:induction false} IfSound(st: CompilerState, s: Ast.Statement)
    requires s.If? && Sound(st.code)
    ensures SoundResult(IfCompiled(st, s))
    decreases s, 1
  {
    hide ExpressionCompiled, BlockCompiled, BranchesJoined;
    ExpressionSound(st, s.condition);
    var condition := ExpressionCompiled(st, s.condition);
    if condition.Ok? {
      var elseJump := |condition.value.code|;
      var tested := Emitted(condition.value, JumpIfFalse(0));
      EmittedSound(condition.value, JumpIfFalse(0));
      EmittedSound(tested, Pop);
      var thenStart := Emitted(tested, Pop);
      BlockSound(thenStart, s.thenBranch);
      var thenDone := BlockCompiled(thenStart, s.thenBranch);
      if thenDone.Ok? {
        assert thenDone.value.code[elseJump] == thenStart.code[elseJump];
        BranchesSound(thenDone.value, s, elseJump);
      }
    }
  }

  lemma {:induction false} BranchesSound(thenDone: CompilerState, s: Ast.Statement, elseJump: nat)
    requires s.If? && CanPatch(thenDone, elseJump) && Sound(thenDone.code)
    ensures SoundResult(BranchesJoined(thenDone, s, elseJump))
    decreases s, 0
  {
    hide BlockCompiled;
    if s.elseBranch.Else? {
      var endJump := |thenDone.code|;
      var jumped := Emitted(thenDone, Jump(0));
      EmittedSound(thenDone, Jump(0));
      PatchedSound(jumped, elseJump);
      EmittedSound(Patched(jumped, elseJump), Pop);
      var elseStart := Emitted(Patched(jumped, elseJump), Pop);
      BlockSound(elseStart, s.elseBranch.statements);
      var elseDone := BlockCompiled(elseStart, s.elseBranch.statements);
      if elseDone.Ok? {
        assert elseDone.value.code[endJump] == elseStart.code[endJump];
        PatchedSound(elseDone.value, endJump);
      }
    } else {
      PatchedSound(thenDone, elseJump);
      EmittedSound(Patched(thenDone, elseJump), Pop);
    }
  }

  lemma {:induction false} WhileSound(st: CompilerState, s: Ast.Statement)
    requires s.While? && Sound(st.code)
    ensures SoundResult(WhileCompiled(st, s))
    decreases s, 0
  {
    hide ExpressionCompiled, BlockCompiled, LoopClosed;
    var loopStart := |st.code|;
    var entered := st.(loopStarts := st.loopStarts + [loopStart], loopExits := st.loopExits + [[]]);
    ExpressionSound(entered, s.condition);
    var condition := ExpressionCompiled(entered, s.condition);
    if condition.Ok? {
      var exitJump := |condition.value.code|;
      var tested := Emitted(condition.value, JumpIfFalse(0));
      EmittedSound(condition.value, JumpIfFalse(0));
      EmittedSound(tested, Pop);
      var bodyStart := Emitted(tested, Pop);
      BlockSound(bodyStart, s.body);
      var body := BlockCompiled(bodyStart, s.body);
      if body.Ok? {
        assert body.value.code[exitJump] == bodyStart.code[exitJump];
        var looped := Emitted(body.value, Jump(loopStart));
        EmittedSound(body.value, Jump(loopStart));
        PatchedSound(looped, exitJump);
        EmittedSound(Patched(looped, exitJump), Pop);
        LoopClosedSound(Emitted(Patched(looped, exitJump), Pop));
      }
    }
  }

  lemma {:induction false} ForSound(st: CompilerState, s: Ast.Statement)
    requires s.For? && Sound(st.code)
    ensures SoundResult(ForCompiled(st, s))
    decreases s, 1
  {
    hide ForEntered, ForRounds;
    ForEnteredSound(st, s);
    var entered := ForEntered(st, s);
    if entered.Ok? {
      ForRoundsSound(entered.value, s);
    }
  }

  lemma {:induction false} ForEnteredSound(st: CompilerState, s: Ast.Statement)
    requires s.For? && Sound(st.code)
    ensures SoundResult(ForEntered(st, s))
    decreases s, 0
  {
    hide ExpressionCompiled;
    var scoped := st.(depth := st.depth + 1);
    ExpressionSound(scoped, s.start);
    var started := ExpressionCompiled(scoped, s.start);
    if started.Ok? {
      ExpressionSound(LocalAdded(started.value, s.variable), s.end);
    }
  }

  lemma {:induction false} ForRoundsSound(entered: CompilerState, s: Ast.Statement)
    requires s.For? && entered.depth > 0 && |entered.locals| > 0 && Resolved(entered.locals, s.variable).Some?
    requires |entered.loopStarts| > 0 && |entered.loopExits| > 0 && entered.loopExits[|entered.loopExits| - 1] == []
    requires Sound(entered.code)
    ensures SoundResult(ForRounds(entered, s))
    decreases s, 0
  {
    hide BlockCompiled, ForClosed;
    var counter := Resolved(entered.locals, s.variable).value;
    var exitJump := |entered.code| + 3;
    var bodyStart := ForTested(entered, counter);
    forall k | 0 <= k < |bodyStart.code|
      ensures bodyStart.code[k] != Halt && (IsJump(bodyStart.code[k]) ==> bodyStart.code[k].target <= |bodyStart.code|)
    {
      if k < |entered.code| {
        assert bodyStart.code[k] == entered.code[k];
      }
    }
    BlockSound(bodyStart, s.body);
    var body := BlockCompiled(bodyStart, s.body);
    if body.Ok? {
      assert body.value.code[exitJump] == bodyStart.code[exitJump];
      ForClosedSound(body.value, counter, |entered.code|, exitJump);
    }
  }

  lemma ForClosedSound(body: CompilerState, counter: nat, loopStart: nat, exitJump: nat)
    requires CanPatch(body, exitJump) && body.depth > 0
    requires |body.loopStarts| > 0 && |body.loopExits| > 0 && body.loopExits[|body.loopExits| - 1] == []
    requires Sound(body.code) && loopStart <= |body.code|
    ensures Sound(ForClosed(body, counter, loopStart, exitJump).code)
  {
    var loaded := Emitted(body, LoadLocal(counter));
    EmittedSound(body, LoadLocal(counter));
    var one := ConstantEmitted(loaded, Integer(1));
    ConstantEmittedSound(loaded, Integer(1));
    EmittedSound(one, Add);
    EmittedSound(Emitted(one, Add), StoreLocal(counter));
    var stored := Emitted(Emitted(one, Add), StoreLocal(counter));
    EmittedSound(stored, Pop);
    var stepped := Emitted(stored, Pop);
    EmittedSound(stepped, Jump(loopStart));
    var looped := Emitted(stepped, Jump(loopStart));
    assert looped.code[exitJump] == body.code[exitJump];
    PatchedSound(looped, exitJump);
    EmittedSound(Patched(looped, exitJump), Pop);
    var exited := Emitted(Patched(looped, exitJump), Pop);
    LoopClosedSound(exited);
    ScopeEndedSound(LoopClosed(exited));
  }

  // ---------------------------------------------------------------------
  // The whole program
  // ---------------------------------------------------------------------

  /**
   * A compiled program holds exactly one `Halt`, as its last instruction,
   * and every jump in it lands on one of its instructions.
   */
  lemma ProgramHaltsOnceAtEnd(statements: seq<Ast.Statement>)
    requires ProgramCompiled(statements).Ok?
    ensures var code := ProgramCompiled(statements).value.code;
      && |code| > 0 && code[|code| - 1] == Halt
      && (forall k :: 0 <= k < |code| - 1 ==> code[k] != Halt)
      && (forall k :: 0 <= k < |code| && IsJump(code[k]) ==> code[k].target < |code|)
  {
    BlockSound(FRESH, statements);
    var body := BlockCompiled(FRESH, statements).value;
    var code := ProgramCompiled(statements).value.code;
    assert code == body.code + [Halt];
    forall k | 0 <= k < |code| - 1
      ensures code[k] != Halt && (IsJump(code[k]) ==> code[k].target < |code|)
    {
      assert code[k] == body.code[k];
    }
  }

  // ---------------------------------------------------------------------
  // The shapes single constructs compile to
  // ---------------------------------------------------------------------

  /**
   * `and`: the left operand's code is kept; after it a `JumpIfFalse` to the
   * end of the whole expression, then a `Pop`, then the right operand.
   */
  lemma AndShape(st: CompilerState, e: Ast.Expression)
    requires e.Binary? && e.operator == Ast.And && ExpressionCompiled(st, e).Ok?
    ensures ExpressionCompiled(st, e.left).Ok?
    ensures var left := ExpressionCompiled(st, e.left).value.code;
      var code := ExpressionCompiled(st, e).value.code;
      && |code| >= |left| + 2 && code[..|left|] == left
      && code[|left|] == JumpIfFalse(|code|) && code[|left| + 1] == Pop
  {
    var left := ExpressionCompiled(st, e.left).value;
    var rightStart := Emitted(Emitted(left, JumpIfFalse(0)), Pop);
    var right := ExpressionCompiled(rightStart, e.right).value;
    assert right.code[..|rightStart.code|] == rightStart.code;
    assert right.code[|left.code|] == JumpIfFalse(0);
    var code := ExpressionCompiled(st, e).value.code;
    assert code == Patched(right, |left.code|).code;
    assert code[..|left.code|] == right.code[..|left.code|];
  }

  /**
   * `or`: the left operand's code is kept; after it a `JumpIfFalse` over the
   * next instruction, a `Jump` to the end of the whole expression, a `Pop`,
   * then the right operand.
   */
  lemma OrShape(st: CompilerState, e: Ast.Expression)
    requires e.Binary? && e.operator == Ast.Or && ExpressionCompiled(st, e).Ok?
    ensures ExpressionCompiled(st, e.left).Ok?
    ensures var left := ExpressionCompiled(st, e.left).value.code;
      var code := ExpressionCompiled(st, e).value.code;
      && |code| >= |left| + 3 && code[..|left|] == left
      && code[|left|] == JumpIfFalse(|left| + 2) && code[|left| + 1] == Jump(|code|)
      && code[|left| + 2] == Pop
  {
    var left := ExpressionCompiled(st, e.left).value;
    var jumped := Emitted(Emitted(left, JumpIfFalse(0)), Jump(0));
    var rightStart := Emitted(Patched(jumped, |left.code|), Pop);
    var right := ExpressionCompiled(rightStart, e.right).value;
    assert right.code[..|rightStart.code|] == rightStart.code;
    assert right.code[|left.code|] == JumpIfFalse(|left.code| + 2);
    assert right.code[|left.code| + 1] == Jump(0);
    var code := ExpressionCompiled(st, e).value.code;
    assert code == Patched(right, |left.code| + 1).code;
    assert code[..|left.code|] == right.code[..|left.code|];
  }

  /**
   * A call compiles exactly when its arguments do. A builtin is called with
   * the argument count loaded as an `Integer` constant and `CallBuiltin`;
   * any other name with `LoadGlobal` of the name and `Call` of the count.
   */
  lemma CallShape(st: CompilerState, e: Ast.Expression)
    requires e.FunctionCall?
    ensures ExpressionCompiled(st, e).Ok? <==> ExpressionsCompiled(st, e.arguments).Ok?
    ensures ExpressionCompiled(st, e).Ok? ==>
      var args := ExpressionsCompiled(st, e.arguments).value.code;
      var r := ExpressionCompiled(st, e).value;
      && |r.code| == |args| + 2 && r.code[..|args|] == args
      && (IsBuiltinFunction(e.callee) ==>
            && r.code[|args|].LoadConstant? && r.code[|args|].constantIndex < |r.constants|
            && r.constants[r.code[|args|].constantIndex] == Integer(|e.arguments|)
            && r.code[|args| + 1] == CallBuiltin(e.callee))
      && (!IsBuiltinFunction(e.callee) ==>
            r.code[|args|..] == [LoadGlobal(e.callee), Call(|e.arguments|)])
  {
    assert ExpressionCompiled(st, e) == CallCompiled(st, e);
    if ExpressionsCompiled(st, e.arguments).Ok? {
      var args := ExpressionsCompiled(st, e.arguments).value;
      var r := ExpressionCompiled(st, e).value;
      if IsBuiltinFunction(e.callee) {
        var counted := ConstantEmitted(args, Integer(|e.arguments|));
        assert r.code == counted.code + [CallBuiltin(e.callee)];
        assert r.code[..|args.code|] == counted.code[..|args.code|];
        var c := r.constants[r.code[|args.code|].constantIndex];
        assert PoolEqual(c, Integer(|e.arguments|));
        assert c.Integer?;
      } else {
        assert r.code == args.code + [LoadGlobal(e.callee), Call(|e.arguments|)];
      }
    }
  }

  /**
   * Property access: the receiver's code, the property name loaded as a
   * string constant, then `GetProperty` of the name.
   */
  lemma PropertyAccessShape(st: CompilerState, e: Ast.Expression)
    requires e.PropertyAccess? && ExpressionCompiled(st, e).Ok?
    ensures ExpressionCompiled(st, e.accessed).Ok?
    ensures var receiver := ExpressionCompiled(st, e.accessed).value.code;
      var r := ExpressionCompiled(st, e).value;
      && |r.code| == |receiver| + 2 && r.code[..|receiver|] == receiver
      && r.code[|receiver|].LoadConstant? && r.code[|receiver|].constantIndex < |r.constants|
      && r.constants[r.code[|receiver|].constantIndex] == Str(e.property)
      && r.code[|receiver| + 1] == GetProperty(e.property)
  {
    var receiver := ExpressionCompiled(st, e.accessed).value;
    var named := ConstantEmitted(receiver, Str(e.property));
    var r := ExpressionCompiled(st, e).value;
    assert r.code == named.code + [GetProperty(e.property)];
    assert r.code[..|receiver.code|] == named.code[..|receiver.code|];
    var c := r.constants[r.code[|receiver.code|].constantIndex];
    assert PoolEqual(c, Str(e.property));
    assert c.Str?;
  }

  /**
   * A variable declaration at the top level stores the value in the global
   * of that name; inside a scope it emits nothing more and the value's stack
   * slot becomes the new local, which the name now resolves to.
   */
  lemma VariableDeclarationShape(st: CompilerState, s: Ast.Statement)
    requires s.VariableDeclaration? && StatementCompiled(st, s).Ok?
    ensures ExpressionCompiled(st, s.value).Ok?
    ensures var value := ExpressionCompiled(st, s.value).value;
      var r := StatementCompiled(st, s).value;
      && (st.depth == 0 ==> r.code == value.code + [StoreGlobal(s.name)] && r.locals == st.locals)
      && (st.depth > 0 ==>
            && r.code == value.code && r.locals == st.locals + [Local(s.name, st.depth)]
            && Resolved(r.locals, s.name) == Some(|st.locals|))
  {
  }

  /**
   * A function declaration appends its `BytecodeFunction` to the pool twice,
   * both copies naming the first one's index as their address, and emits a
   * load of the second copy and a store to the global of the function's name.
   */
  lemma FunctionPooledTwice(st: CompilerState, s: Ast.Statement)
    requires s.FunctionDeclaration? && StatementCompiled(st, s).Ok?
    ensures var r := StatementCompiled(st, s).value;
      var n := |st.constants|;
      && |r.constants| == n + 2 && r.constants[..n] == st.constants
      && r.constants[n] == r.constants[n + 1]
      && r.constants[n].BytecodeFunction? && r.constants[n].address == n
      && r.constants[n].arity == |s.parameters|
      && r.code == st.code + [LoadConstant(n + 1), StoreGlobal(s.name)]
      && r.locals == st.locals
  {
    var r := StatementCompiled(st, s).value;
    var n := |st.constants|;
    var f := r.constants[n];
    assert r.constants == st.constants + [f, f];
  }

  /**
   * An `if` without an else-branch: the condition's code is kept; after it a
   * `JumpIfFalse` to the last instruction, which is a `Pop`, and another
   * `Pop` right after the `JumpIfFalse`.
   */
  lemma IfShape(st: CompilerState, s: Ast.Statement)
    requires s.If? && s.elseBranch.NoElse? && StatementCompiled(st, s).Ok?
    ensures ExpressionCompiled(st, s.condition).Ok?
    ensures var condition := ExpressionCompiled(st, s.condition).value.code;
      var code := StatementCompiled(st, s).value.code;
      && |code| >= |condition| + 3 && code[..|condition|] == condition
      && code[|condition|] == JumpIfFalse(|code| - 1) && code[|condition| + 1] == Pop
      && code[|code| - 1] == Pop
  {
    hide ExpressionCompiled;
    hide BlockCompiled;
    assert StatementCompiled(st, s) == IfCompiled(st, s);
    var condition := ExpressionCompiled(st, s.condition).value;
    var elseJump := |condition.code|;
    var thenStart := Emitted(Emitted(condition, JumpIfFalse(0)), Pop);
    var thenDone := BlockCompiled(thenStart, s.thenBranch).value;
    assert thenDone.code[..|thenStart.code|] == thenStart.code;
    assert thenDone.code[elseJump] == JumpIfFalse(0) && thenDone.code[elseJump + 1] == Pop;
    assert IfCompiled(st, s) == BranchesJoined(thenDone, s, elseJump);
    assert BranchesJoined(thenDone, s, elseJump) == Ok(Emitted(Patched(thenDone, elseJump), Pop));
    var code := StatementCompiled(st, s).value.code;
    assert code == Patched(thenDone, elseJump).code + [Pop];
    assert code[..elseJump] == condition.code;
  }

  // ---------------------------------------------------------------------
  // What is rejected
  // ---------------------------------------------------------------------

  /** The statements `compile_statement` has no translation for. */
  predicate Unsupported(s: Ast.Statement)
  {
    s.Export? || s.Import? || s.TryCatch?
  }

  /** A block holding an import, an export or a try-catch does not compile. */
  lemma {:induction false} UnsupportedRejected(st: CompilerState, ss: seq<Ast.Statement>)
    requires exists k :: 0 <= k < |ss| && Unsupported(ss[k])
    ensures BlockCompiled(st, ss).Err?
    decreases ss
  {
    if !Unsupported(ss[0]) && StatementCompiled(st, ss[0]).Ok? {
      var k :| 0 <= k < |ss| && Unsupported(ss[k]);
      assert ss[1..][k - 1] == ss[k];
      UnsupportedRejected(StatementCompiled(st, ss[0]).value, ss[1..]);
    }
  }

  /**
   * The elements of an array literal compile exactly when none of them is an
   * array or object literal; otherwise the error is the nested-literal one.
   */
  lemma {:induction false} NestedItemsRejected(st: CompilerState, items: seq<Ast.Literal>)
    ensures ItemsPooled(st, items).Err? <==> exists k :: 0 <= k < |items| && ScalarValue(items[k]).None?
    ensures ItemsPooled(st, items).Err? ==> ItemsPooled(st, items).error == Errors.CompilationError(NESTED_UNSUPPORTED)
    decreases |items|
  {
    if |items| > 0 && ScalarValue(items[0]).Some? {
      NestedItemsRejected(ConstantEmitted(st, ScalarValue(items[0]).value), items[1..]);
      if exists k :: 0 <= k < |items| && ScalarValue(items[k]).None? {
        var k :| 0 <= k < |items| && ScalarValue(items[k]).None?;
        assert items[1..][k - 1] == items[k];
      }
      if exists k :: 0 <= k < |items[1..]| && ScalarValue(items[1..][k]).None? {
        var k :| 0 <= k < |items[1..]| && ScalarValue(items[1..][k]).None?;
        assert items[k + 1] == items[1..][k];
      }
    }
  }

  /**
   * The entries of an object literal compile exactly when no value is an
   * array or object literal; otherwise the error is the nested-literal one.
   */
  lemma {:induction false} NestedEntriesRejected(st: CompilerState, entries: seq<(string, Ast.Literal)>)
    ensures EntriesPooled(st, entries).Err? <==> exists k :: 0 <= k < |entries| && ScalarValue(entries[k].1).None?
    ensures EntriesPooled(st, entries).Err? ==> EntriesPooled(st, entries).error == Errors.CompilationError(NESTED_UNSUPPORTED)
    decreases |entries|
  {
    if |entries| > 0 && ScalarValue(entries[0].1).Some? {
      var keyed := ConstantEmitted(st, Str(entries[0].0));
      NestedEntriesRejected(ConstantEmitted(keyed, ScalarValue(entries[0].1).value), entries[1..]);
      if exists k :: 0 <= k < |entries| && ScalarValue(entries[k].1).None? {
        var k :| 0 <= k < |entries| && ScalarValue(entries[k].1).None?;
        assert entries[1..][k - 1] == entries[k];
      }
      if exists k :: 0 <= k < |entries[1..]| && ScalarValue(entries[1..][k].1).None? {
        var k :| 0 <= k < |entries[1..]| && ScalarValue(entries[1..][k].1).None?;
        assert entries[k + 1] == entries[1..][k];
      }
    }
  }
}
