/**
 * What the tree-walking interpreter promises: exact integer arithmetic with
 * promotion, the division and comparison rules, truthiness-driven `and` and
 * `or`, indexing, parameter binding (including its leaks), inclusive `for`
 * loops, `try`/`catch` and the top-level `return`.
 */
module InterpreterProperties {
  import opened Wrappers
  import opened Values
  import opened Interpreter
  import Ast
  import BigNum
  import Errors
  import Vm
  import Bytecode
  import BytecodeCompiling

  // ---------------------------------------------------------------------
  // Operators
  // ---------------------------------------------------------------------

  /**
   * `+`, `-` and `*` on whole numbers are exact: the result is an Integer
   * exactly when both operands are Integers and the result fits in an i64,
   * and a normalized BigInteger holding the exact result otherwise.
   */
  lemma ArithmeticIsExact(op: Ast.BinaryOperator, a: Value, b: Value)
    requires op.Add? || op.Subtract? || op.Multiply?
    requires Vm.IsIntegral(a) && Vm.IsIntegral(b) && !BinaryPanics(op, a, b)
    ensures var r := ApplyBinary(a, op, b);
      && r.Ok? && Vm.IsIntegral(r.value)
      && Vm.IntegerValue(r.value) == Exact(op, Vm.IntegerValue(a), Vm.IntegerValue(b))
      && (r.value.Integer? <==> a.Integer? && b.Integer? && Ast.IsI64(Exact(op, a.i, b.i)))
      && (r.value.BigInteger? ==> BigNum.Normalized(r.value.big))
  {
  }

  /**
   * `/`: a zero divisor (Integer 0 or Float 0.0) under a number is
   * DivisionByZero, two Integers divide to the exact quotient as a Float,
   * and anything but numbers is a TypeError.
   */
  lemma DivideRules(a: Value, b: Value)
    ensures IsNumber(a) && (b == Integer(0) || b == Float(0.0)) ==>
      ApplyBinary(a, Ast.Divide, b) == Err(Errors.DivisionByZero)
    ensures a.Integer? && b.Integer? && b.i != 0 ==>
      ApplyBinary(a, Ast.Divide, b) == Ok(Float(a.i as real / b.i as real))
    ensures !IsNumber(a) || !IsNumber(b) ==>
      ApplyBinary(a, Ast.Divide, b) == Err(Errors.TypeError(Vm.CannotText("divide", a, b)))
  {
    hide Arithmetic, Comparison, ValuesEqual, Vm.CannotText;
  }

  /**
   * `%` needs two Integers, fails on 0 with DivisionByZero and otherwise
   * gives the truncating remainder: it carries the dividend's sign and is
   * smaller than the divisor.
   */
  lemma ModuloRules(a: Value, b: Value)
    requires !Vm.ModuloPanics(a, b)
    ensures !(a.Integer? && b.Integer?) ==>
      ApplyBinary(a, Ast.Modulo, b) == Err(Errors.TypeError(Vm.CannotText("modulo", a, b)))
    ensures a.Integer? && b == Integer(0) ==> ApplyBinary(a, Ast.Modulo, b) == Err(Errors.DivisionByZero)
    ensures a.Integer? && b.Integer? && b.i != 0 ==>
      var r := ApplyBinary(a, Ast.Modulo, b);
      && r.Ok? && r.value.Integer? && a.i == Vm.TruncDiv(a.i, b.i) * b.i + r.value.i
      && Vm.Abs(r.value.i) < Vm.Abs(b.i) && (r.value.i != 0 ==> (r.value.i < 0 <==> a.i < 0))
  {
    hide Arithmetic, Comparison, ValuesEqual, Vm.CannotText;
    if a.Integer? && b.Integer? && b.i != 0 {
      Vm.TruncRemSpec(a.i, b.i);
    }
  }

  /** `+` with a String on either side concatenates the Display text of the other side, in order. */
  lemma StringConcatenation(a: Value, b: Value)
    ensures a.Str? ==> ApplyBinary(a, Ast.Add, b) == Ok(Str(a.s + ValueText(b)))
    ensures b.Str? ==> ApplyBinary(a, Ast.Add, b) == Ok(Str(ValueText(a) + b.s))
  {
  }

  /**
   * Ordering comparisons succeed exactly on pairs of numbers, and then
   * agree with the order of the numbers; anything else is a TypeError.
   */
  lemma ComparisonRules(op: Ast.BinaryOperator, a: Value, b: Value)
    requires IsComparison(op)
    ensures ApplyBinary(a, op, b).Ok? <==> IsNumber(a) && IsNumber(b)
    ensures ApplyBinary(a, op, b).Err? ==> ApplyBinary(a, op, b).error == Errors.TypeError(Vm.CannotText("compare", a, b))
    ensures a.Integer? && b.Integer? ==>
      ApplyBinary(a, op, b) == Ok(Boolean(
        if op.Greater? then a.i > b.i else if op.GreaterEqual? then a.i >= b.i
        else if op.Less? then a.i < b.i else a.i <= b.i))
  {
  }

  /**
   * `and` is truthy exactly when both operands are, `or` when either is,
   * and each returns one of its operands; `not` negates truthiness.
   */
  lemma LogicalOperators(a: Value, b: Value)
    ensures var r := ApplyBinary(a, Ast.And, b);
      && r.Ok? && (r.value == a || r.value == b)
      && (IsTruthy(r.value) <==> IsTruthy(a) && IsTruthy(b))
    ensures var r := ApplyBinary(a, Ast.Or, b);
      && r.Ok? && (r.value == a || r.value == b)
      && (IsTruthy(r.value) <==> IsTruthy(a) || IsTruthy(b))
    ensures ApplyUnary(Ast.Not, a) == Ok(Boolean(!IsTruthy(a)))
  {
  }

  /**
   * Equality is symmetric; on Strings, Integers, Booleans and Null it is
   * identity, and BigIntegers, arrays, objects and functions are never
   * equal to anything, not even to themselves.
   */
  lemma EqualityRules(a: Value, b: Value)
    ensures ValuesEqual(a, b) == ValuesEqual(b, a)
    ensures (a.Str? || a.Integer? || a.Boolean? || a.Null?) && !b.Float? ==> (ValuesEqual(a, b) <==> a == b)
    ensures a.BigInteger? || a.Array? || a.Object? || a.Function? || a.Lambda? ==> !ValuesEqual(a, b)
  {
  }

  /** Unary minus negates numbers (an i64 other than i64::MIN stays an i64); on anything else it is a TypeError. */
  lemma NegationRules(v: Value)
    requires !UnaryPanics(Ast.Minus, v)
    ensures v.Integer? ==> ApplyUnary(Ast.Minus, v) == Ok(Integer(-v.i))
    ensures v.Integer? && Ast.IsI64(v.i) ==> Ast.IsI64(-v.i)
    ensures v.Float? ==> ApplyUnary(Ast.Minus, v) == Ok(Float(-v.f))
    ensures !IsNumber(v) ==> ApplyUnary(Ast.Minus, v).Err? && ApplyUnary(Ast.Minus, v).error.TypeError?
  {
  }

  /**
   * `obj[key]` and `obj.key` agree on objects (a missing key is Null);
   * an array index must lie in range, a negative one never does; an
   * array's `length` property is its element count; any other pairing is a
   * TypeError.
   */
  lemma IndexingRules(container: Value, index: Value)
    ensures container.Object? && index.Str? ==> GetIndex(container, index) == GetProperty(container, index.s)
    ensures container.Object? && index.Str? && index.s !in container.properties ==> GetIndex(container, index) == Ok(Null)
    ensures container.Array? && index.Integer? ==>
      (GetIndex(container, index).Ok? <==> 0 <= index.i < |container.elements|)
    ensures container.Array? && index.Integer? && 0 <= index.i < |container.elements| ==>
      GetIndex(container, index) == Ok(container.elements[index.i])
    ensures container.Array? && |container.elements| <= BigNum.I64_MAX ==>
      GetProperty(container, "length") == Ok(Integer(|container.elements|))
    ensures !(container.Array? && index.Integer?) && !(container.Object? && index.Str?) ==>
      GetIndex(container, index).Err? && GetIndex(container, index).error.TypeError?
  {
    if container.Array? && |container.elements| <= BigNum.I64_MAX {
      assert |container.elements| % Bytecode.U64 == |container.elements|;
    }
  }

  // ---------------------------------------------------------------------
  // Evaluation
  // ---------------------------------------------------------------------

  function Lit(v: int): Ast.Expression { Ast.Literal(Ast.IntegerLit(v)) }

  /**
   * `and` does not short-circuit: `false and x` with x unbound fails with
   * x's UndefinedVariable instead of giving false.
   */
  lemma AndEvaluatesBothOperands(lib: Library, st: RunState, x: string, fuel: nat)
    requires Lookup(st.env, x, Variables).None?
    ensures Eval(lib, st, Ast.Binary(Ast.Literal(Ast.BooleanLit(false)), Ast.And, Ast.Identifier(x)), fuel) ==
      (st, Err(Raise(Errors.UndefinedVariable(x))))
  {
    var e := Ast.Binary(Ast.Literal(Ast.BooleanLit(false)), Ast.And, Ast.Identifier(x));
    assert Eval(lib, st, e.left, fuel) == (st, Ok(Boolean(false)));
    assert Eval(lib, st, e.right, fuel) == (st, Err(Raise(Errors.UndefinedVariable(x))));
    assert EvalBinary(lib, st, e, fuel) == (st, Err(Raise(Errors.UndefinedVariable(x))));
  }

  /** `show x + y` prints the exact decimal sum, promoting past i64 instead of wrapping. */
  lemma ShowSumPrintsExactly(lib: Library, st: RunState, x: int, y: int, fuel: nat)
    requires Ast.IsI64(x) && Ast.IsI64(y) && !BinaryPanics(Ast.Add, Integer(x), Integer(y))
    ensures ExecStmt(lib, st, Ast.Show(Ast.Binary(Lit(x), Ast.Add, Lit(y))), fuel) ==
      (st.(output := st.output + BigNum.IntToString(x + y) + "\n"), Ok(()))
  {
    var e := Ast.Binary(Lit(x), Ast.Add, Lit(y));
    var v := Vm.Checked(x + y);
    assert ApplyBinary(Integer(x), Ast.Add, Integer(y)) == Ok(v);
    assert Eval(lib, st, e, fuel) == (st, Ok(v)) by {
      assert Eval(lib, st, Lit(x), fuel) == (st, Ok(Integer(x)));
      assert Eval(lib, st, Lit(y), fuel) == (st, Ok(Integer(y)));
      assert EvalBinary(lib, st, e, fuel) == (st, Ok(v));
    }
    if !Ast.IsI64(x + y) {
      BigNum.DisplayIsDecimal(v.big);
    }
    assert ValueText(v) == BigNum.IntToString(x + y);
    hide Eval, ValueText;
  }

  // ---------------------------------------------------------------------
  // Calls
  // ---------------------------------------------------------------------

  function Required(name: string): Ast.Parameter { Ast.Parameter(name, None, false) }

  /** A required parameter with no argument left fails the call and the new scope is popped again. */
  lemma MissingParameterRestoresScope(lib: Library, st: RunState, name: string, body: seq<Ast.Statement>, fuel: nat)
    ensures CallWithParams(lib, st, [Required(name)], body, [], fuel) ==
      (st, Err(Raise(MissingParameter(name))))
  {
    var pushed := st.(env := Pushed(st.env));
    assert BindParams(lib, pushed, [Required(name)], [], [], fuel) == (PopState(pushed), Err(Raise(MissingParameter(name))));
    assert PopState(pushed) == st;
  }

  /** An argument that fails to evaluate fails the call and leaves the function's scope pushed. */
  lemma ArgumentErrorLeavesScope(lib: Library, st: RunState, name: string, x: string, body: seq<Ast.Statement>, fuel: nat)
    requires Lookup(st.env, x, Variables).None?
    ensures CallWithParams(lib, st, [Required(name)], body, [Ast.Identifier(x)], fuel) ==
      (st.(env := Pushed(st.env)), Err(Raise(Errors.UndefinedVariable(x))))
  {
    var pushed := st.(env := Pushed(st.env));
    assert Lookup(pushed.env, x, Variables).None?;
    assert Eval(lib, pushed, Ast.Identifier(x), fuel) == (pushed, Err(Raise(Errors.UndefinedVariable(x))));
    assert BindParams(lib, pushed, [Required(name)], [Ast.Identifier(x)], [], fuel) ==
      (pushed, Err(Raise(Errors.UndefinedVariable(x))));
  }

  /**
   * Arguments are evaluated inside the callee's scope after the earlier
   * parameters are bound: with parameters (a, b), the argument `a` for b
   * reads the callee's a, whatever the caller binds.
   */
  lemma LaterArgumentsSeeEarlierParameters(lib: Library, st: RunState, a: string, b: string, n: int, fuel: nat)
    requires a != b
    ensures var pushed := st.(env := Pushed(st.env));
      BindParams(lib, pushed, [Required(a), Required(b)], [Lit(n), Ast.Identifier(a)], [], fuel) ==
      (pushed.(env := pushed.env.(variables := map[a := Integer(n), b := Integer(n)])), Ok(()))
  {
    var pushed := st.(env := Pushed(st.env));
    var ps := [Required(a), Required(b)];
    var args := [Lit(n), Ast.Identifier(a)];
    var st1 := Define(pushed, a, Integer(n));
    var st2 := Define(st1, b, Integer(n));
    assert Eval(lib, pushed, Lit(n), fuel) == (pushed, Ok(Integer(n)));
    assert Lookup(st1.env, a, Variables) == Some(Integer(n));
    assert Eval(lib, st1, Ast.Identifier(a), fuel) == (st1, Ok(Integer(n)));
    assert BindParams(lib, st2, [], [], [], fuel) == (st2, Ok(()));
    assert BindParams(lib, st1, [Required(b)], [Ast.Identifier(a)], [], fuel) == (st2, Ok(())) by {
      assert [Required(b)][1..] == [] && [Ast.Identifier(a)][1..] == [];
    }
    assert BindParams(lib, pushed, ps, args, [], fuel) == (st2, Ok(())) by {
      assert ps[1..] == [Required(b)] && args[1..] == [Ast.Identifier(a)];
    }
    assert st2.env.variables == map[a := Integer(n), b := Integer(n)];
  }

  /** A variadic parameter after a required one receives the array of all remaining argument values, in order. */
  lemma VariadicCollectsRest(lib: Library, st: RunState, a: string, rest: string, x: int, y: int, z: int, fuel: nat)
    requires a != rest
    ensures var pushed := st.(env := Pushed(st.env));
      BindParams(lib, pushed, [Required(a), Ast.Parameter(rest, None, true)], [Lit(x), Lit(y), Lit(z)], [], fuel) ==
      (pushed.(env := pushed.env.(variables := map[a := Integer(x), rest := Array([Integer(y), Integer(z)])])), Ok(()))
  {
    var pushed := st.(env := Pushed(st.env));
    var ps := [Required(a), Ast.Parameter(rest, None, true)];
    var args := [Lit(x), Lit(y), Lit(z)];
    var all := [Integer(y), Integer(z)];
    var st1 := Define(pushed, a, Integer(x));
    var st2 := Define(st1, rest, Array(all));
    assert Eval(lib, pushed, Lit(x), fuel) == (pushed, Ok(Integer(x)));
    assert EvalEach(lib, st1, [Lit(z)], [Integer(y)], fuel) == (st1, Ok(all)) by {
      assert Eval(lib, st1, Lit(z), fuel) == (st1, Ok(Integer(z)));
      assert [Lit(z)][1..] == [] && [Integer(y)] + [Integer(z)] == all;
      assert EvalEach(lib, st1, [], all, fuel) == (st1, Ok(all));
    }
    assert EvalEach(lib, st1, [Lit(y), Lit(z)], [], fuel) == (st1, Ok(all)) by {
      assert Eval(lib, st1, Lit(y), fuel) == (st1, Ok(Integer(y)));
      assert [Lit(y), Lit(z)][1..] == [Lit(z)] && [] + [Integer(y)] == [Integer(y)];
    }
    assert BindParams(lib, st2, [], [], all, fuel) == (st2, Ok(()));
    assert BindParams(lib, st1, ps[1..], args[1..], [], fuel) == (st2, Ok(())) by {
      assert ps[1..][0].isVariadic && ps[1..][1..] == [];
      assert args[1..] == [Lit(y), Lit(z)];
    }
    assert BindParams(lib, pushed, ps, args, [], fuel) == (st2, Ok(()));
    assert st2.env.variables == map[a := Integer(x), rest := Array(all)];
  }

  /** A `return` in the body gives the call's value, and the caller's environment is back in place. */
  lemma ReturnGivesCallValue(lib: Library, st: RunState, l: Ast.Literal, fuel: nat)
    ensures CallWithParams(lib, st, [], [Ast.Return(Some(Ast.Literal(l)))], [], fuel) ==
      (st, Ok(BytecodeCompiling.LiteralValue(l)))
  {
    var pushed := st.(env := Pushed(st.env));
    var v := BytecodeCompiling.LiteralValue(l);
    var body := [Ast.Return(Some(Ast.Literal(l)))];
    assert BindParams(lib, pushed, [], [], [], fuel) == (pushed, Ok(()));
    assert ExecStmt(lib, pushed, body[0], fuel) == (pushed, Err(Raise(Errors.Return(v)))) by {
      assert Eval(lib, pushed, Ast.Literal(l), fuel) == (pushed, Ok(v));
    }
    assert ExecBlock(lib, pushed, body, fuel) == (pushed, Err(Raise(Errors.Return(v))));
    assert PopState(pushed) == st;
  }

  /**
   * A lambda's arguments are evaluated in its captured environment, not the
   * caller's: a name bound only at the call site is undefined there. The
   * caller's environment is restored afterwards.
   */
  lemma LambdaArgumentsUseClosure(lib: Library, st: RunState, f: string, p: string, y: string, closure: Env, fuel: nat)
    requires fuel > 0
    requires Lookup(st.env, f, Functions).None?
    requires Lookup(st.env, f, Variables) == Some(Values.Lambda([Required(p)], Ast.Identifier(p), closure))
    requires Lookup(closure, y, Variables).None?
    ensures CallFunction(lib, st, f, [Ast.Identifier(y)], fuel) == (st, Err(Raise(Errors.UndefinedVariable(y))))
  {
    var inner := st.(env := Pushed(closure));
    var fault := Raise(Errors.UndefinedVariable(y));
    assert Lookup(inner.env, y, Variables).None?;
    assert Eval(lib, inner, Ast.Identifier(y), fuel - 1) == (inner, Err(fault));
    assert BindParams(lib, inner, [Required(p)], [Ast.Identifier(y)], [], fuel - 1) == (inner, Err(fault));
    assert CallLambda(lib, st.(env := closure), [Required(p)], Ast.Identifier(p), [Ast.Identifier(y)], fuel - 1) == (inner, Err(fault));
    assert inner.(env := st.env) == st;
  }

  // ---------------------------------------------------------------------
  // Statements
  // ---------------------------------------------------------------------

  /** The lines `i`, `i + 1`, ..., `end`, each followed by a newline. */
  function Counting(i: int, end: int): string
    decreases end - i
  {
    if i > end then "" else BigNum.IntToString(i) + "\n" + Counting(i + 1, end)
  }

  /** One run of the body `show v` with v bound to i prints i's decimal text and a newline. */
  lemma ShowIndexOnce(lib: Library, st: RunState, v: string, i: int, fuel: nat)
    ensures var st0 := Define(st, v, Integer(i));
      ExecBlock(lib, st0, [Ast.Show(Ast.Identifier(v))], fuel) ==
      (st0.(output := st.output + (BigNum.IntToString(i) + "\n")), Ok(()))
  {
    var body := [Ast.Show(Ast.Identifier(v))];
    var st0 := Define(st, v, Integer(i));
    var st1 := st0.(output := st.output + (BigNum.IntToString(i) + "\n"));
    assert Eval(lib, st0, Ast.Identifier(v), fuel) == (st0, Ok(Integer(i)));
    assert st0.output + ValueText(Integer(i)) + "\n" == st1.output;
    assert ExecStmt(lib, st0, body[0], fuel) == (st1, Ok(()));
    assert ExecBlock(lib, st1, body[1..], fuel) == (st1, Ok(()));
  }

  /** One iteration of a `for` loop whose body completes: stop after `end`, else continue from i + 1 with one unit of fuel less. */
  lemma ForStep(lib: Library, st: RunState, v: string, i: int, end: int, body: seq<Ast.Statement>, fuel: nat, st1: RunState)
    requires i <= end && ExecBlock(lib, Define(st, v, Integer(i)), body, fuel) == (st1, Ok(()))
    ensures i == end ==> ExecFor(lib, st, v, i, end, body, fuel) == (st1, Ok(()))
    ensures i < end && fuel > 0 ==> ExecFor(lib, st, v, i, end, body, fuel) == ExecFor(lib, st1, v, i + 1, end, body, fuel - 1)
  {
  }

  lemma AppendAssociates(out: string, line: string, rest: string)
    ensures (out + line) + rest == out + (line + rest)
  {
  }

  lemma RebindKeepsOutput(st: RunState, v: string, a: Value, b: Value, out: string)
    ensures Define(Define(st, v, a).(output := out), v, b) == Define(st, v, b).(output := out)
  {
    assert st.env.variables[v := a][v := b] == st.env.variables[v := b];
  }

  /**
   * `for v from i to end do show v end` shows every integer from i to end
   * inclusive, in order, given one unit of fuel per iteration after the
   * first; afterwards v holds end (or is untouched when the range is empty).
   */
  lemma {:induction false} ForShowsEachIndex(lib: Library, st: RunState, v: string, i: int, end: int, fuel: nat)
    requires i <= end ==> fuel >= end - i
    ensures ExecFor(lib, st, v, i, end, [Ast.Show(Ast.Identifier(v))], fuel) ==
      (if i > end then st else Define(st, v, Integer(end)).(output := st.output + Counting(i, end)), Ok(()))
    decreases end - i
  {
    var body := [Ast.Show(Ast.Identifier(v))];
    if i > end {
      assert ExecFor(lib, st, v, i, end, body, fuel) == (st, Ok(()));
    } else {
      var line := BigNum.IntToString(i) + "\n";
      var st1 := Define(st, v, Integer(i)).(output := st.output + line);
      ShowIndexOnce(lib, st, v, i, fuel);
      ForStep(lib, st, v, i, end, body, fuel, st1);
      hide ExecFor, ExecBlock, BigNum.IntToString;
      if i == end {
        assert Counting(i, end) == line;
      } else {
        assert Counting(i, end) == line + Counting(i + 1, end);
        hide Counting;
        ForShowsEachIndex(lib, st1, v, i + 1, end, fuel - 1);
        RebindKeepsOutput(st, v, Integer(i), Integer(end), st1.output);
        AppendAssociates(st.output, line, Counting(i + 1, end));
        assert Define(st1, v, Integer(end)).(output := st1.output + Counting(i + 1, end)) ==
          Define(st, v, Integer(end)).(output := st.output + Counting(i, end));
      }
    }
  }

  /** A `for` loop whose start is not an Integer fails with a TypeError and runs nothing. */
  lemma ForBoundsMustBeIntegers(lib: Library, st: RunState, v: string, s: string, n: int, body: seq<Ast.Statement>, fuel: nat)
    ensures ExecStmt(lib, st, Ast.For(v, Ast.Literal(Ast.StringLit(s)), Lit(n), body), fuel) == (st, Err(Raise(FOR_BOUNDS)))
  {
    var f := Ast.For(v, Ast.Literal(Ast.StringLit(s)), Lit(n), body);
    assert Eval(lib, st, f.start, fuel) == (st, Ok(Str(s)));
    assert Eval(lib, st, f.end, fuel) == (st, Ok(Integer(n)));
    assert ExecForStatement(lib, st, f, fuel) == (st, Err(Raise(FOR_BOUNDS)));
  }

  /**
   * `try` stops at the first failing statement, binds the error's text to
   * the catch variable and runs the catch block: here the second try
   * statement never prints, and the catch block prints the message.
   */
  lemma TryStopsAtFirstError(lib: Library, st: RunState, x: string, e: string, fuel: nat)
    requires Lookup(st.env, x, Variables).None?
    ensures var message := Errors.ErrorText(Errors.UndefinedVariable(x));
      ExecStmt(lib, st, Ast.TryCatch([Ast.ExpressionStatement(Ast.Identifier(x)), Ast.Show(Lit(1))], e,
                                     [Ast.Show(Ast.Identifier(e))]), fuel) ==
      (Define(st, e, Str(message)).(output := st.output + message + "\n"), Ok(()))
  {
    var fault := Raise(Errors.UndefinedVariable(x));
    var message := Errors.ErrorText(Errors.UndefinedVariable(x));
    var tryBlock := [Ast.ExpressionStatement(Ast.Identifier(x)), Ast.Show(Lit(1))];
    assert ExecBlock(lib, st, tryBlock, fuel) == (st, Err(fault)) by {
      assert Eval(lib, st, Ast.Identifier(x), fuel) == (st, Err(fault));
      assert ExecStmt(lib, st, tryBlock[0], fuel) == (st, Err(fault));
    }
    var caught := Define(st, e, Str(message));
    var printed := caught.(output := st.output + message + "\n");
    var catchBlock := [Ast.Show(Ast.Identifier(e))];
    assert ExecBlock(lib, caught, catchBlock, fuel) == (printed, Ok(())) by {
      assert Eval(lib, caught, Ast.Identifier(e), fuel) == (caught, Ok(Str(message)));
      assert ExecStmt(lib, caught, catchBlock[0], fuel) == (printed, Ok(()));
      assert ExecBlock(lib, printed, catchBlock[1..], fuel) == (printed, Ok(()));
    }
  }

  /** `try` also catches the `Return` signal: a `return` inside it does not leave the function. */
  lemma TryCatchesReturn(lib: Library, st: RunState, l: Ast.Literal, e: string, fuel: nat)
    ensures ExecStmt(lib, st, Ast.TryCatch([Ast.Return(Some(Ast.Literal(l)))], e, []), fuel) ==
      (Define(st, e, Str(Errors.ErrorText(Errors.Return(BytecodeCompiling.LiteralValue(l))))), Ok(()))
  {
    var signal := (Raise(Errors.Return(BytecodeCompiling.LiteralValue(l))));
    var tryBlock := [Ast.Return(Some(Ast.Literal(l)))];
    var caught := Define(st, e, Str(Errors.ErrorText(signal.error)));
    assert ExecBlock(lib, st, tryBlock, fuel) == (st, Err(signal)) by {
      assert Eval(lib, st, Ast.Literal(l), fuel) == (st, Ok(BytecodeCompiling.LiteralValue(l)));
      assert ExecStmt(lib, st, tryBlock[0], fuel) == (st, Err(signal));
    }
    assert ExecBlock(lib, caught, [], fuel) == (caught, Ok(()));
    hide Eval, ExecBlock, Errors.ErrorText;
  }

  /**
   * A failing argument caught by `try` leaves the program running inside
   * the failed call's scope: the catch variable lands there.
   */
  lemma CaughtArgumentErrorLeaksScope(lib: Library, st: RunState, f: string, p: string, body: seq<Ast.Statement>,
                                      x: string, e: string, fuel: nat)
    requires fuel > 0
    requires Lookup(st.env, f, Functions) == Some(Function(f, [Required(p)], body)) && f !in lib.names
    requires Lookup(st.env, x, Variables).None?
    ensures var (st1, r) := ExecStmt(lib, st, Ast.TryCatch([Ast.ExpressionStatement(Ast.FunctionCall(f, [Ast.Identifier(x)]))], e, []), fuel);
      r == Ok(()) && st1.env.parent == Some(st.env)
  {
    var pushed := st.(env := Pushed(st.env));
    var fault := Raise(Errors.UndefinedVariable(x));
    var call := Ast.FunctionCall(f, [Ast.Identifier(x)]);
    var tryBlock := [Ast.ExpressionStatement(call)];
    ArgumentErrorLeavesScope(lib, st, p, x, body, fuel - 1);
    assert CallFunction(lib, st, f, [Ast.Identifier(x)], fuel) == (pushed, Err(fault));
    assert Eval(lib, st, call, fuel) == (pushed, Err(fault));
    assert ExecStmt(lib, st, tryBlock[0], fuel) == (pushed, Err(fault));
    assert ExecBlock(lib, st, tryBlock, fuel) == (pushed, Err(fault));
  }

  /** A top-level `return` ends the program normally; the statements after it never run. */
  lemma TopLevelReturnEndsProgram(lib: Library, st: RunState, rest: seq<Ast.Statement>, fuel: nat)
    ensures ExecProgram(lib, st, [Ast.Return(None)] + rest, fuel) == (st, Ok(()))
  {
    assert ([Ast.Return(None)] + rest)[0] == Ast.Return(None);
    assert ExecStmt(lib, st, Ast.Return(None), fuel) == (st, Err(Raise(Errors.Return(Null))));
  }
}
