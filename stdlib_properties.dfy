/**
 * What the standard library's builtins promise, stated over the model in
 * `StdLib`: the running extreme of `min`/`max`, the byte bounds of
 * `str_substring`, the defaults and clamping of `array_slice`, `array_push`
 * against `array_pop`, the conversions, and the string predicates against
 * a positional definition.
 */
module StdLibProperties {
  import opened Wrappers
  import opened Values
  import opened StdLib
  import BigNum
  import Bytecode
  import Utf8
  import Ast

  // ---------------------------------------------------------------------
  // min / max
  // ---------------------------------------------------------------------

  predicate AllNumbers(args: seq<Value>)
  {
    forall k :: 0 <= k < |args| ==> IsNumber(args[k])
  }

  /** No argument beats `args[j]`, and `args[j]` beats every argument before it. */
  predicate FirstBest(args: seq<Value>, j: nat, largest: bool)
    requires AllNumbers(args) && j < |args|
  {
    && (forall i :: 0 <= i < |args| ==> !Beats(args[i], args[j], largest))
    && (forall i :: 0 <= i < j ==> Beats(args[j], args[i], largest))
  }

  /**
   * The loop's induction: when `args[e]` is no worse than every argument
   * before `k` and strictly better than every argument before `e`, the fold
   * over the rest ends on the first argument that nothing beats.
   */
  lemma {:induction false} FoldFindsFirstExtreme(args: seq<Value>, largest: bool, e: nat, k: nat)
    requires AllNumbers(args)
    requires e < k <= |args|
    requires forall i :: 0 <= i < k ==> !Beats(args[i], args[e], largest)
    requires forall i :: 0 <= i < e ==> Beats(args[e], args[i], largest)
    ensures
      var r := Fold(args[e], args[k..], largest);
      && r.Ok?
      && exists j :: 0 <= j < |args| && r.value == args[j] && FirstBest(args, j, largest)
    decreases |args| - k
  {
    if k == |args| {
      assert Fold(args[e], args[k..], largest) == Ok(args[e]);
    } else {
      assert args[k..][0] == args[k] && args[k..][1..] == args[k + 1..];
      if Beats(args[k], args[e], largest) {
        assert Fold(args[e], args[k..], largest) == Fold(args[k], args[k + 1..], largest);
        FoldFindsFirstExtreme(args, largest, k, k + 1);
      } else {
        assert Fold(args[e], args[k..], largest) == Fold(args[e], args[k + 1..], largest);
        FoldFindsFirstExtreme(args, largest, e, k + 1);
      }
    }
  }

  /**
   * `min` (`max`) of numbers returns one of its arguments that no argument
   * is smaller (larger) than, and it is the first such: every earlier
   * argument is strictly larger (smaller).
   */
  lemma ExtremeIsFirstBest(args: seq<Value>, largest: bool)
    requires |args| > 0 && AllNumbers(args)
    ensures
      var r := Extreme(args, largest);
      && r.Ok?
      && exists j :: 0 <= j < |args| && r.value == args[j] && FirstBest(args, j, largest)
  {
    FoldFindsFirstExtreme(args, largest, 0, 1);
  }

  /**
   * A single argument comes back as it is, whatever its type; no argument
   * is an error; a pair that is not two numbers is a TypeError.
   */
  lemma ExtremeEdgeCases(largest: bool, a: Value, b: Value)
    ensures Extreme([], largest).Err?
    ensures Extreme([a], largest) == Ok(a)
    ensures !IsNumber(a) || !IsNumber(b) ==> Extreme([a, b], largest).Err? && Extreme([a, b], largest).error.TypeError?
  {
    assert [a][1..] == [];
    assert [a, b][1..] == [b] && [b][1..] == [];
  }

  // ---------------------------------------------------------------------
  // str_substring
  // ---------------------------------------------------------------------

  lemma AsciiSlice(s: string, i: nat, j: nat)
    requires Utf8.IsAscii(s) && i <= j <= |s|
    ensures |Utf8.Encode(s)| == |s|
    ensures Utf8.Encode(s)[i..j] == Utf8.Encode(s[i..j])
  {
    AsciiLength(s);
    assert |Utf8.Encode(s[..i])| == i by {
      assert Utf8.IsAscii(s[..i]);
      AsciiLength(s[..i]);
    }
    assert |Utf8.Encode(s[i..j])| == j - i by {
      assert Utf8.IsAscii(s[i..j]);
      AsciiLength(s[i..j]);
    }
    assert Utf8.Encode(s) == Utf8.Encode(s[..i]) + Utf8.Encode(s[i..]) by {
      assert s[..i] + s[i..] == s;
      Utf8.EncodeAppend(s[..i], s[i..]);
    }
    assert Utf8.Encode(s[i..]) == Utf8.Encode(s[i..j]) + Utf8.Encode(s[j..]) by {
      assert s[i..j] + s[j..] == s[i..];
      Utf8.EncodeAppend(s[i..j], s[j..]);
    }
    MiddleOfThree(Utf8.Encode(s[..i]), Utf8.Encode(s[i..j]), Utf8.Encode(s[j..]));
  }

  lemma MiddleOfThree<T>(front: seq<T>, middle: seq<T>, back: seq<T>)
    ensures (front + (middle + back))[|front|..|front| + |middle|] == middle
  {
  }

  lemma AsciiLength(s: string)
    requires Utf8.IsAscii(s)
    ensures |Utf8.Encode(s)| == |s|
  {
    Utf8.EncodeAscii(s);
  }

  /** `str_substring` panics only where `SubstringPanics` says, and otherwise returns `Substring`. */
  lemma SubstringDispatch(lib: StandardLibrary, args: seq<Value>)
    requires !SubstringPanics(args)
    ensures !Panics(StrSubstring, args) && Apply(lib, StrSubstring, args) == Substring(args)
  {
  }

  /** On ASCII text byte offsets are character offsets: `str_substring(s, i, j)` is `s[i..j]`. */
  lemma SubstringOfAscii(lib: StandardLibrary, s: string, i: nat, j: nat)
    requires Utf8.IsAscii(s) && i <= j <= |s| <= BigNum.I64_MAX
    ensures !Panics(StrSubstring, [Str(s), Integer(i), Integer(j)])
    ensures Apply(lib, StrSubstring, [Str(s), Integer(i), Integer(j)]) == Ok(Str(s[i..j]))
  {
    var args := [Str(s), Integer(i), Integer(j)];
    AsciiSlice(s, i, j);
    Utf8.DecodeEncode(s[i..j]);
    WrapsPastLength(i, |s|);
    WrapsPastLength(j, |s|);
    assert SubstringBounds(args) == (i, j);
    assert !SubstringPanics(args);
    SubstringDispatch(lib, args);
    hide Utf8.Encode, Utf8.Decode, Apply, Panics;
    assert Substring(args) == Ok(Str(s[i..j]));
  }

  /** Without an end, `str_substring(s, i)` on ASCII text is `s[i..]`. */
  lemma SubstringToEnd(lib: StandardLibrary, s: string, i: nat)
    requires Utf8.IsAscii(s) && i <= |s| <= BigNum.I64_MAX
    ensures !Panics(StrSubstring, [Str(s), Integer(i)])
    ensures Apply(lib, StrSubstring, [Str(s), Integer(i)]) == Ok(Str(s[i..]))
  {
    var args := [Str(s), Integer(i)];
    AsciiSlice(s, i, |s|);
    assert s[i..|s|] == s[i..];
    Utf8.DecodeEncode(s[i..]);
    WrapsPastLength(i, |s|);
    assert SubstringBounds(args) == (i, |s|);
    assert !SubstringPanics(args);
    SubstringDispatch(lib, args);
    hide Utf8.Encode, Utf8.Decode, Apply, Panics;
    assert Substring(args) == Ok(Str(s[i..]));
  }

  /**
   * With i64 indices on a string shorter than `i64::MAX` bytes, the call
   * succeeds exactly when 0 <= start <= end <= byte length (a negative
   * index wraps to a huge `usize`); otherwise it reports invalid indices.
   */
  lemma SubstringIndexRule(lib: StandardLibrary, s: string, i: int, j: int)
    requires Ast.IsI64(i) && Ast.IsI64(j) && |Utf8.Encode(s)| <= BigNum.I64_MAX
    requires !Panics(StrSubstring, [Str(s), Integer(i), Integer(j)])
    ensures
      var r := Apply(lib, StrSubstring, [Str(s), Integer(i), Integer(j)]);
      && (r.Ok? <==> 0 <= i <= j <= |Utf8.Encode(s)|)
      && (r.Err? ==> r == RuntimeFail("str_substring: invalid indices"))
  {
    WrapsPastLength(i, |Utf8.Encode(s)|);
    WrapsPastLength(j, |Utf8.Encode(s)|);
  }

  /** `n as usize` for a negative i64 `n` lands beyond any length up to `i64::MAX`. */
  lemma WrapsPastLength(n: int, len: nat)
    requires Ast.IsI64(n) && len <= BigNum.I64_MAX
    ensures n >= 0 ==> Bytecode.TwosComplement(n) == n
    ensures n < 0 ==> Bytecode.TwosComplement(n) > len
  {
    if n < 0 {
      assert n % Bytecode.U64 == n + Bytecode.U64;
    } else {
      assert n % Bytecode.U64 == n;
    }
  }

  // ---------------------------------------------------------------------
  // Arrays
  // ---------------------------------------------------------------------

  /** `array_push` returns a new array with the value at the end, and `array_pop` of it gives that value back; popping `[]` gives null. */
  lemma PushThenPop(lib: StandardLibrary, items: seq<Value>, v: Value)
    ensures Apply(lib, ArrayPush, [Array(items), v]) == Ok(Array(items + [v]))
    ensures Apply(lib, ArrayPop, [Array(items + [v])]) == Ok(v)
    ensures Apply(lib, ArrayPop, [Array([])]) == Ok(Null)
  {
  }

  /**
   * `array_slice(a, i)` is `a[i..]`; `array_slice(a, i, j)` clamps `j` to
   * the length; a start past the end, or past `j`, is an error; and since a
   * negative end wraps to a huge `usize`, it also means "to the end".
   */
  lemma SliceRules(items: seq<Value>, i: int, j: int)
    requires Ast.IsI64(i) && Ast.IsI64(j) && |items| <= BigNum.I64_MAX
    ensures 0 <= i <= |items| ==> ArraySliceOf([Array(items), Integer(i)]) == Ok(Array(items[i..]))
    ensures 0 <= i <= j ==>
      ArraySliceOf([Array(items), Integer(i), Integer(j)]) ==
        if i <= |items| then Ok(Array(items[i..if j < |items| then j else |items|])) else RuntimeFail("array_slice: invalid indices")
    ensures 0 <= i <= |items| && j < 0 ==> ArraySliceOf([Array(items), Integer(i), Integer(j)]) == Ok(Array(items[i..]))
    ensures i < 0 ==> ArraySliceOf([Array(items), Integer(i)]) == RuntimeFail("array_slice: invalid indices")
  {
    WrapsPastLength(i, |items|);
    WrapsPastLength(j, |items|);
    if 0 <= i <= |items| {
      var whole := SliceOf(items, i, |items|);
      assert whole.Ok? && whole.value == items[i..];
      if j < 0 {
        var clamped := SliceOf(items, i, Bytecode.TwosComplement(j));
        assert clamped.Ok? && clamped.value == items[i..];
      }
    }
    if 0 <= i <= j && i <= |items| {
      var stop := if j < |items| then j else |items|;
      var part := SliceOf(items, i, j);
      assert part.Ok? && part.value == items[i..stop];
    }
  }

  // ---------------------------------------------------------------------
  // Objects
  // ---------------------------------------------------------------------

  /** `object_keys` lists every key of the object once, as strings; `object_values` has one value per property. */
  lemma ObjectKeysAndValues(lib: StandardLibrary, props: map<string, Value>)
    ensures
      var keys := Apply(lib, ObjectKeys, [Object(props)]);
      && keys.Ok? && keys.value.Array? && |keys.value.elements| == |props|
      && (forall key :: key in props ==> Str(key) in keys.value.elements)
    ensures
      var values := Apply(lib, ObjectValues, [Object(props)]);
      && values.Ok? && values.value.Array? && |values.value.elements| == |props|
      && (forall k :: 0 <= k < |values.value.elements| ==> exists key :: key in props && values.value.elements[k] == props[key])
  {
  }

  // ---------------------------------------------------------------------
  // Conversions
  // ---------------------------------------------------------------------

  /** `to_int` reads back what `to_string` writes for every i64. */
  lemma ToIntReadsToString(lib: StandardLibrary, i: int)
    requires Ast.IsI64(i)
    ensures Apply(lib, ToInt, [Str(ValueText(Integer(i)))]) == Ok(Integer(i))
  {
    var text := ValueText(Integer(i));
    assert text == BigNum.IntToString(i);
    Ast.ParseI64RoundTrip(i);
    hide ValueText, Ast.ParseI64;
    assert Apply(lib, ToInt, [Str(text)]) == Ok(Integer(i));
  }

  /** `to_int` of a Boolean is 1 or 0, and `to_bool` of that gives the Boolean back; `to_int` of text without a digit fails. */
  lemma BooleanConversions(lib: StandardLibrary, b: bool)
    ensures Apply(lib, ToInt, [Boolean(b)]) == Ok(Integer(if b then 1 else 0))
    ensures Apply(lib, ToBool, [Integer(if b then 1 else 0)]) == Ok(Boolean(b))
    ensures Apply(lib, ToInt, [Str("")]).Err? && Apply(lib, ToInt, [Str("-")]).Err? && Apply(lib, ToInt, [Str("+")]).Err?
  {
    assert "-"[1..] == "" && "+"[1..] == "";
  }

  /** `abs` of an i64 other than `i64::MIN` is its magnitude, again an i64. */
  lemma AbsRule(lib: StandardLibrary, i: int)
    requires Ast.IsI64(i) && i != BigNum.I64_MIN
    ensures !Panics(Abs, [Integer(i)])
    ensures
      var r := Apply(lib, Abs, [Integer(i)]);
      && r.Ok? && r.value.Integer? && r.value.i >= 0
      && (r.value.i == i || r.value.i == -i) && Ast.IsI64(r.value.i)
  {
  }

  /** `pow` with integer arguments multiplies the base `exp as u32` times: the exponent is taken modulo 2^32. */
  lemma PowRule(lib: StandardLibrary, base: int, exp: nat)
    requires exp < 0x1_0000_0000 && Ast.IsI64(Power(base, exp))
    ensures !Panics(Pow, [Integer(base), Integer(exp)])
    ensures Apply(lib, Pow, [Integer(base), Integer(exp)]) == Ok(Integer(Power(base, exp)))
    ensures !Panics(Pow, [Integer(base), Integer(exp + 0x1_0000_0000)])
    ensures Apply(lib, Pow, [Integer(base), Integer(exp + 0x1_0000_0000)]) == Apply(lib, Pow, [Integer(base), Integer(exp)])
  {
    assert (exp + 0x1_0000_0000) % 0x1_0000_0000 == exp;
  }

  // ---------------------------------------------------------------------
  // String predicates
  // ---------------------------------------------------------------------

  /** `str_contains` against a positional definition: the needle starts at some index of the text. */
  lemma {:induction false} ContainsAt(s: string, needle: string)
    ensures Contains(s, needle) <==> exists i :: 0 <= i <= |s| && needle <= s[i..]
    decreases |s|
  {
    if |s| > 0 {
      ContainsAt(s[1..], needle);
      if Contains(s, needle) {
        if needle <= s {
          assert s[0..] == s;
        } else {
          var i :| 0 <= i <= |s[1..]| && needle <= s[1..][i..];
          assert s[1..][i..] == s[i + 1..];
        }
      }
      if exists i :: 0 <= i <= |s| && needle <= s[i..] {
        var i :| 0 <= i <= |s| && needle <= s[i..];
        if i == 0 {
          assert s[0..] == s;
        } else {
          assert s[1..][i - 1..] == s[i..];
          assert Contains(s[1..], needle);
        }
      }
    } else {
      assert forall i :: 0 <= i <= |s| ==> s[i..] == s;
    }
  }

  /** A prefix or a suffix of the text is contained in it. */
  lemma PrefixAndSuffixAreContained(s: string, t: string)
    ensures t <= s ==> Contains(s, t)
    ensures EndsWith(s, t) ==> Contains(s, t)
  {
    ContainsAt(s, t);
    if EndsWith(s, t) {
      assert t <= s[|s| - |t|..];
    }
  }

  // ---------------------------------------------------------------------
  // The registry
  // ---------------------------------------------------------------------

  /** The legacy builtins that are declared but not written always fail with "not yet implemented", whatever the registry holds. */
  lemma NotYetImplemented(lib: StandardLibrary, name: string, args: seq<Value>)
    requires name in NotWritten()
    ensures HasFunction(lib, name)
    ensures CallFunction(lib, name, args) == RuntimeFail(name + " not yet implemented")
  {
    UnimplementedEntry(name);
    hide NotWritten;
    UnimplementedCall(lib, name, args);
  }

  lemma UnimplementedCall(lib: StandardLibrary, name: string, args: seq<Value>)
    requires name in Legacy() && Legacy()[name] == Unimplemented(name)
    ensures CallFunction(lib, name, args) == RuntimeFail(name + " not yet implemented")
  {
    hide Legacy;
    var entry := Legacy()[name];
    assert !Panics(entry, args);
    var r := Apply(lib, entry, args);
    assert r == RuntimeFail(name + " not yet implemented");
    hide Apply, Panics, RuntimeFail;
    assert CallFunction(lib, name, args) == r;
  }

  lemma UnimplementedEntry(name: string)
    requires name in NotWritten()
    ensures name in Legacy() && Legacy()[name] == Unimplemented(name)
  {
    var unwritten := map n | n in NotWritten() :: Unimplemented(n);
    assert Legacy() == WRITTEN + (map n | n in HOSTED :: Host(n)) + unwritten;
    assert name in unwritten;
  }
}
