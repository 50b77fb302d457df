/**
 * The standard library the interpreter falls back to: a legacy table of
 * builtins consulted first, then the extended registry, else "Unknown
 * function". Builtins that touch the console, files, the clock, randomness,
 * Unicode case mapping or floating point are handed to a `host` function.
 */
module StdLib {
  import opened Wrappers
  import opened Values
  import BigNum
  import Errors
  import Strings
  import Utf8
  import Vm
  import Bytecode
  import Ast

  type FlowError = Errors.FlowError

  /** The legacy builtins, one constructor per behaviour; `Unimplemented` ones always fail. */
  datatype Builtin =
    | Assert | Panic
    | StrLen | StrJoin | StrContains | StrStartsWith | StrEndsWith | StrSubstring
    | ArrayLen | ArrayPush | ArrayPop | ArraySlice
    | ObjectKeys | ObjectValues
    | Abs | Min | Max | Floor | Ceil | Round | Sqrt | Pow
    | TypeOf | ToString | ToInt | ToFloat | ToBool
    | Unimplemented(name: string)
    | Host(name: string)

  /** The extended registry: the names it has and how it answers a call. */
  datatype Registry = Registry(names: set<string>, call: (string, seq<Value>) -> Result<Value, FlowError>)

  /**
   * `StandardLibrary`: the extended registry, and the host that answers the
   * builtins whose effect is outside the model.
   */
  datatype StandardLibrary = StandardLibrary(extended: Registry, host: (string, seq<Value>) -> Result<Value, FlowError>)

  /** The legacy builtins whose work is done outside the model: console, files, clock, randomness, case mapping, splitting, replacing. */
  const HOSTED: set<string> := {
    "print", "println", "input", "str_upper", "str_lower", "str_trim", "str_split", "str_replace",
    "random", "read_file", "write_file", "file_exists", "now", "sleep"
  }

  /** The legacy builtins that are registered but whose body only reports "not yet implemented". */
  function NotWritten(): set<string>
  {
    {
    "array_concat", "array_reverse", "array_sort", "array_map", "array_filter", "array_reduce",
      "array_find", "array_contains", "object_entries", "object_has_key", "object_merge"
    }
  }

  /** The legacy builtins written out in the model. */
  const WRITTEN: map<string, Builtin> := map[
    "assert" := Assert, "panic" := Panic,
    "str_len" := StrLen, "str_join" := StrJoin,
    "str_contains" := StrContains, "str_starts_with" := StrStartsWith, "str_ends_with" := StrEndsWith,
    "str_substring" := StrSubstring,
    "array_len" := ArrayLen, "array_push" := ArrayPush, "array_pop" := ArrayPop, "array_slice" := ArraySlice,
    "object_keys" := ObjectKeys, "object_values" := ObjectValues,
    "abs" := Abs, "min" := Min, "max" := Max, "floor" := Floor, "ceil" := Ceil, "round" := Round,
    "sqrt" := Sqrt, "pow" := Pow,
    "type_of" := TypeOf, "to_string" := ToString, "str" := ToString, "to_int" := ToInt,
    "to_float" := ToFloat, "to_bool" := ToBool
  ]

  /** The legacy table as `StandardLibrary::new` fills it (`str` is an alias of `to_string`). */
  function Legacy(): map<string, Builtin>
  {
    WRITTEN + (map name | name in HOSTED :: Host(name)) + (map name | name in NotWritten() :: Unimplemented(name))
  }

  function RuntimeFail(message: string): Result<Value, FlowError>
  {
    Err(Errors.RuntimeErrorNoLine(message))
  }

  function TypeFail(message: string): Result<Value, FlowError>
  {
    Err(Errors.TypeError(message))
  }

  // ---------------------------------------------------------------------
  // The registry
  // ---------------------------------------------------------------------

  /** `has_function`: in the legacy table or in the extended registry. */
  predicate HasFunction(lib: StandardLibrary, name: string)
  {
    name in Legacy() || name in lib.extended.names
  }

  /**
   * `call_function`: the legacy table first; then the extended registry,
   * whose errors come back as runtime errors carrying their text; else
   * "Unknown function".
   */
  function CallFunction(lib: StandardLibrary, name: string, args: seq<Value>): (r: Result<Value, FlowError>)
    requires name in Legacy() ==> !Panics(Legacy()[name], args)
    ensures name in Legacy() ==> r == Apply(lib, Legacy()[name], args)
    ensures name !in Legacy() && name in lib.extended.names ==>
      var answer := lib.extended.call(name, args);
      r == if answer.Ok? then answer else RuntimeFail(Errors.ErrorText(answer.error))
    ensures !HasFunction(lib, name) ==> r == RuntimeFail("Unknown function: " + name)
  {
    if name in Legacy() then Apply(lib, Legacy()[name], args)
    else if name in lib.extended.names then
      match lib.extended.call(name, args)
      case Ok(v) => Ok(v)
      case Err(e) => RuntimeFail(Errors.ErrorText(e))
    else RuntimeFail("Unknown function: " + name)
  }

  /** `get_all_function_names`: both registries' names, sorted, each once. */
  function AllFunctionNames(lib: StandardLibrary): (r: seq<string>)
    ensures Strings.StrictlySorted(r)
    ensures forall name :: name in r <==> HasFunction(lib, name)
  {
    Strings.SortedStrings(Legacy().Keys + lib.extended.names)
  }

  // ---------------------------------------------------------------------
  // The builtins
  // ---------------------------------------------------------------------

  /** The argument lists on which a builtin overflows and panics: `abs(i64::MIN)` and an i64 overflow in `pow`. */
  predicate Panics(b: Builtin, args: seq<Value>)
  {
    match b
    case Abs => |args| == 1 && args[0] == Integer(BigNum.I64_MIN)
    case Pow => |args| == 2 && args[0].Integer? && args[1].Integer? && args[1].i >= 0 &&
                !Ast.IsI64(Power(args[0].i, args[1].i % 0x1_0000_0000))
    case StrSubstring => SubstringPanics(args)
    case _ => false
  }

  function Power(base: int, exp: nat): int
  {
    if exp == 0 then 1 else base * Power(base, exp - 1)
  }

  function Apply(lib: StandardLibrary, b: Builtin, args: seq<Value>): Result<Value, FlowError>
    requires !Panics(b, args)
  {
    match b
    case Assert =>
      if |args| == 0 then RuntimeFail("assert requires at least one argument")
      else if !IsTruthy(args[0]) then RuntimeFail(if |args| > 1 then ValueText(args[1]) else "Assertion failed")
      else Ok(Null)
    case Panic => RuntimeFail(if |args| == 0 then "panic called" else ValueText(args[0]))
    case StrLen =>
      if |args| != 1 then RuntimeFail("str_len requires exactly one argument")
      else if args[0].Str? then Ok(Integer(Vm.UsizeAsI64(|Utf8.Encode(args[0].s)|)))
      else TypeFail("str_len requires a string argument")
    case StrJoin =>
      if |args| != 2 then RuntimeFail("str_join requires exactly two arguments")
      else if args[0].Array? && args[1].Str? then Ok(Str(Join(args[0].elements, args[1].s)))
      else TypeFail("str_join requires an array and a string")
    case StrContains => StringTest(args, "str_contains", Contains)
    case StrStartsWith => StringTest(args, "str_starts_with", (s, p) => p <= s)
    case StrEndsWith => StringTest(args, "str_ends_with", EndsWith)
    case StrSubstring => Substring(args)
    case ArrayLen =>
      if |args| != 1 then RuntimeFail("array_len requires exactly one argument")
      else if args[0].Array? then Ok(Integer(Vm.UsizeAsI64(|args[0].elements|)))
      else TypeFail("array_len requires an array argument")
    case ArrayPush =>
      if |args| != 2 then RuntimeFail("array_push requires exactly two arguments")
      else if args[0].Array? then Ok(Array(args[0].elements + [args[1]]))
      else TypeFail("array_push requires an array as first argument")
    case ArrayPop =>
      if |args| != 1 then RuntimeFail("array_pop requires exactly one argument")
      else if args[0].Array? then
        var items := args[0].elements;
        Ok(if |items| == 0 then Null else items[|items| - 1])
      else TypeFail("array_pop requires an array argument")
    case ArraySlice => ArraySliceOf(args)
    case ObjectKeys =>
      if |args| != 1 then RuntimeFail("object_keys requires exactly one argument")
      else if args[0].Object? then Ok(Array(KeyValues(args[0].properties)))
      else TypeFail("object_keys requires an object argument")
    case ObjectValues =>
      if |args| != 1 then RuntimeFail("object_values requires exactly one argument")
      else if args[0].Object? then Ok(Array(PropertyValues(args[0].properties)))
      else TypeFail("object_values requires an object argument")
    case Abs =>
      if |args| != 1 then RuntimeFail("abs requires exactly one argument")
      else
        (match args[0]
         case Integer(i) => Ok(Integer(if i < 0 then -i else i))
         case Float(f) => Ok(Float(if f < 0.0 then -f else f))
         case _ => TypeFail("abs requires a numeric argument"))
    case Min => Extreme(args, false)
    case Max => Extreme(args, true)
    case Floor => Rounding(lib, args, "floor")
    case Ceil => Rounding(lib, args, "ceil")
    case Round => Rounding(lib, args, "round")
    case Sqrt =>
      if |args| != 1 then RuntimeFail("sqrt requires exactly one argument")
      else
        (match args[0]
         case Integer(i) => if i < 0 then RuntimeFail("sqrt of negative number") else lib.host("sqrt", args)
         case Float(f) => if f < 0.0 then RuntimeFail("sqrt of negative number") else lib.host("sqrt", args)
         case _ => TypeFail("sqrt requires a numeric argument"))
    case Pow =>
      if |args| != 2 then RuntimeFail("pow requires exactly two arguments")
      else if args[0].Integer? && args[1].Integer? && args[1].i >= 0 then
        Ok(Integer(Power(args[0].i, args[1].i % 0x1_0000_0000)))
      else if (args[0].Integer? || args[0].Float?) && (args[1].Integer? || args[1].Float?) then lib.host("pow", args)
      else TypeFail("pow requires numeric arguments")
    case TypeOf =>
      if |args| != 1 then RuntimeFail("type_of requires exactly one argument")
      else Ok(Str(TypeName(args[0])))
    case ToString =>
      if |args| != 1 then RuntimeFail("to_string requires exactly one argument")
      else Ok(Str(ValueText(args[0])))
    case ToInt =>
      if |args| != 1 then RuntimeFail("to_int requires exactly one argument")
      else
        (match args[0]
         case Integer(i) => Ok(Integer(i))
         case Float(_) => lib.host("to_int", args)
         case Str(s) =>
           (match Ast.ParseI64(s)
            case Some(i) => Ok(Integer(i))
            case None => RuntimeFail("Cannot convert '" + s + "' to integer"))
         case Boolean(b) => Ok(Integer(if b then 1 else 0))
         case _ => TypeFail("Cannot convert to integer"))
    case ToFloat =>
      if |args| != 1 then RuntimeFail("to_float requires exactly one argument")
      else
        (match args[0]
         case Float(f) => Ok(Float(f))
         case Integer(_) => lib.host("to_float", args)
         case Str(_) => lib.host("to_float", args)
         case _ => TypeFail("Cannot convert to float"))
    case ToBool =>
      if |args| != 1 then RuntimeFail("to_bool requires exactly one argument")
      else Ok(Boolean(IsTruthy(args[0])))
    case Unimplemented(name) => RuntimeFail(name + " not yet implemented")
    case Host(name) => lib.host(name, args)
  }

  // --- strings ---

  /** `strs.join(separator)` over each element's text (a String's own text, anything else its Display text). */
  function Join(items: seq<Value>, separator: string): string
  {
    if |items| == 0 then ""
    else if |items| == 1 then ElementText(items[0])
    else ElementText(items[0]) + separator + Join(items[1..], separator)
  }

  function ElementText(v: Value): string
  {
    if v.Str? then v.s else ValueText(v)
  }

  /** `s.contains(needle)`: the needle occurs at some position. */
  predicate Contains(s: string, needle: string)
  {
    needle <= s || (|s| > 0 && Contains(s[1..], needle))
  }

  predicate EndsWith(s: string, suffix: string)
  {
    |suffix| <= |s| && s[|s| - |suffix|..] == suffix
  }

  /** The two-String predicates: arity first, then the argument types. */
  function StringTest(args: seq<Value>, name: string, test: (string, string) -> bool): Result<Value, FlowError>
  {
    if |args| != 2 then RuntimeFail(name + " requires exactly two arguments")
    else if args[0].Str? && args[1].Str? then Ok(Boolean(test(args[0].s, args[1].s)))
    else TypeFail(name + " requires two string arguments")
  }

  /** The indices `str_substring` takes (`as usize`), the end defaulting to the byte length. */
  function SubstringBounds(args: seq<Value>): (nat, nat)
    requires 2 <= |args| <= 3 && args[0].Str? && args[1].Integer? && (|args| == 3 ==> args[2].Integer?)
  {
    (Bytecode.TwosComplement(args[1].i), if |args| == 3 then Bytecode.TwosComplement(args[2].i) else |Utf8.Encode(args[0].s)|)
  }

  /** Slicing a `&str` panics when a bound is not on a character boundary. */
  predicate SubstringPanics(args: seq<Value>)
  {
    && 2 <= |args| <= 3 && args[0].Str? && args[1].Integer? && (|args| == 3 ==> args[2].Integer?)
    && var bytes := Utf8.Encode(args[0].s);
       var (start, end) := SubstringBounds(args);
       start <= end <= |bytes| && Utf8.Decode(bytes[start..end]).None?
  }

  /** `str_substring(s, start[, end])` on byte offsets: an error unless start <= end <= length. */
  function Substring(args: seq<Value>): Result<Value, FlowError>
    requires !SubstringPanics(args)
  {
    if |args| < 2 || |args| > 3 then RuntimeFail("str_substring requires 2 or 3 arguments")
    else if !args[0].Str? then TypeFail("str_substring requires a string as first argument")
    else if !args[1].Integer? then TypeFail("str_substring start index must be an integer")
    else if |args| == 3 && !args[2].Integer? then TypeFail("str_substring end index must be an integer")
    else
      var bytes := Utf8.Encode(args[0].s);
      var (start, end) := SubstringBounds(args);
      if start > |bytes| || end > |bytes| || start > end then RuntimeFail("str_substring: invalid indices")
      else Ok(Str(Utf8.Decode(bytes[start..end]).value))
  }

  // --- arrays ---

  /** `array_slice(a, start[, end])`: `FlowArray::slice` with the end defaulting to the length; its errors become "invalid indices". */
  function ArraySliceOf(args: seq<Value>): Result<Value, FlowError>
  {
    if |args| < 2 || |args| > 3 then RuntimeFail("array_slice requires 2 or 3 arguments")
    else if !args[0].Array? then TypeFail("array_slice requires an array as first argument")
    else if !args[1].Integer? then TypeFail("array_slice start index must be an integer")
    else if |args| == 3 && !args[2].Integer? then TypeFail("array_slice end index must be an integer")
    else
      var items := args[0].elements;
      var end := if |args| == 3 then Bytecode.TwosComplement(args[2].i) else |items|;
      match SliceOf(items, Bytecode.TwosComplement(args[1].i), end)
      case Ok(s) => Ok(Array(s))
      case Err(_) => RuntimeFail("array_slice: invalid indices")
  }

  // --- numbers ---

  predicate IsNumber(v: Value) { v.Integer? || v.Float? }

  function AsReal(v: Value): real
    requires IsNumber(v)
  {
    if v.Integer? then v.i as real else v.f
  }

  /**
   * One step of `min` (or `max`): the candidate replaces the current
   * extreme only when strictly smaller (larger); a pair that is not two
   * numbers is a TypeError.
   */
  function Pick(current: Value, candidate: Value, largest: bool): Result<Value, FlowError>
  {
    if !IsNumber(current) || !IsNumber(candidate) then
      TypeFail(if largest then "max requires numeric arguments" else "min requires numeric arguments")
    else if Beats(candidate, current, largest) then Ok(candidate)
    else Ok(current)
  }

  /** `a` is strictly smaller (for `min`) or strictly larger (for `max`) than `b`. */
  predicate Beats(a: Value, b: Value, largest: bool)
    requires IsNumber(a) && IsNumber(b)
  {
    if largest then AsReal(a) > AsReal(b) else AsReal(a) < AsReal(b)
  }

  /** The running extreme after the arguments in `rest`, starting from `current`. */
  function Fold(current: Value, rest: seq<Value>, largest: bool): Result<Value, FlowError>
    decreases |rest|
  {
    if |rest| == 0 then Ok(current)
    else
      match Pick(current, rest[0], largest)
      case Err(e) => Err(e)
      case Ok(next) => Fold(next, rest[1..], largest)
  }

  /** `min` / `max`: at least one argument, then the first argument as the start of the running extreme. */
  function Extreme(args: seq<Value>, largest: bool): Result<Value, FlowError>
  {
    if |args| == 0 then RuntimeFail(if largest then "max requires at least one argument" else "min requires at least one argument")
    else Fold(args[0], args[1..], largest)
  }

  /** The loop of `stdlib_min` / `stdlib_max`, running a pointer to the extreme so far over the arguments. */
  method FindExtreme(args: seq<Value>, largest: bool) returns (r: Result<Value, FlowError>)
    ensures r == Extreme(args, largest)
  {
    if |args| == 0 {
      return RuntimeFail(if largest then "max requires at least one argument" else "min requires at least one argument");
    }
    var extremeIndex: nat := 0;
    var k := 1;
    while k < |args|
      invariant 1 <= k <= |args| && extremeIndex < k
      invariant Extreme(args, largest) == Fold(args[extremeIndex], args[k..], largest)
    {
      var current := args[extremeIndex];
      var candidate := args[k];
      assert args[k..][0] == candidate && args[k..][1..] == args[k + 1..];
      if !IsNumber(current) || !IsNumber(candidate) {
        return TypeFail(if largest then "max requires numeric arguments" else "min requires numeric arguments");
      }
      if Beats(candidate, current, largest) {
        extremeIndex := k;
      }
      k := k + 1;
    }
    r := Ok(args[extremeIndex]);
  }

  /** `floor` / `ceil` / `round`: an Integer is returned unchanged; a Float is rounded by the host. */
  function Rounding(lib: StandardLibrary, args: seq<Value>, name: string): Result<Value, FlowError>
  {
    if |args| != 1 then RuntimeFail(name + " requires exactly one argument")
    else
      match args[0]
      case Integer(i) => Ok(Integer(i))
      case Float(_) => lib.host(name, args)
      case _ => TypeFail(name + " requires a numeric argument")
  }
}
