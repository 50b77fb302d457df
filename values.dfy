/**
 * FlowLang runtime values: the `Value` union, the in-place array and object
 * wrappers, and the parent-chained variable environment.
 */
module Values {
  import opened Wrappers
  import opened BigNum
  import Ast
  import Strings

  /**
   * A runtime value. `Integer` holds an i64, `Float` an exact real (IEEE
   * rounding is not modelled). An array or object held inside a value is held
   * by value, as the source clones it.
   */
  datatype Value =
    | Integer(i: int)
    | BigInteger(big: BigInt)
    | Float(f: real)
    | Str(s: string)
    | Boolean(b: bool)
    | Null
    | Array(elements: seq<Value>)
    | Object(properties: map<string, Value>)
    | Function(name: string, parameters: seq<Ast.Parameter>, body: seq<Ast.Statement>)
    | Lambda(lambdaParameters: seq<Ast.Parameter>, lambdaBody: Ast.Expression, closure: Env)
    | BytecodeFunction(address: nat, arity: nat, localsCount: nat)

  /** One scope of the environment and, through `parent`, all the scopes around it. */
  datatype Env = Env(variables: map<string, Value>, functions: map<string, Value>, parent: Option<Env>)

  // ---------------------------------------------------------------------
  // type_name, to_bigint, promote_to_bigint
  // ---------------------------------------------------------------------

  function TypeName(v: Value): string
  {
    match v
    case Integer(_) => "integer"
    case BigInteger(_) => "biginteger"
    case Float(_) => "float"
    case Str(_) => "string"
    case Boolean(_) => "boolean"
    case Null => "null"
    case Array(_) => "array"
    case Object(_) => "object"
    case Function(_, _, _) => "function"
    case Lambda(_, _, _) => "lambda"
    case BytecodeFunction(_, _, _) => "bytecode_function"
  }

  /** Two values have the same type name exactly when they are the same kind of value. */
  lemma TypeNameDistinguishesKinds(a: Value, b: Value)
    ensures TypeName(a) == TypeName(b) <==>
      (a.Integer? == b.Integer? && a.BigInteger? == b.BigInteger? && a.Float? == b.Float? &&
       a.Str? == b.Str? && a.Boolean? == b.Boolean? && a.Null? == b.Null? &&
       a.Array? == b.Array? && a.Object? == b.Object? && a.Function? == b.Function? &&
       a.Lambda? == b.Lambda? && a.BytecodeFunction? == b.BytecodeFunction?)
  {
  }

  /**
   * `to_bigint`: integers and big integers as a BigInt of the same value.
   * BigInt::from_i64 panics on i64::MIN, so that input is excluded.
   */
  function ToBigInt(v: Value): (r: Option<BigInt>)
    requires v.Integer? ==> I64_MIN < v.i
    ensures r.Some? <==> v.Integer? || v.BigInteger?
    ensures v.Integer? ==> r.Some? && Normalized(r.value) && BigNum.Value(r.value) == v.i
    ensures v.BigInteger? ==> r == Some(v.big)
  {
    match v
    case Integer(i) => FromIntCorrect(i); Some(FromInt(i))
    case BigInteger(b) => Some(b)
    case _ => None
  }

  /** `promote_to_bigint`: an Integer becomes the BigInteger of the same value; anything else is unchanged. */
  function PromoteToBigInt(v: Value): (r: Value)
    requires v.Integer? ==> I64_MIN < v.i
    ensures v.Integer? ==> r.BigInteger? && Normalized(r.big) && BigNum.Value(r.big) == v.i
    ensures !v.Integer? ==> r == v
  {
    match v
    case Integer(i) => FromIntCorrect(i); BigInteger(FromInt(i))
    case _ => v
  }

  // ---------------------------------------------------------------------
  // Display for Value
  // ---------------------------------------------------------------------

  /**
   * `Display for Value`. Strings print raw; arrays as "[a, b]"; objects as
   * `{"k": v, ...}` with keys in sorted order (the source's hash-map order is
   * unspecified); functions as fixed placeholders.
   */
  function ValueText(v: Value): (s: string)
    ensures v.Array? ==> |s| >= 2 && s[0] == '[' && s[|s| - 1] == ']'
    ensures v.Object? ==> |s| >= 2 && s[0] == '{' && s[|s| - 1] == '}'
    ensures v.Str? ==> s == v.s
    decreases v, 2
  {
    match v
    case Integer(i) => IntToString(i)
    case BigInteger(b) => Display(b)
    case Float(f) => Ast.FloatText(f)
    case Str(t) => t
    case Boolean(b) => Ast.BoolText(b)
    case Null => "null"
    case Array(items) => "[" + ItemsText(v, items) + "]"
    case Object(props) => "{" + EntriesText(v, props, Strings.SortedStrings(props.Keys)) + "}"
    case Function(name, _, _) => "<function " + name + ">"
    case Lambda(_, _, _) => "<lambda>"
    case BytecodeFunction(_, _, _) => "<bytecode function>"
  }

  function ItemsText(parent: Value, items: seq<Value>): string
    requires forall i :: 0 <= i < |items| ==> items[i] < parent
    decreases parent, 1, |items|
  {
    if |items| == 0 then ""
    else if |items| == 1 then ValueText(items[0])
    else ValueText(items[0]) + ", " + ItemsText(parent, items[1..])
  }

  function EntriesText(parent: Value, props: map<string, Value>, keys: seq<string>): string
    requires parent.Object? && props == parent.properties
    requires forall i :: 0 <= i < |keys| ==> keys[i] in props
    decreases parent, 1, |keys|
  {
    if |keys| == 0 then ""
    else
      var entry := "\"" + keys[0] + "\": " + ValueText(props[keys[0]]);
      if |keys| == 1 then entry else entry + ", " + EntriesText(parent, props, keys[1..])
  }

  /** Writing elements left to right with ", " before all but the first builds ItemsText. */
  lemma {:induction false} ItemsTextAppend(parent: Value, items: seq<Value>, e: Value)
    requires forall i :: 0 <= i < |items| ==> items[i] < parent
    requires e < parent
    requires |items| > 0
    ensures ItemsText(parent, items + [e]) == ItemsText(parent, items) + ", " + ValueText(e)
    decreases |items|
  {
    if |items| == 1 {
      assert (items + [e])[1..] == [e];
    } else {
      assert (items + [e])[1..] == items[1..] + [e];
      ItemsTextAppend(parent, items[1..], e);
    }
  }

  /** An integer value prints as a numeral that spells it. */
  lemma IntegerTextRoundTrip(i: int)
    ensures ValidNumeral(ValueText(Integer(i))) && NumeralValue(ValueText(Integer(i))) == i
  {
    IntToStringRoundTrip(i);
  }

  // ---------------------------------------------------------------------
  // is_truthy
  // ---------------------------------------------------------------------

  /**
   * `Value::is_truthy`: false, null, zero numbers and empty strings, arrays
   * and objects are falsy; every function value is truthy.
   */
  predicate IsTruthy(v: Value)
  {
    match v
    case Boolean(b) => b
    case Null => false
    case Integer(i) => i != 0
    case BigInteger(b) => !IsZero(b)
    case Float(f) => f != 0.0
    case Str(s) => |s| != 0
    case Array(items) => |items| != 0
    case Object(props) => |props| != 0
    case _ => true
  }

  /**
   * A number is truthy exactly when the number it stands for is not zero,
   * whether it is held as an Integer, a canonical BigInteger or a Float; a
   * container is truthy exactly when it holds something.
   */
  lemma TruthyMeansNonZero(v: Value)
    ensures v.Integer? ==> (IsTruthy(v) <==> v.i != 0)
    ensures v.BigInteger? && Canonical(v.big.digits) ==> (IsTruthy(v) <==> BigNum.Value(v.big) != 0)
    ensures v.Float? ==> (IsTruthy(v) <==> v.f != 0.0)
    ensures v.Str? ==> (IsTruthy(v) <==> v.s != "")
    ensures v.Array? ==> (IsTruthy(v) <==> v.elements != [])
    ensures v.Object? ==> (IsTruthy(v) <==> v.properties != map[])
  {
    if v.BigInteger? && Canonical(v.big.digits) {
      IsZeroMeaning(v.big);
    }
    if v.Object? && v.properties != map[] {
      var k :| k in v.properties;
      assert k in v.properties.Keys;
    }
  }

  // ---------------------------------------------------------------------
  // Ordering used by FlowArray::sort
  // ---------------------------------------------------------------------

  function CompareReal(x: real, y: real): Ordering
  {
    if x < y then Less else if x == y then Equal else Greater
  }

  function CompareBool(x: bool, y: bool): Ordering
  {
    if x == y then Equal else if !x then Less else Greater
  }

  /** The comparator of `FlowArray::sort`: like kinds compare by value, anything else is Equal. */
  function CompareForSort(a: Value, b: Value): Ordering
  {
    match (a, b)
    case (Integer(x), Integer(y)) => CompareInt(x, y)
    case (Float(x), Float(y)) => CompareReal(x, y)
    case (Str(x), Str(y)) => Strings.CompareStrings(x, y)
    case (Boolean(x), Boolean(y)) => CompareBool(x, y)
    case _ => Equal
  }

  predicate SortLe(a: Value, b: Value) { CompareForSort(a, b) != Greater }

  /** Values the comparator orders by content. */
  predicate Sortable(v: Value) { v.Integer? || v.Float? || v.Str? || v.Boolean? }

  predicate SameKind(a: Value, b: Value)
  {
    (a.Integer? && b.Integer?) || (a.Float? && b.Float?) || (a.Str? && b.Str?) || (a.Boolean? && b.Boolean?)
  }

  /** All elements are of one sortable kind, as `k` is. */
  predicate AllLike(s: seq<Value>, k: Value)
  {
    forall i :: 0 <= i < |s| ==> SameKind(s[i], k)
  }

  /** Every element is an integer, or every one a float, a string or a boolean. */
  predicate Homogeneous(s: seq<Value>)
  {
    |s| == 0 || AllLike(s, s[0])
  }

  predicate SortedValues(s: seq<Value>)
  {
    forall i, j :: 0 <= i < j < |s| ==> SortLe(s[i], s[j])
  }

  lemma CompareForSortFlip(a: Value, b: Value)
    ensures CompareForSort(b, a) == Strings.Flip(CompareForSort(a, b))
  {
    if a.Str? && b.Str? {
      Strings.CompareStringsFlip(a.s, b.s);
    }
  }

  /** On values of one kind the comparator is a total preorder. */
  lemma SortLeTransitive(a: Value, b: Value, c: Value)
    requires SameKind(a, b) && SameKind(b, c)
    requires SortLe(a, b) && SortLe(b, c)
    ensures SortLe(a, c)
  {
    if a.Str? {
      var x, y, z := a.s, b.s, c.s;
      if Strings.CompareStrings(x, y) == Equal {
      } else if Strings.CompareStrings(y, z) == Equal {
      } else {
        Strings.StrLessTransitive(x, y, z);
      }
    }
  }

  /** In a sorted array of one kind, equal-comparing elements are equal values. */
  lemma CompareEqualMeansEqual(a: Value, b: Value)
    requires SameKind(a, b) && CompareForSort(a, b) == Equal
    ensures a == b
  {
  }

  // ---------------------------------------------------------------------
  // FlowArray
  // ---------------------------------------------------------------------

  /** The first position holding `v`, if any. */
  function FirstIndex(s: seq<Value>, v: Value): (r: Option<nat>)
    ensures r.Some? ==> r.value < |s| && s[r.value] == v && v !in s[..r.value]
    ensures r.None? <==> v !in s
  {
    if |s| == 0 then None
    else if s[0] == v then Some(0)
    else
      match FirstIndex(s[1..], v)
      case None => None
      case Some(k) =>
        assert s[..k + 1] == [s[0]] + s[1..][..k];
        Some(k + 1)
  }

  /** Two swapped positions: the step of an in-place reversal or insertion. */
  function Swap(s: seq<Value>, i: nat, j: nat): (r: seq<Value>)
    requires i < |s| && j < |s|
    ensures |r| == |s| && r[i] == s[j] && r[j] == s[i]
    ensures forall k :: 0 <= k < |s| && k != i && k != j ==> r[k] == s[k]
    ensures multiset(r) == multiset(s)
  {
    var r := s[i := s[j]][j := s[i]];
    assert multiset(r) == multiset(s) by {
      if i != j {
        assert multiset(s[i := s[j]]) == multiset(s) - multiset{s[i]} + multiset{s[j]};
      }
    }
    r
  }

  class FlowArray {
    var elements: seq<Value>

    /** `FlowArray::from_values`; `new` is the empty sequence. */
    constructor (values: seq<Value>)
      ensures elements == values
    {
      elements := values;
    }

    method Push(value: Value)
      modifies this
      ensures elements == old(elements) + [value]
    {
      elements := elements + [value];
    }

    /** Removes and returns the last element; an empty array is left as it is. */
    method Pop() returns (r: Option<Value>)
      modifies this
      ensures old(elements) == [] ==> r == None && elements == []
      ensures old(elements) != [] ==> r == Some(old(elements)[|old(elements)| - 1]) && old(elements) == elements + [r.value]
    {
      if |elements| == 0 {
        r := None;
      } else {
        r := Some(elements[|elements| - 1]);
        elements := elements[..|elements| - 1];
      }
    }

    function Get(index: nat): (r: Option<Value>)
      reads this
      ensures r.Some? <==> index < |elements|
      ensures r.Some? ==> r.value == elements[index]
    {
      if index < |elements| then Some(elements[index]) else None
    }

    /** Replaces element `index` when it exists; otherwise reports the bounds and changes nothing. */
    method Set(index: nat, value: Value) returns (r: Result<(), string>)
      modifies this
      ensures index < |old(elements)| ==> r.Ok? && elements == old(elements)[index := value]
      ensures index >= |old(elements)| ==> (elements == old(elements) &&
        r == Err("Index " + NatToString(index) + " out of bounds for array of length " + NatToString(|elements|)))
    {
      if index < |elements| {
        elements := elements[index := value];
        r := Ok(());
      } else {
        r := Err("Index " + NatToString(index) + " out of bounds for array of length " + NatToString(|elements|));
      }
    }

    function Len(): nat
      reads this
    {
      |elements|
    }

    method Clear()
      modifies this
      ensures elements == []
    {
      elements := [];
    }

    function IndexOf(value: Value): (r: Option<nat>)
      reads this
      ensures r.Some? ==> r.value < |elements| && elements[r.value] == value
      ensures r.Some? ==> forall k :: 0 <= k < r.value ==> elements[k] != value
      ensures r.None? ==> forall k :: 0 <= k < |elements| ==> elements[k] != value
    {
      FirstIndex(elements, value)
    }

    function Contains(value: Value): (b: bool)
      reads this
      ensures b <==> IndexOf(value).Some?
      ensures b <==> exists k :: 0 <= k < |elements| && elements[k] == value
    {
      value in elements
    }

    /** Reverses the array in place by swapping mirrored positions. */
    method Reverse()
      modifies this
      ensures |elements| == |old(elements)|
      ensures forall k :: 0 <= k < |elements| ==> elements[k] == old(elements)[|elements| - 1 - k]
      ensures multiset(elements) == multiset(old(elements))
    {
      var s := elements;
      var n := |s|;
      var i := 0;
      while i < n / 2
        invariant 0 <= i <= n / 2
        invariant |s| == n
        invariant multiset(s) == multiset(elements)
        invariant forall k :: 0 <= k < i ==> s[k] == elements[n - 1 - k] && s[n - 1 - k] == elements[k]
        invariant forall k :: i <= k < n - i ==> s[k] == elements[k]
      {
        s := Swap(s, i, n - 1 - i);
        i := i + 1;
      }
      elements := s;
    }

    /**
     * Sorts in place by the comparator of `FlowArray::sort` (insertion sort,
     * stable like the source's). The result is always a permutation; when all
     * elements are of one sortable kind it is sorted.
     */
    method Sort()
      modifies this
      ensures multiset(elements) == multiset(old(elements))
      ensures Homogeneous(old(elements)) ==> SortedValues(elements)
    {
      var s := elements;
      ghost var h := Homogeneous(s);
      ghost var k := if |s| > 0 then s[0] else Null;
      var i := 0;
      while i < |s|
        invariant |s| == |old(elements)|
        invariant 0 <= i <= |s|
        invariant multiset(s) == multiset(old(elements))
        invariant h ==> AllLike(s, k) && SortedUpTo(s, i)
        decreases |s| - i
      {
        var j := i;
        while j > 0 && CompareForSort(s[j - 1], s[j]) == Greater
          invariant |s| == |old(elements)|
          invariant 0 <= j <= i < |s|
          invariant multiset(s) == multiset(old(elements))
          invariant h ==> AllLike(s, k) && Inserting(s, j, i)
        {
          if h {
            InsertSwapStep(s, j, i, k);
          }
          s := Swap(s, j - 1, j);
          j := j - 1;
        }
        if h {
          InsertDone(s, j, i, k);
        }
        i := i + 1;
      }
      elements := s;
    }

    /** `slice(start, end)`. */
    function Slice(start: nat, end: nat): (r: Result<seq<Value>, string>)
      reads this
      ensures r == SliceOf(elements, start, end)
    {
      SliceOf(elements, start, end)
    }
  }

  /**
   * `FlowArray::slice`: an error when start is past end or past the length,
   * otherwise the elements from start up to end clamped to the length.
   */
  function SliceOf(elements: seq<Value>, start: nat, end: nat): (r: Result<seq<Value>, string>)
    ensures start > end ==> r == Err("Start index cannot be greater than end index")
    ensures start <= end && start > |elements| ==> r == Err("Start index out of bounds")
    ensures start <= end && start <= |elements| ==> (r.Ok? &&
      |r.value| == (if end < |elements| then end else |elements|) - start &&
      forall k :: 0 <= k < |r.value| ==> r.value[k] == elements[start + k])
  {
    if start > end then Err("Start index cannot be greater than end index")
    else if start > |elements| then Err("Start index out of bounds")
    else
      var stop := if end < |elements| then end else |elements|;
      Ok(elements[start..stop])
  }

  /** The prefix s[..i] is sorted. */
  predicate SortedUpTo(s: seq<Value>, i: nat)
    requires i <= |s|
  {
    forall a, b :: 0 <= a < b < i ==> SortLe(s[a], s[b])
  }

  /**
   * Inserting s[i] into the sorted prefix: it now sits at j, s[..j] and
   * s[j..i+1] are sorted, and everything before j is at most everything after j.
   */
  predicate Inserting(s: seq<Value>, j: nat, i: nat)
    requires j <= i < |s|
  {
    (forall a, b :: 0 <= a < b < j ==> SortLe(s[a], s[b])) &&
    (forall a, b :: j <= a < b <= i ==> SortLe(s[a], s[b])) &&
    (forall a, b :: 0 <= a < j && j < b <= i ==> SortLe(s[a], s[b]))
  }

  lemma InsertSwapStep(s: seq<Value>, j: nat, i: nat, k: Value)
    requires 0 < j <= i < |s|
    requires AllLike(s, k) && Inserting(s, j, i)
    requires CompareForSort(s[j - 1], s[j]) == Greater
    ensures Inserting(Swap(s, j - 1, j), j - 1, i)
  {
    var t := Swap(s, j - 1, j);
    CompareForSortFlip(s[j - 1], s[j]);
    assert SortLe(t[j - 1], t[j]);
    forall a, b | j - 1 <= a < b <= i
      ensures SortLe(t[a], t[b])
    {
      if a == j - 1 && b > j {
        assert SortLe(s[j], s[b]);
      } else if a == j && b > j {
        assert SortLe(s[j - 1], s[b]);
      }
    }
    forall a, b | 0 <= a < j - 1 && j - 1 < b <= i
      ensures SortLe(t[a], t[b])
    {
      if b == j {
        assert t[b] == s[j - 1];
      }
    }
  }

  lemma InsertDone(s: seq<Value>, j: nat, i: nat, k: Value)
    requires j <= i < |s|
    requires AllLike(s, k) && Inserting(s, j, i)
    requires j == 0 || CompareForSort(s[j - 1], s[j]) != Greater
    ensures SortedUpTo(s, i + 1)
  {
    forall a, b | 0 <= a < b < i + 1
      ensures SortLe(s[a], s[b])
    {
      if a < j && b == j {
        if a < j - 1 {
          SortLeTransitive(s[a], s[j - 1], s[j]);
        }
      }
    }
  }

  /** In an array of one kind, the sorted permutation is unique: the sort's result is determined. */
  lemma {:induction false} SortedPermutationUnique(s: seq<Value>, t: seq<Value>, k: Value)
    requires AllLike(s, k) && AllLike(t, k)
    requires SortedValues(s) && SortedValues(t) && multiset(s) == multiset(t)
    ensures s == t
    decreases |s|
  {
    if |s| > 0 {
      assert |t| > 0 by { assert |multiset(t)| == |multiset(s)|; }
      SortedHeadsEqual(s, t, k);
      TailFacts(s, k);
      TailFacts(t, k);
      SortedPermutationUnique(s[1..], t[1..], k);
    }
  }

  lemma TailFacts(s: seq<Value>, k: Value)
    requires |s| > 0 && AllLike(s, k) && SortedValues(s)
    ensures AllLike(s[1..], k) && SortedValues(s[1..])
    ensures s == [s[0]] + s[1..]
    ensures multiset(s[1..]) == multiset(s) - multiset{s[0]}
  {
    assert s == [s[0]] + s[1..];
  }

  lemma SortedHeadsEqual(s: seq<Value>, t: seq<Value>, k: Value)
    requires |s| > 0 && |t| > 0
    requires AllLike(s, k) && AllLike(t, k)
    requires SortedValues(s) && SortedValues(t) && multiset(s) == multiset(t)
    ensures s[0] == t[0]
  {
    assert s[0] in multiset(t);
    assert t[0] in multiset(s);
    var a :| 0 <= a < |t| && t[a] == s[0];
    var b :| 0 <= b < |s| && s[b] == t[0];
    assert SortLe(s[0], t[0]) by { if b != 0 { assert SortLe(s[0], s[b]); } }
    assert SortLe(t[0], s[0]) by { if a != 0 { assert SortLe(t[0], t[a]); } }
    CompareForSortFlip(s[0], t[0]);
    CompareEqualMeansEqual(s[0], t[0]);
  }

  // ---------------------------------------------------------------------
  // FlowObject
  // ---------------------------------------------------------------------

  class FlowObject {
    var properties: map<string, Value>

    constructor (props: map<string, Value>)
      ensures properties == props
    {
      properties := props;
    }

    function Get(key: string): (r: Option<Value>)
      reads this
      ensures r.Some? <==> key in properties
      ensures r.Some? ==> r.value == properties[key]
    {
      if key in properties then Some(properties[key]) else None
    }

    method Set(key: string, value: Value)
      modifies this
      ensures properties == old(properties)[key := value]
    {
      properties := properties[key := value];
    }

    /** Removes the key and returns the value it had, if any. */
    method Remove(key: string) returns (r: Option<Value>)
      modifies this
      ensures key in old(properties) ==> r == Some(old(properties)[key])
      ensures key !in old(properties) ==> r == None
      ensures properties == old(properties) - {key}
    {
      r := Get(key);
      properties := properties - {key};
    }

    function ContainsKey(key: string): (b: bool)
      reads this
      ensures b <==> Get(key).Some?
    {
      key in properties
    }

    /** Copies every entry of `other` into this object, one key at a time. */
    method Merge(other: FlowObject)
      requires other != this
      modifies this
      ensures properties.Keys == old(properties).Keys + other.properties.Keys
      ensures forall key :: key in other.properties ==> properties[key] == other.properties[key]
      ensures forall key :: key in old(properties) && key !in other.properties ==> properties[key] == old(properties)[key]
    {
      var pending := other.properties.Keys;
      while pending != {}
        invariant pending <= other.properties.Keys
        invariant properties.Keys == old(properties).Keys + (other.properties.Keys - pending)
        invariant forall key :: key in other.properties && key !in pending ==> properties[key] == other.properties[key]
        invariant forall key :: key in old(properties) && key !in other.properties ==> properties[key] == old(properties)[key]
        invariant forall key :: key in old(properties) && key in pending ==> properties[key] == old(properties)[key]
        decreases pending
      {
        var key :| key in pending;
        properties := properties[key := other.properties[key]];
        pending := pending - {key};
      }
    }
  }

  // ---------------------------------------------------------------------
  // Environment
  // ---------------------------------------------------------------------

  datatype Namespace = Variables | Functions

  function Bindings(e: Env, ns: Namespace): map<string, Value>
  {
    if ns == Variables then e.variables else e.functions
  }

  /** `get_variable` / `get_function`: the binding in this scope, else the parent's answer. */
  function Lookup(e: Env, name: string, ns: Namespace): Option<Value>
    decreases e
  {
    if name in Bindings(e, ns) then Some(Bindings(e, ns)[name])
    else
      match e.parent
      case None => None
      case Some(p) => Lookup(p, name, ns)
  }

  /** The scopes from the innermost outwards: an independent view of the parent chain. */
  function Frames(e: Env, ns: Namespace): (r: seq<map<string, Value>>)
    ensures |r| >= 1 && r[0] == Bindings(e, ns)
    decreases e
  {
    [Bindings(e, ns)] + (match e.parent case None => [] case Some(p) => Frames(p, ns))
  }

  /** The first frame, counting outwards, that binds `name`. */
  function Innermost(frames: seq<map<string, Value>>, name: string): (r: Option<nat>)
    ensures r.Some? ==> r.value < |frames| && name in frames[r.value]
    ensures r.Some? ==> forall k :: 0 <= k < r.value ==> name !in frames[k]
    ensures r.None? ==> forall k :: 0 <= k < |frames| ==> name !in frames[k]
  {
    if |frames| == 0 then None
    else if name in frames[0] then Some(0)
    else match Innermost(frames[1..], name)
      case None => None
      case Some(k) => Some(k + 1)
  }

  /** Lookup returns the binding of the innermost scope that defines the name, and None if none does. */
  lemma {:induction false} LookupIsInnermost(e: Env, name: string, ns: Namespace)
    ensures var f := Frames(e, ns);
      match Innermost(f, name)
      case None => Lookup(e, name, ns) == None
      case Some(k) => Lookup(e, name, ns) == Some(f[k][name])
    decreases e
  {
    var f := Frames(e, ns);
    if name !in Bindings(e, ns) {
      match e.parent
      case None =>
      case Some(p) =>
        LookupIsInnermost(p, name, ns);
        assert f[1..] == Frames(p, ns);
    }
  }

  /**
   * `set_variable`: the nearest scope binding `name` gets the new value;
   * with no such scope it is an error.
   */
  function Assign(e: Env, name: string, value: Value): Result<Env, string>
    decreases e
  {
    if name in e.variables then Ok(e.(variables := e.variables[name := value]))
    else
      match e.parent
      case None => Err("Undefined variable: " + name)
      case Some(p) =>
        match Assign(p, name, value)
        case Ok(q) => Ok(e.(parent := Some(q)))
        case Err(m) => Err(m)
  }

  /**
   * Assignment fails exactly when no scope binds the name; when it succeeds the
   * name reads back as the new value, every other name and every function reads
   * as before, and no scope gains or loses a binding.
   */
  lemma {:induction false} AssignSpec(e: Env, name: string, value: Value)
    ensures Assign(e, name, value).Err? <==> Lookup(e, name, Variables).None?
    ensures Assign(e, name, value).Err? ==> Assign(e, name, value).error == "Undefined variable: " + name
    ensures Assign(e, name, value).Ok? ==>
      var e2 := Assign(e, name, value).value;
      Lookup(e2, name, Variables) == Some(value) &&
      (forall other :: other != name ==> Lookup(e2, other, Variables) == Lookup(e, other, Variables)) &&
      (forall other :: Lookup(e2, other, Functions) == Lookup(e, other, Functions)) &&
      SameShape(e2, e)
    decreases e
  {
    if name in e.variables {
      SameShapeReflexive(e);
    } else {
      match e.parent
      case None =>
      case Some(p) =>
        AssignSpec(p, name, value);
        match Assign(p, name, value) {
          case Ok(q) =>
            var e2 := e.(parent := Some(q));
            assert SameShape(e2, e);
            forall other
              ensures Lookup(e2, other, Functions) == Lookup(e, other, Functions)
            {
            }
          case Err(_) =>
        }
    }
  }

  /** Two environments with the same chain length and the same bound names in every scope. */
  predicate SameShape(a: Env, b: Env)
    decreases a
  {
    a.variables.Keys == b.variables.Keys && a.functions.Keys == b.functions.Keys &&
    match (a.parent, b.parent)
    case (None, None) => true
    case (Some(p), Some(q)) => SameShape(p, q)
    case _ => false
  }

  lemma {:induction false} SameShapeReflexive(e: Env)
    ensures SameShape(e, e)
    decreases e
  {
    if e.parent.Some? {
      SameShapeReflexive(e.parent.value);
    }
  }

  function Pushed(e: Env): Env
  {
    Env(map[], map[], Some(e))
  }

  function Popped(e: Env): Env
  {
    match e.parent
    case None => e
    case Some(p) => p
  }

  /** pop_scope undoes push_scope, and at the root it changes nothing. */
  lemma PushPopRestores(e: Env)
    ensures Popped(Pushed(e)) == e
    ensures e.parent.None? ==> Popped(e) == e
    ensures forall name, ns :: Lookup(Pushed(e), name, ns) == Lookup(e, name, ns)
  {
  }

  class Environment {
    var variables: map<string, Value>
    var functions: map<string, Value>
    var parent: Option<Env>

    /** `Environment::new`: one empty scope. */
    constructor ()
      ensures State() == Env(map[], map[], None)
    {
      variables := map[];
      functions := map[];
      parent := None;
    }

    /** `Environment::with_parent`: an empty scope inside `outer`. */
    constructor WithParent(outer: Env)
      ensures State() == Pushed(outer)
    {
      variables := map[];
      functions := map[];
      parent := Some(outer);
    }

    /** The environment as a value, as a closure captures it. */
    function State(): Env
      reads this
    {
      Env(variables, functions, parent)
    }

    method DefineVariable(name: string, value: Value)
      modifies this
      ensures State() == old(State()).(variables := old(variables)[name := value])
      ensures GetVariable(name) == Some(value)
    {
      variables := variables[name := value];
    }

    method DefineFunction(name: string, value: Value)
      modifies this
      ensures State() == old(State()).(functions := old(functions)[name := value])
      ensures GetFunction(name) == Some(value)
    {
      functions := functions[name := value];
    }

    function GetVariable(name: string): Option<Value>
      reads this
    {
      Lookup(State(), name, Variables)
    }

    function GetFunction(name: string): Option<Value>
      reads this
    {
      Lookup(State(), name, Functions)
    }

    method SetVariable(name: string, value: Value) returns (r: Result<(), string>)
      modifies this
      ensures Assign(old(State()), name, value).Ok? ==> r.Ok? && State() == Assign(old(State()), name, value).value
      ensures Assign(old(State()), name, value).Err? ==> r == Err(Assign(old(State()), name, value).error) && State() == old(State())
    {
      if name in variables {
        variables := variables[name := value];
        r := Ok(());
      } else if parent.Some? {
        match Assign(parent.value, name, value)
        case Ok(q) =>
          parent := Some(q);
          r := Ok(());
        case Err(m) =>
          r := Err(m);
      } else {
        r := Err("Undefined variable: " + name);
      }
    }

    method PushScope()
      modifies this
      ensures State() == Pushed(old(State()))
    {
      parent := Some(State());
      variables := map[];
      functions := map[];
    }

    method PopScope()
      modifies this
      ensures State() == Popped(old(State()))
    {
      if parent.Some? {
        var p := parent.value;
        variables := p.variables;
        functions := p.functions;
        parent := p.parent;
      }
    }
  }

  // ---------------------------------------------------------------------
  // Listing an object's properties
  // ---------------------------------------------------------------------

  /**
   * The keys of an object as Strings, each once. The source lists them in
   * its hash map's order; the model fixes sorted order.
   */
  function KeyValues(props: map<string, Value>): (r: seq<Value>)
    ensures |r| == |props|
    ensures forall k :: 0 <= k < |r| ==> r[k].Str? && r[k].s in props
    ensures forall key :: key in props ==> Str(key) in r
  {
    var ks := Strings.SortedStrings(props.Keys);
    var r := seq(|ks|, k requires 0 <= k < |ks| => Str(ks[k]));
    assert forall key :: key in props ==> Str(key) in r by {
      forall key | key in props
        ensures Str(key) in r
      {
        var k :| 0 <= k < |ks| && ks[k] == key;
        assert r[k] == Str(key);
      }
    }
    r
  }

  /** The values of an object, in the order `KeyValues` lists their keys. */
  function PropertyValues(props: map<string, Value>): (r: seq<Value>)
    ensures |r| == |props|
    ensures forall k :: 0 <= k < |r| ==> exists key :: key in props && r[k] == props[key]
  {
    var ks := Strings.SortedStrings(props.Keys);
    seq(|ks|, k requires 0 <= k < |ks| => props[ks[k]])
  }
}
