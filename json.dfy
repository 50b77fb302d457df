/**
 * The JSON library: `json_parse`, a recursive-descent reader over the
 * characters of a string that advances a cursor, and `json_stringify`, a
 * recursive writer with a compact and a pretty layout.
 *
 * Every parsing routine is a function of the input and a start position
 * that gives the value and the position after it, or an error message; the
 * `JsonParser` class moves its cursor the same way, proved against those
 * functions. The reader follows the value syntax of section 3 of RFC 8259
 * with the differences the library has: leading zeros are accepted, text
 * after the first value is ignored, and an object key's opening quote is
 * not checked.
 */
module Json {
  import opened Wrappers
  import opened Values
  import Errors
  import Lexing
  import BigNum
  import Ast
  import Strings
  import Radix

  // ---------------------------------------------------------------------
  // Messages
  // ---------------------------------------------------------------------

  const END := "Unexpected end of input"
  const UNTERMINATED := "Unterminated string"
  const BAD_ESCAPE := "Invalid escape sequence"
  const BAD_UNICODE := "Invalid unicode escape"
  const EXPECTED_COLON := "Expected ':' after object key"
  const OBJECT_END := "Expected ',' or '}' in object"
  const ARRAY_END := "Expected ',' or ']' in array"
  const BAD_BOOLEAN := "Invalid boolean value"
  const BAD_NULL := "Invalid null value"
  const BAD_NUMBER := "Invalid number"
  const NO_FRACTION := "Invalid number: expected digit after decimal point"
  const NO_EXPONENT := "Invalid number: expected digit in exponent"
  const BAD_INTEGER := "Invalid integer number"
  const NOT_JSON := "Cannot stringify this value type to JSON"

  /** A parse of something starting at a position: the thing and the position after it, or a message. */
  type Parse<T> = Result<(T, nat), string>

  predicate IsDigit(c: char) { '0' <= c <= '9' }

  // ---------------------------------------------------------------------
  // The reader, as functions of the input and a position
  // ---------------------------------------------------------------------

  /** `skip_whitespace`: the first position at or after `p` that is not whitespace. */
  function SkipWs(input: seq<char>, p: nat): (q: nat)
    requires p <= |input|
    ensures p <= q <= |input|
    ensures q == |input| || !Lexing.IsWhitespace(input[q])
    ensures forall i :: p <= i < q ==> Lexing.IsWhitespace(input[i])
    decreases |input| - p
  {
    if p < |input| && Lexing.IsWhitespace(input[p]) then SkipWs(input, p + 1) else p
  }

  /** The end of the run of ASCII digits starting at `p`. */
  function DigitsEnd(input: seq<char>, p: nat): (q: nat)
    requires p <= |input|
    ensures p <= q <= |input|
    ensures q == |input| || !IsDigit(input[q])
    ensures forall i :: p <= i < q ==> IsDigit(input[i])
    decreases |input| - p
  {
    if p < |input| && IsDigit(input[p]) then DigitsEnd(input, p + 1) else p
  }

  /** The character a one-letter escape stands for, or None for a letter that is not one. */
  function SimpleEscape(e: char): (r: Option<char>)
    ensures r.Some? <==> e in {'"', '\\', '/', 'b', 'f', 'n', 'r', 't'}
  {
    match e
    case '"' => Some('"')
    case '\\' => Some('\\')
    case '/' => Some('/')
    case 'b' => Some('\U{8}')
    case 'f' => Some('\U{C}')
    case 'n' => Some('\n')
    case 'r' => Some('\r')
    case 't' => Some('\t')
    case _ => None
  }

  /** The four hex digits of a `\u` escape at `p`, as a number, or None if any is missing or not a hex digit. */
  function UnicodeEscape(input: seq<char>, p: nat): (r: Option<nat>)
    ensures r.Some? <==> p + 4 <= |input| && Radix.AllHexDigits(input[p..p + 4])
    ensures r.Some? ==> r.value < 0x1_0000 && r.value == Radix.HexNumber(input[p..p + 4])
  {
    if p + 4 <= |input| && Radix.AllHexDigits(input[p..p + 4]) then
      assert Radix.Pow16(4) == 0x1_0000;
      Some(Radix.HexNumber(input[p..p + 4]))
    else None
  }

  /** `char::from_u32` of a four-digit code: the character, or nothing for a surrogate. */
  function CodePointText(code: nat): (s: string)
    requires code < 0x1_0000
    ensures |s| <= 1
    ensures |s| == 1 <==> !(0xD800 <= code < 0xE000)
    ensures |s| == 1 ==> s[0] as int == code
  {
    if 0xD800 <= code < 0xE000 then "" else [code as char]
  }

  /**
   * The loop of `parse_string` from `p` with `acc` decoded so far: the text
   * and the position after the closing quote, or the first error.
   */
  function StringBody(input: seq<char>, p: nat, acc: string): (r: Parse<string>)
    requires p <= |input| + 1
    ensures r.Ok? ==> p < r.value.1 <= |input| && |acc| <= |r.value.0| && r.value.0[..|acc|] == acc
    decreases |input| + 1 - p
  {
    if p >= |input| then Err(UNTERMINATED)
    else if input[p] == '"' then Ok((acc, p + 1))
    else if input[p] == '\\' then
      if p + 1 >= |input| then Err(BAD_ESCAPE)
      else if input[p + 1] == 'u' then
        match UnicodeEscape(input, p + 2)
        case None => Err(BAD_UNICODE)
        case Some(code) => StringBody(input, p + 6, acc + CodePointText(code))
      else
        match SimpleEscape(input[p + 1])
        case None => Err(BAD_ESCAPE)
        case Some(c) => StringBody(input, p + 2, acc + [c])
    else StringBody(input, p + 1, acc + [input[p]])
  }

  /** `parse_string` at `p`: the character at `p` is skipped unseen, then the body is read. */
  function StringAt(input: seq<char>, p: nat): (r: Parse<string>)
    requires p <= |input|
    ensures r.Ok? ==> p < r.value.1 <= |input|
  {
    StringBody(input, p + 1, "")
  }

  /** The text `lit` appears at position `p`. */
  predicate StartsWith(input: seq<char>, p: nat, lit: string)
  {
    p + |lit| <= |input| && input[p..p + |lit|] == lit
  }

  /** `parse_boolean`: `true` or `false` spelled out at `p`. */
  function BooleanAt(input: seq<char>, p: nat): (r: Parse<Value>)
    ensures r.Ok? <==> StartsWith(input, p, "true") || StartsWith(input, p, "false")
    ensures r.Ok? ==> r.value.0 == Boolean(StartsWith(input, p, "true"))
    ensures r.Ok? ==> r.value.1 == p + (if StartsWith(input, p, "true") then 4 else 5)
    ensures r.Err? ==> r.error == BAD_BOOLEAN
  {
    if StartsWith(input, p, "true") then Ok((Boolean(true), p + 4))
    else if StartsWith(input, p, "false") then Ok((Boolean(false), p + 5))
    else Err(BAD_BOOLEAN)
  }

  /** `parse_null`: `null` spelled out at `p`. */
  function NullAt(input: seq<char>, p: nat): (r: Parse<Value>)
    ensures r.Ok? <==> StartsWith(input, p, "null")
    ensures r.Ok? ==> r.value == (Null, p + 4)
    ensures r.Err? ==> r.error == BAD_NULL
  {
    if StartsWith(input, p, "null") then Ok((Null, p + 4)) else Err(BAD_NULL)
  }

  /**
   * `str::parse::<f64>` of a number with a fraction or an exponent, read as
   * the exact decimal value `±(whole.fraction) × 10^(±exponent)`.
   */
  function Scientific(negative: bool, whole: string, fraction: string, expNegative: bool, exponent: string): real
    requires BigNum.AllDigits(whole) && BigNum.AllDigits(fraction) && BigNum.AllDigits(exponent)
  {
    var m := BigNum.DecimalValue(whole) as real + BigNum.DecimalValue(fraction) as real / BigNum.Pow10(|fraction|) as real;
    var scale := BigNum.Pow10(BigNum.DecimalValue(exponent)) as real;
    var magnitude := if expNegative then m / scale else m * scale;
    if negative then -magnitude else magnitude
  }

  lemma DigitsAreDigits(input: seq<char>, a: nat, b: nat)
    requires a <= b <= |input| && forall i :: a <= i < b ==> IsDigit(input[i])
    ensures BigNum.AllDigits(input[a..b])
  {
    assert forall i :: 0 <= i < b - a ==> input[a..b][i] == input[a + i];
  }

  /**
   * `parse_number` at `p`: an optional `-`, digits, then optionally `.` and
   * digits and `e`/`E`, an optional sign and digits. With a fraction or an
   * exponent the number is a float; otherwise it is an i64, or an error
   * when it does not fit.
   */
  function NumberAt(input: seq<char>, p: nat): (r: Parse<Value>)
    requires p < |input|
    ensures r.Ok? ==> p < r.value.1 <= |input|
    ensures r.Ok? ==> r.value.0.Integer? || r.value.0.Float?
  {
    var a := if input[p] == '-' then p + 1 else p;
    if !(a < |input| && IsDigit(input[a])) then Err(BAD_NUMBER)
    else
      var b := DigitsEnd(input, a);
      DigitsAreDigits(input, a, b);
      FractionAt(input, p, a, b)
  }

  /** The part of `parse_number` after the integer digits `input[a..b]`: an optional fraction. */
  function FractionAt(input: seq<char>, p: nat, a: nat, b: nat): (r: Parse<Value>)
    requires p <= a < b <= |input| && BigNum.AllDigits(input[a..b])
    ensures r.Ok? ==> p < r.value.1 <= |input|
    ensures r.Ok? ==> r.value.0.Integer? || r.value.0.Float?
  {
    if b < |input| && input[b] == '.' then
      if !(b + 1 < |input| && IsDigit(input[b + 1])) then Err(NO_FRACTION)
      else
        var c := DigitsEnd(input, b + 1);
        DigitsAreDigits(input, b + 1, c);
        ExponentAt(input, p, a, b, input[b + 1..c], true, c)
    else ExponentAt(input, p, a, b, "", false, b)
  }

  /**
   * The rest of `parse_number` at `c`, after the integer digits
   * `input[a..b]` and the `fraction` digits: an optional exponent, then
   * the value.
   */
  function ExponentAt(input: seq<char>, p: nat, a: nat, b: nat, fraction: string, dot: bool, c: nat): (r: Parse<Value>)
    requires p <= a < b <= c <= |input| && BigNum.AllDigits(input[a..b]) && BigNum.AllDigits(fraction)
    ensures r.Ok? ==> p < r.value.1 <= |input|
    ensures r.Ok? ==> r.value.0.Integer? || r.value.0.Float?
  {
    if c < |input| && (input[c] == 'e' || input[c] == 'E') then
      var sign := c + 1 < |input| && (input[c + 1] == '+' || input[c + 1] == '-');
      var d := if sign then c + 2 else c + 1;
      if !(d < |input| && IsDigit(input[d])) then Err(NO_EXPONENT)
      else
        var e := DigitsEnd(input, d);
        DigitsAreDigits(input, d, e);
        Ok((Float(Scientific(input[p] == '-', input[a..b], fraction, sign && input[c + 1] == '-', input[d..e])), e))
    else if dot then Ok((Float(Scientific(input[p] == '-', input[a..b], fraction, false, "")), c))
    else
      match Ast.ParseI64(input[p..c])
      case Some(i) => Ok((Integer(i), c))
      case None => Err(BAD_INTEGER)
  }

  /**
   * `parse_value` at `p`: skip whitespace, then dispatch on the first
   * character; the end of the input and any other character are errors.
   */
  function ValueAt(input: seq<char>, p: nat): (r: Parse<Value>)
    requires p <= |input|
    ensures r.Ok? ==> p < r.value.1 <= |input|
    decreases |input| - p, 1
  {
    var q := SkipWs(input, p);
    if q == |input| then Err(END)
    else
      var c := input[q];
      if c == '"' then
        match StringAt(input, q)
        case Err(e) => Err(e)
        case Ok(res) => Ok((Str(res.0), res.1))
      else if c == '{' then ObjectAt(input, q)
      else if c == '[' then ArrayAt(input, q)
      else if c == 't' || c == 'f' then BooleanAt(input, q)
      else if c == 'n' then NullAt(input, q)
      else if IsDigit(c) || c == '-' then NumberAt(input, q)
      else Err("Unexpected character: " + [c])
  }

  /** `parse_array` at the `[` at `p`: `[]` after optional whitespace, or the elements. */
  function ArrayAt(input: seq<char>, p: nat): (r: Parse<Value>)
    requires p < |input|
    ensures r.Ok? ==> p < r.value.1 <= |input|
    decreases |input| - p, 0
  {
    var q := SkipWs(input, p + 1);
    if q < |input| && input[q] == ']' then Ok((Array([]), q + 1))
    else ElementsAt(input, q, [])
  }

  /**
   * The element loop of `parse_array` at `p` with `items` read so far: a
   * value, whitespace, then `,` for another element or `]` to finish.
   */
  function ElementsAt(input: seq<char>, p: nat, items: seq<Value>): (r: Parse<Value>)
    requires p <= |input|
    ensures r.Ok? ==> p < r.value.1 <= |input|
    decreases |input| - p, 2
  {
    match ValueAt(input, p)
    case Err(e) => Err(e)
    case Ok(res) =>
      var k := SkipWs(input, res.1);
      if k < |input| && input[k] == ',' then ElementsAt(input, k + 1, items + [res.0])
      else if k < |input| && input[k] == ']' then Ok((Array(items + [res.0]), k + 1))
      else Err(ARRAY_END)
  }

  /** `parse_object` at the `{` at `p`: `{}` after optional whitespace, or the members. */
  function ObjectAt(input: seq<char>, p: nat): (r: Parse<Value>)
    requires p < |input|
    ensures r.Ok? ==> p < r.value.1 <= |input|
    decreases |input| - p, 0
  {
    var q := SkipWs(input, p + 1);
    if q < |input| && input[q] == '}' then Ok((Object(map[]), q + 1))
    else MembersAt(input, q, map[])
  }

  /**
   * The member loop of `parse_object` at `p` with `props` read so far: a
   * key, whitespace, then `:` and the member's value.
   */
  function MembersAt(input: seq<char>, p: nat, props: map<string, Value>): (r: Parse<Value>)
    requires p <= |input|
    ensures r.Ok? ==> p < r.value.1 <= |input|
    decreases |input| - p, 3
  {
    var q := SkipWs(input, p);
    match StringAt(input, q)
    case Err(e) => Err(e)
    case Ok(key) =>
      var colon := SkipWs(input, key.1);
      if colon == |input| || input[colon] != ':' then Err(EXPECTED_COLON)
      else MemberValueAt(input, colon + 1, key.0, props)
  }

  /**
   * The rest of a round of the member loop: the value at `p` is stored under
   * `key` (a later duplicate key replaces the earlier value), then `,` for
   * another member or `}` to finish.
   */
  function MemberValueAt(input: seq<char>, p: nat, key: string, props: map<string, Value>): (r: Parse<Value>)
    requires p <= |input|
    ensures r.Ok? ==> p < r.value.1 <= |input|
    decreases |input| - p, 2
  {
    match ValueAt(input, p)
    case Err(e) => Err(e)
    case Ok(res) =>
      var k := SkipWs(input, res.1);
      var props' := props[key := res.0];
      if k < |input| && input[k] == ',' then MembersAt(input, k + 1, props')
      else if k < |input| && input[k] == '}' then Ok((Object(props'), k + 1))
      else Err(OBJECT_END)
  }

  /** How `parse_array` starts: `]` after the whitespace closes an empty array. */
  lemma ArrayEntry(input: seq<char>, p: nat)
    requires p < |input|
    ensures var q := SkipWs(input, p + 1);
      ArrayAt(input, p) == if q < |input| && input[q] == ']' then Ok((Array([]), q + 1)) else ElementsAt(input, q, [])
  {
  }

  /** One round of the element loop of `parse_array`, read off after the value at `p`. */
  lemma ElementsStep(input: seq<char>, p: nat, items: seq<Value>)
    requires p <= |input|
    ensures ValueAt(input, p).Err? ==> ElementsAt(input, p, items) == Err(ValueAt(input, p).error)
    ensures ValueAt(input, p).Ok? ==>
      var res := ValueAt(input, p).value;
      var k := SkipWs(input, res.1);
      ElementsAt(input, p, items) ==
        if k < |input| && input[k] == ',' then ElementsAt(input, k + 1, items + [res.0])
        else if k < |input| && input[k] == ']' then Ok((Array(items + [res.0]), k + 1))
        else Err(ARRAY_END)
  {
  }

  /** How `parse_object` starts: `}` after the whitespace closes an empty object. */
  lemma ObjectEntry(input: seq<char>, p: nat)
    requires p < |input|
    ensures var q := SkipWs(input, p + 1);
      ObjectAt(input, p) == if q < |input| && input[q] == '}' then Ok((Object(map[]), q + 1)) else MembersAt(input, q, map[])
  {
  }

  /** The key half of one round of the member loop of `parse_object`. */
  lemma MembersStep(input: seq<char>, p: nat, props: map<string, Value>)
    requires p <= |input|
    ensures var q := SkipWs(input, p);
      (StringAt(input, q).Err? ==> MembersAt(input, p, props) == Err(StringAt(input, q).error)) &&
      (StringAt(input, q).Ok? ==>
        var colon := SkipWs(input, StringAt(input, q).value.1);
        MembersAt(input, p, props) ==
          if colon == |input| || input[colon] != ':' then Err(EXPECTED_COLON)
          else MemberValueAt(input, colon + 1, StringAt(input, q).value.0, props))
  {
  }

  /** The value half of one round of the member loop of `parse_object`. */
  lemma MemberValueStep(input: seq<char>, p: nat, key: string, props: map<string, Value>)
    requires p <= |input|
    ensures ValueAt(input, p).Err? ==> MemberValueAt(input, p, key, props) == Err(ValueAt(input, p).error)
    ensures ValueAt(input, p).Ok? ==>
      var res := ValueAt(input, p).value;
      var k := SkipWs(input, res.1);
      MemberValueAt(input, p, key, props) ==
        if k < |input| && input[k] == ',' then MembersAt(input, k + 1, props[key := res.0])
        else if k < |input| && input[k] == '}' then Ok((Object(props[key := res.0]), k + 1))
        else Err(OBJECT_END)
  {
  }

  /** `parse_json`: one value from the start; whatever follows it is ignored. */
  function ParseJson(text: string): (r: Result<Value, string>)
  {
    match ValueAt(text, 0)
    case Err(e) => Err(e)
    case Ok(res) => Ok(res.0)
  }

  // ---------------------------------------------------------------------
  // The reader, as a cursor over the characters
  // ---------------------------------------------------------------------

  /** A method's result and final cursor agree with a parse: the same value and end, or the same message. */
  predicate Agrees<T(==)>(r: Result<T, string>, pos: nat, spec: Parse<T>)
  {
    match spec
    case Ok(res) => r == Ok(res.0) && pos == res.1
    case Err(e) => r == Err(e)
  }

  /** `JsonParser`: the characters of the input and a cursor into them. */
  class JsonParser {
    const input: seq<char>
    var pos: nat

    constructor (text: string)
      ensures input == text && pos == 0
    {
      input := text;
      pos := 0;
    }

    /** `current_char`: the character under the cursor, None past the end. */
    function CurrentChar(): (c: Option<char>)
      reads this
      ensures c.Some? <==> pos < |input|
      ensures c.Some? ==> c.value == input[pos]
    {
      if pos < |input| then Some(input[pos]) else None
    }

    method Advance()
      modifies this
      ensures pos == old(pos) + 1
    {
      pos := pos + 1;
    }

    method SkipWhitespace()
      requires pos <= |input|
      modifies this
      ensures pos == SkipWs(input, old(pos))
    {
      while pos < |input| && Lexing.IsWhitespace(input[pos])
        invariant old(pos) <= pos <= |input|
        invariant SkipWs(input, pos) == SkipWs(input, old(pos))
        decreases |input| - pos
      {
        Advance();
      }
    }

    /** The digit loops of `parse_number`. */
    method SkipDigits()
      requires pos <= |input|
      modifies this
      ensures pos == DigitsEnd(input, old(pos))
    {
      while pos < |input| && IsDigit(input[pos])
        invariant old(pos) <= pos <= |input|
        invariant DigitsEnd(input, pos) == DigitsEnd(input, old(pos))
        decreases |input| - pos
      {
        Advance();
      }
    }

    method ParseValue() returns (r: Result<Value, string>)
      requires pos <= |input|
      modifies this
      ensures Agrees(r, pos, ValueAt(input, old(pos)))
      decreases |input| - pos, 1
    {
      SkipWhitespace();
      match CurrentChar() {
        case None =>
          r := Err(END);
        case Some(c) =>
          if c == '"' {
            r := ParseString();
          } else if c == '{' {
            r := ParseObject();
          } else if c == '[' {
            r := ParseArray();
          } else if c == 't' || c == 'f' {
            r := ParseBoolean();
          } else if c == 'n' {
            r := ParseNull();
          } else if IsDigit(c) || c == '-' {
            r := ParseNumber();
          } else {
            r := Err("Unexpected character: " + [c]);
          }
      }
    }

    /** `parse_string`: skip the opening character, then decode up to the closing quote. */
    method ParseString() returns (r: Result<Value, string>)
      requires pos <= |input|
      modifies this
      ensures StringAt(input, old(pos)).Ok? ==>
        r == Ok(Str(StringAt(input, old(pos)).value.0)) && pos == StringAt(input, old(pos)).value.1
      ensures StringAt(input, old(pos)).Err? ==> r == Err(StringAt(input, old(pos)).error)
    {
      ghost var start := pos;
      Advance();
      var result := "";
      while pos < |input|
        invariant start < pos <= |input| + 1
        invariant StringBody(input, pos, result) == StringAt(input, start)
        decreases |input| + 1 - pos
      {
        var ch := input[pos];
        if ch == '"' {
          Advance();
          return Ok(Str(result));
        } else if ch == '\\' {
          Advance();
          match CurrentChar() {
            case None =>
              return Err(BAD_ESCAPE);
            case Some(e) =>
              if e == 'u' {
                Advance();
                var code := ReadHex4();
                if code.None? {
                  return Err(BAD_UNICODE);
                }
                result := result + CodePointText(code.value);
              } else {
                match SimpleEscape(e) {
                  case None =>
                    return Err(BAD_ESCAPE);
                  case Some(c) =>
                    result := result + [c];
                }
                Advance();
              }
          }
        } else {
          result := result + [ch];
          Advance();
        }
      }
      return Err(UNTERMINATED);
    }

    /** The four-digit loop of a `\u` escape: each character must be a hex digit. */
    method ReadHex4() returns (code: Option<nat>)
      requires pos <= |input|
      modifies this
      ensures code == UnicodeEscape(input, old(pos))
      ensures code.Some? ==> pos == old(pos) + 4
    {
      ghost var q := pos;
      var hex := "";
      for k := 0 to 4
        invariant pos == q + k <= |input|
        invariant hex == input[q..q + k] && Radix.AllHexDigits(hex)
      {
        match CurrentChar() {
          case None =>
            return None;
          case Some(h) =>
            if !Radix.IsHexDigit(h) {
              assert !(q + 4 <= |input| && Radix.AllHexDigits(input[q..q + 4])) by {
                if q + 4 <= |input| {
                  assert input[q..q + 4][k] == h;
                }
              }
              return None;
            }
            hex := hex + [h];
            Advance();
        }
      }
      assert Radix.Pow16(4) == 0x1_0000;
      return Some(Radix.HexNumber(hex));
    }

    method ParseObject() returns (r: Result<Value, string>)
      requires pos < |input| && input[pos] == '{'
      modifies this
      ensures Agrees(r, pos, ObjectAt(input, old(pos)))
      decreases |input| - pos, 0
    {
      hide ObjectAt, MembersAt, MemberValueAt, ValueAt, StringAt, SkipWs;
      ObjectEntry(input, pos);
      Advance();
      var members: map<string, Value> := map[];
      SkipWhitespace();
      if CurrentChar() == Some('}') {
        Advance();
        return Ok(Object(members));
      }
      while true
        invariant old(pos) < pos <= |input|
        invariant MembersAt(input, pos, members) == ObjectAt(input, old(pos))
        decreases |input| - pos
      {
        var key := ParseKey(members);
        if key.Err? {
          return Err(key.error);
        }
        MemberValueStep(input, pos, key.value, members);
        var value := ParseValue();
        if value.Err? {
          return Err(value.error);
        }
        members := members[key.value := value.value];
        SkipWhitespace();
        if CurrentChar() == Some(',') {
          Advance();
        } else if CurrentChar() == Some('}') {
          Advance();
          return Ok(Object(members));
        } else {
          return Err(OBJECT_END);
        }
      }
    }

    /** The key of one member of `parse_object` and the `:` after it. */
    method ParseKey(ghost props: map<string, Value>) returns (key: Result<string, string>)
      requires pos <= |input|
      modifies this
      ensures key.Err? ==> MembersAt(input, old(pos), props) == Err(key.error)
      ensures key.Ok? ==> old(pos) < pos <= |input|
      ensures key.Ok? ==> MembersAt(input, old(pos), props) == MemberValueAt(input, pos, key.value, props)
    {
      hide MembersAt, MemberValueAt, StringAt, SkipWs;
      MembersStep(input, pos, props);
      SkipWhitespace();
      var text := ParseString();
      if text.Err? {
        return Err(text.error);
      }
      SkipWhitespace();
      if CurrentChar() != Some(':') {
        return Err(EXPECTED_COLON);
      }
      Advance();
      key := Ok(text.value.s);
    }

    method ParseArray() returns (r: Result<Value, string>)
      requires pos < |input| && input[pos] == '['
      modifies this
      ensures Agrees(r, pos, ArrayAt(input, old(pos)))
      decreases |input| - pos, 0
    {
      hide ArrayAt, ElementsAt, ValueAt, SkipWs;
      ArrayEntry(input, pos);
      Advance();
      var elements: seq<Value> := [];
      SkipWhitespace();
      if CurrentChar() == Some(']') {
        Advance();
        return Ok(Array(elements));
      }
      while true
        invariant old(pos) < pos <= |input|
        invariant ElementsAt(input, pos, elements) == ArrayAt(input, old(pos))
        decreases |input| - pos
      {
        ElementsStep(input, pos, elements);
        var value := ParseValue();
        if value.Err? {
          return Err(value.error);
        }
        elements := elements + [value.value];
        SkipWhitespace();
        if CurrentChar() == Some(',') {
          Advance();
        } else if CurrentChar() == Some(']') {
          Advance();
          return Ok(Array(elements));
        } else {
          return Err(ARRAY_END);
        }
      }
    }

    method ParseBoolean() returns (r: Result<Value, string>)
      modifies this
      ensures Agrees(r, pos, BooleanAt(input, old(pos)))
    {
      if StartsWith(input, pos, "true") {
        pos := pos + 4;
        r := Ok(Boolean(true));
      } else if StartsWith(input, pos, "false") {
        pos := pos + 5;
        r := Ok(Boolean(false));
      } else {
        r := Err(BAD_BOOLEAN);
      }
    }

    method ParseNull() returns (r: Result<Value, string>)
      modifies this
      ensures Agrees(r, pos, NullAt(input, old(pos)))
    {
      if StartsWith(input, pos, "null") {
        pos := pos + 4;
        r := Ok(Null);
      } else {
        r := Err(BAD_NULL);
      }
    }

    method ParseNumber() returns (r: Result<Value, string>)
      requires pos < |input|
      modifies this
      ensures Agrees(r, pos, NumberAt(input, old(pos)))
    {
      hide DigitsEnd, FractionAt;
      var start := pos;
      if CurrentChar() == Some('-') {
        Advance();
      }
      var wholeStart := pos;
      if !(pos < |input| && IsDigit(input[pos])) {
        return Err(BAD_NUMBER);
      }
      SkipDigits();
      DigitsAreDigits(input, wholeStart, pos);
      assert NumberAt(input, start) == FractionAt(input, start, wholeStart, pos);
      r := ParseFraction(start, wholeStart);
    }

    /** `parse_number` after the integer digits `input[wholeStart..pos]`. */
    method ParseFraction(start: nat, wholeStart: nat) returns (r: Result<Value, string>)
      requires start <= wholeStart < pos <= |input| && BigNum.AllDigits(input[wholeStart..pos])
      modifies this
      ensures Agrees(r, pos, FractionAt(input, start, wholeStart, old(pos)))
    {
      hide DigitsEnd, FractionAt, ExponentAt;
      var wholeEnd := pos;
      FractionSteps(input, start, wholeStart, wholeEnd);
      var isFloat := false;
      var fraction := "";
      if CurrentChar() == Some('.') {
        isFloat := true;
        Advance();
        if !(pos < |input| && IsDigit(input[pos])) {
          return Err(NO_FRACTION);
        }
        SkipDigits();
        fraction := input[wholeEnd + 1..pos];
      }
      r := ParseExponent(start, wholeStart, wholeEnd, fraction, isFloat);
    }

    /** `parse_number` after the integer digits and the `fraction` digits. */
    method ParseExponent(start: nat, wholeStart: nat, wholeEnd: nat, fraction: string, isFloat: bool) returns (r: Result<Value, string>)
      requires start <= wholeStart < wholeEnd <= pos <= |input|
      requires BigNum.AllDigits(input[wholeStart..wholeEnd]) && BigNum.AllDigits(fraction)
      modifies this
      ensures Agrees(r, pos, ExponentAt(input, start, wholeStart, wholeEnd, fraction, isFloat, old(pos)))
    {
      hide Scientific, Ast.ParseI64, DigitsEnd, ExponentAt;
      ExponentSteps(input, start, wholeStart, wholeEnd, fraction, isFloat, pos);
      var floating := isFloat;
      var exponent := "";
      var expNegative := false;
      if CurrentChar() == Some('e') || CurrentChar() == Some('E') {
        floating := true;
        Advance();
        if CurrentChar() == Some('+') || CurrentChar() == Some('-') {
          expNegative := CurrentChar() == Some('-');
          Advance();
        }
        if !(pos < |input| && IsDigit(input[pos])) {
          return Err(NO_EXPONENT);
        }
        var expStart := pos;
        SkipDigits();
        exponent := input[expStart..pos];
      }
      if floating {
        r := Ok(Float(Scientific(input[start] == '-', input[wholeStart..wholeEnd], fraction, expNegative, exponent)));
      } else {
        match Ast.ParseI64(input[start..pos]) {
          case Some(i) => r := Ok(Integer(i));
          case None => r := Err(BAD_INTEGER);
        }
      }
    }
  }

  /** How `FractionAt` continues: the fraction digits, if any, then the exponent part. */
  lemma FractionSteps(input: seq<char>, p: nat, a: nat, b: nat)
    requires p <= a < b <= |input| && BigNum.AllDigits(input[a..b])
    ensures b < |input| && input[b] == '.' && !(b + 1 < |input| && IsDigit(input[b + 1])) ==>
      FractionAt(input, p, a, b) == Err(NO_FRACTION)
    ensures b < |input| && input[b] == '.' && b + 1 < |input| && IsDigit(input[b + 1]) ==>
      var c := DigitsEnd(input, b + 1);
      BigNum.AllDigits(input[b + 1..c]) && FractionAt(input, p, a, b) == ExponentAt(input, p, a, b, input[b + 1..c], true, c)
    ensures !(b < |input| && input[b] == '.') ==> FractionAt(input, p, a, b) == ExponentAt(input, p, a, b, "", false, b)
  {
    if b < |input| && input[b] == '.' && b + 1 < |input| && IsDigit(input[b + 1]) {
      DigitsAreDigits(input, b + 1, DigitsEnd(input, b + 1));
    }
  }

  /** How `ExponentAt` ends: an exponent needs a digit after its optional sign. */
  lemma ExponentSteps(input: seq<char>, p: nat, a: nat, b: nat, fraction: string, dot: bool, c: nat)
    requires p <= a < b <= c <= |input| && BigNum.AllDigits(input[a..b]) && BigNum.AllDigits(fraction)
    ensures var exp := c < |input| && (input[c] == 'e' || input[c] == 'E');
      var sign := exp && c + 1 < |input| && (input[c + 1] == '+' || input[c + 1] == '-');
      var d := if sign then c + 2 else c + 1;
      (exp && !(d < |input| && IsDigit(input[d])) ==> ExponentAt(input, p, a, b, fraction, dot, c) == Err(NO_EXPONENT)) &&
      (exp && d < |input| && IsDigit(input[d]) ==>
        var e := DigitsEnd(input, d);
        BigNum.AllDigits(input[d..e]) &&
        ExponentAt(input, p, a, b, fraction, dot, c) ==
          Ok((Float(Scientific(input[p] == '-', input[a..b], fraction, sign && input[c + 1] == '-', input[d..e])), e))) &&
      (!exp && dot ==> ExponentAt(input, p, a, b, fraction, dot, c) == Ok((Float(Scientific(input[p] == '-', input[a..b], fraction, false, "")), c))) &&
      (!exp && !dot ==>
        ExponentAt(input, p, a, b, fraction, dot, c) ==
          (match Ast.ParseI64(input[p..c]) case Some(i) => Ok((Integer(i), c)) case None => Err(BAD_INTEGER)))
  {
    var exp := c < |input| && (input[c] == 'e' || input[c] == 'E');
    var sign := exp && c + 1 < |input| && (input[c + 1] == '+' || input[c + 1] == '-');
    var d := if sign then c + 2 else c + 1;
    if exp && d < |input| && IsDigit(input[d]) {
      DigitsAreDigits(input, d, DigitsEnd(input, d));
    }
  }

  // ---------------------------------------------------------------------
  // The writer
  // ---------------------------------------------------------------------

  /** Unicode general category Cc, what `char::is_control` tests. */
  predicate IsControl(c: char)
  {
    c as int < 0x20 || 0x7F <= c as int < 0xA0
  }

  /** One character of `escape_json_string`. */
  function EscapeChar(c: char): (s: string)
    ensures |s| >= 1
    ensures |s| == 1 <==> !(c in {'"', '\\'} || IsControl(c))
    ensures |s| == 1 ==> s == [c]
    ensures |s| > 1 ==> s[0] == '\\'
  {
    if c == '"' then "\\\""
    else if c == '\\' then "\\\\"
    else if c == '\n' then "\\n"
    else if c == '\r' then "\\r"
    else if c == '\t' then "\\t"
    else if c == '\U{8}' then "\\b"
    else if c == '\U{C}' then "\\f"
    else if IsControl(c) then
      assert Radix.Pow16(4) == 0x1_0000;
      "\\u" + Radix.HexDigits(c as int, 4)
    else [c]
  }

  /** `escape_json_string`: every character escaped in turn. */
  function Escape(s: string): (r: string)
    ensures |r| >= |s|
  {
    if |s| == 0 then "" else EscapeChar(s[0]) + Escape(s[1..])
  }

  /** A string value as JSON: the escaped text in double quotes. */
  function Quote(s: string): (r: string)
    ensures |r| >= 2 && r[0] == '"' && r[|r| - 1] == '"'
  {
    "\"" + Escape(s) + "\""
  }

  /** `"  ".repeat(n)`. */
  function Indent(n: nat): (s: string)
    ensures |s| == 2 * n
    ensures forall i :: 0 <= i < |s| ==> s[i] == ' '
  {
    if n == 0 then "" else "  " + Indent(n - 1)
  }

  /** What precedes an element or member: `,` unless it is the first, then a new line and indentation when pretty. */
  function Opening(first: bool, pretty: bool, indent: nat): string
  {
    (if first then "" else ",") + (if pretty then "\n" + Indent(indent) else "")
  }

  /** A non-empty container: its members between the brackets, the closing one on its own line when pretty. */
  function Enclose(open: char, body: string, pretty: bool, indent: nat, close: char): string
  {
    [open] + body + (if pretty then "\n" + Indent(indent) else "") + [close]
  }

  /** The values `stringify_json` writes: no big integer and no function anywhere inside. */
  predicate Writable(v: Value)
    decreases v
  {
    match v
    case Null => true
    case Boolean(_) => true
    case Integer(_) => true
    case Float(_) => true
    case Str(_) => true
    case Array(items) => forall i :: 0 <= i < |items| ==> Writable(items[i])
    case Object(props) => forall k :: k in props ==> Writable(props[k])
    case _ => false
  }

  /**
   * `stringify_json(v, pretty, indent)`: scalars as JSON text, containers
   * with their members in order (an object's keys in one fixed order), and
   * an error for anything that is not `Writable`.
   */
  function Stringify(v: Value, pretty: bool, indent: nat): (r: Result<string, string>)
    ensures r.Ok? <==> Writable(v)
    ensures r.Err? ==> r.error == NOT_JSON
    decreases v, 3
  {
    match v
    case Null => Ok("null")
    case Boolean(b) => Ok(if b then "true" else "false")
    case Integer(i) => Ok(BigNum.IntToString(i))
    case Float(f) => Ok(Ast.FloatText(f))
    case Str(s) => Ok(Quote(s))
    case Array(_) => ArrayJson(v, pretty, indent)
    case Object(_) => ObjectJson(v, pretty, indent)
    case _ => Err(NOT_JSON)
  }

  /** The array arm of `stringify_json`: `[]`, or the elements between brackets. */
  function ArrayJson(v: Value, pretty: bool, indent: nat): (r: Result<string, string>)
    requires v.Array?
    ensures r.Ok? <==> Writable(v)
    ensures r.Err? ==> r.error == NOT_JSON
    decreases v, 2
  {
    if |v.elements| == 0 then Ok("[]")
    else
      match ItemsJson(v, v.elements, pretty, indent + 1, true)
      case Err(e) => Err(e)
      case Ok(body) => Ok(Enclose('[', body, pretty, indent, ']'))
  }

  /** The object arm of `stringify_json`: `{}`, or the members between braces. */
  function ObjectJson(v: Value, pretty: bool, indent: nat): (r: Result<string, string>)
    requires v.Object?
    ensures r.Ok? <==> Writable(v)
    ensures r.Err? ==> r.error == NOT_JSON
    decreases v, 2
  {
    var keys := Strings.SortedStrings(v.properties.Keys);
    WritableMembers(v, keys);
    if |v.properties| == 0 then Ok("{}")
    else
      match EntriesJson(v, keys, pretty, indent + 1, true)
      case Err(e) => Err(e)
      case Ok(body) => Ok(Enclose('{', body, pretty, indent, '}'))
  }

  /** The values of an object under the listed keys are all writable. */
  predicate WritableUnder(v: Value, keys: seq<string>)
    requires v.Object? && forall i :: 0 <= i < |keys| ==> keys[i] in v.properties
  {
    forall i :: 0 <= i < |keys| ==> Writable(v.properties[keys[i]])
  }

  /** An object is writable when the values under all of its keys, listed in any order, are. */
  lemma WritableMembers(v: Value, keys: seq<string>)
    requires v.Object? && forall k :: k in keys <==> k in v.properties
    ensures Writable(v) <==> WritableUnder(v, keys)
  {
    if forall i :: 0 <= i < |keys| ==> Writable(v.properties[keys[i]]) {
      forall k | k in v.properties
        ensures Writable(v.properties[k])
      {
        assert k in keys;
        var i :| 0 <= i < |keys| && keys[i] == k;
      }
    }
  }

  /** The element loop of `stringify_json`, one element after another. */
  function ItemsJson(parent: Value, items: seq<Value>, pretty: bool, indent: nat, first: bool): (r: Result<string, string>)
    requires forall i :: 0 <= i < |items| ==> items[i] < parent
    ensures r.Ok? <==> forall i :: 0 <= i < |items| ==> Writable(items[i])
    ensures r.Err? ==> r.error == NOT_JSON
    decreases parent, 1, |items|
  {
    if |items| == 0 then Ok("")
    else
      match Stringify(items[0], pretty, indent)
      case Err(e) => Err(e)
      case Ok(t) =>
        match ItemsJson(parent, items[1..], pretty, indent, false)
        case Err(e) =>
          assert forall i :: 1 <= i < |items| ==> items[1..][i - 1] == items[i];
          Err(e)
        case Ok(rest) => Ok(Opening(first, pretty, indent) + t + rest)
  }

  /** The member loop of `stringify_json` over the keys in `keys`: quoted key, `:`, a space when pretty, the value. */
  function EntriesJson(parent: Value, keys: seq<string>, pretty: bool, indent: nat, first: bool): (r: Result<string, string>)
    requires parent.Object? && forall i :: 0 <= i < |keys| ==> keys[i] in parent.properties
    ensures r.Ok? <==> WritableUnder(parent, keys)
    ensures r.Err? ==> r.error == NOT_JSON
    decreases parent, 1, |keys|
  {
    if |keys| == 0 then Ok("")
    else
      match Stringify(parent.properties[keys[0]], pretty, indent)
      case Err(e) => Err(e)
      case Ok(t) =>
        match EntriesJson(parent, keys[1..], pretty, indent, false)
        case Err(e) =>
          assert forall i :: 1 <= i < |keys| ==> keys[1..][i - 1] == keys[i];
          Err(e)
        case Ok(rest) =>
          Ok(Opening(first, pretty, indent) + Quote(keys[0]) + ":" + (if pretty then " " else "") + t + rest)
  }

  // ---------------------------------------------------------------------
  // The builtins
  // ---------------------------------------------------------------------

  function Fail(message: string): Result<Value, Errors.FlowError>
  {
    Err(Errors.RuntimeErrorNoLine(message))
  }

  /** `json_parse`: one string argument, parsed; a parse error is reported with a prefix. */
  function JsonParse(args: seq<Value>): (r: Result<Value, Errors.FlowError>)
    ensures |args| != 1 ==> r == Fail("json_parse expects 1 argument")
    ensures |args| == 1 && !args[0].Str? ==> r == Fail("json_parse expects string argument")
    ensures |args| == 1 && args[0].Str? ==> (r.Ok? <==> ParseJson(args[0].s).Ok?)
    ensures |args| == 1 && args[0].Str? && r.Ok? ==> r.value == ParseJson(args[0].s).value
  {
    if |args| != 1 then Fail("json_parse expects 1 argument")
    else match args[0]
      case Str(s) =>
        (match ParseJson(s)
         case Ok(v) => Ok(v)
         case Err(e) => Fail("JSON parse error: " + e))
      case _ => Fail("json_parse expects string argument")
  }

  /** `json_stringify`: the first argument as JSON, pretty when a second argument is `true`. */
  function JsonStringify(args: seq<Value>): (r: Result<Value, Errors.FlowError>)
    ensures |args| == 0 ==> r == Fail("json_stringify expects at least 1 argument")
    ensures |args| > 0 ==> (r.Ok? <==> Writable(args[0]))
    ensures |args| > 0 && r.Err? ==> r == Fail("JSON stringify error: " + NOT_JSON)
  {
    if |args| == 0 then Fail("json_stringify expects at least 1 argument")
    else
      var pretty := |args| > 1 && args[1].Boolean? && args[1].b;
      match Stringify(args[0], pretty, 0)
      case Ok(text) => Ok(Str(text))
      case Err(e) => Fail("JSON stringify error: " + e)
  }
}
