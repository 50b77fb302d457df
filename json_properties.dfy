/**
 * Properties of the JSON library: what `json_stringify` writes,
 * `json_parse` reads back, for every value without floats whose integers
 * fit in 64 bits, in the compact and in the pretty layout; and the
 * behaviours in which the reader is more lenient than RFC 8259.
 */
module JsonProperties {
  import opened Wrappers
  import opened Values
  import opened Json
  import BigNum
  import Ast
  import Radix
  import Lexing
  import Strings

  // ---------------------------------------------------------------------
  // Reading text at a position
  // ---------------------------------------------------------------------

  lemma StartsSplit(input: seq<char>, p: nat, a: string, b: string)
    requires StartsWith(input, p, a + b)
    ensures StartsWith(input, p, a) && StartsWith(input, p + |a|, b)
    ensures p + |a| + |b| <= |input|
  {
    assert input[p..p + |a|] == (a + b)[..|a|];
    assert input[p + |a|..p + |a| + |b|] == (a + b)[|a|..];
  }

  lemma StartsChar(input: seq<char>, p: nat, t: string, i: nat)
    requires StartsWith(input, p, t) && i < |t|
    ensures input[p + i] == t[i]
  {
    assert input[p..p + |t|][i] == t[i];
  }

  lemma StartsJoin(input: seq<char>, p: nat, a: string, b: string)
    requires StartsWith(input, p, a) && StartsWith(input, p + |a|, b)
    ensures StartsWith(input, p, a + b)
  {
    assert input[p..p + |a| + |b|] == input[p..p + |a|] + input[p + |a|..p + |a| + |b|];
  }

  /** What follows the opening bracket of `open + body + closing + close`. */
  lemma StartsInner(input: seq<char>, p: nat, open: string, body: string, closing: string, close: string)
    requires StartsWith(input, p, open + body + closing + close)
    ensures StartsWith(input, p + |open|, body + closing + close)
  {
    StartsSplit(input, p, open + body + closing, close);
    StartsSplit(input, p, open + body, closing);
    StartsSplit(input, p, open, body);
    StartsJoin(input, p + |open|, body, closing);
    StartsJoin(input, p + |open|, body + closing, close);
  }

  predicate AllWhitespace(w: string)
  {
    forall i :: 0 <= i < |w| ==> Lexing.IsWhitespace(w[i])
  }

  /** Whitespace written at `p` and followed by something else is skipped exactly. */
  lemma {:induction false} SkipWsOver(input: seq<char>, p: nat, w: string)
    requires StartsWith(input, p, w) && AllWhitespace(w)
    requires p + |w| == |input| || !Lexing.IsWhitespace(input[p + |w|])
    ensures SkipWs(input, p) == p + |w|
    decreases |w|
  {
    if |w| > 0 {
      StartsChar(input, p, w, 0);
      StartsSplit(input, p, w[..1], w[1..]);
      assert w[..1] + w[1..] == w;
      SkipWsOver(input, p + 1, w[1..]);
    }
  }

  /** A run of digits followed by a non-digit ends where it is written to end. */
  lemma {:induction false} DigitsEndAt(input: seq<char>, a: nat, e: nat)
    requires a <= e <= |input| && forall j :: a <= j < e ==> IsDigit(input[j])
    requires e == |input| || !IsDigit(input[e])
    ensures DigitsEnd(input, a) == e
    decreases e - a
  {
    if a < e {
      DigitsEndAt(input, a + 1, e);
    }
  }

  // ---------------------------------------------------------------------
  // Strings
  // ---------------------------------------------------------------------

  /** A two-character escape `\x` is read as the character it stands for. */
  lemma ShortEscapeRead(c: char, input: seq<char>, p: nat, acc: string)
    requires |EscapeChar(c)| == 2 && StartsWith(input, p, EscapeChar(c))
    ensures StringBody(input, p, acc) == StringBody(input, p + 2, acc + [c])
  {
    StartsChar(input, p, EscapeChar(c), 0);
    StartsChar(input, p, EscapeChar(c), 1);
  }

  /** A `\uXXXX` escape of a control character is read as that character. */
  lemma ControlEscapeRead(c: char, input: seq<char>, p: nat, acc: string)
    requires |EscapeChar(c)| == 6 && StartsWith(input, p, EscapeChar(c))
    ensures StringBody(input, p, acc) == StringBody(input, p + 6, acc + [c])
  {
    assert Radix.Pow16(4) == 0x1_0000;
    var hex := Radix.HexDigits(c as int, 4);
    assert EscapeChar(c) == "\\u" + hex;
    StartsChar(input, p, EscapeChar(c), 0);
    StartsChar(input, p, EscapeChar(c), 1);
    StartsSplit(input, p, "\\u", hex);
    Radix.HexDigitsValue(c as int, 4);
    assert UnicodeEscape(input, p + 2) == Some(c as int);
    assert CodePointText(c as int) == [c];
  }

  /** One escaped character is read back as itself. */
  lemma EscapeCharRead(c: char, input: seq<char>, p: nat, acc: string)
    requires StartsWith(input, p, EscapeChar(c))
    ensures StringBody(input, p, acc) == StringBody(input, p + |EscapeChar(c)|, acc + [c])
  {
    var e := EscapeChar(c);
    if |e| == 1 {
      StartsChar(input, p, e, 0);
    } else if |e| == 2 {
      ShortEscapeRead(c, input, p, acc);
    } else {
      ControlEscapeRead(c, input, p, acc);
    }
  }

  /** The closing quote ends the string. */
  lemma ClosingQuoteRead(input: seq<char>, p: nat, acc: string)
    requires StartsWith(input, p, "\"")
    ensures StringBody(input, p, acc) == Ok((acc, p + 1))
  {
    StartsChar(input, p, "\"", 0);
  }

  lemma EscapeCons(s: string)
    requires |s| > 0
    ensures Escape(s) + "\"" == EscapeChar(s[0]) + (Escape(s[1..]) + "\"")
  {
  }

  /** One step of `EscapeRead`: the first character, then the rest as read by induction. */
  lemma EscapeReadStep(s: string, input: seq<char>, p: nat, acc: string)
    requires |s| > 0 && StartsWith(input, p, Escape(s) + "\"")
    requires StartsWith(input, p + |EscapeChar(s[0])|, Escape(s[1..]) + "\"") ==>
      StringBody(input, p + |EscapeChar(s[0])|, acc + [s[0]]) ==
        Ok((acc + [s[0]] + s[1..], p + |EscapeChar(s[0])| + |Escape(s[1..])| + 1))
    ensures StringBody(input, p, acc) == Ok((acc + s, p + |Escape(s)| + 1))
  {
    hide StringBody, Escape, EscapeChar;
    var e := EscapeChar(s[0]);
    EscapeCons(s);
    StartsSplit(input, p, e, Escape(s[1..]) + "\"");
    EscapeCharRead(s[0], input, p, acc);
    assert |Escape(s)| == |e| + |Escape(s[1..])| by {
      assert |Escape(s) + "\""| == |e| + |Escape(s[1..]) + "\""|;
    }
    assert acc + [s[0]] + s[1..] == acc + s;
  }

  /** The empty string: only the closing quote follows. */
  lemma EmptyEscapeRead(s: string, input: seq<char>, p: nat, acc: string)
    requires |s| == 0 && StartsWith(input, p, Escape(s) + "\"")
    ensures StringBody(input, p, acc) == Ok((acc + s, p + |Escape(s)| + 1))
  {
    assert Escape(s) + "\"" == "\"" && acc + s == acc;
    ClosingQuoteRead(input, p, acc);
  }

  /** An escaped string and its closing quote are read back as the string. */
  lemma {:induction false} EscapeRead(s: string, input: seq<char>, p: nat, acc: string)
    requires StartsWith(input, p, Escape(s) + "\"")
    ensures StringBody(input, p, acc) == Ok((acc + s, p + |Escape(s)| + 1))
    decreases |s|
  {
    hide StringBody, Escape, EscapeChar, StartsWith;
    if |s| == 0 {
      EmptyEscapeRead(s, input, p, acc);
    } else {
      if StartsWith(input, p + |EscapeChar(s[0])|, Escape(s[1..]) + "\"") {
        EscapeRead(s[1..], input, p + |EscapeChar(s[0])|, acc + [s[0]]);
      }
      EscapeReadStep(s, input, p, acc);
    }
  }

  /** `parse_string` reads a quoted string back: the partner of `Quote`. */
  lemma QuoteRead(s: string, input: seq<char>, p: nat)
    requires StartsWith(input, p, Quote(s))
    ensures StringAt(input, p) == Ok((s, p + |Quote(s)|))
  {
    assert Quote(s) == "\"" + (Escape(s) + "\"");
    StartsSplit(input, p, "\"", Escape(s) + "\"");
    EscapeRead(s, input, p + 1, "");
  }

  // ---------------------------------------------------------------------
  // Numbers
  // ---------------------------------------------------------------------

  /** Nothing a number could continue with follows at `e`. */
  predicate Ends(input: seq<char>, e: nat)
  {
    e <= |input| && (e == |input| || !(IsDigit(input[e]) || input[e] in {'.', 'e', 'E'}))
  }

  /** The decimal text of an i64 is read back as that integer. */
  lemma NumberRead(i: int, input: seq<char>, p: nat)
    requires Ast.IsI64(i) && StartsWith(input, p, BigNum.IntToString(i))
    requires Ends(input, p + |BigNum.IntToString(i)|)
    ensures p < |input|
    ensures NumberAt(input, p) == Ok((Integer(i), p + |BigNum.IntToString(i)|))
  {
    hide Scientific;
    var t := BigNum.IntToString(i);
    BigNum.IntToStringRoundTrip(i);
    hide BigNum.IntToString;
    var body := if t[0] == '-' then t[1..] else t;
    assert BigNum.AllDigits(body);
    StartsChar(input, p, t, 0);
    var a := if input[p] == '-' then p + 1 else p;
    var e := p + |t|;
    forall j | a <= j < e
      ensures IsDigit(input[j])
    {
      StartsChar(input, p, t, j - p);
      assert t[j - p] == body[j - a];
      assert BigNum.IsDigit(body[j - a]);
    }
    DigitsEndAt(input, a, e);
    DigitsAreDigits(input, a, e);
    hide FractionAt, ExponentAt, Ast.ParseI64, DigitsEnd;
    assert NumberAt(input, p) == FractionAt(input, p, a, e);
    FractionSteps(input, p, a, e);
    ExponentSteps(input, p, a, e, "", false, e);
    assert input[p..e] == t;
    Ast.ParseI64RoundTrip(i);
  }

  // ---------------------------------------------------------------------
  // Values
  // ---------------------------------------------------------------------

  /** The values whose JSON text reads back as the same value: no float anywhere and every integer an i64. */
  predicate Exact(v: Value)
    ensures Exact(v) ==> Writable(v)
    decreases v
  {
    match v
    case Null => true
    case Boolean(_) => true
    case Integer(i) => Ast.IsI64(i)
    case Str(_) => true
    case Array(items) => forall i :: 0 <= i < |items| ==> Exact(items[i])
    case Object(props) => forall k :: k in props ==> Exact(props[k])
    case _ => false
  }

  /** What `json_stringify` writes for a value. */
  function Text(v: Value, pretty: bool, indent: nat): string
    requires Exact(v)
  {
    Stringify(v, pretty, indent).value
  }

  /** The characters a value's text can start with. */
  predicate Starter(c: char)
  {
    c in {'n', 't', 'f', '"', '[', '{', '-'} || IsDigit(c)
  }

  lemma FirstChar(v: Value, pretty: bool, indent: nat)
    requires Exact(v)
    ensures |Text(v, pretty, indent)| > 0 && Starter(Text(v, pretty, indent)[0])
    ensures !Lexing.IsWhitespace(Text(v, pretty, indent)[0])
    ensures v.Integer? ==> IsDigit(Text(v, pretty, indent)[0]) || Text(v, pretty, indent)[0] == '-'
    ensures v.Array? ==> Text(v, pretty, indent)[0] == '['
    ensures v.Object? ==> Text(v, pretty, indent)[0] == '{'
  {
    hide Text, Stringify, ItemsJson, EntriesJson, Closing, BigNum.IntToString, Quote;
    TextScalar(v, pretty, indent);
    match v
    case Null =>
    case Boolean(b) =>
    case Integer(i) =>
      BigNum.IntToStringRoundTrip(i);
    case Str(s) =>
    case Array(items) =>
      ArrayText(v, pretty, indent);
    case Object(props) =>
      ObjectText(v, pretty, indent);
  }

  /** The line break and indentation of the pretty layout, or nothing. */
  function Closing(pretty: bool, indent: nat): (w: string)
    ensures AllWhitespace(w)
    ensures |w| > 0 ==> w[0] == '\n'
  {
    if pretty then "\n" + Indent(indent) else ""
  }

  /** A value's text at `p`, after whitespace `w` and followed by something a number cannot continue with, is read back as the value. */
  lemma {:induction false} ValueRead(v: Value, pretty: bool, indent: nat, input: seq<char>, p: nat, w: string)
    requires Exact(v) && AllWhitespace(w)
    requires StartsWith(input, p, w + Text(v, pretty, indent))
    requires Ends(input, p + |w| + |Text(v, pretty, indent)|)
    ensures ValueAt(input, p) == Ok((v, p + |w| + |Text(v, pretty, indent)|))
    decreases v, 2
  {
    hide ValueAt, ValueFrom, Text, Stringify, ArrayAt, ObjectAt, NumberAt, StringAt, BigNum.IntToString, Quote,
      StartsWith, Lexing.IsWhitespace;
    var t := Text(v, pretty, indent);
    StartsSplit(input, p, w, t);
    FirstChar(v, pretty, indent);
    StartsChar(input, p + |w|, t, 0);
    SkipWsOver(input, p, w);
    var q := p + |w|;
    TextScalar(v, pretty, indent);
    ValueAtFrom(input, p);
    match v
    case Null =>
      FromNull(input, q);
    case Boolean(b) =>
      FromBoolean(input, q, b);
    case Integer(i) =>
      assert t == BigNum.IntToString(i);
      FromNumber(input, q);
      NumberRead(i, input, q);
    case Str(s) =>
      FromString(input, q);
      QuoteRead(s, input, q);
    case Array(_) =>
      FromArray(input, q);
      ArrayRead(v, pretty, indent, input, q);
    case Object(_) =>
      FromObject(input, q);
      ObjectRead(v, pretty, indent, input, q);
  }

  /** What `json_stringify` writes for a scalar. */
  lemma TextScalar(v: Value, pretty: bool, indent: nat)
    requires Exact(v)
    ensures v.Null? ==> Text(v, pretty, indent) == "null"
    ensures v.Boolean? ==> Text(v, pretty, indent) == if v.b then "true" else "false"
    ensures v.Integer? ==> Text(v, pretty, indent) == BigNum.IntToString(v.i)
    ensures v.Str? ==> Text(v, pretty, indent) == Quote(v.s)
  {
  }

  /** `ValueAt` once the whitespace before `q` is skipped. */
  function ValueFrom(input: seq<char>, q: nat): Parse<Value>
    requires q < |input|
  {
    var c := input[q];
    if c == '"' then
      match StringAt(input, q)
      case Err(e) => Err(e)
      case Ok(res) => Ok((Str(res.0), res.1))
    else if c == '{' then ObjectAt(input, q)
    else if c == '[' then ArrayAt(input, q)
    else if c == 't' || c == 'f' then BooleanAt(input, q)
    else if c == 'n' then NullAt(input, q)
    else if IsDigit(c) || c == '-' then NumberAt(input, q)
    else Err("Unexpected character: " + [c])
  }

  lemma ValueAtFrom(input: seq<char>, p: nat)
    requires p <= |input| && SkipWs(input, p) < |input|
    ensures ValueAt(input, p) == ValueFrom(input, SkipWs(input, p))
  {
  }

  lemma FromNull(input: seq<char>, q: nat)
    requires StartsWith(input, q, "null")
    ensures q < |input| && ValueFrom(input, q) == Ok((Null, q + 4))
  {
    StartsChar(input, q, "null", 0);
  }

  lemma FromBoolean(input: seq<char>, q: nat, b: bool)
    requires StartsWith(input, q, if b then "true" else "false")
    ensures q < |input| && ValueFrom(input, q) == Ok((Boolean(b), q + |if b then "true" else "false"|))
  {
    StartsChar(input, q, if b then "true" else "false", 0);
  }

  lemma FromNumber(input: seq<char>, q: nat)
    requires q < |input| && (IsDigit(input[q]) || input[q] == '-')
    ensures ValueFrom(input, q) == NumberAt(input, q)
  {
  }

  lemma FromString(input: seq<char>, q: nat)
    requires q < |input| && input[q] == '"'
    ensures StringAt(input, q).Ok? ==> ValueFrom(input, q) == Ok((Str(StringAt(input, q).value.0), StringAt(input, q).value.1))
  {
  }

  lemma FromArray(input: seq<char>, q: nat)
    requires q < |input| && input[q] == '['
    ensures ValueFrom(input, q) == ArrayAt(input, q)
  {
  }

  lemma FromObject(input: seq<char>, q: nat)
    requires q < |input| && input[q] == '{'
    ensures ValueFrom(input, q) == ObjectAt(input, q)
  {
  }
  lemma FromOther(input: seq<char>, q: nat)
    requires q < |input| && !Starter(input[q])
    ensures ValueFrom(input, q) == Err("Unexpected character: " + [input[q]])
  {
  }


  // ---------------------------------------------------------------------
  // Arrays
  // ---------------------------------------------------------------------

  /** The elements of an array, each below it and each exact. */
  ghost predicate ExactItems(parent: Value, items: seq<Value>)
  {
    forall i :: 0 <= i < |items| ==> items[i] < parent && Exact(items[i])
  }

  lemma ExactTail(parent: Value, items: seq<Value>)
    requires |items| > 0 && ExactItems(parent, items)
    ensures ExactItems(parent, items[1..])
  {
    assert forall i :: 0 <= i < |items[1..]| ==> items[1..][i] == items[i + 1];
  }

  /** The element loop of `stringify_json` writes the first element, then the rest each after a `,`. */
  lemma ItemsCons(parent: Value, items: seq<Value>, pretty: bool, indent: nat, first: bool)
    requires |items| > 0 && ExactItems(parent, items)
    ensures ExactItems(parent, items[1..])
    ensures ItemsJson(parent, items, pretty, indent, first).Ok?
    ensures first ==>
      ItemsJson(parent, items, pretty, indent, first).value ==
        Closing(pretty, indent) + Text(items[0], pretty, indent) + ItemsJson(parent, items[1..], pretty, indent, false).value
    ensures !first ==>
      ItemsJson(parent, items, pretty, indent, first).value ==
        "," + Closing(pretty, indent) + Text(items[0], pretty, indent) + ItemsJson(parent, items[1..], pretty, indent, false).value
    ensures |items| == 1 ==> ItemsJson(parent, items[1..], pretty, indent, false).value == ""
  {
    ExactTail(parent, items);
    var t := Text(items[0], pretty, indent);
    var R := ItemsJson(parent, items[1..], pretty, indent, false).value;
    assert ItemsJson(parent, items, pretty, indent, first).value == Opening(first, pretty, indent) + t + R;
    assert |items| == 1 ==> R == "";
    hide ItemsJson, Text, Stringify, Lexing.IsWhitespace;
    assert Opening(first, pretty, indent) == if first then Closing(pretty, indent) else "," + Closing(pretty, indent);
  }

  /** A later element is preceded by a comma. */
  lemma ItemsComma(parent: Value, items: seq<Value>, pretty: bool, indent: nat)
    requires |items| > 0 && ExactItems(parent, items)
    ensures ItemsJson(parent, items, pretty, indent, false).Ok? && ItemsJson(parent, items, pretty, indent, true).Ok?
    ensures ItemsJson(parent, items, pretty, indent, false).value == "," + ItemsJson(parent, items, pretty, indent, true).value
  {
    hide ItemsJson, Text, Stringify, Closing;
    ItemsCons(parent, items, pretty, indent, false);
    ItemsCons(parent, items, pretty, indent, true);
    var W := Closing(pretty, indent);
    var t := Text(items[0], pretty, indent);
    var R := ItemsJson(parent, items[1..], pretty, indent, false).value;
    assert "," + W + t + R == "," + (W + t + R);
  }

  /** Whitespace before an element does not change what the element loop reads. */
  lemma ElementsSkip(input: seq<char>, p: nat, acc: seq<Value>)
    requires p <= |input| && SkipWs(input, p) < |input|
    ensures ElementsAt(input, p, acc) == ElementsAt(input, SkipWs(input, p), acc)
  {
    ValueAtSkip(input, p);
    hide ValueAt;
  }

  /** Whitespace before a value does not change what is read. */
  lemma ValueAtSkip(input: seq<char>, p: nat)
    requires p <= |input| && SkipWs(input, p) < |input|
    ensures ValueAt(input, p) == ValueAt(input, SkipWs(input, p))
  {
    ValueAtFrom(input, p);
    ValueAtFrom(input, SkipWs(input, p));
  }

  /** What `json_stringify` writes for an array: `[]`, or the elements between brackets. */
  lemma ArrayText(v: Value, pretty: bool, indent: nat)
    requires v.Array? && Exact(v)
    ensures ExactItems(v, v.elements)
    ensures |v.elements| == 0 ==> Text(v, pretty, indent) == "[]"
    ensures |v.elements| > 0 ==> ItemsJson(v, v.elements, pretty, indent + 1, true).Ok?
    ensures |v.elements| > 0 ==>
      Text(v, pretty, indent) == "[" + ItemsJson(v, v.elements, pretty, indent + 1, true).value + Closing(pretty, indent) + "]"
  {
    assert Text(v, pretty, indent) == ArrayJson(v, pretty, indent).value;
  }

  lemma {:induction false} ArrayRead(v: Value, pretty: bool, indent: nat, input: seq<char>, p: nat)
    requires v.Array? && Exact(v) && p < |input| && StartsWith(input, p, Text(v, pretty, indent))
    ensures ArrayAt(input, p) == Ok((v, p + |Text(v, pretty, indent)|))
    decreases v, 1
  {
    hide ArrayAt, ItemsJson, Text, Stringify, ElementsAt, ValueAt, Closing;
    ArrayText(v, pretty, indent);
    ArrayEntry(input, p);
    var t := Text(v, pretty, indent);
    var items := v.elements;
    if |items| == 0 {
      StartsChar(input, p, t, 1);
      assert SkipWs(input, p + 1) == p + 1;
    } else {
      hide Lexing.IsWhitespace, StartsWith;
      var body := ItemsJson(v, items, pretty, indent + 1, true).value;
      var C := Closing(pretty, indent);
      StartsInner(input, p, "[", body, C, "]");
      var q := ArrayFirst(v, pretty, indent, input, p + 1);
      ElementsSkip(input, p + 1, []);
      ElementsRead(v, items, pretty, indent, input, p + 1, []);
      assert [] + items == items;
    }
  }

  /** Where the first element of a non-empty array starts: after the layout's whitespace, not at `]`. */
  lemma ArrayFirst(v: Value, pretty: bool, indent: nat, input: seq<char>, p: nat) returns (q: nat)
    requires v.Array? && |v.elements| > 0 && ExactItems(v, v.elements)
    requires StartsWith(input, p, ItemsJson(v, v.elements, pretty, indent + 1, true).value + Closing(pretty, indent) + "]")
    ensures SkipWs(input, p) == q < |input| && input[q] != ']'
  {
    hide ItemsJson, Text, Stringify, Closing, Lexing.IsWhitespace;
    var items := v.elements;
    var W := Closing(pretty, indent + 1);
    var t0 := Text(items[0], pretty, indent + 1);
    ItemsCons(v, items, pretty, indent + 1, true);
    var body := ItemsJson(v, items, pretty, indent + 1, true).value;
    var R := ItemsJson(v, items[1..], pretty, indent + 1, false).value;
    var C := Closing(pretty, indent);
    StartsSplit(input, p, body + C, "]");
    StartsSplit(input, p, body, C);
    StartsSplit(input, p, W + t0, R);
    StartsSplit(input, p, W, t0);
    FirstChar(items[0], pretty, indent + 1);
    StartsChar(input, p + |W|, t0, 0);
    SkipWsOver(input, p, W);
    q := p + |W|;
  }

  /** The element loop reads what the element loop of `stringify_json` writes, up to the closing bracket. */
  lemma {:induction false} ElementsRead(parent: Value, items: seq<Value>, pretty: bool, outer: nat, input: seq<char>, p: nat, acc: seq<Value>)
    requires |items| > 0 && ExactItems(parent, items)
    requires StartsWith(input, p, ItemsJson(parent, items, pretty, outer + 1, true).value + Closing(pretty, outer) + "]")
    ensures ElementsAt(input, p, acc) ==
      Ok((Array(acc + items), p + |ItemsJson(parent, items, pretty, outer + 1, true).value| + |Closing(pretty, outer)| + 1))
    decreases parent, 0, |items|, 1
  {
    hide ItemsJson, Closing, ElementsAt, StartsWith;
    if |items| == 1 {
      LastElementRead(parent, items, pretty, outer, input, p, acc);
    } else {
      var e := ElementRead(parent, items, pretty, outer, input, p, acc);
      ElementsRead(parent, items[1..], pretty, outer, input, e, acc + [items[0]]);
      assert acc + [items[0]] + items[1..] == acc + items;
    }
  }

  /** The last element, then the closing bracket. */
  lemma LastElementRead(parent: Value, items: seq<Value>, pretty: bool, outer: nat, input: seq<char>, p: nat, acc: seq<Value>)
    requires |items| == 1 && ExactItems(parent, items)
    requires StartsWith(input, p, ItemsJson(parent, items, pretty, outer + 1, true).value + Closing(pretty, outer) + "]")
    ensures ElementsAt(input, p, acc) ==
      Ok((Array(acc + items), p + |ItemsJson(parent, items, pretty, outer + 1, true).value| + |Closing(pretty, outer)| + 1))
    decreases parent, 0, |items|, 0
  {
    hide ItemsJson, Text, Stringify, ValueAt, Closing, ElementsAt, Lexing.IsWhitespace, StartsWith;
    ItemsCons(parent, items, pretty, outer + 1, true);
    var body := ItemsJson(parent, items, pretty, outer + 1, true).value;
    var W := Closing(pretty, outer + 1);
    var C := Closing(pretty, outer);
    var t0 := Text(items[0], pretty, outer + 1);
    var R := ItemsJson(parent, items[1..], pretty, outer + 1, false).value;
    StartsSplit(input, p, body + C, "]");
    StartsSplit(input, p, body, C);
    StartsSplit(input, p, W + t0, R);
    var e := p + |W| + |t0|;
    StartsJoin(input, e, C, "]");
    ValueClose(items[0], pretty, outer + 1, input, p, W, C, ']');
    ElementsLastStep(input, p, acc, items[0], e);
    assert acc + [items[0]] == acc + items;
  }

  /** An element followed by `,`: the loop goes on after the comma with the element added. */
  lemma ElementRead(parent: Value, items: seq<Value>, pretty: bool, outer: nat, input: seq<char>, p: nat, acc: seq<Value>) returns (e: nat)
    requires |items| > 1 && ExactItems(parent, items)
    requires StartsWith(input, p, ItemsJson(parent, items, pretty, outer + 1, true).value + Closing(pretty, outer) + "]")
    ensures ExactItems(parent, items[1..]) && ItemsJson(parent, items[1..], pretty, outer + 1, true).Ok?
    ensures p < e <= |input|
    ensures ElementsAt(input, p, acc) == ElementsAt(input, e, acc + [items[0]])
    ensures StartsWith(input, e, ItemsJson(parent, items[1..], pretty, outer + 1, true).value + Closing(pretty, outer) + "]")
    ensures e + |ItemsJson(parent, items[1..], pretty, outer + 1, true).value| == p + |ItemsJson(parent, items, pretty, outer + 1, true).value|
    decreases parent, 0, |items|, 0
  {
    hide ItemsJson, Text, Stringify, ValueAt, Closing, ElementsAt, Lexing.IsWhitespace, StartsWith;
    ItemsCons(parent, items, pretty, outer + 1, true);
    ItemsComma(parent, items[1..], pretty, outer + 1);
    var body := ItemsJson(parent, items, pretty, outer + 1, true).value;
    var W := Closing(pretty, outer + 1);
    var C := Closing(pretty, outer);
    var t0 := Text(items[0], pretty, outer + 1);
    var R := ItemsJson(parent, items[1..], pretty, outer + 1, false).value;
    var R1 := ItemsJson(parent, items[1..], pretty, outer + 1, true).value;
    StartsSplit(input, p, body + C, "]");
    StartsSplit(input, p, body, C);
    StartsSplit(input, p, W + t0, R);
    var comma := p + |W| + |t0|;
    StartsJoin(input, comma, R, C);
    StartsJoin(input, comma, R + C, "]");
    ValueComma(items[0], pretty, outer + 1, input, p, W, R1, C, "]");
    ElementsCommaStep(input, p, acc, items[0], comma);
    e := comma + 1;
  }

  /** A value, then the layout whitespace and the bracket or brace that close the container it is last in. */
  lemma ValueClose(v: Value, pretty: bool, indent: nat, input: seq<char>, a: nat, w: string, C: string, close: char)
    requires Exact(v) && AllWhitespace(w) && AllWhitespace(C) && (|C| > 0 ==> C[0] == '\n') && (close == ']' || close == '}')
    requires StartsWith(input, a, w + Text(v, pretty, indent))
    requires StartsWith(input, a + |w| + |Text(v, pretty, indent)|, C + [close])
    ensures ValueAt(input, a) == Ok((v, a + |w| + |Text(v, pretty, indent)|))
    ensures var e := a + |w| + |Text(v, pretty, indent)|;
      SkipWs(input, e) == e + |C| < |input| && input[e + |C|] == close
    decreases v, 3
  {
    hide ValueAt, Text, Stringify, StartsWith, Exact, Lexing.IsWhitespace;
    CloseRead(input, a + |w| + |Text(v, pretty, indent)|, C, close);
    ValueRead(v, pretty, indent, input, a, w);
  }

  /** A value, then the comma before the next item of its container. */
  lemma ValueComma(v: Value, pretty: bool, indent: nat, input: seq<char>, a: nat, w: string, r: string, C: string, close: string)
    requires Exact(v) && AllWhitespace(w)
    requires StartsWith(input, a, w + Text(v, pretty, indent))
    requires StartsWith(input, a + |w| + |Text(v, pretty, indent)|, "," + r + C + close)
    ensures ValueAt(input, a) == Ok((v, a + |w| + |Text(v, pretty, indent)|))
    ensures var e := a + |w| + |Text(v, pretty, indent)|;
      SkipWs(input, e) == e < |input| && input[e] == ',' && StartsWith(input, e + 1, r + C + close)
    decreases v, 3
  {
    hide ValueAt, Text, Stringify, StartsWith, Exact, Lexing.IsWhitespace;
    CommaRead(input, a + |w| + |Text(v, pretty, indent)|, r, C, close);
    ValueRead(v, pretty, indent, input, a, w);
  }

  /** The layout whitespace before a closing bracket or brace is skipped, and ends any number before it. */
  lemma CloseRead(input: seq<char>, e: nat, w: string, close: char)
    requires StartsWith(input, e, w + [close]) && AllWhitespace(w) && (|w| > 0 ==> w[0] == '\n')
    requires close == ']' || close == '}'
    ensures Ends(input, e)
    ensures SkipWs(input, e) == e + |w| < |input| && input[e + |w|] == close
  {
    StartsSplit(input, e, w, [close]);
    StartsChar(input, e + |w|, [close], 0);
    if |w| > 0 {
      StartsChar(input, e, w, 0);
    }
    SkipWsOver(input, e, w);
  }

  /** A separating comma ends any number before it and is not skipped as whitespace. */
  lemma CommaRead(input: seq<char>, e: nat, r: string, w: string, close: string)
    requires StartsWith(input, e, "," + r + w + close)
    ensures Ends(input, e) && SkipWs(input, e) == e < |input| && input[e] == ','
    ensures StartsWith(input, e + 1, r + w + close)
  {
    hide StartsWith;
    StartsSplit(input, e, "," + r + w, close);
    StartsSplit(input, e, "," + r, w);
    StartsSplit(input, e, ",", r);
    StartsChar(input, e, ",", 0);
    StartsJoin(input, e + 1, r, w);
    StartsJoin(input, e + 1, r + w, close);
  }

  /** The element loop after its last value: the closing bracket ends it. */
  lemma ElementsLastStep(input: seq<char>, p: nat, acc: seq<Value>, v: Value, q: nat)
    requires p <= |input| && ValueAt(input, p) == Ok((v, q))
    requires SkipWs(input, q) < |input| && input[SkipWs(input, q)] == ']'
    ensures ElementsAt(input, p, acc) == Ok((Array(acc + [v]), SkipWs(input, q) + 1))
  {
    hide ElementsAt, ValueAt, Lexing.IsWhitespace;
    ElementsStep(input, p, acc);
  }

  /** The element loop after a value followed by a comma: it goes on after the comma. */
  lemma ElementsCommaStep(input: seq<char>, p: nat, acc: seq<Value>, v: Value, q: nat)
    requires p <= |input| && ValueAt(input, p) == Ok((v, q))
    requires SkipWs(input, q) < |input| && input[SkipWs(input, q)] == ','
    ensures ElementsAt(input, p, acc) == ElementsAt(input, SkipWs(input, q) + 1, acc + [v])
  {
    hide ElementsAt, ValueAt, Lexing.IsWhitespace;
    ElementsStep(input, p, acc);
  }

  // ---------------------------------------------------------------------
  // Objects
  // ---------------------------------------------------------------------

  /** Keys, each a key of `parent`, an object whose values are all exactly representable. */
  predicate ExactKeys(parent: Value, keys: seq<string>)
  {
    parent.Object? && Exact(parent) && forall i :: 0 <= i < |keys| ==> keys[i] in parent.properties
  }

  lemma KeysTail(parent: Value, keys: seq<string>)
    requires |keys| > 0 && ExactKeys(parent, keys)
    ensures ExactKeys(parent, keys[1..])
  {
    assert forall i :: 0 <= i < |keys[1..]| ==> keys[1..][i] == keys[i + 1];
  }

  /** The member loop of `stringify_json` writes the first member, then the rest each after a `,`. */
  lemma EntriesCons(parent: Value, keys: seq<string>, pretty: bool, indent: nat, first: bool)
    requires |keys| > 0 && ExactKeys(parent, keys)
    ensures parent.Object? && ExactKeys(parent, keys[1..]) && keys[0] in parent.properties && Exact(parent.properties[keys[0]])
    ensures EntriesJson(parent, keys, pretty, indent, first).Ok? && EntriesJson(parent, keys[1..], pretty, indent, false).Ok?
    ensures first ==>
      EntriesJson(parent, keys, pretty, indent, first).value ==
        Closing(pretty, indent) + Quote(keys[0]) + ":" + (if pretty then " " else "") +
        Text(parent.properties[keys[0]], pretty, indent) + EntriesJson(parent, keys[1..], pretty, indent, false).value
    ensures !first ==>
      EntriesJson(parent, keys, pretty, indent, first).value ==
        "," + Closing(pretty, indent) + Quote(keys[0]) + ":" + (if pretty then " " else "") +
        Text(parent.properties[keys[0]], pretty, indent) + EntriesJson(parent, keys[1..], pretty, indent, false).value
    ensures |keys| == 1 ==> EntriesJson(parent, keys[1..], pretty, indent, false).value == ""
  {
    KeysTail(parent, keys);
    var t := Text(parent.properties[keys[0]], pretty, indent);
    var R := EntriesJson(parent, keys[1..], pretty, indent, false).value;
    assert EntriesJson(parent, keys, pretty, indent, first).value ==
      Opening(first, pretty, indent) + Quote(keys[0]) + ":" + (if pretty then " " else "") + t + R;
    assert |keys| == 1 ==> R == "";
    hide EntriesJson, Text, Stringify, Lexing.IsWhitespace;
    assert Opening(first, pretty, indent) == if first then Closing(pretty, indent) else "," + Closing(pretty, indent);
  }

  /** A later member is preceded by a comma. */
  lemma EntriesComma(parent: Value, keys: seq<string>, pretty: bool, indent: nat)
    requires |keys| > 0 && ExactKeys(parent, keys)
    ensures EntriesJson(parent, keys, pretty, indent, false).Ok? && EntriesJson(parent, keys, pretty, indent, true).Ok?
    ensures EntriesJson(parent, keys, pretty, indent, false).value == "," + EntriesJson(parent, keys, pretty, indent, true).value
  {
    hide EntriesJson, Text, Stringify, Closing, Quote;
    EntriesCons(parent, keys, pretty, indent, false);
    EntriesCons(parent, keys, pretty, indent, true);
    var W := Closing(pretty, indent);
    var Q := Quote(keys[0]);
    var S := if pretty then " " else "";
    var t := Text(parent.properties[keys[0]], pretty, indent);
    var R := EntriesJson(parent, keys[1..], pretty, indent, false).value;
    assert "," + W + Q + ":" + S + t + R == "," + (W + Q + ":" + S + t + R);
  }

  /** What `json_stringify` writes for an object: `{}`, or the members in key order between braces. */
  lemma ObjectText(v: Value, pretty: bool, indent: nat)
    requires v.Object? && Exact(v)
    ensures ExactKeys(v, Strings.SortedStrings(v.properties.Keys))
    ensures |v.properties| == 0 ==> Text(v, pretty, indent) == "{}"
    ensures |v.properties| > 0 ==> |Strings.SortedStrings(v.properties.Keys)| > 0
    ensures |v.properties| > 0 ==> EntriesJson(v, Strings.SortedStrings(v.properties.Keys), pretty, indent + 1, true).Ok?
    ensures |v.properties| > 0 ==>
      Text(v, pretty, indent) ==
        "{" + EntriesJson(v, Strings.SortedStrings(v.properties.Keys), pretty, indent + 1, true).value + Closing(pretty, indent) + "}"
  {
    var keys := Strings.SortedStrings(v.properties.Keys);
    assert forall i :: 0 <= i < |keys| ==> keys[i] in keys;
    assert Text(v, pretty, indent) == ObjectJson(v, pretty, indent).value;
  }

  /** The map an object's members under `keys` add. */
  function KeysMap(m: map<string, Value>, keys: seq<string>): (r: map<string, Value>)
    requires forall k :: k in keys ==> k in m
    ensures r.Keys == set k | k in keys
    ensures forall k :: k in r ==> r[k] == m[k]
  {
    map k | k in keys :: m[k]
  }

  /** Storing the members one at a time in key order, as the member loop does, adds the same map. */
  lemma KeysMapCons(m: map<string, Value>, keys: seq<string>, props: map<string, Value>)
    requires |keys| > 0 && forall k :: k in keys ==> k in m
    ensures props + KeysMap(m, keys) == props[keys[0] := m[keys[0]]] + KeysMap(m, keys[1..])
    ensures |keys| == 1 ==> props + KeysMap(m, keys) == props[keys[0] := m[keys[0]]]
  {
    assert forall k :: k in keys <==> k == keys[0] || k in keys[1..];
  }

  /** All the keys of `m`, in any order, give back `m`. */
  lemma KeysMapAll(m: map<string, Value>)
    ensures map[] + KeysMap(m, Strings.SortedStrings(m.Keys)) == m
  {
  }

  /** Whitespace before a member does not change what the member loop reads. */
  lemma MembersSkip(input: seq<char>, p: nat, props: map<string, Value>)
    requires p <= |input|
    ensures MembersAt(input, p, props) == MembersAt(input, SkipWs(input, p), props)
  {
    assert SkipWs(input, SkipWs(input, p)) == SkipWs(input, p);
  }

  lemma {:induction false} ObjectRead(v: Value, pretty: bool, indent: nat, input: seq<char>, p: nat)
    requires v.Object? && Exact(v) && p < |input| && StartsWith(input, p, Text(v, pretty, indent))
    ensures ObjectAt(input, p) == Ok((v, p + |Text(v, pretty, indent)|))
    decreases v, 1
  {
    hide ObjectAt, EntriesJson, Text, Stringify, MembersAt, ValueAt, Closing, ExactKeys, KeysMap, Exact;
    ObjectText(v, pretty, indent);
    ObjectEntry(input, p);
    if |v.properties| == 0 {
      EmptyObjectRead(v, pretty, indent, input, p);
    } else {
      var keys := Strings.SortedStrings(v.properties.Keys);
      var body := EntriesJson(v, keys, pretty, indent + 1, true).value;
      var C := Closing(pretty, indent);
      ObjectOpensMembers(v, keys, pretty, indent, input, p, body, C);
      MembersOfObjectRead(v, keys, pretty, indent, input, p, body, C);
      assert |Text(v, pretty, indent)| == |body| + |C| + 2;
    }
  }

  /** A non-empty object: `parse_object` goes on with the member loop, after the layout's whitespace. */
  lemma ObjectOpensMembers(v: Value, keys: seq<string>, pretty: bool, indent: nat, input: seq<char>, p: nat, body: string, C: string)
    requires |keys| > 0 && ExactKeys(v, keys)
    requires EntriesJson(v, keys, pretty, indent + 1, true).Ok? && body == EntriesJson(v, keys, pretty, indent + 1, true).value
    requires C == Closing(pretty, indent)
    requires p < |input| && StartsWith(input, p, "{" + body + C + "}")
    ensures ObjectAt(input, p) == MembersAt(input, p + 1, map[])
  {
    hide ObjectAt, EntriesJson, Text, Stringify, MembersAt, ValueAt, Closing, ExactKeys, KeysMap, Exact,
      Lexing.IsWhitespace, StartsWith;
    var q := SkipWs(input, p + 1);
    StartsInner(input, p, "{", body, C, "}");
    ObjectFirst(v, keys, pretty, indent, input, p + 1);
    ObjectEntry(input, p);
    assert ObjectAt(input, p) == MembersAt(input, q, map[]);
    MembersSkip(input, p + 1, map[]);
  }

  /** A non-empty object: the member loop reads every key of `v` and stops after the closing brace. */
  lemma MembersOfObjectRead(v: Value, keys: seq<string>, pretty: bool, indent: nat, input: seq<char>, p: nat, body: string, C: string)
    requires v.Object? && keys == Strings.SortedStrings(v.properties.Keys) && |keys| > 0 && ExactKeys(v, keys)
    requires EntriesJson(v, keys, pretty, indent + 1, true).Ok? && body == EntriesJson(v, keys, pretty, indent + 1, true).value
    requires C == Closing(pretty, indent)
    requires p < |input| && StartsWith(input, p, "{" + body + C + "}")
    ensures var r := MembersAt(input, p + 1, map[]); r.Ok? && r.value.0 == v && r.value.1 == p + |body| + |C| + 2
    decreases v, 0, |keys| + 1
  {
    hide ObjectAt, EntriesJson, Text, Stringify, MembersAt, ValueAt, Closing, ExactKeys, KeysMap, Exact,
      Lexing.IsWhitespace, StartsWith;
    StartsInner(input, p, "{", body, C, "}");
    MembersRead(v, keys, pretty, indent, input, p + 1, map[]);
    var r := MembersAt(input, p + 1, map[]);
    assert r.value.0 == Object(map[] + KeysMap(v.properties, keys));
    KeysMapAll(v.properties);
  }

  /** `{}` is read back as the empty object. */
  lemma EmptyObjectRead(v: Value, pretty: bool, indent: nat, input: seq<char>, p: nat)
    requires v.Object? && |v.properties| == 0 && p < |input| && StartsWith(input, p, "{}")
    ensures ObjectAt(input, p) == Ok((v, p + 2))
  {
    StartsChar(input, p, "{}", 1);
    assert SkipWs(input, p + 1) == p + 1;
    assert v.properties == map[];
  }

  /** Where the first member of a non-empty object starts: at its key's opening quote, not at `}`. */
  lemma ObjectFirst(v: Value, keys: seq<string>, pretty: bool, indent: nat, input: seq<char>, p: nat)
    requires |keys| > 0 && ExactKeys(v, keys)
    requires StartsWith(input, p, EntriesJson(v, keys, pretty, indent + 1, true).value + Closing(pretty, indent) + "}")
    ensures SkipWs(input, p) < |input| && input[SkipWs(input, p)] != '}'
  {
    hide EntriesJson, Text, Stringify, Closing, Quote, Lexing.IsWhitespace, StartsWith;
    EntriesCons(v, keys, pretty, indent + 1, true);
    var W := Closing(pretty, indent + 1);
    var Q := Quote(keys[0]);
    var S := if pretty then " " else "";
    var t := Text(v.properties[keys[0]], pretty, indent + 1);
    var body := EntriesJson(v, keys, pretty, indent + 1, true).value;
    var R := EntriesJson(v, keys[1..], pretty, indent + 1, false).value;
    var C := Closing(pretty, indent);
    StartsSplit(input, p, body + C, "}");
    StartsSplit(input, p, body, C);
    StartsSplit(input, p, W + Q + ":" + S + t, R);
    StartsSplit(input, p, W + Q + ":" + S, t);
    StartsSplit(input, p, W + Q + ":", S);
    StartsSplit(input, p, W + Q, ":");
    StartsSplit(input, p, W, Q);
    StartsChar(input, p + |W|, Q, 0);
    WhitespaceNotQuote();
    SkipWsOver(input, p, W);
  }

  lemma WhitespaceNotQuote()
    ensures !Lexing.IsWhitespace('"') && !Lexing.IsWhitespace(':')
    ensures AllWhitespace(" ") && AllWhitespace("")
  {
  }

  /**
   * The member loop reads what the member loop of `stringify_json` writes, up
   * to the closing brace: each key with its value, stored in the map.
   */
  lemma {:induction false} MembersRead(parent: Value, keys: seq<string>, pretty: bool, outer: nat, input: seq<char>, p: nat,
                                       props: map<string, Value>)
    requires |keys| > 0 && ExactKeys(parent, keys)
    requires StartsWith(input, p, EntriesJson(parent, keys, pretty, outer + 1, true).value + Closing(pretty, outer) + "}")
    ensures MembersAt(input, p, props) ==
      Ok((Object(props + KeysMap(parent.properties, keys)),
        p + |EntriesJson(parent, keys, pretty, outer + 1, true).value| + |Closing(pretty, outer)| + 1))
    decreases parent, 0, |keys|, 1
  {
    hide EntriesJson, Closing, MembersAt, StartsWith, KeysMap;
    var m := parent.properties;
    if |keys| == 1 {
      LastMemberRead(parent, keys, pretty, outer, input, p, props);
    } else {
      var e := MemberRead(parent, keys, pretty, outer, input, p, props);
      MembersRead(parent, keys[1..], pretty, outer, input, e, props[keys[0] := m[keys[0]]]);
      KeysMapCons(m, keys, props);
    }
  }

  /** A member's key, its colon and the space after it when pretty: the loop goes on to the value. */
  lemma MemberKey(input: seq<char>, p: nat, key: string, w: string, pretty: bool, t: string, props: map<string, Value>)
    returns (v: nat)
    requires AllWhitespace(w) && StartsWith(input, p, w + Quote(key) + ":" + (if pretty then " " else "") + t)
    ensures v == p + |w| + |Quote(key)| + 1 && v <= |input|
    ensures MembersAt(input, p, props) == MemberValueAt(input, v, key, props)
    ensures StartsWith(input, v, (if pretty then " " else "") + t)
    ensures AllWhitespace(if pretty then " " else "")
  {
    hide MembersAt, MemberValueAt, StringAt, Quote, Lexing.IsWhitespace, StartsWith;
    var Q := Quote(key);
    var S := if pretty then " " else "";
    var c := p + |w| + |Q|;
    StartsSplit(input, p, w + Q + ":" + S, t);
    StartsSplit(input, p, w + Q + ":", S);
    assert StartsWith(input, p, w) && StartsWith(input, p + |w|, Q) && StartsWith(input, c, ":") by {
      StartsSplit(input, p, w + Q, ":");
      StartsSplit(input, p, w, Q);
    }
    assert SkipWs(input, p) == p + |w| && StringAt(input, p + |w|) == Ok((key, c)) by {
      StartsChar(input, p + |w|, Q, 0);
      WhitespaceNotQuote();
      SkipWsOver(input, p, w);
      QuoteRead(key, input, p + |w|);
    }
    assert c < |input| && SkipWs(input, c) == c && input[c] == ':' by {
      StartsChar(input, c, ":", 0);
      WhitespaceNotQuote();
      SkipWsAt(input, c);
    }
    MembersKeyStep(input, p, props, key, c);
    v := c + 1;
    StartsJoin(input, v, S, t);
    WhitespaceNotQuote();
  }

  lemma SkipWsAt(input: seq<char>, p: nat)
    requires p < |input| && !Lexing.IsWhitespace(input[p])
    ensures SkipWs(input, p) == p
  {
  }

  /** The key half of a round of the member loop, once the key and the colon after it are known. */
  lemma MembersKeyStep(input: seq<char>, p: nat, props: map<string, Value>, key: string, c: nat)
    requires p <= |input| && SkipWs(input, p) < |input|
    requires StringAt(input, SkipWs(input, p)) == Ok((key, c))
    requires c < |input| && SkipWs(input, c) == c && input[c] == ':'
    ensures MembersAt(input, p, props) == MemberValueAt(input, c + 1, key, props)
  {
    hide MembersAt, MemberValueAt, StringAt, Lexing.IsWhitespace;
    MembersStep(input, p, props);
  }

  /** The first member of the rest of an object: its key and `:` are read, and its value's text comes next. */
  lemma MemberHead(parent: Value, keys: seq<string>, pretty: bool, outer: nat, input: seq<char>, p: nat,
                   props: map<string, Value>) returns (v: nat)
    requires |keys| > 0 && ExactKeys(parent, keys)
    requires StartsWith(input, p, EntriesJson(parent, keys, pretty, outer + 1, true).value + Closing(pretty, outer) + "}")
    ensures parent.Object? && ExactKeys(parent, keys[1..]) && keys[0] in parent.properties && Exact(parent.properties[keys[0]])
    ensures EntriesJson(parent, keys[1..], pretty, outer + 1, false).Ok?
    ensures var S := if pretty then " " else "";
      var t := Text(parent.properties[keys[0]], pretty, outer + 1);
      var R := EntriesJson(parent, keys[1..], pretty, outer + 1, false).value;
      && AllWhitespace(S)
      && StartsWith(input, v, S + t)
      && StartsWith(input, v + |S| + |t|, R + Closing(pretty, outer) + "}")
      && v + |S| + |t| + |R| == p + |EntriesJson(parent, keys, pretty, outer + 1, true).value|
    ensures MembersAt(input, p, props) == MemberValueAt(input, v, keys[0], props)
  {
    hide EntriesJson, Text, Stringify, ValueAt, Closing, MembersAt, MemberValueAt, Quote, KeysMap, Lexing.IsWhitespace, StartsWith,
      Exact;
    var body := EntriesJson(parent, keys, pretty, outer + 1, true).value;
    EntriesCons(parent, keys, pretty, outer + 1, true);
    var m := parent.properties;
    var W := Closing(pretty, outer + 1);
    var Q := Quote(keys[0]);
    var S := if pretty then " " else "";
    var t := Text(m[keys[0]], pretty, outer + 1);
    var R := EntriesJson(parent, keys[1..], pretty, outer + 1, false).value;
    var C := Closing(pretty, outer);
    var head := W + Q + ":" + S + t;
    assert body == head + R;
    assert StartsWith(input, p, head) && StartsWith(input, p + |head|, R + C + "}") by {
      StartsSplit(input, p, body + C, "}");
      StartsSplit(input, p, body, C);
      StartsSplit(input, p, head, R);
      StartsJoin(input, p + |head|, R, C);
      StartsJoin(input, p + |head|, R + C, "}");
    }
    v := MemberKey(input, p, keys[0], W, pretty, t, props);
  }

  /** The last member, then the closing brace. */
  lemma LastMemberRead(parent: Value, keys: seq<string>, pretty: bool, outer: nat, input: seq<char>, p: nat,
                       props: map<string, Value>)
    requires |keys| == 1 && ExactKeys(parent, keys)
    requires StartsWith(input, p, EntriesJson(parent, keys, pretty, outer + 1, true).value + Closing(pretty, outer) + "}")
    ensures MembersAt(input, p, props) ==
      Ok((Object(props + KeysMap(parent.properties, keys)),
        p + |EntriesJson(parent, keys, pretty, outer + 1, true).value| + |Closing(pretty, outer)| + 1))
    decreases parent, 0, |keys|, 0
  {
    hide EntriesJson, Text, Stringify, ValueAt, Closing, MembersAt, MemberValueAt, Quote, KeysMap, Lexing.IsWhitespace, StartsWith,
      Exact, ExactKeys;
    var v := MemberHead(parent, keys, pretty, outer, input, p, props);
    EntriesCons(parent, keys, pretty, outer + 1, true);
    var m := parent.properties;
    var S := if pretty then " " else "";
    var t := Text(m[keys[0]], pretty, outer + 1);
    var R := EntriesJson(parent, keys[1..], pretty, outer + 1, false).value;
    var C := Closing(pretty, outer);
    var e := v + |S| + |t|;
    assert R == [];
    assert StartsWith(input, e, C + "}") by {
      assert R + C + "}" == C + "}";
    }
    assert MembersAt(input, p, props) == Ok((Object(props + KeysMap(m, keys)), e + |C| + 1)) by {
      ValueClose(m[keys[0]], pretty, outer + 1, input, v, S, C, '}');
      MembersLastStep(input, v, keys[0], props, m[keys[0]], e);
      KeysMapCons(m, keys, props);
    }
  }

  /** A member followed by `,`: the loop goes on after the comma with the member stored. */
  lemma MemberRead(parent: Value, keys: seq<string>, pretty: bool, outer: nat, input: seq<char>, p: nat,
                   props: map<string, Value>) returns (e: nat)
    requires |keys| > 1 && ExactKeys(parent, keys)
    requires StartsWith(input, p, EntriesJson(parent, keys, pretty, outer + 1, true).value + Closing(pretty, outer) + "}")
    ensures ExactKeys(parent, keys[1..]) && EntriesJson(parent, keys[1..], pretty, outer + 1, true).Ok?
    ensures p < e <= |input|
    ensures MembersAt(input, p, props) == MembersAt(input, e, props[keys[0] := parent.properties[keys[0]]])
    ensures StartsWith(input, e, EntriesJson(parent, keys[1..], pretty, outer + 1, true).value + Closing(pretty, outer) + "}")
    ensures e + |EntriesJson(parent, keys[1..], pretty, outer + 1, true).value| == p + |EntriesJson(parent, keys, pretty, outer + 1, true).value|
    decreases parent, 0, |keys|, 0
  {
    hide EntriesJson, Text, Stringify, ValueAt, Closing, MembersAt, MemberValueAt, Quote, KeysMap, Lexing.IsWhitespace, StartsWith,
      Exact, ExactKeys;
    var v := MemberHead(parent, keys, pretty, outer, input, p, props);
    EntriesCons(parent, keys, pretty, outer + 1, true);
    KeysTail(parent, keys);
    EntriesComma(parent, keys[1..], pretty, outer + 1);
    var m := parent.properties;
    var S := if pretty then " " else "";
    var t := Text(m[keys[0]], pretty, outer + 1);
    var R := EntriesJson(parent, keys[1..], pretty, outer + 1, false).value;
    var R1 := EntriesJson(parent, keys[1..], pretty, outer + 1, true).value;
    var C := Closing(pretty, outer);
    var comma := v + |S| + |t|;
    assert StartsWith(input, comma, "," + R1 + C + "}") by {
      assert R + C + "}" == "," + R1 + C + "}";
    }
    ValueComma(m[keys[0]], pretty, outer + 1, input, v, S, R1, C, "}");
    MembersCommaStep(input, v, keys[0], props, m[keys[0]], comma);
    e := comma + 1;
  }

  /** The member loop after its last value: the closing brace ends it. */
  lemma MembersLastStep(input: seq<char>, p: nat, key: string, props: map<string, Value>, v: Value, q: nat)
    requires p <= |input| && ValueAt(input, p) == Ok((v, q))
    requires SkipWs(input, q) < |input| && input[SkipWs(input, q)] == '}'
    ensures MemberValueAt(input, p, key, props) == Ok((Object(props[key := v]), SkipWs(input, q) + 1))
  {
    hide MemberValueAt, MembersAt, ValueAt, Lexing.IsWhitespace;
    MemberValueStep(input, p, key, props);
  }

  /** The member loop after a value followed by a comma: it goes on after the comma with the member stored. */
  lemma MembersCommaStep(input: seq<char>, p: nat, key: string, props: map<string, Value>, v: Value, q: nat)
    requires p <= |input| && ValueAt(input, p) == Ok((v, q))
    requires SkipWs(input, q) < |input| && input[SkipWs(input, q)] == ','
    ensures MemberValueAt(input, p, key, props) == MembersAt(input, SkipWs(input, q) + 1, props[key := v])
  {
    hide MemberValueAt, MembersAt, ValueAt, Lexing.IsWhitespace;
    MemberValueStep(input, p, key, props);
  }

  // ---------------------------------------------------------------------
  // Leniencies of the reader
  // ---------------------------------------------------------------------

  /** Empty input is an error. */
  lemma EmptyInputFails()
    ensures ParseJson("") == Err(END)
  {
  }

  /** Only the first value is read; whatever follows it is ignored. */
  lemma TrailingTextIgnored()
    ensures ParseJson("1 x") == Ok(Integer(1))
  {
  }

  /** Leading zeros are accepted. */
  lemma LeadingZerosAccepted()
    ensures ParseJson("007") == Ok(Integer(7))
  {
    var t := "007";
    hide NumberAt, FractionAt, ExponentAt, ValueFrom;
    assert SkipWs(t, 0) == 0;
    ValueAtFrom(t, 0);
    FromNumber(t, 0);
    assert DigitsEnd(t, 0) == 3;
    NumberStep(t, 0);
    FractionSteps(t, 0, 0, 3);
    ExponentSteps(t, 0, 0, 3, "", false, 3);
    assert t[0..3] == t;
    assert t[..2] == "00" && "00"[..1] == "0" && "0"[..0] == "";
    assert BigNum.DecimalValue("0") == 0;
    assert BigNum.DecimalValue("00") == 0;
    assert BigNum.DecimalValue(t) == 7;
  }

  /** A number without sign: its digits, then `FractionAt`. */
  lemma NumberStep(input: seq<char>, p: nat)
    requires p < |input| && IsDigit(input[p])
    ensures p < DigitsEnd(input, p) && BigNum.AllDigits(input[p..DigitsEnd(input, p)])
    ensures NumberAt(input, p) == FractionAt(input, p, p, DigitsEnd(input, p))
  {
    DigitsAreDigits(input, p, DigitsEnd(input, p));
  }

  /** A one-digit number, followed by something that ends it, is read as that digit. */
  lemma DigitValueRead(t: seq<char>, p: nat)
    requires p < |t| && IsDigit(t[p]) && Ends(t, p + 1)
    ensures ValueAt(t, p) == Ok((Integer(t[p] as int - '0' as int), p + 1))
  {
    hide NumberAt, FractionAt, ExponentAt, ValueFrom;
    SkipWsAt(t, p);
    ValueAtFrom(t, p);
    FromNumber(t, p);
    assert DigitsEnd(t, p) == p + 1;
    NumberStep(t, p);
    FractionSteps(t, p, p, p + 1);
    ExponentSteps(t, p, p, p + 1, "", false, p + 1);
    var digit := [t[p]];
    assert t[p..p + 1] == digit;
    assert digit[..0] == [];
    assert BigNum.DecimalValue(digit) == t[p] as int - '0' as int;
    assert Ast.ParseI64(digit) == Some(t[p] as int - '0' as int);
  }

  /** A member whose value is one digit, then `,` or `}`. */
  lemma DigitMember(t: seq<char>, p: nat, props: map<string, Value>, key: string, c: nat)
    requires p < |t| && !Lexing.IsWhitespace(t[p]) && StringAt(t, p) == Ok((key, c))
    requires c + 2 < |t| && t[c] == ':' && IsDigit(t[c + 1]) && (t[c + 2] == ',' || t[c + 2] == '}')
    ensures t[c + 2] == '}' ==>
      MembersAt(t, p, props) == Ok((Object(props[key := Integer(t[c + 1] as int - '0' as int)]), c + 3))
    ensures t[c + 2] == ',' ==>
      MembersAt(t, p, props) == MembersAt(t, c + 3, props[key := Integer(t[c + 1] as int - '0' as int)])
  {
    hide ValueAt, MembersAt, MemberValueAt, StringAt;
    SkipWsAt(t, p);
    SkipWsAt(t, c);
    MembersKeyStep(t, p, props, key, c);
    DigitValueRead(t, c + 1);
    SkipWsAt(t, c + 2);
    MemberValueStep(t, c + 1, key, props);
  }

  /** The character that opens an object key is skipped without being checked. */
  lemma KeyQuoteNotChecked()
    ensures ParseJson("{x\":1}") == Ok(Object(map["" := Integer(1)]))
  {
    var t := "{x\":1}";
    hide ValueAt, ObjectAt, MembersAt, MemberValueAt, ValueFrom;
    SkipWsAt(t, 0);
    ValueAtFrom(t, 0);
    FromObject(t, 0);
    SkipWsAt(t, 1);
    ObjectEntry(t, 0);
    assert StringAt(t, 1) == Ok(("", 3)) by {
      assert StringBody(t, 2, "") == Ok(("", 3));
    }
    DigitMember(t, 1, map[], "", 3);
  }

  /** A repeated key keeps the value read last. */
  lemma DuplicateKeyLastWins()
    ensures ParseJson("{\"a\":1,\"a\":2}") == Ok(Object(map["a" := Integer(2)]))
  {
    hide ValueAt, ObjectAt, MembersAt, MemberValueAt, ValueFrom;
    var t := "{\"a\":1,\"a\":2}";
    assert ValueAt(t, 0) == ObjectAt(t, 0) by {
      SkipWsAt(t, 0);
      ValueAtFrom(t, 0);
      FromObject(t, 0);
    }
    assert ObjectAt(t, 0) == MembersAt(t, 1, map[]) by {
      SkipWsAt(t, 1);
      ObjectEntry(t, 0);
    }
    DuplicateKeyMembers(t);
  }

  /** The members of `{"a":1,"a":2}`: the second `"a"` overwrites the first. */
  lemma DuplicateKeyMembers(t: seq<char>)
    requires t == "{\"a\":1,\"a\":2}"
    ensures MembersAt(t, 1, map[]) == Ok((Object(map["a" := Integer(2)]), 13))
  {
    hide ValueAt, ObjectAt, MembersAt, MemberValueAt, ValueFrom;
    assert StringAt(t, 1) == Ok(("a", 4)) by {
      assert StringBody(t, 2, "") == Ok(("a", 4));
    }
    DigitMember(t, 1, map[], "a", 4);
    assert StringAt(t, 7) == Ok(("a", 10)) by {
      assert StringBody(t, 8, "") == Ok(("a", 10));
    }
    DigitMember(t, 7, map["a" := Integer(1)], "a", 10);
    assert map["a" := Integer(1)]["a" := Integer(2)] == map["a" := Integer(2)];
  }

  /** A comma before the closing bracket is an error. */
  lemma TrailingCommaRejected()
    ensures ParseJson("[1,]") == Err("Unexpected character: ]")
  {
    var t := "[1,]";
    hide ValueAt, ArrayAt, ElementsAt, ValueFrom;
    SkipWsAt(t, 0);
    ValueAtFrom(t, 0);
    FromArray(t, 0);
    SkipWsAt(t, 1);
    ArrayEntry(t, 0);
    ElementsStep(t, 1, []);
    DigitValueRead(t, 1);
    SkipWsAt(t, 2);
    assert [] + [Integer(1)] == [Integer(1)];
    ElementsStep(t, 3, [Integer(1)]);
    SkipWsAt(t, 3);
    ValueAtFrom(t, 3);
    FromOther(t, 3);
    assert "Unexpected character: " + [t[3]] == "Unexpected character: ]";
  }

  // ---------------------------------------------------------------------
  // The round trip
  // ---------------------------------------------------------------------

  /**
   * `json_parse` of what `json_stringify` writes, in either layout and with
   * any text after it that a number cannot continue with, is the value.
   */
  lemma StringifyParse(v: Value, pretty: bool, rest: string)
    requires Exact(v)
    requires |rest| == 0 || !(IsDigit(rest[0]) || rest[0] in {'.', 'e', 'E'})
    ensures ParseJson(Text(v, pretty, 0) + rest) == Ok(v)
  {
    var t := Text(v, pretty, 0);
    var input := t + rest;
    assert input[0..|t|] == "" + t;
    ValueRead(v, pretty, 0, input, 0, "");
  }

  /** The builtins: `json_parse(json_stringify(v, pretty))` is `v`. */
  lemma BuiltinRoundTrip(v: Value, pretty: bool)
    requires Exact(v)
    ensures JsonStringify([v, Boolean(pretty)]) == Ok(Str(Text(v, pretty, 0)))
    ensures JsonParse([Str(Text(v, pretty, 0))]) == Ok(v)
  {
    StringifyParse(v, pretty, "");
    assert Text(v, pretty, 0) + "" == Text(v, pretty, 0);
  }
}
