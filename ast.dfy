/**
 * The FlowLang syntax tree (programs, statements, expressions, literals and
 * operators) and the `Display` text of operators and literals.
 */
module Ast {
  import opened Wrappers
  import BigNum

  datatype Program = Program(statements: seq<Statement>)

  datatype Statement =
    | VariableDeclaration(name: string, value: Expression)
    | FunctionDeclaration(name: string, parameters: seq<Parameter>, body: seq<Statement>)
    | If(condition: Expression, thenBranch: seq<Statement>, elseBranch: ElseBranch)
    | While(condition: Expression, body: seq<Statement>)
    | For(variable: string, start: Expression, end: Expression, body: seq<Statement>)
    | Show(shown: Expression)
    | Return(returned: Option<Expression>)
    | ExpressionStatement(expr: Expression)
    | Import(module_: string)
    | Export(exported: Statement)
    | TryCatch(tryBlock: seq<Statement>, catchVariable: string, catchBlock: seq<Statement>)

  datatype Expression =
    | Literal(literal: Literal)
    | Identifier(identifier: string)
    | Binary(left: Expression, operator: BinaryOperator, right: Expression)
    | Unary(unaryOperator: UnaryOperator, operand: Expression)
    | FunctionCall(callee: string, arguments: seq<Expression>)
    | MethodCall(receiver: Expression, method_: string, methodArguments: seq<Expression>)
    | ArrayExpr(elements: seq<Expression>)
    | ObjectExpr(properties: seq<(string, Expression)>)
    | Index(indexed: Expression, index: Expression)
    | PropertyAccess(accessed: Expression, property: string)
    | Lambda(lambdaParameters: seq<Parameter>, lambdaBody: Expression)

  /**
   * The optional else-branch of an `if` (an `Option` of a block in the
   * source; a datatype of its own here so that recursion into it is seen to
   * terminate).
   */
  datatype ElseBranch = NoElse | Else(statements: seq<Statement>)

  datatype Parameter = Parameter(name: string, defaultValue: Option<Expression>, isVariadic: bool)

  /** Float literals are exact reals here: IEEE rounding is not modelled. */
  datatype Literal =
    | StringLit(s: string)
    | IntegerLit(i: int)
    | BigIntegerLit(big: BigNum.BigInt)
    | FloatLit(f: real)
    | BooleanLit(b: bool)
    | NullLit
    | ArrayLit(items: seq<Literal>)
    | ObjectLit(entries: seq<(string, Literal)>)

  datatype BinaryOperator =
    | Add | Subtract | Multiply | Divide | Modulo
    | Equal | NotEqual | Greater | GreaterEqual | Less | LessEqual
    | And | Or

  datatype UnaryOperator = Not | Minus

  predicate IsI64(n: int) { BigNum.I64_MIN <= n <= BigNum.I64_MAX }

  /**
   * `str::parse::<i64>`: an optional `+` or `-`, then at least one decimal
   * digit and nothing else, and a value inside the i64 range.
   */
  function ParseI64(s: string): (r: Option<int>)
    ensures r.Some? ==> IsI64(r.value)
  {
    if |s| == 0 then None
    else
      var negative := s[0] == '-';
      var body := if s[0] == '-' || s[0] == '+' then s[1..] else s;
      if |body| == 0 || !BigNum.AllDigits(body) then None
      else
        var n := if negative then -(BigNum.DecimalValue(body) as int) else BigNum.DecimalValue(body);
        if IsI64(n) then Some(n) else None
  }

  /** `str::parse::<i64>` accepts every numeral whose value fits in an i64, with that value. */
  lemma ParseNumeral(s: string)
    requires BigNum.ValidNumeral(s) && IsI64(BigNum.NumeralValue(s))
    ensures ParseI64(s) == Some(BigNum.NumeralValue(s))
  {
    if s[0] != '-' {
      assert BigNum.IsDigit(s[0]);
    }
  }

  /** `str::parse::<i64>` reads back the decimal text of every i64. */
  lemma ParseI64RoundTrip(v: int)
    requires IsI64(v)
    ensures ParseI64(BigNum.IntToString(v)) == Some(v)
  {
    BigNum.IntToStringRoundTrip(v);
    ParseNumeral(BigNum.IntToString(v));
  }

  // ---------------------------------------------------------------------
  // Operator text
  // ---------------------------------------------------------------------

  function BinaryOperatorText(op: BinaryOperator): (s: string)
    ensures 1 <= |s| <= 3
  {
    match op
    case Add => "+"
    case Subtract => "-"
    case Multiply => "*"
    case Divide => "/"
    case Modulo => "%"
    case Equal => "=="
    case NotEqual => "!="
    case Greater => ">"
    case GreaterEqual => ">="
    case Less => "<"
    case LessEqual => "<="
    case And => "and"
    case Or => "or"
  }

  function UnaryOperatorText(op: UnaryOperator): (s: string)
  {
    match op
    case Not => "not"
    case Minus => "-"
  }

  /** The inverse of BinaryOperatorText: the operator a text names, if any. */
  function BinaryOperatorOfText(s: string): Option<BinaryOperator>
  {
    if s == "+" then Some(Add)
    else if s == "-" then Some(Subtract)
    else if s == "*" then Some(Multiply)
    else if s == "/" then Some(Divide)
    else if s == "%" then Some(Modulo)
    else if s == "==" then Some(Equal)
    else if s == "!=" then Some(NotEqual)
    else if s == ">" then Some(Greater)
    else if s == ">=" then Some(GreaterEqual)
    else if s == "<" then Some(Less)
    else if s == "<=" then Some(LessEqual)
    else if s == "and" then Some(And)
    else if s == "or" then Some(Or)
    else None
  }

  /** Every binary operator's text names that operator and no other, so the text is unambiguous. */
  lemma BinaryOperatorTextRoundTrip(op: BinaryOperator)
    ensures BinaryOperatorOfText(BinaryOperatorText(op)) == Some(op)
    ensures forall other :: BinaryOperatorText(other) == BinaryOperatorText(op) ==> other == op
  {
    forall other | BinaryOperatorText(other) == BinaryOperatorText(op)
      ensures other == op
    {
      assert BinaryOperatorOfText(BinaryOperatorText(other)) == Some(other);
    }
  }

  /** The minus sign is shared by the unary and the binary operator; "not" is only unary. */
  lemma UnaryOperatorTextShared()
    ensures UnaryOperatorText(Minus) == BinaryOperatorText(Subtract)
    ensures BinaryOperatorOfText(UnaryOperatorText(Not)) == None
  {
  }

  // ---------------------------------------------------------------------
  // Literal text
  // ---------------------------------------------------------------------

  /** The shortest decimal digits of a fraction 0 <= f < 1, at most k of them. */
  function FractionDigits(f: real, k: nat): string
    requires 0.0 <= f < 1.0
    decreases k
  {
    if k == 0 || f == 0.0 then ""
    else
      var d := (f * 10.0).Floor;
      assert 0 <= d < 10;
      [BigNum.DigitChar(d)] + FractionDigits(f * 10.0 - d as real, k - 1)
  }

  function TrimTrailingZeros(s: string): string
  {
    if |s| > 0 && s[|s| - 1] == '0' then TrimTrailingZeros(s[..|s| - 1]) else s
  }

  /**
   * The text of a float: an integral value prints without a fraction ("3"),
   * any other value prints its sign, integral part and up to 17 fraction digits.
   */
  function FloatText(r: real): (s: string)
    ensures |s| > 0
  {
    if r == r.Floor as real then BigNum.IntToString(r.Floor)
    else
      var a := if r < 0.0 then -r else r;
      var whole := a.Floor;
      var frac := FractionDigits(a - whole as real, 17);
      (if r < 0.0 then "-" else "") + BigNum.NatToString(whole) + "." + (if TrimTrailingZeros(frac) == "" then "0" else TrimTrailingZeros(frac))
  }

  function BoolText(b: bool): string
  {
    if b then "true" else "false"
  }

  /** `Display for Literal`. */
  function LiteralText(l: Literal): (s: string)
    ensures l.StringLit? ==> |s| >= 2 && s[0] == '"' && s[|s| - 1] == '"'
    ensures l.ArrayLit? ==> |s| >= 2 && s[0] == '[' && s[|s| - 1] == ']'
    ensures l.ObjectLit? ==> |s| >= 2 && s[0] == '{' && s[|s| - 1] == '}'
    decreases l, 2
  {
    match l
    case StringLit(t) => "\"" + t + "\""
    case IntegerLit(i) => BigNum.IntToString(i)
    case BigIntegerLit(b) => BigNum.Display(b)
    case FloatLit(f) => FloatText(f)
    case BooleanLit(b) => BoolText(b)
    case NullLit => "null"
    case ArrayLit(items) => "[" + ItemsText(l, items) + "]"
    case ObjectLit(entries) => "{" + EntriesText(l, entries) + "}"
  }

  /** The array elements, separated by ", ", in order. */
  function ItemsText(parent: Literal, items: seq<Literal>): string
    requires forall i :: 0 <= i < |items| ==> items[i] < parent
    decreases parent, 1, |items|
  {
    if |items| == 0 then ""
    else if |items| == 1 then LiteralText(items[0])
    else LiteralText(items[0]) + ", " + ItemsText(parent, items[1..])
  }

  /** The object entries as `"key": value`, separated by ", ", in declaration order. */
  function EntriesText(parent: Literal, entries: seq<(string, Literal)>): string
    requires forall i :: 0 <= i < |entries| ==> entries[i].1 < parent
    decreases parent, 1, |entries|
  {
    if |entries| == 0 then ""
    else
      var entry := "\"" + entries[0].0 + "\": " + LiteralText(entries[0].1);
      if |entries| == 1 then entry else entry + ", " + EntriesText(parent, entries[1..])
  }

  /**
   * Writing the elements left to right, with ", " before every element but the
   * first, builds the same text as ItemsText.
   */
  lemma {:induction false} ItemsTextAppend(parent: Literal, items: seq<Literal>, e: Literal)
    requires forall i :: 0 <= i < |items| ==> items[i] < parent
    requires e < parent
    requires |items| > 0
    ensures ItemsText(parent, items + [e]) == ItemsText(parent, items) + ", " + LiteralText(e)
    decreases |items|
  {
    if |items| == 1 {
      assert (items + [e])[1..] == [e];
    } else {
      assert (items + [e])[1..] == items[1..] + [e];
      ItemsTextAppend(parent, items[1..], e);
    }
  }

  /** An integer literal displays as a numeral that spells the same integer. */
  lemma IntegerLiteralRoundTrip(i: int)
    ensures BigNum.ValidNumeral(LiteralText(IntegerLit(i)))
    ensures BigNum.NumeralValue(LiteralText(IntegerLit(i))) == i
  {
    BigNum.IntToStringRoundTrip(i);
  }

  /** A normalized big integer literal displays as a numeral of the same value. */
  lemma BigIntegerLiteralRoundTrip(b: BigNum.BigInt)
    requires BigNum.Normalized(b)
    ensures BigNum.ValidNumeral(LiteralText(BigIntegerLit(b)))
    ensures BigNum.FromInt(BigNum.NumeralValue(LiteralText(BigIntegerLit(b)))) == b
  {
    BigNum.DisplayRoundTrip(b);
    assert BigNum.Display(b) != "" by { assert BigNum.Display(b) == BigNum.IntToString(BigNum.Value(b)) by { BigNum.DisplayIsDecimal(b); } }
  }

  /**
   * String literals are written without escaping, so the text does not
   * determine the literal: a one-string array whose string holds `", "`
   * displays like a two-string array.
   */
  lemma LiteralTextAmbiguous()
    ensures ArrayLit([StringLit("a\", \"b")]) != ArrayLit([StringLit("a"), StringLit("b")])
    ensures LiteralText(ArrayLit([StringLit("a\", \"b")])) == LiteralText(ArrayLit([StringLit("a"), StringLit("b")]))
  {
    var one := ArrayLit([StringLit("a\", \"b")]);
    var two := ArrayLit([StringLit("a"), StringLit("b")]);
    assert [StringLit("a"), StringLit("b")][1..] == [StringLit("b")];
    assert ItemsText(two, [StringLit("a"), StringLit("b")]) == "\"a\"" + ", " + "\"b\"";
    assert ItemsText(one, [StringLit("a\", \"b")]) == "\"a\", \"b\"";
  }
}
