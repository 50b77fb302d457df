/**
 * The FlowLang lexer (src/lexer.rs): a cursor over the characters of the
 * source that turns them into tokens.
 *
 * The pure functions `Step`, `SkipSpaces`, `SkipToNewline`, `ScanString`,
 * `ScanNumber`, `ScanWord`, `Scan` and `Lex` say, for a cursor position,
 * where the cursor ends up and what comes out. The class `Lexer` holds the
 * cursor in fields, as the source does, and each of its methods is proved to
 * move the cursor and answer exactly as the matching function says.
 */
module Lexing {
  import opened Wrappers
  import BigNum
  import Errors
  import Ast

  type FlowError = Errors.FlowError

  datatype Token =
    // literals
    | String(text: string)
    | Integer(i: int)
    | BigInteger(big: BigNum.BigInt)
    | Float(f: real)
    | Boolean(b: bool)
    | Identifier(name: string)
    // keywords
    | Let | Be | Def | With | Do | End | If | Then | Else | ElseIf | While | For | From | To
    | Show | Return | Import | Export | As | Try | Catch | True | False
    // operators
    | Plus | Minus | Multiply | Divide | Modulo
    | Equal | NotEqual | Greater | GreaterEqual | Less | LessEqual | And | Or | Not
    // punctuation
    | LeftParen | RightParen | LeftBracket | RightBracket | LeftBrace | RightBrace
    | Comma | Dot | Colon | Arrow | Ellipsis | Assign
    // special
    | Newline | Eof

  /** Where the lexer stands: an index into the characters, and the line and column it reports in errors. */
  datatype Cursor = Cursor(pos: nat, line: nat, column: nat)

  // ---------------------------------------------------------------------
  // Character classes
  // ---------------------------------------------------------------------

  predicate IsAsciiDigit(c: char) { '0' <= c <= '9' }

  predicate IsAsciiAlphabetic(c: char) { 'A' <= c <= 'Z' || 'a' <= c <= 'z' }

  /** A character that may continue an identifier. */
  predicate IsWordChar(c: char) { IsAsciiAlphabetic(c) || IsAsciiDigit(c) || c == '_' }

  /** `char::is_whitespace`: the characters with the Unicode White_Space property. */
  predicate IsWhitespace(c: char)
  {
    var n := c as int;
    (9 <= n <= 13) || n == 0x20 || n == 0x85 || n == 0xA0 || n == 0x1680 || (0x2000 <= n <= 0x200A) ||
    n == 0x2028 || n == 0x2029 || n == 0x202F || n == 0x205F || n == 0x3000
  }

  // ---------------------------------------------------------------------
  // The cursor
  // ---------------------------------------------------------------------

  /** `current_char`, `peek` and `peek_next`: the character at an index, or '\0' past the end. */
  function CharAt(input: seq<char>, i: nat): char
  {
    if i < |input| then input[i] else '\0'
  }

  /** `advance`: one character forward and one column right, unless at the end. */
  function Step(input: seq<char>, c: Cursor): (d: Cursor)
    ensures c.pos < |input| ==> d == Cursor(c.pos + 1, c.line, c.column + 1)
    ensures c.pos >= |input| ==> d == c
  {
    if c.pos < |input| then Cursor(c.pos + 1, c.line, c.column + 1) else c
  }

  /** `skip_whitespace`: past every whitespace character except a newline. */
  function SkipSpaces(input: seq<char>, c: Cursor): (d: Cursor)
    requires c.pos <= |input|
    ensures c.pos <= d.pos <= |input| && d.line == c.line
    decreases |input| - c.pos
  {
    if c.pos < |input| && IsWhitespace(input[c.pos]) && input[c.pos] != '\n' then SkipSpaces(input, Step(input, c))
    else c
  }

  /** `skip_comment`: up to (not past) the next newline. */
  function SkipToNewline(input: seq<char>, c: Cursor): (d: Cursor)
    requires c.pos <= |input|
    ensures c.pos <= d.pos <= |input| && d.line == c.line
    ensures c.pos < |input| && input[c.pos] != '\n' ==> d.pos > c.pos
    decreases |input| - c.pos
  {
    if c.pos < |input| && input[c.pos] != '\n' then SkipToNewline(input, Step(input, c))
    else c
  }

  function Fail(c: Cursor, message: string): Result<Token, FlowError>
  {
    Err(Errors.LexerError(c.line, c.column, message))
  }

  // ---------------------------------------------------------------------
  // Strings
  // ---------------------------------------------------------------------

  /** The character an escape sequence stands for: only \n \t \r \\ and \" are escapes. */
  function Unescape(c: char): Option<char>
  {
    if c == 'n' then Some('\n')
    else if c == 't' then Some('\t')
    else if c == 'r' then Some('\r')
    else if c == '\\' then Some('\\')
    else if c == '"' then Some('"')
    else None
  }

  /** The loop of `read_string`, with `value` the text decoded so far. */
  function ScanStringBody(input: seq<char>, c: Cursor, value: string): (r: (Cursor, Result<Token, FlowError>))
    requires c.pos <= |input|
    ensures c.pos <= r.0.pos <= |input|
    ensures r.1.Ok? ==> r.0.pos > c.pos && r.1.value.String?
    ensures r.1.Err? ==> r.1.error.LexerError?
    decreases |input| - c.pos
  {
    if c.pos >= |input| then (c, Fail(c, "Unterminated string literal"))
    else if input[c.pos] == '"' then (Step(input, c), Ok(String(value)))
    else if input[c.pos] == '\\' then
      var d := Step(input, c);
      if d.pos >= |input| then (d, Fail(d, "Unterminated string literal"))
      else
        match Unescape(input[d.pos])
        case None => (d, Fail(d, "Invalid escape sequence: \\" + [input[d.pos]]))
        case Some(ch) => ScanStringBody(input, Step(input, d), value + [ch])
    else ScanStringBody(input, Step(input, c), value + [input[c.pos]])
  }

  /** `read_string`, from the opening quote. */
  function ScanString(input: seq<char>, c: Cursor): (r: (Cursor, Result<Token, FlowError>))
    requires c.pos < |input|
    ensures c.pos < r.0.pos <= |input|
    ensures r.1.Ok? ==> r.1.value.String?
    ensures r.1.Err? ==> r.1.error.LexerError?
  {
    ScanStringBody(input, Step(input, c), "")
  }

  // ---------------------------------------------------------------------
  // Numbers
  // ---------------------------------------------------------------------

  /** The index of the first '.' in a text, or its length when it has none. */
  function FirstDot(text: string): (k: nat)
    ensures k <= |text| && (k < |text| ==> text[k] == '.')
    ensures forall i :: 0 <= i < k ==> text[i] != '.'
  {
    if |text| == 0 || text[0] == '.' then 0 else 1 + FirstDot(text[1..])
  }

  /**
   * `str::parse::<f64>` on texts of digits with at most one dot, read as the
   * exact decimal number (the nearest double is not modelled); a text without
   * any digit, or with anything else in it, is refused.
   */
  function ParseDecimal(text: string): Option<real>
  {
    var k := FirstDot(text);
    var whole := text[..k];
    var fraction := if k < |text| then text[k + 1..] else "";
    if |whole| + |fraction| > 0 && BigNum.AllDigits(whole) && BigNum.AllDigits(fraction) then
      Some(BigNum.DecimalValue(whole) as real + BigNum.DecimalValue(fraction) as real / BigNum.Pow10(|fraction|) as real)
    else None
  }

  /**
   * The token `read_number` makes of its text: a float when it has a dot;
   * otherwise an i64 when it fits, else a big integer.
   */
  function NumberToken(c: Cursor, text: string, isFloat: bool): Result<Token, FlowError>
  {
    if isFloat then
      match ParseDecimal(text)
      case Some(f) => Ok(Float(f))
      case None => Fail(c, "Invalid float literal: " + text)
    else
      match Ast.ParseI64(text)
      case Some(i) => Ok(Integer(i))
      case None =>
        if BigNum.ValidNumeral(text) then Ok(BigInteger(BigNum.FromInt(BigNum.NumeralValue(text) * BigNum.BASE)))
        else Fail(c, "Invalid integer literal: " + text)
  }

  /** The loop of `read_number`: digits, and one dot at most (a second one ends the literal). */
  function ScanNumber(input: seq<char>, c: Cursor, text: string, isFloat: bool): (r: (Cursor, Result<Token, FlowError>))
    requires c.pos <= |input|
    ensures c.pos <= r.0.pos <= |input|
    ensures r.1.Ok? ==> r.1.value.Integer? || r.1.value.BigInteger? || r.1.value.Float?
    ensures r.1.Err? ==> r.1.error.LexerError?
    decreases |input| - c.pos
  {
    if c.pos < |input| && (IsAsciiDigit(input[c.pos]) || input[c.pos] == '.') then
      if input[c.pos] == '.' && isFloat then (c, NumberToken(c, text, isFloat))
      else ScanNumber(input, Step(input, c), text + [input[c.pos]], isFloat || input[c.pos] == '.')
    else (c, NumberToken(c, text, isFloat))
  }

  // ---------------------------------------------------------------------
  // Identifiers and keywords
  // ---------------------------------------------------------------------

  /** The keyword table of `read_identifier`; `true` and `false` are Boolean literals. */
  function Keywords(): map<string, Token>
  {
    map[
      "let" := Let, "be" := Be, "def" := Def, "with" := With, "do" := Do, "end" := End,
      "if" := If, "then" := Then, "else" := Else, "while" := While, "for" := For, "from" := From,
      "to" := To, "show" := Show, "return" := Return, "import" := Import, "export" := Export,
      "as" := As, "try" := Try, "catch" := Catch, "true" := Boolean(true), "false" := Boolean(false),
      "and" := And, "or" := Or, "not" := Not
    ]
  }

  function WordToken(word: string): (t: Token)
    ensures t != Eof && t != Newline
  {
    if word in Keywords() then Keywords()[word] else Identifier(word)
  }

  /** The loop of `read_identifier`: letters, digits and underscores. */
  function ScanWord(input: seq<char>, c: Cursor, text: string): (r: (Cursor, Token))
    requires c.pos <= |input|
    ensures c.pos <= r.0.pos <= |input|
    ensures r.1 != Eof
    decreases |input| - c.pos
  {
    if c.pos < |input| && IsWordChar(input[c.pos]) then ScanWord(input, Step(input, c), text + [input[c.pos]])
    else (c, WordToken(text))
  }

  // ---------------------------------------------------------------------
  // One token
  // ---------------------------------------------------------------------

  /** A one-character token, or None. */
  function Single(ch: char): Option<Token>
  {
    if ch == '+' then Some(Plus)
    else if ch == '-' then Some(Minus)
    else if ch == '*' then Some(Multiply)
    else if ch == '/' then Some(Divide)
    else if ch == '%' then Some(Modulo)
    else if ch == '(' then Some(LeftParen)
    else if ch == ')' then Some(RightParen)
    else if ch == '[' then Some(LeftBracket)
    else if ch == ']' then Some(RightBracket)
    else if ch == '{' then Some(LeftBrace)
    else if ch == '}' then Some(RightBrace)
    else if ch == ',' then Some(Comma)
    else if ch == ':' then Some(Colon)
    else None
  }

  /** A token of one character, or of two when the second is '=' (`a` without it, `b` with it). */
  function MaybeEquals(input: seq<char>, c: Cursor, a: Token, b: Token): (r: (Cursor, Result<Token, FlowError>))
    requires c.pos < |input|
  {
    var d := Step(input, c);
    if CharAt(input, d.pos) == '=' then (Step(input, d), Ok(b)) else (d, Ok(a))
  }

  /** At '.': three dots make an Ellipsis, otherwise a Dot. */
  function ScanDots(input: seq<char>, c: Cursor): (r: (Cursor, Result<Token, FlowError>))
    requires c.pos < |input|
  {
    if CharAt(input, c.pos + 1) == '.' && CharAt(input, c.pos + 2) == '.' then
      (Step(input, Step(input, Step(input, c))), Ok(Ellipsis))
    else (Step(input, c), Ok(Dot))
  }

  /** At '=': "==" is Equal, "=>" is Arrow, otherwise Assign. */
  function ScanEquals(input: seq<char>, c: Cursor): (r: (Cursor, Result<Token, FlowError>))
    requires c.pos < |input|
  {
    var d := Step(input, c);
    if CharAt(input, d.pos) == '=' then (Step(input, d), Ok(Equal))
    else if CharAt(input, d.pos) == '>' then (Step(input, d), Ok(Arrow))
    else (d, Ok(Assign))
  }

  /** At '!': only "!=" is a token; a lone '!' is an error. */
  function ScanBang(input: seq<char>, c: Cursor): (r: (Cursor, Result<Token, FlowError>))
    requires c.pos < |input|
  {
    var d := Step(input, c);
    if CharAt(input, d.pos) == '=' then (Step(input, d), Ok(NotEqual))
    else (d, Fail(d, "Unexpected character '!'. Did you mean '!='?"))
  }

  /** `next_token`, at a character that is not whitespace (other than a newline) and not '#'. */
  function Scan(input: seq<char>, c: Cursor): (r: (Cursor, Result<Token, FlowError>))
    requires c.pos < |input|
    ensures c.pos <= r.0.pos <= |input|
    ensures r.1.Ok? ==> r.0.pos > c.pos && r.1.value != Eof
    ensures r.1.Err? ==> r.1.error.LexerError?
  {
    var ch := input[c.pos];
    if ch == '\n' then
      var d := Step(input, c);
      (Cursor(d.pos, d.line + 1, 1), Ok(Newline))
    else if Single(ch).Some? then (Step(input, c), Ok(Single(ch).value))
    else if ch == '.' then ScanDots(input, c)
    else if ch == '=' then ScanEquals(input, c)
    else if ch == '!' then ScanBang(input, c)
    else if ch == '>' then MaybeEquals(input, c, Greater, GreaterEqual)
    else if ch == '<' then MaybeEquals(input, c, Less, LessEqual)
    else if ch == '"' then ScanString(input, c)
    else if IsAsciiDigit(ch) then ScanNumber(input, c, "", false)
    else if IsAsciiAlphabetic(ch) || ch == '_' then
      var (d, t) := ScanWord(input, c, "");
      (d, Ok(t))
    else (c, Fail(c, "Unexpected character: '" + [ch] + "'"))
  }

  // ---------------------------------------------------------------------
  // The whole input
  // ---------------------------------------------------------------------

  function Prepend(t: Token, rest: Result<seq<Token>, FlowError>): Result<seq<Token>, FlowError>
  {
    match rest
    case Ok(ts) => Ok([t] + ts)
    case Err(e) => Err(e)
  }

  /** `tokenize` from a cursor: skip blanks and comments, take a token, until the end, then Eof; the first error stops it. */
  function Lex(input: seq<char>, c: Cursor): Result<seq<Token>, FlowError>
    requires c.pos <= |input|
    decreases |input| - c.pos
  {
    if c.pos >= |input| then Ok([Eof])
    else
      var d := SkipSpaces(input, c);
      if d.pos >= |input| then Ok([Eof])
      else if input[d.pos] == '#' then Lex(input, SkipToNewline(input, d))
      else
        var (e, r) := Scan(input, d);
        match r
        case Err(err) => Err(err)
        case Ok(t) => Prepend(t, Lex(input, e))
  }

  /** The tokens of a whole source text, from line 1, column 1. */
  function TokensOf(source: string): Result<seq<Token>, FlowError>
  {
    Lex(source, Cursor(0, 1, 1))
  }

  // ---------------------------------------------------------------------
  // The lexer object
  // ---------------------------------------------------------------------

  class Lexer {
    var input: seq<char>
    var position: nat
    var line: nat
    var column: nat

    function At(): Cursor
      reads this
    {
      Cursor(position, line, column)
    }

    predicate Valid()
      reads this
    {
      position <= |input|
    }

    /** `Lexer::new`: at the first character, line 1, column 1. */
    constructor (source: string)
      ensures input == source && At() == Cursor(0, 1, 1) && Valid()
    {
      input := source;
      position := 0;
      line := 1;
      column := 1;
    }

    function IsAtEnd(): (r: bool)
      reads this
      ensures r <==> position >= |input|
    {
      position >= |input|
    }

    function CurrentChar(): (r: char)
      reads this
      ensures r == CharAt(input, position)
    {
      if IsAtEnd() then '\0' else input[position]
    }

    method Advance()
      requires Valid()
      modifies this
      ensures Valid() && input == old(input) && At() == Step(input, old(At()))
    {
      if !IsAtEnd() {
        position := position + 1;
        column := column + 1;
      }
    }

    /** `tokenize`: the tokens up to the end of the input and one Eof, or the first error. */
    method Tokenize() returns (r: Result<seq<Token>, FlowError>)
      requires Valid()
      modifies this
      ensures Valid() && input == old(input)
      ensures r == Lex(input, old(At()))
    {
      var tokens: seq<Token> := [];
      ghost var start := At();
      assert Prepends(tokens, Lex(input, start)) == Lex(input, start) by {
        if Lex(input, start).Ok? {
          assert tokens + Lex(input, start).value == Lex(input, start).value;
        }
      }
      while !IsAtEnd()
        invariant Valid() && input == old(input)
        invariant Lex(input, start) == Prepends(tokens, Lex(input, At()))
        decreases |input| - position
      {
        ghost var before := At();
        SkipWhitespace();
        if IsAtEnd() {
          break;
        }
        if CurrentChar() == '#' {
          SkipComment();
          continue;
        }
        var token := NextToken();
        if token.Err? {
          PrependsError(tokens, token.error);
          return Err(token.error);
        }
        PrependsAppend(tokens, token.value, Lex(input, At()));
        tokens := tokens + [token.value];
      }
      r := Ok(tokens + [Eof]);
    }

    /** `next_token`, at a character that is not a blank or '#'. */
    method NextToken() returns (r: Result<Token, FlowError>)
      requires Valid() && position < |input|
      modifies this
      ensures Valid() && input == old(input)
      ensures (At(), r) == Scan(input, old(At()))
    {
      hide ScanString, ScanNumber, ScanWord, ScanDots, ScanEquals, ScanBang, MaybeEquals, Lex, SkipSpaces, SkipToNewline;
      var ch := CurrentChar();
      if ch == '\n' {
        Advance();
        line := line + 1;
        column := 1;
        return Ok(Newline);
      }
      var single := Single(ch);
      if single.Some? {
        Advance();
        return Ok(single.value);
      }
      if ch == '.' {
        r := ReadDots();
        return;
      }
      if ch == '=' {
        r := ReadEquals();
        return;
      }
      if ch == '!' {
        r := ReadBang();
        return;
      }
      if ch == '>' {
        r := ReadMaybeEquals(Greater, GreaterEqual);
        return;
      }
      if ch == '<' {
        r := ReadMaybeEquals(Less, LessEqual);
        return;
      }
      if ch == '"' {
        r := ReadString();
        return;
      }
      if IsAsciiDigit(ch) {
        r := ReadNumber();
        return;
      }
      if IsAsciiAlphabetic(ch) || ch == '_' {
        var token := ReadIdentifier();
        return Ok(token);
      }
      r := Fail(At(), "Unexpected character: '" + [ch] + "'");
    }

    /** The '.' arm of `next_token`. */
    method ReadDots() returns (r: Result<Token, FlowError>)
      requires Valid() && position < |input|
      modifies this
      ensures Valid() && input == old(input)
      ensures (At(), r) == ScanDots(input, old(At()))
    {
      if CharAt(input, position + 1) == '.' && CharAt(input, position + 2) == '.' {
        Advance();
        Advance();
        Advance();
        return Ok(Ellipsis);
      }
      Advance();
      return Ok(Dot);
    }

    /** The '=' arm of `next_token`. */
    method ReadEquals() returns (r: Result<Token, FlowError>)
      requires Valid() && position < |input|
      modifies this
      ensures Valid() && input == old(input)
      ensures (At(), r) == ScanEquals(input, old(At()))
    {
      Advance();
      if CurrentChar() == '=' {
        Advance();
        return Ok(Equal);
      } else if CurrentChar() == '>' {
        Advance();
        return Ok(Arrow);
      }
      return Ok(Assign);
    }

    /** The '!' arm of `next_token`. */
    method ReadBang() returns (r: Result<Token, FlowError>)
      requires Valid() && position < |input|
      modifies this
      ensures Valid() && input == old(input)
      ensures (At(), r) == ScanBang(input, old(At()))
    {
      Advance();
      if CurrentChar() == '=' {
        Advance();
        return Ok(NotEqual);
      }
      return Fail(At(), "Unexpected character '!'. Did you mean '!='?");
    }

    /** The '<' and '>' arms of `next_token`: `a` alone, `b` when '=' follows. */
    method ReadMaybeEquals(a: Token, b: Token) returns (r: Result<Token, FlowError>)
      requires Valid() && position < |input|
      modifies this
      ensures Valid() && input == old(input)
      ensures At() == MaybeEquals(input, old(At()), a, b).0
      ensures r == MaybeEquals(input, old(At()), a, b).1
    {
      Advance();
      if CurrentChar() == '=' {
        Advance();
        return Ok(b);
      }
      return Ok(a);
    }

    /** `read_string`, from the opening quote to past the closing one. */
    method ReadString() returns (r: Result<Token, FlowError>)
      requires Valid() && position < |input|
      modifies this
      ensures Valid() && input == old(input)
      ensures (At(), r) == ScanString(input, old(At()))
    {
      Advance();
      var value: string := "";
      while !IsAtEnd() && CurrentChar() != '"'
        invariant Valid() && input == old(input)
        invariant ScanString(input, old(At())) == ScanStringBody(input, At(), value)
        decreases |input| - position
      {
        if CurrentChar() == '\\' {
          Advance();
          if IsAtEnd() {
            return Fail(At(), "Unterminated string literal");
          }
          var escaped := Unescape(CurrentChar());
          if escaped.None? {
            return Fail(At(), "Invalid escape sequence: \\" + [CurrentChar()]);
          }
          value := value + [escaped.value];
        } else {
          value := value + [CurrentChar()];
        }
        Advance();
      }
      if IsAtEnd() {
        return Fail(At(), "Unterminated string literal");
      }
      Advance();
      r := Ok(String(value));
    }

    /** `read_number`: digits with at most one dot; then an i64, a big integer or a float. */
    method ReadNumber() returns (r: Result<Token, FlowError>)
      requires Valid()
      modifies this
      ensures Valid() && input == old(input)
      ensures (At(), r) == ScanNumber(input, old(At()), "", false)
    {
      var value: string := "";
      var isFloat := false;
      while !IsAtEnd() && (IsAsciiDigit(CurrentChar()) || CurrentChar() == '.')
        invariant Valid() && input == old(input)
        invariant ScanNumber(input, old(At()), "", false) == ScanNumber(input, At(), value, isFloat)
        decreases |input| - position
      {
        if CurrentChar() == '.' {
          if isFloat {
            break;
          }
          isFloat := true;
        }
        value := value + [CurrentChar()];
        Advance();
      }
      if isFloat {
        var parsed := ParseDecimal(value);
        if parsed.None? {
          return Fail(At(), "Invalid float literal: " + value);
        }
        return Ok(Float(parsed.value));
      }
      var small := Ast.ParseI64(value);
      if small.Some? {
        return Ok(Integer(small.value));
      }
      var big := BigNum.FromString(value);
      if big.Err? {
        return Fail(At(), "Invalid integer literal: " + value);
      }
      r := Ok(BigInteger(big.value));
    }

    /** `read_identifier`: the longest run of letters, digits and underscores, then the keyword table. */
    method ReadIdentifier() returns (t: Token)
      requires Valid()
      modifies this
      ensures Valid() && input == old(input)
      ensures (At(), t) == ScanWord(input, old(At()), "")
    {
      var value: string := "";
      while !IsAtEnd() && IsWordChar(CurrentChar())
        invariant Valid() && input == old(input)
        invariant ScanWord(input, old(At()), "") == ScanWord(input, At(), value)
        decreases |input| - position
      {
        value := value + [CurrentChar()];
        Advance();
      }
      t := WordToken(value);
    }

    method SkipWhitespace()
      requires Valid()
      modifies this
      ensures Valid() && input == old(input) && At() == SkipSpaces(input, old(At()))
    {
      while !IsAtEnd() && IsWhitespace(CurrentChar()) && CurrentChar() != '\n'
        invariant Valid() && input == old(input)
        invariant SkipSpaces(input, old(At())) == SkipSpaces(input, At())
        decreases |input| - position
      {
        Advance();
      }
    }

    method SkipComment()
      requires Valid()
      modifies this
      ensures Valid() && input == old(input) && At() == SkipToNewline(input, old(At()))
    {
      while !IsAtEnd() && CurrentChar() != '\n'
        invariant Valid() && input == old(input)
        invariant SkipToNewline(input, old(At())) == SkipToNewline(input, At())
        decreases |input| - position
      {
        Advance();
      }
    }
  }

  /** The tokens gathered so far in front of what the rest of the input lexes to. */
  function Prepends(tokens: seq<Token>, rest: Result<seq<Token>, FlowError>): Result<seq<Token>, FlowError>
  {
    match rest
    case Ok(ts) => Ok(tokens + ts)
    case Err(e) => Err(e)
  }

  lemma PrependsError(tokens: seq<Token>, e: FlowError)
    ensures Prepends(tokens, Err(e)) == Err(e)
  {
  }

  lemma PrependsAppend(tokens: seq<Token>, t: Token, rest: Result<seq<Token>, FlowError>)
    ensures Prepends(tokens, Prepend(t, rest)) == Prepends(tokens + [t], rest)
  {
    if rest.Ok? {
      assert tokens + ([t] + rest.value) == (tokens + [t]) + rest.value;
    }
  }
}
