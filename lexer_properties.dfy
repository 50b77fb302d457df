/**
 * What the FlowLang lexer (src/lexer.rs) promises about whole inputs: the
 * shape of every token list, which literals come back from which texts, and
 * where blanks, comments and errors leave the cursor.
 */
module LexingProperties {
  import opened Wrappers
  import BigNum
  import Errors
  import Ast
  import opened Lexing

  // ---------------------------------------------------------------------
  // The shape of every token list
  // ---------------------------------------------------------------------

  /** Exactly one Eof, and it comes last. */
  predicate EndsWithSingleEof(ts: seq<Token>)
  {
    |ts| > 0 && ts[|ts| - 1] == Eof && forall i :: 0 <= i < |ts| - 1 ==> ts[i] != Eof
  }

  /** `tokenize` ends every token list with one Eof and no other; every failure is a lexer error. */
  lemma {:induction false} LexShape(input: seq<char>, c: Cursor)
    requires c.pos <= |input|
    ensures Lex(input, c).Ok? ==> EndsWithSingleEof(Lex(input, c).value)
    ensures Lex(input, c).Err? ==> Lex(input, c).error.LexerError?
    decreases |input| - c.pos
  {
    hide Scan;
    if c.pos < |input| {
      var d := SkipSpaces(input, c);
      if d.pos < |input| {
        if input[d.pos] == '#' {
          LexShape(input, SkipToNewline(input, d));
        } else {
          var (e, r) := Scan(input, d);
          if r.Ok? {
            LexShape(input, e);
            if Lex(input, e).Ok? {
              var ts := Lex(input, e).value;
              assert Lex(input, c).value == [r.value] + ts;
            }
          }
        }
      }
    }
  }

  // ---------------------------------------------------------------------
  // One step of `tokenize`, one kind of character at a time
  // ---------------------------------------------------------------------

  /** At a character that is neither a blank nor '#', `tokenize` takes one token and goes on after it. */
  lemma LexTakesToken(input: seq<char>, c: Cursor)
    requires c.pos < |input| && (!IsWhitespace(input[c.pos]) || input[c.pos] == '\n') && input[c.pos] != '#'
    ensures Lex(input, c) == (var r := Scan(input, c); if r.1.Err? then Err(r.1.error) else Prepend(r.1.value, Lex(input, r.0)))
  {
    hide Scan;
    assert SkipSpaces(input, c) == c;
  }

  lemma LexAtEnd(input: seq<char>, c: Cursor)
    requires c.pos == |input|
    ensures Lex(input, c) == Ok([Eof])
  {
  }

  lemma ScanAtDigit(input: seq<char>, c: Cursor)
    requires c.pos < |input| && IsAsciiDigit(input[c.pos])
    ensures Scan(input, c) == ScanNumber(input, c, "", false)
  {
    hide ScanString, ScanNumber, ScanWord, ScanDots, ScanEquals, ScanBang, MaybeEquals, WordToken;
  }

  lemma ScanAtQuote(input: seq<char>, c: Cursor)
    requires c.pos < |input| && input[c.pos] == '"'
    ensures Scan(input, c) == ScanStringBody(input, Step(input, c), "")
  {
    hide ScanStringBody, ScanNumber, ScanWord, ScanDots, ScanEquals, ScanBang, MaybeEquals, WordToken;
  }

  lemma ScanAtWordStart(input: seq<char>, c: Cursor)
    requires c.pos < |input| && (IsAsciiAlphabetic(input[c.pos]) || input[c.pos] == '_')
    ensures Scan(input, c) == (ScanWord(input, c, "").0, Ok(ScanWord(input, c, "").1))
  {
    hide ScanString, ScanNumber, ScanWord, ScanDots, ScanEquals, ScanBang, MaybeEquals, WordToken;
  }

  lemma ScanAtSingle(input: seq<char>, c: Cursor)
    requires c.pos < |input| && Single(input[c.pos]).Some?
    ensures Scan(input, c) == (Step(input, c), Ok(Single(input[c.pos]).value))
  {
    hide ScanString, ScanNumber, ScanWord, ScanDots, ScanEquals, ScanBang, MaybeEquals, WordToken;
  }

  // ---------------------------------------------------------------------
  // Blanks and comments
  // ---------------------------------------------------------------------

  /** A blank other than a newline in front of the rest changes nothing, not even the columns of errors. */
  lemma BlankIsSkipped(input: seq<char>, c: Cursor)
    requires c.pos < |input| && IsWhitespace(input[c.pos]) && input[c.pos] != '\n'
    ensures Lex(input, c) == Lex(input, Step(input, c))
  {
  }

  /** `skip_comment` stops at the first newline, or at the end, one column per character. */
  lemma {:induction false} SkipToNewlineStops(input: seq<char>, c: Cursor, k: nat)
    requires c.pos + k <= |input|
    requires forall i :: c.pos <= i < c.pos + k ==> input[i] != '\n'
    requires c.pos + k == |input| || input[c.pos + k] == '\n'
    ensures SkipToNewline(input, c) == Cursor(c.pos + k, c.line, c.column + k)
    decreases k
  {
    if k > 0 {
      SkipToNewlineStops(input, Step(input, c), k - 1);
    }
  }

  /** A comment runs from '#' to the end of its line and yields no token; the newline is still a token. */
  lemma CommentIsSkipped(input: seq<char>, c: Cursor, k: nat)
    requires c.pos + k <= |input| && k > 0 && input[c.pos] == '#'
    requires forall i :: c.pos <= i < c.pos + k ==> input[i] != '\n'
    requires c.pos + k == |input| || input[c.pos + k] == '\n'
    ensures Lex(input, c) == Lex(input, Cursor(c.pos + k, c.line, c.column + k))
  {
    assert !IsWhitespace('#');
    SkipToNewlineStops(input, c, k);
  }

  /** A newline is a token of its own; the next token is on the following line, column 1. */
  lemma NewlineStartsLine(input: seq<char>, c: Cursor)
    requires c.pos < |input| && input[c.pos] == '\n'
    ensures Lex(input, c) == Prepend(Newline, Lex(input, Cursor(c.pos + 1, c.line + 1, 1)))
  {
    LexTakesToken(input, c);
    hide Lex;
    assert Scan(input, c) == (Cursor(c.pos + 1, c.line + 1, 1), Ok(Newline)) by {
      hide ScanString, ScanNumber, ScanWord, ScanDots, ScanEquals, ScanBang, MaybeEquals, WordToken;
    }
  }

  // ---------------------------------------------------------------------
  // Number literals
  // ---------------------------------------------------------------------

  /**
   * The token `read_number` makes of the digits of n: an Integer when n fits
   * in an i64; beyond, the BigInteger that `from_string` builds, which carries
   * a leading zero limb and so stands for n times 10^9.
   */
  function NumberLiteral(n: nat): Token
  {
    if n <= BigNum.I64_MAX then Integer(n) else BigInteger(BigNum.FromInt(n * BigNum.BASE))
  }

  /** A literal beyond the i64 range lexes to a big integer a billion times too large. */
  lemma LargeLiteralScaled(n: nat)
    requires n > BigNum.I64_MAX
    ensures NumberLiteral(n).BigInteger?
    ensures BigNum.Value(NumberLiteral(n).big) == n * BigNum.BASE != n
  {
    BigNum.FromIntCorrect(n * BigNum.BASE);
  }

  /** What `read_number` has collected so far: a digit first, then digits and at most one dot, which `isFloat` records. */
  predicate NumberText(text: string, isFloat: bool)
  {
    |text| > 0 && IsAsciiDigit(text[0]) &&
    (forall i :: 0 <= i < |text| ==> IsAsciiDigit(text[i]) || text[i] == '.') &&
    (isFloat <==> FirstDot(text) < |text|) &&
    (forall i :: FirstDot(text) < i < |text| ==> text[i] != '.')
  }

  /** Every text `read_number` can collect is a valid float or integer literal. */
  lemma NumberTextConverts(c: Cursor, text: string, isFloat: bool)
    requires NumberText(text, isFloat)
    ensures NumberToken(c, text, isFloat).Ok?
  {
    var k := FirstDot(text);
    if isFloat {
      var whole := text[..k];
      var fraction := text[k + 1..];
      assert text[0] != '.';
      assert BigNum.AllDigits(whole) by {
        forall i | 0 <= i < |whole| ensures BigNum.IsDigit(whole[i]) {
          assert whole[i] == text[i] && text[i] != '.';
        }
      }
      assert BigNum.AllDigits(fraction) by {
        forall i | 0 <= i < |fraction| ensures BigNum.IsDigit(fraction[i]) {
          assert fraction[i] == text[k + 1 + i] && text[k + 1 + i] != '.';
        }
      }
      assert |whole| > 0;
    } else {
      assert BigNum.AllDigits(text) by {
        forall i | 0 <= i < |text| ensures BigNum.IsDigit(text[i]) {
          assert text[i] != '.';
        }
      }
      assert BigNum.ValidNumeral(text);
    }
  }

  /** Appending a digit, or the first dot, keeps a number text one. */
  lemma NumberTextGrows(text: string, isFloat: bool, ch: char)
    requires NumberText(text, isFloat)
    requires IsAsciiDigit(ch) || (ch == '.' && !isFloat)
    ensures NumberText(text + [ch], isFloat || ch == '.')
  {
    var t := text + [ch];
    var k := FirstDot(text);
    var k' := FirstDot(t);
    assert forall i :: 0 <= i < |text| ==> t[i] == text[i];
    if k < |text| {
      assert t[k] == '.';
      assert k' == k;
    } else if ch == '.' {
      assert t[|text|] == '.';
      assert k' == |text|;
    } else {
      assert k' == |t|;
    }
  }

  /** The loop of `read_number` never fails once it holds a number text. */
  lemma {:induction false} ScanNumberSucceeds(input: seq<char>, c: Cursor, text: string, isFloat: bool)
    requires c.pos <= |input| && NumberText(text, isFloat)
    ensures ScanNumber(input, c, text, isFloat).1.Ok?
    decreases |input| - c.pos
  {
    if c.pos < |input| && (IsAsciiDigit(input[c.pos]) || input[c.pos] == '.') {
      if input[c.pos] == '.' && isFloat {
        NumberTextConverts(c, text, isFloat);
      } else {
        NumberTextGrows(text, isFloat, input[c.pos]);
        ScanNumberSucceeds(input, Step(input, c), text + [input[c.pos]], isFloat || input[c.pos] == '.');
      }
    } else {
      NumberTextConverts(c, text, isFloat);
    }
  }

  /** `read_number` never fails: a token that starts with a digit is always a number. */
  lemma DigitStartsNumber(input: seq<char>, c: Cursor)
    requires c.pos < |input| && IsAsciiDigit(input[c.pos])
    ensures Scan(input, c).1.Ok?
    ensures Scan(input, c).1.value.Integer? || Scan(input, c).1.value.BigInteger? || Scan(input, c).1.value.Float?
  {
    var ch := input[c.pos];
    ScanAtDigit(input, c);
    hide Scan;
    assert NumberText([ch], false) by {
      assert FirstDot([ch]) == 1 by {
        assert FirstDot([ch][1..]) == 0;
      }
    }
    assert "" + [ch] == [ch];
    ScanNumberSucceeds(input, Step(input, c), [ch], false);
  }

  /** Over a run of digits to the end of the input, `read_number` collects all of them. */
  lemma {:induction false} ScanDigits(input: seq<char>, c: Cursor, text: string)
    requires c.pos <= |input| && BigNum.AllDigits(input[c.pos..])
    ensures var e := Cursor(|input|, c.line, c.column + (|input| - c.pos));
      ScanNumber(input, c, text, false) == (e, NumberToken(e, text + input[c.pos..], false))
    decreases |input| - c.pos
  {
    if c.pos < |input| {
      assert BigNum.IsDigit(input[c.pos..][0]);
      assert input[c.pos + 1..] == input[c.pos..][1..];
      ScanDigits(input, Step(input, c), text + [input[c.pos]]);
      assert text + [input[c.pos]] + input[c.pos + 1..] == text + input[c.pos..];
    } else {
      assert text + input[c.pos..] == text;
    }
  }

  /** The token of a text of digits is the number it spells. */
  lemma DigitsToken(c: Cursor, s: string)
    requires |s| > 0 && BigNum.AllDigits(s)
    ensures NumberToken(c, s, false) == Ok(NumberLiteral(BigNum.DecimalValue(s)))
  {
    var n := BigNum.DecimalValue(s);
    assert BigNum.ValidNumeral(s) && BigNum.NumeralValue(s) == n by {
      assert BigNum.IsDigit(s[0]);
    }
    if n <= BigNum.I64_MAX {
      Ast.ParseNumeral(s);
    } else {
      assert BigNum.IsDigit(s[0]);
      assert Ast.ParseI64(s).None?;
    }
  }

  /** Digits up to the end of the input lex to one number literal and Eof. */
  lemma LexDigits(input: seq<char>, c: Cursor)
    requires c.pos < |input| && BigNum.AllDigits(input[c.pos..])
    ensures Lex(input, c) == Ok([NumberLiteral(BigNum.DecimalValue(input[c.pos..])), Eof])
  {
    hide Lex, Scan, ScanNumber, NumberToken;
    assert BigNum.IsDigit(input[c.pos..][0]);
    var e := Cursor(|input|, c.line, c.column + (|input| - c.pos));
    LexTakesToken(input, c);
    ScanAtDigit(input, c);
    ScanDigits(input, c, "");
    assert "" + input[c.pos..] == input[c.pos..];
    DigitsToken(e, input[c.pos..]);
    LexAtEnd(input, e);
    var t := NumberLiteral(BigNum.DecimalValue(input[c.pos..]));
    assert Scan(input, c) == (e, Ok(t));
    assert Lex(input, c) == Prepend(t, Lex(input, e));
    assert [t] + [Eof] == [t, Eof];
  }

  /** The decimal text of every natural number lexes back to that number, with no other token before Eof. */
  lemma LexNatural(n: nat)
    ensures TokensOf(BigNum.NatToString(n)) == Ok([NumberLiteral(n), Eof])
  {
    var s := BigNum.NatToString(n);
    BigNum.NatToStringParses(n);
    assert s[0..] == s;
    LexDigits(s, Cursor(0, 1, 1));
  }

  /** There are no negative literals: "-" and then digits is a Minus and a natural number. */
  lemma MinusIsSeparate(n: nat)
    ensures TokensOf("-" + BigNum.NatToString(n)) == Ok([Minus, NumberLiteral(n), Eof])
  {
    hide Lex, Scan;
    var s := "-" + BigNum.NatToString(n);
    BigNum.NatToStringParses(n);
    assert s[1..] == BigNum.NatToString(n);
    LexTakesToken(s, Cursor(0, 1, 1));
    ScanAtSingle(s, Cursor(0, 1, 1));
    LexDigits(s, Cursor(1, 1, 2));
    var rest := Lex(s, Cursor(1, 1, 2));
    assert Scan(s, Cursor(0, 1, 1)) == (Cursor(1, 1, 2), Ok(Minus));
    assert Lex(s, Cursor(0, 1, 1)) == Prepend(Minus, rest);
    assert [Minus] + [NumberLiteral(n), Eof] == [Minus, NumberLiteral(n), Eof];
  }

  // ---------------------------------------------------------------------
  // String literals
  // ---------------------------------------------------------------------

  /** The text that stands for one character inside a string literal. */
  function EscapeChar(ch: char): (e: string)
    ensures 1 <= |e| <= 2
    ensures |e| == 1 ==> e == [ch]
    ensures |e| == 2 ==> e[0] == '\\'
  {
    if ch == '\n' then "\\n"
    else if ch == '\t' then "\\t"
    else if ch == '\r' then "\\r"
    else if ch == '\\' then "\\\\"
    else if ch == '"' then "\\\""
    else [ch]
  }

  /** The text of a string literal's body that reads back as `s`. */
  function Escape(s: string): (e: string)
    ensures |e| >= |s|
  {
    if |s| == 0 then "" else EscapeChar(s[0]) + Escape(s[1..])
  }

  /** Every escape EscapeChar writes is one that `read_string` reads back. */
  lemma EscapeCharReadsBack(ch: char)
    ensures |EscapeChar(ch)| == 1 ==> ch != '"' && ch != '\\'
    ensures |EscapeChar(ch)| == 2 ==> EscapeChar(ch)[0] == '\\' && Unescape(EscapeChar(ch)[1]) == Some(ch)
  {
  }

  /** One plain character of a string literal is copied as it is. */
  lemma ScanStringPlainStep(input: seq<char>, c: Cursor, value: string)
    requires c.pos < |input| && input[c.pos] != '"' && input[c.pos] != '\\'
    ensures ScanStringBody(input, c, value) == ScanStringBody(input, Step(input, c), value + [input[c.pos]])
  {
  }

  /** A backslash and a known escape character stand for one character. */
  lemma ScanStringEscapeStep(input: seq<char>, c: Cursor, value: string, ch: char)
    requires c.pos + 1 < |input| && input[c.pos] == '\\' && Unescape(input[c.pos + 1]) == Some(ch)
    ensures ScanStringBody(input, c, value) == ScanStringBody(input, Step(input, Step(input, c)), value + [ch])
  {
  }

  /** Where a concatenation sits in a sequence, so do its two parts. */
  lemma SliceOfConcat<T>(input: seq<T>, p: nat, front: seq<T>, back: seq<T>)
    requires p + |front| + |back| <= |input| && input[p .. p + |front| + |back|] == front + back
    ensures forall i :: 0 <= i < |front| ==> input[p + i] == front[i]
    ensures input[p + |front| .. p + |front| + |back|] == back
  {
    var w := input[p .. p + |front| + |back|];
    forall i | 0 <= i < |front|
      ensures input[p + i] == front[i]
    {
      assert input[p + i] == w[i];
    }
    assert input[p + |front| .. p + |front| + |back|] == w[|front|..];
  }

  /** The text `t` stands in the input from index `p` on. */
  predicate OccursAt(input: seq<char>, p: nat, t: string)
  {
    p + |t| <= |input| && input[p .. p + |t|] == t
  }

  /** Where an escaped text sits in the input, so do its first escape and the rest. */
  lemma EscapeSplit(input: seq<char>, p: nat, s: string)
    requires |s| > 0 && OccursAt(input, p, Escape(s))
    ensures |Escape(s)| == |EscapeChar(s[0])| + |Escape(s[1..])|
    ensures input[p] == EscapeChar(s[0])[0]
    ensures |EscapeChar(s[0])| == 2 ==> input[p + 1] == EscapeChar(s[0])[1]
    ensures OccursAt(input, p + |EscapeChar(s[0])|, Escape(s[1..]))
  {
    hide Escape, EscapeChar;
    EscapeUnfold(s);
    SliceOfConcat(input, p, EscapeChar(s[0]), Escape(s[1..]));
  }

  lemma EscapeUnfold(s: string)
    requires |s| > 0
    ensures Escape(s) == EscapeChar(s[0]) + Escape(s[1..])
  {
    hide EscapeChar;
  }

  lemma OccursWithQuote(input: seq<char>, p: nat, t: string)
    ensures OccursAt(input, p, t + "\"") <==> OccursAt(input, p, t) && p + |t| < |input| && input[p + |t|] == '"'
  {
    if OccursAt(input, p, t + "\"") {
      SliceOfConcat(input, p, t, "\"");
      assert input[p .. p + |t|] == input[p .. p + |t| + 1][..|t|];
    }
    if OccursAt(input, p, t) && p + |t| < |input| && input[p + |t|] == '"' {
      assert input[p .. p + |t| + 1] == input[p .. p + |t|] + [input[p + |t|]];
    }
  }

  /** The closing quote ends a string literal. */
  lemma ScanStringCloses(input: seq<char>, c: Cursor, value: string)
    requires c.pos < |input| && input[c.pos] == '"'
    ensures ScanStringBody(input, c, value) == (Step(input, c), Ok(String(value)))
  {
  }

  /** Over an escaped body and its closing quote, the loop of `read_string` yields the unescaped text. */
  lemma {:induction false} ScanEscaped(input: seq<char>, c: Cursor, value: string, s: string)
    requires OccursAt(input, c.pos, Escape(s) + "\"")
    ensures ScanStringBody(input, c, value)
      == (Cursor(c.pos + |Escape(s)| + 1, c.line, c.column + |Escape(s)| + 1), Ok(String(value + s)))
    decreases |s|
  {
    hide EscapeChar, OccursAt, ScanStringBody;
    OccursWithQuote(input, c.pos, Escape(s));
    if |s| == 0 {
      assert value + s == value;
      ScanStringCloses(input, c, value);
    } else {
      var ch := s[0];
      var e := EscapeChar(ch);
      var m := |Escape(s[1..])|;
      EscapeSplit(input, c.pos, s);
      EscapeCharReadsBack(ch);
      var d := Cursor(c.pos + |e|, c.line, c.column + |e|);
      OccursWithQuote(input, d.pos, Escape(s[1..]));
      hide Step, Escape;
      assert value + [ch] + s[1..] == value + s;
      if |e| == 1 {
        assert d == Step(input, c);
        ScanStringPlainStep(input, c, value);
      } else {
        assert d == Step(input, Step(input, c));
        ScanStringEscapeStep(input, c, value, ch);
      }
      ScanEscaped(input, d, value + [ch], s[1..]);
    }
  }

  /** Every string, quoted with its escapes, lexes back to itself. */
  lemma LexQuoted(s: string)
    ensures TokensOf("\"" + Escape(s) + "\"") == Ok([String(s), Eof])
  {
    hide Lex, Scan, ScanStringBody;
    var input := "\"" + Escape(s) + "\"";
    var n := |Escape(s)|;
    assert OccursAt(input, 1, Escape(s) + "\"") by {
      assert input[1 .. 1 + n + 1] == Escape(s) + "\"";
    }
    LexTakesToken(input, Cursor(0, 1, 1));
    ScanAtQuote(input, Cursor(0, 1, 1));
    ScanEscaped(input, Cursor(1, 1, 2), "", s);
    assert "" + s == s;
    var e := Cursor(n + 2, 1, n + 3);
    LexAtEnd(input, e);
    assert Scan(input, Cursor(0, 1, 1)) == (e, Ok(String(s)));
    assert Lex(input, Cursor(0, 1, 1)) == Prepend(String(s), Lex(input, e));
    assert [String(s)] + [Eof] == [String(s), Eof];
  }

  /** Over characters that are neither a quote nor a backslash, the loop of `read_string` copies them. */
  lemma {:induction false} ScanPlain(input: seq<char>, c: Cursor, value: string, k: nat)
    requires c.pos + k <= |input|
    requires forall i :: c.pos <= i < c.pos + k ==> input[i] != '"' && input[i] != '\\'
    ensures ScanStringBody(input, c, value)
      == ScanStringBody(input, Cursor(c.pos + k, c.line, c.column + k), value + input[c.pos .. c.pos + k])
    decreases k
  {
    if k == 0 {
      assert value + input[c.pos .. c.pos] == value;
    } else {
      ScanStringPlainStep(input, c, value);
      ScanPlain(input, Step(input, c), value + [input[c.pos]], k - 1);
      assert value + [input[c.pos]] + input[c.pos + 1 .. c.pos + k] == value + input[c.pos .. c.pos + k];
    }
  }

  /** A string literal with no closing quote is an error at the end of the input. */
  lemma UnterminatedString(s: string)
    requires forall i :: 0 <= i < |s| ==> s[i] != '"' && s[i] != '\\'
    ensures TokensOf("\"" + s) == Err(Errors.LexerError(1, |s| + 2, "Unterminated string literal"))
  {
    hide Lex, Scan;
    var input := "\"" + s;
    LexTakesToken(input, Cursor(0, 1, 1));
    ScanAtQuote(input, Cursor(0, 1, 1));
    ScanPlain(input, Cursor(1, 1, 2), "", |s|);
  }

  /** A backslash followed by anything but n, t, r, a backslash or a quote is an error at that character. */
  lemma InvalidEscape(s: string, ch: char)
    requires forall i :: 0 <= i < |s| ==> s[i] != '"' && s[i] != '\\'
    requires Unescape(ch).None?
    ensures TokensOf("\"" + s + "\\" + [ch])
      == Err(Errors.LexerError(1, |s| + 3, "Invalid escape sequence: \\" + [ch]))
  {
    var input := "\"" + s + "\\" + [ch];
    LexTakesToken(input, Cursor(0, 1, 1));
    ScanAtQuote(input, Cursor(0, 1, 1));
    ScanPlain(input, Cursor(1, 1, 2), "", |s|);
    assert input[|s| + 1] == '\\' && input[|s| + 2] == ch;
  }

  // ---------------------------------------------------------------------
  // Identifiers and keywords
  // ---------------------------------------------------------------------

  /** The words `read_identifier` collects whole: a letter or '_' first, then letters, digits and '_'. */
  predicate IsWord(word: string)
  {
    |word| > 0 && (IsAsciiAlphabetic(word[0]) || word[0] == '_') && forall i :: 0 <= i < |word| ==> IsWordChar(word[i])
  }

  /** Over word characters up to the end of the input, `read_identifier` collects all of them. */
  lemma {:induction false} ScanWordToEnd(input: seq<char>, c: Cursor, text: string)
    requires c.pos <= |input|
    requires forall i :: c.pos <= i < |input| ==> IsWordChar(input[i])
    ensures ScanWord(input, c, text) == (Cursor(|input|, c.line, c.column + (|input| - c.pos)), WordToken(text + input[c.pos..]))
    decreases |input| - c.pos
  {
    hide WordToken;
    if c.pos < |input| {
      ScanWordToEnd(input, Step(input, c), text + [input[c.pos]]);
      assert text + [input[c.pos]] + input[c.pos + 1..] == text + input[c.pos..];
    } else {
      assert text + input[c.pos..] == text;
    }
  }

  /** A word lexes to its keyword, or else to an identifier carrying the word. */
  lemma LexWord(word: string)
    requires IsWord(word)
    ensures TokensOf(word) == Ok([WordToken(word), Eof])
  {
    hide Lex, Scan, ScanWord, WordToken;
    LexTakesToken(word, Cursor(0, 1, 1));
    ScanAtWordStart(word, Cursor(0, 1, 1));
    ScanWordToEnd(word, Cursor(0, 1, 1), "");
    assert "" + word[0..] == word;
    var e := Cursor(|word|, 1, |word| + 1);
    LexAtEnd(word, e);
    assert Scan(word, Cursor(0, 1, 1)) == (e, Ok(WordToken(word)));
    assert Lex(word, Cursor(0, 1, 1)) == Prepend(WordToken(word), Lex(word, e));
    assert [WordToken(word)] + [Eof] == [WordToken(word), Eof];
  }

  /** A keyword never comes back as an identifier, and an identifier always carries its own word. */
  lemma KeywordsAreReserved(word: string)
    ensures WordToken(word).Identifier? <==> word !in Keywords()
    ensures WordToken(word).Identifier? ==> WordToken(word).name == word
  {
    if word in Keywords() {
      hide WordToken;
      KeywordIsNotIdentifier(word);
    }
  }

  lemma KeywordIsNotIdentifier(word: string)
    requires word in Keywords()
    ensures !Keywords()[word].Identifier?
  {
    var k := Keywords();
    assert forall w | w in k :: !k[w].Identifier?;
  }

  // ---------------------------------------------------------------------
  // Operators: the longest match wins
  // ---------------------------------------------------------------------

  /** The operators of two characters. */
  function TwoCharOperators(): map<string, Token>
  {
    map["==" := Equal, "=>" := Arrow, "!=" := NotEqual, ">=" := GreaterEqual, "<=" := LessEqual]
  }

  /** The operators of one character that begin a longer one. */
  function OneCharOperators(): map<char, Token>
  {
    map['=' := Assign, '>' := Greater, '<' := Less]
  }

  /** The longest match wins: a two-character operator is one token, never two. */
  lemma TwoCharOperatorIsOneToken(input: seq<char>, c: Cursor)
    requires c.pos + 1 < |input| && input[c.pos .. c.pos + 2] in TwoCharOperators()
    ensures Scan(input, c) == (Cursor(c.pos + 2, c.line, c.column + 2), Ok(TwoCharOperators()[input[c.pos .. c.pos + 2]]))
  {
    hide ScanString, ScanNumber, ScanWord, WordToken;
    var op := input[c.pos .. c.pos + 2];
    assert op == [input[c.pos], input[c.pos + 1]];
  }

  /** '=', '<' and '>' stand alone when what follows cannot extend them. */
  lemma OneCharOperatorStandsAlone(input: seq<char>, c: Cursor)
    requires c.pos < |input| && input[c.pos] in OneCharOperators()
    requires CharAt(input, c.pos + 1) != '=' && !(input[c.pos] == '=' && CharAt(input, c.pos + 1) == '>')
    ensures Scan(input, c) == (Step(input, c), Ok(OneCharOperators()[input[c.pos]]))
  {
    hide ScanString, ScanNumber, ScanWord, WordToken;
  }

  /** Three dots are an Ellipsis; a dot that does not begin three is a Dot. */
  lemma DotsMunch(input: seq<char>, c: Cursor)
    requires c.pos + 2 < |input| && input[c.pos] == '.'
    ensures input[c.pos + 1] == '.' && input[c.pos + 2] == '.' ==> Scan(input, c) == (Cursor(c.pos + 3, c.line, c.column + 3), Ok(Ellipsis))
    ensures input[c.pos + 1] != '.' || input[c.pos + 2] != '.' ==> Scan(input, c) == (Step(input, c), Ok(Dot))
  {
    hide ScanString, ScanNumber, ScanWord, WordToken;
  }

  /** A '!' not followed by '=' is an error at the character after it. */
  lemma LoneBang(input: seq<char>, c: Cursor)
    requires c.pos < |input| && input[c.pos] == '!' && CharAt(input, c.pos + 1) != '='
    ensures Scan(input, c).1 == Err(Errors.LexerError(c.line, c.column + 1, "Unexpected character '!'. Did you mean '!='?"))
  {
  }
}
