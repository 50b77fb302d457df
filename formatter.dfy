/**
 * The FlowLang code formatter `flowfmt`: a class holding the current
 * indentation level, which re-indents each line of a file by four spaces per
 * open block. A line that starts with the word `end` or `else` closes a block
 * before it is written; a line that ends with the word `do` or `then`, or
 * starts with `else`, opens one after it. Blank lines and `#` comments are
 * written stripped and change nothing.
 *
 * The spec functions `LineStep`, `FormatLines` and `FormatText` say what one
 * line, a list of lines and a whole text become; the class `FlowFormatter`
 * does it step by step and is proved against them. The main property is the
 * one `--check` relies on: formatting formatted text with a fresh formatter
 * gives it back unchanged.
 */
module Formatting {

  const INDENT_SIZE: nat := 4

  // ---------------------------------------------------------------------
  // Characters and stripping
  // ---------------------------------------------------------------------

  /** Python's `str.isspace`, which is what `strip()` removes and what `\s` matches. */
  predicate IsSpace(c: char)
  {
    c == ' ' || '\t' <= c <= '\r' || '\U{1c}' <= c <= '\U{1f}' || c == '\U{85}' || c == '\U{a0}' ||
    c == '\U{1680}' || '\U{2000}' <= c <= '\U{200a}' || c == '\U{2028}' || c == '\U{2029}' ||
    c == '\U{202f}' || c == '\U{205f}' || c == '\U{3000}'
  }

  /** The `\w` class of the two patterns' word boundaries: letters, digits and `_` (ASCII only here). */
  predicate IsWordChar(c: char)
  {
    'a' <= c <= 'z' || 'A' <= c <= 'Z' || '0' <= c <= '9' || c == '_'
  }

  /** `lstrip()`: the longest suffix of s that does not start with whitespace. */
  function TrimStart(s: string): (r: string)
    ensures |r| <= |s| && r == s[|s| - |r|..]
    ensures |r| > 0 ==> !IsSpace(r[0])
    ensures forall i :: 0 <= i < |s| - |r| ==> IsSpace(s[i])
  {
    if |s| > 0 && IsSpace(s[0]) then TrimStart(s[1..]) else s
  }

  /** `rstrip()`: the longest prefix of s that does not end with whitespace. */
  function TrimEnd(s: string): (r: string)
    ensures |r| <= |s| && r == s[..|r|]
    ensures |r| > 0 ==> !IsSpace(r[|r| - 1])
    ensures forall i :: |r| <= i < |s| ==> IsSpace(s[i])
  {
    if |s| > 0 && IsSpace(s[|s| - 1]) then TrimEnd(s[..|s| - 1]) else s
  }

  /** `strip()`. */
  function Strip(s: string): string
  {
    TrimStart(TrimEnd(s))
  }

  /** Text with no whitespace at either end. */
  predicate Stripped(s: string)
  {
    |s| == 0 || (!IsSpace(s[0]) && !IsSpace(s[|s| - 1]))
  }

  /** `strip()` leaves text with no whitespace at either end, and leaves such text as it is. */
  lemma StripIsStripped(s: string)
    ensures Stripped(Strip(s))
    ensures Stripped(s) ==> Strip(s) == s
  {
    var e := TrimEnd(s);
    var r := TrimStart(e);
    if |r| > 0 {
      assert r[|r| - 1] == e[|e| - 1];
    }
  }

  /** n spaces. */
  function Spaces(n: nat): (r: string)
    ensures |r| == n && forall i :: 0 <= i < n ==> r[i] == ' '
  {
    seq(n, _ => ' ')
  }

  /** Leading spaces are all that `lstrip()` removes from text that starts with no whitespace. */
  lemma {:induction false} TrimStartSpaces(n: nat, s: string)
    requires |s| == 0 || !IsSpace(s[0])
    ensures TrimStart(Spaces(n) + s) == s
  {
    if n > 0 {
      assert (Spaces(n) + s)[1..] == Spaces(n - 1) + s;
      TrimStartSpaces(n - 1, s);
    } else {
      assert Spaces(n) + s == s;
    }
  }

  /** `rstrip()` removes all of a run of spaces. */
  lemma {:induction false} TrimEndSpaces(n: nat)
    ensures TrimEnd(Spaces(n)) == ""
  {
    if n > 0 {
      assert Spaces(n)[..n - 1] == Spaces(n - 1);
      TrimEndSpaces(n - 1);
    }
  }

  /** Indenting stripped text and stripping it again gives back the text. */
  lemma StripIndented(n: nat, s: string)
    requires Stripped(s)
    ensures Strip(Spaces(n) + s) == s
  {
    var t := Spaces(n) + s;
    if |s| == 0 {
      assert t == Spaces(n);
      TrimEndSpaces(n);
      assert TrimStart("") == "";
    } else {
      assert t[|t| - 1] == s[|s| - 1];
      assert TrimEnd(t) == t;
      TrimStartSpaces(n, s);
    }
  }

  /** n levels of indentation in front of a line. */
  function Indented(k: nat, line: string): (r: string)
    ensures |r| == k * INDENT_SIZE + |line| && r[k * INDENT_SIZE..] == line
    ensures forall i :: 0 <= i < k * INDENT_SIZE ==> r[i] == ' '
    ensures (|r| - |line|) % INDENT_SIZE == 0
  {
    Spaces(k * INDENT_SIZE) + line
  }

  // ---------------------------------------------------------------------
  // Lines
  // ---------------------------------------------------------------------

  /** `"\n".join(lines)`. */
  function JoinLines(lines: seq<string>): string
  {
    if |lines| == 0 then ""
    else if |lines| == 1 then lines[0]
    else lines[0] + "\n" + JoinLines(lines[1..])
  }

  /** The pieces of `cur + s` between newlines, `cur` being the part of the current line read so far. */
  function SplitFrom(s: string, cur: string): (r: seq<string>)
    requires '\n' !in cur
    ensures |r| >= 1
    ensures forall i :: 0 <= i < |r| ==> '\n' !in r[i]
    ensures JoinLines(r) == cur + s
    decreases |s|
  {
    if |s| == 0 then [cur]
    else if s[0] == '\n' then
      var rest := SplitFrom(s[1..], "");
      assert cur + s == cur + "\n" + s[1..];
      [cur] + rest
    else
      assert cur + s == (cur + [s[0]]) + s[1..];
      SplitFrom(s[1..], cur + [s[0]])
  }

  /** `code.split('\n')`: at least one line, none holding a newline, which join back to the code. */
  function SplitLines(s: string): (r: seq<string>)
    ensures |r| >= 1
    ensures forall i :: 0 <= i < |r| ==> '\n' !in r[i]
    ensures JoinLines(r) == s
  {
    assert "" + s == s;
    SplitFrom(s, "")
  }

  /** Reading over text with no newline only extends the current line. */
  lemma {:induction false} SplitFromPlain(t: string, cur: string, s: string)
    requires '\n' !in cur && '\n' !in t
    ensures SplitFrom(t + s, cur) == SplitFrom(s, cur + t)
    decreases |t|
  {
    if |t| == 0 {
      assert t + s == s && cur + t == cur;
    } else {
      assert (t + s)[0] == t[0] && (t + s)[1..] == t[1..] + s;
      assert t[0] in t;
      SplitFromPlain(t[1..], cur + [t[0]], s);
      assert cur + [t[0]] + t[1..] == cur + t;
    }
  }

  /** Splitting joined lines that hold no newline gives back the lines. */
  lemma {:induction false} SplitJoin(lines: seq<string>)
    requires |lines| >= 1 && forall i :: 0 <= i < |lines| ==> '\n' !in lines[i]
    ensures SplitLines(JoinLines(lines)) == lines
  {
    if |lines| == 1 {
      SplitFromPlain(lines[0], "", "");
      assert lines[0] + "" == lines[0] && "" + lines[0] == lines[0];
    } else {
      var rest := JoinLines(lines[1..]);
      assert forall i :: 0 <= i < |lines[1..]| ==> '\n' !in lines[1..][i] by {
        forall i | 0 <= i < |lines[1..]| ensures '\n' !in lines[1..][i] {
          assert lines[1..][i] == lines[i + 1];
        }
      }
      SplitJoin(lines[1..]);
      SplitFromPlain(lines[0], "", "\n" + rest);
      assert lines[0] + "\n" + rest == lines[0] + ("\n" + rest);
      assert "" + lines[0] == lines[0];
      assert ("\n" + rest)[1..] == rest;
      assert [lines[0]] + lines[1..] == lines;
    }
  }

  // ---------------------------------------------------------------------
  // One line: `_format_line`
  // ---------------------------------------------------------------------

  /** `re.match(r'^(end|else)\b', line)` for one of the words. */
  predicate StartsWithWord(line: string, w: string)
  {
    |line| >= |w| && line[..|w|] == w && (|line| == |w| || !IsWordChar(line[|w|]))
  }

  /** `\b` then the word then the end of the text. */
  predicate EndsWithWord(t: string, w: string)
  {
    |t| >= |w| && t[|t| - |w|..] == w && (|t| == |w| || !IsWordChar(t[|t| - |w| - 1]))
  }

  /** `re.match(r'^(end|else)\b', line)`: the line closes a block before it is written. */
  predicate ClosesBlock(line: string)
  {
    StartsWithWord(line, "end") || StartsWithWord(line, "else")
  }

  /** `re.search(r'\b(do|then)\s*$', line)`: the line, trailing whitespace aside, ends with the word do or then. */
  predicate EndsWithOpener(line: string)
  {
    var t := TrimEnd(line);
    EndsWithWord(t, "do") || EndsWithWord(t, "then")
  }

  /** `line.startswith('else')`, a plain prefix test with no word boundary. */
  predicate StartsWithElse(line: string)
  {
    |line| >= 4 && line[..4] == "else"
  }

  /** Blank lines and comments are written as they are. */
  predicate Untouched(line: string)
  {
    line == "" || line[0] == '#'
  }

  /**
   * `_format_line`: the text written for a line and the indentation level
   * afterwards. The text is the line behind a multiple of four spaces, and
   * the level moves by one at most.
   */
  function LineStep(level: nat, line: string): (r: (string, nat))
    ensures |r.0| >= |line| && r.0[|r.0| - |line|..] == line
    ensures forall i :: 0 <= i < |r.0| - |line| ==> r.0[i] == ' '
    ensures (|r.0| - |line|) % INDENT_SIZE == 0
    ensures level <= r.1 + 1 && r.1 <= level + 1
  {
    if Untouched(line) then (line, level)
    else
      var before := if ClosesBlock(line) then (if level == 0 then 0 else level - 1) else level;
      var written := Indented(before, line);
      var after := if EndsWithOpener(line) || StartsWithElse(line) then before + 1 else before;
      (written, after)
  }

  /** A blank line or a comment is written unindented and leaves the level alone. */
  lemma UntouchedLine(level: nat, line: string)
    requires Untouched(line)
    ensures LineStep(level, line) == (line, level)
  {
  }

  /** A line that is neither blank nor a comment: written at the level after closing, leaving the level after opening. */
  lemma WrittenAt(level: nat, line: string, before: nat, after: nat)
    requires !Untouched(line)
    requires before == if ClosesBlock(line) then (if level == 0 then 0 else level - 1) else level
    requires after == if EndsWithOpener(line) || StartsWithElse(line) then before + 1 else before
    ensures LineStep(level, line) == (Indented(before, line), after)
  {
  }

  /** Text that ends with no whitespace is its own `rstrip()`. */
  lemma NoTrailingSpace(t: string)
    requires |t| > 0 && !IsSpace(t[|t| - 1])
    ensures TrimEnd(t) == t
  {
  }

  /** `end` is written one level out, and the level stays there; it never goes below zero. */
  lemma EndDedents(level: nat)
    ensures LineStep(level, "end") == (Indented(if level == 0 then 0 else level - 1, "end"),
                                       if level == 0 then 0 else level - 1)
  {
    hide LineStep;
    var l := "end";
    assert ClosesBlock(l) by { assert l[..3] == "end"; }
    assert !StartsWithElse(l);
    assert !EndsWithOpener(l) by {
      NoTrailingSpace(l);
      assert l[1..] == "nd";
    }
    var lower := if level == 0 then 0 else level - 1;
    WrittenAt(level, l, lower, lower);
  }

  /** `else` is written one level out, like the `if` it belongs to, and the level comes back afterwards. */
  lemma ElseStaysAtIfLevel(level: nat)
    requires level > 0
    ensures LineStep(level, "else") == (Indented(level - 1, "else"), level)
  {
    hide LineStep;
    var l := "else";
    assert ClosesBlock(l) by { assert l[..4] == "else"; }
    assert StartsWithElse(l) by { assert l[..4] == "else"; }
    WrittenAt(level, l, level - 1, level);
  }

  /** `if x then` ends with the opener `then`. */
  lemma ThenIsOpener()
    ensures EndsWithOpener("if x then")
  {
    var l := "if x then";
    NoTrailingSpace(l);
    assert l[|l| - 4..] == "then" && !IsWordChar(l[|l| - 5]);
  }

  /** `if x then` starts with neither `end` nor `else`. */
  lemma IfDoesNotClose()
    ensures !ClosesBlock("if x then")
  {
    var l := "if x then";
    assert l[..3] == "if ";
    assert l[..4] == "if x";
  }

  /** A line ending with `then` opens a block: the next line is written one level further in. */
  lemma ThenIndents(level: nat)
    ensures LineStep(level, "if x then") == (Indented(level, "if x then"), level + 1)
  {
    hide LineStep;
    ThenIsOpener();
    IfDoesNotClose();
    WrittenAt(level, "if x then", level, level + 1);
  }

  /**
   * The prefix test for `else` has no word boundary: a line such as
   * `elsewhere = 1` is not taken as closing a block, yet it opens one.
   */
  lemma ElsePrefixOpensBlock(level: nat)
    ensures LineStep(level, "elsewhere = 1") == (Indented(level, "elsewhere = 1"), level + 1)
  {
    hide LineStep;
    var l := "elsewhere = 1";
    assert StartsWithElse(l) by { assert l[..4] == "else"; }
    assert !ClosesBlock(l) by {
      assert l[..3] == "els";
      assert IsWordChar(l[4]);
    }
    WrittenAt(level, l, level, level + 1);
  }

  /** The text written for a stripped line strips back to the line. */
  lemma LineStepStrips(level: nat, line: string)
    requires Stripped(line)
    ensures Strip(LineStep(level, line).0) == line
  {
    var r := LineStep(level, line);
    var n := |r.0| - |line|;
    assert r.0 == Spaces(n) + line by {
      assert r.0[..n] == Spaces(n);
      assert r.0 == r.0[..n] + r.0[n..];
    }
    StripIndented(n, line);
  }

  // ---------------------------------------------------------------------
  // A text: `format_code`
  // ---------------------------------------------------------------------

  /** The lines `format_code` writes for the given lines, each stripped first, and the level afterwards. */
  function FormatLines(level: nat, lines: seq<string>): (r: (seq<string>, nat))
    ensures |r.0| == |lines|
    decreases |lines|
  {
    if |lines| == 0 then ([], level)
    else
      var step := LineStep(level, Strip(lines[0]));
      var rest := FormatLines(step.1, lines[1..]);
      ([step.0] + rest.0, rest.1)
  }

  /** One step of `FormatLines`, from line i. */
  lemma FormatLinesStep(level: nat, lines: seq<string>, i: nat)
    requires i < |lines|
    ensures var step := LineStep(level, Strip(lines[i]));
      && FormatLines(level, lines[i..]).0 == [step.0] + FormatLines(step.1, lines[i + 1..]).0
      && FormatLines(level, lines[i..]).1 == FormatLines(step.1, lines[i + 1..]).1
  {
    assert lines[i..][1..] == lines[i + 1..];
  }

  /** `format_code`: the formatted text and the level afterwards. */
  function FormatText(level: nat, code: string): (string, nat)
  {
    var r := FormatLines(level, SplitLines(code));
    (JoinLines(r.0), r.1)
  }

  /** What `--check` compares: the text is what a fresh formatter makes of it. */
  predicate IsFormatted(code: string)
  {
    FormatText(0, code).0 == code
  }

  /** Stripping removes characters from the ends only, so it adds no newline. */
  lemma StripNoNewline(s: string)
    requires '\n' !in s
    ensures '\n' !in Strip(s)
  {
    var e := TrimEnd(s);
    var r := TrimStart(e);
    forall k | 0 <= k < |r|
      ensures r[k] != '\n'
    {
      assert r[k] == e[|e| - |r| + k] == s[|e| - |r| + k];
    }
  }

  /** The text written for a line without a newline has none either. */
  lemma LineStepNoNewline(level: nat, line: string)
    requires '\n' !in line
    ensures '\n' !in LineStep(level, line).0
  {
    var w := LineStep(level, line).0;
    var n := |w| - |line|;
    forall k | 0 <= k < |w|
      ensures w[k] != '\n'
    {
      if k >= n {
        assert w[k] == w[n..][k - n] == line[k - n];
      }
    }
  }

  /** Each written line is its input line re-indented: stripping both gives the same text. */
  lemma {:induction false} FormatKeepsText(level: nat, lines: seq<string>)
    ensures forall i :: 0 <= i < |lines| ==> Strip(FormatLines(level, lines).0[i]) == Strip(lines[i])
    decreases |lines|
  {
    hide LineStep, Strip;
    if |lines| > 0 {
      var s := Strip(lines[0]);
      var step := LineStep(level, s);
      StripIsStripped(lines[0]);
      LineStepStrips(level, s);
      FormatKeepsText(step.1, lines[1..]);
      var rest := FormatLines(step.1, lines[1..]).0;
      var out := FormatLines(level, lines).0;
      assert out == [step.0] + rest;
      forall i | 0 < i < |lines|
        ensures Strip(out[i]) == Strip(lines[i])
      {
        assert out[i] == rest[i - 1] && lines[1..][i - 1] == lines[i];
      }
    }
  }

  /** No written line holds a newline when no input line does. */
  lemma {:induction false} FormatNoNewline(level: nat, lines: seq<string>)
    requires forall i :: 0 <= i < |lines| ==> '\n' !in lines[i]
    ensures forall i :: 0 <= i < |lines| ==> '\n' !in FormatLines(level, lines).0[i]
    decreases |lines|
  {
    hide LineStep, Strip;
    if |lines| > 0 {
      var s := Strip(lines[0]);
      var step := LineStep(level, s);
      StripNoNewline(lines[0]);
      LineStepNoNewline(level, s);
      assert forall i :: 0 <= i < |lines[1..]| ==> '\n' !in lines[1..][i] by {
        forall i | 0 <= i < |lines[1..]| ensures '\n' !in lines[1..][i] {
          assert lines[1..][i] == lines[i + 1];
        }
      }
      FormatNoNewline(step.1, lines[1..]);
      var rest := FormatLines(step.1, lines[1..]).0;
      var out := FormatLines(level, lines).0;
      assert out == [step.0] + rest;
      forall i | 0 < i < |lines|
        ensures '\n' !in out[i]
      {
        assert out[i] == rest[i - 1];
      }
    }
  }

  /** The formatter only looks at stripped lines: lines that strip alike are formatted alike. */
  lemma {:induction false} FormatSeesStripped(level: nat, a: seq<string>, b: seq<string>)
    requires |a| == |b| && forall i :: 0 <= i < |a| ==> Strip(a[i]) == Strip(b[i])
    ensures FormatLines(level, a) == FormatLines(level, b)
    decreases |a|
  {
    hide LineStep, Strip;
    if |a| > 0 {
      var step := LineStep(level, Strip(a[0]));
      assert forall i :: 0 <= i < |a[1..]| ==> Strip(a[1..][i]) == Strip(b[1..][i]) by {
        forall i | 0 <= i < |a[1..]| ensures Strip(a[1..][i]) == Strip(b[1..][i]) {
          assert a[1..][i] == a[i + 1] && b[1..][i] == b[i + 1];
        }
      }
      FormatSeesStripped(step.1, a[1..], b[1..]);
    }
  }

  /**
   * Formatting is idempotent: with a fresh formatter, formatted text comes
   * back unchanged, so `--check` accepts every file the formatter wrote.
   */
  lemma FormatIdempotent(code: string)
    ensures IsFormatted(FormatText(0, code).0)
  {
    var lines := SplitLines(code);
    var out := FormatLines(0, lines).0;
    FormatKeepsText(0, lines);
    FormatNoNewline(0, lines);
    SplitJoin(out);
    FormatSeesStripped(0, out, lines);
  }

  /** `format_code` writes exactly one line for every line of its input. */
  lemma OneLinePerLine(level: nat, code: string)
    ensures |SplitLines(FormatText(level, code).0)| == |SplitLines(code)|
  {
    var out := FormatLines(level, SplitLines(code)).0;
    FormatNoNewline(level, SplitLines(code));
    SplitJoin(out);
  }

  // ---------------------------------------------------------------------
  // `_add_spacing_around_operators`
  // ---------------------------------------------------------------------

  const OPERATORS: seq<string> := ["==", "!=", "<=", ">=", "<", ">", "+", "-", "*", "/", "%", "="]

  /** The index just past the run of whitespace that starts at i. */
  function WhitespaceEnd(s: string, i: nat): (r: nat)
    requires i <= |s|
    ensures i <= r <= |s| && (r < |s| ==> !IsSpace(s[r]))
    ensures forall k :: i <= k < r ==> IsSpace(s[k])
    decreases |s| - i
  {
    if i < |s| && IsSpace(s[i]) then WhitespaceEnd(s, i + 1) else i
  }

  /** op occurs in s at j. */
  predicate OccursAt(s: string, op: string, j: nat)
  {
    j + |op| <= |s| && s[j..j + |op|] == op
  }

  /**
   * `re.sub(r'\s*' + op + r'\s*', ' ' + op + ' ', s)` from index i on: the
   * leftmost match takes the whitespace before and after the operator, and
   * the scan goes on after it.
   */
  function SpacedFrom(s: string, op: string, i: nat): string
    requires |op| > 0 && i <= |s|
    decreases |s| - i
  {
    if i == |s| then ""
    else
      var j := WhitespaceEnd(s, i);
      if OccursAt(s, op, j) then " " + op + " " + SpacedFrom(s, op, WhitespaceEnd(s, j + |op|))
      else [s[i]] + SpacedFrom(s, op, i + 1)
  }

  /** One pass of `re.sub` for one operator. */
  function SpacedAround(s: string, op: string): string
    requires |op| > 0
  {
    SpacedFrom(s, op, 0)
  }

  /** The loop over the operators, each pass skipped while the line holds a double quote. */
  function SpacedWith(line: string, ops: seq<string>): string
    requires forall k :: 0 <= k < |ops| ==> |ops[k]| > 0
    decreases |ops|
  {
    if |ops| == 0 then line
    else SpacedWith(if '"' in line then line else SpacedAround(line, ops[0]), ops[1..])
  }
  /** Every operator the pass spaces is at least one character long. */
  lemma OperatorsNonEmpty()
    ensures forall k :: 0 <= k < |OPERATORS| ==> |OPERATORS[k]| > 0
  {
  }

  /** With no operator left the line is what it was. */
  lemma SpacedWithNone(line: string)
    ensures SpacedWith(line, []) == line
  {
  }

  /** One pass of `SpacedWith`: the first operator, unless the line holds a quote, then the rest. */
  lemma SpacedWithStep(line: string, ops: seq<string>)
    requires forall k :: 0 <= k < |ops| ==> |ops[k]| > 0
    requires |ops| > 0
    ensures SpacedWith(line, ops) == SpacedWith(if '"' in line then line else SpacedAround(line, ops[0]), ops[1..])
  {
  }


  /** A pass changes nothing on text in which its operator does not occur. */
  lemma {:induction false} SpacedFromAbsent(s: string, op: string, i: nat)
    requires |op| > 0 && i <= |s| && forall j :: i <= j <= |s| ==> !OccursAt(s, op, j)
    ensures SpacedFrom(s, op, i) == s[i..]
    decreases |s| - i
  {
    if i < |s| {
      SpacedFromAbsent(s, op, i + 1);
      assert s[i..] == [s[i]] + s[i + 1..];
    }
  }

  /** A line holding a double quote is left as it is by every pass. */
  lemma {:induction false} QuotedLineUnchanged(line: string, ops: seq<string>)
    requires forall k :: 0 <= k < |ops| ==> |ops[k]| > 0
    requires '"' in line
    ensures SpacedWith(line, ops) == line
    decreases |ops|
  {
    if |ops| > 0 {
      QuotedLineUnchanged(line, ops[1..]);
    }
  }

  /** The `<=` pass spaces a compact `x<=y`. */
  lemma LessEqualPass()
    ensures SpacedAround("x<=y", "<=") == "x <= y"
  {
    var s := "x<=y";
    assert WhitespaceEnd(s, 0) == 0 && !OccursAt(s, "<=", 0);
    assert WhitespaceEnd(s, 1) == 1 && OccursAt(s, "<=", 1);
    assert WhitespaceEnd(s, 3) == 3 && !OccursAt(s, "<=", 3);
    assert SpacedFrom(s, "<=", 3) == "y";
  }

  /**
   * The later `<` pass then splits the operator it has just spaced:
   * `x <= y` becomes `x < = y`, since `<` matches inside `<=`.
   */
  lemma LessPassSplitsLessEqual()
    ensures SpacedAround("x <= y", "<") == "x < = y"
  {
    var s := "x <= y";
    assert WhitespaceEnd(s, 0) == 0 && !OccursAt(s, "<", 0);
    assert WhitespaceEnd(s, 1) == 2 && OccursAt(s, "<", 2);
    assert WhitespaceEnd(s, 3) == 3 && !OccursAt(s, "<", 3);
    assert WhitespaceEnd(s, 4) == 5 && !OccursAt(s, "<", 5);
    assert WhitespaceEnd(s, 5) == 5;
    assert SpacedFrom(s, "<", 5) == "y";
    assert SpacedFrom(s, "<", 4) == " y";
    assert SpacedFrom(s, "<", 3) == "= y";
  }

  // ---------------------------------------------------------------------
  // The formatter
  // ---------------------------------------------------------------------

  /** `FlowFormatter`: the indentation level carries over from one call to the next. */
  class FlowFormatter {
    var indentLevel: nat
    const indentSize: nat

    constructor ()
      ensures indentLevel == 0 && indentSize == INDENT_SIZE
    {
      indentLevel := 0;
      indentSize := INDENT_SIZE;
    }

    /** `_format_line`. */
    method FormatLine(line: string) returns (r: string)
      requires indentSize == INDENT_SIZE
      modifies this
      ensures r == LineStep(old(indentLevel), line).0
      ensures indentLevel == LineStep(old(indentLevel), line).1
    {
      hide ClosesBlock, EndsWithOpener, StartsWithElse, Indented, Spaces;
      if line == "" || line[0] == '#' {
        return line;
      }
      if ClosesBlock(line) {
        indentLevel := if indentLevel == 0 then 0 else indentLevel - 1;
      }
      r := Spaces(indentLevel * indentSize) + line;
      assert r == Indented(indentLevel, line);
      if EndsWithOpener(line) {
        indentLevel := indentLevel + 1;
      } else if StartsWithElse(line) {
        indentLevel := indentLevel + 1;
      }
    }

    /** `format_code`: one written line for every line of the code, joined with newlines. */
    method FormatCode(code: string) returns (r: string)
      requires indentSize == INDENT_SIZE
      modifies this
      ensures r == FormatText(old(indentLevel), code).0
      ensures indentLevel == FormatText(old(indentLevel), code).1
    {
      hide LineStep, Strip, JoinLines, SplitLines;
      var lines := SplitLines(code);
      var formatted: seq<string> := [];
      var i := 0;
      while i < |lines|
        invariant 0 <= i <= |lines|
        invariant FormatLines(old(indentLevel), lines).0 == formatted + FormatLines(indentLevel, lines[i..]).0
        invariant FormatLines(old(indentLevel), lines).1 == FormatLines(indentLevel, lines[i..]).1
        decreases |lines| - i
      {
        FormatLinesStep(indentLevel, lines, i);
        var line := FormatLine(Strip(lines[i]));
        if line != "" {
          formatted := formatted + [line];
        } else {
          formatted := formatted + [""];
        }
        i := i + 1;
      }
      assert lines[i..] == [];
      assert formatted + [] == formatted;
      return JoinLines(formatted);
    }

    /** `_add_spacing_around_operators`: the line after one `re.sub` pass per operator, in list order. */
    method AddSpacingAroundOperators(line: string) returns (r: string)
      ensures r == SpacedWith(line, OPERATORS)
    {
      hide SpacedAround, SpacedWith;
      OperatorsNonEmpty();
      r := line;
      for k := 0 to |OPERATORS|
        invariant SpacedWith(line, OPERATORS) == SpacedWith(r, OPERATORS[k..])
      {
        var rest := OPERATORS[k..];
        SpacedWithStep(r, rest);
        assert rest[0] == OPERATORS[k] && rest[1..] == OPERATORS[k + 1..];
        if '"' !in r {
          r := SpacedAround(r, OPERATORS[k]);
        }
      }
      assert OPERATORS[|OPERATORS|..] == [];
      SpacedWithNone(r);
    }
  }

  /** A text of one stripped line is formatted as that line. */
  lemma SingleLine(level: nat, line: string)
    requires '\n' !in line && Stripped(line)
    ensures FormatText(level, line) == LineStep(level, line)
  {
    SplitJoin([line]);
    StripIsStripped(line);
    var step := LineStep(level, line);
    assert FormatLines(level, [line]) == ([step.0], step.1) by {
      assert [line][0] == line && [line][1..] == [];
      assert FormatLines(step.1, []) == ([], step.1);
      assert [step.0] + [] == [step.0];
    }
    assert JoinLines([step.0]) == step.0;
  }

  /**
   * The level persists on one instance: after `if x then` a second call
   * indents its first line one level in, where a fresh formatter would not.
   */
  lemma LevelCarriesOver()
    ensures FormatText(0, "if x then") == ("if x then", 1)
    ensures FormatText(1, "y").0 == "    y"
    ensures FormatText(0, "y").0 == "y"
  {
    hide FormatText, LineStep;
    SingleLine(0, "if x then");
    ThenIndents(0);
    assert Indented(0, "if x then") == "if x then";
    PlainY(0);
    PlainY(1);
    assert Indented(1, "y") == "    y";
    assert Indented(0, "y") == "y";
  }

  /** The line `y` is written at the current level. */
  lemma PlainY(level: nat)
    ensures FormatText(level, "y") == (Indented(level, "y"), level)
  {
    hide FormatText;
    SingleLine(level, "y");
    assert !ClosesBlock("y") && !StartsWithElse("y");
    assert !EndsWithOpener("y") by { NoTrailingSpace("y"); }
  }
}
