/**
 * Percent-encoding of text (section 2.1 of RFC 3986) as the `urlencoding`
 * fallback module of the network library does it, and the two builtins
 * `url_encode` and `url_decode` that wrap it. Encoding works on the UTF-8
 * bytes of the text; decoding works on its characters and collects bytes,
 * which must spell UTF-8 at the end.
 */
module Net {
  import opened Wrappers
  import opened Utf8
  import opened Values
  import opened Radix
  import Errors

  // ---------------------------------------------------------------------
  // Encoding
  // ---------------------------------------------------------------------

  /** The bytes copied as they are: A-Z a-z 0-9 - _ . ~ (section 2.3 of RFC 3986). */
  predicate Unreserved(b: Byte)
  {
    'A' as int <= b <= 'Z' as int || 'a' as int <= b <= 'z' as int || '0' as int <= b <= '9' as int
    || b == '-' as int || b == '_' as int || b == '.' as int || b == '~' as int
  }

  /** How one byte is written: itself when unreserved, else `%` and two upper-case hex digits. */
  function EncodeByte(b: Byte): (r: string)
    ensures IsAscii(r)
    ensures |r| == Width(b)
  {
    if Unreserved(b) then [b as char] else ['%', UpperHex(b / 16), UpperHex(b % 16)]
  }

  /** Characters an encoded byte takes: 1 for an unreserved byte, 3 for any other. */
  function Width(b: Byte): nat
  {
    if Unreserved(b) then 1 else 3
  }

  function TotalWidth(bs: seq<Byte>): nat
  {
    if |bs| == 0 then 0 else Width(bs[0]) + TotalWidth(bs[1..])
  }

  /**
   * The encoding of a byte string: each byte's encoding in order. The output
   * is ASCII and its length is the sum of the bytes' widths.
   */
  function EncodeBytes(bs: seq<Byte>): (r: string)
    ensures IsAscii(r)
    ensures |r| == TotalWidth(bs)
    ensures forall i :: 0 <= i < |r| ==> r[i] != '+'
  {
    if |bs| == 0 then [] else EncodeByte(bs[0]) + EncodeBytes(bs[1..])
  }

  /** `encode`: the text's UTF-8 bytes, encoded. */
  function EncodeText(s: string): string
  {
    EncodeBytes(Utf8.Encode(s))
  }

  /** `encode`: the loop over `input.bytes()` that appends each byte's encoding to `result`. */
  method Encode(input: string) returns (result: string)
    ensures result == EncodeText(input)
  {
    hide EncodeBytes, EncodeByte, Utf8.Encode;
    var bytes := Utf8.Encode(input);
    result := "";
    var i := 0;
    while i < |bytes|
      invariant 0 <= i <= |bytes|
      invariant EncodeBytes(bytes) == result + EncodeBytes(bytes[i..])
    {
      EncodeBytesStep(bytes[i..]);
      assert bytes[i..][1..] == bytes[i + 1..];
      result := result + EncodeByte(bytes[i]);
      i := i + 1;
    }
    assert bytes[i..] == [];
    EncodeBytesStep(bytes[i..]);
    assert result + "" == result;
  }

  /** One step of `EncodeBytes`. */
  lemma EncodeBytesStep(bs: seq<Byte>)
    ensures |bs| == 0 ==> EncodeBytes(bs) == ""
    ensures |bs| > 0 ==> EncodeBytes(bs) == EncodeByte(bs[0]) + EncodeBytes(bs[1..])
  {
  }

  // ---------------------------------------------------------------------
  // Decoding
  // ---------------------------------------------------------------------

  /**
   * `u8::from_str_radix` of the two characters after a `%`, base 16: two hex
   * digits, or a `+` sign followed by one hex digit; anything else fails.
   */
  function HexByte(c1: char, c2: char): (r: Option<Byte>)
    ensures IsHexDigit(c1) && IsHexDigit(c2) ==> r == Some(HexValue(c1).value * 16 + HexValue(c2).value)
    ensures r.Some? <==> (IsHexDigit(c1) || c1 == '+') && IsHexDigit(c2)
    ensures c1 == '+' && IsHexDigit(c2) ==> r == Some(HexValue(c2).value)
  {
    TwoDigits(c1, c2);
    FromStrRadix16([c1, c2])
  }

  const MISSING_HEX := "Invalid URL encoding"
  const BAD_HEX := "Invalid hex in URL encoding"
  const BAD_UTF8 := "Invalid UTF-8 in decoded URL"

  /**
   * The bytes a character other than `%` and `+` stands for: its own UTF-8
   * bytes. (The source truncates the character to one byte; see
   * `AsWrittenCharByte`.)
   */
  function CharBytes(c: char): seq<Byte>
  {
    Utf8.EncodeChar(c)
  }

  /**
   * `decode`, before the final UTF-8 check: the bytes collected after `acc`
   * by reading `s` character by character. A `%` takes the next two
   * characters as a hex byte (too few characters or no hex byte is an
   * error), a `+` stands for a space, and any other character for its bytes.
   */
  function DecodeBytes(s: string, acc: seq<Byte>): (r: Result<seq<Byte>, string>)
    ensures r.Ok? ==> |acc| <= |r.value|
    ensures r.Err? ==> r.error == MISSING_HEX || r.error == BAD_HEX
    decreases |s|
  {
    if |s| == 0 then Ok(acc)
    else if s[0] == '%' then
      if |s| < 3 then Err(MISSING_HEX)
      else match HexByte(s[1], s[2])
        case None => Err(BAD_HEX)
        case Some(b) => DecodeBytes(s[3..], acc + [b])
    else if s[0] == '+' then DecodeBytes(s[1..], acc + [' ' as int])
    else DecodeBytes(s[1..], acc + CharBytes(s[0]))
  }

  /** `decode`: the collected bytes as text, or the first error. */
  function DecodeText(s: string): (r: Result<string, string>)
    ensures r.Err? ==> r.error in {MISSING_HEX, BAD_HEX, BAD_UTF8}
  {
    match DecodeBytes(s, [])
    case Err(e) => Err(e)
    case Ok(bytes) =>
      match Utf8.Decode(bytes)
      case None => Err(BAD_UTF8)
      case Some(t) => Ok(t)
  }

  /** `decode`: the loop over `input.chars()` pushing bytes onto `result`, then `String::from_utf8`. */
  method Decode(input: string) returns (r: Result<string, string>)
    ensures r == AsWrittenDecodeText(input)
    ensures IsAscii(input) ==> r == DecodeText(input)
  {
    if IsAscii(input) {
      AsciiDecodeTextAgrees(input);
    }
    var result: seq<Byte> := [];
    var i := 0;
    while i < |input|
      invariant 0 <= i <= |input|
      invariant AsWrittenDecodeBytes(input, []) == AsWrittenDecodeBytes(input[i..], result)
      decreases |input| - i
    {
      var rest := input[i..];
      if input[i] == '%' {
        if i + 2 >= |input| {
          return Err(MISSING_HEX);
        }
        var b := HexByte(input[i + 1], input[i + 2]);
        if b.None? {
          return Err(BAD_HEX);
        }
        assert rest[3..] == input[i + 3..];
        result := result + [b.value];
        i := i + 3;
      } else if input[i] == '+' {
        assert rest[1..] == input[i + 1..];
        result := result + [' ' as int];
        i := i + 1;
      } else {
        assert rest[1..] == input[i + 1..];
        result := result + [AsWrittenCharByte(input[i])];
        i := i + 1;
      }
    }
    assert input[i..] == [];
    var text := Utf8.Decode(result);
    if text.None? {
      return Err(BAD_UTF8);
    }
    return Ok(text.value);
  }

  // ---------------------------------------------------------------------
  // Properties
  // ---------------------------------------------------------------------

  /** One encoded byte decodes back to that byte, whatever follows. */
  lemma DecodeEncodedByte(b: Byte, t: string, acc: seq<Byte>)
    ensures DecodeBytes(EncodeByte(b) + t, acc) == DecodeBytes(t, acc + [b])
  {
    var s := EncodeByte(b) + t;
    if Unreserved(b) {
      assert s[0] == b as char && s[1..] == t;
      assert CharBytes(b as char) == [b];
    } else {
      assert s[0] == '%' && s[1] == UpperHex(b / 16) && s[2] == UpperHex(b % 16) && s[3..] == t;
      assert HexByte(s[1], s[2]) == Some(b);
    }
  }

  /** Decoding undoes the encoding of a byte string, whatever follows. */
  lemma {:induction false} DecodeEncodedBytes(bs: seq<Byte>, t: string, acc: seq<Byte>)
    ensures DecodeBytes(EncodeBytes(bs) + t, acc) == DecodeBytes(t, acc + bs)
    decreases |bs|
  {
    hide DecodeBytes, EncodeByte, FromStrRadix16;
    if |bs| == 0 {
      assert EncodeBytes(bs) + t == t && acc + bs == acc;
    } else {
      assert EncodeBytes(bs) + t == EncodeByte(bs[0]) + (EncodeBytes(bs[1..]) + t);
      DecodeEncodedByte(bs[0], EncodeBytes(bs[1..]) + t, acc);
      DecodeEncodedBytes(bs[1..], t, acc + [bs[0]]);
      assert acc + [bs[0]] + bs[1..] == acc + bs;
    }
  }

  /** `decode(encode(s)) == s` for every string: `%` and `+` are always percent-encoded. */
  lemma DecodeEncode(s: string)
    ensures DecodeText(EncodeText(s)) == Ok(s)
  {
    var bs := Utf8.Encode(s);
    DecodeEncodedBytes(bs, "", []);
    assert EncodeText(s) + "" == EncodeText(s);
    assert [] + bs == bs;
    Utf8.DecodeEncode(s);
  }

  /** Unreserved ASCII text is its own encoding. */
  lemma {:induction false} EncodeUnreserved(s: string)
    requires forall i :: 0 <= i < |s| ==> (s[i] as int) < 0x80 && Unreserved(s[i] as int)
    ensures EncodeText(s) == s
    decreases |s|
  {
    if |s| > 0 {
      EncodeUnreserved(s[1..]);
      assert Utf8.Encode(s) == [s[0] as int] + Utf8.Encode(s[1..]);
      assert [s[0]] + s[1..] == s;
    }
  }

  /** A character other than `%` and `+` adds its own bytes. */
  lemma PlainStep(c: char, t: string, acc: seq<Byte>)
    requires c != '%' && c != '+'
    ensures DecodeBytes([c] + t, acc) == DecodeBytes(t, acc + CharBytes(c))
  {
    assert ([c] + t)[0] == c && ([c] + t)[1..] == t;
  }

  /** A `+` adds a space. */
  lemma PlusStep(t: string, acc: seq<Byte>)
    ensures DecodeBytes(['+'] + t, acc) == DecodeBytes(t, acc + [' ' as int])
  {
    assert (['+'] + t)[0] == '+' && (['+'] + t)[1..] == t;
  }

  /** A `%` and the two characters after it add their hex byte, or fail. */
  lemma EscapeStep(c1: char, c2: char, t: string, acc: seq<Byte>)
    ensures HexByte(c1, c2).None? ==> DecodeBytes(['%', c1, c2] + t, acc) == Err(BAD_HEX)
    ensures HexByte(c1, c2).Some? ==> DecodeBytes(['%', c1, c2] + t, acc) == DecodeBytes(t, acc + [HexByte(c1, c2).value])
  {
    var s := ['%', c1, c2] + t;
    assert s[0] == '%' && s[1] == c1 && s[2] == c2 && s[3..] == t;
  }

  /** Text without `%` or `+` stands for its own bytes. */
  lemma {:induction false} DecodePlainBytes(s: string, acc: seq<Byte>)
    requires forall i :: 0 <= i < |s| ==> s[i] != '%' && s[i] != '+'
    ensures DecodeBytes(s, acc) == Ok(acc + Utf8.Encode(s))
    decreases |s|
  {
    if |s| == 0 {
      assert acc + Utf8.Encode(s) == acc;
    } else {
      var c, t := s[0], s[1..];
      assert s == [c] + t;
      PlainStep(c, t, acc);
      DecodePlainBytes(t, acc + CharBytes(c));
      assert Utf8.Encode(s) == CharBytes(c) + Utf8.Encode(t);
      assert acc + CharBytes(c) + Utf8.Encode(t) == acc + (CharBytes(c) + Utf8.Encode(t));
    }
  }

  /** Text without `%` or `+`, such as any non-ASCII word, decodes to itself. */
  lemma DecodePlain(s: string)
    requires forall i :: 0 <= i < |s| ==> s[i] != '%' && s[i] != '+'
    ensures DecodeText(s) == Ok(s)
  {
    DecodePlainBytes(s, []);
    assert [] + Utf8.Encode(s) == Utf8.Encode(s);
    Utf8.DecodeEncode(s);
  }

  /** A `%` needs two characters after it; a sign is accepted in place of the first hex digit. */
  lemma EscapeCases()
    ensures DecodeText("%4") == Err(MISSING_HEX)
    ensures DecodeText("%zz") == Err(BAD_HEX)
    ensures DecodeText("%+5") == Ok([5 as char])
    ensures DecodeText("a+b") == Ok("a b")
  {
    hide FromStrRadix16;
    assert "%4"[0] == '%' && |"%4"| == 2;
    EscapeStep('z', 'z', "", []);
    assert "%zz" == ['%', 'z', 'z'] + "";
    EscapeStep('+', '5', "", []);
    assert "%+5" == ['%', '+', '5'] + "";
    assert HexByte('+', '5') == Some(5);
    assert Utf8.Encode([5 as char]) == [5];
    Utf8.DecodeEncode([5 as char]);
    assert "a+b" == ['a'] + (['+'] + ['b']);
    PlainStep('a', ['+'] + ['b'], []);
    PlusStep(['b'], [] + CharBytes('a'));
    DecodePlainBytes(['b'], [] + CharBytes('a') + [' ' as int]);
    assert [] + CharBytes('a') + [' ' as int] + Utf8.Encode(['b']) == Utf8.Encode("a b");
    Utf8.DecodeEncode("a b");
  }

  // ---------------------------------------------------------------------
  // The source's other-character arm
  // ---------------------------------------------------------------------

  /** As written: a character other than `%` and `+` is pushed as `ch as u8`, its code point truncated to one byte. */
  function AsWrittenCharByte(c: char): (r: Byte)
    ensures (c as int) < 0x100 ==> r == c as int
  {
    (c as int) % 0x100
  }

  /** `decode` before its UTF-8 check, as written. */
  function AsWrittenDecodeBytes(s: string, acc: seq<Byte>): (r: Result<seq<Byte>, string>)
    ensures r.Ok? ==> |acc| <= |r.value| <= |acc| + |s|
    ensures r.Err? ==> r.error == MISSING_HEX || r.error == BAD_HEX
    decreases |s|
  {
    if |s| == 0 then Ok(acc)
    else if s[0] == '%' then
      if |s| < 3 then Err(MISSING_HEX)
      else match HexByte(s[1], s[2])
        case None => Err(BAD_HEX)
        case Some(b) => AsWrittenDecodeBytes(s[3..], acc + [b])
    else if s[0] == '+' then AsWrittenDecodeBytes(s[1..], acc + [' ' as int])
    else AsWrittenDecodeBytes(s[1..], acc + [AsWrittenCharByte(s[0])])
  }

  /** `decode` as written. */
  function AsWrittenDecodeText(s: string): (r: Result<string, string>)
    ensures r.Err? ==> r.error in {MISSING_HEX, BAD_HEX, BAD_UTF8}
  {
    match AsWrittenDecodeBytes(s, [])
    case Err(e) => Err(e)
    case Ok(bytes) =>
      match Utf8.Decode(bytes)
      case None => Err(BAD_UTF8)
      case Some(t) => Ok(t)
  }

  /** On ASCII text the source's one-byte truncation is harmless: both readings collect the same bytes. */
  lemma {:induction false} AsciiDecodeAgrees(s: string, acc: seq<Byte>)
    requires IsAscii(s)
    ensures AsWrittenDecodeBytes(s, acc) == DecodeBytes(s, acc)
    decreases |s|
  {
    if |s| == 0 {
    } else if s[0] == '%' {
      if |s| >= 3 {
        match HexByte(s[1], s[2])
        case None =>
        case Some(b) =>
          assert IsAscii(s[3..]) by { assert forall i :: 0 <= i < |s[3..]| ==> s[3..][i] == s[i + 3]; }
          AsciiDecodeAgrees(s[3..], acc + [b]);
      }
    } else {
      assert IsAscii(s[1..]) by { assert forall i :: 0 <= i < |s[1..]| ==> s[1..][i] == s[i + 1]; }
      assert (s[0] as int) < 0x80;
      if s[0] == '+' {
        AsciiDecodeAgrees(s[1..], acc + [' ' as int]);
      } else {
        assert CharBytes(s[0]) == [AsWrittenCharByte(s[0])];
        AsciiDecodeAgrees(s[1..], acc + CharBytes(s[0]));
      }
    }
  }

  /** Hence `decode` as written and the corrected reading agree on every ASCII input. */
  lemma AsciiDecodeTextAgrees(s: string)
    requires IsAscii(s)
    ensures AsWrittenDecodeText(s) == DecodeText(s)
  {
    AsciiDecodeAgrees(s, []);
  }

  /**
   * As written, raw non-ASCII text does not decode to itself: "é" (U+00E9)
   * becomes the lone byte 0xE9, which is not UTF-8, and "Ā" (U+0100) becomes
   * the byte 0x00.
   */
  lemma AsWrittenLosesNonAscii()
    ensures AsWrittenDecodeText("é") == Err(BAD_UTF8)
    ensures AsWrittenDecodeText("Ā") == Ok("\U{0}")
    ensures DecodeText("é") == Ok("é") && DecodeText("Ā") == Ok("Ā")
  {
    assert "é"[0] == 'é' && "é"[1..] == "";
    assert AsWrittenCharByte('é') == 0xE9 && [] + [0xE9] == [0xE9];
    assert AsWrittenDecodeBytes("é", []) == AsWrittenDecodeBytes("", [0xE9]);
    assert Utf8.DecodeChar([0xE9]).None?;
    assert "Ā"[0] == 'Ā' && "Ā"[1..] == "";
    assert AsWrittenCharByte('Ā') == 0 && [] + [0] == [0];
    assert AsWrittenDecodeBytes("Ā", []) == AsWrittenDecodeBytes("", [0]);
    assert Utf8.Encode("\U{0}") == [0];
    Utf8.DecodeEncode("\U{0}");
    DecodePlain("é");
    DecodePlain("Ā");
  }

  // ---------------------------------------------------------------------
  // The builtins
  // ---------------------------------------------------------------------

  function Fail(message: string): Result<Value, Errors.FlowError>
  {
    Err(Errors.RuntimeErrorNoLine(message))
  }

  /** `url_encode`: exactly one string argument, encoded. */
  function UrlEncode(args: seq<Value>): (r: Result<Value, Errors.FlowError>)
    ensures |args| != 1 ==> r == Fail("url_encode expects 1 argument")
    ensures |args| == 1 && !args[0].Str? ==> r == Fail("url_encode expects string argument")
    ensures r.Ok? ==> r.value.Str? && IsAscii(r.value.s)
  {
    if |args| != 1 then Fail("url_encode expects 1 argument")
    else match args[0]
      case Str(s) => Ok(Str(EncodeText(s)))
      case _ => Fail("url_encode expects string argument")
  }

  /** `url_decode`: exactly one string argument, decoded; a decoding error is reported with a prefix. */
  function UrlDecode(args: seq<Value>): (r: Result<Value, Errors.FlowError>)
    ensures |args| != 1 ==> r == Fail("url_decode expects 1 argument")
    ensures |args| == 1 && !args[0].Str? ==> r == Fail("url_decode expects string argument")
    ensures r.Ok? ==> r.value.Str?
  {
    if |args| != 1 then Fail("url_decode expects 1 argument")
    else match args[0]
      case Str(s) =>
        (match AsWrittenDecodeText(s)
         case Ok(t) => Ok(Str(t))
         case Err(e) => Fail("URL decode failed: " + e))
      case _ => Fail("url_decode expects string argument")
  }

  /** `url_decode(url_encode(s))` gives back the string. */
  lemma UrlRoundTrip(s: string)
    ensures UrlEncode([Str(s)]).Ok?
    ensures UrlDecode([UrlEncode([Str(s)]).value]) == Ok(Str(s))
  {
    AsciiDecodeTextAgrees(EncodeText(s));
    DecodeEncode(s);
  }
}
