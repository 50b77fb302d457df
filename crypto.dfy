/**
 * The encoding and hashing builtins of the crypto library: lower-case hex,
 * Base64 with the alphabet of section 4 of RFC 4648, and two toy hashes
 * that fold the bytes of a string into a 64-bit state. Everything works on
 * the UTF-8 bytes of the argument string.
 */
module Crypto {
  import opened Wrappers
  import opened Utf8
  import opened Radix
  import opened Values
  import Errors

  function Fail(message: string): Result<Value, Errors.FlowError>
  {
    Err(Errors.RuntimeErrorNoLine(message))
  }

  /** Bytes in front of a decoding's bytes; an error stays as it is. */
  function Prepend(prefix: seq<Byte>, r: Result<seq<Byte>, string>): Result<seq<Byte>, string>
  {
    if r.Ok? then Ok(prefix + r.value) else r
  }

  lemma PrependNothing(r: Result<seq<Byte>, string>)
    ensures Prepend([], r) == r
  {
    if r.Ok? {
      assert [] + r.value == r.value;
    }
  }

  lemma PrependTwice(a: seq<Byte>, b: seq<Byte>, r: Result<seq<Byte>, string>)
    ensures Prepend(a, Prepend(b, r)) == Prepend(a + b, r)
  {
    if r.Ok? {
      assert a + (b + r.value) == a + b + r.value;
    }
  }

  // ---------------------------------------------------------------------
  // Hex
  // ---------------------------------------------------------------------

  /** `hex_encode`'s `format!("{:02x}", b)` for every byte, concatenated. */
  function HexOfBytes(bs: seq<Byte>): (r: string)
    ensures |r| == 2 * |bs| && AllHexDigits(r)
    ensures forall i :: 0 <= i < |r| ==> '0' <= r[i] <= '9' || 'a' <= r[i] <= 'f'
  {
    if |bs| == 0 then "" else HexDigits(bs[0], 2) + HexOfBytes(bs[1..])
  }

  const ODD_HEX := "Hex string must have even length"
  const BAD_HEX := "Invalid hex character"
  const HEX_NOT_UTF8 := "Hex decoded data is not valid UTF-8"

  /**
   * The `chunks(2)` loop of `hex_decode`: the characters two at a time (the
   * last chunk may be one character), each read by `u8::from_str_radix`;
   * the first chunk that is no byte fails.
   */
  function HexChunks(cs: string): (r: Result<seq<Byte>, string>)
    ensures r.Err? ==> r.error == BAD_HEX
    ensures r.Ok? ==> |r.value| == (|cs| + 1) / 2
  {
    if |cs| == 0 then Ok([])
    else
      var n := if |cs| < 2 then |cs| else 2;
      match FromStrRadix16(cs[..n])
      case None => Err(BAD_HEX)
      case Some(b) => Prepend([b], HexChunks(cs[n..]))
  }

  /** One chunk of `HexChunks`. */
  lemma HexChunksStep(cs: string, n: nat)
    requires n == (if |cs| < 2 then |cs| else 2)
    ensures |cs| == 0 ==> HexChunks(cs) == Ok([])
    ensures |cs| > 0 && FromStrRadix16(cs[..n]).None? ==> HexChunks(cs) == Err(BAD_HEX)
    ensures |cs| > 0 && FromStrRadix16(cs[..n]).Some? ==> HexChunks(cs) == Prepend([FromStrRadix16(cs[..n]).value], HexChunks(cs[n..]))
  {
  }

  /**
   * `hex_decode` on a string: its byte length must be even, its chunks must
   * be bytes and the bytes must be UTF-8.
   */
  function HexDecodeText(s: string): (r: Result<string, string>)
    ensures |Utf8.Encode(s)| % 2 != 0 ==> r == Err(ODD_HEX)
  {
    if |Utf8.Encode(s)| % 2 != 0 then Err(ODD_HEX)
    else match HexChunks(s)
      case Err(e) => Err(e)
      case Ok(bytes) =>
        match Utf8.Decode(bytes)
        case None => Err(HEX_NOT_UTF8)
        case Some(t) => Ok(t)
  }

  /** `hex_decode`'s loop: one `push` per chunk, or the first chunk's error. */
  method DecodeHexChunks(s: string) returns (r: Result<string, string>)
    ensures r == HexDecodeText(s)
  {
    hide HexChunks, FromStrRadix16, Utf8.Encode, Utf8.Decode;
    if |Utf8.Encode(s)| % 2 != 0 {
      return Err(ODD_HEX);
    }
    var bytes: seq<Byte> := [];
    var i := 0;
    assert s[i..] == s;
    PrependNothing(HexChunks(s));
    while i < |s|
      invariant 0 <= i <= |s|
      invariant HexChunks(s) == Prepend(bytes, HexChunks(s[i..]))
      decreases |s| - i
    {
      var n := if |s| - i < 2 then |s| - i else 2;
      assert s[i..][..n] == s[i..i + n] && s[i..][n..] == s[i + n..];
      HexChunksStep(s[i..], n);
      var b := FromStrRadix16(s[i..i + n]);
      if b.None? {
        return Err(BAD_HEX);
      }
      PrependTwice(bytes, [b.value], HexChunks(s[i + n..]));
      bytes := bytes + [b.value];
      i := i + n;
    }
    assert s[i..] == [];
    HexChunksStep([], 0);
    assert bytes + [] == bytes;
    var text := Utf8.Decode(bytes);
    if text.None? {
      return Err(HEX_NOT_UTF8);
    }
    return Ok(text.value);
  }

  /** Two lower-case hex digits read back as the byte they spell. */
  lemma HexPairValue(b: Byte)
    ensures FromStrRadix16(HexDigits(b, 2)) == Some(b)
  {
    var d := HexDigits(b, 2);
    HexDigitsValue(b, 2);
    assert d == [d[0], d[1]];
    TwoDigits(d[0], d[1]);
    assert d[..1] == [d[0]] && [d[0]][..0] == [];
  }

  /** The chunks of an encoding are the encoded bytes. */
  lemma {:induction false} HexChunksOfEncoding(bs: seq<Byte>)
    ensures HexChunks(HexOfBytes(bs)) == Ok(bs)
    decreases |bs|
  {
    if |bs| > 0 {
      var e := HexOfBytes(bs);
      assert e[..2] == HexDigits(bs[0], 2) && e[2..] == HexOfBytes(bs[1..]);
      HexPairValue(bs[0]);
      HexChunksOfEncoding(bs[1..]);
      assert [bs[0]] + bs[1..] == bs;
    }
  }

  /** An ASCII string's length in bytes is its length in characters. */
  lemma AsciiByteLength(s: string)
    requires IsAscii(s)
    ensures |Utf8.Encode(s)| == |s|
  {
    EncodeAscii(s);
  }

  /** Hex digits are ASCII. */
  lemma HexIsAscii(bs: seq<Byte>)
    ensures IsAscii(HexOfBytes(bs))
  {
    var e := HexOfBytes(bs);
    forall i | 0 <= i < |e|
      ensures (e[i] as int) < 0x80
    {
      assert '0' <= e[i] <= '9' || 'a' <= e[i] <= 'f';
    }
  }

  /** `hex_decode(hex_encode(s)) == s` for every string. */
  lemma HexRoundTrip(s: string)
    ensures HexDecodeText(HexOfBytes(Utf8.Encode(s))) == Ok(s)
  {
    hide HexOfBytes, HexChunks, HexDigits, Utf8.Decode, Utf8.Encode, IsAscii;
    var bs := Utf8.Encode(s);
    var e := HexOfBytes(bs);
    HexIsAscii(bs);
    AsciiByteLength(e);
    Double(|bs|);
    HexChunksOfEncoding(bs);
    Utf8.DecodeEncode(s);
  }

  lemma Double(n: nat)
    ensures (2 * n) % 2 == 0
  {
  }

  /** A two-character string that is one chunk. */
  lemma OneChunk(c1: char, c2: char)
    ensures HexChunks([c1, c2]) == if FromStrRadix16([c1, c2]).None? then Err(BAD_HEX) else Ok([FromStrRadix16([c1, c2]).value])
  {
    var cs := [c1, c2];
    assert cs[..2] == cs && cs[2..] == [];
    HexChunksStep(cs, 2);
    HexChunksStep([], 0);
    if FromStrRadix16(cs).Some? {
      assert [FromStrRadix16(cs).value] + [] == [FromStrRadix16(cs).value];
    }
  }

  /** `hex_decode` rejects an odd byte length and a chunk that is no hex byte. */
  lemma HexDecodeRejects()
    ensures HexDecodeText("abc") == Err(ODD_HEX)
    ensures HexDecodeText("zz") == Err(BAD_HEX)
  {
    hide HexChunks, FromStrRadix16;
    assert Utf8.Encode("abc") == [0x61, 0x62, 0x63];
    assert Utf8.Encode("zz") == [0x7a, 0x7a] && "zz" == ['z', 'z'];
    TwoDigits('z', 'z');
    OneChunk('z', 'z');
  }

  /** `hex_decode` rejects bytes that are not UTF-8, and reads a sign before one digit. */
  lemma HexDecodeChunks()
    ensures HexDecodeText("ff") == Err(HEX_NOT_UTF8)
    ensures HexDecodeText("+f") == Ok("\U{f}")
  {
    hide HexChunks, FromStrRadix16;
    assert Utf8.Encode("ff") == [0x66, 0x66] && "ff" == ['f', 'f'];
    TwoDigits('f', 'f');
    OneChunk('f', 'f');
    assert Utf8.DecodeChar([0xff]).None?;
    assert Utf8.Encode("+f") == [0x2b, 0x66] && "+f" == ['+', 'f'];
    TwoDigits('+', 'f');
    OneChunk('+', 'f');
    assert Utf8.Encode("\U{f}") == [0xf];
    Utf8.DecodeEncode("\U{f}");
  }

  // ---------------------------------------------------------------------
  // Base64
  // ---------------------------------------------------------------------

  /** The character for a 6-bit value in the alphabet of section 4 of RFC 4648: A-Z, a-z, 0-9, `+`, `/`. */
  function SextetChar(v: nat): (c: char)
    requires v < 64
    ensures c != '='
    ensures Base64Value(c) == Some(v)
  {
    if v < 26 then ('A' as int + v) as char
    else if v < 52 then ('a' as int + v - 26) as char
    else if v < 62 then ('0' as int + v - 52) as char
    else if v == 62 then '+'
    else '/'
  }

  /** The decoder's `match ch`: the 6-bit value of an alphabet character, or None. */
  function Base64Value(c: char): (r: Option<nat>)
    ensures r.Some? ==> r.value < 64
  {
    if 'A' <= c <= 'Z' then Some(c as int - 'A' as int)
    else if 'a' <= c <= 'z' then Some(c as int - 'a' as int + 26)
    else if '0' <= c <= '9' then Some(c as int - '0' as int + 52)
    else if c == '+' then Some(62)
    else if c == '/' then Some(63)
    else None
  }

  /** The 24-bit number `b` of a group of up to three bytes, missing bytes counting as zero. */
  function GroupBits(g: seq<Byte>): (b: nat)
    requires 1 <= |g| <= 3
    ensures b < 0x100_0000
  {
    var b1: int := if |g| > 1 then g[1] else 0;
    var b2: int := if |g| > 2 then g[2] else 0;
    g[0] as int * 0x1_0000 + b1 * 0x100 + b2
  }

  /**
   * One group of `base64_encode_string`: the sextets of `b` from the most
   * significant, as four characters, the third and fourth replaced by `=`
   * when the group has fewer than two or three bytes.
   */
  function EncodeGroup(g: seq<Byte>): (r: string)
    requires 1 <= |g| <= 3
    ensures |r| == 4
  {
    var b := GroupBits(g);
    [SextetChar((b / 0x4_0000) % 64), SextetChar((b / 0x1000) % 64)]
    + (if |g| > 1 then [SextetChar((b / 0x40) % 64)] else "=")
    + (if |g| > 2 then [SextetChar(b % 64)] else "=")
  }

  /** `base64_encode_string`: the groups of `chunks(3)`, encoded in order; 4 characters per started group. */
  function Base64Bytes(bs: seq<Byte>): (r: string)
    ensures |r| == 4 * ((|bs| + 2) / 3)
    decreases |bs|
  {
    if |bs| == 0 then ""
    else if |bs| <= 3 then EncodeGroup(bs)
    else
      assert (|bs| + 2) / 3 == (|bs[3..]| + 2) / 3 + 1;
      EncodeGroup(bs[..3]) + Base64Bytes(bs[3..])
  }

  /** One group of `Base64Bytes`. */
  lemma Base64BytesStep(bs: seq<Byte>, n: nat)
    requires n == (if |bs| < 3 then |bs| else 3)
    ensures |bs| == 0 ==> Base64Bytes(bs) == ""
    ensures |bs| > 0 ==> Base64Bytes(bs) == EncodeGroup(bs[..n]) + Base64Bytes(bs[n..])
  {
    if 0 < |bs| <= 3 {
      assert bs[..n] == bs && Base64Bytes(bs[n..]) == "";
    }
  }

  /** The loop of `base64_encode_string` keeps its invariant across one group. */
  lemma Base64BytesAdvance(data: seq<Byte>, i: nat, n: nat, result: string)
    requires i < |data| && n == (if |data| - i < 3 then |data| - i else 3)
    requires Base64Bytes(data) == result + Base64Bytes(data[i..])
    ensures Base64Bytes(data) == (result + EncodeGroup(data[i..i + n])) + Base64Bytes(data[i + n..])
  {
    hide Base64Bytes, EncodeGroup;
    assert data[i..][..n] == data[i..i + n] && data[i..][n..] == data[i + n..];
    Base64BytesStep(data[i..], n);
  }

  /** `base64_encode_string`: the loop over `data.chunks(3)`, appending each group's characters. */
  method Base64EncodeString(data: seq<Byte>) returns (result: string)
    ensures result == Base64Bytes(data)
  {
    hide Base64Bytes, EncodeGroup;
    result := "";
    var i := 0;
    while i < |data|
      invariant 0 <= i <= |data|
      invariant Base64Bytes(data) == result + Base64Bytes(data[i..])
      decreases |data| - i
    {
      var n := if |data| - i < 3 then |data| - i else 3;
      Base64BytesAdvance(data, i, n, result);
      result := result + EncodeGroup(data[i..i + n]);
      i := i + n;
    }
    assert data[i..] == [];
    Base64BytesStep(data[i..], 0);
    assert result + "" == result;
  }

  /** `trim_end_matches('=')`: every trailing `=` removed. */
  function TrimPadding(s: string): (r: string)
    ensures |r| <= |s| && r == s[..|r|]
    ensures |r| > 0 ==> r[|r| - 1] != '='
  {
    if |s| > 0 && s[|s| - 1] == '=' then TrimPadding(s[..|s| - 1]) else s
  }

  const BAD_BASE64 := "Invalid base64 character"

  predicate AllBase64(cs: string)
  {
    forall i :: 0 <= i < |cs| ==> Base64Value(cs[i]).Some?
  }

  /**
   * One chunk of one to four characters: every character must be in the
   * alphabet; their sextets, missing ones zero, make a 24-bit `b`, of which
   * the chunk gives one byte (one or two characters), two (three) or three
   * (four).
   */
  function DecodeGroup(chunk: string): (r: Result<seq<Byte>, string>)
    requires 1 <= |chunk| <= 4
    ensures r.Err? <==> !AllBase64(chunk)
    ensures r.Err? ==> r.error == BAD_BASE64
    ensures r.Ok? ==> |r.value| == (if |chunk| <= 2 then 1 else |chunk| - 1)
  {
    if !AllBase64(chunk) then Err(BAD_BASE64)
    else
      var v0 := Base64Value(chunk[0]).value;
      var v1 := if |chunk| > 1 then Base64Value(chunk[1]).value else 0;
      var v2 := if |chunk| > 2 then Base64Value(chunk[2]).value else 0;
      var v3 := if |chunk| > 3 then Base64Value(chunk[3]).value else 0;
      var b := v0 * 0x4_0000 + v1 * 0x1000 + v2 * 0x40 + v3;
      Ok([(b / 0x1_0000) % 0x100]
         + (if |chunk| > 2 then [(b / 0x100) % 0x100] else [])
         + (if |chunk| > 3 then [b % 0x100] else []))
  }

  /** The `chunks(4)` loop over the trimmed characters, or the first chunk's error. */
  function DecodeChunks(cs: string): (r: Result<seq<Byte>, string>)
    ensures r.Err? ==> r.error == BAD_BASE64
    decreases |cs|
  {
    if |cs| == 0 then Ok([])
    else
      var n := if |cs| < 4 then |cs| else 4;
      match DecodeGroup(cs[..n])
      case Err(e) => Err(e)
      case Ok(bytes) => Prepend(bytes, DecodeChunks(cs[n..]))
  }

  /** One chunk of `DecodeChunks`. */
  lemma DecodeChunksStep(cs: string, n: nat)
    requires n == (if |cs| < 4 then |cs| else 4)
    ensures |cs| == 0 ==> DecodeChunks(cs) == Ok([])
    ensures |cs| > 0 && DecodeGroup(cs[..n]).Err? ==> DecodeChunks(cs) == Err(BAD_BASE64)
    ensures |cs| > 0 && DecodeGroup(cs[..n]).Ok? ==> DecodeChunks(cs) == Prepend(DecodeGroup(cs[..n]).value, DecodeChunks(cs[n..]))
  {
  }

  /** `base64_decode_string`: trailing `=` removed, then the chunks decoded. */
  function Base64DecodeBytes(s: string): Result<seq<Byte>, string>
  {
    DecodeChunks(TrimPadding(s))
  }

  /** `base64_decode_string`'s loop over `chunks(4)`. */
  method Base64DecodeString(data: string) returns (r: Result<seq<Byte>, string>)
    ensures r == Base64DecodeBytes(data)
  {
    hide DecodeChunks, DecodeGroup, TrimPadding;
    var cs := TrimPadding(data);
    var result: seq<Byte> := [];
    var i := 0;
    assert cs[i..] == cs;
    PrependNothing(DecodeChunks(cs));
    while i < |cs|
      invariant 0 <= i <= |cs|
      invariant DecodeChunks(cs) == Prepend(result, DecodeChunks(cs[i..]))
      decreases |cs| - i
    {
      var n := if |cs| - i < 4 then |cs| - i else 4;
      assert cs[i..][..n] == cs[i..i + n] && cs[i..][n..] == cs[i + n..];
      DecodeChunksStep(cs[i..], n);
      var g := DecodeGroup(cs[i..i + n]);
      if g.Err? {
        return Err(g.error);
      }
      PrependTwice(result, g.value, DecodeChunks(cs[i + n..]));
      result := result + g.value;
      i := i + n;
    }
    assert cs[i..] == [];
    DecodeChunksStep([], 0);
    assert result + [] == result;
    return Ok(result);
  }

  // ---------------------------------------------------------------------
  // Base64 round trip
  // ---------------------------------------------------------------------

  /** The four sextets of a group's 24 bits, in terms of its three bytes. */
  lemma Sextets(g0: int, g1: int, g2: int)
    requires 0 <= g0 < 256 && 0 <= g1 < 256 && 0 <= g2 < 256
    ensures var b := g0 * 0x1_0000 + g1 * 0x100 + g2;
      (b / 0x4_0000) % 64 == g0 / 4 &&
      (b / 0x1000) % 64 == (g0 % 4) * 16 + g1 / 16 &&
      (b / 0x40) % 64 == (g1 % 16) * 4 + g2 / 64 &&
      b % 64 == g2 % 64
  {
    var b := g0 * 0x1_0000 + g1 * 0x100 + g2;
    DivUnique(b, 0x4_0000, g0 / 4, (g0 % 4) * 0x1_0000 + g1 * 0x100 + g2);
    DivUnique(g0 / 4, 64, 0, g0 / 4);
    DivUnique(b, 0x1000, g0 * 16 + g1 / 16, (g1 % 16) * 0x100 + g2);
    DivUnique(g0 * 16 + g1 / 16, 64, g0 / 4, (g0 % 4) * 16 + g1 / 16);
    DivUnique(b, 0x40, g0 * 0x400 + g1 * 4 + g2 / 64, g2 % 64);
    DivUnique(g0 * 0x400 + g1 * 4 + g2 / 64, 64, g0 * 16 + g1 / 16, (g1 % 16) * 4 + g2 / 64);
  }

  /** The 24 bits of a group give its three bytes back. */
  lemma GroupBytes(g0: int, g1: int, g2: int)
    requires 0 <= g0 < 256 && 0 <= g1 < 256 && 0 <= g2 < 256
    ensures var b := g0 * 0x1_0000 + g1 * 0x100 + g2;
      (b / 0x1_0000) % 0x100 == g0 && (b / 0x100) % 0x100 == g1 && b % 0x100 == g2
  {
    var b := g0 * 0x1_0000 + g1 * 0x100 + g2;
    DivUnique(b, 0x1_0000, g0, g1 * 0x100 + g2);
    DivUnique(g0, 0x100, 0, g0);
    DivUnique(b, 0x100, g0 * 0x100 + g1, g2);
    DivUnique(g0 * 0x100 + g1, 0x100, g0, g1);
  }

  /** A group's characters without their padding: two, three or four of them. */
  function Unpadded(g: seq<Byte>): (r: string)
    requires 1 <= |g| <= 3
    ensures |r| == |g| + 1
    ensures |g| == 3 ==> r == EncodeGroup(g)
  {
    EncodeGroup(g)[..|g| + 1]
  }

  /** The padding is exactly what `trim_end_matches('=')` removes. */
  lemma TrimGroup(g: seq<Byte>)
    requires 1 <= |g| <= 3
    ensures TrimPadding(EncodeGroup(g)) == Unpadded(g)
  {
    var e := EncodeGroup(g);
    assert e[|g|] != '=';
    if |g| == 1 {
      assert e[..3][..2] == e[..2];
      assert TrimPadding(e) == TrimPadding(e[..3]) == TrimPadding(e[..2]);
    } else if |g| == 2 {
      assert TrimPadding(e) == TrimPadding(e[..3]);
    } else {
      assert e[..4] == e;
    }
  }

  /** Decoding a group's characters without their padding gives its bytes back. */
  lemma DecodeUnpadded(g: seq<Byte>)
    requires 1 <= |g| <= 3
    ensures DecodeGroup(Unpadded(g)) == Ok(g)
  {
    if |g| == 1 {
      DecodeUnpadded1(g);
    } else if |g| == 2 {
      DecodeUnpadded2(g);
    } else {
      DecodeUnpadded3(g);
    }
  }

  lemma DecodeUnpadded1(g: seq<Byte>)
    requires |g| == 1
    ensures DecodeGroup(Unpadded(g)) == Ok(g)
  {
    hide SextetChar, Base64Value;
    var g0: int := g[0];
    var g1: int := 0;
    var g2: int := 0;
    assert GroupBits(g) == g0 * 0x1_0000 + g1 * 0x100 + g2;
    Sextets(g0, g1, g2);
    GroupBytes(g0, g1, g2);
    var u := Unpadded(g);
    assert AllBase64(u);
    assert DecodeGroup(u).value == [g0] == g;
  }

  lemma DecodeUnpadded2(g: seq<Byte>)
    requires |g| == 2
    ensures DecodeGroup(Unpadded(g)) == Ok(g)
  {
    hide SextetChar, Base64Value;
    var g0: int := g[0];
    var g1: int := g[1];
    var g2: int := 0;
    assert GroupBits(g) == g0 * 0x1_0000 + g1 * 0x100 + g2;
    Sextets(g0, g1, g2);
    GroupBytes(g0, g1, g2);
    var u := Unpadded(g);
    assert AllBase64(u);
    assert DecodeGroup(u).value == [g0, g1] == g;
  }

  lemma DecodeUnpadded3(g: seq<Byte>)
    requires |g| == 3
    ensures DecodeGroup(Unpadded(g)) == Ok(g)
  {
    hide SextetChar, Base64Value;
    var g0: int := g[0];
    var g1: int := g[1];
    var g2: int := g[2];
    assert GroupBits(g) == g0 * 0x1_0000 + g1 * 0x100 + g2;
    Sextets(g0, g1, g2);
    GroupBytes(g0, g1, g2);
    var u := Unpadded(g);
    assert AllBase64(u);
    assert DecodeGroup(u).value == [g0, g1, g2] == g;
  }

  /** The encoding without its final padding. */
  function UnpaddedBytes(bs: seq<Byte>): (r: string)
    ensures |bs| > 0 ==> |r| >= 2
    decreases |bs|
  {
    if |bs| == 0 then ""
    else if |bs| <= 3 then Unpadded(bs)
    else EncodeGroup(bs[..3]) + UnpaddedBytes(bs[3..])
  }

  /** Removing trailing `=` from everything after a prefix that keeps some characters. */
  lemma {:induction false} TrimAfter(x: string, y: string)
    requires TrimPadding(y) != ""
    ensures TrimPadding(x + y) == x + TrimPadding(y)
    decreases |y|
  {
    assert (x + y)[|x + y| - 1] == y[|y| - 1];
    if y[|y| - 1] == '=' {
      assert (x + y)[..|x + y| - 1] == x + y[..|y| - 1];
      TrimAfter(x, y[..|y| - 1]);
    }
  }

  /** Trimming the encoding leaves it without its final padding. */
  lemma {:induction false} TrimEncoding(bs: seq<Byte>)
    ensures TrimPadding(Base64Bytes(bs)) == UnpaddedBytes(bs)
    decreases |bs|
  {
    if 0 < |bs| <= 3 {
      TrimGroup(bs);
    } else if |bs| > 3 {
      TrimEncoding(bs[3..]);
      TrimAfter(EncodeGroup(bs[..3]), Base64Bytes(bs[3..]));
    }
  }

  /** The unpadded encoding decodes chunk by chunk to the bytes. */
  lemma {:induction false} DecodeUnpaddedBytes(bs: seq<Byte>)
    ensures DecodeChunks(UnpaddedBytes(bs)) == Ok(bs)
    decreases |bs|
  {
    hide DecodeGroup, EncodeGroup, Unpadded;
    var cs := UnpaddedBytes(bs);
    if |bs| == 0 {
      DecodeChunksStep(cs, 0);
    } else if |bs| <= 3 {
      var n := |cs|;
      assert cs[..n] == cs && cs[n..] == "";
      DecodeUnpadded(bs);
      DecodeChunksStep(cs, n);
      DecodeChunksStep("", 0);
      assert bs + [] == bs;
    } else {
      var g := bs[..3];
      assert Unpadded(g) == EncodeGroup(g);
      assert cs[..4] == EncodeGroup(g) && cs[4..] == UnpaddedBytes(bs[3..]);
      DecodeUnpadded(g);
      DecodeChunksStep(cs, 4);
      DecodeUnpaddedBytes(bs[3..]);
      assert g + bs[3..] == bs;
    }
  }

  /** `base64_decode_string(base64_encode_string(b)) == b` for every byte string. */
  lemma Base64RoundTrip(bs: seq<Byte>)
    ensures Base64DecodeBytes(Base64Bytes(bs)) == Ok(bs)
  {
    TrimEncoding(bs);
    DecodeUnpaddedBytes(bs);
  }

  // ---------------------------------------------------------------------
  // The toy hashes
  // ---------------------------------------------------------------------

  const U64: int := 0x1_0000_0000_0000_0000

  /**
   * `simple_md5`'s state after folding `bs` into `h`: for each byte,
   * `h.wrapping_mul(31).wrapping_add(byte)`.
   */
  function Md5From(h: nat, bs: seq<Byte>): (r: nat)
    requires h < U64
    ensures r < U64
  {
    if |bs| == 0 then h else ((Md5From(h, bs[..|bs| - 1]) * 31) % U64 + bs[|bs| - 1]) % U64
  }

  /** `simple_md5`'s result: the state from 0, as 16 lower-case hex digits that read back as the state. */
  function Md5Digest(data: seq<Byte>): (r: string)
    ensures |r| == 16 && AllHexDigits(r) && HexNumber(r) == Md5From(0, data)
  {
    SixteenDigits();
    HexDigitsValue(Md5From(0, data), 16);
    HexDigits(Md5From(0, data), 16)
  }

  /** `simple_md5`: the loop over the bytes, then `{:016x}`. */
  method SimpleMd5(data: seq<Byte>) returns (r: string)
    ensures r == Md5Digest(data)
  {
    var hash := 0;
    var i := 0;
    while i < |data|
      invariant 0 <= i <= |data|
      invariant hash == Md5From(0, data[..i])
    {
      assert data[..i + 1][..i] == data[..i];
      hash := ((hash * 31) % U64 + data[i]) % U64;
      i := i + 1;
    }
    assert data[..i] == data;
    SixteenDigits();
    r := HexDigits(hash, 16);
  }

  /** The bytes read as a number in base 31, most significant first, without any wrap-around. */
  function Base31(bs: seq<Byte>): nat
  {
    if |bs| == 0 then 0 else Base31(bs[..|bs| - 1]) * 31 + bs[|bs| - 1]
  }

  lemma WrapStep(p: int, b: Byte)
    requires p >= 0
    ensures (((p % U64) * 31) % U64 + b) % U64 == (p * 31 + b) % U64
  {
    var r := p % U64;
    assert p == (p / U64) * U64 + r;
    assert p * 31 + b == (r * 31 + b) + ((p / U64) * 31) * U64;
    ShiftMod(r * 31 + b, (p / U64) * 31);
    assert r * 31 + b == ((r * 31) % U64 + b) + ((r * 31) / U64) * U64;
    ShiftMod((r * 31) % U64 + b, (r * 31) / U64);
  }

  /** Adding a multiple of 2^64 does not change a number modulo 2^64. */
  lemma ShiftMod(x: int, k: int)
    ensures (x + k * 0x1_0000_0000_0000_0000) % 0x1_0000_0000_0000_0000 == x % 0x1_0000_0000_0000_0000
  {
    DivUnique(x + k * 0x1_0000_0000_0000_0000, 0x1_0000_0000_0000_0000, x / 0x1_0000_0000_0000_0000 + k, x % 0x1_0000_0000_0000_0000);
  }

  /** `simple_md5`'s state is the bytes' base-31 value modulo 2^64. */
  lemma {:induction false} Md5IsBase31(bs: seq<Byte>)
    ensures Md5From(0, bs) == Base31(bs) % U64
    decreases |bs|
  {
    if |bs| > 0 {
      Md5IsBase31(bs[..|bs| - 1]);
      WrapStep(Base31(bs[..|bs| - 1]), bs[|bs| - 1]);
    }
  }

  /** Folding a concatenation is folding the second part into the state of the first. */
  lemma {:induction false} Md5FromAppend(h: nat, a: seq<Byte>, b: seq<Byte>)
    requires h < U64
    ensures Md5From(h, a + b) == Md5From(Md5From(h, a), b)
    decreases |b|
  {
    if |b| == 0 {
      assert a + b == a;
    } else {
      assert (a + b)[..|a + b| - 1] == a + b[..|b| - 1];
      Md5FromAppend(h, a, b[..|b| - 1]);
    }
  }

  const SHA_INIT: bv64 := 0x6a09e667f3bcc908

  /**
   * One byte of `simple_sha256`: multiply and add with wrap-around, fold the
   * high half in, multiply again, fold again.
   */
  function ShaStep(h: bv64, b: Byte): bv64
  {
    var h1 := WrappingMul(h, 0x100000001b3) + b as bv64;
    var h2 := h1 ^ (h1 >> 33);
    var h3 := WrappingMul(h2, 0xff51afd7ed558ccd);
    h3 ^ (h3 >> 33)
  }

  /** `u64::wrapping_mul`: the product modulo 2^64. */
  function WrappingMul(a: bv64, b: bv64): bv64
  {
    a * b
  }

  /** `simple_sha256`'s state after folding `bs` into `h`. */
  function ShaFrom(h: bv64, bs: seq<Byte>): bv64
  {
    if |bs| == 0 then h else ShaStep(ShaFrom(h, bs[..|bs| - 1]), bs[|bs| - 1])
  }

  /** `simple_sha256`'s result: the state from its initial value, as 16 lower-case hex digits that read back as the state. */
  function ShaDigest(data: seq<Byte>): (r: string)
    ensures |r| == 16 && AllHexDigits(r) && HexNumber(r) == ShaFrom(SHA_INIT, data) as int
  {
    SixteenDigits();
    HexDigitsValue(ShaFrom(SHA_INIT, data) as int, 16);
    HexDigits(ShaFrom(SHA_INIT, data) as int, 16)
  }

  /** `simple_sha256`: the loop over the bytes, then `{:016x}`. */
  method SimpleSha256(data: seq<Byte>) returns (r: string)
    ensures r == ShaDigest(data)
  {
    hide ShaStep;
    var hash := SHA_INIT;
    var i := 0;
    while i < |data|
      invariant 0 <= i <= |data|
      invariant hash == ShaFrom(SHA_INIT, data[..i])
    {
      assert data[..i + 1][..i] == data[..i];
      hash := ShaStep(hash, data[i]);
      i := i + 1;
    }
    assert data[..i] == data;
    SixteenDigits();
    r := HexDigits(hash as int, 16);
  }

  /** Folding a concatenation is folding the second part into the state of the first. */
  lemma {:induction false} ShaFromAppend(h: bv64, a: seq<Byte>, b: seq<Byte>)
    ensures ShaFrom(h, a + b) == ShaFrom(ShaFrom(h, a), b)
    decreases |b|
  {
    hide ShaStep;
    if |b| == 0 {
      assert a + b == a;
    } else {
      assert (a + b)[..|a + b| - 1] == a + b[..|b| - 1];
      ShaFromAppend(h, a, b[..|b| - 1]);
    }
  }

  // ---------------------------------------------------------------------
  // The builtins
  // ---------------------------------------------------------------------

  /** The shape every builtin here shares: exactly one string argument, else the two errors. */
  function OneString(args: seq<Value>, name: string, f: string -> Result<Value, Errors.FlowError>): (r: Result<Value, Errors.FlowError>)
    ensures |args| != 1 ==> r == Fail(name + " expects 1 argument")
    ensures |args| == 1 && !args[0].Str? ==> r == Fail(name + " expects string argument")
    ensures |args| == 1 && args[0].Str? ==> r == f(args[0].s)
  {
    if |args| != 1 then Fail(name + " expects 1 argument")
    else match args[0]
      case Str(s) => f(s)
      case _ => Fail(name + " expects string argument")
  }

  /** `md5_hash`: the toy digest of the string's bytes. */
  function Md5Hash(args: seq<Value>): (r: Result<Value, Errors.FlowError>)
    ensures |args| == 1 && args[0].Str? ==> r == Ok(Str(Md5Digest(Utf8.Encode(args[0].s))))
  {
    OneString(args, "md5_hash", s => Ok(Str(Md5Digest(Utf8.Encode(s)))))
  }

  /** `sha256_hash`: the other toy digest of the string's bytes. */
  function Sha256Hash(args: seq<Value>): (r: Result<Value, Errors.FlowError>)
    ensures |args| == 1 && args[0].Str? ==> r == Ok(Str(ShaDigest(Utf8.Encode(args[0].s))))
  {
    OneString(args, "sha256_hash", s => Ok(Str(ShaDigest(Utf8.Encode(s)))))
  }

  /** `base64_encode`: the Base64 text of the string's bytes. */
  function Base64Encode(args: seq<Value>): (r: Result<Value, Errors.FlowError>)
    ensures |args| == 1 && args[0].Str? ==> r == Ok(Str(Base64Bytes(Utf8.Encode(args[0].s))))
  {
    OneString(args, "base64_encode", s => Ok(Str(Base64Bytes(Utf8.Encode(s)))))
  }

  /** `base64_decode`: the decoded bytes as text; a decoding error is reported with a prefix. */
  function Base64Decode(args: seq<Value>): (r: Result<Value, Errors.FlowError>)
    ensures |args| == 1 && args[0].Str? ==> r == Base64DecodeText(args[0].s)
  {
    OneString(args, "base64_decode", Base64DecodeText)
  }

  function Base64DecodeText(s: string): Result<Value, Errors.FlowError>
  {
    match Base64DecodeBytes(s)
    case Err(e) => Fail("Base64 decode error: " + e)
    case Ok(bytes) =>
      match Utf8.Decode(bytes)
      case None => Fail("Base64 decoded data is not valid UTF-8")
      case Some(t) => Ok(Str(t))
  }

  /** `hex_encode`: two lower-case hex digits per byte of the string. */
  function HexEncode(args: seq<Value>): (r: Result<Value, Errors.FlowError>)
    ensures |args| == 1 && args[0].Str? ==> r == Ok(Str(HexOfBytes(Utf8.Encode(args[0].s))))
  {
    OneString(args, "hex_encode", s => Ok(Str(HexOfBytes(Utf8.Encode(s)))))
  }

  /** `hex_decode`: the hex text's bytes as text, or the first error as a runtime error. */
  function HexDecode(args: seq<Value>): (r: Result<Value, Errors.FlowError>)
    ensures |args| == 1 && args[0].Str? ==> r == HexDecodeValue(args[0].s)
  {
    OneString(args, "hex_decode", HexDecodeValue)
  }

  function HexDecodeValue(s: string): Result<Value, Errors.FlowError>
  {
    match HexDecodeText(s)
    case Err(e) => Fail(e)
    case Ok(t) => Ok(Str(t))
  }

  /** `base64_decode(base64_encode(s))` gives the string back. */
  lemma Base64BuiltinRoundTrip(s: string)
    ensures Base64Encode([Str(s)]).Ok? && Base64Decode([Base64Encode([Str(s)]).value]) == Ok(Str(s))
  {
    hide Base64Bytes, Base64DecodeBytes, Utf8.Encode, Utf8.Decode;
    var bs := Utf8.Encode(s);
    var e := Base64Bytes(bs);
    assert Base64Encode([Str(s)]) == Ok(Str(e));
    Base64RoundTrip(bs);
    Utf8.DecodeEncode(s);
    assert Base64DecodeText(e) == Ok(Str(s));
  }

  /** `hex_decode(hex_encode(s))` gives the string back. */
  lemma HexBuiltinRoundTrip(s: string)
    ensures HexEncode([Str(s)]).Ok? && HexDecode([HexEncode([Str(s)]).value]) == Ok(Str(s))
  {
    hide HexOfBytes, HexDecodeText, Utf8.Encode;
    var e := HexOfBytes(Utf8.Encode(s));
    assert HexEncode([Str(s)]) == Ok(Str(e));
    HexRoundTrip(s);
    assert HexDecodeValue(e) == Ok(Str(s));
  }
}
