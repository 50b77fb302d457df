/**
 * Hexadecimal digits as Rust's standard library reads and writes them:
 * `u8::from_str_radix(s, 16)` and the `{:0Nx}` / `{:02X}` format
 * specifiers, used by the crypto and network libraries.
 */
module Radix {
  import opened Wrappers
  import opened Utf8

  predicate IsHexDigit(c: char)
  {
    '0' <= c <= '9' || 'a' <= c <= 'f' || 'A' <= c <= 'F'
  }

  /** The value of a hexadecimal digit of either case, or None for any other character. */
  function HexValue(c: char): (r: Option<nat>)
    ensures r.Some? <==> IsHexDigit(c)
    ensures r.Some? ==> r.value < 16
  {
    if '0' <= c <= '9' then Some(c as int - '0' as int)
    else if 'a' <= c <= 'f' then Some(c as int - 'a' as int + 10)
    else if 'A' <= c <= 'F' then Some(c as int - 'A' as int + 10)
    else None
  }

  /** A lower-case hexadecimal digit, as `{:x}` writes it. */
  function LowerHex(n: nat): (c: char)
    requires n < 16
    ensures IsHexDigit(c) && HexValue(c) == Some(n)
    ensures '0' <= c <= '9' || 'a' <= c <= 'f'
  {
    if n < 10 then ('0' as int + n) as char else ('a' as int + n - 10) as char
  }

  /** An upper-case hexadecimal digit, as `{:X}` writes it. */
  function UpperHex(n: nat): (c: char)
    requires n < 16
    ensures IsHexDigit(c) && HexValue(c) == Some(n)
    ensures '0' <= c <= '9' || 'A' <= c <= 'F'
  {
    if n < 10 then ('0' as int + n) as char else ('A' as int + n - 10) as char
  }

  function Pow16(n: nat): (p: nat)
    ensures p >= 1
  {
    if n == 0 then 1 else 16 * Pow16(n - 1)
  }

  /** Sixteen hex digits hold any 64-bit number. */
  lemma SixteenDigits()
    ensures Pow16(16) == 0x1_0000_0000_0000_0000
  {
    assert Pow16(4) == 0x1_0000;
    assert Pow16(8) == 0x1_0000_0000;
    assert Pow16(12) == 0x1_0000_0000_0000;
  }

  predicate AllHexDigits(ds: string)
  {
    forall i :: 0 <= i < |ds| ==> IsHexDigit(ds[i])
  }

  /** The number a string of hex digits spells, read most significant digit first; below 16^|ds|. */
  function HexNumber(ds: string): (r: nat)
    requires AllHexDigits(ds)
    ensures r < Pow16(|ds|)
  {
    if |ds| == 0 then 0 else HexNumber(ds[..|ds| - 1]) * 16 + HexValue(ds[|ds| - 1]).value
  }

  /**
   * `u8::from_str_radix(s, 16)`: an optional `+` sign, then at least one hex
   * digit of either case, spelling a number below 256. The empty string, a
   * lone sign, any other character and an overflow all fail.
   */
  function FromStrRadix16(s: string): (r: Option<Byte>)
    ensures r.Some? ==> |s| >= 1
  {
    if |s| == 0 then None
    else
      var ds := if s[0] == '+' then s[1..] else s;
      if |ds| > 0 && AllHexDigits(ds) && HexNumber(ds) < 0x100 then Some(HexNumber(ds)) else None
  }

  /** One character is a byte exactly when it is a hex digit. */
  lemma OneDigit(c: char)
    ensures FromStrRadix16([c]) == (if IsHexDigit(c) then Some(HexValue(c).value) else None)
  {
    assert [c][..0] == [];
  }

  /** Two characters are a byte exactly when they are two hex digits, or a sign and one hex digit. */
  lemma TwoDigits(c1: char, c2: char)
    ensures FromStrRadix16([c1, c2]).Some? <==> (IsHexDigit(c1) || c1 == '+') && IsHexDigit(c2)
    ensures IsHexDigit(c1) && IsHexDigit(c2) ==> FromStrRadix16([c1, c2]) == Some(HexValue(c1).value * 16 + HexValue(c2).value)
    ensures c1 == '+' && IsHexDigit(c2) ==> FromStrRadix16([c1, c2]) == Some(HexValue(c2).value)
  {
    var s := [c1, c2];
    assert s[1..] == [c2] && s[..1] == [c1];
    OneDigit(c2);
    if IsHexDigit(c1) && IsHexDigit(c2) {
      assert AllHexDigits(s);
      assert HexNumber([c1]) == HexValue(c1).value by {
        assert [c1][..0] == [];
      }
      assert HexNumber(s) == HexValue(c1).value * 16 + HexValue(c2).value;
    }
  }

  /**
   * `{:0nx}` for a number with at most n digits: exactly n lower-case hex
   * digits, the most significant first, padded with zeros.
   */
  function HexDigits(h: nat, n: nat): (r: string)
    requires h < Pow16(n)
    ensures |r| == n && AllHexDigits(r)
    ensures forall i :: 0 <= i < |r| ==> '0' <= r[i] <= '9' || 'a' <= r[i] <= 'f'
  {
    if n == 0 then "" else HexDigits(h / 16, n - 1) + [LowerHex(h % 16)]
  }

  /** Reading the digits back gives the number: the partner of `HexDigits`. */
  lemma {:induction false} HexDigitsValue(h: nat, n: nat)
    requires h < Pow16(n)
    ensures HexNumber(HexDigits(h, n)) == h
    decreases n
  {
    if n > 0 {
      var r := HexDigits(h, n);
      assert r[..n - 1] == HexDigits(h / 16, n - 1);
      HexDigitsValue(h / 16, n - 1);
    }
  }

  /** Different numbers of the same width are written differently. */
  lemma HexDigitsInjective(h: nat, k: nat, n: nat)
    requires h < Pow16(n) && k < Pow16(n) && HexDigits(h, n) == HexDigits(k, n)
    ensures h == k
  {
    HexDigitsValue(h, n);
    HexDigitsValue(k, n);
  }

  /** A multiple of k strictly between -k and k is zero. */
  lemma SmallMultiple(k: int, t: int)
    requires k > 0 && -k < k * t < k
    ensures t == 0
  {
  }

  /** Quotient and remainder are the only ones with `b == q * k + r` and `0 <= r < k`. */
  lemma DivUnique(b: int, k: int, q: int, r: int)
    requires k > 0 && 0 <= r < k && b == q * k + r
    ensures b / k == q && b % k == r
  {
    var t := q - b / k;
    assert b == k * (b / k) + b % k;
    assert k * t == b % k - r;
    SmallMultiple(k, t);
  }
}
