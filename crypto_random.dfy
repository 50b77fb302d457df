/**
 * The random builtins of the crypto library: `random_int`, `random_float`,
 * `random_string`, `set_random_seed` and `generate_uuid`. They share one
 * process-wide 64-bit seed, stepped by a linear congruential generator
 * whose every draw is the new seed without its low 16 bits.
 *
 * The seed is the field of a `Generator`; each builtin is a method on it,
 * proved against a function of the old seed that returns the result and
 * the new seed.
 */
module CryptoRandom {
  import opened Wrappers
  import opened Values
  import opened Radix
  import Errors
  import Crypto
  import BigNum

  const U64: int := Crypto.U64

  /** `wrapping_mul(1103515245).wrapping_add(12345)` on the 64-bit seed. */
  function NextSeed(s: nat): (r: nat)
    requires s < U64
    ensures r < U64
  {
    ((s * 1103515245) % U64 + 12345) % U64
  }

  /** What `simple_random` returns after stepping the seed from `s`: the new seed's upper 48 bits. */
  function Draw(s: nat): (r: nat)
    requires s < U64
    ensures r < 0x1_0000_0000_0000
  {
    NextSeed(s) / 0x1_0000
  }

  /** The seed after `k` draws from `s`. */
  function Seeds(s: nat, k: nat): (r: nat)
    requires s < U64
    ensures r < U64
  {
    if k == 0 then s else NextSeed(Seeds(s, k - 1))
  }

  // ---------------------------------------------------------------------
  // set_random_seed
  // ---------------------------------------------------------------------

  const SEED_ARITY := "set_random_seed expects 1 argument"
  const SEED_TYPE := "set_random_seed expects integer argument"

  /** `seed as u64`: the 64-bit two's-complement pattern of the integer. */
  function AsU64(k: int): (r: nat)
    ensures r < U64
  {
    k % U64
  }

  /** A non-negative i64 keeps its value; a negative one becomes `k + 2^64`. */
  lemma AsU64TwosComplement(k: int)
    requires BigNum.I64_MIN <= k <= BigNum.I64_MAX
    ensures k >= 0 ==> AsU64(k) == k
    ensures k < 0 ==> AsU64(k) == k + U64
  {
    if k < 0 {
      Radix.DivUnique(k, U64, -1, k + U64);
    } else {
      Radix.DivUnique(k, U64, 0, k);
    }
  }

  /** `set_random_seed(args)` from seed `s`: the result and the seed after it. */
  function SetSeed(args: seq<Value>, s: nat): (r: (Result<Value, Errors.FlowError>, nat))
    requires s < U64
    ensures r.1 < U64
    ensures r.0.Ok? <==> |args| == 1 && args[0].Integer?
    ensures r.0.Ok? ==> r.0.value == Null && r.1 == AsU64(args[0].i)
    ensures r.0.Err? ==> r.1 == s
  {
    if |args| != 1 then (Crypto.Fail(SEED_ARITY), s)
    else match args[0]
      case Integer(k) => (Ok(Null), AsU64(k))
      case _ => (Crypto.Fail(SEED_TYPE), s)
  }

  // ---------------------------------------------------------------------
  // random_int
  // ---------------------------------------------------------------------

  const INT_ARG := "random_int expects integer argument"
  const INT_ARGS := "random_int expects integer arguments"
  const INT_ARITY := "random_int expects 0, 1, or 2 arguments"
  const INT_EMPTY := "random_int: min must be less than max"

  /** The range `random_int` draws from: `[0, 100)`, `[0, max)` or `[min, max)`. */
  function IntBounds(args: seq<Value>): (r: Result<(int, int), Errors.FlowError>)
    ensures r.Ok? <==> |args| <= 2 && forall i :: 0 <= i < |args| ==> args[i].Integer?
    ensures |args| == 0 ==> r == Ok((0, 100))
    ensures |args| == 1 && r.Ok? ==> r.value == (0, args[0].i)
    ensures |args| == 2 && r.Ok? ==> r.value == (args[0].i, args[1].i)
  {
    if |args| == 0 then Ok((0, 100))
    else if |args| == 1 then
      match args[0]
      case Integer(hi) => Ok((0, hi))
      case _ => Err(Errors.RuntimeErrorNoLine(INT_ARG))
    else if |args| == 2 then
      if args[0].Integer? && args[1].Integer? then Ok((args[0].i, args[1].i))
      else Err(Errors.RuntimeErrorNoLine(INT_ARGS))
    else Err(Errors.RuntimeErrorNoLine(INT_ARITY))
  }

  /** `max - min` does not overflow an i64 (the subtraction panics otherwise). */
  predicate RangeFits(args: seq<Value>)
  {
    IntBounds(args).Ok? && IntBounds(args).value.0 < IntBounds(args).value.1 ==>
      IntBounds(args).value.1 - IntBounds(args).value.0 <= BigNum.I64_MAX
  }

  /**
   * `random_int(args)` from seed `s`: an integer in `[min, max)` and one
   * step of the generator, or an error that leaves the seed alone.
   */
  function RandomIntFrom(args: seq<Value>, s: nat): (r: (Result<Value, Errors.FlowError>, nat))
    requires s < U64 && RangeFits(args)
    ensures r.1 < U64
    ensures r.0.Ok? <==> IntBounds(args).Ok? && IntBounds(args).value.0 < IntBounds(args).value.1
    ensures r.0.Ok? ==> r.0.value.Integer? && r.1 == NextSeed(s)
    ensures r.0.Ok? ==> IntBounds(args).value.0 <= r.0.value.i < IntBounds(args).value.1
    ensures r.0.Err? ==> r.1 == s
    ensures IntBounds(args).Ok? && IntBounds(args).value.0 >= IntBounds(args).value.1 ==> r.0 == Crypto.Fail(INT_EMPTY)
  {
    match IntBounds(args)
    case Err(e) => (Err(e), s)
    case Ok(bounds) =>
      var (lo, hi) := bounds;
      if lo >= hi then (Crypto.Fail(INT_EMPTY), s)
      else (Ok(Integer(Draw(s) % (hi - lo) + lo)), NextSeed(s))
  }

  // ---------------------------------------------------------------------
  // random_float
  // ---------------------------------------------------------------------

  /** `random_float()` from seed `s`: a whole number of millionths in `[0, 1)`, and one step. */
  function RandomFloatFrom(s: nat): (r: (Value, nat))
    requires s < U64
    ensures r.0.Float? && 0.0 <= r.0.f < 1.0
    ensures (r.0.f * 1000000.0).Floor as real == r.0.f * 1000000.0
    ensures r.1 == NextSeed(s)
  {
    var k := Draw(s) % 1000000;
    (Float(k as real / 1000000.0), NextSeed(s))
  }

  // ---------------------------------------------------------------------
  // random_string
  // ---------------------------------------------------------------------

  predicate IsAlnum(c: char)
  {
    'a' <= c <= 'z' || 'A' <= c <= 'Z' || '0' <= c <= '9'
  }

  /**
   * `CHARS[i]` of `random_string`'s 62-character table: the lower-case
   * letters, then the upper-case letters, then the digits.
   */
  function AlnumChar(i: nat): (c: char)
    requires i < 62
    ensures IsAlnum(c)
  {
    if i < 26 then ('a' as int + i) as char
    else if i < 52 then ('A' as int + i - 26) as char
    else ('0' as int + i - 52) as char
  }

  /** `n` characters drawn from seed `s`, each `CHARS[draw % 62]`, and the seed after them. */
  function Chars(n: nat, s: nat): (r: (string, nat))
    requires s < U64
    ensures |r.0| == n && r.1 == Seeds(s, n)
    ensures forall i :: 0 <= i < |r.0| ==> IsAlnum(r.0[i])
  {
    if n == 0 then ("", s)
    else
      var (prefix, t) := Chars(n - 1, s);
      (prefix + [AlnumChar(Draw(t) % 62)], NextSeed(t))
  }

  /** Drawing `a + b` characters is drawing `a`, then `b` more from where they left the seed. */
  lemma {:induction false} CharsAppend(a: nat, b: nat, s: nat)
    requires s < U64
    ensures Chars(a + b, s).0 == Chars(a, s).0 + Chars(b, Chars(a, s).1).0
    ensures Chars(a + b, s).1 == Chars(b, Chars(a, s).1).1
    decreases b
  {
    if b > 0 {
      CharsAppend(a, b - 1, s);
    }
  }

  const STRING_TYPE := "random_string expects integer length"

  /** `random_string`'s length: 10 without arguments, else the first argument, which must be an integer. */
  function StringLength(args: seq<Value>): (r: Result<int, Errors.FlowError>)
    ensures |args| == 0 ==> r == Ok(10)
    ensures |args| > 0 ==> (r.Ok? <==> args[0].Integer?)
    ensures |args| > 0 && r.Ok? ==> r.value == args[0].i
  {
    if |args| == 0 then Ok(10)
    else match args[0]
      case Integer(n) => Ok(n)
      case _ => Err(Errors.RuntimeErrorNoLine(STRING_TYPE))
  }

  /** A negative length turned into `usize` asks for an impossibly long string. */
  predicate LengthFits(args: seq<Value>)
  {
    StringLength(args).Ok? ==> StringLength(args).value >= 0
  }

  /** `random_string(args)` from seed `s`. */
  function RandomStringFrom(args: seq<Value>, s: nat): (r: (Result<Value, Errors.FlowError>, nat))
    requires s < U64 && LengthFits(args)
    ensures r.0.Ok? <==> StringLength(args).Ok?
    ensures r.0.Ok? ==> r.0.value.Str? && |r.0.value.s| == StringLength(args).value
    ensures r.0.Ok? ==> forall i :: 0 <= i < |r.0.value.s| ==> IsAlnum(r.0.value.s[i])
    ensures r.0.Ok? ==> r.1 == Seeds(s, |r.0.value.s|)
    ensures r.0.Err? ==> r.1 == s
  {
    match StringLength(args)
    case Err(e) => (Err(e), s)
    case Ok(n) => var (t, s') := Chars(n, s); (Ok(Str(t)), s')
  }

  // ---------------------------------------------------------------------
  // generate_uuid
  // ---------------------------------------------------------------------

  lemma Widths()
    ensures Pow16(3) == 0x1000 && Pow16(4) == 0x1_0000
    ensures Pow16(8) == 0x1_0000_0000 && Pow16(12) == 0x1_0000_0000_0000
  {
    assert Pow16(4) == 0x1_0000;
    assert Pow16(8) == 0x1_0000_0000;
  }

  /**
   * The five fields of `generate_uuid`, from the five draws that follow
   * seed `s` in order: `as u32`, `as u16`, `as u16 & 0x0fff`,
   * `as u16 & 0x3fff | 0x8000` and `as u64 & 0xffffffffffff`.
   */
  function UuidFields(s: nat): (f: seq<nat>)
    requires s < U64
    ensures |f| == 5
    ensures f[0] < 0x1_0000_0000 && f[1] < 0x1_0000 && f[2] < 0x1000
    ensures 0x8000 <= f[3] < 0xC000 && f[4] < 0x1_0000_0000_0000
  {
    [Draw(s) % 0x1_0000_0000, Draw(Seeds(s, 1)) % 0x1_0000, Draw(Seeds(s, 2)) % 0x1000,
     Draw(Seeds(s, 3)) % 0x4000 + 0x8000, Draw(Seeds(s, 4)) % 0x1_0000_0000_0000]
  }

  /** `format!("{:08x}-{:04x}-4{:03x}-{:04x}-{:012x}", ...)` of the fields. */
  function UuidText(f: seq<nat>): (u: string)
    requires |f| == 5
    requires f[0] < 0x1_0000_0000 && f[1] < 0x1_0000 && f[2] < 0x1000
    requires f[3] < 0x1_0000 && f[4] < 0x1_0000_0000_0000
    ensures |u| == 36
  {
    Widths();
    HexDigits(f[0], 8) + "-" + HexDigits(f[1], 4) + "-4" + HexDigits(f[2], 3) + "-"
      + HexDigits(f[3], 4) + "-" + HexDigits(f[4], 12)
  }

  /** `generate_uuid()` from seed `s`: the text and the seed after five draws. */
  function UuidFrom(s: nat): (r: (string, nat))
    requires s < U64
    ensures |r.0| == 36 && r.1 == Seeds(s, 5)
  {
    (UuidText(UuidFields(s)), Seeds(s, 5))
  }

  /** The leading digit of four hex digits is the number's top four bits. */
  lemma FirstOfFour(h: nat)
    requires h < 0x1_0000
    ensures HexDigits(h, 4)[0] == LowerHex(h / 0x1000)
  {
    Widths();
    var a := h / 16;
    var b := a / 16;
    var c := b / 16;
    FirstDigitStep(h, 4);
    FirstDigitStep(a, 3);
    FirstDigitStep(b, 2);
    assert c == h / 0x1000 by { ThreeDivisions(h); }
    assert Pow16(1) == 16;
    assert HexDigits(c, 1) == [LowerHex(c % 16)];
    assert c < 16;
    Radix.DivUnique(c, 16, 0, c);
    hide HexDigits, Pow16;
    assert HexDigits(h, 4)[0] == HexDigits(c, 1)[0];
  }

  /** The leading digit of `n` hex digits is the leading digit of the `n - 1` digits of `h / 16`. */
  lemma FirstDigitStep(h: nat, n: nat)
    requires n >= 2 && h < Pow16(n)
    ensures h / 16 < Pow16(n - 1) && HexDigits(h, n)[0] == HexDigits(h / 16, n - 1)[0]
  {
    assert HexDigits(h, n) == HexDigits(h / 16, n - 1) + [LowerHex(h % 16)];
  }

  /** Three divisions by 16 are one division by 16^3. */
  lemma ThreeDivisions(h: nat)
    ensures h / 16 / 16 / 16 == h / 0x1000
  {
    var a := h / 16;
    var b := a / 16;
    var c := b / 16;
    Radix.DivUnique(h, 0x1000, c, (b % 16) * 0x100 + (a % 16) * 16 + h % 16);
  }

  predicate LowerHexText(p: string)
  {
    forall i :: 0 <= i < |p| ==> '0' <= p[i] <= '9' || 'a' <= p[i] <= 'f'
  }

  /** The layout of five lower-case hex fields of widths 8, 4, 3, 4 and 12 joined as a UUID. */
  lemma UuidLayout(p0: string, p1: string, p2: string, p3: string, p4: string)
    requires |p0| == 8 && |p1| == 4 && |p2| == 3 && |p3| == 4 && |p4| == 12
    requires LowerHexText(p0) && LowerHexText(p1) && LowerHexText(p2) && LowerHexText(p3) && LowerHexText(p4)
    ensures var u := p0 + "-" + p1 + "-4" + p2 + "-" + p3 + "-" + p4;
      |u| == 36 && u[8] == '-' && u[13] == '-' && u[18] == '-' && u[23] == '-' &&
      u[14] == '4' && u[19] == p3[0] &&
      forall i :: 0 <= i < 36 && i !in {8, 13, 14, 18, 23} ==> '0' <= u[i] <= '9' || 'a' <= u[i] <= 'f'
  {
    var u := p0 + "-" + p1 + "-4" + p2 + "-" + p3 + "-" + p4;
    forall i | 0 <= i < 36 && i !in {8, 13, 14, 18, 23}
      ensures '0' <= u[i] <= '9' || 'a' <= u[i] <= 'f'
    {
      if i < 8 { assert u[i] == p0[i]; }
      else if i < 13 { assert u[i] == p1[i - 9]; }
      else if i < 18 { assert u[i] == p2[i - 15]; }
      else if i < 23 { assert u[i] == p3[i - 19]; }
      else { assert u[i] == p4[i - 24]; }
    }
  }

  /**
   * The shape of every generated UUID: 36 characters, dashes at 8, 13, 18
   * and 23, the version digit `4` at 14, a variant digit among `8 9 a b`
   * at 19, and lower-case hex digits everywhere else.
   */
  lemma UuidShape(s: nat)
    requires s < U64
    ensures var u := UuidFrom(s).0;
      |u| == 36 && u[8] == '-' && u[13] == '-' && u[18] == '-' && u[23] == '-' &&
      u[14] == '4' && u[19] in {'8', '9', 'a', 'b'} &&
      forall i :: 0 <= i < 36 && i !in {8, 13, 14, 18, 23} ==> '0' <= u[i] <= '9' || 'a' <= u[i] <= 'f'
  {
    var f := UuidFields(s);
    Widths();
    var p0, p1, p2, p3, p4 := HexDigits(f[0], 8), HexDigits(f[1], 4), HexDigits(f[2], 3), HexDigits(f[3], 4), HexDigits(f[4], 12);
    assert UuidFrom(s).0 == p0 + "-" + p1 + "-4" + p2 + "-" + p3 + "-" + p4;
    UuidLayout(p0, p1, p2, p3, p4);
    FirstOfFour(f[3]);
    VariantDigit(f[3]);
  }

  /** `x & 0x3fff | 0x8000` begins with one of the hex digits 8, 9, a and b. */
  lemma VariantDigit(x: nat)
    requires 0x8000 <= x < 0xC000
    ensures LowerHex(x / 0x1000) in {'8', '9', 'a', 'b'}
  {
    var top := x / 0x1000;
    assert 8 <= top < 12;
  }

  /** Each field of a UUID reads back as the draw it was formatted from. */
  lemma UuidFieldsReadBack(s: nat)
    requires s < U64
    ensures var u := UuidFrom(s).0; var f := UuidFields(s);
      AllHexDigits(u[..8]) && HexNumber(u[..8]) == f[0] &&
      AllHexDigits(u[9..13]) && HexNumber(u[9..13]) == f[1] &&
      AllHexDigits(u[15..18]) && HexNumber(u[15..18]) == f[2] &&
      AllHexDigits(u[19..23]) && HexNumber(u[19..23]) == f[3] &&
      AllHexDigits(u[24..]) && HexNumber(u[24..]) == f[4]
  {
    var f := UuidFields(s);
    Widths();
    var u := UuidFrom(s).0;
    var p0, p1, p2, p3, p4 := HexDigits(f[0], 8), HexDigits(f[1], 4), HexDigits(f[2], 3), HexDigits(f[3], 4), HexDigits(f[4], 12);
    assert u == p0 + "-" + p1 + "-4" + p2 + "-" + p3 + "-" + p4;
    assert u[..8] == p0 && u[9..13] == p1 && u[15..18] == p2 && u[19..23] == p3 && u[24..] == p4;
    HexDigitsValue(f[0], 8);
    HexDigitsValue(f[1], 4);
    HexDigitsValue(f[2], 3);
    HexDigitsValue(f[3], 4);
    HexDigitsValue(f[4], 12);
  }

  // ---------------------------------------------------------------------
  // The generator
  // ---------------------------------------------------------------------

  /** `RANDOM_SEED`, the state every random builtin reads and steps. */
  class Generator {
    var seed: nat

    ghost predicate Valid()
      reads this
    {
      seed < U64
    }

    /** The seed starts at 1. */
    constructor ()
      ensures Valid() && seed == 1
    {
      seed := 1;
    }

    /** `simple_random`: step the seed, return its upper 48 bits. */
    method Next() returns (r: nat)
      requires Valid()
      modifies this
      ensures Valid() && seed == NextSeed(old(seed)) && r == Draw(old(seed))
    {
      seed := ((seed * 1103515245) % U64 + 12345) % U64;
      r := seed / 0x1_0000;
    }

    method SetRandomSeed(args: seq<Value>) returns (r: Result<Value, Errors.FlowError>)
      requires Valid()
      modifies this
      ensures Valid()
      ensures r == SetSeed(args, old(seed)).0 && seed == SetSeed(args, old(seed)).1
    {
      if |args| != 1 {
        return Crypto.Fail(SEED_ARITY);
      }
      match args[0] {
        case Integer(k) =>
          seed := k % U64;
          r := Ok(Null);
        case _ =>
          r := Crypto.Fail(SEED_TYPE);
      }
    }

    method RandomInt(args: seq<Value>) returns (r: Result<Value, Errors.FlowError>)
      requires Valid() && RangeFits(args)
      modifies this
      ensures Valid()
      ensures r == RandomIntFrom(args, old(seed)).0 && seed == RandomIntFrom(args, old(seed)).1
    {
      var bounds := IntBounds(args);
      if bounds.Err? {
        return Err(bounds.error);
      }
      var (lo, hi) := bounds.value;
      if lo >= hi {
        return Crypto.Fail(INT_EMPTY);
      }
      var d := Next();
      r := Ok(Integer(d % (hi - lo) + lo));
    }

    /** `random_float`: the arguments are ignored. */
    method RandomFloat(args: seq<Value>) returns (r: Result<Value, Errors.FlowError>)
      requires Valid()
      modifies this
      ensures Valid()
      ensures r == Ok(RandomFloatFrom(old(seed)).0) && seed == RandomFloatFrom(old(seed)).1
    {
      var d := Next();
      r := Ok(Float((d % 1000000) as real / 1000000.0));
    }

    /** `random_string`: the loop `for _ in 0..length`, one character per draw. */
    method RandomString(args: seq<Value>) returns (r: Result<Value, Errors.FlowError>)
      requires Valid() && LengthFits(args)
      modifies this
      ensures Valid()
      ensures r == RandomStringFrom(args, old(seed)).0 && seed == RandomStringFrom(args, old(seed)).1
    {
      var length := StringLength(args);
      if length.Err? {
        return Err(length.error);
      }
      var n := length.value;
      var result := "";
      var k := 0;
      while k < n
        invariant 0 <= k <= n && Valid()
        invariant result == Chars(k, old(seed)).0 && seed == Chars(k, old(seed)).1
      {
        var d := Next();
        result := result + [AlnumChar(d % 62)];
        k := k + 1;
      }
      r := Ok(Str(result));
    }

    /** `generate_uuid`: five draws, formatted in order; the arguments are ignored. */
    method GenerateUuid(args: seq<Value>) returns (r: Result<Value, Errors.FlowError>)
      requires Valid()
      modifies this
      ensures Valid()
      ensures r == Ok(Str(UuidFrom(old(seed)).0)) && seed == UuidFrom(old(seed)).1
    {
      hide UuidText, NextSeed, Draw;
      ghost var s0 := seed;
      var d1 := Next();
      assert seed == Seeds(s0, 1) && d1 == Draw(s0);
      var d2 := Next();
      assert seed == Seeds(s0, 2) && d2 == Draw(Seeds(s0, 1));
      var d3 := Next();
      assert seed == Seeds(s0, 3) && d3 == Draw(Seeds(s0, 2));
      var d4 := Next();
      assert seed == Seeds(s0, 4) && d4 == Draw(Seeds(s0, 3));
      var d5 := Next();
      assert seed == Seeds(s0, 5) && d5 == Draw(Seeds(s0, 4));
      var fields := [d1 % 0x1_0000_0000, d2 % 0x1_0000, d3 % 0x1000, d4 % 0x4000 + 0x8000, d5 % 0x1_0000_0000_0000];
      assert fields == UuidFields(s0);
      r := Ok(Str(UuidText(fields)));
    }
  }
}
