/**
 * FlowLang's arbitrary-precision integer (src/bigint.rs): sign and magnitude,
 * with the magnitude held as base-10^9 limbs, least significant limb first.
 *
 * `Mag` and `Value` give the mathematical meaning of a limb list; `FromInt`
 * is the one canonical representation of an integer. Every operation whose
 * source is a loop is a method proved to produce exactly `FromInt` of the
 * mathematically expected value.
 */
module BigNum {
  import opened Wrappers

  const BASE: nat := 1_000_000_000
  const I64_MIN: int := -0x8000_0000_0000_0000
  const I64_MAX: int := 0x7FFF_FFFF_FFFF_FFFF

  datatype BigInt = BigInt(digits: seq<nat>, negative: bool)

  datatype Ordering = Less | Equal | Greater

  function CompareInt(x: int, y: int): Ordering
  {
    if x < y then Less else if x == y then Equal else Greater
  }

  // ---------------------------------------------------------------------
  // Meaning of a limb list
  // ---------------------------------------------------------------------

  function Pow(k: nat): nat
  {
    if k == 0 then 1 else BASE * Pow(k - 1)
  }

  /** The magnitude denoted by little-endian base-10^9 limbs. */
  function Mag(d: seq<nat>): nat
  {
    if |d| == 0 then 0 else d[0] + BASE * Mag(d[1..])
  }

  function Value(b: BigInt): int
  {
    if b.negative then -(Mag(b.digits) as int) else Mag(b.digits)
  }

  predicate LimbsOk(d: seq<nat>)
  {
    forall i :: 0 <= i < |d| ==> d[i] < BASE
  }

  /** What every BigInt built by the source satisfies: at least one limb, each below BASE. */
  predicate WellFormed(b: BigInt)
  {
    |b.digits| > 0 && LimbsOk(b.digits)
  }

  /** No trailing zero limb, except the single limb of zero. */
  predicate Canonical(d: seq<nat>)
  {
    |d| > 0 && LimbsOk(d) && (|d| == 1 || d[|d| - 1] != 0)
  }

  /** The state `normalize` establishes: canonical limbs, and zero is never negative. */
  predicate Normalized(b: BigInt)
  {
    Canonical(b.digits) && (IsZero(b) ==> !b.negative)
  }

  /** `BigInt::new`: the integer zero. */
  function New(): (r: BigInt)
    ensures Normalized(r) && Value(r) == 0
  {
    BigInt([0], false)
  }

  /** `is_zero`: exactly one limb and that limb is 0. */
  predicate IsZero(b: BigInt)
  {
    |b.digits| == 1 && b.digits[0] == 0
  }

  /** On canonical limbs `is_zero` decides whether the magnitude is zero. */
  lemma IsZeroMeaning(b: BigInt)
    requires Canonical(b.digits)
    ensures IsZero(b) <==> Mag(b.digits) == 0
  {
    if |b.digits| == 1 {
      assert b.digits[1..] == [];
    } else {
      MagTopNonZero(b.digits);
    }
  }

  /** The limbs of a magnitude, least significant first, with no zero limb on top. */
  function Limbs(m: nat): seq<nat>
    decreases m
  {
    if m == 0 then [] else [m % BASE] + Limbs(m / BASE)
  }

  lemma {:induction false} LimbsProps(m: nat)
    ensures LimbsOk(Limbs(m)) && Mag(Limbs(m)) == m
    ensures Limbs(m) == [] <==> m == 0
    ensures |Limbs(m)| > 0 ==> Limbs(m)[|Limbs(m)| - 1] != 0
    decreases m
  {
    if m > 0 {
      var rest := Limbs(m / BASE);
      LimbsProps(m / BASE);
      assert Limbs(m) == [m % BASE] + rest;
      assert Limbs(m)[1..] == rest;
      if rest == [] {
        assert m / BASE == 0;
      }
    }
  }

  /** The canonical BigInt of an integer: the value every normalized result equals. */
  function FromInt(n: int): BigInt
  {
    if n == 0 then BigInt([0], false)
    else if n < 0 then BigInt(Limbs(-n), true)
    else BigInt(Limbs(n), false)
  }

  // ---------------------------------------------------------------------
  // Lemmas about limb lists
  // ---------------------------------------------------------------------

  lemma {:induction false} MagAppend(d: seq<nat>, x: nat)
    ensures Mag(d + [x]) == Mag(d) + x * Pow(|d|)
    decreases |d|
  {
    if |d| == 0 {
      assert (d + [x])[1..] == [];
    } else {
      assert (d + [x])[1..] == d[1..] + [x];
      MagAppend(d[1..], x);
      calc {
        Mag(d + [x]);
        d[0] + BASE * Mag(d[1..] + [x]);
        d[0] + BASE * (Mag(d[1..]) + x * Pow(|d| - 1));
        { assert BASE * (x * Pow(|d| - 1)) == x * (BASE * Pow(|d| - 1)); }
        d[0] + BASE * Mag(d[1..]) + x * Pow(|d|);
      }
    }
  }

  lemma {:induction false} MagBound(d: seq<nat>)
    requires LimbsOk(d)
    ensures Mag(d) < Pow(|d|)
    decreases |d|
  {
    if |d| > 0 {
      MagBound(d[1..]);
      assert Mag(d[1..]) + 1 <= Pow(|d| - 1);
      assert BASE * (Mag(d[1..]) + 1) <= BASE * Pow(|d| - 1);
    }
  }

  lemma {:induction false} MagTopNonZero(d: seq<nat>)
    requires |d| > 0 && d[|d| - 1] != 0
    ensures Mag(d) > 0
    decreases |d|
  {
    if |d| > 1 {
      MagTopNonZero(d[1..]);
    }
  }

  /** A canonical limb list is the `Limbs` of its magnitude (or the lone zero limb). */
  lemma {:induction false} CanonicalIsLimbs(d: seq<nat>)
    requires Canonical(d)
    ensures Mag(d) == 0 ==> d == [0]
    ensures Mag(d) != 0 ==> d == Limbs(Mag(d))
    decreases |d|
  {
    if |d| == 1 {
      assert Mag(d) == d[0] by { assert d[1..] == []; }
      if d[0] != 0 {
        assert Limbs(d[0]) == [d[0]] + Limbs(d[0] / BASE);
      }
    } else {
      var rest := d[1..];
      assert rest[|rest| - 1] == d[|d| - 1];
      MagTopNonZero(rest);
      CanonicalIsLimbs(rest);
      var m := Mag(d);
      assert m == d[0] + BASE * Mag(rest);
      assert m % BASE == d[0] && m / BASE == Mag(rest);
      assert d == [d[0]] + rest;
    }
  }

  /** Normalized values are exactly the canonical ones: `FromInt` inverts `Value`. */
  lemma FromIntOfValue(b: BigInt)
    requires Normalized(b)
    ensures FromInt(Value(b)) == b
  {
    CanonicalIsLimbs(b.digits);
  }

  lemma FromIntCorrect(n: int)
    ensures Normalized(FromInt(n)) && Value(FromInt(n)) == n
  {
    if n < 0 {
      LimbsProps(-n);
      IsZeroMeaning(FromInt(n));
    } else if n > 0 {
      LimbsProps(n);
      IsZeroMeaning(FromInt(n));
    }
  }

  /** Two normalized BigInts with the same value are the same BigInt. */
  lemma NormalizedUnique(a: BigInt, b: BigInt)
    requires Normalized(a) && Normalized(b) && Value(a) == Value(b)
    ensures a == b
  {
    FromIntOfValue(a);
    FromIntOfValue(b);
  }

  // ---------------------------------------------------------------------
  // Padded prefixes, used by the digit-by-digit loops
  // ---------------------------------------------------------------------

  /** Limb i of d, or 0 past its end (`digits.get(i).unwrap_or(0)`). */
  function Digit(d: seq<nat>, i: nat): nat
  {
    if i < |d| then d[i] else 0
  }

  /** The magnitude of the first i limbs of d, reading missing limbs as 0. */
  function MagPrefix(d: seq<nat>, i: nat): nat
  {
    if i == 0 then 0 else MagPrefix(d, i - 1) + Digit(d, i - 1) * Pow(i - 1)
  }

  lemma {:induction false} MagPrefixIsMag(d: seq<nat>, i: nat)
    ensures i <= |d| ==> MagPrefix(d, i) == Mag(d[..i])
    ensures i >= |d| ==> MagPrefix(d, i) == Mag(d)
    decreases i
  {
    if i == 0 {
      assert d[..0] == [];
    } else {
      MagPrefixIsMag(d, i - 1);
      if i <= |d| {
        assert d[..i] == d[..i - 1] + [d[i - 1]];
        MagAppend(d[..i - 1], d[i - 1]);
        assert i == |d| ==> d[..i] == d;
      } else if i - 1 == |d| {
        assert d[..i - 1] == d;
      }
    }
  }

  lemma {:induction false} MagPrefixBound(d: seq<nat>, i: nat)
    requires LimbsOk(d)
    ensures MagPrefix(d, i) < Pow(i)
    decreases i
  {
    if i > 0 {
      MagPrefixBound(d, i - 1);
      assert Digit(d, i - 1) <= BASE - 1;
      assert Digit(d, i - 1) * Pow(i - 1) <= (BASE - 1) * Pow(i - 1);
    }
  }

  // ---------------------------------------------------------------------
  // Imperative operations
  // ---------------------------------------------------------------------

  /** `from_i64`: the limbs of |value| pushed least significant first. */
  method FromI64(value: int) returns (r: BigInt)
    requires I64_MIN < value <= I64_MAX
    ensures r == FromInt(value)
    ensures Normalized(r) && Value(r) == value
  {
    if value == 0 {
      return New();
    }
    var negative := value < 0;
    var v: nat := if negative then -value else value;
    var digits: seq<nat> := [];
    var remaining: nat := v;
    while remaining > 0
      invariant digits + Limbs(remaining) == Limbs(v)
      decreases remaining
    {
      assert Limbs(remaining) == [remaining % BASE] + Limbs(remaining / BASE);
      digits := digits + [remaining % BASE];
      remaining := remaining / BASE;
    }
    assert digits == Limbs(v);
    r := BigInt(digits, negative);
    FromIntCorrect(value);
  }

  /** `normalize`: pop trailing zero limbs (keeping one), then clear the sign of zero. */
  method Normalize(b: BigInt) returns (r: BigInt)
    ensures |r.digits| <= |b.digits| && r.digits == b.digits[..|r.digits|]
    ensures |b.digits| > 0 ==> |r.digits| > 0 && Mag(r.digits) == Mag(b.digits)
    ensures |b.digits| > 0 ==> |r.digits| == 1 || r.digits[|r.digits| - 1] != 0
    ensures r.negative == (b.negative && !IsZero(r))
    ensures WellFormed(b) ==> r == FromInt(Value(b))
  {
    var digits := b.digits;
    while |digits| > 1 && digits[|digits| - 1] == 0
      invariant |digits| <= |b.digits| && digits == b.digits[..|digits|]
      invariant |b.digits| > 0 ==> |digits| > 0 && Mag(digits) == Mag(b.digits)
      decreases |digits|
    {
      ghost var before := digits;
      digits := digits[..|digits| - 1];
      assert before == digits + [0];
      MagAppend(digits, 0);
    }
    r := BigInt(digits, b.negative);
    if IsZero(r) {
      r := r.(negative := false);
    }
    if WellFormed(b) {
      assert LimbsOk(digits);
      FromIntOfValue(r);
    }
  }

  /** `add_magnitude`: |a| + |b| by a carry loop over the longer limb list. */
  method AddMagnitude(a: BigInt, b: BigInt) returns (r: BigInt)
    requires WellFormed(a) && WellFormed(b)
    ensures r == FromInt(Mag(a.digits) + Mag(b.digits))
    ensures !r.negative && Mag(r.digits) == Mag(a.digits) + Mag(b.digits)
  {
    var result := AddLimbs(a.digits, b.digits);
    r := Normalize(BigInt(result, false));
  }

  /** The carry loop of `add_magnitude`, then the final carry limb when it is not zero. */
  method AddLimbs(a: seq<nat>, b: seq<nat>) returns (result: seq<nat>)
    requires LimbsOk(a) && LimbsOk(b) && 0 < |a| && 0 < |b|
    ensures 0 < |result| && LimbsOk(result)
    ensures Mag(result) == Mag(a) + Mag(b)
  {
    var maxLen := if |a| >= |b| then |a| else |b|;
    result := [];
    var carry: nat := 0;
    for i := 0 to maxLen
      invariant |result| == i && LimbsOk(result) && carry <= 1
      invariant Mag(result) + carry * Pow(i) == MagPrefix(a, i) + MagPrefix(b, i)
    {
      var x := Digit(a, i);
      var y := Digit(b, i);
      var sum := x + y + carry;
      AddStep(result, carry, a, b, i);
      result := result + [sum % BASE];
      carry := sum / BASE;
    }
    if carry > 0 {
      MagAppend(result, carry);
      result := result + [carry];
    }
    assert Mag(result) == MagPrefix(a, maxLen) + MagPrefix(b, maxLen);
    MagPrefixIsMag(a, maxLen);
    MagPrefixIsMag(b, maxLen);
  }


  /** The arithmetic of one carry step: the new low limb and carry keep the running sum. */
  /** One column of the carry loop keeps "limbs so far plus carry" equal to the two prefix sums. */
  lemma AddStep(result: seq<nat>, carry: nat, a: seq<nat>, b: seq<nat>, i: nat)
    requires |result| == i
    requires Mag(result) + carry * Pow(i) == MagPrefix(a, i) + MagPrefix(b, i)
    ensures var sum := Digit(a, i) + Digit(b, i) + carry;
      Mag(result + [sum % BASE]) + (sum / BASE) * Pow(i + 1) == MagPrefix(a, i + 1) + MagPrefix(b, i + 1)
  {
    var x := Digit(a, i);
    var y := Digit(b, i);
    var sum := x + y + carry;
    var p := Pow(i);
    assert Pow(i + 1) == BASE * p;
    assert MagPrefix(a, i + 1) == MagPrefix(a, i) + x * p;
    assert MagPrefix(b, i + 1) == MagPrefix(b, i) + y * p;
    MagAppend(result, sum % BASE);
    CarryStep(Mag(result), carry, x, y, p, MagPrefix(a, i) + MagPrefix(b, i));
  }

  lemma CarryStep(m: int, c: int, x: int, y: int, p: int, rhs: int)
    requires m + c * p == rhs
    ensures var s := x + y + c;
      m + (s % BASE) * p + (s / BASE) * (BASE * p) == rhs + x * p + y * p
  {
    var s := x + y + c;
    var q := s / BASE;
    var low := s % BASE;
    assert s == q * BASE + low;
    assert q * (BASE * p) == (q * BASE) * p;
    assert low * p + (q * BASE) * p == s * p;
    assert s * p == x * p + y * p + c * p;
  }

  /** Lexicographic comparison of two limb lists of equal length, from index i down. */
  lemma {:induction false} MagLexLess(a: seq<nat>, b: seq<nat>, i: nat)
    requires |a| == |b| && i < |a| && LimbsOk(a) && LimbsOk(b)
    requires forall k :: i < k < |a| ==> a[k] == b[k]
    requires a[i] < b[i]
    ensures Mag(a) < Mag(b)
    decreases i
  {
    if i == 0 {
      assert a[1..] == b[1..];
    } else {
      assert a[1..][i - 1] == a[i] && b[1..][i - 1] == b[i];
      MagLexLess(a[1..], b[1..], i - 1);
      assert Mag(a[1..]) + 1 <= Mag(b[1..]);
      assert BASE * Mag(a[1..]) + BASE <= BASE * Mag(b[1..]);
    }
  }

  lemma {:induction false} CanonicalLengthOrder(a: seq<nat>, b: seq<nat>)
    requires Canonical(a) && Canonical(b) && |a| < |b|
    ensures Mag(a) < Mag(b)
  {
    var top := b[|b| - 1];
    var lower := b[..|b| - 1];
    var p := Pow(|lower|);
    assert Mag(a) < Pow(|a|) by { MagBound(a); }
    assert Pow(|a|) <= p by { PowMonotone(|a|, |lower|); }
    assert p <= top * p by { MulLe(p, 1, top); }
    assert Mag(b) == Mag(lower) + top * p by {
      assert b == lower + [top];
      MagAppend(lower, top);
    }
  }

  lemma {:induction false} PowMonotone(i: nat, j: nat)
    requires i <= j
    ensures Pow(i) <= Pow(j)
    decreases j
  {
    if i < j {
      PowMonotone(i, j - 1);
    }
  }

  /** `cmp_magnitude`: longer limb lists are larger; equal lengths compare from the top limb down. */
  method CmpMagnitude(a: BigInt, b: BigInt) returns (o: Ordering)
    ensures |a.digits| != |b.digits| ==> o == CompareInt(|a.digits|, |b.digits|)
    ensures Canonical(a.digits) && Canonical(b.digits) ==> o == CompareInt(Mag(a.digits), Mag(b.digits))
  {
    if |a.digits| < |b.digits| {
      if Canonical(a.digits) && Canonical(b.digits) {
        CanonicalLengthOrder(a.digits, b.digits);
      }
      return Less;
    }
    if |a.digits| > |b.digits| {
      if Canonical(a.digits) && Canonical(b.digits) {
        CanonicalLengthOrder(b.digits, a.digits);
      }
      return Greater;
    }
    var i := |a.digits|;
    while i > 0
      invariant 0 <= i <= |a.digits|
      invariant forall k :: i <= k < |a.digits| ==> a.digits[k] == b.digits[k]
      decreases i
    {
      i := i - 1;
      if a.digits[i] < b.digits[i] {
        if Canonical(a.digits) && Canonical(b.digits) {
          MagLexLess(a.digits, b.digits, i);
        }
        return Less;
      }
      if a.digits[i] > b.digits[i] {
        if Canonical(a.digits) && Canonical(b.digits) {
          MagLexLess(b.digits, a.digits, i);
        }
        return Greater;
      }
    }
    assert a.digits == b.digits;
    o := Equal;
  }

  /** One limb of schoolbook subtraction keeps "digits so far minus borrow" equal to the prefix difference. */
  lemma BorrowStep(m: int, c: int, nc: int, limb: int, x: int, y: int, p: int, rhs: int)
    requires m - c * p == rhs
    requires limb == x - y - c + BASE * nc
    ensures m + limb * p - nc * (BASE * p) == rhs + x * p - y * p
  {
    assert limb * p == x * p - y * p - c * p + (BASE * nc) * p;
    assert nc * (BASE * p) == (BASE * nc) * p;
  }

  /** The borrow loop of `sub_magnitude`, for |a| >= |b|: one limb per limb of a. */
  method SubLimbs(a: seq<nat>, b: seq<nat>) returns (result: seq<nat>)
    requires LimbsOk(a) && LimbsOk(b) && 0 < |a| && |b| <= |a| && Mag(a) >= Mag(b)
    ensures |result| == |a| && LimbsOk(result)
    ensures Mag(result) == Mag(a) - Mag(b)
  {
    result := [];
    var borrow: nat := 0;
    for i := 0 to |a|
      invariant |result| == i && LimbsOk(result) && borrow <= 1
      invariant Mag(result) as int - borrow * Pow(i) == MagPrefix(a, i) as int - MagPrefix(b, i) as int
    {
      var x := a[i];
      var y := Digit(b, i);
      var diff := x - y - borrow;
      var limb: nat;
      var next: nat;
      if diff < 0 {
        limb := diff + BASE;
        next := 1;
      } else {
        limb := diff;
        next := 0;
      }
      SubStep(result, borrow, next, limb, a, b, i);
      result := result + [limb];
      borrow := next;
    }
    var n := |a|;
    assert Mag(result) as int - borrow * Pow(n) == Mag(a) as int - Mag(b) as int by {
      MagPrefixIsMag(a, n);
      MagPrefixIsMag(b, n);
    }
    assert borrow == 0 by {
      MagBound(result);
    }
  }

  /**
   * `sub_magnitude`: the signed difference |a| - |b|. When |a| < |b| the
   * source recurses with the operands swapped and flips the sign.
   */
  /** One column of the borrow loop keeps "limbs so far minus borrow" equal to the prefix difference. */
  lemma SubStep(result: seq<nat>, borrow: nat, next: nat, limb: nat, a: seq<nat>, b: seq<nat>, i: nat)
    requires |result| == i && i < |a|
    requires limb == a[i] - Digit(b, i) - borrow + BASE * next
    requires Mag(result) as int - borrow * Pow(i) == MagPrefix(a, i) as int - MagPrefix(b, i) as int
    ensures Mag(result + [limb]) as int - next * Pow(i + 1) == MagPrefix(a, i + 1) as int - MagPrefix(b, i + 1) as int
  {
    var x := a[i];
    var y := Digit(b, i);
    var p := Pow(i);
    var rhs := MagPrefix(a, i) as int - MagPrefix(b, i) as int;
    assert Pow(i + 1) == BASE * p;
    assert MagPrefix(a, i + 1) as int - MagPrefix(b, i + 1) as int == rhs + x * p - y * p;
    assert Mag(result + [limb]) == Mag(result) + limb * p by { MagAppend(result, limb); }
    assert Mag(result) + limb * p - next * (BASE * p) == rhs + x * p - y * p by {
      BorrowStep(Mag(result), borrow, next, limb, x, y, p, rhs);
    }
  }

  method SubMagnitude(a: BigInt, b: BigInt) returns (r: BigInt)
    requires Canonical(a.digits) && Canonical(b.digits)
    ensures r == FromInt(Mag(a.digits) - Mag(b.digits))
    ensures Value(r) == Mag(a.digits) - Mag(b.digits)
    decreases if Mag(a.digits) < Mag(b.digits) then 1 else 0
  {
    var order := CmpMagnitude(a, b);
    if order == Less {
      var swapped := SubMagnitude(b, a);
      r := swapped.(negative := !swapped.negative);
      return;
    }
    assert |b.digits| <= |a.digits| by {
      if |a.digits| < |b.digits| { CanonicalLengthOrder(a.digits, b.digits); }
    }
    assert Mag(a.digits) >= Mag(b.digits);
    var result := SubLimbs(a.digits, b.digits);
    r := Normalize(BigInt(result, false));
  }

  /** `Add for BigInt`: dispatch on the two signs to magnitude addition or subtraction. */
  method Add(a: BigInt, b: BigInt) returns (r: BigInt)
    requires Canonical(a.digits) && Canonical(b.digits)
    ensures Value(r) == Value(a) + Value(b)
    ensures Normalized(a) || Normalized(b) ==> r == FromInt(Value(a) + Value(b))
  {
    var ma: int := Mag(a.digits);
    var mb: int := Mag(b.digits);
    match (a.negative, b.negative)
    case (false, false) =>
      r := AddMagnitude(a, b);
      assert Value(a) + Value(b) == ma + mb;

    case (true, true) =>
      var sum := AddMagnitude(a, b);
      r := sum.(negative := true);
      assert Value(a) + Value(b) == -(ma + mb) && Value(r) == -(ma + mb);
      assert Normalized(a) || Normalized(b) ==> ma + mb > 0 by {
        IsZeroMeaning(a);
        IsZeroMeaning(b);
      }
    case (false, true) =>
      r := SubMagnitude(a, b);
      assert Value(a) + Value(b) == ma - mb;

    case (true, false) =>
      r := SubMagnitude(b, a);
      assert Value(a) + Value(b) == mb - ma;

  }

  lemma MagTopOrZero(d: seq<nat>)
    requires Canonical(d)
    ensures Mag(d) == 0 <==> d == [0]
  {
    CanonicalIsLimbs(d);
  }

  /** `Sub for BigInt`: flip the sign of the right operand, then add. */
  method Sub(a: BigInt, b: BigInt) returns (r: BigInt)
    requires Canonical(a.digits) && Canonical(b.digits)
    ensures Value(r) == Value(a) - Value(b)
    ensures Normalized(a) ==> r == FromInt(Value(a) - Value(b))
  {
    var flipped := b.(negative := !b.negative);
    r := Add(a, flipped);
  }

  lemma MagUpdate(s: seq<nat>, k: nat, v: nat)
    requires k < |s|
    ensures Mag(s[k := v]) as int == Mag(s) as int + (v as int - s[k] as int) * Pow(k)
    decreases k
  {
    if k == 0 {
      assert s[k := v][1..] == s[1..];
    } else {
      assert s[k := v][1..] == s[1..][k - 1 := v];
      MagUpdate(s[1..], k - 1, v);
      assert Pow(k) == BASE * Pow(k - 1);
    }
  }

  lemma PowAdd(i: nat, j: nat)
    ensures Pow(i + j) == Pow(i) * Pow(j)
    decreases j
  {
    if j > 0 {
      var a := Pow(i);
      var b := Pow(j - 1);
      PowAdd(i, j - 1);
      assert Pow(i + j) == BASE * (a * b);
      assert Pow(j) == BASE * b;
      MulShuffle(BASE, a, b);
    }
  }

  /** One step of the schoolbook inner loop keeps its invariant. */
  lemma MulStep(old_mag: int, carry: nat, limb: nat, x: nat, y: nat, p: nat, start: int, prefixB: nat, pi: nat, pj: nat)
    requires p == pi * pj
    requires old_mag + carry * p == start + x * prefixB * pi
    ensures var prod := x * y + limb + carry;
      old_mag + (prod % BASE - limb) * p + (prod / BASE) * (BASE * p)
        == start + x * (prefixB + y * pj) * pi
  {
    var prod := x * y + limb + carry;
    assert prod == (prod / BASE) * BASE + prod % BASE;
    assert (prod / BASE) * (BASE * p) == ((prod / BASE) * BASE) * p;
    calc {
      old_mag + (prod % BASE - limb) * p + (prod / BASE) * (BASE * p);
      old_mag + (prod - limb) * p;
      old_mag + (x * y + carry) * p;
      old_mag + carry * p + x * y * p;
      start + x * prefixB * pi + x * y * (pi * pj);
      { assert x * y * (pi * pj) == x * (y * pj) * pi; }
      start + x * (prefixB + y * pj) * pi;
    }
  }

  lemma CarryBound(x: nat, y: nat, limb: nat, carry: nat)
    requires x < BASE && y < BASE && limb < BASE && carry < BASE
    ensures 0 <= x * y + limb + carry && (x * y + limb + carry) / BASE < BASE
  {
    var p := x * y;
    assert p <= (BASE - 1) * (BASE - 1) by {
      MulLe(x, y, BASE - 1);
      MulLe(BASE - 1, x, BASE - 1);
    }
    DivLt(p + limb + carry, BASE, BASE);
  }

  lemma DivLt(n: int, d: int, q: int)
    requires 0 <= n < d * q && d > 0
    ensures n / d < q
  {
    if n / d >= q {
      MulLe(d, q, n / d);
      assert false;
    }
  }

  /** After row i the buffer holds (prefix of a through limb i) times b. */
  lemma RowDone(pa: int, x: int, pi: int, mb: int)
    ensures pa * mb + x * mb * pi == (pa + x * pi) * mb
  {
  }

  lemma SignedProduct(ma: nat, mb: nat, na: bool, nb: bool)
    ensures (if na then -(ma as int) else ma) * (if nb then -(mb as int) else mb)
      == (if na != nb then -(ma * mb) else ma * mb)
  {
  }

  lemma MulShuffle(x: int, y: int, z: int)
    ensures x * (y * z) == y * (x * z)
  {
  }

  lemma MulLe(a: nat, b: nat, c: nat)
    requires b <= c
    ensures a * b <= a * c
  {
    assert a * c == a * b + a * (c - b);
  }

  /** Row i of the schoolbook product: add x * b, shifted i limbs, into the buffer. */
  method MulRow(result: array<nat>, x: nat, b: seq<nat>, i: nat)
    requires x < BASE && LimbsOk(b) && i + |b| < result.Length
    requires forall k :: 0 <= k < result.Length ==> result[k] < BASE
    requires forall k :: i + |b| <= k < result.Length ==> result[k] == 0
    modifies result
    ensures forall k :: 0 <= k < result.Length ==> result[k] < BASE
    ensures forall k :: i + |b| + 1 <= k < result.Length ==> result[k] == 0
    ensures Mag(result[..]) == old(Mag(result[..])) + x * Mag(b) * Pow(i)
  {
    ghost var start := Mag(result[..]);
    var m := |b|;
    var carry: nat := 0;
    assert Pow(i + 0) == Pow(i);
    for j := 0 to m
      invariant carry < BASE
      invariant forall k :: 0 <= k < result.Length ==> result[k] < BASE
      invariant forall k :: i + m <= k < result.Length ==> result[k] == 0
      invariant Mag(result[..]) + carry * Pow(i + j) == start + x * MagPrefix(b, j) * Pow(i)
    {
      var y := b[j];
      var limb := result[i + j];
      CarryBound(x, y, limb, carry);
      var prod := x * y + limb + carry;
      ghost var before := result[..];
      var low: nat := prod % BASE;
      result[i + j] := low;
      assert result[..] == before[i + j := low];
      MulRowStep(before, start, x, b, i, j, carry);
      carry := prod / BASE;
    }
    ghost var before := result[..];
    if carry > 0 {
      result[i + m] := result[i + m] + carry;
      assert result[..] == before[i + m := carry];
      assert Mag(result[..]) == Mag(before) + carry * Pow(i + m) by {
        MagUpdate(before, i + m, carry);
      }
    }
    assert MagPrefix(b, m) == Mag(b) by { MagPrefixIsMag(b, m); }
  }

  /** One cell of row i: the buffer plus the pending carry still equals start + x * (prefix of b) shifted i limbs. */
  lemma MulRowStep(before: seq<nat>, start: int, x: nat, b: seq<nat>, i: nat, j: nat, carry: nat)
    requires j < |b| && i + j < |before|
    requires Mag(before) + carry * Pow(i + j) == start + x * MagPrefix(b, j) * Pow(i)
    ensures var prod := x * b[j] + before[i + j] + carry;
      prod >= 0 &&
      Mag(before[i + j := prod % BASE]) + (prod / BASE) * Pow(i + j + 1) == start + x * MagPrefix(b, j + 1) * Pow(i)
  {
    var y := b[j];
    var limb := before[i + j];
    var prod := x * y + limb + carry;
    assert prod >= 0 by { MulLe(x, 0, y); }
    var p := Pow(i + j);
    assert Pow(i + j + 1) == BASE * p;
    assert MagPrefix(b, j + 1) == MagPrefix(b, j) + y * Pow(j);
    assert Mag(before[i + j := prod % BASE]) == Mag(before) + (prod % BASE - limb) * p by {
      MagUpdate(before, i + j, prod % BASE);
    }
    assert p == Pow(i) * Pow(j) by { PowAdd(i, j); }
    MulStep(Mag(before), carry, limb, x, y, p, start, MagPrefix(b, j), Pow(i), Pow(j));
  }

  /** `Mul for BigInt`: schoolbook multiplication into a zeroed limb buffer of length |a| + |b|. */
  method Mul(a: BigInt, b: BigInt) returns (r: BigInt)
    requires WellFormed(a) && WellFormed(b)
    ensures r == FromInt(Value(a) * Value(b))
  {
    if IsZero(a) || IsZero(b) {
      assert Mag([0]) == 0 by { assert [0][1..] == []; }
      assert Value(a) == 0 || Value(b) == 0 by {
        if IsZero(a) { assert a.digits == [0]; } else { assert b.digits == [0]; }
      }
      return New();
    }
    var n := |a.digits|;
    var m := |b.digits|;
    var result := new nat[n + m](_ => 0);
    assert Mag(result[..]) == 0 by { MagZeros(result[..]); }
    for i := 0 to n
      invariant forall k :: 0 <= k < n + m ==> result[k] < BASE
      invariant forall k :: i + m <= k < n + m ==> result[k] == 0
      invariant Mag(result[..]) == MagPrefix(a.digits, i) * Mag(b.digits)
    {
      ghost var before := Mag(result[..]);
      MulRow(result, a.digits[i], b.digits, i);
      assert MagPrefix(a.digits, i + 1) == MagPrefix(a.digits, i) + a.digits[i] * Pow(i);
      RowDone(MagPrefix(a.digits, i), a.digits[i], Pow(i), Mag(b.digits));
    }
    MagPrefixIsMag(a.digits, n);
    var product := BigInt(result[..], a.negative != b.negative);
    SignedProduct(Mag(a.digits), Mag(b.digits), a.negative, b.negative);
    r := Normalize(product);
  }

  lemma {:induction false} MagZeros(s: seq<nat>)
    requires forall k :: 0 <= k < |s| ==> s[k] == 0
    ensures Mag(s) == 0
    decreases |s|
  {
    if |s| > 0 {
      MagZeros(s[1..]);
    }
  }

  /** `Ord for BigInt`: negatives first; same signs compare magnitudes (reversed when negative). */
  method Compare(a: BigInt, b: BigInt) returns (o: Ordering)
    requires Normalized(a) && Normalized(b)
    ensures o == CompareInt(Value(a), Value(b))
  {
    if !a.negative && b.negative {
      MagTopOrZero(b.digits);
      return Greater;
    }
    if a.negative && !b.negative {
      MagTopOrZero(a.digits);
      return Less;
    }
    if !a.negative {
      o := CmpMagnitude(a, b);
    } else {
      o := CmpMagnitude(b, a);
    }
  }

  /**
   * `to_i64`: None for more than two limbs; otherwise the sum of limb * BASE^i,
   * None again above i64::MAX, else that sum with the sign applied.
   */
  method ToI64(b: BigInt) returns (r: Option<int>)
    ensures |b.digits| > 2 ==> r == None
    ensures |b.digits| <= 2 && Mag(b.digits) <= I64_MAX ==> r == Some(Value(b))
    ensures |b.digits| <= 2 && Mag(b.digits) > I64_MAX ==> r == None
  {
    if |b.digits| > 2 {
      return None;
    }
    var value: nat := 0;
    for i := 0 to |b.digits|
      invariant value == MagPrefix(b.digits, i)
    {
      value := value + b.digits[i] * Pow(i);
    }
    MagPrefixIsMag(b.digits, |b.digits|);
    if value > I64_MAX {
      return None;
    }
    r := Some(if b.negative then -(value as int) else value);
  }

  /** Every well-formed BigInt of at most two limbs fits, so `to_i64` returns its value. */
  lemma ToI64TwoLimbs(b: BigInt)
    requires WellFormed(b) && |b.digits| <= 2
    ensures Mag(b.digits) < 1_000_000_000_000_000_000 <= I64_MAX
  {
    MagBound(b.digits);
    assert Pow(2) == 1_000_000_000_000_000_000;
    PowMonotone(|b.digits|, 2);
  }

  // ---------------------------------------------------------------------
  // Decimal text
  // ---------------------------------------------------------------------

  function DigitChar(d: nat): char
    requires d < 10
  {
    "0123456789"[d]
  }

  /** Reference decimal text of a natural number, no leading zeros. */
  function NatToString(n: nat): (s: string)
    ensures |s| > 0
    decreases n
  {
    if n < 10 then [DigitChar(n)] else NatToString(n / 10) + [DigitChar(n % 10)]
  }

  /** Reference decimal text of an integer: "-" then the digits of |n| for negatives. */
  function IntToString(n: int): string
  {
    if n < 0 then "-" + NatToString(-n) else NatToString(n)
  }

  function Pow10(k: nat): (p: nat)
    ensures p > 0
  {
    if k == 0 then 1 else 10 * Pow10(k - 1)
  }

  /** The last k decimal digits of d, zero-padded: `{:09}` for k = 9. */
  function PadDigits(d: nat, k: nat): (s: string)
    ensures |s| == k
  {
    if k == 0 then "" else PadDigits(d / 10, k - 1) + [DigitChar(d % 10)]
  }

  /** The limbs printed most significant first: the top limb plain, every lower one padded to 9 digits. */
  function LimbsText(d: seq<nat>): string
    requires |d| > 0
  {
    if |d| == 1 then NatToString(d[0]) else LimbsText(d[1..]) + PadDigits(d[0], 9)
  }

  /** `Display for BigInt`. */
  function Display(b: BigInt): string
  {
    (if b.negative then "-" else "") + (if |b.digits| == 0 then "" else LimbsText(b.digits))
  }

  lemma {:induction false} NatToStringShift(m: nat, d: nat, k: nat)
    requires m > 0 && d < Pow10(k)
    ensures NatToString(m * Pow10(k) + d) == NatToString(m) + PadDigits(d, k)
    decreases k
  {
    if k > 0 {
      var p := Pow10(k - 1);
      var n := m * (10 * p) + d;
      assert m * Pow10(k) + d == n;
      ShiftDigit(m, d, p);
      NatToStringShift(m, d / 10, k - 1);
      var head := NatToString(m);
      var mid := PadDigits(d / 10, k - 1);
      var last := [DigitChar(d % 10)];
      NatToStringStep(n);
      calc {
        NatToString(m * Pow10(k) + d);
        NatToString(n);
        NatToString(n / 10) + [DigitChar(n % 10)];
        { assert n / 10 == m * p + d / 10 && n % 10 == d % 10; }
        NatToString(m * p + d / 10) + last;
        (head + mid) + last;
        head + (mid + last);
        head + PadDigits(d, k);
      }
    } else {
      assert m * Pow10(k) + d == m;
      assert PadDigits(d, k) == "";
    }
  }

  lemma NatToStringStep(n: nat)
    requires n >= 10
    ensures NatToString(n) == NatToString(n / 10) + [DigitChar(n % 10)]
  {
  }

  /** Splitting the last decimal digit off m * 10p + d. */
  lemma ShiftDigit(m: nat, d: nat, p: nat)
    requires m > 0 && d < 10 * p
    ensures d / 10 < p
    ensures (m * (10 * p) + d) / 10 == m * p + d / 10
    ensures (m * (10 * p) + d) % 10 == d % 10
    ensures m * (10 * p) + d >= 10
  {
    var n := m * (10 * p) + d;
    assert m * (10 * p) == 10 * (m * p);
    assert n == 10 * (m * p + d / 10) + d % 10;
    assert m * p >= 1 by { MulLe(m, 1, p); }
  }

  lemma {:induction false} LimbsTextIsDecimal(d: seq<nat>)
    requires Canonical(d)
    ensures LimbsText(d) == NatToString(Mag(d))
    decreases |d|
  {
    if |d| == 1 {
      assert d[1..] == [];
    } else {
      var rest := d[1..];
      assert rest[|rest| - 1] == d[|d| - 1];
      MagTopNonZero(rest);
      LimbsTextIsDecimal(rest);
      assert Pow10(9) == BASE;
      NatToStringShift(Mag(rest), d[0], 9);
      assert Mag(rest) * BASE + d[0] == Mag(d);
    }
  }

  /** Printing a normalized BigInt gives the usual decimal text of its value. */
  lemma DisplayIsDecimal(b: BigInt)
    requires Normalized(b)
    ensures Display(b) == IntToString(Value(b))
  {
    LimbsTextIsDecimal(b.digits);
    MagTopOrZero(b.digits);
  }

  // ---------------------------------------------------------------------
  // from_string
  // ---------------------------------------------------------------------

  predicate IsDigit(c: char) { '0' <= c <= '9' }

  predicate AllDigits(s: string) { forall i :: 0 <= i < |s| ==> IsDigit(s[i]) }

  /** The number a string of decimal digits spells. */
  function DecimalValue(s: string): nat
    requires AllDigits(s)
  {
    if |s| == 0 then 0 else DecimalValue(s[..|s| - 1]) * 10 + (s[|s| - 1] as int - '0' as int)
  }

  lemma {:induction false} DecimalConcat(x: string, y: string)
    requires AllDigits(x) && AllDigits(y)
    ensures AllDigits(x + y)
    ensures DecimalValue(x + y) == DecimalValue(x) * Pow10(|y|) + DecimalValue(y)
    decreases |y|
  {
    assert AllDigits(x + y);
    if |y| == 0 {
      assert x + y == x;
    } else {
      var y' := y[..|y| - 1];
      var d := y[|y| - 1] as int - '0' as int;
      assert (x + y)[..|x + y| - 1] == x + y';
      assert (x + y)[|x + y| - 1] == y[|y| - 1];
      DecimalConcat(x, y');
      var vx := DecimalValue(x);
      var p := Pow10(|y'|);
      assert DecimalValue(x + y) == (vx * p + DecimalValue(y')) * 10 + d;
      assert DecimalValue(y) == DecimalValue(y') * 10 + d;
      assert Pow10(|y|) == 10 * p;
      assert (vx * p) * 10 == vx * (10 * p) by { MulShuffle(10, vx, p); }
    }
  }

  lemma {:induction false} DecimalBound(s: string)
    requires AllDigits(s)
    ensures DecimalValue(s) < Pow10(|s|)
    decreases |s|
  {
    if |s| > 0 {
      DecimalBound(s[..|s| - 1]);
    }
  }

  lemma {:induction false} PowIsPow10(k: nat)
    ensures Pow(k) == Pow10(9 * k)
    decreases k
  {
    if k > 0 {
      PowIsPow10(k - 1);
      Pow10Add(9, 9 * (k - 1));
      assert Pow10(9) == BASE;
    }
  }

  lemma {:induction false} Pow10Add(i: nat, j: nat)
    ensures Pow10(i + j) == Pow10(i) * Pow10(j)
    decreases i
  {
    if i > 0 {
      var a := Pow10(i - 1);
      var b := Pow10(j);
      Pow10Add(i - 1, j);
      assert Pow10(i + j) == 10 * (a * b);
      assert Pow10(i) == 10 * a;
      MulShuffle(10, a, b);
      MulShuffle(a, 10, b);
    }
  }

  /**
   * The chunk loop of `from_string`: the 9-digit chunks of `body`, read from
   * the right, one limb each, least significant first.
   */
  method ChunkLimbs(body: string) returns (chunks: seq<nat>)
    requires |body| > 0 && AllDigits(body)
    ensures |chunks| >= 1 && LimbsOk(chunks)
    ensures Mag(chunks) == DecimalValue(body)
  {
    chunks := [];
    var end := |body|;
    while end > 0
      invariant 0 <= end <= |body| && LimbsOk(chunks)
      invariant end < |body| ==> |chunks| >= 1
      invariant end > 0 ==> |body| - end == 9 * |chunks|
      invariant Mag(chunks) == DecimalValue(body[end..])
      decreases end
    {
      var start := if end >= 9 then end - 9 else 0;
      assert AllDigits(body[start..end]);
      var chunkValue := DecimalValue(body[start..end]);
      PushChunk(chunks, body, start, end);
      chunks := chunks + [chunkValue];
      end := start;
    }
    assert body[0..] == body;
  }

  /**
   * `from_string` as written: optional '-', then at least one ASCII digit.
   * The chunks are pushed after the single zero limb of `BigInt::new()`, so
   * the value stored is the decimal number times 10^9.
   */
  method FromString(s: string) returns (r: Result<BigInt, string>)
    ensures s == "" ==> r == Err("Empty string")
    ensures s != "" && !ValidNumeral(s) ==> r == Err("Invalid number format")
    ensures ValidNumeral(s) ==> r == Ok(FromInt(NumeralValue(s) * BASE))
  {
    if s == "" {
      return Err("Empty string");
    }
    var negative := s[0] == '-';
    var body := if negative then s[1..] else s;
    if body == "" || !AllDigits(body) {
      return Err("Invalid number format");
    }
    var chunks := ChunkLimbs(body);
    var digits := New().digits + chunks;
    var result := BigInt(digits, negative && !IsZero(BigInt(digits, false)));
    assert Value(result) == NumeralValue(s) * BASE by {
      var v := DecimalValue(body);
      assert digits[1..] == chunks;
      assert Mag(digits) == BASE * v;
      assert NumeralValue(s) == if negative then -(v as int) else v;
    }
    result := Normalize(result);
    r := Ok(result);
  }

  /**
   * `from_string` as evidently intended: the same checks and chunk loop, but
   * starting from an empty limb list, so the value is the numeral's own.
   */
  method FromStringFixed(s: string) returns (r: Result<BigInt, string>)
    ensures s == "" ==> r == Err("Empty string")
    ensures s != "" && !ValidNumeral(s) ==> r == Err("Invalid number format")
    ensures ValidNumeral(s) ==> r == Ok(FromInt(NumeralValue(s)))
  {
    if s == "" {
      return Err("Empty string");
    }
    var negative := s[0] == '-';
    var body := if negative then s[1..] else s;
    if body == "" || !AllDigits(body) {
      return Err("Invalid number format");
    }
    var digits := ChunkLimbs(body);
    var result := BigInt(digits, negative && !IsZero(BigInt(digits, false)));
    assert Value(result) == NumeralValue(s) by {
      var v := DecimalValue(body);
      assert NumeralValue(s) == if negative then -(v as int) else v;
      if IsZero(BigInt(digits, false)) {
        assert digits == [0] && Mag([0]) == 0 by { assert [0][1..] == []; }
      }
    }
    result := Normalize(result);
    r := Ok(result);
  }

  /** Pushing the next chunk (read from the right) extends the decimal suffix the limbs hold. */
  lemma PushChunk(digits: seq<nat>, body: string, start: nat, end: nat)
    requires AllDigits(body) && start <= end <= |body| && end - start <= 9
    requires |body| - end == 9 * |digits|
    requires Mag(digits) == DecimalValue(body[end..])
    ensures DecimalValue(body[start..end]) < BASE
    ensures Mag(digits + [DecimalValue(body[start..end])]) == DecimalValue(body[start..])
  {
    var chunk := body[start..end];
    var tail := body[end..];
    var c := DecimalValue(chunk);
    assert c < BASE by {
      DecimalBound(chunk);
      Pow10Monotone(|chunk|, 9);
      assert Pow10(9) == BASE;
    }
    var q := Pow10(|tail|);
    assert DecimalValue(body[start..]) == c * q + DecimalValue(tail) by {
      assert body[start..] == chunk + tail;
      DecimalConcat(chunk, tail);
    }
    assert Pow(|digits|) == q by { PowIsPow10(|digits|); }
    MagAppend(digits, c);
  }

  lemma {:induction false} Pow10Monotone(i: nat, j: nat)
    requires i <= j
    ensures Pow10(i) <= Pow10(j)
    decreases j
  {
    if i < j {
      Pow10Monotone(i, j - 1);
    }
  }

  /** A numeral `from_string` accepts: an optional '-' and at least one digit. */
  predicate ValidNumeral(s: string)
  {
    var body := if |s| > 0 && s[0] == '-' then s[1..] else s;
    |body| > 0 && AllDigits(body)
  }

  /** The integer a valid numeral spells. */
  function NumeralValue(s: string): int
    requires ValidNumeral(s)
  {
    if s[0] == '-' then -(DecimalValue(s[1..]) as int) else DecimalValue(s)
  }

  // ---------------------------------------------------------------------
  // The leading zero limb of from_string
  // ---------------------------------------------------------------------

  /** For every nonzero numeral, the as-written parser stores a different number than the numeral spells. */
  lemma FromStringMisreads(s: string)
    requires ValidNumeral(s) && NumeralValue(s) != 0
    ensures FromInt(NumeralValue(s) * BASE) != FromInt(NumeralValue(s))
    ensures Value(FromInt(NumeralValue(s) * BASE)) == NumeralValue(s) * BASE
  {
    FromIntCorrect(NumeralValue(s) * BASE);
    FromIntCorrect(NumeralValue(s));
  }

  /** The numeral "5" comes back from the as-written parser as five billion. */
  lemma FromStringFiveExample()
    ensures ValidNumeral("5") && NumeralValue("5") == 5
    ensures Display(FromInt(NumeralValue("5") * BASE)) == "5000000000"
  {
    assert "5"[..0] == "";
    assert NumeralValue("5") == 5;
    assert Limbs(5) == [5] by { assert Limbs(0) == []; }
    assert Limbs(5 * BASE) == [0, 5];
    assert [0, 5][1..] == [5];
    assert PadDigits(0, 9) == "000000000";
    assert LimbsText([5]) == "5";
    assert LimbsText([0, 5]) == "5" + "000000000";
    assert FromInt(5 * BASE) == BigInt([0, 5], false);
  }

  /** The decimal text of an integer is a numeral that spells it. */
  lemma {:induction false} NatToStringParses(n: nat)
    ensures AllDigits(NatToString(n)) && DecimalValue(NatToString(n)) == n
    decreases n
  {
    var t := NatToString(n);
    if n >= 10 {
      NatToStringParses(n / 10);
      assert t[..|t| - 1] == NatToString(n / 10);
    }
  }

  lemma {:induction false} NatToStringFirst(n: nat)
    ensures IsDigit(NatToString(n)[0])
    decreases n
  {
    if n >= 10 {
      NatToStringFirst(n / 10);
    }
  }

  /** The decimal text of any integer is a numeral that spells it back. */
  lemma IntToStringRoundTrip(v: int)
    ensures ValidNumeral(IntToString(v)) && NumeralValue(IntToString(v)) == v
  {
    var t := IntToString(v);
    if v < 0 {
      var m: nat := -v;
      var u := NatToString(m);
      assert t == "-" + u;
      assert t[1..] == u;
      NatToStringParses(m);
    } else {
      NatToStringParses(v);
      assert t[0] != '-' by { NatToStringFirst(v); }
    }
  }

  /** With the corrected parser, displaying a normalized BigInt and parsing the text gives it back. */
  lemma DisplayRoundTrip(b: BigInt)
    requires Normalized(b)
    ensures ValidNumeral(Display(b)) && FromInt(NumeralValue(Display(b))) == b
  {
    var v := Value(b);
    var t := Display(b);
    assert t == IntToString(v) by { DisplayIsDecimal(b); }
    assert ValidNumeral(t) && NumeralValue(t) == v by { IntToStringRoundTrip(v); }
    FromIntOfValue(b);
  }
}
