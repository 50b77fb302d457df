/**
 * The reference functions of benchmark.py: Fibonacci by recursion and by
 * iteration, trial-division primality, and the sum of 1..limit. Python
 * integers are unbounded, as Dafny's are.
 */
module Benchmark {

  /** `fibonacci`: n itself for n <= 1 (negative n included), else the sum of the two before. */
  function Fibonacci(n: int): (r: int)
    ensures n <= 1 ==> r == n
    ensures n >= 0 ==> r >= 0
    decreases if n <= 1 then 0 else n
  {
    if n <= 1 then n else Fibonacci(n - 1) + Fibonacci(n - 2)
  }

  /** From the third term on, Fibonacci numbers never decrease and are positive. */
  lemma {:induction false} FibonacciGrows(n: int)
    requires n >= 1
    ensures 1 <= Fibonacci(n) <= Fibonacci(n + 1)
    decreases n
  {
    if n > 2 {
      FibonacciGrows(n - 1);
    }
  }

  /** `fibonacci_iter`: the pair (a, b) walks up the sequence; the result is always `fibonacci(n)`. */
  method FibonacciIter(n: int) returns (r: int)
    ensures r == Fibonacci(n)
  {
    if n <= 1 {
      return n;
    }
    var a, b, i := 0, 1, 2;
    while i <= n
      invariant 2 <= i <= n + 1
      invariant a == Fibonacci(i - 2) && b == Fibonacci(i - 1)
      decreases n - i
    {
      a, b := b, a + b;
      i := i + 1;
    }
    return b;
  }

  /** Primality by definition: greater than 1 and with no divisor between 2 and n - 1. */
  predicate IsPrime(n: int)
  {
    n > 1 && forall d :: 2 <= d < n ==> n % d != 0
  }

  /** A divisor d of n with i <= d and i * i > n has its co-divisor n / d between 2 and i - 1. */
  lemma CoDivisor(n: int, d: int, i: int)
    requires 2 <= i <= d < n && i * i > n && n % d == 0
    ensures 2 <= n / d < i && n % (n / d) == 0
  {
    var q := n / d;
    ExactQuotient(n, d);
    ScaleBound(i, d, i);
    LessProduct(d, q, i);
    LessProduct(d, 1, q);
    Commute(d, q);
    MultipleMod(q, d);
  }

  /** A divisor times its quotient gives the number back. */
  lemma ExactQuotient(n: int, d: int)
    requires d > 0 && n % d == 0
    ensures n == d * (n / d)
  {
  }

  /** Multiplying by a non-negative factor keeps an order. */
  lemma ScaleBound(c: int, a: int, b: int)
    requires c >= 0 && b <= a
    ensures c * b <= c * a && b * c <= a * c
  {
  }

  lemma Commute(a: int, b: int)
    ensures a * b == b * a
  {
  }

  /** Cancelling a positive factor keeps a strict order. */
  lemma LessProduct(d: int, a: int, b: int)
    requires d > 0 && d * a < d * b
    ensures a < b
  {
  }

  /** Between 0 and m, the only multiple of m is 0. */
  lemma OnlyZeroMultiple(m: int, t: int)
    requires m > 0 && 0 <= m * t < m
    ensures t == 0
  {
  }

  /** A positive factor divides its product. */
  lemma MultipleMod(m: int, k: int)
    requires m > 0
    ensures (m * k) % m == 0
  {
    var x := m * k;
    var t := k - x / m;
    assert x == m * (x / m) + x % m;
    assert m * t == x % m;
    OnlyZeroMultiple(m, t);
  }

  /**
   * `is_prime`: small cases first, then odd trial divisors while their
   * square is at most n. The answer is exact: true exactly for primes.
   */
  method IsPrimeTrial(n: int) returns (r: bool)
    ensures r <==> IsPrime(n)
  {
    if n <= 1 {
      return false;
    }
    if n <= 3 {
      return true;
    }
    if n % 2 == 0 {
      assert n % 2 == 0;
      return false;
    }
    var i := 3;
    while i * i <= n
      invariant 3 <= i && i % 2 == 1
      invariant forall d :: 2 <= d < i ==> n % d != 0
      decreases n - i
    {
      if n % i == 0 {
        return false;
      }
      assert forall d :: 2 <= d < i + 2 ==> n % d != 0 by {
        forall d | 2 <= d < i + 2
          ensures n % d != 0
        {
          if d == i + 1 {
            EvenDoesNotDivideOdd(n, d);
          }
        }
      }
      i := i + 2;
    }
    forall d | i <= d < n
      ensures n % d != 0
    {
      if n % d == 0 {
        CoDivisor(n, d, i);
      }
    }
    return true;
  }

  /** An even number does not divide an odd one. */
  lemma EvenDoesNotDivideOdd(n: int, d: int)
    requires n % 2 == 1 && d >= 2 && d % 2 == 0
    ensures n % d != 0
  {
    var q, r := n / d, n % d;
    assert n == d * q + r;
    assert d * q == 2 * ((d / 2) * q);
    assert r % 2 == 1;
  }

  /** `sum(range(lo, hi))`: the integers from lo up to hi - 1. */
  function SumRange(lo: int, hi: int): (s: int)
    decreases hi - lo
  {
    if hi <= lo then 0 else SumRange(lo, hi - 1) + (hi - 1)
  }

  /** `sum_numbers`: the sum of 1..limit. */
  function SumNumbers(limit: int): (s: int)
    ensures limit <= 0 ==> s == 0
  {
    SumRange(1, limit + 1)
  }

  /** Gauss's formula: the sum of 1..limit is limit * (limit + 1) / 2. */
  lemma {:induction false} SumNumbersClosedForm(limit: nat)
    ensures SumNumbers(limit) == limit * (limit + 1) / 2
  {
    if limit > 0 {
      SumNumbersClosedForm(limit - 1);
      assert SumNumbers(limit) == SumNumbers(limit - 1) + limit;
      assert (limit - 1) * limit + 2 * limit == limit * (limit + 1);
    }
  }
}
