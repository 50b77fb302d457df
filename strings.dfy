/**
 * The order of Rust `String::cmp` on text (lexicographic by character code,
 * which for UTF-8 agrees with byte order), and the keys of a map listed in that
 * order. Hash maps iterate in an unspecified order; wherever FlowLang prints or
 * lists map keys this model uses the sorted order, which is one of the orders
 * the source may produce.
 */
module Strings {
  import opened BigNum

  function CompareStrings(a: string, b: string): (o: Ordering)
    ensures o == Equal <==> a == b
  {
    if |a| == 0 && |b| == 0 then Equal
    else if |a| == 0 then Less
    else if |b| == 0 then Greater
    else if a[0] < b[0] then Less
    else if a[0] > b[0] then Greater
    else
      var o := CompareStrings(a[1..], b[1..]);
      assert o == Equal ==> a == [a[0]] + a[1..] == [b[0]] + b[1..] == b;
      o
  }

  predicate StrLess(a: string, b: string) { CompareStrings(a, b) == Less }

  function Flip(o: Ordering): Ordering
  {
    match o
    case Less => Greater
    case Equal => Equal
    case Greater => Less
  }

  /** Swapping the arguments flips the answer. */
  lemma {:induction false} CompareStringsFlip(a: string, b: string)
    ensures CompareStrings(b, a) == Flip(CompareStrings(a, b))
    decreases |a|
  {
    if |a| > 0 && |b| > 0 && a[0] == b[0] {
      CompareStringsFlip(a[1..], b[1..]);
    }
  }

  /** The order is transitive. */
  lemma {:induction false} StrLessTransitive(a: string, b: string, c: string)
    requires StrLess(a, b) && StrLess(b, c)
    ensures StrLess(a, c)
    decreases |a|
  {
    if |a| > 0 && |b| > 0 && |c| > 0 && a[0] == b[0] && b[0] == c[0] {
      StrLessTransitive(a[1..], b[1..], c[1..]);
    }
  }

  /** Of two different strings, exactly one is the smaller. */
  lemma StrLessTotal(a: string, b: string)
    ensures a != b ==> (StrLess(a, b) <==> !StrLess(b, a))
    ensures !StrLess(a, a)
  {
    CompareStringsFlip(a, b);
  }

  /** A nonempty finite set of strings has a least element. */
  lemma {:induction false} LeastExists(s: set<string>)
    requires s != {}
    ensures exists k :: IsLeast(s, k)
    decreases |s|
  {
    var x :| x in s;
    var rest := s - {x};
    if rest == {} {
      assert s == {x};
      assert IsLeast(s, x);
    } else {
      LeastExists(rest);
      var m :| IsLeast(rest, m);
      if StrLess(x, m) {
        forall j | j in s && j != x
          ensures StrLess(x, j)
        {
          if j != m {
            StrLessTransitive(x, m, j);
          }
        }
        assert IsLeast(s, x);
      } else {
        StrLessTotal(x, m);
        assert IsLeast(s, m);
      }
    }
  }

  predicate IsLeast(s: set<string>, k: string)
  {
    k in s && forall j :: j in s && j != k ==> StrLess(k, j)
  }

  /** The least element is unique. */
  lemma LeastUnique(s: set<string>)
    ensures forall k1, k2 :: IsLeast(s, k1) && IsLeast(s, k2) ==> k1 == k2
  {
    forall k1, k2 | IsLeast(s, k1) && IsLeast(s, k2)
      ensures k1 == k2
    {
      if k1 != k2 {
        StrLessTotal(k1, k2);
      }
    }
  }

  predicate StrictlySorted(r: seq<string>)
  {
    forall i, j :: 0 <= i < j < |r| ==> StrLess(r[i], r[j])
  }

  lemma ConsSorted(k: string, rest: seq<string>)
    requires StrictlySorted(rest)
    requires forall i :: 0 <= i < |rest| ==> StrLess(k, rest[i])
    ensures StrictlySorted([k] + rest)
  {
    var r := [k] + rest;
    forall i, j | 0 <= i < j < |r|
      ensures StrLess(r[i], r[j])
    {
      if i > 0 {
        assert r[i] == rest[i - 1] && r[j] == rest[j - 1];
      } else {
        assert r[j] == rest[j - 1];
      }
    }
  }

  /** The elements of a set of strings in increasing order, each once. */
  function SortedStrings(s: set<string>): (r: seq<string>)
    ensures |r| == |s|
    ensures forall x :: x in r <==> x in s
    ensures StrictlySorted(r)
    decreases |s|
  {
    if s == {} then []
    else
      LeastExists(s);
      LeastUnique(s);
      var k :| IsLeast(s, k);
      var rest := SortedStrings(s - {k});
      assert forall i :: 0 <= i < |rest| ==> StrLess(k, rest[i]) by {
        forall i | 0 <= i < |rest|
          ensures StrLess(k, rest[i])
        {
          assert rest[i] in s - {k};
        }
      }
      ConsSorted(k, rest);
      [k] + rest
  }
}
