/** Shared vocabulary: optional values, fallible results, dimensions, the order of identifiers and powers of two. */
module Basics {
  datatype Option<+T> = None | Some(value: T)

  datatype Result<+T, +E> = Ok(value: T) | Err(error: E)

  datatype Dimension = Overworld | Nether | End

  /** Strict lexicographic order on identifiers. */
  predicate StringLess(a: string, b: string)
    decreases |a|
  {
    |b| > 0 && (|a| == 0 || a[0] < b[0] || (a[0] == b[0] && StringLess(a[1..], b[1..])))
  }

  lemma {:induction false} StringLessIrreflexive(a: string)
    ensures !StringLess(a, a)
    decreases |a|
  {
    if |a| > 0 { StringLessIrreflexive(a[1..]); }
  }

  lemma {:induction false} StringLessTransitive(a: string, b: string, c: string)
    requires StringLess(a, b) && StringLess(b, c)
    ensures StringLess(a, c)
    decreases |a|
  {
    if |a| > 0 && a[0] == b[0] == c[0] {
      StringLessTransitive(a[1..], b[1..], c[1..]);
    }
  }

  lemma {:induction false} StringLessTotal(a: string, b: string)
    ensures StringLess(a, b) || StringLess(b, a) || a == b
    decreases |a|
  {
    if |a| > 0 && |b| > 0 && a[0] == b[0] {
      StringLessTotal(a[1..], b[1..]);
      assert a == [a[0]] + a[1..] && b == [b[0]] + b[1..];
    }
  }

  const MAX_SAFE_INTEGER := 9_007_199_254_740_991

  predicate SafeInteger(n: int) { -MAX_SAFE_INTEGER <= n <= MAX_SAFE_INTEGER }

  function Power2(n: nat): int { if n == 0 then 1 else 2 * Power2(n - 1) }

  lemma {:induction false} PowerPositive(n: nat)
    ensures Power2(n) >= 1
  {
    if n > 0 { PowerPositive(n - 1); }
  }

  function Min(a: int, b: int): int { if a < b then a else b }

  /** How often x stands in s. */
  function Count<T(==)>(s: seq<T>, x: T): nat {
    if s == [] then 0
    else Count(s[..|s| - 1], x) + if s[|s| - 1] == x then 1 else 0
  }

  lemma {:induction false} CountedIsIn<T>(s: seq<T>, x: T)
    ensures Count(s, x) > 0 <==> x in s
  {
    if s != [] {
      CountedIsIn(s[..|s| - 1], x);
      assert s == s[..|s| - 1] + [s[|s| - 1]];
    }
  }

  lemma CountAppend<T>(s: seq<T>, e: T, x: T)
    ensures Count(s + [e], x) == Count(s, x) + if e == x then 1 else 0
  {
    assert (s + [e])[..|s|] == s;
  }
}
