/** Shared vocabulary for the dashboard model: optional values, the string
    operations the components use (ASCII lower-casing, substring search),
    array-method analogues (`filter`, `slice`, `reduce` summation) and the
    result of a JavaScript division, which may be infinite or NaN. */
module Common {

  datatype Option<+T> = None | Some(value: T)

  // ---------------------------------------------------------------------
  // Strings

  /** `toLowerCase` on one character (ASCII letters only). */
  function LowerChar(c: char): (r: char)
    ensures 'A' <= c <= 'Z' ==> r as int == c as int + 32
    ensures !('A' <= c <= 'Z') ==> r == c
    ensures !('A' <= r <= 'Z')
  {
    if 'A' <= c <= 'Z' then (c as int + 32) as char else c
  }

  /** `toLowerCase` on a string (ASCII letters only). */
  function Lower(s: string): (r: string)
    ensures |r| == |s|
    ensures forall i :: 0 <= i < |s| ==> r[i] == LowerChar(s[i])
  {
    seq(|s|, i requires 0 <= i < |s| => LowerChar(s[i]))
  }

  lemma LowerIdempotent(s: string)
    ensures Lower(Lower(s)) == Lower(s)
  {
  }

  /** `hay.includes(needle)`: needle occurs in hay at some offset. */
  predicate Contains(hay: string, needle: string)
  {
    exists i :: 0 <= i <= |hay| && OccursAt(hay, needle, i)
  }

  predicate OccursAt(hay: string, needle: string, i: int)
  {
    0 <= i <= |hay| - |needle| && hay[i..i + |needle|] == needle
  }

  /** Every string includes the empty string. */
  lemma ContainsEmpty(hay: string)
    ensures Contains(hay, "")
  {
    assert OccursAt(hay, "", 0);
  }

  // ---------------------------------------------------------------------
  // Array methods on sequences

  /** `s.filter(p)`. */
  function Filter<T>(s: seq<T>, p: T -> bool): (r: seq<T>)
    ensures |r| <= |s|
    ensures forall x :: x in r ==> x in s && p(x)
    decreases |s|
  {
    if |s| == 0 then []
    else if p(s[0]) then [s[0]] + Filter(s[1..], p)
    else Filter(s[1..], p)
  }

  /** `a` is obtained from `b` by deleting elements: order is kept, nothing added. */
  predicate IsSubsequence<T(==)>(a: seq<T>, b: seq<T>)
    decreases |b|
  {
    if |a| == 0 then true
    else if |b| == 0 then false
    else (a[0] == b[0] && IsSubsequence(a[1..], b[1..])) || IsSubsequence(a, b[1..])
  }

  lemma {:induction false} FilterIsSubsequence<T>(s: seq<T>, p: T -> bool)
    ensures IsSubsequence(Filter(s, p), s)
    decreases |s|
  {
    if |s| > 0 {
      FilterIsSubsequence(s[1..], p);
    }
  }

  /** Membership in a filter result is membership in the input plus the predicate. */
  lemma {:induction false} FilterMembership<T>(s: seq<T>, p: T -> bool, x: T)
    ensures x in Filter(s, p) <==> x in s && p(x)
    decreases |s|
  {
    if |s| > 0 {
      FilterMembership(s[1..], p, x);
      assert s == [s[0]] + s[1..];
    }
  }

  /** Every element that satisfies the predicate is kept. */
  lemma {:induction false} FilterKeepsAll<T>(s: seq<T>, p: T -> bool)
    requires forall x :: x in s ==> p(x)
    ensures Filter(s, p) == s
    decreases |s|
  {
    if |s| > 0 {
      assert forall x :: x in s[1..] ==> x in s;
      FilterKeepsAll(s[1..], p);
      assert s == [s[0]] + s[1..];
    }
  }

  /** Filtering twice with the same predicate changes nothing the second time. */
  lemma FilterIdempotent<T>(s: seq<T>, p: T -> bool)
    ensures Filter(Filter(s, p), p) == Filter(s, p)
  {
    FilterKeepsAll(Filter(s, p), p);
  }

  /** Two successive filters equal one filter by the conjunction. */
  lemma {:induction false} FilterFilter<T>(s: seq<T>, p: T -> bool, q: T -> bool, pq: T -> bool)
    requires forall x :: pq(x) == (p(x) && q(x))
    ensures Filter(Filter(s, p), q) == Filter(s, pq)
    decreases |s|
  {
    if |s| > 0 {
      FilterFilter(s[1..], p, q, pq);
    }
  }

  /** Filters by predicates that agree on the input give the same result. */
  lemma {:induction false} FilterCongruent<T>(s: seq<T>, p: T -> bool, q: T -> bool)
    requires forall x :: x in s ==> p(x) == q(x)
    ensures Filter(s, p) == Filter(s, q)
    decreases |s|
  {
    if |s| > 0 {
      assert forall x :: x in s[1..] ==> x in s;
      FilterCongruent(s[1..], p, q);
    }
  }

  lemma {:induction false} FilterAppend<T>(a: seq<T>, b: seq<T>, p: T -> bool)
    ensures Filter(a + b, p) == Filter(a, p) + Filter(b, p)
    decreases |a|
  {
    if |a| > 0 {
      FilterAppend(a[1..], b, p);
      assert (a + b)[1..] == a[1..] + b;
    } else {
      assert a + b == b;
    }
  }

  /** JavaScript `s.slice(0, end)`: a negative end counts back from the length. */
  function SliceTo<T>(s: seq<T>, end: int): (r: seq<T>)
    ensures end >= 0 ==> r == s[..if end < |s| then end else |s|]
    ensures end < 0 ==> r == s[..if |s| + end > 0 then |s| + end else 0]
  {
    if end >= 0 then s[..if end < |s| then end else |s|]
    else s[..if |s| + end > 0 then |s| + end else 0]
  }

  /** Number of elements satisfying a predicate (`s.filter(p).length`). */
  function Count<T>(s: seq<T>, p: T -> bool): (n: nat)
    ensures n <= |s|
  {
    |Filter(s, p)|
  }

  // ---------------------------------------------------------------------
  // Summation (`reduce((sum, x) => sum + f(x), 0)`)

  /** Left fold of `+` over `f` applied to each element, starting from 0. */
  function Sum<T>(s: seq<T>, f: T -> real): real
    decreases |s|
  {
    if |s| == 0 then 0.0 else Sum(s[..|s| - 1], f) + f(s[|s| - 1])
  }

  lemma {:induction false} SumAppend<T>(a: seq<T>, b: seq<T>, f: T -> real)
    ensures Sum(a + b, f) == Sum(a, f) + Sum(b, f)
    decreases |b|
  {
    if |b| == 0 {
      assert a + b == a;
    } else {
      SumAppend(a, b[..|b| - 1], f);
      assert (a + b)[..|a + b| - 1] == a + b[..|b| - 1];
    }
  }

  /** Replacing one element changes the sum by the difference of the two summands. */
  lemma {:induction false} SumUpdate<T>(s: seq<T>, j: int, y: T, f: T -> real)
    requires 0 <= j < |s|
    ensures Sum(s[j := y], f) == Sum(s, f) - f(s[j]) + f(y)
    decreases |s|
  {
    var n := |s| - 1;
    if j == n {
      assert s[j := y][..n] == s[..n];
    } else {
      SumUpdate(s[..n], j, y, f);
      assert s[j := y][..n] == s[..n][j := y];
    }
  }

  /** A summand that is pointwise no larger gives a sum that is no larger. */
  lemma {:induction false} SumMonotone<T>(s: seq<T>, f: T -> real, g: T -> real)
    requires forall x :: x in s ==> f(x) <= g(x)
    ensures Sum(s, f) <= Sum(s, g)
    decreases |s|
  {
    if |s| > 0 {
      SumMonotone(s[..|s| - 1], f, g);
    }
  }

  /** Summing from the front gives the same value as the left fold. */
  lemma SumCons<T>(s: seq<T>, f: T -> real)
    requires |s| > 0
    ensures Sum(s, f) == f(s[0]) + Sum(s[1..], f)
  {
    SumAppend([s[0]], s[1..], f);
    assert [s[0]] + s[1..] == s;
    assert [s[0]][..0] == [];
  }

  lemma {:induction false} SumNonNegative<T>(s: seq<T>, f: T -> real)
    requires forall x :: x in s ==> f(x) >= 0.0
    ensures Sum(s, f) >= 0.0
    decreases |s|
  {
    if |s| > 0 {
      assert forall x :: x in s[..|s| - 1] ==> x in s;
      SumNonNegative(s[..|s| - 1], f);
    }
  }

  /** Sums of pointwise-equal summands are equal. */
  lemma {:induction false} SumCongruent<T>(s: seq<T>, f: T -> real, g: T -> real)
    requires forall x :: x in s ==> f(x) == g(x)
    ensures Sum(s, f) == Sum(s, g)
    decreases |s|
  {
    if |s| > 0 {
      assert forall x :: x in s[..|s| - 1] ==> x in s;
      SumCongruent(s[..|s| - 1], f, g);
    }
  }

  /** The sum of pointwise differences is the difference of the sums. */
  lemma {:induction false} SumDifference<T>(s: seq<T>, f: T -> real, g: T -> real, h: T -> real)
    requires forall x :: h(x) == f(x) - g(x)
    ensures Sum(s, h) == Sum(s, f) - Sum(s, g)
    decreases |s|
  {
    if |s| > 0 {
      SumDifference(s[..|s| - 1], f, g, h);
    }
  }

  /** The sum of pointwise sums is the sum of the sums. */
  lemma {:induction false} SumAddition<T>(s: seq<T>, f: T -> real, g: T -> real, h: T -> real)
    requires forall x :: h(x) == f(x) + g(x)
    ensures Sum(s, h) == Sum(s, f) + Sum(s, g)
    decreases |s|
  {
    if |s| > 0 {
      SumAddition(s[..|s| - 1], f, g, h);
    }
  }

  /** A constant factor moves out of the sum. */
  lemma {:induction false} SumScale<T>(s: seq<T>, f: T -> real, c: real, h: T -> real)
    requires forall x :: h(x) == c * f(x)
    ensures Sum(s, h) == c * Sum(s, f)
    decreases |s|
  {
    if |s| > 0 {
      SumScale(s[..|s| - 1], f, c, h);
    }
  }

  /** Summing over a filter result is summing the summand guarded by the predicate. */
  lemma {:induction false} SumFilter<T>(s: seq<T>, p: T -> bool, f: T -> real, g: T -> real)
    requires forall x :: g(x) == (if p(x) then f(x) else 0.0)
    ensures Sum(Filter(s, p), f) == Sum(s, g)
    decreases |s|
  {
    if |s| > 0 {
      SumFilter(s[1..], p, f, g);
      SumCons(s, g);
      if p(s[0]) {
        SumCons(Filter(s, p), f);
        assert Filter(s, p)[1..] == Filter(s[1..], p);
      }
    }
  }

  /** Sums are invariant under permutation of the elements. */
  lemma {:induction false} SumPermutation<T>(a: seq<T>, b: seq<T>, f: T -> real)
    requires multiset(a) == multiset(b)
    ensures Sum(a, f) == Sum(b, f)
    decreases |a|
  {
    if |a| == 0 {
      assert |b| == |multiset(b)| == 0;
    } else {
      var x := a[0];
      assert x in multiset(b);
      var k :| 0 <= k < |b| && b[k] == x;
      var rest := b[..k] + b[k + 1..];
      assert b == b[..k] + [x] + b[k + 1..];
      assert a == [x] + a[1..];
      assert multiset(a[1..]) == multiset(rest) by {
        calc {
          multiset(a[1..]);
          multiset(a) - multiset{x};
          multiset(b) - multiset{x};
          multiset(b[..k]) + multiset(b[k + 1..]);
          multiset(rest);
        }
      }
      SumPermutation(a[1..], rest, f);
      SumCons(a, f);
      SumRemoveAt(b, k, f);
    }
  }

  /** Taking out the element at `k` takes its value out of the sum. */
  lemma SumRemoveAt<T>(b: seq<T>, k: nat, f: T -> real)
    requires k < |b|
    ensures Sum(b, f) == Sum(b[..k] + b[k + 1..], f) + f(b[k])
  {
    var left, upTo, right := b[..k], b[..k + 1], b[k + 1..];
    assert b == upTo + right;
    assert upTo[..|upTo| - 1] == left;
    assert Sum(upTo, f) == Sum(left, f) + f(b[k]);
    SumAppend(upTo, right, f);
    SumAppend(left, right, f);
  }

  // ---------------------------------------------------------------------
  // JavaScript numbers produced by division

  /** A JavaScript number as it comes out of a division: a finite value,
      one of the two infinities, or NaN. (Signed zero is not modelled.) */
  datatype Num = Fin(v: real) | PosInf | NegInf | NaN

  /** `a / b` in JavaScript: division by zero gives an infinity, `0 / 0` NaN. */
  function Div(a: real, b: real): (r: Num)
    ensures b != 0.0 ==> r == Fin(a / b)
    ensures b == 0.0 ==> (r == PosInf <==> a > 0.0) && (r == NegInf <==> a < 0.0) && (r == NaN <==> a == 0.0)
  {
    if b != 0.0 then Fin(a / b)
    else if a > 0.0 then PosInf
    else if a < 0.0 then NegInf
    else NaN
  }

  /** `x * c`: an infinity times zero is NaN. */
  function Mul(x: Num, c: real): (r: Num)
    ensures x.Fin? ==> r == Fin(x.v * c)
    ensures x.NaN? ==> r.NaN?
  {
    if x.Fin? then Fin(x.v * c)
    else if x.NaN? || c == 0.0 then NaN
    else if (x.PosInf?) == (c > 0.0) then PosInf
    else NegInf
  }

  /** `x + c` for a finite `c`. */
  function Add(x: Num, c: real): (r: Num)
    ensures x.Fin? ==> r == Fin(x.v + c)
    ensures !x.Fin? ==> r == x
  {
    match x
    case Fin(v) => Fin(v + c)
    case _ => x
  }

  /** `a / b * 100`, the percentage expression used throughout the dashboard. */
  function Percent(a: real, b: real): (r: Num)
    ensures b != 0.0 ==> r == Fin(a / b * 100.0)
    ensures b == 0.0 ==> (r == PosInf <==> a > 0.0) && (r == NaN <==> a == 0.0)
  {
    Mul(Div(a, b), 100.0)
  }

  /** `x > c`; every comparison with NaN is false. */
  predicate Gt(x: Num, c: real)
  {
    match x
    case Fin(v) => v > c
    case PosInf => true
    case NegInf => false
    case NaN => false
  }

  /** `x >= c`. */
  predicate Ge(x: Num, c: real)
  {
    match x
    case Fin(v) => v >= c
    case PosInf => true
    case NegInf => false
    case NaN => false
  }

  /** `x < c`. */
  predicate Lt(x: Num, c: real)
  {
    match x
    case Fin(v) => v < c
    case PosInf => false
    case NegInf => true
    case NaN => false
  }

  /** `Math.min(x, c)`: NaN wins, an infinity loses to any finite bound from above. */
  function Min(x: Num, c: real): (r: Num)
    ensures !Gt(r, c)
    ensures x.NaN? <==> r.NaN?
    ensures x.Fin? ==> r == Fin(MinReal(x.v, c))
  {
    match x
    case Fin(v) => Fin(if v < c then v else c)
    case PosInf => Fin(c)
    case NegInf => NegInf
    case NaN => NaN
  }

  function MinReal(a: real, b: real): (r: real)
    ensures r <= a && r <= b && (r == a || r == b)
  {
    if a < b then a else b
  }

  function Abs(x: real): (r: real)
    ensures r >= 0.0 && (r == x || r == -x)
  {
    if x < 0.0 then -x else x
  }
}
