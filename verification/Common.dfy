/** Small vocabulary shared by every module: optional values, exact-real helpers, sums. */
module Common {

  datatype Option<+T> = None | Some(value: T)

  function Max(a: real, b: real): real { if a >= b then a else b }

  function Min(a: real, b: real): real { if a <= b then a else b }

  function Abs(x: real): real { if x >= 0.0 then x else -x }

  function MaxInt(a: int, b: int): int { if a >= b then a else b }

  function MinInt(a: int, b: int): int { if a <= b then a else b }

  /** Python's `int(x)` on a float: truncation toward zero. */
  function Trunc(x: real): int { if x >= 0.0 then x.Floor else -((-x).Floor) }

  /** Python's `xs[:k]`, which counts from the end when k is negative. */
  function SliceTo<T>(xs: seq<T>, k: int): seq<T> {
    if k >= 0 then xs[..MinInt(k, |xs|)] else xs[..MaxInt(0, |xs| + k)]
  }

  function Sum(s: seq<real>): real {
    if s == [] then 0.0 else Sum(s[..|s| - 1]) + s[|s| - 1]
  }

  ghost predicate Distinct<T(!new)>(s: seq<T>) {
    forall i, j :: 0 <= i < j < |s| ==> s[i] != s[j]
  }

  // ---- order-preserving filtering of sequences ----

  function Filter<T>(s: seq<T>, keep: T -> bool): seq<T> {
    if s == [] then []
    else Filter(s[..|s| - 1], keep) + (if keep(s[|s| - 1]) then [s[|s| - 1]] else [])
  }

  function Reject<T>(s: seq<T>, drop: T -> bool): seq<T> {
    if s == [] then []
    else Reject(s[..|s| - 1], drop) + (if drop(s[|s| - 1]) then [] else [s[|s| - 1]])
  }

  lemma {:induction false} FilterCounts<T>(s: seq<T>, p: T -> bool)
    ensures multiset(Filter(s, p)) + multiset(Reject(s, p)) == multiset(s)
  {
    if s != [] {
      var init, x := s[..|s| - 1], s[|s| - 1];
      assert s == init + [x];
      FilterCounts(init, p);
      FilterLast(init, x, p);
      if p(x) {
        CountBoth(Filter(init, p), [x], Reject(init, p), []);
      } else {
        CountBoth(Filter(init, p), [], Reject(init, p), [x]);
      }
    }
  }

  lemma CountBoth<T>(a: seq<T>, x: seq<T>, b: seq<T>, y: seq<T>)
    ensures multiset(a + x) + multiset(b + y) == (multiset(a) + multiset(b)) + multiset(x + y)
  {
  }

  lemma {:induction false} FilterLast<T>(s: seq<T>, x: T, p: T -> bool)
    ensures Filter(s + [x], p) == Filter(s, p) + if p(x) then [x] else []
    ensures Reject(s + [x], p) == Reject(s, p) + if p(x) then [] else [x]
  {
    assert (s + [x])[..|s|] == s;
  }

  lemma {:induction false} NoneOfTwo<T>(x: T, y: T, p: T -> bool)
    requires !p(x) && !p(y)
    ensures Filter([x, y], p) == [] && Reject([x, y], p) == [x, y]
  {
    FilterLast([], x, p);
    FilterLast([x], y, p);
    assert [] + [x] == [x] && [x] + [y] == [x, y];
  }

  lemma {:induction false} FilterTests<T>(s: seq<T>, p: T -> bool)
    ensures forall x :: x in Filter(s, p) ==> p(x)
    ensures forall x :: x in Reject(s, p) ==> !p(x)
  {
    if s != [] { FilterTests(s[..|s| - 1], p); }
  }

  /** Filtering and rejecting by the same test splits a sequence, losing and inventing nothing. */
  lemma {:induction false} FilterSplits<T>(s: seq<T>, p: T -> bool)
    ensures multiset(Filter(s, p)) + multiset(Reject(s, p)) == multiset(s)
    ensures forall x :: x in Filter(s, p) ==> p(x)
    ensures forall x :: x in Reject(s, p) ==> !p(x)
  {
    FilterCounts(s, p);
    FilterTests(s, p);
  }

  /** `a` is what is left of `b` after leaving some entries out. */
  ghost predicate Subsequence<T>(a: seq<T>, b: seq<T>) {
    a == [] || (b != [] && ((a[|a| - 1] == b[|b| - 1] && Subsequence(a[..|a| - 1], b[..|b| - 1]))
                            || Subsequence(a, b[..|b| - 1])))
  }

  lemma {:induction false} SubsequencePush<T>(a: seq<T>, b: seq<T>, x: T)
    requires Subsequence(a, b)
    ensures Subsequence(a, b + [x]) && Subsequence(a + [x], b + [x])
  {
    assert (a + [x])[..|a|] == a && (b + [x])[..|b|] == b;
  }

  /** Filtering and rejecting leave entries out and change nothing else. */
  lemma {:induction false} FilterKeepsOrder<T>(s: seq<T>, p: T -> bool)
    ensures Subsequence(Filter(s, p), s) && Subsequence(Reject(s, p), s)
  {
    if s != [] {
      var init, x := s[..|s| - 1], s[|s| - 1];
      FilterKeepsOrder(init, p);
      assert s == init + [x];
      FilterLast(init, x, p);
      SubsequencePush(Filter(init, p), init, x);
      SubsequencePush(Reject(init, p), init, x);
      assert Filter(init, p) + [] == Filter(init, p) && Reject(init, p) + [] == Reject(init, p);
    }
  }

  /** A property of the empty sequence that one more entry keeps holds of every sequence. */
  lemma {:induction false} HoldsOfAll<T>(p: seq<T> -> bool, s: seq<T>)
    requires p([]) && forall t, x :: p(t) ==> p(t + [x])
    ensures p(s)
  {
    if s != [] {
      HoldsOfAll(p, s[..|s| - 1]);
      assert s == s[..|s| - 1] + [s[|s| - 1]];
    }
  }

  // ---- dates in increasing order ----

  function InsertDate(dates: seq<int>, d: int): seq<int> {
    if dates == [] then [d]
    else
      var n := |dates| - 1;
      if dates[n] == d then dates
      else if dates[n] < d then dates + [d]
      else InsertDate(dates[..n], d) + [dates[n]]
  }

  // ---- text ----

  /** Python's whitespace, which `str.strip` removes. */
  predicate Blank(c: char) {
    var k := c as int;
    || 0x09 <= k <= 0x0D || 0x1C <= k <= 0x20 || k == 0x85 || k == 0xA0 || k == 0x1680
    || 0x2000 <= k <= 0x200A || k == 0x2028 || k == 0x2029 || k == 0x202F || k == 0x205F || k == 0x3000
  }

  function Strip(s: string): string {
    if s != "" && Blank(s[0]) then Strip(s[1..])
    else if s != "" && Blank(s[|s| - 1]) then Strip(s[..|s| - 1])
    else s
  }

  // ---- non-linear facts, each stated once ----

  lemma MulMono(k: real, a: real, b: real)
    requires k >= 0.0 && a <= b
    ensures k * a <= k * b
  {
  }

  lemma DivMul(a: real, b: real, c: real)
    requires b != 0.0
    ensures a / b * c == a * (c / b)
  {
    var q := 1.0 / b;
    assert a / b == a * q;
    assert c / b == c * q;
  }

  lemma QuotientIs(a: real, b: real, q: real)
    requires b != 0.0 && a == q * b
    ensures a / b == q
  {
    assert (a / b - q) * b == 0.0;
  }

  lemma QuotientPositive(a: real, b: real)
    requires a > 0.0 && b > 0.0
    ensures a / b > 0.0
  {
    assert a / b * b == a;
  }

  lemma MulPositive(a: real, b: real)
    requires a > 0.0 && b > 0.0
    ensures a * b > 0.0
  {
  }

  lemma SquareMono(a: real, b: real)
    requires 0.0 <= a < b
    ensures a * a < b * b
  {
    MulPositive(b - a, b + a);
    assert (b - a) * (b + a) == b * b - a * a;
  }

  lemma SquareNonNegative(x: real)
    ensures x * x >= 0.0
  {
    if x < 0.0 { assert (-x) * (-x) >= 0.0; }
  }

  lemma DivBounds(a: real, b: real)
    requires 0.0 <= a <= b && b > 0.0
    ensures 0.0 <= a / b <= 1.0
  {
    assert a / b * b == a;
  }

  lemma DivCancel(k: real, a: real, b: real)
    requires k != 0.0 && b != 0.0
    ensures k * b != 0.0 && (k * a) / (k * b) == a / b
  {
    assert a / b * (k * b) == k * a by { assert a / b * b == a; }
  }
}
