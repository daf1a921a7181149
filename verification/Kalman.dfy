/** The scalar Kalman recursion of the trend follower. */
module Kalman {
  import opened Common

  /** Noise settings: process noise, observation noise, initial variance. */
  datatype Noise = Noise(q: real, r: real, p0: real)

  datatype State = State(x: real, p: real, k: real)

  function Predicted(n: Noise, p: real): real { p + n.q }

  /** The gain's denominator is not zero. */
  predicate Divides(n: Noise, p: real) { Predicted(n, p) + n.r != 0.0 }

  function Gain(n: Noise, p: real): real
    requires Divides(n, p)
  {
    Predicted(n, p) / (Predicted(n, p) + n.r)
  }

  function NextVariance(n: Noise, p: real): real
    requires Divides(n, p)
  {
    (1.0 - Gain(n, p)) * Predicted(n, p)
  }

  function Move(k: real, x: real, z: real): real { k * (z - x) }

  function Update(x: real, k: real, z: real): real { x + Move(k, x, z) }

  function Step(n: Noise, s: State, z: real): State
    requires Divides(n, s.p)
  {
    var k := Gain(n, s.p);
    State(Update(s.x, k, z), NextVariance(n, s.p), k)
  }

  /** The state a price is met with: the previous one, or the first price with the initial variance. */
  function Before(n: Noise, prices: seq<real>, states: seq<State>): State
    requires prices != []
  {
    if states == [] then State(prices[0], n.p0, 0.0) else states[|states| - 1]
  }

  /** None stands for the division by zero. */
  function Filtered(n: Noise, prices: seq<real>): Option<seq<State>> {
    if prices == [] then Some([])
    else
      match Filtered(n, prices[..|prices| - 1])
      case None => None
      case Some(states) =>
        var s := Before(n, prices, states);
        if !Divides(n, s.p) then None else Some(states + [Step(n, s, prices[|prices| - 1])])
  }

  lemma {:induction false} FailureIsFinal(n: Noise, prices: seq<real>, i: nat)
    requires i <= |prices| && Filtered(n, prices[..i]).None?
    ensures Filtered(n, prices).None?
  {
    if i == |prices| {
      assert prices[..i] == prices;
    } else {
      var init := prices[..|prices| - 1];
      assert init[..i] == prices[..i];
      FailureIsFinal(n, init, i);
    }
  }

  lemma {:induction false} FilteredStep(n: Noise, prices: seq<real>, i: nat, states: seq<State>)
    requires i < |prices| && Filtered(n, prices[..i]) == Some(states)
    ensures var s := Before(n, prices, states);
            Filtered(n, prices[..i + 1])
            == if Divides(n, s.p) then Some(states + [Step(n, s, prices[i])]) else None
  {
    assert prices[..i + 1][..i] == prices[..i];
  }

  method KalmanFilter(n: Noise, prices: seq<real>) returns (r: Option<seq<State>>)
    ensures r == Filtered(n, prices)
  {
    if prices == [] { return Some([]); }
    var states: seq<State> := [];
    var x, p := prices[0], n.p0;
    for i := 0 to |prices|
      invariant Filtered(n, prices[..i]) == Some(states)
      invariant Before(n, prices, states).x == x && Before(n, prices, states).p == p
    {
      FilteredStep(n, prices, i, states);
      if !Divides(n, p) {
        FailureIsFinal(n, prices, i + 1);
        return None;
      }
      var next := Step(n, State(x, p, 0.0), prices[i]);
      x, p := next.x, next.p;
      states := states + [next];
    }
    assert prices[..|prices|] == prices;
    return Some(states);
  }
}

module KalmanProofs {
  import opened Common
  import opened Kalman

  predicate Proper(n: Noise) { n.q >= 0.0 && n.r > 0.0 && n.p0 >= 0.0 }

  /** A gain and a variance that the recursion can produce. */
  predicate Sane(n: Noise, s: State) { 0.0 <= s.k < 1.0 && 0.0 <= s.p < n.r }

  lemma {:induction false} RatioFacts(a: real, r: real)
    requires a >= 0.0 && r > 0.0
    ensures 0.0 <= a / (a + r) < 1.0
    ensures (1.0 - a / (a + r)) * (a + r) == r
    ensures (1.0 - a / (a + r)) * a == a / (a + r) * r
  {
    var k := a / (a + r);
    assert k * (a + r) == a;
    assert (1.0 - k) * (a + r) == (a + r) - k * (a + r);
    DivBounds(a, a + r);
    assert k * (a + r) == k * a + k * r;
    assert (1.0 - k) * a == a - k * a;
  }

  lemma {:induction false} StepIsSane(n: Noise, s: State, z: real)
    requires Proper(n) && s.p >= 0.0
    ensures Divides(n, s.p) && Sane(n, Step(n, s, z))
  {
    var a := Predicted(n, s.p);
    RatioFacts(a, n.r);
    var k := Gain(n, s.p);
    MulMono(a, 0.0, 1.0 - k);
    MulPositive(1.0 - k, n.r);
    assert (1.0 - k) * n.r == n.r - k * n.r;
    assert NextVariance(n, s.p) == k * n.r;
  }

  /** The filter always succeeds, with every gain in [0, 1) and every variance in [0, R). */
  lemma {:induction false} GainsAndVariances(n: Noise, prices: seq<real>)
    requires Proper(n)
    ensures Filtered(n, prices).Some? && |Filtered(n, prices).value| == |prices|
    ensures forall i :: 0 <= i < |prices| ==> Sane(n, Filtered(n, prices).value[i])
  {
    if prices != [] {
      var init, z := prices[..|prices| - 1], prices[|prices| - 1];
      GainsAndVariances(n, init);
      StepIsSane(n, Before(n, prices, Filtered(n, init).value), z);
    }
  }

  function States(n: Noise, prices: seq<real>): (r: seq<State>)
    requires Proper(n)
    ensures |r| == |prices|
  {
    GainsAndVariances(n, prices);
    Filtered(n, prices).value
  }

  /** One more price adds one more state and leaves the others alone. */
  lemma {:induction false} StatesAfter(n: Noise, prices: seq<real>, z: real)
    requires Proper(n)
    ensures var s := Before(n, prices + [z], States(n, prices));
            && s.p >= 0.0 && Divides(n, s.p)
            && States(n, prices + [z]) == States(n, prices) + [Step(n, s, z)]
  {
    assert (prices + [z])[..|prices|] == prices;
    GainsAndVariances(n, prices);
    var s := Before(n, prices + [z], States(n, prices));
    StepIsSane(n, s, z);
  }

  // ---- variances and gains do not look at prices ----

  /** The variance after `i` steps, started from `n.p0`. */
  function VarianceAt(n: Noise, i: nat): (r: real)
    requires Proper(n)
    ensures r >= 0.0
  {
    if i == 0 then n.p0
    else
      var p := VarianceAt(n, i - 1);
      StepIsSane(n, State(0.0, p, 0.0), 0.0);
      NextVariance(n, p)
  }

  /** A state depends on the prices up to its own only. */
  lemma {:induction false} StatesOfPrefix(n: Noise, prices: seq<real>, i: nat)
    requires Proper(n) && i <= |prices|
    ensures States(n, prices[..i]) == States(n, prices)[..i]
  {
    if i == |prices| {
      assert prices[..i] == prices;
    } else {
      var init, z := prices[..|prices| - 1], prices[|prices| - 1];
      assert prices == init + [z] && prices[..i] == init[..i];
      StatesAfter(n, init, z);
      StatesOfPrefix(n, init, i);
    }
  }

  ghost predicate Scheduled(n: Noise, s: State, i: nat)
    requires Proper(n)
  {
    s.p == VarianceAt(n, i + 1) && Divides(n, VarianceAt(n, i)) && s.k == Gain(n, VarianceAt(n, i))
  }

  lemma {:induction false} StepOnSchedule(n: Noise, s: State, z: real, i: nat)
    requires Proper(n) && s.p == VarianceAt(n, i)
    ensures Divides(n, s.p) && Scheduled(n, Step(n, s, z), i)
  {
    StepIsSane(n, s, z);
  }

  lemma {:induction false} LastOnSchedule(n: Noise, prices: seq<real>)
    requires Proper(n) && prices != []
    ensures Scheduled(n, States(n, prices)[|prices| - 1], |prices| - 1)
  {
    var init, z := prices[..|prices| - 1], prices[|prices| - 1];
    assert prices == init + [z];
    StatesAfter(n, init, z);
    if init != [] { LastOnSchedule(n, init); }
    StepOnSchedule(n, Before(n, prices, States(n, init)), z, |init|);
  }

  /** Variance and gain of every state are fixed by the noise settings and its place alone. */
  lemma {:induction false} PricesDoNotMatter(n: Noise, prices: seq<real>, i: nat)
    requires Proper(n) && i < |prices|
    ensures States(n, prices)[i].p == VarianceAt(n, i + 1)
    ensures Divides(n, VarianceAt(n, i)) && States(n, prices)[i].k == Gain(n, VarianceAt(n, i))
  {
    StatesOfPrefix(n, prices, i + 1);
    LastOnSchedule(n, prices[..i + 1]);
  }

  lemma {:induction false} VarianceMono(n: Noise, p: real, q: real)
    requires Proper(n) && 0.0 <= p <= q
    ensures Divides(n, p) && Divides(n, q) && NextVariance(n, p) <= NextVariance(n, q)
  {
    var a, b := Predicted(n, p), Predicted(n, q);
    RatioFacts(a, n.r);
    RatioFacts(b, n.r);
    LargerSumSmallerFactor(1.0 - Gain(n, p), 1.0 - Gain(n, q), a + n.r, b + n.r);
    MulMono(n.r, Gain(n, p), Gain(n, q));
  }

  lemma {:induction false} LargerSumSmallerFactor(u: real, v: real, s: real, t: real)
    requires 0.0 < s <= t && 0.0 <= v && u * s == v * t
    ensures v <= u
  {
    MulMono(v, s, t);
    assert (v - u) * s == v * s - u * s;
    if v > u { MulPositive(v - u, s); }
  }

  /** The variances go on in the direction of their first step, and never turn. */
  lemma {:induction false} VarianceNeverTurns(n: Noise, i: nat)
    requires Proper(n)
    ensures VarianceAt(n, 0) <= VarianceAt(n, 1) ==> VarianceAt(n, i) <= VarianceAt(n, i + 1)
    ensures VarianceAt(n, 0) >= VarianceAt(n, 1) ==> VarianceAt(n, i) >= VarianceAt(n, i + 1)
  {
    if i > 0 {
      VarianceNeverTurns(n, i - 1);
      var p, q := VarianceAt(n, i - 1), VarianceAt(n, i);
      if p <= q { VarianceMono(n, p, q); }
      if q <= p { VarianceMono(n, q, p); }
    }
  }

  predicate Settled(n: Noise, p: real) {
    Divides(n, p) && NextVariance(n, p) == p
  }

  /** No variance ever crosses a fixed point of the recursion. */
  lemma {:induction false} VarianceNeverOvershoots(n: Noise, fixed: real, i: nat)
    requires Proper(n) && fixed >= 0.0 && Settled(n, fixed)
    ensures n.p0 <= fixed ==> VarianceAt(n, i) <= fixed
    ensures n.p0 >= fixed ==> VarianceAt(n, i) >= fixed
  {
    if i > 0 {
      VarianceNeverOvershoots(n, fixed, i - 1);
      var p := VarianceAt(n, i - 1);
      if p <= fixed { VarianceMono(n, p, fixed); }
      if fixed <= p { VarianceMono(n, fixed, p); }
    }
  }

  // ---- estimates ----

  predicate Bounded(s: seq<real>, lo: real, hi: real) { forall i :: 0 <= i < |s| ==> lo <= s[i] <= hi }

  lemma {:induction false} UpdateBetween(x: real, k: real, z: real, lo: real, hi: real)
    requires 0.0 <= k <= 1.0 && lo <= x <= hi && lo <= z <= hi
    ensures lo <= Update(x, k, z) <= hi
  {
    PartOf(k, z - x, Move(k, x, z));
    MoveBetween(x, Move(k, x, z), z, lo, hi);
  }

  lemma {:induction false} MoveBetween(x: real, move: real, z: real, lo: real, hi: real)
    requires lo <= x <= hi && lo <= z <= hi
    requires z >= x ==> 0.0 <= move <= z - x
    requires z <= x ==> z - x <= move <= 0.0
    ensures lo <= x + move <= hi
  {
  }

  /** A fraction of a distance goes part of the way. */
  lemma {:induction false} PartOf(k: real, d: real, move: real)
    requires 0.0 <= k <= 1.0 && move == k * d
    ensures d >= 0.0 ==> 0.0 <= move <= d
    ensures d <= 0.0 ==> d <= move <= 0.0
  {
    if d >= 0.0 {
      Fraction(k, d, move);
    } else {
      assert -move == k * -d;
      Fraction(k, -d, -move);
    }
  }

  lemma {:induction false} Fraction(k: real, d: real, part: real)
    requires 0.0 <= k <= 1.0 && d >= 0.0 && part == k * d
    ensures 0.0 <= part <= d
  {
    var rest := (1.0 - k) * d;
    MulMono(k, 0.0, d);
    MulMono(1.0 - k, 0.0, d);
    assert part + rest == d;
  }

  /** Every estimate is within the range of the prices seen up to it. */
  lemma {:induction false} EstimateWithinPrices(n: Noise, prices: seq<real>, i: nat, lo: real, hi: real)
    requires Proper(n) && i < |prices| && Bounded(prices[..i + 1], lo, hi)
    ensures lo <= States(n, prices)[i].x <= hi
  {
    var init, z := prices[..|prices| - 1], prices[|prices| - 1];
    assert prices == init + [z];
    StatesAfter(n, init, z);
    if i < |init| {
      assert init[..i + 1] == prices[..i + 1];
      EstimateWithinPrices(n, init, i, lo, hi);
    } else {
      assert prices[..i + 1] == prices;
      if i > 0 { EstimateWithinPrices(n, init, i - 1, lo, hi); }
      var s := Before(n, prices, States(n, init));
      GainsAndVariances(n, prices);
      UpdateBetween(s.x, Gain(n, s.p), z, lo, hi);
    }
  }

  function Affine(a: real, b: real, x: real): real { a * x + b }

  function AffineAll(a: real, b: real, s: seq<real>): (r: seq<real>)
    ensures |r| == |s|
  {
    seq(|s|, i requires 0 <= i < |s| => Affine(a, b, s[i]))
  }

  lemma {:induction false} UpdateAffine(a: real, b: real, x: real, k: real, z: real)
    ensures Update(Affine(a, b, x), k, Affine(a, b, z)) == Affine(a, b, Update(x, k, z))
  {
    assert Affine(a, b, z) - Affine(a, b, x) == a * (z - x);
    assert k * (a * (z - x)) == a * (k * (z - x));
    assert a * (x + k * (z - x)) == a * x + a * (k * (z - x));
  }

  function AffineState(a: real, b: real, s: State): State { s.(x := Affine(a, b, s.x)) }

  /** Changing the unit or the origin of prices changes the estimates alike, and nothing else. */
  lemma {:induction false} CommutesWithAffine(n: Noise, prices: seq<real>, a: real, b: real, i: nat)
    requires Proper(n) && i < |prices|
    ensures States(n, AffineAll(a, b, prices))[i] == AffineState(a, b, States(n, prices)[i])
  {
    var init, z := prices[..|prices| - 1], prices[|prices| - 1];
    var mapped := AffineAll(a, b, init);
    assert prices == init + [z];
    assert AffineAll(a, b, prices) == mapped + [Affine(a, b, z)];
    StatesAfter(n, init, z);
    StatesAfter(n, mapped, Affine(a, b, z));
    if i < |init| {
      CommutesWithAffine(n, init, a, b, i);
    } else {
      if i > 0 { CommutesWithAffine(n, init, a, b, i - 1); }
      var s := Before(n, prices, States(n, init));
      UpdateAffine(a, b, s.x, Gain(n, s.p), z);
    }
  }

  // ---- each estimate is the best compromise ----

  /** `y` parts `total` as `part` does: y / total == part / whole, without the division. */
  predicate Shares(y: real, whole: real, part: real, total: real) { y * whole == part * total }

  /** What the previous estimate and the price weigh against an estimate `m`: the prior is as sure as its variance. */
  function Misfit(prior: real, r: real, x: real, z: real, m: real): real {
    r * Apart(m, x) + prior * Apart(m, z)
  }

  function Apart(a: real, b: real): real { (a - b) * (a - b) }

  /** The state a price is met with, its variance grown by the process noise. */
  ghost predicate Meets(n: Noise, prices: seq<real>, i: nat, x: real, prior: real)
    requires Proper(n) && i < |prices|
  {
    if i == 0 then x == prices[0] && prior == n.p0 + n.q
    else x == States(n, prices)[i - 1].x && prior == States(n, prices)[i - 1].p + n.q
  }

  /** The new state fuses the prior with the price. */
  ghost predicate Fuses(n: Noise, x: real, prior: real, z: real, s: State) {
    && Shares(s.k, prior + n.r, prior, 1.0)
    && Shares(s.p, prior + n.r, prior, n.r)
    && Shares(s.x - x, prior + n.r, prior, z - x)
  }

  lemma MoveShares(k: real, prior: real, r: real, x: real, z: real)
    requires Shares(k, prior + r, prior, 1.0)
    ensures Shares(Update(x, k, z) - x, prior + r, prior, z - x)
  {
    var w, d := prior + r, z - x;
    assert (k * d) * w == (k * w) * d;
  }

  lemma {:induction false} StepFuses(n: Noise, s: State, z: real)
    requires Proper(n) && s.p >= 0.0
    ensures Divides(n, s.p) && Fuses(n, s.x, s.p + n.q, z, Step(n, s, z))
  {
    var prior := Predicted(n, s.p);
    StepIsSane(n, s, z);
    RatioFacts(prior, n.r);
    var k := Gain(n, s.p);
    assert k * (prior + n.r) == prior;
    VarianceShares(k, prior, n.r, NextVariance(n, s.p));
    MoveShares(k, prior, n.r, s.x, z);
  }

  lemma VarianceShares(k: real, prior: real, r: real, p: real)
    requires k * (prior + r) == prior && p == (1.0 - k) * prior
    ensures Shares(p, prior + r, prior, r)
  {
    var w := prior + r;
    assert (1.0 - k) * w == w - prior == r;
    assert p * w == ((1.0 - k) * w) * prior;
  }

  lemma {:induction false} LastFuses(n: Noise, prices: seq<real>, x: real, prior: real)
    requires Proper(n) && prices != [] && Meets(n, prices, |prices| - 1, x, prior)
    ensures var i := |prices| - 1; prior >= 0.0 && Fuses(n, x, prior, prices[i], States(n, prices)[i])
  {
    var init, z := prices[..|prices| - 1], prices[|prices| - 1];
    assert prices == init + [z];
    StatesAfter(n, init, z);
    StepFuses(n, Before(n, prices, States(n, init)), z);
  }

  /**
   * Every state of a run: gain, variance and estimate are the fusion of the previous estimate, as sure as
   * its variance and the process noise, with the price, as sure as the observation noise.
   */
  lemma {:induction false} EveryStateFuses(n: Noise, prices: seq<real>, i: nat, x: real, prior: real)
    requires Proper(n) && i < |prices| && Meets(n, prices, i, x, prior)
    ensures prior >= 0.0 && Fuses(n, x, prior, prices[i], States(n, prices)[i])
  {
    StatesOfPrefix(n, prices, i + 1);
    assert prices[..i + 1][0] == prices[0];
    LastFuses(n, prices[..i + 1], x, prior);
  }

  lemma FusionIsLeast(prior: real, r: real, x: real, z: real, y: real, m: real)
    requires prior >= 0.0 && r > 0.0 && Shares(y - x, prior + r, prior, z - x)
    ensures Misfit(prior, r, x, z, m) == Misfit(prior, r, x, z, y) + (prior + r) * Apart(m, y)
  {
    var w, e := prior + r, m - y;
    var a, b := y - x, y - z;
    assert a * w == prior * (a - b);
    assert r * a + prior * b == 0.0;
    SquareOfSum(e, a, Apart(m, x));
    SquareOfSum(e, b, Apart(m, z));
    Combined(prior, r, e, a, b, e * e, a * a, b * b);
  }

  lemma SquareOfSum(e: real, a: real, product: real)
    requires product == (e + a) * (e + a)
    ensures product == e * e + 2.0 * (e * a) + a * a
  {
  }

  lemma Combined(prior: real, r: real, e: real, a: real, b: real, ee: real, aa: real, bb: real)
    requires r * a + prior * b == 0.0
    ensures r * (ee + 2.0 * (e * a) + aa) + prior * (ee + 2.0 * (e * b) + bb)
         == (r * aa + prior * bb) + (prior + r) * ee
  {
    assert r * (e * a) + prior * (e * b) == e * (r * a + prior * b);
  }

  /** The estimate is the one with the least misfit to the previous estimate and the price, and the only one. */
  lemma {:induction false} EstimateIsBest(n: Noise, prices: seq<real>, i: nat, x: real, prior: real, m: real)
    requires Proper(n) && i < |prices| && Meets(n, prices, i, x, prior)
    ensures var best := States(n, prices)[i].x;
      && Misfit(prior, n.r, x, prices[i], best) <= Misfit(prior, n.r, x, prices[i], m)
      && (m != best ==> Misfit(prior, n.r, x, prices[i], best) < Misfit(prior, n.r, x, prices[i], m))
  {
    var best := States(n, prices)[i].x;
    EveryStateFuses(n, prices, i, x, prior);
    FusionIsLeast(prior, n.r, x, prices[i], best, m);
    WeightedApart(prior + n.r, m, best);
  }

  lemma WeightedApart(w: real, a: real, b: real)
    requires w > 0.0
    ensures w * Apart(a, b) >= 0.0 && (a != b ==> w * Apart(a, b) > 0.0)
  {
    ApartIsSquare(a - b, Apart(a, b));
    if Apart(a, b) > 0.0 { MulPositive(w, Apart(a, b)); }
  }

  lemma ApartIsSquare(d: real, square: real)
    requires square == d * d
    ensures square >= 0.0 && (d != 0.0 ==> square > 0.0)
  {
    if d > 0.0 {
      PositiveProduct(d, d, square);
    } else if d < 0.0 {
      SquareEven(d, -d);
      PositiveProduct(-d, -d, square);
    }
  }

  lemma PositiveProduct(a: real, b: real, product: real)
    requires a > 0.0 && b > 0.0 && product == a * b
    ensures product > 0.0
  {
  }

  lemma SquareEven(d: real, e: real)
    requires e == -d
    ensures e * e == d * d
  {
  }
}
