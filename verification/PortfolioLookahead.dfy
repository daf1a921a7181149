/** A universe whose only priced symbol is "X": what any strategy that can hold something does with it. */
module SparseUniverse {
  import opened Common
  import opened CrossSectional
  import opened PortfolioCausality

  /** The n-th of the symbols without prices, told apart by their lengths. */
  function Name(n: nat): (r: Symbol)
    ensures |r| == n && (n > 0 ==> r[n - 1] == 'u') && r != "X"
  {
    if n == 0 then "" else Name(n - 1) + "u"
  }

  /** A symbol without prices for every place a negative `topN` cuts off. */
  function Spare(n: nat): (r: seq<Symbol>)
    ensures |r| == n && forall k :: 0 <= k < n ==> r[k] == Name(k)
  {
    if n == 0 then [] else Spare(n - 1) + [Name(n - 1)]
  }

  function SpareOf(cfg: Config): (r: seq<Symbol>)
    ensures |r| == if cfg.topN < 0 then -cfg.topN else 0
  {
    Spare(if cfg.topN < 0 then -cfg.topN else 0)
  }

  function Universe(cfg: Config): seq<Symbol> { ["X"] + SpareOf(cfg) }

  lemma {:induction false} SpareIsNotX(n: nat)
    ensures "X" !in Spare(n)
  {
  }

  lemma {:induction false} UniverseIsDistinct(cfg: Config)
    ensures Distinct(Universe(cfg))
  {
    var all := Universe(cfg);
    forall j, k | 0 <= j < k < |all| ensures all[j] != all[k] {
      assert all[k] == Name(k - 1);
      if j > 0 { assert all[j] == Name(j - 1); }
    }
  }

  /** Every close of every other symbol is missing. */
  ghost predicate OnlyXPriced(m: Market) {
    forall s, k :: s != "X" && 0 <= k < |m.common| ==> At(m, s, k) == 0.0
  }

  /** The ranking of a universe in which only "X" can have a score. */
  lemma {:induction false} OnlyXIsScored(m: Market, cfg: Config, i: int, spare: seq<Symbol>)
    requires Runnable(cfg) && 0 <= i < |m.common| && OnlyXPriced(m) && "X" !in spare
    ensures Ranked(m, cfg, ["X"] + spare, i) == [Rank("X", Momentum(m, cfg, "X", i))] + Unscored(spare)
  {
    var first := Rank("X", Momentum(m, cfg, "X", i));
    if spare == [] {
      XAlone(m, cfg, i);
      assert ["X"] + spare == ["X"] && [first] + Unscored(spare) == [first];
    } else {
      var before, last := spare[..|spare| - 1], spare[|spare| - 1];
      OnlyXIsScored(m, cfg, i, before);
      UnpricedHasNoScore(m, cfg, last, i);
      OneMoreUnscored(m, cfg, ["X"] + before, last, i);
      assert (["X"] + before) + [last] == ["X"] + spare;
      assert [first] + Unscored(spare) == ([first] + Unscored(before)) + [Rank(last, None)];
    }
  }

  lemma {:induction false} XAlone(m: Market, cfg: Config, i: int)
    requires Runnable(cfg) && 0 <= i < |m.common|
    ensures Ranked(m, cfg, ["X"], i) == [Rank("X", Momentum(m, cfg, "X", i))]
  {
    assert ["X"][..0] == [];
  }

  lemma {:induction false} UnpricedHasNoScore(m: Market, cfg: Config, s: Symbol, i: int)
    requires Runnable(cfg) && 0 <= i < |m.common| && s != "X" && OnlyXPriced(m)
    ensures Momentum(m, cfg, s, i).None?
  {
  }

  lemma {:induction false} OneMoreUnscored(m: Market, cfg: Config, names: seq<Symbol>, s: Symbol, i: int)
    requires Runnable(cfg) && 0 <= i < |m.common| && Momentum(m, cfg, s, i).None?
    ensures Ranked(m, cfg, names + [s], i) == Ranked(m, cfg, names, i) + [Rank(s, None)]
  {
    assert (names + [s])[..|names|] == names;
    InsertUnscored(Ranked(m, cfg, names, i), Rank(s, None));
  }

  function Unscored(names: seq<Symbol>): (r: seq<Rank>)
    ensures |r| == |names|
  {
    if names == [] then [] else Unscored(names[..|names| - 1]) + [Rank(names[|names| - 1], None)]
  }

  lemma {:induction false} InsertUnscored(rs: seq<Rank>, x: Rank)
    requires x.score.None?
    ensures InsertRank(rs, x) == rs + [x]
  {
  }

  lemma {:induction false} UnscoredAddNothing(r: Rank, spare: seq<Symbol>)
    ensures PositiveNames([r] + Unscored(spare)) == PositiveNames([r])
    ensures ScoredCount([r] + Unscored(spare)) == ScoredCount([r])
  {
    var rs := [r] + Unscored(spare);
    if spare == [] {
      assert rs == [r];
    } else {
      var n := |spare| - 1;
      UnscoredAddNothing(r, spare[..n]);
      assert rs[..|rs| - 1] == [r] + Unscored(spare[..n]) && rs[|rs| - 1] == Rank(spare[n], None);
    }
  }

  /** Such a universe is held as "X" alone when its momentum is positive, and not at all otherwise. */
  lemma {:induction false} XIsHeldExactly(m: Market, cfg: Config, i: int)
    requires Runnable(cfg) && 0 <= i < |m.common| && CanHold(cfg) && m.symbols == Universe(cfg)
    requires OnlyXPriced(m)
    ensures Select(m, cfg, i) == if IsPositive(Rank("X", Momentum(m, cfg, "X", i))) then ["X"] else []
  {
    var spare := SpareOf(cfg);
    var r := Rank("X", Momentum(m, cfg, "X", i));
    SpareIsNotX(if cfg.topN < 0 then -cfg.topN else 0);
    OnlyXIsScored(m, cfg, i, spare);
    SoleChoice(r, cfg, spare);
    SelectFrom(m, cfg, i, [r] + Unscored(spare));
  }

  lemma {:induction false} SelectFrom(m: Market, cfg: Config, i: int, ranked: seq<Rank>)
    requires Runnable(cfg) && 0 <= i < |m.common| && Ranked(m, cfg, m.symbols, i) == ranked
    ensures Select(m, cfg, i) == if cfg.regimeFilter && Breadth(ranked) < cfg.minBreadth then []
                                 else PositiveNames(SliceTo(ranked, cfg.topN))
  {
  }

  /** What the filter and the slice leave of one possible score and the places for the spares. */
  lemma {:induction false} SoleChoice(r: Rank, cfg: Config, spare: seq<Symbol>)
    requires CanHold(cfg) && |spare| == if cfg.topN < 0 then -cfg.topN else 0
    ensures var ranked := [r] + Unscored(spare);
            && PositiveNames(SliceTo(ranked, cfg.topN)) == (if IsPositive(r) then [r.name] else [])
            && (IsPositive(r) ==> Breadth(ranked) == 1.0)
  {
    UnscoredAddNothing(r, spare);
    assert SliceTo([r] + Unscored(spare), cfg.topN) == [r];
    assert [r][..0] == [];
    assert PositiveNames([r]) == if IsPositive(r) then [r.name] else [];
  }
}

/**
 * The scale is not causal: whenever vol targeting is on and the strategy can hold anything, on
 * every rebalance bar two histories that agree up to the bar before get different exposures.
 */
module VolTargetLookahead {
  import opened Common
  import opened CrossSectional
  import opened PortfolioCausality
  import opened PortfolioSafety
  import opened SparseUniverse

  function Pow2(k: nat): (r: real)
    ensures r >= 1.0
  {
    if k == 0 then 1.0 else 2.0 * Pow2(k - 1)
  }

  /** "X" doubles every bar, except that its close on bar i is `last` times the one before. */
  function Doubling(names: seq<Symbol>, i: nat, last: real): Market {
    Market(seq(i + 2, k => k), names,
           map["X" := map d: int | 0 <= d <= i + 1 :: if d == i && i > 0 then last * Pow2(i - 1) else Pow2(d)])
  }

  /** What the guards and a dictionary of prices leave: positive closes, no name twice, enough history. */
  ghost predicate Realistic(m: Market, cfg: Config) {
    PositivePrices(m) && Distinct(m.symbols) && |m.common| > cfg.lookback + 1
  }

  ghost predicate Honest(sqrt: real -> real) {
    forall x :: x >= 0.0 ==> sqrt(x) >= 0.0 && sqrt(x) * sqrt(x) == x
  }

  lemma {:induction false} DoublingReturn(names: seq<Symbol>, i: nat, last: real, k: int)
    requires last > 0.0 && 1 <= k <= i
    ensures DayReturn(Doubling(names, i, last), "X", k) == Some(if k == i then last - 1.0 else 1.0)
  {
    var p := Pow2(k - 1);
    var m, c := Doubling(names, i, last), if k == i then last else 2.0;
    assert At(m, "X", k - 1) == p;
    assert At(m, "X", k) == c * p;
    assert c * p > 0.0;
    QuotientIs(c * p, p, c);
  }

  lemma {:induction false} DoublingBasket(names: seq<Symbol>, i: nat, last: real, lo: int, hi: int)
    requires last > 0.0 && 1 <= lo <= hi <= i
    ensures BasketReturns(Doubling(names, i, last), ["X"], lo, hi) == seq(hi - lo, _ => 1.0)
    decreases hi - lo
  {
    forall k | lo <= k < hi ensures CrossMean(Doubling(names, i, last), ["X"], k) == Some(1.0) {
      SoleReturn(names, i, last, k);
    }
    ConstantBasket(Doubling(names, i, last), ["X"], lo, hi, 1.0);
  }

  lemma {:induction false} ConstantBasket(m: Market, names: seq<Symbol>, lo: int, hi: int, c: real)
    requires 1 <= lo <= hi <= |m.common|
    requires forall k :: lo <= k < hi ==> CrossMean(m, names, k) == Some(c)
    ensures BasketReturns(m, names, lo, hi) == seq(hi - lo, _ => c)
    decreases hi - lo
  {
    if lo < hi { ConstantBasket(m, names, lo, hi - 1, c); }
  }

  lemma {:induction false} SoleReturn(names: seq<Symbol>, i: nat, last: real, k: int)
    requires last > 0.0 && 1 <= k <= i
    ensures CrossMean(Doubling(names, i, last), ["X"], k) == Some(if k == i then last - 1.0 else 1.0)
  {
    DoublingReturn(names, i, last, k);
    SoleMean(Doubling(names, i, last), "X", k, if k == i then last - 1.0 else 1.0);
  }

  lemma {:induction false} SoleMean(m: Market, s: Symbol, k: int, r: real)
    requires 1 <= k < |m.common| && DayReturn(m, s, k) == Some(r)
    ensures CrossMean(m, [s], k) == Some(r)
  {
    assert [s][..0] == [];
    assert CrossReturns(m, [], k) == [];
    assert CrossReturns(m, [s], k) == [r];
    MeanOfOne(r);
  }

  lemma {:induction false} MeanOfOne(r: real)
    ensures Mean([r]) == r
  {
    assert [r][..0] == [] && Sum([r]) == r;
  }

  lemma {:induction false} Pow2Grows(a: nat, b: nat)
    requires a < b
    ensures Pow2(a) < Pow2(b)
    decreases b
  {
    if a < b - 1 { Pow2Grows(a, b - 1); }
  }

  lemma {:induction false} RatioAboveOne(p: real, q: real)
    requires p > q > 0.0
    ensures p / q > 1.0
  {
    assert p / q * q == p;
    if p / q <= 1.0 { MulMono(q, p / q, 1.0); }
  }

  lemma {:induction false} DoublingIsHeld(cfg: Config, names: seq<Symbol>, i: nat, last: real)
    requires Runnable(cfg) && cfg.skip >= 1 && CanHold(cfg)
    requires i >= cfg.lookback
    requires names == Universe(cfg)
    ensures Select(Doubling(names, i, last), cfg, i) == ["X"]
  {
    var m := Doubling(names, i, last);
    var p, q := Pow2(i - cfg.skip), Pow2(i - cfg.lookback);
    Pow2Grows(i - cfg.lookback, i - cfg.skip);
    assert At(m, "X", i - cfg.skip) == p && At(m, "X", i - cfg.lookback) == q;
    RatioAboveOne(p, q);
    XIsHeldExactly(m, cfg, i);
  }

  // ---- the two exposures ----

  lemma {:induction false} SpreadIsNonNegative(xs: seq<real>, c: real)
    ensures SquaredDeviations(xs, c) >= 0.0
  {
    if xs != [] {
      SpreadIsNonNegative(xs[..|xs| - 1], c);
      SquareNonNegative(xs[|xs| - 1] - c);
    }
  }

  lemma {:induction false} FlatSpread(xs: seq<real>, c: real)
    requires forall j :: 0 <= j < |xs| ==> xs[j] == c
    ensures SquaredDeviations(xs, c) == 0.0
  {
    if xs != [] { FlatSpread(xs[..|xs| - 1], c); }
  }

  lemma {:induction false} CalmExposure(cfg: Config, n: nat)
    requires Honest(cfg.sqrt) && n >= 2
    ensures ExposureOf(cfg, seq(n, _ => 1.0)) == 1.0
  {
    var ones := seq(n, _ => 1.0);
    ConstantSum(ones, 1.0);
    assert Mean(ones) == 1.0;
    FlatSpread(ones, 1.0);
    var zero := 0.0 / (n - 1) as real;
    assert Std(cfg, ones) == cfg.sqrt(zero);
    QuotientIs(0.0, (n - 1) as real, 0.0);
    RootOfZero(cfg.sqrt(0.0), 0.0);
  }

  lemma RootOfZero(s: real, x: real)
    requires x == 0.0 && s * s == x
    ensures s == 0.0
  {
    if s < 0.0 { SquareMono(0.0, -s); } else if s > 0.0 { SquareMono(0.0, s); }
  }

  lemma RootAtLeast(s: real, x: real, b: real)
    requires s >= 0.0 && s * s == x && b >= 0.0 && x >= b * b
    ensures s >= b
  {
    if s < b { SquareMono(s, b); }
  }

  /** The spread of n - 1 unit returns and one of 1 + n (v + 1). */
  function Jump(n: nat, v: real): real { 1.0 + n as real * (v + 1.0) }

  lemma {:induction false} JumpSpread(xs: seq<real>, v: real)
    requires |xs| >= 2 && v > 0.0 && xs[|xs| - 1] == Jump(|xs|, v)
    requires forall j :: 0 <= j < |xs| - 1 ==> xs[j] == 1.0
    ensures SquaredDeviations(xs, Mean(xs)) / (|xs| - 1) as real >= (v + 1.0) * (v + 1.0)
  {
    var nr, u := |xs| as real, v + 1.0;
    var ones := xs[..|xs| - 1];
    ConstantSum(ones, 1.0);
    assert Sum(xs) == nr + nr * u;
    var mean := 1.0 + u;
    assert nr + nr * u == mean * nr;
    QuotientIs(nr + nr * u, nr, mean);
    var dev := (nr - 1.0) * u;
    assert xs[|xs| - 1] - mean == dev;
    SpreadIsNonNegative(ones, mean);
    assert SquaredDeviations(xs, mean) >= dev * dev;
    JumpBound(SquaredDeviations(xs, mean), nr - 1.0, u);
  }

  lemma JumpBound(spread: real, k: real, u: real)
    requires k >= 1.0 && u > 0.0 && spread >= (k * u) * (k * u)
    ensures spread / k >= u * u
  {
    var uu := u * u;
    assert uu >= 0.0;
    var ku := k * uu;
    MulMono(uu, 1.0, k);
    assert ku >= uu;
    MulMono(k, uu, ku);
    assert (k * u) * (k * u) == k * ku;
    assert spread >= k * uu;
    assert spread / k * k == spread;
  }

  lemma {:induction false} HighVol(cfg: Config, variance: real)
    requires Honest(cfg.sqrt) && cfg.volTarget > 0.0
    requires variance >= (cfg.volTarget + 1.0) * (cfg.volTarget + 1.0)
    ensures cfg.sqrt(variance) >= cfg.volTarget + 1.0
  {
    var b := cfg.volTarget + 1.0;
    SquareNonNegative(b);
    RootAtLeast(cfg.sqrt(variance), variance, b);
  }

  lemma {:induction false} JumpStd(cfg: Config, xs: seq<real>)
    requires Honest(cfg.sqrt) && cfg.volTarget > 0.0
    requires |xs| >= 2 && xs[|xs| - 1] == Jump(|xs|, cfg.volTarget)
    requires forall j :: 0 <= j < |xs| - 1 ==> xs[j] == 1.0
    ensures Std(cfg, xs) >= cfg.volTarget + 1.0
  {
    JumpSpread(xs, cfg.volTarget);
    HighVol(cfg, SquaredDeviations(xs, Mean(xs)) / (|xs| - 1) as real);
  }

  lemma {:induction false} JumpExposure(cfg: Config, xs: seq<real>)
    requires Honest(cfg.sqrt) && cfg.volTarget > 0.0
    requires |xs| >= 2 && Std(cfg, xs) >= cfg.volTarget + 1.0
    ensures ExposureOf(cfg, xs) < 1.0
  {
    var std, year := Std(cfg, xs), cfg.sqrt(252.0);
    RootAtLeast(year, 252.0, 1.0);
    RatioBelowOne(cfg.volTarget, std, year);
  }

  lemma RatioBelowOne(v: real, std: real, year: real)
    requires v > 0.0 && std >= v + 1.0 && year >= 1.0
    ensures std * year > 0.0 && v / (std * year) < 1.0
  {
    MulMono(std, 1.0, year);
    var vol := std * year;
    assert vol > v;
    assert v / vol * vol == v;
    if v / vol >= 1.0 { MulMono(vol, 1.0, v / vol); }
  }

  lemma {:induction false} DoublingPrices(names: seq<Symbol>, i: nat, last: real)
    requires last > 0.0
    ensures PositivePrices(Doubling(names, i, last))
  {
    forall s, d | s in Doubling(names, i, last).px && d in Doubling(names, i, last).px[s]
      ensures Doubling(names, i, last).px[s][d] > 0.0
    {
      if d == i && i > 0 { assert last * Pow2(i - 1) > 0.0; }
    }
  }

  lemma {:induction false} RebalanceExposure(m: Market, cfg: Config, i: int, st: State, names: seq<Symbol>)
    requires Runnable(cfg) && 0 <= i < |m.common| && IsRebalance(cfg, i)
    requires Select(m, cfg, i) == names
    ensures Positioned(m, cfg, i, st).exposure == Exposure(m, cfg, names, i)
  {
  }

  /** Doubling n - 1 times, and then a last return. */
  function Growth(n: nat, last: real): seq<real>
    requires n >= 1
  {
    seq(n - 1, _ => 1.0) + [last]
  }

  /** The scale set on a rebalance bar, from the returns the code looks at. */
  lemma {:induction false} HeldExposure(
    cfg: Config, names: seq<Symbol>, i: nat, last: real, st: State, rets: seq<real>)
    requires names == Universe(cfg)
    requires Runnable(cfg) && cfg.skip >= 1 && CanHold(cfg)
    requires cfg.volTarget > 0.0 && IsRebalance(cfg, i) && last > 0.0
    requires rets == BasketReturns(Doubling(names, i, last), ["X"], MaxInt(1, i - cfg.volWindow + 1), i + 1)
    ensures Positioned(Doubling(names, i, last), cfg, i, st).exposure == ExposureOf(cfg, rets)
  {
    var m := Doubling(names, i, last);
    DoublingIsHeld(cfg, names, i, last);
    RebalanceExposure(m, cfg, i, st, ["X"]);
    TargetedExposure(m, cfg, ["X"], i);
  }

  lemma {:induction false} DoublingWindow(names: seq<Symbol>, i: nat, last: real, lo: int)
    requires last > 0.0 && 1 <= lo <= i
    ensures BasketReturns(Doubling(names, i, last), ["X"], lo, i + 1) == Growth(i + 1 - lo, last - 1.0)
  {
    DoublingBasket(names, i, last, lo, i);
    SoleReturn(names, i, last, i);
    BasketPush(Doubling(names, i, last), ["X"], lo, i, last - 1.0);
  }

  lemma {:induction false} BasketPush(m: Market, names: seq<Symbol>, lo: int, hi: int, r: real)
    requires 1 <= lo <= hi < |m.common| && CrossMean(m, names, hi) == Some(r)
    ensures BasketReturns(m, names, lo, hi + 1) == BasketReturns(m, names, lo, hi) + [r]
  {
  }

  lemma {:induction false} TargetedExposure(m: Market, cfg: Config, names: seq<Symbol>, i: int)
    requires Runnable(cfg) && 0 <= i < |m.common| && cfg.volTarget > 0.0 && names != []
    ensures var rets := BasketReturns(m, names, MaxInt(1, i - cfg.volWindow + 1), i + 1);
            Exposure(m, cfg, names, i) == ExposureOf(cfg, rets)
  {
  }

  lemma {:induction false} DoublingScale(
    cfg: Config, names: seq<Symbol>, i: nat, st: State, last: real, scale: real)
    requires names == Universe(cfg)
    requires Runnable(cfg) && cfg.skip >= 1 && CanHold(cfg)
    requires cfg.volTarget > 0.0 && IsRebalance(cfg, i) && last > 0.0
    requires scale == ExposureOf(cfg, Growth(i + 1 - MaxInt(1, i - cfg.volWindow + 1), last - 1.0))
    ensures Positioned(Doubling(names, i, last), cfg, i, st).exposure == scale
  {
    var lo := MaxInt(1, i - cfg.volWindow + 1);
    DoublingWindow(names, i, last, lo);
    HeldExposure(cfg, names, i, last, st, Growth(i + 1 - lo, last - 1.0));
  }

  lemma {:induction false} CalmScale(cfg: Config, n: nat)
    requires Honest(cfg.sqrt) && n >= 2
    ensures ExposureOf(cfg, Growth(n, 2.0 - 1.0)) == 1.0
  {
    assert Growth(n, 2.0 - 1.0) == seq(n, _ => 1.0);
    CalmExposure(cfg, n);
  }

  lemma {:induction false} JumpScale(cfg: Config, n: nat, last: real)
    requires Honest(cfg.sqrt) && cfg.volTarget > 0.0 && n >= 2 && last == 1.0 + Jump(n, cfg.volTarget)
    ensures ExposureOf(cfg, Growth(n, last - 1.0)) < 1.0
  {
    var xs := Growth(n, last - 1.0);
    JumpStd(cfg, xs);
    JumpExposure(cfg, xs);
  }

  lemma {:induction false} DoublingAgrees(names: seq<Symbol>, i: nat, x: real, y: real)
    ensures Agree(Doubling(names, i, x), Doubling(names, i, y), i - 1)
  {
  }

  lemma JumpPositive(n: nat, v: real)
    requires v > 0.0
    ensures Jump(n, v) > 0.0
  {
    if n > 0 { MulPositive(n as real, v + 1.0); }
  }

  lemma {:induction false} ExposureReadsItsOwnBar(cfg: Config, i: nat)
    returns (a: Market, b: Market)
    requires Runnable(cfg) && cfg.skip >= 1 && CanHold(cfg)
    requires cfg.volTarget > 0.0 && Honest(cfg.sqrt) && IsRebalance(cfg, i)
    ensures i < |a.common| == |b.common| && Agree(a, b, i - 1)
    ensures Realistic(a, cfg) && Realistic(b, cfg)
    ensures Positioned(a, cfg, i, Run(a, cfg, i)).exposure
         != Positioned(b, cfg, i, Run(b, cfg, i)).exposure
  {
    var n := i + 1 - MaxInt(1, i - cfg.volWindow + 1);
    var last, names := 1.0 + Jump(n, cfg.volTarget), Universe(cfg);
    JumpPositive(n, cfg.volTarget);
    a, b := Doubling(names, i, 2.0), Doubling(names, i, last);
    DoublingPrices(names, i, 2.0);
    DoublingPrices(names, i, last);
    UniverseIsDistinct(cfg);
    PositionsDiffer(cfg, names, i, Run(a, cfg, i), Run(b, cfg, i), last);
    DoublingAgrees(names, i, 2.0, last);
  }

  lemma {:induction false} PositionsDiffer(cfg: Config, names: seq<Symbol>, i: nat, s: State, t: State, last: real)
    requires names == Universe(cfg)
    requires Runnable(cfg) && cfg.skip >= 1 && CanHold(cfg)
    requires cfg.volTarget > 0.0 && Honest(cfg.sqrt) && IsRebalance(cfg, i)
    requires last == 1.0 + Jump(i + 1 - MaxInt(1, i - cfg.volWindow + 1), cfg.volTarget) && last > 0.0
    ensures Positioned(Doubling(names, i, 2.0), cfg, i, s).exposure
         != Positioned(Doubling(names, i, last), cfg, i, t).exposure
  {
    var n := i + 1 - MaxInt(1, i - cfg.volWindow + 1);
    JumpScale(cfg, n, last);
    CalmScale(cfg, n);
    DoublingScale(cfg, names, i, s, 2.0, 1.0);
    DoublingScale(cfg, names, i, t, last, ExposureOf(cfg, Growth(n, last - 1.0)));
  }
}

/** What the position at a bar depends on, exactly: witnesses for every configuration that looks ahead. */
module PositionLookahead {
  import opened Common
  import opened CrossSectional
  import opened PortfolioCausality
  import opened PortfolioSafety
  import opened SparseUniverse
  import opened VolTargetLookahead

  // ---- a choice that reads the bar it is made on, or later ones ----

  /** "X" closes at one until bar `from`, and at `c` from then on. */
  function Jumping(cfg: Config, n: nat, from: int, c: real): Market {
    Market(seq(n, k => k), Universe(cfg), map["X" := map d: int | 0 <= d < n :: CloseOn(d, from, c)])
  }

  function CloseOn(d: int, from: int, c: real): real { if d < from then 1.0 else c }

  function Length(cfg: Config, i: int): int { MaxInt(i - cfg.skip + 1, i + 2) }

  /** Everything the theorems below need to know about such a market. */
  ghost predicate JumpsTo(m: Market, cfg: Config, n: nat, from: int, c: real) {
    && PositivePrices(m) && m.common == seq(n, k => k) && m.symbols == Universe(cfg)
    && forall s, k :: 0 <= k < n ==> At(m, s, k) == if s == "X" then CloseOn(k, from, c) else 0.0
  }

  lemma {:induction false} JumpingJumps(cfg: Config, n: nat, from: int, c: real)
    requires c > 0.0
    ensures JumpsTo(Jumping(cfg, n, from, c), cfg, n, from, c)
  {
  }

  lemma {:induction false} JumpsAlone(m: Market, cfg: Config, n: nat, from: int, c: real)
    requires JumpsTo(m, cfg, n, from, c)
    ensures OnlyXPriced(m)
  {
  }

  lemma {:induction false} JumpMomentum(m: Market, cfg: Config, i: nat, n: nat, c: real)
    requires JumpsTo(m, cfg, n, i - cfg.skip, c) && n > i - cfg.skip && c > 0.0
    requires Runnable(cfg) && cfg.skip <= 0 && i >= cfg.lookback
    ensures Momentum(m, cfg, "X", i) == Some(c - 1.0)
  {
    assert At(m, "X", i - cfg.skip) == c && At(m, "X", i - cfg.lookback) == 1.0;
  }

  lemma {:induction false} Jumped(cfg: Config, i: int, c: real) returns (m: Market)
    requires Runnable(cfg) && CanHold(cfg) && cfg.skip <= 0 && i >= 0 && IsRebalance(cfg, i) && c > 0.0
    ensures JumpsTo(m, cfg, Length(cfg, i), i - cfg.skip, c)
    ensures Select(m, cfg, i) == if c > 1.0 then ["X"] else []
  {
    var from, n := i - cfg.skip, Length(cfg, i);
    m := Jumping(cfg, n, from, c);
    JumpingJumps(cfg, n, from, c);
    JumpsAlone(m, cfg, n, from, c);
    JumpMomentum(m, cfg, i, n, c);
    XIsHeldExactly(m, cfg, i);
  }

  lemma {:induction false} JumpsAgree(a: Market, b: Market, cfg: Config, n: nat, from: int, x: real, y: real)
    requires JumpsTo(a, cfg, n, from, x) && JumpsTo(b, cfg, n, from, y)
    ensures Agree(a, b, from - 1)
  {
  }

  /** With skip <= 0 the names held on a rebalance bar depend on the bar itself or on later ones. */
  lemma {:induction false} ChoiceLooksAhead(cfg: Config, i: int) returns (a: Market, b: Market)
    requires Runnable(cfg) && CanHold(cfg) && cfg.skip <= 0 && i >= 0 && IsRebalance(cfg, i)
    ensures |a.common| == |b.common| == Length(cfg, i) && Agree(a, b, i - cfg.skip - 1)
    ensures Realistic(a, cfg) && Realistic(b, cfg) && a.symbols != []
    ensures Select(a, cfg, i) == ["X"] && Select(b, cfg, i) == []
  {
    a := Jumped(cfg, i, 2.0);
    b := Jumped(cfg, i, 0.5);
    JumpsAgree(a, b, cfg, Length(cfg, i), i - cfg.skip, 2.0, 0.5);
    UniverseIsDistinct(cfg);
  }

  // ---- the rebalance bars ----

  /** The remainder is the only one in range. */
  lemma {:induction false} RemainderIs(x: int, n: nat, q: int, d: nat)
    requires d < n && x == n * q + d
    ensures x % n == d
  {
    var e, r := q - x / n, x % n - d;
    assert n * e == r by { assert x == n * (x / n) + x % n; }
    if e >= 1 { ProductMono(n, 1, e); } else if e <= -1 { ProductMono(n, e, -1); }
  }

  lemma {:induction false} ProductMono(n: nat, a: int, b: int)
    requires a <= b
    ensures n * a <= n * b
  {
  }

  /** Bars since the last rebalance bar, counting from bar `lookback` on. */
  function Since(cfg: Config, i: int): (d: nat)
    requires cfg.rebalanceDays >= 1
    ensures d < cfg.rebalanceDays
  {
    (i - cfg.lookback) % cfg.rebalanceDays
  }

  /** Since the last rebalance bar no bar rebalances, and that bar does. */
  lemma {:induction false} LastRebalance(cfg: Config, i: int, j: int)
    requires cfg.rebalanceDays >= 1 && i >= cfg.lookback && i - Since(cfg, i) <= j <= i
    ensures IsRebalance(cfg, j) <==> j == i - Since(cfg, i)
  {
    var n, d := cfg.rebalanceDays, Since(cfg, i);
    var x := i - cfg.lookback;
    var q := x / n;
    assert x == n * q + d;
    RemainderIs(j - cfg.lookback, n, q, j - (i - d));
    if q < 0 { ProductMono(n, q, -1); } else { ProductMono(n, 0, q); }
  }

  /** A rebalance bar is the only one of the next `rebalanceDays` bars from it on. */
  lemma {:induction false} NextRebalance(cfg: Config, r: int, j: int)
    requires cfg.rebalanceDays >= 1 && IsRebalance(cfg, r) && r <= j < r + cfg.rebalanceDays
    ensures IsRebalance(cfg, j) <==> j == r
  {
    var n, x := cfg.rebalanceDays, r - cfg.lookback;
    RemainderIs(j - cfg.lookback, n, x / n, j - r);
  }

  lemma {:induction false} OneMoreRebalance(cfg: Config, r: int)
    requires cfg.rebalanceDays >= 1 && IsRebalance(cfg, r)
    ensures IsRebalance(cfg, r + cfg.rebalanceDays)
  {
    var n, x := cfg.rebalanceDays, r - cfg.lookback;
    assert n * (x / n + 1) == n * (x / n) + n;
    RemainderIs(x + n, n, x / n + 1, 0);
  }

  /** There are rebalance bars beyond any bar. */
  lemma {:induction false} SomeRebalance(cfg: Config, from: nat) returns (i: nat)
    requires Runnable(cfg)
    ensures IsRebalance(cfg, i) && i >= from
  {
    var k := MaxInt(0, from - cfg.lookback);
    ProductMono(k, 1, cfg.rebalanceDays);
    i := cfg.lookback + k * cfg.rebalanceDays;
    RemainderIs(i - cfg.lookback, cfg.rebalanceDays, k, 0);
  }

  // ---- the exact condition for a causal position ----

  /** The position earning bar i is the same on any two histories that agree before bar i. */
  ghost predicate PositionIgnores(cfg: Config, i: nat)
    requires Runnable(cfg)
  {
    forall a: Market, b: Market ::
      i < |a.common| && Agree(a, b, i - 1) && Realistic(a, cfg) && Realistic(b, cfg) ==>
        SamePosition(a, b, cfg, i)
  }

  ghost predicate SamePosition(a: Market, b: Market, cfg: Config, i: nat)
    requires Runnable(cfg) && i < |a.common| && i < |b.common|
  {
    Positioned(a, cfg, i, Run(a, cfg, i)) == Positioned(b, cfg, i, Run(b, cfg, i))
  }

  /** What the last rebalance up to bar i read has not come to pass before bar i. */
  predicate StillAhead(cfg: Config, i: nat)
    requires cfg.rebalanceDays >= 1
  {
    i >= cfg.lookback && Since(cfg, i) <= i && Since(cfg, i) <= -cfg.skip
  }

  /**
   * Nothing can ever be held; or, with skip <= 0, what the last choice read lies in the past; or, with
   * skip >= 1, nothing is chosen at bar i or no volatility is targeted.
   */
  predicate Causal(cfg: Config, i: nat)
    requires cfg.rebalanceDays >= 1
  {
    || !CanHold(cfg)
    || (if cfg.skip <= 0 then !StillAhead(cfg, i) else !IsRebalance(cfg, i) || cfg.volTarget <= 0.0)
  }

  /** The exact condition for a causal position, for every configuration and every bar. */
  lemma {:induction false} PositionIsCausalExactly(cfg: Config, i: nat)
    requires Runnable(cfg) && Honest(cfg.sqrt)
    ensures PositionIgnores(cfg, i) <==> Causal(cfg, i)
  {
    if Causal(cfg, i) {
      forall a: Market, b: Market | i < |a.common| && Agree(a, b, i - 1) ensures SamePosition(a, b, cfg, i) {
        CausalCases(a, b, cfg, i);
      }
    } else if cfg.skip <= 0 {
      var a, b := PositionLooksAhead(cfg, i);
      assert !SamePosition(a, b, cfg, i);
    } else {
      var a, b := ExposureReadsItsOwnBar(cfg, i);
      assert !SamePosition(a, b, cfg, i);
    }
  }

  lemma {:induction false} CausalCases(a: Market, b: Market, cfg: Config, i: nat)
    requires Runnable(cfg) && i < |a.common| && Agree(a, b, i - 1) && Causal(cfg, i)
    ensures SamePosition(a, b, cfg, i)
  {
    if !CanHold(cfg) {
      IdleRun(a, b, cfg, i);
      NothingHeldAgrees(a, b, cfg, i, Run(a, cfg, i));
    } else if cfg.skip <= 0 {
      SettledRun(a, b, cfg, i);
    } else {
      NoLookahead(a, b, cfg, i);
      if IsRebalance(cfg, i) { PositionIsCausal(a, b, cfg, i); }
    }
  }

  // ---- a position whose choices all lie in the past ----

  lemma {:induction false} SettledRebalance(cfg: Config, i: nat, j: nat)
    requires Runnable(cfg) && cfg.skip <= 0 && !StillAhead(cfg, i) && j <= i && IsRebalance(cfg, j)
    ensures j - cfg.skip < i
  {
    var r := i - Since(cfg, i);
    if j >= r { LastRebalance(cfg, i, j); }
  }

  lemma {:induction false} SettledStep(a: Market, b: Market, cfg: Config, i: nat, j: nat, st: State)
    requires Runnable(cfg) && cfg.skip <= 0 && !StillAhead(cfg, i)
    requires j < i < |a.common| && Agree(a, b, i - 1)
    ensures Step(a, cfg, j, st) == Step(b, cfg, j, st)
  {
    if IsRebalance(cfg, j) {
      SettledRebalance(cfg, i, j);
      ChoiceAgrees(a, b, cfg, j, i - 1);
      SameChoiceAgrees(a, b, cfg, j, st);
    }
    EarnedAgrees(a, b, j, Positioned(a, cfg, j, st));
  }

  lemma {:induction false} SettledRun(a: Market, b: Market, cfg: Config, i: nat)
    requires Runnable(cfg) && cfg.skip <= 0 && !StillAhead(cfg, i) && i < |a.common| && Agree(a, b, i - 1)
    ensures SamePosition(a, b, cfg, i)
  {
    forall j, st | 0 <= j < i ensures Step(a, cfg, j, st) == Step(b, cfg, j, st) {
      SettledStep(a, b, cfg, i, j, st);
    }
    RunsStayRelated(a, cfg, b, cfg, i, (_, s, t) => s == t);
    if IsRebalance(cfg, i) { SettledRebalance(cfg, i, i); }
  }

  // ---- a position whose last choice read ahead ----

  /** What was chosen at bar r is held until the next rebalance bar. */
  lemma {:induction false} HeldUntil(m: Market, cfg: Config, r: nat, i: nat)
    requires Runnable(cfg) && r <= i < |m.common| && IsRebalance(cfg, r)
    requires forall j :: r < j <= i ==> !IsRebalance(cfg, j)
    ensures Positioned(m, cfg, i, Run(m, cfg, i)).holdings == Select(m, cfg, r)
  {
    if r < i {
      HeldUntil(m, cfg, r, i - 1);
      HeldOneMore(m, cfg, i);
    }
  }

  lemma {:induction false} HeldOneMore(m: Market, cfg: Config, i: nat)
    requires Runnable(cfg) && 0 < i < |m.common| && !IsRebalance(cfg, i)
    ensures Positioned(m, cfg, i, Run(m, cfg, i)).holdings
         == Positioned(m, cfg, i - 1, Run(m, cfg, i - 1)).holdings
  {
    StepHolds(m, cfg, i - 1, Run(m, cfg, i - 1));
  }

  lemma {:induction false} StepHolds(m: Market, cfg: Config, i: nat, st: State)
    requires Runnable(cfg) && i < |m.common|
    ensures Step(m, cfg, i, st).holdings == Positioned(m, cfg, i, st).holdings
  {
  }

  lemma {:induction false} PositionLooksAhead(cfg: Config, i: nat) returns (a: Market, b: Market)
    requires Runnable(cfg) && CanHold(cfg) && cfg.skip <= 0 && StillAhead(cfg, i)
    ensures i < |a.common| && Agree(a, b, i - 1) && Realistic(a, cfg) && Realistic(b, cfg)
    ensures !SamePosition(a, b, cfg, i)
  {
    var r := i - Since(cfg, i);
    forall j | r <= j <= i ensures IsRebalance(cfg, j) <==> j == r { LastRebalance(cfg, i, j); }
    a, b := ChoiceLooksAhead(cfg, r);
    HeldUntil(a, cfg, r, i);
    HeldUntil(b, cfg, r, i);
  }

  // ---- the exact conditions for whole runs ----

  /** Two histories that agree up to bar i - 1 leave the same whole state after it. */
  ghost predicate StateIgnores(cfg: Config)
    requires Runnable(cfg)
  {
    forall a: Market, b: Market, i: nat ::
      i <= |a.common| && Agree(a, b, i - 1) && Realistic(a, cfg) && Realistic(b, cfg) ==> SameState(a, b, cfg, i)
  }

  ghost predicate SameState(a: Market, b: Market, cfg: Config, i: nat)
    requires Runnable(cfg) && i <= |a.common| && i <= |b.common|
  {
    Run(a, cfg, i) == Run(b, cfg, i)
  }

  /** No run looks ahead on its way exactly when skip is not negative or nothing can ever be held. */
  lemma {:induction false} NoLookaheadExactly(cfg: Config)
    requires Runnable(cfg)
    ensures StateIgnores(cfg) <==> cfg.skip >= 0 || !CanHold(cfg)
  {
    if cfg.skip >= 0 || !CanHold(cfg) {
      forall a: Market, b: Market, i: nat | i <= |a.common| && Agree(a, b, i - 1) ensures SameState(a, b, cfg, i) {
        if CanHold(cfg) { NoLookahead(a, b, cfg, i); } else { IdleRun(a, b, cfg, i); }
      }
    } else {
      var i := SomeRebalance(cfg, 0);
      var a, b := StateLooksAhead(cfg, i);
      assert !SameState(a, b, cfg, i + 1);
    }
  }

  lemma {:induction false} StateLooksAhead(cfg: Config, i: nat) returns (a: Market, b: Market)
    requires Runnable(cfg) && CanHold(cfg) && cfg.skip < 0 && IsRebalance(cfg, i)
    ensures |a.common| == |b.common| == i - cfg.skip + 1 && Agree(a, b, i)
    ensures Realistic(a, cfg) && Realistic(b, cfg) && a.symbols != [] && !SameState(a, b, cfg, i + 1)
  {
    a, b := ChoiceLooksAhead(cfg, i);
    HeldAfter(a, cfg, i);
    HeldAfter(b, cfg, i);
  }

  lemma {:induction false} HeldAfter(m: Market, cfg: Config, i: nat)
    requires Runnable(cfg) && i < |m.common| && IsRebalance(cfg, i)
    ensures Run(m, cfg, i + 1).holdings == Select(m, cfg, i)
  {
    StepHolds(m, cfg, i, Run(m, cfg, i));
  }

  // ---- and for the calls that get to their last bar ----

  /** The call passes the guards on the shared calendar and does not end in the index error. */
  ghost predicate Completes(m: Market, cfg: Config)
    requires Runnable(cfg)
  {
    Realistic(m, cfg) && m.symbols != [] && 0 <= cfg.metricsStart < |m.common| && !Overruns(m, cfg)
  }

  /** The same about calls that run to their end. */
  ghost predicate CompletedIgnores(cfg: Config)
    requires Runnable(cfg)
  {
    forall a: Market, b: Market, i: nat ::
      i <= |a.common| && Agree(a, b, i - 1) && Completes(a, cfg) && Completes(b, cfg) ==> SameState(a, b, cfg, i)
  }

  /**
   * A call that runs to its end looks ahead for no histories exactly when skip is not negative, or
   * nothing can be held, or every rebalance is followed by the next before what it reads has closed:
   * then whoever rebalances at all ends in the index error.
   */
  lemma {:induction false} CompletedLooksAheadExactly(cfg: Config)
    requires Runnable(cfg) && cfg.metricsStart >= 0
    ensures CompletedIgnores(cfg) <==> cfg.skip >= 0 || !CanHold(cfg) || cfg.rebalanceDays <= -cfg.skip
  {
    if cfg.skip >= 0 || !CanHold(cfg) {
      NoLookaheadExactly(cfg);
    } else if cfg.rebalanceDays <= -cfg.skip {
      forall a: Market, b: Market, i: nat | i <= |a.common| && Agree(a, b, i - 1) && Completes(a, cfg)
        ensures SameState(a, b, cfg, i)
      {
        NeverRebalances(a, cfg);
        UntouchedRun(a, b, cfg, i);
      }
    } else {
      var i := SomeRebalance(cfg, cfg.metricsStart);
      var a, b := StateLooksAhead(cfg, i);
      LastOneIsCovered(a, cfg, i);
      LastOneIsCovered(b, cfg, i);
      assert !SameState(a, b, cfg, i + 1);
    }
  }

  /** A run whose last rebalance bar can still read what it asks for does not overrun. */
  lemma {:induction false} LastOneIsCovered(m: Market, cfg: Config, r: nat)
    requires Runnable(cfg) && IsRebalance(cfg, r) && cfg.skip < 0 && cfg.rebalanceDays > -cfg.skip
    requires |m.common| == r - cfg.skip + 1
    ensures !Overruns(m, cfg)
  {
    forall j | 0 <= j < |m.common| ensures !OverrunsAt(m, cfg, j) {
      if j >= r { NextRebalance(cfg, r, j); }
    }
  }

  lemma {:induction false} NeverRebalances(m: Market, cfg: Config)
    requires Runnable(cfg) && Completes(m, cfg) && cfg.rebalanceDays <= -cfg.skip
    ensures forall j :: 0 <= j < |m.common| ==> !IsRebalance(cfg, j)
  {
    forall j | 0 <= j < |m.common| ensures !IsRebalance(cfg, j) {
      if IsRebalance(cfg, j) { RebalanceOverruns(m, cfg, j); }
    }
  }

  lemma {:induction false} RebalanceOverruns(m: Market, cfg: Config, j: nat)
    requires Runnable(cfg) && cfg.rebalanceDays <= -cfg.skip && m.symbols != []
    requires j < |m.common| && IsRebalance(cfg, j)
    ensures Overruns(m, cfg)
    decreases |m.common| - j
  {
    if j - cfg.skip >= |m.common| {
      assert OverrunsAt(m, cfg, j);
    } else {
      OneMoreRebalance(cfg, j);
      RebalanceOverruns(m, cfg, j + cfg.rebalanceDays);
    }
  }

  lemma {:induction false} UntouchedRun(a: Market, b: Market, cfg: Config, i: nat)
    requires Runnable(cfg) && i <= |a.common| && a.common == b.common
    requires forall j :: 0 <= j < |a.common| ==> !IsRebalance(cfg, j)
    ensures SameState(a, b, cfg, i)
  {
    RunsStayRelated(a, cfg, b, cfg, i, (_, s: State, t: State) => s == t && s.holdings == []);
  }
}
