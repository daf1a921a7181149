/**
 * The cross-sectional momentum backtester as a transition system over trading days: what one
 * bar does to equity, holdings, weights and exposure, and the loops that compute it.
 */
module CrossSectional {
  import opened Common
  import opened CapWeights

  type Symbol = string

  /** The aligned market: common dates, universe, and each symbol's close by date. */
  datatype Market = Market(common: seq<int>, symbols: seq<Symbol>, px: map<Symbol, map<int, real>>)

  /**
   * Run parameters. `sqrt` stands for the library square root and may be any function, and so may
   * `annualised`, the yearly growth of a total growth factor between two dates.
   */
  datatype Config = Config(
    topN: int, rebalanceDays: int, lookback: int, skip: int, capital: real, costPct: real,
    regimeFilter: bool, minBreadth: real, volTarget: real, volWindow: int, maxLeverage: real,
    inverseVol: bool, metricsStart: int, periodsPerYear: real, sqrt: real -> real,
    annualised: (real, int, int) -> real)

  /** What the guards and the clamps on the parameters leave; a negative `skip` passes them. */
  ghost predicate Runnable(cfg: Config) {
    cfg.rebalanceDays >= 1 && cfg.volWindow >= 2 && cfg.skip < cfg.lookback
  }

  // ---- price access ----

  /** A missing close and a zero close are indistinguishable to the code: both are falsy. */
  function Close(m: Market, s: Symbol, d: int): real {
    if s in m.px && d in m.px[s] then m.px[s][d] else 0.0
  }

  function At(m: Market, s: Symbol, k: int): real
    requires 0 <= k < |m.common|
  {
    Close(m, s, m.common[k])
  }

  /** The return of `s` into bar k, when both closes are usable. */
  function DayReturn(m: Market, s: Symbol, k: int): Option<real>
    requires 1 <= k < |m.common|
  {
    var p0, p1 := At(m, s, k - 1), At(m, s, k);
    if p0 != 0.0 && p1 != 0.0 && p0 > 0.0 then Some(p1 / p0 - 1.0) else None
  }

  function Push(xs: seq<real>, x: Option<real>): seq<real> {
    match x case Some(v) => xs + [v] case None => xs
  }

  // ---- ranking ----

  /** Past the last bar the source raises an index error instead; see `Overruns`. */
  function Momentum(m: Market, cfg: Config, s: Symbol, i: int): Option<real>
    requires 0 <= i < |m.common| && Runnable(cfg)
  {
    if i - cfg.lookback < 0 || i - cfg.skip >= |m.common| then None
    else
      var now, past := At(m, s, i - cfg.skip), At(m, s, i - cfg.lookback);
      if now == 0.0 || past == 0.0 || past <= 0.0 then None else Some(now / past - 1.0)
  }

  datatype Rank = Rank(name: Symbol, score: Option<real>)

  /** Sort key (score known, score), descending; an earlier entry stays ahead of its equals. */
  predicate Ahead(a: Rank, b: Rank) {
    b.score.None? || (a.score.Some? && a.score.value >= b.score.value)
  }

  function InsertRank(sorted: seq<Rank>, x: Rank): seq<Rank> {
    if sorted == [] then [x]
    else if Ahead(sorted[|sorted| - 1], x) then sorted + [x]
    else InsertRank(sorted[..|sorted| - 1], x) + [sorted[|sorted| - 1]]
  }

  function Ranked(m: Market, cfg: Config, names: seq<Symbol>, i: int): seq<Rank>
    requires 0 <= i < |m.common| && Runnable(cfg)
  {
    if names == [] then []
    else
      var last := names[|names| - 1];
      InsertRank(Ranked(m, cfg, names[..|names| - 1], i), Rank(last, Momentum(m, cfg, last, i)))
  }

  predicate IsPositive(r: Rank) { r.score.Some? && r.score.value > 0.0 }

  function PositiveNames(rs: seq<Rank>): seq<Symbol> {
    if rs == [] then []
    else PositiveNames(rs[..|rs| - 1]) + if IsPositive(rs[|rs| - 1]) then [rs[|rs| - 1].name] else []
  }

  function ScoredCount(rs: seq<Rank>): nat {
    if rs == [] then 0
    else ScoredCount(rs[..|rs| - 1]) + if rs[|rs| - 1].score.Some? then 1 else 0
  }

  function Breadth(rs: seq<Rank>): real {
    if ScoredCount(rs) == 0 then 0.0
    else |PositiveNames(rs)| as real / ScoredCount(rs) as real
  }

  function Select(m: Market, cfg: Config, i: int): seq<Symbol>
    requires 0 <= i < |m.common| && Runnable(cfg)
  {
    var ranked := Ranked(m, cfg, m.symbols, i);
    if cfg.regimeFilter && Breadth(ranked) < cfg.minBreadth then []
    else PositiveNames(SliceTo(ranked, cfg.topN))
  }

  // ---- volatility ----

  function Mean(xs: seq<real>): real
    requires xs != []
  {
    Sum(xs) / |xs| as real
  }

  function SquaredDeviations(xs: seq<real>, mean: real): real {
    if xs == [] then 0.0
    else SquaredDeviations(xs[..|xs| - 1], mean) + (xs[|xs| - 1] - mean) * (xs[|xs| - 1] - mean)
  }

  function Std(cfg: Config, xs: seq<real>): real
    requires |xs| >= 2
  {
    cfg.sqrt(SquaredDeviations(xs, Mean(xs)) / (|xs| - 1) as real)
  }

  /** Usable returns of one name into bars lo, ..., hi - 1. */
  function NameReturns(m: Market, s: Symbol, lo: int, hi: int): seq<real>
    requires 1 <= lo && hi <= |m.common|
    decreases hi - lo
  {
    if hi <= lo then [] else Push(NameReturns(m, s, lo, hi - 1), DayReturn(m, s, hi - 1))
  }

  /** Usable returns of several names into bar k. */
  function CrossReturns(m: Market, names: seq<Symbol>, k: int): seq<real>
    requires 1 <= k < |m.common|
  {
    if names == [] then []
    else Push(CrossReturns(m, names[..|names| - 1], k), DayReturn(m, names[|names| - 1], k))
  }

  function CrossMean(m: Market, names: seq<Symbol>, k: int): Option<real>
    requires 1 <= k < |m.common|
  {
    var day := CrossReturns(m, names, k);
    if day != [] then Some(Mean(day)) else None
  }

  /** Equal-weight returns of the basket into bars lo, ..., hi - 1. */
  function BasketReturns(m: Market, names: seq<Symbol>, lo: int, hi: int): seq<real>
    requires 1 <= lo && hi <= |m.common|
    decreases hi - lo
  {
    if hi <= lo then [] else Push(BasketReturns(m, names, lo, hi - 1), CrossMean(m, names, hi - 1))
  }

  function ExposureOf(cfg: Config, rets: seq<real>): real {
    if |rets| < 2 then 1.0
    else
      var annVol := Std(cfg, rets) * cfg.sqrt(252.0);
      if annVol <= 0.0 then 1.0 else Min(cfg.maxLeverage, cfg.volTarget / annVol)
  }

  /** The vol-target scale: it reads returns up to and including bar i. */
  function Exposure(m: Market, cfg: Config, names: seq<Symbol>, i: int): real
    requires 0 <= i < |m.common|
  {
    if cfg.volTarget <= 0.0 || names == [] then 1.0
    else ExposureOf(cfg, BasketReturns(m, names, MaxInt(1, i - cfg.volWindow + 1), i + 1))
  }

  // ---- weights ----

  /** Python's dict built from two parallel lists. */
  function Zip(names: seq<Symbol>, ws: seq<real>): map<Symbol, real>
    requires |names| == |ws|
  {
    if names == [] then map[]
    else
      var n := |names| - 1;
      Zip(names[..n], ws[..n])[names[n] := ws[n]]
  }

  function Weight(w: map<Symbol, real>, s: Symbol): real { if s in w then w[s] else 0.0 }

  function EqualShares(n: nat): seq<real> { seq(n, _ => if n == 0 then 0.0 else 1.0 / n as real) }

  /** A name's realized vol over the bars strictly before i. */
  function Vol(m: Market, cfg: Config, s: Symbol, i: int): Option<real>
    requires 0 <= i < |m.common|
  {
    var rets := NameReturns(m, s, MaxInt(1, i - cfg.volWindow), i);
    if |rets| < 2 then None else Some(Std(cfg, rets))
  }

  /** The inverse of every vol, or None when some vol is missing or not positive. */
  function Inverses(m: Market, cfg: Config, names: seq<Symbol>, i: int): Option<seq<real>>
    requires 0 <= i < |m.common|
  {
    if names == [] then Some([])
    else
      var n := |names| - 1;
      match (Inverses(m, cfg, names[..n], i), Vol(m, cfg, names[n], i))
      case (Some(inv), Some(v)) => if v > 0.0 then Some(inv + [1.0 / v]) else None
      case _ => None
  }

  function Scaled(xs: seq<real>, total: real): (r: seq<real>)
    requires total != 0.0
    ensures |r| == |xs|
  {
    seq(|xs|, i requires 0 <= i < |xs| => xs[i] / total)
  }

  /** The new weights, aligned with `names`, and whether inverse-vol fell back to equal. */
  function Shares(m: Market, cfg: Config, names: seq<Symbol>, i: int): (seq<real>, bool)
    requires 0 <= i < |m.common|
  {
    var equal := EqualShares(|names|);
    if !cfg.inverseVol || names == [] then (equal, false)
    else
      match Inverses(m, cfg, names, i)
      case None => (equal, true)
      case Some(inv) =>
        if Sum(inv) <= 0.0 then (equal, true) else (Capped(Scaled(inv, Sum(inv))), false)
  }

  lemma {:induction false} SharesLength(m: Market, cfg: Config, names: seq<Symbol>, i: int)
    requires 0 <= i < |m.common|
    ensures |Shares(m, cfg, names, i).0| == |names|
  {
    InversesLength(m, cfg, names, i);
  }

  lemma {:induction false} InversesLength(m: Market, cfg: Config, names: seq<Symbol>, i: int)
    requires 0 <= i < |m.common|
    ensures Inverses(m, cfg, names, i).Some? ==> |Inverses(m, cfg, names, i).value| == |names|
  {
    if names != [] { InversesLength(m, cfg, names[..|names| - 1], i); }
  }

  function NewWeights(m: Market, cfg: Config, names: seq<Symbol>, i: int): map<Symbol, real>
    requires 0 <= i < |m.common|
  {
    SharesLength(m, cfg, names, i);
    Zip(names, Shares(m, cfg, names, i).0)
  }

  /** Sum of |change of weight| over the universe. */
  function Traded(symbols: seq<Symbol>, w: map<Symbol, real>, before: map<Symbol, real>): real {
    if symbols == [] then 0.0
    else
      var s := symbols[|symbols| - 1];
      Traded(symbols[..|symbols| - 1], w, before) + Abs(Weight(w, s) - Weight(before, s))
  }

  // ---- one day ----

  datatype State = State(
    equity: real, holdings: seq<Symbol>, exposure: real, weights: map<Symbol, real>,
    totalCost: real, raw: seq<real>, costEvents: seq<(int, real)>, prev: real,
    rets: seq<real>, fallbacks: nat)

  function Start(cfg: Config): State {
    State(cfg.capital, [], 1.0, map[], 0.0, [], [], cfg.capital, [], 0)
  }

  predicate IsRebalance(cfg: Config, i: int)
    requires cfg.rebalanceDays >= 1
  {
    i >= cfg.lookback && (i - cfg.lookback) % cfg.rebalanceDays == 0
  }

  /** A rebalance that asks for a close past the last bar, which only a negative `skip` can do. */
  predicate OverrunsAt(m: Market, cfg: Config, i: int)
    requires cfg.rebalanceDays >= 1
  {
    IsRebalance(cfg, i) && m.symbols != [] && i - cfg.skip >= |m.common|
  }

  predicate Overruns(m: Market, cfg: Config)
    requires cfg.rebalanceDays >= 1
  {
    exists i :: 0 <= i < |m.common| && OverrunsAt(m, cfg, i)
  }

  function TradeCost(costPct: real, traded: real, equity: real): real { costPct * traded * equity }

  function Rebalance(m: Market, cfg: Config, i: int, st: State): State
    requires 0 <= i < |m.common| && Runnable(cfg)
  {
    var holdings := Select(m, cfg, i);
    var w := NewWeights(m, cfg, holdings, i);
    var cost := TradeCost(cfg.costPct, Traded(m.symbols, w, st.weights), st.equity);
    st.(equity := Max(0.0, st.equity - cost),
        holdings := holdings,
        exposure := Exposure(m, cfg, holdings, i),
        weights := w,
        totalCost := st.totalCost + cost,
        costEvents := st.costEvents + [(i, cost)],
        fallbacks := st.fallbacks + if Shares(m, cfg, holdings, i).1 then 1 else 0)
  }

  /** The position in force when bar i's return is earned. */
  function Positioned(m: Market, cfg: Config, i: int, st: State): State
    requires 0 <= i < |m.common| && Runnable(cfg)
  {
    if IsRebalance(cfg, i) then Rebalance(m, cfg, i, st) else st
  }

  function Contribution(m: Market, w: map<Symbol, real>, s: Symbol, i: int): real
    requires 1 <= i < |m.common|
  {
    match DayReturn(m, s, i)
    case Some(r) => Weight(w, s) * r
    case None => 0.0
  }

  /** Weighted return of the holdings into bar i, over the names that have one. */
  function WeightedReturn(m: Market, names: seq<Symbol>, w: map<Symbol, real>, i: int): real
    requires 1 <= i < |m.common|
  {
    if names == [] then 0.0
    else
      WeightedReturn(m, names[..|names| - 1], w, i) + Contribution(m, w, names[|names| - 1], i)
  }

  predicate AnyReturn(m: Market, names: seq<Symbol>, i: int)
    requires 1 <= i < |m.common|
  {
    exists j :: 0 <= j < |names| && DayReturn(m, names[j], i).Some?
  }

  function Grow(equity: real, exposure: real, ret: real): real { equity * (1.0 + exposure * ret) }

  function Earned(m: Market, i: int, st: State): real
    requires 0 <= i < |m.common|
  {
    if st.holdings == [] || i == 0 || !AnyReturn(m, st.holdings, i) then st.equity
    else Grow(st.equity, st.exposure, WeightedReturn(m, st.holdings, st.weights, i))
  }

  function Record(i: int, st: State, equity: real): State {
    var e := Max(0.0, equity);
    st.(equity := e,
        raw := st.raw + [e],
        rets := if i > 0 && st.prev > 0.0 then st.rets + [e / st.prev - 1.0] else st.rets,
        prev := e)
  }

  function Step(m: Market, cfg: Config, i: int, st: State): State
    requires 0 <= i < |m.common| && Runnable(cfg)
  {
    var held := Positioned(m, cfg, i, st);
    Record(i, held, Earned(m, i, held))
  }

  /** The state after bars 0, ..., i - 1. */
  function Run(m: Market, cfg: Config, i: int): State
    requires 0 <= i <= |m.common| && Runnable(cfg)
  {
    if i == 0 then Start(cfg) else Step(m, cfg, i - 1, Run(m, cfg, i - 1))
  }

  /** An invariant of the start and of every step holds after every run. */
  lemma {:induction false} RunKeeps(m: Market, cfg: Config, n: int, inv: (int, State) -> bool)
    requires 0 <= n <= |m.common| && Runnable(cfg) && inv(0, Start(cfg))
    requires forall i, st :: 0 <= i < n && inv(i, st) ==> inv(i + 1, Step(m, cfg, i, st))
    ensures inv(n, Run(m, cfg, n))
  {
    if n > 0 { RunKeeps(m, cfg, n - 1, inv); }
  }

  /** The same for two runs side by side. */
  lemma {:induction false} RunsStayRelated(
    m: Market, a: Config, k: Market, b: Config, n: int, rel: (int, State, State) -> bool)
    requires 0 <= n <= |m.common| && n <= |k.common| && Runnable(a) && Runnable(b) && rel(0, Start(a), Start(b))
    requires forall i, s, t :: 0 <= i < n && rel(i, s, t) ==> rel(i + 1, Step(m, a, i, s), Step(k, b, i, t))
    ensures rel(n, Run(m, a, n), Run(k, b, n))
  {
    if n > 0 { RunsStayRelated(m, a, k, b, n - 1, rel); }
  }

  // ---- the loops ----

  method ComputeNameReturns(m: Market, s: Symbol, lo: int, hi: int) returns (rets: seq<real>)
    requires 1 <= lo && hi <= |m.common|
    ensures rets == NameReturns(m, s, lo, hi)
  {
    rets := [];
    if hi <= lo { return; }
    for k := lo to hi
      invariant rets == NameReturns(m, s, lo, k)
    {
      rets := Push(rets, DayReturn(m, s, k));
    }
  }

  method ComputeCrossReturns(m: Market, names: seq<Symbol>, k: int) returns (day: seq<real>)
    requires 1 <= k < |m.common|
    ensures day == CrossReturns(m, names, k)
  {
    day := [];
    for j := 0 to |names|
      invariant day == CrossReturns(m, names[..j], k)
    {
      assert names[..j + 1][..j] == names[..j];
      day := Push(day, DayReturn(m, names[j], k));
    }
    assert names[..|names|] == names;
  }

  method ComputeExposure(m: Market, cfg: Config, names: seq<Symbol>, i: int) returns (e: real)
    requires 0 <= i < |m.common|
    ensures e == Exposure(m, cfg, names, i)
  {
    if cfg.volTarget <= 0.0 || names == [] { return 1.0; }
    var lo := MaxInt(1, i - cfg.volWindow + 1);
    var rets: seq<real> := [];
    if lo <= i {
      for k := lo to i + 1
        invariant rets == BasketReturns(m, names, lo, k)
      {
        var day := ComputeCrossReturns(m, names, k);
        if day != [] { rets := rets + [Mean(day)]; }
      }
    }
    e := ExposureOf(cfg, rets);
  }

  method ComputeShares(m: Market, cfg: Config, names: seq<Symbol>, i: int)
    returns (ws: seq<real>, fellBack: bool)
    requires 0 <= i < |m.common|
    ensures (ws, fellBack) == Shares(m, cfg, names, i)
  {
    ws, fellBack := EqualShares(|names|), false;
    if !cfg.inverseVol || names == [] { return; }
    var inv: seq<real> := [];
    for j := 0 to |names|
      invariant Inverses(m, cfg, names[..j], i) == Some(inv)
    {
      assert names[..j + 1][..j] == names[..j];
      var rets := ComputeNameReturns(m, names[j], MaxInt(1, i - cfg.volWindow), i);
      if |rets| < 2 || Std(cfg, rets) <= 0.0 {
        NoInverse(m, cfg, names, i, j + 1);
        return ws, true;
      }
      inv := inv + [1.0 / Std(cfg, rets)];
    }
    assert names[..|names|] == names;
    if Sum(inv) <= 0.0 { return ws, true; }
    ws := CapLoop(Scaled(inv, Sum(inv)));
  }

  lemma {:induction false} NoInverse(m: Market, cfg: Config, names: seq<Symbol>, i: int, j: nat)
    requires 0 <= i < |m.common| && j <= |names| && Inverses(m, cfg, names[..j], i).None?
    ensures Inverses(m, cfg, names, i).None?
  {
    if j == |names| {
      assert names[..j] == names;
    } else {
      assert names[..|names| - 1][..j] == names[..j];
      NoInverse(m, cfg, names[..|names| - 1], i, j);
    }
  }

  method ComputeWeightedReturn(m: Market, names: seq<Symbol>, w: map<Symbol, real>, i: int)
    returns (ret: real, any: bool)
    requires 1 <= i < |m.common|
    ensures ret == WeightedReturn(m, names, w, i) && any == AnyReturn(m, names, i)
  {
    ret, any := 0.0, false;
    for j := 0 to |names|
      invariant ret == WeightedReturn(m, names[..j], w, i)
      invariant any == exists k :: 0 <= k < j && DayReturn(m, names[k], i).Some?
    {
      assert names[..j + 1][..j] == names[..j];
      var r := DayReturn(m, names[j], i);
      if r.Some? { ret, any := ret + Contribution(m, w, names[j], i), true; }
    }
    assert names[..|names|] == names;
  }

  method ComputeRebalance(m: Market, cfg: Config, i: int, st: State) returns (next: State)
    requires 0 <= i < |m.common| && Runnable(cfg)
    ensures next == Rebalance(m, cfg, i, st)
  {
    var holdings := Select(m, cfg, i);
    var ws, fellBack := ComputeShares(m, cfg, holdings, i);
    SharesLength(m, cfg, holdings, i);
    var weights := Zip(holdings, ws);
    var cost := TradeCost(cfg.costPct, Traded(m.symbols, weights, st.weights), st.equity);
    var exposure := ComputeExposure(m, cfg, holdings, i);
    next := st.(equity := Max(0.0, st.equity - cost),
                holdings := holdings, weights := weights, exposure := exposure,
                totalCost := st.totalCost + cost,
                costEvents := st.costEvents + [(i, cost)],
                fallbacks := st.fallbacks + if fellBack then 1 else 0);
  }

  method ComputeEarned(m: Market, i: int, st: State) returns (equity: real)
    requires 0 <= i < |m.common|
    ensures equity == Earned(m, i, st)
  {
    equity := st.equity;
    if st.holdings != [] && i > 0 {
      var ret, any := ComputeWeightedReturn(m, st.holdings, st.weights, i);
      if any { equity := Grow(equity, st.exposure, ret); }
    }
  }

  /** The body of the day loop. */
  method ComputeStep(m: Market, cfg: Config, i: int, st: State) returns (next: State)
    requires 0 <= i < |m.common| && Runnable(cfg)
    ensures next == Step(m, cfg, i, st)
  {
    next := st;
    if IsRebalance(cfg, i) { next := ComputeRebalance(m, cfg, i, st); }
    ghost var held := next;
    var equity := ComputeEarned(m, i, next);
    equity := Max(0.0, equity);
    if i > 0 && next.prev > 0.0 { next := next.(rets := next.rets + [equity / next.prev - 1.0]); }
    next := next.(equity := equity, raw := next.raw + [equity], prev := equity);
    assert next == Record(i, held, Earned(m, i, held));
  }

  /** The day loop; `st` bundles its local variables. None stands for the index error. */
  method Simulate(m: Market, cfg: Config) returns (result: Option<State>)
    requires Runnable(cfg)
    ensures result == if Overruns(m, cfg) then None else Some(Run(m, cfg, |m.common|))
  {
    var st := Start(cfg);
    for i := 0 to |m.common|
      invariant st == Run(m, cfg, i) && forall k :: 0 <= k < i ==> !OverrunsAt(m, cfg, k)
    {
      if OverrunsAt(m, cfg, i) { return None; }
      st := ComputeStep(m, cfg, i, st);
    }
    result := Some(st);
  }
}
