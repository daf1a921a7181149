/** Capital only sets the scale, and the evaluated window shows the full run's own returns. */
module PortfolioInvariance {
  import opened Common
  import opened CrossSectional
  import opened PortfolioReport

  // ---- the evaluated window ----

  /** What the loop's running variables say about the recorded equity series after i bars. */
  ghost predicate Recorded(cfg: Config, st: State, i: nat) {
    && |st.raw| == i
    && st.prev == (if i == 0 then cfg.capital else st.raw[i - 1])
    && st.rets == (if i == 0 then [] else ReturnsBetween(st.raw, 1, i))
  }

  lemma {:induction false} StepRecorded(m: Market, cfg: Config, i: nat, st: State)
    requires Runnable(cfg) && i < |m.common| && Recorded(cfg, st, i)
    ensures Recorded(cfg, Step(m, cfg, i, st), i + 1)
  {
    StepRaw(m, cfg, i, st);
    RecordedAfter(cfg, st, Step(m, cfg, i, st), i);
  }

  lemma {:induction false} RecordedAfter(cfg: Config, st: State, next: State, i: nat)
    requires Recorded(cfg, st, i) && next.raw == st.raw + [next.equity] && next.prev == next.equity
    requires next.rets == (if i > 0 && st.prev > 0.0 then st.rets + [next.equity / st.prev - 1.0] else st.rets)
    ensures Recorded(cfg, next, i + 1)
  {
    if i > 0 {
      SameReturns(st.raw, next.raw, 1, i);
      assert next.raw[i - 1] == st.prev;
    }
  }

  lemma {:induction false} RunRecorded(m: Market, cfg: Config, i: nat)
    requires Runnable(cfg) && i <= |m.common|
    ensures Recorded(cfg, Run(m, cfg, i), i)
  {
    forall j, st | 0 <= j < i && Recorded(cfg, st, j) ensures Recorded(cfg, Step(m, cfg, j, st), j + 1) {
      StepRecorded(m, cfg, j, st);
    }
    RunKeeps(m, cfg, i, (j, st) => j >= 0 && Recorded(cfg, st, j));
  }

  lemma {:induction false} SameReturns(a: seq<real>, b: seq<real>, lo: int, hi: int)
    requires 1 <= lo && hi <= |a| && hi <= |b| && a[..MaxInt(0, hi)] == b[..MaxInt(0, hi)]
    ensures ReturnsBetween(a, lo, hi) == ReturnsBetween(b, lo, hi)
    decreases hi - lo
  {
    if lo < hi {
      assert a[..hi][..hi - 1] == a[..hi - 1] && b[..hi][..hi - 1] == b[..hi - 1];
      assert a[..hi][hi - 1] == b[..hi][hi - 1] && a[..hi][hi - 2] == b[..hi][hi - 2];
      SameReturns(a, b, lo, hi - 1);
    }
  }

  lemma {:induction false} ReturnsSplit(raw: seq<real>, lo: int, mid: int, hi: int)
    requires 1 <= lo <= mid <= hi <= |raw|
    ensures ReturnsBetween(raw, lo, hi) == ReturnsBetween(raw, lo, mid) + ReturnsBetween(raw, mid, hi)
    decreases hi - mid
  {
    if mid < hi { ReturnsSplit(raw, lo, mid, hi - 1); }
  }

  lemma RatioKept(x: real, y: real, base: real, capital: real)
    requires x > 0.0 && base > 0.0 && capital > 0.0
    ensures Renormalise(x, base, capital) > 0.0
    ensures Renormalise(y, base, capital) / Renormalise(x, base, capital) == y / x
  {
    var k := capital / base;
    QuotientPositive(capital, base);
    DivMul(x, base, capital);
    DivMul(y, base, capital);
    MulPositive(k, x);
    assert Renormalise(x, base, capital) == k * x && Renormalise(y, base, capital) == k * y;
    DivCancel(k, y, x);
  }

  lemma NonPositiveKept(x: real, base: real, capital: real)
    requires x <= 0.0 && base > 0.0 && capital > 0.0
    ensures Renormalise(x, base, capital) <= 0.0
  {
    var k := capital / base;
    QuotientPositive(capital, base);
    DivMul(x, base, capital);
    MulMono(k, x, 0.0);
  }

  /** The returns of the renormalised curve are those of the raw tail, bar for bar. */
  lemma {:induction false} WindowReturns(raw: seq<real>, m: nat, capital: real, hi: int)
    requires m < |raw| && raw[m] > 0.0 && capital > 0.0 && 1 <= hi <= |raw| - m
    ensures ReturnsBetween(Window(raw, m, capital), 1, hi) == ReturnsBetween(raw, m + 1, m + hi)
  {
    if hi > 1 {
      WindowReturns(raw, m, capital, hi - 1);
      var x, y := raw[m + hi - 2], raw[m + hi - 1];
      if x > 0.0 { RatioKept(x, y, raw[m], capital); } else { NonPositiveKept(x, raw[m], capital); }
    }
  }

  /**
   * The evaluated curve starts at the initial capital, is one constant times the raw tail, and its
   * own returns are the reported ones.
   */
  ghost predicate IsWindow(curve: seq<real>, rets: seq<real>, raw: seq<real>, s: nat, capital: real)
    requires s < |raw| && raw[s] != 0.0
  {
    && |curve| == |raw| - s && curve[0] == capital
    && (forall j :: 0 <= j < |curve| ==> curve[j] == Renormalise(raw[s + j], raw[s], capital))
    && rets == ReturnsBetween(curve, 1, |curve|)
  }

  lemma {:induction false} WindowIsWindow(raw: seq<real>, s: nat, capital: real)
    requires s < |raw| && raw[s] > 0.0 && capital > 0.0
    ensures IsWindow(Window(raw, s, capital), ReturnsBetween(raw, s + 1, |raw|), raw, s, capital)
  {
    WindowReturns(raw, s, capital, |raw| - s);
    SelfRenormalised(raw[s], capital);
  }

  /**
   * Window isolation. With metrics_start_bar = s > 0 the evaluation is such a window, and its
   * returns are precisely what the full run recorded after bar s.
   */
  lemma {:induction false} WindowIsolation(m: Market, cfg: Config, st: State)
    requires Runnable(cfg) && cfg.capital > 0.0 && 0 < cfg.metricsStart < |m.common|
    requires st == Run(m, cfg, |m.common|)
    requires |st.raw| == |m.common| && st.raw[cfg.metricsStart] > 0.0
    ensures Evaluate(cfg, st).Some?
    ensures var s, e := cfg.metricsStart, Evaluate(cfg, st).value;
            && IsWindow(e.curve, e.rets, st.raw, s, cfg.capital)
            && st.rets == ReturnsBetween(st.raw, 1, s + 1) + e.rets
  {
    RunRecorded(m, cfg, |m.common|);
    WindowOfRecorded(cfg, st);
  }

  lemma {:induction false} WindowOfRecorded(cfg: Config, st: State)
    requires cfg.capital > 0.0 && 0 < cfg.metricsStart < |st.raw| && st.raw[cfg.metricsStart] > 0.0
    requires Recorded(cfg, st, |st.raw|)
    ensures Evaluate(cfg, st).Some?
    ensures var s, e := cfg.metricsStart, Evaluate(cfg, st).value;
            && IsWindow(e.curve, e.rets, st.raw, s, cfg.capital)
            && st.rets == ReturnsBetween(st.raw, 1, s + 1) + e.rets
  {
    ReturnsSplit(st.raw, 1, cfg.metricsStart + 1, |st.raw|);
    WindowIsWindow(st.raw, cfg.metricsStart, cfg.capital);
  }

  lemma {:induction false} SelfRenormalised(x: real, capital: real)
    requires x > 0.0
    ensures Renormalise(x, x, capital) == capital
  {
    QuotientIs(x, x, 1.0);
  }

  // ---- scale invariance ----

  function Scale(k: real, x: real): real { k * x }

  function Times(xs: seq<real>, k: real): (r: seq<real>)
    ensures |r| == |xs|
  {
    if xs == [] then [] else Times(xs[..|xs| - 1], k) + [Scale(k, xs[|xs| - 1])]
  }

  function TimesCosts(xs: seq<(int, real)>, k: real): (r: seq<(int, real)>)
    ensures |r| == |xs|
  {
    if xs == [] then []
    else TimesCosts(xs[..|xs| - 1], k) + [(xs[|xs| - 1].0, Scale(k, xs[|xs| - 1].1))]
  }

  /** The same run in another currency unit. */
  function Rescaled(st: State, k: real): State {
    st.(equity := Scale(k, st.equity), totalCost := Scale(k, st.totalCost), raw := Times(st.raw, k),
        costEvents := TimesCosts(st.costEvents, k), prev := Scale(k, st.prev))
  }

  function WithCapital(cfg: Config, k: real): Config { cfg.(capital := Scale(k, cfg.capital)) }

  lemma MaxScales(k: real, x: real)
    requires k > 0.0
    ensures Max(0.0, Scale(k, x)) == Scale(k, Max(0.0, x))
  {
    if x > 0.0 { MulPositive(k, x); } else { MulMono(k, x, 0.0); }
  }

  lemma PositiveScales(k: real, x: real)
    requires k > 0.0
    ensures Scale(k, x) > 0.0 <==> x > 0.0
  {
    if x > 0.0 { MulPositive(k, x); } else { MulMono(k, x, 0.0); }
  }

  lemma RatioScales(k: real, x: real, y: real)
    requires k > 0.0 && y != 0.0
    ensures Scale(k, y) != 0.0 && Scale(k, x) / Scale(k, y) == x / y
  {
    DivCancel(k, x, y);
  }

  lemma SumScales(k: real, x: real, y: real)
    ensures Scale(k, x + y) == Scale(k, x) + Scale(k, y)
    ensures Scale(k, x - y) == Scale(k, x) - Scale(k, y)
  {
  }

  lemma CostScales(k: real, costPct: real, traded: real, equity: real)
    ensures TradeCost(costPct, traded, Scale(k, equity)) == Scale(k, TradeCost(costPct, traded, equity))
  {
  }

  lemma GrowScales(k: real, equity: real, exposure: real, ret: real)
    ensures Grow(Scale(k, equity), exposure, ret) == Scale(k, Grow(equity, exposure, ret))
  {
    var g := 1.0 + exposure * ret;
    assert k * equity * g == k * (equity * g);
  }

  lemma {:induction false} TimesPush(xs: seq<real>, x: real, k: real)
    ensures Times(xs + [x], k) == Times(xs, k) + [Scale(k, x)]
  {
    assert (xs + [x])[..|xs|] == xs;
  }

  lemma {:induction false} TimesCostsPush(xs: seq<(int, real)>, x: (int, real), k: real)
    ensures TimesCosts(xs + [x], k) == TimesCosts(xs, k) + [(x.0, Scale(k, x.1))]
  {
    assert (xs + [x])[..|xs|] == xs;
  }

  /** Nothing a rebalance chooses depends on the capital. */
  lemma {:induction false} ChoicesIgnoreCapital(m: Market, cfg: Config, c: real, i: int)
    requires Runnable(cfg) && 0 <= i < |m.common|
    ensures Select(m, cfg.(capital := c), i) == Select(m, cfg, i)
  {
    RankedIgnoresCapital(m, cfg, c, m.symbols, i);
  }

  lemma {:induction false} WeightsIgnoreCapital(m: Market, cfg: Config, c: real, names: seq<Symbol>, i: int)
    requires 0 <= i < |m.common|
    ensures Shares(m, cfg.(capital := c), names, i) == Shares(m, cfg, names, i)
    ensures NewWeights(m, cfg.(capital := c), names, i) == NewWeights(m, cfg, names, i)
  {
    InversesIgnoreCapital(m, cfg, c, names, i);
  }

  lemma {:induction false} ScaleIgnoresCapital(m: Market, cfg: Config, c: real, names: seq<Symbol>, i: int)
    requires 0 <= i < |m.common|
    ensures Exposure(m, cfg.(capital := c), names, i) == Exposure(m, cfg, names, i)
  {
  }

  lemma {:induction false} RankedIgnoresCapital(m: Market, cfg: Config, c: real, names: seq<Symbol>, i: int)
    requires Runnable(cfg) && 0 <= i < |m.common|
    ensures Ranked(m, cfg.(capital := c), names, i) == Ranked(m, cfg, names, i)
  {
    if names != [] {
      RankedIgnoresCapital(m, cfg, c, names[..|names| - 1], i);
      var s := names[|names| - 1];
      assert Momentum(m, cfg.(capital := c), s, i) == Momentum(m, cfg, s, i);
    }
  }

  lemma {:induction false} InversesIgnoreCapital(m: Market, cfg: Config, c: real, names: seq<Symbol>, i: int)
    requires 0 <= i < |m.common|
    ensures Inverses(m, cfg.(capital := c), names, i) == Inverses(m, cfg, names, i)
  {
    if names != [] {
      InversesIgnoreCapital(m, cfg, c, names[..|names| - 1], i);
      var s := names[|names| - 1];
      assert Vol(m, cfg.(capital := c), s, i) == Vol(m, cfg, s, i);
    }
  }

  lemma {:induction false} RebalanceScales(m: Market, cfg: Config, k: real, i: int, st: State)
    requires Runnable(cfg) && 0 <= i < |m.common| && k > 0.0
    ensures Rebalance(m, WithCapital(cfg, k), i, Rescaled(st, k)) == Rescaled(Rebalance(m, cfg, i, st), k)
  {
    ChoicesIgnoreCapital(m, cfg, Scale(k, cfg.capital), i);
    var names := Select(m, cfg, i);
    WeightsIgnoreCapital(m, cfg, Scale(k, cfg.capital), names, i);
    ScaleIgnoresCapital(m, cfg, Scale(k, cfg.capital), names, i);
    var traded := Traded(m.symbols, NewWeights(m, cfg, names, i), st.weights);
    var cost := TradeCost(cfg.costPct, traded, st.equity);
    CostScales(k, cfg.costPct, traded, st.equity);
    SumScales(k, st.equity, cost);
    SumScales(k, st.totalCost, cost);
    MaxScales(k, st.equity - cost);
    TimesCostsPush(st.costEvents, (i, cost), k);
  }

  lemma {:induction false} RecordScales(i: int, st: State, equity: real, k: real)
    requires k > 0.0
    ensures Record(i, Rescaled(st, k), Scale(k, equity)) == Rescaled(Record(i, st, equity), k)
  {
    var e := Max(0.0, equity);
    MaxScales(k, equity);
    TimesPush(st.raw, e, k);
    PositiveScales(k, st.prev);
    if st.prev > 0.0 { RatioScales(k, e, st.prev); }
  }

  lemma {:induction false} EarnedScales(m: Market, i: int, st: State, k: real)
    requires 0 <= i < |m.common|
    ensures Earned(m, i, Rescaled(st, k)) == Scale(k, Earned(m, i, st))
  {
    if i > 0 {
      GrowScales(k, st.equity, st.exposure, WeightedReturn(m, st.holdings, st.weights, i));
    }
  }

  lemma {:induction false} PositionScales(m: Market, cfg: Config, k: real, i: int, st: State)
    requires Runnable(cfg) && 0 <= i < |m.common| && k > 0.0
    ensures Positioned(m, WithCapital(cfg, k), i, Rescaled(st, k)) == Rescaled(Positioned(m, cfg, i, st), k)
  {
    if IsRebalance(cfg, i) { RebalanceScales(m, cfg, k, i, st); }
  }

  lemma {:induction false} StepScales(m: Market, cfg: Config, k: real, i: int, st: State)
    requires Runnable(cfg) && 0 <= i < |m.common| && k > 0.0
    ensures Step(m, WithCapital(cfg, k), i, Rescaled(st, k)) == Rescaled(Step(m, cfg, i, st), k)
  {
    var held := Positioned(m, cfg, i, st);
    PositionScales(m, cfg, k, i, st);
    EarnedScales(m, i, held, k);
    RecordScales(i, held, Earned(m, i, held), k);
  }

  lemma {:induction false} StartScales(cfg: Config, k: real)
    ensures Start(WithCapital(cfg, k)) == Rescaled(Start(cfg), k)
  {
  }

  /** k times the capital: k times the unrounded equity, same holdings, weights and returns. */
  lemma {:induction false} ScaleInvariance(m: Market, cfg: Config, k: real, i: int)
    requires Runnable(cfg) && 0 <= i <= |m.common| && k > 0.0
    ensures Run(m, WithCapital(cfg, k), i) == Rescaled(Run(m, cfg, i), k)
  {
    var other := WithCapital(cfg, k);
    forall j, s, t | 0 <= j < i && t == Rescaled(s, k)
      ensures Step(m, other, j, t) == Rescaled(Step(m, cfg, j, s), k)
    {
      StepScales(m, cfg, k, j, s);
    }
    StartScales(cfg, k);
    RunsStayRelated(m, cfg, m, other, i, (_, s, t) => t == Rescaled(s, k));
  }

  // ---- ... and every percentage metric is unchanged ----

  lemma {:induction false} TimesAt(xs: seq<real>, k: real, j: int)
    requires 0 <= j < |xs|
    ensures Times(xs, k)[j] == Scale(k, xs[j])
  {
    if j < |xs| - 1 { TimesAt(xs[..|xs| - 1], k, j); }
  }

  lemma {:induction false} ReturnsScale(raw: seq<real>, k: real, lo: int, hi: int)
    requires k > 0.0 && 1 <= lo && hi <= |raw|
    ensures ReturnsBetween(Times(raw, k), lo, hi) == ReturnsBetween(raw, lo, hi)
    decreases hi - lo
  {
    if lo < hi {
      ReturnsScale(raw, k, lo, hi - 1);
      TimesAt(raw, k, hi - 1);
      TimesAt(raw, k, hi - 2);
      PositiveScales(k, raw[hi - 2]);
      if raw[hi - 2] > 0.0 { RatioScales(k, raw[hi - 1], raw[hi - 2]); }
    }
  }

  lemma RenormaliseScales(k: real, x: real, base: real, capital: real)
    requires k > 0.0 && base > 0.0
    ensures Scale(k, base) > 0.0
    ensures Renormalise(Scale(k, x), Scale(k, base), Scale(k, capital))
         == Scale(k, Renormalise(x, base, capital))
  {
    PositiveScales(k, base);
    RatioScales(k, x, base);
    var q := x / base;
    assert q * (k * capital) == k * (q * capital);
  }

  lemma {:induction false} SequenceIsTimes(a: seq<real>, b: seq<real>, k: real)
    requires |a| == |b| && forall j :: 0 <= j < |a| ==> b[j] == Scale(k, a[j])
    ensures b == Times(a, k)
  {
    forall j | 0 <= j < |a| ensures b[j] == Times(a, k)[j] { TimesAt(a, k, j); }
  }

  lemma {:induction false} WindowScales(raw: seq<real>, k: real, m: nat, capital: real)
    requires k > 0.0 && m < |raw| && raw[m] > 0.0
    ensures Times(raw, k)[m] > 0.0
    ensures Window(Times(raw, k), m, Scale(k, capital)) == Times(Window(raw, m, capital), k)
  {
    TimesAt(raw, k, m);
    PositiveScales(k, raw[m]);
    var a, b := Window(raw, m, capital), Window(Times(raw, k), m, Scale(k, capital));
    forall j | 0 <= j < |a| ensures b[j] == Scale(k, a[j]) {
      TimesAt(raw, k, m + j);
      RenormaliseScales(k, raw[m + j], raw[m], capital);
    }
    SequenceIsTimes(a, b, k);
  }

  lemma {:induction false} CostFromScales(events: seq<(int, real)>, k: real, m: int)
    ensures CostFrom(TimesCosts(events, k), m) == Scale(k, CostFrom(events, m))
  {
    if events != [] {
      var n := |events| - 1;
      CostFromScales(events[..n], k, m);
      assert TimesCosts(events, k)[..n] == TimesCosts(events[..n], k);
      SumScales(k, CostFrom(events[..n], m), events[n].1);
    }
  }

  lemma {:induction false} PeakScales(curve: seq<real>, k: real, capital: real)
    requires k > 0.0
    ensures PeakOf(Times(curve, k), Scale(k, capital)) == Scale(k, PeakOf(curve, capital))
  {
    if curve != [] {
      var n := |curve| - 1;
      PeakScales(curve[..n], k, capital);
      assert Times(curve, k)[..n] == Times(curve[..n], k);
      OrderScales(k, PeakOf(curve[..n], capital), curve[n]);
    }
  }

  lemma OrderScales(k: real, a: real, b: real)
    requires k > 0.0
    ensures a >= b <==> Scale(k, a) >= Scale(k, b)
  {
    SumScales(k, b, a);
    PositiveScales(k, b - a);
  }

  lemma DrawdownScales(k: real, eq: real, peak: real)
    requires k > 0.0 && peak > 0.0
    ensures Scale(k, peak) > 0.0
    ensures DrawdownAt(Scale(k, eq), Scale(k, peak)) == DrawdownAt(eq, peak)
  {
    PositiveScales(k, peak);
    SumScales(k, peak, eq);
    RatioScales(k, peak - eq, peak);
  }

  lemma {:induction false} MaxDrawdownScales(curve: seq<real>, k: real, capital: real)
    requires k > 0.0
    ensures MaxDrawdown(Times(curve, k), Scale(k, capital)) == MaxDrawdown(curve, capital)
  {
    if curve != [] {
      var n := |curve| - 1;
      MaxDrawdownScales(curve[..n], k, capital);
      assert Times(curve, k)[..n] == Times(curve[..n], k);
      var peak := PeakOf(curve, capital);
      PeakScales(curve, k, capital);
      PositiveScales(k, peak);
      if peak > 0.0 { DrawdownScales(k, curve[n], peak); }
    }
  }

  lemma ReturnPctScales(k: real, final: real, capital: real)
    requires k > 0.0
    ensures ReturnPct(Scale(k, final), Scale(k, capital)) == ReturnPct(final, capital)
  {
    PositiveScales(k, capital);
    if capital > 0.0 { RatioScales(k, final, capital); }
  }

  lemma PctScales(k: real, x: real, base: real)
    requires k > 0.0
    ensures PctOf(Scale(k, x), Scale(k, base)) == PctOf(x, base)
  {
    PositiveScales(k, base);
    if base > 0.0 { RatioScales(k, x, base); }
  }

  lemma {:induction false} EvaluateFromScales(st: State, start: nat, capital: real, k: real)
    requires k > 0.0 && 0 < start < |st.raw| && st.raw[start] > 0.0
    ensures Rescaled(st, k).raw[start] > 0.0
    ensures var e := EvaluateFrom(st, start, capital);
            EvaluateFrom(Rescaled(st, k), start, Scale(k, capital)) == e.(curve := Times(e.curve, k))
  {
    TimesAt(st.raw, k, start);
    WindowScales(st.raw, k, start, capital);
    ReturnsScale(st.raw, k, start + 1, |st.raw|);
    CostFromScales(st.costEvents, k, start);
    PctScales(k, CostFrom(st.costEvents, start), st.raw[start]);
  }

  lemma {:induction false} EvaluationScales(cfg: Config, st: State, k: real)
    requires k > 0.0 && 0 <= cfg.metricsStart < |st.raw|
    ensures Evaluate(WithCapital(cfg, k), Rescaled(st, k)) ==
      match Evaluate(cfg, st)
      case None => None
      case Some(e) => Some(e.(curve := Times(e.curve, k)))
  {
    var s := cfg.metricsStart;
    PctScales(k, st.totalCost, cfg.capital);
    TimesAt(st.raw, k, s);
    PositiveScales(k, st.raw[s]);
    if s > 0 && st.raw[s] > 0.0 { EvaluateFromScales(st, s, cfg.capital, k); }
  }

  lemma {:induction false} MetricsScale(
    m: Market, cfg: Config, curve: seq<real>, rets: seq<real>, costPct: real, k: real)
    requires k > 0.0 && 0 <= cfg.metricsStart < |m.common| && curve != []
    ensures MetricsOf(m, WithCapital(cfg, k), Times(curve, k), rets, costPct)
         == MetricsOf(m, cfg, curve, rets, costPct)
  {
    MaxDrawdownScales(curve, k, cfg.capital);
    TotalScales(curve, cfg.capital, k);
    CagrScales(m, cfg, curve, k);
    FactorScales(k, cfg.capital, Benchmark(m, cfg.metricsStart + 1, |m.common|));
  }

  lemma {:induction false} CagrScales(m: Market, cfg: Config, curve: seq<real>, k: real)
    requires k > 0.0 && 0 <= cfg.metricsStart < |m.common| && curve != []
    ensures CagrOf(m, WithCapital(cfg, k), Times(curve, k)) == CagrOf(m, cfg, curve)
  {
    var final := curve[|curve| - 1];
    TimesAt(curve, k, |curve| - 1);
    PositiveScales(k, cfg.capital);
    PositiveScales(k, final);
    if cfg.capital > 0.0 { RatioScales(k, final, cfg.capital); }
  }

  lemma {:induction false} TotalScales(curve: seq<real>, capital: real, k: real)
    requires k > 0.0 && curve != []
    ensures ReturnPct(LastOr(Times(curve, k), Scale(k, capital)), Scale(k, capital))
         == ReturnPct(LastOr(curve, capital), capital)
  {
    TimesAt(curve, k, |curve| - 1);
    ReturnPctScales(k, curve[|curve| - 1], capital);
  }

  lemma {:induction false} FactorScales(k: real, capital: real, factor: real)
    requires k > 0.0
    ensures FactorPct(factor, Scale(k, capital)) == FactorPct(factor, capital)
  {
    ScaleFactor(k, capital, factor);
    ReturnPctScales(k, capital * factor, capital);
  }

  lemma {:induction false} ScaleFactor(k: real, x: real, factor: real)
    ensures Scale(k, x) * factor == Scale(k, x * factor)
  {
  }

  function TimesCurve(curve: seq<(int, real)>, k: real): seq<(int, real)> {
    seq(|curve|, j requires 0 <= j < |curve| => (curve[j].0, Scale(k, curve[j].1)))
  }

  lemma {:induction false} DatedTimes(dates: seq<int>, xs: seq<real>, k: real)
    requires |dates| == |xs|
    ensures Dated(dates, Times(xs, k)) == TimesCurve(Dated(dates, xs), k)
  {
    forall j | 0 <= j < |xs| ensures Times(xs, k)[j] == Scale(k, xs[j]) { TimesAt(xs, k, j); }
  }

  /** The universe, the calendar and the guards do not look at the capital. */
  lemma {:induction false} SetupIgnoresCapital(prices: seq<Series>, cfg: Config, c: real)
    ensures Working(prices, cfg.(capital := c)) == Working(prices, cfg)
    ensures Dropped(prices, cfg.(capital := c)) == Dropped(prices, cfg)
    ensures Guard(prices, cfg.(capital := c)) == Guard(prices, cfg)
  {
  }

  /** A finished run turned into a report. */
  function Finish(prices: seq<Series>, cfg: Config, m: Market, st: State): Outcome
    requires Guard(prices, cfg).None? && m == MarketOf(Working(prices, cfg)) && |st.raw| == |m.common|
  {
    match Evaluate(cfg, st)
    case None => Err(EquityDepleted)
    case Some(e) => Ok(ReportOf(prices, cfg, st, e, MetricsOf(m, cfg, e.curve, e.rets, e.costPct)))
  }

  function InUnits(out: Outcome, k: real): Outcome {
    match out
    case Ok(r) => Ok(r.(curve := TimesCurve(r.curve, k)))
    case _ => out
  }

  lemma {:induction false} FinishScales(prices: seq<Series>, cfg: Config, m: Market, st: State, k: real)
    requires Guard(prices, cfg).None? && m == MarketOf(Working(prices, cfg)) && |st.raw| == |m.common|
    requires k > 0.0
    ensures Guard(prices, WithCapital(cfg, k)).None? && Working(prices, WithCapital(cfg, k)) == Working(prices, cfg)
    ensures Finish(prices, WithCapital(cfg, k), m, Rescaled(st, k)) == InUnits(Finish(prices, cfg, m, st), k)
  {
    SetupIgnoresCapital(prices, cfg, Scale(k, cfg.capital));
    EvaluationScales(cfg, st, k);
    match Evaluate(cfg, st)
    case None =>
    case Some(e) =>
      MetricsScale(m, cfg, e.curve, e.rets, e.costPct, k);
      DatedTimes(m.common[cfg.metricsStart..], e.curve, k);
  }

  lemma {:induction false} OverrunIgnoresCapital(m: Market, cfg: Config, c: real)
    requires cfg.rebalanceDays >= 1
    ensures Overruns(m, cfg.(capital := c)) == Overruns(m, cfg)
  {
    assert forall i :: OverrunsAt(m, cfg.(capital := c), i) == OverrunsAt(m, cfg, i);
  }

  lemma {:induction false} BacktestFinishes(prices: seq<Series>, raw: Config)
    requires Guard(prices, Normalised(raw)).None?
    ensures var cfg := Normalised(raw);
            var m := MarketOf(Working(prices, cfg));
            && Runnable(cfg) && |Run(m, cfg, |m.common|).raw| == |m.common|
            && Backtest(prices, raw)
            == if Overruns(m, cfg) then Raised else Finish(prices, cfg, m, Run(m, cfg, |m.common|))
  {
    var cfg := Normalised(raw);
    var m := MarketOf(Working(prices, cfg));
    RawLength(m, cfg, |m.common|);
  }

  /**
   * The whole call: with k times the capital the same error comes back, or the same report -
   * every metric, the holdings, the weights, the daily returns - with the curve k times as high.
   */
  lemma {:induction false} BacktestScales(prices: seq<Series>, raw: Config, k: real)
    requires k > 0.0
    ensures Backtest(prices, WithCapital(raw, k)) == InUnits(Backtest(prices, raw), k)
  {
    var cfg := Normalised(raw);
    assert Normalised(WithCapital(raw, k)) == WithCapital(cfg, k);
    SetupIgnoresCapital(prices, cfg, Scale(k, cfg.capital));
    if Guard(prices, cfg).None? {
      var m := MarketOf(Working(prices, cfg));
      OverrunIgnoresCapital(m, cfg, Scale(k, cfg.capital));
      BacktestFinishes(prices, raw);
      BacktestFinishes(prices, WithCapital(raw, k));
      ScaleInvariance(m, cfg, k, |m.common|);
      FinishScales(prices, cfg, m, Run(m, cfg, |m.common|), k);
    }
  }
}
