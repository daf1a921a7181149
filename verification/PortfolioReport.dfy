/**
 * From raw price series to a report: the thin-symbol drop, the common calendar, the guards, and
 * the metrics of the evaluated window.
 */
module PortfolioReport {
  import opened Common
  import opened CrossSectional

  datatype Bar = Bar(date: int, close: real)
  datatype Series = Series(symbol: Symbol, bars: seq<Bar>)

  datatype Error =
    | NoPriceData | SkipNotLess | NegativeMetricsStart | EmptyPriceSeries
    | InsufficientHistory | MetricsStartTooLate | EquityDepleted

  datatype Metrics = Metrics(
    totalReturnPct: real, cagrPct: real, sharpe: real, maxDrawdownPct: real, totalCostPct: real,
    buyHoldPct: real, alphaPct: real)

  datatype Report = Report(
    metrics: Metrics, curve: seq<(int, real)>, rets: seq<real>, holdings: seq<Symbol>,
    weights: map<Symbol, real>, nDates: nat, universe: nat, dropped: seq<(Symbol, nat)>,
    evaluatedBars: nat, fallbacks: nat)

  /** `Raised` is the index error of a negative `skip`, which nothing in the engine catches. */
  datatype Outcome = Ok(report: Report) | Err(error: Error) | Raised

  // ---- universe and calendar ----

  function MinBars(cfg: Config): int { cfg.lookback + cfg.skip + 2 }

  function Survivors(prices: seq<Series>, need: int): seq<Series> {
    if prices == [] then []
    else
      var last := prices[|prices| - 1];
      Survivors(prices[..|prices| - 1], need) + if |last.bars| < need then [] else [last]
  }

  function ThinOnes(prices: seq<Series>, need: int): seq<(Symbol, nat)> {
    if prices == [] then []
    else
      var last := prices[|prices| - 1];
      ThinOnes(prices[..|prices| - 1], need)
        + if |last.bars| < need then [(last.symbol, |last.bars|)] else []
  }

  /** Thin symbols are dropped unless fewer than two symbols would be left. */
  function Working(prices: seq<Series>, cfg: Config): seq<Series> {
    var rest := Survivors(prices, MinBars(cfg));
    if |rest| < 2 then prices else rest
  }

  function Dropped(prices: seq<Series>, cfg: Config): seq<(Symbol, nat)> {
    if |Survivors(prices, MinBars(cfg))| < 2 then [] else ThinOnes(prices, MinBars(cfg))
  }

  function SortedDates(bars: seq<Bar>): seq<int> {
    if bars == [] then [] else InsertDate(SortedDates(bars[..|bars| - 1]), bars[|bars| - 1].date)
  }

  /** Dates that every non-empty series has. */
  function SharedDates(dates: seq<int>, working: seq<Series>): seq<int> {
    if dates == [] then []
    else
      var d := dates[|dates| - 1];
      SharedDates(dates[..|dates| - 1], working) + if InAll(working, d) then [d] else []
  }

  predicate InAll(working: seq<Series>, d: int) {
    forall j :: 0 <= j < |working| && working[j].bars != [] ==> d in SortedDates(working[j].bars)
  }

  function FirstNonEmpty(working: seq<Series>): Option<Series> {
    if working == [] then None
    else if working[0].bars != [] then Some(working[0])
    else FirstNonEmpty(working[1..])
  }

  function CommonDates(working: seq<Series>): seq<int> {
    match FirstNonEmpty(working)
    case None => []
    case Some(s) => SharedDates(SortedDates(s.bars), working)
  }

  /** Closes by date; a repeated date keeps its last bar. */
  function Closes(bars: seq<Bar>): map<int, real> {
    if bars == [] then map[]
    else Closes(bars[..|bars| - 1])[bars[|bars| - 1].date := bars[|bars| - 1].close]
  }

  function Table(working: seq<Series>): map<Symbol, map<int, real>> {
    if working == [] then map[]
    else
      var last := working[|working| - 1];
      Table(working[..|working| - 1])[last.symbol := Closes(last.bars)]
  }

  function SymbolsOf(working: seq<Series>): seq<Symbol> {
    seq(|working|, j requires 0 <= j < |working| => working[j].symbol)
  }

  function MarketOf(working: seq<Series>): Market {
    Market(CommonDates(working), SymbolsOf(working), Table(working))
  }

  // ---- metrics over a run ----

  /** raw[i] / raw[i - 1] - 1 for i in lo, ..., hi - 1, where the previous equity is positive. */
  function ReturnsBetween(raw: seq<real>, lo: int, hi: int): seq<real>
    requires 1 <= lo && hi <= |raw|
    decreases hi - lo
  {
    if hi <= lo then []
    else
      ReturnsBetween(raw, lo, hi - 1)
        + if raw[hi - 2] > 0.0 then [raw[hi - 1] / raw[hi - 2] - 1.0] else []
  }

  function Renormalise(x: real, base: real, capital: real): real
    requires base != 0.0
  {
    x / base * capital
  }

  /** The evaluated window, restarted at the initial capital. */
  function Window(raw: seq<real>, m: nat, capital: real): (r: seq<real>)
    requires m < |raw| && raw[m] != 0.0
    ensures |r| == |raw| - m
  {
    seq(|raw| - m, j requires 0 <= j < |raw| - m => Renormalise(raw[m + j], raw[m], capital))
  }

  function PeakOf(curve: seq<real>, capital: real): real {
    if curve == [] then capital else Max(PeakOf(curve[..|curve| - 1], capital), curve[|curve| - 1])
  }

  function DrawdownAt(eq: real, peak: real): real
    requires peak > 0.0
  {
    (peak - eq) / peak * 100.0
  }

  function MaxDrawdown(curve: seq<real>, capital: real): real {
    if curve == [] then 0.0
    else
      var before, peak := MaxDrawdown(curve[..|curve| - 1], capital), PeakOf(curve, capital);
      if peak > 0.0 then Max(before, DrawdownAt(curve[|curve| - 1], peak)) else before
  }

  function PctOf(x: real, capital: real): real { if capital > 0.0 then x / capital * 100.0 else 0.0 }

  function ReturnPct(final: real, capital: real): real {
    if capital > 0.0 then (final / capital - 1.0) * 100.0 else 0.0
  }

  /** The return of the capital grown by a factor. */
  function FactorPct(factor: real, capital: real): real { ReturnPct(capital * factor, capital) }

  /** The compound yearly growth over the calendar span, where there is one to speak of. */
  function Cagr(cfg: Config, n: nat, final: real, capital: real, first: int, last: int): real {
    if n >= 2 && capital > 0.0 && final > 0.0 then (cfg.annualised(final / capital, first, last) - 1.0) * 100.0
    else 0.0
  }

  function Sharpe(cfg: Config, rets: seq<real>): real {
    if |rets| < 2 then 0.0
    else
      var std := Std(cfg, rets);
      if std > 0.0 then Mean(rets) / std * cfg.sqrt(cfg.periodsPerYear) else 0.0
  }

  function CostFrom(events: seq<(int, real)>, m: int): real {
    if events == [] then 0.0
    else
      var e := events[|events| - 1];
      CostFrom(events[..|events| - 1], m) + if e.0 >= m then e.1 else 0.0
  }

  function Compound(factor: real, r: real): real { factor * (1.0 + r) }

  /** Equal-weight buy and hold over bars lo, ..., hi - 1, as a growth factor. */
  function Benchmark(m: Market, lo: int, hi: int): real
    requires 1 <= lo && hi <= |m.common|
    decreases hi - lo
  {
    if hi <= lo then 1.0
    else
      match CrossMean(m, m.symbols, hi - 1)
      case Some(r) => Compound(Benchmark(m, lo, hi - 1), r)
      case None => Benchmark(m, lo, hi - 1)
  }

  function Dated(dates: seq<int>, xs: seq<real>): seq<(int, real)>
    requires |dates| == |xs|
  {
    seq(|xs|, j requires 0 <= j < |xs| => (dates[j], xs[j]))
  }

  function LastOr(xs: seq<real>, default: real): real { if xs == [] then default else xs[|xs| - 1] }

  function CagrOf(m: Market, cfg: Config, curve: seq<real>): real
    requires 0 <= cfg.metricsStart < |m.common|
  {
    Cagr(cfg, |curve|, LastOr(curve, cfg.capital), cfg.capital,
         m.common[cfg.metricsStart], m.common[|m.common| - 1])
  }

  function MetricsOf(m: Market, cfg: Config, curve: seq<real>, rets: seq<real>, costPct: real): Metrics
    requires 0 <= cfg.metricsStart < |m.common|
  {
    var total := ReturnPct(LastOr(curve, cfg.capital), cfg.capital);
    var bench := FactorPct(Benchmark(m, cfg.metricsStart + 1, |m.common|), cfg.capital);
    Metrics(total, CagrOf(m, cfg, curve), Sharpe(cfg, rets), MaxDrawdown(curve, cfg.capital),
            costPct, bench, total - bench)
  }

  /** Curve, returns and cost percentage of the evaluated part of a finished run. */
  datatype Evaluation = Evaluation(curve: seq<real>, rets: seq<real>, costPct: real)

  function Evaluate(cfg: Config, st: State): Option<Evaluation>
    requires 0 <= cfg.metricsStart < |st.raw|
  {
    var start := cfg.metricsStart;
    if start == 0 then Some(Evaluation(st.raw, st.rets, PctOf(st.totalCost, cfg.capital)))
    else if st.raw[start] <= 0.0 then None
    else Some(EvaluateFrom(st, start, cfg.capital))
  }

  function EvaluateFrom(st: State, start: nat, capital: real): Evaluation
    requires 0 < start < |st.raw| && st.raw[start] > 0.0
  {
    Evaluation(Window(st.raw, start, capital),
               ReturnsBetween(st.raw, start + 1, |st.raw|),
               PctOf(CostFrom(st.costEvents, start), st.raw[start]))
  }

  // ---- the whole call ----

  function Normalised(cfg: Config): Config {
    cfg.(rebalanceDays := MaxInt(1, cfg.rebalanceDays), volWindow := MaxInt(2, cfg.volWindow))
  }

  function Guard(prices: seq<Series>, cfg: Config): Option<Error> {
    if prices == [] then Some(NoPriceData)
    else if cfg.skip >= cfg.lookback then Some(SkipNotLess)
    else if cfg.metricsStart < 0 then Some(NegativeMetricsStart)
    else
      var working := Working(prices, cfg);
      var n := |CommonDates(working)|;
      if FirstNonEmpty(working).None? then Some(EmptyPriceSeries)
      else if n <= cfg.lookback + 1 then Some(InsufficientHistory)
      else if cfg.metricsStart >= n then Some(MetricsStartTooLate)
      else None
  }

  lemma {:induction false} RawLength(m: Market, cfg: Config, i: int)
    requires Runnable(cfg) && 0 <= i <= |m.common|
    ensures |Run(m, cfg, i).raw| == i
  {
    if i > 0 {
      RawLength(m, cfg, i - 1);
      StepRaw(m, cfg, i - 1, Run(m, cfg, i - 1));
    }
  }

  lemma {:induction false} StepRaw(m: Market, cfg: Config, i: int, st: State)
    requires Runnable(cfg) && 0 <= i < |m.common|
    ensures var next := Step(m, cfg, i, st);
            && next.raw == st.raw + [next.equity] && next.prev == next.equity
            && next.rets == (if i > 0 && st.prev > 0.0 then st.rets + [next.equity / st.prev - 1.0]
                             else st.rets)
  {
  }

  function ReportOf(prices: seq<Series>, cfg: Config, st: State, e: Evaluation, metrics: Metrics): Report
    requires Guard(prices, cfg).None? && |e.curve| == |CommonDates(Working(prices, cfg))| - cfg.metricsStart
  {
    var m := MarketOf(Working(prices, cfg));
    Report(metrics,
           Dated(m.common[cfg.metricsStart..], e.curve), e.rets, st.holdings, st.weights,
           |m.common|, |m.symbols|, Dropped(prices, cfg), |m.common| - cfg.metricsStart, st.fallbacks)
  }

  function Backtest(prices: seq<Series>, raw: Config): Outcome {
    var cfg := Normalised(raw);
    match Guard(prices, cfg)
    case Some(error) => Err(error)
    case None =>
      var m := MarketOf(Working(prices, cfg));
      if Overruns(m, cfg) then Raised
      else
        var st := Run(m, cfg, |m.common|);
        RawLength(m, cfg, |m.common|);
        match Evaluate(cfg, st)
        case None => Err(EquityDepleted)
        case Some(e) => Ok(ReportOf(prices, cfg, st, e, MetricsOf(m, cfg, e.curve, e.rets, e.costPct)))
  }

  // ---- the loops ----

  method ComputeMaxDrawdown(curve: seq<real>, capital: real) returns (maxDd: real)
    ensures maxDd == MaxDrawdown(curve, capital)
  {
    var peak := capital;
    maxDd := 0.0;
    for i := 0 to |curve|
      invariant peak == PeakOf(curve[..i], capital) && maxDd == MaxDrawdown(curve[..i], capital)
    {
      assert curve[..i + 1][..i] == curve[..i];
      if curve[i] > peak { peak := curve[i]; }
      if peak > 0.0 {
        var dd := DrawdownAt(curve[i], peak);
        if dd > maxDd { maxDd := dd; }
      }
    }
    assert curve[..|curve|] == curve;
  }

  method ComputeBenchmark(m: Market, lo: int, hi: int) returns (factor: real)
    requires 1 <= lo <= hi <= |m.common|
    ensures factor == Benchmark(m, lo, hi)
  {
    factor := 1.0;
    for i := lo to hi
      invariant factor == Benchmark(m, lo, i)
    {
      var day := ComputeCrossReturns(m, m.symbols, i);
      if day != [] { factor := Compound(factor, Mean(day)); }
    }
  }

  method ComputeMetrics(m: Market, cfg: Config, curve: seq<real>, rets: seq<real>, costPct: real)
    returns (metrics: Metrics)
    requires 0 <= cfg.metricsStart < |m.common|
    ensures metrics == MetricsOf(m, cfg, curve, rets, costPct)
  {
    var maxDd := ComputeMaxDrawdown(curve, cfg.capital);
    var factor := ComputeBenchmark(m, cfg.metricsStart + 1, |m.common|);
    var total := ReturnPct(LastOr(curve, cfg.capital), cfg.capital);
    var bench := FactorPct(factor, cfg.capital);
    metrics := Metrics(total, CagrOf(m, cfg, curve), Sharpe(cfg, rets), maxDd, costPct, bench, total - bench);
  }

  method RunBacktest(prices: seq<Series>, raw: Config) returns (out: Outcome)
    ensures out == Backtest(prices, raw)
  {
    var cfg := Normalised(raw);
    var error := Guard(prices, cfg);
    if error.Some? { return Err(error.value); }
    var m := MarketOf(Working(prices, cfg));
    var simulated := Simulate(m, cfg);
    if simulated.None? { return Raised; }
    var st := simulated.value;
    RawLength(m, cfg, |m.common|);
    match Evaluate(cfg, st)
    case None => out := Err(EquityDepleted);
    case Some(e) =>
      var metrics := ComputeMetrics(m, cfg, e.curve, e.rets, e.costPct);
      out := Ok(ReportOf(prices, cfg, st, e, metrics));
  }
}
