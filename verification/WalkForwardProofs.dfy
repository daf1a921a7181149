/**
 * The up-front guards are strong enough: on an aligned universe no window can fail, and the
 * out-of-sample windows tile the end of the history.
 */
module WalkForwardProofs {
  import opened Common
  import opened CrossSectional
  import opened PortfolioReport
  import opened PortfolioSafety
  import opened PortfolioInvariance
  import opened WalkForward

  // ---- tiling ----

  /** Adjacent, ending at n, starting at the smallest in-sample length, each `per` bars long. */
  lemma Tiling(n: nat, windows: int, per: int, w: int)
    requires 0 <= w < windows && per >= 1
    ensures OosEnd(n, windows, per, w) - OosStart(n, windows, per, w) == per
    ensures OosEnd(n, windows, per, windows - 1) == n
    ensures OosStart(n, windows, per, 0) == n - windows * per
    ensures w + 1 < windows ==> OosEnd(n, windows, per, w) == OosStart(n, windows, per, w + 1)
    ensures OosEnd(n, windows, per, w) <= n
  {
    assert (windows - 1) * per + per == windows * per;
    assert (windows - 1 - w) * per == (windows - 2 - w) * per + per;
    assert (windows - 1 - w) * per >= 0;
  }

  lemma Disjoint(n: nat, windows: int, per: int, v: int, w: int)
    requires 0 <= v < w < windows && per >= 1
    ensures OosEnd(n, windows, per, v) <= OosStart(n, windows, per, w)
  {
    StepsApart(windows - 1 - v, windows - 1 - w, per);
  }

  lemma StepsApart(a: int, b: int, per: nat)
    requires a > b
    ensures a * per >= b * per + per
  {
    assert a * per == (b + 1) * per + (a - b - 1) * per;
    assert (a - b - 1) * per >= 0;
  }

  // ---- aligned universes ----

  ghost predicate Increasing(cal: seq<int>) {
    forall a, b :: 0 <= a < b < |cal| ==> cal[a] < cal[b]
  }

  ghost predicate OnCalendar(bars: seq<Bar>, cal: seq<int>) {
    |bars| == |cal| && forall k :: 0 <= k < |cal| ==> bars[k].date == cal[k]
  }

  /** Every symbol has the same, strictly increasing dates. */
  ghost predicate Aligned(prices: seq<Series>, cal: seq<int>) {
    && prices != [] && Increasing(cal)
    && (forall j :: 0 <= j < |prices| ==> OnCalendar(prices[j].bars, cal))
    && (forall a, b :: 0 <= a < b < |prices| ==> prices[a].symbol != prices[b].symbol)
  }

  ghost predicate PositiveBars(prices: seq<Series>) {
    forall j, k :: 0 <= j < |prices| && 0 <= k < |prices[j].bars| ==> prices[j].bars[k].close > 0.0
  }

  lemma {:induction false} DatesOfCalendar(bars: seq<Bar>, cal: seq<int>)
    requires Increasing(cal) && OnCalendar(bars, cal)
    ensures SortedDates(bars) == cal
  {
    if bars != [] {
      var n := |bars| - 1;
      DatesOfCalendar(bars[..n], cal[..n]);
      assert cal == cal[..n] + [cal[n]];
    }
  }

  lemma {:induction false} AllShared(dates: seq<int>, working: seq<Series>)
    requires forall k :: 0 <= k < |dates| ==> InAll(working, dates[k])
    ensures SharedDates(dates, working) == dates
  {
    if dates != [] {
      AllShared(dates[..|dates| - 1], working);
      assert dates == dates[..|dates| - 1] + [dates[|dates| - 1]];
    }
  }

  lemma {:induction false} AlignedCalendar(prices: seq<Series>, cal: seq<int>)
    requires Aligned(prices, cal) && cal != []
    ensures FirstNonEmpty(prices).Some? && CommonDates(prices) == cal
  {
    forall j | 0 <= j < |prices| ensures SortedDates(prices[j].bars) == cal {
      DatesOfCalendar(prices[j].bars, cal);
    }
    assert OnCalendar(prices[0].bars, cal);
    AllShared(cal, prices);
  }

  lemma {:induction false} NoneThin(prices: seq<Series>, need: int)
    requires forall j :: 0 <= j < |prices| ==> |prices[j].bars| >= need
    ensures Survivors(prices, need) == prices
  {
    if prices != [] {
      NoneThin(prices[..|prices| - 1], need);
      assert prices == prices[..|prices| - 1] + [prices[|prices| - 1]];
    }
  }

  /** Enough aligned bars: nobody is dropped and no guard of the engine can fire. */
  lemma {:induction false} AlignedGuard(prices: seq<Series>, cal: seq<int>, cfg: Config)
    requires Aligned(prices, cal) && 0 <= cfg.skip < cfg.lookback
    requires |cal| >= MinBars(cfg) && 0 <= cfg.metricsStart < |cal|
    ensures Working(prices, cfg) == prices && Guard(prices, cfg).None?
    ensures MarketOf(prices).common == cal
  {
    AlignedWorking(prices, cal, cfg);
    AlignedCalendar(prices, cal);
    assert |cal| > cfg.lookback + 1;
  }

  lemma {:induction false} AlignedWorking(prices: seq<Series>, cal: seq<int>, cfg: Config)
    requires Aligned(prices, cal) && |cal| >= MinBars(cfg)
    ensures Working(prices, cfg) == prices
  {
    forall j | 0 <= j < |prices| ensures |prices[j].bars| >= MinBars(cfg) {
      assert OnCalendar(prices[j].bars, cal);
    }
    NoneThin(prices, MinBars(cfg));
  }

  lemma {:induction false} ClosesPositive(bars: seq<Bar>)
    requires forall k :: 0 <= k < |bars| ==> bars[k].close > 0.0
    ensures forall d :: d in Closes(bars) ==> Closes(bars)[d] > 0.0
  {
    if bars != [] { ClosesPositive(bars[..|bars| - 1]); }
  }

  lemma {:induction false} TablePositive(prices: seq<Series>)
    requires PositiveBars(prices)
    ensures forall s, d :: s in Table(prices) && d in Table(prices)[s] ==> Table(prices)[s][d] > 0.0
  {
    if prices != [] {
      var n := |prices| - 1;
      forall j, k | 0 <= j < n && 0 <= k < |prices[..n][j].bars| ensures prices[..n][j].bars[k].close > 0.0 {
        assert prices[..n][j] == prices[j];
      }
      TablePositive(prices[..n]);
      ClosesPositive(prices[n].bars);
    }
  }

  ghost predicate SafeParameters(cfg: Config) {
    && 0 <= cfg.skip < cfg.lookback && cfg.capital > 0.0
    && 0.0 <= cfg.costPct < 0.5 && 0.0 <= cfg.maxLeverage <= 1.0
  }

  /** The curve carries exactly the dates cal[lo], ..., cal[hi - 1]. */
  ghost predicate Covers(curve: seq<(int, real)>, cal: seq<int>, lo: int, hi: int) {
    && 0 <= lo <= hi <= |cal| && |curve| == hi - lo
    && forall j :: 0 <= j < hi - lo ==> curve[j].0 == cal[lo + j]
  }

  ghost predicate Succeeds(out: Outcome, cal: seq<int>, lo: int, hi: int) {
    out.Ok? && out.report.evaluatedBars == hi - lo && Covers(out.report.curve, cal, lo, hi)
  }

  /**
   * The engine's promise to its callers: aligned positive prices and enough of them, safe
   * parameters, and the run succeeds and evaluates exactly the dates from metrics_start_bar on.
   */
  lemma {:induction false} AlignedBacktestSucceeds(prices: seq<Series>, cal: seq<int>, cfg: Config)
    requires Aligned(prices, cal) && PositiveBars(prices) && SafeParameters(cfg)
    requires |cal| >= MinBars(cfg) && 0 <= cfg.metricsStart < |cal|
    ensures Succeeds(Backtest(prices, cfg), cal, cfg.metricsStart, |cal|)
  {
    var norm := Normalised(cfg);
    AlignedGuard(prices, cal, norm);
    BacktestFinishes(prices, cfg);
    var m := MarketOf(prices);
    assert Distinct(m.symbols);
    TablePositive(prices);
    assert Prudent(m, norm);
    NoRuin(m, norm, |cal|);
    FinishSucceeds(prices, norm, m, Run(m, norm, |cal|));
  }

  lemma {:induction false} FinishSucceeds(prices: seq<Series>, cfg: Config, m: Market, st: State)
    requires Guard(prices, cfg).None? && m == MarketOf(Working(prices, cfg)) && |st.raw| == |m.common|
    requires forall k :: 0 <= k < |st.raw| ==> st.raw[k] > 0.0
    ensures Succeeds(Finish(prices, cfg, m, st), m.common, cfg.metricsStart, |m.common|)
  {
  }

  /** Past its guards the engine never reports depleted equity, whatever universe it was given. */
  lemma {:induction false} EquityIsNeverDepleted(prices: seq<Series>, raw: Config)
    requires Guard(prices, Normalised(raw)).None?
    requires Prudent(MarketOf(Working(prices, Normalised(raw))), Normalised(raw))
    ensures !Backtest(prices, raw).Err? && (raw.skip >= 0 ==> Backtest(prices, raw).Ok?)
  {
    var cfg := Normalised(raw);
    var m := MarketOf(Working(prices, cfg));
    BacktestFinishes(prices, raw);
    NoRuin(m, cfg, |m.common|);
    FinishSucceeds(prices, cfg, m, Run(m, cfg, |m.common|));
  }

  // ---- slices of an aligned universe ----

  function SliceSeries(s: Series, lo: nat, hi: nat): Series { Series(s.symbol, SliceBars(s.bars, lo, hi)) }

  function SliceAll(prices: seq<Series>, lo: nat, hi: nat): seq<Series> {
    seq(|prices|, j requires 0 <= j < |prices| => SliceSeries(prices[j], lo, hi))
  }

  ghost predicate AllLong(prices: seq<Series>, len: nat) {
    forall j :: 0 <= j < |prices| ==> |prices[j].bars| == len
  }

  lemma {:induction false} NothingSkipped(prices: seq<Series>, len: nat, lo: nat, hi: nat)
    requires AllLong(prices, len) && lo < hi <= len
    ensures SlicePrices(prices, lo, hi) == SliceAll(prices, lo, hi)
  {
    if prices != [] {
      var init, last := prices[..|prices| - 1], prices[|prices| - 1];
      NothingSkipped(init, len, lo, hi);
      assert SliceBars(last.bars, lo, hi) != [];
      SliceAllPush(init, last, lo, hi);
      assert prices == init + [last];
    }
  }

  lemma {:induction false} SliceAllPush(prices: seq<Series>, s: Series, lo: nat, hi: nat)
    ensures SliceAll(prices + [s], lo, hi) == SliceAll(prices, lo, hi) + [SliceSeries(s, lo, hi)]
  {
  }

  lemma {:induction false} SliceOnCalendar(bars: seq<Bar>, cal: seq<int>, lo: nat, hi: nat)
    requires OnCalendar(bars, cal) && lo < hi <= |cal|
    ensures OnCalendar(SliceBars(bars, lo, hi), cal[lo..hi])
    ensures forall k :: 0 <= k < hi - lo ==> SliceBars(bars, lo, hi)[k] == bars[lo + k]
  {
  }

  lemma {:induction false} AlignedLengths(prices: seq<Series>, cal: seq<int>)
    requires Aligned(prices, cal)
    ensures forall j :: 0 <= j < |prices| ==> |prices[j].bars| == |cal|
    ensures LongestLength(prices) == |cal|
  {
    forall j | 0 <= j < |prices| ensures |prices[j].bars| == |cal| {
      assert OnCalendar(prices[j].bars, cal);
    }
    AlignedLongest(prices, |cal|);
  }

  lemma {:induction false} SliceAligned(prices: seq<Series>, cal: seq<int>, lo: nat, hi: nat)
    requires Aligned(prices, cal) && PositiveBars(prices) && lo < hi <= |cal|
    ensures Aligned(SlicePrices(prices, lo, hi), cal[lo..hi])
    ensures PositiveBars(SlicePrices(prices, lo, hi))
  {
    AlignedLengths(prices, cal);
    NothingSkipped(prices, |cal|, lo, hi);
    var cut := SlicePrices(prices, lo, hi);
    forall j | 0 <= j < |cut|
      ensures cut[j] == SliceSeries(prices[j], lo, hi) && OnCalendar(cut[j].bars, cal[lo..hi])
      ensures forall k :: 0 <= k < hi - lo ==> cut[j].bars[k] == prices[j].bars[lo + k]
    {
      SliceOnCalendar(prices[j].bars, cal, lo, hi);
    }
  }

  lemma {:induction false} AlignedLongest(prices: seq<Series>, len: nat)
    requires prices != [] && forall j :: 0 <= j < |prices| ==> |prices[j].bars| == len
    ensures LongestLength(prices) == len
  {
    if |prices| > 1 { AlignedLongest(prices[..|prices| - 1], len); }
  }

  /** A window whose two runs succeeded and whose curve covers its out-of-sample dates. */
  ghost predicate Complete(x: Window, cal: seq<int>, cfg: Config) {
    && Succeeds(x.isOutcome, cal, Warmup(cfg), x.isEnd)
    && Succeeds(x.oosOutcome, cal, x.oosStart, x.oosEnd)
    && x.isEnd == x.oosStart && x.warmupStart == x.oosStart - Warmup(cfg) >= 1
    && x.oosStart + MIN_OOS_EVAL_BARS <= x.oosEnd <= |cal|
  }

  lemma {:induction false} SubCalendar(out: Outcome, cal: seq<int>, lo: int, hi: int, a: int)
    requires 0 <= lo <= hi <= |cal| && Succeeds(out, cal[lo..hi], a, hi - lo)
    ensures Succeeds(out, cal, lo + a, hi)
  {
    forall j | 0 <= j < hi - lo - a ensures out.report.curve[j].0 == cal[lo + a + j] {
      assert cal[lo..hi][a + j] == cal[lo + a + j];
    }
  }

  /** The engine on a slice that is long enough for warmup and evaluation. */
  lemma {:induction false} SliceSucceeds(prices: seq<Series>, cal: seq<int>, base: Config, lo: nat, hi: nat)
    requires Aligned(prices, cal) && PositiveBars(prices) && SafeParameters(base)
    requires lo + Warmup(base) < hi <= |cal|
    ensures Succeeds(Backtest(SlicePrices(prices, lo, hi), WindowConfig(base)), cal, lo + Warmup(base), hi)
  {
    var cut := SlicePrices(prices, lo, hi);
    SliceAligned(prices, cal, lo, hi);
    AlignedBacktestSucceeds(cut, cal[lo..hi], WindowConfig(base));
    SubCalendar(Backtest(cut, WindowConfig(base)), cal, lo, hi, Warmup(base));
  }

  /** What the up-front guards buy: room for warmup and evaluation in every window. */
  lemma {:induction false} GuardsLeaveRoom(prices: seq<Series>, cal: seq<int>, c: WfConfig, w: int)
    requires Aligned(prices, cal) && SafeParameters(c.base)
    requires c.nWindows != 0 && WfGuard(prices, c).None? && 0 <= w < c.nWindows
    ensures LongestLength(prices) == |cal|
    ensures var per := PerWindow(|cal|, c);
            var start, end := OosStart(|cal|, c.nWindows, per, w), OosEnd(|cal|, c.nWindows, per, w);
            Warmup(c.base) < start && start + MIN_OOS_EVAL_BARS <= end <= |cal|
  {
    AlignedLengths(prices, cal);
    Tiling(|cal|, c.nWindows, PerWindow(|cal|, c), w);
    WarmupFits(|cal|, c.nWindows, PerWindow(|cal|, c), w);
  }

  /** Every slice long enough for warmup and evaluation succeeds on its own dates. */
  ghost predicate Dependable(run: SliceRun, cal: seq<int>, base: Config) {
    forall lo: nat, hi: nat {:trigger Asked(lo, hi)} ::
      Asked(lo, hi) && lo + Warmup(base) < hi <= |cal| ==> Succeeds(run(lo, hi), cal, lo + Warmup(base), hi)
  }

  lemma {:induction false} EngineIsDependable(run: SliceRun, prices: seq<Series>, cal: seq<int>, base: Config)
    requires Aligned(prices, cal) && PositiveBars(prices) && SafeParameters(base) && RunsFor(run, prices, base)
    ensures Dependable(run, cal, base)
  {
    forall lo: nat, hi: nat | Asked(lo, hi) && lo + Warmup(base) < hi <= |cal|
      ensures Succeeds(run(lo, hi), cal, lo + Warmup(base), hi)
    {
      SliceSucceeds(prices, cal, base, lo, hi);
    }
  }

  lemma {:induction false} WindowOverComplete(
    run: SliceRun, cal: seq<int>, base: Config, w: int, start: nat, end: nat)
    requires Dependable(run, cal, base) && SafeParameters(base)
    requires Warmup(base) < start && start + MIN_OOS_EVAL_BARS <= end <= |cal|
    ensures Complete(WindowOver(run, base, w, start, end), cal, base)
  {
    assert Asked(0, start) && Asked(start - Warmup(base), end);
  }

  /** Past the guards, both runs of every non-skipped window succeed. */
  lemma {:induction false} WindowSucceeds(run: SliceRun, prices: seq<Series>, cal: seq<int>, c: WfConfig, w: int)
    requires Dependable(run, cal, c.base) && Aligned(prices, cal) && SafeParameters(c.base)
    requires c.nWindows != 0 && WfGuard(prices, c).None? && 0 <= w < c.nWindows
    ensures |WindowAt(run, prices, c, w)| ==
      if OosStart(|cal|, c.nWindows, PerWindow(|cal|, c), w) < MIN_IS_BARS then 0 else 1
    ensures WindowAt(run, prices, c, w) != [] ==> Complete(WindowAt(run, prices, c, w)[0], cal, c.base)
  {
    var per := PerWindow(|cal|, c);
    var end, start := OosEnd(|cal|, c.nWindows, per, w), OosStart(|cal|, c.nWindows, per, w);
    GuardsLeaveRoom(prices, cal, c, w);
    if start >= MIN_IS_BARS { WindowOverComplete(run, cal, c.base, w, start, end); }
  }

  lemma {:induction false} AllCounted(ws: seq<Window>)
    requires forall x :: x in ws ==> IsValid(x)
    ensures CountWindows(ws, x => IsValid(x)) == |ws|
  {
    if ws != [] { AllCounted(ws[..|ws| - 1]); }
  }

  /** Past the guards, every window reported is complete, hence valid. */
  lemma {:induction false} WindowsComplete(run: SliceRun, prices: seq<Series>, cal: seq<int>, c: WfConfig, w: int)
    requires Dependable(run, cal, c.base) && Aligned(prices, cal) && SafeParameters(c.base)
    requires c.nWindows != 0 && WfGuard(prices, c).None? && w <= MaxInt(0, c.nWindows)
    ensures forall x :: x in WindowsUpTo(run, prices, c, w) ==> Complete(x, cal, c.base)
    decreases w
  {
    if w > 0 {
      WindowsComplete(run, prices, cal, c, w - 1);
      WindowSucceeds(run, prices, cal, c, w - 1);
      var ws := WindowAt(run, prices, c, w - 1);
      assert ws != [] ==> ws == [ws[0]];
    }
  }

  lemma {:induction false} JudgeOfValid(ws: seq<Window>)
    requires ws != [] && forall x :: x in ws ==> IsValid(x)
    ensures var r := Judge(ws);
            && r.Judged? && r.windows == ws && r.valid == |ws| && r.robust <= r.valid
            && (r.verdict == InsuficienteDatos <==> |ws| < 2)
            && (r.verdict == Robusto <==> |ws| >= 2 && 2 * r.robust >= |ws|)
  {
    AllCounted(ws);
    RobustAtMostValid(ws);
    HalfMeansTwice(CountWindows(ws, x => IsRobust(x)), |ws|);
  }

  ghost predicate AllComplete(ws: seq<Window>, cal: seq<int>, cfg: Config) {
    forall x :: x in ws ==> Complete(x, cal, cfg)
  }

  lemma {:induction false} JudgeOfComplete(ws: seq<Window>, cal: seq<int>, cfg: Config)
    requires ws != [] && AllComplete(ws, cal, cfg)
    ensures var r := Judge(ws);
            && r.Judged? && r.windows == ws && r.valid == |ws| && r.robust <= r.valid
            && (r.verdict == InsuficienteDatos <==> |ws| < 2)
            && (r.verdict == Robusto <==> |ws| >= 2 && 2 * r.robust >= |ws|)
  {
    forall x | x in ws ensures IsValid(x) { assert Complete(x, cal, cfg); }
    JudgeOfValid(ws);
  }

  /** What a judged run says: complete, valid windows only, and the verdict their count and ratios give. */
  ghost predicate SoundJudgement(r: Result, cal: seq<int>, cfg: Config) {
    r.Judged? ==>
      && AllComplete(r.windows, cal, cfg)
      && r.valid == |r.windows| && r.robust <= r.valid
      && (r.verdict == InsuficienteDatos <==> |r.windows| < 2)
      && (r.verdict == Robusto <==> r.valid >= 2 && 2 * r.robust >= r.valid)
  }

  /** The whole run: a guard speaks up, no window is left, or every window reported is complete and valid. */
  lemma {:induction false} EveryReportedWindowIsValid(prices: seq<Series>, cal: seq<int>, c: WfConfig)
    requires Aligned(prices, cal) && PositiveBars(prices) && SafeParameters(c.base)
    ensures SoundJudgement(WalkForwardRun(prices, c), cal, c.base)
  {
    if EarlyGuard(prices).None? && c.nWindows != 0 && WfGuard(prices, c).None? {
      EngineIsDependable(SliceRunOf(prices, c.base), prices, cal, c.base);
      AllOfRun(SliceRunOf(prices, c.base), prices, cal, c);
    }
  }

  /** With such data and at least one window asked for, nothing is ever raised. */
  lemma {:induction false} NeverAborts(prices: seq<Series>, cal: seq<int>, c: WfConfig)
    requires Aligned(prices, cal) && PositiveBars(prices) && SafeParameters(c.base) && c.nWindows != 0
    ensures !WalkForwardRun(prices, c).Aborted?
  {
    if WfGuard(prices, c).None? {
      EngineIsDependable(SliceRunOf(prices, c.base), prices, cal, c.base);
      NothingRaised(SliceRunOf(prices, c.base), prices, cal, c);
    }
  }

  lemma {:induction false} NothingRaised(run: SliceRun, prices: seq<Series>, cal: seq<int>, c: WfConfig)
    requires Dependable(run, cal, c.base) && Aligned(prices, cal) && SafeParameters(c.base)
    requires c.nWindows != 0 && WfGuard(prices, c).None?
    ensures !AnyRaised(WindowsUpTo(run, prices, c, MaxInt(0, c.nWindows)))
  {
    var ws := WindowsUpTo(run, prices, c, MaxInt(0, c.nWindows));
    WindowsComplete(run, prices, cal, c, MaxInt(0, c.nWindows));
    forall k | 0 <= k < |ws| ensures !IsRaised(ws[k]) {
      assert ws[k] in ws && Complete(ws[k], cal, c.base);
    }
  }

  lemma {:induction false} AllOfRun(run: SliceRun, prices: seq<Series>, cal: seq<int>, c: WfConfig)
    requires Dependable(run, cal, c.base) && Aligned(prices, cal) && SafeParameters(c.base)
    requires c.nWindows != 0 && WfGuard(prices, c).None?
    ensures SoundJudgement(Judge(WindowsUpTo(run, prices, c, MaxInt(0, c.nWindows))), cal, c.base)
  {
    var ws := WindowsUpTo(run, prices, c, MaxInt(0, c.nWindows));
    WindowsComplete(run, prices, cal, c, MaxInt(0, c.nWindows));
    if ws != [] { JudgeOfComplete(ws, cal, c.base); }
  }

  lemma {:induction false} HalfMeansTwice(a: nat, b: nat)
    requires b > 0
    ensures a as real / b as real >= 0.5 <==> 2 * a >= b
  {
    HalfQuotient(a as real, b as real);
  }

  lemma {:induction false} HalfQuotient(x: real, y: real)
    requires y > 0.0
    ensures x / y >= 0.5 <==> x + x >= y
  {
    var q := x / y;
    assert q * y == x;
    assert (q - 0.5) * y == x - 0.5 * y;
    if q >= 0.5 { MulMono(y, 0.0, q - 0.5); } else { MulPositive(0.5 - q, y); }
  }

  lemma {:induction false} RobustAtMostValid(ws: seq<Window>)
    ensures CountWindows(ws, x => IsRobust(x)) <= CountWindows(ws, x => IsValid(x))
  {
    if ws != [] { RobustAtMostValid(ws[..|ws| - 1]); }
  }

  // ---- the verdict, from the two Sharpe ratios of every window ----

  predicate BothRan(x: Window) { x.isOutcome.Ok? && x.oosOutcome.Ok? }

  /** Out of sample the Sharpe ratio is at least half of what it was in sample, and that was not near zero. */
  predicate HoldsUp(x: Window) {
    BothRan(x) && AtLeastHalf(x.isOutcome.report.metrics.sharpe, x.oosOutcome.report.metrics.sharpe)
  }

  /** For a negative in-sample ratio this asks for one at least half as bad. */
  predicate AtLeastHalf(ins: real, oos: real) {
    if ins >= 0.0 then ins > 0.01 && 2.0 * oos >= ins else ins < -0.01 && 2.0 * oos <= ins
  }

  lemma RatioIsHalf(ins: real, oos: real)
    ensures RobustnessRatio(oos, ins) >= 0.5 <==> AtLeastHalf(ins, oos)
  {
    if ins > 0.01 {
      HalfQuotient(oos, ins);
    } else if ins < -0.01 {
      HalfQuotient(-oos, -ins);
      NegatedQuotient(oos, ins);
    }
  }

  lemma NegatedQuotient(x: real, y: real)
    requires y != 0.0
    ensures (-x) / (-y) == x / y
  {
    var q := x / y;
    assert q * y == x;
    QuotientIs(-x, -y, q);
  }

  /** The engine on bars lo, ..., hi - 1. */
  function Engine(prices: seq<Series>, cfg: Config): SliceRun {
    (lo: nat, hi: nat) => Backtest(SlicePrices(prices, lo, hi), cfg)
  }

  /** The configuration that evaluates past the warmup. */
  function PastWarmup(cfg: Config): Config { cfg.(metricsStart := cfg.lookback + cfg.skip + 1) }

  ghost predicate SameRuns(run: SliceRun, engine: SliceRun) {
    forall lo: nat, hi: nat {:trigger Asked(lo, hi)} :: Asked(lo, hi) ==> run(lo, hi) == engine(lo, hi)
  }

  /** The window's two runs are the engine's, on the bars before it and on the window with its warmup. */
  ghost predicate Genuine(x: Window, engine: SliceRun, cfg: Config) {
    var warm := cfg.lookback + cfg.skip + 1;
    && 0 <= x.oosStart && 0 <= x.oosEnd && 0 <= x.oosStart - warm
    && x.isEnd == x.oosStart && x.warmupStart == x.oosStart - warm
    && x.isOutcome == engine(0, x.oosStart) && x.oosOutcome == engine(x.oosStart - warm, x.oosEnd)
  }

  lemma {:induction false} WindowIsGenuine(
    engine: SliceRun, cfg: Config, run: SliceRun, w: int, start: nat, end: nat)
    requires SameRuns(run, engine) && Warmup(cfg) <= start
    ensures Genuine(WindowOver(run, cfg, w, start, end), engine, cfg)
  {
    assert Asked(0, start) && Asked(start - Warmup(cfg), end);
  }

  lemma {:induction false} SliceRunIsEngine(prices: seq<Series>, cfg: Config, past: Config)
    requires past == WindowConfig(cfg)
    ensures SameRuns(SliceRunOf(prices, cfg), Engine(prices, past))
  {
  }

  predicate Measured(x: Window) { IsRobust(x) <==> HoldsUp(x) }

  lemma RobustHoldsUp(x: Window)
    requires x.robustness == Ratio(x.isOutcome, x.oosOutcome)
    ensures Measured(x)
  {
    if BothRan(x) { RatioIsHalf(SharpeOf(x.isOutcome), SharpeOf(x.oosOutcome)); }
  }

  /** What holds of every window the engine can make holds of all the windows of a run. */
  lemma {:induction false} AllWindows(prices: seq<Series>, c: WfConfig, run: SliceRun, w: int, p: Window -> bool)
    requires c.nWindows != 0 && WfGuard(prices, c).None? && w <= MaxInt(0, c.nWindows)
    requires forall v, start: nat, end: nat :: Warmup(c.base) <= start ==> p(WindowOver(run, c.base, v, start, end))
    ensures forall x :: x in WindowsUpTo(run, prices, c, w) ==> p(x)
  {
    if w > 0 {
      AllWindows(prices, c, run, w - 1, p);
      var n := LongestLength(prices);
      var per := PerWindow(n, c);
      if !Skipped(n, c.nWindows, per, w - 1) { WarmupFits(n, c.nWindows, per, w - 1); }
    }
  }

  lemma {:induction false} CountIsFilter(ws: seq<Window>, p: Window -> bool, q: Window -> bool)
    requires forall x :: x in ws ==> p(x) == q(x)
    ensures CountWindows(ws, p) == |Filter(ws, q)|
  {
    if ws != [] { CountIsFilter(ws[..|ws| - 1], p, q); }
  }

  /** The counts and the verdict of a judged run, from the windows' reports alone. */
  ghost predicate FollowsSharpe(r: Result, engine: SliceRun, cfg: Config) {
    r.Judged? ==>
      && (forall x :: x in r.windows ==> Genuine(x, engine, cfg))
      && r.valid == |Filter(r.windows, BothRan)| && r.robust == |Filter(r.windows, HoldsUp)|
      && (r.verdict == InsuficienteDatos <==> r.valid < 2)
      && (r.verdict == Robusto <==> r.valid >= 2 && 2 * r.robust >= r.valid)
  }

  lemma {:induction false} JudgeFollowsSharpe(ws: seq<Window>, engine: SliceRun, cfg: Config)
    requires forall x :: x in ws ==> Genuine(x, engine, cfg)
    requires forall x :: x in ws ==> Measured(x)
    ensures FollowsSharpe(Judge(ws), engine, cfg)
  {
    forall x | x in ws ensures IsRobust(x) == HoldsUp(x) { assert Measured(x); }
    CountIsFilter(ws, x => IsValid(x), BothRan);
    CountIsFilter(ws, x => IsRobust(x), HoldsUp);
    var r := Judge(ws);
    if r.Judged? && r.valid > 0 { HalfMeansTwice(r.robust, r.valid); }
  }

  /** Any prices and any configuration: whatever is judged is judged on the Sharpe ratios of its windows. */
  lemma {:induction false} VerdictFollowsSharpe(prices: seq<Series>, c: WfConfig)
    ensures FollowsSharpe(WalkForwardRun(prices, c), Engine(prices, PastWarmup(c.base)), c.base)
  {
    if EarlyGuard(prices).None? && c.nWindows != 0 && WfGuard(prices, c).None? {
      var run, engine := SliceRunOf(prices, c.base), Engine(prices, PastWarmup(c.base));
      SliceRunIsEngine(prices, c.base, PastWarmup(c.base));
      GenuineWindows(prices, c, run, engine);
      MeasuredWindows(prices, c, run);
      JudgeFollowsSharpe(WindowsUpTo(run, prices, c, MaxInt(0, c.nWindows)), engine, c.base);
    }
  }

  lemma {:induction false} GenuineWindows(prices: seq<Series>, c: WfConfig, run: SliceRun, engine: SliceRun)
    requires c.nWindows != 0 && WfGuard(prices, c).None? && SameRuns(run, engine)
    ensures forall x :: x in WindowsUpTo(run, prices, c, MaxInt(0, c.nWindows)) ==> Genuine(x, engine, c.base)
  {
    forall v, start: nat, end: nat | Warmup(c.base) <= start
      ensures Genuine(WindowOver(run, c.base, v, start, end), engine, c.base)
    {
      WindowIsGenuine(engine, c.base, run, v, start, end);
    }
    AllWindows(prices, c, run, MaxInt(0, c.nWindows), x => Genuine(x, engine, c.base));
  }

  lemma {:induction false} MeasuredWindows(prices: seq<Series>, c: WfConfig, run: SliceRun)
    requires c.nWindows != 0 && WfGuard(prices, c).None?
    ensures forall x :: x in WindowsUpTo(run, prices, c, MaxInt(0, c.nWindows)) ==> Measured(x)
  {
    forall v, start: nat, end: nat | Warmup(c.base) <= start
      ensures Measured(WindowOver(run, c.base, v, start, end))
    {
      RobustHoldsUp(WindowOver(run, c.base, v, start, end));
    }
    AllWindows(prices, c, run, MaxInt(0, c.nWindows), x => Measured(x));
  }
}
