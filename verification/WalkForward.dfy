/**
 * Anchored walk-forward over the portfolio backtester: window geometry, up-front guards, the
 * window loop and the verdict.
 */
module WalkForward {
  import opened Common
  import opened CrossSectional
  import opened PortfolioReport

  const MIN_DATA_BARS := 60
  const MIN_OOS_EVAL_BARS := 21
  const MIN_IS_BARS := 20
  const ROBUSTNESS_THRESHOLD := 0.01

  datatype WfConfig = WfConfig(nWindows: int, inSamplePct: real, base: Config)

  datatype Reason = NoData | TooFewBars | LookbackTooLong | WarmupTooLong | OosTooShort | NoWindows
  datatype Verdict = Robusto | Sobreajustado | InsuficienteDatos

  datatype Window = Window(
    idx: int, isEnd: int, oosStart: int, oosEnd: int, warmupStart: int,
    isOutcome: Outcome, oosOutcome: Outcome, robustness: real)

  datatype Result =
    | Insufficient(reason: Reason)
    | Judged(windows: seq<Window>, valid: nat, robust: nat, verdict: Verdict)
    | Aborted

  // ---- geometry ----

  function FloorDiv(a: int, b: int): int
    requires b != 0
  {
    if b > 0 then a / b else (-a) / (-b)
  }

  function Warmup(cfg: Config): int { cfg.lookback + cfg.skip + 1 }

  function PerWindow(n: nat, c: WfConfig): int
    requires c.nWindows != 0
  {
    MaxInt(1, FloorDiv(n - Trunc(n as real * c.inSamplePct), c.nWindows))
  }

  function OosEnd(n: nat, windows: int, per: int, w: int): int { n - (windows - 1 - w) * per }

  function OosStart(n: nat, windows: int, per: int, w: int): int { OosEnd(n, windows, per, w) - per }

  function LongestLength(prices: seq<Series>): nat {
    if prices == [] then 0
    else
      var rest, last := LongestLength(prices[..|prices| - 1]), |prices[|prices| - 1].bars|;
      if last > rest then last else rest
  }

  function EarlyGuard(prices: seq<Series>): Option<Reason> {
    if prices == [] then Some(NoData)
    else if LongestLength(prices) < MIN_DATA_BARS then Some(TooFewBars)
    else None
  }

  function WfGuard(prices: seq<Series>, c: WfConfig): Option<Reason>
    requires c.nWindows != 0
  {
    var n := LongestLength(prices);
    if EarlyGuard(prices).Some? then EarlyGuard(prices)
    else
      var per := PerWindow(n, c);
      var smallest := n - c.nWindows * per;
      if c.base.lookback >= smallest then Some(LookbackTooLong)
      else if Warmup(c.base) >= smallest then Some(WarmupTooLong)
      else if per < MIN_OOS_EVAL_BARS then Some(OosTooShort)
      else None
  }

  // ---- one window ----

  /** Python's `bars[lo:hi]` for non-negative bounds. */
  function SliceBars(bars: seq<Bar>, lo: nat, hi: nat): seq<Bar> {
    var b := if hi <= |bars| then hi else |bars|;
    if lo < b then bars[lo..b] else []
  }

  function SlicePrices(prices: seq<Series>, lo: nat, hi: nat): seq<Series> {
    if prices == [] then []
    else
      var last := prices[|prices| - 1];
      var bars := SliceBars(last.bars, lo, hi);
      SlicePrices(prices[..|prices| - 1], lo, hi) + if bars != [] then [Series(last.symbol, bars)] else []
  }

  function SharpeOf(out: Outcome): real {
    match out case Ok(r) => r.metrics.sharpe case _ => 0.0
  }

  function RobustnessRatio(oos: real, ins: real): real {
    if Abs(ins) <= ROBUSTNESS_THRESHOLD then 0.0 else oos / ins
  }

  function Ratio(isOut: Outcome, oosOut: Outcome): real {
    if isOut.Ok? && oosOut.Ok? then RobustnessRatio(SharpeOf(oosOut), SharpeOf(isOut)) else 0.0
  }

  function WindowConfig(cfg: Config): Config { cfg.(metricsStart := Warmup(cfg)) }

  predicate Skipped(n: nat, windows: int, per: int, w: int) {
    var end := OosEnd(n, windows, per, w);
    var start := OosStart(n, windows, per, w);
    start < MIN_IS_BARS || end > n || start >= end
  }

  /** The engine on bars lo, ..., hi - 1 of every symbol. */
  type SliceRun = (nat, nat) -> Outcome

  function SliceRunOf(prices: seq<Series>, base: Config): SliceRun {
    (lo: nat, hi: nat) => Backtest(SlicePrices(prices, lo, hi), WindowConfig(base))
  }

  /** Both runs of the window whose out-of-sample bars are start, ..., end - 1. */
  function WindowOver(run: SliceRun, base: Config, w: int, start: nat, end: nat): Window
    requires Warmup(base) <= start
  {
    var isOut, oosOut := run(0, start), run(start - Warmup(base), end);
    Window(w, start, start, end, start - Warmup(base), isOut, oosOut, Ratio(isOut, oosOut))
  }

  function WindowAt(run: SliceRun, prices: seq<Series>, c: WfConfig, w: int): seq<Window>
    requires c.nWindows != 0 && WfGuard(prices, c).None? && 0 <= w < c.nWindows
  {
    var n := LongestLength(prices);
    var per := PerWindow(n, c);
    var end, start := OosEnd(n, c.nWindows, per, w), OosStart(n, c.nWindows, per, w);
    if Skipped(n, c.nWindows, per, w) then []
    else
      WarmupFits(n, c.nWindows, per, w);
      [WindowOver(run, c.base, w, start, end)]
  }

  /** No window starts before window 0. */
  lemma WarmupFits(n: nat, windows: int, per: int, w: int)
    requires 0 <= w < windows && per >= 1
    ensures OosStart(n, windows, per, w) >= n - windows * per
  {
    assert (windows - 1 - w) * per + per == (windows - w) * per;
    assert w * per >= 0;
    assert (windows - w) * per == windows * per - w * per;
  }

  function WindowsUpTo(run: SliceRun, prices: seq<Series>, c: WfConfig, w: int): seq<Window>
    requires c.nWindows != 0 && WfGuard(prices, c).None? && w <= MaxInt(0, c.nWindows)
  {
    if w <= 0 then [] else WindowsUpTo(run, prices, c, w - 1) + WindowAt(run, prices, c, w - 1)
  }

  // ---- verdict ----

  predicate IsValid(w: Window) { w.isOutcome.Ok? && w.oosOutcome.Ok? }

  predicate IsRobust(w: Window) { IsValid(w) && w.robustness >= 0.5 }

  function CountWindows(ws: seq<Window>, p: Window -> bool): nat {
    if ws == [] then 0
    else CountWindows(ws[..|ws| - 1], p) + if p(ws[|ws| - 1]) then 1 else 0
  }

  function VerdictOf(robust: nat, valid: nat): Verdict {
    if valid < 2 then InsuficienteDatos
    else if robust as real / valid as real >= 0.5 then Robusto
    else Sobreajustado
  }

  function Judge(ws: seq<Window>): Result {
    if ws == [] then Insufficient(NoWindows)
    else
      var valid, robust := CountWindows(ws, w => IsValid(w)), CountWindows(ws, w => IsRobust(w));
      Judged(ws, valid, robust, VerdictOf(robust, valid))
  }

  predicate IsRaised(w: Window) { w.isOutcome.Raised? || w.oosOutcome.Raised? }

  predicate AnyRaised(ws: seq<Window>) { exists k :: 0 <= k < |ws| && IsRaised(ws[k]) }

  /** A zero `nWindows` divides by zero, and nothing here catches what the engine raises. */
  function WalkForwardRun(prices: seq<Series>, c: WfConfig): Result {
    if EarlyGuard(prices).Some? then Insufficient(EarlyGuard(prices).value)
    else if c.nWindows == 0 then Aborted
    else
      match WfGuard(prices, c)
      case Some(reason) => Insufficient(reason)
      case None =>
        var ws := WindowsUpTo(SliceRunOf(prices, c.base), prices, c, MaxInt(0, c.nWindows));
        if AnyRaised(ws) then Aborted else Judge(ws)
  }

  // ---- the loop ----

  /** Marks the slices at which the loop's `run` is compared with the engine. */
  predicate Asked(lo: nat, hi: nat) { true }

  ghost predicate RunsFor(run: SliceRun, prices: seq<Series>, base: Config) {
    forall lo: nat, hi: nat {:trigger Asked(lo, hi)} ::
      Asked(lo, hi) ==> run(lo, hi) == Backtest(SlicePrices(prices, lo, hi), WindowConfig(base))
  }

  method RunSlice(prices: seq<Series>, base: Config, lo: nat, hi: nat, ghost run: SliceRun) returns (r: Outcome)
    requires RunsFor(run, prices, base)
    ensures r == run(lo, hi)
  {
    assert Asked(lo, hi);
    r := RunBacktest(SlicePrices(prices, lo, hi), WindowConfig(base));
  }

  method RunWindow(prices: seq<Series>, c: WfConfig, w: int, ghost run: SliceRun)
    returns (ws: seq<Window>, raised: bool)
    requires c.nWindows != 0 && WfGuard(prices, c).None? && 0 <= w < c.nWindows
    requires RunsFor(run, prices, c.base)
    ensures raised == AnyRaised(WindowAt(run, prices, c, w))
    ensures !raised ==> ws == WindowAt(run, prices, c, w)
  {
    var n := LongestLength(prices);
    var per := PerWindow(n, c);
    var end, start := OosEnd(n, c.nWindows, per, w), OosStart(n, c.nWindows, per, w);
    ws, raised := [], false;
    if Skipped(n, c.nWindows, per, w) { return; }
    WarmupFits(n, c.nWindows, per, w);
    var warm := start - Warmup(c.base);
    ghost var window := WindowOver(run, c.base, w, start, end);
    assert WindowAt(run, prices, c, w) == [window] && [window][0] == window;
    var isOut := RunSlice(prices, c.base, 0, start, run);
    if isOut.Raised? { return [], true; }
    var oosOut := RunSlice(prices, c.base, warm, end, run);
    if oosOut.Raised? { return [], true; }
    ws := [Window(w, start, start, end, warm, isOut, oosOut, Ratio(isOut, oosOut))];
  }

  lemma {:induction false} RaisedStays(run: SliceRun, prices: seq<Series>, c: WfConfig, v: int, w: int)
    requires c.nWindows != 0 && WfGuard(prices, c).None? && v <= w <= MaxInt(0, c.nWindows)
    ensures AnyRaised(WindowsUpTo(run, prices, c, v)) ==> AnyRaised(WindowsUpTo(run, prices, c, w))
    decreases w - v
  {
    if v < w {
      RaisedStays(run, prices, c, v, w - 1);
      RaisedIn(WindowsUpTo(run, prices, c, w - 1), if w <= 0 then [] else WindowAt(run, prices, c, w - 1));
    }
  }

  lemma {:induction false} RaisedIn(a: seq<Window>, b: seq<Window>)
    ensures AnyRaised(a + b) == (AnyRaised(a) || AnyRaised(b))
  {
    if k :| 0 <= k < |a| && IsRaised(a[k]) { assert IsRaised((a + b)[k]); }
    if k :| 0 <= k < |b| && IsRaised(b[k]) { assert IsRaised((a + b)[|a| + k]); }
  }

  method RunWindows(prices: seq<Series>, c: WfConfig, ghost run: SliceRun)
    returns (windows: seq<Window>, raised: bool)
    requires c.nWindows != 0 && WfGuard(prices, c).None?
    requires RunsFor(run, prices, c.base)
    ensures raised == AnyRaised(WindowsUpTo(run, prices, c, MaxInt(0, c.nWindows)))
    ensures !raised ==> windows == WindowsUpTo(run, prices, c, MaxInt(0, c.nWindows))
  {
    windows := [];
    for w := 0 to MaxInt(0, c.nWindows)
      invariant windows == WindowsUpTo(run, prices, c, w) && !AnyRaised(windows)
    {
      var ws, stop := RunWindow(prices, c, w, run);
      RaisedIn(windows, WindowAt(run, prices, c, w));
      if stop {
        RaisedStays(run, prices, c, w + 1, MaxInt(0, c.nWindows));
        return [], true;
      }
      windows := windows + ws;
    }
    raised := false;
  }

  method RunWalkForward(prices: seq<Series>, c: WfConfig) returns (r: Result)
    ensures r == WalkForwardRun(prices, c)
  {
    var early := EarlyGuard(prices);
    if early.Some? { return Insufficient(early.value); }
    if c.nWindows == 0 { return Aborted; }
    var reason := WfGuard(prices, c);
    if reason.Some? { return Insufficient(reason.value); }
    var windows, raised := RunWindows(prices, c, SliceRunOf(prices, c.base));
    if raised { return Aborted; }
    r := Judge(windows);
  }
}
