/** Which prices a run works on, said of the series that are handed in. */
module MarketMeaning {
  import opened Common
  import opened CrossSectional
  import opened PortfolioReport

  ghost predicate HasBar(bars: seq<Bar>, d: int) { exists k :: 0 <= k < |bars| && bars[k].date == d }

  ghost predicate Increasing(dates: seq<int>) { forall a, b :: 0 <= a < b < |dates| ==> dates[a] < dates[b] }

  lemma {:induction false} InsertedDate(dates: seq<int>, d: int)
    requires Increasing(dates)
    ensures Increasing(InsertDate(dates, d))
    ensures forall x :: x in InsertDate(dates, d) <==> x in dates || x == d
  {
    if dates != [] {
      var n := |dates| - 1;
      assert dates == dates[..n] + [dates[n]];
      if dates[n] > d {
        InsertedDate(dates[..n], d);
        var r := InsertDate(dates[..n], d);
        forall a | 0 <= a < |r| ensures r[a] < dates[n] { assert r[a] in dates[..n] || r[a] == d; }
      }
    }
  }

  lemma {:induction false} SortedExactly(bars: seq<Bar>)
    ensures Increasing(SortedDates(bars)) && forall d :: d in SortedDates(bars) <==> HasBar(bars, d)
  {
    if bars != [] {
      var n := |bars| - 1;
      SortedExactly(bars[..n]);
      InsertedDate(SortedDates(bars[..n]), bars[n].date);
      forall d ensures HasBar(bars, d) <==> HasBar(bars[..n], d) || bars[n].date == d {
        if HasBar(bars[..n], d) {
          var k :| 0 <= k < n && bars[..n][k].date == d;
          assert bars[k].date == d;
        }
        if k :| 0 <= k < |bars| && bars[k].date == d { if k < n { assert bars[..n][k].date == d; } }
      }
    }
  }

  /** Every series that has bars has one on this day. */
  ghost predicate Shared(working: seq<Series>, d: int) {
    forall s :: s in working && s.bars != [] ==> HasBar(s.bars, d)
  }

  lemma {:induction false} InAllExactly(working: seq<Series>, d: int)
    ensures InAll(working, d) <==> Shared(working, d)
  {
    forall s | s in working ensures d in SortedDates(s.bars) <==> HasBar(s.bars, d) { SortedExactly(s.bars); }
    if InAll(working, d) {
      forall s | s in working && s.bars != [] ensures HasBar(s.bars, d) {
        var j :| 0 <= j < |working| && working[j] == s;
      }
    }
  }

  lemma {:induction false} SharedKeeps(dates: seq<int>, working: seq<Series>)
    requires Increasing(dates)
    ensures Increasing(SharedDates(dates, working))
    ensures forall d :: d in SharedDates(dates, working) <==> d in dates && Shared(working, d)
  {
    if dates != [] {
      var n := |dates| - 1;
      var r := SharedDates(dates[..n], working);
      assert dates == dates[..n] + [dates[n]];
      SharedKeeps(dates[..n], working);
      InAllExactly(working, dates[n]);
      forall a | 0 <= a < |r| ensures r[a] < dates[n] { assert r[a] in r && r[a] in dates[..n]; }
    }
  }

  lemma {:induction false} FirstIsThere(working: seq<Series>)
    ensures match FirstNonEmpty(working)
            case Some(s) => s in working && s.bars != []
            case None => forall s :: s in working ==> s.bars == []
  {
    if working != [] {
      FirstIsThere(working[1..]);
      assert working == [working[0]] + working[1..];
    }
  }

  /** The calendar: in order, the days on which every series with bars has one, where any has. */
  lemma {:induction false} CalendarExactly(working: seq<Series>)
    ensures Increasing(CommonDates(working))
    ensures forall d :: d in CommonDates(working) <==>
      (exists s :: s in working && s.bars != []) && Shared(working, d)
  {
    FirstIsThere(working);
    match FirstNonEmpty(working)
    case None =>
    case Some(s) =>
      SortedExactly(s.bars);
      SharedKeeps(SortedDates(s.bars), working);
  }

  /** Bar k is the last of its day. */
  ghost predicate IsLastOf(bars: seq<Bar>, k: nat, d: int) {
    k < |bars| && bars[k].date == d && forall j :: k < j < |bars| ==> bars[j].date != d
  }

  lemma {:induction false} ClosesExactly(bars: seq<Bar>, d: int, k: nat)
    ensures d in Closes(bars) <==> HasBar(bars, d)
    ensures IsLastOf(bars, k, d) ==> d in Closes(bars) && Closes(bars)[d] == bars[k].close
  {
    if bars != [] {
      var n := |bars| - 1;
      ClosesExactly(bars[..n], d, k);
      if bars[n].date == d {
        assert HasBar(bars, d);
      } else {
        if HasBar(bars[..n], d) {
          var j :| 0 <= j < n && bars[..n][j].date == d;
          assert bars[j].date == d;
        }
        if j :| 0 <= j < |bars| && bars[j].date == d { assert bars[..n][j].date == d; }
        if IsLastOf(bars, k, d) {
          forall j | k < j < n ensures bars[..n][j].date != d { assert bars[..n][j] == bars[j]; }
        }
      }
    }
  }

  lemma {:induction false} TableExactly(working: seq<Series>, j: nat)
    requires j < |working| && forall i :: j < i < |working| ==> working[i].symbol != working[j].symbol
    ensures working[j].symbol in Table(working) && Table(working)[working[j].symbol] == Closes(working[j].bars)
  {
    if j < |working| - 1 {
      assert working[..|working| - 1][j] == working[j];
      TableExactly(working[..|working| - 1], j);
    }
  }

  /** The close a run reads for a symbol on a bar: the last one its series has for that day. */
  lemma {:induction false} PriceIsLastClose(working: seq<Series>, j: nat, i: nat, k: nat)
    requires j < |working| && (forall l :: j < l < |working| ==> working[l].symbol != working[j].symbol)
    requires var m := MarketOf(working); i < |m.common| && IsLastOf(working[j].bars, k, m.common[i])
    ensures At(MarketOf(working), working[j].symbol, i) == working[j].bars[k].close
  {
    TableExactly(working, j);
    ClosesExactly(working[j].bars, MarketOf(working).common[i], k);
  }

  predicate LongEnough(s: Series, need: int) { |s.bars| >= need }

  lemma {:induction false} SurvivorsAreFilter(prices: seq<Series>, need: int)
    ensures Survivors(prices, need) == Filter(prices, (s: Series) => LongEnough(s, need))
  {
    if prices != [] { SurvivorsAreFilter(prices[..|prices| - 1], need); }
  }

  function Lengths(prices: seq<Series>): seq<(Symbol, nat)> {
    seq(|prices|, j requires 0 <= j < |prices| => (prices[j].symbol, |prices[j].bars|))
  }

  lemma {:induction false} ThinAreRejected(prices: seq<Series>, need: int)
    ensures ThinOnes(prices, need) == Lengths(Reject(prices, (s: Series) => LongEnough(s, need)))
  {
    if prices != [] {
      var n := |prices| - 1;
      ThinAreRejected(prices[..n], need);
    }
  }

  /** Which series a run works on and which it reports as dropped. */
  lemma {:induction false} WorkingExactly(prices: seq<Series>, cfg: Config)
    ensures var long, short :=
        Filter(prices, (s: Series) => LongEnough(s, cfg.lookback + cfg.skip + 2)),
        Reject(prices, (s: Series) => LongEnough(s, cfg.lookback + cfg.skip + 2));
      && Working(prices, cfg) == (if |long| >= 2 then long else prices)
      && Dropped(prices, cfg) == (if |long| >= 2 then Lengths(short) else [])
  {
    SurvivorsAreFilter(prices, MinBars(cfg));
    ThinAreRejected(prices, MinBars(cfg));
  }

  /** Which calls are refused up front, in this order, and that no other is. */
  lemma {:induction false} GuardExactly(prices: seq<Series>, cfg: Config)
    ensures var g, days := Guard(prices, cfg), |CommonDates(Working(prices, cfg))|;
      if prices == [] then g == Some(NoPriceData)
      else if cfg.skip >= cfg.lookback then g == Some(SkipNotLess)
      else if cfg.metricsStart < 0 then g == Some(NegativeMetricsStart)
      else if forall s :: s in Working(prices, cfg) ==> s.bars == [] then g == Some(EmptyPriceSeries)
      else if days <= cfg.lookback + 1 then g == Some(InsufficientHistory)
      else if cfg.metricsStart >= days then g == Some(MetricsStartTooLate)
      else g == None
  {
    FirstIsThere(Working(prices, cfg));
  }
}

/** What a report says, of its own curve and returns and of the closes. */
module ReportMeaning {
  import opened Common
  import opened CrossSectional
  import opened PortfolioReport
  import opened PortfolioSafety
  import opened PortfolioEarnings

  /** `to` is `from` and so many percent of it. */
  predicate GrewBy(pct: real, from: real, to: real) { to * 100.0 == from * (100.0 + pct) }

  lemma ReturnIs(final: real, capital: real)
    requires capital > 0.0
    ensures GrewBy(ReturnPct(final, capital), capital, final)
  {
    var q := final / capital;
    assert q * capital == final;
    assert capital * (100.0 + (q - 1.0) * 100.0) == capital * q * 100.0;
  }

  // ---- drawdown ----

  /** `p` is the capital or the highest value of the curve up to bar j, whichever is higher. */
  ghost predicate IsPeak(curve: seq<real>, capital: real, j: nat, p: real) {
    && j < |curve| && capital <= p && (forall i :: 0 <= i <= j ==> curve[i] <= p)
    && (p == capital || exists i :: 0 <= i <= j && curve[i] == p)
  }

  /** The fall from `peak` to `x` is this many percent. */
  predicate Falls(peak: real, x: real, pct: real) { (peak - x) * 100.0 == pct * peak }

  predicate FallsAtMost(peak: real, x: real, pct: real) { (peak - x) * 100.0 <= pct * peak }

  /** No fall from a positive peak so far is greater, and one is as great unless there is none at all. */
  ghost predicate GreatestFall(curve: seq<real>, capital: real, dd: real) {
    && dd >= 0.0
    && (forall j: nat, p :: IsPeak(curve, capital, j, p) && p > 0.0 ==> FallsAtMost(p, curve[j], dd))
    && (dd > 0.0 ==> exists j: nat, p :: IsPeak(curve, capital, j, p) && p > 0.0 && Falls(p, curve[j], dd))
  }

  lemma {:induction false} PeakIs(curve: seq<real>, capital: real)
    requires curve != []
    ensures IsPeak(curve, capital, |curve| - 1, PeakOf(curve, capital))
  {
    var n := |curve| - 1;
    if n > 0 {
      PeakIs(curve[..n], capital);
      var before := PeakOf(curve[..n], capital);
      forall i | 0 <= i <= n ensures curve[i] <= PeakOf(curve, capital) {
        if i < n { assert curve[..n][i] == curve[i]; }
      }
      if PeakOf(curve, capital) == before && before != capital {
        var i :| 0 <= i <= n - 1 && curve[..n][i] == before;
        assert curve[i] == before;
      }
    } else {
      assert curve[..0] == [];
    }
  }

  lemma {:induction false} PeakIsUnique(curve: seq<real>, capital: real, j: nat, p: real, q: real)
    requires IsPeak(curve, capital, j, p) && IsPeak(curve, capital, j, q)
    ensures p == q
  {
  }

  lemma {:induction false} PeakOfPrefix(curve: seq<real>, capital: real, n: nat, j: nat, p: real)
    requires j < n <= |curve|
    ensures IsPeak(curve[..n], capital, j, p) <==> IsPeak(curve, capital, j, p)
  {
    assert forall i :: 0 <= i <= j ==> curve[..n][i] == curve[i];
    if IsPeak(curve[..n], capital, j, p) && p != capital {
      var i :| 0 <= i <= j && curve[..n][i] == p;
      assert curve[i] == p;
    }
    if IsPeak(curve, capital, j, p) && p != capital {
      var i :| 0 <= i <= j && curve[i] == p;
      assert curve[..n][i] == p;
    }
  }

  lemma DrawdownFalls(eq: real, peak: real)
    requires peak > 0.0
    ensures Falls(peak, eq, DrawdownAt(eq, peak))
  {
    assert (peak - eq) / peak * peak == peak - eq;
  }

  lemma FallsMore(peak: real, x: real, a: real, b: real)
    requires peak > 0.0 && a <= b
    ensures Falls(peak, x, a) || FallsAtMost(peak, x, a) ==> FallsAtMost(peak, x, b)
  {
    MulMono(peak, a, b);
    assert a * peak == peak * a && b * peak == peak * b;
  }

  lemma {:induction false} MaxDrawdownIsGreatest(curve: seq<real>, capital: real)
    ensures GreatestFall(curve, capital, MaxDrawdown(curve, capital))
  {
    if curve != [] {
      var n := |curve| - 1;
      MaxDrawdownIsGreatest(curve[..n], capital);
      PeakIs(curve, capital);
      OneMoreFall(curve, capital, MaxDrawdown(curve[..n], capital), PeakOf(curve, capital));
    }
  }

  lemma {:induction false} OneMoreFall(curve: seq<real>, capital: real, before: real, peak: real)
    requires curve != [] && IsPeak(curve, capital, |curve| - 1, peak)
    requires GreatestFall(curve[..|curve| - 1], capital, before)
    ensures GreatestFall(curve, capital,
                         if peak > 0.0 then Max(before, DrawdownAt(curve[|curve| - 1], peak)) else before)
  {
    var n := |curve| - 1;
    var x := curve[n];
    var dd := if peak > 0.0 then Max(before, DrawdownAt(x, peak)) else before;
    if peak > 0.0 { DrawdownFalls(x, peak); }
    forall j: nat, p | IsPeak(curve, capital, j, p) && p > 0.0 ensures FallsAtMost(p, curve[j], dd) {
      if j < n {
        PeakOfPrefix(curve, capital, n, j, p);
        assert FallsAtMost(p, curve[..n][j], before);
        FallsMore(p, curve[j], before, dd);
      } else {
        PeakIsUnique(curve, capital, n, p, peak);
        FallsMore(p, x, DrawdownAt(x, peak), dd);
      }
    }
    if dd > 0.0 { SomeFall(curve, capital, before, peak, dd); }
  }

  lemma {:induction false} SomeFall(curve: seq<real>, capital: real, before: real, peak: real, dd: real)
    requires curve != [] && IsPeak(curve, capital, |curve| - 1, peak) && dd > 0.0
    requires GreatestFall(curve[..|curve| - 1], capital, before)
    requires dd == if peak > 0.0 then Max(before, DrawdownAt(curve[|curve| - 1], peak)) else before
    ensures exists j: nat, p :: IsPeak(curve, capital, j, p) && p > 0.0 && Falls(p, curve[j], dd)
  {
    var n := |curve| - 1;
    if dd == before {
      var j: nat, p :| IsPeak(curve[..n], capital, j, p) && p > 0.0 && Falls(p, curve[..n][j], before);
      PeakOfPrefix(curve, capital, n, j, p);
      assert Falls(p, curve[j], dd);
    } else {
      DrawdownFalls(curve[n], peak);
    }
  }

  // ---- Sharpe, costs, benchmark ----

  /** The ratio times the deviation is the mean return in yearly terms; without a deviation it is nothing. */
  predicate IsSharpe(cfg: Config, rets: seq<real>, sharpe: real) {
    if |rets| >= 2 && Std(cfg, rets) > 0.0 then sharpe * Std(cfg, rets) == Mean(rets) * cfg.sqrt(cfg.periodsPerYear)
    else sharpe == 0.0
  }

  lemma SharpeIs(cfg: Config, rets: seq<real>)
    ensures IsSharpe(cfg, rets, Sharpe(cfg, rets))
  {
    if |rets| >= 2 && Std(cfg, rets) > 0.0 {
      RatioOf(Mean(rets), Std(cfg, rets), cfg.sqrt(cfg.periodsPerYear), Sharpe(cfg, rets));
    }
  }

  lemma RatioOf(mean: real, std: real, year: real, ratio: real)
    requires std > 0.0 && ratio == mean / std * year
    ensures ratio * std == mean * year
  {
    assert mean / std * std == mean;
  }

  /** `x` is so many percent of `whole`. */
  predicate IsPercent(pct: real, x: real, whole: real) { pct * whole == x * 100.0 }

  lemma PercentIs(x: real, whole: real)
    requires whole > 0.0
    ensures IsPercent(PctOf(x, whole), x, whole)
  {
    assert x / whole * whole == x;
  }

  /** The costs charged on the bars from m on. */
  function CostsFrom(events: seq<(int, real)>, m: int): seq<real> {
    var late := Filter(events, (e: (int, real)) => e.0 >= m);
    seq(|late|, j requires 0 <= j < |late| => late[j].1)
  }

  lemma {:induction false} CostFromAdds(events: seq<(int, real)>, m: int)
    ensures CostFrom(events, m) == Sum(CostsFrom(events, m))
  {
    if events != [] {
      var n := |events| - 1;
      CostFromAdds(events[..n], m);
      var before, now := CostsFrom(events[..n], m), CostsFrom(events, m);
      if events[n].0 >= m { assert now[..|before|] == before; } else { assert now == before; }
    }
  }

  /** What bar i's rebalance charges: the rate on every change of weight, times the equity before it. */
  function CostAt(m: Market, cfg: Config, i: nat): real
    requires Runnable(cfg) && i < |m.common|
  {
    Charge(cfg.costPct, Sum(Changes(m.symbols, Run(m, cfg, i + 1).weights, Run(m, cfg, i).weights)), Run(m, cfg, i).equity)
  }

  function Charge(pct: real, traded: real, equity: real): real { pct * traded * equity }

  /** One cost event for each rebalance bar, in order. */
  function Charges(m: Market, cfg: Config, n: nat): seq<(int, real)>
    requires Runnable(cfg) && n <= |m.common|
  {
    if n == 0 then [] else Charges(m, cfg, n - 1) + if IsRebalance(cfg, n - 1) then [(n - 1, CostAt(m, cfg, n - 1))] else []
  }

  lemma {:induction false} RebalanceCharge(m: Market, cfg: Config, i: nat, st: State)
    requires Runnable(cfg) && i < |m.common|
    ensures var r := Rebalance(m, cfg, i, st);
      var cost := Charge(cfg.costPct, Sum(Changes(m.symbols, r.weights, st.weights)), st.equity);
      r.costEvents == st.costEvents + [(i, cost)] && r.totalCost == st.totalCost + cost
  {
    var w := NewWeights(m, cfg, Select(m, cfg, i), i);
    ChangesAdd(m.symbols, w, st.weights);
    RebalanceBooks(m, cfg, i, st, w);
  }

  lemma {:induction false} RebalanceBooks(m: Market, cfg: Config, i: nat, st: State, w: map<Symbol, real>)
    requires Runnable(cfg) && i < |m.common| && w == NewWeights(m, cfg, Select(m, cfg, i), i)
    ensures var r, cost := Rebalance(m, cfg, i, st), Charge(cfg.costPct, Traded(m.symbols, w, st.weights), st.equity);
      r.weights == w && r.costEvents == st.costEvents + [(i, cost)] && r.totalCost == st.totalCost + cost
  {
    ChargeIsCost(cfg.costPct, Traded(m.symbols, w, st.weights), st.equity);
  }

  lemma ChargeIsCost(pct: real, traded: real, equity: real)
    ensures TradeCost(pct, traded, equity) == Charge(pct, traded, equity)
  {
  }

  lemma {:induction false} RecordKeepsCosts(i: int, st: State, e: real)
    ensures var next := Record(i, st, e);
      next.costEvents == st.costEvents && next.totalCost == st.totalCost && next.weights == st.weights
  {
  }

  /** What one bar adds to the recorded costs. */
  ghost predicate AddsCost(st: State, next: State, rebalances: bool, i: nat, cost: real) {
    && next.costEvents == st.costEvents + (if rebalances then [(i, cost)] else [])
    && next.totalCost == st.totalCost + if rebalances then cost else 0.0
  }

  lemma {:induction false} StepCharges(m: Market, cfg: Config, i: nat, st: State, next: State)
    requires Runnable(cfg) && i < |m.common| && next == Step(m, cfg, i, st)
    ensures var cost := Charge(cfg.costPct, Sum(Changes(m.symbols, next.weights, st.weights)), st.equity);
      AddsCost(st, next, IsRebalance(cfg, i), i, cost)
  {
    var held := Positioned(m, cfg, i, st);
    RecordKeepsCosts(i, held, Earned(m, i, held));
    if IsRebalance(cfg, i) { RebalanceCharge(m, cfg, i, st); }
  }

  /** The recorded costs are these events, and they add up to the total. */
  ghost predicate Charged(st: State, events: seq<(int, real)>) {
    st.costEvents == events && st.totalCost == CostFrom(events, 0)
  }

  lemma {:induction false} OneMoreCharge(
    st: State, next: State, events: seq<(int, real)>, rebalances: bool, i: nat, cost: real)
    requires Charged(st, events) && AddsCost(st, next, rebalances, i, cost)
    ensures Charged(next, events + if rebalances then [(i, cost)] else [])
  {
    if rebalances { CostFromPush(events, i, cost); } else { assert events + [] == events; }
  }

  /** Every cost of a run is recorded on its bar, and the total is their sum. */
  lemma {:induction false} CostsAreCharges(m: Market, cfg: Config, n: nat)
    requires Runnable(cfg) && n <= |m.common|
    ensures Charged(Run(m, cfg, n), Charges(m, cfg, n))
  {
    if n > 0 {
      CostsAreCharges(m, cfg, n - 1);
      NextCharge(m, cfg, n - 1, Run(m, cfg, n - 1), Run(m, cfg, n), Charges(m, cfg, n - 1), CostAt(m, cfg, n - 1));
    }
  }

  lemma {:induction false} NextCharge(
    m: Market, cfg: Config, i: nat, st: State, next: State, events: seq<(int, real)>, cost: real)
    requires Runnable(cfg) && i < |m.common| && next == Step(m, cfg, i, st) && Charged(st, events)
    requires cost == Charge(cfg.costPct, Sum(Changes(m.symbols, next.weights, st.weights)), st.equity)
    ensures Charged(next, events + if IsRebalance(cfg, i) then [(i, cost)] else [])
  {
    StepCharges(m, cfg, i, st, next);
    OneMoreCharge(st, next, events, IsRebalance(cfg, i), i, cost);
  }

  lemma {:induction false} CostFromPush(events: seq<(int, real)>, i: int, cost: real)
    requires i >= 0
    ensures CostFrom(events + [(i, cost)], 0) == CostFrom(events, 0) + cost
  {
    assert (events + [(i, cost)])[..|events|] == events;
  }

  /** The closes of bar k and the one before are usable. */
  predicate Usable(m: Market, s: Symbol, k: nat) {
    1 <= k < |m.common| && At(m, s, k - 1) > 0.0 && At(m, s, k) != 0.0
  }

  function MovesOf(m: Market, names: seq<Symbol>, k: nat): seq<real>
    requires k < |m.common|
  {
    seq(|names|, j requires 0 <= j < |names| => Move(m, names[j], k))
  }

  lemma {:induction false} CrossReturnsAre(m: Market, names: seq<Symbol>, k: nat)
    requires 1 <= k < |m.common|
    ensures CrossReturns(m, names, k) == MovesOf(m, Filter(names, (s: Symbol) => Usable(m, s, k)), k)
  {
    if names != [] {
      var n := |names| - 1;
      CrossReturnsAre(m, names[..n], k);
      DayReturnIs(m, names[n], k);
    }
  }

  lemma DayReturnIs(m: Market, s: Symbol, k: nat)
    requires 1 <= k < |m.common|
    ensures DayReturn(m, s, k) == if Usable(m, s, k) then Some(Move(m, s, k)) else None
  {
  }

  /** One day of the benchmark: the average move of the symbols with usable closes, where there are any. */
  lemma {:induction false} BenchmarkAverages(m: Market, lo: nat, hi: nat)
    requires 1 <= lo < hi <= |m.common|
    ensures var priced := Filter(m.symbols, (s: Symbol) => Usable(m, s, hi - 1));
      var before := Benchmark(m, lo, hi - 1);
      Benchmark(m, lo, hi) == if priced == [] then before
                              else before * (1.0 + Sum(MovesOf(m, priced, hi - 1)) / |priced| as real)
  {
    CrossReturnsAre(m, m.symbols, hi - 1);
  }

  /** The closes of one symbol alone: the benchmark is the ratio of the last to the first. */
  lemma {:induction false} BenchmarkOfOne(m: Market, s: Symbol, lo: nat, hi: nat)
    requires 1 <= lo <= hi <= |m.common| && m.symbols == [s]
    requires forall k :: lo - 1 <= k < hi ==> At(m, s, k) > 0.0
    ensures Follows(1.0, Benchmark(m, lo, hi), At(m, s, lo - 1), At(m, s, hi - 1))
    decreases hi
  {
    if lo < hi {
      var x, y := Benchmark(m, lo, hi - 1), Benchmark(m, lo, hi);
      BenchmarkOfOne(m, s, lo, hi - 1);
      BenchmarkDay(m, s, lo, hi);
      Telescope(1.0, x, y, At(m, s, lo - 1), At(m, s, hi - 2), At(m, s, hi - 1));
    } else {
      assert Follows(1.0, 1.0, At(m, s, lo - 1), At(m, s, lo - 1));
    }
  }

  lemma {:induction false} BenchmarkDay(m: Market, s: Symbol, lo: nat, hi: nat)
    requires 1 <= lo < hi <= |m.common| && m.symbols == [s]
    requires At(m, s, hi - 2) > 0.0 && At(m, s, hi - 1) > 0.0
    ensures Follows(Benchmark(m, lo, hi - 1), Benchmark(m, lo, hi), At(m, s, hi - 2), At(m, s, hi - 1))
  {
    OneMean(m, s, hi - 1);
    CompoundFollows(Benchmark(m, lo, hi - 1), At(m, s, hi - 2), At(m, s, hi - 1));
  }

  lemma {:induction false} OneMean(m: Market, s: Symbol, k: nat)
    requires 1 <= k < |m.common| && At(m, s, k - 1) > 0.0 && At(m, s, k) > 0.0
    ensures CrossMean(m, [s], k) == Some(At(m, s, k) / At(m, s, k - 1) - 1.0)
  {
    var r := At(m, s, k) / At(m, s, k - 1) - 1.0;
    assert [s][..0] == [] && CrossReturns(m, [], k) == [];
    assert CrossReturns(m, [s], k) == [r];
    assert [r][..0] == [] && Sum([r]) == r;
  }

  lemma CompoundFollows(x: real, p: real, q: real)
    requires p > 0.0
    ensures Follows(x, Compound(x, q / p - 1.0), p, q)
  {
    var r := q / p;
    assert r * p == q;
    assert x * (1.0 + (r - 1.0)) == x * r;
    assert x * r * p == x * (r * p);
  }

  /** How many rebalances before bar n had to fall back to equal weights. */
  function FallbacksBefore(m: Market, cfg: Config, n: nat): nat
    requires Runnable(cfg) && n <= |m.common|
  {
    if n == 0 then 0 else FallbacksBefore(m, cfg, n - 1) + FallbackAt(m, cfg, n - 1)
  }

  function FallbackAt(m: Market, cfg: Config, i: nat): nat
    requires Runnable(cfg) && i < |m.common|
  {
    if IsRebalance(cfg, i) && FallsBack(m, cfg, Select(m, cfg, i), i) then 1 else 0
  }

  /** Inverse-volatility weights are asked for and some chosen name has no usable deviation. */
  predicate FallsBack(m: Market, cfg: Config, names: seq<Symbol>, i: nat)
    requires i < |m.common|
  {
    cfg.inverseVol && names != [] && exists j :: 0 <= j < |names| && NoDeviation(m, cfg, names[j], i)
  }

  predicate NoDeviation(m: Market, cfg: Config, s: Symbol, i: nat)
    requires i < |m.common|
  {
    var v := Vol(m, cfg, s, i);
    v.None? || v.value <= 0.0
  }

  lemma {:induction false} NoInverses(m: Market, cfg: Config, names: seq<Symbol>, i: nat)
    requires i < |m.common|
    ensures Inverses(m, cfg, names, i).None? <==> exists j :: 0 <= j < |names| && NoDeviation(m, cfg, names[j], i)
  {
    if names != [] {
      var n := |names| - 1;
      NoInverses(m, cfg, names[..n], i);
      if j :| 0 <= j < n && NoDeviation(m, cfg, names[..n][j], i) { assert NoDeviation(m, cfg, names[j], i); }
      if j :| 0 <= j < |names| && NoDeviation(m, cfg, names[j], i) {
        if j < n { assert NoDeviation(m, cfg, names[..n][j], i); }
      }
    }
  }

  lemma {:induction false} SharesFallBack(m: Market, cfg: Config, names: seq<Symbol>, i: nat)
    requires i < |m.common|
    ensures Shares(m, cfg, names, i).1 <==> FallsBack(m, cfg, names, i)
  {
    NoInverses(m, cfg, names, i);
    if Inverses(m, cfg, names, i).Some? && names != [] {
      InversesPositive(m, cfg, names, i);
      UnitShares(Inverses(m, cfg, names, i).value);
    }
  }

  lemma {:induction false} StepFallsBack(m: Market, cfg: Config, i: nat, st: State, next: State)
    requires Runnable(cfg) && i < |m.common| && next == Step(m, cfg, i, st)
    ensures next.fallbacks == st.fallbacks + FallbackAt(m, cfg, i)
  {
    SharesFallBack(m, cfg, Select(m, cfg, i), i);
  }

  /** The reported count of fallbacks is the number of rebalances that had to fall back. */
  lemma {:induction false} FallbacksAreCounted(m: Market, cfg: Config, n: nat)
    requires Runnable(cfg) && n <= |m.common|
    ensures Run(m, cfg, n).fallbacks == FallbacksBefore(m, cfg, n)
  {
    if n > 0 {
      var st, next, before := Run(m, cfg, n - 1), Run(m, cfg, n), FallbacksBefore(m, cfg, n - 1);
      FallbacksAreCounted(m, cfg, n - 1);
      StepFallsBack(m, cfg, n - 1, st, next);
      assert next.fallbacks == before + FallbackAt(m, cfg, n - 1);
    }
  }

  // ---- the report ----

  function Values(curve: seq<(int, real)>): seq<real> {
    seq(|curve|, j requires 0 <= j < |curve| => curve[j].1)
  }

  lemma {:induction false} DatedValues(dates: seq<int>, xs: seq<real>)
    requires |dates| == |xs|
    ensures Values(Dated(dates, xs)) == xs
  {
  }

  /** The total cost is a share of the capital, or of the equity the evaluated window starts from. */
  ghost predicate CostsSay(m: Market, cfg: Config, st: State, pct: real)
    requires Runnable(cfg) && 0 <= cfg.metricsStart < |st.raw|
  {
    var start := cfg.metricsStart;
    var whole := if start == 0 then cfg.capital else st.raw[start];
    whole > 0.0 ==> IsPercent(pct, Sum(CostsFrom(Charges(m, cfg, |m.common|), start)), whole)
  }

  lemma {:induction false} EvaluatedCosts(m: Market, cfg: Config, st: State)
    requires Runnable(cfg) && st == Run(m, cfg, |m.common|) && 0 <= cfg.metricsStart < |st.raw|
    requires Evaluate(cfg, st).Some?
    ensures CostsSay(m, cfg, st, Evaluate(cfg, st).value.costPct)
  {
    CostsAreCharges(m, cfg, |m.common|);
    CostFromAdds(Charges(m, cfg, |m.common|), cfg.metricsStart);
    if cfg.metricsStart == 0 {
      if cfg.capital > 0.0 { PercentIs(st.totalCost, cfg.capital); }
    } else {
      PercentIs(CostFrom(st.costEvents, cfg.metricsStart), st.raw[cfg.metricsStart]);
    }
  }

  /** The report covers the bars from the start on, and its numbers are those of its own curve and returns. */
  ghost predicate Says(m: Market, cfg: Config, r: Report)
    requires 0 <= cfg.metricsStart < |m.common|
  {
    var values, start := Values(r.curve), cfg.metricsStart;
    && |r.curve| == |m.common| - start && (forall j :: 0 <= j < |r.curve| ==> r.curve[j].0 == m.common[start + j])
    && Measure(m, cfg, values, r.rets, r.metrics)
    && r.nDates == |m.common| && r.universe == |m.symbols| && r.evaluatedBars == |m.common| - start
  }

  /** The same of metrics, before they are put into a report. */
  ghost predicate Measure(m: Market, cfg: Config, values: seq<real>, rets: seq<real>, x: Metrics)
    requires 0 <= cfg.metricsStart < |m.common| && values != []
  {
    && (cfg.capital > 0.0 ==>
         && GrewBy(x.totalReturnPct, cfg.capital, values[|values| - 1])
         && GrewBy(x.buyHoldPct, cfg.capital, cfg.capital * Benchmark(m, cfg.metricsStart + 1, |m.common|)))
    && x.alphaPct == x.totalReturnPct - x.buyHoldPct && IsYearly(m, cfg, values, x.cagrPct)
    && GreatestFall(values, cfg.capital, x.maxDrawdownPct) && IsSharpe(cfg, rets, x.sharpe)
  }

  /** The yearly growth between the first and the last evaluated day, where the curve starts and ends above zero. */
  predicate IsYearly(m: Market, cfg: Config, values: seq<real>, pct: real)
    requires 0 <= cfg.metricsStart < |m.common| && values != []
  {
    var last := values[|values| - 1];
    if |values| >= 2 && cfg.capital > 0.0 && last > 0.0 then
      100.0 + pct == cfg.annualised(last / cfg.capital, m.common[cfg.metricsStart], m.common[|m.common| - 1]) * 100.0
    else pct == 0.0
  }

  lemma {:induction false} MetricsMeasure(m: Market, cfg: Config, values: seq<real>, rets: seq<real>, costPct: real)
    requires 0 <= cfg.metricsStart < |m.common| && values != []
    ensures Measure(m, cfg, values, rets, MetricsOf(m, cfg, values, rets, costPct))
  {
    MaxDrawdownIsGreatest(values, cfg.capital);
    SharpeIs(cfg, rets);
    if cfg.capital > 0.0 {
      ReturnIs(values[|values| - 1], cfg.capital);
      ReturnIs(cfg.capital * Benchmark(m, cfg.metricsStart + 1, |m.common|), cfg.capital);
    }
  }

  lemma {:induction false} ReportOfSays(prices: seq<Series>, cfg: Config, st: State, e: Evaluation)
    requires Guard(prices, cfg).None? && |e.curve| == |CommonDates(Working(prices, cfg))| - cfg.metricsStart
    ensures var m := MarketOf(Working(prices, cfg));
      0 <= cfg.metricsStart < |m.common|
      && Says(m, cfg, ReportOf(prices, cfg, st, e, MetricsOf(m, cfg, e.curve, e.rets, e.costPct)))
  {
    var m := MarketOf(Working(prices, cfg));
    DatedValues(m.common[cfg.metricsStart..], e.curve);
    MetricsMeasure(m, cfg, e.curve, e.rets, e.costPct);
  }

  /** Every report of the backtester, for any prices and any configuration. */
  lemma {:induction false} EveryReportSays(prices: seq<Series>, raw: Config)
    requires Backtest(prices, raw).Ok?
    ensures var cfg := Normalised(raw);
      var m := MarketOf(Working(prices, cfg));
      && Runnable(cfg) && 0 <= cfg.metricsStart < |m.common|
      && Says(m, cfg, Backtest(prices, raw).report)
      && |Run(m, cfg, |m.common|).raw| == |m.common|
      && CostsSay(m, cfg, Run(m, cfg, |m.common|), Backtest(prices, raw).report.metrics.totalCostPct)
  {
    var cfg := Normalised(raw);
    var m := MarketOf(Working(prices, cfg));
    var st := Run(m, cfg, |m.common|);
    RawLength(m, cfg, |m.common|);
    ReportOfSays(prices, cfg, st, Evaluate(cfg, st).value);
    EvaluatedCosts(m, cfg, st);
  }
}

/** What is chosen, how it is weighted and how it is scaled, said of closes, returns and deviations. */
module ChoiceMeaning {
  import opened Common
  import opened CapWeights
  import opened CrossSectional
  import opened PortfolioSafety

  // ---- the choice ----

  /** From `lookback` bars ago to `skip` bars ago the close rose. */
  predicate Rose(m: Market, cfg: Config, s: Symbol, i: int)
    requires 0 <= i < |m.common|
  {
    0 <= i - cfg.lookback < |m.common| && 0 <= i - cfg.skip < |m.common|
    && At(m, s, i - cfg.skip) > At(m, s, i - cfg.lookback) > 0.0
  }

  /** It rose by at least as large a factor. */
  predicate RoseAsMuch(m: Market, cfg: Config, s: Symbol, t: Symbol, i: int)
    requires 0 <= i < |m.common| && 0 <= i - cfg.lookback < |m.common| && 0 <= i - cfg.skip < |m.common|
  {
    At(m, s, i - cfg.skip) * At(m, t, i - cfg.lookback) >= At(m, t, i - cfg.skip) * At(m, s, i - cfg.lookback)
  }

  lemma MomentumRose(now: real, past: real)
    requires past > 0.0
    ensures now / past - 1.0 > 0.0 <==> now > past
  {
    var q := now / past;
    assert q * past == now;
    if q > 1.0 { MulPositive(q - 1.0, past); } else { MulMono(past, q, 1.0); }
  }

  lemma {:induction false} PositiveMomentumRose(m: Market, cfg: Config, s: Symbol, i: int)
    requires Runnable(cfg) && 0 <= i < |m.common| && 0 <= i - cfg.lookback && 0 <= i - cfg.skip
    ensures Momentum(m, cfg, s, i).Some? && Momentum(m, cfg, s, i).value > 0.0 <==> Rose(m, cfg, s, i)
  {
    if i - cfg.skip < |m.common| && At(m, s, i - cfg.lookback) > 0.0 {
      MomentumRose(At(m, s, i - cfg.skip), At(m, s, i - cfg.lookback));
    }
  }

  lemma RatioOrder(a: real, b: real, c: real, d: real)
    requires b > 0.0 && d > 0.0 && a / b >= c / d
    ensures a * d >= c * b
  {
    var p, q := a / b, c / d;
    assert p * b == a && q * d == c;
    MulPositive(b, d);
    MulMono(b * d, q, p);
    assert (b * d) * p == (p * b) * d && (b * d) * q == (q * d) * b;
  }

  /** What is held rose, and no name that is left out rose by more while places were short. */
  lemma {:induction false} HeldRoseMost(m: Market, cfg: Config, i: int, held: Symbol, out: Symbol)
    requires 0 <= i < |m.common| && Runnable(cfg) && Distinct(m.symbols) && i >= cfg.lookback && i >= cfg.skip
    requires held in Select(m, cfg, i)
    ensures held in m.symbols && Rose(m, cfg, held, i)
    ensures out in m.symbols && out !in Select(m, cfg, i) && Rose(m, cfg, out, i) ==>
      RoseAsMuch(m, cfg, held, out, i) && |Select(m, cfg, i)| == Places(|m.symbols|, cfg.topN)
  {
    SelectIsDistinct(m, cfg, i);
    PositiveMomentumRose(m, cfg, held, i);
    if out in m.symbols && out !in Select(m, cfg, i) && Rose(m, cfg, out, i) {
      PositiveMomentumRose(m, cfg, out, i);
      SelectIsTop(m, cfg, i, held, out);
      RatioOrder(At(m, held, i - cfg.skip), At(m, held, i - cfg.lookback),
                 At(m, out, i - cfg.skip), At(m, out, i - cfg.lookback));
    }
  }

  // ---- the weights ----

  /** The weight times the deviation is the budget every name shares. */
  predicate Carries(weight: real, deviation: real, budget: real) { weight * deviation == budget }

  lemma {:induction false} InversesAre(m: Market, cfg: Config, names: seq<Symbol>, i: int)
    requires 0 <= i < |m.common| && Inverses(m, cfg, names, i).Some?
    ensures var inv := Inverses(m, cfg, names, i).value;
      && |inv| == |names|
      && forall j :: 0 <= j < |names| ==>
           Vol(m, cfg, names[j], i).Some? && Carries(inv[j], Vol(m, cfg, names[j], i).value, 1.0)
  {
    if names != [] {
      var n := |names| - 1;
      var before, v := Inverses(m, cfg, names[..n], i).value, Vol(m, cfg, names[n], i).value;
      InversesAre(m, cfg, names[..n], i);
      UnitCarries(v);
      forall j | 0 <= j < |names|
        ensures Vol(m, cfg, names[j], i).Some? && Carries((before + [1.0 / v])[j], Vol(m, cfg, names[j], i).value, 1.0)
      {
        if j < n { assert names[..n][j] == names[j]; }
      }
    }
  }

  lemma UnitCarries(v: real)
    requires v != 0.0
    ensures Carries(1.0 / v, v, 1.0)
  {
  }

  lemma ScaledCarries(inv: real, v: real, total: real)
    requires total > 0.0 && Carries(inv, v, 1.0)
    ensures Carries(inv / total, v, 1.0 / total)
  {
    var k := 1.0 / total;
    assert inv / total == inv * k;
    assert (inv * k) * v == (inv * v) * k;
  }

  predicate IsTimes(product: real, x: real, c: real) { product == x * c }

  lemma TimesCarries(w: real, v: real, b: real, c: real, share: real, budget: real)
    requires Carries(w, v, b) && IsTimes(share, w, c) && IsTimes(budget, b, c)
    ensures Carries(share, v, budget)
  {
    assert (w * c) * v == (w * v) * c;
  }

  /** Every name but at most one carries the same risk; the one that would be too heavy sits at one half. */
  ghost predicate Parity(shares: seq<real>, vols: seq<real>, budget: real, o: int)
    requires |shares| == |vols|
  {
    && -1 <= o < |shares| && (o >= 0 ==> shares[o] == 0.5)
    && forall j :: 0 <= j < |shares| && j != o ==> Carries(shares[j], vols[j], budget)
  }

  lemma {:induction false} CappedParity(inv: seq<real>, vols: seq<real>) returns (budget: real, o: int)
    requires |inv| == |vols| && |inv| >= 2 && Positive(inv)
    requires forall j :: 0 <= j < |inv| ==> Carries(inv[j], vols[j], 1.0)
    ensures Sum(inv) > 0.0 && Parity(Capped(Scaled(inv, Sum(inv))), vols, budget, o)
  {
    UnitShares(inv);
    var total := Sum(inv);
    var w := Scaled(inv, total);
    forall j | 0 <= j < |w| ensures Carries(w[j], vols[j], 1.0 / total) { ScaledCarries(inv[j], vols[j], total); }
    SettlesAfterOneRound(w, |w|);
    if OverCount(w) == 0 {
      budget, o := 1.0 / total, -1;
    } else {
      budget, o := OverParity(w, vols, 1.0 / total);
    }
  }

  /** All but the name put at the cap grow by one factor. */
  lemma {:induction false} Lightened(w: seq<real>) returns (o: int, c: real)
    requires |w| >= 2 && Positive(w) && Sum(w) == 1.0 && OverCount(w) > 0 && OverCount(w) < |w|
    ensures 0 <= o < |w| && Redistribute(w)[o] == 0.5
    ensures forall j :: 0 <= j < |w| && j != o ==> IsTimes(Redistribute(w)[j], w[j], c)
  {
    o := SomeOver(w);
    c := RedistributeOnce(w, o);
  }

  lemma {:induction false} OverParity(w: seq<real>, vols: seq<real>, each: real) returns (budget: real, o: int)
    requires |w| == |vols| && |w| >= 2 && Positive(w) && Sum(w) == 1.0 && OverCount(w) > 0 && OverCount(w) < |w|
    requires forall j :: 0 <= j < |w| ==> Carries(w[j], vols[j], each)
    ensures Parity(Redistribute(w), vols, budget, o)
  {
    var c;
    o, c := Lightened(w);
    budget := each * c;
    forall j | 0 <= j < |w| && j != o ensures Carries(Redistribute(w)[j], vols[j], budget) {
      TimesCarries(w[j], vols[j], each, c, Redistribute(w)[j], budget);
    }
  }

  /** Inverse-volatility weights of two or more names: equal risk, but for a name at the cap. */
  lemma {:induction false} RiskParity(m: Market, cfg: Config, names: seq<Symbol>, i: int)
    returns (vols: seq<real>, budget: real, o: int)
    requires 0 <= i < |m.common| && cfg.inverseVol && |names| >= 2 && Inverses(m, cfg, names, i).Some?
    ensures |vols| == |Shares(m, cfg, names, i).0| == |names| && !Shares(m, cfg, names, i).1
    ensures forall j :: 0 <= j < |names| ==> Vol(m, cfg, names[j], i) == Some(vols[j])
    ensures Parity(Shares(m, cfg, names, i).0, vols, budget, o)
  {
    var inv := Inverses(m, cfg, names, i).value;
    InversesAre(m, cfg, names, i);
    InversesPositive(m, cfg, names, i);
    vols := seq(|names|, j requires 0 <= j < |names| => Vol(m, cfg, names[j], i).value);
    budget, o := CappedParity(inv, vols);
    SharesLength(m, cfg, names, i);
  }

  /** The fallback: a name without a usable deviation, or equal weighting, gives everyone the same. */
  lemma {:induction false} EqualOtherwise(m: Market, cfg: Config, names: seq<Symbol>, i: int)
    requires 0 <= i < |m.common| && names != [] && (!cfg.inverseVol || Inverses(m, cfg, names, i).None?)
    ensures var (ws, fell) := Shares(m, cfg, names, i);
      && |ws| == |names| && (fell <==> cfg.inverseVol)
      && forall j :: 0 <= j < |names| ==> Carries(ws[j], |names| as real, 1.0)
  {
    UnitCarries(|names| as real);
    assert Shares(m, cfg, names, i).0 == EqualShares(|names|);
  }

  // ---- the scale ----

  /** The scale brings the yearly deviation of the recent returns to the target, as far as the leverage goes. */
  predicate MeetsTarget(cfg: Config, scale: real, deviation: real) {
    scale <= cfg.maxLeverage
    && (scale < cfg.maxLeverage ==> scale * deviation == cfg.volTarget)
    && scale * deviation <= cfg.volTarget
  }

  lemma {:induction false} ScaleMeetsTarget(cfg: Config, rets: seq<real>)
    requires |rets| >= 2 && Std(cfg, rets) * cfg.sqrt(252.0) > 0.0
    ensures MeetsTarget(cfg, ExposureOf(cfg, rets), Std(cfg, rets) * cfg.sqrt(252.0))
  {
    LeastOf(cfg.maxLeverage, cfg.volTarget, Std(cfg, rets) * cfg.sqrt(252.0), ExposureOf(cfg, rets));
  }

  lemma LeastOf(most: real, target: real, deviation: real, scale: real)
    requires deviation > 0.0 && scale == Min(most, target / deviation)
    ensures scale <= most && (scale < most ==> scale * deviation == target) && scale * deviation <= target
  {
    var q := target / deviation;
    assert q * deviation == target;
    MulMono(deviation, scale, q);
  }
}

/** One rising name, no costs, no scaling: the strategy is its own benchmark. */
module BuyAndHold {
  import opened Common
  import opened CrossSectional
  import opened PortfolioReport
  import opened PortfolioSafety
  import opened PortfolioCausality
  import opened PortfolioEarnings
  import opened ReportMeaning
  import opened ChoiceMeaning

  /** One symbol with positive closes that has risen whenever it can be chosen, held free of charge at full scale. */
  ghost predicate Rises(m: Market, cfg: Config, s: Symbol) {
    && Runnable(cfg) && m.symbols == [s] && cfg.topN >= 1 && CanHold(cfg) && cfg.skip >= 0
    && cfg.costPct == 0.0 && cfg.volTarget <= 0.0
    && (forall k :: 0 <= k < |m.common| ==> At(m, s, k) > 0.0)
    && (forall i :: 0 <= i < |m.common| && IsRebalance(cfg, i) ==> Rose(m, cfg, s, i))
  }

  lemma {:induction false} SoleChoice(m: Market, cfg: Config, s: Symbol, i: nat)
    requires Rises(m, cfg, s) && i < |m.common| && IsRebalance(cfg, i)
    ensures Select(m, cfg, i) == [s]
  {
    var r := Rank(s, Momentum(m, cfg, s, i));
    PositiveMomentumRose(m, cfg, s, i);
    assert [s][..0] == [] && Ranked(m, cfg, [], i) == [];
    assert Ranked(m, cfg, [s], i) == [r];
    assert SliceTo([r], cfg.topN) == [r];
    OneScored(r);
  }

  lemma {:induction false} OneScored(r: Rank)
    requires IsPositive(r)
    ensures PositiveNames([r]) == [r.name] && Breadth([r]) == 1.0
  {
    assert [r][..0] == [];
    assert PositiveNames([]) == [] && ScoredCount([]) == 0;
    assert ScoredCount([r]) == 1;
    QuotientIs(1.0, 1.0, 1.0);
  }

  lemma {:induction false} SoleWeight(m: Market, cfg: Config, s: Symbol, i: nat)
    requires i < |m.common|
    ensures Weight(NewWeights(m, cfg, [s], i), s) == 1.0
  {
    SharesSumToOne(m, cfg, [s], i);
    var ws := Shares(m, cfg, [s], i).0;
    assert Sum(ws[..0]) == 0.0;
    assert Zip([s][..0], ws[..0]) == map[];
  }

  lemma {:induction false} ChosenAlone(m: Market, cfg: Config, s: Symbol, i: nat, st: State)
    requires Rises(m, cfg, s) && i < |m.common| && IsRebalance(cfg, i)
    ensures var p := Positioned(m, cfg, i, st);
      p.holdings == [s] && Weight(p.weights, s) == 1.0 && p.exposure == 1.0
  {
    SoleChoice(m, cfg, s, i);
    SoleWeight(m, cfg, s, i);
  }

  lemma {:induction false} StepKeepsPosition(m: Market, cfg: Config, i: nat, st: State)
    requires Runnable(cfg) && i < |m.common|
    ensures var next, p := Step(m, cfg, i, st), Positioned(m, cfg, i, st);
      next.holdings == p.holdings && next.weights == p.weights && next.exposure == p.exposure
  {
    var p := Positioned(m, cfg, i, st);
    RecordKeeps(i, p, Earned(m, i, p));
  }

  lemma FirstRebalance(cfg: Config)
    requires cfg.rebalanceDays >= 1
    ensures IsRebalance(cfg, cfg.lookback)
  {
  }

  /** From the first rebalance on the name is held alone. */
  lemma {:induction false} HeldThroughout(m: Market, cfg: Config, s: Symbol, k: nat)
    requires Rises(m, cfg, s) && cfg.lookback <= k < |m.common|
    ensures HeldAlone(m, cfg, s, k)
    decreases k
  {
    var st := Run(m, cfg, k);
    StepKeepsPosition(m, cfg, k, st);
    if IsRebalance(cfg, k) {
      ChosenAlone(m, cfg, s, k, st);
    } else {
      if k == cfg.lookback { FirstRebalance(cfg); }
      HeldThroughout(m, cfg, s, k - 1);
    }
  }

  /** The curve then rises and falls exactly as the name does. */
  lemma {:induction false} CurveIsTheName(m: Market, cfg: Config, s: Symbol, i: nat, j: nat)
    requires Rises(m, cfg, s) && cfg.lookback <= i <= j < |m.common|
    ensures var curve := Run(m, cfg, |m.common|).raw;
      |curve| == |m.common| && Follows(curve[i], curve[j], At(m, s, i), At(m, s, j))
  {
    forall k: nat | i < k <= j ensures HeldAlone(m, cfg, s, k) { HeldThroughout(m, cfg, s, k); }
    SoleHoldingTracksPrice(m, cfg, s, i, j, |m.common|);
  }

  lemma SameGrowth(base: real, last: real, capital: real, p: real, q: real, bench: real)
    requires base > 0.0 && p > 0.0 && Follows(base, last, p, q) && Follows(1.0, bench, p, q)
    ensures IsTimes(Renormalise(last, base, capital), capital, bench)
  {
    assert bench * p == q && last * p == base * q;
    assert last * p == (base * bench) * p;
    assert (last - base * bench) * p == 0.0;
    var r := last / base;
    assert r * base == last;
    assert (r - bench) * base == 0.0;
  }

  lemma SamePercent(a: real, b: real, capital: real, final: real)
    requires capital > 0.0 && GrewBy(a, capital, final) && GrewBy(b, capital, final)
    ensures a == b
  {
    assert (a - b) * capital == 0.0;
  }

  /** The capital grown by the benchmark from `start` on. */
  predicate IsBenchmark(m: Market, cfg: Config, start: nat, x: real)
    requires start < |m.common|
  {
    IsTimes(x, cfg.capital, Benchmark(m, start + 1, |m.common|))
  }

  /** A window of such a run grew by as much as the benchmark over it. */
  lemma {:induction false} WindowIsBenchmark(m: Market, cfg: Config, s: Symbol, start: nat)
    requires Rises(m, cfg, s) && cfg.lookback <= start < |m.common|
    ensures var raw := Run(m, cfg, |m.common|).raw;
      && |raw| == |m.common|
      && (raw[start] > 0.0 ==> IsBenchmark(m, cfg, start, Renormalise(raw[|m.common| - 1], raw[start], cfg.capital)))
  {
    var raw, last := Run(m, cfg, |m.common|).raw, |m.common| - 1;
    var p, q, bench := At(m, s, start), At(m, s, last), Benchmark(m, start + 1, |m.common|);
    CurveIsTheName(m, cfg, s, start, last);
    BenchmarkOfOne(m, s, start + 1, |m.common|);
    if raw[start] > 0.0 { SameGrowth(raw[start], raw[last], cfg.capital, p, q, bench); }
  }

  lemma {:induction false} SameMeasure(m: Market, cfg: Config, values: seq<real>, rets: seq<real>, x: Metrics)
    requires 0 <= cfg.metricsStart < |m.common| && values != [] && cfg.capital > 0.0
    requires Measure(m, cfg, values, rets, x)
    requires IsBenchmark(m, cfg, cfg.metricsStart, values[|values| - 1])
    ensures x.alphaPct == 0.0
  {
    SamePercent(x.totalReturnPct, x.buyHoldPct, cfg.capital, values[|values| - 1]);
  }

  /** The reported curve ends on the last equity, restarted at the capital on the first evaluated bar. */
  ghost predicate EndsOn(m: Market, cfg: Config, r: Report)
    requires Runnable(cfg)
  {
    var raw, values := Run(m, cfg, |m.common|).raw, Values(r.curve);
    && 0 < cfg.metricsStart < |raw| == |m.common| && raw[cfg.metricsStart] > 0.0 && values != []
    && values[|values| - 1] == Renormalise(raw[|m.common| - 1], raw[cfg.metricsStart], cfg.capital)
  }

  lemma {:induction false} ReportEndsOn(
    prices: seq<Series>, cfg: Config, m: Market, st: State, e: Evaluation, metrics: Metrics)
    requires Runnable(cfg) && Guard(prices, cfg).None? && m == MarketOf(Working(prices, cfg))
    requires st == Run(m, cfg, |m.common|) && |st.raw| == |m.common| && cfg.metricsStart > 0
    requires Evaluate(cfg, st) == Some(e)
    ensures |e.curve| == |m.common| - cfg.metricsStart
    ensures EndsOn(m, cfg, ReportOf(prices, cfg, st, e, metrics))
  {
    DatedValues(m.common[cfg.metricsStart..], e.curve);
  }

  lemma {:induction false} AlphaOf(m: Market, cfg: Config, s: Symbol, r: Report)
    requires Rises(m, cfg, s) && cfg.capital > 0.0 && cfg.lookback <= cfg.metricsStart < |m.common|
    requires 0 <= cfg.metricsStart && EndsOn(m, cfg, r) && Measure(m, cfg, Values(r.curve), r.rets, r.metrics)
    ensures r.metrics.alphaPct == 0.0
  {
    WindowIsBenchmark(m, cfg, s, cfg.metricsStart);
    SameMeasure(m, cfg, Values(r.curve), r.rets, r.metrics);
  }

  /** The strategy earns what its benchmark earns. */
  lemma {:induction false} NoAlpha(prices: seq<Series>, raw: Config, s: Symbol)
    requires Backtest(prices, raw).Ok? && raw.capital > 0.0 && raw.metricsStart >= raw.lookback
    requires Rises(MarketOf(Working(prices, Normalised(raw))), Normalised(raw), s)
    ensures Backtest(prices, raw).report.metrics.alphaPct == 0.0
  {
    var cfg := Normalised(raw);
    var m := MarketOf(Working(prices, cfg));
    var st := Run(m, cfg, |m.common|);
    RawLength(m, cfg, |m.common|);
    var e := Evaluate(cfg, st).value;
    var x := MetricsOf(m, cfg, e.curve, e.rets, e.costPct);
    ReportEndsOn(prices, cfg, m, st, e, x);
    MetricsMeasure(m, cfg, e.curve, e.rets, e.costPct);
    DatedValues(m.common[cfg.metricsStart..], e.curve);
    AlphaOf(m, cfg, s, ReportOf(prices, cfg, st, e, x));
  }
}
