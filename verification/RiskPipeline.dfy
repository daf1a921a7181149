/** Layer 2: sector concentration, position count and cash reserve. */
module ConcentrationLayer {
  import opened Common
  import opened OrderedDict
  import opened RiskSignals

  const DEFAULT_SIZE_PCT := 5.0

  datatype Limits = Limits(maxSectorPct: real, maxPositions: int, minCashPct: real)

  datatype Holding = Holding(symbol: string, sector: string, sizePct: real)

  datatype Tracker = Tracker(sectors: Dict<string>, total: real, count: int)

  function SectorSums(portfolio: seq<Holding>): Dict<string> {
    if portfolio == [] then []
    else
      var h := portfolio[|portfolio| - 1];
      var before := SectorSums(portfolio[..|portfolio| - 1]);
      Put(before, h.sector, GetOr(before, h.sector, 0.0) + h.sizePct)
  }

  function SizeSum(portfolio: seq<Holding>): real {
    if portfolio == [] then 0.0
    else SizeSum(portfolio[..|portfolio| - 1]) + portfolio[|portfolio| - 1].sizePct
  }

  function Begin(portfolio: seq<Holding>): Tracker {
    Tracker(SectorSums(portfolio), SizeSum(portfolio), |portfolio|)
  }

  predicate Holds(portfolio: seq<Holding>, s: string) {
    exists j :: 0 <= j < |portfolio| && portfolio[j].symbol == s
  }

  function Requested(s: Signal): real {
    match s.sizePct case Some(x) => x case None => DEFAULT_SIZE_PCT
  }

  datatype Size = Rejected(reason: Reason) | Sized(pct: real)

  function SizeEntry(l: Limits, portfolio: seq<Holding>, t: Tracker, s: Signal): Size {
    var used := GetOr(t.sectors, s.sector, 0.0);
    if !Holds(portfolio, s.symbol) && t.count >= l.maxPositions then Rejected(PositionsLimit)
    else if used + Requested(s) > l.maxSectorPct && l.maxSectorPct - used <= 0.0 then Rejected(SectorCap)
    else
      var size := if used + Requested(s) > l.maxSectorPct then l.maxSectorPct - used else Requested(s);
      if 100.0 - t.total - size < l.minCashPct then
        var room := 100.0 - t.total - l.minCashPct;
        if room <= 0.0 then Rejected(CashReserve) else Sized(Min(size, room))
      else Sized(size)
  }

  function AfterEntry(portfolio: seq<Holding>, t: Tracker, s: Signal, pct: real): Tracker {
    Tracker(Put(t.sectors, s.sector, GetOr(t.sectors, s.sector, 0.0) + pct), t.total + pct,
            t.count + if Holds(portfolio, s.symbol) then 0 else 1)
  }

  function Step(l: Limits, portfolio: seq<Holding>, t: Tracker, s: Signal): (Tracker, Signal) {
    if !IsEntry(s.action) then (t, s)
    else
      match SizeEntry(l, portfolio, t, s)
      case Rejected(r) => (t, Cancel(s, r))
      case Sized(pct) => (AfterEntry(portfolio, t, s, pct), s.(sizePct := Some(pct)))
  }

  function Batch(l: Limits, portfolio: seq<Holding>, t: Tracker, sigs: seq<Signal>): (r: (Tracker, seq<Signal>))
    ensures |r.1| == |sigs|
  {
    if sigs == [] then (t, [])
    else
      var (before, out) := Batch(l, portfolio, t, sigs[..|sigs| - 1]);
      var (after, last) := Step(l, portfolio, before, sigs[|sigs| - 1]);
      (after, out + [last])
  }

  function Apply(l: Limits, portfolio: seq<Holding>, sigs: seq<Signal>): seq<Signal> {
    Batch(l, portfolio, Begin(portfolio), sigs).1
  }

  method ApplyConcentrationLayer(l: Limits, portfolio: seq<Holding>, sigs: seq<Signal>)
    returns (result: seq<Signal>)
    ensures result == Apply(l, portfolio, sigs)
  {
    var t := Begin(portfolio);
    var sectors, total, count := t.sectors, t.total, t.count;
    result := [];
    for i := 0 to |sigs|
      invariant (Tracker(sectors, total, count), result) == Batch(l, portfolio, Begin(portfolio), sigs[..i])
    {
      assert sigs[..i + 1][..i] == sigs[..i];
      var s := sigs[i];
      if !IsEntry(s.action) {
        result := result + [s];
      } else {
        match SizeEntry(l, portfolio, Tracker(sectors, total, count), s)
        case Rejected(r) => result := result + [Cancel(s, r)];
        case Sized(pct) =>
          result := result + [s.(sizePct := Some(pct))];
          sectors := Put(sectors, s.sector, GetOr(sectors, s.sector, 0.0) + pct);
          total := total + pct;
          if !Holds(portfolio, s.symbol) { count := count + 1; }
      }
    }
    assert sigs[..|sigs|] == sigs;
  }

  /** The layer starts with one sum for each sector, the sum of the portfolio's holdings in it. */
  lemma {:induction false} BeginIsKeyed(portfolio: seq<Holding>)
    ensures Keyed(Begin(portfolio).sectors)
    ensures forall x :: GetOr(Begin(portfolio).sectors, x, 0.0) == SectorSum(portfolio, x)
  {
    if portfolio != [] {
      var h, before := portfolio[|portfolio| - 1], portfolio[..|portfolio| - 1];
      BeginIsKeyed(before);
      PutKeys(SectorSums(before), h.sector, GetOr(SectorSums(before), h.sector, 0.0) + h.sizePct);
    }
  }

  function SectorSum(portfolio: seq<Holding>, sector: string): real {
    if portfolio == [] then 0.0
    else
      var h := portfolio[|portfolio| - 1];
      SectorSum(portfolio[..|portfolio| - 1], sector) + if h.sector == sector then h.sizePct else 0.0
  }

  ghost predicate WithinLimits(l: Limits, first: Tracker, t: Tracker) {
    && Keyed(t.sectors)
    && (forall x :: GetOr(t.sectors, x, 0.0) <= Max(GetOr(first.sectors, x, 0.0), l.maxSectorPct))
    && t.total <= Max(first.total, 100.0 - l.minCashPct)
    && t.count <= MaxInt(first.count, l.maxPositions)
  }

  lemma {:induction false} StepWithinLimits(l: Limits, portfolio: seq<Holding>, first: Tracker, t: Tracker, s: Signal)
    requires WithinLimits(l, first, t)
    ensures WithinLimits(l, first, Step(l, portfolio, t, s).0)
    ensures Step(l, portfolio, t, s).1.sizePct.Some? && IsEntry(Step(l, portfolio, t, s).1.action) ==>
      Step(l, portfolio, t, s).1.sizePct.value <= Requested(s)
  {
    match SizeEntry(l, portfolio, t, s)
    case Rejected(_) =>
    case Sized(pct) => PutKeys(t.sectors, s.sector, GetOr(t.sectors, s.sector, 0.0) + pct);
  }

  /** Any batch: sectors, total exposure and the position count end inside max(start, limit). */
  lemma {:induction false} BatchWithinLimits(l: Limits, portfolio: seq<Holding>, t: Tracker, sigs: seq<Signal>)
    requires Keyed(t.sectors)
    ensures WithinLimits(l, t, Batch(l, portfolio, t, sigs).0)
  {
    if sigs != [] {
      BatchWithinLimits(l, portfolio, t, sigs[..|sigs| - 1]);
      StepWithinLimits(l, portfolio, t, Batch(l, portfolio, t, sigs[..|sigs| - 1]).0, sigs[|sigs| - 1]);
    }
  }

  /** The layer as called: from any portfolio, each sector ends inside max(its holdings, the sector limit). */
  lemma {:induction false} LayerWithinLimits(l: Limits, portfolio: seq<Holding>, sigs: seq<Signal>)
    ensures var t := Batch(l, portfolio, Begin(portfolio), sigs).0;
      && (forall x :: GetOr(t.sectors, x, 0.0) <= Max(SectorSum(portfolio, x), l.maxSectorPct))
      && t.total <= Max(SizeSum(portfolio), 100.0 - l.minCashPct)
      && t.count <= MaxInt(|portfolio|, l.maxPositions)
  {
    BeginIsKeyed(portfolio);
    BatchWithinLimits(l, portfolio, Begin(portfolio), sigs);
  }
}

/** Layer 3: cancel longs that move with something already held. */
module CorrelationLayer {
  import opened Common
  import opened RiskSignals

  /** Return series by symbol, where there are any, and the correlation coefficient as a parameter. */
  datatype Data = Data(series: map<string, seq<real>>, corr: (seq<real>, seq<real>) -> real, limit: real)

  predicate Tied(d: Data, candidate: string, held: string) {
    candidate in d.series && held in d.series
      && Abs(d.corr(d.series[candidate], d.series[held])) >= d.limit
  }

  predicate Blocked(d: Data, open: seq<string>, candidate: string) {
    exists j :: 0 <= j < |open| && Tied(d, candidate, open[j])
  }

  function Step(d: Data, open: seq<string>, s: Signal): Signal {
    if s.action.Long? && Blocked(d, open, s.symbol) then Cancel(s, Correlated) else s
  }

  function Apply(d: Data, open: seq<string>, sigs: seq<Signal>): (r: seq<Signal>)
    ensures |r| == |sigs|
  {
    if open == [] || |d.series| < 2 then sigs
    else seq(|sigs|, i requires 0 <= i < |sigs| => Step(d, open, sigs[i]))
  }

  method ApplyCorrelationLayer(d: Data, open: seq<string>, sigs: seq<Signal>) returns (result: seq<Signal>)
    ensures result == Apply(d, open, sigs)
  {
    if open == [] || sigs == [] || |d.series| < 2 { return sigs; }
    var blocked: set<string> := {};
    for i := 0 to |sigs|
      invariant forall x :: x in blocked ==> Blocked(d, open, x)
      invariant forall j :: 0 <= j < i && sigs[j].action.Long? && Blocked(d, open, sigs[j].symbol) ==>
        sigs[j].symbol in blocked
    {
      var s := sigs[i];
      if s.action.Long? {
        var found := false;
        for j := 0 to |open|
          invariant !found && forall k :: 0 <= k < j ==> !Tied(d, s.symbol, open[k])
        {
          if Tied(d, s.symbol, open[j]) {
            found := true;
            break;
          }
        }
        if found { blocked := blocked + {s.symbol}; }
      }
    }
    result := [];
    for i := 0 to |sigs|
      invariant result == Apply(d, open, sigs)[..i]
    {
      var s := sigs[i];
      result := result + [if s.action.Long? && s.symbol in blocked then Cancel(s, Correlated) else s];
    }
  }
}

/** Layer 4: the graduated drawdown circuit breaker. */
module DrawdownLayer {
  import opened Common
  import opened RiskSignals

  datatype State = Normal | Warning | Danger | Breaker | Daily

  datatype Thresholds = Thresholds(
    warning: real, danger: real, breaker: real, recovery: real, daily: real)

  datatype Status = Status(state: State, multiplier: real, allowed: bool)

  function Peak(xs: seq<real>): real
    requires xs != []
  {
    if |xs| == 1 then xs[0] else Max(Peak(xs[..|xs| - 1]), xs[|xs| - 1])
  }

  function Drawdown(equity: seq<real>): real
    requires equity != []
  {
    var peak := Peak(equity);
    if peak > 0.0 then (peak - equity[|equity| - 1]) / peak * 100.0 else 0.0
  }

  function DailyLoss(open: real, current: real): real {
    if open > 0.0 then Max(0.0, (open - current) / open * 100.0) else 0.0
  }

  /** The state for a given drawdown and daily loss; `worst` is the worst drawdown of the lock. */
  function Grade(th: Thresholds, drawdown: real, dailyLoss: real, previous: State, worst: real): Status {
    if dailyLoss >= th.daily then Status(Daily, 0.0, false)
    else if drawdown >= th.breaker then Status(Breaker, 0.0, false)
    else if drawdown >= th.danger then
      if previous == Breaker && worst - drawdown < th.recovery then Status(Breaker, 0.0, false)
      else Status(Danger, 0.25, true)
    else if drawdown >= th.warning then Status(Warning, 0.5, true)
    else Status(Normal, 1.0, true)
  }

  datatype Book = Book(equity: seq<real>, openToday: real, previous: State, worst: real)

  function Evaluate(th: Thresholds, b: Book): Status {
    if b.equity == [] then Status(Normal, 1.0, true)
    else
      var open := if b.openToday > 0.0 then b.openToday else b.equity[0];
      Grade(th, Drawdown(b.equity), DailyLoss(open, b.equity[|b.equity| - 1]), b.previous, b.worst)
  }

  function Reduce(s: Signal, m: real): Signal {
    if s.kelly.Some? && s.kelly.value.positionUsd.Some? then
      var k := s.kelly.value;
      s.(kelly := Some(Kelly(Some(k.positionUsd.value * m), Trunc(k.shares as real * m))),
         reduced := true, multiplier := Some(m))
    else if s.positionUsd.Some? then
      s.(positionUsd := Some(s.positionUsd.value * m), reduced := true, multiplier := Some(m))
    else s
  }

  function Step(st: Status, s: Signal): Signal {
    if !IsEntry(s.action) then s
    else if !st.allowed then Cancel(s, CircuitOpen)
    else if st.multiplier < 1.0 then Reduce(s, st.multiplier)
    else s
  }

  function Apply(th: Thresholds, b: Book, sigs: seq<Signal>): (r: seq<Signal>)
    ensures |r| == |sigs|
  {
    if b.equity == [] then sigs
    else seq(|sigs|, i requires 0 <= i < |sigs| => Step(Evaluate(th, b), sigs[i]))
  }

  method ApplyDrawdownLayer(th: Thresholds, b: Book, sigs: seq<Signal>) returns (result: seq<Signal>)
    ensures result == Apply(th, b, sigs)
  {
    if b.equity == [] { return sigs; }
    var st := Evaluate(th, b);
    result := [];
    for i := 0 to |sigs|
      invariant result == Apply(th, b, sigs)[..i]
    {
      var s := sigs[i];
      var out := s;
      if IsEntry(s.action) {
        if !st.allowed {
          out := Cancel(s, CircuitOpen);
        } else if st.multiplier < 1.0 {
          out := Reduce(s, st.multiplier);
        }
      }
      result := result + [out];
    }
  }

  ghost predicate Ordered(th: Thresholds) { th.warning <= th.danger <= th.breaker }

  /** Deeper drawdown or a bigger daily loss never loosens the breaker, recovery lock included. */
  lemma GradeIsMonotone(th: Thresholds, d1: real, d2: real, l1: real, l2: real, previous: State, worst: real)
    requires Ordered(th) && d1 <= d2 && l1 <= l2
    ensures Grade(th, d2, l2, previous, worst).multiplier <= Grade(th, d1, l1, previous, worst).multiplier
    ensures Grade(th, d2, l2, previous, worst).allowed ==> Grade(th, d1, l1, previous, worst).allowed
  {
  }
}

/** The hook: four layers in order, each seeing only what the earlier ones left active. */
module RiskPipeline {
  import opened RiskSignals
  import E = ExposureLayer
  import C = ConcentrationLayer
  import K = CorrelationLayer
  import D = DrawdownLayer

  datatype Setup = Setup(
    exposureOn: bool, concentrationOn: bool, correlationOn: bool, drawdownOn: bool,
    exposure: E.Limits, concentration: C.Limits, correlation: K.Data, thresholds: D.Thresholds,
    portfolioValue: real, positions: seq<(string, real)>, portfolio: seq<C.Holding>, book: D.Book)

  function KeepActive(s: Signal): seq<Signal> { if s.action.Cancelled? then [] else [s] }

  function KeepInactive(s: Signal): seq<Signal> { if s.action.Cancelled? then [s] else [] }

  function Active(sigs: seq<Signal>): seq<Signal> {
    if sigs == [] then [] else Active(sigs[..|sigs| - 1]) + KeepActive(sigs[|sigs| - 1])
  }

  function Inactive(sigs: seq<Signal>): seq<Signal> {
    if sigs == [] then [] else Inactive(sigs[..|sigs| - 1]) + KeepInactive(sigs[|sigs| - 1])
  }

  function OpenSymbols(portfolio: seq<C.Holding>): seq<string> {
    seq(|portfolio|, j requires 0 <= j < |portfolio| => portfolio[j].symbol)
  }

  /** An empty history falls back to the current portfolio value as its only point. */
  function BookFor(s: Setup): D.Book {
    if s.book.equity == [] && s.portfolioValue > 0.0 then s.book.(equity := [s.portfolioValue]) else s.book
  }

  function Layer1(s: Setup, sigs: seq<Signal>): seq<Signal> {
    if s.exposureOn then E.Apply(s.exposure, s.portfolioValue, s.positions, sigs) else sigs
  }

  function Layer2(s: Setup, sigs: seq<Signal>): seq<Signal> {
    if s.concentrationOn then Inactive(sigs) + C.Apply(s.concentration, s.portfolio, Active(sigs)) else sigs
  }

  function Layer3(s: Setup, sigs: seq<Signal>): seq<Signal> {
    if s.correlationOn then
      Inactive(sigs) + K.Apply(s.correlation, OpenSymbols(s.portfolio), Active(sigs))
    else sigs
  }

  function Layer4(s: Setup, sigs: seq<Signal>): seq<Signal> {
    if s.drawdownOn then Inactive(sigs) + D.Apply(s.thresholds, BookFor(s), Active(sigs)) else sigs
  }

  function Pipeline(s: Setup, pending: seq<Signal>): seq<Signal> {
    if pending == [] then [] else Layer4(s, Layer3(s, Layer2(s, Layer1(s, pending))))
  }

  method OnCycle(s: Setup, pending: seq<Signal>) returns (signals: seq<Signal>)
    ensures signals == Pipeline(s, pending)
  {
    signals := pending;
    if signals == [] { return; }
    if s.exposureOn {
      signals := E.ApplyExposureLayer(s.exposure, s.portfolioValue, s.positions, signals);
    }
    if s.concentrationOn {
      var kept := C.ApplyConcentrationLayer(s.concentration, s.portfolio, Active(signals));
      signals := Inactive(signals) + kept;
    }
    if s.correlationOn {
      var kept := K.ApplyCorrelationLayer(s.correlation, OpenSymbols(s.portfolio), Active(signals));
      signals := Inactive(signals) + kept;
    }
    if s.drawdownOn {
      var kept := D.ApplyDrawdownLayer(s.thresholds, BookFor(s), Active(signals));
      signals := Inactive(signals) + kept;
    }
  }

  // ---- what a layer may do to one signal ----

  /** The part of a signal no layer touches. */
  datatype Core = Core(symbol: string, price: real, sector: string, rest: int)

  function CoreOf(s: Signal): Core { Core(s.symbol, s.price, s.sector, s.rest) }

  ghost predicate Fate(s: Signal, o: Signal) {
    && CoreOf(o) == CoreOf(s)
    && (o.action == s.action || o.action == Cancelled)
    && o.qty <= s.qty
    && (!IsEntry(s.action) ==> o == s)
  }

  ghost predicate Pointwise(x: seq<Signal>, y: seq<Signal>) {
    |x| == |y| && forall j :: 0 <= j < |x| ==> Fate(x[j], y[j])
  }

  lemma {:induction false} ExposurePointwise(l: E.Limits, pv: real, t: E.Tracker, sigs: seq<Signal>)
    ensures Pointwise(sigs, E.Batch(l, pv, t, sigs).1)
  {
    if sigs != [] {
      var n := |sigs| - 1;
      ExposurePointwise(l, pv, t, sigs[..n]);
      E.StepFate(l, pv, E.Batch(l, pv, t, sigs[..n]).0, sigs[n]);
      forall j | 0 <= j < |sigs| ensures Fate(sigs[j], E.Batch(l, pv, t, sigs).1[j]) {
        if j < n { assert Fate(sigs[..n][j], E.Batch(l, pv, t, sigs[..n]).1[j]); }
      }
    }
  }

  lemma {:induction false} ConcentrationPointwise(l: C.Limits, p: seq<C.Holding>, t: C.Tracker, sigs: seq<Signal>)
    ensures Pointwise(sigs, C.Batch(l, p, t, sigs).1)
  {
    if sigs != [] {
      var n := |sigs| - 1;
      ConcentrationPointwise(l, p, t, sigs[..n]);
      forall j | 0 <= j < |sigs| ensures Fate(sigs[j], C.Batch(l, p, t, sigs).1[j]) {
        if j < n { assert Fate(sigs[..n][j], C.Batch(l, p, t, sigs[..n]).1[j]); }
      }
    }
  }

  lemma {:induction false} DrawdownFate(st: D.Status, s: Signal)
    ensures Fate(s, D.Step(st, s))
  {
  }

  lemma {:induction false} DrawdownPointwise(th: D.Thresholds, b: D.Book, sigs: seq<Signal>)
    ensures Pointwise(sigs, D.Apply(th, b, sigs))
  {
    forall j | 0 <= j < |sigs| ensures Fate(sigs[j], D.Apply(th, b, sigs)[j]) {
      if b.equity != [] { DrawdownFate(D.Evaluate(th, b), sigs[j]); }
    }
  }

  // ---- what a layer may do to the batch ----

  function Cores(sigs: seq<Signal>): (r: seq<Core>)
    ensures |r| == |sigs|
  {
    seq(|sigs|, j requires 0 <= j < |sigs| => CoreOf(sigs[j]))
  }

  function KeepUntouchable(s: Signal): seq<Signal> {
    if IsEntry(s.action) || s.action.Cancelled? then [] else [s]
  }

  /** Signals no layer may touch: not entries, not already cancelled. Every exit is one. */
  function Untouchable(sigs: seq<Signal>): seq<Signal> {
    if sigs == [] then [] else Untouchable(sigs[..|sigs| - 1]) + KeepUntouchable(sigs[|sigs| - 1])
  }

  /** What a survivor may have become: the same order, for no larger a quantity. */
  predicate Thinner(o: Signal, s: Signal) { CoreOf(o) == CoreOf(s) && o.action == s.action && o.qty <= s.qty }

  /** `a` is `b` with some signals left out and the others, in their order, thinner. */
  ghost predicate Thinned(a: seq<Signal>, b: seq<Signal>) {
    a == [] || (b != [] && ((Thinner(a[|a| - 1], b[|b| - 1]) && Thinned(a[..|a| - 1], b[..|b| - 1]))
                            || Thinned(a, b[..|b| - 1])))
  }

  ghost predicate Conserved(x: seq<Signal>, y: seq<Signal>) {
    && multiset(Cores(y)) == multiset(Cores(x))
    && Untouchable(y) == Untouchable(x)
    && multiset(Inactive(x)) <= multiset(Inactive(y))
    && Thinned(Active(y), Active(x))
  }

  lemma {:induction false} ThinnedSelf(a: seq<Signal>)
    ensures Thinned(a, a)
  {
    if a != [] { ThinnedSelf(a[..|a| - 1]); }
  }

  lemma {:induction false} ThinnedTrans(a: seq<Signal>, b: seq<Signal>, c: seq<Signal>)
    requires Thinned(a, b) && Thinned(b, c)
    ensures Thinned(a, c)
    decreases |b| + |c|
  {
    if a != [] {
      if Thinned(b, c[..|c| - 1]) {
        ThinnedTrans(a, b, c[..|c| - 1]);
      } else if Thinned(a, b[..|b| - 1]) {
        ThinnedTrans(a, b[..|b| - 1], c[..|c| - 1]);
      } else {
        ThinnedTrans(a[..|a| - 1], b[..|b| - 1], c[..|c| - 1]);
      }
    }
  }

  lemma {:induction false} ActivePush(a: seq<Signal>, x: Signal)
    ensures Active(a + [x]) == Active(a) + KeepActive(x)
  {
    assert (a + [x])[..|a|] == a;
  }

  lemma {:induction false} ActiveConcat(a: seq<Signal>, b: seq<Signal>)
    ensures Active(a + b) == Active(a) + Active(b)
  {
    if b == [] {
      assert a + b == a;
    } else {
      var init, x := b[..|b| - 1], b[|b| - 1];
      calc {
        Active(a + b);
        { assert a + b == (a + init) + [x]; }
        Active((a + init) + [x]);
        { ActivePush(a + init, x); }
        Active(a + init) + KeepActive(x);
        { ActiveConcat(a, init); }
        Active(a) + Active(init) + KeepActive(x);
        Active(a) + Active(b);
      }
    }
  }

  lemma {:induction false} InactivePush(a: seq<Signal>, x: Signal)
    ensures Inactive(a + [x]) == Inactive(a) + KeepInactive(x)
  {
    assert (a + [x])[..|a|] == a;
  }

  lemma {:induction false} InactiveConcat(a: seq<Signal>, b: seq<Signal>)
    ensures Inactive(a + b) == Inactive(a) + Inactive(b)
  {
    if b == [] {
      assert a + b == a;
    } else {
      var init, x := b[..|b| - 1], b[|b| - 1];
      calc {
        Inactive(a + b);
        { assert a + b == (a + init) + [x]; }
        Inactive((a + init) + [x]);
        { InactivePush(a + init, x); }
        Inactive(a + init) + KeepInactive(x);
        { InactiveConcat(a, init); }
        Inactive(a) + Inactive(init) + KeepInactive(x);
        Inactive(a) + Inactive(b);
      }
    }
  }

  lemma {:induction false} UntouchablePush(a: seq<Signal>, x: Signal)
    ensures Untouchable(a + [x]) == Untouchable(a) + KeepUntouchable(x)
  {
    assert (a + [x])[..|a|] == a;
  }

  lemma {:induction false} UntouchableConcat(a: seq<Signal>, b: seq<Signal>)
    ensures Untouchable(a + b) == Untouchable(a) + Untouchable(b)
  {
    if b == [] {
      assert a + b == a;
    } else {
      var init, x := b[..|b| - 1], b[|b| - 1];
      calc {
        Untouchable(a + b);
        { assert a + b == (a + init) + [x]; }
        Untouchable((a + init) + [x]);
        { UntouchablePush(a + init, x); }
        Untouchable(a + init) + KeepUntouchable(x);
        { UntouchableConcat(a, init); }
        Untouchable(a) + Untouchable(init) + KeepUntouchable(x);
        Untouchable(a) + Untouchable(b);
      }
    }
  }

  lemma {:induction false} ActivePure(x: seq<Signal>)
    ensures forall s :: s in Active(x) ==> !s.action.Cancelled?
    ensures forall s :: s in Inactive(x) ==> s.action.Cancelled?
  {
    if x != [] { ActivePure(x[..|x| - 1]); }
  }

  lemma {:induction false} AllActive(x: seq<Signal>)
    requires forall s :: s in x ==> !s.action.Cancelled?
    ensures Active(x) == x && Inactive(x) == []
  {
    if x != [] {
      var n := |x| - 1;
      assert x == x[..n] + [x[n]];
      AllActive(x[..n]);
    }
  }

  lemma {:induction false} AllInactive(x: seq<Signal>)
    requires forall s :: s in x ==> s.action.Cancelled?
    ensures Inactive(x) == x && Active(x) == [] && Untouchable(x) == []
  {
    if x != [] {
      var n := |x| - 1;
      assert x == x[..n] + [x[n]];
      AllInactive(x[..n]);
    }
  }

  lemma {:induction false} UntouchableIsActive(x: seq<Signal>)
    ensures Untouchable(Active(x)) == Untouchable(x)
  {
    if x != [] {
      var n := |x| - 1;
      UntouchableIsActive(x[..n]);
      UntouchableConcat(Active(x[..n]), KeepActive(x[n]));
      assert [x[n]][..0] == [];
    }
  }

  lemma {:induction false} CoresConcat(a: seq<Signal>, b: seq<Signal>)
    ensures Cores(a + b) == Cores(a) + Cores(b)
    ensures multiset(Cores(a + b)) == multiset(Cores(a)) + multiset(Cores(b))
  {
    assert Cores(a + b) == Cores(a) + Cores(b);
  }

  /** Splitting into cancelled and active parts only reorders. */
  lemma {:induction false} SplitReorders(x: seq<Signal>)
    ensures multiset(Cores(Inactive(x))) + multiset(Cores(Active(x))) == multiset(Cores(x))
  {
    if x != [] {
      var n := |x| - 1;
      SplitReorders(x[..n]);
      assert x == x[..n] + [x[n]];
      CoresConcat(x[..n], [x[n]]);
      CoresConcat(Active(x[..n]), KeepActive(x[n]));
      CoresConcat(Inactive(x[..n]), KeepInactive(x[n]));
    }
  }

  lemma {:induction false} PointwisePrefix(x: seq<Signal>, y: seq<Signal>)
    requires Pointwise(x, y) && x != []
    ensures Pointwise(x[..|x| - 1], y[..|y| - 1]) && Fate(x[|x| - 1], y[|y| - 1])
  {
    var a, b := x[..|x| - 1], y[..|y| - 1];
    forall j | 0 <= j < |a| ensures Fate(a[j], b[j]) { assert Fate(x[j], y[j]); }
  }

  lemma {:induction false} PointwiseKeeps(x: seq<Signal>, y: seq<Signal>)
    requires Pointwise(x, y)
    ensures Cores(y) == Cores(x) && Untouchable(y) == Untouchable(x)
    ensures multiset(Inactive(x)) <= multiset(Inactive(y))
  {
    if x != [] {
      PointwisePrefix(x, y);
      PointwiseKeeps(x[..|x| - 1], y[..|y| - 1]);
    }
    forall j | 0 <= j < |x| ensures Cores(y)[j] == Cores(x)[j] { assert Fate(x[j], y[j]); }
  }

  lemma {:induction false} ThinnedPush(a: seq<Signal>, b: seq<Signal>, o: Signal, s: Signal)
    requires Thinned(a, b)
    ensures Thinned(a, b + [s]) && (Thinner(o, s) ==> Thinned(a + [o], b + [s]))
  {
    assert (a + [o])[..|a|] == a && (b + [s])[..|b|] == b;
  }

  lemma {:induction false} PointwiseSurvivors(x: seq<Signal>, y: seq<Signal>)
    requires Pointwise(x, y)
    ensures Thinned(Active(y), Active(x))
  {
    if x != [] {
      var n := |x| - 1;
      var ax, ay := Active(x[..n]), Active(y[..n]);
      PointwisePrefix(x, y);
      PointwiseSurvivors(x[..n], y[..n]);
      ThinnedPush(ay, ax, y[n], x[n]);
      if x[n].action.Cancelled? {
        assert Active(x) == ax && Active(y) == ay;
      } else if y[n].action.Cancelled? {
        assert Active(x) == ax + [x[n]] && Active(y) == ay;
      } else {
        assert Active(x) == ax + [x[n]] && Active(y) == ay + [y[n]];
      }
    }
  }

  /** A layer run on the active part, with the cancelled part put in front. */
  lemma {:induction false} StageConserves(x: seq<Signal>, kept: seq<Signal>)
    requires Pointwise(Active(x), kept)
    ensures Conserved(x, Inactive(x) + kept)
  {
    var off, on := Inactive(x), Active(x);
    ActivePure(x);
    AllInactive(off);
    AllActive(on);
    PointwiseKeeps(on, kept);
    PointwiseSurvivors(on, kept);
    SplitReorders(x);
    CoresConcat(off, kept);
    UntouchableConcat(off, kept);
    UntouchableIsActive(x);
    InactiveConcat(off, kept);
    ActiveConcat(off, kept);
    assert Active(off + kept) == Active(kept) && Untouchable(off + kept) == Untouchable(kept);
  }

  lemma {:induction false} ConservedTrans(x: seq<Signal>, y: seq<Signal>, z: seq<Signal>)
    requires Conserved(x, y) && Conserved(y, z)
    ensures Conserved(x, z)
  {
    ThinnedTrans(Active(z), Active(y), Active(x));
  }

  lemma {:induction false} ConservedSelf(x: seq<Signal>)
    ensures Conserved(x, x)
  {
    ThinnedSelf(Active(x));
  }

  lemma {:induction false} PointwiseConserves(x: seq<Signal>, y: seq<Signal>)
    requires Pointwise(x, y)
    ensures Conserved(x, y)
  {
    PointwiseKeeps(x, y);
    PointwiseSurvivors(x, y);
  }

  /** A layer that is off, or one that runs on the active part. */
  lemma {:induction false} LayerConserves(x: seq<Signal>, y: seq<Signal>, kept: seq<Signal>, on: bool, z: seq<Signal>)
    requires Conserved(x, y) && (on ==> Pointwise(Active(y), kept))
    requires z == if on then Inactive(y) + kept else y
    ensures Conserved(x, z)
  {
    if on {
      StageConserves(y, kept);
      ConservedTrans(x, y, z);
    }
  }

  /**
   * Through all four layers and for any flags: nothing is lost or duplicated, every exit and
   * every other non-entry comes out as it went in and in order - also when the breaker is open -
   * what is cancelled stays cancelled, and the survivors keep their order and their action, none
   * for a larger quantity than it came in with.
   */
  lemma {:induction false} PipelineConserves(s: Setup, pending: seq<Signal>)
    ensures Conserved(pending, Pipeline(s, pending))
  {
    ConservedSelf(pending);
    if pending != [] {
      FirstLayers(s, pending);
      LastLayers(s, pending, Layer2(s, Layer1(s, pending)));
    }
  }

  lemma {:induction false} FirstLayers(s: Setup, x: seq<Signal>)
    ensures Conserved(x, Layer2(s, Layer1(s, x)))
  {
    var y := Layer1(s, x);
    ConservedSelf(x);
    if s.exposureOn {
      ExposurePointwise(s.exposure, s.portfolioValue, E.Begin(s.positions), x);
      PointwiseConserves(x, y);
    }
    var kept := C.Apply(s.concentration, s.portfolio, Active(y));
    ConcentrationPointwise(s.concentration, s.portfolio, C.Begin(s.portfolio), Active(y));
    LayerConserves(x, y, kept, s.concentrationOn, Layer2(s, y));
  }

  lemma {:induction false} LastLayers(s: Setup, x: seq<Signal>, y: seq<Signal>)
    requires Conserved(x, y)
    ensures Conserved(x, Layer4(s, Layer3(s, y)))
  {
    var z := Layer3(s, y);
    LayerConserves(x, y, K.Apply(s.correlation, OpenSymbols(s.portfolio), Active(y)), s.correlationOn, z);
    DrawdownPointwise(s.thresholds, BookFor(s), Active(z));
    LayerConserves(x, z, D.Apply(s.thresholds, BookFor(s), Active(z)), s.drawdownOn, Layer4(s, z));
  }
}
