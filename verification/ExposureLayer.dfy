/** Trade signals as the risk manager sees them. */
module RiskSignals {
  import opened Common

  datatype Action =
    | Long | Buy | Short | SellShort
    | Exit | Sell | Close | Cover
    | Cancelled | Other(name: string)

  datatype Reason =
    | ShortsProhibited | AssetLimit | OpenLimit | ExposureCap
    | PositionsLimit | SectorCap | CashReserve | Correlated | CircuitOpen

  datatype Kelly = Kelly(positionUsd: Option<real>, shares: int)

  /** `price` is the signal's price or, failing that, its entry price; `rest` is everything else. */
  datatype Signal = Signal(
    action: Action, symbol: string, qty: real, price: real, sector: string,
    sizePct: Option<real>, positionUsd: Option<real>, kelly: Option<Kelly>,
    reason: Option<Reason>, reduced: bool, multiplier: Option<real>, rest: int)

  predicate IsEntry(a: Action) { a.Long? || a.Buy? || a.Short? || a.SellShort? }

  predicate IsExit(a: Action) { a.Exit? || a.Sell? || a.Close? || a.Cover? }

  predicate IsBuy(a: Action) { a.Long? || a.Buy? }

  function Cancel(s: Signal, r: Reason): Signal { s.(action := Cancelled, reason := Some(r)) }
}

/** Layer 1: hard exposure limits, with a running budget threaded through the batch. */
module ExposureLayer {
  import opened Common
  import opened OrderedDict
  import opened RiskSignals

  const EPS := 0.000000001
  const QTY_EPS := 0.00000001

  datatype Limits = Limits(
    maxTradePct: real, maxPositionPct: real, maxOpen: int, maxExposurePct: real, allowShorts: bool)

  /** Running state of a batch: market value per symbol, and the exposure counter beside it. */
  datatype Tracker = Tracker(positions: Dict<string>, exposure: real)

  function Held(t: Tracker, s: string): real { GetOr(t.positions, s, 0.0) }

  function Track(positions: seq<(string, real)>): Dict<string> {
    if positions == [] then []
    else
      var p := positions[|positions| - 1];
      Put(Track(positions[..|positions| - 1]), p.0, p.1)
  }

  function Begin(positions: seq<(string, real)>): Tracker {
    var d := Track(positions);
    Tracker(d, Total(d))
  }

  // ---- sizing rules for an entry ----

  datatype Size = Rejected(reason: Reason) | Sized(qty: real, notional: real)

  function Shrink(z: Size, target: real): Size
    requires z.Sized? && z.notional != 0.0
  {
    var factor := target / z.notional;
    Sized(z.qty * factor, z.notional * factor)
  }

  function Notional(s: Signal): real { s.qty * s.price }

  function TradeCap(l: Limits, pv: real): real { pv * l.maxTradePct }

  function AssetCap(l: Limits, pv: real): real { pv * l.maxPositionPct }

  function TotalCap(l: Limits, pv: real): real { pv * l.maxExposurePct }

  predicate Priced(s: Signal) { s.price > 0.0 && s.qty > 0.0 }

  lemma NotionalPositive(s: Signal)
    requires Priced(s)
    ensures Notional(s) > 0.0
  {
    MulPositive(s.qty, s.price);
  }

  function TradeRule(l: Limits, pv: real, z: Size): Size
    requires z.Sized? && z.notional > 0.0
  {
    var cap := TradeCap(l, pv);
    if z.notional > cap && cap > 0.0 then Shrink(z, cap) else z
  }

  /** Fit a notional under a cap of which `used` is taken, or reject when nothing is left. */
  function FitRule(z: Size, used: real, cap: real, r: Reason): Size
    requires z.Sized? && z.notional > 0.0
  {
    if used + z.notional <= cap then z
    else if cap - used <= 0.0 then Rejected(r)
    else Shrink(z, cap - used)
  }

  predicate IsNew(t: Tracker, s: string) {
    match Get(t.positions, s) case None => true case Some(v) => Abs(v) < EPS
  }

  predicate CountBlocks(l: Limits, t: Tracker, s: Signal) {
    IsNew(t, s.symbol) && IsBuy(s.action) && Positives(t.positions) >= l.maxOpen
  }

  lemma ShrinkKeeps(z: Size, target: real)
    requires z.Sized? && z.notional > 0.0 && 0.0 < target < z.notional && z.qty > 0.0
    ensures var r := Shrink(z, target); r.notional == target && 0.0 < r.qty < z.qty
  {
    var f := target / z.notional;
    assert f * z.notional == target;
    QuotientPositive(target, z.notional);
    MulPositive(z.qty, f);
    if f >= 1.0 { MulMono(z.notional, 1.0, f); }
    MulPositive(z.qty, 1.0 - f);
    assert z.qty * (1.0 - f) == z.qty - z.qty * f;
  }

  lemma TradeRuleKeeps(l: Limits, pv: real, z: Size)
    requires z.Sized? && z.notional > 0.0 && z.qty > 0.0
    ensures var r := TradeRule(l, pv, z);
            && r.Sized? && 0.0 < r.notional <= z.notional && 0.0 < r.qty <= z.qty
            && (TradeCap(l, pv) > 0.0 ==> r.notional <= TradeCap(l, pv))
  {
    var cap := TradeCap(l, pv);
    if z.notional > cap && cap > 0.0 { ShrinkKeeps(z, cap); }
  }

  lemma FitRuleKeeps(z: Size, used: real, cap: real, reason: Reason)
    requires z.Sized? && z.notional > 0.0 && z.qty > 0.0
    ensures var r := FitRule(z, used, cap, reason);
            && (r.Rejected? <==> used >= cap)
            && (r.Sized? ==> 0.0 < r.notional <= z.notional && 0.0 < r.qty <= z.qty && used + r.notional <= cap)
  {
    if used + z.notional > cap && cap - used > 0.0 { ShrinkKeeps(z, cap - used); }
  }

  /** Rules 2 to 5 for a priced, sized entry. */
  function SizeEntry(l: Limits, pv: real, t: Tracker, s: Signal): Size
    requires Priced(s)
  {
    NotionalPositive(s);
    var asked := Sized(s.qty, Notional(s));
    TradeRuleKeeps(l, pv, asked);
    var traded := TradeRule(l, pv, asked);
    FitRuleKeeps(traded, Held(t, s.symbol), AssetCap(l, pv), AssetLimit);
    var fitted := FitRule(traded, Held(t, s.symbol), AssetCap(l, pv), AssetLimit);
    if fitted.Rejected? then fitted
    else if CountBlocks(l, t, s) then Rejected(OpenLimit)
    else FitRule(fitted, t.exposure, TotalCap(l, pv), ExposureCap)
  }

  // ---- one signal ----

  function AfterExit(t: Tracker, s: Signal): Tracker {
    if Priced(s) then
      var notional := Notional(s);
      Tracker(Put(t.positions, s.symbol, Max(0.0, Held(t, s.symbol) - notional)),
              Max(0.0, t.exposure - notional))
    else t
  }

  function AfterEntry(t: Tracker, s: Signal, notional: real): Tracker {
    Tracker(Put(t.positions, s.symbol, Held(t, s.symbol) + notional), t.exposure + notional)
  }

  function Emit(s: Signal, qty: real): Signal {
    if Abs(qty - s.qty) > QTY_EPS then s.(qty := qty) else s
  }

  function Step(l: Limits, pv: real, t: Tracker, s: Signal): (Tracker, Signal) {
    if IsExit(s.action) then (AfterExit(t, s), s)
    else if !IsEntry(s.action) then (t, s)
    else if !l.allowShorts && !IsBuy(s.action) then (t, Cancel(s, ShortsProhibited))
    else if s.price <= 0.0 || s.qty <= 0.0 then (t, s)
    else
      match SizeEntry(l, pv, t, s)
      case Rejected(r) => (t, Cancel(s, r))
      case Sized(qty, notional) => (AfterEntry(t, s, notional), Emit(s, qty))
  }

  function Batch(l: Limits, pv: real, t: Tracker, sigs: seq<Signal>): (r: (Tracker, seq<Signal>))
    ensures |r.1| == |sigs|
  {
    if sigs == [] then (t, [])
    else
      var (before, out) := Batch(l, pv, t, sigs[..|sigs| - 1]);
      var (after, last) := Step(l, pv, before, sigs[|sigs| - 1]);
      (after, out + [last])
  }

  function Apply(l: Limits, pv: real, positions: seq<(string, real)>, sigs: seq<Signal>): seq<Signal> {
    Batch(l, pv, Begin(positions), sigs).1
  }

  method ApplyExposureLayer(l: Limits, pv: real, positions: seq<(string, real)>, sigs: seq<Signal>)
    returns (result: seq<Signal>)
    ensures result == Apply(l, pv, positions, sigs)
  {
    var tracked := Begin(positions);
    var current, exposure := tracked.positions, tracked.exposure;
    result := [];
    for i := 0 to |sigs|
      invariant (Tracker(current, exposure), result) == Batch(l, pv, tracked, sigs[..i])
    {
      assert sigs[..i + 1][..i] == sigs[..i];
      var s, t := sigs[i], Tracker(current, exposure);
      var out := s;
      if IsExit(s.action) {
        var next := AfterExit(t, s);
        current, exposure := next.positions, next.exposure;
      } else if IsEntry(s.action) {
        if !l.allowShorts && !IsBuy(s.action) {
          out := Cancel(s, ShortsProhibited);
        } else if Priced(s) {
          match SizeEntry(l, pv, t, s)
          case Rejected(r) => out := Cancel(s, r);
          case Sized(qty, notional) =>
            out := Emit(s, qty);
            current := Put(current, s.symbol, GetOr(current, s.symbol, 0.0) + notional);
            exposure := exposure + notional;
        }
      }
      result := result + [out];
    }
    assert sigs[..|sigs|] == sigs;
  }

  // ---- the counter and the positions ----

  ghost predicate InStep(t: Tracker) { t.exposure == Total(t.positions) }

  /**
   * The two records of exposure stay equal through a sized exit exactly when the exit is no
   * larger than the tracked position and than the total, or the symbol is the whole book.
   */
  predicate ExitFits(t: Tracker, s: Signal) {
    var x, held := Notional(s), Held(t, s.symbol);
    if x <= held then x <= t.exposure else t.exposure == held
  }

  lemma {:induction false} ExitInStepExactly(t: Tracker, s: Signal)
    requires InStep(t) && Priced(s)
    ensures InStep(AfterExit(t, s)) <==> ExitFits(t, s)
  {
    NotionalPositive(s);
    PutTotal(t.positions, s.symbol, Max(0.0, Held(t, s.symbol) - Notional(s)));
  }

  /** An exit larger than its position takes more off the counter than off the positions. */
  lemma {:induction false} OversizedExitDrifts()
    ensures var t := Begin([("A", 10.0), ("B", 10.0)]);
            var s := Signal(Exit, "A", 15.0, 1.0, "unknown", None, None, None, None, false, None, 0);
            InStep(t) && AfterExit(t, s).exposure == 5.0 && Total(AfterExit(t, s).positions) == 10.0
  {
    var one: seq<(string, real)> := [("A", 10.0)];
    var two: seq<(string, real)> := [("A", 10.0), ("B", 10.0)];
    var first, d: Dict<string> := [Entry("A", 10.0)], [Entry("A", 10.0), Entry("B", 10.0)];
    assert one[..0] == [] && two[..1] == one && first[..0] == [] && d[..1] == first;
    assert Track(one) == first && Track(two) == d;
    assert Get(d, "A") == Some(10.0) && Total(first) == 10.0 && Total(d) == 20.0;
    PutTotal(d, "A", 0.0);
  }

  ghost predicate NonNegative(d: Dict<string>) {
    forall j :: 0 <= j < |d| ==> d[j].value >= 0.0
  }

  lemma {:induction false} HeldBounds(d: Dict<string>, s: string)
    requires NonNegative(d)
    ensures 0.0 <= GetOr(d, s, 0.0) <= Total(d)
  {
    if d != [] { HeldBounds(d[..|d| - 1], s); }
  }

  lemma {:induction false} PutNonNegative(d: Dict<string>, s: string, v: real)
    requires NonNegative(d) && v >= 0.0
    ensures NonNegative(Put(d, s, v))
  {
    if d != [] { PutNonNegative(d[..|d| - 1], s, v); }
  }

  /** No sized exit of the batch asks for more than is tracked when its turn comes. */
  ghost predicate NeverOversells(l: Limits, pv: real, t: Tracker, sigs: seq<Signal>) {
    forall j :: 0 <= j < |sigs| && IsExit(sigs[j].action) && Priced(sigs[j]) ==>
      Notional(sigs[j]) <= Held(Batch(l, pv, t, sigs[..j]).0, sigs[j].symbol)
  }

  lemma {:induction false} StepInStep(l: Limits, pv: real, t: Tracker, s: Signal)
    requires InStep(t) && NonNegative(t.positions)
    requires IsExit(s.action) && Priced(s) ==> Notional(s) <= Held(t, s.symbol)
    ensures InStep(Step(l, pv, t, s).0) && NonNegative(Step(l, pv, t, s).0.positions)
  {
    if IsExit(s.action) {
      if Priced(s) { ExitStays(t, s); }
    } else if IsEntry(s.action) && (l.allowShorts || IsBuy(s.action)) && Priced(s) {
      match SizeEntry(l, pv, t, s)
      case Rejected(_) =>
      case Sized(qty, notional) =>
        SizeEntryFits(l, pv, t, s);
        EntryStays(t, s, notional);
    }
  }

  lemma {:induction false} ExitStays(t: Tracker, s: Signal)
    requires InStep(t) && NonNegative(t.positions) && Priced(s) && Notional(s) <= Held(t, s.symbol)
    ensures InStep(AfterExit(t, s)) && NonNegative(AfterExit(t, s).positions)
  {
    HeldBounds(t.positions, s.symbol);
    ExitInStepExactly(t, s);
    PutNonNegative(t.positions, s.symbol, Max(0.0, Held(t, s.symbol) - Notional(s)));
  }

  lemma {:induction false} EntryStays(t: Tracker, s: Signal, notional: real)
    requires InStep(t) && NonNegative(t.positions) && notional > 0.0
    ensures InStep(AfterEntry(t, s, notional)) && NonNegative(AfterEntry(t, s, notional).positions)
  {
    HeldBounds(t.positions, s.symbol);
    EntryInStep(t, s, notional);
    PutNonNegative(t.positions, s.symbol, Held(t, s.symbol) + notional);
  }

  lemma {:induction false} EntryInStep(t: Tracker, s: Signal, notional: real)
    requires InStep(t)
    ensures InStep(AfterEntry(t, s, notional))
  {
    PutTotal(t.positions, s.symbol, Held(t, s.symbol) + notional);
  }

  /** Over any batch that never oversells a long book, the counter is the sum of positions. */
  lemma {:induction false} CounterIsTotal(l: Limits, pv: real, t: Tracker, sigs: seq<Signal>)
    requires InStep(t) && NonNegative(t.positions) && NeverOversells(l, pv, t, sigs)
    ensures InStep(Batch(l, pv, t, sigs).0) && NonNegative(Batch(l, pv, t, sigs).0.positions)
  {
    if sigs != [] {
      var n := |sigs| - 1;
      forall j | 0 <= j < n ensures sigs[..n][..j] == sigs[..j] {}
      CounterIsTotal(l, pv, t, sigs[..n]);
      StepInStep(l, pv, Batch(l, pv, t, sigs[..n]).0, sigs[n]);
    }
  }

  /** The tracker the k-th signal of the batch meets. */
  function AtTurn(l: Limits, pv: real, t: Tracker, sigs: seq<Signal>, k: nat): Tracker
    requires k <= |sigs|
  {
    Batch(l, pv, t, sigs[..k]).0
  }

  lemma {:induction false} NextTurn(l: Limits, pv: real, t: Tracker, sigs: seq<Signal>, k: nat)
    requires k < |sigs|
    ensures AtTurn(l, pv, t, sigs, k + 1) == Step(l, pv, AtTurn(l, pv, t, sigs, k), sigs[k]).0
  {
    assert sigs[..k + 1][..k] == sigs[..k];
  }

  /** The one kind of signal that can part the two records, and exactly when it does. */
  lemma {:induction false} StepInStepExactly(l: Limits, pv: real, t: Tracker, s: Signal)
    requires InStep(t)
    ensures InStep(Step(l, pv, t, s).0) <==> (IsExit(s.action) && Priced(s) ==> ExitFits(t, s))
  {
    if IsExit(s.action) {
      if Priced(s) { ExitInStepExactly(t, s); }
    } else if IsEntry(s.action) && (l.allowShorts || IsBuy(s.action)) && Priced(s) {
      match SizeEntry(l, pv, t, s)
      case Rejected(_) =>
      case Sized(qty, notional) => EntryInStep(t, s, notional);
    }
  }

  ghost predicate AlwaysInStep(l: Limits, pv: real, t: Tracker, sigs: seq<Signal>) {
    forall k: nat :: k <= |sigs| ==> InStep(AtTurn(l, pv, t, sigs, k))
  }

  /** Every sized exit fits the book it meets. */
  predicate ExitsFit(l: Limits, pv: real, t: Tracker, sigs: seq<Signal>) {
    forall k: nat :: k < |sigs| && IsExit(sigs[k].action) && Priced(sigs[k]) ==>
      ExitFits(AtTurn(l, pv, t, sigs, k), sigs[k])
  }

  /** Any limits, any book, shorts included: the records stay equal throughout exactly when every exit fits. */
  lemma {:induction false} BatchInStepExactly(l: Limits, pv: real, t: Tracker, sigs: seq<Signal>)
    requires InStep(t)
    ensures AlwaysInStep(l, pv, t, sigs) <==> ExitsFit(l, pv, t, sigs)
  {
    if AlwaysInStep(l, pv, t, sigs) {
      forall k: nat | k < |sigs| && IsExit(sigs[k].action) && Priced(sigs[k])
        ensures ExitFits(AtTurn(l, pv, t, sigs, k), sigs[k])
      {
        NextTurn(l, pv, t, sigs, k);
        StepInStepExactly(l, pv, AtTurn(l, pv, t, sigs, k), sigs[k]);
        assert InStep(AtTurn(l, pv, t, sigs, k + 1));
      }
    }
    if ExitsFit(l, pv, t, sigs) {
      forall k: nat | k <= |sigs| ensures InStep(AtTurn(l, pv, t, sigs, k)) {
        FittingStaysInStep(l, pv, t, sigs, k);
      }
    }
  }

  lemma {:induction false} FittingStaysInStep(l: Limits, pv: real, t: Tracker, sigs: seq<Signal>, k: nat)
    requires InStep(t) && ExitsFit(l, pv, t, sigs) && k <= |sigs|
    ensures InStep(AtTurn(l, pv, t, sigs, k))
  {
    if k > 0 {
      FittingStaysInStep(l, pv, t, sigs, k - 1);
      NextTurn(l, pv, t, sigs, k - 1);
      StepInStepExactly(l, pv, AtTurn(l, pv, t, sigs, k - 1), sigs[k - 1]);
    }
  }

  /** A long book that is never oversold meets that condition. */
  lemma {:induction false} LongBookFits(l: Limits, pv: real, t: Tracker, sigs: seq<Signal>)
    requires InStep(t) && NonNegative(t.positions) && NeverOversells(l, pv, t, sigs)
    ensures ExitsFit(l, pv, t, sigs)
  {
    forall k: nat | k < |sigs| && IsExit(sigs[k].action) && Priced(sigs[k])
      ensures ExitFits(AtTurn(l, pv, t, sigs, k), sigs[k])
    {
      forall j | 0 <= j < k ensures sigs[..k][..j] == sigs[..j] {}
      CounterIsTotal(l, pv, t, sigs[..k]);
      HeldBounds(AtTurn(l, pv, t, sigs, k).positions, sigs[k].symbol);
    }
  }

  // ---- the caps ----

  /** What every approved size satisfies: never larger than asked, and inside all three caps. */
  lemma {:induction false} SizeEntryFits(l: Limits, pv: real, t: Tracker, s: Signal)
    requires Priced(s)
    ensures var z := SizeEntry(l, pv, t, s);
            z.Sized? ==>
              && 0.0 < z.qty <= s.qty && 0.0 < z.notional <= Notional(s)
              && (TradeCap(l, pv) > 0.0 ==> z.notional <= TradeCap(l, pv))
              && Held(t, s.symbol) + z.notional <= AssetCap(l, pv)
              && t.exposure + z.notional <= TotalCap(l, pv)
              && !CountBlocks(l, t, s)
  {
    NotionalPositive(s);
    var asked := Sized(s.qty, Notional(s));
    TradeRuleKeeps(l, pv, asked);
    var traded := TradeRule(l, pv, asked);
    var used, cap := Held(t, s.symbol), AssetCap(l, pv);
    FitRuleKeeps(traded, used, cap, AssetLimit);
    var fitted := FitRule(traded, used, cap, AssetLimit);
    if fitted.Sized? { FitRuleKeeps(fitted, t.exposure, TotalCap(l, pv), ExposureCap); }
  }

  /** A rejection always has its reason: the asset, count or total limit is really used up. */
  lemma {:induction false} RejectionIsDue(l: Limits, pv: real, t: Tracker, s: Signal)
    requires Priced(s)
    ensures SizeEntry(l, pv, t, s).Rejected? <==>
      || Held(t, s.symbol) >= AssetCap(l, pv)
      || CountBlocks(l, t, s)
      || t.exposure >= TotalCap(l, pv)
  {
    NotionalPositive(s);
    var asked := Sized(s.qty, Notional(s));
    TradeRuleKeeps(l, pv, asked);
    var traded := TradeRule(l, pv, asked);
    FitRuleKeeps(traded, Held(t, s.symbol), AssetCap(l, pv), AssetLimit);
    var fitted := FitRule(traded, Held(t, s.symbol), AssetCap(l, pv), AssetLimit);
    if fitted.Sized? { FitRuleKeeps(fitted, t.exposure, TotalCap(l, pv), ExposureCap); }
  }

  ghost predicate WithinBudget(l: Limits, pv: real, first: Tracker, t: Tracker) {
    && t.exposure <= Max(first.exposure, Max(0.0, TotalCap(l, pv)))
    && forall x :: Held(t, x) <= Max(Held(first, x), Max(0.0, AssetCap(l, pv)))
  }

  lemma {:induction false} StepWithinBudget(l: Limits, pv: real, first: Tracker, t: Tracker, s: Signal)
    requires Keyed(t.positions) && WithinBudget(l, pv, first, t)
    ensures Keyed(Step(l, pv, t, s).0.positions) && WithinBudget(l, pv, first, Step(l, pv, t, s).0)
  {
    if IsExit(s.action) {
      if Priced(s) {
        NotionalPositive(s);
        PutKeys(t.positions, s.symbol, Max(0.0, Held(t, s.symbol) - Notional(s)));
      }
    } else if IsEntry(s.action) && (l.allowShorts || IsBuy(s.action)) && Priced(s) {
      match SizeEntry(l, pv, t, s)
      case Rejected(_) =>
      case Sized(qty, notional) =>
        SizeEntryFits(l, pv, t, s);
        PutKeys(t.positions, s.symbol, Held(t, s.symbol) + notional);
    }
  }

  /** Whatever the batch, the total and every symbol end at most at max(where it began, its cap). */
  lemma {:induction false} BatchWithinBudget(l: Limits, pv: real, t: Tracker, sigs: seq<Signal>)
    requires Keyed(t.positions)
    ensures Keyed(Batch(l, pv, t, sigs).0.positions) && WithinBudget(l, pv, t, Batch(l, pv, t, sigs).0)
  {
    if sigs != [] {
      BatchWithinBudget(l, pv, t, sigs[..|sigs| - 1]);
      StepWithinBudget(l, pv, t, Batch(l, pv, t, sigs[..|sigs| - 1]).0, sigs[|sigs| - 1]);
    }
  }

  // ---- the number of open positions ----

  ghost predicate NoShortPositions(t: Tracker) { forall x :: Held(t, x) > -EPS }

  ghost predicate Counted(l: Limits, t: Tracker, r: Tracker) {
    && Keyed(r.positions) && NoShortPositions(r)
    && Positives(r.positions) <= MaxInt(Positives(t.positions), l.maxOpen)
  }

  lemma {:induction false} ExitCount(l: Limits, t: Tracker, s: Signal)
    requires Keyed(t.positions) && NoShortPositions(t) && Priced(s)
    ensures Counted(l, t, AfterExit(t, s))
  {
    NotionalPositive(s);
    var v := Max(0.0, Held(t, s.symbol) - Notional(s));
    PutKeys(t.positions, s.symbol, v);
    PutTotal(t.positions, s.symbol, v);
    forall x ensures Held(AfterExit(t, s), x) > -EPS { assert Held(t, x) > -EPS; }
  }

  lemma {:induction false} EntryCount(l: Limits, t: Tracker, s: Signal, notional: real)
    requires Keyed(t.positions) && NoShortPositions(t) && notional > 0.0
    requires IsBuy(s.action) && !CountBlocks(l, t, s)
    ensures Counted(l, t, AfterEntry(t, s, notional))
  {
    var v := Held(t, s.symbol) + notional;
    PutKeys(t.positions, s.symbol, v);
    PutTotal(t.positions, s.symbol, v);
    forall x ensures Held(AfterEntry(t, s, notional), x) > -EPS {
      assert Held(t, x) > -EPS && Held(t, s.symbol) > -EPS;
    }
  }

  lemma {:induction false} StepCount(l: Limits, pv: real, t: Tracker, s: Signal)
    requires !l.allowShorts && Keyed(t.positions) && NoShortPositions(t)
    ensures Counted(l, t, Step(l, pv, t, s).0)
  {
    if IsExit(s.action) {
      if Priced(s) { ExitCount(l, t, s); }
    } else if IsBuy(s.action) && Priced(s) {
      SizeEntryFits(l, pv, t, s);
      match SizeEntry(l, pv, t, s)
      case Rejected(_) =>
      case Sized(qty, notional) => EntryCount(l, t, s, notional);
    }
  }

  /** With shorts off and no short position tracked, the position count never passes its limit. */
  lemma {:induction false} BatchCount(l: Limits, pv: real, t: Tracker, sigs: seq<Signal>)
    requires !l.allowShorts && Keyed(t.positions) && NoShortPositions(t)
    ensures Counted(l, t, Batch(l, pv, t, sigs).0)
  {
    if sigs != [] {
      BatchCount(l, pv, t, sigs[..|sigs| - 1]);
      StepCount(l, pv, Batch(l, pv, t, sigs[..|sigs| - 1]).0, sigs[|sigs| - 1]);
    }
  }

  /** The step sizes an entry: the action may open, and no rule rejects it. */
  predicate Enters(l: Limits, pv: real, t: Tracker, s: Signal) {
    IsEntry(s.action) && (l.allowShorts || IsBuy(s.action)) && Priced(s) && SizeEntry(l, pv, t, s).Sized?
  }

  /** The entry turns a holding that is not positive into one that is. */
  predicate Opens(l: Limits, pv: real, t: Tracker, s: Signal) {
    && Enters(l, pv, t, s)
    && Held(t, s.symbol) <= 0.0 < Held(t, s.symbol) + SizeEntry(l, pv, t, s).notional
  }

  /** Such an entry the count rule does not see: a short entry, or a buy through a tracked short. */
  predicate Uncounted(l: Limits, pv: real, t: Tracker, s: Signal) {
    Opens(l, pv, t, s) && (IsBuy(s.action) ==> Held(t, s.symbol) <= -EPS)
  }

  lemma {:induction false} ExitNeverRaises(t: Tracker, s: Signal)
    requires Priced(s)
    ensures Positives(AfterExit(t, s).positions) <= Positives(t.positions)
  {
    NotionalPositive(s);
    PutTotal(t.positions, s.symbol, Max(0.0, Held(t, s.symbol) - Notional(s)));
  }

  lemma {:induction false} EntryRaisesExactly(t: Tracker, s: Signal, notional: real)
    requires notional > 0.0
    ensures Positives(AfterEntry(t, s, notional).positions)
         == Positives(t.positions) + if Held(t, s.symbol) <= 0.0 < Held(t, s.symbol) + notional then 1 else 0
  {
    PutTotal(t.positions, s.symbol, Held(t, s.symbol) + notional);
  }

  /** A step adds at most one positive position, and does so exactly when it opens one. */
  lemma {:induction false} StepRaisesExactly(l: Limits, pv: real, t: Tracker, s: Signal)
    ensures var n, r := Positives(t.positions), Positives(Step(l, pv, t, s).0.positions);
            r <= n + 1 && (r == n + 1 <==> Opens(l, pv, t, s))
  {
    if IsExit(s.action) {
      if Priced(s) { ExitNeverRaises(t, s); }
    } else if Enters(l, pv, t, s) {
      SizeEntryFits(l, pv, t, s);
      EntryRaisesExactly(t, s, SizeEntry(l, pv, t, s).notional);
    }
  }

  /** At the limit only an uncounted entry can open. */
  lemma {:induction false} OpensUncounted(l: Limits, pv: real, t: Tracker, s: Signal)
    requires Positives(t.positions) >= l.maxOpen
    ensures Opens(l, pv, t, s) <==> Uncounted(l, pv, t, s)
  {
    if Opens(l, pv, t, s) { SizeEntryFits(l, pv, t, s); }
  }

  /** One step takes the count past max(before, limit) exactly when it is an uncounted entry at the limit. */
  lemma {:induction false} StepCountExactly(l: Limits, pv: real, t: Tracker, s: Signal)
    ensures Positives(Step(l, pv, t, s).0.positions) > MaxInt(Positives(t.positions), l.maxOpen) <==>
            Positives(t.positions) >= l.maxOpen && Uncounted(l, pv, t, s)
  {
    StepRaisesExactly(l, pv, t, s);
    if Positives(t.positions) >= l.maxOpen { OpensUncounted(l, pv, t, s); }
  }

  /** The tracker when the k-th signal of a batch has its turn. */
  function At(l: Limits, pv: real, t: Tracker, sigs: seq<Signal>, k: nat): Tracker
    requires k <= |sigs|
  {
    Batch(l, pv, t, sigs[..k]).0
  }

  ghost predicate CountHolds(l: Limits, pv: real, t: Tracker, sigs: seq<Signal>, limit: int) {
    forall k: nat :: k <= |sigs| ==> Positives(At(l, pv, t, sigs, k).positions) <= limit
  }

  /** Some signal finds the book at the limit and opens a position that is not counted. */
  ghost predicate Escapes(l: Limits, pv: real, t: Tracker, sigs: seq<Signal>, limit: int) {
    exists k: nat :: k < |sigs| && EscapesAt(l, pv, t, sigs, limit, k)
  }

  ghost predicate EscapesAt(l: Limits, pv: real, t: Tracker, sigs: seq<Signal>, limit: int, k: nat)
    requires k < |sigs|
  {
    var now := At(l, pv, t, sigs, k);
    Positives(now.positions) >= limit && Uncounted(l, pv, now, sigs[k])
  }

  lemma {:induction false} AtNext(l: Limits, pv: real, t: Tracker, sigs: seq<Signal>, k: nat)
    requires k < |sigs|
    ensures At(l, pv, t, sigs, k + 1) == Step(l, pv, At(l, pv, t, sigs, k), sigs[k]).0
  {
    assert sigs[..k + 1][..k] == sigs[..k];
  }

  lemma {:induction false} HoldsUntilEscape(l: Limits, pv: real, t: Tracker, sigs: seq<Signal>, limit: int, k: nat)
    requires k <= |sigs| && limit == MaxInt(Positives(t.positions), l.maxOpen)
    requires !Escapes(l, pv, t, sigs, limit)
    ensures Positives(At(l, pv, t, sigs, k).positions) <= limit
  {
    if k == 0 {
      assert sigs[..0] == [];
    } else {
      HoldsUntilEscape(l, pv, t, sigs, limit, k - 1);
      var now := At(l, pv, t, sigs, k - 1);
      AtNext(l, pv, t, sigs, k - 1);
      assert !EscapesAt(l, pv, t, sigs, limit, k - 1);
      StepRaisesExactly(l, pv, now, sigs[k - 1]);
      if Positives(now.positions) >= limit { OpensUncounted(l, pv, now, sigs[k - 1]); }
    }
  }

  /**
   * The position limit over a whole batch, shorts on or off and whatever is tracked: the count
   * stays at most max(start, limit) throughout exactly when no signal escapes it.
   */
  lemma {:induction false} BatchCountExactly(l: Limits, pv: real, t: Tracker, sigs: seq<Signal>)
    ensures var limit := MaxInt(Positives(t.positions), l.maxOpen);
            CountHolds(l, pv, t, sigs, limit) <==> !Escapes(l, pv, t, sigs, limit)
  {
    var limit := MaxInt(Positives(t.positions), l.maxOpen);
    if Escapes(l, pv, t, sigs, limit) {
      var k: nat :| k < |sigs| && EscapesAt(l, pv, t, sigs, limit, k);
      AtNext(l, pv, t, sigs, k);
      StepRaisesExactly(l, pv, At(l, pv, t, sigs, k), sigs[k]);
      assert Positives(At(l, pv, t, sigs, k + 1).positions) > limit;
    } else {
      forall k: nat | k <= |sigs| ensures Positives(At(l, pv, t, sigs, k).positions) <= limit {
        HoldsUntilEscape(l, pv, t, sigs, limit, k);
      }
    }
  }

  /** Buying through a tracked short position is not counted. */
  lemma {:induction false} ShortPositionDefeatsTheCount()
    ensures var l := Limits(1.0, 1.0, 1, 1.0, false);
            var t := Begin([("A", 10.0), ("B", -5.0)]);
            var s := Signal(Buy, "B", 20.0, 1.0, "unknown", None, None, None, None, false, None, 0);
            && InStep(t) && Positives(t.positions) == 1
            && Positives(Step(l, 100.0, t, s).0.positions) == 2 > l.maxOpen
  {
    var l := Limits(1.0, 1.0, 1, 1.0, false);
    var one: seq<(string, real)> := [("A", 10.0)];
    var two: seq<(string, real)> := [("A", 10.0), ("B", -5.0)];
    var first, d: Dict<string> := [Entry("A", 10.0)], [Entry("A", 10.0), Entry("B", -5.0)];
    assert one[..0] == [] && two[..1] == one && first[..0] == [] && d[..1] == first;
    assert Track(one) == first && Track(two) == d;
    var t := Begin(two);
    var s := Signal(Buy, "B", 20.0, 1.0, "unknown", None, None, None, None, false, None, 0);
    assert Get(d, "B") == Some(-5.0);
    assert SizeEntry(l, 100.0, t, s) == Sized(20.0, 20.0);
    PutTotal(d, "B", 15.0);
  }

  /** Nor is a short entry, which adds to the tracked position like a buy. */
  lemma {:induction false} ShortEntryDefeatsTheCount()
    ensures var l := Limits(1.0, 1.0, 1, 1.0, true);
            var t := Begin([("A", 10.0)]);
            var s := Signal(Short, "B", 20.0, 1.0, "unknown", None, None, None, None, false, None, 0);
            && NoShortPositions(t) && Positives(t.positions) == 1
            && Positives(Step(l, 100.0, t, s).0.positions) == 2 > l.maxOpen
  {
    var l := Limits(1.0, 1.0, 1, 1.0, true);
    var one: seq<(string, real)> := [("A", 10.0)];
    var d: Dict<string> := [Entry("A", 10.0)];
    assert one[..0] == [] && d[..0] == [];
    assert Track(one) == d;
    var t := Begin(one);
    var s := Signal(Short, "B", 20.0, 1.0, "unknown", None, None, None, None, false, None, 0);
    assert Get(d, "B").None?;
    assert SizeEntry(l, 100.0, t, s) == Sized(20.0, 20.0);
    PutTotal(d, "B", 20.0);
  }

  // ---- what happens to a signal ----

  /** No rule raises a quantity, and a signal that is not an entry comes out as it went in. */
  lemma {:induction false} StepFate(l: Limits, pv: real, t: Tracker, s: Signal)
    ensures var out := Step(l, pv, t, s).1;
            && (!IsEntry(s.action) ==> out == s)
            && (out == s.(action := out.action, qty := out.qty, reason := out.reason))
            && (out.action == s.action ==> out.reason == s.reason)
            && (out.action != s.action ==> out.action == Cancelled && out.qty == s.qty)
            && out.qty <= s.qty
  {
    if IsEntry(s.action) && Priced(s) { SizeEntryFits(l, pv, t, s); }
  }

  /** The tracker a batch starts from is consistent, so the theorems above apply to the layer. */
  lemma {:induction false} BeginIsConsistent(positions: seq<(string, real)>)
    ensures Keyed(Begin(positions).positions) && InStep(Begin(positions))
  {
    if positions != [] {
      var p := positions[|positions| - 1];
      BeginIsConsistent(positions[..|positions| - 1]);
      PutKeys(Track(positions[..|positions| - 1]), p.0, p.1);
    }
  }
}
