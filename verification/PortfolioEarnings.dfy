/** What a day earns and costs, said of the equity curve, the positions and the closes alone. */
module PortfolioEarnings {
  import opened Common
  import opened CrossSectional
  import opened PortfolioReport

  /** The move of one close over the one before, where both are usable. */
  function Move(m: Market, s: Symbol, i: int): real
    requires 0 <= i < |m.common|
  {
    if i > 0 && At(m, s, i - 1) > 0.0 && At(m, s, i) != 0.0 then At(m, s, i) / At(m, s, i - 1) - 1.0 else 0.0
  }

  /** What one name adds to the return of a book. */
  function Part(m: Market, w: map<Symbol, real>, s: Symbol, i: int): real
    requires 0 <= i < |m.common|
  {
    Weight(w, s) * Move(m, s, i)
  }

  function Moves(m: Market, names: seq<Symbol>, w: map<Symbol, real>, i: int): seq<real>
    requires 0 <= i < |m.common|
  {
    seq(|names|, j requires 0 <= j < |names| => Part(m, w, names[j], i))
  }

  function Changes(symbols: seq<Symbol>, w: map<Symbol, real>, before: map<Symbol, real>): seq<real> {
    seq(|symbols|, j requires 0 <= j < |symbols| => Abs(Weight(w, symbols[j]) - Weight(before, symbols[j])))
  }

  lemma ContributionIsPart(m: Market, w: map<Symbol, real>, s: Symbol, i: int)
    requires 1 <= i < |m.common|
    ensures Contribution(m, w, s, i) == Part(m, w, s, i)
  {
  }

  lemma {:induction false} MovesInit(m: Market, names: seq<Symbol>, w: map<Symbol, real>, i: int)
    requires 0 <= i < |m.common| && names != []
    ensures var n := |names| - 1;
      Sum(Moves(m, names, w, i)) == Sum(Moves(m, names[..n], w, i)) + Part(m, w, names[n], i)
  {
    var n := |names| - 1;
    assert Moves(m, names, w, i)[..n] == Moves(m, names[..n], w, i);
  }

  lemma {:induction false} MovesAdd(m: Market, names: seq<Symbol>, w: map<Symbol, real>, i: int)
    requires 1 <= i < |m.common|
    ensures WeightedReturn(m, names, w, i) == Sum(Moves(m, names, w, i))
  {
    if names != [] {
      MovesAdd(m, names[..|names| - 1], w, i);
      MovesInit(m, names, w, i);
      ContributionIsPart(m, w, names[|names| - 1], i);
    }
  }

  lemma {:induction false} ChangesAdd(symbols: seq<Symbol>, w: map<Symbol, real>, before: map<Symbol, real>)
    ensures Traded(symbols, w, before) == Sum(Changes(symbols, w, before))
  {
    if symbols != [] {
      var n := |symbols| - 1;
      ChangesAdd(symbols[..n], w, before);
      assert Changes(symbols, w, before)[..n] == Changes(symbols[..n], w, before);
    }
  }

  lemma {:induction false} NothingMoves(m: Market, names: seq<Symbol>, w: map<Symbol, real>, i: int)
    requires 0 <= i < |m.common| && forall j :: 0 <= j < |names| ==> Move(m, names[j], i) == 0.0
    ensures Sum(Moves(m, names, w, i)) == 0.0
  {
    if names != [] {
      NothingMoves(m, names[..|names| - 1], w, i);
      MovesInit(m, names, w, i);
    }
  }

  /** An equity grown by a return at an exposure. */
  function Grown(e: real, exposure: real, ret: real): real { Max(0.0, e + e * (exposure * ret)) }

  /** An equity charged for a traded share of it. */
  function Charged(e: real, pct: real, traded: real): real { Max(0.0, e - pct * traded * e) }

  lemma GrowIsGrown(e: real, exposure: real, ret: real)
    ensures Max(0.0, Grow(e, exposure, ret)) == Grown(e, exposure, ret)
  {
  }

  lemma GrownByNothing(e: real, exposure: real)
    ensures Grown(e, exposure, 0.0) == Max(0.0, e)
  {
  }

  /** What a position earns into bar i. */
  lemma {:induction false} EarnedIs(m: Market, i: int, st: State)
    requires 0 <= i < |m.common|
    ensures Max(0.0, Earned(m, i, st)) == Grown(st.equity, st.exposure, Sum(Moves(m, st.holdings, st.weights, i)))
  {
    if st.holdings == [] || i == 0 || !AnyReturn(m, st.holdings, i) {
      NothingMoves(m, st.holdings, st.weights, i);
      GrownByNothing(st.equity, st.exposure);
    } else {
      MovesAdd(m, st.holdings, st.weights, i);
      GrowIsGrown(st.equity, st.exposure, WeightedReturn(m, st.holdings, st.weights, i));
    }
  }

  // ---- the curve ----

  /** The equity the last bar left behind. */
  function Before(cfg: Config, curve: seq<real>, i: nat): real
    requires i <= |curve|
  {
    if i == 0 then cfg.capital else curve[i - 1]
  }

  ghost predicate Tracked(cfg: Config, i: int, st: State) {
    i >= 0 && |st.raw| == i && st.equity == Before(cfg, st.raw, i) && (i > 0 ==> st.equity >= 0.0)
  }

  lemma {:induction false} RunIsTracked(m: Market, cfg: Config, n: nat)
    requires Runnable(cfg) && n <= |m.common|
    ensures Tracked(cfg, n, Run(m, cfg, n))
  {
    forall i, st | 0 <= i < n && Tracked(cfg, i, st) ensures Tracked(cfg, i + 1, Step(m, cfg, i, st)) {
      StepIsTracked(m, cfg, i, st);
    }
    RunKeeps(m, cfg, n, (i, st) => Tracked(cfg, i, st));
  }

  lemma {:induction false} StepIsTracked(m: Market, cfg: Config, i: nat, st: State)
    requires Runnable(cfg) && i < |m.common| && Tracked(cfg, i, st)
    ensures Tracked(cfg, i + 1, Step(m, cfg, i, st))
  {
    StepRaw(m, cfg, i, st);
    var held := Positioned(m, cfg, i, st);
    RecordKeeps(i, held, Earned(m, i, held));
  }

  /** Later bars leave the curve so far as it is. */
  lemma {:induction false} CurveGrows(m: Market, cfg: Config, i: nat, n: nat)
    requires Runnable(cfg) && i <= n <= |m.common|
    ensures |Run(m, cfg, n).raw| == n && Run(m, cfg, n).raw[..i] == Run(m, cfg, i).raw
  {
    RunIsTracked(m, cfg, n);
    if i < n {
      CurveGrows(m, cfg, i, n - 1);
      RunIsTracked(m, cfg, n - 1);
      OneMoreBar(m, cfg, n - 1);
    }
  }

  lemma {:induction false} OneMoreBar(m: Market, cfg: Config, i: nat)
    requires Runnable(cfg) && i < |m.common| && |Run(m, cfg, i).raw| == i
    ensures Run(m, cfg, i + 1).raw == Run(m, cfg, i).raw + [Run(m, cfg, i + 1).equity]
  {
    StepRaw(m, cfg, i, Run(m, cfg, i));
  }

  /** The curve's bars are the equities on the way. */
  lemma {:induction false} CurveIs(m: Market, cfg: Config, i: nat, n: nat)
    requires Runnable(cfg) && i < n <= |m.common|
    ensures |Run(m, cfg, n).raw| == n && Run(m, cfg, n).raw[i] == Run(m, cfg, i + 1).equity
    ensures Before(cfg, Run(m, cfg, n).raw, i) == Run(m, cfg, i).equity
  {
    var curve := Run(m, cfg, n).raw;
    RunIsTracked(m, cfg, i);
    RunIsTracked(m, cfg, i + 1);
    CurveGrows(m, cfg, i, n);
    CurveGrows(m, cfg, i + 1, n);
    assert curve[i] == curve[..i + 1][i];
    if i > 0 { assert curve[i - 1] == curve[..i][i - 1]; }
  }

  lemma {:induction false} RebalanceCharges(m: Market, cfg: Config, i: int, st: State)
    requires Runnable(cfg) && 0 <= i < |m.common|
    ensures var r := Rebalance(m, cfg, i, st);
            r.equity == Charged(st.equity, cfg.costPct, Sum(Changes(m.symbols, r.weights, st.weights)))
  {
    var w := NewWeights(m, cfg, Select(m, cfg, i), i);
    ChangesAdd(m.symbols, w, st.weights);
    RebalanceFields(m, cfg, i, st, w);
  }

  lemma {:induction false} RebalanceFields(m: Market, cfg: Config, i: int, st: State, w: map<Symbol, real>)
    requires Runnable(cfg) && 0 <= i < |m.common| && w == NewWeights(m, cfg, Select(m, cfg, i), i)
    ensures var r := Rebalance(m, cfg, i, st);
            r.weights == w && r.equity == Charged(st.equity, cfg.costPct, Traded(m.symbols, w, st.weights))
  {
  }

  /** One bar's equity from the one before, the position in force and the closes. */
  ghost predicate DayPays(m: Market, cfg: Config, i: nat, was: State, held: State, before: real, after: real)
    requires i < |m.common| && cfg.rebalanceDays >= 1
  {
    var traded := Sum(Changes(m.symbols, held.weights, was.weights));
    var e := if IsRebalance(cfg, i) then Charged(before, cfg.costPct, traded) else before;
    after == Grown(e, held.exposure, Sum(Moves(m, held.holdings, held.weights, i)))
  }

  lemma {:induction false} RecordKeeps(i: int, st: State, e: real)
    ensures var next := Record(i, st, e);
      && next.equity == Max(0.0, e) && next.holdings == st.holdings && next.weights == st.weights
      && next.exposure == st.exposure
  {
  }

  lemma {:induction false} StepPays(m: Market, cfg: Config, i: nat, st: State)
    requires Runnable(cfg) && i < |m.common|
    ensures var next := Step(m, cfg, i, st); DayPays(m, cfg, i, st, next, st.equity, next.equity)
  {
    var held := Positioned(m, cfg, i, st);
    PositionPays(m, cfg, i, st, held, Record(i, held, Earned(m, i, held)));
  }

  lemma {:induction false} PositionPays(m: Market, cfg: Config, i: nat, st: State, held: State, next: State)
    requires Runnable(cfg) && i < |m.common|
    requires held == Positioned(m, cfg, i, st) && next == Record(i, held, Earned(m, i, held))
    ensures DayPays(m, cfg, i, st, next, st.equity, next.equity)
  {
    RecordKeeps(i, held, Earned(m, i, held));
    EarnedIs(m, i, held);
    if IsRebalance(cfg, i) { RebalanceCharges(m, cfg, i, st); }
  }

  /**
   * Every bar of every run: the equity is the one before, less the cost of every change of weight on a
   * rebalance bar, grown by the exposure times the weighted moves of what is held, and never below zero.
   */
  lemma {:induction false} EquityFollowsPrices(m: Market, cfg: Config, i: nat, n: nat)
    requires Runnable(cfg) && i < n <= |m.common|
    ensures var curve := Run(m, cfg, n).raw;
      |curve| == n && DayPays(m, cfg, i, Run(m, cfg, i), Run(m, cfg, i + 1), Before(cfg, curve, i), curve[i])
  {
    CurveIs(m, cfg, i, n);
    StepPays(m, cfg, i, Run(m, cfg, i));
  }

  // ---- a sole holding ----

  /** Bar k is earned by `s` alone, at full weight and exposure, and nothing is charged for it. */
  ghost predicate HeldAlone(m: Market, cfg: Config, s: Symbol, k: nat)
    requires Runnable(cfg) && k < |m.common|
  {
    var held := Run(m, cfg, k + 1);
    && held.holdings == [s] && Weight(held.weights, s) == 1.0 && held.exposure == 1.0
    && (IsRebalance(cfg, k) ==> cfg.costPct == 0.0)
  }

  /** From x to y is as from p to q. */
  predicate Follows(x: real, y: real, p: real, q: real) { y * p == x * q }

  lemma {:induction false} DayOfOne(m: Market, cfg: Config, s: Symbol, k: nat, was: State, held: State, x: real, y: real)
    requires Runnable(cfg) && 0 < k < |m.common| && DayPays(m, cfg, k, was, held, x, y) && x >= 0.0
    requires held.holdings == [s] && Weight(held.weights, s) == 1.0 && held.exposure == 1.0
    requires IsRebalance(cfg, k) ==> cfg.costPct == 0.0
    requires At(m, s, k - 1) > 0.0 && At(m, s, k) > 0.0
    ensures Follows(x, y, At(m, s, k - 1), At(m, s, k))
  {
    MovesInit(m, [s], held.weights, k);
    assert [s][..0] == [];
    FreeOfCharge(x, Sum(Changes(m.symbols, held.weights, was.weights)));
    FollowsClose(x, y, At(m, s, k - 1), At(m, s, k));
  }

  lemma FreeOfCharge(e: real, traded: real)
    requires e >= 0.0
    ensures Charged(e, 0.0, traded) == e
  {
  }

  lemma FollowsClose(x: real, y: real, p: real, q: real)
    requires p > 0.0 && q > 0.0 && x >= 0.0 && y == Grown(x, 1.0, q / p - 1.0)
    ensures Follows(x, y, p, q)
  {
    var r := q / p;
    assert r * p == q;
    QuotientPositive(q, p);
    assert x + x * (r - 1.0) == x * r;
    if x > 0.0 { MulPositive(x, r); }
    assert x * r * p == x * (r * p);
  }

  /** A sole holding at full exposure and no cost follows its own price. */
  lemma {:induction false} SoleHoldingTracksPrice(m: Market, cfg: Config, s: Symbol, i: nat, j: nat, n: nat)
    requires Runnable(cfg) && i <= j < n <= |m.common|
    requires forall k: nat :: i < k <= j ==> HeldAlone(m, cfg, s, k)
    requires forall k: nat :: i <= k <= j ==> At(m, s, k) > 0.0
    ensures var curve := Run(m, cfg, n).raw;
      && |curve| == n && Follows(curve[i], curve[j], At(m, s, i), At(m, s, j))
      && (curve[i] > 0.0 ==> curve[j] / curve[i] == At(m, s, j) / At(m, s, i))
  {
    var curve, closes := Run(m, cfg, n).raw, seq(n, k requires 0 <= k < n => At(m, s, k));
    CurveIs(m, cfg, j, n);
    forall k: nat | i < k <= j ensures Follows(curve[k - 1], curve[k], closes[k - 1], closes[k]) {
      NextDayOfOne(m, cfg, s, k, n, curve);
    }
    InProportion(curve, closes, i, j);
    if curve[i] > 0.0 { CrossRatio(curve[i], curve[j], closes[i], closes[j]); }
  }

  lemma {:induction false} NextDayOfOne(m: Market, cfg: Config, s: Symbol, k: nat, n: nat, curve: seq<real>)
    requires Runnable(cfg) && 0 < k < n <= |m.common| && HeldAlone(m, cfg, s, k) && curve == Run(m, cfg, n).raw
    requires At(m, s, k - 1) > 0.0 && At(m, s, k) > 0.0
    ensures |curve| == n && Follows(curve[k - 1], curve[k], At(m, s, k - 1), At(m, s, k))
  {
    CurveIs(m, cfg, k, n);
    CurveIsNonNegative(m, cfg, k - 1, n);
    StepOfOne(m, cfg, s, k, Run(m, cfg, k), Run(m, cfg, k + 1));
  }

  lemma {:induction false} StepOfOne(m: Market, cfg: Config, s: Symbol, k: nat, st: State, next: State)
    requires Runnable(cfg) && 0 < k < |m.common| && next == Step(m, cfg, k, st) && st.equity >= 0.0
    requires next.holdings == [s] && Weight(next.weights, s) == 1.0 && next.exposure == 1.0
    requires IsRebalance(cfg, k) ==> cfg.costPct == 0.0
    requires At(m, s, k - 1) > 0.0 && At(m, s, k) > 0.0
    ensures Follows(st.equity, next.equity, At(m, s, k - 1), At(m, s, k))
  {
    StepPays(m, cfg, k, st);
    DayOfOne(m, cfg, s, k, st, next, st.equity, next.equity);
  }

  lemma {:induction false} CurveIsNonNegative(m: Market, cfg: Config, i: nat, n: nat)
    requires Runnable(cfg) && i < n <= |m.common|
    ensures |Run(m, cfg, n).raw| == n && Run(m, cfg, n).raw[i] >= 0.0
  {
    CurveIs(m, cfg, i, n);
    RunIsTracked(m, cfg, i + 1);
  }

  /** Two sequences that keep their proportion from each entry to the next keep it throughout. */
  lemma {:induction false} InProportion(xs: seq<real>, ps: seq<real>, i: nat, j: nat)
    requires i <= j < |xs| == |ps| && forall k: nat :: i <= k <= j ==> ps[k] > 0.0
    requires forall k: nat :: i < k <= j ==> Follows(xs[k - 1], xs[k], ps[k - 1], ps[k])
    ensures Follows(xs[i], xs[j], ps[i], ps[j])
    decreases j
  {
    if i < j {
      InProportion(xs, ps, i, j - 1);
      Telescope(xs[i], xs[j - 1], xs[j], ps[i], ps[j - 1], ps[j]);
    }
  }

  lemma Telescope(x: real, y: real, z: real, p: real, q: real, r: real)
    requires Follows(x, y, p, q) && Follows(y, z, q, r) && q > 0.0
    ensures Follows(x, z, p, r)
  {
    assert (z * p) * q == (z * q) * p == (y * r) * p == (y * p) * r == (x * q) * r == (x * r) * q;
    assert (z * p - x * r) * q == 0.0;
  }

  lemma CrossRatio(x: real, y: real, p: real, q: real)
    requires x > 0.0 && p > 0.0 && Follows(x, y, p, q)
    ensures y / x == q / p
  {
    assert y / x * x == y;
    var k := y / x;
    assert (k * p) * x == q * x;
    assert (k * p - q) * x == 0.0;
    QuotientIs(q, p, k);
  }
}
