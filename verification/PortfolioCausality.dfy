/** No lookahead in the portfolio backtester: theorems about two runs on two price tables. */
module PortfolioCausality {
  import opened Common
  import opened CrossSectional

  /** Same calendar and universe, same closes on bars 0, ..., j. */
  ghost predicate Agree(a: Market, b: Market, j: int) {
    && a.common == b.common && a.symbols == b.symbols
    && forall s, k :: 0 <= k <= j && k < |a.common| ==> At(a, s, k) == At(b, s, k)
  }

  // ---- each ingredient reads only the bars it is given ----

  lemma {:induction false} DayReturnAgrees(a: Market, b: Market, s: Symbol, k: int)
    requires 1 <= k < |a.common| && Agree(a, b, k)
    ensures DayReturn(a, s, k) == DayReturn(b, s, k)
  {
    assert At(a, s, k - 1) == At(b, s, k - 1);
    assert At(a, s, k) == At(b, s, k);
  }

  lemma {:induction false} NameReturnsAgree(a: Market, b: Market, s: Symbol, lo: int, hi: int)
    requires 1 <= lo && hi <= |a.common| && Agree(a, b, hi - 1)
    ensures NameReturns(a, s, lo, hi) == NameReturns(b, s, lo, hi)
    decreases hi - lo
  {
    if lo < hi {
      NameReturnsAgree(a, b, s, lo, hi - 1);
      DayReturnAgrees(a, b, s, hi - 1);
    }
  }

  lemma {:induction false} CrossReturnsAgree(a: Market, b: Market, names: seq<Symbol>, k: int)
    requires 1 <= k < |a.common| && Agree(a, b, k)
    ensures CrossReturns(a, names, k) == CrossReturns(b, names, k)
  {
    if names != [] {
      CrossReturnsAgree(a, b, names[..|names| - 1], k);
      DayReturnAgrees(a, b, names[|names| - 1], k);
    }
  }

  lemma {:induction false} BasketReturnsAgree(a: Market, b: Market, names: seq<Symbol>, lo: int, hi: int)
    requires 1 <= lo && hi <= |a.common| && Agree(a, b, hi - 1)
    ensures BasketReturns(a, names, lo, hi) == BasketReturns(b, names, lo, hi)
    decreases hi - lo
  {
    if lo < hi {
      BasketReturnsAgree(a, b, names, lo, hi - 1);
      CrossReturnsAgree(a, b, names, hi - 1);
    }
  }

  lemma {:induction false} RankedAgree(a: Market, b: Market, cfg: Config, names: seq<Symbol>, i: int)
    requires Runnable(cfg) && 0 <= i < |a.common| && Agree(a, b, i - cfg.skip)
    ensures Ranked(a, cfg, names, i) == Ranked(b, cfg, names, i)
  {
    if names != [] {
      var s := names[|names| - 1];
      RankedAgree(a, b, cfg, names[..|names| - 1], i);
      if i - cfg.lookback >= 0 && i - cfg.skip < |a.common| {
        assert At(a, s, i - cfg.skip) == At(b, s, i - cfg.skip);
        assert At(a, s, i - cfg.lookback) == At(b, s, i - cfg.lookback);
      }
      assert Momentum(a, cfg, s, i) == Momentum(b, cfg, s, i);
    }
  }

  lemma {:induction false} InversesAgree(a: Market, b: Market, cfg: Config, names: seq<Symbol>, i: int)
    requires 0 <= i < |a.common| && Agree(a, b, i - 1)
    ensures Inverses(a, cfg, names, i) == Inverses(b, cfg, names, i)
  {
    if names != [] {
      InversesAgree(a, b, cfg, names[..|names| - 1], i);
      NameReturnsAgree(a, b, names[|names| - 1], MaxInt(1, i - cfg.volWindow), i);
    }
  }

  lemma {:induction false} WeightedReturnAgrees(
    a: Market, b: Market, names: seq<Symbol>, w: map<Symbol, real>, i: int)
    requires 1 <= i < |a.common| && Agree(a, b, i)
    ensures WeightedReturn(a, names, w, i) == WeightedReturn(b, names, w, i)
    ensures AnyReturn(a, names, i) == AnyReturn(b, names, i)
  {
    forall j | 0 <= j < |names| ensures DayReturn(a, names[j], i) == DayReturn(b, names[j], i) {
      DayReturnAgrees(a, b, names[j], i);
    }
    if names != [] {
      WeightedReturnAgrees(a, b, names[..|names| - 1], w, i);
      assert DayReturn(a, names[|names| - 1], i) == DayReturn(b, names[|names| - 1], i);
    }
  }

  // ---- the two theorems ----

  /** The names held from bar i on come from bars up to i - skip. */
  lemma {:induction false} ChoiceAgrees(a: Market, b: Market, cfg: Config, i: int, j: int)
    requires Runnable(cfg) && 0 <= i < |a.common| && Agree(a, b, j) && i - cfg.skip <= j
    ensures Select(a, cfg, i) == Select(b, cfg, i)
  {
    RankedAgree(a, b, cfg, a.symbols, i);
  }

  /** Their weights come from bars before i. */
  lemma {:induction false} SharesAgree(a: Market, b: Market, cfg: Config, names: seq<Symbol>, i: int)
    requires 0 <= i < |a.common| && Agree(a, b, i - 1)
    ensures Shares(a, cfg, names, i) == Shares(b, cfg, names, i)
  {
    InversesAgree(a, b, cfg, names, i);
  }

  lemma {:induction false} ExposureAgrees(a: Market, b: Market, cfg: Config, names: seq<Symbol>, i: int)
    requires Runnable(cfg) && 0 <= i < |a.common| && Agree(a, b, i)
    ensures Exposure(a, cfg, names, i) == Exposure(b, cfg, names, i)
  {
    BasketReturnsAgree(a, b, names, MaxInt(1, i - cfg.volWindow + 1), i + 1);
  }

  lemma {:induction false} RebalanceAgrees(a: Market, b: Market, cfg: Config, i: int, st: State)
    requires Runnable(cfg) && cfg.skip >= 0 && 0 <= i < |a.common| && Agree(a, b, i)
    ensures Rebalance(a, cfg, i, st) == Rebalance(b, cfg, i, st)
  {
    ChoiceAgrees(a, b, cfg, i, i);
    SameChoiceAgrees(a, b, cfg, i, st);
  }

  /** The same choice of names is sized and scaled alike. */
  lemma {:induction false} SameChoiceAgrees(a: Market, b: Market, cfg: Config, i: int, st: State)
    requires Runnable(cfg) && 0 <= i < |a.common| && Agree(a, b, i) && Select(a, cfg, i) == Select(b, cfg, i)
    ensures Rebalance(a, cfg, i, st) == Rebalance(b, cfg, i, st)
  {
    ExposureAgrees(a, b, cfg, Select(a, cfg, i), i);
    SharesAgree(a, b, cfg, Select(a, cfg, i), i);
  }

  lemma {:induction false} EarnedAgrees(a: Market, b: Market, i: int, st: State)
    requires 0 <= i < |a.common| && Agree(a, b, i)
    ensures Earned(a, i, st) == Earned(b, i, st)
  {
    if i > 0 { WeightedReturnAgrees(a, b, st.holdings, st.weights, i); }
  }

  /** Equal closes up to bar i - 1: the whole state after it is equal, raw equity included. */
  lemma {:induction false} NoLookahead(a: Market, b: Market, cfg: Config, i: int)
    requires Runnable(cfg) && cfg.skip >= 0 && 0 <= i <= |a.common| && Agree(a, b, i - 1)
    ensures Run(a, cfg, i) == Run(b, cfg, i)
  {
    forall j, st | 0 <= j < i ensures Step(a, cfg, j, st) == Step(b, cfg, j, st) {
      StepAgrees(a, b, cfg, j, st);
    }
    RunsStayRelated(a, cfg, b, cfg, i, (_, s, t) => s == t);
  }

  lemma {:induction false} StepAgrees(a: Market, b: Market, cfg: Config, i: int, st: State)
    requires Runnable(cfg) && cfg.skip >= 0 && 0 <= i < |a.common| && Agree(a, b, i)
    ensures Step(a, cfg, i, st) == Step(b, cfg, i, st)
  {
    PositionAgrees(a, b, cfg, i, st);
    EarnedAgrees(a, b, i, Positioned(a, cfg, i, st));
  }

  lemma {:induction false} PositionAgrees(a: Market, b: Market, cfg: Config, i: int, st: State)
    requires Runnable(cfg) && cfg.skip >= 0 && 0 <= i < |a.common| && Agree(a, b, i)
    ensures Positioned(a, cfg, i, st) == Positioned(b, cfg, i, st)
  {
    if IsRebalance(cfg, i) { RebalanceAgrees(a, b, cfg, i, st); }
  }

  /**
   * Equal closes up to bar i - 1 only: with skip >= 1 the holdings and weights that earn bar
   * i's return are equal all the same, and so is the whole position, unless vol targeting
   * rescales it on this very bar.
   */
  lemma {:induction false} PositionIsCausal(a: Market, b: Market, cfg: Config, i: int)
    requires Runnable(cfg) && cfg.skip >= 1 && 0 <= i < |a.common| && Agree(a, b, i - 1)
    ensures var x, y := Positioned(a, cfg, i, Run(a, cfg, i)), Positioned(b, cfg, i, Run(b, cfg, i));
            && x.holdings == y.holdings && x.weights == y.weights && x.equity == y.equity
            && (cfg.volTarget <= 0.0 || !IsRebalance(cfg, i) ==> x == y)
  {
    NoLookahead(a, b, cfg, i);
    if IsRebalance(cfg, i) {
      ChoiceAgrees(a, b, cfg, i, i - 1);
      SharesAgree(a, b, cfg, Select(a, cfg, i), i);
    }
  }

  // ---- a strategy that can never hold anything ----

  /** Some place is kept for a name, and the regime filter can be satisfied. */
  predicate CanHold(cfg: Config) { cfg.topN != 0 && (cfg.regimeFilter ==> cfg.minBreadth <= 1.0) }

  lemma {:induction false} PositivesAreScored(rs: seq<Rank>)
    ensures |PositiveNames(rs)| <= ScoredCount(rs)
  {
    if rs != [] { PositivesAreScored(rs[..|rs| - 1]); }
  }

  lemma {:induction false} BreadthAtMostOne(rs: seq<Rank>)
    ensures Breadth(rs) <= 1.0
  {
    PositivesAreScored(rs);
    if ScoredCount(rs) > 0 { DivBounds(|PositiveNames(rs)| as real, ScoredCount(rs) as real); }
  }

  lemma {:induction false} NothingHeld(m: Market, cfg: Config, i: int)
    requires Runnable(cfg) && 0 <= i < |m.common| && !CanHold(cfg)
    ensures Select(m, cfg, i) == []
  {
    BreadthAtMostOne(Ranked(m, cfg, m.symbols, i));
  }

  /** Such a run never looks at a price at all. */
  lemma {:induction false} IdleRun(a: Market, b: Market, cfg: Config, i: int)
    requires Runnable(cfg) && 0 <= i <= |a.common| && !CanHold(cfg)
    requires a.common == b.common && a.symbols == b.symbols
    ensures Run(a, cfg, i) == Run(b, cfg, i) && Run(a, cfg, i).holdings == []
  {
    forall j, st: State | 0 <= j < i && st.holdings == []
      ensures Step(a, cfg, j, st) == Step(b, cfg, j, st) && Step(a, cfg, j, st).holdings == []
    {
      IdleStep(a, b, cfg, j, st);
    }
    RunsStayRelated(a, cfg, b, cfg, i, (_, s: State, t: State) => s == t && s.holdings == []);
  }

  lemma {:induction false} IdleStep(a: Market, b: Market, cfg: Config, i: int, st: State)
    requires Runnable(cfg) && 0 <= i < |a.common| && !CanHold(cfg) && st.holdings == []
    requires a.common == b.common && a.symbols == b.symbols
    ensures Step(a, cfg, i, st) == Step(b, cfg, i, st) && Step(a, cfg, i, st).holdings == []
  {
    NothingHeldAgrees(a, b, cfg, i, st);
    NothingHeld(a, cfg, i);
  }

  lemma {:induction false} NothingHeldAgrees(a: Market, b: Market, cfg: Config, i: int, st: State)
    requires Runnable(cfg) && 0 <= i < |a.common| && !CanHold(cfg)
    requires a.common == b.common && a.symbols == b.symbols
    ensures Positioned(a, cfg, i, st) == Positioned(b, cfg, i, st)
  {
    NothingHeld(a, cfg, i);
    NothingHeld(b, cfg, i);
  }
}
