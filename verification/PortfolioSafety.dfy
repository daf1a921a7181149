/** The ranking picks the true top names, the weights are a probability vector, nobody is ruined. */
module PortfolioSafety {
  import opened Common
  import opened CapWeights
  import opened CrossSectional

  // ---- ranking: a sorted permutation of the universe ----

  ghost predicate Sorted(rs: seq<Rank>) {
    forall a, b :: 0 <= a < b < |rs| ==> Ahead(rs[a], rs[b])
  }

  ghost predicate AllAhead(rs: seq<Rank>, y: Rank) { forall a :: 0 <= a < |rs| ==> Ahead(rs[a], y) }

  lemma {:induction false} InsertPermutes(rs: seq<Rank>, x: Rank)
    ensures multiset(InsertRank(rs, x)) == multiset(rs) + multiset{x}
  {
    if rs != [] && !Ahead(rs[|rs| - 1], x) {
      var n := |rs| - 1;
      InsertPermutes(rs[..n], x);
      assert rs == rs[..n] + [rs[n]];
    }
  }

  lemma {:induction false} InsertAllAhead(rs: seq<Rank>, x: Rank, y: Rank)
    requires AllAhead(rs, y) && Ahead(x, y)
    ensures AllAhead(InsertRank(rs, x), y)
  {
    if rs != [] { InsertAllAhead(rs[..|rs| - 1], x, y); }
  }

  lemma {:induction false} SortedPush(rs: seq<Rank>, y: Rank)
    requires Sorted(rs) && AllAhead(rs, y)
    ensures Sorted(rs + [y])
  {
  }

  lemma {:induction false} InsertSorted(rs: seq<Rank>, x: Rank)
    requires Sorted(rs)
    ensures Sorted(InsertRank(rs, x))
  {
    if rs != [] {
      var n := |rs| - 1;
      var last := rs[n];
      assert AllAhead(rs[..n], last);
      if Ahead(last, x) {
        SortedPush(rs, x);
      } else {
        InsertSorted(rs[..n], x);
        InsertAllAhead(rs[..n], x, last);
        SortedPush(InsertRank(rs[..n], x), last);
      }
    }
  }

  function Scores(m: Market, cfg: Config, names: seq<Symbol>, i: int): seq<Rank>
    requires 0 <= i < |m.common| && Runnable(cfg)
  {
    seq(|names|, k requires 0 <= k < |names| => Rank(names[k], Momentum(m, cfg, names[k], i)))
  }

  ghost predicate SortedPermutation(rs: seq<Rank>, qs: seq<Rank>) { Sorted(rs) && multiset(rs) == multiset(qs) }

  lemma {:induction false} InsertKeeps(rs: seq<Rank>, qs: seq<Rank>, x: Rank)
    requires SortedPermutation(rs, qs)
    ensures SortedPermutation(InsertRank(rs, x), qs + [x])
  {
    InsertPermutes(rs, x);
    InsertSorted(rs, x);
  }

  lemma {:induction false} ScoresPush(m: Market, cfg: Config, names: seq<Symbol>, i: int)
    requires 0 <= i < |m.common| && Runnable(cfg) && names != []
    ensures var n := |names| - 1;
            Scores(m, cfg, names, i)
            == Scores(m, cfg, names[..n], i) + [Rank(names[n], Momentum(m, cfg, names[n], i))]
  {
  }

  lemma {:induction false} RankedIsSortedPermutation(m: Market, cfg: Config, names: seq<Symbol>, i: int)
    requires 0 <= i < |m.common| && Runnable(cfg)
    ensures SortedPermutation(Ranked(m, cfg, names, i), Scores(m, cfg, names, i))
  {
    if names != [] {
      var n := |names| - 1;
      var x := Rank(names[n], Momentum(m, cfg, names[n], i));
      RankedIsSortedPermutation(m, cfg, names[..n], i);
      InsertKeeps(Ranked(m, cfg, names[..n], i), Scores(m, cfg, names[..n], i), x);
      ScoresPush(m, cfg, names, i);
    }
  }

  ghost predicate DistinctNames(rs: seq<Rank>) {
    forall a, b :: 0 <= a < b < |rs| ==> rs[a].name != rs[b].name
  }

  /** A permutation of ranks with pairwise different names has pairwise different names. */
  lemma {:induction false} PermutationDistinct(rs: seq<Rank>, qs: seq<Rank>)
    requires multiset(rs) == multiset(qs) && DistinctNames(qs)
    ensures DistinctNames(rs)
  {
    forall a, b | 0 <= a < b < |rs| ensures rs[a].name != rs[b].name {
      if rs[a].name == rs[b].name {
        assert rs[a] in multiset(qs) && rs[b] in multiset(qs);
        var p :| 0 <= p < |qs| && qs[p] == rs[a];
        var q :| 0 <= q < |qs| && qs[q] == rs[b];
        assert p == q;
        TwiceCounted(rs, a, b);
        OnceCounted(qs, p);
        assert false;
      }
    }
  }

  lemma {:induction false} TwiceCounted(rs: seq<Rank>, a: int, b: int)
    requires 0 <= a < b < |rs| && rs[a] == rs[b]
    ensures multiset(rs)[rs[a]] >= 2
  {
    assert rs == rs[..b] + [rs[b]] + rs[b + 1..];
    assert rs[..b][a] in multiset(rs[..b]);
  }

  lemma {:induction false} OnceCounted(qs: seq<Rank>, p: int)
    requires 0 <= p < |qs| && DistinctNames(qs)
    ensures multiset(qs)[qs[p]] == 1
  {
    assert qs == qs[..p] + [qs[p]] + qs[p + 1..];
    assert qs[p] !in qs[..p] && qs[p] !in qs[p + 1..];
  }

  ghost predicate Listed(rs: seq<Rank>, s: Symbol) {
    exists j :: 0 <= j < |rs| && rs[j].name == s && IsPositive(rs[j])
  }

  lemma {:induction false} ListedPush(rs: seq<Rank>, r: Rank, s: Symbol)
    ensures Listed(rs + [r], s) <==> Listed(rs, s) || (r.name == s && IsPositive(r))
  {
    if j :| 0 <= j < |rs| && rs[j].name == s && IsPositive(rs[j]) { assert (rs + [r])[j] == rs[j]; }
    if r.name == s && IsPositive(r) { assert (rs + [r])[|rs|] == r; }
  }

  lemma {:induction false} PositiveNamesAreListed(rs: seq<Rank>)
    ensures |PositiveNames(rs)| <= |rs|
    ensures forall s :: s in PositiveNames(rs) <==> Listed(rs, s)
  {
    if rs != [] {
      var n := |rs| - 1;
      PositiveNamesAreListed(rs[..n]);
      assert rs == rs[..n] + [rs[n]];
      forall s ensures s in PositiveNames(rs) <==> Listed(rs, s) {
        ListedPush(rs[..n], rs[n], s);
      }
    }
  }

  lemma {:induction false} PositiveIsListed(rs: seq<Rank>, j: nat)
    requires j < |rs| && IsPositive(rs[j])
    ensures rs[j].name in PositiveNames(rs)
  {
    PositiveNamesAreListed(rs);
  }

  lemma {:induction false} PositiveNamesAreDistinct(rs: seq<Rank>)
    requires DistinctNames(rs)
    ensures Distinct(PositiveNames(rs))
  {
    if rs != [] {
      var n := |rs| - 1;
      PositiveNamesAreDistinct(rs[..n]);
      PositiveNamesAreListed(rs[..n]);
      assert !Listed(rs[..n], rs[n].name);
    }
  }

  lemma {:induction false} AllPositiveNames(rs: seq<Rank>)
    requires forall j :: 0 <= j < |rs| ==> IsPositive(rs[j])
    ensures |PositiveNames(rs)| == |rs|
  {
    if rs != [] { AllPositiveNames(rs[..|rs| - 1]); }
  }

  /** What taking the positive names of the first k of a permutation keeps. */
  lemma {:induction false} TopNames(rs: seq<Rank>, qs: seq<Rank>, k: int)
    requires multiset(rs) == multiset(qs) && DistinctNames(qs)
    ensures Distinct(PositiveNames(SliceTo(rs, k)))
    ensures forall s :: s in PositiveNames(SliceTo(rs, k)) ==> Listed(qs, s)
  {
    var top := SliceTo(rs, k);
    PermutationDistinct(rs, qs);
    PositiveNamesAreDistinct(top);
    PositiveNamesAreListed(top);
    forall s | s in PositiveNames(top) ensures Listed(qs, s) {
      var j :| 0 <= j < |top| && top[j].name == s && IsPositive(top[j]);
      assert top[j] == rs[j] && rs[j] in multiset(qs);
    }
  }

  /** The rebalance holds distinct universe members, each with positive momentum. */
  lemma {:induction false} SelectIsDistinct(m: Market, cfg: Config, i: int)
    requires 0 <= i < |m.common| && Runnable(cfg) && Distinct(m.symbols)
    ensures Distinct(Select(m, cfg, i))
    ensures forall s :: s in Select(m, cfg, i) ==>
      s in m.symbols && Momentum(m, cfg, s, i).Some? && Momentum(m, cfg, s, i).value > 0.0
  {
    var rs, qs := Ranked(m, cfg, m.symbols, i), Scores(m, cfg, m.symbols, i);
    RankedIsSortedPermutation(m, cfg, m.symbols, i);
    TopNames(rs, qs, cfg.topN);
    forall s | s in Select(m, cfg, i)
      ensures s in m.symbols && Momentum(m, cfg, s, i).Some? && Momentum(m, cfg, s, i).value > 0.0
    {
      assert Listed(qs, s);
    }
  }

  /** How many of n ranked names `ranked[:topN]` keeps, when it leaves some out. */
  function Places(n: nat, topN: int): int { if topN >= 0 then topN else MaxInt(0, n + topN) }

  /** In a sorted list, a positive entry left out by a slice is beaten by all that the slice keeps. */
  lemma {:induction false} LeftOutIsBeaten(rs: seq<Rank>, k: int, j: int, h: int)
    requires Sorted(rs) && DistinctNames(rs)
    requires 0 <= j < |rs| && IsPositive(rs[j])
    requires rs[j].name !in PositiveNames(SliceTo(rs, k))
    requires 0 <= h < |SliceTo(rs, k)|
    ensures |PositiveNames(SliceTo(rs, k))| == Places(|rs|, k)
    ensures rs[h].score.Some? && rs[h].score.value >= rs[j].score.value
  {
    var top := SliceTo(rs, k);
    if j < |top| { PositiveIsListed(top, j); }
    forall a | 0 <= a < |top| ensures IsPositive(top[a]) && Ahead(rs[a], rs[j]) {}
    AllPositiveNames(top);
    assert Ahead(rs[h], rs[j]);
  }

  /** ... and nothing it leaves out beats anything it holds, unless there was room for both. */
  lemma {:induction false} SelectIsTop(m: Market, cfg: Config, i: int, held: Symbol, out: Symbol)
    requires 0 <= i < |m.common| && Runnable(cfg) && Distinct(m.symbols)
    requires held in Select(m, cfg, i) && out in m.symbols && out !in Select(m, cfg, i)
    requires Momentum(m, cfg, out, i).Some? && Momentum(m, cfg, out, i).value > 0.0
    ensures |Select(m, cfg, i)| == Places(|m.symbols|, cfg.topN)
    ensures Momentum(m, cfg, held, i).Some?
    ensures Momentum(m, cfg, held, i).value >= Momentum(m, cfg, out, i).value
  {
    var rs, qs := Ranked(m, cfg, m.symbols, i), Scores(m, cfg, m.symbols, i);
    RankedIsSortedPermutation(m, cfg, m.symbols, i);
    PermutationDistinct(rs, qs);
    var k :| 0 <= k < |m.symbols| && m.symbols[k] == out;
    TopBeats(rs, qs, cfg.topN, k, held);
  }

  /** The same, about any sorted permutation of a list of scores. */
  lemma {:induction false} TopBeats(rs: seq<Rank>, qs: seq<Rank>, topN: int, k: int, held: Symbol)
    requires multiset(rs) == multiset(qs) && Sorted(rs) && DistinctNames(rs)
    requires 0 <= k < |qs| && IsPositive(qs[k]) && qs[k].name !in PositiveNames(SliceTo(rs, topN))
    requires held in PositiveNames(SliceTo(rs, topN))
    ensures |PositiveNames(SliceTo(rs, topN))| == Places(|qs|, topN)
    ensures exists h :: 0 <= h < |qs| && qs[h].name == held && IsPositive(qs[h])
                        && qs[h].score.value >= qs[k].score.value
  {
    var top := SliceTo(rs, topN);
    PositiveNamesAreListed(top);
    assert |rs| == |multiset(rs)| == |multiset(qs)| == |qs|;
    assert qs[k] in multiset(rs);
    var j :| 0 <= j < |rs| && rs[j] == qs[k];
    var a :| 0 <= a < |top| && top[a].name == held && IsPositive(top[a]);
    LeftOutIsBeaten(rs, topN, j, a);
    assert rs[a] in multiset(qs);
    var h :| 0 <= h < |qs| && qs[h] == rs[a];
  }

  // ---- weights: a probability vector ----

  function TotalWeight(names: seq<Symbol>, w: map<Symbol, real>): real {
    if names == [] then 0.0
    else TotalWeight(names[..|names| - 1], w) + Weight(w, names[|names| - 1])
  }

  lemma {:induction false} TotalUnchanged(names: seq<Symbol>, w: map<Symbol, real>, k: Symbol, v: real)
    requires k !in names
    ensures TotalWeight(names, w[k := v]) == TotalWeight(names, w)
  {
    if names != [] { TotalUnchanged(names[..|names| - 1], w, k, v); }
  }

  lemma {:induction false} TotalExtended(names: seq<Symbol>, w: map<Symbol, real>, k: Symbol, v: real)
    requires Distinct(names) && k in names && k !in w
    ensures TotalWeight(names, w[k := v]) == TotalWeight(names, w) + v
  {
    var n := |names| - 1;
    if names[n] == k {
      TotalUnchanged(names[..n], w, k, v);
    } else {
      TotalExtended(names[..n], w, k, v);
    }
  }

  lemma {:induction false} ZipTotal(symbols: seq<Symbol>, names: seq<Symbol>, ws: seq<real>)
    requires |ws| == |names| && Distinct(symbols) && Distinct(names)
    requires forall s :: s in names ==> s in symbols
    ensures TotalWeight(symbols, Zip(names, ws)) == Sum(ws)
    ensures forall s :: s in Zip(names, ws) <==> s in names
    ensures (forall j :: 0 <= j < |ws| ==> ws[j] >= 0.0) ==>
      forall s :: Weight(Zip(names, ws), s) >= 0.0
  {
    if names == [] {
      EmptyTotal(symbols);
    } else {
      var n := |names| - 1;
      ZipTotal(symbols, names[..n], ws[..n]);
      TotalExtended(symbols, Zip(names[..n], ws[..n]), names[n], ws[n]);
      if forall j :: 0 <= j < |ws| ==> ws[j] >= 0.0 {
        assert forall j :: 0 <= j < n ==> ws[..n][j] >= 0.0;
        forall s ensures Weight(Zip(names, ws), s) >= 0.0 {
          assert Weight(Zip(names[..n], ws[..n]), s) >= 0.0;
        }
      }
    }
  }

  lemma {:induction false} EmptyTotal(symbols: seq<Symbol>)
    ensures TotalWeight(symbols, map[]) == 0.0
  {
    if symbols != [] { EmptyTotal(symbols[..|symbols| - 1]); }
  }

  lemma {:induction false} ConstantSum(s: seq<real>, c: real)
    requires forall j :: 0 <= j < |s| ==> s[j] == c
    ensures Sum(s) == |s| as real * c
  {
    if s != [] {
      ConstantSum(s[..|s| - 1], c);
      assert |s| as real * c == (|s| - 1) as real * c + c;
    }
  }

  lemma {:induction false} InversesPositive(m: Market, cfg: Config, names: seq<Symbol>, i: int)
    requires 0 <= i < |m.common| && Inverses(m, cfg, names, i).Some?
    ensures Positive(Inverses(m, cfg, names, i).value)
    ensures |Inverses(m, cfg, names, i).value| == |names|
  {
    if names != [] { InversesPositive(m, cfg, names[..|names| - 1], i); }
  }

  lemma {:induction false} ScaledTotal(xs: seq<real>, t: real)
    requires t != 0.0
    ensures Sum(Scaled(xs, t)) == Sum(xs) / t
  {
    if xs != [] {
      var n := |xs| - 1;
      ScaledTotal(xs[..n], t);
      assert Scaled(xs, t)[..n] == Scaled(xs[..n], t);
      assert Sum(xs[..n]) / t + xs[n] / t == Sum(xs) / t;
    }
  }

  /** Inverse-vol weighting with two or more positive vols: the cap theorem applies to it. */
  lemma {:induction false} InverseVolIsCapped(inv: seq<real>)
    requires |inv| >= 2 && Positive(inv)
    ensures Sum(inv) > 0.0
    ensures var w, r := Scaled(inv, Sum(inv)), Capped(Scaled(inv, Sum(inv)));
            && |r| == |w| && Sum(w) == 1.0 && Sum(r) == 1.0 && SameOrder(w, r)
            && forall j :: 0 <= j < |r| ==> 0.0 < r[j] <= CAP + TOLERANCE
  {
    UnitShares(inv);
    CappedWeights(Scaled(inv, Sum(inv)));
  }

  lemma {:induction false} UnitShares(inv: seq<real>)
    requires inv != [] && Positive(inv)
    ensures Sum(inv) > 0.0 && Positive(Scaled(inv, Sum(inv))) && Sum(Scaled(inv, Sum(inv))) == 1.0
  {
    var t := Sum(inv);
    SumPositive(inv);
    ScaledTotal(inv, t);
    QuotientIs(t, t, 1.0);
    ScaledPositive(inv, t);
  }

  lemma {:induction false} ScaledPositive(xs: seq<real>, t: real)
    requires Positive(xs) && t > 0.0
    ensures Positive(Scaled(xs, t))
  {
    forall j | 0 <= j < |xs| ensures Scaled(xs, t)[j] > 0.0 { QuotientPositive(xs[j], t); }
  }

  ghost predicate UnitVector(ws: seq<real>, n: nat) { |ws| == n && Sum(ws) == 1.0 && Positive(ws) }

  lemma {:induction false} EqualSharesAreUnit(n: nat)
    requires n > 0
    ensures UnitVector(EqualShares(n), n)
  {
    ConstantSum(EqualShares(n), 1.0 / n as real);
    QuotientPositive(1.0, n as real);
  }

  lemma {:induction false} CappedSharesAreUnit(inv: seq<real>)
    requires inv != [] && Positive(inv)
    ensures Sum(inv) > 0.0 && UnitVector(Capped(Scaled(inv, Sum(inv))), |inv|)
  {
    UnitShares(inv);
    if |inv| >= 2 { InverseVolIsCapped(inv); } else { SoleName(Scaled(inv, Sum(inv))); }
  }

  lemma {:induction false} SharesSumToOne(m: Market, cfg: Config, names: seq<Symbol>, i: int)
    requires 0 <= i < |m.common| && names != []
    ensures var ws := Shares(m, cfg, names, i).0;
            |ws| == |names| && Sum(ws) == 1.0 && Positive(ws)
  {
    EqualSharesAreUnit(|names|);
    if cfg.inverseVol && Inverses(m, cfg, names, i).Some? {
      InversesPositive(m, cfg, names, i);
      CappedSharesAreUnit(Inverses(m, cfg, names, i).value);
    }
  }

  /** A sole holding keeps its full weight: capping it would have nobody to give the rest to. */
  lemma {:induction false} SoleName(w: seq<real>)
    requires |w| == 1 && Sum(w) == 1.0
    ensures Capped(w) == w == [1.0]
  {
    assert Sum(w[..0]) == 0.0 && OverCount(w[..0]) == 0;
  }

  /** What every bar keeps: distinct universe holdings, a full weight vector, scale in [0, 1]. */
  ghost predicate Allocated(symbols: seq<Symbol>, st: State) {
    && Distinct(st.holdings)
    && (forall s :: s in st.holdings ==> s in symbols)
    && (forall s :: Weight(st.weights, s) >= 0.0)
    && TotalWeight(symbols, st.weights) == (if st.holdings == [] then 0.0 else 1.0)
    && TotalWeight(st.holdings, st.weights) == (if st.holdings == [] then 0.0 else 1.0)
    && 0.0 <= st.exposure <= 1.0
  }

  lemma {:induction false} ExposureInUnit(m: Market, cfg: Config, names: seq<Symbol>, i: int)
    requires 0 <= i < |m.common| && 0.0 <= cfg.maxLeverage <= 1.0
    ensures 0.0 <= Exposure(m, cfg, names, i) <= 1.0
  {
    if cfg.volTarget > 0.0 && names != [] {
      var rets := BasketReturns(m, names, MaxInt(1, i - cfg.volWindow + 1), i + 1);
      if |rets| >= 2 {
        var annVol := Std(cfg, rets) * cfg.sqrt(252.0);
        if annVol > 0.0 { QuotientPositive(cfg.volTarget, annVol); }
      }
    }
  }

  lemma {:induction false} RebalanceAllocates(m: Market, cfg: Config, i: int, st: State)
    requires 0 <= i < |m.common| && Runnable(cfg) && Distinct(m.symbols)
    requires 0.0 <= cfg.maxLeverage <= 1.0
    ensures Allocated(m.symbols, Rebalance(m, cfg, i, st))
  {
    var names := Select(m, cfg, i);
    var ws := Shares(m, cfg, names, i).0;
    SelectIsDistinct(m, cfg, i);
    SharesLength(m, cfg, names, i);
    if names != [] { SharesSumToOne(m, cfg, names, i); }
    ZipTotal(m.symbols, names, ws);
    ZipTotal(names, names, ws);
    ExposureInUnit(m, cfg, names, i);
  }

  // ---- costs and returns ----

  lemma {:induction false} TradedBound(symbols: seq<Symbol>, w: map<Symbol, real>, before: map<Symbol, real>)
    requires forall s :: Weight(w, s) >= 0.0
    requires forall s :: Weight(before, s) >= 0.0
    ensures 0.0 <= Traded(symbols, w, before) <= TotalWeight(symbols, w) + TotalWeight(symbols, before)
  {
    if symbols != [] { TradedBound(symbols[..|symbols| - 1], w, before); }
  }

  ghost predicate PositivePrices(m: Market) {
    forall s, d :: s in m.px && d in m.px[s] ==> m.px[s][d] > 0.0
  }

  lemma {:induction false} ReturnAboveMinusOne(m: Market, s: Symbol, k: int)
    requires 1 <= k < |m.common| && PositivePrices(m)
    ensures DayReturn(m, s, k).Some? ==> DayReturn(m, s, k).value > -1.0
  {
    if DayReturn(m, s, k).Some? { QuotientPositive(At(m, s, k), At(m, s, k - 1)); }
  }

  lemma TermBound(w: real, r: real)
    requires w >= 0.0 && r > -1.0
    ensures w * r >= -w && (w > 0.0 ==> w * r > -w)
  {
    assert w * (r + 1.0) >= 0.0;
    if w > 0.0 { assert w * (r + 1.0) > 0.0; }
  }

  lemma {:induction false} ContributionBound(m: Market, w: map<Symbol, real>, s: Symbol, i: int)
    requires 1 <= i < |m.common| && PositivePrices(m) && Weight(w, s) >= 0.0
    ensures Contribution(m, w, s, i) >= -Weight(w, s)
    ensures Weight(w, s) > 0.0 ==> Contribution(m, w, s, i) > -Weight(w, s)
  {
    ReturnAboveMinusOne(m, s, i);
    if DayReturn(m, s, i).Some? { TermBound(Weight(w, s), DayReturn(m, s, i).value); }
  }

  /** A long-only basket can lose at most what it holds, and never quite all of it. */
  lemma {:induction false} WeightedReturnBound(m: Market, names: seq<Symbol>, w: map<Symbol, real>, i: int)
    requires 1 <= i < |m.common| && PositivePrices(m)
    requires forall s :: Weight(w, s) >= 0.0
    ensures WeightedReturn(m, names, w, i) >= -TotalWeight(names, w)
    ensures TotalWeight(names, w) > 0.0 ==> WeightedReturn(m, names, w, i) > -TotalWeight(names, w)
  {
    if names != [] {
      WeightedReturnBound(m, names[..|names| - 1], w, i);
      ContributionBound(m, w, names[|names| - 1], i);
    }
  }

  lemma GrowthPositive(equity: real, exposure: real, ret: real)
    requires equity > 0.0 && 0.0 <= exposure <= 1.0 && ret > -1.0
    ensures Grow(equity, exposure, ret) > 0.0
  {
    if ret < 0.0 {
      MulMono(-ret, exposure, 1.0);
      assert (-ret) * exposure == -(exposure * ret);
    } else {
      assert exposure * ret >= 0.0;
    }
    var growth := 1.0 + exposure * ret;
    assert growth > 0.0;
    assert equity * growth > 0.0;
  }

  lemma CostBelowEquity(equity: real, costPct: real, traded: real)
    requires equity > 0.0 && 0.0 <= costPct < 0.5 && 0.0 <= traded <= 2.0
    ensures 0.0 <= TradeCost(costPct, traded, equity) < equity
  {
    var rate := costPct * traded;
    MulMono(costPct, 0.0, traded);
    MulMono(costPct, traded, 2.0);
    RateOf(rate, equity, rate * equity);
  }

  lemma {:induction false} RateOf(rate: real, equity: real, cost: real)
    requires equity > 0.0 && 0.0 <= rate < 1.0 && cost == rate * equity
    ensures 0.0 <= cost < equity
  {
    MulMono(equity, 0.0, rate);
    MulPositive(1.0 - rate, equity);
    assert (1.0 - rate) * equity == equity - cost;
  }

  // ---- no ruin ----

  ghost predicate Prudent(m: Market, cfg: Config) {
    && Runnable(cfg) && Distinct(m.symbols) && PositivePrices(m)
    && cfg.capital > 0.0 && 0.0 <= cfg.costPct < 0.5 && 0.0 <= cfg.maxLeverage <= 1.0
  }

  /** The notional a rebalance trades, as a fraction of equity. */
  function Turnover(m: Market, cfg: Config, i: int, st: State): real
    requires 0 <= i < |m.common| && Runnable(cfg)
  {
    Traded(m.symbols, Rebalance(m, cfg, i, st).weights, st.weights)
  }

  /** On a rebalance bar at most twice the notional trades, and the weights are a full vector. */
  lemma {:induction false} TurnoverAtMostTwo(m: Market, cfg: Config, i: int, st: State)
    requires Prudent(m, cfg) && 0 <= i < |m.common| && Allocated(m.symbols, st)
    ensures Allocated(m.symbols, Rebalance(m, cfg, i, st))
    ensures 0.0 <= Turnover(m, cfg, i, st) <= 2.0
  {
    RebalanceAllocates(m, cfg, i, st);
    TradedBound(m.symbols, Rebalance(m, cfg, i, st).weights, st.weights);
  }

  /** ... so the cost is smaller than the equity it is charged to: the clamp does not fire. */
  lemma {:induction false} RebalanceSolvent(m: Market, cfg: Config, i: int, st: State)
    requires Prudent(m, cfg) && 0 <= i < |m.common|
    requires Allocated(m.symbols, st) && st.equity > 0.0
    ensures Allocated(m.symbols, Rebalance(m, cfg, i, st))
    ensures Rebalance(m, cfg, i, st).equity
         == st.equity - TradeCost(cfg.costPct, Turnover(m, cfg, i, st), st.equity)
    ensures 0.0 < Rebalance(m, cfg, i, st).equity <= st.equity
  {
    TurnoverAtMostTwo(m, cfg, i, st);
    CostBelowEquity(st.equity, cfg.costPct, Turnover(m, cfg, i, st));
  }

  /** Holding through a bar cannot empty the account, so the bar-end clamp does not fire. */
  lemma {:induction false} HoldingSolvent(m: Market, cfg: Config, i: int, st: State)
    requires Prudent(m, cfg) && 0 <= i < |m.common|
    requires Allocated(m.symbols, st) && st.equity > 0.0
    ensures Earned(m, i, st) > 0.0
  {
    if st.holdings != [] && i > 0 {
      WeightedReturnBound(m, st.holdings, st.weights, i);
      var ret := WeightedReturn(m, st.holdings, st.weights, i);
      assert ret > -1.0;
      GrowthPositive(st.equity, st.exposure, ret);
    }
  }

  lemma {:induction false} StepSolvent(m: Market, cfg: Config, i: int, st: State)
    requires Prudent(m, cfg) && 0 <= i < |m.common|
    requires Allocated(m.symbols, st) && st.equity > 0.0
    ensures var next := Step(m, cfg, i, st);
            && Allocated(m.symbols, next) && next.equity > 0.0
            && next.raw == st.raw + [next.equity]
  {
    if IsRebalance(cfg, i) { RebalanceSolvent(m, cfg, i, st); }
    var held := Positioned(m, cfg, i, st);
    assert held.raw == st.raw;
    HoldingSolvent(m, cfg, i, held);
  }

  ghost predicate Solvent(m: Market, i: int, st: State) {
    && Allocated(m.symbols, st) && st.equity > 0.0
    && |st.raw| == i && forall k :: 0 <= k < i ==> st.raw[k] > 0.0
  }

  lemma {:induction false} SolventStep(m: Market, cfg: Config, i: int, st: State)
    requires Prudent(m, cfg) && 0 <= i < |m.common| && Solvent(m, i, st)
    ensures Solvent(m, i + 1, Step(m, cfg, i, st))
  {
    StepSolvent(m, cfg, i, st);
  }

  /** Equity is strictly positive after every bar, whatever the prices and signals did. */
  lemma {:induction false} NoRuin(m: Market, cfg: Config, i: int)
    requires Prudent(m, cfg) && 0 <= i <= |m.common|
    ensures Allocated(m.symbols, Run(m, cfg, i)) && Run(m, cfg, i).equity > 0.0
    ensures |Run(m, cfg, i).raw| == i
    ensures forall k :: 0 <= k < i ==> Run(m, cfg, i).raw[k] > 0.0
  {
    EmptyTotal(m.symbols);
    forall j, st | 0 <= j < i && Solvent(m, j, st) ensures Solvent(m, j + 1, Step(m, cfg, j, st)) {
      SolventStep(m, cfg, j, st);
    }
    RunKeeps(m, cfg, i, (j, st) => Solvent(m, j, st));
  }
}
