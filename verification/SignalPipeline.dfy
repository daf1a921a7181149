/** Sliding-window signal generation, and no lookahead from bars to ledger. */
module SignalPipeline {
  import opened Common
  import opened SignalEngine

  /** A strategy: any pure function of the window it is shown. */
  type Analyze = seq<Bar> -> Action

  /** A zero or absent `max_lookback` means the whole history; otherwise at least `minBars`. */
  datatype SlideConfig = SlideConfig(minBars: int, maxLookback: Option<int>)

  function MinBars(c: SlideConfig): int { MaxInt(1, c.minBars) }

  function WindowStart(c: SlideConfig, i: int): int {
    match c.maxLookback
    case None => 0
    case Some(raw) => if raw == 0 then 0 else MaxInt(0, i + 1 - MaxInt(raw, MinBars(c)))
  }

  function SignalAt(f: Analyze, c: SlideConfig, s: Symbol, bars: seq<Bar>, i: nat): seq<Signal>
    requires i < |bars|
  {
    if i + 1 < MinBars(c) then []
    else
      var action := f(bars[WindowStart(c, i)..i + 1]);
      if action == Ignore then [] else [Signal(s, action, Some(bars[i].date))]
  }

  /** Signals of bars 0, ..., n - 1. */
  function Signals(f: Analyze, c: SlideConfig, s: Symbol, bars: seq<Bar>, n: nat): seq<Signal>
    requires n <= |bars|
  {
    if n == 0 then [] else Signals(f, c, s, bars, n - 1) + SignalAt(f, c, s, bars, n - 1)
  }

  method Generate(f: Analyze, c: SlideConfig, s: Symbol, bars: seq<Bar>) returns (sigs: seq<Signal>)
    ensures sigs == Signals(f, c, s, bars, |bars|)
  {
    sigs := [];
    for i := 0 to |bars|
      invariant sigs == Signals(f, c, s, bars, i)
    {
      if i + 1 >= MinBars(c) {
        var window := bars[WindowStart(c, i)..i + 1];
        var action := f(window);
        if action != Ignore { sigs := sigs + [Signal(s, action, Some(bars[i].date))]; }
      }
    }
  }

  // ---- what is generated, exactly ----

  /** The window shown at bar i: the whole history up to it, or its last so many bars, at least the minimum. */
  ghost predicate IsWindow(c: SlideConfig, bars: seq<Bar>, i: nat, window: seq<Bar>)
    requires i < |bars|
  {
    var size := if c.maxLookback == None || c.maxLookback == Some(0) then i + 1
                else MaxInt(MaxInt(1, c.minBars), c.maxLookback.value);
    window == bars[MaxInt(0, i + 1 - size)..i + 1]
  }

  /** A signal comes out exactly when the strategy acts on the window of some bar past the warmup, under its date. */
  lemma {:induction false} SignalsExactly(f: Analyze, c: SlideConfig, s: Symbol, bars: seq<Bar>, n: nat, sig: Signal)
    requires n <= |bars|
    ensures sig in Signals(f, c, s, bars, n) <==>
      exists i: nat, window: seq<Bar> :: i < n && Asks(f, c, s, bars, i, window, sig)
  {
    if n > 0 {
      SignalsExactly(f, c, s, bars, n - 1, sig);
      SignalAtExactly(f, c, s, bars, n - 1, sig);
      if i: nat, window: seq<Bar> :| i < n && Asks(f, c, s, bars, i, window, sig) {
        if i < n - 1 { assert Asks(f, c, s, bars, i, window, sig); }
      }
    }
  }

  ghost predicate Asks(f: Analyze, c: SlideConfig, s: Symbol, bars: seq<Bar>, i: nat, window: seq<Bar>, sig: Signal) {
    && i < |bars| && i + 1 >= MaxInt(1, c.minBars) && IsWindow(c, bars, i, window)
    && f(window) != Ignore && sig == Signal(s, f(window), Some(bars[i].date))
  }

  lemma {:induction false} SignalAtExactly(f: Analyze, c: SlideConfig, s: Symbol, bars: seq<Bar>, i: nat, sig: Signal)
    requires i < |bars|
    ensures sig in SignalAt(f, c, s, bars, i) <==> exists window: seq<Bar> :: Asks(f, c, s, bars, i, window, sig)
  {
    var window := bars[WindowStart(c, i)..i + 1];
    assert IsWindow(c, bars, i, window);
    assert forall w: seq<Bar> :: IsWindow(c, bars, i, w) ==> w == window;
    if sig in SignalAt(f, c, s, bars, i) { assert Asks(f, c, s, bars, i, window, sig); }
  }

  // ---- the generator never sees a later bar ----

  lemma {:induction false} SignalsOfPrefix(f: Analyze, c: SlideConfig, s: Symbol, bars: seq<Bar>, n: nat, m: nat)
    requires n <= m <= |bars|
    ensures Signals(f, c, s, bars[..m], n) == Signals(f, c, s, bars, n)
  {
    if n > 0 {
      SignalsOfPrefix(f, c, s, bars, n - 1, m);
      assert bars[..m][WindowStart(c, n - 1)..n] == bars[WindowStart(c, n - 1)..n];
    }
  }

  lemma {:induction false} SignalsGrow(f: Analyze, c: SlideConfig, s: Symbol, bars: seq<Bar>, n: nat, m: nat)
    requires n <= m <= |bars|
    ensures Signals(f, c, s, bars, n) <= Signals(f, c, s, bars, m)
    decreases m
  {
    if n < m { SignalsGrow(f, c, s, bars, n, m - 1); }
  }

  /** Truncating the history truncates the signal list, for every strategy. */
  lemma {:induction false} TruncationGivesPrefix(f: Analyze, c: SlideConfig, s: Symbol, bars: seq<Bar>, m: nat)
    requires m <= |bars|
    ensures Signals(f, c, s, bars[..m], m) <= Signals(f, c, s, bars, |bars|)
  {
    SignalsOfPrefix(f, c, s, bars, m, m);
    SignalsGrow(f, c, s, bars, m, |bars|);
  }

  // ---- the ledger never sees a later bar ----

  ghost predicate Chronological(bars: seq<Bar>) {
    forall a, b :: 0 <= a < b < |bars| ==> bars[a].date < bars[b].date
  }

  lemma {:induction false} InsertBarKeeps(bars: seq<Bar>, b: Bar)
    requires Chronological(bars)
    ensures Chronological(InsertBar(bars, b))
    ensures forall x :: x in InsertBar(bars, b) ==> x in bars || x == b
  {
    if bars != [] {
      var n := |bars| - 1;
      if bars[n].date > b.date {
        InsertBarKeeps(bars[..n], b);
        var r := InsertBar(bars[..n], b);
        forall a | 0 <= a < |r| ensures r[a].date < bars[n].date { assert r[a] in bars[..n] || r[a] == b; }
        forall x | x in InsertBar(bars, b) ensures x in bars || x == b {
          assert x in r || x == bars[n];
        }
      }
    }
  }

  lemma {:induction false} IndexIsChronological(bars: seq<Bar>)
    ensures Chronological(IndexBars(bars))
  {
    if bars != [] {
      IndexIsChronological(bars[..|bars| - 1]);
      InsertBarKeeps(IndexBars(bars[..|bars| - 1]), bars[|bars| - 1]);
    }
  }

  lemma {:induction false} InsertedBarOn(bars: seq<Bar>, b: Bar, d: int)
    requires Chronological(bars)
    ensures BarOn(InsertBar(bars, b), d) == if b.date == d then Some(b) else BarOn(bars, d)
  {
    if bars != [] {
      var n := |bars| - 1;
      if bars[n].date > b.date {
        InsertedBarOn(bars[..n], b, d);
        var r := InsertBar(bars[..n], b);
        assert (r + [bars[n]])[..|r|] == r;
      } else if bars[n].date == b.date {
        assert bars[n := b][..n] == bars[..n];
      } else {
        assert (bars + [b])[..|bars|] == bars;
      }
    }
  }

  /** The last bar of the list with this date. */
  ghost predicate IsLastOn(bars: seq<Bar>, d: int, b: Bar) {
    exists k :: 0 <= k < |bars| && bars[k] == b && b.date == d && forall j :: k < j < |bars| ==> bars[j].date != d
  }

  /** The index has a bar for exactly the dates the list has, and of a repeated date the last one. */
  lemma {:induction false} IndexKeepsLast(bars: seq<Bar>, d: int)
    ensures match BarOn(IndexBars(bars), d)
            case Some(b) => IsLastOn(bars, d, b)
            case None => forall j :: 0 <= j < |bars| ==> bars[j].date != d
  {
    if bars != [] {
      var n := |bars| - 1;
      var init := bars[..n];
      IndexKeepsLast(init, d);
      IndexIsChronological(init);
      InsertedBarOn(IndexBars(init), bars[n], d);
      if bars[n].date == d {
        assert IsLastOn(bars, d, bars[n]);
      } else {
        var found := BarOn(IndexBars(init), d);
        if found.Some? {
          var k :| 0 <= k < n && init[k] == found.value && found.value.date == d
                   && forall j :: k < j < n ==> init[j].date != d;
          assert bars[k] == found.value;
          forall j | k < j < |bars| ensures bars[j].date != d { if j < n { assert bars[j] == init[j]; } }
        } else {
          forall j | 0 <= j < |bars| ensures bars[j].date != d { if j < n { assert bars[j] == init[j]; } }
        }
      }
    }
  }

  lemma {:induction false} IndexOfChronological(bars: seq<Bar>)
    requires Chronological(bars)
    ensures IndexBars(bars) == bars
  {
    if bars != [] {
      var n := |bars| - 1;
      IndexOfChronological(bars[..n]);
      assert bars == bars[..n] + [bars[n]];
    }
  }

  /** Every fill is strictly later than the signal that asked for it, for any input bars. */
  lemma {:induction false} FillIsLater(bars: seq<Bar>, d: int)
    ensures FillAfter(IndexBars(bars), d).Some? ==> FillAfter(IndexBars(bars), d).value.date > d
  {
    IndexIsChronological(bars);
    FillLaterIn(IndexBars(bars), d);
  }

  lemma {:induction false} FillLaterIn(bars: seq<Bar>, d: int)
    requires Chronological(bars)
    ensures FillAfter(bars, d).Some? ==> FillAfter(bars, d).value.date > d
  {
    if |bars| >= 2 && bars[|bars| - 2].date != d { FillLaterIn(bars[..|bars| - 1], d); }
  }

  /** The bars dated up to d. */
  function UpTo(bars: seq<Bar>, d: int): seq<Bar> {
    if bars == [] || bars[|bars| - 1].date <= d then bars else UpTo(bars[..|bars| - 1], d)
  }

  ghost predicate TradesOn(bars: seq<Bar>, d: int) {
    exists k :: 0 <= k < |bars| && bars[k].date == d
  }

  lemma {:induction false} FillFromPast(bars: seq<Bar>, sig: int, d: int)
    requires Chronological(bars) && TradesOn(bars, d) && sig < d
    ensures FillAfter(bars, sig) == FillAfter(UpTo(bars, d), sig)
  {
    var n := |bars| - 1;
    if bars[n].date > d {
      var k :| 0 <= k < |bars| && bars[k].date == d;
      assert bars[..n][k].date == d;
      FillFromPast(bars[..n], sig, d);
      assert bars[n - 1].date >= d;
    }
  }

  /** Two price indexes with the same bars up to d, on which every listed symbol trades on d. */
  ghost predicate SameThrough(a: seq<Series>, b: seq<Series>, d: int) {
    forall s ::
      && Chronological(BarsOf(a, s)) && Chronological(BarsOf(b, s))
      && UpTo(BarsOf(a, s), d) == UpTo(BarsOf(b, s), d)
      && ((BarsOf(a, s) == [] && BarsOf(b, s) == []) || (TradesOn(BarsOf(a, s), d) && TradesOn(BarsOf(b, s), d)))
  }

  ghost predicate DatedBefore(sigs: seq<Signal>, d: int) {
    forall j :: 0 <= j < |sigs| && sigs[j].date.Some? ==> sigs[j].date.value < d
  }

  lemma {:induction false} SameFill(a: seq<Series>, b: seq<Series>, d: int, sig: Signal)
    requires SameThrough(a, b, d) && sig.date.Some? && sig.date.value < d
    ensures FillAfter(BarsOf(a, sig.symbol), sig.date.value) == FillAfter(BarsOf(b, sig.symbol), sig.date.value)
  {
    var x, y := BarsOf(a, sig.symbol), BarsOf(b, sig.symbol);
    assert UpTo(x, d) == UpTo(y, d);
    if x != [] {
      FillFromPast(x, sig.date.value, d);
      FillFromPast(y, sig.date.value, d);
    }
  }

  /** The ledger after the signals dated before d does not depend on bars after d. */
  lemma {:induction false} LedgerIgnoresFuture(
    c: EngineConfig, a: seq<Series>, b: seq<Series>, d: int, start: Book, sigs: seq<Signal>)
    requires SameThrough(a, b, d) && DatedBefore(sigs, d) && Sound(start.open)
    ensures ApplyAll(c, a, start, sigs) == ApplyAll(c, b, start, sigs)
  {
    if sigs != [] {
      var n := |sigs| - 1;
      LedgerIgnoresFuture(c, a, b, d, start, sigs[..n]);
      if sigs[n].date.Some? { SameFill(a, b, d, sigs[n]); }
    }
  }

  lemma {:induction false} NoFillAtOrAfter(bars: seq<Bar>, d: int)
    requires forall k :: 0 <= k < |bars| ==> bars[k].date <= d
    requires Chronological(bars)
    ensures FillAfter(bars, d).None?
  {
    if |bars| >= 2 { NoFillAtOrAfter(bars[..|bars| - 1], d); }
  }
}

/** The whole backtest of a window: every symbol's signals, sorted together, through one ledger. */
module BatchPipeline {
  import opened Common
  import opened SignalEngine
  import opened EngineProofs
  import opened SignalPipeline

  /** The strategy as configured for each symbol. */
  type Strategy = Symbol -> Analyze

  function GenerateAll(f: Strategy, sc: SlideConfig, prices: seq<Series>): seq<Signal> {
    if prices == [] then []
    else
      var last := prices[|prices| - 1];
      GenerateAll(f, sc, prices[..|prices| - 1]) + Signals(f(last.symbol), sc, last.symbol, last.bars, |last.bars|)
  }

  method BacktestWindow(f: Strategy, sc: SlideConfig, c: EngineConfig, prices: seq<Series>)
    returns (out: Option<Outcome>)
    ensures out == Backtest(c, prices, GenerateAll(f, sc, prices))
  {
    var all: seq<Signal> := [];
    for j := 0 to |prices|
      invariant all == GenerateAll(f, sc, prices[..j])
    {
      assert prices[..j + 1][..j] == prices[..j];
      var sigs := Generate(f(prices[j].symbol), sc, prices[j].symbol, prices[j].bars);
      all := all + sigs;
    }
    assert prices[..|prices|] == prices;
    out := RunBacktest(c, prices, all);
  }

  // ---- signals before a date, and the rest ----

  predicate IsEarly(s: Signal, d: int) { s.date.None? || s.date.value < d }

  function Early(sigs: seq<Signal>, d: int): seq<Signal> {
    if sigs == [] then []
    else
      var last := sigs[|sigs| - 1];
      Early(sigs[..|sigs| - 1], d) + if IsEarly(last, d) then [last] else []
  }

  function Late(sigs: seq<Signal>, d: int): seq<Signal> {
    if sigs == [] then []
    else
      var last := sigs[|sigs| - 1];
      Late(sigs[..|sigs| - 1], d) + if IsEarly(last, d) then [] else [last]
  }

  lemma {:induction false} EarlyPush(a: seq<Signal>, s: Signal, d: int)
    ensures Early(a + [s], d) == if IsEarly(s, d) then Early(a, d) + [s] else Early(a, d)
    ensures Late(a + [s], d) == if IsEarly(s, d) then Late(a, d) else Late(a, d) + [s]
  {
    assert (a + [s])[..|a|] == a;
  }

  lemma {:induction false} EarlyConcat(a: seq<Signal>, b: seq<Signal>, d: int)
    ensures Early(a + b, d) == Early(a, d) + Early(b, d)
    ensures Late(a + b, d) == Late(a, d) + Late(b, d)
  {
    if b == [] {
      assert a + b == a;
    } else {
      var init, x := b[..|b| - 1], b[|b| - 1];
      assert a + b == (a + init) + [x];
      EarlyConcat(a, init, d);
      EarlyPush(a + init, x, d);
    }
  }

  lemma {:induction false} EarlyMembers(sigs: seq<Signal>, d: int)
    ensures forall x :: x in Early(sigs, d) ==> x in sigs && IsEarly(x, d)
    ensures forall x :: x in Late(sigs, d) ==> x in sigs && !IsEarly(x, d)
  {
    if sigs != [] { EarlyMembers(sigs[..|sigs| - 1], d); }
  }

  lemma {:induction false} AllEarly(sigs: seq<Signal>, d: int)
    requires forall j :: 0 <= j < |sigs| ==> IsEarly(sigs[j], d)
    ensures Early(sigs, d) == sigs && Late(sigs, d) == []
  {
    if sigs != [] {
      AllEarly(sigs[..|sigs| - 1], d);
      assert sigs == sigs[..|sigs| - 1] + [sigs[|sigs| - 1]];
    }
  }

  lemma {:induction false} NoneEarly(sigs: seq<Signal>, d: int)
    requires forall j :: 0 <= j < |sigs| ==> !IsEarly(sigs[j], d)
    ensures Early(sigs, d) == []
  {
    if sigs != [] { NoneEarly(sigs[..|sigs| - 1], d); }
  }

  // ---- the sort puts the early signals first ----

  lemma {:induction false} InsertInFront(a: seq<Signal>, b: seq<Signal>, s: Signal)
    requires forall j :: 0 <= j < |b| ==> !NoLater(b[j], s)
    ensures InsertSignal(a + b, s) == InsertSignal(a, s) + b
  {
    if b == [] {
      assert a + b == a;
    } else {
      var init, last := b[..|b| - 1], b[|b| - 1];
      assert a + b == (a + init) + [last] && (a + b)[..|a + b| - 1] == a + init;
      InsertInFront(a, init, s);
    }
  }

  lemma {:induction false} InsertBehind(a: seq<Signal>, b: seq<Signal>, s: Signal)
    requires forall j :: 0 <= j < |a| ==> NoLater(a[j], s)
    ensures InsertSignal(a + b, s) == a + InsertSignal(b, s)
  {
    if b == [] {
      assert a + b == a;
    } else {
      var init, last := b[..|b| - 1], b[|b| - 1];
      assert a + b == (a + init) + [last] && (a + b)[..|a + b| - 1] == a + init;
      if !NoLater(last, s) { InsertBehind(a, init, s); }
    }
  }

  ghost predicate AreEarly(sigs: seq<Signal>, d: int) { forall j :: 0 <= j < |sigs| ==> IsEarly(sigs[j], d) }

  ghost predicate AreLate(sigs: seq<Signal>, d: int) { forall j :: 0 <= j < |sigs| ==> !IsEarly(sigs[j], d) }

  lemma {:induction false} SortedParts(sigs: seq<Signal>, d: int)
    ensures AreEarly(SortSignals(Early(sigs, d)), d) && AreLate(SortSignals(Late(sigs, d)), d)
  {
    EarlyMembers(sigs, d);
    SameMembers(Early(sigs, d));
    SameMembers(Late(sigs, d));
  }

  lemma {:induction false} SameMembers(sigs: seq<Signal>)
    ensures forall j :: 0 <= j < |SortSignals(sigs)| ==> SortSignals(sigs)[j] in sigs
  {
    SortIsPermutation(sigs);
    forall j | 0 <= j < |SortSignals(sigs)| ensures SortSignals(sigs)[j] in sigs {
      assert SortSignals(sigs)[j] in multiset(sigs);
    }
  }

  lemma {:induction false} InsertInParts(a: seq<Signal>, b: seq<Signal>, s: Signal, d: int)
    requires AreEarly(a, d) && AreLate(b, d)
    ensures InsertSignal(a + b, s) == if IsEarly(s, d) then InsertSignal(a, s) + b else a + InsertSignal(b, s)
  {
    if IsEarly(s, d) { InsertInFront(a, b, s); } else { InsertBehind(a, b, s); }
  }

  ghost predicate Splits(sigs: seq<Signal>, d: int) {
    SortSignals(sigs) == SortSignals(Early(sigs, d)) + SortSignals(Late(sigs, d))
  }

  lemma {:induction false} PartsPush(sigs: seq<Signal>, s: Signal, d: int)
    ensures SortSignals(Early(sigs + [s], d))
         == if IsEarly(s, d) then InsertSignal(SortSignals(Early(sigs, d)), s) else SortSignals(Early(sigs, d))
    ensures SortSignals(Late(sigs + [s], d))
         == if IsEarly(s, d) then SortSignals(Late(sigs, d)) else InsertSignal(SortSignals(Late(sigs, d)), s)
  {
    EarlyPush(sigs, s, d);
    SortPush(Early(sigs, d), s);
    SortPush(Late(sigs, d), s);
  }

  lemma {:induction false} SplitsPush(sigs: seq<Signal>, s: Signal, d: int)
    requires Splits(sigs, d)
    ensures Splits(sigs + [s], d)
  {
    var a, b := SortSignals(Early(sigs, d)), SortSignals(Late(sigs, d));
    calc {
      SortSignals(sigs + [s]);
      { SortPush(sigs, s); }
      InsertSignal(SortSignals(sigs), s);
      InsertSignal(a + b, s);
      { SortedParts(sigs, d); InsertInParts(a, b, s, d); }
      if IsEarly(s, d) then InsertSignal(a, s) + b else a + InsertSignal(b, s);
      { PartsPush(sigs, s, d); }
      SortSignals(Early(sigs + [s], d)) + SortSignals(Late(sigs + [s], d));
    }
  }

  /** The sorted list is the sorted early signals followed by the sorted late ones. */
  lemma {:induction false} SortSplits(sigs: seq<Signal>, d: int)
    ensures Splits(sigs, d)
  {
    forall t: seq<Signal>, x | Splits(t, d) ensures Splits(t + [x], d) { SplitsPush(t, x, d); }
    HoldsOfAll((t: seq<Signal>) => Splits(t, d), sigs);
  }

  lemma {:induction false} SortPush(sigs: seq<Signal>, s: Signal)
    ensures SortSignals(sigs + [s]) == InsertSignal(SortSignals(sigs), s)
  {
    assert (sigs + [s])[..|sigs|] == sigs;
  }

  // ---- a universe cut at a date on which every symbol trades ----

  ghost predicate TradesThrough(bars: seq<Bar>, d: int) {
    Chronological(bars) && (bars == [] || TradesOn(bars, d))
  }

  ghost predicate AllTrade(prices: seq<Series>, d: int) {
    forall j :: 0 <= j < |prices| ==> TradesThrough(prices[j].bars, d)
  }

  function Cut(prices: seq<Series>, d: int): seq<Series> {
    if prices == [] then []
    else
      var last := prices[|prices| - 1];
      Cut(prices[..|prices| - 1], d) + [Series(last.symbol, UpTo(last.bars, d))]
  }

  /** What is cut off is later than d, what is left is not. */
  lemma {:induction false} UpToCuts(bars: seq<Bar>, d: int)
    requires Chronological(bars)
    ensures var n := |UpTo(bars, d)|;
            && n <= |bars| && UpTo(bars, d) == bars[..n]
            && (forall k :: 0 <= k < n ==> bars[k].date <= d)
            && forall k :: n <= k < |bars| ==> bars[k].date > d
  {
    if bars != [] && bars[|bars| - 1].date > d { UpToCuts(bars[..|bars| - 1], d); }
  }

  /** What is left ends on d itself. */
  lemma {:induction false} UpToEnds(bars: seq<Bar>, d: int)
    requires Chronological(bars) && TradesOn(bars, d)
    ensures var p := UpTo(bars, d);
            && p <= bars && p != [] && p[|p| - 1].date == d && Chronological(p)
            && UpTo(p, d) == p && TradesOn(p, d)
    ensures forall k :: |UpTo(bars, d)| <= k < |bars| ==> bars[k].date > d
  {
    UpToCuts(bars, d);
    var k :| 0 <= k < |bars| && bars[k].date == d;
    var p := UpTo(bars, d);
    assert k < |p| && p[k].date == d;
    assert bars[|p| - 1].date <= d == bars[k].date;
  }

  lemma {:induction false} SignalIsOfItsBar(f: Analyze, sc: SlideConfig, s: Symbol, bars: seq<Bar>, i: nat)
    requires i < |bars|
    ensures |SignalAt(f, sc, s, bars, i)| <= 1 && AllOn(SignalAt(f, sc, s, bars, i), bars[i].date)
  {
  }

  ghost predicate AllOn(sigs: seq<Signal>, day: int) { forall x :: x in sigs ==> x.date == Some(day) }

  /** The list made of the parts 0, ..., n - 1. */
  function Joined(part: nat -> seq<Signal>, n: nat): seq<Signal> {
    if n == 0 then [] else Joined(part, n - 1) + part(n - 1)
  }

  function PartOf(f: Analyze, sc: SlideConfig, s: Symbol, bars: seq<Bar>): nat -> seq<Signal> {
    (i: nat) => if i < |bars| then SignalAt(f, sc, s, bars, i) else []
  }

  lemma {:induction false} SignalsAreJoined(f: Analyze, sc: SlideConfig, s: Symbol, bars: seq<Bar>, n: nat)
    requires n <= |bars|
    ensures Signals(f, sc, s, bars, n) == Joined(PartOf(f, sc, s, bars), n)
  {
    if n > 0 { SignalsAreJoined(f, sc, s, bars, n - 1); }
  }

  /** Parts dated before d all stay, parts dated from d on all go. */
  lemma {:induction false} EarlyOfJoined(part: nat -> seq<Signal>, day: nat -> int, d: int, m: nat, n: nat)
    requires m <= n && forall i: nat :: i < n ==> AllOn(part(i), day(i))
    requires (forall i: nat :: i < m ==> day(i) < d) && forall i: nat :: m <= i < n ==> day(i) >= d
    ensures Early(Joined(part, n), d) == Joined(part, m)
    decreases n
  {
    if n > 0 {
      EarlyOfJoined(part, day, d, if m < n then m else n - 1, n - 1);
      OneMoreDay(Joined(part, n - 1), part(n - 1), day(n - 1), d);
    }
  }

  /** The early signals of a symbol with a bar on d are those of the bars before it. */
  lemma {:induction false} EarlyOfSymbol(f: Analyze, sc: SlideConfig, s: Symbol, bars: seq<Bar>, d: int, k: nat)
    requires Chronological(bars) && 1 <= k <= |bars| && bars[k - 1].date == d
    ensures Early(Signals(f, sc, s, bars, |bars|), d) == Signals(f, sc, s, bars, k - 1)
  {
    SignalsAreJoined(f, sc, s, bars, |bars|);
    SignalsAreJoined(f, sc, s, bars, k - 1);
    var part, day := PartOf(f, sc, s, bars), DayOf(bars);
    forall i: nat | i < |bars| ensures AllOn(part(i), day(i)) { SignalIsOfItsBar(f, sc, s, bars, i); }
    EarlyOfJoined(part, day, d, k - 1, |bars|);
  }

  function DayOf(bars: seq<Bar>): nat -> int { (i: nat) => if i < |bars| then bars[i].date else 0 }

  lemma {:induction false} OneDay(sigs: seq<Signal>, day: int, d: int)
    requires AllOn(sigs, day)
    ensures Early(sigs, d) == if day < d then sigs else []
    ensures day < d ==> Late(sigs, d) == []
  {
    if day < d { AllEarly(sigs, d); } else { NoneEarly(sigs, d); }
  }

  lemma {:induction false} OneMoreDay(before: seq<Signal>, at: seq<Signal>, day: int, d: int)
    requires AllOn(at, day)
    ensures Early(before + at, d) == Early(before, d) + (if day < d then at else [])
    ensures day <= d && AllOn(Late(before, d), d) ==> AllOn(Late(before + at, d), d)
  {
    EarlyConcat(before, at, d);
    OneDay(at, day, d);
    EarlyMembers(at, d);
  }

  lemma {:induction false} LateOfSymbol(f: Analyze, sc: SlideConfig, s: Symbol, bars: seq<Bar>, d: int, n: nat)
    requires n <= |bars| && forall k :: 0 <= k < n ==> bars[k].date <= d
    ensures AllOn(Late(Signals(f, sc, s, bars, n), d), d)
  {
    if n > 0 {
      var at := SignalAt(f, sc, s, bars, n - 1);
      LateOfSymbol(f, sc, s, bars, d, n - 1);
      SignalIsOfItsBar(f, sc, s, bars, n - 1);
      OneMoreDay(Signals(f, sc, s, bars, n - 1), at, bars[n - 1].date, d);
    }
  }

  lemma {:induction false} SharedSignals(
    f: Analyze, sc: SlideConfig, s: Symbol, bars: seq<Bar>, p: seq<Bar>, n: nat)
    requires p <= bars && n <= |p|
    ensures Signals(f, sc, s, p, n) == Signals(f, sc, s, bars, n)
  {
    assert p == bars[..|p|];
    SignalsOfPrefix(f, sc, s, bars, n, |p|);
  }

  /** Cutting a symbol's bars after d keeps its early signals. */
  lemma {:induction false} CutKeepsEarly(
    f: Analyze, sc: SlideConfig, s: Symbol, bars: seq<Bar>, p: seq<Bar>, d: int)
    requires p <= bars && Chronological(bars) && Chronological(p) && p != [] && p[|p| - 1].date == d
    ensures Early(Signals(f, sc, s, p, |p|), d) == Early(Signals(f, sc, s, bars, |bars|), d)
  {
    calc {
      Early(Signals(f, sc, s, p, |p|), d);
      { EarlyOfSymbol(f, sc, s, p, d, |p|); }
      Signals(f, sc, s, p, |p| - 1);
      { SharedSignals(f, sc, s, bars, p, |p| - 1); }
      Signals(f, sc, s, bars, |p| - 1);
      { EarlyOfSymbol(f, sc, s, bars, d, |p|); }
      Early(Signals(f, sc, s, bars, |bars|), d);
    }
  }

  /** One symbol: cutting its bars keeps its early signals, and what else is left is dated d. */
  lemma {:induction false} CutSymbol(f: Analyze, sc: SlideConfig, s: Symbol, bars: seq<Bar>, d: int)
    requires TradesThrough(bars, d)
    ensures var p := UpTo(bars, d);
            var now := Signals(f, sc, s, p, |p|);
            && Early(now, d) == Early(Signals(f, sc, s, bars, |bars|), d)
            && AllOn(Late(now, d), d)
  {
    if bars != [] {
      UpToEnds(bars, d);
      UpToCuts(bars, d);
      CutKeepsEarly(f, sc, s, bars, UpTo(bars, d), d);
      LateOfSymbol(f, sc, s, UpTo(bars, d), d, |UpTo(bars, d)|);
    }
  }

  lemma {:induction false} CutUniverse(f: Strategy, sc: SlideConfig, prices: seq<Series>, d: int)
    requires AllTrade(prices, d)
    ensures var now := GenerateAll(f, sc, Cut(prices, d));
            && Early(now, d) == Early(GenerateAll(f, sc, prices), d)
            && AllOn(Late(now, d), d)
  {
    if prices != [] {
      var init, last := prices[..|prices| - 1], prices[|prices| - 1];
      var g, p := f(last.symbol), UpTo(last.bars, d);
      CutUniverse(f, sc, init, d);
      CutSymbol(g, sc, last.symbol, last.bars, d);
      EarlyConcat(GenerateAll(f, sc, init), Signals(g, sc, last.symbol, last.bars, |last.bars|), d);
      EarlyConcat(GenerateAll(f, sc, Cut(init, d)), Signals(g, sc, last.symbol, p, |p|), d);
      GeneratePush(f, sc, Cut(init, d), Series(last.symbol, p));
    }
  }

  lemma {:induction false} GeneratePush(f: Strategy, sc: SlideConfig, prices: seq<Series>, x: Series)
    ensures GenerateAll(f, sc, prices + [x])
         == GenerateAll(f, sc, prices) + Signals(f(x.symbol), sc, x.symbol, x.bars, |x.bars|)
  {
    assert (prices + [x])[..|prices|] == prices;
  }

  // ---- what the cut universe's index holds ----

  lemma {:induction false} IndexPush(prices: seq<Series>, x: Series)
    ensures Index(prices + [x]) == Index(prices) + [Series(x.symbol, IndexBars(x.bars))]
  {
  }

  lemma {:induction false} BarsOfPush(index: seq<Series>, x: Series, s: Symbol)
    ensures BarsOf(index + [x], s) == if x.symbol == s then x.bars else BarsOf(index, s)
  {
    assert (index + [x])[..|index|] == index;
  }

  lemma {:induction false} IndexedBars(prices: seq<Series>, d: int, s: Symbol)
    requires AllTrade(prices, d)
    ensures var bars := BarsOf(Index(prices), s);
            TradesThrough(bars, d) && BarsOf(Index(Cut(prices, d)), s) == UpTo(bars, d)
  {
    if prices != [] {
      var init, last := prices[..|prices| - 1], prices[|prices| - 1];
      var p := UpTo(last.bars, d);
      IndexedBars(init, d, s);
      assert prices == init + [last];
      IndexPush(init, last);
      IndexPush(Cut(init, d), Series(last.symbol, p));
      if last.bars != [] { UpToEnds(last.bars, d); }
      IndexOfChronological(last.bars);
      IndexOfChronological(p);
      BarsOfPush(Index(init), last, s);
      BarsOfPush(Index(Cut(init, d)), Series(last.symbol, p), s);
    }
  }

  lemma {:induction false} CutIsSameThrough(prices: seq<Series>, d: int)
    requires AllTrade(prices, d)
    ensures SameThrough(Index(Cut(prices, d)), Index(prices), d)
    ensures EndsBy(Index(Cut(prices, d)), d)
  {
    forall s
      ensures var a, b := BarsOf(Index(Cut(prices, d)), s), BarsOf(Index(prices), s);
              && Chronological(a) && Chronological(b) && UpTo(a, d) == UpTo(b, d)
              && ((a == [] && b == []) || (TradesOn(a, d) && TradesOn(b, d))) && BarsEndBy(a, d)
    {
      IndexedBars(prices, d, s);
      if BarsOf(Index(prices), s) != [] { UpToEnds(BarsOf(Index(prices), s), d); }
    }
  }

  ghost predicate BarsEndBy(bars: seq<Bar>, d: int) {
    Chronological(bars) && forall k :: 0 <= k < |bars| ==> bars[k].date <= d
  }

  ghost predicate EndsBy(index: seq<Series>, d: int) { forall s :: BarsEndBy(BarsOf(index, s), d) }

  lemma {:induction false} NoFillBy(index: seq<Series>, s: Symbol, d: int)
    requires EndsBy(index, d)
    ensures FillAfter(BarsOf(index, s), d).None?
  {
    assert BarsEndBy(BarsOf(index, s), d);
    NoFillAtOrAfter(BarsOf(index, s), d);
  }

  ghost predicate Idle(
    c: EngineConfig, index: seq<Series>, start: Book, early: seq<Signal>, late: seq<Signal>, d: int)
    requires Sound(start.open)
  {
    AllOn(late, d) ==> ApplyAll(c, index, start, early + late) == ApplyAll(c, index, start, early)
  }

  lemma {:induction false} IdleGrows(
    c: EngineConfig, index: seq<Series>, start: Book, early: seq<Signal>, late: seq<Signal>, x: Signal, d: int)
    requires Sound(start.open) && EndsBy(index, d) && Idle(c, index, start, early, late, d)
    ensures Idle(c, index, start, early, late + [x], d)
  {
    if AllOn(late + [x], d) {
      assert x in late + [x] && forall y :: y in late ==> y in late + [x];
      NoFillBy(index, x.symbol, d);
      IdlePush(c, index, start, early + late, x);
      assert early + (late + [x]) == (early + late) + [x];
    }
  }

  /** Signals dated on the last day cannot be filled, so they change nothing. */
  lemma {:induction false} LastDayIsIdle(
    c: EngineConfig, index: seq<Series>, start: Book, early: seq<Signal>, late: seq<Signal>, d: int)
    requires Sound(start.open) && EndsBy(index, d)
    ensures Idle(c, index, start, early, late, d)
  {
    assert early + [] == early;
    forall t: seq<Signal>, x | Idle(c, index, start, early, t, d) ensures Idle(c, index, start, early, t + [x], d) {
      IdleGrows(c, index, start, early, t, x, d);
    }
    HoldsOfAll((t: seq<Signal>) => Idle(c, index, start, early, t, d), late);
  }

  lemma {:induction false} IdlePush(
    c: EngineConfig, index: seq<Series>, start: Book, sigs: seq<Signal>, x: Signal)
    requires Sound(start.open)
    requires x.date.Some? ==> FillAfter(BarsOf(index, x.symbol), x.date.value).None?
    ensures ApplyAll(c, index, start, sigs + [x]) == ApplyAll(c, index, start, sigs)
  {
    assert (sigs + [x])[..|sigs|] == sigs;
  }

  /**
   * End to end, for any strategy and any number of symbols: cut every history at a day d on which
   * all symbols trade. What the whole backtest then does - generate, sort, fill - is what the ledger
   * of the full history does with the signals dated before d, and those come first in its order.
   */
  lemma {:induction false} PipelineIgnoresFuture(
    f: Strategy, sc: SlideConfig, c: EngineConfig, prices: seq<Series>, d: int)
    requires AllTrade(prices, d)
    ensures var early := SortSignals(Early(GenerateAll(f, sc, prices), d));
            && early <= SortSignals(GenerateAll(f, sc, prices))
            && ApplyAll(c, Index(Cut(prices, d)), Start(c), SortSignals(GenerateAll(f, sc, Cut(prices, d))))
            == ApplyAll(c, Index(prices), Start(c), early)
  {
    var full, now := GenerateAll(f, sc, prices), GenerateAll(f, sc, Cut(prices, d));
    var early, late := SortSignals(Early(full, d)), SortSignals(Late(now, d));
    SortSplits(full, d);
    SortSplits(now, d);
    CutUniverse(f, sc, prices, d);
    SameMembers(Late(now, d));
    CutIsSameThrough(prices, d);
    LastDayIsIdle(c, Index(Cut(prices, d)), Start(c), early, late, d);
    SortedParts(full, d);
    LedgerIgnoresFuture(c, Index(Cut(prices, d)), Index(prices), d, Start(c), early);
  }
}
