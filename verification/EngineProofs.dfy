/** The two ledgers of the signal backtester agree, and neither looks ahead. */
module EngineProofs {
  import opened Common
  import opened SignalEngine

  // ---- sums over the book ----

  function Tied(open: seq<Position>): real {
    if open == [] then 0.0 else Tied(open[..|open| - 1]) + open[|open| - 1].cost
  }

  function RealisedBy(trades: seq<Trade>): real {
    if trades == [] then 0.0 else RealisedBy(trades[..|trades| - 1]) + trades[|trades| - 1].pnl
  }

  function LegTotal(legs: seq<Leg>): real {
    if legs == [] then 0.0 else LegTotal(legs[..|legs| - 1]) + legs[|legs| - 1].pnl
  }

  /** Cash plus what is tied up in positions is the capital plus all realised profit. */
  ghost predicate Balanced(c: EngineConfig, b: Book) {
    && b.equity + Tied(b.open) == c.capital + RealisedBy(b.trades)
    && LegTotal(b.legs) == RealisedBy(b.trades)
  }

  lemma {:induction false} TiedWithout(open: seq<Position>, p: Position)
    requires Find(open, p.symbol) == Some(p)
    ensures Tied(Without(open, p.symbol)) == Tied(open) - p.cost
  {
    var n := |open| - 1;
    if open[n].symbol != p.symbol {
      TiedWithout(open[..n], p);
      assert Without(open, p.symbol)[..|Without(open[..n], p.symbol)|] == Without(open[..n], p.symbol);
    }
  }

  lemma {:induction false} RealiseBooks(
    c: EngineConfig, b: Book, p: Position, price: real, exec: int, record: int, duration: int)
    requires p.cost != 0.0
    ensures var r := Realise(c, b, p, price, exec, record, duration);
            && RealisedBy(r.trades) == RealisedBy(b.trades) + Pnl(c, p, price)
            && LegTotal(r.legs) == LegTotal(b.legs) + Pnl(c, p, price)
            && r.equity == b.equity + p.cost + Pnl(c, p, price) && r.open == b.open
  {
    var r := Realise(c, b, p, price, exec, record, duration);
    assert r.trades[..|b.trades|] == b.trades && r.legs[..|b.legs|] == b.legs;
  }

  lemma {:induction false} CloseBalanced(c: EngineConfig, b: Book, p: Position, price: real, exec: int, record: int)
    requires Balanced(c, b) && Find(b.open, p.symbol) == Some(p) && p.cost != 0.0
    ensures Balanced(c, CloseAt(c, b, p, price, exec, record))
  {
    RealiseBooks(c, b, p, price, exec, record, exec - p.entryDate);
    TiedWithout(b.open, p);
  }

  lemma {:induction false} OpenBalanced(c: EngineConfig, b: Book, s: Symbol, d: Direction, price: real, exec: int)
    requires Balanced(c, b)
    ensures var r := OpenAt(c, b, s, d, price, exec); r.Some? ==> Balanced(c, r.value)
  {
    var r := OpenAt(c, b, s, d, price, exec);
    if r.Some? && r.value != b { assert r.value.open[..|b.open|] == b.open; }
  }

  // ---- what every signal keeps ----

  ghost predicate HasBarOn(index: seq<Series>, s: Symbol, d: int) {
    exists k :: 0 <= k < |BarsOf(index, s)| && BarsOf(index, s)[k].date == d
  }

  /** Positions were filled, so their symbols have bars; legs closed on dates that exist. */
  ghost predicate Anchored(index: seq<Series>, b: Book) {
    && (forall j :: 0 <= j < |b.open| ==> BarsOf(index, b.open[j].symbol) != [])
    && (forall j :: 0 <= j < |b.legs| ==> HasBarOn(index, b.legs[j].symbol, b.legs[j].exitDate))
  }

  lemma {:induction false} FillIsABar(bars: seq<Bar>, d: int)
    ensures FillAfter(bars, d).Some? ==>
      exists k :: 1 <= k < |bars| && bars[k] == FillAfter(bars, d).value && bars[k - 1].date == d
  {
    if |bars| >= 2 && bars[|bars| - 2].date != d {
      FillIsABar(bars[..|bars| - 1], d);
      if FillAfter(bars, d).Some? {
        var k :| 1 <= k < |bars| - 1 && bars[..|bars| - 1][k] == FillAfter(bars, d).value
                 && bars[..|bars| - 1][k - 1].date == d;
        assert bars[k] == FillAfter(bars, d).value && bars[k - 1].date == d;
      }
    }
  }

  lemma {:induction false} CloseKeeps(
    c: EngineConfig, index: seq<Series>, b: Book, p: Position, bar: Bar, record: int)
    requires Sound(b.open) && Balanced(c, b) && Anchored(index, b)
    requires Find(b.open, p.symbol) == Some(p) && p.cost != 0.0 && HasBarOn(index, p.symbol, bar.date)
    ensures var r := CloseAt(c, b, p, bar.open, bar.date, record);
            Balanced(c, r) && Anchored(index, r)
  {
    CloseBalanced(c, b, p, bar.open, bar.date, record);
    WithoutSound(b.open, p.symbol);
    var r := CloseAt(c, b, p, bar.open, bar.date, record);
    forall j | 0 <= j < |r.open| ensures BarsOf(index, r.open[j].symbol) != [] {
      assert r.open[j] in b.open;
    }
  }

  lemma {:induction false} OpenKeeps(
    c: EngineConfig, index: seq<Series>, b: Book, s: Symbol, d: Direction, bar: Bar)
    requires Balanced(c, b) && Anchored(index, b) && BarsOf(index, s) != []
    ensures var r := OpenAt(c, b, s, d, bar.open, bar.date);
            r.Some? ==> Balanced(c, r.value) && Anchored(index, r.value)
  {
    OpenBalanced(c, b, s, d, bar.open, bar.date);
  }

  lemma {:induction false} FillHasBar(index: seq<Series>, s: Symbol, d: int)
    ensures FillAfter(BarsOf(index, s), d).Some? ==>
      BarsOf(index, s) != [] && HasBarOn(index, s, FillAfter(BarsOf(index, s), d).value.date)
  {
    FillIsABar(BarsOf(index, s), d);
  }

  lemma {:induction false} FillKeeps(c: EngineConfig, index: seq<Series>, b: Book, sig: Signal, bar: Bar)
    requires Sound(b.open) && Balanced(c, b) && Anchored(index, b) && sig.date.Some?
    requires BarsOf(index, sig.symbol) != [] && HasBarOn(index, sig.symbol, bar.date)
    ensures var r := Fill(c, b, sig, bar); r.Some? ==> Balanced(c, r.value) && Anchored(index, r.value)
  {
    FindSound(b.open, sig.symbol);
    match Find(b.open, sig.symbol)
    case None =>
      if sig.action.Go? { OpenKeeps(c, index, b, sig.symbol, sig.action.direction, bar); }
    case Some(p) =>
      CloseKeeps(c, index, b, p, bar, sig.date.value);
      if sig.action.Go? { FlipKeeps(c, index, b, p, sig.action.direction, bar, sig.date.value); }
  }

  lemma {:induction false} FlipKeeps(
    c: EngineConfig, index: seq<Series>, b: Book, p: Position, d: Direction, bar: Bar, record: int)
    requires Sound(b.open) && Balanced(c, b) && Anchored(index, b) && BarsOf(index, p.symbol) != []
    requires Find(b.open, p.symbol) == Some(p) && p.cost != 0.0 && HasBarOn(index, p.symbol, bar.date)
    ensures var r := OpenAt(c, CloseAt(c, b, p, bar.open, bar.date, record), p.symbol, d, bar.open, bar.date);
            r.Some? ==> Balanced(c, r.value) && Anchored(index, r.value)
  {
    CloseKeeps(c, index, b, p, bar, record);
    OpenKeeps(c, index, CloseAt(c, b, p, bar.open, bar.date, record), p.symbol, d, bar);
  }

  lemma {:induction false} ApplyKeeps(c: EngineConfig, index: seq<Series>, b: Book, sig: Signal)
    requires Sound(b.open) && Balanced(c, b) && Anchored(index, b)
    ensures var r := Apply(c, index, b, sig); r.Some? ==> Balanced(c, r.value) && Anchored(index, r.value)
  {
    if sig.symbol != "" && sig.date.Some? {
      FillHasBar(index, sig.symbol, sig.date.value);
      match FillAfter(BarsOf(index, sig.symbol), sig.date.value)
      case None =>
      case Some(bar) => FillKeeps(c, index, b, sig, bar);
    }
  }

  /** After any signals that do not raise: the ledger balances and at most max_positions are open. */
  lemma {:induction false} LedgerInvariant(c: EngineConfig, index: seq<Series>, sigs: seq<Signal>)
    requires ApplyAll(c, index, Start(c), sigs).Some?
    ensures var b := ApplyAll(c, index, Start(c), sigs).value;
            && Balanced(c, b) && Anchored(index, b) && Sound(b.open)
            && |b.open| <= MaxInt(0, c.maxPositions)
  {
    if sigs != [] {
      var before := sigs[..|sigs| - 1];
      LedgerInvariant(c, index, before);
      ApplyKeeps(c, index, ApplyAll(c, index, Start(c), before).value, sigs[|sigs| - 1]);
      ApplySound(c, index, ApplyAll(c, index, Start(c), before).value, sigs[|sigs| - 1]);
    }
  }

  // ---- when a run raises ----

  /** Both sizing divisors are non-zero at the price this signal would open at, if it opens anything. */
  ghost predicate Sizable(c: EngineConfig, index: seq<Series>, sig: Signal) {
    sig.action.Go? && sig.symbol != "" && sig.date.Some? ==>
      match FillAfter(BarsOf(index, sig.symbol), sig.date.value)
      case Some(bar) => RiskDivisor(c, bar.open) != 0.0 && CashDivisor(c, bar.open) != 0.0
      case None => true
  }

  /** Only an opening at a price or fee that makes a divisor zero raises; exits and held signals never do. */
  lemma {:induction false} NeverRaises(c: EngineConfig, index: seq<Series>, b: Book, sigs: seq<Signal>)
    requires Sound(b.open) && forall j :: 0 <= j < |sigs| ==> Sizable(c, index, sigs[j])
    ensures ApplyAll(c, index, b, sigs).Some?
  {
    if sigs != [] {
      var n := |sigs| - 1;
      NeverRaises(c, index, b, sigs[..n]);
      StepNeverRaises(c, index, ApplyAll(c, index, b, sigs[..n]).value, sigs[n]);
    }
  }

  lemma {:induction false} StepNeverRaises(c: EngineConfig, index: seq<Series>, b: Book, sig: Signal)
    requires Sound(b.open) && Sizable(c, index, sig)
    ensures Apply(c, index, b, sig).Some?
  {
  }

  // ---- the forced close and the last valuation ----

  lemma {:induction false} SettleRealisesAll(c: EngineConfig, index: seq<Series>, b: Book, open: seq<Position>)
    requires forall j :: 0 <= j < |open| ==> open[j].cost > 0.0 && BarsOf(index, open[j].symbol) != []
    requires Anchored(index, b) && LegTotal(b.legs) == RealisedBy(b.trades)
    ensures var r := Settle(c, index, b, open);
            && r.open == b.open && Anchored(index, r) && LegTotal(r.legs) == RealisedBy(r.trades)
            && r.equity - RealisedBy(r.trades) == b.equity - RealisedBy(b.trades) + Tied(open)
  {
    if open != [] {
      var n := |open| - 1;
      SettleRealisesAll(c, index, b, open[..n]);
      var p := open[n];
      var bars := BarsOf(index, p.symbol);
      RealiseKeeps(c, index, Settle(c, index, b, open[..n]), p, bars[|bars| - 1]);
    }
  }

  lemma {:induction false} RealiseKeeps(c: EngineConfig, index: seq<Series>, b: Book, p: Position, last: Bar)
    requires p.cost != 0.0 && last in BarsOf(index, p.symbol)
    requires Anchored(index, b) && LegTotal(b.legs) == RealisedBy(b.trades)
    ensures var r := Realise(c, b, p, last.close, last.date, last.date, 0);
            && r.open == b.open && Anchored(index, r) && LegTotal(r.legs) == RealisedBy(r.trades)
            && r.equity - RealisedBy(r.trades) == b.equity - RealisedBy(b.trades) + p.cost
  {
    RealiseBooks(c, b, p, last.close, last.date, last.date, 0);
    assert HasBarOn(index, p.symbol, last.date);
  }

  ghost predicate StrictDates(dates: seq<int>) {
    forall a, b :: 0 <= a < b < |dates| ==> dates[a] < dates[b]
  }

  lemma {:induction false} InsertDateKeeps(dates: seq<int>, d: int)
    requires StrictDates(dates)
    ensures StrictDates(InsertDate(dates, d))
    ensures forall x :: x in InsertDate(dates, d) <==> x in dates || x == d
  {
    if dates != [] {
      var n := |dates| - 1;
      assert forall x :: x in dates <==> x in dates[..n] || x == dates[n];
      if dates[n] > d {
        InsertDateKeeps(dates[..n], d);
        var r := InsertDate(dates[..n], d);
        forall a | 0 <= a < |r| ensures r[a] < dates[n] { assert r[a] in dates[..n] || r[a] == d; }
      }
    }
  }

  lemma {:induction false} AddDatesKeeps(dates: seq<int>, bars: seq<Bar>)
    requires StrictDates(dates)
    ensures StrictDates(AddDates(dates, bars))
    ensures forall x :: x in dates ==> x in AddDates(dates, bars)
    ensures forall k :: 0 <= k < |bars| ==> bars[k].date in AddDates(dates, bars)
  {
    if bars != [] {
      AddDatesKeeps(dates, bars[..|bars| - 1]);
      InsertDateKeeps(AddDates(dates, bars[..|bars| - 1]), bars[|bars| - 1].date);
    }
  }

  lemma {:induction false} EveryBarIsOnACurveDate(index: seq<Series>, s: Symbol)
    ensures StrictDates(AllDates(index))
    ensures forall k :: 0 <= k < |BarsOf(index, s)| ==> BarsOf(index, s)[k].date in AllDates(index)
  {
    if index != [] {
      EveryBarIsOnACurveDate(index[..|index| - 1], s);
      AddDatesKeeps(AllDates(index[..|index| - 1]), index[|index| - 1].bars);
    }
  }

  lemma {:induction false} LastDateIsLatest(dates: seq<int>, d: int)
    requires StrictDates(dates) && d in dates
    ensures dates != [] && d <= dates[|dates| - 1]
  {
  }

  lemma {:induction false} ClosedLegsValuation(index: seq<Series>, legs: seq<Leg>, d: int, capital: real)
    requires forall j :: 0 <= j < |legs| ==> legs[j].exitDate <= d
    ensures Valuation(index, legs, d, capital) == capital + LegTotal(legs)
  {
    if legs != [] { ClosedLegsValuation(index, legs[..|legs| - 1], d, capital); }
  }

  lemma {:induction false} LastValuation(index: seq<Series>, b: Book, capital: real)
    requires Anchored(index, b)
    ensures AllDates(index) == [] ==> b.legs == []
    ensures var dates := AllDates(index);
            dates != [] ==>
              Valuation(index, b.legs, dates[|dates| - 1], capital) == capital + LegTotal(b.legs)
  {
    var dates := AllDates(index);
    forall j | 0 <= j < |b.legs| ensures dates != [] && b.legs[j].exitDate <= dates[|dates| - 1] {
      EveryBarIsOnACurveDate(index, b.legs[j].symbol);
      LastDateIsLatest(dates, b.legs[j].exitDate);
    }
    if b.legs != [] {
      EveryBarIsOnACurveDate(index, b.legs[0].symbol);
      LastDateIsLatest(dates, b.legs[0].exitDate);
    }
    if dates != [] { ClosedLegsValuation(index, b.legs, dates[|dates| - 1], capital); }
  }

  lemma {:induction false} FinalBook(c: EngineConfig, index: seq<Series>, sigs: seq<Signal>)
    requires ApplyAll(c, index, Start(c), sigs).Some?
    ensures var traded := ApplyAll(c, index, Start(c), sigs).value;
            var final := Settle(c, index, traded, traded.open);
            && Anchored(index, final) && LegTotal(final.legs) == RealisedBy(final.trades)
            && final.equity == c.capital + RealisedBy(final.trades)
  {
    LedgerInvariant(c, index, sigs);
    var traded := ApplyAll(c, index, Start(c), sigs).value;
    SettleRealisesAll(c, index, traded, traded.open);
  }

  /** The end of a run: cash is the capital plus all profit, and the curve ends on that cash. */
  lemma {:induction false} TwoLedgersAgree(c: EngineConfig, prices: seq<Series>, sigs: seq<Signal>)
    requires Backtest(c, prices, sigs).Some?
    ensures var out := Backtest(c, prices, sigs).value;
            && out.final.equity == c.capital + RealisedBy(out.final.trades)
            && (out.curve == [] ==> out.final.legs == [])
            && (out.curve != [] ==> out.curve[|out.curve| - 1].1 == Max(0.0, out.final.equity))
  {
    var index, sorted := Index(prices), SortSignals(sigs);
    FinalBook(c, index, sorted);
    CurveEndsOnCash(c, index, ApplyAll(c, index, Start(c), sorted).value);
  }

  lemma {:induction false} CurveEndsOnCash(c: EngineConfig, index: seq<Series>, traded: Book)
    requires Sound(traded.open)
    requires var final := Settle(c, index, traded, traded.open);
             && Anchored(index, final) && c.capital + LegTotal(final.legs) == final.equity
    ensures var out := OutcomeOf(c, index, traded);
            && (out.curve == [] ==> out.final.legs == [])
            && (out.curve != [] ==> out.curve[|out.curve| - 1].1 == Max(0.0, out.final.equity))
  {
    LastValuation(index, Settle(c, index, traded, traded.open), c.capital);
  }

  // ---- long-only runs never go into debt ----

  ghost predicate SaneFees(c: EngineConfig) { 0.0 <= Fees(c) <= 1.0 && c.capital >= 0.0 }

  ghost predicate NonNegativePrices(index: seq<Series>) {
    forall s, k :: 0 <= k < |BarsOf(index, s)| ==>
      BarsOf(index, s)[k].open >= 0.0 && BarsOf(index, s)[k].close >= 0.0
  }

  ghost predicate LongOnly(b: Book) {
    b.equity >= 0.0 && forall j :: 0 <= j < |b.open| ==> b.open[j].direction == Long
  }

  lemma ProceedsNonNegative(c: EngineConfig, shares: real, price: real)
    requires 0.0 <= Fees(c) <= 1.0 && shares >= 0.0 && price >= 0.0
    ensures Proceeds(c, shares, price) >= 0.0
  {
    MulMono(shares, 0.0, price);
    var gross := shares * price;
    MulMono(gross, Fees(c), 1.0);
  }

  lemma {:induction false} LongOnlyOpen(c: EngineConfig, b: Book, s: Symbol, price: real, exec: int)
    requires LongOnly(b)
    ensures var r := OpenAt(c, b, s, Long, price, exec); r.Some? ==> LongOnly(r.value)
  {
  }

  lemma {:induction false} LongOnlyClose(
    c: EngineConfig, b: Book, p: Position, price: real, exec: int, record: int)
    requires Sound(b.open) && LongOnly(b) && p in b.open && SaneFees(c) && price >= 0.0
    ensures LongOnly(CloseAt(c, b, p, price, exec, record))
  {
    WithoutSound(b.open, p.symbol);
    ProceedsNonNegative(c, p.shares, price);
    var r := Without(b.open, p.symbol);
    forall j | 0 <= j < |r| ensures r[j].direction == Long { assert r[j] in b.open; }
  }

  lemma {:induction false} LongOnlyFill(c: EngineConfig, b: Book, sig: Signal, bar: Bar)
    requires Sound(b.open) && sig.date.Some? && SaneFees(c) && bar.open >= 0.0
    requires LongOnly(b) && sig.action != Go(Short)
    ensures var r := Fill(c, b, sig, bar); r.Some? ==> LongOnly(r.value)
  {
    FindSound(b.open, sig.symbol);
    match Find(b.open, sig.symbol)
    case None => LongOnlyOpen(c, b, sig.symbol, bar.open, bar.date);
    case Some(p) =>
      assert p.direction == Long;
      LongOnlyClose(c, b, p, bar.open, bar.date, sig.date.value);
  }

  lemma {:induction false} LongOnlyStep(c: EngineConfig, index: seq<Series>, b: Book, sig: Signal)
    requires Sound(b.open) && SaneFees(c) && NonNegativePrices(index)
    requires LongOnly(b) && sig.action != Go(Short)
    ensures var r := Apply(c, index, b, sig); r.Some? ==> LongOnly(r.value)
  {
    if sig.symbol != "" && sig.date.Some? {
      FillIsABar(BarsOf(index, sig.symbol), sig.date.value);
      match FillAfter(BarsOf(index, sig.symbol), sig.date.value)
      case None =>
      case Some(bar) => LongOnlyFill(c, b, sig, bar);
    }
  }

  lemma {:induction false} LongOnlyCash(c: EngineConfig, index: seq<Series>, sigs: seq<Signal>)
    requires ApplyAll(c, index, Start(c), sigs).Some? && SaneFees(c) && NonNegativePrices(index)
    requires forall j :: 0 <= j < |sigs| ==> sigs[j].action != Go(Short)
    ensures LongOnly(ApplyAll(c, index, Start(c), sigs).value)
  {
    if sigs != [] {
      LongOnlyCash(c, index, sigs[..|sigs| - 1]);
      LongOnlyStep(c, index, ApplyAll(c, index, Start(c), sigs[..|sigs| - 1]).value, sigs[|sigs| - 1]);
    }
  }

  lemma {:induction false} LongOnlySettle(c: EngineConfig, index: seq<Series>, b: Book, open: seq<Position>)
    requires SaneFees(c) && NonNegativePrices(index) && b.equity >= 0.0
    requires forall j :: 0 <= j < |open| ==>
      open[j].cost > 0.0 && open[j].shares > 0.0 && open[j].direction == Long
    ensures Settle(c, index, b, open).equity >= 0.0
  {
    if open != [] {
      var p := open[|open| - 1];
      var bars := BarsOf(index, p.symbol);
      LongOnlySettle(c, index, b, open[..|open| - 1]);
      if bars != [] { ProceedsNonNegative(c, p.shares, bars[|bars| - 1].close); }
    }
  }

  /** A whole long-only run ends without debt, so its curve ends on the cash itself. */
  lemma {:induction false} LongOnlyRun(c: EngineConfig, prices: seq<Series>, sigs: seq<Signal>)
    requires Backtest(c, prices, sigs).Some? && SaneFees(c) && NonNegativePrices(Index(prices))
    requires forall j :: 0 <= j < |sigs| ==> sigs[j].action != Go(Short)
    ensures var out := Backtest(c, prices, sigs).value;
            && out.final.equity >= 0.0
            && (out.curve != [] ==> out.curve[|out.curve| - 1].1 == out.final.equity)
  {
    var index, sorted := Index(prices), SortSignals(sigs);
    SortIsPermutation(sigs);
    forall j | 0 <= j < |sorted| ensures sorted[j].action != Go(Short) {
      assert sorted[j] in multiset(sigs);
    }
    LedgerInvariant(c, index, sorted);
    LongOnlyCash(c, index, sorted);
    var traded := ApplyAll(c, index, Start(c), sorted).value;
    LongOnlySettle(c, index, traded, traded.open);
    TwoLedgersAgree(c, prices, sigs);
  }

  // ---- the order signals are taken in ----

  ghost predicate InOrder(sigs: seq<Signal>) {
    forall i, j :: 0 <= i < j < |sigs| ==> NoLater(sigs[i], sigs[j])
  }

  ghost predicate AllNoLater(sigs: seq<Signal>, s: Signal) { forall i :: 0 <= i < |sigs| ==> NoLater(sigs[i], s) }

  lemma {:induction false} InsertIsPermutation(sorted: seq<Signal>, s: Signal)
    ensures multiset(InsertSignal(sorted, s)) == multiset(sorted) + multiset{s}
  {
    if sorted != [] && !NoLater(sorted[|sorted| - 1], s) {
      var init, last := sorted[..|sorted| - 1], sorted[|sorted| - 1];
      InsertIsPermutation(init, s);
      assert sorted == init + [last];
    }
  }

  lemma {:induction false} InsertAllNoLater(sorted: seq<Signal>, s: Signal, t: Signal)
    requires AllNoLater(sorted, t) && NoLater(s, t)
    ensures AllNoLater(InsertSignal(sorted, s), t)
  {
    if sorted != [] { InsertAllNoLater(sorted[..|sorted| - 1], s, t); }
  }

  lemma {:induction false} InOrderPush(sorted: seq<Signal>, s: Signal)
    requires InOrder(sorted) && AllNoLater(sorted, s)
    ensures InOrder(sorted + [s])
  {
  }

  lemma {:induction false} NoLaterTrans(sorted: seq<Signal>, s: Signal)
    requires InOrder(sorted) && sorted != [] && NoLater(sorted[|sorted| - 1], s)
    ensures AllNoLater(sorted, s)
  {
    forall i | 0 <= i < |sorted| ensures NoLater(sorted[i], s) {
      if i < |sorted| - 1 { assert NoLater(sorted[i], sorted[|sorted| - 1]); }
    }
  }

  lemma {:induction false} InsertInOrder(sorted: seq<Signal>, s: Signal)
    requires InOrder(sorted)
    ensures InOrder(InsertSignal(sorted, s))
  {
    if sorted != [] {
      var init, last := sorted[..|sorted| - 1], sorted[|sorted| - 1];
      if NoLater(last, s) {
        NoLaterTrans(sorted, s);
        InOrderPush(sorted, s);
      } else {
        assert AllNoLater(init, last);
        InsertInOrder(init, s);
        InsertAllNoLater(init, s, last);
        InOrderPush(InsertSignal(init, s), last);
      }
    }
  }

  lemma {:induction false} SortIsPermutation(sigs: seq<Signal>)
    ensures multiset(SortSignals(sigs)) == multiset(sigs)
  {
    if sigs != [] {
      var init, last := sigs[..|sigs| - 1], sigs[|sigs| - 1];
      calc {
        multiset(SortSignals(sigs));
        multiset(InsertSignal(SortSignals(init), last));
        { InsertIsPermutation(SortSignals(init), last); }
        multiset(SortSignals(init)) + multiset{last};
        { SortIsPermutation(init); }
        multiset(init) + multiset{last};
        { CountedSplit(sigs, init, last); }
        multiset(sigs);
      }
    }
  }

  lemma {:induction false} CountedSplit(sigs: seq<Signal>, init: seq<Signal>, last: Signal)
    requires sigs == init + [last]
    ensures multiset(sigs) == multiset(init) + multiset{last}
  {
  }

  /** Signals of one date, in the order they came in. */
  function OfDate(sigs: seq<Signal>, d: Option<int>): seq<Signal> {
    if sigs == [] then []
    else
      var last := sigs[|sigs| - 1];
      OfDate(sigs[..|sigs| - 1], d) + if last.date == d then [last] else []
  }

  lemma {:induction false} OfDatePush(sigs: seq<Signal>, s: Signal, d: Option<int>)
    ensures OfDate(sigs + [s], d) == OfDate(sigs, d) + if s.date == d then [s] else []
  {
    assert (sigs + [s])[..|sigs|] == sigs;
  }

  lemma {:induction false} InsertIsStable(sorted: seq<Signal>, s: Signal, d: Option<int>)
    ensures OfDate(InsertSignal(sorted, s), d) == OfDate(sorted, d) + if s.date == d then [s] else []
  {
    if sorted == [] {
      OfDatePush([], s, d);
      assert [] + [s] == [s];
    } else {
      var init, last := sorted[..|sorted| - 1], sorted[|sorted| - 1];
      if NoLater(last, s) {
        OfDatePush(sorted, s, d);
      } else {
        InsertIsStable(init, s, d);
        OfDatePush(InsertSignal(init, s), last, d);
      }
    }
  }

  /** The sort orders by date, undated signals first, loses nothing, and keeps each day's own order. */
  lemma {:induction false} SortIsStable(sigs: seq<Signal>, d: Option<int>)
    ensures InOrder(SortSignals(sigs)) && multiset(SortSignals(sigs)) == multiset(sigs)
    ensures OfDate(SortSignals(sigs), d) == OfDate(sigs, d)
  {
    SortIsPermutation(sigs);
    if sigs != [] {
      var init, last := sigs[..|sigs| - 1], sigs[|sigs| - 1];
      SortIsStable(init, d);
      InsertInOrder(SortSignals(init), last);
      InsertIsStable(SortSignals(init), last, d);
    }
  }

  /** The exit fee is taken from the proceeds, so it lowers a long's profit and raises a short's. */
  lemma ExitFeeBySide(c: EngineConfig, p: Position, price: real)
    requires Fees(c) > 0.0 && p.shares > 0.0 && price > 0.0
    ensures var free := c.(commission := 0.0, slippage := 0.0);
            if p.direction == Long then Pnl(c, p, price) < Pnl(free, p, price)
            else Pnl(c, p, price) > Pnl(free, p, price)
  {
    MulPositive(p.shares, price);
    MulPositive(p.shares * price, Fees(c));
    var free := c.(commission := 0.0, slippage := 0.0);
    assert Commission(free, p.shares * price) == 0.0;
  }
}
