/**
 * The signal backtester: a cash ledger driven by dated signals, filled at the next bar's open,
 * and an independent bar-by-bar valuation rebuilt from the recorded legs.
 */
module SignalEngine {
  import opened Common

  type Symbol = string

  datatype Direction = Long | Short
  datatype Action = Go(direction: Direction) | Exit | Ignore

  /** An empty symbol or a missing date marks a signal the engine skips. */
  datatype Signal = Signal(symbol: Symbol, action: Action, date: Option<int>)

  datatype Bar = Bar(date: int, open: real, close: real)
  datatype Series = Series(symbol: Symbol, bars: seq<Bar>)

  datatype EngineConfig = EngineConfig(
    capital: real, commission: real, slippage: real, risk: real, maxPositions: int)

  datatype Position = Position(
    symbol: Symbol, direction: Direction, entryDate: int, entryPrice: real, shares: real, cost: real)

  datatype Trade = Trade(
    symbol: Symbol, direction: Direction, entryDate: int, exitDate: int, entryPrice: real,
    exitPrice: real, shares: real, commission: real, pnl: real, pnlPct: real, duration: int)

  datatype Leg = Leg(
    symbol: Symbol, direction: Direction, shares: real, entryPrice: real, entryDate: int,
    exitDate: int, pnl: real)

  /** The mutable part of a run; `open` is insertion-ordered, one entry per symbol. */
  datatype Book = Book(equity: real, open: seq<Position>, trades: seq<Trade>, legs: seq<Leg>)

  // ---- the price index ----

  function InsertBar(bars: seq<Bar>, b: Bar): seq<Bar> {
    if bars == [] then [b]
    else
      var n := |bars| - 1;
      if bars[n].date == b.date then bars[n := b]
      else if bars[n].date < b.date then bars + [b]
      else InsertBar(bars[..n], b) + [bars[n]]
  }

  /** Bars by increasing date; a repeated date keeps its last bar. */
  function IndexBars(bars: seq<Bar>): seq<Bar> {
    if bars == [] then [] else InsertBar(IndexBars(bars[..|bars| - 1]), bars[|bars| - 1])
  }

  function Index(prices: seq<Series>): seq<Series> {
    seq(|prices|, j requires 0 <= j < |prices| => Series(prices[j].symbol, IndexBars(prices[j].bars)))
  }

  function BarsOf(index: seq<Series>, s: Symbol): seq<Bar> {
    if index == [] then []
    else if index[|index| - 1].symbol == s then index[|index| - 1].bars
    else BarsOf(index[..|index| - 1], s)
  }

  /** The bar after the one dated `d`: a signal seen at a close fills at the next open. */
  function FillAfter(bars: seq<Bar>, d: int): Option<Bar> {
    if |bars| < 2 then None
    else if bars[|bars| - 2].date == d then Some(bars[|bars| - 1])
    else FillAfter(bars[..|bars| - 1], d)
  }

  // ---- money ----

  function Fees(c: EngineConfig): real { c.commission + c.slippage }

  function Commission(c: EngineConfig, gross: real): real { gross * Fees(c) }

  function Proceeds(c: EngineConfig, shares: real, price: real): real {
    var gross := shares * price;
    gross - Commission(c, gross)
  }

  function Pnl(c: EngineConfig, p: Position, price: real): real {
    var proceeds := Proceeds(c, p.shares, price);
    if p.direction == Long then proceeds - p.cost else p.cost - proceeds
  }

  function Cost(c: EngineConfig, shares: real, price: real): real { shares * price * (1.0 + Fees(c)) }

  function RiskDivisor(c: EngineConfig, price: real): real { price * (Fees(c) + 0.001) }

  function CashDivisor(c: EngineConfig, price: real): real { price * (1.0 + Fees(c)) }

  /** Fixed-fraction sizing, at least a hundredth of a share. */
  function RiskShares(c: EngineConfig, equity: real, price: real): real
    requires RiskDivisor(c, price) != 0.0
  {
    Max(0.01, equity * c.risk / RiskDivisor(c, price))
  }

  /** As many shares as the cash buys. */
  function AffordableShares(c: EngineConfig, equity: real, price: real): real
    requires CashDivisor(c, price) != 0.0
  {
    equity / CashDivisor(c, price)
  }

  /** Shares and cost of a new position, capped at the cash at hand. None stands for a division by zero. */
  function Sized(c: EngineConfig, equity: real, price: real): Option<(real, real)> {
    if RiskDivisor(c, price) == 0.0 then None
    else
      var shares := RiskShares(c, equity, price);
      var cost := Cost(c, shares, price);
      if cost <= equity then Some((shares, cost))
      else if CashDivisor(c, price) == 0.0 then None
      else Some((AffordableShares(c, equity, price), equity))
  }

  // ---- open positions ----

  function Find(open: seq<Position>, s: Symbol): Option<Position> {
    if open == [] then None
    else if open[|open| - 1].symbol == s then Some(open[|open| - 1])
    else Find(open[..|open| - 1], s)
  }

  function Without(open: seq<Position>, s: Symbol): seq<Position> {
    if open == [] then []
    else if open[|open| - 1].symbol == s then open[..|open| - 1]
    else Without(open[..|open| - 1], s) + [open[|open| - 1]]
  }

  ghost predicate Sound(open: seq<Position>) {
    && (forall j :: 0 <= j < |open| ==> open[j].cost > 0.0 && open[j].shares > 0.0)
    && (forall i, j :: 0 <= i < j < |open| ==> open[i].symbol != open[j].symbol)
  }

  // ---- ledger steps as functions ----

  function TradeOf(c: EngineConfig, p: Position, price: real, record: int, duration: int): Trade
    requires p.cost != 0.0
  {
    Trade(p.symbol, p.direction, p.entryDate, record, p.entryPrice, price, p.shares,
          Commission(c, p.shares * price), Pnl(c, p, price), Pnl(c, p, price) / p.cost * 100.0, duration)
  }

  function LegOf(c: EngineConfig, p: Position, price: real, exec: int): Leg {
    Leg(p.symbol, p.direction, p.shares, p.entryPrice, p.entryDate, exec, Pnl(c, p, price))
  }

  /** Cash back plus profit, one trade, one leg; the position itself is left to the caller. */
  function Realise(c: EngineConfig, b: Book, p: Position, price: real, exec: int, record: int, duration: int): Book
    requires p.cost != 0.0
  {
    b.(equity := b.equity + (p.cost + Pnl(c, p, price)),
       trades := b.trades + [TradeOf(c, p, price, record, duration)],
       legs := b.legs + [LegOf(c, p, price, exec)])
  }

  function CloseAt(c: EngineConfig, b: Book, p: Position, price: real, exec: int, record: int): Book
    requires p.cost != 0.0
  {
    Realise(c, b, p, price, exec, record, exec - p.entryDate).(open := Without(b.open, p.symbol))
  }

  /** None stands for the error the sizing raises; it is not raised when no slot is free. */
  function OpenAt(c: EngineConfig, b: Book, s: Symbol, d: Direction, price: real, exec: int): Option<Book> {
    if |b.open| >= c.maxPositions then Some(b)
    else
      match Sized(c, b.equity, price)
      case None => None
      case Some((shares, cost)) =>
        if cost <= 0.0 || shares <= 0.0 then Some(b)
        else
          var p := Position(s, d, exec, price, shares, cost);
          Some(b.(equity := b.equity - cost, open := b.open + [p]))
  }

  /** The ledger after one signal, or None when opening a position divides by zero. */
  function Apply(c: EngineConfig, index: seq<Series>, b: Book, sig: Signal): Option<Book>
    requires Sound(b.open)
  {
    if sig.symbol == "" || sig.date.None? then Some(b)
    else
      match FillAfter(BarsOf(index, sig.symbol), sig.date.value)
      case None => Some(b)
      case Some(bar) => Fill(c, b, sig, bar)
  }

  function Fill(c: EngineConfig, b: Book, sig: Signal, bar: Bar): Option<Book>
    requires Sound(b.open) && sig.date.Some?
  {
    FindSound(b.open, sig.symbol);
    match (sig.action, Find(b.open, sig.symbol))
    case (Go(d), None) => OpenAt(c, b, sig.symbol, d, bar.open, bar.date)
    case (Go(d), Some(p)) =>
      if p.direction == d then Some(b)
      else OpenAt(c, CloseAt(c, b, p, bar.open, bar.date, sig.date.value), sig.symbol, d, bar.open, bar.date)
    case (Exit, Some(p)) => Some(CloseAt(c, b, p, bar.open, bar.date, sig.date.value))
    case _ => Some(b)
  }

  lemma {:induction false} FindSound(open: seq<Position>, s: Symbol)
    requires Sound(open)
    ensures Find(open, s).Some? ==> Find(open, s).value in open && Find(open, s).value.symbol == s
    ensures Find(open, s).Some? ==> Find(open, s).value.cost > 0.0 && Find(open, s).value.shares > 0.0
    ensures Find(open, s).None? ==> forall j :: 0 <= j < |open| ==> open[j].symbol != s
  {
    if open != [] { FindSound(open[..|open| - 1], s); }
  }

  lemma {:induction false} WithoutSound(open: seq<Position>, s: Symbol)
    requires Sound(open)
    ensures forall p :: p in Without(open, s) <==> p in open && p.symbol != s
    ensures Sound(Without(open, s))
    ensures |Without(open, s)| == |open| - if Find(open, s).Some? then 1 else 0
  {
    if open != [] {
      var init, last := open[..|open| - 1], open[|open| - 1];
      assert open == init + [last];
      assert forall p :: p in init ==> p.symbol != last.symbol;
      WithoutSound(init, s);
      if last.symbol != s {
        var rest := Without(init, s);
        assert forall p :: p in rest ==> p.symbol != last.symbol;
        SoundPush(rest, last);
      }
    }
  }

  lemma {:induction false} SoundPush(open: seq<Position>, p: Position)
    requires Sound(open) && p.cost > 0.0 && p.shares > 0.0 && forall q :: q in open ==> q.symbol != p.symbol
    ensures Sound(open + [p])
  {
  }

  lemma {:induction false} OpenSound(c: EngineConfig, b: Book, s: Symbol, d: Direction, price: real, exec: int)
    requires Sound(b.open) && forall p :: p in b.open ==> p.symbol != s
    ensures var r := OpenAt(c, b, s, d, price, exec);
            r.Some? ==> Sound(r.value.open) && |r.value.open| <= MaxInt(|b.open|, c.maxPositions)
  {
  }

  lemma {:induction false} ApplySound(c: EngineConfig, index: seq<Series>, b: Book, sig: Signal)
    requires Sound(b.open)
    ensures var r := Apply(c, index, b, sig);
            r.Some? ==> Sound(r.value.open) && |r.value.open| <= MaxInt(|b.open|, c.maxPositions)
  {
    if sig.symbol != "" && sig.date.Some? {
      match FillAfter(BarsOf(index, sig.symbol), sig.date.value)
      case None =>
      case Some(bar) => FillSound(c, b, sig, bar);
    }
  }

  lemma {:induction false} FillSound(c: EngineConfig, b: Book, sig: Signal, bar: Bar)
    requires Sound(b.open) && sig.date.Some?
    ensures var r := Fill(c, b, sig, bar);
            r.Some? ==> Sound(r.value.open) && |r.value.open| <= MaxInt(|b.open|, c.maxPositions)
  {
    FindSound(b.open, sig.symbol);
    WithoutSound(b.open, sig.symbol);
    if sig.action.Go? {
      var free := match Find(b.open, sig.symbol)
        case None => b
        case Some(p) => CloseAt(c, b, p, bar.open, bar.date, sig.date.value);
      OpenSound(c, free, sig.symbol, sig.action.direction, bar.open, bar.date);
    }
  }

  /** The ledger after all signals, or None from the first one that raises. */
  function ApplyAll(c: EngineConfig, index: seq<Series>, b: Book, sigs: seq<Signal>): (r: Option<Book>)
    requires Sound(b.open)
    ensures r.Some? ==> Sound(r.value.open)
  {
    if sigs == [] then Some(b)
    else
      match ApplyAll(c, index, b, sigs[..|sigs| - 1])
      case None => None
      case Some(before) =>
        ApplySound(c, index, before, sigs[|sigs| - 1]);
        Apply(c, index, before, sigs[|sigs| - 1])
  }

  lemma {:induction false} RaisingIsFinal(c: EngineConfig, index: seq<Series>, b: Book, sigs: seq<Signal>, k: nat)
    requires Sound(b.open) && k <= |sigs| && ApplyAll(c, index, b, sigs[..k]).None?
    ensures ApplyAll(c, index, b, sigs).None?
  {
    if k == |sigs| {
      assert sigs[..k] == sigs;
    } else {
      assert sigs[..|sigs| - 1][..k] == sigs[..k];
      RaisingIsFinal(c, index, b, sigs[..|sigs| - 1], k);
    }
  }

  /** The end of the run: everything still open is realised at its symbol's last close. */
  function Settle(c: EngineConfig, index: seq<Series>, b: Book, open: seq<Position>): Book
    requires forall j :: 0 <= j < |open| ==> open[j].cost > 0.0
  {
    if open == [] then b
    else
      var before, p := Settle(c, index, b, open[..|open| - 1]), open[|open| - 1];
      var bars := BarsOf(index, p.symbol);
      if bars == [] then before
      else
        var last := bars[|bars| - 1];
        Realise(c, before, p, last.close, last.date, last.date, 0)
  }

  // ---- signal order ----

  predicate NoLater(a: Signal, b: Signal) {
    a.date.None? || (b.date.Some? && a.date.value <= b.date.value)
  }

  function InsertSignal(sorted: seq<Signal>, s: Signal): seq<Signal> {
    if sorted == [] then [s]
    else if NoLater(sorted[|sorted| - 1], s) then sorted + [s]
    else InsertSignal(sorted[..|sorted| - 1], s) + [sorted[|sorted| - 1]]
  }

  /** Stable sort by date; undated signals come first. */
  function SortSignals(sigs: seq<Signal>): seq<Signal> {
    if sigs == [] then [] else InsertSignal(SortSignals(sigs[..|sigs| - 1]), sigs[|sigs| - 1])
  }

  // ---- mark to market ----

  function BarOn(bars: seq<Bar>, d: int): Option<Bar> {
    if bars == [] then None
    else if bars[|bars| - 1].date == d then Some(bars[|bars| - 1])
    else BarOn(bars[..|bars| - 1], d)
  }

  function LegValue(index: seq<Series>, leg: Leg, d: int): real {
    if d >= leg.exitDate then leg.pnl
    else if d >= leg.entryDate then
      match BarOn(BarsOf(index, leg.symbol), d)
      case None => 0.0
      case Some(bar) =>
        (bar.close - leg.entryPrice) * leg.shares * if leg.direction == Long then 1.0 else -1.0
    else 0.0
  }

  function Valuation(index: seq<Series>, legs: seq<Leg>, d: int, capital: real): real {
    if legs == [] then capital
    else Valuation(index, legs[..|legs| - 1], d, capital) + LegValue(index, legs[|legs| - 1], d)
  }

  function MtmCurve(index: seq<Series>, legs: seq<Leg>, dates: seq<int>, capital: real): seq<(int, real)> {
    seq(|dates|, k requires 0 <= k < |dates| =>
      (dates[k], Max(0.0, Valuation(index, legs, dates[k], capital))))
  }

  function MtmReturns(curve: seq<(int, real)>, capital: real): seq<real> {
    if curve == [] then []
    else
      var n := |curve| - 1;
      var prev := if n == 0 then capital else curve[n - 1].1;
      MtmReturns(curve[..n], capital) + if prev > 0.0 then [(curve[n].1 - prev) / prev] else []
  }

  function AddDates(dates: seq<int>, bars: seq<Bar>): seq<int> {
    if bars == [] then dates else InsertDate(AddDates(dates, bars[..|bars| - 1]), bars[|bars| - 1].date)
  }

  function AllDates(index: seq<Series>): seq<int> {
    if index == [] then [] else AddDates(AllDates(index[..|index| - 1]), index[|index| - 1].bars)
  }

  // ---- the whole run ----

  datatype Outcome = Outcome(final: Book, curve: seq<(int, real)>, rets: seq<real>)

  function Start(c: EngineConfig): Book { Book(c.capital, [], [], []) }

  function Backtest(c: EngineConfig, prices: seq<Series>, sigs: seq<Signal>): Option<Outcome> {
    var index := Index(prices);
    match ApplyAll(c, index, Start(c), SortSignals(sigs))
    case None => None
    case Some(traded) => Some(OutcomeOf(c, index, traded))
  }

  function OutcomeOf(c: EngineConfig, index: seq<Series>, traded: Book): Outcome
    requires Sound(traded.open)
  {
    var final := Settle(c, index, traded, traded.open);
    var curve := MtmCurve(index, final.legs, AllDates(index), c.capital);
    Outcome(final, curve, MtmReturns(curve, c.capital))
  }

  // ---- the ledger object and the loops ----

  class Ledger {
    const c: EngineConfig
    const index: seq<Series>
    var equity: real
    var open: seq<Position>
    var trades: seq<Trade>
    var legs: seq<Leg>

    ghost predicate Valid()
      reads this
    {
      Sound(open)
    }

    function View(): Book
      reads this
    {
      Book(equity, open, trades, legs)
    }

    constructor (c: EngineConfig, index: seq<Series>)
      ensures Valid() && View() == Start(c) && this.c == c && this.index == index
    {
      this.c, this.index := c, index;
      equity, open, trades, legs := c.capital, [], [], [];
    }

    method Close(p: Position, price: real, exec: int, record: int)
      requires Valid() && p in open
      modifies this
      ensures Valid() && View() == CloseAt(c, old(View()), p, price, exec, record)
    {
      WithoutSound(open, p.symbol);
      open := Without(open, p.symbol);
      var pnl := Pnl(c, p, price);
      equity := equity + (p.cost + pnl);
      trades := trades + [TradeOf(c, p, price, record, exec - p.entryDate)];
      legs := legs + [LegOf(c, p, price, exec)];
    }

    /** Not ok stands for the division by zero that ends the run. */
    method OpenNew(s: Symbol, d: Direction, price: real, exec: int) returns (ok: bool)
      requires Valid() && forall p :: p in open ==> p.symbol != s
      modifies this
      ensures Valid() && ok == OpenAt(c, old(View()), s, d, price, exec).Some?
      ensures View() == if ok then OpenAt(c, old(View()), s, d, price, exec).value else old(View())
    {
      OpenSound(c, View(), s, d, price, exec);
      if |open| >= c.maxPositions { return true; }
      if RiskDivisor(c, price) == 0.0 { return false; }
      var shares := RiskShares(c, equity, price);
      var cost := Cost(c, shares, price);
      if cost > equity {
        if CashDivisor(c, price) == 0.0 { return false; }
        shares := AffordableShares(c, equity, price);
        cost := equity;
      }
      if cost <= 0.0 || shares <= 0.0 { return true; }
      equity := equity - cost;
      open := open + [Position(s, d, exec, price, shares, cost)];
      ok := true;
    }

    method Process(sig: Signal) returns (ok: bool)
      requires Valid()
      modifies this
      ensures Valid() && ok == Apply(c, index, old(View()), sig).Some?
      ensures ok ==> View() == Apply(c, index, old(View()), sig).value
    {
      FindSound(open, sig.symbol);
      WithoutSound(open, sig.symbol);
      if sig.symbol == "" || sig.date.None? { return true; }
      var fill := FillAfter(BarsOf(index, sig.symbol), sig.date.value);
      if fill.None? { return true; }
      var bar := fill.value;
      var existing := Find(open, sig.symbol);
      ok := true;
      match sig.action
      case Go(d) =>
        if existing.Some? {
          if existing.value.direction == d { return; }
          Close(existing.value, bar.open, bar.date, sig.date.value);
        }
        ok := OpenNew(sig.symbol, d, bar.open, bar.date);
      case Exit =>
        if existing.Some? { Close(existing.value, bar.open, bar.date, sig.date.value); }
      case Ignore =>
    }

    method ProcessAll(sigs: seq<Signal>) returns (ok: bool)
      requires Valid()
      modifies this
      ensures Valid() && ok == ApplyAll(c, index, old(View()), sigs).Some?
      ensures ok ==> View() == ApplyAll(c, index, old(View()), sigs).value
    {
      ghost var before := View();
      for j := 0 to |sigs|
        invariant Valid() && ApplyAll(c, index, before, sigs[..j]) == Some(View())
      {
        assert sigs[..j + 1][..j] == sigs[..j];
        ok := Process(sigs[j]);
        if !ok {
          RaisingIsFinal(c, index, before, sigs, j + 1);
          return;
        }
      }
      assert sigs[..|sigs|] == sigs;
      ok := true;
    }

    method CloseRemaining()
      requires Valid()
      modifies this
      ensures Valid() && View() == Settle(c, index, old(View()), old(open))
    {
      ghost var before := View();
      for j := 0 to |open|
        invariant open == before.open && Valid()
        invariant View() == Settle(c, index, before, open[..j])
      {
        assert open[..j + 1][..j] == open[..j];
        var p := open[j];
        var bars := BarsOf(index, p.symbol);
        if bars != [] {
          var last := bars[|bars| - 1];
          equity := equity + (p.cost + Pnl(c, p, last.close));
          trades := trades + [TradeOf(c, p, last.close, last.date, 0)];
          legs := legs + [LegOf(c, p, last.close, last.date)];
        }
      }
      assert open[..|open|] == open;
    }
  }

  method ComputeMtm(index: seq<Series>, legs: seq<Leg>, dates: seq<int>, capital: real)
    returns (curve: seq<(int, real)>, rets: seq<real>)
    ensures curve == MtmCurve(index, legs, dates, capital) && rets == MtmReturns(curve, capital)
  {
    curve, rets := [], [];
    var prev := capital;
    for k := 0 to |dates|
      invariant curve == MtmCurve(index, legs, dates, capital)[..k]
      invariant rets == MtmReturns(curve, capital)
      invariant prev == if k == 0 then capital else curve[k - 1].1
    {
      var eq := ValueLegs(index, legs, dates[k], capital);
      eq := Max(0.0, eq);
      assert (curve + [(dates[k], eq)])[..k] == curve;
      curve := curve + [(dates[k], eq)];
      if prev > 0.0 { rets := rets + [(eq - prev) / prev]; }
      prev := eq;
    }
  }

  /** The inner loop: capital and every leg's value on one date. */
  method ValueLegs(index: seq<Series>, legs: seq<Leg>, d: int, capital: real) returns (eq: real)
    ensures eq == Valuation(index, legs, d, capital)
  {
    eq := capital;
    for j := 0 to |legs|
      invariant eq == Valuation(index, legs[..j], d, capital)
    {
      assert legs[..j + 1][..j] == legs[..j];
      eq := eq + LegValue(index, legs[j], d);
    }
    assert legs[..|legs|] == legs;
  }

  method RunBacktest(c: EngineConfig, prices: seq<Series>, sigs: seq<Signal>) returns (out: Option<Outcome>)
    ensures out == Backtest(c, prices, sigs)
  {
    var index, sorted := Index(prices), SortSignals(sigs);
    var ledger := new Ledger(c, index);
    var ok := ledger.ProcessAll(sorted);
    if !ok { return None; }
    ledger.CloseRemaining();
    var curve, rets := ComputeMtm(index, ledger.legs, AllDates(index), c.capital);
    out := Some(Outcome(ledger.View(), curve, rets));
  }
}
