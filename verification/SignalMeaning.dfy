/** What a signal does, said of the ledger before it, the ledger after it and the next bar alone. */
module SignalMeaning {
  import opened Common
  import opened SignalEngine
  import opened EngineProofs

  // ---- the next bar ----

  /** `bar` comes right after a bar dated `d`. */
  ghost predicate NextBar(bars: seq<Bar>, d: int, bar: Bar) {
    exists k: nat :: k + 1 < |bars| && bars[k].date == d && bars[k + 1] == bar
  }

  /** A signal fills on the bar right after its own, and not at all without one. */
  lemma {:induction false} FillIsNextBar(bars: seq<Bar>, d: int)
    ensures match FillAfter(bars, d)
            case Some(bar) => NextBar(bars, d, bar)
            case None => forall k: nat :: k + 1 < |bars| ==> bars[k].date != d
  {
    var n := |bars| - 1;
    if |bars| >= 2 {
      if bars[n - 1].date == d {
        assert bars[(n - 1) + 1] == bars[n];
      } else {
        FillIsNextBar(bars[..n], d);
        if FillAfter(bars, d).Some? {
          var k: nat :| k + 1 < n && bars[..n][k].date == d && bars[..n][k + 1] == FillAfter(bars, d).value;
          assert bars[k].date == d && bars[k + 1] == FillAfter(bars, d).value;
        }
        if FillAfter(bars, d).None? {
          forall k: nat | k + 1 < |bars| ensures bars[k].date != d {
            if k + 1 < n { assert bars[k] == bars[..n][k]; }
          }
        }
      }
    }
  }

  // ---- closing and opening ----

  ghost predicate IsOpen(open: seq<Position>, s: Symbol) { exists p :: p in open && p.symbol == s }

  /** What a position makes when it is sold, or bought back, at `price`: fees come off the amount traded. */
  function Gain(c: EngineConfig, d: Direction, shares: real, cost: real, price: real): real {
    var amount := shares * price;
    var received := amount - amount * (c.commission + c.slippage);
    if d == Long then received - cost else cost - received
  }

  predicate Percent(pct: real, part: real, whole: real) { pct * whole == part * 100.0 }

  /** The fee on selling, or buying back, so many shares. */
  function Fee(c: EngineConfig, shares: real, price: real): real { shares * price * (c.commission + c.slippage) }

  /** The trade and the leg of `p`, closed at `price` on day `exec` and recorded under `record`. */
  ghost predicate Books(
    c: EngineConfig, p: Position, t: Trade, l: Leg, price: real, exec: int, record: int, days: int)
  {
    && t.symbol == l.symbol == p.symbol && t.direction == l.direction == p.direction
    && t.shares == l.shares == p.shares && t.entryDate == l.entryDate == p.entryDate
    && t.entryPrice == l.entryPrice == p.entryPrice && t.exitPrice == price
    && t.exitDate == record && l.exitDate == exec
    && t.pnl == l.pnl == Gain(c, p.direction, p.shares, p.cost, price)
    && Percent(t.pnlPct, t.pnl, p.cost) && t.commission == Fee(c, p.shares, price) && t.duration == days
  }

  /** `r` is `b` with `p` closed: its symbol free, its cost and gain in cash, one more trade and leg. */
  ghost predicate Closes(c: EngineConfig, b: Book, r: Book, p: Position, price: real, exec: int, record: int) {
    && (forall q :: q in r.open <==> q in b.open && q.symbol != p.symbol)
    && |r.open| == |b.open| - 1 && Sound(r.open)
    && exists t: Trade, l: Leg ::
         && r.trades == b.trades + [t] && r.legs == b.legs + [l]
         && Books(c, p, t, l, price, exec, record, exec - p.entryDate)
         && r.equity == b.equity + p.cost + t.pnl
  }

  /** The cash a position ties up is its shares at their price with the fees on top. */
  predicate Costs(c: EngineConfig, shares: real, price: real, cost: real) {
    cost == shares * price * (1.0 + (c.commission + c.slippage))
  }

  /** The stake risks the fixed fraction of the cash, but is at least a hundredth of a share. */
  predicate RisksFraction(c: EngineConfig, equity: real, price: real, shares: real) {
    var unit := price * (c.commission + c.slippage + 0.001);
    shares >= 0.01 && (shares > 0.01 ==> shares * unit == equity * c.risk)
  }

  /** `r` is `b` with one more position, bought out of its cash at `price` on day `exec`. */
  ghost predicate Opens(c: EngineConfig, b: Book, r: Book, s: Symbol, d: Direction, price: real, exec: int) {
    && |b.open| < c.maxPositions && r.trades == b.trades && r.legs == b.legs
    && exists p: Position ::
         && r.open == b.open + [p] && r.equity == b.equity - p.cost
         && p.symbol == s && p.direction == d && p.entryPrice == price && p.entryDate == exec
         && p.shares > 0.0 && 0.0 < p.cost <= b.equity && Costs(c, p.shares, price, p.cost)
         && (RisksFraction(c, b.equity, price, p.shares) || p.cost == b.equity)
  }

  lemma CostIs(c: EngineConfig, shares: real, price: real)
    ensures Costs(c, shares, price, Cost(c, shares, price))
  {
  }

  lemma AffordableCostsAll(c: EngineConfig, equity: real, price: real)
    requires CashDivisor(c, price) != 0.0
    ensures Costs(c, AffordableShares(c, equity, price), price, equity)
  {
    var unit, shares := CashDivisor(c, price), AffordableShares(c, equity, price);
    assert shares * unit == equity;
    assert shares * price * (1.0 + Fees(c)) == shares * (price * (1.0 + Fees(c)));
  }

  lemma RiskSharesRisk(c: EngineConfig, equity: real, price: real)
    requires RiskDivisor(c, price) != 0.0
    ensures RisksFraction(c, equity, price, RiskShares(c, equity, price))
  {
    var unit, stake := RiskDivisor(c, price), equity * c.risk;
    assert stake / unit * unit == stake;
  }

  lemma {:induction false} SizedIs(c: EngineConfig, equity: real, price: real)
    ensures match Sized(c, equity, price)
            case None => true
            case Some((shares, cost)) =>
              && cost <= equity && Costs(c, shares, price, cost)
              && (RisksFraction(c, equity, price, shares) || cost == equity)
  {
    if RiskDivisor(c, price) != 0.0 {
      RiskSharesRisk(c, equity, price);
      CostIs(c, RiskShares(c, equity, price), price);
      if CashDivisor(c, price) != 0.0 { AffordableCostsAll(c, equity, price); }
    }
  }

  lemma {:induction false} OpenAtOpens(c: EngineConfig, b: Book, s: Symbol, d: Direction, price: real, exec: int)
    ensures var r := OpenAt(c, b, s, d, price, exec);
            r.Some? ==> r.value == b || Opens(c, b, r.value, s, d, price, exec)
  {
    SizedIs(c, b.equity, price);
    var r := OpenAt(c, b, s, d, price, exec);
    if r.Some? && r.value != b {
      var (shares, cost) := Sized(c, b.equity, price).value;
      var p := Position(s, d, exec, price, shares, cost);
      assert r.value.open == b.open + [p];
    }
  }

  lemma GainIs(c: EngineConfig, p: Position, price: real)
    ensures Pnl(c, p, price) == Gain(c, p.direction, p.shares, p.cost, price)
  {
  }

  lemma {:induction false} FoundIsOpen(open: seq<Position>, s: Symbol)
    requires Sound(open)
    ensures Find(open, s).Some? <==> IsOpen(open, s)
    ensures forall p :: p in open && p.symbol == s ==> Find(open, s) == Some(p)
  {
    FindSound(open, s);
    forall p | p in open && p.symbol == s ensures Find(open, s) == Some(p) {
      SoleOfSymbol(open, s, p);
    }
  }

  lemma {:induction false} SoleOfSymbol(open: seq<Position>, s: Symbol, p: Position)
    requires Sound(open) && p in open && p.symbol == s
    ensures Find(open, s) == Some(p)
  {
    FindSound(open, s);
    var i :| 0 <= i < |open| && open[i] == p;
    assert Find(open, s).Some?;
    var j :| 0 <= j < |open| && open[j] == Find(open, s).value;
    assert open[i].symbol == open[j].symbol;
  }

  lemma {:induction false} CloseAtCloses(c: EngineConfig, b: Book, p: Position, price: real, exec: int, record: int)
    requires Sound(b.open) && p in b.open
    ensures Closes(c, b, CloseAt(c, b, p, price, exec, record), p, price, exec, record)
  {
    var r := CloseAt(c, b, p, price, exec, record);
    FoundIsOpen(b.open, p.symbol);
    WithoutSound(b.open, p.symbol);
    var t, l := TradeOf(c, p, price, record, exec - p.entryDate), LegOf(c, p, price, exec);
    TradeBooks(c, p, price, exec, record, exec - p.entryDate);
    assert r.trades == b.trades + [t] && r.legs == b.legs + [l];
  }

  lemma {:induction false} TradeBooks(c: EngineConfig, p: Position, price: real, exec: int, record: int, days: int)
    requires p.cost != 0.0
    ensures Books(c, p, TradeOf(c, p, price, record, days), LegOf(c, p, price, exec), price, exec, record, days)
  {
    GainIs(c, p, price);
    QuotientPercent(Pnl(c, p, price), p.cost);
  }

  lemma QuotientPercent(part: real, whole: real)
    requires whole != 0.0
    ensures Percent(part / whole * 100.0, part, whole)
  {
    assert part / whole * whole == part;
  }

  // ---- one signal ----

  /** The signal names a symbol, a date and an action, and `bar` comes right after that date. */
  ghost predicate Fillable(index: seq<Series>, sig: Signal) {
    && sig.symbol != "" && sig.date.Some? && !sig.action.Ignore?
    && FillAfter(BarsOf(index, sig.symbol), sig.date.value).Some?
  }

  function FillBar(index: seq<Series>, sig: Signal): Bar
    requires Fillable(index, sig)
  {
    FillAfter(BarsOf(index, sig.symbol), sig.date.value).value
  }

  lemma {:induction false} UnfillableDoesNothing(c: EngineConfig, index: seq<Series>, b: Book, sig: Signal)
    requires Sound(b.open) && !Fillable(index, sig)
    ensures Apply(c, index, b, sig) == Some(b)
  {
    FindSound(b.open, sig.symbol);
  }

  /** An exit closes what is open in its symbol, at the next bar's open, and does nothing otherwise. */
  lemma {:induction false} ExitCloses(c: EngineConfig, index: seq<Series>, b: Book, sig: Signal)
    requires Sound(b.open) && Fillable(index, sig) && sig.action == Exit
    ensures Apply(c, index, b, sig).Some?
    ensures var r, bar := Apply(c, index, b, sig).value, FillBar(index, sig);
      && NextBar(BarsOf(index, sig.symbol), sig.date.value, bar)
      && (!IsOpen(b.open, sig.symbol) ==> r == b)
      && (forall p :: p in b.open && p.symbol == sig.symbol ==>
            Closes(c, b, r, p, bar.open, bar.date, sig.date.value))
  {
    var bar := FillBar(index, sig);
    FillIsNextBar(BarsOf(index, sig.symbol), sig.date.value);
    FoundIsOpen(b.open, sig.symbol);
    forall p | p in b.open && p.symbol == sig.symbol
      ensures Closes(c, b, Apply(c, index, b, sig).value, p, bar.open, bar.date, sig.date.value)
    {
      CloseAtCloses(c, b, p, bar.open, bar.date, sig.date.value);
    }
  }

  /** A direction opens its symbol at the next bar's open when nothing is open in it, cash and slots permitting. */
  lemma {:induction false} DirectionOpens(c: EngineConfig, index: seq<Series>, b: Book, sig: Signal)
    requires Sound(b.open) && Fillable(index, sig) && sig.action.Go? && !IsOpen(b.open, sig.symbol)
    requires Apply(c, index, b, sig).Some?
    ensures var r, bar := Apply(c, index, b, sig).value, FillBar(index, sig);
      && NextBar(BarsOf(index, sig.symbol), sig.date.value, bar)
      && (r == b || Opens(c, b, r, sig.symbol, sig.action.direction, bar.open, bar.date))
  {
    var bar := FillBar(index, sig);
    FillIsNextBar(BarsOf(index, sig.symbol), sig.date.value);
    FoundIsOpen(b.open, sig.symbol);
    OpenAtOpens(c, b, sig.symbol, sig.action.direction, bar.open, bar.date);
  }

  /** Closed, and then perhaps opened the other way, both at the same bar's open. */
  ghost predicate Reverses(c: EngineConfig, b: Book, r: Book, p: Position, d: Direction, bar: Bar, record: int) {
    exists mid: Book ::
      && Closes(c, b, mid, p, bar.open, bar.date, record)
      && (r == mid || Opens(c, mid, r, p.symbol, d, bar.open, bar.date))
  }

  /** The direction already held changes nothing; the opposite one closes it and then opens the other way. */
  lemma {:induction false} DirectionReverses(c: EngineConfig, index: seq<Series>, b: Book, sig: Signal, p: Position)
    requires Sound(b.open) && Fillable(index, sig) && sig.action.Go? && p in b.open && p.symbol == sig.symbol
    requires Apply(c, index, b, sig).Some?
    ensures var r, bar := Apply(c, index, b, sig).value, FillBar(index, sig);
      && NextBar(BarsOf(index, sig.symbol), sig.date.value, bar)
      && (p.direction == sig.action.direction ==> r == b)
      && (p.direction != sig.action.direction ==>
            Reverses(c, b, r, p, sig.action.direction, bar, sig.date.value))
  {
    var bar := FillBar(index, sig);
    FillIsNextBar(BarsOf(index, sig.symbol), sig.date.value);
    FoundIsOpen(b.open, sig.symbol);
    if p.direction != sig.action.direction {
      var mid := CloseAt(c, b, p, bar.open, bar.date, sig.date.value);
      CloseAtCloses(c, b, p, bar.open, bar.date, sig.date.value);
      OpenAtOpens(c, mid, sig.symbol, sig.action.direction, bar.open, bar.date);
    }
  }

  /** With a free slot, cash and a positive price, and fees that are not negative, an opening goes through. */
  lemma {:induction false} OpeningGoesThrough(c: EngineConfig, b: Book, s: Symbol, d: Direction, price: real, exec: int)
    requires |b.open| < c.maxPositions && b.equity > 0.0 && price > 0.0 && Fees(c) >= 0.0
    ensures var r := OpenAt(c, b, s, d, price, exec); r.Some? && Opens(c, b, r.value, s, d, price, exec)
  {
    MulPositive(price, Fees(c) + 0.001);
    MulPositive(price, 1.0 + Fees(c));
    var shares := RiskShares(c, b.equity, price);
    MulPositive(shares, price);
    MulPositive(shares * price, 1.0 + Fees(c));
    QuotientPositive(b.equity, CashDivisor(c, price));
    OpenAtOpens(c, b, s, d, price, exec);
    assert OpenAt(c, b, s, d, price, exec).value.equity < b.equity;
  }

  /** A direction with nothing open in its symbol then always opens it. */
  lemma {:induction false} DirectionOpensWhenFree(c: EngineConfig, index: seq<Series>, b: Book, sig: Signal)
    requires Sound(b.open) && Fillable(index, sig) && sig.action.Go? && !IsOpen(b.open, sig.symbol)
    requires |b.open| < c.maxPositions && b.equity > 0.0 && FillBar(index, sig).open > 0.0 && Fees(c) >= 0.0
    ensures Apply(c, index, b, sig).Some?
    ensures var bar := FillBar(index, sig);
      Opens(c, b, Apply(c, index, b, sig).value, sig.symbol, sig.action.direction, bar.open, bar.date)
  {
    var bar := FillBar(index, sig);
    FoundIsOpen(b.open, sig.symbol);
    OpeningGoesThrough(c, b, sig.symbol, sig.action.direction, bar.open, bar.date);
  }

  // ---- whole runs ----

  /** The k-th signal is the last one of its symbol that fills. */
  ghost predicate LastFilled(index: seq<Series>, sigs: seq<Signal>, s: Symbol, k: nat) {
    && k < |sigs| && sigs[k].symbol == s && Fillable(index, sigs[k])
    && forall j :: k < j < |sigs| && sigs[j].symbol == s ==> !Fillable(index, sigs[j])
  }

  /** Every open position holds the direction its symbol's last filled signal asked for. */
  ghost predicate Obeys(index: seq<Series>, sigs: seq<Signal>, open: seq<Position>) {
    forall p :: p in open ==>
      exists k: nat :: LastFilled(index, sigs, p.symbol, k) && sigs[k].action == Go(p.direction)
  }

  lemma {:induction false} StillLast(index: seq<Series>, sigs: seq<Signal>, sig: Signal, s: Symbol, k: nat)
    requires LastFilled(index, sigs, s, k) && (sig.symbol != s || !Fillable(index, sig))
    ensures LastFilled(index, sigs + [sig], s, k) && (sigs + [sig])[k] == sigs[k]
  {
  }

  lemma {:induction false} NowLast(index: seq<Series>, sigs: seq<Signal>, sig: Signal)
    requires Fillable(index, sig)
    ensures LastFilled(index, sigs + [sig], sig.symbol, |sigs|) && (sigs + [sig])[|sigs|] == sig
  {
  }

  /** Positions of other symbols stay as they were, and those of this one hold the new direction. */
  ghost predicate Turned(b: Book, r: Book, sig: Signal) {
    forall p :: p in r.open ==>
      if p.symbol == sig.symbol then sig.action == Go(p.direction) else p in b.open
  }

  lemma {:induction false} SignalTurns(c: EngineConfig, index: seq<Series>, b: Book, sig: Signal)
    requires Sound(b.open) && Fillable(index, sig) && Apply(c, index, b, sig).Some?
    ensures Turned(b, Apply(c, index, b, sig).value, sig)
  {
    if p :| p in b.open && p.symbol == sig.symbol {
      forall q | q in b.open && q.symbol == sig.symbol ensures q == p { FoundIsOpen(b.open, sig.symbol); }
      if sig.action == Exit { ExitCloses(c, index, b, sig); } else { DirectionReverses(c, index, b, sig, p); }
    } else {
      assert !IsOpen(b.open, sig.symbol);
      if sig.action == Exit { ExitCloses(c, index, b, sig); } else { DirectionOpens(c, index, b, sig); }
    }
  }

  lemma {:induction false} ObeysStep(
    c: EngineConfig, index: seq<Series>, b: Book, sigs: seq<Signal>, sig: Signal, all: seq<Signal>)
    requires Sound(b.open) && Obeys(index, sigs, b.open) && Apply(c, index, b, sig).Some? && all == sigs + [sig]
    ensures Obeys(index, all, Apply(c, index, b, sig).value.open)
  {
    var r := Apply(c, index, b, sig).value;
    if Fillable(index, sig) { SignalTurns(c, index, b, sig); } else { UnfillableDoesNothing(c, index, b, sig); }
    forall p | p in r.open
      ensures exists k: nat :: LastFilled(index, all, p.symbol, k) && all[k].action == Go(p.direction)
    {
      if Fillable(index, sig) && p.symbol == sig.symbol {
        NowLast(index, sigs, sig);
      } else {
        var k: nat :| LastFilled(index, sigs, p.symbol, k) && sigs[k].action == Go(p.direction);
        StillLast(index, sigs, sig, p.symbol, k);
      }
    }
  }

  /** After any signals: whatever is open is what the last filled signal of its symbol asked for. */
  lemma {:induction false} OpenFollowsLastSignal(c: EngineConfig, index: seq<Series>, sigs: seq<Signal>)
    requires ApplyAll(c, index, Start(c), sigs).Some?
    ensures Obeys(index, sigs, ApplyAll(c, index, Start(c), sigs).value.open)
  {
    if sigs != [] {
      var n := |sigs| - 1;
      var b := ApplyAll(c, index, Start(c), sigs[..n]).value;
      OpenFollowsLastSignal(c, index, sigs[..n]);
      ObeysStep(c, index, b, sigs[..n], sigs[n], sigs);
    }
  }

  /** A symbol whose last filled signal is an exit is not open. */
  lemma {:induction false} ExitedIsClosed(c: EngineConfig, index: seq<Series>, sigs: seq<Signal>, s: Symbol, k: nat)
    requires ApplyAll(c, index, Start(c), sigs).Some?
    requires LastFilled(index, sigs, s, k) && sigs[k].action == Exit
    ensures !IsOpen(ApplyAll(c, index, Start(c), sigs).value.open, s)
  {
    OpenFollowsLastSignal(c, index, sigs);
    forall j: nat | LastFilled(index, sigs, s, j) ensures j == k {}
  }

  // ---- what every trade of a run made ----

  /** A trade's profit, from its own entry, exit and size: fees are paid on both amounts. */
  ghost predicate PaidFor(c: EngineConfig, t: Trade) {
    exists cost: real ::
      Costs(c, t.shares, t.entryPrice, cost) && t.pnl == Gain(c, t.direction, t.shares, cost, t.exitPrice)
  }

  ghost predicate AllPaidFor(c: EngineConfig, b: Book) {
    && (forall p :: p in b.open ==> Costs(c, p.shares, p.entryPrice, p.cost))
    && (forall t :: t in b.trades ==> PaidFor(c, t))
  }

  lemma {:induction false} ClosesPaidFor(
    c: EngineConfig, b: Book, r: Book, p: Position, price: real, exec: int, record: int)
    requires AllPaidFor(c, b) && p in b.open && Closes(c, b, r, p, price, exec, record)
    ensures AllPaidFor(c, r)
  {
    var t: Trade, l: Leg :|
      && r.trades == b.trades + [t] && r.legs == b.legs + [l]
      && Books(c, p, t, l, price, exec, record, exec - p.entryDate)
      && r.equity == b.equity + p.cost + t.pnl;
    assert PaidFor(c, t);
  }

  lemma {:induction false} OpensPaidFor(
    c: EngineConfig, b: Book, r: Book, s: Symbol, d: Direction, price: real, exec: int)
    requires AllPaidFor(c, b) && Opens(c, b, r, s, d, price, exec)
    ensures AllPaidFor(c, r)
  {
  }

  lemma {:induction false} ReversesPaidFor(
    c: EngineConfig, b: Book, r: Book, p: Position, d: Direction, bar: Bar, record: int)
    requires AllPaidFor(c, b) && p in b.open && Reverses(c, b, r, p, d, bar, record)
    ensures AllPaidFor(c, r)
  {
    var mid: Book :|
      && Closes(c, b, mid, p, bar.open, bar.date, record)
      && (r == mid || Opens(c, mid, r, p.symbol, d, bar.open, bar.date));
    ClosesPaidFor(c, b, mid, p, bar.open, bar.date, record);
    if r != mid { OpensPaidFor(c, mid, r, p.symbol, d, bar.open, bar.date); }
  }

  lemma {:induction false} StepPaidFor(c: EngineConfig, index: seq<Series>, b: Book, sig: Signal)
    requires Sound(b.open) && AllPaidFor(c, b) && Apply(c, index, b, sig).Some?
    ensures AllPaidFor(c, Apply(c, index, b, sig).value)
  {
    var r := Apply(c, index, b, sig).value;
    if !Fillable(index, sig) {
      UnfillableDoesNothing(c, index, b, sig);
    } else if p :| p in b.open && p.symbol == sig.symbol {
      var bar := FillBar(index, sig);
      if sig.action == Exit {
        ExitCloses(c, index, b, sig);
        ClosesPaidFor(c, b, r, p, bar.open, bar.date, sig.date.value);
      } else {
        DirectionReverses(c, index, b, sig, p);
        if p.direction != sig.action.direction {
          ReversesPaidFor(c, b, r, p, sig.action.direction, bar, sig.date.value);
        }
      }
    } else {
      FreshPaidFor(c, index, b, sig);
    }
  }

  lemma {:induction false} FreshPaidFor(c: EngineConfig, index: seq<Series>, b: Book, sig: Signal)
    requires Sound(b.open) && AllPaidFor(c, b) && Fillable(index, sig) && !IsOpen(b.open, sig.symbol)
    requires Apply(c, index, b, sig).Some?
    ensures AllPaidFor(c, Apply(c, index, b, sig).value)
  {
    var r, bar := Apply(c, index, b, sig).value, FillBar(index, sig);
    if sig.action == Exit {
      ExitCloses(c, index, b, sig);
    } else {
      DirectionOpens(c, index, b, sig);
      if r != b { OpensPaidFor(c, b, r, sig.symbol, sig.action.direction, bar.open, bar.date); }
    }
  }

  lemma {:induction false} LedgerPaidFor(c: EngineConfig, index: seq<Series>, sigs: seq<Signal>)
    requires ApplyAll(c, index, Start(c), sigs).Some?
    ensures AllPaidFor(c, ApplyAll(c, index, Start(c), sigs).value)
  {
    if sigs != [] {
      var n := |sigs| - 1;
      LedgerPaidFor(c, index, sigs[..n]);
      StepPaidFor(c, index, ApplyAll(c, index, Start(c), sigs[..n]).value, sigs[n]);
    }
  }

  lemma {:induction false} SettlePaidFor(c: EngineConfig, index: seq<Series>, b: Book, open: seq<Position>)
    requires forall j :: 0 <= j < |open| ==> open[j].cost > 0.0 && Costs(c, open[j].shares, open[j].entryPrice, open[j].cost)
    requires AllPaidFor(c, b)
    ensures AllPaidFor(c, Settle(c, index, b, open))
  {
    if open != [] {
      var n := |open| - 1;
      SettlePaidFor(c, index, b, open[..n]);
      var bars := BarsOf(index, open[n].symbol);
      if bars != [] { RealisePaidFor(c, Settle(c, index, b, open[..n]), open[n], bars[|bars| - 1]); }
    }
  }

  lemma {:induction false} RealisePaidFor(c: EngineConfig, b: Book, p: Position, last: Bar)
    requires p.cost != 0.0 && Costs(c, p.shares, p.entryPrice, p.cost) && AllPaidFor(c, b)
    ensures AllPaidFor(c, Realise(c, b, p, last.close, last.date, last.date, 0))
  {
    GainIs(c, p, last.close);
    assert PaidFor(c, TradeOf(c, p, last.close, last.date, 0));
  }

  /** Every trade a backtest reports made what its entry, exit, size and direction say, fees paid twice. */
  lemma {:induction false} EveryTradeIsPaidFor(c: EngineConfig, prices: seq<Series>, sigs: seq<Signal>)
    requires Backtest(c, prices, sigs).Some?
    ensures forall t :: t in Backtest(c, prices, sigs).value.final.trades ==> PaidFor(c, t)
  {
    var index, sorted := Index(prices), SortSignals(sigs);
    var traded := ApplyAll(c, index, Start(c), sorted).value;
    LedgerPaidFor(c, index, sorted);
    SettlePaidFor(c, index, traded, traded.open);
  }

  // ---- the forced close ----

  /** The bar a symbol's history ends with. */
  ghost predicate IsLastBar(bars: seq<Bar>, last: Bar) { bars != [] && last == bars[|bars| - 1] }

  /** Each position of `open` in turn is booked at its symbol's last close. */
  ghost predicate ClosedOut(c: EngineConfig, index: seq<Series>, b: Book, open: seq<Position>, r: Book) {
    && |r.trades| == |b.trades| + |open| && |r.legs| == |b.legs| + |open|
    && r.trades[..|b.trades|] == b.trades && r.legs[..|b.legs|] == b.legs
    && forall j: nat :: j < |open| ==> ClosedAtLast(c, index, open[j], r.trades[|b.trades| + j], r.legs[|b.legs| + j])
  }

  ghost predicate ClosedAtLast(c: EngineConfig, index: seq<Series>, p: Position, t: Trade, l: Leg) {
    exists last: Bar :: IsLastBar(BarsOf(index, p.symbol), last)
      && Books(c, p, t, l, last.close, last.date, last.date, 0)
  }

  lemma {:induction false} SettleClosesOut(c: EngineConfig, index: seq<Series>, b: Book, open: seq<Position>)
    requires forall j :: 0 <= j < |open| ==> open[j].cost > 0.0 && BarsOf(index, open[j].symbol) != []
    ensures ClosedOut(c, index, b, open, Settle(c, index, b, open))
  {
    if open != [] {
      var n := |open| - 1;
      var before, p := Settle(c, index, b, open[..n]), open[n];
      SettleClosesOut(c, index, b, open[..n]);
      var bars := BarsOf(index, p.symbol);
      var last := bars[|bars| - 1];
      TradeBooks(c, p, last.close, last.date, last.date, 0);
      OneMoreClosed(c, index, b, open, before, TradeOf(c, p, last.close, last.date, 0), LegOf(c, p, last.close, last.date),
                    Settle(c, index, b, open));
    }
  }

  lemma {:induction false} OneMoreClosed(
    c: EngineConfig, index: seq<Series>, b: Book, open: seq<Position>, before: Book, t: Trade, l: Leg, r: Book)
    requires open != [] && ClosedOut(c, index, b, open[..|open| - 1], before)
    requires r.trades == before.trades + [t] && r.legs == before.legs + [l]
    requires ClosedAtLast(c, index, open[|open| - 1], t, l)
    ensures ClosedOut(c, index, b, open, r)
  {
    var n := |open| - 1;
    forall j: nat | j < |open|
      ensures ClosedAtLast(c, index, open[j], r.trades[|b.trades| + j], r.legs[|b.legs| + j])
    {
      if j < n {
        assert open[..n][j] == open[j];
        assert ClosedAtLast(c, index, open[..n][j], before.trades[|b.trades| + j], before.legs[|b.legs| + j]);
      }
    }
    assert r.trades[..|b.trades|] == before.trades[..|b.trades|] && r.legs[..|b.legs|] == before.legs[..|b.legs|];
  }

  /** At the end of a backtest every position still open is closed at its symbol's last close, and nothing else is. */
  lemma {:induction false} RunClosesOut(c: EngineConfig, prices: seq<Series>, sigs: seq<Signal>)
    requires Backtest(c, prices, sigs).Some?
    ensures var index := Index(prices);
      var traded := ApplyAll(c, index, Start(c), SortSignals(sigs));
      traded.Some? && ClosedOut(c, index, traded.value, traded.value.open, Backtest(c, prices, sigs).value.final)
  {
    var index := Index(prices);
    LedgerInvariant(c, index, SortSignals(sigs));
    SettleClosesOut(c, index, ApplyAll(c, index, Start(c), SortSignals(sigs)).value,
                    ApplyAll(c, index, Start(c), SortSignals(sigs)).value.open);
  }

  // ---- the curve ----

  /** What a leg is worth on a day: nothing before it, what it made after it, and in between what it would make at
      the day's close if there were no fees. */
  function Worth(index: seq<Series>, l: Leg, d: int): real {
    if d < l.entryDate && d < l.exitDate then 0.0
    else if l.exitDate <= d then l.pnl
    else
      match BarOn(BarsOf(index, l.symbol), d)
      case None => 0.0
      case Some(bar) =>
        var bought, sold := l.shares * l.entryPrice, l.shares * bar.close;
        if l.direction == Long then sold - bought else bought - sold
  }

  function Worths(index: seq<Series>, legs: seq<Leg>, d: int): seq<real> {
    seq(|legs|, j requires 0 <= j < |legs| => Worth(index, legs[j], d))
  }

  lemma WorthIs(index: seq<Series>, l: Leg, d: int)
    ensures LegValue(index, l, d) == Worth(index, l, d)
  {
    if l.entryDate <= d < l.exitDate && BarOn(BarsOf(index, l.symbol), d).Some? {
      Difference(l.shares, l.entryPrice, BarOn(BarsOf(index, l.symbol), d).value.close);
    }
  }

  lemma Difference(shares: real, entry: real, close: real)
    ensures (close - entry) * shares * 1.0 == shares * close - shares * entry
    ensures (close - entry) * shares * -1.0 == shares * entry - shares * close
  {
  }

  lemma {:induction false} WorthsAdd(index: seq<Series>, legs: seq<Leg>, d: int, capital: real)
    ensures Valuation(index, legs, d, capital) == capital + Sum(Worths(index, legs, d))
  {
    if legs != [] {
      var n := |legs| - 1;
      WorthsAdd(index, legs[..n], d, capital);
      WorthIs(index, legs[n], d);
      assert Worths(index, legs, d)[..n] == Worths(index, legs[..n], d);
    }
  }

  /** How many of the first k returns of a curve there are: those from a positive value. */
  function Defined(curve: seq<(int, real)>, capital: real, k: nat): nat
    requires k <= |curve|
  {
    if k == 0 then 0 else Defined(curve, capital, k - 1) + if Previous(curve, capital, k - 1) > 0.0 then 1 else 0
  }

  function Previous(curve: seq<(int, real)>, capital: real, k: nat): real
    requires k <= |curve|
  {
    if k == 0 then capital else curve[k - 1].1
  }

  /** The return times the value it starts from is the change. */
  predicate Returns(ret: real, before: real, after: real) { ret * before == after - before }

  predicate ReturnAt(curve: seq<(int, real)>, capital: real, rets: seq<real>, k: nat)
    requires k < |curve|
  {
    && Defined(curve, capital, k) < |rets|
    && Returns(rets[Defined(curve, capital, k)], Previous(curve, capital, k), curve[k].1)
  }

  ghost predicate ReturnsUpTo(curve: seq<(int, real)>, capital: real, rets: seq<real>, n: nat)
    requires n <= |curve|
  {
    && |rets| == Defined(curve, capital, n)
    && forall k: nat :: k < n && Previous(curve, capital, k) > 0.0 ==> ReturnAt(curve, capital, rets, k)
  }

  lemma {:induction false} ReturnsSoFar(curve: seq<(int, real)>, capital: real, n: nat)
    requires n <= |curve|
    ensures ReturnsUpTo(curve, capital, MtmReturns(curve[..n], capital), n)
    decreases n
  {
    if n > 0 {
      ReturnsSoFar(curve, capital, n - 1);
      MoreReturns(curve, capital, n - 1);
      NextReturn(curve, capital, n - 1, MtmReturns(curve[..n - 1], capital), MtmReturns(curve[..n], capital));
    }
  }

  lemma {:induction false} MoreReturns(curve: seq<(int, real)>, capital: real, n: nat)
    requires n < |curve|
    ensures var prev, now := Previous(curve, capital, n), curve[n].1;
      MtmReturns(curve[..n + 1], capital)
      == MtmReturns(curve[..n], capital) + if prev > 0.0 then [Change(prev, now)] else []
  {
    assert curve[..n + 1][..n] == curve[..n];
  }

  lemma {:induction false} NextReturn(
    curve: seq<(int, real)>, capital: real, n: nat, before: seq<real>, after: seq<real>)
    requires n < |curve| && ReturnsUpTo(curve, capital, before, n)
    requires var prev, now := Previous(curve, capital, n), curve[n].1;
             after == before + if prev > 0.0 then [Change(prev, now)] else []
    ensures ReturnsUpTo(curve, capital, after, n + 1)
  {
    forall k: nat | k < n + 1 && Previous(curve, capital, k) > 0.0 ensures ReturnAt(curve, capital, after, k) {
      if k < n { KeptReturn(curve, capital, before, after, k); } else { LastReturn(curve, capital, before, after, n); }
    }
  }

  lemma {:induction false} KeptReturn(
    curve: seq<(int, real)>, capital: real, before: seq<real>, after: seq<real>, k: nat)
    requires k < |curve| && ReturnAt(curve, capital, before, k) && before <= after
    ensures ReturnAt(curve, capital, after, k)
  {
    assert after[Defined(curve, capital, k)] == before[Defined(curve, capital, k)];
  }

  lemma {:induction false} LastReturn(
    curve: seq<(int, real)>, capital: real, before: seq<real>, after: seq<real>, n: nat)
    requires n < |curve| && |before| == Defined(curve, capital, n) && Previous(curve, capital, n) > 0.0
    requires after == before + [Change(Previous(curve, capital, n), curve[n].1)]
    ensures ReturnAt(curve, capital, after, n)
  {
    ReturnOf(Previous(curve, capital, n), curve[n].1);
  }

  function Change(prev: real, now: real): real
    requires prev > 0.0
  {
    (now - prev) / prev
  }

  lemma ReturnOf(prev: real, now: real)
    requires prev > 0.0
    ensures Returns(Change(prev, now), prev, now)
  {
  }

  /**
   * The curve of a backtest: on every date the capital and what all legs are worth then, never below zero,
   * and the returns are its relative changes wherever it was positive.
   */
  lemma {:induction false} CurveMarksEveryLeg(c: EngineConfig, prices: seq<Series>, sigs: seq<Signal>, k: nat)
    requires Backtest(c, prices, sigs).Some? && k < |Backtest(c, prices, sigs).value.curve|
    ensures var out := Backtest(c, prices, sigs).value;
      var d := out.curve[k].0;
      && out.curve[k].1 == Max(0.0, c.capital + Sum(Worths(Index(prices), out.final.legs, d)))
      && (Previous(out.curve, c.capital, k) > 0.0 ==> ReturnAt(out.curve, c.capital, out.rets, k))
  {
    var out := Backtest(c, prices, sigs).value;
    WorthsAdd(Index(prices), out.final.legs, out.curve[k].0, c.capital);
    ReturnsSoFar(out.curve, c.capital, |out.curve|);
    assert out.curve[..|out.curve|] == out.curve;
  }
}
