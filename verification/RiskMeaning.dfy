/** What the exposure layer sends on, said of the batch that comes out and the caps alone. */
module ExposureMeaning {
  import opened Common
  import opened OrderedDict
  import opened RiskSignals
  import opened ExposureLayer

  /** An entry the layer sizes: the others pass or are refused as they are. */
  predicate IsSized(l: Limits, s: Signal) {
    IsEntry(s.action) && (l.allowShorts || IsBuy(s.action)) && s.price > 0.0 && s.qty > 0.0
  }

  /** Notional and quantity belong to one price. */
  predicate AtPrice(z: Size, price: real) { z.Sized? ==> z.notional == z.qty * price }

  lemma ShrinkAtPrice(z: Size, target: real, price: real)
    requires z.Sized? && z.notional > 0.0 && AtPrice(z, price)
    ensures AtPrice(Shrink(z, target), price) && Shrink(z, target).notional == target
  {
    var f := target / z.notional;
    assert f * z.notional == target;
    assert z.qty * price * f == z.qty * f * price;
  }

  /** A share of the portfolio. */
  function Cap(pv: real, pct: real): real { pv * pct }

  /** The least of what is asked, the trade cap where there is one, and what is left of the other two caps. */
  function Least(asked: real, trade: real, symbolLeft: real, totalLeft: real): real {
    Min(Min(Capped(asked, trade), symbolLeft), totalLeft)
  }

  function Capped(asked: real, trade: real): real { if trade > 0.0 then Min(asked, trade) else asked }

  /** The most an entry may add: what it asks for, the trade cap, what is left of its symbol's and the total cap. */
  function Room(l: Limits, pv: real, t: Tracker, s: Signal): real {
    Least(Notional(s), Cap(pv, l.maxTradePct),
          Cap(pv, l.maxPositionPct) - Held(t, s.symbol), Cap(pv, l.maxExposurePct) - t.exposure)
  }

  lemma {:induction false} TradeRuleIs(l: Limits, pv: real, z: Size, price: real)
    requires z.Sized? && z.notional > 0.0 && AtPrice(z, price)
    ensures var r := TradeRule(l, pv, z);
      AtPrice(r, price) && r.Sized? && r.notional == Capped(z.notional, TradeCap(l, pv))
  {
    if z.notional > TradeCap(l, pv) && TradeCap(l, pv) > 0.0 { ShrinkAtPrice(z, TradeCap(l, pv), price); }
  }

  lemma {:induction false} FitRuleIs(z: Size, used: real, cap: real, r: Reason, price: real)
    requires z.Sized? && z.notional > 0.0 && AtPrice(z, price)
    ensures var f := FitRule(z, used, cap, r);
      AtPrice(f, price) && (f.Sized? ==> f.notional == Min(z.notional, cap - used))
  {
    if used + z.notional > cap && cap - used > 0.0 { ShrinkAtPrice(z, cap - used, price); }
  }

  lemma CapsAre(l: Limits, pv: real)
    ensures TradeCap(l, pv) == Cap(pv, l.maxTradePct) && AssetCap(l, pv) == Cap(pv, l.maxPositionPct)
    ensures TotalCap(l, pv) == Cap(pv, l.maxExposurePct)
  {
  }

  /** `fitted` is the asked size under the trade cap and then the symbol's. */
  ghost predicate Fitted(l: Limits, pv: real, t: Tracker, s: Signal, asked: Size, traded: Size, fitted: Size) {
    && asked == Sized(s.qty, Notional(s)) && asked.notional > 0.0
    && traded == TradeRule(l, pv, asked) && traded.Sized? && traded.notional > 0.0
    && fitted == FitRule(traded, Held(t, s.symbol), AssetCap(l, pv), AssetLimit)
    && (fitted.Sized? ==> fitted.notional > 0.0)
  }

  lemma {:induction false} FittedIs(l: Limits, pv: real, t: Tracker, s: Signal)
    returns (asked: Size, traded: Size, fitted: Size)
    requires Priced(s)
    ensures Fitted(l, pv, t, s, asked, traded, fitted) && AtPrice(fitted, s.price)
    ensures fitted.Sized? ==>
      fitted.notional == Min(Capped(Notional(s), TradeCap(l, pv)), AssetCap(l, pv) - Held(t, s.symbol))
  {
    NotionalPositive(s);
    asked := Sized(s.qty, Notional(s));
    TradeRuleKeeps(l, pv, asked);
    TradeRuleIs(l, pv, asked, s.price);
    traded := TradeRule(l, pv, asked);
    FitRuleKeeps(traded, Held(t, s.symbol), AssetCap(l, pv), AssetLimit);
    FitRuleIs(traded, Held(t, s.symbol), AssetCap(l, pv), AssetLimit, s.price);
    fitted := FitRule(traded, Held(t, s.symbol), AssetCap(l, pv), AssetLimit);
  }

  lemma {:induction false} EntryIsFitted(
    l: Limits, pv: real, t: Tracker, s: Signal, asked: Size, traded: Size, fitted: Size)
    requires Priced(s) && Fitted(l, pv, t, s, asked, traded, fitted) && SizeEntry(l, pv, t, s).Sized?
    ensures fitted.Sized? && SizeEntry(l, pv, t, s) == FitRule(fitted, t.exposure, TotalCap(l, pv), ExposureCap)
  {
  }

  /** An approved size is all the room there is, at the signal's price. */
  lemma {:induction false} SizeFillsRoom(l: Limits, pv: real, t: Tracker, s: Signal)
    requires Priced(s) && SizeEntry(l, pv, t, s).Sized?
    ensures var z := SizeEntry(l, pv, t, s); AtPrice(z, s.price) && z.notional == Room(l, pv, t, s)
  {
    var asked, traded, fitted := FittedIs(l, pv, t, s);
    EntryIsFitted(l, pv, t, s, asked, traded, fitted);
    FitRuleIs(fitted, t.exposure, TotalCap(l, pv), ExposureCap, s.price);
    RoomIs(l, pv, t, s);
  }

  lemma {:induction false} RoomIs(l: Limits, pv: real, t: Tracker, s: Signal)
    ensures Room(l, pv, t, s)
         == Min(Min(Capped(Notional(s), TradeCap(l, pv)), AssetCap(l, pv) - Held(t, s.symbol)),
                TotalCap(l, pv) - t.exposure)
  {
    CapsAre(l, pv);
  }

  /** The order that goes out is the one booked, but for the rounding the layer allows itself. */
  predicate Matches(qty: real, price: real, booked: real) { booked <= qty * price <= booked + QTY_EPS * price }

  lemma EmittedMatches(s: Signal, qty: real, notional: real)
    requires s.price > 0.0 && qty <= s.qty && AtPrice(Sized(qty, notional), s.price)
    ensures Matches(Emit(s, qty).qty, s.price, notional)
  {
    Nearby(qty, Emit(s, qty).qty, s.price, notional);
  }

  lemma Nearby(qty: real, out: real, price: real, notional: real)
    requires price > 0.0 && qty <= out <= qty + QTY_EPS && notional == qty * price
    ensures Matches(out, price, notional)
  {
    var d := out - qty;
    var more := d * price;
    assert out * price == (qty + d) * price == notional + more;
    Fraction(d, price, more);
  }

  lemma Fraction(d: real, price: real, more: real)
    requires price > 0.0 && 0.0 <= d <= QTY_EPS && more == d * price
    ensures 0.0 <= more <= QTY_EPS * price
  {
    var rest := (QTY_EPS - d) * price;
    assert more + rest == QTY_EPS * price;
    assert rest >= 0.0 && more >= 0.0;
  }

  /** What one sized entry comes to: refused and nothing booked, or sent on for what is booked, all the room there is. */
  ghost predicate Sent(l: Limits, pv: real, t: Tracker, s: Signal, next: Tracker, o: Signal) {
    var booked := Room(l, pv, t, s);
    && o.action == s.action && o.symbol == s.symbol && o.price == s.price && 0.0 < o.qty <= s.qty
    && booked > 0.0 && Matches(o.qty, o.price, booked)
    && Held(next, s.symbol) == Held(t, s.symbol) + booked && next.exposure == t.exposure + booked
    && forall x :: x != s.symbol ==> Held(next, x) == Held(t, x)
  }

  lemma {:induction false} SizedEntryIsSent(l: Limits, pv: real, t: Tracker, s: Signal)
    requires IsSized(l, s)
    ensures var (next, o) := Step(l, pv, t, s);
      || (o.action == Cancelled && next == t)
      || Sent(l, pv, t, s, next, o)
  {
    match SizeEntry(l, pv, t, s)
    case Rejected(_) =>
    case Sized(qty, notional) =>
      SizeEntryFits(l, pv, t, s);
      SizeFillsRoom(l, pv, t, s);
      EntryIsSent(l, pv, t, s, qty, notional);
  }

  lemma {:induction false} EntryIsSent(l: Limits, pv: real, t: Tracker, s: Signal, qty: real, notional: real)
    requires IsSized(l, s) && 0.0 < qty <= s.qty && notional > 0.0
    requires notional == Room(l, pv, t, s) && AtPrice(Sized(qty, notional), s.price)
    ensures Sent(l, pv, t, s, AfterEntry(t, s, notional), Emit(s, qty))
  {
    EmittedMatches(s, qty, notional);
    EmittedKeeps(s, qty);
    EntryBooks(t, s, notional);
  }

  lemma EmittedKeeps(s: Signal, qty: real)
    requires 0.0 < qty <= s.qty
    ensures var o := Emit(s, qty);
      o.action == s.action && o.symbol == s.symbol && o.price == s.price && 0.0 < o.qty <= s.qty
  {
  }

  lemma {:induction false} EntryBooks(t: Tracker, s: Signal, notional: real)
    ensures var next := AfterEntry(t, s, notional);
      && Held(next, s.symbol) == Held(t, s.symbol) + notional && next.exposure == t.exposure + notional
      && forall x :: x != s.symbol ==> Held(next, x) == Held(t, x)
  {
    forall x ensures Held(AfterEntry(t, s, notional), x) == if x == s.symbol then Held(t, x) + notional else Held(t, x) {
      PutGet(t.positions, s.symbol, Held(t, s.symbol) + notional, x);
    }
  }

  /** Why an entry is refused, in the order the limits are looked at. */
  lemma {:induction false} RefusalExactly(l: Limits, pv: real, t: Tracker, s: Signal)
    requires IsEntry(s.action)
    ensures var o, usedUp := Step(l, pv, t, s).1, Held(t, s.symbol) >= Cap(pv, l.maxPositionPct);
      if !l.allowShorts && !IsBuy(s.action) then o == Cancel(s, ShortsProhibited)
      else if s.price <= 0.0 || s.qty <= 0.0 then o == s
      else if usedUp then o == Cancel(s, AssetLimit)
      else if CountBlocks(l, t, s) then o == Cancel(s, OpenLimit)
      else if t.exposure >= Cap(pv, l.maxExposurePct) then o == Cancel(s, ExposureCap)
      else o.action == s.action && o.reason == s.reason
  {
    if IsSized(l, s) {
      RejectionIsDue(l, pv, t, s);
      CapsAre(l, pv);
      if SizeEntry(l, pv, t, s).Rejected? { ReasonIs(l, pv, t, s); }
    }
  }

  lemma {:induction false} ReasonIs(l: Limits, pv: real, t: Tracker, s: Signal)
    requires Priced(s) && SizeEntry(l, pv, t, s).Rejected?
    ensures SizeEntry(l, pv, t, s).reason ==
      if Held(t, s.symbol) >= AssetCap(l, pv) then AssetLimit else if CountBlocks(l, t, s) then OpenLimit else ExposureCap
  {
    NotionalPositive(s);
    var asked := Sized(s.qty, Notional(s));
    TradeRuleKeeps(l, pv, asked);
    var traded := TradeRule(l, pv, asked);
    FitRuleKeeps(traded, Held(t, s.symbol), AssetCap(l, pv), AssetLimit);
    var fitted := FitRule(traded, Held(t, s.symbol), AssetCap(l, pv), AssetLimit);
    if fitted.Sized? { FitRuleKeeps(fitted, t.exposure, TotalCap(l, pv), ExposureCap); }
  }

  // ---- the batch that comes out ----

  /** A surviving order to buy or sell short at a price. */
  predicate IsOrder(o: Signal) { IsEntry(o.action) && o.price > 0.0 && o.qty > 0.0 }

  function Ordered(o: Signal): real { if IsOrder(o) then o.qty * o.price else 0.0 }

  function OrderedIn(o: Signal, x: string): real { if o.symbol == x then Ordered(o) else 0.0 }

  function Slack(o: Signal): real { if IsOrder(o) then QTY_EPS * o.price else 0.0 }

  function OrderedTotal(out: seq<Signal>): real {
    if out == [] then 0.0 else OrderedTotal(out[..|out| - 1]) + Ordered(out[|out| - 1])
  }

  function OrderedOf(out: seq<Signal>, x: string): real {
    if out == [] then 0.0 else OrderedOf(out[..|out| - 1], x) + OrderedIn(out[|out| - 1], x)
  }

  function TotalSlack(out: seq<Signal>): real {
    if out == [] then 0.0 else TotalSlack(out[..|out| - 1]) + Slack(out[|out| - 1])
  }

  ghost predicate NoExits(sigs: seq<Signal>) { forall j :: 0 <= j < |sigs| ==> !IsExit(sigs[j].action) }

  /** What was booked is what the orders add up to, but for the slack. */
  ghost predicate Booked(first: Tracker, t: Tracker, out: seq<Signal>) {
    && first.exposure + OrderedTotal(out) - TotalSlack(out) <= t.exposure <= first.exposure + OrderedTotal(out)
    && forall x :: Held(first, x) + OrderedOf(out, x) - TotalSlack(out) <= Held(t, x) <= Held(first, x) + OrderedOf(out, x)
  }

  lemma {:induction false} OrderedLast(out: seq<Signal>, o: Signal)
    ensures OrderedTotal(out + [o]) == OrderedTotal(out) + Ordered(o)
    ensures TotalSlack(out + [o]) == TotalSlack(out) + Slack(o)
    ensures forall x :: OrderedOf(out + [o], x) == OrderedOf(out, x) + OrderedIn(o, x)
  {
    assert (out + [o])[..|out|] == out;
  }

  /** One signal's order and what it adds to the books, within its slack. */
  ghost predicate Adds(t: Tracker, next: Tracker, o: Signal) {
    && t.exposure + Ordered(o) - Slack(o) <= next.exposure <= t.exposure + Ordered(o)
    && Slack(o) >= 0.0
    && forall x :: Held(t, x) + OrderedIn(o, x) - Slack(o) <= Held(next, x) <= Held(t, x) + OrderedIn(o, x)
  }

  lemma OrderMatches(o: Signal, booked: real)
    requires Matches(o.qty, o.price, booked) && IsOrder(o)
    ensures Ordered(o) - Slack(o) <= booked <= Ordered(o) && Slack(o) >= 0.0
  {
  }

  lemma {:induction false} SentAdds(l: Limits, pv: real, t: Tracker, s: Signal, next: Tracker, o: Signal)
    requires IsSized(l, s) && Sent(l, pv, t, s, next, o)
    ensures Adds(t, next, o)
  {
    OrderMatches(o, Room(l, pv, t, s));
  }

  lemma {:induction false} StepAdds(l: Limits, pv: real, t: Tracker, s: Signal)
    requires !IsExit(s.action)
    ensures Adds(t, Step(l, pv, t, s).0, Step(l, pv, t, s).1)
  {
    var (next, o) := Step(l, pv, t, s);
    if IsSized(l, s) {
      SizedEntryIsSent(l, pv, t, s);
      if o.action != Cancelled { SentAdds(l, pv, t, s, next, o); }
    } else {
      assert next == t && !IsOrder(o);
    }
  }

  lemma {:induction false} BookedAdds(first: Tracker, t: Tracker, next: Tracker, out: seq<Signal>, o: Signal)
    requires Booked(first, t, out) && Adds(t, next, o)
    ensures Booked(first, next, out + [o])
  {
    OrderedLast(out, o);
  }

  lemma {:induction false} BatchIsBooked(l: Limits, pv: real, t: Tracker, sigs: seq<Signal>)
    requires NoExits(sigs)
    ensures Booked(t, Batch(l, pv, t, sigs).0, Batch(l, pv, t, sigs).1)
  {
    if sigs != [] {
      var n := |sigs| - 1;
      var (before, out) := Batch(l, pv, t, sigs[..n]);
      BatchIsBooked(l, pv, t, sigs[..n]);
      StepAdds(l, pv, before, sigs[n]);
      BookedAdds(t, before, Step(l, pv, before, sigs[n]).0, out, Step(l, pv, before, sigs[n]).1);
    }
  }

  /** The start and the orders that go out stay within every cap, or within the start where that is above it. */
  ghost predicate WithinCaps(l: Limits, pv: real, first: Tracker, out: seq<Signal>, slack: real) {
    && first.exposure + OrderedTotal(out) <= Max(first.exposure, Max(0.0, Cap(pv, l.maxExposurePct))) + slack
    && forall x ::
         Held(first, x) + OrderedOf(out, x) <= Max(Held(first, x), Max(0.0, Cap(pv, l.maxPositionPct))) + slack
  }

  /** The orders sent on, not just the sizes booked: any batch without exits keeps the total and the symbol caps. */
  lemma {:induction false} OrdersWithinCaps(l: Limits, pv: real, t: Tracker, sigs: seq<Signal>)
    requires Keyed(t.positions) && NoExits(sigs)
    ensures var out := Batch(l, pv, t, sigs).1; WithinCaps(l, pv, t, out, TotalSlack(out))
  {
    BatchIsBooked(l, pv, t, sigs);
    BatchWithinBudget(l, pv, t, sigs);
    CapsAre(l, pv);
    BooksWithinCaps(l, pv, t, Batch(l, pv, t, sigs).0, Batch(l, pv, t, sigs).1);
  }

  lemma {:induction false} BooksWithinCaps(l: Limits, pv: real, first: Tracker, t: Tracker, out: seq<Signal>)
    requires Booked(first, t, out) && WithinBudget(l, pv, first, t)
    requires AssetCap(l, pv) == Cap(pv, l.maxPositionPct) && TotalCap(l, pv) == Cap(pv, l.maxExposurePct)
    ensures WithinCaps(l, pv, first, out, TotalSlack(out))
  {
  }

  /** Every order sent on, exits in the batch or not, keeps the trade cap where there is one. */
  lemma {:induction false} OrdersWithinTradeCap(l: Limits, pv: real, t: Tracker, sigs: seq<Signal>, k: nat)
    requires k < |sigs| && IsOrder(Batch(l, pv, t, sigs).1[k]) && Cap(pv, l.maxTradePct) > 0.0
    ensures var o := Batch(l, pv, t, sigs).1[k];
      Matches(o.qty, o.price, Room(l, pv, AtTurn(l, pv, t, sigs, k), sigs[k])) && WithinCap(o, Cap(pv, l.maxTradePct))
  {
    OutputAt(l, pv, t, sigs, k);
    OrderWithinTradeCap(l, pv, AtTurn(l, pv, t, sigs, k), sigs[k]);
  }

  lemma {:induction false} OrderWithinTradeCap(l: Limits, pv: real, t: Tracker, s: Signal)
    requires IsOrder(Step(l, pv, t, s).1) && Cap(pv, l.maxTradePct) > 0.0
    ensures var o := Step(l, pv, t, s).1;
      Matches(o.qty, o.price, Room(l, pv, t, s)) && WithinCap(o, Cap(pv, l.maxTradePct))
  {
    var (next, o) := Step(l, pv, t, s);
    OrderIsSized(l, pv, t, s);
    SizedEntryIsSent(l, pv, t, s);
    RoomWithinTradeCap(l, pv, t, s);
    CappedOrder(o, Room(l, pv, t, s), Cap(pv, l.maxTradePct));
  }

  lemma RoomWithinTradeCap(l: Limits, pv: real, t: Tracker, s: Signal)
    requires Cap(pv, l.maxTradePct) > 0.0
    ensures Room(l, pv, t, s) <= Cap(pv, l.maxTradePct)
  {
  }

  /** The order's notional keeps a cap, up to the rounding. */
  predicate WithinCap(o: Signal, cap: real) { o.qty * o.price <= cap + QTY_EPS * o.price }

  lemma {:induction false} OrderIsSized(l: Limits, pv: real, t: Tracker, s: Signal)
    requires IsOrder(Step(l, pv, t, s).1)
    ensures IsSized(l, s)
  {
  }

  lemma CappedOrder(o: Signal, booked: real, cap: real)
    requires Matches(o.qty, o.price, booked) && booked <= cap
    ensures WithinCap(o, cap)
  {
  }

  lemma {:induction false} OutputAt(l: Limits, pv: real, t: Tracker, sigs: seq<Signal>, k: nat)
    requires k < |sigs|
    ensures Batch(l, pv, t, sigs).1[k] == Step(l, pv, AtTurn(l, pv, t, sigs, k), sigs[k]).1
  {
    var n := |sigs| - 1;
    if k < n {
      OutputAt(l, pv, t, sigs[..n], k);
      assert sigs[..n][..k] == sigs[..k];
    }
  }
}

/** What the concentration layer sends on, said of the sizes that come out and the limits alone. */
module ConcentrationMeaning {
  import opened Common
  import opened OrderedDict
  import opened RiskSignals
  import opened ConcentrationLayer

  function SizeOf(o: Signal): real { if IsEntry(o.action) && o.sizePct.Some? then o.sizePct.value else 0.0 }

  function SizeIn(o: Signal, x: string): real { if o.sector == x then SizeOf(o) else 0.0 }

  function SentTotal(out: seq<Signal>): real {
    if out == [] then 0.0 else SentTotal(out[..|out| - 1]) + SizeOf(out[|out| - 1])
  }

  function SentIn(out: seq<Signal>, x: string): real {
    if out == [] then 0.0 else SentIn(out[..|out| - 1], x) + SizeIn(out[|out| - 1], x)
  }

  /** The most an entry may take: what it asks for, what is left of its sector, what is left above the cash reserve. */
  function Share(l: Limits, t: Tracker, s: Signal): real {
    var asked := match s.sizePct case Some(x) => x case None => 5.0;
    Min(Min(asked, l.maxSectorPct - GetOr(t.sectors, s.sector, 0.0)), 100.0 - t.total - l.minCashPct)
  }

  /** Sent on with all it may take, which is what is booked. */
  ghost predicate Sent(l: Limits, portfolio: seq<Holding>, t: Tracker, s: Signal, next: Tracker, o: Signal) {
    var share := Share(l, t, s);
    && o == s.(sizePct := Some(share)) && next.total == t.total + share
    && (forall x :: GetOr(next.sectors, x, 0.0) == GetOr(t.sectors, x, 0.0) + if x == s.sector then share else 0.0)
    && next.count == t.count + if Holds(portfolio, s.symbol) then 0 else 1
  }

  /** When an entry is refused: its symbol would be one too many, or its sector or the cash is used up. */
  predicate Refused(l: Limits, portfolio: seq<Holding>, t: Tracker, s: Signal) {
    var asked := match s.sizePct case Some(x) => x case None => 5.0;
    var room, cash := l.maxSectorPct - GetOr(t.sectors, s.sector, 0.0), 100.0 - t.total - l.minCashPct;
    || (!Holds(portfolio, s.symbol) && t.count >= l.maxPositions)
    || (asked > room && room <= 0.0)
    || (Min(asked, room) > cash && cash <= 0.0)
  }

  lemma {:induction false} EntryIsSent(l: Limits, portfolio: seq<Holding>, t: Tracker, s: Signal)
    requires IsEntry(s.action)
    ensures var (next, o) := Step(l, portfolio, t, s);
      if Refused(l, portfolio, t, s) then o.action == Cancelled && next == t
      else Sent(l, portfolio, t, s, next, o)
  {
    match SizeEntry(l, portfolio, t, s)
    case Rejected(_) =>
    case Sized(pct) =>
      forall x ensures GetOr(AfterEntry(portfolio, t, s, pct).sectors, x, 0.0)
                    == GetOr(t.sectors, x, 0.0) + if x == s.sector then pct else 0.0
      {
        PutGet(t.sectors, s.sector, GetOr(t.sectors, s.sector, 0.0) + pct, x);
      }
  }

  lemma {:induction false} SentLast(out: seq<Signal>, o: Signal)
    ensures SentTotal(out + [o]) == SentTotal(out) + SizeOf(o)
    ensures forall x :: SentIn(out + [o], x) == SentIn(out, x) + SizeIn(o, x)
  {
    assert (out + [o])[..|out|] == out;
  }

  /** Why it is refused, in the order the limits are looked at. */
  lemma {:induction false} RefusalExactly(l: Limits, portfolio: seq<Holding>, t: Tracker, s: Signal)
    requires IsEntry(s.action) && Refused(l, portfolio, t, s)
    ensures var room := l.maxSectorPct - GetOr(t.sectors, s.sector, 0.0);
      var asked := match s.sizePct case Some(x) => x case None => 5.0;
      Step(l, portfolio, t, s).1 == Cancel(s,
        if !Holds(portfolio, s.symbol) && t.count >= l.maxPositions then PositionsLimit
        else if asked > room && room <= 0.0 then SectorCap else CashReserve)
  {
  }

  ghost predicate Booked(first: Tracker, t: Tracker, out: seq<Signal>) {
    && t.total == first.total + SentTotal(out)
    && forall x :: GetOr(t.sectors, x, 0.0) == GetOr(first.sectors, x, 0.0) + SentIn(out, x)
  }

  lemma {:induction false} BookedStep(
    l: Limits, portfolio: seq<Holding>, first: Tracker, t: Tracker, out: seq<Signal>, s: Signal)
    requires Booked(first, t, out)
    ensures var (next, o) := Step(l, portfolio, t, s); Booked(first, next, out + [o])
  {
    var (next, o) := Step(l, portfolio, t, s);
    SentLast(out, o);
    if IsEntry(s.action) { EntryIsSent(l, portfolio, t, s); }
  }

  lemma {:induction false} BatchIsBooked(l: Limits, portfolio: seq<Holding>, t: Tracker, sigs: seq<Signal>)
    ensures Booked(t, Batch(l, portfolio, t, sigs).0, Batch(l, portfolio, t, sigs).1)
  {
    if sigs != [] {
      var n := |sigs| - 1;
      var (before, out) := Batch(l, portfolio, t, sigs[..n]);
      BatchIsBooked(l, portfolio, t, sigs[..n]);
      BookedStep(l, portfolio, t, before, out, sigs[n]);
    }
  }

  /** The sizes sent on: with the holdings they stay inside the sector limits and above the cash reserve. */
  lemma {:induction false} SizesWithinLimits(l: Limits, portfolio: seq<Holding>, sigs: seq<Signal>)
    ensures var out := Apply(l, portfolio, sigs);
      && (forall x :: SectorSum(portfolio, x) + SentIn(out, x) <= Max(SectorSum(portfolio, x), l.maxSectorPct))
      && SizeSum(portfolio) + SentTotal(out) <= Max(SizeSum(portfolio), 100.0 - l.minCashPct)
  {
    BeginIsKeyed(portfolio);
    BatchIsBooked(l, portfolio, Begin(portfolio), sigs);
    LayerWithinLimits(l, portfolio, sigs);
  }
}

/** What the drawdown layer does to an entry, said of the equity history and the thresholds alone. */
module DrawdownMeaning {
  import opened Common
  import opened RiskSignals
  import opened DrawdownLayer

  /** `drop` is how far, in percent, the last equity lies below the greatest. */
  ghost predicate IsDrop(equity: seq<real>, drop: real)
    requires equity != []
  {
    exists peak :: peak in equity && (forall e :: e in equity ==> e <= peak) && DropsTo(peak, equity[|equity| - 1], drop)
  }

  predicate DropsTo(peak: real, last: real, drop: real) {
    if peak > 0.0 then drop * peak == (peak - last) * 100.0 else drop == 0.0
  }

  lemma {:induction false} PeakIsGreatest(xs: seq<real>)
    requires xs != []
    ensures Peak(xs) in xs && forall x :: x in xs ==> x <= Peak(xs)
  {
    if |xs| > 1 {
      PeakIsGreatest(xs[..|xs| - 1]);
      assert xs == xs[..|xs| - 1] + [xs[|xs| - 1]];
    }
  }

  lemma DropsToQuotient(peak: real, last: real)
    requires peak > 0.0
    ensures DropsTo(peak, last, (peak - last) / peak * 100.0)
  {
    assert (peak - last) / peak * peak == peak - last;
  }

  lemma {:induction false} DrawdownIsDrop(equity: seq<real>)
    requires equity != []
    ensures IsDrop(equity, Drawdown(equity))
  {
    PeakIsGreatest(equity);
    if Peak(equity) > 0.0 { DropsToQuotient(Peak(equity), equity[|equity| - 1]); }
    assert DropsTo(Peak(equity), equity[|equity| - 1], Drawdown(equity));
  }

  lemma {:induction false} DropIsUnique(equity: seq<real>, a: real, b: real)
    requires equity != [] && IsDrop(equity, a) && IsDrop(equity, b)
    ensures a == b
  {
    var last := equity[|equity| - 1];
    var p :| p in equity && (forall e :: e in equity ==> e <= p) && DropsTo(p, last, a);
    var q :| q in equity && (forall e :: e in equity ==> e <= q) && DropsTo(q, last, b);
    assert p == q;
    if p > 0.0 { SameDrop(p, last, a, b); }
  }

  lemma SameDrop(peak: real, last: real, a: real, b: real)
    requires peak > 0.0 && DropsTo(peak, last, a) && DropsTo(peak, last, b)
    ensures a == b
  {
    assert (a - b) * peak == 0.0;
  }

  /** `loss` is the day's loss in percent since its open, which falls back to the first equity. */
  predicate IsLoss(b: Book, loss: real)
    requires b.equity != []
  {
    var open := if b.openToday > 0.0 then b.openToday else b.equity[0];
    var down := open - b.equity[|b.equity| - 1];
    if open > 0.0 && down > 0.0 then loss * open == down * 100.0 else loss == 0.0
  }

  lemma {:induction false} LossIsLoss(b: Book)
    requires b.equity != []
    ensures IsLoss(b, DailyLoss(if b.openToday > 0.0 then b.openToday else b.equity[0], b.equity[|b.equity| - 1]))
  {
    var open, last := if b.openToday > 0.0 then b.openToday else b.equity[0], b.equity[|b.equity| - 1];
    if open > 0.0 { LossQuotient(open, last); }
  }

  lemma LossQuotient(open: real, last: real)
    requires open > 0.0
    ensures if open - last > 0.0 then DailyLoss(open, last) * open == (open - last) * 100.0 else DailyLoss(open, last) == 0.0
  {
    var q := (open - last) / open;
    assert q * open == open - last;
    if open - last > 0.0 {
      QuotientPositive(open - last, open);
    } else if q > 0.0 {
      MulPositive(q, open);
    }
  }

  lemma {:induction false} LossIsUnique(b: Book, x: real, y: real)
    requires b.equity != [] && IsLoss(b, x) && IsLoss(b, y)
    ensures x == y
  {
    var open := if b.openToday > 0.0 then b.openToday else b.equity[0];
    if open > 0.0 { assert (x - y) * open == 0.0; }
  }

  /** Trading stops on the day's limit, the breaker, or while a tripped breaker has not recovered enough. */
  predicate Stops(th: Thresholds, b: Book, drop: real, loss: real) {
    || loss >= th.daily || drop >= th.breaker
    || (b.previous == Breaker && drop >= th.danger && b.worst - drop < th.recovery)
  }

  /** The part of its size an entry keeps while trading goes on. */
  function Kept(th: Thresholds, drop: real): real {
    if drop >= th.danger then 0.25 else if drop >= th.warning then 0.5 else 1.0
  }

  /** The money the entry stands for is scaled: the sizing result when there is one, or the plain amount. */
  ghost predicate ScaledBy(s: Signal, o: Signal, m: real) {
    if m == 1.0 then o == s
    else if s.kelly.Some? && s.kelly.value.positionUsd.Some? then
      && o.kelly.Some? && o.kelly.value.positionUsd == Some(s.kelly.value.positionUsd.value * m)
      && o.kelly.value.shares == Trunc(s.kelly.value.shares as real * m)
      && o == s.(kelly := o.kelly, reduced := true, multiplier := Some(m))
    else if s.positionUsd.Some? then
      o == s.(positionUsd := Some(s.positionUsd.value * m), reduced := true, multiplier := Some(m))
    else o == s
  }

  /** Exactly when an entry is stopped, and by how much it is cut otherwise, for any thresholds and any history. */
  lemma {:induction false} EntryFateExactly(th: Thresholds, b: Book, sigs: seq<Signal>, k: nat, drop: real, loss: real)
    requires b.equity != [] && IsDrop(b.equity, drop) && IsLoss(b, loss)
    requires k < |sigs| && IsEntry(sigs[k].action)
    ensures var o := Apply(th, b, sigs)[k];
      && (o.action == Cancelled <==> Stops(th, b, drop, loss))
      && (o.action != Cancelled ==> ScaledBy(sigs[k], o, Kept(th, drop)))
  {
    DrawdownIsDrop(b.equity);
    DropIsUnique(b.equity, drop, Drawdown(b.equity));
    var measured := DailyLoss(if b.openToday > 0.0 then b.openToday else b.equity[0], b.equity[|b.equity| - 1]);
    LossIsLoss(b);
    LossIsUnique(b, loss, measured);
    GradedFate(th, b, sigs[k], drop, loss);
    assert Evaluate(th, b) == Grade(th, drop, loss, b.previous, b.worst);
  }

  lemma GradedFate(th: Thresholds, b: Book, s: Signal, drop: real, loss: real)
    requires IsEntry(s.action)
    ensures var o := Step(Grade(th, drop, loss, b.previous, b.worst), s);
      && (o.action == Cancelled <==> Stops(th, b, drop, loss))
      && (o.action != Cancelled ==> ScaledBy(s, o, Kept(th, drop)))
  {
  }
}

/** What leaves the whole pipeline. */
module PipelineMeaning {
  import opened Common
  import opened RiskSignals
  import opened RiskPipeline
  import E = ExposureLayer
  import C = ConcentrationLayer
  import K = CorrelationLayer
  import D = DrawdownLayer
  import EM = ExposureMeaning
  import DM = DrawdownMeaning
  import CM = ConcentrationMeaning

  // ---- the caps hold to the end ----

  lemma ThinnerOrdersLess(o: Signal, s: Signal)
    requires Thinner(o, s)
    ensures EM.Ordered(o) <= EM.Ordered(s)
    ensures forall x :: EM.OrderedIn(o, x) <= EM.OrderedIn(s, x)
  {
    if EM.IsOrder(o) { MulMono(o.price, o.qty, s.qty); }
    if EM.IsOrder(s) { MulPositive(s.qty, s.price); }
  }

  lemma OrderedIsNonNegative(s: Signal)
    ensures EM.Ordered(s) >= 0.0
  {
    if EM.IsOrder(s) { MulPositive(s.qty, s.price); }
  }

  /** Leaving signals out and thinning the others lowers what is ordered. */
  lemma {:induction false} ThinnedOrdersLess(a: seq<Signal>, b: seq<Signal>)
    requires Thinned(a, b)
    ensures EM.OrderedTotal(a) <= EM.OrderedTotal(b) && forall x :: EM.OrderedOf(a, x) <= EM.OrderedOf(b, x)
  {
    if b != [] {
      var t := b[|b| - 1];
      OrderedIsNonNegative(t);
      if a == [] || Thinned(a, b[..|b| - 1]) {
        ThinnedOrdersLess(a, b[..|b| - 1]);
      } else {
        ThinnedOrdersLess(a[..|a| - 1], b[..|b| - 1]);
        ThinnerOrdersLess(a[|a| - 1], t);
      }
    }
  }

  /** What is cancelled orders nothing. */
  lemma {:induction false} OnlyActiveOrder(x: seq<Signal>)
    ensures EM.OrderedTotal(Active(x)) == EM.OrderedTotal(x)
    ensures forall s :: EM.OrderedOf(Active(x), s) == EM.OrderedOf(x, s)
  {
    if x != [] {
      var n := |x| - 1;
      OnlyActiveOrder(x[..n]);
      if x[n].action.Cancelled? {
        assert Active(x) == Active(x[..n]) && EM.Ordered(x[n]) == 0.0;
      } else {
        EM.OrderedLast(Active(x[..n]), x[n]);
      }
    }
  }

  lemma {:induction false} LaterLayersConserve(s: Setup, y: seq<Signal>)
    ensures Conserved(y, Layer4(s, Layer3(s, Layer2(s, y))))
  {
    ConservedSelf(y);
    var kept := C.Apply(s.concentration, s.portfolio, Active(y));
    ConcentrationPointwise(s.concentration, s.portfolio, C.Begin(s.portfolio), Active(y));
    LayerConserves(y, y, kept, s.concentrationOn, Layer2(s, y));
    LastLayers(s, y, Layer2(s, y));
  }

  lemma {:induction false} ConservedOrdersLess(x: seq<Signal>, y: seq<Signal>)
    requires Conserved(x, y)
    ensures EM.OrderedTotal(y) <= EM.OrderedTotal(x) && forall s :: EM.OrderedOf(y, s) <= EM.OrderedOf(x, s)
  {
    OnlyActiveOrder(x);
    OnlyActiveOrder(y);
    ThinnedOrdersLess(Active(y), Active(x));
  }

  /**
   * Whatever the other layers do, the orders that leave the hook stay within the exposure layer's total
   * and symbol caps, up to its rounding.
   */
  lemma {:induction false} PipelineWithinCaps(s: Setup, pending: seq<Signal>)
    requires s.exposureOn && EM.NoExits(pending)
    ensures var slack := EM.TotalSlack(Layer1(s, pending));
      EM.WithinCaps(s.exposure, s.portfolioValue, E.Begin(s.positions), Pipeline(s, pending), slack)
  {
    var y := Layer1(s, pending);
    E.BeginIsConsistent(s.positions);
    EM.OrdersWithinCaps(s.exposure, s.portfolioValue, E.Begin(s.positions), pending);
    if pending != [] {
      LaterLayersConserve(s, y);
      ConservedOrdersLess(y, Pipeline(s, pending));
    }
  }

  // ---- what survives ----

  /** Some held symbol moves with the candidate, as far as both have a series. */
  ghost predicate MovesWithHeld(d: K.Data, open: seq<string>, candidate: string) {
    exists held :: held in open && candidate in d.series && held in d.series
      && Abs(d.corr(d.series[candidate], d.series[held])) >= d.limit
  }

  /** A long is stopped by the correlation layer exactly when some held symbol moves with it; nothing else changes. */
  lemma {:induction false} CorrelationExactly(d: K.Data, open: seq<string>, sigs: seq<Signal>, k: nat)
    requires k < |sigs|
    ensures var s, o := sigs[k], K.Apply(d, open, sigs)[k];
      if s.action.Long? && |d.series| >= 2 && MovesWithHeld(d, open, s.symbol) then o == Cancel(s, Correlated)
      else o == s
  {
    if open != [] && |d.series| >= 2 { BlockedMoves(d, open, sigs[k].symbol); }
  }

  lemma {:induction false} BlockedMoves(d: K.Data, open: seq<string>, candidate: string)
    ensures K.Blocked(d, open, candidate) <==> MovesWithHeld(d, open, candidate)
  {
    if held :| held in open && candidate in d.series && held in d.series
               && Abs(d.corr(d.series[candidate], d.series[held])) >= d.limit {
      var j :| 0 <= j < |open| && open[j] == held;
      assert K.Tied(d, candidate, open[j]);
    }
    if j :| 0 <= j < |open| && K.Tied(d, candidate, open[j]) { assert open[j] in open; }
  }

  /** The history the breaker goes by: without one, the portfolio value stands for it when it is positive. */
  ghost predicate IsHistory(s: Setup, b: D.Book) {
    && b.openToday == s.book.openToday && b.previous == s.book.previous && b.worst == s.book.worst
    && b.equity == if s.book.equity == [] && s.portfolioValue > 0.0 then [s.portfolioValue] else s.book.equity
  }

  /** An entry that leaves the hook was not stopped by the breaker. */
  lemma {:induction false} SurvivorsTradeOn(
    s: Setup, pending: seq<Signal>, o: Signal, b: D.Book, drop: real, loss: real)
    requires s.drawdownOn && o in Pipeline(s, pending) && IsEntry(o.action)
    requires IsHistory(s, b) && b.equity != [] && DM.IsDrop(b.equity, drop) && DM.IsLoss(b, loss)
    ensures !DM.Stops(s.thresholds, b, drop, loss)
  {
    assert b == BookFor(s);
    var z := Layer3(s, Layer2(s, Layer1(s, pending)));
    var kept := D.Apply(s.thresholds, BookFor(s), Active(z));
    ActivePure(z);
    assert o in kept;
    var k :| 0 <= k < |kept| && kept[k] == o;
    assert IsEntry(Active(z)[k].action);
    DM.EntryFateExactly(s.thresholds, BookFor(s), Active(z), k, drop, loss);
  }

  /** A long that leaves the hook moves with nothing in the portfolio. */
  lemma {:induction false} SurvivorsAreUncorrelated(s: Setup, pending: seq<Signal>, o: Signal, h: C.Holding)
    requires s.correlationOn && |s.correlation.series| >= 2 && o in Pipeline(s, pending) && o.action.Long?
    requires h in s.portfolio
    ensures !MovesWithHeld(s.correlation, [h.symbol], o.symbol)
  {
    var at :| 0 <= at < |s.portfolio| && s.portfolio[at] == h;
    assert OpenSymbols(s.portfolio)[at] == h.symbol;
    var y := Layer2(s, Layer1(s, pending));
    var z := Layer3(s, y);
    var k := LastLayerSource(s, z, o);
    var kept := K.Apply(s.correlation, OpenSymbols(s.portfolio), Active(y));
    ActivePure(y);
    assert z[k] in kept;
    var j :| 0 <= j < |kept| && kept[j] == z[k];
    CorrelationExactly(s.correlation, OpenSymbols(s.portfolio), Active(y), j);
  }

  /** A survivor of the last layer is one of the signals given to it. */
  lemma {:induction false} LastLayerSource(s: Setup, z: seq<Signal>, o: Signal) returns (k: nat)
    requires o in Layer4(s, z) && IsEntry(o.action)
    ensures k < |z| && z[k].action == o.action && z[k].symbol == o.symbol
  {
    if s.drawdownOn {
      var kept := D.Apply(s.thresholds, BookFor(s), Active(z));
      ActivePure(z);
      assert o in kept;
      var j :| 0 <= j < |kept| && kept[j] == o;
      DrawdownPointwise(s.thresholds, BookFor(s), Active(z));
      assert Fate(Active(z)[j], kept[j]);
      ActiveAreIn(z, Active(z)[j]);
      k :| k < |z| && z[k] == Active(z)[j];
    } else {
      k :| k < |z| && z[k] == o;
    }
  }

  lemma {:induction false} ActiveAreIn(z: seq<Signal>, x: Signal)
    requires x in Active(z)
    ensures x in z
  {
    var n := |z| - 1;
    if x in Active(z[..n]) { ActiveAreIn(z[..n], x); }
  }

  // ---- the sector and cash limits hold to the end ----

  /** No entry asks for a negative size. */
  ghost predicate SanelySized(sigs: seq<Signal>) {
    forall j :: 0 <= j < |sigs| && sigs[j].sizePct.Some? ==> sigs[j].sizePct.value >= 0.0
  }

  /** A layer after the concentration layer keeps a signal's sector and its size, or cancels it. */
  ghost predicate Keeps(s: Signal, o: Signal) {
    o.sector == s.sector && o.sizePct == s.sizePct && (o.action == s.action || o.action == Cancelled)
  }

  ghost predicate AllKeep(x: seq<Signal>, y: seq<Signal>) {
    |x| == |y| && forall j :: 0 <= j < |x| ==> Keeps(x[j], y[j])
  }

  lemma {:induction false} KeptSizes(x: seq<Signal>, y: seq<Signal>)
    requires AllKeep(x, y) && SanelySized(x)
    ensures SanelySized(y) && CM.SentTotal(y) <= CM.SentTotal(x) && forall k :: CM.SentIn(y, k) <= CM.SentIn(x, k)
  {
    if x != [] {
      var n := |x| - 1;
      assert forall j :: 0 <= j < n ==> Keeps(x[..n][j], y[..n][j]) by {
        forall j | 0 <= j < n ensures Keeps(x[..n][j], y[..n][j]) { assert Keeps(x[j], y[j]); }
      }
      KeptSizes(x[..n], y[..n]);
      assert Keeps(x[n], y[n]);
    }
  }

  lemma {:induction false} SizesOfActive(x: seq<Signal>)
    ensures CM.SentTotal(Active(x)) == CM.SentTotal(x) && forall k :: CM.SentIn(Active(x), k) == CM.SentIn(x, k)
  {
    if x != [] {
      var n := |x| - 1;
      SizesOfActive(x[..n]);
      if !x[n].action.Cancelled? { CM.SentLast(Active(x[..n]), x[n]); } else { assert Active(x) == Active(x[..n]); }
    }
  }

  lemma {:induction false} ActiveIsSane(x: seq<Signal>)
    requires SanelySized(x)
    ensures SanelySized(Active(x))
  {
    forall j | 0 <= j < |Active(x)| && Active(x)[j].sizePct.Some? ensures Active(x)[j].sizePct.value >= 0.0 {
      ActiveAreIn(x, Active(x)[j]);
      var k :| 0 <= k < |x| && x[k] == Active(x)[j];
    }
  }

  lemma {:induction false} SizesOfInactive(x: seq<Signal>, y: seq<Signal>)
    requires forall j :: 0 <= j < |x| ==> x[j].action.Cancelled?
    ensures CM.SentTotal(x + y) == CM.SentTotal(y) && forall k :: CM.SentIn(x + y, k) == CM.SentIn(y, k)
  {
    if y == [] {
      assert x + y == x;
      CancelledSendNothing(x);
    } else {
      var n := |y| - 1;
      SizesOfInactive(x, y[..n]);
      assert x + y == (x + y[..n]) + [y[n]];
      CM.SentLast(x + y[..n], y[n]);
    }
  }

  lemma {:induction false} CancelledSendNothing(x: seq<Signal>)
    requires forall j :: 0 <= j < |x| ==> x[j].action.Cancelled?
    ensures CM.SentTotal(x) == 0.0 && forall k :: CM.SentIn(x, k) == 0.0
  {
    if x != [] { CancelledSendNothing(x[..|x| - 1]); }
  }

  /** A stage whose layer keeps sizes sends no more than it was given. */
  lemma {:induction false} StageSendsLess(y: seq<Signal>, kept: seq<Signal>)
    requires SanelySized(Active(y)) && AllKeep(Active(y), kept)
    ensures var z := Inactive(y) + kept;
      && CM.SentTotal(z) <= CM.SentTotal(y) && (forall k :: CM.SentIn(z, k) <= CM.SentIn(y, k))
      && SanelySized(Active(z))
  {
    SizesOfActive(y);
    KeptSizes(Active(y), kept);
    ActivePure(y);
    SizesOfInactive(Inactive(y), kept);
    ActiveConcat(Inactive(y), kept);
    AllInactive(Inactive(y));
    assert Active(Inactive(y) + kept) == Active(kept);
    ActiveIsSane(kept);
  }

  /** No sector and not the whole book outgrows its limit, or what was held where that is more. */
  ghost predicate WithinShares(s: Setup, out: seq<Signal>) {
    && (forall k :: C.SectorSum(s.portfolio, k) + CM.SentIn(out, k)
                    <= Max(C.SectorSum(s.portfolio, k), s.concentration.maxSectorPct))
    && C.SizeSum(s.portfolio) + CM.SentTotal(out)
       <= Max(C.SizeSum(s.portfolio), 100.0 - s.concentration.minCashPct)
  }

  /** Whatever the first layer and the last two do, the sizes that leave the hook respect sectors and cash. */
  lemma {:induction false} PipelineWithinShares(s: Setup, pending: seq<Signal>)
    requires s.concentrationOn && SanelySized(pending)
    ensures WithinShares(s, Pipeline(s, pending))
  {
    if pending == [] {
      assert Pipeline(s, pending) == [];
    } else {
      var x := Layer1(s, pending);
      var y := Layer2(s, x);
      FirstLayerKeepsSizes(s, pending);
      SecondLayerWithinShares(s, x);
      LastLayersSendLess(s, y);
    }
  }

  lemma {:induction false} FirstLayerKeepsSizes(s: Setup, x: seq<Signal>)
    requires SanelySized(x)
    ensures SanelySized(Layer1(s, x))
  {
    if s.exposureOn { ExposureKeepsSizes(s.exposure, s.portfolioValue, E.Begin(s.positions), x); }
  }

  lemma {:induction false} ExposureKeepsSizes(l: E.Limits, pv: real, t: E.Tracker, sigs: seq<Signal>)
    ensures AllKeep(sigs, E.Batch(l, pv, t, sigs).1)
    ensures SanelySized(sigs) ==> SanelySized(E.Batch(l, pv, t, sigs).1)
  {
    if sigs != [] {
      var n := |sigs| - 1;
      ExposureKeepsSizes(l, pv, t, sigs[..n]);
      var before := E.Batch(l, pv, t, sigs[..n]);
      E.StepFate(l, pv, before.0, sigs[n]);
      forall j | 0 <= j < |sigs| ensures Keeps(sigs[j], E.Batch(l, pv, t, sigs).1[j]) {
        if j < n { assert Keeps(sigs[..n][j], before.1[j]); }
      }
      forall j | 0 <= j < |sigs| ensures E.Batch(l, pv, t, sigs).1[j].sizePct == sigs[j].sizePct {
        assert Keeps(sigs[j], E.Batch(l, pv, t, sigs).1[j]);
      }
    }
  }

  lemma {:induction false} SecondLayerWithinShares(s: Setup, x: seq<Signal>)
    requires s.concentrationOn && SanelySized(x)
    ensures WithinShares(s, Layer2(s, x)) && SanelySized(Active(Layer2(s, x)))
  {
    var kept := C.Apply(s.concentration, s.portfolio, Active(x));
    CM.SizesWithinLimits(s.concentration, s.portfolio, Active(x));
    ActivePure(x);
    SizesOfInactive(Inactive(x), kept);
    ActiveConcat(Inactive(x), kept);
    AllInactive(Inactive(x));
    assert Active(Inactive(x) + kept) == Active(kept);
    ActiveIsSane(x);
    ConcentrationSizesSanely(s.concentration, s.portfolio, C.Begin(s.portfolio), Active(x));
    ActiveIsSane(kept);
  }

  lemma {:induction false} ConcentrationSizesSanely(l: C.Limits, p: seq<C.Holding>, t: C.Tracker, sigs: seq<Signal>)
    requires SanelySized(sigs)
    ensures SanelySized(C.Batch(l, p, t, sigs).1)
  {
    if sigs != [] {
      var n := |sigs| - 1;
      ConcentrationSizesSanely(l, p, t, sigs[..n]);
      var before := C.Batch(l, p, t, sigs[..n]);
      if IsEntry(sigs[n].action) { CM.EntryIsSent(l, p, before.0, sigs[n]); }
    }
  }

  lemma {:induction false} LastLayersSendLess(s: Setup, y: seq<Signal>)
    requires WithinShares(s, y) && SanelySized(Active(y))
    ensures WithinShares(s, Layer4(s, Layer3(s, y)))
  {
    var z := Layer3(s, y);
    if s.correlationOn {
      var kept := K.Apply(s.correlation, OpenSymbols(s.portfolio), Active(y));
      CorrelationKeepsSizes(s.correlation, OpenSymbols(s.portfolio), Active(y));
      StageSendsLess(y, kept);
    }
    if s.drawdownOn {
      var kept := D.Apply(s.thresholds, BookFor(s), Active(z));
      DrawdownKeepsSizes(s.thresholds, BookFor(s), Active(z));
      StageSendsLess(z, kept);
    }
  }

  lemma {:induction false} CorrelationKeepsSizes(d: K.Data, open: seq<string>, x: seq<Signal>)
    ensures AllKeep(x, K.Apply(d, open, x))
  {
  }

  lemma {:induction false} DrawdownKeepsSizes(th: D.Thresholds, b: D.Book, x: seq<Signal>)
    ensures AllKeep(x, D.Apply(th, b, x))
  {
  }

  // ---- one layer alone ----

  /** With nothing cancelled beforehand, a hook with one layer switched on is that layer; with none it is nothing. */
  lemma {:induction false} EachLayerAlone(s: Setup, x: seq<Signal>)
    requires forall j :: 0 <= j < |x| ==> !x[j].action.Cancelled?
    ensures var off := s.(exposureOn := false, concentrationOn := false, correlationOn := false, drawdownOn := false);
      && Pipeline(off, x) == x
      && (x != [] ==>
          && Pipeline(off.(exposureOn := true), x) == E.Apply(s.exposure, s.portfolioValue, s.positions, x)
          && Pipeline(off.(concentrationOn := true), x) == C.Apply(s.concentration, s.portfolio, x)
          && Pipeline(off.(correlationOn := true), x) == K.Apply(s.correlation, OpenSymbols(s.portfolio), x)
          && Pipeline(off.(drawdownOn := true), x) == D.Apply(s.thresholds, BookFor(s), x))
  {
    AllActive(x);
  }
}
