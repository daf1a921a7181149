/** Daily bars regrouped into months or weeks, and the `get_ohlcv` tool over them. */
module Resampler {
  import opened Common

  datatype Bar = Bar(
    date: Option<string>, ts: Option<string>, open: Option<real>, high: Option<real>,
    low: Option<real>, close: Option<real>, volume: Option<real>)

  /** `parse` reads a day number from the first ten characters; `key` is the period a day belongs to. */
  datatype Calendar = Calendar(parse: string -> Option<int>, key: int -> int)

  /** The one thing the model needs of date parsing: an empty text is not a date. */
  ghost predicate Sound(c: Calendar) { c.parse("").None? }

  function Raw(b: Bar): Option<string> { if b.date.Some? then b.date else b.ts }

  function Day(c: Calendar, b: Bar): Option<int> {
    match Raw(b) case None => None case Some(s) => c.parse(s)
  }

  function Key(c: Calendar, b: Bar): Option<int> {
    match Day(c, b) case None => None case Some(d) => Some(c.key(d))
  }

  // ---- timeframes ----

  datatype Period = Daily | Monthly | Weekly

  const MONTHLY: set<string> := {"1month", "1mo", "1m", "month", "monthly"}
  const WEEKLY: set<string> := {"1week", "1w", "week", "weekly"}

  function Lower(s: string): string {
    if s == "" then ""
    else [if 'A' <= s[0] <= 'Z' then s[0] - 'A' + 'a' else s[0]] + Lower(s[1..])
  }

  /** An absent or unknown timeframe is daily. */
  function PeriodOf(timeframe: Option<string>): Period {
    var tf := match timeframe { case Some(t) => Lower(Strip(t)) case None => "1d" };
    if tf in MONTHLY then Monthly else if tf in WEEKLY then Weekly else Daily
  }

  // ---- one output bar from a group ----

  datatype Field = High | Low | Volume

  function Get(f: Field, b: Bar): Option<real> {
    match f case High => b.high case Low => b.low case Volume => b.volume
  }

  function Known(f: Field, group: seq<Bar>): seq<real> {
    if group == [] then []
    else
      var last := Get(f, group[|group| - 1]);
      Known(f, group[..|group| - 1]) + (if last.Some? then [last.value] else [])
  }

  function Combine(f: Field, a: real, b: real): real {
    match f case High => Max(a, b) case Low => Min(a, b) case Volume => a + b
  }

  /** The greatest, the least, or the sum. */
  function Reduce(f: Field, xs: seq<real>): real
    requires xs != []
  {
    if |xs| == 1 then xs[0] else Combine(f, Reduce(f, xs[..|xs| - 1]), xs[|xs| - 1])
  }

  function Over(f: Field, group: seq<Bar>): Option<real>
    requires group != []
  {
    var xs := Known(f, group);
    if xs != [] then Some(Reduce(f, xs)) else Get(f, group[|group| - 1])
  }

  function Merge(group: seq<Bar>): Bar
    requires group != []
  {
    var first, last := group[0], group[|group| - 1];
    Bar(if last.date.Some? && last.date.value != "" then last.date else last.ts, None,
        first.open, Over(High, group), Over(Low, group), last.close, Over(Volume, group))
  }

  // ---- the specification: period keys in order of first appearance, and the bars of each ----

  function Dated(c: Calendar, bars: seq<Bar>): seq<Bar> {
    if bars == [] then []
    else
      var b := bars[|bars| - 1];
      Dated(c, bars[..|bars| - 1]) + (if Key(c, b).Some? then [b] else [])
  }

  function AddKey(known: seq<int>, k: Option<int>): seq<int> {
    if k.None? || k.value in known then known else known + [k.value]
  }

  function Order(c: Calendar, bars: seq<Bar>): seq<int> {
    if bars == [] then [] else AddKey(Order(c, bars[..|bars| - 1]), Key(c, bars[|bars| - 1]))
  }

  function IfIn(c: Calendar, b: Bar, k: int): seq<Bar> { if Key(c, b) == Some(k) then [b] else [] }

  function Group(c: Calendar, bars: seq<Bar>, k: int): seq<Bar> {
    if bars == [] then [] else Group(c, bars[..|bars| - 1], k) + IfIn(c, bars[|bars| - 1], k)
  }

  lemma {:induction false} GroupNonEmpty(c: Calendar, bars: seq<Bar>, k: int)
    ensures k in Order(c, bars) <==> Group(c, bars, k) != []
  {
    if bars != [] { GroupNonEmpty(c, bars[..|bars| - 1], k); }
  }

  function PeriodBar(c: Calendar, bars: seq<Bar>, k: int): Bar
    requires k in Order(c, bars)
  {
    GroupNonEmpty(c, bars, k);
    Merge(Group(c, bars, k))
  }

  function Resampled(c: Calendar, bars: seq<Bar>): seq<Bar> {
    var order := Order(c, bars);
    seq(|order|, i requires 0 <= i < |order| => PeriodBar(c, bars, order[i]))
  }

  ghost predicate Filled(c: Calendar, bars: seq<Bar>, groups: map<int, seq<Bar>>, order: seq<int>) {
    && order == Order(c, bars)
    && (forall k :: k in groups <==> k in order)
    && (forall k :: k in groups ==> groups[k] == Group(c, bars, k))
  }

  /** The dictionary after one bar. */
  function Put(c: Calendar, groups: map<int, seq<Bar>>, b: Bar): map<int, seq<Bar>> {
    match Key(c, b)
    case None => groups
    case Some(k) => groups[k := (if k in groups then groups[k] else []) + [b]]
  }

  lemma {:induction false} FilledStep(
    c: Calendar, bars: seq<Bar>, groups: map<int, seq<Bar>>, order: seq<int>, b: Bar)
    requires Filled(c, bars, groups, order)
    ensures Filled(c, bars + [b], Put(c, groups, b), AddKey(order, Key(c, b)))
  {
    assert (bars + [b])[..|bars|] == bars;
    forall k ensures Group(c, bars + [b], k) == Group(c, bars, k) + IfIn(c, b, k) {
    }
    if Key(c, b).Some? { GroupNonEmpty(c, bars, Key(c, b).value); }
  }

  method FillGroups(c: Calendar, bars: seq<Bar>) returns (groups: map<int, seq<Bar>>, order: seq<int>)
    ensures Filled(c, bars, groups, order)
  {
    groups, order := map[], [];
    for i := 0 to |bars|
      invariant Filled(c, bars[..i], groups, order)
    {
      FilledStep(c, bars[..i], groups, order, bars[i]);
      assert bars[..i + 1] == bars[..i] + [bars[i]];
      var d := Key(c, bars[i]);
      if d.Some? {
        var k := d.value;
        if k !in groups { groups := groups[k := []]; order := order + [k]; }
        groups := groups[k := groups[k] + [bars[i]]];
      }
    }
    assert bars[..|bars|] == bars;
  }

  /** The dictionary of groups filled in one pass, then one bar per key in order of arrival. */
  method ResampleBars(c: Calendar, bars: seq<Bar>) returns (out: seq<Bar>)
    ensures out == Resampled(c, bars)
  {
    var groups, order := FillGroups(c, bars);
    out := [];
    for j := 0 to |order|
      invariant out == Resampled(c, bars)[..j]
    {
      var bar := MergeGroup(c, bars, groups, order, j);
      TakeNext(Resampled(c, bars), j);
      out := out + [bar];
    }
  }

  method MergeGroup(c: Calendar, bars: seq<Bar>, groups: map<int, seq<Bar>>, order: seq<int>, j: nat)
    returns (bar: Bar)
    requires Filled(c, bars, groups, order) && j < |order|
    ensures bar == Resampled(c, bars)[j]
  {
    var k := order[j];
    GroupNonEmpty(c, bars, k);
    bar := Merge(groups[k]);
  }

  lemma TakeNext(s: seq<Bar>, j: nat)
    requires j < |s|
    ensures s[..j + 1] == s[..j] + [s[j]]
  {
  }

  // ---- the tool ----

  datatype Calendars = Calendars(parse: string -> Option<int>, month: int -> int, week: int -> int)

  function AtTimeframe(cs: Calendars, bars: seq<Bar>, timeframe: Option<string>): seq<Bar> {
    match PeriodOf(timeframe)
    case Daily => bars
    case Monthly => Resampled(Calendar(cs.parse, cs.month), bars)
    case Weekly => Resampled(Calendar(cs.parse, cs.week), bars)
  }

  /** Python's `bars[k:]`. */
  function SliceFrom<T>(s: seq<T>, k: int): seq<T> {
    if k >= 0 then s[MinInt(k, |s|)..] else s[MaxInt(0, |s| + k)..]
  }

  function TailLimit(bars: seq<Bar>, limit: Option<int>): seq<Bar> {
    if limit.Some? && |bars| > limit.value then SliceFrom(bars, -limit.value) else bars
  }

  method GetOhlcv(cs: Calendars, bars: seq<Bar>, timeframe: Option<string>, limit: Option<int>) returns (r: seq<Bar>)
    ensures r == TailLimit(AtTimeframe(cs, bars, timeframe), limit)
  {
    r := bars;
    match PeriodOf(timeframe) {
      case Daily =>
      case Monthly => r := ResampleBars(Calendar(cs.parse, cs.month), bars);
      case Weekly => r := ResampleBars(Calendar(cs.parse, cs.week), bars);
    }
    if limit.Some? && |r| > limit.value { r := SliceFrom(r, -limit.value); }
  }
}

module ResamplerProofs {
  import opened Common
  import opened Resampler

  // ---- one more bar changes one output bar ----

  lemma {:induction false} OrderDistinct(c: Calendar, bars: seq<Bar>)
    ensures Distinct(Order(c, bars))
  {
    if bars != [] { OrderDistinct(c, bars[..|bars| - 1]); }
  }

  lemma {:induction false} GroupsAfter(c: Calendar, bars: seq<Bar>, b: Bar, k: int)
    ensures Group(c, bars + [b], k) == Group(c, bars, k) + IfIn(c, b, k)
  {
    assert (bars + [b])[..|bars|] == bars;
  }

  lemma {:induction false} OrderAfter(c: Calendar, bars: seq<Bar>, b: Bar)
    ensures Order(c, bars + [b]) == AddKey(Order(c, bars), Key(c, b))
  {
    assert (bars + [b])[..|bars|] == bars;
  }

  /** A bar leaves every other period alone. */
  lemma {:induction false} OtherPeriods(c: Calendar, bars: seq<Bar>, b: Bar, k: int)
    requires k in Order(c, bars) && Key(c, b) != Some(k)
    ensures k in Order(c, bars + [b]) && PeriodBar(c, bars + [b], k) == PeriodBar(c, bars, k)
  {
    OrderAfter(c, bars, b);
    GroupsAfter(c, bars, b, k);
    assert Group(c, bars + [b], k) == Group(c, bars, k);
  }

  lemma {:induction false} UndatedBar(c: Calendar, bars: seq<Bar>, b: Bar)
    requires Key(c, b).None?
    ensures Resampled(c, bars + [b]) == Resampled(c, bars)
  {
    OrderAfter(c, bars, b);
    forall k | k in Order(c, bars) ensures PeriodBar(c, bars + [b], k) == PeriodBar(c, bars, k) {
      OtherPeriods(c, bars, b, k);
    }
  }

  lemma {:induction false} OneMore(before: seq<Bar>, after: seq<Bar>, x: Bar)
    requires |after| == |before| + 1 && after[|before|] == x
    requires forall i :: 0 <= i < |before| ==> after[i] == before[i]
    ensures after == before + [x]
  {
  }

  lemma {:induction false} FirstBarOfPeriod(c: Calendar, bars: seq<Bar>, b: Bar)
    requires Key(c, b).Some? && Key(c, b).value !in Order(c, bars)
    ensures Resampled(c, bars + [b]) == Resampled(c, bars) + [Merge([b])]
  {
    var order, k := Order(c, bars), Key(c, b).value;
    OrderAfter(c, bars, b);
    GroupsAfter(c, bars, b, k);
    GroupNonEmpty(c, bars, k);
    assert Group(c, bars + [b], k) == [b];
    var before, after := Resampled(c, bars), Resampled(c, bars + [b]);
    forall i | 0 <= i < |order| ensures after[i] == before[i] {
      OtherPeriods(c, bars, b, order[i]);
    }
    OneMore(before, after, Merge([b]));
  }

  lemma {:induction false} NextBarOfPeriod(c: Calendar, bars: seq<Bar>, b: Bar, i: nat)
    requires i < |Order(c, bars)| && Key(c, b) == Some(Order(c, bars)[i])
    ensures Resampled(c, bars + [b]) ==
            Resampled(c, bars)[i := Merge(Group(c, bars, Order(c, bars)[i]) + [b])]
  {
    var order := Order(c, bars);
    OrderAfter(c, bars, b);
    OrderDistinct(c, bars);
    GroupsAfter(c, bars, b, order[i]);
    var before, after := Resampled(c, bars), Resampled(c, bars + [b]);
    forall j | 0 <= j < |order| && j != i ensures after[j] == before[j] {
      OtherPeriods(c, bars, b, order[j]);
    }
    OneChanged(before, after, i, Merge(Group(c, bars, order[i]) + [b]));
  }

  lemma {:induction false} OneChanged(before: seq<Bar>, after: seq<Bar>, i: nat, x: Bar)
    requires i < |before| == |after| && after[i] == x
    requires forall j :: 0 <= j < |before| && j != i ==> after[j] == before[j]
    ensures after == before[i := x]
  {
  }

  // ---- conservation ----

  /** Combination of optional values, where an absent one contributes nothing. */
  function Join(f: Field, a: Option<real>, b: Option<real>): Option<real> {
    if a.None? then b else if b.None? then a else Some(Combine(f, a.value, b.value))
  }

  function Overall(f: Field, bars: seq<Bar>): Option<real> {
    if bars == [] then None else Join(f, Overall(f, bars[..|bars| - 1]), Get(f, bars[|bars| - 1]))
  }

  lemma {:induction false} ReduceAfter(f: Field, xs: seq<real>, v: real)
    ensures Reduce(f, xs + [v]) == if xs == [] then v else Combine(f, Reduce(f, xs), v)
  {
    assert (xs + [v])[..|xs|] == xs;
  }

  lemma {:induction false} KnownIsOverall(f: Field, group: seq<Bar>)
    ensures Overall(f, group) == (if Known(f, group) == [] then None else Some(Reduce(f, Known(f, group))))
    ensures Known(f, group) == [] && group != [] ==> Get(f, group[|group| - 1]).None?
  {
    if group != [] {
      var init, last := group[..|group| - 1], Get(f, group[|group| - 1]);
      KnownIsOverall(f, init);
      if last.Some? {
        assert Known(f, group) == Known(f, init) + [last.value];
        ReduceAfter(f, Known(f, init), last.value);
      } else {
        assert Known(f, group) == Known(f, init);
      }
    }
  }

  lemma {:induction false} MergeIsOverall(f: Field, group: seq<Bar>)
    requires group != []
    ensures Get(f, Merge(group)) == Overall(f, group)
  {
    KnownIsOverall(f, group);
  }

  lemma {:induction false} OverallAfter(f: Field, bars: seq<Bar>, b: Bar)
    ensures Overall(f, bars + [b]) == Join(f, Overall(f, bars), Get(f, b))
  {
    assert (bars + [b])[..|bars|] == bars;
  }

  lemma {:induction false} OverallUpdate(f: Field, bars: seq<Bar>, i: nat, b: Bar, more: Option<real>)
    requires i < |bars| && Get(f, b) == Join(f, Get(f, bars[i]), more)
    ensures Overall(f, bars[i := b]) == Join(f, Overall(f, bars), more)
  {
    var n := |bars| - 1;
    if i < n {
      assert bars[i := b][..n] == bars[..n][i := b];
      OverallUpdate(f, bars[..n], i, b, more);
    } else {
      assert bars[i := b][..n] == bars[..n];
    }
  }

  ghost predicate Conserved(c: Calendar, bars: seq<Bar>, f: Field) {
    Overall(f, Resampled(c, bars)) == Overall(f, Dated(c, bars))
  }

  lemma {:induction false} DatedAfter(c: Calendar, bars: seq<Bar>, b: Bar)
    ensures Dated(c, bars + [b]) == Dated(c, bars) + (if Key(c, b).Some? then [b] else [])
  {
    assert (bars + [b])[..|bars|] == bars;
  }

  lemma {:induction false} ConservedByNext(c: Calendar, bars: seq<Bar>, b: Bar, i: nat, f: Field)
    requires i < |Order(c, bars)| && Key(c, b) == Some(Order(c, bars)[i]) && Conserved(c, bars, f)
    ensures Conserved(c, bars + [b], f)
  {
    var k := Order(c, bars)[i];
    var g := Group(c, bars, k);
    GroupNonEmpty(c, bars, k);
    NextBarOfPeriod(c, bars, b, i);
    DatedAfter(c, bars, b);
    OverallAfter(f, Dated(c, bars), b);
    MergeIsOverall(f, g);
    MergeIsOverall(f, g + [b]);
    OverallAfter(f, g, b);
    assert Resampled(c, bars)[i] == Merge(g);
    OverallUpdate(f, Resampled(c, bars), i, Merge(g + [b]), Get(f, b));
  }

  lemma {:induction false} ConservedByFirst(c: Calendar, bars: seq<Bar>, b: Bar, f: Field)
    requires Key(c, b).Some? && Key(c, b).value !in Order(c, bars) && Conserved(c, bars, f)
    ensures Conserved(c, bars + [b], f)
  {
    FirstBarOfPeriod(c, bars, b);
    DatedAfter(c, bars, b);
    OverallAfter(f, Dated(c, bars), b);
    MergeIsOverall(f, [b]);
    assert [b] == [] + [b];
    OverallAfter(f, [], b);
    OverallAfter(f, Resampled(c, bars), Merge([b]));
  }

  lemma {:induction false} ConservedByUndated(c: Calendar, bars: seq<Bar>, b: Bar, f: Field)
    requires Key(c, b).None? && Conserved(c, bars, f)
    ensures Conserved(c, bars + [b], f)
  {
    UndatedBar(c, bars, b);
    DatedAfter(c, bars, b);
    assert Dated(c, bars + [b]) == Dated(c, bars);
  }

  /** Total volume, highest high and lowest low of the dated bars survive, whatever their order. */
  lemma {:induction false} NothingLost(c: Calendar, bars: seq<Bar>, f: Field)
    ensures Conserved(c, bars, f)
  {
    if bars == [] {
      assert Resampled(c, bars) == [];
    } else {
      var init, b := bars[..|bars| - 1], bars[|bars| - 1];
      assert bars == init + [b];
      NothingLost(c, init, f);
      if Key(c, b).None? {
        ConservedByUndated(c, init, b, f);
      } else if i: nat :| i < |Order(c, init)| && Order(c, init)[i] == Key(c, b).value {
        ConservedByNext(c, init, b, i, f);
      } else {
        ConservedByFirst(c, init, b, f);
      }
    }
  }

  // ---- bars in date order ----

  ghost predicate Chronological(c: Calendar, bars: seq<Bar>) {
    forall i, j :: 0 <= i < j < |bars| && Day(c, bars[i]).Some? && Day(c, bars[j]).Some? ==>
      Day(c, bars[i]).value <= Day(c, bars[j]).value
  }

  ghost predicate Monotone(c: Calendar) {
    forall d, e :: d <= e ==> c.key(d) <= c.key(e)
  }

  predicate Increasing(s: seq<int>) { forall i, j :: 0 <= i < j < |s| ==> s[i] < s[j] }

  lemma {:induction false} OrderHasABar(c: Calendar, bars: seq<Bar>, k: int)
    requires k in Order(c, bars)
    ensures exists i :: 0 <= i < |bars| && Key(c, bars[i]) == Some(k)
  {
    var n := |bars| - 1;
    if Key(c, bars[n]) != Some(k) {
      OrderHasABar(c, bars[..n], k);
      var i :| 0 <= i < n && Key(c, bars[..n][i]) == Some(k);
      assert Key(c, bars[i]) == Some(k);
    }
  }

  /** The period of a bar in date order is either the newest one seen or a newer one. */
  lemma {:induction false} BarIsInNewestPeriod(c: Calendar, bars: seq<Bar>, b: Bar)
    requires Monotone(c) && Chronological(c, bars + [b]) && Key(c, b).Some?
    ensures forall k :: k in Order(c, bars) ==> k <= Key(c, b).value
  {
    forall k | k in Order(c, bars) ensures k <= Key(c, b).value {
      OrderHasABar(c, bars, k);
      var i :| 0 <= i < |bars| && Key(c, bars[i]) == Some(k);
      var all := bars + [b];
      assert all[i] == bars[i] && all[|bars|] == b;
    }
  }

  /** Period keys strictly increase. */
  lemma {:induction false} KeysIncrease(c: Calendar, bars: seq<Bar>)
    requires Monotone(c) && Chronological(c, bars)
    ensures Increasing(Order(c, bars))
  {
    if bars != [] {
      var init, b := bars[..|bars| - 1], bars[|bars| - 1];
      assert bars == init + [b];
      KeysIncrease(c, init);
      OrderAfter(c, init, b);
      if Key(c, b).Some? {
        BarIsInNewestPeriod(c, init, b);
        var order := Order(c, init);
        assert forall i :: 0 <= i < |order| ==> order[i] in order;
      }
    }
  }

  function Groups(c: Calendar, bars: seq<Bar>, keys: seq<int>): seq<Bar> {
    if keys == [] then []
    else Groups(c, bars, keys[..|keys| - 1]) + Group(c, bars, keys[|keys| - 1])
  }

  lemma {:induction false} GroupsUnchanged(c: Calendar, bars: seq<Bar>, b: Bar, keys: seq<int>)
    requires Key(c, b).None? || Key(c, b).value !in keys
    ensures Groups(c, bars + [b], keys) == Groups(c, bars, keys)
  {
    if keys != [] {
      var n := |keys| - 1;
      GroupsUnchanged(c, bars, b, keys[..n]);
      GroupsAfter(c, bars, b, keys[n]);
    }
  }

  ghost predicate Concatenates(c: Calendar, bars: seq<Bar>) {
    Groups(c, bars, Order(c, bars)) == Dated(c, bars)
  }

  lemma {:induction false} GroupsPlusKey(c: Calendar, bars: seq<Bar>, keys: seq<int>, k: int)
    ensures Groups(c, bars, keys + [k]) == Groups(c, bars, keys) + Group(c, bars, k)
  {
    assert (keys + [k])[..|keys|] == keys;
  }

  /** A bar of the newest period goes to the very end. */
  lemma {:induction false} NewestGroupGrows(c: Calendar, bars: seq<Bar>, b: Bar, order: seq<int>, k: int)
    requires order != [] && order[|order| - 1] == k && k !in order[..|order| - 1] && Key(c, b) == Some(k)
    ensures Groups(c, bars + [b], order) == Groups(c, bars, order) + [b]
  {
    var before := order[..|order| - 1];
    assert order == before + [k];
    GroupsAfter(c, bars, b, k);
    GroupsUnchanged(c, bars, b, before);
    GroupsPlusKey(c, bars, before, k);
    GroupsPlusKey(c, bars + [b], before, k);
  }

  lemma {:induction false} ConcatenatesStep(c: Calendar, bars: seq<Bar>, b: Bar)
    requires Monotone(c) && Chronological(c, bars + [b]) && Concatenates(c, bars)
    ensures Concatenates(c, bars + [b])
  {
    var order := Order(c, bars);
    OrderAfter(c, bars, b);
    DatedAfter(c, bars, b);
    if Key(c, b).None? {
      GroupsUnchanged(c, bars, b, order);
    } else {
      var k := Key(c, b).value;
      GroupsAfter(c, bars, b, k);
      GroupNonEmpty(c, bars, k);
      if k in order {
        NewestIsLast(c, bars, b);
        NewestGroupGrows(c, bars, b, order, k);
      } else {
        GroupsUnchanged(c, bars, b, order);
        GroupsPlusKey(c, bars + [b], order, k);
      }
    }
  }

  /** The groups, one after another, are exactly the dated bars in their own order. */
  lemma {:induction false} GroupsConcatenate(c: Calendar, bars: seq<Bar>)
    requires Monotone(c) && Chronological(c, bars)
    ensures Concatenates(c, bars)
  {
    if bars != [] {
      var init, b := bars[..|bars| - 1], bars[|bars| - 1];
      assert bars == init + [b];
      GroupsConcatenate(c, init);
      ConcatenatesStep(c, init, b);
    }
  }

  lemma {:induction false} NewestIsLast(c: Calendar, bars: seq<Bar>, b: Bar)
    requires Monotone(c) && Chronological(c, bars + [b])
    requires Key(c, b).Some? && Key(c, b).value in Order(c, bars)
    ensures Increasing(Order(c, bars)) && Order(c, bars)[|Order(c, bars)| - 1] == Key(c, b).value
  {
    var order := Order(c, bars);
    var all := bars + [b];
    assert forall i :: 0 <= i < |bars| ==> all[i] == bars[i];
    KeysIncrease(c, bars);
    BarIsInNewestPeriod(c, bars, b);
    assert order[|order| - 1] in order;
  }

  // ---- no repainting ----

  function Finished(s: seq<Bar>): seq<Bar> { if s == [] then [] else s[..|s| - 1] }

  lemma {:induction false} NoRepaintStep(c: Calendar, bars: seq<Bar>, b: Bar)
    requires Monotone(c) && Chronological(c, bars + [b])
    ensures Finished(Resampled(c, bars)) <= Finished(Resampled(c, bars + [b]))
  {
    if Key(c, b).None? {
      UndatedBar(c, bars, b);
    } else if Key(c, b).value in Order(c, bars) {
      NewestIsLast(c, bars, b);
      NextBarOfPeriod(c, bars, b, |Order(c, bars)| - 1);
    } else {
      FirstBarOfPeriod(c, bars, b);
    }
  }

  /** However many later bars arrive, every output bar but the newest stays as it was. */
  lemma {:induction false} NoRepaint(c: Calendar, bars: seq<Bar>, later: seq<Bar>)
    requires Monotone(c) && Chronological(c, bars + later)
    ensures Finished(Resampled(c, bars)) <= Finished(Resampled(c, bars + later))
  {
    if later == [] {
      assert bars + later == bars;
    } else {
      var n := |later| - 1;
      var before := bars + later[..n];
      assert before + [later[n]] == bars + later;
      assert forall i :: 0 <= i < |before| ==> before[i] == (bars + later)[i];
      NoRepaint(c, bars, later[..n]);
      NoRepaintStep(c, before, later[n]);
    }
  }

  /** Out of date order, a late bar rewrites the finished period it belongs to, and no other. */
  lemma {:induction false} LateBarRepaintsItsPeriod(c: Calendar, bars: seq<Bar>, b: Bar, i: nat)
    requires i < |Order(c, bars)| && Key(c, b) == Some(Order(c, bars)[i])
    ensures |Resampled(c, bars + [b])| == |Resampled(c, bars)|
    ensures forall j :: 0 <= j < |Resampled(c, bars)| && j != i ==>
              Resampled(c, bars + [b])[j] == Resampled(c, bars)[j]
    ensures Resampled(c, bars + [b])[i].close == b.close
  {
    NextBarOfPeriod(c, bars, b, i);
  }

  // ---- resampling twice ----

  lemma {:induction false} GroupMembers(c: Calendar, bars: seq<Bar>, k: int)
    ensures forall b :: b in Group(c, bars, k) ==> Key(c, b) == Some(k)
  {
    if bars != [] { GroupMembers(c, bars[..|bars| - 1], k); }
  }

  /** The merged bar is dated by the last bar of its group. */
  lemma {:induction false} MergedDay(c: Calendar, group: seq<Bar>)
    requires Sound(c) && group != [] && Key(c, group[|group| - 1]).Some?
    ensures Key(c, Merge(group)) == Key(c, group[|group| - 1])
  {
  }

  lemma {:induction false} PeriodKeepsKey(c: Calendar, bars: seq<Bar>, k: int)
    requires Sound(c) && k in Order(c, bars)
    ensures Key(c, PeriodBar(c, bars, k)) == Some(k)
    ensures Merge([PeriodBar(c, bars, k)]) == PeriodBar(c, bars, k)
  {
    var g := Group(c, bars, k);
    GroupNonEmpty(c, bars, k);
    GroupMembers(c, bars, k);
    assert g[|g| - 1] in g;
    MergedDay(c, g);
    var p := PeriodBar(c, bars, k);
    forall f: Field ensures Get(f, Merge([p])) == Get(f, p) {
      assert [p] == [] + [p];
      OverallAfter(f, [], p);
      MergeIsOverall(f, [p]);
    }
    assert Get(High, Merge([p])) == Get(High, p);
    assert Get(Low, Merge([p])) == Get(Low, p);
    assert Get(Volume, Merge([p])) == Get(Volume, p);
  }

  /** Each bar is of its own period. */
  ghost predicate Sole(c: Calendar, out: seq<Bar>, order: seq<int>)
    requires |out| == |order|
  {
    forall i :: 0 <= i < |out| ==> Key(c, out[i]) == Some(order[i])
  }

  lemma {:induction false} SoleAt(c: Calendar, out: seq<Bar>, order: seq<int>, n: nat)
    requires n < |out| == |order| && Distinct(order) && Sole(c, out, order)
    ensures order[n] !in order[..n] && Key(c, out[n]) == Some(order[n])
  {
  }

  lemma {:induction false} OrderOfSole(c: Calendar, out: seq<Bar>, order: seq<int>, n: nat)
    requires n <= |out| == |order| && Distinct(order) && Sole(c, out, order)
    ensures Order(c, out[..n]) == order[..n]
  {
    if n > 0 {
      OrderOfSole(c, out, order, n - 1);
      SoleAt(c, out, order, n - 1);
      assert out[..n][..n - 1] == out[..n - 1];
      assert order[..n] == order[..n - 1] + [order[n - 1]];
    }
  }

  lemma {:induction false} GroupOfSole(c: Calendar, out: seq<Bar>, order: seq<int>, n: nat, i: nat)
    requires n <= |out| == |order| && i < |out| && Distinct(order) && Sole(c, out, order)
    ensures Group(c, out[..n], order[i]) == if i < n then [out[i]] else []
  {
    if n > 0 {
      GroupOfSole(c, out, order, n - 1, i);
      GroupTake(c, out, n - 1, order[i]);
      SoleIn(c, out, order, n - 1, i);
    }
  }

  lemma {:induction false} GroupTake(c: Calendar, bars: seq<Bar>, n: nat, k: int)
    requires n < |bars|
    ensures Group(c, bars[..n + 1], k) == Group(c, bars[..n], k) + IfIn(c, bars[n], k)
  {
    assert bars[..n + 1][..n] == bars[..n];
  }

  lemma SoleIn(c: Calendar, out: seq<Bar>, order: seq<int>, n: nat, i: nat)
    requires n < |out| == |order| && i < |out| && Distinct(order) && Sole(c, out, order)
    ensures IfIn(c, out[n], order[i]) == if i == n then [out[i]] else []
  {
    assert Key(c, out[n]) == Some(order[n]);
  }

  /** Bars of different periods that merge to themselves are their own resampling. */
  lemma {:induction false} SoleBarsAreFixed(c: Calendar, out: seq<Bar>, order: seq<int>)
    requires |out| == |order| && Distinct(order) && Sole(c, out, order)
    requires forall i :: 0 <= i < |out| ==> Merge([out[i]]) == out[i]
    ensures Resampled(c, out) == out
  {
    var n := |out|;
    assert out[..n] == out && order[..n] == order;
    OrderOfSole(c, out, order, n);
    forall i | 0 <= i < n ensures PeriodBar(c, out, order[i]) == out[i] {
      GroupOfSole(c, out, order, n, i);
    }
  }

  /** Resampling a resampled series changes nothing, for any input. */
  lemma {:induction false} Idempotent(c: Calendar, bars: seq<Bar>)
    requires Sound(c)
    ensures Resampled(c, Resampled(c, bars)) == Resampled(c, bars)
  {
    var out, order := Resampled(c, bars), Order(c, bars);
    OrderDistinct(c, bars);
    forall i | 0 <= i < |out| ensures Key(c, out[i]) == Some(order[i]) && Merge([out[i]]) == out[i] {
      PeriodKeepsKey(c, bars, order[i]);
    }
    SoleBarsAreFixed(c, out, order);
  }

  // ---- the limit ----

  /**
   * A limit is respected, and met with the newest bars, exactly when it is positive, or is zero with nothing
   * to cut. A negative one cuts that many bars off the old end instead.
   */
  lemma {:induction false} TailLimitExactly(bars: seq<Bar>, limit: int)
    ensures |TailLimit(bars, Some(limit))| <= limit <==> limit > 0 || (limit == 0 && bars == [])
    ensures limit > 0 ==> TailLimit(bars, Some(limit)) == bars[MaxInt(0, |bars| - limit)..]
    ensures limit == 0 ==> TailLimit(bars, Some(limit)) == bars
    ensures limit < 0 ==> TailLimit(bars, Some(limit)) == bars[MinInt(-limit, |bars|)..]
  {
  }

  // ---- open, close and date ----

  /** Bars a and b are the first and the last of their period. */
  ghost predicate Spans(c: Calendar, bars: seq<Bar>, k: int, a: nat, b: nat) {
    && a <= b < |bars| && Key(c, bars[a]) == Key(c, bars[b]) == Some(k)
    && forall j :: 0 <= j < |bars| && Key(c, bars[j]) == Some(k) ==> a <= j <= b
  }

  lemma {:induction false} GroupSpans(c: Calendar, bars: seq<Bar>, k: int) returns (a: nat, b: nat)
    requires Group(c, bars, k) != []
    ensures Spans(c, bars, k, a, b)
    ensures var g := Group(c, bars, k); g[0] == bars[a] && g[|g| - 1] == bars[b]
  {
    var n := |bars| - 1;
    var init := bars[..n];
    var isIn := Key(c, bars[n]) == Some(k);
    assert Group(c, bars, k) == Group(c, init, k) + IfIn(c, bars[n], k);
    if Group(c, init, k) != [] {
      a, b := GroupSpans(c, init, k);
      SpansOn(c, bars, k, a, b);
      if isIn { b := n; }
    } else {
      NoneOfPeriod(c, init, k);
      a, b := n, n;
      assert forall j :: 0 <= j < n ==> Key(c, bars[j]) == Key(c, init[j]);
    }
  }

  lemma {:induction false} SpansOn(c: Calendar, bars: seq<Bar>, k: int, a: nat, b: nat)
    requires bars != [] && Spans(c, bars[..|bars| - 1], k, a, b)
    ensures var n := |bars| - 1;
      && bars[..n][a] == bars[a] && bars[..n][b] == bars[b]
      && Spans(c, bars, k, a, if Key(c, bars[n]) == Some(k) then n else b)
  {
    var n := |bars| - 1;
    forall j | 0 <= j < |bars| && Key(c, bars[j]) == Some(k) ensures a <= j <= n && (j < n ==> j <= b) {
      if j < n { assert bars[..n][j] == bars[j]; }
    }
  }

  lemma {:induction false} NoneOfPeriod(c: Calendar, bars: seq<Bar>, k: int)
    requires Group(c, bars, k) == []
    ensures forall j :: 0 <= j < |bars| ==> Key(c, bars[j]) != Some(k)
  {
    if bars != [] {
      var n := |bars| - 1;
      assert Group(c, bars, k) == Group(c, bars[..n], k) + IfIn(c, bars[n], k);
      NoneOfPeriod(c, bars[..n], k);
      forall j | 0 <= j < |bars| ensures Key(c, bars[j]) != Some(k) {
        if j < n { assert bars[..n][j] == bars[j]; }
      }
    }
  }

  /** Every output bar opens as the first bar of its period, closes as the last and carries the last one's date. */
  lemma {:induction false} OpensAndCloses(c: Calendar, bars: seq<Bar>, i: nat) returns (a: nat, b: nat)
    requires i < |Resampled(c, bars)|
    ensures Spans(c, bars, Order(c, bars)[i], a, b)
    ensures var o := Resampled(c, bars)[i];
      && o.open == bars[a].open && o.close == bars[b].close
      && o.date == if bars[b].date.Some? && bars[b].date.value != "" then bars[b].date else bars[b].ts
  {
    var k := Order(c, bars)[i];
    GroupNonEmpty(c, bars, k);
    a, b := GroupSpans(c, bars, k);
  }

  // ---- a time stamp in place of a date ----

  function Stamped(b: Bar): Bar { if b.date.None? then b.(date := b.ts) else b }

  /** Bars without a date fall in the period of their time stamp. */
  lemma {:induction false} StampCounts(c: Calendar, b: Bar)
    ensures Key(c, b) == Key(c, Stamped(b))
    ensures b.date.None? && b.ts.Some? && c.parse(b.ts.value).Some? ==> Key(c, b) == Some(c.key(c.parse(b.ts.value).value))
    ensures b.date.Some? && c.parse(b.date.value).Some? ==> Key(c, b) == Some(c.key(c.parse(b.date.value).value))
  {
  }

  // ---- timeframes ----

  /** Which texts ask for which period: names in any case and with blanks around them; anything else is daily. */
  lemma {:induction false} PeriodExactly(timeframe: Option<string>)
    ensures PeriodOf(timeframe) == Monthly <==>
      timeframe.Some? && Lower(Strip(timeframe.value)) in {"1month", "1mo", "1m", "month", "monthly"}
    ensures PeriodOf(timeframe) == Weekly <==>
      timeframe.Some? && Lower(Strip(timeframe.value)) in {"1week", "1w", "week", "weekly"}
  {
    NoneIsDaily();
    if timeframe.Some? && Lower(Strip(timeframe.value)) in WEEKLY { NamesApart(Lower(Strip(timeframe.value))); }
  }

  lemma NoneIsDaily()
    ensures PeriodOf(None) == Daily
  {
    assert |"1d"| == 2 && "1d" != "1m" && "1d" != "1w" by { assert "1d"[1] != "1m"[1] && "1d"[1] != "1w"[1]; }
  }

  lemma NamesApart(t: string)
    requires t in WEEKLY
    ensures t !in MONTHLY
  {
  }
}
