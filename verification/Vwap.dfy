/** Session VWAP from running sums, against the two-pass definition of mean and variance. */
module Vwap {
  import opened Common

  /** One bar seen by the session: its typical price and its volume. */
  datatype Trade = Trade(price: real, volume: real)

  datatype VwapBar = VwapBar(
    typical: real, volume: real, cumVol: real, cumPriceVol: real, cumSquareVol: real,
    vwap: real, sigma: real, upper: real, lower: real)

  function Typical(close: real, high: real, low: real): real { (high + low + close) / 3.0 }

  function Shortest(closes: seq<real>, highs: seq<real>, lows: seq<real>, volumes: seq<real>): nat {
    MinInt(MinInt(|closes|, |highs|), MinInt(|lows|, |volumes|))
  }

  /** The four lists zipped, cut to the shortest. */
  function Trades(closes: seq<real>, highs: seq<real>, lows: seq<real>, volumes: seq<real>): seq<Trade> {
    seq(Shortest(closes, highs, lows, volumes),
        i requires 0 <= i < Shortest(closes, highs, lows, volumes) =>
          Trade(Typical(closes[i], highs[i], lows[i]), volumes[i]))
  }

  /** What the session sees of the lists: as many bars as the shortest has, each at its typical price. */
  lemma {:induction false} TradesAre(
    closes: seq<real>, highs: seq<real>, lows: seq<real>, volumes: seq<real>, i: nat)
    requires i < |closes| && i < |highs| && i < |lows| && i < |volumes|
    ensures var t := Trades(closes, highs, lows, volumes);
      && i < |t| && 3.0 * t[i].price == closes[i] + highs[i] + lows[i] && t[i].volume == volumes[i]
    ensures |Trades(closes, highs, lows, volumes)| in {|closes|, |highs|, |lows|, |volumes|}
  {
  }

  // ---- weighted moments ----

  function Volume(t: seq<Trade>): real {
    if t == [] then 0.0 else Volume(t[..|t| - 1]) + t[|t| - 1].volume
  }

  function PriceVolume(t: seq<Trade>): real {
    if t == [] then 0.0 else PriceVolume(t[..|t| - 1]) + Product(t[|t| - 1])
  }

  function SquareVolume(t: seq<Trade>): real {
    if t == [] then 0.0 else SquareVolume(t[..|t| - 1]) + Squared(t[|t| - 1])
  }

  function Squared(t: Trade): real { t.price * t.price * t.volume }

  /** Volume-weighted squared distance from a given centre: the second pass. */
  function Spread(t: seq<Trade>, centre: real): real {
    if t == [] then 0.0 else Spread(t[..|t| - 1], centre) + Weighted(t[|t| - 1], centre)
  }

  function Weighted(t: Trade, centre: real): real {
    var d := t.price - centre;
    d * d * t.volume
  }

  function Mean(t: seq<Trade>): real
    requires Volume(t) > 0.0
  {
    PriceVolume(t) / Volume(t)
  }

  /** The definition of the variance, given the mean. */
  function Variance(t: seq<Trade>): real
    requires Volume(t) > 0.0
  {
    Spread(t, Mean(t)) / Volume(t)
  }

  function Expanded(s2: real, s1: real, s0: real, m: real): real { s2 - 2.0 * m * s1 + m * m * s0 }

  function Product(t: Trade): real { t.price * t.volume }

  lemma {:induction false} WeightedExpands(t: Trade, m: real)
    ensures Weighted(t, m) == Expanded(Squared(t), Product(t), t.volume, m)
  {
    assert (t.price - m) * (t.price - m) == t.price * t.price - 2.0 * m * t.price + m * m;
  }

  lemma {:induction false} ExpandedAdds(a2: real, a1: real, a0: real, b2: real, b1: real, b0: real, m: real)
    ensures Expanded(a2, a1, a0, m) + Expanded(b2, b1, b0, m) == Expanded(a2 + b2, a1 + b1, a0 + b0, m)
  {
  }

  lemma {:induction false} SpreadExpands(t: seq<Trade>, m: real)
    ensures Spread(t, m) == Expanded(SquareVolume(t), PriceVolume(t), Volume(t), m)
  {
    if t == [] {
      assert Expanded(0.0, 0.0, 0.0, m) == 0.0;
    } else {
      var init, last := t[..|t| - 1], t[|t| - 1];
      SpreadExpands(init, m);
      WeightedExpands(last, m);
      ExpandedAdds(SquareVolume(init), PriceVolume(init), Volume(init), Squared(last), Product(last), last.volume, m);
    }
  }

  lemma {:induction false} CentredMoment(s2: real, s1: real, s0: real, m: real)
    requires s0 != 0.0 && s1 == m * s0
    ensures Expanded(s2, s1, s0, m) / s0 == s2 / s0 - m * m
  {
    assert m * s1 == m * m * s0;
    assert Expanded(s2, s1, s0, m) == s2 - m * m * s0;
    assert (s2 / s0 - m * m) * s0 == s2 - m * m * s0;
    QuotientIs(Expanded(s2, s1, s0, m), s0, s2 / s0 - m * m);
  }

  lemma {:induction false} MeanTimesVolume(a: real, w: real)
    requires w != 0.0
    ensures a / w * w == a
  {
  }

  /** The running-sum form of the variance. */
  function OnePass(squareVolume: real, mean: real, volume: real): real
    requires volume > 0.0
  {
    squareVolume / volume - mean * mean
  }

  /** The running-sum variance is the two-pass variance, whatever the signs of the volumes. */
  lemma {:induction false} OnePassIsTwoPass(t: seq<Trade>)
    requires Volume(t) > 0.0
    ensures OnePass(SquareVolume(t), Mean(t), Volume(t)) == Variance(t)
  {
    SpreadExpands(t, Mean(t));
    MeanTimesVolume(PriceVolume(t), Volume(t));
    CentredMoment(SquareVolume(t), PriceVolume(t), Volume(t), Mean(t));
  }

  ghost predicate IsBar(b: VwapBar, seen: seq<Trade>, bands: real, sqrt: real -> real)
    requires seen != []
  {
    && b.typical == seen[|seen| - 1].price && b.volume == seen[|seen| - 1].volume
    && b.cumVol == Volume(seen) && b.cumPriceVol == PriceVolume(seen) && b.cumSquareVol == SquareVolume(seen)
    && b.vwap == (if Volume(seen) > 0.0 then Mean(seen) else b.typical)
    && b.sigma == sqrt(if Volume(seen) > 0.0 then Max(Variance(seen), 0.0) else 0.0)
    && b.upper == b.vwap + bands * b.sigma && b.lower == b.vwap - bands * b.sigma
  }

  /** The three running sums. */
  datatype Sums = Sums(volume: real, priceVolume: real, squareVolume: real)

  function SumsOf(t: seq<Trade>): Sums { Sums(Volume(t), PriceVolume(t), SquareVolume(t)) }

  function AddTrade(s: Sums, t: Trade): Sums {
    Sums(s.volume + t.volume, s.priceVolume + Product(t), s.squareVolume + Squared(t))
  }

  lemma {:induction false} SumsAfter(t: seq<Trade>, n: nat)
    requires n < |t|
    ensures SumsOf(t[..n + 1]) == AddTrade(SumsOf(t[..n]), t[n])
  {
    assert t[..n + 1][..n] == t[..n];
  }

  function MakeBar(t: Trade, s: Sums, bands: real, sqrt: real -> real): VwapBar {
    var vwap := if s.volume > 0.0 then s.priceVolume / s.volume else t.price;
    var variance := if s.volume > 0.0 then OnePass(s.squareVolume, vwap, s.volume) else 0.0;
    var sigma := sqrt(Max(variance, 0.0));
    VwapBar(t.price, t.volume, s.volume, s.priceVolume, s.squareVolume,
            vwap, sigma, vwap + bands * sigma, vwap - bands * sigma)
  }

  lemma {:induction false} MadeBar(seen: seq<Trade>, bands: real, sqrt: real -> real)
    requires seen != []
    ensures IsBar(MakeBar(seen[|seen| - 1], SumsOf(seen), bands, sqrt), seen, bands, sqrt)
  {
    if Volume(seen) > 0.0 { OnePassIsTwoPass(seen); }
  }

  ghost predicate AreBars(bars: seq<VwapBar>, trades: seq<Trade>, bands: real, sqrt: real -> real) {
    && |bars| <= |trades|
    && forall k :: 0 <= k < |bars| ==> IsBar(bars[k], trades[..k + 1], bands, sqrt)
  }

  lemma {:induction false} OneMoreBar(bars: seq<VwapBar>, trades: seq<Trade>, bands: real, sqrt: real -> real)
    requires AreBars(bars, trades, bands, sqrt) && |bars| < |trades|
    ensures AreBars(bars + [MakeBar(trades[|bars|], SumsOf(trades[..|bars| + 1]), bands, sqrt)], trades, bands, sqrt)
  {
    MadeBar(trades[..|bars| + 1], bands, sqrt);
  }

  /** Three running sums, one bar out per bar in, each as the two-pass definition of its prefix says. */
  method ComputeVwapSession(
    closes: seq<real>, highs: seq<real>, lows: seq<real>, volumes: seq<real>, bands: real, sqrt: real -> real)
    returns (bars: seq<VwapBar>)
    ensures |bars| == |Trades(closes, highs, lows, volumes)|
    ensures AreBars(bars, Trades(closes, highs, lows, volumes), bands, sqrt)
  {
    ghost var trades := Trades(closes, highs, lows, volumes);
    bars := [];
    var sums := Sums(0.0, 0.0, 0.0);
    for i := 0 to Shortest(closes, highs, lows, volumes)
      invariant |bars| == i && sums == SumsOf(trades[..i]) && AreBars(bars, trades, bands, sqrt)
    {
      var t := Trade(Typical(closes[i], highs[i], lows[i]), volumes[i]);
      SumsAfter(trades, i);
      OneMoreBar(bars, trades, bands, sqrt);
      sums := AddTrade(sums, t);
      bars := bars + [MakeBar(t, sums, bands, sqrt)];
    }
  }

  // ---- what the numbers mean ----

  predicate Positive(t: seq<Trade>) { forall i :: 0 <= i < |t| ==> t[i].volume >= 0.0 }

  lemma {:induction false} WeightedNonNegative(t: Trade, m: real)
    requires t.volume >= 0.0
    ensures Weighted(t, m) >= 0.0
  {
    SquareNonNegative(t.price - m);
    MulMono(t.volume, 0.0, (t.price - m) * (t.price - m));
  }

  lemma {:induction false} SpreadNonNegative(t: seq<Trade>, m: real)
    requires Positive(t)
    ensures Spread(t, m) >= 0.0
  {
    if t != [] {
      SpreadNonNegative(t[..|t| - 1], m);
      WeightedNonNegative(t[|t| - 1], m);
    }
  }

  lemma {:induction false} NonNegativeQuotient(a: real, w: real)
    requires a >= 0.0 && w > 0.0
    ensures a / w >= 0.0
  {
    if a > 0.0 { QuotientPositive(a, w); }
  }

  /** The clamp at zero never acts. */
  lemma {:induction false} ClampIsDead(t: seq<Trade>)
    requires Positive(t) && Volume(t) > 0.0
    ensures Max(OnePass(SquareVolume(t), Mean(t), Volume(t)), 0.0) == Variance(t)
  {
    OnePassIsTwoPass(t);
    SpreadNonNegative(t, Mean(t));
    NonNegativeQuotient(Spread(t, Mean(t)), Volume(t));
  }

  predicate Priced(t: seq<Trade>, lo: real, hi: real) {
    forall i :: 0 <= i < |t| ==> lo <= t[i].price <= hi
  }

  lemma {:induction false} Distribute(k: real, a: real, b: real)
    ensures k * (a + b) == k * a + b * k
  {
  }

  lemma {:induction false} AtMostTimes(lo: real, w: real, a: real, t: Trade, total: real)
    requires lo * w <= a && lo <= t.price && t.volume >= 0.0 && total == w + t.volume
    ensures lo * total <= a + Product(t)
  {
    MulMono(t.volume, lo, t.price);
    Distribute(lo, w, t.volume);
  }

  lemma {:induction false} AtLeastTimes(hi: real, w: real, a: real, t: Trade, total: real)
    requires a <= hi * w && t.price <= hi && t.volume >= 0.0 && total == w + t.volume
    ensures a + Product(t) <= hi * total
  {
    MulMono(t.volume, t.price, hi);
    Distribute(hi, w, t.volume);
  }

  lemma {:induction false} PriceVolumeAtLeast(t: seq<Trade>, lo: real)
    requires Positive(t) && forall i :: 0 <= i < |t| ==> lo <= t[i].price
    ensures lo * Volume(t) <= PriceVolume(t)
  {
    if t != [] {
      var init, last := t[..|t| - 1], t[|t| - 1];
      PriceVolumeAtLeast(init, lo);
      AtMostTimes(lo, Volume(init), PriceVolume(init), last, Volume(t));
    }
  }

  lemma {:induction false} PriceVolumeAtMost(t: seq<Trade>, hi: real)
    requires Positive(t) && forall i :: 0 <= i < |t| ==> t[i].price <= hi
    ensures PriceVolume(t) <= hi * Volume(t)
  {
    if t != [] {
      var init, last := t[..|t| - 1], t[|t| - 1];
      PriceVolumeAtMost(init, hi);
      AtLeastTimes(hi, Volume(init), PriceVolume(init), last, Volume(t));
    }
  }

  lemma {:induction false} QuotientBetween(a: real, w: real, lo: real, hi: real)
    requires w > 0.0 && lo * w <= a <= hi * w
    ensures lo <= a / w <= hi
  {
    assert a / w * w == a;
    Above(a / w, lo, w);
    Above(hi, a / w, w);
  }

  lemma {:induction false} Above(a: real, b: real, w: real)
    requires w > 0.0 && b * w <= a * w
    ensures b <= a
  {
    if b > a { MulPositive(b - a, w); }
  }

  /** VWAP lies between the least and the greatest typical price of the session so far. */
  lemma {:induction false} VwapIsWithinPrices(t: seq<Trade>, lo: real, hi: real)
    requires Positive(t) && Volume(t) > 0.0 && Priced(t, lo, hi)
    ensures lo <= Mean(t) <= hi
  {
    PriceVolumeAtLeast(t, lo);
    PriceVolumeAtMost(t, hi);
    QuotientBetween(PriceVolume(t), Volume(t), lo, hi);
  }

  function Square(d: real): real { d * d }

  function Distance(d: real, w: real): real { Square(d) * w }

  lemma {:induction false} PositiveProduct(a: real, b: real, product: real)
    requires a > 0.0 && b > 0.0 && product == a * b
    ensures product > 0.0
  {
  }

  lemma {:induction false} SquareEven(d: real, e: real)
    requires e == -d
    ensures Square(e) == Square(d)
  {
  }

  lemma {:induction false} SquarePositive(d: real)
    requires d != 0.0
    ensures Square(d) > 0.0
  {
    SquareEven(d, -d);
    var e := if d > 0.0 then d else -d;
    PositiveProduct(e, e, Square(e));
  }

  lemma {:induction false} ShiftedCentre(s2: real, s1: real, s0: real, m: real, c: real)
    requires s1 == m * s0
    ensures Expanded(s2, s1, s0, c) == Expanded(s2, s1, s0, m) + Distance(c - m, s0)
  {
    assert c * s1 == c * m * s0;
    assert m * s1 == m * m * s0;
    assert (c - m) * (c - m) == c * c - 2.0 * (c * m) + m * m;
    assert (c - m) * (c - m) * s0 == c * c * s0 - 2.0 * (c * m * s0) + m * m * s0;
  }

  lemma {:induction false} DistanceSign(d: real, w: real)
    requires w > 0.0
    ensures Distance(d, w) >= 0.0 && (Distance(d, w) == 0.0 <==> d == 0.0)
  {
    if d != 0.0 {
      SquarePositive(d);
      MulPositive(Square(d), w);
    } else {
      assert Square(d) == 0.0;
    }
  }

  /** No other centre is as close to the session, in the volume-weighted sense. */
  lemma {:induction false} VwapIsTheBestCentre(t: seq<Trade>, centre: real)
    requires Volume(t) > 0.0
    ensures Spread(t, centre) >= Spread(t, Mean(t))
    ensures Spread(t, centre) == Spread(t, Mean(t)) <==> centre == Mean(t)
  {
    SpreadExpands(t, Mean(t));
    SpreadExpands(t, centre);
    MeanTimesVolume(PriceVolume(t), Volume(t));
    ShiftedCentre(SquareVolume(t), PriceVolume(t), Volume(t), Mean(t), centre);
    DistanceSign(centre - Mean(t), Volume(t));
  }
}
