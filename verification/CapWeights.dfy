/**
 * The 0.5 cap on inverse-volatility weights: violators are pinned at the cap and the freed
 * budget is redistributed over the rest, again and again, at most once per name.
 */
module CapWeights {
  import opened Common

  const CAP := 0.5
  const TOLERANCE := 0.000000000001

  // ---- one round of the redistribution ----

  predicate IsOver(x: real) { x > CAP + TOLERANCE }

  function OverCount(w: seq<real>): (n: nat)
    ensures n <= |w|
  {
    if w == [] then 0 else OverCount(w[..|w| - 1]) + if IsOver(w[|w| - 1]) then 1 else 0
  }

  /** Sum of the weights that are within the cap. */
  function WithinSum(w: seq<real>): real {
    if w == [] then 0.0
    else WithinSum(w[..|w| - 1]) + if IsOver(w[|w| - 1]) then 0.0 else w[|w| - 1]
  }

  /** One name's weight after a round in which `over` of the `n` names hold too much. */
  function NewWeight(x: real, rest: real, over: nat, n: nat): real
    requires over < n
  {
    var budget := 1.0 - CAP * over as real;
    if IsOver(x) then CAP
    else if rest > 0.0 then x / rest * budget
    else budget / (n - over) as real
  }

  function Redistribute(w: seq<real>): (r: seq<real>)
    requires OverCount(w) < |w|
    ensures |r| == |w|
  {
    seq(|w|, i requires 0 <= i < |w| => NewWeight(w[i], WithinSum(w), OverCount(w), |w|))
  }

  function Rounds(w: seq<real>, fuel: nat): (r: seq<real>)
    ensures |r| == |w|
    decreases fuel
  {
    if fuel == 0 || OverCount(w) == 0 || OverCount(w) == |w| then w
    else Rounds(Redistribute(w), fuel - 1)
  }

  function Capped(w: seq<real>): seq<real> { Rounds(w, |w|) }

  // ---- the loop ----

  method Rebuild(w: seq<real>) returns (next: seq<real>)
    requires OverCount(w) < |w|
    ensures next == Redistribute(w)
  {
    var over, rest := OverCount(w), WithinSum(w);
    next := [];
    for i := 0 to |w|
      invariant next == Redistribute(w)[..i]
    {
      next := next + [NewWeight(w[i], rest, over, |w|)];
    }
  }

  method CapLoop(weights: seq<real>) returns (w: seq<real>)
    ensures w == Capped(weights)
  {
    w := weights;
    for k := 0 to |weights|
      invariant |w| == |weights|
      invariant Rounds(w, |weights| - k) == Capped(weights)
    {
      var over := OverCount(w);
      if over == 0 || over == |w| { return; }
      w := Rebuild(w);
    }
  }

  // ---- what the loop achieves on positive weights that sum to one ----

  ghost predicate Positive(w: seq<real>) { forall i :: 0 <= i < |w| ==> w[i] > 0.0 }

  lemma {:induction false} SumPositive(w: seq<real>)
    requires Positive(w)
    ensures Sum(w) >= 0.0
    ensures forall i :: 0 <= i < |w| ==> w[i] <= Sum(w)
  {
    if w != [] {
      SumPositive(w[..|w| - 1]);
      assert forall i :: 0 <= i < |w| - 1 ==> w[..|w| - 1][i] == w[i];
    }
  }

  lemma {:induction false} PairBound(w: seq<real>, i: int, j: int)
    requires Positive(w) && 0 <= i < |w| && 0 <= j < |w| && i != j
    ensures w[i] + w[j] <= Sum(w)
  {
    var u := w[..|w| - 1];
    SumPositive(u);
    if i < |u| && j < |u| {
      PairBound(u, i, j);
    } else if i < |u| {
      assert u[i] == w[i];
    } else {
      assert u[j] == w[j];
    }
  }

  lemma {:induction false} NoneOver(w: seq<real>)
    requires forall i :: 0 <= i < |w| ==> !IsOver(w[i])
    ensures OverCount(w) == 0 && WithinSum(w) == Sum(w)
  {
    if w != [] { NoneOver(w[..|w| - 1]); }
  }

  lemma {:induction false} SomeOver(w: seq<real>) returns (o: int)
    requires OverCount(w) > 0
    ensures 0 <= o < |w| && IsOver(w[o])
  {
    if IsOver(w[|w| - 1]) { o := |w| - 1; } else { o := SomeOver(w[..|w| - 1]); }
  }

  /** Exactly one name over the cap: what is within is everything else. */
  lemma {:induction false} OneOver(w: seq<real>, o: int)
    requires 0 <= o < |w| && IsOver(w[o])
    requires forall i :: 0 <= i < |w| && i != o ==> !IsOver(w[i])
    ensures OverCount(w) == 1 && WithinSum(w) == Sum(w) - w[o]
  {
    var u := w[..|w| - 1];
    if o < |u| { OneOver(u, o); } else { NoneOver(u); }
  }

  /** Sum of `w` with entry o replaced by CAP and every other entry scaled by `c`. */
  lemma {:induction false} ScaledSum(w: seq<real>, r: seq<real>, o: int, c: real)
    requires |r| == |w| && o >= 0
    requires forall i :: 0 <= i < |w| ==> r[i] == if i == o then CAP else w[i] * c
    ensures Sum(r) == if o < |w| then CAP + c * (Sum(w) - w[o]) else c * Sum(w)
  {
    if w != [] {
      var n := |w| - 1;
      var u, q := w[..n], r[..n];
      ScaledSum(u, q, o, c);
      assert Sum(w) == Sum(u) + w[n] && Sum(r) == Sum(q) + r[n];
      if o < n {
        assert c * (Sum(u) - w[o]) + w[n] * c == c * (Sum(w) - w[o]);
      } else if o > n {
        assert c * Sum(u) + w[n] * c == c * Sum(w);
      }
    }
  }

  /** The only name over the cap, and what the others share. */
  lemma {:induction false} Violator(w: seq<real>, o: int)
    requires |w| >= 2 && Positive(w) && Sum(w) == 1.0
    requires 0 <= o < |w| && IsOver(w[o])
    ensures OverCount(w) == 1 && WithinSum(w) == 1.0 - w[o] > 0.0
    ensures forall i :: 0 <= i < |w| && i != o ==> !IsOver(w[i]) && w[i] <= 1.0 - w[o]
  {
    forall i | 0 <= i < |w| && i != o ensures !IsOver(w[i]) && w[i] <= 1.0 - w[o] {
      PairBound(w, i, o);
    }
    OneOver(w, o);
    assert 0.0 < w[if o == 0 then 1 else 0] <= 1.0 - w[o];
  }

  lemma ScaledShare(x: real, rest: real, c: real)
    requires 0.0 < x <= rest && c == CAP / rest
    ensures x / rest * CAP == x * c && 0.0 < x * c <= CAP
  {
    DivMul(x, rest, CAP);
    assert c * rest == CAP;
    MulMono(c, x, rest);
  }

  /** One entry of the round: the violator lands on the cap, the others are scaled by `c`. */
  lemma {:induction false} RedistributedEntry(w: seq<real>, o: int, i: int, c: real)
    requires |w| >= 2 && Positive(w) && Sum(w) == 1.0
    requires 0 <= o < |w| && IsOver(w[o]) && OverCount(w) < |w| && 0 <= i < |w|
    requires w[o] < 1.0 && c == CAP / (1.0 - w[o])
    ensures Redistribute(w)[i] == if i == o then CAP else w[i] * c
    ensures 0.0 < Redistribute(w)[i] <= CAP
  {
    Violator(w, o);
    if i != o { ScaledShare(w[i], 1.0 - w[o], c); }
  }

  /** After one redistribution nobody is over the cap any more, and the sum is one again. */
  lemma {:induction false} RedistributeOnce(w: seq<real>, o: int) returns (c: real)
    requires |w| >= 2 && Positive(w) && Sum(w) == 1.0
    requires 0 <= o < |w| && IsOver(w[o]) && OverCount(w) < |w|
    ensures var r := Redistribute(w);
            && Sum(r) == 1.0 && OverCount(r) == 0
            && (forall i :: 0 <= i < |w| ==> 0.0 < r[i] <= CAP)
            && c >= 0.0 && (forall i :: 0 <= i < |w| ==> r[i] == if i == o then CAP else w[i] * c)
  {
    Violator(w, o);
    c := CAP / (1.0 - w[o]);
    var r := Redistribute(w);
    forall i | 0 <= i < |w|
      ensures (r[i] == if i == o then CAP else w[i] * c) && 0.0 < r[i] <= CAP
    {
      RedistributedEntry(w, o, i, c);
    }
    ScaledSum(w, r, o, c);
    assert c * (1.0 - w[o]) == CAP;
    NoneOver(r);
  }

  /** The whole loop, for two or more names: at most one changing round, whatever the fuel. */
  lemma {:induction false} SettlesAfterOneRound(w: seq<real>, fuel: nat)
    requires |w| >= 2 && fuel >= 1 && Positive(w) && Sum(w) == 1.0
    ensures OverCount(w) <= 1
    ensures Rounds(w, fuel) == if OverCount(w) == 0 then w else Redistribute(w)
  {
    if OverCount(w) > 0 {
      var o := SomeOver(w);
      Violator(w, o);
      var _ := RedistributeOnce(w, o);
    }
  }

  lemma ProductOrder(c: real, x: real, y: real)
    requires c >= 0.0 && x <= y
    ensures x * c <= y * c
  {
    MulMono(c, x, y);
  }

  /** A smaller uncapped weight never ends up above a larger one. */
  ghost predicate SameOrder(w: seq<real>, r: seq<real>)
    requires |r| == |w|
  {
    forall i, j :: 0 <= i < |w| && 0 <= j < |w| && w[i] <= w[j] ==> r[i] <= r[j]
  }

  lemma {:induction false} KeepsOrder(w: seq<real>, r: seq<real>, o: int, c: real, i: int, j: int)
    requires |r| == |w| && 0 <= o < |w| && 0 <= i < |w| && 0 <= j < |w|
    requires c >= 0.0 && r[i] <= CAP
    requires r[i] == if i == o then CAP else w[i] * c
    requires r[j] == if j == o then CAP else w[j] * c
    requires w[i] <= w[j] && (j != o ==> w[j] < w[o])
    ensures r[i] <= r[j]
  {
    if j != o { ProductOrder(c, w[i], w[j]); }
  }

  lemma {:induction false} CappedWeights(w: seq<real>)
    requires |w| >= 2 && Positive(w) && Sum(w) == 1.0
    ensures |Capped(w)| == |w| && Sum(Capped(w)) == 1.0
    ensures forall i :: 0 <= i < |w| ==> 0.0 < Capped(w)[i] <= CAP + TOLERANCE
    ensures SameOrder(w, Capped(w))
  {
    SettlesAfterOneRound(w, |w|);
    if OverCount(w) > 0 {
      var o := SomeOver(w);
      Violator(w, o);
      var c := RedistributeOnce(w, o);
      forall i, j | 0 <= i < |w| && 0 <= j < |w| && w[i] <= w[j]
        ensures Capped(w)[i] <= Capped(w)[j]
      {
        KeepsOrder(w, Capped(w), o, c, i, j);
      }
    } else {
      forall i | 0 <= i < |w| ensures !IsOver(w[i]) { NotOver(w, i); }
    }
  }

  lemma {:induction false} NotOver(w: seq<real>, i: int)
    requires OverCount(w) == 0 && 0 <= i < |w|
    ensures !IsOver(w[i])
  {
    if i < |w| - 1 { NotOver(w[..|w| - 1], i); }
  }
}
