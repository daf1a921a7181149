/** The veto layer: discipline hooks folded over the pending signals, failing safe. */
module VetoLayer {
  import opened Common

  datatype PluginId = Ml | Other(id: string)

  /** Context keys; the two injected ones by name. */
  datatype Key = ModelBlob | FeatureNames | Field(name: string)

  type Context = map<Key, int>

  type Action = string

  const CANCELLED: Action := "cancelled"

  /**
   * A signal as hooks hand it around. `symbol` and `action` may be missing or not be strings;
   * `source` is the resolved source plugin, empty when there is none; `nested` holds the shares
   * of the fixed, kelly and volatility sub-objects, in that order.
   */
  datatype Signal = Signal(
    symbol: Option<string>, action: Option<Action>, source: string,
    nested: seq<Option<real>>, shares: Option<real>, qty: Option<real>, rest: int)

  datatype HookResult =
    | Failed(error: string)
    | Silent
    | Returned(signals: Option<seq<Signal>>, extra: Context, reasons: seq<string>)

  /** A discipline plugin: an arbitrary function of the context and the pending signals. */
  datatype Plugin = Plugin(id: PluginId, name: string, hook: (Context, seq<Signal>) -> HookResult)

  datatype Reason = Said(name: string, text: string) | HookFailed(name: string, error: string)

  datatype Veto = Veto(ctx: Context, pending: seq<Signal>, reasons: seq<Reason>, degraded: bool)

  predicate IsMl(p: Plugin) { p.id.Ml? }

  /** The stable sort that puts the ML plugin first. */
  function MlFirst(plugins: seq<Plugin>): seq<Plugin> { Filter(plugins, IsMl) + Reject(plugins, IsMl) }

  /** What one hook is shown: only the ML plugin sees the injected fields. */
  function Shown(p: Plugin, v: Veto, injection: Context): Context {
    if IsMl(p) then v.ctx + injection else v.ctx
  }

  function Stripped(p: Plugin, extra: Context): Context {
    if IsMl(p) then extra - {ModelBlob, FeatureNames} else extra
  }

  function Said'(name: string, texts: seq<string>): seq<Reason> {
    seq(|texts|, j requires 0 <= j < |texts| => Said(name, texts[j]))
  }

  function Step(p: Plugin, v: Veto, injection: Context): Veto {
    match p.hook(Shown(p, v, injection), v.pending)
    case Silent => v
    case Failed(error) => Veto(v.ctx, [], v.reasons + [HookFailed(p.name, error)], true)
    case Returned(signals, extra, reasons) =>
      Veto(v.ctx + Stripped(p, extra),
           match signals { case Some(s) => s case None => v.pending },
           v.reasons + Said'(p.name, reasons), v.degraded)
  }

  function Fold(plugins: seq<Plugin>, v: Veto, injection: Context): Veto {
    if plugins == [] then v
    else Step(plugins[|plugins| - 1], Fold(plugins[..|plugins| - 1], v, injection), injection)
  }

  datatype Summary = Summary(proposed: nat, approved: nat, vetoed: int, degraded: bool)

  function Run(plugins: seq<Plugin>, ctx: Context, pending: seq<Signal>, injection: Context): Veto {
    Fold(MlFirst(plugins), Veto(ctx, pending, [], false), injection)
  }

  method RunVetoLayer(plugins: seq<Plugin>, ctx: Context, pending: seq<Signal>, injection: Context)
    returns (v: Veto, summary: Summary)
    ensures v == Run(plugins, ctx, pending, injection)
    ensures summary == Summary(|pending|, |v.pending|, |pending| - |v.pending|, v.degraded)
  {
    var sorted := MlFirst(plugins);
    var vetoCtx, signals, reasons: seq<Reason>, degraded := ctx, pending, [], false;
    for i := 0 to |sorted|
      invariant Veto(vetoCtx, signals, reasons, degraded)
             == Fold(sorted[..i], Veto(ctx, pending, [], false), injection)
    {
      assert sorted[..i + 1][..i] == sorted[..i];
      var p := sorted[i];
      var shown := if IsMl(p) then vetoCtx + injection else vetoCtx;
      match p.hook(shown, signals)
      case Silent =>
      case Failed(error) =>
        signals, degraded := [], true;
        reasons := reasons + [HookFailed(p.name, error)];
      case Returned(updated, extra, texts) =>
        vetoCtx := vetoCtx + Stripped(p, extra);
        if updated.Some? { signals := updated.value; }
        reasons := reasons + Said'(p.name, texts);
    }
    assert sorted[..|sorted|] == sorted;
    v := Veto(vetoCtx, signals, reasons, degraded);
    summary := Summary(|pending|, |signals|, |pending| - |signals|, degraded);
  }

  // ---- order ----

  /** The same plugins, every ML plugin before every other, the others in their given order. */
  lemma {:induction false} MlRunsFirst(plugins: seq<Plugin>, i: nat, j: nat)
    requires i < j < |MlFirst(plugins)|
    ensures multiset(MlFirst(plugins)) == multiset(plugins)
    ensures IsMl(MlFirst(plugins)[j]) ==> IsMl(MlFirst(plugins)[i])
    ensures MlFirst(plugins)[|Filter(plugins, IsMl)|..] == Reject(plugins, IsMl)
  {
    FilterSplits(plugins, IsMl);
    var ml, rest := Filter(plugins, IsMl), Reject(plugins, IsMl);
    if j < |ml| {
      assert ml[i] in ml;
    } else {
      assert rest[j - |ml|] in rest;
    }
  }

  // ---- what is kept of every answer ----

  /** What the k-th hook answers when its turn comes. */
  function AnswerAt(plugins: seq<Plugin>, v: Veto, injection: Context, k: nat): HookResult
    requires k < |plugins|
  {
    var before := Fold(plugins[..k], v, injection);
    plugins[k].hook(Shown(plugins[k], before, injection), before.pending)
  }

  lemma {:induction false} FoldOneMore(plugins: seq<Plugin>, v: Veto, injection: Context, k: nat)
    requires k < |plugins|
    ensures Fold(plugins[..k + 1], v, injection) == Step(plugins[k], Fold(plugins[..k], v, injection), injection)
  {
    assert plugins[..k + 1][..k] == plugins[..k];
  }

  /** The answer gives this reason: a text the hook returned, or the error it failed with. */
  predicate Gives(name: string, answer: HookResult, r: Reason) {
    match answer
    case Silent => false
    case Failed(error) => r == HookFailed(name, error)
    case Returned(_, _, texts) => r.Said? && r.name == name && r.text in texts
  }

  lemma {:induction false} StepReasons(p: Plugin, v: Veto, injection: Context)
    ensures forall r :: r in Step(p, v, injection).reasons <==>
      r in v.reasons || Gives(p.name, p.hook(Shown(p, v, injection), v.pending), r)
  {
    var answer := p.hook(Shown(p, v, injection), v.pending);
    if answer.Returned? {
      forall r ensures r in Said'(p.name, answer.reasons) <==> Gives(p.name, answer, r) {
        SaidExactly(p.name, answer.reasons, r);
      }
    }
  }

  lemma {:induction false} SaidExactly(name: string, texts: seq<string>, r: Reason)
    ensures r in Said'(name, texts) <==> r.Said? && r.name == name && r.text in texts
  {
    if r.Said? && r.name == name && r.text in texts {
      var j :| 0 <= j < |texts| && texts[j] == r.text;
      assert Said'(name, texts)[j] == r;
    }
  }

  /** One of the first n hooks gave this reason. */
  ghost predicate Given(plugins: seq<Plugin>, v: Veto, injection: Context, n: nat, r: Reason) {
    exists k: nat :: k < n && k < |plugins| && Gives(plugins[k].name, AnswerAt(plugins, v, injection, k), r)
  }

  lemma {:induction false} ReasonsSoFar(plugins: seq<Plugin>, v: Veto, injection: Context, n: nat, r: Reason)
    requires n <= |plugins|
    ensures r in Fold(plugins[..n], v, injection).reasons <==> r in v.reasons || Given(plugins, v, injection, n, r)
  {
    if n > 0 {
      ReasonsSoFar(plugins, v, injection, n - 1, r);
      FoldOneMore(plugins, v, injection, n - 1);
      StepReasons(plugins[n - 1], Fold(plugins[..n - 1], v, injection), injection);
      GivenOneMore(plugins, v, injection, n - 1, r);
    }
  }

  lemma {:induction false} GivenOneMore(plugins: seq<Plugin>, v: Veto, injection: Context, n: nat, r: Reason)
    requires n < |plugins|
    ensures Given(plugins, v, injection, n + 1, r) <==>
      Given(plugins, v, injection, n, r) || Gives(plugins[n].name, AnswerAt(plugins, v, injection, n), r)
  {
  }

  /** The reasons of a cycle are exactly those its hooks gave: none is lost and none invented. */
  lemma {:induction false} ReasonsExactly(plugins: seq<Plugin>, v: Veto, injection: Context, r: Reason)
    ensures r in Fold(plugins, v, injection).reasons <==>
      r in v.reasons || Given(plugins, v, injection, |plugins|, r)
  {
    ReasonsSoFar(plugins, v, injection, |plugins|, r);
    assert plugins[..|plugins|] == plugins;
  }

  /** The k-th hook adds this field to the shared context; the injected ones are the ML hook's alone. */
  predicate Adds(plugins: seq<Plugin>, v: Veto, injection: Context, k: nat, key: Key)
    requires k < |plugins|
  {
    var answer := AnswerAt(plugins, v, injection, k);
    answer.Returned? && key in answer.extra && !(IsMl(plugins[k]) && key in {ModelBlob, FeatureNames})
  }

  /** Of the first n hooks the k-th is the last to add the field. */
  ghost predicate LastAdded(plugins: seq<Plugin>, v: Veto, injection: Context, n: nat, k: nat, key: Key)
    requires n <= |plugins|
  {
    k < n && Adds(plugins, v, injection, k, key) && forall j: nat :: k < j < n ==> !Adds(plugins, v, injection, j, key)
  }

  lemma {:induction false} StepContext(plugins: seq<Plugin>, v: Veto, injection: Context, n: nat, key: Key)
    requires n < |plugins|
    ensures var before, after := Fold(plugins[..n], v, injection).ctx, Fold(plugins[..n + 1], v, injection).ctx;
      if Adds(plugins, v, injection, n, key) then
        key in after && after[key] == AnswerAt(plugins, v, injection, n).extra[key]
      else (key in after <==> key in before) && (key in after ==> after[key] == before[key])
  {
    FoldOneMore(plugins, v, injection, n);
  }

  /** A field is what the last of the first n hooks to add it gave, or as it was when none did. */
  ghost predicate Stands(plugins: seq<Plugin>, v: Veto, injection: Context, n: nat, key: Key, ctx: Context)
    requires n <= |plugins|
  {
    && (forall k: nat :: LastAdded(plugins, v, injection, n, k, key) ==>
          key in ctx && ctx[key] == AnswerAt(plugins, v, injection, k).extra[key])
    && ((forall k: nat :: k < n ==> !Adds(plugins, v, injection, k, key)) ==>
          (key in ctx <==> key in v.ctx) && (key in ctx ==> ctx[key] == v.ctx[key]))
  }

  lemma {:induction false} StandsOneMore(
    plugins: seq<Plugin>, v: Veto, injection: Context, n: nat, key: Key, before: Context, after: Context)
    requires n < |plugins| && Stands(plugins, v, injection, n, key, before)
    requires if Adds(plugins, v, injection, n, key) then
               key in after && after[key] == AnswerAt(plugins, v, injection, n).extra[key]
             else (key in after <==> key in before) && (key in after ==> after[key] == before[key])
    ensures Stands(plugins, v, injection, n + 1, key, after)
  {
    forall k: nat | LastAdded(plugins, v, injection, n + 1, k, key)
      ensures if k == n then Adds(plugins, v, injection, n, key) else LastAdded(plugins, v, injection, n, k, key)
    {
    }
  }

  lemma {:induction false} ContextSoFar(plugins: seq<Plugin>, v: Veto, injection: Context, n: nat, key: Key)
    requires n <= |plugins|
    ensures Stands(plugins, v, injection, n, key, Fold(plugins[..n], v, injection).ctx)
  {
    if n > 0 {
      ContextSoFar(plugins, v, injection, n - 1, key);
      StepContext(plugins, v, injection, n - 1, key);
      StandsOneMore(plugins, v, injection, n - 1, key,
                    Fold(plugins[..n - 1], v, injection).ctx, Fold(plugins[..n], v, injection).ctx);
    }
  }

  /** Every field of the context a cycle ends with: the last addition stands, and nothing else changes it. */
  lemma {:induction false} LastAdditionStands(plugins: seq<Plugin>, v: Veto, injection: Context, key: Key)
    ensures Stands(plugins, v, injection, |plugins|, key, Fold(plugins, v, injection).ctx)
  {
    ContextSoFar(plugins, v, injection, |plugins|, key);
    assert plugins[..|plugins|] == plugins;
  }

  // ---- failing safe ----

  /** Given nothing pending, the hook does not come back with a signal. */
  ghost predicate AddsNothing(p: Plugin) {
    forall ctx :: var r := p.hook(ctx, []);
      r.Returned? && r.signals.Some? ==> r.signals.value == []
  }

  /** The hook only ever keeps some of what it is given. */
  ghost predicate OnlyFilters(p: Plugin) {
    forall ctx, pending {:trigger p.hook(ctx, pending)} :: var r := p.hook(ctx, pending);
      r.Returned? && r.signals.Some? ==> Subsequence(r.signals.value, pending)
  }

  lemma FilteringAddsNothing(p: Plugin)
    requires OnlyFilters(p)
    ensures AddsNothing(p)
  {
    forall ctx ensures var r := p.hook(ctx, []); r.Returned? && r.signals.Some? ==> r.signals.value == [] {
      assert p.hook(ctx, []) == p.hook(ctx, []);
    }
  }

  predicate FailsAt(plugins: seq<Plugin>, v: Veto, injection: Context, k: nat)
    requires k < |plugins|
  {
    AnswerAt(plugins, v, injection, k).Failed?
  }

  /** Once a hook has failed, no signal comes back through hooks that add nothing. */
  lemma {:induction false} FailureIsFinal(plugins: seq<Plugin>, v: Veto, injection: Context, k: nat)
    requires k < |plugins| && FailsAt(plugins, v, injection, k)
    requires forall j :: k < j < |plugins| ==> AddsNothing(plugins[j])
    ensures Fold(plugins, v, injection).pending == [] && Fold(plugins, v, injection).degraded
  {
    var n := |plugins| - 1;
    if k < n {
      assert plugins[..n][..k] == plugins[..k];
      FailureIsFinal(plugins[..n], v, injection, k);
    }
  }

  /** The cycle is marked degraded exactly when some hook failed. */
  lemma {:induction false} DegradedExactly(plugins: seq<Plugin>, v: Veto, injection: Context)
    ensures Fold(plugins, v, injection).degraded <==>
      v.degraded || exists k :: 0 <= k < |plugins| && FailsAt(plugins, v, injection, k)
  {
    if plugins != [] {
      var n := |plugins| - 1;
      var most := plugins[..n];
      DegradedExactly(most, v, injection);
      forall k | 0 <= k < n ensures FailsAt(plugins, v, injection, k) == FailsAt(most, v, injection, k) {
        assert most[..k] == plugins[..k];
      }
      if Fold(plugins, v, injection).degraded && !v.degraded {
        if Fold(most, v, injection).degraded {
          var k :| 0 <= k < |most| && FailsAt(most, v, injection, k);
          assert FailsAt(plugins, v, injection, k);
        } else {
          assert FailsAt(plugins, v, injection, n);
        }
      }
    }
  }

  /** The whole layer, hooks that only filter: one failure anywhere approves nothing. */
  lemma {:induction false} OneFailureVetoesAll(
    plugins: seq<Plugin>, ctx: Context, pending: seq<Signal>, injection: Context)
    requires forall j :: 0 <= j < |plugins| ==> OnlyFilters(plugins[j])
    requires Run(plugins, ctx, pending, injection).degraded
    ensures Run(plugins, ctx, pending, injection).pending == []
  {
    var sorted, v := MlFirst(plugins), Veto(ctx, pending, [], false);
    FilterSplits(plugins, IsMl);
    forall j | 0 <= j < |sorted| ensures AddsNothing(sorted[j]) {
      assert sorted[j] in multiset(sorted);
      assert sorted[j] in plugins;
      FilteringAddsNothing(sorted[j]);
    }
    DegradedExactly(sorted, v, injection);
    var k :| 0 <= k < |sorted| && FailsAt(sorted, v, injection, k);
    FailureIsFinal(sorted, v, injection, k);
  }

  // ---- exactly which hooks are safe behind a failure ----

  /** A hook whose call fails. */
  const BROKEN := Plugin(Other("down"), "down", (c: Context, x: seq<Signal>) => Failed("down"))

  /** Once BROKEN has run, every context is possible and nothing is pending. */
  lemma {:induction false} BehindFailure(p: Plugin, ctx: Context, pending: seq<Signal>)
    ensures var v := Veto(ctx, pending, [], false);
            var failed := Fold([BROKEN], v, map[]);
            && failed.ctx == ctx && failed.pending == [] && failed.degraded
            && Fold([BROKEN, p], v, map[]) == Step(p, failed, map[])
  {
    assert [BROKEN][..0] == [] && [BROKEN, p][..1] == [BROKEN];
  }

  /** One hook behind a failed one keeps everything vetoed, in every context, exactly when it adds nothing. */
  lemma {:induction false} SafeBehindFailureExactly(p: Plugin)
    ensures (forall ctx, pending :: Fold([BROKEN, p], Veto(ctx, pending, [], false), map[]).pending == []) <==>
            AddsNothing(p)
  {
    if AddsNothing(p) {
      forall ctx, pending ensures Fold([BROKEN, p], Veto(ctx, pending, [], false), map[]).pending == [] {
        BehindFailure(p, ctx, pending);
        assert ctx + map[] == ctx;
      }
    } else {
      var ctx :| var r := p.hook(ctx, []); r.Returned? && r.signals.Some? && r.signals.value != [];
      BehindFailure(p, ctx, []);
      assert ctx + map[] == ctx;
    }
  }

  /** A team of hooks: any list over `hooks`, any of whose calls may fail, with at most one ML plugin. */
  ghost predicate Team(plugins: seq<Plugin>, hooks: set<Plugin>) {
    && (forall p :: p in plugins ==> p in hooks || p == BROKEN)
    && |Filter(plugins, IsMl)| <= 1
  }

  ghost predicate FailsSafe(plugins: seq<Plugin>) {
    forall ctx, pending, injection {:trigger Run(plugins, ctx, pending, injection)} ::
      var v := Run(plugins, ctx, pending, injection); v.degraded ==> v.pending == []
  }

  /**
   * The fail-safe holds for every team over a set of hooks, in every order, context and pattern of
   * failures, exactly when every hook but the ML one adds nothing of its own.
   */
  lemma {:induction false} FailSafeExactly(hooks: set<Plugin>)
    ensures (forall plugins :: Team(plugins, hooks) ==> FailsSafe(plugins)) <==>
            (forall p :: p in hooks && !IsMl(p) ==> AddsNothing(p))
  {
    if forall p :: p in hooks && !IsMl(p) ==> AddsNothing(p) {
      forall plugins | Team(plugins, hooks) ensures FailsSafe(plugins) {
        forall ctx, pending, injection
          ensures var v := Run(plugins, ctx, pending, injection); v.degraded ==> v.pending == []
        {
          if Run(plugins, ctx, pending, injection).degraded {
            TeamFailsSafe(plugins, hooks, ctx, pending, injection);
          }
        }
      }
    } else {
      var p :| p in hooks && !IsMl(p) && !AddsNothing(p);
      PairIsTeam(p, hooks);
      var ctx :| var r := p.hook(ctx, []); r.Returned? && r.signals.Some? && r.signals.value != [];
      BehindFailure(p, ctx, []);
      assert ctx + map[] == ctx;
      assert !FailsSafe([BROKEN, p]) by {
        assert Run([BROKEN, p], ctx, [], map[]) == Fold([BROKEN, p], Veto(ctx, [], [], false), map[]);
      }
    }
  }

  lemma {:induction false} PairIsTeam(p: Plugin, hooks: set<Plugin>)
    requires p in hooks && !IsMl(p)
    ensures Team([BROKEN, p], hooks) && MlFirst([BROKEN, p]) == [BROKEN, p]
  {
    NoneOfTwo(BROKEN, p, IsMl);
  }

  lemma {:induction false} TeamFailsSafe(
    plugins: seq<Plugin>, hooks: set<Plugin>, ctx: Context, pending: seq<Signal>, injection: Context)
    requires Team(plugins, hooks) && forall p :: p in hooks && !IsMl(p) ==> AddsNothing(p)
    requires Run(plugins, ctx, pending, injection).degraded
    ensures Run(plugins, ctx, pending, injection).pending == []
  {
    var sorted, v := MlFirst(plugins), Veto(ctx, pending, [], false);
    DegradedExactly(sorted, v, injection);
    var k :| 0 <= k < |sorted| && FailsAt(sorted, v, injection, k);
    forall j | k < j < |sorted| ensures AddsNothing(sorted[j]) {
      LaterIsNotMl(plugins, j);
      BrokenAddsNothing();
    }
    FailureIsFinal(sorted, v, injection, k);
  }

  lemma {:induction false} BrokenAddsNothing()
    ensures AddsNothing(BROKEN) && !IsMl(BROKEN)
  {
  }

  lemma {:induction false} LaterIsNotMl(plugins: seq<Plugin>, j: nat)
    requires |Filter(plugins, IsMl)| <= 1 && 1 <= j < |MlFirst(plugins)|
    ensures !IsMl(MlFirst(plugins)[j]) && MlFirst(plugins)[j] in plugins
  {
    FilterSplits(plugins, IsMl);
    var ml, rest := Filter(plugins, IsMl), Reject(plugins, IsMl);
    assert MlFirst(plugins)[j] == rest[j - |ml|] && rest[j - |ml|] in rest;
    assert rest[j - |ml|] in multiset(rest) && rest[j - |ml|] in multiset(plugins);
  }

  /** A hook that makes a signal of its own, and what it gets approved behind a failure. */
  lemma {:induction false} AddingHookDefeatsFailSafe(s: Signal)
    ensures var maker := Plugin(Other("b"), "b", (c: Context, x: seq<Signal>) => Returned(Some([s]), map[], []));
            var r := Fold([BROKEN, maker], Veto(map[], [s], [], false), map[]);
            r.degraded && r.pending == [s]
  {
    var maker := Plugin(Other("b"), "b", (c: Context, x: seq<Signal>) => Returned(Some([s]), map[], []));
    BehindFailure(maker, map[], [s]);
  }

  // ---- the injected fields go nowhere else ----

  ghost predicate Clean(ctx: Context) { ModelBlob !in ctx && FeatureNames !in ctx }

  /** Shown a clean context, a hook other than the ML one does not invent the injected fields. */
  ghost predicate Discreet(p: Plugin) {
    forall ctx, pending {:trigger p.hook(ctx, pending)} ::
      !IsMl(p) && Clean(ctx) && p.hook(ctx, pending).Returned? ==> Clean(p.hook(ctx, pending).extra)
  }

  lemma {:induction false} ContextStaysClean(plugins: seq<Plugin>, v: Veto, injection: Context)
    requires Clean(v.ctx) && forall j :: 0 <= j < |plugins| ==> Discreet(plugins[j])
    ensures Clean(Fold(plugins, v, injection).ctx)
  {
    if plugins != [] {
      var n := |plugins| - 1;
      var before := Fold(plugins[..n], v, injection);
      ContextStaysClean(plugins[..n], v, injection);
      assert Discreet(plugins[n]);
      assert Shown(plugins[n], before, injection) == before.ctx || IsMl(plugins[n]);
    }
  }

  /** The two injected keys never appear in what another hook is shown. */
  lemma {:induction false} InjectionIsPrivate(plugins: seq<Plugin>, v: Veto, injection: Context, k: nat)
    requires Clean(v.ctx) && forall j :: 0 <= j < |plugins| ==> Discreet(plugins[j])
    requires k < |plugins| && !IsMl(plugins[k])
    ensures Clean(Shown(plugins[k], Fold(plugins[..k], v, injection), injection))
  {
    ContextStaysClean(plugins[..k], v, injection);
  }

  /** What is left of an answer once the injected keys are taken out of an ML hook's echo. */
  function Answer(p: Plugin, r: HookResult): HookResult {
    match r
    case Returned(signals, extra, reasons) => Returned(signals, Stripped(p, extra), reasons)
    case _ => r
  }

  /** Two injections that an ML hook answers alike, but for the two keys. */
  ghost predicate AnsweredAlike(p: Plugin, one: Context, other: Context) {
    forall ctx, pending {:trigger p.hook(ctx + one, pending)} ::
      Answer(p, p.hook(ctx + one, pending)) == Answer(p, p.hook(ctx + other, pending))
  }

  /** What is injected reaches the rest of the cycle only through what an ML hook computes from it. */
  lemma {:induction false} NonInterference(plugins: seq<Plugin>, v: Veto, one: Context, other: Context)
    requires forall p :: p in plugins && IsMl(p) ==> AnsweredAlike(p, one, other)
    ensures Fold(plugins, v, one) == Fold(plugins, v, other)
  {
    if plugins != [] {
      var most, p := plugins[..|plugins| - 1], plugins[|plugins| - 1];
      NonInterference(most, v, one, other);
      if IsMl(p) { assert p in plugins && AnsweredAlike(p, one, other); }
      StepByAnswer(p, Fold(most, v, one), one, other);
    }
  }

  lemma {:induction false} StepByAnswer(p: Plugin, v: Veto, one: Context, other: Context)
    requires IsMl(p) ==> AnsweredAlike(p, one, other)
    ensures Step(p, v, one) == Step(p, v, other)
  {
    if IsMl(p) {
      assert Answer(p, p.hook(v.ctx + one, v.pending)) == Answer(p, p.hook(v.ctx + other, v.pending));
    }
  }
}

/** The veto ledger: one row per proposed signal, compared with the finally approved list. */
module VetoLedger {
  import opened Common
  import opened VetoLayer

  datatype Verdict = Approved | Blocked | Modified

  datatype Row = Row(
    symbol: string, source: string, proposedAction: Action, proposedQty: real,
    verdict: Verdict, approvedAction: Option<Action>, approvedQty: Option<real>)

  function SymbolOf(s: Signal): string { match s.symbol case Some(x) => x case None => "" }

  function ActionOf(s: Signal): Action { match s.action case Some(a) => a case None => "" }

  function FirstKnown(xs: seq<Option<real>>): Option<real> {
    if xs == [] then None else if xs[0].Some? then xs[0] else FirstKnown(xs[1..])
  }

  /** The quantity really in force: nested sizing first, then shares, then qty. */
  function EffectiveQty(s: Signal): Option<real> {
    if FirstKnown(s.nested).Some? then FirstKnown(s.nested)
    else if s.shares.Some? then s.shares
    else s.qty
  }

  function FindExact(list: seq<Signal>, symbol: string, source: string): Option<Signal> {
    if list == [] then None
    else if list[0].symbol == Some(symbol) && list[0].source == source then Some(list[0])
    else FindExact(list[1..], symbol, source)
  }

  function FindSymbol(list: seq<Signal>, symbol: string): Option<Signal> {
    if list == [] then None
    else if list[0].symbol == Some(symbol) then Some(list[0])
    else FindSymbol(list[1..], symbol)
  }

  datatype Match = Match(found: Option<Signal>, exact: bool)

  function FindMatch(list: seq<Signal>, symbol: string, source: string): Match {
    var exact := FindExact(list, symbol, source);
    if exact.Some? then Match(exact, true) else Match(FindSymbol(list, symbol), false)
  }

  function CountSymbol(signals: seq<Signal>, symbol: string): nat {
    if signals == [] then 0
    else CountSymbol(signals[..|signals| - 1], symbol) + if SymbolOf(signals[|signals| - 1]) == symbol then 1 else 0
  }

  predicate Ambiguous(m: Match, proposals: nat) {
    !m.exact && proposals > 1 && (m.found.None? || m.found.value.source == "")
  }

  predicate SameKnownQty(a: Signal, b: Signal) {
    EffectiveQty(a).Some? && EffectiveQty(b).Some? && EffectiveQty(a) == EffectiveQty(b)
  }

  datatype Judged = Judged(verdict: Verdict, action: Option<Action>, qty: Option<real>)

  function Resolve(s: Signal, m: Match, ambiguous: bool): Judged {
    if m.found.None? || m.found.value.action == Some(CANCELLED) then Judged(Blocked, None, None)
    else
      var f := m.found.value;
      // a match without a usable action counts as keeping the proposed one
      var action := match f.action case Some(a) => a case None => ActionOf(s);
      if !ambiguous && action == ActionOf(s) && SameKnownQty(s, f) then Judged(Approved, None, None)
      else Judged(Modified, Some(action), EffectiveQty(f))
  }

  function RowFor(signals: seq<Signal>, approved: seq<Signal>, s: Signal): Row {
    var m := FindMatch(approved, SymbolOf(s), s.source);
    var j := Resolve(s, m, Ambiguous(m, CountSymbol(signals, SymbolOf(s))));
    Row(SymbolOf(s), s.source, ActionOf(s), match s.qty { case Some(q) => q case None => 0.0 },
        j.verdict, j.action, j.qty)
  }

  /** Rows whose write does not fail; `writes[i]` says whether row i's write succeeds. */
  function Written(signals: seq<Signal>, approved: seq<Signal>, writes: nat -> bool, n: nat): seq<Row>
    requires n <= |signals|
  {
    if n == 0 then []
    else
      var row := if writes(n - 1) then [RowFor(signals, approved, signals[n - 1])] else [];
      Written(signals, approved, writes, n - 1) + row
  }

  /** A failed write loses that row only, and is audited. */
  method PersistVetoDecisions(signals: seq<Signal>, approved: seq<Signal>, writes: nat -> bool)
    returns (rows: seq<Row>, failures: seq<nat>)
    ensures rows == Written(signals, approved, writes, |signals|)
    ensures |rows| + |failures| == |signals|
    ensures forall i :: i in failures <==> 0 <= i < |signals| && !writes(i)
  {
    rows, failures := [], [];
    for i := 0 to |signals|
      invariant rows == Written(signals, approved, writes, i) && |rows| + |failures| == i
      invariant forall k :: k in failures <==> 0 <= k < i && !writes(k)
    {
      var row := RowFor(signals, approved, signals[i]);
      if writes(i) { rows := rows + [row]; } else { failures := failures + [i]; }
    }
  }

  lemma {:induction false} ExactIsFirst(list: seq<Signal>, symbol: string, source: string)
    ensures FindExact(list, symbol, source).Some? <==>
      exists j :: 0 <= j < |list| && list[j].symbol == Some(symbol) && list[j].source == source
    ensures FindExact(list, symbol, source).Some? ==>
      var f := FindExact(list, symbol, source).value;
      f in list && f.symbol == Some(symbol) && f.source == source
  {
    if list != [] {
      var rest := list[1..];
      ExactIsFirst(rest, symbol, source);
      if j :| 1 <= j < |list| && list[j].symbol == Some(symbol) && list[j].source == source {
        assert rest[j - 1] == list[j];
      }
      if j :| 0 <= j < |rest| && rest[j].symbol == Some(symbol) && rest[j].source == source {
        assert list[j + 1] == rest[j];
      }
    }
  }

  lemma {:induction false} SymbolIsFirst(list: seq<Signal>, symbol: string)
    ensures FindSymbol(list, symbol).Some? <==> exists j :: 0 <= j < |list| && list[j].symbol == Some(symbol)
    ensures FindSymbol(list, symbol).Some? ==>
      FindSymbol(list, symbol).value in list && FindSymbol(list, symbol).value.symbol == Some(symbol)
  {
    if list != [] {
      var rest := list[1..];
      SymbolIsFirst(rest, symbol);
      if j :| 1 <= j < |list| && list[j].symbol == Some(symbol) { assert rest[j - 1] == list[j]; }
      if j :| 0 <= j < |rest| && rest[j].symbol == Some(symbol) { assert list[j + 1] == rest[j]; }
    }
  }

  /** A match is found exactly when the approved list still has the symbol, and it is from that list. */
  lemma {:induction false} MatchIsFromList(list: seq<Signal>, symbol: string, source: string)
    ensures var m := FindMatch(list, symbol, source);
            && (m.found.Some? <==> exists j :: 0 <= j < |list| && list[j].symbol == Some(symbol))
            && (m.found.Some? ==> m.found.value in list && m.found.value.symbol == Some(symbol))
            && (m.exact ==> m.found.Some? && m.found.value.source == source)
  {
    ExactIsFirst(list, symbol, source);
    SymbolIsFirst(list, symbol);
    if FindExact(list, symbol, source).Some? {
      var f := FindExact(list, symbol, source).value;
      var j :| 0 <= j < |list| && list[j] == f;
    }
  }

  /** `f` is what the audit trail must be able to point at for an approved `s`. */
  predicate Backs(f: Signal, s: Signal) {
    && f.symbol == Some(SymbolOf(s)) && SameKnownQty(s, f)
    && f.action != Some(CANCELLED) && (f.action == Some(ActionOf(s)) || f.action.None?)
  }

  /** An approved row is backed by a signal of the final list. */
  lemma {:induction false} ApprovedIsHonest(signals: seq<Signal>, approved: seq<Signal>, s: Signal)
    requires RowFor(signals, approved, s).verdict == Approved
    ensures exists f :: f in approved && Backs(f, s)
  {
    MatchIsFromList(approved, SymbolOf(s), s.source);
  }

  /** A symbol that is gone from the final list is always reported blocked. */
  lemma {:induction false} MissingIsBlocked(signals: seq<Signal>, approved: seq<Signal>, s: Signal)
    requires forall f :: f in approved ==> f.symbol != Some(SymbolOf(s))
    ensures RowFor(signals, approved, s).verdict == Blocked
  {
    MatchIsFromList(approved, SymbolOf(s), s.source);
  }

  /** When the label "approved" also means the same action: exactly when the match has one. */
  lemma {:induction false} ApprovedSameActionExactly(signals: seq<Signal>, approved: seq<Signal>, s: Signal)
    requires RowFor(signals, approved, s).verdict == Approved
    ensures var m := FindMatch(approved, SymbolOf(s), s.source);
            m.found.Some? && (m.found.value.action == Some(ActionOf(s)) <==> m.found.value.action.Some?)
  {
  }

  /** ... and a match without an action really is reported approved. */
  lemma {:induction false} MissingActionIsApproved(symbol: string, a: Action, qty: real)
    requires a != CANCELLED
    ensures var s := Signal(Some(symbol), Some(a), "p", [], None, Some(qty), 0);
            var f := Signal(Some(symbol), None, "p", [], None, Some(qty), 0);
            RowFor([s], [f], s).verdict == Approved && f.action != s.action
  {
    var f := Signal(Some(symbol), None, "p", [], None, Some(qty), 0);
    assert FindExact([f], symbol, "p") == Some(f);
  }

  // ---- every row, exactly ----

  /** The first signal of the list with the symbol and the source or, if there is none, the first with the symbol. */
  ghost predicate IsMatch(list: seq<Signal>, symbol: string, source: string, f: Option<Signal>) {
    if exists s :: s in list && s.symbol == Some(symbol) && s.source == source then
      exists j :: 0 <= j < |list| && f == Some(list[j]) && list[j].symbol == Some(symbol) && list[j].source == source
                  && forall i :: 0 <= i < j ==> !(list[i].symbol == Some(symbol) && list[i].source == source)
    else if exists s :: s in list && s.symbol == Some(symbol) then
      exists j :: 0 <= j < |list| && f == Some(list[j]) && list[j].symbol == Some(symbol)
                  && forall i :: 0 <= i < j ==> list[i].symbol != Some(symbol)
    else f.None?
  }

  lemma {:induction false} ExactPlace(list: seq<Signal>, symbol: string, source: string, j: nat)
    requires j < |list| && list[j].symbol == Some(symbol) && list[j].source == source
    requires forall i :: 0 <= i < j ==> !(list[i].symbol == Some(symbol) && list[i].source == source)
    ensures FindExact(list, symbol, source) == Some(list[j])
  {
    if j > 0 { ExactPlace(list[1..], symbol, source, j - 1); }
  }

  lemma {:induction false} SymbolPlace(list: seq<Signal>, symbol: string, j: nat)
    requires j < |list| && list[j].symbol == Some(symbol)
    requires forall i :: 0 <= i < j ==> list[i].symbol != Some(symbol)
    ensures FindSymbol(list, symbol) == Some(list[j])
  {
    if j > 0 { SymbolPlace(list[1..], symbol, j - 1); }
  }

  lemma {:induction false} MatchExactly(list: seq<Signal>, symbol: string, source: string, f: Option<Signal>)
    requires IsMatch(list, symbol, source, f)
    ensures FindMatch(list, symbol, source).found == f
    ensures FindMatch(list, symbol, source).exact <==>
      exists s :: s in list && s.symbol == Some(symbol) && s.source == source
  {
    ExactIsFirst(list, symbol, source);
    SymbolIsFirst(list, symbol);
    if s :| s in list && s.symbol == Some(symbol) && s.source == source {
      var j :| 0 <= j < |list| && f == Some(list[j]) && list[j].symbol == Some(symbol) && list[j].source == source
               && forall i :: 0 <= i < j ==> !(list[i].symbol == Some(symbol) && list[i].source == source);
      ExactPlace(list, symbol, source, j);
    } else if s :| s in list && s.symbol == Some(symbol) {
      var j :| 0 <= j < |list| && f == Some(list[j]) && list[j].symbol == Some(symbol)
               && forall i :: 0 <= i < j ==> list[i].symbol != Some(symbol);
      SymbolPlace(list, symbol, j);
    }
  }

  /** The quantity a signal really stands for: the first nested sizing that has one, then shares, then qty. */
  ghost predicate StandsFor(s: Signal, q: Option<real>) {
    if exists j :: 0 <= j < |s.nested| && s.nested[j].Some? then
      exists j :: 0 <= j < |s.nested| && s.nested[j].Some? && q == s.nested[j]
                  && forall i :: 0 <= i < j ==> s.nested[i].None?
    else q == if s.shares.Some? then s.shares else s.qty
  }

  lemma {:induction false} FirstKnownPlace(xs: seq<Option<real>>)
    ensures if exists j :: 0 <= j < |xs| && xs[j].Some? then
              exists j :: 0 <= j < |xs| && xs[j].Some? && FirstKnown(xs) == xs[j] && forall i :: 0 <= i < j ==> xs[i].None?
            else FirstKnown(xs).None?
  {
    if xs != [] {
      var rest := xs[1..];
      FirstKnownPlace(rest);
      if xs[0].None? {
        if j :| 0 <= j < |xs| && xs[j].Some? { assert rest[j - 1].Some?; }
        if j :| 0 <= j < |rest| && rest[j].Some? && FirstKnown(rest) == rest[j] && forall i :: 0 <= i < j ==> rest[i].None? {
          forall i | 0 <= i < j + 1 ensures xs[i].None? { if i > 0 { assert rest[i - 1].None?; } }
          assert xs[j + 1] == rest[j];
        }
      }
    }
  }

  lemma {:induction false} EffectiveExactly(s: Signal)
    ensures StandsFor(s, EffectiveQty(s))
  {
    FirstKnownPlace(s.nested);
  }

  lemma {:induction false} CountIsFilter(signals: seq<Signal>, symbol: string)
    ensures CountSymbol(signals, symbol) == |Filter(signals, (s: Signal) => SymbolOf(s) == symbol)|
  {
    if signals != [] { CountIsFilter(signals[..|signals| - 1], symbol); }
  }

  /** Several proposals of one symbol, and a match that names no source: it may be anybody's. */
  ghost predicate Unclear(signals: seq<Signal>, approved: seq<Signal>, s: Signal, f: Signal) {
    && |Filter(signals, (x: Signal) => SymbolOf(x) == SymbolOf(s))| > 1 && f.source == ""
    && !exists x :: x in approved && x.symbol == Some(SymbolOf(s)) && x.source == s.source
  }

  /**
   * Every row, from the proposal and its match alone: blocked without a live match, approved when the match
   * clearly keeps the action and the known quantity, and otherwise modified to what the match says.
   */
  lemma {:induction false} RowExactly(signals: seq<Signal>, approved: seq<Signal>, s: Signal, f: Option<Signal>)
    requires IsMatch(approved, SymbolOf(s), s.source, f)
    ensures var row := RowFor(signals, approved, s);
      && row.symbol == SymbolOf(s) && row.source == s.source && row.proposedAction == ActionOf(s)
      && row.proposedQty == (if s.qty.Some? then s.qty.value else 0.0)
      && (row.verdict == Blocked <==> f.None? || f.value.action == Some("cancelled"))
      && (row.verdict == Approved <==>
            && f.Some? && f.value.action != Some("cancelled") && !Unclear(signals, approved, s, f.value)
            && (f.value.action.None? || f.value.action == Some(ActionOf(s)))
            && EffectiveQty(s).Some? && EffectiveQty(s) == EffectiveQty(f.value))
      && (row.verdict == Modified ==>
            && row.approvedAction == Some(if f.value.action.Some? then f.value.action.value else ActionOf(s))
            && row.approvedQty == EffectiveQty(f.value))
  {
    MatchExactly(approved, SymbolOf(s), s.source, f);
    CountIsFilter(signals, SymbolOf(s));
  }
}
