/** The gate every tool call of the language model passes before it can be dispatched. */
module ToolGate {
  import opened Common

  /** Plugin ids, the two reserved ones by name. */
  datatype PluginId = Kernel | Decision | Named(id: string)

  /** Function names: the kernel's own tools, the trade intent, and everything else. */
  datatype Fn =
    | WriteSkill | CreatePretestVariant | RunPretestCompare | PromotePretest | RecordLesson
    | TrainMlModel | TunePluginParam | WebSearch | EmitTradeIntent | Function(name: string)

  predicate IsKernelTool(f: Fn) { !f.EmitTradeIntent? && !f.Function? }

  predicate IsAlwaysAllowed(f: Fn) { f.WebSearch? }

  /**
   * `exits` says whether `args.action` is "exit" and `signals` whether both `args.symbol` and
   * `args.action` are text; `args` stands for the rest of the arguments.
   */
  datatype Call = Call(plugin: PluginId, fn: Fn, exits: bool, signals: bool, args: int)

  datatype Plugin = Plugin(id: PluginId, isProvider: bool)

  /** A declared tool and its schema name. */
  datatype Tool = Tool(plugin: PluginId, name: string)

  datatype DropReason =
    | UnknownKernelTool | KernelSourceNotAllowed | VirtualProviderBlocked
    | PluginInactive | PluginNotFound | FunctionNotDeclared

  datatype Source = Chat | Cycle | Pretest | Reflection | OtherSource

  function FirstWithId(plugins: seq<Plugin>, id: PluginId): Option<Plugin> {
    if plugins == [] then None
    else if plugins[0].id == id then Some(plugins[0])
    else FirstWithId(plugins[1..], id)
  }

  predicate Declared(tools: seq<Tool>, name: string) {
    exists j :: 0 <= j < |tools| && tools[j].name == name
  }

  predicate Known(tools: seq<Tool>, plugin: PluginId) {
    exists j :: 0 <= j < |tools| && tools[j].plugin == plugin
  }

  /**
   * Everything the gate looks at in one iteration. `naming` builds the schema name of a plugin's
   * function; a failed plugin lookup leaves `active` empty. `dropWrite` says whether the audit write
   * for dropping the j-th call goes through, and `failWrite` whether the one for a failed validation does.
   */
  datatype Gate = Gate(
    source: Source, virtualOnly: bool, tools: seq<Tool>, naming: (PluginId, Fn) -> string,
    active: Option<seq<Plugin>>, dropWrite: nat -> bool, failWrite: bool)

  function DropReasonFor(g: Gate, active: seq<Plugin>, call: Call): Option<DropReason> {
    var plugin := FirstWithId(active, call.plugin);
    if call.plugin == Kernel then
      if !IsKernelTool(call.fn) then Some(UnknownKernelTool)
      else if IsAlwaysAllowed(call.fn) then None
      else if g.source != Reflection then Some(KernelSourceNotAllowed)
      else None
    else if g.virtualOnly && plugin.Some? && plugin.value.isProvider then Some(VirtualProviderBlocked)
    else if plugin.None? then Some(if Known(g.tools, call.plugin) then PluginInactive else PluginNotFound)
    else if !Declared(g.tools, g.naming(call.plugin, call.fn)) then Some(FunctionNotDeclared)
    else None
  }

  predicate Passes(g: Gate, call: Call) {
    g.active.Some? && DropReasonFor(g, g.active.value, call).None?
  }

  function Validated(g: Gate, calls: seq<Call>): seq<Call> {
    if calls == [] then []
    else Validated(g, calls[..|calls| - 1]) + if Passes(g, calls[|calls| - 1]) then [calls[|calls| - 1]] else []
  }

  /** The plugins load, and every drop that is due gets written. */
  predicate Undisturbed(g: Gate, calls: seq<Call>) {
    g.active.Some? && forall j: nat :: j < |calls| && !Passes(g, calls[j]) ==> g.dropWrite(j)
  }

  /** The validated list: nothing at all once something throws. None stands for an exception that escapes. */
  function Validation(g: Gate, calls: seq<Call>): Option<seq<Call>> {
    if calls == [] then Some([])
    else if Undisturbed(g, calls) then Some(Validated(g, calls))
    else if g.failWrite then Some([])
    else None
  }

  /** What the source's catch block comes to. */
  function Caught(g: Gate): Option<seq<Call>> { if g.failWrite then Some([]) else None }

  /** The call was asked for, and this is the reason it does not pass. */
  predicate DroppedFor(g: Gate, calls: seq<Call>, c: Call, r: DropReason) {
    c in calls && g.active.Some? && DropReasonFor(g, g.active.value, c) == Some(r)
  }

  method ValidateToolCalls(g: Gate, calls: seq<Call>)
    returns (result: Option<seq<Call>>, dropped: seq<(Call, DropReason)>)
    ensures result == Validation(g, calls)
    ensures forall j :: 0 <= j < |dropped| ==> DroppedFor(g, calls, dropped[j].0, dropped[j].1)
    ensures Undisturbed(g, calls) ==> result.Some? && |result.value| + |dropped| == |calls|
  {
    dropped := [];
    if calls == [] { return Some([]), []; }
    if g.active.None? { return Caught(g), []; }
    var valid: seq<Call> := [];
    for i := 0 to |calls|
      invariant valid == Validated(g, calls[..i]) && |valid| + |dropped| == i
      invariant forall j :: 0 <= j < |dropped| ==> DroppedFor(g, calls, dropped[j].0, dropped[j].1)
      invariant forall j: nat :: j < i && !Passes(g, calls[j]) ==> g.dropWrite(j)
    {
      assert calls[..i + 1][..i] == calls[..i];
      var reason := DropReasonFor(g, g.active.value, calls[i]);
      match reason
      case Some(r) =>
        if !g.dropWrite(i) { return Caught(g), dropped; }
        dropped := dropped + [(calls[i], r)];
      case None => valid := valid + [calls[i]];
    }
    assert calls[..|calls|] == calls;
    result := Some(valid);
  }

  lemma {:induction false} ValidatedPass(g: Gate, calls: seq<Call>)
    ensures forall c :: c in Validated(g, calls) <==> c in calls && Passes(g, c)
  {
    if calls != [] {
      ValidatedPass(g, calls[..|calls| - 1]);
      assert forall c :: c in calls <==> c in calls[..|calls| - 1] || c == calls[|calls| - 1];
    }
  }

  /**
   * A call comes out of the validation exactly when it was asked for, passes, and nothing at all went
   * wrong: one failed write for dropping another call loses it too.
   */
  lemma {:induction false} ValidatedExactly(g: Gate, calls: seq<Call>, c: Call)
    ensures Validation(g, calls).Some? && c in Validation(g, calls).value
            <==> c in calls && Passes(g, c) && Undisturbed(g, calls)
    ensures Validation(g, calls).None? <==> calls != [] && !Undisturbed(g, calls) && !g.failWrite
  {
    ValidatedPass(g, calls);
  }

  /** What passing the gate means for each kind of turn. */
  lemma {:induction false} GateGuarantee(g: Gate, c: Call)
    requires Passes(g, c)
    ensures c.plugin == Kernel && g.source != Reflection ==> c.fn == WebSearch
    ensures g.virtualOnly && c.plugin != Kernel ==>
      FirstWithId(g.active.value, c.plugin).Some? && !FirstWithId(g.active.value, c.plugin).value.isProvider
    ensures c.plugin != Kernel ==> Declared(g.tools, g.naming(c.plugin, c.fn))
    ensures g.tools == [] && g.source != Reflection ==> c.plugin == Kernel && c.fn == WebSearch
  {
  }

  /** Exactly which calls pass. */
  lemma {:induction false} PassesExactly(g: Gate, c: Call)
    ensures Passes(g, c) <==>
      && g.active.Some?
      && if c.plugin == Kernel then c.fn == WebSearch || (IsKernelTool(c.fn) && g.source == Reflection)
         else
           && FirstWithId(g.active.value, c.plugin).Some?
           && !(g.virtualOnly && FirstWithId(g.active.value, c.plugin).value.isProvider)
           && exists tool :: tool in g.tools && tool.name == g.naming(c.plugin, c.fn)
  {
    DeclaredExactly(g.tools, g.naming(c.plugin, c.fn));
  }

  /** Which reason a call is dropped for, from the call and what the gate looks at alone. */
  lemma {:induction false} ReasonExactly(g: Gate, c: Call, active: seq<Plugin>)
    ensures var r, kernel := DropReasonFor(g, active, c), c.plugin == Kernel;
      var there := exists p :: p in active && p.id == c.plugin;
      var known := exists t :: t in g.tools && t.plugin == c.plugin;
      var declared := exists t :: t in g.tools && t.name == g.naming(c.plugin, c.fn);
      && (r == Some(UnknownKernelTool) <==> kernel && (c.fn.EmitTradeIntent? || c.fn.Function?))
      && (r == Some(KernelSourceNotAllowed) <==>
            kernel && !c.fn.EmitTradeIntent? && !c.fn.Function? && c.fn != WebSearch && g.source != Reflection)
      && (r == Some(VirtualProviderBlocked) ==> !kernel && g.virtualOnly && there)
      && (r == Some(PluginInactive) <==> !kernel && !there && known)
      && (r == Some(PluginNotFound) <==> !kernel && !there && !known)
      && (r == Some(FunctionNotDeclared) ==> !kernel && there && !declared)
  {
    FirstIsThere(active, c.plugin);
    KnownExactly(g.tools, c.plugin);
    DeclaredExactly(g.tools, g.naming(c.plugin, c.fn));
  }

  lemma {:induction false} KnownExactly(tools: seq<Tool>, plugin: PluginId)
    ensures Known(tools, plugin) <==> exists t :: t in tools && t.plugin == plugin
  {
    if t :| t in tools && t.plugin == plugin {
      var j :| 0 <= j < |tools| && tools[j] == t;
      assert tools[j].plugin == plugin;
    }
    if j :| 0 <= j < |tools| && tools[j].plugin == plugin { assert tools[j] in tools; }
  }

  lemma {:induction false} DeclaredExactly(tools: seq<Tool>, name: string)
    ensures Declared(tools, name) <==> exists t :: t in tools && t.name == name
  {
    if t :| t in tools && t.name == name {
      var j :| 0 <= j < |tools| && tools[j] == t;
      assert tools[j].name == name;
    }
    if j :| 0 <= j < |tools| && tools[j].name == name { assert tools[j] in tools; }
  }

  lemma {:induction false} FirstIsThere(plugins: seq<Plugin>, id: PluginId)
    ensures FirstWithId(plugins, id).Some? <==> exists p :: p in plugins && p.id == id
    ensures FirstWithId(plugins, id).Some? ==> FirstWithId(plugins, id).value.id == id
  {
    if plugins != [] { FirstIsThere(plugins[1..], id); }
  }
}

/** One iteration's dispatch: separate budgets for searches and trades, exits first. */
module ToolDispatch {
  import opened Common
  import opened ToolGate

  const MAX_SEARCHES_PER_ITERATION := 3

  predicate IsReadOnly(c: Call) { c.plugin == Kernel && IsAlwaysAllowed(c.fn) }

  predicate IsExit(c: Call) { c.plugin == Decision && c.fn == EmitTradeIntent && c.exits }

  function ReadOnly(calls: seq<Call>): seq<Call> { Filter(calls, IsReadOnly) }

  function Budgeted(calls: seq<Call>): seq<Call> { Reject(calls, IsReadOnly) }

  function Exits(calls: seq<Call>): seq<Call> { Filter(calls, IsExit) }

  function Rest(calls: seq<Call>): seq<Call> { Reject(calls, IsExit) }

  function Prioritised(calls: seq<Call>): seq<Call> { Exits(calls) + Rest(calls) }

  /** Dispatched searches and trades of one iteration, and what the audit reports as skipped. */
  datatype Execution = Execution(
    searches: seq<Call>, trades: seq<Call>, searchesDropped: nat, tradesDropped: nat, dropped: seq<Call>)

  function Execute(calls: seq<Call>, budget: int, searchBudget: int): Execution {
    var all := ReadOnly(calls);
    var searches := SliceTo(all, MinInt(MAX_SEARCHES_PER_ITERATION, MaxInt(0, searchBudget)));
    var order := Prioritised(Budgeted(calls));
    var trades := SliceTo(order, MaxInt(0, budget));
    Execution(searches, trades, |all| - |searches|, |order| - |trades|, order[|trades|..])
  }

  // ---- one dispatch ----

  datatype Panel = PanelThrows | NoConsensus | Consensus(reject: bool)

  datatype Answer = ToolThrows | Answered(ok: bool)

  /**
   * Everything outside that one dispatch meets. `roles` counts the active debate roles (none when their
   * lookup fails), `looksBig` is the notional test on quotes, and the four writes say whether the audit
   * store takes the start of the debate, what the panel came to, the signal and the failure.
   */
  datatype Moment = Moment(
    present: bool, enabled: bool, failBlock: bool, roles: nat, looksBig: bool, panel: Panel, answer: Answer,
    startWrite: bool, panelWrite: bool, signalWrite: bool, failWrite: bool)

  predicate IsHighImpact(m: Moment, c: Call) {
    !IsExit(c) && ((c.plugin == Kernel && c.fn == PromotePretest) || m.looksBig)
  }

  datatype Verdict = Allows | Drops | DebateThrows

  function Debated(m: Moment, c: Call): Verdict {
    if !m.present || !m.enabled || m.roles == 0 || !IsHighImpact(m, c) then Allows
    else if !m.startWrite then DebateThrows
    else if m.panel.NoConsensus? then Allows
    else if !m.panelWrite then DebateThrows
    else if (if m.panel.PanelThrows? then m.failBlock else m.panel.reject) then Drops
    else Allows
  }

  /**
   * Blocked by the debate, lost to an exception of the debate, lost to one of the tool, answered with the
   * signal's audit write failing before the intent is recorded, or done.
   */
  datatype Dispatch = Blocked | Unreached | ToolThrew | Unsigned | Done(ok: bool)

  function DispatchOne(m: Moment, c: Call): Dispatch {
    match Debated(m, c)
    case Drops => Blocked
    case DebateThrows => Unreached
    case Allows =>
      match m.answer
      case ToolThrows => ToolThrew
      case Answered(ok) => if c.plugin != Kernel && c.signals && !m.signalWrite then Unsigned else Done(ok)
  }

  predicate ReachesTool(d: Dispatch) { !d.Blocked? && !d.Unreached? }

  /** The trade-intent service, where there is one, is handed this call. */
  predicate HandsIntent(c: Call, d: Dispatch) {
    d == Done(true) && c.plugin == Decision && c.fn == EmitTradeIntent && c.signals
  }

  /** The exception is caught, but the audit write inside the catch block throws again. */
  predicate Escapes(m: Moment, c: Call) {
    var d := DispatchOne(m, c);
    (d.Unreached? || d.ToolThrew? || d.Unsigned?) && !m.failWrite
  }

  /** The call names a symbol, its tool accepts it and its signal gets written. */
  predicate Accepted(m: Moment, c: Call) { c.signals && m.answer == Answered(true) && m.signalWrite }

  /** An exit never meets the debate: whatever happens there, it reaches its tool. */
  lemma ExitDispatchExactly(m: Moment, c: Call)
    requires IsExit(c)
    ensures ReachesTool(DispatchOne(m, c))
    ensures HandsIntent(c, DispatchOne(m, c)) <==> Accepted(m, c)
    ensures Escapes(m, c) <==> !m.failWrite && (m.answer.ToolThrows? || (c.signals && !m.signalWrite))
  {
  }

  /** The debate is on, has roles, and the call is one it judges: a promotion or a big order, never an exit. */
  predicate Judged(m: Moment, c: Call) {
    && m.present && m.enabled && m.roles > 0
    && !(c.plugin == Decision && c.fn == EmitTradeIntent && c.exits)
    && ((c.plugin == Kernel && c.fn == PromotePretest) || m.looksBig)
  }

  /** Exactly what becomes of any call, over the answers it meets alone. */
  lemma DispatchExactly(m: Moment, c: Call)
    ensures DispatchOne(m, c) == Blocked <==>
      && Judged(m, c) && m.startWrite && m.panelWrite
      && (m.panel == Consensus(true) || (m.panel == PanelThrows && m.failBlock))
    ensures DispatchOne(m, c) == Unreached <==>
      Judged(m, c) && (!m.startWrite || (!m.panelWrite && m.panel != NoConsensus))
    ensures DispatchOne(m, c) == ToolThrew <==> ReachesTool(DispatchOne(m, c)) && m.answer == ToolThrows
    ensures DispatchOne(m, c) == Unsigned <==>
      && ReachesTool(DispatchOne(m, c)) && m.answer != ToolThrows
      && c.plugin != Kernel && c.signals && !m.signalWrite
    ensures DispatchOne(m, c).Done? ==> m.answer == Answered(DispatchOne(m, c).ok)
  {
  }

  // ---- the dispatches of one iteration ----

  /** What became of one dispatched call. */
  datatype Decided = Decided(call: Call, outcome: Dispatch)

  /**
   * What the k-th dispatch of iteration i meets, and which of the other audit writes of iteration i go
   * through: too many searches, too many trade calls, the turn, the loop's trace and its last word, and
   * the gate's two.
   */
  datatype World = World(
    moment: (nat, nat) -> Moment, searchCap: nat -> bool, tradeCap: nat -> bool,
    turnLog: nat -> bool, reactLog: nat -> bool, exhaustedLog: nat -> bool,
    dropWrite: (nat, nat) -> bool, gateFailWrite: nat -> bool)

  /** The calls dispatched so far, and whether an exception has ended it. */
  datatype Carried = Carried(ds: seq<Decided>, raised: bool)

  /** `calls` in turn, from the `at`-th dispatch of iteration i on, up to the first exception that escapes. */
  function InTurn(w: World, i: nat, at: nat, calls: seq<Call>): Carried {
    if calls == [] then Carried([], false)
    else
      var n := |calls| - 1;
      var before := InTurn(w, i, at, calls[..n]);
      if before.raised then before
      else
        var m := w.moment(i, at + n);
        Carried(before.ds + [Decided(calls[n], DispatchOne(m, calls[n]))], Escapes(m, calls[n]))
  }

  /** Searches, the audit write for skipped ones, trade calls, the audit write for skipped ones. */
  function Carry(w: World, i: nat, e: Execution): Carried {
    var s := InTurn(w, i, 0, e.searches);
    if s.raised then s
    else if e.searchesDropped > 0 && !w.searchCap(i) then Carried(s.ds, true)
    else
      var t := InTurn(w, i, |e.searches|, e.trades);
      Carried(s.ds + t.ds, t.raised || (e.tradesDropped > 0 && !w.tradeCap(i)))
  }

  lemma {:induction false} RaisedStays(w: World, i: nat, at: nat, calls: seq<Call>, k: nat)
    requires k <= |calls| && InTurn(w, i, at, calls[..k]).raised
    ensures InTurn(w, i, at, calls) == InTurn(w, i, at, calls[..k])
  {
    var n := |calls| - 1;
    if k <= n {
      assert calls[..n][..k] == calls[..k];
      RaisedStays(w, i, at, calls[..n], k);
    } else {
      assert calls[..k] == calls;
    }
  }

  method DispatchAll(w: World, i: nat, at: nat, calls: seq<Call>) returns (ds: seq<Decided>, raised: bool)
    ensures Carried(ds, raised) == InTurn(w, i, at, calls)
  {
    ds := [];
    for k := 0 to |calls|
      invariant InTurn(w, i, at, calls[..k]) == Carried(ds, false)
    {
      assert calls[..k + 1][..k] == calls[..k];
      var m := w.moment(i, at + k);
      ds := ds + [Decided(calls[k], DispatchOne(m, calls[k]))];
      if Escapes(m, calls[k]) {
        RaisedStays(w, i, at, calls, k + 1);
        return ds, true;
      }
    }
    assert calls[..|calls|] == calls;
    raised := false;
  }

  /** Searches first, then the trade calls with exits in front, all through the same dispatch. */
  method ExecuteToolCalls(calls: seq<Call>, budget: int, searchBudget: int, w: World, i: nat)
    returns (e: Execution, ds: seq<Decided>, raised: bool)
    ensures e == Execute(calls, budget, searchBudget)
    ensures Carried(ds, raised) == Carry(w, i, e)
    ensures forall p: nat :: p < |e.trades| && IsExit(e.trades[p]) ==>
      (ReachedAt(ds, |e.searches| + p, e.trades[p]) <==> Clear(w, i, e, p))
  {
    e := Execute(calls, budget, searchBudget);
    forall p: nat | p < |e.trades| && IsExit(e.trades[p])
      ensures ReachedAt(Carry(w, i, e).ds, |e.searches| + p, e.trades[p]) <==> Clear(w, i, e, p)
    {
      ExitReachesToolExactly(w, i, e, p);
    }
    ds, raised := DispatchAll(w, i, 0, e.searches);
    if raised { return; }
    if e.searchesDropped > 0 && !w.searchCap(i) { return e, ds, true; }
    var traded;
    traded, raised := DispatchAll(w, i, |e.searches|, e.trades);
    ds := ds + traded;
    if e.tradesDropped > 0 && !w.tradeCap(i) { raised := true; }
  }

  // ---- exactly which calls are dispatched ----

  /** None of the first k dispatches ends the iteration. */
  predicate Quiet(w: World, i: nat, at: nat, calls: seq<Call>, k: nat)
    requires k <= |calls|
  {
    forall j: nat :: j < k ==> !Escapes(w.moment(i, at + j), calls[j])
  }

  /** A call is dispatched exactly when nothing before it escapes. */
  lemma {:induction false} InTurnExactly(w: World, i: nat, at: nat, calls: seq<Call>)
    ensures var c := InTurn(w, i, at, calls);
      && |c.ds| <= |calls| && (c.raised <==> !Quiet(w, i, at, calls, |calls|)) && (!c.raised ==> |c.ds| == |calls|)
      && (forall p: nat :: p < |calls| ==> (p < |c.ds| <==> Quiet(w, i, at, calls, p)))
      && (forall p: nat :: p < |c.ds| ==> c.ds[p] == Decided(calls[p], DispatchOne(w.moment(i, at + p), calls[p])))
  {
    if calls != [] {
      var n := |calls| - 1;
      InTurnExactly(w, i, at, calls[..n]);
      forall p: nat | p <= n ensures Quiet(w, i, at, calls, p) == Quiet(w, i, at, calls[..n], p) {
        QuietBefore(w, i, at, calls, n, p);
      }
      QuietNext(w, i, at, calls, n);
    }
  }

  lemma {:induction false} QuietBefore(w: World, i: nat, at: nat, calls: seq<Call>, n: nat, p: nat)
    requires p <= n <= |calls|
    ensures Quiet(w, i, at, calls, p) == Quiet(w, i, at, calls[..n], p)
  {
    forall j: nat | j < p ensures calls[j] == calls[..n][j] {}
  }

  lemma {:induction false} QuietNext(w: World, i: nat, at: nat, calls: seq<Call>, n: nat)
    requires n < |calls|
    ensures Quiet(w, i, at, calls, n + 1) <==>
            Quiet(w, i, at, calls, n) && !Escapes(w.moment(i, at + n), calls[n])
  {
  }

  /**
   * Nothing before the p-th selected trade call ends the iteration: no search and no earlier trade call
   * raises an exception that escapes, and the write about skipped searches, if one is due, goes through.
   */
  predicate Clear(w: World, i: nat, e: Execution, p: nat)
    requires p <= |e.trades|
  {
    && Quiet(w, i, 0, e.searches, |e.searches|)
    && (e.searchesDropped > 0 ==> w.searchCap(i))
    && Quiet(w, i, |e.searches|, e.trades, p)
  }

  /** The `at`-th dispatch happened, was this call, and got to its tool. */
  predicate ReachedAt(ds: seq<Decided>, at: nat, c: Call) {
    at < |ds| && ds[at].call == c && ReachesTool(ds[at].outcome)
  }

  /** The `at`-th dispatch happened, was this call, and its intent was handed on. */
  predicate IntentAt(ds: seq<Decided>, at: nat, c: Call) {
    at < |ds| && ds[at].call == c && HandsIntent(c, ds[at].outcome)
  }

  /** The p-th selected trade call is dispatched exactly when all is clear before it. */
  lemma {:induction false} DispatchedExactly(w: World, i: nat, e: Execution, p: nat)
    requires p < |e.trades|
    ensures var at, ds, c := |e.searches| + p, Carry(w, i, e).ds, e.trades[p];
      && (at < |ds| <==> Clear(w, i, e, p))
      && (at < |ds| ==> ds[at] == Decided(c, DispatchOne(w.moment(i, at), c)))
  {
    var s, t := InTurn(w, i, 0, e.searches), InTurn(w, i, |e.searches|, e.trades);
    InTurnExactly(w, i, 0, e.searches);
    if !s.raised && (e.searchesDropped > 0 ==> w.searchCap(i)) {
      InTurnAt(w, i, |e.searches|, e.trades, p);
      TailAt(s.ds, t.ds, p);
    }
  }

  lemma {:induction false} InTurnAt(w: World, i: nat, at: nat, calls: seq<Call>, p: nat)
    requires p < |calls|
    ensures var ds := InTurn(w, i, at, calls).ds;
      && (p < |ds| <==> Quiet(w, i, at, calls, p))
      && (p < |ds| ==> ds[p] == Decided(calls[p], DispatchOne(w.moment(i, at + p), calls[p])))
  {
    InTurnExactly(w, i, at, calls);
  }

  lemma TailAt(a: seq<Decided>, b: seq<Decided>, p: nat)
    ensures |a| + p < |a + b| <==> p < |b|
    ensures p < |b| ==> (a + b)[|a| + p] == b[p]
  {
  }

  /**
   * A selected exit reaches its tool exactly when all is clear before it, and its intent is handed on
   * exactly when moreover the call names a symbol, the tool accepts it and its signal gets written.
   */
  lemma {:induction false} ExitReachesToolExactly(w: World, i: nat, e: Execution, p: nat)
    requires p < |e.trades| && IsExit(e.trades[p])
    ensures var at, ds, c := |e.searches| + p, Carry(w, i, e).ds, e.trades[p];
      var m := w.moment(i, at);
      && (ReachedAt(ds, at, c) <==> Clear(w, i, e, p))
      && (IntentAt(ds, at, c) <==> Clear(w, i, e, p) && Accepted(m, c))
  {
    DispatchedExactly(w, i, e, p);
    ExitDispatchExactly(w.moment(i, |e.searches| + p), e.trades[p]);
  }

  /** The dispatches of an iteration raise exactly when one of them does or a due write about skipped calls fails. */
  lemma {:induction false} CarryRaisesExactly(w: World, i: nat, e: Execution)
    ensures Carry(w, i, e).raised <==>
      || !Quiet(w, i, 0, e.searches, |e.searches|) || (e.searchesDropped > 0 && !w.searchCap(i))
      || !Quiet(w, i, |e.searches|, e.trades, |e.trades|) || (e.tradesDropped > 0 && !w.tradeCap(i))
  {
    InTurnExactly(w, i, 0, e.searches);
    InTurnExactly(w, i, |e.searches|, e.trades);
  }

  /** Everything dispatched was selected. */
  lemma {:induction false} CarriedWereSelected(w: World, i: nat, e: Execution)
    ensures var ds := Carry(w, i, e).ds;
            |ds| <= |e.searches| + |e.trades| && forall d :: d in ds ==> d.call in e.searches + e.trades
  {
    InTurnExactly(w, i, 0, e.searches);
    InTurnExactly(w, i, |e.searches|, e.trades);
  }

  /** Every outcome is that of the call at the moment it was dispatched. */
  lemma {:induction false} CarriedAreDecided(w: World, i: nat, e: Execution, k: nat)
    requires k < |Carry(w, i, e).ds|
    ensures var d := Carry(w, i, e).ds[k]; d.outcome == DispatchOne(w.moment(i, k), d.call)
  {
    if k < |e.searches| {
      SearchAt(w, i, e, k);
      InTurnAt(w, i, 0, e.searches, k);
    } else {
      CarriedWereSelected(w, i, e);
      DispatchedExactly(w, i, e, k - |e.searches|);
    }
  }

  lemma {:induction false} SearchAt(w: World, i: nat, e: Execution, k: nat)
    requires k < |e.searches| && k < |Carry(w, i, e).ds|
    ensures k < |InTurn(w, i, 0, e.searches).ds|
    ensures Carry(w, i, e).ds[k] == InTurn(w, i, 0, e.searches).ds[k]
  {
    InTurnExactly(w, i, 0, e.searches);
  }

  /** The audit store takes the writes that are not guarded: every failed dispatch and the skipped searches. */
  ghost predicate StoreHolds(w: World, i: nat) {
    w.searchCap(i) && forall k: nat :: w.moment(i, k).failWrite
  }

  ghost predicate GetsThrough(ds: seq<Decided>, c: Call) { exists k: nat :: ReachedAt(ds, k, c) }

  /** While the store holds, every validated exit is dropped for want of budget or reaches its tool. */
  lemma {:induction false} ExitsGetThrough(calls: seq<Call>, budget: int, searchBudget: int, w: World, i: nat, c: Call)
    requires StoreHolds(w, i) && c in calls && IsExit(c)
    ensures var e := Execute(calls, budget, searchBudget);
            c in e.dropped || GetsThrough(Carry(w, i, e).ds, c)
  {
    var e := Execute(calls, budget, searchBudget);
    ExitIsTradedOrDropped(calls, budget, searchBudget, c);
    if c !in e.dropped {
      var p: nat :| p < |e.trades| && e.trades[p] == c;
      ExitReachesToolExactly(w, i, e, p);
      assert ReachedAt(Carry(w, i, e).ds, |e.searches| + p, c);
    }
  }

  /**
   * One failing write loses an exit that the budget allows and nothing else troubles: with more searches
   * than one iteration may run, the write about the skipped one stands between the searches and the exit.
   */
  lemma {:induction false} SkippedSearchLosesTheExit(w: World, i: nat, budget: int)
    returns (calls: seq<Call>, exit: Call)
    requires !w.searchCap(i) && budget >= 1
    requires forall k: nat :: w.moment(i, k).failWrite
    ensures exit in calls && IsExit(exit)
    ensures var e := Execute(calls, budget, 5);
            e.trades == [exit] && e.dropped == [] && Carry(w, i, e).raised && !GetsThrough(Carry(w, i, e).ds, exit)
  {
    var search := Call(Kernel, WebSearch, false, false, 0);
    exit := Call(Decision, EmitTradeIntent, true, true, 0);
    calls := [exit, search, search, search, search];
    FourSearches(exit, search);
    var e := Execute(calls, budget, 5);
    OneTrade(exit, budget);
    InTurnExactly(w, i, 0, e.searches);
  }

  lemma {:induction false} FourSearches(exit: Call, search: Call)
    requires IsReadOnly(search) && !IsReadOnly(exit)
    ensures ReadOnly([exit, search, search, search, search]) == [search, search, search, search]
    ensures Budgeted([exit, search, search, search, search]) == [exit]
  {
    var one, two, three := [exit] + [search], ([exit] + [search]) + [search], (([exit] + [search]) + [search]) + [search];
    FilterLast([], exit, IsReadOnly);
    assert [] + [exit] == [exit];
    OneMoreSearch([exit], search);
    OneMoreSearch(one, search);
    OneMoreSearch(two, search);
    OneMoreSearch(three, search);
    assert three + [search] == [exit, search, search, search, search];
  }

  lemma {:induction false} OneMoreSearch(calls: seq<Call>, search: Call)
    requires IsReadOnly(search)
    ensures ReadOnly(calls + [search]) == ReadOnly(calls) + [search]
    ensures Budgeted(calls + [search]) == Budgeted(calls)
  {
    FilterLast(calls, search, IsReadOnly);
  }

  lemma {:induction false} OneTrade(exit: Call, budget: int)
    requires IsExit(exit) && budget >= 1
    ensures SliceTo(Prioritised([exit]), MaxInt(0, budget)) == Prioritised([exit]) == [exit]
  {
    FilterLast([], exit, IsExit);
    assert [] + [exit] == [exit];
  }

  lemma {:induction false} ExitIsTradedOrDropped(calls: seq<Call>, budget: int, searchBudget: int, c: Call)
    requires c in calls && IsExit(c)
    ensures var e := Execute(calls, budget, searchBudget); c in e.trades || c in e.dropped
  {
    FilterSplits(calls, IsReadOnly);
    ExecutionAccounts(calls, budget, searchBudget);
    assert c in multiset(calls) && !IsReadOnly(c);
    assert c in multiset(Budgeted(calls));
  }

  lemma {:induction false} TakeAccounts(order: seq<Call>, k: nat)
    ensures var cut := SliceTo(order, k);
            && |cut| == MinInt(k, |order|) && order == cut + order[|cut|..]
            && multiset(cut) + multiset(order[|cut|..]) == multiset(order)
  {
    var cut := SliceTo(order, k);
    assert order == cut + order[|cut|..];
  }

  lemma {:induction false} SameSize(a: seq<Call>, b: seq<Call>)
    requires multiset(a) == multiset(b)
    ensures |a| == |b|
  {
    assert |multiset(a)| == |a| && |multiset(b)| == |b|;
  }

  lemma {:induction false} PrioritisedIsPermutation(calls: seq<Call>)
    ensures multiset(Prioritised(calls)) == multiset(calls)
    ensures |Prioritised(calls)| == |calls|
    ensures Subsequence(Exits(calls), calls) && Subsequence(Rest(calls), calls)
  {
    FilterSplits(calls, IsExit);
    FilterKeepsOrder(calls, IsExit);
    SameSize(Prioritised(calls), calls);
  }

  /** Nothing is lost or invented, the budgets hold, and the audited counts are exact. */
  lemma {:induction false} ExecutionAccounts(calls: seq<Call>, budget: int, searchBudget: int)
    ensures var e := Execute(calls, budget, searchBudget);
            && multiset(e.trades) + multiset(e.dropped) == multiset(Budgeted(calls))
            && |e.trades| + e.tradesDropped == |Budgeted(calls)| && e.tradesDropped == |e.dropped|
            && |e.searches| + e.searchesDropped == |ReadOnly(calls)|
            && |e.trades| == MinInt(MaxInt(0, budget), |Budgeted(calls)|)
            && |e.searches| == MinInt(MinInt(MAX_SEARCHES_PER_ITERATION, MaxInt(0, searchBudget)), |ReadOnly(calls)|)
  {
    PrioritisedIsPermutation(Budgeted(calls));
    TakeAccounts(Prioritised(Budgeted(calls)), MaxInt(0, budget));
    TakeAccounts(ReadOnly(calls), MinInt(MAX_SEARCHES_PER_ITERATION, MaxInt(0, searchBudget)));
  }

  /** Everything dispatched was among the validated calls. */
  lemma {:induction false} DispatchedWereValid(calls: seq<Call>, budget: int, searchBudget: int)
    ensures var e := Execute(calls, budget, searchBudget);
            forall c :: c in e.searches + e.trades ==> c in calls
  {
    var e := Execute(calls, budget, searchBudget);
    FilterSplits(calls, IsReadOnly);
    ExecutionAccounts(calls, budget, searchBudget);
    forall c | c in e.searches + e.trades ensures c in calls {
      if c in e.searches {
        assert c in ReadOnly(calls) && c in multiset(ReadOnly(calls));
        assert c in multiset(calls);
      } else {
        assert c in multiset(e.trades);
        assert c in multiset(Budgeted(calls));
        assert c in multiset(calls);
      }
    }
  }

  lemma {:induction false} RestIsNoExit(calls: seq<Call>, k: int)
    requires 0 <= k < |Rest(calls)|
    ensures !IsExit(Rest(calls)[k])
  {
    FilterSplits(calls, IsExit);
    assert Rest(calls)[k] in Rest(calls);
  }

  lemma {:induction false} DroppedExitIsAnExit(calls: seq<Call>, k: int)
    requires 0 <= k < |Prioritised(calls)| && IsExit(Prioritised(calls)[k])
    ensures k < |Exits(calls)|
  {
    if k >= |Exits(calls)| { RestIsNoExit(calls, k - |Exits(calls)|); }
  }

  lemma {:induction false} EarlyOnesAreExits(calls: seq<Call>, k: int)
    requires 0 <= k < |Exits(calls)|
    ensures IsExit(Prioritised(calls)[k])
  {
    FilterSplits(calls, IsExit);
    assert Exits(calls)[k] in Exits(calls);
  }

  /** While an exit is dropped, no other trade call runs. */
  lemma {:induction false} ExitsFirst(calls: seq<Call>, budget: int, searchBudget: int)
    ensures var e := Execute(calls, budget, searchBudget);
            (exists c :: c in e.dropped && IsExit(c)) ==> forall c :: c in e.trades ==> IsExit(c)
  {
    var e := Execute(calls, budget, searchBudget);
    if c :| c in e.dropped && IsExit(c) {
      var j :| 0 <= j < |e.dropped| && e.dropped[j] == c;
      DroppedExitIsAnExit(Budgeted(calls), |e.trades| + j);
      forall x | x in e.trades ensures IsExit(x) {
        var i :| 0 <= i < |e.trades| && e.trades[i] == x;
        EarlyOnesAreExits(Budgeted(calls), i);
      }
    }
  }

  /** With enough budget for the exits, every one of them is selected. */
  lemma {:induction false} AllExitsSelected(calls: seq<Call>, budget: int, searchBudget: int, c: Call)
    requires |Exits(Budgeted(calls))| <= budget && c in calls && IsExit(c)
    ensures c in Execute(calls, budget, searchBudget).trades
  {
    var e := Execute(calls, budget, searchBudget);
    ExitIsTradedOrDropped(calls, budget, searchBudget, c);
    if c in e.dropped {
      var j :| 0 <= j < |e.dropped| && e.dropped[j] == c;
      DroppedExitIsAnExit(Budgeted(calls), |e.trades| + j);
    }
  }
}

/** The bounded turn: budgets threaded across iterations against any language model. */
module GovernedTurn {
  import opened Common
  import opened ToolGate
  import opened ToolDispatch

  const MAX_TURNS_DEFAULT := 2
  const MAX_TOOL_CALLS_DEFAULT := 3
  const MAX_SEARCHES_PER_CYCLE := 5

  /** A stored number: no key, something that does not parse to a finite number, or a number. */
  datatype Stored = Absent | NotFinite | Finite(value: real)

  function Clamped(raw: Stored, default: int, hi: int): int {
    MinInt(hi, MaxInt(1, match raw case Finite(x) => Trunc(x) case _ => default))
  }

  function MaxTurns(raw: Stored): int { Clamped(raw, MAX_TURNS_DEFAULT, 10) }

  function MaxToolCalls(raw: Stored): int { Clamped(raw, MAX_TOOL_CALLS_DEFAULT, 20) }

  /** The stored limits: defaults of two turns and three calls, a number cut to a whole one between 1 and 10 or 20. */
  lemma LimitsExactly(x: real)
    ensures MaxTurns(Absent) == MaxTurns(NotFinite) == 2 && MaxToolCalls(Absent) == MaxToolCalls(NotFinite) == 3
    ensures 1 <= MaxTurns(Finite(x)) <= 10 && 1 <= MaxToolCalls(Finite(x)) <= 20
    ensures x < 2.0 ==> MaxTurns(Finite(x)) == MaxToolCalls(Finite(x)) == 1
    ensures x >= 10.0 ==> MaxTurns(Finite(x)) == 10
    ensures x >= 20.0 ==> MaxToolCalls(Finite(x)) == 20
    ensures 2.0 <= x < 10.0 ==> MaxTurns(Finite(x)) as real <= x < MaxTurns(Finite(x)) as real + 1.0
    ensures 2.0 <= x < 20.0 ==> MaxToolCalls(Finite(x)) as real <= x < MaxToolCalls(Finite(x)) as real + 1.0
  {
  }

  /**
   * One governed turn's surroundings. `setup` says whether the reads before the loop succeed, `model`
   * is what the language model asks for in each iteration (None when the call to it throws), `lookup`
   * what the plugin store answers then, and `world` what every dispatch and audit write meets; all of it
   * is arbitrary.
   */
  datatype Turn = Turn(
    source: Source, virtualOnly: bool, providerTools: seq<Tool>, kernelTools: seq<Tool>,
    naming: (PluginId, Fn) -> string, turnsKey: Stored, callsKey: Stored, setup: bool,
    model: nat -> Option<seq<Call>>, lookup: nat -> Option<seq<Plugin>>, world: World)

  function GateAt(t: Turn, i: nat): Gate {
    Gate(t.source, t.virtualOnly, if t.source == Chat then [] else t.providerTools + t.kernelTools,
         t.naming, t.lookup(i), (j: nat) => t.world.dropWrite(i, j), t.world.gateFailWrite(i))
  }

  datatype Limits = Limits(turns: int, calls: int)

  /** The ceilings in force, resolved once per turn from the stored keys. */
  function LimitsOf(t: Turn): Limits { Limits(MaxTurns(t.turnsKey), MaxToolCalls(t.callsKey)) }

  /**
   * One iteration: the validated calls, the selection among them, what was dispatched, whether an
   * exception escaped, and whether the loop's own two audit writes after it go through.
   */
  datatype Iteration = Iteration(
    index: nat, valid: seq<Call>, execution: Execution, decided: seq<Decided>, raised: bool,
    traced: bool, closed: bool)

  /** One iteration, given its number and the two budgets it may still spend. */
  type Worker = (nat, nat, nat) -> Iteration

  function WorkerOf(t: Turn): Worker {
    (i: nat, budget: nat, searchBudget: nat) => IterationAt(t, i, budget, searchBudget)
  }

  /** The calls that come out of the gate, unless the model or the gate throws. */
  function ValidAt(t: Turn, i: nat): Option<seq<Call>> {
    match t.model(i)
    case None => None
    case Some(calls) => Validation(GateAt(t, i), calls)
  }

  const Idle := Execution([], [], 0, 0, [])

  function IterationAt(t: Turn, i: nat, budget: nat, searchBudget: nat): Iteration {
    match ValidAt(t, i)
    case None => Iteration(i, [], Idle, [], true, t.world.reactLog(i), t.world.exhaustedLog(i))
    case Some(valid) =>
      var e := Execute(valid, budget, searchBudget);
      var c := Carry(t.world, i, e);
      Iteration(i, valid, e, c.ds, c.raised || TurnLogFails(t, i), t.world.reactLog(i), t.world.exhaustedLog(i))
  }

  /** Chat and pretest turns are logged at the end of every iteration. */
  predicate TurnLogFails(t: Turn, i: nat) { t.source in {Chat, Pretest} && !t.world.turnLog(i) }

  /** Marks the arguments at which the loop's `work` is compared with the turn's iterations. */
  predicate Asked(i: nat, budget: nat, searchBudget: nat) { true }

  ghost predicate WorksFor(work: Worker, t: Turn) {
    forall i: nat, b: nat, s: nat {:trigger Asked(i, b, s)} ::
      Asked(i, b, s) ==> work(i, b, s) == IterationAt(t, i, b, s)
  }

  function Left(ceiling: int, used: nat): nat { MaxInt(0, ceiling - used) }

  /** Does the loop go round again after iteration `it`, with `calls` trade calls used in all? */
  predicate Continues(lim: Limits, it: Iteration, i: nat, calls: nat) {
    !it.raised && it.valid != [] && it.traced && i + 1 < lim.turns && calls < lim.calls
  }

  /** An exception ends the turn with iteration `it`: its own, or that of an audit write of the loop. */
  predicate EndsRaised(lim: Limits, it: Iteration) {
    || it.raised
    || (it.valid != [] && lim.turns > 1 && (!it.traced || (it.index + 1 >= lim.turns && !it.closed)))
  }

  /** Iterations i, i + 1, ... of a turn that has already used `calls` and `searches`. */
  function From(work: Worker, lim: Limits, i: nat, calls: nat, searches: nat): seq<Iteration>
    decreases lim.turns - i
  {
    if i >= lim.turns then []
    else
      var it := work(i, Left(lim.calls, calls), Left(MAX_SEARCHES_PER_CYCLE, searches));
      var used, looked := calls + |it.execution.trades|, searches + |it.execution.searches|;
      [it] + if Continues(lim, it, i, used) then From(work, lim, i + 1, used, looked) else []
  }

  /** The iterations of a whole turn. */
  function Whole(t: Turn): seq<Iteration> { if t.setup then From(WorkerOf(t), LimitsOf(t), 0, 0, 0) else [] }

  /** The call for the turn throws instead of returning its result. */
  predicate TurnRaises(t: Turn) { Raises(LimitsOf(t), Whole(t)) }

  predicate Raises(lim: Limits, log: seq<Iteration>) { log == [] || EndsRaised(lim, log[|log| - 1]) }

  function AllDecided(log: seq<Iteration>): seq<Decided> {
    if log == [] then [] else AllDecided(log[..|log| - 1]) + log[|log| - 1].decided
  }

  method RunSingleIteration(t: Turn, i: nat, budget: nat, searchBudget: nat, ghost work: Worker)
    returns (it: Iteration)
    requires WorksFor(work, t)
    ensures it == work(i, budget, searchBudget) && it.index == i
  {
    var traced, closed := t.world.reactLog(i), t.world.exhaustedLog(i);
    it := Iteration(i, [], Idle, [], true, traced, closed);
    assert Asked(i, budget, searchBudget);
    var asked := t.model(i);
    if asked.Some? {
      var valid, _ := ValidateToolCalls(GateAt(t, i), asked.value);
      if valid.Some? {
        var e, ds, raised := ExecuteToolCalls(valid.value, budget, searchBudget, t.world, i);
        it := Iteration(i, valid.value, e, ds, raised || TurnLogFails(t, i), traced, closed);
      }
    }
  }

  /** `log` and `ds` record what happened even when the turn ends in an exception. */
  method RunGovernedTurn(t: Turn) returns (log: seq<Iteration>, ds: seq<Decided>, raised: bool)
    ensures log == Whole(t)
    ensures ds == AllDecided(log)
    ensures raised == TurnRaises(t)
  {
    if !t.setup { return [], [], true; }
    var lim := Limits(MaxTurns(t.turnsKey), MaxToolCalls(t.callsKey));
    ghost var work := WorkerOf(t);
    log, ds, raised := RunLoop(t, lim, work, (i: nat, calls: nat, searches: nat) => From(work, lim, i, calls, searches));
  }

  /** What is to come from an iteration on, given the calls and searches used so far. */
  type Course = (nat, nat, nat) -> seq<Iteration>

  ghost predicate Runs(course: Course, work: Worker, lim: Limits) {
    forall i: nat, c: nat, s: nat {:trigger Asked(i, c, s)} ::
      Asked(i, c, s) ==> course(i, c, s) == From(work, lim, i, c, s)
  }

  /** The loop, under given ceilings. */
  method RunLoop(t: Turn, lim: Limits, ghost work: Worker, ghost course: Course)
    returns (log: seq<Iteration>, ds: seq<Decided>, raised: bool)
    requires WorksFor(work, t) && Runs(course, work, lim) && lim.turns >= 1
    ensures log == course(0, 0, 0)
    ensures ds == AllDecided(log)
    ensures raised == Raises(lim, log)
  {
    ghost var goal := course(0, 0, 0);
    var turn: nat, toolCallsExecuted: nat, searchesExecuted: nat := 0, 0, 0;
    log, ds, raised := [], [], false;
    var done := false;
    while !done && turn < lim.turns
      invariant turn <= lim.turns && (turn == lim.turns ==> done)
      invariant if done then log == goal else log + course(turn, toolCallsExecuted, searchesExecuted) == goal
      invariant ds == AllDecided(log)
      invariant if done then raised == Raises(lim, log) else !raised
      decreases lim.turns - turn
    {
      var it := RunSingleIteration(
        t, turn, Left(lim.calls, toolCallsExecuted), Left(MAX_SEARCHES_PER_CYCLE, searchesExecuted), work);
      GoOn(course, work, lim, log, it, turn, toolCallsExecuted, searchesExecuted);
      LastRaises(lim, log, it);
      log, ds := log + [it], ds + it.decided;
      turn := turn + 1;
      toolCallsExecuted := toolCallsExecuted + |it.execution.trades|;
      searchesExecuted := searchesExecuted + |it.execution.searches|;
      done, raised := AfterIteration(lim, it, turn, toolCallsExecuted);
    }
  }

  /** What the rest of the loop's body makes of a finished iteration, the `turn`-th. */
  method AfterIteration(lim: Limits, it: Iteration, turn: nat, calls: nat) returns (done: bool, raised: bool)
    requires turn == it.index + 1 <= lim.turns
    ensures done <==> !Continues(lim, it, it.index, calls)
    ensures raised <==> done && EndsRaised(lim, it)
  {
    if it.raised { return true, true; }
    if it.valid == [] { return true, false; }
    if lim.turns > 1 && !it.traced { return true, true; }
    if turn >= lim.turns { return true, lim.turns > 1 && !it.closed; }
    return calls >= lim.calls, false;
  }

  lemma {:induction false} LastRaises(lim: Limits, log: seq<Iteration>, it: Iteration)
    ensures Raises(lim, log + [it]) <==> EndsRaised(lim, it)
  {
    assert (log + [it])[|log|] == it;
  }

  /** Moving one iteration from what is left of a turn to what is done. */
  lemma {:induction false} GoOn(
    course: Course, work: Worker, lim: Limits, log: seq<Iteration>, it: Iteration, i: nat, calls: nat, searches: nat)
    requires i < lim.turns && it == work(i, Left(lim.calls, calls), Left(MAX_SEARCHES_PER_CYCLE, searches))
    requires Runs(course, work, lim)
    ensures AllDecided(log + [it]) == AllDecided(log) + it.decided
    ensures var used, looked := calls + |it.execution.trades|, searches + |it.execution.searches|;
            log + course(i, calls, searches)
            == (log + [it]) + if Continues(lim, it, i, used) then course(i + 1, used, looked) else []
  {
    var used, looked := calls + |it.execution.trades|, searches + |it.execution.searches|;
    assert Asked(i, calls, searches) && Asked(i + 1, used, looked);
    var next := Unfold(work, lim, it, i, calls, searches);
    Append(log, it, next);
  }

  lemma {:induction false} Unfold(work: Worker, lim: Limits, it: Iteration, i: nat, calls: nat, searches: nat)
    returns (next: seq<Iteration>)
    requires i < lim.turns && it == work(i, Left(lim.calls, calls), Left(MAX_SEARCHES_PER_CYCLE, searches))
    ensures From(work, lim, i, calls, searches) == [it] + next
    ensures var used, looked := calls + |it.execution.trades|, searches + |it.execution.searches|;
            next == if Continues(lim, it, i, used) then From(work, lim, i + 1, used, looked) else []
  {
    var used, looked := calls + |it.execution.trades|, searches + |it.execution.searches|;
    next := if Continues(lim, it, i, used) then From(work, lim, i + 1, used, looked) else [];
  }

  lemma {:induction false} Append(log: seq<Iteration>, it: Iteration, rest: seq<Iteration>)
    ensures AllDecided(log + [it]) == AllDecided(log) + it.decided
    ensures log + ([it] + rest) == (log + [it]) + rest
  {
    assert (log + [it])[..|log|] == log;
  }

  function TradeTotal(log: seq<Iteration>): nat {
    if log == [] then 0 else |log[0].execution.trades| + TradeTotal(log[1..])
  }

  function SearchTotal(log: seq<Iteration>): nat {
    if log == [] then 0 else |log[0].execution.searches| + SearchTotal(log[1..])
  }

  // ---- whole-turn guarantees ----

  /** What one iteration promises the loop about the budgets it was given. */
  ghost predicate Thrifty(work: Worker) { forall i, b, s :: Frugal(work(i, b, s), i, b, s) }

  predicate Frugal(it: Iteration, i: nat, b: nat, s: nat) {
    && it.index == i && |it.execution.trades| <= b && |it.execution.searches| <= s
    && |it.execution.searches| <= MAX_SEARCHES_PER_ITERATION
    && |it.decided| <= |it.execution.searches| + |it.execution.trades|
  }

  lemma {:induction false} IterationsAreThrifty(t: Turn)
    ensures Thrifty(WorkerOf(t))
  {
    forall i: nat, b: nat, s: nat ensures Frugal(WorkerOf(t)(i, b, s), i, b, s) {
      var valid := ValidAt(t, i);
      if valid.Some? {
        ExecutionAccounts(valid.value, b, s);
        CarriedWereSelected(t.world, i, Execute(valid.value, b, s));
      }
    }
  }

  ghost predicate Produced(work: Worker, it: Iteration) {
    exists b: nat, s: nat :: it == work(it.index, b, s)
  }

  /** An iteration searches three times at most, and dispatches nothing that was not selected. */
  predicate Modest(it: Iteration) {
    && |it.execution.searches| <= MAX_SEARCHES_PER_ITERATION
    && |it.decided| <= |it.execution.searches| + |it.execution.trades|
  }

  /** `log` is what `work` produces from iteration i on, within the ceilings. */
  ghost predicate Bounded(work: Worker, lim: Limits, log: seq<Iteration>, i: nat, calls: nat, searches: nat) {
    && |log| <= Left(lim.turns, i)
    && calls + TradeTotal(log) <= lim.calls
    && searches + SearchTotal(log) <= MAX_SEARCHES_PER_CYCLE
    && (forall k :: 0 <= k < |log| ==> Modest(log[k]))
    && (forall k :: 0 <= k < |log| ==> Produced(work, log[k]))
  }

  lemma {:induction false} BoundedCons(
    work: Worker, lim: Limits, it: Iteration, log: seq<Iteration>, i: nat, calls: nat, searches: nat)
    requires i < lim.turns && Produced(work, it)
    requires Modest(it)
    requires Bounded(work, lim, log, i + 1, calls + |it.execution.trades|, searches + |it.execution.searches|)
    ensures Bounded(work, lim, [it] + log, i, calls, searches)
  {
    assert ([it] + log)[1..] == log;
  }

  lemma {:induction false} FromBounds(work: Worker, lim: Limits, i: nat, calls: nat, searches: nat)
    requires Thrifty(work) && calls <= lim.calls && searches <= MAX_SEARCHES_PER_CYCLE
    ensures Bounded(work, lim, From(work, lim, i, calls, searches), i, calls, searches)
    decreases lim.turns - i
  {
    if i < lim.turns {
      var b, s := Left(lim.calls, calls), Left(MAX_SEARCHES_PER_CYCLE, searches);
      var it := work(i, b, s);
      ThriftyAt(work, i, b, s);
      var next := Unfold(work, lim, it, i, calls, searches);
      var used, looked := calls + |it.execution.trades|, searches + |it.execution.searches|;
      if Continues(lim, it, i, used) { FromBounds(work, lim, i + 1, used, looked); }
      BoundedCons(work, lim, it, next, i, calls, searches);
    }
  }

  lemma {:induction false} ThriftyAt(work: Worker, i: nat, b: nat, s: nat)
    requires Thrifty(work)
    ensures Frugal(work(i, b, s), i, b, s) && Produced(work, work(i, b, s))
  {
    var it := work(i, b, s);
    assert it == work(it.index, b, s);
  }

  lemma {:induction false} WholeIsBounded(t: Turn)
    ensures Bounded(WorkerOf(t), LimitsOf(t), Whole(t), 0, 0, 0)
    ensures t.setup ==> Whole(t) != []
  {
    if t.setup {
      IterationsAreThrifty(t);
      FromBounds(WorkerOf(t), LimitsOf(t), 0, 0, 0);
    }
  }

  /** Any model, any store, any audit failures, any stored limits: the whole turn stays inside every ceiling. */
  lemma {:induction false} TurnIsBounded(t: Turn)
    ensures |Whole(t)| <= MaxTurns(t.turnsKey) <= 10 && (t.setup ==> 1 <= |Whole(t)|)
    ensures TradeTotal(Whole(t)) <= MaxToolCalls(t.callsKey) <= 20
    ensures SearchTotal(Whole(t)) <= MAX_SEARCHES_PER_CYCLE
    ensures |AllDecided(Whole(t))| <= TradeTotal(Whole(t)) + SearchTotal(Whole(t))
    ensures forall k :: 0 <= k < |Whole(t)| ==> Modest(Whole(t)[k])
  {
    WholeIsBounded(t);
    DecidedTotal(Whole(t));
  }

  lemma {:induction false} DecidedTotal(log: seq<Iteration>)
    requires forall k :: 0 <= k < |log| ==> Modest(log[k])
    ensures |AllDecided(log)| <= TradeTotal(log) + SearchTotal(log)
  {
    if log != [] {
      var n := |log| - 1;
      DecidedTotal(log[..n]);
      TotalsLast(log[..n], log[n]);
      assert log == log[..n] + [log[n]];
    }
  }

  lemma {:induction false} TotalsLast(log: seq<Iteration>, it: Iteration)
    ensures TradeTotal(log + [it]) == TradeTotal(log) + |it.execution.trades|
    ensures SearchTotal(log + [it]) == SearchTotal(log) + |it.execution.searches|
  {
    if log == [] {
      assert ([] + [it])[1..] == [];
    } else {
      TotalsLast(log[1..], it);
      assert (log + [it])[1..] == log[1..] + [it];
    }
  }

  /** An iteration of the turn is what the worker makes of some budgets. */
  lemma {:induction false} IterationOf(t: Turn, it: Iteration) returns (b: nat, s: nat)
    requires it in Whole(t)
    ensures it == IterationAt(t, it.index, b, s)
  {
    WholeIsBounded(t);
    var k :| 0 <= k < |Whole(t)| && Whole(t)[k] == it;
    b, s :| it == WorkerOf(t)(it.index, b, s);
  }

  /**
   * What an iteration works on and exactly when it ends in an exception: the model or the gate throws, a
   * dispatch or a write about skipped calls does, or the log a chat or pretest turn keeps cannot be written.
   */
  lemma {:induction false} IterationExactly(t: Turn, it: Iteration)
    requires it in Whole(t)
    ensures var i, asked := it.index, t.model(it.index);
      var valid := if asked.Some? then Validation(GateAt(t, i), asked.value) else None;
      && it.valid == (if valid.Some? then valid.value else [])
      && (it.raised <==>
            || valid.None? || Carry(t.world, i, it.execution).raised
            || ((t.source == Chat || t.source == Pretest) && !t.world.turnLog(i)))
      && it.traced == t.world.reactLog(i) && it.closed == t.world.exhaustedLog(i)
  {
    var b, s := IterationOf(t, it);
  }

  /** Every call any iteration dispatches is allowed in this kind of turn. */
  lemma {:induction false} DispatchedCallsAreAllowed(t: Turn, it: Iteration, d: Decided)
    requires it in Whole(t) && d in it.decided
    ensures t.source == Chat ==> d.call.plugin == Kernel && d.call.fn == WebSearch
    ensures t.source != Reflection && d.call.plugin == Kernel ==> d.call.fn == WebSearch
    ensures t.virtualOnly && d.call.plugin != Kernel ==>
      var p := t.lookup(it.index);
      p.Some? && FirstWithId(p.value, d.call.plugin).Some? && !FirstWithId(p.value, d.call.plugin).value.isProvider
  {
    var b, s := IterationOf(t, it);
    var g, c := GateAt(t, it.index), d.call;
    CarriedWereSelected(t.world, it.index, it.execution);
    DispatchedWereValid(it.valid, b, s);
    ValidatedExactly(g, t.model(it.index).value, c);
    GateGuarantee(g, c);
  }

  /**
   * Exits, over a whole turn: a validated exit is either dropped with nothing but exits run, or selected,
   * and then it reaches its tool exactly when nothing before it ends its iteration.
   */
  lemma {:induction false} ExitFate(t: Turn, it: Iteration, c: Call)
    requires it in Whole(t) && c in it.valid && IsExit(c)
    ensures || (c in it.execution.dropped && forall x :: x in it.execution.trades ==> IsExit(x))
            || exists p: nat :: p < |it.execution.trades| && SelectedAt(t.world, it, c, p)
  {
    var b, s := IterationOf(t, it);
    ExitIsTradedOrDropped(it.valid, b, s, c);
    if c in it.execution.dropped {
      ExitsFirst(it.valid, b, s);
    } else {
      var p: nat :| p < |it.execution.trades| && it.execution.trades[p] == c;
      SelectedExit(t.world, it, c, p);
    }
  }

  /**
   * The p-th selected trade call is `c`, which reaches its tool exactly when all is clear before it, and
   * whose intent is handed on exactly when the call is accepted there as well.
   */
  predicate SelectedAt(w: World, it: Iteration, c: Call, p: nat)
    requires p < |it.execution.trades|
  {
    var at := |it.execution.searches| + p;
    var clear := Clear(w, it.index, it.execution, p);
    && it.execution.trades[p] == c
    && (ReachedAt(it.decided, at, c) <==> clear)
    && (IntentAt(it.decided, at, c) <==> clear && Accepted(w.moment(it.index, at), c))
  }

  lemma {:induction false} SelectedExit(w: World, it: Iteration, c: Call, p: nat)
    requires p < |it.execution.trades| && it.execution.trades[p] == c && IsExit(c)
    requires it.decided == Carry(w, it.index, it.execution).ds
    ensures SelectedAt(w, it, c, p)
  {
    ExitReachesToolExactly(w, it.index, it.execution, p);
  }

  /** Where the audit store holds, every validated exit is dropped for want of budget or reaches its tool. */
  lemma {:induction false} ExitsGetThroughTheTurn(t: Turn, it: Iteration, c: Call)
    requires it in Whole(t) && c in it.valid && IsExit(c) && StoreHolds(t.world, it.index)
    ensures c in it.execution.dropped || GetsThrough(it.decided, c)
  {
    var b, s := IterationOf(t, it);
    ExitsGetThrough(it.valid, b, s, t.world, it.index, c);
  }

  /**
   * The debate over a whole turn: a call the panel rejected never reaches its tool, wherever and whenever it
   * was dispatched, and one it approved always does, as far as what the panel came to gets written.
   */
  lemma {:induction false} PanelDecides(t: Turn, it: Iteration, k: nat)
    requires it in Whole(t) && k < |it.decided|
    ensures var m, d := t.world.moment(it.index, k), it.decided[k];
      && (Judged(m, d.call) && m.panel == Consensus(true) ==> !ReachesTool(d.outcome))
      && (Judged(m, d.call) && m.panel == Consensus(false) ==>
            (ReachesTool(d.outcome) <==> m.startWrite && m.panelWrite))
      && (!Judged(m, d.call) ==> ReachesTool(d.outcome))
  {
    var b, s := IterationOf(t, it);
    CarriedAreDecided(t.world, it.index, it.execution, k);
    DispatchExactly(t.world.moment(it.index, k), it.decided[k].call);
  }

  /** Why a run of iterations may end. */
  ghost predicate Finished(lim: Limits, log: seq<Iteration>, calls: nat) {
    && log != []
    && var last := log[|log| - 1];
       || EndsRaised(lim, last) || last.valid == [] || last.index + 1 >= lim.turns
       || calls + TradeTotal(log) >= lim.calls
  }

  /** The loop never stops early: an exception ends it, a limit is hit, or nothing valid was asked. */
  lemma {:induction false} StopsOnlyForCause(t: Turn, work: Worker, lim: Limits, i: nat, calls: nat, searches: nat)
    requires WorksFor(work, t) && i < lim.turns
    ensures Finished(lim, From(work, lim, i, calls, searches), calls)
  {
    CourseStops(t, work, lim, (i: nat, c: nat, s: nat) => From(work, lim, i, c, s), i, calls, searches);
  }

  lemma {:induction false} CourseStops(
    t: Turn, work: Worker, lim: Limits, course: Course, i: nat, calls: nat, searches: nat)
    requires WorksFor(work, t) && Runs(course, work, lim) && i < lim.turns
    ensures Finished(lim, course(i, calls, searches), calls)
    decreases lim.turns - i
  {
    var it := work(i, Left(lim.calls, calls), Left(MAX_SEARCHES_PER_CYCLE, searches));
    var used, looked := calls + |it.execution.trades|, searches + |it.execution.searches|;
    IndexIs(t, work, i, Left(lim.calls, calls), Left(MAX_SEARCHES_PER_CYCLE, searches));
    GoOn(course, work, lim, [], it, i, calls, searches);
    if Continues(lim, it, i, used) { CourseStops(t, work, lim, course, i + 1, used, looked); }
    var next := if Continues(lim, it, i, used) then course(i + 1, used, looked) else [];
    assert course(i, calls, searches) == [it] + next;
    FinishedCons(lim, it, next, calls);
  }

  lemma {:induction false} IndexIs(t: Turn, work: Worker, i: nat, b: nat, s: nat)
    requires WorksFor(work, t)
    ensures work(i, b, s).index == i
  {
    assert Asked(i, b, s);
  }

  lemma {:induction false} FinishedCons(lim: Limits, it: Iteration, log: seq<Iteration>, calls: nat)
    requires var used := calls + |it.execution.trades|;
             if Continues(lim, it, it.index, used) then Finished(lim, log, used) else log == []
    ensures Finished(lim, [it] + log, calls)
  {
    TotalCons(it, log);
    if log != [] { assert ([it] + log)[|log|] == log[|log| - 1]; }
  }

  lemma {:induction false} TotalCons(it: Iteration, log: seq<Iteration>)
    ensures TradeTotal([it] + log) == |it.execution.trades| + TradeTotal(log)
  {
    assert ([it] + log)[1..] == log;
  }
}
