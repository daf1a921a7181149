/** The parameter journal: who changed what, and whether another change is due. */
module ParamJournal {
  import opened Common

  /** A parameter value, in its JSON text. */
  type Json = string

  const WEEK: real := 604800.0

  /** `ts` is in whole seconds, as the ISO stamp that is stored. */
  datatype Entry = Entry(
    plugin: string, param: string, before: Option<Json>, after: Json,
    hypothesis: string, cycleId: string, ts: int, cyclesSince: int)

  datatype Config = Config(requireHypothesis: bool, minHypothesis: int, maxPerWeek: int, lockCycles: int)

  datatype Request = Request(plugin: string, param: string, value: Json, hypothesis: string, cycleId: string)

  predicate Argued(r: Request, c: Config) {
    c.requireHypothesis ==> |Strip(r.hypothesis)| >= c.minHypothesis
  }

  function Recent(journal: seq<Entry>, plugin: string, since: real): nat {
    if journal == [] then 0
    else
      var e := journal[|journal| - 1];
      Recent(journal[..|journal| - 1], plugin, since) + if e.plugin == plugin && e.ts as real > since then 1 else 0
  }

  function NewEntry(r: Request, before: Option<Json>, stampNow: real): Entry {
    Entry(r.plugin, r.param, before, r.value, r.hypothesis, r.cycleId, stampNow.Floor, 0)
  }

  /** The new journal, or None when the change is refused. The clock is read once to check and once to stamp. */
  function JournalEntry(
    journal: seq<Entry>, r: Request, before: Option<Json>, c: Config, checkNow: real, stampNow: real)
    : Option<seq<Entry>>
  {
    if !Argued(r, c) then None
    else if Recent(journal, r.plugin, checkNow - WEEK) >= c.maxPerWeek then None
    else Some(journal + [NewEntry(r, before, stampNow)])
  }

  /** Index of the entry with the greatest stamp; among equal stamps the first one wins. */
  function Latest(journal: seq<Entry>, plugin: string): (r: Option<nat>)
    ensures r.Some? ==> r.value < |journal| && journal[r.value].plugin == plugin
    ensures r.None? <==> forall i :: 0 <= i < |journal| ==> journal[i].plugin != plugin
  {
    if journal == [] then None
    else
      var n := |journal| - 1;
      var best := Latest(journal[..n], plugin);
      assert best.Some? ==> journal[..n][best.value] == journal[best.value];
      assert best.None? ==> forall i :: 0 <= i < n ==> journal[..n][i] == journal[i];
      if journal[n].plugin == plugin && (best.None? || journal[n].ts > journal[best.value].ts) then Some(n)
      else best
  }

  predicate Locked(journal: seq<Entry>, plugin: string, c: Config) {
    var best := Latest(journal, plugin);
    best.Some? && journal[best.value].cyclesSince < c.lockCycles
  }

  function Advance(journal: seq<Entry>): (r: seq<Entry>)
    ensures |r| == |journal|
    ensures forall i :: 0 <= i < |r| ==> r[i] == journal[i].(cyclesSince := journal[i].cyclesSince + 1)
  {
    seq(|journal|, i requires 0 <= i < |journal| => journal[i].(cyclesSince := journal[i].cyclesSince + 1))
  }

  // ---- what the lock looks at ----

  /** Latest is the earliest entry among those with the greatest stamp. */
  lemma {:induction false} LatestIsFirstMaximal(journal: seq<Entry>, plugin: string, k: nat)
    requires k < |journal| && journal[k].plugin == plugin
    ensures Latest(journal, plugin).Some?
    ensures var b := Latest(journal, plugin).value;
            journal[b].ts >= journal[k].ts && (k < b ==> journal[b].ts > journal[k].ts)
  {
    var n := |journal| - 1;
    var init := journal[..n];
    if k < n {
      assert init[k] == journal[k];
      LatestIsFirstMaximal(init, plugin, k);
      assert init[Latest(init, plugin).value] == journal[Latest(init, plugin).value];
    } else if Latest(init, plugin).Some? {
      assert init[Latest(init, plugin).value] == journal[Latest(init, plugin).value];
    }
  }

  predicate IsLast(journal: seq<Entry>, plugin: string, k: nat) {
    k < |journal| && journal[k].plugin == plugin
    && forall i :: k < i < |journal| ==> journal[i].plugin != plugin
  }

  /** The lock is judged on the last change made exactly when no earlier change carries as great a stamp. */
  lemma {:induction false} LatestIsLastExactly(journal: seq<Entry>, plugin: string, k: nat)
    requires IsLast(journal, plugin, k)
    ensures Latest(journal, plugin) == Some(k) <==>
            forall i :: 0 <= i < k && journal[i].plugin == plugin ==> journal[i].ts < journal[k].ts
  {
    LatestIsFirstMaximal(journal, plugin, k);
    var b := Latest(journal, plugin).value;
    forall i | 0 <= i < k && journal[i].plugin == plugin
      ensures b == k ==> journal[i].ts < journal[k].ts
    {
      LatestIsFirstMaximal(journal, plugin, i);
    }
  }

  // ---- the cycle hook, which reports on an advanced copy and keeps nothing of it ----

  predicate HookReportsLocked(journal: seq<Entry>, plugin: string, c: Config) {
    Locked(Advance(journal), plugin, c)
  }

  lemma {:induction false} LatestIgnoresCounters(a: seq<Entry>, b: seq<Entry>, plugin: string)
    requires |a| == |b|
    requires forall i :: 0 <= i < |a| ==> a[i].plugin == b[i].plugin && a[i].ts == b[i].ts
    ensures Latest(a, plugin) == Latest(b, plugin)
  {
    if a != [] {
      var n := |a| - 1;
      LatestIgnoresCounters(a[..n], b[..n], plugin);
    }
  }

  /** The hook and the tuning gate disagree about a plugin exactly one cycle before its lock runs out. */
  lemma {:induction false} HookIsOneCycleAhead(journal: seq<Entry>, plugin: string, c: Config)
    ensures HookReportsLocked(journal, plugin, c) ==> Locked(journal, plugin, c)
    ensures HookReportsLocked(journal, plugin, c) != Locked(journal, plugin, c) <==>
            (var b := Latest(journal, plugin); b.Some? && journal[b.value].cyclesSince == c.lockCycles - 1)
  {
    LatestIgnoresCounters(journal, Advance(journal), plugin);
  }
}

/** The tuning chain over the two stores: the persisted journal and the plugin settings. */
module TuneChain {
  import opened Common
  import opened ParamJournal

  type Key = (string, string)

  /** `journal` is the stored document, absent before the first change. */
  datatype Store = Store(journal: Option<seq<Entry>>, settings: map<Key, Json>)

  datatype Reply =
    | KvUnavailable | TuneError | LockCheckFailed | ParamLocked
    | JournalRejected | PersistFailed | ApplyFailed | Tuned

  /** A write that throws may or may not have reached the store. */
  datatype Write = Done | ThrewUnwritten | ThrewWritten

  /** Everything outside the chain: which calls work, and the two readings of the clock. */
  datatype World = World(
    kvPresent: bool, loads: bool, lockCall: bool, entryCall: bool,
    checkNow: real, stampNow: real, persist: Write, apply: Write)

  function Loaded(s: Store): seq<Entry> { match s.journal case Some(j) => j case None => [] }

  function Setting(s: Store, k: Key): Option<Json> {
    if k in s.settings then Some(s.settings[k]) else None
  }

  function KeyOf(r: Request): Key { (r.plugin, r.param) }

  function Admit(s: Store, r: Request, c: Config, w: World): Option<seq<Entry>> {
    JournalEntry(Loaded(s), r, Setting(s, KeyOf(r)), c, w.checkNow, w.stampNow)
  }

  function Persist(s: Store, journal: seq<Entry>, w: Write): Store {
    if w.ThrewUnwritten? then s else s.(journal := Some(journal))
  }

  function Apply(s: Store, r: Request, w: Write): Store {
    if w.ThrewUnwritten? then s else s.(settings := s.settings[KeyOf(r) := r.value])
  }

  /** The chain as a function of both stores. */
  function Tune(s: Store, r: Request, c: Config, w: World): (Store, Reply) {
    if !w.kvPresent then (s, KvUnavailable)
    else if !w.loads then (s, TuneError)
    else if !w.lockCall then (s, LockCheckFailed)
    else if Locked(Loaded(s), r.plugin, c) then (s, ParamLocked)
    else if !w.entryCall || Admit(s, r, c, w).None? then (s, JournalRejected)
    else
      var kept := Persist(s, Admit(s, r, c, w).value, w.persist);
      if !w.persist.Done? then (kept, PersistFailed)
      else (Apply(kept, r, w.apply), if w.apply.Done? then Tuned else ApplyFailed)
  }

  class Governor {
    var journal: Option<seq<Entry>>
    var settings: map<Key, Json>

    function View(): Store
      reads this
    {
      Store(journal, settings)
    }

    constructor (journal: Option<seq<Entry>>, settings: map<Key, Json>)
      ensures View() == Store(journal, settings)
    {
      this.journal, this.settings := journal, settings;
    }

    method RunTuneChain(r: Request, c: Config, w: World) returns (reply: Reply)
      modifies this
      ensures (View(), reply) == Tune(old(View()), r, c, w)
    {
      if !w.kvPresent { return KvUnavailable; }
      if !w.loads { return TuneError; }
      var loaded := match journal { case Some(j) => j case None => [] };
      if !w.lockCall { return LockCheckFailed; }
      if Locked(loaded, r.plugin, c) { return ParamLocked; }
      var before := if KeyOf(r) in settings then Some(settings[KeyOf(r)]) else None;
      var admitted := JournalEntry(loaded, r, before, c, w.checkNow, w.stampNow);
      if !w.entryCall || admitted.None? { return JournalRejected; }
      if !w.persist.ThrewUnwritten? { journal := Some(admitted.value); }
      if !w.persist.Done? { return PersistFailed; }
      if !w.apply.ThrewUnwritten? { settings := settings[KeyOf(r) := r.value]; }
      return if w.apply.Done? then Tuned else ApplyFailed;
    }
  }

  /** The counter advance, were it stored. */
  function Advanced(s: Store): Store {
    match s.journal case Some(j) => s.(journal := Some(Advance(j))) case None => s
  }

  // ---- runs ----

  datatype Event = Attempt(request: Request, config: Config, world: World) | Cycle

  function Next(s: Store, e: Event): Store {
    match e
    case Attempt(r, c, w) => Tune(s, r, c, w).0
    case Cycle => Advanced(s)
  }

  function Run(s: Store, events: seq<Event>): Store {
    if events == [] then s else Next(Run(s, events[..|events| - 1]), events[|events| - 1])
  }

  function Cycles(events: seq<Event>): nat {
    if events == [] then 0 else Cycles(events[..|events| - 1]) + if events[|events| - 1].Cycle? then 1 else 0
  }

  /** The journal is extended only by an unlocked, well argued request that fits the weekly limit. */
  predicate Extended(s: Store, t: Store, r: Request, c: Config, w: World) {
    && !Locked(Loaded(s), r.plugin, c)
    && Argued(r, c)
    && Recent(Loaded(s), r.plugin, w.checkNow - WEEK) < c.maxPerWeek
    && Loaded(t) == Loaded(s) + [NewEntry(r, Setting(s, KeyOf(r)), w.stampNow)]
  }

  /** Every outcome of an attempt: nothing, a journal entry alone, or an entry and then the setting. */
  lemma {:induction false} AttemptOutcomes(s: Store, r: Request, c: Config, w: World)
    ensures var t := Tune(s, r, c, w).0;
            && (Loaded(t) == Loaded(s) || Extended(s, t, r, c, w))
            && (|| t.settings == s.settings
                || (Extended(s, t, r, c, w) && t.settings == s.settings[KeyOf(r) := r.value]))
    ensures Tune(s, r, c, w).1 == Tuned ==>
            Extended(s, Tune(s, r, c, w).0, r, c, w) && Tune(s, r, c, w).0.settings == s.settings[KeyOf(r) := r.value]
  {
  }
}

module GovernorProofs {
  import opened Common
  import opened ParamJournal
  import opened TuneChain

  // ---- what an attempt comes to, over the journal's entries alone ----

  /** The plugin's change the lock goes by, its latest stamp and the first of those, is too few cycles old. */
  ghost predicate TooSoon(j: seq<Entry>, plugin: string, cycles: int) {
    exists k :: 0 <= k < |j| && IsConsulted(j, plugin, k) && j[k].cyclesSince < cycles
  }

  ghost predicate IsConsulted(j: seq<Entry>, plugin: string, k: int)
    requires 0 <= k < |j|
  {
    && j[k].plugin == plugin
    && forall i :: 0 <= i < |j| && j[i].plugin == plugin ==> j[i].ts <= j[k].ts && (i < k ==> j[i].ts < j[k].ts)
  }

  lemma {:induction false} LockedExactly(j: seq<Entry>, plugin: string, c: Config)
    ensures Locked(j, plugin, c) <==> TooSoon(j, plugin, c.lockCycles)
  {
    var best := Latest(j, plugin);
    if best.Some? {
      forall i | 0 <= i < |j| && j[i].plugin == plugin
        ensures j[i].ts <= j[best.value].ts && (i < best.value ==> j[i].ts < j[best.value].ts)
      {
        LatestIsFirstMaximal(j, plugin, i);
      }
      assert IsConsulted(j, plugin, best.value);
    }
    forall k | 0 <= k < |j| && IsConsulted(j, plugin, k) ensures best == Some(k) {
      LatestIsFirstMaximal(j, plugin, k);
    }
  }

  lemma {:induction false} RecentCounts(j: seq<Entry>, plugin: string, since: real)
    ensures Recent(j, plugin, since) == |Filter(j, (e: Entry) => e.plugin == plugin && e.ts as real > since)|
  {
    if j != [] { RecentCounts(j[..|j| - 1], plugin, since); }
  }

  /** The request passes: not too soon, well argued where that is asked for, and within the week's limit. */
  ghost predicate Due(j: seq<Entry>, r: Request, c: Config, now: real) {
    && !TooSoon(j, r.plugin, c.lockCycles)
    && (c.requireHypothesis ==> |Strip(r.hypothesis)| >= c.minHypothesis)
    && |Filter(j, (e: Entry) => e.plugin == r.plugin && e.ts as real > now - 604800.0)| < c.maxPerWeek
  }

  /** Every call of the chain before the first write goes through. */
  predicate Reached(w: World) { w.kvPresent && w.loads && w.lockCall && w.entryCall }

  /** Exactly when the parameter is reported tuned, and exactly when the journal and the setting change hands. */
  lemma {:induction false} TunedExactly(s: Store, r: Request, c: Config, w: World)
    ensures var (t, reply) := Tune(s, r, c, w);
      var due := Reached(w) && Due(Loaded(s), r, c, w.checkNow);
      && (reply == Tuned <==> due && w.persist == Done && w.apply == Done)
      && (Loaded(t) != Loaded(s) <==> due && w.persist != ThrewUnwritten)
      && (t.settings == if due && w.persist == Done && w.apply != ThrewUnwritten
                        then s.settings[(r.plugin, r.param) := r.value] else s.settings)
  {
    LockedExactly(Loaded(s), r.plugin, c);
    RecentCounts(Loaded(s), r.plugin, w.checkNow - 604800.0);
    var admitted := Admit(s, r, c, w);
    if admitted.Some? { assert |admitted.value| == |Loaded(s)| + 1; }
  }

  /** What the new entry says: the request, the value it replaces, the second it was made, and no cycles yet. */
  lemma {:induction false} EntrySays(s: Store, r: Request, c: Config, w: World)
    requires Loaded(Tune(s, r, c, w).0) != Loaded(s)
    ensures var j, was := Loaded(Tune(s, r, c, w).0), Loaded(s);
      && |j| == |was| + 1 && j[..|was|] == was
      && var e := j[|was|];
         && e.plugin == r.plugin && e.param == r.param && e.after == r.value && e.hypothesis == r.hypothesis
         && e.cycleId == r.cycleId && e.cyclesSince == 0 && e.ts as real <= w.stampNow < e.ts as real + 1.0
         && e.before == if (r.plugin, r.param) in s.settings then Some(s.settings[(r.plugin, r.param)]) else None
  {
    AttemptOutcomes(s, r, c, w);
  }

  // ---- a change of settings is always on record ----

  predicate Recorded(j: seq<Entry>, k: Key, v: Json) {
    exists i :: 0 <= i < |j| && j[i].plugin == k.0 && j[i].param == k.1 && j[i].after == v
  }

  lemma {:induction false} RecordsSurvive(s: Store, e: Event, k: Key, v: Json)
    requires Recorded(Loaded(s), k, v)
    ensures Recorded(Loaded(Next(s, e)), k, v)
  {
    var j, j' := Loaded(s), Loaded(Next(s, e));
    var i :| 0 <= i < |j| && j[i].plugin == k.0 && j[i].param == k.1 && j[i].after == v;
    if e.Attempt? { AttemptOutcomes(s, e.request, e.config, e.world); }
    assert j'[i].plugin == k.0 && j'[i].param == k.1 && j'[i].after == v;
  }

  /**
   * After any run, under any pattern of failures, a setting still has its first value
   * or the stored journal holds the entry that gave it the value it has.
   */
  lemma {:induction false} ChangesAreOnRecord(s: Store, events: seq<Event>, k: Key)
    ensures var t := Run(s, events);
            Setting(t, k) == Setting(s, k) || (k in t.settings && Recorded(Loaded(t), k, t.settings[k]))
  {
    if events != [] {
      var n := |events| - 1;
      var u, e := Run(s, events[..n]), events[n];
      var t := Next(u, e);
      ChangesAreOnRecord(s, events[..n], k);
      if Setting(t, k) == Setting(u, k) {
        if Setting(u, k) != Setting(s, k) { RecordsSurvive(u, e, k, u.settings[k]); }
      } else {
        AttemptOutcomes(u, e.request, e.config, e.world);
        assert KeyOf(e.request) == k;
        var j := Loaded(t);
        assert j[|j| - 1].plugin == k.0 && j[|j| - 1].param == k.1 && j[|j| - 1].after == t.settings[k];
      }
    }
  }

  // ---- the weekly limit ----

  function InWindow(j: seq<Entry>, plugin: string, end: real): nat {
    if j == [] then 0
    else
      var e := j[|j| - 1];
      InWindow(j[..|j| - 1], plugin, end)
      + if e.plugin == plugin && end - WEEK < e.ts as real <= end then 1 else 0
  }

  lemma {:induction false} WindowAppend(j: seq<Entry>, e: Entry, plugin: string, end: real)
    ensures InWindow(j + [e], plugin, end) == InWindow(j, plugin, end)
            + if e.plugin == plugin && end - WEEK < e.ts as real <= end then 1 else 0
  {
    assert (j + [e])[..|j|] == j;
  }

  lemma {:induction false} WindowIsRecent(j: seq<Entry>, plugin: string, end: real, since: real)
    requires forall e :: e in j && end - WEEK < e.ts as real ==> e.ts as real > since
    ensures InWindow(j, plugin, end) <= Recent(j, plugin, since)
  {
    if j != [] { WindowIsRecent(j[..|j| - 1], plugin, end, since); }
  }

  lemma {:induction false} WindowIgnoresCounters(j: seq<Entry>, plugin: string, end: real)
    ensures InWindow(Advance(j), plugin, end) == InWindow(j, plugin, end)
  {
    if j != [] {
      var n := |j| - 1;
      assert Advance(j)[..n] == Advance(j[..n]);
      WindowIgnoresCounters(j[..n], plugin, end);
    }
  }

  predicate Within(s: Store, plugin: string, end: real, limit: int) {
    InWindow(Loaded(s), plugin, end) <= MaxInt(0, limit)
  }

  /** The clock does not run backwards inside one attempt, and no attempt has a looser limit. */
  predicate Timely(e: Event, limit: int) {
    e.Attempt? ==> e.world.checkNow <= e.world.stampNow && e.config.maxPerWeek <= limit
  }

  lemma {:induction false} StampsReachBack(stampNow: real, checkNow: real, end: real, t: int)
    requires checkNow <= stampNow && stampNow.Floor as real <= end && end - WEEK < t as real
    ensures t as real > checkNow - WEEK
  {
    assert t > stampNow.Floor - 604800;
  }

  lemma {:induction false} AdmittedWithin(
    j: seq<Entry>, added: Entry, c: Config, w: World, plugin: string, end: real, limit: int)
    requires InWindow(j, plugin, end) <= MaxInt(0, limit)
    requires w.checkNow <= w.stampNow && added.ts == w.stampNow.Floor && c.maxPerWeek <= limit
    requires Recent(j, added.plugin, w.checkNow - WEEK) < c.maxPerWeek
    ensures InWindow(j + [added], plugin, end) <= MaxInt(0, limit)
  {
    WindowAppend(j, added, plugin, end);
    if added.plugin == plugin && added.ts as real <= end {
      forall e | e in j && end - WEEK < e.ts as real ensures e.ts as real > w.checkNow - WEEK {
        StampsReachBack(w.stampNow, w.checkNow, end, e.ts);
      }
      WindowIsRecent(j, plugin, end, w.checkNow - WEEK);
    }
  }

  lemma {:induction false} StepWithin(s: Store, e: Event, plugin: string, end: real, limit: int)
    requires Within(s, plugin, end, limit) && Timely(e, limit)
    ensures Within(Next(s, e), plugin, end, limit)
  {
    match e
    case Cycle => WindowIgnoresCounters(Loaded(s), plugin, end);
    case Attempt(r, c, w) =>
      AttemptOutcomes(s, r, c, w);
      var t := Tune(s, r, c, w).0;
      if Loaded(t) != Loaded(s) {
        AdmittedWithin(Loaded(s), NewEntry(r, Setting(s, KeyOf(r)), w.stampNow), c, w, plugin, end, limit);
      }
  }

  /** No seven-day window, wherever it ends, ever holds more changes of one plugin than the limit. */
  lemma {:induction false} WeeklyLimit(s: Store, events: seq<Event>, plugin: string, end: real, limit: int)
    requires Within(s, plugin, end, limit) && forall i :: 0 <= i < |events| ==> Timely(events[i], limit)
    ensures Within(Run(s, events), plugin, end, limit)
  {
    if events != [] {
      var n := |events| - 1;
      WeeklyLimit(s, events[..n], plugin, end, limit);
      StepWithin(Run(s, events[..n]), events[n], plugin, end, limit);
    }
  }

  // ---- the lock ----

  /** Stamps of one plugin strictly increase along the journal. */
  predicate Stamped(j: seq<Entry>, plugin: string) {
    forall i, k :: 0 <= i < k < |j| && j[i].plugin == plugin && j[k].plugin == plugin ==> j[i].ts < j[k].ts
  }

  /** Changes of one plugin are at least `cycles` counter advances apart. */
  predicate Spaced(j: seq<Entry>, plugin: string, cycles: int) {
    forall i, k :: 0 <= i < k < |j| && j[i].plugin == plugin && j[k].plugin == plugin ==>
      j[i].cyclesSince - j[k].cyclesSince >= cycles
  }

  predicate Strict(e: Event, cycles: int) { e.Attempt? ==> e.config.lockCycles >= cycles }

  predicate SpacedStore(s: Store, plugin: string, cycles: int) {
    Stamped(Loaded(s), plugin) ==> Spaced(Loaded(s), plugin, cycles)
  }

  lemma {:induction false} LatestCovers(j: seq<Entry>, plugin: string, i: nat, cycles: int)
    requires cycles >= 0 && Stamped(j, plugin) && Spaced(j, plugin, cycles)
    requires i < |j| && j[i].plugin == plugin
    ensures Latest(j, plugin).Some? && j[i].cyclesSince >= j[Latest(j, plugin).value].cyclesSince
  {
    LatestIsFirstMaximal(j, plugin, i);
  }

  lemma {:induction false} AppendSpaced(j: seq<Entry>, e: Entry, c: Config, plugin: string, cycles: int)
    requires 0 <= cycles <= c.lockCycles && e.cyclesSince == 0
    requires !Locked(j, e.plugin, c)
    requires Stamped(j, plugin) ==> Spaced(j, plugin, cycles)
    ensures Stamped(j + [e], plugin) ==> Spaced(j + [e], plugin, cycles)
  {
    var k := j + [e];
    if Stamped(k, plugin) {
      assert forall i :: 0 <= i < |j| ==> k[i] == j[i];
      forall i | 0 <= i < |j| && j[i].plugin == plugin && e.plugin == plugin
        ensures j[i].cyclesSince >= cycles
      {
        LatestCovers(j, plugin, i, cycles);
      }
    }
  }

  lemma {:induction false} StepSpaced(s: Store, e: Event, plugin: string, cycles: int)
    requires 0 <= cycles && Strict(e, cycles) && SpacedStore(s, plugin, cycles)
    ensures SpacedStore(Next(s, e), plugin, cycles)
  {
    var j, j' := Loaded(s), Loaded(Next(s, e));
    match e
    case Cycle =>
      if Stamped(j', plugin) {
        assert |j| == |j'| && forall i :: 0 <= i < |j| ==> j'[i] == j[i].(cyclesSince := j[i].cyclesSince + 1);
        assert forall i :: 0 <= i < |j| ==> j[i].plugin == j'[i].plugin && j[i].ts == j'[i].ts;
      }
    case Attempt(r, c, w) =>
      AttemptOutcomes(s, r, c, w);
      if j' != j { AppendSpaced(j, NewEntry(r, Setting(s, KeyOf(r)), w.stampNow), c, plugin, cycles); }
  }

  /** Over any run whose stamps of a plugin turn out distinct and in order, its changes keep the lock distance. */
  lemma {:induction false} LockDistance(s: Store, events: seq<Event>, plugin: string, cycles: int)
    requires 0 <= cycles && SpacedStore(s, plugin, cycles)
    requires forall i :: 0 <= i < |events| ==> Strict(events[i], cycles)
    ensures SpacedStore(Run(s, events), plugin, cycles)
  {
    if events != [] {
      var n := |events| - 1;
      LockDistance(s, events[..n], plugin, cycles);
      StepSpaced(Run(s, events[..n]), events[n], plugin, cycles);
    }
  }

  /** Entries are never lost or rewritten, and a counter is the number of advances since. */
  lemma {:induction false} CountersCountCycles(s: Store, events: seq<Event>, i: nat)
    requires i < |Loaded(s)|
    ensures i < |Loaded(Run(s, events))|
    ensures Loaded(Run(s, events))[i] == Loaded(s)[i].(cyclesSince := Loaded(s)[i].cyclesSince + Cycles(events))
  {
    if events != [] {
      var n := |events| - 1;
      var u, e := Run(s, events[..n]), events[n];
      CountersCountCycles(s, events[..n], i);
      if e.Attempt? { AttemptOutcomes(u, e.request, e.config, e.world); }
    }
  }

  const GOOD := World(true, true, true, true, 0.0, 0.0, Done, Done)

  const ONE_CYCLE := Config(false, 0, 9, 1)

  function TieRun(r: Request): seq<Event> {
    var a := Attempt(r, ONE_CYCLE, GOOD);
    [a, Cycle, a, a]
  }

  /**
   * Without distinct stamps the distance is lost: of two changes in one second the older, whose
   * counter has run out, is the one consulted, so a third change follows the second at once.
   */
  lemma {:induction false} TieDefeatsTheLock(r: Request)
    ensures var j := Loaded(Run(Store(None, map[]), TieRun(r)));
            |j| == 3 && j[1].plugin == j[2].plugin == r.plugin && j[1].cyclesSince == j[2].cyclesSince == 0
            && !Spaced(j, r.plugin, 1)
  {
    var a := Attempt(r, ONE_CYCLE, GOOD);
    var s0 := Store(None, map[]);
    var s2 := RipeEntry(s0, r);
    var old1, e := Loaded(s2)[0], NewEntry(r, Some(r.value), 0.0);
    OldestOfTied(old1, []);
    var s3 := Accepted(s2, r);
    assert Loaded(s3) == [old1] + [e];
    OldestOfTied(old1, [e]);
    var s4 := Accepted(s3, r);
    assert Loaded(s4) == [old1, e, e];
    RunFour(s0, a, Cycle, a, a);
  }

  /** One change and one cycle: the lock of one cycle has run out. */
  lemma {:induction false} RipeEntry(s0: Store, r: Request) returns (s2: Store)
    requires s0 == Store(None, map[])
    ensures s2 == Next(Next(s0, Attempt(r, ONE_CYCLE, GOOD)), Cycle)
    ensures |Loaded(s2)| == 1 && Setting(s2, KeyOf(r)) == Some(r.value)
    ensures var e := Loaded(s2)[0]; Loaded(s2) == [e] + [] && e.plugin == r.plugin && e.ts == 0 && e.cyclesSince == 1
  {
    var s1 := Accepted(s0, r);
    s2 := Next(s1, Cycle);
    assert Loaded(s2) == Advance(Loaded(s1));
  }

  lemma {:induction false} RecentAtMostAll(j: seq<Entry>, plugin: string, since: real)
    ensures Recent(j, plugin, since) <= |j|
  {
    if j != [] { RecentAtMostAll(j[..|j| - 1], plugin, since); }
  }

  /** An attempt in the good world, when the lock is open and the journal short. */
  lemma {:induction false} Accepted(s: Store, r: Request) returns (t: Store)
    requires !Locked(Loaded(s), r.plugin, ONE_CYCLE) && |Loaded(s)| < 9
    ensures t == Next(s, Attempt(r, ONE_CYCLE, GOOD))
    ensures Loaded(t) == Loaded(s) + [NewEntry(r, Setting(s, KeyOf(r)), 0.0)]
    ensures Setting(t, KeyOf(r)) == Some(r.value)
  {
    RecentAtMostAll(Loaded(s), r.plugin, GOOD.checkNow - WEEK);
    t := Next(s, Attempt(r, ONE_CYCLE, GOOD));
  }

  /** Entries with equal stamps: the first one is the latest. */
  lemma {:induction false} OldestOfTied(first: Entry, rest: seq<Entry>)
    requires forall e :: e in rest ==> e.plugin == first.plugin && e.ts == first.ts
    ensures Latest([first] + rest, first.plugin) == Some(0)
  {
    var j := [first] + rest;
    assert forall k :: 0 < k < |j| ==> j[k] in rest;
    LatestIsFirstMaximal(j, first.plugin, 0);
  }

  lemma {:induction false} RunFour(s: Store, a: Event, b: Event, c: Event, d: Event)
    ensures Run(s, [a, b, c, d]) == Next(Next(Next(Next(s, a), b), c), d)
  {
    assert [a, b, c, d][..3] == [a, b, c];
    assert [a, b, c][..2] == [a, b];
    assert [a, b][..1] == [a];
    assert [a][..0] == [];
    assert Run(s, [a]) == Next(s, a);
    assert Run(s, [a, b]) == Next(Next(s, a), b);
  }

  // ---- the cycle hook stores nothing, so no counter ever advances ----

  predicate Frozen(s: Store, plugin: string) {
    && (forall i :: 0 <= i < |Loaded(s)| ==> Loaded(s)[i].cyclesSince == 0)
    && (forall i, k :: 0 <= i < k < |Loaded(s)| && Loaded(s)[i].plugin == plugin ==> Loaded(s)[k].plugin != plugin)
  }

  lemma {:induction false} StepFrozen(s: Store, e: Event, plugin: string)
    requires Frozen(s, plugin) && e.Attempt? && e.config.lockCycles > 0
    ensures Frozen(Next(s, e), plugin)
  {
    AttemptOutcomes(s, e.request, e.config, e.world);
    var j, j' := Loaded(s), Loaded(Next(s, e));
    if j' != j {
      assert Latest(j, e.request.plugin).None?;
      assert forall i :: 0 <= i < |j| ==> j'[i] == j[i];
    }
  }

  /** With nothing but attempts and a positive lock, a plugin is changed once and then locked for good. */
  lemma {:induction false} WithoutAdvancesOneChange(s: Store, events: seq<Event>, plugin: string)
    requires Frozen(s, plugin)
    requires forall i :: 0 <= i < |events| ==> events[i].Attempt? && events[i].config.lockCycles > 0
    ensures Frozen(Run(s, events), plugin)
  {
    if events != [] {
      var n := |events| - 1;
      WithoutAdvancesOneChange(s, events[..n], plugin);
      StepFrozen(Run(s, events[..n]), events[n], plugin);
    }
  }
}
