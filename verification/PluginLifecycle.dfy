/**
 * The life of sandboxed plugins (OpenWA/src/core/plugins/plugin-loader.service.ts and the registry of
 * plugin-storage.service.ts). A step is the code between two awaits, so enables of any number of callers interleave;
 * disable and unload run to completion.
 */
module PluginLifecycle {
  import opened Hooks

  datatype Status = Installed | Enabled | Disabled | Error

  /** Where an enable in flight is: its worker loads, or it failed and its worker is being terminated. */
  datatype Phase = Loading | Failing

  datatype Call = Call(plugin: string, phase: Phase)

  datatype State = State(
    plugins: map<string, Status>,
    registry: map<string, Status>,
    enabling: set<string>,
    hosts: set<string>,
    /** The live worker threads, each with the events it has subscribed to. */
    workers: map<string, set<Event>>,
    /** Which plugins own the registrations of each event. */
    hooks: map<Event, multiset<string>>,
    /** The enable calls in flight. */
    calls: map<nat, Call>)

  const Boot := State(map[], map[], {}, {}, map[], map[], map[])

  /** setPluginStatus touches existing entries only. */
  function SetStatus(registry: map<string, Status>, p: string, status: Status): map<string, Status> {
    if p in registry then registry[p := status] else registry
  }

  function Owners(hooks: map<Event, multiset<string>>, e: Event): multiset<string> {
    if e in hooks then hooks[e] else multiset{}
  }

  /** unregisterPlugin */
  function DropHooks(hooks: map<Event, multiset<string>>, p: string): map<Event, multiset<string>> {
    map e | e in hooks :: hooks[e][p := 0]
  }

  // ---- The steps ----

  datatype Step =
    | Load(id: string)
    | EnableStart(c: nat, p: string, contained: bool)
    | Subscribe(p: string, e: Event)
    | EnableSucceeds(c: nat)
    | EnableBreaks(c: nat)
    | EnableFails(c: nat)
    | Disable(p: string)
    | Unload(p: string)
    | Restart

  /** loadPlugin; a plugin already loaded is refused. */
  function Loaded(s: State, id: string): State {
    if id in s.plugins then s
    else s.(plugins := s.plugins[id := Installed], registry := s.registry[id := Installed])
  }

  /** enablePlugin claims an enable only for a loaded plugin that is not enabled and not being enabled. */
  predicate MayEnable(s: State, p: string) {
    p in s.plugins && s.plugins[p] != Enabled && p !in s.enabling
  }

  /** enablePlugin up to its first await; a main path outside the plugin's directory fails before any worker exists. */
  function Started(s: State, c: nat, p: string, contained: bool): State {
    if !MayEnable(s, p) then s
    else if contained then
      s.(enabling := s.enabling + {p}, calls := s.calls[c := Call(p, Loading)], hosts := s.hosts + {p},
         workers := s.workers[p := {}])
    else s.(enabling := s.enabling + {p}, calls := s.calls[c := Call(p, Failing)])
  }

  /** onHookSubscribe for a known event: once per worker. */
  function Subscribed(s: State, p: string, e: Event): State
    requires p in s.workers
  {
    if e in s.workers[p] then s
    else s.(workers := s.workers[p := s.workers[p] + {e}], hooks := s.hooks[e := Owners(s.hooks, e) + multiset{p}])
  }

  /** The status an enable ends with, in the runtime and in the registry. */
  function Ended(s: State, c: nat, status: Status): State
    requires c in s.calls
  {
    var p := s.calls[c].plugin;
    s.(plugins := s.plugins[p := status], registry := SetStatus(s.registry, p, status),
       enabling := s.enabling - {p}, calls := s.calls - {c})
  }

  /** The worker fails to load or to run its lifecycle: its host is forgotten, then it is terminated. */
  function Broken(s: State, c: nat): State
    requires c in s.calls
  {
    var p := s.calls[c].plugin;
    s.(hosts := s.hosts - {p}, calls := s.calls[c := Call(p, Failing)])
  }

  /** The end of a failed enable, its worker gone. */
  function Failed(s: State, c: nat): State
    requires c in s.calls
  {
    var p := s.calls[c].plugin;
    Ended(s, c, Error).(workers := s.workers - {p}, hooks := DropHooks(s.hooks, p))
  }

  /** disablePlugin of a sandboxed plugin. */
  function TurnedOff(s: State, p: string): State {
    if p !in s.plugins || s.plugins[p] != Enabled then s
    else
      s.(hosts := s.hosts - {p}, workers := s.workers - {p}, hooks := DropHooks(s.hooks, p),
         plugins := s.plugins[p := Disabled], registry := SetStatus(s.registry, p, Disabled))
  }

  /** unloadPlugin */
  function Unloaded(s: State, p: string): State {
    var t := TurnedOff(s, p);
    t.(plugins := t.plugins - {p})
  }

  /** The step can be taken: a new call has a new number, and an unload does not race an enable of the plugin. */
  predicate Can(s: State, step: Step) {
    match step
    case EnableStart(c, _, _) => c !in s.calls
    case Subscribe(p, _) => p in s.workers
    case EnableSucceeds(c) => c in s.calls && s.calls[c].phase == Loading
    case EnableBreaks(c) => c in s.calls && s.calls[c].phase == Loading
    case EnableFails(c) => c in s.calls && s.calls[c].phase == Failing
    case Unload(p) => p !in s.enabling
    case _ => true
  }

  function Next(s: State, step: Step): State
    requires Can(s, step)
  {
    match step
    case Load(id) => Loaded(s, id)
    case EnableStart(c, p, contained) => Started(s, c, p, contained)
    case Subscribe(p, e) => Subscribed(s, p, e)
    case EnableSucceeds(c) => Ended(s, c, Enabled)
    case EnableBreaks(c) => Broken(s, c)
    case EnableFails(c) => Failed(s, c)
    case Disable(p) => TurnedOff(s, p)
    case Unload(p) => Unloaded(s, p)
    case Restart => Boot.(registry := s.registry)
  }

  // ---- The invariant ----

  ghost predicate CallsMatch(s: State) {
    && (forall c :: c in s.calls ==> s.calls[c].plugin in s.enabling)
    && (forall c, d :: c in s.calls && d in s.calls && s.calls[c].plugin == s.calls[d].plugin ==> c == d)
    && (forall p :: p in s.enabling ==> p in s.plugins && s.plugins[p] != Enabled)
  }

  ghost predicate WorkersMatch(s: State) {
    && (forall p :: p in s.hosts ==> p in s.workers)
    && (forall p :: p in s.workers ==> p in s.plugins && (p in s.enabling || s.plugins[p] == Enabled))
    && (forall p :: p in s.plugins && s.plugins[p] == Enabled ==> p in s.hosts)
    && (forall c :: c in s.calls && s.calls[c].phase == Loading ==> s.calls[c].plugin in s.hosts)
    && (forall c :: c in s.calls && s.calls[c].phase == Failing ==> s.calls[c].plugin !in s.hosts)
  }

  ghost predicate HooksMatch(s: State) {
    forall p, e :: Owners(s.hooks, e)[p] == if p in s.workers && e in s.workers[p] then 1 else 0
  }

  ghost predicate RegistryMatches(s: State) {
    forall p :: p in s.plugins ==> p in s.registry && s.registry[p] == s.plugins[p]
  }

  ghost predicate Inv(s: State) {
    CallsMatch(s) && WorkersMatch(s) && HooksMatch(s) && RegistryMatches(s)
  }

  lemma LoadKeeps(s: State, id: string)
    requires Inv(s)
    ensures Inv(Loaded(s, id))
  {
  }

  lemma StartKeeps(s: State, c: nat, p: string, contained: bool)
    requires Inv(s) && c !in s.calls
    ensures Inv(Started(s, c, p, contained))
  {
    StartKeepsHooks(s, c, p, contained);
  }

  lemma StartKeepsHooks(s: State, c: nat, p: string, contained: bool)
    requires Inv(s)
    ensures HooksMatch(Started(s, c, p, contained))
  {
    var t := Started(s, c, p, contained);
    forall q, e ensures Owners(t.hooks, e)[q] == if q in t.workers && e in t.workers[q] then 1 else 0 {
      assert Owners(s.hooks, e)[q] == if q in s.workers && e in s.workers[q] then 1 else 0;
    }
  }

  lemma SubscribeKeeps(s: State, p: string, e: Event)
    requires Inv(s) && p in s.workers
    ensures Inv(Subscribed(s, p, e))
  {
    SubscribeKeepsHooks(s, p, e);
  }

  lemma SubscribeKeepsHooks(s: State, p: string, e: Event)
    requires HooksMatch(s) && p in s.workers
    ensures HooksMatch(Subscribed(s, p, e))
  {
    var t := Subscribed(s, p, e);
    forall q, f ensures Owners(t.hooks, f)[q] == if q in t.workers && f in t.workers[q] then 1 else 0 {
      assert Owners(s.hooks, f)[q] == if q in s.workers && f in s.workers[q] then 1 else 0;
      assert (Owners(s.hooks, e) + multiset{p})[q] == Owners(s.hooks, e)[q] + if q == p then 1 else 0;
    }
  }

  lemma SubscribeOwns(s: State, p: string, e: Event)
    requires Inv(s) && p in s.workers
    ensures var t := Subscribed(s, p, e);
            && t.workers == s.workers[p := s.workers[p] + {e}] && Owners(t.hooks, e)[p] == 1
            && forall q, f :: q != p || f != e ==> Owners(t.hooks, f)[q] == Owners(s.hooks, f)[q]
  {
    assert Owners(s.hooks, e)[p] == if e in s.workers[p] then 1 else 0;
    assert e in s.workers[p] ==> s.workers[p] + {e} == s.workers[p] && s.workers[p := s.workers[p]] == s.workers;
  }

  lemma SuccessKeeps(s: State, c: nat)
    requires Inv(s) && c in s.calls && s.calls[c].phase == Loading
    ensures Inv(Ended(s, c, Enabled))
  {
  }

  lemma BreakKeeps(s: State, c: nat)
    requires Inv(s) && c in s.calls && s.calls[c].phase == Loading
    ensures Inv(Broken(s, c))
  {
  }

  /** Taking a worker away together with its plugin's hooks keeps hooks and workers in step. */
  lemma DropKeeps(s: State, t: State, p: string)
    requires HooksMatch(s) && t.workers == s.workers - {p} && t.hooks == DropHooks(s.hooks, p)
    ensures HooksMatch(t)
  {
    forall q, e ensures Owners(t.hooks, e)[q] == if q in t.workers && e in t.workers[q] then 1 else 0 {
      assert Owners(s.hooks, e)[q] == if q in s.workers && e in s.workers[q] then 1 else 0;
    }
  }

  lemma FailureKeeps(s: State, c: nat)
    requires Inv(s) && c in s.calls && s.calls[c].phase == Failing
    ensures Inv(Failed(s, c))
  {
    DropKeeps(s, Failed(s, c), s.calls[c].plugin);
  }

  lemma TurnOffKeeps(s: State, p: string)
    requires Inv(s)
    ensures Inv(TurnedOff(s, p))
  {
    if p in s.plugins && s.plugins[p] == Enabled {
      DropKeeps(s, TurnedOff(s, p), p);
    }
  }

  lemma UnloadKeeps(s: State, p: string)
    requires Inv(s) && p !in s.enabling
    ensures Inv(Unloaded(s, p))
  {
    TurnOffKeeps(s, p);
  }

  lemma StepKeeps(s: State, step: Step)
    requires Inv(s) && Can(s, step)
    ensures Inv(Next(s, step))
  {
    match step
    case Load(id) => LoadKeeps(s, id);
    case EnableStart(c, p, contained) => StartKeeps(s, c, p, contained);
    case Subscribe(p, e) => SubscribeKeeps(s, p, e);
    case EnableSucceeds(c) => SuccessKeeps(s, c);
    case EnableBreaks(c) => BreakKeeps(s, c);
    case EnableFails(c) => FailureKeeps(s, c);
    case Disable(p) => TurnOffKeeps(s, p);
    case Unload(p) => UnloadKeeps(s, p);
    case Restart =>
  }

  // ---- Every run ----

  ghost predicate IsRun(steps: seq<Step>, states: seq<State>) {
    && |states| == |steps| + 1 && states[0] == Boot
    && forall i :: 0 <= i < |steps| ==> Can(states[i], steps[i]) && states[i + 1] == Next(states[i], steps[i])
  }

  lemma {:induction false} InvHolds(steps: seq<Step>, states: seq<State>, i: nat)
    requires IsRun(steps, states) && i <= |steps|
    ensures Inv(states[i])
  {
    if i > 0 {
      InvHolds(steps, states, i - 1);
      StepKeeps(states[i - 1], steps[i - 1]);
    }
  }

  predicate IsEnabled(s: State, p: string) {
    p in s.plugins && s.plugins[p] == Enabled
  }

  /**
   * In every reachable state at most one enable is in flight per plugin; a plugin none is in flight for has a live
   * worker, known to the loader, exactly when it is enabled; it owns at most one hook per event and none unless it is
   * enabled; and the registry says what the runtime says.
   */
  lemma LifecycleIsSound(steps: seq<Step>, states: seq<State>, i: nat, p: string)
    requires IsRun(steps, states) && i <= |steps|
    ensures var s := states[i];
            && (forall c, d ::
                  c in s.calls && d in s.calls && s.calls[c].plugin == p && s.calls[d].plugin == p ==> c == d)
            && (p !in s.enabling ==> (p in s.workers <==> IsEnabled(s, p)) && (p in s.hosts <==> IsEnabled(s, p)))
            && (forall e :: Owners(s.hooks, e)[p] <= 1)
            && (forall e :: p !in s.enabling && Owners(s.hooks, e)[p] > 0 ==> IsEnabled(s, p))
            && (p in s.plugins ==> p in s.registry && s.registry[p] == s.plugins[p])
  {
    InvHolds(steps, states, i);
    var s := states[i];
    forall e ensures Owners(s.hooks, e)[p] == if p in s.workers && e in s.workers[p] then 1 else 0 {
      assert HooksMatch(s);
    }
  }

  /** Step `k` of a run started the worker that plugin `p` has. */
  ghost predicate Starts(steps: seq<Step>, states: seq<State>, k: nat, p: string) {
    && k < |steps| && k < |states| && steps[k].EnableStart? && steps[k].p == p && steps[k].contained
    && MayEnable(states[k], p)
  }

  /** The worker of `p` subscribed to `e` after step `k`. */
  ghost predicate SubscribedAfter(steps: seq<Step>, k: nat, i: nat, p: string, e: Event) {
    exists j :: k < j < i && j < |steps| && steps[j] == Subscribe(p, e)
  }

  /**
   * In every run a live worker owns a hook on an event, and then exactly one, exactly when it subscribed to the event
   * after the enable that started it; it has been alive since.
   */
  lemma OwnsWhatItSubscribed(steps: seq<Step>, states: seq<State>, i: nat, p: string) returns (k: nat)
    requires IsRun(steps, states) && i <= |steps| && p in states[i].workers
    ensures k < i && Starts(steps, states, k, p) && forall m :: k < m <= i ==> p in states[m].workers
    ensures forall e :: Owners(states[i].hooks, e)[p] == if SubscribedAfter(steps, k, i, p, e) then 1 else 0
  {
    k := SubscribedSinceStart(steps, states, i, p);
    InvHolds(steps, states, i);
    forall e ensures Owners(states[i].hooks, e)[p] == if SubscribedAfter(steps, k, i, p, e) then 1 else 0 {
      HooksOfWorker(states[i], p, e);
    }
  }

  ghost predicate KnowsSubscriptions(steps: seq<Step>, s: State, k: nat, i: nat, p: string) {
    p in s.workers && forall e :: e in s.workers[p] <==> SubscribedAfter(steps, k, i, p, e)
  }

  lemma {:induction false} SubscribedSinceStart(steps: seq<Step>, states: seq<State>, i: nat, p: string)
    returns (k: nat)
    requires IsRun(steps, states) && i <= |steps| && p in states[i].workers
    ensures k < i && Starts(steps, states, k, p) && forall m :: k < m <= i ==> p in states[m].workers
    ensures KnowsSubscriptions(steps, states[i], k, i, p)
  {
    InvHolds(steps, states, i - 1);
    assert Can(states[i - 1], steps[i - 1]) && states[i] == Next(states[i - 1], steps[i - 1]);
    if p in states[i - 1].workers {
      k := SubscribedSinceStart(steps, states, i - 1, p);
      StaysSubscribed(steps, states[i - 1], k, i, p);
    } else {
      k := i - 1;
      StartedEmpty(states[i - 1], steps[i - 1], p);
    }
  }

  lemma StaysSubscribed(steps: seq<Step>, s: State, k: nat, i: nat, p: string)
    requires k < i - 1 && i <= |steps| && Inv(s) && Can(s, steps[i - 1]) && p in Next(s, steps[i - 1]).workers
    requires KnowsSubscriptions(steps, s, k, i - 1, p)
    ensures KnowsSubscriptions(steps, Next(s, steps[i - 1]), k, i, p)
  {
    forall e ensures e in Next(s, steps[i - 1]).workers[p] <==> SubscribedAfter(steps, k, i, p, e) {
      OneMoreStep(steps, k, i, p, e);
      SubscribesOnly(s, steps[i - 1], p, e);
    }
  }

  lemma OneMoreStep(steps: seq<Step>, k: nat, i: nat, p: string, e: Event)
    requires k < i - 1 && i <= |steps|
    ensures SubscribedAfter(steps, k, i, p, e)
       <==> SubscribedAfter(steps, k, i - 1, p, e) || steps[i - 1] == Subscribe(p, e)
  {
  }

  lemma HooksOfWorker(s: State, p: string, e: Event)
    requires Inv(s) && p in s.workers
    ensures Owners(s.hooks, e)[p] == if e in s.workers[p] then 1 else 0
  {
    assert HooksMatch(s);
  }

  /** Only its own subscription adds an event to a worker that stays alive. */
  lemma SubscribesOnly(s: State, step: Step, p: string, e: Event)
    requires Inv(s) && Can(s, step) && p in s.workers && p in Next(s, step).workers
    ensures e in Next(s, step).workers[p] <==> e in s.workers[p] || step == Subscribe(p, e)
  {
  }

  lemma StartedEmpty(s: State, step: Step, p: string)
    requires Inv(s) && Can(s, step) && p !in s.workers && p in Next(s, step).workers
    ensures step.EnableStart? && step.p == p && step.contained && MayEnable(s, p) && Next(s, step).workers[p] == {}
  {
  }

  /** The runtime and the registry say the same of a plugin. */
  predicate BothSay(s: State, p: string, status: Status) {
    p in s.plugins && s.plugins[p] == status && p in s.registry && s.registry[p] == status
  }

  /** The status each step leaves, in the runtime and in the registry; every other plugin keeps its own. */
  lemma StatusAfterStep(steps: seq<Step>, states: seq<State>, i: nat)
    requires IsRun(steps, states) && i < |steps|
    ensures var s, t := states[i], states[i + 1];
            match steps[i]
            case Load(id) => if id in s.plugins then t == s else BothSay(t, id, Installed) && OthersKeep(s, t, id)
            case EnableSucceeds(c) => BothSay(t, s.calls[c].plugin, Enabled) && OthersKeep(s, t, s.calls[c].plugin)
            case EnableFails(c) => BothSay(t, s.calls[c].plugin, Error) && OthersKeep(s, t, s.calls[c].plugin)
            case Disable(p) => if IsEnabled(s, p) then BothSay(t, p, Disabled) && OthersKeep(s, t, p) else t == s
            case Unload(p) => p !in t.plugins && OthersKeep(s, t, p)
            case Restart => t.plugins == map[] && t.registry == s.registry
            case _ => t.plugins == s.plugins && t.registry == s.registry
  {
    InvHolds(steps, states, i);
  }

  ghost predicate OthersKeep(s: State, t: State, p: string) {
    t.plugins - {p} == s.plugins - {p} && t.registry - {p} == s.registry - {p}
  }

  /**
   * Why an unload must not race an enable: it leaves the worker of a plugin that is no longer loaded alive exactly when
   * an enable of the plugin is in flight and has its worker.
   */
  lemma RacingUnloadLeaks(s: State, p: string)
    requires Inv(s)
    ensures p !in Unloaded(s, p).plugins
    ensures p in Unloaded(s, p).workers <==> p in s.enabling && p in s.workers
  {
  }

  /** Such a state is two steps from the start: load a plugin, begin to enable it. */
  lemma RaceIsReachable(p: string)
    ensures var steps := [Load(p), EnableStart(0, p, true)];
            var states := [Boot, Loaded(Boot, p), Started(Loaded(Boot, p), 0, p, true)];
            IsRun(steps, states) && p in Unloaded(states[2], p).workers
  {
  }

  // ---- The loader ----

  function OwnersOf(list: seq<Registration>): multiset<string> {
    if list == [] then multiset{} else OwnersOf(list[..|list| - 1]) + multiset{list[|list| - 1].id.plugin}
  }

  function OwnersByEvent(hooks: HookLists): map<Event, multiset<string>> {
    Summed(hooks, OwnersOf)
  }

  function Summed(hooks: HookLists, sum: seq<Registration> -> multiset<string>): map<Event, multiset<string>> {
    map e | e in hooks :: sum(hooks[e])
  }

  lemma SummedAfterSet(hooks: HookLists, e: Event, list: seq<Registration>, sum: seq<Registration> -> multiset<string>)
    ensures Summed(hooks[e := list], sum) == Summed(hooks, sum)[e := sum(list)]
  {
  }

  lemma {:induction false} OwnersWithout(list: seq<Registration>, p: string)
    ensures OwnersOf(Without(list, p)) == OwnersOf(list)[p := 0]
  {
    if list != [] {
      OwnersWithout(list[..|list| - 1], p);
      var rest := Without(list[..|list| - 1], p);
      var x := list[|list| - 1];
      assert (rest + [x])[..|rest|] == rest;
    }
  }

  lemma {:induction false} OwnersSplit(a: seq<Registration>, b: seq<Registration>)
    ensures OwnersOf(a + b) == OwnersOf(a) + OwnersOf(b)
  {
    if b == [] {
      assert a + b == a;
    } else {
      assert (a + b)[..|a + b| - 1] == a + b[..|b| - 1];
      OwnersSplit(a, b[..|b| - 1]);
    }
  }

  /** The owners depend on the registrations, not on their order. */
  lemma {:induction false} OwnersOfSame(a: seq<Registration>, b: seq<Registration>)
    requires multiset(a) == multiset(b)
    ensures OwnersOf(a) == OwnersOf(b)
  {
    assert |multiset(a)| == |multiset(b)|;
    if a != [] {
      var n := |a| - 1;
      SplitLast(a);
      assert a[n] in multiset(b);
      var i :| 0 <= i < |b| && b[i] == a[n];
      TakeOut(b, i);
      assert multiset(a[..n]) == multiset(a) - multiset{a[n]};
      OwnersOfSame(a[..n], b[..i] + b[i + 1..]);
    }
  }

  lemma TakeOut(b: seq<Registration>, i: nat)
    requires i < |b|
    ensures var rest := b[..i] + b[i + 1..];
            OwnersOf(b) == OwnersOf(rest) + multiset{b[i].id.plugin} && multiset(rest) == multiset(b) - multiset{b[i]}
  {
    assert b == b[..i] + [b[i]] + b[i + 1..];
    OwnersSplit(b[..i], b[i + 1..]);
    OwnersSplit(b[..i], [b[i]]);
    OwnersSplit(b[..i] + [b[i]], b[i + 1..]);
    assert OwnersOf([b[i]]) == multiset{b[i].id.plugin};
  }

  lemma OwnersOfOneMore(list: seq<Registration>, before: seq<Registration>, x: Registration)
    requires OneMore(list, before, x)
    ensures OwnersOf(list) == OwnersOf(before) + multiset{x.id.plugin}
  {
    assert (before + [x])[..|before|] == before;
    OwnersOfSame(list, before + [x]);
  }

  lemma OwnersAdded(before: HookLists, after: HookLists, x: Registration)
    requires var e := x.id.event;
             after == before[e := HandlersOf(after, e)] && OneMore(HandlersOf(after, e), HandlersOf(before, e), x)
    ensures var e, owners := x.id.event, OwnersByEvent(before);
            OwnersByEvent(after) == owners[e := Owners(owners, e) + multiset{x.id.plugin}]
  {
    var e := x.id.event;
    OwnersSet(before, e, HandlersOf(after, e));
    OwnersOfOneMore(HandlersOf(after, e), HandlersOf(before, e), x);
  }

  lemma OwnersSet(hooks: HookLists, e: Event, list: seq<Registration>)
    ensures OwnersByEvent(hooks[e := list]) == OwnersByEvent(hooks)[e := OwnersOf(list)]
    ensures OwnersOf(HandlersOf(hooks, e)) == Owners(OwnersByEvent(hooks), e)
  {
    SummedAfterSet(hooks, e, list, OwnersOf);
  }

  lemma OwnersDropped(before: HookLists, after: HookLists, p: string)
    requires after.Keys == before.Keys && forall e :: HandlersOf(after, e) == Without(HandlersOf(before, e), p)
    ensures OwnersByEvent(after) == DropHooks(OwnersByEvent(before), p)
  {
    forall e | e in before ensures OwnersOf(after[e]) == OwnersOf(before[e])[p := 0] {
      assert HandlersOf(after, e) == Without(HandlersOf(before, e), p);
      OwnersWithout(before[e], p);
    }
  }

  /** The registry has the runtime's status of the plugin. */
  predicate Agree(plugins: map<string, Status>, registry: map<string, Status>, p: string) {
    p in plugins && p in registry && registry[p] == plugins[p]
  }

  datatype Answer = NotFound | AlreadyEnabled | AlreadyEnabling | Begun

  class PluginLoader {
    var plugins: map<string, Status>
    var registry: map<string, Status>
    var enabling: set<string>
    var sandboxHosts: set<string>
    var workers: map<string, set<Event>>
    var calls: map<nat, Call>
    const hookManager: HookManager

    ghost function View(): State
      reads this, hookManager
    {
      State(plugins, registry, enabling, sandboxHosts, workers, OwnersByEvent(hookManager.hooks), calls)
    }

    ghost predicate Valid()
      reads this, hookManager
    {
      hookManager.Valid() && Inv(View())
    }

    /** A fresh process: only the persisted registry is there. */
    constructor (persisted: map<string, Status>)
      ensures Valid() && View() == Boot.(registry := persisted) && fresh(hookManager)
    {
      plugins, registry, enabling, sandboxHosts := map[], persisted, {}, {};
      workers, calls := map[], map[];
      hookManager := new HookManager();
    }

    /** loadPlugin */
    method LoadPlugin(id: string, validManifest: bool) returns (ok: bool)
      requires Valid()
      modifies this
      ensures Valid() && ok == (validManifest && id !in old(plugins))
      ensures View() == if validManifest then Loaded(old(View()), id) else old(View())
      ensures ok ==> BothSay(View(), id, Installed)
    {
      ok := validManifest && id !in plugins;
      if ok {
        LoadKeeps(View(), id);
        plugins := plugins[id := Installed];
        registry := registry[id := Installed];
      }
    }

    /** enablePlugin up to its first await */
    method EnablePlugin(c: nat, p: string, contained: bool) returns (answer: Answer)
      requires Valid() && c !in calls
      modifies this
      ensures Valid() && View() == Started(old(View()), c, p, contained)
      ensures answer == Begun <==> MayEnable(old(View()), p)
      ensures answer == NotFound <==> p !in old(plugins)
      ensures answer == AlreadyEnabled <==> IsEnabled(old(View()), p)
      ensures answer == Begun ==> p in enabling && c in calls && calls[c].plugin == p
      ensures answer == Begun && contained ==> p in sandboxHosts && p in workers && workers[p] == {}
    {
      StartKeeps(View(), c, p, contained);
      if p !in plugins {
        return NotFound;
      }
      if plugins[p] == Enabled {
        return AlreadyEnabled;
      }
      if p in enabling {
        return AlreadyEnabling;
      }
      enabling := enabling + {p};
      if contained {
        calls := calls[c := Call(p, Loading)];
        sandboxHosts := sandboxHosts + {p};
        workers := workers[p := {}];
      } else {
        calls := calls[c := Call(p, Failing)];
      }
      assert View() == Started(old(View()), c, p, contained);
      return Begun;
    }

    /** onHookSubscribe, for a known event */
    method OnHookSubscribe(p: string, e: Event, shim: Handler, priority: int, now: int)
      requires Valid() && p in workers
      modifies this, hookManager
      ensures Valid() && View() == Subscribed(old(View()), p, e)
      ensures workers == old(workers)[p := old(workers)[p] + {e}] && Owners(View().hooks, e)[p] == 1
      ensures forall q, f :: q != p || f != e ==> Owners(View().hooks, f)[q] == old(Owners(View().hooks, f)[q])
      ensures plugins == old(plugins) && registry == old(registry) && enabling == old(enabling)
      ensures sandboxHosts == old(sandboxHosts) && calls == old(calls)
    {
      SubscribeKeeps(View(), p, e);
      SubscribeOwns(View(), p, e);
      if e in workers[p] {
        return;
      }
      workers := workers[p := workers[p] + {e}];
      AddHook(p, e, shim, priority, now);
    }

    /** register, seen through the owners */
    method AddHook(p: string, e: Event, shim: Handler, priority: int, now: int)
      requires hookManager.Valid()
      modifies hookManager
      ensures var owners := old(OwnersByEvent(hookManager.hooks));
              && hookManager.Valid()
              && OwnersByEvent(hookManager.hooks) == owners[e := Owners(owners, e) + multiset{p}]
    {
      ghost var before, born := hookManager.hooks, hookManager.registered;
      var id := hookManager.Register(p, e, shim, priority, now);
      OwnersAdded(before, hookManager.hooks, Registration(id, shim, priority, born));
    }

    /** unregisterPlugin, seen through the owners */
    method DropPlugin(p: string)
      requires hookManager.Valid()
      modifies hookManager
      ensures hookManager.Valid()
      ensures OwnersByEvent(hookManager.hooks) == DropHooks(old(OwnersByEvent(hookManager.hooks)), p)
    {
      ghost var before := hookManager.hooks;
      hookManager.UnregisterPlugin(p);
      OwnersDropped(before, hookManager.hooks, p);
    }

    /** plugin.status and setPluginStatus: they agree on the plugin if it has an entry, and on the others as before. */
    method SetPluginStatus(p: string, status: Status)
      modifies this`plugins, this`registry
      ensures plugins == old(plugins)[p := status] && registry == SetStatus(old(registry), p, status)
      ensures Agree(plugins, registry, p) <==> p in old(registry)
      ensures forall q :: q != p ==> (Agree(plugins, registry, q) <==> old(Agree(plugins, registry, q)))
      ensures registry.Keys == old(registry).Keys
    {
      plugins := plugins[p := status];
      if p in registry {
        registry := registry[p := status];
      }
    }

    /** enablePlugin once the worker has loaded and enabled the plugin */
    method EnableSucceeded(c: nat)
      requires Valid() && c in calls && calls[c].phase == Loading
      modifies this
      ensures Valid() && View() == Ended(old(View()), c, Enabled)
      ensures BothSay(View(), old(calls)[c].plugin, Enabled)
    {
      SuccessKeeps(View(), c);
      var p := calls[c].plugin;
      SetPluginStatus(p, Enabled);
      enabling := enabling - {p};
      calls := calls - {c};
    }

    /** enableSandboxed's catch, up to the termination of the worker */
    method WorkerBroke(c: nat)
      requires Valid() && c in calls && calls[c].phase == Loading
      modifies this
      ensures Valid() && View() == Broken(old(View()), c)
    {
      BreakKeeps(View(), c);
      var p := calls[c].plugin;
      sandboxHosts := sandboxHosts - {p};
      calls := calls[c := Call(p, Failing)];
    }

    /** enablePlugin's catch and finally */
    method EnableFailed(c: nat)
      requires Valid() && c in calls && calls[c].phase == Failing
      modifies this, hookManager
      ensures Valid() && View() == Failed(old(View()), c)
      ensures BothSay(View(), old(calls)[c].plugin, Error)
    {
      FailureKeeps(View(), c);
      var p := calls[c].plugin;
      workers := workers - {p};
      SetPluginStatus(p, Error);
      DropPlugin(p);
      enabling := enabling - {p};
      calls := calls - {c};
      assert View() == Failed(old(View()), c);
    }

    /** disablePlugin, whether or not the worker's onDisable succeeds */
    method DisablePlugin(p: string) returns (found: bool)
      requires Valid()
      modifies this, hookManager
      ensures Valid() && View() == TurnedOff(old(View()), p) && found == (p in old(plugins))
      ensures old(IsEnabled(View(), p)) ==> BothSay(View(), p, Disabled)
    {
      TurnOffKeeps(View(), p);
      found := p in plugins;
      if !found || plugins[p] != Enabled {
        return;
      }
      if p in sandboxHosts {
        workers := workers - {p};
        sandboxHosts := sandboxHosts - {p};
      }
      DropPlugin(p);
      SetPluginStatus(p, Disabled);
      assert View() == TurnedOff(old(View()), p);
    }

    /** unloadPlugin */
    method UnloadPlugin(p: string) returns (found: bool)
      requires Valid() && p !in enabling
      modifies this, hookManager
      ensures Valid() && View() == Unloaded(old(View()), p) && found == (p in old(plugins))
    {
      UnloadKeeps(View(), p);
      found := p in plugins;
      if !found {
        return;
      }
      if plugins[p] == Enabled {
        var _ := DisablePlugin(p);
      }
      plugins := plugins - {p};
    }
  }
}
