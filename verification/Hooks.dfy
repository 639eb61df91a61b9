/**
 * The hook manager (OpenWA/src/core/hooks/hook-manager.service.ts): registrations kept in priority order, and nested
 * execution with its re-entrancy guard. A payload is an opaque string here.
 */
module Hooks {
  import opened Wrappers

  datatype Event =
    | SessionCreated | SessionStarting | SessionReady | SessionQr | SessionDisconnected | SessionError | SessionDeleted
    | MessageReceived | MessageSending | MessageSent | MessageFailed | MessageAck
    | WebhookBefore | WebhookQueued | WebhookDelivered | WebhookAfter | WebhookError

  const KnownEvents: set<Event> := {
    SessionCreated, SessionStarting, SessionReady, SessionQr, SessionDisconnected, SessionError, SessionDeleted,
    MessageReceived, MessageSending, MessageSent, MessageFailed, MessageAck,
    WebhookBefore, WebhookQueued, WebhookDelivered, WebhookAfter, WebhookError
  }

  type Data = string

  /** What a handler returns: HookResult. */
  datatype HookResult = HookResult(goOn: bool, data: Option<Data>, error: Option<string>)

  /** What execute returns. */
  datatype Outcome = Outcome(goOn: bool, data: Data)

  /** A handler's next move, after the answers to the events it fired so far. */
  datatype Action = Fire(event: Event, data: Data) | Return(result: HookResult) | Throw

  /**
   * A handler is any code that fires events, looks at their outcomes and ends; events fired in parallel are fired one
   * after the other here, before any of their answers is looked at. `budget` bounds the events it fires for a payload;
   * one that would fire more counts as having thrown.
   */
  datatype Handler = Handler(budget: Data -> nat, act: (Data, seq<Outcome>) -> Action)

  /** Built from the plugin, the event and the clock; it can repeat. */
  datatype HookId = HookId(plugin: string, event: Event, time: int)

  /** `born` numbers the registrations in the order they are made. */
  datatype Registration = Registration(id: HookId, handler: Handler, priority: int, born: nat)

  type HookLists = map<Event, seq<Registration>>

  function HandlersOf(hooks: HookLists, event: Event): seq<Registration> {
    if event in hooks then hooks[event] else []
  }

  // ---- What an execution computes ----

  datatype Ending = Returned(result: HookResult) | Threw

  /** An outcome, and how deep executions nested on the way to it. */
  datatype Ran = Ran(outcome: Outcome, depth: nat)
  datatype Driven = Driven(ending: Ending, depth: nat)

  function Max(a: nat, b: nat): nat {
    if a < b then b else a
  }

  /** What remains of the chain's payload after one handler, and whether the chain goes on. */
  function Applied(ending: Ending, data: Data): Outcome {
    match ending
    case Threw => Outcome(true, data)
    case Returned(r) => Outcome(r.goOn, if r.error.None? && r.data.Some? then r.data.value else data)
  }

  function Room(inFlight: set<Event>): nat {
    |KnownEvents - inFlight|
  }

  lemma EnteringShrinks(inFlight: set<Event>, event: Event)
    requires event !in inFlight
    ensures Room(inFlight + {event}) < Room(inFlight)
  {
    var rest := KnownEvents - (inFlight + {event});
    assert event in KnownEvents;
    assert KnownEvents - inFlight == rest + {event};
  }

  /** execute: the events nest no deeper than there are events not in flight. */
  function Executed(hooks: HookLists, inFlight: set<Event>, event: Event, data: Data): (r: Ran)
    ensures r.depth <= Room(inFlight)
    ensures event in inFlight ==> r.outcome == Outcome(true, data)
    decreases Room(inFlight), 0
  {
    if event in inFlight then Ran(Outcome(true, data), 0)
    else
      EnteringShrinks(inFlight, event);
      var r := RunAll(hooks, inFlight + {event}, HandlersOf(hooks, event), data);
      Ran(r.outcome, r.depth + 1)
  }

  /** One handler, resumed with the answers it has so far. */
  function Drive(hooks: HookLists, inFlight: set<Event>, h: Handler, data: Data, answers: seq<Outcome>): (r: Driven)
    ensures r.depth <= Room(inFlight)
    decreases Room(inFlight), 1, h.budget(data) - |answers|
  {
    match h.act(data, answers)
    case Return(result) => Driven(Returned(result), 0)
    case Throw => Driven(Threw, 0)
    case Fire(event, payload) =>
      if |answers| >= h.budget(data) then Driven(Threw, 0)
      else
        var nested := Executed(hooks, inFlight, event, payload);
        var rest := Drive(hooks, inFlight, h, data, answers + [nested.outcome]);
        Driven(rest.ending, Max(nested.depth, rest.depth))
  }

  /** The handlers one after the other. */
  function RunAll(hooks: HookLists, inFlight: set<Event>, regs: seq<Registration>, data: Data): (r: Ran)
    ensures r.depth <= Room(inFlight)
    decreases Room(inFlight), 2, |regs|
  {
    if regs == [] then Ran(Outcome(true, data), 0)
    else
      var first := Drive(hooks, inFlight, regs[0].handler, data, []);
      var after := Applied(first.ending, data);
      if !after.goOn then Ran(after, first.depth)
      else
        var rest := RunAll(hooks, inFlight, regs[1..], after.data);
        Ran(rest.outcome, Max(first.depth, rest.depth))
  }

  /** What one handler does to the payload it gets. */
  function Effect(hooks: HookLists, inFlight: set<Event>, reg: Registration, data: Data): Outcome {
    Applied(Drive(hooks, inFlight, reg.handler, data, []).ending, data)
  }

  function Result(hooks: HookLists, inFlight: set<Event>, regs: seq<Registration>, data: Data): Outcome {
    RunAll(hooks, inFlight, regs, data).outcome
  }

  // ---- Laws ----

  lemma SeventeenEvents()
    ensures |KnownEvents| == 17
  {
  }

  /** Handlers that fire events nest at most seventeen deep, whatever they fire. */
  lemma NestingIsBounded(hooks: HookLists, event: Event, data: Data)
    ensures Executed(hooks, {}, event, data).depth <= 17
  {
    SeventeenEvents();
    assert KnownEvents - {} == KnownEvents;
  }

  /** A chain of handlers is its first part, followed by the rest unless the first part stopped. */
  lemma {:induction false} ChainSplits(hooks: HookLists, inFlight: set<Event>, a: seq<Registration>,
                                            b: seq<Registration>, data: Data)
    ensures Result(hooks, inFlight, a + b, data) ==
            var first := Result(hooks, inFlight, a, data);
            if first.goOn then Result(hooks, inFlight, b, first.data) else first
    decreases |a|
  {
    if a == [] {
      assert a + b == b;
    } else {
      assert (a + b)[1..] == a[1..] + b;
      ChainSplits(hooks, inFlight, a[1..], b, Effect(hooks, inFlight, a[0], data).data);
    }
  }

  /** The result is the left fold of the handlers' effects over the payload, ended by the first that stops. */
  function Folded(hooks: HookLists, inFlight: set<Event>, regs: seq<Registration>, data: Data): Outcome {
    if regs == [] then Outcome(true, data)
    else
      var before := Folded(hooks, inFlight, regs[..|regs| - 1], data);
      if before.goOn then Effect(hooks, inFlight, regs[|regs| - 1], before.data) else before
  }

  lemma {:induction false} ResultIsTheFold(hooks: HookLists, inFlight: set<Event>, regs: seq<Registration>, data: Data)
    ensures Result(hooks, inFlight, regs, data) == Folded(hooks, inFlight, regs, data)
    decreases |regs|
  {
    if regs != [] {
      var n := |regs| - 1;
      ResultIsTheFold(hooks, inFlight, regs[..n], data);
      assert regs == regs[..n] + [regs[n]];
      ChainSplits(hooks, inFlight, regs[..n], [regs[n]], data);
      var before := Folded(hooks, inFlight, regs[..n], data);
      OneHandler(hooks, inFlight, regs[n], before.data);
    }
  }

  lemma OneHandler(hooks: HookLists, inFlight: set<Event>, reg: Registration, data: Data)
    ensures Result(hooks, inFlight, [reg], data) == Effect(hooks, inFlight, reg, data)
  {
    var after := Effect(hooks, inFlight, reg, data);
    assert [reg][0] == reg && [reg][1..] == [];
    assert Result(hooks, inFlight, [], after.data) == Outcome(true, after.data);
  }

  // ---- What a handler does, from its own moves ----

  /** The answers a handler gets, one for each event it fires: the outcome of executing that event with its payload. */
  ghost predicate IsPlay(hooks: HookLists, inFlight: set<Event>, h: Handler, data: Data, answers: seq<Outcome>) {
    && |answers| <= h.budget(data)
    && forall i :: 0 <= i < |answers| ==>
         var move := h.act(data, answers[..i]);
         move.Fire? && answers[i] == Executed(hooks, inFlight, move.event, move.data).outcome
  }

  /** The handler fires no more. */
  predicate IsOver(h: Handler, data: Data, answers: seq<Outcome>) {
    !h.act(data, answers).Fire? || |answers| >= h.budget(data)
  }

  lemma {:induction false} PlayDrives(hooks: HookLists, inFlight: set<Event>, h: Handler, data: Data,
                                           answers: seq<Outcome>)
    requires IsPlay(hooks, inFlight, h, data, answers)
    ensures Drive(hooks, inFlight, h, data, []).ending == Drive(hooks, inFlight, h, data, answers).ending
  {
    if answers != [] {
      var n := |answers| - 1;
      assert forall i :: 0 <= i < n ==> answers[..n][..i] == answers[..i];
      PlayDrives(hooks, inFlight, h, data, answers[..n]);
      assert answers == answers[..n] + [answers[n]];
    }
  }

  /** Every handler has such a play, whatever it fires. */
  lemma PlayExists(hooks: HookLists, inFlight: set<Event>, h: Handler, data: Data, answers: seq<Outcome>)
    returns (play: seq<Outcome>)
    requires IsPlay(hooks, inFlight, h, data, answers)
    ensures IsPlay(hooks, inFlight, h, data, play) && IsOver(h, data, play)
    decreases h.budget(data) - |answers|
  {
    if IsOver(h, data, answers) {
      play := answers;
    } else {
      var move := h.act(data, answers);
      var more := answers + [Executed(hooks, inFlight, move.event, move.data).outcome];
      assert forall i :: 0 <= i < |answers| ==> more[..i] == answers[..i];
      assert more[..|answers|] == answers;
      play := PlayExists(hooks, inFlight, h, data, more);
    }
  }

  /** The result a handler ends its play with, if it does not throw or fire too much. */
  function Verdict(h: Handler, data: Data, play: seq<Outcome>): Option<HookResult> {
    var move := h.act(data, play);
    if move.Return? then Some(move.result) else None
  }

  lemma VerdictIsTheEnding(hooks: HookLists, inFlight: set<Event>, h: Handler, data: Data, play: seq<Outcome>)
    requires IsPlay(hooks, inFlight, h, data, play) && IsOver(h, data, play)
    ensures var verdict := Verdict(h, data, play);
            Drive(hooks, inFlight, h, data, []).ending == if verdict.Some? then Returned(verdict.value) else Threw
  {
    PlayDrives(hooks, inFlight, h, data, play);
  }

  /**
   * What one handler does to a chain that reaches it, from its play: a result that stops ends the chain whatever
   * follows, and otherwise the rest goes on with the result's payload, or with the one the handler got when it threw,
   * returned none or reported an error.
   */
  lemma HandlerInChain(hooks: HookLists, inFlight: set<Event>, a: seq<Registration>, reg: Registration,
                       b: seq<Registration>, data: Data, play: seq<Outcome>)
    requires Result(hooks, inFlight, a, data).goOn
    requires var got := Result(hooks, inFlight, a, data).data;
             IsPlay(hooks, inFlight, reg.handler, got, play) && IsOver(reg.handler, got, play)
    ensures var got := Result(hooks, inFlight, a, data).data;
            var whole := Result(hooks, inFlight, a + [reg] + b, data);
            match Verdict(reg.handler, got, play)
            case None => whole == Result(hooks, inFlight, b, got)
            case Some(r) =>
              && (r.goOn && r.error.None? && r.data.Some? ==> whole == Result(hooks, inFlight, b, r.data.value))
              && (r.goOn && (r.error.Some? || r.data.None?) ==> whole == Result(hooks, inFlight, b, got))
              && (!r.goOn && r.error.None? && r.data.Some? ==> whole == Outcome(false, r.data.value))
              && (!r.goOn && (r.error.Some? || r.data.None?) ==> whole == Outcome(false, got))
  {
    var got := Result(hooks, inFlight, a, data).data;
    VerdictIsTheEnding(hooks, inFlight, reg.handler, got, play);
    assert a + [reg] + b == a + ([reg] + b);
    ChainSplits(hooks, inFlight, a, [reg] + b, data);
    ChainSplits(hooks, inFlight, [reg], b, got);
    OneHandler(hooks, inFlight, reg, got);
  }

  /** The handler throws, or reports an error and lets the chain go on. */
  predicate Fails(verdict: Option<HookResult>) {
    verdict.None? || (verdict.value.error.Some? && verdict.value.goOn)
  }

  /** A handler that fails on the payload it gets might as well not be registered. */
  lemma FailureIsInvisible(hooks: HookLists, inFlight: set<Event>, a: seq<Registration>, failing: Registration,
                           b: seq<Registration>, data: Data, play: seq<Outcome>)
    requires var got := Result(hooks, inFlight, a, data).data;
             && IsPlay(hooks, inFlight, failing.handler, got, play) && IsOver(failing.handler, got, play)
             && Fails(Verdict(failing.handler, got, play))
    ensures Result(hooks, inFlight, a + [failing] + b, data) == Result(hooks, inFlight, a + b, data)
  {
    var first := Result(hooks, inFlight, a, data);
    ChainSplits(hooks, inFlight, a, b, data);
    if first.goOn {
      HandlerInChain(hooks, inFlight, a, failing, b, data, play);
    } else {
      assert a + [failing] + b == a + ([failing] + b);
      ChainSplits(hooks, inFlight, a, [failing] + b, data);
    }
  }

  /** The handlers of an event in flight never run again below it: what they are makes no difference. */
  lemma InFlightNeverRuns(h1: HookLists, h2: HookLists, inFlight: set<Event>, event: Event, data: Data)
    requires forall e :: e !in inFlight ==> HandlersOf(h1, e) == HandlersOf(h2, e)
    ensures Executed(h1, inFlight, event, data) == Executed(h2, inFlight, event, data)
    decreases Room(inFlight), 0
  {
    if event !in inFlight {
      EnteringShrinks(inFlight, event);
      RunAllAlike(h1, h2, inFlight + {event}, HandlersOf(h1, event), data);
    }
  }

  lemma {:induction false} DriveAlike(h1: HookLists, h2: HookLists, inFlight: set<Event>, h: Handler,
                                           data: Data, answers: seq<Outcome>)
    requires forall e :: e !in inFlight ==> HandlersOf(h1, e) == HandlersOf(h2, e)
    ensures Drive(h1, inFlight, h, data, answers) == Drive(h2, inFlight, h, data, answers)
    decreases Room(inFlight), 1, h.budget(data) - |answers|
  {
    var action := h.act(data, answers);
    if action.Fire? && |answers| < h.budget(data) {
      InFlightNeverRuns(h1, h2, inFlight, action.event, action.data);
      DriveAlike(h1, h2, inFlight, h, data, answers + [Executed(h1, inFlight, action.event, action.data).outcome]);
    }
  }

  lemma {:induction false} RunAllAlike(h1: HookLists, h2: HookLists, inFlight: set<Event>,
                                            regs: seq<Registration>, data: Data)
    requires forall e :: e !in inFlight ==> HandlersOf(h1, e) == HandlersOf(h2, e)
    ensures RunAll(h1, inFlight, regs, data) == RunAll(h2, inFlight, regs, data)
    decreases Room(inFlight), 2, |regs|
  {
    if regs != [] {
      DriveAlike(h1, h2, inFlight, regs[0].handler, data, []);
      RunAllAlike(h1, h2, inFlight, regs[1..], Effect(h1, inFlight, regs[0], data).data);
    }
  }

  // ---- Stable sorting ----

  /** Before any registration of a higher priority number, after all the others. */
  function Insert(sorted: seq<Registration>, x: Registration): seq<Registration> {
    if sorted == [] || sorted[|sorted| - 1].priority <= x.priority then sorted + [x]
    else Insert(sorted[..|sorted| - 1], x) + [sorted[|sorted| - 1]]
  }

  /** `sort((a, b) => a.priority - b.priority)`, which is stable. */
  function StableSort(s: seq<Registration>): seq<Registration> {
    if s == [] then [] else Insert(StableSort(s[..|s| - 1]), s[|s| - 1])
  }

  /** By priority, and among equals by the order of registration. */
  predicate Before(a: Registration, b: Registration) {
    a.priority < b.priority || (a.priority == b.priority && a.born < b.born)
  }

  ghost predicate Ordered(s: seq<Registration>) {
    forall i, j :: 0 <= i < j < |s| ==> Before(s[i], s[j])
  }

  lemma {:induction false} SortedStays(s: seq<Registration>)
    requires Ordered(s)
    ensures StableSort(s) == s
  {
    if s != [] {
      var n := |s| - 1;
      SortedStays(s[..n]);
      assert n > 0 ==> Before(s[n - 1], s[n]);
      assert s == s[..n] + [s[n]];
    }
  }

  lemma {:induction false} InsertHolds(s: seq<Registration>, x: Registration)
    ensures multiset(Insert(s, x)) == multiset(s) + multiset{x}
  {
    if s != [] && s[|s| - 1].priority > x.priority {
      var n := |s| - 1;
      InsertHolds(s[..n], x);
      assert s == s[..n] + [s[n]];
    }
  }

  lemma {:induction false} InsertKeepsOrder(s: seq<Registration>, x: Registration)
    requires Ordered(s) && forall i :: 0 <= i < |s| ==> s[i].born < x.born
    ensures Ordered(Insert(s, x))
  {
    if s != [] && s[|s| - 1].priority > x.priority {
      var n := |s| - 1;
      var inner := Insert(s[..n], x);
      InsertKeepsOrder(s[..n], x);
      InsertHolds(s[..n], x);
      forall i | 0 <= i < |inner| ensures Before(inner[i], s[n]) {
        assert inner[i] in multiset(s[..n]) + multiset{x};
        assert inner[i] != x ==> inner[i] in s[..n];
      }
    } else if s != [] {
      var n := |s| - 1;
      assert forall i :: 0 <= i < n ==> Before(s[i], s[n]);
    }
  }

  lemma PushAndSort(s: seq<Registration>, x: Registration)
    requires Ordered(s) && forall i :: 0 <= i < |s| ==> s[i].born < x.born
    ensures Ordered(StableSort(s + [x])) && multiset(StableSort(s + [x])) == multiset(s) + multiset{x}
  {
    assert (s + [x])[..|s|] == s;
    SortedStays(s);
    InsertKeepsOrder(s, x);
    InsertHolds(s, x);
  }

  lemma LastComesLast(s: seq<Registration>, x: Registration)
    requires Ordered(s) && x in multiset(s)
    ensures x == s[|s| - 1] || Before(x, s[|s| - 1])
  {
  }

  /** The order decides the list: two ordered lists of the same registrations are equal. */
  lemma {:induction false} OrderIsUnique(a: seq<Registration>, b: seq<Registration>)
    requires Ordered(a) && Ordered(b) && multiset(a) == multiset(b)
    ensures a == b
  {
    assert |multiset(a)| == |multiset(b)|;
    if a != [] {
      var n := |a| - 1;
      SplitLast(a);
      SplitLast(b);
      LastComesLast(b, a[n]);
      LastComesLast(a, b[n]);
      SameWithoutLast(a, b);
      OrderIsUnique(a[..n], b[..n]);
      assert a == a[..n] + [a[n]] && b == b[..n] + [b[n]];
    }
  }

  lemma SameWithoutLast(a: seq<Registration>, b: seq<Registration>)
    requires |a| == |b| > 0 && multiset(a) == multiset(b) && a[|a| - 1] == b[|b| - 1]
    ensures multiset(a[..|a| - 1]) == multiset(b[..|b| - 1])
  {
    SplitLast(a);
    SplitLast(b);
    assert multiset(a[..|a| - 1]) == multiset(a) - multiset{a[|a| - 1]};
  }

  lemma SplitLast(s: seq<Registration>)
    requires s != []
    ensures var n := |s| - 1; multiset(s) == multiset(s[..n]) + multiset{s[n]} && s[n] in multiset(s)
  {
    var n := |s| - 1;
    assert s == s[..n] + [s[n]];
  }

  // ---- The manager ----

  function Without(s: seq<Registration>, plugin: string): seq<Registration> {
    if s == [] then []
    else if s[|s| - 1].id.plugin == plugin then Without(s[..|s| - 1], plugin)
    else Without(s[..|s| - 1], plugin) + [s[|s| - 1]]
  }

  lemma {:induction false} WithoutIsFilter(s: seq<Registration>, plugin: string)
    ensures forall r: Registration ::
              multiset(Without(s, plugin))[r] == if r.id.plugin != plugin then multiset(s)[r] else 0
  {
    if s != [] {
      var n := |s| - 1;
      WithoutIsFilter(s[..n], plugin);
      assert s == s[..n] + [s[n]];
    }
  }

  lemma {:induction false} WithoutKeepsOrder(s: seq<Registration>, plugin: string)
    requires Ordered(s)
    ensures Ordered(Without(s, plugin)) && forall i :: 0 <= i < |Without(s, plugin)| ==> Without(s, plugin)[i] in s
    ensures forall i :: 0 <= i < |Without(s, plugin)| ==> Without(s, plugin)[i].id.plugin != plugin
  {
    if s != [] {
      var n := |s| - 1;
      WithoutKeepsOrder(s[..n], plugin);
      var rest := Without(s[..n], plugin);
      forall i | 0 <= i < |rest| ensures rest[i] in s && Before(rest[i], s[n]) {
        var k :| 0 <= k < n && s[..n][k] == rest[i];
        assert s[k] == rest[i];
      }
    }
  }

  lemma {:induction false} NothingToDrop(s: seq<Registration>, plugin: string)
    requires forall i :: 0 <= i < |s| ==> s[i].id.plugin != plugin
    ensures Without(s, plugin) == s
  {
    if s != [] {
      NothingToDrop(s[..|s| - 1], plugin);
      assert s == s[..|s| - 1] + [s[|s| - 1]];
    }
  }

  /** In order, all of the event, made by tracked plugins and numbered below `registered`. */
  ghost predicate Sound(e: Event, list: seq<Registration>, registered: nat, tracked: set<string>) {
    && Ordered(list)
    && forall i :: 0 <= i < |list| ==>
         list[i].id.event == e && list[i].born < registered && list[i].id.plugin in tracked
  }

  lemma SoundGrows(e: Event, list: seq<Registration>, registered: nat, tracked: set<string>, plugin: string)
    requires Sound(e, list, registered, tracked)
    ensures Sound(e, list, registered, tracked + {plugin}) && Sound(e, list, registered + 1, tracked + {plugin})
  {
  }

  /** The same registrations and one more. */
  ghost predicate OneMore(list: seq<Registration>, before: seq<Registration>, x: Registration) {
    multiset(list) == multiset(before) + multiset{x}
  }

  ghost predicate AllSound(hooks: HookLists, registered: nat, tracked: set<string>) {
    forall e :: e in hooks ==> Sound(e, hooks[e], registered, tracked)
  }

  /** An execution folds the event's handlers in priority order, ties by registration, however they are listed. */
  lemma ExecutesInPriorityOrder(hooks: HookLists, registered: nat, tracked: set<string>, inFlight: set<Event>,
                                event: Event, data: Data, regs: seq<Registration>)
    requires AllSound(hooks, registered, tracked) && event !in inFlight
    requires Ordered(regs) && multiset(regs) == multiset(HandlersOf(hooks, event))
    ensures Executed(hooks, inFlight, event, data).outcome == Folded(hooks, inFlight + {event}, regs, data)
  {
    OrderIsUnique(regs, HandlersOf(hooks, event));
    ResultIsTheFold(hooks, inFlight + {event}, regs, data);
  }

  lemma AllSoundGrows(hooks: HookLists, registered: nat, tracked: set<string>, plugin: string)
    requires AllSound(hooks, registered, tracked)
    ensures AllSound(hooks, registered, tracked + {plugin}) && AllSound(hooks, registered + 1, tracked + {plugin})
  {
    forall e | e in hooks
      ensures Sound(e, hooks[e], registered, tracked + {plugin})
      ensures Sound(e, hooks[e], registered + 1, tracked + {plugin})
    {
      SoundGrows(e, hooks[e], registered, tracked, plugin);
    }
  }

  lemma RegisteredIsSound(e: Event, list: seq<Registration>, x: Registration, tracked: set<string>)
    requires Sound(e, list, x.born, tracked) && x.id.event == e && x.id.plugin in tracked
    ensures Sound(e, StableSort(list + [x]), x.born + 1, tracked)
    ensures OneMore(StableSort(list + [x]), list, x)
  {
    PushAndSort(list, x);
    var sorted := StableSort(list + [x]);
    forall i | 0 <= i < |sorted| ensures sorted[i] == x || sorted[i] in list {
      assert sorted[i] in multiset(sorted);
      assert sorted[i] != x ==> sorted[i] in multiset(list);
    }
  }

  lemma RemainderIsSound(e: Event, list: seq<Registration>, registered: nat, tracked: set<string>, plugin: string)
    requires Sound(e, list, registered, tracked)
    ensures Sound(e, Without(list, plugin), registered, tracked - {plugin})
  {
    WithoutKeepsOrder(list, plugin);
  }

  function IdsOf(pluginHooks: map<string, set<HookId>>, plugin: string): set<HookId> {
    if plugin in pluginHooks then pluginHooks[plugin] else {}
  }

  class HookManager {
    var hooks: HookLists
    var pluginHooks: map<string, set<HookId>>
    var registered: nat

    ghost predicate Valid()
      reads this
    {
      AllSound(hooks, registered, pluginHooks.Keys)
    }

    constructor ()
      ensures Valid() && hooks == map[] && pluginHooks == map[]
    {
      hooks, pluginHooks, registered := map[], map[], 0;
    }

    /** register */
    method Register(plugin: string, event: Event, handler: Handler, priority: int, now: int) returns (id: HookId)
      requires Valid()
      modifies this
      ensures Valid() && id == HookId(plugin, event, now) && registered == old(registered) + 1
      ensures OneMore(HandlersOf(hooks, event), old(HandlersOf(hooks, event)),
                      Registration(id, handler, priority, old(registered)))
      ensures hooks == old(hooks)[event := HandlersOf(hooks, event)]
      ensures pluginHooks == old(pluginHooks)[plugin := IdsOf(old(pluginHooks), plugin) + {id}]
    {
      id := HookId(plugin, event, now);
      Add(event, Registration(id, handler, priority, registered));
      Track(plugin, id);
    }

    method Add(event: Event, registration: Registration)
      requires Valid() && registration.id.event == event && registration.born == registered
      modifies this`hooks, this`registered
      ensures registered == old(registered) + 1
      ensures AllSound(hooks, registered, pluginHooks.Keys + {registration.id.plugin})
      ensures hooks == old(hooks)[event := HandlersOf(hooks, event)]
      ensures OneMore(HandlersOf(hooks, event), old(HandlersOf(hooks, event)), registration)
    {
      var list := if event in hooks then hooks[event] else [];
      AllSoundGrows(hooks, registered, pluginHooks.Keys, registration.id.plugin);
      var sorted := Push(list, registration, pluginHooks.Keys + {registration.id.plugin});
      hooks := hooks[event := sorted];
      registered := registered + 1;
    }

    method Track(plugin: string, id: HookId)
      modifies this`pluginHooks
      ensures pluginHooks == old(pluginHooks)[plugin := IdsOf(old(pluginHooks), plugin) + {id}]
      ensures pluginHooks.Keys == old(pluginHooks).Keys + {plugin}
    {
      var ids := if plugin in pluginHooks then pluginHooks[plugin] else {};
      pluginHooks := pluginHooks[plugin := ids + {id}];
    }

    /** `push`, then `sort` by priority */
    static method Push(list: seq<Registration>, x: Registration, ghost tracked: set<string>)
      returns (sorted: seq<Registration>)
      requires Sound(x.id.event, list, x.born, tracked) && x.id.plugin in tracked
      ensures Sound(x.id.event, sorted, x.born + 1, tracked) && OneMore(sorted, list, x)
    {
      RegisteredIsSound(x.id.event, list, x, tracked);
      sorted := StableSort(list + [x]);
    }

    /** unregister: the first registration with this id goes. Only the lists of the id's own event can hold one. */
    method Unregister(id: HookId)
      requires Valid()
      modifies this
      ensures Valid() && registered == old(registered)
      ensures hooks == old(hooks) || hooks == old(hooks)[id.event := HandlersOf(hooks, id.event)]
      ensures var was := old(HandlersOf(hooks, id.event));
              if k: nat :| k < |was| && was[k].id == id && forall j :: 0 <= j < k ==> was[j].id != id then
                && HandlersOf(hooks, id.event) == was[..k] + was[k + 1..]
                && pluginHooks == old(pluginHooks)[id.plugin := IdsOf(old(pluginHooks), id.plugin) - {id}]
              else hooks == old(hooks) && pluginHooks == old(pluginHooks)
    {
      var list := if id.event in hooks then hooks[id.event] else [];
      var k := 0;
      while k < |list| && list[k].id != id
        invariant 0 <= k <= |list| && forall j :: 0 <= j < k ==> list[j].id != id
      {
        k := k + 1;
      }
      if k < |list| {
        hooks := hooks[id.event := list[..k] + list[k + 1..]];
        if id.plugin in pluginHooks {
          pluginHooks := pluginHooks[id.plugin := pluginHooks[id.plugin] - {id}];
        }
      }
    }

    /** unregisterPlugin: none of the plugin's hooks stay, and every other list of handlers is as it was. */
    method UnregisterPlugin(plugin: string)
      requires Valid()
      modifies this
      ensures Valid() && registered == old(registered)
      ensures hooks.Keys == old(hooks).Keys
      ensures forall e :: HandlersOf(hooks, e) == Without(old(HandlersOf(hooks, e)), plugin)
      ensures pluginHooks == old(pluginHooks) - {plugin}
    {
      forall e | e in hooks ensures Sound(e, Without(hooks[e], plugin), registered, pluginHooks.Keys - {plugin}) {
        RemainderIsSound(e, hooks[e], registered, pluginHooks.Keys, plugin);
      }
      if plugin !in pluginHooks {
        forall e ensures HandlersOf(hooks, e) == Without(HandlersOf(hooks, e), plugin) {
          NothingToDrop(HandlersOf(hooks, e), plugin);
        }
        return;
      }
      hooks := map e | e in hooks :: Without(hooks[e], plugin);
      pluginHooks := pluginHooks - {plugin};
    }

    /** execute, below the events in flight */
    method Execute(inFlight: set<Event>, event: Event, data: Data) returns (r: Outcome)
      ensures r == Executed(hooks, inFlight, event, data).outcome
      ensures event in inFlight ==> r == Outcome(true, data)
      decreases Room(inFlight), 0
    {
      if event in inFlight {
        return Outcome(true, data);
      }
      EnteringShrinks(inFlight, event);
      r := RunHandlers(inFlight + {event}, event, data);
    }

    /** runHandlers */
    method RunHandlers(inFlight: set<Event>, event: Event, data: Data) returns (r: Outcome)
      ensures r == Result(hooks, inFlight, HandlersOf(hooks, event), data)
      decreases Room(inFlight), 2
    {
      var regs := if event in hooks then hooks[event] else [];
      var current := data;
      for i := 0 to |regs|
        invariant Result(hooks, inFlight, regs, data) == Result(hooks, inFlight, regs[i..], current)
      {
        var ending := Invoke(inFlight, regs[i].handler, current);
        assert regs[i..][1..] == regs[i + 1..];
        if ending.Returned? {
          var result := ending.result;
          if result.error.None? && result.data.Some? {
            current := result.data.value;
          }
          if !result.goOn {
            return Outcome(false, current);
          }
        }
      }
      r := Outcome(true, current);
    }

    /** A handler at work: it fires events and waits for their outcomes until it ends. */
    method Invoke(inFlight: set<Event>, h: Handler, data: Data) returns (ending: Ending)
      ensures ending == Drive(hooks, inFlight, h, data, []).ending
      ensures exists play :: IsPlay(hooks, inFlight, h, data, play) && IsOver(h, data, play)
                && ending == if Verdict(h, data, play).Some? then Returned(Verdict(h, data, play).value) else Threw
      decreases Room(inFlight), 1
    {
      var answers: seq<Outcome> := [];
      while h.act(data, answers).Fire? && |answers| < h.budget(data)
        invariant Drive(hooks, inFlight, h, data, []).ending == Drive(hooks, inFlight, h, data, answers).ending
        invariant IsPlay(hooks, inFlight, h, data, answers)
        decreases h.budget(data) - |answers|
      {
        var action := h.act(data, answers);
        var answer := Execute(inFlight, action.event, action.data);
        ghost var before := answers;
        answers := answers + [answer];
        assert answers[..|before|] == before && forall i :: 0 <= i < |before| ==> answers[..i] == before[..i];
      }
      var last := h.act(data, answers);
      ending := if last.Return? then Returned(last.result) else Threw;
    }
  }
}
