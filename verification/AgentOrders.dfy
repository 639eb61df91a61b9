/**
 * Which orders a Turn can make: the one of its Draft, and the ones the model makes by itself
 * (ecom_agent/nodes/calling.py, ecom_agent/nodes/flow.py).
 */
module AgentOrders {
  import opened Wrappers
  import opened AgentNotes
  import opened Drafts
  import opened AgentGraph
  import opened AgentTurn
  import opened AgentRuns
  import opened AgentLaws
  import TurnGuard

  // ---- The model's own orders ----

  predicate OwnOrder(e: Event) {
    e.Direct? && CreateOrder in e.tools
  }

  /** Since `from` the model created an order by itself. */
  ghost predicate OwnSince(from: seq<Event>, log: seq<Event>) {
    exists i :: |from| <= i < |log| && OwnOrder(log[i])
  }

  /** The tool the Turn reaches flow_resolver with. */
  function ChosenTool(a: Answers): Option<Tool> {
    if !a.needsTool || a.wanted.None? then None else if a.buys then Some(CreateOrder) else a.choice
  }

  /** query_tool hands over to a human. */
  predicate Refuses(a: Answers) {
    && a.wanted.Some? && !a.buys
    && (a.proposesNewTool || a.choice.None? || a.choice.value == EscalateConversation)
  }

  /**
   * The answer of flow_resolver takes the Turn away from the order Draft of the active flow: a new flow for no tool, an
   * id that names no flow, or, for no tool, the id of a flow without a Draft.
   */
  predicate LeavesOrder(notes: Notes, a: Answers) {
    var tool := ChosenTool(a);
    match a.action
    case CreateFlow => tool.None?
    case ContinueFlow =>
      var at := if Given(a.flowId) then FlowAt(notes.flows, a.flowId.value) else None;
      if at.None? then tool.None? || tool.value == CreateOrder
      else tool.None? && notes.flows[at.value].draft.None?
    case _ => false
  }

  const BeforeCall: set<Node> := {DraftGate, CheckLlm, QueryTool, FlowResolver, CallingTool}

  /** When, by the answers of a Turn that loads `notes`, the model's own order runs. */
  predicate OwnOrderRuns(notes: Notes, a: Answers) {
    && CreateOrder in a.calls
    && (StateOf(notes, None) == Collecting ==> a.direction == Normal)
    && a.needsTool && !Refuses(a) && LeavesOrder(notes, a)
    && (a.raisesAt.Some? ==> a.raisesAt.value !in BeforeCall)
  }

  /** calling_tool makes no order of the model's own here. */
  predicate Blocked(st: Turn, a: Answers) {
    StateOf(st.notes, st.resolved) == Ready || CreateOrder !in a.calls || HasOpenOrder(st.notes)
  }

  /** Nothing was done to the notes yet. */
  predicate Untouched(first: Turn, st: Turn) {
    st.notes == first.notes && st.log == first.log && st.resolved == None && !st.escalation
  }

  ghost predicate Silent(first: Turn, st: Turn) {
    first.log <= st.log && !OwnSince(first.log, st.log)
  }

  ghost predicate OwnAt(start: Turn, first: Turn, a: Answers, n: Node, st: Turn) {
    var runs := OwnOrderRuns(first.notes, a);
    match n
    case Hydrate => st == start
    case DraftGate => st == first
    case CheckLlm =>
      && Untouched(first, st) && a.raisesAt != Some(DraftGate)
      && (StateOf(first.notes, None) == Collecting ==> a.direction == Normal)
    case QueryTool =>
      && Untouched(first, st) && st.tool == (if a.needsTool then a.wanted else None) && a.needsTool
      && a.raisesAt != Some(DraftGate) && a.raisesAt != Some(CheckLlm)
      && (StateOf(first.notes, None) == Collecting ==> a.direction == Normal)
    case FlowResolver =>
      && Untouched(first, st) && st.tool == ChosenTool(a) && a.needsTool && !Refuses(a)
      && a.raisesAt != Some(DraftGate) && a.raisesAt != Some(CheckLlm) && a.raisesAt != Some(QueryTool)
      && (StateOf(first.notes, None) == Collecting ==> a.direction == Normal)
    case CallingTool =>
      Silent(first, st) && (if runs then !Blocked(st, a) else Blocked(st, a) || a.raisesAt == Some(CallingTool))
    case Reply => first.log <= st.log && (OwnSince(first.log, st.log) <==> runs)
    case Persist => first.log <= st.log && (OwnSince(first.log, st.log) <==> runs)
    case End => first.log <= st.log && (OwnSince(first.log, st.log) <==> runs)
    case _ => Silent(first, st) && !runs
  }

  lemma StaysSilent(first: Turn, st: Turn, e: Event)
    requires Silent(first, st)
    ensures first.log <= st.log + [e] && (OwnSince(first.log, st.log + [e]) <==> OwnOrder(e))
  {
    assert (st.log + [e])[|st.log|] == e;
    assert forall i :: 0 <= i < |st.log| ==> (st.log + [e])[i] == st.log[i];
  }

  /** The Turn goes on with the order Draft, or with any Draft that is ready. */
  predicate KeepsToDraft(st: Turn) {
    HasOpenOrder(st.notes) || StateOf(st.notes, st.resolved) == Ready
  }

  /** calling_tool is reached without a Draft to keep to exactly when the answer leaves the order. */
  predicate LeavesAsAnswered(first: Turn, a: Answers, next: Turn) {
    Route(FlowResolver, next) == CallingTool && !KeepsToDraft(next) <==> LeavesOrder(first.notes, a)
  }

  /** flow_resolver, when an order Draft is in the active flow: what it leaves for calling_tool. */
  lemma ResolverOutcome(first: Turn, a: Answers, f: nat, st: Turn)
    requires Find(first.notes, None) == Some(f) && HasOrder(first.notes.flows[f])
    requires a.newFlowId != "" && FlowAt(first.notes.flows, a.newFlowId).None?
    requires Untouched(first, st) && st.tool == ChosenTool(a)
    ensures LeavesAsAnswered(first, a, FlowResolverNode(st, a))
  {
    if RunsOnTheSide(st) || (a.action != CreateFlow && a.action != ContinueFlow) {
      ElsewhereOutcome(first, a, f, st);
    } else if a.action == CreateFlow {
      CreatedLeaves(first, a, st);
    } else {
      ContinuedLeaves(first, a, st);
    }
  }

  lemma ElsewhereOutcome(first: Turn, a: Answers, f: nat, st: Turn)
    requires Find(first.notes, None) == Some(f) && HasOrder(first.notes.flows[f])
    requires Untouched(first, st) && st.tool == ChosenTool(a)
    requires RunsOnTheSide(st) || (a.action != CreateFlow && a.action != ContinueFlow)
    ensures LeavesAsAnswered(first, a, FlowResolverNode(st, a))
  {
    assert FlowResolverNode(st, a).notes == first.notes;
  }

  /** Once flow `at` is the active one by either id, its Draft decides. */
  lemma ActiveDecides(next: Turn, at: Option<nat>)
    requires ActiveFlow(next.notes, None) == ActiveFlow(next.notes, next.resolved) == at
    ensures at.None? ==> !KeepsToDraft(next) && StateOf(next.notes, next.resolved) == NoDraft
    ensures at.Some? ==>
              var draft := next.notes.flows[at.value].draft;
              && (KeepsToDraft(next) <==> draft.Some? && (draft.value.tool == CreateOrder || draft.value.ready))
              && (StateOf(next.notes, next.resolved) == Collecting <==> draft.Some? && !draft.value.ready)
  {
  }

  lemma CreatedLeaves(first: Turn, a: Answers, st: Turn)
    requires a.newFlowId != "" && FlowAt(first.notes.flows, a.newFlowId).None? && HasOpenOrder(first.notes)
    requires Untouched(first, st) && st.tool == ChosenTool(a) && !RunsOnTheSide(st) && a.action == CreateFlow
    ensures LeavesAsAnswered(first, a, FlowResolverNode(st, a))
  {
    CreatedOutcome(first, a, st);
    ActiveDecides(FlowResolverNode(st, a), Some(|first.notes.flows|));
  }

  lemma ContinuedLeaves(first: Turn, a: Answers, st: Turn)
    requires HasOpenOrder(first.notes)
    requires Untouched(first, st) && st.tool == ChosenTool(a) && !RunsOnTheSide(st) && a.action == ContinueFlow
    ensures LeavesAsAnswered(first, a, FlowResolverNode(st, a))
  {
    var at := if Given(a.flowId) then FlowAt(first.notes.flows, a.flowId.value) else None;
    ContinuedOutcome(first, a, st);
    ActiveDecides(FlowResolverNode(st, a), at);
  }

  lemma CreatedOutcome(first: Turn, a: Answers, st: Turn)
    requires a.newFlowId != "" && FlowAt(first.notes.flows, a.newFlowId).None?
    requires Untouched(first, st) && !RunsOnTheSide(st) && a.action == CreateFlow
    ensures var next := FlowResolverNode(st, a);
            var at := |first.notes.flows|;
            && ActiveFlow(next.notes, None) == ActiveFlow(next.notes, next.resolved) == Some(at)
            && |next.notes.flows| == at + 1 && next.notes.flows[at] == NewFlow(st.tool, a)
  {
    LastIsFound(first.notes.flows, NewFlow(st.tool, a));
  }

  lemma {:induction false} LastIsFound(flows: seq<Flow>, f: Flow)
    requires FlowAt(flows, f.id).None?
    ensures FlowAt(flows + [f], f.id) == Some(|flows|)
  {
    if flows != [] {
      assert (flows + [f])[1..] == flows[1..] + [f];
      LastIsFound(flows[1..], f);
    }
  }

  lemma ContinuedOutcome(first: Turn, a: Answers, st: Turn)
    requires Untouched(first, st) && !RunsOnTheSide(st) && a.action == ContinueFlow
    ensures var next := FlowResolverNode(st, a);
            var at := if Given(a.flowId) then FlowAt(first.notes.flows, a.flowId.value) else None;
            && ActiveFlow(next.notes, None) == ActiveFlow(next.notes, next.resolved) == at
            && (at.Some? ==>
                  && at.value < |next.notes.flows|
                  && next.notes.flows[at.value].draft == Started(first.notes.flows[at.value], st.tool).draft)
  {
    var at := if Given(a.flowId) then FlowAt(first.notes.flows, a.flowId.value) else None;
    if at.Some? {
      SameIds(first.notes.flows, FlowResolverNode(st, a).notes.flows, a.flowId.value);
    }
  }

  lemma ResolverStep(first: Turn, a: Answers, f: nat, st: Turn)
    requires Find(first.notes, None) == Some(f) && HasOrder(first.notes.flows[f])
    requires a.newFlowId != "" && FlowAt(first.notes.flows, a.newFlowId).None?
    requires OwnAt(first, first, a, FlowResolver, st) && a.raisesAt != Some(FlowResolver)
    ensures var next := FlowResolverNode(st, a); OwnAt(first, first, a, Route(FlowResolver, next), next)
  {
    var next := FlowResolverNode(st, a);
    ResolverOutcome(first, a, f, st);
    ResolverOnlyAdds(st, a);
    if next.log != st.log {
      StaysSilent(first, st, next.log[|st.log|]);
    }
  }

  lemma CallingStep(first: Turn, a: Answers, st: Turn)
    requires OwnAt(first, first, a, CallingTool, st) && !FailsOf(a)(CallingTool, st)
    ensures OwnAt(first, first, a, Reply, CallingToolNode(st, a))
  {
    var next := CallingToolNode(st, a);
    CallingLogs(st, a);
    if !Blocked(st, a) {
      StaysSilent(first, st, Direct(a.calls));
      OwnStays(first, st.Log(Direct(a.calls)), next);
    } else {
      OwnStays(first, st, next);
    }
  }

  function ShownEvents(outcome: Outcome): seq<Event> {
    if outcome.called.Some? && ProductTool(outcome.called.value) && outcome.products != []
    then [Shown(outcome.products)] else []
  }

  lemma DigestLog(st: Turn, at: Option<nat>, outcome: Outcome, picked: nat)
    requires at.Some? ==> at.value < |st.notes.flows|
    ensures Digest(st, at, outcome, picked).log == st.log + ShownEvents(outcome)
  {
  }

  /** What calling_tool logs. */
  function CallEvents(st: Turn, a: Answers): seq<Event> {
    var at := Find(st.notes, st.resolved);
    if at.Some? && st.notes.flows[at.value].draft.value.ready then
      var draft := st.notes.flows[at.value].draft.value;
      if draft.tool.UnknownTool? then []
      else
        [Called(at.value, draft.tool, CallArgs(st.notes, draft), draft.error, st.notes.address,
                !(draft.tool == CreateOrder && a.callError != ""))]
        + ShownEvents(Outcome(Some(draft.tool), a.returned, a.callError))
    else (if a.calls == [] || SkipsOrder(st, a) then [] else [Direct(a.calls)]) + ShownEvents(OwnCalls(st, a))
  }

  lemma CallingLog(st: Turn, a: Answers)
    ensures CallingToolNode(st, a).log == st.log + CallEvents(st, a)
  {
    var at := Find(st.notes, st.resolved);
    var flow := ActiveFlow(st.notes, st.resolved);
    if at.Some? && st.notes.flows[at.value].draft.value.ready {
      var draft := st.notes.flows[at.value].draft.value;
      if !draft.tool.UnknownTool? {
        DigestLog(SendDraft(st, a, at.value), flow, Outcome(Some(draft.tool), a.returned, a.callError), a.picked);
      }
    } else {
      var logged := if a.calls == [] || SkipsOrder(st, a) then st else st.Log(Direct(a.calls));
      DigestLog(logged, flow, OwnCalls(st, a), a.picked);
    }
  }

  /** The log of calling_tool: the order of the model exactly when nothing blocks it, and no other of its own. */
  lemma CallingLogs(st: Turn, a: Answers)
    ensures var log := CallingToolNode(st, a).log;
            && st.log <= log
            && (!Blocked(st, a) ==> st.log + [Direct(a.calls)] <= log)
            && forall i :: |st.log| <= i < |log| && OwnOrder(log[i]) ==> i == |st.log| && !Blocked(st, a)
  {
    CallingLog(st, a);
    OwnEvents(st, a);
    var events := CallEvents(st, a);
    assert forall i :: |st.log| <= i < |st.log + events| ==> (st.log + events)[i] == events[i - |st.log|];
  }

  lemma OwnEvents(st: Turn, a: Answers)
    ensures !Blocked(st, a) ==> CallEvents(st, a) != [] && CallEvents(st, a)[0] == Direct(a.calls)
    ensures forall i :: 0 <= i < |CallEvents(st, a)| && OwnOrder(CallEvents(st, a)[i]) ==> i == 0 && !Blocked(st, a)
  {
  }

  lemma OwnStays(first: Turn, st: Turn, next: Turn)
    requires first.log <= st.log <= next.log && forall i :: |st.log| <= i < |next.log| ==> !OwnOrder(next.log[i])
    ensures OwnSince(first.log, next.log) <==> OwnSince(first.log, st.log)
  {
    assert forall i :: 0 <= i < |st.log| ==> next.log[i] == st.log[i];
  }

  lemma OwnStep(key: NameKey, c: Conversation, a: Answers, f: nat, n: Node, st: Turn)
    requires Find(First(c, a).notes, None) == Some(f) && HasOrder(First(c, a).notes.flows[f])
    requires a.newFlowId != "" && FlowAt(First(c, a).notes.flows, a.newFlowId).None?
    requires n != End && OwnAt(Begin(Revived(c, a), a), First(c, a), a, n, st) && !FailsOf(a)(n, st)
    ensures var next := Work(key, c.store, n, st, a);
            OwnAt(Begin(Revived(c, a), a), First(c, a), a, Route(n, next), next)
  {
    var start, first := Begin(Revived(c, a), a), First(c, a);
    match n
    case Hydrate =>
    case DraftGate => GateStep(first, a);
    case FlowResolver => ResolverStep(first, a, f, st);
    case CallingTool => CallingStep(first, a, st);
    case ExtractToolArgs => ExtractStep(key, first, a, st);
    case _ => OtherStep(key, c.store, start, first, a, n, st);
  }

  lemma OtherStep(key: NameKey, store: Option<Noted>, start: Turn, first: Turn, a: Answers, n: Node, st: Turn)
    requires n in {CheckLlm, QueryTool, AskReply, Escalate, Reply, Persist} && OwnAt(start, first, a, n, st)
    requires a.raisesAt != Some(n)
    ensures var next := Work(key, store, n, st, a); OwnAt(start, first, a, Route(n, next), next)
  {
  }

  lemma GateStep(first: Turn, a: Answers)
    requires first.resolved == None && !first.escalation && a.raisesAt != Some(DraftGate)
    ensures var next := DraftGateNode(first, a); OwnAt(first, first, a, Route(DraftGate, next), next)
  {
    var next := DraftGateNode(first, a);
    if next.direction == Cancel && StateOf(first.notes, None) == Collecting && a.direction == Cancel {
      StaysSilent(first, first, Cancelled(Find(first.notes, None).value));
    }
  }

  /** extract_tool_args leads to calling_tool only with a ready Draft. */
  lemma ExtractStep(key: NameKey, first: Turn, a: Answers, st: Turn)
    requires Silent(first, st) && !OwnOrderRuns(first.notes, a)
    ensures var next := ExtractNode(key, st, a); OwnAt(first, first, a, Route(ExtractToolArgs, next), next)
  {
    var at := ToCollect(st.notes, st.resolved);
    if at.Some? {
      var e := HeededEvent(key, st.notes, at.value, a.heard);
      StaysSilent(first, st, e);
      StaysSilent(first, st.Log(e), GaveUp(at.value));
    }
  }

  /**
   * Every Turn that loads an order Draft in the active flow, whether or not it raises later: the model creates an order
   * by itself exactly when its answers say so, leave no other node to stop at, and flow_resolver's answer leaves the
   * Draft: a new flow for no tool, an id that names no flow, or, for no tool, a flow without a Draft.
   */
  lemma OwnOrderExactlyWhen(key: NameKey, c: Conversation, a: Answers, f: nat)
    requires Find(Hydrated(c, a), None) == Some(f) && HasOrder(Hydrated(c, a).flows[f])
    requires a.newFlowId != "" && FlowAt(Hydrated(c, a).flows, a.newFlowId).None?
    requires a.raisesAt != Some(Hydrate)
    ensures OwnSince(First(c, a).log, TakeTurn(key, c, a).st.log) <==> OwnOrderRuns(Hydrated(c, a), a)
  {
    EdgesFall();
    var start := Begin(Revived(c, a), a);
    var work, fails := WorkOf(key, c.store, a), FailsOf(a);
    var inv := (n: Node, st: Turn) => OwnAt(start, First(c, a), a, n, st);
    forall n: Node, st: Turn | n != End && inv(n, st) && !fails(n, st)
      ensures inv(Route(n, work(n, st)), work(n, st))
    {
      OwnStep(key, c, a, f, n, st);
    }
    Holds(work, Route, fails, inv, Hydrate, start);
    var done := TakeTurn(key, c, a);
    if done.raised {
      var n :| n != End && inv(n, done.st) && fails(n, done.st);
      StoppedOwn(start, First(c, a), a, n, done.st);
    } else {
      assert inv(End, done.st);
    }
  }

  lemma StoppedOwn(start: Turn, first: Turn, a: Answers, n: Node, st: Turn)
    requires n != End && n != Hydrate && OwnAt(start, first, a, n, st) && a.raisesAt == Some(n)
    ensures OwnSince(first.log, st.log) <==> OwnOrderRuns(first.notes, a)
  {
  }

  // ---- Runs that get there ----

  /** One message that opens an order in a new flow "f" and tells nothing else. */
  const OrderFirst := Answers(
    "", false, false, [], Normal, "", Heard(map[], map[]), "", true, Some(CreateOrder), "",
    false, Some(CreateOrder), false, CreateFlow, None, "f", [], [], "", 0, "", [], "", 0, None)

  /** A Turn whose answers lead past the Draft to flow_resolver with this tool, and that nothing interrupts. */
  predicate AsksFor(a: Answers, tool: Tool) {
    && a.direction == Normal && a.needsTool && a.wanted.Some? && !a.buys && a.choice == Some(tool)
    && !a.proposesNewTool && tool != EscalateConversation && a.raisesAt == None
  }

  /** The run from one node is the run from the next. */
  lemma StepTo(key: NameKey, store: Option<Noted>, a: Answers, n: Node, st: Turn, m: Node, next: Turn)
    requires Falls(Route) && n != End && a.raisesAt != Some(n)
    requires next == Work(key, store, n, st, a) && m == Route(n, next)
    ensures var work, fails := WorkOf(key, store, a), FailsOf(a);
            && Go(work, Route, fails, n, st).st == Go(work, Route, fails, m, next).st
            && Go(work, Route, fails, n, st).raised == Go(work, Route, fails, m, next).raised
  {
    Onward(WorkOf(key, store, a), Route, FailsOf(a), n, st);
  }

  lemma ReachesResolver(key: NameKey, c: Conversation, a: Answers, tool: Tool) returns (st: Turn)
    requires AsksFor(a, tool)
    ensures Falls(Route) && Untouched(First(c, a), st) && st.tool == Some(tool)
    ensures var rest := Go(WorkOf(key, c.store, a), Route, FailsOf(a), FlowResolver, st);
            TakeTurn(key, c, a).st == rest.st && TakeTurn(key, c, a).raised == rest.raised
  {
    EdgesFall();
    var work, fails := WorkOf(key, c.store, a), FailsOf(a);
    var s0 := Begin(Revived(c, a), a);
    var s1 := work(Hydrate, s0);
    var s2 := work(DraftGate, s1);
    var s3 := work(CheckLlm, s2);
    st := work(QueryTool, s3);
    Onward(work, Route, fails, Hydrate, s0);
    Onward(work, Route, fails, DraftGate, s1);
    Onward(work, Route, fails, CheckLlm, s2);
    Onward(work, Route, fails, QueryTool, s3);
  }

  predicate NeedsMore(tool: Tool) {
    tool == CreateOrder || tool == SearchProducts
  }

  /** Collecting nothing into an empty Draft leaves it collecting. */
  lemma NothingHeard(key: NameKey, notes: Notes, tool: Tool)
    requires NeedsMore(tool)
    ensures var draft := TakeIn(key, notes, NewDraft(tool), Heard(map[], map[])).draft;
            draft.tool == tool && !draft.ready && draft.attempts < MAX_STALLED_TURNS
  {
    var heard := Heard(map[], map[]);
    var args := TakenArgs(key, notes, NewDraft(tool), heard);
    assert Coerce(heard.args, tool) == map[];
    if tool == CreateOrder {
      assert IsMissing(args, Quantity);
      QuantityMissing(args);
    } else {
      assert IsMissing(args, PRODUCT);
      assert Required(SearchProducts) == [PRODUCT];
      assert MissingFields(args, SearchProducts) != [];
    }
  }

  lemma QuantityMissing(args: Args)
    requires IsMissing(args, Quantity)
    ensures MissingFields(args, CreateOrder) != []
  {
    var r := Required(CreateOrder);
    assert r[1..][0] == Quantity;
    assert Missing(args, r[1..]) != [];
  }

  /** flow_resolver made `mid` of `st` and left a new empty Draft of this tool in the active flow. */
  ghost predicate OpensDraft(st: Turn, mid: Turn, a: Answers, at: nat, tool: Tool) {
    && NeedsMore(tool) && a.heard == Heard(map[], map[]) && !mid.escalation
    && (mid.action == Some(CreateFlow) || mid.action == Some(ContinueFlow))
    && Find(mid.notes, mid.resolved) == Some(at) && mid.notes.flows[at].draft == Some(NewDraft(tool))
    && mid.log == st.log + [Opened(at, tool)]
  }

  predicate AsksAfter(mid: Turn, next: Turn) {
    FlowRoute(mid) == ExtractToolArgs && AfterExtract(next) == AskReply
  }

  lemma OpenedIsCollected(st: Turn, mid: Turn, a: Answers, at: nat, tool: Tool)
    requires OpensDraft(st, mid, a, at, tool)
    ensures FlowRoute(mid) == ExtractToolArgs
  {
  }

  /** From flow_resolver over extract_tool_args to ask_reply. */
  lemma AsksThroughExtract(key: NameKey, store: Option<Noted>, st: Turn, a: Answers, mid: Turn, next: Turn)
    requires Falls(Route) && a.raisesAt == None
    requires mid == FlowResolverNode(st, a) && FlowRoute(mid) == ExtractToolArgs
    requires next == ExtractNode(key, mid, a) && AfterExtract(next) == AskReply
    ensures var done := Go(WorkOf(key, store, a), Route, FailsOf(a), FlowResolver, st);
            !done.raised && done.st.notes == next.notes && done.st.log == next.log
  {
    StepTo(key, store, a, FlowResolver, st, ExtractToolArgs, mid);
    EndsThroughAsk(key, store, a, ExtractToolArgs, mid, next);
  }

  /** A whole Turn of that kind ends with what extract_tool_args left. */
  lemma TurnThroughExtract(key: NameKey, c: Conversation, a: Answers, tool: Tool) returns (st: Turn)
    requires AsksFor(a, tool)
    ensures Untouched(First(c, a), st) && st.tool == Some(tool)
    ensures var mid := FlowResolverNode(st, a);
            var next := ExtractNode(key, mid, a);
            AsksAfter(mid, next) ==>
              && !TakeTurn(key, c, a).raised
              && TakeTurn(key, c, a).st.notes == next.notes && TakeTurn(key, c, a).st.log == next.log
  {
    st := ReachesResolver(key, c, a, tool);
    var mid := FlowResolverNode(st, a);
    if AsksAfter(mid, ExtractNode(key, mid, a)) {
      AsksThroughExtract(key, c.store, st, a, mid, ExtractNode(key, mid, a));
    }
  }

  /** A run whose next node is ask_reply or reply stops with the notes and the log it has then. */
  lemma EndsThroughAsk(key: NameKey, store: Option<Noted>, a: Answers, n: Node, st: Turn, next: Turn)
    requires Falls(Route) && n != End && a.raisesAt == None && next == Work(key, store, n, st, a)
    requires Route(n, next) == AskReply || Route(n, next) == Reply
    ensures var done := Go(WorkOf(key, store, a), Route, FailsOf(a), n, st);
            !done.raised && done.st.notes == next.notes && done.st.log == next.log
  {
    StepTo(key, store, a, n, st, Route(n, next), next);
    if Route(n, next) == AskReply {
      AskEnds(key, store, next, a);
    } else {
      ReplyEnds(key, store, next, a);
    }
  }

  /** From ask_reply on the notes and the log stay as they are. */
  lemma AskEnds(key: NameKey, store: Option<Noted>, st: Turn, a: Answers)
    requires Falls(Route) && a.raisesAt == None
    ensures var done := Go(WorkOf(key, store, a), Route, FailsOf(a), AskReply, st);
            !done.raised && done.st.notes == st.notes && done.st.log == st.log
  {
    var next := AskReplyNode(st, a);
    StepTo(key, store, a, AskReply, st, Reply, next);
    ReplyEnds(key, store, next, a);
  }

  lemma ReplyEnds(key: NameKey, store: Option<Noted>, st: Turn, a: Answers)
    requires Falls(Route) && a.raisesAt == None
    ensures var done := Go(WorkOf(key, store, a), Route, FailsOf(a), Reply, st);
            !done.raised && done.st.notes == st.notes && done.st.log == st.log
  {
    var next := ReplyNode(st, a);
    StepTo(key, store, a, Reply, st, Persist, next);
    StepTo(key, store, a, Persist, next, End, next);
  }

  /** Collecting nothing then leaves the Draft collecting, and the Turn asks on. */
  lemma CollectsOn(key: NameKey, st: Turn, a: Answers, at: nat, tool: Tool)
    requires Find(st.notes, st.resolved) == Some(at) && st.notes.flows[at].draft == Some(NewDraft(tool))
    requires NeedsMore(tool) && a.heard == Heard(map[], map[]) && !st.escalation
    ensures var next := ExtractNode(key, st, a);
            && next.notes == Collected(key, st.notes, at, a.heard, a.now)
            && next.log == st.log + [HeededEvent(key, st.notes, at, a.heard)]
            && AfterExtract(next) == AskReply
  {
    NothingHeard(key, st.notes, tool);
    var intake := TakeIn(key, st.notes, NewDraft(tool), a.heard);
    FindAfterPut(st.notes, st.resolved, at, Some(intake.draft), a.now, intake.address);
  }

  /** A Turn that opens an order in a new flow: the flow is the active one and its Draft collects. */
  lemma OpenOrderTurn(key: NameKey, c: Conversation, a: Answers)
    requires AsksFor(a, CreateOrder) && a.heard == Heard(map[], map[]) && a.action == CreateFlow
    requires a.newFlowId != "" && FlowAt(Hydrated(c, a).flows, a.newFlowId).None?
    ensures var done := TakeTurn(key, c, a);
            var h := Hydrated(c, a);
            var n := |h.flows|;
            && !done.raised && |done.st.notes.flows| == n + 1 && done.st.notes.flows[..n] == h.flows
            && done.st.notes.flows[n].id == a.newFlowId && HasOrder(done.st.notes.flows[n])
            && !done.st.notes.flows[n].draft.value.ready && done.st.notes.active == Some(a.newFlowId)
            && First(c, a).log <= done.st.log
            && forall i :: |First(c, a).log| <= i < |done.st.log| ==> done.st.log[i].Opened? || done.st.log[i].Heeded?
  {
    var st := TurnThroughExtract(key, c, a, CreateOrder);
    OrderOpened(key, First(c, a), st, a);
  }

  lemma OrderOpened(key: NameKey, first: Turn, st: Turn, a: Answers)
    requires AsksFor(a, CreateOrder) && a.heard == Heard(map[], map[]) && a.action == CreateFlow
    requires a.newFlowId != "" && FlowAt(first.notes.flows, a.newFlowId).None?
    requires Untouched(first, st) && st.tool == Some(CreateOrder)
    ensures var mid := FlowResolverNode(st, a);
            var next := ExtractNode(key, mid, a);
            var n := |first.notes.flows|;
            && AsksAfter(mid, next) && |next.notes.flows| == n + 1 && next.notes.flows[..n] == first.notes.flows
            && next.notes.flows[n].id == a.newFlowId && HasOrder(next.notes.flows[n])
            && !next.notes.flows[n].draft.value.ready && next.notes.active == Some(a.newFlowId)
            && first.log <= next.log
            && forall i :: |first.log| <= i < |next.log| ==> next.log[i].Opened? || next.log[i].Heeded?
  {
    var n := |first.notes.flows|;
    CreatesDraft(first, st, a);
    var mid := FlowResolverNode(st, a);
    OpenedIsCollected(st, mid, a, n, CreateOrder);
    CollectsOn(key, mid, a, n, CreateOrder);
    CollectedNothing(key, mid.notes, n, CreateOrder, a.now);
    JustOpened(first.log, Opened(n, CreateOrder), HeededEvent(key, mid.notes, n, a.heard));
  }

  lemma CreatesDraft(first: Turn, st: Turn, a: Answers)
    requires AsksFor(a, CreateOrder) && a.heard == Heard(map[], map[]) && a.action == CreateFlow
    requires a.newFlowId != "" && FlowAt(first.notes.flows, a.newFlowId).None?
    requires Untouched(first, st) && st.tool == Some(CreateOrder)
    ensures var n, mid := |first.notes.flows|, FlowResolverNode(st, a);
            && OpensDraft(st, mid, a, n, CreateOrder)
            && |mid.notes.flows| == n + 1 && mid.notes.flows[..n] == first.notes.flows
            && mid.notes.flows[n].id == a.newFlowId && mid.notes.active == Some(a.newFlowId)
  {
    CreatedOutcome(first, a, st);
  }

  lemma CollectedNothing(key: NameKey, notes: Notes, at: nat, tool: Tool, now: int)
    requires at < |notes.flows| && notes.flows[at].draft == Some(NewDraft(tool)) && NeedsMore(tool)
    ensures var after := Collected(key, notes, at, Heard(map[], map[]), now);
            && |after.flows| == |notes.flows| && after.active == notes.active && after.flows[..at] == notes.flows[..at]
            && after.flows[at].id == notes.flows[at].id && after.flows[at].draft.Some?
            && after.flows[at].draft.value.tool == tool && !after.flows[at].draft.value.ready
  {
    NothingHeard(key, notes, tool);
  }

  lemma JustOpened(log: seq<Event>, d: Event, e: Event)
    requires d.Opened? && e.Heeded?
    ensures log <= log + [d] + [e]
    ensures forall i :: |log| <= i < |log + [d] + [e]| ==> (log + [d] + [e])[i].Opened? || (log + [d] + [e])[i].Heeded?
  {
  }

  /** The customer drops the Draft of the active flow. */
  lemma CancelTurn(key: NameKey, c: Conversation, a: Answers)
    requires a.direction == Cancel && a.raisesAt == None && StateOf(Hydrated(c, a), None) == Collecting
    ensures var done := TakeTurn(key, c, a);
            && !done.raised && done.st.notes == Closed(Hydrated(c, a), None, a.now)
            && done.st.log == First(c, a).log + [Cancelled(Find(Hydrated(c, a), None).value)]
  {
    EdgesFall();
    var work, fails := WorkOf(key, c.store, a), FailsOf(a);
    var s0 := Begin(Revived(c, a), a);
    var s1 := work(Hydrate, s0);
    var s2 := work(DraftGate, s1);
    Onward(work, Route, fails, Hydrate, s0);
    Onward(work, Route, fails, DraftGate, s1);
    ReplyEnds(key, c.store, s2, a);
  }

  /** A side tool is put into a flow that is not the active one. */
  lemma SideToolTurn(key: NameKey, c: Conversation, a: Answers, f: nat)
    requires AsksFor(a, SearchProducts) && a.heard == Heard(map[], map[]) && a.action == ContinueFlow && Given(a.flowId)
    requires !HasOpenOrder(Hydrated(c, a)) && FlowAt(Hydrated(c, a).flows, a.flowId.value) == Some(f)
    requires HasOrder(Hydrated(c, a).flows[f])
    ensures var done := TakeTurn(key, c, a);
            && !done.raised && f < |done.st.notes.flows| && !HasOrder(done.st.notes.flows[f])
            && First(c, a).log <= done.st.log
            && forall i :: |First(c, a).log| <= i < |done.st.log| ==> done.st.log[i].Opened? || done.st.log[i].Heeded?
  {
    var st := TurnThroughExtract(key, c, a, SearchProducts);
    SideToolOpened(key, First(c, a), st, a, f);
  }

  lemma SideToolOpened(key: NameKey, first: Turn, st: Turn, a: Answers, f: nat)
    requires AsksFor(a, SearchProducts) && a.heard == Heard(map[], map[]) && a.action == ContinueFlow && Given(a.flowId)
    requires !HasOpenOrder(first.notes) && FlowAt(first.notes.flows, a.flowId.value) == Some(f)
    requires HasOrder(first.notes.flows[f]) && Untouched(first, st) && st.tool == Some(SearchProducts)
    ensures var mid := FlowResolverNode(st, a);
            var next := ExtractNode(key, mid, a);
            && AsksAfter(mid, next) && f < |next.notes.flows| && !HasOrder(next.notes.flows[f])
            && first.log <= next.log
            && forall i :: |first.log| <= i < |next.log| ==> next.log[i].Opened? || next.log[i].Heeded?
  {
    ReplacesDraft(first, st, a, f);
    var mid := FlowResolverNode(st, a);
    OpenedIsCollected(st, mid, a, f, SearchProducts);
    CollectsOn(key, mid, a, f, SearchProducts);
    CollectedNothing(key, mid.notes, f, SearchProducts, a.now);
    JustOpened(first.log, Opened(f, SearchProducts), HeededEvent(key, mid.notes, f, a.heard));
  }

  lemma ReplacesDraft(first: Turn, st: Turn, a: Answers, f: nat)
    requires AsksFor(a, SearchProducts) && a.heard == Heard(map[], map[]) && a.action == ContinueFlow && Given(a.flowId)
    requires !HasOpenOrder(first.notes) && FlowAt(first.notes.flows, a.flowId.value) == Some(f)
    requires HasOrder(first.notes.flows[f]) && Untouched(first, st) && st.tool == Some(SearchProducts)
    ensures OpensDraft(st, FlowResolverNode(st, a), a, f, SearchProducts)
  {
    ContinuedOutcome(first, a, st);
  }

  const SecondOrder := OrderFirst.(newFlowId := "g")
  const DropIt := OrderFirst.(direction := Cancel)
  const SearchInFirst := OrderFirst.(wanted := Some(SearchProducts), choice := Some(SearchProducts),
                                     action := ContinueFlow, flowId := Some("f"))
  const OrderNowhere := OrderFirst.(action := ContinueFlow, newFlowId := "g", calls := [CreateOrder])

  /** Stored notes whose flow 0 is "f" with an order Draft that nothing ended. */
  ghost predicate FirstIsOpen(c: Conversation) {
    && c.store.Some?
    && |c.store.value.notes.flows| > 0 && c.store.value.notes.flows[0].id == "f"
    && HasOrder(c.store.value.notes.flows[0]) && !c.store.value.notes.flows[0].draft.value.ready
    && forall i :: 0 <= i < |c.store.value.log| ==> !Ends(c.store.value.log[i], 0)
  }

  lemma AfterFirst(key: NameKey)
    ensures var c := AfterTurn(key, NewConversation, OrderFirst);
            FirstIsOpen(c) && |c.store.value.notes.flows| == 1 && c.store.value.notes.active == Some("f")
  {
    OpenOrderTurn(key, NewConversation, OrderFirst);
  }

  lemma AfterSecond(key: NameKey, c: Conversation)
    requires FirstIsOpen(c) && |c.store.value.notes.flows| == 1
    ensures var d := AfterTurn(key, c, SecondOrder);
            && FirstIsOpen(d) && |d.store.value.notes.flows| == 2 && d.store.value.notes.flows[1].id == "g"
            && StateOf(d.store.value.notes, None) == Collecting && Find(d.store.value.notes, None) == Some(1)
  {
    assert Hydrated(c, SecondOrder) == c.store.value.notes;
    OpenOrderTurn(key, c, SecondOrder);
    var d := AfterTurn(key, c, SecondOrder);
    var flows := d.store.value.notes.flows;
    assert flows[0] == c.store.value.notes.flows[0];
    assert FlowAt(flows, "g") == Some(1) by {
      assert flows[0].id != "g" && flows[1..][0].id == "g";
    }
  }

  lemma AfterDrop(key: NameKey, c: Conversation)
    requires FirstIsOpen(c)
    requires StateOf(c.store.value.notes, None) == Collecting && Find(c.store.value.notes, None) == Some(1)
    ensures var d := AfterTurn(key, c, DropIt); FirstIsOpen(d) && !HasOpenOrder(d.store.value.notes)
  {
    assert Hydrated(c, DropIt) == c.store.value.notes;
    CancelTurn(key, c, DropIt);
    ClosedIsGone(c.store.value.notes, None, DropIt.now);
  }

  /**
   * A run that gets there from nothing: two orders are opened, the second is dropped, and a product search then takes
   * the place of the first order's Draft, which nothing had ended.
   */
  lemma SideToolReplacesInARun(key: NameKey)
    ensures var c := AfterTurns(key, NewConversation, [OrderFirst, SecondOrder, DropIt]);
            var d := AfterTurn(key, c, SearchInFirst);
            && FirstIsOpen(c) && !HasOpenOrder(c.store.value.notes)
            && d.store.Some? && |d.store.value.notes.flows| > 0 && !HasOrder(d.store.value.notes.flows[0])
            && forall i :: 0 <= i < |d.store.value.log| ==> !Ends(d.store.value.log[i], 0)
  {
    AfterFirst(key);
    var c1 := AfterTurn(key, NewConversation, OrderFirst);
    AfterSecond(key, c1);
    var c2 := AfterTurn(key, c1, SecondOrder);
    AfterDrop(key, c2);
    var c3 := AfterTurn(key, c2, DropIt);
    ThreeTurns(key, NewConversation, OrderFirst, SecondOrder, DropIt);
    ReplacedIn(key, c3);
  }

  lemma ReplacedIn(key: NameKey, c: Conversation)
    requires FirstIsOpen(c) && !HasOpenOrder(c.store.value.notes)
    ensures var d := AfterTurn(key, c, SearchInFirst);
            && d.store.Some? && |d.store.value.notes.flows| > 0 && !HasOrder(d.store.value.notes.flows[0])
            && forall i :: 0 <= i < |d.store.value.log| ==> !Ends(d.store.value.log[i], 0)
  {
    assert Hydrated(c, SearchInFirst) == c.store.value.notes;
    assert FlowAt(c.store.value.notes.flows, "f") == Some(0);
    SideToolTurn(key, c, SearchInFirst, 0);
  }

  lemma ThreeTurns(key: NameKey, c: Conversation, a1: Answers, a2: Answers, a3: Answers)
    ensures AfterTurns(key, c, [a1, a2, a3]) == AfterTurn(key, AfterTurn(key, AfterTurn(key, c, a1), a2), a3)
  {
    var c1 := AfterTurn(key, c, a1);
    var c2 := AfterTurn(key, c1, a2);
    assert [a1, a2, a3][1..] == [a2, a3] && [a2, a3][1..] == [a3] && [a3][1..] == [];
    assert AfterTurns(key, c2, [a3]) == AfterTurns(key, AfterTurn(key, c2, a3), []);
    assert AfterTurns(key, c1, [a2, a3]) == AfterTurns(key, c2, [a3]);
  }

  /**
   * A run in which the model orders by itself beside an open order Draft: the second message asks for the order again
   * and flow_resolver's answer names no flow.
   */
  lemma OwnOrderInARun(key: NameKey)
    ensures var c := AfterTurn(key, NewConversation, OrderFirst);
            var done := TakeTurn(key, c, OrderNowhere);
            && FirstIsOpen(c) && HasOpenOrder(c.store.value.notes)
            && !done.raised && OwnSince(c.store.value.log, done.st.log)
            && |done.st.notes.flows| > 0 && HasOrder(done.st.notes.flows[0])
  {
    AfterFirst(key);
    OwnOrderBeside(key, AfterTurn(key, NewConversation, OrderFirst));
  }

  lemma LoadsStored(c: Conversation, a: Answers)
    requires c.store.Some? && !a.unreadable
    ensures Hydrated(c, a) == First(c, a).notes == c.store.value.notes && First(c, a).log == c.store.value.log
  {
  }

  lemma OwnOrderBeside(key: NameKey, c: Conversation)
    requires FirstIsOpen(c) && c.store.value.notes.active == Some("f")
    ensures var done := TakeTurn(key, c, OrderNowhere);
            && HasOpenOrder(c.store.value.notes)
            && !done.raised && OwnSince(c.store.value.log, done.st.log)
            && |done.st.notes.flows| > 0 && HasOrder(done.st.notes.flows[0])
  {
    var a := OrderNowhere;
    LoadsStored(c, a);
    assert FlowAt(c.store.value.notes.flows, "f") == Some(0);
    var st := ReachesResolver(key, c, a, CreateOrder);
    OrdersNowhere(key, c.store, First(c, a), st);
  }

  lemma OrdersNowhere(key: NameKey, store: Option<Noted>, first: Turn, st: Turn)
    requires Falls(Route) && Untouched(first, st) && st.tool == Some(CreateOrder)
    requires |first.notes.flows| > 0 && HasOrder(first.notes.flows[0])
    ensures var done := Go(WorkOf(key, store, OrderNowhere), Route, FailsOf(OrderNowhere), FlowResolver, st);
            && !done.raised && OwnSince(first.log, done.st.log)
            && |done.st.notes.flows| > 0 && HasOrder(done.st.notes.flows[0])
  {
    var a := OrderNowhere;
    var next := FlowResolverNode(st, a);
    ResolvesNowhere(first, st);
    var called := CallingToolNode(next, a);
    CallsByItself(next, a);
    EndsThroughCall(key, store, st, a, next, called);
    assert OwnOrder(called.log[|first.log|]);
  }

  /** From flow_resolver over calling_tool to the reply. */
  lemma EndsThroughCall(key: NameKey, store: Option<Noted>, st: Turn, a: Answers, mid: Turn, called: Turn)
    requires Falls(Route) && a.raisesAt == None
    requires mid == FlowResolverNode(st, a) && FlowRoute(mid) == CallingTool && called == CallingToolNode(mid, a)
    ensures var done := Go(WorkOf(key, store, a), Route, FailsOf(a), FlowResolver, st);
            !done.raised && done.st.notes == called.notes && done.st.log == called.log
  {
    StepTo(key, store, a, FlowResolver, st, CallingTool, mid);
    EndsThroughAsk(key, store, a, CallingTool, mid, called);
  }

  lemma ResolvesNowhere(first: Turn, st: Turn)
    requires Untouched(first, st) && st.tool == Some(CreateOrder)
    ensures var next := FlowResolverNode(st, OrderNowhere);
            && next.notes.flows == first.notes.flows && next.log == first.log && !Blocked(next, OrderNowhere)
            && ActiveFlow(next.notes, next.resolved) == None && Route(FlowResolver, next) == CallingTool
  {
    ContinuedOutcome(first, OrderNowhere, st);
    ActiveDecides(FlowResolverNode(st, OrderNowhere), None);
  }

  lemma CallsByItself(st: Turn, a: Answers)
    requires !Blocked(st, a) && ActiveFlow(st.notes, st.resolved) == None
    requires |st.notes.flows| > 0 && HasOrder(st.notes.flows[0])
    ensures var next := CallingToolNode(st, a);
            && |next.log| > |st.log| && next.log[|st.log|] == Direct(a.calls)
            && |next.notes.flows| > 0 && HasOrder(next.notes.flows[0])
  {
    CallingLogs(st, a);
    var next := CallingToolNode(st, a);
    assert next.log[|st.log|] == (st.log + [Direct(a.calls)])[|st.log|];
    DigestKeepsDrafts(st.Log(Direct(a.calls)), None, OwnCalls(st, a), a.picked, 0);
  }

  // ---- What each node logs ----

  /** The events a node adds. */
  ghost function Events(key: NameKey, n: Node, st: Turn, a: Answers): seq<Event> {
    match n
    case DraftGate =>
      if StateOf(st.notes, st.resolved) == Collecting && a.direction == Cancel
      then [Cancelled(Find(st.notes, st.resolved).value)] else []
    case FlowResolver =>
      var log := FlowResolverNode(st, a).log;
      if log == st.log || log == [] then [] else [log[|log| - 1]]
    case ExtractToolArgs =>
      var at := ToCollect(st.notes, st.resolved);
      if at.None? then []
      else
        [HeededEvent(key, st.notes, at.value, a.heard)]
        + if IsStuck(Collected(key, st.notes, at.value, a.heard, a.now), st.resolved) then [GaveUp(at.value)] else []
    case CallingTool => CallEvents(st, a)
    case _ => []
  }

  lemma NodeLog(key: NameKey, store: Option<Noted>, n: Node, st: Turn, a: Answers)
    requires n != Hydrate
    ensures Work(key, store, n, st, a).log == st.log + Events(key, n, st, a)
    ensures forall e :: e in Events(key, n, st, a) ==> Belongs(n, e)
  {
    match n
    case DraftGate => GateLog(key, st, a);
    case FlowResolver => ResolverLog(key, st, a);
    case ExtractToolArgs => ExtractLog(key, st, a);
    case CallingTool =>
      CallingLog(st, a);
      CallsBelong(st, a);
    case _ =>
  }

  lemma GateLog(key: NameKey, st: Turn, a: Answers)
    ensures DraftGateNode(st, a).log == st.log + Events(key, DraftGate, st, a)
    ensures forall e :: e in Events(key, DraftGate, st, a) ==> Belongs(DraftGate, e)
  {
  }

  lemma ResolverLog(key: NameKey, st: Turn, a: Answers)
    ensures FlowResolverNode(st, a).log == st.log + Events(key, FlowResolver, st, a)
    ensures forall e :: e in Events(key, FlowResolver, st, a) ==> Belongs(FlowResolver, e)
  {
    ResolverOnlyAdds(st, a);
  }

  lemma ExtractLog(key: NameKey, st: Turn, a: Answers)
    ensures ExtractNode(key, st, a).log == st.log + Events(key, ExtractToolArgs, st, a)
    ensures forall e :: e in Events(key, ExtractToolArgs, st, a) ==> Belongs(ExtractToolArgs, e)
  {
    var at := ToCollect(st.notes, st.resolved);
    if at.Some? {
      var e := HeededEvent(key, st.notes, at.value, a.heard);
      TwoMore(st.log, e, GaveUp(at.value));
      assert Belongs(ExtractToolArgs, e) && Belongs(ExtractToolArgs, GaveUp(at.value));
    }
  }

  lemma TwoMore(log: seq<Event>, d: Event, e: Event)
    ensures log + [d] + [e] == log + ([d] + [e]) && log + [d] == log + ([d] + [])
  {
  }

  lemma CallsBelong(st: Turn, a: Answers)
    ensures forall e :: e in CallEvents(st, a) ==> Belongs(CallingTool, e)
  {
  }

  /** The nodes an event can come from. */
  predicate Belongs(n: Node, e: Event) {
    match e
    case Cancelled(_) => n == DraftGate
    case Opened(_, _) => n == FlowResolver
    case Heeded(_, _, _, _, _, _, _, _, _) => n == ExtractToolArgs
    case GaveUp(_) => n == ExtractToolArgs
    case Raised => false
    case _ => n == CallingTool
  }

  // ---- Going on with a Draft ----

  /** A Turn in which the customer goes on with the Draft of the active flow collects it, whatever comes after. */
  lemma ContinueCollects(key: NameKey, c: Conversation, a: Answers, at: nat)
    requires ToCollect(Hydrated(c, a), None) == Some(at) && a.direction == Continue
    requires a.raisesAt != Some(Hydrate) && a.raisesAt != Some(DraftGate) && a.raisesAt != Some(ExtractToolArgs)
    ensures First(c, a).log + [HeededEvent(key, Hydrated(c, a), at, a.heard)] <= TakeTurn(key, c, a).st.log
  {
    EdgesFall();
    var s0, s1 := Begin(Revived(c, a), a), First(c, a);
    var s2 := DraftGateNode(s1, a);
    StepTo(key, c.store, a, Hydrate, s0, DraftGate, s1);
    StepTo(key, c.store, a, DraftGate, s1, ExtractToolArgs, s2);
    CollectIsLogged(key, c.store, s2, a, at);
  }

  lemma CollectIsLogged(key: NameKey, store: Option<Noted>, st: Turn, a: Answers, at: nat)
    requires Falls(Route) && a.raisesAt != Some(ExtractToolArgs) && ToCollect(st.notes, st.resolved) == Some(at)
    ensures var done := Go(WorkOf(key, store, a), Route, FailsOf(a), ExtractToolArgs, st);
            st.log + [HeededEvent(key, st.notes, at, a.heard)] <= done.st.log
  {
    ExtractLogsFirst(key, st, a, at);
    ExtractLogStays(key, store, st, a, ExtractNode(key, st, a));
  }

  lemma ExtractLogStays(key: NameKey, store: Option<Noted>, st: Turn, a: Answers, next: Turn)
    requires Falls(Route) && a.raisesAt != Some(ExtractToolArgs) && next == ExtractNode(key, st, a)
    ensures next.log <= Go(WorkOf(key, store, a), Route, FailsOf(a), ExtractToolArgs, st).st.log
  {
    StepTo(key, store, a, ExtractToolArgs, st, AfterExtract(next), next);
    LogGrows(key, store, a, AfterExtract(next), next);
  }

  lemma ExtractLogsFirst(key: NameKey, st: Turn, a: Answers, at: nat)
    requires ToCollect(st.notes, st.resolved) == Some(at)
    ensures st.log + [HeededEvent(key, st.notes, at, a.heard)] <= ExtractNode(key, st, a).log
  {
    TwoMore(st.log, HeededEvent(key, st.notes, at, a.heard), GaveUp(at));
  }

  lemma LogGrows(key: NameKey, store: Option<Noted>, a: Answers, n: Node, st: Turn)
    requires Falls(Route) && n != Hydrate
    ensures st.log <= Go(WorkOf(key, store, a), Route, FailsOf(a), n, st).st.log
  {
    var work, fails := WorkOf(key, store, a), FailsOf(a);
    var inv := (m: Node, t: Turn) => m != Hydrate && st.log <= t.log;
    forall m: Node, t: Turn | m != End && inv(m, t) && !fails(m, t)
      ensures inv(Route(m, work(m, t)), work(m, t))
    {
      NodeLog(key, store, m, t, a);
      assert Rank(Route(m, work(m, t))) < Rank(m);
    }
    Holds(work, Route, fails, inv, n, st);
  }

  // ---- What a call selects ----

  /** The tool calling_tool names first, and the products its answer brings. */
  function FirstCall(st: Turn, a: Answers): Option<Tool> {
    if StateOf(st.notes, st.resolved) == Ready
    then Some(st.notes.flows[Find(st.notes, st.resolved).value].draft.value.tool)
    else if a.calls == [] then None else Some(a.calls[0])
  }

  function Brought(st: Turn, a: Answers): seq<Product> {
    if StateOf(st.notes, st.resolved) != Ready && SkipsOrder(st, a) then [] else a.returned
  }

  function SelectedIn(f: Flow): Option<Product> {
    if f.discovery.Some? then f.discovery.value.selected else None
  }

  /**
   * A call of a product tool that brings products selects one of them in the active flow and forgets every other
   * selection; a list of several selects none and replaces the flow's list.
   */
  lemma CallSelects(st: Turn, a: Answers, at: nat)
    requires ActiveFlow(st.notes, st.resolved) == Some(at) && Brought(st, a) != []
    requires FirstCall(st, a).Some? && ProductTool(FirstCall(st, a).value)
    ensures var flows, tool := CallingToolNode(st, a).notes.flows, FirstCall(st, a).value;
            && |flows| == |st.notes.flows| && flows[at].discovery.Some?
            && (forall i :: 0 <= i < |flows| && i != at ==> SelectedIn(flows[i]) == None)
            && (ListTool(tool) ==> flows[at].discovery.value.results == a.returned)
            && (ListTool(tool) && |a.returned| > 1 ==> SelectedIn(flows[at]) == None)
            && (!ListTool(tool) || |a.returned| == 1 ==>
                  SelectedIn(flows[at]).Some? && SelectedIn(flows[at]).value in a.returned)
            && (!ListTool(tool) && st.notes.flows[at].discovery.Some? ==>
                  flows[at].discovery.value.results == st.notes.flows[at].discovery.value.results)
  {
    var mid := CallDiscovers(st, a, at);
    DiscoverSelects(mid, at, FirstCall(st, a).value, a.returned, a.picked);
  }

  /** The first call is an order and it worked. */
  predicate OrderWorked(st: Turn, a: Answers) {
    && FirstCall(st, a) == Some(CreateOrder) && a.callError == ""
    && (StateOf(st.notes, st.resolved) == Ready || !SkipsOrder(st, a))
  }

  predicate BringsProducts(st: Turn, a: Answers) {
    FirstCall(st, a).Some? && ProductTool(FirstCall(st, a).value) && Brought(st, a) != []
  }

  /** An order that worked forgets every selection; any call that neither orders nor brings products changes none. */
  lemma CallForgets(st: Turn, a: Answers, i: nat)
    requires i < |st.notes.flows|
    ensures var flows := CallingToolNode(st, a).notes.flows;
            && |flows| == |st.notes.flows|
            && (OrderWorked(st, a) ==> SelectedIn(flows[i]) == None)
            && (!OrderWorked(st, a) && !BringsProducts(st, a) ==>
                  SelectedIn(flows[i]) == SelectedIn(st.notes.flows[i]))
  {
    var at := Find(st.notes, st.resolved);
    var flow := ActiveFlow(st.notes, st.resolved);
    if StateOf(st.notes, st.resolved) == Ready {
      var tool := st.notes.flows[at.value].draft.value.tool;
      DigestForgets(SendDraft(st, a, at.value), flow, Outcome(Some(tool), a.returned, a.callError), a.picked, i);
    } else {
      var logged := if a.calls == [] || SkipsOrder(st, a) then st else st.Log(Direct(a.calls));
      DigestForgets(logged, flow, OwnCalls(st, a), a.picked, i);
    }
  }

  lemma DigestForgets(st: Turn, at: Option<nat>, outcome: Outcome, picked: nat, i: nat)
    requires i < |st.notes.flows| && (at.Some? ==> at.value < |st.notes.flows|)
    ensures var flows := Digest(st, at, outcome, picked).notes.flows;
            && |flows| == |st.notes.flows|
            && (outcome.called == Some(CreateOrder) && outcome.error == "" ==> SelectedIn(flows[i]) == None)
            && (outcome.called != Some(CreateOrder) || outcome.error != "" ==>
                  outcome.called.None? || !ProductTool(outcome.called.value) || outcome.products == [] ==>
                    SelectedIn(flows[i]) == SelectedIn(st.notes.flows[i]))
  {
  }

  lemma CallDiscovers(st: Turn, a: Answers, at: nat) returns (mid: Notes)
    requires ActiveFlow(st.notes, st.resolved) == Some(at) && Brought(st, a) != []
    requires FirstCall(st, a).Some? && ProductTool(FirstCall(st, a).value)
    ensures |mid.flows| == |st.notes.flows| && mid.flows[at].discovery == st.notes.flows[at].discovery
    ensures CallingToolNode(st, a).notes == Discover(mid, at, FirstCall(st, a).value, a.returned, a.picked)
  {
    mid := st.notes;
    if StateOf(st.notes, st.resolved) == Ready {
      mid := SendDraft(st, a, at).notes;
    }
  }

  lemma DiscoverSelects(notes: Notes, at: nat, tool: Tool, products: seq<Product>, picked: nat)
    requires at < |notes.flows| && products != []
    ensures var flows := Discover(notes, at, tool, products, picked).flows;
            && |flows| == |notes.flows| && flows[at].discovery.Some?
            && (forall i :: 0 <= i < |flows| && i != at ==> SelectedIn(flows[i]) == None)
            && (ListTool(tool) ==> flows[at].discovery.value.results == products)
            && (ListTool(tool) && |products| > 1 ==> SelectedIn(flows[at]) == None)
            && (!ListTool(tool) || |products| == 1 ==>
                  SelectedIn(flows[at]).Some? && SelectedIn(flows[at]).value in products)
            && (!ListTool(tool) && notes.flows[at].discovery.Some? ==>
                  flows[at].discovery.value.results == notes.flows[at].discovery.value.results)
  {
  }

  // ---- One order from a Draft per Turn ----

  function OrdersIn(log: seq<Event>): nat {
    if log == [] then 0
    else
      var e := log[|log| - 1];
      OrdersIn(log[..|log| - 1]) + if e.Called? && e.tool == CreateOrder then 1 else 0
  }

  lemma {:induction false} OrdersConcat(a: seq<Event>, b: seq<Event>)
    ensures OrdersIn(a + b) == OrdersIn(a) + OrdersIn(b)
  {
    if b == [] {
      assert a + b == a;
    } else {
      assert (a + b)[..|a + b| - 1] == a + b[..|b| - 1];
      OrdersConcat(a, b[..|b| - 1]);
    }
  }

  lemma {:induction false} NoOrders(log: seq<Event>)
    requires forall e :: e in log ==> !e.Called?
    ensures OrdersIn(log) == 0
  {
    if log != [] {
      NoOrders(log[..|log| - 1]);
    }
  }

  lemma CallIsOneOrder(st: Turn, a: Answers)
    ensures OrdersIn(CallEvents(st, a)) <= 1
  {
    var events := CallEvents(st, a);
    if |events| > 0 {
      assert events == [events[0]] + events[1..];
      OrdersConcat([events[0]], events[1..]);
      NoOrders(events[1..]);
      assert [events[0]][..0] == [];
    }
  }

  /** The orders sent from Drafts since hydrate; a Turn that raises there sends none. */
  ghost function OrdersSent(key: NameKey, c: Conversation, a: Answers): nat {
    var log, from := TakeTurn(key, c, a).st.log, |First(c, a).log|;
    if a.raisesAt == Some(Hydrate) || |log| < from then 0 else OrdersIn(log[from..])
  }

  ghost predicate SentAt(start: Turn, first: Turn, n: Node, st: Turn) {
    if n == Hydrate then st == start
    else first.log <= st.log && OrdersIn(st.log[|first.log|..]) <= if Rank(n) >= Rank(CallingTool) then 0 else 1
  }

  lemma SentStep(key: NameKey, c: Conversation, a: Answers, n: Node, st: Turn)
    requires n != End && SentAt(Begin(Revived(c, a), a), First(c, a), n, st)
    ensures var next := Work(key, c.store, n, st, a);
            SentAt(Begin(Revived(c, a), a), First(c, a), Route(n, next), next)
  {
    var first := First(c, a);
    var next := Work(key, c.store, n, st, a);
    if n == Hydrate {
      assert next.log[|first.log|..] == [];
    } else {
      NodeLog(key, c.store, n, st, a);
      Counted(first, st, Events(key, n, st, a));
      OrdersOfNode(key, n, st, a);
      EdgesFall();
      assert Rank(Route(n, next)) < Rank(n);
    }
  }

  lemma OrdersOfNode(key: NameKey, n: Node, st: Turn, a: Answers)
    requires forall e :: e in Events(key, n, st, a) ==> Belongs(n, e)
    ensures OrdersIn(Events(key, n, st, a)) <= if n == CallingTool then 1 else 0
  {
    if n == CallingTool {
      CallIsOneOrder(st, a);
    } else {
      NoOrders(Events(key, n, st, a));
    }
  }

  lemma Counted(first: Turn, st: Turn, events: seq<Event>)
    requires first.log <= st.log
    ensures first.log <= st.log + events
    ensures OrdersIn((st.log + events)[|first.log|..]) == OrdersIn(st.log[|first.log|..]) + OrdersIn(events)
  {
    assert (st.log + events)[|first.log|..] == st.log[|first.log|..] + events;
    OrdersConcat(st.log[|first.log|..], events);
  }

  /** Every Turn, raising or not, sends at most one order from a Draft. */
  lemma OneDraftOrderPerTurn(key: NameKey, c: Conversation, a: Answers)
    ensures OrdersSent(key, c, a) <= 1
  {
    EdgesFall();
    var start := Begin(Revived(c, a), a);
    var work, fails := WorkOf(key, c.store, a), FailsOf(a);
    var inv := (n: Node, st: Turn) => SentAt(start, First(c, a), n, st);
    forall n: Node, st: Turn | n != End && inv(n, st) && !fails(n, st)
      ensures inv(Route(n, work(n, st)), work(n, st))
    {
      SentStep(key, c, a, n, st);
    }
    Holds(work, Route, fails, inv, Hydrate, start);
  }

  ghost function TotalOrders(key: NameKey, runs: seq<(Conversation, Answers)>): nat {
    if runs == [] then 0
    else TotalOrders(key, runs[..|runs| - 1]) + OrdersSent(key, runs[|runs| - 1].0, runs[|runs| - 1].1)
  }

  lemma {:induction false} OneOrderPerRun(key: NameKey, runs: seq<(Conversation, Answers)>)
    ensures TotalOrders(key, runs) <= |runs|
  {
    if runs != [] {
      OneOrderPerRun(key, runs[..|runs| - 1]);
      OneDraftOrderPerTurn(key, runs[|runs| - 1].0, runs[|runs| - 1].1);
    }
  }

  /**
   * However often a message is retried, and whatever each of its runs finds and answers, it sends at most one order
   * from Drafts, plus one for every run that was lost in a crash before its result was saved.
   */
  lemma OneOrderPerMessage(lock: TurnGuard.LockKey, steps: seq<TurnGuard.Step>, q: TurnGuard.Request,
                           key: NameKey, runs: seq<(Conversation, Answers)>)
    requires TurnGuard.Legal(lock, TurnGuard.Empty, steps)
    requires |runs| == TurnGuard.After(lock, TurnGuard.Empty, steps).Seen(TurnGuard.Began(q))
    ensures TotalOrders(key, runs) <= 1 + TurnGuard.After(lock, TurnGuard.Empty, steps).Seen(TurnGuard.Lost(q))
  {
    OneOrderPerRun(key, runs);
    TurnGuard.RunsAreCounted(lock, steps, q);
  }

  // ---- A Draft that was sent ----

  /**
   * What a call of a Draft leaves behind: no Draft when the call worked, and after a failed order the same Draft, which
   * collects again with the call's error pending.
   */
  predicate Settles(e: Event, st: Turn, a: Answers)
    requires e.Called?
  {
    && e.flow < |st.notes.flows|
    && (e.ok <==> e.tool != CreateOrder || a.callError == "")
    && var draft := st.notes.flows[e.flow].draft;
       if e.ok then draft.None?
       else
         && draft.Some? && draft.value.tool == CreateOrder && !draft.value.ready
         && draft.value.error == a.callError && draft.value.args - {Street} == e.args - {Street}
  }

  /** Before calling_tool no Draft was sent in this Turn, after it what was sent is settled. */
  ghost predicate SettledAt(start: Turn, first: Turn, a: Answers, n: Node, st: Turn) {
    if n == Hydrate then st == start
    else
      && first.log <= st.log
      && forall i :: |first.log| <= i < |st.log| && st.log[i].Called? ==>
           Rank(n) < Rank(CallingTool) && Settles(st.log[i], st, a)
  }

  lemma CallSettles(st: Turn, a: Answers, e: Event)
    requires e in CallEvents(st, a) && e.Called?
    ensures Settles(e, CallingToolNode(st, a), a)
  {
    var at := Find(st.notes, st.resolved);
    var flow := ActiveFlow(st.notes, st.resolved);
    var draft := st.notes.flows[at.value].draft.value;
    var sent := SendDraft(st, a, at.value);
    DigestKeepsDrafts(sent, flow, Outcome(Some(draft.tool), a.returned, a.callError), a.picked, at.value);
  }

  lemma SettledStep(key: NameKey, c: Conversation, a: Answers, n: Node, st: Turn)
    requires n != End && SettledAt(Begin(Revived(c, a), a), First(c, a), a, n, st)
    ensures var next := Work(key, c.store, n, st, a);
            SettledAt(Begin(Revived(c, a), a), First(c, a), a, Route(n, next), next)
  {
    var first, next := First(c, a), Work(key, c.store, n, st, a);
    EdgesFall();
    if n != Hydrate {
      var events := Events(key, n, st, a);
      NodeLog(key, c.store, n, st, a);
      assert Rank(Route(n, next)) < Rank(n);
      forall i | |first.log| <= i < |next.log| && next.log[i].Called?
        ensures Rank(Route(n, next)) < Rank(CallingTool) && Settles(next.log[i], next, a)
      {
        if i < |st.log| {
          assert next.log[i] == st.log[i];
          LateNodesKeep(key, c.store, n, st, a);
        } else {
          assert next.log[i] == events[i - |st.log|] && next.log[i] in events;
          CallSettles(st, a, next.log[i]);
        }
      }
    }
  }

  /** Nothing touches the notes after calling_tool. */
  lemma LateNodesKeep(key: NameKey, store: Option<Noted>, n: Node, st: Turn, a: Answers)
    requires n != End && Rank(n) < Rank(CallingTool)
    ensures Work(key, store, n, st, a).notes == st.notes
  {
    assert n == Escalate || n == Reply || n == Persist;
  }

  /**
   * Where a Turn stops, raising or not, every Draft it sent is settled: its flow holds no Draft when the call worked,
   * and after a failed order it holds that Draft again, not ready, with the arguments that were sent and the error.
   */
  lemma SentIsSettled(key: NameKey, c: Conversation, a: Answers, i: nat)
    requires a.raisesAt != Some(Hydrate)
    requires |First(c, a).log| <= i < |TakeTurn(key, c, a).st.log| && TakeTurn(key, c, a).st.log[i].Called?
    ensures Settles(TakeTurn(key, c, a).st.log[i], TakeTurn(key, c, a).st, a)
  {
    EdgesFall();
    var start := Begin(Revived(c, a), a);
    var work, fails := WorkOf(key, c.store, a), FailsOf(a);
    var inv := (n: Node, st: Turn) => SettledAt(start, First(c, a), a, n, st);
    forall n: Node, st: Turn | n != End && inv(n, st) && !fails(n, st)
      ensures inv(Route(n, work(n, st)), work(n, st))
    {
      SettledStep(key, c, a, n, st);
    }
    Holds(work, Route, fails, inv, Hydrate, start);
  }

  // ---- A Draft that is given up ----

  ghost predicate GaveUpSince(from: seq<Event>, log: seq<Event>, f: nat) {
    exists i :: |from| <= i < |log| && log[i] == GaveUp(f)
  }

  lemma GivingUpNeeds(first: Turn, st: Turn, events: seq<Event>, f: nat)
    requires first.log <= st.log
    ensures first.log <= st.log + events
    ensures GaveUpSince(first.log, st.log + events, f) <==> GaveUpSince(first.log, st.log, f) || GaveUp(f) in events
  {
    var log := st.log + events;
    assert forall i :: 0 <= i < |st.log| ==> log[i] == st.log[i];
    assert forall j :: 0 <= j < |events| ==> log[|st.log| + j] == events[j];
  }

  /** Only escalate is reached with a Draft given up, and then the flow holds none and nothing was said. */
  ghost predicate GoneAt(start: Turn, first: Turn, f: nat, n: Node, st: Turn) {
    match n
    case Hydrate => st == start
    case Escalate => first.log <= st.log && (GaveUpSince(first.log, st.log, f) ==> Gone(st, f))
    case Persist => first.log <= st.log && (GaveUpSince(first.log, st.log, f) ==> Gone(st, f) && st.said == None)
    case End => first.log <= st.log && (GaveUpSince(first.log, st.log, f) ==> Gone(st, f) && st.said == None)
    case _ => first.log <= st.log && !GaveUpSince(first.log, st.log, f)
  }

  predicate Gone(st: Turn, f: nat) {
    f < |st.notes.flows| && st.notes.flows[f].draft.None?
  }

  lemma GoneStep(key: NameKey, c: Conversation, a: Answers, f: nat, n: Node, st: Turn)
    requires n != End && GoneAt(Begin(Revived(c, a), a), First(c, a), f, n, st) && (n == Escalate ==> st.said == None)
    ensures var next := Work(key, c.store, n, st, a);
            GoneAt(Begin(Revived(c, a), a), First(c, a), f, Route(n, next), next)
  {
    if n != Hydrate {
      NodeLog(key, c.store, n, st, a);
      GivingUpNeeds(First(c, a), st, Events(key, n, st, a), f);
      if n == ExtractToolArgs {
        GivesUp(key, st, a, f);
      }
    }
  }

  lemma GivesUp(key: NameKey, st: Turn, a: Answers, f: nat)
    ensures GaveUp(f) in Events(key, ExtractToolArgs, st, a) ==>
              var next := ExtractNode(key, st, a); Gone(next, f) && Route(ExtractToolArgs, next) == Escalate
  {
    var at := ToCollect(st.notes, st.resolved);
    if at.Some? {
      CollectedKeepsOrder(key, st.notes, st.resolved, at.value, a.heard, a.now);
    }
  }

  /** Off escalate, no Draft was given up. */
  ghost predicate NotGivenUp(start: Turn, first: Turn, f: nat, n: Node, st: Turn) {
    if n == Hydrate then st == start
    else n == Escalate || (first.log <= st.log && !GaveUpSince(first.log, st.log, f))
  }

  lemma NotGivenUpStep(key: NameKey, c: Conversation, a: Answers, f: nat, n: Node, st: Turn)
    requires n != End && n != Escalate && NotGivenUp(Begin(Revived(c, a), a), First(c, a), f, n, st)
    ensures var next := Work(key, c.store, n, st, a);
            NotGivenUp(Begin(Revived(c, a), a), First(c, a), f, Route(n, next), next)
  {
    EdgesFall();
    if n != Hydrate {
      NodeLog(key, c.store, n, st, a);
      GivingUpNeeds(First(c, a), st, Events(key, n, st, a), f);
      if n == ExtractToolArgs {
        GivesUp(key, st, a, f);
      }
    }
  }

  lemma GivenUpGoesToEscalate(key: NameKey, c: Conversation, a: Answers, f: nat)
    requires !TakeTurn(key, c, a).raised && GaveUpSince(First(c, a).log, TakeTurn(key, c, a).st.log, f)
    ensures Escalate in TakeTurn(key, c, a).path
  {
    EdgesFall();
    var start := Begin(Revived(c, a), a);
    var work, fails := WorkOf(key, c.store, a), FailsOf(a);
    var inv := (n: Node, st: Turn) => NotGivenUp(start, First(c, a), f, n, st);
    forall n: Node, st: Turn | n != End && n != Escalate && inv(n, st) && !fails(n, st)
      ensures inv(Route(n, work(n, st)), work(n, st))
    {
      NotGivenUpStep(key, c, a, f, n, st);
    }
    HoldsAvoiding(work, Route, fails, inv, Escalate, Hydrate, start);
  }

  lemma GivenUpIsGone(key: NameKey, c: Conversation, a: Answers, f: nat)
    requires !TakeTurn(key, c, a).raised && GaveUpSince(First(c, a).log, TakeTurn(key, c, a).st.log, f)
    ensures Gone(TakeTurn(key, c, a).st, f) && TakeTurn(key, c, a).st.said == None
  {
    EdgesFall();
    var start := Begin(Revived(c, a), a);
    var work, fails := WorkOf(key, c.store, a), FailsOf(a);
    var inv := (n: Node, st: Turn) => GoneAt(start, First(c, a), f, n, st) && Speaking(History(c, a), start, n, st);
    forall n: Node, st: Turn | n != End && inv(n, st) && !fails(n, st)
      ensures inv(Route(n, work(n, st)), work(n, st))
    {
      SpeakingStep(key, c, a, n, st);
      GoneStep(key, c, a, f, n, st);
    }
    Holds(work, Route, fails, inv, Hydrate, start);
  }

  /**
   * A Turn that gives a Draft up and does not raise ends with no Draft in that flow, goes through escalate, and hands
   * the conversation to a human whenever the history ends with the customer's message.
   */
  lemma GivenUpTurnEscalates(key: NameKey, c: Conversation, a: Answers, f: nat)
    requires !TakeTurn(key, c, a).raised && GaveUpSince(First(c, a).log, TakeTurn(key, c, a).st.log, f)
    ensures Gone(TakeTurn(key, c, a).st, f) && Escalate in TakeTurn(key, c, a).path
    ensures History(c, a) != [] && History(c, a)[|History(c, a)| - 1].Human? ==>
              Sends(TakeTurn(key, c, a)) == EscalateToHuman
  {
    GivenUpIsGone(key, c, a, f);
    GivenUpGoesToEscalate(key, c, a, f);
    SendsThisTurnsReply(key, c, a);
  }

  // ---- ... and only after three stalls ----

  predicate GivesUpLawfully(log: seq<Event>) {
    forall i :: 0 <= i < |log| && log[i].GaveUp? ==> Stalls(log[..i], log[i].flow) >= 3
  }

  lemma LawfullyAppended(log: seq<Event>, e: Event)
    requires GivesUpLawfully(log) && (e.GaveUp? ==> Stalls(log, e.flow) >= 3)
    ensures GivesUpLawfully(log + [e])
  {
    var t := log + [e];
    forall i | 0 <= i < |t| && t[i].GaveUp? ensures Stalls(t[..i], t[i].flow) >= 3 {
      assert t[..i] == log[..i];
      if i == |log| {
        assert t[..i] == log;
      }
    }
  }

  lemma {:induction false} LawfulEvents(log: seq<Event>, events: seq<Event>)
    requires GivesUpLawfully(log) && forall e :: e in events ==> !e.GaveUp?
    ensures GivesUpLawfully(log + events)
  {
    if events == [] {
      assert log + events == log;
    } else {
      var n := |events| - 1;
      LawfulEvents(log, events[..n]);
      LawfullyAppended(log + events[..n], events[n]);
      assert log + events == log + events[..n] + [events[n]];
    }
  }

  lemma ExtractGivesUpLawfully(key: NameKey, st: Turn, a: Answers)
    requires Calm(key, NotedOf(st)) && GivesUpLawfully(st.log)
    ensures GivesUpLawfully(ExtractNode(key, st, a).log)
  {
    var to := ToCollect(st.notes, st.resolved);
    if to.Some? {
      var at := to.value;
      var e := HeededEvent(key, st.notes, at, a.heard);
      var notes := Collected(key, st.notes, at, a.heard, a.now);
      LawfullyAppended(st.log, e);
      if IsStuck(notes, st.resolved) {
        StuckAfterThree(key, st, a, at);
        LawfullyAppended(st.log + [e], GaveUp(at));
      }
    }
  }

  lemma StuckAfterThree(key: NameKey, st: Turn, a: Answers, at: nat)
    requires Calm(key, NotedOf(st)) && ToCollect(st.notes, st.resolved) == Some(at)
    requires IsStuck(Collected(key, st.notes, at, a.heard, a.now), st.resolved)
    ensures Stalls(st.log + [HeededEvent(key, st.notes, at, a.heard)], at) >= 3
  {
    var notes := Collected(key, st.notes, at, a.heard, a.now);
    CollectedKeepsOrder(key, st.notes, st.resolved, at, a.heard, a.now);
    HeededSound(key, NotedOf(st), at, a.heard, a.now);
    var m := Noted(notes, st.log + [HeededEvent(key, st.notes, at, a.heard)]);
    assert FlowSound(key, m, at) && DraftSound(key, m, at);
  }

  ghost predicate LawfulAt(key: NameKey, start: Turn, n: Node, st: Turn) {
    At(key, start, n, st) && (n != Hydrate ==> GivesUpLawfully(st.log))
  }

  ghost predicate ConversationLawful(key: NameKey, c: Conversation) {
    && ConversationSound(key, c)
    && (c.store.Some? ==> GivesUpLawfully(c.store.value.log)) && GivesUpLawfully(c.checkpoint.log)
  }

  lemma LawfulStep(key: NameKey, c: Conversation, a: Answers, n: Node, st: Turn)
    requires ConversationLawful(key, Revived(c, a)) && n != End && LawfulAt(key, Begin(Revived(c, a), a), n, st)
    ensures var next := Work(key, c.store, n, st, a);
            LawfulAt(key, Begin(Revived(c, a), a), Route(n, next), next)
  {
    AtStep(key, c, a, n, st);
    LawfulLog(key, c, a, n, st);
  }

  lemma LawfulLog(key: NameKey, c: Conversation, a: Answers, n: Node, st: Turn)
    requires ConversationLawful(key, Revived(c, a)) && n != End && LawfulAt(key, Begin(Revived(c, a), a), n, st)
    ensures GivesUpLawfully(Work(key, c.store, n, st, a).log)
  {
    if n == ExtractToolArgs {
      ExtractGivesUpLawfully(key, st, a);
    } else if n != Hydrate {
      NodeLog(key, c.store, n, st, a);
      LawfulEvents(st.log, Events(key, n, st, a));
    }
  }

  lemma TurnKeepsLawful(key: NameKey, c: Conversation, a: Answers)
    requires ConversationLawful(key, c)
    ensures ConversationLawful(key, AfterTurn(key, c, a))
  {
    EdgesFall();
    BlankIsCalm(key, []);
    TurnKeepsSound(key, c, a);
    var start := Begin(Revived(c, a), a);
    var work, fails := WorkOf(key, c.store, a), FailsOf(a);
    var inv := (n: Node, st: Turn) => LawfulAt(key, start, n, st);
    forall n: Node, st: Turn | n != End && inv(n, st) && !fails(n, st)
      ensures inv(Route(n, work(n, st)), work(n, st))
    {
      LawfulStep(key, c, a, n, st);
    }
    Holds(work, Route, fails, inv, Hydrate, start);
    var done := TakeTurn(key, c, a);
    assert GivesUpLawfully(done.st.log);
    LawfullyAppended(done.st.log, Raised);
  }

  lemma {:induction false} RunKeepsLawful(key: NameKey, c: Conversation, turns: seq<Answers>)
    requires ConversationLawful(key, c)
    ensures ConversationLawful(key, AfterTurns(key, c, turns))
    decreases |turns|
  {
    if turns != [] {
      TurnKeepsLawful(key, c, turns[0]);
      RunKeepsLawful(key, AfterTurn(key, c, turns[0]), turns[1..]);
    }
  }

  /** In every run a Draft is given up only after it was collected three times in a row with nothing new. */
  lemma GivenUpAfterThree(key: NameKey, turns: seq<Answers>, n: Noted, i: nat)
    requires KeptAfter(key, turns, n) && i < |n.log| && n.log[i].GaveUp?
    ensures Stalls(n.log[..i], n.log[i].flow) >= 3
  {
    BlankIsCalm(key, []);
    RunKeepsLawful(key, NewConversation, turns);
  }
}
