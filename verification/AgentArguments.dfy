/**
 * Where the product and the quantity of an order come from, over every run (ecom_agent/drafts.py): they are the last
 * ones heard since the Draft was opened.
 */
module AgentArguments {
  import opened Wrappers
  import opened AgentNotes
  import opened Drafts
  import opened AgentGraph
  import opened AgentTurn
  import opened AgentRuns
  import opened AgentLaws
  import opened AgentOrders

  // ---- What was said, read off the log ----

  /** An order Draft of flow `f` was collected. */
  predicate Collects(e: Event, f: nat) {
    e.Heeded? && e.flow == f && e.tool == CreateOrder
  }

  /** The last known product that was heard for the Draft of flow `f`, else the one selected when none was known. */
  function ProductSaid(log: seq<Event>, f: nat): string {
    if log == [] then ""
    else
      var before, e := log[..|log| - 1], log[|log| - 1];
      if e.Opened? && e.flow == f then ""
      else if Collects(e, f) then ProductAfter(ToldAbout(e.notes, e.raw), ProductSaid(before, f))
      else ProductSaid(before, f)
  }

  /** The last whole number that was heard as the quantity. */
  function QuantitySaid(log: seq<Event>, f: nat): Option<int> {
    if log == [] then None
    else
      var before, e := log[..|log| - 1], log[|log| - 1];
      if e.Opened? && e.flow == f then None
      else if Collects(e, f) then QuantityAfter(ToldAbout(e.notes, e.raw), QuantitySaid(before, f))
      else QuantitySaid(before, f)
  }

  predicate SaidBy(log: seq<Event>, f: nat, args: Args) {
    TextAt(args, ProductId) == ProductSaid(log, f) && QuantityAt(args) == QuantitySaid(log, f)
  }

  ghost predicate Said(n: Noted) {
    && (forall i :: 0 <= i < |n.notes.flows| && HasOrder(n.notes.flows[i]) ==>
          SaidBy(n.log, i, n.notes.flows[i].draft.value.args))
    && (forall i :: 0 <= i < |n.log| && n.log[i].Called? && n.log[i].tool == CreateOrder ==>
          SaidBy(n.log[..i], n.log[i].flow, n.log[i].args))
  }

  lemma SaidAppend(log: seq<Event>, e: Event, f: nat, args: Args)
    requires SaidBy(log, f, args) && !(e.Opened? && e.flow == f) && !Collects(e, f)
    ensures SaidBy(log + [e], f, args)
  {
    assert (log + [e])[..|log|] == log;
  }

  lemma CallsAppend(n: Noted, e: Event)
    requires Said(n) && (e.Called? && e.tool == CreateOrder ==> SaidBy(n.log, e.flow, e.args))
    ensures var log := n.log + [e];
            forall i :: 0 <= i < |log| && log[i].Called? && log[i].tool == CreateOrder ==>
              SaidBy(log[..i], log[i].flow, log[i].args)
  {
    var log := n.log + [e];
    forall i | 0 <= i < |log| && log[i].Called? && log[i].tool == CreateOrder
      ensures SaidBy(log[..i], log[i].flow, log[i].args)
    {
      assert log[..i] == n.log[..i];
      if i == |n.log| {
        assert log[..i] == n.log;
      } else {
        assert log[i] == n.log[i];
      }
    }
  }

  /** A flow is as it was, gone or new at the end of the log, or holds an order Draft with the same arguments. */
  ghost predicate Follows(n: Noted, e: Event, notes: Notes, i: nat)
    requires i < |notes.flows|
  {
    HasOrder(notes.flows[i]) ==>
      var args := notes.flows[i].draft.value.args;
      if e.Opened? && e.flow == i then args == map[]
      else
        && i < |n.notes.flows| && HasOrder(n.notes.flows[i])
        && (if Collects(e, i) then
              var told := ToldAbout(e.notes, e.raw);
              var before := n.notes.flows[i].draft.value.args;
              && TextAt(args, ProductId) == ProductAfter(told, TextAt(before, ProductId))
              && QuantityAt(args) == QuantityAfter(told, QuantityAt(before))
            else args == n.notes.flows[i].draft.value.args)
  }

  /** One event and what it does to the notes. */
  lemma SaidStep(n: Noted, e: Event, notes: Notes)
    requires Said(n) && (e.Called? && e.tool == CreateOrder ==> SaidBy(n.log, e.flow, e.args))
    requires forall i :: 0 <= i < |notes.flows| ==> Follows(n, e, notes, i)
    ensures Said(Noted(notes, n.log + [e]))
  {
    CallsAppend(n, e);
    assert (n.log + [e])[..|n.log|] == n.log;
    forall i | 0 <= i < |notes.flows| && HasOrder(notes.flows[i])
      ensures SaidBy(n.log + [e], i, notes.flows[i].draft.value.args)
    {
      assert Follows(n, e, notes, i);
    }
  }

  /** Notes whose order Drafts are the old ones. */
  lemma SaidStays(n: Noted, notes: Notes)
    requires Said(n)
    requires forall i :: 0 <= i < |notes.flows| && HasOrder(notes.flows[i]) ==>
               && i < |n.notes.flows| && HasOrder(n.notes.flows[i])
               && notes.flows[i].draft.value.args == n.notes.flows[i].draft.value.args
    ensures Said(Noted(notes, n.log))
  {
  }

  // ---- The nodes ----

  lemma GateSaid(st: Turn, a: Answers)
    requires Said(NotedOf(st))
    ensures Said(NotedOf(DraftGateNode(st, a)))
  {
    var next := DraftGateNode(st, a);
    if next.log != st.log {
      SaidStep(NotedOf(st), Cancelled(Find(st.notes, st.resolved).value), next.notes);
    }
  }

  lemma ResolverSaid(st: Turn, a: Answers)
    requires Said(NotedOf(st))
    ensures Said(NotedOf(FlowResolverNode(st, a)))
  {
    var next := FlowResolverNode(st, a);
    ResolverOnlyAdds(st, a);
    if next.log == st.log {
      ResolverKeepsArgs(st, a);
      SaidStays(NotedOf(st), next.notes);
    } else {
      var e := next.log[|st.log|];
      ResolverOpens(st, a);
      SaidStep(NotedOf(st), e, next.notes);
    }
  }

  lemma ResolverKeepsArgs(st: Turn, a: Answers)
    requires FlowResolverNode(st, a).log == st.log
    ensures var notes := FlowResolverNode(st, a).notes;
            forall i :: 0 <= i < |notes.flows| && HasOrder(notes.flows[i]) ==>
              && i < |st.notes.flows| && HasOrder(st.notes.flows[i])
              && notes.flows[i].draft.value.args == st.notes.flows[i].draft.value.args
  {
  }

  lemma ResolverOpens(st: Turn, a: Answers)
    requires FlowResolverNode(st, a).log != st.log && |FlowResolverNode(st, a).log| > |st.log|
    ensures var next := FlowResolverNode(st, a);
            forall i :: 0 <= i < |next.notes.flows| ==> Follows(NotedOf(st), next.log[|st.log|], next.notes, i)
  {
  }

  lemma ExtractSaid(key: NameKey, st: Turn, a: Answers)
    requires Said(NotedOf(st))
    ensures Said(NotedOf(ExtractNode(key, st, a)))
  {
    var to := ToCollect(st.notes, st.resolved);
    if to.Some? {
      var at := to.value;
      var e := HeededEvent(key, st.notes, at, a.heard);
      var notes := Collected(key, st.notes, at, a.heard, a.now);
      CollectFollows(key, NotedOf(st), at, a.heard, a.now);
      SaidStep(NotedOf(st), e, notes);
      var n := Noted(notes, st.log + [e]);
      if IsStuck(notes, st.resolved) {
        SaidStep(n, GaveUp(at), Closed(notes, st.resolved, a.now));
      }
    }
  }

  lemma CollectFollows(key: NameKey, n: Noted, at: nat, heard: Heard, now: int)
    requires at < |n.notes.flows| && n.notes.flows[at].draft.Some?
    ensures var e := HeededEvent(key, n.notes, at, heard);
            var notes := Collected(key, n.notes, at, heard, now);
            forall i :: 0 <= i < |notes.flows| ==> Follows(n, e, notes, i)
  {
    var draft := n.notes.flows[at].draft.value;
    if draft.tool == CreateOrder {
      CollectedOrder(key, n.notes, draft, heard);
    }
  }

  lemma CallingSaid(st: Turn, a: Answers)
    requires Said(NotedOf(st))
    ensures Said(NotedOf(CallingToolNode(st, a)))
  {
    var next := CallingToolNode(st, a);
    var at := Find(st.notes, st.resolved);
    var flow := ActiveFlow(st.notes, st.resolved);
    if at.Some? && st.notes.flows[at.value].draft.value.ready {
      var draft := st.notes.flows[at.value].draft.value;
      if !draft.tool.UnknownTool? {
        SendSaid(st, a, at.value);
        DigestSaid(SendDraft(st, a, at.value), flow, Outcome(Some(draft.tool), a.returned, a.callError), a.picked);
      }
    } else {
      var logged := if a.calls == [] || SkipsOrder(st, a) then st else st.Log(Direct(a.calls));
      if logged.log != st.log {
        SaidStep(NotedOf(st), Direct(a.calls), st.notes);
      }
      DigestSaid(logged, flow, OwnCalls(st, a), a.picked);
    }
  }

  lemma SendSaid(st: Turn, a: Answers, at: nat)
    requires Said(NotedOf(st)) && Find(st.notes, st.resolved) == Some(at)
    ensures Said(NotedOf(SendDraft(st, a, at)))
  {
    var draft := st.notes.flows[at].draft.value;
    var sent := SendDraft(st, a, at);
    var e := sent.log[|st.log|];
    if draft.tool == CreateOrder {
      assert HasOrder(st.notes.flows[at]) && SaidBy(st.log, at, draft.args);
      assert SaidBy(st.log, at, CallArgs(st.notes, draft));
    }
    SaidStep(NotedOf(st), e, sent.notes);
  }

  lemma DigestSaid(st: Turn, at: Option<nat>, outcome: Outcome, picked: nat)
    requires Said(NotedOf(st)) && (at.Some? ==> at.value < |st.notes.flows|)
    ensures Said(NotedOf(Digest(st, at, outcome, picked)))
  {
    var next := Digest(st, at, outcome, picked);
    forall i | 0 <= i < |st.notes.flows|
      ensures |next.notes.flows| == |st.notes.flows| && next.notes.flows[i].draft == st.notes.flows[i].draft
    {
      DigestKeepsDrafts(st, at, outcome, picked, i);
    }
    assert |next.notes.flows| == |st.notes.flows|;
    SaidStays(NotedOf(st), next.notes);
    DigestLog(st, at, outcome, picked);
    if next.log != st.log {
      SaidStep(Noted(next.notes, st.log), Shown(outcome.products), next.notes);
    }
  }

  // ---- A whole Turn, and every run ----

  ghost predicate SaidAt(start: Turn, n: Node, st: Turn) {
    if n == Hydrate then st == start else Said(NotedOf(st))
  }

  ghost predicate ConversationSaid(c: Conversation) {
    (c.store.Some? ==> Said(c.store.value)) && Said(c.checkpoint)
  }

  lemma SaidNodes(key: NameKey, store: Option<Noted>, n: Node, st: Turn, a: Answers)
    requires n != Hydrate && Said(NotedOf(st))
    ensures Said(NotedOf(Work(key, store, n, st, a)))
  {
    match n
    case DraftGate => GateSaid(st, a);
    case FlowResolver => ResolverSaid(st, a);
    case ExtractToolArgs => ExtractSaid(key, st, a);
    case CallingTool => CallingSaid(st, a);
    case _ =>
  }

  lemma HydrateSaid(c: Conversation, a: Answers)
    requires ConversationSaid(c)
    ensures Said(NotedOf(First(c, a)))
  {
    if c.store.Some? {
      SaidStays(c.store.value, EmptyNotes);
    }
    assert Said(Blank);
  }

  lemma SaidTurnStep(key: NameKey, c: Conversation, a: Answers, n: Node, st: Turn)
    requires ConversationSaid(c) && n != End && SaidAt(Begin(Revived(c, a), a), n, st)
    ensures var next := Work(key, c.store, n, st, a);
            SaidAt(Begin(Revived(c, a), a), Route(n, next), next)
  {
    EdgesFall();
    if n == Hydrate {
      HydrateSaid(c, a);
    } else {
      SaidNodes(key, c.store, n, st, a);
    }
  }

  lemma TurnKeepsSaid(key: NameKey, c: Conversation, a: Answers)
    requires ConversationSaid(c)
    ensures ConversationSaid(AfterTurn(key, c, a))
  {
    EdgesFall();
    var start := Begin(Revived(c, a), a);
    var work, fails := WorkOf(key, c.store, a), FailsOf(a);
    var inv := (n: Node, st: Turn) => SaidAt(start, n, st);
    forall n: Node, st: Turn | n != End && inv(n, st) && !fails(n, st)
      ensures inv(Route(n, work(n, st)), work(n, st))
    {
      SaidTurnStep(key, c, a, n, st);
    }
    Holds(work, Route, fails, inv, Hydrate, start);
    var done := TakeTurn(key, c, a);
    assert Said(Blank) && Said(NotedOf(start));
    assert Said(NotedOf(done.st));
    SaidStep(NotedOf(done.st), Raised, done.st.notes);
  }

  lemma {:induction false} RunKeepsSaid(key: NameKey, c: Conversation, turns: seq<Answers>)
    requires ConversationSaid(c)
    ensures ConversationSaid(AfterTurns(key, c, turns))
    decreases |turns|
  {
    if turns != [] {
      TurnKeepsSaid(key, c, turns[0]);
      RunKeepsSaid(key, AfterTurn(key, c, turns[0]), turns[1..]);
    }
  }

  /**
   * In every run, whatever the LLM answers, the product of an order sent from a Draft is the last known product heard
   * since the Draft was opened, or the product selected when none was known, and its quantity is the last whole number
   * heard as the quantity.
   */
  lemma SentAsSaid(key: NameKey, turns: seq<Answers>, n: Noted, i: nat)
    requires KeptAfter(key, turns, n) && i < |n.log| && n.log[i].Called? && n.log[i].tool == CreateOrder
    ensures TextAt(n.log[i].args, ProductId) == ProductSaid(n.log[..i], n.log[i].flow)
    ensures QuantityAt(n.log[i].args) == QuantitySaid(n.log[..i], n.log[i].flow)
  {
    RunKeepsSaid(key, NewConversation, turns);
  }

  /** The same for every order Draft that is still open. */
  lemma DraftAsSaid(key: NameKey, turns: seq<Answers>, n: Noted, f: nat)
    requires KeptAfter(key, turns, n) && f < |n.notes.flows| && HasOrder(n.notes.flows[f])
    ensures SaidBy(n.log, f, n.notes.flows[f].draft.value.args)
  {
    RunKeepsSaid(key, NewConversation, turns);
  }
}
