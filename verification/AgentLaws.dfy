/**
 * The promises of the agent, stated for every run from a new Conversation
 * (ecom_agent/drafts.py, ecom_agent/nodes, CONTEXT.md).
 */
module AgentLaws {
  import opened Wrappers
  import opened AgentNotes
  import opened Drafts
  import opened AgentGraph
  import opened AgentTurn
  import opened AgentRuns

  /** `n` are notes the Conversation still has after these Turns, in the store or in the checkpoint. */
  ghost predicate KeptAfter(key: NameKey, turns: seq<Answers>, n: Noted) {
    var c := AfterTurns(key, NewConversation, turns);
    c.checkpoint == n || c.store == Some(n)
  }

  lemma KeptIsCalm(key: NameKey, turns: seq<Answers>, n: Noted)
    requires KeptAfter(key, turns, n)
    ensures Calm(key, n)
  {
    BlankIsCalm(key, []);
    RunKeepsSound(key, NewConversation, turns);
  }

  lemma KeptCall(key: NameKey, turns: seq<Answers>, n: Noted, i: nat)
    requires KeptAfter(key, turns, n) && i < |n.log|
    ensures CallLaw(key, n.log, i) && StallLaw(n.log, i)
  {
    KeptIsCalm(key, turns, n);
  }

  // ---- The order that is sent ----

  /**
   * Whatever the LLM answers, an order sent from a Draft has a product, a whole quantity, a wilaya, a commune and
   * a street, and no error is pending on it.
   */
  lemma SentOrdersAreComplete(key: NameKey, turns: seq<Answers>, n: Noted, i: nat)
    requires KeptAfter(key, turns, n) && i < |n.log| && n.log[i].Called? && n.log[i].tool == CreateOrder
    ensures var e := n.log[i];
            && TextAt(e.args, ProductId) != ""
            && Quantity in e.args && e.args[Quantity].Whole?
            && TextAt(e.args, Wilaya) != "" && TextAt(e.args, Commune) != "" && TextAt(e.args, Street) != ""
            && e.pending == ""
  {
    KeptCall(key, turns, n, i);
  }

  lemma {:induction false} ShownIdsMeaning(log: seq<Event>, id: string)
    requires id in ShownIds(log)
    ensures exists j, p :: 0 <= j < |log| && log[j].Shown? && p in log[j].products && p.id == id
  {
    var last := |log| - 1;
    if id in ShownIds(log[..last]) {
      ShownIdsMeaning(log[..last], id);
      var j, p :| 0 <= j < last && log[..last][j].Shown? && p in log[..last][j].products && p.id == id;
      assert log[j].Shown? && p in log[j].products;
    }
  }

  /** The product of a sent order was returned by a product tool before, in the same Conversation. */
  lemma SentProductWasShown(key: NameKey, turns: seq<Answers>, n: Noted, i: nat)
    requires KeptAfter(key, turns, n) && i < |n.log| && n.log[i].Called? && n.log[i].tool == CreateOrder
    ensures exists j, p :: 0 <= j < i && n.log[j].Shown? && p in n.log[j].products
              && p.id == TextAt(n.log[i].args, ProductId)
  {
    KeptCall(key, turns, n, i);
    ShownIdsMeaning(n.log[..i], TextAt(n.log[i].args, ProductId));
    var j, p :| 0 <= j < i && n.log[..i][j].Shown? && p in n.log[..i][j].products
      && p.id == TextAt(n.log[i].args, ProductId);
    assert n.log[j].Shown? && p in n.log[j].products;
  }

  /** The same for the product of an order Draft, and at most one flow has a selected product. */
  lemma DraftProductWasShown(key: NameKey, turns: seq<Answers>, n: Noted, f: nat)
    requires KeptAfter(key, turns, n)
    ensures OneSelected(n.notes)
    ensures f < |n.notes.flows| && HasOrder(n.notes.flows[f]) && ProductId in n.notes.flows[f].draft.value.args ==>
              exists j, p :: 0 <= j < |n.log| && n.log[j].Shown? && p in n.log[j].products
                && p.id == TextAt(n.notes.flows[f].draft.value.args, ProductId)
  {
    KeptIsCalm(key, turns, n);
    if f < |n.notes.flows| && HasOrder(n.notes.flows[f]) && ProductId in n.notes.flows[f].draft.value.args {
      assert FlowSound(key, n, f);
      ShownIdsMeaning(n.log, TextAt(n.notes.flows[f].draft.value.args, ProductId));
    }
  }

  /**
   * With one order Draft at a time, the street of a sent order was given in or after the last message that
   * replaced a known wilaya or commune (other than the commune of an order that had failed), and the wilaya and
   * commune of the order are the ones saved in the notes.
   */
  lemma SentStreetIsStillGood(key: NameKey, turns: seq<Answers>, n: Noted, i: nat)
    requires KeptAfter(key, turns, n) && i < |n.log| && n.log[i].Called? && n.log[i].tool == CreateOrder
    requires OneOrderAtATime(n.log[..i])
    ensures exists j :: 0 <= j < i && n.log[j].Heeded? && n.log[j].street == Some(TextAt(n.log[i].args, Street))
              && forall k :: j < k < i ==> !Relocated(n.log[k])
    ensures SamePlace(key, n.log[i].args, n.log[i].saved)
  {
    KeptCall(key, turns, n, i);
    var before := n.log[..i];
    var j: nat :| FreshSince(before, TextAt(n.log[i].args, Street), j);
    assert n.log[j] == before[j];
    forall k | j < k < i ensures !Relocated(n.log[k]) {
      assert n.log[k] == before[k];
    }
  }

  /** In no run, raises included, is an order Draft left ready. */
  lemma NoOrderLeftReady(key: NameKey, turns: seq<Answers>, n: Noted, f: nat)
    requires KeptAfter(key, turns, n) && f < |n.notes.flows|
    ensures !(HasOrder(n.notes.flows[f]) && n.notes.flows[f].draft.value.ready)
  {
    KeptIsCalm(key, turns, n);
    assert !ReadyOrder(n.notes.flows[f]);
  }

  // ---- Stalled Turns ----

  predicate Stall(e: Event, f: nat) {
    e.Heeded? && e.flow == f && !e.changed
  }

  /** Something new came in for the Draft of flow `f`, or the Draft itself is new. */
  predicate Progress(e: Event, f: nat) {
    (e.Opened? && e.flow == f) || (e.Heeded? && e.flow == f && e.changed)
  }

  lemma {:induction false} StallsNeverDrop(log: seq<Event>, f: nat, a: nat, b: nat)
    requires a <= b <= |log| && forall k :: a <= k < b ==> !Progress(log[k], f)
    ensures Stalls(log[..a], f) <= Stalls(log[..b], f)
    decreases b - a
  {
    if a < b {
      StallsNeverDrop(log, f, a, b - 1);
      assert log[..b][..b - 1] == log[..b - 1];
    }
  }

  lemma OneMoreStall(log: seq<Event>, f: nat, i: nat)
    requires i < |log| && Stall(log[i], f)
    ensures Stalls(log[..i + 1], f) == Stalls(log[..i], f) + 1
  {
    assert log[..i + 1][..i] == log[..i];
  }

  lemma ThreeStalls(log: seq<Event>, f: nat, i1: nat, i2: nat, i3: nat)
    requires i1 < i2 < i3 < |log| && Stall(log[i1], f) && Stall(log[i2], f) && Stall(log[i3], f)
    requires forall k :: i1 < k < i3 ==> !Progress(log[k], f)
    ensures ThirdStall(log, i3)
  {
    OneMoreStall(log, f, i1);
    StallsNeverDrop(log, f, i1 + 1, i2);
    OneMoreStall(log, f, i2);
    StallsNeverDrop(log, f, i2 + 1, i3);
    OneMoreStall(log, f, i3);
  }

  /**
   * A Draft collected three times in a row with nothing new does not go on collecting: the very next event is
   * that it is handed to a human, that it is sent, or that its Turn raised.
   */
  lemma StalledDraftEnds(key: NameKey, turns: seq<Answers>, n: Noted, f: nat, i1: nat, i2: nat, i3: nat)
    requires KeptAfter(key, turns, n) && i1 < i2 < i3 < |n.log|
    requires Stall(n.log[i1], f) && Stall(n.log[i2], f) && Stall(n.log[i3], f)
    requires forall k :: i1 < k < i3 ==> !Progress(n.log[k], f)
    ensures i3 + 1 < |n.log|
    ensures var e := n.log[i3 + 1]; (e.GaveUp? && e.flow == f) || (e.Called? && e.flow == f) || e.Raised?
  {
    KeptCall(key, turns, n, i3);
    ThreeStalls(n.log, f, i1, i2, i3);
  }

  // ---- No Draft is left ready ----

  ghost predicate NoneReady(notes: Notes) {
    forall i :: 0 <= i < |notes.flows| ==> !HasReady(notes.flows[i])
  }

  /** Only the Draft that is about to be sent may be ready. */
  ghost predicate ReadyToSend(st: Turn) {
    forall i :: 0 <= i < |st.notes.flows| && HasReady(st.notes.flows[i]) ==>
      Find(st.notes, st.resolved) == Some(i) && !st.notes.flows[i].draft.value.tool.UnknownTool?
  }

  ghost predicate ReadyAt(start: Turn, n: Node, st: Turn) {
    match n
    case Hydrate => st == start
    case CallingTool => ReadyToSend(st)
    case Escalate => NoneReady(st.notes)
    case Reply => NoneReady(st.notes)
    case AskReply => NoneReady(st.notes)
    case Persist => NoneReady(st.notes)
    case End => NoneReady(st.notes)
    case _ => NoneReady(st.notes) && !st.escalation
  }

  lemma ExtractReady(key: NameKey, st: Turn, a: Answers)
    requires NoneReady(st.notes)
    ensures var next := ExtractNode(key, st, a);
            && ReadyToSend(next)
            && (next.escalation && !st.escalation ==> NoneReady(next.notes))
            && (StateOf(next.notes, next.resolved) != Ready ==> NoneReady(next.notes))
  {
    var at := ToCollect(st.notes, st.resolved);
    if at.Some? {
      var intake := TakeIn(key, st.notes, st.notes.flows[at.value].draft.value, a.heard);
      FindAfterPut(st.notes, st.resolved, at.value, Some(intake.draft), a.now, intake.address);
    }
  }

  lemma DigestKeepsDrafts(st: Turn, at: Option<nat>, outcome: Outcome, picked: nat, i: nat)
    requires at.Some? ==> at.value < |st.notes.flows|
    requires i < |st.notes.flows|
    ensures var next := Digest(st, at, outcome, picked);
            |next.notes.flows| == |st.notes.flows| && next.notes.flows[i].draft == st.notes.flows[i].draft
  {
  }

  lemma DigestLeavesNone(st: Turn, at: Option<nat>, outcome: Outcome, picked: nat)
    requires NoneReady(st.notes) && (at.Some? ==> at.value < |st.notes.flows|)
    ensures NoneReady(Digest(st, at, outcome, picked).notes)
  {
    forall i | 0 <= i < |Digest(st, at, outcome, picked).notes.flows|
      ensures !HasReady(Digest(st, at, outcome, picked).notes.flows[i])
    {
      if i < |st.notes.flows| {
        DigestKeepsDrafts(st, at, outcome, picked, i);
      }
    }
  }

  lemma CallingLeavesNone(st: Turn, a: Answers)
    requires ReadyToSend(st)
    ensures NoneReady(CallingToolNode(st, a).notes)
  {
    var at := Find(st.notes, st.resolved);
    var flow := ActiveFlow(st.notes, st.resolved);
    if at.Some? && st.notes.flows[at.value].draft.value.ready {
      var tool := st.notes.flows[at.value].draft.value.tool;
      DigestLeavesNone(SendDraft(st, a, at.value), flow, Outcome(Some(tool), a.returned, a.callError), a.picked);
    } else if a.calls == [] || SkipsOrder(st, a) {
      DigestLeavesNone(st, flow, OwnCalls(st, a), a.picked);
    } else {
      DigestLeavesNone(st.Log(Direct(a.calls)), flow, OwnCalls(st, a), a.picked);
    }
  }

  lemma ResolverOpensNoReady(st: Turn, a: Answers)
    requires NoneReady(st.notes)
    ensures NoneReady(FlowResolverNode(st, a).notes)
  {
  }

  /** The notes the nodes after hydrate start from. */
  function Hydrated(c: Conversation, a: Answers): Notes {
    HydrateNode(c.store, Begin(Revived(c, a), a), a).notes
  }

  lemma ReadyStep(key: NameKey, c: Conversation, a: Answers, n: Node, st: Turn)
    requires NoneReady(Hydrated(c, a)) && n != End && ReadyAt(Begin(Revived(c, a), a), n, st)
    ensures var next := Work(key, c.store, n, st, a);
            ReadyAt(Begin(Revived(c, a), a), Route(n, next), next)
  {
    match n
    case Hydrate =>
    case DraftGate =>
    case FlowResolver =>
      ResolverOpensNoReady(st, a);
      ResolverKeepsEscalation(st, a);
    case ExtractToolArgs => ExtractReady(key, st, a);
    case CallingTool => CallingLeavesNone(st, a);
    case _ =>
  }

  ghost predicate LeavesNoneReady(key: NameKey, c: Conversation, a: Answers) {
    !TakeTurn(key, c, a).raised ==> NoneReady(TakeTurn(key, c, a).st.notes)
  }

  /** A Turn that ends leaves no Draft ready, if it found none ready. */
  lemma NoDraftLeftReady(key: NameKey, c: Conversation, a: Answers)
    requires NoneReady(Hydrated(c, a))
    ensures LeavesNoneReady(key, c, a)
  {
    EdgesFall();
    var start := Begin(Revived(c, a), a);
    var work, fails := WorkOf(key, c.store, a), FailsOf(a);
    var inv := (n: Node, st: Turn) => ReadyAt(start, n, st);
    forall n: Node, st: Turn | n != End && inv(n, st) && !fails(n, st)
      ensures inv(Route(n, work(n, st)), work(n, st))
    {
      ReadyStep(key, c, a, n, st);
    }
    Holds(work, Route, fails, inv, Hydrate, start);
  }

  /** The same Turn when nothing raises and the customer only wants to chat. */
  function Chat(a: Answers): Answers {
    a.(direction := Normal, needsTool := false, raisesAt := None)
  }

  /** Such a Turn goes from check_llm straight to the reply and changes no notes. */
  lemma ChatChangesNothing(key: NameKey, c: Conversation, a: Answers)
    ensures var done := TakeTurn(key, c, Chat(a));
            !done.raised && done.st.notes == Hydrated(c, a)
  {
    EdgesFall();
    var b := Chat(a);
    var work, fails := WorkOf(key, c.store, b), FailsOf(b);
    var s0 := Begin(Revived(c, b), b);
    var s1 := work(Hydrate, s0);
    var s2 := work(DraftGate, s1);
    var s3 := work(CheckLlm, s2);
    var s4 := work(Reply, s3);
    assert s1.notes == Hydrated(c, a) && s2.notes == s1.notes && s3.notes == s1.notes && s4.notes == s1.notes;
    Onward(work, Route, fails, Hydrate, s0);
    Onward(work, Route, fails, DraftGate, s1);
    Onward(work, Route, fails, CheckLlm, s2);
    Onward(work, Route, fails, Reply, s3);
    Onward(work, Route, fails, Persist, s4);
  }

  /**
   * "No Draft is left ready when a Turn ends" holds for every continuation of a Conversation exactly when the
   * notes the Turn loads hold no ready Draft.
   */
  lemma LeftReadyExactlyWhenLoadedReady(key: NameKey, c: Conversation, a: Answers)
    ensures NoneReady(Hydrated(c, a)) <==>
            forall b: Answers | b.restarted == a.restarted && b.unreadable == a.unreadable :: LeavesNoneReady(key, c, b)
  {
    if NoneReady(Hydrated(c, a)) {
      forall b: Answers | b.restarted == a.restarted && b.unreadable == a.unreadable
        ensures LeavesNoneReady(key, c, b)
      {
        assert Hydrated(c, b) == Hydrated(c, a);
        NoDraftLeftReady(key, c, b);
      }
    } else {
      ChatChangesNothing(key, c, a);
      assert Chat(a).restarted == a.restarted && Chat(a).unreadable == a.unreadable;
      assert !LeavesNoneReady(key, c, Chat(a));
    }
  }

  /** No Turn raises while the store still has no row for the Conversation. */
  ghost predicate NoEarlyRaise(key: NameKey, c: Conversation, turns: seq<Answers>)
    decreases |turns|
  {
    turns == [] ||
    (&& (TakeTurn(key, c, turns[0]).raised ==> c.store.Some?)
     && NoEarlyRaise(key, AfterTurn(key, c, turns[0]), turns[1..]))
  }

  /** In every run without such a raise, the stored notes never hold a ready Draft. */
  lemma {:induction false} StoredNotesAreNeverReady(key: NameKey, c: Conversation, turns: seq<Answers>)
    requires NoEarlyRaise(key, c, turns)
    requires if c.store.Some? then NoneReady(c.store.value.notes) else NoneReady(c.checkpoint.notes)
    ensures var after := AfterTurns(key, c, turns);
            if after.store.Some? then NoneReady(after.store.value.notes) else NoneReady(after.checkpoint.notes)
    decreases |turns|
  {
    if turns != [] {
      var a := turns[0];
      assert NoneReady(Hydrated(c, a));
      NoDraftLeftReady(key, c, a);
      StoredNotesAreNeverReady(key, AfterTurn(key, c, a), turns[1..]);
    }
  }

  // ---- ... and a run in which one is ----

  const PRODUCT := OtherField("product")

  /** A product search whose answer calling_tool cannot read. */
  predicate UnreadableSearch(a: Answers) {
    && !a.restarted && a.needsTool && a.wanted == Some(SearchProducts)
    && !a.buys && a.choice == Some(SearchProducts) && !a.proposesNewTool
    && a.action == CreateFlow && a.newFlowId != ""
    && PRODUCT in a.heard.args && a.heard.args[PRODUCT].Some?
    && !a.heard.args[PRODUCT].value.empty && a.heard.args[PRODUCT].value.text != ""
    && a.raisesAt == Some(CallingTool)
  }

  lemma ThereIsAnUnreadableSearch()
    ensures exists a :: UnreadableSearch(a)
  {
    var a :=
      Answers("shoes", false, false, [], Normal, "",
              Heard(map[PRODUCT := Some(Raw(false, "shoes", None, None, None))], map[]), "",
              true, Some(SearchProducts), "", false, Some(SearchProducts), false, CreateFlow, None, "f", [], [], "", 0,
              "", [], "", 0, Some(CallingTool));
    assert UnreadableSearch(a);
  }

  /** A new flow whose search Draft is still empty. */
  ghost predicate SearchOpened(st: Turn, a: Answers) {
    && |st.notes.flows| == 1 && st.notes.flows[0].id == a.newFlowId
    && st.notes.flows[0].draft == Some(NewDraft(SearchProducts))
    && st.resolved == Some(a.newFlowId) && !st.escalation && st.action == Some(CreateFlow)
  }

  lemma SearchOpensDraft(st: Turn, a: Answers)
    requires UnreadableSearch(a) && st.notes == EmptyNotes && st.tool == Some(SearchProducts) && !st.escalation
    ensures SearchOpened(FlowResolverNode(st, a), a) && Route(FlowResolver, FlowResolverNode(st, a)) == ExtractToolArgs
  {
    assert FlowAt(FlowResolverNode(st, a).notes.flows, a.newFlowId) == Some(0);
  }

  lemma SearchIsReady(key: NameKey, st: Turn, a: Answers)
    requires UnreadableSearch(a) && SearchOpened(st, a)
    ensures var next := ExtractNode(key, st, a);
            && |next.notes.flows| == 1 && HasReady(next.notes.flows[0])
            && AfterExtract(next) == CallingTool && MayRaise(CallingTool, next)
  {
    assert FlowAt(st.notes.flows, a.newFlowId) == Some(0);
    var intake := TakeIn(key, st.notes, NewDraft(SearchProducts), a.heard);
    HeardSearchIsReady(key, st.notes, a);
    FindAfterPut(st.notes, st.resolved, 0, Some(intake.draft), a.now, intake.address);
  }

  lemma HeardSearchIsReady(key: NameKey, notes: Notes, a: Answers)
    requires UnreadableSearch(a)
    ensures var draft := TakeIn(key, notes, NewDraft(SearchProducts), a.heard).draft;
            draft.ready && draft.tool == SearchProducts
  {
    var args := TakenArgs(key, notes, NewDraft(SearchProducts), a.heard);
    assert Coerce(a.heard.args, SearchProducts)[PRODUCT] == Text(a.heard.args[PRODUCT].value.text);
    assert !IsMissing(args, PRODUCT);
    assert Required(SearchProducts) == [PRODUCT] && [PRODUCT][1..] == [];
    assert Missing(args, [PRODUCT]) == [] + Missing(args, []);
  }

  /** The first four nodes of such a Turn, from a Conversation that has no row yet. */
  lemma SearchReachesResolver(key: NameKey, a: Answers)
    requires UnreadableSearch(a)
    ensures var work, fails := WorkOf(key, None, a), FailsOf(a);
            Falls(Route) &&
            exists st: Turn ::
              && st.notes == EmptyNotes && st.tool == Some(SearchProducts) && !st.escalation
              && TakeTurn(key, NewConversation, a).st == Go(work, Route, fails, FlowResolver, st).st
              && TakeTurn(key, NewConversation, a).raised == Go(work, Route, fails, FlowResolver, st).raised
  {
    EdgesFall();
    var work, fails := WorkOf(key, None, a), FailsOf(a);
    var s0 := Begin(NewConversation, a);
    var s1 := work(Hydrate, s0);
    var s2 := work(DraftGate, s1);
    var s3 := work(CheckLlm, s2);
    var s4 := work(QueryTool, s3);
    Onward(work, Route, fails, Hydrate, s0);
    Onward(work, Route, fails, DraftGate, s1);
    Onward(work, Route, fails, CheckLlm, s2);
    Onward(work, Route, fails, QueryTool, s3);
    assert s4.notes == EmptyNotes && s4.tool == Some(SearchProducts) && !s4.escalation;
  }

  ghost predicate EndsReady(done: Finish<Turn>) {
    done.raised && |done.st.notes.flows| == 1 && HasReady(done.st.notes.flows[0])
  }

  lemma ExtractThenRaise(key: NameKey, a: Answers, st: Turn)
    requires UnreadableSearch(a) && SearchOpened(st, a) && Falls(Route)
    ensures EndsReady(Go(WorkOf(key, None, a), Route, FailsOf(a), ExtractToolArgs, st))
  {
    SearchIsReady(key, st, a);
    ReadyThenRaise(key, a, st, ExtractNode(key, st, a));
  }

  lemma ReadyThenRaise(key: NameKey, a: Answers, st: Turn, next: Turn)
    requires Falls(Route) && a.raisesAt == Some(CallingTool) && next == ExtractNode(key, st, a)
    requires AfterExtract(next) == CallingTool && MayRaise(CallingTool, next)
    requires |next.notes.flows| == 1 && HasReady(next.notes.flows[0])
    ensures EndsReady(Go(WorkOf(key, None, a), Route, FailsOf(a), ExtractToolArgs, st))
  {
    RaisesAfter(key, a, ExtractToolArgs, st, CallingTool, next);
  }

  lemma RaisesAfter(key: NameKey, a: Answers, n: Node, st: Turn, m: Node, next: Turn)
    requires Falls(Route) && n != End && m != End && n != m && a.raisesAt == Some(m)
    requires next == Work(key, None, n, st, a) && Route(n, next) == m && MayRaise(m, next)
    ensures var done := Go(WorkOf(key, None, a), Route, FailsOf(a), n, st); done.raised && done.st == next
  {
    OnwardToRaise(WorkOf(key, None, a), Route, FailsOf(a), n, st);
  }

  lemma ResolveThenRaise(key: NameKey, a: Answers, st: Turn)
    requires UnreadableSearch(a) && Falls(Route)
    requires st.notes == EmptyNotes && st.tool == Some(SearchProducts) && !st.escalation
    ensures EndsReady(Go(WorkOf(key, None, a), Route, FailsOf(a), FlowResolver, st))
  {
    var next := FlowResolverNode(st, a);
    SearchOpensDraft(st, a);
    ExtractThenRaise(key, a, next);
    Onward(WorkOf(key, None, a), Route, FailsOf(a), FlowResolver, st);
    assert WorkOf(key, None, a)(FlowResolver, st) == next && Route(FlowResolver, next) == ExtractToolArgs;
  }

  lemma SearchRaises(key: NameKey, a: Answers)
    requires UnreadableSearch(a)
    ensures EndsReady(TakeTurn(key, NewConversation, a))
  {
    SearchReachesResolver(key, a);
    var work, fails := WorkOf(key, None, a), FailsOf(a);
    var st: Turn :|
      && st.notes == EmptyNotes && st.tool == Some(SearchProducts) && !st.escalation
      && TakeTurn(key, NewConversation, a).st == Go(work, Route, fails, FlowResolver, st).st
      && TakeTurn(key, NewConversation, a).raised == Go(work, Route, fails, FlowResolver, st).raised;
    ResolveThenRaise(key, a, st);
  }

  /**
   * When the very first Turn of a Conversation raises, its half-done notes stay in the checkpoint; the next Turn
   * starts from them and can store a Draft that is still ready.
   */
  lemma EarlyRaiseLeavesReady(key: NameKey, a: Answers)
    requires UnreadableSearch(a)
    ensures var c := AfterTurn(key, AfterTurn(key, NewConversation, a), Chat(a));
            c.store.Some? && !NoneReady(c.store.value.notes)
  {
    SearchRaises(key, a);
    var c := AfterTurn(key, NewConversation, a);
    ChatChangesNothing(key, c, a);
    assert HasReady(Hydrated(c, a).flows[0]);
  }

  // ---- The order Draft survives ----

  /** The Draft of flow `f` ended for a reason: cancelled, sent with success, or handed to a human. */
  predicate Ends(e: Event, f: nat) {
    match e
    case Cancelled(g) => g == f
    case GaveUp(g) => g == f
    case Called(g, tool, _, _, _, ok) => g == f && tool == CreateOrder && ok
    case _ => false
  }

  ghost predicate EndedSince(from: seq<Event>, log: seq<Event>, f: nat) {
    exists i :: |from| <= i < |log| && Ends(log[i], f)
  }

  /** Flow `f` holds an order Draft, unless one of the events since `log` ended it: then it holds none at all. */
  ghost predicate Survives(f: nat, log: seq<Event>, st: Turn) {
    && f < |st.notes.flows|
    && log <= st.log
    && (if EndedSince(log, st.log, f) then st.notes.flows[f].draft.None? else HasOrder(st.notes.flows[f]))
  }

  /** Up to flow_resolver the flow with the order is also the active one. */
  ghost predicate SurvivesAt(f: nat, start: Turn, first: Turn, n: Node, st: Turn) {
    match n
    case Hydrate => st == start
    case DraftGate => st == first
    case CheckLlm => st.notes == first.notes && st.log == first.log && st.resolved == None
    case QueryTool => st.notes == first.notes && st.log == first.log && st.resolved == None
    case FlowResolver => st.notes == first.notes && st.log == first.log && st.resolved == None
    case _ => Survives(f, first.log, st)
  }

  lemma EndsOnce(from: seq<Event>, log: seq<Event>, e: Event, f: nat)
    requires from <= log
    ensures EndedSince(from, log + [e], f) <==> EndedSince(from, log, f) || Ends(e, f)
  {
    assert (log + [e])[|log|] == e;
    assert forall i :: 0 <= i < |log| ==> (log + [e])[i] == log[i];
  }

  lemma LogKeepsSurvival(f: nat, log: seq<Event>, st: Turn, e: Event)
    requires Survives(f, log, st) && !Ends(e, f)
    ensures Survives(f, log, st.Log(e))
  {
    EndsOnce(log, st.log, e, f);
  }

  /** An event that ends the Draft comes with its removal, any other leaves the flow's Draft alone or as an order. */
  lemma EndKeepsSurvival(f: nat, log: seq<Event>, st: Turn, e: Event, notes: Notes)
    requires Survives(f, log, st) && f < |notes.flows|
    requires Ends(e, f) ==> notes.flows[f].draft.None?
    requires !Ends(e, f) ==>
               && (HasOrder(st.notes.flows[f]) ==> HasOrder(notes.flows[f]))
               && (st.notes.flows[f].draft.None? ==> notes.flows[f].draft.None?)
    ensures Survives(f, log, st.Log(e).(notes := notes))
  {
    EndsOnce(log, st.log, e, f);
  }

  lemma SameDraftsSurvive(f: nat, log: seq<Event>, st: Turn, notes: Notes)
    requires Survives(f, log, st) && f < |notes.flows| && notes.flows[f].draft == st.notes.flows[f].draft
    ensures Survives(f, log, st.(notes := notes))
  {
  }

  lemma GateSurvival(f: nat, st: Turn, a: Answers)
    requires Survives(f, st.log, st) && Find(st.notes, None) == Some(f) && st.resolved == None
    ensures var next := DraftGateNode(st, a);
            && Survives(f, st.log, next)
            && (next.direction == Cancel || (next.notes == st.notes && next.log == st.log && next.resolved == None))
  {
    if StateOf(st.notes, st.resolved) == Collecting && a.direction == Cancel {
      EndKeepsSurvival(f, st.log, st, Cancelled(f), Closed(st.notes, st.resolved, a.now));
    }
  }

  lemma ExtractSurvival(key: NameKey, f: nat, log: seq<Event>, st: Turn, a: Answers)
    requires Survives(f, log, st)
    ensures Survives(f, log, ExtractNode(key, st, a))
  {
    var to := ToCollect(st.notes, st.resolved);
    if to.Some? {
      var at := to.value;
      var e := HeededEvent(key, st.notes, at, a.heard);
      var notes := Collected(key, st.notes, at, a.heard, a.now);
      CollectedKeepsOrder(key, st.notes, st.resolved, f, a.heard, a.now);
      EndKeepsSurvival(f, log, st, e, notes);
      var heeded := st.Log(e).(notes := notes);
      if IsStuck(notes, st.resolved) {
        ClosedSurvival(f, log, heeded, st.resolved, at, a.now);
      }
    }
  }

  lemma CollectedKeepsOrder(key: NameKey, notes: Notes, resolved: Option<string>, f: nat, heard: Heard, now: int)
    requires ToCollect(notes, resolved).Some? && f < |notes.flows|
    ensures var at := ToCollect(notes, resolved).value;
            var after := Collected(key, notes, at, heard, now);
            && |after.flows| == |notes.flows| && Find(after, resolved) == Some(at)
            && (HasOrder(notes.flows[f]) ==> HasOrder(after.flows[f]))
            && (f != at ==> after.flows[f] == notes.flows[f])
  {
    var at := ToCollect(notes, resolved).value;
    var intake := TakeIn(key, notes, notes.flows[at].draft.value, heard);
    FindAfterPut(notes, resolved, at, Some(intake.draft), now, intake.address);
  }

  /** A Draft given up accounts for its own end. */
  lemma ClosedSurvival(f: nat, log: seq<Event>, st: Turn, resolved: Option<string>, at: nat, now: int)
    requires Survives(f, log, st) && Find(st.notes, resolved) == Some(at)
    ensures Survives(f, log, st.Log(GaveUp(at)).(notes := Closed(st.notes, resolved, now)))
  {
    EndKeepsSurvival(f, log, st, GaveUp(at), Closed(st.notes, resolved, now));
  }

  lemma StartedKeepsOrder(flow: Flow, tool: Option<Tool>)
    requires HasOrder(flow) && (tool.Some? ==> tool.value == CreateOrder)
    ensures Started(flow, tool) == flow
  {
  }

  /** A side tool never replaces the order Draft of the active flow. */
  lemma ResolverSurvival(f: nat, log: seq<Event>, st: Turn, a: Answers)
    requires Survives(f, log, st) && Find(st.notes, None) == Some(f) && HasOrder(st.notes.flows[f])
    ensures Survives(f, log, FlowResolverNode(st, a))
  {
    ResolverKeepsOrder(f, st, a);
    ResolverOnlyAdds(st, a);
    var next := FlowResolverNode(st, a);
    if next.log != st.log {
      EndsOnce(log, st.log, next.log[|st.log|], f);
    }
  }

  lemma ResolverKeepsOrder(f: nat, st: Turn, a: Answers)
    requires Find(st.notes, None) == Some(f) && HasOrder(st.notes.flows[f])
    ensures var next := FlowResolverNode(st, a); f < |next.notes.flows| && HasOrder(next.notes.flows[f])
  {
    if !RunsOnTheSide(st) {
      StartedKeepsOrder(st.notes.flows[f], st.tool);
    }
  }

  lemma ResolverOnlyAdds(st: Turn, a: Answers)
    ensures var log := FlowResolverNode(st, a).log;
            log == st.log || (|log| == |st.log| + 1 && log == st.log + [log[|st.log|]] && log[|st.log|].Opened?)
  {
  }

  lemma DigestSurvival(f: nat, log: seq<Event>, st: Turn, at: Option<nat>, outcome: Outcome, picked: nat)
    requires Survives(f, log, st) && (at.Some? ==> at.value < |st.notes.flows|)
    ensures Survives(f, log, Digest(st, at, outcome, picked))
  {
    var next := Digest(st, at, outcome, picked);
    DigestKeepsDrafts(st, at, outcome, picked, f);
    SameDraftsSurvive(f, log, st, next.notes);
    if next.log != st.log {
      LogKeepsSurvival(f, log, st.(notes := next.notes), Shown(outcome.products));
    }
  }

  lemma CallingSurvival(f: nat, log: seq<Event>, st: Turn, a: Answers)
    requires Survives(f, log, st)
    ensures Survives(f, log, CallingToolNode(st, a))
  {
    var at := Find(st.notes, st.resolved);
    var flow := ActiveFlow(st.notes, st.resolved);
    if at.Some? && st.notes.flows[at.value].draft.value.ready {
      var draft := st.notes.flows[at.value].draft.value;
      var sent := SendDraft(st, a, at.value);
      EndKeepsSurvival(f, log, st, sent.log[|st.log|], sent.notes);
      DigestSurvival(f, log, sent, flow, Outcome(Some(draft.tool), a.returned, a.callError), a.picked);
    } else if a.calls == [] || SkipsOrder(st, a) {
      DigestSurvival(f, log, st, flow, OwnCalls(st, a), a.picked);
    } else {
      var e := Direct(a.calls);
      LogKeepsSurvival(f, log, st, e);
      DigestSurvival(f, log, st.Log(e), flow, OwnCalls(st, a), a.picked);
    }
  }

  /** The state after hydrate. */
  function First(c: Conversation, a: Answers): Turn {
    HydrateNode(c.store, Begin(Revived(c, a), a), a)
  }

  predicate Late(n: Node) {
    n != Hydrate && n != DraftGate && n != CheckLlm && n != QueryTool && n != End
  }

  lemma LateEdge(f: nat, start: Turn, first: Turn, n: Node, next: Turn)
    requires Late(n) && Survives(f, first.log, next)
    ensures SurvivesAt(f, start, first, Route(n, next), next)
  {
  }

  lemma LateSurvival(key: NameKey, store: Option<Noted>, a: Answers, f: nat, first: Turn, n: Node, st: Turn)
    requires Find(first.notes, None) == Some(f) && HasOrder(first.notes.flows[f])
    requires Late(n) && SurvivesAt(f, first, first, n, st)
    ensures Survives(f, first.log, Work(key, store, n, st, a))
  {
    match n
    case FlowResolver => ResolverSurvival(f, first.log, st, a);
    case ExtractToolArgs => ExtractSurvival(key, f, first.log, st, a);
    case CallingTool => CallingSurvival(f, first.log, st, a);
    case _ =>
  }

  lemma SurvivalStep(key: NameKey, c: Conversation, a: Answers, f: nat, n: Node, st: Turn)
    requires Find(First(c, a).notes, None) == Some(f) && HasOrder(First(c, a).notes.flows[f])
    requires n != End && SurvivesAt(f, Begin(Revived(c, a), a), First(c, a), n, st)
    ensures var next := Work(key, c.store, n, st, a);
            SurvivesAt(f, Begin(Revived(c, a), a), First(c, a), Route(n, next), next)
  {
    if Late(n) {
      LateSurvival(key, c.store, a, f, First(c, a), n, st);
      LateEdge(f, Begin(Revived(c, a), a), First(c, a), n, Work(key, c.store, n, st, a));
    } else if n == DraftGate {
      GateSurvival(f, st, a);
    }
  }

  /**
   * A Turn that starts with an order Draft in the active flow stops with an order Draft in that flow, whatever the
   * LLM answers, or with no Draft there: exactly when the customer cancelled it, the order was sent with success, or it
   * was handed to a human.  This holds also where a Turn raises, and then the stored notes are the old ones.
   */
  lemma OrderDraftSurvives(key: NameKey, c: Conversation, a: Answers, f: nat)
    requires Find(Hydrated(c, a), None) == Some(f) && HasOrder(Hydrated(c, a).flows[f])
    ensures TakeTurn(key, c, a).raised ==> AfterTurn(key, c, a).store == c.store
    ensures a.raisesAt != Some(Hydrate) ==>
              var st := TakeTurn(key, c, a).st;
              && f < |st.notes.flows|
              && (st.notes.flows[f].draft.None? <==> EndedSince(First(c, a).log, st.log, f))
              && (HasOrder(st.notes.flows[f]) <==> !EndedSince(First(c, a).log, st.log, f))
  {
    EdgesFall();
    var start := Begin(Revived(c, a), a);
    var work, fails := WorkOf(key, c.store, a), FailsOf(a);
    var inv := (n: Node, st: Turn) => SurvivesAt(f, start, First(c, a), n, st);
    forall n: Node, st: Turn | n != End && inv(n, st) && !fails(n, st)
      ensures inv(Route(n, work(n, st)), work(n, st))
    {
      SurvivalStep(key, c, a, f, n, st);
    }
    Holds(work, Route, fails, inv, Hydrate, start);
    var done := TakeTurn(key, c, a);
    if done.raised {
      var n :| n != End && inv(n, done.st) && fails(n, done.st);
      if n != Hydrate {
        StoppedSurvives(f, start, First(c, a), n, done.st);
      }
    } else {
      StoppedSurvives(f, start, First(c, a), End, done.st);
    }
  }

  lemma StoppedSurvives(f: nat, start: Turn, first: Turn, n: Node, st: Turn)
    requires n != Hydrate && SurvivesAt(f, start, first, n, st)
    requires f < |first.notes.flows| && HasOrder(first.notes.flows[f])
    ensures f < |st.notes.flows|
    ensures st.notes.flows[f].draft.None? <==> EndedSince(first.log, st.log, f)
    ensures HasOrder(st.notes.flows[f]) <==> !EndedSince(first.log, st.log, f)
  {
  }

  /**
   * The protection covers the active flow only: a side tool can replace the order Draft of flow `f` exactly when
   * the active flow holds no order Draft.
   */
  lemma SideToolReplacesExactlyWhenNoneOpen(st: Turn, a: Answers, f: nat)
    requires f < |st.notes.flows| && HasOrder(st.notes.flows[f])
    requires st.notes.flows[f].id != "" && FlowAt(st.notes.flows, st.notes.flows[f].id) == Some(f)
    requires st.tool.Some? && st.tool.value != CreateOrder && !OrderTool(st.tool.value)
    ensures (exists b: Answers :: !HasOrder(FlowResolverNode(st, b).notes.flows[f])) <==> !HasOpenOrder(st.notes)
  {
    if !HasOpenOrder(st.notes) {
      var b := a.(action := ContinueFlow, flowId := Some(st.notes.flows[f].id));
      assert ActiveFlow(st.notes.(active := b.flowId), b.flowId) == Some(f);
      assert !HasOrder(FlowResolverNode(st, b).notes.flows[f]);
    }
  }
}
