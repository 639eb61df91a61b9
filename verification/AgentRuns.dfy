/**
 * What holds in every run of the agent, whatever the LLM answers: any number of Turns, Turns that raise and
 * restarts of the process included (ecom_agent/drafts.py, ecom_agent/nodes, ecom_agent/flows.py).
 *
 * The laws are read off the log.  The invariant Calm ties the notes to the log; every node keeps it, with one
 * exception: between extract_tool_args and calling_tool a Draft may be ready (Poised).
 */
module AgentRuns {
  import opened Wrappers
  import opened AgentNotes
  import opened Drafts
  import opened AgentGraph
  import opened AgentTurn

  // ---- Reading the log ----

  /** The ids of all products a product tool returned. */
  function ShownIds(log: seq<Event>): set<string> {
    if log == [] then {}
    else
      var e := log[|log| - 1];
      ShownIds(log[..|log| - 1]) + (if e.Shown? then set p | p in e.products :: p.id else {})
  }

  /** How often in a row the Draft of flow `f` was collected with nothing new. */
  function Stalls(log: seq<Event>, f: nat): nat {
    if log == [] then 0
    else
      var e := log[|log| - 1];
      if e.Opened? && e.flow == f then 0
      else if e.Heeded? && e.flow == f then (if e.changed then 0 else Stalls(log[..|log| - 1], f) + 1)
      else Stalls(log[..|log| - 1], f)
  }

  predicate Relocated(e: Event) {
    e.Heeded? && e.relocated
  }

  /** The customer gave street `s`, and no later message made the saved street wrong. */
  ghost predicate FreshSince(log: seq<Event>, s: string, j: nat) {
    && j < |log| && log[j].Heeded? && log[j].street == Some(s)
    && forall k :: j < k < |log| ==> !Relocated(log[k])
  }

  ghost predicate Fresh(log: seq<Event>, s: string) {
    exists j :: FreshSince(log, s, j)
  }

  /** One order Draft at a time: a known place was only ever replaced while no other flow held an order Draft. */
  ghost predicate OneOrderAtATime(log: seq<Event>) {
    forall i :: 0 <= i < |log| && log[i].Heeded? && log[i].moved ==> log[i].alone
  }

  // ---- The laws of a log ----

  /** An order sent from a Draft is complete, of a product the customer was shown, and goes to the right place. */
  ghost predicate CallLaw(key: NameKey, log: seq<Event>, i: nat)
    requires i < |log|
  {
    var e := log[i];
    e.Called? && e.tool == CreateOrder ==>
      && OrderComplete(e.args) && TextAt(e.args, Street) != "" && e.pending == ""
      && TextAt(e.args, ProductId) in ShownIds(log[..i])
      && (OneOrderAtATime(log[..i]) ==> Fresh(log[..i], TextAt(e.args, Street)) && SamePlace(key, e.args, e.saved))
  }

  predicate ThirdStall(log: seq<Event>, i: nat)
    requires i < |log|
  {
    log[i].Heeded? && !log[i].changed && Stalls(log[..i + 1], log[i].flow) >= MAX_STALLED_TURNS
  }

  /** The Draft that was collected at `i` is handed over, sent, or lost with its Turn. */
  predicate SettledAfter(log: seq<Event>, i: nat)
    requires i < |log| && log[i].Heeded?
  {
    i + 1 < |log| &&
    match log[i + 1]
    case GaveUp(f) => f == log[i].flow
    case Called(f, _, _, _, _, _) => f == log[i].flow
    case Raised => true
    case _ => false
  }

  /** After three collects in a row with nothing new, a Draft is not collected on. */
  predicate StallLaw(log: seq<Event>, i: nat)
    requires i < |log|
  {
    ThirdStall(log, i) ==> SettledAfter(log, i)
  }

  ghost predicate Lawful(key: NameKey, log: seq<Event>) {
    forall i :: 0 <= i < |log| ==> CallLaw(key, log, i)
  }

  ghost predicate StallsSettled(log: seq<Event>, n: nat)
    requires n <= |log|
  {
    forall i :: 0 <= i < n ==> StallLaw(log, i)
  }

  // ---- The notes against the log ----

  ghost predicate DraftSound(key: NameKey, n: Noted, i: nat)
    requires i < |n.notes.flows| && n.notes.flows[i].draft.Some?
  {
    var d := n.notes.flows[i].draft.value;
    && d.attempts == Stalls(n.log, i)
    && (d.tool == CreateOrder ==> OrderSound(key, n.log, d, n.notes.address))
  }

  ghost predicate OrderSound(key: NameKey, log: seq<Event>, d: Draft, a: Address) {
    && OrderTyped(d.args)
    && (ProductId in d.args ==> TextAt(d.args, ProductId) in ShownIds(log))
    && (OneOrderAtATime(log) ==>
          && SamePlace(key, d.args, a)
          && (TextAt(d.args, Street) != "" ==> Fresh(log, TextAt(d.args, Street))))
  }

  ghost predicate FlowSound(key: NameKey, n: Noted, i: nat)
    requires i < |n.notes.flows|
  {
    && ProductsWithin(n.notes.flows[i], ShownIds(n.log))
    && (n.notes.flows[i].draft.Some? ==> DraftSound(key, n, i))
  }

  /** Only one product is selected at a time. */
  ghost predicate OneSelected(notes: Notes) {
    forall i, j :: 0 <= i < j < |notes.flows| ==> !(HasSelected(notes.flows[i]) && HasSelected(notes.flows[j]))
  }

  ghost predicate Sound(key: NameKey, n: Noted) {
    && OneSelected(n.notes)
    && (forall i :: 0 <= i < |n.notes.flows| ==> FlowSound(key, n, i))
    && (OneOrderAtATime(n.log) && Given(n.notes.address.street) ==> Fresh(n.log, n.notes.address.street.value))
    && Lawful(key, n.log)
  }

  predicate ReadyOrder(f: Flow) {
    HasOrder(f) && f.draft.value.ready
  }

  /** Between two Turns: no order waits to be sent, and every third stall is settled. */
  ghost predicate Calm(key: NameKey, n: Noted) {
    && Sound(key, n) && StallsSettled(n.log, |n.log|)
    && forall i :: 0 <= i < |n.notes.flows| ==> !ReadyOrder(n.notes.flows[i])
  }

  /** After extract_tool_args: the Draft of flow `at` was just collected and is ready to be sent. */
  ghost predicate Poised(key: NameKey, n: Noted, at: nat) {
    && Sound(key, n)
    && |n.log| > 0 && StallsSettled(n.log, |n.log| - 1)
    && n.log[|n.log| - 1].Heeded? && n.log[|n.log| - 1].flow == at
    && at < |n.notes.flows| && HasReady(n.notes.flows[at]) && !n.notes.flows[at].draft.value.tool.UnknownTool?
    && (HasOrder(n.notes.flows[at]) ==>
          var d := n.notes.flows[at].draft.value;
          && OrderComplete(CallArgs(n.notes, d)) && TextAt(CallArgs(n.notes, d), Street) != "" && d.error == "")
    && forall i :: 0 <= i < |n.notes.flows| && i != at ==> !ReadyOrder(n.notes.flows[i])
  }

  // ---- Appending to the log ----

  lemma Append(log: seq<Event>, e: Event, f: nat)
    ensures Stalls(log + [e], f)
            == if e.Opened? && e.flow == f then 0
               else if e.Heeded? && e.flow == f then (if e.changed then 0 else Stalls(log, f) + 1)
               else Stalls(log, f)
    ensures ShownIds(log + [e]) == ShownIds(log) + (if e.Shown? then set p | p in e.products :: p.id else {})
  {
    assert (log + [e])[..|log|] == log;
  }

  lemma AppendAlone(log: seq<Event>, e: Event)
    requires OneOrderAtATime(log + [e])
    ensures OneOrderAtATime(log)
    ensures e.Heeded? && e.moved ==> e.alone
  {
    assert forall i :: 0 <= i < |log| ==> (log + [e])[i] == log[i];
    assert (log + [e])[|log|] == e;
  }

  lemma AppendFresh(log: seq<Event>, e: Event, s: string)
    requires Fresh(log, s) && !Relocated(e)
    ensures Fresh(log + [e], s)
  {
    var j :| FreshSince(log, s, j);
    assert FreshSince(log + [e], s, j);
  }

  lemma FreshNow(log: seq<Event>, e: Event, s: string)
    requires e.Heeded? && e.street == Some(s)
    ensures Fresh(log + [e], s)
  {
    assert FreshSince(log + [e], s, |log|);
  }

  lemma FreshEither(log: seq<Event>, e: Event, s: string)
    requires e.Heeded? && (e.street == Some(s) || (!e.relocated && Fresh(log, s)))
    ensures Fresh(log + [e], s)
  {
    if e.street == Some(s) {
      FreshNow(log, e, s);
    } else {
      AppendFresh(log, e, s);
    }
  }

  /** The law of a call event, from what was known just before it. */
  lemma AppendLawful(key: NameKey, log: seq<Event>, e: Event)
    requires Lawful(key, log)
    requires e.Called? && e.tool == CreateOrder ==>
               && OrderComplete(e.args) && TextAt(e.args, Street) != "" && e.pending == ""
               && TextAt(e.args, ProductId) in ShownIds(log)
               && (OneOrderAtATime(log) ==> Fresh(log, TextAt(e.args, Street)) && SamePlace(key, e.args, e.saved))
    ensures Lawful(key, log + [e])
  {
    var t := log + [e];
    forall i | 0 <= i < |t| ensures CallLaw(key, t, i) {
      assert t[..i] == log[..i];
      if i < |log| {
        assert CallLaw(key, log, i);
      } else {
        assert t[..i] == log;
      }
    }
  }

  lemma AppendSettled(log: seq<Event>, e: Event, n: nat)
    requires n <= |log| && StallsSettled(log, n)
    ensures StallsSettled(log + [e], n)
  {
    var t := log + [e];
    forall i | 0 <= i < n ensures StallLaw(t, i) {
      assert StallLaw(log, i);
      assert t[..i + 1] == log[..i + 1];
    }
  }

  /** The last event settles the one before it. */
  lemma AppendSettles(log: seq<Event>, e: Event)
    requires |log| > 0 && StallsSettled(log, |log| - 1) && !e.Heeded?
    requires log[|log| - 1].Heeded? ==> SettledAfter(log + [e], |log| - 1)
    ensures StallsSettled(log + [e], |log| + 1)
  {
    AppendSettled(log, e, |log| - 1);
    var t := log + [e];
    forall i | 0 <= i < |t| ensures StallLaw(t, i) {
      if i < |log| - 1 {
        assert StallLaw(t, i);
      }
    }
  }

  lemma AppendCalm(log: seq<Event>, e: Event)
    requires StallsSettled(log, |log|) && !e.Heeded?
    ensures StallsSettled(log + [e], |log| + 1)
  {
    AppendSettled(log, e, |log|);
    var t := log + [e];
    forall i | 0 <= i < |t| ensures StallLaw(t, i) {
      if i < |log| {
        assert StallLaw(t, i);
      }
    }
  }

  // ---- Events that say nothing about the notes ----

  predicate Quiet(e: Event) {
    !e.Opened? && !e.Heeded?
  }

  /** A flow stays sound when an event that does not touch its Draft is logged. */
  lemma QuietFlow(key: NameKey, n: Noted, e: Event, i: nat)
    requires Quiet(e) || (e.Opened? && e.flow != i)
    requires i < |n.notes.flows| && FlowSound(key, n, i)
    ensures FlowSound(key, n.(log := n.log + [e]), i)
  {
    Append(n.log, e, i);
    var m := n.(log := n.log + [e]);
    if n.notes.flows[i].draft.Some? {
      var d := n.notes.flows[i].draft.value;
      if d.tool == CreateOrder && OneOrderAtATime(m.log) {
        AppendAlone(n.log, e);
        if TextAt(d.args, Street) != "" {
          AppendFresh(n.log, e, TextAt(d.args, Street));
        }
      }
    }
  }

  lemma QuietStreet(n: Noted, e: Event)
    requires OneOrderAtATime(n.log) && Given(n.notes.address.street) ==> Fresh(n.log, n.notes.address.street.value)
    requires !e.Heeded?
    ensures OneOrderAtATime(n.log + [e]) && Given(n.notes.address.street) ==>
              Fresh(n.log + [e], n.notes.address.street.value)
  {
    if OneOrderAtATime(n.log + [e]) && Given(n.notes.address.street) {
      AppendAlone(n.log, e);
      AppendFresh(n.log, e, n.notes.address.street.value);
    }
  }

  lemma QuietSound(key: NameKey, n: Noted, e: Event)
    requires Sound(key, n) && Quiet(e) && Lawful(key, n.log + [e])
    ensures Sound(key, n.(log := n.log + [e]))
  {
    var m := n.(log := n.log + [e]);
    forall i | 0 <= i < |m.notes.flows| ensures FlowSound(key, m, i) {
      QuietFlow(key, n, e, i);
    }
    QuietStreet(n, e);
  }

  /** Removing or reopening the Draft of one flow. */
  lemma SoundWithDraft(key: NameKey, n: Noted, at: nat, draft: Option<Draft>, now: int)
    requires Sound(key, n) && at < |n.notes.flows| && n.notes.flows[at].draft.Some?
    requires draft.Some? ==>
               var d := n.notes.flows[at].draft.value;
               draft.value.tool == d.tool && draft.value.args == d.args && draft.value.attempts == d.attempts
    ensures Sound(key, n.(notes := PutDraft(n.notes, at, draft, now)))
  {
    var m := n.(notes := PutDraft(n.notes, at, draft, now));
    forall i | 0 <= i < |m.notes.flows| ensures FlowSound(key, m, i) {
      assert FlowSound(key, n, i);
      if m.notes.flows[i].draft.Some? {
        assert DraftSound(key, n, i);
      }
    }
    assert forall i :: 0 <= i < |m.notes.flows| ==> HasSelected(m.notes.flows[i]) == HasSelected(n.notes.flows[i]);
  }

  // ---- draft_gate ----

  function NotedOf(st: Turn): Noted {
    Noted(st.notes, st.log)
  }

  lemma GateKeepsCalm(key: NameKey, st: Turn, a: Answers)
    requires Calm(key, NotedOf(st))
    ensures Calm(key, NotedOf(DraftGateNode(st, a)))
  {
    var next := DraftGateNode(st, a);
    if next.direction == Cancel && StateOf(st.notes, st.resolved) == Collecting {
      var at := Find(st.notes, st.resolved).value;
      AppendLawful(key, st.log, Cancelled(at));
      AppendCalm(st.log, Cancelled(at));
      QuietSound(key, NotedOf(st), Cancelled(at));
      SoundWithDraft(key, Noted(st.notes, st.log + [Cancelled(at)]), at, None, a.now);
    }
  }

  // ---- extract_tool_args ----

  lemma TakenProductWasShown(key: NameKey, n: Noted, at: nat, heard: Heard)
    requires Sound(key, n) && at < |n.notes.flows| && HasOrder(n.notes.flows[at])
    ensures var args := TakenArgs(key, n.notes, n.notes.flows[at].draft.value, heard);
            ProductId in args ==> TextAt(args, ProductId) in ShownIds(n.log)
  {
    forall i | 0 <= i < |n.notes.flows| ensures ProductsWithin(n.notes.flows[i], ShownIds(n.log)) {
      assert FlowSound(key, n, i);
    }
    ShownComeFromFlows(n.notes, ShownIds(n.log));
    assert FlowSound(key, n, at);
    CoercedIsTyped(heard.args);
  }

  /** The collected flow itself. */
  lemma HeededFlow(key: NameKey, n: Noted, at: nat, heard: Heard, now: int)
    requires Sound(key, n) && at < |n.notes.flows| && n.notes.flows[at].draft.Some?
    ensures var e := HeededEvent(key, n.notes, at, heard);
            FlowSound(key, Noted(Collected(key, n.notes, at, heard, now), n.log + [e]), at)
  {
    var e := HeededEvent(key, n.notes, at, heard);
    assert FlowSound(key, n, at) && DraftSound(key, n, at);
    Append(n.log, e, at);
    if HasOrder(n.notes.flows[at]) {
      HeededOrder(key, n, at, heard);
    }
  }

  lemma HeededOrder(key: NameKey, n: Noted, at: nat, heard: Heard)
    requires Sound(key, n) && at < |n.notes.flows| && HasOrder(n.notes.flows[at])
    ensures var e := HeededEvent(key, n.notes, at, heard);
            var intake := TakeIn(key, n.notes, n.notes.flows[at].draft.value, heard);
            OrderSound(key, n.log + [e], intake.draft, intake.address)
  {
    var e := HeededEvent(key, n.notes, at, heard);
    var draft := n.notes.flows[at].draft.value;
    assert FlowSound(key, n, at) && DraftSound(key, n, at);
    Append(n.log, e, at);
    TakenArgsAreTyped(key, n.notes, draft, heard);
    TakenProductWasShown(key, n, at, heard);
    if OneOrderAtATime(n.log + [e]) {
      AppendAlone(n.log, e);
      CollectKeepsPlace(key, n.notes, draft, heard, Wilaya);
      CollectKeepsPlace(key, n.notes, draft, heard, Commune);
      HeededStreet(key, n, at, heard);
    }
  }

  /** The streets known after the collect were given now, or before and are still good. */
  lemma HeededStreet(key: NameKey, n: Noted, at: nat, heard: Heard)
    requires Sound(key, n) && at < |n.notes.flows| && HasOrder(n.notes.flows[at]) && OneOrderAtATime(n.log)
    ensures var e := HeededEvent(key, n.notes, at, heard);
            var intake := TakeIn(key, n.notes, n.notes.flows[at].draft.value, heard);
            && (TextAt(intake.draft.args, Street) != "" ==> Fresh(n.log + [e], TextAt(intake.draft.args, Street)))
            && (Given(intake.address.street) ==> Fresh(n.log + [e], intake.address.street.value))
  {
    var e := HeededEvent(key, n.notes, at, heard);
    var draft := n.notes.flows[at].draft.value;
    var intake := TakeIn(key, n.notes, draft, heard);
    assert FlowSound(key, n, at);
    StreetsAfterCollect(key, n.notes, draft, heard);
    if TextAt(intake.draft.args, Street) != "" {
      FreshEither(n.log, e, TextAt(intake.draft.args, Street));
    }
    if Given(intake.address.street) {
      FreshEither(n.log, e, intake.address.street.value);
    }
  }

  /** The other flows: a place was replaced only if none of them holds an order Draft. */
  lemma UnheededFlow(key: NameKey, n: Noted, at: nat, heard: Heard, now: int, i: nat)
    requires Sound(key, n) && at < |n.notes.flows| && n.notes.flows[at].draft.Some?
    requires i < |n.notes.flows| && i != at
    ensures var e := HeededEvent(key, n.notes, at, heard);
            FlowSound(key, Noted(Collected(key, n.notes, at, heard, now), n.log + [e]), i)
  {
    var e := HeededEvent(key, n.notes, at, heard);
    var m := Noted(Collected(key, n.notes, at, heard, now), n.log + [e]);
    assert FlowSound(key, n, i) && m.notes.flows[i] == n.notes.flows[i];
    Append(n.log, e, i);
    if HasOrder(n.notes.flows[i]) && OneOrderAtATime(m.log) {
      AppendAlone(n.log, e);
      var d := n.notes.flows[i].draft.value;
      assert DraftSound(key, n, i) && !OnlyOrder(n.notes, at);
      StayingKeepsOthersPlace(key, n.notes, n.notes.flows[at].draft.value, heard, d.args, Wilaya);
      StayingKeepsOthersPlace(key, n.notes, n.notes.flows[at].draft.value, heard, d.args, Commune);
      if TextAt(d.args, Street) != "" {
        AppendFresh(n.log, e, TextAt(d.args, Street));
      }
    }
  }

  lemma HeededSound(key: NameKey, n: Noted, at: nat, heard: Heard, now: int)
    requires Sound(key, n) && at < |n.notes.flows| && n.notes.flows[at].draft.Some?
    ensures Sound(key, Noted(Collected(key, n.notes, at, heard, now), n.log + [HeededEvent(key, n.notes, at, heard)]))
  {
    var e := HeededEvent(key, n.notes, at, heard);
    var m := Noted(Collected(key, n.notes, at, heard, now), n.log + [e]);
    forall i | 0 <= i < |m.notes.flows| ensures FlowSound(key, m, i) {
      if i == at {
        HeededFlow(key, n, at, heard, now);
      } else {
        UnheededFlow(key, n, at, heard, now, i);
      }
    }
    assert forall i :: 0 <= i < |m.notes.flows| ==> HasSelected(m.notes.flows[i]) == HasSelected(n.notes.flows[i]);
    if OneOrderAtATime(m.log) && Given(m.notes.address.street) {
      AppendAlone(n.log, e);
      if HasOrder(n.notes.flows[at]) {
        HeededStreet(key, n, at, heard);
      } else {
        AppendFresh(n.log, e, n.notes.address.street.value);
      }
    }
    AppendLawful(key, n.log, e);
  }

  ghost predicate CalmOrPoised(key: NameKey, st: Turn) {
    || Calm(key, NotedOf(st))
    || (Find(st.notes, st.resolved).Some? && Poised(key, NotedOf(st), Find(st.notes, st.resolved).value))
  }

  /** A Draft that was just collected, is still collecting and is not stuck was no third stall. */
  lemma NotStuckIsCalm(key: NameKey, n: Noted, at: nat, heard: Heard, now: int)
    requires Calm(key, n) && at < |n.notes.flows|
    requires n.notes.flows[at].draft.Some? && !n.notes.flows[at].draft.value.ready
    ensures var m := Noted(Collected(key, n.notes, at, heard, now), n.log + [HeededEvent(key, n.notes, at, heard)]);
            var d := m.notes.flows[at].draft.value;
            !d.ready && d.attempts < MAX_STALLED_TURNS ==> Calm(key, m)
  {
    var e := HeededEvent(key, n.notes, at, heard);
    var m := Noted(Collected(key, n.notes, at, heard, now), n.log + [e]);
    HeededSound(key, n, at, heard, now);
    AppendSettled(n.log, e, |n.log|);
    assert FlowSound(key, m, at) && DraftSound(key, m, at);
    if m.notes.flows[at].draft.value.attempts < MAX_STALLED_TURNS {
      forall i | 0 <= i < |m.log| ensures StallLaw(m.log, i) {
        if i == |n.log| {
          assert m.log[..i + 1] == m.log;
        }
      }
    }
  }

  lemma ReadyIsPoised(key: NameKey, n: Noted, at: nat, heard: Heard, now: int)
    requires Calm(key, n) && at < |n.notes.flows| && n.notes.flows[at].draft.Some?
    requires !n.notes.flows[at].draft.value.ready && !n.notes.flows[at].draft.value.tool.UnknownTool?
    ensures var m := Noted(Collected(key, n.notes, at, heard, now), n.log + [HeededEvent(key, n.notes, at, heard)]);
            HasReady(m.notes.flows[at]) ==> Poised(key, m, at)
  {
    var e := HeededEvent(key, n.notes, at, heard);
    var m := Noted(Collected(key, n.notes, at, heard, now), n.log + [e]);
    var draft := n.notes.flows[at].draft.value;
    HeededSound(key, n, at, heard, now);
    AppendSettled(n.log, e, |n.log|);
    if HasReady(m.notes.flows[at]) && draft.tool == CreateOrder {
      assert FlowSound(key, n, at) && DraftSound(key, n, at);
      ReadyIsComplete(key, n.notes, draft, heard);
      var intake := TakeIn(key, n.notes, draft, heard);
      assert CallArgs(m.notes, intake.draft) == CallArgs(n.notes.(address := intake.address), intake.draft);
    }
  }

  lemma StuckIsCalm(key: NameKey, n: Noted, at: nat, heard: Heard, now: int)
    requires Calm(key, n) && at < |n.notes.flows| && n.notes.flows[at].draft.Some?
    ensures var m := Noted(Collected(key, n.notes, at, heard, now), n.log + [HeededEvent(key, n.notes, at, heard)]);
            Calm(key, Noted(PutDraft(m.notes, at, None, now), m.log + [GaveUp(at)]))
  {
    var e := HeededEvent(key, n.notes, at, heard);
    var m := Noted(Collected(key, n.notes, at, heard, now), n.log + [e]);
    HeededSound(key, n, at, heard, now);
    AppendSettled(n.log, e, |n.log|);
    AppendLawful(key, m.log, GaveUp(at));
    QuietSound(key, m, GaveUp(at));
    SoundWithDraft(key, Noted(m.notes, m.log + [GaveUp(at)]), at, None, now);
    AppendSettles(m.log, GaveUp(at));
  }

  lemma ExtractKeeps(key: NameKey, st: Turn, a: Answers)
    requires Calm(key, NotedOf(st))
    ensures var next := ExtractNode(key, st, a);
            && CalmOrPoised(key, next)
            && (next.escalation && !st.escalation ==> Calm(key, NotedOf(next)))
            && (StateOf(next.notes, next.resolved) != Ready ==> Calm(key, NotedOf(next)))
  {
    var at := ToCollect(st.notes, st.resolved);
    if at.Some? {
      var n := NotedOf(st);
      var draft := st.notes.flows[at.value].draft.value;
      var intake := TakeIn(key, st.notes, draft, a.heard);
      FindAfterPut(st.notes, st.resolved, at.value, Some(intake.draft), a.now, intake.address);
      NotStuckIsCalm(key, n, at.value, a.heard, a.now);
      ReadyIsPoised(key, n, at.value, a.heard, a.now);
      StuckIsCalm(key, n, at.value, a.heard, a.now);
    }
  }

  // ---- flow_resolver ----

  lemma CreateKeepsCalm(key: NameKey, st: Turn, a: Answers)
    requires Calm(key, NotedOf(st)) && !RunsOnTheSide(st) && a.action == CreateFlow
    ensures Calm(key, NotedOf(FlowResolverNode(st, a)))
  {
    var n, next := NotedOf(st), NotedOf(FlowResolverNode(st, a));
    var last := |st.notes.flows|;
    if st.tool.Some? {
      var e := Opened(last, st.tool.value);
      Append(n.log, e, last);
      AppendLawful(key, n.log, e);
      AppendCalm(n.log, e);
      QuietStreet(n, e);
    }
    forall i | 0 <= i < |next.notes.flows| ensures FlowSound(key, next, i) && !ReadyOrder(next.notes.flows[i]) {
      if i < last {
        assert FlowSound(key, n, i);
        if st.tool.Some? {
          QuietFlow(key, n, Opened(last, st.tool.value), i);
        }
      }
    }
    assert !HasSelected(next.notes.flows[last]);
    assert forall i :: 0 <= i < last ==> next.notes.flows[i] == n.notes.flows[i];
  }

  /** A flow that is only touched, or whose Draft is replaced by a new one. */
  lemma StartKeepsCalm(key: NameKey, n: Noted, at: nat, tool: Option<Tool>, now: int, active: Option<string>)
    requires Calm(key, n) && at < |n.notes.flows|
    ensures var flow := n.notes.flows[at];
            var flows := n.notes.flows[at := Started(flow, tool).(updatedAt := now)];
            Calm(key, Noted(n.notes.(flows := flows, active := active),
                            if StartsNew(flow, tool) then n.log + [Opened(at, tool.value)] else n.log))
  {
    var flow := n.notes.flows[at];
    var flows := n.notes.flows[at := Started(flow, tool).(updatedAt := now)];
    var opens := StartsNew(flow, tool);
    var next := Noted(n.notes.(flows := flows, active := active),
                      if opens then n.log + [Opened(at, tool.value)] else n.log);
    if opens {
      var e := Opened(at, tool.value);
      Append(n.log, e, at);
      AppendLawful(key, n.log, e);
      AppendCalm(n.log, e);
      QuietStreet(n, e);
    }
    forall i | 0 <= i < |flows| ensures FlowSound(key, next, i) && !ReadyOrder(flows[i]) {
      assert FlowSound(key, n, i);
      if opens && i != at {
        QuietFlow(key, n, Opened(at, tool.value), i);
      }
    }
    assert forall i :: 0 <= i < |flows| ==> HasSelected(flows[i]) == HasSelected(n.notes.flows[i]);
  }

  lemma ContinueKeepsCalm(key: NameKey, st: Turn, a: Answers)
    requires Calm(key, NotedOf(st)) && !RunsOnTheSide(st) && a.action == ContinueFlow
    ensures Calm(key, NotedOf(FlowResolverNode(st, a)))
  {
    var n, next := NotedOf(st), NotedOf(FlowResolverNode(st, a));
    var to := ActiveFlow(st.notes.(active := a.flowId), a.flowId);
    if to.Some? {
      StartKeepsCalm(key, n, to.value, st.tool, a.now, a.flowId);
    } else {
      forall i | 0 <= i < |next.notes.flows| ensures FlowSound(key, next, i) {
        assert FlowSound(key, n, i);
      }
    }
  }

  lemma ResolverKeepsCalm(key: NameKey, st: Turn, a: Answers)
    requires Calm(key, NotedOf(st))
    ensures Calm(key, NotedOf(FlowResolverNode(st, a)))
  {
    if !RunsOnTheSide(st) {
      if a.action == CreateFlow {
        CreateKeepsCalm(key, st, a);
      } else if a.action == ContinueFlow {
        ContinueKeepsCalm(key, st, a);
      }
    }
  }

  // ---- calling_tool ----

  /** Forgetting the selected product everywhere. */
  lemma ClearedKeepsCalm(key: NameKey, n: Noted)
    requires Calm(key, n)
    ensures Calm(key, n.(notes := Cleared(n.notes)))
  {
    var m := n.(notes := Cleared(n.notes));
    forall i | 0 <= i < |m.notes.flows|
      ensures FlowSound(key, m, i) && !ReadyOrder(m.notes.flows[i]) && !HasSelected(m.notes.flows[i])
    {
      assert FlowSound(key, n, i);
      assert m.notes.flows[i] == ClearedFlow(n.notes.flows[i]);
    }
  }

  lemma DiscoverKeepsCalm(key: NameKey, n: Noted, at: nat, called: Tool, products: seq<Product>, picked: nat)
    requires Calm(key, n) && at < |n.notes.flows| && products != [] && IdsWithin(products, ShownIds(n.log))
    ensures Calm(key, n.(notes := Discover(n.notes, at, called, products, picked)))
  {
    ClearedKeepsCalm(key, n);
    var c := n.(notes := Cleared(n.notes));
    var m := n.(notes := Discover(n.notes, at, called, products, picked));
    forall i | 0 <= i < |m.notes.flows| ensures FlowSound(key, m, i) && !ReadyOrder(m.notes.flows[i]) {
      assert FlowSound(key, c, i);
    }
    forall i | 0 <= i < |m.notes.flows| && i != at ensures !HasSelected(m.notes.flows[i]) {
      assert m.notes.flows[i] == ClearedFlow(n.notes.flows[i]);
    }
  }

  lemma QuietCalm(key: NameKey, n: Noted, e: Event)
    requires Calm(key, n) && Quiet(e) && !e.Called?
    ensures Calm(key, n.(log := n.log + [e]))
  {
    AppendLawful(key, n.log, e);
    AppendCalm(n.log, e);
    QuietSound(key, n, e);
  }

  lemma DigestKeepsCalm(key: NameKey, st: Turn, at: Option<nat>, outcome: Outcome, picked: nat)
    requires Calm(key, NotedOf(st)) && (at.Some? ==> at.value < |st.notes.flows|)
    ensures Calm(key, NotedOf(Digest(st, at, outcome, picked)))
  {
    if outcome.called.Some? {
      if ProductTool(outcome.called.value) && outcome.products != [] {
        var e := Shown(outcome.products);
        QuietCalm(key, NotedOf(st), e);
        Append(st.log, e, 0);
        var n := Noted(st.notes, st.log + [e]);
        assert IdsWithin(outcome.products, ShownIds(n.log));
        if at.Some? {
          DiscoverKeepsCalm(key, n, at.value, outcome.called.value, outcome.products, picked);
        }
      } else {
        ClearedKeepsCalm(key, NotedOf(st));
      }
    }
  }

  /** Sending a ready Draft ends the wait. */
  lemma SendKeepsCalm(key: NameKey, st: Turn, a: Answers, at: nat)
    requires Find(st.notes, st.resolved) == Some(at) && HasReady(st.notes.flows[at])
    requires Poised(key, NotedOf(st), at) || Calm(key, NotedOf(st))
    ensures Calm(key, NotedOf(SendDraft(st, a, at)))
  {
    var n := NotedOf(st);
    var draft := st.notes.flows[at].draft.value;
    var sent := SendDraft(st, a, at);
    var e := sent.log[|st.log|];
    assert sent.log == st.log + [e];
    assert FlowSound(key, n, at) && DraftSound(key, n, at);
    AppendLawful(key, n.log, e);
    QuietSound(key, n, e);
    var m := Noted(n.notes, sent.log);
    var failed := draft.tool == CreateOrder && a.callError != "";
    SoundWithDraft(key, m, at, if failed then Some(draft.(ready := false, error := a.callError)) else None, a.now);
    if Poised(key, n, at) {
      AppendSettles(n.log, e);
    } else {
      AppendCalm(n.log, e);
    }
  }

  lemma CallingKeepsCalm(key: NameKey, st: Turn, a: Answers)
    requires CalmOrPoised(key, st)
    ensures Calm(key, NotedOf(CallingToolNode(st, a)))
  {
    var at := Find(st.notes, st.resolved);
    var flow := ActiveFlow(st.notes, st.resolved);
    if at.Some? && st.notes.flows[at.value].draft.value.ready {
      var tool := st.notes.flows[at.value].draft.value.tool;
      if !tool.UnknownTool? {
        SendKeepsCalm(key, st, a, at.value);
        DigestKeepsCalm(key, SendDraft(st, a, at.value), flow, Outcome(Some(tool), a.returned, a.callError), a.picked);
      }
    } else {
      if a.calls != [] && !SkipsOrder(st, a) {
        QuietCalm(key, NotedOf(st), Direct(a.calls));
        DigestKeepsCalm(key, st.Log(Direct(a.calls)), flow, OwnCalls(st, a), a.picked);
      } else {
        DigestKeepsCalm(key, st, flow, OwnCalls(st, a), a.picked);
      }
    }
  }

  // ---- A whole Turn, and every run ----

  ghost predicate ConversationSound(key: NameKey, c: Conversation) {
    (c.store.Some? ==> Calm(key, c.store.value)) && Calm(key, c.checkpoint)
  }

  /** The invariant at each node of a Turn. */
  ghost predicate At(key: NameKey, start: Turn, n: Node, st: Turn) {
    match n
    case Hydrate => st == start
    case CallingTool => CalmOrPoised(key, st)
    case Escalate => Calm(key, NotedOf(st))
    case Reply => Calm(key, NotedOf(st))
    case AskReply => Calm(key, NotedOf(st))
    case Persist => Calm(key, NotedOf(st))
    case End => Calm(key, NotedOf(st))
    case _ => Calm(key, NotedOf(st)) && !st.escalation
  }

  lemma BlankIsCalm(key: NameKey, log: seq<Event>)
    requires Lawful(key, log) && StallsSettled(log, |log|)
    ensures Calm(key, Noted(EmptyNotes, log))
  {
  }

  lemma AtStep(key: NameKey, c: Conversation, a: Answers, n: Node, st: Turn)
    requires ConversationSound(key, Revived(c, a)) && n != End && At(key, Begin(Revived(c, a), a), n, st)
    ensures var next := Work(key, c.store, n, st, a);
            At(key, Begin(Revived(c, a), a), Route(n, next), next)
  {
    match n
    case Hydrate =>
      if c.store.Some? {
        BlankIsCalm(key, c.store.value.log);
      }
    case DraftGate => GateKeepsCalm(key, st, a);
    case FlowResolver =>
      ResolverKeepsCalm(key, st, a);
      ResolverKeepsEscalation(st, a);
    case ExtractToolArgs => ExtractKeeps(key, st, a);
    case CallingTool => CallingKeepsCalm(key, st, a);
    case _ =>
  }

  lemma ResolverKeepsEscalation(st: Turn, a: Answers)
    ensures FlowResolverNode(st, a).escalation == st.escalation
  {
  }

  /** A Turn that raises leaves sound notes in the checkpoint too. */
  lemma RaisedIsCalm(key: NameKey, st: Turn, n: Node)
    requires CalmOrPoised(key, st) && (!Calm(key, NotedOf(st)) ==> n == CallingTool) && MayRaise(n, st)
    ensures Calm(key, Noted(st.notes, st.log + [Raised]))
  {
    if Calm(key, NotedOf(st)) {
      QuietCalm(key, NotedOf(st), Raised);
    } else {
      AppendLawful(key, st.log, Raised);
      QuietSound(key, NotedOf(st), Raised);
      AppendSettles(st.log, Raised);
    }
  }

  lemma TurnStops(key: NameKey, c: Conversation, a: Answers)
    requires ConversationSound(key, Revived(c, a))
    ensures var done := TakeTurn(key, c, a);
            && (!done.raised ==> Calm(key, NotedOf(done.st)))
            && (done.raised ==>
                  exists n :: n != End && At(key, Begin(Revived(c, a), a), n, done.st) && MayRaise(n, done.st))
  {
    EdgesFall();
    var start := Begin(Revived(c, a), a);
    var work, fails := WorkOf(key, c.store, a), FailsOf(a);
    var inv := (n: Node, st: Turn) => At(key, start, n, st);
    forall n: Node, st: Turn | n != End && inv(n, st) && !fails(n, st)
      ensures inv(Route(n, work(n, st)), work(n, st))
    {
      AtStep(key, c, a, n, st);
    }
    Holds(work, Route, fails, inv, Hydrate, start);
    var done := TakeTurn(key, c, a);
    if done.raised {
      var n :| n != End && inv(n, done.st) && fails(n, done.st);
      assert At(key, start, n, done.st);
    } else {
      assert inv(End, done.st);
    }
  }

  lemma TurnKeepsSound(key: NameKey, c: Conversation, a: Answers)
    requires ConversationSound(key, c)
    ensures ConversationSound(key, AfterTurn(key, c, a))
  {
    BlankIsCalm(key, []);
    TurnStops(key, c, a);
    var done := TakeTurn(key, c, a);
    if done.raised {
      var n :| n != End && At(key, Begin(Revived(c, a), a), n, done.st) && MayRaise(n, done.st);
      RaisedIsCalm(key, done.st, n);
    }
  }

  lemma {:induction false} RunKeepsSound(key: NameKey, c: Conversation, turns: seq<Answers>)
    requires ConversationSound(key, c)
    ensures ConversationSound(key, AfterTurns(key, c, turns))
    decreases |turns|
  {
    if turns != [] {
      TurnKeepsSound(key, c, turns[0]);
      RunKeepsSound(key, AfterTurn(key, c, turns[0]), turns[1..]);
    }
  }
}
