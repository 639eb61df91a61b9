/**
 * One Turn of the agent: the nodes, the routers and the graph
 * (ecom_agent/nodes, ecom_agent/routing.py, ecom_agent/graph.py, ecom_agent/server.py).
 *
 * Every LLM answer, tool result, clock reading and new id of a Turn is a field of Answers and may be anything,
 * so what is proved about a Turn holds whatever the model says.  A log of what the Turn did to Drafts travels
 * with the notes: it is lost exactly when the notes are.
 */
module AgentTurn {
  import opened Wrappers
  import opened Strings
  import opened AgentNotes
  import opened Drafts
  import opened AgentGraph

  datatype Event =
    | Opened(flow: nat, tool: Tool)        // a new Draft was put in a flow
    | Heeded(flow: nat, tool: Tool, changed: bool, moved: bool, relocated: bool, alone: bool, street: Option<string>,
             notes: Notes, raw: RawArgs)   // a Draft was collected, from these notes and this answer;
                                           // alone: no other flow holds an order Draft
    | Called(flow: nat, tool: Tool, args: Args, pending: string, saved: Address, ok: bool)
                                           // a ready Draft was sent
    | Direct(tools: seq<Tool>)             // calls the model made by itself
    | Shown(products: seq<Product>)        // a product tool returned products
    | Cancelled(flow: nat)
    | GaveUp(flow: nat)
    | Raised                               // a node raised

  datatype Message = Human(text: string) | Ai(text: string) | ToolOutput(text: string)

  datatype Direction = Normal | Continue | Cancel

  datatype Action = ContinueFlow | CreateFlow | NoFlowLookup | Clarify | InvalidAction

  /** Everything one Turn gets from outside the agent's own code. */
  datatype Answers = Answers(
    text: string,                       // the customer's message
    restarted: bool,                    // the process was restarted since the last Turn
    unreadable: bool,                   // the saved notes do not validate
    backend: seq<Message>,              // the history back returned; [] when it returned none
    direction: Direction, cancelReply: string,                      // draft gate
    heard: Heard, question: string,                                 // extraction, the next question
    needsTool: bool, wanted: Option<Tool>, directReply: string,     // check_llm
    buys: bool, choice: Option<Tool>, proposesNewTool: bool,        // query_tool
    action: Action, flowId: Option<string>, newFlowId: string,      // flow_resolver
    calls: seq<Tool>,                   // the tool calls of the model without a ready Draft
    returned: seq<Product>,             // the products in the first tool message; [] when there are none
    callError: string,                  // _call_error of the first tool message; "" when the call worked
    picked: nat,                        // which returned product _pick_product takes
    aiText: string, toolTexts: seq<string>, replyText: string,
    now: int,
    raisesAt: Option<Node>)

  datatype Turn = Turn(
    notes: Notes,
    log: seq<Event>,
    resolved: Option<string>,
    direction: Direction,
    action: Option<Action>,
    tool: Option<Tool>,                 // tool_calls[0].name
    needsTool: bool,
    reply: string,
    escalation: bool,
    messages: seq<Message>,
    said: Option<string>)               // the text of this Turn's reply node, once it has run
  {
    function Log(e: Event): Turn {
      this.(log := log + [e])
    }
  }

  /** The notes and the log that goes with them. */
  datatype Noted = Noted(notes: Notes, log: seq<Event>)

  const Blank := Noted(EmptyNotes, [])

  /** What outlives a Turn: the row of the store, and the checkpoint in the memory of the process. */
  datatype Conversation = Conversation(store: Option<Noted>, checkpoint: Noted, messages: seq<Message>)

  const NewConversation := Conversation(None, Blank, [])

  // ---- The nodes ----

  /** hydrate: the store is the truth, the checkpoint is used only when the store has no row. */
  function HydrateNode(store: Option<Noted>, st: Turn, a: Answers): Turn {
    var n := if store.None? then Noted(st.notes, st.log)
             else if a.unreadable then Noted(EmptyNotes, store.value.log)
             else store.value;
    st.(notes := n.notes, log := n.log, resolved := None, direction := Normal, action := None, tool := None,
        needsTool := false, reply := "", escalation := false, said := None,
        messages := if a.backend == [] then st.messages
                    else if a.backend[|a.backend| - 1].text != a.text then a.backend + [Human(a.text)]
                    else a.backend)
  }

  function DraftGateNode(st: Turn, a: Answers): Turn {
    var direction := if StateOf(st.notes, st.resolved) == Collecting then a.direction else Normal;
    if direction == Cancel then
      st.(direction := Cancel, notes := Closed(st.notes, st.resolved, a.now), needsTool := false,
          reply := a.cancelReply)
        .Log(Cancelled(Find(st.notes, st.resolved).value))
    else st.(direction := direction)
  }

  predicate OnlyOrder(notes: Notes, at: nat) {
    forall j :: 0 <= j < |notes.flows| && j != at ==> !HasOrder(notes.flows[j])
  }

  function HeededEvent(key: NameKey, notes: Notes, at: nat, heard: Heard): Event
    requires at < |notes.flows| && notes.flows[at].draft.Some?
  {
    var draft := notes.flows[at].draft.value;
    var intake := TakeIn(key, notes, draft, heard);
    Heeded(at, draft.tool,
           intake.draft.args != draft.args || intake.address != notes.address,
           PlaceReplaced(key, notes.address, intake.address),
           StreetOutdated(key, notes.address, draft.error, intake.address),
           OnlyOrder(notes, at),
           StreetHeard(key, notes, draft, heard),
           notes, heard.args)
  }

  /** collect, then give_up. */
  function ExtractNode(key: NameKey, st: Turn, a: Answers): Turn {
    match ToCollect(st.notes, st.resolved)
    case None => st
    case Some(at) =>
      var heeded := st.(notes := Collected(key, st.notes, at, a.heard, a.now))
                      .Log(HeededEvent(key, st.notes, at, a.heard));
      if IsStuck(heeded.notes, st.resolved)
      then heeded.(notes := Closed(heeded.notes, st.resolved, a.now), escalation := true).Log(GaveUp(at))
      else heeded
  }

  function AskReplyNode(st: Turn, a: Answers): Turn {
    if Find(st.notes, st.resolved).None? then st else st.(needsTool := false, reply := a.question)
  }

  function CheckLlmNode(st: Turn, a: Answers): Turn {
    st.(tool := if a.needsTool then a.wanted else None, needsTool := a.needsTool, reply := a.directReply)
  }

  function QueryToolNode(st: Turn, a: Answers): Turn {
    if st.tool.None? then st
    else if a.buys then st.(tool := Some(CreateOrder))
    else if a.proposesNewTool || a.choice.None? || a.choice.value == EscalateConversation
    then st.(escalation := true, needsTool := false, reply := "", tool := None)
    else st.(tool := a.choice)
  }

  /** An order tool, or any other tool while the active flow holds an order Draft, runs outside the flows. */
  predicate RunsOnTheSide(st: Turn) {
    && st.tool.Some?
    && (OrderTool(st.tool.value) || (st.tool.value != CreateOrder && HasOpenOrder(st.notes)))
  }

  function NewFlow(tool: Option<Tool>, a: Answers): Flow {
    var discovery := if tool.Some? && ProductTool(tool.value) then Some(Discovery([], None)) else None;
    Started(Flow(a.newFlowId, a.now, discovery, None), tool)
  }

  function FlowResolverNode(st: Turn, a: Answers): Turn {
    if RunsOnTheSide(st) then st.(resolved := None, action := Some(NoFlowLookup))
    else
      var st := st.(action := Some(a.action));
      match a.action
      case CreateFlow =>
        var notes := st.notes.(flows := st.notes.flows + [NewFlow(st.tool, a)], active := Some(a.newFlowId));
        var created := st.(notes := notes,
                           resolved := Some(a.newFlowId), tool := None);
        if st.tool.Some? then created.Log(Opened(|st.notes.flows|, st.tool.value)) else created
      case ContinueFlow =>
        var notes := st.notes.(active := a.flowId);
        var st := st.(notes := notes, resolved := a.flowId);
        (match ActiveFlow(notes, a.flowId)
         case None => st
         case Some(at) =>
           var flow := notes.flows[at];
           var started := Started(flow, st.tool).(updatedAt := a.now);
           var continued := st.(notes := notes.(flows := notes.flows[at := started]));
           if StartsNew(flow, st.tool) then continued.Log(Opened(at, st.tool.value)) else continued)
      case _ => st.(resolved := None)
  }

  /** What a call told calling_tool: the tool named first, the products and the error of its answer. */
  datatype Outcome = Outcome(called: Option<Tool>, products: seq<Product>, error: string)

  const ORDER_STILL_OPEN := "an order is still open"

  predicate SkipsOrder(st: Turn, a: Answers) {
    CreateOrder in a.calls && HasOpenOrder(st.notes)
  }

  function OwnCalls(st: Turn, a: Answers): Outcome {
    if a.calls == [] then Outcome(None, [], "")
    else if SkipsOrder(st, a) then Outcome(Some(a.calls[0]), [], ORDER_STILL_OPEN)
    else Outcome(Some(a.calls[0]), a.returned, a.callError)
  }

  /** The ready Draft is sent: reopened on an order that failed, closed otherwise. */
  function SendDraft(st: Turn, a: Answers, at: nat): Turn
    requires at < |st.notes.flows| && st.notes.flows[at].draft.Some?
  {
    var draft := st.notes.flows[at].draft.value;
    var failed := draft.tool == CreateOrder && a.callError != "";
    st.(notes := if failed then Reopened(st.notes, st.resolved, a.callError, a.now)
                 else Closed(st.notes, st.resolved, a.now))
      .Log(Called(at, draft.tool, CallArgs(st.notes, draft), draft.error, st.notes.address, !failed))
  }

  function Discover(notes: Notes, at: nat, called: Tool, products: seq<Product>, picked: nat): Notes
    requires at < |notes.flows| && products != []
  {
    var cleared := Cleared(notes);
    var flow := cleared.flows[at];
    var before := if flow.discovery.None? then Discovery([], None) else flow.discovery.value;
    var results := if ListTool(called) then products else before.results;
    var selected := if !ListTool(called) || |products| == 1
                    then Some(products[if picked < |products| then picked else 0]) else None;
    cleared.(flows := cleared.flows[at := flow.(discovery := Some(Discovery(results, selected)))])
  }

  /** The product selection and its reset after a call. */
  function Digest(st: Turn, at: Option<nat>, outcome: Outcome, picked: nat): Turn
    requires at.Some? ==> at.value < |st.notes.flows|
  {
    if outcome.called.None? then st
    else if ProductTool(outcome.called.value) && outcome.products != [] then
      (if at.None? then st
       else st.(notes := Discover(st.notes, at.value, outcome.called.value, outcome.products, picked)))
        .Log(Shown(outcome.products))
    else if outcome.called.value == CreateOrder && outcome.error == "" then st.(notes := Cleared(st.notes))
    else st
  }

  function CallingToolNode(st: Turn, a: Answers): Turn {
    var flow := ActiveFlow(st.notes, st.resolved);
    var at := Find(st.notes, st.resolved);
    var said := [Ai(a.aiText)] + seq(|a.toolTexts|, i requires 0 <= i < |a.toolTexts| => ToolOutput(a.toolTexts[i]));
    if at.Some? && st.notes.flows[at.value].draft.value.ready then
      var tool := st.notes.flows[at.value].draft.value.tool;
      if tool.UnknownTool? then st
      else
        var sent := SendDraft(st, a, at.value);
        Digest(sent, flow, Outcome(Some(tool), a.returned, a.callError), a.picked)
          .(needsTool := true, messages := st.messages + said)
    else
      var logged := if a.calls == [] || SkipsOrder(st, a) then st else st.Log(Direct(a.calls));
      Digest(logged, flow, OwnCalls(st, a), a.picked).(needsTool := true, messages := st.messages + said)
  }

  const DEFAULT_REPLY := "I understood your request."

  /** The text the reply node sends. */
  function ReplyText(st: Turn, a: Answers): string {
    if st.needsTool then a.replyText
    else if Strip(st.reply) != "" then st.reply
    else DEFAULT_REPLY
  }

  function ReplyNode(st: Turn, a: Answers): Turn {
    st.(messages := st.messages + [Ai(ReplyText(st, a))], said := Some(ReplyText(st, a)))
  }

  function EscalateNode(st: Turn): Turn {
    st.(needsTool := false, reply := "")
  }

  function Work(key: NameKey, store: Option<Noted>, node: Node, st: Turn, a: Answers): Turn {
    match node
    case Hydrate => HydrateNode(store, st, a)
    case DraftGate => DraftGateNode(st, a)
    case CheckLlm => CheckLlmNode(st, a)
    case QueryTool => QueryToolNode(st, a)
    case FlowResolver => FlowResolverNode(st, a)
    case ExtractToolArgs => ExtractNode(key, st, a)
    case CallingTool => CallingToolNode(st, a)
    case AskReply => AskReplyNode(st, a)
    case Escalate => EscalateNode(st)
    case Reply => ReplyNode(st, a)
    case Persist => st
    case End => st
  }

  // ---- The routers and the edges ----

  function FlowRoute(st: Turn): (n: Node)
    ensures n == CallingTool || n == Reply || n == ExtractToolArgs
  {
    if st.action == Some(NoFlowLookup) then CallingTool
    else if st.action == Some(Clarify) || st.action == Some(InvalidAction) then Reply
    else if StateOf(st.notes, st.resolved) == Collecting then ExtractToolArgs
    else CallingTool
  }

  function AfterExtract(st: Turn): (n: Node)
    ensures n == Escalate || n == CallingTool || n == AskReply
  {
    if st.escalation then Escalate
    else if StateOf(st.notes, st.resolved) == Ready then CallingTool
    else AskReply
  }

  function Route(node: Node, st: Turn): (n: Node)
    ensures node != End ==> Rank(n) < Rank(node) && (n == End ==> node == Persist)
  {
    match node
    case Hydrate => DraftGate
    case DraftGate =>
      if st.direction == Continue then ExtractToolArgs else if st.direction == Cancel then Reply else CheckLlm
    case CheckLlm => if st.needsTool then QueryTool else Reply
    case QueryTool => if st.escalation then Escalate else FlowResolver
    case FlowResolver => FlowRoute(st)
    case ExtractToolArgs => AfterExtract(st)
    case CallingTool => Reply
    case AskReply => Reply
    case Escalate => Persist
    case Reply => Persist
    case Persist => End
    case End => End
  }

  /** calling_tool catches every failure of a ready order Draft; anywhere else a node may raise. */
  predicate MayRaise(node: Node, st: Turn) {
    node != CallingTool || StateOf(st.notes, st.resolved) != Ready
    || !HasOrder(st.notes.flows[Find(st.notes, st.resolved).value])
  }

  /** Every edge of the graph leads towards the end. */
  lemma EdgesFall()
    ensures Falls(Route)
  {
  }

  function WorkOf(key: NameKey, store: Option<Noted>, a: Answers): (Node, Turn) -> Turn {
    (n, st) => Work(key, store, n, st, a)
  }

  function FailsOf(a: Answers): (Node, Turn) -> bool {
    (n, st) => a.raisesAt == Some(n) && MayRaise(n, st)
  }

  function Revived(c: Conversation, a: Answers): Conversation {
    if a.restarted then c.(checkpoint := Blank, messages := []) else c
  }

  /** The state a Turn starts from: the checkpoint plus the new message. */
  function Begin(c: Conversation, a: Answers): Turn {
    Turn(c.checkpoint.notes, c.checkpoint.log, None, Normal, None, None, false, "", false,
         c.messages + [Human(a.text)], None)
  }

  ghost function TakeTurn(key: NameKey, c: Conversation, a: Answers): Finish<Turn> {
    EdgesFall();
    Go(WorkOf(key, c.store, a), Route, FailsOf(a), Hydrate, Begin(Revived(c, a), a))
  }

  /** persist writes the store; a Turn that raised leaves only its checkpoint behind. */
  ghost function AfterTurn(key: NameKey, c: Conversation, a: Answers): Conversation {
    var done := TakeTurn(key, c, a);
    if done.raised
    then Conversation(c.store, Noted(done.st.notes, done.st.log + [Raised]), done.st.messages)
    else
      var n := Noted(done.st.notes, done.st.log);
      Conversation(Some(n), n, done.st.messages)
  }

  ghost function AfterTurns(key: NameKey, c: Conversation, turns: seq<Answers>): Conversation
    decreases |turns|
  {
    if turns == [] then c else AfterTurns(key, AfterTurn(key, c, turns[0]), turns[1..])
  }

  /**
   * Every Turn ends after at most nine nodes, visits no node twice, and unless a node raises reaches persist
   * exactly once, as its last node.
   */
  lemma EveryTurnPersistsOnce(key: NameKey, c: Conversation, a: Answers)
    ensures var done := TakeTurn(key, c, a);
            && 1 <= |done.path| <= 9
            && (forall i, j :: 0 <= i < j < |done.path| ==> done.path[i] != done.path[j])
            && (!done.raised ==> multiset(done.path)[Persist] == 1 && done.path[|done.path| - 1] == Persist)
  {
    EdgesFall();
    EveryRunPersistsOnce(WorkOf(key, c.store, a), Route, FailsOf(a), Begin(Revived(c, a), a));
  }

  // ---- What the server sends ----

  datatype Answer = SendReply(text: string) | EscalateToHuman

  /** _last_reply: the latest assistant text after the latest customer message. */
  function LastReply(messages: seq<Message>): string {
    if messages == [] then ""
    else
      var m := messages[|messages| - 1];
      match m
      case Human(_) => ""
      case Ai(text) => text
      case ToolOutput(_) => LastReply(messages[..|messages| - 1])
  }

  /** The reverse loop of _last_reply. */
  method FindLastReply(messages: seq<Message>) returns (text: string)
    ensures text == LastReply(messages)
  {
    var i := |messages|;
    assert messages[..i] == messages;
    while i > 0
      invariant 0 <= i <= |messages|
      invariant LastReply(messages[..i]) == LastReply(messages)
    {
      i := i - 1;
      assert messages[..i + 1][..i] == messages[..i];
      match messages[i] {
        case Human(_) => return "";
        case Ai(t) => return t;
        case ToolOutput(_) =>
      }
    }
    return "";
  }

  /** _run_turn. */
  function Sends(done: Finish<Turn>): Answer {
    if done.raised then EscalateToHuman
    else
      var text := LastReply(done.st.messages);
      if Strip(text) != "" then SendReply(text) else EscalateToHuman
  }

  /** The history the nodes after hydrate see. */
  function History(c: Conversation, a: Answers): seq<Message> {
    HydrateNode(c.store, Begin(Revived(c, a), a), a).messages
  }

  /** Until reply runs nothing is said, and escalate is reached only with the history as it was. */
  predicate Speaking(history: seq<Message>, start: Turn, n: Node, st: Turn) {
    match n
    case Hydrate => st == start
    case Reply => st.said == None
    case Persist => if st.said.Some? then LastReply(st.messages) == st.said.value else st.messages == history
    case End => if st.said.Some? then LastReply(st.messages) == st.said.value else st.messages == history
    case _ => st.said == None && st.messages == history
  }

  /** Only calling_tool and reply add messages, and only reply says something. */
  lemma WhoSpeaks(key: NameKey, store: Option<Noted>, n: Node, st: Turn, a: Answers)
    requires n != Hydrate && n != Reply
    ensures Work(key, store, n, st, a).said == st.said
    ensures n != CallingTool ==> Work(key, store, n, st, a).messages == st.messages
  {
    match n
    case FlowResolver => ResolverIsSilent(st, a);
    case ExtractToolArgs => ExtractIsSilent(key, st, a);
    case CallingTool => CallingSaysNothing(st, a);
    case _ =>
  }

  lemma ExtractIsSilent(key: NameKey, st: Turn, a: Answers)
    ensures ExtractNode(key, st, a).said == st.said && ExtractNode(key, st, a).messages == st.messages
  {
  }

  lemma CallingSaysNothing(st: Turn, a: Answers)
    ensures CallingToolNode(st, a).said == st.said
  {
  }

  lemma ResolverIsSilent(st: Turn, a: Answers)
    ensures FlowResolverNode(st, a).said == st.said && FlowResolverNode(st, a).messages == st.messages
  {
  }

  /** The edges alone: a node that says nothing leads to a place where nothing needs to have been said. */
  lemma SilentEdge(history: seq<Message>, start: Turn, n: Node, next: Turn)
    requires n != Hydrate && n != Reply && n != End && n != Persist
    requires next.said == None && (n != CallingTool ==> next.messages == history)
    ensures Speaking(history, start, Route(n, next), next)
  {
  }

  lemma SpeakingStep(key: NameKey, c: Conversation, a: Answers, n: Node, st: Turn)
    requires n != End && Speaking(History(c, a), Begin(Revived(c, a), a), n, st)
    ensures var next := Work(key, c.store, n, st, a);
            Speaking(History(c, a), Begin(Revived(c, a), a), Route(n, next), next)
  {
    if n != Hydrate && n != Reply && n != Persist {
      WhoSpeaks(key, c.store, n, st, a);
      SilentEdge(History(c, a), Begin(Revived(c, a), a), n, Work(key, c.store, n, st, a));
    }
  }

  /**
   * The server sends exactly the text of this Turn's reply node when it is not blank.  When no reply node ran it
   * escalates if and only if the history ends with no assistant text to repeat, and so always when the history
   * ends with the customer's message: an older reply is then never sent again.
   */
  lemma SendsThisTurnsReply(key: NameKey, c: Conversation, a: Answers)
    ensures var done := TakeTurn(key, c, a);
            var said := done.st.said;
            && (done.raised ==> Sends(done) == EscalateToHuman)
            && (!done.raised && said.Some? ==>
                  Sends(done) == if Strip(said.value) != "" then SendReply(said.value) else EscalateToHuman)
            && (!done.raised && said.None? ==>
                  (Sends(done) == EscalateToHuman <==> Strip(LastReply(History(c, a))) == ""))
            && (!done.raised && said.None? && History(c, a) != [] && History(c, a)[|History(c, a)| - 1].Human? ==>
                  Sends(done) == EscalateToHuman)
  {
    EdgesFall();
    var start := Begin(Revived(c, a), a);
    var work, fails := WorkOf(key, c.store, a), FailsOf(a);
    var inv := (n: Node, st: Turn) => Speaking(History(c, a), start, n, st);
    forall n: Node, st: Turn | n != End && inv(n, st) && !fails(n, st)
      ensures inv(Route(n, work(n, st)), work(n, st))
    {
      SpeakingStep(key, c, a, n, st);
    }
    Holds(work, Route, fails, inv, Hydrate, start);
    assert Strip("") == "";
  }

  /** The history of a Turn ends with the customer's message, unless back's last message repeats it as another's. */
  lemma HistoryEndsWithCustomer(c: Conversation, a: Answers)
    ensures var history := History(c, a);
            && history != []
            && (history[|history| - 1].Human? <==>
                  a.backend == [] || a.backend[|a.backend| - 1].text != a.text || a.backend[|a.backend| - 1].Human?)
            && (a.backend != [] ==> a.backend <= history)
            && (history[|history| - 1].text == a.text)
  {
  }
}
