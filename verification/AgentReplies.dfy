/**
 * What the server sends for a Turn, from the way the Turn went and what it was answered
 * (ecom_agent/nodes/reply.py, ecom_agent/server.py).
 */
module AgentReplies {
  import opened Wrappers
  import opened Strings
  import opened AgentNotes
  import opened Drafts
  import opened AgentGraph
  import opened AgentTurn
  import opened AgentLaws

  /** A prepared text, or the default one when it is blank. */
  function Prepared(text: string): string {
    if Strip(text) == "" then "I understood your request." else text
  }

  /**
   * The text of a reply that was reached from node `from`: what the reply model wrote after a tool or a clarification,
   * the next question of a Draft, the direct reply, or the words for a cancelled Draft.
   */
  function TextFrom(from: Node, a: Answers): string {
    match from
    case CallingTool => a.replyText
    case FlowResolver => a.replyText
    case AskReply => Prepared(a.question)
    case CheckLlm => Prepared(a.directReply)
    case _ => Prepared(a.cancelReply)
  }

  predicate LeadsToReply(n: Node) {
    n == CallingTool || n == FlowResolver || n == AskReply || n == CheckLlm || n == DraftGate
  }

  /** reply will say what its predecessor prepared. */
  predicate Prepares(from: Node, st: Turn, a: Answers) {
    match from
    case CallingTool => st.needsTool
    case FlowResolver => st.needsTool
    case AskReply => !st.needsTool && st.reply == a.question
    case CheckLlm => !st.needsTool && st.reply == a.directReply
    case DraftGate => !st.needsTool && st.reply == a.cancelReply
    case _ => false
  }

  function Last(path: seq<Node>): Node
    requires path != []
  {
    path[|path| - 1]
  }

  /** How a Turn ended: handed over without a word, or with the reply its path prepared. */
  predicate EndedAs(path: seq<Node>, said: Option<string>, a: Answers) {
    path != [] &&
    if Last(path) == Escalate then said == None
    else
      && Last(path) == Reply && |path| >= 2 && LeadsToReply(path[|path| - 2])
      && said == Some(TextFrom(path[|path| - 2], a))
  }

  ghost predicate ReplyAt(start: Turn, first: Turn, a: Answers, path: seq<Node>, n: Node, st: Turn) {
    match n
    case Hydrate => path == [] && st == start
    case DraftGate => path != [] && st == first
    case CheckLlm => path != [] && !st.escalation && st.said == None && Idle(st)
    case QueryTool => path != [] && st.needsTool && !st.escalation && st.said == None && Idle(st)
    case FlowResolver => path != [] && st.needsTool && !st.escalation && st.said == None && Idle(st)
    case ExtractToolArgs =>
      path != [] && !st.escalation && st.said == None && StateOf(st.notes, st.resolved) == Collecting
    case CallingTool => path != [] && st.said == None && (st.needsTool || ReadyKnown(st))
    case AskReply => path != [] && st.said == None && Find(st.notes, st.resolved).Some?
    case Escalate => path != [] && st.said == None
    case Reply => path != [] && st.said == None && LeadsToReply(Last(path)) && Prepares(Last(path), st, a)
    case Persist => EndedAs(path, st.said, a)
    case End => |path| >= 2 && Last(path) == Persist && EndedAs(path[..|path| - 1], st.said, a)
  }

  predicate Idle(st: Turn) {
    st.resolved == None
  }

  /** A ready Draft of a tool the agent has. */
  predicate ReadyKnown(st: Turn) {
    var at := Find(st.notes, st.resolved);
    at.Some? && st.notes.flows[at.value].draft.value.ready && !st.notes.flows[at.value].draft.value.tool.UnknownTool?
  }

  lemma ReplySays(st: Turn, a: Answers, from: Node)
    requires LeadsToReply(from) && Prepares(from, st, a)
    ensures ReplyNode(st, a).said == Some(TextFrom(from, a))
  {
  }

  lemma GateReplies(first: Turn, a: Answers, path: seq<Node>)
    requires first.said == None && !first.escalation && first.resolved == None
    ensures var next := DraftGateNode(first, a);
            ReplyAt(first, first, a, path + [DraftGate], Route(DraftGate, next), next)
  {
    assert Last(path + [DraftGate]) == DraftGate;
  }

  lemma ResolverReplies(first: Turn, a: Answers, path: seq<Node>, st: Turn)
    requires st.needsTool && !st.escalation && st.said == None
    ensures var next := FlowResolverNode(st, a);
            ReplyAt(first, first, a, path + [FlowResolver], Route(FlowResolver, next), next)
  {
    assert Last(path + [FlowResolver]) == FlowResolver;
    ResolverIsSilent(st, a);
    ResolverKeepsNeed(st, a);
  }

  lemma ResolverKeepsNeed(st: Turn, a: Answers)
    ensures FlowResolverNode(st, a).needsTool == st.needsTool && FlowResolverNode(st, a).escalation == st.escalation
  {
  }

  lemma ExtractReplies(key: NameKey, first: Turn, a: Answers, path: seq<Node>, st: Turn)
    requires !st.escalation && st.said == None && StateOf(st.notes, st.resolved) == Collecting
    ensures var next := ExtractNode(key, st, a);
            ReplyAt(first, first, a, path + [ExtractToolArgs], Route(ExtractToolArgs, next), next)
  {
    ExtractIsSilent(key, st, a);
    var to := ToCollect(st.notes, st.resolved);
    if to.Some? {
      CollectedKeepsTool(key, st.notes, st.resolved, a.heard, a.now);
    }
  }

  lemma CollectedKeepsTool(key: NameKey, notes: Notes, resolved: Option<string>, heard: Heard, now: int)
    requires ToCollect(notes, resolved).Some?
    ensures var at := ToCollect(notes, resolved).value;
            var after := Collected(key, notes, at, heard, now);
            && Find(after, resolved) == Some(at)
            && after.flows[at].draft.value.tool == notes.flows[at].draft.value.tool
  {
    var at := ToCollect(notes, resolved).value;
    var intake := TakeIn(key, notes, notes.flows[at].draft.value, heard);
    FindAfterPut(notes, resolved, at, Some(intake.draft), now, intake.address);
  }

  lemma CallingReplies(first: Turn, a: Answers, path: seq<Node>, st: Turn)
    requires st.said == None && (st.needsTool || ReadyKnown(st))
    ensures ReplyAt(first, first, a, path + [CallingTool], Reply, CallingToolNode(st, a))
  {
    assert Last(path + [CallingTool]) == CallingTool;
    CallingSaysNothing(st, a);
    CallingNeedsTool(st, a);
  }

  lemma CallingNeedsTool(st: Turn, a: Answers)
    requires st.needsTool || ReadyKnown(st)
    ensures CallingToolNode(st, a).needsTool
  {
  }

  lemma ReplyStep(key: NameKey, c: Conversation, a: Answers, path: seq<Node>, n: Node, st: Turn)
    requires n != End && ReplyAt(Begin(Revived(c, a), a), First(c, a), a, path, n, st)
    ensures var next := Work(key, c.store, n, st, a);
            ReplyAt(Begin(Revived(c, a), a), First(c, a), a, path + [n], Route(n, next), next)
  {
    var first := First(c, a);
    match n
    case DraftGate => GateReplies(first, a, path);
    case FlowResolver => ResolverReplies(first, a, path, st);
    case ExtractToolArgs => ExtractReplies(key, first, a, path, st);
    case CallingTool => CallingReplies(first, a, path, st);
    case _ => OtherReplies(key, c.store, Begin(Revived(c, a), a), first, a, path, n, st);
  }

  lemma OtherReplies(key: NameKey, store: Option<Noted>, start: Turn, first: Turn, a: Answers, path: seq<Node>, n: Node,
                     st: Turn)
    requires n in {Hydrate, CheckLlm, QueryTool, AskReply, Escalate, Reply, Persist}
    requires ReplyAt(start, first, a, path, n, st) && first == HydrateNode(store, start, a)
    ensures var next := Work(key, store, n, st, a); ReplyAt(start, first, a, path + [n], Route(n, next), next)
  {
    assert Last(path + [n]) == n;
    if n == Reply {
      ReplySays(st, a, Last(path));
      assert (path + [n])[|path| - 1] == Last(path);
    } else if n == Persist {
      assert (path + [n])[..|path|] == path;
    }
  }

  lemma EndsSaying(key: NameKey, c: Conversation, a: Answers)
    ensures var done := TakeTurn(key, c, a);
            !done.raised ==>
              && |done.path| >= 2 && Last(done.path) == Persist
              && EndedAs(done.path[..|done.path| - 1], done.st.said, a)
  {
    StopsInInvariant(key, c, a);
    var done := TakeTurn(key, c, a);
    if !done.raised {
      EndOfPath(Begin(Revived(c, a), a), First(c, a), a, done.path, done.st);
    }
  }

  lemma EndOfPath(start: Turn, first: Turn, a: Answers, path: seq<Node>, st: Turn)
    requires ReplyAt(start, first, a, path, End, st)
    ensures |path| >= 2 && Last(path) == Persist && EndedAs(path[..|path| - 1], st.said, a)
  {
  }

  lemma StopsInInvariant(key: NameKey, c: Conversation, a: Answers)
    ensures var done := TakeTurn(key, c, a);
            !done.raised ==> ReplyAt(Begin(Revived(c, a), a), First(c, a), a, done.path, End, done.st)
  {
    EdgesFall();
    RepliesKept(key, c, a);
    var start := Begin(Revived(c, a), a);
    assert ReplyInv(c, a)([], Hydrate, start);
    HoldsFromStart(WorkOf(key, c.store, a), Route, FailsOf(a), ReplyInv(c, a), Hydrate, start);
  }

  ghost function ReplyInv(c: Conversation, a: Answers): (seq<Node>, Node, Turn) -> bool {
    (p, n, st) => ReplyAt(Begin(Revived(c, a), a), First(c, a), a, p, n, st)
  }

  lemma RepliesKept(key: NameKey, c: Conversation, a: Answers)
    ensures KeptOnPath(WorkOf(key, c.store, a), Route, FailsOf(a), ReplyInv(c, a))
  {
    forall p: seq<Node>, n: Node, st: Turn | n != End && ReplyInv(c, a)(p, n, st)
      ensures var next := Work(key, c.store, n, st, a); ReplyInv(c, a)(p + [n], Route(n, next), next)
    {
      ReplyStep(key, c, a, p, n, st);
    }
  }

  /**
   * What the server sends for every Turn that does not raise.  Its path ends with persist, after escalate or reply.
   * After reply it sends the text of the node before it: what the reply model wrote when that was calling_tool or a
   * clarification of flow_resolver, the question of ask_reply, the direct reply of check_llm, the words of a cancel at
   * draft_gate, the last three replaced by the default text when blank; it escalates when the text is blank.  After
   * escalate it escalates whenever the history ends with the customer's message.
   */
  lemma SendsByPath(key: NameKey, c: Conversation, a: Answers)
    requires !TakeTurn(key, c, a).raised
    ensures var done := TakeTurn(key, c, a);
            var n := |done.path|;
            && n >= 2 && done.path[n - 1] == Persist
            && (done.path[n - 2] == Escalate || (n >= 3 && done.path[n - 2] == Reply && LeadsToReply(done.path[n - 3])))
            && (done.path[n - 2] == Reply ==>
                  var text := TextFrom(done.path[n - 3], a);
                  Sends(done) == if Strip(text) != "" then SendReply(text) else EscalateToHuman)
            && (done.path[n - 2] == Escalate && History(c, a) != [] && History(c, a)[|History(c, a)| - 1].Human? ==>
                  Sends(done) == EscalateToHuman)
  {
    EndsSaying(key, c, a);
    SendsThisTurnsReply(key, c, a);
  }
}
