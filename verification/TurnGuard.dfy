/**
 * The retry guard around one agent Turn (ecom_agent/turn_guard.py).
 *
 * Any number of callers handle any number of messages.  A caller takes the lock of its Conversation,
 * looks for a saved result, and otherwise runs the Turn, saves the result and returns it.  A caller may
 * time out while it waits and may crash at any moment; a crash closes its connection, which frees its lock.
 *
 * The lock number is an arbitrary function of the Conversation (`hashtextextended` may collide), so every
 * theorem below holds for the Postgres lock and for the in-process lock alike.
 */
module TurnGuard {
  import opened Wrappers

  datatype TurnResult = TurnResult(escalate: bool, text: string)

  /** What a retry repeats: one message of one Conversation. */
  datatype Request = Request(conversation: string, message: string)

  datatype Phase =
    | Waiting                        // asked for the lock
    | Holding                        // has the lock, has not looked for a saved result yet
    | Missed                         // no saved result
    | Running                        // inside run()
    | Finished(result: TurnResult)   // run() returned, nothing saved yet
    | Answering(result: TurnResult)  // the result is in the store
    | Returned(result: TurnResult)
    | Busy                           // TurnBusy was raised
    | Crashed
  {
    /** Inside `with self._hold(...)`. */
    predicate HoldsLock() {
      Holding? || Missed? || Running? || Finished? || Answering?
    }

    /** The Turn has started and its result is not saved. */
    predicate Unsaved() {
      Running? || Finished?
    }
  }

  datatype Caller = Caller(request: Request, phase: Phase)

  /** What an observer can see of a run. */
  datatype Event =
    | Began(request: Request)
    | Ended(request: Request, result: TurnResult)
    | Lost(request: Request)  // the caller died between the start of its Turn and its save
    | Answered(request: Request, result: TurnResult)

  datatype System = System(
    callers: map<nat, Caller>,
    locks: map<int, nat>,
    store: map<Request, TurnResult>,
    log: seq<Event>)
  {
    function Move(id: nat, phase: Phase): System
      requires id in callers
    {
      this.(callers := callers[id := callers[id].(phase := phase)])
    }

    function Record(e: Event): System {
      this.(log := log + [e])
    }

    /** How often an event was seen. */
    function Seen(e: Event): nat {
      multiset(log)[e]
    }
  }

  const Empty := System(map[], map[], map[], [])

  datatype Step =
    | Arrive(id: nat, request: Request)
    | Acquire(id: nat)
    | TimeOut(id: nat)
    | Load(id: nat)
    | BeginRun(id: nat)
    | EndRun(id: nat, result: TurnResult)
    | Save(id: nat)
    | Return(id: nat)
    | Crash(id: nat)

  type LockKey = string -> int

  function KeyOf(key: LockKey, c: Caller): int {
    key(c.request.conversation)
  }

  predicate Enabled(key: LockKey, s: System, step: Step) {
    if step.Arrive? then step.id !in s.callers else
    step.id in s.callers &&
    var c := s.callers[step.id];
    match step
    case Acquire(_) => c.phase.Waiting? && KeyOf(key, c) !in s.locks
    case TimeOut(_) => c.phase.Waiting?
    case Load(_) => c.phase.Holding?
    case BeginRun(_) => c.phase.Missed?
    case EndRun(_, _) => c.phase.Running?
    case Save(_) => c.phase.Finished?
    case Return(_) => c.phase.Answering?
    case Crash(_) => c.phase.Waiting? || c.phase.HoldsLock()
    case Arrive(_, _) => true
  }

  function Next(key: LockKey, s: System, step: Step): System
    requires Enabled(key, s, step)
  {
    if step.Arrive? then s.(callers := s.callers[step.id := Caller(step.request, Waiting)]) else
    var id := step.id;
    var c := s.callers[id];
    var k := KeyOf(key, c);
    match step
    case Acquire(_) => s.Move(id, Holding).(locks := s.locks[k := id])
    case TimeOut(_) => s.Move(id, Busy)
    case Load(_) =>
      if c.request in s.store then s.Move(id, Answering(s.store[c.request])) else s.Move(id, Missed)
    case BeginRun(_) => s.Move(id, Running).Record(Began(c.request))
    case EndRun(_, result) => s.Move(id, Finished(result)).Record(Ended(c.request, result))
    case Save(_) => s.Move(id, Answering(c.phase.result)).(store := s.store[c.request := c.phase.result])
    case Return(_) =>
      s.Move(id, Returned(c.phase.result)).(locks := s.locks - {k}).Record(Answered(c.request, c.phase.result))
    case Crash(_) =>
      var freed := s.Move(id, Crashed).(locks := if c.phase.HoldsLock() then s.locks - {k} else s.locks);
      if c.phase.Unsaved() then freed.Record(Lost(c.request)) else freed
    case Arrive(_, _) => s
  }

  /** `steps` is an interleaving the system can take from `s`. */
  predicate Legal(key: LockKey, s: System, steps: seq<Step>)
    decreases |steps|
  {
    steps == [] || (Enabled(key, s, steps[0]) && Legal(key, Next(key, s, steps[0]), steps[1..]))
  }

  function After(key: LockKey, s: System, steps: seq<Step>): System
    requires Legal(key, s, steps)
    decreases |steps|
  {
    if steps == [] then s else After(key, Next(key, s, steps[0]), steps[1..])
  }

  // ---- The invariant ----

  /** The lock `k`, if taken, is held by a live caller of a Conversation with this number. */
  predicate LockMatches(key: LockKey, s: System, k: int) {
    k in s.locks ==>
      s.locks[k] in s.callers && s.callers[s.locks[k]].phase.HoldsLock() && KeyOf(key, s.callers[s.locks[k]]) == k
  }

  /** A caller inside the critical section holds the lock of its Conversation. */
  predicate CallerMatches(key: LockKey, s: System, id: nat) {
    id in s.callers && s.callers[id].phase.HoldsLock() ==>
      KeyOf(key, s.callers[id]) in s.locks && s.locks[KeyOf(key, s.callers[id])] == id
  }

  /** Locks and critical sections match one to one. */
  ghost predicate LocksMatch(key: LockKey, s: System) {
    (forall k :: LockMatches(key, s, k)) && (forall id :: CallerMatches(key, s, id))
  }

  /** What a caller knows about its own request is true of the store. */
  predicate Knows(s: System, c: Caller) {
    match c.phase
    case Missed => c.request !in s.store
    case Running => c.request !in s.store
    case Finished(r) => c.request !in s.store && Ended(c.request, r) in s.log
    case Answering(r) => c.request in s.store && s.store[c.request] == r
    case Returned(r) => c.request in s.store && s.store[c.request] == r
    case _ => true
  }

  ghost predicate KnowledgeHolds(s: System) {
    && (forall id :: id in s.callers ==> Knows(s, s.callers[id]))
    && (forall q, r :: Answered(q, r) in s.log ==> q in s.store && s.store[q] == r)
    && (forall q :: q in s.store ==> Ended(q, s.store[q]) in s.log)
  }

  /** 1 when a live caller is between the start of the Turn of `q` and its save. */
  function InFlight(key: LockKey, s: System, q: Request): nat {
    var k := key(q.conversation);
    if k in s.locks && s.locks[k] in s.callers
       && s.callers[s.locks[k]].request == q && s.callers[s.locks[k]].phase.Unsaved()
    then 1 else 0
  }

  function SavedOnce(s: System, q: Request): nat {
    if q in s.store then 1 else 0
  }

  /** Every start of a Turn is accounted for: lost in a crash, saved, or still in flight. */
  ghost predicate Balanced(key: LockKey, s: System) {
    forall q :: BalancedAt(key, s, q)
  }

  ghost predicate Inv(key: LockKey, s: System) {
    LocksMatch(key, s) && KnowledgeHolds(s) && Balanced(key, s)
  }

  // ---- Every step keeps the invariant ----

  lemma LocksMatchStep(key: LockKey, s: System, step: Step)
    requires LocksMatch(key, s) && Enabled(key, s, step)
    ensures LocksMatch(key, Next(key, s, step))
  {
    var t := Next(key, s, step);
    forall k ensures LockMatches(key, t, k) {
      assert LockMatches(key, s, k);
      assert CallerMatches(key, s, step.id);
    }
    forall id ensures CallerMatches(key, t, id) {
      assert CallerMatches(key, s, id) && CallerMatches(key, s, step.id);
    }
  }

  /** While one caller is past its load, no other caller can save the same request. */
  lemma AloneWithItsRequest(key: LockKey, s: System, a: nat, b: nat)
    requires LocksMatch(key, s)
    requires a in s.callers && b in s.callers && a != b
    requires s.callers[a].phase.HoldsLock() && s.callers[b].phase.HoldsLock()
    ensures s.callers[a].request.conversation != s.callers[b].request.conversation
  {
    assert CallerMatches(key, s, a) && CallerMatches(key, s, b);
  }

  lemma KnowledgeStep(key: LockKey, s: System, step: Step)
    requires LocksMatch(key, s) && KnowledgeHolds(s) && Enabled(key, s, step)
    ensures KnowledgeHolds(Next(key, s, step))
  {
    var t := Next(key, s, step);
    forall id | id in t.callers ensures Knows(t, t.callers[id]) {
      if id != step.id {
        assert Knows(s, s.callers[id]);
        if step.Save? && s.callers[id].phase.HoldsLock() {
          AloneWithItsRequest(key, s, id, step.id);
        }
      }
    }
  }

  ghost predicate BalancedAt(key: LockKey, s: System, q: Request) {
    s.Seen(Began(q)) == s.Seen(Lost(q)) + SavedOnce(s, q) + InFlight(key, s, q)
  }

  lemma RecordCounts(s: System, e: Event, other: Event)
    ensures s.Record(e).Seen(other) == s.Seen(other) + (if e == other then 1 else 0)
  {
  }

  /** Only the start of the Turn of `q` is recorded as such, and only its loss as a loss. */
  lemma SeenStep(key: LockKey, s: System, step: Step, q: Request)
    requires Enabled(key, s, step)
    ensures var t := Next(key, s, step);
            var own := !step.Arrive? && s.callers[step.id].request == q;
            && t.Seen(Began(q)) == s.Seen(Began(q)) + (if own && step.BeginRun? then 1 else 0)
            && t.Seen(Lost(q)) == s.Seen(Lost(q))
                 + (if own && step.Crash? && s.callers[step.id].phase.Unsaved() then 1 else 0)
  {
    var t := Next(key, s, step);
    if t.log != s.log {
      var e := t.log[|s.log|];
      assert t.log == s.log + [e];
      RecordCounts(s, e, Began(q));
      RecordCounts(s, e, Lost(q));
    }
  }

  lemma FlightStep(key: LockKey, s: System, step: Step, q: Request)
    requires LocksMatch(key, s) && KnowledgeHolds(s) && Enabled(key, s, step)
    ensures var t := Next(key, s, step);
            var own := !step.Arrive? && s.callers[step.id].request == q;
            SavedOnce(t, q) + InFlight(key, t, q) == SavedOnce(s, q) + InFlight(key, s, q)
              + (if own && step.BeginRun? then 1 else 0)
              - (if own && step.Crash? && s.callers[step.id].phase.Unsaved() then 1 else 0)
  {
    assert LockMatches(key, s, key(q.conversation)) && CallerMatches(key, s, step.id);
    if !step.Arrive? {
      assert Knows(s, s.callers[step.id]);
    }
  }

  lemma BalancedStep(key: LockKey, s: System, step: Step, q: Request)
    requires LocksMatch(key, s) && KnowledgeHolds(s) && Enabled(key, s, step) && BalancedAt(key, s, q)
    ensures BalancedAt(key, Next(key, s, step), q)
  {
    SeenStep(key, s, step, q);
    FlightStep(key, s, step, q);
  }

  lemma InvStep(key: LockKey, s: System, step: Step)
    requires Inv(key, s) && Enabled(key, s, step)
    ensures Inv(key, Next(key, s, step))
  {
    LocksMatchStep(key, s, step);
    KnowledgeStep(key, s, step);
    forall q ensures BalancedAt(key, Next(key, s, step), q) {
      assert BalancedAt(key, s, q);
      BalancedStep(key, s, step, q);
    }
  }

  lemma {:induction false} InvHolds(key: LockKey, s: System, steps: seq<Step>)
    requires Inv(key, s) && Legal(key, s, steps)
    ensures Inv(key, After(key, s, steps))
    decreases |steps|
  {
    if steps != [] {
      InvStep(key, s, steps[0]);
      InvHolds(key, Next(key, s, steps[0]), steps[1..]);
    }
  }

  // ---- The theorems, over every interleaving ----

  /** Only one Turn runs at a time for one Conversation. */
  lemma OneTurnPerConversation(key: LockKey, steps: seq<Step>, a: nat, b: nat)
    requires Legal(key, Empty, steps)
    ensures var s := After(key, Empty, steps);
            a in s.callers && b in s.callers
            && s.callers[a].phase.HoldsLock() && s.callers[b].phase.HoldsLock()
            && s.callers[a].request.conversation == s.callers[b].request.conversation
            ==> a == b
  {
    InvHolds(key, Empty, steps);
    var s := After(key, Empty, steps);
    assert CallerMatches(key, s, a) && CallerMatches(key, s, b);
  }

  /** All answers ever returned for one message are equal, and each is the result of a real run of it. */
  lemma SameAnswer(key: LockKey, steps: seq<Step>, q: Request, r1: TurnResult, r2: TurnResult)
    requires Legal(key, Empty, steps)
    requires Answered(q, r1) in After(key, Empty, steps).log
    requires Answered(q, r2) in After(key, Empty, steps).log
    ensures r1 == r2
    ensures Ended(q, r1) in After(key, Empty, steps).log
  {
    InvHolds(key, Empty, steps);
  }

  /**
   * A message runs at most once plus the number of crashes between its run and its save; once a result is
   * saved, the number of runs is exactly that.
   */
  lemma RunsAreCounted(key: LockKey, steps: seq<Step>, q: Request)
    requires Legal(key, Empty, steps)
    ensures var s := After(key, Empty, steps);
            && s.Seen(Began(q)) <= 1 + s.Seen(Lost(q))
            && (q in s.store ==> s.Seen(Began(q)) == 1 + s.Seen(Lost(q)))
  {
    InvHolds(key, Empty, steps);
    var s := After(key, Empty, steps);
    assert BalancedAt(key, s, q);
    if InFlight(key, s, q) == 1 {
      assert Knows(s, s.callers[s.locks[key(q.conversation)]]);
    }
  }

  /** A lock is never left behind: whoever holds it is a live caller that can still take a step. */
  lemma NoLockIsLeftBehind(key: LockKey, steps: seq<Step>, k: int)
    requires Legal(key, Empty, steps)
    requires k in After(key, Empty, steps).locks
    ensures var s := After(key, Empty, steps);
            exists step: Step :: !step.Arrive? && !step.Crash? && !step.TimeOut?
              && step.id == s.locks[k] && Enabled(key, s, step)
  {
    InvHolds(key, Empty, steps);
    var s := After(key, Empty, steps);
    assert LockMatches(key, s, k);
    var id := s.locks[k];
    var step := match s.callers[id].phase
      case Holding => Load(id)
      case Missed => BeginRun(id)
      case Running => EndRun(id, TurnResult(true, ""))
      case Finished(_) => Save(id)
      case _ => Return(id);
    assert Enabled(key, s, step);
  }

  lemma SavedStep(key: LockKey, s: System, step: Step, q: Request)
    requires Inv(key, s) && Enabled(key, s, step) && q in s.store
    ensures var t := Next(key, s, step);
            q in t.store && t.store[q] == s.store[q] && t.Seen(Began(q)) == s.Seen(Began(q))
  {
    var t := Next(key, s, step);
    if !step.Arrive? {
      assert Knows(s, s.callers[step.id]);
      if t.log != s.log {
        assert t.log == s.log + [t.log[|s.log|]];
        RecordCounts(s, t.log[|s.log|], Began(q));
      }
    }
  }

  /** From the save on, the result of a message never changes and the message never runs again. */
  lemma {:induction false} SavedForever(key: LockKey, s: System, steps: seq<Step>, q: Request)
    requires Inv(key, s) && Legal(key, s, steps) && q in s.store
    ensures q in After(key, s, steps).store && After(key, s, steps).store[q] == s.store[q]
    ensures After(key, s, steps).Seen(Began(q)) == s.Seen(Began(q))
    decreases |steps|
  {
    if steps != [] {
      InvStep(key, s, steps[0]);
      SavedStep(key, s, steps[0], q);
      SavedForever(key, Next(key, s, steps[0]), steps[1..], q);
    }
  }

  // ---- run_once, one caller while nobody else moves ----

  lemma {:induction false} OneMore(key: LockKey, s: System, steps: seq<Step>, last: Step)
    requires Legal(key, s, steps) && Enabled(key, After(key, s, steps), last)
    ensures Legal(key, s, steps + [last])
    ensures After(key, s, steps + [last]) == Next(key, After(key, s, steps), last)
    decreases |steps|
  {
    if steps == [] {
      assert (steps + [last])[1..] == [];
    } else {
      assert (steps + [last])[1..] == steps[1..] + [last];
      OneMore(key, Next(key, s, steps[0]), steps[1..], last);
    }
  }

  class Guard {
    const key: LockKey
    var callers: map<nat, Caller>
    var locks: map<int, nat>
    var store: map<Request, TurnResult>
    ghost var log: seq<Event>

    ghost function State(): System
      reads this
    {
      System(callers, locks, store, log)
    }

    constructor (key: LockKey)
      ensures this.key == key && State() == Empty
    {
      this.key := key;
      callers, locks, store, log := map[], map[], map[], [];
    }

    /** `_hold`: take the lock of the Conversation; false when it is not free (TurnBusy). */
    method Hold(id: nat, q: Request) returns (held: bool)
      requires id in callers && callers[id] == Caller(q, Waiting)
      modifies this
      ensures held == (key(q.conversation) !in old(locks))
      ensures State() == Next(key, old(State()), if held then Acquire(id) else TimeOut(id))
    {
      var k := key(q.conversation);
      held := k !in locks;
      if held {
        locks := locks[k := id];
        callers := callers[id := Caller(q, Holding)];
      } else {
        callers := callers[id := Caller(q, Busy)];
      }
    }

    /** `_load`: the saved result of this message, if any. */
    method LoadSaved(id: nat, q: Request) returns (saved: Option<TurnResult>)
      requires id in callers && callers[id] == Caller(q, Holding)
      modifies this
      ensures State() == Next(key, old(State()), Load(id))
      ensures saved == if q in old(store) then Some(old(store)[q]) else None
    {
      if q in store {
        saved := Some(store[q]);
        callers := callers[id := Caller(q, Answering(store[q]))];
      } else {
        saved := None;
        callers := callers[id := Caller(q, Missed)];
      }
    }

    /** `_save`. */
    method SaveResult(id: nat, q: Request, result: TurnResult)
      requires id in callers && callers[id] == Caller(q, Finished(result))
      modifies this
      ensures State() == Next(key, old(State()), Save(id))
    {
      store := store[q := result];
      callers := callers[id := Caller(q, Answering(result))];
    }

    /** Leaving `with self._hold(...)` with an answer. */
    method Release(id: nat, q: Request, result: TurnResult)
      requires id in callers && callers[id] == Caller(q, Answering(result))
      modifies this
      ensures State() == Next(key, old(State()), Return(id))
    {
      locks := locks - {key(q.conversation)};
      callers := callers[id := Caller(q, Returned(result))];
      log := log + [Answered(q, result)];
    }

    /** The state is what `steps` make of `s`. */
    ghost predicate Traces(s: System, steps: seq<Step>, id: nat)
      reads this
    {
      && Legal(key, s, steps) && State() == After(key, s, steps)
      && forall step :: step in steps ==> step.id == id && !step.Crash?
    }

    /** The Turn itself, between a load that found nothing and the answer. */
    method RunAndSave(id: nat, q: Request, ran: TurnResult, ghost s: System, ghost before: seq<Step>)
      returns (ghost steps: seq<Step>)
      requires id in callers && callers[id] == Caller(q, Missed) && Traces(s, before, id)
      modifies this
      ensures Traces(s, steps, id)
      ensures callers == old(callers)[id := Caller(q, Answering(ran))]
      ensures locks == old(locks) && store == old(store)[q := ran] && log == old(log) + [Began(q), Ended(q, ran)]
    {
      OneMore(key, s, before, BeginRun(id));
      callers := callers[id := Caller(q, Running)];
      log := log + [Began(q)];
      steps := before + [BeginRun(id)];
      OneMore(key, s, steps, EndRun(id, ran));
      callers := callers[id := Caller(q, Finished(ran))];
      log := log + [Ended(q, ran)];
      steps := steps + [EndRun(id, ran)];
      OneMore(key, s, steps, Save(id));
      SaveResult(id, q, ran);
      steps := steps + [Save(id)];
    }

    /** Arrive and take the lock of the Conversation, if it is free. */
    method Enter(id: nat, q: Request) returns (held: bool, ghost steps: seq<Step>)
      requires id !in callers
      modifies this
      ensures Traces(old(State()), steps, id)
      ensures held == (key(q.conversation) !in old(locks))
      ensures callers == old(callers)[id := Caller(q, if held then Holding else Busy)]
      ensures locks == if held then old(locks)[key(q.conversation) := id] else old(locks)
      ensures store == old(store) && log == old(log)
    {
      ghost var s := State();
      OneMore(key, s, [], Arrive(id, q));
      callers := callers[id := Caller(q, Waiting)];
      steps := [] + [Arrive(id, q)];
      OneMore(key, s, steps, if key(q.conversation) !in locks then Acquire(id) else TimeOut(id));
      held := Hold(id, q);
      steps := steps + [if held then Acquire(id) else TimeOut(id)];
    }

    /** Under the lock: the saved result, or the result of the Turn once it is saved. */
    method LookOrRun(id: nat, q: Request, ran: TurnResult, ghost s: System, ghost before: seq<Step>)
      returns (answer: Option<TurnResult>, ghost steps: seq<Step>)
      requires id in callers && callers[id] == Caller(q, Holding) && Traces(s, before, id)
      modifies this
      ensures Traces(s, steps, id)
      ensures answer == Some(if q in old(store) then old(store)[q] else ran)
      ensures callers == old(callers)[id := Caller(q, Answering(answer.value))]
      ensures locks == old(locks) && store == old(store)[q := answer.value]
      ensures log == old(log) + (if q in old(store) then [] else [Began(q), Ended(q, ran)])
    {
      OneMore(key, s, before, Load(id));
      answer := LoadSaved(id, q);
      steps := before + [Load(id)];
      if answer.None? {
        steps := RunAndSave(id, q, ran, s, steps);
        answer := Some(ran);
      }
    }

    /**
     * run_once.  `ran` is what the Turn returns if it is run.  The call takes only steps of the protocol,
     * leaves every lock as it was, and answers with what the store then holds for the message.
     */
    method RunOnce(id: nat, q: Request, ran: TurnResult) returns (answer: Option<TurnResult>, ghost steps: seq<Step>)
      requires id !in callers
      modifies this
      ensures Traces(old(State()), steps, id)
      ensures answer.None? == (key(q.conversation) in old(locks))
      ensures answer.None? ==> store == old(store) && log == old(log)
      ensures answer.Some? ==>
                && answer.value == (if q in old(store) then old(store)[q] else ran)
                && store == old(store)[q := answer.value]
                && log == old(log) + (if q in old(store) then [] else [Began(q), Ended(q, ran)])
                          + [Answered(q, answer.value)]
      ensures locks == old(locks)
    {
      ghost var s := State();
      var held;
      held, steps := Enter(id, q);
      if !held {
        return None, steps;
      }
      answer, steps := LookOrRun(id, q, ran, s, steps);
      OneMore(key, s, steps, Return(id));
      Release(id, q, answer.value);
      steps := steps + [Return(id)];
    }
  }
}
