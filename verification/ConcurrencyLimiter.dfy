/**
 * The async gate that bounds parallel media downloads
 * (OpenWA/src/engine/adapters/concurrency-limiter.ts).
 *
 * Between two awaits the JavaScript runs alone, so the gate is a step system: a task arrives, a woken task
 * resumes, a running task settles.  A parked task whose promise was resolved is *woken*: it has been handed
 * the slot but has not resumed, and any other step may come first.
 */
module ConcurrencyLimiter {

  datatype Gate = Gate(
    max: nat,
    active: int,
    waiters: seq<nat>,   // parked, in the order of their arrival
    woken: set<nat>,     // handed a slot, not resumed yet
    running: set<nat>,
    done: set<nat>,
    arrived: seq<nat>,   // every task that called run(), in order
    granted: seq<nat>)   // every task that was given a slot, in order

  datatype Step =
    | Arrive(task: nat)
    | Resume(task: nat)
    | Settle(task: nat)  // the task's promise resolved or rejected; the finally block runs

  /** `Math.max(1, Math.floor(max))`. */
  function Clamp(max: real): (limit: nat)
    ensures limit >= 1
    ensures max >= 1.0 ==> limit as real <= max < limit as real + 1.0
    ensures max < 1.0 ==> limit == 1
  {
    if max.Floor >= 1 then max.Floor else 1
  }

  function Open(max: real): Gate {
    Gate(Clamp(max), 0, [], {}, {}, {}, [], [])
  }

  predicate Enabled(g: Gate, step: Step) {
    match step
    case Arrive(t) => t !in g.arrived
    case Resume(t) => t in g.woken
    case Settle(t) => t in g.running
  }

  function Next(g: Gate, step: Step): Gate
    requires Enabled(g, step)
  {
    match step
    case Arrive(t) =>
      var g := g.(arrived := g.arrived + [t]);
      if g.active < g.max
      then g.(active := g.active + 1, running := g.running + {t}, granted := g.granted + [t])
      else g.(waiters := g.waiters + [t])
    case Resume(t) => g.(woken := g.woken - {t}, running := g.running + {t})
    case Settle(t) =>
      var g := g.(running := g.running - {t}, done := g.done + {t});
      if g.waiters != []
      then g.(waiters := g.waiters[1..], woken := g.woken + {g.waiters[0]}, granted := g.granted + [g.waiters[0]])
      else g.(active := g.active - 1)
  }

  predicate Legal(g: Gate, steps: seq<Step>)
    decreases |steps|
  {
    steps == [] || (Enabled(g, steps[0]) && Legal(Next(g, steps[0]), steps[1..]))
  }

  function After(g: Gate, steps: seq<Step>): Gate
    requires Legal(g, steps)
    decreases |steps|
  {
    if steps == [] then g else After(Next(g, steps[0]), steps[1..])
  }

  // ---- The invariant ----

  predicate NoDuplicates(s: seq<nat>) {
    forall i, j :: 0 <= i < j < |s| ==> s[i] != s[j]
  }

  ghost predicate Inv(g: Gate) {
    && g.max >= 1
    && g.active == |g.running| + |g.woken| <= g.max
    && (g.waiters != [] ==> g.active == g.max)
    && g.arrived == g.granted + g.waiters
    && NoDuplicates(g.arrived)
    && g.running !! g.woken && g.running !! g.done && g.woken !! g.done
    && (forall t :: t in g.granted <==> t in g.running || t in g.woken || t in g.done)
  }

  /** A parked task was given no slot yet. */
  lemma ParkedHasNoSlot(g: Gate, i: nat)
    requires Inv(g) && i < |g.waiters|
    ensures g.waiters[i] !in g.granted
  {
    assert g.arrived[|g.granted| + i] == g.waiters[i];
    assert forall j :: 0 <= j < |g.granted| ==> g.arrived[j] == g.granted[j];
  }

  lemma ArriveKeepsInv(g: Gate, t: nat)
    requires Inv(g) && t !in g.arrived
    ensures Inv(Next(g, Arrive(t)))
  {
    var h := Next(g, Arrive(t));
    assert t !in g.granted by {
      assert forall x :: x in g.granted ==> x in g.arrived;
    }
    assert h.arrived == h.granted + h.waiters;
    assert forall x :: x in g.granted + [t] <==> x in g.granted || x == t;
  }

  lemma ResumeKeepsInv(g: Gate, t: nat)
    requires Inv(g) && t in g.woken
    ensures Inv(Next(g, Resume(t)))
  {
  }

  lemma SettleKeepsInv(g: Gate, t: nat)
    requires Inv(g) && t in g.running
    ensures Inv(Next(g, Settle(t)))
  {
    var h := Next(g, Settle(t));
    assert |g.running - {t}| == |g.running| - 1;
    if g.waiters != [] {
      var w := g.waiters[0];
      ParkedHasNoSlot(g, 0);
      assert h.granted + h.waiters == g.granted + ([w] + g.waiters[1..]);
      assert [w] + g.waiters[1..] == g.waiters;
      assert forall x :: x in g.granted + [w] <==> x in g.granted || x == w;
    }
  }

  lemma InvStep(g: Gate, step: Step)
    requires Inv(g) && Enabled(g, step)
    ensures Inv(Next(g, step))
  {
    match step
    case Arrive(t) => ArriveKeepsInv(g, t);
    case Resume(t) => ResumeKeepsInv(g, t);
    case Settle(t) => SettleKeepsInv(g, t);
  }

  lemma {:induction false} InvHolds(g: Gate, steps: seq<Step>)
    requires Inv(g) && Legal(g, steps)
    ensures Inv(After(g, steps))
    ensures After(g, steps).max == g.max
    decreases |steps|
  {
    if steps != [] {
      InvStep(g, steps[0]);
      InvHolds(Next(g, steps[0]), steps[1..]);
    }
  }

  // ---- Safety, over every interleaving ----

  /**
   * `active` counts exactly the tasks that run or were handed a slot, it never exceeds the limit, and a
   * parked task means that every slot is held.
   */
  lemma NeverOverAdmits(max: real, steps: seq<Step>)
    requires Legal(Open(max), steps)
    ensures var g := After(Open(max), steps);
            && g.active == |g.running| + |g.woken| == |g.running + g.woken|
            && |g.running| <= g.active <= Clamp(max)
            && (g.waiters != [] ==> g.active == Clamp(max))
  {
    InvHolds(Open(max), steps);
  }

  /** Slots are granted in the exact order of arrival: nobody overtakes, nobody is skipped, nobody gets two. */
  lemma FirstComeFirstServed(max: real, steps: seq<Step>)
    requires Legal(Open(max), steps)
    ensures var g := After(Open(max), steps);
            && g.granted <= g.arrived
            && g.arrived[|g.granted|..] == g.waiters
            && NoDuplicates(g.granted)
  {
    InvHolds(Open(max), steps);
    var g := After(Open(max), steps);
    assert forall i :: 0 <= i < |g.granted| ==> g.granted[i] == g.arrived[i];
  }

  // ---- Liveness: no wake-up is lost ----

  /** What is left to do, if nobody else arrives. */
  function Work(g: Gate): nat {
    |g.running| + 2 * |g.woken| + 3 * |g.waiters|
  }

  lemma WorkShrinks(g: Gate, step: Step)
    requires Inv(g) && Enabled(g, step) && !step.Arrive?
    ensures Work(Next(g, step)) < Work(g)
  {
    InvStep(g, step);
    if step.Settle? {
      assert |g.running - {step.task}| == |g.running| - 1;
    }
  }

  lemma {:induction false} WorkBoundsRuns(g: Gate, steps: seq<Step>)
    requires Inv(g) && Legal(g, steps)
    requires forall i :: 0 <= i < |steps| ==> !steps[i].Arrive?
    ensures |steps| + Work(After(g, steps)) <= Work(g)
    ensures After(g, steps).arrived == g.arrived
    decreases |steps|
  {
    if steps != [] {
      InvStep(g, steps[0]);
      WorkShrinks(g, steps[0]);
      WorkBoundsRuns(Next(g, steps[0]), steps[1..]);
    }
  }

  /**
   * From every reachable state, once arrivals stop: the steps that remain are finite in number, and when none
   * is possible any more every task that ever arrived has been run to its end.
   */
  lemma EveryTaskIsServed(max: real, steps: seq<Step>, more: seq<Step>)
    requires Legal(Open(max), steps) && Legal(After(Open(max), steps), more)
    requires forall i :: 0 <= i < |more| ==> !more[i].Arrive?
    ensures |more| <= Work(After(Open(max), steps))
    ensures var g := After(After(Open(max), steps), more);
            && g.arrived == After(Open(max), steps).arrived
            && ((forall step: Step :: !step.Arrive? ==> !Enabled(g, step)) ==>
                  g.waiters == [] && forall t :: t in g.arrived ==> t in g.done)
  {
    InvHolds(Open(max), steps);
    var mid := After(Open(max), steps);
    InvHolds(mid, more);
    WorkBoundsRuns(mid, more);
    var g := After(mid, more);
    if forall step: Step :: !step.Arrive? ==> !Enabled(g, step) {
      forall t ensures t !in g.running && t !in g.woken {
        assert !Enabled(g, Settle(t)) && !Enabled(g, Resume(t));
      }
      assert g.running == {} && g.woken == {};
    }
  }

  // ---- The class itself ----

  class Limiter {
    const max: nat
    var active: int
    var waiters: seq<nat>
    ghost var woken: set<nat>
    ghost var running: set<nat>
    ghost var done: set<nat>
    ghost var arrived: seq<nat>
    ghost var granted: seq<nat>

    ghost function State(): Gate
      reads this
    {
      Gate(max, active, waiters, woken, running, done, arrived, granted)
    }

    constructor (max: real)
      ensures State() == Open(max)
    {
      this.max := Clamp(max);
      active, waiters := 0, [];
      woken, running, done, arrived, granted := {}, {}, {}, [], [];
    }

    /** run() up to its first await; true when the task starts at once. */
    method Run(task: nat) returns (admitted: bool)
      requires Inv(State()) && Enabled(State(), Arrive(task))
      modifies this
      ensures State() == Next(old(State()), Arrive(task)) && Inv(State())
      ensures admitted <==> task in running
      ensures !admitted <==> waiters == old(waiters) + [task]
    {
      InvStep(State(), Arrive(task));
      arrived := arrived + [task];
      if active < max {
        active := active + 1;
        running, granted := running + {task}, granted + [task];
        return true;
      }
      waiters := waiters + [task];
      return false;
    }

    /** The parked run() continues after its await; it does not count itself again. */
    method Resumed(task: nat)
      requires Inv(State()) && Enabled(State(), Resume(task))
      modifies this
      ensures State() == Next(old(State()), Resume(task)) && Inv(State())
      ensures active == old(active)
    {
      InvStep(State(), Resume(task));
      woken, running := woken - {task}, running + {task};
    }

    /** The finally block of a settled task. */
    method Settled(task: nat)
      requires Inv(State()) && Enabled(State(), Settle(task))
      modifies this
      ensures State() == Next(old(State()), Settle(task)) && Inv(State())
      ensures active == if old(waiters) == [] then old(active) - 1 else old(active)
    {
      InvStep(State(), Settle(task));
      assert |running| >= 1 by {
        assert running == (running - {task}) + {task};
      }
      running, done := running - {task}, done + {task};
      if waiters != [] {
        woken, granted := woken + {waiters[0]}, granted + [waiters[0]];
        waiters := waiters[1..];
      } else {
        active := active - 1;
      }
    }
  }
}
