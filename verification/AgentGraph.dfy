/**
 * The graph of one Turn, apart from what its nodes do (ecom_agent/graph.py).
 *
 * `work` is what a node makes of the state, `route` the edge it then takes, `fails` whether it raises.  The
 * only thing asked of the edges is that they lead towards the end, which EdgesFall in AgentTurn shows.
 */
module AgentGraph {

  datatype Node =
    | Hydrate | DraftGate | CheckLlm | QueryTool | FlowResolver | ExtractToolArgs
    | CallingTool | AskReply | Escalate | Reply | Persist | End

  /** How far a node is from the end. */
  function Rank(node: Node): nat {
    match node
    case Hydrate => 9 case DraftGate => 8 case CheckLlm => 7 case QueryTool => 6 case FlowResolver => 5
    case ExtractToolArgs => 4 case CallingTool => 3 case AskReply => 3 case Escalate => 2 case Reply => 2
    case Persist => 1 case End => 0
  }

  /** Every edge leads towards the end, and only persist leads to it. */
  ghost predicate Falls<S(!new)>(route: (Node, S) -> Node) {
    forall n, s :: n != End ==> Rank(route(n, s)) < Rank(n) && (route(n, s) == End ==> n == Persist)
  }

  datatype Finish<+S> = Finish(path: seq<Node>, st: S, raised: bool)

  /** The run of the graph from `node` on; the state of a node that raises is the one it started from. */
  ghost function Go<S(!new)>(work: (Node, S) -> S, route: (Node, S) -> Node, fails: (Node, S) -> bool, node: Node, s: S)
    : Finish<S>
    requires Falls(route)
    decreases Rank(node)
  {
    if node == End then Finish([], s, false)
    else if fails(node, s) then Finish([node], s, true)
    else
      var next := work(node, s);
      var rest := Go(work, route, fails, route(node, next), next);
      rest.(path := [node] + rest.path)
  }

  /** One node further. */
  lemma Onward<S(!new)>(work: (Node, S) -> S, route: (Node, S) -> Node, fails: (Node, S) -> bool, node: Node, s: S)
    requires Falls(route) && node != End && !fails(node, s)
    ensures var done := Go(work, route, fails, node, s);
            var rest := Go(work, route, fails, route(node, work(node, s)), work(node, s));
            done.st == rest.st && done.raised == rest.raised
  {
  }

  /** A node, and then one that raises. */
  lemma OnwardToRaise<S(!new)>(work: (Node, S) -> S, route: (Node, S) -> Node, fails: (Node, S) -> bool,
                               node: Node, s: S)
    requires Falls(route) && node != End && !fails(node, s)
    requires var next := work(node, s); route(node, next) != End && fails(route(node, next), next)
    ensures Go(work, route, fails, node, s).raised && Go(work, route, fails, node, s).st == work(node, s)
  {
    Onward(work, route, fails, node, s);
  }

  predicate GoesDown(path: seq<Node>) {
    forall i :: 0 <= i < |path| - 1 ==> Rank(path[i + 1]) < Rank(path[i]) && path[i] != Persist
  }

  lemma {:induction false} PathEnds<S(!new)>(work: (Node, S) -> S, route: (Node, S) -> Node, fails: (Node, S) -> bool,
                                              node: Node, s: S)
    requires Falls(route) && node != End
    ensures var done := Go(work, route, fails, node, s);
            && 1 <= |done.path| <= Rank(node) && done.path[0] == node
            && (!done.raised ==> done.path[|done.path| - 1] == Persist)
            && GoesDown(done.path)
    decreases Rank(node)
  {
    if !fails(node, s) {
      var next := work(node, s);
      var to := route(node, next);
      if to != End {
        PathEnds(work, route, fails, to, next);
        var rest := Go(work, route, fails, to, next);
        var path := [node] + rest.path;
        forall i | 0 <= i < |path| - 1 ensures Rank(path[i + 1]) < Rank(path[i]) && path[i] != Persist {
          if i > 0 {
            assert path[i] == rest.path[i - 1] && path[i + 1] == rest.path[i];
          }
        }
      }
    }
  }

  lemma {:induction false} RanksFall(path: seq<Node>)
    requires GoesDown(path)
    ensures forall i, j :: 0 <= i < j < |path| ==> Rank(path[j]) < Rank(path[i])
  {
    if |path| > 1 {
      var n := |path| - 1;
      RanksFall(path[..n]);
      forall i, j | 0 <= i < j < |path| ensures Rank(path[j]) < Rank(path[i]) {
        if j == n && i < n - 1 {
          assert Rank(path[..n][n - 1]) < Rank(path[..n][i]);
        } else if j < n {
          assert Rank(path[..n][j]) < Rank(path[..n][i]);
        }
      }
    }
  }

  /**
   * Every run ends after at most nine nodes, visits no node twice, and unless a node raises reaches persist
   * exactly once, as its last node.
   */
  lemma EveryRunPersistsOnce<S(!new)>(work: (Node, S) -> S, route: (Node, S) -> Node, fails: (Node, S) -> bool, s: S)
    requires Falls(route)
    ensures var done := Go(work, route, fails, Hydrate, s);
            && 1 <= |done.path| <= 9
            && (forall i, j :: 0 <= i < j < |done.path| ==> done.path[i] != done.path[j])
            && (!done.raised ==> multiset(done.path)[Persist] == 1 && done.path[|done.path| - 1] == Persist)
  {
    PathEnds(work, route, fails, Hydrate, s);
    var done := Go(work, route, fails, Hydrate, s);
    RanksFall(done.path);
    if !done.raised {
      var n := |done.path| - 1;
      assert done.path == done.path[..n] + [done.path[n]];
      assert Persist !in done.path[..n];
    }
  }

  /** `inv` is kept by every node that does not raise. */
  ghost predicate Kept<S(!new)>(work: (Node, S) -> S, route: (Node, S) -> Node, fails: (Node, S) -> bool,
                                inv: (Node, S) -> bool) {
    forall n, s :: n != End && inv(n, s) && !fails(n, s) ==> inv(route(n, work(n, s)), work(n, s))
  }

  /** The induction principle of the graph: where a run stops, the invariant of that place holds. */
  lemma {:induction false} Holds<S(!new)>(work: (Node, S) -> S, route: (Node, S) -> Node, fails: (Node, S) -> bool,
                                          inv: (Node, S) -> bool, node: Node, s: S)
    requires Falls(route) && Kept(work, route, fails, inv) && inv(node, s)
    ensures var done := Go(work, route, fails, node, s);
            && (!done.raised ==> inv(End, done.st))
            && (done.raised ==> exists n :: n != End && inv(n, done.st) && fails(n, done.st))
    decreases Rank(node)
  {
    if node != End && !fails(node, s) {
      Holds(work, route, fails, inv, route(node, work(node, s)), work(node, s));
    }
  }

  /** The same for a run that stays away from a node: there the invariant need not be kept. */
  lemma {:induction false} HoldsAvoiding<S(!new)>(work: (Node, S) -> S, route: (Node, S) -> Node,
                                                  fails: (Node, S) -> bool, inv: (Node, S) -> bool, goal: Node,
                                                  node: Node, s: S)
    requires Falls(route) && inv(node, s)
    requires forall n, s :: n != End && n != goal && inv(n, s) && !fails(n, s) ==> inv(route(n, work(n, s)), work(n, s))
    ensures var done := Go(work, route, fails, node, s);
            !done.raised && goal !in done.path ==> inv(End, done.st)
    decreases Rank(node)
  {
    if node != End && node != goal && !fails(node, s) {
      var rest := Go(work, route, fails, route(node, work(node, s)), work(node, s));
      HoldsAvoiding(work, route, fails, inv, goal, route(node, work(node, s)), work(node, s));
      assert goal in rest.path ==> goal in [node] + rest.path;
    }
  }

  /** `inv`, which also speaks of the nodes passed so far, is kept by every node that does not raise. */
  ghost predicate KeptOnPath<S(!new)>(work: (Node, S) -> S, route: (Node, S) -> Node, fails: (Node, S) -> bool,
                                      inv: (seq<Node>, Node, S) -> bool) {
    forall p, n, s :: n != End && inv(p, n, s) && !fails(n, s) ==> inv(p + [n], route(n, work(n, s)), work(n, s))
  }

  /** The same induction for such an invariant. */
  lemma {:induction false} HoldsOnPath<S(!new)>(work: (Node, S) -> S, route: (Node, S) -> Node,
                                                fails: (Node, S) -> bool,
                                                inv: (seq<Node>, Node, S) -> bool, passed: seq<Node>, node: Node, s: S)
    requires Falls(route) && KeptOnPath(work, route, fails, inv) && inv(passed, node, s)
    ensures var done := Go(work, route, fails, node, s);
            !done.raised ==> inv(passed + done.path, End, done.st)
    decreases Rank(node)
  {
    if node == End {
      assert passed + [] == passed;
    } else if !fails(node, s) {
      var next := work(node, s);
      var rest := Go(work, route, fails, route(node, next), next);
      HoldsOnPath(work, route, fails, inv, passed + [node], route(node, next), next);
      assert passed + ([node] + rest.path) == passed + [node] + rest.path;
    }
  }

  lemma HoldsFromStart<S(!new)>(work: (Node, S) -> S, route: (Node, S) -> Node, fails: (Node, S) -> bool,
                                inv: (seq<Node>, Node, S) -> bool, node: Node, s: S)
    requires Falls(route) && KeptOnPath(work, route, fails, inv) && inv([], node, s)
    ensures var done := Go(work, route, fails, node, s); !done.raised ==> inv(done.path, End, done.st)
  {
    HoldsOnPath(work, route, fails, inv, [], node, s);
    var path := Go(work, route, fails, node, s).path;
    assert [] + path == path;
  }
}
