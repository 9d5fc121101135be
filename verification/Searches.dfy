/** The three graph searches of the builder: reachability, path to a terminal, cycle detection. */
module Searches {
  import opened Definition
  import opened Graphs
  import opened RequiresProduces

  // ---------- the edge relation of checkReachability and canReachTerminal ----------

  function Targets(t: Transition): set<State> {
    if t.kind == SubFlow && t.subFlow.Some? then t.subFlow.value.exitMappings.Values else {t.to}
  }

  function AllTargets(ts: seq<Transition>): set<State> {
    if ts == [] then {} else Targets(ts[0]) + AllTargets(ts[1..])
  }

  function ErrorTarget(def: FlowDef, s: State): set<State> {
    if s in def.errorTransitions then {def.errorTransitions[s]} else {}
  }

  function StepGraph(def: FlowDef): Graph {
    map s | s in def.states :: AllTargets(def.TransitionsFrom(s)) + ErrorTarget(def, s)
  }

  /** A sub-flow transition leads where its exits are mapped, any other to its target. */
  ghost predicate MayLead(t: Transition, b: State) {
    if t.kind == SubFlow && t.subFlow.Some? then exists x | x in t.subFlow.value.exitMappings :: t.subFlow.value.exitMappings[x] == b
    else t.to == b
  }

  lemma {:induction false} AllTargetsAre(ts: seq<Transition>, b: State)
    ensures b in AllTargets(ts) <==> exists t | t in ts :: MayLead(t, b)
  {
    if ts != [] {
      AllTargetsAre(ts[1..], b);
      assert ts == [ts[0]] + ts[1..];
      assert b in Targets(ts[0]) <==> MayLead(ts[0], b);
    }
  }

  /** The steps the two searches follow: along declared transitions and to error targets, and no others. */
  lemma StepsAre(def: FlowDef, a: State, b: State)
    ensures b in Succ(StepGraph(def), a) <==>
      a in def.states && ((exists t | t in def.transitions :: t.from == a && MayLead(t, b))
                          || (a in def.errorTransitions && def.errorTransitions[a] == b))
  {
    var ts := def.TransitionsFrom(a);
    AllTargetsAre(ts, b);
    forall t ensures t in ts <==> t in def.transitions && t.from == a { LeavingIn(def.transitions, a, t); }
  }

  lemma TargetsTyped(def: FlowDef, s: State)
    requires WellTyped(def) && s in def.states
    ensures forall x | x in Succ(StepGraph(def), s) :: x in def.states
  {
    forall t | t in def.TransitionsFrom(s) ensures t in def.transitions { LeavingIn(def.transitions, s, t); }
    AllTyped(def, def.TransitionsFrom(s));
  }

  lemma {:induction false} AllTyped(def: FlowDef, ts: seq<Transition>)
    requires WellTyped(def) && forall t | t in ts :: t in def.transitions
    ensures forall x | x in AllTargets(ts) :: x in def.states
  {
    if ts != [] {
      AllTyped(def, ts[1..]);
      var t := ts[0];
      forall x | x in Targets(t) ensures x in def.states {
        if t.kind == SubFlow && t.subFlow.Some? {
          var k :| k in t.subFlow.value.exitMappings && t.subFlow.value.exitMappings[k] == x;
        }
      }
    }
  }

  // ---------- breadth-first reachability ----------

  /** The states reported, in declaration order. */
  ghost function Unreached(def: FlowDef, states: seq<State>): seq<State>
    requires def.initial.Some?
  {
    if states == [] then []
    else
      Unreached(def, states[..|states| - 1])
      + (var s := states[|states| - 1];
         if Reach(StepGraph(def), def.initial.value, s) || def.Terminal(s) then [] else [s])
  }

  /** Marks and enqueues what is not marked yet. */
  method Enqueue(targets: set<State>, visited: set<State>, queue: seq<State>) returns (visited': set<State>, queue': seq<State>)
    ensures visited' == visited + targets
    ensures forall x | x in queue :: x in queue'
    ensures forall x | x in queue' :: x in queue || x in targets - visited
    ensures forall x | x in targets - visited :: x in queue'
    ensures visited' == visited ==> queue' == queue
  {
    visited', queue' := visited, queue;
    var rest := targets;
    while rest != {}
      invariant rest <= targets && visited' == visited + (targets - rest)
      invariant forall x | x in queue :: x in queue'
      invariant forall x | x in queue' :: x in queue || x in targets - visited
      invariant forall x | x in targets - rest - visited :: x in queue'
      invariant visited' == visited ==> queue' == queue
      decreases rest
    {
      var x :| x in rest;
      rest := rest - {x};
      if x !in visited' {
        visited', queue' := visited' + {x}, queue' + [x];
      }
    }
  }

  /** Everything reachable in one step from `s` is enqueued, transition by transition, the error target last. */
  method Expand(def: FlowDef, s: State, visited: set<State>, queue: seq<State>) returns (visited': set<State>, queue': seq<State>)
    requires s in def.states
    ensures visited' == visited + Succ(StepGraph(def), s)
    ensures forall x | x in queue :: x in queue'
    ensures forall x | x in queue' :: x in queue || x in visited' - visited
    ensures forall x | x in visited' - visited :: x in queue'
    ensures visited' == visited ==> queue' == queue
  {
    visited', queue' := visited, queue;
    var ts := def.TransitionsFrom(s);
    var i := 0;
    while i < |ts|
      invariant 0 <= i <= |ts|
      invariant visited' + AllTargets(ts[i..]) == visited + AllTargets(ts) && visited <= visited'
      invariant forall x | x in queue :: x in queue'
      invariant forall x | x in queue' :: x in queue || x in visited' - visited
      invariant forall x | x in visited' - visited :: x in queue'
      invariant visited' == visited ==> queue' == queue
    {
      assert ts[i..][1..] == ts[i + 1..];
      visited', queue' := Enqueue(Targets(ts[i]), visited', queue');
      i := i + 1;
    }
    assert ts[i..] == [];
    visited', queue' := Enqueue(ErrorTarget(def, s), visited', queue');
  }

  lemma Fewer(all: set<State>, before: set<State>, after: set<State>)
    requires before < after <= all
    ensures all - after < all - before
  {
    var x :| x in after && x !in before;
    assert x in all - before && x !in all - after;
  }

  lemma ClosedIsReached(g: Graph, visited: set<State>, init: State)
    requires init in visited && forall x | x in visited :: Succ(g, x) <= visited && Reach(g, init, x)
    ensures forall x :: x in visited <==> Reach(g, init, x)
  {
    forall x ensures Reach(g, init, x) <==> x in visited {
      if Reach(g, init, x) { ClosedContainsReach(g, visited, init, x); }
    }
  }

  /** Marked states are reachable, and fully expanded unless they are still queued. */
  ghost predicate Frontier(def: FlowDef, init: State, visited: set<State>, queue: seq<State>) {
    && init in visited
    && (forall x | x in queue :: x in visited)
    && (forall x | x in visited :: x in def.states && Reach(StepGraph(def), init, x))
    && (forall x | x in visited && x !in queue :: Succ(StepGraph(def), x) <= visited)
  }

  /** Expanding the head of the queue keeps the frontier. */
  lemma FrontierMoves(def: FlowDef, init: State, visited: set<State>, queue: seq<State>, visited': set<State>, queue': seq<State>)
    requires WellTyped(def) && queue != [] && Frontier(def, init, visited, queue)
    requires visited' == visited + Succ(StepGraph(def), queue[0])
    requires forall x | x in queue[1..] :: x in queue'
    requires forall x | x in queue' :: x in queue[1..] || x in visited' - visited
    requires forall x | x in visited' - visited :: x in queue'
    ensures Frontier(def, init, visited', queue')
  {
    var current := queue[0];
    assert current in queue && queue == [current] + queue[1..];
    TargetsTyped(def, current);
    forall x | x in Succ(StepGraph(def), current) ensures Reach(StepGraph(def), init, x) {
      ReachStep(StepGraph(def), init, current, x);
    }
  }

  /** The queue loop: it marks exactly the reachable states. */
  method Explore(def: FlowDef, init: State) returns (visited: set<State>)
    requires WellTyped(def) && init in def.states
    ensures forall x :: x in visited <==> Reach(StepGraph(def), init, x)
  {
    ghost var all := set s | s in def.states;
    var queue := [init];
    visited := {init};
    ReachRefl(StepGraph(def), init);
    while queue != []
      invariant Frontier(def, init, visited, queue)
      decreases all - visited, |queue|
    {
      ghost var marked, waiting := visited, queue;
      var current := queue[0];
      queue := queue[1..];
      visited, queue := Expand(def, current, visited, queue);
      FrontierMoves(def, init, marked, waiting, visited, queue);
      if visited != marked { Fewer(all, marked, visited); }
    }
    ClosedIsReached(StepGraph(def), visited, init);
  }

  /** `checkReachability` reports exactly the non-terminal states no walk from the initial state reaches. */
  method CheckReachability(def: FlowDef) returns (errors: seq<State>)
    requires WellTyped(def)
    ensures def.initial.None? ==> errors == []
    ensures def.initial.Some? ==> errors == Unreached(def, def.states)
  {
    errors := [];
    if def.initial.None? { return; }
    var visited := Explore(def, def.initial.value);
    var i := 0;
    while i < |def.states|
      invariant 0 <= i <= |def.states|
      invariant errors == Unreached(def, def.states[..i])
    {
      var s := def.states[i];
      assert def.states[..i + 1][..i] == def.states[..i];
      if s !in visited && !def.Terminal(s) {
        errors := errors + [s];
      }
      i := i + 1;
    }
    assert def.states[..i] == def.states;
  }

  // ---------- depth-first path to a terminal ----------

  ghost predicate ReachesTerminal(def: FlowDef, s: State) {
    exists x :: def.Terminal(x) && Reach(StepGraph(def), s, x)
  }

  /** A failed search leaves behind only fully explored non-terminal states. */
  ghost predicate Explored(def: FlowDef, before: set<State>, after: set<State>) {
    before <= after && forall x | x in after - before :: !def.Terminal(x) && Succ(StepGraph(def), x) <= after
  }

  class TerminalSearch {
    const def: FlowDef
    var visited: set<State>

    constructor (def: FlowDef)
      ensures this.def == def && visited == {}
    {
      this.def := def;
      visited := {};
    }

    ghost function Left(): set<State>
      reads this
    {
      (set s | s in def.states) - visited
    }

    method CanReachTerminal(state: State) returns (found: bool)
      requires WellTyped(def) && state in def.states
      requires forall x | x in visited :: !def.Terminal(x)
      modifies this
      ensures found ==> ReachesTerminal(def, state)
      ensures old(visited) <= visited && forall x | x in visited :: !def.Terminal(x)
      ensures !found ==> state in visited && Explored(def, old(visited), visited)
      decreases Left(), 0
    {
      if def.Terminal(state) {
        ReachRefl(StepGraph(def), state);
        return true;
      }
      if state in visited { return false; }
      visited := visited + {state};
      found := TryTransitions(state);
    }

    /** The transitions of a state just marked, then its error target. */
    method TryTransitions(state: State) returns (found: bool)
      requires WellTyped(def) && state in def.states
      requires forall x | x in visited :: !def.Terminal(x)
      modifies this
      ensures found ==> ReachesTerminal(def, state)
      ensures old(visited) <= visited && forall x | x in visited :: !def.Terminal(x)
      ensures !found ==> Succ(StepGraph(def), state) <= visited && Explored(def, old(visited), visited)
      decreases Left(), 2
    {
      var ts := def.TransitionsFrom(state);
      var i := 0;
      while i < |ts|
        invariant 0 <= i <= |ts|
        invariant old(visited) <= visited && forall x | x in visited :: !def.Terminal(x)
        invariant Explored(def, old(visited), visited)
        invariant AllTargets(ts) <= visited + AllTargets(ts[i..])
      {
        assert ts[i..][1..] == ts[i + 1..];
        TargetsSubset(ts, i);
        found := AnyReachesTerminal(Targets(ts[i]), state);
        if found { return; }
        i := i + 1;
      }
      assert ts[i..] == [];
      found := AnyReachesTerminal(ErrorTarget(def, state), state);
    }

    /** The targets of one transition, tried until one succeeds. */
    method AnyReachesTerminal(targets: set<State>, ghost from: State) returns (found: bool)
      requires WellTyped(def) && from in def.states && targets <= Succ(StepGraph(def), from)
      requires forall x | x in visited :: !def.Terminal(x)
      modifies this
      ensures found ==> ReachesTerminal(def, from)
      ensures old(visited) <= visited && forall x | x in visited :: !def.Terminal(x)
      ensures !found ==> targets <= visited && Explored(def, old(visited), visited)
      decreases Left(), 1
    {
      TargetsTyped(def, from);
      var rest := targets;
      while rest != {}
        invariant rest <= targets && targets - rest <= visited
        invariant old(visited) <= visited && forall x | x in visited :: !def.Terminal(x)
        invariant Explored(def, old(visited), visited)
        decreases rest
      {
        var x :| x in rest;
        rest := rest - {x};
        found := CanReachTerminal(x);
        if found {
          ghost var y :| def.Terminal(y) && Reach(StepGraph(def), x, y);
          ReachFrom(StepGraph(def), from, x, y);
          return;
        }
      }
      found := false;
    }
  }

  lemma TargetsSubset(ts: seq<Transition>, i: nat)
    requires i < |ts|
    ensures Targets(ts[i]) <= AllTargets(ts)
  {
    if i > 0 { TargetsSubset(ts[1..], i - 1); }
  }

  lemma ReachFrom(g: Graph, a: State, b: State, c: State)
    requires b in Succ(g, a) && Reach(g, b, c)
    ensures Reach(g, a, c)
  {
    var w :| Walks(g, b, w, c);
    assert Walks(g, a, Step(End, a), b);
    AppendWalks(g, a, Step(End, a), b, w, c);
  }

  /** `checkPathToTerminal`: an error exactly when no terminal is reachable. */
  method CheckPathToTerminal(def: FlowDef) returns (error: bool)
    requires WellTyped(def)
    ensures error <==> def.initial.Some? && !ReachesTerminal(def, def.initial.value)
  {
    if def.initial.None? { return false; }
    var init := def.initial.value;
    var search := new TerminalSearch(def);
    var found := search.CanReachTerminal(init);
    if !found {
      assert Closed(StepGraph(def), search.visited);
      forall x | Reach(StepGraph(def), init, x) ensures !def.Terminal(x) {
        ClosedContainsReach(StepGraph(def), search.visited, init, x);
      }
    }
    error := !found;
  }

  // ---------- cycle detection ----------

  function IsChained(t: Transition): bool { t.kind == Auto || t.kind == Branch }

  function ChainTargets(ts: seq<Transition>, s: State): set<State> {
    if ts == [] then {}
    else (if IsChained(ts[0]) && ts[0].from == s then {ts[0].to} else {}) + ChainTargets(ts[1..], s)
  }

  /** The auto/branch edges of the definition. */
  function ChainGraph(def: FlowDef): Graph {
    map s | s in def.states :: ChainTargets(def.transitions, s)
  }

  lemma ChainTarget(ts: seq<Transition>, s: State, x: State)
    ensures x in ChainTargets(ts, s) <==> exists t | t in ts :: IsChained(t) && t.from == s && t.to == x
  {
    if ts != [] {
      ChainTarget(ts[1..], s, x);
      assert ts == [ts[0]] + ts[1..];
    }
  }

  /** The edges `checkDag` follows: the automatic transitions and the branches. */
  lemma ChainStepsAre(def: FlowDef, a: State, b: State)
    ensures b in Succ(ChainGraph(def), a) <==>
      a in def.states && exists t | t in def.transitions :: (t.kind == Auto || t.kind == Branch) && t.from == a && t.to == b
  {
    ChainTarget(def.transitions, a, b);
  }

  /** Finished states: closed under the edges and on no cycle. */
  ghost predicate Finished(g: Graph, d: set<State>) {
    Closed(g, d) && forall x | x in d :: !OnCycle(g, x)
  }

  lemma FinishOne(g: Graph, d: set<State>, x: State)
    requires Finished(g, d) && Succ(g, x) <= d
    ensures Finished(g, d + {x})
  {
    if x !in d && OnCycle(g, x) {
      var w: Walk :| w.Step? && Walks(g, x, w, x);
      AfterFirstStep(g, d, x, w, x);
    }
  }

  /** A non-empty walk out of `x` ends in any closed set that holds all successors of `x`. */
  lemma {:induction false} AfterFirstStep(g: Graph, d: set<State>, x: State, w: Walk, y: State)
    requires Closed(g, d) && Succ(g, x) <= d && w.Step? && Walks(g, x, w, y)
    ensures y in d
  {
    if w.prefix.Step? { AfterFirstStep(g, d, x, w.prefix, w.from); }
  }

  /** Reaching back to a state that reaches the current one closes a cycle. */
  lemma BackEdge(g: Graph, a: State, b: State)
    requires Reach(g, a, b) && a in Succ(g, b)
    ensures OnCycle(g, a)
  {
    var w :| Walks(g, a, w, b);
    assert Walks(g, a, Step(w, b), a);
  }

  class CycleSearch {
    const graph: Graph
    var visited: set<State>
    var inStack: set<State>

    constructor (graph: Graph)
      ensures this.graph == graph && visited == {} && inStack == {}
    {
      this.graph := graph;
      visited, inStack := {}, {};
    }

    ghost predicate Valid()
      reads this
    {
      inStack <= visited && Finished(graph, visited - inStack)
    }

    /** `all` bounds the states and serves termination only. */
    method HasCycle(node: State, ghost all: set<State>) returns (found: bool)
      requires Valid() && node !in visited && node in all
      requires forall x | x in all :: Succ(graph, x) <= all
      requires forall x | x in inStack :: Reach(graph, x, node)
      modifies this
      ensures found ==> exists x :: OnCycle(graph, x) && Reach(graph, node, x)
      ensures !found ==> Valid() && inStack == old(inStack) && old(visited) + {node} <= visited
      decreases all - visited
    {
      ghost var stack := inStack;
      visited, inStack := visited + {node}, inStack + {node};
      ghost var marked := visited;
      assert visited - inStack == old(visited) - old(inStack);
      ReachRefl(graph, node);
      var rest := Succ(graph, node);
      while rest != {}
        invariant rest <= Succ(graph, node)
        invariant Valid() && inStack == stack + {node} && marked <= visited
        invariant Succ(graph, node) - rest <= visited - inStack
        decreases rest
      {
        var neighbor :| neighbor in rest;
        ghost var settled := Succ(graph, node) - rest;
        rest := rest - {neighbor};
        ReachStep(graph, node, node, neighbor);
        if neighbor in inStack {
          BackEdge(graph, neighbor, node);
          return true;
        }
        assert neighbor !in inStack;
        if neighbor !in visited {
          forall x | x in inStack ensures Reach(graph, x, neighbor) { ReachStep(graph, x, node, neighbor); }
          var deeper := HasCycle(neighbor, all);
          if deeper {
            ghost var x :| OnCycle(graph, x) && Reach(graph, neighbor, x);
            ReachFrom(graph, node, neighbor, x);
            return true;
          }
        }
        assert Succ(graph, node) - rest == settled + {neighbor};
        assert neighbor in visited - inStack;
      }
      FinishOne(graph, visited - inStack, node);
      inStack := inStack - {node};
      assert visited - inStack == visited - (stack + {node}) + {node} by { assert node !in stack; }
      return false;
    }
  }

  /** `checkDag`: the error names a state from which a cycle of auto/branch edges is reachable;
    * there is none exactly when the edges form no cycle. */
  method CheckDag(def: FlowDef) returns (error: Option<State>)
    requires WellTyped(def)
    ensures error.Some? <==> Cyclic(ChainGraph(def))
    ensures error.Some? ==> exists x :: OnCycle(ChainGraph(def), x) && Reach(ChainGraph(def), error.value, x)
  {
    var g := ChainGraph(def);
    ghost var all := set s | s in def.states;
    forall x, y | x in all && y in Succ(g, x) ensures y in all {
      ChainTarget(def.transitions, x, y);
    }
    var search := new CycleSearch(g);
    var i := 0;
    while i < |def.states|
      invariant 0 <= i <= |def.states|
      invariant fresh(search) && search.graph == g && search.Valid() && search.inStack == {}
      invariant forall j | 0 <= j < i :: def.states[j] in search.visited
    {
      var s := def.states[i];
      if s !in search.visited {
        var found := search.HasCycle(s, all);
        if found { return Some(s); }
      }
      i := i + 1;
    }
    assert all <= search.visited - search.inStack;
    if Cyclic(g) {
      var a :| OnCycle(g, a);
      var w: Walk :| w.Step? && Walks(g, a, w, a);
      NonEmptyWalkStartsInGraph(g, a, w, a);
    }
    error := None;
  }

  lemma {:induction false} NonEmptyWalkStartsInGraph(g: Graph, a: State, w: Walk, b: State)
    requires w.Step? && Walks(g, a, w, b)
    ensures a in g
  {
    if w.prefix.Step? { NonEmptyWalkStartsInGraph(g, a, w.prefix, w.from); }
  }
}
