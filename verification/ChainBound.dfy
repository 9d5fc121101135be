/** An acyclic auto/branch graph bounds the automatic chain. */
module ChainBound {
  import opened Definition
  import opened RequiresProduces
  import opened EngineModel
  import opened EngineFacts
  import opened Graphs
  import opened Trails
  import Searches

  /** The states a chain goes through by its own moves: the start, then one per step counted. */
  ghost function Visited(cfg: Config, env: Env, s: Sys, depth: nat): seq<State>
    decreases if depth <= cfg.maxChainDepth then cfg.maxChainDepth - depth else 0
  {
    if depth >= cfg.maxChainDepth || s.flow.def.Terminal(s.flow.state) then [s.flow.state]
    else
      match ChainPass(cfg, env, s)
      case Moved(s1) => [s.flow.state] + Visited(cfg, env, Tick(s1), depth + 1)
      case _ => [s.flow.state]
  }

  ghost predicate AlongEdges(g: Graph, p: seq<State>) {
    forall i | 0 <= i < |p| - 1 :: p[i + 1] in Succ(g, p[i])
  }

  /** A path through the states of a definition along its auto/branch edges. */
  ghost predicate WalksChain(def: FlowDef, a: State, p: seq<State>) {
    p != [] && p[0] == a && AlongEdges(Searches.ChainGraph(def), p) && forall x | x in p :: x in def.states
  }

  lemma WalksCons(def: FlowDef, a: State, b: State, p: seq<State>)
    requires a in def.states && b in Succ(Searches.ChainGraph(def), a) && WalksChain(def, b, p)
    ensures WalksChain(def, a, [a] + p)
  {
    var g, q := Searches.ChainGraph(def), [a] + p;
    forall i | 0 <= i < |q| - 1 ensures q[i + 1] in Succ(g, q[i]) {
      if i > 0 { assert q[i] == p[i - 1] && q[i + 1] == p[i]; }
    }
  }

  lemma RunProcessorStays(env: Env, s: Sys, p: Option<Processor>, verify: bool)
    ensures RunProcessor(env, s, p, verify).Moved? ==>
      RunProcessor(env, s, p, verify).sys.flow.state == s.flow.state && RunProcessor(env, s, p, verify).sys.flow.def == s.flow.def
  {}

  /** A step of the chain follows an auto/branch edge. */
  lemma PassFollowsEdge(cfg: Config, env: Env, s: Sys)
    requires WellTyped(s.flow.def) && Plain(s.flow.def) && s.flow.state in s.flow.def.states
    ensures var p := ChainPass(cfg, env, s);
      p.Moved? ==>
        && p.sys.flow.def == s.flow.def
        && p.sys.flow.state in Succ(Searches.ChainGraph(s.flow.def), s.flow.state)
        && p.sys.flow.state in s.flow.def.states
  {
    var def, state := s.flow.def, s.flow.state;
    var ts := def.TransitionsFrom(state);
    FirstChainedIn(ts);
    var p := ChainPass(cfg, env, s);
    if p.Moved? {
      var t := FirstChained(ts).value;
      LeavingIn(def.transitions, state, t);
      var to := p.sys.flow.state;
      if t.kind == Auto {
        RunProcessorStays(env, s, t.processor, cfg.strictMode || def.strictMode);
        assert to == t.to;
      } else {
        var choice := env.decide(t.branch.value, s.flow.ctx, s.tick).choice;
        LabelIsMove(def, state, t, choice);
        assert to == t.branchTargets[choice];
      }
      Searches.ChainTarget(def.transitions, state, to);
    }
  }

  lemma VisitedStep(cfg: Config, env: Env, s: Sys, next: Sys, depth: nat)
    requires depth < cfg.maxChainDepth && !s.flow.def.Terminal(s.flow.state) && ChainPass(cfg, env, s).Moved?
    requires next == Tick(ChainPass(cfg, env, s).sys)
    ensures Visited(cfg, env, s, depth) == [s.flow.state] + Visited(cfg, env, next, depth + 1)
  {}

  /** Every pass that moves follows an edge. */
  ghost predicate PassesFollowEdges(cfg: Config, env: Env, def: FlowDef) {
    forall s: Sys :: s.flow.def == def && s.flow.state in def.states && ChainPass(cfg, env, s).Moved? ==>
      Follows(def, s.flow.state, ChainPass(cfg, env, s).sys)
  }

  ghost predicate Follows(def: FlowDef, a: State, next: Sys) {
    next.flow.def == def && next.flow.state in Succ(Searches.ChainGraph(def), a) && next.flow.state in def.states
  }

  lemma AcceptedPassesFollow(cfg: Config, env: Env, def: FlowDef)
    requires WellTyped(def) && Plain(def)
    ensures PassesFollowEdges(cfg, env, def)
  {
    forall s: Sys | s.flow.def == def && s.flow.state in def.states && ChainPass(cfg, env, s).Moved?
      ensures Follows(def, s.flow.state, ChainPass(cfg, env, s).sys)
    {
      PassFollowsEdge(cfg, env, s);
    }
  }

  lemma VisitedStops(cfg: Config, env: Env, s: Sys, depth: nat)
    requires depth >= cfg.maxChainDepth || s.flow.def.Terminal(s.flow.state) || !ChainPass(cfg, env, s).Moved?
    ensures Visited(cfg, env, s, depth) == [s.flow.state]
  {}

  lemma WalksAlone(def: FlowDef, a: State)
    requires a in def.states
    ensures WalksChain(def, a, [a])
  {}

  lemma {:induction false} PathFollowsEdges(cfg: Config, env: Env, def: FlowDef, s: Sys, depth: nat)
    requires PassesFollowEdges(cfg, env, def) && s.flow.def == def && s.flow.state in def.states
    ensures WalksChain(def, s.flow.state, Visited(cfg, env, s, depth))
    decreases if depth <= cfg.maxChainDepth then cfg.maxChainDepth - depth else 0
  {
    if depth < cfg.maxChainDepth && !def.Terminal(s.flow.state) && ChainPass(cfg, env, s).Moved? {
      var next := Tick(ChainPass(cfg, env, s).sys);
      assert Follows(def, s.flow.state, ChainPass(cfg, env, s).sys);
      PathFollowsEdges(cfg, env, def, next, depth + 1);
      VisitedStep(cfg, env, s, next, depth);
      WalksCons(def, s.flow.state, next.flow.state, Visited(cfg, env, next, depth + 1));
    } else {
      VisitedStops(cfg, env, s, depth);
      WalksAlone(def, s.flow.state);
    }
  }

  lemma VisitedFollowsEdges(cfg: Config, env: Env, s: Sys, depth: nat)
    requires WellTyped(s.flow.def) && Plain(s.flow.def) && s.flow.state in s.flow.def.states
    ensures WalksChain(s.flow.def, s.flow.state, Visited(cfg, env, s, depth))
  {
    AcceptedPassesFollow(cfg, env, s.flow.def);
    PathFollowsEdges(cfg, env, s.flow.def, s, depth);
  }

  lemma {:induction false} SegmentIsWalk(g: Graph, p: seq<State>, i: nat, j: nat) returns (w: Walk)
    requires AlongEdges(g, p) && i < j < |p|
    ensures w.Step? && Walks(g, p[i], w, p[j])
    decreases j
  {
    if j == i + 1 {
      w := Step(End, p[i]);
    } else {
      var q := SegmentIsWalk(g, p, i, j - 1);
      w := Step(q, p[j - 1]);
    }
  }

  lemma ReturnIsCycle(g: Graph, a: State, w: Walk)
    requires w.Step? && Walks(g, a, w, a)
    ensures Cyclic(g)
  {
    assert OnCycle(g, a);
  }

  lemma AcyclicNeverRevisits(g: Graph, p: seq<State>)
    requires AlongEdges(g, p) && !Cyclic(g)
    ensures Distinct(p)
  {
    forall i, j | 0 <= i < j < |p| ensures p[i] != p[j] {
      var w := SegmentIsWalk(g, p, i, j);
      if p[i] == p[j] { ReturnIsCycle(g, p[i], w); }
    }
  }

  lemma {:induction false} DistinctFit(p: seq<State>, all: set<State>)
    requires Distinct(p)
    requires forall x | x in p :: x in all
    ensures |p| <= |all|
  {
    if p != [] {
      var n := |p| - 1;
      assert p[n] in p;
      DistinctFit(p[..n], all - {p[n]});
    }
  }

  lemma {:induction false} StateSetSize(states: seq<State>)
    ensures |set s | s in states| <= |states|
  {
    if states != [] {
      var n := |states| - 1;
      StateSetSize(states[..n]);
      assert (set s | s in states) == (set s | s in states[..n]) + {states[n]};
    }
  }

  /** The chain of an accepted definition never revisits a state: it takes at most |states| - 1 steps. */
  lemma ChainNeverRevisits(cfg: Config, env: Env, s: Sys)
    requires WellTyped(s.flow.def) && Plain(s.flow.def) && s.flow.state in s.flow.def.states
    requires !Cyclic(Searches.ChainGraph(s.flow.def))
    ensures var p := Visited(cfg, env, s, 0);
      && Distinct(p)
      && |p| <= |s.flow.def.states|
  {
    var p := Visited(cfg, env, s, 0);
    VisitedFollowsEdges(cfg, env, s, 0);
    AcyclicNeverRevisits(Searches.ChainGraph(s.flow.def), p);
    DistinctFit(p, set x | x in s.flow.def.states);
    StateSetSize(s.flow.def.states);
  }

  /** MAX_CHAIN_DEPTH is thrown exactly when every allowed step is taken. */
  lemma {:induction false} OverflowIffAllSteps(cfg: Config, env: Env, s: Sys, depth: nat)
    requires SubFlowFree(s.flow.def) && depth <= cfg.maxChainDepth
    ensures Chain(cfg, env, s, depth).thrown == Some("MAX_CHAIN_DEPTH")
      <==> |Visited(cfg, env, s, depth)| == cfg.maxChainDepth - depth + 1
    ensures Chain(cfg, env, s, depth).thrown.Some? ==> Chain(cfg, env, s, depth).thrown == Some("MAX_CHAIN_DEPTH")
    ensures |Visited(cfg, env, s, depth)| <= cfg.maxChainDepth - depth + 1
    decreases cfg.maxChainDepth - depth
  {
    var p := ChainPass(cfg, env, s);
    if depth < cfg.maxChainDepth && !s.flow.def.Terminal(s.flow.state) {
      ChainStep(cfg, env, s, depth);
      if p.Moved? {
        PassKeepsDef(cfg, env, s);
        VisitedStep(cfg, env, s, Tick(p.sys), depth);
        OverflowIffAllSteps(cfg, env, Tick(p.sys), depth + 1);
        assert Chain(cfg, env, s, depth) == Chain(cfg, env, Tick(p.sys), depth + 1);
        assert |Visited(cfg, env, s, depth)| == 1 + |Visited(cfg, env, Tick(p.sys), depth + 1)|;
      }
    }
  }

  /** No path along auto/branch edges is longer than the chain may be. */
  ghost predicate ShortChains(cfg: Config, def: FlowDef) {
    forall a, p | WalksChain(def, a, p) :: |p| <= cfg.maxChainDepth
  }

  /** With short paths a chain never overflows. */
  lemma ShortNeverOverflows(cfg: Config, env: Env, s: Sys)
    requires WellTyped(s.flow.def) && Plain(s.flow.def) && s.flow.state in s.flow.def.states && ShortChains(cfg, s.flow.def)
    ensures Chain(cfg, env, s, 0).thrown.None?
  {
    VisitedFollowsEdges(cfg, env, s, 0);
    OverflowIffAllSteps(cfg, env, s, 0);
  }

  /** An acyclic definition has short paths if it has no more states than the limit. */
  lemma FewStatesAreShort(cfg: Config, def: FlowDef)
    requires !Cyclic(Searches.ChainGraph(def)) && |def.states| <= cfg.maxChainDepth
    ensures ShortChains(cfg, def)
  {
    forall a, p | WalksChain(def, a, p) ensures |p| <= cfg.maxChainDepth {
      AcyclicNeverRevisits(Searches.ChainGraph(def), p);
      DistinctFit(p, set x | x in def.states);
      StateSetSize(def.states);
    }
  }

  /** An accepted definition with no more states than the limit never overflows. */
  lemma AcceptedNeverOverflows(cfg: Config, env: Env, s: Sys)
    requires WellTyped(s.flow.def) && Plain(s.flow.def) && s.flow.state in s.flow.def.states
    requires !Cyclic(Searches.ChainGraph(s.flow.def)) && |s.flow.def.states| <= cfg.maxChainDepth
    ensures Chain(cfg, env, s, 0).thrown.None?
  {
    FewStatesAreShort(cfg, s.flow.def);
    ShortNeverOverflows(cfg, env, s);
  }

  /** `m` is a point of the chain that starts in `s`: some passes of the loop lead from `s` to it. */
  ghost predicate OnChain(cfg: Config, env: Env, s: Sys, m: Sys, passes: nat)
    decreases passes
  {
    if passes == 0 then m == s
    else ChainPass(cfg, env, s).Moved? && OnChain(cfg, env, Tick(ChainPass(cfg, env, s).sys), m, passes - 1)
  }

  /** Where a chain that returns normally stops: completed in a terminal state, at a state with no automatic
    * transition, or on an error routed by a pass of this chain. */
  ghost predicate StopsProperly(cfg: Config, env: Env, s: Sys, r: Result) {
    || (r.sys.flow.def.Terminal(r.sys.flow.state) && r.sys.flow.exit == Some(r.sys.flow.state))
    || FirstChained(r.sys.flow.def.TransitionsFrom(r.sys.flow.state)).None?
    || exists m: Sys, passes: nat ::
         OnChain(cfg, env, s, m, passes) && ChainPass(cfg, env, m).Failed? && r.sys == Tick(ChainPass(cfg, env, m).sys)
  }

  lemma {:induction false} ChainStopsProperly(cfg: Config, env: Env, s: Sys, depth: nat)
    requires SubFlowFree(s.flow.def) && Chain(cfg, env, s, depth).thrown.None?
    ensures StopsProperly(cfg, env, s, Chain(cfg, env, s, depth))
    decreases if depth <= cfg.maxChainDepth then cfg.maxChainDepth - depth else 0
  {
    if !s.flow.def.Terminal(s.flow.state) {
      ChainStep(cfg, env, s, depth);
      PassKeepsDef(cfg, env, s);
      var p := ChainPass(cfg, env, s);
      if p.Moved? {
        ChainStopsProperly(cfg, env, Tick(p.sys), depth + 1);
        LaterStop(cfg, env, s, Chain(cfg, env, s, depth));
      } else if p.Failed? {
        assert OnChain(cfg, env, s, s, 0);
      }
    }
  }

  lemma LaterStop(cfg: Config, env: Env, s: Sys, r: Result)
    requires ChainPass(cfg, env, s).Moved? && StopsProperly(cfg, env, Tick(ChainPass(cfg, env, s).sys), r)
    ensures StopsProperly(cfg, env, s, r)
  {
    var s1 := Tick(ChainPass(cfg, env, s).sys);
    if m: Sys, passes: nat :| OnChain(cfg, env, s1, m, passes) && ChainPass(cfg, env, m).Failed? && r.sys == Tick(ChainPass(cfg, env, m).sys) {
      assert OnChain(cfg, env, s, m, passes + 1);
    }
  }
}
