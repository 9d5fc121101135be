/** From the verifier to the engine: what an accepted definition needs for its runs to be safe. */
module Headline {
  import opened Definition
  import opened DataFlow
  import opened DataFlowProofs
  import opened RequiresProduces
  import opened EngineModel
  import opened EngineFacts
  import opened EngineMoves
  import opened RunSafety
  import opened EngineCheck
  import opened SubFlowComposition
  import opened ModularCheck
  import opened Builder

  // ---------- what the checker does not look at ----------

  ghost predicate StateFits(m: Avail<State>, s: State, have: set<Key>) { s in m && m[s] <= have }

  /** An error in `s` with the keys `have`: the exception routes matter only where something raises a cause, and of
    * several routes for one class only the first. */
  ghost predicate FailureFits(def: FlowDef, m: Avail<State>, s: State, have: set<Key>, caused: bool) {
    && (s in def.errorTransitions ==> StateFits(m, def.errorTransitions[s], have))
    && (caused && s in def.exceptionRoutes ==>
          forall i | 0 <= i < |def.exceptionRoutes[s]| && Effective(def.exceptionRoutes[s], {}, i) ::
            StateFits(m, def.exceptionRoutes[s][i].target, have))
  }

  /** An exit of the sub-flow entered in `s` that is not mapped is an error without a cause. */
  ghost predicate ExitsRespected(def: FlowDef, m: Avail<State>, s: State)
    requires s in m && Link(def, s).Some?
  {
    s in def.errorTransitions ==>
      forall exit | MayExit(SubOf(def, s), exit) && exit !in Link(def, s).value.exitMappings ::
        StateFits(m, def.errorTransitions[s], m[s])
  }

  /** What happens to errors while a chain is in `s`: an automatic transition always has a component that may throw. */
  ghost predicate ChainErrorsRespected(def: FlowDef, m: Avail<State>, s: State)
    requires s in m
  {
    !def.Terminal(s) ==>
      if Link(def, s).Some? then ExitsRespected(def, m, s)
      else FirstChained(def.TransitionsFrom(s)).Some? ==> FailureFits(def, m, s, m[s], true)
  }

  /** An error leaves a state with what the state itself guarantees and, on a resume, what the event brought; on a resume
    * only the processor raises a cause. */
  ghost predicate ErrorRoutesRespected(def: FlowDef, brings: Supply, m: Avail<State>) {
    forall s | s in m ::
      && ChainErrorsRespected(def, m, s)
      && (forall t | t in def.ExternalsFrom(s) :: FailureFits(def, m, s, m[s] + brings(t), t.processor.Some?))
  }

  /** The keys that come with `t` do for its guard, its processor and its target. */
  ghost predicate EnoughFor(m: Avail<State>, s: State, t: Transition, brought: set<Key>)
    requires s in m
  {
    var have := m[s] + brought;
    && (t.guard.Some? ==> KeySet(t.guard.value.requires_) <= have)
    && (t.processor.Some? ==> KeySet(t.processor.value.requires_) <= have + GuardProduces(t))
    && StateFits(m, t.to, have + GuardProduces(t) + ProcessorProduces(t))
  }

  /** The checker credits every external transition with all externally provided keys; callers bring those of one. */
  ghost predicate BroughtSuffices(def: FlowDef, brings: Supply, m: Avail<State>) {
    forall s, t | s in m && t in def.ExternalsFrom(s) :: EnoughFor(m, s, t, brings(t))
  }

  // ---------- the checker's edges ----------

  ghost function TargetEdges(targets: set<State>): seq<Edge<State>> {
    if targets == {} then []
    else
      var z :| z in targets;
      [Edge(z, {}, [])] + TargetEdges(targets - {z})
  }

  /** Where the exits of a sub-flow lead: the checks of the source do not follow these. */
  ghost function ExitTargets(def: FlowDef, s: State): set<State> {
    if Link(def, s).Some? then Link(def, s).value.exitMappings.Values else {}
  }

  /** The graph of the check with the exits of sub-flows followed; without sub-flows it is the graph of the check. */
  ghost function FollowedGraph(def: FlowDef): FlowGraph<State> {
    map s | s in def.states :: CheckedEdges(def, def.TransitionsFrom(s)) + TargetEdges(ExitTargets(def, s))
  }

  /** Without sub-flows this is the graph of `build()`, and nothing is asked of sub-flows. */
  lemma FlatIsTheCheck(def: FlowDef, brings: Supply, m: Avail<State>)
    requires SubFlowFree(def)
    ensures FollowedGraph(def) == CheckerGraph(def) && SubFlowsApart(def, brings, m)
  {
    forall s ensures !EntersAt(def, Lift(m), s) { FlatLinks(def, s); }
    forall s | s in def.states ensures FollowedGraph(def)[s] == CheckerGraph(def)[s] {
      FlatLinks(def, s);
      assert ExitTargets(def, s) == {} && TargetEdges(ExitTargets(def, s)) == [];
    }
  }

  lemma {:induction false} TargetIsEdge(targets: set<State>, e: Edge<State>)
    ensures e in TargetEdges(targets) <==> e.target in targets && e == Edge(e.target, {}, [])
    decreases targets
  {
    if targets != {} {
      var z :| z in targets && TargetEdges(targets) == [Edge(z, {}, [])] + TargetEdges(targets - {z});
      TargetIsEdge(targets - {z}, e);
    }
  }

  lemma NormalEdgeInGraph(def: FlowDef, s: State, t: Transition)
    requires s in def.states && t in def.TransitionsFrom(s)
    ensures NormalEdge(def, t) in EdgesFrom(FollowedGraph(def), s)
  {
    assert EdgeOf(def, t, NormalEdge(def, t));
    CheckedEdgeOf(def, def.TransitionsFrom(s), NormalEdge(def, t));
  }

  lemma ExitEdgeInGraph(def: FlowDef, s: State, z: State)
    requires s in def.states && z in ExitTargets(def, s)
    ensures Edge(z, {}, []) in EdgesFrom(FollowedGraph(def), s)
  {
    var e: Edge<State> := Edge(z, {}, []);
    TargetIsEdge(ExitTargets(def, s), e);
    assert e in TargetEdges(ExitTargets(def, s));
  }

  /** A met edge: its target expects no more than its source and the edge provide, and its parts find their keys. */
  ghost predicate TransitionMet(def: FlowDef, m: Avail<State>, s: State, t: Transition)
    requires s in m
  {
    EnoughFor(m, s, t, Injected(def, t))
    && (t.branch.Some? ==> KeySet(t.branch.value.requires_) <= m[s] + Injected(def, t) + GuardProduces(t))
  }

  ghost predicate Passes(def: FlowDef, m: Avail<State>) {
    EdgeConsistent(FollowedGraph(def), m) && NeedsMet(FollowedGraph(def), m) && forall s | s in m :: s in def.states
  }

  /** The needs of each part are among those of the edge. */
  lemma EdgeNeeds(def: FlowDef, t: Transition)
    ensures forall n | n in GuardNeeds(def, t) :: n in NormalEdge(def, t).needs
    ensures forall n | n in BranchNeeds(def, t) :: n in NormalEdge(def, t).needs
    ensures forall n | n in ProcessorNeeds(def, t) :: n in NormalEdge(def, t).needs
  {}

  lemma NeedsFound(def: FlowDef, t: Transition, have: set<Key>)
    requires forall n | n in NormalEdge(def, t).needs :: n.key in have + n.given
    ensures var given := Injected(def, t) + GuardProduces(t);
      && (t.guard.Some? ==> KeySet(t.guard.value.requires_) <= have + Injected(def, t))
      && (t.branch.Some? ==> KeySet(t.branch.value.requires_) <= have + given)
      && (t.processor.Some? ==> KeySet(t.processor.value.requires_) <= have + given)
  {
    var given := Injected(def, t) + GuardProduces(t);
    EdgeNeeds(def, t);
    if t.guard.Some? { NeedsMean(GuardPart, t, t.guard.value.requires_, Injected(def, t), have); }
    if t.branch.Some? { NeedsMean(BranchPart, t, t.branch.value.requires_, given, have); }
    if t.processor.Some? { NeedsMean(ProcessorPart, t, t.processor.value.requires_, given, have); }
  }

  lemma EdgePasses(def: FlowDef, m: Avail<State>, s: State, t: Transition)
    requires Passes(def, m) && s in m && t in def.TransitionsFrom(s)
    ensures StateFits(m, t.to, m[s] + NormalGain(def, t))
    ensures forall n | n in NormalEdge(def, t).needs :: n.key in m[s] + n.given
  {
    NormalEdgeInGraph(def, s, t);
    assert NormalEdge(def, t).target == t.to && NormalEdge(def, t).gain == NormalGain(def, t);
  }

  lemma ExitPasses(def: FlowDef, m: Avail<State>, s: State, z: State)
    requires Passes(def, m) && s in m && z in ExitTargets(def, s)
    ensures StateFits(m, z, m[s])
  {
    ExitEdgeInGraph(def, s, z);
    assert m[s] + {} == m[s];
  }

  lemma EdgeMeansMet(def: FlowDef, m: Avail<State>, s: State, t: Transition)
    requires Passes(def, m) && s in m && t in def.TransitionsFrom(s)
    ensures TransitionMet(def, m, s, t)
  {
    EdgePasses(def, m, s, t);
    NeedsFound(def, t, m[s]);
    var have, given := m[s] + Injected(def, t), Injected(def, t) + GuardProduces(t);
    assert m[s] + given == have + GuardProduces(t);
    assert m[s] + NormalGain(def, t) == have + GuardProduces(t) + ProcessorProduces(t);
  }

  // ---------- the engine's edges ----------

  /** The checker's map for a flow of that definition, in the middle of a chain and waiting. */
  function Lift(m: Avail<State>): Cert {
    map q | q in (set s | s in m.Keys :: Running([s])) + (set s | s in m.Keys :: Resting([s])) :: m[q.path[0]]
  }

  lemma LiftFits(m: Avail<State>, s: State, have: set<Key>)
    ensures Fits(Lift(m), Running([s]), have) <==> StateFits(m, s, have)
    ensures Fits(Lift(m), Resting([s]), have) <==> StateFits(m, s, have)
  {
    assert Running([s]) in Lift(m) <==> s in m by { if Running([s]) in Lift(m) { assert [s][0] == s; } }
    assert Resting([s]) in Lift(m) <==> s in m by { if Resting([s]) in Lift(m) { assert [s][0] == s; } }
  }

  lemma RestingSurvives(m: Avail<State>, z: State, have: set<Key>, gain: set<Key>)
    ensures AllSurvive(Lift(m), have, [To(Resting([z]), gain)]) <==> StateFits(m, z, have + gain)
  {
    LiftFits(m, z, have + gain);
    var e := To(Resting([z]), gain);
    assert e in [e];
  }

  lemma RoutesMean(def: FlowDef, m: Avail<State>, routes: seq<ErrorRoute>, have: set<Key>, gain: set<Key>)
    ensures AllSurvive(Lift(m), have, RouteEdges(def, [], routes, {}, gain))
      <==> forall i | 0 <= i < |routes| && Effective(routes, {}, i) :: StateFits(m, routes[i].target, have + gain)
  {
    var es := RouteEdges(def, [], routes, {}, gain);
    forall i | 0 <= i < |routes| && Effective(routes, {}, i)
      ensures To(Resting([routes[i].target]), gain) in es
      ensures Survives(Lift(m), have, To(Resting([routes[i].target]), gain)) <==> StateFits(m, routes[i].target, have + gain)
    {
      RoutedAtRoot(def, routes[i].target, gain);
      RouteIsEdge(def, [], routes, {}, gain, To(Resting([routes[i].target]), gain));
      LiftFits(m, routes[i].target, have + gain);
    }
    forall e | e in es ensures exists i | 0 <= i < |routes| :: Effective(routes, {}, i) && e == To(Resting([routes[i].target]), gain) {
      RouteIsEdge(def, [], routes, {}, gain, e);
      var i :| 0 <= i < |routes| && Effective(routes, {}, i) && e in RoutedEdges(def, [], routes[i].target, gain);
      RoutedAtRoot(def, routes[i].target, gain);
    }
  }

  lemma FailuresMean(def: FlowDef, m: Avail<State>, s: State, have: set<Key>, caused: bool, gain: set<Key>)
    ensures AllSurvive(Lift(m), have, FailureEdges(def, [], def, s, caused, gain)) <==> FailureFits(def, m, s, have + gain, caused)
  {
    var routed := caused && s in def.exceptionRoutes;
    var routes := if routed then RouteEdges(def, [], def.exceptionRoutes[s], {}, gain) else [];
    var fallback := if s in def.errorTransitions then RoutedEdges(def, [], def.errorTransitions[s], gain) else [];
    assert FailureEdges(def, [], def, s, caused, gain) == routes + fallback;
    SurviveAppend(Lift(m), have, routes, fallback);
    if routed { RoutesMean(def, m, def.exceptionRoutes[s], have, gain); }
    if s in def.errorTransitions {
      RoutedAtRoot(def, def.errorTransitions[s], gain);
      RestingSurvives(m, def.errorTransitions[s], have, gain);
    }
  }

  lemma MoveSurvives(m: Avail<State>, to: State, have: set<Key>, gain: set<Key>, needs: seq<Need>)
    ensures AllSurvive(Lift(m), have, [Edge(Running([to]), gain, needs)])
      <==> StateFits(m, to, have + gain) && forall n | n in needs :: n.key in have + n.given
  {
    LiftFits(m, to, have + gain);
    var e := Edge(Running([to]), gain, needs);
    assert e in [e];
  }

  /** The automatic moves the checker approves of survive. */
  lemma AutoSurvives(def: FlowDef, m: Avail<State>, s: State, t: Transition)
    requires Passes(def, m) && Built(def) && s in m && t in def.TransitionsFrom(s) && t.kind == Auto
    ensures AllSurvive(Lift(m), m[s], [Edge(Running([] + [t.to]), ProcessorProduces(t), RunNeeds(t, t.processor, {}))])
  {
    LeavingIn(def.transitions, s, t);
    assert WellFormed(t);
    EdgeMeansMet(def, m, s, t);
    assert [] + [t.to] == [t.to];
    assert m[s] + {} == m[s];
    NeedsMean(ProcessorPart, t, t.processor.value.requires_, {}, m[s]);
    MoveSurvives(m, t.to, m[s], ProcessorProduces(t), RunNeeds(t, t.processor, {}));
  }

  lemma ArmSurvives(def: FlowDef, m: Avail<State>, s: State, t: Transition, l: Label)
    requires Passes(def, m) && Built(def) && s in m && FirstChained(def.TransitionsFrom(s)) == Some(t) && t.kind == Branch
    requires l in t.branchTargets
    ensures Survives(Lift(m), m[s], ArmEdge([], def, s, t, l))
  {
    var ts := def.TransitionsFrom(s);
    assert LabelsResolve(ts);
    var run := FirstLabelled(ts, l).value;
    FirstLabelledIn(ts, l, t.branchTargets[l]);
    LeavingIn(def.transitions, s, run);
    assert WellFormed(run);
    EdgeMeansMet(def, m, s, run);
    assert [] + [t.branchTargets[l]] == [t.branchTargets[l]];
    assert m[s] + {} == m[s];
    if run.processor.Some? { NeedsMean(ProcessorPart, t, run.processor.value.requires_, {}, m[s]); }
    LiftFits(m, run.to, m[s] + ProcessorProduces(run));
  }

  lemma BranchSurvivesIff(def: FlowDef, m: Avail<State>, s: State, t: Transition)
    requires Passes(def, m) && Built(def) && s in m && FirstChained(def.TransitionsFrom(s)) == Some(t) && t.kind == Branch
    ensures AllSurvive(Lift(m), m[s], BranchEdges(def, [], def, s, t)) <==> FailureFits(def, m, s, m[s], true)
  {
    FirstChainedIn(def.TransitionsFrom(s));
    LeavingIn(def.transitions, s, t);
    assert WellFormed(t);
    EdgeMeansMet(def, m, s, t);
    assert [] + [s] == [s] && m[s] + {} == m[s];
    var failing := FailureEdges(def, [], def, s, true, {});
    var needs := NeedsOf(BranchPart, t, t.branch.value.requires_, {});
    var arms := ArmEdges([], def, s, t, t.branchTargets.Keys);
    NeedsMean(BranchPart, t, t.branch.value.requires_, {}, m[s]);
    MoveSurvives(m, s, m[s], {}, needs);
    forall e | e in arms ensures Survives(Lift(m), m[s], e) {
      ArmIsEdge([], def, s, t, t.branchTargets.Keys, e);
      var l :| l in t.branchTargets.Keys && e == ArmEdge([], def, s, t, l);
      ArmSurvives(def, m, s, t, l);
    }
    SurviveAppend(Lift(m), m[s], [Edge(Running([s]), {}, needs)], arms);
    SurviveAppend(Lift(m), m[s], failing, [Edge(Running([s]), {}, needs)] + arms);
    FailuresMean(def, m, s, m[s], true, {});
  }

  lemma ChainSurvivesIff(def: FlowDef, m: Avail<State>, s: State)
    requires Passes(def, m) && Built(def) && Link(def, s).None? && s in m
    ensures AllSurvive(Lift(m), m[s], ChainEdges(def, [], def, s))
      <==> (!def.Terminal(s) && FirstChained(def.TransitionsFrom(s)).Some? ==> FailureFits(def, m, s, m[s], true))
  {
    var ts := def.TransitionsFrom(s);
    FirstChainedIn(ts);
    if !def.Terminal(s) && FirstChained(ts).Some? {
      var t := FirstChained(ts).value;
      LeavingIn(def.transitions, s, t);
      assert WellFormed(t);
      if t.kind == Auto {
        assert m[s] + {} == m[s];
        AutoSurvives(def, m, s, t);
        FailuresMean(def, m, s, m[s], true, {});
        SurviveAppend(Lift(m), m[s], FailureEdges(def, [], def, s, true, {}),
          [Edge(Running([] + [t.to]), ProcessorProduces(t), RunNeeds(t, t.processor, {}))]);
      } else {
        BranchSurvivesIff(def, m, s, t);
      }
    }
  }

  lemma ExternalSurvivesIff(def: FlowDef, brings: Supply, m: Avail<State>, s: State, t: Transition)
    requires Built(def) && s in m && t in def.ExternalsFrom(s)
    ensures AllSurvive(Lift(m), m[s], ResumeEdges(def, brings, s, t))
      <==> EnoughFor(m, s, t, brings(t)) && FailureFits(def, m, s, m[s] + brings(t), t.processor.Some?)
  {
    OfKindIn(def.TransitionsFrom(s), External, t);
    LeavingIn(def.transitions, s, t);
    assert WellFormed(t);
    var g := t.guard.value;
    var granted := brings(t) + KeySet(g.produces);
    var asked, run := NeedsOf(GuardPart, t, g.requires_, brings(t)), RunNeeds(t, t.processor, granted);
    var failing := FailureEdges(def, [], def, s, t.processor.Some?, brings(t));
    NeedsMean(GuardPart, t, g.requires_, brings(t), m[s]);
    if t.processor.Some? { NeedsMean(ProcessorPart, t, t.processor.value.requires_, granted, m[s]); }
    assert forall n :: n in asked + run <==> n in asked || n in run;
    assert m[s] + granted == m[s] + brings(t) + GuardProduces(t);
    assert m[s] + (granted + ProcessorProduces(t)) == m[s] + brings(t) + GuardProduces(t) + ProcessorProduces(t);
    MoveSurvives(m, t.to, m[s], granted + ProcessorProduces(t), asked + run);
    FailuresMean(def, m, s, m[s], t.processor.Some?, brings(t));
    SurviveAppend(Lift(m), m[s], failing, [Edge(Running([t.to]), granted + ProcessorProduces(t), asked + run)]);
  }

  lemma RestingSurvivesIff(def: FlowDef, brings: Supply, m: Avail<State>, s: State)
    requires Built(def) && s in m
    ensures AllSurvive(Lift(m), m[s], EdgesAt(def, brings, Resting([s])))
      <==> forall t | t in def.ExternalsFrom(s) ::
             EnoughFor(m, s, t, brings(t)) && FailureFits(def, m, s, m[s] + brings(t), t.processor.Some?)
  {
    var ts, es := def.ExternalsFrom(s), EdgesAt(def, brings, Resting([s]));
    forall e ensures e in es <==> exists t | t in ts :: e in ResumeEdges(def, brings, s, t) {
      ResumeIsEdge(def, brings, s, false, ts, e);
    }
    forall t | t in ts
      ensures AllSurvive(Lift(m), m[s], ResumeEdges(def, brings, s, t))
        <==> EnoughFor(m, s, t, brings(t)) && FailureFits(def, m, s, m[s] + brings(t), t.processor.Some?)
    {
      ExternalSurvivesIff(def, brings, m, s, t);
    }
    if AllSurvive(Lift(m), m[s], es) {
      forall t | t in ts ensures AllSurvive(Lift(m), m[s], ResumeEdges(def, brings, s, t)) {}
    }
  }

  lemma RunningEdgesAre(def: FlowDef, brings: Supply, s: State)
    ensures EdgesAt(def, brings, Running([s])) == [To(Resting([s]), {})] + ChainEdges(def, [], def, s)
  {
    assert [s][..0] == [] && [] + [s] == [s];
  }

  lemma RunningSurvivesIff(def: FlowDef, brings: Supply, m: Avail<State>, s: State)
    requires Passes(def, m) && Built(def) && s in m && (Link(def, s).None? || def.Terminal(s))
    ensures AllSurvive(Lift(m), m[s], EdgesAt(def, brings, Running([s]))) <==> ChainErrorsRespected(def, m, s)
  {
    assert m[s] + {} == m[s];
    RunningEdgesAre(def, brings, s);
    RestingSurvives(m, s, m[s], {});
    if !def.Terminal(s) { ChainSurvivesIff(def, m, s); }
    SurviveAppend(Lift(m), m[s], [To(Resting([s]), {})], ChainEdges(def, [], def, s));
  }

  lemma MappedExitSurvives(def: FlowDef, m: Avail<State>, s: State, exit: string)
    requires Passes(def, m) && s in m && Link(def, s).Some? && exit in Link(def, s).value.exitMappings
    ensures AllSurvive(Lift(m), m[s], [To(Running([] + [Link(def, s).value.exitMappings[exit]]), {})])
  {
    var z := Link(def, s).value.exitMappings[exit];
    assert [] + [z] == [z] && m[s] + {} == m[s];
    ExitPasses(def, m, s, z);
    MoveSurvives(m, z, m[s], {}, []);
  }

  lemma MoveOnIff(m: Avail<State>, s: State, z: State, have: set<Key>)
    requires s in m && m[s] <= have
    ensures AllSurvive(Lift(m), have, [To(Resting([s]), {})] + [To(Running([z]), {})]) <==> StateFits(m, z, have)
  {
    assert have + {} == have;
    RestingSurvives(m, s, have, {});
    MoveSurvives(m, z, have, {}, []);
    SurviveAppend(Lift(m), have, [To(Resting([s]), {})], [To(Running([z]), {})]);
  }

  /** The moves behind the exit of a sub-flow of the root. */
  lemma ExitEdgesAre(def: FlowDef, s: State, exit: string)
    requires Link(def, s).Some?
    ensures var mapped := Link(def, s).value.exitMappings;
      LeaveEdges(def, [s], exit, true, {}) ==
        if exit in mapped then [To(Running([] + [mapped[exit]]), {})]
        else [To(Resting([s]), {})] + [To(Running([if s in def.errorTransitions then def.errorTransitions[s] else s]), {})]
  {
    assert [] + [s] == [s];
    LeaveEdgesAt(def, [], s, exit, true, {});
    LeaveParentIs(def, [], s, def, exit, true, {});
    assert DefAt(def, []) == Some(def) && LeaveEdges(def, [], "TERMINAL_ERROR", true, {}) == [];
    var z := if s in def.errorTransitions then def.errorTransitions[s] else s;
    assert [] + [z] == [z];
    assert MovesOn(def, [], s, def, {}) == [To(Running([z]), {})];
  }

  /** Where the parent goes on after an exit of its sub-flow. */
  lemma ExitSurvivesIff(def: FlowDef, m: Avail<State>, s: State, exit: string)
    requires Passes(def, m) && s in m && Link(def, s).Some?
    ensures AllSurvive(Lift(m), m[s], LeaveEdges(def, [s], exit, true, {}))
      <==> (exit !in Link(def, s).value.exitMappings && s in def.errorTransitions ==> StateFits(m, def.errorTransitions[s], m[s]))
  {
    ExitEdgesAre(def, s, exit);
    if exit in Link(def, s).value.exitMappings {
      MappedExitSurvives(def, m, s, exit);
    } else {
      MoveOnIff(m, s, if s in def.errorTransitions then def.errorTransitions[s] else s, m[s]);
    }
  }

  lemma ExitsKeptIff(def: FlowDef, m: Avail<State>, s: State)
    requires Passes(def, m) && s in m && Link(def, s).Some?
    ensures Running([s]) in Lift(m) && (ExitsKept(def, Lift(m), s) <==> ExitsRespected(def, m, s))
  {
    LiftValue(m, s);
    forall exit
      ensures AllSurvive(Lift(m), m[s], LeaveEdges(def, [s], exit, true, {}))
        <==> (exit !in Link(def, s).value.exitMappings && s in def.errorTransitions ==> StateFits(m, def.errorTransitions[s], m[s]))
    {
      ExitSurvivesIff(def, m, s, exit);
    }
  }

  lemma LiftValue(m: Avail<State>, s: State)
    requires s in m
    ensures Running([s]) in Lift(m) && Resting([s]) in Lift(m) && Lift(m)[Running([s])] == m[s] && Lift(m)[Resting([s])] == m[s]
  {
    LiftFits(m, s, m[s]);
    assert [s][0] == s;
  }

  lemma LiftPosition(m: Avail<State>, q: Pos)
    requires q in Lift(m)
    ensures |q.path| == 1 && q.path[0] in m && (q == Running([q.path[0]]) || q == Resting([q.path[0]])) && Lift(m)[q] == m[q.path[0]]
  {}

  /** What a state of the parent demands of its map, sub-flows left out. */
  ghost predicate StateKept(def: FlowDef, brings: Supply, m: Avail<State>, s: State)
    requires s in m
  {
    && (if EntersAt(def, Lift(m), s) then ExitsKept(def, Lift(m), s)
        else AllSurvive(Lift(m), m[s], EdgesAt(def, brings, Running([s]))))
    && AllSurvive(Lift(m), m[s], EdgesAt(def, brings, Resting([s])))
  }

  lemma StateKeptIff(def: FlowDef, brings: Supply, m: Avail<State>, s: State)
    requires Passes(def, m) && Built(def) && s in m
    ensures StateKept(def, brings, m, s) <==>
      && ChainErrorsRespected(def, m, s)
      && forall t | t in def.ExternalsFrom(s) ::
           EnoughFor(m, s, t, brings(t)) && FailureFits(def, m, s, m[s] + brings(t), t.processor.Some?)
  {
    LiftValue(m, s);
    RestingSurvivesIff(def, brings, m, s);
    if EntersAt(def, Lift(m), s) {
      ExitsKeptIff(def, m, s);
    } else {
      RunningSurvivesIff(def, brings, m, s);
    }
  }

  lemma ParentKeptIffStates(def: FlowDef, brings: Supply, m: Avail<State>)
    ensures ParentKept(def, brings, Lift(m)) <==> forall s | s in m :: StateKept(def, brings, m, s)
  {
    forall s | s in m ensures Running([s]) in Lift(m) && Resting([s]) in Lift(m) && Lift(m)[Running([s])] == m[s] && Lift(m)[Resting([s])] == m[s] {
      LiftValue(m, s);
    }
    forall q | q in Lift(m) ensures |q.path| == 1 && q.path[0] in m && (q == Running([q.path[0]]) || q == Resting([q.path[0]])) {
      LiftPosition(m, q);
    }
    if forall s | s in m :: StateKept(def, brings, m, s) { AllStatesKept(def, brings, m); }
    if ParentKept(def, brings, Lift(m)) {
      forall s | s in m ensures StateKept(def, brings, m, s) { assert [s][0] == s; }
    }
  }

  lemma AllStatesKept(def: FlowDef, brings: Supply, m: Avail<State>)
    requires forall s | s in m :: StateKept(def, brings, m, s)
    ensures ParentKept(def, brings, Lift(m))
  {
    forall q | q in Lift(m)
      ensures |q.path| == 1
      ensures !(q.Running? && EntersAt(def, Lift(m), q.path[0])) ==> AllSurvive(Lift(m), Lift(m)[q], EdgesAt(def, brings, q))
    {
      LiftPosition(m, q);
      assert StateKept(def, brings, m, q.path[0]);
    }
    forall s | EntersAt(def, Lift(m), s) ensures Fits(Lift(m), Resting([s]), Lift(m)[Running([s])]) && ExitsKept(def, Lift(m), s) {
      LiftPosition(m, Running([s]));
      LiftValue(m, s);
      assert StateKept(def, brings, m, s);
    }
  }

  /** For a map the checks are content with, what the engine needs on top of it, sub-flows left out, is exactly that errors
    * are respected and that callers bring enough. */
  lemma ParentKeptIffRespected(def: FlowDef, brings: Supply, m: Avail<State>)
    requires Passes(def, m) && Built(def)
    ensures ParentKept(def, brings, Lift(m)) <==> ErrorRoutesRespected(def, brings, m) && BroughtSuffices(def, brings, m)
  {
    ParentKeptIffStates(def, brings, m);
    forall s | s in m
      ensures StateKept(def, brings, m, s) <==>
        && ChainErrorsRespected(def, m, s)
        && forall t | t in def.ExternalsFrom(s) ::
             EnoughFor(m, s, t, brings(t)) && FailureFits(def, m, s, m[s] + brings(t), t.processor.Some?)
    {
      StateKeptIff(def, brings, m, s);
    }
  }

  lemma FlatParent(def: FlowDef, brings: Supply, m: Avail<State>)
    requires SubFlowFree(def)
    ensures Guaranteed(Plan(def, brings, Lift(m))) <==> ParentKept(def, brings, Lift(m))
  {
    forall s ensures !EntersAt(def, Lift(m), s) { FlatLinks(def, s); }
    forall q | q in Lift(m) ensures |q.path| == 1 { LiftPosition(m, q); }
  }

  /** For a map the checks are content with, what the engine needs on top is exactly that errors are respected and that
    * callers bring enough. */
  lemma GuaranteedIffRespected(def: FlowDef, brings: Supply, m: Avail<State>)
    requires Passes(def, m) && Built(def) && SubFlowFree(def)
    ensures Guaranteed(Plan(def, brings, Lift(m))) <==> ErrorRoutesRespected(def, brings, m) && BroughtSuffices(def, brings, m)
  {
    ParentKeptIffRespected(def, brings, m);
    FlatParent(def, brings, m);
  }

  /** Callers that bring everything the definition declares bring enough. */
  lemma AllBroughtSuffices(def: FlowDef, brings: Supply, m: Avail<State>)
    requires Passes(def, m) && forall s, t | s in m && t in def.ExternalsFrom(s) :: KeySet(def.externallyProvided) <= brings(t)
    ensures BroughtSuffices(def, brings, m)
  {
    forall s, t | s in m && t in def.ExternalsFrom(s) ensures EnoughFor(m, s, t, brings(t)) {
      OfKindIn(def.TransitionsFrom(s), External, t);
      EdgeMeansMet(def, m, s, t);
    }
  }

  // ---------- reached states ----------

  lemma FollowedEdgeTyped(def: FlowDef, s: State, e: Edge<State>)
    requires WellTyped(def) && e in EdgesFrom(FollowedGraph(def), s)
    ensures e.target in def.states
  {
    if e in CheckedEdges(def, def.TransitionsFrom(s)) {
      CheckedEdgeOf(def, def.TransitionsFrom(s), e);
      var t :| t in def.TransitionsFrom(s) && EdgeOf(def, t, e);
      LeavingIn(def.transitions, s, t);
      if e in ErrorEdges(def, t) { ErrorEdgeTarget(def, t, e); }
    } else {
      TargetIsEdge(ExitTargets(def, s), e);
      LinkTyped(def, s);
    }
  }

  lemma ErrorEdgeTarget(def: FlowDef, t: Transition, e: Edge<State>)
    requires e in ErrorEdges(def, t)
    ensures t.from in def.errorTransitions && e.target == def.errorTransitions[t.from]
  {}

  lemma ReachedStatesTyped(def: FlowDef, s: State)
    requires WellTyped(def) && def.initial.Some? && Reaches(FollowedGraph(def), def.initial.value, s)
    ensures s in def.states
  {
    var p :| Leads(FollowedGraph(def), def.initial.value, p, s);
    match p
    case Here =>
    case Then(q, x, e) => FollowedEdgeTyped(def, x, e);
  }

  // ---------- the claim ----------

  /** The analysis has no complaint about the data flow, and its final map passes the one-edge check, which with the join of
    * the comments it always does. Exits of sub-flows are followed; without sub-flows it is the analysis of `build()`. */
  ghost predicate DataFlowPasses(join: Join, def: FlowDef)
    requires WellTyped(def) && def.initial.Some?
  {
    StartInGraph(def);
    var r := Analyse(join, FollowedGraph(def), def.initial.value, Initially(def));
    r.errors == [] && (join == AsWritten ==> EdgeConsistent(FollowedGraph(def), r.avail))
  }

  lemma StartInGraph(def: FlowDef)
    requires WellTyped(def) && def.initial.Some?
    ensures def.initial.value in States(FollowedGraph(def))
  {}

  ghost function FinalMap(join: Join, def: FlowDef): Avail<State>
    requires WellTyped(def) && def.initial.Some?
  {
    StartInGraph(def);
    Analyse(join, FollowedGraph(def), def.initial.value, Initially(def)).avail
  }

  lemma FinalMapPasses(join: Join, def: FlowDef)
    requires WellTyped(def) && def.initial.Some? && DataFlowPasses(join, def)
    ensures Passes(def, FinalMap(join, def)) && StateFits(FinalMap(join, def), def.initial.value, Initially(def))
  {
    var g, init, given := FollowedGraph(def), def.initial.value, Initially(def);
    StartInGraph(def);
    AcceptsIffNeedsMet(join, g, init, given);
    AnalyseFacts(join, g, init, given);
    if join == Intersection {
      IntersectionIsExact(g, init, given);
      ExactIffEdgeConsistent(join, g, init, given);
    }
    forall s | s in FinalMap(join, def) ensures s in def.states {
      RecordsReachedStates(join, g, init, given, s);
      ReachedStatesTyped(def, s);
    }
  }

  /** Sub-flows are checked alone, and find what they declare where they are entered. */
  ghost predicate SubFlowsApart(def: FlowDef, brings: Supply, m: Avail<State>) {
    forall s | EntersAt(def, Lift(m), s) :: SubFlowChecked(def, brings, Lift(m), s) && Declared(def, Lift(m), s)
  }

  /** What the verifier's analysis leaves open, for a map `m`: error routes, what callers bring, and the sub-flows. */
  ghost predicate Respected(def: FlowDef, brings: Supply, m: Avail<State>) {
    ErrorRoutesRespected(def, brings, m) && BroughtSuffices(def, brings, m) && SubFlowsApart(def, brings, m)
  }

  /** A plan for the whole from the verifier's map. */
  lemma VerifierPlan(join: Join, def: FlowDef, brings: Supply) returns (j: Joint)
    requires WellTyped(def) && Built(def) && def.initial.Some? && DataFlowPasses(join, def)
    requires Respected(def, brings, FinalMap(join, def))
    ensures j.parent == def && j.brings == brings && j.own == Lift(FinalMap(join, def)) && PiecesKept(j)
    ensures Guaranteed(Plan(def, brings, Joined(j))) && StartKept(def, Joined(j))
  {
    var m := FinalMap(join, def);
    FinalMapPasses(join, def);
    ParentKeptIffRespected(def, brings, m);
    LiftFits(m, def.initial.value, Initially(def));
    j := CheckedApart(def, brings, Lift(m));
  }

  /** What the verifier accepts, with all that respected, the engine check accepts. */
  lemma VerifierPlusErrorRoutesSuffices(join: Join, def: FlowDef, brings: Supply)
    requires AllBuilt(def) && WellTyped(def) && Built(def) && def.initial.Some?
    requires DataFlowPasses(join, def) && Respected(def, brings, FinalMap(join, def))
    ensures EngineCheckAccepts(def, brings)
  {
    var j := VerifierPlan(join, def, brings);
    HasPlanIffAccepted(def, brings);
  }

  /** The claim of the README, with what the code needs for it: an accepted definition, run by honest components and
    * callers that bring what they owe, never calls a component without the keys it requires, and each flow holds what
    * the map says of its state. */
  lemma AcceptedRunsAreSafe(join: Join, def: FlowDef, cfg: Config, env: Env, evs: seq<Event>, brings: Supply)
    requires WellTyped(def) && Built(def) && def.initial.Some? && DataFlowPasses(join, def)
    requires Respected(def, brings, FinalMap(join, def))
    requires Trusted(cfg, env, def) && OwedRun(cfg, env, evs, brings, {def})
    ensures Supplied(Run(cfg, env, evs).calls)
    ensures var m, w := FinalMap(join, def), Run(cfg, env, evs);
      forall id | id in w.flows :: w.flows[id].state in m && m[w.flows[id].state] <= w.flows[id].ctx.Keys
  {
    var j := VerifierPlan(join, def, brings);
    JoinedRunsAreSafe(j, FinalMap(join, def), cfg, env, evs);
  }

  ghost function JoinedCerts(j: Joint): Certs { map[j.parent := Joined(j)] }

  lemma JoinedIsDutiful(j: Joint, cfg: Config, env: Env, evs: seq<Event>)
    requires Guaranteed(Plan(j.parent, j.brings, Joined(j))) && StartKept(j.parent, Joined(j))
    requires Trusted(cfg, env, j.parent) && OwedRun(cfg, env, evs, j.brings, {j.parent})
    ensures Certified(cfg, env, j.brings, JoinedCerts(j)) && DutifulRun(cfg, env, evs, j.brings, JoinedCerts(j))
  {
    forall i | 0 <= i < |evs| ensures Dutiful(Run(cfg, env, evs[..i]), evs[i], j.brings, JoinedCerts(j)) {
      assert Owed(Run(cfg, env, evs[..i]), evs[i], j.brings, {j.parent});
    }
  }

  lemma JoinedRunsAreSafe(j: Joint, m: Avail<State>, cfg: Config, env: Env, evs: seq<Event>)
    requires PiecesKept(j) && j.own == Lift(m) && Guaranteed(Plan(j.parent, j.brings, Joined(j))) && StartKept(j.parent, Joined(j))
    requires Trusted(cfg, env, j.parent) && OwedRun(cfg, env, evs, j.brings, {j.parent})
    ensures Supplied(Run(cfg, env, evs).calls)
    ensures var w := Run(cfg, env, evs);
      forall id | id in w.flows :: w.flows[id].state in m && m[w.flows[id].state] <= w.flows[id].ctx.Keys
  {
    JoinedIsDutiful(j, cfg, env, evs);
    var certs, w := JoinedCerts(j), Run(cfg, env, evs);
    RunsAreSafe(cfg, env, evs, j.brings, certs);
    forall id | id in w.flows ensures w.flows[id].state in m && m[w.flows[id].state] <= w.flows[id].ctx.Keys {
      assert SafeFlow(w.flows[id], j.brings, certs);
      RestingHolds(j, m, w.flows[id]);
    }
  }

  /** A flow that rests, by itself or with its sub-flow, holds what the parent's map says of its state. */
  lemma RestingHolds(j: Joint, m: Avail<State>, f: Flow)
    requires PiecesKept(j) && j.own == Lift(m) && f.def == j.parent
    requires Rests(Plan(j.parent, j.brings, Joined(j)), [], f, f.ctx.Keys)
    ensures f.state in m && m[f.state] <= f.ctx.Keys
  {
    if f.active.None? {
      var q := Resting([f.state]);
      assert q in j.own by { if q !in j.own { var s, p := JoinedPosition(j, q); } }
      LiftPosition(m, q);
    } else {
      var q := Resting([f.state] + [f.active.value.state]);
      assert q !in j.own by { if q in j.own { LiftPosition(m, q); } }
      var s, p := JoinedPosition(j, q);
      ShiftBack(s, p);
      InnerValue(j, s, p);
      LiftPosition(m, Running([s]));
    }
  }

  lemma FlatIsTrusted(cfg: Config, env: Env, def: FlowDef)
    requires SubFlowFree(def) && Honest(cfg, env, def)
    ensures Trusted(cfg, env, def)
  {
    forall above | DefAt(def, above).Some? ensures DefAt(def, above) == Some(def) {
      if above != [] { FlatLinks(def, above[0]); }
    }
  }

  /** Without error routes, and with callers that bring everything declared, the intersection join alone is enough, for
    * the definition and for each sub-flow checked alone. */
  lemma AcceptedWithoutErrorRoutes(def: FlowDef, cfg: Config, env: Env, evs: seq<Event>, brings: Supply)
    requires WellTyped(def) && Built(def) && def.initial.Some?
    requires def.errorTransitions == map[] && def.exceptionRoutes == map[]
    requires forall t | t in def.transitions && t.kind == External :: KeySet(def.externallyProvided) <= brings(t)
    requires DataFlowPasses(Intersection, def) && SubFlowsApart(def, brings, FinalMap(Intersection, def))
    requires Trusted(cfg, env, def) && OwedRun(cfg, env, evs, brings, {def})
    ensures Supplied(Run(cfg, env, evs).calls)
  {
    var m := FinalMap(Intersection, def);
    FinalMapPasses(Intersection, def);
    forall s, t | s in m && t in def.ExternalsFrom(s) ensures KeySet(def.externallyProvided) <= brings(t) {
      OfKindIn(def.TransitionsFrom(s), External, t);
      LeavingIn(def.transitions, s, t);
    }
    AllBroughtSuffices(def, brings, m);
    AcceptedRunsAreSafe(Intersection, def, cfg, env, evs, brings);
  }
}
