/** Without sub-flows and error routes the check of `build()`, with the join of its comments, is exact about runs. */
module CheckExactness {
  import opened Definition
  import opened DataFlow
  import opened DataFlowProofs
  import opened RequiresProduces
  import opened CheckMeaning
  import opened EngineModel
  import opened EngineFacts
  import opened EngineMoves
  import opened RunSafety
  import opened EngineCheck
  import opened Builder
  import opened BranchArms
  import opened Headline
  import opened DoomedChains
  import opened Realisation

  // ---------- the definitions considered ----------

  ghost predicate NoErrorRoutes(def: FlowDef) { def.errorTransitions == map[] && def.exceptionRoutes == map[] }

  /** With each event, callers bring everything the definition declares to be provided. */
  function FullSupply(def: FlowDef): Supply { t => KeySet(def.externallyProvided) }

  // ---------- from the engine's map to the check's ----------

  /** What the engine's map says of the states. */
  ghost function Lowered(def: FlowDef, m: Cert): Avail<State> {
    map s | s in def.states && Running([s]) in m :: m[Running([s])]
  }

  ghost predicate Fed(def: FlowDef, m: Avail<State>, t: Transition)
    requires t.from in m
  {
    PartsFed(def, t, m[t.from]) && TargetsFed(def, m, t, m[t.from])
  }

  lemma FlatRunning(def: FlowDef, m: Cert, s: State)
    requires SubFlowFree(def) && Guaranteed(Plan(def, FullSupply(def), m)) && Running([s]) in m
    ensures Fits(m, Resting([s]), m[Running([s])])
    ensures AllSurvive(m, m[Running([s])], ChainEdges(def, [], def, s))
  {
    assert [] + [s] == [s];
    RunningFits(Plan(def, FullSupply(def), m), [], s, m[Running([s])]);
  }

  lemma MoveLands(def: FlowDef, m: Cert, have: set<Key>, to: State, gain: set<Key>, needs: seq<Need>)
    requires AllSurvive(m, have, [Edge(Running([to]), gain, needs)]) && to in def.states
    ensures NoMoreThan(Lowered(def, m), to, have + gain) && AllKnown(needs, have)
  {
    OneSurvives(m, have, Edge(Running([to]), gain, needs));
  }

  /** What is assumed of the definition and of the engine's map. */
  ghost predicate Exact(def: FlowDef) {
    && WellTyped(def) && Built(def) && SubFlowFree(def) && def.initial.Some?
    && NoErrorRoutes(def) && NothingShadowed(def) && TerminalsAreFinal(def)
  }

  lemma ChainedEdges(def: FlowDef, t: Transition)
    requires Exact(def) && t in def.transitions && (t.kind == Auto || t.kind == Branch)
    ensures FirstChained(def.TransitionsFrom(t.from)).Some?
    ensures var first := FirstChained(def.TransitionsFrom(t.from)).value;
      && first in def.transitions && first.from == t.from
      && ChainEdges(def, [], def, t.from)
        == if first.kind == Auto then AutoEdges(def, [], def, t.from, first) else BranchEdges(def, [], def, t.from, first)
  {
    FlatLinks(def, t.from);
    assert CanBeTaken(def.TransitionsFrom(t.from), t);
    FirstChainedIn(def.TransitionsFrom(t.from));
    LeavingIn(def.transitions, t.from, FirstChained(def.TransitionsFrom(t.from)).value);
  }

  lemma AutoMove(def: FlowDef, m: Cert, have: set<Key>, t: Transition)
    requires t.processor.Some? && t.to in def.states && AllSurvive(m, have, AutoEdges(def, [], def, t.from, t))
    ensures NoMoreThan(Lowered(def, m), t.to, have + ProcessorProduces(t))
    ensures KeySet(t.processor.value.requires_) <= have
  {
    assert [] + [t.to] == [t.to];
    var move := Edge(Running([t.to]), ProcessorProduces(t), RunNeeds(t, t.processor, {}));
    SurviveAppend(m, have, FailureEdges(def, [], def, t.from, true, {}), [move]);
    MoveLands(def, m, have, t.to, ProcessorProduces(t), RunNeeds(t, t.processor, {}));
    NeedsMean(ProcessorPart, t, t.processor.value.requires_, {}, have);
    assert have + {} == have;
  }

  /** An automatic transition is fed by what its move needs and delivers. */
  lemma ChainedFed(def: FlowDef, m: Avail<State>, t: Transition, have: set<Key>)
    requires t.kind != External && t.guard.None? && t.from !in def.errorTransitions
    requires t.branch.Some? ==> KeySet(t.branch.value.requires_) <= have
    requires t.processor.Some? ==> KeySet(t.processor.value.requires_) <= have
    requires NoMoreThan(m, t.to, have + ProcessorProduces(t))
    ensures PartsFed(def, t, have) && TargetsFed(def, m, t, have)
  {
    assert t.processor.None? ==> have + ProcessorProduces(t) == have;
  }

  lemma AutoIsFirst(def: FlowDef, t: Transition)
    requires Exact(def) && t in def.transitions && t.kind == Auto
    ensures FirstChained(def.TransitionsFrom(t.from)) == Some(t)
    ensures t.processor.Some? && t.guard.None? && t.branch.None? && t.to in def.states
  {
    assert WellFormed(t) && CanBeTaken(def.TransitionsFrom(t.from), t);
    if t.branchLabel.Some? { FirstLabelledIn(def.TransitionsFrom(t.from), t.branchLabel.value, t.to); }
  }

  lemma AutoFed(def: FlowDef, m: Cert, t: Transition)
    requires Exact(def) && Guaranteed(Plan(def, FullSupply(def), m))
    requires t in def.transitions && t.kind == Auto && t.from in Lowered(def, m)
    ensures Fed(def, Lowered(def, m), t)
  {
    var have := m[Running([t.from])];
    FlatRunning(def, m, t.from);
    AutoIsFirst(def, t);
    ChainedEdges(def, t);
    AutoMove(def, m, have, t);
    ChainedFed(def, Lowered(def, m), t, have);
  }

  lemma BranchMove(def: FlowDef, m: Cert, have: set<Key>, first: Transition, t: Transition)
    requires first.branch.Some? && AllSurvive(m, have, BranchEdges(def, [], def, first.from, first))
    requires t.branchLabel.Some? && t.branchLabel.value in first.branchTargets && first.branchTargets[t.branchLabel.value] == t.to
    requires FirstLabelled(def.TransitionsFrom(first.from), t.branchLabel.value) == Some(t) && t.to in def.states
    ensures NoMoreThan(Lowered(def, m), t.to, have + ProcessorProduces(t))
    ensures KeySet(first.branch.value.requires_) <= have && (t.processor.Some? ==> KeySet(t.processor.value.requires_) <= have)
  {
    var l, needs := t.branchLabel.value, NeedsOf(BranchPart, first, first.branch.value.requires_, {});
    var arms := ArmEdges([], def, first.from, first, first.branchTargets.Keys);
    var ask := Edge(Running([] + [first.from]), {}, needs);
    SurviveAppend(m, have, FailureEdges(def, [], def, first.from, true, {}), [ask] + arms);
    SurviveAppend(m, have, [ask], arms);
    OneSurvives(m, have, ask);
    NeedsMean(BranchPart, first, first.branch.value.requires_, {}, have);
    var arm := ArmEdge([], def, first.from, first, l);
    ArmIsEdge([], def, first.from, first, first.branchTargets.Keys, arm);
    assert [] + [t.to] == [t.to] && have + {} == have;
    assert Survives(m, have, arm);
    if t.processor.Some? { NeedsMean(ProcessorPart, first, t.processor.value.requires_, {}, have); }
  }

  lemma BranchFed(def: FlowDef, m: Cert, t: Transition)
    requires Exact(def) && Guaranteed(Plan(def, FullSupply(def), m))
    requires t in def.transitions && t.kind == Branch && t.from in Lowered(def, m)
    ensures Fed(def, Lowered(def, m), t)
  {
    FlatRunning(def, m, t.from);
    ChainedEdges(def, t);
    var first := FirstChained(def.TransitionsFrom(t.from)).value;
    assert WellFormed(t) && WellFormed(first) && CanBeTaken(def.TransitionsFrom(t.from), t);
    ArmTarget(def, t, first);
    BranchMove(def, m, m[Running([t.from])], first, t);
    ChainedFed(def, Lowered(def, m), t, m[Running([t.from])]);
  }

  /** The arm of a label leads where the branch says. */
  lemma ArmTarget(def: FlowDef, t: Transition, first: Transition)
    requires Exact(def) && t in def.transitions && t.kind == Branch
    requires FirstChained(def.TransitionsFrom(t.from)) == Some(first) && first.kind == Branch
    ensures t.branchLabel.Some? && t.branchLabel.value in first.branchTargets
    ensures first.branchTargets[t.branchLabel.value] == t.to
  {
    assert CanBeTaken(def.TransitionsFrom(t.from), t);
    assert LabelsResolve(def.TransitionsFrom(t.from));
  }

  lemma ResumeMove(def: FlowDef, m: Cert, have: set<Key>, t: Transition)
    requires t.guard.Some? && t.to in def.states && AllSurvive(m, have, ResumeEdges(def, FullSupply(def), t.from, t))
    ensures var arrived := have + KeySet(def.externallyProvided);
      var granted := arrived + KeySet(t.guard.value.produces);
      && NoMoreThan(Lowered(def, m), t.to, granted + ProcessorProduces(t))
      && KeySet(t.guard.value.requires_) <= arrived
      && (t.processor.Some? ==> KeySet(t.processor.value.requires_) <= granted)
  {
    var g, brought := t.guard.value, KeySet(def.externallyProvided);
    var granted := brought + KeySet(g.produces);
    var asked, run := NeedsOf(GuardPart, t, g.requires_, brought), RunNeeds(t, t.processor, granted);
    var move := Edge(Running([t.to]), granted + ProcessorProduces(t), asked + run);
    SurviveAppend(m, have, FailureEdges(def, [], def, t.from, t.processor.Some?, brought), [move]);
    MoveLands(def, m, have, t.to, granted + ProcessorProduces(t), asked + run);
    KnownAppend(asked, run, have);
    NeedsMean(GuardPart, t, g.requires_, brought, have);
    if t.processor.Some? { NeedsMean(ProcessorPart, t, t.processor.value.requires_, granted, have); }
    assert have + granted == have + brought + KeySet(g.produces);
    assert have + (granted + ProcessorProduces(t)) == have + brought + KeySet(g.produces) + ProcessorProduces(t);
  }

  lemma ExternalEdges(def: FlowDef, m: Cert, t: Transition)
    requires Exact(def) && Guaranteed(Plan(def, FullSupply(def), m)) && t in def.transitions && t.kind == External
    requires Resting([t.from]) in m
    ensures AllSurvive(m, m[Resting([t.from])], ResumeEdges(def, FullSupply(def), t.from, t))
  {
    var s := t.from;
    LeavingIn(def.transitions, s, t);
    OfKindIn(def.TransitionsFrom(s), External, t);
    assert [s][0] == s;
    forall e | e in ResumeEdges(def, FullSupply(def), s, t) ensures Survives(m, m[Resting([s])], e) {
      ResumeIsEdge(def, FullSupply(def), s, false, def.ExternalsFrom(s), e);
      assert e in EdgesAt(def, FullSupply(def), Resting([s]));
    }
  }

  lemma ExternalFed(def: FlowDef, m: Cert, t: Transition)
    requires Exact(def) && Guaranteed(Plan(def, FullSupply(def), m))
    requires t in def.transitions && t.kind == External && t.from in Lowered(def, m)
    ensures Fed(def, Lowered(def, m), t)
  {
    var have := m[Running([t.from])];
    FlatRunning(def, m, t.from);
    ExternalEdges(def, m, t);
    SurviveMore(m, m[Resting([t.from])], have, ResumeEdges(def, FullSupply(def), t.from, t));
    assert WellFormed(t);
    ResumeMove(def, m, have, t);
  }

  /** A map the engine's moves keep is one the declarations feed. */
  lemma EngineMapIsFed(def: FlowDef, m: Cert)
    requires Exact(def) && Guaranteed(Plan(def, FullSupply(def), m)) && Fits(m, Initial(def), Initially(def))
    ensures FedFromStart(def, Lowered(def, m))
  {
    forall t | t in def.transitions && t.from in Lowered(def, m) ensures Fed(def, Lowered(def, m), t) {
      match t.kind
      case Auto => AutoFed(def, m, t);
      case Branch => BranchFed(def, m, t);
      case External => ExternalFed(def, m, t);
      case SubFlow =>
    }
  }

  // ---------- both directions ----------

  ghost predicate IntersectionAccepts(def: FlowDef)
    requires WellTyped(def) && def.initial.Some?
  {
    InitialInGraph(def);
    Analyse(Intersection, CheckerGraph(def), def.initial.value, Initially(def)).errors == []
  }

  lemma AcceptedByEngine(def: FlowDef)
    requires Exact(def) && AllBuilt(def) && IntersectionAccepts(def)
    ensures EngineCheckAccepts(def, FullSupply(def))
  {
    var m := FinalMap(Intersection, def);
    FlatIsTheCheck(def, FullSupply(def), m);
    assert DataFlowPasses(Intersection, def);
    FinalMapPasses(Intersection, def);
    AllBroughtSuffices(def, FullSupply(def), m);
    VerifierPlusErrorRoutesSuffices(Intersection, def, FullSupply(def));
  }

  /** Without sub-flows and error routes, with callers that bring everything declared and no automatic transition
    * shadowed by another: the intersection join demands exactly what the moves of the engine demand. */
  lemma CheckIsEngineCheck(def: FlowDef)
    requires Exact(def)
    ensures AllBuilt(def) && (IntersectionAccepts(def) <==> EngineCheckAccepts(def, FullSupply(def)))
  {
    FlatIsBuilt(def);
    if IntersectionAccepts(def) { AcceptedByEngine(def); }
    if EngineCheckAccepts(def, FullSupply(def)) {
      EngineCheckIsExact(def, FullSupply(def));
      var m: Cert :| Guaranteed(Plan(def, FullSupply(def), m)) && Fits(m, Initial(def), Initially(def));
      EngineMapIsFed(def, m);
      IntersectionAcceptsIffFed(def);
    }
  }

  /** So the check is exact about runs: it accepts exactly when every run of honest components and dutiful callers supplies
    * every component it calls. */
  lemma PromiseIffCheck(x: Setting)
    requires Proper(x) && Exact(x.def) && x.brings == FullSupply(x.def)
    ensures KeepsItsPromise(x) <==> IntersectionAccepts(x.def)
  {
    PromiseIffEngineCheck(x);
    CheckIsEngineCheck(x.def);
  }
}
