/** One accepted parent and one accepted sub-flow, on which the three sub-flow failures happen: the parent is stranded, it is
  * entered again up to the depth limit, or a processor behind the exit misses its key. */
module SubFlowCounterexample {
  import opened Definition
  import opened DataFlow
  import opened DataFlowProofs
  import opened RequiresProduces
  import opened EngineModel
  import opened EngineFacts
  import opened EngineMoves
  import opened RunSafety
  import opened Builder
  import opened EngineCheck
  import opened Graphs
  import opened Searches
  import opened Routing
  import opened SubFlowExit
  import C = Counterexamples

  const FETCH := Processor("Fetch", [], [])
  const POST := Processor("Post", [], [])
  const GO := Guard("go", [], [], None)
  const NEEDY := Processor("Needy", ["K"], [])

  const BEGIN_ASK := Transition("BEGIN", "ASK", Auto, Some(FETCH), None, None, map[], None, None, None)
  const ASK_WORK := Transition("ASK", "WORK", External, None, Some(GO), None, map[], None, None, None)
  const WORK_END := Transition("WORK", "END", Auto, Some(POST), None, None, map[], None, None, None)

  const CHILD := FlowDef("child", ["BEGIN", "ASK", "WORK", "END"], {"END"}, Some("BEGIN"), [BEGIN_ASK, ASK_WORK, WORK_END],
                         map[], map[], 3, 300000, false, [], [])

  const LINK := SubFlowLink(CHILD, map["END" := "USE"])
  const ENTRY := Transition("ENTRY", "ENTRY", SubFlow, None, None, None, map[], None, None, Some(LINK))
  const USE_DONE := Transition("USE", "DONE", Auto, Some(NEEDY), None, None, map[], None, None, None)

  /** USE is entered by the exit of the sub-flow only, and nothing provides K. */
  const HOST := FlowDef("host", ["ENTRY", "USE", "DONE"], {"DONE"}, Some("ENTRY"), [ENTRY, USE_DONE],
                        map[], map[], 3, 300000, false, [], [])

  // ---------- the states of both ----------

  lemma ChildStates()
    ensures forall s :: s in CHILD.states <==> s == "BEGIN" || s == "ASK" || s == "WORK" || s == "END"
  {}

  lemma HostStates()
    ensures forall s :: s in HOST.states <==> s == "ENTRY" || s == "USE" || s == "DONE"
  {}

  lemma ChildLeaving()
    ensures CHILD.TransitionsFrom("BEGIN") == [BEGIN_ASK] && CHILD.TransitionsFrom("ASK") == [ASK_WORK]
    ensures CHILD.TransitionsFrom("WORK") == [WORK_END] && CHILD.TransitionsFrom("END") == []
  {
    assert CHILD.transitions == [BEGIN_ASK] + ([ASK_WORK] + ([WORK_END] + []));
    forall s: State ensures CHILD.TransitionsFrom(s) == (if BEGIN_ASK.from == s then [BEGIN_ASK] else [])
      + ((if ASK_WORK.from == s then [ASK_WORK] else []) + ((if WORK_END.from == s then [WORK_END] else []) + []))
    {
      LeavingCons(WORK_END, [], s);
      LeavingCons(ASK_WORK, [WORK_END] + [], s);
      LeavingCons(BEGIN_ASK, [ASK_WORK] + ([WORK_END] + []), s);
    }
  }

  lemma HostLeaving()
    ensures HOST.TransitionsFrom("ENTRY") == [ENTRY] && HOST.TransitionsFrom("USE") == [USE_DONE]
    ensures HOST.TransitionsFrom("DONE") == []
  {
    assert HOST.transitions == [ENTRY] + ([USE_DONE] + []);
    forall s: State ensures HOST.TransitionsFrom(s) == (if ENTRY.from == s then [ENTRY] else []) + ((if USE_DONE.from == s then [USE_DONE] else []) + [])
    {
      LeavingCons(USE_DONE, [], s);
      LeavingCons(ENTRY, [USE_DONE] + [], s);
    }
  }

  /** The searches over the transitions of a state that has one. */
  lemma OneFound(t: Transition)
    ensures OfKind([t], External) == if t.kind == External then [t] else []
    ensures FirstChained([t]) == if t.kind == Auto || t.kind == Branch then Some(t) else None
    ensures FirstSubFlow([t]) == if t.kind == SubFlow && t.subFlow.Some? then Some(t) else None
    ensures AllTargets([t]) == Targets(t)
  {
    assert [t][1..] == [];
    assert OfKind([t], External) == (if t.kind == External then [t] else []) + [];
  }

  lemma ChildFound()
    ensures CHILD.ExternalsFrom("BEGIN") == [] && CHILD.ExternalsFrom("ASK") == [ASK_WORK]
    ensures CHILD.ExternalsFrom("WORK") == [] && CHILD.ExternalsFrom("END") == []
    ensures FirstChained(CHILD.TransitionsFrom("BEGIN")) == Some(BEGIN_ASK) && FirstChained(CHILD.TransitionsFrom("ASK")).None?
    ensures FirstChained(CHILD.TransitionsFrom("WORK")) == Some(WORK_END) && FirstChained(CHILD.TransitionsFrom("END")).None?
  {
    ChildLeaving();
    OneFound(BEGIN_ASK);
    OneFound(ASK_WORK);
    OneFound(WORK_END);
  }

  lemma HostFound()
    ensures HOST.ExternalsFrom("ENTRY") == [] && HOST.ExternalsFrom("USE") == [] && HOST.ExternalsFrom("DONE") == []
    ensures FirstSubFlow(HOST.TransitionsFrom("ENTRY")) == Some(ENTRY) && FirstSubFlow(HOST.TransitionsFrom("USE")).None?
  {
    HostLeaving();
    OneFound(ENTRY);
    OneFound(USE_DONE);
  }

  // ---------- accepted ----------

  lemma ChildBuilt()
    ensures WellTyped(CHILD) && Built(CHILD)
  {
    ChildStates();
    var ds := [AutoDecl("BEGIN", "ASK", FETCH), ExternalDecl("ASK", "WORK", GO, None, None), AutoDecl("WORK", "END", POST)];
    assert ds[1..][1..][1..] == [];
    assert EmitAll(ds[1..][1..]) == [WORK_END];
    assert EmitAll(ds[1..]) == [ASK_WORK, WORK_END];
    assert EmitAll(ds) == CHILD.transitions;
    DeclarationsBuild(CHILD, ds);
  }

  lemma HostBuilt()
    ensures WellTyped(HOST) && Built(HOST)
  {
    HostStates();
    var ds := [SubFlowDecl("ENTRY", LINK), AutoDecl("USE", "DONE", NEEDY)];
    assert ds[1..][1..] == [];
    assert EmitAll(ds[1..]) == [USE_DONE];
    assert EmitAll(ds) == HOST.transitions;
    DeclarationsBuild(HOST, ds);
  }

  lemma ChildSteps()
    ensures Succ(StepGraph(CHILD), "BEGIN") == {"ASK"} && Succ(StepGraph(CHILD), "ASK") == {"WORK"}
    ensures Succ(StepGraph(CHILD), "WORK") == {"END"}
  {
    ChildLeaving();
    OneFound(BEGIN_ASK);
    OneFound(ASK_WORK);
    OneFound(WORK_END);
  }

  lemma ChildReaches()
    ensures forall s | s in CHILD.states :: Reach(StepGraph(CHILD), "BEGIN", s)
    ensures ReachesTerminal(CHILD, "BEGIN")
  {
    ChildSteps();
    ChildStates();
    var g := StepGraph(CHILD);
    ReachRefl(g, "BEGIN");
    ReachStep(g, "BEGIN", "BEGIN", "ASK");
    ReachStep(g, "BEGIN", "ASK", "WORK");
    ReachStep(g, "BEGIN", "WORK", "END");
    assert CHILD.Terminal("END");
  }

  lemma HostSteps()
    ensures Succ(StepGraph(HOST), "ENTRY") == {"USE"} && Succ(StepGraph(HOST), "USE") == {"DONE"}
  {
    HostLeaving();
    OneFound(ENTRY);
    OneFound(USE_DONE);
    assert LINK.exitMappings["END"] == "USE";
    assert LINK.exitMappings.Values == {"USE"};
  }

  lemma HostReaches()
    ensures forall s | s in HOST.states :: Reach(StepGraph(HOST), "ENTRY", s)
    ensures ReachesTerminal(HOST, "ENTRY")
  {
    HostSteps();
    HostStates();
    var g := StepGraph(HOST);
    ReachRefl(g, "ENTRY");
    ReachStep(g, "ENTRY", "ENTRY", "USE");
    ReachStep(g, "ENTRY", "USE", "DONE");
    assert HOST.Terminal("DONE");
  }

  /** No automatic edge leaves a state that one enters. */
  lemma ShortChains(def: FlowDef)
    requires forall t, u | t in def.transitions && u in def.transitions && IsChained(t) && IsChained(u) :: t.to != u.from
    ensures !Cyclic(ChainGraph(def))
  {
    var g := ChainGraph(def);
    if a :| OnCycle(g, a) {
      var w: Walk :| w.Step? && Walks(g, a, w, a);
      ChainTarget(def.transitions, w.from, a);
      assert Walks(g, a, w.prefix, w.from);
      if w.prefix.Step? { ChainTarget(def.transitions, w.prefix.from, w.from); }
    }
  }

  lemma ChainsAreShort()
    ensures !Cyclic(ChainGraph(CHILD)) && !Cyclic(ChainGraph(HOST))
  {
    ShortChains(CHILD);
    ShortChains(HOST);
  }

  lemma ChildDataFlow()
    requires WellTyped(CHILD)
    ensures DataFlowAccepted(CHILD)
  {
    ChildEdges();
    var g := CheckerGraph(CHILD);
    AcceptsIffNeedsMet(AsWritten, g, "BEGIN", Initially(CHILD));
  }

  lemma ChildEdges()
    ensures "BEGIN" in States(CheckerGraph(CHILD))
    ensures forall s, e | e in EdgesFrom(CheckerGraph(CHILD), s) :: e.needs == []
  {
    ChildStates();
    CheckedEdgesAt(CHILD, "BEGIN");
    forall s, e | e in EdgesFrom(CheckerGraph(CHILD), s) ensures e.needs == [] {
      CheckedEdgeOf(CHILD, CHILD.TransitionsFrom(s), e);
      var t :| t in CHILD.TransitionsFrom(s) && EdgeOf(CHILD, t, e);
      LeavingIn(CHILD.transitions, s, t);
      ChildNeedsNothing(t);
    }
  }

  lemma ChildNeedsNothing(t: Transition)
    requires t in CHILD.transitions
    ensures NormalEdge(CHILD, t).needs == [] && ErrorEdges(CHILD, t) == []
  {
    assert t == BEGIN_ASK || t == ASK_WORK || t == WORK_END;
  }

  /** The analysis never visits USE. */
  lemma HostDataFlow()
    requires WellTyped(HOST)
    ensures DataFlowAccepted(HOST)
    ensures Analyse(Intersection, CheckerGraph(HOST), "ENTRY", Initially(HOST)).errors == []
  {
    var g := CheckerGraph(HOST);
    HostLeaving();
    HostStates();
    CheckedEdgesAt(HOST, "ENTRY");
    OneChecked(HOST, ENTRY);
    assert EdgesFrom(g, "ENTRY") == [Edge("ENTRY", {}, [])];
    assert Initially(HOST) == {};
    OnlyEntry(g);
  }

  lemma OnlyEntry(g: FlowGraph<State>)
    requires "ENTRY" in States(g) && EdgesFrom(g, "ENTRY") == [Edge("ENTRY", {}, [])]
    ensures Analyse(Intersection, g, "ENTRY", {}).errors == [] && Analyse(AsWritten, g, "ENTRY", {}).errors == []
  {
    var m: Avail<State> := map["ENTRY" := {}];
    assert EdgeConsistent(g, m) && NeedsMet(g, m);
    C.BothJoinsAccept(g, "ENTRY", {}, m);
  }

  lemma ChildConflicts()
    ensures RoutingAccepted(CHILD) && NoAutoExternalConflict(CHILD)
  {
    ChildFound();
    ChildStates();
  }

  lemma ChildStructure()
    ensures BranchesComplete(CHILD) && TerminalsAreFinal(CHILD) && ExitsComplete(CHILD)
  {}

  lemma ChildFlat()
    ensures SubFlowFree(CHILD) && DepthAccepted(CHILD, 0) && DepthAccepted(CHILD, 1)
    ensures NamesAccepted(CHILD, {}) && NamesAccepted(CHILD, {"host"})
  {}

  lemma HostStructure()
    ensures RoutingAccepted(HOST) && NoAutoExternalConflict(HOST)
    ensures BranchesComplete(HOST) && TerminalsAreFinal(HOST) && ExitsComplete(HOST)
  {
    HostFound();
    HostStates();
  }

  lemma HostNests()
    ensures DepthAccepted(HOST, 0) && NamesAccepted(HOST, {})
  {
    ChildFlat();
    assert {} + {HOST.name} == {"host"};
  }

  lemma ChildIsAccepted()
    ensures WellTyped(CHILD) && Built(CHILD) && BuildAccepts(CHILD, Options(false, false))
  {
    ChildBuilt();
    ChildReaches();
    ChainsAreShort();
    ChildDataFlow();
    ChildConflicts();
    ChildStructure();
    ChildFlat();
    C.AllAccept(CHILD, "BEGIN");
  }

  /** `build()` accepts the parent, which maps every terminal state of its sub-flow. */
  lemma HostIsAccepted()
    ensures WellTyped(HOST) && Built(HOST) && BuildAccepts(HOST, Options(false, false))
    ensures Analyse(Intersection, CheckerGraph(HOST), "ENTRY", Initially(HOST)).errors == []
  {
    HostBuilt();
    HostReaches();
    ChainsAreShort();
    HostDataFlow();
    HostStructure();
    HostNests();
    C.AllAccept(HOST, "ENTRY");
  }

  // ---------- how their runs go ----------

  const CONFIG := Config(false, 10)

  /** Components that do as declared, except that the processor of this name throws. */
  function Failing(name: string): Env {
    C.Obliging("").(process := (p: Processor, _, _) => if p.name == name then Threw(map[], "Down") else Returned(C.PutAll(p.produces)))
  }

  lemma FailingIsHonest(name: string, root: FlowDef)
    ensures Trusted(CONFIG, Failing(name), root)
  {
    var env := Failing(name);
    forall p: Processor ensures Puts(env, p) {}
    forall g: Guard ensures Grants(env, g) {}
  }

  lemma HostIsBuilt()
    ensures AllBuilt(HOST)
  {
    HostBuilt();
    ChildBuilt();
    ChildFlat();
    forall above | DefAt(HOST, above).Some? ensures DefAt(HOST, above).value == HOST || DefAt(HOST, above).value == CHILD {
      if above != [] {
        LinksToChild(above[0]);
        if above[1..] != [] { FlatLinks(CHILD, above[1]); }
      }
    }
  }

  lemma LinksToChild(s: State)
    ensures Link(HOST, s).Some? ==> Link(HOST, s).value == LINK
  {
    var ts := HOST.TransitionsFrom(s);
    FirstSubFlowIn(ts);
    if FirstSubFlow(ts).Some? { LeavingIn(HOST.transitions, s, FirstSubFlow(ts).value); }
  }

  /** An automatic state with one processor: it throws and ends the flow, or the chain goes on. */
  lemma AutoChain(name: string, s: Sys, t: Transition, depth: nat)
    requires s.flow.def.TransitionsFrom(s.flow.state) == [t] && t.kind == Auto && t.processor.Some?
    requires !s.flow.def.Terminal(s.flow.state) && !s.flow.def.strictMode && depth < 10
    requires s.flow.def.errorTransitions == map[] && s.flow.def.exceptionRoutes == map[]
    ensures var called := Called(s, t.processor.value.requires_);
      Chain(CONFIG, Failing(name), s, depth)
        == if t.processor.value.name == name then Result(Tick(called.(flow := Complete(s.flow, "TERMINAL_ERROR"))), None)
           else Chain(CONFIG, Failing(name),
                  Tick(Advance(Failing(name), called.(flow := s.flow.(ctx := s.flow.ctx + C.PutAll(t.processor.value.produces))), t.to,
                               t.processor.value.name)), depth + 1)
  {
    OneFound(t);
    var env := Failing(name);
    assert ChainPass(CONFIG, env, s) == AutoPass(CONFIG, env, s, t);
    var called := Called(s, t.processor.value.requires_);
    if t.processor.value.name == name {
      assert HandleError(env, called, Some("Down")) == called.(flow := Complete(s.flow, "TERMINAL_ERROR"));
    }
  }

  /** The sub-flow from its start: its first processor throws, or it waits in ASK. */
  lemma ChildStarts(name: string, s: Sys)
    requires s.flow.def == CHILD && s.flow.state == "BEGIN" && s.flow.exit.None?
    ensures var r := Chain(CONFIG, Failing(name), s, 0);
      && r.thrown.None?
      && (name == "Fetch" ==> r.sys.flow.exit == Some("TERMINAL_ERROR"))
      && (name != "Fetch" ==>
            r.sys.flow.exit.None? && r.sys.flow.state == "ASK" && r.sys.flow.active == s.flow.active
            && r.sys.flow.ctx.Keys == s.flow.ctx.Keys && r.sys.flow.def == CHILD)
  {
    ChildFound();
    ChildLeaving();
    OneFound(ASK_WORK);
    AutoChain(name, s, BEGIN_ASK, 0);
    assert C.PutAll([]) == map[];
  }

  /** The sub-flow from WORK: its last processor throws, or it ends in END. */
  lemma ChildEnds(name: string, s: Sys)
    requires s.flow.def == CHILD && s.flow.state == "WORK" && s.flow.exit.None?
    ensures var r := Chain(CONFIG, Failing(name), s, 0);
      && r.thrown.None? && r.sys.flow.ctx.Keys == s.flow.ctx.Keys
      && r.sys.flow.exit == Some(if name == "Post" then "TERMINAL_ERROR" else "END")
  {
    ChildFound();
    ChildLeaving();
    AutoChain(name, s, WORK_END, 0);
    assert C.PutAll([]) == map[];
  }

  /** The parent after its start: it waits with its sub-flow in ASK. */
  ghost predicate Asking(f: Flow) {
    && f.def == HOST && f.state == "ENTRY" && f.exit.None? && f.active.Some? && f.ctx == map[] && f.expiresAt >= 0
    && f.active.value.def == CHILD && f.active.value.state == "ASK" && f.active.value.exit.None? && f.active.value.active.None?
  }

  function HostAtStart(): Sys { Sys("f", Flow(HOST, "ENTRY", map[], 0, None, 0, 300000, None), 1, [], []) }

  lemma HostStarts(name: string)
    requires name != "Fetch"
    ensures Asking(Chain(CONFIG, Failing(name), HostAtStart(), 0).sys.flow)
  {
    HostFound();
    var env, s := Failing(name), HostAtStart();
    var sub := StartSubFlow(env, s, CHILD);
    ChildStarts(name, sub);
    NestedIsSmaller(HOST, "ENTRY");
    var r := Chain(CONFIG, env, sub, 0);
    assert ChainTurn(CONFIG, env, s) == Stop(Result(Waits(s.flow, r.sys), None));
  }

  lemma AskSelected()
    ensures Select([ASK_WORK], {}) == Selected(ASK_WORK)
  {
    LegacyHasNoExplicit([ASK_WORK]);
  }

  /** The child as its guard accepts: it is in WORK. */
  function Working(name: string, s: Sys): Sys
    requires Asking(s.flow)
  {
    var sub := s.flow.active.value.(ctx := s.flow.ctx);
    Called(s.(flow := sub), []).(
      flow := MoveTo(sub, "WORK", 0).(ctx := sub.ctx + map[]),
      log := s.log + [Record(s.id, "ASK", "WORK", "go")])
  }

  /** The event reaches the sub-flow, whose chain runs on from WORK. */
  lemma HostResumes(name: string, s: Sys)
    requires Asking(s.flow)
    ensures Resume(CONFIG, Failing(name), s, map[])
      == ContinueSubFlow(CONFIG, Failing(name), s.flow, Working(name, s.(tick := s.tick + 1)))
  {
    var env, s1 := Failing(name), s.(tick := s.tick + 1);
    var none: Ctx := map[];
    assert Arrived(s, none) == s1 && none.Keys == {};
    ChildFound();
    AskSelected();
    assert env.validate(GO, s1.flow.ctx, s1.tick) == Accepted(map[]);
    assert Resume(CONFIG, env, s, none) == ResumeSubFlow(CONFIG, env, s1, {});
    assert ResumeSubFlow(CONFIG, env, s1, {}) == ResumeGuarded(CONFIG, env, s1, ASK_WORK, GO);
  }

  const HOST_RUN := [StartFlow("f", HOST, map[]), ResumeFlow("f", map[])]

  function HostStarted(name: string): World { Run(CONFIG, Failing(name), [StartFlow("f", HOST, map[])]) }

  function HostWaiting(name: string): Sys
    requires "f" in HostStarted(name).flows
  {
    var w := HostStarted(name);
    Sys("f", w.flows["f"], w.tick, w.log, w.calls)
  }

  lemma HostBegins(name: string)
    ensures Begun(Failing(name), "f", HOST, map[], 0, [], []) == HostAtStart()
  {}

  lemma StoredFlow(w: World, r: Result)
    requires r.sys.id == "f"
    ensures "f" in Store(w, r).flows && Store(w, r).flows["f"] == r.sys.flow
  {}

  lemma HostStartedAsks(name: string)
    requires name != "Fetch"
    ensures "f" in HostStarted(name).flows && Asking(HostWaiting(name).flow)
  {
    HostBegins(name);
    var r := Chain(CONFIG, Failing(name), HostAtStart(), 0);
    assert HostStarted(name) == Store(EMPTY, r) by { RunStart(CONFIG, Failing(name), "f", HOST, map[]); }
    StoredFlow(EMPTY, r);
    assert Asking(r.sys.flow) by { HostStarts(name); }
  }

  lemma HostRuns(name: string)
    requires "f" in HostStarted(name).flows && Asking(HostWaiting(name).flow)
    ensures Run(CONFIG, Failing(name), HOST_RUN)
      == Store(HostStarted(name), Resume(CONFIG, Failing(name), HostWaiting(name), map[]))
  {
    assert HOST_RUN == [StartFlow("f", HOST, map[])] + [ResumeFlow("f", map[])];
    RunSnoc(CONFIG, Failing(name), [StartFlow("f", HOST, map[])], ResumeFlow("f", map[]));
  }

  // ---------- the three failures ----------

  /** The exit of the sub-flow drops into nothing: the parent waits for an event it has no transition for. */
  lemma HostStrands()
    ensures var w := Run(CONFIG, Failing("Post"), HOST_RUN); "f" in w.flows && Stranded(w.flows["f"])
  {
    HostStartedAsks("Post");
    HostRuns("Post");
    HostFound();
    var s := HostWaiting("Post");
    HostResumes("Post", s);
    var sub := Working("Post", s.(tick := s.tick + 1));
    ChildEnds("Post", Tick(sub));
    UnmappedExitIsDropped(CONFIG, Failing("Post"), s.flow, sub, LINK);
  }

  /** The sub-flow fails on entry, the parent is completed, and the loop enters it again up to the depth limit. */
  lemma HostOverflows()
    ensures AtEntry(HostAtStart().flow, LINK) && AlwaysFails(CONFIG, Failing("Fetch"), HOST, "ENTRY", LINK)
    ensures var r := Start(CONFIG, Failing("Fetch"), "f", HOST, map[], 0, [], []);
      r.thrown == Some("MAX_CHAIN_DEPTH") && r.sys.flow.exit == Some("TERMINAL_ERROR") && r.sys.flow.state == "ENTRY"
  {
    var env := Failing("Fetch");
    HostFound();
    forall s: Sys | s.flow.def == HOST && s.flow.state == "ENTRY" ensures EntryFails(CONFIG, env, s, LINK) {
      ChildStarts("Fetch", StartSubFlow(env, s, CHILD));
    }
    FailingEntryOverflows(CONFIG, env, HostAtStart(), LINK, 0);
    HostBegins("Fetch");
  }

  /** Everything succeeds: the sub-flow ends in END, the parent moves to USE and calls a processor without its key. */
  lemma HostMisses(s: Sys)
    requires Asking(s.flow)
    ensures !Supplied(Resume(CONFIG, Failing(""), s, map[]).sys.calls)
  {
    var env := Failing("");
    HostResumes("", s);
    HostFound();
    var sub := Working("", s.(tick := s.tick + 1));
    ChildEnds("", Tick(sub));
    var r := Chain(CONFIG, env, Tick(sub), 0);
    var left := Tick(LeaveSubFlow(env, Freed(s.flow, r.sys), LINK, "child", "END"));
    assert ContinueSubFlow(CONFIG, env, s.flow, sub) == Chain(CONFIG, env, left, 0);
    UseMisses(left);
  }

  lemma UseMisses(s: Sys)
    requires s.flow.def == HOST && s.flow.state == "USE" && s.flow.ctx.Keys == {}
    ensures !Supplied(Chain(CONFIG, Failing(""), s, 0).sys.calls)
  {
    HostLeaving();
    AutoChain("", s, USE_DONE, 0);
    var called := Called(s, ["K"]);
    var done := Tick(Advance(Failing(""), called.(flow := s.flow.(ctx := s.flow.ctx + C.PutAll([]))), "DONE", "Needy"));
    assert Chain(CONFIG, Failing(""), s, 0) == Chain(CONFIG, Failing(""), done, 1);
    assert Chain(CONFIG, Failing(""), done, 1).sys.calls == called.calls;
    assert Call(KeySet(["K"]), s.flow.ctx.Keys) in called.calls;
    assert "K" in KeySet(["K"]);
  }

  lemma HostCallsNeedy()
    ensures !Supplied(Run(CONFIG, Failing(""), HOST_RUN).calls)
  {
    HostStartedAsks("");
    HostRuns("");
    HostMisses(HostWaiting(""));
  }

  lemma HostIsServed(brings: Supply)
    requires brings(ASK_WORK) == {}
    ensures OwedRun(CONFIG, Failing(""), HOST_RUN, brings, {HOST})
  {
    var env, start := Failing(""), StartFlow("f", HOST, map[]);
    OwedStart(CONFIG, env, "f", HOST, map[], brings);
    HostStartedAsks("");
    ChildFound();
    AskSelected();
    var none: Ctx := map[];
    assert none.Keys == {};
    OwedSnoc(CONFIG, env, [start], ResumeFlow("f", map[]), brings, {HOST});
    assert HOST_RUN == [start] + [ResumeFlow("f", map[])];
  }

  /** Honest components, a dutiful caller, an accepted definition: a state that only an exit leads to is never checked. */
  lemma HostRunFails(brings: Supply)
    requires brings(ASK_WORK) == {}
    ensures Trusted(CONFIG, Failing(""), HOST) && OwedRun(CONFIG, Failing(""), HOST_RUN, brings, {HOST})
    ensures !Supplied(Run(CONFIG, Failing(""), HOST_RUN).calls)
  {
    FailingIsHonest("", HOST);
    HostIsServed(brings);
    HostCallsNeedy();
  }

  /** The check on the engine's edges follows the exit and rejects the parent. */
  lemma EngineCheckRejectsHost(brings: Supply)
    requires brings(ASK_WORK) == {}
    ensures AllBuilt(HOST) && !EngineCheckAccepts(HOST, brings)
  {
    HostIsBuilt();
    HostRunFails(brings);
    UnsafeRunMeansRejection(HOST, brings, CONFIG, Failing(""), HOST_RUN);
  }
}
