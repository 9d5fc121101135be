/** A definition that both joins accept and whose error edge is wrong: the checker keeps the guard's data
  * on the error path, the engine rolls it back. */
module ErrorEdgeCounterexample {
  import opened Definition
  import opened DataFlow
  import opened DataFlowProofs
  import opened RequiresProduces
  import opened EngineModel
  import opened EngineMoves
  import opened RunSafety
  import opened Builder
  import opened Headline
  import opened EngineCheck
  import opened Graphs
  import opened Searches
  import opened Routing
  import C = Counterexamples

  const GRANT := Guard("grant", [], ["G"], None)
  const CHARGE := Processor("Charge", [], [])
  const RETRY := Guard("retry", ["G"], [], None)

  const ASK_OK := Transition("ASK", "OK", External, Some(CHARGE), Some(GRANT), None, map[], None, None, None)
  const FALLBACK_OK := Transition("FALLBACK", "OK", External, None, Some(RETRY), None, map[], None, None, None)

  const PAYMENT := FlowDef("payment", ["ASK", "FALLBACK", "OK"], {"OK"}, Some("ASK"), [ASK_OK, FALLBACK_OK],
                           map["ASK" := "FALLBACK"], map[], 3, 300000, false, [], [])

  lemma PaymentLeaving()
    ensures PAYMENT.TransitionsFrom("ASK") == [ASK_OK] && PAYMENT.TransitionsFrom("FALLBACK") == [FALLBACK_OK]
    ensures PAYMENT.TransitionsFrom("OK") == []
  {
    var ts := PAYMENT.transitions;
    assert ts[1..] == [FALLBACK_OK] && ts[1..][1..] == [];
    forall s: State ensures Leaving(ts, s) == (if ASK_OK.from == s then [ASK_OK] else []) + ((if FALLBACK_OK.from == s then [FALLBACK_OK] else []) + []) {
      assert Leaving(ts[1..], s) == (if FALLBACK_OK.from == s then [FALLBACK_OK] else []) + [];
    }
  }

  lemma PaymentExternals()
    ensures PAYMENT.ExternalsFrom("ASK") == [ASK_OK] && PAYMENT.ExternalsFrom("FALLBACK") == [FALLBACK_OK]
    ensures PAYMENT.ExternalsFrom("OK") == []
  {
    PaymentLeaving();
    forall t: Transition ensures OfKind([t], External) == (if t.kind == External then [t] else []) + [] { assert [t][1..] == []; }
  }

  // ---------- accepted ----------

  lemma PaymentTyped()
    ensures WellTyped(PAYMENT)
  {}

  lemma PaymentStates()
    ensures forall s :: s in PAYMENT.states <==> s == "ASK" || s == "FALLBACK" || s == "OK"
  {}

  lemma PaymentEdges()
    ensures "ASK" in States(CheckerGraph(PAYMENT))
    ensures EdgesFrom(CheckerGraph(PAYMENT), "ASK") == [Edge("OK", {"G"}, []), Edge("FALLBACK", {"G"}, [])]
    ensures EdgesFrom(CheckerGraph(PAYMENT), "FALLBACK") == [Edge("OK", {}, [Need(GuardPart, FALLBACK_OK, "G", {})])]
    ensures EdgesFrom(CheckerGraph(PAYMENT), "OK") == []
    ensures forall s :: s in CheckerGraph(PAYMENT) ==> s == "ASK" || s == "FALLBACK" || s == "OK"
  {
    PaymentLeaving();
    PaymentParts();
    PaymentStates();
    CheckedEdgesAt(PAYMENT, "OK");
    CheckedEdgesAt(PAYMENT, "ASK");
    C.EdgesOfOne(PAYMENT, "ASK", ASK_OK);
    C.EdgesOfOne(PAYMENT, "FALLBACK", FALLBACK_OK);
  }

  lemma PaymentParts()
    ensures NormalEdge(PAYMENT, ASK_OK) == Edge("OK", {"G"}, [])
    ensures NormalEdge(PAYMENT, FALLBACK_OK) == Edge("OK", {}, [Need(GuardPart, FALLBACK_OK, "G", {})])
    ensures ErrorEdges(PAYMENT, ASK_OK) == [Edge("FALLBACK", {"G"}, [])] && ErrorEdges(PAYMENT, FALLBACK_OK) == []
  {
    assert KeySet([]) == {} && KeySet(["G"]) == {"G"} && ["G"][1..] == [];
    assert NormalGain(PAYMENT, ASK_OK) == {"G"} && NormalGain(PAYMENT, FALLBACK_OK) == {};
    assert NeedsOf(GuardPart, FALLBACK_OK, ["G"], {}) == [Need(GuardPart, FALLBACK_OK, "G", {})];
  }

  /** Both joins find nothing wrong. */
  lemma PaymentDataFlow()
    requires WellTyped(PAYMENT) && PAYMENT.initial.value in States(CheckerGraph(PAYMENT))
    ensures Analyse(Intersection, CheckerGraph(PAYMENT), "ASK", Initially(PAYMENT)).errors == []
    ensures Analyse(AsWritten, CheckerGraph(PAYMENT), "ASK", Initially(PAYMENT)).errors == []
  {
    PaymentEdges();
    assert Initially(PAYMENT) == {};
    AcceptedByBoth(CheckerGraph(PAYMENT));
  }

  ghost predicate PaymentShaped(g: FlowGraph<State>) {
    && (forall s :: s in g ==> s == "ASK" || s == "FALLBACK" || s == "OK")
    && EdgesFrom(g, "ASK") == [Edge("OK", {"G"}, []), Edge("FALLBACK", {"G"}, [])]
    && EdgesFrom(g, "FALLBACK") == [Edge("OK", {}, [Need(GuardPart, FALLBACK_OK, "G", {})])]
    && EdgesFrom(g, "OK") == []
  }

  lemma ShapeHasMap(g: FlowGraph<State>, m: Avail<State>)
    requires PaymentShaped(g) && m == map["ASK" := {}, "FALLBACK" := {"G"}, "OK" := {}]
    ensures EdgeConsistent(g, m) && NeedsMet(g, m)
  {}

  lemma AcceptedByBoth(g: FlowGraph<State>)
    requires "ASK" in States(g) && PaymentShaped(g)
    ensures Analyse(Intersection, g, "ASK", {}).errors == [] && Analyse(AsWritten, g, "ASK", {}).errors == []
  {
    var m: Avail<State> := map["ASK" := {}, "FALLBACK" := {"G"}, "OK" := {}];
    ShapeHasMap(g, m);
    C.BothJoinsAccept(g, "ASK", {}, m);
  }

  lemma PaymentSteps()
    ensures Succ(StepGraph(PAYMENT), "ASK") == {"OK", "FALLBACK"}
  {
    PaymentLeaving();
    assert [ASK_OK][1..] == [];
    assert AllTargets([ASK_OK]) == {"OK"};
  }

  lemma PaymentReaches()
    ensures forall s | s in PAYMENT.states :: Reach(StepGraph(PAYMENT), "ASK", s)
    ensures ReachesTerminal(PAYMENT, "ASK")
  {
    PaymentSteps();
    PaymentStates();
    var g := StepGraph(PAYMENT);
    ReachRefl(g, "ASK");
    ReachStep(g, "ASK", "ASK", "OK");
    ReachStep(g, "ASK", "ASK", "FALLBACK");
    assert PAYMENT.Terminal("OK");
  }

  lemma PaymentAcyclic()
    ensures !Cyclic(ChainGraph(PAYMENT))
  {
    var g := ChainGraph(PAYMENT);
    if a :| OnCycle(g, a) {
      var w: Walk :| w.Step? && Walks(g, a, w, a);
      ChainTarget(PAYMENT.transitions, w.from, a);
      assert false;
    }
  }

  lemma PaymentConflicts()
    ensures RoutingAccepted(PAYMENT) && NoAutoExternalConflict(PAYMENT)
  {
    PaymentExternals();
    PaymentLeaving();
    PaymentStates();
    assert [ASK_OK][1..] == [] && [FALLBACK_OK][1..] == [];
    assert FirstChained([ASK_OK][1..]).None? && FirstChained([FALLBACK_OK][1..]).None?;
  }

  lemma PaymentStructure()
    ensures BranchesComplete(PAYMENT) && TerminalsAreFinal(PAYMENT) && ExitsComplete(PAYMENT)
    ensures DepthAccepted(PAYMENT, 0) && NamesAccepted(PAYMENT, {})
  {}

  lemma PaymentBuilt()
    ensures Built(PAYMENT)
  {
    var ds := [ExternalDecl("ASK", "OK", GRANT, Some(CHARGE), None), ExternalDecl("FALLBACK", "OK", RETRY, None, None)];
    assert ds[1..][1..] == [];
    assert EmitAll(ds[1..]) == [FALLBACK_OK];
    DeclarationsBuild(PAYMENT, ds);
  }

  /** `build()` accepts, and so would the join of the comments. */
  lemma PaymentIsAccepted()
    ensures WellTyped(PAYMENT) && Built(PAYMENT) && BuildAccepts(PAYMENT, Options(false, false))
    ensures Analyse(Intersection, CheckerGraph(PAYMENT), "ASK", Initially(PAYMENT)).errors == []
  {
    PaymentTyped();
    PaymentEdges();
    PaymentBuilt();
    PaymentDataFlow();
    PaymentReaches();
    PaymentAcyclic();
    PaymentConflicts();
    PaymentStructure();
    C.AllAccept(PAYMENT, "ASK");
  }

  // ---------- and its run fails ----------

  /** Guards grant what they declare; the processor throws. */
  const FAILING := Env((_, _, _) => Threw(map[], "Declined"), (g: Guard, _, _) => Accepted(map k | k in g.produces :: "v"),
                       (_, _, _) => Decided(""), (_, _, _, _) => map[], (_, _, _, _) => map[], (_, _) => false, _ => 0)

  const CONFIG := Config(false, 10)

  /** Starting stops at once in ASK. */
  lemma PaymentStarts()
    ensures Start(CONFIG, FAILING, "f", PAYMENT, map[], 0, [], []).sys
         == Sys("f", Flow(PAYMENT, "ASK", map[], 0, None, 0, 300000, None), 1, [], [])
  {
    PaymentLeaving();
    assert [ASK_OK][1..] == [];
    assert FirstSubFlow([ASK_OK][1..]).None? && FirstChained([ASK_OK][1..]).None?;
    var s := Sys("f", Flow(PAYMENT, "ASK", map[], 0, None, 0, 300000, None), 1, [], []);
    assert ChainTurn(CONFIG, FAILING, s) == Stop(Result(s, None));
  }

  /** The first resume is granted and charged; the charge throws, G is rolled back, the flow falls back. */
  lemma PaymentFallsBack(s: Sys)
    requires s.flow == Flow(PAYMENT, "ASK", map[], 0, None, 0, 300000, None)
    ensures var r := Resume(CONFIG, FAILING, s, map[]).sys;
      r.flow == Flow(PAYMENT, "FALLBACK", map[], 0, None, 0, 300000, None)
  {
    PaymentExternals();
    var s1 := s.(tick := s.tick + 1);
    assert s.flow.(ctx := s.flow.ctx + map[]) == s.flow;
    NoTrigger(ASK_OK);
    assert Select([ASK_OK], {}) == Selected(ASK_OK);
    var none: Ctx := map[];
    assert none.Keys == {} && none + none == none;
    assert ResumeOwn(CONFIG, FAILING, s1, {}) == TakeExternal(CONFIG, FAILING, s1, ASK_OK);
  }

  /** The second resume asks a guard that requires G. */
  lemma PaymentMisses(s: Sys)
    requires s.flow == Flow(PAYMENT, "FALLBACK", map[], 0, None, 0, 300000, None)
    ensures Call({"G"}, {}) in Resume(CONFIG, FAILING, s, map[]).sys.calls
  {
    PaymentExternals();
    var s1 := s.(tick := s.tick + 1);
    assert s.flow.(ctx := s.flow.ctx + map[]) == s.flow;
    NoTrigger(FALLBACK_OK);
    assert Select([FALLBACK_OK], {}) == Selected(FALLBACK_OK);
    var none: Ctx := map[];
    assert KeySet(["G"]) == {"G"} && none.Keys == {};
    var called := Called(s1, ["G"]);
    assert Call({"G"}, {}) in called.calls;
    assert ResumeOwn(CONFIG, FAILING, s1, {}) == TakeExternal(CONFIG, FAILING, s1, FALLBACK_OK);
    var moved := Advance(FAILING, called.(flow := s1.flow.(ctx := s1.flow.ctx + map[])), "OK", "retry");
    assert moved.calls == called.calls && moved.flow.def == PAYMENT && moved.flow.state == "OK";
    assert Chain(CONFIG, FAILING, Tick(moved), 0).sys.calls == called.calls;
    assert FAILING.validate(RETRY, s1.flow.ctx, s1.tick) == Accepted(map[]);
    assert Accept(CONFIG, FAILING, called, FALLBACK_OK, "retry", map[]).sys.calls == called.calls;
  }

  lemma NoTrigger(t: Transition)
    requires t.guard.Some? && !HasTrigger(t)
    ensures Explicit([t]) == []
  {
    LegacyHasNoExplicit([t]);
  }

  const PAYMENT_RUN := [StartFlow("f", PAYMENT, map[]), ResumeFlow("f", map[]), ResumeFlow("f", map[])]

  /** No event of this definition has to bring anything. */
  const NOTHING: Supply := _ => {}

  lemma PaymentRunFails()
    ensures Honest(CONFIG, FAILING, PAYMENT)
    ensures OwedRun(CONFIG, FAILING, PAYMENT_RUN, NOTHING, {PAYMENT})
    ensures Call({"G"}, {}) in Run(CONFIG, FAILING, PAYMENT_RUN).calls
    ensures !Supplied(Run(CONFIG, FAILING, PAYMENT_RUN).calls)
  {
    var start, again := StartFlow("f", PAYMENT, map[]), ResumeFlow("f", map[]);
    assert PAYMENT_RUN == [] + [start] + [again] + [again];
    RunSnoc(CONFIG, FAILING, [], start);
    RunSnoc(CONFIG, FAILING, [] + [start], again);
    RunSnoc(CONFIG, FAILING, [] + [start] + [again], again);
    PaymentStarts();
    var w1 := Run(CONFIG, FAILING, [] + [start]);
    var w2 := Run(CONFIG, FAILING, [] + [start] + [again]);
    PaymentFallsBack(Sys("f", w1.flows["f"], w1.tick, w1.log, w1.calls));
    PaymentMisses(Sys("f", w2.flows["f"], w2.tick, w2.log, w2.calls));
  }

  /** The check on the engine's own edges does not accept it. */
  lemma EngineCheckRejectsPayment()
    ensures AllBuilt(PAYMENT) && !EngineCheckAccepts(PAYMENT, NOTHING)
  {
    PaymentTyped();
    PaymentBuilt();
    PaymentRunFails();
    FlatIsBuilt(PAYMENT);
    FlatIsTrusted(CONFIG, FAILING, PAYMENT);
    UnsafeRunMeansRejection(PAYMENT, NOTHING, CONFIG, FAILING, PAYMENT_RUN);
  }
}
