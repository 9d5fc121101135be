/** A definition that `build()` accepts because it credits every event with all externally provided keys. Two triggers
  * wait in one state, an event brings one of them, and a processor behind the first requires the second. */
module TriggerCounterexample {
  import opened Definition
  import opened DataFlow
  import opened DataFlowProofs
  import opened RequiresProduces
  import opened EngineModel
  import opened EngineFacts
  import opened EngineMoves
  import opened RunSafety
  import opened Builder
  import opened EngineCheck
  import opened DoomedChains
  import opened Realisation
  import opened Graphs
  import opened Searches
  import opened Routing
  import ChainBound
  import C = Counterexamples

  const ON_PAY := Guard("onPay", ["Pay"], [], Some("Pay"))
  const ON_CANCEL := Guard("onCancel", ["Cancel"], [], Some("Cancel"))
  const REFUND := Processor("Refund", ["Cancel"], [])

  const PAY := Transition("OPEN", "PAID", External, None, Some(ON_PAY), None, map[], None, None, None)
  const CANCEL := Transition("OPEN", "CLOSED", External, None, Some(ON_CANCEL), None, map[], None, None, None)
  const SETTLE := Transition("PAID", "CLOSED", Auto, Some(REFUND), None, None, map[], None, None, None)

  const SHOP := FlowDef("shop", ["OPEN", "PAID", "CLOSED"], {"CLOSED"}, Some("OPEN"), [PAY, CANCEL, SETTLE],
                        map[], map[], 3, 300000, false, [], ["Pay", "Cancel"])

  // ---------- its states ----------

  lemma ShopStates()
    ensures forall s :: s in SHOP.states <==> s == "OPEN" || s == "PAID" || s == "CLOSED"
  {}

  lemma ShopLeaving()
    ensures SHOP.TransitionsFrom("OPEN") == [PAY, CANCEL] && SHOP.TransitionsFrom("PAID") == [SETTLE]
    ensures SHOP.TransitionsFrom("CLOSED") == []
  {
    assert SHOP.transitions == [PAY] + ([CANCEL] + ([SETTLE] + []));
    forall s: State ensures SHOP.TransitionsFrom(s)
      == (if PAY.from == s then [PAY] else []) + ((if CANCEL.from == s then [CANCEL] else []) + ((if SETTLE.from == s then [SETTLE] else []) + []))
    {
      LeavingCons(SETTLE, [], s);
      LeavingCons(CANCEL, [SETTLE] + [], s);
      LeavingCons(PAY, [CANCEL] + ([SETTLE] + []), s);
    }
  }

  lemma ShopExternals()
    ensures SHOP.ExternalsFrom("OPEN") == [PAY, CANCEL] && SHOP.ExternalsFrom("PAID") == [] && SHOP.ExternalsFrom("CLOSED") == []
  {
    ShopLeaving();
    C.OnlyExternal([PAY, CANCEL]);
    assert [SETTLE][1..] == [];
  }

  lemma ShopChained()
    ensures FirstChained(SHOP.TransitionsFrom("OPEN")).None? && FirstChained(SHOP.TransitionsFrom("PAID")) == Some(SETTLE)
    ensures FirstChained(SHOP.TransitionsFrom("CLOSED")).None?
  {
    ShopLeaving();
    C.PairSearched(PAY, CANCEL, _ => true);
  }

  // ---------- accepted ----------

  lemma ShopTyped()
    ensures WellTyped(SHOP)
  {
    ShopStates();
  }

  lemma ShopBuilt()
    ensures Built(SHOP)
  {
    var ds := [ExternalDecl("OPEN", "PAID", ON_PAY, None, None), ExternalDecl("OPEN", "CLOSED", ON_CANCEL, None, None),
               AutoDecl("PAID", "CLOSED", REFUND)];
    assert ds[1..][1..][1..] == [];
    assert EmitAll(ds[1..][1..]) == [SETTLE];
    assert EmitAll(ds[1..]) == [CANCEL, SETTLE];
    assert EmitAll(ds) == [PAY, CANCEL, SETTLE];
    DeclarationsBuild(SHOP, ds);
  }

  lemma ShopParts()
    ensures NormalEdge(SHOP, PAY) == Edge("PAID", {"Pay", "Cancel"}, [Need(GuardPart, PAY, "Pay", {"Pay", "Cancel"})])
    ensures NormalEdge(SHOP, CANCEL) == Edge("CLOSED", {"Pay", "Cancel"}, [Need(GuardPart, CANCEL, "Cancel", {"Pay", "Cancel"})])
    ensures NormalEdge(SHOP, SETTLE) == Edge("CLOSED", {}, [Need(ProcessorPart, SETTLE, "Cancel", {})])
  {
    assert KeySet([]) == {} && KeySet(["Pay", "Cancel"]) == {"Pay", "Cancel"};
    assert ["Pay"][1..] == [] && ["Cancel"][1..] == [];
    var all := {"Pay", "Cancel"};
    assert NeedsOf(GuardPart, PAY, ["Pay"], all) == [Need(GuardPart, PAY, "Pay", all)];
    assert NeedsOf(GuardPart, CANCEL, ["Cancel"], all) == [Need(GuardPart, CANCEL, "Cancel", all)];
    assert NeedsOf(ProcessorPart, SETTLE, ["Cancel"], {}) == [Need(ProcessorPart, SETTLE, "Cancel", {})];
  }

  lemma ShopEdges()
    ensures "OPEN" in States(CheckerGraph(SHOP))
    ensures EdgesFrom(CheckerGraph(SHOP), "OPEN") == [NormalEdge(SHOP, PAY), NormalEdge(SHOP, CANCEL)]
    ensures EdgesFrom(CheckerGraph(SHOP), "PAID") == [NormalEdge(SHOP, SETTLE)]
    ensures EdgesFrom(CheckerGraph(SHOP), "CLOSED") == []
  {
    ShopLeaving();
    ShopStates();
    CheckedEdgesAt(SHOP, "OPEN");
    CheckedEdgesAt(SHOP, "PAID");
    CheckedEdgesAt(SHOP, "CLOSED");
    TwoChecked(SHOP, PAY, CANCEL);
    OneChecked(SHOP, SETTLE);
  }

  ghost predicate ShopShaped(g: FlowGraph<State>) {
    var all := {"Pay", "Cancel"};
    && EdgesFrom(g, "OPEN") == [Edge("PAID", all, [Need(GuardPart, PAY, "Pay", all)]), Edge("CLOSED", all, [Need(GuardPart, CANCEL, "Cancel", all)])]
    && EdgesFrom(g, "PAID") == [Edge("CLOSED", {}, [Need(ProcessorPart, SETTLE, "Cancel", {})])]
    && EdgesFrom(g, "CLOSED") == []
  }

  lemma ShapeHasMap(g: FlowGraph<State>, m: Avail<State>)
    requires ShopShaped(g) && m == map["OPEN" := {}, "PAID" := {"Pay", "Cancel"}, "CLOSED" := {}]
    ensures EdgeConsistent(g, m) && NeedsMet(g, m)
  {}

  lemma AcceptedByBoth(g: FlowGraph<State>)
    requires "OPEN" in States(g) && ShopShaped(g)
    ensures Analyse(Intersection, g, "OPEN", {}).errors == [] && Analyse(AsWritten, g, "OPEN", {}).errors == []
  {
    var m: Avail<State> := map["OPEN" := {}, "PAID" := {"Pay", "Cancel"}, "CLOSED" := {}];
    ShapeHasMap(g, m);
    C.BothJoinsAccept(g, "OPEN", {}, m);
  }

  lemma ShopReaches()
    ensures forall s | s in SHOP.states :: Reach(StepGraph(SHOP), "OPEN", s)
    ensures ReachesTerminal(SHOP, "OPEN")
  {
    ShopLeaving();
    ShopStates();
    var g := StepGraph(SHOP);
    assert [PAY, CANCEL][1..] == [CANCEL] && [CANCEL][1..] == [];
    assert AllTargets([CANCEL]) == {"CLOSED"};
    assert Succ(g, "OPEN") == {"PAID", "CLOSED"};
    ReachRefl(g, "OPEN");
    ReachStep(g, "OPEN", "OPEN", "PAID");
    ReachStep(g, "OPEN", "OPEN", "CLOSED");
    assert SHOP.Terminal("CLOSED");
  }

  lemma ShopAcyclic()
    ensures !Cyclic(ChainGraph(SHOP))
  {
    var g := ChainGraph(SHOP);
    forall s, x | x in Succ(g, s) ensures x == "CLOSED" && s == "PAID" { ChainTarget(SHOP.transitions, s, x); }
    if a :| OnCycle(g, a) {
      var w: Walk :| w.Step? && Walks(g, a, w, a);
      assert a in Succ(g, w.from);
      assert a == "CLOSED";
      ClosedContainsWalk(g, {"CLOSED"}, a, w.prefix, w.from);
      assert false;
    }
  }

  lemma ShopRouting()
    ensures RoutingAccepted(SHOP)
  {
    ShopExternals();
    ShopStates();
    ShopTriggers({});
    assert !SameTrigger(PAY, CANCEL);
    assert Distinguishable([PAY, CANCEL]);
  }

  lemma ShopConflicts()
    ensures NoAutoExternalConflict(SHOP)
  {
    ShopExternals();
    ShopChained();
    ShopStates();
  }

  lemma ShopFlat()
    ensures SubFlowFree(SHOP)
  {}

  lemma ShopStructure()
    ensures BranchesComplete(SHOP) && TerminalsAreFinal(SHOP) && ExitsComplete(SHOP)
    ensures DepthAccepted(SHOP, 0) && NamesAccepted(SHOP, {})
  {}

  /** `build()` accepts, and so would the join of the comments. */
  lemma ShopIsAccepted()
    ensures WellTyped(SHOP) && Built(SHOP) && BuildAccepts(SHOP, Options(false, false))
    ensures Analyse(Intersection, CheckerGraph(SHOP), "OPEN", Initially(SHOP)).errors == []
  {
    ShopTyped();
    ShopBuilt();
    ShopEdges();
    ShopParts();
    assert Initially(SHOP) == {};
    AcceptedByBoth(CheckerGraph(SHOP));
    ShopReaches();
    ShopAcyclic();
    ShopRouting();
    ShopConflicts();
    ShopStructure();
  }

  // ---------- no caller can serve it ----------

  lemma ShopTriggers(keys: set<Key>)
    ensures Explicit([PAY, CANCEL]) == [PAY, CANCEL]
    ensures Triggered([PAY, CANCEL], keys) == (if "Pay" in keys then [PAY] else []) + (if "Cancel" in keys then [CANCEL] else [])
  {
    C.PairSearched(PAY, CANCEL, t => HasTrigger(t));
    C.PairSearched(PAY, CANCEL, t => TriggeredBy(t, keys));
  }

  /** An event that selects PAY does not bring Cancel: with both triggers the selection is ambiguous. */
  lemma PayComesAlone(brings: Supply)
    requires Select([PAY, CANCEL], brings(PAY)) == Selected(PAY)
    ensures "Pay" in brings(PAY) && "Cancel" !in brings(PAY)
  {
    ShopTriggers(brings(PAY));
  }

  /** What the check on the engine's edges asks of the event that pays. */
  lemma AcceptedMeansCancelBrought(brings: Supply, m: Cert)
    requires Guaranteed(Plan(SHOP, brings, m)) && Fits(m, Running(["OPEN"]), {})
    ensures "Cancel" in brings(PAY)
  {
    ShopExternals();
    ShopChained();
    var p := Plan(SHOP, brings, m);
    assert [] + ["OPEN"] == ["OPEN"] && [] + ["PAID"] == ["PAID"];
    RunningFits(p, [], "OPEN", {});
    ResumeSurvives(p, "OPEN", PAY, {});
    GuardedSurvives(p, "OPEN", PAY, {});
    assert KeySet([]) == {} && {} + brings(PAY) + {} + {} == brings(PAY);
    assert Fits(m, Running(["PAID"]), brings(PAY));
    RunningFits(p, [], "PAID", brings(PAY));
    SettleNeeds(m, brings(PAY));
  }

  lemma SettleNeeds(m: Cert, have: set<Key>)
    requires AllSurvive(m, have, ChainEdges(SHOP, [], SHOP, "PAID"))
    ensures "Cancel" in have
  {
    ShopFlat();
    ShopChained();
    FlatLinks(SHOP, "PAID");
    var e := Edge(Running([] + ["CLOSED"]), ProcessorProduces(SETTLE), RunNeeds(SETTLE, SETTLE.processor, {}));
    assert e in AutoEdges(SHOP, [], SHOP, "PAID", SETTLE);
    assert Survives(m, have, e);
    assert ["Cancel"][1..] == [];
    assert Need(ProcessorPart, SETTLE, "Cancel", {}) in e.needs;
  }

  /** Whatever callers bring with an event that selects its transition, some run goes wrong. */
  lemma NoCallerServesShop(cfg: Config, brings: Supply)
    requires Selectable(SHOP, brings) && cfg.maxChainDepth >= 3
    ensures !KeepsItsPromise(Setting(cfg, SHOP, brings))
  {
    ShopIsAccepted();
    ShopFlat();
    ShopExternals();
    PayComesAlone(brings);
    ChainBound.FewStatesAreShort(cfg, SHOP);
    PromiseIffEngineCheck(Setting(cfg, SHOP, brings));
    assert Initially(SHOP) == {};
    if EngineCheckAccepts(SHOP, brings) {
      AcceptedIsSound(SHOP, brings);
      var m: Cert :| Guaranteed(Plan(SHOP, brings, m)) && Fits(m, Initial(SHOP), Initially(SHOP));
      AcceptedMeansCancelBrought(brings, m);
    }
  }

  // ---------- one such run ----------

  const ENV := C.Obliging("")
  const CONFIG := Config(false, 10)

  const PAID_DATA: Ctx := map["Pay" := "v"]

  /** An event brings the trigger of its transition. */
  const OWN_TRIGGER: Supply := t => if HasTrigger(t) then {t.guard.value.externalTrigger.value} else {}

  lemma ShopStarts()
    ensures Start(CONFIG, ENV, "f", SHOP, map[], 0, [], []).sys == Sys("f", Flow(SHOP, "OPEN", map[], 0, None, 0, 300000, None), 1, [], [])
  {
    ShopFlat();
    ShopChained();
    NoSubFlowHere(SHOP, "OPEN");
    var s := Sys("f", Flow(SHOP, "OPEN", map[], 0, None, 0, 300000, None), 1, [], []);
    assert ChainPass(CONFIG, ENV, s).Halted?;
    ChainStep(CONFIG, ENV, s, 0);
  }

  lemma PaySelected()
    ensures Select([PAY, CANCEL], {"Pay"}) == Selected(PAY)
  {
    ShopTriggers({"Pay"});
  }

  /** Paid, the flow runs on into the refund. */
  lemma RefundMisses(s: Sys)
    requires s.flow.def == SHOP && s.flow.state == "PAID" && s.flow.ctx.Keys == {"Pay"}
    ensures !Supplied(Chain(CONFIG, ENV, s, 0).sys.calls)
  {
    ShopFlat();
    ShopChained();
    RunSpoils(ENV, s, REFUND, false, "Cancel");
    var r := RunProcessor(ENV, s, Some(REFUND), false);
    assert ChainPass(CONFIG, ENV, s) == AutoPass(CONFIG, ENV, s, SETTLE);
    if r.Moved? { WrongMore(r.sys, ChainPass(CONFIG, ENV, s).sys); }
    WrongPass(CONFIG, ENV, s, 0);
  }

  lemma PayingMisses(s: Sys)
    requires s.flow == Flow(SHOP, "OPEN", map[], 0, None, 0, 300000, None)
    ensures !Supplied(Resume(CONFIG, ENV, s, PAID_DATA).sys.calls)
    ensures Chosen(s.flow, PAID_DATA.Keys) == Some(PAY)
  {
    ShopExternals();
    PaySelected();
    var s1 := Arrived(s, PAID_DATA);
    assert PAID_DATA.Keys == {"Pay"};
    assert Resume(CONFIG, ENV, s, PAID_DATA) == ResumeOwn(CONFIG, ENV, s1, {"Pay"}) == TakeExternal(CONFIG, ENV, s1, PAY);
    var called := Called(s1, ["Pay"]);
    var moved := Tick(Advance(ENV, called.(flow := s1.flow.(ctx := s1.flow.ctx + map[])), "PAID", "onPay"));
    assert TakeExternal(CONFIG, ENV, s1, PAY) == Chain(CONFIG, ENV, moved, 0);
    RefundMisses(moved);
  }

  const SHOP_RUN := [StartFlow("f", SHOP, map[]), ResumeFlow("f", PAID_DATA)]

  /** The payment comes alone, as its trigger says, and the refund runs without Cancel. */
  lemma ShopRunFails()
    ensures Honest(CONFIG, ENV, SHOP) && OwedRun(CONFIG, ENV, SHOP_RUN, OWN_TRIGGER, {SHOP})
    ensures !Supplied(Run(CONFIG, ENV, SHOP_RUN).calls)
  {
    var start, pay := StartFlow("f", SHOP, map[]), ResumeFlow("f", PAID_DATA);
    assert SHOP_RUN == [start] + [pay];
    C.ObligingIsHonest(CONFIG, "", SHOP);
    OwedStart(CONFIG, ENV, "f", SHOP, map[], OWN_TRIGGER);
    RunStart(CONFIG, ENV, "f", SHOP, map[]);
    ShopStarts();
    var w := Run(CONFIG, ENV, [start]);
    PayingMisses(Sys("f", w.flows["f"], w.tick, w.log, w.calls));
    OwedSnoc(CONFIG, ENV, [start], pay, OWN_TRIGGER, {SHOP});
    RunSnoc(CONFIG, ENV, [start], pay);
  }
}
