/** Concrete definitions on which the claim fails as the code is written: what such proofs share, and the diamond on which
  * the two joins differ. */
module Counterexamples {
  import opened Definition
  import opened DataFlow
  import opened DataFlowProofs
  import opened RequiresProduces
  import opened EngineModel
  import opened EngineFacts
  import opened EngineMoves
  import opened RunSafety
  import opened Builder
  import opened Headline
  import opened EngineCheck
  import opened Graphs
  import opened Searches

  // ---------- components that keep their contracts ----------

  function PutAll(ks: seq<Key>): Ctx { map k | k in ks :: "v" }

  /** Everything succeeds and puts what it declares; every branch answers `choice`. */
  function Obliging(choice: Label): Env {
    Env((p: Processor, _, _) => Returned(PutAll(p.produces)), (g: Guard, _, _) => Accepted(PutAll(g.produces)), (_, _, _) => Decided(choice),
        (_, _, _, _) => map[], (_, _, _, _) => map[], (_, _) => false, _ => 0)
  }

  const CONFIG := Config(false, 10)

  // ---------- short lists of transitions ----------

  lemma OnlyExternal(ts: seq<Transition>)
    requires |ts| <= 2 && forall t | t in ts :: t.kind == External
    ensures OfKind(ts, External) == ts
  {
    if ts != [] {
      assert ts == [ts[0]] + ts[1..];
      if |ts| == 2 { assert ts[1..] == [ts[1]] && [ts[1]][1..] == []; }
    }
  }

  lemma PairSearched(a: Transition, b: Transition, p: Transition -> bool)
    ensures Filter([a, b], p) == (if p(a) then [a] else []) + (if p(b) then [b] else [])
    ensures FirstChained([a, b]) == if a.kind == Auto || a.kind == Branch then Some(a) else FirstChained([b])
    ensures FirstChained([b]) == if b.kind == Auto || b.kind == Branch then Some(b) else None
  {
    assert [a, b][1..] == [b] && [b][1..] == [];
    assert Filter([b], p) == (if p(b) then [b] else []) + [];
  }

  lemma EdgesOfOne(def: FlowDef, s: State, t: Transition)
    requires s in def.states && def.TransitionsFrom(s) == [t]
    ensures EdgesFrom(CheckerGraph(def), s) == [NormalEdge(def, t)] + ErrorEdges(def, t)
  {
    CheckedEdgesAt(def, s);
    OneChecked(def, t);
  }

  lemma EdgesOfTwo(def: FlowDef, s: State, t: Transition, u: Transition)
    requires s in def.states && def.TransitionsFrom(s) == [t, u] && ErrorEdges(def, t) == [] && ErrorEdges(def, u) == []
    ensures EdgesFrom(CheckerGraph(def), s) == [NormalEdge(def, t), NormalEdge(def, u)]
  {
    CheckedEdgesAt(def, s);
    TwoChecked(def, t, u);
  }

  /** A map that passes the one-edge check and meets every need makes both joins accept. */
  lemma BothJoinsAccept(g: FlowGraph<State>, init: State, given: set<Key>, m: Avail<State>)
    requires init in States(g) && init in m && m[init] <= given && EdgeConsistent(g, m) && NeedsMet(g, m)
    ensures Analyse(Intersection, g, init, given).errors == [] && Analyse(AsWritten, g, init, given).errors == []
  {
    IntersectionIsComplete(g, init, given);
    WrittenIsMoreLenient(g, init, given);
  }

  /** The conditions of `build()`, one by one. */
  lemma AllAccept(def: FlowDef, init: State)
    requires WellTyped(def) && def.initial == Some(init)
    requires (forall s | s in def.states :: Reach(StepGraph(def), init, s)) && ReachesTerminal(def, init)
    requires !Cyclic(ChainGraph(def)) && RoutingAccepted(def) && BranchesComplete(def) && DataFlowAccepted(def)
    requires NoAutoExternalConflict(def) && TerminalsAreFinal(def) && ExitsComplete(def)
    requires DepthAccepted(def, 0) && NamesAccepted(def, {})
    ensures BuildAccepts(def, Options(false, false))
  {}

  // ---------- the diamond ----------

  const MAKE_X := Processor("MakeX", [], ["X"])
  const PASS := Processor("Pass", [], [])
  const USE_X := Processor("UseX", ["X"], [])

  const PICK := Brancher("pick", [])

  const LEFT := Transition("INIT", "A", Branch, Some(MAKE_X), None, Some(PICK), map["left" := "A", "right" := "B"], Some("left"), None, None)
  const RIGHT := Transition("INIT", "B", Branch, None, None, Some(PICK), map["left" := "A", "right" := "B"], Some("right"), None, None)
  const A_JOIN := Transition("A", "JOIN", Auto, Some(PASS), None, None, map[], None, None, None)
  const B_JOIN := Transition("B", "JOIN", Auto, Some(PASS), None, None, map[], None, None, None)
  const JOIN_DONE := Transition("JOIN", "DONE", Auto, Some(USE_X), None, None, map[], None, None, None)

  /** One arm produces X, the other does not, and both meet in a state whose processor requires X. */
  const DIAMOND := FlowDef("diamond", ["INIT", "A", "B", "JOIN", "DONE"], {"DONE"}, Some("INIT"),
                           [LEFT, RIGHT, A_JOIN, B_JOIN, JOIN_DONE], map[], map[], 3, 300000, false, [], [])

  lemma DiamondLeaving()
    ensures DIAMOND.TransitionsFrom("INIT") == [LEFT, RIGHT]
    ensures DIAMOND.TransitionsFrom("A") == [A_JOIN]
    ensures DIAMOND.TransitionsFrom("B") == [B_JOIN]
    ensures DIAMOND.TransitionsFrom("JOIN") == [JOIN_DONE]
    ensures DIAMOND.TransitionsFrom("DONE") == []
  {
    var ts := DIAMOND.transitions;
    assert ts[1..] == [RIGHT, A_JOIN, B_JOIN, JOIN_DONE];
    assert ts[1..][1..] == [A_JOIN, B_JOIN, JOIN_DONE];
    assert ts[1..][1..][1..] == [B_JOIN, JOIN_DONE];
    assert ts[1..][1..][1..][1..] == [JOIN_DONE];
    assert ts[1..][1..][1..][1..][1..] == [];
    forall s: State ensures Leaving(ts, s) ==
      (if LEFT.from == s then [LEFT] else []) + ((if RIGHT.from == s then [RIGHT] else []) + ((if A_JOIN.from == s then [A_JOIN] else [])
      + ((if B_JOIN.from == s then [B_JOIN] else []) + ((if JOIN_DONE.from == s then [JOIN_DONE] else []) + [])))) {
      assert Leaving(ts[1..][1..][1..][1..], s) == (if JOIN_DONE.from == s then [JOIN_DONE] else []) + [];
      assert Leaving(ts[1..][1..][1..], s) == (if B_JOIN.from == s then [B_JOIN] else []) + Leaving(ts[1..][1..][1..][1..], s);
      assert Leaving(ts[1..][1..], s) == (if A_JOIN.from == s then [A_JOIN] else []) + Leaving(ts[1..][1..][1..], s);
      assert Leaving(ts[1..], s) == (if RIGHT.from == s then [RIGHT] else []) + Leaving(ts[1..][1..], s);
    }
  }

  ghost function DiamondGraph(): FlowGraph<State> { CheckerGraph(DIAMOND) }

  lemma DiamondTyped()
    ensures WellTyped(DIAMOND)
  {}

  lemma DiamondStates()
    ensures forall s :: s in DIAMOND.states <==> s == "INIT" || s == "A" || s == "B" || s == "JOIN" || s == "DONE"
  {}

  lemma DiamondErrors(t: Transition)
    ensures ErrorEdges(DIAMOND, t) == []
  {}

  lemma DiamondEdges()
    ensures EdgesFrom(DiamondGraph(), "INIT") == [NormalEdge(DIAMOND, LEFT), NormalEdge(DIAMOND, RIGHT)]
    ensures EdgesFrom(DiamondGraph(), "A") == [NormalEdge(DIAMOND, A_JOIN)]
    ensures EdgesFrom(DiamondGraph(), "B") == [NormalEdge(DIAMOND, B_JOIN)]
    ensures EdgesFrom(DiamondGraph(), "JOIN") == [NormalEdge(DIAMOND, JOIN_DONE)]
    ensures EdgesFrom(DiamondGraph(), "DONE") == []
  {
    DiamondLeaving();
    DiamondStates();
    forall t ensures ErrorEdges(DIAMOND, t) == [] { DiamondErrors(t); }
    EdgesOfTwo(DIAMOND, "INIT", LEFT, RIGHT);
    EdgesOfOne(DIAMOND, "A", A_JOIN);
    EdgesOfOne(DIAMOND, "B", B_JOIN);
    EdgesOfOne(DIAMOND, "JOIN", JOIN_DONE);
    CheckedEdgesAt(DIAMOND, "DONE");
  }

  lemma DiamondGraphStates()
    ensures forall s | s in DIAMOND.states :: s in States(DiamondGraph())
    ensures forall s :: s in DiamondGraph() ==> s in DIAMOND.states
  {
    forall s | s in DIAMOND.states ensures s in States(DiamondGraph()) { CheckedEdgesAt(DIAMOND, s); }
  }

  lemma DiamondParts()
    ensures NormalEdge(DIAMOND, LEFT) == Edge("A", {"X"}, [])
    ensures NormalEdge(DIAMOND, RIGHT) == Edge("B", {}, [])
    ensures NormalEdge(DIAMOND, A_JOIN) == Edge("JOIN", {}, [])
    ensures NormalEdge(DIAMOND, B_JOIN) == Edge("JOIN", {}, [])
    ensures NormalEdge(DIAMOND, JOIN_DONE) == Edge("DONE", {}, [Need(ProcessorPart, JOIN_DONE, "X", {})])
  {
    assert KeySet([]) == {} && KeySet(["X"]) == {"X"};
    assert ["X"][1..] == [];
    assert NeedsOf(ProcessorPart, JOIN_DONE, ["X"], {}) == [Need(ProcessorPart, JOIN_DONE, "X", {})];
  }

  /** The diamond's edges, for any graph that has them. */
  ghost predicate IsFork(g: FlowGraph<State>, needs: seq<Need>) {
    && (forall s | s in ["INIT", "A", "B", "JOIN", "DONE"] :: s in States(g))
    && "X" in KeysOf(g)
    && EdgesFrom(g, "INIT") == [Edge("A", {"X"}, []), Edge("B", {}, [])]
    && EdgesFrom(g, "A") == [Edge("JOIN", {}, [])] && EdgesFrom(g, "B") == [Edge("JOIN", {}, [])]
    && EdgesFrom(g, "JOIN") == [Edge("DONE", {}, needs)] && EdgesFrom(g, "DONE") == []
  }

  const NEEDS_X := [Need(ProcessorPart, JOIN_DONE, "X", {})]

  lemma DiamondIsFork()
    ensures WellTyped(DIAMOND) && IsFork(DiamondGraph(), NEEDS_X)
  {
    DiamondTyped();
    DiamondStates();
    DiamondGraphStates();
    DiamondEdges();
    DiamondParts();
    EdgeTargets(DiamondGraph(), "INIT", NormalEdge(DIAMOND, LEFT));
  }

  /** The first arm: it records X all the way to DONE. */
  lemma FirstArm(g: FlowGraph<State>, needs: seq<Need>, st1: Progress<State>) returns (st4: Progress<State>)
    requires IsFork(g, needs) && Push("JOIN", {"X"}, needs, []) == [] && st1 == Progress(map["INIT" := {}], [])
    ensures st4 == Progress(map["INIT" := {}, "A" := {"X"}, "JOIN" := {"X"}, "DONE" := {"X"}], [])
    ensures {"X"} <= KeysOf(g) + {} && Bounded(g, KeysOf(g) + {}, st1.avail)
    ensures Visit(AsWritten, g, KeysOf(g) + {}, "A", {"X"}, st1) == st4
  {
    var keys, x := KeysOf(g) + {}, {"X"};
    var st2 := Progress(st1.avail["A" := x], []);
    var st3 := Progress(st2.avail["JOIN" := x], []);
    st4 := Progress(st3.avail["DONE" := x], []);
    Sink(g, keys, "DONE", x, st3, st4);
    assert x + {} == x;
    Corridor(g, keys, "JOIN", x, Edge("DONE", {}, needs), st2, st3, st4);
    Corridor(g, keys, "A", x, Edge("JOIN", {}, []), st1, st2, st4);
  }

  /** The traversal as written: the second arm arrives at JOIN with a smaller set and is ignored. */
  lemma Fork(g: FlowGraph<State>, needs: seq<Need>)
    requires IsFork(g, needs) && Push("JOIN", {"X"}, needs, []) == []
    ensures var r := Analyse(AsWritten, g, "INIT", {});
      r.errors == [] && "JOIN" in r.avail && "X" in r.avail["JOIN"]
  {
    var keys := KeysOf(g) + {};
    var st1 := Progress(map["INIT" := {}], []);
    var st4 := FirstArm(g, needs, st1);
    var st5 := Progress(st4.avail["B" := {}], []);
    assert Visit(AsWritten, g, keys, "JOIN", {}, st5) == st5;
    Corridor(g, keys, "B", {}, Edge("JOIN", {}, []), st4, st5, st5);
    assert st1.avail["INIT"] + {"X"} == {"X"} && st4.avail["INIT"] + {} == {};
    TwoEdges(g, keys, "INIT", Edge("A", {"X"}, []), Edge("B", {}, []), st1, st4, st5);
    MergeShrinks(AsWritten, States(g), keys, "INIT", {}, map[]);
    assert Merge("INIT", {}, map[]) == st1.avail;
  }

  lemma TwoEdges(g: FlowGraph<State>, keys: set<Key>, s: State, e: Edge<State>, d: Edge<State>, st: Progress<State>, st1: Progress<State>, r: Progress<State>)
    requires s in st.avail && Bounded(g, keys, st.avail) && s in st1.avail && Bounded(g, keys, st1.avail)
    requires EdgesFrom(g, s) == [e, d]
    requires Take(AsWritten, g, keys, s, e, st) == st1 && Take(AsWritten, g, keys, s, d, st1) == r
    ensures Follow(AsWritten, g, keys, s, EdgesFrom(g, s), st) == r
  {
    var es := [e, d];
    assert es[1..] == [d] && [d][1..] == [];
    assert Follow(AsWritten, g, keys, s, [d], st1) == Follow(AsWritten, g, keys, s, [d][1..], r);
  }

  lemma Sink(g: FlowGraph<State>, keys: set<Key>, s: State, have: set<Key>, st: Progress<State>, st1: Progress<State>)
    requires s in States(g) && have <= keys && Bounded(g, keys, st.avail)
    requires EdgesFrom(g, s) == [] && s !in st.avail && st1 == Progress(st.avail[s := have], st.errors)
    ensures Visit(AsWritten, g, keys, s, have, st) == st1
  {}

  /** A first visit to a state with one edge whose needs are met. */
  lemma Corridor(g: FlowGraph<State>, keys: set<Key>, s: State, have: set<Key>, e: Edge<State>, st: Progress<State>, st1: Progress<State>, r: Progress<State>)
    requires s in States(g) && have <= keys && Bounded(g, keys, st.avail) && Bounded(g, keys, st1.avail)
    requires EdgesFrom(g, s) == [e] && s !in st.avail && st1 == Progress(st.avail[s := have], st.errors)
    requires Push(s, have, e.needs, st.errors) == st.errors
    requires e.target in States(g) && have + e.gain <= keys && Visit(AsWritten, g, keys, e.target, have + e.gain, st1) == r
    ensures Visit(AsWritten, g, keys, s, have, st) == r
  {
    var es := [e];
    assert es[1..] == [];
    assert Merge(s, have, st.avail) == st1.avail;
    MergeShrinks(AsWritten, States(g), keys, s, have, st.avail);
    assert Take(AsWritten, g, keys, s, e, st1) == r;
    assert Follow(AsWritten, g, keys, s, es, st1) == Follow(AsWritten, g, keys, s, es[1..], r);
  }

  // ---------- the diamond passes build() ----------

  lemma DiamondSteps()
    ensures Succ(StepGraph(DIAMOND), "INIT") == {"A", "B"}
    ensures Succ(StepGraph(DIAMOND), "A") == {"JOIN"} && Succ(StepGraph(DIAMOND), "B") == {"JOIN"}
    ensures Succ(StepGraph(DIAMOND), "JOIN") == {"DONE"}
  {
    DiamondLeaving();
    assert [LEFT, RIGHT][1..] == [RIGHT];
    forall t: Transition ensures AllTargets([t]) == Targets(t) { assert [t][1..] == []; }
    assert AllTargets([LEFT, RIGHT]) == Targets(LEFT) + AllTargets([RIGHT]);
  }

  lemma DiamondReach(s: State)
    requires s in DIAMOND.states
    ensures Reach(StepGraph(DIAMOND), "INIT", s)
  {
    DiamondSteps();
    DiamondStates();
    var g := StepGraph(DIAMOND);
    ReachRefl(g, "INIT");
    ReachStep(g, "INIT", "INIT", "A");
    ReachStep(g, "INIT", "INIT", "B");
    ReachStep(g, "INIT", "A", "JOIN");
    ReachStep(g, "INIT", "JOIN", "DONE");
  }

  lemma DiamondReaches()
    ensures forall s | s in DIAMOND.states :: Reach(StepGraph(DIAMOND), "INIT", s)
    ensures ReachesTerminal(DIAMOND, "INIT")
  {
    forall s | s in DIAMOND.states ensures Reach(StepGraph(DIAMOND), "INIT", s) { DiamondReach(s); }
    DiamondStates();
    assert DIAMOND.Terminal("DONE") && "DONE" in DIAMOND.states;
  }

  function Rank(s: State): nat { if s == "INIT" then 0 else if s == "JOIN" then 2 else if s == "DONE" then 3 else 1 }

  lemma {:induction false} RankGrows(g: Graph, a: State, w: Walk, b: State)
    requires forall s, x | x in Succ(g, s) :: Rank(s) < Rank(x)
    requires Walks(g, a, w, b)
    ensures Rank(a) <= Rank(b) && (w.Step? ==> Rank(a) < Rank(b))
  {
    match w
    case End =>
    case Step(q, s) => RankGrows(g, a, q, s);
  }

  lemma DiamondAcyclic()
    ensures !Cyclic(ChainGraph(DIAMOND))
  {
    var g := ChainGraph(DIAMOND);
    forall s, x | x in Succ(g, s) ensures Rank(s) < Rank(x) {
      ChainTarget(DIAMOND.transitions, s, x);
    }
    if a :| OnCycle(g, a) {
      var w: Walk :| w.Step? && Walks(g, a, w, a);
      RankGrows(g, a, w, a);
    }
  }

  lemma DiamondExternals(s: State)
    ensures DIAMOND.ExternalsFrom(s) == []
  {
    if DIAMOND.ExternalsFrom(s) != [] {
      var t := DIAMOND.ExternalsFrom(s)[0];
      OfKindIn(DIAMOND.TransitionsFrom(s), External, t);
      LeavingIn(DIAMOND.transitions, s, t);
      assert false;
    }
  }

  /** `build()` accepts the diamond, although one of its two paths never provides what the last step requires;
    * the join of the comments rejects it. */
  lemma DiamondIsAccepted()
    ensures WellTyped(DIAMOND) && Built(DIAMOND)
    ensures BuildAccepts(DIAMOND, Options(false, false))
    ensures Analyse(Intersection, CheckerGraph(DIAMOND), "INIT", Initially(DIAMOND)).errors != []
  {
    DiamondIsFork();
    DiamondBuilt();
    DiamondReaches();
    DiamondAcyclic();
    DiamondStructure();
    DiamondTransitions();
    DiamondNests();
    DiamondDataFlow();
  }

  lemma DiamondDataFlow()
    requires WellTyped(DIAMOND)
    ensures DataFlowAccepted(DIAMOND)
    ensures DIAMOND.initial.value in States(CheckerGraph(DIAMOND))
    ensures Analyse(Intersection, CheckerGraph(DIAMOND), "INIT", Initially(DIAMOND)).errors != []
  {
    DiamondIsFork();
    assert Initially(DIAMOND) == {};
    NeedsXMet();
    Fork(DiamondGraph(), NEEDS_X);
    ForkIsRejected(DiamondGraph());
  }

  lemma DiamondTransitions()
    ensures BranchesComplete(DIAMOND) && TerminalsAreFinal(DIAMOND) && ExitsComplete(DIAMOND)
  {}

  lemma DiamondNests()
    ensures DepthAccepted(DIAMOND, 0) && NamesAccepted(DIAMOND, {})
  {}

  lemma DiamondStructure()
    ensures RoutingAccepted(DIAMOND) && NoAutoExternalConflict(DIAMOND)
  {
    forall s ensures DIAMOND.ExternalsFrom(s) == [] { DiamondExternals(s); }
  }

  lemma NeedsXMet()
    ensures Push("JOIN", {"X"}, NEEDS_X, []) == []
  {
    assert NEEDS_X[1..] == [];
  }

  /** The transitions `endBranch` adds for two arms. */
  lemma TwoArms(from: State, branch: Brancher, a: Arm, b: Arm)
    requires a.choice != b.choice
    ensures var targets := map[a.choice := a.target, b.choice := b.target];
      Emit(BranchDecl(from, branch, [a, b])) ==
        [Transition(from, a.target, Branch, a.processor, None, Some(branch), targets, Some(a.choice), None, None),
         Transition(from, b.target, Branch, b.processor, None, Some(branch), targets, Some(b.choice), None, None)]
  {
    var arms := [a, b];
    assert arms[..1] == [a] && [a][..0] == [];
    assert ArmTargets([a]) == map[a.choice := a.target];
    assert ArmTargets(arms) == map[a.choice := a.target, b.choice := b.target];
    assert ArmLabels([a]) == [a.choice];
    assert ArmLabels(arms) == [a.choice, b.choice];
    ArmsProcessors(a, b);
    assert [a.choice, b.choice][1..] == [b.choice] && [b.choice][1..] == [];
    var targets, processors := ArmTargets(arms), ArmProcessors(arms);
    assert BranchTransitions(from, branch, targets, processors, [b.choice])
      == [Transition(from, b.target, Branch, b.processor, None, Some(branch), targets, Some(b.choice), None, None)] + [];
  }

  lemma ArmsProcessors(a: Arm, b: Arm)
    requires a.choice != b.choice
    ensures Lookup(ArmProcessors([a, b]), a.choice) == a.processor && Lookup(ArmProcessors([a, b]), b.choice) == b.processor
  {
    assert [a, b][..1] == [a] && [a][..0] == [];
    assert ArmProcessors([a]) == if a.processor.Some? then map[a.choice := a.processor.value] else map[];
  }

  lemma EmitFour(d0: Declaration, d1: Declaration, d2: Declaration, d3: Declaration)
    ensures EmitAll([d0, d1, d2, d3]) == Emit(d0) + (Emit(d1) + (Emit(d2) + Emit(d3)))
  {
    assert [d0, d1, d2, d3][1..] == [d1, d2, d3] && [d1, d2, d3][1..] == [d2, d3] && [d2, d3][1..] == [d3] && [d3][1..] == [];
    assert EmitAll([d3]) == Emit(d3) + [] == Emit(d3);
    assert EmitAll([d2, d3]) == Emit(d2) + EmitAll([d3]);
    assert EmitAll([d1, d2, d3]) == Emit(d1) + EmitAll([d2, d3]);
  }

  lemma DiamondBuilt()
    ensures Built(DIAMOND)
  {
    var left, right := Arm("left", "A", Some(MAKE_X)), Arm("right", "B", None);
    var d0, d1, d2, d3 := BranchDecl("INIT", PICK, [left, right]), AutoDecl("A", "JOIN", PASS), AutoDecl("B", "JOIN", PASS), AutoDecl("JOIN", "DONE", USE_X);
    TwoArms("INIT", PICK, left, right);
    assert Emit(d0) == [LEFT, RIGHT];
    EmitFour(d0, d1, d2, d3);
    DeclarationsBuild(DIAMOND, [d0, d1, d2, d3]);
  }

  lemma UnprovidedNeedRejects(g: FlowGraph<State>, init: State, given: set<Key>, p: Path<State>, s: State, e: Edge<State>, n: Need)
    requires init in States(g) && Leads(g, init, p, s) && e in EdgesFrom(g, s) && n in e.needs
    requires n.key !in given + Gathered(p) + n.given
    ensures Analyse(Intersection, g, init, given).errors != []
  {
    IntersectionAcceptsIffPathsProvide(g, init, given);
  }

  lemma ForkIsRejected(g: FlowGraph<State>)
    requires IsFork(g, NEEDS_X)
    ensures Analyse(Intersection, g, "INIT", {}).errors != []
  {
    var p := Then(Then(Here, "INIT", Edge("B", {}, [])), "B", Edge("JOIN", {}, []));
    assert Leads(g, "INIT", p, "JOIN");
    assert Gathered(p) == {};
    UnprovidedNeedRejects(g, "INIT", {}, p, "JOIN", Edge("DONE", {}, NEEDS_X), NEEDS_X[0]);
  }

  // ---------- and its run fails ----------

  /** One turn of the chain at a state whose only transition is automatic. */
  lemma AutoTurn(choice: Label, s: Sys, t: Transition)
    requires s.flow.def.TransitionsFrom(s.flow.state) == [t] && !s.flow.def.strictMode
    requires t.kind == Auto && t.processor.Some?
    ensures var turn := ChainTurn(CONFIG, Obliging(choice), s);
      && turn.Next? && turn.sys.flow.state == t.to && turn.sys.flow.def == s.flow.def
      && turn.sys.flow.ctx.Keys == s.flow.ctx.Keys + KeySet(t.processor.value.produces)
      && turn.sys.calls == s.calls + [Call(KeySet(t.processor.value.requires_), s.flow.ctx.Keys)]
  {
    assert [t][1..] == [];
    assert [t][0] == t;
    assert FirstSubFlow([t][1..]).None?;
    assert FirstSubFlow([t]).None?;
    assert FirstChained([t]) == Some(t);
    var env := Obliging(choice);
    var p := RunProcessor(env, s, t.processor, false);
    assert p.Moved? && p.sys.flow.ctx.Keys == s.flow.ctx.Keys + KeySet(t.processor.value.produces);
    assert ChainPass(CONFIG, env, s) == AutoPass(CONFIG, env, s, t);
  }

  lemma RightTurn(s: Sys)
    requires s.flow.def == DIAMOND && s.flow.state == "INIT" && s.flow.ctx.Keys == {}
    ensures var turn := ChainTurn(CONFIG, Obliging("right"), s);
      turn.Next? && turn.sys.flow.state == "B" && turn.sys.flow.def == DIAMOND && turn.sys.flow.ctx.Keys == {}
  {
    DiamondLeaving();
    var ts := [LEFT, RIGHT];
    assert ts[1..] == [RIGHT] && [RIGHT][1..] == [];
    assert FirstSubFlow([RIGHT]).None? && FirstSubFlow(ts).None? && FirstChained(ts) == Some(LEFT);
    assert FirstLabelled([RIGHT], "right") == Some(RIGHT);
    assert FirstLabelled(ts, "right") == Some(RIGHT);
    assert Specific(ts, LEFT, "right", "B") == RIGHT;
    var env := Obliging("right");
    var s1 := Called(s, []);
    assert BranchPass(env, s, ts, LEFT) == Moved(Advance(env, s1, "B", PICK.name + ":" + "right"));
  }

  const DIAMOND_RUN := [StartFlow("f", DIAMOND, map[])]

  lemma ObligingIsHonest(cfg: Config, choice: Label, def: FlowDef)
    ensures Honest(cfg, Obliging(choice), def)
  {
    var env := Obliging(choice);
    forall p: Processor ensures Puts(env, p) {}
    forall g: Guard ensures Grants(env, g) {}
  }

  lemma DiamondCallsUseX()
    ensures Call({"X"}, {}) in Run(CONFIG, Obliging("right"), DIAMOND_RUN).calls
  {
    var s0 := Sys("f", Flow(DIAMOND, "INIT", map[], 0, None, 0, 300000, None), 1, [], []);
    DiamondChainFails(s0);
    RunStart(CONFIG, Obliging("right"), "f", DIAMOND, map[]);
    assert Start(CONFIG, Obliging("right"), "f", DIAMOND, map[], 0, [], []) == Chain(CONFIG, Obliging("right"), s0, 0);
  }

  /** Honest components, a dutiful caller, an accepted definition, and a processor that misses its key. */
  lemma DiamondRunFails(brings: Supply)
    ensures Honest(CONFIG, Obliging("right"), DIAMOND)
    ensures OwedRun(CONFIG, Obliging("right"), DIAMOND_RUN, brings, {DIAMOND})
    ensures Call({"X"}, {}) in Run(CONFIG, Obliging("right"), DIAMOND_RUN).calls
    ensures !Supplied(Run(CONFIG, Obliging("right"), DIAMOND_RUN).calls)
  {
    ObligingIsHonest(CONFIG, "right", DIAMOND);
    OwedStart(CONFIG, Obliging("right"), "f", DIAMOND, map[], brings);
    DiamondCallsUseX();
  }

  lemma DiamondChainFails(s0: Sys)
    requires s0.flow.def == DIAMOND && s0.flow.state == "INIT" && s0.flow.ctx.Keys == {}
    ensures Call({"X"}, {}) in Chain(CONFIG, Obliging("right"), s0, 0).sys.calls
  {
    var env := Obliging("right");
    RightTurn(s0);
    var s1 := ChainTurn(CONFIG, env, s0).sys;
    DiamondLeaving();
    AutoTurn("right", s1, B_JOIN);
    var s2 := ChainTurn(CONFIG, env, s1).sys;
    AutoTurn("right", s2, JOIN_DONE);
    var s3 := ChainTurn(CONFIG, env, s2).sys;
    assert KeySet(["X"]) == {"X"} && KeySet([]) == {};
    assert Call({"X"}, {}) in s3.calls;
    assert Chain(CONFIG, env, s3, 3).sys.calls == s3.calls;
    assert Chain(CONFIG, env, s2, 2) == Chain(CONFIG, env, s3, 3);
    assert Chain(CONFIG, env, s1, 1) == Chain(CONFIG, env, s2, 2);
    assert Chain(CONFIG, env, s0, 0) == Chain(CONFIG, env, s1, 1);
  }

  lemma DiamondIsFlat()
    ensures SubFlowFree(DIAMOND)
  {}

  /** The check on the engine's own edges does not accept the diamond. */
  lemma EngineCheckRejectsDiamond(brings: Supply)
    ensures AllBuilt(DIAMOND) && !EngineCheckAccepts(DIAMOND, brings)
  {
    DiamondTyped();
    DiamondBuilt();
    DiamondIsFlat();
    DiamondRunFails(brings);
    FlatIsBuilt(DIAMOND);
    FlatIsTrusted(CONFIG, Obliging("right"), DIAMOND);
    UnsafeRunMeansRejection(DIAMOND, brings, CONFIG, Obliging("right"), DIAMOND_RUN);
  }
}
