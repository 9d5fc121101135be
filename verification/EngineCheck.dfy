/** A data-flow check on the engine's own moves, sub-flows included: what it accepts is safe in every run. */
module EngineCheck {
  import opened Definition
  import opened DataFlow
  import opened DataFlowProofs
  import opened RequiresProduces
  import opened Builder
  import opened EngineModel
  import opened EngineFacts
  import opened EngineMoves
  import opened RunSafety

  /** A definition and all its sub-flows come from the builder. */
  ghost predicate AllBuilt(root: FlowDef) {
    forall above :: DefAt(root, above).Some? ==> WellTyped(DefAt(root, above).value) && Built(DefAt(root, above).value)
  }

  // ---------- every edge leads to a position ----------

  ghost predicate Into(d: FlowDef, es: seq<Edge<Pos>>) { forall e | e in es :: Lies(d, e.target.path) }

  /** `above` leads down to a running definition, which is then `def`. */
  ghost predicate Below(d: FlowDef, above: seq<State>, def: FlowDef) {
    DefAt(d, above) == Some(def) && (above != [] ==> Lies(d, above))
  }

  lemma Lands(d: FlowDef, above: seq<State>, def: FlowDef, z: State)
    requires Below(d, above, def) && z in def.states
    ensures Lies(d, above + [z])
  {
    LiesMeans(d, above, z);
  }

  lemma LinkTyped(def: FlowDef, s: State)
    requires WellTyped(def) && Link(def, s).Some?
    ensures forall x | x in Link(def, s).value.exitMappings :: Link(def, s).value.exitMappings[x] in def.states
  {
    var t := FirstSubFlow(def.TransitionsFrom(s)).value;
    FirstSubFlowIn(def.TransitionsFrom(s));
    LeavingIn(def.transitions, s, t);
  }

  lemma {:induction false} LeaveInto(d: FlowDef, above: seq<State>, exit: string, dropped: bool, gain: set<Key>)
    requires AllBuilt(d) && (above != [] ==> Lies(d, above))
    ensures Into(d, LeaveEdges(d, above, exit, dropped, gain))
    decreases |above|
  {
    if above != [] {
      var n := |above| - 1;
      var up, s := above[..n], above[n];
      assert above == up + [s];
      LiesMeans(d, up, s);
      var parent := DefAt(d, up).value;
      assert WellTyped(parent);
      if Link(parent, s).Some? {
        var link := Link(parent, s).value;
        LinkTyped(parent, s);
        if exit in link.exitMappings {
          Lands(d, up, parent, link.exitMappings[exit]);
        } else {
          LeaveInto(d, up, "TERMINAL_ERROR", true, gain);
          if s in parent.errorTransitions { Lands(d, up, parent, parent.errorTransitions[s]); }
        }
      }
    }
  }

  lemma RoutedInto(d: FlowDef, above: seq<State>, def: FlowDef, z: State, gain: set<Key>)
    requires AllBuilt(d) && Below(d, above, def) && z in def.states
    ensures Into(d, RoutedEdges(d, above, z, gain))
  {
    Lands(d, above, def, z);
    LeaveInto(d, above, z, true, {});
  }

  lemma {:induction false} RoutesInto(d: FlowDef, above: seq<State>, def: FlowDef, routes: seq<ErrorRoute>, seen: set<string>, gain: set<Key>)
    requires AllBuilt(d) && Below(d, above, def) && forall r | r in routes :: r.target in def.states
    ensures Into(d, RouteEdges(d, above, routes, seen, gain))
    decreases |routes|
  {
    if routes != [] {
      RoutesInto(d, above, def, routes[1..], seen + {routes[0].errorClass}, gain);
      RoutedInto(d, above, def, routes[0].target, gain);
    }
  }

  lemma FailuresInto(d: FlowDef, above: seq<State>, def: FlowDef, s: State, caused: bool, gain: set<Key>)
    requires AllBuilt(d) && Below(d, above, def)
    ensures Into(d, FailureEdges(d, above, def, s, caused, gain))
  {
    assert WellTyped(def);
    if s in def.exceptionRoutes { RoutesInto(d, above, def, def.exceptionRoutes[s], {}, gain); }
    if s in def.errorTransitions { RoutedInto(d, above, def, def.errorTransitions[s], gain); }
    LeaveInto(d, above, "TERMINAL_ERROR", true, {});
  }

  /** The labels of the branch taken lead to states of the definition. */
  lemma LabelsTyped(def: FlowDef, s: State, t: Transition)
    requires WellTyped(def) && Built(def) && FirstChained(def.TransitionsFrom(s)) == Some(t) && t.kind == Branch
    ensures forall l | l in t.branchTargets :: t.branchTargets[l] in def.states
  {
    var ts := def.TransitionsFrom(s);
    assert LabelsResolve(ts);
    forall l | l in t.branchTargets ensures t.branchTargets[l] in def.states {
      FirstLabelledIn(ts, l, s);
      LeavingIn(def.transitions, s, FirstLabelled(ts, l).value);
    }
  }

  lemma ArmsInto(d: FlowDef, above: seq<State>, def: FlowDef, s: State, t: Transition)
    requires Below(d, above, def) && forall l | l in t.branchTargets :: t.branchTargets[l] in def.states
    ensures Into(d, ArmEdges(above, def, s, t, t.branchTargets.Keys))
  {
    forall e | e in ArmEdges(above, def, s, t, t.branchTargets.Keys) ensures Lies(d, e.target.path) {
      ArmIsEdge(above, def, s, t, t.branchTargets.Keys, e);
      var l :| l in t.branchTargets.Keys && e == ArmEdge(above, def, s, t, l);
      Lands(d, above, def, t.branchTargets[l]);
    }
  }

  lemma SubFlowInto(d: FlowDef, above: seq<State>, def: FlowDef, s: State, link: SubFlowLink)
    requires AllBuilt(d) && Below(d, above, def) && s in def.states && Link(def, s) == Some(link)
    ensures link.definition.initial.Some? ==> Lies(d, above + [s] + [link.definition.initial.value])
  {
    if link.definition.initial.Some? {
      DefBelow(d, above, s);
      Lands(d, above, def, s);
      assert WellTyped(link.definition);
      Lands(d, above + [s], link.definition, link.definition.initial.value);
    }
  }

  lemma ChainInto(d: FlowDef, above: seq<State>, def: FlowDef, s: State)
    requires AllBuilt(d) && Below(d, above, def) && s in def.states
    ensures Into(d, ChainEdges(d, above, def, s))
  {
    assert WellTyped(def) && Built(def);
    LeaveInto(d, above, s, true, {});
    match Link(def, s)
    case Some(link) => SubFlowInto(d, above, def, s, link);
    case None =>
      var ts := def.TransitionsFrom(s);
      FirstChainedIn(ts);
      match FirstChained(ts)
      case None =>
      case Some(t) =>
        LeavingIn(def.transitions, s, t);
        FailuresInto(d, above, def, s, true, {});
        if t.kind == Auto {
          Lands(d, above, def, t.to);
        } else {
          Lands(d, above, def, s);
          LabelsTyped(def, s, t);
          ArmsInto(d, above, def, s, t);
        }
  }

  lemma RunningInto(d: FlowDef, above: seq<State>, s: State)
    requires AllBuilt(d) && Lies(d, above + [s])
    ensures Into(d, RunningEdges(d, above, s))
  {
    LiesMeans(d, above, s);
    ChainInto(d, above, DefAt(d, above).value, s);
  }

  lemma ResumeInto(d: FlowDef, brings: Supply, s: State, t: Transition)
    requires AllBuilt(d) && t in d.ExternalsFrom(s)
    ensures Into(d, ResumeEdges(d, brings, s, t))
  {
    assert DefAt(d, []) == Some(d);
    OfKindIn(d.TransitionsFrom(s), External, t);
    LeavingIn(d.transitions, s, t);
    assert Below(d, [], d) && [] + [t.to] == [t.to];
    Lands(d, [], d, t.to);
    FailuresInto(d, [], d, s, t.processor.Some?, brings(t));
  }

  lemma ChildLies(d: FlowDef, s: State, c: State, t: Transition)
    requires AllBuilt(d) && s in d.states && Link(d, s).Some?
    requires t in Link(d, s).value.definition.ExternalsFrom(c)
    ensures Lies(d, [s]) && Lies(d, [s] + [t.to])
  {
    var child := Link(d, s).value.definition;
    assert DefAt(d, []) == Some(d) && [] + [s] == [s];
    DefBelow(d, [], s);
    Lands(d, [], d, s);
    assert WellTyped(child);
    OfKindIn(child.TransitionsFrom(c), External, t);
    LeavingIn(child.transitions, c, t);
    Lands(d, [s], child, t.to);
  }

  lemma ResumeChildInto(d: FlowDef, brings: Supply, s: State, c: State, t: Transition)
    requires AllBuilt(d) && s in d.states && Link(d, s).Some?
    requires t in Link(d, s).value.definition.ExternalsFrom(c)
    ensures Into(d, ResumeChildEdges(d, brings, s, t))
  {
    ChildLies(d, s, c, t);
    LeaveInto(d, [s], "ERROR", false, brings(t));
  }

  lemma RestingInto(d: FlowDef, brings: Supply, path: seq<State>)
    requires AllBuilt(d) && Lies(d, path)
    ensures Into(d, RestingEdges(d, brings, path))
  {
    forall e | e in RestingEdges(d, brings, path) ensures Lies(d, e.target.path) {
      if |path| == 1 {
        var ts := d.ExternalsFrom(path[0]);
        ResumeIsEdge(d, brings, path[0], false, ts, e);
        var t :| t in ts && e in ResumeEdges(d, brings, path[0], t);
        ResumeInto(d, brings, path[0], t);
      } else {
        var ts := Link(d, path[0]).value.definition.ExternalsFrom(path[1]);
        ResumeIsEdge(d, brings, path[0], true, ts, e);
        var t :| t in ts && e in ResumeChildEdges(d, brings, path[0], t);
        ResumeChildInto(d, brings, path[0], path[1], t);
      }
    }
  }

  lemma IsPosition(d: FlowDef, q: Pos)
    ensures q in Positions(d) <==> Lies(d, q.path)
  {
    PathsLie(d, q.path);
  }

  lemma EdgesInto(d: FlowDef, brings: Supply, q: Pos)
    requires AllBuilt(d) && Lies(d, q.path)
    ensures Into(d, EdgesAt(d, brings, q))
  {
    var n := |q.path| - 1;
    assert q.path == q.path[..n] + [q.path[n]];
    match q
    case Running(path) => RunningInto(d, path[..n], path[n]);
    case Resting(path) => RestingInto(d, brings, path);
  }

  lemma EdgesStay(d: FlowDef, brings: Supply, q: Pos, e: Edge<Pos>)
    requires AllBuilt(d) && q in Positions(d) && e in EdgesAt(d, brings, q)
    ensures e.target in Positions(d)
  {
    IsPosition(d, q);
    EdgesInto(d, brings, q);
    IsPosition(d, e.target);
  }

  lemma {:induction false} PathsStay(d: FlowDef, brings: Supply, init: Pos, p: Path<Pos>, q: Pos)
    requires AllBuilt(d) && init in Positions(d) && Leads(EngineGraph(d, brings), init, p, q)
    ensures q in Positions(d)
  {
    match p
    case Here =>
    case Then(prefix, x, e) =>
      PathsStay(d, brings, init, prefix, x);
      EdgesStay(d, brings, x, e);
  }

  // ---------- definitions without sub-flows ----------

  lemma FlatLinks(def: FlowDef, s: State)
    requires SubFlowFree(def)
    ensures Link(def, s).None?
  {
    NoSubFlowHere(def, s);
  }

  lemma FlatIsBuilt(def: FlowDef)
    requires WellTyped(def) && Built(def) && SubFlowFree(def)
    ensures AllBuilt(def)
  {
    forall above | DefAt(def, above).Some? ensures DefAt(def, above) == Some(def) {
      if above != [] { FlatLinks(def, above[0]); }
    }
  }

  lemma FlatPath(d: FlowDef, pos: Pos)
    requires SubFlowFree(d) && pos in Positions(d)
    ensures |pos.path| == 1 && pos.path == [pos.path[0]] && pos.path[0] in d.states
  {
    IsPosition(d, pos);
    FlatLinks(d, pos.path[0]);
  }

  lemma RoutedAtRoot(d: FlowDef, z: State, gain: set<Key>)
    ensures RoutedEdges(d, [], z, gain) == [To(Resting([z]), gain)]
  {
    assert [] + [z] == [z];
  }

  // ---------- the check ----------

  /** Where a flow starts. */
  function Initial(d: FlowDef): Pos
    requires d.initial.Some?
  {
    Running([d.initial.value])
  }

  lemma InitialIsPosition(d: FlowDef, brings: Supply)
    requires AllBuilt(d) && d.initial.Some?
    ensures Initial(d) in Positions(d) && Initial(d) in States(EngineGraph(d, brings))
  {
    assert DefAt(d, []) == Some(d);
    IsPosition(d, Initial(d));
  }

  ghost predicate EngineCheckAccepts(d: FlowDef, brings: Supply)
    requires AllBuilt(d) && d.initial.Some?
  {
    InitialIsPosition(d, brings);
    Analyse(Intersection, EngineGraph(d, brings), Initial(d), Initially(d)).errors == []
  }

  /** A sound map is one that is consistent on each edge and meets every need. */
  lemma SoundIsConsistent(d: FlowDef, brings: Supply, m: Cert)
    requires forall q | q in m :: q in Positions(d)
    ensures Guaranteed(Plan(d, brings, m))
      <==> EdgeConsistent(EngineGraph(d, brings), m) && NeedsMet(EngineGraph(d, brings), m)
  {
    var g := EngineGraph(d, brings);
    forall q | q in m ensures EdgesFrom(g, q) == EdgesAt(d, brings, q) {}
    if EdgeConsistent(g, m) && NeedsMet(g, m) {
      forall q, e | q in m && e in EdgesAt(d, brings, q) ensures Survives(m, m[q], e) { assert e in EdgesFrom(g, q); }
    }
    if Guaranteed(Plan(d, brings, m)) {
      forall q, e | q in m && e in EdgesFrom(g, q) ensures Survives(m, m[q], e) {
        assert AllSurvive(m, m[q], EdgesAt(d, brings, q));
      }
    }
  }

  /** The map the check computes is a sound plan for the engine. */
  lemma AcceptedIsSound(d: FlowDef, brings: Supply)
    requires AllBuilt(d) && d.initial.Some? && EngineCheckAccepts(d, brings)
    ensures exists m: Cert :: Guaranteed(Plan(d, brings, m)) && Fits(m, Initial(d), Initially(d))
  {
    var g := EngineGraph(d, brings);
    InitialIsPosition(d, brings);
    var m := Analyse(Intersection, g, Initial(d), Initially(d)).avail;
    AnalyseFacts(Intersection, g, Initial(d), Initially(d));
    AcceptsIffNeedsMet(Intersection, g, Initial(d), Initially(d));
    IntersectionIsExact(g, Initial(d), Initially(d));
    ExactIffEdgeConsistent(Intersection, g, Initial(d), Initially(d));
    forall q | q in m ensures q in Positions(d) {
      RecordsReachedStates(Intersection, g, Initial(d), Initially(d), q);
      var p :| Leads(g, Initial(d), p, q);
      PathsStay(d, brings, Initial(d), p, q);
    }
    SoundIsConsistent(d, brings, m);
    assert Guaranteed(Plan(d, brings, m)) && Fits(m, Initial(d), Initially(d));
  }

  /** A map restricted to the positions of a definition. */
  function Within(m: Cert, positions: set<Pos>): Cert { map q | q in m && q in positions :: m[q] }

  lemma RestrictedIsSound(d: FlowDef, brings: Supply, m: Cert)
    requires AllBuilt(d) && Guaranteed(Plan(d, brings, m))
    ensures Guaranteed(Plan(d, brings, Within(m, Positions(d))))
  {
    var m1 := Within(m, Positions(d));
    forall q, e | q in m1 && e in EdgesAt(d, brings, q) ensures Survives(m1, m1[q], e) {
      assert AllSurvive(m, m[q], EdgesAt(d, brings, q));
      assert Survives(m, m[q], e);
      EdgesStay(d, brings, q, e);
    }
  }

  /** The check accepts exactly when some map survives every move of the engine. */
  lemma EngineCheckIsExact(d: FlowDef, brings: Supply)
    requires AllBuilt(d) && d.initial.Some?
    ensures EngineCheckAccepts(d, brings)
      <==> exists m: Cert :: Guaranteed(Plan(d, brings, m)) && Fits(m, Initial(d), Initially(d))
  {
    if EngineCheckAccepts(d, brings) { AcceptedIsSound(d, brings); }
    if m: Cert :| Guaranteed(Plan(d, brings, m)) && Fits(m, Initial(d), Initially(d)) {
      var m1 := Within(m, Positions(d));
      RestrictedIsSound(d, brings, m);
      SoundIsConsistent(d, brings, m1);
      InitialIsPosition(d, brings);
      assert Initial(d) in m1 && m1[Initial(d)] <= Initially(d);
      IntersectionIsComplete(EngineGraph(d, brings), Initial(d), Initially(d));
    }
  }

  // ---------- runs ----------

  /** What callers owe: the initial data at the start of a definition in use, and with each resume the keys that go with
    * the transition it selects. */
  ghost predicate Owed(w: World, ev: Event, brings: Supply, defs: set<FlowDef>) {
    match ev
    case StartFlow(id, def, data) => def in defs && Initially(def) <= data.Keys
    case ResumeFlow(id, data) => Loadable(w, id) ==> Brought(brings, w.flows[id], data)
  }

  ghost predicate OwedRun(cfg: Config, env: Env, evs: seq<Event>, brings: Supply, defs: set<FlowDef>) {
    forall i | 0 <= i < |evs| :: Owed(Run(cfg, env, evs[..i]), evs[i], brings, defs)
  }

  lemma OwedSnoc(cfg: Config, env: Env, evs: seq<Event>, ev: Event, brings: Supply, defs: set<FlowDef>)
    requires OwedRun(cfg, env, evs, brings, defs) && Owed(Run(cfg, env, evs), ev, brings, defs)
    ensures OwedRun(cfg, env, evs + [ev], brings, defs)
  {
    var more := evs + [ev];
    forall i | 0 <= i < |more| ensures Owed(Run(cfg, env, more[..i]), more[i], brings, defs) {
      if i < |evs| {
        assert more[..i] == evs[..i] && more[i] == evs[i];
      } else {
        assert more[..i] == evs;
      }
    }
  }

  lemma OwedStart(cfg: Config, env: Env, id: FlowId, def: FlowDef, data: Ctx, brings: Supply)
    requires Initially(def) <= data.Keys
    ensures OwedRun(cfg, env, [StartFlow(id, def, data)], brings, {def})
  {
    OwedSnoc(cfg, env, [], StartFlow(id, def, data), brings, {def});
    assert [] + [StartFlow(id, def, data)] == [StartFlow(id, def, data)];
  }

  ghost predicate CheckedDefinition(d: FlowDef, brings: Supply) {
    AllBuilt(d) && (d.initial.Some? ==> EngineCheckAccepts(d, brings))
  }

  lemma SoundPlan(d: FlowDef, brings: Supply) returns (m: Cert)
    requires CheckedDefinition(d, brings)
    ensures Guaranteed(Plan(d, brings, m)) && (d.initial.Some? ==> Fits(m, Initial(d), Initially(d)))
  {
    m := map[];
    if d.initial.Some? {
      AcceptedIsSound(d, brings);
      m :| Guaranteed(Plan(d, brings, m)) && Fits(m, Initial(d), Initially(d));
    }
  }

  lemma {:induction false} SoundPlans(defs: set<FlowDef>, brings: Supply) returns (certs: Certs)
    requires forall d | d in defs :: CheckedDefinition(d, brings)
    ensures certs.Keys == defs && forall d | d in defs :: Guaranteed(Plan(d, brings, certs[d]))
    ensures forall d | d in defs :: d.initial.Some? ==> Fits(certs[d], Initial(d), Initially(d))
    decreases defs
  {
    certs := map[];
    if defs != {} {
      var d :| d in defs;
      var m := SoundPlan(d, brings);
      var rest := SoundPlans(defs - {d}, brings);
      certs := rest[d := m];
    }
  }

  /** Whatever the check accepts runs safely, sub-flows included: in every run of flows of checked definitions, each
    * processor, guard and branch finds the keys it requires. */
  lemma EngineCheckedRunsAreSafe(cfg: Config, env: Env, evs: seq<Event>, brings: Supply, defs: set<FlowDef>)
    requires forall d | d in defs :: CheckedDefinition(d, brings) && Trusted(cfg, env, d)
    requires OwedRun(cfg, env, evs, brings, defs)
    ensures Supplied(Run(cfg, env, evs).calls)
  {
    var certs := SoundPlans(defs, brings);
    forall i | 0 <= i < |evs| ensures Dutiful(Run(cfg, env, evs[..i]), evs[i], brings, certs) {
      assert Owed(Run(cfg, env, evs[..i]), evs[i], brings, defs);
    }
    RunsAreSafe(cfg, env, evs, brings, certs);
  }

  lemma UnsafeRunMeansRejection(def: FlowDef, brings: Supply, cfg: Config, env: Env, evs: seq<Event>)
    requires AllBuilt(def) && def.initial.Some? && Trusted(cfg, env, def)
    requires OwedRun(cfg, env, evs, brings, {def}) && !Supplied(Run(cfg, env, evs).calls)
    ensures !EngineCheckAccepts(def, brings)
  {
    if EngineCheckAccepts(def, brings) { EngineCheckedRunsAreSafe(cfg, env, evs, brings, {def}); }
  }
}
