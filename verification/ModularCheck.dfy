/** Checking parents and sub-flows apart: what passes piece by piece passes as a whole, and runs safely. */
module ModularCheck {
  import opened Definition
  import opened RequiresProduces
  import opened EngineModel
  import opened EngineMoves
  import opened RunSafety
  import opened EngineCheck
  import opened SubFlowEntry
  import opened SubFlowComposition

  ghost predicate StartKept(d: FlowDef, m: Cert) { d.initial.Some? ==> Fits(m, Initial(d), Initially(d)) }

  /** Some map survives every move of the definition standing alone; for a built one, that is what the engine check decides. */
  ghost predicate HasPlan(d: FlowDef, brings: Supply) {
    exists m: Cert :: Guaranteed(Plan(d, brings, m)) && StartKept(d, m)
  }

  /** The sub-flow of `s` has been checked without its parent. */
  ghost predicate SubFlowChecked(d: FlowDef, brings: Supply, own: Cert, s: State)
    requires EntersAt(d, own, s)
  {
    SilentProcessors(SubOf(d, s)) && HasPlan(SubOf(d, s), brings)
  }

  /** The parent has, in every state that enters a sub-flow, what the sub-flow declares to be there. */
  ghost predicate Declared(d: FlowDef, own: Cert, s: State)
    requires EntersAt(d, own, s)
  {
    SubOf(d, s).initial.Some? ==> Initially(SubOf(d, s)) <= own[Running([s])]
  }

  /** A map for each sub-flow entered in one of `todo`. */
  lemma {:induction false} InnerPlans(d: FlowDef, brings: Supply, own: Cert, todo: set<State>) returns (inner: map<State, Cert>)
    requires forall s | s in todo :: EntersAt(d, own, s) && SubFlowChecked(d, brings, own, s)
    ensures inner.Keys == todo
    ensures forall s | s in todo ::
      EntersAt(d, own, s) && Guaranteed(Plan(SubOf(d, s), brings, inner[s])) && StartKept(SubOf(d, s), inner[s])
    decreases todo
  {
    inner := map[];
    if todo != {} {
      var s :| s in todo;
      assert SubFlowChecked(d, brings, own, s);
      var m: Cert :| Guaranteed(Plan(SubOf(d, s), brings, m)) && StartKept(SubOf(d, s), m);
      var rest := InnerPlans(d, brings, own, todo - {s});
      inner := rest[s := m];
    }
  }

  /** The maps of all the sub-flows of a parent. */
  lemma JointPlan(d: FlowDef, brings: Supply, own: Cert) returns (j: Joint)
    requires ParentKept(d, brings, own) && forall s | EntersAt(d, own, s) :: SubFlowChecked(d, brings, own, s)
    ensures j.parent == d && j.brings == brings && j.own == own && PiecesKept(j)
    ensures forall s | s in j.inner :: StartKept(SubOf(d, s), j.inner[s])
  {
    var entered := set q | q in own && q.path != [] && EntersAt(d, own, q.path[0]) :: q.path[0];
    forall s | EntersAt(d, own, s) ensures s in entered { assert Running([s]).path[0] == s; }
    var inner := InnerPlans(d, brings, own, entered);
    j := Joint(d, brings, own, inner);
  }

  /** What the map of a sub-flow checked alone lists where it starts is no more than its definition declares. */
  lemma EntryOfChecked(j: Joint, s: State)
    requires PiecesKept(j) && s in j.inner && StartKept(SubOf(j.parent, s), j.inner[s]) && Declared(j.parent, j.own, s)
    ensures EntryAccepted(j, s, {}) && PromiseKept(j, s, {})
  {
    var sub := SubOf(j.parent, s);
    if sub.initial.Some? {
      assert [] + [sub.initial.value] == [sub.initial.value];
      SliceMeans(j.inner[s], [], sub.initial.value);
      OwnValue(j, s);
    }
  }

  /** Checked apart, and declared where they meet: a parent and its sub-flows have a plan together. A sub-flow may have
    * sub-flows in turn, so this goes on at every level. */
  lemma CheckedApart(d: FlowDef, brings: Supply, own: Cert) returns (j: Joint)
    requires ParentKept(d, brings, own) && StartKept(d, own)
    requires forall s | EntersAt(d, own, s) :: SubFlowChecked(d, brings, own, s) && Declared(d, own, s)
    ensures j.parent == d && j.brings == brings && j.own == own && PiecesKept(j)
    ensures Guaranteed(Plan(d, brings, Joined(j))) && StartKept(d, Joined(j)) && HasPlan(d, brings)
  {
    j := JointPlan(d, brings, own);
    var nothing: Promises := map s | s in j.inner :: {};
    forall s | s in j.inner ensures EntryAccepted(j, s, nothing[s]) && PromiseKept(j, s, nothing[s]) {
      assert SubFlowChecked(d, brings, own, s);
      EntryOfChecked(j, s);
    }
    CompositionIff(j, nothing);
    if d.initial.Some? { OwnFits(j, Initial(d), Initially(d)); }
    assert Guaranteed(Plan(d, brings, Joined(j))) && StartKept(d, Joined(j));
  }

  /** A definition the engine check accepts has a plan, and the other way round. */
  lemma HasPlanIffAccepted(d: FlowDef, brings: Supply)
    requires AllBuilt(d) && d.initial.Some?
    ensures HasPlan(d, brings) <==> EngineCheckAccepts(d, brings)
  {
    EngineCheckIsExact(d, brings);
    if HasPlan(d, brings) {
      var m: Cert :| Guaranteed(Plan(d, brings, m)) && StartKept(d, m);
      assert Guaranteed(Plan(d, brings, m)) && Fits(m, Initial(d), Initially(d));
    }
    if EngineCheckAccepts(d, brings) {
      var m: Cert :| Guaranteed(Plan(d, brings, m)) && Fits(m, Initial(d), Initially(d));
      assert StartKept(d, m);
    }
  }

  // ---------- with the validator ----------

  /** The validator accepts the entry in `s`, on the graphs the two definitions carry. */
  ghost predicate ValidatorAccepts(d: FlowDef, s: State)
    requires Link(d, s).Some?
  {
    && WellTyped(d) && WellTyped(SubOf(d, s))
    && (SubOf(d, s).initial.Some? ==> EntryCovered(GraphOf(d), s, SubOf(d, s), GraphOf(SubOf(d, s)), {}))
  }

  /** The parent's graph promises no more at `s` than its map guarantees. */
  ghost predicate GraphHonest(d: FlowDef, own: Cert, s: State)
    requires Running([s]) in own
  {
    WellTyped(d) && AvailableAt(GraphOf(d), s) <= own[Running([s])]
  }

  lemma ValidatedIsDeclared(d: FlowDef, own: Cert, s: State)
    requires EntersAt(d, own, s) && ValidatorAccepts(d, s) && GraphHonest(d, own, s)
    ensures Declared(d, own, s)
  {
    EntryCoveredMeans(GraphOf(d), s, SubOf(d, s), {});
  }

  /** Each piece approved: the parent by itself, each sub-flow by itself, and each entry by the validator. */
  ghost predicate Approved(d: FlowDef, brings: Supply, own: Cert) {
    && ParentKept(d, brings, own) && StartKept(d, own)
    && forall s | EntersAt(d, own, s) ::
         SubFlowChecked(d, brings, own, s) && ValidatorAccepts(d, s) && GraphHonest(d, own, s)
  }

  lemma ApprovedHasPlan(d: FlowDef, brings: Supply, own: Cert)
    requires Approved(d, brings, own)
    ensures HasPlan(d, brings)
  {
    forall s | EntersAt(d, own, s) ensures SubFlowChecked(d, brings, own, s) && Declared(d, own, s) {
      ValidatedIsDeclared(d, own, s);
    }
    var j := CheckedApart(d, brings, own);
  }

  /** Sub-flow entry composes: a parent and its sub-flows approved one by one, with every entry accepted by the validator,
    * run safely together. Every component of a sub-flow, at any depth, finds what it requires in the context it shares
    * with its parent. */
  lemma ApprovedSubFlowsAreSafe(cfg: Config, env: Env, evs: seq<Event>, brings: Supply, d: FlowDef, own: Cert)
    requires AllBuilt(d) && Approved(d, brings, own)
    requires Trusted(cfg, env, d) && OwedRun(cfg, env, evs, brings, {d})
    ensures d.initial.Some? ==> EngineCheckAccepts(d, brings)
    ensures Supplied(Run(cfg, env, evs).calls)
  {
    ApprovedHasPlan(d, brings, own);
    if d.initial.Some? { HasPlanIffAccepted(d, brings); }
    EngineCheckedRunsAreSafe(cfg, env, evs, brings, {d});
  }
}
