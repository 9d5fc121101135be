/** Run soundness: with a map of guaranteed keys that survives every move, each component finds the keys it requires. */
module RunSafety {
  import opened Definition
  import opened DataFlow
  import opened RequiresProduces
  import opened EngineModel
  import opened EngineFacts
  import opened EngineMoves

  // ---------- maps that survive every move ----------

  type Cert = Avail<Pos>

  ghost predicate Fits(m: Cert, q: Pos, have: set<Key>) { q in m && m[q] <= have }

  ghost predicate Survives(m: Cert, have: set<Key>, e: Edge<Pos>) {
    Fits(m, e.target, have + e.gain) && forall n | n in e.needs :: n.key in have + n.given
  }

  ghost predicate AllSurvive(m: Cert, have: set<Key>, es: seq<Edge<Pos>>) { forall e | e in es :: Survives(m, have, e) }

  ghost predicate Inductive(d: FlowDef, brings: Supply, m: Cert) {
    forall q | q in m :: AllSurvive(m, m[q], EdgesAt(d, brings, q))
  }

  /** A root definition, what callers bring, and the keys guaranteed at its positions. */
  datatype Plan = Plan(root: FlowDef, brings: Supply, keys: Cert)

  ghost predicate Guaranteed(p: Plan) { Inductive(p.root, p.brings, p.keys) }

  lemma SurviveAppend(m: Cert, have: set<Key>, a: seq<Edge<Pos>>, b: seq<Edge<Pos>>)
    ensures AllSurvive(m, have, a + b) <==> AllSurvive(m, have, a) && AllSurvive(m, have, b)
  {
    assert forall e :: e in a + b <==> e in a || e in b;
  }

  lemma SurviveMore(m: Cert, less: set<Key>, more: set<Key>, es: seq<Edge<Pos>>)
    requires AllSurvive(m, less, es) && less <= more
    ensures AllSurvive(m, more, es)
  {
    forall e | e in es ensures Survives(m, more, e) { assert Survives(m, less, e); }
  }

  lemma OneSurvives(m: Cert, have: set<Key>, e: Edge<Pos>)
    requires AllSurvive(m, have, [e])
    ensures Survives(m, have, e)
  {
    assert e in [e];
  }

  lemma FitsAfter(m: Cert, have: set<Key>, q: Pos, gain: set<Key>)
    requires AllSurvive(m, have, [To(q, gain)])
    ensures Fits(m, q, have + gain)
  {
    OneSurvives(m, have, To(q, gain));
  }

  lemma EdgesSurvive(p: Plan, q: Pos, have: set<Key>)
    requires Guaranteed(p) && Fits(p.keys, q, have)
    ensures AllSurvive(p.keys, have, EdgesAt(p.root, p.brings, q))
  {
    SurviveMore(p.keys, p.keys[q], have, EdgesAt(p.root, p.brings, q));
  }

  /** A position in the middle of a chain: the chain may stop there, and every move from it survives. */
  lemma RunningFits(p: Plan, above: seq<State>, s: State, have: set<Key>)
    requires Guaranteed(p) && Fits(p.keys, Running(above + [s]), have)
    ensures |above| <= 1 ==> Fits(p.keys, Resting(above + [s]), have)
    ensures DefAt(p.root, above).Some? ==> AllSurvive(p.keys, have, ChainEdges(p.root, above, DefAt(p.root, above).value, s))
  {
    var path := above + [s];
    assert path[..|path| - 1] == above;
    EdgesSurvive(p, Running(path), have);
    var halt := if |above| <= 1 then [To(Resting(path), {})] else [];
    var chain := match DefAt(p.root, above) case None => [] case Some(def) => ChainEdges(p.root, above, def, s);
    assert EdgesAt(p.root, p.brings, Running(path)) == halt + chain;
    SurviveAppend(p.keys, have, halt, chain);
    if |above| <= 1 {
      FitsAfter(p.keys, have, Resting(path), {});
      assert have + {} == have;
    }
  }

  // ---------- what is assumed of components ----------

  ghost predicate Puts(env: Env, p: Processor) {
    forall ctx: Ctx, n: nat | KeySet(p.requires_) <= ctx.Keys && env.process(p, ctx, n).Returned? ::
      KeySet(p.produces) <= (ctx + env.process(p, ctx, n).puts).Keys
  }

  ghost predicate Grants(env: Env, g: Guard) {
    forall ctx: Ctx, n: nat | KeySet(g.requires_) <= ctx.Keys && env.validate(g, ctx, n).Accepted? ::
      KeySet(g.produces) <= (ctx + env.validate(g, ctx, n).data).Keys
  }

  ghost predicate Checked(cfg: Config, d: FlowDef, t: Transition) {
    t.kind == Auto && (cfg.strictMode || d.strictMode)
  }

  /** Given what they require, components put what they declare. In strict mode nothing is assumed of auto processors:
    * the engine checks them. */
  ghost predicate Honest(cfg: Config, env: Env, d: FlowDef) {
    forall t | t in d.transitions ::
      && (t.processor.Some? && !Checked(cfg, d, t) ==> Puts(env, t.processor.value))
      && (t.guard.Some? ==> Grants(env, t.guard.value))
  }

  /** The components of a definition and of all its sub-flows. */
  ghost predicate Trusted(cfg: Config, env: Env, root: FlowDef) {
    forall above :: DefAt(root, above).Some? ==> Honest(cfg, env, DefAt(root, above).value)
  }

  // ---------- the invariant ----------

  ghost predicate Supplied(calls: seq<Call>) {
    forall c | c in calls :: c.needs <= c.present
  }

  /** If the flow below `above` has ended, every way its parent may go on is guaranteed no more than `have`. */
  ghost predicate ExitFits(p: Plan, above: seq<State>, exit: Option<string>, have: set<Key>) {
    exit.Some? ==> AllSurvive(p.keys, have, ExitEdges(p.root, above, exit.value))
  }

  /** Where a flow below `above` can be resumed: the root flow by its own event, or by one for its child. */
  ghost predicate Rests(p: Plan, above: seq<State>, f: Flow, have: set<Key>) {
    if |above| == 1 then Fits(p.keys, Resting(above + [f.state]), have)
    else if |above| > 1 then true
    else if f.active.None? then Fits(p.keys, Resting([f.state]), have)
    else
      var child := f.active.value;
      && Link(f.def, f.state).Some? && Link(f.def, f.state).value.definition == child.def
      && Fits(p.keys, Resting([f.state] + [child.state]), have)
      && ExitFits(p, [f.state], child.exit, have)
  }

  /** What holds of the flow below `above` between two moves. */
  ghost predicate Held(p: Plan, above: seq<State>, s: Sys) {
    && DefAt(p.root, above) == Some(s.flow.def)
    && ExitFits(p, above, s.flow.exit, s.flow.ctx.Keys)
    && (above == [] ==> s.flow.active.None?)
    && Supplied(s.calls)
  }

  /** The flow below `above` is in the middle of a chain. */
  ghost predicate SafeAt(p: Plan, above: seq<State>, s: Sys) {
    Held(p, above, s) && Fits(p.keys, Running(above + [s.flow.state]), s.flow.ctx.Keys)
  }

  /** The flow below `above` has stopped. */
  ghost predicate Stopped(p: Plan, above: seq<State>, s: Sys) {
    && DefAt(p.root, above) == Some(s.flow.def)
    && Rests(p, above, s.flow, s.flow.ctx.Keys)
    && ExitFits(p, above, s.flow.exit, s.flow.ctx.Keys)
    && Supplied(s.calls)
  }

  /** `r` continues `s`: the context only grew. */
  ghost predicate Grown(s: Sys, r: Sys) {
    r.flow.def == s.flow.def && s.flow.ctx.Keys <= r.flow.ctx.Keys
  }

  lemma ExitFitsMore(p: Plan, above: seq<State>, exit: Option<string>, less: set<Key>, more: set<Key>)
    requires ExitFits(p, above, exit, less) && less <= more
    ensures ExitFits(p, above, exit, more)
  {
    if exit.Some? { SurviveMore(p.keys, less, more, ExitEdges(p.root, above, exit.value)); }
  }

  /** A chain that stops where it is. */
  lemma HaltSafe(p: Plan, above: seq<State>, s: Sys)
    requires Guaranteed(p) && SafeAt(p, above, s)
    ensures Stopped(p, above, s)
  {
    RunningFits(p, above, s.flow.state, s.flow.ctx.Keys);
    if above == [] { assert [] + [s.flow.state] == [s.flow.state]; }
  }

  // ---------- moves ----------

  lemma AdvanceSafe(env: Env, p: Plan, above: seq<State>, s: Sys, to: State, trigger: string)
    requires Held(p, above, s) && Fits(p.keys, Running(above + [to]), s.flow.ctx.Keys)
    ensures SafeAt(p, above, Advance(env, s, to, trigger)) && Grown(s, Advance(env, s, to, trigger))
  {
    ExitFitsMore(p, above, s.flow.exit, s.flow.ctx.Keys, Advance(env, s, to, trigger).flow.ctx.Keys);
  }

  lemma {:induction false} MatchedRouteSurvives(env: Env, p: Plan, above: seq<State>, routes: seq<ErrorRoute>, seen: set<string>,
                                                gain: set<Key>, cause: string, base: set<Key>)
    requires forall c | c in seen :: !env.instanceOf(cause, c)
    requires AllSurvive(p.keys, base, RouteEdges(p.root, above, routes, seen, gain))
    ensures MatchingRoute(env, routes, cause).Some? ==>
      AllSurvive(p.keys, base, RoutedEdges(p.root, above, MatchingRoute(env, routes, cause).value, gain))
    decreases |routes|
  {
    if routes != [] {
      var here := if routes[0].errorClass in seen then [] else RoutedEdges(p.root, above, routes[0].target, gain);
      SurviveAppend(p.keys, base, here, RouteEdges(p.root, above, routes[1..], seen + {routes[0].errorClass}, gain));
      if !env.instanceOf(cause, routes[0].errorClass) {
        MatchedRouteSurvives(env, p, above, routes[1..], seen + {routes[0].errorClass}, gain, cause, base);
      }
    }
  }

  /** An error is routed to `z`. */
  lemma RoutedSafe(p: Plan, above: seq<State>, s: Sys, z: State, now: int, base: set<Key>, gain: set<Key>)
    requires Held(p, above, s) && base + gain <= s.flow.ctx.Keys
    requires AllSurvive(p.keys, base, RoutedEdges(p.root, above, z, gain))
    ensures var moved := MoveTo(s.flow, z, now);
      Stopped(p, above, s.(flow := if s.flow.def.Terminal(z) then Complete(moved, z) else moved))
  {
    var rest := if |above| <= 1 then [To(Resting(above + [z]), gain)] else [];
    var exits := if s.flow.def.Terminal(z) then ExitEdges(p.root, above, z) else [];
    assert RoutedEdges(p.root, above, z, gain) == rest + exits;
    SurviveAppend(p.keys, base, rest, exits);
    if |above| <= 1 { FitsAfter(p.keys, base, Resting(above + [z]), gain); }
    if above == [] { assert [] + [z] == [z]; }
    SurviveMore(p.keys, base, s.flow.ctx.Keys, exits);
  }

  /** An error with nowhere to go completes the flow where it is. */
  lemma UnroutedSafe(p: Plan, above: seq<State>, s: Sys, base: set<Key>)
    requires DefAt(p.root, above) == Some(s.flow.def) && Supplied(s.calls)
    requires Rests(p, above, s.flow, s.flow.ctx.Keys) && base <= s.flow.ctx.Keys
    requires AllSurvive(p.keys, base, ExitEdges(p.root, above, "TERMINAL_ERROR"))
    ensures Stopped(p, above, s.(flow := Complete(s.flow, "TERMINAL_ERROR")))
  {
    SurviveMore(p.keys, base, s.flow.ctx.Keys, ExitEdges(p.root, above, "TERMINAL_ERROR"));
  }

  lemma HandleErrorSafe(env: Env, p: Plan, above: seq<State>, s: Sys, cause: Option<string>, caused: bool, base: set<Key>, gain: set<Key>)
    requires Stopped(p, above, s) && (above == [] ==> s.flow.active.None?) && base + gain <= s.flow.ctx.Keys
    requires cause.Some? ==> caused
    requires AllSurvive(p.keys, base, FailureEdges(p.root, above, s.flow.def, s.flow.state, caused, gain))
    ensures Stopped(p, above, HandleError(env, s, cause)) && Grown(s, HandleError(env, s, cause))
  {
    var def, state := s.flow.def, s.flow.state;
    var routes := if caused && state in def.exceptionRoutes then RouteEdges(p.root, above, def.exceptionRoutes[state], {}, gain) else [];
    var fallback := if state in def.errorTransitions then RoutedEdges(p.root, above, def.errorTransitions[state], gain)
                    else ExitEdges(p.root, above, "TERMINAL_ERROR");
    SurviveAppend(p.keys, base, routes, fallback);
    if cause.Some? && state in def.exceptionRoutes {
      MatchedRouteSurvives(env, p, above, def.exceptionRoutes[state], {}, gain, cause.value, base);
    }
    match ErrorTarget(env, def, state, cause)
    case Some((target, trigger)) => RoutedSafe(p, above, s, target, env.clock(s.tick), base, gain);
    case None => UnroutedSafe(p, above, s, base);
  }

  // ---------- processors and branches ----------

  lemma CalledSafe(s: Sys, needs: seq<Key>)
    requires Supplied(s.calls) && KeySet(needs) <= s.flow.ctx.Keys
    ensures Supplied(Called(s, needs).calls)
  {}

  lemma MoreContext(p: Plan, above: seq<State>, s: Sys, data: Ctx)
    requires Held(p, above, s)
    ensures Held(p, above, s.(flow := s.flow.(ctx := s.flow.ctx + data)))
  {
    ExitFitsMore(p, above, s.flow.exit, s.flow.ctx.Keys, (s.flow.ctx + data).Keys);
  }

  ghost predicate Ran(p: Plan, above: seq<State>, s: Sys, gain: set<Key>, r: Pass) {
    match r
    case Halted => false
    case Moved(s1) => Held(p, above, s1) && Grown(s, s1) && gain <= s1.flow.ctx.Keys
    case Failed(s1) => Stopped(p, above, s1) && Grown(s, s1)
  }

  lemma RunProcessorSafe(env: Env, p: Plan, above: seq<State>, s: Sys, proc: Option<Processor>, verify: bool)
    requires Guaranteed(p) && SafeAt(p, above, s)
    requires proc.Some? ==>
      && KeySet(proc.value.requires_) <= s.flow.ctx.Keys
      && AllSurvive(p.keys, s.flow.ctx.Keys, FailureEdges(p.root, above, s.flow.def, s.flow.state, true, {}))
      && (!verify ==> Puts(env, proc.value))
    ensures Ran(p, above, s, if proc.Some? then KeySet(proc.value.produces) else {}, RunProcessor(env, s, proc, verify))
  {
    if proc.Some? {
      var s1 := Called(s, proc.value.requires_);
      CalledSafe(s, proc.value.requires_);
      HaltSafe(p, above, s);
      match env.process(proc.value, s.flow.ctx, s.tick)
      case Threw(_, error) =>
        HandleErrorSafe(env, p, above, s1, Some(error), true, s.flow.ctx.Keys, {});
      case Returned(puts) =>
        MoreContext(p, above, s1, puts);
        HandleErrorSafe(env, p, above, s1, Some("FlowError"), true, s.flow.ctx.Keys, {});
    }
  }

  ghost predicate PassSafe(p: Plan, above: seq<State>, s: Sys, r: Pass) {
    match r
    case Halted => true
    case Moved(s1) => SafeAt(p, above, s1) && Grown(s, s1)
    case Failed(s1) => Stopped(p, above, s1) && Grown(s, s1)
  }

  /** A processor that was run for an edge of the graph, and the move along it. */
  lemma ArriveSafe(env: Env, p: Plan, above: seq<State>, s: Sys, s1: Sys, gain: set<Key>, to: State, trigger: string)
    requires Fits(p.keys, Running(above + [to]), s.flow.ctx.Keys + gain)
    requires Ran(p, above, s, gain, Moved(s1))
    ensures SafeAt(p, above, Advance(env, s1, to, trigger)) && Grown(s, Advance(env, s1, to, trigger))
  {
    AdvanceSafe(env, p, above, s1, to, trigger);
  }

  lemma AutoPassSafe(cfg: Config, env: Env, p: Plan, above: seq<State>, s: Sys, t: Transition)
    requires Guaranteed(p) && SafeAt(p, above, s) && Honest(cfg, env, s.flow.def)
    requires t in s.flow.def.transitions && t.kind == Auto
    requires AllSurvive(p.keys, s.flow.ctx.Keys, AutoEdges(p.root, above, s.flow.def, s.flow.state, t))
    ensures PassSafe(p, above, s, AutoPass(cfg, env, s, t))
  {
    var have, verify := s.flow.ctx.Keys, cfg.strictMode || s.flow.def.strictMode;
    var failing := if t.processor.Some? then FailureEdges(p.root, above, s.flow.def, s.flow.state, true, {}) else [];
    var e := Edge(Running(above + [t.to]), ProcessorProduces(t), RunNeeds(t, t.processor, {}));
    SurviveAppend(p.keys, have, failing, [e]);
    OneSurvives(p.keys, have, e);
    if t.processor.Some? { NeedsMean(ProcessorPart, t, t.processor.value.requires_, {}, have); }
    RunProcessorSafe(env, p, above, s, t.processor, verify);
    match RunProcessor(env, s, t.processor, verify)
    case Moved(s1) =>
      ArriveSafe(env, p, above, s, s1, e.gain, t.to, if t.processor.Some? then t.processor.value.name else "auto");
    case Failed(s1) =>
  }

  lemma SpecificIn(ts: seq<Transition>, t: Transition, choice: Label, target: State)
    requires t in ts && t.kind == Branch
    ensures Specific(ts, t, choice, target) in ts && Specific(ts, t, choice, target).kind == Branch
  {
    FirstLabelledIn(ts, choice, target);
  }

  lemma ArmSafe(cfg: Config, env: Env, p: Plan, above: seq<State>, s: Sys, t: Transition, choice: Label, trigger: string)
    requires Guaranteed(p) && SafeAt(p, above, s) && Honest(cfg, env, s.flow.def)
    requires t in s.flow.def.TransitionsFrom(s.flow.state) && t.kind == Branch && choice in t.branchTargets
    requires AllSurvive(p.keys, s.flow.ctx.Keys, FailureEdges(p.root, above, s.flow.def, s.flow.state, true, {}))
    requires Survives(p.keys, s.flow.ctx.Keys, ArmEdge(above, s.flow.def, s.flow.state, t, choice))
    ensures var target := t.branchTargets[choice];
      var r := RunProcessor(env, s, Specific(s.flow.def.TransitionsFrom(s.flow.state), t, choice, target).processor, false);
      Ran(p, above, s, {}, r) && (r.Moved? ==> PassSafe(p, above, s, Moved(Advance(env, r.sys, target, trigger))))
  {
    var ts, target := s.flow.def.TransitionsFrom(s.flow.state), t.branchTargets[choice];
    var run := Specific(ts, t, choice, target);
    SpecificIn(ts, t, choice, target);
    LeavingIn(s.flow.def.transitions, s.flow.state, run);
    if run.processor.Some? { NeedsMean(ProcessorPart, t, run.processor.value.requires_, {}, s.flow.ctx.Keys); }
    RunProcessorSafe(env, p, above, s, run.processor, false);
    match RunProcessor(env, s, run.processor, false)
    case Moved(s1) => ArriveSafe(env, p, above, s, s1, ProcessorProduces(run), target, trigger);
    case Failed(s1) =>
  }

  /** What the edges of a branch say: it may fail, its own needs, and each of its arms. */
  lemma BranchSurvives(p: Plan, above: seq<State>, def: FlowDef, s: State, t: Transition, have: set<Key>)
    requires AllSurvive(p.keys, have, BranchEdges(p.root, above, def, s, t))
    ensures AllSurvive(p.keys, have, FailureEdges(p.root, above, def, s, true, {}))
    ensures t.branch.Some? ==> KeySet(t.branch.value.requires_) <= have
    ensures t.branch.Some? ==> forall l | l in t.branchTargets :: Survives(p.keys, have, ArmEdge(above, def, s, t, l))
  {
    var failing := FailureEdges(p.root, above, def, s, true, {});
    if t.branch.None? {
      SurviveAppend(p.keys, have, failing, []);
    } else {
      var ask := Edge(Running(above + [s]), {}, NeedsOf(BranchPart, t, t.branch.value.requires_, {}));
      var arms := ArmEdges(above, def, s, t, t.branchTargets.Keys);
      SurviveAppend(p.keys, have, failing, [ask] + arms);
      SurviveAppend(p.keys, have, [ask], arms);
      OneSurvives(p.keys, have, ask);
      NeedsMean(BranchPart, t, t.branch.value.requires_, {}, have);
      forall l | l in t.branchTargets ensures Survives(p.keys, have, ArmEdge(above, def, s, t, l)) {
        ArmIsEdge(above, def, s, t, t.branchTargets.Keys, ArmEdge(above, def, s, t, l));
      }
    }
  }

  lemma BranchPassSafe(cfg: Config, env: Env, p: Plan, above: seq<State>, s: Sys, t: Transition)
    requires Guaranteed(p) && SafeAt(p, above, s) && Honest(cfg, env, s.flow.def)
    requires t in s.flow.def.TransitionsFrom(s.flow.state) && t.kind == Branch
    requires AllSurvive(p.keys, s.flow.ctx.Keys, BranchEdges(p.root, above, s.flow.def, s.flow.state, t))
    ensures PassSafe(p, above, s, BranchPass(env, s, s.flow.def.TransitionsFrom(s.flow.state), t))
  {
    var have := s.flow.ctx.Keys;
    BranchSurvives(p, above, s.flow.def, s.flow.state, t, have);
    HaltSafe(p, above, s);
    if t.branch.None? {
      HandleErrorSafe(env, p, above, s, Some("TypeError"), true, have, {});
    } else {
      var b := t.branch.value;
      var s1 := Called(s, b.requires_);
      CalledSafe(s, b.requires_);
      match env.decide(b, s.flow.ctx, s.tick)
      case Undecided(error) =>
        HandleErrorSafe(env, p, above, s1, Some(error), true, have, {});
      case Decided(choice) =>
        if choice in t.branchTargets {
          ArmSafe(cfg, env, p, above, s1, t, choice, b.name + ":" + choice);
        } else {
          HandleErrorSafe(env, p, above, s1, Some("FlowError"), true, have, {});
        }
    }
  }

  lemma ChainPassSafe(cfg: Config, env: Env, p: Plan, above: seq<State>, s: Sys)
    requires Guaranteed(p) && SafeAt(p, above, s) && Honest(cfg, env, s.flow.def)
    requires !s.flow.def.Terminal(s.flow.state) && Link(s.flow.def, s.flow.state).None?
    ensures PassSafe(p, above, s, ChainPass(cfg, env, s))
  {
    RunningFits(p, above, s.flow.state, s.flow.ctx.Keys);
    var ts := s.flow.def.TransitionsFrom(s.flow.state);
    FirstChainedIn(ts);
    match FirstChained(ts)
    case None =>
    case Some(t) =>
      LeavingIn(s.flow.def.transitions, s.flow.state, t);
      if t.kind == Auto {
        AutoPassSafe(cfg, env, p, above, s, t);
      } else {
        BranchPassSafe(cfg, env, p, above, s, t);
      }
  }

  // ---------- sub-flows ----------

  /** What the end of a sub-flow means for its parent. */
  lemma LeaveSurvives(p: Plan, above: seq<State>, parent: FlowDef, s: State, exit: string, dropped: bool, gain: set<Key>, base: set<Key>, have: set<Key>)
    requires DefAt(p.root, above) == Some(parent) && Link(parent, s).Some? && base + gain <= have
    requires gain == {} || above == []
    requires AllSurvive(p.keys, base, LeaveEdges(p.root, above + [s], exit, dropped, gain))
    ensures var link := Link(parent, s).value;
      if exit in link.exitMappings then Fits(p.keys, Running(above + [link.exitMappings[exit]]), have)
      else
        && (dropped && above == [] ==> Fits(p.keys, Resting([s]), have))
        && (if s in parent.errorTransitions then Fits(p.keys, Running(above + [parent.errorTransitions[s]]), have)
            else Fits(p.keys, Running(above + [s]), have) && ExitFits(p, above, Some("TERMINAL_ERROR"), have))
  {
    var link, path := Link(parent, s).value, above + [s];
    assert path[..|path| - 1] == above;
    assert LeaveEdges(p.root, path, exit, dropped, gain) == LeaveParent(p.root, path, above, parent, s, exit, dropped, gain);
    if exit in link.exitMappings {
      FitsAfter(p.keys, base, Running(above + [link.exitMappings[exit]]), gain);
    } else {
      var rest := if dropped && above == [] then [To(Resting(path), gain)] else [];
      var up := LeaveEdges(p.root, above, "TERMINAL_ERROR", true, gain);
      var moves := if s in parent.errorTransitions then [To(Running(above + [parent.errorTransitions[s]]), gain)]
                   else [To(Running(path), gain)] + up;
      SurviveAppend(p.keys, base, rest, moves);
      if dropped && above == [] {
        assert path == [s];
        FitsAfter(p.keys, base, Resting(path), gain);
      }
      if s in parent.errorTransitions {
        FitsAfter(p.keys, base, Running(above + [parent.errorTransitions[s]]), gain);
      } else {
        SurviveAppend(p.keys, base, [To(Running(path), gain)], up);
        FitsAfter(p.keys, base, Running(path), gain);
        SurviveMore(p.keys, base, have, up);
      }
    }
  }

  /** A parent moved to a terminal state by an error is completed there. */
  lemma TerminalExitFits(p: Plan, above: seq<State>, z: State, have: set<Key>)
    requires Guaranteed(p) && Fits(p.keys, Running(above + [z]), have)
    requires DefAt(p.root, above).Some? && DefAt(p.root, above).value.Terminal(z)
    ensures ExitFits(p, above, Some(z), have)
  {
    RunningFits(p, above, z, have);
  }

  /** The parent goes on when its sub-flow has ended: `s` is the parent with the shared context. */
  lemma LeaveSafe(env: Env, p: Plan, above: seq<State>, s: Sys, link: SubFlowLink, name: string, exit: string,
                  dropped: bool, gain: set<Key>, base: set<Key>)
    requires Guaranteed(p) && Held(p, above, s) && Link(s.flow.def, s.flow.state) == Some(link)
    requires base + gain <= s.flow.ctx.Keys && (gain == {} || above == [])
    requires AllSurvive(p.keys, base, LeaveEdges(p.root, above + [s.flow.state], exit, dropped, gain))
    ensures var r := LeaveSubFlow(env, s, link, name, exit); SafeAt(p, above, r) && Grown(s, r)
  {
    var def, state, have := s.flow.def, s.flow.state, s.flow.ctx.Keys;
    LeaveSurvives(p, above, def, state, exit, dropped, gain, base, have);
    if exit in link.exitMappings {
      AdvanceSafe(env, p, above, s, link.exitMappings[exit], "subFlow:" + name + "/" + exit);
    } else if state in def.errorTransitions && def.Terminal(def.errorTransitions[state]) {
      TerminalExitFits(p, above, def.errorTransitions[state], have);
    }
  }

  /** The parent waits for its sub-flow. */
  lemma WaitsSafe(p: Plan, above: seq<State>, parent: Flow, s: Sys)
    requires Guaranteed(p) && DefAt(p.root, above) == Some(parent.def) && Link(parent.def, parent.state).Some?
    requires |above| == 1 ==> Fits(p.keys, Resting(above + [parent.state]), parent.ctx.Keys)
    requires ExitFits(p, above, parent.exit, parent.ctx.Keys) && parent.ctx.Keys <= s.flow.ctx.Keys
    requires Stopped(p, above + [parent.state], s)
    ensures Stopped(p, above, Waits(parent, s))
  {
    DefBelow(p.root, above, parent.state);
    ExitFitsMore(p, above, parent.exit, parent.ctx.Keys, s.flow.ctx.Keys);
    if above == [] { assert above + [parent.state] == [parent.state]; }
  }

  ghost predicate TurnSafe(p: Plan, above: seq<State>, s: Sys, t: Turn) {
    match t
    case Stop(r) => Stopped(p, above, r.sys) && Grown(s, r.sys)
    case Next(s1) => SafeAt(p, above, s1) && Grown(s, s1)
  }

  lemma EnterSafe(env: Env, p: Plan, above: seq<State>, s: Sys, link: SubFlowLink)
    requires Guaranteed(p) && SafeAt(p, above, s) && !s.flow.def.Terminal(s.flow.state)
    requires Link(s.flow.def, s.flow.state) == Some(link) && link.definition.initial.Some?
    ensures SafeAt(p, above + [s.flow.state], StartSubFlow(env, s, link.definition))
  {
    var inner := above + [s.flow.state];
    RunningFits(p, above, s.flow.state, s.flow.ctx.Keys);
    FitsAfter(p.keys, s.flow.ctx.Keys, Running(inner + [link.definition.initial.value]), {});
    assert s.flow.ctx.Keys + {} == s.flow.ctx.Keys;
    DefBelow(p.root, above, s.flow.state);
  }

  /** The sub-flow has run its chain to `r`: the parent waits or goes on. */
  lemma ReturnSafe(env: Env, p: Plan, above: seq<State>, s: Sys, link: SubFlowLink, r: Sys)
    requires Guaranteed(p) && SafeAt(p, above, s) && Link(s.flow.def, s.flow.state) == Some(link)
    requires Stopped(p, above + [s.flow.state], r) && s.flow.ctx.Keys <= r.flow.ctx.Keys
    ensures Stopped(p, above, Waits(s.flow, r))
    ensures r.flow.exit.Some? ==>
      var left := LeaveSubFlow(env, Freed(s.flow, r), link, link.definition.name, r.flow.exit.value);
      SafeAt(p, above, left) && s.flow.ctx.Keys <= left.flow.ctx.Keys && left.flow.def == s.flow.def
  {
    RunningFits(p, above, s.flow.state, s.flow.ctx.Keys);
    WaitsSafe(p, above, s.flow, r);
    if r.flow.exit.Some? {
      var freed := Freed(s.flow, r);
      ExitFitsMore(p, above, s.flow.exit, s.flow.ctx.Keys, r.flow.ctx.Keys);
      LeaveSafe(env, p, above, freed, link, link.definition.name, r.flow.exit.value, true, {}, freed.flow.ctx.Keys);
    }
  }

  lemma {:induction false} SubFlowTurnSafe(cfg: Config, env: Env, p: Plan, above: seq<State>, s: Sys, link: SubFlowLink)
    requires Guaranteed(p) && Trusted(cfg, env, p.root) && SafeAt(p, above, s) && !s.flow.def.Terminal(s.flow.state)
    requires Link(s.flow.def, s.flow.state) == Some(link) && link.definition < s.flow.def
    ensures TurnSafe(p, above, s, SubFlowTurn(cfg, env, s, link))
    decreases s.flow.def, 0, 0
  {
    HaltSafe(p, above, s);
    if link.definition.initial.Some? {
      EnterSafe(env, p, above, s, link);
      ChainSafe(cfg, env, p, above + [s.flow.state], StartSubFlow(env, s, link.definition), 0);
      var r := Chain(cfg, env, StartSubFlow(env, s, link.definition), 0);
      ReturnSafe(env, p, above, s, link, r.sys);
      assert SubFlowTurn(cfg, env, s, link)
        == if r.thrown.Some? || r.sys.flow.exit.None? then Stop(Result(Waits(s.flow, r.sys), r.thrown))
           else Next(Tick(LeaveSubFlow(env, Freed(s.flow, r.sys), link, link.definition.name, r.sys.flow.exit.value)));
    }
  }

  lemma {:induction false} ChainTurnSafe(cfg: Config, env: Env, p: Plan, above: seq<State>, s: Sys)
    requires Guaranteed(p) && Trusted(cfg, env, p.root) && SafeAt(p, above, s) && !s.flow.def.Terminal(s.flow.state)
    ensures TurnSafe(p, above, s, ChainTurn(cfg, env, s))
    decreases s.flow.def, 0, 1
  {
    match FirstSubFlow(s.flow.def.TransitionsFrom(s.flow.state))
    case Some(t) =>
      NestedIsSmaller(s.flow.def, s.flow.state);
      SubFlowTurnSafe(cfg, env, p, above, s, t.subFlow.value);
    case None =>
      assert Honest(cfg, env, s.flow.def);
      ChainPassSafe(cfg, env, p, above, s);
      HaltSafe(p, above, s);
  }

  lemma FinishSafe(p: Plan, above: seq<State>, s: Sys)
    requires Guaranteed(p) && SafeAt(p, above, s) && s.flow.def.Terminal(s.flow.state)
    ensures Stopped(p, above, s.(flow := Complete(s.flow, s.flow.state)))
  {
    HaltSafe(p, above, s);
    TerminalExitFits(p, above, s.flow.state, s.flow.ctx.Keys);
  }

  /** Along a chain, at any depth of sub-flows and however it stops, every component called found its keys. */
  lemma {:induction false} ChainSafe(cfg: Config, env: Env, p: Plan, above: seq<State>, s: Sys, depth: nat)
    requires Guaranteed(p) && Trusted(cfg, env, p.root) && SafeAt(p, above, s)
    ensures var r := Chain(cfg, env, s, depth).sys; Stopped(p, above, r) && Grown(s, r)
    decreases s.flow.def, 1 + (if depth <= cfg.maxChainDepth then cfg.maxChainDepth - depth else 0), 0
  {
    if depth >= cfg.maxChainDepth {
      HaltSafe(p, above, s);
    } else if s.flow.def.Terminal(s.flow.state) {
      FinishSafe(p, above, s);
    } else {
      ChainTurnSafe(cfg, env, p, above, s);
      var turn := ChainTurn(cfg, env, s);
      if turn.Next? { ChainSafe(cfg, env, p, above, turn.sys, depth + 1); }
      assert Chain(cfg, env, s, depth) == match turn case Stop(r) => r case Next(s1) => Chain(cfg, env, s1, depth + 1);
    }
  }

  // ---------- resuming the root flow ----------

  /** The root flow in the hands of the engine. */
  ghost predicate SafeRoot(p: Plan, s: Sys) { Stopped(p, [], s) }

  lemma ResumeSurvives(p: Plan, s: State, t: Transition, have: set<Key>)
    requires Guaranteed(p) && Fits(p.keys, Resting([s]), have) && t in p.root.ExternalsFrom(s)
    ensures AllSurvive(p.keys, have, ResumeEdges(p.root, p.brings, s, t))
  {
    EdgesSurvive(p, Resting([s]), have);
    forall e | e in ResumeEdges(p.root, p.brings, s, t) ensures Survives(p.keys, have, e) {
      ResumeIsEdge(p.root, p.brings, s, false, p.root.ExternalsFrom(s), e);
      assert e in EdgesAt(p.root, p.brings, Resting([s]));
    }
  }

  lemma ChainFromRoot(cfg: Config, env: Env, p: Plan, s: Sys, to: State, trigger: string)
    requires Guaranteed(p) && Trusted(cfg, env, p.root) && Held(p, [], s) && Fits(p.keys, Running([to]), s.flow.ctx.Keys)
    ensures SafeRoot(p, Chain(cfg, env, Tick(Advance(env, s, to, trigger)), 0).sys)
  {
    assert [] + [to] == [to];
    AdvanceSafe(env, p, [], s, to, trigger);
    ChainSafe(cfg, env, p, [], Tick(Advance(env, s, to, trigger)), 0);
  }

  lemma HonestHere(cfg: Config, env: Env, root: FlowDef, s: State, t: Transition)
    requires Trusted(cfg, env, root) && t in root.ExternalsFrom(s)
    ensures t.processor.Some? ==> Puts(env, t.processor.value)
    ensures t.guard.Some? ==> Grants(env, t.guard.value)
  {
    assert DefAt(root, []) == Some(root);
    OfKindIn(root.TransitionsFrom(s), External, t);
    LeavingIn(root.transitions, s, t);
  }

  /** What the edges of a guarded external transition say. */
  lemma GuardedSurvives(p: Plan, s: State, t: Transition, have: set<Key>)
    requires t.guard.Some? && AllSurvive(p.keys, have, ResumeEdges(p.root, p.brings, s, t))
    ensures var g := t.guard.value;
      var granted := have + p.brings(t) + KeySet(g.produces);
      && AllSurvive(p.keys, have, FailureEdges(p.root, [], p.root, s, t.processor.Some?, p.brings(t)))
      && KeySet(g.requires_) <= have + p.brings(t)
      && (t.processor.Some? ==> KeySet(t.processor.value.requires_) <= granted)
      && Fits(p.keys, Running([t.to]), granted + ProcessorProduces(t))
  {
    var g := t.guard.value;
    var granted := p.brings(t) + KeySet(g.produces);
    var asked, run := NeedsOf(GuardPart, t, g.requires_, p.brings(t)), RunNeeds(t, t.processor, granted);
    var e := Edge(Running([t.to]), granted + ProcessorProduces(t), asked + run);
    SurviveAppend(p.keys, have, FailureEdges(p.root, [], p.root, s, t.processor.Some?, p.brings(t)), [e]);
    OneSurvives(p.keys, have, e);
    assert forall n :: n in asked + run <==> n in asked || n in run;
    NeedsMean(GuardPart, t, g.requires_, p.brings(t), have);
    if t.processor.Some? { NeedsMean(ProcessorPart, t, t.processor.value.requires_, granted, have); }
    assert have + (granted + ProcessorProduces(t)) == have + p.brings(t) + KeySet(g.produces) + ProcessorProduces(t);
  }

  /** The guard has accepted: `s` is the flow before its data, `have` what is guaranteed of it. */
  lemma AcceptSafe(cfg: Config, env: Env, p: Plan, s: Sys, t: Transition, name: string, data: Ctx, have: set<Key>)
    requires Guaranteed(p) && Trusted(cfg, env, p.root) && SafeRoot(p, s) && s.flow.active.None?
    requires t in p.root.ExternalsFrom(s.flow.state) && t.guard.Some?
    requires have + p.brings(t) <= s.flow.ctx.Keys && KeySet(t.guard.value.produces) <= (s.flow.ctx + data).Keys
    requires AllSurvive(p.keys, have, ResumeEdges(p.root, p.brings, s.flow.state, t))
    ensures SafeRoot(p, Accept(cfg, env, s, t, name, data).sys)
  {
    GuardedSurvives(p, s.flow.state, t, have);
    HonestHere(cfg, env, p.root, s.flow.state, t);
    var withData := s.(flow := s.flow.(ctx := s.flow.ctx + data));
    match t.processor
    case None => ChainFromRoot(cfg, env, p, withData, t.to, name);
    case Some(q) =>
      var called := Called(withData, q.requires_);
      CalledSafe(withData, q.requires_);
      match env.process(q, withData.flow.ctx, s.tick)
      case Threw(_, error) =>
        HandleErrorSafe(env, p, [], called.(flow := s.flow), Some(error), true, have, p.brings(t));
      case Returned(puts) =>
        ChainFromRoot(cfg, env, p, called.(flow := s.flow.(ctx := withData.flow.ctx + puts)), t.to, name);
  }

  lemma RejectSafe(env: Env, p: Plan, s: Sys, caused: bool, base: set<Key>, gain: set<Key>)
    requires SafeRoot(p, s) && s.flow.active.None? && base + gain <= s.flow.ctx.Keys
    requires AllSurvive(p.keys, base, FailureEdges(p.root, [], s.flow.def, s.flow.state, caused, gain))
    ensures SafeRoot(p, Reject(env, s))
  {
    HandleErrorSafe(env, p, [], s.(flow := s.flow.(failures := s.flow.failures + 1)), None, caused, base, gain);
  }

  lemma TakeGuardedSafe(cfg: Config, env: Env, p: Plan, s: Sys, t: Transition, g: Guard, have: set<Key>)
    requires Guaranteed(p) && Trusted(cfg, env, p.root) && SafeRoot(p, s) && s.flow.active.None?
    requires t in p.root.ExternalsFrom(s.flow.state) && have + p.brings(t) <= s.flow.ctx.Keys && t.guard == Some(g)
    requires AllSurvive(p.keys, have, ResumeEdges(p.root, p.brings, s.flow.state, t))
    ensures SafeRoot(p, TakeExternal(cfg, env, s, t).sys)
  {
    GuardedSurvives(p, s.flow.state, t, have);
    HonestHere(cfg, env, p.root, s.flow.state, t);
    var called := Called(s, g.requires_);
    CalledSafe(s, g.requires_);
    match env.validate(g, s.flow.ctx, s.tick)
    case Accepted(data) => AcceptSafe(cfg, env, p, called, t, g.name, data, have);
    case Rejected => RejectSafe(env, p, called, t.processor.Some?, have, p.brings(t));
    case Expired =>
    case Raised(error) =>
  }

  lemma TakeSafe(cfg: Config, env: Env, p: Plan, s: Sys, t: Transition, have: set<Key>)
    requires Guaranteed(p) && Trusted(cfg, env, p.root) && SafeRoot(p, s) && s.flow.active.None?
    requires t in p.root.ExternalsFrom(s.flow.state) && Fits(p.keys, Resting([s.flow.state]), have)
    requires have + p.brings(t) <= s.flow.ctx.Keys
    ensures SafeRoot(p, TakeExternal(cfg, env, s, t).sys)
  {
    ResumeSurvives(p, s.flow.state, t, have);
    match t.guard
    case None =>
      FitsAfter(p.keys, have, Running([t.to]), p.brings(t));
      ChainFromRoot(cfg, env, p, s, t.to, "external");
    case Some(g) => TakeGuardedSafe(cfg, env, p, s, t, g, have);
  }

  lemma ResumeOwnSafe(cfg: Config, env: Env, p: Plan, s: Sys, keys: set<Key>)
    requires Guaranteed(p) && Trusted(cfg, env, p.root) && SafeRoot(p, s) && s.flow.active.None?
    requires Chosen(s.flow, keys).Some? ==> p.brings(Chosen(s.flow, keys).value) <= s.flow.ctx.Keys
    ensures SafeRoot(p, ResumeOwn(cfg, env, s, keys).sys)
  {
    var externals := s.flow.def.ExternalsFrom(s.flow.state);
    SelectedIsExternal(externals, keys);
    var sel := Select(externals, keys);
    if externals != [] && sel.Selected? {
      TakeSafe(cfg, env, p, s, sel.transition, p.keys[Resting([s.flow.state])]);
    }
  }

  // ---------- resuming the child of the root flow ----------

  /** The parent after its child ended on a resume; an unmapped exit is dropped, unless it is the guard error. */
  lemma AfterSubFlowSafe(cfg: Config, env: Env, p: Plan, s: Sys, name: string, exit: string, bubble: bool, gain: set<Key>, base: set<Key>)
    requires Guaranteed(p) && Trusted(cfg, env, p.root) && Held(p, [], s) && Link(s.flow.def, s.flow.state).Some?
    requires base + gain <= s.flow.ctx.Keys
    requires AllSurvive(p.keys, base, LeaveEdges(p.root, [s.flow.state], exit, !bubble, gain))
    ensures SafeRoot(p, AfterSubFlow(cfg, env, s, name, exit, bubble).sys)
  {
    var link := Link(s.flow.def, s.flow.state).value;
    FirstSubFlowIn(s.flow.def.TransitionsFrom(s.flow.state));
    assert [] + [s.flow.state] == [s.flow.state];
    LeaveSurvives(p, [], s.flow.def, s.flow.state, exit, !bubble, gain, base, s.flow.ctx.Keys);
    if exit in link.exitMappings || bubble {
      LeaveSafe(env, p, [], s, link, name, exit, !bubble, gain, base);
      var left := Tick(LeaveSubFlow(env, s, link, name, exit));
      ChainSafe(cfg, env, p, [], left, 0);
      assert AfterSubFlow(cfg, env, s, name, exit, bubble) == Chain(cfg, env, left, 0);
    } else {
      assert AfterSubFlow(cfg, env, s, name, exit, bubble) == Result(s, None);
    }
  }

  /** The root flow sits at the sub-flow whose child is in `sub`. */
  ghost predicate Parent(p: Plan, parent: Flow, sub: Sys) {
    && parent.def == p.root && Link(p.root, parent.state).Some?
    && Link(p.root, parent.state).value.definition == sub.flow.def && parent.ctx.Keys <= sub.flow.ctx.Keys
  }

  lemma ContinueSubFlowSafe(cfg: Config, env: Env, p: Plan, parent: Flow, sub: Sys)
    requires Guaranteed(p) && Trusted(cfg, env, p.root) && Parent(p, parent, sub) && SafeAt(p, [parent.state], sub)
    ensures SafeRoot(p, ContinueSubFlow(cfg, env, parent, sub).sys)
  {
    ChainSafe(cfg, env, p, [parent.state], Tick(sub), 0);
    var r := Chain(cfg, env, Tick(sub), 0);
    assert [] + [parent.state] == [parent.state];
    WaitsSafe(p, [], parent, r.sys);
    if r.thrown.None? && r.sys.flow.exit.Some? {
      AfterSubFlowSafe(cfg, env, p, Freed(parent, r.sys), sub.flow.def.name, r.sys.flow.exit.value, false, {}, r.sys.flow.ctx.Keys);
    }
  }

  lemma ResumeChildSurvives(p: Plan, s: State, c: State, t: Transition, have: set<Key>)
    requires Guaranteed(p) && Fits(p.keys, Resting([s] + [c]), have) && Link(p.root, s).Some?
    requires t in Link(p.root, s).value.definition.ExternalsFrom(c)
    ensures AllSurvive(p.keys, have, ResumeChildEdges(p.root, p.brings, s, t))
  {
    EdgesSurvive(p, Resting([s] + [c]), have);
    forall e | e in ResumeChildEdges(p.root, p.brings, s, t) ensures Survives(p.keys, have, e) {
      ResumeIsEdge(p.root, p.brings, s, true, Link(p.root, s).value.definition.ExternalsFrom(c), e);
      assert e in EdgesAt(p.root, p.brings, Resting([s] + [c]));
    }
  }

  lemma HonestChild(cfg: Config, env: Env, root: FlowDef, s: State, c: State, t: Transition)
    requires Trusted(cfg, env, root) && Link(root, s).Some? && t in Link(root, s).value.definition.ExternalsFrom(c)
    ensures t.guard.Some? ==> Grants(env, t.guard.value)
  {
    var child := Link(root, s).value.definition;
    DefBelow(root, [], s);
    assert DefAt(root, [] + [s]) == Some(child);
    OfKindIn(child.TransitionsFrom(c), External, t);
    LeavingIn(child.transitions, c, t);
  }

  /** The child moves on an accepted event: its state changes, its processor does not run. */
  lemma ChildMoveSafe(cfg: Config, env: Env, p: Plan, parent: Flow, s: Sys, sub: Sys, to: State, have: set<Key>)
    requires Guaranteed(p) && Trusted(cfg, env, p.root) && Parent(p, parent, sub) && Held(p, [parent.state], s)
    requires sub.flow.def == s.flow.def && sub.flow.exit == s.flow.exit && sub.calls == s.calls && sub.flow.state == to
    requires Fits(p.keys, Running([parent.state] + [to]), have) && have <= sub.flow.ctx.Keys && s.flow.ctx.Keys <= sub.flow.ctx.Keys
    ensures SafeRoot(p, ContinueSubFlow(cfg, env, parent, sub).sys)
  {
    ExitFitsMore(p, [parent.state], s.flow.exit, s.flow.ctx.Keys, sub.flow.ctx.Keys);
    ContinueSubFlowSafe(cfg, env, p, parent, sub);
  }

  lemma ChildGuardSurvives(p: Plan, s: State, t: Transition, have: set<Key>)
    requires t.guard.Some? && AllSurvive(p.keys, have, ResumeChildEdges(p.root, p.brings, s, t))
    ensures AllSurvive(p.keys, have, LeaveEdges(p.root, [s], "ERROR", false, p.brings(t)))
    ensures KeySet(t.guard.value.requires_) <= have + p.brings(t)
    ensures Fits(p.keys, Running([s] + [t.to]), have + p.brings(t) + KeySet(t.guard.value.produces))
  {
    var g := t.guard.value;
    var e := Edge(Running([s] + [t.to]), p.brings(t) + KeySet(g.produces), NeedsOf(GuardPart, t, g.requires_, p.brings(t)));
    SurviveAppend(p.keys, have, LeaveEdges(p.root, [s], "ERROR", false, p.brings(t)), [e]);
    OneSurvives(p.keys, have, e);
    NeedsMean(GuardPart, t, g.requires_, p.brings(t), have);
    assert have + e.gain == have + p.brings(t) + KeySet(g.produces);
  }

  /** The child of the root flow, given the context of its parent. */
  function ChildOf(s: Sys): Sys
    requires s.flow.active.Some?
  {
    s.(flow := s.flow.active.value.(ctx := s.flow.ctx))
  }

  lemma ChildHeld(p: Plan, s: Sys)
    requires SafeRoot(p, s) && s.flow.active.Some?
    ensures Held(p, [s.flow.state], ChildOf(s)) && Parent(p, s.flow, ChildOf(s))
    ensures Fits(p.keys, Resting([s.flow.state] + [ChildOf(s).flow.state]), s.flow.ctx.Keys)
  {
    DefBelow(p.root, [], s.flow.state);
    assert [] + [s.flow.state] == [s.flow.state];
  }

  lemma ResumeGuardedSafe(cfg: Config, env: Env, p: Plan, s: Sys, t: Transition, g: Guard, have: set<Key>)
    requires Guaranteed(p) && Trusted(cfg, env, p.root) && SafeRoot(p, s) && s.flow.active.Some?
    requires Fits(p.keys, Resting([s.flow.state] + [ChildOf(s).flow.state]), have) && have + p.brings(t) <= s.flow.ctx.Keys
    requires t in ChildOf(s).flow.def.ExternalsFrom(ChildOf(s).flow.state) && t.guard == Some(g)
    ensures SafeRoot(p, ResumeGuarded(cfg, env, s, t, g).sys)
  {
    var parent, child := s.flow, ChildOf(s);
    var sub := child.flow;
    ChildHeld(p, s);
    ResumeChildSurvives(p, parent.state, sub.state, t, have);
    ChildGuardSurvives(p, parent.state, t, have);
    HonestChild(cfg, env, p.root, parent.state, sub.state, t);
    var called := Called(child, g.requires_);
    CalledSafe(child, g.requires_);
    match env.validate(g, sub.ctx, s.tick)
    case Accepted(data) =>
      var moved := MoveTo(sub, t.to, env.clock(s.tick)).(ctx := sub.ctx + data);
      ChildMoveSafe(cfg, env, p, parent, called, called.(flow := moved, log := s.log + [Record(s.id, sub.state, t.to, g.name)]),
        t.to, have + p.brings(t) + KeySet(g.produces));
    case Rejected =>
      AfterSubFlowSafe(cfg, env, p, Freed(parent, called), sub.def.name, "ERROR", true, p.brings(t), have);
    case Expired =>
    case Raised(error) =>
  }

  lemma ResumeSubFlowSafe(cfg: Config, env: Env, p: Plan, s: Sys, keys: set<Key>)
    requires Guaranteed(p) && Trusted(cfg, env, p.root) && SafeRoot(p, s) && s.flow.active.Some?
    requires Chosen(s.flow, keys).Some? ==> p.brings(Chosen(s.flow, keys).value) <= s.flow.ctx.Keys
    ensures SafeRoot(p, ResumeSubFlow(cfg, env, s, keys).sys)
  {
    var parent, child := s.flow, ChildOf(s);
    var sub := child.flow;
    ChildHeld(p, s);
    var externals := sub.def.ExternalsFrom(sub.state);
    SelectedIsExternal(externals, keys);
    var sel := Select(externals, keys);
    if externals != [] && sel.Selected? {
      var t, have := sel.transition, p.keys[Resting([parent.state] + [sub.state])];
      match t.guard
      case None =>
        ResumeChildSurvives(p, parent.state, sub.state, t, have);
        FitsAfter(p.keys, have, Running([parent.state] + [t.to]), p.brings(t));
        ChildMoveSafe(cfg, env, p, parent, child, child.(flow := MoveTo(sub, t.to, env.clock(s.tick))), t.to, have + p.brings(t));
      case Some(g) => ResumeGuardedSafe(cfg, env, p, s, t, g, have);
    }
  }

  // ---------- one call ----------

  /** The external transition an event selects, in the running sub-flow if there is one. */
  function Chosen(f: Flow, keys: set<Key>): Option<Transition> {
    var asked := if f.active.Some? then f.active.value else f;
    match Select(asked.def.ExternalsFrom(asked.state), keys)
    case Selected(t) => Some(t)
    case _ => None
  }

  lemma DeliverSafe(cfg: Config, env: Env, p: Plan, s: Sys, keys: set<Key>)
    requires Guaranteed(p) && Trusted(cfg, env, p.root) && SafeRoot(p, s)
    requires Chosen(s.flow, keys).Some? ==> p.brings(Chosen(s.flow, keys).value) <= s.flow.ctx.Keys
    ensures SafeRoot(p, Deliver(cfg, env, s, keys).sys)
  {
    if s.flow.active.Some? {
      ResumeSubFlowSafe(cfg, env, p, s, keys);
    } else {
      ResumeOwnSafe(cfg, env, p, s, keys);
    }
  }

  lemma ArrivalSafe(p: Plan, s: Sys, data: Ctx)
    requires SafeRoot(p, s)
    ensures SafeRoot(p, Arrived(s, data))
  {
    var more := (s.flow.ctx + data).Keys;
    if s.flow.active.Some? {
      ExitFitsMore(p, [s.flow.state], s.flow.active.value.exit, s.flow.ctx.Keys, more);
    }
  }

  /** Callers owe a resume the keys that go with the transition it selects. */
  ghost predicate Brought(brings: Supply, f: Flow, data: Ctx) {
    Chosen(f, data.Keys).Some? ==> brings(Chosen(f, data.Keys).value) <= data.Keys
  }

  lemma ChosenOnArrival(s: Sys, data: Ctx, keys: set<Key>)
    ensures Chosen(Arrived(s, data).flow, keys) == Chosen(s.flow, keys)
  {}

  lemma ResumeSafe(cfg: Config, env: Env, p: Plan, s: Sys, data: Ctx)
    requires Guaranteed(p) && Trusted(cfg, env, p.root) && SafeRoot(p, s) && Brought(p.brings, s.flow, data)
    ensures SafeRoot(p, Resume(cfg, env, s, data).sys)
  {
    var s1 := Arrived(s, data);
    ArrivalSafe(p, s, data);
    if env.clock(s.tick) > s.flow.expiresAt {
      assert Resume(cfg, env, s, data) == Result(s1.(flow := Complete(s1.flow, "EXPIRED")), None);
    } else {
      ChosenOnArrival(s, data, data.Keys);
      DeliverSafe(cfg, env, p, s1, data.Keys);
      assert Resume(cfg, env, s, data) == Deliver(cfg, env, s1, data.Keys);
    }
  }

  lemma StartSafe(cfg: Config, env: Env, p: Plan, id: FlowId, data: Ctx, tick: nat, log: seq<Record>, calls: seq<Call>)
    requires Guaranteed(p) && Trusted(cfg, env, p.root) && Supplied(calls)
    requires p.root.initial.Some? && Fits(p.keys, Running([p.root.initial.value]), data.Keys)
    ensures SafeRoot(p, Start(cfg, env, id, p.root, data, tick, log, calls).sys)
  {
    var now := env.clock(tick);
    var s := Sys(id, Flow(p.root, p.root.initial.value, data, 0, None, now, now + p.root.ttl, None), tick + 1, log, calls);
    assert [] + [p.root.initial.value] == [p.root.initial.value];
    ChainSafe(cfg, env, p, [], s, 0);
  }

  // ---------- whole runs ----------

  /** For each root definition in use, the keys guaranteed at its positions. */
  type Certs = map<FlowDef, Cert>

  ghost predicate Certified(cfg: Config, env: Env, brings: Supply, certs: Certs) {
    forall d | d in certs :: Guaranteed(Plan(d, brings, certs[d])) && Trusted(cfg, env, d)
  }

  /** What callers owe: the initial data at the start, and with each resume the keys of the transition it selects. */
  ghost predicate Dutiful(w: World, ev: Event, brings: Supply, certs: Certs) {
    match ev
    case StartFlow(id, def, data) =>
      def.initial.Some? ==> def in certs && Fits(certs[def], Running([def.initial.value]), data.Keys)
    case ResumeFlow(id, data) => Loadable(w, id) ==> Brought(brings, w.flows[id], data)
  }

  ghost predicate DutifulRun(cfg: Config, env: Env, evs: seq<Event>, brings: Supply, certs: Certs) {
    forall i | 0 <= i < |evs| :: Dutiful(Run(cfg, env, evs[..i]), evs[i], brings, certs)
  }

  ghost predicate SafeFlow(f: Flow, brings: Supply, certs: Certs) {
    f.def in certs && Rests(Plan(f.def, brings, certs[f.def]), [], f, f.ctx.Keys)
  }

  ghost predicate SafeWorld(w: World, brings: Supply, certs: Certs) {
    (forall id | id in w.flows :: SafeFlow(w.flows[id], brings, certs)) && Supplied(w.calls)
  }

  lemma ApplySafe(cfg: Config, env: Env, w: World, ev: Event, brings: Supply, certs: Certs)
    requires SafeWorld(w, brings, certs) && Certified(cfg, env, brings, certs) && Dutiful(w, ev, brings, certs)
    ensures SafeWorld(Apply(cfg, env, w, ev), brings, certs)
  {
    match ev
    case StartFlow(id, def, data) =>
      if id !in w.flows && def.initial.Some? {
        StartSafe(cfg, env, Plan(def, brings, certs[def]), id, data, w.tick, w.log, w.calls);
      }
    case ResumeFlow(id, data) =>
      if Loadable(w, id) {
        var f := w.flows[id];
        assert SafeFlow(f, brings, certs);
        ResumeSafe(cfg, env, Plan(f.def, brings, certs[f.def]), Sys(id, f, w.tick, w.log, w.calls), data);
      }
  }

  /** Run soundness: under any interleaving of starts and resumes, with components that may throw, reject or expire,
    * and sub-flows nested to any depth, every flow holds what its map guarantees where it rests, and every component
    * called found what it requires. */
  lemma {:induction false} RunsAreSafe(cfg: Config, env: Env, evs: seq<Event>, brings: Supply, certs: Certs)
    requires Certified(cfg, env, brings, certs) && DutifulRun(cfg, env, evs, brings, certs)
    ensures SafeWorld(Run(cfg, env, evs), brings, certs)
  {
    if evs != [] {
      var n := |evs| - 1;
      forall i | 0 <= i < n ensures Dutiful(Run(cfg, env, evs[..n][..i]), evs[..n][i], brings, certs) {
        assert evs[..n][..i] == evs[..i];
      }
      RunsAreSafe(cfg, env, evs[..n], brings, certs);
      ApplySafe(cfg, env, Run(cfg, env, evs[..n]), evs[n], brings, certs);
    }
  }
}
