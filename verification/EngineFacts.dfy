/** Facts about the engine's functions that several proofs use. */
module EngineFacts {
  import opened Definition
  import opened EngineModel

  ghost predicate SubFlowFree(def: FlowDef) {
    forall t | t in def.transitions :: t.kind != SubFlow && t.subFlow.None?
  }

  lemma {:induction false} NoSubFlowFound(ts: seq<Transition>)
    requires forall t | t in ts :: t.subFlow.None?
    ensures FirstSubFlow(ts).None?
  {
    if ts != [] {
      assert ts[0] in ts;
      NoSubFlowFound(ts[1..]);
    }
  }

  lemma NoSubFlowHere(def: FlowDef, s: State)
    requires SubFlowFree(def)
    ensures FirstSubFlow(def.TransitionsFrom(s)).None?
  {
    forall t | t in def.TransitionsFrom(s) ensures t in def.transitions { LeavingIn(def.transitions, s, t); }
    NoSubFlowFound(def.TransitionsFrom(s));
  }

  /** One iteration of the chain of a flow without sub-flows. */
  lemma ChainStep(cfg: Config, env: Env, s: Sys, depth: nat)
    requires SubFlowFree(s.flow.def) && depth < cfg.maxChainDepth && !s.flow.def.Terminal(s.flow.state)
    ensures Chain(cfg, env, s, depth)
      == match ChainPass(cfg, env, s)
         case Halted => Result(s, None)
         case Moved(s1) => Chain(cfg, env, Tick(s1), depth + 1)
         case Failed(s1) => Result(Tick(s1), None)
  {
    NoSubFlowHere(s.flow.def, s.flow.state);
  }

  lemma PassKeepsDef(cfg: Config, env: Env, s: Sys)
    ensures ChainPass(cfg, env, s).Moved? ==> ChainPass(cfg, env, s).sys.flow.def == s.flow.def
  {}

  lemma FirstLabelledIn(ts: seq<Transition>, choice: Label, target: State)
    ensures FirstLabelled(ts, choice).Some? ==> FirstLabelled(ts, choice).value in ts && FirstLabelled(ts, choice).value.kind == Branch
    ensures FirstBranchTo(ts, target).Some? ==> FirstBranchTo(ts, target).value in ts && FirstBranchTo(ts, target).value.kind == Branch
  {
    if ts != [] { FirstLabelledIn(ts[1..], choice, target); }
  }

  lemma SelectedIsExternal(externals: seq<Transition>, keys: set<Key>)
    ensures Select(externals, keys).Selected? ==> Select(externals, keys).transition in externals
  {
    if Select(externals, keys).Selected? {
      var t := Select(externals, keys).transition;
      if Explicit(externals) != [] {
        FilterIn(Explicit(externals), (t: Transition) => TriggeredBy(t, keys), t);
        FilterIn(externals, (t: Transition) => HasTrigger(t), t);
      } else if |externals| != 1 {
        var matches := Satisfied(externals, keys);
        var most := MaxSpecificity(matches);
        FilterIn(matches, (t: Transition) => Specificity(t) == most, t);
        FilterIn(externals, (t: Transition) => SatisfiedBy(t, keys), t);
      }
    }
  }

  lemma ChainPassKeepsActive(cfg: Config, env: Env, s: Sys)
    ensures ChainPass(cfg, env, s).Moved? ==> ChainPass(cfg, env, s).sys.flow.active == s.flow.active
    ensures ChainPass(cfg, env, s).Failed? ==> ChainPass(cfg, env, s).sys.flow.active == s.flow.active
  {}

  lemma {:induction false} ChainStaysFlat(cfg: Config, env: Env, s: Sys, depth: nat)
    requires SubFlowFree(s.flow.def) && s.flow.active.None?
    ensures Chain(cfg, env, s, depth).sys.flow.active.None?
    decreases if depth <= cfg.maxChainDepth then cfg.maxChainDepth - depth else 0
  {
    if depth < cfg.maxChainDepth && !s.flow.def.Terminal(s.flow.state) {
      var ts := s.flow.def.TransitionsFrom(s.flow.state);
      forall t | t in ts ensures t in s.flow.def.transitions { LeavingIn(s.flow.def.transitions, s.flow.state, t); }
      NoSubFlowFound(ts);
      ChainPassKeepsActive(cfg, env, s);
      var t := ChainTurn(cfg, env, s);
      if t.Next? { ChainStaysFlat(cfg, env, t.sys, depth + 1); }
    }
  }

  lemma TakeStaysFlat(cfg: Config, env: Env, s: Sys, t: Transition)
    requires SubFlowFree(s.flow.def) && s.flow.active.None?
    ensures var r := TakeExternal(cfg, env, s, t).sys; r.flow.active.None? && r.flow.def == s.flow.def && r.id == s.id
  {
    match t.guard
    case None => ChainStaysFlat(cfg, env, Tick(Advance(env, s, t.to, "external")), 0);
    case Some(g) =>
      var called := Called(s, g.requires_);
      match env.validate(g, s.flow.ctx, s.tick)
      case Accepted(data) =>
        var withData := called.(flow := s.flow.(ctx := s.flow.ctx + data));
        ChainStaysFlat(cfg, env, Tick(Advance(env, withData, t.to, g.name)), 0);
        if t.processor.Some? {
          var more := Called(withData, t.processor.value.requires_);
          match env.process(t.processor.value, withData.flow.ctx, s.tick)
          case Threw(_, _) =>
          case Returned(puts) =>
            var done := more.(flow := s.flow.(ctx := withData.flow.ctx + puts));
            ChainStaysFlat(cfg, env, Tick(Advance(env, done, t.to, g.name)), 0);
        }
      case Rejected =>
      case Expired =>
      case Raised(_) =>
  }

  /** A resume in time of a flow without a running sub-flow. */
  lemma ResumeInTime(cfg: Config, env: Env, s: Sys, data: Ctx)
    requires s.flow.active.None? && env.clock(s.tick) <= s.flow.expiresAt
    ensures Resume(cfg, env, s, data)
      == ResumeOwn(cfg, env, Arrived(s, data), data.Keys)
  {}

  lemma OwnStaysFlat(cfg: Config, env: Env, s: Sys, keys: set<Key>)
    requires SubFlowFree(s.flow.def) && s.flow.active.None?
    ensures var r := ResumeOwn(cfg, env, s, keys).sys; r.flow.active.None? && r.flow.def == s.flow.def && r.id == s.id
  {
    var externals := s.flow.def.ExternalsFrom(s.flow.state);
    if externals != [] && Select(externals, keys).Selected? {
      TakeStaysFlat(cfg, env, s, Select(externals, keys).transition);
    }
  }

  lemma ResumeStaysFlat(cfg: Config, env: Env, s: Sys, data: Ctx)
    requires SubFlowFree(s.flow.def) && s.flow.active.None?
    ensures var r := Resume(cfg, env, s, data).sys; r.flow.active.None? && r.flow.def == s.flow.def && r.id == s.id
  {
    if env.clock(s.tick) <= s.flow.expiresAt {
      ResumeInTime(cfg, env, s, data);
      OwnStaysFlat(cfg, env, Arrived(s, data), data.Keys);
    }
  }

  /** A state that is left by external transitions only. */
  ghost predicate WaitsIn(def: FlowDef, z: State) {
    !def.Terminal(z) && forall t | t in def.transitions && t.from == z :: t.kind == External
  }

  /** A chain stops in such a state. */
  lemma ChainStopsAt(cfg: Config, env: Env, s: Sys, depth: nat)
    requires WaitsIn(s.flow.def, s.flow.state) && depth < cfg.maxChainDepth
    ensures Chain(cfg, env, s, depth) == Result(s, None)
  {
    var ts := s.flow.def.TransitionsFrom(s.flow.state);
    forall t | t in ts ensures t.kind == External { LeavingIn(s.flow.def.transitions, s.flow.state, t); }
    FirstSubFlowIn(ts);
    FirstChainedIn(ts);
  }
}
