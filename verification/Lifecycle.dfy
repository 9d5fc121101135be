/** The life of a flow over a run: how it is completed, and that this is final; how failures are counted; and the states
  * it can occupy. */
module Lifecycle {
  import opened Definition
  import opened RequiresProduces
  import opened EngineModel
  import opened Builder
  import opened EngineFacts
  import opened Graphs
  import opened Trails
  import Searches

  // ---------- completion ----------

  /** A completed flow is not touched by any later call. */
  lemma CompletedIsFinal(cfg: Config, env: Env, w: World, ev: Event, id: FlowId)
    requires id in w.flows && w.flows[id].exit.Some?
    ensures id in Apply(cfg, env, w, ev).flows && Apply(cfg, env, w, ev).flows[id] == w.flows[id]
  {
    if ev.StartFlow? && ev.id !in w.flows && ev.def.initial.Some? {
      assert Start(cfg, env, ev.id, ev.def, ev.data, w.tick, w.log, w.calls).sys.id == ev.id;
    }
  }

  /** From the moment it completes, a flow is the same at the end of every longer run. */
  lemma {:induction false} CompletedForever(cfg: Config, env: Env, evs: seq<Event>, more: seq<Event>, id: FlowId)
    requires id in Run(cfg, env, evs).flows && Run(cfg, env, evs).flows[id].exit.Some?
    ensures id in Run(cfg, env, evs + more).flows
    ensures Run(cfg, env, evs + more).flows[id] == Run(cfg, env, evs).flows[id]
  {
    if more == [] {
      assert evs + more == evs;
    } else {
      var n := |more| - 1;
      CompletedForever(cfg, env, evs, more[..n], id);
      assert evs + more == (evs + more[..n]) + [more[n]];
      RunSnoc(cfg, env, evs + more[..n], more[n]);
      CompletedIsFinal(cfg, env, Run(cfg, env, evs + more[..n]), more[n], id);
    }
  }

  /** How a flow may have ended. */
  ghost predicate EndedWell(f: Flow) {
    f.exit.Some? ==>
      || (f.exit.value == f.state && f.def.Terminal(f.state))
      || f.exit.value == "EXPIRED" || f.exit.value == "TERMINAL_ERROR"
  }

  /** What holds of an unfinished flow after a call that returned normally. */
  ghost predicate Resting(f: Flow) { f.exit.None? ==> !f.def.Terminal(f.state) }

  lemma HandleErrorEnds(env: Env, s: Sys, cause: Option<string>)
    requires s.flow.exit.None?
    ensures var f := HandleError(env, s, cause).flow; EndedWell(f) && Resting(f)
  {}

  lemma RunProcessorEnds(env: Env, s: Sys, p: Option<Processor>, verify: bool)
    requires s.flow.exit.None?
    ensures var r := RunProcessor(env, s, p, verify);
      (r.Moved? ==> r.sys.flow.exit.None?) && (r.Failed? ==> EndedWell(r.sys.flow) && Resting(r.sys.flow))
  {
    if p.Some? {
      var s1 := Called(s, p.value.requires_);
      match env.process(p.value, s.flow.ctx, s.tick)
      case Threw(_, error) => HandleErrorEnds(env, s1, Some(error));
      case Returned(_) => HandleErrorEnds(env, s1, Some("FlowError"));
    }
  }

  lemma ChainPassEnds(cfg: Config, env: Env, s: Sys)
    requires s.flow.exit.None?
    ensures var p := ChainPass(cfg, env, s);
      (p.Moved? ==> p.sys.flow.exit.None?) && (p.Failed? ==> EndedWell(p.sys.flow) && Resting(p.sys.flow))
  {
    var ts := s.flow.def.TransitionsFrom(s.flow.state);
    match FirstChained(ts)
    case None =>
    case Some(t) =>
      if t.kind == Auto {
        RunProcessorEnds(env, s, t.processor, cfg.strictMode || s.flow.def.strictMode);
      } else if t.branch.None? {
        HandleErrorEnds(env, s, Some("TypeError"));
      } else {
        var s1 := Called(s, t.branch.value.requires_);
        match env.decide(t.branch.value, s.flow.ctx, s.tick)
        case Undecided(error) => HandleErrorEnds(env, s1, Some(error));
        case Decided(choice) =>
          HandleErrorEnds(env, s1, Some("FlowError"));
          if choice in t.branchTargets {
            RunProcessorEnds(env, s1, Specific(ts, t, choice, t.branchTargets[choice]).processor, false);
          }
      }
  }

  lemma {:induction false} ChainEnds(cfg: Config, env: Env, s: Sys, depth: nat)
    requires SubFlowFree(s.flow.def) && s.flow.exit.None?
    ensures var r := Chain(cfg, env, s, depth);
      EndedWell(r.sys.flow) && (r.thrown.None? ==> Resting(r.sys.flow))
    decreases if depth <= cfg.maxChainDepth then cfg.maxChainDepth - depth else 0
  {
    if depth < cfg.maxChainDepth && !s.flow.def.Terminal(s.flow.state) {
      ChainStep(cfg, env, s, depth);
      ChainPassEnds(cfg, env, s);
      PassKeepsDef(cfg, env, s);
      var p := ChainPass(cfg, env, s);
      if p.Moved? { ChainEnds(cfg, env, Tick(p.sys), depth + 1); }
    }
  }

  lemma TakeEnds(cfg: Config, env: Env, s: Sys, t: Transition)
    requires SubFlowFree(s.flow.def) && s.flow.exit.None?
    ensures var r := TakeExternal(cfg, env, s, t);
      EndedWell(r.sys.flow) && (r.thrown.None? && Resting(s.flow) ==> Resting(r.sys.flow))
  {
    match t.guard
    case None => ChainEnds(cfg, env, Tick(Advance(env, s, t.to, "external")), 0);
    case Some(g) =>
      var called := Called(s, g.requires_);
      match env.validate(g, s.flow.ctx, s.tick)
      case Accepted(data) =>
        var withData := called.(flow := s.flow.(ctx := s.flow.ctx + data));
        ChainEnds(cfg, env, Tick(Advance(env, withData, t.to, g.name)), 0);
        if t.processor.Some? {
          var more := Called(withData, t.processor.value.requires_);
          match env.process(t.processor.value, withData.flow.ctx, s.tick)
          case Threw(_, error) => HandleErrorEnds(env, more.(flow := s.flow), Some(error));
          case Returned(puts) =>
            ChainEnds(cfg, env, Tick(Advance(env, more.(flow := s.flow.(ctx := withData.flow.ctx + puts)), t.to, g.name)), 0);
        }
      case Rejected =>
        HandleErrorEnds(env, called.(flow := s.flow.(failures := s.flow.failures + 1)), None);
      case Expired =>
      case Raised(_) =>
  }

  /** A terminal state that `build()` accepts has nothing to resume, so resuming a flow stuck in one throws. */
  lemma NoExternalFromTerminal(def: FlowDef, s: State)
    requires TerminalsAreFinal(def) && def.Terminal(s)
    ensures def.ExternalsFrom(s) == []
  {
    if def.ExternalsFrom(s) != [] {
      var t := def.ExternalsFrom(s)[0];
      OfKindIn(def.TransitionsFrom(s), External, t);
      LeavingIn(def.transitions, s, t);
      assert false;
    }
  }

  lemma OwnEnds(cfg: Config, env: Env, s: Sys, keys: set<Key>)
    requires SubFlowFree(s.flow.def) && s.flow.active.None? && s.flow.exit.None?
    ensures var r := ResumeOwn(cfg, env, s, keys);
      EndedWell(r.sys.flow) && (r.thrown.None? && TerminalsAreFinal(s.flow.def) ==> Resting(r.sys.flow))
  {
    var externals := s.flow.def.ExternalsFrom(s.flow.state);
    if TerminalsAreFinal(s.flow.def) && s.flow.def.Terminal(s.flow.state) {
      NoExternalFromTerminal(s.flow.def, s.flow.state);
    }
    if externals != [] && Select(externals, keys).Selected? {
      TakeEnds(cfg, env, s, Select(externals, keys).transition);
    }
  }

  /** One resume: how the flow may have ended, and that a normal return leaves no unfinished flow in a terminal state. */
  lemma ResumeEnds(cfg: Config, env: Env, s: Sys, data: Ctx)
    requires SubFlowFree(s.flow.def) && s.flow.active.None? && s.flow.exit.None?
    ensures var r := Resume(cfg, env, s, data);
      EndedWell(r.sys.flow) && (r.thrown.None? && TerminalsAreFinal(s.flow.def) ==> Resting(r.sys.flow))
  {
    if env.clock(s.tick) <= s.flow.expiresAt {
      ResumeInTime(cfg, env, s, data);
      OwnEnds(cfg, env, Arrived(s, data), data.Keys);
    }
  }

  ghost predicate AllEndedWell(w: World) {
    forall id | id in w.flows :: Plain(w.flows[id].def) && w.flows[id].active.None? && EndedWell(w.flows[id])
  }

  lemma ApplyEndsWell(cfg: Config, env: Env, w: World, ev: Event)
    requires AllEndedWell(w) && PlainEvents([ev])
    ensures AllEndedWell(Apply(cfg, env, w, ev))
  {
    assert ev in [ev];
    match ev
    case StartFlow(id, def, data) =>
      if id !in w.flows && def.initial.Some? {
        ChainEnds(cfg, env, Fresh(env, w, id, def, data), 0);
        ChainStaysFlat(cfg, env, Fresh(env, w, id, def, data), 0);
      }
    case ResumeFlow(id, data) =>
      if Loadable(w, id) {
        ResumeEnds(cfg, env, SysOf(w, id), data);
        ResumeStaysFlat(cfg, env, SysOf(w, id), data);
      }
  }

  /** In every run, a completed flow ended in its current terminal state, expired, or with a terminal error. */
  lemma {:induction false} RunsEndWell(cfg: Config, env: Env, evs: seq<Event>)
    requires PlainEvents(evs)
    ensures AllEndedWell(Run(cfg, env, evs))
  {
    if evs != [] {
      var n := |evs| - 1;
      RunsEndWell(cfg, env, evs[..n]);
      ApplyEndsWell(cfg, env, Run(cfg, env, evs[..n]), evs[n]);
    }
  }

  // ---------- guard failures ----------

  /** Rejections of flow `id` since its state last changed, counted over the events alone. */
  ghost function Streak(cfg: Config, env: Env, evs: seq<Event>, id: FlowId): nat {
    if evs == [] then 0
    else
      var n := |evs| - 1;
      var w, w1, ev := Run(cfg, env, evs[..n]), Run(cfg, env, evs), evs[n];
      if |w.log| <= |w1.log| && Changed(Own(w1.log[|w.log|..], id)) then 0
      else if ev.ResumeFlow? && ev.id == id && Loadable(w, id) && Rejects(env, SysOf(w, id), ev.data) then
        Streak(cfg, env, evs[..n], id) + 1
      else Streak(cfg, env, evs[..n], id)
  }

  lemma StoredFailures(w: World, s: Sys, r: Result, id: FlowId)
    requires s.log == w.log && Continues(s, r.sys)
    ensures var w1 := Store(w, r);
      && |w.log| <= |w1.log|
      && Own(w1.log[|w.log|..], id) == (if id == s.id then News(s, r.sys) else [])
      && w1.flows[s.id].failures == (if Changed(News(s, r.sys)) then 0 else s.flow.failures)
  {
    OwnAllOrNone(News(s, r.sys), s.id, id);
  }

  /** The failure count of a flow is the number of rejections since its last change of state. */
  lemma {:induction false} FailuresAreStreaks(cfg: Config, env: Env, evs: seq<Event>, id: FlowId)
    requires PlainEvents(evs)
    ensures id in Run(cfg, env, evs).flows ==> Run(cfg, env, evs).flows[id].failures == Streak(cfg, env, evs, id)
    ensures id !in Run(cfg, env, evs).flows ==> Streak(cfg, env, evs, id) == 0
  {
    if evs != [] {
      var n := |evs| - 1;
      FailuresAreStreaks(cfg, env, evs[..n], id);
      RunsLeaveTrails(cfg, env, evs[..n]);
      if Apply(cfg, env, Run(cfg, env, evs[..n]), evs[n]) == Run(cfg, env, evs[..n]) {
        IdleKeepsStreak(cfg, env, evs, id);
      } else {
        ApplyFailures(cfg, env, Run(cfg, env, evs[..n]), evs[n], id);
      }
    }
  }

  /** A call that changes nothing counts no rejection. */
  lemma IdleKeepsStreak(cfg: Config, env: Env, evs: seq<Event>, id: FlowId)
    requires evs != [] && TrailsHold(Run(cfg, env, evs[..|evs| - 1])) && PlainEvents(evs)
    requires var w := Run(cfg, env, evs[..|evs| - 1]); Apply(cfg, env, w, evs[|evs| - 1]) == w
    ensures Run(cfg, env, evs) == Run(cfg, env, evs[..|evs| - 1]) && Streak(cfg, env, evs, id) == Streak(cfg, env, evs[..|evs| - 1], id)
  {
    var w, ev := Run(cfg, env, evs[..|evs| - 1]), evs[|evs| - 1];
    assert w.log[|w.log|..] == [];
    UnchangedMeansNoRejection(cfg, env, w, ev);
  }

  /** The failure count an event gives its flow, from the new records alone. */
  ghost function FailuresAfter(env: Env, w: World, ev: Event, news: seq<Record>): nat {
    if Changed(Own(news, ev.id)) || ev.id !in w.flows then 0
    else if ev.ResumeFlow? && Rejects(env, SysOf(w, ev.id), ev.data) then w.flows[ev.id].failures + 1
    else w.flows[ev.id].failures
  }

  /** One effective call: its new records of a flow, and what it does to that flow's failure count. */
  lemma ApplyFailures(cfg: Config, env: Env, w: World, ev: Event, id: FlowId)
    requires TrailsHold(w) && PlainEvents([ev]) && Apply(cfg, env, w, ev) != w
    ensures var w1 := Apply(cfg, env, w, ev);
      && |w.log| <= |w1.log|
      && (id in w1.flows <==> id in w.flows || ev.id == id)
      && (id in w.flows && ev.id != id ==> w1.flows[id] == w.flows[id] && Own(w1.log[|w.log|..], id) == [])
      && (id !in w.flows && ev.id != id ==> Own(w1.log[|w.log|..], id) == [])
      && (ev.id == id ==> w1.flows[id].failures == FailuresAfter(env, w, ev, w1.log[|w.log|..]))
      && (ev.id == id && id in w.flows ==> ev.ResumeFlow? && Loadable(w, id))
      && (ev.id == id && id !in w.flows ==> ev.StartFlow?)
  {
    ApplyContinues(cfg, env, w, ev);
    if ev.StartFlow? {
      StoredFailures(w, Fresh(env, w, ev.id, ev.def, ev.data),
                     Start(cfg, env, ev.id, ev.def, ev.data, w.tick, w.log, w.calls), id);
    } else {
      StoredFailures(w, Counted(env, SysOf(w, ev.id), ev.data), Resume(cfg, env, SysOf(w, ev.id), ev.data), id);
    }
  }

  lemma UnchangedMeansNoRejection(cfg: Config, env: Env, w: World, ev: Event)
    requires TrailsHold(w) && Apply(cfg, env, w, ev) == w
    ensures ev.ResumeFlow? && Loadable(w, ev.id) ==> !Rejects(env, SysOf(w, ev.id), ev.data)
  {
    if ev.ResumeFlow? && Loadable(w, ev.id) && Rejects(env, SysOf(w, ev.id), ev.data) {
      RejectTicks(cfg, env, SysOf(w, ev.id), ev.data);
      assert false;
    }
  }

  /** What a rejected call computes. */
  lemma RejectedCall(cfg: Config, env: Env, s: Sys, data: Ctx) returns (called: Sys)
    requires s.flow.active.None? && Rejects(env, s, data)
    ensures Resume(cfg, env, s, data) == Result(Tick(Reject(env, called)), None)
    ensures called.tick == s.tick + 1 && called.flow == s.flow.(ctx := s.flow.ctx + data)
  {
    var s1 := Arrived(s, data);
    var externals := s1.flow.def.ExternalsFrom(s1.flow.state);
    var t := Select(externals, data.Keys).transition;
    ResumeInTime(cfg, env, s, data);
    assert ResumeOwn(cfg, env, s1, data.Keys) == TakeExternal(cfg, env, s1, t);
    called := Called(s1, t.guard.value.requires_);
    assert TakeExternal(cfg, env, s1, t) == Result(Tick(Reject(env, called)), None);
  }

  /** A rejection always moves the tick, so it never leaves the store as it was. */
  lemma RejectTicks(cfg: Config, env: Env, s: Sys, data: Ctx)
    requires s.flow.active.None? && Rejects(env, s, data)
    ensures Resume(cfg, env, s, data).sys.tick > s.tick
  {
    var called := RejectedCall(cfg, env, s, data);
  }

  ghost predicate NoSelfError(def: FlowDef) {
    forall s | s in def.errorTransitions :: def.errorTransitions[s] != s
  }

  function RetryBound(def: FlowDef): int { if def.maxGuardRetries > 1 then def.maxGuardRetries else 1 }

  /** After a rejected call, an unfinished flow has fewer failures than the limit, unless an error leads back to its state. */
  lemma RejectionStaysBelow(cfg: Config, env: Env, s: Sys, data: Ctx)
    requires SubFlowFree(s.flow.def) && s.flow.active.None? && NoSelfError(s.flow.def) && s.flow.exit.None? && Rejects(env, s, data)
    ensures var f := Resume(cfg, env, s, data).sys.flow; f.exit.None? ==> f.failures < RetryBound(s.flow.def)
  {
    var called := RejectedCall(cfg, env, s, data);
    RejectBelow(env, called);
  }

  lemma RejectBelow(env: Env, s: Sys)
    requires NoSelfError(s.flow.def) && s.flow.exit.None?
    ensures var f := Reject(env, s).flow; f.exit.None? ==> f.failures < RetryBound(s.flow.def)
  {}

  /** While it is unfinished, a flow has fewer failures than max(1, maxGuardRetries). */
  lemma {:induction false} FailuresStayBelow(cfg: Config, env: Env, evs: seq<Event>, id: FlowId)
    requires PlainEvents(evs) && forall ev | ev in evs && ev.StartFlow? :: NoSelfError(ev.def)
    ensures var w := Run(cfg, env, evs);
      id in w.flows ==> NoSelfError(w.flows[id].def) && (w.flows[id].exit.None? ==> w.flows[id].failures < RetryBound(w.flows[id].def))
  {
    if evs != [] {
      var n := |evs| - 1;
      FailuresStayBelow(cfg, env, evs[..n], id);
      RunsLeaveTrails(cfg, env, evs[..n]);
      var w, ev := Run(cfg, env, evs[..n]), evs[n];
      ApplyContinues(cfg, env, w, ev);
      var w1 := Apply(cfg, env, w, ev);
      if w1 != w && ev.ResumeFlow? && ev.id == id {
        var s := SysOf(w, id);
        StoredFailures(w, Counted(env, s, ev.data), Resume(cfg, env, s, ev.data), id);
        if Rejects(env, s, ev.data) { RejectionStaysBelow(cfg, env, s, ev.data); }
      }
    }
  }

  // ---------- the states a run occupies ----------

  lemma MoveIsStep(def: FlowDef, a: State, b: State)
    requires WellTyped(def) && Plain(def) && def.exceptionRoutes == map[] && IsMove(def, a, b)
    ensures b in Succ(Searches.StepGraph(def), a)
  {
    if t :| t in def.transitions && t.from == a && t.to == b {
      LeavingIn(def.transitions, a, t);
      var ts := def.TransitionsFrom(a);
      var i :| 0 <= i < |ts| && ts[i] == t;
      Searches.TargetsSubset(ts, i);
    }
  }

  lemma {:induction false} LinkedReaches(def: FlowDef, a: State, rs: seq<Record>, b: State)
    requires WellTyped(def) && Plain(def) && def.exceptionRoutes == map[] && Linked(def, a, rs, b)
    ensures Reach(Searches.StepGraph(def), a, b)
  {
    if rs == [] {
      ReachRefl(Searches.StepGraph(def), a);
    } else {
      var last := rs[|rs| - 1];
      LinkedReaches(def, a, rs[..|rs| - 1], last.from);
      MoveIsStep(def, last.from, b);
      ReachStep(Searches.StepGraph(def), a, last.from, b);
    }
  }

  /** Without exception routes, every state a flow occupies in any run is one the reachability check visits. */
  lemma OccupiedIsReachable(cfg: Config, env: Env, evs: seq<Event>, id: FlowId)
    requires PlainEvents(evs) && id in Run(cfg, env, evs).flows
    requires var def := Run(cfg, env, evs).flows[id].def; WellTyped(def) && def.exceptionRoutes == map[]
    ensures var f := Run(cfg, env, evs).flows[id];
      f.def.initial.Some? && Reach(Searches.StepGraph(f.def), f.def.initial.value, f.state)
  {
    RunsLeaveTrails(cfg, env, evs);
    var w := Run(cfg, env, evs);
    LinkedReaches(w.flows[id].def, w.flows[id].def.initial.value, Own(w.log, id), w.flows[id].state);
  }
}
