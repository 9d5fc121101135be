/** What the calls of the engine leave in the transition log: over a run, a connected trail for each flow.
  * For definitions without sub-flows: a sub-flow records its own states under the parent's identifier. */
module Trails {
  import opened Definition
  import opened EngineModel
  import opened Builder
  import opened EngineFacts

  // ---------- connected trails ----------

  /** A move the definition allows: a transition, an `onError` target or an `onStepError` target. */
  ghost predicate IsMove(def: FlowDef, a: State, b: State) {
    || (exists t | t in def.transitions :: t.from == a && t.to == b)
    || (a in def.errorTransitions && def.errorTransitions[a] == b)
    || (a in def.exceptionRoutes && exists r | r in def.exceptionRoutes[a] :: r.target == b)
  }

  /** `rs` leads from `a` to `b`, each record starting where the one before ended. */
  ghost predicate Linked(def: FlowDef, a: State, rs: seq<Record>, b: State) {
    if rs == [] then a == b
    else
      var last := rs[|rs| - 1];
      last.to == b && IsMove(def, last.from, b) && Linked(def, a, rs[..|rs| - 1], last.from)
  }

  ghost predicate Changed(rs: seq<Record>) { exists r | r in rs :: r.from != r.to }

  lemma {:induction false} LinkedAppend(def: FlowDef, a: State, rs: seq<Record>, b: State, us: seq<Record>, c: State)
    requires Linked(def, a, rs, b) && Linked(def, b, us, c)
    ensures Linked(def, a, rs + us, c)
  {
    if us == [] {
      assert rs + us == rs;
    } else {
      var n := |us| - 1;
      LinkedAppend(def, a, rs, b, us[..n], us[n].from);
      assert (rs + us)[..|rs + us| - 1] == rs + us[..n];
    }
  }

  // ---------- what one call does ----------

  function News(s: Sys, r: Sys): seq<Record>
    requires |s.log| <= |r.log|
  {
    r.log[|s.log|..]
  }

  /** `r` continues `s`: the log grew by a trail of this flow from the old state to the new one, and the failure
    * count was kept, or reset by a change of state. */
  ghost predicate Continues(s: Sys, r: Sys) {
    && r.id == s.id && r.flow.def == s.flow.def && s.log <= r.log
    && (forall x | x in News(s, r) :: x.flowId == s.id)
    && Linked(s.flow.def, s.flow.state, News(s, r), r.flow.state)
    && r.flow.failures == if Changed(News(s, r)) then 0 else s.flow.failures
  }

  lemma ContinuesRefl(s: Sys, r: Sys)
    requires r.id == s.id && r.log == s.log && r.flow.def == s.flow.def
    requires r.flow.state == s.flow.state && r.flow.failures == s.flow.failures
    ensures Continues(s, r)
  {
    assert News(s, r) == [];
  }

  lemma ContinuesTrans(s: Sys, m: Sys, r: Sys)
    requires Continues(s, m) && Continues(m, r)
    ensures Continues(s, r)
  {
    assert News(s, r) == News(s, m) + News(m, r);
    LinkedAppend(s.flow.def, s.flow.state, News(s, m), m.flow.state, News(m, r), r.flow.state);
  }

  lemma OneRecord(s: Sys, r: Sys, to: State, trigger: string)
    requires r.id == s.id && r.flow.def == s.flow.def && r.log == s.log + [Record(s.id, s.flow.state, to, trigger)]
    requires r.flow.state == to && r.flow.failures == if s.flow.state != to then 0 else s.flow.failures
    requires IsMove(s.flow.def, s.flow.state, to)
    ensures Continues(s, r)
  {
    var x := Record(s.id, s.flow.state, to, trigger);
    assert News(s, r) == [x];
    assert [x][..0] == [];
    assert x in News(s, r);
  }

  lemma AdvanceContinues(env: Env, s: Sys, to: State, trigger: string)
    requires IsMove(s.flow.def, s.flow.state, to)
    ensures Continues(s, Advance(env, s, to, trigger))
  {
    OneRecord(s, Advance(env, s, to, trigger), to, trigger);
  }

  lemma MatchingRouteIn(env: Env, routes: seq<ErrorRoute>, cause: string)
    ensures MatchingRoute(env, routes, cause).Some? ==>
      exists r | r in routes :: r.target == MatchingRoute(env, routes, cause).value
  {
    if routes != [] && !env.instanceOf(cause, routes[0].errorClass) {
      MatchingRouteIn(env, routes[1..], cause);
      assert forall r | r in routes[1..] :: r in routes;
    } else if routes != [] {
      assert routes[0] in routes;
    }
  }

  lemma ErrorTargetIsMove(env: Env, def: FlowDef, from: State, cause: Option<string>)
    ensures ErrorTarget(env, def, from, cause).Some? ==> IsMove(def, from, ErrorTarget(env, def, from, cause).value.0)
  {
    if cause.Some? && from in def.exceptionRoutes { MatchingRouteIn(env, def.exceptionRoutes[from], cause.value); }
  }

  lemma HandleErrorContinues(env: Env, s: Sys, cause: Option<string>)
    ensures Continues(s, HandleError(env, s, cause))
  {
    var r := HandleError(env, s, cause);
    ErrorTargetIsMove(env, s.flow.def, s.flow.state, cause);
    match ErrorTarget(env, s.flow.def, s.flow.state, cause)
    case Some((target, trigger)) => OneRecord(s, r, target, trigger);
    case None => ContinuesRefl(s, r);
  }

  ghost predicate PassContinues(s: Sys, p: Pass) {
    match p
    case Halted => true
    case Moved(r) => Continues(s, r)
    case Failed(r) => Continues(s, r)
  }

  lemma RunProcessorContinues(env: Env, s: Sys, p: Option<Processor>, verify: bool)
    ensures PassContinues(s, RunProcessor(env, s, p, verify))
    ensures RunProcessor(env, s, p, verify).Moved? ==>
      var r := RunProcessor(env, s, p, verify).sys;
      r.flow.state == s.flow.state && r.flow.def == s.flow.def
  {
    match p
    case None => ContinuesRefl(s, s);
    case Some(proc) =>
      var s1 := Called(s, proc.requires_);
      ContinuesRefl(s, s1);
      match env.process(proc, s.flow.ctx, s.tick)
      case Threw(_, error) =>
        HandleErrorContinues(env, s1, Some(error));
        ContinuesTrans(s, s1, HandleError(env, s1, Some(error)));
      case Returned(puts) =>
        HandleErrorContinues(env, s1, Some("FlowError"));
        ContinuesTrans(s, s1, HandleError(env, s1, Some("FlowError")));
        ContinuesRefl(s, s1.(flow := s.flow.(ctx := s.flow.ctx + puts)));
  }

  lemma AutoPassContinues(cfg: Config, env: Env, s: Sys, t: Transition)
    requires t in s.flow.def.transitions && t.from == s.flow.state
    ensures PassContinues(s, AutoPass(cfg, env, s, t))
  {
    var verify := cfg.strictMode || s.flow.def.strictMode;
    RunProcessorContinues(env, s, t.processor, verify);
    var p := RunProcessor(env, s, t.processor, verify);
    if p.Moved? {
      var trigger := if t.processor.Some? then t.processor.value.name else "auto";
      AdvanceContinues(env, p.sys, t.to, trigger);
      ContinuesTrans(s, p.sys, Advance(env, p.sys, t.to, trigger));
    }
  }

  /** The transition that runs for a label leads where the label leads. */
  lemma LabelIsMove(def: FlowDef, s: State, t: Transition, l: Label)
    requires Built(def) && FirstChained(def.TransitionsFrom(s)) == Some(t) && t.kind == Branch && l in t.branchTargets
    ensures exists u | u in def.transitions :: u.from == s && u.to == t.branchTargets[l] && u.kind == Branch
  {
    var ts := def.TransitionsFrom(s);
    assert LabelsResolve(ts);
    var u := FirstLabelled(ts, l).value;
    FirstLabelledIn(ts, l, t.branchTargets[l]);
    LeavingIn(def.transitions, s, u);
  }

  lemma BranchPassContinues(env: Env, s: Sys, t: Transition)
    requires Built(s.flow.def) && t.kind == Branch && FirstChained(s.flow.def.TransitionsFrom(s.flow.state)) == Some(t)
    ensures PassContinues(s, BranchPass(env, s, s.flow.def.TransitionsFrom(s.flow.state), t))
  {
    var ts := s.flow.def.TransitionsFrom(s.flow.state);
    if t.branch.None? {
      HandleErrorContinues(env, s, Some("TypeError"));
    } else {
      var s1 := Called(s, t.branch.value.requires_);
      ContinuesRefl(s, s1);
      match env.decide(t.branch.value, s.flow.ctx, s.tick)
      case Undecided(error) =>
        HandleErrorContinues(env, s1, Some(error));
        ContinuesTrans(s, s1, HandleError(env, s1, Some(error)));
      case Decided(choice) =>
        if choice !in t.branchTargets {
          HandleErrorContinues(env, s1, Some("FlowError"));
          ContinuesTrans(s, s1, HandleError(env, s1, Some("FlowError")));
        } else {
          DecidedContinues(env, s1, ts, t, choice);
          var p := BranchPass(env, s, ts, t);
          if p.Moved? { ContinuesTrans(s, s1, p.sys); } else { ContinuesTrans(s, s1, p.sys); }
        }
    }
  }

  lemma DecidedContinues(env: Env, s: Sys, ts: seq<Transition>, t: Transition, choice: Label)
    requires Built(s.flow.def) && t.kind == Branch && ts == s.flow.def.TransitionsFrom(s.flow.state)
    requires FirstChained(ts) == Some(t) && choice in t.branchTargets && t.branch.Some?
    ensures var p := RunProcessor(env, s, Specific(ts, t, choice, t.branchTargets[choice]).processor, false);
      PassContinues(s, p)
      && (p.Moved? ==> Continues(s, Advance(env, p.sys, t.branchTargets[choice], t.branch.value.name + ":" + choice)))
  {
    var target := t.branchTargets[choice];
    var run := Specific(ts, t, choice, target);
    RunProcessorContinues(env, s, run.processor, false);
    var p := RunProcessor(env, s, run.processor, false);
    if p.Moved? {
      LabelIsMove(s.flow.def, s.flow.state, t, choice);
      AdvanceContinues(env, p.sys, target, t.branch.value.name + ":" + choice);
      ContinuesTrans(s, p.sys, Advance(env, p.sys, target, t.branch.value.name + ":" + choice));
    }
  }

  lemma ChainPassContinues(cfg: Config, env: Env, s: Sys)
    requires Built(s.flow.def)
    ensures PassContinues(s, ChainPass(cfg, env, s))
  {
    var ts := s.flow.def.TransitionsFrom(s.flow.state);
    FirstChainedIn(ts);
    match FirstChained(ts)
    case None =>
    case Some(t) =>
      LeavingIn(s.flow.def.transitions, s.flow.state, t);
      if t.kind == Auto { AutoPassContinues(cfg, env, s, t); } else { BranchPassContinues(env, s, t); }
  }

  lemma {:induction false} ChainContinues(cfg: Config, env: Env, s: Sys, depth: nat)
    requires Built(s.flow.def) && SubFlowFree(s.flow.def)
    ensures Continues(s, Chain(cfg, env, s, depth).sys)
    decreases if depth <= cfg.maxChainDepth then cfg.maxChainDepth - depth else 0
  {
    var r := Chain(cfg, env, s, depth);
    if depth >= cfg.maxChainDepth {
      ContinuesRefl(s, s);
    } else if s.flow.def.Terminal(s.flow.state) {
      ContinuesRefl(s, s.(flow := Complete(s.flow, s.flow.state)));
    } else {
      NoSubFlowHere(s.flow.def, s.flow.state);
      ChainPassContinues(cfg, env, s);
      match ChainPass(cfg, env, s)
      case Halted => ContinuesRefl(s, s);
      case Moved(s1) =>
        ContinuesRefl(s1, Tick(s1));
        ContinuesTrans(s, s1, Tick(s1));
        ChainContinues(cfg, env, Tick(s1), depth + 1);
        ContinuesTrans(s, Tick(s1), r.sys);
      case Failed(s1) =>
        ContinuesRefl(s1, Tick(s1));
        ContinuesTrans(s, s1, Tick(s1));
    }
  }

  // ---------- resuming ----------

  /** The resumption reaches a guard, and the guard rejects. */
  predicate Rejects(env: Env, s: Sys, data: Ctx) {
    var f := s.flow.(ctx := s.flow.ctx + data);
    var externals := f.def.ExternalsFrom(f.state);
    && env.clock(s.tick) <= f.expiresAt && externals != [] && Select(externals, data.Keys).Selected?
    && var t := Select(externals, data.Keys).transition;
      && !(t.timeout.Some? && env.clock(s.tick + 1) > f.enteredAt + t.timeout.value)
      && t.guard.Some? && env.validate(t.guard.value, f.ctx, s.tick + 1).Rejected?
  }

  /** A rejection counts as one more failure before anything else happens. */
  function Counted(env: Env, s: Sys, data: Ctx): Sys {
    if Rejects(env, s, data) then s.(flow := s.flow.(failures := s.flow.failures + 1)) else s
  }

  lemma ExternalIsMove(def: FlowDef, s: State, t: Transition)
    requires t in def.ExternalsFrom(s)
    ensures IsMove(def, s, t.to) && t in def.transitions && t.from == s
  {
    OfKindIn(def.TransitionsFrom(s), External, t);
    LeavingIn(def.transitions, s, t);
  }

  lemma MoveAndChain(cfg: Config, env: Env, s: Sys, m: Sys, to: State, trigger: string)
    requires Built(s.flow.def) && SubFlowFree(s.flow.def) && Continues(s, m) && m.flow.state == s.flow.state
    requires IsMove(s.flow.def, s.flow.state, to)
    ensures Continues(s, Chain(cfg, env, Tick(Advance(env, m, to, trigger)), 0).sys)
  {
    var a := Advance(env, m, to, trigger);
    AdvanceContinues(env, m, to, trigger);
    ContinuesTrans(s, m, a);
    ContinuesRefl(a, Tick(a));
    ContinuesTrans(s, a, Tick(a));
    ChainContinues(cfg, env, Tick(a), 0);
    ContinuesTrans(s, Tick(a), Chain(cfg, env, Tick(a), 0).sys);
  }

  lemma AcceptContinues(cfg: Config, env: Env, s: Sys, t: Transition, name: string, data: Ctx)
    requires Built(s.flow.def) && SubFlowFree(s.flow.def) && IsMove(s.flow.def, s.flow.state, t.to)
    ensures Continues(s, Accept(cfg, env, s, t, name, data).sys)
  {
    var withData := s.(flow := s.flow.(ctx := s.flow.ctx + data));
    match t.processor
    case None =>
      ContinuesRefl(s, withData);
      MoveAndChain(cfg, env, s, withData, t.to, name);
    case Some(p) =>
      var called := Called(withData, p.requires_);
      match env.process(p, withData.flow.ctx, s.tick)
      case Threw(_, error) =>
        var back := called.(flow := s.flow);
        ContinuesRefl(s, back);
        HandleErrorContinues(env, back, Some(error));
        ContinuesTrans(s, back, HandleError(env, back, Some(error)));
        ContinuesRefl(HandleError(env, back, Some(error)), Tick(HandleError(env, back, Some(error))));
        ContinuesTrans(s, HandleError(env, back, Some(error)), Tick(HandleError(env, back, Some(error))));
      case Returned(puts) =>
        var done := called.(flow := s.flow.(ctx := withData.flow.ctx + puts));
        ContinuesRefl(s, done);
        MoveAndChain(cfg, env, s, done, t.to, name);
  }

  lemma RejectContinues(env: Env, s: Sys)
    ensures Continues(s.(flow := s.flow.(failures := s.flow.failures + 1)), Tick(Reject(env, s)))
  {
    var counted := s.(flow := s.flow.(failures := s.flow.failures + 1));
    var r := Reject(env, s);
    if counted.flow.failures >= s.flow.def.maxGuardRetries {
      HandleErrorContinues(env, counted, None);
    } else {
      ContinuesRefl(counted, r);
    }
    ContinuesRefl(r, Tick(r));
    ContinuesTrans(counted, r, Tick(r));
  }

  lemma TakeContinues(cfg: Config, env: Env, s: Sys, t: Transition)
    requires Built(s.flow.def) && SubFlowFree(s.flow.def) && t in s.flow.def.ExternalsFrom(s.flow.state)
    ensures
      var rejected := t.guard.Some? && env.validate(t.guard.value, s.flow.ctx, s.tick).Rejected?;
      var from := if rejected then s.(flow := s.flow.(failures := s.flow.failures + 1)) else s;
      Continues(from, TakeExternal(cfg, env, s, t).sys)
  {
    ExternalIsMove(s.flow.def, s.flow.state, t);
    match t.guard
    case None =>
      ContinuesRefl(s, s);
      MoveAndChain(cfg, env, s, s, t.to, "external");
    case Some(g) =>
      var called := Called(s, g.requires_);
      ContinuesRefl(s, called);
      match env.validate(g, s.flow.ctx, s.tick)
      case Accepted(data) =>
        AcceptContinues(cfg, env, called, t, g.name, data);
        ContinuesTrans(s, called, Accept(cfg, env, called, t, g.name, data).sys);
      case Rejected =>
        var from := s.(flow := s.flow.(failures := s.flow.failures + 1));
        var mid := called.(flow := called.flow.(failures := called.flow.failures + 1));
        RejectContinues(env, called);
        ContinuesRefl(from, mid);
        ContinuesTrans(from, mid, Tick(Reject(env, called)));
      case Expired => ContinuesRefl(s, Tick(called.(flow := Complete(s.flow, "EXPIRED"))));
      case Raised(error) => ContinuesRefl(s, Tick(called));
  }

  lemma ContinuesAlike(from: Sys, mid: Sys, r: Sys)
    requires from.id == mid.id && from.log == mid.log && from.flow.def == mid.flow.def
    requires from.flow.state == mid.flow.state && from.flow.failures == mid.flow.failures && Continues(mid, r)
    ensures Continues(from, r)
  {
    ContinuesRefl(from, mid);
    ContinuesTrans(from, mid, r);
  }

  /** Whether an event in time that selects its transition is rejected. */
  lemma TakenRejects(env: Env, s: Sys, data: Ctx)
    requires env.clock(s.tick) <= s.flow.expiresAt
    requires Select(s.flow.def.ExternalsFrom(s.flow.state), data.Keys).Selected? && s.flow.def.ExternalsFrom(s.flow.state) != []
    ensures var t := Select(s.flow.def.ExternalsFrom(s.flow.state), data.Keys).transition;
      !(t.timeout.Some? && env.clock(s.tick + 1) > s.flow.enteredAt + t.timeout.value) ==>
        (Rejects(env, s, data) <==> t.guard.Some? && env.validate(t.guard.value, s.flow.ctx + data, s.tick + 1).Rejected?)
  {}

  /** `s1` is the flow after the external data arrived; a rejection starts from the counted failure. */
  lemma OwnContinues(cfg: Config, env: Env, s: Sys, data: Ctx)
    requires Built(s.flow.def) && SubFlowFree(s.flow.def) && s.flow.active.None?
    requires env.clock(s.tick) <= s.flow.expiresAt
    ensures var s1 := Arrived(s, data);
      Continues(Counted(env, s, data), ResumeOwn(cfg, env, s1, data.Keys).sys)
  {
    var s1 := Arrived(s, data);
    var externals := s1.flow.def.ExternalsFrom(s1.flow.state);
    var r := ResumeOwn(cfg, env, s1, data.Keys);
    SelectedIsExternal(externals, data.Keys);
    if externals == [] || !Select(externals, data.Keys).Selected? {
      ContinuesRefl(s, r.sys);
    } else {
      var t := Select(externals, data.Keys).transition;
      if t.timeout.Some? && env.clock(s1.tick) > s1.flow.enteredAt + t.timeout.value {
        ContinuesRefl(s, r.sys);
      } else {
        TakeContinues(cfg, env, s1, t);
        var rejected := t.guard.Some? && env.validate(t.guard.value, s1.flow.ctx, s1.tick).Rejected?;
        var mid := if rejected then s1.(flow := s1.flow.(failures := s1.flow.failures + 1)) else s1;
        assert Continues(mid, TakeExternal(cfg, env, s1, t).sys);
        TakenRejects(env, s, data);
        ContinuesAlike(Counted(env, s, data), mid, TakeExternal(cfg, env, s1, t).sys);
      }
    }
  }

  lemma LateContinues(cfg: Config, env: Env, s: Sys, data: Ctx)
    requires s.flow.active.None? && env.clock(s.tick) > s.flow.expiresAt
    ensures Continues(Counted(env, s, data), Resume(cfg, env, s, data).sys)
  {
    ContinuesRefl(s, Resume(cfg, env, s, data).sys);
  }

  lemma InTimeContinues(cfg: Config, env: Env, s: Sys, data: Ctx)
    requires Built(s.flow.def) && SubFlowFree(s.flow.def) && s.flow.active.None? && env.clock(s.tick) <= s.flow.expiresAt
    ensures Continues(Counted(env, s, data), Resume(cfg, env, s, data).sys)
  {
    ResumeInTime(cfg, env, s, data);
    OwnContinues(cfg, env, s, data);
  }

  lemma ResumeContinues(cfg: Config, env: Env, s: Sys, data: Ctx)
    requires Built(s.flow.def) && SubFlowFree(s.flow.def) && s.flow.active.None?
    ensures Continues(Counted(env, s, data), Resume(cfg, env, s, data).sys)
  {
    if env.clock(s.tick) > s.flow.expiresAt {
      LateContinues(cfg, env, s, data);
    } else {
      InTimeContinues(cfg, env, s, data);
    }
  }

  // ---------- whole runs ----------

  ghost predicate Plain(def: FlowDef) { Built(def) && SubFlowFree(def) }

  ghost predicate PlainEvents(evs: seq<Event>) {
    forall ev | ev in evs && ev.StartFlow? :: Plain(ev.def)
  }

  function Own(log: seq<Record>, id: FlowId): seq<Record> {
    if log == [] then []
    else
      var n := |log| - 1;
      if log[n].flowId == id then Own(log[..n], id) + [log[n]] else Own(log[..n], id)
  }

  lemma {:induction false} OwnAppend(log: seq<Record>, more: seq<Record>, id: FlowId)
    ensures Own(log + more, id) == Own(log, id) + Own(more, id)
  {
    if more == [] {
      assert log + more == log;
    } else {
      var n := |more| - 1;
      OwnAppend(log, more[..n], id);
      assert (log + more)[..|log + more| - 1] == log + more[..n];
    }
  }

  lemma {:induction false} OwnAllOrNone(log: seq<Record>, owner: FlowId, id: FlowId)
    requires forall x | x in log :: x.flowId == owner
    ensures Own(log, id) == if id == owner then log else []
  {
    if log != [] {
      var n := |log| - 1;
      OwnAllOrNone(log[..n], owner, id);
      assert log[n] in log;
      assert log == log[..n] + [log[n]];
    }
  }

  /** The log of each flow is a trail from its initial state to its current state; unknown flows have no records. */
  ghost predicate TrailsHold(w: World) {
    && (forall id | id in w.flows ::
          && Plain(w.flows[id].def) && w.flows[id].active.None? && w.flows[id].def.initial.Some?
          && Linked(w.flows[id].def, w.flows[id].def.initial.value, Own(w.log, id), w.flows[id].state))
    && (forall id | id !in w.flows :: Own(w.log, id) == [])
  }

  function SysOf(w: World, id: FlowId): Sys
    requires id in w.flows
  {
    Sys(id, w.flows[id], w.tick, w.log, w.calls)
  }

  /** The system a flow starts with. */
  function Fresh(env: Env, w: World, id: FlowId, def: FlowDef, data: Ctx): Sys
    requires def.initial.Some?
  {
    var now := env.clock(w.tick);
    Sys(id, Flow(def, def.initial.value, data, 0, None, now, now + def.ttl, None), w.tick + 1, w.log, w.calls)
  }

  /** One call: which flow it concerned, and the system it started from, rejection counted. */
  lemma ApplyContinues(cfg: Config, env: Env, w: World, ev: Event)
    requires TrailsHold(w) && PlainEvents([ev])
    ensures var w1 := Apply(cfg, env, w, ev);
      || w1 == w
      || (ev.StartFlow? && ev.id !in w.flows && ev.def.initial.Some?
          && Continues(Fresh(env, w, ev.id, ev.def, ev.data), Start(cfg, env, ev.id, ev.def, ev.data, w.tick, w.log, w.calls).sys)
          && w1 == Store(w, Start(cfg, env, ev.id, ev.def, ev.data, w.tick, w.log, w.calls)))
      || (ev.ResumeFlow? && Loadable(w, ev.id)
          && Continues(Counted(env, SysOf(w, ev.id), ev.data), Resume(cfg, env, SysOf(w, ev.id), ev.data).sys)
          && w1 == Store(w, Resume(cfg, env, SysOf(w, ev.id), ev.data)))
  {
    assert ev in [ev];
    match ev
    case StartFlow(id, def, data) =>
      if id !in w.flows && def.initial.Some? { ChainContinues(cfg, env, Fresh(env, w, id, def, data), 0); }
    case ResumeFlow(id, data) =>
      if Loadable(w, id) { ResumeContinues(cfg, env, SysOf(w, id), data); }
  }

  lemma StoredLog(w: World, s: Sys, r: Sys, id: FlowId)
    requires s.log == w.log && Continues(s, r)
    ensures Own(r.log, id) == if id == s.id then Own(w.log, id) + News(s, r) else Own(w.log, id)
  {
    var news := News(s, r);
    assert r.log == w.log + news;
    OwnAppend(w.log, news, id);
    OwnAllOrNone(news, s.id, id);
  }

  lemma StoreKeepsTrails(w: World, s: Sys, r: Result)
    requires TrailsHold(w) && s.log == w.log && Continues(s, r.sys)
    requires Plain(s.flow.def) && s.flow.def.initial.Some? && r.sys.flow.active.None?
    requires Linked(s.flow.def, s.flow.def.initial.value, Own(w.log, s.id), s.flow.state)
    ensures TrailsHold(Store(w, r))
  {
    forall id ensures Own(r.sys.log, id) == if id == s.id then Own(w.log, id) + News(s, r.sys) else Own(w.log, id) {
      StoredLog(w, s, r.sys, id);
    }
    LinkedAppend(s.flow.def, s.flow.def.initial.value, Own(w.log, s.id), s.flow.state, News(s, r.sys), r.sys.flow.state);
  }

  lemma StartKeepsTrails(cfg: Config, env: Env, w: World, ev: Event)
    requires TrailsHold(w) && PlainEvents([ev]) && ev.StartFlow? && Apply(cfg, env, w, ev) != w
    ensures TrailsHold(Apply(cfg, env, w, ev))
  {
    ApplyContinues(cfg, env, w, ev);
    assert ev in [ev];
    var s := Fresh(env, w, ev.id, ev.def, ev.data);
    ChainStaysFlat(cfg, env, s, 0);
    StoreKeepsTrails(w, s, Start(cfg, env, ev.id, ev.def, ev.data, w.tick, w.log, w.calls));
  }

  lemma ResumeKeepsTrails(cfg: Config, env: Env, w: World, ev: Event)
    requires TrailsHold(w) && PlainEvents([ev]) && ev.ResumeFlow? && Apply(cfg, env, w, ev) != w
    ensures TrailsHold(Apply(cfg, env, w, ev))
  {
    ApplyContinues(cfg, env, w, ev);
    var s := SysOf(w, ev.id);
    ResumeStaysFlat(cfg, env, s, ev.data);
    StoreKeepsTrails(w, Counted(env, s, ev.data), Resume(cfg, env, s, ev.data));
  }

  lemma ApplyKeepsTrails(cfg: Config, env: Env, w: World, ev: Event)
    requires TrailsHold(w) && PlainEvents([ev])
    ensures TrailsHold(Apply(cfg, env, w, ev))
  {
    if Apply(cfg, env, w, ev) != w {
      if ev.StartFlow? {
        StartKeepsTrails(cfg, env, w, ev);
      } else {
        ResumeKeepsTrails(cfg, env, w, ev);
      }
    }
  }

  /** Under any interleaving, the recorded transitions of each flow form a connected path of moves of its definition
    * from its initial state to its current state. */
  lemma {:induction false} RunsLeaveTrails(cfg: Config, env: Env, evs: seq<Event>)
    requires PlainEvents(evs)
    ensures TrailsHold(Run(cfg, env, evs))
  {
    if evs != [] {
      var n := |evs| - 1;
      RunsLeaveTrails(cfg, env, evs[..n]);
      ApplyKeepsTrails(cfg, env, Run(cfg, env, evs[..n]), evs[n]);
    }
  }
}
