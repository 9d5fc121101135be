/** The engine as the program writes it: methods that update a flow, its context and the store in place.
  * Each is proved to compute the function of `EngineModel` it is paired with. */
module Engine {
  import opened Definition
  import opened EngineModel
  import opened FlowObjects

  /** Two views of a parent that differ in its context and its sub-flow only: both come back from the sub-flow. */
  ghost predicate SameParent(p: Flow, q: Flow) { p.(ctx := map[], active := None) == q.(ctx := map[], active := None) }

  lemma ParentIsForgotten(cfg: Config, env: Env, p: Flow, q: Flow, sub: Sys)
    requires SameParent(p, q)
    ensures ContinueSubFlow(cfg, env, p, sub) == ContinueSubFlow(cfg, env, q, sub)
  {
    forall s: Sys ensures Waits(p, s) == Waits(q, s) && Freed(p, s) == Freed(q, s) {}
  }

  class FlowEngine {
    const cfg: Config
    const env: Env
    const store: InMemoryFlowStore
    /** Counts the steps taken; the behaviour of components and of the clock may depend on it. */
    var tick: nat
    /** Every processor, guard and branch called so far. */
    ghost var calls: seq<Call>

    constructor (cfg: Config, env: Env, store: InMemoryFlowStore)
      ensures this.cfg == cfg && this.env == env && this.store == store && tick == 0 && calls == []
    {
      this.cfg, this.env, this.store, tick, calls := cfg, env, store, 0, [];
    }

    /** What a call of the engine on `flow` can see and change. */
    ghost function Seen(flow: FlowInstance): Sys
      requires flow.Valid()
      reads this, store, flow, flow.Repr, flow.context
    {
      Sys(flow.id, flow.View(), tick, store.transitionLog, calls)
    }

    // ---------- one move ----------

    method FireExit(flow: FlowInstance, state: State)
      modifies flow.context
      ensures flow.context.attributes == old(flow.context.attributes) + env.onExit(flow.definition, state, old(flow.context.attributes), tick)
    {
      flow.context.PutAll(env.onExit(flow.definition, state, flow.context.attributes, tick));
    }

    method FireEnter(flow: FlowInstance, state: State)
      modifies flow.context
      ensures flow.context.attributes == old(flow.context.attributes) + env.onEnter(flow.definition, state, old(flow.context.attributes), tick)
    {
      flow.context.PutAll(env.onEnter(flow.definition, state, flow.context.attributes, tick));
    }

    /** Exit action, transition, enter action, record: the four calls every regular move makes. */
    method MoveOn(flow: FlowInstance, to: State, trigger: string)
      requires flow.Valid()
      modifies store`transitionLog, flow, flow.context
      ensures flow.Valid() && flow.Repr == old(flow.Repr) && flow.activeSubFlow == old(flow.activeSubFlow)
      ensures Seen(flow) == Advance(env, old(Seen(flow)), to, trigger)
    {
      var from := flow.currentState;
      FireExit(flow, from);
      flow.TransitionTo(to, env.clock(tick));
      FireEnter(flow, to);
      store.RecordTransition(flow.id, from, to, trigger);
    }

    method RouteError(flow: FlowInstance, target: State, trigger: string)
      requires flow.Valid()
      modifies store`transitionLog, flow
      ensures flow.Valid() && flow.Repr == old(flow.Repr) && flow.activeSubFlow == old(flow.activeSubFlow)
      ensures var moved := MoveTo(old(flow.Frame()), target, env.clock(tick));
        flow.Frame() == if flow.definition.Terminal(target) then Complete(moved, target) else moved
      ensures store.transitionLog == old(store.transitionLog) + [Record(flow.id, old(flow.currentState), target, trigger)]
    {
      var from := flow.currentState;
      flow.TransitionTo(target, env.clock(tick));
      store.RecordTransition(flow.id, from, target, trigger);
      if target in flow.definition.terminals { flow.Complete(target); }
    }

    method HandleError(flow: FlowInstance, cause: Option<string>)
      requires flow.Valid()
      modifies store`transitionLog, flow
      ensures flow.Valid() && flow.Repr == old(flow.Repr) && flow.activeSubFlow == old(flow.activeSubFlow)
      ensures Seen(flow) == EngineModel.HandleError(env, old(Seen(flow)), cause)
    {
      var fromState := flow.currentState;
      if cause.Some? && fromState in flow.definition.exceptionRoutes {
        var routes := flow.definition.exceptionRoutes[fromState];
        var i := 0;
        while i < |routes|
          invariant 0 <= i <= |routes|
          invariant MatchingRoute(env, routes, cause.value) == MatchingRoute(env, routes[i..], cause.value)
        {
          if env.instanceOf(cause.value, routes[i].errorClass) {
            RouteError(flow, routes[i].target, "error:" + cause.value);
            return;
          }
          i := i + 1;
        }
      }
      if fromState in flow.definition.errorTransitions {
        RouteError(flow, flow.definition.errorTransitions[fromState], "error");
      } else {
        flow.Complete("TERMINAL_ERROR");
      }
    }

    // ---------- processors ----------

    /** The first declared key that is missing raises. */
    method VerifyProduces(p: Processor, context: FlowContext) returns (error: Option<string>)
      ensures error == if KeySet(p.produces) <= context.attributes.Keys then None else Some("FlowError")
    {
      var i := 0;
      while i < |p.produces|
        invariant 0 <= i <= |p.produces|
        invariant forall j | 0 <= j < i :: p.produces[j] in context.attributes
      {
        if p.produces[i] !in context.attributes {
          assert p.produces[i] in KeySet(p.produces);
          return Some("FlowError");
        }
        i := i + 1;
      }
      return None;
    }

    /** Runs a processor on the context, which keeps what it put even when it throws. */
    method Process(p: Processor, context: FlowContext, verify: bool) returns (error: Option<string>)
      modifies context, this`calls
      ensures calls == old(calls) + [Call(KeySet(p.requires_), old(context.attributes).Keys)]
      ensures match env.process(p, old(context.attributes), tick)
        case Threw(puts, e) => error == Some(e)
        case Returned(puts) =>
          && context.attributes == old(context.attributes) + puts
          && error == if verify && !(KeySet(p.produces) <= context.attributes.Keys) then Some("FlowError") else None
    {
      calls := calls + [Call(KeySet(p.requires_), context.attributes.Keys)];
      match env.process(p, context.attributes, tick)
      case Threw(puts, e) =>
        context.PutAll(puts);
        error := Some(e);
      case Returned(puts) =>
        context.PutAll(puts);
        error := None;
        if verify { error := VerifyProduces(p, context); }
    }

    /** Runs an optional processor inside `try`: an error restores the context and is routed. */
    method TryProcessor(flow: FlowInstance, p: Option<Processor>, verify: bool) returns (ok: bool)
      requires flow.Valid()
      modifies this`calls, store`transitionLog, flow, flow.context
      ensures flow.Valid() && flow.Repr == old(flow.Repr) && flow.activeSubFlow == old(flow.activeSubFlow)
      ensures RunProcessor(env, old(Seen(flow)), p, verify) == if ok then Moved(Seen(flow)) else Failed(Seen(flow))
      ensures !ok ==> flow.context.attributes == old(flow.context.attributes)
    {
      if p.None? { return true; }
      var backup := flow.context.Snapshot();
      var error := Process(p.value, flow.context, verify);
      if error.None? { return true; }
      flow.context.RestoreFrom(backup);
      HandleError(flow, error);
      return false;
    }

    // ---------- the auto-chain ----------

    method AutoStep(flow: FlowInstance, t: Transition) returns (ok: bool)
      requires flow.Valid()
      modifies this`calls, store`transitionLog, flow, flow.context
      ensures flow.Valid() && flow.Repr == old(flow.Repr) && flow.activeSubFlow == old(flow.activeSubFlow)
      ensures AutoPass(cfg, env, old(Seen(flow)), t) == if ok then Moved(Seen(flow)) else Failed(Seen(flow))
    {
      ok := TryProcessor(flow, t.processor, cfg.strictMode || flow.definition.strictMode);
      if ok { MoveOn(flow, t.to, if t.processor.Some? then t.processor.value.name else "auto"); }
    }

    method BranchStep(flow: FlowInstance, ts: seq<Transition>, t: Transition) returns (ok: bool)
      requires flow.Valid()
      modifies this`calls, store`transitionLog, flow, flow.context
      ensures flow.Valid() && flow.Repr == old(flow.Repr) && flow.activeSubFlow == old(flow.activeSubFlow)
      ensures BranchPass(env, old(Seen(flow)), ts, t) == if ok then Moved(Seen(flow)) else Failed(Seen(flow))
    {
      if t.branch.None? {
        HandleError(flow, Some("TypeError"));
        return false;
      }
      calls := calls + [Call(KeySet(t.branch.value.requires_), flow.context.attributes.Keys)];
      match env.decide(t.branch.value, flow.context.attributes, tick)
      case Undecided(error) =>
        HandleError(flow, Some(error));
        ok := false;
      case Decided(choice) =>
        if choice !in t.branchTargets {
          HandleError(flow, Some("FlowError"));
          return false;
        }
        var target := t.branchTargets[choice];
        ok := TryProcessor(flow, Specific(ts, t, choice, target).processor, false);
        if ok { MoveOn(flow, target, t.branch.value.name + ":" + choice); }
    }

    /** The regular transition of the current state, if there is one: `halted` when there is none. */
    method AutoOrBranch(flow: FlowInstance, ts: seq<Transition>) returns (halted: bool, ok: bool)
      requires flow.Valid() && ts == flow.definition.TransitionsFrom(flow.currentState)
      modifies this`calls, store`transitionLog, flow, flow.context
      ensures flow.Valid() && flow.Repr == old(flow.Repr) && flow.activeSubFlow == old(flow.activeSubFlow)
      ensures ChainPass(cfg, env, old(Seen(flow))) == if halted then Halted else if ok then Moved(Seen(flow)) else Failed(Seen(flow))
      ensures halted ==> Seen(flow) == old(Seen(flow))
    {
      var autoOrBranch := FirstChained(ts);
      if autoOrBranch.None? { return true, true; }
      if autoOrBranch.value.kind == Auto {
        ok := AutoStep(flow, autoOrBranch.value);
      } else {
        ok := BranchStep(flow, ts, autoOrBranch.value);
      }
      halted := false;
    }

    /** One iteration of the chain loop in a non-terminal state; `advanced` is 0 when the loop is to be left. */
    method TakeTurn(flow: FlowInstance) returns (advanced: nat, thrown: Option<string>)
      requires flow.Valid()
      modifies this, store`transitionLog, flow, flow.context
      ensures flow.Valid() && fresh(flow.Repr - old(flow.Repr))
      ensures advanced <= 1 && (thrown.Some? ==> advanced == 0)
      ensures ChainTurn(cfg, env, old(Seen(flow)))
        == if advanced == 0 then Stop(Result(Seen(flow), thrown)) else Next(Seen(flow))
      decreases flow.definition, 1
    {
      var transitions := flow.definition.TransitionsFrom(flow.currentState);
      var subFlowT := FirstSubFlow(transitions);
      if subFlowT.Some? {
        NestedIsSmaller(flow.definition, flow.currentState);
        advanced, thrown := ExecuteSubFlow(flow, subFlowT.value.subFlow.value);
      } else {
        var halted, ok := AutoOrBranch(flow, transitions);
        if halted { return 0, None; }
        tick := tick + 1;
        return if ok then 1 else 0, None;
      }
    }

    method ExecuteAutoChain(flow: FlowInstance) returns (thrown: Option<string>)
      requires flow.Valid()
      modifies this, store`transitionLog, flow, flow.context
      ensures flow.Valid() && fresh(flow.Repr - old(flow.Repr))
      ensures Result(Seen(flow), thrown) == Chain(cfg, env, old(Seen(flow)), 0)
      decreases flow.definition, 2
    {
      var depth := 0;
      while depth < cfg.maxChainDepth
        invariant flow.Valid() && fresh(flow.Repr - old(flow.Repr))
        invariant Chain(cfg, env, Seen(flow), depth) == Chain(cfg, env, old(Seen(flow)), 0)
      {
        if flow.currentState in flow.definition.terminals {
          flow.Complete(flow.currentState);
          return None;
        }
        ChainGoesOn(cfg, env, Seen(flow), depth);
        var advanced, error := TakeTurn(flow);
        if advanced == 0 { return error; }
        depth := depth + advanced;
      }
      return Some("MAX_CHAIN_DEPTH");
    }

    /** The sub-flow runs on the context of its parent, under its identifier. */
    method EnterSubFlow(flow: FlowInstance, sub: FlowDef) returns (child: FlowInstance)
      requires flow.Valid() && sub.initial.Some?
      modifies this`tick, flow
      ensures flow.Valid() && flow.activeSubFlow == child && flow.Repr == {flow, child} && fresh(child)
      ensures Seen(child) == StartSubFlow(env, old(Seen(flow)), sub)
      ensures flow.View() == old(flow.View()).(active := Some(child.Frame()))
    {
      child := new FlowInstance(flow.id, sub, flow.context, sub.initial.value, env.clock(tick), flow.expiresAt);
      flow.SetActiveSubFlow(child);
      tick := tick + 1;
    }

    method ExecuteSubFlow(flow: FlowInstance, link: SubFlowLink) returns (advanced: nat, thrown: Option<string>)
      requires flow.Valid() && link.definition < flow.definition
      modifies this, store`transitionLog, flow, flow.context
      ensures flow.Valid() && fresh(flow.Repr - old(flow.Repr))
      ensures advanced <= 1 && (thrown.Some? ==> advanced == 0)
      ensures SubFlowTurn(cfg, env, old(Seen(flow)), link)
        == if advanced == 0 then Stop(Result(Seen(flow), thrown)) else Next(Seen(flow))
      decreases flow.definition, 0
    {
      if link.definition.initial.None? { return 0, Some("TypeError"); }
      var sub := EnterSubFlow(flow, link.definition);
      thrown := RunChild(flow, sub);
      if thrown.Some? || sub.exitState.None? { return 0, thrown; }
      EndSubFlow(flow, sub, link, link.definition.name);
      tick := tick + 1;
      return 1, None;
    }

    /** The chain of the active sub-flow; its parent waits. */
    method RunChild(flow: FlowInstance, sub: FlowInstance) returns (thrown: Option<string>)
      requires flow.Valid() && flow.activeSubFlow == sub
      modifies this, store`transitionLog, flow`Repr, sub, flow.context
      ensures flow.Valid() && flow.activeSubFlow == sub && fresh(flow.Repr - old(flow.Repr))
      ensures Result(Seen(sub), thrown) == Chain(cfg, env, old(Seen(sub)), 0)
      ensures Seen(flow) == Waits(old(flow.View()), Seen(sub))
      decreases sub.definition, 3
    {
      thrown := ExecuteAutoChain(sub);
      flow.Repr := {flow} + sub.Repr;
    }

    /** The sub-flow has ended: it is dropped and its parent leaves. */
    method EndSubFlow(flow: FlowInstance, sub: FlowInstance, link: SubFlowLink, name: string)
      requires flow.Valid() && flow.activeSubFlow == sub && sub.exitState.Some?
      modifies store`transitionLog, flow, flow.context
      ensures flow.Valid() && flow.Repr == {flow}
      ensures Seen(flow) == LeaveSubFlow(env, Freed(old(flow.View()), old(Seen(sub))), link, name, old(sub.exitState.value))
    {
      var exit := sub.exitState.value;
      flow.ClearActiveSubFlow();
      LeaveTo(flow, link, name, exit);
    }

    /** The parent moves where the exit of its sub-flow is mapped, or takes its own error transition. */
    method LeaveTo(flow: FlowInstance, link: SubFlowLink, name: string, exit: string)
      requires flow.Valid()
      modifies store`transitionLog, flow, flow.context
      ensures flow.Valid() && flow.Repr == old(flow.Repr) && flow.activeSubFlow == old(flow.activeSubFlow)
      ensures Seen(flow) == LeaveSubFlow(env, old(Seen(flow)), link, name, exit)
    {
      if exit in link.exitMappings {
        MoveOn(flow, link.exitMappings[exit], "subFlow:" + name + "/" + exit);
      } else {
        HandleError(flow, None);
      }
    }

    // ---------- resuming a flow in its own state ----------

    /** The chain that follows an external move. */
    method ChainOn(flow: FlowInstance) returns (thrown: Option<string>)
      requires flow.Valid()
      modifies this, store`transitionLog, flow, flow.context
      ensures flow.Valid() && fresh(flow.Repr - old(flow.Repr))
      ensures Result(Seen(flow), thrown) == Chain(cfg, env, Tick(old(Seen(flow))), 0)
    {
      tick := tick + 1;
      thrown := ExecuteAutoChain(flow);
    }

    /** The guard's data and the processor's puts are undone together when the processor fails. */
    method ProcessAccepted(flow: FlowInstance, p: Processor, data: Ctx) returns (ok: bool)
      requires flow.Valid()
      modifies this`calls, store`transitionLog, flow, flow.context
      ensures flow.Valid() && flow.Repr == old(flow.Repr)
      ensures var s := old(Seen(flow));
        var called := Called(s.(flow := s.flow.(ctx := s.flow.ctx + data)), p.requires_);
        match env.process(p, s.flow.ctx + data, s.tick)
        case Threw(_, error) => !ok && Seen(flow) == EngineModel.HandleError(env, called.(flow := s.flow), Some(error))
        case Returned(puts) => ok && Seen(flow) == called.(flow := s.flow.(ctx := s.flow.ctx + data + puts))
      ensures !ok ==> flow.context.attributes == old(flow.context.attributes)
    {
      ghost var before := Seen(flow);
      var backup := flow.context.Snapshot();
      flow.context.PutAll(data);
      var error := Process(p, flow.context, false);
      if error.None? { return true; }
      flow.context.RestoreFrom(backup);
      assert Seen(flow) == before.(calls := calls);
      HandleError(flow, error);
      return false;
    }

    method TryAccepted(flow: FlowInstance, t: Transition, name: string, data: Ctx) returns (ok: bool)
      requires flow.Valid()
      modifies this`calls, store`transitionLog, flow, flow.context
      ensures flow.Valid() && flow.Repr == old(flow.Repr)
      ensures Accept(cfg, env, old(Seen(flow)), t, name, data)
        == if ok then Chain(cfg, env, Tick(Seen(flow)), 0) else Result(Tick(Seen(flow)), None)
    {
      if t.processor.Some? {
        ok := ProcessAccepted(flow, t.processor.value, data);
        if !ok { return; }
      } else {
        flow.context.PutAll(data);
      }
      MoveOn(flow, t.to, name);
      return true;
    }

    method AcceptExternal(flow: FlowInstance, t: Transition, name: string, data: Ctx) returns (thrown: Option<string>)
      requires flow.Valid()
      modifies this, store`transitionLog, flow, flow.context
      ensures flow.Valid() && fresh(flow.Repr - old(flow.Repr))
      ensures Result(Seen(flow), thrown) == Accept(cfg, env, old(Seen(flow)), t, name, data)
    {
      var ok := TryAccepted(flow, t, name, data);
      if !ok {
        ghost var reached := Seen(flow);
        tick := tick + 1;
        assert Seen(flow) == Tick(reached);
        return None;
      }
      thrown := ChainOn(flow);
    }

    method RejectExternal(flow: FlowInstance)
      requires flow.Valid()
      modifies store`transitionLog, flow
      ensures flow.Valid() && flow.Repr == old(flow.Repr) && flow.activeSubFlow == old(flow.activeSubFlow)
      ensures Seen(flow) == Reject(env, old(Seen(flow)))
    {
      flow.IncrementGuardFailure();
      if flow.guardFailureCount >= flow.definition.maxGuardRetries { HandleError(flow, None); }
    }

    /** The guard has expired the flow, or thrown. */
    method StopAsking(flow: FlowInstance, error: Option<string>) returns (thrown: Option<string>)
      requires flow.Valid()
      modifies this`tick, flow
      ensures flow.Valid() && flow.Repr == old(flow.Repr) && thrown == error
      ensures var s := old(Seen(flow));
        Seen(flow) == Tick(if error.Some? then s else s.(flow := Complete(s.flow, "EXPIRED")))
    {
      if error.None? { flow.Complete("EXPIRED"); }
      tick := tick + 1;
      thrown := error;
    }

    method TakeSelected(flow: FlowInstance, t: Transition) returns (thrown: Option<string>)
      requires flow.Valid()
      modifies this, store`transitionLog, flow, flow.context
      ensures flow.Valid() && fresh(flow.Repr - old(flow.Repr))
      ensures Result(Seen(flow), thrown) == TakeExternal(cfg, env, old(Seen(flow)), t)
    {
      if t.guard.None? {
        MoveOn(flow, t.to, "external");
        thrown := ChainOn(flow);
      } else {
        thrown := TakeGuarded(flow, t, t.guard.value);
      }
    }

    /** The guard is called on the context as it is. */
    method Ask(flow: FlowInstance, g: Guard) returns (out: GuardOutput)
      requires flow.Valid()
      modifies this`calls
      ensures Seen(flow) == Called(old(Seen(flow)), g.requires_) && out == env.validate(g, flow.context.attributes, tick)
    {
      calls := calls + [Call(KeySet(g.requires_), flow.context.attributes.Keys)];
      out := env.validate(g, flow.context.attributes, tick);
    }

    method TakeGuarded(flow: FlowInstance, t: Transition, g: Guard) returns (thrown: Option<string>)
      requires flow.Valid() && t.guard == Some(g)
      modifies this, store`transitionLog, flow, flow.context
      ensures flow.Valid() && fresh(flow.Repr - old(flow.Repr))
      ensures Result(Seen(flow), thrown) == TakeExternal(cfg, env, old(Seen(flow)), t)
    {
      var out := Ask(flow, g);
      thrown := Answered(flow, t, g.name, out);
    }

    /** What follows from the guard's answer. */
    method Answered(flow: FlowInstance, t: Transition, name: string, out: GuardOutput) returns (thrown: Option<string>)
      requires flow.Valid()
      modifies this, store`transitionLog, flow, flow.context
      ensures flow.Valid() && fresh(flow.Repr - old(flow.Repr))
      ensures Result(Seen(flow), thrown) == AfterAnswer(cfg, env, old(Seen(flow)), t, name, out)
    {
      match out
      case Accepted(data) =>
        thrown := AcceptExternal(flow, t, name, data);
      case Rejected =>
        RejectExternal(flow);
        tick := tick + 1;
        thrown := None;
      case Expired => thrown := StopAsking(flow, None);
      case Raised(error) => thrown := StopAsking(flow, Some(error));
    }

    method ResumeOwnState(flow: FlowInstance, dataKeys: set<Key>) returns (thrown: Option<string>)
      requires flow.Valid()
      modifies this, store`transitionLog, flow, flow.context
      ensures flow.Valid() && fresh(flow.Repr - old(flow.Repr))
      ensures Result(Seen(flow), thrown) == ResumeOwn(cfg, env, old(Seen(flow)), dataKeys)
    {
      var externals := flow.definition.ExternalsFrom(flow.currentState);
      if externals == [] { return Some("INVALID_TRANSITION"); }
      match Select(externals, dataKeys)
      case NotMatched => thrown := Some("EXTERNAL_EVENT_NOT_MATCHED");
      case Ambiguous => thrown := Some("EXTERNAL_EVENT_AMBIGUOUS");
      case Selected(t) =>
        if t.timeout.Some? && env.clock(tick) > flow.stateEnteredAt + t.timeout.value {
          flow.Complete("EXPIRED");
          return None;
        }
        thrown := TakeSelected(flow, t);
    }

    // ---------- resuming a sub-flow ----------

    /** The parent of a finished sub-flow moves on; an unmapped exit is dropped unless it is to bubble up. */
    method FinishSubFlow(flow: FlowInstance, name: string, exit: string, bubble: bool) returns (thrown: Option<string>)
      requires flow.Valid()
      modifies this, store`transitionLog, flow, flow.context
      ensures flow.Valid() && fresh(flow.Repr - old(flow.Repr))
      ensures Result(Seen(flow), thrown) == AfterSubFlow(cfg, env, old(Seen(flow)), name, exit, bubble)
    {
      var subFlowT := FirstSubFlow(flow.definition.TransitionsFrom(flow.currentState));
      if subFlowT.Some? && subFlowT.value.subFlow.Some? && exit in subFlowT.value.subFlow.value.exitMappings {
        LeaveTo(flow, subFlowT.value.subFlow.value, name, exit);
      } else if bubble {
        HandleError(flow, None);
      } else {
        return None;
      }
      thrown := ChainOn(flow);
    }

    /** The sub-flow has ended: it is cleared and the parent moves on. */
    method DismissSubFlow(flow: FlowInstance, sub: FlowInstance, exit: string, bubble: bool) returns (thrown: Option<string>)
      requires flow.Valid() && flow.activeSubFlow == sub
      modifies this, store`transitionLog, flow, flow.context
      ensures flow.Valid() && fresh(flow.Repr - old(flow.Repr))
      ensures Result(Seen(flow), thrown)
        == AfterSubFlow(cfg, env, Freed(old(flow.View()), old(Seen(sub))), sub.definition.name, exit, bubble)
    {
      ghost var parent, ended := flow.View(), Seen(sub);
      flow.ClearActiveSubFlow();
      assert Seen(flow) == Freed(parent, ended);
      thrown := FinishSubFlow(flow, sub.definition.name, exit, bubble);
    }

    /** After the sub-flow took its external transition: its chain, then the parent if it ended. */
    method RunSubFlow(flow: FlowInstance, sub: FlowInstance) returns (thrown: Option<string>)
      requires flow.Valid() && flow.activeSubFlow == sub
      modifies this, store`transitionLog, flow, sub, flow.context
      ensures flow.Valid() && fresh(flow.Repr - old(flow.Repr))
      ensures Result(Seen(flow), thrown) == ContinueSubFlow(cfg, env, old(flow.View()), old(Seen(sub)))
    {
      ghost var parent := flow.View();
      tick := tick + 1;
      thrown := RunChild(flow, sub);
      if thrown.Some? || sub.exitState.None? { return; }
      assert flow.activeSubFlow == sub && Freed(flow.View(), Seen(sub)) == Freed(parent, Seen(sub));
      thrown := DismissSubFlow(flow, sub, sub.exitState.value, false);
    }

    /** The data of the guard joins the shared context, and the sub-flow changes its state. */
    method MoveInSubFlow(flow: FlowInstance, sub: FlowInstance, to: State, name: string, data: Ctx)
      requires flow.Valid() && flow.activeSubFlow == sub
      modifies store`transitionLog, sub, flow.context
      ensures flow.Valid() && flow.Repr == old(flow.Repr) && flow.activeSubFlow == sub
      ensures SameParent(flow.View(), old(flow.View()))
      ensures var s := old(Seen(sub));
        Seen(sub) == s.(flow := MoveTo(s.flow, to, env.clock(s.tick)).(ctx := s.flow.ctx + data), log := s.log + [Record(s.id, s.flow.state, to, name)])
    {
      flow.context.PutAll(data);
      var sfFrom := sub.currentState;
      sub.TransitionTo(to, env.clock(tick));
      store.RecordTransition(flow.id, sfFrom, to, name);
    }

    method AcceptInSubFlow(flow: FlowInstance, sub: FlowInstance, to: State, name: string, data: Ctx) returns (thrown: Option<string>)
      requires flow.Valid() && flow.activeSubFlow == sub
      modifies this, store`transitionLog, flow, sub, flow.context
      ensures flow.Valid() && fresh(flow.Repr - old(flow.Repr))
      ensures var s := old(Seen(sub));
        Result(Seen(flow), thrown) == ContinueSubFlow(cfg, env, old(flow.View()),
          s.(flow := MoveTo(s.flow, to, env.clock(s.tick)).(ctx := s.flow.ctx + data), log := s.log + [Record(s.id, s.flow.state, to, name)]))
    {
      ghost var parent := flow.View();
      MoveInSubFlow(flow, sub, to, name, data);
      ParentIsForgotten(cfg, env, parent, flow.View(), Seen(sub));
      thrown := RunSubFlow(flow, sub);
    }

    method RejectInSubFlow(flow: FlowInstance, sub: FlowInstance) returns (thrown: Option<string>)
      requires flow.Valid() && flow.activeSubFlow == sub
      modifies this, store`transitionLog, flow, sub, flow.context
      ensures flow.Valid() && fresh(flow.Repr - old(flow.Repr))
      ensures var parent, s := old(flow.View()), old(Seen(sub));
        var counted := s.flow.(failures := s.flow.failures + 1);
        Result(Seen(flow), thrown) ==
          if counted.failures >= sub.definition.maxGuardRetries
          then AfterSubFlow(cfg, env, Freed(parent, s), sub.definition.name, "ERROR", true)
          else Result(Tick(Waits(parent, s.(flow := counted))), None)
    {
      ghost var parent, s := flow.View(), Seen(sub);
      sub.IncrementGuardFailure();
      if sub.guardFailureCount >= sub.definition.maxGuardRetries {
        sub.Complete("ERROR");
        assert Freed(flow.View(), Seen(sub)) == Freed(parent, s);
        thrown := DismissSubFlow(flow, sub, "ERROR", true);
      } else {
        tick := tick + 1;
        thrown := None;
      }
    }

    method ResumeGuardedSubFlow(flow: FlowInstance, sub: FlowInstance, t: Transition, g: Guard) returns (thrown: Option<string>)
      requires flow.Valid() && flow.activeSubFlow == sub
      modifies this, store`transitionLog, flow, sub, flow.context
      ensures flow.Valid() && fresh(flow.Repr - old(flow.Repr))
      ensures Result(Seen(flow), thrown) == ResumeGuarded(cfg, env, old(Seen(flow)), t, g)
    {
      ghost var parent := flow.View();
      calls := calls + [Call(KeySet(g.requires_), flow.context.attributes.Keys)];
      assert flow.View() == parent && sub.Frame() == parent.active.value;
      match env.validate(g, flow.context.attributes, tick)
      case Accepted(data) =>
        thrown := AcceptInSubFlow(flow, sub, t.to, g.name, data);
      case Rejected =>
        thrown := RejectInSubFlow(flow, sub);
      case Expired => thrown := StopAsking(flow, None);
      case Raised(error) => thrown := StopAsking(flow, Some(error));
    }

    method ResumeSubFlow(flow: FlowInstance, dataKeys: set<Key>) returns (thrown: Option<string>)
      requires flow.Valid() && flow.activeSubFlow != null
      modifies this, store`transitionLog, flow, flow.activeSubFlow, flow.context
      ensures flow.Valid() && fresh(flow.Repr - old(flow.Repr))
      ensures Result(Seen(flow), thrown) == EngineModel.ResumeSubFlow(cfg, env, old(Seen(flow)), dataKeys)
    {
      var sub := flow.activeSubFlow;
      assert sub.Frame().def == sub.definition && sub.Frame().state == sub.currentState;
      var externals := sub.definition.ExternalsFrom(sub.currentState);
      if externals == [] { return Some("INVALID_TRANSITION"); }
      match Select(externals, dataKeys)
      case NotMatched => thrown := Some("EXTERNAL_EVENT_NOT_MATCHED");
      case Ambiguous => thrown := Some("EXTERNAL_EVENT_AMBIGUOUS");
      case Selected(t) =>
        if t.guard.Some? {
          thrown := ResumeGuardedSubFlow(flow, sub, t, t.guard.value);
        } else {
          thrown := MoveSubFlow(flow, sub, t.to);
        }
    }

    /** A transition of the sub-flow without a guard. */
    method MoveSubFlow(flow: FlowInstance, sub: FlowInstance, to: State) returns (thrown: Option<string>)
      requires flow.Valid() && flow.activeSubFlow == sub
      modifies this, store`transitionLog, flow, sub, flow.context
      ensures flow.Valid() && fresh(flow.Repr - old(flow.Repr))
      ensures var s := old(Seen(sub));
        Result(Seen(flow), thrown) == ContinueSubFlow(cfg, env, old(flow.View()), s.(flow := MoveTo(s.flow, to, env.clock(s.tick))))
    {
      ghost var parent := flow.View();
      sub.TransitionTo(to, env.clock(tick));
      ParentIsForgotten(cfg, env, parent, flow.View(), Seen(sub));
      thrown := RunSubFlow(flow, sub);
    }

    // ---------- calls on the store ----------

    ghost predicate Valid()
      reads store, store.Instances
    {
      store.Valid()
    }

    ghost function Held(): World
      requires Valid()
      reads this, store, store.Instances, store.Contexts
    {
      World(store.Views(), tick, store.transitionLog, calls)
    }

    /** The external data enters the context, whatever becomes of the call. */
    method TakeIn(flow: FlowInstance, externalData: Ctx) returns (late: bool)
      requires flow.Valid()
      modifies this`tick, flow.context
      ensures var s := old(Seen(flow));
        && Seen(flow) == Arrived(s, externalData)
        && late == (env.clock(s.tick) > s.flow.expiresAt)
    {
      flow.context.PutAll(externalData);
      late := env.clock(tick) > flow.expiresAt;
      tick := tick + 1;
    }

    /** The external event goes to the running sub-flow if there is one. */
    method Deliver(flow: FlowInstance, dataKeys: set<Key>) returns (thrown: Option<string>)
      requires flow.Valid()
      modifies this, store`transitionLog, flow, if flow.activeSubFlow == null then {} else {flow.activeSubFlow}, flow.context
      ensures flow.Valid() && fresh(flow.Repr - old(flow.Repr))
      ensures Result(Seen(flow), thrown) == EngineModel.Deliver(cfg, env, old(Seen(flow)), dataKeys)
    {
      if flow.activeSubFlow != null {
        thrown := ResumeSubFlow(flow, dataKeys);
      } else {
        thrown := ResumeOwnState(flow, dataKeys);
      }
    }

    method ResumeLoaded(flow: FlowInstance, externalData: Ctx) returns (thrown: Option<string>)
      requires flow.Valid()
      modifies this, store`transitionLog, flow.Repr, flow.context
      ensures flow.Valid() && fresh(flow.Repr - old(flow.Repr))
      ensures Result(Seen(flow), thrown) == Resume(cfg, env, old(Seen(flow)), externalData)
    {
      var late := TakeIn(flow, externalData);
      ghost var s := Seen(flow);
      if late {
        flow.Complete("EXPIRED");
        thrown := None;
      } else {
        thrown := Deliver(flow, externalData.Keys);
      }
      assert Result(Seen(flow), thrown)
        == if late then Result(s.(flow := Complete(s.flow, "EXPIRED")), None) else EngineModel.Deliver(cfg, env, s, externalData.Keys);
    }

    /** A new flow on a new context. */
    method Open(definition: FlowDef, flowId: FlowId, initialData: Ctx) returns (flow: FlowInstance)
      requires definition.initial.Some?
      modifies this`tick
      ensures fresh(flow.Repr) && fresh(flow.context) && flow.Valid() && flow.id == flowId
      ensures tick == old(tick) + 1
      ensures var now := env.clock(old(tick));
        flow.View() == Flow(definition, definition.initial.value, initialData, 0, None, now, now + definition.ttl, None)
    {
      var ctx := new FlowContext(map[]);
      ctx.PutAll(initialData);
      var now := env.clock(tick);
      flow := new FlowInstance(flowId, definition, ctx, definition.initial.value, now, now + definition.ttl);
      tick := tick + 1;
    }

    /** A new flow is stored before its first chain runs. */
    method Begin(definition: FlowDef, flowId: FlowId, initialData: Ctx) returns (flow: FlowInstance, thrown: Option<string>)
      requires definition.initial.Some?
      modifies this, store`flows, store`transitionLog
      ensures fresh(flow.Repr) && fresh(flow.context) && flow.Valid() && flow.id == flowId
      ensures store.flows == old(store.flows)[flowId := flow]
      ensures Result(Seen(flow), thrown)
        == Start(cfg, env, flowId, definition, initialData, old(tick), old(store.transitionLog), old(calls))
    {
      flow := Open(definition, flowId, initialData);
      store.Create(flow);
      ghost var s := Seen(flow);
      assert Start(cfg, env, flowId, definition, initialData, old(tick), old(store.transitionLog), old(calls)) == Chain(cfg, env, s, 0);
      thrown := ExecuteAutoChain(flow);
      if thrown.None? { store.Save(flow); }
    }

    method StoreNew(definition: FlowDef, flowId: FlowId, initialData: Ctx) returns (thrown: Option<string>)
      requires Valid() && flowId !in store.flows && definition.initial.Some?
      modifies this, store
      ensures Valid() && fresh(store.Instances - old(store.Instances)) && fresh(store.Contexts - old(store.Contexts))
      ensures Held()
        == Store(old(Held()), Start(cfg, env, flowId, definition, initialData, old(tick), old(store.transitionLog), old(calls)))
    {
      ghost var w := Held();
      var flow;
      flow, thrown := Begin(definition, flowId, initialData);
      ghost var r := Result(Seen(flow), thrown);
      store.Instances, store.Contexts := store.Instances + flow.Repr, store.Contexts + {flow.context};
      OneFlowAdded(store, flow);
      assert flow.View() == r.sys.flow;
      assert Held() == Store(w, r);
    }

    /** The identifier is the one drawn at random for the new flow. */
    method StartFlow(definition: FlowDef, flowId: FlowId, initialData: Ctx) returns (thrown: Option<string>)
      requires Valid() && flowId !in store.flows
      modifies this, store
      ensures Valid() && fresh(store.Instances - old(store.Instances)) && fresh(store.Contexts - old(store.Contexts))
      ensures Held() == Apply(cfg, env, old(Held()), Event.StartFlow(flowId, definition, initialData))
      ensures definition.initial.None? ==> thrown == Some("INVALID_FLOW_DEFINITION")
    {
      if definition.initial.None? { return Some("INVALID_FLOW_DEFINITION"); }
      thrown := StoreNew(definition, flowId, initialData);
    }

    /** `resumeAndExecute` once the flow is loaded; a flow is saved unless the call throws. */
    method ResumeSaved(flow: FlowInstance, externalData: Ctx) returns (thrown: Option<string>)
      requires flow.Valid() && flow.id in store.flows && store.flows[flow.id] == flow
      modifies this, store`flows, store`transitionLog, flow.Repr, flow.context
      ensures flow.Valid() && fresh(flow.Repr - old(flow.Repr)) && store.flows == old(store.flows)
      ensures Result(Seen(flow), thrown) == Resume(cfg, env, old(Seen(flow)), externalData)
    {
      thrown := ResumeLoaded(flow, externalData);
      if thrown.None? { store.Save(flow); }
    }

    /** The whole store after a resume of one of its flows. */
    method ResumeStored(flow: FlowInstance, externalData: Ctx) returns (thrown: Option<string>)
      requires Valid() && flow.id in store.flows && store.flows[flow.id] == flow
      modifies this, store, store.Instances, store.Contexts
      ensures Valid() && fresh(store.Instances - old(store.Instances)) && store.Contexts == old(store.Contexts)
      ensures Held() == Store(old(Held()), Resume(cfg, env, old(Seen(flow)), externalData))
      ensures thrown == Resume(cfg, env, old(Seen(flow)), externalData).thrown
    {
      ghost var w := Held();
      thrown := ResumeSaved(flow, externalData);
      ghost var r := Result(Seen(flow), thrown);
      store.Instances := store.Instances + flow.Repr;
      OneFlowChanged(store, flow);
      assert flow.View() == r.sys.flow;
      assert Held() == Store(w, r);
    }

    method ResumeAndExecute(flowId: FlowId, externalData: Ctx) returns (thrown: Option<string>)
      requires Valid()
      modifies this, store, store.Instances, store.Contexts
      ensures Valid() && fresh(store.Instances - old(store.Instances)) && store.Contexts == old(store.Contexts)
      ensures Held() == Apply(cfg, env, old(Held()), ResumeFlow(flowId, externalData))
      ensures var w := old(Held());
        thrown == if Loadable(w, flowId) then Resume(cfg, env, Sys(flowId, w.flows[flowId], w.tick, w.log, w.calls), externalData).thrown
                  else Some("FLOW_NOT_FOUND")
    {
      var flow := store.LoadForUpdate(flowId);
      if flow == null { return Some("FLOW_NOT_FOUND"); }
      thrown := ResumeStored(flow, externalData);
    }
  }
}
