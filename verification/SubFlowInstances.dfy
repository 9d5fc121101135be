/** Nested sub-flow instances as the Rust program writes them: methods that update an instance, the child it owns
  * and the context. Each is proved to compute the function of `NestedSubFlows` it is paired with. */
module SubFlowInstances {
  import opened Definition
  import opened EngineModel
  import opened FlowObjects
  import opened NestedSubFlows

  /** What a call on an instance returns: `Ok` or `Err`. */
  datatype Outcome = Done(result: SubFlowResult) | Err(error: string)

  function ReplyOf(inst: Instance, w: Shared, o: Outcome): Reply {
    match o
    case Done(result) => Reply(inst, w, result)
    case Err(error) => Faulted(inst, w, error)
  }

  /** The outcome of one iteration: `None` goes on. */
  function IterationOf(inst: Instance, w: Shared, o: Option<Outcome>): Iteration {
    if o.Some? then Replied(ReplyOf(inst, w, o.value)) else Onward(inst, w)
  }

  /** What a call shares with its caller: the context, the behaviours and the guards asked so far. */
  class Surroundings {
    const env: Env
    const context: FlowContext
    var tick: nat
    ghost var asked: seq<Asked>

    constructor (env: Env, context: FlowContext)
      ensures this.env == env && this.context == context && Now() == Shared(context.attributes, 0, [])
    {
      this.env, this.context, tick, asked := env, context, 0, [];
    }

    ghost function Now(): Shared
      reads this, context
    {
      Shared(context.attributes, tick, asked)
    }

    /** Runs a processor; nothing is rolled back when it fails. */
    method Process(p: Processor) returns (error: Option<string>)
      modifies this`tick, context
      ensures var w := old(Now());
        match env.process(p, w.ctx, w.tick)
        case Threw(puts, e) => error == Some(e) && Now() == Shared(w.ctx + puts, w.tick + 1, w.asked)
        case Returned(puts) => error == None && Now() == Shared(w.ctx + puts, w.tick + 1, w.asked)
    {
      match env.process(p, context.attributes, tick)
      case Threw(puts, e) =>
        context.PutAll(puts);
        tick, error := tick + 1, Some(e);
      case Returned(puts) =>
        context.PutAll(puts);
        tick, error := tick + 1, None;
    }
  }

  class SubFlowAdapterInstance {
    const definition: FlowDef
    var state: Option<State>
    var guardFailureCount: nat
    var activeSubFlow: SubFlowAdapterInstance?
    /** This instance and the ones it owns, directly or not. */
    ghost var Repr: set<SubFlowAdapterInstance>

    ghost predicate Valid()
      reads this, Repr
      decreases Repr
    {
      && this in Repr
      && (activeSubFlow != null ==>
            activeSubFlow in Repr && activeSubFlow.Repr <= Repr && this !in activeSubFlow.Repr && activeSubFlow.Valid())
    }

    ghost function View(): Instance
      requires Valid()
      reads this, Repr
      decreases Repr
    {
      Instance(definition, state, guardFailureCount, if activeSubFlow == null then None else Some(activeSubFlow.View()))
    }

    constructor (definition: FlowDef)
      ensures Valid() && Repr == {this} && this.definition == definition && View() == CreateInstance(definition)
    {
      this.definition, state, guardFailureCount, activeSubFlow := definition, None, 0, null;
      Repr := {this};
    }

    method SetState(target: State)
      requires Valid()
      modifies this`state
      ensures Valid() && View() == old(View()).(state := Some(target))
    {
      state := Some(target);
    }

    method HandleError(current: State, ghost w: Shared) returns (result: SubFlowResult)
      requires Valid()
      modifies this`state
      ensures Valid()
      ensures HandleInstanceError(old(View()), w, current) == Reply(View(), w, result)
    {
      if current in definition.errorTransitions {
        var target := definition.errorTransitions[current];
        SetState(target);
        if target in definition.terminals { return Completed(target); }
      }
      return Completed("ERROR");
    }

    // ---------- moving on automatically ----------

    method AutoTurn(w: Surroundings, current: State, t: Transition) returns (outcome: Option<Outcome>)
      requires Valid() && FirstOfKind(definition.TransitionsFrom(current), Auto) == Some(t)
      modifies this`state, w`tick, w.context
      ensures Valid()
      ensures OwnTurn(w.env, old(View()), old(w.Now()), current) == IterationOf(View(), w.Now(), outcome)
    {
      if t.processor.Some? {
        var error := w.Process(t.processor.value);
        if error.Some? {
          var result := HandleError(current, w.Now());
          return Some(Done(result));
        }
      }
      SetState(t.to);
      return None;
    }

    method BranchTurn(w: Surroundings, current: State, t: Transition) returns (outcome: Option<Outcome>)
      requires Valid() && FirstOfKind(definition.TransitionsFrom(current), Auto) == None
      requires FirstOfKind(definition.TransitionsFrom(current), Branch) == Some(t) && t.branch.Some?
      modifies this`state, w`tick
      ensures Valid()
      ensures OwnTurn(w.env, old(View()), old(w.Now()), current) == IterationOf(View(), w.Now(), outcome)
    {
      var decision := w.env.decide(t.branch.value, w.context.attributes, w.tick);
      w.tick := w.tick + 1;
      match decision
      case Undecided(error) => outcome := Some(Err(error));
      case Decided(choice) =>
        if choice in t.branchTargets {
          SetState(t.branchTargets[choice]);
          outcome := None;
        } else {
          outcome := Some(Done(Completed("ERROR:unknown_branch")));
        }
    }

    method TakeOwnTurn(w: Surroundings, current: State) returns (outcome: Option<Outcome>)
      requires Valid()
      modifies this`state, w`tick, w.context
      ensures Valid()
      ensures OwnTurn(w.env, old(View()), old(w.Now()), current) == IterationOf(View(), w.Now(), outcome)
    {
      var ts := definition.TransitionsFrom(current);
      var auto := FirstOfKind(ts, Auto);
      if auto.Some? {
        outcome := AutoTurn(w, current, auto.value);
      } else {
        var branch := FirstOfKind(ts, Branch);
        if branch.Some? && branch.value.branch.Some? {
          outcome := BranchTurn(w, current, branch.value);
        } else {
          outcome := Some(Done(WaitingAtExternal));
        }
      }
    }

    /** A new child is started; it is kept only while it waits. */
    method EnterSubFlow(w: Surroundings, current: State, link: SubFlowLink) returns (outcome: Option<Outcome>)
      requires Valid() && link.definition < definition
      modifies this, w, w.context
      ensures Valid() && fresh(Repr - old(Repr))
      ensures AfterStart(old(View()), current, link, StartInstance(w.env, CreateInstance(link.definition), old(w.Now())))
        == IterationOf(View(), w.Now(), outcome)
      decreases definition, 0
    {
      ghost var before := View();
      var sub := new SubFlowAdapterInstance(link.definition);
      var started := sub.Start(w);
      ghost var r := ReplyOf(sub.View(), w.Now(), started);
      assert View() == before;
      match started
      case Err(error) => outcome := Some(Err(error));
      case Done(result) =>
        match result
        case Completed(exit) =>
          if exit in link.exitMappings {
            SetState(link.exitMappings[exit]);
            outcome := None;
          } else {
            var handled := HandleError(current, w.Now());
            outcome := Some(Done(handled));
          }
        case WaitingAtExternal =>
          KeepChild(sub);
          outcome := Some(Done(result));
        case GuardRejected =>
          KeepChild(sub);
          outcome := Some(Done(result));
    }

    method KeepChild(sub: SubFlowAdapterInstance)
      requires Valid() && sub.Valid() && this !in sub.Repr
      modifies this`activeSubFlow, this`Repr
      ensures Valid() && Repr == {this} + sub.Repr && activeSubFlow == sub
      ensures View() == old(View()).(active := Some(sub.View()))
    {
      activeSubFlow := sub;
      Repr := {this} + sub.Repr;
    }

    /** One iteration of the loop in a non-terminal state. */
    method TakeTurn(w: Surroundings, current: State) returns (outcome: Option<Outcome>)
      requires Valid() && state == Some(current)
      modifies this, w, w.context
      ensures Valid() && fresh(Repr - old(Repr))
      ensures InstanceTurn(w.env, old(View()), old(w.Now()), current) == IterationOf(View(), w.Now(), outcome)
      decreases definition, 1
    {
      var subFlowT := FirstSubFlow(definition.TransitionsFrom(current));
      if subFlowT.Some? {
        NestedIsSmaller(definition, current);
        outcome := EnterSubFlow(w, current, subFlowT.value.subFlow.value);
      } else {
        outcome := TakeOwnTurn(w, current);
      }
    }

    method RunAutoChain(w: Surroundings) returns (outcome: Outcome)
      requires Valid() && state.Some?
      modifies this, w, w.context
      ensures Valid() && fresh(Repr - old(Repr))
      ensures NestedSubFlows.RunAutoChain(w.env, old(View()), old(w.Now()), 0) == ReplyOf(View(), w.Now(), outcome)
      decreases definition, 2
    {
      var depth := 0;
      while depth < MAX_STEPS
        invariant depth <= MAX_STEPS && Valid() && state.Some? && fresh(Repr - old(Repr))
        invariant NestedSubFlows.RunAutoChain(w.env, View(), w.Now(), depth)
          == NestedSubFlows.RunAutoChain(w.env, old(View()), old(w.Now()), 0)
      {
        var current := state.value;
        if current in definition.terminals { return Done(Completed(current)); }
        var turn := TakeTurn(w, current);
        if turn.Some? { return turn.value; }
        depth := depth + 1;
      }
      return Err("MAX_CHAIN_DEPTH");
    }

    method Start(w: Surroundings) returns (outcome: Outcome)
      requires Valid()
      modifies this, w, w.context
      ensures Valid() && fresh(Repr - old(Repr))
      ensures StartInstance(w.env, old(View()), old(w.Now())) == ReplyOf(View(), w.Now(), outcome)
      decreases definition, 3
    {
      if definition.initial.None? { return Err("INVALID_FLOW_DEFINITION"); }
      state := definition.initial;
      guardFailureCount := 0;
      assert View() == old(View()).(state := definition.initial, failures := 0);
      outcome := RunAutoChain(w);
    }

    // ---------- resuming ----------

    method AcceptExternal(w: Surroundings, t: Transition) returns (outcome: Outcome)
      requires Valid() && state.Some?
      modifies this, w, w.context
      ensures Valid() && fresh(Repr - old(Repr))
      ensures AcceptHere(w.env, old(View()), old(w.Now()), t) == ReplyOf(View(), w.Now(), outcome)
    {
      if t.processor.Some? {
        var error := w.Process(t.processor.value);
        if error.Some? {
          var result := HandleError(state.value, w.Now());
          return Done(result);
        }
      }
      SetState(t.to);
      outcome := RunAutoChain(w);
    }

    method RejectExternal(current: State, ghost w: Shared) returns (result: SubFlowResult)
      requires Valid()
      modifies this
      ensures Valid() && Repr == old(Repr)
      ensures var counted := old(View()).(failures := old(View()).failures + 1);
        Reply(View(), w, result)
          == if counted.failures >= definition.maxGuardRetries then HandleInstanceError(counted, w, current)
             else Reply(counted, w, GuardRejected)
    {
      guardFailureCount := guardFailureCount + 1;
      if guardFailureCount >= definition.maxGuardRetries {
        result := HandleError(current, w);
      } else {
        result := GuardRejected;
      }
    }

    method ResumeOwnState(w: Surroundings, keys: set<Key>) returns (outcome: Outcome)
      requires Valid() && state.Some?
      modifies this, w, w.context
      ensures Valid() && fresh(Repr - old(Repr))
      ensures ResumeHere(w.env, old(View()), old(w.Now()), keys) == ReplyOf(View(), w.Now(), outcome)
    {
      var current := state.value;
      var externals := definition.ExternalsFrom(current);
      if externals == [] { return Err("INVALID_TRANSITION"); }
      match Select(externals, keys)
      case NotMatched => outcome := Err("EXTERNAL_EVENT_NOT_MATCHED");
      case Ambiguous => outcome := Err("EXTERNAL_EVENT_AMBIGUOUS");
      case Selected(t) =>
        if t.guard.None? {
          SetState(t.to);
          outcome := RunAutoChain(w);
        } else {
          outcome := AskGuard(w, t, t.guard.value, keys);
        }
    }

    method AskGuard(w: Surroundings, t: Transition, g: Guard, ghost keys: set<Key>) returns (outcome: Outcome)
      requires Valid() && state.Some? && definition.ExternalsFrom(state.value) != []
      requires Select(definition.ExternalsFrom(state.value), keys) == Selected(t) && t.guard == Some(g)
      modifies this, w, w.context
      ensures Valid() && fresh(Repr - old(Repr))
      ensures ResumeHere(w.env, old(View()), old(w.Now()), keys) == ReplyOf(View(), w.Now(), outcome)
    {
      var current := state.value;
      var output := w.env.validate(g, w.context.attributes, w.tick);
      w.tick := w.tick + 1;
      w.asked := w.asked + [Asked(definition, current)];
      match output
      case Accepted(data) =>
        w.context.PutAll(data);
        outcome := AcceptExternal(w, t);
      case Rejected =>
        var result := RejectExternal(current, w.Now());
        outcome := Done(result);
      case Expired => outcome := Done(Completed("EXPIRED"));
      case Raised(error) => outcome := Err(error);
    }

    /** The active child is taken out, resumed, and put back unless it completed. */
    method ResumeWithExternalTypes(w: Surroundings, keys: set<Key>) returns (outcome: Outcome)
      requires Valid()
      modifies Repr, w, w.context
      ensures Valid() && fresh(Repr - old(Repr))
      ensures ResumeInstance(w.env, old(View()), old(w.Now()), keys) == ReplyOf(View(), w.Now(), outcome)
      decreases Repr
    {
      if state.None? { return Err("INVALID_STATE"); }
      if activeSubFlow == null {
        outcome := ResumeOwnState(w, keys);
        return;
      }
      ghost var before := View();
      var sub := activeSubFlow;
      outcome := sub.ResumeWithExternalTypes(w, keys);
      Repr := {this} + sub.Repr;
      assert View() == before.(active := Some(sub.View()));
      if outcome.Done? && outcome.result.Completed? {
        outcome := LeaveSubFlow(w, outcome.result.exit);
      }
    }

    method LeaveSubFlow(w: Surroundings, exit: string) returns (outcome: Outcome)
      requires Valid() && state.Some?
      modifies this, w, w.context
      ensures Valid() && fresh(Repr - old(Repr))
      ensures ChildCompleted(w.env, old(View()).(active := None), old(w.Now()), exit) == ReplyOf(View(), w.Now(), outcome)
    {
      var current := state.value;
      ghost var before := View();
      activeSubFlow := null;
      Repr := {this};
      assert View() == before.(active := None);
      var t := FirstSubFlow(definition.TransitionsFrom(current));
      if t.Some? && t.value.subFlow.Some? && exit in t.value.subFlow.value.exitMappings {
        SetState(t.value.subFlow.value.exitMappings[exit]);
        outcome := RunAutoChain(w);
      } else {
        var result := HandleError(current, w.Now());
        outcome := Done(result);
      }
    }

    method StatePathOf() returns (path: seq<State>)
      requires Valid()
      ensures path == StatePath(View())
      decreases Repr
    {
      path := if state.Some? then [state.value] else [];
      if activeSubFlow != null {
        var rest := activeSubFlow.StatePathOf();
        path := path + rest;
      }
    }
  }
}
