/** Sub-flow instances nested inside one another: start, resume, state path and nesting depth. An instance owns its
  * child, so as a value it is a tree, and a call maps it to the updated tree; `SubFlowInstances` holds the methods. */
module NestedSubFlows {
  import opened Definition
  import opened EngineModel
  import Builder

  datatype Instance = Instance(def: FlowDef, state: Option<State>, failures: nat, active: Option<Instance>)

  datatype SubFlowResult = Completed(exit: string) | WaitingAtExternal | GuardRejected

  /** A guard was asked on behalf of an instance of `def` in `state`. */
  datatype Asked = Asked(def: FlowDef, state: State)

  datatype Shared = Shared(ctx: Ctx, tick: nat, asked: seq<Asked>)

  datatype Reply = Reply(inst: Instance, world: Shared, result: SubFlowResult)
                 | Faulted(inst: Instance, world: Shared, error: string)

  const MAX_STEPS := 10

  function CreateInstance(def: FlowDef): Instance { Instance(def, None, 0, None) }

  // ---------- moving on automatically ----------

  function FirstOfKind(ts: seq<Transition>, kind: TransitionType): Option<Transition> {
    if ts == [] then None else if ts[0].kind == kind then Some(ts[0]) else FirstOfKind(ts[1..], kind)
  }

  /** `handle_error`: the error target is entered, but unless it is terminal the exit is ERROR. */
  function HandleInstanceError(inst: Instance, w: Shared, current: State): Reply {
    if current in inst.def.errorTransitions then
      var target := inst.def.errorTransitions[current];
      var moved := inst.(state := Some(target));
      Reply(moved, w, Completed(if inst.def.Terminal(target) then target else "ERROR"))
    else Reply(inst, w, Completed("ERROR"))
  }

  /** One iteration without a sub-flow: a next instance to go on with, or the reply. */
  datatype Iteration = Replied(reply: Reply) | Onward(inst: Instance, world: Shared)

  /** Automatic transition, then branch, then wait; branch processors are not run here. */
  function OwnTurn(env: Env, inst: Instance, w: Shared, current: State): Iteration {
    var ts := inst.def.TransitionsFrom(current);
    var auto, branch := FirstOfKind(ts, Auto), FirstOfKind(ts, Branch);
    if auto.Some? then
      var t := auto.value;
      if t.processor.None? then Onward(inst.(state := Some(t.to)), w)
      else
        match env.process(t.processor.value, w.ctx, w.tick)
        case Threw(puts, _) => Replied(HandleInstanceError(inst, Shared(w.ctx + puts, w.tick + 1, w.asked), current))
        case Returned(puts) => Onward(inst.(state := Some(t.to)), Shared(w.ctx + puts, w.tick + 1, w.asked))
    else if branch.Some? && branch.value.branch.Some? then
      match env.decide(branch.value.branch.value, w.ctx, w.tick)
      case Undecided(error) => Replied(Faulted(inst, w.(tick := w.tick + 1), error))
      case Decided(choice) =>
        if choice in branch.value.branchTargets
        then Onward(inst.(state := Some(branch.value.branchTargets[choice])), w.(tick := w.tick + 1))
        else Replied(Reply(inst, w.(tick := w.tick + 1), Completed("ERROR:unknown_branch")))
    else Replied(Reply(inst, w, WaitingAtExternal))
  }

  /** What a child's reply means for the instance that started it in `current`. */
  function AfterStart(inst: Instance, current: State, link: SubFlowLink, child: Reply): Iteration {
    match child
    case Faulted(_, w, error) => Replied(Faulted(inst, w, error))
    case Reply(sub, w, Completed(exit)) =>
      if exit in link.exitMappings then Onward(inst.(state := Some(link.exitMappings[exit])), w)
      else Replied(HandleInstanceError(inst, w, current))
    case Reply(sub, w, result) => Replied(Reply(inst.(active := Some(sub)), w, result))
  }

  /** One iteration of the chain: a sub-flow transition takes priority. */
  function InstanceTurn(env: Env, inst: Instance, w: Shared, current: State): (t: Iteration)
    ensures t.Onward? ==> t.inst.def == inst.def && t.inst.state.Some?
    ensures t.Replied? ==> t.reply.inst.def == inst.def
    decreases inst.def, 0
  {
    match FirstSubFlow(inst.def.TransitionsFrom(current))
    case Some(t) =>
      NestedIsSmaller(inst.def, current);
      var link := t.subFlow.value;
      AfterStart(inst, current, link, StartInstance(env, CreateInstance(link.definition), w))
    case None => OwnTurn(env, inst, w, current)
  }

  /** `run_auto_chain` from loop depth `depth`. */
  function RunAutoChain(env: Env, inst: Instance, w: Shared, depth: nat): (r: Reply)
    requires inst.state.Some?
    ensures r.inst.def == inst.def
    decreases inst.def, 1 + (if depth <= MAX_STEPS then MAX_STEPS - depth else 0)
  {
    var current := inst.state.value;
    if depth >= MAX_STEPS then Faulted(inst, w, "MAX_CHAIN_DEPTH")
    else if inst.def.Terminal(current) then Reply(inst, w, Completed(current))
    else
      match InstanceTurn(env, inst, w, current)
      case Replied(r) => r
      case Onward(inst1, w1) => RunAutoChain(env, inst1, w1, depth + 1)
  }

  /** `start`. */
  function StartInstance(env: Env, inst: Instance, w: Shared): (r: Reply)
    ensures r.inst.def == inst.def
    decreases inst.def, 2 + MAX_STEPS
  {
    if inst.def.initial.None? then Faulted(inst, w, "INVALID_FLOW_DEFINITION")
    else RunAutoChain(env, inst.(state := inst.def.initial, failures := 0), w, 0)
  }

  // ---------- resuming ----------

  /** `resume_with_external_types` at the instance itself. */
  function ResumeHere(env: Env, inst: Instance, w: Shared, keys: set<Key>): (r: Reply)
    requires inst.state.Some?
    ensures r.inst.def == inst.def
  {
    var current := inst.state.value;
    var externals := inst.def.ExternalsFrom(current);
    if externals == [] then Faulted(inst, w, "INVALID_TRANSITION")
    else
      match Select(externals, keys)
      case NotMatched => Faulted(inst, w, "EXTERNAL_EVENT_NOT_MATCHED")
      case Ambiguous => Faulted(inst, w, "EXTERNAL_EVENT_AMBIGUOUS")
      case Selected(t) =>
        if t.guard.None? then RunAutoChain(env, inst.(state := Some(t.to)), w, 0)
        else
          var asked := Shared(w.ctx, w.tick + 1, w.asked + [Asked(inst.def, current)]);
          match env.validate(t.guard.value, w.ctx, w.tick)
          case Accepted(data) => AcceptHere(env, inst, asked.(ctx := w.ctx + data), t)
          case Rejected =>
            var counted := inst.(failures := inst.failures + 1);
            if counted.failures >= inst.def.maxGuardRetries then HandleInstanceError(counted, asked, current)
            else Reply(counted, asked, GuardRejected)
          case Expired => Reply(inst, asked, Completed("EXPIRED"))
          case Raised(error) => Faulted(inst, asked, error)
  }

  function AcceptHere(env: Env, inst: Instance, w: Shared, t: Transition): (r: Reply)
    requires inst.state.Some?
    ensures r.inst.def == inst.def
  {
    if t.processor.None? then RunAutoChain(env, inst.(state := Some(t.to)), w, 0)
    else
      match env.process(t.processor.value, w.ctx, w.tick)
      case Threw(puts, _) => HandleInstanceError(inst, Shared(w.ctx + puts, w.tick + 1, w.asked), inst.state.value)
      case Returned(puts) =>
        RunAutoChain(env, inst.(state := Some(t.to)), Shared(w.ctx + puts, w.tick + 1, w.asked), 0)
  }

  /** `resume_with_external_types`: the active child first. */
  function ResumeInstance(env: Env, inst: Instance, w: Shared, keys: set<Key>): (r: Reply)
    ensures r.inst.def == inst.def
    decreases inst
  {
    if inst.state.None? then Faulted(inst, w, "INVALID_STATE")
    else if inst.active.None? then ResumeHere(env, inst, w, keys)
    else
      match ResumeInstance(env, inst.active.value, w, keys)
      case Faulted(sub, w1, error) => Faulted(inst.(active := Some(sub)), w1, error)
      case Reply(sub, w1, Completed(exit)) => ChildCompleted(env, inst.(active := None), w1, exit)
      case Reply(sub, w1, result) => Reply(inst.(active := Some(sub)), w1, result)
  }

  /** The parent of a completed child moves where the exit is mapped; an unmapped exit is an error. */
  function ChildCompleted(env: Env, inst: Instance, w: Shared, exit: string): (r: Reply)
    requires inst.state.Some?
    ensures r.inst.def == inst.def
  {
    var current := inst.state.value;
    var t := FirstSubFlow(inst.def.TransitionsFrom(current));
    if t.Some? && t.value.subFlow.Some? && exit in t.value.subFlow.value.exitMappings
    then RunAutoChain(env, inst.(state := Some(t.value.subFlow.value.exitMappings[exit])), w, 0)
    else HandleInstanceError(inst, w, current)
  }

  // ---------- the shape of nested instances ----------

  /** `child` is an instance of the sub-flow that the transition out of `state` starts. */
  ghost predicate CreatedAt(def: FlowDef, state: State, child: Instance) {
    var t := FirstSubFlow(def.TransitionsFrom(state));
    t.Some? && t.value.subFlow.Some? && child.def == t.value.subFlow.value.definition
  }

  /** An active child was created by the sub-flow transition of the state its parent is in, all the way down. */
  ghost predicate Anchored(inst: Instance) {
    inst.active.Some? ==>
      && inst.state.Some? && CreatedAt(inst.def, inst.state.value, inst.active.value)
      && inst.active.value.state.Some? && Anchored(inst.active.value)
  }

  ghost predicate TurnAnchored(t: Iteration) {
    match t
    case Onward(inst, _) => inst.active.None?
    case Replied(r) => Anchored(r.inst) && r.inst.state.Some? && (r.Reply? ==> r.result != GuardRejected)
  }

  lemma OwnTurnAnchored(env: Env, inst: Instance, w: Shared, current: State)
    requires inst.active.None? && inst.state == Some(current)
    ensures TurnAnchored(OwnTurn(env, inst, w, current))
  {}

  lemma {:induction false} ChainTurnAnchored(env: Env, inst: Instance, w: Shared, current: State)
    requires inst.active.None? && inst.state == Some(current)
    ensures TurnAnchored(InstanceTurn(env, inst, w, current))
    decreases inst.def, 0
  {
    match FirstSubFlow(inst.def.TransitionsFrom(current))
    case Some(t) =>
      NestedIsSmaller(inst.def, current);
      StartAnchored(env, CreateInstance(t.subFlow.value.definition), w);
    case None => OwnTurnAnchored(env, inst, w, current);
  }

  lemma {:induction false} ChainAnchored(env: Env, inst: Instance, w: Shared, depth: nat)
    requires inst.active.None? && inst.state.Some?
    ensures var r := RunAutoChain(env, inst, w, depth);
      Anchored(r.inst) && r.inst.state.Some? && (r.Reply? ==> r.result != GuardRejected)
    decreases inst.def, 1 + (if depth <= MAX_STEPS then MAX_STEPS - depth else 0)
  {
    var current := inst.state.value;
    if depth < MAX_STEPS && !inst.def.Terminal(current) {
      ChainTurnAnchored(env, inst, w, current);
      match InstanceTurn(env, inst, w, current)
      case Replied(r) =>
      case Onward(inst1, w1) => ChainAnchored(env, inst1, w1, depth + 1);
    }
  }

  /** Starting an instance: it is anchored, and no guard can have rejected. */
  lemma {:induction false} StartAnchored(env: Env, inst: Instance, w: Shared)
    requires inst.active.None?
    ensures var r := StartInstance(env, inst, w);
      Anchored(r.inst) && (r.Reply? ==> r.inst.state.Some? && r.result != GuardRejected)
    decreases inst.def, 2 + MAX_STEPS
  {
    if inst.def.initial.Some? { ChainAnchored(env, inst.(state := inst.def.initial, failures := 0), w, 0); }
  }

  lemma ResumeHereAnchored(env: Env, inst: Instance, w: Shared, keys: set<Key>)
    requires inst.active.None? && inst.state.Some?
    ensures var r := ResumeHere(env, inst, w, keys); Anchored(r.inst) && r.inst.state.Some?
  {
    var externals := inst.def.ExternalsFrom(inst.state.value);
    if externals != [] && Select(externals, keys).Selected? {
      var t := Select(externals, keys).transition;
      var moved := inst.(state := Some(t.to));
      if t.guard.None? {
        ChainAnchored(env, moved, w, 0);
      } else {
        match env.validate(t.guard.value, w.ctx, w.tick)
        case Accepted(data) =>
          var w1 := Shared(w.ctx + data, w.tick + 1, w.asked + [Asked(inst.def, inst.state.value)]);
          ChainAnchored(env, moved, w1, 0);
          if t.processor.Some? {
            match env.process(t.processor.value, w1.ctx, w1.tick)
            case Threw(_, _) =>
            case Returned(puts) => ChainAnchored(env, moved, Shared(w1.ctx + puts, w1.tick + 1, w1.asked), 0);
          }
        case _ =>
      }
    }
  }

  /** Under any resume, an active child exists only at the sub-flow transition that created it, at every level. */
  lemma {:induction false} ResumeAnchored(env: Env, inst: Instance, w: Shared, keys: set<Key>)
    requires Anchored(inst)
    ensures Anchored(ResumeInstance(env, inst, w, keys).inst)
    ensures inst.state.Some? ==> ResumeInstance(env, inst, w, keys).inst.state.Some?
    decreases inst
  {
    if inst.state.Some? {
      if inst.active.None? {
        ResumeHereAnchored(env, inst, w, keys);
      } else {
        ResumeAnchored(env, inst.active.value, w, keys);
        match ResumeInstance(env, inst.active.value, w, keys)
        case Faulted(sub, w1, error) =>
        case Reply(sub, w1, Completed(exit)) =>
          var t := FirstSubFlow(inst.def.TransitionsFrom(inst.state.value));
          if exit in t.value.subFlow.value.exitMappings {
            ChainAnchored(env, inst.(active := None, state := Some(t.value.subFlow.value.exitMappings[exit])), w1, 0);
          }
        case Reply(sub, w1, result) =>
      }
    }
  }

  // ---------- state path and nesting depth ----------

  /** `state_path`. */
  function StatePath(inst: Instance): seq<State> {
    (if inst.state.Some? then [inst.state.value] else []) + (if inst.active.Some? then StatePath(inst.active.value) else [])
  }

  /** `nesting_depth`: the recursive maximum over the sub-flow transitions. */
  function NestingDepth(def: FlowDef): nat
    decreases def, 1, 0
  {
    1 + DeepestChild(def, 0)
  }

  function DeepestChild(def: FlowDef, i: nat): nat
    decreases def, 0, |def.transitions| - i
  {
    if i >= |def.transitions| then 0
    else
      var t := def.transitions[i];
      var rest := DeepestChild(def, i + 1);
      if t.kind == SubFlow && t.subFlow.Some? then
        var here := NestingDepth(t.subFlow.value.definition);
        if here > rest then here else rest
      else rest
  }

  lemma {:induction false} ChildIsShallower(def: FlowDef, i: nat, j: nat)
    requires i <= j < |def.transitions| && def.transitions[j].kind == SubFlow && def.transitions[j].subFlow.Some?
    ensures NestingDepth(def.transitions[j].subFlow.value.definition) <= DeepestChild(def, i)
    decreases j - i
  {
    if i < j { ChildIsShallower(def, i + 1, j); }
  }

  lemma LinkIsShallower(def: FlowDef, s: State)
    requires FirstSubFlow(def.TransitionsFrom(s)).Some?
    ensures FirstSubFlow(def.TransitionsFrom(s)).value.subFlow.Some?
    ensures NestingDepth(FirstSubFlow(def.TransitionsFrom(s)).value.subFlow.value.definition) < NestingDepth(def)
  {
    var t := FirstSubFlow(def.TransitionsFrom(s)).value;
    FirstSubFlowIn(def.TransitionsFrom(s));
    LeavingIn(def.transitions, s, t);
    var j :| 0 <= j < |def.transitions| && def.transitions[j] == t;
    ChildIsShallower(def, 0, j);
  }

  /** The state path of an instance is never longer than the nesting depth of its definition. */
  lemma {:induction false} PathWithinDepth(inst: Instance)
    requires Anchored(inst)
    ensures |StatePath(inst)| <= NestingDepth(inst.def)
    decreases inst
  {
    if inst.active.Some? {
      LinkIsShallower(inst.def, inst.state.value);
      PathWithinDepth(inst.active.value);
    }
  }

  /** The two validators agree: the recursive depth count of one and the recursive maximum of the other
    * accept the same definitions. */
  lemma {:induction false} DepthChecksAgree(def: FlowDef, depth: nat)
    ensures Builder.DepthAccepted(def, depth) <==> depth + NestingDepth(def) <= 4
    decreases def
  {
    forall i | 0 <= i < |def.transitions| && def.transitions[i].kind == SubFlow && def.transitions[i].subFlow.Some?
      ensures Builder.DepthAccepted(def.transitions[i].subFlow.value.definition, depth + 1)
        <==> depth + 1 + NestingDepth(def.transitions[i].subFlow.value.definition) <= 4
    {
      DepthChecksAgree(def.transitions[i].subFlow.value.definition, depth + 1);
    }
    DeepestIsAttained(def, 0);
    forall i | 0 <= i < |def.transitions| && def.transitions[i].kind == SubFlow && def.transitions[i].subFlow.Some?
      ensures NestingDepth(def.transitions[i].subFlow.value.definition) <= DeepestChild(def, 0)
    {
      ChildIsShallower(def, 0, i);
    }
  }

  lemma {:induction false} DeepestIsAttained(def: FlowDef, i: nat)
    requires i <= |def.transitions|
    ensures DeepestChild(def, i) == 0
      || exists j | i <= j < |def.transitions| :: def.transitions[j].kind == SubFlow && def.transitions[j].subFlow.Some?
           && NestingDepth(def.transitions[j].subFlow.value.definition) == DeepestChild(def, i)
    decreases |def.transitions| - i
  {
    if i < |def.transitions| { DeepestIsAttained(def, i + 1); }
  }

  /** `check_sub_flow_nesting_depth` on the top-level definition: no sub-flow deeper than three. */
  ghost predicate DepthValidated(def: FlowDef) {
    forall t | t in def.transitions && t.kind == SubFlow && t.subFlow.Some? :: NestingDepth(t.subFlow.value.definition) <= 3
  }

  /** A flow of a validated definition, its own state and the path of its active sub-flow: at most four entries. */
  lemma ValidatedPathIsShort(def: FlowDef, state: State, active: Instance)
    requires DepthValidated(def) && Anchored(active) && CreatedAt(def, state, active)
    ensures |[state] + StatePath(active)| <= 4
  {
    var t := FirstSubFlow(def.TransitionsFrom(state)).value;
    FirstSubFlowIn(def.TransitionsFrom(state));
    LeavingIn(def.transitions, state, t);
    PathWithinDepth(active);
  }

  // ---------- resume acts at the deepest level ----------

  function Deepest(inst: Instance): Instance {
    if inst.active.Some? then Deepest(inst.active.value) else inst
  }

  /** One more failure at the deepest level, nothing else changed. */
  function BumpDeepest(inst: Instance): Instance {
    if inst.active.Some? then inst.(active := Some(BumpDeepest(inst.active.value)))
    else inst.(failures := inst.failures + 1)
  }

  lemma {:induction false} ChainAsksNobody(env: Env, inst: Instance, w: Shared, depth: nat)
    requires inst.state.Some?
    ensures RunAutoChain(env, inst, w, depth).world.asked == w.asked
    decreases inst.def, 1 + (if depth <= MAX_STEPS then MAX_STEPS - depth else 0)
  {
    var current := inst.state.value;
    if depth < MAX_STEPS && !inst.def.Terminal(current) {
      TurnAsksNobody(env, inst, w, current);
      match InstanceTurn(env, inst, w, current)
      case Replied(r) =>
      case Onward(inst1, w1) => ChainAsksNobody(env, inst1, w1, depth + 1);
    }
  }

  lemma {:induction false} TurnAsksNobody(env: Env, inst: Instance, w: Shared, current: State)
    ensures var t := InstanceTurn(env, inst, w, current);
      (t.Onward? ==> t.world.asked == w.asked) && (t.Replied? ==> t.reply.world.asked == w.asked)
    decreases inst.def, 0
  {
    match FirstSubFlow(inst.def.TransitionsFrom(current))
    case Some(t) =>
      NestedIsSmaller(inst.def, current);
      var sub := CreateInstance(t.subFlow.value.definition);
      if sub.def.initial.Some? { ChainAsksNobody(env, sub.(state := sub.def.initial, failures := 0), w, 0); }
    case None =>
  }

  lemma ResumeHereAsksOnce(env: Env, inst: Instance, w: Shared, keys: set<Key>)
    requires inst.state.Some?
    ensures var r := ResumeHere(env, inst, w, keys);
      r.world.asked == w.asked || r.world.asked == w.asked + [Asked(inst.def, inst.state.value)]
  {
    var externals := inst.def.ExternalsFrom(inst.state.value);
    if externals != [] && Select(externals, keys).Selected? {
      var t := Select(externals, keys).transition;
      var moved := inst.(state := Some(t.to));
      if t.guard.None? {
        ChainAsksNobody(env, moved, w, 0);
      } else {
        match env.validate(t.guard.value, w.ctx, w.tick)
        case Accepted(data) =>
          var w1 := Shared(w.ctx + data, w.tick + 1, w.asked + [Asked(inst.def, inst.state.value)]);
          ChainAsksNobody(env, moved, w1, 0);
          if t.processor.Some? {
            match env.process(t.processor.value, w1.ctx, w1.tick)
            case Threw(_, _) =>
            case Returned(puts) => ChainAsksNobody(env, moved, Shared(w1.ctx + puts, w1.tick + 1, w1.asked), 0);
          }
        case _ =>
      }
    }
  }

  /** A resume asks at most one guard, and it is one of the deepest active instance in its current state. */
  lemma {:induction false} ResumeAsksDeepest(env: Env, inst: Instance, w: Shared, keys: set<Key>)
    requires Anchored(inst) && inst.state.Some?
    ensures var r := ResumeInstance(env, inst, w, keys);
      && Deepest(inst).state.Some?
      && (r.world.asked == w.asked || r.world.asked == w.asked + [Asked(Deepest(inst).def, Deepest(inst).state.value)])
    decreases inst
  {
    if inst.active.None? {
      ResumeHereAsksOnce(env, inst, w, keys);
    } else {
      ResumeAsksDeepest(env, inst.active.value, w, keys);
      match ResumeInstance(env, inst.active.value, w, keys)
      case Faulted(sub, w1, error) =>
      case Reply(sub, w1, Completed(exit)) =>
        var t := FirstSubFlow(inst.def.TransitionsFrom(inst.state.value));
        if exit in t.value.subFlow.value.exitMappings {
          ChainAsksNobody(env, inst.(active := None, state := Some(t.value.subFlow.value.exitMappings[exit])), w1, 0);
        }
      case Reply(sub, w1, result) =>
    }
  }

  /** A rejection changes one thing: the failure count of the deepest instance. */
  lemma {:induction false} RejectionCountsDeepest(env: Env, inst: Instance, w: Shared, keys: set<Key>)
    requires Anchored(inst)
    ensures var r := ResumeInstance(env, inst, w, keys);
      r.Reply? && r.result == GuardRejected ==> r.inst == BumpDeepest(inst) && StatePath(r.inst) == StatePath(inst)
    decreases inst
  {
    if inst.state.Some? {
      if inst.active.None? {
        RejectedHere(env, inst, w, keys);
      } else {
        RejectionCountsDeepest(env, inst.active.value, w, keys);
        match ResumeInstance(env, inst.active.value, w, keys)
        case Faulted(sub, w1, error) =>
        case Reply(sub, w1, Completed(exit)) =>
          var t := FirstSubFlow(inst.def.TransitionsFrom(inst.state.value));
          if exit in t.value.subFlow.value.exitMappings {
            ChainAnchored(env, inst.(active := None, state := Some(t.value.subFlow.value.exitMappings[exit])), w1, 0);
          }
        case Reply(sub, w1, result) =>
      }
    }
  }

  lemma RejectedHere(env: Env, inst: Instance, w: Shared, keys: set<Key>)
    requires inst.active.None? && inst.state.Some?
    ensures var r := ResumeHere(env, inst, w, keys);
      r.Reply? && r.result == GuardRejected ==> r.inst == inst.(failures := inst.failures + 1)
  {
    var externals := inst.def.ExternalsFrom(inst.state.value);
    if externals != [] && Select(externals, keys).Selected? {
      var t := Select(externals, keys).transition;
      var moved := inst.(state := Some(t.to));
      if t.guard.None? {
        ChainAnchored(env, moved, w, 0);
      } else {
        match env.validate(t.guard.value, w.ctx, w.tick)
        case Accepted(data) =>
          var w1 := Shared(w.ctx + data, w.tick + 1, w.asked + [Asked(inst.def, inst.state.value)]);
          ChainAnchored(env, moved, w1, 0);
          if t.processor.Some? {
            match env.process(t.processor.value, w1.ctx, w1.tick)
            case Threw(_, _) =>
            case Returned(puts) => ChainAnchored(env, moved, Shared(w1.ctx + puts, w1.tick + 1, w1.asked), 0);
          }
        case _ =>
      }
    }
  }

  // ---------- any sequence of resumes ----------

  /** Resuming again and again while the instance still waits. As the parent engine does, each event's data enters the
    * context first, and its keys select the transition. */
  function ResumeAll(env: Env, inst: Instance, w: Shared, events: seq<Ctx>): (Instance, Shared)
    decreases |events|
  {
    if events == [] then (inst, w)
    else
      var r := ResumeInstance(env, inst, w.(ctx := w.ctx + events[0]), events[0].Keys);
      if r.Reply? && r.result.Completed? then (r.inst, r.world) else ResumeAll(env, r.inst, r.world, events[1..])
  }

  lemma {:induction false} ResumeAllAnchored(env: Env, inst: Instance, w: Shared, events: seq<Ctx>)
    requires Anchored(inst) && inst.state.Some?
    ensures Anchored(ResumeAll(env, inst, w, events).0) && ResumeAll(env, inst, w, events).0.def == inst.def
    decreases |events|
  {
    if events != [] {
      var arrived := w.(ctx := w.ctx + events[0]);
      ResumeAnchored(env, inst, arrived, events[0].Keys);
      var r := ResumeInstance(env, inst, arrived, events[0].Keys);
      if !(r.Reply? && r.result.Completed?) { ResumeAllAnchored(env, r.inst, r.world, events[1..]); }
    }
  }

  /** After a start and any sequence of resumes with any data, the state path is within the nesting depth. */
  lemma RunsStayWithinDepth(env: Env, def: FlowDef, w: Shared, events: seq<Ctx>)
    requires def.initial.Some?
    ensures var r := StartInstance(env, CreateInstance(def), w);
      r.inst.state.Some? && |StatePath(ResumeAll(env, r.inst, r.world, events).0)| <= NestingDepth(def)
  {
    var inst := CreateInstance(def);
    ChainAnchored(env, inst.(state := def.initial, failures := 0), w, 0);
    var r := StartInstance(env, inst, w);
    ResumeAllAnchored(env, r.inst, r.world, events);
    PathWithinDepth(ResumeAll(env, r.inst, r.world, events).0);
  }
}
