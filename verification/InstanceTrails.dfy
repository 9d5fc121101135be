/** How nested instances move: from state to state along their definitions, and through the target of the transition
  * that an accepted resume selects. */
module InstanceTrails {
  import opened Definition
  import opened EngineModel
  import opened EngineFacts
  import opened NestedSubFlows

  // ---------- moves and paths ----------

  /** A branch leads to its targets, a sub-flow transition to the targets of its exits. */
  ghost predicate LeadsTo(t: Transition, b: State) {
    match t.kind
    case Branch => b in t.branchTargets.Values
    case SubFlow => t.subFlow.Some? && b in t.subFlow.value.exitMappings.Values
    case _ => t.to == b
  }

  ghost predicate MayMove(def: FlowDef, a: State, b: State) {
    || (exists t | t in def.transitions :: t.from == a && LeadsTo(t, b))
    || (a in def.errorTransitions && def.errorTransitions[a] == b)
  }

  ghost predicate Path(def: FlowDef, a: State, p: seq<State>, b: State) {
    p != [] && p[0] == a && p[|p| - 1] == b && forall i | 0 <= i < |p| - 1 :: MayMove(def, p[i], p[i + 1])
  }

  ghost predicate Reached(def: FlowDef, a: State, b: State) { exists p :: Path(def, a, p, b) }

  lemma Stays(def: FlowDef, a: State)
    ensures Reached(def, a, a)
  {
    assert Path(def, a, [a], a);
  }

  lemma Moves(def: FlowDef, a: State, b: State)
    requires MayMove(def, a, b)
    ensures Reached(def, a, b)
  {
    assert Path(def, a, [a, b], b);
  }

  lemma Reaches(def: FlowDef, a: State, b: State, c: State)
    requires Reached(def, a, b) && Reached(def, b, c)
    ensures Reached(def, a, c)
  {
    var p :| Path(def, a, p, b);
    var q :| Path(def, b, q, c);
    var r := p + q[1..];
    forall i | 0 <= i < |r| - 1 ensures MayMove(def, r[i], r[i + 1]) {
      if i >= |p| - 1 { assert r[i] == q[i - (|p| - 1)] && r[i + 1] == q[i + 1 - (|p| - 1)]; }
    }
    assert Path(def, a, r, c);
  }

  lemma {:induction false} FirstOfKindIn(ts: seq<Transition>, kind: TransitionType)
    ensures FirstOfKind(ts, kind).Some? ==> FirstOfKind(ts, kind).value in ts && FirstOfKind(ts, kind).value.kind == kind
    ensures FirstOfKind(ts, kind).None? ==> forall t | t in ts :: t.kind != kind
  {
    if ts != [] {
      FirstOfKindIn(ts[1..], kind);
      assert ts == [ts[0]] + ts[1..];
    }
  }

  lemma TransitionMoves(def: FlowDef, a: State, t: Transition, b: State)
    requires t in def.TransitionsFrom(a) && LeadsTo(t, b)
    ensures MayMove(def, a, b)
  {
    LeavingIn(def.transitions, a, t);
  }

  // ---------- the chain ----------

  /** The instance is in a state that moves lead to from `a`. */
  ghost predicate MovedFrom(inst: Instance, a: State) { inst.state.Some? && Reached(inst.def, a, inst.state.value) }

  lemma ErrorMoves(inst: Instance, w: Shared, current: State)
    requires inst.state == Some(current)
    ensures MovedFrom(HandleInstanceError(inst, w, current).inst, current)
  {
    Stays(inst.def, current);
    if current in inst.def.errorTransitions { Moves(inst.def, current, inst.def.errorTransitions[current]); }
  }

  ghost predicate TurnMoves(t: Iteration, current: State) {
    match t
    case Onward(inst, _) => MovedFrom(inst, current)
    case Replied(r) => MovedFrom(r.inst, current)
  }

  lemma OwnTurnMoves(env: Env, inst: Instance, w: Shared, current: State)
    requires inst.state == Some(current)
    ensures TurnMoves(OwnTurn(env, inst, w, current), current)
  {
    var ts := inst.def.TransitionsFrom(current);
    FirstOfKindIn(ts, Auto);
    FirstOfKindIn(ts, Branch);
    Stays(inst.def, current);
    var auto, branch := FirstOfKind(ts, Auto), FirstOfKind(ts, Branch);
    if auto.Some? {
      TransitionMoves(inst.def, current, auto.value, auto.value.to);
      Moves(inst.def, current, auto.value.to);
      forall w1 ensures MovedFrom(HandleInstanceError(inst, w1, current).inst, current) { ErrorMoves(inst, w1, current); }
    } else if branch.Some? && branch.value.branch.Some? {
      match env.decide(branch.value.branch.value, w.ctx, w.tick)
      case Undecided(_) =>
      case Decided(choice) =>
        if choice in branch.value.branchTargets {
          TransitionMoves(inst.def, current, branch.value, branch.value.branchTargets[choice]);
          Moves(inst.def, current, branch.value.branchTargets[choice]);
        }
    }
  }

  lemma MappedMoves(def: FlowDef, current: State, exit: string)
    requires FirstSubFlow(def.TransitionsFrom(current)).Some? && FirstSubFlow(def.TransitionsFrom(current)).value.subFlow.Some?
    requires exit in FirstSubFlow(def.TransitionsFrom(current)).value.subFlow.value.exitMappings
    ensures Reached(def, current, FirstSubFlow(def.TransitionsFrom(current)).value.subFlow.value.exitMappings[exit])
  {
    var t := FirstSubFlow(def.TransitionsFrom(current)).value;
    FirstSubFlowIn(def.TransitionsFrom(current));
    TransitionMoves(def, current, t, t.subFlow.value.exitMappings[exit]);
    Moves(def, current, t.subFlow.value.exitMappings[exit]);
  }

  lemma InstanceTurnMoves(env: Env, inst: Instance, w: Shared, current: State)
    requires inst.state == Some(current)
    ensures TurnMoves(InstanceTurn(env, inst, w, current), current)
  {
    match FirstSubFlow(inst.def.TransitionsFrom(current))
    case Some(t) =>
      NestedIsSmaller(inst.def, current);
      Stays(inst.def, current);
      var child := StartInstance(env, CreateInstance(t.subFlow.value.definition), w);
      if child.Reply? && child.result.Completed? {
        ErrorMoves(inst, child.world, current);
        if child.result.exit in t.subFlow.value.exitMappings { MappedMoves(inst.def, current, child.result.exit); }
      }
    case None => OwnTurnMoves(env, inst, w, current);
  }

  lemma {:induction false} ChainMoves(env: Env, inst: Instance, w: Shared, depth: nat)
    requires inst.state.Some?
    ensures MovedFrom(RunAutoChain(env, inst, w, depth).inst, inst.state.value)
    decreases if depth <= MAX_STEPS then MAX_STEPS - depth else 0
  {
    var current := inst.state.value;
    Stays(inst.def, current);
    if depth < MAX_STEPS && !inst.def.Terminal(current) {
      InstanceTurnMoves(env, inst, w, current);
      match InstanceTurn(env, inst, w, current)
      case Replied(r) =>
      case Onward(inst1, w1) =>
        ChainMoves(env, inst1, w1, depth + 1);
        Reaches(inst.def, current, inst1.state.value, RunAutoChain(env, inst1, w1, depth + 1).inst.state.value);
    }
  }

  // ---------- an accepted resume ----------

  /** The guard of `t` accepts and its processor returns; without a guard neither is asked. */
  ghost predicate Accepts(env: Env, t: Transition, w: Shared) {
    match t.guard
    case None => true
    case Some(g) =>
      && env.validate(g, w.ctx, w.tick).Accepted?
      && (t.processor.Some? ==> env.process(t.processor.value, w.ctx + env.validate(g, w.ctx, w.tick).data, w.tick + 1).Returned?)
  }

  /** The context such a resume leaves for the chain. */
  ghost function Received(env: Env, t: Transition, w: Shared): Ctx
    requires Accepts(env, t, w)
  {
    match t.guard
    case None => w.ctx
    case Some(g) =>
      var granted := w.ctx + env.validate(g, w.ctx, w.tick).data;
      if t.processor.Some? then granted + env.process(t.processor.value, granted, w.tick + 1).puts else granted
  }

  /** The event selects `t` in the state of the deepest instance. */
  ghost predicate Selects(inst: Instance, keys: set<Key>, t: Transition) {
    var d := Deepest(inst);
    d.state.Some? && d.def.ExternalsFrom(d.state.value) != [] && Select(d.def.ExternalsFrom(d.state.value), keys) == Selected(t)
  }

  /** The deepest instance goes on from the target of the transition. */
  lemma AcceptedGoesOn(env: Env, inst: Instance, w: Shared, keys: set<Key>, t: Transition) returns (w1: Shared)
    requires inst.active.None? && Selects(inst, keys, t) && Accepts(env, t, w)
    ensures w1.ctx == Received(env, t, w)
    ensures ResumeInstance(env, inst, w, keys) == RunAutoChain(env, inst.(state := Some(t.to)), w1, 0)
  {
    w1 := w;
    if t.guard.Some? {
      var data := env.validate(t.guard.value, w.ctx, w.tick).data;
      w1 := Shared(w.ctx + data, w.tick + 1, w.asked + [Asked(inst.def, inst.state.value)]);
      if t.processor.Some? {
        w1 := Shared(w1.ctx + env.process(t.processor.value, w1.ctx, w1.tick).puts, w1.tick + 1, w1.asked);
      }
    }
  }

  /** What the end of a child means for its parent: it moves on from the target of a mapped exit; with any other it enters its
    * error target or stays. A child that has not ended stays where it is. */
  ghost predicate ParentFollows(inst: Instance, child: Reply, r: Reply) {
    && r.inst.def == inst.def
    && if child.Reply? && child.result.Completed? then
         var t := if inst.state.Some? then FirstSubFlow(inst.def.TransitionsFrom(inst.state.value)) else None;
         if t.Some? && t.value.subFlow.Some? && child.result.exit in t.value.subFlow.value.exitMappings
         then MovedFrom(r.inst, t.value.subFlow.value.exitMappings[child.result.exit])
         else
           && r.inst.active.None?
           && r.inst.state == (if inst.state.Some? && inst.state.value in inst.def.errorTransitions
                               then Some(inst.def.errorTransitions[inst.state.value]) else inst.state)
       else r.inst == inst.(active := Some(child.inst)) && (child.Reply? ==> r.Reply? && r.result == child.result)
  }

  /** At the deepest level the instance has gone on from `target`; at each level above the parent has followed. */
  ghost predicate WentThrough(inst: Instance, r: Reply, target: State)
    decreases inst
  {
    if inst.active.None? then r.inst.def == inst.def && MovedFrom(r.inst, target)
    else exists child: Reply :: WentThrough(inst.active.value, child, target) && ParentFollows(inst, child, r)
  }

  lemma ResumeFollows(env: Env, inst: Instance, w: Shared, keys: set<Key>)
    requires inst.state.Some? && inst.active.Some?
    ensures ParentFollows(inst, ResumeInstance(env, inst.active.value, w, keys), ResumeInstance(env, inst, w, keys))
  {
    match ResumeInstance(env, inst.active.value, w, keys)
    case Faulted(_, _, _) =>
    case Reply(_, w1, Completed(exit)) =>
      var t := FirstSubFlow(inst.def.TransitionsFrom(inst.state.value));
      if t.Some? && t.value.subFlow.Some? && exit in t.value.subFlow.value.exitMappings {
        ChainMoves(env, inst.(active := None, state := Some(t.value.subFlow.value.exitMappings[exit])), w1, 0);
      }
    case Reply(_, _, _) =>
  }

  /** When the guard asked on a resume accepts and the processor returns, the deepest instance takes the transition to its
    * target, and every state it and its parents are in afterwards is linked from there. */
  lemma {:induction false} AcceptedTakesTransition(env: Env, inst: Instance, w: Shared, keys: set<Key>, t: Transition)
    requires Anchored(inst) && inst.state.Some? && Selects(inst, keys, t) && Accepts(env, t, w)
    ensures WentThrough(inst, ResumeInstance(env, inst, w, keys), t.to)
    decreases inst
  {
    if inst.active.None? {
      var w1 := AcceptedGoesOn(env, inst, w, keys, t);
      ChainMoves(env, inst.(state := Some(t.to)), w1, 0);
    } else {
      AcceptedTakesTransition(env, inst.active.value, w, keys, t);
      ResumeFollows(env, inst, w, keys);
    }
  }

  // ---------- a target where the instance waits ----------

  lemma StopsAt(env: Env, inst: Instance, w: Shared, depth: nat)
    requires inst.state.Some? && WaitsIn(inst.def, inst.state.value) && depth < MAX_STEPS
    ensures RunAutoChain(env, inst, w, depth) == Reply(inst, w, WaitingAtExternal)
  {
    var ts := inst.def.TransitionsFrom(inst.state.value);
    forall t | t in ts ensures t.kind == External { LeavingIn(inst.def.transitions, inst.state.value, t); }
    FirstSubFlowIn(ts);
    FirstOfKindIn(ts, Auto);
    FirstOfKindIn(ts, Branch);
  }

  /** The tree with the deepest instance in another state. */
  function DeepestIn(inst: Instance, z: State): Instance {
    if inst.active.Some? then inst.(active := Some(DeepestIn(inst.active.value, z))) else inst.(state := Some(z))
  }

  lemma {:induction false} LastReplaced(inst: Instance, z: State)
    requires Anchored(inst) && inst.state.Some?
    ensures StatePath(inst) != [] && StatePath(DeepestIn(inst, z)) == StatePath(inst)[..|StatePath(inst)| - 1] + [z]
    decreases inst
  {
    if inst.active.Some? {
      LastReplaced(inst.active.value, z);
      var rest := StatePath(inst.active.value);
      assert StatePath(inst) == [inst.state.value] + rest;
      assert StatePath(inst)[..|StatePath(inst)| - 1] == [inst.state.value] + rest[..|rest| - 1];
    }
  }

  /** Where the target waits for another event, nothing but the last entry of the state path has changed, and the context holds
    * what the guard and the processor put. */
  lemma {:induction false} AcceptedReplacesLast(env: Env, inst: Instance, w: Shared, keys: set<Key>, t: Transition)
    requires Anchored(inst) && inst.state.Some? && Selects(inst, keys, t) && Accepts(env, t, w)
    requires WaitsIn(Deepest(inst).def, t.to)
    ensures var r := ResumeInstance(env, inst, w, keys);
      && r.Reply? && r.result == WaitingAtExternal && r.inst == DeepestIn(inst, t.to)
      && r.world.ctx == Received(env, t, w)
      && StatePath(inst) != [] && StatePath(r.inst) == StatePath(inst)[..|StatePath(inst)| - 1] + [t.to]
    decreases inst
  {
    LastReplaced(inst, t.to);
    if inst.active.None? {
      var w1 := AcceptedGoesOn(env, inst, w, keys, t);
      StopsAt(env, inst.(state := Some(t.to)), w1, 0);
    } else {
      AcceptedReplacesLast(env, inst.active.value, w, keys, t);
    }
  }

  /** The automatic transition out of the current state: the context keeps what the processor puts; when it returns the instance
    * is in the target, and waits there if that is left by external transitions only. */
  lemma AutomaticMoves(env: Env, inst: Instance, w: Shared, t: Transition, p: Processor)
    requires inst.state.Some? && !inst.def.Terminal(inst.state.value)
    requires FirstSubFlow(inst.def.TransitionsFrom(inst.state.value)).None?
    requires FirstOfKind(inst.def.TransitionsFrom(inst.state.value), Auto) == Some(t) && t.processor == Some(p)
    requires env.process(p, w.ctx, w.tick).Returned? && WaitsIn(inst.def, t.to)
    ensures RunAutoChain(env, inst, w, 0) == Reply(inst.(state := Some(t.to)),
      Shared(w.ctx + env.process(p, w.ctx, w.tick).puts, w.tick + 1, w.asked), WaitingAtExternal)
  {
    var moved, w1 := inst.(state := Some(t.to)), Shared(w.ctx + env.process(p, w.ctx, w.tick).puts, w.tick + 1, w.asked);
    assert InstanceTurn(env, inst, w, inst.state.value) == Onward(moved, w1);
    StopsAt(env, moved, w1, 1);
  }

  /** A branch: the instance is where the answer is mapped to; the processors of branch transitions are not run. */
  lemma BranchMoves(env: Env, inst: Instance, w: Shared, t: Transition, b: Brancher, l: Label)
    requires inst.state.Some? && !inst.def.Terminal(inst.state.value)
    requires FirstSubFlow(inst.def.TransitionsFrom(inst.state.value)).None?
    requires FirstOfKind(inst.def.TransitionsFrom(inst.state.value), Auto).None?
    requires FirstOfKind(inst.def.TransitionsFrom(inst.state.value), Branch) == Some(t) && t.branch == Some(b)
    requires env.decide(b, w.ctx, w.tick) == Decided(l) && l in t.branchTargets && WaitsIn(inst.def, t.branchTargets[l])
    ensures RunAutoChain(env, inst, w, 0)
      == Reply(inst.(state := Some(t.branchTargets[l])), w.(tick := w.tick + 1), WaitingAtExternal)
  {
    var moved, w1 := inst.(state := Some(t.branchTargets[l])), w.(tick := w.tick + 1);
    assert InstanceTurn(env, inst, w, inst.state.value) == Onward(moved, w1);
    StopsAt(env, moved, w1, 1);
  }

  /** When the processor throws, the deepest instance ends: in its error target, whose name is the exit if it is terminal, or
    * where it is; nothing is rolled back. */
  lemma FailedProcessorEnds(env: Env, inst: Instance, w: Shared, keys: set<Key>, t: Transition, g: Guard, p: Processor)
    requires inst.active.None? && Selects(inst, keys, t) && t.guard == Some(g) && t.processor == Some(p)
    requires env.validate(g, w.ctx, w.tick).Accepted?
    requires env.process(p, w.ctx + env.validate(g, w.ctx, w.tick).data, w.tick + 1).Threw?
    ensures var a, r := inst.state.value, ResumeInstance(env, inst, w, keys);
      var granted := w.ctx + env.validate(g, w.ctx, w.tick).data;
      && r.Reply? && r.world.ctx == granted + env.process(p, granted, w.tick + 1).puts
      && r.inst.state == Some(if a in inst.def.errorTransitions then inst.def.errorTransitions[a] else a)
      && r.result == Completed(
           if a in inst.def.errorTransitions && inst.def.Terminal(inst.def.errorTransitions[a]) then inst.def.errorTransitions[a]
           else "ERROR")
  {}

  // ---------- whole runs ----------

  /** Every instance of the tree is in a state that moves lead to from the initial state of its definition. */
  ghost predicate OnTrail(inst: Instance) {
    && inst.def.initial.Some? && MovedFrom(inst, inst.def.initial.value)
    && (inst.active.Some? ==> OnTrail(inst.active.value))
  }

  ghost predicate ActiveOnTrail(inst: Instance) { inst.active.Some? ==> OnTrail(inst.active.value) }

  lemma {:induction false} ChainOnTrail(env: Env, inst: Instance, w: Shared, depth: nat)
    requires inst.state.Some? && inst.active.None?
    ensures ActiveOnTrail(RunAutoChain(env, inst, w, depth).inst)
    decreases inst.def, 1 + (if depth <= MAX_STEPS then MAX_STEPS - depth else 0)
  {
    var current := inst.state.value;
    if depth < MAX_STEPS && !inst.def.Terminal(current) {
      TurnOnTrail(env, inst, w, current);
      match InstanceTurn(env, inst, w, current)
      case Replied(r) =>
      case Onward(inst1, w1) =>
        ChainTurnAnchored(env, inst, w, current);
        ChainOnTrail(env, inst1, w1, depth + 1);
    }
  }

  lemma {:induction false} TurnOnTrail(env: Env, inst: Instance, w: Shared, current: State)
    requires inst.state == Some(current) && inst.active.None?
    ensures var t := InstanceTurn(env, inst, w, current); t.Replied? ==> ActiveOnTrail(t.reply.inst)
    decreases inst.def, 0
  {
    match FirstSubFlow(inst.def.TransitionsFrom(current))
    case Some(t) =>
      NestedIsSmaller(inst.def, current);
      StartOnTrail(env, t.subFlow.value.definition, w);
    case None =>
  }

  /** A started instance is on its trail. */
  lemma {:induction false} StartOnTrail(env: Env, def: FlowDef, w: Shared)
    ensures def.initial.Some? ==> OnTrail(StartInstance(env, CreateInstance(def), w).inst)
    decreases def, 2 + MAX_STEPS
  {
    if def.initial.Some? {
      var inst := CreateInstance(def).(state := def.initial, failures := 0);
      ChainMoves(env, inst, w, 0);
      ChainOnTrail(env, inst, w, 0);
    }
  }

  lemma GoesOnTrail(env: Env, inst: Instance, w: Shared, from: State)
    requires inst.state.Some? && inst.active.None? && inst.def.initial.Some?
    requires Reached(inst.def, inst.def.initial.value, from) && Reached(inst.def, from, inst.state.value)
    ensures OnTrail(RunAutoChain(env, inst, w, 0).inst)
  {
    ChainMoves(env, inst, w, 0);
    ChainOnTrail(env, inst, w, 0);
    Reaches(inst.def, inst.def.initial.value, from, inst.state.value);
    Reaches(inst.def, inst.def.initial.value, inst.state.value, RunAutoChain(env, inst, w, 0).inst.state.value);
  }

  lemma ErrorOnTrail(inst: Instance, w: Shared, current: State)
    requires OnTrail(inst) && inst.active.None? && inst.state == Some(current)
    ensures OnTrail(HandleInstanceError(inst, w, current).inst)
  {
    ErrorMoves(inst, w, current);
    Reaches(inst.def, inst.def.initial.value, current, HandleInstanceError(inst, w, current).inst.state.value);
  }

  lemma ExternalMoves(inst: Instance, current: State, keys: set<Key>)
    requires inst.def.ExternalsFrom(current) != [] && Select(inst.def.ExternalsFrom(current), keys).Selected?
    ensures Reached(inst.def, current, Select(inst.def.ExternalsFrom(current), keys).transition.to)
  {
    var t := Select(inst.def.ExternalsFrom(current), keys).transition;
    SelectedIsExternal(inst.def.ExternalsFrom(current), keys);
    OfKindIn(inst.def.TransitionsFrom(current), External, t);
    TransitionMoves(inst.def, current, t, t.to);
    Moves(inst.def, current, t.to);
  }

  lemma AcceptOnTrail(env: Env, inst: Instance, w: Shared, t: Transition)
    requires OnTrail(inst) && inst.active.None? && Reached(inst.def, inst.state.value, t.to)
    ensures OnTrail(AcceptHere(env, inst, w, t).inst)
  {
    var moved := inst.(state := Some(t.to));
    Reaches(inst.def, inst.def.initial.value, inst.state.value, t.to);
    Stays(inst.def, t.to);
    forall w1 ensures OnTrail(RunAutoChain(env, moved, w1, 0).inst) { GoesOnTrail(env, moved, w1, t.to); }
    forall w1 ensures OnTrail(HandleInstanceError(inst, w1, inst.state.value).inst) { ErrorOnTrail(inst, w1, inst.state.value); }
  }

  lemma ResumeHereOnTrail(env: Env, inst: Instance, w: Shared, keys: set<Key>)
    requires OnTrail(inst) && inst.active.None?
    ensures OnTrail(ResumeHere(env, inst, w, keys).inst)
  {
    var current := inst.state.value;
    var externals := inst.def.ExternalsFrom(current);
    if externals != [] && Select(externals, keys).Selected? {
      var t := Select(externals, keys).transition;
      ExternalMoves(inst, current, keys);
      if t.guard.None? {
        Reaches(inst.def, inst.def.initial.value, current, t.to);
        Stays(inst.def, t.to);
        GoesOnTrail(env, inst.(state := Some(t.to)), w, t.to);
      } else {
        forall w1 ensures OnTrail(AcceptHere(env, inst, w1, t).inst) { AcceptOnTrail(env, inst, w1, t); }
        var counted := inst.(failures := inst.failures + 1);
        forall w1 ensures OnTrail(HandleInstanceError(counted, w1, current).inst) { ErrorOnTrail(counted, w1, current); }
      }
    }
  }

  /** Any resume keeps every instance on its trail. */
  lemma {:induction false} ResumeOnTrail(env: Env, inst: Instance, w: Shared, keys: set<Key>)
    requires OnTrail(inst)
    ensures OnTrail(ResumeInstance(env, inst, w, keys).inst)
    decreases inst
  {
    if inst.active.None? {
      ResumeHereOnTrail(env, inst, w, keys);
    } else {
      ResumeOnTrail(env, inst.active.value, w, keys);
      match ResumeInstance(env, inst.active.value, w, keys)
      case Faulted(_, _, _) =>
      case Reply(_, w1, Completed(exit)) => BehindOnTrail(env, inst.(active := None), w1, exit);
      case Reply(_, _, _) =>
    }
  }

  lemma BehindOnTrail(env: Env, inst: Instance, w: Shared, exit: string)
    requires OnTrail(inst) && inst.active.None?
    ensures OnTrail(ChildCompleted(env, inst, w, exit).inst)
  {
    var current := inst.state.value;
    var t := FirstSubFlow(inst.def.TransitionsFrom(current));
    if t.Some? && t.value.subFlow.Some? && exit in t.value.subFlow.value.exitMappings {
      var z := t.value.subFlow.value.exitMappings[exit];
      MappedMoves(inst.def, current, exit);
      Reaches(inst.def, inst.def.initial.value, current, z);
      Stays(inst.def, z);
      GoesOnTrail(env, inst.(state := Some(z)), w, z);
    } else {
      ErrorOnTrail(inst, w, current);
    }
  }

  lemma {:induction false} ResumeAllOnTrail(env: Env, inst: Instance, w: Shared, events: seq<Ctx>)
    requires OnTrail(inst)
    ensures OnTrail(ResumeAll(env, inst, w, events).0)
    decreases |events|
  {
    if events != [] {
      var arrived := w.(ctx := w.ctx + events[0]);
      ResumeOnTrail(env, inst, arrived, events[0].Keys);
      var r := ResumeInstance(env, inst, arrived, events[0].Keys);
      if !(r.Reply? && r.result.Completed?) { ResumeAllOnTrail(env, r.inst, r.world, events[1..]); }
    }
  }

  /** After a start and any sequence of resumes with any data, every instance of the tree is in a state that moves of its
    * definition lead to from its initial state. */
  lemma RunsStayOnTrail(env: Env, def: FlowDef, w: Shared, events: seq<Ctx>)
    requires def.initial.Some?
    ensures var r := StartInstance(env, CreateInstance(def), w);
      OnTrail(ResumeAll(env, r.inst, r.world, events).0)
  {
    StartOnTrail(env, def, w);
    var r := StartInstance(env, CreateInstance(def), w);
    ResumeAllOnTrail(env, r.inst, r.world, events);
  }
}
