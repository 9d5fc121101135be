/** How root flows of the Rust engine move: along their definitions, through the target of the transition an accepted resume
  * selects, with the actions of the states left and entered and the entry time kept in step. */
module RootTrails {
  import opened Definition
  import opened EngineModel
  import opened EngineFacts
  import opened Effects
  import Trails
  import opened NestedSubFlows
  import opened InstanceTrails
  import opened RootFlows

  /** One move; routed errors fire no actions. */
  datatype Hop = Hop(from: State, to: State, acted: bool)

  ghost predicate RootMayMove(def: FlowDef, a: State, b: State) {
    MayMove(def, a, b) || (a in def.exceptionRoutes && exists r | r in def.exceptionRoutes[a] :: r.target == b)
  }

  /** `hops` leads from `a` to `b`, each starting where the one before ended. */
  ghost predicate Trail(def: FlowDef, a: State, hops: seq<Hop>, b: State) {
    if hops == [] then a == b
    else
      var last := hops[|hops| - 1];
      last.to == b && RootMayMove(def, last.from, b) && Trail(def, a, hops[..|hops| - 1], last.from)
  }

  /** The actions of the moves, one after the other. */
  function Acted<V>(w: Watch<V>, hops: seq<Hop>, v: V): V {
    if hops == [] then v
    else
      var last := hops[|hops| - 1];
      var before := Acted(w, hops[..|hops| - 1], v);
      if last.acted then w.enters(last.to, w.exits(last.from, before)) else before
  }

  lemma {:induction false} TrailAppend<V>(w: Watch<V>, def: FlowDef, a: State, x: seq<Hop>, b: State, y: seq<Hop>, c: State, v: V)
    requires Trail(def, a, x, b) && Trail(def, b, y, c)
    ensures Trail(def, a, x + y, c) && Acted(w, x + y, v) == Acted(w, y, Acted(w, x, v))
  {
    if y == [] {
      assert x + y == x;
    } else {
      var n := |y| - 1;
      TrailAppend(w, def, a, x, b, y[..n], y[n].from, v);
      assert (x + y)[..|x + y| - 1] == x + y[..n] && (x + y)[|x + y| - 1] == y[n];
    }
  }

  /** Nothing but the actions changes what is watched. In a sub-flow what a throwing processor has put stays. */
  ghost predicate WatchedFully<V>(env: Env, w: Watch<V>) {
    Watched(env, w) && forall p, ctx, n :: w.look(ctx + env.process(p, ctx, n).puts) == w.look(ctx)
  }

  // ---------- from one flow to a later one ----------

  /** The ticks at which a call begins and ends. */
  datatype Span = Span(first: nat, last: nat)

  /** `hops` explains how `f` became `r`. */
  ghost predicate Explains<V>(env: Env, w: Watch<V>, f: Root, r: Root, span: Span, hops: seq<Hop>) {
    && r.def == f.def && r.expiresAt == f.expiresAt && span.first <= span.last
    && Trail(f.def, f.state, hops, r.state)
    && w.look(r.ctx) == Acted(w, hops, w.look(f.ctx))
    && (if hops == [] then r.enteredAt == f.enteredAt else ReadBetween(env, r.enteredAt, span.first, span.last))
  }

  ghost predicate RootExplained<V>(env: Env, w: Watch<V>, f: Root, r: Root, span: Span) {
    exists hops :: Explains(env, w, f, r, span, hops)
  }

  lemma Kept<V>(env: Env, w: Watch<V>, f: Root, r: Root, span: Span)
    requires r.def == f.def && r.expiresAt == f.expiresAt && r.state == f.state && r.enteredAt == f.enteredAt
    requires w.look(r.ctx) == w.look(f.ctx) && span.first <= span.last
    ensures RootExplained(env, w, f, r, span)
  {
    assert Explains(env, w, f, r, span, []);
  }

  lemma Joined<V>(env: Env, w: Watch<V>, f: Root, m: Root, r: Root, a: nat, b: nat, c: nat, x: seq<Hop>, y: seq<Hop>)
    requires Explains(env, w, f, m, Span(a, b), x) && Explains(env, w, m, r, Span(b, c), y)
    ensures Explains(env, w, f, r, Span(a, c), x + y)
  {
    TrailAppend(w, f.def, f.state, x, m.state, y, r.state, w.look(f.ctx));
    if y != [] {
      var n :| b <= n <= c && r.enteredAt == env.clock(n);
      assert a <= n <= c;
    } else if x != [] {
      var n :| a <= n <= b && m.enteredAt == env.clock(n);
      assert a <= n <= c;
    }
  }

  lemma Then<V>(env: Env, w: Watch<V>, f: Root, m: Root, r: Root, a: nat, b: nat, c: nat)
    requires RootExplained(env, w, f, m, Span(a, b)) && RootExplained(env, w, m, r, Span(b, c))
    ensures RootExplained(env, w, f, r, Span(a, c))
  {
    var x :| Explains(env, w, f, m, Span(a, b), x);
    var y :| Explains(env, w, m, r, Span(b, c), y);
    Joined(env, w, f, m, r, a, b, c, x, y);
  }

  lemma OneHop<V>(env: Env, w: Watch<V>, f: Root, r: Root, n: nat, hop: Hop)
    requires r.def == f.def && r.expiresAt == f.expiresAt && r.enteredAt == env.clock(n)
    requires hop.from == f.state && hop.to == r.state && RootMayMove(f.def, f.state, r.state)
    requires w.look(r.ctx) == if hop.acted then w.enters(hop.to, w.exits(hop.from, w.look(f.ctx))) else w.look(f.ctx)
    ensures Explains(env, w, f, r, Span(n, n + 1), [hop])
  {
    assert [hop][..0] == [];
  }

  // ---------- one step ----------

  lemma Travelled<V>(env: Env, w: Watch<V>, f: Root, to: State, n: nat)
    requires Watched(env, w) && RootMayMove(f.def, f.state, to)
    ensures Explains(env, w, f, Travel(env, f, to, n), Span(n, n + 1), [Hop(f.state, to, true)])
  {
    OneHop(env, w, f, Travel(env, f, to, n), n, Hop(f.state, to, true));
  }

  lemma RoutedExplained<V>(env: Env, w: Watch<V>, f: Root, cause: Option<string>, n: nat)
    ensures RootExplained(env, w, f, RouteError(env, f, cause, n), Span(n, n + 1))
  {
    var r := RouteError(env, f, cause, n);
    match ErrorTarget(env, f.def, f.state, cause)
    case Some((target, _)) =>
      RouteIsDeclared(env, f.def, f.state, cause);
      OneHop(env, w, f, r, n, Hop(f.state, target, false));
    case None => Kept(env, w, f, r, Span(n, n + 1));
  }

  lemma RouteIsDeclared(env: Env, def: FlowDef, from: State, cause: Option<string>)
    requires ErrorTarget(env, def, from, cause).Some?
    ensures RootMayMove(def, from, ErrorTarget(env, def, from, cause).value.0)
  {
    if cause.Some? && from in def.exceptionRoutes { Trails.MatchingRouteIn(env, def.exceptionRoutes[from], cause.value); }
  }

  lemma TransitionMay(def: FlowDef, a: State, t: Transition, b: State)
    requires t in def.TransitionsFrom(a) && LeadsTo(t, b)
    ensures RootMayMove(def, a, b)
  {
    TransitionMoves(def, a, t, b);
  }

  ghost predicate StepExplained<V>(env: Env, w: Watch<V>, f: Root, n: nat, s: Step) {
    match s
    case Left(r) => n <= r.tick && RootExplained(env, w, f, r.flow, Span(n, r.tick))
    case Went(f1, n1) => n <= n1 && RootExplained(env, w, f, f1, Span(n, n1))
  }

  lemma ProcessExplained<V>(env: Env, w: Watch<V>, f: Root, p: Option<Processor>, verify: bool, n: nat)
    requires WatchedFully(env, w)
    ensures StepExplained(env, w, f, n, Process(env, f, p, verify, n))
    ensures var s := Process(env, f, p, verify, n); s.Went? ==> s.flow.def == f.def && s.flow.state == f.state
  {
    match p
    case None => Kept(env, w, f, f, Span(n, n));
    case Some(proc) =>
      match env.process(proc, f.ctx, n)
      case Threw(_, error) => RoutedExplained(env, w, f, Some(error), n);
      case Returned(puts) =>
        RoutedExplained(env, w, f, None, n);
        Kept(env, w, f, f.(ctx := f.ctx + puts), Span(n, n + 1));
  }

  /** A processor, then the move. */
  lemma RunAndTravel<V>(env: Env, w: Watch<V>, f: Root, p: Option<Processor>, verify: bool, to: State, n: nat)
    requires WatchedFully(env, w) && RootMayMove(f.def, f.state, to)
    ensures var s := Process(env, f, p, verify, n);
      StepExplained(env, w, f, n, s) && (s.Went? ==> RootExplained(env, w, f, Travel(env, s.flow, to, s.tick), Span(n, s.tick + 1)))
  {
    ProcessExplained(env, w, f, p, verify, n);
    var s := Process(env, f, p, verify, n);
    if s.Went? {
      Travelled(env, w, s.flow, to, s.tick);
      Then(env, w, f, s.flow, Travel(env, s.flow, to, s.tick), n, s.tick, s.tick + 1);
    }
  }

  lemma OneTickLater<V>(env: Env, w: Watch<V>, f: Root, n: nat, s: Step)
    requires StepExplained(env, w, f, n + 1, s)
    ensures StepExplained(env, w, f, n, s)
  {
    Kept(env, w, f, f, Span(n, n + 1));
    match s
    case Left(r) => Then(env, w, f, f, r.flow, n, n + 1, r.tick);
    case Went(f1, n1) => Then(env, w, f, f, f1, n, n + 1, n1);
  }

  lemma BranchStepExplained<V>(env: Env, w: Watch<V>, f: Root, t: Transition, b: Brancher, n: nat)
    requires WatchedFully(env, w) && t in f.def.TransitionsFrom(f.state) && t.kind == Branch
    ensures StepExplained(env, w, f, n, BranchStep(env, f, f.def.TransitionsFrom(f.state), t, b, n))
  {
    var ts := f.def.TransitionsFrom(f.state);
    match env.decide(b, f.ctx, n)
    case Undecided(_) => Kept(env, w, f, f, Span(n, n + 1));
    case Decided(choice) =>
      if choice in t.branchTargets {
        var target := t.branchTargets[choice];
        TransitionMay(f.def, f.state, t, target);
        RunAndTravel(env, w, f, Specific(ts, t, choice, target).processor, false, target, n + 1);
        OneTickLater(env, w, f, n, BranchStep(env, f, ts, t, b, n));
      } else {
        RoutedExplained(env, w, f, Some("FlowError"), n);
      }
  }

  // ---------- sub-flows leave alone what is watched ----------

  ghost predicate Unwatched<V>(w: Watch<V>, before: Shared, after: Shared) {
    before.tick <= after.tick && w.look(after.ctx) == w.look(before.ctx)
  }

  lemma OwnTurnUnwatched<V>(env: Env, w: Watch<V>, inst: Instance, s: Shared, current: State)
    requires WatchedFully(env, w)
    ensures var t := OwnTurn(env, inst, s, current);
      (t.Onward? ==> Unwatched(w, s, t.world)) && (t.Replied? ==> Unwatched(w, s, t.reply.world))
  {}

  lemma {:induction false} TurnUnwatched<V>(env: Env, w: Watch<V>, inst: Instance, s: Shared, current: State)
    requires WatchedFully(env, w)
    ensures var t := InstanceTurn(env, inst, s, current);
      (t.Onward? ==> Unwatched(w, s, t.world)) && (t.Replied? ==> Unwatched(w, s, t.reply.world))
    decreases inst.def, 0
  {
    match FirstSubFlow(inst.def.TransitionsFrom(current))
    case Some(t) =>
      NestedIsSmaller(inst.def, current);
      StartUnwatched(env, w, CreateInstance(t.subFlow.value.definition), s);
    case None => OwnTurnUnwatched(env, w, inst, s, current);
  }

  lemma {:induction false} InstanceChainUnwatched<V>(env: Env, w: Watch<V>, inst: Instance, s: Shared, depth: nat)
    requires WatchedFully(env, w) && inst.state.Some?
    ensures Unwatched(w, s, RunAutoChain(env, inst, s, depth).world)
    decreases inst.def, 1 + (if depth <= MAX_STEPS then MAX_STEPS - depth else 0)
  {
    var current := inst.state.value;
    if depth < MAX_STEPS && !inst.def.Terminal(current) {
      TurnUnwatched(env, w, inst, s, current);
      match InstanceTurn(env, inst, s, current)
      case Replied(r) =>
      case Onward(inst1, s1) => InstanceChainUnwatched(env, w, inst1, s1, depth + 1);
    }
  }

  lemma {:induction false} StartUnwatched<V>(env: Env, w: Watch<V>, inst: Instance, s: Shared)
    requires WatchedFully(env, w)
    ensures Unwatched(w, s, StartInstance(env, inst, s).world)
    decreases inst.def, 2 + MAX_STEPS
  {
    if inst.def.initial.Some? { InstanceChainUnwatched(env, w, inst.(state := inst.def.initial, failures := 0), s, 0); }
  }

  lemma AcceptUnwatched<V>(env: Env, w: Watch<V>, inst: Instance, s: Shared, t: Transition)
    requires WatchedFully(env, w) && inst.state.Some?
    ensures Unwatched(w, s, AcceptHere(env, inst, s, t).world)
  {
    var moved := inst.(state := Some(t.to));
    if t.processor.None? {
      InstanceChainUnwatched(env, w, moved, s, 0);
    } else {
      match env.process(t.processor.value, s.ctx, s.tick)
      case Threw(_, _) =>
      case Returned(puts) => InstanceChainUnwatched(env, w, moved, Shared(s.ctx + puts, s.tick + 1, s.asked), 0);
    }
  }

  lemma ResumeHereUnwatched<V>(env: Env, w: Watch<V>, inst: Instance, s: Shared, keys: set<Key>)
    requires WatchedFully(env, w) && inst.state.Some?
    ensures Unwatched(w, s, ResumeHere(env, inst, s, keys).world)
  {
    var externals := inst.def.ExternalsFrom(inst.state.value);
    if externals != [] && Select(externals, keys).Selected? {
      var t := Select(externals, keys).transition;
      if t.guard.None? {
        InstanceChainUnwatched(env, w, inst.(state := Some(t.to)), s, 0);
      } else {
        var asked := Shared(s.ctx, s.tick + 1, s.asked + [Asked(inst.def, inst.state.value)]);
        match env.validate(t.guard.value, s.ctx, s.tick)
        case Accepted(data) => AcceptUnwatched(env, w, inst, asked.(ctx := s.ctx + data), t);
        case _ =>
      }
    }
  }

  lemma {:induction false} InstanceUnwatched<V>(env: Env, w: Watch<V>, inst: Instance, s: Shared, keys: set<Key>)
    requires WatchedFully(env, w)
    ensures Unwatched(w, s, ResumeInstance(env, inst, s, keys).world)
    decreases inst
  {
    if inst.state.Some? {
      if inst.active.None? {
        ResumeHereUnwatched(env, w, inst, s, keys);
      } else {
        InstanceUnwatched(env, w, inst.active.value, s, keys);
        match ResumeInstance(env, inst.active.value, s, keys)
        case Faulted(_, _, _) =>
        case Reply(_, s1, Completed(exit)) =>
          var t := FirstSubFlow(inst.def.TransitionsFrom(inst.state.value));
          if t.Some? && t.value.subFlow.Some? && exit in t.value.subFlow.value.exitMappings {
            InstanceChainUnwatched(env, w, inst.(active := None, state := Some(t.value.subFlow.value.exitMappings[exit])), s1, 0);
          }
        case Reply(_, _, _) =>
      }
    }
  }

  // ---------- the chain ----------

  lemma EnterExplained<V>(env: Env, w: Watch<V>, f: Root, link: SubFlowLink, n: nat)
    requires WatchedFully(env, w)
    requires FirstSubFlow(f.def.TransitionsFrom(f.state)).Some? && FirstSubFlow(f.def.TransitionsFrom(f.state)).value.subFlow == Some(link)
    ensures StepExplained(env, w, f, n, EnterSubFlow(env, f, link, n))
  {
    var child := StartInstance(env, CreateInstance(link.definition), Shared(f.ctx, n, []));
    StartUnwatched(env, w, CreateInstance(link.definition), Shared(f.ctx, n, []));
    var back := f.(ctx := child.world.ctx);
    Kept(env, w, f, back, Span(n, child.world.tick));
    if child.Reply? && child.result.Completed? {
      ExitExplained(env, w, f, back, link, child.result.exit, n, child.world.tick);
    } else {
      Kept(env, w, f, f.(ctx := child.world.ctx, active := Some(child.inst)), Span(n, child.world.tick));
    }
  }

  lemma ExitExplained<V>(env: Env, w: Watch<V>, f: Root, back: Root, link: SubFlowLink, exit: string, n: nat, m: nat)
    requires Watched(env, w) && RootExplained(env, w, f, back, Span(n, m)) && back.def == f.def && back.state == f.state
    requires FirstSubFlow(f.def.TransitionsFrom(f.state)).Some? && FirstSubFlow(f.def.TransitionsFrom(f.state)).value.subFlow == Some(link)
    ensures exit in link.exitMappings ==> RootExplained(env, w, f, Travel(env, back, link.exitMappings[exit], m), Span(n, m + 1))
    ensures RootExplained(env, w, f, RouteError(env, back, None, m), Span(n, m + 1))
  {
    RoutedExplained(env, w, back, None, m);
    Then(env, w, f, back, RouteError(env, back, None, m), n, m, m + 1);
    if exit in link.exitMappings {
      MappedMay(f.def, f.state, link, exit);
      Travelled(env, w, back, link.exitMappings[exit], m);
      Then(env, w, f, back, Travel(env, back, link.exitMappings[exit], m), n, m, m + 1);
    }
  }

  lemma MappedMay(def: FlowDef, a: State, link: SubFlowLink, exit: string)
    requires FirstSubFlow(def.TransitionsFrom(a)).Some? && FirstSubFlow(def.TransitionsFrom(a)).value.subFlow == Some(link)
    requires exit in link.exitMappings
    ensures RootMayMove(def, a, link.exitMappings[exit])
  {
    FirstSubFlowIn(def.TransitionsFrom(a));
    TransitionMay(def, a, FirstSubFlow(def.TransitionsFrom(a)).value, link.exitMappings[exit]);
  }

  lemma DispatchExplained<V>(cfg: Config, env: Env, w: Watch<V>, f: Root, n: nat)
    requires WatchedFully(env, w)
    ensures StepExplained(env, w, f, n, Dispatch(cfg, env, f, n))
  {
    var ts := f.def.TransitionsFrom(f.state);
    FirstSubFlowIn(ts);
    FirstOfKindIn(ts, Auto);
    FirstOfKindIn(ts, Branch);
    Kept(env, w, f, f, Span(n, n));
    match FirstSubFlow(ts)
    case Some(t) => EnterExplained(env, w, f, t.subFlow.value, n);
    case None =>
      var auto, branch := FirstOfKind(ts, Auto), FirstOfKind(ts, Branch);
      if auto.Some? {
        TransitionMay(f.def, f.state, auto.value, auto.value.to);
        RunAndTravel(env, w, f, auto.value.processor, cfg.strictMode || f.def.strictMode, auto.value.to, n);
      } else if branch.Some? && branch.value.branch.Some? {
        BranchStepExplained(env, w, f, branch.value, branch.value.branch.value, n);
      }
  }

  ghost predicate ReplyExplained<V>(env: Env, w: Watch<V>, f: Root, n: nat, r: RootReply) {
    n <= r.tick && RootExplained(env, w, f, r.flow, Span(n, r.tick))
  }

  lemma {:induction false} RootChainExplained<V>(cfg: Config, env: Env, w: Watch<V>, f: Root, n: nat, depth: nat)
    requires WatchedFully(env, w)
    ensures ReplyExplained(env, w, f, n, RootChain(cfg, env, f, n, depth))
    decreases if depth <= cfg.maxChainDepth then cfg.maxChainDepth - depth else 0
  {
    if depth >= cfg.maxChainDepth || f.exit.Some? || f.def.Terminal(f.state) {
      Kept(env, w, f, RootChain(cfg, env, f, n, depth).flow, Span(n, n));
    } else {
      DispatchExplained(cfg, env, w, f, n);
      match Dispatch(cfg, env, f, n)
      case Left(r) =>
      case Went(f1, n1) =>
        RootChainExplained(cfg, env, w, f1, n1, depth + 1);
        var r := RootChain(cfg, env, f1, n1, depth + 1);
        Then(env, w, f, f1, r.flow, n, n1, r.tick);
    }
  }

  // ---------- an accepted resume ----------

  /** A move to `to` first, with its actions; then, unless the trigger reads as an error, whatever the chain does. */
  ghost predicate GoesThrough<V>(env: Env, w: Watch<V>, f: Root, n: nat, r: RootReply, to: State) {
    n <= r.tick && exists hops :: Explains(env, w, f, r.flow, Span(n, r.tick), [Hop(f.state, to, true)] + hops)
  }

  lemma ThroughIsExplained<V>(env: Env, w: Watch<V>, f: Root, n: nat, r: RootReply, to: State)
    requires GoesThrough(env, w, f, n, r, to)
    ensures ReplyExplained(env, w, f, n, r)
  {
    var hops :| Explains(env, w, f, r.flow, Span(n, r.tick), [Hop(f.state, to, true)] + hops);
  }

  lemma MovedOnThrough<V>(cfg: Config, env: Env, w: Watch<V>, f: Root, to: State, trigger: string, n: nat)
    requires WatchedFully(env, w) && RootMayMove(f.def, f.state, to)
    ensures GoesThrough(env, w, f, n, MovedOn(cfg, env, Travel(env, f, to, n), trigger, n + 1), to)
  {
    var moved, hop := Travel(env, f, to, n), [Hop(f.state, to, true)];
    var r := MovedOn(cfg, env, moved, trigger, n + 1);
    Travelled(env, w, f, to, n);
    RootChainExplained(cfg, env, w, moved, n + 1, 0);
    Kept(env, w, moved, moved, Span(n + 1, n + 1));
    var hops :| Explains(env, w, moved, r.flow, Span(n + 1, r.tick), hops);
    Joined(env, w, f, moved, r.flow, n, n + 1, r.tick, hop, hops);
  }

  /** A change of the context that is not watched comes before. */
  lemma UnseenBefore<V>(env: Env, w: Watch<V>, f: Root, m: Root, n: nat, r: RootReply, to: State)
    requires m.def == f.def && m.expiresAt == f.expiresAt && m.state == f.state && m.enteredAt == f.enteredAt
    requires w.look(m.ctx) == w.look(f.ctx) && GoesThrough(env, w, m, n, r, to)
    ensures GoesThrough(env, w, f, n, r, to)
  {
    var hops :| Explains(env, w, m, r.flow, Span(n, r.tick), [Hop(m.state, to, true)] + hops);
    assert Explains(env, w, f, r.flow, Span(n, r.tick), [Hop(f.state, to, true)] + hops);
  }

  /** The guard of `t` accepts and its processor returns. */
  predicate RootAccepts(env: Env, t: Transition, ctx: Ctx, n: nat) {
    match t.guard
    case None => true
    case Some(g) =>
      && env.validate(g, ctx, n).Accepted?
      && (t.processor.Some? ==> env.process(t.processor.value, ctx + env.validate(g, ctx, n).data, n).Returned?)
  }

  /** When the guard accepts and the processor returns, the root takes the transition to its target, and everything after that
    * starts there. */
  lemma AcceptedRootMoves<V>(cfg: Config, env: Env, w: Watch<V>, f: Root, t: Transition, n: nat)
    requires WatchedFully(env, w) && RootMayMove(f.def, f.state, t.to) && RootAccepts(env, t, f.ctx, n)
    ensures GoesThrough(env, w, f, n, TakeRoot(cfg, env, f, t, n), t.to)
  {
    match t.guard
    case None => MovedOnThrough(cfg, env, w, f, t.to, "external", n);
    case Some(g) =>
      var granted := f.(ctx := f.ctx + env.validate(g, f.ctx, n).data);
      match t.processor
      case None =>
        MovedOnThrough(cfg, env, w, granted, t.to, g.name, n);
        UnseenBefore(env, w, f, granted, n, TakeRoot(cfg, env, f, t, n), t.to);
      case Some(p) =>
        var done := granted.(ctx := granted.ctx + env.process(p, granted.ctx, n).puts);
        MovedOnThrough(cfg, env, w, done, t.to, g.name, n);
        UnseenBefore(env, w, f, done, n, TakeRoot(cfg, env, f, t, n), t.to);
  }

  lemma TakeRootExplained<V>(cfg: Config, env: Env, w: Watch<V>, f: Root, t: Transition, n: nat)
    requires WatchedFully(env, w) && RootMayMove(f.def, f.state, t.to)
    ensures ReplyExplained(env, w, f, n, TakeRoot(cfg, env, f, t, n))
  {
    var r := TakeRoot(cfg, env, f, t, n);
    if RootAccepts(env, t, f.ctx, n) {
      AcceptedRootMoves(cfg, env, w, f, t, n);
      ThroughIsExplained(env, w, f, n, r, t.to);
    } else {
      var g := t.guard.value;
      match env.validate(g, f.ctx, n)
      case Accepted(data) => RoutedExplained(env, w, f, Some(env.process(t.processor.value, f.ctx + data, n).error), n);
      case Rejected =>
        var counted := f.(failures := f.failures + 1);
        Kept(env, w, f, counted, Span(n, n));
        RoutedExplained(env, w, counted, None, n);
        Then(env, w, f, counted, RouteError(env, counted, None, n), n, n, n + 1);
        Kept(env, w, f, counted, Span(n, n + 1));
      case Expired => Kept(env, w, f, End(f, "EXPIRED"), Span(n, n + 1));
      case Raised(_) => Kept(env, w, f, f, Span(n, n + 1));
    }
  }

  lemma ExternalMay(def: FlowDef, a: State, keys: set<Key>)
    requires Select(def.ExternalsFrom(a), keys).Selected?
    ensures RootMayMove(def, a, Select(def.ExternalsFrom(a), keys).transition.to)
  {
    var t := Select(def.ExternalsFrom(a), keys).transition;
    SelectedIsExternal(def.ExternalsFrom(a), keys);
    OfKindIn(def.TransitionsFrom(a), External, t);
    TransitionMay(def, a, t, t.to);
  }

  lemma ResumeOwnStateExplained<V>(cfg: Config, env: Env, w: Watch<V>, f: Root, keys: set<Key>, n: nat)
    requires WatchedFully(env, w)
    ensures ReplyExplained(env, w, f, n, ResumeOwnState(cfg, env, f, keys, n))
  {
    var externals := f.def.ExternalsFrom(f.state);
    Kept(env, w, f, f, Span(n, n));
    Kept(env, w, f, End(f, "EXPIRED"), Span(n, n));
    if externals != [] && Select(externals, keys).Selected? {
      ExternalMay(f.def, f.state, keys);
      TakeRootExplained(cfg, env, w, f, Select(externals, keys).transition, n);
    }
  }

  // ---------- resuming a sub-flow ----------

  lemma BehindExplained<V>(cfg: Config, env: Env, w: Watch<V>, f: Root, exit: string, n: nat)
    requires WatchedFully(env, w)
    ensures ReplyExplained(env, w, f, n, ResumeBehind(cfg, env, f, exit, n))
  {
    var t := FirstSubFlow(f.def.TransitionsFrom(f.state));
    if t.Some? && t.value.subFlow.Some? && exit in t.value.subFlow.value.exitMappings {
      var z := t.value.subFlow.value.exitMappings[exit];
      MappedMay(f.def, f.state, t.value.subFlow.value, exit);
      Travelled(env, w, f, z, n);
      RootChainExplained(cfg, env, w, Travel(env, f, z, n), n + 1, 0);
      Then(env, w, f, Travel(env, f, z, n), ResumeBehind(cfg, env, f, exit, n).flow, n, n + 1, ResumeBehind(cfg, env, f, exit, n).tick);
    } else {
      RoutedExplained(env, w, f, None, n);
    }
  }

  lemma ResumeActiveExplained<V>(cfg: Config, env: Env, w: Watch<V>, f: Root, inst: Instance, keys: set<Key>, n: nat)
    requires WatchedFully(env, w)
    ensures ReplyExplained(env, w, f, n, ResumeActive(cfg, env, f, inst, keys, n))
  {
    InstanceUnwatched(env, w, inst, Shared(f.ctx, n, []), keys);
    var child, r := ResumeInstance(env, inst, Shared(f.ctx, n, []), keys), ResumeActive(cfg, env, f, inst, keys, n);
    var m := child.world.tick;
    if child.Reply? && child.result.Completed? {
      var back := f.(ctx := child.world.ctx, active := None);
      Kept(env, w, f, back, Span(n, m));
      BehindExplained(cfg, env, w, back, child.result.exit, m);
      Then(env, w, f, back, r.flow, n, m, r.tick);
    } else {
      Kept(env, w, f, r.flow, Span(n, m));
    }
  }

  lemma DeliveredExplained<V>(cfg: Config, env: Env, w: Watch<V>, f: Root, keys: set<Key>, n: nat)
    requires WatchedFully(env, w)
    ensures ReplyExplained(env, w, f, n, Forward(cfg, env, f, keys, n))
  {
    if f.active.Some? {
      ResumeActiveExplained(cfg, env, w, f, f.active.value, keys, n);
    } else {
      ResumeOwnStateExplained(cfg, env, w, f, keys, n);
    }
  }

  lemma AfterArrival<V>(env: Env, w: Watch<V>, f: Root, arrived: Root, n: nat, r: RootReply)
    requires arrived == f.(ctx := arrived.ctx) && w.look(arrived.ctx) == w.look(f.ctx) && ReplyExplained(env, w, arrived, n + 1, r)
    ensures ReplyExplained(env, w, f, n, r)
  {
    Kept(env, w, f, arrived, Span(n, n + 1));
    Then(env, w, f, arrived, r.flow, n, n + 1, r.tick);
  }

  lemma ResumeRootExplained<V>(cfg: Config, env: Env, w: Watch<V>, f: Root, data: Ctx, n: nat)
    requires WatchedFully(env, w) && w.look(f.ctx + data) == w.look(f.ctx)
    ensures ReplyExplained(env, w, f, n, ResumeRoot(cfg, env, f, data, n))
  {
    var arrived := f.(ctx := f.ctx + data);
    if env.clock(n) > f.expiresAt {
      Kept(env, w, f, End(arrived, "EXPIRED"), Span(n, n + 1));
    } else {
      DeliveredExplained(cfg, env, w, arrived, data.Keys, n + 1);
      AfterArrival(env, w, f, arrived, n, Forward(cfg, env, arrived, data.Keys, n + 1));
    }
  }

  // ---------- a target where the flow waits ----------

  lemma WaitingRootStops(cfg: Config, env: Env, f: Root, n: nat, depth: nat)
    requires f.exit.None? && WaitsIn(f.def, f.state) && depth < cfg.maxChainDepth
    ensures RootChain(cfg, env, f, n, depth) == RootReply(f, n, None)
  {
    var ts := f.def.TransitionsFrom(f.state);
    forall t | t in ts ensures t.kind == External { LeavingIn(f.def.transitions, f.state, t); }
    FirstSubFlowIn(ts);
    FirstOfKindIn(ts, Auto);
    FirstOfKindIn(ts, Branch);
  }

  /** The context with what the guard and the processor put. */
  function RootReceived(env: Env, t: Transition, ctx: Ctx, n: nat): Ctx
    requires RootAccepts(env, t, ctx, n)
  {
    match t.guard
    case None => ctx
    case Some(g) =>
      var granted := ctx + env.validate(g, ctx, n).data;
      if t.processor.Some? then granted + env.process(t.processor.value, granted, n).puts else granted
  }

  /** The exit action of the state left, then the enter action of the target. */
  function ThroughActions(env: Env, f: Root, have: Ctx, to: State, n: nat): Ctx {
    var left := have + env.onExit(f.def, f.state, have, n);
    left + env.onEnter(f.def, to, left, n)
  }

  /** An accepted resume of a root flow whose target waits for another event: the flow has entered the target, through the exit
    * action of the state left and the enter action of the target, and waits there. */
  lemma AcceptedRootWaits(cfg: Config, env: Env, f: Root, t: Transition, n: nat)
    requires f.exit.None? && f.active.None? && RootAccepts(env, t, f.ctx, n) && WaitsIn(f.def, t.to) && cfg.maxChainDepth > 0
    ensures var r := TakeRoot(cfg, env, f, t, n);
      && r.thrown.None? && r.flow.state == t.to && r.flow.exit.None? && r.flow.active.None? && r.flow.enteredAt == env.clock(n)
      && RootPath(r.flow) == [t.to] && r.flow.ctx == ThroughActions(env, f, RootReceived(env, t, f.ctx, n), t.to, n)
  {
    forall g: Root | g.exit.None? && g.def == f.def && g.state == t.to ensures RootChain(cfg, env, g, n + 1, 0) == RootReply(g, n + 1, None) {
      WaitingRootStops(cfg, env, g, n + 1, 0);
    }
  }

  /** The automatic transition of a root flow whose processor returns, with all it declares in the context if that is verified. */
  lemma AutomaticRootMoves(cfg: Config, env: Env, f: Root, t: Transition, p: Processor, n: nat)
    requires f.exit.None? && !f.def.Terminal(f.state) && FirstSubFlow(f.def.TransitionsFrom(f.state)).None?
    requires FirstOfKind(f.def.TransitionsFrom(f.state), Auto) == Some(t) && t.processor == Some(p)
    requires env.process(p, f.ctx, n).Returned? && WaitsIn(f.def, t.to) && cfg.maxChainDepth > 1
    ensures var r, have := RootChain(cfg, env, f, n, 0), f.ctx + env.process(p, f.ctx, n).puts;
      && r.thrown.None?
      && (if (cfg.strictMode || f.def.strictMode) && exists k | k in p.produces :: k !in have
          then r.flow == RouteError(env, f, None, n) && r.flow.ctx == f.ctx
          else r.flow.state == t.to && r.flow.enteredAt == env.clock(n + 1) && r.flow.ctx == ThroughActions(env, f, have, t.to, n + 1))
  {
    var have := f.ctx + env.process(p, f.ctx, n).puts;
    AutoDispatched(cfg, env, f, t, p, n);
    RootGoesOn(cfg, env, f, n, 0);
    WaitingRootStops(cfg, env, Travel(env, f.(ctx := have), t.to, n + 1), n + 2, 1);
    if k :| k in p.produces && k !in have { assert k in KeySet(p.produces); }
  }

  lemma AutoDispatched(cfg: Config, env: Env, f: Root, t: Transition, p: Processor, n: nat)
    requires FirstSubFlow(f.def.TransitionsFrom(f.state)).None?
    requires FirstOfKind(f.def.TransitionsFrom(f.state), Auto) == Some(t) && t.processor == Some(p) && env.process(p, f.ctx, n).Returned?
    ensures var have := f.ctx + env.process(p, f.ctx, n).puts;
      Dispatch(cfg, env, f, n) ==
        if (cfg.strictMode || f.def.strictMode) && !(KeySet(p.produces) <= have.Keys)
        then Left(RootReply(RouteError(env, f, None, n), n + 1, None))
        else Went(Travel(env, f.(ctx := have), t.to, n + 1), n + 2)
  {}

  lemma RootGoesOn(cfg: Config, env: Env, f: Root, n: nat, depth: nat)
    requires depth < cfg.maxChainDepth && f.exit.None? && !f.def.Terminal(f.state)
    ensures RootChain(cfg, env, f, n, depth)
      == match Dispatch(cfg, env, f, n) case Left(r) => r case Went(f1, n1) => RootChain(cfg, env, f1, n1, depth + 1)
  {}

  /** An event in time for a root flow with a running sub-flow that its deepest instance accepts, with a target that waits: only
    * the last entry of the state path changes. */
  lemma AcceptedBelowReplacesLast(cfg: Config, env: Env, f: Root, data: Ctx, n: nat, t: Transition)
    requires RootAnchored(f) && f.active.Some? && env.clock(n) <= f.expiresAt
    requires Selects(f.active.value, data.Keys, t) && Accepts(env, t, Shared(f.ctx + data, n + 1, []))
    requires WaitsIn(Deepest(f.active.value).def, t.to)
    ensures var r := ResumeRoot(cfg, env, f, data, n);
      && r.thrown.None? && r.flow.state == f.state && r.flow.ctx == Received(env, t, Shared(f.ctx + data, n + 1, []))
      && RootPath(r.flow) == RootPath(f)[..|RootPath(f)| - 1] + [t.to]
  {
    var inst := f.active.value;
    AcceptedReplacesLast(env, inst, Shared(f.ctx + data, n + 1, []), data.Keys, t);
    var p := StatePath(inst);
    assert RootPath(f) == [f.state] + p && RootPath(f)[..|RootPath(f)| - 1] == [f.state] + p[..|p| - 1];
  }

  // ---------- whole runs ----------

  /** Every flow has a trail from its initial state to its current one, and what is watched in its context is what the actions
    * of its moves have made of `v`. */
  ghost predicate AllOnTrail<V>(w: Watch<V>, world: Roots, v: V) {
    forall id | id in world.flows :: RootOnTrail(w, world.flows[id], v)
  }

  ghost predicate RootOnTrail<V>(w: Watch<V>, f: Root, v: V) { f.def.initial.Some? && exists hops :: CameBy(w, f, v, hops) }

  ghost predicate CameBy<V>(w: Watch<V>, f: Root, v: V, hops: seq<Hop>)
    requires f.def.initial.Some?
  {
    Trail(f.def, f.def.initial.value, hops, f.state) && w.look(f.ctx) == Acted(w, hops, v)
  }

  ghost predicate Bystanders<V>(w: Watch<V>, evs: seq<Event>, v: V) { forall ev | ev in evs :: Bystander(w, ev, v) }

  /** Starts bring `v`; what comes later leaves it alone. */
  ghost predicate Bystander<V>(w: Watch<V>, ev: Event, v: V) {
    match ev
    case StartFlow(_, _, data) => w.look(data) == v
    case ResumeFlow(_, data) => forall ctx :: w.look(ctx + data) == w.look(ctx)
  }

  lemma ReplyOnTrail<V>(env: Env, w: Watch<V>, f: Root, n: nat, r: RootReply, v: V)
    requires RootOnTrail(w, f, v) && ReplyExplained(env, w, f, n, r)
    ensures RootOnTrail(w, r.flow, v)
  {
    var before :| CameBy(w, f, v, before);
    var hops :| Explains(env, w, f, r.flow, Span(n, r.tick), hops);
    TrailAppend(w, f.def, f.def.initial.value, before, f.state, hops, r.flow.state, v);
    assert CameBy(w, r.flow, v, before + hops);
  }

  lemma KeepOnTrail<V>(w: Watch<V>, world: Roots, id: FlowId, r: RootReply, v: V)
    requires AllOnTrail(w, world, v) && RootOnTrail(w, r.flow, v)
    ensures AllOnTrail(w, Keep(world, id, r), v)
  {}

  lemma OpenedOnTrail<V>(env: Env, w: Watch<V>, def: FlowDef, data: Ctx, n: nat)
    requires def.initial.Some?
    ensures RootOnTrail(w, Opened(env, def, data, n), w.look(data))
  {
    assert CameBy(w, Opened(env, def, data, n), w.look(data), []);
  }

  lemma StartOnRootTrail<V>(cfg: Config, env: Env, w: Watch<V>, world: Roots, id: FlowId, def: FlowDef, data: Ctx)
    requires WatchedFully(env, w) && AllOnTrail(w, world, w.look(data)) && def.initial.Some?
    ensures AllOnTrail(w, Keep(world, id, StartRoot(cfg, env, def, data, world.tick)), w.look(data))
  {
    var f, n := Opened(env, def, data, world.tick), world.tick + 1;
    OpenedOnTrail(env, w, def, data, world.tick);
    RootChainExplained(cfg, env, w, f, n, 0);
    ReplyOnTrail(env, w, f, n, RootChain(cfg, env, f, n, 0), w.look(data));
    KeepOnTrail(w, world, id, RootChain(cfg, env, f, n, 0), w.look(data));
  }

  lemma ResumeOnRootTrail<V>(cfg: Config, env: Env, w: Watch<V>, world: Roots, id: FlowId, data: Ctx, v: V)
    requires WatchedFully(env, w) && AllOnTrail(w, world, v) && id in world.flows && forall ctx :: w.look(ctx + data) == w.look(ctx)
    ensures AllOnTrail(w, Keep(world, id, ResumeRoot(cfg, env, world.flows[id], data, world.tick)), v)
  {
    var f := world.flows[id];
    ResumeRootExplained(cfg, env, w, f, data, world.tick);
    ReplyOnTrail(env, w, f, world.tick, ResumeRoot(cfg, env, f, data, world.tick), v);
    KeepOnTrail(w, world, id, ResumeRoot(cfg, env, f, data, world.tick), v);
  }

  lemma ApplyOnTrail<V>(cfg: Config, env: Env, w: Watch<V>, world: Roots, ev: Event, v: V)
    requires WatchedFully(env, w) && AllOnTrail(w, world, v) && Bystander(w, ev, v)
    ensures AllOnTrail(w, ApplyRoot(cfg, env, world, ev), v)
  {
    match ev
    case StartFlow(id, def, data) => if def.initial.Some? { StartOnRootTrail(cfg, env, w, world, id, def, data); }
    case ResumeFlow(id, data) => if id in world.flows { ResumeOnRootTrail(cfg, env, w, world, id, data, v); }
  }

  /** In every run of the Rust engine each root flow has moved along its definition from its initial state, and what is watched
    * in its context is what the actions of those moves have made of the initial data. */
  lemma {:induction false} RootRunsStayOnTrail<V>(cfg: Config, env: Env, w: Watch<V>, evs: seq<Event>, v: V)
    requires WatchedFully(env, w) && Bystanders(w, evs, v)
    ensures AllOnTrail(w, RunRoots(cfg, env, evs), v)
  {
    if evs != [] {
      var n := |evs| - 1;
      forall ev | ev in evs[..n] ensures Bystander(w, ev, v) {}
      RootRunsStayOnTrail(cfg, env, w, evs[..n], v);
      assert Bystander(w, evs[n], v);
      ApplyOnTrail(cfg, env, w, RunRoots(cfg, env, evs[..n]), evs[n], v);
    }
  }
}
