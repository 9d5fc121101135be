/** What one move does to a flow, to its context, to the log and to the calls made: an automatic transition, a branch, an event
  * that is accepted by the flow or by its sub-flow. */
module SingleMoves {
  import opened Definition
  import opened EngineModel
  import opened EngineFacts
  import FlowObjects

  /** The event selects `t` in the state of the running sub-flow. */
  ghost predicate ChildSelects(f: Flow, keys: set<Key>, t: Transition) {
    f.active.Some?
    && var c := f.active.value;
      c.def.ExternalsFrom(c.state) != [] && Select(c.def.ExternalsFrom(c.state), keys) == Selected(t)
  }

  ghost predicate ChildAccepts(env: Env, t: Transition, ctx: Ctx, n: nat) {
    t.guard.Some? ==> env.validate(t.guard.value, ctx, n).Accepted?
  }

  /** What the guard adds to the context; the processor of the transition is not run. */
  function Granted(env: Env, t: Transition, ctx: Ctx, n: nat): Ctx {
    match t.guard
    case None => map[]
    case Some(g) => match env.validate(g, ctx, n) case Accepted(data) => data case _ => map[]
  }

  /** The sub-flow in the target of the transition, and everything else of its parent as before. */
  ghost predicate ChildMoved(env: Env, s: Sys, r: Sys, t: Transition) {
    && s.flow.active.Some? && r.flow.active.Some?
    && var c, d := s.flow.active.value, r.flow.active.value;
      && r.flow == s.flow.(ctx := s.flow.ctx + Granted(env, t, s.flow.ctx, s.tick), active := Some(d))
      && d.def == c.def && d.state == t.to && d.exit.None? && d.active == c.active && d.expiresAt == c.expiresAt
      && d.enteredAt == env.clock(s.tick) && d.failures == (if c.state != t.to then 0 else c.failures)
      && FlowObjects.PathOf(r.flow) == [s.flow.state, t.to]
      && r.log == s.log + (match t.guard case None => [] case Some(g) => [Record(s.id, c.state, t.to, g.name)])
  }

  /** A sub-flow whose guard accepts takes the selected transition to its target; where that waits for another event, the sub-flow
    * waits there, its entry time is that of the call, the parent has not moved, and the move is recorded under the parent's
    * identifier, unless no guard was asked. */
  lemma AcceptedMovesChild(cfg: Config, env: Env, s: Sys, keys: set<Key>, t: Transition)
    requires ChildSelects(s.flow, keys, t) && ChildAccepts(env, t, s.flow.ctx, s.tick)
    requires s.flow.active.value.active.None? && s.flow.active.value.exit.None?
    requires WaitsIn(s.flow.active.value.def, t.to) && cfg.maxChainDepth > 0
    ensures var r := ResumeSubFlow(cfg, env, s, keys); r.thrown.None? && ChildMoved(env, s, r.sys, t)
  {
    var parent := s.flow;
    var sub := parent.active.value.(ctx := parent.ctx);
    var moved := MoveTo(sub, t.to, env.clock(s.tick));
    match t.guard
    case None =>
      var child := s.(flow := moved);
      ContinuedWaits(cfg, env, parent, child);
      assert parent.ctx + map[] == parent.ctx;
    case Some(g) =>
      var data := env.validate(g, sub.ctx, s.tick).data;
      var called := Called(s.(flow := sub), g.requires_);
      var child := called.(flow := moved.(ctx := sub.ctx + data), log := s.log + [Record(s.id, sub.state, t.to, g.name)]);
      ContinuedWaits(cfg, env, parent, child);
  }

  lemma ContinuedWaits(cfg: Config, env: Env, parent: Flow, child: Sys)
    requires WaitsIn(child.flow.def, child.flow.state) && child.flow.exit.None? && child.flow.active.None? && cfg.maxChainDepth > 0
    ensures ContinueSubFlow(cfg, env, parent, child) == Result(Waits(parent, Tick(child)), None)
    ensures FlowObjects.PathOf(Waits(parent, Tick(child)).flow) == [parent.state, child.flow.state]
  {
    ChainStopsAt(cfg, env, Tick(child), 0);
    var w := Waits(parent, Tick(child)).flow;
    assert FlowObjects.PathOf(w.active.value) == [child.flow.state];
  }

  // ---------- a flow by itself ----------

  /** The guard accepts and the processor returns. */
  ghost predicate Accepts(env: Env, t: Transition, g: Guard, ctx: Ctx, n: nat) {
    && t.guard == Some(g) && env.validate(g, ctx, n).Accepted?
    && (t.processor.Some? ==> env.process(t.processor.value, ctx + env.validate(g, ctx, n).data, n).Returned?)
  }

  /** The context with what the guard and the processor put. */
  function Received(env: Env, t: Transition, g: Guard, ctx: Ctx, n: nat): Ctx
    requires env.validate(g, ctx, n).Accepted?
  {
    var granted := ctx + env.validate(g, ctx, n).data;
    if t.processor.Some? then granted + env.process(t.processor.value, granted, n).puts else granted
  }

  /** The flow is in `to`: its context is `have` through the exit action of the state left and the enter action of `to`, with one
    * record under `trigger` and the calls given. */
  ghost predicate MovedTo(env: Env, s: Sys, r: Sys, have: Ctx, to: State, trigger: string, calls: seq<Call>) {
    var f := s.flow;
    var left := have + env.onExit(f.def, f.state, have, s.tick);
    && r.flow == f.(state := to, ctx := left + env.onEnter(f.def, to, left, s.tick), enteredAt := env.clock(s.tick),
                    failures := if f.state != to then 0 else f.failures)
    && r.log == s.log + [Record(s.id, f.state, to, trigger)]
    && r.calls == s.calls + calls
  }

  /** The call of a processor, if there is one. */
  function CallOf(p: Option<Processor>, ctx: Ctx): seq<Call> {
    if p.Some? then [Call(KeySet(p.value.requires_), ctx.Keys)] else []
  }

  /** A flow whose guard accepts and whose processor returns takes the selected transition; where the target waits for another
    * event, it waits there. */
  lemma AcceptedMovesFlow(cfg: Config, env: Env, s: Sys, keys: set<Key>, t: Transition, g: Guard)
    requires s.flow.def.ExternalsFrom(s.flow.state) != [] && Select(s.flow.def.ExternalsFrom(s.flow.state), keys) == Selected(t)
    requires t.timeout.Some? ==> env.clock(s.tick) <= s.flow.enteredAt + t.timeout.value
    requires Accepts(env, t, g, s.flow.ctx, s.tick) && WaitsIn(s.flow.def, t.to) && cfg.maxChainDepth > 0
    ensures var r := ResumeOwn(cfg, env, s, keys);
      && r.thrown.None?
      && MovedTo(env, s, r.sys, Received(env, t, g, s.flow.ctx, s.tick), t.to, g.name,
           [Call(KeySet(g.requires_), s.flow.ctx.Keys)] + CallOf(t.processor, s.flow.ctx + env.validate(g, s.flow.ctx, s.tick).data))
  {
    var called := Called(s, g.requires_);
    var data := env.validate(g, s.flow.ctx, s.tick).data;
    var granted := called.(flow := s.flow.(ctx := s.flow.ctx + data));
    match t.processor
    case None => ChainStopsAt(cfg, env, Tick(Advance(env, granted, t.to, g.name)), 0);
    case Some(p) =>
      var done := Called(granted, p.requires_).(flow := s.flow.(ctx := granted.flow.ctx + env.process(p, granted.flow.ctx, s.tick).puts));
      ChainStopsAt(cfg, env, Tick(Advance(env, done, t.to, g.name)), 0);
  }

  // ---------- automatic moves ----------

  /** The chain is in a state it leaves by `t`. */
  ghost predicate LeavesBy(s: Sys, t: Transition) {
    var ts := s.flow.def.TransitionsFrom(s.flow.state);
    !s.flow.def.Terminal(s.flow.state) && FirstSubFlow(ts).None? && FirstChained(ts) == Some(t)
  }

  /** Every key a processor declares is in the context, whoever put it. */
  ghost predicate Complete(p: Processor, ctx: Ctx) { forall k | k in p.produces :: k in ctx }

  /** An automatic transition whose processor returns is taken, in strict mode exactly when every key the processor declares is
    * in the context afterwards; otherwise the context is as before and the error is routed. */
  lemma AutomaticMoves(cfg: Config, env: Env, s: Sys, t: Transition, p: Processor)
    requires LeavesBy(s, t) && t.kind == Auto && t.processor == Some(p) && env.process(p, s.flow.ctx, s.tick).Returned?
    requires WaitsIn(s.flow.def, t.to) && cfg.maxChainDepth > 1
    ensures var r, have := Chain(cfg, env, s, 0), s.flow.ctx + env.process(p, s.flow.ctx, s.tick).puts;
      && r.thrown.None?
      && (if (cfg.strictMode || s.flow.def.strictMode) && !Complete(p, have)
          then r.sys == Tick(HandleError(env, Called(s, p.requires_), Some("FlowError"))) && r.sys.flow.ctx == s.flow.ctx
          else MovedTo(env, s, r.sys, have, t.to, p.name, CallOf(t.processor, s.flow.ctx)))
  {
    var puts := env.process(p, s.flow.ctx, s.tick).puts;
    var done := Called(s, p.requires_).(flow := s.flow.(ctx := s.flow.ctx + puts));
    var next := Tick(Advance(env, done, t.to, p.name));
    ChainGoesOn(cfg, env, s, 0);
    ChainStopsAt(cfg, env, next, 1);
    assert KeySet(p.produces) <= (s.flow.ctx + puts).Keys <==> Complete(p, s.flow.ctx + puts);
  }

  /** A branch is asked first; the arm picked for its answer runs its processor, and the flow goes where the branch maps the
    * answer to. */
  lemma BranchMoves(cfg: Config, env: Env, s: Sys, t: Transition, b: Brancher, l: Label, arm: Transition)
    requires LeavesBy(s, t) && t.kind == Branch && t.branch == Some(b) && env.decide(b, s.flow.ctx, s.tick) == Decided(l)
    requires l in t.branchTargets && FirstLabelled(s.flow.def.TransitionsFrom(s.flow.state), l) == Some(arm)
    requires arm.processor.Some? ==> env.process(arm.processor.value, s.flow.ctx, s.tick).Returned?
    requires WaitsIn(s.flow.def, t.branchTargets[l]) && cfg.maxChainDepth > 1
    ensures var have := if arm.processor.Some? then s.flow.ctx + env.process(arm.processor.value, s.flow.ctx, s.tick).puts else s.flow.ctx;
      var r := Chain(cfg, env, s, 0);
      && r.thrown.None?
      && MovedTo(env, s, r.sys, have, t.branchTargets[l], b.name + ":" + l,
           [Call(KeySet(b.requires_), s.flow.ctx.Keys)] + CallOf(arm.processor, s.flow.ctx))
  {
    var asked := Called(s, b.requires_);
    var target := t.branchTargets[l];
    var done := match arm.processor
      case None => asked
      case Some(p) => Called(asked, p.requires_).(flow := s.flow.(ctx := s.flow.ctx + env.process(p, s.flow.ctx, s.tick).puts));
    ChainGoesOn(cfg, env, s, 0);
    assert RunProcessor(env, asked, arm.processor, false) == Moved(done);
    ChainStopsAt(cfg, env, Tick(Advance(env, done, target, b.name + ":" + l)), 1);
  }
}
