/** Positions of the engine's graph that are doomed: under components that answer on cue and callers that bring what they
  * owe, every flow that comes there with too few keys goes wrong. First the positions in the middle of a chain. */
module DoomedChains {
  import opened Definition
  import opened DataFlow
  import opened RequiresProduces
  import opened Builder
  import opened EngineModel
  import opened EngineFacts
  import opened EngineMoves
  import opened RunSafety
  import opened EngineCheck
  import opened Graphs
  import Searches
  import ChainBound

  // ---------- components that do as they are told ----------

  /** What the components answer at one tick. */
  datatype Cue = Cue(reject: bool, pick: Label, fail: Option<string>)

  const PASS := Cue(false, "", None)
  const REJECT := Cue(true, "", None)

  function Pick(l: Label): Cue { Cue(false, l, None) }
  function Fail(cause: string): Cue { Cue(false, "", Some(cause)) }

  /** A context that holds these keys and no others. */
  function Fill(keys: set<Key>): Ctx { map k | k in keys :: "" }

  function Outcome(c: Cue, p: Processor): ProcessOutcome {
    match c.fail
    case Some(cause) => Threw(map[], cause)
    case None => Returned(Fill(KeySet(p.produces)))
  }

  function Verdict(c: Cue, g: Guard): GuardOutput { if c.reject then Rejected else Accepted(Fill(KeySet(g.produces))) }

  function Answer(c: Cue): Decision {
    match c.fail
    case Some(cause) => Undecided(cause)
    case None => Decided(c.pick)
  }

  ghost predicate Acts(env: Env, n: nat, c: Cue) {
    && (forall p, ctx :: env.process(p, ctx, n) == Outcome(c, p))
    && (forall g, ctx :: env.validate(g, ctx, n) == Verdict(c, g))
    && (forall b, ctx :: env.decide(b, ctx, n) == Answer(c))
  }

  /** From tick `n` on, the cues are played. */
  ghost predicate Plays(env: Env, n: nat, cs: seq<Cue>) { forall i | 0 <= i < |cs| :: Acts(env, n + i, cs[i]) }

  /** Actions add nothing, time stands still, and a cause is an instance of one class at most. */
  ghost predicate Quiet(env: Env) {
    && (forall d, s, ctx, n :: env.onEnter(d, s, ctx, n) == map[])
    && (forall d, s, ctx, n :: env.onExit(d, s, ctx, n) == map[])
    && (forall cause, c :: env.instanceOf(cause, c) <==> cause == "!" + c)
    && (forall n :: env.clock(n) == 0)
  }

  lemma PlaysCons(env: Env, n: nat, c: Cue, cs: seq<Cue>)
    requires Plays(env, n, [c] + cs)
    ensures Acts(env, n, c) && Plays(env, n + 1, cs)
  {
    assert ([c] + cs)[0] == c;
    forall i | 0 <= i < |cs| ensures Acts(env, n + 1 + i, cs[i]) { assert ([c] + cs)[i + 1] == cs[i]; }
  }

  // ---------- the definitions considered ----------

  datatype Setting = Setting(cfg: Config, def: FlowDef, brings: Supply)

  /** Bringing the keys of an external transition selects it. */
  ghost predicate Selectable(def: FlowDef, brings: Supply) {
    forall t | t in def.transitions && t.kind == External :: Select(def.ExternalsFrom(t.from), brings(t)) == Selected(t)
  }

  /** What the other checks of `build()` demand of a definition without sub-flows. */
  ghost predicate Structured(def: FlowDef) {
    && WellTyped(def) && Built(def) && SubFlowFree(def) && def.initial.Some?
    && !Cyclic(Searches.ChainGraph(def)) && NoAutoExternalConflict(def) && TerminalsAreFinal(def)
  }

  ghost predicate Proper(x: Setting) {
    && Structured(x.def) && Selectable(x.def, x.brings)
    && x.def.ttl >= 0 && ChainBound.ShortChains(x.cfg, x.def)
  }

  // ---------- once a call has gone wrong ----------

  ghost predicate Wrong(s: Sys) { !Supplied(s.calls) }

  lemma WrongMore(s: Sys, r: Sys)
    requires Wrong(s) && s.calls <= r.calls
    ensures Wrong(r)
  {
    var c :| c in s.calls && !(c.needs <= c.present);
    assert c in r.calls;
  }

  lemma WrongCall(s: Sys, needs: seq<Key>, k: Key)
    requires k in needs && k !in s.flow.ctx
    ensures Wrong(Called(s, needs))
  {
    assert Call(KeySet(needs), s.flow.ctx.Keys) in Called(s, needs).calls;
  }

  lemma RunKeepsCalls(env: Env, s: Sys, p: Option<Processor>, verify: bool)
    ensures RunProcessor(env, s, p, verify).Moved? ==> s.calls <= RunProcessor(env, s, p, verify).sys.calls
    ensures RunProcessor(env, s, p, verify).Failed? ==> s.calls <= RunProcessor(env, s, p, verify).sys.calls
  {}

  lemma BranchKeepsCalls(env: Env, s: Sys, ts: seq<Transition>, t: Transition)
    ensures var p := BranchPass(env, s, ts, t); !p.Halted? && s.calls <= p.sys.calls
  {
    if t.branch.Some? {
      var s1 := Called(s, t.branch.value.requires_);
      match env.decide(t.branch.value, s.flow.ctx, s.tick)
      case Undecided(_) =>
      case Decided(choice) =>
        if choice in t.branchTargets {
          RunKeepsCalls(env, s1, Specific(ts, t, choice, t.branchTargets[choice]).processor, false);
        }
    }
  }

  lemma PassKeepsCalls(cfg: Config, env: Env, s: Sys)
    ensures ChainPass(cfg, env, s).Moved? ==> s.calls <= ChainPass(cfg, env, s).sys.calls
    ensures ChainPass(cfg, env, s).Failed? ==> s.calls <= ChainPass(cfg, env, s).sys.calls
  {
    var ts := s.flow.def.TransitionsFrom(s.flow.state);
    match FirstChained(ts)
    case None =>
    case Some(t) =>
      if t.kind == Auto {
        RunKeepsCalls(env, s, t.processor, cfg.strictMode || s.flow.def.strictMode);
      } else {
        BranchKeepsCalls(env, s, ts, t);
      }
  }

  lemma {:induction false} ChainKeepsCalls(cfg: Config, env: Env, s: Sys, depth: nat)
    requires SubFlowFree(s.flow.def)
    ensures s.calls <= Chain(cfg, env, s, depth).sys.calls
    decreases if depth <= cfg.maxChainDepth then cfg.maxChainDepth - depth else 0
  {
    if depth < cfg.maxChainDepth && !s.flow.def.Terminal(s.flow.state) {
      ChainStep(cfg, env, s, depth);
      PassKeepsCalls(cfg, env, s);
      PassKeepsDef(cfg, env, s);
      var p := ChainPass(cfg, env, s);
      if p.Moved? { ChainKeepsCalls(cfg, env, Tick(p.sys), depth + 1); }
    }
  }

  /** A pass that went wrong spoils the chain. */
  lemma WrongPass(cfg: Config, env: Env, s: Sys, depth: nat)
    requires SubFlowFree(s.flow.def) && depth < cfg.maxChainDepth && !s.flow.def.Terminal(s.flow.state)
    requires var p := ChainPass(cfg, env, s); !p.Halted? && Wrong(p.sys)
    ensures Wrong(Chain(cfg, env, s, depth).sys)
  {
    ChainStep(cfg, env, s, depth);
    PassKeepsDef(cfg, env, s);
    var p := ChainPass(cfg, env, s);
    if p.Moved? {
      ChainKeepsCalls(cfg, env, Tick(p.sys), depth + 1);
      WrongMore(Tick(p.sys), Chain(cfg, env, Tick(p.sys), depth + 1).sys);
    }
  }

  lemma WrongAccept(cfg: Config, env: Env, s: Sys, t: Transition, name: string, data: Ctx)
    requires SubFlowFree(s.flow.def) && Wrong(s)
    ensures Wrong(Accept(cfg, env, s, t, name, data).sys)
  {
    var withData := s.(flow := s.flow.(ctx := s.flow.ctx + data));
    match t.processor
    case None =>
      ChainKeepsCalls(cfg, env, Tick(Advance(env, withData, t.to, name)), 0);
      WrongMore(s, Accept(cfg, env, s, t, name, data).sys);
    case Some(p) =>
      var called := Called(withData, p.requires_);
      WrongMore(s, called);
      WrongProcessor(cfg, env, s, t, name, data, p);
  }

  /** The processor of an external transition was called without a key it requires. */
  lemma WrongProcessor(cfg: Config, env: Env, s: Sys, t: Transition, name: string, data: Ctx, p: Processor)
    requires SubFlowFree(s.flow.def) && t.processor == Some(p)
    requires Wrong(Called(s.(flow := s.flow.(ctx := s.flow.ctx + data)), p.requires_))
    ensures Wrong(Accept(cfg, env, s, t, name, data).sys)
  {
    var withData := s.(flow := s.flow.(ctx := s.flow.ctx + data));
    var called := Called(withData, p.requires_);
    match env.process(p, withData.flow.ctx, s.tick)
    case Threw(_, error) =>
    case Returned(puts) =>
      var moved := Tick(Advance(env, called.(flow := s.flow.(ctx := withData.flow.ctx + puts)), t.to, name));
      ChainKeepsCalls(cfg, env, moved, 0);
      WrongMore(called, Chain(cfg, env, moved, 0).sys);
  }

  lemma WrongGuard(cfg: Config, env: Env, s: Sys, t: Transition, g: Guard)
    requires SubFlowFree(s.flow.def) && t.guard == Some(g) && Wrong(Called(s, g.requires_))
    ensures Wrong(TakeExternal(cfg, env, s, t).sys)
  {
    var called := Called(s, g.requires_);
    match env.validate(g, s.flow.ctx, s.tick)
    case Accepted(data) => WrongAccept(cfg, env, called, t, g.name, data);
    case Rejected =>
    case Expired =>
    case Raised(_) =>
  }

  // ---------- doomed positions ----------

  /** A flow the engine holds at a position, with no keys outside `most`. */
  ghost predicate Ready(x: Setting, s: Sys, q: State, most: set<Key>, fails: nat) {
    && s.flow.def == x.def && s.flow.state == q && s.flow.ctx.Keys <= most && s.flow.failures == fails
    && s.flow.exit.None? && s.flow.active.None? && s.flow.enteredAt >= 0 && s.flow.expiresAt >= 0
  }

  /** Resumed with the keys of each transition in turn, the flow goes wrong. */
  ghost predicate Doomed(x: Setting, env: Env, s: Sys, ts: seq<Transition>)
    decreases |ts|
  {
    if ts == [] then Wrong(s)
    else
      var data := Fill(x.brings(ts[0]));
      s.flow.exit.None? && Brought(x.brings, s.flow, data) && Doomed(x, env, Resume(x.cfg, env, s, data).sys, ts[1..])
  }

  /** These cues and events doom every flow that waits in `q`. */
  ghost predicate DoomsRest(x: Setting, q: State, most: set<Key>, fails: nat, cs: seq<Cue>, ts: seq<Transition>) {
    forall env, s: Sys | Quiet(env) && Plays(env, s.tick, cs) && Ready(x, s, q, most, fails) :: Doomed(x, env, s, ts)
  }

  /** These cues and events doom every flow that is in the middle of a chain in `q`. */
  ghost predicate DoomsRun(x: Setting, q: State, most: set<Key>, fails: nat, cs: seq<Cue>, ts: seq<Transition>) {
    forall env, s: Sys, depth: nat
      | Quiet(env) && Plays(env, s.tick, cs) && Ready(x, s, q, most, fails) && Chain(x.cfg, env, s, depth).thrown.None? ::
      Doomed(x, env, Chain(x.cfg, env, s, depth).sys, ts)
  }

  ghost predicate RestDoomed(x: Setting, q: State, most: set<Key>, fails: nat) {
    exists cs, ts :: DoomsRest(x, q, most, fails, cs, ts)
  }

  ghost predicate RunDoomed(x: Setting, q: State, most: set<Key>, fails: nat) {
    exists cs, ts :: DoomsRun(x, q, most, fails, cs, ts)
  }

  ghost predicate FatalRest(x: Setting, q: State, most: set<Key>) {
    q in x.def.states && x.def.ExternalsFrom(q) != [] && forall fails: nat :: RestDoomed(x, q, most, fails)
  }

  ghost predicate FatalRun(x: Setting, q: State, most: set<Key>) {
    q in x.def.states && !x.def.Terminal(q) && forall fails: nat :: RunDoomed(x, q, most, fails)
  }

  /** A flow that comes to this position with no keys outside `most` can be made to go wrong. */
  ghost predicate Fatal(x: Setting, pos: Pos, most: set<Key>) {
    |pos.path| == 1 &&
    match pos
    case Running(path) => FatalRun(x, path[0], most)
    case Resting(path) => FatalRest(x, path[0], most)
  }

  /** Taking this edge goes wrong at once, or leads to a position from which it will. */
  ghost predicate Bad(x: Setting, e: Edge<Pos>, have: set<Key>) {
    Fatal(x, e.target, have + e.gain) || exists n | n in e.needs :: n.key !in have + n.given
  }

  /** A state with external transitions is not terminal and has no automatic ones. */
  lemma WaitingState(x: Setting, q: State)
    requires Proper(x) && q in x.def.states && x.def.ExternalsFrom(q) != []
    ensures !x.def.Terminal(q) && FirstChained(x.def.TransitionsFrom(q)).None?
  {
    var t := x.def.ExternalsFrom(q)[0];
    assert t in x.def.ExternalsFrom(q);
    OfKindIn(x.def.TransitionsFrom(q), External, t);
    LeavingIn(x.def.transitions, q, t);
  }

  function After(from: State, to: State, fails: nat): nat { if from != to then 0 else fails }

  // ---------- edges of a chain ----------

  /** The chain stops where nothing is automatic. */
  lemma HaltBack(x: Setting, q: State, most: set<Key>)
    requires Proper(x) && FatalRest(x, q, most)
    ensures FatalRun(x, q, most)
  {
    WaitingState(x, q);
    forall fails: nat ensures RunDoomed(x, q, most, fails) {
      assert RestDoomed(x, q, most, fails);
      var cs, ts :| DoomsRest(x, q, most, fails, cs, ts);
      forall env, s: Sys, depth: nat
        | Quiet(env) && Plays(env, s.tick, cs) && Ready(x, s, q, most, fails) && Chain(x.cfg, env, s, depth).thrown.None?
        ensures Doomed(x, env, Chain(x.cfg, env, s, depth).sys, ts)
      {
        ChainStep(x.cfg, env, s, depth);
        assert Doomed(x, env, s, ts);
      }
      assert DoomsRun(x, q, most, fails, cs, ts);
    }
  }

  /** A cue under which every flow in `q` moves on to `to` with no more than `gain`. */
  ghost predicate Steps(x: Setting, q: State, most: set<Key>, c: Cue, to: State, gain: set<Key>) {
    forall env, s: Sys, fails: nat | Quiet(env) && Acts(env, s.tick, c) && Ready(x, s, q, most, fails) ::
      var p := ChainPass(x.cfg, env, s);
      p.Moved? && Ready(x, p.sys, to, most + gain, After(q, to, fails)) && p.sys.tick == s.tick
  }

  lemma Stepped(x: Setting, q: State, most: set<Key>, c: Cue, to: State, gain: set<Key>, fails: nat, env: Env, s: Sys)
    requires Steps(x, q, most, c, to, gain) && Quiet(env) && Acts(env, s.tick, c) && Ready(x, s, q, most, fails)
    ensures var p := ChainPass(x.cfg, env, s);
      p.Moved? && Ready(x, Tick(p.sys), to, most + gain, After(q, to, fails)) && Tick(p.sys).tick == s.tick + 1
  {
    var p := ChainPass(x.cfg, env, s);
    assert p.Moved? && Ready(x, p.sys, to, most + gain, After(q, to, fails));
  }

  lemma StepOnce(x: Setting, q: State, most: set<Key>, c: Cue, to: State, gain: set<Key>, fails: nat, cs: seq<Cue>, ts: seq<Transition>,
                 env: Env, s: Sys, depth: nat)
    requires SubFlowFree(x.def) && !x.def.Terminal(q) && Steps(x, q, most, c, to, gain)
    requires DoomsRun(x, to, most + gain, After(q, to, fails), cs, ts)
    requires Quiet(env) && Plays(env, s.tick, [c] + cs) && Ready(x, s, q, most, fails) && Chain(x.cfg, env, s, depth).thrown.None?
    ensures Doomed(x, env, Chain(x.cfg, env, s, depth).sys, ts)
  {
    PlaysCons(env, s.tick, c, cs);
    Stepped(x, q, most, c, to, gain, fails, env, s);
    ChainStep(x.cfg, env, s, depth);
    var s1 := Tick(ChainPass(x.cfg, env, s).sys);
    assert Chain(x.cfg, env, s, depth) == Chain(x.cfg, env, s1, depth + 1);
  }

  lemma StepBack(x: Setting, q: State, most: set<Key>, c: Cue, to: State, gain: set<Key>)
    requires Proper(x) && q in x.def.states && !x.def.Terminal(q)
    requires Steps(x, q, most, c, to, gain) && FatalRun(x, to, most + gain)
    ensures FatalRun(x, q, most)
  {
    forall fails: nat ensures RunDoomed(x, q, most, fails) {
      assert RunDoomed(x, to, most + gain, After(q, to, fails));
      var cs, ts :| DoomsRun(x, to, most + gain, After(q, to, fails), cs, ts);
      forall env, s: Sys, depth: nat
        | Quiet(env) && Plays(env, s.tick, [c] + cs) && Ready(x, s, q, most, fails) && Chain(x.cfg, env, s, depth).thrown.None?
        ensures Doomed(x, env, Chain(x.cfg, env, s, depth).sys, ts)
      {
        StepOnce(x, q, most, c, to, gain, fails, cs, ts, env, s, depth);
      }
      assert DoomsRun(x, q, most, fails, [c] + cs, ts);
    }
  }

  /** A cue under which every flow in `q` has an error routed to `to`. */
  ghost predicate Breaks(x: Setting, q: State, most: set<Key>, c: Cue, to: State) {
    forall env, s: Sys, fails: nat | Quiet(env) && Acts(env, s.tick, c) && Ready(x, s, q, most, fails) ::
      var p := ChainPass(x.cfg, env, s);
      p.Failed? && Ready(x, p.sys, to, most, After(q, to, fails)) && p.sys.tick == s.tick
  }

  lemma Broken(x: Setting, q: State, most: set<Key>, c: Cue, to: State, fails: nat, env: Env, s: Sys)
    requires Breaks(x, q, most, c, to) && Quiet(env) && Acts(env, s.tick, c) && Ready(x, s, q, most, fails)
    ensures var p := ChainPass(x.cfg, env, s);
      p.Failed? && Ready(x, Tick(p.sys), to, most, After(q, to, fails)) && Tick(p.sys).tick == s.tick + 1
  {
    var p := ChainPass(x.cfg, env, s);
    assert p.Failed? && Ready(x, p.sys, to, most, After(q, to, fails));
  }

  lemma BreakOnce(x: Setting, q: State, most: set<Key>, c: Cue, to: State, fails: nat, cs: seq<Cue>, ts: seq<Transition>,
                  env: Env, s: Sys, depth: nat)
    requires SubFlowFree(x.def) && !x.def.Terminal(q) && Breaks(x, q, most, c, to)
    requires DoomsRest(x, to, most, After(q, to, fails), cs, ts)
    requires Quiet(env) && Plays(env, s.tick, [c] + cs) && Ready(x, s, q, most, fails) && Chain(x.cfg, env, s, depth).thrown.None?
    ensures Doomed(x, env, Chain(x.cfg, env, s, depth).sys, ts)
  {
    PlaysCons(env, s.tick, c, cs);
    Broken(x, q, most, c, to, fails, env, s);
    ChainStep(x.cfg, env, s, depth);
    assert Chain(x.cfg, env, s, depth) == Result(Tick(ChainPass(x.cfg, env, s).sys), None);
  }

  lemma BreakBack(x: Setting, q: State, most: set<Key>, c: Cue, to: State)
    requires Proper(x) && q in x.def.states && !x.def.Terminal(q)
    requires Breaks(x, q, most, c, to) && FatalRest(x, to, most)
    ensures FatalRun(x, q, most)
  {
    forall fails: nat ensures RunDoomed(x, q, most, fails) {
      assert RestDoomed(x, to, most, After(q, to, fails));
      var cs, ts :| DoomsRest(x, to, most, After(q, to, fails), cs, ts);
      forall env, s: Sys, depth: nat
        | Quiet(env) && Plays(env, s.tick, [c] + cs) && Ready(x, s, q, most, fails) && Chain(x.cfg, env, s, depth).thrown.None?
        ensures Doomed(x, env, Chain(x.cfg, env, s, depth).sys, ts)
      {
        BreakOnce(x, q, most, c, to, fails, cs, ts, env, s, depth);
      }
      assert DoomsRun(x, q, most, fails, [c] + cs, ts);
    }
  }

  /** A cue under which every flow in `q` calls a component without a key it requires. */
  ghost predicate Spoils(x: Setting, q: State, most: set<Key>, c: Cue) {
    forall env, s: Sys, fails: nat | Quiet(env) && Acts(env, s.tick, c) && Ready(x, s, q, most, fails) ::
      var p := ChainPass(x.cfg, env, s); !p.Halted? && Wrong(p.sys)
  }

  lemma SpoilBack(x: Setting, q: State, most: set<Key>, c: Cue)
    requires Proper(x) && q in x.def.states && !x.def.Terminal(q) && Spoils(x, q, most, c)
    ensures FatalRun(x, q, most)
  {
    forall fails: nat ensures RunDoomed(x, q, most, fails) {
      forall env, s: Sys, depth: nat
        | Quiet(env) && Plays(env, s.tick, [c]) && Ready(x, s, q, most, fails) && Chain(x.cfg, env, s, depth).thrown.None?
        ensures Doomed(x, env, Chain(x.cfg, env, s, depth).sys, [])
      {
        PlaysCons(env, s.tick, c, []);
        WrongPass(x.cfg, env, s, depth);
      }
      assert DoomsRun(x, q, most, fails, [c], []);
    }
  }

  // ---------- errors ----------

  /** An error whose cause is of class `c` takes the first route of that class. */
  lemma {:induction false} RouteTaken(env: Env, routes: seq<ErrorRoute>, seen: set<string>, i: nat)
    requires Quiet(env) && i < |routes| && Effective(routes, seen, i)
    ensures MatchingRoute(env, routes, "!" + routes[i].errorClass) == Some(routes[i].target)
    decreases |routes|
  {
    var cause := "!" + routes[i].errorClass;
    if i > 0 {
      assert cause[1..] == routes[i].errorClass && ("!" + routes[0].errorClass)[1..] == routes[0].errorClass;
      assert !env.instanceOf(cause, routes[0].errorClass);
      EffectiveLater(routes, seen, i - 1);
      RouteTaken(env, routes[1..], seen + {routes[0].errorClass}, i - 1);
      assert routes[1..][i - 1] == routes[i];
    }
  }

  lemma {:induction false} NoRouteTaken(env: Env, routes: seq<ErrorRoute>)
    requires Quiet(env)
    ensures MatchingRoute(env, routes, "").None?
  {
    if routes != [] {
      assert |"!" + routes[0].errorClass| > 0;
      NoRouteTaken(env, routes[1..]);
    }
  }

  /** Every error leads where some cause leads; the empty cause is of no class. */
  ghost predicate LeadsTo(env: Env, d: FlowDef, s: State, cause: Option<string>, z: State) {
    ErrorTarget(env, d, s, cause).Some? && ErrorTarget(env, d, s, cause).value.0 == z
  }

  lemma FailureTarget(d: FlowDef, s: State, caused: bool, gain: set<Key>, e: Edge<Pos>) returns (cause: string, z: State)
    requires e in FailureEdges(d, [], d, s, caused, gain)
    ensures e == To(Resting([z]), gain)
    ensures forall env | Quiet(env) :: LeadsTo(env, d, s, if caused then Some(cause) else None, z)
  {
    if caused && s in d.exceptionRoutes && e in RouteEdges(d, [], d.exceptionRoutes[s], {}, gain) {
      var routes := d.exceptionRoutes[s];
      RouteIsEdge(d, [], routes, {}, gain, e);
      var i :| 0 <= i < |routes| && Effective(routes, {}, i) && e in RoutedEdges(d, [], routes[i].target, gain);
      RoutedAtRoot(d, routes[i].target, gain);
      cause, z := "!" + routes[i].errorClass, routes[i].target;
      forall env | Quiet(env) ensures LeadsTo(env, d, s, Some(cause), z) { RouteTaken(env, routes, {}, i); }
    } else {
      assert s in d.errorTransitions;
      cause, z := "", d.errorTransitions[s];
      RoutedAtRoot(d, z, gain);
      forall env | Quiet(env) ensures LeadsTo(env, d, s, if caused then Some(cause) else None, z) {
        if s in d.exceptionRoutes { NoRouteTaken(env, d.exceptionRoutes[s]); }
      }
    }
  }

  lemma ErrorReady(x: Setting, env: Env, s: Sys, cause: Option<string>, q: State, z: State, most: set<Key>, fails: nat)
    requires Quiet(env) && Ready(x, s, q, most, fails) && LeadsTo(env, x.def, q, cause, z) && !x.def.Terminal(z)
    ensures Ready(x, HandleError(env, s, cause), z, most, After(q, z, fails)) && HandleError(env, s, cause).tick == s.tick
  {}

  // ---------- the edges of a state in the middle of a chain ----------

  lemma AdvanceReady(x: Setting, env: Env, s: Sys, to: State, trigger: string, q: State, most: set<Key>, fails: nat)
    requires Quiet(env) && Ready(x, s, q, most, fails)
    ensures Ready(x, Advance(env, s, to, trigger), to, most, After(q, to, fails)) && Advance(env, s, to, trigger).tick == s.tick
  {}

  /** A processor that does as declared leaves its keys in the context. */
  lemma RunReady(x: Setting, env: Env, s: Sys, p: Option<Processor>, verify: bool, c: Cue, q: State, most: set<Key>, fails: nat)
    requires Acts(env, s.tick, c) && c.fail.None? && Ready(x, s, q, most, fails)
    ensures var r := RunProcessor(env, s, p, verify);
      r.Moved? && Ready(x, r.sys, q, most + (if p.Some? then KeySet(p.value.produces) else {}), fails) && r.sys.tick == s.tick
  {}

  lemma RunBreaks(x: Setting, env: Env, s: Sys, p: Processor, verify: bool, cause: string, q: State, z: State, most: set<Key>, fails: nat)
    requires Quiet(env) && Acts(env, s.tick, Fail(cause)) && Ready(x, s, q, most, fails)
    requires LeadsTo(env, x.def, q, Some(cause), z) && !x.def.Terminal(z)
    ensures var r := RunProcessor(env, s, Some(p), verify);
      r.Failed? && Ready(x, r.sys, z, most, After(q, z, fails)) && r.sys.tick == s.tick
  {
    ErrorReady(x, env, Called(s, p.requires_), Some(cause), q, z, most, fails);
  }

  lemma RunSpoils(env: Env, s: Sys, p: Processor, verify: bool, k: Key)
    requires k in p.requires_ && k !in s.flow.ctx
    ensures var r := RunProcessor(env, s, Some(p), verify); !r.Halted? && Wrong(r.sys)
  {
    WrongCall(s, p.requires_, k);
    RunKeepsCalls(env, s, Some(p), verify);
  }

  lemma {:induction false} NeedKey(part: Part, t: Transition, ks: seq<Key>, given: set<Key>, n: Need)
    requires n in NeedsOf(part, t, ks, given)
    ensures n.key in ks && n.given == given
  {
    if n != Need(part, t, ks[0], given) { NeedKey(part, t, ks[1..], given, n); }
  }

  /** The state runs this transition when its chain comes by. */
  ghost predicate Runs(x: Setting, q: State, t: Transition) {
    q in x.def.states && !x.def.Terminal(q) && FirstChained(x.def.TransitionsFrom(q)) == Some(t)
  }

  lemma AutoPassReady(x: Setting, env: Env, s: Sys, q: State, t: Transition, most: set<Key>, fails: nat)
    requires Runs(x, q, t) && t.kind == Auto && Quiet(env) && Acts(env, s.tick, PASS) && Ready(x, s, q, most, fails)
    ensures var p := ChainPass(x.cfg, env, s);
      p.Moved? && Ready(x, p.sys, t.to, most + ProcessorProduces(t), After(q, t.to, fails)) && p.sys.tick == s.tick
  {
    var verify := x.cfg.strictMode || x.def.strictMode;
    RunReady(x, env, s, t.processor, verify, PASS, q, most, fails);
    var s1 := RunProcessor(env, s, t.processor, verify).sys;
    AdvanceReady(x, env, s1, t.to, if t.processor.Some? then t.processor.value.name else "auto", q, most + ProcessorProduces(t), fails);
  }

  lemma AutoPassSpoils(x: Setting, env: Env, s: Sys, q: State, t: Transition, k: Key, most: set<Key>, fails: nat)
    requires Runs(x, q, t) && t.kind == Auto && t.processor.Some? && k in t.processor.value.requires_ && k !in most
    requires Ready(x, s, q, most, fails)
    ensures var p := ChainPass(x.cfg, env, s); !p.Halted? && Wrong(p.sys)
  {
    var verify := x.cfg.strictMode || x.def.strictMode;
    RunSpoils(env, s, t.processor.value, verify, k);
    var r := RunProcessor(env, s, t.processor, verify);
    if r.Moved? { WrongMore(r.sys, ChainPass(x.cfg, env, s).sys); }
  }

  lemma AutoSteps(x: Setting, q: State, t: Transition, most: set<Key>)
    requires Runs(x, q, t) && t.kind == Auto
    ensures Steps(x, q, most, PASS, t.to, ProcessorProduces(t))
  {
    forall env, s: Sys, fails: nat | Quiet(env) && Acts(env, s.tick, PASS) && Ready(x, s, q, most, fails)
      ensures var p := ChainPass(x.cfg, env, s);
        p.Moved? && Ready(x, p.sys, t.to, most + ProcessorProduces(t), After(q, t.to, fails)) && p.sys.tick == s.tick
    {
      AutoPassReady(x, env, s, q, t, most, fails);
    }
  }

  lemma AutoSpoils(x: Setting, q: State, t: Transition, k: Key, most: set<Key>)
    requires Runs(x, q, t) && t.kind == Auto && t.processor.Some? && k in t.processor.value.requires_ && k !in most
    ensures Spoils(x, q, most, PASS)
  {
    forall env, s: Sys, fails: nat | Quiet(env) && Acts(env, s.tick, PASS) && Ready(x, s, q, most, fails)
      ensures var p := ChainPass(x.cfg, env, s); !p.Halted? && Wrong(p.sys)
    {
      AutoPassSpoils(x, env, s, q, t, k, most, fails);
    }
  }

  lemma AutoBack(x: Setting, q: State, t: Transition, e: Edge<Pos>, most: set<Key>)
    requires Proper(x) && Runs(x, q, t) && t.kind == Auto
    requires e == Edge(Running([t.to]), ProcessorProduces(t), RunNeeds(t, t.processor, {})) && Bad(x, e, most)
    ensures FatalRun(x, q, most)
  {
    if Fatal(x, e.target, most + e.gain) {
      AutoSteps(x, q, t, most);
      StepBack(x, q, most, PASS, t.to, e.gain);
    } else {
      var n :| n in e.needs && n.key !in most + n.given;
      NeedKey(ProcessorPart, t, t.processor.value.requires_, {}, n);
      AutoSpoils(x, q, t, n.key, most);
      SpoilBack(x, q, most, PASS);
    }
  }

  /** An error of the component that runs in `q`. */
  lemma FailurePass(x: Setting, env: Env, s: Sys, q: State, t: Transition, cause: string, z: State, most: set<Key>, fails: nat)
    requires SubFlowFree(x.def) && Runs(x, q, t) && (t.kind == Auto ==> t.processor.Some?) && (t.kind != Auto ==> t.branch.Some?)
    requires Quiet(env) && Acts(env, s.tick, Fail(cause)) && Ready(x, s, q, most, fails)
    requires LeadsTo(env, x.def, q, Some(cause), z) && !x.def.Terminal(z)
    ensures var p := ChainPass(x.cfg, env, s);
      p.Failed? && Ready(x, p.sys, z, most, After(q, z, fails)) && p.sys.tick == s.tick
  {
    if t.kind == Auto {
      RunBreaks(x, env, s, t.processor.value, x.cfg.strictMode || x.def.strictMode, cause, q, z, most, fails);
    } else {
      ErrorReady(x, env, Called(s, t.branch.value.requires_), Some(cause), q, z, most, fails);
    }
  }

  lemma FailureBreaks(x: Setting, q: State, t: Transition, cause: string, z: State, most: set<Key>)
    requires SubFlowFree(x.def) && Runs(x, q, t) && (t.kind == Auto ==> t.processor.Some?) && (t.kind != Auto ==> t.branch.Some?)
    requires (forall env | Quiet(env) :: LeadsTo(env, x.def, q, Some(cause), z)) && !x.def.Terminal(z)
    ensures Breaks(x, q, most, Fail(cause), z)
  {
    forall env, s: Sys, fails: nat | Quiet(env) && Acts(env, s.tick, Fail(cause)) && Ready(x, s, q, most, fails)
      ensures var p := ChainPass(x.cfg, env, s);
        p.Failed? && Ready(x, p.sys, z, most, After(q, z, fails)) && p.sys.tick == s.tick
    {
      FailurePass(x, env, s, q, t, cause, z, most, fails);
    }
  }

  lemma FailureBack(x: Setting, q: State, t: Transition, e: Edge<Pos>, most: set<Key>)
    requires Proper(x) && Runs(x, q, t) && (t.kind == Auto ==> t.processor.Some?) && (t.kind != Auto ==> t.branch.Some?)
    requires e in FailureEdges(x.def, [], x.def, q, true, {}) && Bad(x, e, most)
    ensures FatalRun(x, q, most)
  {
    var cause, z := FailureTarget(x.def, q, true, {}, e);
    assert most + {} == most;
    assert FatalRest(x, z, most);
    WaitingState(x, z);
    FailureBreaks(x, q, t, cause, z, most);
    BreakBack(x, q, most, Fail(cause), z);
  }

  /** A branch asked without a key it requires. */
  lemma AskPassSpoils(x: Setting, env: Env, s: Sys, q: State, t: Transition, k: Key, most: set<Key>, fails: nat)
    requires Runs(x, q, t) && t.kind == Branch && t.branch.Some? && k in t.branch.value.requires_ && k !in most
    requires Ready(x, s, q, most, fails)
    ensures var p := ChainPass(x.cfg, env, s); !p.Halted? && Wrong(p.sys)
  {
    WrongCall(s, t.branch.value.requires_, k);
    AskKeepsCalls(env, s, x.def.TransitionsFrom(q), t);
    WrongMore(Called(s, t.branch.value.requires_), ChainPass(x.cfg, env, s).sys);
  }

  lemma AskBack(x: Setting, q: State, t: Transition, e: Edge<Pos>, most: set<Key>)
    requires Proper(x) && Runs(x, q, t) && t.kind == Branch && t.branch.Some?
    requires e == Edge(Running([q]), {}, NeedsOf(BranchPart, t, t.branch.value.requires_, {})) && Bad(x, e, most)
    ensures FatalRun(x, q, most)
  {
    assert most + {} == most;
    if !FatalRun(x, q, most) {
      var n :| n in e.needs && n.key !in most + n.given;
      NeedKey(BranchPart, t, t.branch.value.requires_, {}, n);
      forall env, s: Sys, fails: nat | Quiet(env) && Acts(env, s.tick, PASS) && Ready(x, s, q, most, fails)
        ensures var p := ChainPass(x.cfg, env, s); !p.Halted? && Wrong(p.sys)
      {
        AskPassSpoils(x, env, s, q, t, n.key, most, fails);
      }
      SpoilBack(x, q, most, PASS);
    }
  }

  lemma AskKeepsCalls(env: Env, s: Sys, ts: seq<Transition>, t: Transition)
    requires t.branch.Some?
    ensures var p := BranchPass(env, s, ts, t); !p.Halted? && Called(s, t.branch.value.requires_).calls <= p.sys.calls
  {
    var s1 := Called(s, t.branch.value.requires_);
    match env.decide(t.branch.value, s.flow.ctx, s.tick)
    case Undecided(_) =>
    case Decided(choice) =>
      if choice in t.branchTargets {
        RunKeepsCalls(env, s1, Specific(ts, t, choice, t.branchTargets[choice]).processor, false);
      }
  }

  /** The pass of a branch that picks `l`. */
  lemma PickPass(x: Setting, env: Env, s: Sys, q: State, t: Transition, l: Label, most: set<Key>, fails: nat)
    requires SubFlowFree(x.def) && Runs(x, q, t) && t.kind == Branch && t.branch.Some? && l in t.branchTargets
    requires Acts(env, s.tick, Pick(l)) && Ready(x, s, q, most, fails)
    ensures var run := Specific(x.def.TransitionsFrom(q), t, l, t.branchTargets[l]);
      var r := RunProcessor(env, Called(s, t.branch.value.requires_), run.processor, false);
      r.Moved? && ChainPass(x.cfg, env, s) == Moved(Advance(env, r.sys, t.branchTargets[l], t.branch.value.name + ":" + l))
  {}

  lemma ArmPassReady(x: Setting, env: Env, s: Sys, q: State, t: Transition, l: Label, most: set<Key>, fails: nat)
    requires SubFlowFree(x.def) && Runs(x, q, t) && t.kind == Branch && t.branch.Some? && l in t.branchTargets
    requires Quiet(env) && Acts(env, s.tick, Pick(l)) && Ready(x, s, q, most, fails)
    ensures var p, to := ChainPass(x.cfg, env, s), t.branchTargets[l];
      p.Moved? && Ready(x, p.sys, to, most + ArmEdge([], x.def, q, t, l).gain, After(q, to, fails)) && p.sys.tick == s.tick
  {
    var to := t.branchTargets[l];
    var run, s1 := Specific(x.def.TransitionsFrom(q), t, l, to), Called(s, t.branch.value.requires_);
    PickPass(x, env, s, q, t, l, most, fails);
    RunReady(x, env, s1, run.processor, false, Pick(l), q, most, fails);
    AdvanceReady(x, env, RunProcessor(env, s1, run.processor, false).sys, to, t.branch.value.name + ":" + l, q,
      most + ProcessorProduces(run), fails);
  }

  lemma ArmPassSpoils(x: Setting, env: Env, s: Sys, q: State, t: Transition, l: Label, k: Key, most: set<Key>, fails: nat)
    requires SubFlowFree(x.def) && Runs(x, q, t) && t.kind == Branch && t.branch.Some? && l in t.branchTargets
    requires var run := Specific(x.def.TransitionsFrom(q), t, l, t.branchTargets[l]);
      run.processor.Some? && k in run.processor.value.requires_ && k !in most
    requires Acts(env, s.tick, Pick(l)) && Ready(x, s, q, most, fails)
    ensures var p := ChainPass(x.cfg, env, s); !p.Halted? && Wrong(p.sys)
  {
    var run, s1 := Specific(x.def.TransitionsFrom(q), t, l, t.branchTargets[l]), Called(s, t.branch.value.requires_);
    PickPass(x, env, s, q, t, l, most, fails);
    RunSpoils(env, s1, run.processor.value, false, k);
    WrongMore(RunProcessor(env, s1, run.processor, false).sys, ChainPass(x.cfg, env, s).sys);
  }

  lemma ArmSteps(x: Setting, q: State, t: Transition, l: Label, most: set<Key>)
    requires SubFlowFree(x.def) && Runs(x, q, t) && t.kind == Branch && t.branch.Some? && l in t.branchTargets
    ensures Steps(x, q, most, Pick(l), t.branchTargets[l], ArmEdge([], x.def, q, t, l).gain)
  {
    var to, gain := t.branchTargets[l], ArmEdge([], x.def, q, t, l).gain;
    forall env, s: Sys, fails: nat | Quiet(env) && Acts(env, s.tick, Pick(l)) && Ready(x, s, q, most, fails)
      ensures var p := ChainPass(x.cfg, env, s);
        p.Moved? && Ready(x, p.sys, to, most + gain, After(q, to, fails)) && p.sys.tick == s.tick
    {
      ArmPassReady(x, env, s, q, t, l, most, fails);
    }
  }

  lemma ArmSpoils(x: Setting, q: State, t: Transition, l: Label, k: Key, most: set<Key>)
    requires SubFlowFree(x.def) && Runs(x, q, t) && t.kind == Branch && t.branch.Some? && l in t.branchTargets
    requires var run := Specific(x.def.TransitionsFrom(q), t, l, t.branchTargets[l]);
      run.processor.Some? && k in run.processor.value.requires_ && k !in most
    ensures Spoils(x, q, most, Pick(l))
  {
    forall env, s: Sys, fails: nat | Quiet(env) && Acts(env, s.tick, Pick(l)) && Ready(x, s, q, most, fails)
      ensures var p := ChainPass(x.cfg, env, s); !p.Halted? && Wrong(p.sys)
    {
      ArmPassSpoils(x, env, s, q, t, l, k, most, fails);
    }
  }

  lemma ArmBack(x: Setting, q: State, t: Transition, l: Label, e: Edge<Pos>, most: set<Key>)
    requires Proper(x) && Runs(x, q, t) && t.kind == Branch && t.branch.Some? && l in t.branchTargets
    requires e == ArmEdge([], x.def, q, t, l) && Bad(x, e, most)
    ensures FatalRun(x, q, most)
  {
    var to := t.branchTargets[l];
    var run := Specific(x.def.TransitionsFrom(q), t, l, to);
    assert [] + [to] == [to];
    if Fatal(x, e.target, most + e.gain) {
      ArmSteps(x, q, t, l, most);
      StepBack(x, q, most, Pick(l), to, e.gain);
    } else {
      var n :| n in e.needs && n.key !in most + n.given;
      NeedKey(ProcessorPart, t, run.processor.value.requires_, {}, n);
      ArmSpoils(x, q, t, l, n.key, most);
      SpoilBack(x, q, most, Pick(l));
    }
  }
}
