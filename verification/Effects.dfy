/** What the recorded moves of a flow leave behind: in its context, which they change through the actions of the states they
  * leave and enter, and in the time at which its state was entered. For definitions without sub-flows. */
module Effects {
  import opened Definition
  import opened EngineModel
  import opened EngineFacts
  import opened Trails

  /** Something read off a context, and what the actions of a state do to it. */
  datatype Watch<!V> = Watch(look: Ctx -> V, exits: (State, V) -> V, enters: (State, V) -> V)

  /** The actions change what is watched as stated; processors that return and guards that accept leave it alone. What a
    * processor puts before it throws is not restricted. */
  ghost predicate Watched<V>(env: Env, w: Watch<V>) {
    && (forall def, s, ctx, n :: w.look(ctx + env.onExit(def, s, ctx, n)) == w.exits(s, w.look(ctx)))
    && (forall def, s, ctx, n :: w.look(ctx + env.onEnter(def, s, ctx, n)) == w.enters(s, w.look(ctx)))
    && (forall p, ctx, n :: env.process(p, ctx, n).Returned? ==> w.look(ctx + env.process(p, ctx, n).puts) == w.look(ctx))
    && (forall g, ctx, n :: env.validate(g, ctx, n).Accepted? ==> w.look(ctx + env.validate(g, ctx, n).data) == w.look(ctx))
  }

  // ---------- records of errors and of regular moves ----------

  /** "error", or "error:" and more. */
  predicate ErrorTrigger(trigger: string) {
    |trigger| >= 5 && trigger[..5] == "error" && (|trigger| == 5 || trigger[5] == ':')
  }

  /** No component is named like an error. */
  ghost predicate NamesClear(def: FlowDef) {
    forall t | t in def.transitions ::
      && (t.guard.Some? ==> !ErrorTrigger(t.guard.value.name))
      && (t.branch.Some? ==> !ErrorTrigger(t.branch.value.name))
      && (t.processor.Some? ==> !ErrorTrigger(t.processor.value.name))
  }

  lemma BranchTriggerClear(name: string, choice: Label)
    requires !ErrorTrigger(name)
    ensures !ErrorTrigger(name + ":" + choice)
  {
    var trigger := name + ":" + choice;
    if |name| < 5 {
      assert trigger[|name|] == ':' && forall i | 0 <= i < 5 :: "error"[i] != ':';
      if |trigger| >= 5 { assert trigger[..5][|name|] == ':'; }
    } else {
      assert trigger[..5] == name[..5];
    }
  }

  lemma ErrorTargetTrigger(env: Env, def: FlowDef, from: State, cause: Option<string>)
    ensures ErrorTarget(env, def, from, cause).Some? ==> ErrorTrigger(ErrorTarget(env, def, from, cause).value.1)
  {
    if cause.Some? { assert ("error:" + cause.value)[..5] == "error" && ("error:" + cause.value)[5] == ':'; }
  }

  /** What the actions of one recorded move do: out of the state left, then into the state entered; none for an error. */
  function ActedOut<V>(w: Watch<V>, x: Record, v: V): V {
    if ErrorTrigger(x.trigger) then v else w.enters(x.to, w.exits(x.from, v))
  }

  /** The actions of the recorded moves, one after the other. */
  function Replayed<V>(w: Watch<V>, rs: seq<Record>, v: V): V {
    if rs == [] then v else ActedOut(w, rs[|rs| - 1], Replayed(w, rs[..|rs| - 1], v))
  }

  lemma {:induction false} ReplayedAppend<V>(w: Watch<V>, a: seq<Record>, b: seq<Record>, v: V)
    ensures Replayed(w, a + b, v) == Replayed(w, b, Replayed(w, a, v))
  {
    if b == [] {
      assert a + b == a;
    } else {
      var n := |b| - 1;
      ReplayedAppend(w, a, b[..n], v);
      assert (a + b)[..|a + b| - 1] == a + b[..n] && (a + b)[|a + b| - 1] == b[n];
    }
  }

  // ---------- what may be recorded ----------

  /** A move along a declared transition, under the name of what made it. */
  ghost predicate RegularMove(def: FlowDef, x: Record) {
    exists t | t in def.transitions && t.from == x.from ::
      match t.kind
      case Auto => x.to == t.to && x.trigger == (if t.processor.Some? then t.processor.value.name else "auto")
      case External => x.to == t.to && x.trigger == (if t.guard.Some? then t.guard.value.name else "external")
      case Branch =>
        t.branch.Some? && exists l | l in t.branchTargets :: x.to == t.branchTargets[l] && x.trigger == t.branch.value.name + ":" + l
      case SubFlow => false
  }

  /** The first route declared for `from` whose class the cause is an instance of. */
  ghost predicate FirstRoute(env: Env, def: FlowDef, from: State, cause: string, i: nat) {
    && from in def.exceptionRoutes && i < |def.exceptionRoutes[from]|
    && env.instanceOf(cause, def.exceptionRoutes[from][i].errorClass)
    && forall j | 0 <= j < i :: !env.instanceOf(cause, def.exceptionRoutes[from][j].errorClass)
  }

  ghost predicate NoRoute(env: Env, def: FlowDef, from: State, cause: Option<string>) {
    cause.Some? && from in def.exceptionRoutes ==>
      forall r | r in def.exceptionRoutes[from] :: !env.instanceOf(cause.value, r.errorClass)
  }

  /** An error with that cause goes by the first route that matches, under its own name, and otherwise by the error transition. */
  ghost predicate RoutedTo(env: Env, def: FlowDef, from: State, cause: Option<string>, to: State, trigger: string) {
    || (cause.Some? && trigger == "error:" + cause.value
        && exists i: nat :: FirstRoute(env, def, from, cause.value, i) && to == def.exceptionRoutes[from][i].target)
    || (NoRoute(env, def, from, cause) && from in def.errorTransitions && to == def.errorTransitions[from] && trigger == "error")
  }

  ghost predicate RoutedMove(env: Env, def: FlowDef, x: Record) { exists cause :: RoutedTo(env, def, x.from, cause, x.to, x.trigger) }

  ghost predicate Lawful(env: Env, def: FlowDef, x: Record) { RegularMove(def, x) || RoutedMove(env, def, x) }

  lemma {:induction false} FirstMatch(env: Env, routes: seq<ErrorRoute>, cause: string)
    ensures match MatchingRoute(env, routes, cause)
      case Some(z) =>
        exists i | 0 <= i < |routes| ::
          && routes[i].target == z && env.instanceOf(cause, routes[i].errorClass)
          && forall j | 0 <= j < i :: !env.instanceOf(cause, routes[j].errorClass)
      case None => forall r | r in routes :: !env.instanceOf(cause, r.errorClass)
  {
    if routes != [] && !env.instanceOf(cause, routes[0].errorClass) {
      FirstMatch(env, routes[1..], cause);
      assert routes == [routes[0]] + routes[1..];
      match MatchingRoute(env, routes[1..], cause)
      case Some(z) =>
        var i :| 0 <= i < |routes[1..]| && routes[1..][i].target == z && env.instanceOf(cause, routes[1..][i].errorClass)
          && forall j | 0 <= j < i :: !env.instanceOf(cause, routes[1..][j].errorClass);
        forall j | 0 <= j < i + 1 ensures !env.instanceOf(cause, routes[j].errorClass) {
          if j > 0 { assert routes[j] == routes[1..][j - 1]; }
        }
        assert routes[i + 1] == routes[1..][i];
      case None =>
    }
  }

  /** Where an error goes, and that it goes nowhere else. */
  lemma ErrorTargetIff(env: Env, def: FlowDef, from: State, cause: Option<string>, to: State, trigger: string)
    ensures ErrorTarget(env, def, from, cause) == Some((to, trigger)) <==> RoutedTo(env, def, from, cause, to, trigger)
    ensures ErrorTarget(env, def, from, cause).None? <==> NoRoute(env, def, from, cause) && from !in def.errorTransitions
  {
    if cause.Some? && from in def.exceptionRoutes {
      var routes := def.exceptionRoutes[from];
      FirstMatch(env, routes, cause.value);
      if MatchingRoute(env, routes, cause.value).Some? {
        var i: nat :| i < |routes| && routes[i].target == MatchingRoute(env, routes, cause.value).value
          && env.instanceOf(cause.value, routes[i].errorClass)
          && forall j | 0 <= j < i :: !env.instanceOf(cause.value, routes[j].errorClass);
        assert FirstRoute(env, def, from, cause.value, i) && routes[i] in routes;
        forall k: nat | FirstRoute(env, def, from, cause.value, k) ensures k == i {}
      } else {
        forall k: nat ensures !FirstRoute(env, def, from, cause.value, k) { if k < |routes| { assert routes[k] in routes; } }
      }
    }
  }

  // ---------- from one system to a later one ----------

  ghost predicate ReadBetween(env: Env, value: int, first: nat, last: nat) { exists n | first <= n <= last :: value == env.clock(n) }

  /** Without a record the state and its entry time are kept; with one, the entry time was read in between. */
  ghost predicate EntryExplained(env: Env, s: Sys, r: Sys)
    requires |s.log| <= |r.log|
  {
    if News(s, r) == [] then r.flow.state == s.flow.state && r.flow.enteredAt == s.flow.enteredAt
    else ReadBetween(env, r.flow.enteredAt, s.tick, r.tick)
  }

  ghost predicate Explained<V>(env: Env, w: Watch<V>, s: Sys, r: Sys) {
    && r.id == s.id && r.flow.def == s.flow.def && r.flow.active == s.flow.active && r.flow.expiresAt == s.flow.expiresAt
    && s.tick <= r.tick && s.log <= r.log && s.calls <= r.calls
    && (forall x | x in News(s, r) :: x.flowId == s.id && Lawful(env, s.flow.def, x))
    && EntryExplained(env, s, r)
    && (NamesClear(s.flow.def) ==> w.look(r.flow.ctx) == Replayed(w, News(s, r), w.look(s.flow.ctx)))
  }

  /** Nothing of interest has changed. */
  lemma Unmoved<V>(env: Env, w: Watch<V>, s: Sys, r: Sys)
    requires r.id == s.id && r.flow.def == s.flow.def && r.flow.active == s.flow.active && r.flow.expiresAt == s.flow.expiresAt
    requires r.log == s.log && s.tick <= r.tick && s.calls <= r.calls
    requires r.flow.state == s.flow.state && r.flow.enteredAt == s.flow.enteredAt && w.look(r.flow.ctx) == w.look(s.flow.ctx)
    ensures Explained(env, w, s, r)
  {
    assert News(s, r) == [];
  }

  lemma Onwards<V>(env: Env, w: Watch<V>, s: Sys, m: Sys, r: Sys)
    requires Explained(env, w, s, m) && Explained(env, w, m, r)
    ensures Explained(env, w, s, r)
  {
    assert News(s, r) == News(s, m) + News(m, r);
    ReplayedAppend(w, News(s, m), News(m, r), w.look(s.flow.ctx));
    if News(m, r) != [] {
      var n :| m.tick <= n <= r.tick && r.flow.enteredAt == env.clock(n);
      assert s.tick <= n <= r.tick;
    }
  }

  lemma OneMove<V>(env: Env, w: Watch<V>, s: Sys, r: Sys, x: Record)
    requires r.id == s.id && r.flow.def == s.flow.def && r.flow.active == s.flow.active && r.flow.expiresAt == s.flow.expiresAt
    requires r.log == s.log + [x] && x.flowId == s.id && s.tick == r.tick && s.calls == r.calls
    requires r.flow.enteredAt == env.clock(s.tick) && Lawful(env, s.flow.def, x)
    requires NamesClear(s.flow.def) ==> w.look(r.flow.ctx) == ActedOut(w, x, w.look(s.flow.ctx))
    ensures Explained(env, w, s, r)
  {
    assert News(s, r) == [x] && [x][..0] == [];
  }

  lemma Ticked<V>(env: Env, w: Watch<V>, s: Sys, r: Sys)
    requires Explained(env, w, s, r)
    ensures Explained(env, w, s, Tick(r))
  {
    Unmoved(env, w, r, Tick(r));
    Onwards(env, w, s, r, Tick(r));
  }

  // ---------- one step ----------

  lemma AdvanceExplained<V>(env: Env, w: Watch<V>, s: Sys, to: State, trigger: string)
    requires Watched(env, w) && (NamesClear(s.flow.def) ==> !ErrorTrigger(trigger))
    requires RegularMove(s.flow.def, Record(s.id, s.flow.state, to, trigger))
    ensures Explained(env, w, s, Advance(env, s, to, trigger))
  {
    OneMove(env, w, s, Advance(env, s, to, trigger), Record(s.id, s.flow.state, to, trigger));
  }

  lemma ErrorExplained<V>(env: Env, w: Watch<V>, s: Sys, cause: Option<string>)
    ensures Explained(env, w, s, HandleError(env, s, cause))
  {
    var r := HandleError(env, s, cause);
    ErrorTargetTrigger(env, s.flow.def, s.flow.state, cause);
    match ErrorTarget(env, s.flow.def, s.flow.state, cause)
    case Some((target, trigger)) =>
      ErrorTargetIff(env, s.flow.def, s.flow.state, cause, target, trigger);
      OneMove(env, w, s, r, Record(s.id, s.flow.state, target, trigger));
    case None => Unmoved(env, w, s, r);
  }

  ghost predicate PassExplained<V>(env: Env, w: Watch<V>, s: Sys, p: Pass) {
    match p
    case Halted => true
    case Moved(r) => Explained(env, w, s, r)
    case Failed(r) => Explained(env, w, s, r)
  }

  lemma CalledExplained<V>(env: Env, w: Watch<V>, s: Sys, needs: seq<Key>)
    ensures Explained(env, w, s, Called(s, needs))
  {
    Unmoved(env, w, s, Called(s, needs));
  }

  lemma ProcessorExplained<V>(env: Env, w: Watch<V>, s: Sys, p: Option<Processor>, verify: bool)
    requires Watched(env, w)
    ensures PassExplained(env, w, s, RunProcessor(env, s, p, verify))
    ensures var r := RunProcessor(env, s, p, verify); r.Moved? ==> r.sys.flow.def == s.flow.def && r.sys.flow.state == s.flow.state && r.sys.id == s.id
  {
    match p
    case None => Unmoved(env, w, s, s);
    case Some(proc) =>
      var s1 := Called(s, proc.requires_);
      CalledExplained(env, w, s, proc.requires_);
      match env.process(proc, s.flow.ctx, s.tick)
      case Threw(_, error) =>
        ErrorExplained(env, w, s1, Some(error));
        Onwards(env, w, s, s1, HandleError(env, s1, Some(error)));
      case Returned(puts) =>
        ErrorExplained(env, w, s1, Some("FlowError"));
        Onwards(env, w, s, s1, HandleError(env, s1, Some("FlowError")));
        Unmoved(env, w, s, s1.(flow := s.flow.(ctx := s.flow.ctx + puts)));
  }

  lemma AutoExplained<V>(cfg: Config, env: Env, w: Watch<V>, s: Sys, t: Transition)
    requires Watched(env, w) && t in s.flow.def.transitions && t.from == s.flow.state && t.kind == Auto
    ensures PassExplained(env, w, s, AutoPass(cfg, env, s, t))
  {
    var verify := cfg.strictMode || s.flow.def.strictMode;
    ProcessorExplained(env, w, s, t.processor, verify);
    var p := RunProcessor(env, s, t.processor, verify);
    if p.Moved? {
      var trigger := if t.processor.Some? then t.processor.value.name else "auto";
      AdvanceExplained(env, w, p.sys, t.to, trigger);
      Onwards(env, w, s, p.sys, Advance(env, p.sys, t.to, trigger));
    }
  }

  lemma DecidedExplained<V>(env: Env, w: Watch<V>, s: Sys, p: Option<Processor>, target: State, name: string, choice: Label)
    requires Watched(env, w) && (NamesClear(s.flow.def) ==> !ErrorTrigger(name))
    requires RegularMove(s.flow.def, Record(s.id, s.flow.state, target, name + ":" + choice))
    ensures var r := RunProcessor(env, s, p, false);
      && PassExplained(env, w, s, r)
      && (r.Moved? ==> Explained(env, w, s, Advance(env, r.sys, target, name + ":" + choice)))
  {
    ProcessorExplained(env, w, s, p, false);
    var r := RunProcessor(env, s, p, false);
    if r.Moved? {
      if NamesClear(s.flow.def) { BranchTriggerClear(name, choice); }
      AdvanceExplained(env, w, r.sys, target, name + ":" + choice);
      Onwards(env, w, s, r.sys, Advance(env, r.sys, target, name + ":" + choice));
    }
  }

  lemma BranchExplained<V>(env: Env, w: Watch<V>, s: Sys, ts: seq<Transition>, t: Transition)
    requires Watched(env, w) && t in s.flow.def.transitions && t.from == s.flow.state && t.kind == Branch
    ensures PassExplained(env, w, s, BranchPass(env, s, ts, t))
  {
    if t.branch.None? {
      ErrorExplained(env, w, s, Some("TypeError"));
    } else {
      var s1 := Called(s, t.branch.value.requires_);
      CalledExplained(env, w, s, t.branch.value.requires_);
      match env.decide(t.branch.value, s.flow.ctx, s.tick)
      case Undecided(error) =>
        ErrorExplained(env, w, s1, Some(error));
        Onwards(env, w, s, s1, HandleError(env, s1, Some(error)));
      case Decided(choice) =>
        if choice !in t.branchTargets {
          ErrorExplained(env, w, s1, Some("FlowError"));
          Onwards(env, w, s, s1, HandleError(env, s1, Some("FlowError")));
        } else {
          var target := t.branchTargets[choice];
          DecidedExplained(env, w, s1, Specific(ts, t, choice, target).processor, target, t.branch.value.name, choice);
          Onwards(env, w, s, s1, BranchPass(env, s, ts, t).sys);
        }
    }
  }

  lemma PassesExplained<V>(cfg: Config, env: Env, w: Watch<V>, s: Sys)
    requires Watched(env, w)
    ensures PassExplained(env, w, s, ChainPass(cfg, env, s))
  {
    var ts := s.flow.def.TransitionsFrom(s.flow.state);
    FirstChainedIn(ts);
    match FirstChained(ts)
    case None =>
    case Some(t) =>
      LeavingIn(s.flow.def.transitions, s.flow.state, t);
      if t.kind == Auto { AutoExplained(cfg, env, w, s, t); } else { BranchExplained(env, w, s, ts, t); }
  }

  lemma {:induction false} ChainExplained<V>(cfg: Config, env: Env, w: Watch<V>, s: Sys, depth: nat)
    requires Watched(env, w) && SubFlowFree(s.flow.def)
    ensures Explained(env, w, s, Chain(cfg, env, s, depth).sys)
    decreases if depth <= cfg.maxChainDepth then cfg.maxChainDepth - depth else 0
  {
    var r := Chain(cfg, env, s, depth);
    if depth >= cfg.maxChainDepth || s.flow.def.Terminal(s.flow.state) {
      Unmoved(env, w, s, r.sys);
    } else {
      ChainStep(cfg, env, s, depth);
      PassesExplained(cfg, env, w, s);
      match ChainPass(cfg, env, s)
      case Halted => Unmoved(env, w, s, s);
      case Moved(s1) =>
        Ticked(env, w, s, s1);
        ChainExplained(cfg, env, w, Tick(s1), depth + 1);
        Onwards(env, w, s, Tick(s1), r.sys);
      case Failed(s1) => Ticked(env, w, s, s1);
    }
  }

  // ---------- resuming ----------

  lemma MoveExplained<V>(cfg: Config, env: Env, w: Watch<V>, s: Sys, m: Sys, to: State, trigger: string)
    requires Watched(env, w) && SubFlowFree(s.flow.def) && Explained(env, w, s, m)
    requires NamesClear(s.flow.def) ==> !ErrorTrigger(trigger)
    requires m.flow.state == s.flow.state && RegularMove(s.flow.def, Record(s.id, s.flow.state, to, trigger))
    ensures Explained(env, w, s, Chain(cfg, env, Tick(Advance(env, m, to, trigger)), 0).sys)
  {
    var a := Advance(env, m, to, trigger);
    AdvanceExplained(env, w, m, to, trigger);
    Onwards(env, w, s, m, a);
    Ticked(env, w, s, a);
    ChainExplained(cfg, env, w, Tick(a), 0);
    Onwards(env, w, s, Tick(a), Chain(cfg, env, Tick(a), 0).sys);
  }

  lemma AcceptExplained<V>(cfg: Config, env: Env, w: Watch<V>, s: Sys, t: Transition, name: string, data: Ctx)
    requires Watched(env, w) && SubFlowFree(s.flow.def) && (NamesClear(s.flow.def) ==> !ErrorTrigger(name))
    requires w.look(s.flow.ctx + data) == w.look(s.flow.ctx)
    requires RegularMove(s.flow.def, Record(s.id, s.flow.state, t.to, name))
    ensures Explained(env, w, s, Accept(cfg, env, s, t, name, data).sys)
  {
    var withData := s.(flow := s.flow.(ctx := s.flow.ctx + data));
    match t.processor
    case None =>
      Unmoved(env, w, s, withData);
      MoveExplained(cfg, env, w, s, withData, t.to, name);
    case Some(p) =>
      var called := Called(withData, p.requires_);
      match env.process(p, withData.flow.ctx, s.tick)
      case Threw(_, error) =>
        var back := called.(flow := s.flow);
        Unmoved(env, w, s, back);
        ErrorExplained(env, w, back, Some(error));
        Onwards(env, w, s, back, HandleError(env, back, Some(error)));
        Ticked(env, w, s, HandleError(env, back, Some(error)));
      case Returned(puts) =>
        var done := called.(flow := s.flow.(ctx := withData.flow.ctx + puts));
        Unmoved(env, w, s, done);
        MoveExplained(cfg, env, w, s, done, t.to, name);
  }

  lemma RejectExplained<V>(env: Env, w: Watch<V>, s: Sys)
    ensures Explained(env, w, s, Tick(Reject(env, s)))
  {
    var counted := s.(flow := s.flow.(failures := s.flow.failures + 1));
    Unmoved(env, w, s, counted);
    ErrorExplained(env, w, counted, None);
    Onwards(env, w, s, counted, HandleError(env, counted, None));
    Ticked(env, w, s, Reject(env, s));
  }

  lemma TakeExplained<V>(cfg: Config, env: Env, w: Watch<V>, s: Sys, t: Transition)
    requires Watched(env, w) && SubFlowFree(s.flow.def)
    requires t in s.flow.def.transitions && t.from == s.flow.state && t.kind == External
    ensures Explained(env, w, s, TakeExternal(cfg, env, s, t).sys)
  {
    match t.guard
    case None =>
      Unmoved(env, w, s, s);
      MoveExplained(cfg, env, w, s, s, t.to, "external");
    case Some(g) =>
      var called := Called(s, g.requires_);
      CalledExplained(env, w, s, g.requires_);
      match env.validate(g, s.flow.ctx, s.tick)
      case Accepted(data) =>
        AcceptExplained(cfg, env, w, called, t, g.name, data);
        Onwards(env, w, s, called, Accept(cfg, env, called, t, g.name, data).sys);
      case Rejected =>
        RejectExplained(env, w, called);
        Onwards(env, w, s, called, Tick(Reject(env, called)));
      case Expired => Unmoved(env, w, s, Tick(called.(flow := Complete(s.flow, "EXPIRED"))));
      case Raised(error) => Unmoved(env, w, s, Tick(called));
  }

  lemma OwnExplained<V>(cfg: Config, env: Env, w: Watch<V>, s: Sys, keys: set<Key>)
    requires Watched(env, w) && SubFlowFree(s.flow.def)
    ensures Explained(env, w, s, ResumeOwn(cfg, env, s, keys).sys)
  {
    var r := ResumeOwn(cfg, env, s, keys);
    var externals := s.flow.def.ExternalsFrom(s.flow.state);
    SelectedIsExternal(externals, keys);
    if externals != [] && Select(externals, keys).Selected? {
      var t := Select(externals, keys).transition;
      OfKindIn(s.flow.def.TransitionsFrom(s.flow.state), External, t);
      LeavingIn(s.flow.def.transitions, s.flow.state, t);
      TakeExplained(cfg, env, w, s, t);
      Unmoved(env, w, s, s.(flow := Complete(s.flow, "EXPIRED")));
    } else {
      Unmoved(env, w, s, r.sys);
    }
  }

  /** The data of the event leaves alone what is watched. */
  lemma ResumeExplained<V>(cfg: Config, env: Env, w: Watch<V>, s: Sys, data: Ctx)
    requires Watched(env, w) && SubFlowFree(s.flow.def) && s.flow.active.None?
    requires w.look(s.flow.ctx + data) == w.look(s.flow.ctx)
    ensures Explained(env, w, s, Resume(cfg, env, s, data).sys)
  {
    var s1 := Arrived(s, data);
    Unmoved(env, w, s, s1);
    if env.clock(s.tick) > s.flow.expiresAt {
      Unmoved(env, w, s, s1.(flow := Complete(s1.flow, "EXPIRED")));
    } else {
      OwnExplained(cfg, env, w, s1, data.Keys);
      Onwards(env, w, s, s1, ResumeOwn(cfg, env, s1, data.Keys).sys);
    }
  }
}
