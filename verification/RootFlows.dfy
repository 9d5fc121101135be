/** The root flow above nested sub-flow instances, in the Rust engine: its start, its resume and the store of all flows.
  * In every run, active sub-flows sit at the transitions that created them. */
module RootFlows {
  import opened Definition
  import opened EngineModel
  import opened NestedSubFlows

  /** A root flow owns its context and the instance of the sub-flow it waits for. */
  datatype Root = Root(
    def: FlowDef,
    state: State,
    ctx: Ctx,
    failures: nat,
    exit: Option<string>,
    enteredAt: int,
    expiresAt: int,
    active: Option<Instance>)

  /** `thrown` is the error a call returns. */
  datatype RootReply = RootReply(flow: Root, tick: nat, thrown: Option<string>)

  // ---------- one move ----------

  /** `transition_to`. */
  function Enter(f: Root, to: State, now: int): Root {
    f.(state := to, enteredAt := now, failures := if f.state != to then 0 else f.failures)
  }

  /** `complete` drops the active sub-flow. */
  function End(f: Root, exit: string): Root { f.(exit := Some(exit), active := None) }

  /** Exit action, `transition_to`, enter action. */
  function Travel(env: Env, f: Root, to: State, n: nat): Root {
    var left := f.ctx + env.onExit(f.def, f.state, f.ctx, n);
    Enter(f, to, env.clock(n)).(ctx := left + env.onEnter(f.def, to, left, n))
  }

  /** `handle_error_with_cause`. */
  function RouteError(env: Env, f: Root, cause: Option<string>, n: nat): Root {
    match ErrorTarget(env, f.def, f.state, cause)
    case Some((target, _)) =>
      var moved := Enter(f, target, env.clock(n));
      if f.def.Terminal(target) then End(moved, target) else moved
    case None => End(f, "TERMINAL_ERROR")
  }

  // ---------- the auto-chain ----------

  /** One iteration of the loop: leave it, or go on with one more step counted. */
  datatype Step = Left(reply: RootReply) | Went(flow: Root, tick: nat)

  /** Runs an optional processor; a failure restores the context and routes the error. */
  function Process(env: Env, f: Root, p: Option<Processor>, verify: bool, n: nat): Step {
    match p
    case None => Went(f, n)
    case Some(proc) =>
      match env.process(proc, f.ctx, n)
      case Threw(_, error) => Left(RootReply(RouteError(env, f, Some(error), n), n + 1, None))
      case Returned(puts) =>
        if verify && !(KeySet(proc.produces) <= (f.ctx + puts).Keys)
        then Left(RootReply(RouteError(env, f, None, n), n + 1, None))
        else Went(f.(ctx := f.ctx + puts), n + 1)
  }

  /** The sub-flow is created and started; the root waits, moves on, or takes its error transition. */
  function EnterSubFlow(env: Env, f: Root, link: SubFlowLink, n: nat): Step {
    match StartInstance(env, CreateInstance(link.definition), Shared(f.ctx, n, []))
    case Faulted(_, w, error) => Left(RootReply(f.(ctx := w.ctx), w.tick, Some(error)))
    case Reply(_, w, Completed(exit)) =>
      var back := f.(ctx := w.ctx);
      if exit in link.exitMappings then Went(Travel(env, back, link.exitMappings[exit], w.tick), w.tick + 1)
      else Left(RootReply(RouteError(env, back, None, w.tick), w.tick + 1, None))
    case Reply(sub, w, _) => Left(RootReply(f.(ctx := w.ctx, active := Some(sub)), w.tick, None))
  }

  function AutoStep(cfg: Config, env: Env, f: Root, t: Transition, n: nat): Step {
    match Process(env, f, t.processor, cfg.strictMode || f.def.strictMode, n)
    case Went(f1, n1) => Went(Travel(env, f1, t.to, n1), n1 + 1)
    case left => left
  }

  function BranchStep(env: Env, f: Root, ts: seq<Transition>, t: Transition, b: Brancher, n: nat): Step {
    match env.decide(b, f.ctx, n)
    case Undecided(error) => Left(RootReply(f, n + 1, Some(error)))
    case Decided(choice) =>
      if choice in t.branchTargets then
        var target := t.branchTargets[choice];
        match Process(env, f, Specific(ts, t, choice, target).processor, false, n + 1)
        case Went(f1, n1) => Went(Travel(env, f1, target, n1), n1 + 1)
        case left => left
      else Left(RootReply(RouteError(env, f, Some("FlowError"), n), n + 1, None))
  }

  /** `dispatch_step`: sub-flow, then automatic, then branch, whatever the order of declaration. */
  function Dispatch(cfg: Config, env: Env, f: Root, n: nat): Step {
    var ts := f.def.TransitionsFrom(f.state);
    var auto, branch := FirstOfKind(ts, Auto), FirstOfKind(ts, Branch);
    match FirstSubFlow(ts)
    case Some(t) => if t.subFlow.Some? then EnterSubFlow(env, f, t.subFlow.value, n) else Left(RootReply(f, n, None))
    case None =>
      if auto.Some? then AutoStep(cfg, env, f, auto.value, n)
      else if branch.Some? && branch.value.branch.Some? then BranchStep(env, f, ts, branch.value, branch.value.branch.value, n)
      else Left(RootReply(f, n, None))
  }

  /** `execute_auto_chain` from loop depth `depth`; a completed flow is no longer found. */
  function RootChain(cfg: Config, env: Env, f: Root, n: nat, depth: nat): RootReply
    decreases if depth <= cfg.maxChainDepth then cfg.maxChainDepth - depth else 0
  {
    if depth >= cfg.maxChainDepth then RootReply(f, n, Some("MAX_CHAIN_DEPTH"))
    else if f.exit.Some? then RootReply(f, n, None)
    else if f.def.Terminal(f.state) then RootReply(End(f, f.state), n, None)
    else
      match Dispatch(cfg, env, f, n)
      case Left(r) => r
      case Went(f1, n1) => RootChain(cfg, env, f1, n1, depth + 1)
  }

  // ---------- start and resume ----------

  /** The flow a start creates, before its chain. */
  function Opened(env: Env, def: FlowDef, data: Ctx, n: nat): Root
    requires def.initial.Some?
  {
    Root(def, def.initial.value, data, 0, None, env.clock(n), env.clock(n) + def.ttl, None)
  }

  /** `start_flow`. */
  function StartRoot(cfg: Config, env: Env, def: FlowDef, data: Ctx, n: nat): RootReply
    requires def.initial.Some?
  {
    RootChain(cfg, env, Opened(env, def, data, n), n + 1, 0)
  }

  /** After a move under `trigger`: the chain, unless the trigger reads as an error. */
  function MovedOn(cfg: Config, env: Env, f: Root, trigger: string, n: nat): RootReply {
    if trigger == "error" then RootReply(f, n, None) else RootChain(cfg, env, f, n, 0)
  }

  /** The guard has accepted; a failing processor undoes the guard's data too. */
  function AcceptRoot(cfg: Config, env: Env, f: Root, t: Transition, name: string, data: Ctx, n: nat): RootReply {
    var granted := f.(ctx := f.ctx + data);
    match t.processor
    case None => MovedOn(cfg, env, Travel(env, granted, t.to, n), name, n + 1)
    case Some(p) =>
      match env.process(p, granted.ctx, n)
      case Threw(_, error) => RootReply(RouteError(env, f, Some(error), n), n + 1, None)
      case Returned(puts) => MovedOn(cfg, env, Travel(env, granted.(ctx := granted.ctx + puts), t.to, n), name, n + 1)
  }

  function TakeRoot(cfg: Config, env: Env, f: Root, t: Transition, n: nat): RootReply {
    match t.guard
    case None => MovedOn(cfg, env, Travel(env, f, t.to, n), "external", n + 1)
    case Some(g) =>
      match env.validate(g, f.ctx, n)
      case Accepted(data) => AcceptRoot(cfg, env, f, t, g.name, data, n)
      case Rejected =>
        var counted := f.(failures := f.failures + 1);
        RootReply(if counted.failures >= f.def.maxGuardRetries then RouteError(env, counted, None, n) else counted, n + 1, None)
      case Expired => RootReply(End(f, "EXPIRED"), n + 1, None)
      case Raised(error) => RootReply(f, n + 1, Some(error))
  }

  function ResumeOwnState(cfg: Config, env: Env, f: Root, keys: set<Key>, n: nat): RootReply {
    var externals := f.def.ExternalsFrom(f.state);
    if externals == [] then RootReply(f, n, Some("INVALID_TRANSITION"))
    else
      match Select(externals, keys)
      case NotMatched => RootReply(f, n, Some("EXTERNAL_EVENT_NOT_MATCHED"))
      case Ambiguous => RootReply(f, n, Some("EXTERNAL_EVENT_AMBIGUOUS"))
      case Selected(t) =>
        if t.timeout.Some? && env.clock(n) > f.enteredAt + t.timeout.value then RootReply(End(f, "EXPIRED"), n, None)
        else TakeRoot(cfg, env, f, t, n)
  }

  /** The child has ended: a mapped exit moves on, any other is an error without a cause. */
  function ResumeBehind(cfg: Config, env: Env, f: Root, exit: string, n: nat): RootReply {
    var t := FirstSubFlow(f.def.TransitionsFrom(f.state));
    if t.Some? && t.value.subFlow.Some? && exit in t.value.subFlow.value.exitMappings
    then RootChain(cfg, env, Travel(env, f, t.value.subFlow.value.exitMappings[exit], n), n + 1, 0)
    else RootReply(RouteError(env, f, None, n), n + 1, None)
  }

  /** `resume_active_sub_flow`: the instance is taken out, resumed, and put back if it waits, rejects or fails; when it has
    * completed, the root moves where the exit is mapped, or takes its error transition. */
  function ResumeActive(cfg: Config, env: Env, f: Root, inst: Instance, keys: set<Key>, n: nat): RootReply {
    match ResumeInstance(env, inst, Shared(f.ctx, n, []), keys)
    case Faulted(sub, w, error) => RootReply(f.(ctx := w.ctx, active := Some(sub)), w.tick, Some(error))
    case Reply(_, w, Completed(exit)) => ResumeBehind(cfg, env, f.(ctx := w.ctx, active := None), exit, w.tick)
    case Reply(sub, w, _) => RootReply(f.(ctx := w.ctx, active := Some(sub)), w.tick, None)
  }

  /** The event goes to the running sub-flow if there is one. */
  function Forward(cfg: Config, env: Env, f: Root, keys: set<Key>, n: nat): RootReply {
    if f.active.Some? then ResumeActive(cfg, env, f, f.active.value, keys, n) else ResumeOwnState(cfg, env, f, keys, n)
  }

  /** `resume_and_execute` on a flow that is found. */
  function ResumeRoot(cfg: Config, env: Env, f: Root, data: Ctx, n: nat): RootReply {
    var arrived := f.(ctx := f.ctx + data);
    if env.clock(n) > f.expiresAt then RootReply(End(arrived, "EXPIRED"), n + 1, None)
    else Forward(cfg, env, arrived, data.Keys, n + 1)
  }

  // ---------- the store ----------

  datatype Roots = Roots(flows: map<FlowId, Root>, tick: nat)

  function Keep(w: Roots, id: FlowId, r: RootReply): Roots { Roots(w.flows[id := r.flow], r.tick) }

  function ApplyRoot(cfg: Config, env: Env, w: Roots, ev: Event): Roots {
    match ev
    case StartFlow(id, def, data) =>
      if id in w.flows || def.initial.None? then w else Keep(w, id, StartRoot(cfg, env, def, data, w.tick))
    case ResumeFlow(id, data) =>
      if id !in w.flows || w.flows[id].exit.Some? then w else Keep(w, id, ResumeRoot(cfg, env, w.flows[id], data, w.tick))
  }

  function RunRoots(cfg: Config, env: Env, evs: seq<Event>): Roots {
    if evs == [] then Roots(map[], 0) else ApplyRoot(cfg, env, RunRoots(cfg, env, evs[..|evs| - 1]), evs[|evs| - 1])
  }

  // ---------- an active sub-flow sits at the transition that created it ----------

  ghost predicate RootAnchored(f: Root) {
    f.active.Some? ==>
      && f.exit.None? && CreatedAt(f.def, f.state, f.active.value)
      && f.active.value.state.Some? && Anchored(f.active.value)
  }

  /** Where no sub-flow runs. */
  ghost predicate Alone(f: Root, def: FlowDef) { f.def == def && f.active.None? }

  ghost predicate ReplyAnchored(r: RootReply, def: FlowDef) { r.flow.def == def && RootAnchored(r.flow) }

  lemma RouteErrorAlone(env: Env, f: Root, cause: Option<string>, n: nat)
    requires f.active.None?
    ensures Alone(RouteError(env, f, cause, n), f.def)
  {}

  ghost predicate StepAnchored(t: Step, def: FlowDef) {
    match t
    case Left(r) => ReplyAnchored(r, def)
    case Went(f, _) => Alone(f, def)
  }

  lemma EnterAnchored(env: Env, f: Root, link: SubFlowLink, n: nat)
    requires f.active.None? && f.exit.None?
    requires FirstSubFlow(f.def.TransitionsFrom(f.state)).Some? && FirstSubFlow(f.def.TransitionsFrom(f.state)).value.subFlow == Some(link)
    ensures StepAnchored(EnterSubFlow(env, f, link, n), f.def)
  {
    StartAnchored(env, CreateInstance(link.definition), Shared(f.ctx, n, []));
  }

  lemma DispatchAnchored(cfg: Config, env: Env, f: Root, n: nat)
    requires f.active.None? && f.exit.None?
    ensures StepAnchored(Dispatch(cfg, env, f, n), f.def)
  {
    var ts := f.def.TransitionsFrom(f.state);
    FirstSubFlowIn(ts);
    match FirstSubFlow(ts)
    case Some(t) => EnterAnchored(env, f, t.subFlow.value, n);
    case None =>
  }

  lemma {:induction false} RootChainAnchored(cfg: Config, env: Env, f: Root, n: nat, depth: nat)
    requires f.active.None?
    ensures ReplyAnchored(RootChain(cfg, env, f, n, depth), f.def)
    decreases if depth <= cfg.maxChainDepth then cfg.maxChainDepth - depth else 0
  {
    if depth < cfg.maxChainDepth && f.exit.None? && !f.def.Terminal(f.state) {
      DispatchAnchored(cfg, env, f, n);
      match Dispatch(cfg, env, f, n)
      case Left(r) =>
      case Went(f1, n1) => RootChainAnchored(cfg, env, f1, n1, depth + 1);
    }
  }

  lemma TakeRootAnchored(cfg: Config, env: Env, f: Root, t: Transition, n: nat)
    requires f.active.None?
    ensures ReplyAnchored(TakeRoot(cfg, env, f, t, n), f.def)
  {
    match t.guard
    case None => RootChainAnchored(cfg, env, Travel(env, f, t.to, n), n + 1, 0);
    case Some(g) =>
      match env.validate(g, f.ctx, n)
      case Accepted(data) => AcceptRootAnchored(cfg, env, f, t, g.name, data, n);
      case _ =>
  }

  lemma AcceptRootAnchored(cfg: Config, env: Env, f: Root, t: Transition, name: string, data: Ctx, n: nat)
    requires f.active.None?
    ensures ReplyAnchored(AcceptRoot(cfg, env, f, t, name, data, n), f.def)
  {
    var granted := f.(ctx := f.ctx + data);
    match t.processor
    case None => RootChainAnchored(cfg, env, Travel(env, granted, t.to, n), n + 1, 0);
    case Some(p) =>
      match env.process(p, granted.ctx, n)
      case Threw(_, error) =>
      case Returned(puts) =>
        RootChainAnchored(cfg, env, Travel(env, granted.(ctx := granted.ctx + puts), t.to, n), n + 1, 0);
  }

  lemma BehindAnchored(cfg: Config, env: Env, f: Root, exit: string, n: nat)
    requires f.active.None?
    ensures ReplyAnchored(ResumeBehind(cfg, env, f, exit, n), f.def)
  {
    var t := FirstSubFlow(f.def.TransitionsFrom(f.state));
    if t.Some? && t.value.subFlow.Some? && exit in t.value.subFlow.value.exitMappings {
      RootChainAnchored(cfg, env, Travel(env, f, t.value.subFlow.value.exitMappings[exit], n), n + 1, 0);
    } else {
      RouteErrorAlone(env, f, None, n);
    }
  }

  lemma ResumeActiveAnchored(cfg: Config, env: Env, f: Root, n: nat, keys: set<Key>)
    requires RootAnchored(f) && f.active.Some?
    ensures ReplyAnchored(ResumeActive(cfg, env, f, f.active.value, keys, n), f.def)
  {
    var inst, w0 := f.active.value, Shared(f.ctx, n, []);
    ResumeAnchored(env, inst, w0, keys);
    match ResumeInstance(env, inst, w0, keys)
    case Faulted(_, _, _) =>
    case Reply(_, w, Completed(exit)) => BehindAnchored(cfg, env, f.(ctx := w.ctx, active := None), exit, w.tick);
    case Reply(_, _, _) =>
  }

  /** A resume keeps it so, whoever it goes to and however it ends. */
  lemma ResumeRootAnchored(cfg: Config, env: Env, f: Root, data: Ctx, n: nat)
    requires RootAnchored(f)
    ensures ReplyAnchored(ResumeRoot(cfg, env, f, data, n), f.def)
  {
    var arrived := f.(ctx := f.ctx + data);
    if env.clock(n) <= f.expiresAt {
      if f.active.Some? {
        ResumeActiveAnchored(cfg, env, arrived, n + 1, data.Keys);
      } else {
        var externals := f.def.ExternalsFrom(f.state);
        if externals != [] && Select(externals, data.Keys).Selected? {
          TakeRootAnchored(cfg, env, arrived, Select(externals, data.Keys).transition, n + 1);
        }
      }
    }
  }

  ghost predicate AllAnchored(w: Roots) { forall id | id in w.flows :: RootAnchored(w.flows[id]) }

  lemma StartRootAnchored(cfg: Config, env: Env, def: FlowDef, data: Ctx, n: nat)
    requires def.initial.Some?
    ensures RootAnchored(StartRoot(cfg, env, def, data, n).flow)
  {
    RootChainAnchored(cfg, env, Opened(env, def, data, n), n + 1, 0);
  }

  lemma KeepAnchored(w: Roots, id: FlowId, r: RootReply)
    requires AllAnchored(w) && RootAnchored(r.flow)
    ensures AllAnchored(Keep(w, id, r))
  {}

  lemma ApplyAnchored(cfg: Config, env: Env, w: Roots, ev: Event)
    requires AllAnchored(w)
    ensures AllAnchored(ApplyRoot(cfg, env, w, ev))
  {
    match ev
    case StartFlow(id, def, data) =>
      if id !in w.flows && def.initial.Some? {
        StartRootAnchored(cfg, env, def, data, w.tick);
        KeepAnchored(w, id, StartRoot(cfg, env, def, data, w.tick));
      }
    case ResumeFlow(id, data) =>
      if id in w.flows && w.flows[id].exit.None? {
        ResumeRootAnchored(cfg, env, w.flows[id], data, w.tick);
        KeepAnchored(w, id, ResumeRoot(cfg, env, w.flows[id], data, w.tick));
      }
  }

  /** In every run, an active sub-flow sits at the transition that created it: at the root and at every level below. */
  lemma {:induction false} RunsStayAnchored(cfg: Config, env: Env, evs: seq<Event>)
    ensures AllAnchored(RunRoots(cfg, env, evs))
  {
    if evs != [] {
      var n := |evs| - 1;
      RunsStayAnchored(cfg, env, evs[..n]);
      ApplyAnchored(cfg, env, RunRoots(cfg, env, evs[..n]), evs[n]);
    }
  }

  // ---------- the state path ----------

  /** `state_path` of a root flow. */
  function RootPath(f: Root): seq<State> { [f.state] + (if f.active.Some? then StatePath(f.active.value) else []) }

  lemma AnchoredPathIsShort(f: Root)
    requires RootAnchored(f)
    ensures |RootPath(f)| <= NestingDepth(f.def)
    ensures DepthValidated(f.def) ==> |RootPath(f)| <= 4
  {
    if f.active.Some? {
      LinkIsShallower(f.def, f.state);
      PathWithinDepth(f.active.value);
      if DepthValidated(f.def) { ValidatedPathIsShort(f.def, f.state, f.active.value); }
    }
  }

  /** In every run the state path of a flow is within the nesting depth of its definition, and at most four entries long if
    * that has been validated. */
  lemma RunsStayShort(cfg: Config, env: Env, evs: seq<Event>, id: FlowId)
    requires id in RunRoots(cfg, env, evs).flows
    ensures var f := RunRoots(cfg, env, evs).flows[id];
      |RootPath(f)| <= NestingDepth(f.def) && (DepthValidated(f.def) ==> |RootPath(f)| <= 4)
  {
    RunsStayAnchored(cfg, env, evs);
    AnchoredPathIsShort(RunRoots(cfg, env, evs).flows[id]);
  }
}
