/** The engine as functions on values: one call of the engine maps a system state to a system state.
  * Processors, guards, branches, actions and the clock are arbitrary functions that also see a
  * tick counter, so a component may answer differently each time it is called. */
module EngineModel {
  import opened Definition

  type Value = string
  type Ctx = map<Key, Value>
  type FlowId = string

  datatype ProcessOutcome = Returned(puts: Ctx) | Threw(puts: Ctx, error: string)

  datatype GuardOutput = Accepted(data: Ctx) | Rejected | Expired | Raised(error: string)

  datatype Decision = Decided(choice: Label) | Undecided(error: string)

  datatype Env = Env(
    process: (Processor, Ctx, nat) -> ProcessOutcome,
    validate: (Guard, Ctx, nat) -> GuardOutput,
    decide: (Brancher, Ctx, nat) -> Decision,
    onEnter: (FlowDef, State, Ctx, nat) -> Ctx,
    onExit: (FlowDef, State, Ctx, nat) -> Ctx,
    instanceOf: (string, string) -> bool,
    clock: nat -> int)

  datatype Config = Config(strictMode: bool, maxChainDepth: nat)

  /** A flow instance. A sub-flow shares the context of its parent: while it waits in `active`, its own
    * `ctx` is empty, and it is given the parent's when it is resumed. */
  datatype Flow = Flow(
    def: FlowDef,
    state: State,
    ctx: Ctx,
    failures: nat,
    exit: Option<string>,
    enteredAt: int,
    expiresAt: int,
    active: Option<Flow>)

  datatype Record = Record(flowId: FlowId, from: State, to: State, trigger: string)

  /** A processor, guard or branch was called: the keys it requires and the keys the context held. */
  datatype Call = Call(needs: set<Key>, present: set<Key>)

  datatype Sys = Sys(id: FlowId, flow: Flow, tick: nat, log: seq<Record>, calls: seq<Call>)

  /** `thrown` is the code of an exception that leaves the engine. */
  datatype Result = Result(sys: Sys, thrown: Option<string>)

  // ---------- FlowInstance ----------

  /** `transitionTo`. */
  function MoveTo(f: Flow, s: State, now: int): Flow {
    f.(state := s, enteredAt := now, failures := if f.state != s then 0 else f.failures)
  }

  function Complete(f: Flow, exit: string): Flow { f.(exit := Some(exit)) }

  // ---------- one move ----------

  function Called(s: Sys, needs: seq<Key>): Sys {
    s.(calls := s.calls + [Call(KeySet(needs), s.flow.ctx.Keys)])
  }

  /** Exit action, `transitionTo`, enter action, `recordTransition`. */
  function Advance(env: Env, s: Sys, to: State, trigger: string): Sys {
    var f := s.flow;
    var left := f.ctx + env.onExit(f.def, f.state, f.ctx, s.tick);
    var entered := left + env.onEnter(f.def, to, left, s.tick);
    s.(flow := MoveTo(f, to, env.clock(s.tick)).(ctx := entered),
       log := s.log + [Record(s.id, f.state, to, trigger)])
  }

  function MatchingRoute(env: Env, routes: seq<ErrorRoute>, cause: string): Option<State> {
    if routes == [] then None
    else if env.instanceOf(cause, routes[0].errorClass) then Some(routes[0].target)
    else MatchingRoute(env, routes[1..], cause)
  }

  /** Where an error in state `from` is routed and under which trigger: `onStepError` first, then `onError`. */
  function ErrorTarget(env: Env, def: FlowDef, from: State, cause: Option<string>): Option<(State, string)> {
    var typed :=
      if cause.Some? && from in def.exceptionRoutes then MatchingRoute(env, def.exceptionRoutes[from], cause.value) else None;
    if typed.Some? then Some((typed.value, "error:" + cause.value))
    else if from in def.errorTransitions then Some((def.errorTransitions[from], "error"))
    else None
  }

  /** `handleError`; the error is always raised in the current state. */
  function HandleError(env: Env, s: Sys, cause: Option<string>): Sys {
    var f := s.flow;
    match ErrorTarget(env, f.def, f.state, cause)
    case Some((target, trigger)) =>
      var moved := MoveTo(f, target, env.clock(s.tick));
      s.(flow := if f.def.Terminal(target) then Complete(moved, target) else moved,
         log := s.log + [Record(s.id, f.state, target, trigger)])
    case None =>
      s.(flow := Complete(f, "TERMINAL_ERROR"))
  }

  function Tick(s: Sys): Sys { s.(tick := s.tick + 1) }

  // ---------- the auto-chain ----------

  function FirstChained(ts: seq<Transition>): Option<Transition> {
    if ts == [] then None
    else if ts[0].kind == Auto || ts[0].kind == Branch then Some(ts[0])
    else FirstChained(ts[1..])
  }

  function FirstSubFlow(ts: seq<Transition>): Option<Transition> {
    if ts == [] then None
    else if ts[0].kind == SubFlow && ts[0].subFlow.Some? then Some(ts[0])
    else FirstSubFlow(ts[1..])
  }

  function FirstLabelled(ts: seq<Transition>, choice: Label): Option<Transition> {
    if ts == [] then None
    else if ts[0].kind == Branch && ts[0].branchLabel == Some(choice) then Some(ts[0])
    else FirstLabelled(ts[1..], choice)
  }

  function FirstBranchTo(ts: seq<Transition>, target: State): Option<Transition> {
    if ts == [] then None
    else if ts[0].kind == Branch && ts[0].to == target then Some(ts[0])
    else FirstBranchTo(ts[1..], target)
  }

  /** The branch transition whose processor runs for a choice. */
  function Specific(ts: seq<Transition>, chosen: Transition, choice: Label, target: State): Transition {
    match FirstLabelled(ts, choice)
    case Some(t) => t
    case None =>
      match FirstBranchTo(ts, target)
      case Some(t) => t
      case None => chosen
  }

  /** Outcome of one pass of the chain loop: no transition, moved on, or an error was routed. */
  datatype Pass = Halted | Moved(sys: Sys) | Failed(sys: Sys)

  /** Runs an optional processor, verifying its produces if asked to; a failure rolls the context back. */
  function RunProcessor(env: Env, s: Sys, p: Option<Processor>, verify: bool): Pass {
    match p
    case None => Moved(s)
    case Some(proc) =>
      var s1 := Called(s, proc.requires_);
      match env.process(proc, s.flow.ctx, s.tick)
      case Threw(_, error) => Failed(HandleError(env, s1, Some(error)))
      case Returned(puts) =>
        var ctx := s.flow.ctx + puts;
        if verify && !(KeySet(proc.produces) <= ctx.Keys) then Failed(HandleError(env, s1, Some("FlowError")))
        else Moved(s1.(flow := s.flow.(ctx := ctx)))
  }

  function AutoPass(cfg: Config, env: Env, s: Sys, t: Transition): Pass {
    match RunProcessor(env, s, t.processor, cfg.strictMode || s.flow.def.strictMode)
    case Moved(s1) => Moved(Advance(env, s1, t.to, if t.processor.Some? then t.processor.value.name else "auto"))
    case other => other
  }

  function BranchPass(env: Env, s: Sys, ts: seq<Transition>, t: Transition): Pass {
    if t.branch.None? then Failed(HandleError(env, s, Some("TypeError")))
    else
      var s1 := Called(s, t.branch.value.requires_);
      match env.decide(t.branch.value, s.flow.ctx, s.tick)
      case Undecided(error) => Failed(HandleError(env, s1, Some(error)))
      case Decided(choice) =>
        if choice !in t.branchTargets then Failed(HandleError(env, s1, Some("FlowError")))
        else
          var target := t.branchTargets[choice];
          match RunProcessor(env, s1, Specific(ts, t, choice, target).processor, false)
          case Moved(s2) => Moved(Advance(env, s2, target, t.branch.value.name + ":" + choice))
          case other => other
  }

  function ChainPass(cfg: Config, env: Env, s: Sys): Pass {
    var ts := s.flow.def.TransitionsFrom(s.flow.state);
    match FirstChained(ts)
    case None => Halted
    case Some(t) => if t.kind == Auto then AutoPass(cfg, env, s, t) else BranchPass(env, s, ts, t)
  }

  lemma FirstSubFlowIn(ts: seq<Transition>)
    ensures FirstSubFlow(ts).Some? ==>
      FirstSubFlow(ts).value in ts && FirstSubFlow(ts).value.kind == SubFlow && FirstSubFlow(ts).value.subFlow.Some?
  {}

  lemma FirstChainedIn(ts: seq<Transition>)
    ensures FirstChained(ts).Some? ==>
      FirstChained(ts).value in ts && (FirstChained(ts).value.kind == Auto || FirstChained(ts).value.kind == Branch)
  {}

  lemma NestedIsSmaller(def: FlowDef, s: State)
    requires FirstSubFlow(def.TransitionsFrom(s)).Some?
    ensures FirstSubFlow(def.TransitionsFrom(s)).value.subFlow.Some?
    ensures FirstSubFlow(def.TransitionsFrom(s)).value.subFlow.value.definition < def
  {
    var t := FirstSubFlow(def.TransitionsFrom(s)).value;
    FirstSubFlowIn(def.TransitionsFrom(s));
    LeavingIn(def.transitions, s, t);
    var i :| 0 <= i < |def.transitions| && def.transitions[i] == t;
  }

  function StartSubFlow(env: Env, s: Sys, sub: FlowDef): Sys
    requires sub.initial.Some?
  {
    s.(flow := Flow(sub, sub.initial.value, s.flow.ctx, 0, None, env.clock(s.tick), s.flow.expiresAt, None),
       tick := s.tick + 1)
  }

  /** The parent after its sub-flow ended: it sees the shared context. */
  function Freed(parent: Flow, s: Sys): Sys {
    s.(flow := parent.(ctx := s.flow.ctx, active := None))
  }

  /** The parent while its sub-flow waits. */
  function Waits(parent: Flow, s: Sys): Sys {
    s.(flow := parent.(ctx := s.flow.ctx, active := Some(s.flow.(ctx := map[]))))
  }

  /** The parent moves where the exit of its finished sub-flow is mapped; an unmapped exit is an error. */
  function LeaveSubFlow(env: Env, s: Sys, link: SubFlowLink, name: string, exit: string): Sys {
    if exit in link.exitMappings
    then Advance(env, s, link.exitMappings[exit], "subFlow:" + name + "/" + exit)
    else HandleError(env, s, None)
  }

  /** Outcome of one iteration of the chain loop: leave it, or go on with one more step counted. */
  datatype Turn = Stop(result: Result) | Next(sys: Sys)

  /** `executeSubFlow`: the child runs its own chain; the parent waits, or moves on when the child has ended. */
  function SubFlowTurn(cfg: Config, env: Env, s: Sys, link: SubFlowLink): (t: Turn)
    requires link.definition < s.flow.def
    ensures t.Next? ==> t.sys.flow.def == s.flow.def && t.sys.id == s.id
    ensures t.Stop? ==> t.result.sys.flow.def == s.flow.def && t.result.sys.id == s.id
    decreases s.flow.def, 0, 0
  {
    if link.definition.initial.None? then Stop(Result(s, Some("TypeError")))
    else
      var r := Chain(cfg, env, StartSubFlow(env, s, link.definition), 0);
      if r.thrown.Some? || r.sys.flow.exit.None? then Stop(Result(Waits(s.flow, r.sys), r.thrown))
      else Next(Tick(LeaveSubFlow(env, Freed(s.flow, r.sys), link, link.definition.name, r.sys.flow.exit.value)))
  }

  /** One iteration in a non-terminal state: a sub-flow transition takes priority. */
  function ChainTurn(cfg: Config, env: Env, s: Sys): (t: Turn)
    ensures t.Next? ==> t.sys.flow.def == s.flow.def && t.sys.id == s.id
    ensures t.Stop? ==> t.result.sys.flow.def == s.flow.def && t.result.sys.id == s.id
    decreases s.flow.def, 0, 1
  {
    match FirstSubFlow(s.flow.def.TransitionsFrom(s.flow.state))
    case Some(t) =>
      NestedIsSmaller(s.flow.def, s.flow.state);
      SubFlowTurn(cfg, env, s, t.subFlow.value)
    case None =>
      match ChainPass(cfg, env, s)
      case Halted => Stop(Result(s, None))
      case Moved(s1) => Next(Tick(s1))
      case Failed(s1) => Stop(Result(Tick(s1), None))
  }

  /** `executeAutoChain` from loop depth `depth`. */
  function Chain(cfg: Config, env: Env, s: Sys, depth: nat): (r: Result)
    ensures r.sys.flow.def == s.flow.def && r.sys.id == s.id
    decreases s.flow.def, 1 + (if depth <= cfg.maxChainDepth then cfg.maxChainDepth - depth else 0), 0
  {
    if depth >= cfg.maxChainDepth then Result(s, Some("MAX_CHAIN_DEPTH"))
    else if s.flow.def.Terminal(s.flow.state) then Result(s.(flow := Complete(s.flow, s.flow.state)), None)
    else
      match ChainTurn(cfg, env, s)
      case Stop(r) => r
      case Next(s1) => Chain(cfg, env, s1, depth + 1)
  }

  lemma ChainGoesOn(cfg: Config, env: Env, s: Sys, depth: nat)
    requires depth < cfg.maxChainDepth && !s.flow.def.Terminal(s.flow.state)
    ensures Chain(cfg, env, s, depth)
      == match ChainTurn(cfg, env, s)
         case Stop(r) => r
         case Next(s1) => Chain(cfg, env, s1, depth + 1)
  {}

  // ---------- selecting an external transition ----------

  datatype Selection = Selected(transition: Transition) | NotMatched | Ambiguous

  predicate HasTrigger(t: Transition) { t.guard.Some? && t.guard.value.externalTrigger.Some? }

  predicate TriggeredBy(t: Transition, keys: set<Key>) { HasTrigger(t) && t.guard.value.externalTrigger.value in keys }

  predicate SatisfiedBy(t: Transition, keys: set<Key>) { t.guard.Some? && KeySet(t.guard.value.requires_) <= keys }

  function Explicit(ts: seq<Transition>): seq<Transition> { Filter(ts, t => HasTrigger(t)) }

  function Triggered(ts: seq<Transition>, keys: set<Key>): seq<Transition> { Filter(ts, t => TriggeredBy(t, keys)) }

  function Satisfied(ts: seq<Transition>, keys: set<Key>): seq<Transition> { Filter(ts, t => SatisfiedBy(t, keys)) }

  function Specificity(t: Transition): nat { if t.guard.Some? then |t.guard.value.requires_| else 0 }

  function MaxSpecificity(ts: seq<Transition>): nat {
    if ts == [] then 0
    else if Specificity(ts[0]) >= MaxSpecificity(ts[1..]) then Specificity(ts[0]) else MaxSpecificity(ts[1..])
  }

  function WithSpecificity(ts: seq<Transition>, n: nat): seq<Transition> { Filter(ts, t => Specificity(t) == n) }

  function Only(ts: seq<Transition>): Selection {
    if |ts| == 1 then Selected(ts[0]) else if ts == [] then NotMatched else Ambiguous
  }

  /** `selectExternalTransition`. */
  function Select(externals: seq<Transition>, keys: set<Key>): Selection {
    if Explicit(externals) != [] then Only(Triggered(Explicit(externals), keys))
    else if |externals| == 1 then Selected(externals[0])
    else
      var matches := Satisfied(externals, keys);
      Only(WithSpecificity(matches, MaxSpecificity(matches)))
  }

  // ---------- start and resume ----------

  /** The instance a start creates, before its chain. */
  function Begun(env: Env, id: FlowId, def: FlowDef, data: Ctx, tick: nat, log: seq<Record>, calls: seq<Call>): Sys
    requires def.initial.Some?
  {
    var now := env.clock(tick);
    Sys(id, Flow(def, def.initial.value, data, 0, None, now, now + def.ttl, None), tick + 1, log, calls)
  }

  function Start(cfg: Config, env: Env, id: FlowId, def: FlowDef, data: Ctx, tick: nat, log: seq<Record>, calls: seq<Call>): Result
    requires def.initial.Some?
  {
    Chain(cfg, env, Begun(env, id, def, data, tick, log, calls), 0)
  }

  /** The accepted branch of a guarded external transition; a failing processor ends the call. */
  function Accept(cfg: Config, env: Env, s: Sys, t: Transition, name: string, data: Ctx): (r: Result)
    ensures r.sys.id == s.id
  {
    var withData := s.(flow := s.flow.(ctx := s.flow.ctx + data));
    match t.processor
    case None => Chain(cfg, env, Tick(Advance(env, withData, t.to, name)), 0)
    case Some(p) =>
      var called := Called(withData, p.requires_);
      match env.process(p, withData.flow.ctx, s.tick)
      case Threw(_, error) =>
        Result(Tick(HandleError(env, called.(flow := s.flow), Some(error))), None)
      case Returned(puts) =>
        var done := called.(flow := s.flow.(ctx := withData.flow.ctx + puts));
        Chain(cfg, env, Tick(Advance(env, done, t.to, name)), 0)
  }

  /** A rejected guard counts a failure; the last one allowed is routed as an error. */
  function Reject(env: Env, s: Sys): Sys {
    var counted := s.(flow := s.flow.(failures := s.flow.failures + 1));
    if counted.flow.failures >= s.flow.def.maxGuardRetries then HandleError(env, counted, None) else counted
  }

  /** What follows from the answer of a guard that was asked in `s`. */
  function AfterAnswer(cfg: Config, env: Env, s: Sys, t: Transition, name: string, out: GuardOutput): (r: Result)
    ensures r.sys.id == s.id
  {
    match out
    case Accepted(data) => Accept(cfg, env, s, t, name, data)
    case Rejected => Result(Tick(Reject(env, s)), None)
    case Expired => Result(Tick(s.(flow := Complete(s.flow, "EXPIRED"))), None)
    case Raised(error) => Result(Tick(s), Some(error))
  }

  /** The external transition selected, not timed out: guard, processor, move, chain. */
  function TakeExternal(cfg: Config, env: Env, s: Sys, t: Transition): (r: Result)
    ensures r.sys.id == s.id
  {
    match t.guard
    case None => Chain(cfg, env, Tick(Advance(env, s, t.to, "external")), 0)
    case Some(g) => AfterAnswer(cfg, env, Called(s, g.requires_), t, g.name, env.validate(g, s.flow.ctx, s.tick))
  }

  /** Selection among the external transitions of the current state, then the per-state timeout. */
  function ResumeOwn(cfg: Config, env: Env, s: Sys, keys: set<Key>): (r: Result)
    ensures r.sys.id == s.id
  {
    var f := s.flow;
    var externals := f.def.ExternalsFrom(f.state);
    if externals == [] then Result(s, Some("INVALID_TRANSITION"))
    else
      match Select(externals, keys)
      case NotMatched => Result(s, Some("EXTERNAL_EVENT_NOT_MATCHED"))
      case Ambiguous => Result(s, Some("EXTERNAL_EVENT_AMBIGUOUS"))
      case Selected(t) =>
        if t.timeout.Some? && env.clock(s.tick) > f.enteredAt + t.timeout.value
        then Result(s.(flow := Complete(f, "EXPIRED")), None)
        else TakeExternal(cfg, env, s, t)
  }

  /** The flow once the data of an event is in its context. */
  function Arrived(s: Sys, data: Ctx): Sys { s.(flow := s.flow.(ctx := s.flow.ctx + data), tick := s.tick + 1) }

  /** `resumeAndExecute` on a flow the store still hands out. */
  function Resume(cfg: Config, env: Env, s: Sys, data: Ctx): (r: Result)
    ensures r.sys.id == s.id
  {
    var s1 := Arrived(s, data);
    if env.clock(s.tick) > s.flow.expiresAt then Result(s1.(flow := Complete(s1.flow, "EXPIRED")), None)
    else Deliver(cfg, env, s1, data.Keys)
  }

  /** The external event goes to the running sub-flow if there is one. */
  function Deliver(cfg: Config, env: Env, s: Sys, keys: set<Key>): (r: Result)
    ensures r.sys.id == s.id
  {
    if s.flow.active.Some? then ResumeSubFlow(cfg, env, s, keys) else ResumeOwn(cfg, env, s, keys)
  }

  /** The parent after its sub-flow completed on resume; an unmapped exit is dropped unless it is the guard error. */
  function AfterSubFlow(cfg: Config, env: Env, s: Sys, name: string, exit: string, bubble: bool): (r: Result)
    ensures r.sys.id == s.id
  {
    var t := FirstSubFlow(s.flow.def.TransitionsFrom(s.flow.state));
    if t.Some? && t.value.subFlow.Some? && exit in t.value.subFlow.value.exitMappings then
      Chain(cfg, env, Tick(LeaveSubFlow(env, s, t.value.subFlow.value, name, exit)), 0)
    else if bubble then Chain(cfg, env, Tick(HandleError(env, s, None)), 0)
    else Result(s, None)
  }

  /** `resumeSubFlow` once the external transition of the sub-flow has been taken. */
  function ContinueSubFlow(cfg: Config, env: Env, parent: Flow, sub: Sys): (r: Result)
    ensures r.sys.id == sub.id
  {
    var r := Chain(cfg, env, Tick(sub), 0);
    if r.thrown.Some? || r.sys.flow.exit.None? then Result(Waits(parent, r.sys), r.thrown)
    else AfterSubFlow(cfg, env, Freed(parent, r.sys), sub.flow.def.name, r.sys.flow.exit.value, false)
  }

  /** The guard of the sub-flow's external transition decides. */
  function ResumeGuarded(cfg: Config, env: Env, s: Sys, t: Transition, g: Guard): (r: Result)
    requires s.flow.active.Some?
    ensures r.sys.id == s.id
  {
    var parent := s.flow;
    var sub := parent.active.value.(ctx := parent.ctx);
    var called := Called(s.(flow := sub), g.requires_);
    match env.validate(g, sub.ctx, s.tick)
    case Accepted(data) =>
      var moved := MoveTo(sub, t.to, env.clock(s.tick)).(ctx := sub.ctx + data);
      ContinueSubFlow(cfg, env, parent, called.(flow := moved, log := s.log + [Record(s.id, sub.state, t.to, g.name)]))
    case Rejected =>
      var counted := sub.(failures := sub.failures + 1);
      if counted.failures >= sub.def.maxGuardRetries
      then AfterSubFlow(cfg, env, Freed(parent, called), sub.def.name, "ERROR", true)
      else Result(Tick(Waits(parent, called.(flow := counted))), None)
    case Expired => Result(Tick(called.(flow := Complete(parent, "EXPIRED"))), None)
    case Raised(error) => Result(Tick(called.(flow := parent)), Some(error))
  }

  /** `resumeSubFlow`: only the child of the root is resumed, and the transition's processor is not run. */
  function ResumeSubFlow(cfg: Config, env: Env, s: Sys, keys: set<Key>): (r: Result)
    requires s.flow.active.Some?
    ensures r.sys.id == s.id
  {
    var parent := s.flow;
    var sub := parent.active.value.(ctx := parent.ctx);
    var child := s.(flow := sub);
    var externals := sub.def.ExternalsFrom(sub.state);
    if externals == [] then Result(s, Some("INVALID_TRANSITION"))
    else
      match Select(externals, keys)
      case NotMatched => Result(s, Some("EXTERNAL_EVENT_NOT_MATCHED"))
      case Ambiguous => Result(s, Some("EXTERNAL_EVENT_AMBIGUOUS"))
      case Selected(t) =>
        match t.guard
        case None =>
          ContinueSubFlow(cfg, env, parent, child.(flow := MoveTo(sub, t.to, env.clock(s.tick))))
        case Some(g) => ResumeGuarded(cfg, env, s, t, g)
  }

  // ---------- the store under any interleaving of calls ----------

  datatype World = World(flows: map<FlowId, Flow>, tick: nat, log: seq<Record>, calls: seq<Call>)

  /** `StartFlow` carries the identifier the engine draws at random. */
  datatype Event = StartFlow(id: FlowId, def: FlowDef, data: Ctx) | ResumeFlow(id: FlowId, data: Ctx)

  function Store(w: World, r: Result): World {
    World(w.flows[r.sys.id := r.sys.flow], r.sys.tick, r.sys.log, r.sys.calls)
  }

  /** `loadForUpdate` hides unknown and completed flows. */
  predicate Loadable(w: World, id: FlowId) { id in w.flows && w.flows[id].exit.None? }

  function Apply(cfg: Config, env: Env, w: World, ev: Event): World {
    match ev
    case StartFlow(id, def, data) =>
      if id in w.flows || def.initial.None? then w
      else Store(w, Start(cfg, env, id, def, data, w.tick, w.log, w.calls))
    case ResumeFlow(id, data) =>
      if !Loadable(w, id) then w
      else Store(w, Resume(cfg, env, Sys(id, w.flows[id], w.tick, w.log, w.calls), data))
  }

  const EMPTY := World(map[], 0, [], [])

  function Run(cfg: Config, env: Env, evs: seq<Event>): World {
    if evs == [] then EMPTY else Apply(cfg, env, Run(cfg, env, evs[..|evs| - 1]), evs[|evs| - 1])
  }

  lemma RunSnoc(cfg: Config, env: Env, evs: seq<Event>, ev: Event)
    ensures Run(cfg, env, evs + [ev]) == Apply(cfg, env, Run(cfg, env, evs), ev)
  {
    assert (evs + [ev])[..|evs + [ev]| - 1] == evs;
  }

  lemma RunStart(cfg: Config, env: Env, id: FlowId, def: FlowDef, data: Ctx)
    requires def.initial.Some?
    ensures Run(cfg, env, [StartFlow(id, def, data)]) == Store(EMPTY, Start(cfg, env, id, def, data, 0, [], []))
  {
    RunSnoc(cfg, env, [], StartFlow(id, def, data));
    assert [] + [StartFlow(id, def, data)] == [StartFlow(id, def, data)];
  }
}
