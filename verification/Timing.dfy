/** When a state was entered, and which resumes come too late for it. For definitions without sub-flows. */
module Timing {
  import opened Definition
  import opened EngineModel
  import opened EngineFacts
  import opened Trails
  import opened Effects
  import opened ActionLog

  /** A watch on nothing. */
  function Idle(): Watch<bool> { Watch((ctx: Ctx) => true, (s, v) => v, (s, v) => v) }

  ghost predicate FlatEvents(evs: seq<Event>) { forall ev | ev in evs && ev.StartFlow? :: SubFlowFree(ev.def) }

  /** Call `i` of the run started the flow or recorded a move of it. */
  ghost predicate MovesAt(cfg: Config, env: Env, evs: seq<Event>, i: nat, id: FlowId)
    requires i < |evs|
  {
    var before, after := Run(cfg, env, evs[..i]), Run(cfg, env, evs[..i + 1]);
    id in after.flows && (id !in before.flows || Own(after.log, id) != Own(before.log, id))
  }

  /** Call `i` is the last that did. */
  ghost predicate MovedLast(cfg: Config, env: Env, evs: seq<Event>, i: nat, id: FlowId) {
    i < |evs| && MovesAt(cfg, env, evs, i, id) && forall j | i < j < |evs| :: !MovesAt(cfg, env, evs, j, id)
  }

  /** The entry time of a flow was read from the clock during call `i`. */
  ghost predicate EnteredDuring(cfg: Config, env: Env, evs: seq<Event>, i: nat, enteredAt: int)
    requires i < |evs|
  {
    ReadBetween(env, enteredAt, Run(cfg, env, evs[..i]).tick, Run(cfg, env, evs[..i + 1]).tick)
  }

  ghost predicate FlatWorld(world: World) {
    forall id | id in world.flows :: SubFlowFree(world.flows[id].def) && world.flows[id].active.None?
  }

  /** One call: a flow it does not move keeps its entry time; the entry time of one it moves or starts was read meanwhile. */
  ghost predicate CallTimed(env: Env, w: World, w1: World) {
    && w.tick <= w1.tick && FlatWorld(w1)
    && (forall id | id in w.flows && id in w1.flows && Own(w1.log, id) == Own(w.log, id) ::
          w1.flows[id].enteredAt == w.flows[id].enteredAt)
    && (forall id | id in w1.flows && (id !in w.flows || Own(w1.log, id) != Own(w.log, id)) ::
          ReadBetween(env, w1.flows[id].enteredAt, w.tick, w1.tick))
    && (forall id | id in w.flows :: id in w1.flows && w1.flows[id].expiresAt == w.flows[id].expiresAt)
  }

  lemma IdleWatched(env: Env)
    ensures Watched(env, Idle())
  {}

  lemma StoreTimed(env: Env, w: World, s: Sys, r: Result)
    requires FlatWorld(w) && s.log == w.log && Explained(env, Idle(), s, r.sys) && w.tick <= s.tick
    requires SubFlowFree(s.flow.def) && s.flow.active.None?
    requires if s.id in w.flows then s.flow == w.flows[s.id] else ReadBetween(env, s.flow.enteredAt, w.tick, s.tick)
    ensures CallTimed(env, w, Store(w, r))
  {
    forall id ensures Own(r.sys.log, id) == if id == s.id then Own(w.log, id) + News(s, r.sys) else Own(w.log, id) {
      OwnNews(s, r.sys, id);
    }
    if s.id !in w.flows || News(s, r.sys) != [] {
      var n :| (if News(s, r.sys) == [] then w.tick else s.tick) <= n <= r.sys.tick && r.sys.flow.enteredAt == env.clock(n);
      assert w.tick <= n <= r.sys.tick;
    }
  }

  lemma ApplyTimed(cfg: Config, env: Env, w: World, ev: Event)
    requires FlatWorld(w) && FlatEvents([ev])
    ensures CallTimed(env, w, Apply(cfg, env, w, ev))
  {
    IdleWatched(env);
    assert ev in [ev];
    match ev
    case StartFlow(id, def, data) =>
      if id !in w.flows && def.initial.Some? {
        var s := Begun(env, id, def, data, w.tick, w.log, w.calls);
        ChainExplained(cfg, env, Idle(), s, 0);
        assert s.flow.enteredAt == env.clock(w.tick);
        StoreTimed(env, w, s, Chain(cfg, env, s, 0));
      }
    case ResumeFlow(id, data) =>
      if Loadable(w, id) {
        var s := SysOf(w, id);
        ResumeExplained(cfg, env, Idle(), s, data);
        StoreTimed(env, w, s, Resume(cfg, env, s, data));
      }
  }

  lemma {:induction false} RunsStayFlat(cfg: Config, env: Env, evs: seq<Event>)
    requires FlatEvents(evs)
    ensures FlatWorld(Run(cfg, env, evs))
  {
    if evs != [] {
      var n := |evs| - 1;
      RunsStayFlat(cfg, env, evs[..n]);
      assert evs[n] in evs;
      ApplyTimed(cfg, env, Run(cfg, env, evs[..n]), evs[n]);
    }
  }

  lemma Prefixes(evs: seq<Event>, i: nat)
    requires i < |evs|
    ensures evs[..i + 1][..i] == evs[..i] && evs[..i + 1][i] == evs[i]
    ensures i + 1 < |evs| ==> evs[..|evs| - 1][..i] == evs[..i] && evs[..|evs| - 1][..i + 1] == evs[..i + 1]
    ensures i + 1 == |evs| ==> evs[..i + 1] == evs
  {}

  /** In every run the entry time of a flow was read during the last call that moved it, or started it. */
  lemma {:induction false} EntryIsLastMove(cfg: Config, env: Env, evs: seq<Event>, id: FlowId) returns (i: nat)
    requires FlatEvents(evs) && id in Run(cfg, env, evs).flows
    ensures MovedLast(cfg, env, evs, i, id)
    ensures EnteredDuring(cfg, env, evs, i, Run(cfg, env, evs).flows[id].enteredAt)
  {
    var n := |evs| - 1;
    LastCall(cfg, env, evs, id);
    if MovesAt(cfg, env, evs, n, id) {
      i := n;
    } else {
      i := EntryIsLastMove(cfg, env, evs[..n], id);
      LastStays(cfg, env, evs, i, id);
      Prefixes(evs, i);
    }
  }

  lemma LastStays(cfg: Config, env: Env, evs: seq<Event>, i: nat, id: FlowId)
    requires evs != [] && MovedLast(cfg, env, evs[..|evs| - 1], i, id) && !MovesAt(cfg, env, evs, |evs| - 1, id)
    ensures MovedLast(cfg, env, evs, i, id)
  {
    forall j: nat | j < |evs| - 1 ensures MovesAt(cfg, env, evs, j, id) <==> MovesAt(cfg, env, evs[..|evs| - 1], j, id) {
      SameCall(cfg, env, evs, j, id);
    }
  }

  lemma SameCall(cfg: Config, env: Env, evs: seq<Event>, j: nat, id: FlowId)
    requires j < |evs| - 1
    ensures MovesAt(cfg, env, evs, j, id) <==> MovesAt(cfg, env, evs[..|evs| - 1], j, id)
  {
    Prefixes(evs, j);
  }

  /** What the last call does to a flow's entry time. */
  lemma LastCall(cfg: Config, env: Env, evs: seq<Event>, id: FlowId)
    requires FlatEvents(evs) && id in Run(cfg, env, evs).flows
    ensures evs != []
    ensures var n, f := |evs| - 1, Run(cfg, env, evs).flows[id];
      && (MovesAt(cfg, env, evs, n, id) ==> EnteredDuring(cfg, env, evs, n, f.enteredAt))
      && (!MovesAt(cfg, env, evs, n, id) ==>
            id in Run(cfg, env, evs[..n]).flows && Run(cfg, env, evs[..n]).flows[id].enteredAt == f.enteredAt)
  {
    var n := |evs| - 1;
    RunsStayFlat(cfg, env, evs[..n]);
    assert evs[n] in evs;
    ApplyTimed(cfg, env, Run(cfg, env, evs[..n]), evs[n]);
    Prefixes(evs, n);
  }

  ghost predicate Monotone(env: Env) { forall a: nat, b: nat | a <= b :: env.clock(a) <= env.clock(b) }

  /** With a clock that does not run back, the entry time lies between the start and the end of that call. */
  lemma EntryWithinCall(cfg: Config, env: Env, evs: seq<Event>, id: FlowId) returns (i: nat)
    requires FlatEvents(evs) && id in Run(cfg, env, evs).flows && Monotone(env)
    ensures MovedLast(cfg, env, evs, i, id)
    ensures env.clock(Run(cfg, env, evs[..i]).tick) <= Run(cfg, env, evs).flows[id].enteredAt
    ensures Run(cfg, env, evs).flows[id].enteredAt <= env.clock(Run(cfg, env, evs[..i + 1]).tick)
  {
    i := EntryIsLastMove(cfg, env, evs, id);
  }

  // ---------- too late ----------

  /** The call completes the flow as expired, without a call of any component and without a move. */
  ghost predicate Dropped(w: World, w1: World, id: FlowId) {
    && id in w.flows && id in w1.flows && w1.flows[id].exit == Some("EXPIRED")
    && w1.flows[id].state == w.flows[id].state && w1.log == w.log && w1.calls == w.calls
  }

  /** The event selects a transition whose timeout, counted from the entry into the state, has passed. */
  ghost predicate TimedOut(env: Env, now: nat, f: Flow, keys: set<Key>) {
    exists t | t in f.def.transitions && t.from == f.state && t.kind == External ::
      Select(f.def.ExternalsFrom(f.state), keys) == Selected(t) && t.timeout.Some? && env.clock(now) > f.enteredAt + t.timeout.value
  }

  /** What an external transition does, it does by calling its guard or by moving. */
  lemma TakenIsSeen(cfg: Config, env: Env, s: Sys, t: Transition)
    requires SubFlowFree(s.flow.def) && t in s.flow.def.transitions && t.from == s.flow.state && t.kind == External
    ensures var r := TakeExternal(cfg, env, s, t).sys; s.calls < r.calls || s.log < r.log
  {
    IdleWatched(env);
    match t.guard
    case None =>
      var a := Advance(env, s, t.to, "external");
      ChainExplained(cfg, env, Idle(), Tick(a), 0);
      assert s.log < a.log;
    case Some(g) =>
      var called := Called(s, g.requires_);
      assert s.calls < called.calls;
      match env.validate(g, s.flow.ctx, s.tick)
      case Accepted(data) => AcceptExplained(cfg, env, Idle(), called, t, g.name, data);
      case Rejected => RejectExplained(env, Idle(), called);
      case Expired =>
      case Raised(error) =>
  }

  lemma OwnDroppedIff(cfg: Config, env: Env, s: Sys, keys: set<Key>)
    requires SubFlowFree(s.flow.def) && s.flow.exit.None?
    ensures var r := ResumeOwn(cfg, env, s, keys).sys;
      (r.flow.exit == Some("EXPIRED") && r.flow.state == s.flow.state && r.log == s.log && r.calls == s.calls)
        <==> TimedOut(env, s.tick, s.flow, keys)
  {
    var externals := s.flow.def.ExternalsFrom(s.flow.state);
    SelectedIsExternal(externals, keys);
    if externals != [] && Select(externals, keys).Selected? {
      var t := Select(externals, keys).transition;
      OfKindIn(s.flow.def.TransitionsFrom(s.flow.state), External, t);
      LeavingIn(s.flow.def.transitions, s.flow.state, t);
      TakenIsSeen(cfg, env, s, t);
    }
  }

  lemma SameTimeout(env: Env, now: nat, f: Flow, g: Flow, keys: set<Key>)
    requires f.def == g.def && f.state == g.state && f.enteredAt == g.enteredAt
    ensures TimedOut(env, now, f, keys) <==> TimedOut(env, now, g, keys)
  {}

  /** A resume is dropped exactly when the flow has expired or the timeout of its state has passed. */
  lemma DroppedIff(cfg: Config, env: Env, w: World, id: FlowId, data: Ctx)
    requires Loadable(w, id) && SubFlowFree(w.flows[id].def) && w.flows[id].active.None?
    ensures Dropped(w, Apply(cfg, env, w, ResumeFlow(id, data)), id) <==>
      env.clock(w.tick) > w.flows[id].expiresAt || TimedOut(env, w.tick + 1, w.flows[id], data.Keys)
  {
    var s := SysOf(w, id);
    var s1 := Arrived(s, data);
    if env.clock(w.tick) <= s.flow.expiresAt {
      ResumeInTime(cfg, env, s, data);
      OwnDroppedIff(cfg, env, s1, data.Keys);
      SameTimeout(env, w.tick + 1, s.flow, s1.flow, data.Keys);
    }
  }

  /** In every run: an event in time for its flow is dropped exactly when the clock is past the timeout of the state, counted
    * from a reading of the clock during the last call that moved or started the flow. */
  lemma TimeoutCountsFromEntry(cfg: Config, env: Env, evs: seq<Event>, w: World, id: FlowId, data: Ctx) returns (i: nat, n: nat)
    requires FlatEvents(evs) && w == Run(cfg, env, evs) && Loadable(w, id) && env.clock(w.tick) <= w.flows[id].expiresAt
    ensures MovedLast(cfg, env, evs, i, id)
    ensures Run(cfg, env, evs[..i]).tick <= n <= Run(cfg, env, evs[..i + 1]).tick
    ensures Dropped(w, Apply(cfg, env, w, ResumeFlow(id, data)), id)
      <==> TimedOut(env, w.tick + 1, w.flows[id].(enteredAt := env.clock(n)), data.Keys)
  {
    RunsStayFlat(cfg, env, evs);
    i := EntryIsLastMove(cfg, env, evs, id);
    n := ReadAt(cfg, env, evs, i, w.flows[id].enteredAt);
    InTimeDroppedIff(cfg, env, w, id, data, env.clock(n));
  }

  lemma ReadAt(cfg: Config, env: Env, evs: seq<Event>, i: nat, enteredAt: int) returns (n: nat)
    requires i < |evs| && EnteredDuring(cfg, env, evs, i, enteredAt)
    ensures Run(cfg, env, evs[..i]).tick <= n <= Run(cfg, env, evs[..i + 1]).tick && enteredAt == env.clock(n)
  {
    n :| Run(cfg, env, evs[..i]).tick <= n <= Run(cfg, env, evs[..i + 1]).tick && enteredAt == env.clock(n);
  }

  lemma InTimeDroppedIff(cfg: Config, env: Env, w: World, id: FlowId, data: Ctx, entered: int)
    requires FlatWorld(w) && Loadable(w, id) && w.flows[id].enteredAt == entered
    requires env.clock(w.tick) <= w.flows[id].expiresAt
    ensures Dropped(w, Apply(cfg, env, w, ResumeFlow(id, data)), id)
      <==> TimedOut(env, w.tick + 1, w.flows[id].(enteredAt := entered), data.Keys)
  {
    DroppedIff(cfg, env, w, id, data);
    SameTimeout(env, w.tick + 1, w.flows[id], w.flows[id].(enteredAt := entered), data.Keys);
  }

  // ---------- the life time of a flow ----------

  /** In every run a flow expires its definition's time to live after the call that started it. */
  lemma {:induction false} ExpiryIsFixed(cfg: Config, env: Env, evs: seq<Event>, id: FlowId) returns (i: nat)
    requires FlatEvents(evs) && id in Run(cfg, env, evs).flows
    ensures i < |evs| && id !in Run(cfg, env, evs[..i]).flows && id in Run(cfg, env, evs[..i + 1]).flows
    ensures var f := Run(cfg, env, evs).flows[id]; f.expiresAt == env.clock(Run(cfg, env, evs[..i]).tick) + f.def.ttl
  {
    var n := |evs| - 1;
    var before := evs[..n];
    var w := Run(cfg, env, before);
    RunsStayFlat(cfg, env, before);
    assert evs[n] in evs;
    ApplyTimed(cfg, env, w, evs[n]);
    Prefixes(evs, n);
    if id in w.flows {
      i := ExpiryIsFixed(cfg, env, before, id);
      Prefixes(evs, i);
      ApplyKeepsDefs(cfg, env, w, evs[n], id);
    } else {
      i := n;
      StartExpires(cfg, env, w, evs[n], id);
    }
  }

  lemma ApplyKeepsDefs(cfg: Config, env: Env, w: World, ev: Event, id: FlowId)
    requires FlatWorld(w) && id in w.flows
    ensures id in Apply(cfg, env, w, ev).flows && Apply(cfg, env, w, ev).flows[id].def == w.flows[id].def
  {
    if ev.ResumeFlow? && ev.id == id && Loadable(w, id) { ResumeStaysFlat(cfg, env, SysOf(w, id), ev.data); }
  }

  lemma StartExpires(cfg: Config, env: Env, w: World, ev: Event, id: FlowId)
    requires FlatEvents([ev]) && id !in w.flows && id in Apply(cfg, env, w, ev).flows
    ensures var f := Apply(cfg, env, w, ev).flows[id]; f.expiresAt == env.clock(w.tick) + f.def.ttl
  {
    assert ev in [ev];
    IdleWatched(env);
    ChainExplained(cfg, env, Idle(), Begun(env, id, ev.def, ev.data, w.tick, w.log, w.calls), 0);
  }
}
