/** In every run the enter and exit actions that have fired are those of the recorded moves, in their order. */
module ActionLog {
  import opened Definition
  import opened EngineModel
  import opened EngineFacts
  import opened Trails
  import opened Effects

  /** The data a flow was started with. */
  function StartedWith(evs: seq<Event>, id: FlowId): Option<Ctx> {
    if evs == [] then None
    else
      var n := |evs| - 1;
      var before := StartedWith(evs[..n], id);
      if before.Some? then before
      else if evs[n].StartFlow? && evs[n].id == id && evs[n].def.initial.Some? then Some(evs[n].data)
      else None
  }

  /** Starts of definitions without sub-flows whose components are not named like errors; data that comes later leaves alone
    * what is watched. */
  ghost predicate QuietEvent<V>(w: Watch<V>, ev: Event) {
    match ev
    case StartFlow(_, def, _) => SubFlowFree(def) && NamesClear(def)
    case ResumeFlow(_, data) => forall ctx :: w.look(ctx + data) == w.look(ctx)
  }

  ghost predicate QuietEvents<V>(w: Watch<V>, evs: seq<Event>) { forall ev | ev in evs :: QuietEvent(w, ev) }

  /** What is watched in the context of a flow is what the actions of its recorded moves have made of the initial data. */
  ghost predicate ActedAsRecorded<V>(w: Watch<V>, world: World, evs: seq<Event>, id: FlowId)
    requires id in world.flows
  {
    var f := world.flows[id];
    && SubFlowFree(f.def) && NamesClear(f.def) && f.active.None? && StartedWith(evs, id).Some?
    && w.look(f.ctx) == Replayed(w, Own(world.log, id), w.look(StartedWith(evs, id).value))
  }

  ghost predicate AllActed<V>(w: Watch<V>, world: World, evs: seq<Event>) {
    && (forall id | id in world.flows :: ActedAsRecorded(w, world, evs, id))
    && (forall id | id !in world.flows :: Own(world.log, id) == [] && StartedWith(evs, id).None?)
  }

  lemma OwnNews(s: Sys, r: Sys, id: FlowId)
    requires s.log <= r.log && forall x | x in News(s, r) :: x.flowId == s.id
    ensures Own(r.log, id) == if id == s.id then Own(s.log, id) + News(s, r) else Own(s.log, id)
  {
    assert r.log == s.log + News(s, r);
    OwnAppend(s.log, News(s, r), id);
    OwnAllOrNone(News(s, r), s.id, id);
  }

  lemma StartedSnoc(evs: seq<Event>, ev: Event, id: FlowId)
    ensures StartedWith(evs + [ev], id) ==
      if StartedWith(evs, id).Some? then StartedWith(evs, id)
      else if ev.StartFlow? && ev.id == id && ev.def.initial.Some? then Some(ev.data) else None
  {
    assert (evs + [ev])[..|evs + [ev]| - 1] == evs;
  }

  /** The flow concerned is stored, and the others are as before. */
  lemma StoreActed<V>(env: Env, w: Watch<V>, world: World, evs: seq<Event>, ev: Event, s: Sys, r: Result)
    requires AllActed(w, world, evs) && s.log == world.log && Explained(env, w, s, r.sys)
    requires SubFlowFree(s.flow.def) && NamesClear(s.flow.def) && s.flow.active.None?
    requires StartedWith(evs + [ev], s.id).Some?
    requires w.look(s.flow.ctx) == Replayed(w, Own(world.log, s.id), w.look(StartedWith(evs + [ev], s.id).value))
    requires forall id | id != s.id :: StartedWith(evs + [ev], id) == StartedWith(evs, id)
    ensures AllActed(w, Store(world, r), evs + [ev])
  {
    forall id ensures Own(r.sys.log, id) == if id == s.id then Own(world.log, id) + News(s, r.sys) else Own(world.log, id) {
      OwnNews(s, r.sys, id);
    }
    ReplayedAppend(w, Own(world.log, s.id), News(s, r.sys), w.look(StartedWith(evs + [ev], s.id).value));
    forall id | id in world.flows && id != s.id ensures ActedAsRecorded(w, Store(world, r), evs + [ev], id) {
      assert ActedAsRecorded(w, world, evs, id);
    }
  }

  lemma IdleActed<V>(w: Watch<V>, world: World, evs: seq<Event>, ev: Event)
    requires AllActed(w, world, evs)
    requires ev.StartFlow? && ev.def.initial.Some? ==> ev.id in world.flows
    ensures AllActed(w, world, evs + [ev])
  {
    forall id ensures StartedWith(evs + [ev], id) == StartedWith(evs, id) {
      StartedSnoc(evs, ev, id);
      if id in world.flows { assert ActedAsRecorded(w, world, evs, id); }
    }
    forall id | id in world.flows ensures ActedAsRecorded(w, world, evs + [ev], id) {
      assert ActedAsRecorded(w, world, evs, id);
    }
  }

  lemma StartActed<V>(cfg: Config, env: Env, w: Watch<V>, world: World, evs: seq<Event>, ev: Event)
    requires Watched(env, w) && AllActed(w, world, evs) && ev.StartFlow? && ev.def.initial.Some? && ev.id !in world.flows
    requires SubFlowFree(ev.def) && NamesClear(ev.def)
    ensures AllActed(w, Apply(cfg, env, world, ev), evs + [ev])
  {
    var s := Begun(env, ev.id, ev.def, ev.data, world.tick, world.log, world.calls);
    ChainExplained(cfg, env, w, s, 0);
    forall id ensures StartedWith(evs + [ev], id) == if id == ev.id then Some(ev.data) else StartedWith(evs, id) {
      StartedSnoc(evs, ev, id);
    }
    StoreActed(env, w, world, evs, ev, s, Chain(cfg, env, s, 0));
  }

  lemma ResumeActed<V>(cfg: Config, env: Env, w: Watch<V>, world: World, evs: seq<Event>, ev: Event)
    requires Watched(env, w) && AllActed(w, world, evs) && ev.ResumeFlow? && Loadable(world, ev.id)
    requires forall ctx :: w.look(ctx + ev.data) == w.look(ctx)
    ensures AllActed(w, Apply(cfg, env, world, ev), evs + [ev])
  {
    var s := SysOf(world, ev.id);
    assert ActedAsRecorded(w, world, evs, ev.id);
    ResumeExplained(cfg, env, w, s, ev.data);
    forall id ensures StartedWith(evs + [ev], id) == StartedWith(evs, id) { StartedSnoc(evs, ev, id); }
    StoreActed(env, w, world, evs, ev, s, Resume(cfg, env, s, ev.data));
  }

  /** In every run, whatever is watched in the context of a flow is what the actions of its regular records, in their order,
    * have made of the initial data: for each the exit action of the state left, then the enter action of the state entered.
    * Routed errors fire none, and what a throwing processor has put is gone. */
  lemma {:induction false} ActionsFollowRecords<V>(cfg: Config, env: Env, w: Watch<V>, evs: seq<Event>)
    requires Watched(env, w) && QuietEvents(w, evs)
    ensures AllActed(w, Run(cfg, env, evs), evs)
  {
    if evs != [] {
      var n := |evs| - 1;
      var before, ev := evs[..n], evs[n];
      var world := Run(cfg, env, before);
      forall x | x in before ensures QuietEvent(w, x) {}
      ActionsFollowRecords(cfg, env, w, before);
      assert evs == before + [ev] && QuietEvent(w, ev);
      if ev.StartFlow? && ev.id !in world.flows && ev.def.initial.Some? {
        StartActed(cfg, env, w, world, before, ev);
      } else if ev.ResumeFlow? && Loadable(world, ev.id) {
        ResumeActed(cfg, env, w, world, before, ev);
      } else {
        IdleActed(w, world, before, ev);
      }
    }
  }

  /** What a call has added to the records of a flow. */
  function Added(before: World, after: World, id: FlowId): seq<Record> {
    var known, all := |Own(before.log, id)|, Own(after.log, id);
    if known <= |all| then all[known..] else []
  }

  /** The data of an event is in the context before anything else, over what was there, whether the call comes to anything or
    * not; then the moves of the call act. */
  lemma DataArrivesFirst<V>(cfg: Config, env: Env, w: Watch<V>, world: World, id: FlowId, data: Ctx)
    requires Watched(env, w) && Loadable(world, id)
    requires SubFlowFree(world.flows[id].def) && NamesClear(world.flows[id].def) && world.flows[id].active.None?
    ensures var after := Apply(cfg, env, world, ResumeFlow(id, data));
      && id in after.flows
      && w.look(after.flows[id].ctx) == Replayed(w, Added(world, after, id), w.look(world.flows[id].ctx + data))
  {
    var s := SysOf(world, id);
    var s1 := Arrived(s, data);
    var r := Resume(cfg, env, s, data).sys;
    if env.clock(s.tick) > s.flow.expiresAt {
      Unmoved(env, w, s1, r);
    } else {
      OwnExplained(cfg, env, w, s1, data.Keys);
    }
    OwnNews(s1, r, id);
    assert Own(r.log, id)[|Own(world.log, id)|..] == News(s1, r);
  }

  // ---------- markers ----------

  /** A mark that only the enter action of `x` puts, or only its exit action. */
  datatype Mark = Entered(x: State) | Exited(x: State)

  /** The actions leave their marks under the given keys, and nobody else touches the key of `mark`. */
  ghost predicate Marks(env: Env, key: Key, mark: Mark) {
    && (forall def, s, ctx, n :: key in env.onEnter(def, s, ctx, n) <==> mark == Entered(s))
    && (forall def, s, ctx, n :: key in env.onExit(def, s, ctx, n) <==> mark == Exited(s))
    && (forall p, ctx, n :: env.process(p, ctx, n).Returned? ==> key !in env.process(p, ctx, n).puts)
    && (forall g, ctx, n :: env.validate(g, ctx, n).Accepted? ==> key !in env.validate(g, ctx, n).data)
  }

  ghost predicate Unmarked(key: Key, evs: seq<Event>) {
    forall ev | ev in evs :: key !in ev.data && (ev.StartFlow? ==> SubFlowFree(ev.def) && NamesClear(ev.def))
  }

  /** Whether the mark is there. */
  function MarkWatch(key: Key, mark: Mark): Watch<bool> {
    Watch((ctx: Ctx) => key in ctx, (s, seen) => seen || mark == Exited(s), (s, seen) => seen || mark == Entered(s))
  }

  /** A regular record that leaves the mark. */
  ghost predicate Leaves(r: Record, mark: Mark) {
    !ErrorTrigger(r.trigger) && match mark case Entered(x) => r.to == x case Exited(x) => r.from == x
  }

  lemma {:induction false} MarkReplayed(key: Key, mark: Mark, rs: seq<Record>)
    ensures Replayed(MarkWatch(key, mark), rs, false) <==> exists r | r in rs :: Leaves(r, mark)
  {
    if rs != [] {
      var n := |rs| - 1;
      MarkReplayed(key, mark, rs[..n]);
      assert rs == rs[..n] + [rs[n]];
      var w := MarkWatch(key, mark);
      assert Replayed(w, rs, false) == ActedOut(w, rs[n], Replayed(w, rs[..n], false));
      assert ActedOut(w, rs[n], Replayed(w, rs[..n], false)) <==> Replayed(w, rs[..n], false) || Leaves(rs[n], mark);
      if r :| r in rs && Leaves(r, mark) { assert r in rs[..n] || r == rs[n]; }
    }
  }

  lemma StartedUnmarked(key: Key, evs: seq<Event>, id: FlowId)
    requires Unmarked(key, evs)
    ensures StartedWith(evs, id).Some? ==> key !in StartedWith(evs, id).value
  {
    if evs != [] { StartedUnmarked(key, evs[..|evs| - 1], id); }
  }

  /** In every run, a flow carries the mark of the enter action of a state exactly when one of its regular moves led there, and
    * that of an exit action exactly when one led away. */
  lemma MarksTellMoves(cfg: Config, env: Env, key: Key, mark: Mark, evs: seq<Event>, id: FlowId)
    requires Marks(env, key, mark) && Unmarked(key, evs) && id in Run(cfg, env, evs).flows
    ensures var world := Run(cfg, env, evs);
      key in world.flows[id].ctx <==> exists r | r in Own(world.log, id) :: Leaves(r, mark)
  {
    var w, world := MarkWatch(key, mark), Run(cfg, env, evs);
    ActionsFollowRecords(cfg, env, w, evs);
    assert ActedAsRecorded(w, world, evs, id);
    StartedUnmarked(key, evs, id);
    MarkReplayed(key, mark, Own(world.log, id));
  }
}
