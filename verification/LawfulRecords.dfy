/** In every run each record is one its definition allows, under the name of what made the move. For definitions without
  * sub-flows. */
module LawfulRecords {
  import opened EngineModel
  import opened Trails
  import opened Effects
  import opened Timing

  /** Each record belongs to a stored flow and is lawful for its definition. */
  ghost predicate AllLawful(env: Env, w: World) {
    forall x | x in w.log :: x.flowId in w.flows && Lawful(env, w.flows[x.flowId].def, x)
  }

  lemma StoreLawful(env: Env, w: World, s: Sys, r: Result)
    requires AllLawful(env, w) && s.log == w.log && Explained(env, Idle(), s, r.sys)
    requires s.id in w.flows ==> w.flows[s.id].def == s.flow.def
    ensures AllLawful(env, Store(w, r))
  {
    forall x | x in r.sys.log ensures x.flowId in Store(w, r).flows && Lawful(env, Store(w, r).flows[x.flowId].def, x) {
      assert r.sys.log == w.log + News(s, r.sys);
      if x in w.log {
        assert x.flowId in w.flows;
      } else {
        assert x in News(s, r.sys);
      }
    }
  }

  lemma ApplyLawful(cfg: Config, env: Env, w: World, ev: Event)
    requires FlatWorld(w) && FlatEvents([ev]) && AllLawful(env, w)
    ensures AllLawful(env, Apply(cfg, env, w, ev))
  {
    IdleWatched(env);
    assert ev in [ev];
    match ev
    case StartFlow(id, def, data) =>
      if id !in w.flows && def.initial.Some? {
        var s := Begun(env, id, def, data, w.tick, w.log, w.calls);
        ChainExplained(cfg, env, Idle(), s, 0);
        StoreLawful(env, w, s, Chain(cfg, env, s, 0));
      }
    case ResumeFlow(id, data) =>
      if Loadable(w, id) {
        ResumeExplained(cfg, env, Idle(), SysOf(w, id), data);
        StoreLawful(env, w, SysOf(w, id), Resume(cfg, env, SysOf(w, id), data));
      }
  }

  /** In every run: a regular record follows a declared transition under the name of its processor, guard or branch and label; a
    * routed error follows the first route that matches its cause, and only when none does the error transition. */
  lemma {:induction false} RecordsAreLawful(cfg: Config, env: Env, evs: seq<Event>)
    requires FlatEvents(evs)
    ensures AllLawful(env, Run(cfg, env, evs))
  {
    if evs != [] {
      var n := |evs| - 1;
      RecordsAreLawful(cfg, env, evs[..n]);
      RunsStayFlat(cfg, env, evs[..n]);
      assert evs[n] in evs;
      ApplyLawful(cfg, env, Run(cfg, env, evs[..n]), evs[n]);
    }
  }
}
