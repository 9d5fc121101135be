/** How a sub-flow ends for its parent: bubbling when it ends on entry, and what happens when it ends on a resume. */
module SubFlowExit {
  import opened Definition
  import opened EngineModel

  // ---------- the log only grows ----------

  lemma PassLogGrows(cfg: Config, env: Env, s: Sys)
    ensures match ChainPass(cfg, env, s)
      case Halted => true
      case Moved(r) => |r.log| >= |s.log|
      case Failed(r) => |r.log| >= |s.log|
  {}

  lemma {:induction false} SubFlowLogGrows(cfg: Config, env: Env, s: Sys, link: SubFlowLink)
    requires link.definition < s.flow.def
    ensures match SubFlowTurn(cfg, env, s, link)
      case Stop(r) => |r.sys.log| >= |s.log|
      case Next(r) => |r.log| >= |s.log|
    decreases s.flow.def, 0, 0
  {
    if link.definition.initial.Some? { ChainLogGrows(cfg, env, StartSubFlow(env, s, link.definition), 0); }
  }

  lemma {:induction false} TurnLogGrows(cfg: Config, env: Env, s: Sys)
    ensures match ChainTurn(cfg, env, s)
      case Stop(r) => |r.sys.log| >= |s.log|
      case Next(r) => |r.log| >= |s.log|
    decreases s.flow.def, 0, 1
  {
    match FirstSubFlow(s.flow.def.TransitionsFrom(s.flow.state))
    case Some(t) =>
      NestedIsSmaller(s.flow.def, s.flow.state);
      SubFlowLogGrows(cfg, env, s, t.subFlow.value);
    case None => PassLogGrows(cfg, env, s);
  }

  lemma {:induction false} ChainLogGrows(cfg: Config, env: Env, s: Sys, depth: nat)
    ensures |Chain(cfg, env, s, depth).sys.log| >= |s.log|
    decreases s.flow.def, 1 + (if depth <= cfg.maxChainDepth then cfg.maxChainDepth - depth else 0), 0
  {
    if depth < cfg.maxChainDepth && !s.flow.def.Terminal(s.flow.state) {
      TurnLogGrows(cfg, env, s);
      match ChainTurn(cfg, env, s)
      case Stop(r) =>
      case Next(s1) => ChainLogGrows(cfg, env, s1, depth + 1);
    }
  }

  // ---------- ending on a resume ----------

  /** Not completed, no sub-flow running, and nothing to resume: only the expiry of the flow can end it. */
  ghost predicate Stranded(f: Flow) {
    f.exit.None? && f.active.None? && f.def.ExternalsFrom(f.state) == []
  }

  /** A sub-flow that ends on a resume with an exit its parent does not map leaves the parent where it was, with
    * nothing recorded; with any mapped exit the parent moves. */
  lemma UnmappedExitIsDropped(cfg: Config, env: Env, parent: Flow, sub: Sys, link: SubFlowLink)
    requires var t := FirstSubFlow(parent.def.TransitionsFrom(parent.state)); t.Some? && t.value.subFlow == Some(link)
    requires var r := Chain(cfg, env, Tick(sub), 0); r.thrown.None? && r.sys.flow.exit.Some?
    ensures var r := Chain(cfg, env, Tick(sub), 0);
      r.sys.flow.exit.value !in link.exitMappings <==>
        ContinueSubFlow(cfg, env, parent, sub) == Result(Freed(parent, r.sys), None)
  {
    var r := Chain(cfg, env, Tick(sub), 0);
    var s, exit := Freed(parent, r.sys), r.sys.flow.exit.value;
    if exit in link.exitMappings {
      var left := Tick(LeaveSubFlow(env, s, link, sub.flow.def.name, exit));
      assert |left.log| == |s.log| + 1;
      ChainLogGrows(cfg, env, left, 0);
      assert ContinueSubFlow(cfg, env, parent, sub) == Chain(cfg, env, left, 0);
    } else {
      assert ContinueSubFlow(cfg, env, parent, sub) == Result(s, None);
    }
  }

  lemma StrandedResume(cfg: Config, env: Env, s: Sys, data: Ctx)
    requires Stranded(s.flow)
    ensures var r := Resume(cfg, env, s, data);
      && r.sys.log == s.log && r.sys.calls == s.calls && r.sys.flow.state == s.flow.state && r.sys.flow.def == s.flow.def
      && r.sys.flow.expiresAt == s.flow.expiresAt
      && if env.clock(s.tick) > s.flow.expiresAt then r.sys.flow.exit == Some("EXPIRED")
         else Stranded(r.sys.flow) && r.thrown == Some("INVALID_TRANSITION")
  {}

  /** Whatever is called afterwards, a stranded flow stays in its state: it can only expire. */
  lemma {:induction false} StrandedForever(cfg: Config, env: Env, evs: seq<Event>, more: seq<Event>, id: FlowId)
    requires var w := Run(cfg, env, evs); id in w.flows && Stranded(w.flows[id])
    ensures var w, later := Run(cfg, env, evs), Run(cfg, env, evs + more);
      id in later.flows && later.flows[id].state == w.flows[id].state
      && (Stranded(later.flows[id]) || later.flows[id].exit == Some("EXPIRED"))
  {
    if more == [] {
      assert evs + more == evs;
    } else {
      var n := |more| - 1;
      StrandedForever(cfg, env, evs, more[..n], id);
      assert evs + more == evs + more[..n] + [more[n]];
      RunSnoc(cfg, env, evs + more[..n], more[n]);
      var w := Run(cfg, env, evs + more[..n]);
      match more[n]
      case StartFlow(_, _, _) =>
      case ResumeFlow(other, data) =>
        if other == id && Loadable(w, id) {
          StrandedResume(cfg, env, Sys(id, w.flows[id], w.tick, w.log, w.calls), data);
        }
    }
  }

  // ---------- ending on entry ----------

  /** One entry fails: the sub-flow entered from `s` runs to an exit that is not mapped. */
  ghost predicate EntryFails(cfg: Config, env: Env, s: Sys, link: SubFlowLink) {
    link.definition.initial.Some? &&
    var r := Chain(cfg, env, StartSubFlow(env, s, link.definition), 0);
    r.thrown.None? && r.sys.flow.exit.Some? && r.sys.flow.exit.value !in link.exitMappings
  }

  /** The flow sits at the entry of this sub-flow, and its state has no error transition. */
  ghost predicate AtEntry(f: Flow, link: SubFlowLink) {
    var t := FirstSubFlow(f.def.TransitionsFrom(f.state));
    t.Some? && t.value.subFlow == Some(link) && !f.def.Terminal(f.state) && f.state !in f.def.errorTransitions
  }

  /** One pass of the loop completes the parent with TERMINAL_ERROR exactly when the entry fails; the loop, which does not
    * ask whether the flow is completed, is then at the same entry again. */
  lemma EntryRepeatsIff(cfg: Config, env: Env, s: Sys, link: SubFlowLink)
    requires AtEntry(s.flow, link)
    ensures s.flow.exit != Some("TERMINAL_ERROR") ==>
      (EntryFails(cfg, env, s, link) <==>
        ChainTurn(cfg, env, s).Next? && ChainTurn(cfg, env, s).sys.flow.exit == Some("TERMINAL_ERROR"))
    ensures EntryFails(cfg, env, s, link) ==>
      var t := ChainTurn(cfg, env, s);
      && t.Next? && t.sys.flow.exit == Some("TERMINAL_ERROR")
      && t.sys.flow.def == s.flow.def && t.sys.flow.state == s.flow.state && AtEntry(t.sys.flow, link)
  {
    NestedIsSmaller(s.flow.def, s.flow.state);
    if link.definition.initial.Some? {
      var r := Chain(cfg, env, StartSubFlow(env, s, link.definition), 0);
      if r.thrown.None? && r.sys.flow.exit.Some? {
        assert ChainTurn(cfg, env, s)
          == Next(Tick(LeaveSubFlow(env, Freed(s.flow, r.sys), link, link.definition.name, r.sys.flow.exit.value)));
      }
    }
  }

  /** Every entry from this state of the parent fails. */
  ghost predicate AlwaysFails(cfg: Config, env: Env, def: FlowDef, st: State, link: SubFlowLink) {
    forall s: Sys {:trigger EntryFails(cfg, env, s, link)} | s.flow.def == def && s.flow.state == st :: EntryFails(cfg, env, s, link)
  }

  /** Then the loop runs into the depth limit, with the parent completed in the state it never left. */
  lemma {:induction false} FailingEntryOverflows(cfg: Config, env: Env, s: Sys, link: SubFlowLink, depth: nat)
    requires AtEntry(s.flow, link) && AlwaysFails(cfg, env, s.flow.def, s.flow.state, link)
    ensures var r := Chain(cfg, env, s, depth);
      && r.thrown == Some("MAX_CHAIN_DEPTH") && r.sys.flow.state == s.flow.state
      && (depth < cfg.maxChainDepth ==> r.sys.flow.exit == Some("TERMINAL_ERROR"))
    decreases if depth <= cfg.maxChainDepth then cfg.maxChainDepth - depth else 0
  {
    if depth < cfg.maxChainDepth {
      EntryRepeatsIff(cfg, env, s, link);
      assert EntryFails(cfg, env, s, link);
      var next := ChainTurn(cfg, env, s).sys;
      assert Chain(cfg, env, s, depth) == Chain(cfg, env, next, depth + 1);
      FailingEntryOverflows(cfg, env, next, link, depth + 1);
      if depth + 1 >= cfg.maxChainDepth { assert Chain(cfg, env, next, depth + 1) == Result(next, Some("MAX_CHAIN_DEPTH")); }
    }
  }

  // ---------- overflowing at one entry ----------

  /** `n` passes of the loop, if each of them goes on. */
  ghost function Passes(cfg: Config, env: Env, s: Sys, n: nat): Option<Sys>
    decreases n
  {
    if n == 0 then Some(s)
    else
      match ChainTurn(cfg, env, s)
      case Stop(_) => None
      case Next(s1) => Passes(cfg, env, s1, n - 1)
  }

  /** Every one of the next `n` entries fails. */
  ghost predicate EntriesFail(cfg: Config, env: Env, s: Sys, link: SubFlowLink, n: nat)
    decreases n
  {
    n > 0 ==> EntryFails(cfg, env, s, link) && EntriesFail(cfg, env, ChainTurnNext(cfg, env, s), link, n - 1)
  }

  /** The parent after one pass. */
  ghost function ChainTurnNext(cfg: Config, env: Env, s: Sys): Sys {
    match ChainTurn(cfg, env, s)
    case Next(s1) => s1
    case Stop(r) => r.sys
  }

  /** The loop runs into its depth limit, with no sub-flow left running, and never leaves this state. */
  ghost predicate OverflowsHere(cfg: Config, env: Env, s: Sys, depth: nat)
    requires depth <= cfg.maxChainDepth
  {
    var r := Chain(cfg, env, s, depth);
    && r.thrown == Some("MAX_CHAIN_DEPTH") && r.sys.flow.active.None?
    && forall k: nat | k <= cfg.maxChainDepth - depth && Passes(cfg, env, s, k).Some? ::
         Passes(cfg, env, s, k).value.flow.state == s.flow.state
  }

  /** What one pass does to the parent of a sub-flow that never leads back to its own entry. */
  lemma OnePass(cfg: Config, env: Env, s: Sys, link: SubFlowLink)
    requires AtEntry(s.flow, link) && s.flow.state !in link.exitMappings.Values
    ensures var t := ChainTurn(cfg, env, s);
      && (EntryFails(cfg, env, s, link) <==> t.Next? && t.sys.flow.state == s.flow.state)
      && (EntryFails(cfg, env, s, link) ==> AtEntry(t.sys.flow, link) && t.sys.flow.active.None?)
      && (t.Stop? && t.result.thrown == Some("MAX_CHAIN_DEPTH") ==> t.result.sys.flow.active.Some?)
  {
    NestedIsSmaller(s.flow.def, s.flow.state);
    if link.definition.initial.Some? {
      var r := Chain(cfg, env, StartSubFlow(env, s, link.definition), 0);
      if r.thrown.None? && r.sys.flow.exit.Some? {
        var exit := r.sys.flow.exit.value;
        assert ChainTurn(cfg, env, s) == Next(Tick(LeaveSubFlow(env, Freed(s.flow, r.sys), link, link.definition.name, exit)));
        if exit in link.exitMappings { assert link.exitMappings[exit] in link.exitMappings.Values; }
      }
    }
  }

  lemma PassesCons(cfg: Config, env: Env, s: Sys, n: nat, depth: nat)
    requires depth < cfg.maxChainDepth && n == cfg.maxChainDepth - depth && ChainTurn(cfg, env, s).Next?
    requires ChainTurn(cfg, env, s).sys.flow.state == s.flow.state && !s.flow.def.Terminal(s.flow.state)
    ensures OverflowsHere(cfg, env, s, depth) <==> OverflowsHere(cfg, env, ChainTurn(cfg, env, s).sys, depth + 1)
  {
    var s1 := ChainTurn(cfg, env, s).sys;
    ChainGoesOn(cfg, env, s, depth);
    forall k: nat | 0 < k ensures Passes(cfg, env, s, k) == Passes(cfg, env, s1, k - 1) {}
    if OverflowsHere(cfg, env, s, depth) {
      forall k: nat | k <= n - 1 && Passes(cfg, env, s1, k).Some? ensures Passes(cfg, env, s1, k).value.flow.state == s1.flow.state {
        assert Passes(cfg, env, s, k + 1) == Passes(cfg, env, s1, k);
      }
    }
  }

  /** Where an exit of the sub-flow never leads back to its own entry, the chain overflows at this entry exactly when each of
    * the remaining entries fails. */
  lemma {:induction false} OverflowsIffEntriesFail(cfg: Config, env: Env, s: Sys, link: SubFlowLink, depth: nat)
    requires AtEntry(s.flow, link) && s.flow.active.None? && s.flow.state !in link.exitMappings.Values
    requires depth <= cfg.maxChainDepth
    ensures OverflowsHere(cfg, env, s, depth) <==> EntriesFail(cfg, env, s, link, cfg.maxChainDepth - depth)
    decreases cfg.maxChainDepth - depth
  {
    if depth < cfg.maxChainDepth {
      OnePass(cfg, env, s, link);
      ChainGoesOn(cfg, env, s, depth);
      var t := ChainTurn(cfg, env, s);
      if EntryFails(cfg, env, s, link) {
        PassesCons(cfg, env, s, cfg.maxChainDepth - depth, depth);
        OverflowsIffEntriesFail(cfg, env, t.sys, link, depth + 1);
      } else if t.Next? {
        assert Passes(cfg, env, s, 1) == Some(t.sys) by { assert Passes(cfg, env, t.sys, 0) == Some(t.sys); }
      }
    } else {
      assert Passes(cfg, env, s, 0) == Some(s);
    }
  }
}
