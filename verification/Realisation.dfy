/** The converse of run soundness: what the engine check rejects goes wrong in some run of honest components. */
module Realisation {
  import opened Definition
  import opened DataFlow
  import opened DataFlowProofs
  import opened RequiresProduces
  import opened Builder
  import opened EngineModel
  import opened EngineFacts
  import opened EngineMoves
  import opened RunSafety
  import opened EngineCheck
  import opened DoomedChains
  import ChainBound

  // ---------- resuming ----------

  function Bring(x: Setting, t: Transition): Ctx { Fill(x.brings(t)) }

  lemma ExternalOf(x: Setting, q: State, t: Transition)
    requires t in x.def.ExternalsFrom(q)
    ensures t in x.def.transitions && t.from == q && t.kind == External
  {
    OfKindIn(x.def.TransitionsFrom(q), External, t);
    LeavingIn(x.def.transitions, q, t);
  }

  lemma ArrivedReady(x: Setting, s: Sys, q: State, t: Transition, most: set<Key>, fails: nat)
    requires Ready(x, s, q, most, fails)
    ensures Ready(x, Arrived(s, Bring(x, t)), q, most + x.brings(t), fails) && Arrived(s, Bring(x, t)).tick == s.tick + 1
  {}

  /** The keys of `t` arrive in time and select `t`. */
  lemma Resumes(x: Setting, env: Env, s: Sys, q: State, t: Transition, most: set<Key>, fails: nat)
    requires Selectable(x.def, x.brings) && t in x.def.ExternalsFrom(q) && Quiet(env) && Ready(x, s, q, most, fails)
    ensures Brought(x.brings, s.flow, Bring(x, t))
    ensures Resume(x.cfg, env, s, Bring(x, t)) == TakeExternal(x.cfg, env, Arrived(s, Bring(x, t)), t)
  {
    ExternalOf(x, q, t);
    var data := Bring(x, t);
    var s1 := Arrived(s, data);
    assert data.Keys == x.brings(t);
    assert Select(x.def.ExternalsFrom(q), data.Keys) == Selected(t);
    assert Resume(x.cfg, env, s, data) == Deliver(x.cfg, env, s1, data.Keys);
    assert Deliver(x.cfg, env, s1, data.Keys) == ResumeOwn(x.cfg, env, s1, data.Keys);
  }

  lemma DoomedCons(x: Setting, env: Env, s: Sys, q: State, t: Transition, ts: seq<Transition>, most: set<Key>, fails: nat)
    requires Selectable(x.def, x.brings) && t in x.def.ExternalsFrom(q) && Quiet(env) && Ready(x, s, q, most, fails)
    requires Doomed(x, env, TakeExternal(x.cfg, env, Arrived(s, Bring(x, t)), t).sys, ts)
    ensures Doomed(x, env, s, [t] + ts)
  {
    Resumes(x, env, s, q, t, most, fails);
    assert ([t] + ts)[0] == t && ([t] + ts)[1..] == ts;
  }

  lemma PlaysTwo(env: Env, n: nat, c: Cue, cs: seq<Cue>)
    requires Plays(env, n, [PASS, c] + cs)
    ensures Acts(env, n + 1, c) && Plays(env, n + 2, cs)
  {
    assert [PASS, c] + cs == [PASS] + ([c] + cs);
    PlaysCons(env, n, PASS, [c] + cs);
    PlaysCons(env, n + 1, c, cs);
  }

  /** The flow as its event arrives, and the cues that are left. */
  lemma Posed(x: Setting, env: Env, s: Sys, q: State, t: Transition, most: set<Key>, fails: nat, c: Cue, cs: seq<Cue>)
    requires Ready(x, s, q, most, fails) && Plays(env, s.tick, [PASS, c] + cs)
    ensures var s1 := Arrived(s, Bring(x, t));
      Ready(x, s1, q, most + x.brings(t), fails) && Acts(env, s1.tick, c) && Plays(env, s1.tick + 1, cs)
  {
    PlaysTwo(env, s.tick, c, cs);
    ArrivedReady(x, s, q, t, most, fails);
  }

  /** The call ends in a chain that starts in `to`. */
  ghost predicate ChainsOn(x: Setting, env: Env, r: Result, to: State, most: set<Key>, fails: nat, tick: nat) {
    exists s1: Sys :: Ready(x, s1, to, most, fails) && s1.tick == tick && r == Chain(x.cfg, env, s1, 0)
  }

  ghost predicate TakesToRun(x: Setting, q: State, t: Transition, have: set<Key>, fails: nat, c: Cue, to: State, most: set<Key>, after: nat) {
    forall env, s: Sys | Quiet(env) && Acts(env, s.tick, c) && Ready(x, s, q, have, fails) ::
      ChainsOn(x, env, TakeExternal(x.cfg, env, s, t), to, most, after, s.tick + 1)
  }

  ghost predicate TakesToRest(x: Setting, q: State, t: Transition, have: set<Key>, fails: nat, c: Cue, to: State, most: set<Key>, after: nat) {
    forall env, s: Sys | Quiet(env) && Acts(env, s.tick, c) && Ready(x, s, q, have, fails) ::
      var r := TakeExternal(x.cfg, env, s, t);
      Ready(x, r.sys, to, most, after) && r.sys.tick == s.tick + 1
  }

  ghost predicate TakesWrong(x: Setting, q: State, t: Transition, have: set<Key>, fails: nat, c: Cue) {
    forall env, s: Sys | Quiet(env) && Acts(env, s.tick, c) && Ready(x, s, q, have, fails) ::
      Wrong(TakeExternal(x.cfg, env, s, t).sys)
  }

  /** Chains of an accepted definition do not overflow. */
  lemma NoOverflow(x: Setting, env: Env, s: Sys)
    requires Proper(x) && s.flow.def == x.def && s.flow.state in x.def.states
    ensures Chain(x.cfg, env, s, 0).thrown.None?
  {
    ChainBound.ShortNeverOverflows(x.cfg, env, s);
  }

  lemma FreshChain(x: Setting, to: State, most: set<Key>, fails: nat, cs: seq<Cue>, ts: seq<Transition>, env: Env, s: Sys)
    requires Proper(x) && to in x.def.states && DoomsRun(x, to, most, fails, cs, ts)
    requires Quiet(env) && Plays(env, s.tick, cs) && Ready(x, s, to, most, fails)
    ensures Doomed(x, env, Chain(x.cfg, env, s, 0).sys, ts)
  {
    NoOverflow(x, env, s);
  }

  lemma ChainsOnDoomed(x: Setting, env: Env, r: Result, to: State, most: set<Key>, fails: nat, tick: nat, cs: seq<Cue>, ts: seq<Transition>)
    requires Proper(x) && to in x.def.states && DoomsRun(x, to, most, fails, cs, ts)
    requires Quiet(env) && Plays(env, tick, cs) && ChainsOn(x, env, r, to, most, fails, tick)
    ensures Doomed(x, env, r.sys, ts)
  {
    var s: Sys :| Ready(x, s, to, most, fails) && s.tick == tick && r == Chain(x.cfg, env, s, 0);
    FreshChain(x, to, most, fails, cs, ts, env, s);
  }

  lemma ToRunOnce(x: Setting, q: State, t: Transition, most: set<Key>, fails: nat, c: Cue, to: State, most1: set<Key>, after: nat,
                  cs: seq<Cue>, ts: seq<Transition>, env: Env, s: Sys)
    requires Proper(x) && t in x.def.ExternalsFrom(q) && to in x.def.states
    requires TakesToRun(x, q, t, most + x.brings(t), fails, c, to, most1, after) && DoomsRun(x, to, most1, after, cs, ts)
    requires Quiet(env) && Plays(env, s.tick, [PASS, c] + cs) && Ready(x, s, q, most, fails)
    ensures Doomed(x, env, s, [t] + ts)
  {
    Posed(x, env, s, q, t, most, fails, c, cs);
    var s1 := Arrived(s, Bring(x, t));
    ChainsOnDoomed(x, env, TakeExternal(x.cfg, env, s1, t), to, most1, after, s1.tick + 1, cs, ts);
    DoomedCons(x, env, s, q, t, ts, most, fails);
  }

  lemma ToRunBack(x: Setting, q: State, t: Transition, most: set<Key>, fails: nat, c: Cue, to: State, most1: set<Key>, after: nat)
    requires Proper(x) && t in x.def.ExternalsFrom(q)
    requires TakesToRun(x, q, t, most + x.brings(t), fails, c, to, most1, after) && FatalRun(x, to, most1)
    ensures RestDoomed(x, q, most, fails)
  {
    assert RunDoomed(x, to, most1, after);
    var cs, ts :| DoomsRun(x, to, most1, after, cs, ts);
    forall env, s: Sys | Quiet(env) && Plays(env, s.tick, [PASS, c] + cs) && Ready(x, s, q, most, fails)
      ensures Doomed(x, env, s, [t] + ts)
    {
      ToRunOnce(x, q, t, most, fails, c, to, most1, after, cs, ts, env, s);
    }
    assert DoomsRest(x, q, most, fails, [PASS, c] + cs, [t] + ts);
  }

  lemma ToRestBack(x: Setting, q: State, t: Transition, most: set<Key>, fails: nat, c: Cue, to: State, most1: set<Key>, after: nat)
    requires Proper(x) && t in x.def.ExternalsFrom(q)
    requires TakesToRest(x, q, t, most + x.brings(t), fails, c, to, most1, after) && RestDoomed(x, to, most1, after)
    ensures RestDoomed(x, q, most, fails)
  {
    var cs, ts :| DoomsRest(x, to, most1, after, cs, ts);
    forall env, s: Sys | Quiet(env) && Plays(env, s.tick, [PASS, c] + cs) && Ready(x, s, q, most, fails)
      ensures Doomed(x, env, s, [t] + ts)
    {
      Posed(x, env, s, q, t, most, fails, c, cs);
      var s1 := Arrived(s, Bring(x, t));
      assert Doomed(x, env, TakeExternal(x.cfg, env, s1, t).sys, ts);
      DoomedCons(x, env, s, q, t, ts, most, fails);
    }
    assert DoomsRest(x, q, most, fails, [PASS, c] + cs, [t] + ts);
  }

  lemma ToWrongBack(x: Setting, q: State, t: Transition, most: set<Key>, fails: nat, c: Cue)
    requires Proper(x) && t in x.def.ExternalsFrom(q) && TakesWrong(x, q, t, most + x.brings(t), fails, c)
    ensures RestDoomed(x, q, most, fails)
  {
    forall env, s: Sys | Quiet(env) && Plays(env, s.tick, [PASS, c] + []) && Ready(x, s, q, most, fails)
      ensures Doomed(x, env, s, [t] + [])
    {
      Posed(x, env, s, q, t, most, fails, c, []);
      assert Wrong(TakeExternal(x.cfg, env, Arrived(s, Bring(x, t)), t).sys);
      DoomedCons(x, env, s, q, t, [], most, fails);
    }
    assert DoomsRest(x, q, most, fails, [PASS, c] + [], [t] + []);
  }

  // ---------- the edges of a state that waits ----------

  /** What an accepted event leaves in the context, beyond what it brings. */
  function Granted(t: Transition): set<Key> {
    if t.guard.Some? then KeySet(t.guard.value.produces) + ProcessorProduces(t) else {}
  }

  lemma AcceptMoves(x: Setting, env: Env, s: Sys, q: State, t: Transition, g: Guard, have: set<Key>, fails: nat)
    requires Quiet(env) && Acts(env, s.tick, PASS) && Ready(x, s, q, have, fails) && t.guard == Some(g)
    ensures ChainsOn(x, env, Accept(x.cfg, env, s, t, g.name, Fill(KeySet(g.produces))), t.to, have + Granted(t), After(q, t.to, fails), s.tick + 1)
  {
    var data := Fill(KeySet(g.produces));
    var withData := s.(flow := s.flow.(ctx := s.flow.ctx + data));
    var done := match t.processor
      case None => withData
      case Some(p) => Called(withData, p.requires_).(flow := s.flow.(ctx := withData.flow.ctx + Fill(KeySet(p.produces))));
    assert Ready(x, done, q, have + Granted(t), fails);
    AdvanceReady(x, env, done, t.to, g.name, q, have + Granted(t), fails);
    var s1 := Tick(Advance(env, done, t.to, g.name));
    assert Ready(x, s1, t.to, have + Granted(t), After(q, t.to, fails));
    assert Accept(x.cfg, env, s, t, g.name, data) == Chain(x.cfg, env, s1, 0);
  }

  lemma TakeMoves(x: Setting, env: Env, s: Sys, q: State, t: Transition, have: set<Key>, fails: nat)
    requires Quiet(env) && Acts(env, s.tick, PASS) && Ready(x, s, q, have, fails)
    ensures ChainsOn(x, env, TakeExternal(x.cfg, env, s, t), t.to, have + Granted(t), After(q, t.to, fails), s.tick + 1)
  {
    match t.guard
    case None =>
      AdvanceReady(x, env, s, t.to, "external", q, have, fails);
      var s1 := Tick(Advance(env, s, t.to, "external"));
      assert Ready(x, s1, t.to, have + Granted(t), After(q, t.to, fails));
      assert TakeExternal(x.cfg, env, s, t) == Chain(x.cfg, env, s1, 0);
    case Some(g) =>
      var called := Called(s, g.requires_);
      AcceptMoves(x, env, called, q, t, g, have, fails);
      assert TakeExternal(x.cfg, env, s, t) == Accept(x.cfg, env, called, t, g.name, Fill(KeySet(g.produces)));
  }

  lemma TakeBreaks(x: Setting, env: Env, s: Sys, q: State, t: Transition, cause: string, z: State, have: set<Key>, fails: nat)
    requires Quiet(env) && Acts(env, s.tick, Fail(cause)) && Ready(x, s, q, have, fails) && t.guard.Some? && t.processor.Some?
    requires LeadsTo(env, x.def, q, Some(cause), z) && !x.def.Terminal(z)
    ensures var r := TakeExternal(x.cfg, env, s, t);
      Ready(x, r.sys, z, have, After(q, z, fails)) && r.sys.tick == s.tick + 1
  {
    var g, p := t.guard.value, t.processor.value;
    var called := Called(s, g.requires_);
    var data := Fill(KeySet(g.produces));
    var again := Called(called.(flow := s.flow.(ctx := s.flow.ctx + data)), p.requires_).(flow := s.flow);
    assert Ready(x, again, q, have, fails);
    ErrorReady(x, env, again, Some(cause), q, z, have, fails);
    assert TakeExternal(x.cfg, env, s, t) == Accept(x.cfg, env, called, t, g.name, data);
    assert Accept(x.cfg, env, called, t, g.name, data) == Result(Tick(HandleError(env, again, Some(cause))), None);
  }

  /** A rejection is counted, or is the last one allowed. */
  lemma TakeRejects(x: Setting, env: Env, s: Sys, q: State, t: Transition, z: State, have: set<Key>, fails: nat)
    requires Quiet(env) && Acts(env, s.tick, REJECT) && Ready(x, s, q, have, fails) && t.guard.Some?
    requires LeadsTo(env, x.def, q, None, z) && !x.def.Terminal(z)
    ensures var r := TakeExternal(x.cfg, env, s, t);
      (if fails + 1 >= x.def.maxGuardRetries then Ready(x, r.sys, z, have, After(q, z, fails + 1))
       else Ready(x, r.sys, q, have, fails + 1))
      && r.sys.tick == s.tick + 1
  {
    var called := Called(s, t.guard.value.requires_);
    var counted := called.(flow := s.flow.(failures := fails + 1));
    ErrorReady(x, env, counted, None, q, z, have, fails + 1);
    assert TakeExternal(x.cfg, env, s, t) == Result(Tick(Reject(env, called)), None);
  }

  lemma RestDoomedMore(x: Setting, q: State, less: set<Key>, most: set<Key>, fails: nat)
    requires RestDoomed(x, q, most, fails) && less <= most
    ensures RestDoomed(x, q, less, fails)
  {
    var cs, ts :| DoomsRest(x, q, most, fails, cs, ts);
    forall env, s: Sys | Quiet(env) && Plays(env, s.tick, cs) && Ready(x, s, q, less, fails) ensures Doomed(x, env, s, ts) {
      assert Ready(x, s, q, most, fails);
    }
    assert DoomsRest(x, q, less, fails, cs, ts);
  }

  /** Rejected again and again, the flow ends where the error transition leads. */
  lemma {:induction false} RejectionsBack(x: Setting, q: State, t: Transition, z: State, have: set<Key>, fails: nat)
    requires Proper(x) && t in x.def.ExternalsFrom(q) && t.guard.Some? && x.brings(t) <= have && !x.def.Terminal(z)
    requires (forall env | Quiet(env) :: LeadsTo(env, x.def, q, None, z)) && FatalRest(x, z, have)
    ensures RestDoomed(x, q, have, fails)
    decreases if fails < x.def.maxGuardRetries then x.def.maxGuardRetries - fails else 0
  {
    assert have + x.brings(t) == have;
    var last := fails + 1 >= x.def.maxGuardRetries;
    var to, after := if last then z else q, if last then After(q, z, fails + 1) else fails + 1;
    if last {
      assert RestDoomed(x, z, have, after);
    } else {
      RejectionsBack(x, q, t, z, have, fails + 1);
    }
    forall env, s: Sys | Quiet(env) && Acts(env, s.tick, REJECT) && Ready(x, s, q, have, fails)
      ensures var r := TakeExternal(x.cfg, env, s, t); Ready(x, r.sys, to, have, after) && r.sys.tick == s.tick + 1
    {
      TakeRejects(x, env, s, q, t, z, have, fails);
    }
    ToRestBack(x, q, t, have, fails, REJECT, to, have, after);
  }

  lemma ResumeFailureBack(x: Setting, q: State, t: Transition, e: Edge<Pos>, most: set<Key>, fails: nat)
    requires Proper(x) && t in x.def.ExternalsFrom(q) && t.guard.Some?
    requires e in FailureEdges(x.def, [], x.def, q, t.processor.Some?, x.brings(t)) && Bad(x, e, most)
    ensures RestDoomed(x, q, most, fails)
  {
    var cause, z := FailureTarget(x.def, q, t.processor.Some?, x.brings(t), e);
    var have := most + x.brings(t);
    assert FatalRest(x, z, have);
    WaitingState(x, z);
    if t.processor.Some? {
      forall env, s: Sys | Quiet(env) && Acts(env, s.tick, Fail(cause)) && Ready(x, s, q, have, fails)
        ensures var r := TakeExternal(x.cfg, env, s, t); Ready(x, r.sys, z, have, After(q, z, fails)) && r.sys.tick == s.tick + 1
      {
        TakeBreaks(x, env, s, q, t, cause, z, have, fails);
      }
      assert RestDoomed(x, z, have, After(q, z, fails));
      ToRestBack(x, q, t, most, fails, Fail(cause), z, have, After(q, z, fails));
    } else {
      RejectionsBack(x, q, t, z, have, fails);
      RestDoomedMore(x, q, most, have, fails);
    }
  }

  lemma ResumeMoveBack(x: Setting, q: State, t: Transition, most: set<Key>, fails: nat)
    requires Proper(x) && t in x.def.ExternalsFrom(q) && FatalRun(x, t.to, most + x.brings(t) + Granted(t))
    ensures RestDoomed(x, q, most, fails)
  {
    var have := most + x.brings(t);
    forall env, s: Sys | Quiet(env) && Acts(env, s.tick, PASS) && Ready(x, s, q, have, fails)
      ensures ChainsOn(x, env, TakeExternal(x.cfg, env, s, t), t.to, have + Granted(t), After(q, t.to, fails), s.tick + 1)
    {
      TakeMoves(x, env, s, q, t, have, fails);
    }
    ToRunBack(x, q, t, most, fails, PASS, t.to, have + Granted(t), After(q, t.to, fails));
  }

  /** The guard, or the processor after it, lacks a key. */
  lemma ResumeNeedBack(x: Setting, q: State, t: Transition, g: Guard, k: Key, most: set<Key>, fails: nat)
    requires Proper(x) && t in x.def.ExternalsFrom(q) && t.guard == Some(g)
    requires var have := most + x.brings(t);
      || (k in g.requires_ && k !in have)
      || (t.processor.Some? && k in t.processor.value.requires_ && k !in have + KeySet(g.produces))
    ensures RestDoomed(x, q, most, fails)
  {
    var have := most + x.brings(t);
    forall env, s: Sys | Quiet(env) && Acts(env, s.tick, PASS) && Ready(x, s, q, have, fails)
      ensures Wrong(TakeExternal(x.cfg, env, s, t).sys)
    {
      if k in g.requires_ && k !in have {
        WrongCall(s, g.requires_, k);
        WrongGuard(x.cfg, env, s, t, g);
      } else {
        LacksProcessor(x, env, s, q, t, g, k, have, fails);
      }
    }
    ToWrongBack(x, q, t, most, fails, PASS);
  }

  lemma LacksProcessor(x: Setting, env: Env, s: Sys, q: State, t: Transition, g: Guard, k: Key, have: set<Key>, fails: nat)
    requires SubFlowFree(x.def) && Acts(env, s.tick, PASS) && Ready(x, s, q, have, fails) && t.guard == Some(g)
    requires t.processor.Some? && k in t.processor.value.requires_ && k !in have + KeySet(g.produces)
    ensures Wrong(TakeExternal(x.cfg, env, s, t).sys)
  {
    var p := t.processor.value;
    var called := Called(s, g.requires_);
    var data := Fill(KeySet(g.produces));
    WrongCall(called.(flow := s.flow.(ctx := s.flow.ctx + data)), p.requires_, k);
    WrongProcessor(x.cfg, env, called, t, g.name, data, p);
    assert TakeExternal(x.cfg, env, s, t) == Accept(x.cfg, env, called, t, g.name, data);
  }

  lemma ResumeBack(x: Setting, q: State, t: Transition, e: Edge<Pos>, most: set<Key>, fails: nat)
    requires Proper(x) && q in x.def.states && t in x.def.ExternalsFrom(q)
    requires e in ResumeEdges(x.def, x.brings, q, t) && Bad(x, e, most)
    ensures RestDoomed(x, q, most, fails)
  {
    match t.guard
    case None =>
      assert e == To(Running([t.to]), x.brings(t));
      assert most + e.gain == most + x.brings(t) + Granted(t);
      ResumeMoveBack(x, q, t, most, fails);
    case Some(g) =>
      if e in FailureEdges(x.def, [], x.def, q, t.processor.Some?, x.brings(t)) {
        ResumeFailureBack(x, q, t, e, most, fails);
      } else if Fatal(x, e.target, most + e.gain) {
        assert most + e.gain == most + x.brings(t) + Granted(t);
        ResumeMoveBack(x, q, t, most, fails);
      } else {
        var n :| n in e.needs && n.key !in most + n.given;
        var granted := x.brings(t) + KeySet(g.produces);
        if n in NeedsOf(GuardPart, t, g.requires_, x.brings(t)) {
          NeedKey(GuardPart, t, g.requires_, x.brings(t), n);
        } else {
          NeedKey(ProcessorPart, t, t.processor.value.requires_, granted, n);
          assert most + granted == most + x.brings(t) + KeySet(g.produces);
        }
        ResumeNeedBack(x, q, t, g, n.key, most, fails);
      }
  }

  // ---------- from the edge back to the start ----------

  lemma ChainEdgeBack(x: Setting, q: State, e: Edge<Pos>, most: set<Key>)
    requires Proper(x) && q in x.def.states && e in ChainEdges(x.def, [], x.def, q) && Bad(x, e, most)
    ensures FatalRun(x, q, most)
  {
    FlatLinks(x.def, q);
    var ts := x.def.TransitionsFrom(q);
    FirstChainedIn(ts);
    assert !x.def.Terminal(q) && FirstChained(ts).Some?;
    var t := FirstChained(ts).value;
    LeavingIn(x.def.transitions, q, t);
    assert WellFormed(t);
    if e in FailureEdges(x.def, [], x.def, q, true, {}) {
      FailureBack(x, q, t, e, most);
    } else if t.kind == Auto {
      assert [] + [t.to] == [t.to];
      AutoBack(x, q, t, e, most);
    } else {
      BranchEdgeBack(x, q, t, e, most);
    }
  }

  lemma BranchEdgeBack(x: Setting, q: State, t: Transition, e: Edge<Pos>, most: set<Key>)
    requires Proper(x) && Runs(x, q, t) && t.kind == Branch && t.branch.Some? && Bad(x, e, most)
    requires e in BranchEdges(x.def, [], x.def, q, t) && e !in FailureEdges(x.def, [], x.def, q, true, {})
    ensures FatalRun(x, q, most)
  {
    if e in ArmEdges([], x.def, q, t, t.branchTargets.Keys) {
      ArmIsEdge([], x.def, q, t, t.branchTargets.Keys, e);
      var l :| l in t.branchTargets.Keys && e == ArmEdge([], x.def, q, t, l);
      ArmBack(x, q, t, l, e, most);
    } else {
      assert [] + [q] == [q];
      AskBack(x, q, t, e, most);
    }
  }

  lemma RunningBack(x: Setting, q: State, e: Edge<Pos>, most: set<Key>)
    requires Proper(x) && q in x.def.states && e in RunningEdges(x.def, [], q) && Bad(x, e, most)
    ensures FatalRun(x, q, most)
  {
    assert [] + [q] == [q];
    if e in ChainEdges(x.def, [], x.def, q) {
      ChainEdgeBack(x, q, e, most);
    } else {
      assert e == To(Resting([q]), {}) && most + {} == most;
      HaltBack(x, q, most);
    }
  }

  lemma RestingBack(x: Setting, q: State, e: Edge<Pos>, most: set<Key>)
    requires Proper(x) && q in x.def.states && Bad(x, e, most)
    requires e in AllResumeEdges(x.def, x.brings, q, false, x.def.ExternalsFrom(q))
    ensures FatalRest(x, q, most)
  {
    ResumeIsEdge(x.def, x.brings, q, false, x.def.ExternalsFrom(q), e);
    var t :| t in x.def.ExternalsFrom(q) && e in ResumeEdges(x.def, x.brings, q, t);
    forall fails: nat ensures RestDoomed(x, q, most, fails) { ResumeBack(x, q, t, e, most, fails); }
  }

  /** An edge that goes wrong, or leads where things will, dooms the position it leaves. */
  lemma EdgeBack(x: Setting, pos: Pos, e: Edge<Pos>, most: set<Key>)
    requires Proper(x) && pos in Positions(x.def) && e in EdgesAt(x.def, x.brings, pos) && Bad(x, e, most)
    ensures Fatal(x, pos, most)
  {
    FlatPath(x.def, pos);
    var q := pos.path[0];
    assert pos.path[..0] == [];
    match pos
    case Running(_) => RunningBack(x, q, e, most);
    case Resting(_) => RestingBack(x, q, e, most);
  }

  lemma {:induction false} PathBack(x: Setting, init: Pos, given: set<Key>, p: Path<Pos>, q: Pos)
    requires Proper(x) && AllBuilt(x.def) && init in Positions(x.def)
    requires Leads(EngineGraph(x.def, x.brings), init, p, q) && Fatal(x, q, given + Gathered(p))
    ensures Fatal(x, init, given)
  {
    match p
    case Here => assert given + Gathered(p) == given;
    case Then(prefix, from, e) =>
      PathsStay(x.def, x.brings, init, prefix, from);
      assert given + Gathered(p) == given + Gathered(prefix) + e.gain;
      EdgeBack(x, from, e, given + Gathered(prefix));
      PathBack(x, init, given, prefix, from);
  }

  lemma RejectedIsFatal(x: Setting)
    requires Proper(x) && AllBuilt(x.def) && !EngineCheckAccepts(x.def, x.brings)
    ensures Fatal(x, Initial(x.def), Initially(x.def))
  {
    var g, init, given := EngineGraph(x.def, x.brings), Initial(x.def), Initially(x.def);
    InitialIsPosition(x.def, x.brings);
    IntersectionAcceptsIffPathsProvide(g, init, given);
    var p, q, e, n :| Leads(g, init, p, q) && e in EdgesFrom(g, q) && n in e.needs && n.key !in given + Gathered(p) + n.given;
    PathsStay(x.def, x.brings, init, p, q);
    EdgeBack(x, q, e, given + Gathered(p));
    PathBack(x, init, given, p, q);
  }

  // ---------- a run that goes wrong ----------

  /** The cues are played from tick 1 on. */
  function CueAt(cs: seq<Cue>, n: nat): Cue { if 1 <= n <= |cs| then cs[n - 1] else PASS }

  function Scripted(cs: seq<Cue>): Env {
    Env(
      (p: Processor, ctx: Ctx, n: nat) => Outcome(CueAt(cs, n), p),
      (g: Guard, ctx: Ctx, n: nat) => Verdict(CueAt(cs, n), g),
      (b: Brancher, ctx: Ctx, n: nat) => Answer(CueAt(cs, n)),
      (d: FlowDef, s: State, ctx: Ctx, n: nat) => map[],
      (d: FlowDef, s: State, ctx: Ctx, n: nat) => map[],
      (cause: string, c: string) => cause == "!" + c,
      (n: nat) => 0)
  }

  lemma ScriptedPlays(cs: seq<Cue>)
    ensures Quiet(Scripted(cs)) && Plays(Scripted(cs), 1, cs)
  {
    var env := Scripted(cs);
    forall i | 0 <= i < |cs| ensures Acts(env, 1 + i, cs[i]) { assert CueAt(cs, 1 + i) == cs[i]; }
  }

  lemma ScriptedIsHonest(cfg: Config, cs: seq<Cue>, def: FlowDef)
    ensures Trusted(cfg, Scripted(cs), def)
  {
    var env := Scripted(cs);
    forall p: Processor ensures Puts(env, p) {
      forall ctx: Ctx, n: nat | env.process(p, ctx, n).Returned?
        ensures KeySet(p.produces) <= (ctx + env.process(p, ctx, n).puts).Keys {
        assert env.process(p, ctx, n) == Outcome(CueAt(cs, n), p);
      }
    }
    forall g: Guard ensures Grants(env, g) {
      forall ctx: Ctx, n: nat | env.validate(g, ctx, n).Accepted?
        ensures KeySet(g.produces) <= (ctx + env.validate(g, ctx, n).data).Keys {
        assert env.validate(g, ctx, n) == Verdict(CueAt(cs, n), g);
      }
    }
  }

  /** The store holds the flow. */
  ghost predicate Stores(w: World, s: Sys) {
    s.id in w.flows && w.flows[s.id] == s.flow && w.tick == s.tick && w.log == s.log && w.calls == s.calls
  }

  lemma {:induction false} DoomedRun(x: Setting, env: Env, evs: seq<Event>, s: Sys, ts: seq<Transition>) returns (all: seq<Event>)
    requires OwedRun(x.cfg, env, evs, x.brings, {x.def}) && Stores(Run(x.cfg, env, evs), s) && Doomed(x, env, s, ts)
    ensures OwedRun(x.cfg, env, all, x.brings, {x.def}) && !Supplied(Run(x.cfg, env, all).calls)
    decreases |ts|
  {
    if ts == [] {
      all := evs;
    } else {
      var data := Fill(x.brings(ts[0]));
      var ev := ResumeFlow(s.id, data);
      OwedSnoc(x.cfg, env, evs, ev, x.brings, {x.def});
      RunSnoc(x.cfg, env, evs, ev);
      var w := Run(x.cfg, env, evs);
      assert Sys(s.id, w.flows[s.id], w.tick, w.log, w.calls) == s;
      all := DoomedRun(x, env, evs + [ev], Resume(x.cfg, env, s, data).sys, ts[1..]);
    }
  }

  lemma StartStores(x: Setting, env: Env, data: Ctx) returns (s: Sys)
    requires x.def.initial.Some? && Quiet(env) && x.def.ttl >= 0 && data.Keys == Initially(x.def)
    ensures Ready(x, s, x.def.initial.value, Initially(x.def), 0) && s.tick == 1
    ensures Stores(Run(x.cfg, env, [StartFlow("f", x.def, data)]), Chain(x.cfg, env, s, 0).sys)
  {
    s := Sys("f", Flow(x.def, x.def.initial.value, data, 0, None, 0, x.def.ttl, None), 1, [], []);
    var ev := StartFlow("f", x.def, data);
    assert [] + [ev] == [ev];
    RunSnoc(x.cfg, env, [], ev);
    assert Start(x.cfg, env, "f", x.def, data, 0, [], []) == Chain(x.cfg, env, s, 0);
  }

  /** Rejection is deserved: a rejected definition goes wrong in a run of honest components, with a caller that brings what
    * it owes. */
  lemma RejectedGoesWrong(x: Setting)
    requires Proper(x) && AllBuilt(x.def) && !EngineCheckAccepts(x.def, x.brings)
    ensures exists env, evs ::
      Trusted(x.cfg, env, x.def) && OwedRun(x.cfg, env, evs, x.brings, {x.def})
      && !Supplied(Run(x.cfg, env, evs).calls)
  {
    RejectedIsFatal(x);
    var init := x.def.initial.value;
    assert RunDoomed(x, init, Initially(x.def), 0);
    var cs, ts :| DoomsRun(x, init, Initially(x.def), 0, cs, ts);
    var env, data := Scripted(cs), Fill(Initially(x.def));
    ScriptedPlays(cs);
    ScriptedIsHonest(x.cfg, cs, x.def);
    var s := StartStores(x, env, data);
    FreshChain(x, init, Initially(x.def), 0, cs, ts, env, s);
    var ev := StartFlow("f", x.def, data);
    OwedSnoc(x.cfg, env, [], ev, x.brings, {x.def});
    assert [] + [ev] == [ev];
    var all := DoomedRun(x, env, [ev], Chain(x.cfg, env, s, 0).sys, ts);
  }

  /** Every run of honest components and dutiful callers supplies every component it calls. */
  ghost predicate KeepsItsPromise(x: Setting) {
    forall env, evs | Trusted(x.cfg, env, x.def) && OwedRun(x.cfg, env, evs, x.brings, {x.def}) ::
      Supplied(Run(x.cfg, env, evs).calls)
  }

  /** The engine check is exact about runs. */
  lemma PromiseIffEngineCheck(x: Setting)
    requires Proper(x)
    ensures AllBuilt(x.def) && (KeepsItsPromise(x) <==> EngineCheckAccepts(x.def, x.brings))
  {
    FlatIsBuilt(x.def);
    if EngineCheckAccepts(x.def, x.brings) {
      forall env, evs | Trusted(x.cfg, env, x.def) && OwedRun(x.cfg, env, evs, x.brings, {x.def})
        ensures Supplied(Run(x.cfg, env, evs).calls)
      {
        EngineCheckedRunsAreSafe(x.cfg, env, evs, x.brings, {x.def});
      }
    } else {
      RejectedGoesWrong(x);
    }
  }
}
