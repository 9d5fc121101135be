/** The requires/produces check of the builder and the availability part of the data-flow graph. */
module RequiresProduces {
  import opened Definition
  import opened DataFlow
  import opened DataFlowProofs

  /** What the type parameter `S` demands: every state mentioned is a key of the state configuration. */
  ghost predicate WellTyped(def: FlowDef) {
    && (def.initial.Some? ==> def.initial.value in def.states)
    && (forall t | t in def.transitions :: t.from in def.states && t.to in def.states)
    && (forall s | s in def.errorTransitions :: s in def.states && def.errorTransitions[s] in def.states)
    && (forall s, r | s in def.exceptionRoutes && r in def.exceptionRoutes[s] :: s in def.states && r.target in def.states)
    && (forall t, x | t in def.transitions && t.subFlow.Some? && x in t.subFlow.value.exitMappings ::
          t.subFlow.value.exitMappings[x] in def.states)
  }

  // ---------- the edges the checks follow ----------

  function GuardProduces(t: Transition): set<Key> {
    if t.guard.Some? then KeySet(t.guard.value.produces) else {}
  }

  function ProcessorProduces(t: Transition): set<Key> {
    if t.processor.Some? then KeySet(t.processor.value.produces) else {}
  }

  /** Keys an external event is declared to bring. */
  function Injected(def: FlowDef, t: Transition): set<Key> {
    if t.kind == External then KeySet(def.externallyProvided) else {}
  }

  function NeedsOf(part: Part, t: Transition, ks: seq<Key>, given: set<Key>): seq<Need> {
    if ks == [] then [] else [Need(part, t, ks[0], given)] + NeedsOf(part, t, ks[1..], given)
  }

  lemma {:induction false} NeedsMean(part: Part, t: Transition, ks: seq<Key>, given: set<Key>, have: set<Key>)
    ensures (forall n | n in NeedsOf(part, t, ks, given) :: n.key in have + n.given) <==> KeySet(ks) <= have + given
  {
    if ks != [] {
      NeedsMean(part, t, ks[1..], given, have);
      var first, rest := Need(part, t, ks[0], given), NeedsOf(part, t, ks[1..], given);
      assert NeedsOf(part, t, ks, given) == [first] + rest;
      assert forall n :: n in [first] + rest <==> n == first || n in rest;
      assert KeySet(ks) == {ks[0]} + KeySet(ks[1..]) by { assert ks == [ks[0]] + ks[1..]; }
    }
  }

  function GuardNeeds(def: FlowDef, t: Transition): seq<Need> {
    if t.guard.Some? then NeedsOf(GuardPart, t, t.guard.value.requires_, Injected(def, t)) else []
  }

  function BranchNeeds(def: FlowDef, t: Transition): seq<Need> {
    if t.branch.Some? then NeedsOf(BranchPart, t, t.branch.value.requires_, Injected(def, t) + GuardProduces(t)) else []
  }

  function ProcessorNeeds(def: FlowDef, t: Transition): seq<Need> {
    if t.processor.Some? then NeedsOf(ProcessorPart, t, t.processor.value.requires_, Injected(def, t) + GuardProduces(t)) else []
  }

  function NormalGain(def: FlowDef, t: Transition): set<Key> {
    Injected(def, t) + GuardProduces(t) + ProcessorProduces(t)
  }

  function NormalEdge(def: FlowDef, t: Transition): Edge<State> {
    Edge(t.to, NormalGain(def, t), GuardNeeds(def, t) + BranchNeeds(def, t) + ProcessorNeeds(def, t))
  }

  /** The checker's view of a failing processor: the guard's data is kept. */
  function ErrorEdges(def: FlowDef, t: Transition): seq<Edge<State>> {
    if t.processor.Some? && t.from in def.errorTransitions
    then [Edge(def.errorTransitions[t.from], GuardProduces(t), [])]
    else []
  }

  function CheckedEdges(def: FlowDef, ts: seq<Transition>): seq<Edge<State>> {
    if ts == [] then [] else [NormalEdge(def, ts[0])] + ErrorEdges(def, ts[0]) + CheckedEdges(def, ts[1..])
  }

  /** The graph `checkRequiresProducesFrom` walks. */
  function CheckerGraph(def: FlowDef): FlowGraph<State> {
    map s | s in def.states :: CheckedEdges(def, def.TransitionsFrom(s))
  }

  function PlainEdges(def: FlowDef, ts: seq<Transition>): seq<Edge<State>> {
    if ts == [] then [] else [Edge(ts[0].to, NormalGain(def, ts[0]), [])] + PlainEdges(def, ts[1..])
  }

  /** The graph `DataFlowGraph.build` walks: no error edges, and it reports nothing. */
  function AvailabilityGraph(def: FlowDef): FlowGraph<State> {
    map s | s in def.states :: PlainEdges(def, def.TransitionsFrom(s))
  }

  function Initially(def: FlowDef): set<Key> { KeySet(def.initiallyAvailable) }

  /** `e` is one of the edges the check follows for `t`. */
  ghost predicate EdgeOf(def: FlowDef, t: Transition, e: Edge<State>) { e == NormalEdge(def, t) || e in ErrorEdges(def, t) }

  lemma CheckedCons(def: FlowDef, t: Transition, ts: seq<Transition>, e: Edge<State>)
    ensures e in CheckedEdges(def, [t] + ts) <==> EdgeOf(def, t, e) || e in CheckedEdges(def, ts)
  {
    assert ([t] + ts)[0] == t && ([t] + ts)[1..] == ts;
  }

  lemma {:induction false} CheckedEdgeOf(def: FlowDef, ts: seq<Transition>, e: Edge<State>)
    ensures e in CheckedEdges(def, ts) <==> exists t | t in ts :: EdgeOf(def, t, e)
  {
    if ts != [] {
      CheckedEdgeOf(def, ts[1..], e);
      assert ts == [ts[0]] + ts[1..];
      CheckedCons(def, ts[0], ts[1..], e);
      assert forall t :: t in ts <==> t == ts[0] || t in ts[1..];
    }
  }

  lemma {:induction false} PlainEdgeOf(def: FlowDef, ts: seq<Transition>, e: Edge<State>)
    ensures e in PlainEdges(def, ts) <==> exists t | t in ts :: e == Edge(t.to, NormalGain(def, t), [])
  {
    if ts != [] {
      PlainEdgeOf(def, ts[1..], e);
      assert ts == [ts[0]] + ts[1..];
      assert forall t :: t in ts <==> t == ts[0] || t in ts[1..];
    }
  }

  lemma LaterEdges(def: FlowDef, s: State, k: nat)
    requires s in def.states && k <= |def.TransitionsFrom(s)|
    ensures forall e | e in CheckedEdges(def, def.TransitionsFrom(s)[k..]) :: e in EdgesFrom(CheckerGraph(def), s)
    ensures forall e | e in PlainEdges(def, def.TransitionsFrom(s)[k..]) :: e in EdgesFrom(AvailabilityGraph(def), s)
  {
    var ts := def.TransitionsFrom(s);
    forall e | e in CheckedEdges(def, ts[k..]) ensures e in EdgesFrom(CheckerGraph(def), s) {
      CheckedEdgeOf(def, ts[k..], e);
      CheckedEdgeOf(def, ts, e);
    }
    forall e | e in PlainEdges(def, ts[k..]) ensures e in EdgesFrom(AvailabilityGraph(def), s) {
      PlainEdgeOf(def, ts[k..], e);
      PlainEdgeOf(def, ts, e);
    }
  }

  lemma CheckedEdgesAt(def: FlowDef, s: State)
    requires s in def.states
    ensures s in States(CheckerGraph(def)) && EdgesFrom(CheckerGraph(def), s) == CheckedEdges(def, def.TransitionsFrom(s))
  {}

  lemma OneChecked(def: FlowDef, t: Transition)
    ensures CheckedEdges(def, [t]) == [NormalEdge(def, t)] + ErrorEdges(def, t)
  {
    assert [t][1..] == [];
  }

  lemma TwoChecked(def: FlowDef, t: Transition, u: Transition)
    ensures CheckedEdges(def, [t, u]) == [NormalEdge(def, t)] + ErrorEdges(def, t) + ([NormalEdge(def, u)] + ErrorEdges(def, u))
  {
    assert [t, u][1..] == [u];
    OneChecked(def, u);
  }

  // ---------- the checks as the source runs them ----------

  lemma {:induction false} PushAppend(s: State, have: set<Key>, a: seq<Need>, b: seq<Need>, errors: seq<Missing<State>>)
    ensures Push(s, have, a + b, errors) == Push(s, have, b, Push(s, have, a, errors))
  {
    if a == [] {
      assert a + b == b;
    } else {
      assert (a + b)[0] == a[0] && (a + b)[1..] == a[1..] + b;
      var known := have + a[0].given;
      PushAppend(s, have, a[1..], b, if a[0].key in known then errors else errors + [Missing(s, a[0], known)]);
    }
  }

  lemma FollowCons(g: FlowGraph<State>, keys: set<Key>, s: State, e: Edge<State>, rest: seq<Edge<State>>, st: Progress<State>)
    requires s in st.avail && Bounded(g, keys, st.avail)
    requires e in EdgesFrom(g, s) && forall d | d in rest :: d in EdgesFrom(g, s)
    ensures Follow(AsWritten, g, keys, s, [e] + rest, st)
         == Follow(AsWritten, g, keys, s, rest, Take(AsWritten, g, keys, s, e, st))
  {
    var es := [e] + rest;
    assert es[0] == e && es[1..] == rest;
  }

  lemma {:induction false} FollowAppend(g: FlowGraph<State>, keys: set<Key>, s: State, a: seq<Edge<State>>, b: seq<Edge<State>>, st: Progress<State>)
    requires s in st.avail && Bounded(g, keys, st.avail)
    requires forall e | e in a + b :: e in EdgesFrom(g, s)
    requires forall e | e in a :: e in EdgesFrom(g, s)
    requires forall e | e in b :: e in EdgesFrom(g, s)
    ensures Follow(AsWritten, g, keys, s, a + b, st)
         == Follow(AsWritten, g, keys, s, b, Follow(AsWritten, g, keys, s, a, st))
    decreases |a|
  {
    if a == [] {
      assert a + b == b;
    } else {
      assert (a + b)[0] == a[0] && (a + b)[1..] == a[1..] + b;
      FollowAppend(g, keys, s, a[1..], b, Take(AsWritten, g, keys, s, a[0], st));
    }
  }

  /** What is left of the loop of `checkRequiresProducesFrom` from transition `i` of state `s` on. */
  ghost function CheckRest(def: FlowDef, keys: set<Key>, s: State, i: nat, st: Progress<State>): Progress<State>
    requires s in def.states && i <= |def.TransitionsFrom(s)|
    requires s in st.avail && Bounded(CheckerGraph(def), keys, st.avail)
  {
    LaterEdges(def, s, i);
    Follow(AsWritten, CheckerGraph(def), keys, s, CheckedEdges(def, def.TransitionsFrom(s)[i..]), st)
  }

  ghost function OwnEdges(def: FlowDef, t: Transition): seq<Edge<State>> { [NormalEdge(def, t)] + ErrorEdges(def, t) }

  /** One iteration of the loop: the normal edge, then the error edge if there is one. */
  ghost function FollowOwn(def: FlowDef, keys: set<Key>, s: State, t: Transition, st: Progress<State>): Progress<State>
    requires s in st.avail && Bounded(CheckerGraph(def), keys, st.avail)
    requires NormalEdge(def, t) in EdgesFrom(CheckerGraph(def), s)
    requires forall e | e in ErrorEdges(def, t) :: e in EdgesFrom(CheckerGraph(def), s)
  {
    var g := CheckerGraph(def);
    Follow(AsWritten, g, keys, s, ErrorEdges(def, t), Take(AsWritten, g, keys, s, NormalEdge(def, t), st))
  }

  lemma CheckStep(def: FlowDef, keys: set<Key>, s: State, i: nat, st: Progress<State>)
    requires s in def.states && i < |def.TransitionsFrom(s)|
    requires s in st.avail && Bounded(CheckerGraph(def), keys, st.avail)
    ensures var t := def.TransitionsFrom(s)[i];
      && t in def.transitions && t.from == s
      && NormalEdge(def, t) in EdgesFrom(CheckerGraph(def), s)
      && (forall e | e in ErrorEdges(def, t) :: e in EdgesFrom(CheckerGraph(def), s))
      && CheckRest(def, keys, s, i, st) == CheckRest(def, keys, s, i + 1, FollowOwn(def, keys, s, t, st))
  {
    var ts := def.TransitionsFrom(s);
    LeavingIn(def.transitions, s, ts[i]);
    LaterEdges(def, s, i);
    LaterEdges(def, s, i + 1);
    assert ts[i..][1..] == ts[i + 1..];
    var later := CheckedEdges(def, ts[i + 1..]);
    assert CheckedEdges(def, ts[i..]) == OwnEdges(def, ts[i]) + later;
    forall e | e in OwnEdges(def, ts[i]) ensures e in EdgesFrom(CheckerGraph(def), s) {
      assert e in OwnEdges(def, ts[i]) + later;
    }
    FollowAppend(CheckerGraph(def), keys, s, OwnEdges(def, ts[i]), later, st);
    FollowCons(CheckerGraph(def), keys, s, NormalEdge(def, ts[i]), ErrorEdges(def, ts[i]), st);
  }

  ghost function TraverseRest(def: FlowDef, keys: set<Key>, s: State, i: nat, st: Progress<State>): Progress<State>
    requires s in def.states && i <= |def.TransitionsFrom(s)|
    requires s in st.avail && Bounded(AvailabilityGraph(def), keys, st.avail)
  {
    LaterEdges(def, s, i);
    Follow(AsWritten, AvailabilityGraph(def), keys, s, PlainEdges(def, def.TransitionsFrom(s)[i..]), st)
  }

  lemma TraverseStep(def: FlowDef, keys: set<Key>, s: State, i: nat, st: Progress<State>)
    requires s in def.states && i < |def.TransitionsFrom(s)|
    requires s in st.avail && Bounded(AvailabilityGraph(def), keys, st.avail)
    ensures var t := def.TransitionsFrom(s)[i];
      var e := Edge(t.to, NormalGain(def, t), []);
      && t in def.transitions && t.from == s
      && e in EdgesFrom(AvailabilityGraph(def), s) && e.target in States(AvailabilityGraph(def)) && st.avail[s] + e.gain <= keys
      && TraverseRest(def, keys, s, i, st)
         == TraverseRest(def, keys, s, i + 1, Take(AsWritten, AvailabilityGraph(def), keys, s, e, st))
  {
    var ts := def.TransitionsFrom(s);
    LeavingIn(def.transitions, s, ts[i]);
    LaterEdges(def, s, i);
    LaterEdges(def, s, i + 1);
    assert ts[i..][1..] == ts[i + 1..];
    var es := PlainEdges(def, ts[i..]);
    assert es[0] == Edge(ts[i].to, NormalGain(def, ts[i]), []) && es[1..] == PlainEdges(def, ts[i + 1..]);
    EdgeTargets(AvailabilityGraph(def), s, es[0]);
  }

  /** `checkRequiresProduces` with its mutable map and error list. */
  class RequiresProducesCheck {
    const def: FlowDef
    var stateAvailable: Avail<State>
    var errors: seq<Missing<State>>

    constructor (def: FlowDef)
      ensures this.def == def && stateAvailable == map[] && errors == []
    {
      this.def := def;
      stateAvailable := map[];
      errors := [];
    }

    function Now(): Progress<State>
      reads this
    {
      Progress(stateAvailable, errors)
    }

    /** Pushes one error per required key that is not in `available + given`. */
    method Require(state: State, part: Part, t: Transition, keys: seq<Key>, available: set<Key>, given: set<Key>)
      modifies this`errors
      ensures errors == Push(state, available, NeedsOf(part, t, keys, given), old(errors))
    {
      var i := 0;
      while i < |keys|
        invariant 0 <= i <= |keys|
        invariant Push(state, available, NeedsOf(part, t, keys[i..], given), errors)
               == Push(state, available, NeedsOf(part, t, keys, given), old(errors))
      {
        assert keys[i..][1..] == keys[i + 1..];
        if keys[i] !in available + given {
          errors := errors + [Missing(state, Need(part, t, keys[i], given), available + given)];
        }
        i := i + 1;
      }
      assert keys[i..] == [];
    }

    /** The needs of one transition, in the order guard, branch, processor. */
    method RequireAll(t: Transition, state: State, available: set<Key>)
      modifies this`errors
      ensures errors == Push(state, available, NormalEdge(def, t).needs, old(errors))
    {
      var given := Injected(def, t);
      if t.guard.Some? {
        Require(state, GuardPart, t, t.guard.value.requires_, available, given);
        given := given + KeySet(t.guard.value.produces);
      }
      assert given == Injected(def, t) + GuardProduces(t);
      if t.branch.Some? {
        Require(state, BranchPart, t, t.branch.value.requires_, available, given);
      }
      if t.processor.Some? {
        Require(state, ProcessorPart, t, t.processor.value.requires_, available, given);
      }
      PushAppend(state, available, GuardNeeds(def, t) + BranchNeeds(def, t), ProcessorNeeds(def, t), old(errors));
      PushAppend(state, available, GuardNeeds(def, t), BranchNeeds(def, t), old(errors));
    }

    /** The call may still settle what is in `todo`: it bounds the recursion, and nothing else. */
    ghost predicate Within(keys: set<Key>, todo: set<Fact<State>>)
      reads this
    {
      Bounded(CheckerGraph(def), keys, stateAvailable) && Open(States(CheckerGraph(def)), keys, stateAvailable) <= todo
    }

    /** One iteration of the loop: the transition itself, then its error path. */
    method CheckTransition(t: Transition, state: State, ghost keys: set<Key>, ghost todo: set<Fact<State>>)
      requires WellTyped(def) && t in def.transitions && t.from == state
      requires state in stateAvailable && Within(keys, todo)
      requires NormalEdge(def, t) in EdgesFrom(CheckerGraph(def), state)
      requires forall e | e in ErrorEdges(def, t) :: e in EdgesFrom(CheckerGraph(def), state)
      modifies this
      ensures Now() == FollowOwn(def, keys, state, t, old(Now()))
      decreases todo, 3
    {
      CheckNormal(t, state, keys, todo);
      RefinesOpen(States(CheckerGraph(def)), keys, stateAvailable, old(stateAvailable));
      CheckErrorPath(t, state, keys, todo);
    }

    method CheckNormal(t: Transition, state: State, ghost keys: set<Key>, ghost todo: set<Fact<State>>)
      requires WellTyped(def) && t.to in def.states
      requires state in stateAvailable && Within(keys, todo)
      requires NormalEdge(def, t) in EdgesFrom(CheckerGraph(def), state)
      modifies this
      ensures Now() == Take(AsWritten, CheckerGraph(def), keys, state, NormalEdge(def, t), old(Now()))
      decreases todo, 2
    {
      RequireAll(t, state, stateAvailable[state]);
      CheckEdge(NormalEdge(def, t), state, keys, todo);
    }

    /** If the processor fails, its produces are not available; the guard's are kept. */
    method CheckErrorPath(t: Transition, state: State, ghost keys: set<Key>, ghost todo: set<Fact<State>>)
      requires WellTyped(def)
      requires state in stateAvailable && Within(keys, todo)
      requires forall e | e in ErrorEdges(def, t) :: e in EdgesFrom(CheckerGraph(def), state)
      modifies this
      ensures Now() == Follow(AsWritten, CheckerGraph(def), keys, state, ErrorEdges(def, t), old(Now()))
      decreases todo, 2
    {
      if t.processor.Some? && t.from in def.errorTransitions {
        ghost var e := ErrorEdges(def, t)[0];
        assert ErrorEdges(def, t) == [e] + [];
        FollowCons(CheckerGraph(def), keys, state, e, [], Now());
        CheckEdge(Edge(def.errorTransitions[t.from], GuardProduces(t), []), state, keys, todo);
      }
    }

    /** The recursive call for one edge, after its needs have been checked. */
    method CheckEdge(e: Edge<State>, state: State, ghost keys: set<Key>, ghost todo: set<Fact<State>>)
      requires WellTyped(def) && e.target in def.states
      requires state in stateAvailable && Within(keys, todo)
      requires e in EdgesFrom(CheckerGraph(def), state)
      modifies this
      ensures e.target in States(CheckerGraph(def)) && old(stateAvailable)[state] + e.gain <= keys
      ensures Now() == Visit(AsWritten, CheckerGraph(def), keys, e.target, old(stateAvailable)[state] + e.gain, old(Now()))
      decreases todo, 1
    {
      EdgeTargets(CheckerGraph(def), state, e);
      CheckFrom(e.target, stateAvailable[state] + e.gain, keys, todo);
    }

    method CheckFrom(state: State, available: set<Key>, ghost keys: set<Key>, ghost todo: set<Fact<State>>)
      requires WellTyped(def) && state in def.states
      requires available <= keys && Within(keys, todo)
      modifies this
      ensures Now() == Visit(AsWritten, CheckerGraph(def), keys, state, available, old(Now()))
      decreases todo, 0
    {
      ghost var g := CheckerGraph(def);
      if state in stateAvailable {
        var existing := stateAvailable[state];
        if available <= existing { return; }
        if existing * available == existing { return; }
        stateAvailable := stateAvailable[state := existing * available];
      } else {
        stateAvailable := stateAvailable[state := available];
      }
      MergeShrinks(AsWritten, States(g), keys, state, available, old(stateAvailable));
      assert stateAvailable == Merge(state, available, old(stateAvailable));
      CheckAll(state, keys, Open(States(g), keys, stateAvailable));
    }

    /** The loop over the transitions of a state whose set was just recorded. */
    method CheckAll(state: State, ghost keys: set<Key>, ghost todo: set<Fact<State>>)
      requires WellTyped(def) && state in def.states
      requires state in stateAvailable && Within(keys, todo)
      modifies this
      ensures Now() == Follow(AsWritten, CheckerGraph(def), keys, state, EdgesFrom(CheckerGraph(def), state), old(Now()))
      decreases todo, 4
    {
      ghost var g, st := CheckerGraph(def), Now();
      var ts := def.TransitionsFrom(state);
      assert ts[0..] == ts;
      LaterEdges(def, state, 0);
      ghost var goal := Follow(AsWritten, g, keys, state, EdgesFrom(g, state), st);
      var i := 0;
      while i < |ts|
        invariant 0 <= i <= |ts|
        invariant state in stateAvailable && Within(keys, todo)
        invariant CheckRest(def, keys, state, i, Now()) == goal
      {
        ghost var before := Now();
        CheckStep(def, keys, state, i, before);
        CheckTransition(ts[i], state, keys, todo);
        RefinesOpen(States(g), keys, stateAvailable, before.avail);
        i := i + 1;
      }
      assert ts[i..] == [];
    }
  }

  /** `checkRequiresProduces`: the errors are those of the analysis with the join as written. */
  method CheckRequiresProduces(def: FlowDef) returns (errors: seq<Missing<State>>)
    requires WellTyped(def)
    ensures def.initial.None? ==> errors == []
    ensures def.initial.Some? ==>
      errors == Analyse(AsWritten, CheckerGraph(def), def.initial.value, Initially(def)).errors
  {
    if def.initial.None? { return []; }
    var check := new RequiresProducesCheck(def);
    ghost var keys := KeysOf(CheckerGraph(def)) + Initially(def);
    check.CheckFrom(def.initial.value, Initially(def), keys, Open(States(CheckerGraph(def)), keys, map[]));
    errors := check.errors;
  }

  /** The recursion of `DataFlowGraph.build` on the map of available types. */
  class AvailabilityBuilder {
    const def: FlowDef
    var stateAvail: Avail<State>

    constructor (def: FlowDef)
      ensures this.def == def && stateAvail == map[]
    {
      this.def := def;
      stateAvail := map[];
    }

    /** The join at the head of the traversal: nothing to do, or a new set is recorded. */
    method Join(state: State, available: set<Key>) returns (settled: bool)
      modifies this`stateAvail
      ensures settled <==> state in old(stateAvail) && Settled(AsWritten, old(stateAvail)[state], available)
      ensures stateAvail == if settled then old(stateAvail) else Merge(state, available, old(stateAvail))
    {
      if state in stateAvail {
        var existing := stateAvail[state];
        if available <= existing { return true; }
        if existing * available == existing { return true; }
        stateAvail := stateAvail[state := existing * available];
      } else {
        stateAvail := stateAvail[state := available];
      }
      settled := false;
    }

    method Traverse(state: State, available: set<Key>, ghost keys: set<Key>)
      requires WellTyped(def) && state in def.states
      requires available <= keys && Bounded(AvailabilityGraph(def), keys, stateAvail)
      modifies this
      ensures Progress(stateAvail, []) == Visit(AsWritten, AvailabilityGraph(def), keys, state, available, Progress(old(stateAvail), []))
      decreases Open(States(AvailabilityGraph(def)), keys, stateAvail), 0
    {
      var settled := Join(state, available);
      if settled { return; }
      MergeShrinks(AsWritten, States(AvailabilityGraph(def)), keys, state, available, old(stateAvail));
      FollowAll(state, keys);
    }

    /** The loop over the transitions of a state. */
    method FollowAll(state: State, ghost keys: set<Key>)
      requires WellTyped(def) && state in def.states
      requires state in stateAvail && Bounded(AvailabilityGraph(def), keys, stateAvail)
      modifies this
      ensures Progress(stateAvail, []) ==
        Follow(AsWritten, AvailabilityGraph(def), keys, state, EdgesFrom(AvailabilityGraph(def), state), Progress(old(stateAvail), []))
      decreases Open(States(AvailabilityGraph(def)), keys, stateAvail), 1
    {
      ghost var g, m := AvailabilityGraph(def), stateAvail;
      var ts := def.TransitionsFrom(state);
      assert ts[0..] == ts;
      LaterEdges(def, state, 0);
      ghost var goal := TraverseRest(def, keys, state, 0, Progress(m, []));
      var i := 0;
      while i < |ts|
        invariant 0 <= i <= |ts|
        invariant state in stateAvail && Bounded(g, keys, stateAvail) && Refines(stateAvail, m)
        invariant TraverseRest(def, keys, state, i, Progress(stateAvail, [])) == goal
      {
        var t := ts[i];
        TraverseStep(def, keys, state, i, Progress(stateAvail, []));
        RefinesOpen(States(g), keys, stateAvail, m);
        Traverse(t.to, stateAvail[state] + NormalGain(def, t), keys);
        i := i + 1;
      }
      assert ts[i..] == [];
    }
  }

  /** `DataFlowGraph.build(...).availableAt`, as a map. */
  method BuildAvailability(def: FlowDef) returns (availableAt: Avail<State>)
    requires WellTyped(def)
    ensures def.initial.None? ==> availableAt == map[]
    ensures def.initial.Some? ==>
      availableAt == Analyse(AsWritten, AvailabilityGraph(def), def.initial.value, Initially(def)).avail
  {
    if def.initial.None? { return map[]; }
    var builder := new AvailabilityBuilder(def);
    builder.Traverse(def.initial.value, Initially(def), KeysOf(AvailabilityGraph(def)) + Initially(def));
    availableAt := builder.stateAvail;
  }
}
