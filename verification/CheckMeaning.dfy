/** What the requires/produces check decides, in terms of the declarations themselves. */
module CheckMeaning {
  import opened Definition
  import opened DataFlow
  import opened DataFlowProofs
  import opened RequiresProduces

  // ---------- what is asked of one transition ----------

  /** What a guard finds: what its state guarantees, and on an external transition what events are declared to bring. */
  ghost function Arriving(def: FlowDef, t: Transition, have: set<Key>): set<Key> {
    if t.kind == External then have + KeySet(def.externallyProvided) else have
  }

  /** What a branch and a processor find: that, and what the guard of their transition produces. */
  ghost function Granted(def: FlowDef, t: Transition, have: set<Key>): set<Key> {
    if t.guard.Some? then Arriving(def, t, have) + KeySet(t.guard.value.produces) else Arriving(def, t, have)
  }

  ghost function Delivered(def: FlowDef, t: Transition, have: set<Key>): set<Key> {
    if t.processor.Some? then Granted(def, t, have) + KeySet(t.processor.value.produces) else Granted(def, t, have)
  }

  /** Guard, branch and processor of `t` find what they require. */
  ghost predicate PartsFed(def: FlowDef, t: Transition, have: set<Key>) {
    && (t.guard.Some? ==> KeySet(t.guard.value.requires_) <= Arriving(def, t, have))
    && (t.branch.Some? ==> KeySet(t.branch.value.requires_) <= Granted(def, t, have))
    && (t.processor.Some? ==> KeySet(t.processor.value.requires_) <= Granted(def, t, have))
  }

  ghost predicate NoMoreThan(m: Avail<State>, s: State, have: set<Key>) { s in m && m[s] <= have }

  /** Where `t` leads, no more is expected than it delivers; where its processor may fail, no more than the state has and
    * the guard produces. */
  ghost predicate TargetsFed(def: FlowDef, m: Avail<State>, t: Transition, have: set<Key>) {
    && NoMoreThan(m, t.to, Delivered(def, t, have))
    && (t.processor.Some? && t.from in def.errorTransitions ==>
          NoMoreThan(m, def.errorTransitions[t.from], if t.guard.Some? then have + KeySet(t.guard.value.produces) else have))
  }

  ghost predicate AllPartsFed(def: FlowDef, m: Avail<State>) {
    forall t | t in def.transitions && t.from in m :: PartsFed(def, t, m[t.from])
  }

  ghost predicate AllTargetsFed(def: FlowDef, m: Avail<State>) {
    forall t | t in def.transitions && t.from in m :: TargetsFed(def, m, t, m[t.from])
  }

  // ---------- one edge ----------

  ghost predicate AllKnown(needs: seq<Need>, have: set<Key>) { forall n | n in needs :: n.key in have + n.given }

  lemma KnownAppend(a: seq<Need>, b: seq<Need>, have: set<Key>)
    ensures AllKnown(a + b, have) <==> AllKnown(a, have) && AllKnown(b, have)
  {
    if AllKnown(a + b, have) {
      forall n | n in a ensures n.key in have + n.given { assert n in a + b; }
      forall n | n in b ensures n.key in have + n.given { assert n in a + b; }
    }
  }

  /** The needs of an edge are met exactly when the parts of its transition find what they require. */
  lemma EdgeFed(def: FlowDef, t: Transition, have: set<Key>)
    ensures AllKnown(NormalEdge(def, t).needs, have) <==> PartsFed(def, t, have)
  {
    KnownAppend(GuardNeeds(def, t) + BranchNeeds(def, t), ProcessorNeeds(def, t), have);
    KnownAppend(GuardNeeds(def, t), BranchNeeds(def, t), have);
    var granted := Injected(def, t) + GuardProduces(t);
    assert have + Injected(def, t) == Arriving(def, t, have) && have + granted == Granted(def, t, have);
    if t.guard.Some? { NeedsMean(GuardPart, t, t.guard.value.requires_, Injected(def, t), have); }
    if t.branch.Some? { NeedsMean(BranchPart, t, t.branch.value.requires_, granted, have); }
    if t.processor.Some? { NeedsMean(ProcessorPart, t, t.processor.value.requires_, granted, have); }
  }

  lemma EdgeDelivers(def: FlowDef, t: Transition, have: set<Key>)
    ensures have + NormalEdge(def, t).gain == Delivered(def, t, have)
  {}

  // ---------- the graph of the check ----------

  lemma EdgesOfState(def: FlowDef, s: State, e: Edge<State>)
    requires WellTyped(def)
    ensures e in EdgesFrom(CheckerGraph(def), s) <==> exists t | t in def.transitions :: t.from == s && EdgeOf(def, t, e)
  {
    var ts := def.TransitionsFrom(s);
    CheckedEdgeOf(def, ts, e);
    forall t ensures t in ts <==> t in def.transitions && t.from == s { LeavingIn(def.transitions, s, t); }
  }

  lemma EdgesOf(def: FlowDef, t: Transition)
    requires WellTyped(def) && t in def.transitions
    ensures NormalEdge(def, t) in EdgesFrom(CheckerGraph(def), t.from)
    ensures forall e | e in ErrorEdges(def, t) :: e in EdgesFrom(CheckerGraph(def), t.from)
  {
    assert EdgeOf(def, t, NormalEdge(def, t));
    EdgesOfState(def, t.from, NormalEdge(def, t));
    forall e | e in ErrorEdges(def, t) ensures e in EdgesFrom(CheckerGraph(def), t.from) {
      assert EdgeOf(def, t, e);
      EdgesOfState(def, t.from, e);
    }
  }

  lemma MetMeansFed(def: FlowDef, m: Avail<State>, t: Transition)
    requires WellTyped(def) && NeedsMet(CheckerGraph(def), m) && t in def.transitions && t.from in m
    ensures PartsFed(def, t, m[t.from])
  {
    EdgesOf(def, t);
    EdgeFed(def, t, m[t.from]);
    assert AllKnown(NormalEdge(def, t).needs, m[t.from]);
  }

  lemma FedMeansMet(def: FlowDef, m: Avail<State>, s: State, e: Edge<State>)
    requires WellTyped(def) && AllPartsFed(def, m) && s in m && e in EdgesFrom(CheckerGraph(def), s)
    ensures AllKnown(e.needs, m[s])
  {
    EdgesOfState(def, s, e);
    var t :| t in def.transitions && t.from == s && EdgeOf(def, t, e);
    OwnNeedsKnown(def, t, m[s], e);
  }

  lemma OwnNeedsKnown(def: FlowDef, t: Transition, have: set<Key>, e: Edge<State>)
    requires PartsFed(def, t, have) && EdgeOf(def, t, e)
    ensures AllKnown(e.needs, have)
  {
    if e == NormalEdge(def, t) { EdgeFed(def, t, have); } else { assert e.needs == []; }
  }

  /** Every need is met exactly when the parts of every transition out of a recorded state are fed. */
  lemma NeedsMetIffFed(def: FlowDef, m: Avail<State>)
    requires WellTyped(def)
    ensures NeedsMet(CheckerGraph(def), m) <==> AllPartsFed(def, m)
  {
    if NeedsMet(CheckerGraph(def), m) {
      forall t | t in def.transitions && t.from in m ensures PartsFed(def, t, m[t.from]) { MetMeansFed(def, m, t); }
    }
    if AllPartsFed(def, m) {
      forall s, e, n | s in m && e in EdgesFrom(CheckerGraph(def), s) && n in e.needs ensures n.key in m[s] + n.given {
        FedMeansMet(def, m, s, e);
      }
    }
  }

  lemma ConsistentMeansFed(def: FlowDef, m: Avail<State>, t: Transition)
    requires WellTyped(def) && EdgeConsistent(CheckerGraph(def), m) && t in def.transitions && t.from in m
    ensures TargetsFed(def, m, t, m[t.from])
  {
    EdgesOf(def, t);
    EdgeDelivers(def, t, m[t.from]);
    assert NormalEdge(def, t).target in m;
    if t.processor.Some? && t.from in def.errorTransitions {
      var e := Edge(def.errorTransitions[t.from], GuardProduces(t), []);
      assert e in ErrorEdges(def, t);
      assert e.target in m && m[e.target] <= m[t.from] + e.gain;
    }
  }

  lemma FedMeansConsistent(def: FlowDef, m: Avail<State>, s: State, e: Edge<State>)
    requires WellTyped(def) && AllTargetsFed(def, m) && s in m && e in EdgesFrom(CheckerGraph(def), s)
    ensures NoMoreThan(m, e.target, m[s] + e.gain)
  {
    EdgesOfState(def, s, e);
    var t :| t in def.transitions && t.from == s && EdgeOf(def, t, e);
    EdgeFits(def, m, t, m[s], e);
  }

  lemma EdgeFits(def: FlowDef, m: Avail<State>, t: Transition, have: set<Key>, e: Edge<State>)
    requires TargetsFed(def, m, t, have) && EdgeOf(def, t, e)
    ensures NoMoreThan(m, e.target, have + e.gain)
  {
    if e == NormalEdge(def, t) {
      EdgeDelivers(def, t, have);
    } else {
      assert e == Edge(def.errorTransitions[t.from], GuardProduces(t), []);
    }
  }

  /** The one-edge check on the graph, read off the declarations. */
  lemma ConsistentIffFed(def: FlowDef, m: Avail<State>)
    requires WellTyped(def)
    ensures EdgeConsistent(CheckerGraph(def), m) <==> AllTargetsFed(def, m)
  {
    if EdgeConsistent(CheckerGraph(def), m) {
      forall t | t in def.transitions && t.from in m ensures TargetsFed(def, m, t, m[t.from]) { ConsistentMeansFed(def, m, t); }
    }
    if AllTargetsFed(def, m) {
      forall s, e | s in m && e in EdgesFrom(CheckerGraph(def), s) ensures e.target in m && m[e.target] <= m[s] + e.gain {
        FedMeansConsistent(def, m, s, e);
      }
    }
  }

  lemma InitialInGraph(def: FlowDef)
    requires WellTyped(def) && def.initial.Some?
    ensures def.initial.value in States(CheckerGraph(def))
  {}

  /** A map of the states that expects nothing at the start but the initial data, and that every transition feeds. */
  ghost predicate FedFromStart(def: FlowDef, m: Avail<State>)
    requires def.initial.Some?
  {
    NoMoreThan(m, def.initial.value, KeySet(def.initiallyAvailable)) && AllPartsFed(def, m) && AllTargetsFed(def, m)
  }

  /** With the join of the comments the check rejects no definition it need not: it accepts exactly when some map of
    * guaranteed keys feeds every part of every transition. */
  lemma IntersectionAcceptsIffFed(def: FlowDef)
    requires WellTyped(def) && def.initial.Some?
    ensures def.initial.value in States(CheckerGraph(def))
    ensures Analyse(Intersection, CheckerGraph(def), def.initial.value, Initially(def)).errors == []
      <==> exists m :: FedFromStart(def, m)
  {
    var g, init, given := CheckerGraph(def), def.initial.value, Initially(def);
    InitialInGraph(def);
    IntersectionIsComplete(g, init, given);
    if m: Avail<State> :| init in m && m[init] <= given && EdgeConsistent(g, m) && NeedsMet(g, m) {
      NeedsMetIffFed(def, m);
      ConsistentIffFed(def, m);
      assert FedFromStart(def, m);
    }
    if m: Avail<State> :| FedFromStart(def, m) {
      NeedsMetIffFed(def, m);
      ConsistentIffFed(def, m);
    }
  }

  /** The sets the check ends with, as written. */
  ghost function Recorded(def: FlowDef): Avail<State>
    requires WellTyped(def) && def.initial.Some?
  {
    InitialInGraph(def);
    Analyse(AsWritten, CheckerGraph(def), def.initial.value, Initially(def)).avail
  }

  /** As written, it accepts exactly when its own final sets feed every part. */
  lemma WrittenAcceptsIffFed(def: FlowDef)
    requires WellTyped(def) && def.initial.Some?
    ensures def.initial.value in States(CheckerGraph(def))
    ensures Analyse(AsWritten, CheckerGraph(def), def.initial.value, Initially(def)).errors == [] <==> AllPartsFed(def, Recorded(def))
  {
    InitialInGraph(def);
    AcceptsIffNeedsMet(AsWritten, CheckerGraph(def), def.initial.value, Initially(def));
    NeedsMetIffFed(def, Recorded(def));
  }
}
