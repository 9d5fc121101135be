/** The entry contract of a sub-flow: `GuaranteedSubflowValidator`, and what its acceptance is worth to the engine. */
module SubFlowEntry {
  import opened Definition
  import opened DataFlow
  import DataFlowProofs
  import opened RequiresProduces
  import opened EngineMoves
  import opened RunSafety

  // ---------- the validator ----------

  /** `availableAt`: nothing is available at a state the graph does not know. */
  function AvailableAt(graph: Avail<State>, s: State): set<Key> { if s in graph then graph[s] else {} }

  datatype Verdict = Sufficient | NoGraph | NoInitialState | Lacking(missing: seq<Key>)

  /** The parent's keys at `s` and the guaranteed ones cover what the sub-flow's graph lists at its initial state. */
  ghost predicate EntryCovered(parent: Avail<State>, s: State, sub: FlowDef, inner: Avail<State>, guaranteed: set<Key>) {
    sub.initial.Some? && AvailableAt(inner, sub.initial.value) <= AvailableAt(parent, s) + guaranteed
  }

  lemma OneMore(ks: seq<Key>, k: Key)
    requires Distinct(ks) && k !in KeySet(ks)
    ensures Distinct(ks + [k]) && KeySet(ks + [k]) == KeySet(ks) + {k}
  {
    assert forall x :: x in ks + [k] <==> x in ks || x == k;
  }

  method MissingAtEntry(requiredAtEntry: set<Key>, available: set<Key>) returns (missing: seq<Key>)
    ensures Distinct(missing) && KeySet(missing) == requiredAtEntry - available
    ensures missing == [] <==> requiredAtEntry <= available
  {
    var todo := requiredAtEntry;
    missing := [];
    while todo != {}
      invariant todo <= requiredAtEntry
      invariant KeySet(missing) == requiredAtEntry - todo - available
      invariant Distinct(missing)
      decreases |todo|
    {
      var req :| req in todo;
      todo := todo - {req};
      if req !in available {
        OneMore(missing, req);
        missing := missing + [req];
      }
    }
    assert KeySet(missing) == requiredAtEntry - available;
    NothingMissing(missing, requiredAtEntry, available);
  }

  lemma NothingMissing(missing: seq<Key>, required: set<Key>, available: set<Key>)
    requires KeySet(missing) == required - available
    ensures missing == [] <==> required <= available
  {
    if missing != [] { assert missing[0] in KeySet(missing); }
    if missing == [] {
      forall k | k in required ensures k in available { assert k !in KeySet(missing); }
    }
  }

  /** `validate`, with the graphs the two definitions carry. */
  method Validate(parent: Option<Avail<State>>, parentState: State, sub: FlowDef, inner: Option<Avail<State>>, guaranteed: set<Key>)
    returns (v: Verdict)
    ensures v.NoGraph? <==> parent.None? || inner.None?
    ensures v.NoInitialState? <==> parent.Some? && inner.Some? && sub.initial.None?
    ensures v.Sufficient? <==>
      parent.Some? && inner.Some? && EntryCovered(parent.value, parentState, sub, inner.value, guaranteed)
    ensures v.Lacking? ==>
      && Distinct(v.missing)
      && KeySet(v.missing)
           == AvailableAt(inner.value, sub.initial.value) - (AvailableAt(parent.value, parentState) + guaranteed)
  {
    if parent.None? || inner.None? { return NoGraph; }
    var available := AvailableAt(parent.value, parentState) + guaranteed;
    if sub.initial.None? { return NoInitialState; }
    var missing := MissingAtEntry(AvailableAt(inner.value, sub.initial.value), available);
    if |missing| > 0 { return Lacking(missing); }
    return Sufficient;
  }

  // ---------- what the graphs say ----------

  /** `availableAt` of the graph a definition carries. */
  ghost function GraphOf(d: FlowDef): Avail<State>
    requires WellTyped(d)
  {
    if d.initial.None? then map[]
    else DataFlowProofs.Analyse(AsWritten, AvailabilityGraph(d), d.initial.value, Initially(d)).avail
  }

  /** At its initial state a graph lists exactly the keys declared to be there: nothing can be learnt on the way back. */
  lemma GraphAtStart(d: FlowDef)
    requires WellTyped(d) && d.initial.Some?
    ensures d.initial.value in GraphOf(d) && GraphOf(d)[d.initial.value] == Initially(d)
  {
    var g, init, given := AvailabilityGraph(d), d.initial.value, Initially(d);
    DataFlowProofs.AnalyseFacts(AsWritten, g, init, given);
    forall k | k in given ensures k in GraphOf(d)[init] { DataFlowProofs.NeverBelowMeet(AsWritten, g, init, given, init, k); }
  }

  /** On those graphs the validator asks that the parent's keys at the state, with the guaranteed ones, cover what the
    * sub-flow declares to be there initially. */
  lemma EntryCoveredMeans(parent: Avail<State>, s: State, sub: FlowDef, guaranteed: set<Key>)
    requires WellTyped(sub)
    ensures EntryCovered(parent, s, sub, GraphOf(sub), guaranteed)
      <==> sub.initial.Some? && Initially(sub) <= AvailableAt(parent, s) + guaranteed
  {
    if sub.initial.Some? { GraphAtStart(sub); }
  }

  // ---------- acceptance and the engine ----------

  /** What a plan guarantees in the middle of a chain of the flow below `above`: the graph of its definition. */
  function Slice(m: Cert, above: seq<State>): Avail<State> {
    map s | s in (set q | q in m.Keys && |q.path| == |above| + 1 :: q.path[|above|]) && Running(above + [s]) in m :: m[Running(above + [s])]
  }

  lemma SliceMeans(m: Cert, above: seq<State>, s: State)
    ensures s in Slice(m, above) <==> Running(above + [s]) in m
    ensures s in Slice(m, above) ==> Slice(m, above)[s] == m[Running(above + [s])]
  {
    if Running(above + [s]) in m {
      assert Running(above + [s]).path[|above|] == s;
    }
  }

  /** Types guaranteed on the side are a promise about every context in which the sub-flow is entered. */
  lemma GuaranteeIsAPromise(parent: Avail<State>, s: State, sub: FlowDef, inner: Avail<State>, guaranteed: set<Key>, present: set<Key>)
    requires EntryCovered(parent, s, sub, inner, guaranteed) && AvailableAt(parent, s) <= present
    ensures AvailableAt(inner, sub.initial.value) <= present
      <==> guaranteed * AvailableAt(inner, sub.initial.value) <= present
  {
    var needed := AvailableAt(inner, sub.initial.value);
    if guaranteed * needed <= present {
      forall k | k in needed ensures k in present {
        if k !in AvailableAt(parent, s) { assert k in guaranteed * needed; }
      }
    }
  }
}
