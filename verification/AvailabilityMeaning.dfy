/** What the data-flow graph calls available: what the check records once error transitions are left out. */
module AvailabilityMeaning {
  import opened Definition
  import opened DataFlow
  import opened DataFlowProofs
  import opened RequiresProduces

  // ---------- graphs that differ in their needs only ----------

  ghost predicate AlikeEdges<N>(es: seq<Edge<N>>, fs: seq<Edge<N>>) {
    |es| == |fs| && forall i | 0 <= i < |es| :: es[i].target == fs[i].target && es[i].gain == fs[i].gain
  }

  ghost predicate Alike<N>(g: FlowGraph<N>, h: FlowGraph<N>) {
    g.Keys == h.Keys && forall s | s in g :: AlikeEdges(g[s], h[s])
  }

  lemma AlikeSets<N>(g: FlowGraph<N>, h: FlowGraph<N>)
    requires Alike(g, h)
    ensures States(g) == States(h) && KeysOf(g) == KeysOf(h)
  {
    forall s, i | s in g && 0 <= i < |g[s]| ensures g[s][i].target == h[s][i].target && g[s][i].gain == h[s][i].gain {
      assert AlikeEdges(g[s], h[s]);
    }
    forall s | s in h ensures |h[s]| == |g[s]| { assert AlikeEdges(g[s], h[s]); }
    forall z | z in States(g) ensures z in States(h) {
      if z !in g {
        var s, i :| s in g && 0 <= i < |g[s]| && g[s][i].target == z;
        assert h[s][i].target == z;
      }
    }
    forall z | z in States(h) ensures z in States(g) {
      if z !in h {
        var s, i :| s in h && 0 <= i < |h[s]| && h[s][i].target == z;
        assert g[s][i].target == z;
      }
    }
    forall k | k in KeysOf(g) ensures k in KeysOf(h) {
      var s, i :| s in g && 0 <= i < |g[s]| && k in g[s][i].gain;
      assert k in h[s][i].gain;
    }
    forall k | k in KeysOf(h) ensures k in KeysOf(g) {
      var s, i :| s in h && 0 <= i < |h[s]| && k in h[s][i].gain;
      assert k in g[s][i].gain;
    }
  }

  /** The traversal records the same sets on both; the errors may differ. */
  lemma {:induction false} VisitAlike<N>(join: Join, g: FlowGraph<N>, h: FlowGraph<N>, keys: set<Key>, s: N, available: set<Key>,
                                         a: Progress<N>, b: Progress<N>)
    requires Alike(g, h) && a.avail == b.avail
    requires s in States(g) && s in States(h) && available <= keys && Bounded(g, keys, a.avail) && Bounded(h, keys, b.avail)
    ensures Visit(join, g, keys, s, available, a).avail == Visit(join, h, keys, s, available, b).avail
    decreases Open(States(g), keys, a.avail), 0
  {
    if !(s in a.avail && Settled(join, a.avail[s], available)) {
      AlikeSets(g, h);
      MergeShrinks(join, States(g), keys, s, available, a.avail);
      assert AlikeEdges(EdgesFrom(g, s), EdgesFrom(h, s));
      FollowAlike(join, g, h, keys, s, EdgesFrom(g, s), EdgesFrom(h, s),
        Progress(Merge(s, available, a.avail), a.errors), Progress(Merge(s, available, b.avail), b.errors));
    }
  }

  lemma {:induction false} FollowAlike<N>(join: Join, g: FlowGraph<N>, h: FlowGraph<N>, keys: set<Key>, s: N,
                                          es: seq<Edge<N>>, fs: seq<Edge<N>>, a: Progress<N>, b: Progress<N>)
    requires Alike(g, h) && AlikeEdges(es, fs) && a.avail == b.avail
    requires s in a.avail && Bounded(g, keys, a.avail) && Bounded(h, keys, b.avail)
    requires (forall e | e in es :: e in EdgesFrom(g, s)) && (forall e | e in fs :: e in EdgesFrom(h, s))
    ensures Follow(join, g, keys, s, es, a).avail == Follow(join, h, keys, s, fs, b).avail
    decreases Open(States(g), keys, a.avail), 1 + |es|
  {
    if es != [] {
      var e, f, have := es[0], fs[0], a.avail[s];
      EdgeTargets(g, s, e);
      EdgeTargets(h, s, f);
      VisitAlike(join, g, h, keys, e.target, have + e.gain,
        Progress(a.avail, Push(s, have, e.needs, a.errors)), Progress(b.avail, Push(s, have, f.needs, b.errors)));
      var first, other := Take(join, g, keys, s, e, a), Take(join, h, keys, s, f, b);
      RefinesOpen(States(g), keys, first.avail, a.avail);
      FollowAlike(join, g, h, keys, s, es[1..], fs[1..], first, other);
    }
  }

  lemma AnalyseAlike<N(!new)>(join: Join, g: FlowGraph<N>, h: FlowGraph<N>, init: N, given: set<Key>)
    requires Alike(g, h) && init in States(g)
    ensures init in States(h) && Analyse(join, g, init, given).avail == Analyse(join, h, init, given).avail
  {
    AlikeSets(g, h);
    VisitAlike(join, g, h, KeysOf(g) + given, init, given, Progress(map[], []), Progress(map[], []));
  }

  // ---------- the two graphs of a definition ----------

  function WithoutErrors(def: FlowDef): FlowDef { def.(errorTransitions := map[]) }

  lemma AlikeCons(e: Edge<State>, f: Edge<State>, es: seq<Edge<State>>, fs: seq<Edge<State>>)
    requires e.target == f.target && e.gain == f.gain && AlikeEdges(es, fs)
    ensures AlikeEdges([e] + es, [f] + fs)
  {
    forall i | 0 < i < |es| + 1 ensures ([e] + es)[i] == es[i - 1] && ([f] + fs)[i] == fs[i - 1] {}
  }

  lemma OneEdge(def: FlowDef, ts: seq<Transition>)
    requires ts != []
    ensures CheckedEdges(WithoutErrors(def), ts) == [NormalEdge(WithoutErrors(def), ts[0])] + CheckedEdges(WithoutErrors(def), ts[1..])
  {
    assert ErrorEdges(WithoutErrors(def), ts[0]) == [];
  }

  lemma SameGain(def: FlowDef, t: Transition)
    ensures NormalEdge(WithoutErrors(def), t).target == t.to && NormalEdge(WithoutErrors(def), t).gain == NormalGain(def, t)
  {}

  lemma {:induction false} PlainIsChecked(def: FlowDef, ts: seq<Transition>)
    ensures AlikeEdges(PlainEdges(def, ts), CheckedEdges(WithoutErrors(def), ts))
  {
    if ts != [] {
      PlainIsChecked(def, ts[1..]);
      OneEdge(def, ts);
      SameGain(def, ts[0]);
      AlikeCons(Edge(ts[0].to, NormalGain(def, ts[0]), []), NormalEdge(WithoutErrors(def), ts[0]),
        PlainEdges(def, ts[1..]), CheckedEdges(WithoutErrors(def), ts[1..]));
    }
  }

  /** `availableAt` is what the check records on the definition without its error transitions. */
  lemma AvailabilityIsCheck(def: FlowDef)
    requires WellTyped(def) && def.initial.Some?
    ensures var g, h, init := AvailabilityGraph(def), CheckerGraph(WithoutErrors(def)), def.initial.value;
      && init in States(g) && init in States(h)
      && Analyse(AsWritten, g, init, Initially(def)).avail == Analyse(AsWritten, h, init, Initially(def)).avail
  {
    var g, h := AvailabilityGraph(def), CheckerGraph(WithoutErrors(def));
    forall s | s in g ensures AlikeEdges(g[s], h[s]) { PlainIsChecked(def, def.TransitionsFrom(s)); }
    AnalyseAlike(AsWritten, g, h, def.initial.value, Initially(def));
  }
}
