/** Walks in a finite graph of states. */
module Graphs {
  import opened Definition

  type Graph = map<State, set<State>>

  function Succ(g: Graph, s: State): set<State> { if s in g then g[s] else {} }

  /** A walk read from its end: `Step(w, s)` follows `w` to `s` and then one edge out of `s`. */
  datatype Walk = End | Step(prefix: Walk, from: State)

  ghost predicate Walks(g: Graph, a: State, w: Walk, b: State) {
    match w
    case End => a == b
    case Step(q, s) => b in Succ(g, s) && Walks(g, a, q, s)
  }

  ghost predicate Reach(g: Graph, a: State, b: State) { exists w :: Walks(g, a, w, b) }

  /** Some walk with at least one edge returns to where it started. */
  ghost predicate OnCycle(g: Graph, a: State) { exists w: Walk :: w.Step? && Walks(g, a, w, a) }

  ghost predicate Cyclic(g: Graph) { exists a :: OnCycle(g, a) }

  ghost predicate Closed(g: Graph, s: set<State>) { forall x | x in s :: Succ(g, x) <= s }

  function Append(w: Walk, v: Walk): Walk {
    match v
    case End => w
    case Step(q, s) => Step(Append(w, q), s)
  }

  lemma {:induction false} AppendWalks(g: Graph, a: State, w: Walk, b: State, v: Walk, c: State)
    requires Walks(g, a, w, b) && Walks(g, b, v, c)
    ensures Walks(g, a, Append(w, v), c)
  {
    match v
    case End =>
    case Step(q, s) => AppendWalks(g, a, w, b, q, s);
  }

  lemma ReachRefl(g: Graph, a: State)
    ensures Reach(g, a, a)
  {
    assert Walks(g, a, End, a);
  }

  lemma ReachStep(g: Graph, a: State, b: State, c: State)
    requires Reach(g, a, b) && c in Succ(g, b)
    ensures Reach(g, a, c)
  {
    var w :| Walks(g, a, w, b);
    assert Walks(g, a, Step(w, b), c);
  }

  lemma {:induction false} ClosedContainsWalk(g: Graph, s: set<State>, a: State, w: Walk, b: State)
    requires Closed(g, s) && a in s && Walks(g, a, w, b)
    ensures b in s
  {
    match w
    case End =>
    case Step(q, x) => ClosedContainsWalk(g, s, a, q, x);
  }

  lemma ClosedContainsReach(g: Graph, s: set<State>, a: State, b: State)
    requires Closed(g, s) && a in s && Reach(g, a, b)
    ensures b in s
  {
    var w :| Walks(g, a, w, b);
    ClosedContainsWalk(g, s, a, w, b);
  }
}
