/** Data availability as a must-analysis on a graph whose edges add keys and state needs.
  * `Visit` and `Follow` are the recursive traversal shared by the requires/produces check
  * of the builder and by the construction of the data-flow graph. */
module DataFlow {
  import opened Definition

  datatype Part = GuardPart | BranchPart | ProcessorPart

  /** `key` is needed by a part of `transition`; `given` is what the edge itself provides before that part. */
  datatype Need = Need(part: Part, transition: Transition, key: Key, given: set<Key>)

  datatype Edge<N> = Edge(target: N, gain: set<Key>, needs: seq<Need>)

  type FlowGraph<N> = map<N, seq<Edge<N>>>

  type Avail<N> = map<N, set<Key>>

  /** A "may not be available" error: the need, the state it was raised at and the set shown in the message. */
  datatype Missing<N> = Missing(state: N, need: Need, available: set<Key>)

  /** The mutable state of the check: the recorded sets and the errors pushed so far. */
  datatype Progress<N> = Progress(avail: Avail<N>, errors: seq<Missing<N>>)

  /** AsWritten also returns when the new set is contained in the recorded one. */
  datatype Join = AsWritten | Intersection

  function EdgesFrom<N>(g: FlowGraph<N>, s: N): seq<Edge<N>> { if s in g then g[s] else [] }

  // ---------- paths and what they guarantee ----------

  /** A path read from its end: `Then(p, s, e)` follows `p` to `s` and then takes edge `e`. */
  datatype Path<N> = Here | Then(prefix: Path<N>, from: N, edge: Edge<N>)

  ghost predicate Leads<N>(g: FlowGraph<N>, a: N, p: Path<N>, b: N) {
    match p
    case Here => a == b
    case Then(q, s, e) => e in EdgesFrom(g, s) && e.target == b && Leads(g, a, q, s)
  }

  ghost function Gathered<N>(p: Path<N>): set<Key> {
    match p
    case Here => {}
    case Then(q, _, e) => Gathered(q) + e.gain
  }

  ghost predicate Reaches<N(!new)>(g: FlowGraph<N>, a: N, b: N) {
    exists p :: Leads(g, a, p, b)
  }

  /** Some path from `init` to `s` provides `k` nowhere. */
  ghost predicate Missable<N(!new)>(g: FlowGraph<N>, init: N, given: set<Key>, s: N, k: Key) {
    exists p :: Leads(g, init, p, s) && k !in given + Gathered(p)
  }

  /** `m` is the meet over all paths: its domain is the reachable states and a key is in
    * `m[s]` exactly when every path to `s` provides it. */
  ghost predicate IsMeetOverPaths<N(!new)>(g: FlowGraph<N>, init: N, given: set<Key>, m: Avail<N>) {
    && (forall s :: s in m <==> Reaches(g, init, s))
    && (forall s, k | s in m :: k in m[s] <==> !Missable(g, init, given, s, k))
  }

  // ---------- the traversal ----------

  function States<N>(g: FlowGraph<N>): set<N> {
    g.Keys + set s, i | s in g && 0 <= i < |g[s]| :: g[s][i].target
  }

  function KeysOf<N>(g: FlowGraph<N>): set<Key> {
    set s, i, k | s in g && 0 <= i < |g[s]| && k in g[s][i].gain :: k
  }

  /** The facts not yet ruled out: "s unvisited" and "k may still be recorded at s". It only shrinks. */
  datatype Fact<N> = Unvisited(s: N) | MayHold(s: N, k: Key)

  ghost function Open<N>(states: set<N>, keys: set<Key>, m: Avail<N>): set<Fact<N>> {
    (set s | s in states && s !in m :: Unvisited(s))
    + (set s, k | s in states && k in keys && (s in m ==> k in m[s]) :: MayHold(s, k))
  }

  ghost predicate Bounded<N>(g: FlowGraph<N>, keys: set<Key>, m: Avail<N>) {
    KeysOf(g) <= keys && forall s | s in m :: m[s] <= keys
  }

  /** `m1` extends `m` with new states and only shrinks recorded sets. */
  ghost predicate Refines<N>(m1: Avail<N>, m: Avail<N>) {
    forall s | s in m :: s in m1 && m1[s] <= m[s]
  }

  predicate Settled(join: Join, recorded: set<Key>, available: set<Key>) {
    recorded <= available || (join == AsWritten && available <= recorded)
  }

  /** Pushes an error for each need that `available` and the edge itself leave unmet. */
  function Push<N>(s: N, available: set<Key>, needs: seq<Need>, errors: seq<Missing<N>>): seq<Missing<N>> {
    if needs == [] then errors
    else
      var have := available + needs[0].given;
      Push(s, available, needs[1..], if needs[0].key in have then errors else errors + [Missing(s, needs[0], have)])
  }

  function Merge<N>(s: N, available: set<Key>, m: Avail<N>): Avail<N> {
    m[s := if s in m then m[s] * available else available]
  }

  lemma MergeShrinks<N>(join: Join, states: set<N>, keys: set<Key>, s: N, available: set<Key>, m: Avail<N>)
    requires s in states && available <= keys
    requires forall x | x in m :: m[x] <= keys
    requires !(s in m && Settled(join, m[s], available))
    ensures Open(states, keys, Merge(s, available, m)) < Open(states, keys, m)
  {
    var m1 := Merge(s, available, m);
    if s in m {
      var k :| k in m[s] && k !in available;
      assert MayHold(s, k) in Open(states, keys, m) && MayHold(s, k) !in Open(states, keys, m1);
    } else {
      assert Unvisited(s) in Open(states, keys, m) && Unvisited(s) !in Open(states, keys, m1);
    }
  }

  lemma RefinesOpen<N>(states: set<N>, keys: set<Key>, m1: Avail<N>, m: Avail<N>)
    requires Refines(m1, m)
    ensures Open(states, keys, m1) <= Open(states, keys, m)
  {}

  lemma EdgeTargets<N>(g: FlowGraph<N>, s: N, e: Edge<N>)
    requires e in EdgesFrom(g, s)
    ensures e.target in States(g) && e.gain <= KeysOf(g)
  {
    var i :| 0 <= i < |g[s]| && g[s][i] == e;
  }

  /** Arrival at `s` with `available`; `keys` bounds every set and serves termination only. */
  ghost function Visit<N>(join: Join, g: FlowGraph<N>, keys: set<Key>, s: N, available: set<Key>, st: Progress<N>): (r: Progress<N>)
    requires s in States(g) && available <= keys && Bounded(g, keys, st.avail)
    ensures Refines(r.avail, st.avail) && Bounded(g, keys, r.avail)
    decreases Open(States(g), keys, st.avail), 0
  {
    if s in st.avail && Settled(join, st.avail[s], available) then
      st
    else
      MergeShrinks(join, States(g), keys, s, available, st.avail);
      Follow(join, g, keys, s, EdgesFrom(g, s), Progress(Merge(s, available, st.avail), st.errors))
  }

  /** The loop over the remaining edges of `s`; the recorded set of `s` is read afresh for each edge. */
  ghost function Follow<N>(join: Join, g: FlowGraph<N>, keys: set<Key>, s: N, es: seq<Edge<N>>, st: Progress<N>): (r: Progress<N>)
    requires s in st.avail && Bounded(g, keys, st.avail)
    requires forall e | e in es :: e in EdgesFrom(g, s)
    ensures Refines(r.avail, st.avail) && Bounded(g, keys, r.avail)
    decreases Open(States(g), keys, st.avail), 1 + |es|
  {
    if es == [] then
      st
    else
      EdgeTargets(g, s, es[0]);
      var first := Take(join, g, keys, s, es[0], st);
      RefinesOpen(States(g), keys, first.avail, st.avail);
      Follow(join, g, keys, s, es[1..], first)
  }

  /** One edge of `s`: its needs are checked, then its target is visited. */
  ghost function Take<N>(join: Join, g: FlowGraph<N>, keys: set<Key>, s: N, e: Edge<N>, st: Progress<N>): (r: Progress<N>)
    requires s in st.avail && Bounded(g, keys, st.avail) && e in EdgesFrom(g, s)
    ensures Refines(r.avail, st.avail) && Bounded(g, keys, r.avail)
    decreases Open(States(g), keys, st.avail), 1
  {
    EdgeTargets(g, s, e);
    var have := st.avail[s];
    Visit(join, g, keys, e.target, have + e.gain, Progress(st.avail, Push(s, have, e.needs, st.errors)))
  }
}
