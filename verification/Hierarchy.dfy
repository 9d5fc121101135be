/** Hierarchical states compiled to flat transitions: paths, bubbling of triggers, and the exits and entries of a
  * transition. */
module Hierarchy {
  import opened Definition

  datatype Node = Node(name: string, entryProduces: seq<string>, exitProduces: seq<string>, children: seq<Node>)

  datatype Trans = Trans(from: string, to: string, trigger: string, needs: seq<string>, gives: seq<string>)

  datatype Spec = Spec(roots: seq<Node>, transitions: seq<Trans>)

  // ---------- names ----------

  function NamesOf(n: Node): set<string>
    decreases n, 0
  {
    {n.name} + ForestNames(n.children)
  }

  function ForestNames(ns: seq<Node>): set<string>
    decreases ns, 1
  {
    if ns == [] then {} else NamesOf(ns[0]) + ForestNames(ns[1..])
  }

  ghost predicate Unique(n: Node)
    decreases n, 0
  {
    n.name !in ForestNames(n.children) && UniqueForest(n.children)
  }

  /** No two states anywhere share a name: they become the members of one enumeration. */
  ghost predicate UniqueForest(ns: seq<Node>)
    decreases ns, 1
  {
    ns == [] || (Unique(ns[0]) && UniqueForest(ns[1..]) && NamesOf(ns[0]) !! ForestNames(ns[1..]))
  }

  // ---------- paths ----------

  /** What `findPath` leaves on the path: the nodes down to `name`, or nothing. */
  function PathIn(n: Node, name: string): seq<Node>
    decreases n, 0
  {
    if n.name == name then [n]
    else var q := PathTo(n.children, name); if q == [] then [] else [n] + q
  }

  /** `pathTo`. */
  function PathTo(ns: seq<Node>, name: string): seq<Node>
    decreases ns, 1
  {
    if ns == [] then []
    else var p := PathIn(ns[0], name); if p != [] then p else PathTo(ns[1..], name)
  }

  /** `findPath` pushes and pops a shared path. */
  method FindPath(n: Node, name: string, path: seq<Node>) returns (found: bool, path': seq<Node>)
    ensures found <==> PathIn(n, name) != []
    ensures path' == path + PathIn(n, name)
    decreases n
  {
    path' := path + [n];
    if n.name == name { return true, path'; }
    var i := 0;
    assert n.children[0..] == n.children;
    while i < |n.children|
      invariant 0 <= i <= |n.children| && path' == path + [n]
      invariant PathTo(n.children, name) == PathTo(n.children[i..], name)
    {
      assert n.children[i..][1..] == n.children[i + 1..];
      found, path' := FindPath(n.children[i], name, path');
      if found {
        assert path' == path + ([n] + PathTo(n.children, name));
        return;
      }
      i := i + 1;
    }
    assert n.children[i..] == [];
    path' := path'[..|path'| - 1];
    found := false;
  }

  method PathToMethod(roots: seq<Node>, name: string) returns (path: seq<Node>)
    ensures path == PathTo(roots, name)
  {
    var i := 0;
    assert roots[0..] == roots;
    while i < |roots|
      invariant 0 <= i <= |roots| && PathTo(roots, name) == PathTo(roots[i..], name)
    {
      assert roots[i..][1..] == roots[i + 1..];
      var found;
      found, path := FindPath(roots[i], name, []);
      if found { return; }
      i := i + 1;
    }
    assert roots[i..] == [];
    path := [];
  }

  /** `p` goes down from one of `ns`, child by child. */
  ghost predicate IsPath(ns: seq<Node>, p: seq<Node>) {
    p != [] && p[0] in ns && (|p| > 1 ==> IsPath(p[0].children, p[1..]))
  }

  function Last(p: seq<Node>): Node
    requires p != []
  {
    p[|p| - 1]
  }

  lemma {:induction false} NameInForest(ns: seq<Node>, n: Node)
    requires n in ns
    ensures NamesOf(n) <= ForestNames(ns)
  {
    if n != ns[0] { NameInForest(ns[1..], n); }
  }

  lemma {:induction false} PathNamesInForest(ns: seq<Node>, p: seq<Node>)
    requires IsPath(ns, p)
    ensures Last(p).name in ForestNames(ns)
    decreases |p|
  {
    NameInForest(ns, p[0]);
    if |p| > 1 { PathNamesInForest(p[0].children, p[1..]); }
  }

  lemma {:induction false} AbsentMeansNoPath(ns: seq<Node>, name: string)
    requires name !in ForestNames(ns)
    ensures PathTo(ns, name) == []
    decreases ns, 1
  {
    if ns != [] {
      AbsentMeansNoPath(ns[0].children, name);
      AbsentMeansNoPath(ns[1..], name);
    }
  }

  lemma {:induction false} PathToIsPath(ns: seq<Node>, name: string)
    ensures var p := PathTo(ns, name); p != [] ==> IsPath(ns, p) && Last(p).name == name
    decreases ns, 1
  {
    if ns != [] {
      var n := ns[0];
      PathToIsPath(n.children, name);
      PathToIsPath(ns[1..], name);
      var q := PathTo(n.children, name);
      if n.name != name && q != [] {
        var p := [n] + q;
        assert p[1..] == q && Last(p) == Last(q);
      }
    }
  }

  /** With unique names the path to a state is the only one: every path is found by the name of its end. */
  lemma {:induction false} PathIsUnique(ns: seq<Node>, q: seq<Node>)
    requires UniqueForest(ns) && IsPath(ns, q)
    ensures PathTo(ns, Last(q).name) == q
    decreases |q|, |ns|
  {
    var name := Last(q).name;
    if q[0] == ns[0] {
      if |q| > 1 {
        PathNamesInForest(q[0].children, q[1..]);
        PathIsUnique(q[0].children, q[1..]);
        assert q == [q[0]] + q[1..];
      }
    } else {
      assert q[0] in ns[1..];
      assert IsPath(ns[1..], q);
      PathNamesInForest(ns[1..], q);
      AbsentInTree(ns[0], name);
      PathIsUnique(ns[1..], q);
    }
  }

  lemma AbsentInTree(n: Node, name: string)
    requires name !in NamesOf(n)
    ensures PathIn(n, name) == []
  {
    AbsentMeansNoPath(n.children, name);
  }

  lemma {:induction false} ExtendPath(ns: seq<Node>, p: seq<Node>, c: Node)
    requires IsPath(ns, p) && c in Last(p).children
    ensures IsPath(ns, p + [c])
    decreases |p|
  {
    if |p| > 1 {
      ExtendPath(p[0].children, p[1..], c);
      assert (p + [c])[1..] == p[1..] + [c];
    } else {
      assert (p + [c])[1..] == [c];
    }
  }

  lemma {:induction false} PathPrefix(ns: seq<Node>, p: seq<Node>, k: nat)
    requires IsPath(ns, p) && 0 < k <= |p|
    ensures IsPath(ns, p[..k])
    ensures k < |p| ==> p[k] in p[k - 1].children
    decreases |p|
  {
    if k > 1 {
      PathPrefix(p[0].children, p[1..], k - 1);
      assert p[..k][1..] == p[1..][..k - 1];
    } else if |p| > 1 {
      assert IsPath(p[0].children, p[1..]);
    }
  }

  // ---------- findState ----------

  function FindStateIn(n: Node, name: string): Option<Node>
    decreases n, 0
  {
    if n.name == name then Some(n) else FindState(n.children, name)
  }

  function FindState(ns: seq<Node>, name: string): Option<Node>
    decreases ns, 1
  {
    if ns == [] then None
    else var f := FindStateIn(ns[0], name); if f.Some? then f else FindState(ns[1..], name)
  }

  lemma {:induction false} FindStateIsPathEnd(ns: seq<Node>, name: string)
    ensures var p := PathTo(ns, name);
      FindState(ns, name) == if p == [] then None else Some(Last(p))
    decreases ns, 1
  {
    if ns != [] {
      FindStateIsPathEnd(ns[0].children, name);
      FindStateIsPathEnd(ns[1..], name);
    }
  }

  // ---------- bubbling ----------

  type Handled = map<string, set<string>>

  predicate Handles(h: Handled, state: string, trigger: string) { state in h && trigger in h[state] }

  /** `handledTriggers`. */
  function HandledBy(ts: seq<Trans>): Handled {
    if ts == [] then map[]
    else
      var n := |ts| - 1;
      var h := HandledBy(ts[..n]);
      h[ts[n].from := (if ts[n].from in h then h[ts[n].from] else {}) + {ts[n].trigger}]
  }

  lemma {:induction false} HandledByMeans(ts: seq<Trans>, state: string, trigger: string)
    ensures Handles(HandledBy(ts), state, trigger) <==> exists t | t in ts :: t.from == state && t.trigger == trigger
  {
    if ts != [] {
      var n := |ts| - 1;
      HandledByMeans(ts[..n], state, trigger);
      assert ts == ts[..n] + [ts[n]];
    }
  }

  /** A path is found by the name of its end, and so are its extensions. */
  lemma ChildIsFound(roots: seq<Node>, name: string, c: Node)
    requires UniqueForest(roots) && PathTo(roots, name) != [] && c in Last(PathTo(roots, name)).children
    ensures PathTo(roots, c.name) == PathTo(roots, name) + [c]
    ensures FindState(roots, c.name) == Some(c)
  {
    PathToIsPath(roots, name);
    ExtendPath(roots, PathTo(roots, name), c);
    PathIsUnique(roots, PathTo(roots, name) + [c]);
    FindStateIsPathEnd(roots, c.name);
  }

  function Size(n: Node): nat
    decreases n, 0
  {
    1 + Sizes(n.children)
  }

  function Sizes(ns: seq<Node>): nat
    decreases ns, 1
  {
    if ns == [] then 0 else Size(ns[0]) + Sizes(ns[1..])
  }

  lemma {:induction false} ChildIsSmaller(ns: seq<Node>, c: Node)
    requires c in ns
    ensures Size(c) <= Sizes(ns)
  {
    if c != ns[0] { ChildIsSmaller(ns[1..], c); }
  }

  /** The size of the subtree a transition bubbles into; it bounds the recursion through state names. */
  function Below(roots: seq<Node>, name: string): nat {
    match FindState(roots, name)
    case None => 0
    case Some(n) => Size(n)
  }

  /** `propagateBubbling`: the transitions added for `t`. */
  function Propagate(roots: seq<Node>, t: Trans, h: Handled): seq<Trans>
    requires UniqueForest(roots)
    decreases Below(roots, t.from), 1, 0
  {
    match FindState(roots, t.from)
    case None => []
    case Some(n) => PropagateInto(roots, t, h, n, n.children)
  }

  function PropagateInto(roots: seq<Node>, t: Trans, h: Handled, n: Node, cs: seq<Node>): seq<Trans>
    requires UniqueForest(roots) && FindState(roots, t.from) == Some(n)
    requires forall c | c in cs :: c in n.children
    decreases Below(roots, t.from), 0, |cs|
  {
    if cs == [] then []
    else
      (if Handles(h, cs[0].name, t.trigger) then []
       else
         FindStateIsPathEnd(roots, t.from);
         ChildIsFound(roots, t.from, cs[0]);
         ChildIsSmaller(n.children, cs[0]);
         [t.(from := cs[0].name)] + Propagate(roots, t.(from := cs[0].name), h))
      + PropagateInto(roots, t, h, n, cs[1..])
  }

  /** `synthesizeBubbling`. */
  function SynthesizeFrom(roots: seq<Node>, ts: seq<Trans>, h: Handled): seq<Trans>
    requires UniqueForest(roots)
  {
    if ts == [] then [] else Propagate(roots, ts[0], h) + SynthesizeFrom(roots, ts[1..], h)
  }

  function SynthesizeBubbling(spec: Spec): seq<Trans>
    requires UniqueForest(spec.roots)
  {
    SynthesizeFrom(spec.roots, spec.transitions, HandledBy(spec.transitions))
  }

  lemma Regroup(out: seq<Trans>, x: Trans, more: seq<Trans>, rest: seq<Trans>)
    ensures ((out + [x]) + more) + rest == out + ([x] + more + rest)
  {}

  /** The recursion as the source runs it, appending to `out`. */
  method PropagateBubbling(roots: seq<Node>, t: Trans, h: Handled, out: seq<Trans>) returns (out': seq<Trans>)
    requires UniqueForest(roots)
    ensures out' == out + Propagate(roots, t, h)
    decreases Below(roots, t.from)
  {
    out' := out;
    var from := FindState(roots, t.from);
    if from.None? { return; }
    var n := from.value;
    var i := 0;
    assert n.children[0..] == n.children;
    while i < |n.children|
      invariant 0 <= i <= |n.children|
      invariant out' + PropagateInto(roots, t, h, n, n.children[i..]) == out + Propagate(roots, t, h)
    {
      var c := n.children[i];
      assert n.children[i..][1..] == n.children[i + 1..];
      ghost var rest := PropagateInto(roots, t, h, n, n.children[i + 1..]);
      if !Handles(h, c.name, t.trigger) {
        var fallback := t.(from := c.name);
        ghost var before := out';
        FindStateIsPathEnd(roots, t.from);
        ChildIsFound(roots, t.from, c);
        ChildIsSmaller(n.children, c);
        out' := PropagateBubbling(roots, fallback, h, out' + [fallback]);
        Regroup(before, fallback, Propagate(roots, fallback, h), rest);
      } else {
        assert out' + rest == out' + ([] + rest);
      }
      i := i + 1;
    }
    assert n.children[i..] == [];
  }

  /** The loop that collects which state handles which trigger. */
  method CollectHandled(ts: seq<Trans>) returns (handled: Handled)
    ensures handled == HandledBy(ts)
  {
    handled := map[];
    var i := 0;
    while i < |ts|
      invariant 0 <= i <= |ts| && handled == HandledBy(ts[..i])
    {
      assert ts[..i + 1][..i] == ts[..i];
      if ts[i].from !in handled { handled := handled[ts[i].from := {}]; }
      handled := handled[ts[i].from := handled[ts[i].from] + {ts[i].trigger}];
      i := i + 1;
    }
    assert ts[..i] == ts;
  }

  lemma NextFallbacks(roots: seq<Node>, ts: seq<Trans>, i: nat, h: Handled, out: seq<Trans>)
    requires UniqueForest(roots) && i < |ts|
    ensures out + SynthesizeFrom(roots, ts[i..], h) == out + Propagate(roots, ts[i], h) + SynthesizeFrom(roots, ts[i + 1..], h)
  {
    assert ts[i..][0] == ts[i] && ts[i..][1..] == ts[i + 1..];
  }

  method Synthesize(spec: Spec) returns (bubbled: seq<Trans>)
    requires UniqueForest(spec.roots)
    ensures bubbled == SynthesizeBubbling(spec)
  {
    var ts := spec.transitions;
    var handled := CollectHandled(ts);
    bubbled := [];
    var i := 0;
    assert ts[0..] == ts;
    while i < |ts|
      invariant 0 <= i <= |ts|
      invariant bubbled + SynthesizeFrom(spec.roots, ts[i..], handled) == SynthesizeBubbling(spec)
    {
      NextFallbacks(spec.roots, ts, i, handled, bubbled);
      bubbled := PropagateBubbling(spec.roots, ts[i], handled, bubbled);
      i := i + 1;
    }
    assert ts[i..] == [];
  }

  // ---------- bubbling is inheritance from the nearest handler ----------

  /** Nobody on `p` handles the trigger. */
  ghost predicate Silent(p: seq<Node>, h: Handled, trigger: string) {
    forall c | c in p :: !Handles(h, c.name, trigger)
  }

  /** `x` is `t` inherited by a state strictly below it, with no handler on the way down, its own state included. */
  ghost predicate Inherited(roots: seq<Node>, t: Trans, h: Handled, x: Trans) {
    var up, down := PathTo(roots, t.from), PathTo(roots, x.from);
    && up != [] && up < down
    && x == t.(from := x.from)
    && Silent(down[|up|..], h, t.trigger)
  }

  lemma InheritedStep(roots: seq<Node>, t: Trans, h: Handled, x: Trans, c: Node)
    requires UniqueForest(roots) && PathTo(roots, t.from) != [] && c in Last(PathTo(roots, t.from)).children
    requires !Handles(h, c.name, t.trigger)
    requires x == t.(from := c.name) || Inherited(roots, t.(from := c.name), h, x)
    ensures Inherited(roots, t, h, x)
  {
    var up := PathTo(roots, t.from);
    ChildIsFound(roots, t.from, c);
    var down := PathTo(roots, x.from);
    assert up + [c] <= down;
    assert down[|up|..] == [c] + down[|up| + 1..];
  }

  lemma {:induction false} PropagateIsSound(roots: seq<Node>, t: Trans, h: Handled, x: Trans)
    requires UniqueForest(roots) && x in Propagate(roots, t, h)
    ensures Inherited(roots, t, h, x)
    decreases Below(roots, t.from), 1, 0
  {
    var n := FindState(roots, t.from).value;
    PropagateIntoIsSound(roots, t, h, n, n.children, x);
  }

  lemma {:induction false} PropagateIntoIsSound(roots: seq<Node>, t: Trans, h: Handled, n: Node, cs: seq<Node>, x: Trans)
    requires UniqueForest(roots) && FindState(roots, t.from) == Some(n)
    requires (forall c | c in cs :: c in n.children) && x in PropagateInto(roots, t, h, n, cs)
    ensures Inherited(roots, t, h, x)
    decreases Below(roots, t.from), 0, |cs|
  {
    var c := cs[0];
    FindStateIsPathEnd(roots, t.from);
    if x in PropagateInto(roots, t, h, n, cs[1..]) {
      PropagateIntoIsSound(roots, t, h, n, cs[1..], x);
    } else {
      ChildIsFound(roots, t.from, c);
      ChildIsSmaller(n.children, c);
      if x != t.(from := c.name) { PropagateIsSound(roots, t.(from := c.name), h, x); }
      InheritedStep(roots, t, h, x, c);
    }
  }

  lemma {:induction false} PropagateIsComplete(roots: seq<Node>, t: Trans, h: Handled, x: Trans)
    requires UniqueForest(roots) && Inherited(roots, t, h, x)
    ensures x in Propagate(roots, t, h)
    decreases Below(roots, t.from), 1, 0
  {
    var up, down := PathTo(roots, t.from), PathTo(roots, x.from);
    FindStateIsPathEnd(roots, t.from);
    PathToIsPath(roots, x.from);
    PathPrefix(roots, down, |up|);
    var n, c := Last(up), down[|up|];
    assert down[..|up|] == up && down[|up|..][0] == c;
    PropagateIntoIsComplete(roots, t, h, n, n.children, x, c);
  }

  lemma {:induction false} PropagateIntoIsComplete(roots: seq<Node>, t: Trans, h: Handled, n: Node, cs: seq<Node>, x: Trans, c: Node)
    requires UniqueForest(roots) && FindState(roots, t.from) == Some(n) && Inherited(roots, t, h, x)
    requires (forall d | d in cs :: d in n.children) && c in cs && c == PathTo(roots, x.from)[|PathTo(roots, t.from)|]
    ensures x in PropagateInto(roots, t, h, n, cs)
    decreases Below(roots, t.from), 0, |cs|
  {
    if cs[0] != c {
      PropagateIntoIsComplete(roots, t, h, n, cs[1..], x, c);
    } else {
      var up, down := PathTo(roots, t.from), PathTo(roots, x.from);
      FindStateIsPathEnd(roots, t.from);
      ChildIsFound(roots, t.from, c);
      ChildIsSmaller(n.children, c);
      assert down[|up|..][0] == c;
      assert !Handles(h, c.name, t.trigger);
      var fallback := t.(from := c.name);
      if |down| == |up| + 1 {
        assert down == up + [c];
        PathToIsPath(roots, x.from);
        assert x == fallback;
      } else {
        assert up + [c] < down;
        assert down[|up| + 1..] == down[|up|..][1..];
        assert Inherited(roots, fallback, h, x);
        PropagateIsComplete(roots, fallback, h, x);
      }
    }
  }

  lemma {:induction false} SynthesizeMembers(roots: seq<Node>, ts: seq<Trans>, h: Handled, x: Trans)
    requires UniqueForest(roots)
    ensures x in SynthesizeFrom(roots, ts, h) <==> exists t | t in ts :: Inherited(roots, t, h, x)
  {
    if ts != [] {
      SynthesizeMembers(roots, ts[1..], h, x);
      assert ts == [ts[0]] + ts[1..];
      if x in Propagate(roots, ts[0], h) { PropagateIsSound(roots, ts[0], h, x); }
      if Inherited(roots, ts[0], h, x) { PropagateIsComplete(roots, ts[0], h, x); }
    }
  }

  /** The nearest proper ancestor of a state that handles a trigger, read off the path to the state. */
  ghost predicate NearestHandler(spec: Spec, state: string, trigger: string, ancestor: string) {
    var path := PathTo(spec.roots, state);
    var h := HandledBy(spec.transitions);
    exists i: nat ::
      && i + 1 < |path| && path[i].name == ancestor && Handles(h, ancestor, trigger)
      && forall j | i < j < |path| - 1 :: !Handles(h, path[j].name, trigger)
  }

  /** Bubbling emits a fallback for a state and trigger exactly when the state has no handler of its own, and then
    * it copies the transitions of its nearest proper ancestor that handles the trigger. */
  lemma BubblingIsInheritance(spec: Spec, x: Trans)
    requires UniqueForest(spec.roots)
    ensures x in SynthesizeBubbling(spec) <==>
      && !Handles(HandledBy(spec.transitions), x.from, x.trigger)
      && exists t :: t in spec.transitions && x == t.(from := x.from) && NearestHandler(spec, x.from, x.trigger, t.from)
  {
    var h := HandledBy(spec.transitions);
    SynthesizeMembers(spec.roots, spec.transitions, h, x);
    if x in SynthesizeBubbling(spec) {
      var t :| t in spec.transitions && Inherited(spec.roots, t, h, x);
      InheritedMeansNearest(spec, t, x);
    }
    if !Handles(h, x.from, x.trigger)
      && exists t :: t in spec.transitions && x == t.(from := x.from) && NearestHandler(spec, x.from, x.trigger, t.from)
    {
      var t :| t in spec.transitions && x == t.(from := x.from) && NearestHandler(spec, x.from, x.trigger, t.from);
      NearestMeansInherited(spec, t, x);
    }
  }

  lemma InheritedMeansNearest(spec: Spec, t: Trans, x: Trans)
    requires t in spec.transitions && Inherited(spec.roots, t, HandledBy(spec.transitions), x)
    ensures !Handles(HandledBy(spec.transitions), x.from, x.trigger) && NearestHandler(spec, x.from, x.trigger, t.from)
  {
    var h := HandledBy(spec.transitions);
    var up, down := PathTo(spec.roots, t.from), PathTo(spec.roots, x.from);
    PathToIsPath(spec.roots, t.from);
    PathToIsPath(spec.roots, x.from);
    HandledByMeans(spec.transitions, t.from, t.trigger);
    var i := |up| - 1;
    assert down[i] == up[i];
    forall j | i < j < |down| ensures !Handles(h, down[j].name, x.trigger) {
      assert down[|up|..][j - |up|] == down[j];
    }
  }

  lemma SilentFrom(p: seq<Node>, k: nat, h: Handled, trigger: string)
    requires k <= |p| && forall j | k <= j < |p| :: !Handles(h, p[j].name, trigger)
    ensures Silent(p[k..], h, trigger)
  {
    forall c | c in p[k..] ensures !Handles(h, c.name, trigger) {
      var j :| 0 <= j < |p[k..]| && p[k..][j] == c;
      assert c == p[k + j];
    }
  }

  lemma PrefixIsFound(roots: seq<Node>, name: string, i: nat)
    requires UniqueForest(roots) && i < |PathTo(roots, name)|
    ensures PathTo(roots, PathTo(roots, name)[i].name) == PathTo(roots, name)[..i + 1]
  {
    var p := PathTo(roots, name);
    PathToIsPath(roots, name);
    PathPrefix(roots, p, i + 1);
    PathIsUnique(roots, p[..i + 1]);
  }

  lemma NearestMeansInherited(spec: Spec, t: Trans, x: Trans)
    requires UniqueForest(spec.roots) && t in spec.transitions && x == t.(from := x.from)
    requires !Handles(HandledBy(spec.transitions), x.from, x.trigger) && NearestHandler(spec, x.from, x.trigger, t.from)
    ensures Inherited(spec.roots, t, HandledBy(spec.transitions), x)
  {
    var h := HandledBy(spec.transitions);
    var down := PathTo(spec.roots, x.from);
    var i: nat :| i + 1 < |down| && down[i].name == t.from && Handles(h, t.from, x.trigger)
      && forall j | i < j < |down| - 1 :: !Handles(h, down[j].name, x.trigger);
    PathToIsPath(spec.roots, x.from);
    PrefixIsFound(spec.roots, x.from, i);
    SilentFrom(down, i + 1, h, t.trigger);
  }

  // ---------- entry and exit ----------

  /** The last index up to which the names on both paths agree, or -1: the loop of `lcaIndex`. */
  method LcaIndex(a: seq<Node>, b: seq<Node>) returns (lca: int)
    ensures lca == Common(a, b) - 1
  {
    lca := -1;
    var i := 0;
    assert a[0..] == a && b[0..] == b;
    while i < |a| && i < |b|
      invariant 0 <= i <= |a| && i <= |b| && lca == i - 1
      invariant Common(a, b) == i + Common(a[i..], b[i..])
    {
      assert a[i..][1..] == a[i + 1..] && b[i..][1..] == b[i + 1..];
      if a[i].name != b[i].name { return; }
      lca := i;
      i := i + 1;
    }
  }

  /** How many leading names agree. */
  function Common(a: seq<Node>, b: seq<Node>): (k: nat)
    ensures k <= |a| && k <= |b|
  {
    if a == [] || b == [] || a[0].name != b[0].name then 0 else 1 + Common(a[1..], b[1..])
  }

  lemma {:induction false} CommonMeans(a: seq<Node>, b: seq<Node>)
    ensures var k := Common(a, b);
      && k <= |a| && k <= |b| && (forall i | 0 <= i < k :: a[i].name == b[i].name)
      && (k < |a| && k < |b| ==> a[k].name != b[k].name)
  {
    if a != [] && b != [] && a[0].name == b[0].name { CommonMeans(a[1..], b[1..]); }
  }

  lemma SameNameSameIndex(roots: seq<Node>, from: string, to: string, i: nat, j: nat)
    requires UniqueForest(roots) && i < |PathTo(roots, from)| && j < |PathTo(roots, to)|
    requires PathTo(roots, from)[i].name == PathTo(roots, to)[j].name
    ensures i == j && PathTo(roots, from)[..i + 1] == PathTo(roots, to)[..j + 1]
  {
    PrefixIsFound(roots, from, i);
    PrefixIsFound(roots, to, j);
    assert |PathTo(roots, from)[..i + 1]| == i + 1 && |PathTo(roots, to)[..j + 1]| == j + 1;
  }

  lemma AgreeingPrefix(a: seq<Node>, b: seq<Node>, i: nat)
    requires i < |a| && i < |b| && a[..i + 1] == b[..i + 1]
    ensures i < Common(a, b)
  {
    CommonMeans(a, b);
    forall m | 0 <= m <= i ensures a[m].name == b[m].name { assert a[..i + 1][m] == b[..i + 1][m]; }
  }

  /** With unique names the paths agree as far as the names do, and nothing further down is common: the state at the
    * index is the deepest common ancestor. */
  lemma LcaIsDeepestCommon(roots: seq<Node>, from: string, to: string)
    requires UniqueForest(roots)
    ensures var a, b := PathTo(roots, from), PathTo(roots, to);
      var k := Common(a, b);
      && k <= |a| && k <= |b| && a[..k] == b[..k]
      && forall i, j | 0 <= i < |a| && 0 <= j < |b| && a[i].name == b[j].name :: i == j < k
  {
    var a, b := PathTo(roots, from), PathTo(roots, to);
    var k := Common(a, b);
    CommonMeans(a, b);
    if k > 0 { SameNameSameIndex(roots, from, to, k - 1, k - 1); }
    forall i, j | 0 <= i < |a| && 0 <= j < |b| && a[i].name == b[j].name ensures i == j < k {
      SameNameSameIndex(roots, from, to, i, j);
      AgreeingPrefix(a, b, i);
    }
  }

  function ExitOf(n: Node): Trans { Trans(n.name, n.name + "__EXIT_END", "__exit__" + n.name, [], n.exitProduces) }

  function EntryOf(parent: Node, n: Node): Trans { Trans(parent.name, n.name, "__entry__" + n.name, [], n.entryProduces) }

  /** The exit of a state: out of it, to the end marker of its own name, giving what it declares. */
  ghost predicate IsExit(x: Trans, n: Node) {
    x.from == n.name && x.to == n.name + "__EXIT_END" && x.trigger == "__exit__" + n.name && x.needs == [] && x.gives == n.exitProduces
  }

  /** The entry into a state from its parent, giving what it declares. */
  ghost predicate IsEntry(x: Trans, parent: Node, n: Node) {
    x.from == parent.name && x.to == n.name && x.trigger == "__entry__" + n.name && x.needs == [] && x.gives == n.entryProduces
  }

  /** The exits of a downward path, innermost first. */
  function Exits(p: seq<Node>): seq<Trans> {
    if p == [] then []
    else var n := |p| - 1; (if p[n].exitProduces == [] then [] else [ExitOf(p[n])]) + Exits(p[..n])
  }

  /** The entries of a downward path below `parent`, outermost first, each leaving from its own parent. */
  function Entries(parent: Node, p: seq<Node>): seq<Trans>
    decreases |p|
  {
    if p == [] then []
    else (if p[0].entryProduces == [] then [] else [EntryOf(parent, p[0])]) + Entries(p[0], p[1..])
  }

  /** Entering a root has no parent to leave from: the source reads a property of `undefined` and throws. */
  datatype Compiled = Compiled(transitions: seq<Trans>) | ThrowsTypeError

  function Compile(roots: seq<Node>, from: string, to: string): Compiled {
    var a, b := PathTo(roots, from), PathTo(roots, to);
    var k := Common(a, b);
    if a == [] || b == [] then Compiled([])
    else if k > 0 then Compiled(Exits(a[k..]) + Entries(b[k - 1], b[k..]))
    else if b[0].entryProduces == [] then Compiled(Exits(a) + Entries(b[0], b[1..]))
    else ThrowsTypeError
  }

  /** The first loop of `compileTransition`: up from the innermost state to just below index `k - 1`. */
  method EmitExits(a: seq<Node>, k: nat) returns (out: seq<Trans>)
    requires k <= |a|
    ensures out == Exits(a[k..])
  {
    out := [];
    var i := |a|;
    assert a[k..i] == a[k..];
    while i > k
      invariant k <= i <= |a| && out + Exits(a[k..i]) == Exits(a[k..])
    {
      i := i - 1;
      assert a[k..i + 1][..|a[k..i + 1]| - 1] == a[k..i];
      if a[i].exitProduces != [] { out := out + [ExitOf(a[i])]; }
    }
    assert a[k..i] == [];
  }

  /** The second loop: down from index `k`, each entry leaving from the state above it. */
  method EmitEntries(b: seq<Node>, k: nat, before: seq<Trans>) returns (out: seq<Trans>)
    requires 0 < k <= |b|
    ensures out == before + Entries(b[k - 1], b[k..])
  {
    out := before;
    var i := k;
    while i < |b|
      invariant k <= i <= |b| && out + Entries(b[i - 1], b[i..]) == before + Entries(b[k - 1], b[k..])
    {
      assert b[i..][0] == b[i] && b[i..][1..] == b[i + 1..];
      if b[i].entryProduces != [] { out := out + [EntryOf(b[i - 1], b[i])]; }
      i := i + 1;
    }
    assert b[i..] == [];
  }

  /** `compileTransition`. */
  method CompileTransition(roots: seq<Node>, from: string, to: string) returns (r: Compiled)
    ensures r == Compile(roots, from, to)
  {
    var a := PathToMethod(roots, from);
    var b := PathToMethod(roots, to);
    if a == [] || b == [] { return Compiled([]); }
    var lca := LcaIndex(a, b);
    var exits := EmitExits(a, lca + 1);
    var first := lca + 1;
    if first == 0 {
      if b[0].entryProduces != [] { return ThrowsTypeError; }
      assert a[0..] == a;
      first := 1;
    }
    var all := EmitEntries(b, first, exits);
    r := Compiled(all);
  }

  /** Two paths that share exactly their first `k` states. */
  ghost predicate ShareExactly(a: seq<Node>, b: seq<Node>, k: nat) {
    && k <= |a| && k <= |b| && a[..k] == b[..k]
    && forall i, j | 0 <= i < |a| && 0 <= j < |b| && a[i].name == b[j].name :: i == j < k
  }

  lemma SharedIndex(a: seq<Node>, b: seq<Node>, k: nat, i: nat)
    requires ShareExactly(a, b, k) && i < |a|
    ensures a[i] in b <==> i < k
  {
    if i < k { assert a[..k][i] == b[..k][i]; }
    if a[i] in b {
      var j :| 0 <= j < |b| && b[j] == a[i];
      assert a[i].name == b[j].name;
    }
  }

  lemma TailIsUnshared(a: seq<Node>, b: seq<Node>, k: nat, n: Node)
    requires ShareExactly(a, b, k)
    ensures n in a[k..] <==> n in a && n !in b
  {
    if n in a {
      var i :| 0 <= i < |a| && a[i] == n;
      SharedIndex(a, b, k, i);
      if k <= i { assert a[k..][i - k] == n; }
    }
    if n in a[k..] {
      var i :| 0 <= i < |a[k..]| && a[k..][i] == n;
      assert n == a[k + i];
      SharedIndex(a, b, k, k + i);
    }
  }

  lemma ExitMembers(a: seq<Node>, b: seq<Node>, k: nat, x: Trans)
    requires ShareExactly(a, b, k)
    ensures x in Exits(a[k..]) <==> exists n :: n in a && n !in b && n.exitProduces != [] && x == ExitOf(n)
  {
    ExitsAre(a[k..], x);
    if n :| n in a[k..] && n.exitProduces != [] && x == ExitOf(n) { TailIsUnshared(a, b, k, n); }
    if n :| n in a && n !in b && n.exitProduces != [] && x == ExitOf(n) { TailIsUnshared(a, b, k, n); }
  }

  lemma EntryMembers(roots: seq<Node>, a: seq<Node>, b: seq<Node>, k: nat, x: Trans)
    requires UniqueForest(roots) && IsPath(roots, b) && ShareExactly(b, a, k) && k > 0
    ensures x in Entries(b[k - 1], b[k..])
      <==> exists j | 0 < j < |b| :: b[j] !in a && b[j].entryProduces != [] && x == EntryOf(b[j - 1], b[j])
  {
    EntriesLeaveParents(roots, b, k, x);
    forall j: nat | j < |b| ensures b[j] in a <==> j < k { SharedIndex(b, a, k, j); }
    forall j: nat | 0 < j < |b| ensures b[j] in b[j - 1].children { PathPrefix(roots, b, j); }
  }

  lemma SharedStates(roots: seq<Node>, from: string, to: string)
    requires UniqueForest(roots)
    ensures var a, b := PathTo(roots, from), PathTo(roots, to);
      ShareExactly(a, b, Common(a, b)) && ShareExactly(b, a, Common(a, b))
  {
    LcaIsDeepestCommon(roots, from, to);
  }

  /** With both ends under one root: exactly the states left exit and the states entered enter. A state is left when
    * it is on the way to `from` but not on the way to `to`, and entered the other way round. */
  lemma CompiledMembers(roots: seq<Node>, from: string, to: string, x: Trans)
    requires UniqueForest(roots) && Common(PathTo(roots, from), PathTo(roots, to)) > 0
    ensures var a, b := PathTo(roots, from), PathTo(roots, to);
      Compile(roots, from, to).Compiled? &&
      (x in Compile(roots, from, to).transitions <==>
        || (exists n :: n in a && n !in b && n.exitProduces != [] && IsExit(x, n))
        || (exists j | 0 < j < |b| :: b[j] !in a && b[j].entryProduces != [] && IsEntry(x, b[j - 1], b[j])))
  {
    var a, b := PathTo(roots, from), PathTo(roots, to);
    var k := Common(a, b);
    SharedStates(roots, from, to);
    PathToIsPath(roots, to);
    ExitMembers(a, b, k, x);
    EntryMembers(roots, a, b, k, x);
    forall n: Node ensures IsExit(x, n) <==> x == ExitOf(n) {}
    forall p: Node, n: Node ensures IsEntry(x, p, n) <==> x == EntryOf(p, n) {}
    assert Compile(roots, from, to) == Compiled(Exits(a[k..]) + Entries(b[k - 1], b[k..]));
  }

  /** Which transitions a compilation holds: one exit per state left, one entry per state entered, as declared. */
  lemma {:induction false} ExitsAre(p: seq<Node>, x: Trans)
    ensures x in Exits(p) <==> exists n | n in p :: n.exitProduces != [] && x == ExitOf(n)
  {
    if p != [] {
      var k := |p| - 1;
      ExitsAre(p[..k], x);
      assert p == p[..k] + [p[k]];
    }
  }

  /** Every entry leaves from the parent the hierarchy gives its state. */
  lemma {:induction false} EntriesLeaveParents(roots: seq<Node>, path: seq<Node>, k: nat, x: Trans)
    requires UniqueForest(roots) && IsPath(roots, path) && 0 < k <= |path|
    ensures x in Entries(path[k - 1], path[k..]) <==>
      exists j | k <= j < |path| :: path[j].entryProduces != [] && x == EntryOf(path[j - 1], path[j]) && path[j] in path[j - 1].children
    decreases |path| - k
  {
    if k < |path| {
      PathPrefix(roots, path, k);
      EntriesLeaveParents(roots, path, k + 1, x);
      assert path[k..][0] == path[k] && path[k..][1..] == path[k + 1..];
    }
  }

  // ---------- order and multiplicity ----------

  /** How many states of a path declare exit actions. */
  function ExitCount(p: seq<Node>): nat {
    if p == [] then 0 else (if p[0].exitProduces == [] then 0 else 1) + ExitCount(p[1..])
  }

  function EntryCount(p: seq<Node>): nat {
    if p == [] then 0 else (if p[0].entryProduces == [] then 0 else 1) + EntryCount(p[1..])
  }

  lemma {:induction false} ExitsCons(n: Node, p: seq<Node>)
    ensures Exits([n] + p) == Exits(p) + (if n.exitProduces == [] then [] else [ExitOf(n)])
  {
    var all := [n] + p;
    if p == [] {
      assert all == [n] && all[..0] == [];
      assert Exits(all) == (if n.exitProduces == [] then [] else [ExitOf(n)]) + Exits(all[..0]);
    } else {
      var k := |p| - 1;
      assert all[..|all| - 1] == [n] + p[..k] && all[|all| - 1] == p[k];
      ExitsCons(n, p[..k]);
      var last := if p[k].exitProduces == [] then [] else [ExitOf(p[k])];
      assert Exits(all) == last + Exits([n] + p[..k]);
    }
  }

  /** One exit for each state that declares actions, innermost first: the exit of a state stands behind those of the
    * states below it. */
  lemma {:induction false} ExitsInOrder(p: seq<Node>)
    ensures |Exits(p)| == ExitCount(p)
    ensures forall i | 0 <= i < |p| && p[i].exitProduces != [] ::
      ExitCount(p[i + 1..]) < |Exits(p)| && Exits(p)[ExitCount(p[i + 1..])] == ExitOf(p[i])
  {
    if p != [] {
      ExitsInOrder(p[1..]);
      ExitsCons(p[0], p[1..]);
      assert p == [p[0]] + p[1..];
      forall i | 0 < i < |p| && p[i].exitProduces != []
        ensures ExitCount(p[i + 1..]) < |Exits(p)| && Exits(p)[ExitCount(p[i + 1..])] == ExitOf(p[i])
      {
        assert p[1..][i - 1] == p[i] && p[1..][i..] == p[i + 1..];
      }
    }
  }

  /** One entry for each state that declares actions, outermost first. */
  lemma {:induction false} EntriesInOrder(parent: Node, p: seq<Node>)
    ensures |Entries(parent, p)| == EntryCount(p)
    ensures forall i | 0 <= i < |p| && p[i].entryProduces != [] ::
      && EntryCount(p[..i]) < |Entries(parent, p)|
      && Entries(parent, p)[EntryCount(p[..i])] == EntryOf(if i == 0 then parent else p[i - 1], p[i])
    decreases |p|
  {
    if p != [] {
      EntriesInOrder(p[0], p[1..]);
      forall i | 0 <= i < |p| && p[i].entryProduces != []
        ensures EntryCount(p[..i]) < |Entries(parent, p)|
        ensures Entries(parent, p)[EntryCount(p[..i])] == EntryOf(if i == 0 then parent else p[i - 1], p[i])
      {
        if i > 0 {
          assert p[..i][0] == p[0] && p[..i][1..] == p[1..][..i - 1];
          assert p[1..][i - 1] == p[i];
        }
      }
    }
  }

  /** The exits of `left` stand first, from the innermost state up. */
  ghost predicate ExitsPlaced(ts: seq<Trans>, left: seq<Node>) {
    forall i | 0 <= i < |left| && left[i].exitProduces != [] ::
      ExitCount(left[i + 1..]) < ExitCount(left) <= |ts| && IsExit(ts[ExitCount(left[i + 1..])], left[i])
  }

  /** The entries of `entered` stand from position `k` on, from the outermost state down, each from its parent. */
  ghost predicate EntriesPlaced(ts: seq<Trans>, k: nat, parent: Node, entered: seq<Node>) {
    forall j | 0 <= j < |entered| && entered[j].entryProduces != [] ::
      EntryCount(entered[..j]) < EntryCount(entered) && k + EntryCount(entered) <= |ts|
      && IsEntry(ts[k + EntryCount(entered[..j])], if j == 0 then parent else entered[j - 1], entered[j])
  }

  /** The exits, then the entries, and nothing else. */
  ghost predicate InOrder(ts: seq<Trans>, left: seq<Node>, parent: Node, entered: seq<Node>) {
    |ts| == ExitCount(left) + EntryCount(entered) && ExitsPlaced(ts, left) && EntriesPlaced(ts, ExitCount(left), parent, entered)
  }

  lemma ExitsStandFirst(left: seq<Node>, more: seq<Trans>)
    ensures ExitsPlaced(Exits(left) + more, left) && |Exits(left)| == ExitCount(left)
  {
    ExitsInOrder(left);
  }

  lemma EntriesFollow(before: seq<Trans>, parent: Node, entered: seq<Node>)
    ensures EntriesPlaced(before + Entries(parent, entered), |before|, parent, entered) && |Entries(parent, entered)| == EntryCount(entered)
  {
    EntriesInOrder(parent, entered);
    forall j | 0 <= j < |entered| && entered[j].entryProduces != []
      ensures IsEntry((before + Entries(parent, entered))[|before| + EntryCount(entered[..j])],
                      if j == 0 then parent else entered[j - 1], entered[j])
    {
      Behind(before, Entries(parent, entered), EntryCount(entered[..j]));
    }
  }

  lemma Behind(before: seq<Trans>, after: seq<Trans>, i: nat)
    requires i < |after|
    ensures (before + after)[|before| + i] == after[i]
  {}

  lemma ExitsThenEntries(left: seq<Node>, parent: Node, entered: seq<Node>)
    ensures InOrder(Exits(left) + Entries(parent, entered), left, parent, entered)
  {
    ExitsStandFirst(left, Entries(parent, entered));
    EntriesFollow(Exits(left), parent, entered);
  }

  /** With both ends under one root: one transition for each state left or entered that declares actions, in order. */
  lemma CompiledInOrder(roots: seq<Node>, from: string, to: string)
    requires Common(PathTo(roots, from), PathTo(roots, to)) > 0
    ensures var a, b := PathTo(roots, from), PathTo(roots, to);
      var k := Common(a, b);
      Compile(roots, from, to).Compiled? && InOrder(Compile(roots, from, to).transitions, a[k..], b[k - 1], b[k..])
  {
    var a, b := PathTo(roots, from), PathTo(roots, to);
    var k := Common(a, b);
    ExitsThenEntries(a[k..], b[k - 1], b[k..]);
  }

  // ---------- the type error ----------

  /** The source throws exactly when both ends are found, under different roots, and the root entered declares entry
    * actions. */
  lemma ThrowsIffForeignRoot(roots: seq<Node>, from: string, to: string)
    ensures var a, b := PathTo(roots, from), PathTo(roots, to);
      Compile(roots, from, to) == ThrowsTypeError <==>
        a != [] && b != [] && a[0].name != b[0].name && b[0].entryProduces != []
  {}

  lemma ForeignRootThrows()
    ensures var roots := [Node("Idle", [], [], []), Node("Active", ["session"], [], [])];
      UniqueForest(roots) && Compile(roots, "Idle", "Active") == ThrowsTypeError
  {
    var idle, active := Node("Idle", [], [], []), Node("Active", ["session"], [], []);
    var roots := [idle, active];
    assert roots[1..] == [active] && [active][1..] == [];
    assert PathTo([active], "Active") == [active];
    assert PathTo(roots, "Idle") == [idle] && PathTo(roots, "Active") == [active];
    assert Common([idle], [active]) == 0;
    assert UniqueForest([active][1..]) && ForestNames([active][1..]) == {};
    assert UniqueForest([active]);
  }
}
