/** What the traversal computes, for both joins, on arbitrary (cyclic) graphs. */
module DataFlowProofs {
  import opened Definition
  import opened DataFlow

  // ---------- completeness: every recorded state has been processed with its final set ----------

  ghost predicate Reported<N(!new)>(errors: seq<Missing<N>>, s: N, n: Need) {
    exists a :: Missing(s, n, a) in errors
  }

  ghost predicate EdgeDone<N(!new)>(join: Join, r: Progress<N>, s: N, e: Edge<N>)
    requires s in r.avail
  {
    && e.target in r.avail
    && (join == Intersection ==> r.avail[e.target] <= r.avail[s] + e.gain)
    && forall n | n in e.needs && n.key !in r.avail[s] + n.given :: Reported(r.errors, s, n)
  }

  ghost predicate Done<N(!new)>(join: Join, g: FlowGraph<N>, r: Progress<N>, s: N)
    requires s in r.avail
  {
    forall e | e in EdgesFrom(g, s) :: EdgeDone(join, r, s, e)
  }

  ghost predicate Same<N(!new)>(m: Avail<N>, m1: Avail<N>, s: N) {
    s in m && s in m1 && m[s] == m1[s]
  }

  ghost predicate Kept<N(!new)>(errors: seq<Missing<N>>, errors1: seq<Missing<N>>) {
    forall x | x in errors :: x in errors1
  }

  /** What one call leaves behind: whatever it changed is done. */
  ghost predicate ChangesDone<N(!new)>(join: Join, g: FlowGraph<N>, st: Progress<N>, r: Progress<N>) {
    && Kept(st.errors, r.errors)
    && forall s | s in r.avail :: Same(st.avail, r.avail, s) || Done(join, g, r, s)
  }

  lemma EdgeDoneLater<N(!new)>(join: Join, r: Progress<N>, r1: Progress<N>, s: N, e: Edge<N>)
    requires s in r.avail && EdgeDone(join, r, s, e)
    requires Refines(r1.avail, r.avail) && Same(r.avail, r1.avail, s) && Kept(r.errors, r1.errors)
    ensures EdgeDone(join, r1, s, e)
  {
    forall n | n in e.needs && n.key !in r1.avail[s] + n.given ensures Reported(r1.errors, s, n) {
      var a :| Missing(s, n, a) in r.errors;
    }
  }

  lemma ChangesCompose<N(!new)>(join: Join, g: FlowGraph<N>, st: Progress<N>, mid: Progress<N>, r: Progress<N>)
    requires ChangesDone(join, g, st, mid) && ChangesDone(join, g, mid, r)
    requires Refines(mid.avail, st.avail) && Refines(r.avail, mid.avail)
    ensures ChangesDone(join, g, st, r)
  {
    forall s | s in r.avail && !Same(st.avail, r.avail, s) ensures Done(join, g, r, s) {
      if Same(mid.avail, r.avail, s) {
        forall e | e in EdgesFrom(g, s) ensures EdgeDone(join, r, s, e) {
          EdgeDoneLater(join, mid, r, s, e);
        }
      }
    }
  }

  lemma {:induction false} PushReports<N(!new)>(s: N, have: set<Key>, needs: seq<Need>, errors: seq<Missing<N>>)
    ensures Kept(errors, Push(s, have, needs, errors))
    ensures forall n | n in needs && n.key !in have + n.given :: Reported(Push(s, have, needs, errors), s, n)
  {
    if needs != [] {
      var known := have + needs[0].given;
      var errors1 := if needs[0].key in known then errors else errors + [Missing(s, needs[0], known)];
      PushReports(s, have, needs[1..], errors1);
      assert needs[0].key !in known ==> Missing(s, needs[0], known) in errors1;
    }
  }

  lemma {:induction false} VisitCompletes<N(!new)>(join: Join, g: FlowGraph<N>, keys: set<Key>, s: N, available: set<Key>, st: Progress<N>)
    requires s in States(g) && available <= keys && Bounded(g, keys, st.avail)
    ensures var r := Visit(join, g, keys, s, available, st);
      && ChangesDone(join, g, st, r)
      && s in r.avail
      && (join == Intersection ==> r.avail[s] <= available)
    decreases Open(States(g), keys, st.avail), 0
  {
    if !(s in st.avail && Settled(join, st.avail[s], available)) {
      MergeShrinks(join, States(g), keys, s, available, st.avail);
      FollowCompletes(join, g, keys, s, EdgesFrom(g, s), Progress(Merge(s, available, st.avail), st.errors));
    }
  }

  lemma {:induction false} TakeCompletes<N(!new)>(join: Join, g: FlowGraph<N>, keys: set<Key>, s: N, e: Edge<N>, st: Progress<N>)
    requires s in st.avail && Bounded(g, keys, st.avail) && e in EdgesFrom(g, s)
    ensures var r := Take(join, g, keys, s, e, st);
      ChangesDone(join, g, st, r) && (Same(st.avail, r.avail, s) ==> EdgeDone(join, r, s, e))
    decreases Open(States(g), keys, st.avail), 1
  {
    EdgeTargets(g, s, e);
    var have := st.avail[s];
    var st1 := Progress(st.avail, Push(s, have, e.needs, st.errors));
    PushReports(s, have, e.needs, st.errors);
    VisitCompletes(join, g, keys, e.target, have + e.gain, st1);
    var r := Take(join, g, keys, s, e, st);
    if Same(st.avail, r.avail, s) {
      forall n | n in e.needs && n.key !in r.avail[s] + n.given ensures Reported(r.errors, s, n) {
        var a :| Missing(s, n, a) in st1.errors;
      }
    }
  }

  lemma {:induction false} FollowCompletes<N(!new)>(join: Join, g: FlowGraph<N>, keys: set<Key>, s: N, es: seq<Edge<N>>, st: Progress<N>)
    requires s in st.avail && Bounded(g, keys, st.avail)
    requires forall e | e in es :: e in EdgesFrom(g, s)
    ensures var r := Follow(join, g, keys, s, es, st);
      && ChangesDone(join, g, st, r)
      && (Same(st.avail, r.avail, s) ==> forall e | e in es :: EdgeDone(join, r, s, e))
    decreases Open(States(g), keys, st.avail), 1 + |es|
  {
    if es != [] {
      var first := Take(join, g, keys, s, es[0], st);
      RefinesOpen(States(g), keys, first.avail, st.avail);
      TakeCompletes(join, g, keys, s, es[0], st);
      FollowCompletes(join, g, keys, s, es[1..], first);
      var r := Follow(join, g, keys, s, es, st);
      ChangesCompose(join, g, st, first, r);
      if Same(st.avail, r.avail, s) {
        assert Same(first.avail, r.avail, s);
        EdgeDoneLater(join, first, r, s, es[0]);
      }
    }
  }

  // ---------- soundness: every absence and every error has a witness path ----------

  ghost predicate Witnessed<N(!new)>(g: FlowGraph<N>, init: N, given: set<Key>, s: N, have: set<Key>) {
    Reaches(g, init, s) && forall k | k !in have :: Missable(g, init, given, s, k)
  }

  ghost predicate AllWitnessed<N(!new)>(g: FlowGraph<N>, init: N, given: set<Key>, m: Avail<N>) {
    forall s | s in m :: Witnessed(g, init, given, s, m[s])
  }

  ghost predicate NeedAt<N(!new)>(g: FlowGraph<N>, s: N, n: Need) {
    exists e | e in EdgesFrom(g, s) :: n in e.needs
  }

  /** The error names a need of some edge out of its state, and some path there meets it nowhere. */
  ghost predicate Justified<N(!new)>(g: FlowGraph<N>, init: N, given: set<Key>, x: Missing<N>) {
    && NeedAt(g, x.state, x.need)
    && Missable(g, init, given + x.need.given, x.state, x.need.key)
    && x.need.key !in x.available
  }

  lemma WitnessEdge<N(!new)>(g: FlowGraph<N>, init: N, given: set<Key>, s: N, have: set<Key>, e: Edge<N>)
    requires Witnessed(g, init, given, s, have) && e in EdgesFrom(g, s)
    ensures Witnessed(g, init, given, e.target, have + e.gain)
  {
    var p :| Leads(g, init, p, s);
    assert Leads(g, init, Then(p, s, e), e.target);
    forall k | k !in have + e.gain ensures Missable(g, init, given, e.target, k) {
      var q :| Leads(g, init, q, s) && k !in given + Gathered(q);
      assert Leads(g, init, Then(q, s, e), e.target);
    }
  }

  ghost predicate AllJustified<N(!new)>(g: FlowGraph<N>, init: N, given: set<Key>, errors: seq<Missing<N>>) {
    forall x | x in errors :: Justified(g, init, given, x)
  }

  lemma {:induction false} PushJustified<N(!new)>(g: FlowGraph<N>, init: N, given: set<Key>, s: N, have: set<Key>, e: Edge<N>,
                                         needs: seq<Need>, errors: seq<Missing<N>>)
    requires Witnessed(g, init, given, s, have) && e in EdgesFrom(g, s)
    requires forall n | n in needs :: n in e.needs
    requires AllJustified(g, init, given, errors)
    ensures AllJustified(g, init, given, Push(s, have, needs, errors))
  {
    if needs != [] {
      var n := needs[0];
      if n.key in have + n.given {
        PushJustified(g, init, given, s, have, e, needs[1..], errors);
      } else {
        var p :| Leads(g, init, p, s) && n.key !in given + Gathered(p);
        assert n.key !in (given + n.given) + Gathered(p);
        assert Missable(g, init, given + n.given, s, n.key);
        PushJustified(g, init, given, s, have, e, needs[1..], errors + [Missing(s, n, have + n.given)]);
      }
    }
  }

  ghost predicate Sound<N(!new)>(g: FlowGraph<N>, init: N, given: set<Key>, st: Progress<N>) {
    AllWitnessed(g, init, given, st.avail) && AllJustified(g, init, given, st.errors)
  }

  lemma {:induction false} VisitSound<N(!new)>(join: Join, g: FlowGraph<N>, keys: set<Key>, s: N, available: set<Key>, st: Progress<N>,
                                      init: N, given: set<Key>)
    requires s in States(g) && available <= keys && Bounded(g, keys, st.avail)
    requires Sound(g, init, given, st) && Witnessed(g, init, given, s, available)
    ensures Sound(g, init, given, Visit(join, g, keys, s, available, st))
    decreases Open(States(g), keys, st.avail), 0
  {
    if !(s in st.avail && Settled(join, st.avail[s], available)) {
      MergeShrinks(join, States(g), keys, s, available, st.avail);
      FollowSound(join, g, keys, s, EdgesFrom(g, s), Progress(Merge(s, available, st.avail), st.errors), init, given);
    }
  }

  lemma {:induction false} FollowSound<N(!new)>(join: Join, g: FlowGraph<N>, keys: set<Key>, s: N, es: seq<Edge<N>>, st: Progress<N>,
                                       init: N, given: set<Key>)
    requires s in st.avail && Bounded(g, keys, st.avail)
    requires forall e | e in es :: e in EdgesFrom(g, s)
    requires Sound(g, init, given, st)
    ensures Sound(g, init, given, Follow(join, g, keys, s, es, st))
    decreases Open(States(g), keys, st.avail), 1 + |es|
  {
    if es != [] {
      var e, have := es[0], st.avail[s];
      EdgeTargets(g, s, e);
      WitnessEdge(g, init, given, s, have, e);
      PushJustified(g, init, given, s, have, e, e.needs, st.errors);
      VisitSound(join, g, keys, e.target, have + e.gain, Progress(st.avail, Push(s, have, e.needs, st.errors)), init, given);
      var first := Take(join, g, keys, s, e, st);
      RefinesOpen(States(g), keys, first.avail, st.avail);
      FollowSound(join, g, keys, s, es[1..], first, init, given);
    }
  }

  // ---------- the whole analysis ----------

  /** The traversal from `init` with nothing recorded yet. */
  ghost function Analyse<N(!new)>(join: Join, g: FlowGraph<N>, init: N, given: set<Key>): (r: Progress<N>)
    requires init in States(g)
  {
    Visit(join, g, KeysOf(g) + given, init, given, Progress(map[], []))
  }

  /** Every recorded set survives each edge: the check of one edge at a time. */
  ghost predicate EdgeConsistent<N(!new)>(g: FlowGraph<N>, m: Avail<N>) {
    forall s, e | s in m && e in EdgesFrom(g, s) :: e.target in m && m[e.target] <= m[s] + e.gain
  }

  ghost predicate NeedsMet<N(!new)>(g: FlowGraph<N>, m: Avail<N>) {
    forall s, e, n | s in m && e in EdgesFrom(g, s) && n in e.needs :: n.key in m[s] + n.given
  }

  lemma {:induction false} PathsStayRecorded<N(!new)>(g: FlowGraph<N>, m: Avail<N>, init: N, p: Path<N>, s: N)
    requires init in m && Leads(g, init, p, s)
    requires forall x, e | x in m && e in EdgesFrom(g, x) :: e.target in m
    ensures s in m
  {
    match p
    case Here =>
    case Then(q, x, e) => PathsStayRecorded(g, m, init, q, x);
  }

  lemma {:induction false} ConsistentBelowPaths<N(!new)>(g: FlowGraph<N>, m: Avail<N>, init: N, given: set<Key>, p: Path<N>, s: N)
    requires init in m && m[init] <= given && EdgeConsistent(g, m) && Leads(g, init, p, s)
    ensures s in m && m[s] <= given + Gathered(p)
  {
    match p
    case Here =>
    case Then(q, x, e) => ConsistentBelowPaths(g, m, init, given, q, x);
  }

  lemma AnalyseFacts<N(!new)>(join: Join, g: FlowGraph<N>, init: N, given: set<Key>)
    requires init in States(g)
    ensures var r := Analyse(join, g, init, given);
      && init in r.avail && r.avail[init] <= given
      && AllWitnessed(g, init, given, r.avail)
      && AllJustified(g, init, given, r.errors)
      && (forall s | s in r.avail :: Done(join, g, r, s))
  {
    var keys := KeysOf(g) + given;
    assert Leads(g, init, Here, init);
    forall k | k !in given ensures Missable(g, init, given, init, k) {
      var here: Path<N> := Here;
      assert Leads(g, init, here, init) && k !in given + Gathered(here);
    }
    assert Witnessed(g, init, given, init, given);
    var start := Progress(map[], []);
    VisitCompletes(join, g, keys, init, given, start);
    VisitSound(join, g, keys, init, given, start, init, given);
    MergeShrinks(join, States(g), keys, init, given, start.avail);
  }

  /** Both joins record exactly the states the edges reach, and no set is smaller than the meet over paths. */
  lemma RecordsReachedStates<N(!new)>(join: Join, g: FlowGraph<N>, init: N, given: set<Key>, s: N)
    requires init in States(g)
    ensures s in Analyse(join, g, init, given).avail <==> Reaches(g, init, s)
  {
    AnalyseFacts(join, g, init, given);
    var r := Analyse(join, g, init, given);
    if Reaches(g, init, s) {
      var p :| Leads(g, init, p, s);
      forall x, e | x in r.avail && e in EdgesFrom(g, x) ensures e.target in r.avail {
        assert EdgeDone(join, r, x, e);
      }
      PathsStayRecorded(g, r.avail, init, p, s);
    }
  }

  lemma NeverBelowMeet<N(!new)>(join: Join, g: FlowGraph<N>, init: N, given: set<Key>, s: N, k: Key)
    requires init in States(g)
    requires s in Analyse(join, g, init, given).avail && !Missable(g, init, given, s, k)
    ensures k in Analyse(join, g, init, given).avail[s]
  {
    AnalyseFacts(join, g, init, given);
    assert Witnessed(g, init, given, s, Analyse(join, g, init, given).avail[s]);
  }

  /** With either join the result is the meet over all paths exactly when it passes the one-edge check. */
  lemma ExactIffEdgeConsistent<N(!new)>(join: Join, g: FlowGraph<N>, init: N, given: set<Key>)
    requires init in States(g)
    ensures var m := Analyse(join, g, init, given).avail;
      IsMeetOverPaths(g, init, given, m) <==> EdgeConsistent(g, m)
  {
    AnalyseFacts(join, g, init, given);
    var r := Analyse(join, g, init, given);
    var m := r.avail;
    if EdgeConsistent(g, m) {
      forall s ensures s in m <==> Reaches(g, init, s) { RecordsReachedStates(join, g, init, given, s); }
      forall s, k | s in m ensures k in m[s] <==> !Missable(g, init, given, s, k) {
        if k in m[s] && Missable(g, init, given, s, k) {
          var p :| Leads(g, init, p, s) && k !in given + Gathered(p);
          ConsistentBelowPaths(g, m, init, given, p, s);
        }
        assert Witnessed(g, init, given, s, m[s]);
      }
    }
    if IsMeetOverPaths(g, init, given, m) {
      forall s, e | s in m && e in EdgesFrom(g, s) ensures e.target in m && m[e.target] <= m[s] + e.gain {
        assert EdgeDone(join, r, s, e);
        forall k | k in m[e.target] ensures k in m[s] + e.gain {
          if k !in m[s] + e.gain {
            assert Missable(g, init, given, s, k);
            assert Witnessed(g, init, given, s, m[s]);
            WitnessEdge(g, init, given, s, m[s], e);
          }
        }
      }
    }
  }

  /** The join the comments describe computes the meet over all paths, on every graph. */
  lemma IntersectionIsExact<N(!new)>(g: FlowGraph<N>, init: N, given: set<Key>)
    requires init in States(g)
    ensures IsMeetOverPaths(g, init, given, Analyse(Intersection, g, init, given).avail)
  {
    AnalyseFacts(Intersection, g, init, given);
    var r := Analyse(Intersection, g, init, given);
    forall s, e | s in r.avail && e in EdgesFrom(g, s)
      ensures e.target in r.avail && r.avail[e.target] <= r.avail[s] + e.gain
    {
      assert EdgeDone(Intersection, r, s, e);
    }
    ExactIffEdgeConsistent(Intersection, g, init, given);
  }

  /** The early return can only leave sets too large. */
  lemma WrittenContainsIntersection<N(!new)>(g: FlowGraph<N>, init: N, given: set<Key>, s: N)
    requires init in States(g)
    ensures var w := Analyse(AsWritten, g, init, given).avail;
      var x := Analyse(Intersection, g, init, given).avail;
      (s in w <==> s in x) && (s in w ==> x[s] <= w[s])
  {
    RecordsReachedStates(AsWritten, g, init, given, s);
    RecordsReachedStates(Intersection, g, init, given, s);
    IntersectionIsExact(g, init, given);
    var x := Analyse(Intersection, g, init, given).avail;
    if s in x {
      forall k | k in x[s] ensures k in Analyse(AsWritten, g, init, given).avail[s] {
        NeverBelowMeet(AsWritten, g, init, given, s, k);
      }
    }
  }

  /** With either join, no error is raised exactly when every need is met by the final sets. */
  lemma AcceptsIffNeedsMet<N(!new)>(join: Join, g: FlowGraph<N>, init: N, given: set<Key>)
    requires init in States(g)
    ensures var r := Analyse(join, g, init, given);
      r.errors == [] <==> NeedsMet(g, r.avail)
  {
    AnalyseFacts(join, g, init, given);
    var r := Analyse(join, g, init, given);
    if r.errors == [] {
      forall s, e, n | s in r.avail && e in EdgesFrom(g, s) && n in e.needs ensures n.key in r.avail[s] + n.given {
        assert EdgeDone(join, r, s, e);
      }
    } else {
      ErrorsPersist(join, g, KeysOf(g) + given, init, given, Progress(map[], []));
      var x := r.errors[0];
      assert x in r.errors;
    }
  }

  /** An error raised against an intermediate set is still an unmet need of the final set. */
  ghost predicate StillUnmet<N(!new)>(g: FlowGraph<N>, m: Avail<N>, x: Missing<N>) {
    && x.state in m && NeedAt(g, x.state, x.need) && x.need.key !in m[x.state] + x.need.given
  }

  ghost predicate AllStillUnmet<N(!new)>(g: FlowGraph<N>, st: Progress<N>) {
    forall x | x in st.errors :: StillUnmet(g, st.avail, x)
  }

  lemma {:induction false} PushUnmet<N(!new)>(g: FlowGraph<N>, m: Avail<N>, s: N, e: Edge<N>, needs: seq<Need>, errors: seq<Missing<N>>)
    requires s in m && e in EdgesFrom(g, s) && AllStillUnmet(g, Progress(m, errors))
    requires forall n | n in needs :: n in e.needs
    ensures AllStillUnmet(g, Progress(m, Push(s, m[s], needs, errors)))
  {
    if needs != [] {
      var known := m[s] + needs[0].given;
      var errors1 := if needs[0].key in known then errors else errors + [Missing(s, needs[0], known)];
      assert NeedAt(g, s, needs[0]);
      assert forall x | x in errors1 :: StillUnmet(g, m, x);
      PushUnmet(g, m, s, e, needs[1..], errors1);
    }
  }

  lemma {:induction false} ErrorsPersist<N(!new)>(join: Join, g: FlowGraph<N>, keys: set<Key>, s: N, available: set<Key>, st: Progress<N>)
    requires s in States(g) && available <= keys && Bounded(g, keys, st.avail)
    requires AllStillUnmet(g, st)
    ensures AllStillUnmet(g, Visit(join, g, keys, s, available, st))
    decreases Open(States(g), keys, st.avail), 0
  {
    if !(s in st.avail && Settled(join, st.avail[s], available)) {
      MergeShrinks(join, States(g), keys, s, available, st.avail);
      var st1 := Progress(Merge(s, available, st.avail), st.errors);
      assert forall x | x in st1.errors :: StillUnmet(g, st.avail, x);
      FollowErrorsPersist(join, g, keys, s, EdgesFrom(g, s), st1);
    }
  }

  lemma {:induction false} FollowErrorsPersist<N(!new)>(join: Join, g: FlowGraph<N>, keys: set<Key>, s: N, es: seq<Edge<N>>, st: Progress<N>)
    requires s in st.avail && Bounded(g, keys, st.avail)
    requires forall e | e in es :: e in EdgesFrom(g, s)
    requires AllStillUnmet(g, st)
    ensures AllStillUnmet(g, Follow(join, g, keys, s, es, st))
    decreases Open(States(g), keys, st.avail), 1 + |es|
  {
    if es != [] {
      var e, have := es[0], st.avail[s];
      EdgeTargets(g, s, e);
      PushUnmet(g, st.avail, s, e, e.needs, st.errors);
      ErrorsPersist(join, g, keys, e.target, have + e.gain, Progress(st.avail, Push(s, have, e.needs, st.errors)));
      var first := Take(join, g, keys, s, e, st);
      RefinesOpen(States(g), keys, first.avail, st.avail);
      FollowErrorsPersist(join, g, keys, s, es[1..], first);
    }
  }

  /** The path `p` leads to the state of `x`, an edge out of it has the need of `x`, and nothing provides the key. */
  ghost predicate Shows<N>(g: FlowGraph<N>, init: N, given: set<Key>, x: Missing<N>, p: Path<N>, e: Edge<N>) {
    && Leads(g, init, p, x.state) && e in EdgesFrom(g, x.state) && x.need in e.needs
    && x.need.key !in given + Gathered(p) + x.need.given
  }

  /** No false alarms: every error the analysis raises, with either join, comes with a path on which the need is
    * provided nowhere. */
  lemma NoFalseAlarm<N(!new)>(join: Join, g: FlowGraph<N>, init: N, given: set<Key>, x: Missing<N>)
    requires init in States(g) && x in Analyse(join, g, init, given).errors
    ensures exists p, e :: Shows(g, init, given, x, p, e)
  {
    AnalyseFacts(join, g, init, given);
    assert Justified(g, init, given, x);
    var e :| e in EdgesFrom(g, x.state) && x.need in e.needs;
    var p :| Leads(g, init, p, x.state) && x.need.key !in (given + x.need.given) + Gathered(p);
    assert Shows(g, init, given, x, p, e);
  }

  /** On every path, every need is provided before it is used. */
  ghost predicate PathsProvide<N(!new)>(g: FlowGraph<N>, init: N, given: set<Key>) {
    forall p, s, e, n | Leads(g, init, p, s) && e in EdgesFrom(g, s) && n in e.needs :: n.key in given + Gathered(p) + n.given
  }

  lemma AcceptedPathsProvide<N(!new)>(g: FlowGraph<N>, init: N, given: set<Key>)
    requires init in States(g) && Analyse(Intersection, g, init, given).errors == []
    ensures PathsProvide(g, init, given)
  {
    var m := Analyse(Intersection, g, init, given).avail;
    IntersectionIsExact(g, init, given);
    AcceptsIffNeedsMet(Intersection, g, init, given);
    forall p, s, e, n | Leads(g, init, p, s) && e in EdgesFrom(g, s) && n in e.needs
      ensures n.key in given + Gathered(p) + n.given
    {
      assert Reaches(g, init, s);
      assert s in m && n.key in m[s] + n.given;
      if n.key !in given + Gathered(p) { assert Missable(g, init, given, s, n.key); }
    }
  }

  /** The intersection join accepts exactly when every path provides. */
  lemma IntersectionAcceptsIffPathsProvide<N(!new)>(g: FlowGraph<N>, init: N, given: set<Key>)
    requires init in States(g)
    ensures Analyse(Intersection, g, init, given).errors == [] <==> PathsProvide(g, init, given)
  {
    var errors := Analyse(Intersection, g, init, given).errors;
    if errors == [] {
      AcceptedPathsProvide(g, init, given);
    } else {
      NoFalseAlarm(Intersection, g, init, given, errors[0]);
      var p, e :| Shows(g, init, given, errors[0], p, e);
    }
  }

  /** As written: acceptance is exact too whenever the final map passes the one-edge check. */
  lemma WrittenAcceptsIffPathsProvide<N(!new)>(g: FlowGraph<N>, init: N, given: set<Key>)
    requires init in States(g)
    requires EdgeConsistent(g, Analyse(AsWritten, g, init, given).avail)
    ensures Analyse(AsWritten, g, init, given).errors == [] <==> Analyse(Intersection, g, init, given).errors == []
  {
    ExactIffEdgeConsistent(AsWritten, g, init, given);
    IntersectionIsExact(g, init, given);
    AcceptsIffNeedsMet(AsWritten, g, init, given);
    AcceptsIffNeedsMet(Intersection, g, init, given);
    var w := Analyse(AsWritten, g, init, given).avail;
    var x := Analyse(Intersection, g, init, given).avail;
    assert forall s :: s in w <==> s in x;
    assert forall s | s in w :: w[s] == x[s];
    assert w == x;
  }

  /** The intersection join accepts exactly the definitions for which some map passes the one-edge check and meets
    * every need: no sound one-edge argument accepts more. */
  lemma IntersectionIsComplete<N(!new)>(g: FlowGraph<N>, init: N, given: set<Key>)
    requires init in States(g)
    ensures Analyse(Intersection, g, init, given).errors == []
      <==> exists m: Avail<N> :: init in m && m[init] <= given && EdgeConsistent(g, m) && NeedsMet(g, m)
  {
    var r := Analyse(Intersection, g, init, given);
    AnalyseFacts(Intersection, g, init, given);
    AcceptsIffNeedsMet(Intersection, g, init, given);
    IntersectionIsExact(g, init, given);
    ExactIffEdgeConsistent(Intersection, g, init, given);
    if m: Avail<N> :| init in m && m[init] <= given && EdgeConsistent(g, m) && NeedsMet(g, m) {
      IntersectionAcceptsIffPathsProvide(g, init, given);
      forall p, s, e, n | Leads(g, init, p, s) && e in EdgesFrom(g, s) && n in e.needs
        ensures n.key in given + Gathered(p) + n.given
      {
        ConsistentBelowPaths(g, m, init, given, p, s);
      }
    }
  }

  /** Whatever the intersection join accepts, the join as written accepts. */
  lemma WrittenIsMoreLenient<N(!new)>(g: FlowGraph<N>, init: N, given: set<Key>)
    requires init in States(g) && Analyse(Intersection, g, init, given).errors == []
    ensures Analyse(AsWritten, g, init, given).errors == []
  {
    AcceptsIffNeedsMet(Intersection, g, init, given);
    AcceptsIffNeedsMet(AsWritten, g, init, given);
    var w, x := Analyse(AsWritten, g, init, given).avail, Analyse(Intersection, g, init, given).avail;
    forall s, e, n | s in w && e in EdgesFrom(g, s) && n in e.needs ensures n.key in w[s] + n.given {
      WrittenContainsIntersection(g, init, given, s);
    }
  }
}
