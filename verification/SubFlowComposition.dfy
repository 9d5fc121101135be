/** Sub-flow entry composes: a plan for a parent from a map over its own states and a plan for each sub-flow standing alone. */
module SubFlowComposition {
  import opened Definition
  import opened DataFlow
  import opened RequiresProduces
  import opened EngineModel
  import opened EngineMoves
  import opened RunSafety
  import opened SubFlowEntry

  /** A parent, what callers bring, a map over the parent's own states, and for each state that enters a sub-flow a map of
    * that sub-flow. */
  datatype Joint = Joint(parent: FlowDef, brings: Supply, own: Cert, inner: map<State, Cert>)

  /** The definition whose map is `inner[s]`. */
  function SubOf(d: FlowDef, s: State): FlowDef
    requires Link(d, s).Some?
  {
    Link(d, s).value.definition
  }

  ghost predicate EntersAt(d: FlowDef, own: Cert, s: State) {
    Running([s]) in own && !d.Terminal(s) && Link(d, s).Some?
  }

  // ---------- the parent by itself ----------

  /** A parent's map speaks of its own states only. */
  ghost predicate OwnStates(own: Cert) { forall q | q in own :: |q.path| == 1 }

  /** How a sub-flow may end for its parent. */
  ghost predicate MayExit(sub: FlowDef, exit: string) {
    exit in sub.terminals || exit == "TERMINAL_ERROR" || exit == "ERROR"
  }

  /** However the sub-flow of `s` ends, the parent goes on to states that expect no more than `s` guarantees. */
  ghost predicate ExitsKept(d: FlowDef, own: Cert, s: State)
    requires Running([s]) in own && Link(d, s).Some?
  {
    forall exit | MayExit(SubOf(d, s), exit) :: AllSurvive(own, own[Running([s])], LeaveEdges(d, [s], exit, true, {}))
  }

  /** The parent keeps its map, sub-flows left out: where one is entered, the parent may be left waiting, and may go on when
    * the sub-flow has ended. */
  ghost predicate ParentKept(d: FlowDef, brings: Supply, own: Cert) {
    && OwnStates(own)
    && (forall s | EntersAt(d, own, s) :: Fits(own, Resting([s]), own[Running([s])]) && ExitsKept(d, own, s))
    && (forall q | q in own && !(q.Running? && EntersAt(d, own, q.path[0])) :: AllSurvive(own, own[q], EdgesAt(d, brings, q)))
  }

  /** The processors of external transitions, which a resume runs in a flow by itself but not in a sub-flow, declare no
    * produces. */
  ghost predicate SilentProcessors(d: FlowDef) {
    forall t | t in d.transitions && t.kind == External :: ProcessorProduces(t) == {}
  }

  /** The maps of the sub-flows, each of them checked alone. */
  ghost predicate InnerKept(j: Joint) {
    && (forall s :: s in j.inner <==> EntersAt(j.parent, j.own, s))
    && (forall s | s in j.inner ::
          SilentProcessors(SubOf(j.parent, s)) && Guaranteed(Plan(SubOf(j.parent, s), j.brings, j.inner[s])))
  }

  ghost predicate PiecesKept(j: Joint) { ParentKept(j.parent, j.brings, j.own) && InnerKept(j) }

  // ---------- the joint plan ----------

  function Shift(s: State, q: Pos): Pos { if q.Running? then Running([s] + q.path) else Resting([s] + q.path) }

  function Unshift(q: Pos): Pos
    requires q.path != []
  {
    if q.Running? then Running(q.path[1..]) else Resting(q.path[1..])
  }

  lemma ShiftBack(s: State, q: Pos)
    ensures Shift(s, q).path != [] && Shift(s, q).path[0] == s && Unshift(Shift(s, q)) == q
  {
    assert ([s] + q.path)[1..] == q.path;
  }

  /** What the joint plan guarantees inside a sub-flow: what the parent's state guarantees, and what the sub-flow adds. */
  function ValueAt(j: Joint, q: Pos): set<Key> {
    if q in j.own then j.own[q]
    else if q.path != [] && Running([q.path[0]]) in j.own && q.path[0] in j.inner && Unshift(q) in j.inner[q.path[0]]
    then j.own[Running([q.path[0]])] + j.inner[q.path[0]][Unshift(q)]
    else {}
  }

  function InnerPositions(j: Joint): set<Pos> {
    set s, q | s in j.inner && q in j.inner[s] && q.path != [] :: Shift(s, q)
  }

  function Joined(j: Joint): Cert { map q | q in j.own.Keys + InnerPositions(j) :: ValueAt(j, q) }

  lemma OwnFits(j: Joint, q: Pos, have: set<Key>)
    requires Fits(j.own, q, have)
    ensures Fits(Joined(j), q, have)
  {}

  lemma InnerValue(j: Joint, s: State, q: Pos)
    requires PiecesKept(j) && s in j.inner && q in j.inner[s] && q.path != []
    ensures Shift(s, q) in Joined(j) && Joined(j)[Shift(s, q)] == j.own[Running([s])] + j.inner[s][q]
  {
    ShiftBack(s, q);
    assert |Shift(s, q).path| > 1;
    assert Shift(s, q) in InnerPositions(j);
  }

  lemma InnerFits(j: Joint, s: State, q: Pos, have: set<Key>)
    requires PiecesKept(j) && s in j.inner && Fits(j.inner[s], q, have) && q.path != []
    ensures Fits(Joined(j), Shift(s, q), j.own[Running([s])] + have)
  {
    InnerValue(j, s, q);
  }

  /** A position of the joint plan is the parent's or lies in one sub-flow. */
  lemma JoinedPosition(j: Joint, q: Pos) returns (s: State, p: Pos)
    requires PiecesKept(j) && q in Joined(j) && q !in j.own
    ensures s in j.inner && p in j.inner[s] && p.path != [] && q == Shift(s, p)
  {
    s, p :| s in j.inner && p in j.inner[s] && p.path != [] && q == Shift(s, p);
  }

  // ---------- the parent's moves in the joint plan ----------

  lemma OwnSurvive(j: Joint, less: set<Key>, more: set<Key>, es: seq<Edge<Pos>>)
    requires AllSurvive(j.own, less, es) && less <= more
    ensures AllSurvive(Joined(j), more, es)
  {
    forall e | e in es ensures Survives(Joined(j), more, e) {
      assert Survives(j.own, less, e);
      OwnFits(j, e.target, more + e.gain);
    }
  }

  /** An edge with a larger gain, or without the move that leaves the parent waiting. */
  lemma LeaveWeaker(d: FlowDef, s: State, exit: string, dropped: bool, gain: set<Key>, m: Cert, have: set<Key>)
    requires AllSurvive(m, have, LeaveEdges(d, [s], exit, true, {}))
    ensures AllSurvive(m, have, LeaveEdges(d, [s], exit, dropped, gain))
  {
    assert [s][..0] == [] && [] + [s] == [s];
    if Link(d, s).Some? {
      var full, part := LeaveEdges(d, [s], exit, true, {}), LeaveEdges(d, [s], exit, dropped, gain);
      assert full == LeaveParent(d, [s], [], d, s, exit, true, {});
      assert part == LeaveParent(d, [s], [], d, s, exit, dropped, gain);
      forall e | e in part ensures Survives(m, have, e) {
        assert To(e.target, {}) in full;
        assert Survives(m, have, To(e.target, {}));
      }
    }
  }

  lemma ExitSurvives(j: Joint, s: State, exit: string, dropped: bool, gain: set<Key>, have: set<Key>)
    requires PiecesKept(j) && s in j.inner && MayExit(SubOf(j.parent, s), exit) && j.own[Running([s])] <= have
    ensures AllSurvive(Joined(j), have, LeaveEdges(j.parent, [s], exit, dropped, gain))
  {
    OwnSurvive(j, j.own[Running([s])], have, LeaveEdges(j.parent, [s], exit, true, {}));
    LeaveWeaker(j.parent, s, exit, dropped, gain, Joined(j), have);
  }

  // ---------- the sub-flow's moves in the joint plan ----------

  function ShiftEdge(s: State, e: Edge<Pos>): Edge<Pos> { Edge(Shift(s, e.target), e.gain, e.needs) }

  lemma EdgeShifts(j: Joint, s: State, have: set<Key>, e: Edge<Pos>)
    requires PiecesKept(j) && s in j.inner && Survives(j.inner[s], have, e) && e.target.path != []
    ensures Survives(Joined(j), j.own[Running([s])] + have, ShiftEdge(s, e))
  {
    var base := j.own[Running([s])];
    InnerFits(j, s, e.target, have + e.gain);
    assert base + (have + e.gain) == base + have + e.gain;
  }

  lemma OneShifts(j: Joint, s: State, have: set<Key>, e: Edge<Pos>)
    requires PiecesKept(j) && s in j.inner && AllSurvive(j.inner[s], have, [e]) && e.target.path != []
    ensures AllSurvive(Joined(j), j.own[Running([s])] + have, [ShiftEdge(s, e)])
  {
    OneSurvives(j.inner[s], have, e);
    EdgeShifts(j, s, have, e);
  }

  lemma DefShifts(d: FlowDef, s: State, above: seq<State>)
    requires Link(d, s).Some?
    ensures DefAt(d, [s] + above) == DefAt(SubOf(d, s), above)
  {
    assert ([s] + above)[0] == s && ([s] + above)[1..] == above;
  }

  lemma Cons(s: State, above: seq<State>, x: State)
    ensures [s] + above + [x] == [s] + (above + [x])
  {}

  lemma SplitLast(s: State, path: seq<State>)
    requires path != []
    ensures var n, out := |path| - 1, [s] + path; out[..|out| - 1] == [s] + path[..n] && out[|out| - 1] == path[n]
  {}

  lemma MoveShifts(j: Joint, s: State, have: set<Key>, above: seq<State>, x: State, gain: set<Key>)
    requires PiecesKept(j) && s in j.inner && AllSurvive(j.inner[s], have, [To(Running(above + [x]), gain)])
    ensures AllSurvive(Joined(j), j.own[Running([s])] + have, [To(Running([s] + above + [x]), gain)])
  {
    Cons(s, above, x);
    OneShifts(j, s, have, To(Running(above + [x]), gain));
  }

  /** An error with nowhere to go, inside the sub-flow. */
  lemma {:induction false} BubbleShifts(j: Joint, s: State, up: seq<State>, x: State, gain: set<Key>, have: set<Key>)
    requires PiecesKept(j) && s in j.inner
    requires AllSurvive(j.inner[s], have, [To(Running(up + [x]), gain)] + LeaveEdges(SubOf(j.parent, s), up, "TERMINAL_ERROR", true, gain))
    ensures AllSurvive(Joined(j), j.own[Running([s])] + have,
      [To(Running([s] + up + [x]), gain)] + LeaveEdges(j.parent, [s] + up, "TERMINAL_ERROR", true, gain))
    decreases |up|, 2
  {
    var stay, above := [To(Running(up + [x]), gain)], LeaveEdges(SubOf(j.parent, s), up, "TERMINAL_ERROR", true, gain);
    SurviveAppend(j.inner[s], have, stay, above);
    MoveShifts(j, s, have, up, x, gain);
    LeaveShifts(j, s, up, "TERMINAL_ERROR", true, gain, have);
    SurviveAppend(Joined(j), j.own[Running([s])] + have, [To(Running([s] + up + [x]), gain)],
      LeaveEdges(j.parent, [s] + up, "TERMINAL_ERROR", true, gain));
  }

  /** The moves of a parent that do not leave it waiting. */
  ghost function MovesOn(d: FlowDef, up: seq<State>, x: State, parent: FlowDef, gain: set<Key>): seq<Edge<Pos>> {
    if x in parent.errorTransitions then [To(Running(up + [parent.errorTransitions[x]]), gain)]
    else [To(Running(up + [x]), gain)] + LeaveEdges(d, up, "TERMINAL_ERROR", true, gain)
  }

  lemma LeaveParentIs(d: FlowDef, up: seq<State>, x: State, parent: FlowDef, exit: string, dropped: bool, gain: set<Key>)
    requires Link(parent, x).Some?
    ensures var link := Link(parent, x).value;
      LeaveParent(d, up + [x], up, parent, x, exit, dropped, gain) ==
        if exit in link.exitMappings then [To(Running(up + [link.exitMappings[exit]]), gain)]
        else (if dropped && up == [] then [To(Resting(up + [x]), gain)] else []) + MovesOn(d, up, x, parent, gain)
  {}

  lemma {:induction false} MovesOnShift(j: Joint, s: State, up: seq<State>, x: State, parent: FlowDef, gain: set<Key>, have: set<Key>)
    requires PiecesKept(j) && s in j.inner && AllSurvive(j.inner[s], have, MovesOn(SubOf(j.parent, s), up, x, parent, gain))
    ensures AllSurvive(Joined(j), j.own[Running([s])] + have, MovesOn(j.parent, [s] + up, x, parent, gain))
    decreases |up|, 3
  {
    if x in parent.errorTransitions {
      MoveShifts(j, s, have, up, parent.errorTransitions[x], gain);
    } else {
      BubbleShifts(j, s, up, x, gain, have);
    }
  }

  /** The end of a flow nested in the sub-flow at `up + [x]`. */
  lemma {:induction false} ParentShifts(j: Joint, s: State, up: seq<State>, x: State, parent: FlowDef, exit: string, dropped: bool,
                                        gain: set<Key>, have: set<Key>)
    requires PiecesKept(j) && s in j.inner && Link(parent, x).Some?
    requires AllSurvive(j.inner[s], have, LeaveParent(SubOf(j.parent, s), up + [x], up, parent, x, exit, dropped, gain))
    ensures AllSurvive(Joined(j), j.own[Running([s])] + have,
      LeaveParent(j.parent, [s] + up + [x], [s] + up, parent, x, exit, dropped, gain))
    decreases |up|, 4
  {
    LeaveParentIs(SubOf(j.parent, s), up, x, parent, exit, dropped, gain);
    LeaveParentIs(j.parent, [s] + up, x, parent, exit, dropped, gain);
    var link := Link(parent, x).value;
    if exit in link.exitMappings {
      MoveShifts(j, s, have, up, link.exitMappings[exit], gain);
    } else {
      var rest := if dropped && up == [] then [To(Resting(up + [x]), gain)] else [];
      SurviveAppend(j.inner[s], have, rest, MovesOn(SubOf(j.parent, s), up, x, parent, gain));
      MovesOnShift(j, s, up, x, parent, gain, have);
      assert [] + MovesOn(j.parent, [s] + up, x, parent, gain) == MovesOn(j.parent, [s] + up, x, parent, gain);
    }
  }

  lemma LeaveEdgesAt(d: FlowDef, up: seq<State>, x: State, exit: string, dropped: bool, gain: set<Key>)
    ensures LeaveEdges(d, up + [x], exit, dropped, gain) ==
      match DefAt(d, up)
      case None => []
      case Some(parent) => LeaveParent(d, up + [x], up, parent, x, exit, dropped, gain)
  {
    assert (up + [x])[..|up|] == up;
  }

  lemma {:induction false} NestedShifts(j: Joint, s: State, up: seq<State>, x: State, exit: string, dropped: bool, gain: set<Key>,
                                        have: set<Key>)
    requires PiecesKept(j) && s in j.inner
    requires AllSurvive(j.inner[s], have, LeaveEdges(SubOf(j.parent, s), up + [x], exit, dropped, gain))
    ensures AllSurvive(Joined(j), j.own[Running([s])] + have, LeaveEdges(j.parent, [s] + up + [x], exit, dropped, gain))
    decreases |up|, 5
  {
    LeaveEdgesAt(SubOf(j.parent, s), up, x, exit, dropped, gain);
    LeaveEdgesAt(j.parent, [s] + up, x, exit, dropped, gain);
    DefShifts(j.parent, s, up);
    match DefAt(SubOf(j.parent, s), up)
    case None =>
    case Some(parent) => if Link(parent, x).Some? { ParentShifts(j, s, up, x, parent, exit, dropped, gain, have); }
  }

  lemma OwnEndShifts(j: Joint, s: State, exit: string, dropped: bool, gain: set<Key>, have: set<Key>)
    requires PiecesKept(j) && s in j.inner && MayExit(SubOf(j.parent, s), exit)
    ensures AllSurvive(Joined(j), j.own[Running([s])] + have, LeaveEdges(j.parent, [s] + [], exit, dropped, gain))
  {
    assert [s] + [] == [s];
    ExitSurvives(j, s, exit, dropped, gain, j.own[Running([s])] + have);
  }

  lemma Split(above: seq<State>) returns (up: seq<State>, x: State)
    requires above != []
    ensures above == up + [x] && |up| < |above|
  {
    up, x := above[..|above| - 1], above[|above| - 1];
  }

  /** Inside a sub-flow, the end of a nested flow moves it as it does standing alone; its own end moves the parent. */
  lemma {:induction false} LeaveShifts(j: Joint, s: State, above: seq<State>, exit: string, dropped: bool, gain: set<Key>, have: set<Key>)
    requires PiecesKept(j) && s in j.inner && (above == [] ==> MayExit(SubOf(j.parent, s), exit))
    requires AllSurvive(j.inner[s], have, LeaveEdges(SubOf(j.parent, s), above, exit, dropped, gain))
    ensures AllSurvive(Joined(j), j.own[Running([s])] + have, LeaveEdges(j.parent, [s] + above, exit, dropped, gain))
    decreases |above|, 0
  {
    if above == [] {
      OwnEndShifts(j, s, exit, dropped, gain, have);
    } else {
      var up, x := Split(above);
      NestedShifts(j, s, up, x, exit, dropped, gain, have);
      Cons(s, up, x);
    }
  }

  // ---------- errors ----------

  lemma RoutedShifts(j: Joint, s: State, above: seq<State>, z: State, gain: set<Key>, have: set<Key>)
    requires PiecesKept(j) && s in j.inner
    requires AllSurvive(j.inner[s], have, RoutedEdges(SubOf(j.parent, s), above, z, gain))
    ensures AllSurvive(Joined(j), j.own[Running([s])] + have, RoutedEdges(j.parent, [s] + above, z, gain))
  {
    var sub, base := SubOf(j.parent, s), j.own[Running([s])];
    var rest := if |above| <= 1 then [To(Resting(above + [z]), gain)] else [];
    var ended := DefAt(sub, above).Some? && DefAt(sub, above).value.Terminal(z);
    var exits := if ended then ExitEdges(sub, above, z) else [];
    SurviveAppend(j.inner[s], have, rest, exits);
    DefShifts(j.parent, s, above);
    if above == [] {
      Cons(s, above, z);
      OneShifts(j, s, have, To(Resting(above + [z]), gain));
    }
    if ended { LeaveShifts(j, s, above, z, true, {}, have); }
    var rest' := if above == [] then [To(Resting([s] + above + [z]), gain)] else [];
    var exits' := if ended then ExitEdges(j.parent, [s] + above, z) else [];
    assert RoutedEdges(j.parent, [s] + above, z, gain) == rest' + exits';
    SurviveAppend(Joined(j), base + have, rest', exits');
  }

  lemma {:induction false} RoutesShift(j: Joint, s: State, above: seq<State>, routes: seq<ErrorRoute>, seen: set<string>, gain: set<Key>, have: set<Key>)
    requires PiecesKept(j) && s in j.inner
    requires AllSurvive(j.inner[s], have, RouteEdges(SubOf(j.parent, s), above, routes, seen, gain))
    ensures AllSurvive(Joined(j), j.own[Running([s])] + have, RouteEdges(j.parent, [s] + above, routes, seen, gain))
    decreases |routes|
  {
    if routes != [] {
      var sub, base, r, more := SubOf(j.parent, s), j.own[Running([s])], routes[0], seen + {routes[0].errorClass};
      var here := if r.errorClass in seen then [] else RoutedEdges(sub, above, r.target, gain);
      SurviveAppend(j.inner[s], have, here, RouteEdges(sub, above, routes[1..], more, gain));
      RoutesShift(j, s, above, routes[1..], more, gain, have);
      if r.errorClass !in seen { RoutedShifts(j, s, above, r.target, gain, have); }
      var here' := if r.errorClass in seen then [] else RoutedEdges(j.parent, [s] + above, r.target, gain);
      SurviveAppend(Joined(j), base + have, here', RouteEdges(j.parent, [s] + above, routes[1..], more, gain));
    }
  }

  lemma FailuresShift(j: Joint, s: State, above: seq<State>, def: FlowDef, x: State, caused: bool, gain: set<Key>, have: set<Key>)
    requires PiecesKept(j) && s in j.inner
    requires AllSurvive(j.inner[s], have, FailureEdges(SubOf(j.parent, s), above, def, x, caused, gain))
    ensures AllSurvive(Joined(j), j.own[Running([s])] + have, FailureEdges(j.parent, [s] + above, def, x, caused, gain))
  {
    var sub, base := SubOf(j.parent, s), j.own[Running([s])];
    var routed := caused && x in def.exceptionRoutes;
    var routes := if routed then RouteEdges(sub, above, def.exceptionRoutes[x], {}, gain) else [];
    var fallback := if x in def.errorTransitions then RoutedEdges(sub, above, def.errorTransitions[x], gain)
                    else ExitEdges(sub, above, "TERMINAL_ERROR");
    SurviveAppend(j.inner[s], have, routes, fallback);
    if routed { RoutesShift(j, s, above, def.exceptionRoutes[x], {}, gain, have); }
    if x in def.errorTransitions {
      RoutedShifts(j, s, above, def.errorTransitions[x], gain, have);
    } else {
      LeaveShifts(j, s, above, "TERMINAL_ERROR", true, {}, have);
    }
    var routes' := if routed then RouteEdges(j.parent, [s] + above, def.exceptionRoutes[x], {}, gain) else [];
    var fallback' := if x in def.errorTransitions then RoutedEdges(j.parent, [s] + above, def.errorTransitions[x], gain)
                     else ExitEdges(j.parent, [s] + above, "TERMINAL_ERROR");
    SurviveAppend(Joined(j), base + have, routes', fallback');
  }

  // ---------- automatic moves ----------

  lemma AutoShifts(j: Joint, s: State, above: seq<State>, def: FlowDef, x: State, t: Transition, have: set<Key>)
    requires PiecesKept(j) && s in j.inner
    requires AllSurvive(j.inner[s], have, AutoEdges(SubOf(j.parent, s), above, def, x, t))
    ensures AllSurvive(Joined(j), j.own[Running([s])] + have, AutoEdges(j.parent, [s] + above, def, x, t))
  {
    var sub, base := SubOf(j.parent, s), j.own[Running([s])];
    var failing := if t.processor.Some? then FailureEdges(sub, above, def, x, true, {}) else [];
    var e := Edge(Running(above + [t.to]), ProcessorProduces(t), RunNeeds(t, t.processor, {}));
    SurviveAppend(j.inner[s], have, failing, [e]);
    if t.processor.Some? { FailuresShift(j, s, above, def, x, true, {}, have); }
    OneShifts(j, s, have, e);
    Cons(s, above, t.to);
    var failing' := if t.processor.Some? then FailureEdges(j.parent, [s] + above, def, x, true, {}) else [];
    SurviveAppend(Joined(j), base + have, failing', [ShiftEdge(s, e)]);
  }

  lemma ArmsShift(j: Joint, s: State, above: seq<State>, def: FlowDef, x: State, t: Transition, have: set<Key>)
    requires PiecesKept(j) && s in j.inner
    requires AllSurvive(j.inner[s], have, ArmEdges(above, def, x, t, t.branchTargets.Keys))
    ensures AllSurvive(Joined(j), j.own[Running([s])] + have, ArmEdges([s] + above, def, x, t, t.branchTargets.Keys))
  {
    var labels := t.branchTargets.Keys;
    forall e | e in ArmEdges([s] + above, def, x, t, labels) ensures Survives(Joined(j), j.own[Running([s])] + have, e) {
      ArmIsEdge([s] + above, def, x, t, labels, e);
      var l :| l in labels && e == ArmEdge([s] + above, def, x, t, l);
      var inner := ArmEdge(above, def, x, t, l);
      ArmIsEdge(above, def, x, t, labels, inner);
      EdgeShifts(j, s, have, inner);
      Cons(s, above, t.branchTargets[l]);
    }
  }

  lemma BranchShifts(j: Joint, s: State, above: seq<State>, def: FlowDef, x: State, t: Transition, have: set<Key>)
    requires PiecesKept(j) && s in j.inner
    requires AllSurvive(j.inner[s], have, BranchEdges(SubOf(j.parent, s), above, def, x, t))
    ensures AllSurvive(Joined(j), j.own[Running([s])] + have, BranchEdges(j.parent, [s] + above, def, x, t))
  {
    var sub, base, labels := SubOf(j.parent, s), j.own[Running([s])], t.branchTargets.Keys;
    var failing, failing' := FailureEdges(sub, above, def, x, true, {}), FailureEdges(j.parent, [s] + above, def, x, true, {});
    if t.branch.None? {
      SurviveAppend(j.inner[s], have, failing, []);
      FailuresShift(j, s, above, def, x, true, {}, have);
      SurviveAppend(Joined(j), base + have, failing', []);
    } else {
      var ask := Edge(Running(above + [x]), {}, NeedsOf(BranchPart, t, t.branch.value.requires_, {}));
      var arms, arms' := ArmEdges(above, def, x, t, labels), ArmEdges([s] + above, def, x, t, labels);
      SurviveAppend(j.inner[s], have, failing, [ask] + arms);
      SurviveAppend(j.inner[s], have, [ask], arms);
      FailuresShift(j, s, above, def, x, true, {}, have);
      OneShifts(j, s, have, ask);
      Cons(s, above, x);
      ArmsShift(j, s, above, def, x, t, have);
      SurviveAppend(Joined(j), base + have, [ShiftEdge(s, ask)], arms');
      SurviveAppend(Joined(j), base + have, failing', [ShiftEdge(s, ask)] + arms');
    }
  }

  lemma ChainShifts(j: Joint, s: State, above: seq<State>, def: FlowDef, x: State, have: set<Key>)
    requires PiecesKept(j) && s in j.inner && DefAt(SubOf(j.parent, s), above) == Some(def)
    requires AllSurvive(j.inner[s], have, ChainEdges(SubOf(j.parent, s), above, def, x))
    ensures AllSurvive(Joined(j), j.own[Running([s])] + have, ChainEdges(j.parent, [s] + above, def, x))
  {
    if def.Terminal(x) {
      LeaveShifts(j, s, above, x, true, {}, have);
    } else {
      match Link(def, x)
      case Some(link) =>
        if link.definition.initial.Some? {
          Cons(s, above, x);
          MoveShifts(j, s, have, above + [x], link.definition.initial.value, {});
        }
      case None =>
        match FirstChained(def.TransitionsFrom(x))
        case None =>
        case Some(t) =>
          if t.kind == Auto { AutoShifts(j, s, above, def, x, t, have); } else { BranchShifts(j, s, above, def, x, t, have); }
    }
  }

  lemma RunningShifts(j: Joint, s: State, above: seq<State>, x: State, have: set<Key>)
    requires PiecesKept(j) && s in j.inner
    requires AllSurvive(j.inner[s], have, RunningEdges(SubOf(j.parent, s), above, x))
    ensures AllSurvive(Joined(j), j.own[Running([s])] + have, RunningEdges(j.parent, [s] + above, x))
  {
    var sub, base := SubOf(j.parent, s), j.own[Running([s])];
    var def := DefAt(sub, above);
    var halt := if |above| <= 1 then [To(Resting(above + [x]), {})] else [];
    var chain := if def.Some? then ChainEdges(sub, above, def.value, x) else [];
    assert RunningEdges(sub, above, x) == halt + chain;
    SurviveAppend(j.inner[s], have, halt, chain);
    DefShifts(j.parent, s, above);
    if above == [] {
      Cons(s, above, x);
      OneShifts(j, s, have, To(Resting(above + [x]), {}));
    }
    if def.Some? { ChainShifts(j, s, above, def.value, x, have); }
    var halt' := if above == [] then [To(Resting([s] + above + [x]), {})] else [];
    var chain' := if def.Some? then ChainEdges(j.parent, [s] + above, def.value, x) else [];
    assert RunningEdges(j.parent, [s] + above, x) == halt' + chain';
    SurviveAppend(Joined(j), base + have, halt', chain');
  }

  // ---------- resuming the sub-flow ----------

  /** An event for the sub-flow moves it as it would the flow standing alone; its last rejection ends it with ERROR. */
  lemma ResumeShifts(j: Joint, s: State, x: State, t: Transition, have: set<Key>)
    requires PiecesKept(j) && s in j.inner && ProcessorProduces(t) == {}
    requires AllSurvive(j.inner[s], have, ResumeEdges(SubOf(j.parent, s), j.brings, x, t))
    ensures AllSurvive(Joined(j), j.own[Running([s])] + have, ResumeChildEdges(j.parent, j.brings, s, t))
  {
    var sub, base, brought := SubOf(j.parent, s), j.own[Running([s])], j.brings(t);
    match t.guard
    case None => OneShifts(j, s, have, To(Running([t.to]), brought));
    case Some(g) =>
      var asked := NeedsOf(GuardPart, t, g.requires_, brought);
      var granted := brought + KeySet(g.produces);
      var full := Edge(Running([t.to]), granted + ProcessorProduces(t), asked + RunNeeds(t, t.processor, granted));
      var e := Edge(Running([t.to]), granted, asked);
      SurviveAppend(j.inner[s], have, FailureEdges(sub, [], sub, x, t.processor.Some?, brought), [full]);
      OneSurvives(j.inner[s], have, full);
      assert granted + {} == granted;
      assert Survives(j.inner[s], have, e);
      EdgeShifts(j, s, have, e);
      ExitSurvives(j, s, "ERROR", false, brought, base + have);
      SurviveAppend(Joined(j), base + have, LeaveEdges(j.parent, [s], "ERROR", false, brought), [ShiftEdge(s, e)]);
  }

  lemma RestingShifts(j: Joint, s: State, path: seq<State>, have: set<Key>)
    requires PiecesKept(j) && s in j.inner && path != []
    requires AllSurvive(j.inner[s], have, RestingEdges(SubOf(j.parent, s), j.brings, path))
    ensures AllSurvive(Joined(j), j.own[Running([s])] + have, RestingEdges(j.parent, j.brings, [s] + path))
  {
    var sub, base := SubOf(j.parent, s), j.own[Running([s])];
    if |path| == 1 {
      var ts := sub.ExternalsFrom(path[0]);
      forall e | e in RestingEdges(j.parent, j.brings, [s] + path) ensures Survives(Joined(j), base + have, e) {
        ResumeIsEdge(j.parent, j.brings, s, true, ts, e);
        var t :| t in ts && e in ResumeChildEdges(j.parent, j.brings, s, t);
        OfKindIn(sub.TransitionsFrom(path[0]), External, t);
        LeavingIn(sub.transitions, path[0], t);
        AllOfOne(j, s, path[0], t, ts, have);
        ResumeShifts(j, s, path[0], t, have);
      }
    }
  }

  lemma AllOfOne(j: Joint, s: State, x: State, t: Transition, ts: seq<Transition>, have: set<Key>)
    requires PiecesKept(j) && s in j.inner && t in ts
    requires AllSurvive(j.inner[s], have, AllResumeEdges(SubOf(j.parent, s), j.brings, x, false, ts))
    ensures AllSurvive(j.inner[s], have, ResumeEdges(SubOf(j.parent, s), j.brings, x, t))
  {
    forall e | e in ResumeEdges(SubOf(j.parent, s), j.brings, x, t) ensures Survives(j.inner[s], have, e) {
      ResumeIsEdge(SubOf(j.parent, s), j.brings, x, false, ts, e);
    }
  }

  /** Every move of a sub-flow is kept by the joint plan. */
  lemma InnerSurvives(j: Joint, s: State, q: Pos)
    requires PiecesKept(j) && s in j.inner && q in j.inner[s] && q.path != []
    ensures AllSurvive(Joined(j), Joined(j)[Shift(s, q)], EdgesAt(j.parent, j.brings, Shift(s, q)))
  {
    InnerValue(j, s, q);
    assert AllSurvive(j.inner[s], j.inner[s][q], EdgesAt(SubOf(j.parent, s), j.brings, q));
    match q
    case Running(path) =>
      SplitLast(s, path);
      RunningShifts(j, s, path[..|path| - 1], path[|path| - 1], j.inner[s][q]);
    case Resting(path) => RestingShifts(j, s, path, j.inner[s][q]);
  }

  // ---------- entering ----------

  /** The validator's condition at each entry, on the graph of the parent and that of the sub-flow standing alone. */
  ghost predicate EntryAccepted(j: Joint, s: State, guaranteed: set<Key>)
    requires s in j.inner && EntersAt(j.parent, j.own, s)
  {
    var sub := SubOf(j.parent, s);
    sub.initial.Some? ==>
      sub.initial.value in Slice(j.inner[s], []) && EntryCovered(Slice(j.own, []), s, sub, Slice(j.inner[s], []), guaranteed)
  }

  /** What the entry asks for is there: the part guaranteed on the side is, in what the parent's state guarantees. */
  ghost predicate PromiseKept(j: Joint, s: State, guaranteed: set<Key>)
    requires s in j.inner && EntersAt(j.parent, j.own, s)
  {
    var sub := SubOf(j.parent, s);
    sub.initial.Some? ==> guaranteed * AvailableAt(Slice(j.inner[s], []), sub.initial.value) <= j.own[Running([s])]
  }

  /** What is guaranteed where the sub-flow starts, in its own map, on its graph and in the joint plan. */
  lemma EntryValue(j: Joint, s: State)
    requires PiecesKept(j) && s in j.inner && SubOf(j.parent, s).initial.Some?
    requires SubOf(j.parent, s).initial.value in Slice(j.inner[s], [])
    ensures var first := SubOf(j.parent, s).initial.value;
      var entry := Running([s] + [first]);
      entry in Joined(j) && Joined(j)[entry] == j.own[Running([s])] + AvailableAt(Slice(j.inner[s], []), first)
  {
    var first := SubOf(j.parent, s).initial.value;
    assert [] + [first] == [first];
    SliceMeans(j.inner[s], [], first);
    InnerValue(j, s, Running([first]));
  }

  lemma MoveKept(m: Cert, q: Pos, base: set<Key>, needed: set<Key>)
    requires q in m && m[q] == base + needed
    ensures Survives(m, base, To(q, {})) <==> needed <= base
  {
    assert base + {} == base;
  }

  lemma EntryMeans(j: Joint, s: State)
    requires PiecesKept(j) && s in j.inner && SubOf(j.parent, s).initial.Some?
    requires SubOf(j.parent, s).initial.value in Slice(j.inner[s], [])
    ensures var first, base := SubOf(j.parent, s).initial.value, j.own[Running([s])];
      Survives(Joined(j), base, To(Running([s] + [first]), {})) <==> AvailableAt(Slice(j.inner[s], []), first) <= base
  {
    EntryValue(j, s);
    var first := SubOf(j.parent, s).initial.value;
    MoveKept(Joined(j), Running([s] + [first]), j.own[Running([s])], AvailableAt(Slice(j.inner[s], []), first));
  }

  lemma OwnValue(j: Joint, s: State)
    requires Running([s]) in j.own
    ensures AvailableAt(Slice(j.own, []), s) == j.own[Running([s])]
  {
    assert [] + [s] == [s];
    SliceMeans(j.own, [], s);
  }

  /** The move into the sub-flow is kept exactly when what was guaranteed on the side is really there. */
  lemma EntryIff(j: Joint, s: State, guaranteed: set<Key>)
    requires PiecesKept(j) && s in j.inner && EntryAccepted(j, s, guaranteed) && SubOf(j.parent, s).initial.Some?
    ensures Survives(Joined(j), j.own[Running([s])], To(Running([s] + [SubOf(j.parent, s).initial.value]), {}))
      <==> PromiseKept(j, s, guaranteed)
  {
    EntryMeans(j, s);
    OwnValue(j, s);
    GuaranteeIsAPromise(Slice(j.own, []), s, SubOf(j.parent, s), Slice(j.inner[s], []), guaranteed, j.own[Running([s])]);
  }

  lemma EnteringEdges(j: Joint, s: State)
    requires PiecesKept(j) && s in j.inner
    ensures var sub := SubOf(j.parent, s);
      EdgesAt(j.parent, j.brings, Running([s])) ==
        [To(Resting([s]), {})] + if sub.initial.Some? then [To(Running([s] + [sub.initial.value]), {})] else []
  {
    assert [s][..0] == [] && [] + [s] == [s];
  }

  lemma RestSurvives(j: Joint, s: State)
    requires PiecesKept(j) && s in j.inner
    ensures AllSurvive(Joined(j), j.own[Running([s])], [To(Resting([s]), {})])
  {
    var base := j.own[Running([s])];
    assert base + {} == base;
    OwnFits(j, Resting([s]), base);
  }

  /** A state of the parent that enters a sub-flow. */
  lemma EnteringIff(j: Joint, s: State, guaranteed: set<Key>)
    requires PiecesKept(j) && s in j.inner && EntryAccepted(j, s, guaranteed)
    ensures AllSurvive(Joined(j), j.own[Running([s])], EdgesAt(j.parent, j.brings, Running([s]))) <==> PromiseKept(j, s, guaranteed)
  {
    var sub, base := SubOf(j.parent, s), j.own[Running([s])];
    EnteringEdges(j, s);
    RestSurvives(j, s);
    if sub.initial.Some? {
      var e := To(Running([s] + [sub.initial.value]), {});
      EntryIff(j, s, guaranteed);
      SurviveAppend(Joined(j), base, [To(Resting([s]), {})], [e]);
      OneSurvivesIff(Joined(j), base, e);
    } else {
      SurviveAppend(Joined(j), base, [To(Resting([s]), {})], []);
    }
  }

  lemma OneSurvivesIff(m: Cert, have: set<Key>, e: Edge<Pos>)
    ensures AllSurvive(m, have, [e]) <==> Survives(m, have, e)
  {
    assert e in [e];
  }

  lemma RootedValue(j: Joint, s: State)
    requires Running([s]) in j.own
    ensures Running([s]) in Joined(j) && Joined(j)[Running([s])] == j.own[Running([s])]
  {}

  // ---------- composition ----------

  /** What the validator is told about each entry. */
  type Promises = map<State, set<Key>>

  ghost predicate EntriesAccepted(j: Joint, guaranteed: Promises) {
    InnerKept(j) && forall s | s in j.inner :: s in guaranteed && EntryAccepted(j, s, guaranteed[s])
  }

  /** Sub-flow entry composes: a parent's map over its own states, each sub-flow's map made without the parent, and the
    * validator's acceptance at each entry give a plan for the whole, exactly when what was guaranteed on the side is there. */
  lemma CompositionIff(j: Joint, guaranteed: Promises)
    requires PiecesKept(j) && EntriesAccepted(j, guaranteed)
    ensures Guaranteed(Plan(j.parent, j.brings, Joined(j))) <==> forall s | s in j.inner :: PromiseKept(j, s, guaranteed[s])
  {
    var m := Joined(j);
    forall s | s in j.inner
      ensures AllSurvive(m, m[Running([s])], EdgesAt(j.parent, j.brings, Running([s]))) <==> PromiseKept(j, s, guaranteed[s])
    {
      RootedValue(j, s);
      EnteringIff(j, s, guaranteed[s]);
    }
    if forall s | s in j.inner :: PromiseKept(j, s, guaranteed[s]) {
      forall q | q in m ensures AllSurvive(m, m[q], EdgesAt(j.parent, j.brings, q)) { PositionSurvives(j, guaranteed, q); }
    }
    if Guaranteed(Plan(j.parent, j.brings, m)) {
      forall s | s in j.inner ensures PromiseKept(j, s, guaranteed[s]) { assert Running([s]) in m; }
    }
  }

  lemma PositionSurvives(j: Joint, guaranteed: Promises, q: Pos)
    requires PiecesKept(j) && EntriesAccepted(j, guaranteed) && q in Joined(j)
    requires forall s | s in j.inner :: PromiseKept(j, s, guaranteed[s])
    ensures AllSurvive(Joined(j), Joined(j)[q], EdgesAt(j.parent, j.brings, q))
  {
    if q !in j.own {
      var s, p := JoinedPosition(j, q);
      InnerSurvives(j, s, p);
    } else if q.Running? && EntersAt(j.parent, j.own, q.path[0]) {
      EnteringIff(j, q.path[0], guaranteed[q.path[0]]);
      assert q == Running([q.path[0]]);
    } else {
      OwnSurvive(j, j.own[q], j.own[q], EdgesAt(j.parent, j.brings, q));
    }
  }
}
