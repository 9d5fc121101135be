/** The engine's own moves as a data-flow graph over positions, sub-flows included. */
module EngineMoves {
  import opened Definition
  import opened DataFlow
  import opened RequiresProduces
  import opened EngineModel

  /** A position in a definition: the path of states from the root flow down to the sub-flow that moves, in the middle of a
    * chain or waiting for a caller. */
  datatype Pos = Running(path: seq<State>) | Resting(path: seq<State>)

  /** The keys a caller brings with an event that selects an external transition. */
  type Supply = Transition -> set<Key>

  // ---------- definitions inside definitions ----------

  /** The sub-flow that is entered in state `s`. */
  function Link(d: FlowDef, s: State): (link: Option<SubFlowLink>)
    ensures link.Some? ==> link.value.definition < d
  {
    match FirstSubFlow(d.TransitionsFrom(s))
    case None => None
    case Some(t) =>
      NestedIsSmaller(d, s);
      t.subFlow
  }

  /** The definition that runs below the states `above`. */
  function DefAt(d: FlowDef, above: seq<State>): Option<FlowDef> {
    if above == [] then Some(d)
    else
      match Link(d, above[0])
      case Some(link) => DefAt(link.definition, above[1..])
      case None => None
  }

  /** A path: each state belongs to the definition that runs there. */
  ghost predicate Lies(d: FlowDef, p: seq<State>)
    decreases |p|
  {
    && p != [] && p[0] in d.states
    && (|p| > 1 ==> Link(d, p[0]).Some? && Lies(Link(d, p[0]).value.definition, p[1..]))
  }

  /** All paths of a definition. */
  ghost function Paths(d: FlowDef): set<seq<State>>
    decreases d
  {
    (set s | s in d.states :: [s])
    + (set s, p | s in d.states && Link(d, s).Some? && p in Paths(Link(d, s).value.definition) :: [s] + p)
  }

  lemma {:induction false} PathsLie(d: FlowDef, p: seq<State>)
    ensures p in Paths(d) <==> Lies(d, p)
    decreases |p|
  {
    if p in Paths(d) {
      if s :| s in d.states && p == [s] {
      } else {
        var s, q :| s in d.states && Link(d, s).Some? && q in Paths(Link(d, s).value.definition) && p == [s] + q;
        assert p[0] == s && p[1..] == q;
        PathsLie(Link(d, s).value.definition, q);
      }
    }
    if Lies(d, p) {
      if |p| == 1 {
        assert p == [p[0]];
      } else {
        PathsLie(Link(d, p[0]).value.definition, p[1..]);
        assert p == [p[0]] + p[1..];
      }
    }
  }

  lemma Rest(above: seq<State>, s: State)
    requires above != []
    ensures (above + [s])[0] == above[0] && (above + [s])[1..] == above[1..] + [s]
  {}

  lemma {:induction false} DefBelow(d: FlowDef, above: seq<State>, s: State)
    requires DefAt(d, above).Some?
    ensures DefAt(d, above + [s])
      == match Link(DefAt(d, above).value, s) case Some(link) => Some(link.definition) case None => None
    decreases |above|
  {
    if above == [] {
      assert ([] + [s])[1..] == [];
    } else {
      Rest(above, s);
      DefBelow(Link(d, above[0]).value.definition, above[1..], s);
    }
  }

  /** A path ends in a state of the definition that runs there. */
  lemma {:induction false} LiesMeans(d: FlowDef, above: seq<State>, s: State)
    ensures Lies(d, above + [s]) <==>
      DefAt(d, above).Some? && s in DefAt(d, above).value.states && (above != [] ==> Lies(d, above))
    decreases |above|
  {
    if above == [] {
      assert ([] + [s])[1..] == [];
    } else {
      Rest(above, s);
      if Link(d, above[0]).Some? { LiesMeans(Link(d, above[0]).value.definition, above[1..], s); }
    }
  }

  // ---------- leaving a sub-flow ----------

  function To(q: Pos, gain: set<Key>): Edge<Pos> { Edge(q, gain, []) }

  /** The flow below `above` ended with `exit`: its parent moves where the exit is mapped, or takes its error transition,
    * or is completed where it is, which ends it in turn. Where the exit of a child of the root flow may have come up on a
    * resume (`dropped`), an unmapped one may also leave the root flow waiting. */
  ghost function LeaveEdges(d: FlowDef, above: seq<State>, exit: string, dropped: bool, gain: set<Key>): seq<Edge<Pos>>
    decreases |above|, 1
  {
    if above == [] then []
    else
      var up, s := above[..|above| - 1], above[|above| - 1];
      match DefAt(d, up)
      case None => []
      case Some(parent) => LeaveParent(d, above, up, parent, s, exit, dropped, gain)
  }

  ghost function LeaveParent(d: FlowDef, above: seq<State>, up: seq<State>, parent: FlowDef, s: State, exit: string,
                             dropped: bool, gain: set<Key>): seq<Edge<Pos>>
    requires |up| < |above|
    decreases |up|, 2
  {
    match Link(parent, s)
    case None => []
    case Some(link) =>
      if exit in link.exitMappings then [To(Running(up + [link.exitMappings[exit]]), gain)]
      else
        (if dropped && up == [] then [To(Resting(above), gain)] else [])
        + (if s in parent.errorTransitions then [To(Running(up + [parent.errorTransitions[s]]), gain)]
           else [To(Running(above), gain)] + LeaveEdges(d, up, "TERMINAL_ERROR", true, gain))
  }

  ghost function ExitEdges(d: FlowDef, above: seq<State>, exit: string): seq<Edge<Pos>> {
    LeaveEdges(d, above, exit, true, {})
  }

  // ---------- errors ----------

  /** An error is routed to `z`: the chain stops there. Only the root flow and its child can be resumed. */
  ghost function RoutedEdges(d: FlowDef, above: seq<State>, z: State, gain: set<Key>): seq<Edge<Pos>> {
    (if |above| <= 1 then [To(Resting(above + [z]), gain)] else [])
    + (match DefAt(d, above)
       case None => []
       case Some(def) => if def.Terminal(z) then ExitEdges(d, above, z) else [])
  }

  /** The exception routes that can match: of several for one class the first is taken. */
  ghost function RouteEdges(d: FlowDef, above: seq<State>, routes: seq<ErrorRoute>, seen: set<string>, gain: set<Key>): seq<Edge<Pos>>
    decreases |routes|
  {
    if routes == [] then []
    else
      (if routes[0].errorClass in seen then [] else RoutedEdges(d, above, routes[0].target, gain))
      + RouteEdges(d, above, routes[1..], seen + {routes[0].errorClass}, gain)
  }

  /** An error in state `s` of `def`. Without a cause no exception route is asked. */
  ghost function FailureEdges(d: FlowDef, above: seq<State>, def: FlowDef, s: State, caused: bool, gain: set<Key>): seq<Edge<Pos>> {
    (if caused && s in def.exceptionRoutes then RouteEdges(d, above, def.exceptionRoutes[s], {}, gain) else [])
    + (if s in def.errorTransitions then RoutedEdges(d, above, def.errorTransitions[s], gain)
       else ExitEdges(d, above, "TERMINAL_ERROR"))
  }

  // ---------- a position in the middle of a chain ----------

  function RunNeeds(t: Transition, p: Option<Processor>, given: set<Key>): seq<Need> {
    if p.Some? then NeedsOf(ProcessorPart, t, p.value.requires_, given) else []
  }

  /** The arm taken for a label, with the processor that runs for it. */
  function ArmEdge(above: seq<State>, def: FlowDef, s: State, t: Transition, l: Label): Edge<Pos>
    requires l in t.branchTargets
  {
    var run := Specific(def.TransitionsFrom(s), t, l, t.branchTargets[l]);
    Edge(Running(above + [t.branchTargets[l]]), ProcessorProduces(run), RunNeeds(t, run.processor, {}))
  }

  ghost function ArmEdges(above: seq<State>, def: FlowDef, s: State, t: Transition, labels: set<Label>): seq<Edge<Pos>>
    requires labels <= t.branchTargets.Keys
  {
    if labels == {} then []
    else
      var l :| l in labels;
      [ArmEdge(above, def, s, t, l)] + ArmEdges(above, def, s, t, labels - {l})
  }

  ghost function AutoEdges(d: FlowDef, above: seq<State>, def: FlowDef, s: State, t: Transition): seq<Edge<Pos>> {
    (if t.processor.Some? then FailureEdges(d, above, def, s, true, {}) else [])
    + [Edge(Running(above + [t.to]), ProcessorProduces(t), RunNeeds(t, t.processor, {}))]
  }

  /** A branch is asked before any arm is taken, while the flow is still in `s`. */
  ghost function BranchEdges(d: FlowDef, above: seq<State>, def: FlowDef, s: State, t: Transition): seq<Edge<Pos>> {
    FailureEdges(d, above, def, s, true, {})
    + (if t.branch.None? then []
       else
         [Edge(Running(above + [s]), {}, NeedsOf(BranchPart, t, t.branch.value.requires_, {}))]
         + ArmEdges(above, def, s, t, t.branchTargets.Keys))
  }

  ghost function ChainEdges(d: FlowDef, above: seq<State>, def: FlowDef, s: State): seq<Edge<Pos>> {
    if def.Terminal(s) then ExitEdges(d, above, s)
    else
      match Link(def, s)
      case Some(link) => if link.definition.initial.Some? then [To(Running(above + [s] + [link.definition.initial.value]), {})] else []
      case None =>
        match FirstChained(def.TransitionsFrom(s))
        case None => []
        case Some(t) => if t.kind == Auto then AutoEdges(d, above, def, s, t) else BranchEdges(d, above, def, s, t)
  }

  /** A chain of the root flow or its child may stop in any state it reaches. */
  ghost function RunningEdges(d: FlowDef, above: seq<State>, s: State): seq<Edge<Pos>> {
    (if |above| <= 1 then [To(Resting(above + [s]), {})] else [])
    + (match DefAt(d, above) case None => [] case Some(def) => ChainEdges(d, above, def, s))
  }

  // ---------- a position that waits ----------

  /** The root flow is resumed in `s`. A rejection has no cause; a failing processor has one. */
  ghost function ResumeEdges(d: FlowDef, brings: Supply, s: State, t: Transition): seq<Edge<Pos>> {
    match t.guard
    case None => [To(Running([t.to]), brings(t))]
    case Some(g) =>
      var granted := brings(t) + KeySet(g.produces);
      FailureEdges(d, [], d, s, t.processor.Some?, brings(t))
      + [Edge(Running([t.to]), granted + ProcessorProduces(t),
              NeedsOf(GuardPart, t, g.requires_, brings(t)) + RunNeeds(t, t.processor, granted))]
  }

  /** The child of the root flow is resumed; its processor does not run, and its last rejection ends it with ERROR. */
  ghost function ResumeChildEdges(d: FlowDef, brings: Supply, s: State, t: Transition): seq<Edge<Pos>> {
    match t.guard
    case None => [To(Running([s] + [t.to]), brings(t))]
    case Some(g) =>
      LeaveEdges(d, [s], "ERROR", false, brings(t))
      + [Edge(Running([s] + [t.to]), brings(t) + KeySet(g.produces), NeedsOf(GuardPart, t, g.requires_, brings(t)))]
  }

  ghost function AllResumeEdges(d: FlowDef, brings: Supply, s: State, child: bool, ts: seq<Transition>): seq<Edge<Pos>>
    decreases |ts|
  {
    if ts == [] then []
    else
      (if child then ResumeChildEdges(d, brings, s, ts[0]) else ResumeEdges(d, brings, s, ts[0]))
      + AllResumeEdges(d, brings, s, child, ts[1..])
  }

  ghost function RestingEdges(d: FlowDef, brings: Supply, path: seq<State>): seq<Edge<Pos>> {
    if |path| == 1 then AllResumeEdges(d, brings, path[0], false, d.ExternalsFrom(path[0]))
    else if |path| == 2 then
      match Link(d, path[0])
      case None => []
      case Some(link) => AllResumeEdges(d, brings, path[0], true, link.definition.ExternalsFrom(path[1]))
    else []
  }

  // ---------- the graph ----------

  ghost function EdgesAt(d: FlowDef, brings: Supply, q: Pos): seq<Edge<Pos>> {
    if q.path == [] then []
    else
      match q
      case Running(path) => RunningEdges(d, path[..|path| - 1], path[|path| - 1])
      case Resting(path) => RestingEdges(d, brings, path)
  }

  ghost function Positions(d: FlowDef): set<Pos> {
    (set p | p in Paths(d) :: Running(p)) + (set p | p in Paths(d) :: Resting(p))
  }

  ghost function EngineGraph(d: FlowDef, brings: Supply): FlowGraph<Pos> {
    map q | q in Positions(d) :: EdgesAt(d, brings, q)
  }

  // ---------- membership ----------

  lemma {:induction false} ArmIsEdge(above: seq<State>, def: FlowDef, s: State, t: Transition, labels: set<Label>, e: Edge<Pos>)
    requires labels <= t.branchTargets.Keys
    ensures e in ArmEdges(above, def, s, t, labels) <==> exists l | l in labels :: e == ArmEdge(above, def, s, t, l)
    decreases labels
  {
    if labels != {} {
      var l :| l in labels && ArmEdges(above, def, s, t, labels) == [ArmEdge(above, def, s, t, l)] + ArmEdges(above, def, s, t, labels - {l});
      ArmIsEdge(above, def, s, t, labels - {l}, e);
    }
  }

  lemma {:induction false} ResumeIsEdge(d: FlowDef, brings: Supply, s: State, child: bool, ts: seq<Transition>, e: Edge<Pos>)
    ensures e in AllResumeEdges(d, brings, s, child, ts) <==>
      exists t | t in ts :: e in (if child then ResumeChildEdges(d, brings, s, t) else ResumeEdges(d, brings, s, t))
    decreases |ts|
  {
    if ts != [] {
      ResumeIsEdge(d, brings, s, child, ts[1..], e);
      assert ts == [ts[0]] + ts[1..];
    }
  }

  /** Some position reached from an error by an exception route: the first route of its class. */
  lemma {:induction false} RouteIsEdge(d: FlowDef, above: seq<State>, routes: seq<ErrorRoute>, seen: set<string>, gain: set<Key>, e: Edge<Pos>)
    ensures e in RouteEdges(d, above, routes, seen, gain) <==>
      exists i | 0 <= i < |routes| :: Effective(routes, seen, i) && e in RoutedEdges(d, above, routes[i].target, gain)
    decreases |routes|
  {
    if routes != [] {
      var seen1 := seen + {routes[0].errorClass};
      RouteIsEdge(d, above, routes[1..], seen1, gain, e);
      forall i | 0 <= i < |routes| - 1 ensures Effective(routes, seen, i + 1) <==> Effective(routes[1..], seen1, i) {
        EffectiveLater(routes, seen, i);
      }
      if i :| 0 <= i < |routes| && Effective(routes, seen, i) && e in RoutedEdges(d, above, routes[i].target, gain) {
        if i > 0 { assert Effective(routes[1..], seen1, i - 1) && routes[1..][i - 1] == routes[i]; }
      }
      if i :| 0 <= i < |routes| - 1 && Effective(routes[1..], seen1, i) && e in RoutedEdges(d, above, routes[1..][i].target, gain) {
        assert Effective(routes, seen, i + 1) && routes[1..][i] == routes[i + 1];
      }
    }
  }

  ghost predicate Effective(routes: seq<ErrorRoute>, seen: set<string>, i: nat)
    requires i < |routes|
  {
    routes[i].errorClass !in seen && forall j | 0 <= j < i :: routes[j].errorClass != routes[i].errorClass
  }

  lemma EffectiveLater(routes: seq<ErrorRoute>, seen: set<string>, i: nat)
    requires i + 1 < |routes|
    ensures Effective(routes, seen, i + 1) <==> Effective(routes[1..], seen + {routes[0].errorClass}, i)
  {
    var rest := routes[1..];
    if Effective(rest, seen + {routes[0].errorClass}, i) {
      forall j | 0 <= j < i + 1 ensures routes[j].errorClass != routes[i + 1].errorClass {
        if j > 0 { assert rest[j - 1] == routes[j]; }
      }
    }
  }
}
