/** The declarative part of a flow: states, transitions and their data contracts. */
module Definition {

  type State = string
  type Key = string
  type Label = string

  datatype Option<+T> = None | Some(value: T)

  datatype TransitionType = Auto | External | Branch | SubFlow

  /** The declared contract of a processor; what it does is given by the engine's `Env`. */
  datatype Processor = Processor(name: string, requires_: seq<Key>, produces: seq<Key>)

  datatype Guard = Guard(name: string, requires_: seq<Key>, produces: seq<Key>, externalTrigger: Option<Key>)

  datatype Brancher = Brancher(name: string, requires_: seq<Key>)

  datatype Transition = Transition(
    from: State,
    to: State,
    kind: TransitionType,
    processor: Option<Processor>,
    guard: Option<Guard>,
    branch: Option<Brancher>,
    branchTargets: map<Label, State>,
    branchLabel: Option<Label>,
    timeout: Option<nat>,
    subFlow: Option<SubFlowLink>)

  datatype SubFlowLink = SubFlowLink(definition: FlowDef, exitMappings: map<string, State>)

  /** One `onStepError` route: an error class and the state it leads to. */
  datatype ErrorRoute = ErrorRoute(errorClass: string, target: State)

  datatype FlowDef = FlowDef(
    name: string,
    states: seq<State>,
    terminals: set<State>,
    initial: Option<State>,
    transitions: seq<Transition>,
    errorTransitions: map<State, State>,
    exceptionRoutes: map<State, seq<ErrorRoute>>,
    maxGuardRetries: int,
    ttl: int,
    strictMode: bool,
    initiallyAvailable: seq<Key>,
    externallyProvided: seq<Key>)
  {
    predicate Terminal(s: State) { s in terminals }

    /** `transitionsFrom`: the transitions leaving `s`, in declaration order. */
    function TransitionsFrom(s: State): seq<Transition> { Leaving(transitions, s) }

    /** `externalsFrom`. */
    function ExternalsFrom(s: State): seq<Transition> { OfKind(TransitionsFrom(s), External) }
  }

  /** No element occurs twice. */
  ghost predicate Distinct<T>(xs: seq<T>) { forall i, j | 0 <= i < j < |xs| :: xs[i] != xs[j] }

  function KeySet(ks: seq<Key>): set<Key> { set k | k in ks }

  function Filter(ts: seq<Transition>, p: Transition -> bool): seq<Transition> {
    if ts == [] then [] else (if p(ts[0]) then [ts[0]] else []) + Filter(ts[1..], p)
  }

  function Leaving(ts: seq<Transition>, s: State): seq<Transition> {
    if ts == [] then [] else (if ts[0].from == s then [ts[0]] else []) + Leaving(ts[1..], s)
  }

  function OfKind(ts: seq<Transition>, kind: TransitionType): seq<Transition> {
    if ts == [] then [] else (if ts[0].kind == kind then [ts[0]] else []) + OfKind(ts[1..], kind)
  }

  lemma {:induction false} FilterIn(ts: seq<Transition>, p: Transition -> bool, t: Transition)
    ensures t in Filter(ts, p) <==> t in ts && p(t)
  {
    if ts != [] {
      FilterIn(ts[1..], p, t);
      assert ts == [ts[0]] + ts[1..];
    }
  }

  lemma {:induction false} FilterCount(ts: seq<Transition>, p: Transition -> bool, t: Transition)
    ensures multiset(Filter(ts, p))[t] == if p(t) then multiset(ts)[t] else 0
  {
    if ts != [] {
      FilterCount(ts[1..], p, t);
      assert ts == [ts[0]] + ts[1..];
    }
  }

  lemma {:induction false} LeavingIn(ts: seq<Transition>, s: State, t: Transition)
    ensures t in Leaving(ts, s) <==> t in ts && t.from == s
  {
    if ts != [] {
      LeavingIn(ts[1..], s, t);
      assert ts == [ts[0]] + ts[1..];
    }
  }

  lemma {:induction false} LeavingCons(t: Transition, ts: seq<Transition>, s: State)
    ensures Leaving([t] + ts, s) == (if t.from == s then [t] else []) + Leaving(ts, s)
  {
    assert ([t] + ts)[0] == t && ([t] + ts)[1..] == ts;
  }

  lemma {:induction false} OfKindIn(ts: seq<Transition>, kind: TransitionType, t: Transition)
    ensures t in OfKind(ts, kind) <==> t in ts && t.kind == kind
  {
    if ts != [] {
      OfKindIn(ts[1..], kind, t);
      assert ts == [ts[0]] + ts[1..];
    }
  }
}
