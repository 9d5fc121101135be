/** The builder: what its declarations emit, and the whole gate of `build()`. */
module Builder {
  import opened Definition
  import opened DataFlow
  import opened DataFlowProofs
  import opened RequiresProduces
  import CheckMeaning
  import opened Searches
  import opened Graphs
  import opened EngineModel
  import opened Routing

  // ---------- declarations ----------

  /** One `.to(state, label, processor?)` of a branch. */
  datatype Arm = Arm(choice: Label, target: State, processor: Option<Processor>)

  datatype Declaration =
    | AutoDecl(from: State, to: State, run: Processor)
    | ExternalDecl(from: State, to: State, guard: Guard, processor: Option<Processor>, timeout: Option<nat>)
    | BranchDecl(from: State, branch: Brancher, arms: seq<Arm>)
    | SubFlowDecl(from: State, link: SubFlowLink)

  /** The map of targets: a repeated label keeps the last target. */
  function ArmTargets(arms: seq<Arm>): map<Label, State> {
    if arms == [] then map[]
    else var n := |arms| - 1; ArmTargets(arms[..n])[arms[n].choice := arms[n].target]
  }

  /** The map of processors: a repeated label without one keeps the earlier processor. */
  function ArmProcessors(arms: seq<Arm>): map<Label, Processor> {
    if arms == [] then map[]
    else
      var n := |arms| - 1;
      if arms[n].processor.Some? then ArmProcessors(arms[..n])[arms[n].choice := arms[n].processor.value]
      else ArmProcessors(arms[..n])
  }

  /** The labels in the order of their first mention. */
  function ArmLabels(arms: seq<Arm>): (ls: seq<Label>)
    ensures forall l :: l in ls <==> l in ArmTargets(arms)
  {
    if arms == [] then []
    else
      var n := |arms| - 1;
      var before := ArmLabels(arms[..n]);
      if arms[n].choice in before then before else before + [arms[n].choice]
  }

  function Lookup(m: map<Label, Processor>, l: Label): Option<Processor> { if l in m then Some(m[l]) else None }

  function BranchTransitions(from: State, branch: Brancher, targets: map<Label, State>, processors: map<Label, Processor>,
                             ls: seq<Label>): seq<Transition>
    requires forall l | l in ls :: l in targets
  {
    if ls == [] then []
    else
      [Transition(from, targets[ls[0]], Branch, Lookup(processors, ls[0]), None, Some(branch), targets, Some(ls[0]), None, None)]
      + BranchTransitions(from, branch, targets, processors, ls[1..])
  }

  /** The transitions a declaration adds; `endBranch` adds one per label. */
  function Emit(d: Declaration): seq<Transition> {
    match d
    case AutoDecl(from, to, run) => [Transition(from, to, Auto, Some(run), None, None, map[], None, None, None)]
    case ExternalDecl(from, to, guard, processor, timeout) =>
      [Transition(from, to, External, processor, Some(guard), None, map[], None, timeout, None)]
    case BranchDecl(from, branch, arms) =>
      BranchTransitions(from, branch, ArmTargets(arms), ArmProcessors(arms), ArmLabels(arms))
    case SubFlowDecl(from, link) => [Transition(from, from, SubFlow, None, None, None, map[], None, None, Some(link))]
  }

  function EmitAll(ds: seq<Declaration>): seq<Transition> {
    if ds == [] then [] else Emit(ds[0]) + EmitAll(ds[1..])
  }

  // ---------- what every built definition satisfies ----------

  ghost predicate WellFormed(t: Transition) {
    match t.kind
    case Auto => t.processor.Some? && t.guard.None? && t.branch.None? && t.subFlow.None?
    case External => t.guard.Some? && t.branch.None? && t.subFlow.None?
    case Branch => t.guard.None? && t.branch.Some? && t.subFlow.None? && t.branchLabel.Some?
      && t.branchLabel.value in t.branchTargets && t.branchTargets[t.branchLabel.value] == t.to
    case SubFlow => t.subFlow.Some? && t.processor.None? && t.guard.None? && t.branch.None? && t.to == t.from
  }

  /** When the first automatic transition out of `s` is a branch, the transition picked for a label leads to the
    * label's target, so the processor that runs is the one declared for that arm. */
  ghost predicate LabelsResolve(ts: seq<Transition>) {
    FirstChained(ts).Some? && FirstChained(ts).value.kind == Branch ==>
      var t := FirstChained(ts).value;
      forall l | l in t.branchTargets ::
        FirstLabelled(ts, l).Some? && FirstLabelled(ts, l).value.to == t.branchTargets[l]
  }

  ghost predicate Built(def: FlowDef) {
    && (forall t | t in def.transitions :: WellFormed(t))
    && (forall s :: LabelsResolve(def.TransitionsFrom(s)))
  }

  lemma {:induction false} LeavingAppend(a: seq<Transition>, b: seq<Transition>, s: State)
    ensures Leaving(a + b, s) == Leaving(a, s) + Leaving(b, s)
  {
    if a == [] {
      assert a + b == b;
    } else {
      var rest := a[1..];
      assert a + b == [a[0]] + (rest + b) && a == [a[0]] + rest;
      LeavingAppend(rest, b, s);
      LeavingCons(a[0], rest + b, s);
      LeavingCons(a[0], rest, s);
    }
  }

  lemma {:induction false} SearchAppend(a: seq<Transition>, b: seq<Transition>, l: Label)
    ensures FirstChained(a + b) == if FirstChained(a).Some? then FirstChained(a) else FirstChained(b)
    ensures FirstLabelled(a + b, l) == if FirstLabelled(a, l).Some? then FirstLabelled(a, l) else FirstLabelled(b, l)
  {
    if a == [] {
      assert a + b == b;
    } else {
      SearchAppend(a[1..], b, l);
      assert (a + b)[1..] == a[1..] + b;
    }
  }

  lemma {:induction false} BranchBlock(from: State, branch: Brancher, targets: map<Label, State>,
                                       processors: map<Label, Processor>, ls: seq<Label>)
    requires forall l | l in ls :: l in targets
    ensures var ts := BranchTransitions(from, branch, targets, processors, ls);
      && (forall t | t in ts :: WellFormed(t) && t.kind == Branch && t.from == from && t.branchTargets == targets)
      && (forall l | l in ls :: FirstLabelled(ts, l).Some? && FirstLabelled(ts, l).value.to == targets[l])
      && Leaving(ts, from) == ts
      && (forall s | s != from :: Leaving(ts, s) == [])
  {
    if ls != [] { BranchBlock(from, branch, targets, processors, ls[1..]); }
  }

  /** The transitions one declaration adds to a state: well formed, and with its labels resolved inside the block. */
  lemma EmitShape(d: Declaration, s: State)
    ensures forall t | t in Emit(d) :: WellFormed(t)
    ensures var ts := Leaving(Emit(d), s);
      LabelsResolve(ts) && (FirstChained(ts).None? ==> forall l :: FirstLabelled(ts, l).None?)
  {
    if d.BranchDecl? {
      var targets, ls := ArmTargets(d.arms), ArmLabels(d.arms);
      BranchBlock(d.from, d.branch, targets, ArmProcessors(d.arms), ls);
      var ts := Emit(d);
      if s == d.from && ls != [] {
        assert ts[0] in ts;
        assert FirstChained(ts) == Some(ts[0]);
      }
    }
  }

  lemma {:induction false} EmitAllShape(ds: seq<Declaration>, s: State)
    ensures forall t | t in EmitAll(ds) :: WellFormed(t)
    ensures LabelsResolve(Leaving(EmitAll(ds), s))
  {
    if ds != [] {
      EmitAllShape(ds[1..], s);
      EmitShape(ds[0], s);
      var a, b := Leaving(Emit(ds[0]), s), Leaving(EmitAll(ds[1..]), s);
      LeavingAppend(Emit(ds[0]), EmitAll(ds[1..]), s);
      forall l ensures FirstChained(a + b) == (if FirstChained(a).Some? then FirstChained(a) else FirstChained(b))
        && FirstLabelled(a + b, l) == if FirstLabelled(a, l).Some? then FirstLabelled(a, l) else FirstLabelled(b, l)
      {
        SearchAppend(a, b, l);
      }
    }
  }

  /** Whatever the declarations, the definition they build resolves every branch label to its own arm. */
  lemma DeclarationsBuild(def: FlowDef, ds: seq<Declaration>)
    requires def.transitions == EmitAll(ds)
    ensures Built(def)
  {
    EmitAllShape(ds, "");
    forall s ensures LabelsResolve(def.TransitionsFrom(s)) { EmitAllShape(ds, s); }
  }

  // ---------- the remaining structural checks ----------

  predicate BranchesComplete(def: FlowDef) {
    forall t | t in def.transitions :: t.kind == Branch ==> forall l | l in t.branchTargets :: t.branchTargets[l] in def.states
  }

  predicate NoAutoExternalConflict(def: FlowDef) {
    forall s | s in def.states ::
      FirstChained(def.TransitionsFrom(s)).None? || def.ExternalsFrom(s) == []
  }

  predicate TerminalsAreFinal(def: FlowDef) {
    forall t | t in def.transitions :: def.Terminal(t.from) ==> t.kind == SubFlow
  }

  predicate ExitsComplete(def: FlowDef) {
    forall t | t in def.transitions :: t.kind == SubFlow && t.subFlow.Some? ==>
      t.subFlow.value.definition.terminals <= t.subFlow.value.exitMappings.Keys
  }

  /** `checkSubFlowNestingDepth`. */
  predicate DepthAccepted(def: FlowDef, depth: nat) {
    depth <= 3 && forall i | 0 <= i < |def.transitions| ::
      def.transitions[i].kind == SubFlow && def.transitions[i].subFlow.Some? ==>
        DepthAccepted(def.transitions[i].subFlow.value.definition, depth + 1)
  }

  /** `checkSubFlowCircularRef`, as it recurses; `NamesAcceptedIff` says what it means. */
  predicate NamesAccepted(def: FlowDef, visited: set<string>) {
    def.name !in visited && forall i | 0 <= i < |def.transitions| ::
      def.transitions[i].kind == SubFlow && def.transitions[i].subFlow.Some? ==>
        NamesAccepted(def.transitions[i].subFlow.value.definition, visited + {def.name})
  }

  /** `e` is the definition of a sub-flow transition of `d`. */
  ghost predicate Nests(d: FlowDef, e: FlowDef) {
    exists i | 0 <= i < |d.transitions| ::
      d.transitions[i].kind == SubFlow && d.transitions[i].subFlow.Some? && d.transitions[i].subFlow.value.definition == e
  }

  /** A chain of definitions, each nested in the one before. */
  ghost predicate NestingChain(d: FlowDef, c: seq<FlowDef>) {
    c != [] && c[0] == d && forall i | 0 <= i < |c| - 1 :: Nests(c[i], c[i + 1])
  }

  ghost predicate NamedApart(c: seq<FlowDef>, visited: set<string>) {
    && (forall i, j | 0 <= i < j < |c| :: c[i].name != c[j].name)
    && (forall i | 0 <= i < |c| :: c[i].name !in visited)
  }

  lemma ChainTail(d: FlowDef, c: seq<FlowDef>)
    requires NestingChain(d, c) && |c| > 1
    ensures Nests(d, c[1]) && NestingChain(c[1], c[1..])
  {
    forall i | 0 <= i < |c| - 2 ensures Nests(c[1..][i], c[1..][i + 1]) { assert Nests(c[i + 1], c[i + 2]); }
  }

  lemma ChainCons(d: FlowDef, e: FlowDef, c: seq<FlowDef>)
    requires Nests(d, e) && NestingChain(e, c)
    ensures NestingChain(d, [d] + c)
  {
    var more := [d] + c;
    forall i | 0 <= i < |more| - 1 ensures Nests(more[i], more[i + 1]) {
      if i > 0 { assert more[i] == c[i - 1] && more[i + 1] == c[i]; }
    }
  }

  lemma ApartCons(d: FlowDef, c: seq<FlowDef>, visited: set<string>)
    ensures NamedApart([d] + c, visited) <==> d.name !in visited && NamedApart(c, visited + {d.name})
  {
    var more := [d] + c;
    if NamedApart(more, visited) {
      assert more[0] == d;
      forall i | 0 <= i < |c| ensures c[i].name !in visited + {d.name} { assert more[i + 1] == c[i]; }
      forall i, j | 0 <= i < j < |c| ensures c[i].name != c[j].name { assert more[i + 1] == c[i] && more[j + 1] == c[j]; }
    }
  }

  /** Accepted exactly when along every chain of nested definitions the names are pairwise distinct and unvisited. */
  lemma {:induction false} NamesAcceptedIff(def: FlowDef, visited: set<string>)
    ensures NamesAccepted(def, visited) <==> forall c | NestingChain(def, c) :: NamedApart(c, visited)
    decreases def
  {
    if NamesAccepted(def, visited) {
      forall c | NestingChain(def, c) ensures NamedApart(c, visited) { AcceptedChain(def, visited, c); }
    }
    if forall c | NestingChain(def, c) :: NamedApart(c, visited) {
      assert NestingChain(def, [def]);
      assert NamedApart([def], visited) && [def][0] == def;
      forall i | 0 <= i < |def.transitions| && def.transitions[i].kind == SubFlow && def.transitions[i].subFlow.Some?
        ensures NamesAccepted(def.transitions[i].subFlow.value.definition, visited + {def.name})
      {
        var e := def.transitions[i].subFlow.value.definition;
        assert Nests(def, e);
        NamesAcceptedIff(e, visited + {def.name});
        forall c | NestingChain(e, c) ensures NamedApart(c, visited + {def.name}) {
          ChainCons(def, e, c);
          ApartCons(def, c, visited);
        }
      }
    }
  }

  lemma {:induction false} AcceptedChain(def: FlowDef, visited: set<string>, c: seq<FlowDef>)
    requires NamesAccepted(def, visited) && NestingChain(def, c)
    ensures NamedApart(c, visited)
    decreases |c|
  {
    assert c == [def] + c[1..];
    ApartCons(def, c[1..], visited);
    if |c| > 1 {
      ChainTail(def, c);
      var i :| 0 <= i < |def.transitions| && def.transitions[i].kind == SubFlow && def.transitions[i].subFlow.Some?
        && def.transitions[i].subFlow.value.definition == c[1];
      AcceptedChain(c[1], visited + {def.name}, c[1..]);
    }
  }

  predicate RoutingAccepted(def: FlowDef) {
    forall s | s in def.states :: Distinguishable(def.ExternalsFrom(s))
  }

  // ---------- those checks as loops ----------

  /** The externals of one state: mixed modes, a repeated trigger, or two guards with the same requires. */
  method ExternalsConflict(externals: seq<Transition>) returns (conflict: bool)
    ensures conflict <==> !Distinguishable(externals)
  {
    if |externals| < 2 { return false; }
    var explicit := Explicit(externals);
    FilterLength(externals, t => HasTrigger(t));
    if 0 < |explicit| < |externals| { return true; }
    if |explicit| == |externals| {
      ExplicitIsAll(externals);
      conflict := RepeatsTrigger(externals);
    } else {
      conflict := RepeatsRequires(externals);
    }
  }

  function TriggerOf(t: Transition): Key
    requires HasTrigger(t)
  {
    t.guard.value.externalTrigger.value
  }

  method RepeatsTrigger(externals: seq<Transition>) returns (conflict: bool)
    requires forall i | 0 <= i < |externals| :: HasTrigger(externals[i])
    ensures conflict <==> exists i, j | 0 <= i < j < |externals| :: SameTrigger(externals[i], externals[j])
  {
    var triggers: set<Key> := {};
    conflict := false;
    var j := 0;
    while j < |externals|
      invariant 0 <= j <= |externals|
      invariant forall k :: k in triggers <==> exists i | 0 <= i < j :: TriggerOf(externals[i]) == k
      invariant conflict <==> exists i, l | 0 <= i < l < j :: SameTrigger(externals[i], externals[l])
    {
      var trigger := TriggerOf(externals[j]);
      if trigger in triggers {
        var i :| 0 <= i < j && TriggerOf(externals[i]) == trigger;
        assert SameTrigger(externals[i], externals[j]);
        conflict := true;
      }
      triggers := triggers + {trigger};
      j := j + 1;
    }
  }

  method RepeatsRequires(externals: seq<Transition>) returns (conflict: bool)
    ensures conflict <==> exists i, j | 0 <= i < j < |externals| :: SameRequires(externals[i], externals[j])
  {
    conflict := false;
    var i := 0;
    while i < |externals|
      invariant 0 <= i <= |externals|
      invariant conflict <==> exists k, j | 0 <= k < i && k < j < |externals| :: SameRequires(externals[k], externals[j])
    {
      var j := i + 1;
      ghost var before := conflict;
      while j < |externals|
        invariant i < j <= |externals|
        invariant conflict <==> before || exists l | i < l < j :: SameRequires(externals[i], externals[l])
      {
        if externals[i].guard.Some? && externals[j].guard.Some?
          && KeySet(externals[i].guard.value.requires_) == KeySet(externals[j].guard.value.requires_) {
          conflict := true;
        }
        j := j + 1;
      }
      i := i + 1;
    }
  }

  /** `checkExternalRequiresDistinct`: the states reported. */
  method CheckExternalRequiresDistinct(def: FlowDef) returns (errors: seq<State>)
    ensures forall s :: s in errors <==> s in def.states && !Distinguishable(def.ExternalsFrom(s))
    ensures errors == [] <==> RoutingAccepted(def)
  {
    errors := [];
    var i := 0;
    while i < |def.states|
      invariant 0 <= i <= |def.states|
      invariant forall s :: s in errors <==> s in def.states[..i] && !Distinguishable(def.ExternalsFrom(s))
    {
      var state := def.states[i];
      assert def.states[..i + 1] == def.states[..i] + [state];
      var conflict := ExternalsConflict(def.ExternalsFrom(state));
      if conflict { errors := errors + [state]; }
      i := i + 1;
    }
    assert def.states[..i] == def.states;
    if errors != [] { assert errors[0] in errors; }
  }

  /** `checkAutoExternalConflict`: the states reported. */
  method CheckAutoExternalConflict(def: FlowDef) returns (errors: seq<State>)
    ensures forall s :: s in errors <==>
      s in def.states && FirstChained(def.TransitionsFrom(s)).Some? && def.ExternalsFrom(s) != []
    ensures errors == [] <==> NoAutoExternalConflict(def)
  {
    errors := [];
    var i := 0;
    while i < |def.states|
      invariant 0 <= i <= |def.states|
      invariant forall s :: s in errors <==>
        s in def.states[..i] && FirstChained(def.TransitionsFrom(s)).Some? && def.ExternalsFrom(s) != []
    {
      var state := def.states[i];
      assert def.states[..i + 1] == def.states[..i] + [state];
      if FirstChained(def.TransitionsFrom(state)).Some? && def.ExternalsFrom(state) != [] { errors := errors + [state]; }
      i := i + 1;
    }
    assert def.states[..i] == def.states;
    if errors != [] { assert errors[0] in errors; }
  }

  ghost predicate TransitionFaulty(def: FlowDef, t: Transition) {
    || (t.kind == Branch && exists l | l in t.branchTargets :: t.branchTargets[l] !in def.states)
    || (def.Terminal(t.from) && t.kind != SubFlow)
    || (t.kind == SubFlow && t.subFlow.Some? && !(t.subFlow.value.definition.terminals <= t.subFlow.value.exitMappings.Keys))
  }

  /** `checkBranchCompleteness`, `checkTerminalNoOutgoing` and `checkSubFlowExitCompleteness`: one transition at a time. */
  method CheckTransitions(def: FlowDef) returns (errors: seq<Transition>)
    ensures forall t :: t in errors <==> t in def.transitions && TransitionFaulty(def, t)
    ensures errors == [] <==> BranchesComplete(def) && TerminalsAreFinal(def) && ExitsComplete(def)
  {
    errors := [];
    var i := 0;
    while i < |def.transitions|
      invariant 0 <= i <= |def.transitions|
      invariant forall t :: t in errors <==> t in def.transitions[..i] && TransitionFaulty(def, t)
    {
      var t := def.transitions[i];
      assert def.transitions[..i + 1] == def.transitions[..i] + [t];
      var lost := t.kind == Branch && exists l | l in t.branchTargets :: t.branchTargets[l] !in def.states;
      var leaves := t.from in def.terminals && t.kind != SubFlow;
      var unmapped := t.kind == SubFlow && t.subFlow.Some?
        && !(t.subFlow.value.definition.terminals <= t.subFlow.value.exitMappings.Keys);
      if lost || leaves || unmapped { errors := errors + [t]; }
      i := i + 1;
    }
    assert def.transitions[..i] == def.transitions;
    if errors != [] { assert errors[0] in errors; }
  }

  /** `checkSubFlowNestingDepth`. */
  method CheckSubFlowNestingDepth(def: FlowDef, depth: nat) returns (ok: bool)
    ensures ok <==> DepthAccepted(def, depth)
    decreases def
  {
    if depth > 3 { return false; }
    ok := true;
    var i := 0;
    while i < |def.transitions|
      invariant 0 <= i <= |def.transitions|
      invariant ok <==> forall j | 0 <= j < i ::
        def.transitions[j].kind == SubFlow && def.transitions[j].subFlow.Some? ==>
          DepthAccepted(def.transitions[j].subFlow.value.definition, depth + 1)
    {
      var t := def.transitions[i];
      if t.kind == SubFlow && t.subFlow.Some? {
        var inner := CheckSubFlowNestingDepth(t.subFlow.value.definition, depth + 1);
        ok := ok && inner;
      }
      i := i + 1;
    }
  }

  /** `checkSubFlowCircularRef`. */
  method CheckSubFlowCircularRef(def: FlowDef, visited: set<string>) returns (ok: bool)
    ensures ok <==> forall c | NestingChain(def, c) :: NamedApart(c, visited)
    ensures ok <==> NamesAccepted(def, visited)
    decreases def
  {
    NamesAcceptedIff(def, visited);
    if def.name in visited { return false; }
    ok := true;
    var i := 0;
    while i < |def.transitions|
      invariant 0 <= i <= |def.transitions|
      invariant ok <==> forall j | 0 <= j < i ::
        def.transitions[j].kind == SubFlow && def.transitions[j].subFlow.Some? ==>
          NamesAccepted(def.transitions[j].subFlow.value.definition, visited + {def.name})
    {
      var t := def.transitions[i];
      if t.kind == SubFlow && t.subFlow.Some? {
        var inner := CheckSubFlowCircularRef(t.subFlow.value.definition, visited + {def.name});
        ok := ok && inner;
      }
      i := i + 1;
    }
  }

  // ---------- build() ----------

  /** `allowPerpetual` and `allowUnreachable`. */
  datatype Options = Options(perpetual: bool, allowUnreachable: bool)

  ghost predicate DataFlowAccepted(def: FlowDef)
    requires WellTyped(def) && def.initial.Some?
  {
    Analyse(AsWritten, CheckerGraph(def), def.initial.value, Initially(def)).errors == []
  }

  ghost predicate GraphsAccepted(def: FlowDef, opts: Options) {
    && def.initial.Some?
    && (opts.allowUnreachable || forall s | s in def.states && !def.Terminal(s) :: Reach(StepGraph(def), def.initial.value, s))
    && (opts.perpetual || ReachesTerminal(def, def.initial.value))
    && !Cyclic(ChainGraph(def))
  }

  ghost predicate StructureAccepted(def: FlowDef) {
    && RoutingAccepted(def) && BranchesComplete(def) && NoAutoExternalConflict(def)
    && TerminalsAreFinal(def) && ExitsComplete(def)
    && DepthAccepted(def, 0) && NamesAccepted(def, {})
  }

  /** What a definition that passes `build()` satisfies. */
  ghost predicate BuildAccepts(def: FlowDef, opts: Options)
    requires WellTyped(def)
  {
    GraphsAccepted(def, opts) && StructureAccepted(def) && DataFlowAccepted(def)
  }

  lemma {:induction false} NoneUnreached(def: FlowDef, states: seq<State>)
    requires def.initial.Some?
    ensures Unreached(def, states) == []
      <==> forall s | s in states && !def.Terminal(s) :: Reach(StepGraph(def), def.initial.value, s)
  {
    if states != [] {
      var n := |states| - 1;
      NoneUnreached(def, states[..n]);
      assert states == states[..n] + [states[n]];
    }
  }

  /** The three graph searches of `build()`. */
  method SearchGraphs(def: FlowDef, opts: Options) returns (accepted: bool)
    requires WellTyped(def)
    ensures accepted <==> GraphsAccepted(def, opts)
  {
    var unreached := CheckReachability(def);
    if def.initial.Some? { NoneUnreached(def, def.states); }
    var noTerminal := CheckPathToTerminal(def);
    var cycle := CheckDag(def);
    accepted := def.initial.Some? && (opts.allowUnreachable || unreached == []) && (opts.perpetual || !noTerminal) && cycle.None?;
  }

  /** The checks that look at one state, one transition or one chain of nested definitions at a time. */
  method CheckStructure(def: FlowDef) returns (accepted: bool)
    ensures accepted <==> StructureAccepted(def)
  {
    var routing := CheckExternalRequiresDistinct(def);
    var conflicts := CheckAutoExternalConflict(def);
    var faulty := CheckTransitions(def);
    var shallow := CheckSubFlowNestingDepth(def, 0);
    var acyclic := CheckSubFlowCircularRef(def, {});
    accepted := routing == [] && conflicts == [] && faulty == [] && shallow && acyclic;
  }

  /** `build()` succeeds exactly on the definitions `BuildAccepts` describes. */
  method Build(def: FlowDef, opts: Options) returns (accepted: bool)
    requires WellTyped(def)
    ensures accepted <==> BuildAccepts(def, opts)
    ensures accepted <==>
      GraphsAccepted(def, opts) && StructureAccepted(def) && CheckMeaning.AllPartsFed(def, CheckMeaning.Recorded(def))
  {
    if def.initial.Some? { CheckMeaning.WrittenAcceptsIffFed(def); }
    var graphs := SearchGraphs(def, opts);
    var missing := CheckRequiresProduces(def);
    var structure := CheckStructure(def);
    accepted := graphs && structure && missing == [];
  }
}
