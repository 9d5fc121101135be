/** Which arm of a branch runs for a label, in terms of what was declared. */
module BranchArms {
  import opened Definition
  import opened EngineModel
  import opened Builder

  // ---------- what is declared for a label ----------

  /** The target last declared for a label. */
  ghost predicate TargetDeclared(arms: seq<Arm>, l: Label, target: State) {
    exists i | 0 <= i < |arms| ::
      arms[i].choice == l && arms[i].target == target && forall j | i < j < |arms| :: arms[j].choice != l
  }

  /** The processor last declared for a label; a later arm without one does not take it away. */
  ghost predicate ProcessorDeclared(arms: seq<Arm>, l: Label, p: Option<Processor>) {
    if p.Some? then
      exists i | 0 <= i < |arms| ::
        arms[i].choice == l && arms[i].processor == p && forall j | i < j < |arms| :: arms[j].choice != l || arms[j].processor.None?
    else
      forall i | 0 <= i < |arms| :: arms[i].choice != l || arms[i].processor.None?
  }

  lemma {:induction false} TargetsDeclared(arms: seq<Arm>, l: Label)
    ensures l in ArmTargets(arms) <==> exists i | 0 <= i < |arms| :: arms[i].choice == l
    ensures l in ArmTargets(arms) ==> TargetDeclared(arms, l, ArmTargets(arms)[l])
  {
    if arms != [] {
      var n := |arms| - 1;
      TargetsDeclared(arms[..n], l);
      if arms[n].choice != l && l in ArmTargets(arms) {
        var i :| 0 <= i < n && arms[..n][i].choice == l && arms[..n][i].target == ArmTargets(arms)[l]
          && forall j | i < j < n :: arms[..n][j].choice != l;
        assert arms[i].choice == l && forall j | i < j < |arms| :: arms[j].choice != l;
      }
      if i :| 0 <= i < |arms| && arms[i].choice == l { if i < n { assert arms[..n][i].choice == l; } }
    }
  }

  lemma {:induction false} ProcessorsDeclared(arms: seq<Arm>, l: Label)
    ensures ProcessorDeclared(arms, l, Lookup(ArmProcessors(arms), l))
  {
    if arms != [] {
      var n := |arms| - 1;
      ProcessorsDeclared(arms[..n], l);
      var p := Lookup(ArmProcessors(arms), l);
      if arms[n].choice == l && arms[n].processor.Some? {
        assert arms[n].processor == p;
      } else if p.Some? {
        var i :| 0 <= i < n && arms[..n][i].choice == l && arms[..n][i].processor == p
          && forall j | i < j < n :: arms[..n][j].choice != l || arms[..n][j].processor.None?;
        assert arms[i].choice == l && forall j | i < j < |arms| :: arms[j].choice != l || arms[j].processor.None?;
      } else {
        forall i | 0 <= i < |arms| ensures arms[i].choice != l || arms[i].processor.None? {
          if i < n { assert arms[..n][i] == arms[i]; }
        }
      }
    }
  }

  // ---------- the block of transitions of one branch ----------

  function ArmTransition(d: Declaration, l: Label): Transition
    requires d.BranchDecl? && l in ArmTargets(d.arms)
  {
    Transition(d.from, ArmTargets(d.arms)[l], Branch, Lookup(ArmProcessors(d.arms), l), None, Some(d.branch),
               ArmTargets(d.arms), Some(l), None, None)
  }

  lemma {:induction false} BlockArms(d: Declaration, ls: seq<Label>)
    requires d.BranchDecl? && forall l | l in ls :: l in ArmTargets(d.arms)
    ensures var ts := BranchTransitions(d.from, d.branch, ArmTargets(d.arms), ArmProcessors(d.arms), ls);
      && (forall t | t in ts :: t.branchLabel.Some? && t.branchLabel.value in ls && t == ArmTransition(d, t.branchLabel.value))
      && (forall l | l in ls :: FirstLabelled(ts, l) == Some(ArmTransition(d, l)))
      && (ls != [] ==> FirstChained(ts) == Some(ArmTransition(d, ls[0])))
      && Leaving(ts, d.from) == ts
  {
    if ls != [] { BlockArms(d, ls[1..]); }
  }

  // ---------- among the other declarations ----------

  predicate Chains(d: Declaration) { d.AutoDecl? || d.BranchDecl? }

  ghost predicate OnlyChained(ds: seq<Declaration>, s: State, k: nat) {
    k < |ds| && Chains(ds[k]) && ds[k].from == s && forall j | 0 <= j < |ds| && j != k :: !(Chains(ds[j]) && ds[j].from == s)
  }

  ghost predicate NoneChained(ds: seq<Declaration>, s: State) {
    forall j | 0 <= j < |ds| :: !(Chains(ds[j]) && ds[j].from == s)
  }

  lemma OthersUnchained(d: Declaration, s: State, l: Label)
    requires !(Chains(d) && d.from == s)
    ensures FirstChained(Leaving(Emit(d), s)).None? && FirstLabelled(Leaving(Emit(d), s), l).None?
    ensures forall t | t in Leaving(Emit(d), s) :: t.kind != Auto && t.kind != Branch
  {
    if d.BranchDecl? { BranchBlock(d.from, d.branch, ArmTargets(d.arms), ArmProcessors(d.arms), ArmLabels(d.arms)); }
  }

  lemma {:induction false} NoneFound(ds: seq<Declaration>, s: State, l: Label)
    requires NoneChained(ds, s)
    ensures FirstChained(Leaving(EmitAll(ds), s)).None? && FirstLabelled(Leaving(EmitAll(ds), s), l).None?
    ensures forall t | t in Leaving(EmitAll(ds), s) :: t.kind != Auto && t.kind != Branch
  {
    if ds != [] {
      OthersUnchained(ds[0], s, l);
      NoneFound(ds[1..], s, l);
      LeavingAppend(Emit(ds[0]), EmitAll(ds[1..]), s);
      SearchAppend(Leaving(Emit(ds[0]), s), Leaving(EmitAll(ds[1..]), s), l);
    }
  }

  /** Out of a state with one automatic or branch declaration, the engine finds what that declaration emits. */
  lemma {:induction false} OnlyOneFound(ds: seq<Declaration>, s: State, k: nat, l: Label)
    requires OnlyChained(ds, s, k)
    ensures FirstChained(Leaving(EmitAll(ds), s)) == FirstChained(Leaving(Emit(ds[k]), s))
    ensures FirstLabelled(Leaving(EmitAll(ds), s), l) == FirstLabelled(Leaving(Emit(ds[k]), s), l)
    ensures forall t | t in Leaving(EmitAll(ds), s) && (t.kind == Auto || t.kind == Branch) :: t in Leaving(Emit(ds[k]), s)
  {
    var a, b := Leaving(Emit(ds[0]), s), Leaving(EmitAll(ds[1..]), s);
    LeavingAppend(Emit(ds[0]), EmitAll(ds[1..]), s);
    SearchAppend(a, b, l);
    if k == 0 {
      forall j | 0 <= j < |ds[1..]| ensures !(Chains(ds[1..][j]) && ds[1..][j].from == s) { assert ds[1..][j] == ds[j + 1]; }
      NoneFound(ds[1..], s, l);
    } else {
      forall j | 0 <= j < |ds[1..]| && j != k - 1 ensures !(Chains(ds[1..][j]) && ds[1..][j].from == s) {
        assert ds[1..][j] == ds[j + 1];
      }
      OnlyOneFound(ds[1..], s, k - 1, l);
      OthersUnchained(ds[0], s, l);
    }
  }

  /** For any arms: what is picked for a label leads to the target last declared for it and runs the processor last declared
    * for it, and every label declared picks something. */
  lemma LabelPicksItsArm(def: FlowDef, ds: seq<Declaration>, k: nat, l: Label)
    requires def.transitions == EmitAll(ds) && k < |ds| && ds[k].BranchDecl? && OnlyChained(ds, ds[k].from, k)
    ensures var picked := FirstLabelled(def.TransitionsFrom(ds[k].from), l);
      && (picked.Some? <==> exists i | 0 <= i < |ds[k].arms| :: ds[k].arms[i].choice == l)
      && (picked.Some? ==> TargetDeclared(ds[k].arms, l, picked.value.to) && ProcessorDeclared(ds[k].arms, l, picked.value.processor))
  {
    var d := ds[k];
    OnlyOneFound(ds, d.from, k, l);
    BlockArms(d, ArmLabels(d.arms));
    TargetsDeclared(d.arms, l);
    ProcessorsDeclared(d.arms, l);
    if l !in ArmLabels(d.arms) { LabelIsMissing(Emit(d), l); }
  }

  lemma {:induction false} LabelIsMissing(ts: seq<Transition>, l: Label)
    requires forall t | t in ts :: t.branchLabel != Some(l)
    ensures FirstLabelled(ts, l).None?
  {
    if ts != [] {
      assert ts[0] in ts;
      LabelIsMissing(ts[1..], l);
    }
  }

  // ---------- nothing is shadowed ----------

  /** The engine takes `t` out of its state: it is the automatic transition there, or the arm picked for its label. */
  ghost predicate CanBeTaken(ts: seq<Transition>, t: Transition) {
    match FirstChained(ts)
    case None => false
    case Some(first) =>
      if first.kind == Auto then t == first
      else (
        && t.branchLabel.Some? && t.branchLabel.value in first.branchTargets
        && FirstLabelled(ts, t.branchLabel.value) == Some(t) && t.branch == first.branch)
  }

  ghost predicate NothingShadowed(def: FlowDef) {
    forall t | t in def.transitions && (t.kind == Auto || t.kind == Branch) :: CanBeTaken(def.TransitionsFrom(t.from), t)
  }

  /** No two automatic or branch declarations leave the same state. */
  ghost predicate DeclaredOnce(ds: seq<Declaration>) {
    forall i, j | 0 <= i < j < |ds| && Chains(ds[i]) && Chains(ds[j]) :: ds[i].from != ds[j].from
  }

  lemma {:induction false} EmittedBy(ds: seq<Declaration>, t: Transition) returns (k: nat)
    requires t in EmitAll(ds)
    ensures k < |ds| && t in Emit(ds[k])
  {
    if t in Emit(ds[0]) {
      k := 0;
    } else {
      k := EmittedBy(ds[1..], t);
      k := k + 1;
    }
  }

  lemma EmittedFrom(d: Declaration, t: Transition)
    requires t in Emit(d) && (t.kind == Auto || t.kind == Branch)
    ensures Chains(d) && t.from == d.from && t in Leaving(Emit(d), d.from)
    ensures CanBeTaken(Leaving(Emit(d), d.from), t)
  {
    if d.BranchDecl? { BlockArms(d, ArmLabels(d.arms)); }
  }

  /** Every automatic transition of a definition whose states declare at most one automatic or branch each can be taken. */
  lemma DeclaredOnceIsUnshadowed(def: FlowDef, ds: seq<Declaration>)
    requires def.transitions == EmitAll(ds) && DeclaredOnce(ds)
    ensures NothingShadowed(def)
  {
    forall t | t in def.transitions && (t.kind == Auto || t.kind == Branch) ensures CanBeTaken(def.TransitionsFrom(t.from), t) {
      var k := EmittedBy(ds, t);
      EmittedFrom(ds[k], t);
      assert OnlyChained(ds, t.from, k);
      OnlyOneFound(ds, t.from, k, if t.branchLabel.Some? then t.branchLabel.value else "");
    }
  }
}
