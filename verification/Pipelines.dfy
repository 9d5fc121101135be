/** Linear pipelines: the build-time check, execution, nesting and replacement of steps. What is accepted runs safely, and
  * splicing a nested pipeline keeps its meaning. */
module Pipelines {
  import opened Definition
  import opened EngineModel

  /** A step is a unit of its own, or a whole pipeline used as one (`asStep`). */
  datatype Step = Unit(name: string, needs: seq<Key>, gives: seq<Key>) | Nested(inner: Pipeline)

  datatype Pipeline = Pipeline(name: string, steps: seq<Step>, initially: seq<Key>)

  function StepName(s: Step): string { if s.Unit? then s.name else s.inner.name }

  function Needs(s: Step): seq<Key> { if s.Unit? then s.needs else s.inner.initially }

  function Gives(s: Step): seq<Key> {
    match s
    case Unit(_, _, gives) => gives
    case Nested(inner) => AllGives(inner.steps)
  }

  function AllGives(steps: seq<Step>): seq<Key> {
    if steps == [] then [] else Gives(steps[0]) + AllGives(steps[1..])
  }

  // ---------- build ----------

  datatype StepError = StepError(step: string, key: Key)

  function MissingKeys(name: string, ks: seq<Key>, available: set<Key>): seq<StepError> {
    if ks == [] then []
    else
      var n := |ks| - 1;
      MissingKeys(name, ks[..n], available) + if ks[n] in available then [] else [StepError(name, ks[n])]
  }

  function Available(steps: seq<Step>, initially: set<Key>): set<Key> {
    if steps == [] then initially
    else var n := |steps| - 1; Available(steps[..n], initially) + KeySet(Gives(steps[n]))
  }

  function BuildErrors(steps: seq<Step>, initially: set<Key>): seq<StepError> {
    if steps == [] then []
    else
      var n := |steps| - 1;
      BuildErrors(steps[..n], initially) + MissingKeys(StepName(steps[n]), Needs(steps[n]), Available(steps[..n], initially))
  }

  method MissingFor(s: Step, available: set<Key>) returns (errors: seq<StepError>)
    ensures errors == MissingKeys(StepName(s), Needs(s), available)
  {
    var ks := Needs(s);
    errors := [];
    var j := 0;
    while j < |ks|
      invariant 0 <= j <= |ks| && errors == MissingKeys(StepName(s), ks[..j], available)
    {
      assert ks[..j + 1][..j] == ks[..j];
      if ks[j] !in available { errors := errors + [StepError(StepName(s), ks[j])]; }
      j := j + 1;
    }
    assert ks[..j] == ks;
  }

  /** The effective `PipelineBuilder.build`. */
  method Build(steps: seq<Step>, initially: set<Key>) returns (errors: seq<StepError>)
    ensures errors == BuildErrors(steps, initially)
  {
    errors := [];
    var available := initially;
    var i := 0;
    while i < |steps|
      invariant 0 <= i <= |steps|
      invariant available == Available(steps[..i], initially) && errors == BuildErrors(steps[..i], initially)
    {
      assert steps[..i + 1][..i] == steps[..i];
      var missing := MissingFor(steps[i], available);
      errors := errors + missing;
      available := available + KeySet(Gives(steps[i]));
      i := i + 1;
    }
    assert steps[..i] == steps;
  }

  lemma {:induction false} NoneMissing(name: string, ks: seq<Key>, available: set<Key>)
    ensures MissingKeys(name, ks, available) == [] <==> KeySet(ks) <= available
  {
    if ks != [] {
      var n := |ks| - 1;
      NoneMissing(name, ks[..n], available);
      assert KeySet(ks) == KeySet(ks[..n]) + {ks[n]};
    }
  }

  /** Each step's needs are available where it stands. */
  ghost predicate NeedsAvailable(steps: seq<Step>, initially: set<Key>) {
    forall i | 0 <= i < |steps| :: KeySet(Needs(steps[i])) <= Available(steps[..i], initially)
  }

  lemma SnocNeeds(steps: seq<Step>, s: Step, initially: set<Key>)
    ensures NeedsAvailable(steps + [s], initially)
      <==> NeedsAvailable(steps, initially) && KeySet(Needs(s)) <= Available(steps, initially)
  {
    var all := steps + [s];
    assert all[..|steps|] == steps && all[|steps|] == s;
    forall i | 0 <= i < |steps| ensures all[i] == steps[i] && all[..i] == steps[..i] {}
  }

  /** Accepted exactly when each step's needs are available where it stands. */
  lemma {:induction false} AcceptedIffAvailable(steps: seq<Step>, initially: set<Key>)
    ensures BuildErrors(steps, initially) == [] <==> NeedsAvailable(steps, initially)
  {
    if steps != [] {
      var n := |steps| - 1;
      AcceptedIffAvailable(steps[..n], initially);
      NoneMissing(StepName(steps[n]), Needs(steps[n]), Available(steps[..n], initially));
      SnocNeeds(steps[..n], steps[n], initially);
      assert steps == steps[..n] + [steps[n]];
    }
  }

  lemma {:induction false} AvailableAppend(a: seq<Step>, b: seq<Step>, initially: set<Key>)
    ensures Available(a + b, initially) == Available(b, Available(a, initially))
  {
    if b == [] {
      assert a + b == a;
    } else {
      var n := |b| - 1;
      AvailableAppend(a, b[..n], initially);
      assert (a + b)[..|a + b| - 1] == a + b[..n];
    }
  }

  lemma SnocErrors(steps: seq<Step>, s: Step, initially: set<Key>)
    ensures BuildErrors(steps + [s], initially)
         == BuildErrors(steps, initially) + MissingKeys(StepName(s), Needs(s), Available(steps, initially))
  {
    assert (steps + [s])[..|steps + [s]| - 1] == steps;
  }

  lemma {:induction false} BuildErrorsAppend(a: seq<Step>, b: seq<Step>, initially: set<Key>)
    ensures BuildErrors(a + b, initially) == BuildErrors(a, initially) + BuildErrors(b, Available(a, initially))
  {
    if b == [] {
      assert a + b == a;
    } else {
      var n := |b| - 1;
      var init, last := b[..n], b[n];
      BuildErrorsAppend(a, init, initially);
      AvailableAppend(a, init, initially);
      SnocErrors(a + init, last, initially);
      SnocErrors(init, last, Available(a, initially));
      SplitLast(a, b);
      Regroup(BuildErrors(a, initially), BuildErrors(init, Available(a, initially)),
              MissingKeys(StepName(last), Needs(last), Available(a + init, initially)));
    }
  }

  lemma SplitLast(a: seq<Step>, b: seq<Step>)
    requires b != []
    ensures b[..|b| - 1] + [b[|b| - 1]] == b && (a + b[..|b| - 1]) + [b[|b| - 1]] == a + b
  {}

  lemma Regroup(x: seq<StepError>, y: seq<StepError>, z: seq<StepError>)
    ensures (x + y) + z == x + (y + z)
  {}

  lemma OneStepAccepted(s: Step, have: set<Key>)
    ensures BuildErrors([s], have) == [] <==> KeySet(Needs(s)) <= have
    ensures Available([s], have) == have + KeySet(Gives(s))
  {
    assert [s][..0] == [];
    NoneMissing(StepName(s), Needs(s), have);
  }

  // ---------- execution ----------

  /** What a unit does when run: the tick lets it answer differently each time. */
  type Behaviour = (string, Ctx, nat) -> ProcessOutcome

  /** The context, a tick per unit run, and the calls made; pipelines never roll the context back. */
  datatype Bench = Bench(ctx: Ctx, tick: nat, calls: seq<Call>)

  datatype Ran = Ran(bench: Bench, error: Option<string>)

  function RunUnit(act: Behaviour, b: Bench, name: string, needs: seq<Key>): Ran {
    var calls := b.calls + [Call(KeySet(needs), b.ctx.Keys)];
    match act(name, b.ctx, b.tick)
    case Returned(puts) => Ran(Bench(b.ctx + puts, b.tick + 1, calls), None)
    case Threw(puts, error) => Ran(Bench(b.ctx + puts, b.tick + 1, calls), Some(error))
  }

  /** `process`: a nested pipeline runs its steps one after the other until one throws. */
  function RunStep(act: Behaviour, b: Bench, s: Step): Ran
    decreases s, 0
  {
    match s
    case Unit(name, needs, _) => RunUnit(act, b, name, needs)
    case Nested(inner) => RunSteps(act, b, inner.steps)
  }

  function RunSteps(act: Behaviour, b: Bench, steps: seq<Step>): Ran
    decreases steps, 1
  {
    if steps == [] then Ran(b, None)
    else
      var r := RunStep(act, b, steps[0]);
      if r.error.Some? then r else RunSteps(act, r.bench, steps[1..])
  }

  /** `PipelineException` carries the failed step and the names of the completed ones. */
  datatype Execution = Finished(bench: Bench) | StepFailed(failed: string, completed: seq<string>, bench: Bench, cause: string)

  function Names(steps: seq<Step>): seq<string> {
    if steps == [] then [] else var n := |steps| - 1; Names(steps[..n]) + [StepName(steps[n])]
  }

  /** `execute` from step `i` on. */
  function ExecuteFrom(act: Behaviour, strict: bool, steps: seq<Step>, i: nat, b: Bench): Execution
    requires i <= |steps|
    decreases |steps| - i
  {
    if i == |steps| then Finished(b)
    else
      var r := RunStep(act, b, steps[i]);
      if r.error.Some? then StepFailed(StepName(steps[i]), Names(steps[..i]), r.bench, r.error.value)
      else if strict && !(KeySet(Gives(steps[i])) <= r.bench.ctx.Keys)
      then StepFailed(StepName(steps[i]), Names(steps[..i]), r.bench, "PRODUCES_VIOLATION")
      else ExecuteFrom(act, strict, steps, i + 1, r.bench)
  }

  function Execute(act: Behaviour, strict: bool, p: Pipeline, data: Ctx): Execution {
    ExecuteFrom(act, strict, p.steps, 0, Bench(data, 0, []))
  }

  /** The loop of `execute`, with its `completed` list. */
  method ExecuteLoop(act: Behaviour, strict: bool, p: Pipeline, data: Ctx) returns (x: Execution)
    ensures x == Execute(act, strict, p, data)
  {
    var bench := Bench(data, 0, []);
    var completed: seq<string> := [];
    var i := 0;
    while i < |p.steps|
      invariant 0 <= i <= |p.steps| && completed == Names(p.steps[..i])
      invariant ExecuteFrom(act, strict, p.steps, i, bench) == Execute(act, strict, p, data)
    {
      var step := p.steps[i];
      var r := RunStep(act, bench, step);
      bench := r.bench;
      if r.error.Some? { return StepFailed(StepName(step), completed, bench, r.error.value); }
      if strict {
        var ks := Gives(step);
        var j := 0;
        while j < |ks|
          invariant 0 <= j <= |ks| && forall k | 0 <= k < j :: ks[k] in bench.ctx
        {
          if ks[j] !in bench.ctx { return StepFailed(StepName(step), completed, bench, "PRODUCES_VIOLATION"); }
          j := j + 1;
        }
      }
      completed := completed + [StepName(step)];
      assert p.steps[..i + 1][..i] == p.steps[..i];
      i := i + 1;
    }
    x := Finished(bench);
  }

  // ---------- data safety ----------

  ghost predicate Keeps(act: Behaviour, s: Step)
    decreases s
  {
    match s
    case Unit(name, _, gives) =>
      forall ctx, n :: act(name, ctx, n).Returned? ==> KeySet(gives) <= (ctx + act(name, ctx, n).puts).Keys
    case Nested(inner) => forall i | 0 <= i < |inner.steps| :: Keeps(act, inner.steps[i])
  }

  /** A step is sound when every pipeline inside it was accepted by its own build. */
  ghost predicate Sound(s: Step)
    decreases s
  {
    match s
    case Unit(_, _, _) => true
    case Nested(inner) =>
      && BuildErrors(inner.steps, KeySet(inner.initially)) == []
      && forall i | 0 <= i < |inner.steps| :: Sound(inner.steps[i])
  }

  ghost predicate AllSupplied(calls: seq<Call>) { forall c | c in calls :: c.needs <= c.present }

  /** After a step: the calls were supplied, the context grew, and a success put what the step gives. */
  ghost predicate StepSafe(b: Bench, given: seq<Key>, r: Ran) {
    && AllSupplied(r.bench.calls) && b.ctx.Keys <= r.bench.ctx.Keys
    && (r.error.None? ==> KeySet(given) <= r.bench.ctx.Keys)
  }

  lemma {:induction false} RunStepSafe(act: Behaviour, b: Bench, s: Step)
    requires AllSupplied(b.calls) && KeySet(Needs(s)) <= b.ctx.Keys && Keeps(act, s) && Sound(s)
    ensures StepSafe(b, Gives(s), RunStep(act, b, s))
    decreases s, 0
  {
    match s
    case Unit(name, needs, gives) =>
    case Nested(inner) => RunStepsSafe(act, b, inner.steps, KeySet(inner.initially));
  }

  lemma {:induction false} RunStepsSafe(act: Behaviour, b: Bench, steps: seq<Step>, have: set<Key>)
    requires AllSupplied(b.calls) && have <= b.ctx.Keys && BuildErrors(steps, have) == []
    requires forall i | 0 <= i < |steps| :: Keeps(act, steps[i]) && Sound(steps[i])
    ensures StepSafe(b, AllGives(steps), RunSteps(act, b, steps))
    decreases steps, 1
  {
    if steps != [] {
      HeadAccepted(steps, have);
      assert Keeps(act, steps[0]) && Sound(steps[0]);
      RunStepSafe(act, b, steps[0]);
      var r := RunStep(act, b, steps[0]);
      if r.error.None? {
        var rest := steps[1..];
        forall i | 0 <= i < |rest| ensures Keeps(act, rest[i]) && Sound(rest[i]) {
          assert rest[i] == steps[i + 1];
        }
        RunStepsSafe(act, r.bench, rest, have + KeySet(Gives(steps[0])));
        HeadGives(steps);
      }
    }
  }

  lemma HeadGives(steps: seq<Step>)
    requires steps != []
    ensures KeySet(AllGives(steps)) == KeySet(Gives(steps[0])) + KeySet(AllGives(steps[1..]))
  {}

  lemma FirstApart(steps: seq<Step>)
    requires steps != []
    ensures steps == [steps[0]] + steps[1..]
  {}

  lemma HeadAccepted(steps: seq<Step>, have: set<Key>)
    requires steps != [] && BuildErrors(steps, have) == []
    ensures KeySet(Needs(steps[0])) <= have
    ensures BuildErrors(steps[1..], have + KeySet(Gives(steps[0]))) == []
  {
    FirstApart(steps);
    BuildErrorsAppend([steps[0]], steps[1..], have);
    OneStepAccepted(steps[0], have);
  }

  ghost predicate PipelineReady(act: Behaviour, p: Pipeline) {
    BuildErrors(p.steps, KeySet(p.initially)) == [] && forall i | 0 <= i < |p.steps| :: Keeps(act, p.steps[i]) && Sound(p.steps[i])
  }

  lemma {:induction false} ExecuteFromSafe(act: Behaviour, strict: bool, p: Pipeline, i: nat, b: Bench)
    requires PipelineReady(act, p) && i <= |p.steps| && AllSupplied(b.calls)
    requires Available(p.steps[..i], KeySet(p.initially)) <= b.ctx.Keys
    ensures AllSupplied(ExecuteFrom(act, strict, p.steps, i, b).bench.calls)
    decreases |p.steps| - i
  {
    if i < |p.steps| {
      NeedsAt(p.steps, KeySet(p.initially), i);
      RunStepSafe(act, b, p.steps[i]);
      var r := RunStep(act, b, p.steps[i]);
      if r.error.None? {
        NextAvailable(p.steps, KeySet(p.initially), i);
        ExecuteFromSafe(act, strict, p, i + 1, r.bench);
      }
    }
  }

  lemma NeedsAt(steps: seq<Step>, initially: set<Key>, i: nat)
    requires i < |steps| && BuildErrors(steps, initially) == []
    ensures KeySet(Needs(steps[i])) <= Available(steps[..i], initially)
  {
    AcceptedIffAvailable(steps, initially);
  }

  lemma NextAvailable(steps: seq<Step>, initially: set<Key>, i: nat)
    requires i < |steps|
    ensures Available(steps[..i + 1], initially) == Available(steps[..i], initially) + KeySet(Gives(steps[i]))
  {
    assert steps[..i + 1][..i] == steps[..i];
  }

  /** An accepted pipeline run on its initial data: every unit executed, nested or not, finds what it needs. */
  lemma AcceptedPipelineIsSafe(act: Behaviour, strict: bool, p: Pipeline, data: Ctx)
    requires PipelineReady(act, p) && KeySet(p.initially) <= data.Keys
    ensures AllSupplied(Execute(act, strict, p, data).bench.calls)
  {
    ExecuteFromSafe(act, strict, p, 0, Bench(data, 0, []));
  }

  /** Where `execute` stands after `k` steps, if all of them succeeded. */
  ghost function After(act: Behaviour, strict: bool, steps: seq<Step>, k: nat, b: Bench): Option<Bench>
    requires k <= |steps|
  {
    if k == 0 then Some(b)
    else
      match After(act, strict, steps, k - 1, b)
      case None => None
      case Some(mid) =>
        var r := RunStep(act, mid, steps[k - 1]);
        if r.error.Some? || (strict && !(KeySet(Gives(steps[k - 1])) <= r.bench.ctx.Keys)) then None else Some(r.bench)
  }

  lemma {:induction false} ExecuteAfter(act: Behaviour, strict: bool, steps: seq<Step>, k: nat, b: Bench)
    requires k <= |steps| && After(act, strict, steps, k, b).Some?
    ensures ExecuteFrom(act, strict, steps, 0, b) == ExecuteFrom(act, strict, steps, k, After(act, strict, steps, k, b).value)
  {
    if k > 0 { ExecuteAfter(act, strict, steps, k - 1, b); }
  }

  /** A failure reports exactly the prefix of steps that succeeded; success means all of them did. */
  lemma {:induction false} FailureReportsPrefix(act: Behaviour, strict: bool, steps: seq<Step>, k: nat, b: Bench)
    requires k <= |steps| && After(act, strict, steps, k, b).Some?
    ensures var x := ExecuteFrom(act, strict, steps, 0, b);
      match x
      case Finished(end) => After(act, strict, steps, |steps|, b) == Some(end)
      case StepFailed(failed, completed, _, _) =>
        exists i: nat :: i < |steps| && completed == Names(steps[..i]) && failed == StepName(steps[i])
          && After(act, strict, steps, i, b).Some? && After(act, strict, steps, i + 1, b).None?
    decreases |steps| - k
  {
    ExecuteAfter(act, strict, steps, k, b);
    if k < |steps| && After(act, strict, steps, k + 1, b).Some? {
      FailureReportsPrefix(act, strict, steps, k + 1, b);
    }
  }

  // ---------- splicing a nested pipeline ----------

  lemma {:induction false} AllGivesAvailable(steps: seq<Step>, have: set<Key>)
    ensures Available(steps, have) == have + KeySet(AllGives(steps))
  {
    if steps != [] {
      AllGivesAvailable(steps[1..], have + KeySet(Gives(steps[0])));
      assert steps == [steps[0]] + steps[1..];
      AvailableAppend([steps[0]], steps[1..], have);
      assert [steps[0]][..0] == [];
      assert Available([steps[0]], have) == have + KeySet(Gives(steps[0]));
      assert KeySet(AllGives(steps)) == KeySet(Gives(steps[0])) + KeySet(AllGives(steps[1..]));
    }
  }

  /** More available keys never add an error. */
  lemma {:induction false} MoreNeverHurts(steps: seq<Step>, less: set<Key>, more: set<Key>)
    requires less <= more && BuildErrors(steps, less) == []
    ensures BuildErrors(steps, more) == [] && Available(steps, less) <= Available(steps, more)
  {
    if steps != [] {
      var n := |steps| - 1;
      MoreNeverHurts(steps[..n], less, more);
      NoneMissing(StepName(steps[n]), Needs(steps[n]), Available(steps[..n], less));
      NoneMissing(StepName(steps[n]), Needs(steps[n]), Available(steps[..n], more));
    }
  }

  /** Putting the steps of an accepted nested pipeline in its place keeps the outer pipeline accepted. */
  lemma SpliceKeepsAcceptance(before: seq<Step>, inner: Pipeline, after: seq<Step>, initially: set<Key>)
    requires BuildErrors(before + [Nested(inner)] + after, initially) == []
    requires BuildErrors(inner.steps, KeySet(inner.initially)) == []
    ensures BuildErrors(before + inner.steps + after, initially) == []
  {
    var have := Available(before, initially);
    BuildErrorsAppend(before + [Nested(inner)], after, initially);
    BuildErrorsAppend(before, [Nested(inner)], initially);
    AvailableAppend(before, [Nested(inner)], initially);
    OneStepAccepted(Nested(inner), have);
    MoreNeverHurts(inner.steps, KeySet(inner.initially), have);
    AllGivesAvailable(inner.steps, have);
    BuildErrorsAppend(before + inner.steps, after, initially);
    BuildErrorsAppend(before, inner.steps, initially);
    AvailableAppend(before, inner.steps, initially);
  }

  lemma {:induction false} RunStepsAppend(act: Behaviour, b: Bench, x: seq<Step>, y: seq<Step>)
    ensures var r := RunSteps(act, b, x);
      RunSteps(act, b, x + y) == if r.error.Some? then r else RunSteps(act, r.bench, y)
    decreases x
  {
    if x == [] {
      assert x + y == y;
    } else {
      assert (x + y)[0] == x[0] && (x + y)[1..] == x[1..] + y;
      var r := RunStep(act, b, x[0]);
      if r.error.None? { RunStepsAppend(act, r.bench, x[1..], y); }
    }
  }

  /** Without strict mode, executing is running the steps one after the other. */
  lemma {:induction false} ExecuteIsRunSteps(act: Behaviour, steps: seq<Step>, i: nat, b: Bench)
    requires i <= |steps|
    ensures var r := RunSteps(act, b, steps[i..]);
      var x := ExecuteFrom(act, false, steps, i, b);
      x.bench == r.bench && (x.Finished? <==> r.error.None?)
    decreases |steps| - i
  {
    if i < |steps| {
      assert steps[i..][0] == steps[i] && steps[i..][1..] == steps[i + 1..];
      var r := RunStep(act, b, steps[i]);
      if r.error.None? { ExecuteIsRunSteps(act, steps, i + 1, r.bench); }
    } else {
      assert steps[i..] == [];
    }
  }

  /** Outside strict mode splicing changes neither whether the pipeline finishes nor the context it leaves. */
  lemma SpliceKeepsMeaning(act: Behaviour, before: seq<Step>, inner: Pipeline, after: seq<Step>, b: Bench)
    ensures var nested := ExecuteFrom(act, false, before + [Nested(inner)] + after, 0, b);
      var flat := ExecuteFrom(act, false, before + inner.steps + after, 0, b);
      nested.bench == flat.bench && (nested.Finished? <==> flat.Finished?)
  {
    var nested, flat := before + [Nested(inner)] + after, before + inner.steps + after;
    assert nested[0..] == nested && flat[0..] == flat;
    ExecuteIsRunSteps(act, nested, 0, b);
    ExecuteIsRunSteps(act, flat, 0, b);
    assert nested == before + ([Nested(inner)] + after) && flat == before + (inner.steps + after);
    RunStepsAppend(act, b, before, [Nested(inner)] + after);
    RunStepsAppend(act, b, before, inner.steps + after);
    var mid := RunSteps(act, b, before).bench;
    RunStepsAppend(act, mid, [Nested(inner)], after);
    RunStepsAppend(act, mid, inner.steps, after);
    assert [Nested(inner)][1..] == [];
    var r := RunStep(act, mid, Nested(inner));
    assert RunSteps(act, mid, [Nested(inner)]) == if r.error.Some? then r else RunSteps(act, r.bench, [Nested(inner)][1..]);
  }

  // ---------- splicing in strict mode ----------

  /** Each step that succeeds has put what it gives by then. */
  ghost predicate KeptOnTime(act: Behaviour, b: Bench, steps: seq<Step>)
    decreases |steps|
  {
    steps != [] ==>
      var r := RunStep(act, b, steps[0]);
      r.error.None? ==> KeySet(Gives(steps[0])) <= r.bench.ctx.Keys && KeptOnTime(act, r.bench, steps[1..])
  }

  lemma {:induction false} KeptAppend(act: Behaviour, b: Bench, x: seq<Step>, y: seq<Step>)
    ensures var r := RunSteps(act, b, x);
      KeptOnTime(act, b, x + y) <==> KeptOnTime(act, b, x) && (r.error.None? ==> KeptOnTime(act, r.bench, y))
    decreases |x|
  {
    if x == [] {
      assert x + y == y;
    } else {
      assert (x + y)[0] == x[0] && (x + y)[1..] == x[1..] + y;
      var r := RunStep(act, b, x[0]);
      if r.error.None? { KeptAppend(act, r.bench, x[1..], y); }
    }
  }

  /** In strict mode a pipeline finishes exactly when nothing throws and every step keeps its promise on time. */
  lemma {:induction false} StrictFinishes(act: Behaviour, steps: seq<Step>, i: nat, b: Bench)
    requires i <= |steps|
    ensures var r, x := RunSteps(act, b, steps[i..]), ExecuteFrom(act, true, steps, i, b);
      (x.Finished? <==> r.error.None? && KeptOnTime(act, b, steps[i..])) && (x.Finished? ==> x.bench == r.bench)
    decreases |steps| - i
  {
    if i < |steps| {
      assert steps[i..][0] == steps[i] && steps[i..][1..] == steps[i + 1..];
      var r := RunStep(act, b, steps[i]);
      if r.error.None? { StrictFinishes(act, steps, i + 1, r.bench); }
    } else {
      assert steps[i..] == [];
    }
  }

  lemma {:induction false} RunStepsGrow(act: Behaviour, b: Bench, steps: seq<Step>)
    ensures b.ctx.Keys <= RunSteps(act, b, steps).bench.ctx.Keys
    decreases steps, 1
  {
    if steps != [] {
      var r := RunStep(act, b, steps[0]);
      RunStepGrows(act, b, steps[0]);
      if r.error.None? { RunStepsGrow(act, r.bench, steps[1..]); }
    }
  }

  lemma {:induction false} RunStepGrows(act: Behaviour, b: Bench, s: Step)
    ensures b.ctx.Keys <= RunStep(act, b, s).bench.ctx.Keys
    decreases s, 0
  {
    if s.Nested? { RunStepsGrow(act, b, s.inner.steps); }
  }

  /** What is kept on time is there at the end. */
  lemma {:induction false} KeptIsGiven(act: Behaviour, b: Bench, steps: seq<Step>)
    requires KeptOnTime(act, b, steps) && RunSteps(act, b, steps).error.None?
    ensures KeySet(AllGives(steps)) <= RunSteps(act, b, steps).bench.ctx.Keys
    decreases |steps|
  {
    if steps != [] {
      var r := RunStep(act, b, steps[0]);
      KeptIsGiven(act, r.bench, steps[1..]);
      RunStepsGrow(act, r.bench, steps[1..]);
      assert KeySet(AllGives(steps)) == KeySet(Gives(steps[0])) + KeySet(AllGives(steps[1..]));
    }
  }

  lemma OneStepRuns(act: Behaviour, b: Bench, s: Step)
    ensures RunSteps(act, b, [s]) == RunStep(act, b, s)
    ensures KeptOnTime(act, b, [s]) <==>
      (RunStep(act, b, s).error.None? ==> KeySet(Gives(s)) <= RunStep(act, b, s).bench.ctx.Keys)
  {
    assert [s][0] == s && [s][1..] == [];
    assert RunSteps(act, b, [s]) == var r := RunStep(act, b, s); if r.error.Some? then r else RunSteps(act, r.bench, [s][1..]);
  }

  lemma SplicedRuns(act: Behaviour, before: seq<Step>, middle: seq<Step>, after: seq<Step>, b: Bench)
    ensures var mid := RunSteps(act, b, before);
      var x, y := ExecuteFrom(act, true, before + middle + after, 0, b), RunSteps(act, mid.bench, middle);
      x.Finished? <==>
        && mid.error.None? && KeptOnTime(act, b, before) && y.error.None? && KeptOnTime(act, mid.bench, middle)
        && RunSteps(act, y.bench, after).error.None? && KeptOnTime(act, y.bench, after)
    ensures var mid := RunSteps(act, b, before);
      var x, y := ExecuteFrom(act, true, before + middle + after, 0, b), RunSteps(act, mid.bench, middle);
      x.Finished? ==> x.bench == RunSteps(act, y.bench, after).bench
  {
    var all := before + middle + after;
    assert all[0..] == all && all == before + (middle + after);
    StrictFinishes(act, all, 0, b);
    RunStepsAppend(act, b, before, middle + after);
    KeptAppend(act, b, before, middle + after);
    var mid := RunSteps(act, b, before).bench;
    RunStepsAppend(act, mid, middle, after);
    KeptAppend(act, mid, middle, after);
  }

  /** In strict mode a nested pipeline is checked when all its steps have run, its spliced steps one by one: a spliced
    * pipeline that finishes does what the nested one does, and one that finishes nested also finishes spliced exactly
    * when its inner steps keep their promises on time. */
  lemma SpliceWhenStrict(act: Behaviour, before: seq<Step>, inner: Pipeline, after: seq<Step>, b: Bench)
    ensures var nested := ExecuteFrom(act, true, before + [Nested(inner)] + after, 0, b);
      var flat := ExecuteFrom(act, true, before + inner.steps + after, 0, b);
      && (flat.Finished? ==> nested == flat)
      && (nested.Finished? ==> (flat.Finished? <==> KeptOnTime(act, RunSteps(act, b, before).bench, inner.steps)))
  {
    var mid := RunSteps(act, b, before).bench;
    SplicedRuns(act, before, [Nested(inner)], after, b);
    SplicedRuns(act, before, inner.steps, after, b);
    OneStepRuns(act, mid, Nested(inner));
    if KeptOnTime(act, mid, inner.steps) && RunSteps(act, mid, inner.steps).error.None? { KeptIsGiven(act, mid, inner.steps); }
  }

  const FIRST := Unit("first", [], ["K"])
  const SECOND := Unit("second", [], [])

  /** The first of two steps leaves its key to the second. */
  const LATE: Behaviour := (name: string, _, _) => if name == "second" then Returned(map["K" := "v"]) else Returned(map[])

  lemma LateRuns(b: Bench)
    requires "K" !in b.ctx
    ensures var r := RunSteps(LATE, b, [FIRST, SECOND]); r.error.None? && "K" in r.bench.ctx
    ensures !KeptOnTime(LATE, b, [FIRST, SECOND])
  {
    assert [FIRST, SECOND][1..] == [SECOND];
    var b1 := RunStep(LATE, b, FIRST).bench;
    assert b1.ctx == b.ctx;
    OneStepRuns(LATE, b1, SECOND);
    assert "K" in KeySet(Gives(FIRST));
  }

  lemma LateIsAccepted()
    ensures BuildErrors([FIRST, SECOND], {}) == [] && AllGives([FIRST, SECOND]) == ["K"]
  {
    assert [FIRST, SECOND][1..] == [SECOND] && [SECOND][1..] == [];
    assert [FIRST, SECOND][..1] == [FIRST] && [FIRST][..0] == [];
    assert BuildErrors([FIRST], {}) == [];
    assert AllGives([SECOND]) == [];
  }

  /** Such a pipeline passes nested and fails spliced. */
  lemma SpliceWhenStrictFails()
    ensures var inner, b := Pipeline("inner", [FIRST, SECOND], []), Bench(map[], 0, []);
      && BuildErrors(inner.steps, {}) == []
      && ExecuteFrom(LATE, true, [] + [Nested(inner)] + [], 0, b).Finished?
      && !ExecuteFrom(LATE, true, [] + inner.steps + [], 0, b).Finished?
  {
    var inner, b := Pipeline("inner", [FIRST, SECOND], []), Bench(map[], 0, []);
    LateIsAccepted();
    LateRuns(b);
    OneStepRuns(LATE, b, Nested(inner));
    SplicedRuns(LATE, [], [Nested(inner)], [], b);
    SpliceWhenStrict(LATE, [], inner, [], b);
  }

  // ---------- compatible replacement ----------

  /** `DataFlowGraph.isCompatible`. */
  predicate IsCompatible(a: Step, b: Step) {
    KeySet(Needs(b)) <= KeySet(Needs(a)) && KeySet(Gives(a)) <= KeySet(Gives(b))
  }

  /** `b` needs no more than `a` and leaves available all that `a` leaves. */
  predicate StandsIn(a: Step, b: Step) {
    KeySet(Needs(b)) <= KeySet(Needs(a)) && KeySet(Gives(a)) <= KeySet(Gives(b)) + KeySet(Needs(a))
  }

  lemma StandInKeepsAcceptance(before: seq<Step>, a: Step, b: Step, after: seq<Step>, initially: set<Key>)
    requires BuildErrors(before + [a] + after, initially) == [] && StandsIn(a, b)
    ensures BuildErrors(before + [b] + after, initially) == []
  {
    var have := Available(before, initially);
    BuildErrorsAppend(before + [a], after, initially);
    BuildErrorsAppend(before, [a], initially);
    AvailableAppend(before, [a], initially);
    OneStepAccepted(a, have);
    OneStepAccepted(b, have);
    BuildErrorsAppend(before + [b], after, initially);
    BuildErrorsAppend(before, [b], initially);
    AvailableAppend(before, [b], initially);
    MoreNeverHurts(after, have + KeySet(Gives(a)), have + KeySet(Gives(b)));
  }

  /** Replacing a step by a compatible one keeps the pipeline accepted. */
  lemma CompatibleKeepsAcceptance(before: seq<Step>, a: Step, b: Step, after: seq<Step>, initially: set<Key>)
    requires BuildErrors(before + [a] + after, initially) == [] && IsCompatible(a, b)
    ensures BuildErrors(before + [b] + after, initially) == []
  {
    StandInKeepsAcceptance(before, a, b, after, initially);
  }

  ghost predicate AlwaysReplaceable(a: Step, b: Step) {
    forall before, after, initially ::
      BuildErrors(before + [a] + after, initially) == [] ==> BuildErrors(before + [b] + after, initially) == []
  }

  /** Exactly when a step can replace another in every pipeline: `isCompatible` asks slightly more, namely that the
    * new step also gives the keys the old one gave although it already needed them. */
  lemma ReplaceableIffStandsIn(a: Step, b: Step)
    ensures AlwaysReplaceable(a, b) <==> StandsIn(a, b)
    ensures IsCompatible(a, b) <==> StandsIn(a, b) && KeySet(Gives(a)) * KeySet(Needs(a)) <= KeySet(Gives(b))
  {
    if StandsIn(a, b) {
      forall before, after, initially | BuildErrors(before + [a] + after, initially) == []
        ensures BuildErrors(before + [b] + after, initially) == []
      {
        StandInKeepsAcceptance(before, a, b, after, initially);
      }
    }
    if AlwaysReplaceable(a, b) {
      var have := KeySet(Needs(a));
      assert [] + [a] + [] == [a] && [] + [b] + [] == [b];
      OneStepAccepted(a, have);
      OneStepAccepted(b, have);
      assert BuildErrors([] + [a] + [], have) == [];
      assert KeySet(Needs(b)) <= have;
      forall k | k in KeySet(Gives(a)) ensures k in KeySet(Gives(b)) + KeySet(Needs(a)) {
        GivesAreNeeded(a, b, k);
      }
    }
  }

  /** A later step would miss a key that only `a` leaves available. */
  lemma GivesAreNeeded(a: Step, b: Step, k: Key)
    requires AlwaysReplaceable(a, b) && KeySet(Needs(b)) <= KeySet(Needs(a)) && k in KeySet(Gives(a))
    ensures k in KeySet(Gives(b)) + KeySet(Needs(a))
  {
    var probe := Unit("probe", [k], []);
    var have := KeySet(Needs(a));
    assert KeySet([k]) == {k};
    assert [] + [a] + [probe] == [a] + [probe] && [] + [b] + [probe] == [b] + [probe];
    OneStepAccepted(a, have);
    OneStepAccepted(b, have);
    BuildErrorsAppend([a], [probe], have);
    BuildErrorsAppend([b], [probe], have);
    OneStepAccepted(probe, have + KeySet(Gives(a)));
    OneStepAccepted(probe, have + KeySet(Gives(b)));
    assert BuildErrors([] + [a] + [probe], have) == [];
    assert BuildErrors([] + [b] + [probe], have) == [];
  }
}
