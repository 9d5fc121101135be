/** What a pipeline leaves behind, finished or failed: its units one after the other, and nothing undone. */
module PipelineTrace {
  import opened Definition
  import opened EngineModel
  import opened Pipelines

  // ---------- the units ----------

  /** The units of a step, nested pipelines opened up. */
  function Flat(s: Step): seq<Step>
    decreases s, 0
  {
    match s
    case Unit(_, _, _) => [s]
    case Nested(inner) => FlatAll(inner.steps)
  }

  function FlatAll(steps: seq<Step>): seq<Step>
    decreases steps, 1
  {
    if steps == [] then [] else Flat(steps[0]) + FlatAll(steps[1..])
  }

  /** The bench after `k` units: what each of them put stays, whether it returned or threw. */
  function Benched(act: Behaviour, b: Bench, us: seq<Step>, k: nat): Bench
    requires k <= |us|
  {
    if k == 0 then b
    else
      var before := Benched(act, b, us, k - 1);
      Bench(before.ctx + act(StepName(us[k - 1]), before.ctx, before.tick).puts, before.tick + 1,
            before.calls + [Call(KeySet(Needs(us[k - 1])), before.ctx.Keys)])
  }

  /** What unit `k` answers when its turn comes. */
  function Answer(act: Behaviour, b: Bench, us: seq<Step>, k: nat): ProcessOutcome
    requires k < |us|
  {
    act(StepName(us[k]), Benched(act, b, us, k).ctx, Benched(act, b, us, k).tick)
  }

  ghost predicate AllReturn(act: Behaviour, b: Bench, us: seq<Step>, k: nat)
    requires k <= |us|
  {
    forall j | 0 <= j < k :: Answer(act, b, us, j).Returned?
  }

  /** `k` units have run; the last one has thrown `error`, if anything has. */
  ghost predicate Traced(act: Behaviour, b: Bench, us: seq<Step>, k: nat, r: Ran) {
    && k <= |us| && r.bench == Benched(act, b, us, k)
    && match r.error
       case None => k == |us| && AllReturn(act, b, us, k)
       case Some(e) =>
         k > 0 && AllReturn(act, b, us, k - 1) && Answer(act, b, us, k - 1).Threw? && Answer(act, b, us, k - 1).error == e
  }

  lemma {:induction false} BenchedPrefix(act: Behaviour, b: Bench, us: seq<Step>, vs: seq<Step>, k: nat)
    requires k <= |us|
    ensures Benched(act, b, us + vs, k) == Benched(act, b, us, k)
  {
    if k > 0 { BenchedPrefix(act, b, us, vs, k - 1); }
  }

  lemma {:induction false} BenchedAppend(act: Behaviour, b: Bench, us: seq<Step>, vs: seq<Step>, k: nat)
    requires k <= |vs|
    ensures Benched(act, b, us + vs, |us| + k) == Benched(act, Benched(act, b, us, |us|), vs, k)
  {
    if k == 0 {
      BenchedPrefix(act, b, us, vs, |us|);
    } else {
      BenchedAppend(act, b, us, vs, k - 1);
    }
  }

  lemma AnswerPrefix(act: Behaviour, b: Bench, us: seq<Step>, vs: seq<Step>, k: nat)
    requires k < |us|
    ensures Answer(act, b, us + vs, k) == Answer(act, b, us, k)
  {
    BenchedPrefix(act, b, us, vs, k);
  }

  lemma AnswerAppend(act: Behaviour, b: Bench, us: seq<Step>, vs: seq<Step>, k: nat)
    requires k < |vs|
    ensures Answer(act, b, us + vs, |us| + k) == Answer(act, Benched(act, b, us, |us|), vs, k)
  {
    BenchedAppend(act, b, us, vs, k);
  }

  lemma ReturnPrefix(act: Behaviour, b: Bench, us: seq<Step>, vs: seq<Step>, k: nat)
    requires k <= |us|
    ensures AllReturn(act, b, us + vs, k) <==> AllReturn(act, b, us, k)
  {
    forall j | 0 <= j < k ensures Answer(act, b, us + vs, j) == Answer(act, b, us, j) { AnswerPrefix(act, b, us, vs, j); }
  }

  lemma ReturnAppend(act: Behaviour, b: Bench, us: seq<Step>, vs: seq<Step>, k: nat)
    requires k <= |vs| && AllReturn(act, b, us, |us|) && AllReturn(act, Benched(act, b, us, |us|), vs, k)
    ensures AllReturn(act, b, us + vs, |us| + k)
  {
    forall j | 0 <= j < |us| + k ensures Answer(act, b, us + vs, j).Returned? {
      if j < |us| { AnswerPrefix(act, b, us, vs, j); } else { AnswerAppend(act, b, us, vs, j - |us|); }
    }
  }

  /** What stopped early is traced by the longer list too. */
  lemma TracedPrefix(act: Behaviour, b: Bench, us: seq<Step>, vs: seq<Step>, k: nat, r: Ran)
    requires Traced(act, b, us, k, r) && r.error.Some?
    ensures Traced(act, b, us + vs, k, r)
  {
    BenchedPrefix(act, b, us, vs, k);
    ReturnPrefix(act, b, us, vs, k - 1);
    AnswerPrefix(act, b, us, vs, k - 1);
  }

  lemma TracedAppend(act: Behaviour, b: Bench, us: seq<Step>, vs: seq<Step>, first: Ran, k: nat, r: Ran)
    requires Traced(act, b, us, |us|, first) && first.error.None? && Traced(act, first.bench, vs, k, r)
    ensures Traced(act, b, us + vs, |us| + k, r)
  {
    BenchedAppend(act, b, us, vs, k);
    assert AllReturn(act, b, us, |us|) && first.bench == Benched(act, b, us, |us|);
    if r.error.None? {
      ReturnAppend(act, b, us, vs, k);
    } else {
      var m: nat := k - 1;
      ReturnAppend(act, b, us, vs, m);
      AnswerAppend(act, b, us, vs, m);
      assert |us| + k - 1 == |us| + m;
    }
  }

  // ---------- running ----------

  lemma {:induction false} StepTraced(act: Behaviour, b: Bench, s: Step) returns (k: nat)
    ensures Traced(act, b, Flat(s), k, RunStep(act, b, s))
    decreases s, 0
  {
    match s
    case Unit(name, needs, _) =>
      k := 1;
      assert Flat(s) == [s] && Benched(act, b, [s], 0) == b;
      assert Answer(act, b, [s], 0) == act(name, b.ctx, b.tick);
    case Nested(inner) => k := StepsTraced(act, b, inner.steps);
  }

  lemma {:induction false} StepsTraced(act: Behaviour, b: Bench, steps: seq<Step>) returns (k: nat)
    ensures Traced(act, b, FlatAll(steps), k, RunSteps(act, b, steps))
    decreases steps, 1
  {
    if steps == [] {
      k := 0;
    } else {
      var r := RunStep(act, b, steps[0]);
      k := StepTraced(act, b, steps[0]);
      if r.error.Some? {
        TracedPrefix(act, b, Flat(steps[0]), FlatAll(steps[1..]), k, r);
      } else {
        var j := StepsTraced(act, r.bench, steps[1..]);
        TracedAppend(act, b, Flat(steps[0]), FlatAll(steps[1..]), r, j, RunSteps(act, r.bench, steps[1..]));
        k := |Flat(steps[0])| + j;
      }
    }
  }

  // ---------- executing ----------

  lemma {:induction false} FlatAppend(x: seq<Step>, y: seq<Step>)
    ensures FlatAll(x + y) == FlatAll(x) + FlatAll(y)
    decreases |x|
  {
    if x == [] {
      assert x + y == y;
    } else {
      assert (x + y)[0] == x[0] && (x + y)[1..] == x[1..] + y;
      FlatAppend(x[1..], y);
    }
  }

  lemma FlatUpTo(steps: seq<Step>, i: nat)
    requires i < |steps|
    ensures FlatAll(steps[..i + 1]) == FlatAll(steps[..i]) + Flat(steps[i])
  {
    assert steps[..i + 1] == steps[..i] + [steps[i]] && [steps[i]][1..] == [];
    FlatAppend(steps[..i], [steps[i]]);
  }

  /** How the failure at step `i` came about, after `k` units: one of its own units threw, or in strict mode all of them returned
    * and something the step gives is not there. */
  ghost predicate FailedAt(act: Behaviour, strict: bool, steps: seq<Step>, b: Bench, i: nat, k: nat, x: Execution) {
    && i < |steps| && x.StepFailed? && x.failed == StepName(steps[i]) && x.completed == Names(steps[..i])
    && |FlatAll(steps[..i])| <= k <= |FlatAll(steps[..i + 1])| && k <= |FlatAll(steps)|
    && x.bench == Benched(act, b, FlatAll(steps), k)
    && (|| (k > |FlatAll(steps[..i])| && AllReturn(act, b, FlatAll(steps), k - 1)
            && Answer(act, b, FlatAll(steps), k - 1).Threw? && x.cause == Answer(act, b, FlatAll(steps), k - 1).error)
        || (strict && k == |FlatAll(steps[..i + 1])| && AllReturn(act, b, FlatAll(steps), k)
            && x.cause == "PRODUCES_VIOLATION" && exists g | g in Gives(steps[i]) :: g !in x.bench.ctx))
  }

  ghost predicate FinishedAfter(act: Behaviour, steps: seq<Step>, b: Bench, x: Execution) {
    var us := FlatAll(steps);
    x.Finished? && x.bench == Benched(act, b, us, |us|) && AllReturn(act, b, us, |us|)
  }

  /** Where `execute` stands before step `i`. */
  ghost predicate UpTo(act: Behaviour, b: Bench, steps: seq<Step>, i: nat, mid: Bench) {
    i <= |steps| && Traced(act, b, FlatAll(steps[..i]), |FlatAll(steps[..i])|, Ran(mid, None))
  }

  lemma Rest(steps: seq<Step>, i: nat)
    requires i <= |steps|
    ensures FlatAll(steps) == FlatAll(steps[..i]) + FlatAll(steps[i..])
  {
    assert steps == steps[..i] + steps[i..];
    FlatAppend(steps[..i], steps[i..]);
  }

  /** The units up to the one that threw, among all the units of the pipeline. */
  lemma ThrownTrace(act: Behaviour, steps: seq<Step>, b: Bench, i: nat, mid: Bench) returns (k: nat)
    requires i < |steps| && UpTo(act, b, steps, i, mid) && RunStep(act, mid, steps[i]).error.Some?
    ensures |FlatAll(steps[..i])| < k <= |FlatAll(steps[..i + 1])|
    ensures Traced(act, b, FlatAll(steps), k, RunStep(act, mid, steps[i]))
  {
    var r := RunStep(act, mid, steps[i]);
    var before := FlatAll(steps[..i]);
    var j := StepTraced(act, mid, steps[i]);
    TracedAppend(act, b, before, Flat(steps[i]), Ran(mid, None), j, r);
    k := |before| + j;
    FlatUpTo(steps, i);
    Rest(steps, i + 1);
    TracedPrefix(act, b, FlatAll(steps[..i + 1]), FlatAll(steps[i + 1..]), k, r);
  }

  lemma ThrownAt(act: Behaviour, strict: bool, steps: seq<Step>, b: Bench, i: nat, mid: Bench) returns (k: nat)
    requires i < |steps| && UpTo(act, b, steps, i, mid) && RunStep(act, mid, steps[i]).error.Some?
    ensures FailedAt(act, strict, steps, b, i, k, ExecuteFrom(act, strict, steps, i, mid))
  {
    k := ThrownTrace(act, steps, b, i, mid);
    var r := RunStep(act, mid, steps[i]);
    assert ExecuteFrom(act, strict, steps, i, mid) == StepFailed(StepName(steps[i]), Names(steps[..i]), r.bench, r.error.value);
  }

  lemma StepDone(act: Behaviour, steps: seq<Step>, b: Bench, i: nat, mid: Bench)
    requires i < |steps| && UpTo(act, b, steps, i, mid) && RunStep(act, mid, steps[i]).error.None?
    ensures UpTo(act, b, steps, i + 1, RunStep(act, mid, steps[i]).bench)
  {
    var r := RunStep(act, mid, steps[i]);
    var j := StepTraced(act, mid, steps[i]);
    TracedAppend(act, b, FlatAll(steps[..i]), Flat(steps[i]), Ran(mid, None), j, r);
    FlatUpTo(steps, i);
  }

  lemma ViolatedAt(act: Behaviour, steps: seq<Step>, b: Bench, i: nat, mid: Bench)
    requires i < |steps| && UpTo(act, b, steps, i, mid) && RunStep(act, mid, steps[i]).error.None?
    requires !(KeySet(Gives(steps[i])) <= RunStep(act, mid, steps[i]).bench.ctx.Keys)
    ensures FailedAt(act, true, steps, b, i, |FlatAll(steps[..i + 1])|, ExecuteFrom(act, true, steps, i, mid))
  {
    var r := RunStep(act, mid, steps[i]);
    var k := |FlatAll(steps[..i + 1])|;
    StepDone(act, steps, b, i, mid);
    Rest(steps, i + 1);
    FlatUpTo(steps, i);
    BenchedPrefix(act, b, FlatAll(steps[..i + 1]), FlatAll(steps[i + 1..]), k);
    ReturnPrefix(act, b, FlatAll(steps[..i + 1]), FlatAll(steps[i + 1..]), k);
    var g :| g in KeySet(Gives(steps[i])) && g !in r.bench.ctx;
  }

  lemma {:induction false} ExecutedFrom(act: Behaviour, strict: bool, steps: seq<Step>, b: Bench, i: nat, mid: Bench)
    requires UpTo(act, b, steps, i, mid)
    ensures var x := ExecuteFrom(act, strict, steps, i, mid);
      FinishedAfter(act, steps, b, x) || exists j: nat, k: nat :: FailedAt(act, strict, steps, b, j, k, x)
    decreases |steps| - i
  {
    if i == |steps| {
      assert steps[..i] == steps;
    } else if RunStep(act, mid, steps[i]).error.Some? {
      var k := ThrownAt(act, strict, steps, b, i, mid);
    } else if strict && !(KeySet(Gives(steps[i])) <= RunStep(act, mid, steps[i]).bench.ctx.Keys) {
      ViolatedAt(act, steps, b, i, mid);
    } else {
      StepDone(act, steps, b, i, mid);
      ExecutedFrom(act, strict, steps, b, i + 1, RunStep(act, mid, steps[i]).bench);
    }
  }

  /** A pipeline that finishes has run all its units; one that fails has run the units up to the failure. Either way the context
    * is the initial data with what each of those units put, in order, the one that threw included. */
  lemma ExecutionLeavesTrace(act: Behaviour, strict: bool, p: Pipeline, data: Ctx)
    ensures var b, x := Bench(data, 0, []), Execute(act, strict, p, data);
      FinishedAfter(act, p.steps, b, x) || exists i: nat, k: nat :: FailedAt(act, strict, p.steps, b, i, k, x)
  {
    var b := Bench(data, 0, []);
    assert p.steps[..0] == [];
    ExecutedFrom(act, strict, p.steps, b, 0, b);
  }

  // ---------- what the build demands ----------

  /** Some of the units gives `k`. */
  ghost predicate SomeGives(us: seq<Step>, k: Key) { exists u :: u in us && k in Gives(u) }

  lemma {:induction false} GivesMeans(s: Step, k: Key)
    ensures k in Gives(s) <==> SomeGives(Flat(s), k)
    decreases s, 0
  {
    match s
    case Unit(_, _, _) => assert s in Flat(s);
    case Nested(inner) => AllGivesMeans(inner.steps, k);
  }

  lemma {:induction false} AllGivesMeans(steps: seq<Step>, k: Key)
    ensures k in AllGives(steps) <==> SomeGives(FlatAll(steps), k)
    decreases steps, 1
  {
    if steps != [] {
      GivesMeans(steps[0], k);
      AllGivesMeans(steps[1..], k);
    }
  }

  /** A key is available behind some steps exactly when it is there initially or one of their units gives it. */
  lemma AvailableMeans(steps: seq<Step>, initially: set<Key>, k: Key)
    ensures k in Available(steps, initially) <==> k in initially || SomeGives(FlatAll(steps), k)
  {
    AllGivesAvailable(steps, initially);
    AllGivesMeans(steps, k);
  }

  lemma {:induction false} MissingMeans(name: string, ks: seq<Key>, available: set<Key>, x: StepError)
    ensures x in MissingKeys(name, ks, available) <==> x.step == name && x.key in ks && x.key !in available
  {
    if ks != [] {
      var n := |ks| - 1;
      MissingMeans(name, ks[..n], available, x);
      assert ks == ks[..n] + [ks[n]];
    }
  }

  /** Step `i` needs the key of `x`, and neither the initial data nor a unit before it gives it. */
  ghost predicate LacksAt(steps: seq<Step>, initially: set<Key>, i: nat, x: StepError) {
    && i < |steps| && StepName(steps[i]) == x.step && x.key in Needs(steps[i])
    && x.key !in initially && !SomeGives(FlatAll(steps[..i]), x.key)
  }

  lemma LacksEarlier(steps: seq<Step>, initially: set<Key>, i: nat, x: StepError)
    requires i + 1 < |steps|
    ensures LacksAt(steps, initially, i, x) <==> LacksAt(steps[..|steps| - 1], initially, i, x)
  {
    assert steps[..|steps| - 1][i] == steps[i] && steps[..|steps| - 1][..i] == steps[..i];
  }

  /** The build reports exactly the keys that are lacking, each with its step. */
  lemma {:induction false} ErrorsMean(steps: seq<Step>, initially: set<Key>, x: StepError)
    ensures x in BuildErrors(steps, initially) <==> exists i: nat :: LacksAt(steps, initially, i, x)
  {
    if steps != [] {
      var n := |steps| - 1;
      ErrorsMean(steps[..n], initially, x);
      LacksLast(steps, initially, x);
      var last := MissingKeys(StepName(steps[n]), Needs(steps[n]), Available(steps[..n], initially));
      assert BuildErrors(steps, initially) == BuildErrors(steps[..n], initially) + last;
      forall i: nat | i < n ensures LacksAt(steps, initially, i, x) <==> LacksAt(steps[..n], initially, i, x) {
        LacksEarlier(steps, initially, i, x);
      }
      if x in last { assert LacksAt(steps, initially, n, x); }
      if i: nat :| LacksAt(steps[..n], initially, i, x) { assert LacksAt(steps, initially, i, x); }
    }
  }

  lemma LacksLast(steps: seq<Step>, initially: set<Key>, x: StepError)
    requires steps != []
    ensures var n := |steps| - 1;
      LacksAt(steps, initially, n, x) <==> x in MissingKeys(StepName(steps[n]), Needs(steps[n]), Available(steps[..n], initially))
  {
    var n := |steps| - 1;
    MissingMeans(StepName(steps[n]), Needs(steps[n]), Available(steps[..n], initially), x);
    AvailableMeans(steps[..n], initially, x.key);
  }

  // ---------- the build is exact ----------

  /** Units with names of their own. */
  ghost predicate UnitsOnly(steps: seq<Step>) {
    && (forall i | 0 <= i < |steps| :: steps[i].Unit?)
    && (forall i, j | 0 <= i < j < |steps| :: StepName(steps[i]) != StepName(steps[j]))
  }

  ghost predicate Honest(act: Behaviour, steps: seq<Step>) { forall i | 0 <= i < |steps| :: Keeps(act, steps[i]) }

  /** Whatever honest units do, on the initial data each finds what it needs. */
  ghost predicate AlwaysSupplied(p: Pipeline) {
    forall act: Behaviour, data: Ctx | Honest(act, p.steps) && data.Keys == KeySet(p.initially) ::
      AllSupplied(Execute(act, false, p, data).bench.calls)
  }

  function GivenUnder(steps: seq<Step>, name: string): set<Key> {
    if steps == [] then {} else if StepName(steps[0]) == name then KeySet(Gives(steps[0])) else GivenUnder(steps[1..], name)
  }

  function Filled(ks: set<Key>): Ctx { map k | k in ks :: "" }

  /** Units that put what they declare and nothing else. */
  function Sparse(steps: seq<Step>): Behaviour { (name, ctx, n) => Returned(Filled(GivenUnder(steps, name))) }

  lemma {:induction false} GivenUnderName(steps: seq<Step>, i: nat)
    requires UnitsOnly(steps) && i < |steps|
    ensures GivenUnder(steps, StepName(steps[i])) == KeySet(Gives(steps[i]))
  {
    if i > 0 {
      forall j, k | 0 <= j < k < |steps[1..]| ensures StepName(steps[1..][j]) != StepName(steps[1..][k]) {
        assert steps[1..][j] == steps[j + 1] && steps[1..][k] == steps[k + 1];
      }
      GivenUnderName(steps[1..], i - 1);
    }
  }

  lemma SparseStep(steps: seq<Step>, i: nat, b: Bench)
    requires UnitsOnly(steps) && i < |steps|
    ensures var r := RunStep(Sparse(steps), b, steps[i]);
      && r.error.None? && r.bench.ctx.Keys == b.ctx.Keys + KeySet(Gives(steps[i]))
      && r.bench.calls == b.calls + [Call(KeySet(Needs(steps[i])), b.ctx.Keys)]
  {
    GivenUnderName(steps, i);
  }

  lemma SparseGoesOn(steps: seq<Step>, i: nat, b: Bench)
    requires UnitsOnly(steps) && i < |steps|
    ensures ExecuteFrom(Sparse(steps), false, steps, i, b)
      == ExecuteFrom(Sparse(steps), false, steps, i + 1, RunStep(Sparse(steps), b, steps[i]).bench)
  {
    SparseStep(steps, i, b);
  }

  /** Run by them, each unit is called with exactly what the build counts on. */
  lemma {:induction false} SparseCalls(steps: seq<Step>, initially: set<Key>, i: nat, b: Bench)
    requires UnitsOnly(steps) && i <= |steps| && b.ctx.Keys == Available(steps[..i], initially)
    ensures var end := ExecuteFrom(Sparse(steps), false, steps, i, b).bench;
      && b.calls <= end.calls
      && forall j | i <= j < |steps| :: Call(KeySet(Needs(steps[j])), Available(steps[..j], initially)) in end.calls
    decreases |steps| - i
  {
    if i < |steps| {
      NextAvailable(steps, initially, i);
      SparseStep(steps, i, b);
      SparseGoesOn(steps, i, b);
      var next := RunStep(Sparse(steps), b, steps[i]).bench;
      SparseCalls(steps, initially, i + 1, next);
      assert Call(KeySet(Needs(steps[i])), b.ctx.Keys) in next.calls;
    }
  }

  lemma SparseIsHonest(steps: seq<Step>)
    requires UnitsOnly(steps)
    ensures Honest(Sparse(steps), steps)
  {
    forall i | 0 <= i < |steps| ensures Keeps(Sparse(steps), steps[i]) { GivenUnderName(steps, i); }
  }

  /** The build accepts a pipeline of units exactly when no run of honest units on its initial data calls one without what it
    * needs. */
  lemma AcceptedIffAlwaysSupplied(p: Pipeline)
    requires UnitsOnly(p.steps)
    ensures BuildErrors(p.steps, KeySet(p.initially)) == [] <==> AlwaysSupplied(p)
  {
    var initially := KeySet(p.initially);
    if BuildErrors(p.steps, initially) == [] {
      forall act: Behaviour, data: Ctx | Honest(act, p.steps) && data.Keys == initially
        ensures AllSupplied(Execute(act, false, p, data).bench.calls)
      {
        AcceptedPipelineIsSafe(act, false, p, data);
      }
    }
    if AlwaysSupplied(p) {
      SparseIsHonest(p.steps);
      assert p.steps[..0] == [] && Filled(initially).Keys == initially;
      SparseCalls(p.steps, initially, 0, Bench(Filled(initially), 0, []));
      assert AllSupplied(Execute(Sparse(p.steps), false, p, Filled(initially)).bench.calls);
      AcceptedIffAvailable(p.steps, initially);
    }
  }
}
