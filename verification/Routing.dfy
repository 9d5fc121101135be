/** Routing an external event to one of several external transitions, and the build-time check behind it. */
module Routing {
  import opened Definition
  import opened EngineModel

  // ---------- the build-time check ----------

  predicate SameTrigger(a: Transition, b: Transition) {
    HasTrigger(a) && HasTrigger(b) && a.guard.value.externalTrigger == b.guard.value.externalTrigger
  }

  predicate SameRequires(a: Transition, b: Transition) {
    a.guard.Some? && b.guard.Some? && KeySet(a.guard.value.requires_) == KeySet(b.guard.value.requires_)
  }

  /** `checkExternalRequiresDistinct` raises no error for the external transitions of one state. */
  predicate Distinguishable(externals: seq<Transition>) {
    |externals| < 2 ||
    if Explicit(externals) == []
    then forall i, j | 0 <= i < j < |externals| :: !SameRequires(externals[i], externals[j])
    else |Explicit(externals)| == |externals| && forall i, j | 0 <= i < j < |externals| :: !SameTrigger(externals[i], externals[j])
  }

  function WaitingKeys(t: Transition): set<Key> {
    if t.guard.None? then {}
    else if HasTrigger(t) then {t.guard.value.externalTrigger.value}
    else KeySet(t.guard.value.requires_)
  }

  /** `waitingFor` in a state without a running sub-flow. */
  function WaitingFor(externals: seq<Transition>): set<Key> {
    set t, k | t in externals && k in WaitingKeys(t) :: k
  }

  // ---------- filters and permutations ----------

  lemma {:induction false} FilterLength(ts: seq<Transition>, p: Transition -> bool)
    ensures |Filter(ts, p)| <= |ts|
    ensures |Filter(ts, p)| == |ts| <==> forall t | t in ts :: p(t)
  {
    if ts != [] {
      FilterLength(ts[1..], p);
      assert ts == [ts[0]] + ts[1..];
    }
  }

  lemma FilterPermutes(ts: seq<Transition>, us: seq<Transition>, p: Transition -> bool)
    requires multiset(ts) == multiset(us)
    ensures multiset(Filter(ts, p)) == multiset(Filter(us, p))
  {
    forall t ensures multiset(Filter(ts, p))[t] == multiset(Filter(us, p))[t] {
      FilterCount(ts, p, t);
      FilterCount(us, p, t);
    }
  }

  lemma {:induction false} MaxSpecificityBounds(ts: seq<Transition>)
    ensures forall t | t in ts :: Specificity(t) <= MaxSpecificity(ts)
    ensures ts != [] ==> exists t | t in ts :: Specificity(t) == MaxSpecificity(ts)
  {
    if ts != [] {
      MaxSpecificityBounds(ts[1..]);
      assert ts == [ts[0]] + ts[1..];
      assert ts[0] in ts;
      if Specificity(ts[0]) < MaxSpecificity(ts[1..]) {
        var t :| t in ts[1..] && Specificity(t) == MaxSpecificity(ts[1..]);
        assert t in ts;
      }
    }
  }

  lemma PermutedMembers(ts: seq<Transition>, us: seq<Transition>)
    requires multiset(ts) == multiset(us)
    ensures |ts| == |us| && forall t :: t in ts <==> t in us
  {
    assert |multiset(ts)| == |ts| && |multiset(us)| == |us|;
    forall t ensures t in ts <==> t in us { assert t in ts <==> t in multiset(ts); }
  }

  lemma MaxSpecificityPermutes(ts: seq<Transition>, us: seq<Transition>)
    requires multiset(ts) == multiset(us)
    ensures MaxSpecificity(ts) == MaxSpecificity(us)
  {
    PermutedMembers(ts, us);
    MaxSpecificityBounds(ts);
    MaxSpecificityBounds(us);
  }

  lemma OnlyPermutes(ts: seq<Transition>, us: seq<Transition>)
    requires multiset(ts) == multiset(us)
    ensures Only(ts) == Only(us)
  {
    PermutedMembers(ts, us);
    if |ts| == 1 { assert ts[0] in us; }
  }

  /** The transition selected does not depend on the order of declaration. */
  lemma SelectIgnoresOrder(ts: seq<Transition>, us: seq<Transition>, keys: set<Key>)
    requires multiset(ts) == multiset(us)
    ensures Select(ts, keys) == Select(us, keys)
  {
    FilterPermutes(ts, us, t => HasTrigger(t));
    PermutedMembers(Explicit(ts), Explicit(us));
    PermutedMembers(ts, us);
    if Explicit(ts) != [] {
      FilterPermutes(Explicit(ts), Explicit(us), t => TriggeredBy(t, keys));
      OnlyPermutes(Triggered(Explicit(ts), keys), Triggered(Explicit(us), keys));
    } else if |ts| == 1 {
      assert ts[0] in us;
    } else {
      FilterPermutes(ts, us, t => SatisfiedBy(t, keys));
      var m, n := Satisfied(ts, keys), Satisfied(us, keys);
      MaxSpecificityPermutes(m, n);
      var most := MaxSpecificity(m);
      FilterPermutes(m, n, t => Specificity(t) == most);
      OnlyPermutes(WithSpecificity(m, most), WithSpecificity(n, most));
    }
  }

  // ---------- explicit mode ----------

  /** A list filtered down to one element keeps exactly one position. */
  lemma {:induction false} FilterTwo(ts: seq<Transition>, p: Transition -> bool, i: nat, j: nat)
    requires i < j < |ts| && p(ts[i]) && p(ts[j])
    ensures |Filter(ts, p)| >= 2
  {
    if i == 0 {
      FilterIn(ts[1..], p, ts[j]);
      assert ts[1..][j - 1] == ts[j];
      assert |Filter(ts[1..], p)| >= 1;
    } else {
      FilterTwo(ts[1..], p, i - 1, j - 1);
    }
  }

  lemma {:induction false} FilterFindTwo(ts: seq<Transition>, p: Transition -> bool) returns (i: nat, j: nat)
    requires |Filter(ts, p)| >= 2
    ensures i < j < |ts| && p(ts[i]) && p(ts[j])
  {
    if p(ts[0]) {
      var t := Filter(ts[1..], p)[0];
      FilterIn(ts[1..], p, t);
      var k :| 0 <= k < |ts[1..]| && ts[1..][k] == t;
      i, j := 0, k + 1;
    } else {
      i, j := FilterFindTwo(ts[1..], p);
      i, j := i + 1, j + 1;
    }
  }

  ghost predicate AllExplicit(externals: seq<Transition>) {
    forall t | t in externals :: HasTrigger(t)
  }

  lemma ExplicitIsAll(externals: seq<Transition>)
    requires AllExplicit(externals)
    ensures Explicit(externals) == externals
  {
    FilterAll(externals, t => HasTrigger(t));
  }

  lemma {:induction false} FilterAll(ts: seq<Transition>, p: Transition -> bool)
    requires forall t | t in ts :: p(t)
    ensures Filter(ts, p) == ts
  {
    if ts != [] {
      assert ts[0] in ts;
      FilterAll(ts[1..], p);
      assert ts == [ts[0]] + ts[1..];
    }
  }

  /** `k` is the trigger of some external transition and was supplied. */
  ghost predicate Fires(externals: seq<Transition>, keys: set<Key>, k: Key) {
    k in keys && exists t | t in externals :: HasTrigger(t) && t.guard.value.externalTrigger.value == k
  }

  lemma HitsFire(externals: seq<Transition>, keys: set<Key>)
    ensures forall t :: t in Triggered(externals, keys) <==> t in externals && TriggeredBy(t, keys)
    ensures Triggered(externals, keys) != [] <==> exists k :: Fires(externals, keys, k)
  {
    var p := (t: Transition) => TriggeredBy(t, keys);
    var hits := Triggered(externals, keys);
    forall t ensures t in hits <==> t in externals && TriggeredBy(t, keys) { FilterIn(externals, p, t); }
    if hits != [] {
      assert Fires(externals, keys, hits[0].guard.value.externalTrigger.value) by { assert hits[0] in hits; }
    }
    if k :| Fires(externals, keys, k) {
      var t :| t in externals && HasTrigger(t) && t.guard.value.externalTrigger.value == k;
      assert t in hits;
    }
  }

  /** Two hits mean two different triggers, on an accepted state. */
  lemma TwoHitsFireTwo(externals: seq<Transition>, keys: set<Key>)
    requires AllExplicit(externals) && Distinguishable(externals) && |Triggered(externals, keys)| >= 2
    ensures exists k, l :: k != l && Fires(externals, keys, k) && Fires(externals, keys, l)
  {
    ExplicitIsAll(externals);
    var i, j := FilterFindTwo(externals, (t: Transition) => TriggeredBy(t, keys));
    var k, l := externals[i].guard.value.externalTrigger.value, externals[j].guard.value.externalTrigger.value;
    assert HasTrigger(externals[i]) && HasTrigger(externals[j]) && !SameTrigger(externals[i], externals[j]);
    assert externals[i] in externals && externals[j] in externals;
    assert Fires(externals, keys, k) && Fires(externals, keys, l);
  }

  /** Two different triggers mean two hits. */
  lemma TwoFiresHitTwo(externals: seq<Transition>, keys: set<Key>, k: Key, l: Key)
    requires k != l && Fires(externals, keys, k) && Fires(externals, keys, l)
    ensures |Triggered(externals, keys)| >= 2
  {
    var p := (t: Transition) => TriggeredBy(t, keys);
    var t :| t in externals && HasTrigger(t) && t.guard.value.externalTrigger.value == k;
    var u :| u in externals && HasTrigger(u) && u.guard.value.externalTrigger.value == l;
    var i :| 0 <= i < |externals| && externals[i] == t;
    var j :| 0 <= j < |externals| && externals[j] == u;
    if i < j { FilterTwo(externals, p, i, j); } else { FilterTwo(externals, p, j, i); }
  }

  /** Explicit mode on an accepted state: ambiguous exactly when two different triggers of the state are
    * supplied, unmatched exactly when none is. */
  lemma ExplicitOutcome(externals: seq<Transition>, keys: set<Key>)
    requires externals != [] && AllExplicit(externals) && Distinguishable(externals)
    ensures Select(externals, keys) == Ambiguous <==> exists k, l :: k != l && Fires(externals, keys, k) && Fires(externals, keys, l)
    ensures Select(externals, keys) == NotMatched <==> !exists k :: Fires(externals, keys, k)
  {
    ExplicitIsAll(externals);
    HitsFire(externals, keys);
    var hits := Triggered(externals, keys);
    if |hits| >= 2 { TwoHitsFireTwo(externals, keys); }
    if k, l :| k != l && Fires(externals, keys, k) && Fires(externals, keys, l) { TwoFiresHitTwo(externals, keys, k, l); }
    assert Select(externals, keys) == Only(hits);
  }

  // ---------- legacy mode ----------

  ghost predicate Legacy(externals: seq<Transition>) {
    forall t | t in externals :: t.guard.Some? && !HasTrigger(t)
  }

  /** Legacy mode: supplying everything `waitingFor` names always matches some guard. */
  lemma LegacyAlwaysMatches(externals: seq<Transition>, keys: set<Key>)
    requires externals != [] && Legacy(externals) && WaitingFor(externals) <= keys
    ensures Select(externals, keys) != NotMatched
  {
    LegacyHasNoExplicit(externals);
    if |externals| != 1 {
      forall t | t in externals ensures SatisfiedBy(t, keys) {
        forall k | k in KeySet(t.guard.value.requires_) ensures k in keys {
          assert k in WaitingKeys(t) && k in WaitingFor(externals);
        }
      }
      FilterAll(externals, t => SatisfiedBy(t, keys));
      MostSpecificExists(externals);
    }
  }

  lemma LegacyHasNoExplicit(externals: seq<Transition>)
    requires Legacy(externals)
    ensures Explicit(externals) == []
  {
    if Explicit(externals) != [] {
      var t := Explicit(externals)[0];
      FilterIn(externals, x => HasTrigger(x), t);
    }
  }

  lemma MostSpecificExists(matches: seq<Transition>)
    requires matches != []
    ensures WithSpecificity(matches, MaxSpecificity(matches)) != []
  {
    MaxSpecificityBounds(matches);
    var most := MaxSpecificity(matches);
    var t :| t in matches && Specificity(t) == most;
    FilterIn(matches, x => Specificity(x) == most, t);
  }

  lemma {:induction false} DistinctKeysCount(ks: seq<Key>)
    requires Distinct(ks)
    ensures |KeySet(ks)| == |ks|
  {
    if ks != [] {
      var n := |ks| - 1;
      DistinctKeysCount(ks[..n]);
      assert KeySet(ks) == KeySet(ks[..n]) + {ks[n]};
    }
  }

  /** The guards' requires lists are duplicate-free and ordered by inclusion. */
  ghost predicate RequiresChain(externals: seq<Transition>) {
    && (forall t | t in externals && t.guard.Some? :: Distinct(t.guard.value.requires_))
    && (forall t, u | t in externals && u in externals && t.guard.Some? && u.guard.Some? ::
          KeySet(t.guard.value.requires_) <= KeySet(u.guard.value.requires_)
          || KeySet(u.guard.value.requires_) <= KeySet(t.guard.value.requires_))
  }

  lemma EqualSizeMeansSame(a: set<Key>, b: set<Key>)
    requires a <= b && |a| == |b|
    ensures a == b
  {
    assert b == a + (b - a);
    assert |b| == |a| + |b - a|;
  }

  /** Legacy mode on an accepted state is never ambiguous when the requires lists form a chain. */
  lemma LegacyChainIsUnambiguous(externals: seq<Transition>, keys: set<Key>)
    requires Legacy(externals) && Distinguishable(externals) && RequiresChain(externals)
    ensures Select(externals, keys) != Ambiguous
  {
    LegacyHasNoExplicit(externals);
    var p := (t: Transition) => SatisfiedBy(t, keys);
    var matches := Satisfied(externals, keys);
    var most := MaxSpecificity(matches);
    var q := (t: Transition) => Specificity(t) == most;
    var top := WithSpecificity(matches, most);
    if |externals| != 1 && |top| >= 2 {
      var a, b := FilterFindTwo(matches, q);
      var i, j := FilterPositions(externals, p, a, b);
      var t, u := externals[i].guard.value.requires_, externals[j].guard.value.requires_;
      assert externals[i] in externals && externals[j] in externals;
      DistinctKeysCount(t);
      DistinctKeysCount(u);
      if KeySet(t) <= KeySet(u) { EqualSizeMeansSame(KeySet(t), KeySet(u)); } else { EqualSizeMeansSame(KeySet(u), KeySet(t)); }
      assert false;
    }
  }

  /** Two positions of a filtered list come from two positions of the list, in the same order. */
  lemma {:induction false} FilterPositions(ts: seq<Transition>, p: Transition -> bool, a: nat, b: nat) returns (i: nat, j: nat)
    requires a < b < |Filter(ts, p)|
    ensures i < j < |ts| && ts[i] == Filter(ts, p)[a] && ts[j] == Filter(ts, p)[b]
  {
    if !p(ts[0]) {
      i, j := FilterPositions(ts[1..], p, a, b);
      i, j := i + 1, j + 1;
    } else if a > 0 {
      i, j := FilterPositions(ts[1..], p, a - 1, b - 1);
      i, j := i + 1, j + 1;
    } else {
      var u := Filter(ts, p)[b];
      assert u == Filter(ts[1..], p)[b - 1];
      FilterIn(ts[1..], p, u);
      var k :| 0 <= k < |ts[1..]| && ts[1..][k] == u;
      i, j := 0, k + 1;
    }
  }

  // ---------- which transition is selected ----------

  ghost predicate OnlyAt(ts: seq<Transition>, p: Transition -> bool, i: nat) {
    i < |ts| && p(ts[i]) && forall j | 0 <= j < |ts| && j != i :: !p(ts[j])
  }

  lemma {:induction false} FilterNone(ts: seq<Transition>, p: Transition -> bool)
    ensures Filter(ts, p) == [] <==> forall j | 0 <= j < |ts| :: !p(ts[j])
  {
    if ts != [] {
      FilterNone(ts[1..], p);
      assert forall j | 0 < j < |ts| :: ts[j] == ts[1..][j - 1];
    }
  }

  lemma {:induction false} FilterOne(ts: seq<Transition>, p: Transition -> bool, i: nat)
    requires OnlyAt(ts, p, i)
    ensures Filter(ts, p) == [ts[i]]
  {
    if i == 0 {
      FilterNone(ts[1..], p);
    } else {
      FilterOne(ts[1..], p, i - 1);
    }
  }

  lemma {:induction false} FilterSingle(ts: seq<Transition>, p: Transition -> bool) returns (i: nat)
    requires |Filter(ts, p)| == 1
    ensures OnlyAt(ts, p, i)
  {
    if p(ts[0]) {
      FilterNone(ts[1..], p);
      i := 0;
    } else {
      i := FilterSingle(ts[1..], p);
      i := i + 1;
    }
  }

  /** One transition is left by a filter exactly when one position passes it. */
  lemma OnlyIff(ts: seq<Transition>, p: Transition -> bool, t: Transition)
    ensures Only(Filter(ts, p)) == Selected(t) <==> exists i: nat :: OnlyAt(ts, p, i) && ts[i] == t
    ensures Only(Filter(ts, p)) == NotMatched <==> forall j | 0 <= j < |ts| :: !p(ts[j])
  {
    FilterNone(ts, p);
    if |Filter(ts, p)| == 1 {
      var i := FilterSingle(ts, p);
      FilterOne(ts, p, i);
    }
    if i: nat :| OnlyAt(ts, p, i) { FilterOne(ts, p, i); }
  }

  lemma {:induction false} FilterTwice(ts: seq<Transition>, p: Transition -> bool, q: Transition -> bool, r: Transition -> bool)
    requires forall t :: r(t) <==> p(t) && q(t)
    ensures Filter(Filter(ts, p), q) == Filter(ts, r)
  {
    if ts != [] {
      FilterTwice(ts[1..], p, q, r);
      assert r(ts[0]) ==> p(ts[0]);
      if p(ts[0]) {
        var rest := Filter(ts[1..], p);
        var all := [ts[0]] + rest;
        assert Filter(ts, p) == all && all[0] == ts[0] && all[1..] == rest;
        assert r(ts[0]) <==> q(ts[0]);
        assert Filter(all, q) == (if q(ts[0]) then [ts[0]] else []) + Filter(rest, q);
      } else {
        assert Filter(ts, p) == Filter(ts[1..], p) && Filter(ts, r) == Filter(ts[1..], r);
      }
    }
  }

  /** The trigger of `t` is among the keys of the event. */
  ghost predicate Named(t: Transition, keys: set<Key>) {
    match t.guard
    case None => false
    case Some(g) => match g.externalTrigger case None => false case Some(k) => k in keys
  }

  /** Everything the guard of `t` requires is among the keys of the event. */
  ghost predicate Covered(t: Transition, keys: set<Key>) {
    t.guard.Some? && forall k | k in t.guard.value.requires_ :: k in keys
  }

  ghost predicate NamedAlone(externals: seq<Transition>, keys: set<Key>, i: nat) {
    i < |externals| && Named(externals[i], keys) && forall j | 0 <= j < |externals| && j != i :: !Named(externals[j], keys)
  }

  lemma NamedIsTriggered(t: Transition, keys: set<Key>)
    ensures Named(t, keys) <==> TriggeredBy(t, keys)
  {}

  /** With triggers: the transition selected is the one whose trigger is supplied, when no other position's is. */
  lemma ExplicitSelectedIff(externals: seq<Transition>, keys: set<Key>, t: Transition)
    requires exists x | x in externals :: HasTrigger(x)
    ensures Select(externals, keys) == Selected(t) <==> exists i: nat :: NamedAlone(externals, keys, i) && externals[i] == t
    ensures Select(externals, keys) == NotMatched <==> forall i | 0 <= i < |externals| :: !Named(externals[i], keys)
  {
    var x :| x in externals && HasTrigger(x);
    FilterIn(externals, y => HasTrigger(y), x);
    var hit := (y: Transition) => TriggeredBy(y, keys);
    FilterTwice(externals, y => HasTrigger(y), hit, hit);
    OnlyIff(externals, hit, t);
    forall y ensures hit(y) <==> Named(y, keys) { NamedIsTriggered(y, keys); }
  }

  /** Position `i` is satisfied, and every other satisfied position requires strictly less. */
  ghost predicate MostSpecificAt(externals: seq<Transition>, keys: set<Key>, i: nat) {
    && i < |externals| && Covered(externals[i], keys)
    && forall j | 0 <= j < |externals| && j != i && Covered(externals[j], keys) ::
         |externals[j].guard.value.requires_| < |externals[i].guard.value.requires_|
  }

  lemma CoveredIsSatisfied(t: Transition, keys: set<Key>)
    ensures Covered(t, keys) <==> SatisfiedBy(t, keys)
  {}

  function BestFor(keys: set<Key>, most: nat): Transition -> bool { t => SatisfiedBy(t, keys) && Specificity(t) == most }

  /** The specificity the source compares with, and where it is reached. */
  lemma MostSpecificMeans(externals: seq<Transition>, keys: set<Key>, i: nat)
    ensures MostSpecificAt(externals, keys, i) <==> OnlyAt(externals, BestFor(keys, MaxSpecificity(Satisfied(externals, keys))), i)
  {
    var sat := (y: Transition) => SatisfiedBy(y, keys);
    var matches := Satisfied(externals, keys);
    var most := MaxSpecificity(matches);
    MaxSpecificityBounds(matches);
    forall y ensures y in matches <==> y in externals && SatisfiedBy(y, keys) { FilterIn(externals, sat, y); }
    forall y ensures Covered(y, keys) <==> SatisfiedBy(y, keys) { CoveredIsSatisfied(y, keys); }
    if MostSpecificAt(externals, keys, i) {
      assert externals[i] in matches;
      var top :| top in matches && Specificity(top) == most;
      var j :| 0 <= j < |externals| && externals[j] == top;
    }
    if OnlyAt(externals, BestFor(keys, most), i) {
      forall j | 0 <= j < |externals| && j != i && Covered(externals[j], keys)
        ensures |externals[j].guard.value.requires_| < |externals[i].guard.value.requires_|
      {
        assert externals[j] in matches;
      }
    }
  }

  /** Without triggers, of several external transitions: the one selected is satisfied and every other satisfied position has a
    * strictly shorter requires list. */
  lemma LegacySelectedIff(externals: seq<Transition>, keys: set<Key>, t: Transition)
    requires |externals| > 1 && forall x | x in externals :: !HasTrigger(x)
    ensures Select(externals, keys) == Selected(t) <==> exists i: nat :: MostSpecificAt(externals, keys, i) && externals[i] == t
    ensures Select(externals, keys) == NotMatched <==> forall i | 0 <= i < |externals| :: !Covered(externals[i], keys)
  {
    FilterNone(externals, y => HasTrigger(y));
    var sat := (y: Transition) => SatisfiedBy(y, keys);
    var matches := Satisfied(externals, keys);
    var most := MaxSpecificity(matches);
    var top := (y: Transition) => Specificity(y) == most;
    var best := BestFor(keys, most);
    FilterTwice(externals, sat, top, best);
    OnlyIff(externals, best, t);
    FilterNone(externals, sat);
    forall i: nat ensures MostSpecificAt(externals, keys, i) <==> OnlyAt(externals, best, i) { MostSpecificMeans(externals, keys, i); }
    forall y ensures Covered(y, keys) <==> SatisfiedBy(y, keys) { CoveredIsSatisfied(y, keys); }
    if matches != [] { MostSpecificExists(matches); }
  }

  /** A single external transition without a trigger is selected whatever the event brings. */
  lemma SingleIsSelected(t: Transition, keys: set<Key>)
    requires !HasTrigger(t)
    ensures Select([t], keys) == Selected(t)
  {
    FilterNone([t], y => HasTrigger(y));
  }

  /** In an accepted state with triggers, any one key `waitingFor` names selects a transition, and it is one that waits for
    * that key. */
  lemma AwaitedKeySelects(externals: seq<Transition>, k: Key)
    requires AllExplicit(externals) && Distinguishable(externals) && k in WaitingFor(externals)
    ensures exists t | t in externals :: Select(externals, {k}) == Selected(t) && t.guard.Some? && t.guard.value.externalTrigger == Some(k)
  {
    var t :| t in externals && k in WaitingKeys(t);
    var i :| 0 <= i < |externals| && externals[i] == t;
    forall x | x in externals ensures HasTrigger(x) {}
    ExplicitIsAll(externals);
    forall j | 0 <= j < |externals| && j != i ensures !Named(externals[j], {k}) {
      if Named(externals[j], {k}) {
        if i < j { assert SameTrigger(externals[i], externals[j]); } else { assert SameTrigger(externals[j], externals[i]); }
      }
    }
    assert NamedAlone(externals, {k}, i);
    ExplicitSelectedIff(externals, {k}, t);
  }
}
