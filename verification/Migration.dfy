/** The recommended migration order: a greedy schedule of processors, guards and branches by their data, and what the loop
  * makes of a node without a name. */
module Migration {
  import opened Definition

  /** What each node requires and produces; a node without an entry requires or produces nothing. */
  datatype Nodes = Nodes(reqs: map<string, set<Key>>, prods: map<string, set<Key>>)
  {
    function Reqs(n: string): set<Key> { if n in reqs then reqs[n] else {} }
    function Prods(n: string): set<Key> { if n in prods then prods[n] else {} }
  }

  /** What is available after the nodes of `order` have been migrated. */
  function Available(g: Nodes, start: set<Key>, order: seq<string>): set<Key> {
    if order == [] then start
    else var n := |order| - 1; Available(g, start, order[..n]) + g.Prods(order[n])
  }

  ghost predicate Ready(g: Nodes, start: set<Key>, order: seq<string>, node: string) {
    g.Reqs(node) <= Available(g, start, order)
  }

  /** Every node of `order` finds its requires in the initial data or in what came before it. */
  ghost predicate Valid(g: Nodes, start: set<Key>, order: seq<string>) {
    forall i | 0 <= i < |order| :: Ready(g, start, order[..i], order[i])
  }

  /** The first `k` nodes are validly scheduled, and none of the others could come next. */
  ghost predicate GreedyUpTo(g: Nodes, start: set<Key>, order: seq<string>, k: nat) {
    k <= |order| && Valid(g, start, order[..k]) && forall i | k <= i < |order| :: !Ready(g, start, order[..k], order[i])
  }

  /** The first node of `remaining` that is ready. */
  function FirstReady(g: Nodes, available: set<Key>, remaining: seq<string>): (next: Option<string>)
    ensures next.Some? ==> next.value in remaining && g.Reqs(next.value) <= available
    ensures next.None? ==> forall n | n in remaining :: !(g.Reqs(n) <= available)
  {
    if remaining == [] then None
    else if g.Reqs(remaining[0]) <= available then Some(remaining[0])
    else FirstReady(g, available, remaining[1..])
  }

  /** The search of `migrationOrder` for the next node. */
  method FindReady(g: Nodes, available: set<Key>, remaining: seq<string>) returns (next: Option<string>)
    ensures next == FirstReady(g, available, remaining)
  {
    var i := 0;
    while i < |remaining|
      invariant 0 <= i <= |remaining| && FirstReady(g, available, remaining[i..]) == FirstReady(g, available, remaining)
    {
      if g.Reqs(remaining[i]) <= available { return Some(remaining[i]); }
      i := i + 1;
    }
    next := None;
  }

  function Without(ns: seq<string>, n: string): seq<string> {
    if ns == [] then [] else if ns[0] == n then ns[1..] else [ns[0]] + Without(ns[1..], n)
  }

  lemma {:induction false} WithoutRemovesOne(ns: seq<string>, n: string)
    requires n in ns
    ensures multiset(Without(ns, n)) == multiset(ns) - multiset{n} && |Without(ns, n)| == |ns| - 1
  {
    assert ns == [ns[0]] + ns[1..];
    if ns[0] != n { WithoutRemovesOne(ns[1..], n); }
  }

  lemma SnocValid(g: Nodes, start: set<Key>, order: seq<string>, n: string)
    requires Valid(g, start, order) && Ready(g, start, order, n)
    ensures Valid(g, start, order + [n]) && Available(g, start, order + [n]) == Available(g, start, order) + g.Prods(n)
  {
    var all := order + [n];
    assert all[..|order|] == order;
    forall i | 0 <= i < |all| ensures Ready(g, start, all[..i], all[i]) {
      if i < |order| { assert all[..i] == order[..i] && all[i] == order[i]; }
    }
  }

  /** The nodes `migrationOrder` schedules one by one. The loop reads the empty name as "none found" and ends there. */
  function Scheduled(g: Nodes, available: set<Key>, remaining: seq<string>): (order: seq<string>)
    ensures |order| <= |remaining|
    decreases |remaining|
  {
    match FirstReady(g, available, remaining)
    case Some(n) =>
      if n == "" then []
      else
        WithoutRemovesOne(remaining, n);
        [n] + Scheduled(g, available + g.Prods(n), Without(remaining, n))
    case None => []
  }

  /** The nodes it then appends all at once. */
  function Leftover(g: Nodes, available: set<Key>, remaining: seq<string>): seq<string>
    decreases |remaining|
  {
    match FirstReady(g, available, remaining)
    case Some(n) =>
      if n == "" then remaining
      else
        WithoutRemovesOne(remaining, n);
        Leftover(g, available + g.Prods(n), Without(remaining, n))
    case None => remaining
  }

  /** The search comes to the empty name: the loop ends although a node is ready. */
  predicate Interrupted(g: Nodes, available: set<Key>, remaining: seq<string>)
    decreases |remaining|
  {
    match FirstReady(g, available, remaining)
    case Some(n) =>
      n == "" ||
      (WithoutRemovesOne(remaining, n);
       Interrupted(g, available + g.Prods(n), Without(remaining, n)))
    case None => false
  }

  /** `migrationOrder`. */
  method MigrationOrder(g: Nodes, nodes: seq<string>, start: set<Key>) returns (order: seq<string>)
    ensures order == Scheduled(g, start, nodes) + Leftover(g, start, nodes)
    ensures multiset(order) == multiset(nodes)
    ensures GreedyUpTo(g, start, order, |Scheduled(g, start, nodes)|) <==> !Interrupted(g, start, nodes)
    ensures Interrupted(g, start, nodes) <==> "" in nodes && g.Reqs("") <= Available(g, start, Scheduled(g, start, Named(nodes)))
  {
    order := ScheduleLoop(g, nodes, start);
    SchedulePermutes(g, start, nodes);
    ScheduleIsGreedyIff(g, start, nodes);
    InterruptedIff(g, start, nodes);
  }

  /** Its loop. */
  method ScheduleLoop(g: Nodes, nodes: seq<string>, start: set<Key>) returns (order: seq<string>)
    ensures order == Scheduled(g, start, nodes) + Leftover(g, start, nodes)
  {
    order := [];
    var available := start;
    var remaining := nodes;
    while remaining != []
      invariant order + Scheduled(g, available, remaining) == Scheduled(g, start, nodes)
      invariant Leftover(g, available, remaining) == Leftover(g, start, nodes)
      decreases |remaining|
    {
      var next := FindReady(g, available, remaining);
      if next.None? || next.value == "" { return order + remaining; }
      WithoutRemovesOne(remaining, next.value);
      Regroup(order, next.value, Scheduled(g, available + g.Prods(next.value), Without(remaining, next.value)));
      order := order + [next.value];
      remaining := Without(remaining, next.value);
      available := available + g.Prods(next.value);
    }
  }

  lemma Regroup(order: seq<string>, n: string, rest: seq<string>)
    ensures order + ([n] + rest) == order + [n] + rest
  {}

  lemma {:induction false} AvailableCons(g: Nodes, start: set<Key>, n: string, order: seq<string>)
    ensures Available(g, start, [n] + order) == Available(g, start + g.Prods(n), order)
  {
    var all := [n] + order;
    if order == [] {
      assert all[..0] == [];
    } else {
      var k := |order| - 1;
      AvailableCons(g, start, n, order[..k]);
      assert all[..|all| - 1] == [n] + order[..k];
    }
  }

  lemma ReadyCons(g: Nodes, start: set<Key>, n: string, order: seq<string>, k: nat, node: string)
    requires k <= |order|
    ensures ([n] + order)[..k + 1] == [n] + order[..k]
    ensures Ready(g, start, ([n] + order)[..k + 1], node) <==> Ready(g, start + g.Prods(n), order[..k], node)
  {
    AvailableCons(g, start, n, order[..k]);
  }

  lemma ValidCons(g: Nodes, start: set<Key>, n: string, order: seq<string>)
    requires g.Reqs(n) <= start
    ensures Valid(g, start, [n] + order) <==> Valid(g, start + g.Prods(n), order)
  {
    var all := [n] + order;
    if Valid(g, start, all) {
      forall i | 0 <= i < |order| ensures Ready(g, start + g.Prods(n), order[..i], order[i]) {
        ReadyCons(g, start, n, order, i, order[i]);
        assert all[i + 1] == order[i];
      }
    }
    if Valid(g, start + g.Prods(n), order) {
      forall i | 0 <= i < |all| ensures Ready(g, start, all[..i], all[i]) {
        if i > 0 {
          ReadyCons(g, start, n, order, i - 1, order[i - 1]);
          assert all[i] == order[i - 1];
        }
      }
    }
  }

  lemma RestCons(g: Nodes, start: set<Key>, n: string, order: seq<string>, k: nat)
    requires k <= |order|
    ensures (forall i | k + 1 <= i < |[n] + order| :: !Ready(g, start, ([n] + order)[..k + 1], ([n] + order)[i]))
      <==> (forall i | k <= i < |order| :: !Ready(g, start + g.Prods(n), order[..k], order[i]))
  {
    var all := [n] + order;
    forall node ensures Ready(g, start, all[..k + 1], node) <==> Ready(g, start + g.Prods(n), order[..k], node) {
      ReadyCons(g, start, n, order, k, node);
    }
    if forall i | k + 1 <= i < |all| :: !Ready(g, start, all[..k + 1], all[i]) {
      forall i | k <= i < |order| ensures !Ready(g, start + g.Prods(n), order[..k], order[i]) { assert all[i + 1] == order[i]; }
    }
  }

  lemma GreedyCons(g: Nodes, start: set<Key>, n: string, order: seq<string>, k: nat)
    requires g.Reqs(n) <= start && k <= |order|
    ensures GreedyUpTo(g, start, [n] + order, k + 1) <==> GreedyUpTo(g, start + g.Prods(n), order, k)
  {
    assert ([n] + order)[..k + 1] == [n] + order[..k];
    ValidCons(g, start, n, order[..k]);
    RestCons(g, start, n, order, k);
  }

  lemma {:induction false} SchedulePermutes(g: Nodes, start: set<Key>, nodes: seq<string>)
    ensures multiset(Scheduled(g, start, nodes)) + multiset(Leftover(g, start, nodes)) == multiset(nodes)
    decreases |nodes|
  {
    match FirstReady(g, start, nodes)
    case None => assert Scheduled(g, start, nodes) == [] && Leftover(g, start, nodes) == nodes;
    case Some(n) =>
      if n == "" {
        assert Scheduled(g, start, nodes) == [] && Leftover(g, start, nodes) == nodes;
      } else {
        WithoutRemovesOne(nodes, n);
        var more, rest := start + g.Prods(n), Without(nodes, n);
        assert Scheduled(g, start, nodes) == [n] + Scheduled(g, more, rest);
        assert Leftover(g, start, nodes) == Leftover(g, more, rest);
        SchedulePermutes(g, more, rest);
        OneMoreScheduled(n, Scheduled(g, more, rest), Leftover(g, more, rest), rest, nodes);
      }
  }

  lemma OneMoreScheduled(n: string, x: seq<string>, y: seq<string>, rest: seq<string>, nodes: seq<string>)
    requires n in nodes && multiset(rest) == multiset(nodes) - multiset{n}
    requires multiset(x) + multiset(y) == multiset(rest)
    ensures multiset([n] + x) + multiset(y) == multiset(nodes)
  {
    assert multiset([n] + x) == multiset{n} + multiset(x);
    assert multiset{n} + multiset(rest) == multiset(nodes);
  }

  lemma StuckOnEmptyName(g: Nodes, start: set<Key>, nodes: seq<string>)
    requires "" in nodes && g.Reqs("") <= start
    ensures !GreedyUpTo(g, start, nodes, 0)
  {
    var i :| 0 <= i < |nodes| && nodes[i] == "";
    assert Ready(g, start, nodes[..0], nodes[i]);
  }

  /** What is scheduled one by one is valid, and leaves nothing ready, exactly when the empty name never comes up. */
  lemma {:induction false} ScheduleIsGreedyIff(g: Nodes, start: set<Key>, nodes: seq<string>)
    ensures GreedyUpTo(g, start, Scheduled(g, start, nodes) + Leftover(g, start, nodes), |Scheduled(g, start, nodes)|)
      <==> !Interrupted(g, start, nodes)
    decreases |nodes|
  {
    match FirstReady(g, start, nodes)
    case None =>
      StuckHere(g, start, [], nodes);
      assert [] + nodes == nodes;
    case Some(n) =>
      if n == "" {
        StuckOnEmptyName(g, start, nodes);
        assert [] + nodes == nodes;
      } else {
        WithoutRemovesOne(nodes, n);
        var more, rest := start + g.Prods(n), Without(nodes, n);
        ScheduleIsGreedyIff(g, more, rest);
        GreedyCons(g, start, n, Scheduled(g, more, rest) + Leftover(g, more, rest), |Scheduled(g, more, rest)|);
        ConsAppend(n, Scheduled(g, more, rest), Leftover(g, more, rest));
      }
  }

  lemma ConsAppend(n: string, x: seq<string>, y: seq<string>)
    ensures [n] + x + y == [n] + (x + y)
  {}

  lemma {:induction false} NamesNeverInterrupt(g: Nodes, available: set<Key>, remaining: seq<string>)
    requires "" !in remaining
    ensures !Interrupted(g, available, remaining)
    decreases |remaining|
  {
    match FirstReady(g, available, remaining)
    case None =>
    case Some(n) =>
      WithoutRemovesOne(remaining, n);
      SubsetOf(remaining, n);
      NamesNeverInterrupt(g, available + g.Prods(n), Without(remaining, n));
  }

  lemma {:induction false} SubsetOf(ns: seq<string>, n: string)
    ensures forall x | x in Without(ns, n) :: x in ns
  {
    if ns != [] && ns[0] != n { SubsetOf(ns[1..], n); }
  }

  /** A node with the empty name: the loop ends at once and leaves `b` before `a`, although `a` is ready and `b` waits
    * for what `a` produces. */
  lemma EmptyNameInterrupts()
    ensures var g := Nodes(map["b" := {"X"}], map["a" := {"X"}]);
      var order := Scheduled(g, {}, ["", "b", "a"]) + Leftover(g, {}, ["", "b", "a"]);
      Interrupted(g, {}, ["", "b", "a"]) && order == ["", "b", "a"] && !Valid(g, {}, order) && Valid(g, {}, ["", "a", "b"])
  {
    var g := Nodes(map["b" := {"X"}], map["a" := {"X"}]);
    var order := ["", "b", "a"];
    assert FirstReady(g, {}, order) == Some("");
    assert [""][..0] == [] && order[..1] == [""] && Available(g, {}, [""]) == {};
    assert !Ready(g, {}, order[..1], order[1]);
    SnocValid(g, {}, [], "");
    SnocValid(g, {}, [] + [""], "a");
    SnocValid(g, {}, [] + [""] + ["a"], "b");
    assert [] + [""] + ["a"] + ["b"] == ["", "a", "b"];
  }

  lemma StuckHere(g: Nodes, start: set<Key>, head: seq<string>, tail: seq<string>)
    requires Valid(g, start, head) && forall n | n in tail :: !Ready(g, start, head, n)
    ensures GreedyUpTo(g, start, head + tail, |head|)
  {
    var all := head + tail;
    assert all[..|head|] == head;
    forall i | |head| <= i < |all| ensures !Ready(g, start, head, all[i]) { assert all[i] == tail[i - |head|]; }
  }

  // ---------- what greedy scheduling achieves ----------

  lemma {:induction false} ProducedIsAvailable(g: Nodes, start: set<Key>, order: seq<string>, all: seq<string>)
    requires forall n | n in order :: n in all
    ensures Available(g, start, order) <= Available(g, start, all)
  {
    AvailableIsUnion(g, start, order);
    AvailableIsUnion(g, start, all);
  }

  lemma {:induction false} AvailableIsUnion(g: Nodes, start: set<Key>, order: seq<string>)
    ensures forall k :: k in Available(g, start, order) <==> k in start || exists n | n in order :: k in g.Prods(n)
  {
    if order != [] {
      var n := |order| - 1;
      AvailableIsUnion(g, start, order[..n]);
      assert order == order[..n] + [order[n]];
    }
  }

  /** No valid schedule of the same nodes gets past a greedy one: each of its nodes is among the scheduled. */
  lemma ValidSnoc(g: Nodes, start: set<Key>, init: seq<string>, last: string)
    requires Valid(g, start, init + [last])
    ensures Valid(g, start, init) && Ready(g, start, init, last)
  {
    var all := init + [last];
    assert Ready(g, start, all[..|init|], all[|init|]) && all[..|init|] == init;
    forall i | 0 <= i < |init| ensures Ready(g, start, init[..i], init[i]) {
      assert Ready(g, start, all[..i], all[i]) && all[..i] == init[..i];
    }
  }

  lemma ReadyIsScheduled(g: Nodes, start: set<Key>, order: seq<string>, k: nat, node: string)
    requires GreedyUpTo(g, start, order, k) && node in order && Ready(g, start, order[..k], node)
    ensures node in order[..k]
  {
    var i :| 0 <= i < |order| && order[i] == node;
    if i < k { assert order[..k][i] == node; }
  }

  lemma {:induction false} GreedyIsMaximal(g: Nodes, start: set<Key>, order: seq<string>, k: nat, other: seq<string>)
    requires GreedyUpTo(g, start, order, k) && Valid(g, start, other)
    requires forall n | n in other :: n in order
    ensures forall n | n in other :: n in order[..k]
  {
    if other != [] {
      var init, last := other[..|other| - 1], other[|other| - 1];
      assert other == init + [last];
      ValidSnoc(g, start, init, last);
      GreedyIsMaximal(g, start, order, k, init);
      ProducedIsAvailable(g, start, init, order[..k]);
      ReadyIsScheduled(g, start, order, k, last);
    }
  }

  /** The set of scheduled nodes does not depend on the order in which the nodes are tried. */
  lemma ScheduledSetIsUnique(g: Nodes, start: set<Key>, a: seq<string>, i: nat, b: seq<string>, j: nat)
    requires GreedyUpTo(g, start, a, i) && GreedyUpTo(g, start, b, j) && multiset(a) == multiset(b)
    ensures (set n | n in a[..i]) == (set n | n in b[..j])
  {
    SameMembers(a, b);
    forall n | n in a[..i] ensures n in b { assert n in a; }
    forall n | n in b[..j] ensures n in a { assert n in b; }
    GreedyIsMaximal(g, start, b, j, a[..i]);
    GreedyIsMaximal(g, start, a, i, b[..j]);
  }

  lemma SameMembers(a: seq<string>, b: seq<string>)
    requires multiset(a) == multiset(b)
    ensures |a| == |b| && forall n :: n in a <==> n in b
  {
    assert |multiset(a)| == |a| && |multiset(b)| == |b|;
    forall n ensures n in a <==> n in b { assert n in a <==> n in multiset(a); }
  }

  /** The schedule covers everything exactly when some full valid order exists. */
  lemma StuckOnlyIfImpossible(g: Nodes, start: set<Key>, order: seq<string>, k: nat)
    requires GreedyUpTo(g, start, order, k) && Distinct(order)
    ensures k == |order| <==> exists full :: multiset(full) == multiset(order) && Valid(g, start, full)
  {
    if k == |order| {
      assert order[..k] == order;
      assert multiset(order) == multiset(order) && Valid(g, start, order);
    }
    if full :| multiset(full) == multiset(order) && Valid(g, start, full) {
      SameMembers(full, order);
      GreedyIsMaximal(g, start, order, k, full);
      assert forall n | n in order :: n in order[..k];
      CoveredMeansAll(order, k);
    }
  }

  lemma CoveredMeansAll(ns: seq<string>, k: nat)
    requires k <= |ns| && Distinct(ns) && forall n | n in ns :: n in ns[..k]
    ensures k == |ns|
  {
    if k < |ns| {
      NotBefore(ns, k);
      assert false;
    }
  }

  lemma NotBefore(ns: seq<string>, k: nat)
    requires k < |ns| && Distinct(ns)
    ensures ns[k] in ns && ns[k] !in ns[..k]
  {}

  // ---------- when the empty name comes up ----------

  /** The nodes that have a name. */
  function Named(ns: seq<string>): seq<string> {
    if ns == [] then [] else (if ns[0] == "" then [] else [ns[0]]) + Named(ns[1..])
  }

  lemma {:induction false} NamedIn(ns: seq<string>, n: string)
    ensures n in Named(ns) <==> n in ns && n != ""
  {
    if ns != [] {
      NamedIn(ns[1..], n);
      assert ns == [ns[0]] + ns[1..];
    }
  }

  /** What is scheduled one by one is valid, and consists of named nodes. */
  lemma {:induction false} ScheduledIsValid(g: Nodes, start: set<Key>, nodes: seq<string>)
    ensures Valid(g, start, Scheduled(g, start, nodes))
    ensures forall n | n in Scheduled(g, start, nodes) :: n in nodes && n != ""
    decreases |nodes|
  {
    match FirstReady(g, start, nodes)
    case None =>
    case Some(n) =>
      if n != "" {
        WithoutRemovesOne(nodes, n);
        SubsetOf(nodes, n);
        ScheduledIsValid(g, start + g.Prods(n), Without(nodes, n));
        ValidCons(g, start, n, Scheduled(g, start + g.Prods(n), Without(nodes, n)));
      }
  }

  /** When the loop is interrupted, the empty name is ready after what was scheduled. */
  lemma {:induction false} InterruptedIsReady(g: Nodes, start: set<Key>, nodes: seq<string>)
    requires Interrupted(g, start, nodes)
    ensures "" in nodes && g.Reqs("") <= Available(g, start, Scheduled(g, start, nodes))
    decreases |nodes|
  {
    var n := FirstReady(g, start, nodes).value;
    if n != "" {
      WithoutRemovesOne(nodes, n);
      SubsetOf(nodes, n);
      var more, rest := start + g.Prods(n), Without(nodes, n);
      InterruptedIsReady(g, more, rest);
      AvailableCons(g, start, n, Scheduled(g, more, rest));
    }
  }

  /** Whatever valid order there is of some of the nodes, an uninterrupted schedule of them makes as much available. */
  lemma ScheduleOffersMost(g: Nodes, start: set<Key>, nodes: seq<string>, other: seq<string>)
    requires !Interrupted(g, start, nodes) && Valid(g, start, other) && forall n | n in other :: n in nodes
    ensures Available(g, start, other) <= Available(g, start, Scheduled(g, start, nodes))
  {
    var head, tail := Scheduled(g, start, nodes), Leftover(g, start, nodes);
    ScheduleIsGreedyIff(g, start, nodes);
    SchedulePermutes(g, start, nodes);
    SameMembers(head + tail, nodes);
    GreedyIsMaximal(g, start, head + tail, |head|, other);
    assert (head + tail)[..|head|] == head;
    ProducedIsAvailable(g, start, other, head);
  }

  /** An uninterrupted loop leaves the empty name behind because it is not ready. */
  lemma UninterruptedIsNotReady(g: Nodes, start: set<Key>, nodes: seq<string>)
    requires !Interrupted(g, start, nodes) && "" in nodes
    ensures !(g.Reqs("") <= Available(g, start, Scheduled(g, start, nodes)))
  {
    var head, tail := Scheduled(g, start, nodes), Leftover(g, start, nodes);
    var order := head + tail;
    ScheduleIsGreedyIff(g, start, nodes);
    SchedulePermutes(g, start, nodes);
    ScheduledIsValid(g, start, nodes);
    SameMembers(order, nodes);
    var i :| 0 <= i < |order| && order[i] == "";
    assert forall j | 0 <= j < |head| :: order[j] == head[j] && head[j] != "";
    assert order[..|head|] == head;
    assert !Ready(g, start, order[..|head|], order[i]);
  }

  /** The loop is interrupted exactly when a node has the empty name and what the named nodes make available, scheduled by
    * themselves, is enough for it. */
  lemma InterruptedIff(g: Nodes, start: set<Key>, nodes: seq<string>)
    ensures Interrupted(g, start, nodes) <==>
      "" in nodes && g.Reqs("") <= Available(g, start, Scheduled(g, start, Named(nodes)))
  {
    forall n ensures n in Named(nodes) <==> n in nodes && n != "" { NamedIn(nodes, n); }
    NamesNeverInterrupt(g, start, Named(nodes));
    ScheduledIsValid(g, start, nodes);
    ScheduledIsValid(g, start, Named(nodes));
    if Interrupted(g, start, nodes) {
      InterruptedIsReady(g, start, nodes);
      ScheduleOffersMost(g, start, Named(nodes), Scheduled(g, start, nodes));
    } else if "" in nodes {
      UninterruptedIsNotReady(g, start, nodes);
      ScheduleOffersMost(g, start, nodes, Scheduled(g, start, Named(nodes)));
    }
  }
}
