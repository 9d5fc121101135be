/** The append-only event log over the store: its versions, replay up to a version, and projections.
  * Replaying the log of a run gives the state of each flow. */
module EventLog {
  import opened Definition
  import opened EngineModel
  import opened Trails

  datatype EventKind = TransitionEvent | CompensationEvent

  datatype VersionedEvent = VersionedEvent(flowId: FlowId, version: nat, kind: EventKind, from: Option<State>, to: State, trigger: string)

  /** What callers ask of the decorated store. */
  datatype Entry = RecordEntry(record: Record) | CompensateEntry(flowId: FlowId, trigger: string)

  function Owner(e: Entry): FlowId { if e.RecordEntry? then e.record.flowId else e.flowId }

  function Of(log: seq<VersionedEvent>, id: FlowId): seq<VersionedEvent> {
    if log == [] then []
    else
      var n := |log| - 1;
      if log[n].flowId == id then Of(log[..n], id) + [log[n]] else Of(log[..n], id)
  }

  function EventOf(e: Entry, version: nat): VersionedEvent {
    match e
    case RecordEntry(r) => VersionedEvent(r.flowId, version, TransitionEvent, Some(r.from), r.to, r.trigger)
    case CompensateEntry(id, trigger) => VersionedEvent(id, version, CompensationEvent, None, "COMPENSATED", trigger)
  }

  /** The log after a sequence of entries: each event gets the next version of its flow. */
  function LogOf(entries: seq<Entry>): seq<VersionedEvent> {
    if entries == [] then []
    else
      var n := |entries| - 1;
      var before := LogOf(entries[..n]);
      before + [EventOf(entries[n], |Of(before, Owner(entries[n]))| + 1)]
  }

  // ---------- the decorator ----------

  /** The transitions among the entries, in order: what the delegate store logged. */
  function Records(entries: seq<Entry>): seq<Record> {
    if entries == [] then []
    else
      var n := |entries| - 1;
      Records(entries[..n]) + if entries[n].RecordEntry? then [entries[n].record] else []
  }

  lemma OfSnoc(log: seq<VersionedEvent>, e: VersionedEvent, id: FlowId)
    ensures Of(log + [e], id) == if e.flowId == id then Of(log, id) + [e] else Of(log, id)
  {
    assert (log + [e])[..|log + [e]| - 1] == log;
  }

  function Counter(counters: map<FlowId, nat>, id: FlowId): nat { if id in counters then counters[id] else 0 }

  /** Each counter is the number of events of its flow. */
  ghost predicate CountersMatch(counters: map<FlowId, nat>, log: seq<VersionedEvent>) {
    forall id :: Counter(counters, id) == |Of(log, id)|
  }

  lemma NextVersion(counters: map<FlowId, nat>, log: seq<VersionedEvent>, e: VersionedEvent)
    requires CountersMatch(counters, log) && e.version == Counter(counters, e.flowId) + 1
    ensures CountersMatch(counters[e.flowId := e.version], log + [e])
  {
    forall id ensures Counter(counters[e.flowId := e.version], id) == |Of(log + [e], id)| { OfSnoc(log, e, id); }
  }

  class EventLogStoreDecorator {
    /** What has been asked of the store so far. */
    ghost var entries: seq<Entry>
    var eventLog: seq<VersionedEvent>
    var versionCounters: map<FlowId, nat>
    /** The log of the decorated store. */
    var transitionLog: seq<Record>

    ghost predicate Valid()
      reads this
    {
      eventLog == LogOf(entries) && transitionLog == Records(entries) && CountersMatch(versionCounters, eventLog)
    }

    constructor ()
      ensures Valid() && entries == []
    {
      entries, eventLog, versionCounters, transitionLog := [], [], map[], [];
    }

    method Append(e: Entry)
      requires eventLog == LogOf(entries) && CountersMatch(versionCounters, eventLog)
      modifies this`entries, this`eventLog, this`versionCounters
      ensures entries == old(entries) + [e]
      ensures eventLog == LogOf(entries) && CountersMatch(versionCounters, eventLog)
      ensures eventLog == old(eventLog) + [EventOf(e, |Of(old(eventLog), Owner(e))| + 1)]
    {
      var id := Owner(e);
      var version := Counter(versionCounters, id) + 1;
      NextVersion(versionCounters, eventLog, EventOf(e, version));
      versionCounters := versionCounters[id := version];
      eventLog := eventLog + [EventOf(e, version)];
      entries := entries + [e];
      assert entries[..|entries| - 1] == old(entries);
    }

    method RecordTransition(r: Record)
      requires Valid()
      modifies this
      ensures Valid() && entries == old(entries) + [RecordEntry(r)] && transitionLog == old(transitionLog) + [r]
      ensures var version := |Of(old(eventLog), r.flowId)| + 1;
        eventLog == old(eventLog) + [VersionedEvent(r.flowId, version, TransitionEvent, Some(r.from), r.to, r.trigger)]
    {
      transitionLog := transitionLog + [r];
      Append(RecordEntry(r));
      assert entries[..|entries| - 1] == old(entries);
    }

    method AppendCompensation(id: FlowId, trigger: string)
      requires Valid()
      modifies this
      ensures Valid() && entries == old(entries) + [CompensateEntry(id, trigger)] && transitionLog == old(transitionLog)
      ensures var version := |Of(old(eventLog), id)| + 1;
        eventLog == old(eventLog) + [VersionedEvent(id, version, CompensationEvent, None, "COMPENSATED", trigger)]
    {
      Append(CompensateEntry(id, trigger));
      assert entries[..|entries| - 1] == old(entries);
    }

    method EventsForFlow(id: FlowId) returns (es: seq<VersionedEvent>)
      requires Valid()
      ensures es == Of(eventLog, id)
      ensures forall i | 0 <= i < |es| :: es[i].version == i + 1
    {
      es := [];
      var i := 0;
      while i < |eventLog|
        invariant 0 <= i <= |eventLog| && es == Of(eventLog[..i], id)
      {
        assert eventLog[..i + 1][..i] == eventLog[..i];
        if eventLog[i].flowId == id {
          es := es + [eventLog[i]];
        }
        i := i + 1;
      }
      assert eventLog[..i] == eventLog;
      VersionsCountUp(entries, id);
    }
  }

  // ---------- versions ----------

  /** The versions of each flow are exactly 1, 2, 3, ... whatever the interleaving. */
  lemma {:induction false} VersionsCountUp(entries: seq<Entry>, id: FlowId)
    ensures forall i | 0 <= i < |Of(LogOf(entries), id)| :: Of(LogOf(entries), id)[i].version == i + 1
  {
    if entries != [] {
      var n := |entries| - 1;
      VersionsCountUp(entries[..n], id);
      var before := LogOf(entries[..n]);
      OfSnoc(before, EventOf(entries[n], |Of(before, Owner(entries[n]))| + 1), id);
    }
  }

  // ---------- replay ----------

  function Upto(es: seq<VersionedEvent>, v: nat): seq<VersionedEvent> {
    if es == [] then []
    else
      var n := |es| - 1;
      Upto(es[..n], v) + if es[n].kind == TransitionEvent && es[n].version <= v then [es[n]] else []
  }

  /** Stable insertion by version. */
  function Insert(es: seq<VersionedEvent>, e: VersionedEvent): seq<VersionedEvent> {
    if es == [] || es[|es| - 1].version <= e.version then es + [e]
    else Insert(es[..|es| - 1], e) + [es[|es| - 1]]
  }

  function SortByVersion(es: seq<VersionedEvent>): seq<VersionedEvent> {
    if es == [] then [] else Insert(SortByVersion(es[..|es| - 1]), es[|es| - 1])
  }

  /** `ReplayService.stateAtVersion`: filter, sort, last. */
  function StateAtVersion(log: seq<VersionedEvent>, id: FlowId, v: nat): Option<State> {
    var es := SortByVersion(Upto(Of(log, id), v));
    if es == [] then None else Some(es[|es| - 1].to)
  }

  ghost predicate Ascending(es: seq<VersionedEvent>) {
    forall i, j | 0 <= i < j < |es| :: es[i].version <= es[j].version
  }

  lemma AscendingFront(es: seq<VersionedEvent>)
    requires Ascending(es) && es != []
    ensures Ascending(es[..|es| - 1]) && Insert(es[..|es| - 1], es[|es| - 1]) == es
  {
    var n := |es| - 1;
    assert es == es[..n] + [es[n]];
    if n > 0 { assert es[..n][n - 1] == es[n - 1]; }
  }

  lemma {:induction false} SortedStays(es: seq<VersionedEvent>)
    requires Ascending(es)
    ensures SortByVersion(es) == es
  {
    if es != [] {
      AscendingFront(es);
      SortedStays(es[..|es| - 1]);
    }
  }

  lemma {:induction false} UptoShape(es: seq<VersionedEvent>, v: nat)
    requires Ascending(es)
    ensures Ascending(Upto(es, v))
    ensures forall x | x in Upto(es, v) :: x in es && x.kind == TransitionEvent && x.version <= v
  {
    if es != [] {
      var n := |es| - 1;
      UptoShape(es[..n], v);
      forall x | x in Upto(es[..n], v) ensures x.version <= es[n].version { }
    }
  }

  /** Replay of a log the decorator wrote reads the last transition at or before the version. */
  lemma ReplayReadsLast(entries: seq<Entry>, id: FlowId, v: nat)
    ensures var es := Upto(Of(LogOf(entries), id), v);
      StateAtVersion(LogOf(entries), id, v) == if es == [] then None else Some(es[|es| - 1].to)
  {
    VersionsCountUp(entries, id);
    UptoShape(Of(LogOf(entries), id), v);
    SortedStays(Upto(Of(LogOf(entries), id), v));
  }

  lemma UptoSnoc(es: seq<VersionedEvent>, e: VersionedEvent, v: nat)
    ensures Upto(es + [e], v) == Upto(es, v) + if e.kind == TransitionEvent && e.version <= v then [e] else []
  {
    assert (es + [e])[..|es + [e]| - 1] == es;
  }

  /** One more entry gets a version above all earlier ones. */
  lemma OneMoreKeepsReplay(entries: seq<Entry>, e: Entry, id: FlowId, v: nat)
    requires v <= |Of(LogOf(entries), id)|
    ensures Upto(Of(LogOf(entries + [e]), id), v) == Upto(Of(LogOf(entries), id), v)
    ensures |Of(LogOf(entries + [e]), id)| >= |Of(LogOf(entries), id)|
  {
    var before := LogOf(entries);
    var event := EventOf(e, |Of(before, Owner(e))| + 1);
    assert (entries + [e])[..|entries + [e]| - 1] == entries;
    OfSnoc(before, event, id);
    UptoSnoc(Of(before, id), event, v);
  }

  lemma LastApart(entries: seq<Entry>, more: seq<Entry>)
    requires more != []
    ensures entries + more == (entries + more[..|more| - 1]) + [more[|more| - 1]]
  {}

  /** Replay at a version already written is unchanged by whatever is appended later. */
  lemma {:induction false} ReplayIsStable(entries: seq<Entry>, more: seq<Entry>, id: FlowId, v: nat)
    requires v <= |Of(LogOf(entries), id)|
    ensures StateAtVersion(LogOf(entries + more), id, v) == StateAtVersion(LogOf(entries), id, v)
    ensures |Of(LogOf(entries + more), id)| >= |Of(LogOf(entries), id)|
  {
    if more == [] {
      assert entries + more == entries;
    } else {
      var n := |more| - 1;
      ReplayIsStable(entries, more[..n], id, v);
      LastApart(entries, more);
      OneMoreKeepsReplay(entries + more[..n], more[n], id, v);
    }
  }

  // ---------- replay and the engine ----------

  ghost predicate Carries(e: VersionedEvent, r: Record) {
    e.flowId == r.flowId && e.from == Some(r.from) && e.to == r.to && e.trigger == r.trigger
  }

  ghost predicate SameMoves(es: seq<VersionedEvent>, rs: seq<Record>) {
    |es| == |rs| && forall i | 0 <= i < |es| :: Carries(es[i], rs[i])
  }

  lemma OwnSnoc(log: seq<Record>, r: Record, id: FlowId)
    ensures Own(log + [r], id) == if r.flowId == id then Own(log, id) + [r] else Own(log, id)
  {
    assert (log + [r])[..|log + [r]| - 1] == log;
  }

  lemma SameSnoc(es: seq<VersionedEvent>, rs: seq<Record>, e: VersionedEvent, r: Record)
    requires SameMoves(es, rs) && Carries(e, r)
    ensures SameMoves(es + [e], rs + [r])
  {}

  /** An entry of another flow adds neither an event nor a record of this one. */
  lemma ForeignEntry(log: seq<VersionedEvent>, records: seq<Record>, e: Entry, version: nat, id: FlowId)
    requires Owner(e) != id
    ensures Of(log + [EventOf(e, version)], id) == Of(log, id)
    ensures Own(if e.RecordEntry? then records + [e.record] else records, id) == Own(records, id)
  {
    OfSnoc(log, EventOf(e, version), id);
    if e.RecordEntry? { OwnSnoc(records, e.record, id); }
  }

  lemma OwnEntry(log: seq<VersionedEvent>, e: Entry, version: nat, id: FlowId, v: nat)
    requires Owner(e) == id && version <= v
    ensures Upto(Of(log + [EventOf(e, version)], id), v)
      == Upto(Of(log, id), v) + if e.RecordEntry? then [EventOf(e, version)] else []
  {
    OfSnoc(log, EventOf(e, version), id);
    UptoSnoc(Of(log, id), EventOf(e, version), v);
  }

  /** One more entry adds a transition event of its flow exactly when it adds a record of it. */
  lemma EntryAddsItsRecord(log: seq<VersionedEvent>, records: seq<Record>, e: Entry, version: nat, id: FlowId, v: nat)
    requires SameMoves(Upto(Of(log, id), v), Own(records, id)) && (Owner(e) == id ==> version <= v)
    ensures SameMoves(Upto(Of(log + [EventOf(e, version)], id), v), Own(if e.RecordEntry? then records + [e.record] else records, id))
  {
    if Owner(e) != id {
      ForeignEntry(log, records, e, version, id);
    } else {
      OwnEntry(log, e, version, id, v);
      if e.RecordEntry? {
        OwnSnoc(records, e.record, id);
        SameSnoc(Upto(Of(log, id), v), Own(records, id), EventOf(e, version), e.record);
      }
    }
  }

  /** The transition events of a flow carry the flow's own records, in order. */
  lemma {:induction false} TransitionsAreRecords(entries: seq<Entry>, id: FlowId, v: nat)
    requires v >= |Of(LogOf(entries), id)|
    ensures SameMoves(Upto(Of(LogOf(entries), id), v), Own(Records(entries), id))
  {
    if entries != [] {
      var n := |entries| - 1;
      var log, records := LogOf(entries[..n]), Records(entries[..n]);
      var version := |Of(log, Owner(entries[n]))| + 1;
      OfSnoc(log, EventOf(entries[n], version), id);
      TransitionsAreRecords(entries[..n], id, v);
      EntryAddsItsRecord(log, records, entries[n], version, id, v);
      assert records + [] == records;
    }
  }

  /** Replaying an engine's log at the latest version returns the current state of the flow, whatever compensations
    * were written in between; a flow with no transition yet has none to replay and is still in its initial state. */
  lemma ReplayReconstructsEngine(cfg: Config, env: Env, evs: seq<Event>, entries: seq<Entry>, id: FlowId)
    requires PlainEvents(evs) && Records(entries) == Run(cfg, env, evs).log
    requires id in Run(cfg, env, evs).flows
    ensures var f := Run(cfg, env, evs).flows[id];
      var latest := |Of(LogOf(entries), id)|;
      if Own(Run(cfg, env, evs).log, id) == []
      then StateAtVersion(LogOf(entries), id, latest) == None && f.def.initial == Some(f.state)
      else StateAtVersion(LogOf(entries), id, latest) == Some(f.state)
  {
    var w := Run(cfg, env, evs);
    var latest := |Of(LogOf(entries), id)|;
    RunsLeaveTrails(cfg, env, evs);
    TransitionsAreRecords(entries, id, latest);
    ReplayReadsLast(entries, id, latest);
    assert Linked(w.flows[id].def, w.flows[id].def.initial.value, Own(w.log, id), w.flows[id].state);
  }

  /** Among the first `v` events of a flow the one at position `i` is the last transition. */
  ghost predicate LastTransitionAt(es: seq<VersionedEvent>, v: nat, i: nat) {
    && i < |es| && i < v && es[i].kind == TransitionEvent
    && forall j | i < j < |es| && j < v :: es[j].kind == CompensationEvent
  }

  ghost predicate Numbered(es: seq<VersionedEvent>) { forall i | 0 <= i < |es| :: es[i].version == i + 1 }

  lemma LastStays(es: seq<VersionedEvent>, e: VersionedEvent, v: nat, i: nat)
    ensures LastTransitionAt(es + [e], v, i) <==>
      if i == |es| then i < v && e.kind == TransitionEvent
      else LastTransitionAt(es, v, i) && (|es| < v ==> e.kind == CompensationEvent)
  {
    var all := es + [e];
    if LastTransitionAt(all, v, i) && i < |es| {
      forall j | i < j < |es| && j < v ensures es[j].kind == CompensationEvent { assert all[j] == es[j]; }
      if |es| < v { assert all[|es|] == e; }
    }
  }

  /** Of events numbered from 1 the last one kept is the last transition among the first `v`. */
  lemma {:induction false} KeptIsLast(es: seq<VersionedEvent>, v: nat) returns (i: nat)
    requires Numbered(es) && Upto(es, v) != []
    ensures LastTransitionAt(es, v, i) && Upto(es, v)[|Upto(es, v)| - 1] == es[i]
  {
    var n := |es| - 1;
    var front, e := es[..n], es[n];
    assert es == front + [e];
    UptoSnoc(front, e, v);
    i := n;
    if !(e.kind == TransitionEvent && n < v) { i := KeptIsLast(front, v); }
    LastStays(front, e, v, i);
  }

  lemma {:induction false} LastIsKept(es: seq<VersionedEvent>, v: nat, i: nat)
    requires Numbered(es) && LastTransitionAt(es, v, i)
    ensures Upto(es, v) != [] && Upto(es, v)[|Upto(es, v)| - 1] == es[i]
  {
    var n := |es| - 1;
    var front, e := es[..n], es[n];
    assert es == front + [e];
    UptoSnoc(front, e, v);
    LastStays(front, e, v, i);
    if i < n { LastIsKept(front, v, i); }
  }

  /** Replay at version `v` is where the last transition among the first `v` events of the flow led; there is none exactly when
    * these are all compensations. */
  lemma ReplayAtVersion(entries: seq<Entry>, id: FlowId, v: nat, s: State)
    ensures var es := Of(LogOf(entries), id);
      StateAtVersion(LogOf(entries), id, v) == Some(s) <==> exists i: nat :: LastTransitionAt(es, v, i) && es[i].to == s
  {
    VersionsCountUp(entries, id);
    ReplayReadsLast(entries, id, v);
    KeptLeadsTo(Of(LogOf(entries), id), v, s);
  }

  lemma KeptLeadsTo(es: seq<VersionedEvent>, v: nat, s: State)
    requires Numbered(es)
    ensures Upto(es, v) != [] && Upto(es, v)[|Upto(es, v)| - 1].to == s <==> exists i: nat :: LastTransitionAt(es, v, i) && es[i].to == s
  {
    if Upto(es, v) != [] { var i := KeptIsLast(es, v); }
    if i: nat :| LastTransitionAt(es, v, i) && es[i].to == s { LastIsKept(es, v, i); }
  }

  // ---------- projections ----------

  /** A fold over the events of a flow, in log order. */
  function Fold<T>(log: seq<VersionedEvent>, id: FlowId, v: nat, start: T, step: (T, VersionedEvent) -> T): T {
    if log == [] then start
    else
      var n := |log| - 1;
      var before := Fold(log[..n], id, v, start, step);
      if log[n].flowId == id && log[n].version <= v then step(before, log[n]) else before
  }

  /** `ProjectionReplayService.stateAtVersion`. */
  method ProjectionAtVersion<T>(log: seq<VersionedEvent>, id: FlowId, v: nat, start: T, step: (T, VersionedEvent) -> T)
    returns (state: T)
    ensures state == Fold(log, id, v, start, step)
  {
    state := start;
    var i := 0;
    while i < |log|
      invariant 0 <= i <= |log| && state == Fold(log[..i], id, v, start, step)
    {
      assert log[..i + 1][..i] == log[..i];
      if log[i].flowId == id && log[i].version <= v {
        state := step(state, log[i]);
      }
      i := i + 1;
    }
    assert log[..i] == log;
  }

  /** Each event applied once, in order. */
  function Reduce<T>(es: seq<VersionedEvent>, start: T, step: (T, VersionedEvent) -> T): T {
    if es == [] then start else step(Reduce(es[..|es| - 1], start, step), es[|es| - 1])
  }

  /** The first `v` of a list. */
  function First(es: seq<VersionedEvent>, v: nat): seq<VersionedEvent> { if v < |es| then es[..v] else es }

  lemma FirstSnoc(es: seq<VersionedEvent>, e: VersionedEvent, v: nat)
    ensures First(es + [e], v) == if |es| < v then es + [e] else First(es, v)
  {
    if v <= |es| { assert (es + [e])[..v] == es[..v]; }
    assert es[..|es|] == es;
  }

  lemma FoldSnoc<T>(log: seq<VersionedEvent>, e: VersionedEvent, id: FlowId, v: nat, start: T, step: (T, VersionedEvent) -> T)
    ensures var before := Fold(log, id, v, start, step);
      Fold(log + [e], id, v, start, step) == if e.flowId == id && e.version <= v then step(before, e) else before
  {
    assert (log + [e])[..|log + [e]| - 1] == log;
  }

  lemma ReduceSnoc<T>(es: seq<VersionedEvent>, e: VersionedEvent, start: T, step: (T, VersionedEvent) -> T)
    ensures Reduce(es + [e], start, step) == step(Reduce(es, start, step), e)
  {
    assert (es + [e])[..|es + [e]| - 1] == es;
  }

  /** On logs the decorator wrote: the projection at version `v` applies the first `v` events of the flow, transitions and
    * compensations, each once and in order. */
  lemma {:induction false} ProjectionAppliesFirst<T>(entries: seq<Entry>, id: FlowId, v: nat, start: T, step: (T, VersionedEvent) -> T)
    ensures Fold(LogOf(entries), id, v, start, step) == Reduce(First(Of(LogOf(entries), id), v), start, step)
  {
    if entries != [] {
      var n := |entries| - 1;
      var before := LogOf(entries[..n]);
      var event := EventOf(entries[n], |Of(before, Owner(entries[n]))| + 1);
      ProjectionAppliesFirst(entries[..n], id, v, start, step);
      assert LogOf(entries) == before + [event];
      FoldSnoc(before, event, id, v, start, step);
      OfSnoc(before, event, id);
      FirstSnoc(Of(before, id), event, v);
      ReduceSnoc(Of(before, id), event, start, step);
      assert |Of(before, id)| < v ==> First(Of(before, id), v) == Of(before, id);
    }
  }

  /** The reducer that remembers the target of the last transition. */
  function LastTarget(state: Option<State>, e: VersionedEvent): Option<State> {
    if e.kind == TransitionEvent then Some(e.to) else state
  }

  /** The last target of a list of events. */
  function Latest(es: seq<VersionedEvent>): Option<State> { if es == [] then None else Some(es[|es| - 1].to) }

  lemma LatestSnoc(log: seq<VersionedEvent>, e: VersionedEvent, id: FlowId, v: nat)
    ensures Latest(Upto(Of(log + [e], id), v)) ==
      if e.flowId == id && e.version <= v && e.kind == TransitionEvent then Some(e.to) else Latest(Upto(Of(log, id), v))
  {
    OfSnoc(log, e, id);
    UptoSnoc(Of(log, id), e, v);
  }

  lemma {:induction false} FoldLastTarget(log: seq<VersionedEvent>, id: FlowId, v: nat)
    ensures Fold(log, id, v, None, LastTarget) == Latest(Upto(Of(log, id), v))
  {
    if log != [] {
      var n := |log| - 1;
      FoldLastTarget(log[..n], id, v);
      assert log == log[..n] + [log[n]];
      LatestSnoc(log[..n], log[n], id, v);
    }
  }

  /** On logs the decorator wrote, folding with that reducer is `ReplayService`. */
  lemma ProjectionAgreesWithReplay(entries: seq<Entry>, id: FlowId, v: nat)
    ensures Fold(LogOf(entries), id, v, None, LastTarget) == StateAtVersion(LogOf(entries), id, v)
  {
    FoldLastTarget(LogOf(entries), id, v);
    ReplayReadsLast(entries, id, v);
  }
}
