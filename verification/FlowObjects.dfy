/** The objects the engine updates in place: a flow's context, a flow instance and the in-memory store. Each method is
  * specified by the value its object stands for. */
module FlowObjects {
  import opened Definition
  import opened EngineModel
  import Routing

  class FlowContext {
    var attributes: Ctx

    constructor (initial: Ctx)
      ensures attributes == initial
    {
      attributes := initial;
    }

    method Put(key: Key, value: Value)
      modifies this
      ensures attributes == old(attributes)[key := value]
    {
      attributes := attributes[key := value];
    }

    /** The loop that puts every entry of a map. */
    method PutAll(data: Ctx)
      modifies this
      ensures attributes == old(attributes) + data
    {
      var todo := data.Keys;
      while todo != {}
        invariant todo <= data.Keys
        invariant attributes == old(attributes) + (map k | k in data && k !in todo :: data[k])
        decreases |todo|
      {
        var k :| k in todo;
        Put(k, data[k]);
        todo := todo - {k};
      }
    }

    method Snapshot() returns (snapshot: Ctx)
      ensures snapshot == attributes
    {
      snapshot := attributes;
    }

    method RestoreFrom(snapshot: Ctx)
      modifies this
      ensures attributes == snapshot
    {
      attributes := map[];
      PutAll(snapshot);
    }
  }

  /** The states from a flow down to its deepest running sub-flow. */
  function PathOf(f: Flow): seq<State> {
    [f.state] + if f.active.Some? then PathOf(f.active.value) else []
  }

  /** What the next external event is expected to bring, asked of the deepest running sub-flow. */
  function AwaitedBy(f: Flow): set<Key> {
    if f.active.Some? then AwaitedBy(f.active.value) else Routing.WaitingFor(f.def.ExternalsFrom(f.state))
  }

  class FlowInstance {
    const id: FlowId
    const definition: FlowDef
    const context: FlowContext
    const expiresAt: int
    var currentState: State
    var guardFailureCount: nat
    var exitState: Option<string>
    var activeSubFlow: FlowInstance?
    var stateEnteredAt: int
    /** This instance and the sub-flows running below it. */
    ghost var Repr: set<FlowInstance>

    /** Sub-flows run under the identifier and on the context of their parent. */
    ghost predicate Valid()
      reads this, Repr
      decreases Repr
    {
      && this in Repr
      && (activeSubFlow != null ==>
            && activeSubFlow in Repr && activeSubFlow.Repr <= Repr && this !in activeSubFlow.Repr
            && activeSubFlow.id == id && activeSubFlow.context == context
            && activeSubFlow.Valid())
    }

    /** The flow without its context: waiting sub-flows are kept without theirs. */
    ghost function Frame(): Flow
      requires Valid()
      reads this, Repr
      decreases Repr
    {
      Flow(definition, currentState, map[], guardFailureCount, exitState, stateEnteredAt, expiresAt,
           if activeSubFlow == null then None else Some(activeSubFlow.Frame()))
    }

    ghost function View(): Flow
      requires Valid()
      reads this, Repr, context
    {
      Frame().(ctx := context.attributes)
    }

    constructor (id: FlowId, definition: FlowDef, context: FlowContext, currentState: State, now: int, expiresAt: int)
      ensures Valid() && Repr == {this} && activeSubFlow == null
      ensures this.id == id && this.context == context && this.definition == definition
      ensures Frame() == Flow(definition, currentState, map[], 0, None, now, expiresAt, None)
    {
      this.id, this.definition, this.context, this.currentState := id, definition, context, currentState;
      this.expiresAt, stateEnteredAt, guardFailureCount, exitState, activeSubFlow := expiresAt, now, 0, None, null;
      Repr := {this};
    }

    method TransitionTo(state: State, now: int)
      requires Valid()
      modifies this
      ensures Valid() && Repr == old(Repr) && activeSubFlow == old(activeSubFlow)
      ensures Frame() == MoveTo(old(Frame()), state, now)
      ensures currentState == state && stateEnteredAt == now && exitState == old(exitState)
      ensures guardFailureCount == if state != old(currentState) then 0 else old(guardFailureCount)
    {
      var stateChanged := currentState != state;
      currentState := state;
      stateEnteredAt := now;
      if stateChanged { guardFailureCount := 0; }
    }

    method IncrementGuardFailure()
      requires Valid()
      modifies this
      ensures Valid() && Repr == old(Repr) && activeSubFlow == old(activeSubFlow)
      ensures Frame() == old(Frame()).(failures := old(guardFailureCount) + 1)
    {
      guardFailureCount := guardFailureCount + 1;
    }

    method Complete(exit: string)
      requires Valid()
      modifies this
      ensures Valid() && Repr == old(Repr) && activeSubFlow == old(activeSubFlow)
      ensures Frame() == EngineModel.Complete(old(Frame()), exit)
    {
      exitState := Some(exit);
    }

    method StatePath() returns (path: seq<State>)
      requires Valid()
      ensures path == PathOf(Frame())
      decreases Repr
    {
      path := [currentState];
      if activeSubFlow != null {
        var rest := activeSubFlow.StatePath();
        path := path + rest;
      }
    }

    method WaitingFor() returns (waiting: set<Key>)
      requires Valid()
      ensures waiting == AwaitedBy(Frame())
      decreases Repr
    {
      if activeSubFlow != null {
        waiting := activeSubFlow.WaitingFor();
        return;
      }
      var externals := definition.ExternalsFrom(currentState);
      waiting := {};
      var i := 0;
      while i < |externals|
        invariant 0 <= i <= |externals|
        invariant waiting == Routing.WaitingFor(externals[..i])
      {
        assert externals[..i + 1] == externals[..i] + [externals[i]];
        waiting := waiting + Routing.WaitingKeys(externals[i]);
        i := i + 1;
      }
      assert externals[..i] == externals;
    }

    method SetActiveSubFlow(sub: FlowInstance)
      requires sub.Valid() && this !in sub.Repr && sub.id == id && sub.context == context
      modifies this
      ensures Valid() && Repr == {this} + sub.Repr && activeSubFlow == sub
      ensures Frame() == Flow(definition, old(currentState), map[], old(guardFailureCount), old(exitState),
                              old(stateEnteredAt), expiresAt, Some(sub.Frame()))
    {
      activeSubFlow := sub;
      Repr := {this} + sub.Repr;
    }

    method ClearActiveSubFlow()
      modifies this
      ensures Valid() && Repr == {this} && activeSubFlow == null
      ensures Frame() == Flow(definition, old(currentState), map[], old(guardFailureCount), old(exitState),
                              old(stateEnteredAt), expiresAt, None)
    {
      activeSubFlow := null;
      Repr := {this};
    }
  }

  class InMemoryFlowStore {
    var flows: map<FlowId, FlowInstance>
    var transitionLog: seq<Record>
    /** The instances and contexts the stored flows are made of. */
    ghost var Instances: set<FlowInstance>
    ghost var Contexts: set<FlowContext>

    /** Stored flows are sound and share nothing with each other. */
    ghost predicate Valid()
      reads this, Instances
    {
      && (forall id | id in flows ::
            flows[id] in Instances && flows[id].Repr <= Instances && flows[id].context in Contexts && flows[id].Valid() && flows[id].id == id)
      && (forall i, j | i in flows && j in flows && i != j ::
            flows[i].Repr !! flows[j].Repr && flows[i].context != flows[j].context)
    }

    ghost function Views(): map<FlowId, Flow>
      requires Valid()
      reads this, Instances, Contexts
    {
      map id | id in flows :: flows[id].View()
    }

    constructor ()
      ensures Valid() && flows == map[] && transitionLog == [] && Instances == {} && Contexts == {}
    {
      flows, transitionLog, Instances, Contexts := map[], [], {}, {};
    }

    method Create(flow: FlowInstance)
      modifies this`flows
      ensures flows == old(flows)[flow.id := flow]
    {
      flows := flows[flow.id := flow];
    }

    /** Unknown and completed flows are not handed out. */
    method LoadForUpdate(flowId: FlowId) returns (flow: FlowInstance?)
      ensures flow != null <==> flowId in flows && flows[flowId].exitState.None?
      ensures flow != null ==> flow == flows[flowId]
    {
      if flowId !in flows || flows[flowId].exitState.Some? { return null; }
      flow := flows[flowId];
    }

    method Save(flow: FlowInstance)
      modifies this`flows
      ensures flows == old(flows)[flow.id := flow]
    {
      flows := flows[flow.id := flow];
    }

    method RecordTransition(flowId: FlowId, from: State, to: State, trigger: string)
      modifies this`transitionLog
      ensures transitionLog == old(transitionLog) + [Record(flowId, from, to, trigger)]
    {
      transitionLog := transitionLog + [Record(flowId, from, to, trigger)];
    }
  }

  /** What survives of a stored flow when everything it is made of is left alone. */
  twostate lemma FlowKept(new f: FlowInstance)
    requires allocated(f) && old(allocated(f)) && old(f.Valid())
    requires unchanged(old(f.Repr)) && unchanged(f.context)
    ensures f.Valid() && f.Repr == old(f.Repr) && f.View() == old(f.View())
  {}

  /** A stored flow that what happened to `flow` does not touch. */
  ghost predicate Apart(f: FlowInstance, flow: FlowInstance)
    reads f, flow
  {
    f.Repr !! flow.Repr && f.context != flow.context
  }

  twostate lemma OthersKept(store: InMemoryFlowStore, new flow: FlowInstance, new id: FlowId)
    requires old(store.Valid()) && id in old(store.flows) && id != flow.id && (flow.id in old(store.flows) ==> old(store.flows)[flow.id] == flow)
    requires flow.Valid()
    requires if flow.id in old(store.flows)
      then fresh(flow.Repr - old(flow.Repr)) && unchanged(old(store.Instances) - old(flow.Repr)) && unchanged(old(store.Contexts) - {flow.context})
      else fresh(flow.Repr) && fresh(flow.context) && unchanged(old(store.Instances)) && unchanged(old(store.Contexts))
    ensures var f := old(store.flows)[id];
      f.Valid() && f.Repr == old(f.Repr) && f.View() == old(f.View()) && f.id == id && Apart(f, flow)
  {
    FlowKept(old(store.flows)[id]);
  }

  twostate lemma ChangedIsValid(store: InMemoryFlowStore, new flow: FlowInstance)
    requires old(store.Valid()) && flow.id in old(store.flows) && old(store.flows)[flow.id] == flow
    requires store.flows == old(store.flows) && store.Contexts == old(store.Contexts)
    requires store.Instances == old(store.Instances) + flow.Repr
    requires flow.Valid() && fresh(flow.Repr - old(flow.Repr))
    requires unchanged(old(store.Instances) - old(flow.Repr)) && unchanged(old(store.Contexts) - {flow.context})
    ensures store.Valid()
  {
    forall id | id in old(store.flows) && id != flow.id
      ensures var f := old(store.flows)[id]; f.Valid() && f.Repr == old(f.Repr) && f.id == id && Apart(f, flow)
    {
      OthersKept(store, flow, id);
    }
  }

  /** Whatever happens to one stored flow leaves the views of the others alone. */
  twostate lemma OneFlowChanged(store: InMemoryFlowStore, new flow: FlowInstance)
    requires old(store.Valid()) && flow.id in old(store.flows) && old(store.flows)[flow.id] == flow
    requires store.flows == old(store.flows) && store.Contexts == old(store.Contexts)
    requires store.Instances == old(store.Instances) + flow.Repr
    requires flow.Valid() && fresh(flow.Repr - old(flow.Repr))
    requires unchanged(old(store.Instances) - old(flow.Repr)) && unchanged(old(store.Contexts) - {flow.context})
    ensures store.Valid() && store.Views() == old(store.Views())[flow.id := flow.View()]
  {
    ChangedIsValid(store, flow);
    forall id | id in old(store.flows) && id != flow.id ensures old(store.flows)[id].View() == old(store.flows[id].View()) {
      OthersKept(store, flow, id);
    }
  }

  twostate lemma AddedIsValid(store: InMemoryFlowStore, new flow: FlowInstance)
    requires old(store.Valid()) && flow.id !in old(store.flows)
    requires store.flows == old(store.flows)[flow.id := flow]
    requires store.Instances == old(store.Instances) + flow.Repr && store.Contexts == old(store.Contexts) + {flow.context}
    requires flow.Valid() && fresh(flow.Repr) && fresh(flow.context)
    requires unchanged(old(store.Instances)) && unchanged(old(store.Contexts))
    ensures store.Valid()
  {
    forall id | id in old(store.flows)
      ensures var f := old(store.flows)[id]; f.Valid() && f.Repr == old(f.Repr) && f.id == id && Apart(f, flow)
    {
      OthersKept(store, flow, id);
    }
  }

  twostate lemma OneFlowAdded(store: InMemoryFlowStore, new flow: FlowInstance)
    requires old(store.Valid()) && flow.id !in old(store.flows)
    requires store.flows == old(store.flows)[flow.id := flow]
    requires store.Instances == old(store.Instances) + flow.Repr && store.Contexts == old(store.Contexts) + {flow.context}
    requires flow.Valid() && fresh(flow.Repr) && fresh(flow.context)
    requires unchanged(old(store.Instances)) && unchanged(old(store.Contexts))
    ensures store.Valid() && store.Views() == old(store.Views())[flow.id := flow.View()]
  {
    AddedIsValid(store, flow);
    forall id | id in old(store.flows) ensures old(store.flows)[id].View() == old(store.flows[id].View()) {
      OthersKept(store, flow, id);
    }
  }
}
