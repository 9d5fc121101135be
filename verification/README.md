# tramli, verified

tramli is a library for workflows: a *flow definition* lists states and the transitions between them, each processor,
guard and branch declares which context keys it requires and produces, `build()` checks the definition, and an engine
runs instances of it, moving automatically until an external event is needed. Its central promise (README.md, line 162) is
that once `build()` accepts, no step finds its data missing.

This project models the build-time verifier and the engine after the TypeScript sources, nested sub-flows after the Rust
sources, and the smaller plugins around them, and proves what the promise is worth.

## How the model is laid out

* `Definition` holds the declarations. Keys, states and labels are strings; a sub-flow transition carries its definition.
* `DataFlow` is the recursive requires/produces traversal on a graph, with both joins: the one that is written, which
  returns early when the new set is contained in the recorded one, and the intersection its comment asks for.
  `DataFlowProofs` relates them to the meet over all paths. `RequiresProduces` is the traversal on a definition, in place;
  `CheckMeaning` and `AvailabilityMeaning` say what it decides in terms of the declarations.
* `Graphs` and `Searches` hold the three graph searches, `Routing` the choice of an external transition, `Builder` the
  declarations, the remaining checks and `build()` as a whole, `BranchArms` the arm that runs for a label.
* `EngineModel` is the engine as functions on values; `FlowObjects` and `Engine` are the engine as methods on objects,
  proved to compute those functions, sub-flows and the store included.
* `EngineMoves` turns the engine's own moves into a data-flow graph. Its positions are paths of states, from the root flow
  down to the sub-flow that moves, in the middle of a chain or waiting for a caller.
* `RunSafety`, `EngineCheck` and `Headline` prove run soundness, `DoomedChains` and `Realisation` its converse, and
  `CheckExactness` that the check itself is exact where no error route interferes.
  `SubFlowEntry` is the validator of sub-flow entries; `SubFlowComposition` and `ModularCheck` put a parent and sub-flows
  that were checked apart together. `Counterexamples`, `ErrorEdgeCounterexample`, `TriggerCounterexample` and
  `SubFlowCounterexample` hold concrete definitions on which the promise fails. `EngineFacts`, `Trails`, `Lifecycle`,
  `ChainBound` and `SubFlowExit` hold the other properties of runs. `Effects` explains each stretch of a run by its records;
  `ActionLog`, `LawfulRecords` and `Timing` draw from it which actions have fired, what may be recorded, and when a state was
  entered. `SingleMoves` is one move at a time, automatic or of an accepted event.
* `NestedSubFlows` and `SubFlowInstances` are the nested sub-flow instances of the Rust sources, as values and as objects;
  `RootFlows` is the Rust engine's root flow above them; `InstanceTrails` and `RootTrails` say how both move. `EventLog`,
  `Pipelines`, `PipelineTrace`, `Migration` and `Hierarchy` are the remaining parts.

Processors, guards, branches, enter and exit actions, `instanceof` and the clock are arbitrary functions of an environment
`Env`. They also see a step counter, so the same component may succeed, throw, reject or expire from one call to the next.
A run is any list of starts and resumes of any flows (`Event`), applied one after the other.

Callers owe the initial data at the start and, with each resume, the keys of the transition the event selects
(`Supply`): of two triggers that wait in one state, an event brings its own.

## What was found

The promise fails as the code is written, in ways the lemmas make exact.

* **What is exact.** Run the same analysis, with the intersection join, on the edges the engine takes (`EngineGraph`).
  What it accepts is safe in every run, sub-flows at any depth included (`EngineCheckedRunsAreSafe`). For a definition
  without sub-flows that passes the structural checks, it is also necessary: every run of honest components and callers
  that bring what they owe supplies every component **if and only if** that analysis accepts (`PromiseIffEngineCheck`).
  What it rejects goes wrong in a run that the proof constructs (`RejectedGoesWrong`). The conditions are: every external
  transition is selected by its own keys, the time to live is not negative, and no path of automatic moves is longer than
  `maxChainDepth` (`ShortChains`).
* **Where the check itself is exact.** It accepts exactly when some map of guaranteed keys feeds every guard, branch and
  processor (`IntersectionAcceptsIffFed`). Without sub-flows and error routes, with at most one automatic or branch declaration
  a state, and with events that bring everything declared, the intersection join is neither too strict nor too lenient: it
  accepts **if and only if** every run supplies every component (`CheckIsEngineCheck`, `PromiseIffCheck`).
* **Sub-flows compose.** A map over the parent's own states and a map for each sub-flow, made without the parent, give a
  plan for the whole once the validator accepts each entry, exactly when the types guaranteed on the side are really
  there (`CompositionIff`). On the graphs the definitions carry, the validator compares what the sub-flow declares to be
  there initially with the parent's `availableAt` (`EntryCoveredMeans`). So definitions checked piece by piece run safely,
  at any depth of nesting (`CheckedApart`, `ApprovedSubFlowsAreSafe`).
* **The join.** The early return of both traversals ignores a later visit with a smaller set, although the comment below it
  asks for the intersection. Sets can only be too large (`WrittenContainsIntersection`), and the result is the meet over
  all paths exactly when it passes the one-edge check (`ExactIffEdgeConsistent`). A diamond is accepted and its run calls
  a processor without its key (`DiamondIsAccepted`, `DiamondRunFails`).
* **Error edges.** The checker keeps a guard's data on the error path; the engine restores the snapshot taken before it.
  Guard exhaustion, failing branches and `onStepError` routes are not followed at all. A definition both joins accept fails
  in three calls (`PaymentIsAccepted`, `PaymentRunFails`).
* **External keys.** Every external transition is credited with all externally provided keys, whichever event arrives. A
  definition with two triggers in one state is accepted by both joins, and no caller that selects its transitions can serve
  it (`ShopIsAccepted`, `NoCallerServesShop`, `ShopRunFails`).
* For a map the checks are content with, respecting the error routes and bringing enough is exactly what the engine needs
  on top (`ParentKeptIffRespected`); with both, and with sub-flows checked apart and their exits followed, accepted
  definitions run safely (`AcceptedRunsAreSafe`).
* **States behind a sub-flow.** The traversal recurses on the target of a transition, which for a sub-flow transition is
  its own state, and never visits the states its exits lead to. A processor there that requires a key nobody provides goes
  unreported and fails (`HostIsAccepted`, `HostRunFails`).
* **What runs leave behind.** Whatever enter and exit actions do, the context shows the actions of the recorded regular moves in
  their order and nothing else (`ActionsFollowRecords`); every record is one the definition allows, errors by the first route
  that matches (`RecordsAreLawful`); and a state's timeout counts from the last call that moved the flow
  (`TimeoutCountsFromEntry`).
* **Sub-flow exits.** A sub-flow that ends on a resume with an unmapped exit leaves its parent stranded until it expires
  (`UnmappedExitIsDropped`, `StrandedForever`). On entry the exit bubbles, but the chain loop does not ask whether the
  parent is completed, and re-enters the sub-flow until the depth limit (`EntryRepeatsIff`, `OverflowsIffEntriesFail`). Both
  happen on an accepted parent that maps every terminal state of its accepted sub-flow, when a processor of the sub-flow
  throws (`HostStrands`, `HostOverflows`).
* **`isCompatible`** asks for more than a pipeline needs: a step may also leave out a key it both requires and produces
  (`ReplaceableIffStandsIn`).
* **Pipelines used as a step** are checked in strict mode only when all their steps have run: spliced into the outer
  pipeline, the same steps may fail (`SpliceWhenStrict`, `SpliceWhenStrictFails`).
* **`migrationOrder`** reads a node named with the empty string as "no node found" and ends there, exactly when the other
  nodes make available what that node requires (`ScheduleIsGreedyIff`, `InterruptedIff`, `EmptyNameInterrupts`).
* **`compileTransition`** reads a property of `undefined` when the two ends are under different roots and the target's
  root has entry actions; the model returns `ThrowsTypeError`, exactly then (`ThrowsIffForeignRoot`, `ForeignRootThrows`).

## Model

| member | source | states |
|---|---|---|
| DataFlowProofs.VisitCompletes | lang/ts/src/flow-definition.ts:492-549 | after a visit the state is recorded, and for every edge of every state it changed the target is recorded and each need the state and the edge leave unmet is reported; with the intersection the target holds no more than the state and the edge provide |
| DataFlowProofs.VisitSound | lang/ts/src/flow-definition.ts:492-549 | every key a recorded set lacks has a path that provides it nowhere, and every error is justified by such a path; kept by each call whatever the join |
| DataFlowProofs.RecordsReachedStates | lang/ts/src/flow-definition.ts:486-549 | the states with a recorded set are exactly those some path reaches |
| DataFlowProofs.NeverBelowMeet | lang/ts/src/flow-definition.ts:492-549 | a key provided on every path to a state is in the recorded set, with either join |
| DataFlowProofs.ExactIffEdgeConsistent | lang/ts/src/flow-definition.ts:498-509 | with either join the result is the meet over all paths if and only if it passes the check of one edge at a time |
| DataFlowProofs.IntersectionIsExact | lang/ts/src/flow-definition.ts:501-509 | with the join the comment describes, the traversal ends with the meet over all paths, on cyclic graphs too |
| DataFlowProofs.WrittenContainsIntersection | lang/ts/src/flow-definition.ts:498-500 | the early return can only leave sets larger |
| DataFlowProofs.AcceptsIffNeedsMet | lang/ts/src/flow-definition.ts:511-537 | no error is pushed, against any intermediate set, if and only if the final sets meet every need |
| DataFlowProofs.NoFalseAlarm | lang/ts/src/flow-definition.ts:511-537 | each error of the analysis, with either join, comes with a path from the initial state to its transition on which nothing provides the key |
| DataFlowProofs.IntersectionAcceptsIffPathsProvide | lang/ts/src/flow-definition.ts:486-549 | with the intersection, acceptance means exactly that every need is provided before it is used on every path |
| DataFlowProofs.WrittenAcceptsIffPathsProvide | lang/ts/src/flow-definition.ts:498-500 | as written, the same holds whenever the final map passes the one-edge check |
| DataFlowProofs.IntersectionIsComplete | lang/ts/src/flow-definition.ts:486-549 | the intersection accepts if and only if any map passes the one-edge check and meets every need |
| DataFlowProofs.WrittenIsMoreLenient | lang/ts/src/flow-definition.ts:498-500 | whatever the intersection accepts, the written join accepts |
| RequiresProduces.RequiresProducesCheck.CheckFrom | lang/ts/src/flow-definition.ts:492-549 | the recursive method on its mutable map and error list computes the traversal of the model, and ends on every graph: each call that does not return at once shrinks the set of facts still open |
| RequiresProduces.RequiresProducesCheck.CheckTransition | lang/ts/src/flow-definition.ts:511-547 | one iteration: the needs in order, the target, then the error target with the guard's produces |
| RequiresProduces.CheckRequiresProduces | lang/ts/src/flow-definition.ts:486-490 | the errors are those of the analysis with the written join from the initial data |
| CheckMeaning.WrittenAcceptsIffFed | lang/ts/src/flow-definition.ts:511-537 | as written, no error is pushed if and only if the final sets feed every part: a guard from its state and what events are declared to bring, a branch and a processor also from their own guard |
| CheckMeaning.IntersectionAcceptsIffFed | lang/ts/src/flow-definition.ts:492-549 | with the join of the comments, acceptance means exactly that some map of guaranteed keys feeds every part, every target and every error target, in terms of the declarations |
| RequiresProduces.AvailabilityBuilder.Traverse | lang/ts/src/data-flow-graph.ts:458-515 | the second traversal, without error edges, computes the same analysis and ends on every graph |
| RequiresProduces.BuildAvailability | lang/ts/src/data-flow-graph.ts:431-455 | `availableAt` is the map that analysis records |
| AvailabilityMeaning.AvailabilityIsCheck | lang/ts/src/data-flow-graph.ts:458-515 | that map is what the check records on the definition without its error transitions |
| Searches.Explore | lang/ts/src/flow-definition.ts:356-373 | the queue loop marks exactly the states reachable by transitions, exit mappings and error targets |
| Searches.CheckReachability | lang/ts/src/flow-definition.ts:356-380 | reports exactly the non-terminal states that no walk reaches, in declaration order |
| Searches.TerminalSearch.CanReachTerminal | lang/ts/src/flow-definition.ts:427-442 | true only if a terminal state is reachable; false leaves the visited states fully explored and non-terminal, with the visited set shared by all branches of the search |
| Searches.CheckPathToTerminal | lang/ts/src/flow-definition.ts:419-425 | an error if and only if no terminal state is reachable |
| Searches.CycleSearch.HasCycle | lang/ts/src/flow-definition.ts:462-471 | true only if a cycle is reachable; false leaves every visited state finished: closed under the edges and on no cycle |
| Searches.CheckDag | lang/ts/src/flow-definition.ts:444-460 | an error if and only if the auto/branch edges have a cycle, with both sets shared across the roots |
| Searches.StepsAre | lang/ts/src/flow-definition.ts:362-372 | the steps of the first two searches: declared transitions, mapped exits instead of the target for a sub-flow, error targets, and no others |
| Searches.ChainStepsAre | lang/ts/src/flow-definition.ts:445-451 | the edges of the third: automatic transitions and branches, and no others |
| Builder.DeclarationsBuild | lang/ts/src/flow-definition.ts:696-713 | whatever is declared, every label of a branch picks a transition that leads where the label leads |
| BranchArms.LabelPicksItsArm | lang/ts/src/flow-definition.ts:696-713 | for any arms: what is picked for a label leads to the target last declared for it and runs the processor last declared for it |
| BranchArms.DeclaredOnceIsUnshadowed | lang/ts/src/flow-engine.ts:197-223 | where no two automatic or branch declarations leave one state, the engine can take every automatic transition |
| Builder.CheckExternalRequiresDistinct | lang/ts/src/flow-definition.ts:382-417 | reports exactly the states whose external transitions mix the two modes, repeat a trigger or repeat a requires set |
| Builder.CheckAutoExternalConflict | lang/ts/src/flow-definition.ts:551-560 | reports exactly the states with both an automatic and an external transition |
| Builder.CheckTransitions | lang/ts/src/flow-definition.ts:562-568 | reports exactly the transitions out of terminal states, to unknown branch targets (lines 473-484) or with an unmapped terminal of a sub-flow (lines 595-605) |
| Builder.CheckSubFlowNestingDepth | lang/ts/src/flow-definition.ts:570-580 | accepts exactly definitions whose sub-flows nest no deeper than three below the given depth, in the sense `NestedSubFlows.DepthChecksAgree` gives the recursion |
| Builder.CheckSubFlowCircularRef | lang/ts/src/flow-definition.ts:582-593 | accepts exactly when along every chain of nested definitions the names are pairwise distinct and unvisited |
| Builder.NamesAcceptedIff | lang/ts/src/flow-definition.ts:582-593 | what the recursion with its growing set of names decides, in terms of those chains |
| Builder.Build | lang/ts/src/flow-definition.ts:331-345 | succeeds if and only if reachability, path to a terminal, acyclicity, routing, data flow and the structural conditions all hold |
| Routing.SelectIgnoresOrder | lang/ts/src/flow-engine.ts:373-403 | the selected transition, or the error, is the same for every order of declaration |
| Routing.ExplicitOutcome | lang/ts/src/flow-engine.ts:376-386 | on an accepted state with triggers: ambiguous if and only if two of its triggers are supplied, unmatched if and only if none is |
| Routing.ExplicitSelectedIff | lang/ts/src/flow-engine.ts:376-386 | with triggers: the one selected is the one whose trigger is supplied, when no other position's is |
| Routing.LegacySelectedIff | lang/ts/src/flow-engine.ts:388-402 | without, among several: the one selected is satisfied, and every other satisfied position has a strictly shorter requires list |
| Routing.SingleIsSelected | lang/ts/src/flow-engine.ts:388 | a single external transition without a trigger is selected whatever the event brings |
| Routing.AwaitedKeySelects | lang/ts/src/flow-instance.ts:102-114 | on an accepted state with triggers, any one key of `waitingFor` selects a transition that waits for it |
| Routing.LegacyAlwaysMatches | lang/ts/src/flow-engine.ts:388-395 | without triggers, when every external has a guard, supplying all that `waitingFor` names always matches |
| Routing.LegacyChainIsUnambiguous | lang/ts/src/flow-engine.ts:389-402 | on an accepted state it is never ambiguous when duplicate-free requires lists form an inclusion chain |
| FlowObjects.FlowContext.RestoreFrom | lang/ts/src/flow-context.ts:41-48 | the context is exactly the snapshot again |
| FlowObjects.FlowInstance.TransitionTo | lang/ts/src/flow-instance.ts:128-133 | the new state and entry time; the failure count is reset only when the state changes |
| FlowObjects.FlowInstance.StatePath | lang/ts/src/flow-instance.ts:77-81 | the states from the flow down to its deepest running sub-flow |
| FlowObjects.FlowInstance.WaitingFor | lang/ts/src/flow-instance.ts:102-114 | the triggers, or else the requires, of the external guards of the deepest running sub-flow |
| FlowObjects.InMemoryFlowStore.LoadForUpdate | lang/ts/src/in-memory-flow-store.ts:27-31 | hands out exactly the stored flows that are not completed |
| FlowObjects.OneFlowChanged | lang/ts/src/in-memory-flow-store.ts:33-35 | whatever a call does to one stored flow, every other stored flow is as before and the store stays sound |
| Engine.FlowEngine.HandleError | lang/ts/src/flow-engine.ts:458-499 | the first matching exception route, else the error transition, else completion with TERMINAL_ERROR; equal to the function on values |
| Engine.FlowEngine.TryProcessor | lang/ts/src/flow-engine.ts:200-209 | a processor that throws, or misses a declared key in strict mode, leaves the context as it was and the error routed |
| Engine.FlowEngine.ProcessAccepted | lang/ts/src/flow-engine.ts:123-143 | a failing processor undoes the guard's data too |
| Engine.FlowEngine.TakeTurn | lang/ts/src/flow-engine.ts:180-244 | one iteration of the chain loop, sub-flow transitions first |
| Engine.FlowEngine.ExecuteAutoChain | lang/ts/src/flow-engine.ts:177-247 | the loop computes the chain of the model and returns its exception, sub-flows included |
| Engine.FlowEngine.ExecuteSubFlow | lang/ts/src/flow-engine.ts:249-283 | the child runs on its parent's context; the parent waits, moves where the exit is mapped, or takes its error transition |
| Engine.FlowEngine.TakeSelected | lang/ts/src/flow-engine.ts:114-174 | guard accepted, rejected, expired or throwing, as the function on values |
| Engine.FlowEngine.ResumeSubFlow | lang/ts/src/flow-engine.ts:285-371 | a resume goes to the child of the root flow only, and does not run the transition's processor |
| Engine.FlowEngine.StartFlow | lang/ts/src/flow-engine.ts:54-71 | the whole store, log and call history after a start is the model's next world |
| Engine.FlowEngine.ResumeAndExecute | lang/ts/src/flow-engine.ts:73-175 | the whole store, log and call history after a resume is the model's next world; unknown and completed flows are not found |
| ActionLog.ActionsFollowRecords | lang/ts/src/flow-engine.ts:115-234 | in every run, anything read off a flow's context is what the actions of its regular records have made of the initial data: out of the state left, then into the state entered, in order; none for routed errors, and what a throwing processor put is gone |
| ActionLog.MarksTellMoves | lang/ts/src/flow-engine.ts:212-214 | so a flow carries the mark of the enter action of a state if and only if a regular move led there, and that of an exit action if and only if one led away |
| ActionLog.DataArrivesFirst | lang/ts/src/flow-engine.ts:80-83 | the data of an event enters the context before anything else, over what was there, whether the call comes to anything or not; then the moves of the call act |
| Effects.ErrorTargetIff | lang/ts/src/flow-engine.ts:458-499 | an error goes to the first route whose class its cause is an instance of, under `error:` and the cause; only when none matches by the error transition; nowhere if there is none |
| LawfulRecords.RecordsAreLawful | lang/ts/src/flow-engine.ts:115-247 | in every run, every record follows a declared transition under the name of its processor, guard or branch and label, or is an error routed in that way |
| Timing.EntryIsLastMove | lang/ts/src/flow-instance.ts:128-133 | in every run the entry time of a flow was read from the clock during the last call that moved or started it |
| Timing.EntryWithinCall | lang/ts/src/flow-instance.ts:128-133 | so with a clock that does not run back it lies between the start and the end of that call |
| Timing.DroppedIff | lang/ts/src/flow-engine.ts:86-113 | a resume ends the flow as expired without calling or moving anything if and only if the flow's life time or the timeout of its state has passed |
| Timing.TimeoutCountsFromEntry | lang/ts/src/flow-engine.ts:106-113 | in every run that timeout counts from a reading of the clock during the last call that moved or started the flow |
| Timing.ExpiryIsFixed | lang/ts/src/flow-engine.ts:64-65 | in every run a flow expires its definition's time to live after the call that started it, whatever happens in between |
| SingleMoves.AutomaticMoves | lang/ts/src/flow-engine.ts:197-209 | an automatic transition whose processor returns is taken, in strict mode exactly when every key it declares is in the context afterwards, whoever put it; otherwise the context is as before and the error is routed |
| SingleMoves.BranchMoves | lang/ts/src/flow-engine.ts:209-234 | a branch is asked, the arm picked for its answer runs its processor, and the flow goes where the answer is mapped to |
| SingleMoves.AcceptedMovesFlow | lang/ts/src/flow-engine.ts:115-143 | a flow whose guard accepts and whose processor returns takes the selected transition; where the target waits, it waits there: the context holds what guard, processor, exit and enter actions put, in that order, with one record and the two calls |
| SingleMoves.AcceptedMovesChild | lang/ts/src/flow-engine.ts:299-349 | a sub-flow whose guard accepts takes the selected transition; where the target waits, it waits there, entered by this call, its parent unmoved, with the move recorded under the parent's identifier if a guard was asked |
| RunSafety.ChainSafe | lang/ts/src/flow-engine.ts:177-247 | a chain that starts with the keys guaranteed at its position keeps what is guaranteed where it stops, at any depth of sub-flows, with every component called finding its requires |
| RunSafety.ResumeSafe | lang/ts/src/flow-engine.ts:73-175 | so does a resume of the flow or of its sub-flow, whatever guards, processors and clocks do, if the event brings the keys of the transition it selects |
| RunSafety.RunsAreSafe | lang/ts/src/flow-engine.ts:54-371 | run soundness: with any maps that survive every move the engine makes, in every run every flow holds the keys of the position where it rests and every component called found its requires; in strict mode nothing is assumed of auto processors |
| Headline.AcceptedRunsAreSafe | README.md:162 | the promise, with what the code needs for it: an accepted definition whose final map passes the one-edge check, respects the error routes that can be taken, and asks of each event no more than it brings; with sub-flows, their exits followed and each of them checked alone |
| Headline.AcceptedWithoutErrorRoutes | README.md:162 | without error routes, and with every event bringing all externally provided keys, the intersection join alone makes every run safe, with sub-flows their exits followed and each of them checked alone |
| Headline.FlatIsTheCheck | lang/ts/src/flow-definition.ts:492-549 | without sub-flows, that analysis is the one of `build()`, and nothing is asked of sub-flows |
| Headline.ParentKeptIffRespected | lang/ts/src/flow-definition.ts:511-547 | for a map the checks are content with, what the engine needs on top, sub-flows left out, is exactly that the error routes that can be taken are respected and each event brings what is asked of it |
| Headline.GuaranteedIffRespected | lang/ts/src/flow-definition.ts:511-547 | without sub-flows that is surviving every move of the engine |
| EngineCheck.EngineCheckIsExact | lang/ts/src/flow-engine.ts:177-371 | the analysis of the engine's moves, sub-flows included, accepts a definition if and only if some map of guaranteed keys survives every move |
| EngineCheck.EngineCheckedRunsAreSafe | README.md:162 | every run of definitions that analysis accepts is safe, with sub-flows at any depth |
| CheckExactness.CheckIsEngineCheck | lang/ts/src/flow-definition.ts:492-549 | without sub-flows and error routes, with nothing shadowed and everything declared brought, the intersection join accepts if and only if the analysis of the engine's moves does |
| CheckExactness.PromiseIffCheck | README.md:162 | and then, for a definition that passes the structural checks, if and only if every run supplies every component |
| Headline.VerifierPlusErrorRoutesSuffices | lang/ts/src/flow-definition.ts:486-549 | what the verifier accepts, with all that respected, the analysis of the engine's moves accepts, sub-flows included |
| Realisation.RejectedGoesWrong | README.md:162 | what that analysis rejects goes wrong in some run, with honest components and callers that bring what they owe |
| Realisation.PromiseIffEngineCheck | README.md:162 | for a definition without sub-flows that passes the structural checks: every run is supplied if and only if that analysis accepts |
| Counterexamples.DiamondIsAccepted | lang/ts/src/flow-definition.ts:498-503 | `build()` accepts the diamond; the intersection rejects it |
| Counterexamples.DiamondRunFails | lang/ts/src/flow-definition.ts:498-503 | with honest components, starting it calls a processor that requires X without X |
| Counterexamples.EngineCheckRejectsDiamond | lang/ts/src/flow-definition.ts:501-503 | the analysis of the engine's edges rejects it |
| ErrorEdgeCounterexample.PaymentIsAccepted | lang/ts/src/flow-definition.ts:539-547 | `build()` accepts, and so would the intersection, a definition that counts on guard data after a failure |
| ErrorEdgeCounterexample.PaymentRunFails | lang/ts/src/flow-engine.ts:123-143 | a start and two resumes call a guard without its key, because the roll-back removed it |
| ErrorEdgeCounterexample.EngineCheckRejectsPayment | lang/ts/src/flow-engine.ts:123-143 | the analysis of the engine's edges rejects it |
| TriggerCounterexample.ShopIsAccepted | lang/ts/src/flow-definition.ts:513-515 | `build()` accepts, and so would the intersection, a definition with two triggers in one state whose first target requires the key of the second |
| TriggerCounterexample.NoCallerServesShop | lang/ts/src/flow-definition.ts:513-515 | whatever callers bring with events that select their transitions, some run of it goes wrong |
| TriggerCounterexample.ShopRunFails | lang/ts/src/flow-engine.ts:373-386 | a start and one resume with the first trigger alone call a processor without its key |
| SubFlowEntry.Validate | lang/ts-plugins/src/subflow/guaranteed-subflow-validator.ts:8-34 | the three failures and their order; accepted if and only if the entry is covered; otherwise exactly the missing keys, each once |
| SubFlowEntry.EntryCoveredMeans | lang/ts-plugins/src/subflow/guaranteed-subflow-validator.ts:17-28 | on the graphs two definitions carry, acceptance means that the parent's keys at the state, with the guaranteed ones, cover what the sub-flow declares to be there initially |
| SubFlowComposition.CompositionIff | lang/ts-plugins/src/subflow/guaranteed-subflow-validator.ts:17-28 | a map over the parent's own states, a map of each sub-flow standing alone and accepted entries give a plan for the whole, exactly when the types guaranteed on the side that an entry needs are guaranteed by the parent's state |
| ModularCheck.CheckedApart | lang/ts/src/flow-engine.ts:249-371 | a parent and sub-flows checked apart have a plan together, if each sub-flow's declared initial data is guaranteed where it is entered; each sub-flow may have been put together the same way |
| ModularCheck.ApprovedSubFlowsAreSafe | lang/ts/src/flow-engine.ts:249-371 | the parent approved by itself, each sub-flow by itself and each entry by the validator: the engine check accepts the whole, and every run of it is safe, at any depth of nesting |
| SubFlowExit.UnmappedExitIsDropped | lang/ts/src/flow-engine.ts:349-370 | a sub-flow that ends on a resume leaves its parent in place, with nothing recorded, if and only if its exit is not mapped |
| SubFlowExit.StrandedForever | lang/ts/src/flow-engine.ts:85-100 | a flow with nothing to resume stays in its state in every continuation of the run, and can only expire |
| SubFlowExit.EntryRepeatsIff | lang/ts/src/flow-engine.ts:188-195 | one pass of the loop completes the parent with TERMINAL_ERROR if and only if the sub-flow ran to an unmapped exit, and is then at the same entry again |
| SubFlowExit.OverflowsIffEntriesFail | lang/ts/src/flow-engine.ts:188-195 | where no exit leads back to the entry, the chain overflows without leaving it if and only if each of the remaining entries fails |
| SubFlowCounterexample.ChildIsAccepted | lang/ts/src/flow-definition.ts:331-345 | the sub-flow passes `build()` |
| SubFlowCounterexample.HostIsAccepted | lang/ts/src/flow-definition.ts:536-537 | so does a parent that maps its only terminal state, although the state behind the exit requires a key nobody provides |
| SubFlowCounterexample.HostStrands | lang/ts/src/flow-engine.ts:349-370 | a start and a resume in which the last processor of the sub-flow throws leave the parent stranded |
| SubFlowCounterexample.HostOverflows | lang/ts/src/flow-engine.ts:188-195 | a start in which its first processor throws throws MAX_CHAIN_DEPTH, with the parent completed |
| SubFlowCounterexample.HostRunFails | lang/ts/src/flow-definition.ts:536-537 | with honest components a start and a resume call the processor behind the exit without its key |
| SubFlowCounterexample.EngineCheckRejectsHost | lang/ts/src/flow-engine.ts:349-370 | the analysis of the engine's edges follows the exit and rejects the parent |
| Trails.RunsLeaveTrails | lang/ts/src/flow-engine.ts:177-247 | in every run, the records of each flow form a connected path of moves its definition allows, from its initial state to its current state |
| Lifecycle.CompletedIsFinal | lang/ts/src/in-memory-flow-store.ts:27-31 | no later call changes a completed flow |
| Lifecycle.CompletedForever | lang/ts/src/in-memory-flow-store.ts:27-31 | from its completion on, a flow is the same at the end of every longer run |
| Lifecycle.RunsEndWell | lang/ts/src/flow-engine.ts:458-499 | in every run a completed flow ended in its current terminal state, expired, or with TERMINAL_ERROR |
| Lifecycle.ResumeEnds | lang/ts/src/flow-engine.ts:73-175 | a resume that returns normally leaves no uncompleted flow in a terminal state |
| Lifecycle.FailuresAreStreaks | lang/ts/src/flow-instance.ts:128-137 | the failure count is the number of rejections since the last change of state, counted over the events of the run |
| Lifecycle.FailuresStayBelow | lang/ts/src/flow-engine.ts:146-154 | while a flow is active, the count stays below max(1, maxGuardRetries), if no error transition leads from a state to itself |
| Lifecycle.OccupiedIsReachable | lang/ts/src/flow-definition.ts:356-380 | without exception routes, every state a flow occupies in any run is one the reachability check visits |
| ChainBound.ChainNeverRevisits | lang/ts/src/flow-engine.ts:177-247 | one chain of a definition accepted by `checkDag` visits no state twice, so it makes at most as many steps as there are states, less one |
| ChainBound.OverflowIffAllSteps | lang/ts/src/flow-engine.ts:179-246 | MAX_CHAIN_DEPTH is thrown if and only if every allowed step is made |
| ChainBound.ShortNeverOverflows | lang/ts/src/flow-engine.ts:246 | hence never if no path of automatic moves is longer than `maxChainDepth` |
| ChainBound.AcceptedNeverOverflows | lang/ts/src/flow-engine.ts:246 | which holds of accepted definitions with at most `maxChainDepth` states |
| ChainBound.ChainStopsProperly | lang/ts/src/flow-engine.ts:179-245 | a chain that returns normally stops completed in a terminal state, where nothing automatic leaves, or after a pass of this chain routed an error |
| EventLog.EventLogStoreDecorator.RecordTransition | lang/ts-plugins/src/eventstore/event-log-store-decorator.ts:22-32 | the record is appended to both logs with the next version of its flow, and the counters follow |
| EventLog.EventLogStoreDecorator.AppendCompensation | lang/ts-plugins/src/eventstore/event-log-store-decorator.ts:43-51 | likewise for a compensation, which the decorated store does not see |
| EventLog.EventLogStoreDecorator.EventsForFlow | lang/ts-plugins/src/eventstore/event-log-store-decorator.ts:38-40 | the events of one flow, in order, with versions 1, 2, 3, ... |
| EventLog.VersionsCountUp | lang/ts-plugins/src/eventstore/event-log-store-decorator.ts:22-51 | the versions of each flow are exactly 1 to n, under any interleaving with other flows and compensations |
| EventLog.TransitionsAreRecords | lang/ts-plugins/src/eventstore/event-log-store-decorator.ts:22-32 | the transition events of a flow carry its records, in order: source, target and trigger |
| EventLog.ReplayReadsLast | lang/ts-plugins/src/eventstore/replay-service.ts:13-19 | filtering, sorting and taking the last reads the last transition at or before the version |
| EventLog.ReplayIsStable | lang/ts-plugins/src/eventstore/replay-service.ts:13-19 | replay at a version already written is unchanged by whatever is appended later |
| EventLog.ReplayAtVersion | lang/ts-plugins/src/eventstore/replay-service.ts:13-19 | at any version: where the last transition among the first events of the flow led, and nothing exactly when these are all compensations |
| EventLog.ReplayReconstructsEngine | lang/ts-plugins/src/eventstore/replay-service.ts:13-19 | for any run of the engine and any compensations between its records, replay at the latest version is the flow's current state, once one is recorded |
| EventLog.ProjectionAtVersion | lang/ts-plugins/src/eventstore/replay-service.ts:34-47 | the loop is a fold over the events of the flow up to the version |
| EventLog.ProjectionAppliesFirst | lang/ts-plugins/src/eventstore/replay-service.ts:34-47 | on logs the decorator wrote, that applies the first events of the flow, as many as the version says, compensations included, each once and in order |
| EventLog.ProjectionAgreesWithReplay | lang/ts-plugins/src/eventstore/replay-service.ts:33-48 | folding with "the target of the last transition" is `ReplayService` |
| Pipelines.Build | lang/ts/src/pipeline.ts:184-197 | the errors, step by step |
| Pipelines.AcceptedIffAvailable | lang/ts/src/pipeline.ts:184-197 | accepted if and only if each step's needs are available where it stands |
| PipelineTrace.ErrorsMean | lang/ts/src/pipeline.ts:184-197 | a step and a key are reported if and only if the step needs the key and neither the initial data nor a unit before it gives it |
| PipelineTrace.AcceptedIffAlwaysSupplied | lang/ts/src/pipeline.ts:184-197 | a pipeline of units is accepted if and only if no run of honest units on its initial data calls one without what it needs |
| Pipelines.ExecuteLoop | lang/ts/src/pipeline.ts:88-133 | the loop with its list of completed steps computes the execution of the model |
| Pipelines.AcceptedPipelineIsSafe | lang/ts/src/pipeline.ts:88-145 | an accepted pipeline on its initial data: every step executed, nested or not, finds its requires |
| Pipelines.FailureReportsPrefix | lang/ts/src/pipeline.ts:102-118 | a failure names the step that failed and exactly the steps that succeeded before it |
| PipelineTrace.ExecutionLeavesTrace | lang/ts/src/pipeline.ts:88-145 | finished or failed, the context is the initial data with what each unit run so far put, nested or not, the one that threw included; and what ended it |
| Pipelines.SpliceKeepsAcceptance | lang/ts/src/pipeline.ts:135-145 | putting the steps of an accepted nested pipeline in its place keeps the outer one accepted |
| Pipelines.SpliceKeepsMeaning | lang/ts/src/pipeline.ts:135-145 | and, outside strict mode, changes neither success nor the final context, whatever the steps do |
| Pipelines.SpliceWhenStrict | lang/ts/src/pipeline.ts:113-121 | in strict mode a spliced pipeline that finishes does what the nested one does, and one that finishes nested finishes spliced if and only if each inner step puts its produces by the time it ends |
| Pipelines.SpliceWhenStrictFails | lang/ts/src/pipeline.ts:135-145 | a step that leaves its key to the next one passes nested and fails spliced |
| Pipelines.CompatibleKeepsAcceptance | lang/ts/src/data-flow-graph.ts:107-118 | replacing a step by a compatible one keeps the pipeline accepted |
| Pipelines.ReplaceableIffStandsIn | lang/ts/src/data-flow-graph.ts:107-118 | exactly when one step can replace another in every pipeline, and by how much `isCompatible` is stricter |
| Migration.MigrationOrder | lang/ts/src/data-flow-graph.ts:306-330 | a permutation of the nodes; a greedy schedule followed by the stuck nodes if and only if the loop is not interrupted by the empty name, and when it is |
| Migration.ScheduleIsGreedyIff | lang/ts/src/data-flow-graph.ts:319-329 | what is scheduled one by one is valid, and leaves nothing ready, exactly then |
| Migration.InterruptedIff | lang/ts/src/data-flow-graph.ts:325 | the loop is interrupted if and only if a node has the empty name and what the named nodes make available, scheduled by themselves, is enough for it |
| Migration.EmptyNameInterrupts | lang/ts/src/data-flow-graph.ts:325 | three nodes, one with the empty name, whose order is invalid although a valid one exists |
| Migration.GreedyIsMaximal | lang/ts/src/data-flow-graph.ts:319-329 | no valid order of the same nodes gets past the scheduled ones |
| Migration.ScheduledSetIsUnique | lang/ts/src/data-flow-graph.ts:319-329 | the set of scheduled nodes does not depend on the order of iteration |
| Migration.StuckOnlyIfImpossible | lang/ts/src/data-flow-graph.ts:325 | everything is scheduled if and only if some full valid order exists |
| Hierarchy.FindPath | lang/ts-plugins/src/hierarchy/entry-exit-compiler.ts:79-87 | the shared path holds the way down to the name when found, and is as before when not |
| Hierarchy.PathIsUnique | lang/ts-plugins/src/hierarchy/entry-exit-compiler.ts:71-77 | with unique names, every downward path is the one `pathTo` returns for its end |
| Hierarchy.Synthesize | lang/ts-plugins/src/hierarchy/entry-exit-compiler.ts:50-62 | with unique names the recursion through state names ends and appends the fallbacks of the model |
| Hierarchy.BubblingIsInheritance | lang/ts-plugins/src/hierarchy/entry-exit-compiler.ts:129-152 | a fallback is emitted for a state and trigger if and only if the state has no handler of its own and it copies a transition of its nearest proper ancestor that handles the trigger |
| Hierarchy.LcaIsDeepestCommon | lang/ts-plugins/src/hierarchy/entry-exit-compiler.ts:89-99 | the paths agree up to the index found and share no state below it |
| Hierarchy.CompileTransition | lang/ts-plugins/src/hierarchy/entry-exit-compiler.ts:12-48 | the exits innermost first, then the entries outermost first, or the type error |
| Hierarchy.CompiledMembers | lang/ts-plugins/src/hierarchy/entry-exit-compiler.ts:20-45 | with both ends under one root: exactly the states left exit and the states entered enter, each from, to, under and with what the source says |
| Hierarchy.CompiledInOrder | lang/ts-plugins/src/hierarchy/entry-exit-compiler.ts:20-45 | and in which order: one exit for each state left that declares actions, innermost first, then one entry for each state entered, outermost first, each from its parent |
| Hierarchy.ThrowsIffForeignRoot | lang/ts-plugins/src/hierarchy/entry-exit-compiler.ts:33-45 | the type error occurs if and only if both ends are found, under roots of different names, and the root entered declares entry actions |
| Hierarchy.ForeignRootThrows | lang/ts-plugins/src/hierarchy/entry-exit-compiler.ts:33-45 | two roots, the second with entry actions: the type error |
| Hierarchy.EntriesLeaveParents | lang/ts-plugins/src/hierarchy/entry-exit-compiler.ts:33-45 | each entry leaves from the parent of its state |
| SubFlowInstances.SubFlowAdapterInstance.RunAutoChain | lang/rust/src/sub_flow.rs:299-388 | the loop on an instance that owns its child computes the chain of the model |
| SubFlowInstances.SubFlowAdapterInstance.Start | lang/rust/src/sub_flow.rs:200-207 | a start computes the start of the model, at any depth of nesting |
| SubFlowInstances.SubFlowAdapterInstance.ResumeWithExternalTypes | lang/rust/src/sub_flow.rs:213-295 | the active child is taken out, resumed, and put back unless it completed; the tree of instances is the model's |
| SubFlowInstances.SubFlowAdapterInstance.StatePathOf | lang/rust/src/sub_flow.rs:168-174 | the states from the instance down to its deepest child |
| NestedSubFlows.StartAnchored | lang/rust/src/sub_flow.rs:200-207 | after a start, an active child sits at the sub-flow transition that created it, at every level, and no guard can have rejected |
| NestedSubFlows.ResumeAnchored | lang/rust/src/sub_flow.rs:213-295 | the same after any resume |
| NestedSubFlows.ResumeAsksDeepest | lang/rust/src/sub_flow.rs:222-257 | a resume asks at most one guard, and it is one of the deepest active instance in its state |
| NestedSubFlows.RejectionCountsDeepest | lang/rust/src/sub_flow.rs:279-285 | a rejection changes the failure count of the deepest instance and nothing else |
| InstanceTrails.AcceptedTakesTransition | lang/rust/src/sub_flow.rs:222-295 | when the guard accepts and the processor returns, the deepest instance takes the selected transition to its target, and every state it and its parents are in afterwards is linked from there |
| InstanceTrails.AcceptedReplacesLast | lang/rust/src/sub_flow.rs:259-295 | where that target waits for another event, only the last entry of the state path changes, and the context holds what the guard and the processor put |
| InstanceTrails.FailedProcessorEnds | lang/rust/src/sub_flow.rs:271-275 | when the processor throws, the instance ends in its error target or where it is, with the exit that follows, and nothing is rolled back |
| InstanceTrails.AutomaticMoves | lang/rust/src/sub_flow.rs:299-388 | an automatic transition of an instance: the context keeps what its processor puts, and the instance waits in the target if that waits |
| InstanceTrails.BranchMoves | lang/rust/src/sub_flow.rs:299-388 | a branch of an instance leads where its answer is mapped to, without running a processor |
| InstanceTrails.RunsStayOnTrail | lang/rust/src/sub_flow.rs:200-388 | after a start and any sequence of resumes every instance is in a state that moves of its definition lead to from its initial state |
| NestedSubFlows.PathWithinDepth | lang/rust/src/sub_flow.rs:91-101 | the state path is never longer than the nesting depth |
| NestedSubFlows.RunsStayWithinDepth | lang/rust/src/sub_flow.rs:91-388 | after a start and any sequence of resumes, each with any data entering the context first, the state path is within the nesting depth |
| NestedSubFlows.DepthChecksAgree | lang/rust/src/definition.rs:1421-1444 | the recursive count of the TypeScript validator and the maximum of the Rust one accept the same definitions |
| RootFlows.RunsStayAnchored | lang/rust/src/engine.rs:148-531 | in every run of starts and resumes, an active sub-flow of a root flow sits at the transition that created it, and so does every instance below |
| RootFlows.RunsStayShort | lang/rust/src/engine.rs:148-531 | in every run the state path of a flow is within the nesting depth of its definition, and has at most four entries if the definition was validated |
| RootTrails.AcceptedRootMoves | lang/rust/src/engine.rs:181-400 | when the guard accepts and the processor returns, a root flow first takes the transition to its target, with the actions of both states; everything after starts there |
| RootTrails.AcceptedRootWaits | lang/rust/src/engine.rs:181-400 | where the target waits for another event the flow waits there, its entry time that of the call, its context with what guard, processor, exit and enter actions put |
| RootTrails.AutomaticRootMoves | lang/rust/src/engine.rs:534-700 | an automatic transition of a root flow, verified in strict mode as in the TypeScript engine |
| RootTrails.AcceptedBelowReplacesLast | lang/rust/src/engine.rs:473-531 | where a running sub-flow accepts and its target waits, only the last entry of the state path changes |
| RootTrails.RootRunsStayOnTrail | lang/rust/src/engine.rs:148-531 | in every run each root flow has moved along its definition from its initial state, and anything read off its context is what the actions of those moves have made of the initial data |

## Left out

- Loggers, telemetry, durations, `lastError`, versions and per-guard failure counts: they decide nothing the model states.
- Enter and exit actions and the store are total: an exception thrown inside them is not modelled. Actions may add and
  overwrite keys.
- One step of the engine sees one value of the counter, so the readings of the clock inside a step come from one instant;
  across steps the clock is arbitrary, it need not even be monotone. Calls on one engine do not overlap.
- A flow is resumed with the definition it was started with.
- Exit names and state names are both strings, as in the source, so an exit may coincide with the name of a state.
- Empty state names, which the source treats as absent in `if (errorTarget)`, are ordinary names here.
- `Trails`, `Lifecycle`, `ChainBound`, `Effects`, `ActionLog`, `LawfulRecords`, `Timing` and `Realisation` are about definitions
  without sub-flows. Sub-flows are covered by
  `RunSafety`, `EngineCheck`, `Headline`, the modules named after them, and the engine methods.
- `RootFlows` models the Rust engine's root flow on values: update in place is shown on its TypeScript counterpart and on the
  sub-flow instances.
- AcceptedRunsAreSafe: holds under conditions the README line does not mention, because without them it is false; the
  counterexamples are concrete.
- CheckIsEngineCheck: without error routes, because the check follows them otherwise than the engine (`PaymentIsAccepted`), and
  with nothing shadowed, because the check also asks for what a transition needs that is never taken.
- ActionsFollowRecords: components named `error`, or `error:` and more, are excluded, because their records read like routed
  errors; likewise processors that write what is watched, because records do not say which processor of a branch has run.
- RootRunsStayOnTrail: likewise; and what is watched is left alone by throwing processors too, because sub-flow instances keep
  what these put.
- AcceptedIffAlwaysSupplied: for units with names of their own, because a unit's behaviour is looked up by its name.
- PromiseIffEngineCheck: without sub-flows, because with them the graph also follows moves that need not occur in a run: a
  parent rests in a state that enters a sub-flow only if an exit is dropped there or the depth limit is met, which depends
  on how many steps a chain has taken. A rejection may then be undeserved.
- CompositionIff: assumes that processors of a sub-flow's external transitions produce nothing, because a resume of the
  sub-flow does not run them.
- OverflowsIffEntriesFail: assumes that no exit of the sub-flow is mapped to the state that enters it, because the chain may
  then stay in that state without an entry failing.
- RejectedGoesWrong: assumes that each external transition is selected by its own keys, because a transition nobody can
  select is never taken; likewise a negative time to live expires every flow before its first event.
- FailuresStayBelow: assumes that no error transition leads from a state to itself, because then the count is not reset.
- ChainStopsProperly: includes stopping after an error was routed to a non-terminal state, because the chain returns there.
- BubblingIsInheritance: assumes unique state names, because with a repeated name the recursion need not end.
- CompiledMembers: both ends under one root; otherwise the source may throw, which `Compile` models.
- CompiledInOrder: likewise.
- Producers, consumers and the reports of the data-flow graph built from them; only `availableAt`, `isCompatible` and the
  greedy order of `migrationOrder` on given nodes are modelled.
- The alias registry of the context, JSON forms, stored snapshots and timestamps of events.
- The Java and Rust mirrors of the verifier and the engine: they repeat the same algorithms. Of Rust only the root
  flow and the nested sub-flow instances are modelled, and there guards and branches may also fail, which the Rust signatures do not allow.
- `withPlugin`, plugin registries, idempotency, audit, generators, diagrams, user interfaces and scripts.
