# Lifecycle component model

This project models the lifecycle orchestration of Elasticsearch's
`AbstractLifecycleComponent`. The component is a four-state machine
(`INITIALIZED`, `STARTED`, `STOPPED`, `CLOSED`). It keeps an ordered
registry of lifecycle listeners and runs three operations. Each one checks
a guard, notifies every listener "before", calls the subclass hook
(`doStart`, `doStop`, `doClose`) and commits the new state in an order of
its own, then notifies every listener "after".

Files:

- `lifecycle.dfy` (module `Lifecycle`): the `State` datatype and the guard
  predicates `CanMoveToStarted`, `CanMoveToStopped`, `CanMoveToClosed` and
  `IsStarted`. `Lifecycle.java` is not part of this model, so these guards
  are an assumed transition table, stated on their own. Start is allowed
  from Initialized or Stopped. Stop is allowed from Started. Close is
  allowed from every state but Closed. `Legal` lists the legal transitions
  pair by pair, and a lemma ties the guards to it.
- `component.dfy` (module `LifecycleComponent`): the class `Component`. Its
  fields are `state`, `listeners: seq<ListenerId>` and a ghost `trace` of
  events. An event is a listener delivery, a hook call or a state commit.
  Each method is proved against a specification function of the state and
  listeners it starts from: `StartRun`, `StopRun`, `CloseRun` (built from
  `StopRun` and `CloseOwnRun`). The dispatch loop `Notify` walks a snapshot
  of the registry taken when the loop begins, and is proved against the
  recursive function `Dispatch`.
- `properties.dfy` (module `LifecycleProperties`): lemmas about the
  registry, the dispatch loop and the order of effects of each operation.

What the component calls out to is a parameter `Env`, given to each
operation. It holds the set of `(callback, listener)` pairs that throw. It
also says how each hook ends: `doStart` and `doStop` return or throw, and
`doClose` returns, throws its declared `IOException`, or throws an
unchecked exception. An `Outcome` of `Normal` or `Threw(failure)` stands
for Java's normal return or a propagating exception.

Two points of the code shape the model:

- Close absorbs only an `IOException` from `doClose`
  (AbstractLifecycleComponent.java:114-120). A listener exception in
  `beforeClose` or `afterClose`, an unchecked exception from `doClose` and
  a failure in the nested `stop()` all propagate
  (`CloseOwnReturnsNormallyIff`, `CloseUncheckedHookFailure`,
  `CloseStopFailurePropagates`).
- `stop` commits STOPPED before calling `doStop` (lines 93-94), so a
  failing `doStop` leaves the component Stopped
  (`StopHookFailureLeavesStopped`). `start` commits only after `doStart`
  returns (lines 73-75).

## Model

| member | source | states |
|---|---|---|
| Lifecycle.GuardsMatchLegalTransitions | core/src/main/java/org/elasticsearch/common/component/AbstractLifecycleComponent.java:33 | the assumed guards admit exactly the legal transitions into each target; nothing leaves Closed and nothing returns to Initialized |
| LifecycleComponent.FirstIndex | core/src/main/java/org/elasticsearch/common/component/AbstractLifecycleComponent.java:57 | the index returned holds the listener and no earlier entry does |
| LifecycleComponent.RemoveFirst | core/src/main/java/org/elasticsearch/common/component/AbstractLifecycleComponent.java:56-58 | removing an unregistered listener leaves the registry as it is; removing a registered one shortens it by exactly one |
| LifecycleComponent.Deliveries | core/src/main/java/org/elasticsearch/common/component/AbstractLifecycleComponent.java:69-71 | one delivery per listener, at the listener's own position in the list |
| LifecycleComponent.Dispatch | core/src/main/java/org/elasticsearch/common/component/AbstractLifecycleComponent.java:69-71 | a dispatch loop never delivers more callbacks than there are listeners |
| LifecycleComponent.StartRun | core/src/main/java/org/elasticsearch/common/component/AbstractLifecycleComponent.java:62-80 | start leaves the state alone or moves it to Started, and only along a legal transition |
| LifecycleComponent.StopRun | core/src/main/java/org/elasticsearch/common/component/AbstractLifecycleComponent.java:86-98 | stop leaves the state alone or moves it to Stopped, and only along a legal transition |
| LifecycleComponent.CloseOwnRun | core/src/main/java/org/elasticsearch/common/component/AbstractLifecycleComponent.java:107-123 | the close proper leaves the state alone or moves it legally to Closed; when it returns normally the state is Closed |
| LifecycleComponent.CloseRun | core/src/main/java/org/elasticsearch/common/component/AbstractLifecycleComponent.java:103-124 | close changes the state only along a legal transition; a close that returns normally leaves the component Closed |
| LifecycleComponent.Component.constructor | core/src/main/java/org/elasticsearch/common/component/AbstractLifecycleComponent.java:33-35 | a new component is Initialized, has no listeners and has recorded nothing |
| LifecycleComponent.Component.LifecycleState | core/src/main/java/org/elasticsearch/common/component/AbstractLifecycleComponent.java:46-48 | returns the current state |
| LifecycleComponent.Component.AddLifecycleListener | core/src/main/java/org/elasticsearch/common/component/AbstractLifecycleComponent.java:51-53 | the registry afterwards is the old one with the listener appended |
| LifecycleComponent.Component.RemoveLifecycleListener | core/src/main/java/org/elasticsearch/common/component/AbstractLifecycleComponent.java:56-58 | the registry afterwards is `RemoveFirst` of the old one |
| LifecycleComponent.Component.Notify | core/src/main/java/org/elasticsearch/common/component/AbstractLifecycleComponent.java:69-71 | the loop over a snapshot of the registry appends exactly the deliveries of `Dispatch` to the trace and ends as `Dispatch` does |
| LifecycleComponent.Component.Start | core/src/main/java/org/elasticsearch/common/component/AbstractLifecycleComponent.java:62-80 | new state, appended trace and outcome are those of `StartRun` on the old state; the registry is unchanged |
| LifecycleComponent.Component.Stop | core/src/main/java/org/elasticsearch/common/component/AbstractLifecycleComponent.java:86-98 | new state, appended trace and outcome are those of `StopRun` on the old state |
| LifecycleComponent.Component.Close | core/src/main/java/org/elasticsearch/common/component/AbstractLifecycleComponent.java:103-106 | new state, appended trace and outcome are those of `CloseRun`; the nested stop runs only when Started, and a throwing stop ends the close |
| LifecycleComponent.Component.CloseOwn | core/src/main/java/org/elasticsearch/common/component/AbstractLifecycleComponent.java:107-123 | new state, appended trace and outcome are those of `CloseOwnRun` |
| LifecycleProperties.RemoveFirstDropsFirstOccurrence | core/src/main/java/org/elasticsearch/common/component/AbstractLifecycleComponent.java:56-58 | removal drops exactly the first occurrence; the entries before and after it keep their order |
| LifecycleProperties.RemoveFirstMultiset | core/src/main/java/org/elasticsearch/common/component/AbstractLifecycleComponent.java:56-58 | removal takes away one copy of the listener and nothing else |
| LifecycleProperties.AddThenRemoveRestores | core/src/main/java/org/elasticsearch/common/component/AbstractLifecycleComponent.java:51-58 | adding a new listener and then removing it restores the registry |
| LifecycleProperties.DispatchReturnsIff | core/src/main/java/org/elasticsearch/common/component/AbstractLifecycleComponent.java:69-71 | a dispatch loop returns normally if and only if no listener's callback throws |
| LifecycleProperties.DispatchDeliversAll | core/src/main/java/org/elasticsearch/common/component/AbstractLifecycleComponent.java:69-71 | with no throwing callback, every listener is notified once, in list order |
| LifecycleProperties.DispatchStopsAtFirstThrower | core/src/main/java/org/elasticsearch/common/component/AbstractLifecycleComponent.java:69-71 | the first throwing listener and all before it are notified, none after it, and its exception propagates |
| LifecycleProperties.DispatchDeliversOnly | core/src/main/java/org/elasticsearch/common/component/AbstractLifecycleComponent.java:69-71 | a dispatch loop records only deliveries of its own callback |
| LifecycleProperties.StartRejectedRecordsNothing | core/src/main/java/org/elasticsearch/common/component/AbstractLifecycleComponent.java:65-67 | when the start guard is false, no listener is notified, doStart is not called and the state is unchanged |
| LifecycleProperties.StartSuccessTrace | core/src/main/java/org/elasticsearch/common/component/AbstractLifecycleComponent.java:69-79 | a successful start records beforeStart for each listener in order, doStart, the commit to Started, then afterStart for each listener in order |
| LifecycleProperties.StartReturnsNormallyIff | core/src/main/java/org/elasticsearch/common/component/AbstractLifecycleComponent.java:69-79 | an accepted start returns normally if and only if no before or after callback throws and doStart returns |
| LifecycleProperties.StartCommitsIffHookReturns | core/src/main/java/org/elasticsearch/common/component/AbstractLifecycleComponent.java:69-75 | an accepted start commits Started if and only if every beforeStart and doStart returned, and the commit directly follows the doStart call |
| LifecycleProperties.StartEarlyFailureKeepsState | core/src/main/java/org/elasticsearch/common/component/AbstractLifecycleComponent.java:69-75 | a throwing beforeStart or doStart keeps the old state, so a retry is attempted; no commit and no afterStart is recorded; a throwing listener also prevents the doStart call |
| LifecycleProperties.StopRejectedRecordsNothing | core/src/main/java/org/elasticsearch/common/component/AbstractLifecycleComponent.java:87-89 | a stop from Initialized, Stopped or Closed records nothing and changes nothing |
| LifecycleProperties.StopSuccessTrace | core/src/main/java/org/elasticsearch/common/component/AbstractLifecycleComponent.java:90-97 | a successful stop records beforeStop for each listener, the commit to Stopped, doStop, then afterStop for each listener |
| LifecycleProperties.StopHookFailureLeavesStopped | core/src/main/java/org/elasticsearch/common/component/AbstractLifecycleComponent.java:90-97 | stop commits before doStop: a throwing doStop leaves the state Stopped and delivers no afterStop |
| LifecycleProperties.StopReturnsNormallyIff | core/src/main/java/org/elasticsearch/common/component/AbstractLifecycleComponent.java:90-97 | an accepted stop returns normally if and only if no beforeStop or afterStop callback throws and doStop returns |
| LifecycleProperties.StopCommitsIffBeforeListenersReturn | core/src/main/java/org/elasticsearch/common/component/AbstractLifecycleComponent.java:90-94 | an accepted stop commits Stopped if and only if every beforeStop returned; otherwise the state is unchanged and doStop is not called |
| LifecycleProperties.CloseFromStartedTrace | core/src/main/java/org/elasticsearch/common/component/AbstractLifecycleComponent.java:104-123 | closing a started component records the complete stop sequence before the first beforeClose, then the close sequence |
| LifecycleProperties.CloseStopFailurePropagates | core/src/main/java/org/elasticsearch/common/component/AbstractLifecycleComponent.java:104-106 | a stop that throws inside close ends the close: no beforeClose is delivered and the state is not Closed |
| LifecycleProperties.CloseCommitsBeforeHook | core/src/main/java/org/elasticsearch/common/component/AbstractLifecycleComponent.java:110-123 | from any state the close guard admits, once every beforeClose returned the commit to Closed precedes doClose, and afterClose is dispatched after a doClose that returns or throws an IOException |
| LifecycleProperties.CloseFromStartedCommitsBeforeHook | core/src/main/java/org/elasticsearch/common/component/AbstractLifecycleComponent.java:104-123 | from Started with a nested stop that returned, the stop events precede beforeClose, the commit to Closed precedes doClose, and the afterClose loop decides the outcome even when an afterClose listener throws |
| LifecycleProperties.CloseOwnReturnsNormallyIff | core/src/main/java/org/elasticsearch/common/component/AbstractLifecycleComponent.java:107-123 | an accepted close proper returns normally if and only if no beforeClose or afterClose callback throws and doClose throws no unchecked exception |
| LifecycleProperties.CloseUncheckedHookFailure | core/src/main/java/org/elasticsearch/common/component/AbstractLifecycleComponent.java:113-116 | an unchecked exception from doClose propagates after the commit: the state is Closed and no afterClose is delivered |
| LifecycleProperties.CloseBeforeListenerFailureKeepsState | core/src/main/java/org/elasticsearch/common/component/AbstractLifecycleComponent.java:110-113 | a throwing beforeClose propagates before the commit: state unchanged, doClose not called, no afterClose |
| LifecycleProperties.CloseAbsorbsIOException | core/src/main/java/org/elasticsearch/common/component/AbstractLifecycleComponent.java:114-120 | a close whose doClose throws an IOException has the same state, trace and outcome as one whose doClose returns |
| LifecycleProperties.ClosedIsInert | core/src/main/java/org/elasticsearch/common/component/AbstractLifecycleComponent.java:62-124 | from Closed, start, stop and close record nothing and change nothing |
| LifecycleProperties.SecondCloseRecordsNothing | core/src/main/java/org/elasticsearch/common/component/AbstractLifecycleComponent.java:107-109 | a close after one that returned normally records nothing, whatever the listeners and hooks do |

## Left out

- Constructors taking `Settings` and the `AbstractComponent` plumbing (lines 37-43): configuration and logger setup with no lifecycle logic. The unnamed `Component` constructor stands for the initial state only.
- The `logger.warn` call on an absorbed `IOException` (line 119): logging is I/O. Only the absorption is modelled.
- Concurrency: the thread safety of `CopyOnWriteArrayList` and of the commits in `Lifecycle.java`. The model is single-threaded. Listeners cannot register or unregister during a callback, and hooks cannot re-enter the component.
- Notify: walks a snapshot of the registry taken when the loop begins (line 69), but since nothing can change the registry during the loop the snapshot always equals `listeners`; the copy-on-write isolation of a dispatch from concurrent registration is not captured.
- The bodies of `doStart`, `doStop` and `doClose`: they are abstract and supplied by subclasses. Their outcomes are the `Env` parameter.
- `Lifecycle.java` is not part of this model. Its guards are the assumed table in `lifecycle.dfy`. In particular the model does not capture whether a guard throws `IllegalStateException` on `CLOSED`, and does not model the boolean results of `moveToStarted`, `moveToStopped` and `moveToClosed` (the source ignores them, and in the single-threaded model each commit follows a guard that held).
- Listener behaviour is keyed by listener identity and callback. A listener registered twice throws, or does not throw, at both of its positions alike.
- `Close` is split at the nested stop into `Close` and `CloseOwn`. The source has one method; the split keeps each proof small and does not change the order of effects.
