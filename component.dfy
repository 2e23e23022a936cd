/**
  The lifecycle component: a lifecycle state, an ordered registry of
  listeners, and the start / stop / close orchestration that runs a
  guard, the "before" notifications, a subclass hook with the state
  commit, and the "after" notifications.

  The subclass hooks and the listener callbacks are opaque: an `Env`
  says, for one call, which callbacks throw and how each hook ends.
  A ghost trace records every delivery, hook call and commit, in order.
 */
module LifecycleComponent {
  import opened Lifecycle

  /** A registered listener, compared by identity. */
  type ListenerId = nat

  /** The six listener callbacks. */
  datatype Notice =
    | BeforeStart | AfterStart
    | BeforeStop | AfterStop
    | BeforeClose | AfterClose

  /** The subclass hooks. */
  datatype Hook = DoStart | DoStop | DoClose

  /** One observable step of an operation. */
  datatype Event =
    | Notified(notice: Notice, listener: ListenerId)
    | HookCalled(hook: Hook)
    | Committed(state: State)

  /** What an exception that leaves an operation came from. */
  datatype Failure =
    | ListenerThrew(notice: Notice, listener: ListenerId)
    | HookThrew(hook: Hook)

  /** How an operation ends: it returns, or an exception propagates. */
  datatype Outcome = Normal | Threw(failure: Failure)

  /** How `doStart` or `doStop` ends. */
  datatype HookResult = Returns | Throws

  /** How `doClose` ends: it may also throw the IOException it declares. */
  datatype CloseHookResult = CloseReturns | CloseThrowsIO | CloseThrowsUnchecked

  /** The behaviour of everything the component calls out to during one operation. */
  datatype Env = Env(
    throwing: set<(Notice, ListenerId)>,
    doStart: HookResult,
    doStop: HookResult,
    doClose: CloseHookResult)

  /** The effect of one operation: the new state, the events it
      recorded and how it ended. */
  datatype Run = Run(state: State, events: seq<Event>, outcome: Outcome)

  /** The effect of one dispatch loop. */
  datatype Dispatched = Dispatched(events: seq<Event>, outcome: Outcome)

  // ---------------------------------------------------------------------
  // The listener registry

  /** Index of the first occurrence of `l` in `ls`. */
  function FirstIndex(ls: seq<ListenerId>, l: ListenerId): (i: nat)
    requires l in ls
    ensures i < |ls| && ls[i] == l
    ensures l !in ls[..i]
  {
    if ls[0] == l then 0 else 1 + FirstIndex(ls[1..], l)
  }

  /** `List.remove(Object)`: drop the first occurrence of `l`, if any. */
  function RemoveFirst(ls: seq<ListenerId>, l: ListenerId): (r: seq<ListenerId>)
    ensures l !in ls ==> r == ls
    ensures l in ls ==> |r| == |ls| - 1
  {
    if ls == [] then []
    else if ls[0] == l then ls[1..]
    else [ls[0]] + RemoveFirst(ls[1..], l)
  }

  // ---------------------------------------------------------------------
  // Listener dispatch

  /** No listener of `ls` throws from callback `n`. */
  predicate NoneThrow(n: Notice, ls: seq<ListenerId>, throwing: set<(Notice, ListenerId)>) {
    forall i :: 0 <= i < |ls| ==> (n, ls[i]) !in throwing
  }

  /** Callback `n` delivered to every listener of `ls`, in list order. */
  function Deliveries(n: Notice, ls: seq<ListenerId>): (r: seq<Event>)
    ensures |r| == |ls|
    ensures forall i :: 0 <= i < |ls| ==> r[i] == Notified(n, ls[i])
  {
    if ls == [] then [] else [Notified(n, ls[0])] + Deliveries(n, ls[1..])
  }

  /** A `for` loop that calls `n` on each listener of `ls`: a throwing
      callback ends the loop and its exception propagates. */
  function Dispatch(n: Notice, ls: seq<ListenerId>, throwing: set<(Notice, ListenerId)>): (r: Dispatched)
    ensures |r.events| <= |ls|
    decreases |ls|
  {
    if ls == [] then Dispatched([], Normal)
    else if (n, ls[0]) in throwing then
      Dispatched([Notified(n, ls[0])], Threw(ListenerThrew(n, ls[0])))
    else
      var rest := Dispatch(n, ls[1..], throwing);
      Dispatched([Notified(n, ls[0])] + rest.events, rest.outcome)
  }

  // ---------------------------------------------------------------------
  // What one operation does, from the state and listeners it starts with

  /** `start()`: guard, beforeStart, doStart, commit to Started, afterStart. */
  function StartRun(s: State, ls: seq<ListenerId>, env: Env): (r: Run)
    ensures r.state == s || (Legal(s, Started) && r.state == Started)
  {
    if !CanMoveToStarted(s) then Run(s, [], Normal)
    else
      var before := Dispatch(BeforeStart, ls, env.throwing);
      if before.outcome.Threw? then Run(s, before.events, before.outcome)
      else
        var called := before.events + [HookCalled(DoStart)];
        if env.doStart == Throws then Run(s, called, Threw(HookThrew(DoStart)))
        else
          var after := Dispatch(AfterStart, ls, env.throwing);
          Run(Started, called + [Committed(Started)] + after.events, after.outcome)
  }

  /** `stop()`: guard, beforeStop, commit to Stopped, doStop, afterStop. */
  function StopRun(s: State, ls: seq<ListenerId>, env: Env): (r: Run)
    ensures r.state == s || (Legal(s, Stopped) && r.state == Stopped)
  {
    if !CanMoveToStopped(s) then Run(s, [], Normal)
    else
      var before := Dispatch(BeforeStop, ls, env.throwing);
      if before.outcome.Threw? then Run(s, before.events, before.outcome)
      else
        var called := before.events + [Committed(Stopped), HookCalled(DoStop)];
        if env.doStop == Throws then Run(Stopped, called, Threw(HookThrew(DoStop)))
        else
          var after := Dispatch(AfterStop, ls, env.throwing);
          Run(Stopped, called + after.events, after.outcome)
  }

  /** The part of `close()` after the nested stop: guard, beforeClose,
      commit to Closed, doClose (an IOException is absorbed), afterClose. */
  function CloseOwnRun(s: State, ls: seq<ListenerId>, env: Env): (r: Run)
    ensures r.state == s || (Legal(s, Closed) && r.state == Closed)
    ensures r.outcome == Normal ==> r.state == Closed
  {
    if !CanMoveToClosed(s) then Run(s, [], Normal)
    else
      var before := Dispatch(BeforeClose, ls, env.throwing);
      if before.outcome.Threw? then Run(s, before.events, before.outcome)
      else
        var called := before.events + [Committed(Closed), HookCalled(DoClose)];
        if env.doClose == CloseThrowsUnchecked then Run(Closed, called, Threw(HookThrew(DoClose)))
        else
          var after := Dispatch(AfterClose, ls, env.throwing);
          Run(Closed, called + after.events, after.outcome)
  }

  /** `close()`: a full stop first when started; a stop that throws ends the close. */
  function CloseRun(s: State, ls: seq<ListenerId>, env: Env): (r: Run)
    ensures r.state == s || Legal(s, r.state)
    ensures r.outcome == Normal ==> r.state == Closed
  {
    if !IsStarted(s) then CloseOwnRun(s, ls, env)
    else
      var stop := StopRun(s, ls, env);
      if stop.outcome.Threw? then stop
      else
        var own := CloseOwnRun(stop.state, ls, env);
        Run(own.state, stop.events + own.events, own.outcome)
  }

  // ---------------------------------------------------------------------
  // The component object

  class Component {
    var state: State
    var listeners: seq<ListenerId>
    ghost var trace: seq<Event>

    /** A new component is Initialized, with no listeners and nothing recorded. */
    constructor ()
      ensures state == Initialized && listeners == [] && trace == []
    {
      state := Initialized;
      listeners := [];
      trace := [];
    }

    /** `lifecycleState()`. */
    method LifecycleState() returns (s: State)
      ensures s == state
    {
      s := state;
    }

    /** `addLifecycleListener`: append one entry, keep the others in place. */
    method AddLifecycleListener(l: ListenerId)
      modifies this`listeners
      ensures listeners == old(listeners) + [l]
    {
      listeners := listeners + [l];
    }

    /** `removeLifecycleListener`: drop the first occurrence of `l`. */
    method RemoveLifecycleListener(l: ListenerId)
      modifies this`listeners
      ensures listeners == RemoveFirst(old(listeners), l)
    {
      listeners := RemoveFirst(listeners, l);
    }

    /** One dispatch loop over a snapshot of the registry taken on entry.
        Callbacks here cannot register or unregister listeners (the frame
        is the trace only), so the snapshot always equals `listeners`: the
        loop does not show isolation from concurrent registry changes. */
    method Notify(n: Notice, throwing: set<(Notice, ListenerId)>) returns (r: Outcome)
      modifies this`trace
      ensures trace == old(trace) + Dispatch(n, listeners, throwing).events
      ensures r == Dispatch(n, listeners, throwing).outcome
    {
      var snapshot := listeners;
      var i := 0;
      while i < |snapshot|
        invariant 0 <= i <= |snapshot|
        invariant trace + Dispatch(n, snapshot[i..], throwing).events
                    == old(trace) + Dispatch(n, snapshot, throwing).events
        invariant Dispatch(n, snapshot[i..], throwing).outcome == Dispatch(n, snapshot, throwing).outcome
      {
        var l := snapshot[i];
        assert snapshot[i..][0] == l && snapshot[i..][1..] == snapshot[i + 1..];
        trace := trace + [Notified(n, l)];
        if (n, l) in throwing {
          return Threw(ListenerThrew(n, l));
        }
        i := i + 1;
      }
      return Normal;
    }

    /** `start()`. */
    method Start(env: Env) returns (r: Outcome)
      modifies this`state, this`trace
      ensures state == StartRun(old(state), listeners, env).state
      ensures trace == old(trace) + StartRun(old(state), listeners, env).events
      ensures r == StartRun(old(state), listeners, env).outcome
    {
      if !CanMoveToStarted(state) {
        return Normal;
      }
      r := Notify(BeforeStart, env.throwing);
      if r.Threw? {
        return;
      }
      trace := trace + [HookCalled(DoStart)];
      if env.doStart == Throws {
        return Threw(HookThrew(DoStart));
      }
      state := Started;
      trace := trace + [Committed(Started)];
      r := Notify(AfterStart, env.throwing);
    }

    /** `stop()`. */
    method Stop(env: Env) returns (r: Outcome)
      modifies this`state, this`trace
      ensures state == StopRun(old(state), listeners, env).state
      ensures trace == old(trace) + StopRun(old(state), listeners, env).events
      ensures r == StopRun(old(state), listeners, env).outcome
    {
      if !CanMoveToStopped(state) {
        return Normal;
      }
      r := Notify(BeforeStop, env.throwing);
      if r.Threw? {
        return;
      }
      state := Stopped;
      trace := trace + [Committed(Stopped), HookCalled(DoStop)];
      if env.doStop == Throws {
        return Threw(HookThrew(DoStop));
      }
      r := Notify(AfterStop, env.throwing);
    }

    /** `close()`: the nested stop, then the close proper. */
    method Close(env: Env) returns (r: Outcome)
      modifies this`state, this`trace
      ensures state == CloseRun(old(state), listeners, env).state
      ensures trace == old(trace) + CloseRun(old(state), listeners, env).events
      ensures r == CloseRun(old(state), listeners, env).outcome
    {
      if IsStarted(state) {
        r := Stop(env);
        if r.Threw? {
          return;
        }
      }
      r := CloseOwn(env);
    }

    /** What `close()` does once the nested stop, if any, has returned. */
    method CloseOwn(env: Env) returns (r: Outcome)
      modifies this`state, this`trace
      ensures state == CloseOwnRun(old(state), listeners, env).state
      ensures trace == old(trace) + CloseOwnRun(old(state), listeners, env).events
      ensures r == CloseOwnRun(old(state), listeners, env).outcome
    {
      if !CanMoveToClosed(state) {
        return Normal;
      }
      r := Notify(BeforeClose, env.throwing);
      if r.Threw? {
        return;
      }
      state := Closed;
      trace := trace + [Committed(Closed), HookCalled(DoClose)];
      if env.doClose == CloseThrowsUnchecked {
        return Threw(HookThrew(DoClose));
      }
      // An IOException from doClose is caught and only logged.
      r := Notify(AfterClose, env.throwing);
    }
  }
}
