/**
  Properties of the lifecycle component: the listener registry, the
  dispatch loop, and the order of effects of start, stop and close.
 */
module LifecycleProperties {
  import opened Lifecycle
  import opened LifecycleComponent

  // ---------------------------------------------------------------------
  // The listener registry

  /** Removing a registered listener drops exactly its first occurrence:
      the entries before and after it stay, in order. */
  lemma {:induction false} RemoveFirstDropsFirstOccurrence(ls: seq<ListenerId>, l: ListenerId)
    requires l in ls
    ensures RemoveFirst(ls, l) == ls[..FirstIndex(ls, l)] + ls[FirstIndex(ls, l) + 1..]
  {
    if ls[0] != l {
      var t := ls[1..];
      RemoveFirstDropsFirstOccurrence(t, l);
      var k := FirstIndex(t, l);
      assert FirstIndex(ls, l) == k + 1;
      assert ls[..k + 1] == [ls[0]] + t[..k];
      assert ls[k + 2..] == t[k + 1..];
    }
  }

  /** Removing takes away one copy of the listener and nothing else. */
  lemma {:induction false} RemoveFirstMultiset(ls: seq<ListenerId>, l: ListenerId)
    ensures multiset(RemoveFirst(ls, l)) == multiset(ls) - multiset{l}
  {
    if ls != [] {
      assert ls == [ls[0]] + ls[1..];
      if ls[0] != l {
        RemoveFirstMultiset(ls[1..], l);
      }
    }
  }

  /** Adding a listener that was not registered and then removing it
      gives back the registry as it was. */
  lemma {:induction false} AddThenRemoveRestores(ls: seq<ListenerId>, l: ListenerId)
    requires l !in ls
    ensures RemoveFirst(ls + [l], l) == ls
  {
    if ls != [] {
      assert (ls + [l])[1..] == ls[1..] + [l];
      AddThenRemoveRestores(ls[1..], l);
    }
  }

  // ---------------------------------------------------------------------
  // The dispatch loop

  /** No event of `evs` is a delivery of callback `n`. */
  predicate NoDelivery(evs: seq<Event>, n: Notice) {
    forall i :: 0 <= i < |evs| ==> !(evs[i].Notified? && evs[i].notice == n)
  }

  /** The loop returns normally exactly when no listener's callback throws. */
  lemma {:induction false} DispatchReturnsIff(n: Notice, ls: seq<ListenerId>, throwing: set<(Notice, ListenerId)>)
    ensures Dispatch(n, ls, throwing).outcome == Normal <==> NoneThrow(n, ls, throwing)
  {
    if ls != [] {
      DispatchReturnsIff(n, ls[1..], throwing);
      assert forall i :: 0 < i < |ls| ==> ls[i] == ls[1..][i - 1];
    }
  }

  /** When no callback throws, every listener is notified once, in list order. */
  lemma {:induction false} DispatchDeliversAll(n: Notice, ls: seq<ListenerId>, throwing: set<(Notice, ListenerId)>)
    requires NoneThrow(n, ls, throwing)
    ensures Dispatch(n, ls, throwing) == Dispatched(Deliveries(n, ls), Normal)
  {
    if ls != [] {
      assert forall i :: 0 <= i < |ls| - 1 ==> ls[1..][i] == ls[i + 1];
      DispatchDeliversAll(n, ls[1..], throwing);
    }
  }

  /** When the listener at position `k` is the first whose callback throws,
      the listeners up to and including it are notified, the rest are not,
      and its exception propagates. */
  lemma {:induction false} DispatchStopsAtFirstThrower(
    n: Notice, ls: seq<ListenerId>, throwing: set<(Notice, ListenerId)>, k: nat)
    requires k < |ls| && NoneThrow(n, ls[..k], throwing) && (n, ls[k]) in throwing
    ensures Dispatch(n, ls, throwing) == Dispatched(Deliveries(n, ls[..k + 1]), Threw(ListenerThrew(n, ls[k])))
  {
    if k > 0 {
      assert (n, ls[0]) !in throwing by { assert ls[..k][0] == ls[0]; }
      assert ls[1..][..k - 1] == ls[1..k];
      assert forall i :: 0 <= i < k - 1 ==> ls[1..k][i] == ls[..k][i + 1];
      DispatchStopsAtFirstThrower(n, ls[1..], throwing, k - 1);
      assert ls[..k + 1] == [ls[0]] + ls[1..][..k];
    }
  }

  /** A dispatch loop records only deliveries of its own callback. */
  lemma {:induction false} DispatchDeliversOnly(n: Notice, ls: seq<ListenerId>, throwing: set<(Notice, ListenerId)>)
    ensures forall e :: e in Dispatch(n, ls, throwing).events ==> e.Notified? && e.notice == n
  {
    if ls != [] && (n, ls[0]) !in throwing {
      DispatchDeliversOnly(n, ls[1..], throwing);
    }
  }

  // ---------------------------------------------------------------------
  // start()

  /** A start the guard refuses records nothing and changes nothing. */
  lemma StartRejectedRecordsNothing(s: State, ls: seq<ListenerId>, env: Env)
    requires !CanMoveToStarted(s)
    ensures StartRun(s, ls, env) == Run(s, [], Normal)
  {
  }

  /** A start in which nothing throws: beforeStart to every listener in
      order, doStart, the commit to Started, afterStart to every listener. */
  lemma StartSuccessTrace(s: State, ls: seq<ListenerId>, env: Env)
    requires CanMoveToStarted(s) && env.doStart == Returns
    requires NoneThrow(BeforeStart, ls, env.throwing) && NoneThrow(AfterStart, ls, env.throwing)
    ensures StartRun(s, ls, env) == Run(Started,
              Deliveries(BeforeStart, ls) + [HookCalled(DoStart), Committed(Started)] + Deliveries(AfterStart, ls),
              Normal)
  {
    DispatchDeliversAll(BeforeStart, ls, env.throwing);
    DispatchDeliversAll(AfterStart, ls, env.throwing);
  }

  /** An accepted start returns normally exactly when no callback and not
      doStart throws. */
  lemma StartReturnsNormallyIff(s: State, ls: seq<ListenerId>, env: Env)
    requires CanMoveToStarted(s)
    ensures StartRun(s, ls, env).outcome == Normal
            <==> NoneThrow(BeforeStart, ls, env.throwing) && env.doStart == Returns
                 && NoneThrow(AfterStart, ls, env.throwing)
  {
    DispatchReturnsIff(BeforeStart, ls, env.throwing);
    DispatchReturnsIff(AfterStart, ls, env.throwing);
  }

  /** An accepted start is committed exactly when every beforeStart and
      doStart returned, and the commit follows the doStart call directly. */
  lemma StartCommitsIffHookReturns(s: State, ls: seq<ListenerId>, env: Env)
    requires CanMoveToStarted(s)
    ensures var r := StartRun(s, ls, env);
            (r.state == Started <==> NoneThrow(BeforeStart, ls, env.throwing) && env.doStart == Returns)
            && (r.state == Started ==>
                  |ls| + 2 <= |r.events| && r.events[..|ls| + 2] == Deliveries(BeforeStart, ls) + [HookCalled(DoStart), Committed(Started)])
  {
    DispatchReturnsIff(BeforeStart, ls, env.throwing);
    if NoneThrow(BeforeStart, ls, env.throwing) {
      DispatchDeliversAll(BeforeStart, ls, env.throwing);
    }
  }

  /** A beforeStart listener or doStart that throws leaves the state as it
      was (so a retry is attempted again), records no commit and delivers no
      afterStart; a throwing listener also keeps doStart from being called. */
  lemma StartEarlyFailureKeepsState(s: State, ls: seq<ListenerId>, env: Env)
    requires CanMoveToStarted(s)
    requires !NoneThrow(BeforeStart, ls, env.throwing) || env.doStart == Throws
    ensures var r := StartRun(s, ls, env);
            r.state == s && CanMoveToStarted(r.state) && r.outcome.Threw?
            && Committed(Started) !in r.events && NoDelivery(r.events, AfterStart)
            && (!NoneThrow(BeforeStart, ls, env.throwing) ==> HookCalled(DoStart) !in r.events)
  {
    DispatchReturnsIff(BeforeStart, ls, env.throwing);
    DispatchDeliversOnly(BeforeStart, ls, env.throwing);
  }

  // ---------------------------------------------------------------------
  // stop()

  /** A stop the guard refuses (from Initialized, Stopped or Closed)
      records nothing and changes nothing. */
  lemma StopRejectedRecordsNothing(s: State, ls: seq<ListenerId>, env: Env)
    requires !CanMoveToStopped(s)
    ensures StopRun(s, ls, env) == Run(s, [], Normal)
  {
  }

  /** A stop in which nothing throws: beforeStop to every listener in order,
      the commit to Stopped, doStop, afterStop to every listener. */
  lemma StopSuccessTrace(s: State, ls: seq<ListenerId>, env: Env)
    requires CanMoveToStopped(s) && env.doStop == Returns
    requires NoneThrow(BeforeStop, ls, env.throwing) && NoneThrow(AfterStop, ls, env.throwing)
    ensures StopRun(s, ls, env) == Run(Stopped,
              Deliveries(BeforeStop, ls) + [Committed(Stopped), HookCalled(DoStop)] + Deliveries(AfterStop, ls),
              Normal)
  {
    DispatchDeliversAll(BeforeStop, ls, env.throwing);
    DispatchDeliversAll(AfterStop, ls, env.throwing);
  }

  /** Unlike start, stop commits before its hook: a doStop that throws
      leaves the component Stopped, and no afterStop is delivered. */
  lemma StopHookFailureLeavesStopped(s: State, ls: seq<ListenerId>, env: Env)
    requires CanMoveToStopped(s) && env.doStop == Throws
    requires NoneThrow(BeforeStop, ls, env.throwing)
    ensures StopRun(s, ls, env) == Run(Stopped,
              Deliveries(BeforeStop, ls) + [Committed(Stopped), HookCalled(DoStop)],
              Threw(HookThrew(DoStop)))
  {
    DispatchDeliversAll(BeforeStop, ls, env.throwing);
  }

  /** An accepted stop returns normally exactly when no beforeStop or
      afterStop callback throws and doStop returns. */
  lemma StopReturnsNormallyIff(s: State, ls: seq<ListenerId>, env: Env)
    requires CanMoveToStopped(s)
    ensures StopRun(s, ls, env).outcome == Normal
            <==> NoneThrow(BeforeStop, ls, env.throwing) && env.doStop == Returns
                 && NoneThrow(AfterStop, ls, env.throwing)
  {
    DispatchReturnsIff(BeforeStop, ls, env.throwing);
    DispatchReturnsIff(AfterStop, ls, env.throwing);
  }

  /** An accepted stop is committed exactly when every beforeStop returned;
      otherwise the state is unchanged and doStop is not called. */
  lemma StopCommitsIffBeforeListenersReturn(s: State, ls: seq<ListenerId>, env: Env)
    requires CanMoveToStopped(s)
    ensures var r := StopRun(s, ls, env);
            (r.state == Stopped <==> NoneThrow(BeforeStop, ls, env.throwing))
            && (r.state != Stopped ==> r.state == s && r.outcome.Threw? && HookCalled(DoStop) !in r.events)
  {
    DispatchReturnsIff(BeforeStop, ls, env.throwing);
    DispatchDeliversOnly(BeforeStop, ls, env.throwing);
  }

  // ---------------------------------------------------------------------
  // close()

  /** Closing a started component in which nothing throws and doClose does
      not throw an unchecked exception: the complete stop sequence, then
      beforeClose to every listener, the commit to Closed, doClose, and
      afterClose to every listener. */
  lemma CloseFromStartedTrace(ls: seq<ListenerId>, env: Env)
    requires env.doStop == Returns && env.doClose != CloseThrowsUnchecked
    requires NoneThrow(BeforeStop, ls, env.throwing) && NoneThrow(AfterStop, ls, env.throwing)
    requires NoneThrow(BeforeClose, ls, env.throwing) && NoneThrow(AfterClose, ls, env.throwing)
    ensures CloseRun(Started, ls, env) == Run(Closed,
              Deliveries(BeforeStop, ls) + [Committed(Stopped), HookCalled(DoStop)] + Deliveries(AfterStop, ls)
              + Deliveries(BeforeClose, ls) + [Committed(Closed), HookCalled(DoClose)] + Deliveries(AfterClose, ls),
              Normal)
  {
    StopSuccessTrace(Started, ls, env);
    DispatchDeliversAll(BeforeClose, ls, env.throwing);
    DispatchDeliversAll(AfterClose, ls, env.throwing);
  }

  /** A stop that throws inside close ends the close: nothing of the close
      proper runs and the state is not Closed. */
  lemma CloseStopFailurePropagates(ls: seq<ListenerId>, env: Env)
    requires StopRun(Started, ls, env).outcome.Threw?
    ensures var r := CloseRun(Started, ls, env);
            r == StopRun(Started, ls, env) && r.state != Closed && NoDelivery(r.events, BeforeClose)
  {
    var stop := StopRun(Started, ls, env);
    DispatchDeliversOnly(BeforeStop, ls, env.throwing);
    DispatchDeliversOnly(AfterStop, ls, env.throwing);
    assert NoDelivery(stop.events, BeforeClose);
  }

  /** Once the close guard holds and every beforeClose returned, the state
      becomes Closed before doClose is called; an IOException from doClose
      is absorbed and afterClose is still dispatched to the listeners.
      This is the close proper, whichever state it starts from. */
  lemma CloseCommitsBeforeHook(s: State, ls: seq<ListenerId>, env: Env)
    requires CanMoveToClosed(s)
    requires NoneThrow(BeforeClose, ls, env.throwing) && env.doClose != CloseThrowsUnchecked
    ensures var after := Dispatch(AfterClose, ls, env.throwing);
            CloseOwnRun(s, ls, env) == Run(Closed,
              Deliveries(BeforeClose, ls) + [Committed(Closed), HookCalled(DoClose)] + after.events,
              after.outcome)
  {
    DispatchDeliversAll(BeforeClose, ls, env.throwing);
  }

  /** Closing a started component whose nested stop returned: the stop's
      events, then beforeClose to every listener, the commit to Closed,
      doClose, and the afterClose loop, whose outcome is the close's. */
  lemma CloseFromStartedCommitsBeforeHook(ls: seq<ListenerId>, env: Env)
    requires StopRun(Started, ls, env).outcome == Normal
    requires NoneThrow(BeforeClose, ls, env.throwing) && env.doClose != CloseThrowsUnchecked
    ensures var after := Dispatch(AfterClose, ls, env.throwing);
            CloseRun(Started, ls, env) == Run(Closed,
              StopRun(Started, ls, env).events
              + Deliveries(BeforeClose, ls) + [Committed(Closed), HookCalled(DoClose)] + after.events,
              after.outcome)
  {
    assert StopRun(Started, ls, env).state == Stopped;
    CloseCommitsBeforeHook(Stopped, ls, env);
  }

  /** An accepted close proper returns normally exactly when no beforeClose
      or afterClose callback throws and doClose throws no unchecked exception. */
  lemma CloseOwnReturnsNormallyIff(s: State, ls: seq<ListenerId>, env: Env)
    requires CanMoveToClosed(s)
    ensures CloseOwnRun(s, ls, env).outcome == Normal
            <==> NoneThrow(BeforeClose, ls, env.throwing) && env.doClose != CloseThrowsUnchecked
                 && NoneThrow(AfterClose, ls, env.throwing)
  {
    DispatchReturnsIff(BeforeClose, ls, env.throwing);
    DispatchReturnsIff(AfterClose, ls, env.throwing);
  }

  /** An unchecked exception from doClose propagates, but only after the
      commit: the state is Closed and no afterClose is delivered. */
  lemma CloseUncheckedHookFailure(s: State, ls: seq<ListenerId>, env: Env)
    requires CanMoveToClosed(s) && env.doClose == CloseThrowsUnchecked
    requires NoneThrow(BeforeClose, ls, env.throwing)
    ensures CloseOwnRun(s, ls, env) == Run(Closed,
              Deliveries(BeforeClose, ls) + [Committed(Closed), HookCalled(DoClose)],
              Threw(HookThrew(DoClose)))
  {
    DispatchDeliversAll(BeforeClose, ls, env.throwing);
  }

  /** A beforeClose that throws propagates before the commit: the state is
      unchanged and doClose is not called. */
  lemma CloseBeforeListenerFailureKeepsState(s: State, ls: seq<ListenerId>, env: Env)
    requires CanMoveToClosed(s) && !NoneThrow(BeforeClose, ls, env.throwing)
    ensures var r := CloseOwnRun(s, ls, env);
            r.state == s && r.outcome.Threw? && Committed(Closed) !in r.events
            && HookCalled(DoClose) !in r.events && NoDelivery(r.events, AfterClose)
  {
    DispatchReturnsIff(BeforeClose, ls, env.throwing);
    DispatchDeliversOnly(BeforeClose, ls, env.throwing);
  }

  /** An IOException from doClose cannot be told apart from a doClose that
      returns: state, trace and outcome are the same. */
  lemma CloseAbsorbsIOException(s: State, ls: seq<ListenerId>, env: Env)
    ensures CloseRun(s, ls, env.(doClose := CloseThrowsIO)) == CloseRun(s, ls, env.(doClose := CloseReturns))
  {
  }

  /** Once Closed, start, stop and close all record nothing and change nothing. */
  lemma ClosedIsInert(ls: seq<ListenerId>, env: Env)
    ensures StartRun(Closed, ls, env) == Run(Closed, [], Normal)
    ensures StopRun(Closed, ls, env) == Run(Closed, [], Normal)
    ensures CloseRun(Closed, ls, env) == Run(Closed, [], Normal)
  {
  }

  /** A second close after one that returned normally records nothing,
      whatever the listeners and hooks do then. */
  lemma SecondCloseRecordsNothing(s: State, ls: seq<ListenerId>, env: Env, ls': seq<ListenerId>, env': Env)
    requires CloseRun(s, ls, env).outcome == Normal
    ensures CloseRun(CloseRun(s, ls, env).state, ls', env') == Run(Closed, [], Normal)
  {
  }
}
