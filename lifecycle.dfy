/**
  The lifecycle state machine that a component consults before every
  transition.  The guard predicates below are the component's view of
  Lifecycle.java, which is not part of this model: they are stated here
  as an assumed transition table, kept apart from the orchestration so
  that they can be read (and replaced) on their own.
 */
module Lifecycle {

  /** The four lifecycle states; a component starts in Initialized. */
  datatype State = Initialized | Started | Stopped | Closed

  /** Assumed guard: a start is allowed from Initialized or Stopped. */
  predicate CanMoveToStarted(s: State) {
    s == Initialized || s == Stopped
  }

  /** Assumed guard: a stop is allowed from Started only. */
  predicate CanMoveToStopped(s: State) {
    s == Started
  }

  /** Assumed guard: a close is allowed from every state except Closed. */
  predicate CanMoveToClosed(s: State) {
    s != Closed
  }

  /** The query `started()`: the component is currently running. */
  predicate IsStarted(s: State) {
    s == Started
  }

  /** The legal transitions, listed pair by pair. */
  predicate Legal(from: State, to: State) {
    (from, to) in {
      (Initialized, Started), (Started, Stopped), (Stopped, Started),
      (Initialized, Closed), (Started, Closed), (Stopped, Closed)
    }
  }

  /** Each guard admits exactly the legal transitions into its target,
      and nothing leaves Closed. */
  lemma GuardsMatchLegalTransitions(s: State)
    ensures CanMoveToStarted(s) <==> Legal(s, Started)
    ensures CanMoveToStopped(s) <==> Legal(s, Stopped)
    ensures CanMoveToClosed(s) <==> Legal(s, Closed)
    ensures !Legal(Closed, s)
    ensures !Legal(s, Initialized)
  {
  }
}
