/** Subscriptions of the discovered graph: notification outside the lock, and the drain that
    ends a subscription. */
module SubscriptionDrain {
  import opened Common

  type Notifier = nat

  /** `holders` copied the subscription list while it was listed; `callers` run its callback. */
  datatype State = State(listed: bool, accepting: bool, inFlight: nat, holders: set<Notifier>, callers: set<Notifier>,
                         drained: bool)

  datatype Event =
    | Snapshot(n: Notifier)
    | Enter(n: Notifier)
    | Leave(n: Notifier)
    | Unlist
    | StopAccepting
    | Drained

  function Initial(): State {
    State(true, true, 0, {}, {}, false)
  }

  predicate Enabled(s: State, e: Event) {
    match e
    case Snapshot(n) => n !in s.holders && n !in s.callers
    case Enter(n) => n in s.holders
    case Leave(n) => n in s.callers && s.inFlight > 0
    case Unlist => s.listed
    case StopAccepting => !s.listed
    case Drained => !s.listed && !s.accepting && s.inFlight == 0
  }

  function Apply(s: State, e: Event): State
    requires Enabled(s, e)
  {
    match e
    case Snapshot(n) => if s.listed then s.(holders := s.holders + {n}) else s
    case Enter(n) =>
      if s.accepting then s.(holders := s.holders - {n}, callers := s.callers + {n}, inFlight := s.inFlight + 1)
      else s.(holders := s.holders - {n})
    case Leave(n) => s.(callers := s.callers - {n}, inFlight := s.inFlight - 1)
    case Unlist => s.(listed := false)
    case StopAccepting => s.(accepting := false)
    case Drained => s.(drained := true)
  }

  ghost predicate IsRun(states: seq<State>, events: seq<Event>) {
    && |states| == |events| + 1
    && states[0] == Initial()
    && (forall k {:trigger events[k]} :: 0 <= k < |events| ==>
          Enabled(states[k], events[k]) && states[k + 1] == Apply(states[k], events[k]))
  }

  ghost predicate Inv(s: State) {
    && s.inFlight == |s.callers| && s.holders !! s.callers
    && (!s.accepting ==> !s.listed)
    && (s.drained ==> !s.accepting && s.callers == {})
  }

  lemma {:induction false} RunKeepsInvariant(states: seq<State>, events: seq<Event>, k: nat)
    requires IsRun(states, events) && k < |states|
    ensures Inv(states[k])
  {
    if k > 0 {
      RunKeepsInvariant(states, events, k - 1);
      assert Enabled(states[k - 1], events[k - 1]) && states[k] == Apply(states[k - 1], events[k - 1]);
    }
  }

  /** After `close_and_drain` no callback of the subscription runs, and none can begin, even for
      a notifier that copied the list before. */
  lemma DrainedIsQuiet(states: seq<State>, events: seq<Event>, k: nat, n: Notifier)
    requires IsRun(states, events) && k < |states| && states[k].drained
    ensures states[k].callers == {}
    ensures Enabled(states[k], Enter(n)) ==> n !in Apply(states[k], Enter(n)).callers
  {
    RunKeepsInvariant(states, events, k);
  }

  /** The count of callbacks in flight never underflows. */
  lemma CallbacksAreCounted(states: seq<State>, events: seq<Event>, k: nat, n: Notifier)
    requires IsRun(states, events) && k < |states| && n in states[k].callers
    ensures states[k].inFlight > 0
  {
    RunKeepsInvariant(states, events, k);
  }
}
