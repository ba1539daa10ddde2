/** Whole runs: what holds once the executor is Stopped. */
module FutureBarrierRuns {
  import opened Common
  import opened FutureBarrier
  import opened FutureBarrierInvariant

  lemma {:induction false} RunKeepsInvariant(states: seq<State>, events: seq<Event>, k: nat)
    requires IsRun(states, events) && k < |states|
    ensures Inv(states[k])
  {
    hide Inv, Apply, Enabled;
    if k == 0 {
      InitialInv();
    } else {
      RunKeepsInvariant(states, events, k - 1);
      assert Enabled(states[k - 1], events[k - 1]) && states[k] == Apply(states[k - 1], events[k - 1]);
      StepKeepsInvariant(states[k - 1], events[k - 1]);
    }
  }

  /** When the executor is Stopped every Future it ever admitted is terminal, by exactly one
      terminal transition. */
  lemma StoppedSettlesEverything(states: seq<State>, events: seq<Event>, k: nat, f: Fut)
    requires IsRun(states, events) && k < |states| && states[k].exec == Stopped && f in states[k].futures
    ensures states[k].futures[f].status != Pending
    ensures f in states[k].commits && states[k].commits[f] == 1
  {
    RunKeepsInvariant(states, events, k);
    hide IsRun, ListsOk, CarriersOk, QueueOk, PlacesOk, CallsOk, AgentsOk;
    assert states[k].futures[f].status == Pending ==> MayBePending(states[k], f);
  }

  /** A Future changes from Pending to terminal at most once along any run, and is counted. */
  lemma SettledAtMostOnce(states: seq<State>, events: seq<Event>, k: nat, f: Fut)
    requires IsRun(states, events) && k < |states| && f in states[k].futures
    ensures At(states[k], f) == if states[k].futures[f].status == Pending then 0 else 1
  {
    RunKeepsInvariant(states, events, k);
    hide IsRun, ListsOk, CarriersOk, QueueOk, PlacesOk, CallsOk, AgentsOk, WalkOk;
  }

  /** Recorded terminal transitions of `f`. */
  function At(s: State, f: Fut): nat {
    if f in s.commits then s.commits[f] else 0
  }

  /** When the executor is Stopped every accepted done-callback that was not removed has been
      invoked exactly once. */
  lemma StoppedInvokedEverything(states: seq<State>, events: seq<Event>, k: nat, cb: Callback)
    requires IsRun(states, events) && k < |states| && states[k].exec == Stopped && cb < |states[k].place|
    ensures cb < |states[k].calls|
    ensures states[k].place[cb] == Place.Removed || (states[k].place[cb] == Invoked && states[k].calls[cb] == 1)
  {
    var s := states[k];
    RunKeepsInvariant(states, events, k);
    hide IsRun, CarriersOk, CommitsOk;
    NobodyReserved(s);
    assert PlaceAt(s, cb);
    if s.place[cb].Listed? {
      NothingListed(s, s.place[cb].f);
    }
  }

  /** No run reaches the refusal that would lose a callback. */
  lemma NoCallbackIsLost(states: seq<State>, events: seq<Event>, k: nat)
    requires IsRun(states, events) && k < |states|
    ensures forall a :: Enabled(states[k], Publish(a)) ==> states[k].exec != Stopped
    ensures forall cb :: 0 <= cb < |states[k].place| ==> states[k].place[cb] != Lost
  {
    RunKeepsInvariant(states, events, k);
    hide IsRun, ListsOk, CarriersOk, QueueOk, CallsOk, CommitsOk, WalkOk, TestingOk;
    forall a | Enabled(states[k], Publish(a)) ensures states[k].exec != Stopped {
      CarriersAreInTime(states[k], a);
    }
    forall cb | 0 <= cb < |states[k].place| ensures states[k].place[cb] != Lost {
      assert PlaceAt(states[k], cb);
    }
  }

  /** No callback is ever invoked twice, or after it was removed. */
  lemma InvokedAtMostOnce(states: seq<State>, events: seq<Event>, k: nat, cb: Callback)
    requires IsRun(states, events) && k < |states| && cb < |states[k].place|
    ensures cb < |states[k].calls| && states[k].calls[cb] == if states[k].place[cb] == Invoked then 1 else 0
  {
    RunKeepsInvariant(states, events, k);
  }

  /** Stopped is final, and from then on nothing is queued, carried or accepted any more. */
  lemma StoppedStaysQuiet(s: State, e: Event)
    requires Inv(s) && s.exec == Stopped && Enabled(s, e)
    ensures var t := Apply(s, e);
      && t.exec == Stopped && t.queue == [] && t.hand == None && t.producers == 0
      && t.place == s.place && t.futures == s.futures && t.calls == s.calls
  {
    NobodyReserved(s);
    hide ListsOk, CarriersOk, QueueOk, PlacesOk, CallsOk, CommitsOk;
    if e.Remove? {
      NothingListed(s, e.f);
    }
  }

  lemma NobodyReserved(s: State)
    requires AgentsOk(s) && s.producers == 0
    ensures forall a :: a in s.agents ==> s.agents[a].Probed?
  {
    forall a | a in s.agents ensures s.agents[a].Probed? {
      assert a !in Holders(s.agents);
    }
  }

  lemma NothingListed(s: State, f: Fut)
    requires Inv(s) && s.exec == Stopped && f in s.futures
    ensures s.futures[f].callbacks == []
  {
    assert s.futures[f].status == Pending ==> MayBePending(s, f);
  }

  lemma StoppedIsEmpty(s: State)
    requires Inv(s)
    ensures s.exec == Stopped ==> s.queue == []
  {
  }

  lemma {:induction false} StoppedForever(states: seq<State>, events: seq<Event>, j: nat, k: nat)
    requires IsRun(states, events) && j <= k < |states| && states[j].exec == Stopped
    ensures states[k].exec == Stopped && states[k].queue == []
    ensures states[k].place == states[j].place && states[k].futures == states[j].futures
      && states[k].calls == states[j].calls
  {
    hide Inv, Apply, Enabled;
    if j == k {
      RunKeepsInvariant(states, events, k);
      StoppedIsEmpty(states[k]);
    } else {
      StoppedForever(states, events, j, k - 1);
      RunKeepsInvariant(states, events, k - 1);
      assert Enabled(states[k - 1], events[k - 1]) && states[k] == Apply(states[k - 1], events[k - 1]);
      StoppedStaysQuiet(states[k - 1], events[k - 1]);
    }
  }
}
