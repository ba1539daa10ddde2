/** Waiting for an action server: graph changes, their notifications, and the threads asleep on
    the wait state's condition variable. */
module AvailabilityWait {
  import opened Common

  type Waiter = nat
  type Notifier = nat

  /** A thread in `wait_for_server`. It first notes the revision, then checks the graph, and
      sleeps only if the check failed and the revision is still the one it noted. */
  datatype WaitPc =
    | Observed(revision: nat)
    | Checked(revision: nat, version: nat)     // no complete server in this version
    | Asleep(revision: nat, version: nat)      // inside the condition variable
    | Woken(revision: nat, version: nat)       // about to evaluate the predicate again

  /** A thread on its way from a committed change to the wake-up of the sleepers. */
  datatype NotifyPc =
    | Committed(version: nat)                  // the graph changed, the callback is still to come
    | ShuttingDown                             // the context is shut down, the callback is still to come
    | Counted                                  // the revision moved, notify_all is still to come

  /** `complete[v]` tells whether version `v` of the graph holds a complete server. */
  datatype State = State(complete: seq<bool>, shutdown: bool, revision: nat, generation: nat, tokens: map<Waiter, nat>,
                         waiters: map<Waiter, WaitPc>, notifiers: map<Notifier, NotifyPc>)

  datatype Event =
    | GraphChange(n: Notifier, complete: bool)
    | ShutDown(n: Notifier)
    | Callback(n: Notifier)
    | NotifyAll(n: Notifier)
    | Interrupt(n: Notifier)
    | Prepare(w: Waiter)
    | Observe(w: Waiter)
    | Check(w: Waiter)
    | Sleep(w: Waiter)
    | Spurious(w: Waiter)
    | Evaluate(w: Waiter)

  function Initial(): State {
    State([false], false, 0, 0, map[], map[], map[])
  }

  predicate Enabled(s: State, e: Event) {
    match e
    case GraphChange(n, _) => n !in s.notifiers
    case ShutDown(n) => n !in s.notifiers && !s.shutdown
    case Callback(n) => n in s.notifiers && (s.notifiers[n].Committed? || s.notifiers[n].ShuttingDown?)
    case NotifyAll(n) => n in s.notifiers && s.notifiers[n].Counted?
    case Interrupt(n) => n !in s.notifiers
    case Prepare(w) => w !in s.tokens
    case Observe(w) => w in s.tokens && w !in s.waiters
    case Check(w) => w in s.waiters && s.waiters[w].Observed?
    case Sleep(w) => w in s.waiters && s.waiters[w].Checked?
    case Spurious(w) => w in s.waiters && s.waiters[w].Asleep?
    case Evaluate(w) => w in s.waiters && s.waiters[w].Woken?
  }

  /** The predicate the thread sleeps on. */
  predicate Changed(s: State, w: Waiter, revision: nat) {
    s.shutdown || s.revision != revision || (w in s.tokens && s.tokens[w] != s.generation)
  }

  /** `notify_all`. */
  function Roused(pc: WaitPc): WaitPc {
    if pc.Asleep? then Woken(pc.revision, pc.version) else pc
  }

  function Apply(s: State, e: Event): State
    requires Enabled(s, e)
  {
    match e
    case GraphChange(n, complete) =>
      s.(complete := s.complete + [complete], notifiers := s.notifiers[n := Committed(|s.complete|)])
    case ShutDown(n) => s.(shutdown := true, notifiers := s.notifiers[n := ShuttingDown])
    case Callback(n) => s.(revision := s.revision + 1, notifiers := s.notifiers[n := Counted])
    case NotifyAll(n) => s.(waiters := map w | w in s.waiters :: Roused(s.waiters[w]), notifiers := s.notifiers - {n})
    case Interrupt(n) =>
      s.(generation := s.generation + 1, revision := s.revision + 1, notifiers := s.notifiers[n := Counted])
    case Prepare(w) => s.(tokens := s.tokens[w := s.generation])
    case Observe(w) =>
      // shutdown and an interrupted token end the wait
      if s.shutdown || s.tokens[w] != s.generation then s else s.(waiters := s.waiters[w := Observed(s.revision)])
    case Check(w) =>
      // shutdown and a complete server end the wait
      if s.shutdown || s.complete == [] || s.complete[|s.complete| - 1] then s.(waiters := s.waiters - {w})
      else s.(waiters := s.waiters[w := Checked(s.waiters[w].revision, |s.complete| - 1)])
    case Sleep(w) =>
      var pc := s.waiters[w];
      if Changed(s, w, pc.revision) then s.(waiters := s.waiters - {w})
      else s.(waiters := s.waiters[w := Asleep(pc.revision, pc.version)])
    case Spurious(w) => s.(waiters := s.waiters[w := Woken(s.waiters[w].revision, s.waiters[w].version)])
    case Evaluate(w) =>
      var pc := s.waiters[w];
      if Changed(s, w, pc.revision) then s.(waiters := s.waiters - {w})
      else s.(waiters := s.waiters[w := Asleep(pc.revision, pc.version)])
  }

  ghost predicate IsRun(states: seq<State>, events: seq<Event>) {
    && |states| == |events| + 1
    && states[0] == Initial()
    && (forall k {:trigger events[k]} :: 0 <= k < |events| ==>
          Enabled(states[k], events[k]) && states[k + 1] == Apply(states[k], events[k]))
  }

  // ------------------------------------------------------------------ invariant

  /** A notification of a change after version `v` is still outstanding. */
  ghost predicate Outstanding(s: State, v: nat) {
    exists n :: n in s.notifiers && s.notifiers[n].Committed? && s.notifiers[n].version > v
  }

  /** Somebody is on the way to wake all sleepers. */
  ghost predicate AboutToWake(s: State) {
    exists n :: n in s.notifiers && (s.notifiers[n].Counted? || s.notifiers[n].ShuttingDown?)
  }

  /** What a thread saw is current, or the news is on its way, or it has been counted. */
  ghost predicate WaiterOk(s: State, w: Waiter)
    requires w in s.waiters
  {
    match s.waiters[w]
    case Observed(r) => r <= s.revision
    case Checked(r, v) => Informed(s, r, v)
    case Asleep(r, v) => Informed(s, r, v) && (Changed(s, w, r) ==> AboutToWake(s))
    case Woken(r, v) => Informed(s, r, v)
  }

  ghost predicate Informed(s: State, r: nat, v: nat) {
    && r <= s.revision && v < |s.complete| && !s.complete[v]
    && (v == |s.complete| - 1 || Outstanding(s, v) || r < s.revision)
  }

  ghost predicate Inv(s: State) {
    && s.complete != []
    && (forall n :: n in s.notifiers && s.notifiers[n].Committed? ==> s.notifiers[n].version < |s.complete|)
    && (forall w :: w in s.waiters ==> WaiterOk(s, w))
  }

  lemma OutstandingStays(s: State, e: Event, v: nat)
    requires Enabled(s, e) && Outstanding(s, v)
    ensures Outstanding(Apply(s, e), v) || Apply(s, e).revision > s.revision
  {
    var n :| n in s.notifiers && s.notifiers[n].Committed? && s.notifiers[n].version > v;
    var t := Apply(s, e);
    if t.revision == s.revision {
      assert n in t.notifiers && t.notifiers[n] == s.notifiers[n];
    }
  }

  lemma InformedStays(s: State, e: Event, r: nat, v: nat)
    requires Enabled(s, e) && Informed(s, r, v)
    ensures Informed(Apply(s, e), r, v)
  {
    var t := Apply(s, e);
    if Outstanding(s, v) {
      OutstandingStays(s, e, v);
    } else if v == |s.complete| - 1 && e.GraphChange? {
      assert t.notifiers[e.n] == Committed(|s.complete|);
    }
  }

  /** Once the predicate of a sleeper holds, the wake-up stays due until it is delivered. */
  lemma WakeStays(s: State, e: Event, w: Waiter, r: nat)
    requires Enabled(s, e) && (Changed(s, w, r) ==> AboutToWake(s)) && !e.NotifyAll? && !e.Prepare?
    ensures Changed(Apply(s, e), w, r) ==> AboutToWake(Apply(s, e))
  {
    var t := Apply(s, e);
    if e.Callback? || e.Interrupt? || e.ShutDown? {
      assert e.n in t.notifiers && !t.notifiers[e.n].Committed?;
    } else if AboutToWake(s) {
      var n :| n in s.notifiers && (s.notifiers[n].Counted? || s.notifiers[n].ShuttingDown?);
      assert n in t.notifiers && t.notifiers[n] == s.notifiers[n];
    }
  }

  lemma PrepareKeeps(s: State, w: Waiter, u: Waiter)
    requires Inv(s) && w !in s.tokens && u in s.waiters
    ensures WaiterOk(Apply(s, Prepare(w)), u)
  {
    var t := Apply(s, Prepare(w));
    assert WaiterOk(s, u);
    assert forall v :: Outstanding(s, v) ==> Outstanding(t, v);
    assert AboutToWake(s) ==> AboutToWake(t);
  }

  lemma WaiterKept(s: State, e: Event, w: Waiter)
    requires Inv(s) && Enabled(s, e) && w in Apply(s, e).waiters
    ensures WaiterOk(Apply(s, e), w)
  {
    var t := Apply(s, e);
    if w in s.waiters && !s.waiters[w].Observed? {
      assert WaiterOk(s, w);
      InformedStays(s, e, s.waiters[w].revision, s.waiters[w].version);
      hide Informed, Outstanding;
      if e.Prepare? {
        PrepareKeeps(s, e.w, w);
      } else if !e.NotifyAll? {
        if s.waiters[w].Asleep? {
          WakeStays(s, e, w, s.waiters[w].revision);
        }
      }
    } else if w in s.waiters {
      assert WaiterOk(s, w);
    }
  }

  lemma StepKeepsInvariant(s: State, e: Event)
    requires Inv(s) && Enabled(s, e)
    ensures Inv(Apply(s, e))
  {
    forall w | w in Apply(s, e).waiters ensures WaiterOk(Apply(s, e), w) {
      WaiterKept(s, e, w);
    }
    hide WaiterOk;
  }

  lemma {:induction false} RunKeepsInvariant(states: seq<State>, events: seq<Event>, k: nat)
    requires IsRun(states, events) && k < |states|
    ensures Inv(states[k])
  {
    if k > 0 {
      RunKeepsInvariant(states, events, k - 1);
      assert Enabled(states[k - 1], events[k - 1]) && states[k] == Apply(states[k - 1], events[k - 1]);
      hide Inv, Apply, Enabled;
      StepKeepsInvariant(states[k - 1], events[k - 1]);
    }
  }

  // --------------------------------------------------------------- main theorem

  /** No lost wake-up: while a thread sleeps and its predicate is false, either the graph holds
      no complete server or a committed change still has its notification outstanding; and once
      its predicate is true, the wake-up of all sleepers is outstanding. */
  lemma NoLostWakeup(states: seq<State>, events: seq<Event>, k: nat, w: Waiter)
    requires IsRun(states, events) && k < |states| && w in states[k].waiters && states[k].waiters[w].Asleep?
    ensures var s := states[k];
      var r := s.waiters[w].revision;
      && s.complete != []
      && (!Changed(s, w, r) ==> !s.complete[|s.complete| - 1] || Outstanding(s, s.waiters[w].version))
      && (Changed(s, w, r) ==> AboutToWake(s))
  {
    RunKeepsInvariant(states, events, k);
    hide IsRun;
    assert WaiterOk(states[k], w);
  }

  /** So a sleeper that nobody is about to wake may go on sleeping: when every notification has
      been delivered there is no complete server, no interruption and no shutdown. */
  lemma QuietSleepersAreRight(states: seq<State>, events: seq<Event>, k: nat, w: Waiter)
    requires IsRun(states, events) && k < |states| && w in states[k].waiters && states[k].waiters[w].Asleep?
    requires states[k].notifiers == map[]
    ensures states[k].complete != [] && !states[k].complete[|states[k].complete| - 1]
    ensures !states[k].shutdown && (w in states[k].tokens ==> states[k].tokens[w] == states[k].generation)
  {
    NoLostWakeup(states, events, k, w);
  }

  // ------------------------------------------------------------------ the objects

  class AvailabilityWaitState {
    var revision: nat
    var generation: nat

    constructor ()
      ensures revision == 0 && generation == 0
    {
      revision, generation := 0, 0;
    }

    method Prepare() returns (token: nat)
      ensures token == generation
    {
      token := generation;
    }

    /** `notify_revision` up to `notify_all`. */
    method NotifyRevision()
      modifies this`revision
      ensures revision == old(revision) + 1
    {
      revision := revision + 1;
    }

    /** `interrupt` up to `notify_all`: tokens prepared before are interrupted, and the revision
        moves so that no sleeper's predicate stays false. */
    method Interrupt()
      modifies this
      ensures revision == old(revision) + 1 && generation == old(generation) + 1
    {
      generation := generation + 1;
      revision := revision + 1;
    }

    /** The decision before sleeping: the thread sleeps exactly if the context is up and nothing
        has changed since it noted the revision. */
    method MaySleep(token: nat, observed: nat, shutdown: bool) returns (sleep: bool)
      ensures sleep <==> !shutdown && revision == observed && token == generation
    {
      if shutdown || token != generation {
        return false;
      }
      sleep := revision == observed;
    }
  }
}
