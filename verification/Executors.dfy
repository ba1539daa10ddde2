/** `Future` and the shutdown side of the executor, updated in place section by section and
    proved against the steps of FutureBarrier. */
module Executors {
  import opened Common
  import B = FutureBarrier
  import I = FutureBarrierInvariant

  /** The fields of a Future that its condition variable guards. */
  class Future {
    var status: B.Status
    var callbacks: seq<B.Callback>

    constructor ()
      ensures status == B.Pending && callbacks == []
    {
      status, callbacks := B.Pending, [];
    }

    ghost function Value(): B.Future
      reads this
    {
      B.Future(status, callbacks)
    }
  }

  class Executor {
    var state: B.Exec
    var futures: map<B.Fut, Future>
    var producers: nat
    var notifications: seq<B.Callback>
    ghost var m: B.State

    /** Each Future object is registered once and shows what the model says. */
    ghost predicate Shown()
      reads this, futures.Values
    {
      && m.futures.Keys == futures.Keys
      && (forall f :: f in futures ==> futures[f].Value() == m.futures[f])
      && (forall f, g :: f in futures && g in futures && f != g ==> futures[f] != futures[g])
    }

    ghost predicate Valid()
      reads this, futures.Values
    {
      && Shown() && m.exec == state && m.producers == producers && m.queue == notifications
      && I.Inv(m)
    }

    constructor ()
      ensures Valid() && m == B.Initial()
    {
      state, futures, producers, notifications := B.Running, map[], 0, [];
      m := B.Initial();
      new;
      I.InitialInv();
    }

    /** `_register_future`: admission is refused once shutdown was requested. */
    method Register(f: B.Fut) returns (r: Result<Future>)
      requires Valid() && f !in futures
      modifies this
      ensures Valid()
      ensures r.Success? <==> old(state) == B.Running
      ensures r.Success? ==>
        && m == B.Apply(old(m), B.Register(f))
        && futures == old(futures)[f := r.value] && fresh(r.value)
      ensures r.Failure? ==> m == old(m) && futures == old(futures)
    {
      hide I.Inv;
      if state != B.Running {
        return Failure(InvalidState);
      }
      I.StepKeepsInvariant(m, B.Register(f));
      var future := new Future();
      futures := futures[f := future];
      m := B.Apply(m, B.Register(f));
      r := Success(future);
    }

    /** `_begin_future_notification` for a `_finish` that saw a pending Future. */
    method BeginFinish(ghost a: B.Agent) returns (reserved: bool)
      requires Valid() && B.Enabled(m, B.BeginFinish(a))
      modifies this`m, this`producers
      ensures Valid() && m == B.Apply(old(m), B.BeginFinish(a))
      ensures reserved <==> a in m.agents
    {
      hide I.Inv;
      I.StepKeepsInvariant(m, B.BeginFinish(a));
      m := B.Apply(m, B.BeginFinish(a));
      reserved := state != B.Stopped;
      if reserved {
        producers := producers + 1;
      }
    }

    /** The terminal section of `_finish`: only the first caller wins, and it takes all the
        callbacks with it. */
    method CommitFinish(ghost a: B.Agent, f: B.Fut, outcome: B.Status) returns (won: bool, callbacks: seq<B.Callback>)
      requires Valid() && B.Enabled(m, B.CommitFinish(a)) && m.agents[a] == B.Begun(f, outcome)
      modifies this`m, futures[f]
      ensures Valid() && m == B.Apply(old(m), B.CommitFinish(a)) && f in futures
      ensures won <==> old(m).futures[f].status == B.Pending
      ensures won ==> callbacks == old(m).futures[f].callbacks && m.agents[a] == B.Publishing(f, callbacks)
    {
      hide I.Inv;
      I.StepKeepsInvariant(m, B.CommitFinish(a));
      ghost var s := m;
      m := B.Committed(m, a);
      var future := futures[f];
      assert future.Value() == s.futures[f];
      if future.status != B.Pending {
        return false, [];
      }
      won, callbacks := true, future.callbacks;
      future.status, future.callbacks := outcome, [];
    }

    /** The registering section of `add_done_callback`. */
    method CommitAdd(ghost a: B.Agent, f: B.Fut, cb: B.Callback) returns (queued: bool)
      requires Valid() && B.Enabled(m, B.CommitAdd(a)) && m.agents[a] == B.Adding(f) && cb == |m.place|
      modifies this`m, futures[f]
      ensures Valid() && m == B.Apply(old(m), B.CommitAdd(a)) && f in futures
      ensures queued <==> m.agents[a] == B.Ending
    {
      hide I.Inv;
      I.StepKeepsInvariant(m, B.CommitAdd(a));
      ghost var s := m;
      m := B.Added(m, a);
      var future := futures[f];
      assert future.Value() == s.futures[f];
      queued := future.status == B.Pending;
      if queued {
        future.callbacks := future.callbacks + [cb];
      }
    }

    /** `_schedule_done_callback`: within a reservation the executor cannot be stopped. */
    method Schedule(ghost a: B.Agent, cb: B.Callback)
      requires Valid() && B.Enabled(m, B.Publish(a)) && m.agents[a].callbacks[0] == cb
      modifies this`m, this`notifications
      ensures Valid() && m == B.Apply(old(m), B.Publish(a))
      ensures state != B.Stopped && notifications == old(notifications) + [cb]
    {
      hide I.Inv;
      CannotBeStopped(m, a);
      I.StepKeepsInvariant(m, B.Publish(a));
      m := B.Published(m, a);
      if state == B.Stopped {
        assert false;
      }
      notifications := notifications + [cb];
    }

    static lemma CannotBeStopped(s: B.State, a: B.Agent)
      requires I.Inv(s) && a in s.agents && !s.agents[a].Probed?
      ensures s.exec != B.Stopped && s.producers > 0
    {
      hide I.ListsOk, I.CarriersOk, I.QueueOk, I.PlacesOk, I.CallsOk, I.CommitsOk, I.WalkOk;
      I.HoldersAfter(s.agents, a, B.Ending);
    }

    /** `_end_future_notification`. */
    method EndNotification(ghost a: B.Agent)
      requires Valid() && a in m.agents && m.agents[a] == B.Ending
      modifies this`m, this`producers
      ensures B.Enabled(old(m), B.End(a)) && Valid() && m == B.Apply(old(m), B.End(a))
    {
      hide I.Inv;
      CannotBeStopped(m, a);
      I.StepKeepsInvariant(m, B.End(a));
      m := B.Apply(m, B.End(a));
      producers := producers - 1;
    }

    /** `_request_shutdown`. */
    method RequestShutdown()
      requires Valid()
      modifies this`m, this`state
      ensures Valid() && m == B.Apply(old(m), B.RequestShutdown) && state != B.Running
    {
      hide I.Inv;
      I.StepKeepsInvariant(m, B.RequestShutdown);
      m := B.Apply(m, B.RequestShutdown);
      if state != B.Stopped {
        state := B.Stopping;
      }
    }

    /** One round of the loop in `_control`: take the oldest notification. */
    method TakeNotification() returns (cb: B.Callback)
      requires Valid() && B.Enabled(m, B.TakeNotification)
      modifies this`m, this`notifications
      ensures Valid() && m == B.Apply(old(m), B.TakeNotification)
      ensures [cb] + notifications == old(notifications)
    {
      hide I.Inv;
      I.StepKeepsInvariant(m, B.TakeNotification);
      m := B.Apply(m, B.TakeNotification);
      cb := notifications[0];
      notifications := notifications[1..];
    }

    /** The last section of `_drain_shutdown`: once it stops the executor, every Future is
        terminal and every callback has been invoked. */
    method TestBarrier(operationsLeft: bool) returns (stopped: bool)
      requires Valid() && m.control == B.Testing
      modifies this`m, this`state
      ensures Valid() && m == B.Apply(old(m), B.Test(operationsLeft))
      ensures stopped <==> state == B.Stopped
      ensures stopped ==> forall f :: f in futures ==> futures[f].status != B.Pending
    {
      hide I.Inv;
      I.StepKeepsInvariant(m, B.Test(operationsLeft));
      TestingMeansSettled(m);
      m := B.Apply(m, B.Test(operationsLeft));
      stopped := !(producers > 0 || notifications != [] || operationsLeft);
      if stopped {
        state := B.Stopped;
      }
      assert forall f :: f in futures ==> futures[f].Value() == m.futures[f];
    }

    static lemma TestingMeansSettled(s: B.State)
      requires I.Inv(s) && s.control == B.Testing
      ensures s.exec == B.Stopping && forall f :: f in s.futures ==> s.futures[f].status != B.Pending
    {
      assert forall f :: f in s.futures && s.futures[f].status == B.Pending ==> I.MayBePending(s, f);
    }
  }
}
