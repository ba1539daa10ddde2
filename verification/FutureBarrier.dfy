/** Future arbitration against executor shutdown: `future.py` and the notification counting,
    control loop and shutdown barrier of `executors.py`. Each locked section is one step;
    any number of threads (agents) interleave with the one control owner. */
module FutureBarrier {
  import opened Common

  type Fut = nat
  type Agent = nat
  type Callback = nat   // the number of one accepted registration

  datatype Exec = Running | Stopping | Stopped

  datatype Status = Pending | Finished | Canceled

  datatype Future = Future(status: Status, callbacks: seq<Callback>)

  /** Where a thread stands inside `_finish` or `add_done_callback`. */
  datatype Pc =
    | Probed(f: Fut, outcome: Status)                   // `_finish` saw Pending, reservation is next
    | Begun(f: Fut, outcome: Status)                    // reserved, terminal commit is next
    | Adding(f: Fut)                                    // reserved, registration is next
    | Publishing(f: Fut, callbacks: seq<Callback>)      // reserved, these are still to be queued
    | Ending                                            // reserved, the reservation goes back next

  /** The control owner: at large, walking the Futures of `_drain_shutdown`, inside one of its
      `_try_set_exception` calls, in the `_control` that follows, or before the final test. */
  datatype Control = Idle | Walking(todo: set<Fut>) | Calling(todo: set<Fut>, f: Fut, agent: Agent) | Settling | Testing

  /** The one place an accepted callback can be in; Lost when a stopped executor refused it. */
  datatype Place = Listed(f: Fut) | Carried(agent: Agent) | Queued | InHand | Invoked | Removed | Lost

  /** `place` and `calls` have one entry per accepted callback, `commits` counts the terminal
      transitions of a Future. */
  datatype State = State(exec: Exec, futures: map<Fut, Future>, producers: nat, queue: seq<Callback>,
                         agents: map<Agent, Pc>, control: Control, hand: Option<Callback>, place: seq<Place>,
                         calls: seq<nat>, commits: map<Fut, nat>)

  datatype Event =
    | Register(f: Fut)
    | Probe(a: Agent, f: Fut, outcome: Status)
    | BeginFinish(a: Agent)
    | CommitFinish(a: Agent)
    | AbortCancel(a: Agent)
    | BeginAdd(a: Agent, f: Fut)
    | CommitAdd(a: Agent)
    | Publish(a: Agent)
    | PublishDone(a: Agent)
    | End(a: Agent)
    | Remove(f: Fut, cb: Callback)
    | RequestShutdown
    | TakeNotification
    | Invoke
    | StartDrain
    | CallFinish(a: Agent, f: Fut)
    | ReturnFinish
    | DrainDone
    | Settled
    | Test(operationsLeft: bool)

  function Initial(): State {
    State(Running, map[], 0, [], map[], Idle, None, [], [], map[])
  }

  predicate Enabled(s: State, e: Event) {
    match e
    case Register(f) => s.exec == Running && f !in s.futures
    case Probe(a, f, outcome) => a !in s.agents && f in s.futures && outcome != Pending
    case BeginFinish(a) => a in s.agents && s.agents[a].Probed?
    case CommitFinish(a) => a in s.agents && s.agents[a].Begun? && s.agents[a].f in s.futures
    case AbortCancel(a) => a in s.agents && s.agents[a].Begun? && s.agents[a].outcome == Canceled
    case BeginAdd(a, f) => a !in s.agents && f in s.futures
    case CommitAdd(a) => a in s.agents && s.agents[a].Adding? && s.agents[a].f in s.futures
    case Publish(a) => a in s.agents && s.agents[a].Publishing? && s.agents[a].callbacks != []
    case PublishDone(a) => a in s.agents && s.agents[a].Publishing? && s.agents[a].callbacks == []
    case End(a) => a in s.agents && s.agents[a].Ending? && s.producers > 0
    case Remove(f, cb) => f in s.futures && cb in s.futures[f].callbacks && cb < |s.place|
    case RequestShutdown => true
    case TakeNotification => s.hand == None && (s.control == Idle || s.control == Settling) && s.queue != []
    case Invoke => s.hand.Some? && s.hand.value < |s.place| && s.hand.value < |s.calls|
    case StartDrain => s.hand == None && s.control == Idle && s.exec == Stopping
    case CallFinish(a, f) =>
      s.hand == None && s.control.Walking? && f in s.control.todo && f in s.futures && a !in s.agents
    case ReturnFinish => s.control.Calling? && s.control.agent !in s.agents
    case DrainDone => s.control == Walking({})
    case Settled => s.hand == None && s.control == Settling && s.queue == []
    case Test(_) => s.control == Testing
  }

  function Move(place: seq<Place>, cb: Callback, to: Place): seq<Place> {
    if cb < |place| then place[cb := to] else place
  }

  /** All of `cbs` are now carried by `a`. */
  function MoveAll(place: seq<Place>, cbs: seq<Callback>, to: Place): (r: seq<Place>)
    ensures |r| == |place|
    ensures forall cb :: 0 <= cb < |place| ==> r[cb] == if cb in cbs then to else place[cb]
  {
    seq(|place|, cb requires 0 <= cb < |place| => if cb in cbs then to else place[cb])
  }

  function Bump(m: map<Fut, nat>, f: Fut): map<Fut, nat> {
    m[f := (if f in m then m[f] else 0) + 1]
  }

  function Without(cbs: seq<Callback>, cb: Callback): seq<Callback>
    requires cb in cbs
  {
    Common.Removed(cbs, cb)
  }

  /** The first section of `_finish`. */
  function Probing(s: State, a: Agent, f: Fut, outcome: Status): State
    requires f in s.futures
  {
    if s.futures[f].status != Pending then s else s.(agents := s.agents[a := Probed(f, outcome)])
  }

  /** The terminal section of `_finish`. */
  function Committed(s: State, a: Agent): State
    requires a in s.agents && s.agents[a].Begun? && s.agents[a].f in s.futures
  {
    var f := s.agents[a].f;
    if s.futures[f].status != Pending then s.(agents := s.agents[a := Ending])
    else
      var cbs := s.futures[f].callbacks;
      s.(futures := s.futures[f := Future(s.agents[a].outcome, [])], agents := s.agents[a := Publishing(f, cbs)],
         place := MoveAll(s.place, cbs, Carried(a)), commits := Bump(s.commits, f))
  }

  /** The registering section of `add_done_callback`. */
  function Added(s: State, a: Agent): State
    requires a in s.agents && s.agents[a].Adding? && s.agents[a].f in s.futures
  {
    var f := s.agents[a].f;
    var cb := |s.place|;
    if s.futures[f].status == Pending then
      s.(futures := s.futures[f := s.futures[f].(callbacks := s.futures[f].callbacks + [cb])],
         agents := s.agents[a := Ending], place := s.place + [Listed(f)], calls := s.calls + [0])
    else
      s.(agents := s.agents[a := Publishing(f, [cb])], place := s.place + [Carried(a)], calls := s.calls + [0])
  }

  /** `_schedule_done_callback`: a stopped executor would lose the callback. */
  function Published(s: State, a: Agent): State
    requires a in s.agents && s.agents[a].Publishing? && s.agents[a].callbacks != []
  {
    var x := s.agents[a];
    var cb := x.callbacks[0];
    var left := s.(agents := s.agents[a := x.(callbacks := x.callbacks[1..])]);
    if s.exec == Stopped then left.(place := Move(s.place, cb, Lost))
    else left.(queue := s.queue + [cb], place := Move(s.place, cb, Queued))
  }

  function Apply(s: State, e: Event): State
    requires Enabled(s, e)
  {
    match e
    case Register(f) => s.(futures := s.futures[f := Future(Pending, [])])
    case Probe(a, f, outcome) => Probing(s, a, f, outcome)
    case BeginFinish(a) =>
      if s.exec == Stopped then s.(agents := s.agents - {a})
      else s.(producers := s.producers + 1, agents := s.agents[a := Begun(s.agents[a].f, s.agents[a].outcome)])
    case CommitFinish(a) => Committed(s, a)
    case AbortCancel(a) => s.(agents := s.agents[a := Ending])
    case BeginAdd(a, f) =>
      if s.exec == Stopped then s
      else s.(producers := s.producers + 1, agents := s.agents[a := Adding(f)])
    case CommitAdd(a) => Added(s, a)
    case Publish(a) => Published(s, a)
    case PublishDone(a) => s.(agents := s.agents[a := Ending])
    case End(a) => s.(producers := s.producers - 1, agents := s.agents - {a})
    case Remove(f, cb) =>
      s.(futures := s.futures[f := s.futures[f].(callbacks := Without(s.futures[f].callbacks, cb))],
         place := s.place[cb := Place.Removed])
    case RequestShutdown => if s.exec == Stopped then s else s.(exec := Stopping)
    case TakeNotification =>
      s.(queue := s.queue[1..], hand := Some(s.queue[0]), place := Move(s.place, s.queue[0], InHand))
    case Invoke =>
      s.(hand := None, place := s.place[s.hand.value := Invoked],
         calls := s.calls[s.hand.value := s.calls[s.hand.value] + 1])
    case StartDrain => s.(control := Walking(s.futures.Keys))
    case CallFinish(a, f) => Probing(s, a, f, Finished).(control := Calling(s.control.todo - {f}, f, a))
    case ReturnFinish => s.(control := Walking(s.control.todo))
    case DrainDone => s.(control := Settling)
    case Settled => s.(control := Testing)
    case Test(operationsLeft) =>
      if s.producers > 0 || s.queue != [] || operationsLeft then s.(control := Idle)
      else s.(control := Idle, exec := Stopped)
  }

  ghost predicate IsRun(states: seq<State>, events: seq<Event>) {
    && |states| == |events| + 1
    && states[0] == Initial()
    && (forall k {:trigger events[k]} :: 0 <= k < |events| ==>
          Enabled(states[k], events[k]) && states[k + 1] == Apply(states[k], events[k]))
  }
}
