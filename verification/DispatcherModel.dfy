/** The native I/O dispatcher as a state machine: one event per section of
    `native_io.cpp` that runs under the dispatcher or mailbox mutex.  Ready lists and
    completion rings are sequences here; `Dispatcher` proves that the linked lists and
    ring buffers of the implementation are these sequences. */
module DispatcherModel {
  import opened Common

  const CAPACITY: nat := 256
  const ORDINARY_LIMIT: nat := 224
  const SIZE_MAX: nat := 0xFFFF_FFFF_FFFF_FFFF
  const MAX_RETRIES: nat := 3
  const MILLISECOND: nat := 1_000_000

  datatype JobKind =
    | Publish
    | ServiceRequest
    | ServiceResponse
    | DiscardRequest
    | GoalRequest
    | CancelRequest
    | ResultRequest
    | GoalResponse
    | CancelResponse
    | ResultResponse
    | Feedback
    | Status

  datatype Record = Record(
    executorId: nat, attachmentGeneration: nat, operationId: nat, entityId: nat, kind: JobKind,
    failed: bool, skipped: bool, cleanupFailed: bool, error: ErrorCode, diagnostic: string,
    requestId: Option<nat>)

  datatype SlotState = Free | Reserved | Queued | Running | RetryWaiting | Completed

  /** One admission slot.  `port` is the identity of the completion port; identities are
      never reused, so it stands for the shared pointer.  The intrusive `next` link is kept
      by `Dispatcher` in an array of its own. */
  datatype Slot = Slot(
    ticket: nat, state: SlotState, control: bool, priority: bool, retries: nat, retryDue: int,
    completion: Record, port: nat, job: Option<nat>)

  datatype Port = Port(ring: seq<nat>, outstanding: nat, accepting: bool)

  /** Where the worker thread stands between two critical sections. */
  datatype Worker =
    | Scheduling                  // inside, or about to enter, the scheduling section
    | Holding(index: nat)         // owns a Running slot without any lock
    | Publishing(index: nat)      // has marked the slot Completed, has not appended it yet
    | Exited

  /** What has happened so far, by ticket; nothing in the program reads it. */
  datatype History = History(
    owner: map<nat, nat>, enqueued: set<nat>, started: seq<nat>, cancelled: set<nat>,
    published: map<nat, seq<nat>>, acknowledged: map<nat, seq<nat>>, freed: seq<nat>)

  datatype State = State(
    slots: seq<Slot>, control: seq<nat>, user: seq<nat>, ports: map<nat, Port>,
    used: nat, ordinary: nat, nextTicket: nat, nextOwner: nat, stopping: bool,
    worker: Worker, history: History)

  datatype Event =
    | OpenRoute
    | StopRoute(port: nat)
    | RetireRoute(port: nat)
    | Reserve(port: nat, record: Record, forControl: bool)
    | Install(slot: nat, job: nat)
    | Enqueue(slot: nat)
    | Cancel(slot: nat)
    | Abandon(slot: nat)
    | Promote(slot: nat, now: int)
    | Start
    | Execute(result: Record)
    | Retry(now: int)
    | Park(now: int)
    | Complete
    | Append
    | Acknowledge(port: nat)
    | BeginStop
    | Exit

  const NO_RECORD := Record(0, 0, 0, 0, JobKind.Publish, false, false, false, DDSError, "", None)
  const EMPTY_SLOT := Slot(0, Free, false, false, 0, 0, NO_RECORD, 0, None)

  function Initial(): State {
    State(seq(CAPACITY, _ => EMPTY_SLOT), [], [], map[], 0, 0, 1, 1, false, Scheduling,
          History(map[], {}, [], {}, map[], map[], []))
  }

  /** Kinds whose jobs wait in the priority ready list. */
  predicate IsPriority(kind: JobKind) {
    kind.ServiceResponse? || kind.DiscardRequest? || kind.GoalResponse? ||
    kind.CancelResponse? || kind.ResultResponse?
  }

  predicate Due(slot: Slot, now: int) {
    slot.state == RetryWaiting && slot.retryDue <= now
  }

  /** Exponential back-off of the bounded retry. */
  function BackOff(retries: nat): nat {
    if retries == 0 then 10 * MILLISECOND else 2 * BackOff(retries - 1)
  }

  predicate HasFree(slots: seq<Slot>) {
    exists i :: 0 <= i < |slots| && slots[i].state == Free
  }

  function FirstFree(slots: seq<Slot>): (i: nat)
    requires HasFree(slots)
    ensures i < |slots| && slots[i].state == Free
    ensures forall j :: 0 <= j < i ==> slots[j].state != Free
  {
    if slots[0].state == Free then 0
    else
      assert HasFree(slots[1..]) by {
        var i :| 0 <= i < |slots| && slots[i].state == Free;
        assert slots[1..][i - 1].state == Free;
      }
      var rest := FirstFree(slots[1..]);
      assert forall j :: 1 <= j < 1 + rest ==> slots[j] == slots[1..][j - 1];
      1 + rest
  }

  /** Why `reserve` refuses, in the order the checks are made. */
  function ReserveError(s: State, known: bool, port: nat, record: Record, control: bool): Option<ErrorCode>
    requires known ==> port in s.ports
  {
    if !known then Some(NotRegistered)
    else if control && !record.kind.GoalResponse? && !record.kind.CancelResponse? then Some(InvalidArgument)
    else if s.stopping || (!control && !s.ports[port].accepting) then Some(InvalidState)
    else if s.used == CAPACITY || (!control && s.ordinary == ORDINARY_LIMIT) then Some(ResourceExhausted)
    else if s.nextTicket == SIZE_MAX then Some(ResourceExhausted)
    else None
  }

  /** When the code would take the step. */
  predicate Enabled(s: State, e: Event) {
    match e
    case OpenRoute => !s.stopping && s.nextOwner != SIZE_MAX
    case StopRoute(p) => p in s.ports
    case RetireRoute(p) => p in s.ports && s.ports[p].outstanding == 0
    case Reserve(p, record, control) =>
      p in s.ports && ReserveError(s, true, p, record, control).None? && HasFree(s.slots)
    case Install(i, job) => i < |s.slots| && s.slots[i].state == Reserved && s.slots[i].job.None?
    case Enqueue(i) => i < |s.slots| && s.slots[i].state == Reserved && s.slots[i].job.Some?
    case Cancel(i) =>
      && i < |s.slots| && s.slots[i].state == Queued && s.slots[i].port in s.ports
      && i in ReadyList(s, s.slots[i].priority)
    case Abandon(i) => i < |s.slots| && s.slots[i].state == Reserved && Releasable(s, i)
    case Promote(i, now) => s.worker == Scheduling && i < |s.slots| && Due(s.slots[i], now)
    case Start => s.worker == Scheduling && (s.control != [] || s.user != []) && NextReady(s) < |s.slots|
    case Execute(_) => s.worker.Holding? && s.worker.index < |s.slots|
    case Retry(_) =>
      && s.worker.Holding? && s.worker.index < |s.slots| && s.slots[s.worker.index].completion.failed
      && s.slots[s.worker.index].retries < MAX_RETRIES
    case Park(_) => s.worker.Holding? && s.worker.index < |s.slots|
    case Complete => s.worker.Holding? && s.worker.index < |s.slots|
    case Append =>
      s.worker.Publishing? && s.worker.index < |s.slots| && s.slots[s.worker.index].port in s.ports
    case Acknowledge(p) =>
      && p in s.ports && s.ports[p].ring != [] && s.ports[p].ring[0] < |s.slots|
      && s.slots[s.ports[p].ring[0]].port == p && Releasable(s, s.ports[p].ring[0])
    case BeginStop => true
    case Exit =>
      && s.worker == Scheduling && s.stopping && s.control == [] && s.user == []
      && (forall i :: 0 <= i < |s.slots| ==> s.slots[i].state != RetryWaiting)
  }

  /** The counters can be decremented without wrapping. */
  predicate Releasable(s: State, i: nat)
    requires i < |s.slots|
  {
    && s.slots[i].port in s.ports && s.ports[s.slots[i].port].outstanding > 0 && s.used > 0
    && (s.slots[i].control || s.ordinary > 0)
  }

  function ReadyList(s: State, priority: bool): seq<nat> {
    if priority then s.control else s.user
  }

  function WithReadyList(s: State, priority: bool, list: seq<nat>): State {
    if priority then s.(control := list) else s.(user := list)
  }

  function NextReady(s: State): nat
    requires s.control != [] || s.user != []
  {
    if s.control != [] then s.control[0] else s.user[0]
  }

  /** Puts slot `i` at the end of the ready list its priority selects. */
  function MakeReady(s: State, i: nat): State
    requires i < |s.slots|
  {
    var list := ReadyList(s, s.slots[i].priority);
    WithReadyList(s.(slots := s.slots[i := s.slots[i].(state := Queued)]), s.slots[i].priority, list + [i])
  }

  /** Appends completed slot `i` to the mailbox of its port. */
  function Deliver(s: State, i: nat): State
    requires i < |s.slots| && s.slots[i].port in s.ports
  {
    var p := s.slots[i].port;
    var t := s.slots[i].ticket;
    s.(ports := s.ports[p := s.ports[p].(ring := s.ports[p].ring + [i])],
       history := s.history.(published := s.history.published[p := At(s.history.published, p) + [t]]))
  }

  /** Frees slot `i` and gives its capacity back. */
  function Release(s: State, i: nat): State
    requires i < |s.slots| && Releasable(s, i)
  {
    var p := s.slots[i].port;
    s.(slots := s.slots[i := s.slots[i].(state := Free, port := 0, job := None)],
       ports := s.ports[p := s.ports[p].(outstanding := s.ports[p].outstanding - 1)],
       used := s.used - 1,
       ordinary := if s.slots[i].control then s.ordinary else s.ordinary - 1,
       history := s.history.(freed := s.history.freed + [s.slots[i].ticket]))
  }

  function ReservedSlot(s: State, port: nat, record: Record, control: bool, free: Slot): Slot {
    free.(ticket := s.nextTicket, state := Reserved, control := control, priority := IsPriority(record.kind),
         retries := 0, completion := record.(executorId := port), port := port)
  }

  function Apply(s: State, e: Event): State
    requires Enabled(s, e)
  {
    match e
    case OpenRoute => s.(ports := s.ports[s.nextOwner := Port([], 0, true)], nextOwner := s.nextOwner + 1)
    case StopRoute(p) => s.(ports := s.ports[p := s.ports[p].(accepting := false)])
    case RetireRoute(p) => s.(ports := s.ports - {p})
    case Reserve(p, record, control) =>
      var i := FirstFree(s.slots);
      s.(slots := s.slots[i := ReservedSlot(s, p, record, control, s.slots[i])],
         ports := s.ports[p := s.ports[p].(outstanding := s.ports[p].outstanding + 1)],
         used := s.used + 1,
         ordinary := if control then s.ordinary else s.ordinary + 1,
         nextTicket := s.nextTicket + 1,
         history := s.history.(owner := s.history.owner[s.nextTicket := p]))
    case Install(i, job) => s.(slots := s.slots[i := s.slots[i].(job := Some(job))])
    case Enqueue(i) =>
      MakeReady(s, i).(history := s.history.(enqueued := s.history.enqueued + {s.slots[i].ticket}))
    case Cancel(i) =>
      var slot := s.slots[i].(completion := s.slots[i].completion.(skipped := true), state := Completed);
      var list := Removed(ReadyList(s, s.slots[i].priority), i);
      var s1 := WithReadyList(s.(slots := s.slots[i := slot]), s.slots[i].priority, list);
      Deliver(s1.(history := s.history.(cancelled := s.history.cancelled + {slot.ticket})), i)
    case Abandon(i) => Release(s, i)
    case Promote(i, now) => MakeReady(s, i)
    case Start =>
      var i := NextReady(s);
      var s1 := if s.control != [] then s.(control := s.control[1..]) else s.(user := s.user[1..]);
      s1.(slots := s.slots[i := s.slots[i].(state := Running)], worker := Holding(i),
          history := s.history.(started := s.history.started + [s.slots[i].ticket]))
    case Execute(result) =>
      var i := s.worker.index;
      s.(slots := s.slots[i := s.slots[i].(completion := result)])
    case Retry(now) =>
      var i := s.worker.index;
      var slot := s.slots[i].(state := RetryWaiting, retryDue := now + BackOff(s.slots[i].retries),
                              retries := s.slots[i].retries + 1);
      s.(slots := s.slots[i := slot], worker := Scheduling)
    case Park(now) =>
      var i := s.worker.index;
      var slot := s.slots[i].(state := RetryWaiting, retryDue := now + 50 * MILLISECOND);
      s.(slots := s.slots[i := slot], worker := Scheduling)
    case Complete =>
      var i := s.worker.index;
      s.(slots := s.slots[i := s.slots[i].(state := Completed)], worker := Publishing(i))
    case Append => Deliver(s, s.worker.index).(worker := Scheduling)
    case Acknowledge(p) =>
      var i := s.ports[p].ring[0];
      var t := s.slots[i].ticket;
      var s1 := s.(ports := s.ports[p := s.ports[p].(ring := s.ports[p].ring[1..])],
                   history := s.history.(acknowledged :=
                     s.history.acknowledged[p := At(s.history.acknowledged, p) + [t]]));
      Release(s1, i)
    case BeginStop => s.(stopping := true)
    case Exit => s.(worker := Exited)
  }

  /** The worker's decision to repeat a failed attempt. */
  predicate ShouldRetry(ran: Record, retries: nat, retryable: bool, maxAttempts: nat) {
    ran.failed && !ran.error.ProtocolFault? && retryable && retries < MAX_RETRIES && retries + 1 < maxAttempts
  }

  /** What a job answers during one turn of the worker: the record after `run`, whether and
      how often it may be repeated, the record after `after_failed_delivery`, and whether
      cleanup is still pending. */
  datatype Answers = Answers(ran: Record, retryable: bool, maxAttempts: nat, cleaned: Record, cleanupPending: bool)

  /** The events of one turn of the worker with the slot it holds. */
  function TurnEvents(s: State, job: Answers, now: int): seq<Event>
    requires s.worker.Holding? && s.worker.index < |s.slots|
  {
    if ShouldRetry(job.ran, s.slots[s.worker.index].retries, job.retryable, job.maxAttempts)
    then [Execute(job.ran), Retry(now)]
    else [Execute(job.ran)] + (if job.ran.failed then [Execute(job.cleaned)] else [])
         + (if job.cleanupPending then [Park(now)] else [Complete, Append])
  }

  /** Every delayed slot below `n` whose time has come joins its ready list, in index order. */
  function Promoted(s: State, now: int, n: nat): (r: State)
    requires n <= |s.slots|
    ensures |r.slots| == |s.slots| && r.worker == s.worker && r.stopping == s.stopping
  {
    if n == 0 then s
    else
      var before := Promoted(s, now, n - 1);
      if Due(before.slots[n - 1], now) then MakeReady(before, n - 1) else before
  }

  /** A run from the dispatcher's construction: any interleaving of enabled events. */
  ghost predicate IsRun(states: seq<State>, events: seq<Event>) {
    && |states| == |events| + 1
    && states[0] == Initial()
    && (forall k {:trigger events[k]} :: 0 <= k < |events| ==>
          Enabled(states[k], events[k]) && states[k + 1] == Apply(states[k], events[k]))
  }
}
