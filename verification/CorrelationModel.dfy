/** Request/response correlation of the Python service client: the four tables of
    `client.py` with the operation table of its executor, the native sender and the network. */
module CorrelationModel {
  import opened Common

  const STAGING_LIMIT: nat := 4096
  const TOMBSTONE_LIMIT: nat := 4096
  const TOMBSTONE_SECONDS: int := 60

  type Op = nat
  type Rid = nat
  type Response = nat

  datatype Future = Pending | Result(response: Response) | Error | Canceled

  /** What the native send job put into its completion record. */
  datatype Completion = Sent(rid: Rid) | SendFailed | Skipped

  /** How far the native side is with one request. */
  datatype Native =
    | Entering                       // in the tables, but native_work is not set yet
    | Prepared                       // native_work is set, the dispatcher has not accepted it yet
    | Waiting                        // ticket not started
    | Sending                        // send_started is set, the write call has not returned
    | OnWire(rid: Rid)               // the request may already be answered
    | Finished(completion: Completion)
    | Drained(completion: Completion)

  datatype Early = Early(response: Response, candidates: set<Op>)

  datatype Operation = Operation(requestId: Option<Rid>, reconciled: bool)

  datatype Tombstone = Tombstone(rid: Rid, expiry: int)

  /** `pending` to `operations` are the program's tables; `futures` and `native` are the
      objects they refer to.  `answered` records, per identity, the first response whose
      reception went through, `lost` the identities without one of which a reception raised. */
  datatype State = State(
    pending: map<Rid, Op>, early: map<Rid, Early>, tombstones: seq<Tombstone>, unreconciled: set<Op>,
    operations: map<Op, Operation>, closing: bool, stopping: bool, nextOperation: Op,
    futures: map<Op, Future>, native: map<Op, Native>, cancels: set<Op>,
    clock: int, answered: map<Rid, Response>, lost: set<Rid>)

  datatype Event =
    | Enter
    | Prepare(op: Op)
    | Enqueue(op: Op)
    | SubmitFail(op: Op)
    | EnterInScan(rid: Rid, now: int)
    | SubmitFailInScan(op: Op, rid: Rid, now: int)
    | StartSend(op: Op)
    | Wire(op: Op, rid: Rid)
    | SendReturns(op: Op)
    | SendFails(op: Op)
    | SkipSend(op: Op)
    | Drain(op: Op, now: int)
    | Respond(rid: Rid, response: Response, now: int)
    | UserCancel(op: Op)
    | Terminal(op: Op, now: int)
    | CancelOne(op: Op, now: int)
    | Close
    | Stop
    | ClearEarly
    | RetireBindings

  function Initial(): State {
    State(map[], map[], [], {}, map[], false, false, 1, map[], map[], {}, 0, map[], {})
  }

  // ------------------------------------------------------------ table operations

  function Purged(stones: seq<Tombstone>, now: int): seq<Tombstone> {
    if stones != [] && stones[0].expiry <= now then Purged(stones[1..], now) else stones
  }

  ghost predicate Buried(stones: seq<Tombstone>, rid: Rid) {
    exists k :: 0 <= k < |stones| && stones[k].rid == rid
  }

  /** Position of the tombstone of `rid`, or the length. */
  function Grave(stones: seq<Tombstone>, rid: Rid): (k: nat)
    ensures k <= |stones|
    ensures k < |stones| ==> stones[k].rid == rid
    ensures k == |stones| <==> !Buried(stones, rid)
  {
    if stones == [] then 0
    else if stones[0].rid == rid then 0
    else
      var rest := Grave(stones[1..], rid);
      assert Buried(stones[1..], rid) ==> Buried(stones, rid);
      assert Buried(stones, rid) ==> Buried(stones[1..], rid) by {
        if Buried(stones, rid) {
          var k :| 0 <= k < |stones| && stones[k].rid == rid;
          assert stones[1..][k - 1].rid == rid;
        }
      }
      1 + rest
  }

  /** `_tombstone`. */
  function Entombed(stones: seq<Tombstone>, rid: Rid, now: int): seq<Tombstone> {
    var kept := Purged(stones, now);
    if Grave(kept, rid) < |kept| then kept
    else (if |kept| == TOMBSTONE_LIMIT then kept[1..] else kept) + [Tombstone(rid, now + TOMBSTONE_SECONDS)]
  }

  /** `_retire_candidate` on the early table. */
  function Retired(early: map<Rid, Early>, op: Op): map<Rid, Early> {
    map r | r in early && early[r].candidates != {op} :: early[r].(candidates := early[r].candidates - {op})
  }

  function Settle(futures: map<Op, Future>, op: Op, outcome: Future): map<Op, Future> {
    if op in futures && futures[op] == Pending then futures[op := outcome] else futures
  }

  predicate Started(n: Native) {
    match n
    case Entering => false
    case Prepared => false
    case Waiting => false
    case Finished(c) => !c.Skipped?
    case Drained(c) => !c.Skipped?
    case _ => true
  }

  /** The identity DDS gave the request, once it is on the wire. */
  function SentAs(n: Native): Option<Rid> {
    match n
    case OnWire(r) => Some(r)
    case Finished(Sent(r)) => Some(r)
    case Drained(Sent(r)) => Some(r)
    case _ => None
  }

  /** The operations a response of unknown identity may belong to. */
  function Candidates(s: State): set<Op> {
    set op | op in s.unreconciled && op in s.native && Started(s.native[op])
  }

  /** `_submit_request` is at work on the operation and holds the executor's lock. */
  predicate Submitting(s: State, op: Op) {
    op in s.native && (s.native[op] == Entering || s.native[op] == Prepared)
  }

  /** Some unreconciled operation has no native work yet. */
  predicate Halfway(s: State) {
    exists op :: op in s.unreconciled && op in s.native && s.native[op] == Entering
  }

  /** The reception of the sample reaches the scan of `_unreconciled`. */
  predicate Scans(s: State, rid: Rid, now: int) {
    now >= s.clock && !Stopped(s.tombstones, rid, now) && rid !in s.pending
  }

  // ---------------------------------------------------------------------- steps

  predicate Enabled(s: State, e: Event) {
    match e
    case Enter => MayEnter(s)
    case Prepare(op) => op in s.native && s.native[op] == Entering
    case Enqueue(op) => op in s.native && s.native[op] == Prepared
    case SubmitFail(op) => Submitting(s, op)
    case EnterInScan(rid, now) => MayEnter(s) && Scans(s, rid, now)
    case SubmitFailInScan(op, rid, now) => Submitting(s, op) && Scans(s, rid, now)
    case StartSend(op) => op in s.native && s.native[op] == Waiting
    case Wire(op, rid) =>
      && op in s.native && s.native[op] == Sending && rid !in s.answered && rid !in s.lost
      && (forall o :: o in s.native ==> SentAs(s.native[o]) != Some(rid))
    case SendReturns(op) => op in s.native && s.native[op].OnWire?
    case SendFails(op) => op in s.native && s.native[op] == Sending
    case SkipSend(op) => op in s.native && s.native[op] == Waiting && op in s.cancels
    case Drain(op, now) => Drainable(s, op) && now >= s.clock
    case Respond(rid, _, now) => now >= s.clock && (rid in s.pending ==> s.pending[rid] in s.operations)
    case UserCancel(op) => op in s.futures && !Submitting(s, op)
    case Terminal(op, now) => op in s.futures && s.futures[op] != Pending && !Submitting(s, op) && now >= s.clock
    case CancelOne(op, now) =>
      (s.closing || s.stopping) && op in s.operations && !Submitting(s, op) && now >= s.clock
    case Close => true
    case Stop => true
    case ClearEarly => s.closing
    case RetireBindings => s.closing
  }

  /** The executor admits work and its lock is free. */
  predicate MayEnter(s: State) {
    !s.stopping && forall op :: op in s.native ==> !Submitting(s, op)
  }

  predicate Drainable(s: State, op: Op) {
    op in s.native && s.native[op].Finished? && op in s.operations
  }

  /** The drained operation leaves every table; `spent` is the identity it was sent under. */
  function Left(s: State, op: Op, spent: Option<Rid>, futures: map<Op, Future>, now: int): State
    requires Drainable(s, op)
  {
    s.(clock := now, native := s.native[op := Native.Drained(s.native[op].completion)], futures := futures,
       unreconciled := s.unreconciled - {op}, operations := s.operations - {op},
       early := Retired(s.early - Named(spent), op),
       tombstones := if spent.Some? then Entombed(s.tombstones, spent.value, now) else s.tombstones)
  }

  /** The drained operation waits for the response to `rid`. */
  function Awaiting(s: State, op: Op, rid: Rid, now: int): State
    requires Drainable(s, op)
  {
    s.(clock := now, native := s.native[op := Native.Drained(s.native[op].completion)],
       unreconciled := s.unreconciled - {op}, operations := s.operations[op := Operation(Some(rid), true)],
       early := Retired(s.early - {rid}, op), pending := s.pending[rid := op])
  }

  /** `_send_committed` followed by the bookkeeping of `_drain_completions`. */
  function AfterDrain(s: State, op: Op, now: int): State
    requires Drainable(s, op)
  {
    match s.native[op].completion
    case SendFailed => Left(s, op, None, Settle(s.futures, op, Error), now)
    case Skipped => Left(s, op, None, s.futures, now)
    case Sent(rid) =>
      var futures := if s.closing then Settle(s.futures, op, Error) else s.futures;
      if (op in futures && futures[op] != Pending) || s.closing then Left(s, op, Some(rid), futures, now)
      else if rid in s.early then
        Left(s, op, Some(rid), Settle(futures, op, Result(s.early[rid].response)), now)
      else Awaiting(s, op, rid, now)
  }

  /** The sample is in and goes through. */
  function Heard(s: State, rid: Rid, response: Response, now: int): State {
    s.(clock := now, answered := if rid in s.answered then s.answered else s.answered[rid := response])
  }

  /** The response goes to the operation waiting for it. */
  function Answered(s: State, rid: Rid, response: Response): State
    requires rid in s.pending && s.pending[rid] in s.operations
  {
    var op := s.pending[rid];
    s.(pending := s.pending - {rid}, tombstones := Entombed(s.tombstones, rid, s.clock),
       operations := s.operations - {op}, futures := Settle(s.futures, op, Result(response)))
  }

  /** `_take_response` after the tombstone check. */
  function Taken(s: State, rid: Rid, response: Response): State
    requires rid in s.pending ==> s.pending[rid] in s.operations
  {
    if rid in s.pending then Answered(s, rid, response)
    else if Candidates(s) == {} || rid in s.early then s
    else if |s.early| == STAGING_LIMIT then s.(closing := true)
    else s.(early := s.early[rid := Early(response, Candidates(s))])
  }

  /** An unexpired tombstone stops the sample. */
  predicate Stopped(stones: seq<Tombstone>, rid: Rid, now: int) {
    var k := Grave(stones, rid);
    k < |stones| && stones[k].expiry > now
  }

  /** The tombstone of `rid`, if there is one, is deleted. */
  function Without(stones: seq<Tombstone>, rid: Rid): seq<Tombstone> {
    var k := Grave(stones, rid);
    if k < |stones| then stones[..k] + stones[k + 1..] else stones
  }

  /** The scan raises: the sample is already consumed, and nothing keeps it. */
  function Dropped(s: State, rid: Rid, now: int): State {
    s.(clock := now, tombstones := Without(s.tombstones, rid),
       lost := if rid in s.answered then s.lost else s.lost + {rid})
  }

  /** `_take_response` for one received sample.  The scan of `_unreconciled` raises when it
      meets an operation without native work. */
  function Received(s: State, rid: Rid, response: Response, now: int): State
    requires rid in s.pending ==> s.pending[rid] in s.operations
  {
    var t := Heard(s, rid, response, now);
    if Stopped(s.tombstones, rid, now) then t
    else if rid !in s.pending && Halfway(s) then Dropped(s, rid, now)
    else Taken(t.(tombstones := Without(s.tombstones, rid)), rid, response)
  }

  function Named(id: Option<Rid>): set<Rid> {
    if id.Some? then {id.value} else {}
  }

  /** `_cancel_operation`, and the removal its callers add for a reconciled operation. */
  function Withdrawn(s: State, op: Op, now: int): State
    requires op in s.operations
  {
    var id := s.operations[op].requestId;
    s.(clock := now, cancels := s.cancels + {op}, unreconciled := s.unreconciled - {op},
       operations := if s.operations[op].reconciled then s.operations - {op} else s.operations,
       pending := s.pending - Named(id), early := Retired(s.early - Named(id), op),
       tombstones := if id.Some? then Entombed(s.tombstones, id.value, now) else s.tombstones)
  }

  /** One round of `_cancel_entity_operations`. */
  function AfterCancel(s: State, op: Op, now: int): State
    requires op in s.operations
  {
    Withdrawn(s, op, now).(futures := Settle(s.futures, op, Error))
  }

  /** `_submit_request` up to the point where the operation is in both tables. */
  function Entered(s: State): State {
    var op := s.nextOperation;
    s.(nextOperation := op + 1, operations := s.operations[op := Operation(None, false)],
       unreconciled := s.unreconciled + {op}, futures := s.futures[op := Pending], native := s.native[op := Entering])
  }

  /** `_submit_request` when building or enqueueing the native work fails. */
  function Refused(s: State, op: Op): State {
    s.(early := Retired(s.early, op), unreconciled := s.unreconciled - {op}, operations := s.operations - {op},
       native := s.native - {op}, futures := Settle(s.futures, op, Error))
  }

  function Apply(s: State, e: Event): State
    requires Enabled(s, e)
  {
    match e
    case Enter => Entered(s)
    case Prepare(op) => s.(native := s.native[op := Prepared])
    case Enqueue(op) => s.(native := s.native[op := Waiting])
    case SubmitFail(op) => Refused(s, op)
    case EnterInScan(rid, now) => Entered(Dropped(s, rid, now))
    case SubmitFailInScan(op, rid, now) => Refused(Dropped(s, rid, now), op)
    case StartSend(op) => s.(native := s.native[op := Sending])
    case Wire(op, rid) => s.(native := s.native[op := OnWire(rid)])
    case SendReturns(op) => s.(native := s.native[op := Finished(Sent(s.native[op].rid))])
    case SendFails(op) => s.(native := s.native[op := Finished(SendFailed)])
    case SkipSend(op) => s.(native := s.native[op := Finished(Skipped)])
    case Drain(op, now) => AfterDrain(s, op, now)
    case Respond(rid, response, now) => Received(s, rid, response, now)
    case UserCancel(op) =>
      if s.futures[op] == Pending then s.(futures := s.futures[op := Canceled], cancels := s.cancels + {op}) else s
    case Terminal(op, now) => if op in s.operations then Withdrawn(s, op, now) else s
    case CancelOne(op, now) => AfterCancel(s, op, now)
    case Close => s.(closing := true)
    case Stop => s.(stopping := true)
    case ClearEarly => s.(early := map[])
    case RetireBindings => s.(pending := map[], early := map[], tombstones := [], unreconciled := {})
  }

  ghost predicate IsRun(states: seq<State>, events: seq<Event>) {
    && |states| == |events| + 1
    && states[0] == Initial()
    && (forall k {:trigger events[k]} :: 0 <= k < |events| ==>
          Enabled(states[k], events[k]) && states[k + 1] == Apply(states[k], events[k]))
  }
}
