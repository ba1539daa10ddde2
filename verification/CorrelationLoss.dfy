/** A response that no table keeps, and the request that waits for it. */
module CorrelationLoss {
  import opened Common
  import opened CorrelationModel
  import opened CorrelationInvariant
  import opened CorrelationRuns

  /** The events that can settle the Future of the operation waiting for `rid`. */
  predicate Settles(e: Event, op: Op, rid: Rid) {
    || (e.Respond? && e.rid == rid)
    || ((e.UserCancel? || e.CancelOne?) && e.op == op)
  }

  /** The completion was drained and the Future waits for the response. */
  ghost predicate Waits(s: State, op: Op, rid: Rid) {
    op in s.native && s.native[op] == Drained(Sent(rid)) && op in s.futures && s.futures[op] == Pending
  }

  lemma AnswerLeavesWaiting(s: State, op: Op, rid: Rid, r: Rid, response: Response)
    requires Waits(s, op, rid) && r in s.pending && s.pending[r] in s.operations && s.pending[r] != op
    ensures Waits(Answered(s, r, response), op, rid)
  {
    hide Entombed;
  }

  lemma TakingLeavesWaiting(s: State, op: Op, rid: Rid, r: Rid, response: Response)
    requires Waits(s, op, rid) && (r in s.pending ==> s.pending[r] in s.operations && s.pending[r] != op)
    ensures Waits(Taken(s, r, response), op, rid)
  {
    hide Answered, Candidates;
    if r in s.pending {
      AnswerLeavesWaiting(s, op, rid, r, response);
    }
  }

  lemma RespondLeavesWaiting(s: State, op: Op, rid: Rid, r: Rid, response: Response, now: int)
    requires Tables(s) && Waits(s, op, rid) && r != rid && (r in s.pending ==> s.pending[r] in s.operations)
    ensures Waits(Received(s, r, response, now), op, rid)
  {
    if r in s.pending {
      PendingIsItsOwn(s, s.pending[r]);
      assert s.pending[r] != op;
    }
    hide Tables, Taken, Halfway, Stopped, Without;
    TakingLeavesWaiting(Heard(s, r, response, now).(tombstones := Without(s.tombstones, r)), op, rid, r, response);
  }

  lemma DrainLeavesWaiting(s: State, o: Op, now: int, op: Op, rid: Rid)
    requires Waits(s, op, rid) && Drainable(s, o)
    ensures Waits(AfterDrain(s, o, now), op, rid)
  {
    hide Entombed, Retired;
  }

  lemma WithdrawalLeavesWaiting(s: State, o: Op, now: int, op: Op, rid: Rid)
    requires Waits(s, op, rid) && o in s.operations
    ensures Waits(Withdrawn(s, o, now), op, rid)
    ensures o != op ==> Waits(AfterCancel(s, o, now), op, rid)
  {
    hide Entombed, Retired;
  }

  lemma SubmissionLeavesWaiting(s: State, e: Event, op: Op, rid: Rid)
    requires Waits(s, op, rid) && Enabled(s, e) && s.nextOperation !in s.native
    requires e.Enter? || e.SubmitFail? || e.EnterInScan? || e.SubmitFailInScan?
    ensures Waits(Apply(s, e), op, rid)
  {
    hide Retired, Without, Stopped;
  }

  lemma OthersLeaveWaiting(s: State, e: Event, op: Op, rid: Rid)
    requires Waits(s, op, rid) && Enabled(s, e) && !(e.UserCancel? && e.op == op)
    requires !e.Enter? && !e.SubmitFail? && !e.EnterInScan? && !e.SubmitFailInScan?
    requires !e.Respond? && !e.Drain? && !e.Terminal? && !e.CancelOne?
    ensures Waits(Apply(s, e), op, rid)
  {
    hide SentAs;
  }

  lemma CancelingLeavesWaiting(s: State, e: Event, op: Op, rid: Rid)
    requires Waits(s, op, rid) && Enabled(s, e) && (e.Terminal? || e.CancelOne?) && !Settles(e, op, rid)
    ensures Waits(Apply(s, e), op, rid)
  {
    hide Withdrawn, AfterCancel, Waits;
    if e.op in s.operations {
      WithdrawalLeavesWaiting(s, e.op, e.now, op, rid);
    }
  }

  /** Nothing but a response to its own identity and cancellation reaches a waiting Future. */
  lemma NothingElseSettles(s: State, e: Event, op: Op, rid: Rid)
    requires Inv(s) && Waits(s, op, rid) && Enabled(s, e) && !Settles(e, op, rid)
    ensures Waits(Apply(s, e), op, rid)
  {
    NextIsNew(s);
    hide Tables, EarlyOk, StonesOk, Outcomes, Received, AfterDrain, Waits;
    if e.Respond? {
      RespondLeavesWaiting(s, op, rid, e.rid, e.response, e.now);
    } else if e.Drain? {
      DrainLeavesWaiting(s, e.op, e.now, op, rid);
    } else if e.Terminal? || e.CancelOne? {
      CancelingLeavesWaiting(s, e, op, rid);
    } else if e.Enter? || e.SubmitFail? || e.EnterInScan? || e.SubmitFailInScan? {
      SubmissionLeavesWaiting(s, e, op, rid);
    } else {
      OthersLeaveWaiting(s, e, op, rid);
    }
  }

  lemma {:induction false} WaitsForEver(states: seq<State>, events: seq<Event>, j: nat, k: nat, op: Op, rid: Rid)
    requires IsRun(states, events) && j <= k < |states| && Waits(states[j], op, rid)
    requires forall i :: j <= i < k ==> !Settles(events[i], op, rid)
    ensures Waits(states[k], op, rid)
  {
    hide Inv, Apply, Enabled, Waits, Settles;
    if j < k {
      WaitsForEver(states, events, j, k - 1, op, rid);
      RunKeepsInvariant(states, events, k - 1);
      assert Enabled(states[k - 1], events[k - 1]) && states[k] == Apply(states[k - 1], events[k - 1]);
      NothingElseSettles(states[k - 1], events[k - 1], op, rid);
    }
  }

  /** A first request is answered while a second one is halfway through its submission. */
  function LosingEvents(): seq<Event> {
    [Enter, Prepare(1), Enqueue(1), StartSend(1), Wire(1, 7), Enter, Respond(7, 5, 0), Prepare(2), Enqueue(2),
     SendReturns(1), Drain(1, 0)]
  }

  /** Operation 1 alone. */
  function One(n: Native): State {
    Initial().(nextOperation := 2, unreconciled := {1}, operations := map[1 := Operation(None, false)],
               futures := map[1 := Pending], native := map[1 := n])
  }

  /** Operations 1 and 2. */
  function Two(a: Native, b: Native, lost: set<Rid>): State {
    Initial().(nextOperation := 3, unreconciled := {1, 2}, futures := map[1 := Pending, 2 := Pending],
               operations := map[1 := Operation(None, false), 2 := Operation(None, false)],
               native := map[1 := a, 2 := b], lost := lost)
  }

  /** Operation 1 waits for a response that was lost. */
  function Abandoned(): State {
    Two(Drained(Sent(7)), Waiting, {7}).(unreconciled := {2}, pending := map[7 := 1],
      operations := map[1 := Operation(Some(7), true), 2 := Operation(None, false)])
  }

  function LosingStates(): seq<State> {
    [Initial(), One(Entering), One(Prepared), One(Waiting), One(Sending), One(OnWire(7)),
     Two(OnWire(7), Entering, {}), Two(OnWire(7), Entering, {7}), Two(OnWire(7), Prepared, {7}),
     Two(OnWire(7), Waiting, {7}), Two(Finished(Sent(7)), Waiting, {7}), Abandoned()]
  }

  lemma EnterFirst()
    ensures Enabled(Initial(), Enter) && Apply(Initial(), Enter) == One(Entering)
  {
  }

  lemma EnterSecond()
    ensures Enabled(One(OnWire(7)), Enter) && Apply(One(OnWire(7)), Enter) == Two(OnWire(7), Entering, {})
  {
    assert Entered(One(OnWire(7))).native == map[1 := OnWire(7), 2 := Entering];
  }

  lemma FirstMoves(e: Event, n: Native)
    requires e == Prepare(1) || e == Enqueue(1) || e == StartSend(1) || e == Wire(1, 7)
    requires n == if e.Prepare? then Entering else if e.Enqueue? then Prepared
                  else if e.StartSend? then Waiting else Sending
    ensures Enabled(One(n), e)
    ensures Apply(One(n), e) == One(if e.Prepare? then Prepared else if e.Enqueue? then Waiting
                                    else if e.StartSend? then Sending else OnWire(7))
  {
    assert forall m: Native :: map[1 := n][1 := m] == map[1 := m];
  }

  lemma SecondMoves()
    ensures Enabled(Two(OnWire(7), Entering, {7}), Prepare(2))
    ensures Apply(Two(OnWire(7), Entering, {7}), Prepare(2)) == Two(OnWire(7), Prepared, {7})
    ensures Enabled(Two(OnWire(7), Prepared, {7}), Enqueue(2))
    ensures Apply(Two(OnWire(7), Prepared, {7}), Enqueue(2)) == Two(OnWire(7), Waiting, {7})
  {
    assert map[1 := OnWire(7), 2 := Entering][2 := Prepared] == map[1 := OnWire(7), 2 := Prepared];
    assert map[1 := OnWire(7), 2 := Prepared][2 := Waiting] == map[1 := OnWire(7), 2 := Waiting];
  }

  lemma SendReturnsLate()
    ensures var s := Two(OnWire(7), Waiting, {7});
      Enabled(s, SendReturns(1)) && Apply(s, SendReturns(1)) == Two(Finished(Sent(7)), Waiting, {7})
  {
    assert map[1 := OnWire(7), 2 := Waiting][1 := Finished(Sent(7))] == map[1 := Finished(Sent(7)), 2 := Waiting];
  }

  lemma ResponseIsDropped()
    ensures var s := Two(OnWire(7), Entering, {});
      Enabled(s, Respond(7, 5, 0)) && Apply(s, Respond(7, 5, 0)) == Two(OnWire(7), Entering, {7})
  {
    var s := Two(OnWire(7), Entering, {});
    assert 2 in s.unreconciled && s.native[2] == Entering;
    assert Halfway(s);
    hide Halfway, Taken, Heard;
  }

  lemma DrainedTooLate()
    ensures var s := Two(Finished(Sent(7)), Waiting, {7});
      Enabled(s, Drain(1, 0)) && Apply(s, Drain(1, 0)) == Abandoned()
  {
    var s := Two(Finished(Sent(7)), Waiting, {7});
    hide Left;
    assert Retired(map[], 1) == map[];
    assert s.early - {7} == map[];
    assert s.unreconciled - {1} == {2};
    assert s.native[1 := Drained(Sent(7))] == map[1 := Drained(Sent(7)), 2 := Waiting];
    assert s.operations[1 := Operation(Some(7), true)] ==
      map[1 := Operation(Some(7), true), 2 := Operation(None, false)];
  }

  lemma LosingStart(k: nat)
    requires k < 6
    ensures Enabled(LosingStates()[k], LosingEvents()[k])
    ensures LosingStates()[k + 1] == Apply(LosingStates()[k], LosingEvents()[k])
  {
    hide Apply, Enabled, Initial, One, Two, Abandoned;
    EnterFirst();
    FirstMoves(Prepare(1), Entering);
    FirstMoves(Enqueue(1), Prepared);
    FirstMoves(StartSend(1), Waiting);
    FirstMoves(Wire(1, 7), Sending);
    EnterSecond();
  }

  lemma LosingEnd(k: nat)
    requires 6 <= k < 11
    ensures Enabled(LosingStates()[k], LosingEvents()[k])
    ensures LosingStates()[k + 1] == Apply(LosingStates()[k], LosingEvents()[k])
  {
    hide Apply, Enabled, Initial, One, Two, Abandoned;
    ResponseIsDropped();
    SecondMoves();
    SendReturnsLate();
    DrainedTooLate();
  }

  lemma LosingStep(k: nat)
    requires k < 11
    ensures Enabled(LosingStates()[k], LosingEvents()[k])
    ensures LosingStates()[k + 1] == Apply(LosingStates()[k], LosingEvents()[k])
  {
    hide Apply, Enabled, LosingStates, LosingEvents;
    if k < 6 {
      LosingStart(k);
    } else {
      LosingEnd(k);
    }
  }

  /** The run: the first request is on the wire, the second enters the tables, the response
      to the first arrives and its reception raises, then both go on undisturbed.  The first
      request is left waiting on an open client although nobody canceled it. */
  lemma LosingRun()
    ensures IsRun(LosingStates(), LosingEvents())
    ensures var s := LosingStates()[11]; Waits(s, 1, 7) && 7 in s.lost && !s.closing && !s.stopping && s.cancels == {}
  {
    hide Apply, Enabled;
    forall k | 0 <= k < 11
      ensures Enabled(LosingStates()[k], LosingEvents()[k])
        && LosingStates()[k + 1] == Apply(LosingStates()[k], LosingEvents()[k])
    {
      LosingStep(k);
    }
  }

  lemma {:induction false} RunsAreDetermined(states: seq<State>, events: seq<Event>, k: nat)
    requires IsRun(states, events) && k <= 11 <= |events| && events[..11] == LosingEvents()
    ensures states[k] == LosingStates()[k]
  {
    hide Apply, Enabled, One, Two, Abandoned;
    if k > 0 {
      RunsAreDetermined(states, events, k - 1);
      assert events[k - 1] == events[..11][k - 1];
      assert Enabled(states[k - 1], events[k - 1]) && states[k] == Apply(states[k - 1], events[k - 1]);
      LosingStep(k - 1);
    }
  }

  /** However that run goes on, the first request waits until it is canceled, its client or
      executor closes, or a second response to it arrives. */
  lemma LostResponseIsNeverDelivered(states: seq<State>, events: seq<Event>, k: nat)
    requires IsRun(states, events) && 11 <= k < |states| && events[..11] == LosingEvents()
    requires forall i :: 11 <= i < k ==> !Settles(events[i], 1, 7)
    ensures Waits(states[k], 1, 7)
  {
    RunsAreDetermined(states, events, 11);
    hide Apply, Enabled, Settles;
    WaitsForEver(states, events, 11, k, 1, 7);
  }
}
