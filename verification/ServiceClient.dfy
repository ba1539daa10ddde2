/** The request tables of the Python service client and its executor, updated in place as
    `client.py` and `executors.py` do, and proved against the steps of CorrelationModel. */
module ServiceClients {
  import opened Common
  import opened CorrelationModel
  import opened CorrelationInvariant

  /** The tables a received sample may change. */
  datatype Tables = Tables(pending: map<Rid, Op>, early: map<Rid, Early>, tombstones: seq<Tombstone>, closing: bool,
                           operations: map<Op, Operation>, futures: map<Op, Future>)

  function TablesOf(s: State): Tables {
    Tables(s.pending, s.early, s.tombstones, s.closing, s.operations, s.futures)
  }

  /** What the scan of `_unreconciled` yields; None when it raises. */
  function Scanned(s: State): Option<set<Op>> {
    if Halfway(s) then None else Some(Candidates(s))
  }

  /** `_take_response` after the tombstone check, on the tables alone. */
  function Delivered(v: Tables, rid: Rid, response: Response, now: int, scan: Option<set<Op>>): Tables
    requires rid in v.pending ==> v.pending[rid] in v.operations
  {
    if rid in v.pending then
      v.(pending := v.pending - {rid}, tombstones := Entombed(v.tombstones, rid, now),
         operations := v.operations - {v.pending[rid]}, futures := Settle(v.futures, v.pending[rid], Result(response)))
    else if scan.None? || scan.value == {} || rid in v.early then v
    else if |v.early| == STAGING_LIMIT then v.(closing := true)
    else v.(early := v.early[rid := Early(response, scan.value)])
  }

  class ServiceClient {
    var pending: map<Rid, Op>
    var early: map<Rid, Early>
    var tombstones: seq<Tombstone>
    var unreconciled: set<Op>
    var closing: bool
    var stopping: bool
    var operations: map<Op, Operation>
    var futures: map<Op, Future>
    var nextOperation: Op
    ghost var m: State

    /** The program's tables are those of `s`. */
    ghost predicate Shows(s: State)
      reads this
    {
      && TablesOf(s) == View() && s.unreconciled == unreconciled && s.stopping == stopping
      && s.nextOperation == nextOperation
    }

    /** The program's tables are the model's, and the model is in order. */
    ghost predicate Valid()
      reads this
    {
      Shows(m) && Inv(m)
    }

    constructor ()
      ensures Valid() && m == Initial()
    {
      pending, early, tombstones, unreconciled := map[], map[], [], {};
      closing, stopping, operations, futures, nextOperation := false, false, map[], map[], 1;
      m := Initial();
      new;
      InitialInv();
    }

    // ------------------------------------------------------------ table upkeep

    /** `_tombstone`: expired entries are dropped from the front, then the identity is laid. */
    method Entomb(rid: Rid, now: int)
      modifies this`tombstones
      ensures tombstones == Entombed(old(tombstones), rid, now)
    {
      while tombstones != [] && tombstones[0].expiry <= now
        invariant Purged(tombstones, now) == Purged(old(tombstones), now)
        decreases |tombstones|
      {
        tombstones := tombstones[1..];
      }
      if Grave(tombstones, rid) < |tombstones| {
        return;
      }
      if |tombstones| == TOMBSTONE_LIMIT {
        tombstones := tombstones[1..];
      }
      tombstones := tombstones + [Tombstone(rid, now + TOMBSTONE_SECONDS)];
    }

    /** `_retire_candidate`: the operation stops being a candidate anywhere. */
    method RetireCandidate(op: Op)
      modifies this`unreconciled, this`early
      ensures unreconciled == old(unreconciled) - {op} && early == Retired(old(early), op)
    {
      unreconciled := unreconciled - {op};
      var snapshot := early;
      var left := early.Keys;
      while left != {}
        invariant unreconciled == old(unreconciled) - {op}
        invariant left <= snapshot.Keys && early.Keys <= snapshot.Keys
        invariant forall r :: r in left ==> r in early && early[r] == snapshot[r]
        invariant forall r :: r in snapshot && r !in left ==>
          if snapshot[r].candidates == {op} then r !in early
          else r in early && early[r] == snapshot[r].(candidates := snapshot[r].candidates - {op})
        decreases |left|
      {
        var r: Rid :| r in left;
        left := left - {r};
        if op in snapshot[r].candidates {
          var candidates := snapshot[r].candidates - {op};
          if candidates != {} {
            early := early[r := snapshot[r].(candidates := candidates)];
          } else {
            assert snapshot[r].candidates == {op};
            early := early - {r};
          }
        } else {
          assert snapshot[r].candidates - {op} == snapshot[r].candidates;
        }
      }
      assert early == Retired(snapshot, op);
    }

    /** `Future._try_set_*`: only a pending Future takes an outcome. */
    method TrySettle(op: Op, outcome: Future) returns (won: bool)
      modifies this`futures
      ensures futures == Settle(old(futures), op, outcome)
      ensures won <==> op in old(futures) && old(futures)[op] == Pending
    {
      won := op in futures && futures[op] == Pending;
      if won {
        futures := futures[op := outcome];
      }
    }

    // -------------------------------------------------------------- operations

    /** `_submit_request` up to line 225, with the executor's lock held: the operation is in
        both tables and has no native work yet. */
    method Enter(attached: bool) returns (r: Result<Op>)
      requires Valid() && forall op :: op in m.native ==> !Submitting(m, op)
      modifies this
      ensures Valid()
      ensures r.Success? <==> attached && !old(stopping)
      ensures r.Success? ==>
        r.value == old(nextOperation) && Enabled(old(m), Event.Enter) && m == Apply(old(m), Event.Enter)
        && Submitting(m, r.value) && closing == old(closing)
      ensures r.Failure? ==> r.error == InvalidState && m == old(m)
    {
      hide Inv;
      if stopping || !attached {
        return Failure(InvalidState);
      }
      EnterKeeps(m);
      m := Entered(m);
      var op := nextOperation;
      nextOperation := nextOperation + 1;
      operations := operations[op := Operation(None, false)];
      unreconciled := unreconciled + {op};
      futures := futures[op := Pending];
      r := Success(op);
    }

    /** The rest of `_submit_request`, still under the lock: `prepared` says whether the native
        work could be built, `accepted` whether the dispatcher took the job. */
    method Finish(op: Op, prepared: bool, accepted: bool)
      requires Valid() && op in m.native && m.native[op] == Entering
      modifies this
      ensures Valid()
      ensures m == if prepared && accepted then old(m).(native := old(m).native[op := Waiting])
                   else if prepared then Refused(old(m).(native := old(m).native[op := Prepared]), op)
                   else Refused(old(m), op)
    {
      hide Inv, Refused;
      if prepared {
        WorkKeeps(m, Event.Prepare(op));
        m := m.(native := m.native[op := Prepared]);
      }
      if prepared && accepted {
        WorkKeeps(m, Event.Enqueue(op));
        assert m.native[op := Waiting] == old(m).native[op := Waiting];
        m := m.(native := m.native[op := Waiting]);
      } else {
        Refuse(op);
      }
    }

    /** The exception handler of `_submit_request`. */
    method Refuse(op: Op)
      requires Valid() && Submitting(m, op)
      modifies this
      ensures Valid() && m == Refused(old(m), op)
    {
      hide Inv, Refused, Retired;
      RefusedKeeps(m, op);
      RefusedEffect(m, op);
      m := Refused(m, op);
      RetireCandidate(op);
      operations := operations - {op};
      var _ := TrySettle(op, Error);
    }

    static lemma RefusedEffect(s: State, op: Op)
      ensures var t := Refused(s, op);
        && t.unreconciled == s.unreconciled - {op} && t.early == Retired(s.early, op)
        && t.operations == s.operations - {op} && t.futures == Settle(s.futures, op, Error)
        && t.pending == s.pending && t.tombstones == s.tombstones && t.closing == s.closing
        && t.stopping == s.stopping && t.nextOperation == s.nextOperation
    {
    }

    /** `call_async` when no other thread comes in between. */
    method CallAsync(attached: bool, prepared: bool, accepted: bool) returns (r: Result<Op>)
      requires Valid() && forall op :: op in m.native ==> !Submitting(m, op)
      modifies this
      ensures Valid()
      ensures r.Success? <==> !old(closing) && attached && !old(stopping)
      ensures r.Failure? ==> m == old(m)
      ensures r.Success? && prepared && accepted ==>
        var t := Entered(old(m)); r.value == old(nextOperation) && m == t.(native := t.native[r.value := Waiting])
      ensures r.Success? && !(prepared && accepted) ==>
        r.value == old(nextOperation)
        && m == old(m).(nextOperation := r.value + 1, futures := old(m).futures[r.value := Error])
    {
      hide Inv, Refused;
      if closing {
        return Failure(InvalidState);
      }
      r := Enter(attached);
      if r.Success? {
        RefusalLeavesNoTrace(old(m), Entering);
        RefusalLeavesNoTrace(old(m), Prepared);
        assert old(m).native[r.value := Entering][r.value := Prepared] == old(m).native[r.value := Prepared];
        Finish(r.value, prepared, accepted);
      }
    }

    /** `_send_committed` and the end of `_drain_completions` for one request completion. */
    method DrainCompletion(op: Op, completion: Completion, now: int) returns (keep: bool)
      requires Valid() && op in m.native && m.native[op] == Finished(completion) && now >= m.clock
      modifies this
      ensures Drainable(old(m), op) && Valid() && m == AfterDrain(old(m), op, now)
      ensures keep <==> op in operations
    {
      hide Inv, Retired, Entombed, AfterDrain;
      Finishing(m, op);
      DrainKeeps(m, op, now);
      DrainEffect(m, op, now);
      m := AfterDrain(m, op, now);
      keep := SendCommitted(op, completion, now);
      if !keep {
        operations := operations - {op};
      }
    }

    /** What draining does, table by table. */
    static lemma DrainEffect(s: State, op: Op, now: int)
      requires Inv(s) && Drainable(s, op)
      ensures var t := AfterDrain(s, op, now);
        var c := s.native[op].completion;
        var keep := c.Sent? && !(op in s.futures && s.futures[op] != Pending) && !s.closing && c.rid !in s.early;
        && t.unreconciled == s.unreconciled - {op}
        && t.early == Retired(s.early - (if c.Sent? then {c.rid} else {}), op)
        && t.pending == (if keep then s.pending[c.rid := op] else s.pending)
        && t.tombstones == (if c.Sent? && !keep then Entombed(s.tombstones, c.rid, now) else s.tombstones)
        && t.operations == (if keep then s.operations[op := Operation(Some(c.rid), true)] else s.operations - {op})
        && t.futures == (if c.SendFailed? || (c.Sent? && s.closing) then Settle(s.futures, op, Error)
                         else if c.Sent? && c.rid in s.early then Settle(s.futures, op, Result(s.early[c.rid].response))
                         else s.futures)
        && t.closing == s.closing && t.stopping == s.stopping && t.nextOperation == s.nextOperation
    {
      hide Inv, Retired, Entombed;
      assert s.early - {} == s.early;
    }

    static lemma Finishing(s: State, op: Op)
      requires Inv(s) && op in s.native && s.native[op].Finished?
      ensures op in s.operations
    {
      hide NumbersOk, PendingOk, KeysApart, EarlyOk, StonesOk, Outcomes;
    }

    /** `_send_committed`, and the reconciliation mark its caller sets. */
    method SendCommitted(op: Op, completion: Completion, now: int) returns (keep: bool)
      requires op in operations
      modifies this`futures, this`unreconciled, this`early, this`pending, this`tombstones, this`operations
      ensures keep <==> completion.Sent? && !(op in old(futures) && old(futures)[op] != Pending) && !closing
                        && completion.rid !in old(early)
      ensures unreconciled == old(unreconciled) - {op}
      ensures early == Retired(old(early) - (if completion.Sent? then {completion.rid} else {}), op)
      ensures pending == if keep then old(pending)[completion.rid := op] else old(pending)
      ensures tombstones == if completion.Sent? && !keep then Entombed(old(tombstones), completion.rid, now)
        else old(tombstones)
      ensures operations == if keep then old(operations)[op := Operation(Some(completion.rid), true)]
        else old(operations)
      ensures futures ==
        if completion.SendFailed? || (completion.Sent? && closing) then Settle(old(futures), op, Error)
        else if completion.Sent? && completion.rid in old(early) then
          Settle(old(futures), op, Result(old(early)[completion.rid].response))
        else old(futures)
    {
      hide Entombed, Retired;
      match completion
      case SendFailed =>
        var _ := TrySettle(op, Error);
        RetireCandidate(op);
        assert old(early) - {} == old(early);
        keep := false;
      case Skipped =>
        RetireCandidate(op);
        assert old(early) - {} == old(early);
        keep := false;
      case Sent(rid) =>
        if closing {
          var _ := TrySettle(op, Error);
        }
        var staged := rid in early;
        var response := if staged then early[rid].response else 0;
        early := early - {rid};
        if (op in futures && futures[op] != Pending) || closing {
          Entomb(rid, now);
          keep := false;
        } else if staged {
          Entomb(rid, now);
          var _ := TrySettle(op, Result(response));
          keep := false;
        } else {
          pending := pending[rid := op];
          keep := true;
          operations := operations[op := Operation(Some(rid), true)];
        }
        RetireCandidate(op);
    }

    ghost function View(): Tables
      reads this
    {
      Tables(pending, early, tombstones, closing, operations, futures)
    }

    /** `_take_response` for one received sample.  `works` are the native works the operations
        have, each with its `send_started` flag. */
    method TakeResponse(rid: Rid, response: Response, now: int, works: map<Op, bool>) returns (raised: bool)
      requires Valid() && now >= m.clock && HasWorks(m, works)
      modifies this
      ensures (rid in old(m).pending ==> old(m).pending[rid] in old(m).operations) && Valid()
      ensures m == Received(old(m), rid, response, now)
      ensures raised <==> Scans(old(m), rid, now) && Halfway(old(m))
    {
      hide Inv, Scanned, Halfway, Without, Stopped, Received, Delivered;
      ghost var s := m;
      Reception(s, rid, response, now);
      m := Received(s, rid, response, now);
      assert View() == TablesOf(s);
      raised := false;
      var stopped := CheckTombstone(rid, now);
      if !stopped {
        raised := TakeUnentombed(rid, response, now, works, s);
      }
      assert View() == TablesOf(m);
    }

    /** Reception is well defined, keeps the model in order, and changes the tables unless a
        tombstone that is still valid stops the sample. */
    static lemma Reception(s: State, rid: Rid, response: Response, now: int)
      requires Inv(s) && now >= s.clock
      ensures (rid in s.pending ==> s.pending[rid] in s.operations) && |s.early| <= STAGING_LIMIT
      ensures var u := Received(s, rid, response, now);
        && Inv(u) && u.unreconciled == s.unreconciled && u.stopping == s.stopping && u.nextOperation == s.nextOperation
        && TablesOf(u) == if Stopped(s.tombstones, rid, now) then TablesOf(s)
                          else Delivered(TablesOf(s).(tombstones := Without(s.tombstones, rid)),
                                         rid, response, now, Scanned(s))
    {
      hide Inv, Taken, Without, Stopped, Candidates, Delivered, Heard, TablesOf, Halfway, Dropped;
      EarlyIsAnswered(s, rid);
      RespondKeeps(s, rid, response, now);
      HeardTables(s, rid, response, now, s.tombstones);
      if !Stopped(s.tombstones, rid, now) {
        var stones := Without(s.tombstones, rid);
        HeardTables(s, rid, response, now, stones);
        if rid !in s.pending && Halfway(s) {
          DroppedTables(s, rid, response, now);
        } else {
          var t := Heard(s, rid, response, now).(tombstones := stones);
          SameCandidates(s, t);
          TakenTables(t, rid, response);
          assert TablesOf(t) == TablesOf(s).(tombstones := stones);
          DeliveredFirst(t, s, rid, response, now);
        }
      }
    }

    /** The scan does not matter to a response that is awaited. */
    static lemma DeliveredFirst(t: State, s: State, rid: Rid, response: Response, now: int)
      requires t.pending == s.pending && t.operations == s.operations
      requires rid in s.pending ==> s.pending[rid] in s.operations
      requires rid in s.pending || !Halfway(s)
      ensures Delivered(TablesOf(t), rid, response, now, Some(Candidates(s)))
        == Delivered(TablesOf(t), rid, response, now, Scanned(s))
    {
      hide Candidates, Halfway;
    }

    static lemma DroppedTables(s: State, rid: Rid, response: Response, now: int)
      requires rid !in s.pending && Halfway(s)
      ensures var u := Dropped(s, rid, now);
        && u.unreconciled == s.unreconciled && u.stopping == s.stopping && u.nextOperation == s.nextOperation
        && TablesOf(u) == TablesOf(s).(tombstones := Without(s.tombstones, rid))
        && TablesOf(u) == Delivered(TablesOf(u), rid, response, now, Scanned(s))
    {
      hide Halfway, Without;
    }

    static lemma HeardTables(s: State, rid: Rid, response: Response, now: int, stones: seq<Tombstone>)
      ensures var t := Heard(s, rid, response, now).(tombstones := stones);
        && t.pending == s.pending && t.operations == s.operations && t.early == s.early && t.clock == now
        && t.native == s.native && t.unreconciled == s.unreconciled && t.stopping == s.stopping
        && t.nextOperation == s.nextOperation && TablesOf(t) == TablesOf(s).(tombstones := stones)
      ensures stones == s.tombstones ==>
        Heard(s, rid, response, now).(tombstones := stones) == Heard(s, rid, response, now)
      ensures TablesOf(s).(tombstones := s.tombstones) == TablesOf(s)
    {
    }

    static lemma TakenTables(t: State, rid: Rid, response: Response)
      requires (rid in t.pending ==> t.pending[rid] in t.operations) && |t.early| <= STAGING_LIMIT
      ensures var u := Taken(t, rid, response);
        && u.unreconciled == t.unreconciled && u.stopping == t.stopping && u.nextOperation == t.nextOperation
        && TablesOf(u) == Delivered(TablesOf(t), rid, response, t.clock, Some(Candidates(t)))
    {
      hide Answered, Candidates, Entombed, Settle;
      if rid in t.pending {
        AnsweredEffect(t, rid, response);
      }
    }

    static lemma AnsweredEffect(t: State, rid: Rid, response: Response)
      requires rid in t.pending && t.pending[rid] in t.operations
      ensures var u := Answered(t, rid, response);
        && u.unreconciled == t.unreconciled && u.stopping == t.stopping && u.nextOperation == t.nextOperation
        && TablesOf(u) == Tables(t.pending - {rid}, t.early, Entombed(t.tombstones, rid, t.clock), t.closing,
                                 t.operations - {t.pending[rid]}, Settle(t.futures, t.pending[rid], Result(response)))
    {
      hide Entombed, Settle;
    }

    /** The tombstone lookup of `_take_response`. */
    method CheckTombstone(rid: Rid, now: int) returns (stopped: bool)
      modifies this`tombstones
      ensures stopped == Stopped(old(tombstones), rid, now)
      ensures tombstones == if stopped then old(tombstones) else Without(old(tombstones), rid)
    {
      stopped := false;
      var k := Grave(tombstones, rid);
      if k < |tombstones| {
        if tombstones[k].expiry > now {
          return true;
        }
        tombstones := tombstones[..k] + tombstones[k + 1..];
      }
    }

    /** `_take_response` once the tombstone table let the sample through. */
    method TakeUnentombed(rid: Rid, response: Response, now: int, works: map<Op, bool>, ghost s: State)
      returns (raised: bool)
      requires rid in pending ==> pending[rid] in operations
      requires unreconciled == s.unreconciled && HasWorks(s, works)
      modifies this`pending, this`early, this`tombstones, this`operations, this`futures, this`closing
      ensures View() == Delivered(old(View()), rid, response, now, Scanned(s))
      ensures raised <==> rid !in old(pending) && Halfway(s)
    {
      hide Entombed, Settle, HasWorks, Halfway, Candidates;
      if rid in pending {
        HandOver(pending[rid], rid, response, now);
        return false;
      }
      var scan := Scan(works, s);
      if scan.None? {
        return true;
      }
      raised := false;
      var candidates := scan.value;
      if candidates == {} || rid in early {
        return;
      }
      if |early| == STAGING_LIMIT {
        closing := true;
        return;
      }
      early := early[rid := Early(response, candidates)];
    }

    /** Every operation that entered has its native work, with the flag the sender sets, unless
        it is still entering. */
    static ghost predicate HasWorks(s: State, works: map<Op, bool>) {
      forall op :: op in s.unreconciled ==>
        && op in s.native
        && (op in works <==> s.native[op] != Entering)
        && (op in works ==> (works[op] <==> Started(s.native[op])))
    }

    /** The scan of `_unreconciled`: an operation without native work raises. */
    method Scan(works: map<Op, bool>, ghost s: State) returns (r: Option<set<Op>>)
      requires unreconciled == s.unreconciled && HasWorks(s, works)
      ensures r == Scanned(s)
    {
      var left, candidates := unreconciled, {};
      while left != {}
        invariant left <= unreconciled
        invariant forall op :: op in unreconciled - left ==> op in works
        invariant candidates == set op | op in unreconciled - left && op in works && works[op]
        decreases |left|
      {
        var op: Op :| op in left;
        left := left - {op};
        if op !in works {
          assert Halfway(s);
          return None;
        }
        if works[op] {
          candidates := candidates + {op};
        }
      }
      assert !Halfway(s);
      assert candidates == Candidates(s);
      return Some(candidates);
    }

    /** The pending operation is taken out of the tables and given its response. */
    method HandOver(op: Op, rid: Rid, response: Response, now: int)
      requires op in operations
      modifies this`pending, this`tombstones, this`operations, this`futures
      ensures pending == old(pending) - {rid} && tombstones == Entombed(old(tombstones), rid, now)
      ensures operations == old(operations) - {op} && futures == Settle(old(futures), op, Result(response))
    {
      hide Entombed, Settle;
      pending := pending - {rid};
      Entomb(rid, now);
      CompleteRequest(op, response);
    }

    /** `_complete_request`. */
    method CompleteRequest(op: Op, response: Response)
      requires op in operations
      modifies this`operations, this`futures
      ensures operations == old(operations) - {op} && futures == Settle(old(futures), op, Result(response))
    {
      operations := operations - {op};
      var _ := TrySettle(op, Result(response));
    }

    /** `_cancel_operation` and the removal its callers add once the send is reconciled. */
    method CancelOperation(op: Op, now: int)
      requires op in operations
      modifies this`pending, this`early, this`tombstones, this`unreconciled, this`operations
      ensures var id := old(operations)[op].requestId;
        && pending == old(pending) - Named(id) && early == Retired(old(early) - Named(id), op)
        && tombstones == (if id.Some? then Entombed(old(tombstones), id.value, now) else old(tombstones))
      ensures unreconciled == old(unreconciled) - {op}
      ensures operations == if old(operations)[op].reconciled then old(operations) - {op} else old(operations)
    {
      hide Entombed, Retired;
      if operations[op].requestId.Some? {
        var rid := operations[op].requestId.value;
        pending := pending - {rid};
        early := early - {rid};
        Entomb(rid, now);
      } else {
        assert pending - {} == pending && early - {} == early;
      }
      RetireCandidate(op);
      if operations[op].reconciled {
        operations := operations - {op};
      }
    }

    /** `_operation_terminal`, the callback of a settled Future. */
    method OperationTerminal(op: Op, now: int)
      requires Valid() && op in futures && futures[op] != Pending && !Submitting(m, op) && now >= m.clock
      modifies this
      ensures Valid() && m == (if op in old(m).operations then Withdrawn(old(m), op, now) else old(m))
    {
      hide Inv, Entombed, Retired;
      if op in operations {
        CancelKeeps(m, op, now);
        m := Withdrawn(m, op, now);
        CancelOperation(op, now);
      }
    }

    /** One round of `_cancel_entity_operations`. */
    method CancelForClose(op: Op, now: int)
      requires Valid() && op in operations && !Submitting(m, op) && now >= m.clock
      modifies this
      ensures op in old(m).operations && Valid() && m == AfterCancel(old(m), op, now)
    {
      hide Inv, Entombed, Retired;
      CancelKeeps(m, op, now);
      m := AfterCancel(m, op, now);
      CancelOperation(op, now);
      var _ := TrySettle(op, Error);
    }
  }
}
