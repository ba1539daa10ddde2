/** Whole runs: who gets which response, and when a Future fails. */
module CorrelationRuns {
  import opened Common
  import opened CorrelationModel
  import opened CorrelationInvariant

  lemma {:induction false} RunKeepsInvariant(states: seq<State>, events: seq<Event>, k: nat)
    requires IsRun(states, events) && k < |states|
    ensures Inv(states[k])
  {
    hide Inv, Apply, Enabled;
    if k == 0 {
      InitialInv();
    } else {
      RunKeepsInvariant(states, events, k - 1);
      assert Enabled(states[k - 1], events[k - 1]) && states[k] == Apply(states[k - 1], events[k - 1]);
      StepKeepsInvariant(states[k - 1], events[k - 1]);
    }
  }

  /** Failures come from the send, from closing, or from an executor that is stopping. */
  ghost predicate FailuresOk(s: State) {
    forall op :: op in s.futures && s.futures[op] == Error ==>
      s.closing || s.stopping || op !in s.native || s.native[op] == Drained(SendFailed)
  }

  /** Futures only leave Pending, and a settled one stays as it is. */
  ghost predicate OnlySettles(s: State, t: State) {
    forall op :: op in s.futures ==> op in t.futures && (s.futures[op] != Pending ==> t.futures[op] == s.futures[op])
  }

  lemma DrainSettles(s: State, op: Op, now: int)
    requires FailuresOk(s) && Drainable(s, op)
    ensures FailuresOk(AfterDrain(s, op, now)) && OnlySettles(s, AfterDrain(s, op, now))
  {
    hide Entombed, Retired;
  }

  lemma AnsweredSettles(s: State, rid: Rid, response: Response)
    requires FailuresOk(s) && rid in s.pending && s.pending[rid] in s.operations
    ensures FailuresOk(Answered(s, rid, response)) && OnlySettles(s, Answered(s, rid, response))
  {
    hide Entombed;
  }

  lemma TakenSettles(s: State, rid: Rid, response: Response)
    requires FailuresOk(s) && (rid in s.pending ==> s.pending[rid] in s.operations)
    ensures FailuresOk(Taken(s, rid, response)) && OnlySettles(s, Taken(s, rid, response))
  {
    hide Answered, Candidates;
    if rid in s.pending {
      hide FailuresOk, OnlySettles;
      AnsweredSettles(s, rid, response);
    }
  }

  lemma RespondSettles(s: State, rid: Rid, response: Response, now: int)
    requires FailuresOk(s) && (rid in s.pending ==> s.pending[rid] in s.operations)
    ensures FailuresOk(Received(s, rid, response, now)) && OnlySettles(s, Received(s, rid, response, now))
  {
    hide Taken, Halfway;
    TakenSettles(Heard(s, rid, response, now).(tombstones := Without(s.tombstones, rid)), rid, response);
  }

  lemma CancelSettles(s: State, op: Op, now: int)
    requires FailuresOk(s) && op in s.operations
    ensures OnlySettles(s, Withdrawn(s, op, now)) && OnlySettles(s, AfterCancel(s, op, now))
    ensures FailuresOk(Withdrawn(s, op, now))
    ensures s.closing || s.stopping ==> FailuresOk(AfterCancel(s, op, now))
  {
    hide Entombed, Retired;
  }

  lemma SendingSettles(s: State, e: Event)
    requires FailuresOk(s) && Enabled(s, e)
    requires e.Prepare? || e.Enqueue? || e.StartSend? || e.Wire? || e.SendReturns? || e.SendFails? || e.SkipSend?
    ensures FailuresOk(Apply(s, e)) && OnlySettles(s, Apply(s, e))
  {
  }

  lemma EnterSettles(s: State)
    requires FailuresOk(s) && s.nextOperation !in s.native && s.nextOperation !in s.futures
    ensures FailuresOk(Entered(s)) && OnlySettles(s, Entered(s))
  {
  }

  lemma RefusedSettles(s: State, op: Op)
    requires FailuresOk(s)
    ensures FailuresOk(Refused(s, op)) && OnlySettles(s, Refused(s, op))
  {
    hide Retired;
  }

  lemma DroppedSettles(s: State, t: State, rid: Rid, now: int)
    requires FailuresOk(s)
    ensures FailuresOk(Dropped(s, rid, now))
    ensures OnlySettles(Dropped(s, rid, now), t) ==> OnlySettles(s, t)
  {
    hide Without;
  }

  lemma SubmitSettles(s: State, e: Event)
    requires FailuresOk(s) && Enabled(s, e) && s.nextOperation !in s.native && s.nextOperation !in s.futures
    requires e.Enter? || e.SubmitFail? || e.EnterInScan? || e.SubmitFailInScan?
    ensures FailuresOk(Apply(s, e)) && OnlySettles(s, Apply(s, e))
  {
    hide Entered, Refused, FailuresOk, OnlySettles, Enabled, Without;
    match e
    case Enter => EnterSettles(s);
    case SubmitFail(op) => RefusedSettles(s, op);
    case EnterInScan(rid, now) =>
      DroppedSettles(s, Apply(s, e), rid, now);
      EnterSettles(Dropped(s, rid, now));
    case SubmitFailInScan(op, rid, now) =>
      DroppedSettles(s, Apply(s, e), rid, now);
      RefusedSettles(Dropped(s, rid, now), op);
  }

  lemma StaysSettled(s: State)
    ensures OnlySettles(s, s)
  {
  }

  lemma OwnerSettles(s: State, e: Event)
    requires FailuresOk(s) && Enabled(s, e)
    requires e.UserCancel? || e.Close? || e.Stop? || e.ClearEarly? || e.RetireBindings?
    ensures FailuresOk(Apply(s, e)) && OnlySettles(s, Apply(s, e))
  {
    hide Submitting;
  }

  lemma StepSettles(s: State, e: Event)
    requires Inv(s) && FailuresOk(s) && Enabled(s, e)
    ensures FailuresOk(Apply(s, e)) && OnlySettles(s, Apply(s, e))
  {
    NextIsNew(s);
    hide Inv, AfterDrain, Received, Withdrawn, AfterCancel, Retired, FailuresOk, OnlySettles;
    hide Entered, Refused, Dropped;
    match e
    case Enter => SubmitSettles(s, e);
    case SubmitFail(_) => SubmitSettles(s, e);
    case EnterInScan(_, _) => SubmitSettles(s, e);
    case SubmitFailInScan(_, _, _) => SubmitSettles(s, e);
    case Drain(op, now) => DrainSettles(s, op, now);
    case Respond(rid, response, now) => RespondSettles(s, rid, response, now);
    case Terminal(op, now) =>
      StaysSettled(s);
      if op in s.operations {
        CancelSettles(s, op, now);
      }
    case CancelOne(op, now) => CancelSettles(s, op, now);
    case UserCancel(op) => OwnerSettles(s, e);
    case Close => OwnerSettles(s, e);
    case Stop => OwnerSettles(s, e);
    case ClearEarly => OwnerSettles(s, e);
    case RetireBindings => OwnerSettles(s, e);
    case _ => SendingSettles(s, e);
  }

  lemma {:induction false} RunKeepsFailures(states: seq<State>, events: seq<Event>, k: nat)
    requires IsRun(states, events) && k < |states|
    ensures FailuresOk(states[k])
  {
    hide Inv, Apply, Enabled;
    if k > 0 {
      RunKeepsFailures(states, events, k - 1);
      RunKeepsInvariant(states, events, k - 1);
      assert Enabled(states[k - 1], events[k - 1]) && states[k] == Apply(states[k - 1], events[k - 1]);
      StepSettles(states[k - 1], events[k - 1]);
    }
  }

  // --------------------------------------------------------- the first response

  /** A sample of `rid` is consumed. */
  predicate Consumes(e: Event, rid: Rid) {
    (e.Respond? || e.EnterInScan? || e.SubmitFailInScan?) && e.rid == rid
  }

  /** The reception raises: its scan meets an operation without native work, or the set
      changes under it. */
  predicate Raises(s: State, e: Event) {
    || e.EnterInScan?
    || e.SubmitFailInScan?
    || (e.Respond? && Scans(s, e.rid, e.now) && Halfway(s))
  }

  predicate SameRecords(s: State, t: State) {
    t.answered == s.answered && t.lost == s.lost
  }

  lemma SendingRecords(s: State, e: Event)
    requires Enabled(s, e)
    requires e.Prepare? || e.Enqueue? || e.StartSend? || e.Wire? || e.SendReturns? || e.SendFails? || e.SkipSend?
    ensures SameRecords(s, Apply(s, e))
  {
    hide SentAs, Submitting, Drainable;
  }

  lemma QuietRecords(s: State, e: Event)
    requires Enabled(s, e)
    requires e.Enter? || e.SubmitFail? || e.UserCancel? || e.Close? || e.Stop? || e.ClearEarly? || e.RetireBindings?
    ensures SameRecords(s, Apply(s, e))
  {
    hide Retired, Settle, Submitting, MayEnter;
  }

  lemma OwnerRecords(s: State, e: Event)
    requires Enabled(s, e) && (e.Drain? || e.Terminal? || e.CancelOne?)
    ensures SameRecords(s, Apply(s, e))
  {
    hide Retired, Entombed, Settle, SentAs, Started;
  }

  lemma AnsweredRecords(s: State, rid: Rid, response: Response)
    requires rid in s.pending && s.pending[rid] in s.operations
    ensures SameRecords(s, Answered(s, rid, response))
  {
    hide Entombed, Settle;
  }

  lemma TakenRecords(s: State, rid: Rid, response: Response)
    requires rid in s.pending ==> s.pending[rid] in s.operations
    ensures SameRecords(s, Taken(s, rid, response))
  {
    hide Candidates, Answered;
    if rid in s.pending {
      AnsweredRecords(s, rid, response);
    }
  }

  lemma ReceivedRecords(s: State, rid: Rid, response: Response, now: int)
    requires rid in s.pending ==> s.pending[rid] in s.operations
    ensures var t := Received(s, rid, response, now);
      if !Stopped(s.tombstones, rid, now) && rid !in s.pending && Halfway(s) then SameRecords(Dropped(s, rid, now), t)
      else SameRecords(Heard(s, rid, response, now), t)
  {
    hide Taken, Without, Halfway, Stopped;
    TakenRecords(Heard(s, rid, response, now).(tombstones := Without(s.tombstones, rid)), rid, response);
  }

  /** A consumed sample leaves its trace under its identity alone. */
  lemma SampleRecords(s: State, e: Event)
    requires Enabled(s, e) && (e.Respond? || e.EnterInScan? || e.SubmitFailInScan?)
    ensures var t := Apply(s, e);
      if Raises(s, e) then SameRecords(Dropped(s, e.rid, e.now), t)
      else e.Respond? && SameRecords(Heard(s, e.rid, e.response, e.now), t)
  {
    hide Received, Without, Retired, Settle, Heard, Halfway, Stopped;
    if e.Respond? {
      ReceivedRecords(s, e.rid, e.response, e.now);
    }
  }

  /** A record of `rid` stays; a new one appears only if `may`. */
  predicate Grows(s: State, t: State, rid: Rid, may: bool) {
    && (rid in s.lost ==> rid in t.lost)
    && (rid in s.answered ==> rid in t.answered && t.answered[rid] == s.answered[rid])
    && (!may ==> (rid in t.lost ==> rid in s.lost) && (rid in t.answered ==> rid in s.answered))
  }

  lemma SampleGrows(s: State, r: Rid, response: Response, now: int, t: State, rid: Rid)
    ensures SameRecords(Dropped(s, r, now), t) ==> Grows(s, t, rid, r == rid)
    ensures SameRecords(Heard(s, r, response, now), t) ==> Grows(s, t, rid, r == rid)
    ensures SameRecords(s, t) ==> Grows(s, t, rid, false)
  {
    hide Without;
  }

  /** Only a reception of the identity touches its records, and a record stays. */
  lemma RecordsMove(s: State, e: Event, rid: Rid)
    requires Enabled(s, e)
    ensures Grows(s, Apply(s, e), rid, Consumes(e, rid))
  {
    hide Apply, Enabled, Dropped, Heard, Raises, SameRecords, Grows;
    if e.Respond? || e.EnterInScan? || e.SubmitFailInScan? {
      SampleRecords(s, e);
      SampleGrows(s, e.rid, if e.Respond? then e.response else 0, e.now, Apply(s, e), rid);
    } else {
      if e.Drain? || e.Terminal? || e.CancelOne? {
        OwnerRecords(s, e);
      } else if e.Enter? || e.SubmitFail? || e.UserCancel? || e.Close? || e.Stop? || e.ClearEarly?
        || e.RetireBindings? {
        QuietRecords(s, e);
      } else {
        SendingRecords(s, e);
      }
      SampleGrows(s, rid, 0, 0, Apply(s, e), rid);
    }
  }

  /** The first sample of an identity is recorded exactly when its reception does not raise. */
  lemma FirstSample(s: State, e: Event, rid: Rid)
    requires Enabled(s, e) && Consumes(e, rid) && rid !in s.answered && rid !in s.lost
    ensures var t := Apply(s, e);
      if Raises(s, e) then rid in t.lost && rid !in t.answered
      else e.Respond? && rid !in t.lost && rid in t.answered && t.answered[rid] == e.response
  {
    hide Apply, Enabled, Without, Raises;
    SampleRecords(s, e);
  }

  /** No sample of `rid` is consumed by the first `n` events. */
  ghost predicate Unheard(events: seq<Event>, rid: Rid, n: nat)
    requires n <= |events|
  {
    forall i :: 0 <= i < n ==> !Consumes(events[i], rid)
  }

  lemma {:induction false} UnheardHasNoRecord(states: seq<State>, events: seq<Event>, rid: Rid, n: nat)
    requires IsRun(states, events) && n < |states| && Unheard(events, rid, n)
    ensures rid !in states[n].answered && rid !in states[n].lost
  {
    hide Apply, Enabled;
    if n > 0 {
      UnheardHasNoRecord(states, events, rid, n - 1);
      assert Enabled(states[n - 1], events[n - 1]) && states[n] == Apply(states[n - 1], events[n - 1]);
      RecordsMove(states[n - 1], events[n - 1], rid);
    }
  }

  /** An identity whose first reception did not raise keeps that response for good and is
      never lost. */
  lemma {:induction false} FirstResponseIsRecorded(states: seq<State>, events: seq<Event>, j: nat, k: nat, rid: Rid)
    requires IsRun(states, events) && j < k < |states|
    requires Consumes(events[j], rid) && Unheard(events, rid, j) && !Raises(states[j], events[j])
    ensures events[j].Respond? && rid in states[k].answered && states[k].answered[rid] == events[j].response
  {
    hide Apply, Enabled, Raises;
    assert Enabled(states[k - 1], events[k - 1]) && states[k] == Apply(states[k - 1], events[k - 1]);
    if j == k - 1 {
      UnheardHasNoRecord(states, events, rid, j);
      FirstSample(states[j], events[j], rid);
    } else {
      RecordsMove(states[k - 1], events[k - 1], rid);
      FirstResponseIsRecorded(states, events, j, k - 1, rid);
    }
  }

  /** Whatever order response and send completion come in: on an open client of a running
      executor, a request that was sent, answered and not canceled has the first response
      delivered under its own identity as soon as its completion is drained, unless the
      reception of that response raised. */
  lemma AnsweredRequestHasItsResponse(states: seq<State>, events: seq<Event>, j: nat, k: nat, op: Op, rid: Rid)
    requires IsRun(states, events) && j < k < |states|
    requires Consumes(events[j], rid) && Unheard(events, rid, j) && !Raises(states[j], events[j])
    requires var s := states[k];
      && !s.closing && !s.stopping && op in s.native && s.native[op] == Drained(Sent(rid))
      && op in s.futures && s.futures[op] != Canceled
    ensures events[j].Respond? && states[k].futures[op] == Result(events[j].response)
  {
    FirstResponseIsRecorded(states, events, j, k, rid);
    RunKeepsInvariant(states, events, k);
    RunKeepsFailures(states, events, k);
    assert LiveAt(states[k], op);
    hide StonesOk, EarlyOk, IsRun, Raises;
  }

  /** No sample of `rid` is consumed by the first `k` events except the one at `j`. */
  ghost predicate HeardOnce(events: seq<Event>, rid: Rid, j: nat, k: nat)
    requires j < k <= |events|
  {
    Consumes(events[j], rid) && forall i :: 0 <= i < k && i != j ==> !Consumes(events[i], rid)
  }

  lemma {:induction false} SoleSampleIsLost(states: seq<State>, events: seq<Event>, j: nat, k: nat, rid: Rid)
    requires IsRun(states, events) && j < k < |states| && HeardOnce(events, rid, j, k) && Raises(states[j], events[j])
    ensures rid !in states[k].answered
  {
    hide Apply, Enabled, Raises;
    assert Enabled(states[k - 1], events[k - 1]) && states[k] == Apply(states[k - 1], events[k - 1]);
    if j == k - 1 {
      UnheardHasNoRecord(states, events, rid, j);
      FirstSample(states[j], events[j], rid);
    } else {
      RecordsMove(states[k - 1], events[k - 1], rid);
      SoleSampleIsLost(states, events, j, k - 1, rid);
    }
  }

  /** A request whose identity is answered once gets that response exactly when its reception
      did not raise, and is still waiting for it otherwise. */
  lemma SoleResponseArrivesExactlyUnlessRaised(states: seq<State>, events: seq<Event>, j: nat, k: nat, op: Op, rid: Rid)
    requires IsRun(states, events) && j < k < |states| && HeardOnce(events, rid, j, k)
    requires var s := states[k];
      && !s.closing && !s.stopping && op in s.native && s.native[op] == Drained(Sent(rid))
      && op in s.futures && s.futures[op] != Canceled
    ensures !Raises(states[j], events[j]) <==> events[j].Respond? && states[k].futures[op] == Result(events[j].response)
    ensures Raises(states[j], events[j]) <==> states[k].futures[op] == Pending
  {
    if Raises(states[j], events[j]) {
      SoleSampleIsLost(states, events, j, k, rid);
      RunKeepsInvariant(states, events, k);
      RunKeepsFailures(states, events, k);
      hide IsRun, Tables, StonesOk, EarlyOk, LiveOk, CancelsOk, Raises;
    } else {
      AnsweredRequestHasItsResponse(states, events, j, k, op, rid);
    }
  }

  /** Before the completion is drained the first response waits in the early table, unless
      its reception raised. */
  lemma EarlyResponseIsStaged(states: seq<State>, events: seq<Event>, j: nat, k: nat, op: Op, rid: Rid)
    requires IsRun(states, events) && j < k < |states|
    requires Consumes(events[j], rid) && Unheard(events, rid, j) && !Raises(states[j], events[j])
    requires var s := states[k];
      && !s.closing && op in s.native && !s.native[op].Drained? && op in s.futures && s.futures[op] == Pending
      && SentAs(s.native[op]) == Some(rid)
    ensures var s := states[k];
      && events[j].Respond? && rid in s.early && s.early[rid].response == events[j].response
      && op in s.early[rid].candidates
  {
    FirstResponseIsRecorded(states, events, j, k, rid);
    RunKeepsInvariant(states, events, k);
    hide IsRun, Tables, StonesOk, EarlyOk, ResultsOk, CancelsOk, Raises;
    assert LiveAt(states[k], op);
  }

  /** A request that was sent and still waits to be drained, without a recorded response. */
  ghost predicate AwaitsDrain(s: State, op: Op, rid: Rid) {
    && !s.closing && op in s.native && !s.native[op].Drained? && SentAs(s.native[op]) == Some(rid)
    && op in s.futures && s.futures[op] == Pending && rid !in s.answered
  }

  lemma AwaitsDrainFacts(s: State, op: Op, rid: Rid)
    requires Inv(s) && AwaitsDrain(s, op, rid)
    ensures rid !in s.pending && rid !in s.early && !Buried(s.tombstones, rid) && op in Candidates(s)
    ensures |s.early| <= STAGING_LIMIT
  {
    hide Ordered, NoneLater;
    assert LiveAt(s, op);
    hide LiveAt, LiveOk, ResultsOk, CancelsOk;
  }

  /** In every reachable state, the response to a request that waits to be drained is staged
      exactly when no operation of the client is between entering the tables and having its
      native work, and the early table has room. */
  lemma StagedExactlyWhenNoneIsHalfway(states: seq<State>, events: seq<Event>, k: nat,
                                       op: Op, rid: Rid, response: Response, now: int)
    requires IsRun(states, events) && k < |states| && AwaitsDrain(states[k], op, rid)
    requires Enabled(states[k], Respond(rid, response, now))
    ensures var s := states[k];
      var t := Apply(s, Respond(rid, response, now));
      (rid in t.early && t.early[rid] == Early(response, Candidates(s)) && op in t.early[rid].candidates)
        <==> !Halfway(s) && |s.early| < STAGING_LIMIT
  {
    RunKeepsInvariant(states, events, k);
    AwaitsDrainFacts(states[k], op, rid);
    hide Inv, IsRun, Buried, Candidates, Halfway, Started, AwaitsDrain, SentAs;
    SameCandidates(states[k], Heard(states[k], rid, response, now));
  }

  /** No operation is given the response of another request. */
  lemma NobodyElsesResponse(states: seq<State>, events: seq<Event>, k: nat, a: Op, b: Op)
    requires IsRun(states, events) && k < |states|
    requires a in states[k].futures && states[k].futures[a].Result? && b in states[k].native && a != b
    ensures a in states[k].native && SentAs(states[k].native[a]).Some?
    ensures SentAs(states[k].native[a]).value in states[k].answered
    ensures states[k].futures[a].response == states[k].answered[SentAs(states[k].native[a]).value]
    ensures SentAs(states[k].native[a]) != SentAs(states[k].native[b])
  {
    RunKeepsInvariant(states, events, k);
    hide IsRun, StonesOk, EarlyOk, LiveOk, CancelsOk, OperationsOk, PendingOk, KeysApart;
  }

  /** The key spaces of the tables are disjoint, early candidates are non-empty sets of
      unreconciled operations, and every number found in a table is in the operation table. */
  lemma TablesAgree(states: seq<State>, events: seq<Event>, k: nat)
    requires IsRun(states, events) && k < |states|
    ensures var s := states[k];
      && (forall r :: r in s.pending ==> r !in s.early && !Buried(s.tombstones, r))
      && (forall r :: r in s.early ==>
            !Buried(s.tombstones, r) && s.early[r].candidates != {} && s.early[r].candidates <= s.unreconciled)
      && (forall op :: op in s.unreconciled ==> op in s.operations && !s.operations[op].reconciled)
      && (forall r :: r in s.pending ==>
            s.pending[r] in s.operations && s.operations[s.pending[r]] == Operation(Some(r), true))
      && (forall op :: op in s.native && s.native[op].Finished? ==> op in s.operations)
      && |s.early| <= STAGING_LIMIT && |s.tombstones| <= TOMBSTONE_LIMIT
  {
    RunKeepsInvariant(states, events, k);
    hide IsRun, Outcomes, NumbersOk, Ordered, NoneLater;
    var s := states[k];
    forall r | Buried(s.tombstones, r) ensures r !in s.pending && r !in s.early {
      var j :| 0 <= j < |s.tombstones| && s.tombstones[j].rid == r;
    }
  }

  /** A Future is settled once: its outcome never changes afterwards. */
  lemma {:induction false} SettledOnce(states: seq<State>, events: seq<Event>, j: nat, k: nat, op: Op)
    requires IsRun(states, events) && j <= k < |states| && op in states[j].futures
    ensures op in states[k].futures
    ensures states[j].futures[op] != Pending ==> states[k].futures[op] == states[j].futures[op]
  {
    hide Inv, Apply, Enabled;
    if j < k {
      SettledOnce(states, events, j, k - 1, op);
      RunKeepsInvariant(states, events, k - 1);
      assert Enabled(states[k - 1], events[k - 1]) && states[k] == Apply(states[k - 1], events[k - 1]);
      RunKeepsFailures(states, events, k - 1);
      StepSettles(states[k - 1], events[k - 1]);
    }
  }

  // --------------------------------------------------------- order does not matter

  /** A live request whose first response has not arrived yet. */
  ghost predicate Unanswered(s: State, op: Op, rid: Rid) {
    && Inv(s) && !s.closing && Drainable(s, op) && s.native[op] == Finished(Sent(rid))
    && op in s.futures && s.futures[op] == Pending && rid !in s.answered && |s.early| < STAGING_LIMIT
  }

  lemma UnansweredFacts(s: State, op: Op, rid: Rid)
    requires Unanswered(s, op, rid)
    ensures rid !in s.pending && rid !in s.early && !Buried(s.tombstones, rid) && op in Candidates(s)
  {
    UnfinishedIsNotPending(s, op);
    hide Tables, StonesOk;
    assert LiveAt(s, op);
  }

  lemma RespondFirst(s: State, op: Op, rid: Rid, response: Response, now: int)
    requires Unanswered(s, op, rid) && !Halfway(s)
    ensures rid !in s.pending && Received(s, rid, response, now) == Held(s, rid, response, now)
    ensures Drainable(Held(s, rid, response, now), op)
    ensures AfterDrain(Held(s, rid, response, now), op, now)
      == Left(Held(s, rid, response, now), op, Some(rid), s.futures[op := Result(response)], now)
  {
    UnansweredFacts(s, op, rid);
    hide Inv, Buried, Left, Retired, Entombed, Candidates;
    SameCandidates(s, Heard(s, rid, response, now));
  }

  lemma RespondHalfway(s: State, op: Op, rid: Rid, response: Response, now: int)
    requires Unanswered(s, op, rid) && Halfway(s)
    ensures rid !in s.pending && Received(s, rid, response, now) == Dropped(s, rid, now)
    ensures Drainable(Dropped(s, rid, now), op)
    ensures AfterDrain(Dropped(s, rid, now), op, now).futures[op] == Pending
  {
    UnansweredFacts(s, op, rid);
    hide Inv, Buried, Halfway, Retired, Entombed, Without;
  }

  lemma DrainFirst(s: State, op: Op, rid: Rid, response: Response, now: int)
    requires Unanswered(s, op, rid)
    ensures AfterDrain(s, op, now) == Awaiting(s, op, rid, now)
    ensures var t := Awaiting(s, op, rid, now);
      && rid in t.pending && t.pending[rid] in t.operations
      && Received(t, rid, response, now) == Answered(Heard(t, rid, response, now), rid, response)
  {
    UnansweredFacts(s, op, rid);
    hide Inv, Buried, Left, Retired, Entombed, Candidates, Answered;
  }

  lemma BothOrdersMeet(s: State, op: Op, rid: Rid, response: Response, now: int)
    requires Drainable(s, op) && rid !in s.pending && op in s.futures && s.futures[op] == Pending
    ensures Drainable(Held(s, rid, response, now), op)
    ensures Left(Held(s, rid, response, now), op, Some(rid), s.futures[op := Result(response)], now)
      == Answered(Heard(Awaiting(s, op, rid, now), rid, response, now), rid, response)
  {
    hide Retired, Entombed, Candidates;
    assert s.early[rid := Early(response, Candidates(s))] - {rid} == s.early - {rid};
    assert s.pending[rid := op] - {rid} == s.pending;
    assert s.operations[op := Operation(Some(rid), true)] - {op} == s.operations - {op};
  }

  lemma OrdersMeet(s: State, op: Op, rid: Rid, response: Response, now: int)
    requires Unanswered(s, op, rid) && !Halfway(s)
    ensures rid !in s.pending && Drainable(Received(s, rid, response, now), op)
    ensures var t := AfterDrain(s, op, now); rid in t.pending && t.pending[rid] in t.operations
    ensures AfterDrain(Received(s, rid, response, now), op, now) == Received(AfterDrain(s, op, now), rid, response, now)
  {
    RespondFirst(s, op, rid, response, now);
    DrainFirst(s, op, rid, response, now);
    BothOrdersMeet(s, op, rid, response, now);
    hide Inv, Retired, Entombed, Candidates, Received, AfterDrain, Buried, Held, Left, Heard;
  }

  lemma DrainFirstDelivers(s: State, op: Op, rid: Rid, response: Response, now: int)
    requires Unanswered(s, op, rid)
    ensures var t := AfterDrain(s, op, now);
      && rid in t.pending && t.pending[rid] in t.operations && op in t.futures && t.futures[op] == Pending
      && op in Received(t, rid, response, now).futures
      && Received(t, rid, response, now).futures[op] == Result(response)
  {
    DrainFirst(s, op, rid, response, now);
    hide Inv, Retired, Entombed, Received, AfterDrain;
  }

  /** The two orders in which a live request's completion and its first response may be
      processed lead to the same state, table by table, exactly when no submission is halfway.
      When the drain comes first the response is always delivered. */
  lemma OrdersAgree(s: State, op: Op, rid: Rid, response: Response, now: int)
    requires Unanswered(s, op, rid)
    ensures rid !in s.pending && Drainable(Received(s, rid, response, now), op)
    ensures var t := AfterDrain(s, op, now); rid in t.pending && t.pending[rid] in t.operations
    ensures AfterDrain(Received(s, rid, response, now), op, now) == Received(AfterDrain(s, op, now), rid, response, now)
      <==> !Halfway(s)
    ensures Received(AfterDrain(s, op, now), rid, response, now).futures[op] == Result(response)
  {
    hide Inv, Received, AfterDrain, Halfway, Unanswered;
    DrainFirstDelivers(s, op, rid, response, now);
    if Halfway(s) {
      RespondHalfway(s, op, rid, response, now);
    } else {
      OrdersMeet(s, op, rid, response, now);
    }
  }
}
