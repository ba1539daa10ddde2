/** Delivery of a service or action response by the worker: write, retry, discard, retry
    the discard, report the original failure (`service_io.hpp`, `action_io.hpp`). */
module Delivery {
  import opened Common
  import opened DispatcherModel

  /** What one DDS call reports. */
  datatype Outcome = Done | Failed(error: ErrorCode, text: string)

  /** A discard that leaves nothing to clean up. */
  predicate Settles(o: Outcome) {
    o.Done? || o.error.NotFound?
  }

  predicate IsBusy(o: Outcome) {
    o.Failed? && o.error.Busy?
  }

  predicate IsHard(o: Outcome) {
    !Settles(o) && !IsBusy(o)
  }

  /** The fields of a delivery job that change. */
  datatype Job = Job(discard: bool, cleanupPending: bool, failure: Option<Record>)

  /** `execute_step` after its function threw `o`. */
  function Caught(record: Record, o: Outcome): Record {
    match o
    case Done => record
    case Failed(error, text) => record.(failed := true, error := error, diagnostic := text)
  }

  /** `discard_request`, with what it throws. */
  function Discarded(job: Job, record: Record, o: Outcome): (Job, Record) {
    if Settles(o) then (job, record)
    else (job.(cleanupPending := IsBusy(o)), Caught(record.(cleanupFailed := !IsBusy(o)), o))
  }

  /** One execution of `run` inside `execute_step`. */
  function Ran(job: Job, record: Record, write: Outcome, discard: Outcome): (Job, Record) {
    var fresh' := job.(cleanupPending := false);
    if !job.discard then (fresh', Caught(record, write))
    else
      var (after, result) := Discarded(fresh', record, discard);
      (after, if Settles(discard) && job.failure.Some? then job.failure.value else result)
  }

  /** One execution of `after_failed_delivery` inside `execute_step`. */
  function AfterFailed(job: Job, record: Record, discard: Outcome): (Job, Record) {
    Discarded(job.(discard := true, failure := if job.discard then job.failure else Some(record)), record, discard)
  }

  predicate Retryable(job: Job, record: Record) {
    if job.discard then job.cleanupPending else record.error.DDSError? || record.error.Busy?
  }

  const ATTEMPTS: nat := 3

  /** One DDS call of a delivery. */
  datatype Call = Wrote(outcome: Outcome) | Withdrew(outcome: Outcome)

  /** A delivery between two turns; `calls` is everything it has asked of DDS. */
  datatype Attempt = Attempt(job: Job, record: Record, retries: nat, done: bool, calls: seq<Call>)

  /** The DDS answers one turn of the worker may meet. */
  datatype Answer = Answer(write: Outcome, first: Outcome, second: Outcome)

  function Begin(record: Record, respond: bool): Attempt {
    Attempt(Job(!respond, false, None), record, 0, false, [])
  }

  /** One turn of the worker with the job: `worker()` from picking the slot to putting it back. */
  function Turn(s: Attempt, a: Answer): Attempt {
    var cleared := s.record.(failed := false, diagnostic := "");
    var (job, record) := Ran(s.job, cleared, a.write, a.first);
    var call := if s.job.discard then Withdrew(a.first) else Wrote(a.write);
    if ShouldRetry(record, s.retries, Retryable(job, record), ATTEMPTS) then
      Attempt(job, record, s.retries + 1, false, s.calls + [call])
    else if record.failed then
      var (job', record') := AfterFailed(job, record, a.second);
      Attempt(job', record', s.retries, !job'.cleanupPending, s.calls + [call, Withdrew(a.second)])
    else Attempt(job, record, s.retries, !job.cleanupPending, s.calls + [call])
  }

  /** Turns until the job completes; a completed job gets no further turn. */
  function Turns(s: Attempt, answers: seq<Answer>): Attempt
    decreases |answers|
  {
    if answers == [] || s.done then s else Turns(Turn(s, answers[0]), answers[1..])
  }

  // ------------------------------------------------------------------- invariant

  /** `n` failed writes and after them nothing but discards. */
  ghost predicate WritesThenDiscards(calls: seq<Call>, n: nat) {
    && n <= |calls|
    && (forall k :: 0 <= k < n ==> calls[k].Wrote? && calls[k].outcome.Failed?)
    && (forall k :: n <= k < |calls| ==> calls[k].Withdrew?)
  }

  /** `record` reports failure `o` and otherwise agrees with the record the delivery began with. */
  predicate Reports(record: Record, original: Record, o: Outcome) {
    o.Failed? && record == original.(failed := true, error := o.error, diagnostic := o.text)
  }

  predicate SettledCall(c: Call) { c.Withdrew? && Settles(c.outcome) }

  predicate HardCall(c: Call) { c.Withdrew? && IsHard(c.outcome) }

  ghost predicate Has(calls: seq<Call>, p: Call -> bool) {
    exists k :: 0 <= k < |calls| && p(calls[k])
  }

  /** The delivery goes on: `n` writes failed so far and no discard has settled it. */
  ghost predicate Pending(s: Attempt, original: Record, n: nat, respond: bool) {
    && !s.done && WritesThenDiscards(s.calls, n) && n <= ATTEMPTS && !s.record.cleanupFailed
    && SameWork(s.record, original)
    && (!respond ==> n == 0 && s.job.discard && s.job.failure.None?)
    && (!s.job.discard ==> |s.calls| == n && n == s.retries && n < ATTEMPTS)
    && (respond && s.job.discard ==>
          n >= 1 && s.job.failure.Some? && Reports(s.job.failure.value, original, s.calls[n - 1].outcome))
  }

  /** The response was written; nothing was discarded. */
  ghost predicate Delivered(s: Attempt, n: nat, respond: bool) {
    && s.done && respond && !s.record.failed && |s.calls| == n + 1 <= ATTEMPTS
    && WritesThenDiscards(s.calls[..n], n) && s.calls[n] == Wrote(Done)
  }

  /** The request was discarded after `n` failed writes. */
  ghost predicate Resolved(s: Attempt, original: Record, n: nat, respond: bool) {
    && s.done && WritesThenDiscards(s.calls, n) && n <= ATTEMPTS && (respond <==> n >= 1)
    && (!s.record.cleanupFailed ==>
          && Has(s.calls, SettledCall)
          && if respond then Reports(s.record, original, s.calls[n - 1].outcome) else !s.record.failed)
    && (s.record.cleanupFailed ==> s.record.failed && Has(s.calls, HardCall))
  }

  /** Everything but the outcome is as it was. */
  predicate SameWork(record: Record, original: Record) {
    Outcomeless(record) == Outcomeless(original)
  }

  function Outcomeless(r: Record): Record {
    r.(failed := false, cleanupFailed := false, error := DDSError, diagnostic := "")
  }

  lemma HasAt(calls: seq<Call>, k: nat, p: Call -> bool)
    requires k < |calls| && p(calls[k])
    ensures Has(calls, p)
  {
  }

  lemma WriteTurn(s: Attempt, a: Answer, original: Record, n: nat)
    requires Pending(s, original, n, true) && !s.job.discard && !original.cleanupFailed
    ensures var t := Turn(s, a);
      if a.write.Done? then Delivered(t, n, true)
      else Pending(t, original, n + 1, true) || Resolved(t, original, n + 1, true)
  {
    var t := Turn(s, a);
    if a.write.Failed? && |t.calls| == n + 2 {
      assert t.calls[n] == Wrote(a.write) && t.calls[n + 1] == Withdrew(a.second);
      if Settles(a.second) { HasAt(t.calls, n + 1, SettledCall); }
      if IsHard(a.second) { HasAt(t.calls, n + 1, HardCall); }
    }
  }

  lemma DiscardTurn(s: Attempt, a: Answer, original: Record, n: nat, respond: bool)
    requires Pending(s, original, n, respond) && s.job.discard && !original.cleanupFailed
    ensures var t := Turn(s, a); Pending(t, original, n, respond) || Resolved(t, original, n, respond)
  {
    var t := Turn(s, a);
    var m := |s.calls|;
    assert t.calls[m] == Withdrew(a.first);
    if Settles(a.first) { HasAt(t.calls, m, SettledCall); }
    if IsHard(a.first) { HasAt(t.calls, m, HardCall); }
    if |t.calls| == m + 2 {
      assert t.calls[m + 1] == Withdrew(a.second);
      if Settles(a.second) { HasAt(t.calls, m + 1, SettledCall); }
      if IsHard(a.second) { HasAt(t.calls, m + 1, HardCall); }
    }
  }

  /** Whatever DDS answers, a delivery writes at most three times, never writes after its
      first discard, and when it completes it either delivered the response, or reports its
      last write's failure with the request discarded, or says that cleanup failed. */
  lemma {:induction false} DeliveryOutcome(s: Attempt, answers: seq<Answer>, original: Record, n: nat, respond: bool)
    returns (w: nat)
    requires Pending(s, original, n, respond) && !original.cleanupFailed
    ensures n <= w <= ATTEMPTS
    ensures var t := Turns(s, answers);
      if t.done then Delivered(t, w, respond) || Resolved(t, original, w, respond)
      else Pending(t, original, w, respond)
    decreases |answers|
  {
    w := n;
    if answers != [] {
      var t := Turn(s, answers[0]);
      if s.job.discard {
        DiscardTurn(s, answers[0], original, n, respond);
      } else {
        WriteTurn(s, answers[0], original, n);
        if answers[0].write.Failed? { w := n + 1; }
      }
      if !t.done {
        w := DeliveryOutcome(t, answers[1..], original, w, respond);
      }
    }
  }

  lemma BeginPending(record: Record, respond: bool)
    requires !record.cleanupFailed
    ensures Pending(Begin(record, respond), record, 0, respond)
  {
  }

  /** The whole life of a delivery, from the first turn on. */
  lemma AnyDelivery(record: Record, respond: bool, answers: seq<Answer>) returns (w: nat)
    requires !record.cleanupFailed
    ensures w <= ATTEMPTS
    ensures var t := Turns(Begin(record, respond), answers);
      if t.done then Delivered(t, w, respond) || Resolved(t, record, w, respond)
      else Pending(t, record, w, respond)
  {
    BeginPending(record, respond);
    w := DeliveryOutcome(Begin(record, respond), answers, record, 0, respond);
  }

  /** A discard that keeps answering Busy is repeated: while every discard of a turn is
      Busy the delivery does not complete, and all it does is discard, whatever the number of
      turns. */
  lemma {:induction false} BusyKeepsTrying(s: Attempt, answers: seq<Answer>)
    requires !s.done && s.job.discard
    requires forall k :: 0 <= k < |answers| ==> IsBusy(answers[k].first) && IsBusy(answers[k].second)
    ensures var t := Turns(s, answers);
      && !t.done && t.job.discard && s.calls <= t.calls && (answers != [] ==> s.calls < t.calls)
      && (forall k :: |s.calls| <= k < |t.calls| ==> t.calls[k].Withdrew? && IsBusy(t.calls[k].outcome))
    decreases |answers|
  {
    if answers != [] {
      BusyKeepsTrying(Turn(s, answers[0]), answers[1..]);
    }
  }

  /** Exactly when a turn in discard mode ends the delivery. */
  lemma DiscardCompletes(s: Attempt, a: Answer)
    requires s.job.discard && (s.job.failure.Some? ==> s.job.failure.value.failed)
    ensures Turn(s, a).done <==>
      || (Settles(a.first) && (s.job.failure.None? || !IsBusy(a.second)))
      || (IsHard(a.first) && !IsBusy(a.second))
      || (IsBusy(a.first) && s.retries + 1 >= ATTEMPTS && IsHard(a.second))
  {
  }

  // ------------------------------------------------- the job inside the dispatcher

  /** What the job answers to the worker during one turn. */
  function AnswersOf(s: Attempt, a: Answer): Answers {
    var cleared := s.record.(failed := false, diagnostic := "");
    var (job, record) := Ran(s.job, cleared, a.write, a.first);
    var (job', record') := AfterFailed(job, record, a.second);
    Answers(record, Retryable(job, record), ATTEMPTS, record',
            if record.failed then job'.cleanupPending else job.cleanupPending)
  }

  /** The dispatcher's turn and the delivery's turn are the same: the worker puts the slot
      back to wait exactly when the delivery goes on, with the delivery's record and number
      of retries, and publishes it exactly when the delivery is done. */
  lemma TurnInDispatcher(d: DispatcherModel.State, s: Attempt, a: Answer, now: int)
    requires d.worker.Holding? && d.worker.index < |d.slots|
    requires d.slots[d.worker.index].retries == s.retries && d.slots[d.worker.index].completion == s.record
    ensures var events := TurnEvents(d, AnswersOf(s, a), now);
      var t := Turn(s, a);
      && (events[|events| - 1] == Append <==> t.done)
      && (t.retries == s.retries + 1 <==> events[|events| - 1] == Retry(now))
      && (!t.done && t.retries == s.retries ==> events[|events| - 1] == Park(now))
      && Execute(t.record) in events
      && (forall e :: e in events && e.Execute? ==> e == events[0] || e == Execute(t.record))
  {
    var events := TurnEvents(d, AnswersOf(s, a), now);
    var t := Turn(s, a);
    assert events[0] == Execute(AnswersOf(s, a).ran);
    if AnswersOf(s, a).ran.failed && |events| > 1 && events[1].Execute? {
      assert events[1] == Execute(t.record);
    }
  }
}
