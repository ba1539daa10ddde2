/** The job objects of `service_io.hpp` and `action_io.hpp` and the work objects that own
    their tickets.  The service job and the three action jobs differ only in which DDS call
    a write or a discard is; the outcome of that call is a parameter here. */
module DeliveryJobs {
  import opened Common
  import opened DispatcherModel
  import opened Delivery
  import opened DispatcherInvariant
  import opened DispatcherRuns
  import opened NativeIo

  class DeliveryJob {
    var discarding: bool
    var pending: bool
    var failure: Option<Record>
    var hasResponse: bool

    ghost function View(): Job
      reads this
    {
      Job(discarding, pending, failure)
    }

    /** A job in write mode has its response payload. */
    ghost predicate Valid()
      reads this
    {
      !discarding ==> hasResponse
    }

    constructor ()
      ensures Valid() && View() == Job(true, false, None) && !hasResponse
    {
      discarding, pending, failure, hasResponse := true, false, None, false;
    }

    method Respond()
      modifies this
      ensures Valid() && View() == old(View()).(discard := false)
    {
      hasResponse := true;
      discarding := false;
    }

    method Discard()
      requires Valid()
      modifies this
      ensures Valid() && View() == old(View()).(discard := true)
    {
      discarding := true;
    }

    /** `run` under `execute_step`. */
    method Run(record: Record, write: Outcome, discard: Outcome) returns (result: Record)
      requires Valid()
      modifies this
      ensures Valid() && (View(), result) == Ran(old(View()), record, write, discard)
    {
      pending := false;
      if discarding {
        result := DiscardRequest(record, discard);
        if Settles(discard) && failure.Some? { result := failure.value; }
      } else {
        if !hasResponse {
          // "Action request has no response payload": unreachable.
          assert false;
        }
        result := Caught(record, write);
      }
    }

    /** `after_failed_delivery` under `execute_step`. */
    method AfterFailedDelivery(record: Record, discard: Outcome) returns (result: Record)
      requires Valid()
      modifies this
      ensures Valid() && (View(), result) == AfterFailed(old(View()), record, discard)
    {
      if !discarding { failure := Some(record); }
      discarding := true;
      result := DiscardRequest(record, discard);
    }

    method DiscardRequest(record: Record, outcome: Outcome) returns (result: Record)
      requires Valid() && discarding
      modifies this
      ensures Valid() && (View(), result) == Discarded(old(View()), record, outcome)
    {
      if Settles(outcome) { return record; }
      pending := outcome.error.Busy?;
      return Caught(record.(cleanupFailed := !pending), outcome);
    }
  }

  /** A reserved ticket stays reserved, with its job, under every step that does not name it:
      no interleaving of other callers and of the worker can start or free it. */
  lemma ReservationSurvives(s: DispatcherModel.State, e: Event, i: nat)
    requires WorkerOk(s) && ListsOk(s) && RingsOk(s)
    requires i < |s.slots| && s.slots[i].state == SlotState.Reserved && s.slots[i].job.Some? && Enabled(s, e)
    requires e != Enqueue(i) && e != Abandon(i)
    ensures |Apply(s, e).slots| == |s.slots| && Apply(s, e).slots[i] == s.slots[i]
  {
    if e.Acknowledge? {
      assert RingOk(s.slots, s.ports[e.port].ring, e.port, s.worker);
    }
  }

  /** `ServiceRequestWork` and `ActionServerRequestWork`: the owner of one reserved ticket
      until its delivery is handed to the worker or given up. */
  class RequestWork {
    const io: NativeIoDispatcher
    const job: DeliveryJob
    const ticket: nat
    var held: bool
    var accepted: bool
    var submitted: bool

    /** While the work has neither submitted nor dropped its job, its ticket is Reserved; a
        request that was taken and not submitted still has it, and only one that was taken
        is ever submitted. */
    ghost predicate Owns()
      reads this, io
    {
      && (accepted && !submitted ==> held)
      && (held && submitted ==> accepted)
      && (held && !submitted ==>
            var found := Find(io.m, ticket);
            && found.Some? && found.value < |io.m.slots|
            && io.m.slots[found.value].state == SlotState.Reserved && io.m.slots[found.value].job.Some?)
    }

    constructor (io: NativeIoDispatcher, job: DeliveryJob, ticket: nat)
      requires Find(io.m, ticket).Some? && Find(io.m, ticket).value < |io.m.slots|
      requires io.m.slots[Find(io.m, ticket).value].state == SlotState.Reserved
      requires io.m.slots[Find(io.m, ticket).value].job.Some?
      ensures Owns() && this.io == io && this.job == job && this.ticket == ticket
      ensures held && !accepted && !submitted
    {
      this.io, this.job, this.ticket := io, job, ticket;
      held, accepted, submitted := true, false, false;
    }

    /** The reader has taken a request for this work. */
    method Accepted()
      requires Owns() && held && !submitted
      modifies `accepted
      ensures Owns() && accepted
    {
      accepted := true;
    }

    /** Hands the response to the worker, once. */
    method Respond() returns (r: Result<()>)
      requires io.Valid() && Owns() && job.Valid()
      modifies `submitted, job, io, io.slots, io.next
      ensures io.Valid() && Owns() && job.Valid()
      ensures if old(submitted) || !old(accepted)
        then r == Failure(InvalidState) && io.m == old(io.m) && job.View() == old(job.View())
          && submitted == old(submitted)
        else r == Success(()) && submitted && !job.View().discard
             && Enabled(old(io.m), Enqueue(Find(old(io.m), ticket).value))
             && io.m == Apply(old(io.m), Enqueue(Find(old(io.m), ticket).value))
    {
      hide Reachable, CompletionPort.Is, Chain;
      if submitted || !accepted { return Failure(InvalidState); }
      job.Respond();
      r := io.EnqueuePrepared(ticket);
      submitted := true;
    }

    /** Hands the job to the worker in discard mode, unless it was submitted before. */
    method SubmitDiscard() returns (r: Result<()>)
      requires io.Valid() && Owns() && job.Valid()
      modifies `submitted, job, io, io.slots, io.next
      ensures io.Valid() && Owns() && job.Valid()
      ensures if old(submitted) then r == Success(()) && io.m == old(io.m) && submitted
        else if !old(accepted) then r == Failure(InvalidState) && io.m == old(io.m) && !submitted
        else r == Success(()) && submitted && job.View().discard
             && Enabled(old(io.m), Enqueue(Find(old(io.m), ticket).value))
             && io.m == Apply(old(io.m), Enqueue(Find(old(io.m), ticket).value))
    {
      hide Reachable, CompletionPort.Is, Chain;
      if submitted { return Success(()); }
      if !accepted { return Failure(InvalidState); }
      job.Discard();
      r := io.EnqueuePrepared(ticket);
      submitted := true;
    }

    /** The task ends: a request that was taken is discarded unless it was answered, a
        ticket that was never used is given back.  Nothing happens the second time. */
    method FinishTask()
      requires io.Valid() && Owns() && job.Valid()
      modifies this, job, io, io.slots, io.next, io.Ports()
      ensures io.Valid() && Owns() && job.Valid() && !held
      ensures old(held && !accepted) ==>
        Enabled(old(io.m), Abandon(Find(old(io.m), ticket).value))
          && io.m == Apply(old(io.m), Abandon(Find(old(io.m), ticket).value))
      ensures old(held && accepted && !submitted) ==>
        && job.View().discard && Enabled(old(io.m), Enqueue(Find(old(io.m), ticket).value))
        && io.m == Apply(old(io.m), Enqueue(Find(old(io.m), ticket).value))
      ensures old(!held || submitted) ==> io.m == old(io.m)
    {
      hide Reachable, CompletionPort.Is, Chain, Apply, Enabled;
      if !held { return; }
      if !accepted {
        GiveBack();
      } else {
        var done := SubmitDiscard();
        held := false;
      }
    }

    /** A ticket that no request was taken for goes back to the dispatcher. */
    method GiveBack()
      requires io.Valid() && Owns() && held && !accepted
      modifies `held, io, io.slots, io.Ports()
      ensures io.Valid() && Owns() && !held
      ensures Enabled(old(io.m), Abandon(Find(old(io.m), ticket).value))
        && io.m == Apply(old(io.m), Abandon(Find(old(io.m), ticket).value))
    {
      hide Reachable, CompletionPort.Is, Chain;
      LiveFacts(io.m, Find(io.m, ticket).value);
      var given := io.Abandon(ticket);
      held := false;
    }
  }
}
