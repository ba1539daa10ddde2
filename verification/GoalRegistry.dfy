/** `ActionGoalRegistry` updated in place, and the `accept_goal` protocol around it. */
module GoalRegistry {
  import opened Common
  import opened GoalModel
  import opened GoalRuns

  class ActionGoalRegistry {
    const timeout: nat
    var goals: map<Goal, Record>
    var queue: seq<Goal>
    ghost var m: State

    ghost predicate Valid()
      reads this
    {
      m.goals == goals && m.queue == queue && m.timeout == timeout && Inv(m)
    }

    constructor (resultTimeout: int)
      ensures Valid() && m == Initial(resultTimeout)
    {
      timeout := if resultTimeout < 0 then 0 else resultTimeout;
      goals, queue := map[], [];
      m := Initial(resultTimeout);
      new;
      InitialInv(resultTimeout);
    }

    // ------------------------------------------------------------- accept_goal

    /** The first half of `accept_goal`: the goal is reserved before the response is written. */
    method Reserve(ghost a: Acceptor, goal: Goal) returns (reserved: bool)
      requires Valid() && a !in m.acceptors
      modifies this
      ensures Valid() && m == Apply(old(m), Event.Reserve(a, goal))
      ensures reserved <==> goal !in old(goals)
      ensures reserved <==> a in m.acceptors
    {
      hide Inv;
      StepKeepsInvariant(m, Event.Reserve(a, goal));
      m := Apply(m, Event.Reserve(a, goal));
      if goal in goals {
        return false;
      }
      goals := goals[goal := Fresh()];
      reserved := true;
    }

    /** The second half: a written response is followed by a commit that cannot fail, a failed
        write by the rollback. */
    method Conclude(ghost a: Acceptor, goal: Goal, stamp: int, mode: Mode, written: bool) returns (r: Result<GoalState>)
      requires Valid() && a in m.acceptors && m.acceptors[a] == goal
      modifies this
      ensures Valid() && m == Apply(old(m), if written then Event.Commit(a, stamp, mode) else Rollback(a))
      ensures written ==> r == Success(if mode == Immediate then Executing else Accepted) && Live(m, goal)
      ensures !written ==> r == Failure(DDSError) && goals == old(goals) - {goal}
    {
      hide Inv;
      Reservation(m, a);
      if !written {
        StepKeepsInvariant(m, Rollback(a));
        m := Apply(m, Rollback(a));
        RollbackReservation(goal);
        return Failure(DDSError);
      }
      StepKeepsInvariant(m, Event.Commit(a, stamp, mode));
      m := Apply(m, Event.Commit(a, stamp, mode));
      var committed := CommitRecord(goal, stamp, mode);
      if !committed {
        return Failure(ProtocolFault);
      }
      r := Success(if mode == Immediate then Executing else Accepted);
    }

    static lemma Reservation(s: State, a: Acceptor)
      requires Inv(s) && a in s.acceptors
      ensures CommitOk(s, s.acceptors[a])
    {
    }

    /** `rollback_reservation`. */
    method RollbackReservation(goal: Goal)
      modifies this`goals
      ensures goals == if goal in old(goals) && !old(goals)[goal].committed then old(goals) - {goal} else old(goals)
    {
      if goal in goals && !goals[goal].committed {
        goals := goals - {goal};
      }
    }

    /** `commit`. */
    method CommitRecord(goal: Goal, stamp: int, mode: Mode) returns (committed: bool)
      modifies this`goals
      ensures committed <==> goal in old(goals) && !old(goals)[goal].committed
      ensures goals == if committed then
                old(goals)[goal := Record(stamp, if mode == Immediate then Executing else Accepted, true, false,
                                          old(goals)[goal].terminalTime, [])]
              else old(goals)
    {
      if goal !in goals || goals[goal].committed {
        return false;
      }
      var state := if mode == Immediate then Executing else Accepted;
      goals := goals[goal := goals[goal].(stamp := stamp, state := state, committed := true, scheduled := false,
                                          pending := [])];
      committed := true;
    }

    // ----------------------------------------------------------- states and expiry

    method UpdateState(goal: Goal, event: GoalEvent, now: int) returns (r: Result<(GoalState, GoalState)>)
      requires Valid() && m.clock <= now <= MAX_TIME
      modifies this
      ensures Valid() && m == Apply(old(m), Update(goal, event, now))
      ensures r.Success? <==> Updated(old(m), goal, event, now).Success?
      ensures r.Failure? ==> goals == old(goals) && r.error == Updated(old(m), goal, event, now).error
      ensures r.Success? ==> Live(m, goal) && r.value == (old(goals)[goal].state, goals[goal].state)
    {
      hide Inv;
      StepKeepsInvariant(m, Update(goal, event, now));
      m := Apply(m, Update(goal, event, now));
      if goal !in goals || !goals[goal].committed {
        return Failure(NotFound);
      }
      var record := goals[goal];
      if Terminal(record.state) {
        return Failure(InvalidState);
      }
      var next := Next(record.state, event);
      if next == None {
        return Failure(InvalidState);
      }
      r := Success((record.state, next.value));
      record := record.(state := next.value);
      if Terminal(record.state) {
        record := record.(terminalTime := now, scheduled := true);
      }
      goals := goals[goal := record];
    }

    /** `prune_expired_locked`: every removal is queued first. */
    method Prune(now: int) returns (ghost order: seq<Goal>)
      modifies this`goals, this`queue
      ensures Distinct(order) && forall g :: g in order <==> g in ExpiredGoals(old(goals), timeout, now)
      ensures goals == old(goals) - ExpiredGoals(old(goals), timeout, now) && queue == old(queue) + order
    {
      order := [];
      var left := goals.Keys;
      ghost var before := goals;
      while left != {}
        invariant left <= before.Keys && queue == old(queue) + order && Distinct(order)
        invariant forall g :: g in order <==> g in ExpiredGoals(before, timeout, now) && g !in left
        invariant forall g :: g in goals <==> g in before && g !in order
        invariant forall g :: g in goals ==> goals[g] == before[g]
        decreases |left|
      {
        var g: Goal :| g in left;
        left := left - {g};
        if goals[g].committed && goals[g].scheduled && now - goals[g].terminalTime >= timeout {
          queue := queue + [g];
          goals := goals - {g};
          order := order + [g];
        }
      }
      assert goals == before - ExpiredGoals(before, timeout, now);
    }

    method TakeExpired(now: int) returns (expired: seq<Goal>, ghost order: seq<Goal>)
      requires Valid() && m.clock <= now <= MAX_TIME
      modifies this
      ensures IsPruning(old(m), now, order) && Valid() && m == Apply(old(m), Event.TakeExpired(now, order))
      ensures expired == old(queue) + order && queue == []
      ensures expired != [] <==> Ready(old(m), now)
    {
      hide Inv;
      order := Prune(now);
      ReadyMeansTakeYields(m, now, order);
      StepKeepsInvariant(m, Event.TakeExpired(now, order));
      m := Apply(m, Event.TakeExpired(now, order));
      expired := queue;
      queue := [];
    }

    /** `expiry_ready` only looks. */
    method ExpiryReady(now: int) returns (ready: bool)
      requires Valid()
      ensures ready <==> Ready(m, now)
    {
      if queue != [] {
        return true;
      }
      var left := goals.Keys;
      while left != {}
        invariant left <= goals.Keys && forall g :: g in goals && g !in left ==> !Expired(goals[g], timeout, now)
        decreases |left|
      {
        var g: Goal :| g in left;
        left := left - {g};
        if goals[g].committed && goals[g].scheduled && now - goals[g].terminalTime >= timeout {
          return true;
        }
      }
      ready := false;
    }

    /** `earliest_expiry`. */
    method EarliestExpiry() returns (d: Option<int>)
      requires Valid()
      ensures IsEarliest(m, d)
    {
      d := None;
      var left := goals.Keys;
      while left != {}
        invariant left <= goals.Keys
        invariant d.None? ==> forall g :: g in goals && g !in left ==> !Scheduled(m, g)
        invariant d.Some? ==> exists g :: Scheduled(m, g) && Deadline(m, g) == d.value
        invariant d.Some? ==> forall g :: Scheduled(m, g) && g !in left ==> d.value <= Deadline(m, g)
        decreases |left|
      {
        var g: Goal :| g in left;
        left := left - {g};
        if goals[g].committed && goals[g].scheduled {
          var deadline := SaturatingAdd(goals[g].terminalTime, timeout);
          assert Scheduled(m, g) && Deadline(m, g) == deadline;
          if d.None? || deadline < d.value {
            d := Some(deadline);
          }
        }
      }
    }

    // ------------------------------------------------------------- result requests

    method RegisterResultRequest(goal: Goal, request: Request, now: int)
      returns (r: Result<Disposition>, ghost order: seq<Goal>)
      requires Valid() && m.clock <= now <= MAX_TIME
      modifies this
      ensures IsPruning(old(m), now, order) && Valid() && m == Apply(old(m), RegisterRequest(goal, request, now, order))
      ensures var p := Registered(Pruned(old(m), now, order), goal, request);
        r == if p.Success? then Success(p.value.0) else Failure(p.error)
    {
      hide Inv;
      order := Prune(now);
      StepKeepsInvariant(m, RegisterRequest(goal, request, now, order));
      ghost var p := Pruned(m, now, order);
      m := Apply(m, RegisterRequest(goal, request, now, order));
      if goal !in goals || !goals[goal].committed {
        return Success(UnknownGoal), order;
      }
      if Terminal(goals[goal].state) {
        return Success(AlreadyTerminal), order;
      }
      var left := goals.Keys;
      while left != {}
        invariant left <= goals.Keys && forall g :: g in goals && g !in left ==> request !in goals[g].pending
        decreases |left|
      {
        var g: Goal :| g in left;
        left := left - {g};
        if request in goals[g].pending {
          assert Associated(p, request);
          return Failure(AlreadyExists), order;
        }
      }
      assert !Associated(p, request);
      goals := goals[goal := goals[goal].(pending := goals[goal].pending + [request])];
      r := Success(NowPending);
    }

    method RemoveResultRequest(request: Request)
      requires Valid()
      modifies this
      ensures Valid() && m == Apply(old(m), RemoveRequest(request))
      ensures forall g :: g in goals ==> request !in goals[g].pending
    {
      hide Inv;
      StepKeepsInvariant(m, RemoveRequest(request));
      ghost var before := goals;
      var left := goals.Keys;
      while left != {}
        invariant left <= before.Keys && goals.Keys == before.Keys && m == old(m) && queue == old(queue)
        invariant forall g :: g in left ==> goals[g] == before[g]
        invariant forall g :: g in before && g !in left ==>
          goals[g] == before[g].(pending := Dropped(before[g].pending, request))
        decreases |left|
      {
        var g: Goal :| g in left;
        left := left - {g};
        goals := goals[g := goals[g].(pending := Dropped(goals[g].pending, request))];
      }
      m := Apply(m, RemoveRequest(request));
      assert goals == m.goals;
      forall g | g in goals ensures request !in goals[g].pending {
        DroppedFacts(before[g].pending, request);
      }
    }

    method TakePendingRequests(goal: Goal) returns (r: Result<seq<Request>>)
      requires Valid()
      modifies this
      ensures Valid() && m == Apply(old(m), TakeRequests(goal))
      ensures r == if Live(old(m), goal) then Success(old(goals)[goal].pending) else Failure(NotFound)
      ensures r.Success? ==> goals[goal].pending == []
    {
      hide Inv;
      StepKeepsInvariant(m, TakeRequests(goal));
      m := Apply(m, TakeRequests(goal));
      if goal !in goals || !goals[goal].committed {
        return Failure(NotFound);
      }
      r := Success(goals[goal].pending);
      goals := goals[goal := goals[goal].(pending := [])];
    }
  }
}
