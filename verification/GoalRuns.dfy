/** What holds along every run of the goal registry. */
module GoalRuns {
  import opened Common
  import opened GoalModel

  /** Commits are balanced by notifications delivered, notifications queued, and the goal
      still being committed. */
  ghost predicate BalanceOk(s: State) {
    forall g :: s.commits[g] == s.delivered[g] + multiset(s.queue)[g] + (if Live(s, g) then 1 else 0)
  }

  /** Each call of `accept_goal` in progress owns an uncommitted entry of its own. */
  ghost predicate ReservedOk(s: State) {
    && (forall a :: a in s.acceptors ==> s.acceptors[a] in s.goals && s.goals[s.acceptors[a]] == Fresh())
    && (forall a, b :: a in s.acceptors && b in s.acceptors && a != b ==> s.acceptors[a] != s.acceptors[b])
    && (forall g :: g in s.goals && !s.goals[g].committed ==> exists a :: a in s.acceptors && s.acceptors[a] == g)
  }

  /** Expiry is scheduled exactly for terminal goals, with a time that has passed. */
  ghost predicate ScheduleOk(s: State) {
    forall g :: g in s.goals ==>
      && (s.goals[g].scheduled <==> Terminal(s.goals[g].state))
      && (s.goals[g].scheduled ==> s.goals[g].committed && s.goals[g].terminalTime <= s.clock)
      && (s.goals[g].committed <==> s.goals[g].state != Unknown)
  }

  /** A request waits for at most one goal, and once. */
  ghost predicate RequestsOk(s: State) {
    && (forall g :: g in s.goals ==> Distinct(s.goals[g].pending))
    && (forall g, h, q :: g in s.goals && h in s.goals && q in s.goals[g].pending && q in s.goals[h].pending ==> g == h)
  }

  ghost predicate Inv(s: State) {
    BalanceOk(s) && ReservedOk(s) && ScheduleOk(s) && RequestsOk(s) && s.clock <= MAX_TIME
  }

  lemma {:induction false} OrderCounts(order: seq<Goal>, g: Goal)
    requires Distinct(order)
    ensures multiset(order)[g] == if g in order then 1 else 0
  {
    if order != [] {
      assert order == [order[0]] + order[1..];
      OrderCounts(order[1..], g);
    }
  }

  lemma PrunedBalance(s: State, now: int, order: seq<Goal>)
    requires BalanceOk(s) && IsPruning(s, now, order)
    ensures BalanceOk(Pruned(s, now, order))
  {
    var t := Pruned(s, now, order);
    forall g ensures t.commits[g] == t.delivered[g] + multiset(t.queue)[g] + (if Live(t, g) then 1 else 0) {
      OrderCounts(order, g);
      assert g in order <==> g in ExpiredGoals(s.goals, s.timeout, now);
    }
  }

  lemma BalanceFrame(s: State, t: State)
    requires BalanceOk(s) && t.commits == s.commits && t.delivered == s.delivered && t.queue == s.queue
    requires forall g :: Live(t, g) <==> Live(s, g)
    ensures BalanceOk(t)
  {
  }

  lemma TakenBalance(s: State)
    requires BalanceOk(s)
    ensures BalanceOk(s.(queue := [], delivered := s.delivered + multiset(s.queue)))
  {
  }

  lemma BalanceKept(s: State, e: Event)
    requires BalanceOk(s) && ReservedOk(s) && Enabled(s, e) && (e.Reserve? || e.Commit? || e.Rollback?)
    ensures BalanceOk(Apply(s, e))
  {
  }

  lemma RegisterBalance(s: State, g: Goal, q: Request, now: int, order: seq<Goal>)
    requires BalanceOk(s) && Enabled(s, RegisterRequest(g, q, now, order))
    ensures BalanceOk(Apply(s, RegisterRequest(g, q, now, order)))
  {
    hide BalanceOk, IsPruning, ExpiredGoals, Associated, Terminal;
    PrunedBalance(s, now, order);
    BalanceFrame(Pruned(s, now, order), Apply(s, RegisterRequest(g, q, now, order)));
  }

  lemma BalanceUnaffected(s: State, e: Event)
    requires BalanceOk(s) && Enabled(s, e) && !(e.Reserve? || e.Commit? || e.Rollback?)
    ensures BalanceOk(Apply(s, e))
  {
    hide BalanceOk;
    match e
    case RegisterRequest(g, q, now, order) => RegisterBalance(s, g, q, now, order);
    case Snapshot(now, order) => PrunedBalance(s, now, order);
    case TakeExpired(now, order) =>
      PrunedBalance(s, now, order);
      TakenBalance(Pruned(s, now, order));
    case Update(g, event, now) => BalanceFrame(s, Apply(s, e));
    case RemoveRequest(q) => BalanceFrame(s, Apply(s, e));
    case TakeRequests(g) => BalanceFrame(s, Apply(s, e));
    case Reserve(_, _) =>
    case Commit(_, _, _) =>
    case Rollback(_) =>
  }

  /** Who had an entry of his own keeps it until his own commit or rollback. */
  lemma ReservationStays(s: State, e: Event, a: Acceptor)
    requires ReservedOk(s) && ScheduleOk(s) && Enabled(s, e) && a in s.acceptors
    requires !((e.Commit? || e.Rollback?) && e.a == a)
    ensures var t := Apply(s, e);
      && a in t.acceptors && t.acceptors[a] == s.acceptors[a]
      && s.acceptors[a] in t.goals && t.goals[s.acceptors[a]] == Fresh()
  {
    hide IsPruning, Associated, Distinct;
  }

  lemma ReservedKept(s: State, e: Event)
    requires ReservedOk(s) && ScheduleOk(s) && Enabled(s, e)
    ensures ReservedOk(Apply(s, e))
  {
    var t := Apply(s, e);
    forall a | a in s.acceptors && !((e.Commit? || e.Rollback?) && e.a == a)
      ensures a in t.acceptors && t.acceptors[a] == s.acceptors[a] && s.acceptors[a] in t.goals
        && t.goals[s.acceptors[a]] == Fresh()
    {
      hide ReservedOk, ScheduleOk, Apply, Enabled;
      ReservationStays(s, e, a);
    }
    OwnersKept(s, e);
  }

  lemma OwnersKept(s: State, e: Event)
    requires ReservedOk(s) && Enabled(s, e)
    ensures var t := Apply(s, e);
      && (forall a :: a in t.acceptors ==>
            (a in s.acceptors && t.acceptors[a] == s.acceptors[a]) || (e.Reserve? && a == e.a && e.goal !in s.goals))
      && forall g :: g in t.goals && !t.goals[g].committed ==> exists a :: a in t.acceptors && t.acceptors[a] == g
  {
    var t := Apply(s, e);
    forall g | g in t.goals && !t.goals[g].committed ensures exists a :: a in t.acceptors && t.acceptors[a] == g {
      if g in s.goals && !s.goals[g].committed {
        var a :| a in s.acceptors && s.acceptors[a] == g;
        assert a in t.acceptors;
      } else {
        assert t.acceptors[e.a] == g;
      }
    }
  }

  lemma UpdateSchedules(s: State, g: Goal, event: GoalEvent, now: int)
    requires ScheduleOk(s) && Enabled(s, Update(g, event, now))
    ensures ScheduleOk(Apply(s, Update(g, event, now)))
  {
  }

  lemma RegisterSchedules(s: State, g: Goal, q: Request, now: int, order: seq<Goal>)
    requires ScheduleOk(s) && Enabled(s, RegisterRequest(g, q, now, order))
    ensures ScheduleOk(Apply(s, RegisterRequest(g, q, now, order)))
  {
    hide IsPruning, Associated;
  }

  lemma PruningSchedules(s: State, e: Event)
    requires ScheduleOk(s) && Enabled(s, e) && (e.Snapshot? || e.TakeExpired?)
    ensures ScheduleOk(Apply(s, e))
  {
    hide IsPruning;
  }

  lemma ScheduleKept(s: State, e: Event)
    requires ScheduleOk(s) && Enabled(s, e)
    ensures ScheduleOk(Apply(s, e))
  {
    hide Updated, Registered, Pruned, IsPruning, Dropped;
    match e
    case Update(g, event, now) => UpdateSchedules(s, g, event, now);
    case RegisterRequest(g, q, now, order) => RegisterSchedules(s, g, q, now, order);
    case Snapshot(_, _) => PruningSchedules(s, e);
    case TakeExpired(_, _) => PruningSchedules(s, e);
    case _ =>
  }

  lemma {:induction false} DroppedFacts(pending: seq<Request>, q: Request)
    ensures forall x :: x in Dropped(pending, q) <==> x in pending && x != q
    ensures Distinct(pending) ==> Distinct(Dropped(pending, q))
  {
    if pending != [] {
      DroppedFacts(pending[1..], q);
      assert pending == [pending[0]] + pending[1..];
      if Distinct(pending) {
        assert pending[0] !in pending[1..];
        FirstApart(pending[0], Dropped(pending[1..], q));
      }
    }
  }

  lemma FirstApart(x: Request, rest: seq<Request>)
    requires Distinct(rest) && x !in rest
    ensures Distinct([x] + rest)
  {
    assert forall i :: 0 <= i < |rest| ==> rest[i] in rest;
  }

  lemma RequestsKept(s: State, e: Event)
    requires RequestsOk(s) && ReservedOk(s) && Enabled(s, e)
    ensures RequestsOk(Apply(s, e))
  {
    if e.RemoveRequest? {
      forall g | g in s.goals ensures Distinct(Dropped(s.goals[g].pending, e.request)) {
        DroppedFacts(s.goals[g].pending, e.request);
      }
      forall g, x | g in s.goals ensures x in Dropped(s.goals[g].pending, e.request) ==> x in s.goals[g].pending {
        DroppedFacts(s.goals[g].pending, e.request);
      }
    }
  }

  lemma StepKeepsInvariant(s: State, e: Event)
    requires Inv(s) && Enabled(s, e)
    ensures Inv(Apply(s, e))
  {
    hide BalanceOk, ReservedOk, ScheduleOk, RequestsOk;
    if e.Reserve? || e.Commit? || e.Rollback? {
      BalanceKept(s, e);
    } else {
      BalanceUnaffected(s, e);
    }
    ReservedKept(s, e);
    ScheduleKept(s, e);
    RequestsKept(s, e);
  }

  lemma InitialInv(timeout: int)
    ensures Inv(Initial(timeout))
  {
  }

  lemma {:induction false} RunKeepsInvariant(states: seq<State>, events: seq<Event>, timeout: int, k: nat)
    requires IsRun(states, events, timeout) && k < |states|
    ensures Inv(states[k])
  {
    hide Inv, Apply, Enabled;
    if k == 0 {
      InitialInv(timeout);
    } else {
      RunKeepsInvariant(states, events, timeout, k - 1);
      assert Enabled(states[k - 1], events[k - 1]) && states[k] == Apply(states[k - 1], events[k - 1]);
      StepKeepsInvariant(states[k - 1], events[k - 1]);
    }
  }

  // --------------------------------------------------------------- main theorems

  /** For every goal the commits equal the expiry notifications delivered, plus those queued,
      plus one if the goal is still committed. */
  lemma NotificationsBalanceCommits(states: seq<State>, events: seq<Event>, timeout: int, k: nat, g: Goal)
    requires IsRun(states, events, timeout) && k < |states|
    ensures var s := states[k]; s.commits[g] == s.delivered[g] + multiset(s.queue)[g] + (if Live(s, g) then 1 else 0)
  {
    RunKeepsInvariant(states, events, timeout, k);
  }

  lemma TerminalEffect(s: State, e: Event, g: Goal)
    requires ReservedOk(s) && Enabled(s, e) && Live(s, g) && Terminal(s.goals[g].state)
    ensures var t := Apply(s, e);
      && t.commits[g] == s.commits[g]
      && if g in t.goals then
           && t.goals[g].committed && t.goals[g].state == s.goals[g].state
           && t.goals[g].terminalTime == s.goals[g].terminalTime
         else Expired(s.goals[g], s.timeout, t.clock)
  {
    assert forall a :: a in s.acceptors ==> s.acceptors[a] != g;
    hide ReservedOk, IsPruning, Associated, Distinct;
  }

  lemma BalanceAt(s: State, g: Goal)
    requires Inv(s)
    ensures s.commits[g] == s.delivered[g] + multiset(s.queue)[g] + (if Live(s, g) then 1 else 0)
  {
    hide ReservedOk, ScheduleOk, RequestsOk;
  }

  /** A terminal state is never left: a terminal goal keeps its state until it expires, and it
      goes only with a notification for it. */
  lemma TerminalIsFinal(s: State, e: Event, g: Goal)
    requires Inv(s) && Enabled(s, e) && Live(s, g) && Terminal(s.goals[g].state)
    ensures var t := Apply(s, e);
      if g in t.goals then t.goals[g].state == s.goals[g].state && t.goals[g].terminalTime == s.goals[g].terminalTime
      else && Expired(s.goals[g], s.timeout, t.clock)
           && multiset(t.queue)[g] + t.delivered[g] == multiset(s.queue)[g] + s.delivered[g] + 1
  {
    hide BalanceOk, ReservedOk, ScheduleOk, RequestsOk, Apply, Enabled;
    StepKeepsInvariant(s, e);
    TerminalEffect(s, e, g);
    BalanceAt(s, g);
    BalanceAt(Apply(s, e), g);
  }

  /** Between reservation and outcome nobody else commits or removes the entry, so the commit
      of `accept_goal` cannot be refused: its ProtocolFault branch is unreachable. */
  lemma ReservationIsNeverLost(states: seq<State>, events: seq<Event>, timeout: int, k: nat, a: Acceptor)
    requires IsRun(states, events, timeout) && k < |states| && a in states[k].acceptors
    ensures CommitOk(states[k], states[k].acceptors[a])
  {
    RunKeepsInvariant(states, events, timeout, k);
  }

  /** When the response cannot be written the reservation goes without a trace: the goal is
      unknown again, as it was when it was reserved, and nothing else changed. */
  lemma FailedWriteLeavesNoTrace(states: seq<State>, events: seq<Event>, timeout: int, k: nat, a: Acceptor)
    requires IsRun(states, events, timeout) && k < |states| && a in states[k].acceptors
    ensures var s := states[k];
      var t := Apply(s, Rollback(a));
      && t.goals == s.goals - {s.acceptors[a]} && t.queue == s.queue && t.commits == s.commits
      && t.delivered == s.delivered
      && forall b :: b in t.acceptors ==> t.acceptors[b] != s.acceptors[a]
  {
    RunKeepsInvariant(states, events, timeout, k);
    hide BalanceOk, ScheduleOk, RequestsOk, IsRun;
  }

  /** Across all goals each pending request is recorded at most once. */
  lemma RequestsWaitOnce(states: seq<State>, events: seq<Event>, timeout: int, k: nat, g: Goal, h: Goal, i: nat, j: nat)
    requires IsRun(states, events, timeout) && k < |states| && g in states[k].goals && h in states[k].goals
    requires i < |states[k].goals[g].pending| && j < |states[k].goals[h].pending|
    requires states[k].goals[g].pending[i] == states[k].goals[h].pending[j]
    ensures g == h && i == j
  {
    RunKeepsInvariant(states, events, timeout, k);
    assert states[k].goals[g].pending[i] in states[k].goals[g].pending;
    assert states[k].goals[h].pending[j] in states[k].goals[h].pending;
  }

  // ------------------------------------------------------------------- readiness

  /** `expiry_ready`. */
  ghost predicate Ready(s: State, now: int) {
    s.queue != [] || exists g :: g in s.goals && Expired(s.goals[g], s.timeout, now)
  }

  /** Readiness promises exactly a non-empty `take_expired_goals` at the same time. */
  lemma ReadyMeansTakeYields(s: State, now: int, order: seq<Goal>)
    requires Enabled(s, TakeExpired(now, order))
    ensures Ready(s, now) <==> Pruned(s, now, order).queue != []
  {
    if exists g :: g in s.goals && Expired(s.goals[g], s.timeout, now) {
      var g :| g in s.goals && Expired(s.goals[g], s.timeout, now);
      assert g in ExpiredGoals(s.goals, s.timeout, now);
      assert g in order;
    } else if order != [] {
      assert order[0] in order;
    }
  }

  predicate Scheduled(s: State, g: Goal) {
    g in s.goals && s.goals[g].committed && s.goals[g].scheduled
  }

  function Deadline(s: State, g: Goal): int
    requires g in s.goals
  {
    SaturatingAdd(s.goals[g].terminalTime, s.timeout)
  }

  /** `earliest_expiry` reports `d`. */
  ghost predicate IsEarliest(s: State, d: Option<int>) {
    if d.None? then forall g :: !Scheduled(s, g)
    else
      && (exists g :: Scheduled(s, g) && Deadline(s, g) == d.value)
      && (forall g :: Scheduled(s, g) ==> d.value <= Deadline(s, g))
  }

  /** Some result would expire at or before the end of the clock. */
  ghost predicate FitsTheClock(s: State) {
    exists g :: Scheduled(s, g) && s.goals[g].terminalTime + s.timeout <= MAX_TIME
  }

  /** The result of the goal is due at `now`. */
  predicate Overdue(s: State, g: Goal, now: int) {
    Scheduled(s, g) && s.goals[g].terminalTime + s.timeout <= now
  }

  lemma ReadyMeansOverdue(s: State, now: int)
    requires s.queue == []
    ensures Ready(s, now) <==> exists g :: Overdue(s, g, now)
  {
    if Ready(s, now) {
      var h :| h in s.goals && Expired(s.goals[h], s.timeout, now);
      assert Overdue(s, h, now);
    }
    if g :| Overdue(s, g, now) {
      assert Expired(s.goals[g], s.timeout, now);
    }
  }

  /** With no queued notification the registry is ready exactly when the earliest deadline has
      been reached; the one exception is a clock at its maximum while every deadline was cut
      off there. */
  lemma ReadyExactlyAtTheDeadline(s: State, d: Option<int>, now: int)
    requires Inv(s) && s.queue == [] && s.clock <= now <= MAX_TIME && IsEarliest(s, d)
    ensures (Ready(s, now) <==> d.Some? && d.value <= now) <==> now < MAX_TIME || d.None? || FitsTheClock(s)
  {
    ReadyMeansOverdue(s, now);
    hide Inv, Ready;
    if d.Some? {
      var g :| Scheduled(s, g) && Deadline(s, g) == d.value;
      assert d.value <= MAX_TIME;
      if now == MAX_TIME {
        assert FitsTheClock(s) <==> exists h :: Overdue(s, h, now);
      } else {
        if h :| Overdue(s, h, now) {
          assert d.value <= Deadline(s, h) <= now;
        }
        if d.value <= now {
          assert Overdue(s, g, now);
        }
      }
    }
  }

  /** The exception does occur: a result kept for ever, and the clock at its maximum. */
  lemma EndOfTimeIsNotReady() returns (states: seq<State>, events: seq<Event>)
    ensures IsRun(states, events, MAX_TIME)
    ensures var s := states[|events|];
      s.queue == [] && s.clock <= MAX_TIME && IsEarliest(s, Some(MAX_TIME)) && !Ready(s, MAX_TIME)
  {
    events := [Event.Reserve(0, 7), Commit(0, 0, Immediate), Update(7, Succeed, 1)];
    var s0 := Initial(MAX_TIME);
    var s1 := Apply(s0, events[0]);
    var s2 := Apply(s1, events[1]);
    var s := Apply(s2, events[2]);
    states := [s0, s1, s2, s];
    assert s.goals == map[7 := Record(0, Succeeded, true, true, 1, [])];
    assert Scheduled(s, 7) && Deadline(s, 7) == MAX_TIME;
  }
}
