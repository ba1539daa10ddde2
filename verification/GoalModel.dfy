/** The goal registry of an action server: reservations, the goal state machine, pending
    result requests and the expiry of results. */
module GoalModel {
  import opened Common

  const MAX_TIME: int := 0x7FFF_FFFF_FFFF_FFFF

  type Goal = nat
  type Request = nat
  type Acceptor = nat

  datatype GoalState = Unknown | Accepted | Executing | Canceling | Succeeded | Canceled | Aborted

  datatype GoalEvent = Execute | CancelGoal | Succeed | Abort | Cancel

  datatype Mode = Deferred | Immediate

  datatype Record = Record(stamp: int, state: GoalState, committed: bool, scheduled: bool, terminalTime: int,
                           pending: seq<Request>)

  /** `acceptors` are the `accept_goal` calls between reservation and outcome; `commits` and
      `delivered` count, per goal, commits and expiry notifications handed out. */
  datatype State = State(goals: map<Goal, Record>, queue: seq<Goal>, timeout: nat, clock: int,
                         acceptors: map<Acceptor, Goal>, commits: multiset<Goal>, delivered: multiset<Goal>)

  /** `order` is the order in which the hash table yields the goals it prunes. */
  datatype Event =
    | Reserve(a: Acceptor, goal: Goal)
    | Commit(a: Acceptor, stamp: int, mode: Mode)
    | Rollback(a: Acceptor)
    | Update(goal: Goal, event: GoalEvent, now: int)
    | RegisterRequest(goal: Goal, request: Request, now: int, order: seq<Goal>)
    | RemoveRequest(request: Request)
    | TakeRequests(goal: Goal)
    | Snapshot(now: int, order: seq<Goal>)
    | TakeExpired(now: int, order: seq<Goal>)

  /** The constructor: a negative result timeout counts as zero. */
  function Initial(timeout: int): State {
    State(map[], [], if timeout < 0 then 0 else timeout, 0, map[], multiset{}, multiset{})
  }

  // --------------------------------------------------------- goal state machine

  predicate Terminal(s: GoalState) {
    s == Succeeded || s == Canceled || s == Aborted
  }

  /** `next_goal_state`. */
  function Next(s: GoalState, e: GoalEvent): Option<GoalState> {
    match s
    case Accepted => if e == Execute then Some(Executing) else if e == CancelGoal then Some(Canceling) else None
    case Executing =>
      if e == CancelGoal then Some(Canceling)
      else if e == Succeed then Some(Succeeded)
      else if e == Abort then Some(Aborted)
      else None
    case Canceling =>
      if e == Succeed then Some(Succeeded)
      else if e == Abort then Some(Aborted)
      else if e == Cancel then Some(Canceled)
      else None
    case _ => None
  }

  /** How far a goal has come. */
  function Rank(s: GoalState): nat {
    match s
    case Unknown => 0
    case Accepted => 1
    case Executing => 2
    case Canceling => 3
    case _ => 4
  }

  /** Every transition moves forward, so a goal makes at most three of them; it can stop only
      in a terminal state and leaves no terminal state; Canceled needs a cancel request first. */
  lemma GoalsMoveForward(s: GoalState, e: GoalEvent)
    ensures Next(s, e).Some? ==> Rank(s) < Rank(Next(s, e).value)
    ensures Terminal(s) || s == Unknown <==> forall f :: Next(s, f) == None
    ensures Next(s, e) == Some(Canceled) ==> s == Canceling
  {
    if s == Accepted {
      assert Next(s, Execute).Some?;
    } else if s == Executing || s == Canceling {
      assert Next(s, Abort).Some?;
    }
  }

  // ---------------------------------------------------------------- expiry times

  /** `saturating_steady_add`. */
  function SaturatingAdd(base: int, duration: int): int {
    if duration <= 0 then base
    else if duration >= MAX_TIME - base then MAX_TIME
    else base + duration
  }

  lemma SaturatingAddIsMin(base: int, duration: int)
    requires base <= MAX_TIME && duration >= 0
    ensures SaturatingAdd(base, duration) == if base + duration <= MAX_TIME then base + duration else MAX_TIME
  {
  }

  /** `expired_locked` for a committed record. */
  predicate Expired(r: Record, timeout: nat, now: int) {
    r.committed && r.scheduled && now - r.terminalTime >= timeout
  }

  function ExpiredGoals(goals: map<Goal, Record>, timeout: nat, now: int): set<Goal> {
    set g | g in goals && Expired(goals[g], timeout, now)
  }

  /** `order` lists exactly the expired goals. */
  ghost predicate IsPruning(s: State, now: int, order: seq<Goal>) {
    Distinct(order) && forall g :: g in order <==> g in ExpiredGoals(s.goals, s.timeout, now)
  }

  /** `prune_expired_locked`. */
  function Pruned(s: State, now: int, order: seq<Goal>): State {
    s.(clock := now, goals := s.goals - ExpiredGoals(s.goals, s.timeout, now), queue := s.queue + order)
  }

  // ---------------------------------------------------------------------- steps

  ghost predicate Enabled(s: State, e: Event) {
    match e
    case Reserve(a, _) => a !in s.acceptors
    case Commit(a, _, _) => a in s.acceptors
    case Rollback(a) => a in s.acceptors
    case Update(_, _, now) => s.clock <= now <= MAX_TIME
    case RegisterRequest(_, _, now, order) => s.clock <= now <= MAX_TIME && IsPruning(s, now, order)
    case Snapshot(now, order) => s.clock <= now <= MAX_TIME && IsPruning(s, now, order)
    case TakeExpired(now, order) => s.clock <= now <= MAX_TIME && IsPruning(s, now, order)
    case _ => true
  }

  predicate Live(s: State, g: Goal) {
    g in s.goals && s.goals[g].committed
  }

  /** The goal that already waits for a result under this request, if any. */
  predicate Associated(s: State, q: Request) {
    exists g :: g in s.goals && q in s.goals[g].pending
  }

  function Fresh(): Record {
    Record(0, Unknown, false, false, 0, [])
  }

  /** `commit`: refused for a missing or committed goal. */
  function CommitOk(s: State, g: Goal): bool {
    g in s.goals && !s.goals[g].committed
  }

  function Committed(s: State, a: Acceptor, stamp: int, mode: Mode): State
    requires a in s.acceptors
  {
    var g := s.acceptors[a];
    var t := s.(acceptors := s.acceptors - {a});
    if !CommitOk(s, g) then t
    else
      var state := if mode == Immediate then Executing else Accepted;
      t.(goals := s.goals[g := Record(stamp, state, true, false, s.goals[g].terminalTime, [])],
         commits := s.commits + multiset{g})
  }

  /** `update_state`. */
  function Updated(s: State, g: Goal, e: GoalEvent, now: int): Result<State> {
    if !Live(s, g) then Failure(NotFound)
    else
      var r := s.goals[g];
      if Terminal(r.state) || Next(r.state, e) == None then Failure(InvalidState)
      else
        var to := Next(r.state, e).value;
        Success(s.(clock := now,
                   goals := s.goals[g := if Terminal(to) then r.(state := to, terminalTime := now, scheduled := true)
                                         else r.(state := to)]))
  }

  datatype Disposition = UnknownGoal | AlreadyTerminal | NowPending

  /** `register_result_request` after pruning. */
  function Registered(s: State, g: Goal, q: Request): Result<(Disposition, State)> {
    if !Live(s, g) then Success((UnknownGoal, s))
    else if Terminal(s.goals[g].state) then Success((AlreadyTerminal, s))
    else if Associated(s, q) then Failure(AlreadyExists)
    else Success((NowPending, s.(goals := s.goals[g := s.goals[g].(pending := s.goals[g].pending + [q])])))
  }

  /** All occurrences of `q` taken out. */
  function Dropped(pending: seq<Request>, q: Request): seq<Request> {
    if pending == [] then []
    else (if pending[0] == q then [] else [pending[0]]) + Dropped(pending[1..], q)
  }

  /** `remove_result_request`. */
  function Unregistered(s: State, q: Request): State {
    s.(goals := map g | g in s.goals :: s.goals[g].(pending := Dropped(s.goals[g].pending, q)))
  }

  ghost function Apply(s: State, e: Event): State
    requires Enabled(s, e)
  {
    match e
    case Reserve(a, g) =>
      if g in s.goals then s else s.(goals := s.goals[g := Fresh()], acceptors := s.acceptors[a := g])
    case Commit(a, stamp, mode) => Committed(s, a, stamp, mode)
    case Rollback(a) =>
      var g := s.acceptors[a];
      s.(acceptors := s.acceptors - {a}, goals := if CommitOk(s, g) then s.goals - {g} else s.goals)
    case Update(g, event, now) =>
      var r := Updated(s, g, event, now);
      if r.Success? then r.value else s.(clock := now)
    case RegisterRequest(g, q, now, order) =>
      var p := Pruned(s, now, order);
      var r := Registered(p, g, q);
      if r.Success? then r.value.1 else p
    case RemoveRequest(q) => Unregistered(s, q)
    case TakeRequests(g) => if Live(s, g) then s.(goals := s.goals[g := s.goals[g].(pending := [])]) else s
    case Snapshot(now, order) => Pruned(s, now, order)
    case TakeExpired(now, order) =>
      var p := Pruned(s, now, order);
      p.(queue := [], delivered := p.delivered + multiset(p.queue))
  }

  ghost predicate IsRun(states: seq<State>, events: seq<Event>, timeout: int) {
    && |states| == |events| + 1
    && states[0] == Initial(timeout)
    && (forall k {:trigger events[k]} :: 0 <= k < |events| ==>
          Enabled(states[k], events[k]) && states[k + 1] == Apply(states[k], events[k]))
  }
}
