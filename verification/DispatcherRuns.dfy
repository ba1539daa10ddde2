/** Whole runs of the dispatcher: safety of every interleaving and the life of a ticket. */
module DispatcherRuns {
  import opened Common
  import opened DispatcherModel
  import opened DispatcherInvariant
  import opened DispatcherCounts
  import opened DispatcherHistory

  // ------------------------------------------------------ one step, every run

  lemma StructureKept(s: State, e: Event)
    requires Structure(s) && Counts(s) && Enabled(s, e)
    ensures Structure(Apply(s, e))
  {
    hide Structure, Counts, Enabled, Apply;
    match e
    case OpenRoute => StructureOpenRoute(s);
    case StopRoute(p) => StructureStopRoute(s, p);
    case RetireRoute(p) => StructureRetireRoute(s, p);
    case Reserve(p, record, control) => StructureReserve(s, p, record, control);
    case Install(i, job) => StructureInstall(s, i, job);
    case Enqueue(i) => StructureEnqueue(s, i);
    case Cancel(i) => StructureCancel(s, i);
    case Abandon(i) => StructureAbandon(s, i);
    case Promote(i, now) => StructurePromote(s, i, now);
    case Start => StructureStart(s);
    case Execute(result) => StructureExecute(s, result);
    case Retry(now) => StructureRetry(s, now);
    case Park(now) => StructurePark(s, now);
    case Complete => StructureComplete(s);
    case Append => StructureAppend(s);
    case Acknowledge(p) => StructureAcknowledge(s, p);
    case BeginStop => StructureBeginStop(s);
    case Exit => StructureExit(s);
  }

  lemma HistoriesSteady(s: State, e: Event)
    requires Inv(s) && Enabled(s, e) && RingsOk(Apply(s, e))
    requires e.Install? || e.Promote?
    ensures Histories(Apply(s, e))
  {
    hide TicketsDistinct, ListsOk, PortsOk, FreedOk, MailboxesOk, ProgressOk, OwnersOk;
    SteadyHistory(s, Apply(s, e), e.slot);
  }

  lemma HistoriesWorker(s: State, e: Event)
    requires Inv(s) && Enabled(s, e) && RingsOk(Apply(s, e))
    requires e.Execute? || e.Retry? || e.Park? || e.Complete?
    ensures Histories(Apply(s, e))
  {
    hide TicketsDistinct, ListsOk, PortsOk, FreedOk, MailboxesOk, ProgressOk, OwnersOk;
    SteadyHistory(s, Apply(s, e), s.worker.index);
  }

  lemma HistoriesStart(s: State)
    requires Inv(s) && Enabled(s, Start) && RingsOk(Apply(s, Start))
    ensures Histories(Apply(s, Start))
  {
    hide TicketsDistinct, PortsOk, FreedOk, MailboxesOk, ProgressOk, OwnersOk;
    SteadyHistory(s, Apply(s, Start), NextReady(s));
  }

  lemma HistoriesRoute(s: State, e: Event)
    requires Inv(s) && Enabled(s, e) && RingsOk(Apply(s, e))
    requires e.OpenRoute? || e.StopRoute? || e.RetireRoute? || e.BeginStop? || e.Exit?
    ensures Histories(Apply(s, e))
  {
    hide TicketsDistinct, ListsOk, FreedOk, MailboxesOk, ProgressOk, OwnersOk;
    if e.RetireRoute? {
      MailboxIsOutstanding(s, e.port);
    }
    RouteHistory(s, Apply(s, e));
  }

  lemma HistoriesKept(s: State, e: Event)
    requires Inv(s) && Enabled(s, e) && Structure(Apply(s, e))
    ensures Histories(Apply(s, e))
  {
    hide SlotsOk, TicketsDistinct, ListsOk, WorkerOk, PortsOk, OwnersOk, FreedOk, MailboxesOk, ProgressOk, Counts;
    match e
    case Reserve(p, record, control) => ReserveHistory(s, p, record, control);
    case Enqueue(i) => EnqueueHistory(s, i);
    case Cancel(i) => CancelHistory(s, i);
    case Abandon(i) => AbandonHistory(s, i);
    case Append => AppendHistory(s);
    case Acknowledge(p) => AcknowledgeHistory(s, p);
    case Install(_, _) => HistoriesSteady(s, e);
    case Promote(_, _) => HistoriesSteady(s, e);
    case Start => HistoriesStart(s);
    case Execute(_) => HistoriesWorker(s, e);
    case Retry(_) => HistoriesWorker(s, e);
    case Park(_) => HistoriesWorker(s, e);
    case Complete => HistoriesWorker(s, e);
    case _ => HistoriesRoute(s, e);
  }

  lemma StepKeepsInvariant(s: State, e: Event)
    requires Inv(s) && Enabled(s, e)
    ensures Inv(Apply(s, e))
  {
    StructureKept(s, e);
    CountsKept(s, e);
    HistoriesKept(s, e);
  }

  lemma InitialInvariant()
    ensures Inv(Initial())
  {
    var s := Initial();
    assert Live(s.slots) == {};
    assert Ordinary(s.slots) == {};
    forall p: nat ensures PublishedOk(s, p) {}
  }

  /** Every reachable state satisfies the invariant. */
  lemma {:induction false} RunKeepsInvariant(states: seq<State>, events: seq<Event>, k: nat)
    requires IsRun(states, events) && k < |states|
    ensures Inv(states[k])
  {
    if k == 0 {
      InitialInvariant();
    } else {
      RunKeepsInvariant(states, events, k - 1);
      assert Enabled(states[k - 1], events[k - 1]);
      StepKeepsInvariant(states[k - 1], events[k - 1]);
    }
  }

  // ------------------------------------------------------------ one place each

  datatype Place = InControl | InUser | Delayed | InHand | BetweenLocks | InMailbox | Acknowledged

  /** `t` is at `place` in `s`. */
  ghost predicate IsAt(s: State, t: nat, place: Place) {
    match place
    case InControl => exists k :: 0 <= k < |s.control| && s.control[k] < |s.slots| && s.slots[s.control[k]].ticket == t
    case InUser => exists k :: 0 <= k < |s.user| && s.user[k] < |s.slots| && s.slots[s.user[k]].ticket == t
    case Delayed => exists i :: 0 <= i < |s.slots| && s.slots[i].state == RetryWaiting && s.slots[i].ticket == t
    case InHand => s.worker.Holding? && s.worker.index < |s.slots| && s.slots[s.worker.index].ticket == t
    case BetweenLocks => s.worker.Publishing? && s.worker.index < |s.slots| && s.slots[s.worker.index].ticket == t
    case InMailbox =>
      exists p, k :: p in s.ports && 0 <= k < |s.ports[p].ring| && s.ports[p].ring[k] < |s.slots|
                     && s.slots[s.ports[p].ring[k]].ticket == t
    case Acknowledged => t in s.history.owner && t in At(s.history.acknowledged, s.history.owner[t])
  }

  /** The state of the slot a live ticket sits in decides where the ticket is. */
  ghost predicate PlaceOf(state: SlotState, publishing: bool, priority: bool, place: Place) {
    match place
    case InControl => state == Queued && priority
    case InUser => state == Queued && !priority
    case Delayed => state == RetryWaiting
    case InHand => state == Running
    case BetweenLocks => state == Completed && publishing
    case InMailbox => state == Completed && !publishing
    case Acknowledged => false
  }

  lemma LivePlace(s: State, i: nat, place: Place)
    requires Inv(s) && i < |s.slots| && s.slots[i].state != Free && !place.Acknowledged? && !place.InMailbox?
    ensures IsAt(s, s.slots[i].ticket, place) <==>
            PlaceOf(s.slots[i].state, s.worker == Publishing(i), s.slots[i].priority, place)
  {
    if s.slots[i].state == Queued {
      var list := ReadyList(s, s.slots[i].priority);
      var k :| 0 <= k < |list| && list[k] == i;
    }
  }

  lemma LiveMailbox(s: State, i: nat)
    requires Inv(s) && i < |s.slots| && s.slots[i].state != Free
    ensures IsAt(s, s.slots[i].ticket, InMailbox) <==> s.slots[i].state == Completed && s.worker != Publishing(i)
  {
    var t := s.slots[i].ticket;
    if s.slots[i].state == Completed && s.worker != Publishing(i) {
      var ring := s.ports[s.slots[i].port].ring;
      var k :| 0 <= k < |ring| && ring[k] == i;
    }
    if IsAt(s, t, InMailbox) {
      var p, k :| p in s.ports && 0 <= k < |s.ports[p].ring| && s.ports[p].ring[k] < |s.slots|
                  && s.slots[s.ports[p].ring[k]].ticket == t;
      assert RingOk(s.slots, s.ports[p].ring, p, s.worker);
    }
  }

  lemma AcknowledgedIsFreed(s: State, p: nat, t: nat)
    requires Inv(s) && t in At(s.history.acknowledged, p)
    ensures t in s.history.freed
  {
    assert PublishedOk(s, p) by { var mailbox := Ring(s, p); }
  }

  lemma FreedIsNowhere(s: State, t: nat, place: Place)
    requires Inv(s) && t in s.history.freed && !place.Acknowledged?
    ensures !IsAt(s, t, place)
  {
    if place.InMailbox? {
      forall p, k | p in s.ports && 0 <= k < |s.ports[p].ring| && s.ports[p].ring[k] < |s.slots|
        ensures s.slots[s.ports[p].ring[k]].ticket != t
      {
        assert RingOk(s.slots, s.ports[p].ring, p, s.worker);
      }
    }
  }

  function PlaceInLife(state: SlotState, publishing: bool, priority: bool): Place
    requires state != Free && state != Reserved
  {
    match state
    case Queued => if priority then InControl else InUser
    case RetryWaiting => Delayed
    case Running => InHand
    case Completed => if publishing then BetweenLocks else InMailbox
    case _ => Acknowledged
  }

  lemma EnqueuedFacts(s: State, t: nat)
    requires Inv(s) && t in s.history.enqueued
    ensures if t in s.history.freed then IsAt(s, t, Acknowledged)
      else exists i: nat :: Holds(s, i, t) && s.slots[i].state != Reserved
  {
    assert 1 <= t < s.nextTicket;
  }

  lemma LiveIsNotAcknowledged(s: State, t: nat)
    requires Inv(s) && t !in s.history.freed
    ensures !IsAt(s, t, Acknowledged)
  {
    if IsAt(s, t, Acknowledged) {
      AcknowledgedIsFreed(s, s.history.owner[t], t);
    }
  }

  /** Every enqueued ticket is in exactly one place: a ready list, the delayed set, the
      worker's hands, between its two locks, a mailbox, or acknowledged. */
  lemma ExactlyOnePlace(s: State, t: nat) returns (place: Place)
    requires Inv(s) && t in s.history.enqueued
    ensures forall q :: IsAt(s, t, q) <==> q == place
  {
    hide Inv, IsAt;
    EnqueuedFacts(s, t);
    if t in s.history.freed {
      place := Acknowledged;
      forall q: Place ensures IsAt(s, t, q) <==> q == place {
        if !q.Acknowledged? { FreedIsNowhere(s, t, q); }
      }
    } else {
      var i: nat :| Holds(s, i, t) && s.slots[i].state != Reserved;
      place := PlaceInLife(s.slots[i].state, s.worker == Publishing(i), s.slots[i].priority);
      LiveMailbox(s, i);
      LiveIsNotAcknowledged(s, t);
      forall q: Place ensures IsAt(s, t, q) <==> q == place {
        if !q.InMailbox? && !q.Acknowledged? { LivePlace(s, i, q); }
      }
    }
  }

  // ------------------------------------------------ published and freed once

  ghost predicate Starts(s: State, e: Event, t: nat) {
    e == Start && Enabled(s, e) && s.slots[NextReady(s)].ticket == t
  }

  ghost predicate Cancels(s: State, e: Event, t: nat) {
    e.Cancel? && Enabled(s, e) && s.slots[e.slot].ticket == t
  }

  ghost predicate Publishes(s: State, e: Event, t: nat) {
    Cancels(s, e, t) || (e == Append && Enabled(s, e) && s.slots[s.worker.index].ticket == t)
  }

  ghost predicate Frees(s: State, e: Event, t: nat) {
    Enabled(s, e) && ((e.Abandon? && s.slots[e.slot].ticket == t) ||
                      (e.Acknowledge? && s.slots[s.ports[e.port].ring[0]].ticket == t))
  }

  /** Histories only grow at their end. */
  ghost predicate Grown(h: History, h': History) {
    && (forall p :: At(h.published, p) <= At(h'.published, p) && At(h.acknowledged, p) <= At(h'.acknowledged, p))
    && h.freed <= h'.freed && h.cancelled <= h'.cancelled
    && (forall t :: t in h.owner ==> t in h'.owner && h'.owner[t] == h.owner[t])
  }

  lemma StepGrows(s: State, e: Event)
    requires OwnersOk(s) && s.nextTicket >= 1 && Enabled(s, e)
    ensures Grown(s.history, Apply(s, e).history)
  {
    var h, h' := s.history, Apply(s, e).history;
    assert s.nextTicket !in h.owner;
    match e
    case Cancel(i) => GrownByOne(h, h', s.slots[i].port);
    case Append => GrownByOne(h, h', s.slots[s.worker.index].port);
    case Acknowledge(p) => GrownByOne(h, h', p);
    case _ =>
  }

  lemma GrownByOne(h: History, h': History, p: nat)
    requires At(h.published, p) <= At(h'.published, p) && At(h.acknowledged, p) <= At(h'.acknowledged, p)
    requires forall q :: q != p ==>
      At(h'.published, q) == At(h.published, q) && At(h'.acknowledged, q) == At(h.acknowledged, q)
    requires h.freed <= h'.freed && h.cancelled <= h'.cancelled && h'.owner == h.owner
    ensures Grown(h, h')
  {
  }

  lemma GrowsInRun(states: seq<State>, events: seq<Event>, k: nat)
    requires IsRun(states, events) && k < |events|
    ensures Grown(states[k].history, states[k + 1].history)
  {
    hide Grown;
    RunKeepsInvariant(states, events, k);
    assert Enabled(states[k], events[k]) && states[k + 1] == Apply(states[k], events[k]);
    StepGrows(states[k], events[k]);
  }

  lemma {:induction false} RunGrows(states: seq<State>, events: seq<Event>, i: nat, j: nat)
    requires IsRun(states, events) && i <= j < |states|
    ensures Grown(states[i].history, states[j].history)
  {
    if i < j {
      RunGrows(states, events, i, j - 1);
      GrowsInRun(states, events, j - 1);
    }
  }

  /** A published ticket is a Completed one in its mailbox, or already freed. */
  lemma PublishedIsDone(s: State, p: nat, t: nat, i: nat)
    requires Inv(s) && t in At(s.history.published, p) && Holds(s, i, t)
    ensures s.slots[i].state == Completed && s.worker != Publishing(i)
  {
    assert PublishedOk(s, p) by { var mailbox := Ring(s, p); }
    if t in At(s.history.acknowledged, p) {
      AcknowledgedIsFreed(s, p, t);
    } else {
      assert RingOk(s.slots, s.ports[p].ring, p, s.worker);
      var k :| 0 <= k < |Ring(s, p)| && Tickets(s.slots, Ring(s, p))[k] == t;
    }
  }

  lemma PublicationRecorded(s: State, e: Event, t: nat)
    requires Inv(s) && Publishes(s, e, t)
    ensures t in s.history.owner && t in At(Apply(s, e).history.published, s.history.owner[t])
  {
    var i := if e.Cancel? then e.slot else s.worker.index;
    var p := s.slots[i].port;
    assert At(Apply(s, e).history.published, p)[|At(s.history.published, p)|] == t;
  }

  lemma DoneStaysPut(s: State, e: Event, t: nat, p: nat)
    requires Inv(s) && t in At(s.history.published, p)
    ensures !Publishes(s, e, t) && !Starts(s, e, t) && !Cancels(s, e, t)
  {
    hide Counts, Histories, RingsOk, PortsOk, TicketsDistinct;
    forall a: nat | Holds(s, a, t)
      ensures s.slots[a].state == Completed && s.worker != Publishing(a)
    {
      PublishedIsDone(s, p, t, a);
    }
    assert forall a: nat :: a < |s.slots| && s.slots[a].state != Free && s.slots[a].ticket == t ==> Holds(s, a, t);
  }

  lemma PublicationInRun(states: seq<State>, events: seq<Event>, i: nat, t: nat) returns (p: nat)
    requires IsRun(states, events) && i < |events| && Publishes(states[i], events[i], t)
    ensures t in At(states[i + 1].history.published, p)
  {
    RunKeepsInvariant(states, events, i);
    PublicationRecorded(states[i], events[i], t);
    p := states[i].history.owner[t];
    assert states[i + 1] == Apply(states[i], events[i]);
  }

  lemma DoneInRun(states: seq<State>, events: seq<Event>, j: nat, t: nat, p: nat)
    requires IsRun(states, events) && j < |events| && t in At(states[j].history.published, p)
    ensures !Publishes(states[j], events[j], t) && !Starts(states[j], events[j], t) && !Cancels(states[j], events[j], t)
  {
    RunKeepsInvariant(states, events, j);
    DoneStaysPut(states[j], events[j], t, p);
  }

  /** A ticket is published at most once in a run; after that no step starts, cancels or
      publishes it again.  In particular a ticket whose `cancel_queued` returned true never
      runs afterwards. */
  lemma PublishedOnce(states: seq<State>, events: seq<Event>, i: nat, j: nat, t: nat)
    requires IsRun(states, events) && i < j < |events|
    requires Publishes(states[i], events[i], t)
    ensures !Publishes(states[j], events[j], t) && !Starts(states[j], events[j], t) && !Cancels(states[j], events[j], t)
  {
    var p := PublicationInRun(states, events, i, t);
    RunGrows(states, events, i + 1, j);
    DoneInRun(states, events, j, t, p);
  }

  lemma FreedStaysFreed(s: State, e: Event, t: nat)
    requires Inv(s) && t in s.history.freed
    ensures !Frees(s, e, t)
  {
    if e.Acknowledge? && Enabled(s, e) {
      assert RingOk(s.slots, s.ports[e.port].ring, e.port, s.worker);
    }
  }

  lemma FreeInRun(states: seq<State>, events: seq<Event>, i: nat, t: nat)
    requires IsRun(states, events) && i < |events| && Frees(states[i], events[i], t)
    ensures t in states[i + 1].history.freed
  {
    assert states[i + 1] == Apply(states[i], events[i]);
    assert states[i + 1].history.freed[|states[i].history.freed|] == t;
  }

  lemma GoneInRun(states: seq<State>, events: seq<Event>, j: nat, t: nat)
    requires IsRun(states, events) && j < |events| && t in states[j].history.freed
    ensures !Frees(states[j], events[j], t)
  {
    RunKeepsInvariant(states, events, j);
    FreedStaysFreed(states[j], events[j], t);
  }

  /** A ticket gives its slot back at most once in a run. */
  lemma FreedOnce(states: seq<State>, events: seq<Event>, i: nat, j: nat, t: nat)
    requires IsRun(states, events) && i < j < |events|
    requires Frees(states[i], events[i], t)
    ensures !Frees(states[j], events[j], t)
  {
    FreeInRun(states, events, i, t);
    RunGrows(states, events, i + 1, j);
    GoneInRun(states, events, j, t);
  }

  /** Owners acknowledge their completions in publication order, and every completion
      published to a port belongs to that port. */
  lemma AcknowledgedInOrder(s: State, p: nat)
    requires Inv(s)
    ensures At(s.history.acknowledged, p) <= At(s.history.published, p) && Distinct(At(s.history.published, p))
    ensures forall t :: t in At(s.history.published, p) ==> t in s.history.owner && s.history.owner[t] == p
  {
    assert PublishedOk(s, p) by { var mailbox := Ring(s, p); }
  }

  // -------------------------------------------------------------- ready order

  ghost predicate AheadAt(s: State, list: seq<nat>, x: nat, y: nat, a: nat, b: nat) {
    x < y < |list| && list[x] < |s.slots| && list[y] < |s.slots|
    && s.slots[list[x]].ticket == a && s.slots[list[y]].ticket == b
  }

  /** `a` is ahead of `b` in one of the ready lists. */
  ghost predicate Ahead(s: State, priority: bool, a: nat, b: nat) {
    exists x, y :: AheadAt(s, ReadyList(s, priority), x, y, a, b)
  }

  lemma AheadIntro(s: State, priority: bool, x: nat, y: nat, a: nat, b: nat)
    requires AheadAt(s, ReadyList(s, priority), x, y, a, b)
    ensures Ahead(s, priority, a, b)
  {
  }

  lemma RemovedKeepsOrder(list: seq<nat>, i: nat, x: nat, y: nat)
    requires i in list && x < y < |list| && list[x] != i && list[y] != i
    ensures exists x', y' ::
      && 0 <= x' < y' < |Removed(list, i)|
      && Removed(list, i)[x'] == list[x] && Removed(list, i)[y'] == list[y]
  {
    var k := IndexOf(list, i);
    var x', y' := if k < x then x - 1 else x, if k < y then y - 1 else y;
    assert Removed(list, i)[x'] == list[x] && Removed(list, i)[y'] == list[y];
  }

  lemma CancelKeepsOrder(s: State, i: nat, priority: bool, x: nat, y: nat)
    requires Enabled(s, Cancel(i)) && x < y < |ReadyList(s, priority)|
    requires i != ReadyList(s, priority)[x] && i != ReadyList(s, priority)[y]
    ensures var list, list' := ReadyList(s, priority), ReadyList(Apply(s, Cancel(i)), priority);
            exists x', y' :: 0 <= x' < y' < |list'| && list'[x'] == list[x] && list'[y'] == list[y]
  {
    var list, list' := ReadyList(s, priority), ReadyList(Apply(s, Cancel(i)), priority);
    if s.slots[i].priority == priority {
      RemovedKeepsOrder(list, i, x, y);
    } else {
      assert list'[x] == list[x] && list'[y] == list[y];
    }
  }

  lemma StartKeepsOrder(s: State, priority: bool, x: nat, y: nat)
    requires ListsOk(s) && Enabled(s, Start) && x < y < |ReadyList(s, priority)|
    requires NextReady(s) != ReadyList(s, priority)[x]
    ensures NextReady(s) != ReadyList(s, priority)[y]
    ensures var list, list' := ReadyList(s, priority), ReadyList(Apply(s, Start), priority);
            exists x', y' :: 0 <= x' < y' < |list'| && list'[x'] == list[x] && list'[y'] == list[y]
  {
    var list, list' := ReadyList(s, priority), ReadyList(Apply(s, Start), priority);
    var shift := if (s.control != []) == priority then 1 else 0;
    assert list'[x - shift] == list[x] && list'[y - shift] == list[y];
  }

  lemma OthersKeepOrder(s: State, e: Event, priority: bool)
    requires Enabled(s, e) && !e.Cancel? && !e.Start?
    ensures ReadyList(s, priority) <= ReadyList(Apply(s, e), priority)
  {
  }

  /** A step that starts or cancels neither keeps both tickets in the slots they had. */
  lemma StepKeepsTicket(s: State, e: Event, i: nat)
    requires Enabled(s, e) && i < |s.slots| && s.slots[i].state == Queued
    ensures i < |Apply(s, e).slots| && Apply(s, e).slots[i].ticket == s.slots[i].ticket
  {
  }

  lemma StepKeepsOrder(s: State, e: Event, priority: bool, a: nat, b: nat)
    requires ListsOk(s) && Enabled(s, e) && Ahead(s, priority, a, b)
    requires !Starts(s, e, a) && !Cancels(s, e, a) && !Cancels(s, e, b)
    ensures Ahead(Apply(s, e), priority, a, b)
  {
    var list := ReadyList(s, priority);
    var x: nat, y: nat :| AheadAt(s, list, x, y, a, b);
    var t := Apply(s, e);
    var list' := ReadyList(t, priority);
    StepKeepsTicket(s, e, list[x]);
    StepKeepsTicket(s, e, list[y]);
    if e.Cancel? {
      CancelKeepsOrder(s, e.slot, priority, x, y);
    } else if e.Start? {
      StartKeepsOrder(s, priority, x, y);
    } else {
      OthersKeepOrder(s, e, priority);
      assert list'[x] == list[x] && list'[y] == list[y];
    }
    var x': nat, y': nat :| x' < y' < |list'| && list'[x'] == list[x] && list'[y'] == list[y];
    AheadIntro(t, priority, x', y', a, b);
  }

  lemma AheadIsNotStarted(s: State, priority: bool, a: nat, b: nat)
    requires Structure(s) && Ahead(s, priority, a, b) && !Starts(s, Start, a)
    ensures !Starts(s, Start, b)
  {
    var list := ReadyList(s, priority);
    var x: nat, y: nat :| AheadAt(s, list, x, y, a, b);
    if Enabled(s, Start) {
      StartKeepsOrder(s, priority, x, y);
    }
  }

  /** No step from `i` to `j` starts `a` or cancels `a` or `b`. */
  ghost predicate Undisturbed(states: seq<State>, events: seq<Event>, i: nat, j: nat, a: nat, b: nat)
    requires |events| < |states|
  {
    forall k :: i <= k <= j < |events| ==>
      !Starts(states[k], events[k], a) && !Cancels(states[k], events[k], a) && !Cancels(states[k], events[k], b)
  }

  lemma OrderInRun(states: seq<State>, events: seq<Event>, priority: bool, j: nat, a: nat, b: nat)
    requires IsRun(states, events) && j < |events| && Ahead(states[j], priority, a, b)
    requires !Starts(states[j], events[j], a) && !Cancels(states[j], events[j], a) && !Cancels(states[j], events[j], b)
    ensures Ahead(states[j + 1], priority, a, b) && !Starts(states[j], events[j], b)
  {
    hide Ahead, Apply;
    RunKeepsInvariant(states, events, j);
    assert Enabled(states[j], events[j]) && states[j + 1] == Apply(states[j], events[j]);
    StepKeepsOrder(states[j], events[j], priority, a, b);
    if events[j] == Start {
      AheadIsNotStarted(states[j], priority, a, b);
    }
  }

  /** Ready lists are first-in first-out: while `a` is ahead of `b`, no step starts `b`
      before `a` was started or one of them was cancelled. */
  lemma {:induction false} ReadyListsAreFifo(states: seq<State>, events: seq<Event>, priority: bool, i: nat, j: nat,
                                             a: nat, b: nat)
    requires IsRun(states, events) && i <= j < |events| && Ahead(states[i], priority, a, b)
    requires Undisturbed(states, events, i, j, a, b)
    ensures Ahead(states[j + 1], priority, a, b) && !Starts(states[j], events[j], b)
  {
    hide Apply, Enabled, Starts, Ahead, Cancels;
    if i < j {
      ReadyListsAreFifo(states, events, priority, i, j - 1, a, b);
    }
    OrderInRun(states, events, priority, j, a, b);
  }

  // ------------------------------------------------------------------ stopping

  /** The worker leaves nothing behind: when it may exit, no ticket is queued, delayed or
      in its hands, and every completed one is in its mailbox. */
  lemma ExitLeavesNoWork(s: State, i: nat)
    requires Inv(s) && Enabled(s, Exit) && i < |s.slots|
    ensures s.slots[i].state == Free || s.slots[i].state == Reserved ||
            (s.slots[i].state == Completed && s.slots[i].port in s.ports && i in s.ports[s.slots[i].port].ring)
  {
    assert s.slots[i].state != RetryWaiting;
  }

  /** After a successful `shutdown` the dispatcher stays empty for ever. */
  lemma {:induction false} ShutdownIsFinal(states: seq<State>, events: seq<Event>, i: nat, j: nat)
    requires IsRun(states, events) && i <= j < |states|
    requires states[i].stopping && states[i].used == 0 && states[i].ports == map[]
    ensures states[j].stopping && states[j].used == 0 && states[j].ports == map[]
  {
    if i < j {
      ShutdownIsFinal(states, events, i, j - 1);
      assert Enabled(states[j - 1], events[j - 1]) && states[j] == Apply(states[j - 1], events[j - 1]);
    }
  }

  /** The last 32 slots are out of reach of ordinary work: a control transaction is refused
      for lack of capacity only while 32 control transactions are live. */
  lemma ControlHeadroom(s: State)
    requires Inv(s) && s.used == CAPACITY
    ensures |set i: nat | i < |s.slots| && s.slots[i].state != Free && s.slots[i].control| >= CAPACITY - ORDINARY_LIMIT
  {
    var control := set i: nat | i < |s.slots| && s.slots[i].state != Free && s.slots[i].control;
    assert Live(s.slots) == Ordinary(s.slots) + control;
  }

  // -------------------------------------------------------------- reachability

  /** Some interleaving leads from construction to `s`. */
  ghost predicate Reachable(s: State) {
    exists states, events :: RunTo(states, events, s)
  }

  ghost predicate RunTo(states: seq<State>, events: seq<Event>, s: State) {
    IsRun(states, events) && states[|states| - 1] == s
  }

  lemma InitialReachable()
    ensures Reachable(Initial())
  {
    assert RunTo([Initial()], [], Initial());
  }

  lemma StepReachable(s: State, e: Event)
    requires Reachable(s) && Enabled(s, e)
    ensures Reachable(Apply(s, e))
  {
    var states, events :| RunTo(states, events, s);
    assert RunTo(states + [Apply(s, e)], events + [e], Apply(s, e));
  }

  /** Every reachable state keeps the lists, the mailboxes, the counters and the histories. */
  lemma ReachableInvariant(s: State)
    requires Reachable(s)
    ensures Inv(s)
  {
    var states, events :| RunTo(states, events, s);
    RunKeepsInvariant(states, events, |states| - 1);
  }
}
