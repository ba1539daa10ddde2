/** What every interleaving of dispatcher steps keeps. */
module DispatcherInvariant {
  import opened Common
  import opened DispatcherModel

  // ---------------------------------------------------------------- structure

  ghost predicate SlotsOk(s: State) {
    && |s.slots| == CAPACITY && s.nextTicket >= 1 && s.nextOwner >= 1
    && (forall i :: 0 <= i < |s.slots| && s.slots[i].state != Free ==>
          && 1 <= s.slots[i].ticket < s.nextTicket && s.slots[i].port in s.ports
          && (s.slots[i].state != Reserved ==> s.slots[i].job.Some?))
    && (forall i :: 0 <= i < |s.slots| && s.slots[i].state == Free ==> s.slots[i].job.None?)
  }

  ghost predicate TicketsDistinct(s: State) {
    forall i, j ::
      (0 <= i < |s.slots| && 0 <= j < |s.slots| && s.slots[i].state != Free && s.slots[j].state != Free
       && s.slots[i].ticket == s.slots[j].ticket) ==> i == j
  }

  /** A ready list holds distinct Queued slots of its own priority. */
  ghost predicate ListOk(slots: seq<Slot>, list: seq<nat>, priority: bool) {
    && Distinct(list)
    && (forall k :: 0 <= k < |list| ==>
          list[k] < |slots| && slots[list[k]].state == Queued && slots[list[k]].priority == priority)
  }

  ghost predicate ListsOk(s: State) {
    && ListOk(s.slots, s.control, true) && ListOk(s.slots, s.user, false)
    && (forall i :: 0 <= i < |s.slots| && s.slots[i].state == Queued ==> i in ReadyList(s, s.slots[i].priority))
  }

  /** A mailbox holds distinct Completed slots of its own port. */
  ghost predicate RingOk(slots: seq<Slot>, ring: seq<nat>, p: nat, worker: Worker) {
    && Distinct(ring)
    && (forall k :: 0 <= k < |ring| ==>
          && ring[k] < |slots| && slots[ring[k]].state == Completed && slots[ring[k]].port == p
          && worker != Publishing(ring[k]))
  }

  ghost predicate RingsOk(s: State) {
    && (forall p :: p in s.ports ==> RingOk(s.slots, s.ports[p].ring, p, s.worker))
    && (forall i :: 0 <= i < |s.slots| && s.slots[i].state == Completed && s.worker != Publishing(i) ==>
          s.slots[i].port in s.ports && i in s.ports[s.slots[i].port].ring)
  }

  ghost predicate WorkerOk(s: State) {
    && (forall i :: 0 <= i < |s.slots| ==> (s.slots[i].state == Running <==> s.worker == Holding(i)))
    && (s.worker.Holding? ==> s.worker.index < |s.slots|)
    && (s.worker.Publishing? ==> s.worker.index < |s.slots| && s.slots[s.worker.index].state == Completed)
  }

  ghost predicate PortsOk(s: State) {
    forall p :: p in s.ports ==> 1 <= p < s.nextOwner
  }

  ghost predicate Structure(s: State) {
    SlotsOk(s) && TicketsDistinct(s) && ListsOk(s) && RingsOk(s) && WorkerOk(s) && PortsOk(s)
  }

  // ----------------------------------------------------------------- counters

  ghost function Live(slots: seq<Slot>): set<nat> {
    set i: nat | i < |slots| && slots[i].state != Free
  }

  ghost function Ordinary(slots: seq<Slot>): set<nat> {
    set i: nat | i < |slots| && slots[i].state != Free && !slots[i].control
  }

  ghost function Owned(slots: seq<Slot>, p: nat): set<nat> {
    set i: nat | i < |slots| && slots[i].state != Free && slots[i].port == p
  }

  /** The three overlapping counters are the true numbers of slots. */
  ghost predicate Counts(s: State) {
    && s.used == |Live(s.slots)|
    && s.ordinary == |Ordinary(s.slots)| <= ORDINARY_LIMIT
    && (forall p :: p in s.ports ==> s.ports[p].outstanding == |Owned(s.slots, p)|)
  }

  // ------------------------------------------------------------------ history

  function Ring(s: State, p: nat): seq<nat> {
    if p in s.ports then s.ports[p].ring else []
  }

  function Tickets(slots: seq<Slot>, indices: seq<nat>): (r: seq<nat>)
    requires forall k :: 0 <= k < |indices| ==> indices[k] < |slots|
    ensures |r| == |indices|
  {
    seq(|indices|, k requires 0 <= k < |indices| => slots[indices[k]].ticket)
  }

  /** Each issued ticket belongs to one port. */
  ghost predicate OwnersOk(s: State) {
    && (forall t :: t in s.history.owner <==> 1 <= t < s.nextTicket)
    && (forall i :: 0 <= i < |s.slots| && s.slots[i].state != Free ==>
          s.slots[i].ticket in s.history.owner && s.history.owner[s.slots[i].ticket] == s.slots[i].port)
  }

  ghost predicate Holds(s: State, i: nat, t: nat) {
    i < |s.slots| && s.slots[i].state != Free && s.slots[i].ticket == t
  }

  /** Each issued ticket is freed exactly once or sits in a live slot. */
  ghost predicate FreedOk(s: State) {
    && Distinct(s.history.freed)
    && (forall k :: 0 <= k < |s.history.freed| ==> 1 <= s.history.freed[k] < s.nextTicket)
    && (forall i :: 0 <= i < |s.slots| && s.slots[i].state != Free ==> s.slots[i].ticket !in s.history.freed)
    && (forall t :: 1 <= t < s.nextTicket ==> t in s.history.freed || exists i :: Holds(s, i, t))
  }

  /** Per port: published = acknowledged, in the same order, followed by the mailbox. */
  ghost predicate PublishedOk(s: State, p: nat)
    requires forall k :: 0 <= k < |Ring(s, p)| ==> Ring(s, p)[k] < |s.slots|
  {
    && At(s.history.published, p) == At(s.history.acknowledged, p) + Tickets(s.slots, Ring(s, p))
    && Distinct(At(s.history.published, p))
    && (forall t :: t in At(s.history.published, p) ==> t in s.history.owner && s.history.owner[t] == p)
    && (forall t :: t in At(s.history.acknowledged, p) ==> t in s.history.freed && t in s.history.enqueued)
  }

  ghost predicate MailboxesOk(s: State)
    requires RingsOk(s)
  {
    forall p: nat {:trigger Ring(s, p)} :: PublishedOk(s, p)
  }

  ghost predicate ProgressOk(s: State) {
    && (forall i :: 0 <= i < |s.slots| && s.slots[i].state != Free ==>
          (s.slots[i].state != Reserved <==> s.slots[i].ticket in s.history.enqueued))
    && (forall t :: t in s.history.cancelled ==>
          t in s.history.owner && t in At(s.history.published, s.history.owner[t]))
    && (forall t :: t in s.history.enqueued ==> t in s.history.owner)
    && (forall t :: t in s.history.freed && t in s.history.enqueued ==>
          t in s.history.owner && t in At(s.history.acknowledged, s.history.owner[t]))
  }

  ghost predicate Histories(s: State)
    requires RingsOk(s)
  {
    OwnersOk(s) && FreedOk(s) && MailboxesOk(s) && ProgressOk(s)
  }

  ghost predicate Inv(s: State) {
    Structure(s) && Counts(s) && Histories(s)
  }

  // ------------------------------------------------------------- preservation


  // Each step changes at most one slot; `t` is the state after the step.

  ghost predicate OneSlot(s: State, t: State, i: nat) {
    && i < |s.slots| && |t.slots| == |s.slots|
    && (forall j :: 0 <= j < |s.slots| && j != i ==> t.slots[j] == s.slots[j])
  }

  lemma ListFrame(slots: seq<Slot>, slots': seq<Slot>, list: seq<nat>, priority: bool, i: nat)
    requires ListOk(slots, list, priority) && |slots'| == |slots| && i !in list
    requires forall j :: 0 <= j < |slots| && j != i ==> slots'[j] == slots[j]
    ensures ListOk(slots', list, priority)
  {
    forall k | 0 <= k < |list|
      ensures list[k] < |slots'| && slots'[list[k]].state == Queued && slots'[list[k]].priority == priority
    {
      assert list[k] != i;
    }
  }

  lemma ListsFrame(s: State, t: State, i: nat)
    requires ListsOk(s) && OneSlot(s, t, i)
    requires s.slots[i].state != Queued && t.slots[i].state != Queued
    requires t.control == s.control && t.user == s.user
    ensures ListsOk(t)
  {
    ListFrame(s.slots, t.slots, s.control, true, i);
    ListFrame(s.slots, t.slots, s.user, false, i);
  }

  lemma ListsGrow(s: State, t: State, i: nat)
    requires ListsOk(s) && OneSlot(s, t, i)
    requires s.slots[i].state != Queued && t.slots[i].state == Queued
    requires ReadyList(t, t.slots[i].priority) == ReadyList(s, t.slots[i].priority) + [i]
    requires ReadyList(t, !t.slots[i].priority) == ReadyList(s, !t.slots[i].priority)
    ensures ListsOk(t)
  {
    ListFrame(s.slots, t.slots, s.control, true, i);
    ListFrame(s.slots, t.slots, s.user, false, i);
  }

  lemma RemovedFacts<T>(list: seq<T>, x: T)
    requires Distinct(list) && x in list
    ensures Distinct(Removed(list, x)) && x !in Removed(list, x)
    ensures forall y :: y in Removed(list, x) <==> y in list && y != x
    ensures x == list[0] ==> Removed(list, x) == list[1..]
  {
    var k := IndexOf(list, x);
    assert list == list[..k] + [x] + list[k + 1..];
  }

  lemma ListsShrink(s: State, t: State, i: nat)
    requires ListsOk(s) && OneSlot(s, t, i)
    requires s.slots[i].state == Queued && t.slots[i].state != Queued
    requires ReadyList(t, s.slots[i].priority) == Removed(ReadyList(s, s.slots[i].priority), i)
    requires ReadyList(t, !s.slots[i].priority) == ReadyList(s, !s.slots[i].priority)
    ensures ListsOk(t)
  {
    var mine, other := ReadyList(s, s.slots[i].priority), ReadyList(s, !s.slots[i].priority);
    RemovedFacts(mine, i);
    ListFrame(s.slots, t.slots, other, !s.slots[i].priority, i);
    var rest := Removed(mine, i);
    forall k | 0 <= k < |rest|
      ensures rest[k] < |t.slots| && t.slots[rest[k]].state == Queued
        && t.slots[rest[k]].priority == s.slots[i].priority
    {
      assert rest[k] in rest;
    }
  }

  lemma RingFrame(slots: seq<Slot>, slots': seq<Slot>, ring: seq<nat>, p: nat, w: Worker, w': Worker, i: nat)
    requires RingOk(slots, ring, p, w) && |slots'| == |slots| && i !in ring
    requires forall j :: 0 <= j < |slots| && j != i ==> slots'[j] == slots[j]
    requires w' == w || !w'.Publishing? || w'.index == i
    ensures RingOk(slots', ring, p, w')
  {
    forall k | 0 <= k < |ring|
      ensures && ring[k] < |slots'| && slots'[ring[k]].state == Completed && slots'[ring[k]].port == p
              && w' != Publishing(ring[k])
    {
      assert ring[k] != i;
    }
  }

  /** The slot that changes is in no mailbox, before or after. */
  lemma RingsFrame(s: State, t: State, i: nat)
    requires RingsOk(s) && OneSlot(s, t, i)
    requires s.slots[i].state != Completed
    requires t.slots[i].state == Completed ==> t.worker == Publishing(i)
    requires t.worker == s.worker || (!s.worker.Publishing? && (t.worker.Publishing? ==> t.worker.index == i))
    requires t.ports.Keys == s.ports.Keys && forall p :: p in s.ports ==> t.ports[p].ring == s.ports[p].ring
    ensures RingsOk(t)
  {
    forall p | p in t.ports
      ensures RingOk(t.slots, t.ports[p].ring, p, t.worker)
    {
      RingFrame(s.slots, t.slots, s.ports[p].ring, p, s.worker, t.worker, i);
    }
  }

  /** Slot `i` joins the mailbox of its port. */
  lemma RingsGrow(s: State, t: State, i: nat)
    requires RingsOk(s) && OneSlot(s, t, i)
    requires s.slots[i].state != Completed || s.worker == Publishing(i)
    requires t.slots[i].state == Completed && t.slots[i].port == s.slots[i].port
    requires t.worker != Publishing(i) && (t.worker == s.worker || (s.worker == Publishing(i) && !t.worker.Publishing?))
    requires s.slots[i].port in s.ports && t.ports.Keys == s.ports.Keys
    requires t.ports[s.slots[i].port].ring == s.ports[s.slots[i].port].ring + [i]
    requires forall p :: p in s.ports && p != s.slots[i].port ==> t.ports[p].ring == s.ports[p].ring
    ensures RingsOk(t)
  {
    forall p | p in t.ports
      ensures RingOk(t.slots, t.ports[p].ring, p, t.worker)
    {
      RingFrame(s.slots, t.slots, s.ports[p].ring, p, s.worker, t.worker, i);
    }
    forall j | 0 <= j < |t.slots| && t.slots[j].state == Completed && t.worker != Publishing(j)
      ensures t.slots[j].port in t.ports && j in t.ports[t.slots[j].port].ring
    {
      if j == i {
        assert (s.ports[s.slots[i].port].ring + [i])[|s.ports[s.slots[i].port].ring|] == i;
      } else {
        assert j in s.ports[s.slots[j].port].ring;
      }
    }
  }

  /** The head of the mailbox of `p` leaves it and its slot is freed. */
  lemma RingsShrink(s: State, t: State, p: nat)
    requires RingsOk(s) && p in s.ports && s.ports[p].ring != []
    requires OneSlot(s, t, s.ports[p].ring[0]) && t.slots[s.ports[p].ring[0]].state == Free
    requires t.worker == s.worker && t.ports.Keys == s.ports.Keys
    requires t.ports[p].ring == s.ports[p].ring[1..]
    requires forall q :: q in s.ports && q != p ==> t.ports[q].ring == s.ports[q].ring
    ensures RingsOk(t)
  {
    var i := s.ports[p].ring[0];
    forall q | q in t.ports
      ensures RingOk(t.slots, t.ports[q].ring, q, t.worker)
    {
      if q == p {
        assert RingOk(s.slots, s.ports[p].ring[1..], p, s.worker);
      }
      RingFrame(s.slots, t.slots, t.ports[q].ring, q, s.worker, t.worker, i);
    }
    forall j | 0 <= j < |t.slots| && t.slots[j].state == Completed && t.worker != Publishing(j)
      ensures t.slots[j].port in t.ports && j in t.ports[t.slots[j].port].ring
    {
      assert j in s.ports[s.slots[j].port].ring;
    }
  }

  lemma TicketsFrame(s: State, t: State, i: nat)
    requires TicketsDistinct(s) && OneSlot(s, t, i)
    requires t.slots[i].state != Free ==> s.slots[i].state != Free && t.slots[i].ticket == s.slots[i].ticket
    ensures TicketsDistinct(t)
  {
  }

  lemma SlotsFrame(s: State, t: State, i: nat)
    requires SlotsOk(s) && PortsOk(s) && OneSlot(s, t, i)
    requires t.nextTicket == s.nextTicket && t.nextOwner == s.nextOwner && t.ports.Keys == s.ports.Keys
    requires s.slots[i].state != Free
    requires t.slots[i].state != Free && t.slots[i].ticket == s.slots[i].ticket
    requires t.slots[i].port == s.slots[i].port && t.slots[i].job.Some?
    ensures SlotsOk(t) && PortsOk(t)
  {
  }

  lemma CancelParts(s: State, i: nat)
    requires Structure(s) && Enabled(s, Cancel(i))
    ensures var t := Apply(s, Cancel(i)); SlotsOk(t) && PortsOk(t) && TicketsDistinct(t) && WorkerOk(t)
  {
    var t := Apply(s, Cancel(i));
    SlotsFrame(s, t, i);
    TicketsFrame(s, t, i);
  }

  lemma StartParts(s: State)
    requires Structure(s) && Enabled(s, Start)
    ensures var t := Apply(s, Start); SlotsOk(t) && PortsOk(t) && TicketsDistinct(t) && WorkerOk(t)
  {
    var t := Apply(s, Start);
    var i := NextReady(s);
    SlotsFrame(s, t, i);
    TicketsFrame(s, t, i);
  }

  lemma StartLists(s: State)
    requires Structure(s) && Enabled(s, Start)
    ensures ListsOk(Apply(s, Start)) && RingsOk(Apply(s, Start))
  {
    var t := Apply(s, Start);
    var i := NextReady(s);
    RemovedFacts(if s.control != [] then s.control else s.user, i);
    ListsShrink(s, t, i);
    RingsFrame(s, t, i);
  }

  lemma StructureOpenRoute(s: State)
    requires Structure(s) && Enabled(s, Event.OpenRoute)
    ensures Structure(Apply(s, Event.OpenRoute))
  {
  }

  lemma StructureStopRoute(s: State, p: nat)
    requires Structure(s) && Enabled(s, Event.StopRoute(p))
    ensures Structure(Apply(s, Event.StopRoute(p)))
  {
  }

  lemma StructureRetireRoute(s: State, p: nat)
    requires Structure(s) && Enabled(s, Event.RetireRoute(p))
    requires Counts(s)
    ensures Structure(Apply(s, Event.RetireRoute(p)))
  {
    assert Owned(s.slots, p) == {};
    forall i | 0 <= i < |s.slots| && s.slots[i].state != Free
      ensures s.slots[i].port != p
    {
      assert i in Owned(s.slots, p) || s.slots[i].port != p;
    }
  }

  lemma StructureReserve(s: State, p: nat, record: Record, control: bool)
    requires Structure(s) && Enabled(s, Event.Reserve(p, record, control))
    ensures Structure(Apply(s, Event.Reserve(p, record, control)))
  {
    var t := Apply(s, Event.Reserve(p, record, control));
    var i := FirstFree(s.slots);
    ListsFrame(s, t, i);
    RingsFrame(s, t, i);
  }

  lemma StructureInstall(s: State, i: nat, job: nat)
    requires Structure(s) && Enabled(s, Event.Install(i, job))
    ensures Structure(Apply(s, Event.Install(i, job)))
  {
    var t := Apply(s, Event.Install(i, job));
    ListsFrame(s, t, i);
    RingsFrame(s, t, i);
    TicketsFrame(s, t, i);
  }

  lemma StructureEnqueue(s: State, i: nat)
    requires Structure(s) && Enabled(s, Event.Enqueue(i))
    ensures Structure(Apply(s, Event.Enqueue(i)))
  {
    var t := Apply(s, Event.Enqueue(i));
    ListsGrow(s, t, i);
    RingsFrame(s, t, i);
    TicketsFrame(s, t, i);
  }

  lemma StructureCancel(s: State, i: nat)
    requires Structure(s) && Enabled(s, Event.Cancel(i))
    ensures Structure(Apply(s, Event.Cancel(i)))
  {
    CancelParts(s, i);
    var t := Apply(s, Event.Cancel(i));
    ListsShrink(s, t, i);
    RingsGrow(s, t, i);
  }

  lemma StructureAbandon(s: State, i: nat)
    requires Structure(s) && Enabled(s, Event.Abandon(i))
    ensures Structure(Apply(s, Event.Abandon(i)))
  {
    var t := Apply(s, Event.Abandon(i));
    ListsFrame(s, t, i);
    RingsFrame(s, t, i);
    TicketsFrame(s, t, i);
  }

  lemma StructurePromote(s: State, i: nat, now: int)
    requires Structure(s) && Enabled(s, Event.Promote(i, now))
    ensures Structure(Apply(s, Event.Promote(i, now)))
  {
    var t := Apply(s, Event.Promote(i, now));
    ListsGrow(s, t, i);
    RingsFrame(s, t, i);
    TicketsFrame(s, t, i);
  }

  lemma StructureStart(s: State)
    requires Structure(s) && Enabled(s, Event.Start)
    ensures Structure(Apply(s, Event.Start))
  {
    StartParts(s);
    StartLists(s);
  }

  lemma StructureExecute(s: State, result: Record)
    requires Structure(s) && Enabled(s, Event.Execute(result))
    ensures Structure(Apply(s, Event.Execute(result)))
  {
    var t := Apply(s, Event.Execute(result));
    var i := s.worker.index;
    ListsFrame(s, t, i);
    RingsFrame(s, t, i);
    TicketsFrame(s, t, i);
  }

  lemma StructureRetry(s: State, now: int)
    requires Structure(s) && Enabled(s, Event.Retry(now))
    ensures Structure(Apply(s, Event.Retry(now)))
  {
    var t := Apply(s, Event.Retry(now));
    var i := s.worker.index;
    ListsFrame(s, t, i);
    RingsFrame(s, t, i);
    TicketsFrame(s, t, i);
  }

  lemma StructurePark(s: State, now: int)
    requires Structure(s) && Enabled(s, Event.Park(now))
    ensures Structure(Apply(s, Event.Park(now)))
  {
    var t := Apply(s, Event.Park(now));
    var i := s.worker.index;
    ListsFrame(s, t, i);
    RingsFrame(s, t, i);
    TicketsFrame(s, t, i);
  }

  lemma StructureComplete(s: State)
    requires Structure(s) && Enabled(s, Event.Complete)
    ensures Structure(Apply(s, Event.Complete))
  {
    var t := Apply(s, Event.Complete);
    var i := s.worker.index;
    ListsFrame(s, t, i);
    RingsFrame(s, t, i);
    TicketsFrame(s, t, i);
  }

  lemma StructureAppend(s: State)
    requires Structure(s) && Enabled(s, Event.Append)
    ensures Structure(Apply(s, Event.Append))
  {
    var t := Apply(s, Event.Append);
    var i := s.worker.index;
    ListsFrame(s, t, i);
    RingsGrow(s, t, i);
    TicketsFrame(s, t, i);
  }

  lemma StructureAcknowledge(s: State, p: nat)
    requires Structure(s) && Enabled(s, Event.Acknowledge(p))
    ensures Structure(Apply(s, Event.Acknowledge(p)))
  {
    var t := Apply(s, Event.Acknowledge(p));
    var i := s.ports[p].ring[0];
    ListsFrame(s, t, i);
    RingsShrink(s, t, p);
    TicketsFrame(s, t, i);
  }

  lemma StructureBeginStop(s: State)
    requires Structure(s) && Enabled(s, Event.BeginStop)
    ensures Structure(Apply(s, Event.BeginStop))
  {
  }

  lemma StructureExit(s: State)
    requires Structure(s) && Enabled(s, Event.Exit)
    ensures Structure(Apply(s, Event.Exit))
  {
  }
}
