/** The three overlapping admission counters always equal the true numbers of slots. */
module DispatcherCounts {
  import opened Common
  import opened DispatcherModel
  import opened DispatcherInvariant

  lemma NoRoom(slots: seq<Slot>, n: nat)
    requires n <= |slots| && forall i :: 0 <= i < n ==> slots[i].state != Free
    ensures |Live(slots[..n])| == n
  {
    if n == 0 {
      assert Live(slots[..0]) == {};
    } else {
      NoRoom(slots, n - 1);
      assert Live(slots[..n]) == Live(slots[..n - 1]) + {n - 1};
    }
  }

  /** `reserve` always finds a Free slot once its capacity test passed: the
      "accounting is inconsistent" failure cannot happen. */
  lemma RoomIsFree(s: State)
    requires Inv(s) && s.used < CAPACITY
    ensures HasFree(s.slots)
  {
    assert s.slots[..CAPACITY] == s.slots;
    if !HasFree(s.slots) {
      NoRoom(s.slots, CAPACITY);
    }
  }

  function Below(n: nat): (r: set<nat>)
    ensures |r| == n && forall i: nat :: i in r <==> i < n
  {
    if n == 0 then {} else Below(n - 1) + {n - 1}
  }

  lemma DistinctFits(list: seq<nat>, room: set<nat>)
    requires Distinct(list) && forall k :: 0 <= k < |list| ==> list[k] in room
    ensures |list| <= |room|
  {
    if list != [] {
      var last := |list| - 1;
      DistinctFits(list[..last], room - {list[last]});
    }
  }

  /** A mailbox never overflows: before an append at most 255 of its 256 entries are used. */
  lemma RingHasRoom(s: State, p: nat, i: nat)
    requires Structure(s) && p in s.ports && i < |s.slots| && i !in s.ports[p].ring
    ensures |s.ports[p].ring| < CAPACITY
  {
    var ring := s.ports[p].ring;
    assert RingOk(s.slots, ring, p, s.worker);
    DistinctFits(ring, Below(CAPACITY) - {i});
  }

  lemma SetsFrame(slots: seq<Slot>, slots': seq<Slot>, i: nat)
    requires i < |slots| == |slots'| && (slots[i].state == Free <==> slots'[i].state == Free)
    requires slots'[i].control == slots[i].control && slots'[i].port == slots[i].port
    requires forall j :: 0 <= j < |slots| && j != i ==> slots'[j] == slots[j]
    ensures Live(slots') == Live(slots) && Ordinary(slots') == Ordinary(slots)
    ensures forall p :: Owned(slots', p) == Owned(slots, p)
  {
    assert Live(slots') == Live(slots);
    assert Ordinary(slots') == Ordinary(slots);
    forall p ensures Owned(slots', p) == Owned(slots, p) {}
  }

  lemma SetsAdd(slots: seq<Slot>, slots': seq<Slot>, i: nat)
    requires i < |slots| == |slots'| && slots[i].state == Free && slots'[i].state != Free
    requires forall j :: 0 <= j < |slots| && j != i ==> slots'[j] == slots[j]
    ensures Live(slots') == Live(slots) + {i} && i !in Live(slots)
    ensures i !in Ordinary(slots)
      && Ordinary(slots') == if slots'[i].control then Ordinary(slots) else Ordinary(slots) + {i}
    ensures forall p ::
      && i !in Owned(slots, p)
      && Owned(slots', p) == if p == slots'[i].port then Owned(slots, p) + {i} else Owned(slots, p)
  {
    forall p
      ensures Owned(slots', p) == if p == slots'[i].port then Owned(slots, p) + {i} else Owned(slots, p)
    {
    }
  }

  lemma CountsFrame(s: State, t: State, i: nat)
    requires Counts(s) && OneSlot(s, t, i)
    requires s.slots[i].state == Free <==> t.slots[i].state == Free
    requires t.slots[i].control == s.slots[i].control && t.slots[i].port == s.slots[i].port
    requires t.used == s.used && t.ordinary == s.ordinary && t.ports.Keys == s.ports.Keys
    requires forall p :: p in s.ports ==> t.ports[p].outstanding == s.ports[p].outstanding
    ensures Counts(t)
  {
    SetsFrame(s.slots, t.slots, i);
  }

  lemma CountsReserve(s: State, p: nat, record: Record, control: bool)
    requires Counts(s) && Enabled(s, Event.Reserve(p, record, control))
    ensures Counts(Apply(s, Event.Reserve(p, record, control)))
  {
    var t := Apply(s, Event.Reserve(p, record, control));
    var i := FirstFree(s.slots);
    hide FirstFree;
    SetsAdd(s.slots, t.slots, i);
    hide Live, Ordinary, Owned;
  }

  lemma CountsRelease(s: State, i: nat)
    requires Counts(s) && i < |s.slots| && s.slots[i].state != Free && Releasable(s, i)
    ensures Counts(Release(s, i))
  {
    var t := Release(s, i);
    SetsAdd(t.slots, s.slots, i);
  }

  /** A live slot is always releasable: no counter can wrap below zero. */
  lemma LiveIsReleasable(s: State, i: nat)
    requires SlotsOk(s) && Counts(s) && i < |s.slots| && s.slots[i].state != Free
    ensures Releasable(s, i)
  {
    assert i in Live(s.slots) && i in Owned(s.slots, s.slots[i].port);
    if !s.slots[i].control {
      assert i in Ordinary(s.slots);
    }
  }

  lemma CountsOpenRoute(s: State)
    requires SlotsOk(s) && PortsOk(s) && Counts(s) && Enabled(s, OpenRoute)
    ensures Counts(Apply(s, OpenRoute))
  {
    assert Owned(s.slots, s.nextOwner) == {};
  }

  /** Every notification in a mailbox is an outstanding ticket of that port; so a port
      without outstanding tickets has an empty mailbox, and `retire_route` cannot find
      notifications left behind. */
  lemma MailboxIsOutstanding(s: State, p: nat)
    requires Structure(s) && Counts(s) && p in s.ports
    ensures |s.ports[p].ring| <= s.ports[p].outstanding
  {
    var ring := s.ports[p].ring;
    assert RingOk(s.slots, ring, p, s.worker);
    DistinctFits(ring, Owned(s.slots, p));
  }

  lemma CountsAcknowledge(s: State, p: nat)
    requires Structure(s) && Counts(s) && Enabled(s, Acknowledge(p))
    ensures Counts(Apply(s, Acknowledge(p)))
  {
    assert RingOk(s.slots, s.ports[p].ring, p, s.worker);
    var i := s.ports[p].ring[0];
    var s1 := s.(ports := s.ports[p := s.ports[p].(ring := s.ports[p].ring[1..])]);
    CountsRelease(s1, i);
  }

  /** Steps that neither admit nor free a slot. */
  lemma CountsSteady(s: State, e: Event)
    requires Structure(s) && Counts(s) && Enabled(s, e)
    requires e.Install? || e.Enqueue? || e.Promote? || e.Cancel?
    ensures Counts(Apply(s, e))
  {
    hide SlotsOk, TicketsDistinct, ListsOk, RingsOk, WorkerOk, PortsOk, Counts;
    CountsFrame(s, Apply(s, e), e.slot);
  }

  lemma CountsWorker(s: State, e: Event)
    requires Structure(s) && Counts(s) && Enabled(s, e)
    requires e.Execute? || e.Retry? || e.Park? || e.Complete? || e.Append?
    ensures Counts(Apply(s, e))
  {
    hide SlotsOk, TicketsDistinct, ListsOk, RingsOk, PortsOk, Counts;
    CountsFrame(s, Apply(s, e), s.worker.index);
  }

  lemma CountsStart(s: State)
    requires Structure(s) && Counts(s) && Enabled(s, Start)
    ensures Counts(Apply(s, Start))
  {
    CountsFrame(s, Apply(s, Start), NextReady(s));
  }

  lemma CountsKept(s: State, e: Event)
    requires Structure(s) && Counts(s) && Enabled(s, e)
    ensures Counts(Apply(s, e))
  {
    hide SlotsOk, TicketsDistinct, ListsOk, RingsOk, WorkerOk, PortsOk;
    match e
    case OpenRoute => CountsOpenRoute(s);
    case Reserve(p, record, control) => CountsReserve(s, p, record, control);
    case Abandon(i) => CountsRelease(s, i);
    case Acknowledge(p) => CountsAcknowledge(s, p);
    case Start => CountsStart(s);
    case Install(_, _) => CountsSteady(s, e);
    case Enqueue(_) => CountsSteady(s, e);
    case Promote(_, _) => CountsSteady(s, e);
    case Cancel(_) => CountsSteady(s, e);
    case Execute(_) => CountsWorker(s, e);
    case Retry(_) => CountsWorker(s, e);
    case Park(_) => CountsWorker(s, e);
    case Complete => CountsWorker(s, e);
    case Append => CountsWorker(s, e);
    case _ =>
  }
}
