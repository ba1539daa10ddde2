/** `NativeIoDispatcher` and `CompletionPort` of `native_io.hpp`: a slot array, two ready
    lists linked by index, and one ring buffer per route.  The ghost state `m` says which
    state of `DispatcherModel` the object is in; every method performs one of its events
    or changes nothing. */
module NativeIo {
  import opened Common
  import opened DispatcherModel
  import opened DispatcherInvariant
  import opened DispatcherCounts
  import opened DispatcherRuns

  const NIL: nat := CAPACITY

  datatype Queue = Queue(head: nat, tail: nat)

  /** `list` is what a walk from `q.head` along `next` visits. */
  ghost predicate Chain(next: seq<nat>, q: Queue, list: seq<nat>) {
    && |next| == CAPACITY
    && (forall k :: 0 <= k < |list| ==> list[k] < CAPACITY)
    && (if list == [] then q == Queue(NIL, NIL)
        else q.head == list[0] && q.tail == list[|list| - 1] && next[q.tail] == NIL)
    && (forall k :: 0 <= k < |list| - 1 ==> next[list[k]] == list[k + 1])
  }

  lemma ChainFrame(next: seq<nat>, next': seq<nat>, q: Queue, list: seq<nat>)
    requires Chain(next, q, list) && |next'| == CAPACITY
    requires forall k :: 0 <= k < |list| ==> next'[list[k]] == next[list[k]]
    ensures Chain(next', q, list)
  {
  }

  /** The slot a live ticket sits in. */
  ghost function Find(s: State, ticket: nat): Option<nat> {
    if exists i :: Holds(s, i, ticket) then
      var i :| Holds(s, i, ticket);
      Some(i)
    else None
  }

  lemma FoundAt(s: State, ticket: nat, i: nat)
    requires Reachable(s) && Holds(s, i, ticket)
    ensures Find(s, ticket) == Some(i)
  {
    ReachableInvariant(s);
  }

  lemma ListFacts(s: State)
    requires Reachable(s)
    ensures Distinct(s.control) && Distinct(s.user)
    ensures forall x :: x in s.control ==> x !in s.user
    ensures |s.slots| == CAPACITY
  {
    ReachableInvariant(s);
  }

  lemma Unlisted(s: State, i: nat)
    requires Reachable(s) && i < |s.slots| && s.slots[i].state != Queued
    ensures i !in s.control && i !in s.user
  {
    ReachableInvariant(s);
  }

  lemma QueuedFacts(s: State, i: nat)
    requires Reachable(s) && i < |s.slots| && s.slots[i].state == Queued
    ensures Enabled(s, Event.Cancel(i)) && |s.ports[s.slots[i].port].ring| < CAPACITY
  {
    ReachableInvariant(s);
    assert RingOk(s.slots, s.ports[s.slots[i].port].ring, s.slots[i].port, s.worker);
    RingHasRoom(s, s.slots[i].port, i);
  }

  lemma PublishingFacts(s: State)
    requires Reachable(s) && s.worker.Publishing?
    ensures Enabled(s, Event.Append) && |s.ports[s.slots[s.worker.index].port].ring| < CAPACITY
  {
    ReachableInvariant(s);
    var p := s.slots[s.worker.index].port;
    assert RingOk(s.slots, s.ports[p].ring, p, s.worker);
    RingHasRoom(s, p, s.worker.index);
  }

  lemma LiveFacts(s: State, i: nat)
    requires Reachable(s) && i < |s.slots| && s.slots[i].state != Free
    ensures Releasable(s, i)
  {
    ReachableInvariant(s);
    LiveIsReleasable(s, i);
  }

  lemma HeadFacts(s: State, p: nat)
    requires Reachable(s) && p in s.ports && s.ports[p].ring != []
    ensures Enabled(s, Event.Acknowledge(p)) && s.slots[s.ports[p].ring[0]].state == Completed
  {
    ReachableInvariant(s);
    assert RingOk(s.slots, s.ports[p].ring, p, s.worker);
    LiveIsReleasable(s, s.ports[p].ring[0]);
  }

  lemma HeldFacts(s: State)
    requires Reachable(s) && s.worker.Holding?
    ensures s.worker.index < |s.slots| && s.slots[s.worker.index].state == Running
  {
    ReachableInvariant(s);
  }

  lemma ReserveFacts(s: State)
    requires Reachable(s) && s.used != CAPACITY
    ensures HasFree(s.slots) && s.used < CAPACITY
  {
    ReachableInvariant(s);
    LiveBound(s.slots);
    RoomIsFree(s);
  }

  lemma LiveBound(slots: seq<Slot>)
    requires |slots| == CAPACITY
    ensures |Live(slots)| <= CAPACITY
  {
    var all := Below(CAPACITY);
    assert all == Live(slots) + (all - Live(slots));
  }

  lemma StartFacts(s: State)
    requires Reachable(s) && s.worker == Scheduling && (s.control != [] || s.user != [])
    ensures Enabled(s, Event.Start)
  {
    ReachableInvariant(s);
  }

  lemma NextOwnerIsFresh(s: State)
    requires Reachable(s)
    ensures s.nextOwner !in s.ports
  {
    ReachableInvariant(s);
  }

  lemma HeadTells(next: seq<nat>, q: Queue, list: seq<nat>)
    requires Chain(next, q, list)
    ensures q.head != NIL <==> list != []
  {
  }

  /** The mailbox of one executor. */
  class CompletionPort {
    const id: nat
    const completions: array<nat>
    var head: nat
    var count: nat
    var outstanding: nat
    var accepting: bool

    constructor (id: nat)
      ensures this.id == id && fresh(completions) && Is(Port([], 0, true))
    {
      this.id := id;
      completions := new nat[CAPACITY];
      head, count, outstanding, accepting := 0, 0, 0, true;
    }

    /** The ring buffer holds exactly `v.ring`, oldest first. */
    ghost predicate Is(v: Port)
      reads this, completions
    {
      && completions.Length == CAPACITY && head < CAPACITY && count == |v.ring| <= CAPACITY
      && (forall k :: 0 <= k < count ==> completions[(head + k) % CAPACITY] == v.ring[k])
      && outstanding == v.outstanding && accepting == v.accepting
    }

    /** Appends one slot index at the tail. */
    method Append(index: nat, ghost v: Port)
      requires Is(v) && |v.ring| < CAPACITY
      modifies this, completions
      ensures Is(v.(ring := v.ring + [index]))
    {
      var tail := (head + count) % CAPACITY;
      completions[tail] := index;
      count := count + 1;
    }

    method Close(ghost v: Port)
      requires Is(v)
      modifies this
      ensures Is(v.(accepting := false))
    {
      accepting := false;
    }

    /** One outstanding ticket more. */
    method Admit(ghost v: Port)
      requires Is(v)
      modifies this
      ensures Is(v.(outstanding := v.outstanding + 1))
    {
      outstanding := outstanding + 1;
    }

    /** One outstanding ticket less. */
    method Forget(ghost v: Port)
      requires Is(v) && v.outstanding > 0
      modifies this
      ensures Is(v.(outstanding := v.outstanding - 1))
    {
      outstanding := outstanding - 1;
    }

    /** Drops the head entry. */
    method Advance(ghost v: Port)
      requires Is(v) && v.ring != []
      modifies this
      ensures Is(v.(ring := v.ring[1..]))
    {
      ghost var h := head;
      head := (head + 1) % CAPACITY;
      count := count - 1;
      forall k | 0 <= k < count ensures completions[(head + k) % CAPACITY] == v.ring[1..][k] {
        Wraps(h, k);
        assert completions[(h + (k + 1)) % CAPACITY] == v.ring[k + 1];
      }
    }
  }

  lemma Wraps(head: nat, k: nat)
    requires head < CAPACITY && k < CAPACITY
    ensures ((head + 1) % CAPACITY + k) % CAPACITY == (head + (k + 1)) % CAPACITY
  {
  }

  class NativeIoDispatcher {
    const slots: array<Slot>
    const next: array<nat>
    var controlQueue: Queue
    var userQueue: Queue
    var routes: map<nat, CompletionPort>
    var used: nat
    var ordinaryUsed: nat
    var nextTicket: nat
    var nextOwner: nat
    var stopping: bool
    ghost var m: State

    ghost function Ports(): set<object>
      reads `routes
    {
      (set p: CompletionPort | p in routes.Values) + (set p: CompletionPort | p in routes.Values :: p.completions)
    }

    /** Every route has its own port and its own ring buffer. */
    ghost predicate Separate()
      reads `routes
    {
      && (forall a, b :: a in routes && b in routes && a != b ==> routes[a].completions != routes[b].completions)
      && (forall a :: a in routes ==> routes[a].id == a && routes[a].completions != next)
    }

    /** Each mailbox is laid out in its ring buffer. */
    ghost predicate Mailboxes(ports: map<nat, Port>)
      reads `routes, Ports()
    {
      routes.Keys == ports.Keys && forall a :: a in routes ==> routes[a].Is(ports[a])
    }

    ghost predicate Linked(control: seq<nat>, user: seq<nat>)
      reads `controlQueue, `userQueue, next
    {
      Chain(next[..], controlQueue, control) && Chain(next[..], userQueue, user)
    }

    ghost predicate Counters()
      reads this
    {
      used == m.used && ordinaryUsed == m.ordinary && nextTicket == m.nextTicket
      && nextOwner == m.nextOwner && stopping == m.stopping
    }

    /** The fields are those of `m`: same slots, each ready list chained through `next`, each
        mailbox laid out in its ring buffer, same counters. */
    ghost predicate Coupled()
      reads this, slots, next, Ports()
    {
      && slots.Length == CAPACITY && next.Length == CAPACITY && slots[..] == m.slots
      && Linked(m.control, m.user) && Separate() && Mailboxes(m.ports) && Counters()
    }

    ghost predicate Valid()
      reads this, slots, next, Ports()
    {
      Coupled() && Reachable(m)
    }

    constructor ()
      ensures Valid() && fresh(slots) && fresh(next) && routes == map[] && m == Initial()
    {
      slots := new Slot[CAPACITY](_ => EMPTY_SLOT);
      next := new nat[CAPACITY](_ => NIL);
      controlQueue, userQueue := Queue(NIL, NIL), Queue(NIL, NIL);
      routes := map[];
      used, ordinaryUsed, nextTicket, nextOwner, stopping := 0, 0, 1, 1, false;
      m := Initial();
      new;
      InitialReachable();
    }

    /** The route is open on this dispatcher. */
    predicate Knows(port: CompletionPort)
      reads `routes
    {
      port.id in routes && routes[port.id] == port
    }

    method OpenRoute() returns (r: Result<CompletionPort>)
      requires Valid()
      modifies this
      ensures Valid()
      ensures old(stopping) ==> r == Failure(InvalidState) && m == old(m) && routes == old(routes)
      ensures !old(stopping) && old(nextOwner) == SIZE_MAX ==>
        r == Failure(ResourceExhausted) && m == old(m) && routes == old(routes)
      ensures !old(stopping) && old(nextOwner) != SIZE_MAX ==>
        && Enabled(old(m), Event.OpenRoute) && m == Apply(old(m), Event.OpenRoute)
        && r.Success? && fresh(r.value) && fresh(r.value.completions) && routes == old(routes)[r.value.id := r.value]
    {
      hide Reachable;
      if stopping { return Failure(InvalidState); }
      if nextOwner == SIZE_MAX { return Failure(ResourceExhausted); }
      NextOwnerIsFresh(m);
      r := AddRoute();
    }

    method AddRoute() returns (r: Result<CompletionPort>)
      requires Valid() && Enabled(m, Event.OpenRoute) && nextOwner !in m.ports
      modifies this
      ensures Valid() && m == Apply(old(m), Event.OpenRoute)
      ensures r.Success? && fresh(r.value) && fresh(r.value.completions) && routes == old(routes)[r.value.id := r.value]
    {
      hide Reachable, CompletionPort.Is, Chain, Linked;
      var port := new CompletionPort(nextOwner);
      InsertRoute(port);
      hide Separate, Mailboxes;
      assert this !in Ports();
      nextOwner := nextOwner + 1;
      StepReachable(m, Event.OpenRoute);
      m := Apply(m, Event.OpenRoute);
      return Success(port);
    }

    method InsertRoute(port: CompletionPort)
      requires Separate() && Mailboxes(m.ports) && port.id !in m.ports && port.Is(Port([], 0, true))
      requires port.completions != next && forall a :: a in routes ==> routes[a].completions != port.completions
      modifies `routes
      ensures routes == old(routes)[port.id := port] && Separate() && Mailboxes(m.ports[port.id := Port([], 0, true)])
    {
      hide CompletionPort.Is;
      routes := routes[port.id := port];
    }

    method StopRoute(port: CompletionPort) returns (r: Result<()>)
      requires Valid()
      modifies this, Ports()
      ensures Valid() && routes == old(routes)
      ensures !Knows(port) ==> r == Failure(NotRegistered) && m == old(m)
      ensures Knows(port) ==>
        r == Success(()) && Enabled(old(m), Event.StopRoute(port.id)) && m == Apply(old(m), Event.StopRoute(port.id))
    {
      if !Knows(port) { return Failure(NotRegistered); }
      CloseRoute(port);
      return Success(());
    }

    method CloseRoute(port: CompletionPort)
      requires Valid() && Knows(port)
      modifies port
      modifies this
      ensures Valid() && routes == old(routes)
      ensures Enabled(old(m), Event.StopRoute(port.id)) && m == Apply(old(m), Event.StopRoute(port.id))
    {
      hide Reachable; hide CompletionPort.Is;
      ghost var v := m.ports[port.id];
      assert routes[port.id].Is(v);
      port.Close(v);
      assert Enabled(m, Event.StopRoute(port.id));
      StepReachable(m, Event.StopRoute(port.id));
      m := Apply(m, Event.StopRoute(port.id));
    }

    /** Forgets a route that owns no live ticket; an entry in a mailbox is a live ticket. */
    method RetireRoute(port: CompletionPort) returns (r: Result<()>)
      requires Valid()
      modifies this, Ports()
      ensures Valid()
      ensures !old(Knows(port)) ==> r == Failure(NotRegistered) && m == old(m) && routes == old(routes)
      ensures old(Knows(port)) && Owned(old(m).slots, port.id) != {} ==>
        r == Failure(Busy) && m == old(m) && routes == old(routes)
      ensures old(Knows(port)) && Owned(old(m).slots, port.id) == {} ==>
        && r == Success(()) && routes == old(routes) - {port.id} && !port.accepting
        && Enabled(old(m), Event.RetireRoute(port.id)) && m == Apply(old(m), Event.RetireRoute(port.id))
    {
      hide Reachable, Chain;
      if !Knows(port) { return Failure(NotRegistered); }
      assert port.Is(m.ports[port.id]);
      OutstandingFacts(m, port.id);
      if port.outstanding != 0 { return Failure(Busy); }
      if port.count != 0 {
        // "Completion route still contains notifications": unreachable.
        assert false;
      }
      EraseRoute(port);
      return Success(());
    }

    method EraseRoute(port: CompletionPort)
      requires Valid() && Knows(port) && Enabled(m, Event.RetireRoute(port.id))
      modifies this, port
      ensures Valid() && routes == old(routes) - {port.id} && !port.accepting
      ensures m == Apply(old(m), Event.RetireRoute(port.id))
    {
      hide Reachable, CompletionPort.Is, Chain, Linked;
      port.accepting := false;
      routes := routes - {port.id};
      StepReachable(m, Event.RetireRoute(port.id));
      m := Apply(m, Event.RetireRoute(port.id));
    }

    // ------------------------------------------------------------ linked ready lists

    /** Links `index` behind the tail of `q`; a list that shares no slot is untouched. */
    method Push(q: Queue, index: nat, ghost list: seq<nat>, ghost oq: Queue, ghost other: seq<nat>) returns (r: Queue)
      requires next.Length == CAPACITY && Chain(next[..], q, list) && Chain(next[..], oq, other)
      requires index < CAPACITY && index !in list && index !in other && Distinct(list)
      requires forall x :: x in list ==> x !in other
      modifies next
      ensures Chain(next[..], r, list + [index]) && Chain(next[..], oq, other)
    {
      ghost var before := next[..];
      next[index] := NIL;
      var head := q.head;
      if q.tail == NIL {
        head := index;
      } else {
        next[q.tail] := index;
      }
      r := Queue(head, index);
      assert list != [] ==> q.tail in list;
      ChainFrame(before, next[..], oq, other);
      assert forall k :: 0 <= k < |list| - 1 ==> list[k] != q.tail;
    }

    /** Takes the head of a non-empty list. */
    method Pop(q: Queue, ghost list: seq<nat>) returns (index: nat, r: Queue)
      requires next.Length == CAPACITY && Chain(next[..], q, list) && list != []
      ensures index == list[0] && Chain(next[..], r, list[1..])
    {
      index := q.head;
      var head := next[index];
      r := Queue(head, if head == NIL then NIL else q.tail);
      if |list| > 1 {
        assert head == list[1];
      }
    }

    /** Unlinks `index` from the middle of the list it is in. */
    method Unlink(q: Queue, index: nat, ghost list: seq<nat>, ghost oq: Queue, ghost other: seq<nat>) returns (r: Queue)
      requires next.Length == CAPACITY && Chain(next[..], q, list) && Chain(next[..], oq, other)
      requires index in list && Distinct(list) && forall x :: x in list ==> x !in other
      modifies next
      ensures Chain(next[..], r, Removed(list, index)) && Chain(next[..], oq, other)
    {
      ghost var before := next[..];
      ghost var at := IndexOf(list, index);
      ghost var k := 0;
      var previous, current := NIL, q.head;
      while current != index
        invariant k <= at && current == list[k] && previous == (if k == 0 then NIL else list[k - 1])
        decreases at - k
      {
        if current == NIL {
          // "Queued native ticket is missing from its ready list": unreachable.
          assert false;
        }
        previous := current;
        current := next[current];
        k := k + 1;
      }
      var head, tail := q.head, q.tail;
      if previous == NIL {
        head := next[index];
      } else {
        next[previous] := next[index];
      }
      if tail == index { tail := previous; }
      r := Queue(head, tail);
      Unlinked(before, next[..], q, list, k);
      assert k > 0 ==> list[k - 1] in list;
      ChainFrame(before, next[..], oq, other);
    }

    // ------------------------------------------------ moves shared by several events

    /** Marks slot `index` Queued and links it into the list of its priority. */
    method Ready(index: nat)
      requires Coupled() && index < CAPACITY && index !in m.control && index !in m.user
      requires Distinct(m.control) && Distinct(m.user) && forall x :: x in m.control ==> x !in m.user
      modifies this, slots, next
      ensures Coupled() && routes == old(routes) && m == MakeReady(old(m), index)
    {
      hide CompletionPort.Is, Chain;
      Link(slots[index].priority, index);
      slots[index] := slots[index].(state := Queued);
      m := MakeReady(m, index);
    }

    method Link(priority: bool, index: nat)
      requires next.Length == CAPACITY && Linked(m.control, m.user) && index < CAPACITY
      requires index !in m.control && index !in m.user
      requires Distinct(m.control) && Distinct(m.user) && forall x :: x in m.control ==> x !in m.user
      modifies `controlQueue, `userQueue, next
      ensures Linked(if priority then m.control + [index] else m.control, if priority then m.user else m.user + [index])
    {
      if priority {
        controlQueue := Push(controlQueue, index, m.control, userQueue, m.user);
      } else {
        userQueue := Push(userQueue, index, m.user, controlQueue, m.control);
      }
    }

    /** Appends completed slot `index` to the mailbox of its port. */
    method Post(index: nat)
      requires Coupled() && index < CAPACITY && m.slots[index].port in m.ports
      requires |m.ports[m.slots[index].port].ring| < CAPACITY
      modifies this, Ports()
      ensures Coupled() && routes == old(routes) && m == Deliver(old(m), index)
    {
      hide CompletionPort.Is; hide Chain;
      var port := routes[slots[index].port];
      assert port.Is(m.ports[port.id]);
      port.Append(index, m.ports[port.id]);
      m := Deliver(m, index);
    }

    /** `release_slot`: gives the slot and its share of the three counters back. */
    method ReleaseSlot(index: nat)
      requires Coupled() && index < CAPACITY && Releasable(m, index)
      modifies this, slots, Ports()
      ensures Coupled() && routes == old(routes) && m == Release(old(m), index)
    {
      hide CompletionPort.Is, Chain, Linked, Separate, Mailboxes;
      assert this !in Ports();
      var port := TheRoute(slots[index].port);
      Reclaim(index);
      ForgetTicket(port);
      m := Release(m, index);
    }

    method TheRoute(id: nat) returns (port: CompletionPort)
      requires Separate() && Mailboxes(m.ports) && id in m.ports
      ensures Knows(port) && port.id == id && port in Ports() && m.ports[id].outstanding == port.outstanding
    {
      port := routes[id];
      assert port.Is(m.ports[id]);
    }

    /** One outstanding ticket less on this route, every other mailbox as it was. */
    method ForgetTicket(port: CompletionPort)
      requires Separate() && Mailboxes(m.ports) && Knows(port) && port.id in m.ports && m.ports[port.id].outstanding > 0
      modifies port
      ensures Separate()
      ensures Mailboxes(m.ports[port.id := m.ports[port.id].(outstanding := m.ports[port.id].outstanding - 1)])
    {
      hide CompletionPort.Is;
      assert port.Is(m.ports[port.id]);
      port.Forget(m.ports[port.id]);
    }

    method Reclaim(index: nat)
      requires slots.Length == CAPACITY && slots[..] == m.slots && index < CAPACITY && Releasable(m, index)
      requires used == m.used && ordinaryUsed == m.ordinary && Mailboxes(m.ports)
      modifies `used, `ordinaryUsed, slots
      ensures Mailboxes(m.ports)
      ensures slots[..] == Release(m, index).slots && used == Release(m, index).used
      ensures ordinaryUsed == Release(m, index).ordinary
    {
      used := used - 1;
      if !slots[index].control { ordinaryUsed := ordinaryUsed - 1; }
      slots[index] := slots[index].(state := Free, port := 0, job := None);
    }

    /** The slot of a live ticket, if the ticket has not retired. */
    method Locate(ticket: nat) returns (r: Option<nat>)
      requires Valid()
      ensures r == Find(m, ticket)
      ensures r.Some? ==> Holds(m, r.value, ticket) && r.value < CAPACITY
    {
      hide Reachable;
      r := Scan(ticket);
      if r.Some? { FoundAt(m, ticket, r.value); }
    }

    method Scan(ticket: nat) returns (r: Option<nat>)
      requires slots.Length == CAPACITY && slots[..] == m.slots
      ensures r.Some? ==> Holds(m, r.value, ticket) && r.value < CAPACITY
      ensures r.None? ==> forall i :: !Holds(m, i, ticket)
    {
      for index := 0 to CAPACITY
        invariant forall i: nat :: i < index ==> !Holds(m, i, ticket)
      {
        if slots[index].state != Free && slots[index].ticket == ticket {
          return Some(index);
        }
      }
      return None;
    }

    // ------------------------------------------------------------------- admission

    /** Reserves a slot for one unit of work and returns its ticket. */
    method Reserve(port: CompletionPort, record: Record, control: bool) returns (r: Result<nat>)
      requires Valid()
      modifies this, slots, Ports()
      ensures Valid() && routes == old(routes)
      ensures var refusal := ReserveError(old(m), Knows(port), port.id, record, control);
        match refusal
        case Some(error) => r == Failure(error) && m == old(m)
        case None =>
          && r == Success(old(m).nextTicket)
          && Enabled(old(m), Event.Reserve(port.id, record, control))
          && m == Apply(old(m), Event.Reserve(port.id, record, control))
    {
      if !Knows(port) { return Failure(NotRegistered); }
      assert port.Is(m.ports[port.id]);
      if control && !record.kind.GoalResponse? && !record.kind.CancelResponse? { return Failure(InvalidArgument); }
      if stopping || (!control && !port.accepting) { return Failure(InvalidState); }
      if used == CAPACITY || (!control && ordinaryUsed == ORDINARY_LIMIT) { return Failure(ResourceExhausted); }
      if nextTicket == SIZE_MAX { return Failure(ResourceExhausted); }
      ReserveFacts(m);
      var index := FindFree();
      r := Success(nextTicket);
      Occupy(port, index, record, control);
    }

    method FindFree() returns (index: nat)
      requires slots.Length == CAPACITY && HasFree(slots[..])
      ensures index < CAPACITY && index == FirstFree(slots[..])
    {
      index := 0;
      while index < CAPACITY
        invariant index <= CAPACITY && forall j :: 0 <= j < index ==> slots[..][j].state != Free
      {
        if slots[index].state == Free { return; }
        index := index + 1;
      }
      // "Native I/O capacity accounting is inconsistent": unreachable.
      assert false;
    }

    method Occupy(port: CompletionPort, index: nat, record: Record, control: bool)
      requires Valid() && Knows(port) && Enabled(m, Event.Reserve(port.id, record, control))
        && index == FirstFree(m.slots)
      modifies this, slots, port
      ensures Valid() && routes == old(routes)
      ensures m == Apply(old(m), Event.Reserve(port.id, record, control))
    {
      hide Reachable, CompletionPort.Is, Chain, Linked, FirstFree, HasFree, ReservedSlot, Separate, Mailboxes;
      Stamp(port.id, index, record, control);
      AdmitTicket(port);
      assert this !in Ports();
      StepReachable(m, Event.Reserve(port.id, record, control));
      m := Apply(m, Event.Reserve(port.id, record, control));
    }

    /** One outstanding ticket more on this route, every other mailbox as it was. */
    method AdmitTicket(port: CompletionPort)
      requires Separate() && Mailboxes(m.ports) && Knows(port)
      modifies port
      ensures Separate() && port.id in m.ports
      ensures Mailboxes(m.ports[port.id := m.ports[port.id].(outstanding := m.ports[port.id].outstanding + 1)])
    {
      hide CompletionPort.Is;
      assert port.Is(m.ports[port.id]);
      port.Admit(m.ports[port.id]);
    }

    method Stamp(portId: nat, index: nat, record: Record, control: bool)
      requires slots.Length == CAPACITY && slots[..] == m.slots && index < CAPACITY
      requires nextTicket == m.nextTicket && Mailboxes(m.ports)
      modifies `used, `ordinaryUsed, `nextTicket, slots
      ensures slots[..] == m.slots[index := ReservedSlot(m, portId, record, control, m.slots[index])]
      ensures used == old(used) + 1 && ordinaryUsed == (if control then old(ordinaryUsed) else old(ordinaryUsed) + 1)
      ensures nextTicket == old(nextTicket) + 1 && Mailboxes(m.ports)
    {
      slots[index] := slots[index].(
        ticket := nextTicket, state := Reserved, control := control, priority := IsPriority(record.kind),
        retries := 0, completion := record.(executorId := portId), port := portId);
      nextTicket := nextTicket + 1;
      used := used + 1;
      if !control { ordinaryUsed := ordinaryUsed + 1; }
    }

    /** Attaches the prepared job to a reserved ticket. */
    method Install(ticket: nat, job: Option<nat>) returns (r: Result<()>)
      requires Valid()
      modifies this, slots
      ensures Valid() && routes == old(routes)
      ensures
        match (job, Find(old(m), ticket))
        case (None, _) => r == Failure(InvalidArgument) && m == old(m)
        case (_, None) => r == Failure(NotFound) && m == old(m)
        case (Some(j), Some(i)) =>
          if Enabled(old(m), Event.Install(i, j)) then r == Success(()) && m == Apply(old(m), Event.Install(i, j))
          else r == Failure(InvalidState) && m == old(m)
    {
      if job.None? { return Failure(InvalidArgument); }
      var found := Locate(ticket);
      if found.None? { return Failure(NotFound); }
      var index := found.value;
      if slots[index].state != Reserved || slots[index].job.Some? { return Failure(InvalidState); }
      SetSlot(index, slots[index].(job := job), Event.Install(index, job.value));
      return Success(());
    }

    /** The events that only rewrite one slot. */
    method SetSlot(index: nat, slot: Slot, ghost e: Event)
      requires Valid() && index < CAPACITY && Enabled(m, e)
      requires Apply(m, e) == m.(slots := m.slots[index := slot], worker := Apply(m, e).worker)
      modifies this, slots
      ensures Valid() && routes == old(routes) && m == Apply(old(m), e)
    {
      hide Reachable, CompletionPort.Is, Chain, Apply, Enabled;
      slots[index] := slot;
      StepReachable(m, e);
      m := Apply(m, e);
    }

    /** Hands a prepared job to the worker. */
    method EnqueuePrepared(ticket: nat) returns (r: Result<()>)
      requires Valid()
      modifies this, slots, next
      ensures Valid() && routes == old(routes)
      ensures
        match Find(old(m), ticket)
        case None => r == Failure(NotFound) && m == old(m)
        case Some(i) =>
          if Enabled(old(m), Event.Enqueue(i)) then r == Success(()) && m == Apply(old(m), Event.Enqueue(i))
          else r == Failure(InvalidState) && m == old(m)
    {
      var found := Locate(ticket);
      if found.None? { return Failure(NotFound); }
      var index := found.value;
      if slots[index].state != Reserved || slots[index].job.None? { return Failure(InvalidState); }
      Launch(index);
      return Success(());
    }

    method Launch(index: nat)
      requires Valid() && Enabled(m, Event.Enqueue(index)) && index < CAPACITY
      modifies this, slots, next
      ensures Valid() && routes == old(routes) && m == Apply(old(m), Event.Enqueue(index))
    {
      hide Reachable, CompletionPort.Is, Chain;
      Unlisted(m, index);
      ListFacts(m);
      StepReachable(m, Event.Enqueue(index));
      Ready(index);
      m := m.(history := m.history.(enqueued := m.history.enqueued + {m.slots[index].ticket}));
    }

    /** Takes a ticket that has not started yet out of its ready list and completes it as
        skipped.  False when the ticket has retired or was never or no longer queued. */
    method CancelQueued(ticket: nat) returns (cancelled: bool)
      requires Valid()
      modifies this, slots, next, Ports()
      ensures Valid() && routes == old(routes)
      ensures
        match Find(old(m), ticket)
        case None => !cancelled && m == old(m)
        case Some(i) =>
          cancelled == Enabled(old(m), Event.Cancel(i))
            && m == if cancelled then Apply(old(m), Event.Cancel(i)) else old(m)
    {
      var found := Locate(ticket);
      if found.None? { return false; }
      var index := found.value;
      if slots[index].state != Queued { return false; }
      QueuedFacts(m, index);
      Withdraw(index);
      return true;
    }

    method Withdraw(index: nat)
      requires Valid() && Enabled(m, Event.Cancel(index)) && index < CAPACITY
      requires |m.ports[m.slots[index].port].ring| < CAPACITY
      modifies this, slots, next, Ports()
      ensures Valid() && routes == old(routes) && m == Apply(old(m), Event.Cancel(index))
    {
      hide Reachable; hide CompletionPort.Is; hide Chain;
      StepReachable(m, Event.Cancel(index));
      ListFacts(m);
      Skip(index);
      Post(index);
    }

    /** The slot leaves its ready list as a skipped, completed one. */
    method Skip(index: nat)
      requires Coupled() && index < CAPACITY && index in ReadyList(m, m.slots[index].priority)
      requires Distinct(m.control) && Distinct(m.user) && forall x :: x in m.control ==> x !in m.user
      modifies this, slots, next
      ensures Coupled() && routes == old(routes) && m == Skipped(old(m), index)
    {
      hide CompletionPort.Is, Chain, Skipped, Distinct, Linked, Removed;
      SkippedFields(m, index);
      Detach(slots[index].priority, index);
      MarkSkipped(Skipped(m, index), index);
    }

    /** The slot's own half of skipping, once it has left its list. */
    method MarkSkipped(ghost t: State, index: nat)
      requires slots.Length == CAPACITY && next.Length == CAPACITY && index < CAPACITY && slots[..] == m.slots
      requires Linked(t.control, t.user) && Separate() && Mailboxes(t.ports) && Counters()
      requires t.slots == m.slots[index :=
        m.slots[index].(completion := m.slots[index].completion.(skipped := true), state := Completed)]
      requires t.used == m.used && t.ordinary == m.ordinary && t.nextTicket == m.nextTicket
      requires t.nextOwner == m.nextOwner && t.stopping == m.stopping
      modifies this`m, slots
      ensures Coupled() && m == t
    {
      hide CompletionPort.Is, Chain;
      slots[index] := slots[index].(completion := slots[index].completion.(skipped := true), state := Completed);
      m := t;
    }

    method Detach(priority: bool, index: nat)
      requires next.Length == CAPACITY && Linked(m.control, m.user) && index in ReadyList(m, priority)
      requires Distinct(m.control) && Distinct(m.user) && forall x :: x in m.control ==> x !in m.user
      modifies `controlQueue, `userQueue, next
      ensures Linked(if priority then Removed(m.control, index) else m.control,
                     if priority then m.user else Removed(m.user, index))
    {
      if priority {
        controlQueue := Unlink(controlQueue, index, m.control, userQueue, m.user);
      } else {
        userQueue := Unlink(userQueue, index, m.user, controlQueue, m.control);
      }
    }

    /** Gives up a reserved ticket that was never enqueued. */
    method Abandon(ticket: nat) returns (r: Result<()>)
      requires Valid()
      modifies this, slots, Ports()
      ensures Valid() && routes == old(routes)
      ensures
        match Find(old(m), ticket)
        case None => r == Failure(NotFound) && m == old(m)
        case Some(i) =>
          if Enabled(old(m), Event.Abandon(i)) then r == Success(()) && m == Apply(old(m), Event.Abandon(i))
          else r == Failure(Busy) && m == old(m)
    {
      var found := Locate(ticket);
      if found.None? { return Failure(NotFound); }
      var index := found.value;
      if slots[index].state != Reserved { return Failure(Busy); }
      LiveFacts(m, index);
      StepReachable(m, Event.Abandon(index));
      ReleaseSlot(index);
      return Success(());
    }

    // ---------------------------------------------------------------------- worker

    /** Moves every delayed ticket whose time has come to its ready list; `earliest` is the
        next time one of the others is due. */
    method PromoteDue(now: int) returns (earliest: Option<int>)
      requires Valid() && m.worker == Scheduling
      modifies this, slots, next
      ensures Valid() && routes == old(routes)
      ensures |old(m).slots| == CAPACITY && m == Promoted(old(m), now, CAPACITY)
      ensures IsEarliest(m.slots, now, CAPACITY, earliest)
    {
      hide Reachable, CompletionPort.Is, Chain, Mailboxes, Separate, Linked;
      earliest := None;
      for delayed := 0 to CAPACITY
        invariant Valid() && routes == old(routes) && m == Promoted(old(m), now, delayed)
        invariant IsEarliest(m.slots, now, delayed, earliest)
      {
        earliest := PromoteOne(delayed, now, earliest);
      }
    }

    method PromoteOne(delayed: nat, now: int, before: Option<int>) returns (earliest: Option<int>)
      requires Valid() && m.worker == Scheduling && delayed < CAPACITY && IsEarliest(m.slots, now, delayed, before)
      modifies this, slots, next
      ensures Valid() && routes == old(routes)
      ensures m == if Due(old(m).slots[delayed], now) then MakeReady(old(m), delayed) else old(m)
      ensures IsEarliest(m.slots, now, delayed + 1, earliest)
    {
      hide Reachable; hide CompletionPort.Is; hide Chain; hide IsEarliest;
      earliest := before;
      EarliestStep(m.slots, now, delayed, before);
      var candidate := slots[delayed];
      if candidate.state != RetryWaiting { return; }
      if candidate.retryDue <= now {
        Unlisted(m, delayed);
        ListFacts(m);
        StepReachable(m, Event.Promote(delayed, now));
        Ready(delayed);
      } else if earliest.None? || candidate.retryDue < earliest.value {
        earliest := Some(candidate.retryDue);
      }
    }

    /** One pass of the worker's scheduling section. */
    method Schedule(now: int) returns (decision: Decision)
      requires Valid() && m.worker == Scheduling
      modifies this, slots, next
      ensures Valid() && routes == old(routes) && |old(m).slots| == CAPACITY
      ensures var due := Promoted(old(m), now, CAPACITY);
        if due.control != [] || due.user != [] then
          Enabled(due, Event.Start) && decision == RunSlot(NextReady(due)) && m == Apply(due, Event.Start)
        else if due.stopping && Enabled(due, Event.Exit) then decision == Quit && m == Apply(due, Event.Exit)
        else m == due && decision.Sleep? && IsEarliest(due.slots, now, CAPACITY, decision.until)
    {
      hide Reachable, CompletionPort.Is, Chain, Promoted;
      var earliest := PromoteDue(now);
      HeadTells(next[..], controlQueue, m.control);
      HeadTells(next[..], userQueue, m.user);
      if controlQueue.head != NIL {
        var index := Take(true);
        return RunSlot(index);
      }
      if userQueue.head != NIL {
        var index := Take(false);
        return RunSlot(index);
      }
      if stopping && earliest.None? {
        Leave();
        return Quit;
      }
      return Sleep(earliest);
    }

    /** The worker thread returns. */
    ghost method Leave()
      requires Valid() && Enabled(m, Event.Exit)
      modifies `m
      ensures Valid() && routes == old(routes) && m == Apply(old(m), Event.Exit)
    {
      hide Reachable, CompletionPort.Is, Chain;
      StepReachable(m, Event.Exit);
      m := Apply(m, Event.Exit);
    }

    /** Pops the head of a list and marks its slot Running. */
    method Take(priority: bool) returns (index: nat)
      requires Valid() && m.worker == Scheduling && ReadyList(m, priority) != [] && (!priority ==> m.control == [])
      modifies this, slots
      ensures Valid() && routes == old(routes) && Enabled(old(m), Event.Start)
      ensures index == NextReady(old(m)) && m == Apply(old(m), Event.Start)
    {
      hide Reachable, CompletionPort.Is, Chain, Linked, Separate;
      StartFacts(m);
      StepReachable(m, Event.Start);
      index := PopReady(priority);
      slots[index] := slots[index].(state := Running);
      m := Apply(m, Event.Start);
    }

    method PopReady(priority: bool) returns (index: nat)
      requires next.Length == CAPACITY && Linked(m.control, m.user) && ReadyList(m, priority) != []
      modifies `controlQueue, `userQueue
      ensures index == ReadyList(m, priority)[0]
      ensures Linked(if priority then m.control[1..] else m.control, if priority then m.user else m.user[1..])
    {
      if priority {
        index, controlQueue := Pop(controlQueue, m.control);
      } else {
        index, userQueue := Pop(userQueue, m.user);
      }
    }

    /** The rest of the worker's turn, after `Schedule` returned `index`.  Each event is a
        section of its own: other threads may act between any two of them. */
    method Turn(index: nat, job: Answers, now: int)
      requires Valid() && m.worker == Holding(index)
      modifies this, slots, Ports()
      ensures Valid() && routes == old(routes) && index < |old(m).slots|
      ensures Follows(old(m), TurnEvents(old(m), job, now), m)
    {
      hide Reachable, CompletionPort.Is, Chain, Mailboxes, Separate, Linked;
      HeldFacts(m);
      ghost var s0 := m;
      SetSlot(index, slots[index].(completion := job.ran), Event.Execute(job.ran));
      ghost var s1 := m;
      if ShouldRetry(job.ran, slots[index].retries, job.retryable, job.maxAttempts) {
        var slot := slots[index].(state := RetryWaiting, retryDue := now + BackOff(slots[index].retries),
                                  retries := slots[index].retries + 1);
        SetSlot(index, slot, Event.Retry(now));
        FollowsTwo(s0, Event.Execute(job.ran), Event.Retry(now));
        return;
      }
      ghost var prefix := [Event.Execute(job.ran)];
      FollowsOne(s0, Event.Execute(job.ran));
      if job.ran.failed {
        SetSlot(index, slots[index].(completion := job.cleaned), Event.Execute(job.cleaned));
        FollowsTwo(s0, Event.Execute(job.ran), Event.Execute(job.cleaned));
        prefix := prefix + [Event.Execute(job.cleaned)];
      }
      Finish(index, job.cleanupPending, now, s0, prefix);
    }

    method Finish(index: nat, cleanupPending: bool, now: int, ghost s0: State, ghost prefix: seq<Event>)
      requires Valid() && m.worker == Holding(index) && index < CAPACITY && Follows(s0, prefix, m)
      modifies this, slots, Ports()
      ensures Valid() && routes == old(routes)
      ensures Follows(s0, prefix + (if cleanupPending then [Event.Park(now)] else [Event.Complete, Event.Append]), m)
    {
      hide Reachable, CompletionPort.Is, Chain, Follows, Mailboxes, Separate, Linked;
      ghost var s1 := m;
      if cleanupPending {
        SetSlot(index, slots[index].(state := RetryWaiting, retryDue := now + 50 * MILLISECOND), Event.Park(now));
        FollowsMore(s0, prefix, s1, Event.Park(now));
        return;
      }
      SetSlot(index, slots[index].(state := Completed), Event.Complete);
      FollowsMore(s0, prefix, s1, Event.Complete);
      s1 := m;
      AppendCompletion(index);
      FollowsMore(s0, prefix + [Event.Complete], s1, Event.Append);
      assert prefix + [Event.Complete] + [Event.Append] == prefix + [Event.Complete, Event.Append];
    }

    /** The last section of a turn, under the mailbox mutex only. */
    method AppendCompletion(index: nat)
      requires Valid() && m.worker == Publishing(index) && index < CAPACITY
      modifies this, Ports()
      ensures Valid() && routes == old(routes)
      ensures Enabled(old(m), Event.Append) && m == Apply(old(m), Event.Append)
    {
      hide Reachable, CompletionPort.Is, Chain, Mailboxes, Separate, Linked;
      PublishingFacts(m);
      StepReachable(m, Event.Append);
      Post(index);
      m := m.(worker := Scheduling);
    }

    // ----------------------------------------------------------------------- owners

    /** The oldest completion of the mailbox, left in place. */
    method Peek(port: CompletionPort) returns (r: Result<Option<(nat, Record)>>)
      requires Valid()
      ensures !Knows(port) ==> r == Failure(NotRegistered)
      ensures Knows(port) ==>
        var ring := m.ports[port.id].ring;
        if ring == [] then r == Success(None)
        else ring[0] < |m.slots| && r == Success(Some((m.slots[ring[0]].ticket, m.slots[ring[0]].completion)))
    {
      hide Reachable; hide Chain;
      if !Knows(port) { return Failure(NotRegistered); }
      assert port.Is(m.ports[port.id]);
      if port.count == 0 { return Success(None); }
      HeadFacts(m, port.id);
      var slot := slots[port.completions[port.head]];
      return Success(Some((slot.ticket, slot.completion)));
    }

    /** Retires the oldest completion; any other ticket is refused. */
    method Acknowledge(port: CompletionPort, ticket: nat) returns (r: Result<()>)
      requires Valid()
      modifies this, slots, Ports()
      ensures Valid() && routes == old(routes)
      ensures !Knows(port) ==> r == Failure(NotRegistered) && m == old(m)
      ensures Knows(port) ==>
        match Find(old(m), ticket)
        case None => r == Failure(NotFound) && m == old(m)
        case Some(i) =>
          var ring := old(m).ports[port.id].ring;
          if ring != [] && ring[0] == i then
            r == Success(()) && Enabled(old(m), Event.Acknowledge(port.id))
              && m == Apply(old(m), Event.Acknowledge(port.id))
          else r == Failure(InvalidState) && m == old(m)
    {
      hide Reachable; hide Chain;
      if !Knows(port) { return Failure(NotRegistered); }
      var found := Locate(ticket);
      if found.None? { return Failure(NotFound); }
      var index := found.value;
      assert port.Is(m.ports[port.id]);
      if port.count != 0 { HeadFacts(m, port.id); }
      if port.count == 0 || port.completions[port.head] != index || slots[index].port != port.id {
        return Failure(InvalidState);
      }
      Consume(port, index);
      return Success(());
    }

    method Consume(port: CompletionPort, index: nat)
      requires Valid() && Knows(port) && Enabled(m, Event.Acknowledge(port.id)) && index == m.ports[port.id].ring[0]
      requires index < CAPACITY
      modifies this, slots, Ports()
      ensures Valid() && routes == old(routes) && m == Apply(old(m), Event.Acknowledge(port.id))
    {
      hide Reachable; hide CompletionPort.Is; hide Chain;
      StepReachable(m, Event.Acknowledge(port.id));
      Unpost(port);
      ReleaseSlot(index);
    }

    /** The mailbox head leaves the ring buffer. */
    method Unpost(port: CompletionPort)
      requires Coupled() && Knows(port) && m.ports[port.id].ring != [] && m.ports[port.id].ring[0] < |m.slots|
      modifies this, port
      ensures Coupled() && routes == old(routes) && m == Unposted(old(m), port.id)
    {
      hide CompletionPort.Is; hide Chain;
      assert port.Is(m.ports[port.id]);
      port.Advance(m.ports[port.id]);
      m := Unposted(m, port.id);
    }

    /** The number of live slots this route owns. */
    method Outstanding(port: CompletionPort) returns (r: Result<nat>)
      requires Valid()
      ensures r == if Knows(port) then Success(|Owned(m.slots, port.id)|) else Failure(NotRegistered)
    {
      hide Reachable; hide Chain;
      if !Knows(port) { return Failure(NotRegistered); }
      assert port.Is(m.ports[port.id]);
      OutstandingFacts(m, port.id);
      return Success(port.outstanding);
    }

    /** Refuses while a ticket is live or a route is open, else stops admission for ever. */
    method Shutdown() returns (r: Result<()>)
      requires Valid()
      modifies this
      ensures Valid() && routes == old(routes)
      ensures if Live(old(m).slots) != {} || old(routes) != map[] then r == Failure(Busy) && m == old(m)
              else r == Success(()) && m == Apply(old(m), Event.BeginStop) && m.used == 0 && m.ports == map[]
    {
      hide Reachable; hide CompletionPort.Is; hide Chain;
      LiveCount(m);
      if used != 0 || routes != map[] { return Failure(Busy); }
      stopping := true;
      StepReachable(m, Event.BeginStop);
      m := Apply(m, Event.BeginStop);
      return Success(());
    }
  }

  datatype Decision = RunSlot(index: nat) | Sleep(until: Option<int>) | Quit

  /** `earliest` is the least due time of the slots below `n` that still wait for a retry. */
  ghost predicate IsEarliest(slots: seq<Slot>, now: int, n: nat, earliest: Option<int>)
    requires n <= |slots|
  {
    match earliest
    case None => forall i :: 0 <= i < n ==> slots[i].state != RetryWaiting
    case Some(time) =>
      && time > now
      && (exists i :: 0 <= i < n && slots[i].state == RetryWaiting && slots[i].retryDue == time)
      && (forall i :: 0 <= i < n && slots[i].state == RetryWaiting ==> slots[i].retryDue >= time)
  }

  lemma EarliestStep(slots: seq<Slot>, now: int, n: nat, earliest: Option<int>)
    requires n < |slots| && IsEarliest(slots, now, n, earliest)
    ensures slots[n].state != RetryWaiting ==> IsEarliest(slots, now, n + 1, earliest)
    ensures slots[n].state == RetryWaiting && slots[n].retryDue > now ==>
      IsEarliest(slots, now, n + 1,
        if earliest.None? || slots[n].retryDue < earliest.value then Some(slots[n].retryDue) else earliest)
    ensures IsEarliest(slots[n := slots[n].(state := Queued)], now, n + 1, earliest)
  {
    var queued := slots[n := slots[n].(state := Queued)];
    if earliest.Some? {
      var i :| 0 <= i < n && slots[i].state == RetryWaiting && slots[i].retryDue == earliest.value;
      assert queued[i] == slots[i];
    }
  }

  /** `t` is reached from `s` by exactly these events, all of them enabled. */
  ghost predicate Follows(s: State, events: seq<Event>, t: State)
    decreases |events|
  {
    if events == [] then t == s
    else Enabled(s, events[0]) && Follows(Apply(s, events[0]), events[1..], t)
  }

  lemma FollowsOne(s: State, e: Event)
    requires Enabled(s, e)
    ensures Follows(s, [e], Apply(s, e))
  {
    assert Follows(Apply(s, e), [], Apply(s, e));
  }

  lemma FollowsTwo(s: State, e: Event, f: Event)
    requires Enabled(s, e) && Enabled(Apply(s, e), f)
    ensures Follows(s, [e, f], Apply(Apply(s, e), f))
    ensures Follows(s, [e] + [f], Apply(Apply(s, e), f))
  {
    FollowsOne(Apply(s, e), f);
    assert [e, f][1..] == [f];
    assert [e] + [f] == [e, f];
  }

  lemma FollowsMore(s: State, events: seq<Event>, t: State, e: Event)
    requires Follows(s, events, t) && Enabled(t, e)
    ensures Follows(s, events + [e], Apply(t, e))
    decreases |events|
  {
    if events == [] {
      FollowsOne(s, e);
    } else {
      FollowsMore(Apply(s, events[0]), events[1..], t, e);
      assert (events + [e])[1..] == events[1..] + [e];
    }
  }

  lemma OutstandingFacts(s: State, p: nat)
    requires Reachable(s) && p in s.ports
    ensures |s.ports[p].ring| <= s.ports[p].outstanding == |Owned(s.slots, p)|
  {
    ReachableInvariant(s);
    MailboxIsOutstanding(s, p);
  }

  lemma LiveCount(s: State)
    requires Reachable(s)
    ensures s.used == |Live(s.slots)|
  {
    ReachableInvariant(s);
  }

  /** The first half of `acknowledge`. */
  ghost function Unposted(s: State, p: nat): State
    requires p in s.ports && s.ports[p].ring != [] && s.ports[p].ring[0] < |s.slots|
  {
    var t := s.slots[s.ports[p].ring[0]].ticket;
    s.(ports := s.ports[p := s.ports[p].(ring := s.ports[p].ring[1..])],
       history := s.history.(acknowledged := s.history.acknowledged[p := At(s.history.acknowledged, p) + [t]]))
  }

  /** The first half of `cancel_queued`. */
  ghost function Skipped(s: State, i: nat): State
    requires i < |s.slots| && i in ReadyList(s, s.slots[i].priority)
  {
    var slot := s.slots[i].(completion := s.slots[i].completion.(skipped := true), state := Completed);
    var list := Removed(ReadyList(s, s.slots[i].priority), i);
    var s1 := WithReadyList(s.(slots := s.slots[i := slot]), s.slots[i].priority, list);
    s1.(history := s.history.(cancelled := s.history.cancelled + {slot.ticket}))
  }

  lemma SkippedFields(s: State, i: nat)
    requires i < |s.slots| && i in ReadyList(s, s.slots[i].priority)
    ensures var t := Skipped(s, i);
      var priority := s.slots[i].priority;
      && t.slots == s.slots[i := s.slots[i].(completion := s.slots[i].completion.(skipped := true), state := Completed)]
      && t.control == (if priority then Removed(s.control, i) else s.control)
      && t.user == (if priority then s.user else Removed(s.user, i))
      && t.ports == s.ports && t.used == s.used && t.ordinary == s.ordinary
      && t.nextTicket == s.nextTicket && t.nextOwner == s.nextOwner && t.stopping == s.stopping
  {
    hide Removed;
  }

  /** Bypassing position `k` of a chain removes exactly that element. */
  lemma Unlinked(next: seq<nat>, next': seq<nat>, q: Queue, list: seq<nat>, k: nat)
    requires Chain(next, q, list) && Distinct(list) && k < |list| && |next'| == CAPACITY
    requires k == 0 ==> next' == next
    requires k > 0 ==> next' == next[list[k - 1] := next[list[k]]]
    ensures Chain(next', Queue(if k == 0 then next[list[0]] else q.head,
                               if k < |list| - 1 then q.tail else if k == 0 then NIL else list[k - 1]),
                  list[..k] + list[k + 1..])
  {
    var rest := list[..k] + list[k + 1..];
    forall j | 0 <= j < |rest| - 1
      ensures next'[rest[j]] == rest[j + 1]
    {
      var j' := if j < k then j else j + 1;
      assert rest[j] == list[j'];
      assert j != k - 1 && k > 0 ==> list[j'] != list[k - 1];
    }
  }
}
