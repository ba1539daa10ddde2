/** The histories: every ticket is freed once, published once to its own port, and
    acknowledged in publication order. */
module DispatcherHistory {
  import opened Common
  import opened DispatcherModel
  import opened DispatcherInvariant
  import opened DispatcherCounts

  lemma RingInRange(s: State, p: nat)
    requires RingsOk(s)
    ensures forall k :: 0 <= k < |Ring(s, p)| ==> Ring(s, p)[k] < |s.slots|
    ensures forall k :: 0 <= k < |Ring(s, p)| ==>
      s.slots[Ring(s, p)[k]].state == Completed && s.slots[Ring(s, p)[k]].port == p
  {
    if p in s.ports {
      assert RingOk(s.slots, s.ports[p].ring, p, s.worker);
    }
  }

  lemma MailboxFrame(s: State, t: State, p: nat)
    requires RingsOk(s) && RingsOk(t) && MailboxesOk(s)
    requires |t.slots| == |s.slots| && Ring(t, p) == Ring(s, p)
    requires forall k :: 0 <= k < |Ring(s, p)| && Ring(s, p)[k] < |s.slots| ==>
      t.slots[Ring(s, p)[k]].ticket == s.slots[Ring(s, p)[k]].ticket
    requires At(t.history.published, p) == At(s.history.published, p)
    requires At(t.history.acknowledged, p) == At(s.history.acknowledged, p)
    requires forall x :: x in s.history.owner ==> x in t.history.owner && t.history.owner[x] == s.history.owner[x]
    requires forall x :: x in s.history.freed ==> x in t.history.freed
    requires s.history.enqueued <= t.history.enqueued
    ensures (forall k :: 0 <= k < |Ring(t, p)| ==> Ring(t, p)[k] < |t.slots|) && PublishedOk(t, p)
  {
    RingInRange(s, p);
    RingInRange(t, p);
    assert PublishedOk(s, p);
    assert Tickets(t.slots, Ring(t, p)) == Tickets(s.slots, Ring(s, p));
  }

  /** A live slot changes state only, and no mailbox changes. */
  lemma MailboxesFrame(s: State, t: State, i: nat)
    requires RingsOk(s) && RingsOk(t) && MailboxesOk(s) && OneSlot(s, t, i)
    requires t.slots[i].ticket == s.slots[i].ticket || s.slots[i].state != Completed
    requires forall p :: Ring(t, p) == Ring(s, p)
    requires t.history.published == s.history.published && t.history.acknowledged == s.history.acknowledged
    requires forall x :: x in s.history.owner ==> x in t.history.owner && t.history.owner[x] == s.history.owner[x]
    requires forall x :: x in s.history.freed ==> x in t.history.freed
    requires s.history.enqueued <= t.history.enqueued
    ensures MailboxesOk(t)
  {
    forall p: nat
      ensures (forall k :: 0 <= k < |Ring(t, p)| ==> Ring(t, p)[k] < |t.slots|) && PublishedOk(t, p)
    {
      RingInRange(s, p);
      MailboxFrame(s, t, p);
    }
  }

  lemma FreedFrame(s: State, t: State, i: nat)
    requires FreedOk(s) && OneSlot(s, t, i)
    requires s.slots[i].state != Free && t.slots[i].state != Free && t.slots[i].ticket == s.slots[i].ticket
    requires t.history.freed == s.history.freed && t.nextTicket == s.nextTicket
    ensures FreedOk(t)
  {
    forall x | 1 <= x < t.nextTicket && x !in t.history.freed
      ensures exists j :: Holds(t, j, x)
    {
      var j :| Holds(s, j, x);
      assert Holds(t, j, x);
    }
  }

  lemma SteadyHistory(s: State, t: State, i: nat)
    requires RingsOk(s) && RingsOk(t) && Histories(s) && OneSlot(s, t, i)
    requires s.slots[i].state != Free && t.slots[i].state != Free
    requires t.slots[i].ticket == s.slots[i].ticket && t.slots[i].port == s.slots[i].port
    requires s.slots[i].state == Reserved <==> t.slots[i].state == Reserved
    requires forall p :: Ring(t, p) == Ring(s, p)
    requires t.nextTicket == s.nextTicket
    requires t.history == s.history.(started := t.history.started)
    ensures Histories(t)
  {
    FreedFrame(s, t, i);
    MailboxesFrame(s, t, i);
  }

  lemma EnqueueProgress(s: State, i: nat)
    requires SlotsOk(s) && TicketsDistinct(s) && OwnersOk(s) && FreedOk(s) && ProgressOk(s) && Enabled(s, Enqueue(i))
    ensures ProgressOk(Apply(s, Enqueue(i))) && OwnersOk(Apply(s, Enqueue(i)))
  {
  }

  lemma EnqueueHistory(s: State, i: nat)
    requires Structure(s) && Histories(s) && Enabled(s, Enqueue(i)) && RingsOk(Apply(s, Enqueue(i)))
    ensures Histories(Apply(s, Enqueue(i)))
  {
    var t := Apply(s, Enqueue(i));
    FreedFrame(s, t, i);
    MailboxesFrame(s, t, i);
    EnqueueProgress(s, i);
  }

  /** Appending slot `i` to the mailbox of its port publishes its ticket for the first time. */
  lemma PublishMailbox(s: State, t: State, i: nat)
    requires RingsOk(s) && RingsOk(t) && MailboxesOk(s) && OwnersOk(s) && FreedOk(s) && TicketsDistinct(s)
    requires OneSlot(s, t, i) && s.slots[i].state != Free && s.slots[i].port in s.ports
    requires t.slots[i].ticket == s.slots[i].ticket
    requires i !in Ring(s, s.slots[i].port) && Ring(t, s.slots[i].port) == Ring(s, s.slots[i].port) + [i]
    requires t.history.acknowledged == s.history.acknowledged
    requires At(t.history.published, s.slots[i].port) == At(s.history.published, s.slots[i].port) + [s.slots[i].ticket]
    requires t.history.owner == s.history.owner && t.history.freed == s.history.freed
    requires t.history.enqueued == s.history.enqueued
    ensures forall k :: 0 <= k < |Ring(t, s.slots[i].port)| ==> Ring(t, s.slots[i].port)[k] < |t.slots|
    ensures PublishedOk(t, s.slots[i].port)
  {
    var p := s.slots[i].port;
    var x := s.slots[i].ticket;
    RingInRange(s, p);
    RingInRange(t, p);
    assert PublishedOk(s, p);
    var before := Tickets(s.slots, Ring(s, p));
    assert x !in before by {
      forall k | 0 <= k < |before| ensures before[k] != x {
        assert s.slots[Ring(s, p)[k]].ticket == before[k];
        assert Ring(s, p)[k] != i;
      }
    }
    assert x !in At(s.history.acknowledged, p);
    assert Tickets(t.slots, Ring(t, p)) == before + [x];
  }

  lemma PublishMailboxes(s: State, t: State, i: nat)
    requires RingsOk(s) && RingsOk(t) && MailboxesOk(s) && OwnersOk(s) && FreedOk(s) && TicketsDistinct(s)
    requires OneSlot(s, t, i) && s.slots[i].state != Free && s.slots[i].port in s.ports
    requires t.slots[i].ticket == s.slots[i].ticket
    requires i !in Ring(s, s.slots[i].port) && Ring(t, s.slots[i].port) == Ring(s, s.slots[i].port) + [i]
    requires forall p :: p != s.slots[i].port ==> i !in Ring(s, p) && Ring(t, p) == Ring(s, p)
    requires t.history.acknowledged == s.history.acknowledged
    requires t.history.published ==
      s.history.published[s.slots[i].port := At(s.history.published, s.slots[i].port) + [s.slots[i].ticket]]
    requires t.history.owner == s.history.owner && t.history.freed == s.history.freed
    requires t.history.enqueued == s.history.enqueued
    ensures MailboxesOk(t)
  {
    forall p: nat
      ensures (forall k :: 0 <= k < |Ring(t, p)| ==> Ring(t, p)[k] < |t.slots|) && PublishedOk(t, p)
    {
      if p == s.slots[i].port {
        PublishMailbox(s, t, i);
      } else {
        RingInRange(s, p);
        MailboxFrame(s, t, p);
      }
    }
  }

  lemma PublishProgress(s: State, t: State, i: nat)
    requires ProgressOk(s) && OwnersOk(s) && OneSlot(s, t, i)
    requires s.slots[i].state != Free && s.slots[i].state != Reserved
    requires t.slots[i].state != Free && t.slots[i].state != Reserved
    requires t.slots[i].ticket == s.slots[i].ticket && t.slots[i].port == s.slots[i].port
    requires t.nextTicket == s.nextTicket
    requires t.history.acknowledged == s.history.acknowledged
    requires t.history.published ==
      s.history.published[s.slots[i].port := At(s.history.published, s.slots[i].port) + [s.slots[i].ticket]]
    requires t.history.owner == s.history.owner && t.history.freed == s.history.freed
    requires t.history.enqueued == s.history.enqueued
    requires t.history.cancelled <= s.history.cancelled + {s.slots[i].ticket}
    ensures ProgressOk(t) && OwnersOk(t)
  {
    assert s.slots[i].ticket in At(t.history.published, s.slots[i].port);
  }

  lemma CancelRings(s: State, i: nat)
    requires Structure(s) && Enabled(s, Cancel(i))
    ensures OneSlot(s, Apply(s, Cancel(i)), i)
    ensures forall p :: i !in Ring(s, p)
    ensures forall p :: Ring(Apply(s, Cancel(i)), p) == if p == s.slots[i].port then Ring(s, p) + [i] else Ring(s, p)
  {
    forall p ensures i !in Ring(s, p) { RingInRange(s, p); }
  }

  lemma CancelMailboxes(s: State, i: nat)
    requires Structure(s) && Histories(s) && Enabled(s, Cancel(i)) && RingsOk(Apply(s, Cancel(i)))
    ensures MailboxesOk(Apply(s, Cancel(i)))
  {
    CancelRings(s, i);
    PublishMailboxes(s, Apply(s, Cancel(i)), i);
  }

  lemma CancelHistory(s: State, i: nat)
    requires Structure(s) && Histories(s) && Enabled(s, Cancel(i)) && RingsOk(Apply(s, Cancel(i)))
    ensures Histories(Apply(s, Cancel(i)))
  {
    var t := Apply(s, Cancel(i));
    FreedFrame(s, t, i);
    CancelMailboxes(s, i);
    PublishProgress(s, t, i);
  }

  lemma AppendHistory(s: State)
    requires Structure(s) && Histories(s) && Enabled(s, Append) && RingsOk(Apply(s, Append))
    ensures Histories(Apply(s, Append))
  {
    var t := Apply(s, Append);
    var i := s.worker.index;
    forall p ensures i !in Ring(s, p) {
      if p in s.ports { assert RingOk(s.slots, s.ports[p].ring, p, s.worker); }
    }
    FreedFrame(s, t, i);
    PublishMailboxes(s, t, i);
    PublishProgress(s, t, i);
  }

  lemma ReserveFreed(s: State, p: nat, record: Record, control: bool)
    requires SlotsOk(s) && FreedOk(s) && Enabled(s, Event.Reserve(p, record, control))
    ensures FreedOk(Apply(s, Event.Reserve(p, record, control)))
  {
    var t := Apply(s, Event.Reserve(p, record, control));
    var i := FirstFree(s.slots);
    forall x | 1 <= x < t.nextTicket && x !in t.history.freed
      ensures exists j :: Holds(t, j, x)
    {
      if x == s.nextTicket {
        assert Holds(t, i, x);
      } else {
        var j :| Holds(s, j, x);
        assert Holds(t, j, x);
      }
    }
  }

  lemma ReserveProgress(s: State, p: nat, record: Record, control: bool)
    requires SlotsOk(s) && OwnersOk(s) && FreedOk(s) && ProgressOk(s) && Enabled(s, Event.Reserve(p, record, control))
    ensures OwnersOk(Apply(s, Event.Reserve(p, record, control)))
      && ProgressOk(Apply(s, Event.Reserve(p, record, control)))
  {
    assert s.nextTicket !in s.history.owner;
  }

  lemma ReserveMailboxes(s: State, p: nat, record: Record, control: bool)
    requires SlotsOk(s) && RingsOk(s) && OwnersOk(s) && MailboxesOk(s) && Enabled(s, Event.Reserve(p, record, control))
    requires RingsOk(Apply(s, Event.Reserve(p, record, control)))
    ensures MailboxesOk(Apply(s, Event.Reserve(p, record, control)))
  {
    assert s.nextTicket !in s.history.owner;
    MailboxesFrame(s, Apply(s, Event.Reserve(p, record, control)), FirstFree(s.slots));
  }

  lemma ReserveHistory(s: State, p: nat, record: Record, control: bool)
    requires Structure(s) && Histories(s) && Enabled(s, Event.Reserve(p, record, control))
    requires RingsOk(Apply(s, Event.Reserve(p, record, control)))
    ensures Histories(Apply(s, Event.Reserve(p, record, control)))
  {
    ReserveFreed(s, p, record, control);
    ReserveProgress(s, p, record, control);
    ReserveMailboxes(s, p, record, control);
  }

  /** Freeing a slot retires its ticket, for the first and only time. */
  lemma ReleaseFreed(s: State, t: State, i: nat)
    requires TicketsDistinct(s) && SlotsOk(s) && FreedOk(s) && OneSlot(s, t, i)
    requires s.slots[i].state != Free && t.slots[i].state == Free
    requires t.history.freed == s.history.freed + [s.slots[i].ticket] && t.nextTicket == s.nextTicket
    ensures FreedOk(t)
  {
    forall x | 1 <= x < t.nextTicket && x !in t.history.freed
      ensures exists j :: Holds(t, j, x)
    {
      assert x != s.slots[i].ticket by { assert s.slots[i].ticket == t.history.freed[|s.history.freed|]; }
      assert forall k :: 0 <= k < |s.history.freed| ==> t.history.freed[k] == s.history.freed[k];
      var j :| Holds(s, j, x);
      assert Holds(t, j, x);
    }
  }

  lemma AbandonHistory(s: State, i: nat)
    requires Structure(s) && Histories(s) && Enabled(s, Abandon(i)) && RingsOk(Apply(s, Abandon(i)))
    ensures Histories(Apply(s, Abandon(i)))
  {
    var t := Apply(s, Abandon(i));
    ReleaseFreed(s, t, i);
    MailboxesFrame(s, t, i);
    AbandonProgress(s, i);
  }

  lemma AbandonProgress(s: State, i: nat)
    requires SlotsOk(s) && OwnersOk(s) && FreedOk(s) && ProgressOk(s) && Enabled(s, Abandon(i))
    ensures OwnersOk(Apply(s, Abandon(i))) && ProgressOk(Apply(s, Abandon(i)))
  {
    var t := Apply(s, Abandon(i));
    forall x | x in t.history.freed && x in t.history.enqueued
      ensures x in s.history.freed
    {
      assert x != s.slots[i].ticket;
    }
  }

  lemma TicketsTail(slots: seq<Slot>, slots': seq<Slot>, ring: seq<nat>)
    requires ring != [] && forall k :: 0 <= k < |ring| ==> ring[k] < |slots|
    requires |slots'| == |slots| && forall i :: 0 <= i < |slots| ==> slots'[i].ticket == slots[i].ticket
    ensures Tickets(slots, ring) == [slots[ring[0]].ticket] + Tickets(slots', ring[1..])
  {
  }

  /** Moving the head of the mailbox to the acknowledged history keeps the published one. */
  lemma HeadAcknowledged(s: State, t: State, p: nat, x: nat)
    requires Ring(s, p) != [] && Ring(t, p) == Ring(s, p)[1..] && |t.slots| == |s.slots|
    requires forall k :: 0 <= k < |Ring(s, p)| ==> Ring(s, p)[k] < |s.slots|
    requires forall i :: 0 <= i < |s.slots| ==> t.slots[i].ticket == s.slots[i].ticket
    requires x == s.slots[Ring(s, p)[0]].ticket && x in s.history.enqueued
    requires PublishedOk(s, p)
    requires t.history.published == s.history.published && t.history.owner == s.history.owner
    requires t.history.enqueued == s.history.enqueued
    requires At(t.history.acknowledged, p) == At(s.history.acknowledged, p) + [x]
    requires t.history.freed == s.history.freed + [x]
    ensures (forall k :: 0 <= k < |Ring(t, p)| ==> Ring(t, p)[k] < |t.slots|) && PublishedOk(t, p)
  {
    TicketsTail(s.slots, t.slots, Ring(s, p));
    assert t.history.freed[|s.history.freed|] == x;
  }

  lemma AcknowledgeMailbox(s: State, p: nat)
    requires Structure(s) && Histories(s) && Enabled(s, Acknowledge(p))
    ensures var t := Apply(s, Acknowledge(p));
            (forall k :: 0 <= k < |Ring(t, p)| ==> Ring(t, p)[k] < |t.slots|) && PublishedOk(t, p)
  {
    RingInRange(s, p);
    assert PublishedOk(s, p);
    HeadAcknowledged(s, Apply(s, Acknowledge(p)), p, s.slots[Ring(s, p)[0]].ticket);
  }

  lemma AcknowledgeMailboxes(s: State, p: nat)
    requires Structure(s) && Histories(s) && Enabled(s, Acknowledge(p)) && RingsOk(Apply(s, Acknowledge(p)))
    ensures MailboxesOk(Apply(s, Acknowledge(p)))
  {
    var t := Apply(s, Acknowledge(p));
    forall q: nat
      ensures (forall k :: 0 <= k < |Ring(t, q)| ==> Ring(t, q)[k] < |t.slots|) && PublishedOk(t, q)
    {
      if q == p {
        AcknowledgeMailbox(s, p);
      } else {
        RingInRange(s, q);
        MailboxFrame(s, t, q);
      }
    }
  }

  lemma AcknowledgeProgress(s: State, p: nat)
    requires Structure(s) && Histories(s) && Enabled(s, Acknowledge(p))
    ensures OwnersOk(Apply(s, Acknowledge(p))) && ProgressOk(Apply(s, Acknowledge(p)))
  {
    var t := Apply(s, Acknowledge(p));
    var x := s.slots[s.ports[p].ring[0]].ticket;
    assert x in At(t.history.acknowledged, p) by {
      assert At(t.history.acknowledged, p)[|At(s.history.acknowledged, p)|] == x;
    }
  }

  lemma AcknowledgeHistory(s: State, p: nat)
    requires Structure(s) && Histories(s) && Enabled(s, Acknowledge(p)) && RingsOk(Apply(s, Acknowledge(p)))
    ensures Histories(Apply(s, Acknowledge(p)))
  {
    RingInRange(s, p);
    ReleaseFreed(s, Apply(s, Acknowledge(p)), s.ports[p].ring[0]);
    AcknowledgeMailboxes(s, p);
    AcknowledgeProgress(s, p);
  }

  /** Routes and flags: no slot and no mailbox changes. */
  lemma RouteHistory(s: State, t: State)
    requires RingsOk(s) && RingsOk(t) && Histories(s)
    requires t.slots == s.slots && t.history == s.history && t.nextTicket == s.nextTicket
    requires forall p :: Ring(t, p) == Ring(s, p)
    ensures Histories(t)
  {
    forall p: nat
      ensures (forall k :: 0 <= k < |Ring(t, p)| ==> Ring(t, p)[k] < |t.slots|) && PublishedOk(t, p)
    {
      RingInRange(s, p);
      MailboxFrame(s, t, p);
    }
    forall x | 1 <= x < t.nextTicket && x !in t.history.freed
      ensures exists j :: Holds(t, j, x)
    {
      var j :| Holds(s, j, x);
      assert Holds(t, j, x);
    }
  }
}
