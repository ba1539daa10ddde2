/** Status events: one accumulating slot per event type, and any number of events that take
    differences against their own cursors. */
module EventDeltas {
  import opened Common

  const MAX_GENERATION: nat := 0xFFFF_FFFF_FFFF_FFFF

  datatype EventType =
    | LivelinessChanged | LivelinessLost
    | RequestedDeadlineMissed | OfferedDeadlineMissed
    | RequestedIncompatibleQos | OfferedIncompatibleQos
    | MessageLost

  /** Absolute counters and their changes. */
  datatype Info =
    | DeadlineInfo(total: int, change: int)
    | LostInfo(total: int, change: int)
    | LivelinessInfo(alive: int, notAlive: int, aliveChange: int, notAliveChange: int)
    | QosInfo(total: int, change: int, policy: nat)
    | MessageInfo(total: int, change: int)

  datatype Slot = Slot(info: Info, generation: nat)

  /** The event's cursor, and since its creation: where it started and what it has taken. */
  datatype Cursor = Cursor(eventType: EventType, info: Info, generation: nat, start: nat, taken: (int, int))

  /** `updates` records every update a slot accepted. */
  datatype State = State(slots: map<EventType, Slot>, exhausted: bool, events: map<nat, Cursor>,
                         updates: map<EventType, seq<Info>>)

  datatype Event =
    | Update(eventType: EventType, info: Info)
    | Create(id: nat, eventType: EventType)
    | Take(id: nat)

  /** `empty_event_info`. */
  function Empty(t: EventType): Info {
    match t
    case LivelinessChanged => LivelinessInfo(0, 0, 0, 0)
    case LivelinessLost => LostInfo(0, 0)
    case RequestedIncompatibleQos => QosInfo(0, 0, 0)
    case OfferedIncompatibleQos => QosInfo(0, 0, 0)
    case MessageLost => MessageInfo(0, 0)
    case _ => DeadlineInfo(0, 0)
  }

  predicate SameKind(a: Info, b: Info) {
    && (a.DeadlineInfo? <==> b.DeadlineInfo?) && (a.LostInfo? <==> b.LostInfo?)
    && (a.LivelinessInfo? <==> b.LivelinessInfo?) && (a.QosInfo? <==> b.QosInfo?)
  }

  predicate KindOk(t: EventType, i: Info) {
    SameKind(Empty(t), i)
  }

  /** The changes an info carries. */
  function Changes(i: Info): (int, int) {
    match i
    case LivelinessInfo(_, _, a, n) => (a, n)
    case DeadlineInfo(_, c) => (c, 0)
    case LostInfo(_, c) => (c, 0)
    case QosInfo(_, c, _) => (c, 0)
    case MessageInfo(_, c) => (c, 0)
  }

  /** `accumulate`: absolute values are replaced, changes are added. */
  function Accumulated(total: Info, update: Info): Info
    requires SameKind(total, update)
  {
    match total
    case DeadlineInfo(_, c) => DeadlineInfo(update.total, c + update.change)
    case LostInfo(_, c) => LostInfo(update.total, c + update.change)
    case LivelinessInfo(_, _, a, n) =>
      LivelinessInfo(update.alive, update.notAlive, a + update.aliveChange, n + update.notAliveChange)
    case QosInfo(_, c, _) => QosInfo(update.total, c + update.change, update.policy)
    case MessageInfo(_, c) => MessageInfo(update.total, c + update.change)
  }

  /** `difference`: absolute values are current, changes are those since the cursor. */
  function Difference(current: Info, cursor: Info): Info
    requires SameKind(current, cursor)
  {
    match current
    case DeadlineInfo(t, c) => DeadlineInfo(t, c - cursor.change)
    case LostInfo(t, c) => LostInfo(t, c - cursor.change)
    case LivelinessInfo(x, y, a, n) => LivelinessInfo(x, y, a - cursor.aliveChange, n - cursor.notAliveChange)
    case QosInfo(t, c, p) => QosInfo(t, c - cursor.change, p)
    case MessageInfo(t, c) => MessageInfo(t, c - cursor.change)
  }

  function Plus(a: (int, int), b: (int, int)): (int, int) {
    (a.0 + b.0, a.1 + b.1)
  }

  /** `a` and `b` together are `c`. */
  predicate AddUpTo(a: (int, int), b: (int, int), c: (int, int)) {
    a.0 + b.0 == c.0 && a.1 + b.1 == c.1
  }

  function Sum(updates: seq<Info>): (int, int) {
    if updates == [] then (0, 0) else Plus(Sum(updates[..|updates| - 1]), Changes(updates[|updates| - 1]))
  }

  function SlotOf(s: State, t: EventType): Slot {
    if t in s.slots then s.slots[t] else Slot(Empty(t), 0)
  }

  /** `snapshot`. */
  function Snapshot(s: State, t: EventType): Slot {
    var slot := SlotOf(s, t);
    if slot.generation == 0 then Slot(Empty(t), 0) else slot
  }

  function Initial(): State {
    State(map[], false, map[], map[])
  }

  predicate Enabled(s: State, e: Event) {
    match e
    case Update(t, info) => KindOk(t, info) && SameKind(SlotOf(s, t).info, info)
    case Create(id, _) => id !in s.events
    case Take(id) => id in s.events && SameKind(Snapshot(s, s.events[id].eventType).info, s.events[id].info)
  }

  /** `update`. */
  function Updated(s: State, t: EventType, info: Info): State
    requires SameKind(SlotOf(s, t).info, info)
  {
    var slot := SlotOf(s, t);
    if s.exhausted then s
    else if slot.generation == MAX_GENERATION then s.(exhausted := true)
    else
      var next := if slot.generation == 0 then info else Accumulated(slot.info, info);
      s.(slots := s.slots[t := Slot(next, slot.generation + 1)],
         updates := s.updates[t := At(s.updates, t) + [info]])
  }

  /** `take`: None when nothing happened since the last take. */
  function TakeResult(s: State, id: nat): Option<Info>
    requires id in s.events && SameKind(Snapshot(s, s.events[id].eventType).info, s.events[id].info)
  {
    var c := s.events[id];
    var now := Snapshot(s, c.eventType);
    if now.generation == c.generation then None else Some(Difference(now.info, c.info))
  }

  function Took(s: State, id: nat): State
    requires id in s.events && SameKind(Snapshot(s, s.events[id].eventType).info, s.events[id].info)
  {
    var c := s.events[id];
    var now := Snapshot(s, c.eventType);
    match TakeResult(s, id)
    case None => s
    case Some(d) =>
      s.(events := s.events[id :=
        c.(info := now.info, generation := now.generation, taken := Plus(c.taken, Changes(d)))])
  }

  function Apply(s: State, e: Event): State
    requires Enabled(s, e)
  {
    match e
    case Update(t, info) => Updated(s, t, info)
    case Create(id, t) =>
      var now := Snapshot(s, t);
      s.(events := s.events[id := Cursor(t, now.info, now.generation, now.generation, (0, 0))])
    case Take(id) => if s.exhausted then s else Took(s, id)
  }

  ghost predicate IsRun(states: seq<State>, events: seq<Event>) {
    && |states| == |events| + 1
    && states[0] == Initial()
    && (forall k {:trigger events[k]} :: 0 <= k < |events| ==>
          Enabled(states[k], events[k]) && states[k + 1] == Apply(states[k], events[k]))
  }

  // ------------------------------------------------------------------ invariant

  /** A slot is the sum of its updates. */
  ghost predicate SlotOk(s: State, t: EventType) {
    var slot := SlotOf(s, t);
    && slot.generation == |At(s.updates, t)| <= MAX_GENERATION && KindOk(t, slot.info)
    && (slot.generation > 0 ==> Changes(slot.info) == Sum(At(s.updates, t)))
  }

  /** A cursor is the sum of the updates before it, and what was taken is the rest since the
      event was created. */
  ghost predicate CursorOk(s: State, c: Cursor) {
    var u := At(s.updates, c.eventType);
    && c.start <= c.generation <= |u| && KindOk(c.eventType, c.info)
    && Changes(c.info) == Sum(u[..c.generation])
    && AddUpTo(Sum(u[..c.start]), c.taken, Sum(u[..c.generation]))
  }

  ghost predicate Inv(s: State) {
    (forall t: EventType :: SlotOk(s, t)) && forall id :: id in s.events ==> CursorOk(s, s.events[id])
  }

  lemma CursorSurvives(s: State, t: EventType, info: Info, c: Cursor)
    requires CursorOk(s, c) && SameKind(SlotOf(s, t).info, info)
    ensures CursorOk(Updated(s, t, info), c)
  {
    var u := At(s.updates, c.eventType);
    assert (u + [info])[..c.generation] == u[..c.generation] && (u + [info])[..c.start] == u[..c.start];
  }

  lemma AccumulatedAdds(total: Info, update: Info)
    requires SameKind(total, update)
    ensures Changes(Accumulated(total, update)) == Plus(Changes(total), Changes(update))
    ensures SameKind(Accumulated(total, update), total)
  {
  }

  lemma SumAppend(u: seq<Info>, x: Info)
    ensures Sum(u + [x]) == Plus(Sum(u), Changes(x))
    ensures u == [] ==> Sum(u + [x]) == Changes(x)
  {
    assert (u + [x])[..|u|] == u;
  }

  lemma UpdatedSlot(s: State, t: EventType, info: Info)
    requires SlotOk(s, t) && KindOk(t, info) && SameKind(SlotOf(s, t).info, info)
    ensures SlotOk(Updated(s, t, info), t)
  {
    hide Sum, Plus, Changes, Accumulated;
    SumAppend(At(s.updates, t), info);
    AccumulatedAdds(SlotOf(s, t).info, info);
  }

  lemma OtherSlot(s: State, t: EventType, info: Info, x: EventType)
    requires SlotOk(s, x) && SameKind(SlotOf(s, t).info, info) && x != t
    ensures SlotOk(Updated(s, t, info), x)
  {
    hide Sum, Changes, Accumulated;
  }

  lemma UpdateKeeps(s: State, t: EventType, info: Info)
    requires Inv(s) && KindOk(t, info) && SameKind(SlotOf(s, t).info, info)
    ensures Inv(Updated(s, t, info))
  {
    hide SlotOk, CursorOk, Accumulated, Changes, SameKind;
    var r := Updated(s, t, info);
    forall x: EventType ensures SlotOk(r, x) {
      if x == t {
        UpdatedSlot(s, t, info);
      } else {
        OtherSlot(s, t, info, x);
      }
    }
    forall id | id in r.events ensures CursorOk(r, r.events[id]) {
      CursorSurvives(s, t, info, s.events[id]);
    }
  }

  /** A snapshot is the sum of all updates so far, also before the first one. */
  lemma SnapshotIsTheSum(s: State, t: EventType)
    requires SlotOk(s, t)
    ensures var now := Snapshot(s, t);
      && now.generation == |At(s.updates, t)| && KindOk(t, now.info) && Changes(now.info) == Sum(At(s.updates, t))
  {
  }

  lemma CreateKeeps(s: State, id: nat, t: EventType)
    requires Inv(s) && id !in s.events
    ensures Inv(Apply(s, Create(id, t)))
  {
    SnapshotIsTheSum(s, t);
    var u := At(s.updates, t);
    assert u[..|u|] == u;
    var r := Apply(s, Create(id, t));
    forall x: EventType ensures SlotOk(r, x) {
      assert SlotOk(s, x);
    }
    hide SlotOk;
    assert forall i :: i in s.events ==> CursorOk(s, s.events[i]);
  }

  lemma DifferenceCloses(now: Info, before: Info)
    requires SameKind(now, before)
    ensures Plus(Changes(before), Changes(Difference(now, before))) == Changes(now)
    ensures SameKind(Difference(now, before), now)
  {
  }

  lemma TakeKeeps(s: State, id: nat)
    requires Inv(s) && id in s.events && SameKind(Snapshot(s, s.events[id].eventType).info, s.events[id].info)
    ensures Inv(Took(s, id))
  {
    var c := s.events[id];
    SnapshotIsTheSum(s, c.eventType);
    var u := At(s.updates, c.eventType);
    assert u[..|u|] == u && CursorOk(s, c);
    DifferenceCloses(Snapshot(s, c.eventType).info, c.info);
    var r := Took(s, id);
    hide Difference, Changes, Snapshot;
    assert CursorOk(r, r.events[id]) by {
      TakenSums(s, id);
    }
    forall x: EventType ensures SlotOk(r, x) {
      assert SlotOk(s, x);
    }
    hide SlotOk, CursorOk;
    forall i | i in r.events && i != id ensures CursorOk(r, r.events[i]) {
      assert CursorOk(s, s.events[i]);
      SameUpdates(s, r, s.events[i]);
    }
  }

  lemma SameUpdates(s: State, t: State, c: Cursor)
    requires CursorOk(s, c) && t.updates == s.updates
    ensures CursorOk(t, c)
  {
  }

  lemma TakenSums(s: State, id: nat)
    requires id in s.events && CursorOk(s, s.events[id]) && SlotOk(s, s.events[id].eventType)
    requires SameKind(Snapshot(s, s.events[id].eventType).info, s.events[id].info)
    ensures CursorOk(Took(s, id), Took(s, id).events[id])
  {
    hide Difference, Changes, Sum, SlotOk, Snapshot, SameKind;
    var c := s.events[id];
    SnapshotIsTheSum(s, c.eventType);
    var u := At(s.updates, c.eventType);
    assert u[..|u|] == u;
    DifferenceCloses(Snapshot(s, c.eventType).info, c.info);
  }

  lemma StepKeepsInvariant(s: State, e: Event)
    requires Inv(s) && Enabled(s, e)
    ensures Inv(Apply(s, e))
  {
    hide Inv, Updated, Took;
    match e
    case Update(t, info) => UpdateKeeps(s, t, info);
    case Create(id, t) => CreateKeeps(s, id, t);
    case Take(id) => TakeKeeps(s, id);
  }

  lemma InitialInv()
    ensures Inv(Initial())
  {
  }

  lemma {:induction false} RunKeepsInvariant(states: seq<State>, events: seq<Event>, k: nat)
    requires IsRun(states, events) && k < |states|
    ensures Inv(states[k])
  {
    hide Inv, Apply, Enabled;
    if k == 0 {
      InitialInv();
    } else {
      RunKeepsInvariant(states, events, k - 1);
      assert Enabled(states[k - 1], events[k - 1]) && states[k] == Apply(states[k - 1], events[k - 1]);
      StepKeepsInvariant(states[k - 1], events[k - 1]);
    }
  }

  // --------------------------------------------------------------- main theorems

  /** What an event has taken plus what it could take now is the sum of all updates of its type
      since it was created, and a take yields nothing exactly when there was no update since
      the last one. */
  lemma NoChangeIsLost(states: seq<State>, events: seq<Event>, k: nat, id: nat)
    requires IsRun(states, events) && k < |states| && id in states[k].events
    ensures var s := states[k];
      var c := s.events[id];
      var u := At(s.updates, c.eventType);
      && SameKind(Snapshot(s, c.eventType).info, c.info) && c.start <= c.generation <= |u|
      && (TakeResult(s, id) == None <==> c.generation == |u|)
      && Plus(c.taken, Changes(Difference(Snapshot(s, c.eventType).info, c.info))) == Sum(u[c.start..])
  {
    var s := states[k];
    RunKeepsInvariant(states, events, k);
    hide IsRun;
    var c := s.events[id];
    assert CursorOk(s, c) && SlotOk(s, c.eventType);
    UntakenSums(s, c);
  }

  lemma UntakenSums(s: State, c: Cursor)
    requires CursorOk(s, c) && SlotOk(s, c.eventType)
    ensures var u := At(s.updates, c.eventType);
      && SameKind(Snapshot(s, c.eventType).info, c.info) && Snapshot(s, c.eventType).generation == |u|
      && Plus(c.taken, Changes(Difference(Snapshot(s, c.eventType).info, c.info))) == Sum(u[c.start..])
  {
    SnapshotIsTheSum(s, c.eventType);
    var u := At(s.updates, c.eventType);
    KindsAgree(c.eventType, Snapshot(s, c.eventType).info, c.info);
    DifferenceCloses(Snapshot(s, c.eventType).info, c.info);
    hide SlotOk, Snapshot, KindOk, SameKind, Difference, Changes;
    SumSplits(u[..c.start], u[c.start..]);
    assert u == u[..c.start] + u[c.start..];
  }

  lemma KindsAgree(t: EventType, a: Info, b: Info)
    requires KindOk(t, a) && KindOk(t, b)
    ensures SameKind(a, b)
  {
  }

  lemma {:induction false} SumSplits(a: seq<Info>, b: seq<Info>)
    ensures Sum(a + b) == Plus(Sum(a), Sum(b))
  {
    if b == [] {
      assert a + b == a;
    } else {
      var front, last := b[..|b| - 1], b[|b| - 1];
      assert (a + b)[..|a + b| - 1] == a + front;
      SumSplits(a, front);
      hide Changes;
    }
  }

  /** The kinds of infos never get mixed up: no lookup of a variant can fail. */
  lemma KindsNeverClash(states: seq<State>, events: seq<Event>, k: nat, t: EventType, info: Info, id: nat)
    requires IsRun(states, events) && k < |states|
    ensures KindOk(t, info) ==> Enabled(states[k], Update(t, info))
    ensures id in states[k].events ==> Enabled(states[k], Take(id))
  {
    RunKeepsInvariant(states, events, k);
    hide IsRun;
    var s := states[k];
    assert SlotOk(s, t);
    if id in s.events {
      assert CursorOk(s, s.events[id]) && SlotOk(s, s.events[id].eventType);
      UntakenSums(s, s.events[id]);
    }
  }

  // ------------------------------------------------------------------- the objects

  /** One parent with its slots; the generations of all types start at zero. */
  class EventParentState {
    var slots: map<EventType, Slot>
    var exhausted: bool
    ghost var m: State

    ghost predicate Valid()
      reads this
    {
      m.slots == slots && m.exhausted == exhausted && Inv(m)
    }

    constructor ()
      ensures Valid() && m == Initial()
    {
      slots, exhausted, m := map[], false, Initial();
    }

    /** `update`: the notification of waiters is not part of this model. */
    method Update(t: EventType, info: Info)
      requires Valid() && KindOk(t, info)
      modifies this
      ensures Valid() && Enabled(old(m), Event.Update(t, info)) && m == Apply(old(m), Event.Update(t, info))
    {
      hide Inv;
      SlotKind(m, t, info);
      StepKeepsInvariant(m, Event.Update(t, info));
      ghost var s := m;
      m := Updated(m, t, info);
      if exhausted {
        return;
      }
      var current := if t in slots then slots[t] else Slot(Empty(t), 0);
      if current.generation == MAX_GENERATION {
        exhausted := true;
      } else {
        var next := if current.generation == 0 then info else Accumulated(current.info, info);
        slots := slots[t := Slot(next, current.generation + 1)];
      }
    }

    static lemma SlotKind(s: State, t: EventType, info: Info)
      requires Inv(s) && KindOk(t, info)
      ensures SameKind(SlotOf(s, t).info, info)
    {
      assert SlotOk(s, t);
    }

    /** `take` for the event `id`, whose cursor is `cursor`. */
    method Take(ghost id: nat, t: EventType, info: Info, generation: nat) returns (r: Result<Option<Info>>, after: Slot)
      requires Valid() && id in m.events && m.events[id].eventType == t
      requires m.events[id].info == info && m.events[id].generation == generation
      modifies this
      ensures Valid() && Enabled(old(m), Event.Take(id)) && m == Apply(old(m), Event.Take(id))
      ensures r == if exhausted then Failure(ResourceExhausted) else Success(TakeResult(old(m), id))
      ensures id in m.events && after == Slot(m.events[id].info, m.events[id].generation)
    {
      hide Inv;
      CursorKind(m, id);
      StepKeepsInvariant(m, Event.Take(id));
      ghost var s := m;
      m := Apply(m, Event.Take(id));
      after := Slot(info, generation);
      if exhausted {
        return Failure(ResourceExhausted), after;
      }
      var current := if t in slots then slots[t] else Slot(Empty(t), 0);
      if current.generation == 0 {
        current := Slot(Empty(t), 0);
      }
      if current.generation == generation {
        return Success(None), after;
      }
      r := Success(Some(Difference(current.info, info)));
      after := current;
    }

    static lemma CursorKind(s: State, id: nat)
      requires Inv(s) && id in s.events
      ensures SameKind(Snapshot(s, s.events[id].eventType).info, s.events[id].info)
    {
      assert CursorOk(s, s.events[id]) && SlotOk(s, s.events[id].eventType);
      UntakenSums(s, s.events[id]);
    }
  }
}
