/** Adoption of children by the native context, racing with its shutdown. */
module ContextChildren {
  import opened Common

  type Child = nat
  type Caller = nat

  /** `callers` hold an operation lease, on the context itself or on one of its children;
      every adoption happens under such a lease. `adopted` are all children ever handed in,
      `expired` those whose last owner is gone, `closing` those told to close, `closed` those
      that reached Closed, `toClose` the late ones their adopter is about to close, `overtaken`
      the late ones another thread told to close before their adopter did, and `snapshot` is
      the list `finish_shutdown` works through. */
  datatype State = State(open: bool, children: seq<Child>, adopted: set<Child>, expired: set<Child>,
                         closing: set<Child>, closed: set<Child>, overtaken: set<Child>,
                         callers: map<Caller, Option<Child>>, toClose: map<Caller, Child>,
                         snapshot: Option<seq<Child>>, shutdown: bool)

  datatype Event =
    | BeginOperation(caller: Caller, holder: Option<Child>)
    | Adopt(caller: Caller, child: Child)
    | CloseAdopted(caller: Caller)
    | EndOperation(caller: Caller)
    | StopAdmission
    | CloseChild(child: Child)
    | ReachClosed(child: Child)
    | Expire(child: Child)
    | Snapshot
    | Shutdown

  function Initial(): State {
    State(true, [], {}, {}, {}, {}, {}, map[], map[], None, false)
  }

  /** `remove_if` over the weak references. */
  function Living(children: seq<Child>, expired: set<Child>): seq<Child> {
    if children == [] then []
    else (if children[0] in expired then [] else [children[0]]) + Living(children[1..], expired)
  }

  /** No operation lease on the child is alive. */
  ghost predicate Unused(s: State, child: Child) {
    forall caller :: caller in s.callers ==> s.callers[caller] != Some(child)
  }

  ghost predicate Enabled(s: State, e: Event) {
    match e
    case BeginOperation(caller, holder) =>
      && s.open && caller !in s.callers
      && (holder.Some? ==> holder.value in s.adopted && holder.value !in s.closing && holder.value !in s.expired)
    case Adopt(caller, child) => caller in s.callers && caller !in s.toClose && child !in s.adopted
    case CloseAdopted(caller) => caller in s.toClose
    case EndOperation(caller) => caller in s.callers && caller !in s.toClose
    case StopAdmission => true
    case CloseChild(child) => child in s.adopted
    case ReachClosed(child) => child in s.closing && Unused(s, child)
    case Expire(child) => child in s.adopted && Unused(s, child)
    case Snapshot => !s.open && s.snapshot == None && forall caller :: caller in s.callers ==> s.callers[caller] != None
    case Shutdown => s.snapshot.Some? && forall c :: c in s.snapshot.value ==> c in s.closed || c in s.expired
  }

  ghost function Apply(s: State, e: Event): State
    requires Enabled(s, e)
  {
    match e
    case BeginOperation(caller, holder) => s.(callers := s.callers[caller := holder])
    case Adopt(caller, child) =>
      s.(children := Living(s.children, s.expired) + [child], adopted := s.adopted + {child},
         toClose := if s.open then s.toClose else s.toClose[caller := child])
    case CloseAdopted(caller) =>
      // nobody could lease or register the new child, so the first close finalizes it at once
      var child := s.toClose[caller];
      if child in s.closing then s.(overtaken := s.overtaken + {child}, toClose := s.toClose - {caller})
      else s.(closing := s.closing + {child}, closed := s.closed + {child}, toClose := s.toClose - {caller})
    case EndOperation(caller) => s.(callers := s.callers - {caller})
    case StopAdmission => s.(open := false)
    case CloseChild(child) => s.(closing := s.closing + {child})
    case ReachClosed(child) => s.(closed := s.closed + {child})
    case Expire(child) => s.(expired := s.expired + {child})
    case Snapshot => s.(snapshot := Some(Living(s.children, s.expired)))
    case Shutdown => s.(shutdown := true)
  }

  ghost predicate IsRun(states: seq<State>, events: seq<Event>) {
    && |states| == |events| + 1
    && states[0] == Initial()
    && (forall k {:trigger events[k]} :: 0 <= k < |events| ==>
          Enabled(states[k], events[k]) && states[k + 1] == Apply(states[k], events[k]))
  }

  /** The adopter of the child is about to close it. */
  ghost predicate Late(s: State, child: Child) {
    exists caller :: caller in s.toClose && s.toClose[caller] == child
  }

  /** A child that can still be leased stays in the list. */
  ghost predicate ListOk(s: State) {
    && (forall c :: c in s.adopted && c !in s.expired ==> c in s.children)
    && s.closed <= s.closing && s.overtaken <= s.closing
  }

  /** Who holds a lease on a child keeps it from closing and expiring, and late children are
      only adopted once admission is closed. */
  ghost predicate CallersOk(s: State) {
    && (forall caller :: caller in s.toClose ==> caller in s.callers && !s.open)
    && (forall caller :: caller in s.callers && s.callers[caller].Some? ==>
          var n := s.callers[caller].value;
          n in s.adopted && n !in s.expired && n !in s.closed && n !in s.overtaken && !Late(s, n))
  }

  ghost predicate SnapshotOk(s: State) {
    && (s.snapshot.Some? ==>
          && !s.open && (forall caller :: caller in s.callers ==> s.callers[caller] != None)
          && (forall c :: c in s.adopted && c !in s.expired && !Late(s, c) ==>
                c in s.snapshot.value || c in s.closed || c in s.overtaken))
    && (s.shutdown ==> s.snapshot.Some? && s.callers == map[])
    && (s.shutdown ==> forall c :: c in s.snapshot.value ==> c in s.closed || c in s.expired)
  }

  /** Everything listed, told to close or late was adopted, and each late child has its own
      adopter. */
  ghost predicate KnownOk(s: State) {
    && (forall c :: c in s.children ==> c in s.adopted) && s.closing <= s.adopted
    && (s.snapshot.Some? ==> forall c :: c in s.snapshot.value ==> c in s.adopted)
    && (forall a :: a in s.toClose ==> s.toClose[a] in s.adopted)
    && (forall a, b :: a in s.toClose && b in s.toClose && s.toClose[a] == s.toClose[b] ==> a == b)
  }

  ghost predicate Inv(s: State) {
    ListOk(s) && CallersOk(s) && SnapshotOk(s) && KnownOk(s)
  }

  lemma {:induction false} LivingKeeps(children: seq<Child>, expired: set<Child>)
    ensures forall c :: c in Living(children, expired) <==> c in children && c !in expired
  {
    if children != [] {
      LivingKeeps(children[1..], expired);
      assert children == [children[0]] + children[1..];
    }
  }

  lemma ListKept(s: State, e: Event)
    requires ListOk(s) && Enabled(s, e)
    ensures ListOk(Apply(s, e))
  {
    LivingKeeps(s.children, s.expired);
  }

  lemma KnownKept(s: State, e: Event)
    requires KnownOk(s) && Enabled(s, e)
    ensures KnownOk(Apply(s, e))
  {
    LivingKeeps(s.children, s.expired);
  }

  lemma CallersKept(s: State, e: Event)
    requires ListOk(s) && CallersOk(s) && Enabled(s, e)
    ensures CallersOk(Apply(s, e))
  {
    var t := Apply(s, e);
    forall n | Late(t, n) ensures Late(s, n) || (e.Adopt? && n == e.child) {
      var caller :| caller in t.toClose && t.toClose[caller] == n;
      assert caller in s.toClose ==> Late(s, s.toClose[caller]);
    }
    if e.CloseAdopted? {
      assert Late(s, s.toClose[e.caller]);
    }
  }

  lemma LateMoves(s: State, e: Event, c: Child)
    requires Enabled(s, e) && Late(s, c)
    ensures Late(Apply(s, e), c) || (e.CloseAdopted? && c == s.toClose[e.caller])
  {
    var caller :| caller in s.toClose && s.toClose[caller] == c;
    var t := Apply(s, e);
    if !(e.CloseAdopted? && caller == e.caller) {
      assert caller in t.toClose && t.toClose[caller] == c;
    }
  }

  lemma SnapshotKept(s: State, e: Event)
    requires Inv(s) && Enabled(s, e) && !e.Shutdown?
    ensures SnapshotOk(Apply(s, e))
  {
    LivingKeeps(s.children, s.expired);
    var t := Apply(s, e);
    if e.Adopt? && !s.open {
      assert t.toClose[e.caller] == e.child;
    }
    if t.snapshot.Some? {
      forall c | c in t.adopted && c !in t.expired && !Late(t, c)
        ensures c in t.snapshot.value || c in t.closed || c in t.overtaken
      {
        if Late(s, c) {
          LateMoves(s, e, c);
        }
      }
    }
  }

  /** When the listed children are closed nobody can be adopting any more: a late adopter
      holds a lease on a listed child, which keeps that child from being Closed. */
  lemma ShutdownKept(s: State)
    requires Inv(s) && Enabled(s, Shutdown)
    ensures SnapshotOk(Apply(s, Shutdown))
  {
    assert forall caller :: caller in s.callers ==> s.callers[caller] == None;
    assert s.callers == map[];
  }

  lemma StepKeepsInvariant(s: State, e: Event)
    requires Inv(s) && Enabled(s, e)
    ensures Inv(Apply(s, e))
  {
    ListKept(s, e);
    KnownKept(s, e);
    CallersKept(s, e);
    if e.Shutdown? {
      ShutdownKept(s);
    } else {
      SnapshotKept(s, e);
    }
  }

  lemma {:induction false} RunKeepsInvariant(states: seq<State>, events: seq<Event>, k: nat)
    requires IsRun(states, events) && k < |states|
    ensures Inv(states[k])
  {
    if k > 0 {
      RunKeepsInvariant(states, events, k - 1);
      assert Enabled(states[k - 1], events[k - 1]);
      hide Inv, Apply, Enabled;
      StepKeepsInvariant(states[k - 1], events[k - 1]);
    }
  }

  // ------------------------------------------------------------ which children are missed

  /** The child was handed in when `finish_shutdown` had already taken its list. */
  ghost predicate AdoptedAfterSnapshot(states: seq<State>, events: seq<Event>, k: nat, child: Child)
    requires k <= |events| < |states|
  {
    exists i :: 0 <= i < k && events[i].Adopt? && events[i].child == child && states[i].snapshot.Some?
  }

  ghost predicate Told(events: seq<Event>, k: nat, child: Child)
    requires k <= |events|
  {
    exists i :: 0 <= i < k && events[i] == CloseChild(child)
  }

  ghost predicate ClosesAdopted(s: State, e: Event, child: Child) {
    e.CloseAdopted? && e.caller in s.toClose && s.toClose[e.caller] == child
  }

  /** Another thread closed the child before its adopter did. */
  ghost predicate ClosedByAnotherFirst(states: seq<State>, events: seq<Event>, k: nat, child: Child)
    requires k <= |events| < |states|
  {
    exists j :: 0 <= j < k && ClosesAdopted(states[j], events[j], child) && Told(events, j, child)
  }

  /** A late child that was already told to close was told so by somebody else. */
  lemma {:induction false} LateAndClosingWasTold(states: seq<State>, events: seq<Event>, k: nat, child: Child)
    requires IsRun(states, events) && k <= |events| && Late(states[k], child) && child in states[k].closing
    ensures Told(events, k, child)
  {
    var s, e, t := states[k - 1], events[k - 1], states[k];
    RunKeepsInvariant(states, events, k - 1);
    assert Enabled(s, e) && t == Apply(s, e);
    if e != CloseChild(child) {
      var caller :| caller in t.toClose && t.toClose[caller] == child;
      assert caller in s.toClose && s.toClose[caller] == child;
      assert Late(s, child);
      LateAndClosingWasTold(states, events, k - 1, child);
    }
  }

  lemma {:induction false} OvertakenMeansClosedFirst(states: seq<State>, events: seq<Event>, k: nat, child: Child)
    requires IsRun(states, events) && k <= |events| && child in states[k].overtaken
    ensures ClosedByAnotherFirst(states, events, k, child)
  {
    var s, e := states[k - 1], events[k - 1];
    assert Enabled(s, e) && states[k] == Apply(s, e);
    if child in s.overtaken {
      OvertakenMeansClosedFirst(states, events, k - 1, child);
    } else {
      assert Late(s, child);
      LateAndClosingWasTold(states, events, k - 1, child);
    }
  }

  /** At a time when the list is taken, a child that is not gone is missing from the list
      exactly when it was adopted afterwards. */
  lemma {:induction false} UnlistedMeansAdoptedLater(states: seq<State>, events: seq<Event>, k: nat, child: Child)
    requires IsRun(states, events) && k <= |events|
    requires states[k].snapshot.Some? && child in states[k].adopted && child !in states[k].expired
    ensures child !in states[k].snapshot.value <==> AdoptedAfterSnapshot(states, events, k, child)
  {
    var s, e := states[k - 1], events[k - 1];
    RunKeepsInvariant(states, events, k - 1);
    assert Enabled(s, e) && states[k] == Apply(s, e);
    if e == Snapshot {
      LivingKeeps(s.children, s.expired);
      assert forall i :: 0 <= i < k ==> states[i].snapshot == None by {
        forall i | 0 <= i < k ensures states[i].snapshot == None {
          if states[i].snapshot.Some? {
            SnapshotIsTakenOnce(states, events, i, k - 1);
          }
        }
      }
    } else if child in s.adopted {
      UnlistedMeansAdoptedLater(states, events, k - 1, child);
      assert events[k - 1].Adopt? ==> events[k - 1].child != child;
    }
  }

  lemma {:induction false} SnapshotIsTakenOnce(states: seq<State>, events: seq<Event>, j: nat, k: nat)
    requires IsRun(states, events) && j <= k <= |events| && states[j].snapshot.Some?
    ensures states[k].snapshot == states[j].snapshot
  {
    if j < k {
      SnapshotIsTakenOnce(states, events, j, k - 1);
      assert Enabled(states[k - 1], events[k - 1]) && states[k] == Apply(states[k - 1], events[k - 1]);
    }
  }

  /** No child is missed: when the context itself is shut down every child ever adopted is
      Closed or gone, unless it was adopted after the list was taken and another thread closed
      it before its adopter did. */
  lemma ShutdownMissesNoChild(states: seq<State>, events: seq<Event>, k: nat, child: Child)
    requires IsRun(states, events) && k <= |events| && states[k].shutdown && child in states[k].adopted
    requires !AdoptedAfterSnapshot(states, events, k, child) || !ClosedByAnotherFirst(states, events, k, child)
    ensures child in states[k].closed || child in states[k].expired
  {
    RunKeepsInvariant(states, events, k);
    hide IsRun, AdoptedAfterSnapshot, ClosedByAnotherFirst;
    if child !in states[k].closed && child !in states[k].expired {
      UnlistedMeansAdoptedLater(states, events, k, child);
      assert !Late(states[k], child);
      OvertakenMeansClosedFirst(states, events, k, child);
    }
  }

  // ---- and conversely

  /** The events lead from `s` to `t`. */
  ghost predicate Leads(s: State, events: seq<Event>, t: State)
    decreases |events|
  {
    if events == [] then s == t else Enabled(s, events[0]) && Leads(Apply(s, events[0]), events[1..], t)
  }

  lemma {:induction false} LeadsOn(s: State, es: seq<Event>, m: State, fs: seq<Event>, t: State)
    requires Leads(s, es, m) && Leads(m, fs, t)
    ensures Leads(s, es + fs, t)
    decreases |es|
  {
    if es == [] {
      assert es + fs == fs;
    } else {
      hide Enabled, Apply;
      LeadsOn(Apply(s, es[0]), es[1..], m, fs, t);
      assert (es + fs)[1..] == es[1..] + fs;
    }
  }

  /** A run goes on with any events that lead on from its last state. */
  lemma {:induction false} RunGoesOn(states: seq<State>, events: seq<Event>, more: seq<Event>, t: State)
    returns (all: seq<State>)
    requires IsRun(states, events) && Leads(states[|events|], more, t)
    ensures IsRun(all, events + more) && states <= all && all[|events + more|] == t
    decreases |more|
  {
    if more == [] {
      assert events + more == events;
      all := states;
    } else {
      hide Enabled, Apply;
      var next := Apply(states[|events|], more[0]);
      all := RunGoesOn(states + [next], events + [more[0]], more[1..], t);
      assert events + [more[0]] + more[1..] == events + more;
    }
  }

  /** Some continuation ends with the context shut down and the child neither Closed nor gone. */
  ghost predicate CanBeMissed(s: State, child: Child) {
    exists events, t :: Leads(s, events, t) && Misses(t, child)
  }

  ghost predicate Misses(t: State, child: Child) {
    t.shutdown && child in t.adopted && child !in t.closed && child !in t.expired
  }

  /** The list is taken, the child is not on it, still open or closing, and if its adopter has
      not closed it yet somebody else has. */
  ghost predicate Escaping(s: State, child: Child) {
    && Inv(s) && s.snapshot.Some? && child !in s.snapshot.value && child in s.adopted
    && child !in s.closed && child !in s.expired && (Late(s, child) ==> child in s.closing)
  }

  /** All late adopters close their children and all operations end. */
  lemma {:induction false} CallersFinish(s: State, child: Child) returns (events: seq<Event>, t: State)
    requires Escaping(s, child)
    ensures Leads(s, events, t) && Escaping(t, child) && t.callers == map[] && t.snapshot == s.snapshot
    decreases |s.toClose| + |s.callers|
  {
    if s.callers == map[] {
      events, t := [], s;
    } else {
      var caller :| caller in s.callers;
      var e := if caller in s.toClose then CloseAdopted(caller) else EndOperation(caller);
      if caller in s.toClose {
        AdopterFinishes(s, child, caller);
        OneLess(s.toClose, caller);
      } else {
        OperationFinishes(s, child, caller);
        OneLess(s.callers, caller);
      }
      var next := Apply(s, e);
      hide Escaping, Enabled, Apply;
      var rest;
      rest, t := CallersFinish(next, child);
      events := [e] + rest;
      assert events[1..] == rest;
    }
  }

  lemma OneLess<V>(m: map<Caller, V>, caller: Caller)
    requires caller in m
    ensures |m - {caller}| == |m| - 1
  {
    assert m == (m - {caller})[caller := m[caller]];
  }

  lemma AdopterFinishes(s: State, child: Child, caller: Caller)
    requires Escaping(s, child) && caller in s.toClose
    ensures Enabled(s, CloseAdopted(caller))
    ensures var t := Apply(s, CloseAdopted(caller));
      Escaping(t, child) && t.snapshot == s.snapshot && t.callers == s.callers && t.toClose == s.toClose - {caller}
  {
    StepKeepsInvariant(s, CloseAdopted(caller));
    assert s.toClose[caller] == child ==> Late(s, child);
    hide Inv;
    var t := Apply(s, CloseAdopted(caller));
    if Late(t, child) {
      var other :| other in t.toClose && t.toClose[other] == child;
      assert other in s.toClose && s.toClose[other] == child;
    }
  }

  lemma OperationFinishes(s: State, child: Child, caller: Caller)
    requires Escaping(s, child) && caller in s.callers && caller !in s.toClose
    ensures Enabled(s, EndOperation(caller))
    ensures var t := Apply(s, EndOperation(caller));
      Escaping(t, child) && t.snapshot == s.snapshot && t.toClose == s.toClose && t.callers == s.callers - {caller}
  {
    StepKeepsInvariant(s, EndOperation(caller));
    hide Inv;
    assert Late(Apply(s, EndOperation(caller)), child) <==> Late(s, child);
  }

  /** The children of the list are closed one by one. */
  lemma {:induction false} ListCloses(s: State, child: Child, rest: seq<Child>) returns (events: seq<Event>, t: State)
    requires Escaping(s, child) && s.callers == map[]
    requires forall c :: c in s.snapshot.value ==> c in rest || c in s.closed
    ensures Leads(s, events, t) && Escaping(t, child) && t.callers == map[]
    ensures forall c :: c in t.snapshot.value ==> c in t.closed
    decreases |rest|
  {
    if rest == [] {
      events, t := [], s;
    } else if rest[0] !in s.snapshot.value {
      events, t := ListCloses(s, child, rest[1..]);
    } else {
      var c := rest[0];
      var told := Apply(s, CloseChild(c));
      OneChildCloses(s, child, c);
      var more;
      more, t := ListCloses(Apply(told, ReachClosed(c)), child, rest[1..]);
      hide Escaping, Enabled, Apply;
      events := [CloseChild(c), ReachClosed(c)] + more;
      assert events[1..] == [ReachClosed(c)] + more && events[1..][1..] == more;
    }
  }

  lemma OneChildCloses(s: State, child: Child, c: Child)
    requires Escaping(s, child) && s.callers == map[] && c in s.snapshot.value
    ensures Enabled(s, CloseChild(c))
    ensures var told := Apply(s, CloseChild(c));
      && Enabled(told, ReachClosed(c))
      && var t := Apply(told, ReachClosed(c));
         Escaping(t, child) && t.callers == map[] && t.snapshot == s.snapshot && t.closed == s.closed + {c}
  {
    StepKeepsInvariant(s, CloseChild(c));
    var told := Apply(s, CloseChild(c));
    StepKeepsInvariant(told, ReachClosed(c));
    assert !Late(s, child) && !Late(Apply(told, ReachClosed(c)), child);
  }

  lemma EscapingCanBeMissed(s: State, child: Child)
    requires Escaping(s, child)
    ensures CanBeMissed(s, child)
  {
    var first, idle := CallersFinish(s, child);
    var second, closed := ListCloses(idle, child, idle.snapshot.value);
    LeadsOn(s, first, idle, second, closed);
    var done := Apply(closed, Shutdown);
    assert Leads(closed, [Shutdown], done);
    LeadsOn(s, first + second, closed, [Shutdown], done);
    assert Misses(done, child);
  }

  lemma {:induction false} ListedIsNotMissed(s: State, child: Child, events: seq<Event>, t: State)
    requires Inv(s) && s.snapshot.Some? && child in s.snapshot.value && Leads(s, events, t)
    ensures !Misses(t, child)
    decreases |events|
  {
    if events != [] {
      StepKeepsInvariant(s, events[0]);
      ListedIsNotMissed(Apply(s, events[0]), child, events[1..], t);
    }
  }

  lemma UnlistedCanBeMissed(s: State, child: Child)
    requires Inv(s) && s.snapshot.Some? && child !in s.snapshot.value && child in s.adopted
    requires child !in s.closed && child !in s.expired
    ensures CanBeMissed(s, child)
  {
    StepKeepsInvariant(s, CloseChild(child));
    var told := Apply(s, CloseChild(child));
    assert Escaping(told, child);
    EscapingCanBeMissed(told, child);
    var events, t :| Leads(told, events, t) && Misses(t, child);
    assert ([CloseChild(child)] + events)[1..] == events;
    assert Leads(s, [CloseChild(child)] + events, t);
  }

  /** Exactly which children shutdown may miss: at any time after the list was taken, a child
      that is neither Closed nor gone can still be missed if and only if it was adopted after
      the list was taken. */
  lemma MissableExactlyWhenAdoptedLater(states: seq<State>, events: seq<Event>, child: Child)
    requires IsRun(states, events)
    requires var s := states[|events|];
      s.snapshot.Some? && child in s.adopted && child !in s.closed && child !in s.expired
    ensures CanBeMissed(states[|events|], child) <==> AdoptedAfterSnapshot(states, events, |events|, child)
  {
    var s := states[|events|];
    RunKeepsInvariant(states, events, |events|);
    UnlistedMeansAdoptedLater(states, events, |events|, child);
    hide IsRun, AdoptedAfterSnapshot, Inv, Leads, Misses;
    if child in s.snapshot.value {
      forall more, t | Leads(s, more, t) ensures !Misses(t, child) {
        ListedIsNotMissed(s, child, more, t);
      }
    } else {
      UnlistedCanBeMissed(s, child);
    }
  }

  /** The run that misses it: finish all callers, close the listed children, shut down. */
  lemma MissingRun(states: seq<State>, events: seq<Event>, child: Child) returns (more: seq<Event>, all: seq<State>)
    requires IsRun(states, events)
    requires var s := states[|events|];
      s.snapshot.Some? && child in s.adopted && child !in s.closed && child !in s.expired
    requires AdoptedAfterSnapshot(states, events, |events|, child)
    ensures IsRun(all, events + more) && states <= all && Misses(all[|events + more|], child)
  {
    MissableExactlyWhenAdoptedLater(states, events, child);
    var t;
    more, t :| Leads(states[|events|], more, t) && Misses(t, child);
    all := RunGoesOn(states, events, more, t);
  }

  /** Node 7 is listed, and an operation on it is still running when the list is taken. */
  lemma ListedWithOperation() returns (states: seq<State>, events: seq<Event>)
    ensures IsRun(states, events) && |events| == 6
    ensures states[6] == State(false, [7], {7}, {}, {}, {}, {}, map[1 := Some(7)], map[], Some([7]), false)
  {
    events := [BeginOperation(0, None), Adopt(0, 7), EndOperation(0), BeginOperation(1, Some(7)),
               StopAdmission, Snapshot];
    var listed := State(false, [7], {7}, {}, {}, {}, {}, map[1 := Some(7)], map[], None, false);
    states := [Initial(), Initial().(callers := map[0 := None]),
               State(true, [7], {7}, {}, {}, {}, {}, map[0 := None], map[], None, false),
               State(true, [7], {7}, {}, {}, {}, {}, map[], map[], None, false),
               listed.(open := true), listed, listed.(snapshot := Some([7]))];
    assert Living([7], {}) == [7];
    forall k | 0 <= k < |events| ensures Enabled(states[k], events[k]) && states[k + 1] == Apply(states[k], events[k]) {
    }
  }

  /** A child can indeed be missed: node 7 is listed and Closed, its late child 8 is still being
      closed by `close_children` when the context shuts down. */
  lemma OvertakenChildIsMissed() returns (states: seq<State>, events: seq<Event>)
    ensures IsRun(states, events)
    ensures Misses(states[|events|], 8) && 8 in states[|events|].overtaken
  {
    var before, first := ListedWithOperation();
    events := first + [Adopt(1, 8), CloseChild(8), CloseAdopted(1), EndOperation(1), CloseChild(7),
                       ReachClosed(7), Shutdown];
    var late := State(false, [7, 8], {7, 8}, {}, {8}, {}, {}, map[1 := Some(7)], map[1 := 8], Some([7]), false);
    var done := State(false, [7, 8], {7, 8}, {}, {7, 8}, {7}, {8}, map[], map[], Some([7]), false);
    states := before + [late.(closing := {}), late, late.(toClose := map[], overtaken := {8}),
                        done.(closing := {8}, closed := {}),
                        done.(closed := {}), done, done.(shutdown := true)];
    assert Living([7], {}) == [7];
    forall k | 0 <= k < 6 ensures Enabled(states[k], events[k]) && states[k + 1] == Apply(states[k], events[k]) {
      hide Enabled, Apply;
      assert events[k] == first[k];
    }
    forall k | 6 <= k < |events| ensures Enabled(states[k], events[k]) && states[k + 1] == Apply(states[k], events[k]) {
    }
  }

  /** Once the context is shut down nothing is adopted any more. */
  lemma NoAdoptionAfterShutdown(states: seq<State>, events: seq<Event>, k: nat, caller: Caller, child: Child)
    requires IsRun(states, events) && k < |states| && states[k].shutdown
    ensures !Enabled(states[k], Adopt(caller, child))
  {
    RunKeepsInvariant(states, events, k);
  }

  class NativeContext {
    var open: bool
    var children: seq<Child>
    ghost var m: State

    ghost predicate Valid()
      reads this
    {
      m.open == open && m.children == children && Inv(m)
    }

    constructor ()
      ensures Valid() && m == Initial()
    {
      open, children := true, [];
      m := Initial();
    }

    /** `adopt`: expired references are dropped, the child is listed, and the caller learns
        whether it has to close the child at once. */
    method Adopt(child: Child, expired: set<Child>, ghost caller: Caller) returns (close: bool)
      requires Valid() && Enabled(m, Event.Adopt(caller, child)) && expired == m.expired
      modifies this
      ensures Valid() && m == Apply(old(m), Event.Adopt(caller, child))
      ensures close <==> caller in m.toClose
    {
      StepKeepsInvariant(m, Event.Adopt(caller, child));
      ghost var s := m;
      var kept := Keep(children, expired);
      children := kept + [child];
      m := Apply(s, Event.Adopt(caller, child));
      close := !open;
    }

    static method Keep(all: seq<Child>, expired: set<Child>) returns (kept: seq<Child>)
      ensures kept == Living(all, expired)
    {
      kept := [];
      var i := |all|;
      while i > 0
        invariant 0 <= i <= |all| && kept == Living(all[i..], expired)
      {
        i := i - 1;
        assert all[i..][1..] == all[i + 1..];
        if all[i] !in expired {
          kept := [all[i]] + kept;
        }
      }
      assert all[0..] == all;
    }

    method StopAdmission()
      requires Valid()
      modifies this
      ensures Valid() && m == Apply(old(m), Event.StopAdmission) && !open
    {
      StepKeepsInvariant(m, Event.StopAdmission);
      open := false;
      m := m.(open := false);
    }
  }
}
