/** What every step of every thread keeps: callbacks, reservations, terminal transitions and
    the walk of the control owner. */
module FutureBarrierInvariant {
  import opened Common
  import opened FutureBarrier

  ghost predicate PlaceAt(s: State, cb: Callback)
    requires cb < |s.place|
  {
    match s.place[cb]
    case Listed(f) => f in s.futures && cb in s.futures[f].callbacks
    case Carried(a) => a in s.agents && s.agents[a].Publishing? && cb in s.agents[a].callbacks
    case Queued => cb in s.queue
    case InHand => s.hand == Some(cb)
    case Lost => false
    case _ => true
  }

  /** Every callback of the list is where the list says, and there once. */
  ghost predicate AllAt(place: seq<Place>, cbs: seq<Callback>, where: Place) {
    Distinct(cbs) && forall cb :: cb in cbs ==> cb < |place| && place[cb] == where
  }

  ghost predicate ListsOk(s: State) {
    forall f :: f in s.futures ==>
      AllAt(s.place, s.futures[f].callbacks, Listed(f))
        && (s.futures[f].status != Pending ==> s.futures[f].callbacks == [])
  }

  ghost predicate CarriersOk(s: State) {
    forall a :: a in s.agents && s.agents[a].Publishing? ==> AllAt(s.place, s.agents[a].callbacks, Carried(a))
  }

  ghost predicate QueueOk(s: State) {
    && AllAt(s.place, s.queue, Queued)
    && (s.hand.Some? ==> s.hand.value < |s.place| && s.place[s.hand.value] == InHand)
  }

  ghost predicate PlacesOk(s: State) {
    forall cb :: 0 <= cb < |s.place| ==> PlaceAt(s, cb)
  }

  /** A callback was called once if it is in the place for that, and else never. */
  ghost predicate CallsOk(s: State) {
    |s.calls| == |s.place| && forall cb :: 0 <= cb < |s.place| ==>
      s.calls[cb] == if s.place[cb] == Invoked then 1 else 0
  }

  predicate Reserved(pc: Pc) {
    !pc.Probed?
  }

  function Holders(agents: map<Agent, Pc>): set<Agent> {
    set a | a in agents && Reserved(agents[a])
  }

  /** Outstanding reservations are counted, and agents speak of known Futures. */
  ghost predicate AgentsOk(s: State) {
    && s.producers == |Holders(s.agents)|
    && (forall a :: a in s.agents && !s.agents[a].Ending? ==> s.agents[a].f in s.futures)
    && (forall a :: a in s.agents && (s.agents[a].Probed? || s.agents[a].Begun?) ==> s.agents[a].outcome != Pending)
  }

  /** One terminal transition per settled Future. */
  ghost predicate CommitsOk(s: State) {
    && (forall f :: f in s.futures ==>
          (if f in s.commits then s.commits[f] else 0) == if s.futures[f].status == Pending then 0 else 1)
    && s.commits.Keys <= s.futures.Keys
  }

  /** The call of the control owner is still on its way to settle `f`. */
  predicate Settles(s: State, a: Agent, f: Fut) {
    a in s.agents && (s.agents[a].Probed? || s.agents[a].Begun?) && s.agents[a].f == f
      && s.agents[a].outcome == Finished
  }

  /** Why a pending Future may still be pending at this point of the walk. */
  predicate MayBePending(s: State, f: Fut) {
    match s.control
    case Idle => s.exec != Stopped
    case Walking(todo) => f in todo
    case Calling(todo, g, a) => f in todo || (f == g && Settles(s, a, g))
    case _ => false
  }

  /** How much of the walk over all Futures is done. */
  ghost predicate WalkOk(s: State) {
    && (s.control != Idle ==> s.exec == Stopping)
    && (forall f :: f in s.futures && s.futures[f].status == Pending ==> MayBePending(s, f))
  }

  /** A stopped executor has nothing under way. */
  ghost predicate StoppedOk(s: State) {
    s.exec == Stopped ==> s.producers == 0 && s.queue == [] && s.hand == None && s.control == Idle
  }

  ghost predicate TestingOk(s: State) {
    (s.control == Testing || s.control.Walking? || s.control.Calling?) ==> s.hand == None
  }

  ghost predicate Inv(s: State) {
    && ListsOk(s) && CarriersOk(s) && QueueOk(s) && PlacesOk(s) && CallsOk(s)
    && AgentsOk(s) && CommitsOk(s) && WalkOk(s) && StoppedOk(s) && TestingOk(s)
  }

  lemma InitialInv()
    ensures Inv(Initial())
  {
    assert Holders(Initial().agents) == {};
  }

  lemma {:induction false} RemovedFacts(s: seq<Callback>, x: Callback)
    requires Distinct(s) && x in s
    ensures Distinct(Common.Removed(s, x))
    ensures forall y :: y in Common.Removed(s, x) <==> y in s && y != x
  {
    var k := IndexOf(s, x);
    var r := Common.Removed(s, x);
    assert forall i :: 0 <= i < |r| ==> r[i] == if i < k then s[i] else s[i + 1];
    forall y | y in s && y != x ensures y in r {
      var i := IndexOf(s, y);
      assert y == if i < k then r[i] else r[i - 1];
    }
  }

  /** What stands at `where` still does. */
  lemma AllAtStays(place: seq<Place>, after: seq<Place>, cbs: seq<Callback>, where: Place)
    requires AllAt(place, cbs, where) && |place| <= |after|
    requires forall cb :: 0 <= cb < |place| && place[cb] == where ==> after[cb] == where
    ensures AllAt(after, cbs, where)
  {
  }

  lemma AllAtMore(place: seq<Place>, cbs: seq<Callback>, cb: Callback, where: Place)
    requires AllAt(place, cbs, where) && cb < |place| && place[cb] != where
    ensures AllAt(place[cb := where], cbs + [cb], where)
  {
    assert cb !in cbs;
    assert forall i :: 0 <= i < |cbs| ==> cbs[i] in cbs;
  }

  lemma AllAtTail(place: seq<Place>, cbs: seq<Callback>, where: Place, to: Place)
    requires AllAt(place, cbs, where) && cbs != []
    ensures cbs[0] < |place| && place[cbs[0]] == where
    ensures AllAt(place[cbs[0] := to], cbs[1..], where)
  {
    assert cbs[0] in cbs;
    forall cb | cb in cbs[1..] ensures cb in cbs && cb != cbs[0] {
      var i := IndexOf(cbs[1..], cb);
      assert cbs[1..][i] == cbs[i + 1];
    }
  }

  lemma AllAtWithout(place: seq<Place>, cbs: seq<Callback>, cb: Callback, where: Place, to: Place)
    requires AllAt(place, cbs, where) && cb in cbs
    ensures AllAt(place[cb := to], Without(cbs, cb), where)
  {
    RemovedFacts(cbs, cb);
  }

  lemma ListAt(s: State, e: Event, f: Fut)
    requires ListsOk(s) && QueueOk(s) && CarriersOk(s) && Enabled(s, e) && f in s.futures
    ensures f in Apply(s, e).futures
    ensures AllAt(Apply(s, e).place, Apply(s, e).futures[f].callbacks, Listed(f))
  {
    var t := Apply(s, e);
    var cbs := s.futures[f].callbacks;
    assert AllAt(s.place, cbs, Listed(f));
    match e
    case CommitFinish(a) =>
      if t.futures[f] == s.futures[f] {
        assert AllAt(s.place, s.futures[s.agents[a].f].callbacks, Listed(s.agents[a].f));
        AllAtStays(s.place, t.place, cbs, Listed(f));
      }
    case CommitAdd(a) =>
      if t.futures[f] == s.futures[f] {
        AllAtStays(s.place, t.place, cbs, Listed(f));
      } else {
        AllAtStays(s.place, s.place + [InHand], cbs, Listed(f));
        AllAtMore(s.place + [InHand], cbs, |s.place|, Listed(f));
        assert (s.place + [InHand])[|s.place| := Listed(f)] == t.place;
      }
    case Publish(a) =>
      AllAtTail(s.place, s.agents[a].callbacks, Carried(a), Queued);
      AllAtStays(s.place, t.place, cbs, Listed(f));
    case Remove(g, cb) =>
      if f == g {
        AllAtWithout(s.place, cbs, cb, Listed(f), Place.Removed);
      } else {
        assert AllAt(s.place, s.futures[g].callbacks, Listed(g));
        AllAtStays(s.place, t.place, cbs, Listed(f));
      }
    case TakeNotification =>
      AllAtTail(s.place, s.queue, Queued, InHand);
      AllAtStays(s.place, t.place, cbs, Listed(f));
    case Invoke => AllAtStays(s.place, t.place, cbs, Listed(f));
    case _ =>
  }

  lemma ListsKept(s: State, e: Event)
    requires ListsOk(s) && QueueOk(s) && CarriersOk(s) && Enabled(s, e)
    ensures ListsOk(Apply(s, e))
  {
    var t := Apply(s, e);
    if e.Remove? {
      assert s.futures[e.f].callbacks != [];
    }
    forall f | f in s.futures ensures AllAt(t.place, t.futures[f].callbacks, Listed(f)) {
      hide AllAt;
      ListAt(s, e, f);
    }
    hide QueueOk, CarriersOk;
  }

  lemma NewCarrier(s: State, e: Event, b: Agent)
    requires ListsOk(s) && Enabled(s, e) && (b in s.agents ==> !s.agents[b].Publishing?)
    requires b in Apply(s, e).agents && Apply(s, e).agents[b].Publishing?
    ensures AllAt(Apply(s, e).place, Apply(s, e).agents[b].callbacks, Carried(b))
  {
    hide Bump, Holders, Without;
    if e.CommitFinish? {
      assert AllAt(s.place, s.futures[s.agents[b].f].callbacks, Listed(s.agents[b].f));
    }
  }

  lemma OldCarrier(s: State, e: Event, b: Agent)
    requires ListsOk(s) && QueueOk(s) && CarriersOk(s) && Enabled(s, e)
    requires b in s.agents && s.agents[b].Publishing?
    requires b in Apply(s, e).agents && Apply(s, e).agents[b].Publishing?
    ensures AllAt(Apply(s, e).place, Apply(s, e).agents[b].callbacks, Carried(b))
  {
    var t := Apply(s, e);
    var cbs := s.agents[b].callbacks;
    assert AllAt(s.place, cbs, Carried(b));
    match e
    case CommitFinish(a) =>
      assert AllAt(s.place, s.futures[s.agents[a].f].callbacks, Listed(s.agents[a].f));
      AllAtStays(s.place, t.place, cbs, Carried(b));
    case CommitAdd(a) => AllAtStays(s.place, t.place, cbs, Carried(b));
    case Publish(a) =>
      AllAtTail(s.place, s.agents[a].callbacks, Carried(a), if s.exec == Stopped then Lost else Queued);
      if a != b {
        AllAtStays(s.place, t.place, cbs, Carried(b));
      }
    case Remove(g, cb) =>
      assert AllAt(s.place, s.futures[g].callbacks, Listed(g));
      AllAtStays(s.place, t.place, cbs, Carried(b));
    case TakeNotification =>
      AllAtTail(s.place, s.queue, Queued, InHand);
      AllAtStays(s.place, t.place, cbs, Carried(b));
    case Invoke => AllAtStays(s.place, t.place, cbs, Carried(b));
    case _ =>
  }

  lemma CarrierAt(s: State, e: Event, b: Agent)
    requires ListsOk(s) && QueueOk(s) && CarriersOk(s) && Enabled(s, e)
    requires b in Apply(s, e).agents && Apply(s, e).agents[b].Publishing?
    ensures AllAt(Apply(s, e).place, Apply(s, e).agents[b].callbacks, Carried(b))
  {
    hide ListsOk, QueueOk, CarriersOk, Apply, Enabled, AllAt;
    if b in s.agents && s.agents[b].Publishing? {
      OldCarrier(s, e, b);
    } else {
      NewCarrier(s, e, b);
    }
  }

  lemma CarriersKept(s: State, e: Event)
    requires ListsOk(s) && QueueOk(s) && CarriersOk(s) && Enabled(s, e)
    ensures CarriersOk(Apply(s, e))
  {
    hide ListsOk, QueueOk, AllAt, Apply, Enabled;
    var t := Apply(s, e);
    forall b | b in t.agents && t.agents[b].Publishing? ensures AllAt(t.place, t.agents[b].callbacks, Carried(b)) {
      CarrierAt(s, e, b);
    }
  }

  lemma QueueKept(s: State, e: Event)
    requires ListsOk(s) && QueueOk(s) && CarriersOk(s) && Enabled(s, e)
    ensures QueueOk(Apply(s, e))
  {
    var t := Apply(s, e);
    match e
    case CommitFinish(a) =>
      assert AllAt(s.place, s.futures[s.agents[a].f].callbacks, Listed(s.agents[a].f));
      AllAtStays(s.place, t.place, s.queue, Queued);
    case CommitAdd(a) => AllAtStays(s.place, t.place, s.queue, Queued);
    case Publish(a) =>
      AllAtTail(s.place, s.agents[a].callbacks, Carried(a), Queued);
      if s.exec == Stopped {
        AllAtStays(s.place, t.place, s.queue, Queued);
      } else {
        AllAtMore(s.place, s.queue, s.agents[a].callbacks[0], Queued);
      }
    case Remove(g, cb) =>
      assert AllAt(s.place, s.futures[g].callbacks, Listed(g));
      AllAtStays(s.place, t.place, s.queue, Queued);
    case TakeNotification => AllAtTail(s.place, s.queue, Queued, InHand);
    case Invoke => AllAtStays(s.place, t.place, s.queue, Queued);
    case _ =>
  }

  /** The carrier of a callback holds a reservation, so the executor cannot have stopped. */
  lemma CarriersAreInTime(s: State, a: Agent)
    requires AgentsOk(s) && StoppedOk(s) && Enabled(s, Publish(a))
    ensures s.exec != Stopped
  {
    assert a in Holders(s.agents);
  }

  lemma QueueingKeepsPlaces(s: State, e: Event, cb: Callback)
    requires e.Publish? ==> s.exec != Stopped
    requires QueueOk(s) && CarriersOk(s) && Enabled(s, e) && cb < |s.place| && PlaceAt(s, cb)
    requires e.Publish? || e.TakeNotification?
    ensures cb < |Apply(s, e).place| && PlaceAt(Apply(s, e), cb)
  {
    match e
    case Publish(a) =>
      var cbs := s.agents[a].callbacks;
      AllAtTail(s.place, cbs, Carried(a), Queued);
      assert cb in cbs ==> cb == cbs[0] || cb in cbs[1..];
    case TakeNotification =>
      AllAtTail(s.place, s.queue, Queued, InHand);
      assert cb in s.queue ==> cb == s.queue[0] || cb in s.queue[1..];
  }

  lemma FuturesKeepPlaces(s: State, e: Event, cb: Callback)
    requires ListsOk(s) && Enabled(s, e) && cb < |s.place| && PlaceAt(s, cb)
    requires e.CommitFinish? || e.CommitAdd? || e.Remove?
    ensures cb < |Apply(s, e).place| && PlaceAt(Apply(s, e), cb)
  {
    match e
    case CommitFinish(a) => assert AllAt(s.place, s.futures[s.agents[a].f].callbacks, Listed(s.agents[a].f));
    case CommitAdd(a) =>
    case Remove(g, x) =>
      assert AllAt(s.place, s.futures[g].callbacks, Listed(g));
      RemovedFacts(s.futures[g].callbacks, x);
  }

  lemma PlaceKept(s: State, e: Event, cb: Callback)
    requires e.Publish? ==> s.exec != Stopped
    requires ListsOk(s) && QueueOk(s) && CarriersOk(s) && Enabled(s, e) && cb < |s.place| && PlaceAt(s, cb)
    ensures cb < |Apply(s, e).place| && PlaceAt(Apply(s, e), cb)
  {
    hide ListsOk, CarriersOk;
    match e
    case Publish(_) => QueueingKeepsPlaces(s, e, cb);
    case TakeNotification => QueueingKeepsPlaces(s, e, cb);
    case CommitFinish(_) => FuturesKeepPlaces(s, e, cb);
    case CommitAdd(_) => FuturesKeepPlaces(s, e, cb);
    case Remove(_, _) => FuturesKeepPlaces(s, e, cb);
    case _ =>
  }

  lemma PlacesKept(s: State, e: Event)
    requires ListsOk(s) && QueueOk(s) && CarriersOk(s) && PlacesOk(s) && AgentsOk(s) && StoppedOk(s) && Enabled(s, e)
    ensures PlacesOk(Apply(s, e))
  {
    if e.Publish? {
      CarriersAreInTime(s, e.a);
    }
    hide AgentsOk, StoppedOk;
    var t := Apply(s, e);
    forall cb | 0 <= cb < |s.place| ensures cb < |t.place| && PlaceAt(t, cb) {
      hide PlaceAt, Apply, Enabled, ListsOk, QueueOk, CarriersOk;
      PlaceKept(s, e, cb);
    }
    hide ListsOk, QueueOk, CarriersOk;
  }

  lemma CallsKept(s: State, e: Event)
    requires CallsOk(s) && ListsOk(s) && QueueOk(s) && CarriersOk(s) && Enabled(s, e)
    ensures CallsOk(Apply(s, e))
  {
    hide Bump, Without, Holders;
  }

  lemma CommitCounts(s: State, a: Agent)
    requires CommitsOk(s) && AgentsOk(s) && Enabled(s, CommitFinish(a))
    ensures CommitsOk(Apply(s, CommitFinish(a)))
  {
    hide Holders, MoveAll;
  }

  lemma CommitsUntouched(s: State, e: Event)
    requires Enabled(s, e) && !e.Register? && !e.CommitFinish? && !e.CommitAdd? && !e.Remove?
    ensures Apply(s, e).futures == s.futures && Apply(s, e).commits == s.commits
  {
    hide Move;
  }

  lemma CommitsKept(s: State, e: Event)
    requires CommitsOk(s) && AgentsOk(s) && Enabled(s, e)
    ensures CommitsOk(Apply(s, e))
  {
    if e.CommitFinish? {
      CommitCounts(s, e.a);
    } else if e.Register? || e.CommitAdd? || e.Remove? {
      hide AgentsOk, Without;
    } else {
      CommitsUntouched(s, e);
      hide AgentsOk, Apply, Enabled;
    }
  }

  lemma WalkIsStopping(s: State, e: Event)
    requires WalkOk(s) && Enabled(s, e)
    ensures Apply(s, e).control != Idle ==> Apply(s, e).exec == Stopping
  {
    hide MayBePending, Move, MoveAll, Without, Bump;
  }

  /** The events of the control owner and the shutdown request. */
  predicate OwnerEvent(e: Event) {
    e.RequestShutdown? || e.TakeNotification? || e.Invoke? || e.StartDrain? || e.CallFinish? || e.ReturnFinish?
    || e.DrainDone? || e.Settled? || e.Test?
  }

  lemma PendingIsAhead(s: State, e: Event, f: Fut)
    requires WalkOk(s) && AgentsOk(s) && Enabled(s, e)
    requires f in Apply(s, e).futures && Apply(s, e).futures[f].status == Pending
    ensures MayBePending(Apply(s, e), f)
  {
    if OwnerEvent(e) {
      OwnerKeepsAhead(s, e, f);
    } else {
      ThreadsKeepAhead(s, e, f);
    }
  }

  lemma OwnerKeepsAhead(s: State, e: Event, f: Fut)
    requires WalkOk(s) && AgentsOk(s) && Enabled(s, e) && OwnerEvent(e)
    requires f in Apply(s, e).futures && Apply(s, e).futures[f].status == Pending
    ensures MayBePending(Apply(s, e), f)
  {
    hide Holders, Move;
    assert f in s.futures ==> s.futures[f].status == Pending && MayBePending(s, f);
  }

  lemma ThreadsKeepAhead(s: State, e: Event, f: Fut)
    requires WalkOk(s) && AgentsOk(s) && Enabled(s, e) && !OwnerEvent(e)
    requires f in Apply(s, e).futures && Apply(s, e).futures[f].status == Pending
    ensures MayBePending(Apply(s, e), f)
  {
    hide Holders, Bump, Without;
    assert f in s.futures ==> s.futures[f].status == Pending && MayBePending(s, f);
  }

  lemma WalkKept(s: State, e: Event)
    requires WalkOk(s) && AgentsOk(s) && Enabled(s, e)
    ensures WalkOk(Apply(s, e))
  {
    var t := Apply(s, e);
    WalkIsStopping(s, e);
    forall f | f in t.futures && t.futures[f].status == Pending ensures MayBePending(t, f) {
      PendingIsAhead(s, e, f);
    }
    hide AgentsOk, Apply, MayBePending, Enabled;
  }

  lemma StoppedKept(s: State, e: Event)
    requires StoppedOk(s) && TestingOk(s) && WalkOk(s) && AgentsOk(s) && Enabled(s, e)
    ensures StoppedOk(Apply(s, e)) && TestingOk(Apply(s, e))
  {
  }

  lemma HoldersAfter(agents: map<Agent, Pc>, a: Agent, pc: Pc)
    ensures var had := a in agents && Reserved(agents[a]);
      && |Holders(agents[a := pc])| == |Holders(agents)| + (if Reserved(pc) then 1 else 0) - (if had then 1 else 0)
      && |Holders(agents - {a})| == |Holders(agents)| - (if had then 1 else 0)
      && (a in Holders(agents) <==> had)
  {
    var h := Holders(agents);
    assert Holders(agents[a := pc]) == if Reserved(pc) then h + {a} else h - {a};
    assert Holders(agents - {a}) == h - {a};
  }

  lemma ReservationsCounted(s: State, e: Event)
    requires s.producers == |Holders(s.agents)| && Enabled(s, e)
    ensures Apply(s, e).producers == |Holders(Apply(s, e).agents)|
  {
    hide Holders;
    var t := Apply(s, e);
    match e
    case Probe(a, f, outcome) => HoldersAfter(s.agents, a, Probed(f, outcome));
    case BeginFinish(a) => HoldersAfter(s.agents, a, Begun(s.agents[a].f, s.agents[a].outcome));
    case CommitFinish(a) => HoldersAfter(s.agents, a, t.agents[a]);
    case AbortCancel(a) => HoldersAfter(s.agents, a, Ending);
    case BeginAdd(a, f) => HoldersAfter(s.agents, a, Adding(f));
    case CommitAdd(a) => HoldersAfter(s.agents, a, t.agents[a]);
    case Publish(a) => HoldersAfter(s.agents, a, t.agents[a]);
    case PublishDone(a) => HoldersAfter(s.agents, a, Ending);
    case End(a) => HoldersAfter(s.agents, a, Ending);
    case CallFinish(a, f) => HoldersAfter(s.agents, a, Probed(f, Finished));
    case _ =>
  }

  lemma AgentsKept(s: State, e: Event)
    requires AgentsOk(s) && Enabled(s, e)
    ensures AgentsOk(Apply(s, e))
  {
    hide Holders;
    ReservationsCounted(s, e);
  }

  /** Every step of every thread keeps the bookkeeping of callbacks, reservations and
      terminal transitions consistent. */
  lemma StepKeepsInvariant(s: State, e: Event)
    requires Inv(s) && Enabled(s, e)
    ensures Inv(Apply(s, e))
  {
    hide ListsOk, CarriersOk, QueueOk, PlacesOk, CallsOk, AgentsOk, CommitsOk, WalkOk, StoppedOk,
      TestingOk, Apply, Enabled;
    ListsKept(s, e);
    CarriersKept(s, e);
    QueueKept(s, e);
    PlacesKept(s, e);
    CallsKept(s, e);
    AgentsKept(s, e);
    CommitsKept(s, e);
    WalkKept(s, e);
    StoppedKept(s, e);
  }
}
