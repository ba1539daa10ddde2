/** Leases on a native entity: three reference counts, deferred destruction and the thread
    that carries it out. Each section under the backing's mutex is one step. */
module EntityLeases {
  import opened Common

  datatype Phase = Open | Closing | Closed

  datatype Kind = Operation | Dispatch | Work

  type Lease = nat
  type Thread = nat

  /** Where a thread stands in the code that follows an unlocked mutex. */
  datatype Pc =
    | MustFinalize     // the call of try_finalize is next
    | Destroying       // it took the resource and runs its destructor
    | Destroyed        // the destructor has returned; Closed is not yet set

  /** `leases` are the live lease objects; `destructions` counts completed destructor runs. */
  datatype State = State(admission: bool, phase: Phase, refs: map<Kind, nat>, registered: bool, destroyStarted: bool,
                         terminated: bool,
                         leases: map<Lease, Kind>, threads: map<Thread, Pc>, destructions: nat)

  datatype Event =
    | Acquire(lease: Lease, kind: Kind)
    | Derive(from: Lease, lease: Lease)
    | Release(lease: Lease, thread: Thread)
    | SetRegistered(value: bool, thread: Thread)
    | Close(thread: Thread)
    | Finalize(thread: Thread)
    | Destroy(thread: Thread)
    | MarkClosed(thread: Thread)
    | StopAdmission

  function Initial(): State {
    State(true, Open, map[Operation := 0, Dispatch := 0, Work := 0], false, false, false, map[], map[], 0)
  }

  ghost predicate HasRefs(s: State) {
    forall kind: Kind :: kind in s.refs
  }

  ghost predicate NoRefs(s: State)
    requires HasRefs(s)
  {
    s.refs[Operation] == 0 && s.refs[Dispatch] == 0 && s.refs[Work] == 0
  }

  ghost predicate Enabled(s: State, e: Event) {
    && HasRefs(s)
    && match e
       case Acquire(lease, _) => lease !in s.leases
       case Derive(from, lease) => from in s.leases && s.leases[from] == Work && lease !in s.leases
       case Release(lease, thread) => lease in s.leases && thread !in s.threads
       case SetRegistered(_, thread) => thread !in s.threads
       case Close(thread) => thread !in s.threads
       case Finalize(thread) => thread in s.threads && s.threads[thread] == MustFinalize
       case Destroy(thread) => thread in s.threads && s.threads[thread] == Destroying
       case MarkClosed(thread) => thread in s.threads && s.threads[thread] == Destroyed
       case StopAdmission => true
  }

  /** `acquire` and `prepare_operation`: refused once admission or the entity is closed. */
  function AcquireError(s: State): Option<ErrorCode> {
    if !s.admission then Some(ContextShutdown)
    else if s.phase != Open then Some(ParentDestroyed)
    else None
  }

  /** `derive_work`. */
  ghost predicate MayDerive(s: State)
    requires HasRefs(s)
  {
    s.refs[Work] > 0 && !s.destroyStarted
  }

  /** `set_registered`. */
  function RegisterError(s: State, value: bool): Option<ErrorCode> {
    if value && s.phase != Open then Some(ParentDestroyed)
    else if value && s.registered then Some(AlreadyRegistered)
    else None
  }

  /** The test of `try_finalize`. */
  ghost predicate MayDestroy(s: State)
    requires HasRefs(s)
  {
    s.phase == Closing && !s.destroyStarted && !s.registered && NoRefs(s)
  }

  ghost function Leased(s: State, lease: Lease, kind: Kind): State
    requires HasRefs(s)
  {
    s.(refs := s.refs[kind := s.refs[kind] + 1], leases := s.leases[lease := kind])
  }

  /** `release`: a count that is already zero ends the process. */
  ghost function Released(s: State, lease: Lease, thread: Thread): State
    requires HasRefs(s) && lease in s.leases
  {
    if s.refs[s.leases[lease]] == 0 then s.(terminated := true)
    else s.(refs := s.refs[s.leases[lease] := s.refs[s.leases[lease]] - 1], leases := s.leases - {lease},
       threads := s.threads[thread := MustFinalize])
  }

  ghost function Apply(s: State, e: Event): State
    requires Enabled(s, e)
  {
    match e
    case Acquire(lease, kind) => if AcquireError(s).Some? then s else Leased(s, lease, kind)
    case Derive(_, lease) => if MayDerive(s) then Leased(s, lease, Work) else s
    case Release(lease, thread) => Released(s, lease, thread)
    case SetRegistered(value, thread) =>
      if RegisterError(s, value).Some? then s
      else s.(registered := value, threads := s.threads[thread := MustFinalize])
    case Close(thread) => if s.phase != Open then s
      else s.(phase := Closing, threads := s.threads[thread := MustFinalize])
    case Finalize(thread) =>
      if MayDestroy(s) then s.(destroyStarted := true, threads := s.threads[thread := Destroying])
      else s.(threads := s.threads - {thread})
    case Destroy(thread) => s.(threads := s.threads[thread := Destroyed], destructions := s.destructions + 1)
    case MarkClosed(thread) => s.(phase := Closed, threads := s.threads - {thread})
    case StopAdmission => s.(admission := false)
  }

  ghost predicate IsRun(states: seq<State>, events: seq<Event>) {
    && |states| == |events| + 1
    && states[0] == Initial()
    && (forall k {:trigger events[k]} :: 0 <= k < |events| ==>
          Enabled(states[k], events[k]) && states[k + 1] == Apply(states[k], events[k]))
  }

  // ------------------------------------------------------------------ invariant

  function Held(leases: map<Lease, Kind>, kind: Kind): set<Lease> {
    set l | l in leases && leases[l] == kind
  }

  /** The counts are the numbers of live leases. */
  ghost predicate CountsOk(s: State) {
    HasRefs(s) && forall kind: Kind :: s.refs[kind] == |Held(s.leases, kind)|
  }

  /** Destruction starts only on a closing, unregistered entity without leases. */
  ghost predicate StartedOk(s: State) {
    && (s.destroyStarted ==> s.leases == map[] && !s.registered && s.phase != Open)
    && (s.phase == Closed ==> s.destroyStarted)
  }

  predicate Past(pc: Pc) {
    pc == Destroying || pc == Destroyed
  }

  /** One thread at most is past the test; it exists exactly between the start of destruction
      and the Closed mark. */
  ghost predicate DestroyerOk(s: State) {
    && (forall t :: t in s.threads && Past(s.threads[t]) ==> s.destroyStarted && s.phase == Closing)
    && (forall t, u :: t in s.threads && u in s.threads && Past(s.threads[t]) && Past(s.threads[u]) ==> t == u)
    && (s.destroyStarted && s.phase != Closed ==> exists t :: t in s.threads && Past(s.threads[t]))
    && (s.destructions == if s.phase == Closed || exists t :: t in s.threads && s.threads[t] == Destroyed then 1 else 0)
  }

  /** Whenever everything is ready for destruction some thread is on its way to start it. */
  ghost predicate CommittedOk(s: State) {
    HasRefs(s) && MayDestroy(s) ==> exists t :: t in s.threads && s.threads[t] == MustFinalize
  }

  ghost predicate Inv(s: State) {
    CountsOk(s) && StartedOk(s) && DestroyerOk(s) && CommittedOk(s) && !s.terminated
  }

  lemma HeldMore(leases: map<Lease, Kind>, lease: Lease, kind: Kind, k: Kind)
    requires lease !in leases
    ensures |Held(leases[lease := kind], k)| == |Held(leases, k)| + (if k == kind then 1 else 0)
  {
    assert Held(leases[lease := kind], k) == Held(leases, k) + (if k == kind then {lease} else {});
  }

  lemma HeldLess(leases: map<Lease, Kind>, lease: Lease, k: Kind)
    requires lease in leases
    ensures |Held(leases - {lease}, k)| == |Held(leases, k)| - (if k == leases[lease] then 1 else 0)
  {
    assert Held(leases - {lease}, k) == Held(leases, k) - (if k == leases[lease] then {lease} else {});
  }

  lemma InitialInv()
    ensures Inv(Initial())
  {
    forall kind: Kind ensures kind in Initial().refs && Initial().refs[kind] == 0 {
      match kind
      case Operation =>
      case Dispatch =>
      case Work =>
    }
    assert forall kind :: Held(Initial().leases, kind) == {};
  }

  lemma CountsKept(s: State, e: Event)
    requires CountsOk(s) && Enabled(s, e)
    ensures CountsOk(Apply(s, e)) && Apply(s, e).terminated == s.terminated
  {
    var t := Apply(s, e);
    if e.Release? {
      LeaseIsCounted(s, e.lease);
    }
    forall kind: Kind ensures kind in t.refs && t.refs[kind] == |Held(t.leases, kind)| {
      assert kind in s.refs;
      match e
      case Acquire(lease, k) => HeldMore(s.leases, lease, k, kind);
      case Derive(_, lease) => HeldMore(s.leases, lease, Work, kind);
      case Release(lease, _) => HeldLess(s.leases, lease, kind);
      case _ =>
    }
  }

  /** A live lease keeps its count positive. */
  lemma LeaseIsCounted(s: State, lease: Lease)
    requires CountsOk(s) && lease in s.leases
    ensures s.leases[lease] in s.refs && s.refs[s.leases[lease]] > 0
  {
    assert lease in Held(s.leases, s.leases[lease]);
  }

  lemma NoRefsMeansNoLeases(s: State)
    requires CountsOk(s) && NoRefs(s)
    ensures s.leases == map[]
  {
    forall l | l in s.leases ensures false {
      LeaseIsCounted(s, l);
    }
  }

  lemma StartedKept(s: State, e: Event)
    requires CountsOk(s) && StartedOk(s) && DestroyerOk(s) && Enabled(s, e)
    ensures StartedOk(Apply(s, e))
  {
    if e.Finalize? && MayDestroy(s) {
      NoRefsMeansNoLeases(s);
    } else if e.MarkClosed? {
      assert Past(s.threads[e.thread]);
    }
  }

  /** Nobody enters or leaves the destroying section. */
  lemma DestroyerFrame(s: State, t: State)
    requires DestroyerOk(s) && t.destroyStarted == s.destroyStarted && t.destructions == s.destructions
    requires t.phase == s.phase || (s.phase == Open && t.phase == Closing)
    requires forall u :: u in s.threads ==> u in t.threads && t.threads[u] == s.threads[u]
    requires forall u :: u in t.threads && Past(t.threads[u]) ==> u in s.threads
    ensures DestroyerOk(t)
  {
    assert forall u :: u in t.threads && t.threads[u] == Destroyed ==> Past(t.threads[u]);
  }

  lemma OthersOnlyCommit(s: State, e: Event)
    requires Enabled(s, e) && !e.Finalize? && !e.Destroy? && !e.MarkClosed?
    ensures var t := Apply(s, e);
      && t.destroyStarted == s.destroyStarted && t.destructions == s.destructions
      && (t.phase == s.phase || (s.phase == Open && t.phase == Closing))
      && (t.threads == s.threads || exists u: Thread :: u !in s.threads && t.threads == s.threads[u := MustFinalize])
  {
    hide MayDerive, AcquireError, RegisterError;
  }

  lemma DestroyerKept(s: State, e: Event)
    requires DestroyerOk(s) && Enabled(s, e) && !e.Finalize? && !e.Destroy? && !e.MarkClosed?
    ensures DestroyerOk(Apply(s, e))
  {
    hide DestroyerOk, Apply, Enabled;
    OthersOnlyCommit(s, e);
    DestroyerFrame(s, Apply(s, e));
  }

  lemma FinalizeKeepsDestroyer(s: State, thread: Thread)
    requires StartedOk(s) && DestroyerOk(s) && Enabled(s, Finalize(thread))
    ensures DestroyerOk(Apply(s, Finalize(thread)))
  {
    var t := Apply(s, Finalize(thread));
    assert forall u :: u in s.threads && u != thread ==> u in t.threads && t.threads[u] == s.threads[u];
    if MayDestroy(s) {
      assert Past(t.threads[thread]);
    }
  }

  lemma DestroyKeepsDestroyer(s: State, thread: Thread)
    requires DestroyerOk(s) && (Enabled(s, Destroy(thread)) || Enabled(s, MarkClosed(thread)))
    ensures Enabled(s, Destroy(thread)) ==> DestroyerOk(Apply(s, Destroy(thread)))
    ensures Enabled(s, MarkClosed(thread)) ==> DestroyerOk(Apply(s, MarkClosed(thread)))
  {
    assert Past(s.threads[thread]);
    assert s.threads[thread := Destroyed][thread] == Destroyed;
  }

  lemma CommittedKept(s: State, e: Event)
    requires CountsOk(s) && CommittedOk(s) && StartedOk(s) && Enabled(s, e)
    ensures CommittedOk(Apply(s, e))
  {
    var t := Apply(s, e);
    match e
    case Release(lease, thread) =>
      LeaseIsCounted(s, lease);
      assert t.threads[thread] == MustFinalize;
    case SetRegistered(value, thread) =>
      if RegisterError(s, value).None? {
        assert t.threads[thread] == MustFinalize;
      }
    case Close(thread) =>
      if s.phase == Open {
        assert t.threads[thread] == MustFinalize;
      }
    case Finalize(thread) =>
    case _ =>
      assert forall u :: u in s.threads && s.threads[u] == MustFinalize ==>
        u in t.threads && t.threads[u] == MustFinalize;
  }

  lemma StepKeepsInvariant(s: State, e: Event)
    requires Inv(s) && Enabled(s, e)
    ensures Inv(Apply(s, e))
  {
    CountsKept(s, e);
    StartedKept(s, e);
    CommittedKept(s, e);
    hide CountsOk, StartedOk, CommittedOk, DestroyerOk, Apply;
    match e
    case Finalize(thread) => FinalizeKeepsDestroyer(s, thread);
    case Destroy(thread) => DestroyKeepsDestroyer(s, thread);
    case MarkClosed(thread) => DestroyKeepsDestroyer(s, thread);
    case _ => DestroyerKept(s, e);
  }

  lemma {:induction false} RunKeepsInvariant(states: seq<State>, events: seq<Event>, k: nat)
    requires IsRun(states, events) && k < |states|
    ensures Inv(states[k])
  {
    hide Inv, Apply, Enabled;
    if k == 0 {
      InitialInv();
    } else {
      RunKeepsInvariant(states, events, k - 1);
      assert Enabled(states[k - 1], events[k - 1]) && states[k] == Apply(states[k - 1], events[k - 1]);
      StepKeepsInvariant(states[k - 1], events[k - 1]);
    }
  }

  // --------------------------------------------------------------- main theorems

  /** While any lease is alive the resource is neither destroyed nor on the way to it. */
  lemma LeasedIsAlive(states: seq<State>, events: seq<Event>, k: nat, lease: Lease)
    requires IsRun(states, events) && k < |states| && lease in states[k].leases
    ensures !states[k].destroyStarted && states[k].destructions == 0 && states[k].phase != Closed
  {
    RunKeepsInvariant(states, events, k);
    hide IsRun, CountsOk, CommittedOk;
    forall t | t in states[k].threads ensures states[k].threads[t] != Destroyed {
      assert !Past(states[k].threads[t]);
    }
  }

  /** Destruction happens at most once, has happened exactly once when the entity is Closed,
      and no count ever underflows. */
  lemma DestroyedOnceBeforeClosed(states: seq<State>, events: seq<Event>, k: nat)
    requires IsRun(states, events) && k < |states|
    ensures states[k].destructions <= 1 && !states[k].terminated
    ensures states[k].phase == Closed ==> states[k].destructions == 1
  {
    RunKeepsInvariant(states, events, k);
  }

  /** Deriving a cleanup lease from a live Work lease always succeeds, whatever the phase. */
  lemma DerivationSucceeds(states: seq<State>, events: seq<Event>, k: nat, from: Lease, lease: Lease)
    requires IsRun(states, events) && k < |states| && Enabled(states[k], Derive(from, lease))
    ensures MayDerive(states[k])
    ensures Apply(states[k], Derive(from, lease)).leases == states[k].leases[lease := Work]
  {
    RunKeepsInvariant(states, events, k);
    LeaseIsCounted(states[k], from);
    hide IsRun, CommittedOk, DestroyerOk;
  }

  /** No lost finalization: an entity that could be destroyed has a thread about to try, so
      once every thread has returned the entity is Closed. */
  lemma ReadyIsNoticed(states: seq<State>, events: seq<Event>, k: nat)
    requires IsRun(states, events) && k < |states|
    requires states[k].phase != Open && !states[k].registered && states[k].leases == map[]
    ensures states[k].destroyStarted || exists t :: t in states[k].threads && states[k].threads[t] == MustFinalize
    ensures states[k].threads == map[] ==> states[k].phase == Closed && states[k].destructions == 1
  {
    RunKeepsInvariant(states, events, k);
    hide IsRun;
    assert forall kind :: Held(states[k].leases, kind) == {};
  }
}
