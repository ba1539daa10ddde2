/** What every section of the type and topic registries keeps, whatever DDS answers. */
module TypeRegistryInvariant {
  import opened Common
  import opened TypeRegistry

  /** The agent owns one reference to the type. */
  predicate Holds(x: Agent, T: Name) {
    !x.Registering? && !x.Unregistering? && x.typeName == T
  }

  /** The agent keeps the DDS topic's type from being unregistered. */
  predicate Backs(x: Agent, d: DdsId) {
    (x.CreatingTopic? || x.Live? || x.DeletingTopic? || x.Retained?) && x.dds == d
  }

  predicate Uses(x: Agent, n: Name) {
    x.Live? && x.topicName == n
  }

  function Holders(agents: map<AgentId, Agent>, T: Name): set<AgentId> {
    set a | a in agents && Holds(agents[a], T)
  }

  function Users(agents: map<AgentId, Agent>, n: Name): set<AgentId> {
    set a | a in agents && Uses(agents[a], n)
  }

  /** The call in flight that will move the entry out of its transient phase. */
  predicate MovesType(x: Agent, T: Name, phase: Phase) {
    x.typeName == T && ((phase == Creating && x.Registering?) || (phase == Retiring && x.Unregistering?))
  }

  predicate MovesTopic(x: Agent, n: Name, phase: Phase) {
    (phase == Creating && x.CreatingTopic? && x.topicName == n)
      || (phase == Retiring && x.DeletingTopic? && x.topicName == n)
  }

  ghost predicate TypeAt(s: State, T: Name)
    requires T in s.types
  {
    && s.types[T].count == |Holders(s.agents, T)|
    && (s.types[T].phase == Active <==> s.types[T].count > 0)
    && (s.types[T].phase == Creating || s.types[T].phase == Retiring ==>
          exists a :: a in s.agents && MovesType(s.agents[a], T, s.types[T].phase))
  }

  ghost predicate TopicAt(s: State, n: Name)
    requires n in s.topics
  {
    && s.topics[n].count == |Users(s.agents, n)|
    && (s.topics[n].phase == Active <==> s.topics[n].count > 0)
    && (s.topics[n].phase == Active ==> s.topics[n].topic.Some?)
    && (s.topics[n].phase == Creating || s.topics[n].phase == Retiring ==>
          exists a :: a in s.agents && MovesTopic(s.agents[a], n, s.topics[n].phase))
  }

  /** The DDS topic of an agent is recorded with its name, type and deletion attempts. */
  ghost predicate Recorded(s: State, d: DdsId, n: Name, T: Name, deletes: nat) {
    d in s.dds && s.dds[d] == DdsTopic(n, T, true, deletes)
  }

  ghost predicate TopicIn(s: State, n: Name, T: Name, phase: Phase) {
    n in s.topics && s.topics[n].wireType == T && s.topics[n].phase == phase
  }

  ghost predicate AgentAt(s: State, a: AgentId)
    requires a in s.agents
  {
    var x := s.agents[a];
    && x.typeName in s.types
    && s.types[x.typeName].phase == (if x.Registering? then Creating else if x.Unregistering? then Retiring else Active)
    && match x
       case CreatingTopic(T, n, d) => TopicIn(s, n, T, Creating) && Recorded(s, d, n, T, 0)
       case Live(T, n, d) => TopicIn(s, n, T, Active) && s.topics[n].topic == Some(d) && Recorded(s, d, n, T, 0)
       case DeletingTopic(T, n, d) => TopicIn(s, n, T, Retiring) && Recorded(s, d, n, T, 1)
       case Retained(T, d) => d in s.dds && s.dds[d].typeName == T
       case _ => true
  }

  ghost predicate DdsAt(s: State, d: DdsId)
    requires d in s.dds
  {
    && d < s.nextDds && s.dds[d].deletes <= 1
    && (s.dds[d].mayExist ==>
          exists a :: a in s.agents && Backs(s.agents[a], d) && s.agents[a].typeName == s.dds[d].typeName)
  }

  predicate MovesSameType(x: Agent, y: Agent) {
    (x.Registering? || x.Unregistering?) && (y.Registering? || y.Unregistering?) && x.typeName == y.typeName
  }

  predicate MovesSameTopic(x: Agent, y: Agent) {
    (x.CreatingTopic? || x.DeletingTopic?) && (y.CreatingTopic? || y.DeletingTopic?) && x.topicName == y.topicName
  }

  /** At most one call is in flight per table entry. */
  ghost predicate Apart(s: State) {
    forall a, b :: a in s.agents && b in s.agents && a != b ==>
      !MovesSameType(s.agents[a], s.agents[b]) && !MovesSameTopic(s.agents[a], s.agents[b])
  }

  ghost predicate TypesOk(s: State) { forall T :: T in s.types ==> TypeAt(s, T) }
  ghost predicate TopicsOk(s: State) { forall n :: n in s.topics ==> TopicAt(s, n) }
  ghost predicate AgentsOk(s: State) { forall a :: a in s.agents ==> AgentAt(s, a) }
  ghost predicate DdsOk(s: State) { forall d :: d in s.dds ==> DdsAt(s, d) }

  ghost predicate Inv(s: State) {
    TypesOk(s) && TopicsOk(s) && AgentsOk(s) && DdsOk(s) && Apart(s)
  }

  // ------------------------------------------------------------ counting handles

  lemma HoldersAfter(agents: map<AgentId, Agent>, a: AgentId, x: Agent, T: Name)
    ensures Holders(agents[a := x], T) == if Holds(x, T) then Holders(agents, T) + {a} else Holders(agents, T) - {a}
    ensures Holders(agents - {a}, T) == Holders(agents, T) - {a}
  {
  }

  lemma UsersAfter(agents: map<AgentId, Agent>, a: AgentId, x: Agent, n: Name)
    ensures Users(agents[a := x], n) == if Uses(x, n) then Users(agents, n) + {a} else Users(agents, n) - {a}
    ensures Users(agents - {a}, n) == Users(agents, n) - {a}
  {
  }

  lemma InitialInv()
    ensures Inv(Initial())
  {
  }

  // ------------------------------------------------------------ one agent moves

  /** Agent `a` is now `x`, or gone; nobody else moved. */
  ghost predicate Moved(s: State, t: State, a: AgentId, x: Option<Agent>) {
    t.agents == if x.Some? then s.agents[a := x.value] else s.agents - {a}
  }

  /** Before and after, the agent counts the same for the type `T`. */
  predicate SameHold(s: State, a: AgentId, x: Option<Agent>, T: Name) {
    (a in s.agents && Holds(s.agents[a], T)) == (x.Some? && Holds(x.value, T))
  }

  predicate SameUse(s: State, a: AgentId, x: Option<Agent>, n: Name) {
    (a in s.agents && Uses(s.agents[a], n)) == (x.Some? && Uses(x.value, n))
  }

  lemma HoldersMove(s: State, t: State, a: AgentId, x: Option<Agent>, T: Name)
    requires Moved(s, t, a, x)
    ensures var h := Holders(s.agents, T);
      Holders(t.agents, T) == if x.Some? && Holds(x.value, T) then h + {a} else h - {a}
    ensures a in Holders(s.agents, T) <==> a in s.agents && Holds(s.agents[a], T)
  {
    HoldersAfter(s.agents, a, if x.Some? then x.value else TypeHeld(T), T);
  }

  lemma UsersMove(s: State, t: State, a: AgentId, x: Option<Agent>, n: Name)
    requires Moved(s, t, a, x)
    ensures var u := Users(s.agents, n); Users(t.agents, n) == if x.Some? && Uses(x.value, n) then u + {a} else u - {a}
    ensures a in Users(s.agents, n) <==> a in s.agents && Uses(s.agents[a], n)
  {
    UsersAfter(s.agents, a, if x.Some? then x.value else TypeHeld(n), n);
  }

  /** A type entry is untouched and the agent that moves does not matter to it. */
  lemma TypeFrame(s: State, t: State, a: AgentId, x: Option<Agent>, T: Name)
    requires Moved(s, t, a, x) && T in s.types && T in t.types && t.types[T] == s.types[T] && TypeAt(s, T)
    requires SameHold(s, a, x, T)
    requires a in s.agents && (s.agents[a].Registering? || s.agents[a].Unregistering?) ==> s.agents[a].typeName != T
    ensures TypeAt(t, T)
  {
    HoldersMove(s, t, a, x, T);
    if s.types[T].phase == Creating || s.types[T].phase == Retiring {
      var b :| b in s.agents && MovesType(s.agents[b], T, s.types[T].phase);
      assert b in t.agents && MovesType(t.agents[b], T, t.types[T].phase);
    }
  }

  lemma TopicFrame(s: State, t: State, a: AgentId, x: Option<Agent>, n: Name)
    requires Moved(s, t, a, x) && n in s.topics && n in t.topics && t.topics[n] == s.topics[n] && TopicAt(s, n)
    requires SameUse(s, a, x, n)
    requires a in s.agents && (s.agents[a].CreatingTopic? || s.agents[a].DeletingTopic?) ==> s.agents[a].topicName != n
    ensures TopicAt(t, n)
  {
    UsersMove(s, t, a, x, n);
    if s.topics[n].phase == Creating || s.topics[n].phase == Retiring {
      var b :| b in s.agents && MovesTopic(s.agents[b], n, s.topics[n].phase);
      assert b in t.agents && MovesTopic(t.agents[b], n, t.topics[n].phase);
    }
  }

  /** The agent that moves backed `d` neither before nor stops backing it now. */
  lemma DdsFrame(s: State, t: State, a: AgentId, x: Option<Agent>, d: DdsId)
    requires Moved(s, t, a, x) && d in s.dds && d in t.dds && DdsAt(s, d) && t.nextDds >= s.nextDds
    requires t.dds[d].deletes == s.dds[d].deletes && t.dds[d].typeName == s.dds[d].typeName
    requires t.dds[d].mayExist ==> s.dds[d].mayExist
    requires
      t.dds[d].mayExist && a in s.agents && Backs(s.agents[a], d) && s.agents[a].typeName == s.dds[d].typeName ==>
      exists b :: b in t.agents && Backs(t.agents[b], d) && t.agents[b].typeName == s.dds[d].typeName
    ensures DdsAt(t, d)
  {
    if t.dds[d].mayExist {
      var b :| b in s.agents && Backs(s.agents[b], d) && s.agents[b].typeName == s.dds[d].typeName;
      if b != a {
        assert b in t.agents && Backs(t.agents[b], d);
      }
    }
  }

  /** Another agent sees its own rows unchanged. */
  lemma AgentFrame(s: State, t: State, b: AgentId)
    requires b in s.agents && b in t.agents && t.agents[b] == s.agents[b] && AgentAt(s, b)
    requires var T := s.agents[b].typeName; T in t.types && t.types[T].phase == s.types[T].phase
    requires var x := s.agents[b];
      x.CreatingTopic? || x.Live? || x.DeletingTopic? ==>
        && x.topicName in t.topics && t.topics[x.topicName].wireType == s.topics[x.topicName].wireType
        && t.topics[x.topicName].phase == s.topics[x.topicName].phase
        && (x.Live? ==> t.topics[x.topicName].topic == s.topics[x.topicName].topic)
        && x.dds in t.dds && t.dds[x.dds] == s.dds[x.dds]
    requires s.agents[b].Retained? ==>
      s.agents[b].dds in t.dds && t.dds[s.agents[b].dds].typeName == s.dds[s.agents[b].dds].typeName
    ensures AgentAt(t, b)
  {
  }

  lemma ApartFrame(s: State, t: State, a: AgentId, x: Option<Agent>)
    requires Moved(s, t, a, x) && Apart(s)
    requires x.Some? ==> forall b :: b in s.agents && b != a ==>
      !MovesSameType(s.agents[b], x.value) && !MovesSameTopic(s.agents[b], x.value)
    ensures Apart(t)
  {
  }

  /** The type table is untouched and the agent counts as before. */
  lemma TypesQuiet(s: State, t: State, a: AgentId, x: Option<Agent>)
    requires TypesOk(s) && Moved(s, t, a, x) && t.types == s.types && forall T :: T in s.types ==> SameHold(s, a, x, T)
    requires a in s.agents ==> !s.agents[a].Registering? && !s.agents[a].Unregistering?
    ensures TypesOk(t)
  {
    hide TypeAt, Moved, SameHold;
    forall T | T in t.types ensures TypeAt(t, T) {
      TypeFrame(s, t, a, x, T);
    }
  }

  lemma TopicsQuiet(s: State, t: State, a: AgentId, x: Option<Agent>)
    requires TopicsOk(s) && Moved(s, t, a, x) && t.topics == s.topics
    requires forall n :: n in s.topics ==> SameUse(s, a, x, n)
    requires a in s.agents ==> !s.agents[a].CreatingTopic? && !s.agents[a].DeletingTopic?
    ensures TopicsOk(t)
  {
    hide TopicAt, Moved, SameUse;
    forall n | n in t.topics ensures TopicAt(t, n) {
      TopicFrame(s, t, a, x, n);
    }
  }

  lemma DdsQuiet(s: State, t: State, a: AgentId, x: Option<Agent>)
    requires DdsOk(s) && Moved(s, t, a, x) && t.dds == s.dds && t.nextDds == s.nextDds
    requires a in s.agents ==>
      s.agents[a].Registering? || s.agents[a].TypeHeld? || s.agents[a].ReleasingType? || s.agents[a].Unregistering?
    ensures DdsOk(t)
  {
    hide DdsAt, Moved;
    forall d | d in t.dds ensures DdsAt(t, d) {
      DdsFrame(s, t, a, x, d);
    }
  }

  /** The phase of `T` may change, but no other agent refers to `T`. */
  lemma AgentsQuiet(s: State, t: State, a: AgentId, x: Option<Agent>)
    requires AgentsOk(s) && Moved(s, t, a, x) && t.topics == s.topics && t.dds == s.dds
    requires forall b :: b in s.agents && b != a ==>
      var T := s.agents[b].typeName; T in s.types ==> T in t.types && t.types[T].phase == s.types[T].phase
    requires x.Some? ==> AgentAt(t, a)
    ensures AgentsOk(t)
  {
    forall b | b in t.agents && b != a ensures AgentAt(t, b) {
      assert AgentAt(s, b);
      AgentFrame(s, t, b);
    }
    hide AgentAt;
  }

  lemma NobodyHolds(s: State, T: Name)
    requires AgentsOk(s) && (T !in s.types || s.types[T].phase != Active)
    ensures Holders(s.agents, T) == {}
  {
    forall a | a in s.agents ensures !Holds(s.agents[a], T) {
      assert AgentAt(s, a);
    }
  }

  // ------------------------------------------------------------ acquire_type

  lemma NewTypeTypes(s: State, a: AgentId, T: Name, binding: nat)
    requires TypesOk(s) && AgentsOk(s) && a !in s.agents && T !in s.types
    ensures TypesOk(TypeAcquired(s, a, T, binding))
  {
    var t := TypeAcquired(s, a, T, binding);
    NobodyHolds(s, T);
    HoldersMove(s, t, a, Some(Registering(T)), T);
    assert MovesType(t.agents[a], T, Creating);
    assert TypeAt(t, T);
    hide TypeAt, AgentAt;
    forall U | U in t.types && U != T ensures TypeAt(t, U) {
      TypeFrame(s, t, a, Some(Registering(T)), U);
    }
  }

  lemma SharedTypeTypes(s: State, a: AgentId, T: Name)
    requires TypesOk(s) && a !in s.agents && T in s.types && s.types[T].phase == Active
    ensures TypesOk(TypeAcquired(s, a, T, s.types[T].binding))
  {
    var t := TypeAcquired(s, a, T, s.types[T].binding);
    HoldersMove(s, t, a, Some(TypeHeld(T)), T);
    assert TypeAt(t, T);
    hide TypeAt;
    forall U | U in t.types && U != T ensures TypeAt(t, U) {
      TypeFrame(s, t, a, Some(TypeHeld(T)), U);
    }
  }

  lemma AcquireTypeKeeps(s: State, a: AgentId, T: Name, binding: nat)
    requires Inv(s) && a !in s.agents
    ensures Inv(TypeAcquired(s, a, T, binding))
  {
    hide TypesOk, TopicsOk, DdsOk, TypeAt, TopicAt, DdsAt;
    var t := TypeAcquired(s, a, T, binding);
    if T !in s.types || (s.types[T].binding == binding && s.types[T].phase == Active) {
      var x := if T !in s.types then Some(Registering(T)) else Some(TypeHeld(T));
      assert forall b :: b in s.agents ==> AgentAt(s, b);
      if T !in s.types {
        NewTypeTypes(s, a, T, binding);
      } else {
        SharedTypeTypes(s, a, T);
      }
      TopicsQuiet(s, t, a, x);
      DdsQuiet(s, t, a, x);
      AgentsQuiet(s, t, a, x);
      ApartFrame(s, t, a, x);
    }
  }

  /** The type whose registration returned: nobody held it, and on success its only holder is
      the agent that registered it. */
  lemma RegisteredType(s: State, a: AgentId, outcome: Outcome)
    requires AgentsOk(s) && a in s.agents && s.agents[a].Registering?
    requires s.agents[a].typeName in s.types ==> TypeAt(s, s.agents[a].typeName)
    ensures s.agents[a].typeName in TypeRegistered(s, a, outcome).types ==>
      TypeAt(TypeRegistered(s, a, outcome), s.agents[a].typeName)
  {
    var T := s.agents[a].typeName;
    assert AgentAt(s, a);
    NobodyHolds(s, T);
    HoldersMove(s, TypeRegistered(s, a, outcome), a, if outcome == Ok then Some(TypeHeld(T)) else None, T);
    hide AgentsOk, AgentAt;
  }

  lemma RegisterReturnsTypes(s: State, a: AgentId, outcome: Outcome)
    requires TypesOk(s) && AgentsOk(s) && a in s.agents && s.agents[a].Registering?
    ensures TypesOk(TypeRegistered(s, a, outcome))
  {
    var t := TypeRegistered(s, a, outcome);
    var T := s.agents[a].typeName;
    var x := if outcome == Ok then Some(TypeHeld(T)) else None;
    assert AgentAt(s, a);
    RegisteredType(s, a, outcome);
    hide TypeAt, AgentAt, AgentsOk;
    forall U | U in t.types && U != T ensures TypeAt(t, U) {
      TypeFrame(s, t, a, x, U);
    }
  }

  lemma RegisterReturnsKeeps(s: State, a: AgentId, outcome: Outcome)
    requires Inv(s) && a in s.agents && s.agents[a].Registering?
    ensures Inv(TypeRegistered(s, a, outcome))
  {
    hide TypesOk, TopicsOk, DdsOk, TypeAt, TopicAt, DdsAt;
    RegisterReturnsTypes(s, a, outcome);
    var t := TypeRegistered(s, a, outcome);
    var T := s.agents[a].typeName;
    var x := if outcome == Ok then Some(TypeHeld(T)) else None;
    assert AgentAt(s, a);
    forall b | b in s.agents && b != a ensures s.agents[b].typeName != T {
      assert AgentAt(s, b) && !MovesSameType(s.agents[a], s.agents[b]);
    }
    TopicsQuiet(s, t, a, x);
    DdsQuiet(s, t, a, x);
    AgentsQuiet(s, t, a, x);
    ApartFrame(s, t, a, x);
  }

  // ------------------------------------------------------------ release_type

  lemma ReleaseTypeTypes(s: State, a: AgentId)
    requires TypesOk(s) && AgentsOk(s) && a in s.agents && s.agents[a].ReleasingType?
    ensures TypesOk(TypeReleased(s, a))
  {
    var t := TypeReleased(s, a);
    var T := s.agents[a].typeName;
    assert AgentAt(s, a) && TypeAt(s, T);
    var x := if s.types[T].count != 1 then None else Some(Unregistering(T));
    forall U | U in t.types && U != T ensures TypeAt(t, U) {
      TypeFrame(s, t, a, x, U);
    }
    HoldersMove(s, t, a, x, T);
    if x.Some? {
      assert MovesType(t.agents[a], T, Retiring);
    }
  }

  /** The last reference: nobody else refers to the type any more. */
  lemma LastHolder(s: State, a: AgentId, T: Name)
    requires TypesOk(s) && AgentsOk(s) && a in s.agents && Holds(s.agents[a], T) && T in s.types
      && s.types[T].count == 1
    ensures forall b :: b in s.agents && b != a ==> s.agents[b].typeName != T
  {
    assert TypeAt(s, T) && a in Holders(s.agents, T);
    forall b | b in s.agents && b != a ensures s.agents[b].typeName != T {
      assert AgentAt(s, b);
      if b in Holders(s.agents, T) {
        assert {a, b} <= Holders(s.agents, T) && |{a, b}| == 2;
        SubsetSize({a, b}, Holders(s.agents, T));
        assert false;
      }
    }
  }

  lemma SubsetSize(small: set<AgentId>, large: set<AgentId>)
    requires small <= large
    ensures |small| <= |large|
  {
    assert large == small + (large - small);
  }

  /** Whoever holds a reference finds an Active entry with a positive count. */
  lemma HeldIsActive(s: State, a: AgentId)
    requires TypesOk(s) && AgentsOk(s) && a in s.agents && !s.agents[a].Registering? && !s.agents[a].Unregistering?
    ensures var T := s.agents[a].typeName; T in s.types && s.types[T].phase == Active && s.types[T].count > 0
  {
    assert AgentAt(s, a) && TypeAt(s, s.agents[a].typeName);
  }

  lemma ReleaseTypeKeeps(s: State, a: AgentId)
    requires Inv(s) && a in s.agents && s.agents[a].ReleasingType?
    ensures Inv(TypeReleased(s, a))
  {
    hide TypesOk, TopicsOk, DdsOk, TypeAt, TopicAt, DdsAt;
    ReleaseTypeTypes(s, a);
    var t := TypeReleased(s, a);
    var T := s.agents[a].typeName;
    HeldIsActive(s, a);
    var x := if s.types[T].count != 1 then None else Some(Unregistering(T));
    if x.Some? {
      LastHolder(s, a, T);
    }
    TopicsQuiet(s, t, a, x);
    DdsQuiet(s, t, a, x);
    AgentsQuiet(s, t, a, x);
    ApartFrame(s, t, a, x);
  }

  lemma UnregisterReturnsTypes(s: State, a: AgentId, unregistered: bool)
    requires TypesOk(s) && AgentsOk(s) && a in s.agents && s.agents[a].Unregistering?
    ensures TypesOk(TypeUnregistered(s, a, unregistered))
  {
    var t := TypeUnregistered(s, a, unregistered);
    var T := s.agents[a].typeName;
    assert AgentAt(s, a) && TypeAt(s, T);
    HoldersMove(s, t, a, None, T);
    assert T in t.types ==> TypeAt(t, T);
    hide TypeAt, AgentAt;
    forall U | U in t.types && U != T ensures TypeAt(t, U) {
      TypeFrame(s, t, a, None, U);
    }
  }

  /** While a call for `T` is in flight nobody else refers to `T`. */
  lemma NobodyElse(s: State, a: AgentId)
    requires AgentsOk(s) && Apart(s) && a in s.agents && (s.agents[a].Registering? || s.agents[a].Unregistering?)
    ensures s.agents[a].typeName in s.types
    ensures forall b :: b in s.agents && b != a ==> s.agents[b].typeName != s.agents[a].typeName
  {
    assert AgentAt(s, a);
    forall b | b in s.agents && b != a ensures s.agents[b].typeName != s.agents[a].typeName {
      assert AgentAt(s, b) && !MovesSameType(s.agents[a], s.agents[b]);
    }
  }

  lemma UnregisterReturnsKeeps(s: State, a: AgentId, unregistered: bool)
    requires Inv(s) && a in s.agents && s.agents[a].Unregistering?
    ensures Inv(TypeUnregistered(s, a, unregistered))
  {
    hide TypesOk, TopicsOk, DdsOk, TypeAt, TopicAt, DdsAt;
    UnregisterReturnsTypes(s, a, unregistered);
    NobodyElse(s, a);
    var t := TypeUnregistered(s, a, unregistered);
    TopicsQuiet(s, t, a, None);
    DdsQuiet(s, t, a, None);
    AgentsQuiet(s, t, a, None);
    ApartFrame(s, t, a, None);
  }

  // ------------------------------------------------------------ acquire_topic

  lemma NobodyUses(s: State, n: Name)
    requires AgentsOk(s) && (n !in s.topics || s.topics[n].phase != Active)
    ensures Users(s.agents, n) == {}
  {
    forall a | a in s.agents ensures !Uses(s.agents[a], n) {
      assert AgentAt(s, a);
    }
  }

  /** A topic entry changes, or a DDS topic does, but no other agent refers to either. */
  lemma AgentsBystand(s: State, t: State, a: AgentId, x: Option<Agent>)
    requires AgentsOk(s) && Moved(s, t, a, x) && t.types == s.types
    requires forall b :: b in s.agents && b != a ==>
      var y := s.agents[b];
      && (y.CreatingTopic? || y.Live? || y.DeletingTopic? ==>
            && (y.topicName in s.topics ==>
                  && y.topicName in t.topics && t.topics[y.topicName].wireType == s.topics[y.topicName].wireType
                  && t.topics[y.topicName].phase == s.topics[y.topicName].phase
                  && t.topics[y.topicName].topic == s.topics[y.topicName].topic)
            && (y.dds in s.dds ==> y.dds in t.dds && t.dds[y.dds] == s.dds[y.dds]))
      && (y.Retained? ==> y.dds in s.dds ==> y.dds in t.dds && t.dds[y.dds].typeName == s.dds[y.dds].typeName)
    requires x.Some? ==> AgentAt(t, a)
    ensures AgentsOk(t)
  {
    forall b | b in t.agents && b != a ensures AgentAt(t, b) {
      assert AgentAt(s, b);
      AgentFrame(s, t, b);
    }
    hide AgentAt;
  }

  /** The acquisition gives up and its type reference goes back. */
  lemma GiveUpKeeps(s: State, a: AgentId)
    requires Inv(s) && a in s.agents && s.agents[a].TypeHeld?
    ensures Inv(s.(agents := s.agents[a := ReleasingType(s.agents[a].typeName)]))
  {
    hide TypesOk, TopicsOk, DdsOk;
    var x := Some(ReleasingType(s.agents[a].typeName));
    var t := s.(agents := s.agents[a := x.value]);
    assert AgentAt(s, a);
    TypesQuiet(s, t, a, x);
    TopicsQuiet(s, t, a, x);
    DdsQuiet(s, t, a, x);
    AgentsBystand(s, t, a, x);
    ApartFrame(s, t, a, x);
  }

  lemma NewTopicTopics(s: State, t: State, a: AgentId, n: Name)
    requires TopicsOk(s) && AgentsOk(s) && a in s.agents && s.agents[a].TypeHeld? && n !in s.topics
    requires t.topics == s.topics[n := TopicEntry(s.agents[a].typeName, Creating, 0, None)]
    requires Moved(s, t, a, Some(CreatingTopic(s.agents[a].typeName, n, s.nextDds)))
    ensures TopicsOk(t)
  {
    var x := CreatingTopic(s.agents[a].typeName, n, s.nextDds);
    NobodyUses(s, n);
    UsersMove(s, t, a, Some(x), n);
    assert MovesTopic(t.agents[a], n, Creating);
    assert TopicAt(t, n);
    hide TopicAt, AgentAt;
    forall m | m in t.topics && m != n ensures TopicAt(t, m) {
      TopicFrame(s, t, a, Some(x), m);
    }
  }

  lemma NewTopicDds(s: State, t: State, a: AgentId, n: Name)
    requires DdsOk(s) && a in s.agents && s.agents[a].TypeHeld?
    requires t.dds == s.dds[s.nextDds := DdsTopic(n, s.agents[a].typeName, true, 0)] && t.nextDds == s.nextDds + 1
    requires Moved(s, t, a, Some(CreatingTopic(s.agents[a].typeName, n, s.nextDds)))
    ensures DdsOk(t)
  {
    var x := CreatingTopic(s.agents[a].typeName, n, s.nextDds);
    forall d | d in s.dds ensures DdsAt(t, d) {
      assert DdsAt(s, d);
      DdsFrame(s, t, a, Some(x), d);
    }
    assert Backs(t.agents[a], s.nextDds);
    assert DdsAt(t, s.nextDds);
    hide DdsAt;
  }

  lemma NewTopicKeeps(s: State, a: AgentId, n: Name)
    requires Inv(s) && a in s.agents && s.agents[a].TypeHeld? && n !in s.topics && !s.degraded
    ensures Inv(TopicAcquired(s, a, n))
  {
    hide TypesOk, TopicsOk, DdsOk;
    var T := s.agents[a].typeName;
    var x := Some(CreatingTopic(T, n, s.nextDds));
    var t := TopicAcquired(s, a, n);
    assert AgentAt(s, a);
    NextDdsIsNew(s);
    forall b | b in s.agents && b != a ensures !MovesSameTopic(s.agents[b], x.value) {
      assert AgentAt(s, b);
    }
    TypesQuiet(s, t, a, x);
    NewTopicTopics(s, t, a, n);
    NewTopicDds(s, t, a, n);
    assert AgentAt(t, a);
    hide AgentAt;
    AgentsBystand(s, t, a, x);
    ApartFrame(s, t, a, x);
  }

  lemma NextDdsIsNew(s: State)
    requires DdsOk(s)
    ensures s.nextDds !in s.dds
  {
    assert forall d :: d in s.dds ==> DdsAt(s, d);
  }

  lemma SharedTopicTopics(s: State, t: State, a: AgentId, n: Name, x: Agent)
    requires TopicsOk(s) && a in s.agents && s.agents[a].TypeHeld? && n in s.topics && s.topics[n].phase == Active
    requires t.topics == s.topics[n := s.topics[n].(count := s.topics[n].count + 1)]
    requires x.Live? && x.topicName == n && Moved(s, t, a, Some(x))
    ensures TopicsOk(t)
  {
    UsersMove(s, t, a, Some(x), n);
    assert TopicAt(t, n);
    hide TopicAt;
    forall m | m in t.topics && m != n ensures TopicAt(t, m) {
      TopicFrame(s, t, a, Some(x), m);
    }
  }

  /** An Active topic is used by some handle, which shows what is recorded about it. */
  lemma ActiveTopic(s: State, n: Name)
    requires TopicsOk(s) && AgentsOk(s) && n in s.topics && s.topics[n].phase == Active
    ensures s.topics[n].topic.Some? && Recorded(s, s.topics[n].topic.value, n, s.topics[n].wireType, 0)
  {
    assert TopicAt(s, n);
    var a :| a in Users(s.agents, n);
    assert AgentAt(s, a);
  }

  lemma SharedTopicKeeps(s: State, a: AgentId, n: Name)
    requires Inv(s) && a in s.agents && s.agents[a].TypeHeld? && n in s.topics && !s.degraded
    requires s.topics[n].phase == Active && s.topics[n].wireType == s.agents[a].typeName
    ensures Inv(TopicAcquired(s, a, n))
  {
    hide TypesOk, TopicsOk, DdsOk;
    ActiveTopic(s, n);
    var x := Live(s.agents[a].typeName, n, s.topics[n].topic.value);
    var t := TopicAcquired(s, a, n);
    assert AgentAt(s, a);
    TypesQuiet(s, t, a, Some(x));
    SharedTopicTopics(s, t, a, n, x);
    DdsQuiet(s, t, a, Some(x));
    assert AgentAt(t, a);
    hide AgentAt;
    AgentsBystand(s, t, a, Some(x));
    ApartFrame(s, t, a, Some(x));
  }

  lemma AcquireTopicKeeps(s: State, a: AgentId, n: Name)
    requires Inv(s) && a in s.agents && s.agents[a].TypeHeld?
    ensures Inv(TopicAcquired(s, a, n))
  {
    hide Inv;
    if s.degraded || (n in s.topics
      && (s.topics[n].wireType != s.agents[a].typeName || s.topics[n].phase == Orphaned)) {
      GiveUpKeeps(s, a);
    } else if n !in s.topics {
      NewTopicKeeps(s, a, n);
    } else if s.topics[n].phase == Active {
      SharedTopicKeeps(s, a, n);
    }
  }

  // ------------------------------------------------------------ create_topic returns

  /** While a call for the topic is in flight nobody else uses the entry or its DDS topic,
      except agents that keep the type for good. */
  lemma TopicIsMine(s: State, a: AgentId)
    requires AgentsOk(s) && Apart(s) && a in s.agents && (s.agents[a].CreatingTopic? || s.agents[a].DeletingTopic?)
    ensures var x := s.agents[a];
      && TopicIn(s, x.topicName, x.typeName, if x.CreatingTopic? then Creating else Retiring)
      && x.dds in s.dds && s.dds[x.dds].typeName == x.typeName
      && s.dds[x.dds].deletes == (if x.CreatingTopic? then 0 else 1)
      && forall b :: b in s.agents && b != a ==>
        var y := s.agents[b];
        y.CreatingTopic? || y.Live? || y.DeletingTopic? ==> y.topicName != x.topicName && y.dds != x.dds
  {
    var x := s.agents[a];
    assert AgentAt(s, a);
    forall b | b in s.agents && b != a
      && (s.agents[b].CreatingTopic? || s.agents[b].Live? || s.agents[b].DeletingTopic?)
      ensures s.agents[b].topicName != x.topicName && s.agents[b].dds != x.dds
    {
      assert AgentAt(s, b) && !MovesSameTopic(s.agents[a], s.agents[b]);
    }
  }

  /** The entry of the call in flight takes its outcome. */
  lemma MovedTopicTopics(s: State, t: State, a: AgentId, x: Agent)
    requires TopicsOk(s) && AgentsOk(s) && a in s.agents && (s.agents[a].CreatingTopic? || s.agents[a].DeletingTopic?)
    requires var n := s.agents[a].topicName;
      && Moved(s, t, a, Some(x)) && (x.Live? ==> x.topicName == n)
      && (t.topics == s.topics - {n}
          || (n in s.topics && n in t.topics && t.topics == s.topics[n := t.topics[n]]
              && ((t.topics[n].phase == Active && t.topics[n].count == 1 && t.topics[n].topic.Some? && x.Live?)
                  || (t.topics[n].phase == Orphaned && t.topics[n].count == s.topics[n].count && !x.Live?))))
    ensures TopicsOk(t)
  {
    var n := s.agents[a].topicName;
    assert AgentAt(s, a) && TopicAt(s, n);
    NobodyUses(s, n);
    UsersMove(s, t, a, Some(x), n);
    assert n in t.topics ==> TopicAt(t, n);
    hide TopicAt, AgentAt;
    forall m | m in t.topics && m != n ensures TopicAt(t, m) {
      TopicFrame(s, t, a, Some(x), m);
    }
  }

  /** The moving agent goes on backing its DDS topic, or the topic is known to be gone. */
  lemma MovedTopicDds(s: State, t: State, a: AgentId, x: Agent)
    requires DdsOk(s) && a in s.agents && (s.agents[a].CreatingTopic? || s.agents[a].DeletingTopic?)
    requires var d := s.agents[a].dds;
      && d in s.dds && Moved(s, t, a, Some(x)) && t.nextDds == s.nextDds && x.typeName == s.agents[a].typeName
      && (t.dds == s.dds[d := s.dds[d].(mayExist := false)] || (t.dds == s.dds && Backs(x, d)))
    ensures DdsOk(t)
  {
    forall d | d in t.dds ensures DdsAt(t, d) {
      assert DdsAt(s, d);
      assert t.agents[a] == x;
      DdsFrame(s, t, a, Some(x), d);
    }
    hide DdsAt;
  }

  lemma CreateReturnsKeeps(s: State, a: AgentId, outcome: Outcome)
    requires Inv(s) && a in s.agents && s.agents[a].CreatingTopic?
    ensures Inv(TopicCreated(s, a, outcome))
  {
    hide TypesOk, TopicsOk, DdsOk;
    var y := s.agents[a];
    var x := match outcome
      case Ok => Live(y.typeName, y.topicName, y.dds)
      case Fails => ReleasingType(y.typeName)
      case Throws => Retained(y.typeName, y.dds);
    var t := TopicCreated(s, a, outcome);
    TopicIsMine(s, a);
    assert AgentAt(s, a);
    TypesQuiet(s, t, a, Some(x));
    CreatedEntry(s, a);
    MovedTopicTopics(s, t, a, x);
    MovedTopicDds(s, t, a, x);
    assert AgentAt(t, a);
    hide AgentAt;
    AgentsBystand(s, t, a, Some(x));
    ApartFrame(s, t, a, Some(x));
  }

  lemma CreatedEntry(s: State, a: AgentId)
    requires TopicsOk(s) && AgentsOk(s) && a in s.agents && s.agents[a].CreatingTopic?
    ensures s.agents[a].topicName in s.topics && s.topics[s.agents[a].topicName].count == 0
  {
    assert AgentAt(s, a) && TopicAt(s, s.agents[a].topicName);
  }

  // ------------------------------------------------------------ release_topic

  lemma DeleteReturnsKeeps(s: State, a: AgentId, deleted: bool)
    requires Inv(s) && a in s.agents && s.agents[a].DeletingTopic?
    ensures Inv(TopicDeleted(s, a, deleted))
  {
    hide TypesOk, TopicsOk, DdsOk;
    var y := s.agents[a];
    var x := if deleted then ReleasingType(y.typeName) else Retained(y.typeName, y.dds);
    var t := TopicDeleted(s, a, deleted);
    TopicIsMine(s, a);
    assert AgentAt(s, a);
    TypesQuiet(s, t, a, Some(x));
    MovedTopicTopics(s, t, a, x);
    MovedTopicDds(s, t, a, x);
    assert AgentAt(t, a);
    hide AgentAt;
    AgentsBystand(s, t, a, Some(x));
    ApartFrame(s, t, a, Some(x));
  }

  /** A live handle finds its entry Active with a positive count. */
  lemma LiveIsActive(s: State, a: AgentId)
    requires TopicsOk(s) && AgentsOk(s) && a in s.agents && s.agents[a].Live?
    ensures var x := s.agents[a];
      && TopicIn(s, x.topicName, x.typeName, Active) && s.topics[x.topicName].count > 0
      && s.topics[x.topicName].topic == Some(x.dds) && Recorded(s, x.dds, x.topicName, x.typeName, 0)
  {
    assert AgentAt(s, a) && TopicAt(s, s.agents[a].topicName);
  }

  /** When other handles remain, one of them backs the same DDS topic. */
  lemma AnotherUser(s: State, a: AgentId) returns (b: AgentId)
    requires TopicsOk(s) && AgentsOk(s) && a in s.agents && s.agents[a].Live?
    requires s.agents[a].topicName in s.topics && s.topics[s.agents[a].topicName].count > 1
    ensures b != a && b in s.agents && s.agents[b] == s.agents[a]
  {
    var x := s.agents[a];
    var users := Users(s.agents, x.topicName);
    assert AgentAt(s, a) && TopicAt(s, x.topicName);
    assert a in users && |users - {a}| > 0;
    b :| b in users - {a};
    assert AgentAt(s, b);
  }

  /** The last handle goes: nobody else uses the entry or its DDS topic. */
  lemma LastUser(s: State, a: AgentId)
    requires TopicsOk(s) && AgentsOk(s) && a in s.agents && s.agents[a].Live?
    requires s.agents[a].topicName in s.topics && s.topics[s.agents[a].topicName].count == 1
    ensures forall b :: b in s.agents && b != a ==>
      var y := s.agents[b];
      y.CreatingTopic? || y.Live? || y.DeletingTopic? ==>
        y.topicName != s.agents[a].topicName && y.dds != s.agents[a].dds
  {
    var x := s.agents[a];
    var users := Users(s.agents, x.topicName);
    assert AgentAt(s, a) && TopicAt(s, x.topicName) && a in users;
    forall b | b in s.agents && b != a
      && (s.agents[b].CreatingTopic? || s.agents[b].Live? || s.agents[b].DeletingTopic?)
      ensures s.agents[b].topicName != x.topicName && s.agents[b].dds != x.dds
    {
      assert AgentAt(s, b);
      if b in users {
        SubsetSize({a, b}, users);
        assert false;
      }
    }
  }

  lemma ReleasedTopics(s: State, t: State, a: AgentId, x: Agent)
    requires TopicsOk(s) && a in s.agents && s.agents[a].Live? && !x.Live? && Moved(s, t, a, Some(x))
    requires var n := s.agents[a].topicName;
      && n in s.topics && s.topics[n].phase == Active && s.topics[n].count > 0
      && t.topics == s.topics[n := if s.topics[n].count > 1 then s.topics[n].(count := s.topics[n].count - 1)
                                   else s.topics[n].(count := 0, phase := Retiring)]
      && (s.topics[n].count == 1 ==> x.DeletingTopic? && x.topicName == n)
    ensures TopicsOk(t)
  {
    var n := s.agents[a].topicName;
    assert TopicAt(s, n);
    UsersMove(s, t, a, Some(x), n);
    assert s.topics[n].count == 1 ==> MovesTopic(t.agents[a], n, Retiring);
    assert TopicAt(t, n);
    hide TopicAt;
    forall m | m in t.topics && m != n ensures TopicAt(t, m) {
      TopicFrame(s, t, a, Some(x), m);
    }
  }

  lemma ReleaseSharedKeeps(s: State, a: AgentId)
    requires Inv(s) && a in s.agents && s.agents[a].Live?
    requires s.agents[a].topicName in s.topics && s.topics[s.agents[a].topicName].count > 1
    ensures Inv(TopicReleased(s, a))
  {
    hide TypesOk, TopicsOk, DdsOk;
    LiveIsActive(s, a);
    var x := ReleasingType(s.agents[a].typeName);
    var t := TopicReleased(s, a);
    assert AgentAt(s, a);
    TypesQuiet(s, t, a, Some(x));
    ReleasedTopics(s, t, a, x);
    ReleaseSharedDds(s, t, a);
    assert AgentAt(t, a);
    hide AgentAt;
    AgentsBystand(s, t, a, Some(x));
    ApartFrame(s, t, a, Some(x));
  }

  lemma ReleaseSharedDds(s: State, t: State, a: AgentId)
    requires TopicsOk(s) && AgentsOk(s) && DdsOk(s) && a in s.agents && s.agents[a].Live?
    requires s.agents[a].topicName in s.topics && s.topics[s.agents[a].topicName].count > 1
    requires Moved(s, t, a, Some(ReleasingType(s.agents[a].typeName))) && t.dds == s.dds && t.nextDds == s.nextDds
    ensures DdsOk(t)
  {
    var b := AnotherUser(s, a);
    forall d | d in t.dds ensures DdsAt(t, d) {
      assert DdsAt(s, d);
      assert t.agents[b] == s.agents[a];
      DdsFrame(s, t, a, Some(ReleasingType(s.agents[a].typeName)), d);
    }
    hide DdsAt;
  }

  lemma ReleaseLastKeeps(s: State, a: AgentId)
    requires Inv(s) && a in s.agents && s.agents[a].Live?
    requires s.agents[a].topicName in s.topics && s.topics[s.agents[a].topicName].count == 1
    ensures Inv(TopicReleased(s, a))
  {
    hide TypesOk, TopicsOk, DdsOk;
    LiveIsActive(s, a);
    LastUser(s, a);
    var y := s.agents[a];
    var x := DeletingTopic(y.typeName, y.topicName, y.dds);
    var t := TopicReleased(s, a);
    assert AgentAt(s, a);
    TypesQuiet(s, t, a, Some(x));
    ReleasedTopics(s, t, a, x);
    ReleaseLastDds(s, t, a);
    assert AgentAt(t, a);
    hide AgentAt;
    AgentsBystand(s, t, a, Some(x));
    ApartFrame(s, t, a, Some(x));
  }

  lemma ReleaseLastDds(s: State, t: State, a: AgentId)
    requires DdsOk(s) && a in s.agents && s.agents[a].Live?
    requires var y := s.agents[a];
      && Recorded(s, y.dds, y.topicName, y.typeName, 0)
      && Moved(s, t, a, Some(DeletingTopic(y.typeName, y.topicName, y.dds)))
      && t.dds == s.dds[y.dds := s.dds[y.dds].(deletes := 1)] && t.nextDds == s.nextDds
    ensures DdsOk(t)
  {
    var y := s.agents[a];
    var x := DeletingTopic(y.typeName, y.topicName, y.dds);
    assert DdsAt(s, y.dds) && Backs(t.agents[a], y.dds);
    forall d | d in t.dds && d != y.dds ensures DdsAt(t, d) {
      assert DdsAt(s, d);
      DdsFrame(s, t, a, Some(x), d);
    }
  }

  lemma ReleaseTopicKeeps(s: State, a: AgentId)
    requires Inv(s) && a in s.agents && s.agents[a].Live?
    ensures Inv(TopicReleased(s, a))
  {
    LiveIsActive(s, a);
    hide Inv, TopicReleased;
    if s.topics[s.agents[a].topicName].count == 1 {
      ReleaseLastKeeps(s, a);
    } else {
      ReleaseSharedKeeps(s, a);
    }
  }

  // ------------------------------------------------------------------ every step

  lemma DegradeTables(s: State)
    requires TypesOk(s) && TopicsOk(s)
    ensures TypesOk(s.(degraded := true)) && TopicsOk(s.(degraded := true))
  {
    forall T | T in s.types ensures TypeAt(s.(degraded := true), T) {
      assert TypeAt(s, T);
    }
    forall n | n in s.topics ensures TopicAt(s.(degraded := true), n) {
      assert TopicAt(s, n);
    }
    hide TypeAt, TopicAt;
  }

  lemma DegradeAgents(s: State)
    requires AgentsOk(s) && DdsOk(s)
    ensures AgentsOk(s.(degraded := true)) && DdsOk(s.(degraded := true))
  {
    forall a | a in s.agents ensures AgentAt(s.(degraded := true), a) {
      assert AgentAt(s, a);
    }
    forall d | d in s.dds ensures DdsAt(s.(degraded := true), d) {
      assert DdsAt(s, d);
    }
    hide AgentAt, DdsAt;
  }

  lemma DegradeKeeps(s: State)
    requires Inv(s)
    ensures Inv(s.(degraded := true))
  {
    hide TypesOk, TopicsOk, AgentsOk, DdsOk;
    DegradeTables(s);
    DegradeAgents(s);
  }

  lemma StepKeepsInvariant(s: State, e: Event)
    requires Inv(s) && Enabled(s, e)
    ensures Inv(Apply(s, e))
  {
    hide Inv;
    match e
    case AcquireType(a, T, binding) => AcquireTypeKeeps(s, a, T, binding);
    case RegisterReturns(a, outcome) => RegisterReturnsKeeps(s, a, outcome);
    case AcquireTopic(a, n) => AcquireTopicKeeps(s, a, n);
    case CreateReturns(a, outcome) => CreateReturnsKeeps(s, a, outcome);
    case ReleaseTopic(a) => ReleaseTopicKeeps(s, a);
    case DeleteReturns(a, deleted) => DeleteReturnsKeeps(s, a, deleted);
    case ReleaseType(a) => ReleaseTypeKeeps(s, a);
    case UnregisterReturns(a, unregistered) => UnregisterReturnsKeeps(s, a, unregistered);
    case Degrade => DegradeKeeps(s);
  }
}
