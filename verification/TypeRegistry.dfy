/** The type and topic registries of the C++ `Context`: two reference-counted tables whose
    DDS calls run without the lock, so that a table entry passes through transient phases. */
module TypeRegistry {
  import opened Common

  type Name = string
  type AgentId = nat
  type DdsId = nat

  datatype Phase = Creating | Active | Retiring | Orphaned

  datatype TypeEntry = TypeEntry(binding: nat, phase: Phase, count: nat)

  datatype TopicEntry = TopicEntry(wireType: Name, phase: Phase, count: nat, topic: Option<DdsId>)

  /** How far one acquisition, or the handle it produced, has come. */
  datatype Agent =
    | Registering(typeName: Name)                                     // inside register_type
    | TypeHeld(typeName: Name)
    | CreatingTopic(typeName: Name, topicName: Name, dds: DdsId)      // inside create_topic
    | Live(typeName: Name, topicName: Name, dds: DdsId)               // an application holds the Topic
    | DeletingTopic(typeName: Name, topicName: Name, dds: DdsId)      // inside delete_topic
    | ReleasingType(typeName: Name)
    | Unregistering(typeName: Name)                                   // inside unregister_type
    | Retained(typeName: Name, dds: DdsId)                            // disarmed on purpose

  /** A topic Fast DDS was asked to create: whether it may still exist, and how often its
      deletion was attempted. */
  datatype DdsTopic = DdsTopic(name: Name, typeName: Name, mayExist: bool, deletes: nat)

  datatype State = State(types: map<Name, TypeEntry>, topics: map<Name, TopicEntry>, degraded: bool,
                         agents: map<AgentId, Agent>, dds: map<DdsId, DdsTopic>, nextDds: DdsId)

  datatype Outcome = Ok | Fails | Throws

  datatype Event =
    | AcquireType(a: AgentId, typeName: Name, binding: nat)
    | RegisterReturns(a: AgentId, outcome: Outcome)
    | AcquireTopic(a: AgentId, topicName: Name)
    | CreateReturns(a: AgentId, outcome: Outcome)
    | ReleaseTopic(a: AgentId)
    | DeleteReturns(a: AgentId, deleted: bool)
    | ReleaseType(a: AgentId)
    | UnregisterReturns(a: AgentId, unregistered: bool)
    | Degrade

  function Initial(): State {
    State(map[], map[], false, map[], map[], 0)
  }

  predicate Enabled(s: State, e: Event) {
    match e
    case AcquireType(a, _, _) => a !in s.agents
    case RegisterReturns(a, _) => a in s.agents && s.agents[a].Registering?
    case AcquireTopic(a, _) => a in s.agents && s.agents[a].TypeHeld?
    case CreateReturns(a, _) => a in s.agents && s.agents[a].CreatingTopic?
    case ReleaseTopic(a) => a in s.agents && s.agents[a].Live?
    case DeleteReturns(a, _) => a in s.agents && s.agents[a].DeletingTopic?
    case ReleaseType(a) => a in s.agents && s.agents[a].ReleasingType?
    case UnregisterReturns(a, _) => a in s.agents && s.agents[a].Unregistering?
    case Degrade => true
  }

  /** The first section of `acquire_type`. */
  function TypeAcquired(s: State, a: AgentId, T: Name, binding: nat): State {
    if T !in s.types then
      s.(types := s.types[T := TypeEntry(binding, Creating, 0)], agents := s.agents[a := Registering(T)])
    else if s.types[T].binding != binding then s
    else if s.types[T].phase == Active then
      s.(types := s.types[T := s.types[T].(count := s.types[T].count + 1)], agents := s.agents[a := TypeHeld(T)])
    else s
  }

  /** The section of `acquire_type` after `register_type`. */
  function TypeRegistered(s: State, a: AgentId, outcome: Outcome): State
    requires a in s.agents && s.agents[a].Registering?
  {
    var T := s.agents[a].typeName;
    if T !in s.types then s.(agents := s.agents - {a})
    else match outcome
      case Ok => s.(types := s.types[T := s.types[T].(phase := Active, count := 1)],
                    agents := s.agents[a := TypeHeld(T)])
      case Fails => s.(types := s.types - {T}, agents := s.agents - {a})
      case Throws => s.(types := s.types[T := s.types[T].(phase := Orphaned)], agents := s.agents - {a})
  }

  /** The first section of `acquire_topic` once the type is held. */
  function TopicAcquired(s: State, a: AgentId, n: Name): State
    requires a in s.agents && s.agents[a].TypeHeld?
  {
    var T := s.agents[a].typeName;
    if s.degraded then s.(agents := s.agents[a := ReleasingType(T)])
    else if n !in s.topics then
      s.(topics := s.topics[n := TopicEntry(T, Creating, 0, None)], nextDds := s.nextDds + 1,
         agents := s.agents[a := CreatingTopic(T, n, s.nextDds)], dds := s.dds[s.nextDds := DdsTopic(n, T, true, 0)])
    else if s.topics[n].wireType != T then s.(agents := s.agents[a := ReleasingType(T)])
    else if s.topics[n].phase == Active && s.topics[n].topic.Some? then
      s.(topics := s.topics[n := s.topics[n].(count := s.topics[n].count + 1)],
         agents := s.agents[a := Live(T, n, s.topics[n].topic.value)])
    else if s.topics[n].phase == Orphaned then s.(agents := s.agents[a := ReleasingType(T)])
    else s
  }

  /** The section of `acquire_topic` after `create_topic`. */
  function TopicCreated(s: State, a: AgentId, outcome: Outcome): State
    requires a in s.agents && s.agents[a].CreatingTopic?
  {
    var x := s.agents[a];
    if x.topicName !in s.topics || x.dds !in s.dds then s
    else match outcome
      case Ok =>
        s.(topics := s.topics[x.topicName := s.topics[x.topicName].(phase := Active, count := 1, topic := Some(x.dds))],
           agents := s.agents[a := Live(x.typeName, x.topicName, x.dds)])
      case Fails =>
        s.(topics := s.topics - {x.topicName}, agents := s.agents[a := ReleasingType(x.typeName)],
           dds := s.dds[x.dds := s.dds[x.dds].(mayExist := false)])
      case Throws =>
        s.(topics := s.topics[x.topicName := s.topics[x.topicName].(phase := Orphaned)],
           agents := s.agents[a := Retained(x.typeName, x.dds)])
  }

  /** `Topic::reset` and the first section of `release_topic`. */
  function TopicReleased(s: State, a: AgentId): State
    requires a in s.agents && s.agents[a].Live?
  {
    var x := s.agents[a];
    if x.topicName !in s.topics || s.topics[x.topicName].count == 0 then
      s.(agents := s.agents[a := Retained(x.typeName, x.dds)])
    else
      var e := s.topics[x.topicName];
      var left := s.topics[x.topicName := e.(count := e.count - 1)];
      if e.count != 1 || e.phase != Active then
        s.(topics := left,
           agents := s.agents[a := if e.phase == Active then ReleasingType(x.typeName)
                                   else Retained(x.typeName, x.dds)])
      else
        s.(topics := s.topics[x.topicName := e.(count := 0, phase := Retiring)],
           agents := s.agents[a := DeletingTopic(x.typeName, x.topicName, x.dds)],
           dds := if x.dds in s.dds then s.dds[x.dds := s.dds[x.dds].(deletes := s.dds[x.dds].deletes + 1)] else s.dds)
  }

  /** The section of `release_topic` after `delete_topic`. */
  function TopicDeleted(s: State, a: AgentId, deleted: bool): State
    requires a in s.agents && s.agents[a].DeletingTopic?
  {
    var x := s.agents[a];
    if deleted then
      s.(topics := s.topics - {x.topicName}, agents := s.agents[a := ReleasingType(x.typeName)],
         dds := if x.dds in s.dds then s.dds[x.dds := s.dds[x.dds].(mayExist := false)] else s.dds)
    else
      s.(topics := if x.topicName in s.topics then s.topics[x.topicName := s.topics[x.topicName].(phase := Orphaned)]
                   else s.topics,
         agents := s.agents[a := Retained(x.typeName, x.dds)])
  }

  /** The first section of `release_type`. */
  function TypeReleased(s: State, a: AgentId): State
    requires a in s.agents && s.agents[a].ReleasingType?
  {
    var T := s.agents[a].typeName;
    if T !in s.types || s.types[T].count == 0 then s.(agents := s.agents - {a})
    else
      var e := s.types[T];
      if e.count != 1 || e.phase != Active then
        s.(types := s.types[T := e.(count := e.count - 1)], agents := s.agents - {a})
      else
        s.(types := s.types[T := e.(count := 0, phase := Retiring)], agents := s.agents[a := Unregistering(T)])
  }

  /** The section of `release_type` after `unregister_type`. */
  function TypeUnregistered(s: State, a: AgentId, unregistered: bool): State
    requires a in s.agents && s.agents[a].Unregistering?
  {
    var T := s.agents[a].typeName;
    var t := s.(agents := s.agents - {a});
    if T !in s.types then t
    else if unregistered then t.(types := s.types - {T})
    else t.(types := s.types[T := s.types[T].(phase := Orphaned)])
  }

  function Apply(s: State, e: Event): State
    requires Enabled(s, e)
  {
    match e
    case AcquireType(a, T, binding) => TypeAcquired(s, a, T, binding)
    case RegisterReturns(a, outcome) => TypeRegistered(s, a, outcome)
    case AcquireTopic(a, n) => TopicAcquired(s, a, n)
    case CreateReturns(a, outcome) => TopicCreated(s, a, outcome)
    case ReleaseTopic(a) => TopicReleased(s, a)
    case DeleteReturns(a, deleted) => TopicDeleted(s, a, deleted)
    case ReleaseType(a) => TypeReleased(s, a)
    case UnregisterReturns(a, unregistered) => TypeUnregistered(s, a, unregistered)
    case Degrade => s.(degraded := true)
  }

  ghost predicate IsRun(states: seq<State>, events: seq<Event>) {
    && |states| == |events| + 1
    && states[0] == Initial()
    && (forall k {:trigger events[k]} :: 0 <= k < |events| ==>
          Enabled(states[k], events[k]) && states[k + 1] == Apply(states[k], events[k]))
  }
}
