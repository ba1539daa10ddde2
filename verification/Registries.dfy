/** The registries of the C++ `Context`, updated in place: one method per locked section of
    `acquire_type`, `acquire_topic`, `release_topic` and `release_type`. */
module Registries {
  import opened Common
  import opened TypeRegistry
  import opened TypeRegistryInvariant

  /** What a locked section tells its caller to do next. */
  datatype Answer =
    | Held                     // the reference was taken
    | Call                     // make the Fast DDS call, then report its outcome
    | Wait                     // sleep until another call has finished
    | Refused(error: ErrorCode)

  class Context {
    var types: map<Name, TypeEntry>
    var topics: map<Name, TopicEntry>
    var degraded: bool
    ghost var m: State

    /** The two tables are the model's, and the model is in order. */
    ghost predicate Valid()
      reads this
    {
      m.types == types && m.topics == topics && m.degraded == degraded && Inv(m)
    }

    constructor ()
      ensures Valid() && m == Initial()
    {
      types, topics, degraded := map[], map[], false;
      m := Initial();
      new;
      InitialInv();
    }

    /** The first section of `acquire_type`; `a` names the acquisition. */
    method AcquireType(ghost a: AgentId, T: Name, binding: nat) returns (r: Answer)
      requires Valid() && a !in m.agents
      modifies this
      ensures Valid() && m == TypeAcquired(old(m), a, T, binding)
      ensures r == Held <==> a in m.agents && m.agents[a] == TypeHeld(T)
      ensures r == Call <==> a in m.agents && m.agents[a] == Registering(T)
      ensures r.Refused? ==> r.error == if old(types)[T].binding != binding then TypeMismatch else DDSError
      ensures r == Wait <==> T in old(types) && old(types)[T].binding == binding
                             && (old(types)[T].phase == Creating || old(types)[T].phase == Retiring)
    {
      hide Inv;
      AcquireTypeKeeps(m, a, T, binding);
      m := TypeAcquired(m, a, T, binding);
      if T !in types {
        types := types[T := TypeEntry(binding, Creating, 0)];
        return Call;
      }
      var entry := types[T];
      if entry.binding != binding {
        return Refused(TypeMismatch);
      }
      if entry.phase == Active {
        types := types[T := entry.(count := entry.count + 1)];
        return Held;
      }
      if entry.phase == Orphaned {
        return Refused(DDSError);
      }
      r := Wait;
    }

    /** The section after `register_type`; the lookup is proved to find its entry. */
    method RegisterReturned(ghost a: AgentId, T: Name, outcome: Outcome) returns (held: bool)
      requires Valid() && a in m.agents && m.agents[a] == Registering(T)
      modifies this
      ensures Valid() && m == TypeRegistered(old(m), a, outcome) && T in old(types)
      ensures held <==> a in m.agents
    {
      hide TypesOk, TopicsOk, DdsOk, AgentAt, Apart;
      NobodyElse(m, a);
      hide Inv;
      RegisterReturnsKeeps(m, a, outcome);
      m := TypeRegistered(m, a, outcome);
      match outcome {
        case Ok => types := types[T := types[T].(phase := Active, count := 1)];
        case Fails => types := types - {T};
        case Throws => types := types[T := types[T].(phase := Orphaned)];
      }
      held := outcome == Ok;
    }

    /** The section of `acquire_topic` once the type is held. */
    method AcquireTopic(ghost a: AgentId, T: Name, n: Name) returns (r: Answer)
      requires Valid() && a in m.agents && m.agents[a] == TypeHeld(T)
      modifies this
      ensures Valid() && m == TopicAcquired(old(m), a, n) && a in m.agents
      ensures r == Held <==> m.agents[a].Live?
      ensures r == Call <==> m.agents[a].CreatingTopic?
      ensures r.Refused? <==> m.agents[a].ReleasingType?
      ensures r.Refused? ==>
        r.error == if !degraded && n in topics && topics[n].wireType != T then TypeMismatch else DDSError
    {
      hide Inv;
      ActiveTopics(m, n);
      AcquireTopicKeeps(m, a, n);
      m := TopicAcquired(m, a, n);
      if degraded {
        return Refused(DDSError);
      }
      if n !in topics {
        topics := topics[n := TopicEntry(T, Creating, 0, None)];
        return Call;
      }
      var entry := topics[n];
      if entry.wireType != T {
        return Refused(TypeMismatch);
      }
      if entry.phase == Active {
        topics := topics[n := entry.(count := entry.count + 1)];
        return Held;
      }
      if entry.phase == Orphaned {
        return Refused(DDSError);
      }
      r := Wait;
    }

    static lemma ActiveTopics(s: State, n: Name)
      requires Inv(s)
      ensures n in s.topics && s.topics[n].phase == Active ==> s.topics[n].topic.Some?
    {
      if n in s.topics && s.topics[n].phase == Active {
        ActiveTopic(s, n);
      }
    }

    /** The section after `create_topic`. */
    method CreateReturned(ghost a: AgentId, T: Name, n: Name, d: DdsId, outcome: Outcome)
      requires Valid() && a in m.agents && m.agents[a] == CreatingTopic(T, n, d)
      modifies this
      ensures Valid() && m == TopicCreated(old(m), a, outcome) && n in old(topics)
    {
      hide TypesOk, TopicsOk, DdsOk, AgentAt, Apart;
      TopicIsMine(m, a);
      hide Inv;
      CreateReturnsKeeps(m, a, outcome);
      m := TopicCreated(m, a, outcome);
      match outcome
      case Ok => topics := topics[n := topics[n].(topic := Some(d), phase := Active, count := 1)];
      case Fails => topics := topics - {n};
      case Throws => topics := topics[n := topics[n].(phase := Orphaned)];
    }

    /** The first section of `release_topic`: `Call` asks for `delete_topic`. */
    method ReleaseTopic(ghost a: AgentId, n: Name) returns (r: Answer)
      requires Valid() && a in m.agents && m.agents[a].Live? && m.agents[a].topicName == n
      modifies this
      ensures Valid() && m == TopicReleased(old(m), a) && a in m.agents
      ensures r == Call <==> m.agents[a].DeletingTopic?
      ensures r == Held <==> m.agents[a].ReleasingType?
    {
      hide TypesOk, TopicsOk, DdsOk, AgentsOk, Apart;
      LiveIsActive(m, a);
      hide Inv;
      ReleaseTopicKeeps(m, a);
      m := TopicReleased(m, a);
      if n !in topics || topics[n].count == 0 {
        assert false;
      }
      var entry := topics[n].(count := topics[n].count - 1);
      topics := topics[n := entry];
      if entry.count != 0 || entry.phase != Active {
        return if entry.phase == Active then Held else Refused(DDSError);
      }
      topics := topics[n := entry.(phase := Retiring)];
      r := Call;
    }

    /** The section after `delete_topic`; a failure leaves the type reference in place. */
    method DeleteReturned(ghost a: AgentId, n: Name, deleted: bool)
      requires Valid() && a in m.agents && m.agents[a].DeletingTopic? && m.agents[a].topicName == n
      modifies this
      ensures Valid() && m == TopicDeleted(old(m), a, deleted)
    {
      hide Inv;
      DeleteReturnsKeeps(m, a, deleted);
      m := TopicDeleted(m, a, deleted);
      if !deleted {
        if n in topics {
          topics := topics[n := topics[n].(phase := Orphaned)];
        }
        return;
      }
      topics := topics - {n};
    }

    /** The first section of `release_type`: the result asks for `unregister_type`. */
    method ReleaseType(ghost a: AgentId, T: Name) returns (unregister: bool)
      requires Valid() && a in m.agents && m.agents[a] == ReleasingType(T)
      modifies this
      ensures Valid() && m == TypeReleased(old(m), a)
      ensures unregister <==> a in m.agents
      ensures unregister ==> m.agents[a] == Unregistering(T)
    {
      hide TypesOk, TopicsOk, DdsOk, AgentsOk, Apart;
      HeldIsActive(m, a);
      hide Inv;
      ReleaseTypeKeeps(m, a);
      m := TypeReleased(m, a);
      if T !in types || types[T].count == 0 {
        assert false;
      }
      var entry := types[T].(count := types[T].count - 1);
      types := types[T := entry];
      if entry.count != 0 || entry.phase != Active {
        return false;
      }
      types := types[T := entry.(phase := Retiring)];
      unregister := true;
    }

    /** The section after `unregister_type`. */
    method UnregisterReturned(ghost a: AgentId, T: Name, unregistered: bool)
      requires Valid() && a in m.agents && m.agents[a] == Unregistering(T)
      modifies this
      ensures Valid() && m == TypeUnregistered(old(m), a, unregistered)
    {
      hide Inv;
      UnregisterReturnsKeeps(m, a, unregistered);
      m := TypeUnregistered(m, a, unregistered);
      if T !in types {
        return;
      }
      if unregistered {
        types := types - {T};
      } else {
        types := types[T := types[T].(phase := Orphaned)];
      }
    }
  }
}
