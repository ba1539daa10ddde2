/** Whole runs of the type and topic registries. */
module TypeRegistryRuns {
  import opened Common
  import opened TypeRegistry
  import opened TypeRegistryInvariant

  lemma {:induction false} RunKeepsInvariant(states: seq<State>, events: seq<Event>, k: nat)
    requires IsRun(states, events) && k < |states|
    ensures Inv(states[k])
  {
    hide Inv, Apply, Enabled;
    if k == 0 {
      InitialInv();
    } else {
      RunKeepsInvariant(states, events, k - 1);
      assert Enabled(states[k - 1], events[k - 1]) && states[k] == Apply(states[k - 1], events[k - 1]);
      StepKeepsInvariant(states[k - 1], events[k - 1]);
    }
  }

  /** `unregister_type` is never in progress for a type while a DDS topic created with it may
      still exist. */
  lemma NoUnregisterUnderATopic(states: seq<State>, events: seq<Event>, k: nat, a: AgentId, d: DdsId)
    requires IsRun(states, events) && k < |states|
    requires a in states[k].agents && states[k].agents[a].Unregistering?
    requires d in states[k].dds && states[k].dds[d].mayExist
    ensures states[k].dds[d].typeName != states[k].agents[a].typeName
  {
    var s := states[k];
    RunKeepsInvariant(states, events, k);
    hide IsRun, TypesOk, TopicsOk, Apart;
    assert DdsAt(s, d) && AgentAt(s, a);
    var b :| b in s.agents && Backs(s.agents[b], d) && s.agents[b].typeName == s.dds[d].typeName;
    assert AgentAt(s, b);
  }

  /** Deletion is attempted at most once per created topic, and while it is in progress nobody
      holds a handle to the topic. */
  lemma DeletedOnceAndUnused(states: seq<State>, events: seq<Event>, k: nat, d: DdsId)
    requires IsRun(states, events) && k < |states| && d in states[k].dds
    ensures states[k].dds[d].deletes <= 1
    ensures forall a, b :: (a in states[k].agents && states[k].agents[a].DeletingTopic? && states[k].agents[a].dds == d
                            && b in states[k].agents && states[k].agents[b].Live?) ==>
                             states[k].agents[b].dds != d
  {
    var s := states[k];
    RunKeepsInvariant(states, events, k);
    hide IsRun, TypesOk, TopicsOk;
    assert DdsAt(s, d);
    forall a, b | a in s.agents && s.agents[a].DeletingTopic? && s.agents[a].dds == d && b in s.agents
      && s.agents[b].Live?
      ensures s.agents[b].dds != d
    {
      assert AgentAt(s, a) && AgentAt(s, b);
    }
  }

  /** Counts are exact: an Active type counts the handles and deliberately retained references
      to it, an Active topic its live handles, and entries in any other phase count nothing. */
  lemma CountsAreExact(states: seq<State>, events: seq<Event>, k: nat)
    requires IsRun(states, events) && k < |states|
    ensures var s := states[k];
      && (forall T :: T in s.types ==>
            s.types[T].count == |Holders(s.agents, T)| && (s.types[T].phase == Active <==> s.types[T].count > 0))
      && (forall n :: n in s.topics ==>
            s.topics[n].count == |Users(s.agents, n)| && (s.topics[n].phase == Active <==> s.topics[n].count > 0))
  {
    var s := states[k];
    RunKeepsInvariant(states, events, k);
    hide IsRun, DdsOk, AgentsOk, Apart;
    assert forall T :: T in s.types ==> TypeAt(s, T);
    assert forall n :: n in s.topics ==> TopicAt(s, n);
  }

  /** The defensive exits of `release_topic` and `release_type`, and the lookups after each
      unlocked call, always find the entry. */
  lemma LookupsSucceed(states: seq<State>, events: seq<Event>, k: nat, a: AgentId)
    requires IsRun(states, events) && k < |states| && a in states[k].agents
    ensures var s := states[k];
      var x := s.agents[a];
      && x.typeName in s.types
      && (x.ReleasingType? ==> s.types[x.typeName].count > 0)
      && (x.Live? || x.CreatingTopic? || x.DeletingTopic? ==> x.topicName in s.topics && x.dds in s.dds)
      && (x.Live? ==> s.topics[x.topicName].count > 0)
  {
    var s := states[k];
    RunKeepsInvariant(states, events, k);
    hide IsRun, DdsOk, Apart;
    assert AgentAt(s, a);
    if s.agents[a].Live? {
      LiveIsActive(s, a);
    } else if s.agents[a].ReleasingType? {
      HeldIsActive(s, a);
    }
  }

  /** Whoever waits for a transient entry waits for a call that is in progress. */
  lemma WaitersHaveAWaker(states: seq<State>, events: seq<Event>, k: nat)
    requires IsRun(states, events) && k < |states|
    ensures var s := states[k];
      && (forall T :: T in s.types && (s.types[T].phase == Creating || s.types[T].phase == Retiring) ==>
            exists a :: a in s.agents && MovesType(s.agents[a], T, s.types[T].phase))
      && (forall n :: n in s.topics && (s.topics[n].phase == Creating || s.topics[n].phase == Retiring) ==>
            exists a :: a in s.agents && MovesTopic(s.agents[a], n, s.topics[n].phase))
  {
    var s := states[k];
    RunKeepsInvariant(states, events, k);
    hide IsRun, DdsOk, AgentsOk, Apart;
    assert forall T :: T in s.types ==> TypeAt(s, T);
    assert forall n :: n in s.topics ==> TopicAt(s, n);
  }
}
