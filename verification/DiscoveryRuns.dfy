/** What holds along every run of the discovered graph: order of revisions, finality of
    removals, agreement of equal revisions, and exact reference counts. */
module DiscoveryRuns {
  import opened Common
  import opened DiscoveryModel

  // ---------------------------------------------------------- revision and health

  lemma {:induction false} RunKeepsParticipants(states: seq<State>, events: seq<Event>, k: nat)
    requires IsRun(states, events) && k < |states|
    ensures ParticipantsKnown(states[k].tables)
  {
    if k > 0 {
      RunKeepsParticipants(states, events, k - 1);
      assert states[k] == Apply(states[k - 1], events[k - 1]);
      hide ParticipantsKnown, Effect;
      ParticipantsStayKnown(states[k - 1].tables, events[k - 1]);
    }
  }

  /** The revision moves by one exactly when a healthy graph's view changes and stays healthy;
      it never goes back, and an unhealthy graph never changes again. */
  lemma StepMovesRevision(s: State, e: Event)
    requires ParticipantsKnown(s.tables)
    ensures var t := Apply(s, e);
      && s.revision <= t.revision <= s.revision + 1
      && (s.health == Unavailable ==> t.health == Unavailable && t.revision == s.revision && t.tables == s.tables)
      && (t.health == Healthy ==> (t.revision == s.revision <==> SameView(s.tables, t.tables)))
      && (s.revision == MAX_UINT64 && t.health == Healthy ==> SameView(s.tables, t.tables))
  {
    hide Effect, SameView, ParticipantsKnown;
    ChangedMeansVisible(s.tables, e);
    SameViewIsReflexive(s.tables);
  }

  lemma SameViewIsReflexive(t: Tables)
    ensures SameView(t, t)
  {
  }

  lemma SameViewIsTransitive(a: Tables, b: Tables, c: Tables)
    requires SameView(a, b) && SameView(b, c)
    ensures SameView(a, c)
  {
  }

  /** Along a run the revision is monotone and Unavailable is absorbing; two views taken while
      healthy at the same revision differ in nothing but the reference counts of nodes. */
  lemma {:induction false} EqualRevisionsAgree(states: seq<State>, events: seq<Event>, j: nat, k: nat)
    requires IsRun(states, events) && j <= k < |states|
    ensures states[j].revision <= states[k].revision
    ensures states[k].health == Healthy ==> states[j].health == Healthy
    ensures states[k].health == Healthy && states[j].revision == states[k].revision ==>
      SameView(states[j].tables, states[k].tables)
  {
    if j == k {
      SameViewIsReflexive(states[j].tables);
    } else {
      EqualRevisionsAgree(states, events, j, k - 1);
      RunKeepsParticipants(states, events, k - 1);
      assert states[k] == Apply(states[k - 1], events[k - 1]);
      hide Apply, SameView, ParticipantsKnown;
      StepMovesRevision(states[k - 1], events[k - 1]);
      if states[k].health == Healthy && states[j].revision == states[k].revision {
        SameViewIsTransitive(states[j].tables, states[k - 1].tables, states[k].tables);
      }
    }
  }

  // ------------------------------------------------------------- Removed is final

  /** Records of participants and endpoints are never deleted, and Removed ones stay Removed. */
  ghost predicate OnlyRemoves(a: Tables, b: Tables) {
    && |a.participants| <= |b.participants| && |a.endpoints| <= |b.endpoints|
    && (forall k :: 0 <= k < |a.participants| ==>
          b.participants[k].key == a.participants[k].key
          && (a.participants[k].value.lifecycle == Removed ==> b.participants[k].value.lifecycle == Removed))
    && (forall k :: 0 <= k < |a.endpoints| ==>
          b.endpoints[k].key == a.endpoints[k].key
          && (a.endpoints[k].value.lifecycle == Removed ==> b.endpoints[k].value.lifecycle == Removed))
  }

  lemma ParticipantOnlyRemoves(t: Tables, prefix: Prefix, change: Change)
    ensures OnlyRemoves(t, ParticipantChange(t, prefix, change).0)
  {
  }

  lemma EndpointOnlyRemoves(t: Tables, guid: Guid, endpoint: Endpoint)
    ensures OnlyRemoves(t, EndpointChange(t, guid, endpoint).0)
  {
  }

  lemma EffectOnlyRemoves(t: Tables, e: Event)
    ensures OnlyRemoves(t, Effect(t, e).0)
  {
    hide ParticipantChange, EndpointChange, Set, Find;
    match e
    case ApplyParticipant(prefix, change) => ParticipantOnlyRemoves(t, prefix, change);
    case ApplyEndpoint(guid, endpoint) => EndpointOnlyRemoves(t, guid, endpoint);
    case _ =>
  }

  lemma StepOnlyRemoves(s: State, e: Event)
    ensures OnlyRemoves(s.tables, Apply(s, e).tables)
  {
    hide Effect;
    EffectOnlyRemoves(s.tables, e);
  }

  lemma {:induction false} RemovedIsFinal(states: seq<State>, events: seq<Event>, j: nat, k: nat)
    requires IsRun(states, events) && j <= k < |states|
    ensures OnlyRemoves(states[j].tables, states[k].tables)
  {
    if j < k {
      RemovedIsFinal(states, events, j, k - 1);
      assert states[k] == Apply(states[k - 1], events[k - 1]);
      hide Apply;
      StepOnlyRemoves(states[k - 1], events[k - 1]);
    }
  }

  // --------------------------------------------------------------- reference counts

  /** How many local endpoints belong to the node. */
  function Bound(locals: seq<Keyed<Guid, LocalEndpoint>>, id: NodeId): nat {
    if locals == [] then 0 else (if locals[0].value.node == id then 1 else 0) + Bound(locals[1..], id)
  }

  lemma {:induction false} BoundSplit(a: seq<Keyed<Guid, LocalEndpoint>>, b: seq<Keyed<Guid, LocalEndpoint>>,
                                      id: NodeId)
    ensures Bound(a + b, id) == Bound(a, id) + Bound(b, id)
  {
    if a == [] {
      assert a + b == b;
    } else {
      assert (a + b)[1..] == a[1..] + b;
      BoundSplit(a[1..], b, id);
    }
  }

  lemma BoundAt(locals: seq<Keyed<Guid, LocalEndpoint>>, k: nat, x: Keyed<Guid, LocalEndpoint>, id: NodeId)
    requires k < |locals|
    ensures var here := if locals[k].value.node == id then 1 else 0;
      && Bound(locals[..k] + locals[k + 1..], id) == Bound(locals, id) - here
      && Bound(locals[k := x], id) == Bound(locals, id) - here + (if x.value.node == id then 1 else 0)
  {
    assert locals == locals[..k] + ([locals[k]] + locals[k + 1..]);
    assert locals[k := x] == locals[..k] + ([x] + locals[k + 1..]);
    BoundSplit(locals[..k], locals[k + 1..], id);
    BoundSplit(locals[..k], [locals[k]] + locals[k + 1..], id);
    BoundSplit(locals[..k], [x] + locals[k + 1..], id);
  }

  lemma {:induction false} BoundIsPositive(locals: seq<Keyed<Guid, LocalEndpoint>>, k: nat)
    requires k < |locals|
    ensures Bound(locals, locals[k].value.node) > 0
  {
    if k > 0 {
      BoundIsPositive(locals[1..], k - 1);
    }
  }

  lemma {:induction false} NobodyBound(locals: seq<Keyed<Guid, LocalEndpoint>>, id: NodeId)
    requires forall k :: 0 <= k < |locals| ==> locals[k].value.node != id
    ensures Bound(locals, id) == 0
  {
    if locals != [] {
      NobodyBound(locals[1..], id);
    }
  }

  ghost predicate NodeKeys(t: Tables) {
    && (forall i, j :: 0 <= i < j < |t.nodes| ==> t.nodes[i].key != t.nodes[j].key)
    && (forall i :: 0 <= i < |t.nodes| ==> 0 < t.nodes[i].key <= t.lastNode)
  }

  /** The node's count is its facade's reference plus one for each of its endpoints. */
  ghost predicate CountAt(s: State, k: nat)
    requires k < |s.tables.nodes|
  {
    var n := s.tables.nodes[k];
    n.value.references == (if n.key in s.facades then 1 else 0) + Bound(s.tables.locals, n.key) > 0
  }

  /** Nodes referred to by facades and endpoints are on record. */
  ghost predicate OwnersPresent(s: State) {
    && (forall k :: 0 <= k < |s.tables.locals| ==> Has(s.tables.nodes, s.tables.locals[k].value.node))
    && (forall id :: id in s.facades ==> Has(s.tables.nodes, id))
  }

  ghost predicate Balanced(s: State) {
    NodeKeys(s.tables) && OwnersPresent(s) && forall k :: 0 <= k < |s.tables.nodes| ==> CountAt(s, k)
  }

  /** The call does not bind an endpoint to a second node while it belongs to another. */
  predicate KeepsNode(s: State, guid: Guid, local: LocalEndpoint) {
    local.node == 0 || !Has(s.tables.nodes, local.node) || !Has(s.tables.locals, guid)
    || Get(s.tables.locals, guid).node == local.node
  }

  /** Callers release a facade once and bind an endpoint to one node. */
  predicate WellUsed(s: State, e: Event) {
    match e
    case ReleaseNode(id) => id == 0 || id in s.facades
    case AddLocal(guid, local) => KeepsNode(s, guid, local)
    case _ => true
  }

  /** With distinct keys a lookup finds the only record. */
  lemma FindIs(t: Tables, k: nat)
    requires NodeKeys(t) && k < |t.nodes|
    ensures Find(t.nodes, t.nodes[k].key) == k && Has(t.nodes, t.nodes[k].key)
  {
    HasMember(t.nodes, t.nodes[k].key);
  }

  /** References the node should have. */
  ghost function Share(s: State, id: NodeId): int {
    (if id in s.facades then 1 else 0) + Bound(s.tables.locals, id)
  }

  lemma ErasedOrSet(t: Tables, id: NodeId, x: NodeId)
    requires NodeKeys(t) && Has(t.nodes, id)
    ensures x != id ==> (Has(Erased(t.nodes, id), x) <==> Has(t.nodes, x))
  {
    var f := Find(t.nodes, id);
    var r := Erased(t.nodes, id);
    assert forall k :: 0 <= k < |r| ==> r[k] == if k < f then t.nodes[k] else t.nodes[k + 1];
    HasMember(r, x);
    HasMember(t.nodes, x);
    if x != id && Has(t.nodes, x) {
      var k := Find(t.nodes, x);
      assert r[if k < f then k else k - 1].key == x;
    }
  }

  /** Where the `k`-th record of the table comes from when a reference to `id` was dropped. */
  function Origin(t: Tables, id: NodeId, k: nat): nat
    requires Has(t.nodes, id)
  {
    if Get(t.nodes, id).references <= 1 && k >= Find(t.nodes, id) then k + 1 else k
  }

  lemma DroppedAt(t: Tables, id: NodeId, k: nat)
    requires Has(t.nodes, id) && k < |Dropped(t.nodes, id)|
    ensures var f := Find(t.nodes, id);
      var n := t.nodes[f].value;
      var d := Dropped(t.nodes, id);
      && f < |t.nodes| && Origin(t, id, k) < |t.nodes|
      && |d| == (if n.references <= 1 then |t.nodes| - 1 else |t.nodes|)
      && d[k] == (if n.references > 1 && k == f then Keyed(id, n.(references := n.references - 1))
                  else t.nodes[Origin(t, id, k)])
      && (n.references <= 1 ==> Origin(t, id, k) != f)
  {
    hide Find;
  }

  lemma DroppedKeys(t: Tables, id: NodeId)
    requires NodeKeys(t) && Has(t.nodes, id)
    ensures NodeKeys(t.(nodes := Dropped(t.nodes, id)))
  {
    var d := Dropped(t.nodes, id);
    hide Dropped, Find;
    forall k | 0 <= k < |d| ensures Origin(t, id, k) < |t.nodes| && d[k].key == t.nodes[Origin(t, id, k)].key {
      DroppedAt(t, id, k);
    }
  }

  lemma DroppedCount(s: State, t: State, id: NodeId, k: nat)
    requires NodeKeys(s.tables) && Has(s.tables.nodes, id) && t.tables.nodes == Dropped(s.tables.nodes, id)
      && k < |t.tables.nodes|
    requires Origin(s.tables, id, k) < |s.tables.nodes| && CountAt(s, Origin(s.tables, id, k))
    requires forall x :: Share(t, x) == Share(s, x) - (if x == id then 1 else 0)
    ensures CountAt(t, k)
  {
    hide Dropped, Bound;
    DroppedAt(s.tables, id, k);
    assert Share(t, t.tables.nodes[k].key) == t.tables.nodes[k].value.references;
  }

  /** One reference to node `id` is gone from the table and from what the table should say. */
  lemma DroppedKeeps(s: State, t: State, id: NodeId)
    requires Balanced(s) && Has(s.tables.nodes, id)
    requires t.tables.nodes == Dropped(s.tables.nodes, id) && t.tables.lastNode == s.tables.lastNode
    requires forall x :: Share(t, x) == Share(s, x) - (if x == id then 1 else 0)
    requires forall k :: 0 <= k < |t.tables.locals| ==> Has(s.tables.nodes, t.tables.locals[k].value.node)
    requires t.facades <= s.facades
    ensures Balanced(t)
  {
    hide OwnersPresent, Dropped, Bound, Find;
    var f := Find(s.tables.nodes, id);
    assert CountAt(s, f);
    DroppedKeys(s.tables, id);
    DroppedOwners(s, t, id, s.tables.nodes[f].value.references);
    hide CountAt, Share;
    forall k | 0 <= k < |t.tables.nodes| ensures CountAt(t, k) {
      DroppedAt(s.tables, id, k);
      DroppedCount(s, t, id, k);
    }
  }

  /** A node that is erased is no longer referred to. */
  lemma DroppedOwners(s: State, t: State, id: NodeId, references: nat)
    requires NodeKeys(s.tables) && OwnersPresent(s) && Has(s.tables.nodes, id)
      && Get(s.tables.nodes, id).references == references
    requires t.tables.nodes == Dropped(s.tables.nodes, id)
    requires references <= 1 ==> Share(t, id) == 0
    requires forall k :: 0 <= k < |t.tables.locals| ==> Has(s.tables.nodes, t.tables.locals[k].value.node)
    requires t.facades <= s.facades
    ensures OwnersPresent(t)
  {
    var n := Get(s.tables.nodes, id);
    forall k | 0 <= k < |t.tables.locals| ensures Has(t.tables.nodes, t.tables.locals[k].value.node) {
      var x := t.tables.locals[k].value.node;
      BoundIsPositive(t.tables.locals, k);
      ErasedOrSet(s.tables, id, x);
      HasAfter(s.tables.nodes, id, x, n.(references := if n.references > 0 then n.references - 1 else 0));
    }
    forall x | x in t.facades ensures Has(t.tables.nodes, x) {
      ErasedOrSet(s.tables, id, x);
      HasAfter(s.tables.nodes, id, x, n.(references := if n.references > 0 then n.references - 1 else 0));
    }
  }

  lemma ReleaseBalanced(s: State, id: NodeId)
    requires Balanced(s) && s.health == Healthy && (id == 0 || id in s.facades)
    ensures Balanced(Apply(s, ReleaseNode(id)))
  {
    var t := Apply(s, ReleaseNode(id));
    if id in s.facades {
      assert Has(s.tables.nodes, id);
      FindIs(s.tables, Find(s.tables.nodes, id));
      DroppedKeeps(s, t, id);
    } else {
      SameTables(s, t);
    }
  }

  lemma SameTables(s: State, t: State)
    requires Balanced(s) && t.facades == s.facades && t.tables.nodes == s.tables.nodes
      && t.tables.locals == s.tables.locals
    requires t.tables.lastNode == s.tables.lastNode
    ensures Balanced(t)
  {
    forall k | 0 <= k < |t.tables.nodes| ensures CountAt(t, k) {
      assert CountAt(s, k);
    }
  }

  lemma ErasedShares(s: State, t: State, k: nat)
    requires k < |s.tables.locals| && t.tables.locals == s.tables.locals[..k] + s.tables.locals[k + 1..]
      && t.facades == s.facades
    ensures forall x :: Share(t, x) == Share(s, x) - (if x == s.tables.locals[k].value.node then 1 else 0)
    ensures forall j :: 0 <= j < |t.tables.locals| ==> t.tables.locals[j] in s.tables.locals
  {
    forall x ensures Share(t, x) == Share(s, x) - (if x == s.tables.locals[k].value.node then 1 else 0) {
      BoundAt(s.tables.locals, k, s.tables.locals[k], x);
    }
    assert forall j :: 0 <= j < |t.tables.locals| ==> t.tables.locals[j] == s.tables.locals[if j < k then j else j + 1];
  }

  lemma RemoveBalanced(s: State, guid: Guid)
    requires Balanced(s) && s.health == Healthy
    ensures Balanced(Apply(s, RemoveLocal(guid)))
  {
    hide Share, CountAt, Bound, Dropped, NodeKeys;
    var t := Apply(s, RemoveLocal(guid));
    if !Has(s.tables.locals, guid) {
      SameTables(s, t);
    } else {
      var k := Find(s.tables.locals, guid);
      ErasedShares(s, t, k);
      DroppedKeeps(s, t, s.tables.locals[k].value.node);
    }
  }

  lemma NewNodeCounts(s: State, t: State, n: LocalNode)
    requires Balanced(s) && n.references == 1
    requires var id := s.tables.lastNode + 1;
      && t.tables == s.tables.(lastNode := id, nodes := s.tables.nodes + [Keyed(id, n)])
      && t.facades == s.facades + {id}
    ensures Balanced(t)
  {
    var id := s.tables.lastNode + 1;
    assert !Has(s.tables.nodes, id);
    NobodyBound(s.tables.locals, id);
    hide Find;
    forall k | 0 <= k < |t.tables.nodes| ensures CountAt(t, k) {
      assert k < |s.tables.nodes| ==> CountAt(s, k) && t.tables.nodes[k] == s.tables.nodes[k];
    }
    forall x ensures Has(t.tables.nodes, x) <==> Has(s.tables.nodes, x) || x == id {
      HasAfter(s.tables.nodes, id, x, n);
    }
  }

  lemma AddNodeBalanced(s: State, name: string, nameSpace: string)
    requires Balanced(s) && s.health == Healthy
    ensures Balanced(Apply(s, AddNode(name, nameSpace)))
  {
    hide Balanced;
    if s.tables.lastNode == MAX_UINT64 {
      SameTables(s, Apply(s, AddNode(name, nameSpace)));
    } else {
      NewNodeCounts(s, Apply(s, AddNode(name, nameSpace)), LocalNode(name, nameSpace, 1));
    }
  }

  lemma NewLocalCounts(s: State, t: State, guid: Guid, local: LocalEndpoint)
    requires Balanced(s) && Has(s.tables.nodes, local.node) && t.facades == s.facades
    requires var n := Get(s.tables.nodes, local.node);
      t.tables == s.tables.(nodes := Set(s.tables.nodes, local.node, n.(references := n.references + 1)),
                            locals := s.tables.locals + [Keyed(guid, local)])
    ensures Balanced(t)
  {
    var n := Get(s.tables.nodes, local.node);
    forall k | 0 <= k < |t.tables.nodes| ensures CountAt(t, k) {
      assert CountAt(s, k) && t.tables.nodes[k].key == s.tables.nodes[k].key;
      BoundSplit(s.tables.locals, [Keyed(guid, local)], t.tables.nodes[k].key);
      FindIs(s.tables, k);
    }
    hide Bound, Find;
    forall x ensures Has(t.tables.nodes, x) <==> Has(s.tables.nodes, x) {
      HasAfter(s.tables.nodes, local.node, x, n.(references := n.references + 1));
    }
  }

  /** A new endpoint under a known node. */
  lemma AddLocalBalanced(s: State, guid: Guid, local: LocalEndpoint)
    requires Balanced(s) && s.health == Healthy && local.node != 0
    requires Has(s.tables.nodes, local.node) && !Has(s.tables.locals, guid)
    ensures Balanced(Apply(s, AddLocal(guid, local)))
  {
    hide Balanced;
    NewLocalCounts(s, Apply(s, AddLocal(guid, local)), guid, local);
  }

  /** What rebinding does to the endpoints each node owns; the counts are left alone. */
  lemma Rebound(s: State, guid: Guid, local: LocalEndpoint, x: NodeId)
    requires s.health == Healthy && local.node != 0 && Has(s.tables.nodes, local.node) && Has(s.tables.locals, guid)
    ensures var t := Apply(s, AddLocal(guid, local));
      var before := Get(s.tables.locals, guid).node;
      && t.tables.nodes == s.tables.nodes && t.facades == s.facades && t.tables.lastNode == s.tables.lastNode
      && |t.tables.locals| == |s.tables.locals|
      && Share(t, x) == Share(s, x) - (if x == before then 1 else 0) + (if x == local.node then 1 else 0)
      && (forall k :: 0 <= k < |t.tables.locals| ==>
            t.tables.locals[k].value.node == s.tables.locals[k].value.node
              || t.tables.locals[k].value.node == local.node)
  {
    var k := Find(s.tables.locals, guid);
    BoundAt(s.tables.locals, k, Keyed(guid, local), x);
    assert s.tables.locals[k := s.tables.locals[k]] == s.tables.locals;
  }

  lemma RebindKeeps(s: State, guid: Guid, local: LocalEndpoint)
    requires Balanced(s) && s.health == Healthy && local.node != 0
    requires Has(s.tables.nodes, local.node) && Has(s.tables.locals, guid)
      && Get(s.tables.locals, guid).node == local.node
    ensures Balanced(Apply(s, AddLocal(guid, local)))
  {
    var t := Apply(s, AddLocal(guid, local));
    Rebound(s, guid, local, local.node);
    forall k | 0 <= k < |t.tables.nodes| ensures CountAt(t, k) {
      assert CountAt(s, k);
      Rebound(s, guid, local, t.tables.nodes[k].key);
    }
  }

  /** Binding an endpoint that already belongs to a node to a different node moves no
      reference, so the counts of both nodes are off afterwards; every other call of
      `add_local_endpoint` keeps them exact. */
  lemma AddLocalIsBalancedExactlyWhen(s: State, guid: Guid, local: LocalEndpoint)
    requires Balanced(s) && s.health == Healthy
    ensures Balanced(Apply(s, AddLocal(guid, local))) <==> KeepsNode(s, guid, local)
  {
    var t := Apply(s, AddLocal(guid, local));
    if local.node == 0 || !Has(s.tables.nodes, local.node) {
      SameTables(s, t);
    } else if !Has(s.tables.locals, guid) {
      AddLocalBalanced(s, guid, local);
    } else if Get(s.tables.locals, guid).node == local.node {
      RebindKeeps(s, guid, local);
    } else {
      var f := Find(s.tables.nodes, local.node);
      Rebound(s, guid, local, local.node);
      assert CountAt(s, f);
      assert !CountAt(t, f);
    }
  }

  lemma StepKeepsBalance(s: State, e: Event)
    requires Balanced(s) && s.health == Healthy && WellUsed(s, e)
    ensures Balanced(Apply(s, e))
  {
    hide Balanced;
    match e
    case AddNode(name, nameSpace) => AddNodeBalanced(s, name, nameSpace);
    case ReleaseNode(id) => ReleaseBalanced(s, id);
    case AddLocal(guid, local) => AddLocalIsBalancedExactlyWhen(s, guid, local);
    case RemoveLocal(guid) => RemoveBalanced(s, guid);
    case _ => SameTables(s, Apply(s, e));
  }

  /** Along every run of well-used calls, as long as the graph is healthy each node's count is
      its facade plus its endpoints, so a local endpoint's node is always on record. */
  lemma {:induction false} CountsAreExact(states: seq<State>, events: seq<Event>, k: nat)
    requires IsRun(states, events) && k < |states|
    requires forall j :: 0 <= j < |events| ==> WellUsed(states[j], events[j])
    ensures states[k].health == Healthy ==> Balanced(states[k])
  {
    if k > 0 {
      CountsAreExact(states, events, k - 1);
      assert states[k] == Apply(states[k - 1], events[k - 1]) && WellUsed(states[k - 1], events[k - 1]);
      if states[k - 1].health == Healthy {
        hide Balanced, Apply;
        StepKeepsBalance(states[k - 1], events[k - 1]);
      }
    }
  }

  lemma TwoNodes() returns (s1: State, s2: State)
    ensures s1 == Apply(Initial(), AddNode("a", "/")) && s2 == Apply(s1, AddNode("b", "/"))
    ensures s2.health == Healthy && s2.tables.locals == [] && s2.revision == 2
    ensures s2.tables.nodes == [Keyed(1, LocalNode("a", "/", 1)), Keyed(2, LocalNode("b", "/", 1))]
  {
    s1 := Apply(Initial(), AddNode("a", "/"));
    s2 := Apply(s1, AddNode("b", "/"));
  }

  lemma BoundToTheFirst(s: State, guid: Guid, local: LocalEndpoint)
    requires s.health == Healthy && s.tables.locals == [] && local.node == 1 && s.revision < MAX_UINT64 - 1
    requires s.tables.nodes == [Keyed(1, LocalNode("a", "/", 1)), Keyed(2, LocalNode("b", "/", 1))]
    ensures KeepsNode(s, guid, local)
    ensures var t := Apply(s, AddLocal(guid, local));
      && t.health == Healthy && !KeepsNode(t, guid, local.(node := 2))
      && Apply(t, AddLocal(guid, local.(node := 2))).health == Healthy
  {
    var t := Apply(s, AddLocal(guid, local));
    assert Find(s.tables.nodes, 1) == 0;
    assert t.tables.locals == [Keyed(guid, local)] && t.tables.nodes[1].key == 2;
    assert Find(t.tables.locals, guid) == 0;
    HasMember(t.tables.nodes, 2);
  }

  lemma FourSteps(events: seq<Event>, s1: State, s2: State, s3: State, s4: State)
    requires |events| == 4 && s1 == Apply(Initial(), events[0]) && s2 == Apply(s1, events[1])
    requires s3 == Apply(s2, events[2]) && s4 == Apply(s3, events[3])
    requires WellUsed(Initial(), events[0]) && WellUsed(s1, events[1]) && WellUsed(s2, events[2])
    ensures IsRun([Initial(), s1, s2, s3], events[..3]) && IsRun([Initial(), s1, s2, s3, s4], events)
    ensures forall j :: 0 <= j < 3 ==> WellUsed([Initial(), s1, s2, s3][j], events[..3][j])
    ensures forall j :: 0 <= j < 3 ==> WellUsed([Initial(), s1, s2, s3, s4][j], events[j])
  {
    hide Apply, WellUsed, Initial;
  }

  /** The smallest misuse: two nodes, one endpoint bound first to one and then to the other. */
  lemma RebindingBreaksTheCounts() returns (states: seq<State>, events: seq<Event>)
    ensures IsRun(states, events) && states[|events|].health == Healthy && !Balanced(states[|events|])
    ensures forall j :: 0 <= j < |events| - 1 ==> WellUsed(states[j], events[j])
  {
    var guid := Guid(1, 1);
    var first := LocalEndpoint(Writer, "topic", "type", 0, 1);
    events := [AddNode("a", "/"), AddNode("b", "/"), AddLocal(guid, first), AddLocal(guid, first.(node := 2))];
    var s1, s2 := TwoNodes();
    var s3 := Apply(s2, events[2]);
    var s4 := Apply(s3, events[3]);
    BoundToTheFirst(s2, guid, first);
    hide Apply, Balanced, KeepsNode, IsRun, Initial;
    FourSteps(events, s1, s2, s3, s4);
    hide WellUsed;
    CountsAreExact([Initial(), s1, s2, s3], events[..3], 3);
    AddLocalIsBalancedExactlyWhen(s3, guid, first.(node := 2));
    states := [Initial(), s1, s2, s3, s4];
  }
}
