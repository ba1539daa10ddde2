/** `DiscoveryGraph` updated in place: every operation searches its tables by a loop, changes
    them, and lets `mutate` account for the outcome. */
module DiscoveryGraphs {
  import opened Common
  import opened DiscoveryModel

  datatype ServiceState = Unknown | Complete | Incomplete | Unavailable

  /** What a caller of `service` is looking for. */
  datatype Query = Query(prefix: Prefix, requestTopic: string, requestType: string,
                         responseTopic: string, responseType: string)

  /** The endpoint belongs to the participant asked about and neither of them is removed. */
  predicate Lives(t: Tables, q: Query, e: Keyed<Guid, Endpoint>) {
    && e.key.prefix == q.prefix && e.value.lifecycle != Removed
    && Has(t.participants, q.prefix) && Get(t.participants, q.prefix).lifecycle != Removed
  }

  predicate IsRequest(t: Tables, q: Query, e: Keyed<Guid, Endpoint>) {
    Lives(t, q, e) && e.value.topic == q.requestTopic && e.value.wireType == q.requestType
  }

  predicate IsResponse(t: Tables, q: Query, e: Keyed<Guid, Endpoint>) {
    Lives(t, q, e) && e.value.topic == q.responseTopic && e.value.wireType == q.responseType
  }

  /** The endpoint is a live request reader of the service. */
  ghost predicate RequestReader(t: Tables, q: Query, guid: Guid) {
    exists k :: 0 <= k < |t.endpoints| && t.endpoints[k].key == guid && IsRequest(t, q, t.endpoints[k])
                && t.endpoints[k].value.kind == Reader
  }

  ghost predicate ResponseWriter(t: Tables, q: Query, guid: Guid) {
    exists k :: 0 <= k < |t.endpoints| && t.endpoints[k].key == guid && IsResponse(t, q, t.endpoints[k])
                && t.endpoints[k].value.kind == Writer
  }

  ghost predicate Relevant(t: Tables, q: Query) {
    exists k :: 0 <= k < |t.endpoints| && (IsRequest(t, q, t.endpoints[k]) || IsResponse(t, q, t.endpoints[k]))
  }

  /** Both halves of the service exist. */
  ghost predicate BothHalves(t: Tables, q: Query) {
    (exists g :: RequestReader(t, q, g)) && (exists g :: ResponseWriter(t, q, g))
  }

  /** One node announced by the participant owns a reader and a writer of the service. */
  ghost predicate OneNodeHasBoth(t: Tables, q: Query) {
    && Has(t.remotes, q.prefix)
    && exists k :: 0 <= k < |Get(t.remotes, q.prefix)| && Owns(t, q, Get(t.remotes, q.prefix)[k])
  }

  ghost predicate Owns(t: Tables, q: Query, node: RemoteNode) {
    (exists g :: g in node.readers && RequestReader(t, q, g))
      && (exists g :: g in node.writers && ResponseWriter(t, q, g))
  }

  /** `any_of` over the endpoints found, against one node's list. */
  method AnyListed(guids: seq<Guid>, gids: seq<Gid>) returns (any: bool)
    ensures any <==> exists g :: g in guids && g in gids
  {
    var k := 0;
    while k < |guids|
      invariant 0 <= k <= |guids| && forall j :: 0 <= j < k ==> guids[j] !in gids
    {
      if guids[k] in gids {
        return true;
      }
      k := k + 1;
    }
    any := false;
  }

  /** `find_if` by key. */
  method Search<K(==), V>(table: seq<Keyed<K, V>>, key: K) returns (k: nat)
    ensures k == Find(table, key)
  {
    k := 0;
    while k < |table| && table[k].key != key
      invariant k <= |table| && Find(table, key) == k + Find(table[k..], key)
    {
      assert table[k..][1..] == table[k + 1..];
      k := k + 1;
    }
  }

  /** `remote_nodes_equal` decides equality of two association snapshots. */
  method RemoteNodesEqual(a: seq<RemoteNode>, b: seq<RemoteNode>) returns (equal: bool)
    ensures equal <==> a == b
  {
    if |a| != |b| {
      return false;
    }
    var k := 0;
    while k < |a|
      invariant 0 <= k <= |a| && a[..k] == b[..k]
    {
      if a[k].nameSpace != b[k].nameSpace || a[k].name != b[k].name || a[k].readers != b[k].readers
        || a[k].writers != b[k].writers {
        return false;
      }
      k := k + 1;
    }
    assert a[..k] == a && b[..k] == b;
    equal := true;
  }

  class DiscoveryGraph {
    var participants: seq<Keyed<Prefix, Participant>>
    var endpoints: seq<Keyed<Guid, Endpoint>>
    var nodes: seq<Keyed<NodeId, LocalNode>>
    var locals: seq<Keyed<Guid, LocalEndpoint>>
    var remotes: seq<Keyed<Prefix, seq<RemoteNode>>>
    var lastNode: NodeId
    var revision: nat
    var health: Health
    ghost var facades: set<NodeId>

    function View(): Tables
      reads this
    {
      Tables(participants, endpoints, nodes, locals, remotes, lastNode)
    }

    ghost function Value(): State
      reads this
    {
      State(View(), revision, health, facades)
    }

    constructor ()
      ensures Value() == Initial()
    {
      participants, endpoints, nodes, locals, remotes := [], [], [], [], [];
      lastNode, revision, health, facades := 0, 0, Healthy, {};
    }

    /** The end of `mutate`: the outcome of a change moves the revision or the health. */
    method Account(mutation: Mutation) returns (notify: bool)
      requires health == Healthy
      modifies this`revision, this`health
      ensures Value() == Mutated(old(Value()), (View(), mutation))
      ensures notify <==> mutation != Unchanged
      ensures notify <==> revision != old(revision) || health != old(health)
    {
      notify := mutation != Unchanged;
      if mutation == Invalid {
        health := Health.Unavailable;
      } else if mutation == Changed {
        if revision == MAX_UINT64 {
          health := Health.Unavailable;
        } else {
          revision := revision + 1;
        }
      }
    }

    method ApplyParticipant(prefix: Prefix, change: Change) returns (notify: bool)
      modifies this
      ensures Value() == Apply(old(Value()), Event.ApplyParticipant(prefix, change))
      ensures notify <==> revision != old(revision) || health != old(health)
    {
      if health != Healthy {
        return false;
      }
      var k := Search(participants, prefix);
      var mutation := Unchanged;
      if k == |participants| {
        participants := participants + [Keyed(prefix, Participant(change, 0))];
        mutation := Changed;
      } else {
        var participant := participants[k].value;
        if change == Added && participant.lifecycle == Removed {
          mutation := Invalid;
        } else if change == Removed && participant.lifecycle != Removed {
          if participant.generation == MAX_UINT64 {
            mutation := Invalid;
          } else {
            participants := participants[k := Keyed(prefix, Participant(change, participant.generation + 1))];
            mutation := Changed;
          }
        }
      }
      notify := Account(mutation);
    }

    method ApplyEndpoint(guid: Guid, endpoint: Endpoint) returns (notify: bool)
      modifies this
      ensures Value() == Apply(old(Value()), Event.ApplyEndpoint(guid, endpoint))
      ensures notify <==> revision != old(revision) || health != old(health)
    {
      if health != Healthy {
        return false;
      }
      var p := Search(participants, guid.prefix);
      if p == |participants| {
        participants := participants + [Keyed(guid.prefix, Participant(Added, 0))];
        LastIsFound(old(participants), guid.prefix, Participant(Added, 0));
      }
      var mutation := Unchanged;
      if endpoint.lifecycle == Added && participants[p].value.lifecycle == Removed {
        mutation := Invalid;
      } else {
        var k := Search(endpoints, guid);
        if k == |endpoints| {
          endpoints := endpoints + [Keyed(guid, endpoint)];
          mutation := Changed;
        } else {
          var found := endpoints[k].value;
          if endpoint.lifecycle == Added && found.lifecycle == Removed {
            mutation := Invalid;
          } else if found.kind != endpoint.kind || found.topic != endpoint.topic || found.wireType != endpoint.wireType
                    || found.lifecycle != endpoint.lifecycle {
            endpoints := endpoints[k := Keyed(guid, endpoint)];
            mutation := Changed;
          }
        }
      }
      notify := Account(mutation);
    }

    static lemma LastIsFound(table: seq<Keyed<Prefix, Participant>>, key: Prefix, value: Participant)
      requires !Has(table, key)
      ensures Find(table + [Keyed(key, value)], key) == |table|
    {
      HasAfter(table, key, key, value);
      assert forall k :: 0 <= k < |table| ==> (table + [Keyed(key, value)])[k] == table[k];
    }

    /** Returns the new node's number, or 0 when the graph cannot admit it. */
    method AddLocalNode(name: string, nameSpace: string) returns (id: NodeId, notify: bool)
      modifies this
      ensures Value() == Apply(old(Value()), AddNode(name, nameSpace))
      ensures notify <==> revision != old(revision) || health != old(health)
      ensures id != 0 ==> id in facades && id == lastNode
      ensures id == 0 <==> old(health) != Healthy || old(lastNode) == MAX_UINT64
    {
      if health != Healthy {
        return 0, false;
      }
      id := 0;
      var mutation := Invalid;
      if lastNode != MAX_UINT64 {
        lastNode := lastNode + 1;
        nodes := nodes + [Keyed(lastNode, LocalNode(name, nameSpace, 1))];
        id := lastNode;
        mutation := Changed;
      }
      notify := Account(mutation);
      if id != 0 {
        facades := facades + {id};
      }
    }

    /** One reference goes, and the record with the last one. */
    method DropReference(k: nat, id: NodeId) returns (erased: bool)
      requires k < |nodes| && k == Find(nodes, id)
      modifies this`nodes
      ensures nodes == Dropped(old(nodes), id)
      ensures erased <==> old(nodes)[k].value.references <= 1
    {
      var node := nodes[k].value;
      if node.references > 0 {
        node := node.(references := node.references - 1);
      }
      erased := node.references == 0;
      if erased {
        nodes := nodes[..k] + nodes[k + 1..];
      } else {
        nodes := nodes[k := Keyed(id, node)];
      }
    }

    method ReleaseLocalNode(id: NodeId) returns (notify: bool)
      modifies this
      ensures Value() == Apply(old(Value()), ReleaseNode(id))
      ensures notify <==> revision != old(revision) || health != old(health)
    {
      facades := facades - {id};
      if id == 0 || health != Healthy {
        return false;
      }
      var k := Search(nodes, id);
      var mutation := Unchanged;
      if k < |nodes| {
        var erased := DropReference(k, id);
        if erased {
          mutation := Changed;
        }
      }
      notify := Account(mutation);
    }

    method AddLocalEndpoint(guid: Guid, local: LocalEndpoint) returns (notify: bool)
      modifies this
      ensures Value() == Apply(old(Value()), AddLocal(guid, local))
      ensures notify <==> revision != old(revision) || health != old(health)
    {
      if local.node == 0 || health != Healthy {
        return false;
      }
      var n := Search(nodes, local.node);
      var k := Search(locals, guid);
      var mutation := Changed;
      if n == |nodes| {
        mutation := Invalid;
      } else if k < |locals| {
        var found := locals[k].value;
        if found.kind == local.kind && found.topic == local.topic && found.wireType == local.wireType
          && found.node == local.node {
          mutation := Unchanged;
        } else {
          locals := locals[k := Keyed(guid, local)];
        }
      } else {
        var node := nodes[n].value;
        nodes := nodes[n := Keyed(local.node, node.(references := node.references + 1))];
        locals := locals + [Keyed(guid, local)];
      }
      notify := Account(mutation);
    }

    method RemoveLocalEndpoint(guid: Guid) returns (notify: bool)
      modifies this
      ensures Value() == Apply(old(Value()), RemoveLocal(guid))
      ensures notify <==> revision != old(revision) || health != old(health)
    {
      if health != Healthy {
        return false;
      }
      var k := Search(locals, guid);
      var mutation := Unchanged;
      if k < |locals| {
        var id := locals[k].value.node;
        locals := locals[..k] + locals[k + 1..];
        var n := Search(nodes, id);
        if n < |nodes| {
          var _ := DropReference(n, id);
        }
        mutation := Changed;
      }
      notify := Account(mutation);
    }

    method ApplyRemoteNodes(prefix: Prefix, snapshot: seq<RemoteNode>) returns (notify: bool)
      modifies this
      ensures Value() == Apply(old(Value()), ApplyRemotes(prefix, snapshot))
      ensures notify <==> revision != old(revision) || health != old(health)
    {
      if health != Healthy {
        return false;
      }
      var k := Search(remotes, prefix);
      var mutation := Unchanged;
      if k == |remotes| {
        if snapshot != [] {
          remotes := remotes + [Keyed(prefix, snapshot)];
          mutation := Changed;
        }
      } else {
        var equal := RemoteNodesEqual(remotes[k].value, snapshot);
        if !equal {
          if snapshot == [] {
            remotes := remotes[..k] + remotes[k + 1..];
          } else {
            remotes := remotes[k := Keyed(prefix, snapshot)];
          }
          mutation := Changed;
        }
      }
      notify := Account(mutation);
    }

    /** `service`: the state of one request/response pair on one participant. */
    method Service(q: Query, requireAssociation: bool) returns (r: ServiceState)
      ensures r == ServiceState.Unavailable <==> health != Healthy
      ensures health == Healthy ==>
        && (r == Unknown <==> !BothHalves(View(), q) && !Relevant(View(), q))
        && (r == Complete <==> BothHalves(View(), q) && (requireAssociation ==> OneNodeHasBoth(View(), q)))
    {
      if health != Healthy {
        return ServiceState.Unavailable;
      }
      ghost var t := View();
      var relevant, readers, writers := Collect(q);
      if readers == [] || writers == [] {
        return if relevant then Incomplete else Unknown;
      }
      assert readers[0] in readers && writers[0] in writers;
      if !requireAssociation {
        return Complete;
      }
      var p := Search(remotes, q.prefix);
      if p == |remotes| {
        return Incomplete;
      }
      var announced := remotes[p].value;
      var k := 0;
      while k < |announced|
        invariant 0 <= k <= |announced|
        invariant forall j :: 0 <= j < k ==> !Owns(t, q, announced[j])
      {
        var hasRequest := AnyListed(readers, announced[k].readers);
        if hasRequest {
          var hasResponse := AnyListed(writers, announced[k].writers);
          if hasResponse {
            assert Owns(t, q, Get(t.remotes, q.prefix)[k]);
            assert RequestReader(t, q, readers[0]) && ResponseWriter(t, q, writers[0]);
            return Complete;
          }
        }
        k := k + 1;
      }
      r := Incomplete;
    }

    /** The scan over all endpoints. */
    method Collect(q: Query) returns (relevant: bool, readers: seq<Guid>, writers: seq<Guid>)
      ensures relevant <==> Relevant(View(), q)
      ensures forall g :: g in readers <==> RequestReader(View(), q, g)
      ensures forall g :: g in writers <==> ResponseWriter(View(), q, g)
    {
      relevant, readers, writers := false, [], [];
      ghost var t := View();
      var p := Search(participants, q.prefix);
      var k := 0;
      while k < |endpoints|
        invariant 0 <= k <= |endpoints|
        invariant relevant <==>
          exists j :: 0 <= j < k && (IsRequest(t, q, endpoints[j]) || IsResponse(t, q, endpoints[j]))
        invariant forall g :: g in readers <==>
          exists j :: 0 <= j < k && endpoints[j].key == g && IsRequest(t, q, endpoints[j])
                                                          && endpoints[j].value.kind == Reader
        invariant forall g :: g in writers <==>
          exists j :: 0 <= j < k && endpoints[j].key == g && IsResponse(t, q, endpoints[j])
                                                          && endpoints[j].value.kind == Writer
      {
        var guid, value := endpoints[k].key, endpoints[k].value;
        if guid.prefix == q.prefix && value.lifecycle != Removed && p < |participants|
          && participants[p].value.lifecycle != Removed {
          if value.topic == q.requestTopic && value.wireType == q.requestType {
            relevant := true;
            if value.kind == Reader {
              readers := readers + [guid];
            }
          }
          if value.topic == q.responseTopic && value.wireType == q.responseType {
            relevant := true;
            if value.kind == Writer {
              writers := writers + [guid];
            }
          }
        }
        k := k + 1;
      }
    }
  }
}
