/** The discovered graph of the C++ layer: five record tables, a revision counter and an
    absorbing health flag. */
module DiscoveryModel {
  import opened Common

  const MAX_UINT64: nat := 0xFFFF_FFFF_FFFF_FFFF

  type Prefix = nat
  type NodeId = nat
  type Gid = Guid
  type Qos = nat

  datatype Guid = Guid(prefix: Prefix, entity: nat)

  datatype Change = Added | Removed

  datatype EndpointKind = Reader | Writer

  datatype Participant = Participant(lifecycle: Change, generation: nat)

  datatype Endpoint = Endpoint(kind: EndpointKind, topic: string, wireType: string, qos: Qos, lifecycle: Change)

  datatype LocalNode = LocalNode(name: string, nameSpace: string, references: nat)

  datatype LocalEndpoint = LocalEndpoint(kind: EndpointKind, topic: string, wireType: string, qos: Qos, node: NodeId)

  datatype RemoteNode = RemoteNode(nameSpace: string, name: string, readers: seq<Gid>, writers: seq<Gid>)

  /** A record and the key its table is searched by. */
  datatype Keyed<K, V> = Keyed(key: K, value: V)

  datatype Tables = Tables(participants: seq<Keyed<Prefix, Participant>>, endpoints: seq<Keyed<Guid, Endpoint>>,
                           nodes: seq<Keyed<NodeId, LocalNode>>, locals: seq<Keyed<Guid, LocalEndpoint>>,
                           remotes: seq<Keyed<Prefix, seq<RemoteNode>>>, lastNode: NodeId)

  datatype Mutation = Unchanged | Changed | Invalid

  datatype Health = Healthy | Unavailable

  /** `facades` are the local Node objects that still hold their own reference. */
  datatype State = State(tables: Tables, revision: nat, health: Health, facades: set<NodeId>)

  datatype Event =
    | ApplyParticipant(prefix: Prefix, change: Change)
    | ApplyEndpoint(guid: Guid, endpoint: Endpoint)
    | AddNode(name: string, nameSpace: string)
    | ReleaseNode(id: NodeId)
    | AddLocal(guid: Guid, local: LocalEndpoint)
    | RemoveLocal(guid: Guid)
    | ApplyRemotes(prefix: Prefix, nodes: seq<RemoteNode>)
    | BecomeUnavailable

  function Initial(): State {
    State(Tables([], [], [], [], [], 0), 0, Healthy, {})
  }

  // ------------------------------------------------------------- keyed tables

  /** Position of the first record under `key`, or the length. */
  function Find<K(==), V>(table: seq<Keyed<K, V>>, key: K): (k: nat)
    ensures k <= |table|
    ensures k < |table| ==> table[k].key == key
    ensures forall j :: 0 <= j < k ==> table[j].key != key
  {
    if table == [] || table[0].key == key then 0 else 1 + Find(table[1..], key)
  }

  predicate Has<K(==), V>(table: seq<Keyed<K, V>>, key: K) {
    Find(table, key) < |table|
  }

  function Get<K(==), V>(table: seq<Keyed<K, V>>, key: K): V
    requires Has(table, key)
  {
    table[Find(table, key)].value
  }

  function Set<K(==), V>(table: seq<Keyed<K, V>>, key: K, value: V): seq<Keyed<K, V>>
    requires Has(table, key)
  {
    table[Find(table, key) := Keyed(key, value)]
  }

  function Erased<K(==), V>(table: seq<Keyed<K, V>>, key: K): seq<Keyed<K, V>>
    requires Has(table, key)
  {
    var k := Find(table, key);
    table[..k] + table[k + 1..]
  }

  // ---------------------------------------------------------------- operations

  /** `apply_participant`. */
  function ParticipantChange(t: Tables, prefix: Prefix, change: Change): (Tables, Mutation) {
    if !Has(t.participants, prefix) then
      (t.(participants := t.participants + [Keyed(prefix, Participant(change, 0))]), Changed)
    else
      var p := Get(t.participants, prefix);
      if change == Added && p.lifecycle == Removed then (t, Invalid)
      else if change == Removed && p.lifecycle != Removed then
        if p.generation == MAX_UINT64 then (t, Invalid)
        else (t.(participants := Set(t.participants, prefix, Participant(Removed, p.generation + 1))), Changed)
      else (t, Unchanged)
  }

  /** `participant_for`. */
  function WithParticipant(t: Tables, prefix: Prefix): Tables {
    if Has(t.participants, prefix) then t
    else t.(participants := t.participants + [Keyed(prefix, Participant(Added, 0))])
  }

  /** `apply_endpoint`. */
  function EndpointChange(t0: Tables, guid: Guid, e: Endpoint): (Tables, Mutation) {
    var t := WithParticipant(t0, guid.prefix);
    if e.lifecycle == Added && Has(t.participants, guid.prefix)
      && Get(t.participants, guid.prefix).lifecycle == Removed then
      (t, Invalid)
    else if !Has(t.endpoints, guid) then (t.(endpoints := t.endpoints + [Keyed(guid, e)]), Changed)
    else
      var was := Get(t.endpoints, guid);
      if e.lifecycle == Added && was.lifecycle == Removed then (t, Invalid)
      else if was.kind == e.kind && was.topic == e.topic && was.wireType == e.wireType
        && was.lifecycle == e.lifecycle then
        (t, Unchanged)
      else (t.(endpoints := Set(t.endpoints, guid, e)), Changed)
  }

  /** `add_local_node`. */
  function NodeAdded(t: Tables, name: string, nameSpace: string): (Tables, Mutation) {
    if t.lastNode == MAX_UINT64 then (t, Invalid)
    else
      var id := t.lastNode + 1;
      (t.(lastNode := id, nodes := t.nodes + [Keyed(id, LocalNode(name, nameSpace, 1))]), Changed)
  }

  /** One reference to the node goes; the record goes with the last. */
  function Dropped(nodes: seq<Keyed<NodeId, LocalNode>>, id: NodeId): seq<Keyed<NodeId, LocalNode>>
    requires Has(nodes, id)
  {
    var n := Get(nodes, id);
    if n.references <= 1 then Erased(nodes, id) else Set(nodes, id, n.(references := n.references - 1))
  }

  /** `release_local_node`. */
  function NodeReleased(t: Tables, id: NodeId): (Tables, Mutation) {
    if !Has(t.nodes, id) then (t, Unchanged)
    else (t.(nodes := Dropped(t.nodes, id)), if Get(t.nodes, id).references <= 1 then Changed else Unchanged)
  }

  /** `add_local_endpoint`. */
  function LocalAdded(t: Tables, guid: Guid, e: LocalEndpoint): (Tables, Mutation) {
    if !Has(t.nodes, e.node) then (t, Invalid)
    else if Has(t.locals, guid) then
      var was := Get(t.locals, guid);
      if was.kind == e.kind && was.topic == e.topic && was.wireType == e.wireType && was.node == e.node then
        (t, Unchanged)
      else (t.(locals := Set(t.locals, guid, e)), Changed)
    else
      var n := Get(t.nodes, e.node);
      (t.(nodes := Set(t.nodes, e.node, n.(references := n.references + 1)),
          locals := t.locals + [Keyed(guid, e)]), Changed)
  }

  /** `remove_local_endpoint`. */
  function LocalRemoved(t: Tables, guid: Guid): (Tables, Mutation) {
    if !Has(t.locals, guid) then (t, Unchanged)
    else
      var id := Get(t.locals, guid).node;
      (t.(locals := Erased(t.locals, guid),
          nodes := if Has(t.nodes, id) then Dropped(t.nodes, id) else t.nodes), Changed)
  }

  /** `apply_remote_nodes`. */
  function RemotesReplaced(t: Tables, prefix: Prefix, nodes: seq<RemoteNode>): (Tables, Mutation) {
    if !Has(t.remotes, prefix) then
      if nodes == [] then (t, Unchanged) else (t.(remotes := t.remotes + [Keyed(prefix, nodes)]), Changed)
    else if Get(t.remotes, prefix) == nodes then (t, Unchanged)
    else if nodes == [] then (t.(remotes := Erased(t.remotes, prefix)), Changed)
    else (t.(remotes := Set(t.remotes, prefix, nodes)), Changed)
  }

  /** The change a call asks for; `add_local_endpoint` for node 0 asks for nothing. */
  function Effect(t: Tables, e: Event): (Tables, Mutation) {
    match e
    case ApplyParticipant(prefix, change) => ParticipantChange(t, prefix, change)
    case ApplyEndpoint(guid, endpoint) => EndpointChange(t, guid, endpoint)
    case AddNode(name, nameSpace) => NodeAdded(t, name, nameSpace)
    case ReleaseNode(id) => if id == 0 then (t, Unchanged) else NodeReleased(t, id)
    case AddLocal(guid, local) => if local.node == 0 then (t, Unchanged) else LocalAdded(t, guid, local)
    case RemoveLocal(guid) => LocalRemoved(t, guid)
    case ApplyRemotes(prefix, nodes) => RemotesReplaced(t, prefix, nodes)
    case BecomeUnavailable => (t, Invalid)
  }

  /** `mutate`: an unhealthy graph ignores every change, an invalid one makes it unhealthy. */
  function Mutated(s: State, change: (Tables, Mutation)): State {
    if s.health != Healthy then s
    else match change.1
      case Invalid => s.(tables := change.0, health := Unavailable)
      case Unchanged => s.(tables := change.0)
      case Changed =>
        if s.revision == MAX_UINT64 then s.(tables := change.0, health := Unavailable)
        else s.(tables := change.0, revision := s.revision + 1)
  }

  function Apply(s: State, e: Event): State {
    var t := Mutated(s, Effect(s.tables, e));
    match e
    case AddNode(_, _) =>
      if t.tables.lastNode != s.tables.lastNode then t.(facades := t.facades + {t.tables.lastNode}) else t
    case ReleaseNode(id) => t.(facades := t.facades - {id})
    case _ => t
  }

  ghost predicate IsRun(states: seq<State>, events: seq<Event>) {
    && |states| == |events| + 1
    && states[0] == Initial()
    && (forall k {:trigger events[k]} :: 0 <= k < |events| ==> states[k + 1] == Apply(states[k], events[k]))
  }

  // ------------------------------------------------- what a view shows, and when

  /** A table of local nodes as `view` shows it, without the reference counts. */
  function Named(nodes: seq<Keyed<NodeId, LocalNode>>): (r: seq<(NodeId, string, string)>)
    ensures |r| == |nodes|
    ensures forall k :: 0 <= k < |nodes| ==> r[k] == (nodes[k].key, nodes[k].value.name, nodes[k].value.nameSpace)
  {
    seq(|nodes|, k requires 0 <= k < |nodes| => (nodes[k].key, nodes[k].value.name, nodes[k].value.nameSpace))
  }

  /** Two snapshots agree on everything but the reference counts of local nodes. */
  predicate SameView(a: Tables, b: Tables) {
    && a.participants == b.participants && a.endpoints == b.endpoints && Named(a.nodes) == Named(b.nodes)
    && a.locals == b.locals && a.remotes == b.remotes
  }

  /** Every endpoint's participant is on record. */
  ghost predicate ParticipantsKnown(t: Tables) {
    forall k :: 0 <= k < |t.endpoints| ==> Has(t.participants, t.endpoints[k].key.prefix)
  }

  lemma HasMember<K, V>(table: seq<Keyed<K, V>>, key: K)
    ensures Has(table, key) <==> exists k :: 0 <= k < |table| && table[k].key == key
  {
  }

  lemma HasAfter<K, V>(table: seq<Keyed<K, V>>, key: K, other: K, value: V)
    ensures Has(table + [Keyed(key, value)], other) <==> Has(table, other) || other == key
    ensures Has(table, key) ==> (Has(Set(table, key, value), other) <==> Has(table, other))
  {
    var more := table + [Keyed(key, value)];
    HasMember(table, other);
    HasMember(more, other);
    if Has(table, other) {
      assert more[Find(table, other)].key == other;
    }
    assert more[|table|].key == key;
    if Has(table, key) {
      HasMember(Set(table, key, value), other);
      assert forall k :: 0 <= k < |table| ==> Set(table, key, value)[k].key == table[k].key;
    }
  }

  lemma ParticipantsStayKnown(t: Tables, e: Event)
    requires ParticipantsKnown(t)
    ensures ParticipantsKnown(Effect(t, e).0)
  {
    match e
    case ApplyParticipant(prefix, change) =>
      forall k | 0 <= k < |t.endpoints| ensures Has(Effect(t, e).0.participants, t.endpoints[k].key.prefix) {
        HasAfter(t.participants, prefix, t.endpoints[k].key.prefix, Participant(change, 0));
        if Has(t.participants, prefix) {
          HasAfter(t.participants, prefix, t.endpoints[k].key.prefix,
            Participant(Removed, Get(t.participants, prefix).generation + 1));
        }
      }
    case ApplyEndpoint(guid, endpoint) =>
      HasAfter(t.participants, guid.prefix, guid.prefix, Participant(Added, 0));
      forall k | 0 <= k < |t.endpoints|
        ensures Has(WithParticipant(t, guid.prefix).participants, t.endpoints[k].key.prefix)
      {
        HasAfter(t.participants, guid.prefix, t.endpoints[k].key.prefix, Participant(Added, 0));
      }
    case _ =>
  }

  lemma EndpointChangeIsVisible(t: Tables, guid: Guid, e: Endpoint)
    requires ParticipantsKnown(t)
    ensures EndpointChange(t, guid, e).1 == Changed <==> !SameView(t, EndpointChange(t, guid, e).0)
    ensures EndpointChange(t, guid, e).1 == Invalid ==> EndpointChange(t, guid, e).0 == t
  {
    HasAfter(t.participants, guid.prefix, guid.prefix, Participant(Added, 0));
    if Has(t.endpoints, guid) {
      assert t.endpoints[Find(t.endpoints, guid)].key == guid;
      assert WithParticipant(t, guid.prefix) == t;
    } else {
      assert EndpointChange(t, guid, e).1 == Invalid ==> Has(t.participants, guid.prefix) by {
        if !Has(t.participants, guid.prefix) {
          NewParticipantIsAdded(t, guid.prefix);
        }
      }
    }
  }

  lemma NewParticipantIsAdded(t: Tables, prefix: Prefix)
    requires !Has(t.participants, prefix)
    ensures var u := WithParticipant(t, prefix);
      Has(u.participants, prefix) && Get(u.participants, prefix) == Participant(Added, 0)
  {
    HasAfter(t.participants, prefix, prefix, Participant(Added, 0));
    var u := WithParticipant(t, prefix);
    assert u.participants[|t.participants|].key == prefix;
    assert forall k :: 0 <= k < |t.participants| ==> u.participants[k] == t.participants[k];
  }

  /** A call reports `Changed` exactly when the view it leaves behind differs. */
  lemma ChangedMeansVisible(t: Tables, e: Event)
    requires ParticipantsKnown(t)
    ensures Effect(t, e).1 == Changed <==> !SameView(t, Effect(t, e).0)
    ensures Effect(t, e).1 == Invalid ==> Effect(t, e).0 == t
  {
    match e
    case ApplyParticipant(prefix, change) =>
    case ApplyEndpoint(guid, endpoint) => EndpointChangeIsVisible(t, guid, endpoint);
    case AddNode(name, nameSpace) =>
    case ReleaseNode(id) =>
    case AddLocal(guid, local) =>
    case RemoveLocal(guid) =>
    case ApplyRemotes(prefix, nodes) =>
    case BecomeUnavailable =>
  }
}
