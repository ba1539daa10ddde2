/** Composition of action servers and clients from discovered endpoints, and the search for a
    complete server. */
module ActionComposition {
  import opened Common
  import opened GraphNames

  const PREFIX_SIZE: nat := 12

  datatype Kind = Reader | Writer

  /** One endpoint of the graph with the node it belongs to, if that is known. */
  datatype Candidate = Candidate(participant: string, kind: Kind, role: Role, name: string, wireType: string,
                                 gid: string, node: Option<(string, string)>)

  /** The endpoints gathered under one key; the first of each kind wins. */
  datatype Group = Group(action: string, endpoints: map<(ActionRole, Kind), Candidate>)

  datatype ActionCandidate = ActionCandidate(action: string, participant: string, hasServer: bool, hasClient: bool)

  /** The wire types of the eight endpoints. */
  type ActionTypes = ActionRole -> string

  /** `candidate_composition_key`: node identity, or isolation in ROS 2 mode. */
  function CompositionKey(mode: RuntimeMode, c: Candidate): string {
    if c.node.Some? then c.node.value.0 + ['\0'] + c.node.value.1
    else if mode == ROS2 then "?" + c.gid
    else ""
  }

  function ClassOf(c: Candidate): Option<Classified> {
    Classify(Normalized(c.name, c.role))
  }

  function GroupKey(mode: RuntimeMode, c: Candidate): string
    requires ClassOf(c).Some?
  {
    c.participant + "|" + ClassOf(c).value.action + "|" + CompositionKey(mode, c)
  }

  /** One round of the grouping loop. */
  function Grouped(mode: RuntimeMode, groups: map<string, Group>, c: Candidate): map<string, Group> {
    if ClassOf(c).None? then groups
    else
      var key := GroupKey(mode, c);
      var slot := (ClassOf(c).value.role, c.kind);
      var endpoints := if key in groups then groups[key].endpoints else map[];
      groups[key := Group(ClassOf(c).value.action, if slot in endpoints then endpoints else endpoints[slot := c])]
  }

  function Groups(mode: RuntimeMode, cs: seq<Candidate>): map<string, Group> {
    if cs == [] then map[] else Grouped(mode, Groups(mode, cs[..|cs| - 1]), cs[|cs| - 1])
  }

  /** A server reads requests and writes everything else; a client the other way round. */
  function ServerKind(r: ActionRole): Kind {
    if RoleOf(r) == ServiceRequest then Reader else Writer
  }

  function ClientKind(r: ActionRole): Kind {
    if ServerKind(r) == Reader then Writer else Reader
  }

  function Roles(): seq<ActionRole> {
    [SendGoalRequest, SendGoalResponse, CancelGoalRequest, CancelGoalResponse,
     GetResultRequest, GetResultResponse, Feedback, Status]
  }

  lemma EveryRole(r: ActionRole)
    ensures r in Roles()
  {
    assert Roles()[match r
                   case SendGoalRequest => 0 case SendGoalResponse => 1
                   case CancelGoalRequest => 2 case CancelGoalResponse => 3
                   case GetResultRequest => 4 case GetResultResponse => 5
                   case Feedback => 6 case Status => 7] == r;
  }

  predicate CompleteServer(g: Group) {
    forall r :: r in Roles() ==> (r, ServerKind(r)) in g.endpoints
  }

  predicate CompleteClient(g: Group) {
    forall r :: r in Roles() ==> (r, ClientKind(r)) in g.endpoints
  }

  function BeforeBar(key: string): string {
    if key == "" || key[0] == '|' then "" else [key[0]] + BeforeBar(key[1..])
  }

  /** `compose_action_candidates`, one report per group. */
  function Compose(mode: RuntimeMode, cs: seq<Candidate>): map<string, ActionCandidate> {
    var groups := Groups(mode, cs);
    map key | key in groups ::
      ActionCandidate(groups[key].action, BeforeBar(key), CompleteServer(groups[key]), CompleteClient(groups[key]))
  }

  // -------------------------------------------------------------- what groups hold

  /** The candidate is an action endpoint of this kind under this key. */
  predicate Fills(mode: RuntimeMode, c: Candidate, key: string, r: ActionRole, kind: Kind) {
    ClassOf(c).Some? && GroupKey(mode, c) == key && ClassOf(c).value.role == r && c.kind == kind
  }

  predicate Present(groups: map<string, Group>, key: string, r: ActionRole, kind: Kind) {
    key in groups && (r, kind) in groups[key].endpoints
  }

  lemma GroupedFills(mode: RuntimeMode, groups: map<string, Group>, c: Candidate, key: string, r: ActionRole,
                     kind: Kind)
    ensures Present(Grouped(mode, groups, c), key, r, kind) <==>
      Present(groups, key, r, kind) || Fills(mode, c, key, r, kind)
  {
    hide ClassOf, CompositionKey;
  }

  /** A slot of a group is filled exactly if some endpoint fills it. */
  lemma {:induction false} SlotsAreFilled(mode: RuntimeMode, cs: seq<Candidate>, key: string, r: ActionRole, kind: Kind)
    ensures Present(Groups(mode, cs), key, r, kind) <==> exists k :: 0 <= k < |cs| && Fills(mode, cs[k], key, r, kind)
  {
    if cs != [] {
      hide Grouped, Fills, Present;
      var front, last := cs[..|cs| - 1], cs[|cs| - 1];
      SlotsAreFilled(mode, front, key, r, kind);
      GroupedFills(mode, Groups(mode, front), last, key, r, kind);
      assert forall k :: 0 <= k < |front| ==> front[k] == cs[k];
    } else {
      assert Groups(mode, cs) == map[];
    }
  }

  /** Distinct participant, action and node never share a group key. */
  ghost predicate KeysInjective(mode: RuntimeMode, cs: seq<Candidate>) {
    forall c, d ::
      c in cs && d in cs && ClassOf(c).Some? && ClassOf(d).Some? && GroupKey(mode, c) == GroupKey(mode, d) ==>
      c.participant == d.participant && ClassOf(c).value.action == ClassOf(d).value.action
      && CompositionKey(mode, c) == CompositionKey(mode, d)
  }

  // ---- what a key says

  /** A key up to its first bar is the participant exactly when that has no bar itself. */
  lemma {:induction false} BeforeBarIs(participant: string, rest: string)
    ensures BeforeBar(participant + "|" + rest) == participant <==> '|' !in participant
  {
    var key := participant + "|" + rest;
    if participant != "" && participant[0] != '|' {
      BeforeBarIs(participant[1..], rest);
      assert key[1..] == participant[1..] + "|" + rest;
      assert participant == [participant[0]] + participant[1..];
    }
  }

  /** Every action endpoint is in a report; its participant field is the participant exactly
      when the participant's key has no bar. */
  lemma ParticipantsAreReported(mode: RuntimeMode, cs: seq<Candidate>, c: Candidate)
    requires c in cs && ClassOf(c).Some?
    ensures GroupKey(mode, c) in Compose(mode, cs)
    ensures Compose(mode, cs)[GroupKey(mode, c)].participant == c.participant <==> '|' !in c.participant
  {
    var key := GroupKey(mode, c);
    var k :| 0 <= k < |cs| && cs[k] == c;
    assert Fills(mode, cs[k], key, ClassOf(c).value.role, c.kind);
    SlotsAreFilled(mode, cs, key, ClassOf(c).value.role, c.kind);
    var rest := ClassOf(c).value.action + "|" + CompositionKey(mode, c);
    BeforeBarIs(c.participant, rest);
    assert key == c.participant + "|" + rest;
    hide Groups, ClassOf, CompositionKey, BeforeBar;
  }

  lemma ReportsCutAtTheBar(mode: RuntimeMode, cs: seq<Candidate>, c: Candidate, front: string, back: string)
    requires c in cs && ClassOf(c).Some? && c.participant == front + "|" + back && '|' !in front
    ensures GroupKey(mode, c) in Compose(mode, cs)
    ensures Compose(mode, cs)[GroupKey(mode, c)].participant == front
  {
    ParticipantsAreReported(mode, cs, c);
    var rest := back + "|" + ClassOf(c).value.action + "|" + CompositionKey(mode, c);
    BeforeBarIs(front, rest);
    assert GroupKey(mode, c) == front + "|" + rest;
    hide Groups, ClassOf, CompositionKey, BeforeBar;
  }

  /** A participant key with a bar in it, and what the report makes of it. */
  lemma BarCutsTheParticipant() returns (c: Candidate)
    ensures ClassOf(c).Some? && c.participant == "a|bcdefghijk" && |c.participant| == PREFIX_SIZE
    ensures Compose(DDS, [c])[GroupKey(DDS, c)].participant == "a"
  {
    hide Compose, GroupKey, Classify;
    c := Candidate("a" + "|" + "bcdefghijk", Writer, Topic, "/x/_action/status", "", "", None);
    DerivedClassifies("/x", Status);
    assert c.name == "/x" + MARKER + Suffix(Status);
    ReportsCutAtTheBar(DDS, [c], c, "a", "bcdefghijk");
  }

  /** Participant keys as the graph builds them, 12 bytes each, and action names without bar. */
  ghost predicate PlainKeys(cs: seq<Candidate>) {
    forall c :: c in cs && ClassOf(c).Some? ==> |c.participant| == PREFIX_SIZE && '|' !in ClassOf(c).value.action
  }

  lemma FirstBarSplits(a: string, b: string, x: string, y: string)
    requires '|' !in a && '|' !in b && a + "|" + x == b + "|" + y
    ensures a == b && x == y
  {
    var s := a + "|" + x;
    assert s[|a|] == '|' && s[|b|] == '|';
    assert forall i :: 0 <= i < |a| ==> s[i] == a[i];
    assert forall i :: 0 <= i < |b| ==> s[i] == b[i];
    assert |a| == |b|;
    assert a == s[..|a|] == b && x == s[|a| + 1..] == y;
  }

  /** With such keys, distinct participant, action and node never share a group key. */
  lemma PlainKeysAreInjective(mode: RuntimeMode, cs: seq<Candidate>)
    requires PlainKeys(cs)
    ensures KeysInjective(mode, cs)
  {
    hide ClassOf, CompositionKey;
    forall c, d | c in cs && d in cs && ClassOf(c).Some? && ClassOf(d).Some? && GroupKey(mode, c) == GroupKey(mode, d)
      ensures c.participant == d.participant && ClassOf(c).value.action == ClassOf(d).value.action
              && CompositionKey(mode, c) == CompositionKey(mode, d)
    {
      var key := GroupKey(mode, c);
      assert c.participant == key[..PREFIX_SIZE] == d.participant;
      var x := ClassOf(c).value.action + "|" + CompositionKey(mode, c);
      var y := ClassOf(d).value.action + "|" + CompositionKey(mode, d);
      assert key == c.participant + "|" + x && key == d.participant + "|" + y;
      assert x == key[PREFIX_SIZE + 1..] == y;
      FirstBarSplits(ClassOf(c).value.action, ClassOf(d).value.action, CompositionKey(mode, c),
        CompositionKey(mode, d));
    }
  }

  /** A group carries the action of one of its endpoints. */
  lemma {:induction false} GroupActionIsAMembers(mode: RuntimeMode, cs: seq<Candidate>, key: string)
    requires key in Groups(mode, cs)
    ensures exists c ::
      && c in cs && ClassOf(c).Some? && GroupKey(mode, c) == key
      && ClassOf(c).value.action == Groups(mode, cs)[key].action
  {
    var front, last := cs[..|cs| - 1], cs[|cs| - 1];
    assert last in cs && forall c :: c in front ==> c in cs;
    hide ClassOf, GroupKey;
    if ClassOf(last).Some? && GroupKey(mode, last) == key {
      assert Groups(mode, cs)[key].action == ClassOf(last).value.action;
    } else {
      GroupActionIsAMembers(mode, front, key);
    }
  }

  // ------------------------------------------------------------------- the search

  /** `find_endpoint`: the candidate matches every field asked for. */
  predicate IsEndpoint(c: Candidate, participant: string, name: string, role: Role, kind: Kind, wireType: string,
                       mode: RuntimeMode, composition: string) {
    c.participant == participant && c.kind == kind && c.role == role && c.name == name && c.wireType == wireType
    && CompositionKey(mode, c) == composition
  }

  ghost predicate Found(cs: seq<Candidate>, participant: string, names: ActionNames, types: ActionTypes,
                        mode: RuntimeMode, composition: string, r: ActionRole) {
    exists k :: 0 <= k < |cs|
      && IsEndpoint(cs[k], participant, NameFor(names, r), RoleOf(r), ServerKind(r), types(r), mode, composition)
  }

  /** `action_server_composition_complete` without a QoS filter. */
  ghost predicate CompositionComplete(cs: seq<Candidate>, participant: string, names: ActionNames, types: ActionTypes,
                                      mode: RuntimeMode, composition: string) {
    forall r: ActionRole :: Found(cs, participant, names, types, mode, composition, r)
  }

  ghost predicate ServerExists(cs: seq<Candidate>, names: ActionNames, types: ActionTypes, mode: RuntimeMode) {
    exists participant, composition :: CompositionComplete(cs, participant, names, types, mode, composition)
  }

  /** An endpoint found by its derived name belongs to the action and fills its slot. */
  lemma FoundFills(cs: seq<Candidate>, participant: string, action: string, types: ActionTypes, mode: RuntimeMode,
                   composition: string, r: ActionRole)
    requires Derive(action).Some? && Found(cs, participant, Derive(action).value, types, mode, composition, r)
    ensures exists k ::
      && 0 <= k < |cs|
      && Fills(mode, cs[k], participant + "|" + action + "|" + composition, r, ServerKind(r))
  {
    var names := Derive(action).value;
    var k :| 0 <= k < |cs|
      && IsEndpoint(cs[k], participant, NameFor(names, r), RoleOf(r), ServerKind(r), types(r), mode, composition);
    ActionEndpointsRoundTrip(mode, action, r);
    hide Classify, Derive, NameFor, Normalize, DdsName;
    assert ClassOf(cs[k]) == Some(Classified(action, r));
    assert Fills(mode, cs[k], participant + "|" + action + "|" + composition, r, ServerKind(r));
  }

  /** Whenever the search finds a server for an action, composition reports a server for it. */
  lemma FoundServersAreReported(cs: seq<Candidate>, action: string, types: ActionTypes, mode: RuntimeMode)
    requires Derive(action).Some? && KeysInjective(mode, cs) && ServerExists(cs, Derive(action).value, types, mode)
    ensures exists key ::
      && key in Compose(mode, cs) && Compose(mode, cs)[key].action == action
      && Compose(mode, cs)[key].hasServer
  {
    var names := Derive(action).value;
    var participant, composition :| CompositionComplete(cs, participant, names, types, mode, composition);
    var key := participant + "|" + action + "|" + composition;
    hide Classify, Derive, NameFor, Groups, GroupKey;
    forall r: ActionRole ensures Present(Groups(mode, cs), key, r, ServerKind(r)) {
      assert Found(cs, participant, names, types, mode, composition, r);
      FoundFills(cs, participant, action, types, mode, composition, r);
      SlotsAreFilled(mode, cs, key, r, ServerKind(r));
    }
    assert Present(Groups(mode, cs), key, Feedback, ServerKind(Feedback));
    ReportedAction(cs, participant, action, types, mode, composition);
    CompleteMeansAll(Groups(mode, cs), key);
    assert key in Compose(mode, cs);
  }

  /** The same without any hypothesis on keys, for actions whose names have no bar. */
  lemma FoundPlainServersAreReported(cs: seq<Candidate>, action: string, types: ActionTypes, mode: RuntimeMode)
    requires Derive(action).Some? && PlainKeys(cs) && ServerExists(cs, Derive(action).value, types, mode)
    ensures exists key ::
      && key in Compose(mode, cs) && Compose(mode, cs)[key].action == action
      && Compose(mode, cs)[key].hasServer
  {
    PlainKeysAreInjective(mode, cs);
    FoundServersAreReported(cs, action, types, mode);
  }

  lemma ReportedAction(cs: seq<Candidate>, participant: string, action: string, types: ActionTypes, mode: RuntimeMode,
                       composition: string)
    requires Derive(action).Some? && KeysInjective(mode, cs)
    requires CompositionComplete(cs, participant, Derive(action).value, types, mode, composition)
    requires participant + "|" + action + "|" + composition in Groups(mode, cs)
    ensures Groups(mode, cs)[participant + "|" + action + "|" + composition].action == action
  {
    var key := participant + "|" + action + "|" + composition;
    GroupActionIsAMembers(mode, cs, key);
    var c :| c in cs && ClassOf(c).Some? && GroupKey(mode, c) == key
      && ClassOf(c).value.action == Groups(mode, cs)[key].action;
    var names := Derive(action).value;
    assert Found(cs, participant, names, types, mode, composition, Feedback);
    var k :| 0 <= k < |cs|
      && IsEndpoint(cs[k], participant, NameFor(names, Feedback), RoleOf(Feedback), ServerKind(Feedback),
                    types(Feedback), mode, composition);
    ActionEndpointsRoundTrip(mode, action, Feedback);
    hide Classify, Derive, NameFor, Normalize, DdsName, Groups;
    assert ClassOf(cs[k]) == Some(Classified(action, Feedback));
    assert cs[k] in cs && GroupKey(mode, cs[k]) == key;
  }

  lemma CompleteMeansAll(groups: map<string, Group>, key: string)
    requires key in groups
    ensures CompleteServer(groups[key]) <==> forall r: ActionRole :: Present(groups, key, r, ServerKind(r))
    ensures CompleteClient(groups[key]) <==> forall r: ActionRole :: Present(groups, key, r, ClientKind(r))
  {
    forall r: ActionRole ensures r in Roles() {
      EveryRole(r);
    }
    forall r | r in Roles()
      ensures Present(groups, key, r, ServerKind(r)) <==> (r, ServerKind(r)) in groups[key].endpoints
    {
    }
  }

  /** Composition reports a server exactly for keys under which all eight of its endpoints are
      present, whatever their types. */
  lemma ReportsAreExact(cs: seq<Candidate>, mode: RuntimeMode, key: string)
    requires key in Compose(mode, cs)
    ensures Compose(mode, cs)[key].hasServer <==>
      forall r: ActionRole :: exists k :: 0 <= k < |cs| && Fills(mode, cs[k], key, r, ServerKind(r))
    ensures Compose(mode, cs)[key].hasClient <==>
      forall r: ActionRole :: exists k :: 0 <= k < |cs| && Fills(mode, cs[k], key, r, ClientKind(r))
  {
    CompleteMeansAll(Groups(mode, cs), key);
    hide Fills, Groups, Present, CompleteServer, CompleteClient;
    forall r: ActionRole
      ensures Present(Groups(mode, cs), key, r, ServerKind(r)) <==>
        exists k :: 0 <= k < |cs| && Fills(mode, cs[k], key, r, ServerKind(r))
      ensures Present(Groups(mode, cs), key, r, ClientKind(r)) <==>
        exists k :: 0 <= k < |cs| && Fills(mode, cs[k], key, r, ClientKind(r))
    {
      SlotsAreFilled(mode, cs, key, r, ServerKind(r));
      SlotsAreFilled(mode, cs, key, r, ClientKind(r));
    }
  }

  // ------------------------------------------------------------------- the loops

  /** The grouping loop of `compose_action_candidates`. */
  method CollectGroups(mode: RuntimeMode, cs: seq<Candidate>) returns (groups: map<string, Group>)
    ensures groups == Groups(mode, cs)
  {
    groups := map[];
    var k := 0;
    while k < |cs|
      invariant 0 <= k <= |cs| && groups == Groups(mode, cs[..k])
    {
      assert cs[..k + 1][..k] == cs[..k];
      var classified := ClassOf(cs[k]);
      if classified.Some? {
        var key := GroupKey(mode, cs[k]);
        var group := if key in groups then groups[key] else Group("", map[]);
        var slot := (classified.value.role, cs[k].kind);
        if slot !in group.endpoints {
          group := group.(endpoints := group.endpoints[slot := cs[k]]);
        }
        groups := groups[key := group.(action := classified.value.action)];
      }
      k := k + 1;
    }
    assert cs[..k] == cs;
  }

  method FindEndpoint(cs: seq<Candidate>, participant: string, names: ActionNames, types: ActionTypes,
                      mode: RuntimeMode, composition: string, r: ActionRole) returns (found: bool)
    ensures found <==> Found(cs, participant, names, types, mode, composition, r)
  {
    var k := 0;
    while k < |cs|
      invariant 0 <= k <= |cs|
      invariant forall j :: 0 <= j < k ==>
        !IsEndpoint(cs[j], participant, NameFor(names, r), RoleOf(r), ServerKind(r), types(r), mode, composition)
    {
      if IsEndpoint(cs[k], participant, NameFor(names, r), RoleOf(r), ServerKind(r), types(r), mode, composition) {
        return true;
      }
      k := k + 1;
    }
    found := false;
  }

  /** `has_action_server` without a QoS filter: every participant, every composition in it. */
  method HasActionServer(cs: seq<Candidate>, names: ActionNames, types: ActionTypes, mode: RuntimeMode)
    returns (found: bool)
    ensures found <==> ServerExists(cs, names, types, mode)
  {
    var k := 0;
    while k < |cs|
      invariant 0 <= k <= |cs|
      invariant forall j :: 0 <= j < k ==>
        !CompositionComplete(cs, cs[j].participant, names, types, mode, CompositionKey(mode, cs[j]))
    {
      var complete := true;
      var i := 0;
      while i < |Roles()|
        invariant 0 <= i <= |Roles()|
        invariant complete <==> forall j :: 0 <= j < i ==>
          Found(cs, cs[k].participant, names, types, mode, CompositionKey(mode, cs[k]), Roles()[j])
      {
        var here := FindEndpoint(cs, cs[k].participant, names, types, mode, CompositionKey(mode, cs[k]), Roles()[i]);
        complete := complete && here;
        i := i + 1;
      }
      if complete {
        forall r: ActionRole ensures Found(cs, cs[k].participant, names, types, mode, CompositionKey(mode, cs[k]), r) {
          EveryRole(r);
        }
        assert CompositionComplete(cs, cs[k].participant, names, types, mode, CompositionKey(mode, cs[k]));
        return true;
      }
      k := k + 1;
    }
    forall participant, composition ensures !CompositionComplete(cs, participant, names, types, mode, composition) {
      if Found(cs, participant, names, types, mode, composition, Feedback) {
        var j :| 0 <= j < |cs|
          && IsEndpoint(cs[j], participant, NameFor(names, Feedback), RoleOf(Feedback), ServerKind(Feedback),
                        types(Feedback), mode, composition);
        assert cs[j].participant == participant && CompositionKey(mode, cs[j]) == composition;
      }
    }
    found := false;
  }
}
