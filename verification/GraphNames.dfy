/** Names of action endpoints on the wire and back: derivation, transport mapping,
    normalization and classification. */
module GraphNames {
  import opened Common

  datatype RuntimeMode = DDS | ROS2

  /** The logical protocol one DDS endpoint belongs to. */
  datatype Role = Topic | ServiceRequest | ServiceResponse

  datatype Normalized = Normalized(name: string, role: Role)

  datatype ActionRole =
    | SendGoalRequest | SendGoalResponse
    | CancelGoalRequest | CancelGoalResponse
    | GetResultRequest | GetResultResponse
    | Feedback | Status

  datatype Classified = Classified(action: string, role: ActionRole)

  datatype ActionNames = ActionNames(sendGoal: string, cancelGoal: string, getResult: string, feedback: string,
                                     status: string)

  const MARKER: string := "/_action/"

  predicate StartsWith(s: string, prefix: string) {
    |s| >= |prefix| && s[..|prefix|] == prefix
  }

  predicate EndsWith(s: string, suffix: string) {
    |s| >= |suffix| && s[|s| - |suffix|..] == suffix
  }

  // ------------------------------------------------------------ transport names

  /** `dds_topic_name` and `service_topic_name`. */
  function DdsName(mode: RuntimeMode, name: string, role: Role): string
    requires name != ""
  {
    var path := name[1..];
    match (mode, role)
    case (ROS2, Topic) => "rt/" + path
    case (ROS2, ServiceRequest) => "rq/" + path + "Request"
    case (ROS2, ServiceResponse) => "rr/" + path + "Reply"
    case (DDS, Topic) => path
    case (DDS, ServiceRequest) => path + "_Request"
    case (DDS, ServiceResponse) => path + "_Reply"
  }

  /** The middle of a string between two affixes that do not overlap. */
  function Between(s: string, front: nat, back: nat): string {
    if front + back <= |s| then s[front..|s| - back] else ""
  }

  function Kept(name: string, role: Role): Option<Normalized> {
    if |name| <= 1 then None else Some(Normalized(name, role))
  }

  /** `normalize_endpoint_name`. */
  function Normalize(mode: RuntimeMode, dds: string): Option<Normalized> {
    if mode == ROS2 then
      if StartsWith(dds, "rt/") then Kept("/" + dds[3..], Topic)
      else if StartsWith(dds, "rq/") && EndsWith(dds, "Request") then Kept("/" + Between(dds, 3, 7), ServiceRequest)
      else if StartsWith(dds, "rr/") && EndsWith(dds, "Reply") then Kept("/" + Between(dds, 3, 5), ServiceResponse)
      else None
    else if EndsWith(dds, "_Request") then Kept("/" + dds[..|dds| - 8], ServiceRequest)
    else if EndsWith(dds, "_Reply") then Kept("/" + dds[..|dds| - 6], ServiceResponse)
    else Kept("/" + dds, Topic)
  }

  lemma PrefixSays(s: string, prefix: string, k: nat)
    requires k < |prefix|
    ensures StartsWith(s, prefix) ==> k < |s| && s[k] == prefix[k]
  {
    assert StartsWith(s, prefix) ==> s[..|prefix|][k] == s[k];
  }

  lemma SuffixSays(s: string, suffix: string, k: nat)
    requires k < |suffix|
    ensures EndsWith(s, suffix) ==> |s| >= |suffix| && s[|s| - |suffix| + k] == suffix[k]
  {
    assert EndsWith(s, suffix) ==> s[|s| - |suffix|..][k] == s[|s| - |suffix| + k];
  }

  /** A prefix and a suffix that both match cannot overlap, so the subtraction of their lengths
      never underflows. */
  lemma AffixesApart(dds: string)
    ensures StartsWith(dds, "rq/") && EndsWith(dds, "Request") ==> |dds| >= 10
    ensures StartsWith(dds, "rr/") && EndsWith(dds, "Reply") ==> |dds| >= 8
  {
    PrefixSays(dds, "rq/", 2);
    PrefixSays(dds, "rr/", 2);
    if 7 <= |dds| < 10 {
      SuffixSays(dds, "Request", 9 - |dds|);
    }
    if 5 <= |dds| < 8 {
      SuffixSays(dds, "Reply", 7 - |dds|);
    }
  }

  lemma BothAffixes(dds: string, prefix: string, suffix: string)
    requires StartsWith(dds, prefix) && EndsWith(dds, suffix) && |prefix| + |suffix| <= |dds|
    ensures prefix + dds[|prefix|..|dds| - |suffix|] + suffix == dds
  {
    assert dds == dds[..|prefix|] + dds[|prefix|..|dds| - |suffix|] + dds[|dds| - |suffix|..];
  }

  /** Whatever a transport name normalizes to maps back to that transport name. */
  lemma NormalizedMapsBack(mode: RuntimeMode, dds: string)
    requires Normalize(mode, dds).Some?
    ensures var n := Normalize(mode, dds).value;
      |n.name| > 1 && n.name[0] == '/' && DdsName(mode, n.name, n.role) == dds
  {
    AffixesApart(dds);
    var n := Normalize(mode, dds).value;
    if mode == ROS2 {
      if StartsWith(dds, "rt/") {
        BothAffixes(dds, "rt/", "");
        assert n.name[1..] == dds[3..];
      } else if StartsWith(dds, "rq/") && EndsWith(dds, "Request") {
        BothAffixes(dds, "rq/", "Request");
        assert n.name[1..] == dds[3..|dds| - 7];
      } else {
        BothAffixes(dds, "rr/", "Reply");
        assert n.name[1..] == dds[3..|dds| - 5];
      }
    } else if EndsWith(dds, "_Request") {
      BothAffixes(dds, "", "_Request");
      assert n.name[1..] == dds[..|dds| - 8];
    } else if EndsWith(dds, "_Reply") {
      BothAffixes(dds, "", "_Reply");
      assert n.name[1..] == dds[..|dds| - 6];
    } else {
      assert n.name[1..] == dds;
    }
  }

  /** In DDS mode a plain topic may carry a name that looks like half of a service. */
  predicate LooksLikeService(name: string)
    requires name != ""
  {
    EndsWith(name[1..], "_Request") || EndsWith(name[1..], "_Reply")
  }

  lemma Suffixed(path: string, suffix: string)
    ensures EndsWith(path + suffix, suffix) && (path + suffix)[..|path|] == path
  {
  }

  lemma Ros2NamesRoundTrip(path: string, role: Role)
    requires path != ""
    ensures Normalize(ROS2, DdsName(ROS2, "/" + path, role)) == Some(Normalized("/" + path, role))
  {
    assert ("/" + path)[1..] == path;
    var dds := DdsName(ROS2, "/" + path, role);
    match role
    case Topic => assert dds[..3] == "rt/" && dds[3..] == path;
    case ServiceRequest =>
      Suffixed("rq/" + path, "Request");
      assert dds[..3] == "rq/" && Between(dds, 3, 7) == path;
    case ServiceResponse =>
      Suffixed("rr/" + path, "Reply");
      assert dds[..3] == "rr/" && Between(dds, 3, 5) == path;
  }

  lemma DdsNamesRoundTrip(path: string, role: Role)
    requires path != ""
    ensures Normalize(DDS, DdsName(DDS, "/" + path, role)) == Some(Normalized("/" + path, role)) <==>
      !(role == Topic && LooksLikeService("/" + path))
  {
    assert ("/" + path)[1..] == path;
    match role
    case Topic =>
    case ServiceRequest => Suffixed(path, "_Request");
    case ServiceResponse =>
      Suffixed(path, "_Reply");
      LastDiffers(path);
  }

  /** A logical name comes back from the wire exactly unless it is a DDS-mode topic that looks
      like half of a service. */
  lemma NamesRoundTripExactlyUnless(mode: RuntimeMode, name: string, role: Role)
    requires |name| > 1 && name[0] == '/'
    ensures Normalize(mode, DdsName(mode, name, role)) == Some(Normalized(name, role)) <==>
      !(mode == DDS && role == Topic && LooksLikeService(name))
  {
    hide Normalize, DdsName, LooksLikeService;
    assert name == "/" + name[1..];
    if mode == ROS2 {
      Ros2NamesRoundTrip(name[1..], role);
    } else {
      DdsNamesRoundTrip(name[1..], role);
    }
  }

  lemma LastDiffers(path: string)
    ensures !EndsWith(path + "_Reply", "_Request")
  {
    SuffixSays(path + "_Reply", "_Request", 7);
    hide EndsWith;
    assert (path + "_Reply")[|path| + 5] == 'y';
  }

  // ------------------------------------------------------------ action endpoints

  /** The name's own part of an endpoint name. */
  function Suffix(r: ActionRole): string {
    match r
    case SendGoalRequest => "send_goal"
    case SendGoalResponse => "send_goal"
    case CancelGoalRequest => "cancel_goal"
    case CancelGoalResponse => "cancel_goal"
    case GetResultRequest => "get_result"
    case GetResultResponse => "get_result"
    case Feedback => "feedback"
    case Status => "status"
  }

  function RoleOf(r: ActionRole): Role {
    match r
    case SendGoalRequest => ServiceRequest
    case CancelGoalRequest => ServiceRequest
    case GetResultRequest => ServiceRequest
    case SendGoalResponse => ServiceResponse
    case CancelGoalResponse => ServiceResponse
    case GetResultResponse => ServiceResponse
    case _ => Topic
  }

  /** The `k` characters from `at` on are `part`. */
  predicate OccursAt(s: string, part: string, at: nat) {
    at + |part| <= |s| && s[at..at + |part|] == part
  }

  /** `find`: does `part` occur in `s`? */
  predicate Occurs(s: string, part: string) {
    exists at: nat :: at <= |s| && OccursAt(s, part, at)
  }

  /** `rfind` below a limit: the last place where `part` occurs. */
  function LastOccurrence(s: string, part: string, limit: nat): Option<nat> {
    if OccursAt(s, part, limit) then Some(limit)
    else if limit == 0 then None
    else LastOccurrence(s, part, limit - 1)
  }

  lemma {:induction false} LastOccurrenceIs(s: string, part: string, limit: nat, at: nat)
    requires at <= limit && OccursAt(s, part, at)
    requires forall k: nat :: at < k <= limit ==> !OccursAt(s, part, k)
    ensures LastOccurrence(s, part, limit) == Some(at)
  {
    if at < limit {
      assert !OccursAt(s, part, limit);
      LastOccurrenceIs(s, part, limit - 1, at);
    }
  }

  lemma {:induction false} LastOccurrenceOccurs(s: string, part: string, limit: nat)
    requires LastOccurrence(s, part, limit).Some?
    ensures OccursAt(s, part, LastOccurrence(s, part, limit).value)
  {
    if !OccursAt(s, part, limit) {
      LastOccurrenceOccurs(s, part, limit - 1);
    }
  }

  /** `derive_action_endpoint_names`. */
  function Derive(action: string): Option<ActionNames> {
    if |action| <= 1 || action[0] != '/' || action[|action| - 1] == '/' then None
    else if Occurs(action, "/_action") then None
    else
      var prefix := action + MARKER;
      Some(ActionNames(prefix + "send_goal", prefix + "cancel_goal", prefix + "get_result", prefix + "feedback",
        prefix + "status"))
  }

  /** The derived name under which one of the eight endpoints lives. */
  function NameFor(names: ActionNames, r: ActionRole): string {
    match r
    case SendGoalRequest => names.sendGoal
    case SendGoalResponse => names.sendGoal
    case CancelGoalRequest => names.cancelGoal
    case CancelGoalResponse => names.cancelGoal
    case GetResultRequest => names.getResult
    case GetResultResponse => names.getResult
    case Feedback => names.feedback
    case Status => names.status
  }

  /** `classify_action_endpoint`. */
  function Classify(e: Normalized): Option<Classified> {
    var at := LastOccurrence(e.name, MARKER, |e.name|);
    if at.None? || at.value == 0 || at.value + |MARKER| > |e.name| then None
    else
      var action, suffix := e.name[..at.value], e.name[at.value + |MARKER|..];
      if suffix == "" || '/' in suffix then None
      else match e.role
        case Topic =>
          if suffix == "feedback" then Some(Classified(action, Feedback))
          else if suffix == "status" then Some(Classified(action, Status))
          else None
        case ServiceRequest =>
          if suffix == "send_goal" then Some(Classified(action, SendGoalRequest))
          else if suffix == "cancel_goal" then Some(Classified(action, CancelGoalRequest))
          else if suffix == "get_result" then Some(Classified(action, GetResultRequest))
          else None
        case ServiceResponse =>
          if suffix == "send_goal" then Some(Classified(action, SendGoalResponse))
          else if suffix == "cancel_goal" then Some(Classified(action, CancelGoalResponse))
          else if suffix == "get_result" then Some(Classified(action, GetResultResponse))
          else None
  }

  /** A marker followed by a suffix without slash is the last one. */
  lemma MarkerIsLast(action: string, suffix: string)
    requires '/' !in suffix
    ensures LastOccurrence(action + MARKER + suffix, MARKER, |action + MARKER + suffix|) == Some(|action|)
  {
    var s := action + MARKER + suffix;
    assert s[|action|..|action| + 9] == MARKER;
    forall k: nat | |action| < k && k + 9 <= |s| ensures !OccursAt(s, MARKER, k) {
      var m := MARKER;
      assert s[k..k + 9][8] == s[k + 8] == suffix[k - |action| - 1];
      assert m[8] == '/';
    }
    LastOccurrenceIs(s, MARKER, |s|, |action|);
  }

  lemma SuffixHasNoSlash(r: ActionRole)
    ensures '/' !in Suffix(r) && Suffix(r) != ""
  {
  }

  /** Every derived endpoint classifies as what it was derived for. */
  lemma DerivedClassifies(action: string, r: ActionRole)
    requires |action| > 0
    ensures Classify(Normalized(action + MARKER + Suffix(r), RoleOf(r))) == Some(Classified(action, r))
  {
    SuffixHasNoSlash(r);
    MarkerIsLast(action, Suffix(r));
    var s := action + MARKER + Suffix(r);
    assert s[..|action|] == action && s[|action| + 9..] == Suffix(r);
    hide LastOccurrence;
  }

  /** A classification determines the endpoint it came from. */
  lemma ClassificationDetermines(e: Normalized)
    requires Classify(e).Some?
    ensures var c := Classify(e).value;
      e == Normalized(c.action + MARKER + Suffix(c.role), RoleOf(c.role)) && c.action != ""
  {
    LastOccurrenceOccurs(e.name, MARKER, |e.name|);
    var at := LastOccurrence(e.name, MARKER, |e.name|).value;
    assert e.name == e.name[..at] + e.name[at..at + 9] + e.name[at + 9..];
  }

  /** Every action endpoint name, built in either mode, normalizes and classifies back to the
      same action and role. */
  lemma ActionEndpointsRoundTrip(mode: RuntimeMode, action: string, r: ActionRole)
    requires Derive(action).Some?
    ensures var name := NameFor(Derive(action).value, r);
      var n := Normalize(mode, DdsName(mode, name, RoleOf(r)));
      n == Some(Normalized(name, RoleOf(r))) && Classify(n.value) == Some(Classified(action, r))
  {
    hide Occurs;
    var name := NameFor(Derive(action).value, r);
    assert name == action + MARKER + Suffix(r);
    assert name[0] == '/' && |name| > 1;
    hide Derive, NameFor;
    if RoleOf(r) == Topic {
      TopicsDoNotLookLikeServices(action, r);
    }
    NamesRoundTripExactlyUnless(mode, name, RoleOf(r));
    DerivedClassifies(action, r);
  }

  lemma TopicsDoNotLookLikeServices(action: string, r: ActionRole)
    requires |action| > 0 && RoleOf(r) == Topic
    ensures !LooksLikeService(action + MARKER + Suffix(r))
  {
    var path := (action + MARKER + Suffix(r))[1..];
    assert path[|path| - 1] == Suffix(r)[|Suffix(r)| - 1] && path[|path| - 2] == Suffix(r)[|Suffix(r)| - 2];
    SuffixSays(path, "_Request", 6);
    SuffixSays(path, "_Reply", 5);
    hide EndsWith;
  }
}
