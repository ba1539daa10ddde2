/** What holds along every run of the parameter store. */
module ParameterRuns {
  import opened Common
  import opened ParameterModel

  // ------------------------------------------------------------------ invariant

  function Mentions(ps: seq<Parameter>, n: Name): nat {
    if ps == [] then 0 else Mentions(ps[..|ps| - 1], n) + (if ps[|ps| - 1].name == n then 1 else 0)
  }

  function One(present: bool): int {
    if present then 1 else 0
  }

  /** New minus deleted entries is presence now minus presence at the last take. */
  ghost predicate PresenceOk(s: State) {
    forall n :: Mentions(s.journal.created, n) - Mentions(s.journal.deleted, n) ==
      One(n in s.parameters) - One(n in s.base)
  }

  function Replay(m: map<Name, Value>, ps: seq<Parameter>): map<Name, Value> {
    if ps == [] then m else Replay(m, ps[..|ps| - 1])[ps[|ps| - 1].name := ps[|ps| - 1].value]
  }

  /** The two maps say the same of `n`. */
  ghost predicate SameAt(a: map<Name, Value>, b: map<Name, Value>, n: Name) {
    (n in a <==> n in b) && (n in a ==> a[n] == b[n])
  }

  /** The journal replayed over the values of the last take: first the new entries, then the
      changed ones. */
  function Replayed(s: State): map<Name, Value> {
    Replay(Replay(s.base, s.journal.created), s.journal.changed)
  }

  /** The journal rebuilds the value, or absence, of every name that was not undeclared. */
  ghost predicate ReplayOk(s: State) {
    && (forall n :: n !in s.undeclared ==> SameAt(Replayed(s), Values(s.parameters), n))
    && (forall k :: 0 <= k < |s.journal.changed| ==>
          s.journal.changed[k].name in s.parameters || s.journal.changed[k].name in s.undeclared)
  }

  /** Every stored value meets the ranges of its own descriptor. */
  ghost predicate RangesOk(s: State) {
    forall n :: n in s.parameters ==> MeetsRanges(s.parameters[n].value, s.parameters[n].descriptor)
  }

  ghost predicate Inv(s: State) {
    PresenceOk(s) && ReplayOk(s) && RangesOk(s)
  }

  // ---------------------------------------------------------------- journal lemmas

  lemma Append(ps: seq<Parameter>, p: Parameter, n: Name, m: map<Name, Value>)
    ensures Mentions(ps + [p], n) == Mentions(ps, n) + (if p.name == n then 1 else 0)
    ensures Replay(m, ps + [p]) == Replay(m, ps)[p.name := p.value]
  {
    assert (ps + [p])[..|ps|] == ps;
  }

  /** What the replay says of `n` depends on what the map said of `n`. */
  lemma {:induction false} ReplayIsPointwise(a: map<Name, Value>, b: map<Name, Value>, ps: seq<Parameter>, n: Name)
    requires SameAt(a, b, n)
    ensures SameAt(Replay(a, ps), Replay(b, ps), n)
  {
    if ps != [] {
      ReplayIsPointwise(a, b, ps[..|ps| - 1], n);
    }
  }

  /** A replay that does not mention `n` leaves it alone. */
  lemma {:induction false} ReplayElsewhere(m: map<Name, Value>, ps: seq<Parameter>, n: Name)
    requires forall k :: 0 <= k < |ps| ==> ps[k].name != n
    ensures SameAt(Replay(m, ps), m, n)
  {
    if ps != [] {
      ReplayElsewhere(m, ps[..|ps| - 1], n);
    }
  }

  /** A parameter comes into being: by `declare` or by an undeclared assignment. */
  lemma CreatedKeeps(s: State, t: State, name: Name, x: Stored)
    requires Inv(s) && name !in s.parameters && MeetsRanges(x.value, x.descriptor)
    requires t == s.(parameters := s.parameters[name := x],
                     journal := s.journal.(created := s.journal.created + [Parameter(name, x.value)]))
    ensures Inv(t)
  {
    CreatedPresence(s, t, name, x.value);
    hide MeetsRanges, PresenceOk, ReplayOk;
    CreatedReplay(s, t, name, x);
  }

  lemma CreatedPresence(s: State, t: State, name: Name, v: Value)
    requires PresenceOk(s) && name !in s.parameters && t.base == s.base
    requires t.parameters.Keys == s.parameters.Keys + {name}
    requires t.journal == s.journal.(created := s.journal.created + [Parameter(name, v)])
    ensures PresenceOk(t)
  {
    forall n
      ensures Mentions(t.journal.created, n) - Mentions(t.journal.deleted, n) ==
        One(n in t.parameters) - One(n in t.base)
    {
      Append(s.journal.created, Parameter(name, v), n, s.base);
    }
  }

  lemma CreatedReplay(s: State, t: State, name: Name, x: Stored)
    requires ReplayOk(s) && name !in s.parameters && t.undeclared == s.undeclared
    requires t.parameters == s.parameters[name := x] && t.base == s.base
    requires t.journal == s.journal.(created := s.journal.created + [Parameter(name, x.value)])
    ensures ReplayOk(t)
  {
    var before := Replay(s.base, s.journal.created);
    Append(s.journal.created, Parameter(name, x.value), name, s.base);
    forall n | n !in t.undeclared ensures SameAt(Replayed(t), Values(t.parameters), n) {
      if n == name {
        ReplayElsewhere(before[name := x.value], s.journal.changed, name);
      } else {
        ReplayIsPointwise(before[name := x.value], before, s.journal.changed, n);
        assert SameAt(Replayed(s), Values(s.parameters), n);
      }
    }
  }

  lemma ChangedReplay(s: State, t: State, name: Name, v: Value)
    requires ReplayOk(s) && name in s.parameters && t.undeclared == s.undeclared && t.base == s.base
    requires t.parameters == s.parameters[name := s.parameters[name].(value := v)]
    requires t.journal == s.journal.(changed := s.journal.changed + [Parameter(name, v)])
    ensures ReplayOk(t)
  {
    Append(s.journal.changed, Parameter(name, v), name, Replay(s.base, s.journal.created));
    forall n | n !in t.undeclared ensures SameAt(Replayed(t), Values(t.parameters), n) {
      assert SameAt(Replayed(s), Values(s.parameters), n);
    }
  }

  lemma ChangedKeeps(s: State, t: State, name: Name, v: Value)
    requires Inv(s) && name in s.parameters && MeetsRanges(v, s.parameters[name].descriptor)
    requires t == s.(parameters := s.parameters[name := s.parameters[name].(value := v)],
                     journal := s.journal.(changed := s.journal.changed + [Parameter(name, v)]))
    ensures Inv(t)
  {
    hide MeetsRanges, ReplayOk;
    ChangedReplay(s, t, name, v);
  }

  lemma AssignedKeeps(s: State, p: Parameter, allowUndeclared: bool)
    requires Inv(s) && AssignmentError(s.parameters, p, allowUndeclared) == None
    ensures Inv(Assigned(s, p))
  {
    hide Inv;
    if p.name !in s.parameters {
      CreatedKeeps(s, Assigned(s, p), p.name, Stored(p.value, Descriptor(false, false, [], [])));
    } else if s.parameters[p.name].value != p.value {
      ChangedKeeps(s, Assigned(s, p), p.name, p.value);
    }
  }

  /** Assignments to other names leave the parameter, and what is admissible for it, alone. */
  lemma {:induction false} OthersUntouched(s: State, ps: seq<Parameter>, n: Name)
    requires forall k :: 0 <= k < |ps| ==> ps[k].name != n
    ensures var t := AssignedAll(s, ps);
      (n in t.parameters <==> n in s.parameters) && (n in s.parameters ==> t.parameters[n] == s.parameters[n])
  {
    if ps != [] {
      OthersUntouched(s, ps[..|ps| - 1], n);
    }
  }

  lemma DistinctPrefix(ps: seq<Parameter>)
    requires Distinct(Names(ps)) && ps != []
    ensures Distinct(Names(ps[..|ps| - 1]))
    ensures forall k :: 0 <= k < |ps| - 1 ==> ps[k].name != ps[|ps| - 1].name
  {
    assert forall k :: 0 <= k < |ps| - 1 ==> Names(ps[..|ps| - 1])[k] == Names(ps)[k];
    forall k | 0 <= k < |ps| - 1 ensures ps[k].name != ps[|ps| - 1].name {
      assert Names(ps)[k] != Names(ps)[|ps| - 1];
    }
  }

  /** A batch that is admissible as a whole is a sequence of single assignments, each
      admissible when its turn comes. */
  lemma {:induction false} BatchKeeps(s: State, ps: seq<Parameter>, allowUndeclared: bool)
    requires Inv(s) && Distinct(Names(ps))
    requires forall k :: 0 <= k < |ps| ==> AssignmentError(s.parameters, ps[k], allowUndeclared) == None
    ensures Inv(AssignedAll(s, ps))
    ensures ps != [] ==>
      AssignmentError(AssignedAll(s, ps[..|ps| - 1]).parameters, ps[|ps| - 1], allowUndeclared) == None
  {
    if ps != [] {
      DistinctPrefix(ps);
      var front, last := ps[..|ps| - 1], ps[|ps| - 1];
      BatchKeeps(s, front, allowUndeclared);
      OthersUntouched(s, front, last.name);
      hide Inv, MeetsRanges;
      AssignedKeeps(AssignedAll(s, front), last, allowUndeclared);
    }
  }

  lemma UndeclaredReplay(s: State, name: Name)
    requires ReplayOk(s) && name in s.parameters
    ensures ReplayOk(Undeclared(s, name))
  {
    var t := Undeclared(s, name);
    forall n | n !in t.undeclared ensures SameAt(Replayed(t), Values(t.parameters), n) {
      assert SameAt(Replayed(s), Values(s.parameters), n);
    }
  }

  lemma UndeclaredKeeps(s: State, name: Name)
    requires Inv(s) && name in s.parameters
    ensures Inv(Undeclared(s, name))
  {
    UndeclaredReplay(s, name);
    hide MeetsRanges, ReplayOk;
    var t := Undeclared(s, name);
    forall n
      ensures Mentions(t.journal.created, n) - Mentions(t.journal.deleted, n) ==
        One(n in t.parameters) - One(n in t.base)
    {
      Append(s.journal.deleted, Parameter(name, s.parameters[name].value), n, s.base);
    }
  }

  lemma StepKeepsInvariant(s: State, e: Event, allowUndeclared: bool)
    requires Inv(s)
    ensures Inv(Apply(s, e, allowUndeclared))
  {
    match e
    case Declare(name, default, d, o, ignore) =>
      hide Inv, IsName;
      var v := Effective(default, o, ignore);
      if IsName(name) && DeclareError(s, name, default, d, v) == None {
        CreatedKeeps(s, Declared(s, name, v, d), name, Stored(v, d));
      }
    case Undeclare(name) =>
      hide Inv, IsName;
      if IsName(name) && name in s.parameters {
        UndeclaredKeeps(s, name);
      }
    case SetAtomically(batch) =>
      hide Inv, IsName;
      if BatchOk(s, batch, allowUndeclared) {
        BatchKeeps(s, batch, allowUndeclared);
      }
    case Take =>
  }

  lemma {:induction false} RunKeepsInvariant(states: seq<State>, events: seq<Event>, allowUndeclared: bool, k: nat)
    requires IsRun(states, events, allowUndeclared) && k < |states|
    ensures Inv(states[k])
  {
    if k > 0 {
      RunKeepsInvariant(states, events, allowUndeclared, k - 1);
      assert states[k] == Apply(states[k - 1], events[k - 1], allowUndeclared);
      hide Inv, Apply;
      StepKeepsInvariant(states[k - 1], events[k - 1], allowUndeclared);
    }
  }

  // --------------------------------------------------------------- main theorems

  /** For every name, journalled new minus deleted entries equals presence now minus presence
      at the last take. */
  lemma JournalBalancesPresence(states: seq<State>, events: seq<Event>, allowUndeclared: bool, k: nat, n: Name)
    requires IsRun(states, events, allowUndeclared) && k < |states|
    ensures var s := states[k];
      Mentions(s.journal.created, n) - Mentions(s.journal.deleted, n) == One(n in s.parameters) - One(n in s.base)
  {
    RunKeepsInvariant(states, events, allowUndeclared, k);
  }

  /** Whatever happened to other names: a name that was not undeclared since the last take has
      its current value in the replay of the journal, or is absent from both. */
  lemma JournalRebuildsEachName(states: seq<State>, events: seq<Event>, allowUndeclared: bool, k: nat, n: Name)
    requires IsRun(states, events, allowUndeclared) && k < |states| && n !in states[k].undeclared
    ensures n in Replayed(states[k]) <==> n in states[k].parameters
    ensures n in states[k].parameters ==> Replayed(states[k])[n] == states[k].parameters[n].value
  {
    RunKeepsInvariant(states, events, allowUndeclared, k);
    assert SameAt(Replayed(states[k]), Values(states[k].parameters), n);
  }

  /** In a window without undeclaration, replaying the new entries and then the changed ones
      over the values of the last take rebuilds the store's values. */
  lemma JournalRebuildsTheStore(states: seq<State>, events: seq<Event>, allowUndeclared: bool, k: nat)
    requires IsRun(states, events, allowUndeclared) && k < |states| && states[k].undeclared == {}
    ensures Replayed(states[k]) == Values(states[k].parameters)
  {
    hide Inv;
    forall n
      ensures n in Replayed(states[k]) <==> n in Values(states[k].parameters)
      ensures n in Replayed(states[k]) ==> Replayed(states[k])[n] == Values(states[k].parameters)[n]
    {
      JournalRebuildsEachName(states, events, allowUndeclared, k, n);
    }
  }

  /** Every stored number meets one of the ranges declared for it, if any are declared. */
  lemma StoredValuesMeetTheirRanges(states: seq<State>, events: seq<Event>, allowUndeclared: bool, k: nat, n: Name)
    requires IsRun(states, events, allowUndeclared) && k < |states| && n in states[k].parameters
    ensures MeetsRanges(states[k].parameters[n].value, states[k].parameters[n].descriptor)
  {
    RunKeepsInvariant(states, events, allowUndeclared, k);
  }

  lemma {:induction false} BatchKeepsTypes(s: State, ps: seq<Parameter>, allowUndeclared: bool, n: Name)
    requires Distinct(Names(ps)) && n in s.parameters
    requires forall k :: 0 <= k < |ps| ==> AssignmentError(s.parameters, ps[k], allowUndeclared) == None
    ensures var t := AssignedAll(s, ps);
      && n in t.parameters && t.parameters[n].descriptor == s.parameters[n].descriptor
      && (s.parameters[n].descriptor.readOnly ==> t.parameters[n] == s.parameters[n])
      && (!s.parameters[n].descriptor.dynamicTyping && s.parameters[n].value != NotSet ==>
            TypeOf(t.parameters[n].value) == TypeOf(s.parameters[n].value))
  {
    if ps != [] {
      DistinctPrefix(ps);
      var front, last := ps[..|ps| - 1], ps[|ps| - 1];
      BatchKeepsTypes(s, front, allowUndeclared, n);
      if last.name == n {
        OthersUntouched(s, front, n);
      }
    }
  }

  /** A set parameter of fixed type keeps its type, and a read-only one its value, in every
      step that does not undeclare it. */
  lemma FixedTypeStays(s: State, e: Event, allowUndeclared: bool, n: Name)
    requires n in s.parameters && n in Apply(s, e, allowUndeclared).parameters
    ensures var t := Apply(s, e, allowUndeclared);
      && t.parameters[n].descriptor == s.parameters[n].descriptor
      && (s.parameters[n].descriptor.readOnly ==> t.parameters[n] == s.parameters[n])
      && (!s.parameters[n].descriptor.dynamicTyping && s.parameters[n].value != NotSet ==>
            TypeOf(t.parameters[n].value) == TypeOf(s.parameters[n].value))
  {
    hide IsName, MeetsRanges;
    if e.SetAtomically? && BatchOk(s, e.batch, allowUndeclared) {
      BatchKeepsTypes(s, e.batch, allowUndeclared, n);
    }
  }

  /** Along any stretch of a run in which it is never undeclared, a set parameter of fixed type
      keeps its type. */
  lemma {:induction false} FixedTypeStaysAlongRuns(states: seq<State>, events: seq<Event>, allowUndeclared: bool,
                                                   j: nat, k: nat, n: Name)
    requires IsRun(states, events, allowUndeclared) && j <= k < |states|
    requires forall i :: j <= i <= k ==> n in states[i].parameters
    requires !states[j].parameters[n].descriptor.dynamicTyping && states[j].parameters[n].value != NotSet
    ensures states[k].parameters[n].descriptor == states[j].parameters[n].descriptor
    ensures TypeOf(states[k].parameters[n].value) == TypeOf(states[j].parameters[n].value)
  {
    if j < k {
      FixedTypeStaysAlongRuns(states, events, allowUndeclared, j, k - 1, n);
      assert states[k] == Apply(states[k - 1], events[k - 1], allowUndeclared);
      hide Apply;
      FixedTypeStays(states[k - 1], events[k - 1], allowUndeclared, n);
    }
  }

  /** A batch takes effect as a whole: afterwards every parameter of an admissible batch has
      the value asked for, no other parameter changed, and a batch with any fault changes
      nothing at all. */
  lemma BatchesAreAtomic(s: State, ps: seq<Parameter>, allowUndeclared: bool)
    ensures var t := Apply(s, SetAtomically(ps), allowUndeclared);
      if BatchOk(s, ps, allowUndeclared) then
        && (forall k :: 0 <= k < |ps| ==> ps[k].name in t.parameters && t.parameters[ps[k].name].value == ps[k].value)
        && (forall n :: n !in Names(ps) ==> (n in t.parameters <==> n in s.parameters)
                                            && (n in s.parameters ==> t.parameters[n] == s.parameters[n]))
      else t == s
  {
    if BatchOk(s, ps, allowUndeclared) {
      hide IsName;
      BatchAssigns(s, ps);
      forall n | n !in Names(ps)
        ensures var t := AssignedAll(s, ps);
          (n in t.parameters <==> n in s.parameters) && (n in s.parameters ==> t.parameters[n] == s.parameters[n])
      {
        forall k | 0 <= k < |ps| ensures ps[k].name != n {
          assert Names(ps)[k] in Names(ps);
        }
        OthersUntouched(s, ps, n);
      }
    }
  }

  lemma {:induction false} BatchAssigns(s: State, ps: seq<Parameter>)
    requires Distinct(Names(ps))
    ensures var t := AssignedAll(s, ps);
      forall k :: 0 <= k < |ps| ==> ps[k].name in t.parameters && t.parameters[ps[k].name].value == ps[k].value
  {
    if ps != [] {
      DistinctPrefix(ps);
      BatchAssigns(s, ps[..|ps| - 1]);
    }
  }
}
