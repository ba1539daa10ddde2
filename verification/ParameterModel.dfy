/** Node parameters: values, descriptors, validation, atomic batches and the change journal. */
module ParameterModel {
  import opened Common

  const MIN_INT64: int := -0x8000_0000_0000_0000
  const MAX_INT64: int := 0x7FFF_FFFF_FFFF_FFFF
  const TWO_TO_THE_64: int := 0x1_0000_0000_0000_0000
  const EPSILON: real := 0.000000001

  type int64 = x: int | MIN_INT64 <= x <= MAX_INT64
  type uint64 = x: int | 0 <= x < TWO_TO_THE_64
  type Name = string

  datatype Value =
    | NotSet
    | BoolValue(b: bool)
    | IntegerValue(i: int64)
    | DoubleValue(d: real)
    | StringValue(s: string)
    | ByteArray(bytes: seq<nat>)
    | BoolArray(bools: seq<bool>)
    | IntegerArray(integers: seq<int64>)
    | DoubleArray(doubles: seq<real>)
    | StringArray(strings: seq<string>)

  datatype Type = NoType | BoolType | IntegerType | DoubleType | StringType
    | ByteArrayType | BoolArrayType | IntegerArrayType | DoubleArrayType | StringArrayType

  function TypeOf(v: Value): Type {
    match v
    case NotSet => NoType
    case BoolValue(_) => BoolType
    case IntegerValue(_) => IntegerType
    case DoubleValue(_) => DoubleType
    case StringValue(_) => StringType
    case ByteArray(_) => ByteArrayType
    case BoolArray(_) => BoolArrayType
    case IntegerArray(_) => IntegerArrayType
    case DoubleArray(_) => DoubleArrayType
    case StringArray(_) => StringArrayType
  }

  datatype IntegerRange = IntegerRange(from: int64, to: int64, step: uint64)

  datatype RealRange = RealRange(from: real, to: real, step: real)

  datatype Descriptor = Descriptor(readOnly: bool, dynamicTyping: bool, integers: seq<IntegerRange>,
                                   reals: seq<RealRange>)

  datatype Stored = Stored(value: Value, descriptor: Descriptor)

  datatype Parameter = Parameter(name: Name, value: Value)

  /** The change journal: three lists, each in order of occurrence. */
  datatype Journal = Journal(created: seq<Parameter>, changed: seq<Parameter>, deleted: seq<Parameter>)

  /** `base` holds the values at the last `take_changes`, `undeclared` the names that were
      undeclared since. */
  datatype State = State(parameters: map<Name, Stored>, journal: Journal, base: map<Name, Value>, undeclared: set<Name>)

  function Initial(): State {
    State(map[], Journal([], [], []), map[], {})
  }

  // -------------------------------------------------------------- acceptable values

  /** Conversion of a signed 64-bit value to unsigned. */
  function ToUnsigned(x: int64): uint64 {
    if x < 0 then x + TWO_TO_THE_64 else x
  }

  /** Subtraction of unsigned 64-bit values wraps around. */
  function Minus(a: uint64, b: uint64): uint64 {
    if a >= b then a - b else a - b + TWO_TO_THE_64
  }

  /** `integer_value_is_acceptable`, in the machine's arithmetic. */
  predicate IntegerAcceptable(v: int64, range: IntegerRange) {
    && range.from <= range.to && range.from <= v <= range.to
    && (range.step == 0 || Minus(ToUnsigned(v), ToUnsigned(range.from)) % range.step == 0)
  }

  /** The test means what a range says: the value lies in it, a whole number of steps from its
      start. */
  lemma AcceptableIsOnTheGrid(v: int64, range: IntegerRange)
    ensures IntegerAcceptable(v, range) <==>
      range.from <= v <= range.to && (range.step == 0 || exists n: nat :: v == range.from + n * range.step)
  {
    if range.from <= v <= range.to && range.step != 0 {
      assert Minus(ToUnsigned(v), ToUnsigned(range.from)) == v - range.from;
      if (v - range.from) % range.step == 0 {
        assert v == range.from + ((v - range.from) / range.step) * range.step;
      } else if exists n: nat :: v == range.from + n * range.step {
        var n: nat :| v == range.from + n * range.step;
        MultipleLeavesNothing(n, range.step);
      }
    }
  }

  lemma MultipleLeavesNothing(n: int, d: int)
    requires d > 0
    ensures n * d % d == 0
  {
    var q, r := n * d / d, n * d % d;
    assert n * d == q * d + r;
    Difference(n, q, d);
    SmallMultiple(n - q, d, r);
  }

  lemma Difference(n: int, q: int, d: int)
    ensures (n - q) * d == n * d - q * d
  {
  }

  lemma SmallMultiple(k: int, d: int, r: int)
    requires k * d == r && 0 <= r < d
    ensures r == 0
  {
    if k != 0 {
      AwayFromZero(k, d);
    }
  }

  lemma AwayFromZero(k: int, d: int)
    requires k != 0 && d > 0
    ensures k * d >= d || k * d <= -d
  {
    if k > 0 {
      assert k * d == d + (k - 1) * d && (k - 1) * d >= 0;
    } else {
      assert k * d == -d - (-k - 1) * d && (-k - 1) * d >= 0;
    }
  }

  /** Rounding to the nearest integer, halves away from zero. */
  function Round(x: real): int {
    if x >= 0.0 then (x + 0.5).Floor else -((0.5 - x).Floor)
  }

  function Abs(x: real): real {
    if x < 0.0 then -x else x
  }

  /** `double_value_is_acceptable`. */
  predicate RealAcceptable(v: real, range: RealRange) {
    && range.from <= range.to && range.from - EPSILON <= v <= range.to + EPSILON
    && (range.step > 0.0 ==>
          Abs((v - range.from) / range.step - Round((v - range.from) / range.step) as real) <= EPSILON)
  }

  /** `validate_value_against_descriptor`: one matching range is enough. */
  predicate MeetsRanges(v: Value, d: Descriptor) {
    match v
    case IntegerValue(i) => d.integers == [] || exists k :: 0 <= k < |d.integers| && IntegerAcceptable(i, d.integers[k])
    case DoubleValue(x) => d.reals == [] || exists k :: 0 <= k < |d.reals| && RealAcceptable(x, d.reals[k])
    case _ => true
  }

  /** `validate_descriptor`. */
  predicate DescriptorOk(d: Descriptor, default: Value) {
    && (forall k :: 0 <= k < |d.integers| ==> d.integers[k].from <= d.integers[k].to)
    && (forall k :: 0 <= k < |d.reals| ==> d.reals[k].from <= d.reals[k].to && d.reals[k].step >= 0.0)
    && (d.dynamicTyping || default != NotSet)
  }

  // ---------------------------------------------------------------- names

  predicate TokenStart(c: char) {
    'a' <= c <= 'z' || 'A' <= c <= 'Z' || c == '_'
  }

  predicate TokenChar(c: char) {
    TokenStart(c) || '0' <= c <= '9'
  }

  predicate IsToken(s: string) {
    s != "" && TokenStart(s[0]) && forall k :: 0 <= k < |s| ==> TokenChar(s[k])
  }

  /** The grammar of parameter names: tokens separated by single dots. */
  predicate IsName(s: string) {
    IsToken(s) || exists i :: 0 <= i < |s| && s[i] == '.' && IsToken(s[..i]) && IsName(s[i + 1..])
  }

  // ---------------------------------------------------------------- operations

  /** `validate_assignment_locked`. */
  function AssignmentError(m: map<Name, Stored>, p: Parameter, allowUndeclared: bool): Option<ErrorCode> {
    if p.name !in m then if allowUndeclared then None else Some(NotFound)
    else if m[p.name].descriptor.readOnly then Some(InvalidState)
    else if !m[p.name].descriptor.dynamicTyping && m[p.name].value != NotSet
      && TypeOf(m[p.name].value) != TypeOf(p.value) then
      Some(InvalidArgument)
    else if !MeetsRanges(p.value, m[p.name].descriptor) then Some(InvalidArgument)
    else None
  }

  /** One assignment, journalled. */
  function Assigned(s: State, p: Parameter): State {
    if p.name !in s.parameters then
      s.(parameters := s.parameters[p.name := Stored(p.value, Descriptor(false, false, [], []))],
         journal := s.journal.(created := s.journal.created + [p]))
    else if s.parameters[p.name].value == p.value then s
    else
      s.(parameters := s.parameters[p.name := s.parameters[p.name].(value := p.value)],
         journal := s.journal.(changed := s.journal.changed + [p]))
  }

  function AssignedAll(s: State, ps: seq<Parameter>): State {
    if ps == [] then s else Assigned(AssignedAll(s, ps[..|ps| - 1]), ps[|ps| - 1])
  }

  function Names(ps: seq<Parameter>): (r: seq<Name>)
    ensures |r| == |ps| && forall k :: 0 <= k < |ps| ==> r[k] == ps[k].name
  {
    seq(|ps|, k requires 0 <= k < |ps| => ps[k].name)
  }

  /** The whole batch is admissible against the state before it. */
  ghost predicate BatchOk(s: State, ps: seq<Parameter>, allowUndeclared: bool) {
    && (forall k :: 0 <= k < |ps| ==> IsName(ps[k].name))
    && Distinct(Names(ps))
    && (forall k :: 0 <= k < |ps| ==> AssignmentError(s.parameters, ps[k], allowUndeclared) == None)
  }

  /** The value `declare` stores: an override wins over the default. */
  function Effective(default: Value, overriding: Option<Value>, ignoreOverride: bool): Value {
    if !ignoreOverride && overriding.Some? then overriding.value else default
  }

  /** `declare` after the name check. */
  function DeclareError(s: State, name: Name, default: Value, d: Descriptor, v: Value): Option<ErrorCode> {
    if !DescriptorOk(d, default) then Some(InvalidArgument)
    else if name in s.parameters then Some(AlreadyExists)
    else if !d.dynamicTyping && v != NotSet && default != NotSet && TypeOf(v) != TypeOf(default) then
      Some(InvalidArgument)
    else if !MeetsRanges(v, d) then Some(InvalidArgument)
    else None
  }

  function Declared(s: State, name: Name, v: Value, d: Descriptor): State {
    s.(parameters := s.parameters[name := Stored(v, d)],
       journal := s.journal.(created := s.journal.created + [Parameter(name, v)]))
  }

  function Undeclared(s: State, name: Name): State
    requires name in s.parameters
  {
    s.(parameters := s.parameters - {name}, undeclared := s.undeclared + {name},
       journal := s.journal.(deleted := s.journal.deleted + [Parameter(name, s.parameters[name].value)]))
  }

  function Values(m: map<Name, Stored>): map<Name, Value> {
    map n | n in m :: m[n].value
  }

  function Taken(s: State): State {
    s.(journal := Journal([], [], []), base := Values(s.parameters), undeclared := {})
  }

  datatype Event =
    | Declare(name: Name, default: Value, descriptor: Descriptor, overriding: Option<Value>, ignoreOverride: bool)
    | Undeclare(name: Name)
    | SetAtomically(batch: seq<Parameter>)
    | Take

  ghost function Apply(s: State, e: Event, allowUndeclared: bool): State {
    match e
    case Declare(name, default, d, o, ignore) =>
      var v := Effective(default, o, ignore);
      if !IsName(name) || DeclareError(s, name, default, d, v).Some? then s else Declared(s, name, v, d)
    case Undeclare(name) => if !IsName(name) || name !in s.parameters then s else Undeclared(s, name)
    case SetAtomically(batch) => if BatchOk(s, batch, allowUndeclared) then AssignedAll(s, batch) else s
    case Take => Taken(s)
  }

  ghost predicate IsRun(states: seq<State>, events: seq<Event>, allowUndeclared: bool) {
    && |states| == |events| + 1
    && states[0] == Initial()
    && (forall k {:trigger events[k]} :: 0 <= k < |events| ==>
          states[k + 1] == Apply(states[k], events[k], allowUndeclared))
  }
}
