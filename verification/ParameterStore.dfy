/** `ParameterStoreState` updated in place, and the text functions beside it. */
module ParameterStore {
  import opened Common
  import opened ParameterModel
  import opened ParameterRuns

  // --------------------------------------------------------------------- names

  /** The first `n` characters form a token, possibly an unfinished one. */
  predicate Begins(t: string, n: nat)
    requires n <= |t|
  {
    forall k :: 0 <= k < n ==> t[k] != '.' && if k == 0 then TokenStart(t[k]) else TokenChar(t[k])
  }

  lemma WrongCharacter(t: string, n: nat)
    requires n < |t| && Begins(t, n) && t[n] != '.'
    requires if n == 0 then !TokenStart(t[n]) else !TokenChar(t[n])
    ensures !IsName(t)
  {
    forall i | 0 <= i < |t| && t[i] == '.' ensures !IsToken(t[..i]) {
      assert n < i && t[..i][n] == t[n] && t[..i][0] == t[0];
    }
  }

  lemma EmptyToken(t: string)
    requires t == "" || t[0] == '.'
    ensures !IsName(t)
  {
    forall i | 0 <= i < |t| && t[i] == '.' ensures !IsToken(t[..i]) {
      assert i > 0 ==> t[..i][0] == t[0];
    }
  }

  /** A dot after a complete token: the rest must be a name of its own. */
  lemma TokenEnds(t: string, n: nat)
    requires 0 < n <= |t| && Begins(t, n) && (n == |t| || t[n] == '.')
    ensures if n == |t| then IsName(t) else IsName(t) <==> IsName(t[n + 1..])
  {
    if n < |t| {
      assert IsToken(t[..n]);
      assert !IsToken(t);
      forall i | n < i < |t| ensures !IsToken(t[..i]) {
        assert t[..i][n] == '.';
      }
    }
  }

  lemma {:induction false} NamesEndInTokens(t: string)
    requires IsName(t)
    ensures t != "" && t[|t| - 1] != '.'
  {
    if !IsToken(t) {
      var i :| 0 <= i < |t| && t[i] == '.' && IsToken(t[..i]) && IsName(t[i + 1..]);
      NamesEndInTokens(t[i + 1..]);
    }
  }

  /** `validate_parameter_name` accepts exactly the names of the grammar. */
  method ValidateName(name: string) returns (error: Option<ErrorCode>)
    ensures error == if IsName(name) then None else Some(InvalidName)
  {
    hide IsName, IsToken;
    if name == "" {
      EmptyToken(name);
      return Some(InvalidName);
    }
    if name[0] == '.' || name[|name| - 1] == '.' {
      if IsName(name) {
        NamesEndInTokens(name);
        EmptyToken(name);
      }
      return Some(InvalidName);
    }
    var start, k := 0, 0;
    assert name[0..] == name;
    while k <= |name|
      invariant 0 <= start <= k <= |name| + 1
      invariant k <= |name| ==> Begins(name[start..], k - start) && (IsName(name) <==> IsName(name[start..]))
      invariant k == |name| + 1 ==> IsName(name)
    {
      if k != |name| && name[k] != '.' {
        if k == start {
          if !TokenStart(name[k]) {
            WrongCharacter(name[start..], 0);
            return Some(InvalidName);
          }
        } else if !TokenChar(name[k]) {
          WrongCharacter(name[start..], k - start);
          return Some(InvalidName);
        }
        assert name[start..][k - start] == name[k];
        k := k + 1;
        continue;
      }
      if k == start {
        EmptyToken(name[start..]);
        return Some(InvalidName);
      }
      TokenEnds(name[start..], k - start);
      if k < |name| {
        assert name[start..][k - start + 1..] == name[k + 1..];
      }
      start := k + 1;
      k := k + 1;
    }
    error := None;
  }

  // ------------------------------------------------------------------- integers

  predicate IsDigit(c: char) {
    '0' <= c <= '9'
  }

  ghost predicate AllDigits(s: string) {
    forall k :: 0 <= k < |s| ==> IsDigit(s[k])
  }

  /** The number a string of digits denotes. */
  function Decimal(s: string): nat
    requires AllDigits(s)
  {
    if s == "" then 0 else Decimal(s[..|s| - 1]) * 10 + (s[|s| - 1] - '0') as nat
  }

  predicate IsSign(c: char) {
    c == '-' || c == '+'
  }

  function Digits(text: string): string {
    if text != "" && IsSign(text[0]) then text[1..] else text
  }

  /** The text is a decimal integer: an optional sign and at least one digit. */
  ghost predicate IsInteger(text: string) {
    Digits(text) != "" && AllDigits(Digits(text))
  }

  function Denoted(text: string): int
    requires IsInteger(text)
  {
    if text[0] == '-' then 0 - Decimal(Digits(text)) else Decimal(Digits(text))
  }

  /** More digits never make the number smaller. */
  lemma {:induction false} DecimalGrows(s: string, n: nat)
    requires AllDigits(s) && n <= |s|
    ensures AllDigits(s[..n]) && Decimal(s[..n]) <= Decimal(s)
  {
    if n < |s| {
      DecimalGrows(s[..|s| - 1], n);
      assert s[..|s| - 1][..n] == s[..n];
    } else {
      assert s[..n] == s;
    }
  }

  lemma OneMoreDigit(s: string, n: nat)
    requires n < |s| && AllDigits(s[..n]) && IsDigit(s[n])
    ensures AllDigits(s[..n + 1]) && Decimal(s[..n + 1]) == Decimal(s[..n]) * 10 + (s[n] - '0') as nat
  {
    assert s[..n + 1][..n] == s[..n];
    assert forall k :: 0 <= k < n ==> s[..n + 1][k] == s[..n][k];
  }

  /** A prefix beyond the largest magnitude rules the text out. */
  lemma TooLong(text: string, n: nat)
    requires n <= |Digits(text)| && AllDigits(Digits(text)[..n]) && Decimal(Digits(text)[..n]) > MAX_INT64 + 1
    ensures IsInteger(text) ==> !(MIN_INT64 <= Denoted(text) <= MAX_INT64)
  {
    if IsInteger(text) {
      DecimalGrows(Digits(text), n);
    }
  }

  /** `parses_as_integer` accepts exactly the decimal integers that fit 64 signed bits; its
      unsigned accumulator never exceeds the largest magnitude. */
  method ParsesAsInteger(text: string) returns (r: Option<int64>)
    ensures r.Some? <==> IsInteger(text) && MIN_INT64 <= Denoted(text) <= MAX_INT64
    ensures r.Some? ==> r.value == Denoted(text)
  {
    if text == "" {
      return None;
    }
    var negative := text[0] == '-';
    var first := if IsSign(text[0]) then 1 else 0;
    ghost var digits := Digits(text);
    assert digits == text[first..] && |digits| == |text| - first;
    if first == |text| {
      return None;
    }
    var index := first;
    var magnitude: int := 0;
    var cap := MAX_INT64 + 1;
    while index < |text|
      invariant first <= index <= |text| && 0 <= magnitude <= cap
      invariant AllDigits(digits[..index - first]) && magnitude == Decimal(digits[..index - first])
    {
      hide AllDigits, Decimal, IsInteger, Denoted;
      var digit := text[index];
      assert digits[index - first] == digit;
      if digit < '0' || digit > '9' {
        NotADigit(text, index - first);
        return None;
      }
      var unit := (digit - '0') as int;
      OneMoreDigit(digits, index - first);
      if magnitude > (cap - unit) / 10 {
        TooLong(text, index - first + 1);
        return None;
      }
      magnitude := magnitude * 10 + unit;
      index := index + 1;
    }
    assert digits[..index - first] == digits;
    if !negative {
      return if magnitude > MAX_INT64 then None else Some(magnitude as int64);
    }
    if magnitude == cap {
      return Some(MIN_INT64);
    }
    r := Some((0 - magnitude) as int64);
  }

  lemma NotADigit(text: string, n: nat)
    requires n < |Digits(text)| && !IsDigit(Digits(text)[n])
    ensures !IsInteger(text)
  {
  }

  // ------------------------------------------------------------------- listing

  function CountTokens(name: string): nat {
    if name == "" then 1 else CountTokens(name[..|name| - 1]) + (if name[|name| - 1] == '.' then 1 else 0)
  }

  /** `truncate_to_depth`: the part of the name before its `tokens`-th dot. */
  function Truncated(name: string, tokens: nat): string {
    if CountTokens(name) <= tokens || name == "" then name else Truncated(name[..|name| - 1], tokens)
  }

  /** A truncated name is the longest prefix with that many tokens, cut before a dot. */
  lemma {:induction false} TruncatedIsAPrefix(name: string, tokens: nat)
    requires 0 < tokens < CountTokens(name)
    ensures var t := Truncated(name, tokens);
      |t| < |name| && t == name[..|t|] && name[|t|] == '.' && CountTokens(t) == tokens
  {
    var front := name[..|name| - 1];
    if CountTokens(front) > tokens {
      TruncatedIsAPrefix(front, tokens);
      var t := Truncated(front, tokens);
      assert t == name[..|t|];
    } else {
      assert Truncated(name, tokens) == Truncated(front, tokens) == front;
    }
  }

  /** `truncate_to_depth` as a scan for the dot that ends the last kept token. */
  method TruncateToDepth(name: string, tokens: nat) returns (r: string)
    requires tokens > 0
    ensures r == Truncated(name, tokens)
  {
    var seen := 0;
    var index := 0;
    while index < |name|
      invariant 0 <= index <= |name| && seen + 1 == CountTokens(name[..index]) && seen < tokens
    {
      assert name[..index + 1][..index] == name[..index];
      if name[index] == '.' {
        seen := seen + 1;
        if seen == tokens {
          CutHere(name, index, tokens);
          return name[..index];
        }
      }
      index := index + 1;
    }
    assert name[..index] == name;
    r := name;
  }

  lemma {:induction false} CutHere(name: string, index: nat, tokens: nat)
    requires index < |name| && CountTokens(name[..index]) == tokens && CountTokens(name[..index + 1]) == tokens + 1
    ensures Truncated(name, tokens) == name[..index]
    ensures CountTokens(name) > tokens
  {
    var front := name[..|name| - 1];
    if index + 1 < |name| {
      assert front[..index] == name[..index] && front[..index + 1] == name[..index + 1];
      CutHere(front, index, tokens);
    } else {
      assert name[..index + 1] == name && front == name[..index];
      assert Truncated(front, tokens) == front;
    }
  }

  /** A listed name is one asked for: equal to a prefix, below it, or anything at all. */
  predicate Matches(name: string, prefixes: seq<string>) {
    prefixes == [] || exists k :: 0 <= k < |prefixes| && MatchesOne(name, prefixes[k])
  }

  predicate MatchesOne(name: string, prefix: string) {
    prefix == "" || name == prefix || (|name| > |prefix| && name[..|prefix|] == prefix && name[|prefix|] == '.')
  }

  /** Names are valid and occur once. */
  ghost predicate WellShaped(ps: seq<Parameter>) {
    (forall k :: 0 <= k < |ps| ==> IsName(ps[k].name)) && Distinct(Names(ps))
  }

  /** The error of the first entry whose name is invalid or repeats an earlier one. */
  ghost predicate ShapeFault(ps: seq<Parameter>, e: ErrorCode) {
    exists k :: 0 <= k < |ps| && WellShaped(ps[..k]) &&
      if !IsName(ps[k].name) then e == InvalidName else e == InvalidArgument && ps[k].name in Names(ps[..k])
  }

  /** The error of the first assignment that is not admissible. */
  ghost predicate AssignmentFault(m: map<Name, Stored>, ps: seq<Parameter>, allowUndeclared: bool, e: ErrorCode) {
    exists k :: 0 <= k < |ps| && AssignmentError(m, ps[k], allowUndeclared) == Some(e)
      && forall j :: 0 <= j < k ==> AssignmentError(m, ps[j], allowUndeclared) == None
  }

  /** So far every name was valid and none occurred twice. */
  lemma PrefixIsWellShaped(ps: seq<Parameter>, k: nat)
    requires k <= |ps| && (forall j :: 0 <= j < k ==> IsName(ps[j].name))
    requires forall i, j :: 0 <= i < j < k ==> ps[i].name != ps[j].name
    ensures WellShaped(ps[..k])
  {
    hide IsName;
    assert forall j :: 0 <= j < k ==> Names(ps[..k])[j] == ps[j].name;
  }

  class ParameterStoreState {
    const allowUndeclared: bool
    const overrides: seq<Parameter>
    var parameters: map<Name, Stored>
    var created: seq<Parameter>
    var changed: seq<Parameter>
    var deleted: seq<Parameter>
    ghost var base: map<Name, Value>
    ghost var undeclared: set<Name>

    ghost function Value(): State
      reads this
    {
      State(parameters, Journal(created, changed, deleted), base, undeclared)
    }

    constructor (allowUndeclared: bool, overrides: seq<Parameter>)
      ensures Value() == Initial() && this.allowUndeclared == allowUndeclared && this.overrides == overrides
    {
      this.allowUndeclared, this.overrides := allowUndeclared, overrides;
      parameters, created, changed, deleted, base, undeclared := map[], [], [], [], map[], {};
    }

    /** The first override under the name. */
    static function Override(overrides: seq<Parameter>, name: Name): Option<ParameterModel.Value> {
      if overrides == [] then None
      else if overrides[0].name == name then Some(overrides[0].value)
      else Override(overrides[1..], name)
    }

    method FindOverride(name: Name) returns (r: Option<ParameterModel.Value>)
      ensures r == Override(overrides, name)
    {
      var k := 0;
      while k < |overrides|
        invariant 0 <= k <= |overrides| && Override(overrides, name) == Override(overrides[k..], name)
      {
        if overrides[k].name == name {
          return Some(overrides[k].value);
        }
        assert overrides[k..][1..] == overrides[k + 1..];
        k := k + 1;
      }
      r := None;
    }

    static lemma DeclareSteps(s: State, name: Name, default: ParameterModel.Value, d: Descriptor,
                              overriding: Option<ParameterModel.Value>, ignoreOverride: bool, allowUndeclared: bool)
      ensures var v := Effective(default, overriding, ignoreOverride);
        Apply(s, Event.Declare(name, default, d, overriding, ignoreOverride), allowUndeclared)
          == if IsName(name) && DeclareError(s, name, default, d, v) == None then Declared(s, name, v, d) else s
    {
      hide IsName, DeclareError, Declared;
    }

    method Declare(name: Name, default: ParameterModel.Value, d: Descriptor, ignoreOverride: bool)
      returns (r: Result<Parameter>)
      modifies this
      ensures Value() == Apply(old(Value()),
        Event.Declare(name, default, d, Override(overrides, name), ignoreOverride), allowUndeclared)
      ensures var v := Effective(default, Override(overrides, name), ignoreOverride);
        r == if !IsName(name) then Failure(InvalidName)
             else match DeclareError(old(Value()), name, default, d, v)
                  case Some(e) => Failure(e)
                  case None => Success(Parameter(name, v))
    {
      hide IsName, MeetsRanges, DescriptorOk, TypeOf, Apply;
      DeclareSteps(Value(), name, default, d, Override(overrides, name), ignoreOverride, allowUndeclared);
      var invalid := ValidateName(name);
      if invalid.Some? {
        return Failure(invalid.value);
      }
      if !DescriptorOk(d, default) {
        return Failure(InvalidArgument);
      }
      if name in parameters {
        return Failure(AlreadyExists);
      }
      var effective := default;
      if !ignoreOverride {
        var found := FindOverride(name);
        if found.Some? {
          effective := found.value;
        }
      }
      if !d.dynamicTyping && effective != NotSet && default != NotSet && TypeOf(effective) != TypeOf(default) {
        return Failure(InvalidArgument);
      }
      if !MeetsRanges(effective, d) {
        return Failure(InvalidArgument);
      }
      parameters := parameters[name := Stored(effective, d)];
      created := created + [Parameter(name, effective)];
      r := Success(Parameter(name, effective));
    }

    method Undeclare(name: Name) returns (error: Option<ErrorCode>)
      modifies this
      ensures Value() == Apply(old(Value()), Event.Undeclare(name), allowUndeclared)
      ensures error == if !IsName(name) then Some(InvalidName)
        else if name !in old(parameters) then Some(NotFound) else None
    {
      hide IsName;
      error := ValidateName(name);
      if error.Some? {
        return;
      }
      if name !in parameters {
        return Some(NotFound);
      }
      deleted := deleted + [Parameter(name, parameters[name].value)];
      parameters := parameters - {name};
      undeclared := undeclared + {name};
    }

    /** `validate_name_and_duplicates`. */
    method ValidateShape(ps: seq<Parameter>) returns (error: Option<ErrorCode>)
      ensures error == None <==> WellShaped(ps)
      ensures error.Some? ==> ShapeFault(ps, error.value)
    {
      hide IsName;
      var seen: set<Name> := {};
      var k := 0;
      while k < |ps|
        invariant 0 <= k <= |ps| && (forall j :: 0 <= j < k ==> IsName(ps[j].name) && ps[j].name in seen)
        invariant forall n :: n in seen ==> exists j :: 0 <= j < k && ps[j].name == n
        invariant forall i, j :: 0 <= i < j < k ==> ps[i].name != ps[j].name
      {
        PrefixIsWellShaped(ps, k);
        error := ValidateName(ps[k].name);
        if error.Some? {
          return;
        }
        if ps[k].name in seen {
          ghost var j :| 0 <= j < k && ps[j].name == ps[k].name;
          assert Names(ps)[j] == Names(ps)[k] && Names(ps[..k])[j] == ps[k].name;
          return Some(InvalidArgument);
        }
        seen := seen + {ps[k].name};
        k := k + 1;
      }
      error := None;
    }

    /** `set_atomically`: everything is checked and prepared before the first change. */
    method SetAtomically(ps: seq<Parameter>) returns (r: Result<(seq<Parameter>, seq<Parameter>)>)
      modifies this
      ensures Value() == Apply(old(Value()), Event.SetAtomically(ps), allowUndeclared)
      ensures r.Success? <==> BatchOk(old(Value()), ps, allowUndeclared)
      ensures r.Failure? ==> if !WellShaped(ps) then ShapeFault(ps, r.error)
                             else AssignmentFault(old(parameters), ps, allowUndeclared, r.error)
      ensures r.Success? ==> created == old(created) + r.value.0 && changed == old(changed) + r.value.1
    {
      hide IsName, MeetsRanges;
      var shape := ValidateShape(ps);
      if shape.Some? {
        return Failure(shape.value);
      }
      ghost var s := Value();
      var k := 0;
      while k < |ps|
        invariant 0 <= k <= |ps| && Value() == s
        invariant forall j :: 0 <= j < k ==> AssignmentError(parameters, ps[j], allowUndeclared) == None
      {
        var error := AssignmentError(parameters, ps[k], allowUndeclared);
        if error.Some? {
          return Failure(error.value);
        }
        k := k + 1;
      }
      var candidate, added, different := Prepare(ps);
      parameters, created, changed := candidate, created + added, changed + different;
      r := Success((added, different));
    }

    /** The new table and the delta of a batch, computed on copies. */
    method Prepare(ps: seq<Parameter>)
      returns (candidate: map<Name, Stored>, added: seq<Parameter>, different: seq<Parameter>)
      ensures AssignedAll(Value(), ps)
        == Value().(parameters := candidate, journal := Journal(created + added, changed + different, deleted))
    {
      candidate, added, different := parameters, [], [];
      var k := 0;
      assert ps[..0] == [];
      while k < |ps|
        invariant 0 <= k <= |ps|
        invariant AssignedAll(Value(), ps[..k])
          == Value().(parameters := candidate, journal := Journal(created + added, changed + different, deleted))
      {
        var p := ps[k];
        assert ps[..k + 1][..k] == ps[..k];
        if p.name !in candidate {
          candidate := candidate[p.name := Stored(p.value, Descriptor(false, false, [], []))];
          assert (created + added) + [p] == created + (added + [p]);
          added := added + [p];
        } else if candidate[p.name].value != p.value {
          candidate := candidate[p.name := candidate[p.name].(value := p.value)];
          assert (changed + different) + [p] == changed + (different + [p]);
          different := different + [p];
        }
        k := k + 1;
      }
      assert ps[..k] == ps;
    }

    method TakeChanges() returns (r: Journal)
      modifies this
      ensures Value() == Apply(old(Value()), Take, allowUndeclared)
        && r == Journal(old(created), old(changed), old(deleted))
    {
      r := Journal(created, changed, deleted);
      created, changed, deleted := [], [], [];
      base, undeclared := Values(parameters), {};
    }

    /** `list`: names up to the depth are listed whole, deeper ones by their prefix. */
    method List(prefixes: seq<string>, depth: nat) returns (error: Option<ErrorCode>, names: set<Name>, cut: set<Name>)
      ensures error == if forall p :: p in prefixes && p != "" ==> IsName(p) then None else Some(InvalidName)
      ensures error.Some? ==> names == {} && cut == {}
      ensures error.None? ==> forall n :: n in names <==>
        n in parameters && Matches(n, prefixes) && (depth == 0 || CountTokens(n) <= depth)
      ensures error.None? ==> forall c :: c in cut <==>
        depth > 0 && exists n ::
          n in parameters && Matches(n, prefixes) && CountTokens(n) > depth && Truncated(n, depth) == c
    {
      hide IsName;
      names, cut, error := {}, {}, None;
      var k := 0;
      while k < |prefixes|
        invariant 0 <= k <= |prefixes| && error == None
        invariant forall j :: 0 <= j < k && prefixes[j] != "" ==> IsName(prefixes[j])
      {
        if prefixes[k] != "" {
          error := ValidateName(prefixes[k]);
          if error.Some? {
            return;
          }
        }
        k := k + 1;
      }
      var left := parameters.Keys;
      while left != {}
        invariant left <= parameters.Keys
        invariant forall n :: n in names <==>
          n in parameters && n !in left && Matches(n, prefixes) && (depth == 0 || CountTokens(n) <= depth)
        invariant forall c :: c in cut <==>
          depth > 0 && exists n ::
            && n in parameters && n !in left && Matches(n, prefixes)
            && CountTokens(n) > depth && Truncated(n, depth) == c
        decreases |left|
      {
        var n: Name :| n in left;
        left := left - {n};
        if Matches(n, prefixes) {
          if depth == 0 || CountTokens(n) <= depth {
            names := names + {n};
          } else {
            var prefix := TruncateToDepth(n, depth);
            cut := cut + {prefix};
          }
        }
      }
    }
  }
}
