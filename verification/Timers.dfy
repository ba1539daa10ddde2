/** Timer scheduling in saturating 64-bit arithmetic. */
module Timers {
  import opened Common

  newtype int64 = x: int | -0x8000_0000_0000_0000 <= x <= 0x7FFF_FFFF_FFFF_FFFF

  const MAX: int64 := 0x7FFF_FFFF_FFFF_FFFF
  const MIN: int64 := -0x8000_0000_0000_0000

  function Clamp(x: int): int64 {
    if x > MAX as int then MAX else if x < MIN as int then MIN else x as int64
  }

  /** The three operations compute the exact result, cut off at the ends of the range; that
      their own steps stay within 64 bits is checked by the type. */
  function SaturatingAdd(a: int64, b: int64): (r: int64)
    ensures r == Clamp(a as int + b as int)
  {
    if b > 0 && a > MAX - b then MAX
    else if b < 0 && a < MIN - b then MIN
    else a + b
  }

  function SaturatingSub(a: int64, b: int64): (r: int64)
    ensures r == Clamp(a as int - b as int)
  {
    if b > 0 && a < MIN + b then MIN
    else if b < 0 && a > MAX + b then MAX
    else a - b
  }

  function SaturatingMul(a: int64, b: int64): (r: int64)
    requires a >= 0 && b >= 0
    ensures r == Clamp(a as int * b as int)
  {
    if a == 0 || b == 0 then 0
    else if a > MAX / b then
      QuotientBound(a as int, b as int, MAX as int);
      MAX
    else
      ProductFits(a as int, b as int, MAX as int);
      a * b
  }

  lemma QuotientBound(a: int, b: int, m: int)
    requires b > 0 && a > m / b && m >= 0
    ensures a * b > m
  {
    assert m == (m / b) * b + m % b;
    Monotone(m / b + 1, a, b);
    assert (m / b + 1) * b == (m / b) * b + b;
  }

  lemma ProductFits(a: int, b: int, m: int)
    requires b > 0 && 0 <= a <= m / b && m >= 0
    ensures 0 <= a * b <= m
  {
    assert m == (m / b) * b + m % b;
    Monotone(a, m / b, b);
    Monotone(0, a, b);
  }

  lemma Monotone(a: int, b: int, c: int)
    requires a <= b && c >= 0
    ensures a * c <= b * c
  {
    assert (b - a) * c >= 0;
    assert (b - a) * c == b * c - a * c;
  }

  /** Division of non-negative numbers stays in range. */
  function Quotient(a: int64, b: int64): (r: int64)
    requires a >= 0 && b > 0
    ensures r as int == a as int / b as int && 0 <= r <= a
  {
    QuotientIsSmaller(a as int, b as int);
    (a as int / b as int) as int64
  }

  lemma QuotientIsSmaller(a: int, b: int)
    requires a >= 0 && b > 0
    ensures 0 <= a / b <= a
  {
    var q := a / b;
    assert a == q * b + a % b;
    if q >= 0 {
      Monotone(1, b, q);
    }
  }

  /** `next_period_grid_point`. */
  function NextGridPoint(expected: int64, period: int64, now: int64): int64
    requires period > 0
  {
    var next := SaturatingAdd(expected, period);
    if next > now then next
    else
      var behind := SaturatingSub(now, next);
      var missed := SaturatingAdd(1, Quotient(behind, period));
      var later := SaturatingAdd(next, SaturatingMul(missed, period));
      if later > now then later else now
  }

  /** The first point of the grid through `expected` that lies after `now`. */
  function GridPoint(expected: int, period: int, now: int): int
    requires period > 0
  {
    expected + ((now - expected) / period + 1) * period
  }

  /** Which is what its name says: on the grid, after `now`, with none between. */
  lemma GridPointIsNext(expected: int, period: int, now: int)
    requires period > 0
    ensures now < GridPoint(expected, period, now) <= now + period
    ensures exists k: int :: GridPoint(expected, period, now) == expected + k * period
  {
    var q := (now - expected) / period;
    assert now - expected == q * period + (now - expected) % period;
    assert (q + 1) * period == q * period + period;
    assert GridPoint(expected, period, now) == expected + (q + 1) * period;
  }

  lemma QuotientStep(x: int, period: int)
    requires period > 0
    ensures (x + period) / period == x / period + 1
  {
    var q, r := x / period, x % period;
    assert x + period == (q + 1) * period + r;
    Unique(x + period, period, q + 1, r);
  }

  lemma Unique(x: int, d: int, q: int, r: int)
    requires d > 0 && 0 <= r < d && x == q * d + r
    ensures x / d == q
  {
    var k := x / d - q;
    assert x == (x / d) * d + x % d;
    assert k * d == (x / d) * d - q * d;
    if k > 0 {
      Monotone(1, k, d);
    } else if k < 0 {
      Monotone(k, -1, d);
    }
  }

  /** The number of missed cycles. */
  lemma MissedCycles(e: int, p: int, n: int, q: int)
    requires p > 0 && e + p <= n && q == (n - e) / p
    ensures (n - (e + p)) / p + 1 == q
    ensures 0 <= (n - (e + p)) / p && n - (e + p) < q * p <= n - e
    ensures GridPoint(e, p, n) == e + p + q * p
  {
    QuotientStep(n - e - p, p);
    assert n - e == q * p + (n - e) % p;
    assert (q + 1) * p == q * p + p;
    Unique(n - e - p, p, q - 1, (n - e) % p);
    QuotientIsSmaller(n - e - p, p);
  }

  /** Less than the whole range behind: the skip is exact, or as long as the range. */
  lemma NearSkip(expected: int64, period: int64, now: int64)
    requires period > 0 && 0 <= now as int - (expected as int + period as int) < MAX as int
    ensures var e, p := expected as int, period as int;
      var skipped := GridPoint(e, p, now as int) - (e + p);
      && skipped > now as int - (e + p)
      && NextGridPoint(expected, period, now) == Clamp(e + p + if skipped <= MAX as int then skipped else MAX as int)
  {
    var e, p, n := expected as int, period as int, now as int;
    var q := (n - e) / p;
    MissedCycles(e, p, n, q);
    hide GridPoint;
    var next := SaturatingAdd(expected, period);
    assert next as int == e + p;
    var behind := SaturatingSub(now, next);
    assert behind as int == n - (e + p);
    QuotientIsSmaller(n - (e + p), p);
    var missed := SaturatingAdd(1, Quotient(behind, period));
    assert missed as int == q;
    var skipped := SaturatingMul(missed, period);
    assert skipped == Clamp(q * p);
    hide SaturatingMul, SaturatingSub;
    assert SaturatingAdd(next, skipped) == Clamp(e + p + skipped as int);
  }

  /** As far behind as the range is long, or further: the skip falls short and the result is the
      reading itself. */
  lemma FarSkip(expected: int64, period: int64, now: int64)
    requires period > 0 && now as int - (expected as int + period as int) >= MAX as int
    ensures NextGridPoint(expected, period, now) == now
  {
    var next := SaturatingAdd(expected, period);
    var behind := SaturatingSub(now, next);
    var missed := SaturatingAdd(1, Quotient(behind, period));
    var skipped := SaturatingMul(missed, period);
    hide SaturatingMul, SaturatingSub, Quotient;
    var later := SaturatingAdd(next, skipped);
    assert later <= now;
  }

  /** The time skipped after the first period fits in 64 bits; or cutting it off makes no
      difference, because it is added to a time that is not negative or the clock has ended. */
  predicate SkipFits(expected: int64, period: int64, now: int64)
    requires period > 0
  {
    var e, p := expected as int, period as int;
    GridPoint(e, p, now as int) - (e + p) <= MAX as int || e + p >= 0 || now == MAX
  }

  /** Missed cycles are skipped in one step: for a call that is due the result is the next grid
      point, cut off at the end of time, exactly when the skipped time fits. */
  lemma NextIsTheGridPoint(expected: int64, period: int64, now: int64)
    requires period > 0 && expected <= now
    ensures NextGridPoint(expected, period, now) == Clamp(GridPoint(expected as int, period as int, now as int))
      <==> SkipFits(expected, period, now)
  {
    var e, p, n := expected as int, period as int, now as int;
    GridPointIsNext(e, p, n);
    if e + p > n {
      Unique(n - e, p, 0, n - e);
      assert GridPoint(e, p, n) == e + p;
      hide SaturatingMul, SaturatingSub, GridPoint;
    } else if n - (e + p) < MAX as int {
      NearSkip(expected, period, now);
      hide NextGridPoint, GridPoint;
    } else {
      FarSkip(expected, period, now);
      MissedCycles(e, p, n, (n - e) / p);
      hide NextGridPoint, GridPoint;
    }
  }

  /** It always fits for call points that are not negative, and for calls that are not overdue
      by more than the range. */
  lemma OrdinarySkipsFit(expected: int64, period: int64, now: int64)
    requires period > 0 && expected <= now && (expected >= 0 || now as int - expected as int <= MAX as int)
    ensures SkipFits(expected, period, now)
  {
    GridPointIsNext(expected as int, period as int, now as int);
    hide GridPoint;
  }

  // -------------------------------------------------------------------- the timer

  datatype State = State(period: int64, last: int64, next: int64, canceled: bool)

  datatype Call = Call(expected: int64, actual: int64, elapsed: int64)

  predicate Due(s: State, now: int64) {
    !s.canceled && now >= s.next
  }

  /** `consume`. */
  function Consumed(s: State, now: int64): State {
    if !Due(s, now) then s
    else s.(last := now, next := if s.period > 0 then NextGridPoint(s.next, s.period, now) else now)
  }

  function ConsumeAll(s: State, times: seq<int64>): State {
    if times == [] then s else Consumed(ConsumeAll(s, times[..|times| - 1]), times[|times| - 1])
  }

  /** With a positive period a call that was consumed is due again at the same reading exactly
      when the clock is at its maximum or the call was overdue by the whole range. */
  lemma NeverTwiceAtOneReading(s: State, now: int64)
    requires Due(s, now) && s.period > 0
    ensures Due(Consumed(s, now), now) <==>
      now == MAX || now as int - s.next as int - s.period as int >= MAX as int
  {
    var e, p, n := s.next as int, s.period as int, now as int;
    if e + p > n {
      hide SaturatingMul, SaturatingSub;
    } else if n - (e + p) < MAX as int {
      NearSkip(s.next, s.period, now);
      hide NextGridPoint, GridPoint;
    } else {
      FarSkip(s.next, s.period, now);
      hide NextGridPoint;
    }
  }

  /** `x` lies on the grid of step `period` through `start`. */
  ghost predicate OnGrid(x: int, start: int, period: int) {
    exists k: int :: x == start + k * period
  }

  lemma GridIsTransitive(a: int, b: int, c: int, period: int)
    requires OnGrid(b, a, period) && OnGrid(c, b, period)
    ensures OnGrid(c, a, period)
  {
    var j: int :| b == a + j * period;
    var k: int :| c == b + k * period;
    assert (j + k) * period == j * period + k * period;
    assert c == a + (j + k) * period;
  }

  /** Every call of the run that is due skips a time that fits. */
  predicate SkipsFit(s: State, times: seq<int64>)
    requires s.period > 0
  {
    times == [] ||
    (SkipsFit(s, times[..|times| - 1]) &&
     var m, now := ConsumeAll(s, times[..|times| - 1]), times[|times| - 1];
     Due(m, now) && m.period > 0 ==> SkipFits(m.next, m.period, now))
  }

  /** Over any run of consumes at any readings, without reset or change of period, the schedule
      never goes back.  As long as the skipped times fit it stays on the grid of its first call
      point until it reaches the end of time. */
  lemma {:induction false} TheScheduleNeverDrifts(s: State, times: seq<int64>)
    requires s.period > 0
    ensures var t := ConsumeAll(s, times);
      && t.period == s.period && t.canceled == s.canceled && t.next >= s.next
      && (SkipsFit(s, times) ==> t.next == MAX || OnGrid(t.next as int, s.next as int, s.period as int))
  {
    if times == [] {
      assert s.next as int == s.next as int + 0 * (s.period as int);
    } else {
      var front, now := times[..|times| - 1], times[|times| - 1];
      TheScheduleNeverDrifts(s, front);
      var m := ConsumeAll(s, front);
      ConsumeStaysOnGrid(m, now);
      hide SkipFits, Consumed;
      if m.next != MAX && Consumed(m, now).next != MAX && SkipsFit(s, times) {
        GridIsTransitive(s.next as int, m.next as int, Consumed(m, now).next as int, s.period as int);
      }
    }
  }

  /** Apart from the clock maximum and an overdue time of the whole 64-bit range, a timer
      consumed at a reading is not due at that reading again, whatever readings follow. */
  lemma {:induction false} NeverAgainAtThatReading(s: State, now: int64, times: seq<int64>)
    requires Due(s, now) && s.period > 0
    requires now != MAX && now as int - s.next as int - s.period as int < MAX as int
    ensures !Due(ConsumeAll(Consumed(s, now), times), now)
  {
    NeverTwiceAtOneReading(s, now);
    TheScheduleNeverDrifts(Consumed(s, now), times);
    hide SkipsFit;
  }

  lemma ConsumeStaysOnGrid(s: State, now: int64)
    requires s.period > 0
    ensures var t := Consumed(s, now);
      && t.next >= s.next && t.period == s.period && t.canceled == s.canceled && (s.next == MAX ==> t.next == MAX)
      && ((Due(s, now) ==> SkipFits(s.next, s.period, now)) ==>
            t.next == MAX || OnGrid(t.next as int, s.next as int, s.period as int))
  {
    if Due(s, now) {
      NextIsTheGridPoint(s.next, s.period, now);
      GridPointIsNext(s.next as int, s.period as int, now as int);
      NeverEarlier(s.next, s.period, now);
      hide NextGridPoint, GridPoint, SkipFits;
    } else {
      assert s.next as int == s.next as int + 0 * (s.period as int);
    }
  }

  lemma NeverEarlier(expected: int64, period: int64, now: int64)
    requires period > 0 && expected <= now
    ensures NextGridPoint(expected, period, now) >= expected
  {
    hide SaturatingMul, SaturatingSub, Quotient;
  }

  /** For a schedule that starts no earlier than zero the skipped times always fit. */
  lemma {:induction false} NoDriftFromZero(s: State, times: seq<int64>)
    requires s.period > 0 && s.next >= 0
    ensures SkipsFit(s, times)
  {
    if times != [] {
      var front, now := times[..|times| - 1], times[|times| - 1];
      NoDriftFromZero(s, front);
      TheScheduleNeverDrifts(s, front);
      var m := ConsumeAll(s, front);
      if Due(m, now) {
        OrdinarySkipsFit(m.next, m.period, now);
      }
    }
  }

  /** A skip that does not fit does leave the grid, and one that is longer still fires twice. */
  lemma LongSkipsLeaveTheGrid() returns (s: State, now: int64, t: State, later: int64)
    ensures s.period > 0 && Due(s, now) && !SkipFits(s.next, s.period, now) && !Due(Consumed(s, now), now)
    ensures !OnGrid(Consumed(s, now).next as int, s.next as int, s.period as int) && Consumed(s, now).next != MAX
    ensures t.period > 0 && Due(t, later) && later != MAX && Due(Consumed(t, later), later)
  {
    s, now := State(4, 0, -0x7000_0000_0000_0004, false), 0x0FFF_FFFF_FFFF_FFFE;
    NearSkip(s.next, s.period, now);
    NeverTwiceAtOneReading(s, now);
    assert GridPoint(s.next as int, 4, now as int) == 0x1000_0000_0000_0000;
    hide NextGridPoint;
    assert Consumed(s, now).next == 0x0FFF_FFFF_FFFF_FFFF;
    t, later := State(1, 0, -0x7000_0000_0000_0000, false), 0x7000_0000_0000_0000;
    NeverTwiceAtOneReading(t, later);
  }

  class TimerState {
    var period: int64
    var last: int64
    var next: int64
    var canceled: bool

    ghost function Value(): State
      reads this
    {
      State(period, last, next, canceled)
    }

    constructor (period: int64, autostart: bool, now: int64)
      ensures Value() == State(period, now, SaturatingAdd(now, period), !autostart)
    {
      this.period, canceled, last, next := period, !autostart, now, SaturatingAdd(now, period);
    }

    /** `consume`: the call is reported with the time it was expected at. */
    method Consume(now: int64) returns (call: Option<Call>)
      modifies this
      ensures Value() == Consumed(old(Value()), now)
      ensures call.Some? <==> Due(old(Value()), now)
      ensures call.Some? ==> call.value.expected == old(next) && call.value.actual == now
                             && call.value.elapsed == Clamp(now as int - old(last) as int)
    {
      if canceled || now < next {
        return None;
      }
      var expected := next;
      var elapsed := SaturatingSub(now, last);
      last := now;
      next := if period > 0 then NextGridPoint(expected, period, now) else now;
      call := Some(Call(expected, now, elapsed));
    }

    method Reset(now: int64)
      modifies this
      ensures Value() == old(Value()).(canceled := false, last := now, next := Clamp(now as int + period as int))
    {
      canceled := false;
      last := now;
      next := SaturatingAdd(now, period);
    }

    method Cancel()
      modifies this`canceled
      ensures canceled
    {
      canceled := true;
    }

    /** `exchange_period`: the next call point stays, the new period starts after it. */
    method ExchangePeriod(newPeriod: int64) returns (r: Result<int64>)
      modifies this`period
      ensures newPeriod < 0 ==> r == Failure(InvalidArgument) && period == old(period)
      ensures newPeriod >= 0 ==> r == Success(old(period)) && period == newPeriod
    {
      if newPeriod < 0 {
        return Failure(InvalidArgument);
      }
      r := Success(period);
      period := newPeriod;
    }

    /** `time_until_next_call` is zero exactly when the timer is ready. */
    method TimeUntilNextCall(now: int64) returns (r: Result<int64>)
      ensures r.Failure? <==> canceled
      ensures r.Success? ==> r.value >= 0 && (r.value == 0 <==> Due(Value(), now))
      ensures r.Success? && !Due(Value(), now) ==> r.value == Clamp(next as int - now as int)
    {
      if canceled {
        return Failure(InvalidState);
      }
      var remaining := SaturatingSub(next, now);
      r := Success(if remaining > 0 then remaining else 0);
    }
  }
}
