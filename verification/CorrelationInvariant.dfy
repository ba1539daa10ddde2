/** What every step of the client, its executor, the sender and the network keeps. */
module CorrelationInvariant {
  import opened Common
  import opened CorrelationModel

  /** Every operation number below the counter has a future and, if admitted, a native job. */
  ghost predicate NumbersOk(s: State) {
    && (forall op :: op in s.futures ==> op < s.nextOperation)
    && (forall op :: op in s.native ==> op in s.futures)
    && (forall op :: op in s.operations ==> op in s.native)
    && (forall a, b ::
          a in s.native && b in s.native && SentAs(s.native[a]).Some? && SentAs(s.native[a]) == SentAs(s.native[b]) ==>
            a == b)
  }

  /** What the operation table says about one operation. */
  ghost predicate OperationsOk(s: State) {
    && (forall op :: op in s.native && !s.native[op].Drained? ==> op in s.operations)
    && (forall op :: op in s.operations ==>
          && op in s.native && (s.operations[op].reconciled <==> s.native[op].Drained?)
          && (!s.operations[op].reconciled ==> s.operations[op].requestId.None?)
          && (s.operations[op].reconciled ==>
                s.operations[op].requestId.Some? && s.native[op] == Drained(Sent(s.operations[op].requestId.value))))
    && (forall op :: op in s.unreconciled ==> op in s.operations && !s.operations[op].reconciled)
  }

  ghost predicate PendingOk(s: State) {
    forall r :: r in s.pending ==>
      && s.pending[r] in s.operations && s.operations[s.pending[r]] == Operation(Some(r), true)
      && s.pending[r] in s.futures && (s.futures[s.pending[r]] == Pending ==> r !in s.answered)
  }

  ghost predicate EarlyOk(s: State) {
    && (forall r :: r in s.early ==>
          s.early[r].candidates != {} && s.early[r].candidates <= s.unreconciled && r in s.answered)
    && |s.early| <= STAGING_LIMIT
  }

  /** The identity belongs to a request whose completion was drained. */
  ghost predicate IsSpent(s: State, r: Rid) {
    exists op :: op in s.native && s.native[op] == Drained(Sent(r))
  }

  /** Keys of an insertion-ordered table with non-decreasing expiries. */
  ghost predicate Ordered(stones: seq<Tombstone>) {
    forall i, j :: 0 <= i < j < |stones| ==> stones[i].rid != stones[j].rid && stones[i].expiry <= stones[j].expiry
  }

  /** Every entry is unexpired at `now` and was laid no later than `now`. */
  ghost predicate Fresh(stones: seq<Tombstone>, now: int) {
    forall k :: 0 <= k < |stones| ==> now < stones[k].expiry <= now + TOMBSTONE_SECONDS
  }

  ghost predicate NoneLater(stones: seq<Tombstone>, now: int) {
    forall k :: 0 <= k < |stones| ==> stones[k].expiry <= now + TOMBSTONE_SECONDS
  }

  ghost predicate StonesOk(s: State) {
    && |s.tombstones| <= TOMBSTONE_LIMIT && Ordered(s.tombstones) && NoneLater(s.tombstones, s.clock)
    && (forall k :: 0 <= k < |s.tombstones| ==>
          IsSpent(s, s.tombstones[k].rid) && s.tombstones[k].rid !in s.pending && s.tombstones[k].rid !in s.early)
  }

  ghost predicate KeysApart(s: State) {
    forall r :: r in s.pending ==> r !in s.early
  }

  /** A live request is findable: before its completion is drained its response waits in the
      early table, afterwards it is pending and unanswered. */
  ghost predicate LiveAt(s: State, op: Op) {
    (op in s.native && op in s.futures && s.futures[op] == Pending && !s.closing) ==>
      if s.native[op].Drained? then
        && s.native[op].completion.Sent?
        && s.native[op].completion.rid in s.pending && s.pending[s.native[op].completion.rid] == op
      else
        && op in s.unreconciled && s.native[op] != Finished(Skipped)
        && (SentAs(s.native[op]).Some? && SentAs(s.native[op]).value in s.answered ==>
              Staged(s, op, SentAs(s.native[op]).value))
  }

  /** The first response to `r` waits in the early table with `op` among its candidates. */
  ghost predicate Staged(s: State, op: Op, r: Rid)
    requires r in s.answered
  {
    r in s.early && s.early[r].response == s.answered[r] && op in s.early[r].candidates
  }

  ghost predicate LiveOk(s: State) {
    forall op :: op in s.native ==> LiveAt(s, op)
  }

  /** Whoever has a result has the first response delivered for its own request. */
  ghost predicate ResultsOk(s: State) {
    forall op :: op in s.futures && s.futures[op].Result? ==>
      && op in s.native && SentAs(s.native[op]).Some? && SentAs(s.native[op]).value in s.answered
      && s.futures[op].response == s.answered[SentAs(s.native[op]).value]
  }

  ghost predicate CancelsOk(s: State) {
    forall op :: op in s.cancels ==> op in s.futures && s.futures[op] != Pending
  }

  ghost predicate Tables(s: State) {
    NumbersOk(s) && OperationsOk(s) && PendingOk(s) && KeysApart(s)
  }

  ghost predicate Outcomes(s: State) {
    LiveOk(s) && ResultsOk(s) && CancelsOk(s)
  }

  ghost predicate Inv(s: State) {
    Tables(s) && EarlyOk(s) && StonesOk(s) && Outcomes(s)
  }

  // ------------------------------------------------------------- table lemmas

  lemma RetiredFacts(early: map<Rid, Early>, op: Op)
    ensures forall r :: r in Retired(early, op) <==> r in early && early[r].candidates != {op}
    ensures forall r :: r in Retired(early, op) ==>
      Retired(early, op)[r].response == early[r].response
        && Retired(early, op)[r].candidates == early[r].candidates - {op}
    ensures |Retired(early, op)| <= |early|
  {
    var t := Retired(early, op);
    assert t.Keys <= early.Keys;
    assert early.Keys == t.Keys + (early.Keys - t.Keys);
    assert |t.Keys| == |t| && |early.Keys| == |early|;
  }

  lemma PurgedFacts(stones: seq<Tombstone>, now: int)
    ensures exists n :: 0 <= n <= |stones| && Purged(stones, now) == stones[n..]
    ensures Purged(stones, now) != [] ==> Purged(stones, now)[0].expiry > now
  {
    if stones != [] && stones[0].expiry <= now {
      PurgedFacts(stones[1..], now);
      var n :| 0 <= n <= |stones[1..]| && Purged(stones[1..], now) == stones[1..][n..];
      assert stones[1..][n..] == stones[n + 1..];
    } else {
      assert stones == stones[0..];
    }
  }

  lemma TailFacts(stones: seq<Tombstone>, n: nat, now: int)
    requires Ordered(stones) && NoneLater(stones, now) && n <= |stones|
    requires stones[n..] != [] ==> stones[n..][0].expiry > now
    ensures var t := stones[n..]; Ordered(t) && Fresh(t, now) && (forall k :: 0 <= k < |t| ==> t[k] in stones)
  {
    var t := stones[n..];
    assert forall k :: 0 <= k < |t| ==> t[k] == stones[n + k];
    forall k | 0 <= k < |t| ensures now < t[k].expiry <= now + TOMBSTONE_SECONDS {
      assert stones[n].expiry <= stones[n + k].expiry;
    }
  }

  lemma PurgedIsFresh(stones: seq<Tombstone>, now: int)
    requires Ordered(stones) && NoneLater(stones, now)
    ensures var t := Purged(stones, now);
      Ordered(t) && |t| <= |stones| && Fresh(t, now) && (forall k :: 0 <= k < |t| ==> t[k] in stones)
  {
    hide Ordered, NoneLater, Fresh, Purged;
    PurgedFacts(stones, now);
    var n :| 0 <= n <= |stones| && Purged(stones, now) == stones[n..];
    TailFacts(stones, n, now);
  }

  lemma LaidFacts(kept: seq<Tombstone>, rid: Rid, now: int)
    requires Ordered(kept) && Fresh(kept, now) && Grave(kept, rid) == |kept|
    ensures var t := kept + [Tombstone(rid, now + TOMBSTONE_SECONDS)];
      Ordered(t) && Fresh(t, now) && t[|t| - 1].rid == rid
        && (forall k :: 0 <= k < |t| ==> t[k].rid == rid || t[k] in kept)
  {
    assert !Buried(kept, rid);
  }

  /** `_tombstone` leaves only unexpired entries, at most 4096 of them, the named identity
      among them, and no identity that was not there before. */
  lemma EntombedFacts(stones: seq<Tombstone>, rid: Rid, now: int)
    requires Ordered(stones) && |stones| <= TOMBSTONE_LIMIT && NoneLater(stones, now)
    ensures var t := Entombed(stones, rid, now);
      && Ordered(t) && |t| <= TOMBSTONE_LIMIT && Buried(t, rid) && Fresh(t, now)
      && (forall k :: 0 <= k < |t| ==> t[k].rid == rid || t[k] in stones)
  {
    hide Ordered, Fresh, NoneLater, Buried, Purged;
    PurgedIsFresh(stones, now);
    var kept := Purged(stones, now);
    if Grave(kept, rid) == |kept| {
      var room := if |kept| == TOMBSTONE_LIMIT then kept[1..] else kept;
      RoomFacts(kept, rid, now);
      LaidFacts(room, rid, now);
      LastIsBuried(Entombed(stones, rid, now), rid);
    }
  }

  lemma LastIsBuried(stones: seq<Tombstone>, rid: Rid)
    requires stones != [] && stones[|stones| - 1].rid == rid
    ensures Buried(stones, rid)
  {
  }

  lemma RoomFacts(kept: seq<Tombstone>, rid: Rid, now: int)
    requires Ordered(kept) && |kept| <= TOMBSTONE_LIMIT && Fresh(kept, now) && Grave(kept, rid) == |kept|
    ensures var room := if |kept| == TOMBSTONE_LIMIT then kept[1..] else kept;
      Ordered(room) && |room| < TOMBSTONE_LIMIT && Fresh(room, now) && Grave(room, rid) == |room|
      && (forall k :: 0 <= k < |room| ==> room[k] in kept)
  {
    if |kept| == TOMBSTONE_LIMIT {
      var room := kept[1..];
      assert forall k :: 0 <= k < |room| ==> room[k] == kept[k + 1];
      assert !Buried(kept, rid);
      assert !Buried(room, rid);
    }
  }

  lemma ForgottenFacts(stones: seq<Tombstone>, k: nat)
    requires Ordered(stones) && k < |stones|
    ensures var t := stones[..k] + stones[k + 1..];
      Ordered(t) && |t| < |stones| && (forall j :: 0 <= j < |t| ==> t[j] in stones && t[j].rid != stones[k].rid)
  {
    var t := stones[..k] + stones[k + 1..];
    forall j | 0 <= j < |t| ensures t[j] in stones && t[j].rid != stones[k].rid {
      assert t[j] == if j < k then stones[j] else stones[j + 1];
    }
  }

  // ------------------------------------------------------------ one step

  /** Drained requests stay drained. */
  ghost predicate DrainedStay(s: State, t: State) {
    forall o :: o in s.native && s.native[o].Drained? ==> o in t.native && t.native[o] == s.native[o]
  }

  lemma SpentStays(s: State, t: State, r: Rid)
    requires DrainedStay(s, t) && IsSpent(s, r)
    ensures IsSpent(t, r)
  {
    var o :| o in s.native && s.native[o] == Drained(Sent(r));
    assert t.native[o] == Drained(Sent(r));
  }

  /** Tombstones may go, but no tombstone's key may come back. */
  lemma StonesFrame(s: State, t: State)
    requires StonesOk(s)
    requires t.tombstones == s.tombstones && t.clock >= s.clock && DrainedStay(s, t)
    requires forall k :: 0 <= k < |s.tombstones| ==>
      var r := s.tombstones[k].rid; (r in t.pending ==> r in s.pending) && (r in t.early ==> r in s.early)
    ensures StonesOk(t)
  {
    hide Ordered, DrainedStay, IsSpent;
    forall r | IsSpent(s, r) ensures IsSpent(t, r) {
      SpentStays(s, t, r);
    }
  }

  lemma StonesBury(s: State, t: State, rid: Rid)
    requires StonesOk(s)
    requires t.clock >= s.clock && t.tombstones == Entombed(s.tombstones, rid, t.clock) && DrainedStay(s, t)
    requires IsSpent(t, rid) && rid !in t.pending && rid !in t.early
    requires t.pending.Keys <= s.pending.Keys && t.early.Keys <= s.early.Keys
    ensures StonesOk(t)
  {
    hide Ordered, DrainedStay, IsSpent, Entombed, Buried;
    EntombedFacts(s.tombstones, rid, t.clock);
    forall r | IsSpent(s, r) ensures IsSpent(t, r) {
      SpentStays(s, t, r);
    }
  }

  /** The tombstone of an identity expires and the identity is staged again. */
  lemma StonesForget(s: State, t: State, k: nat)
    requires StonesOk(s) && k < |s.tombstones|
    requires t.tombstones == s.tombstones[..k] + s.tombstones[k + 1..] && t.clock >= s.clock && DrainedStay(s, t)
    requires t.pending.Keys <= s.pending.Keys && t.early.Keys <= s.early.Keys + {s.tombstones[k].rid}
    ensures StonesOk(t) && !Buried(t.tombstones, s.tombstones[k].rid)
  {
    hide Ordered, DrainedStay, IsSpent;
    ForgottenFacts(s.tombstones, k);
    forall r | IsSpent(s, r) ensures IsSpent(t, r) {
      SpentStays(s, t, r);
    }
  }

  lemma InitialInv()
    ensures Inv(Initial())
  {
  }

  /** The native side moves on without naming a request or finishing with it. */
  predicate NativeMove(s: State, op: Op, n: Native) {
    && op in s.native && !s.native[op].Drained? && !n.Drained?
    && (n == Finished(Skipped) ==> op in s.futures && s.futures[op] != Pending)
    && (SentAs(n) == SentAs(s.native[op])
        || (SentAs(n).Some? && SentAs(s.native[op]).None? && SentAs(n).value !in s.answered
            && forall o :: o in s.native ==> SentAs(s.native[o]) != SentAs(n)))
  }

  lemma NativeTables(s: State, op: Op, n: Native)
    requires Tables(s) && NativeMove(s, op, n)
    ensures Tables(s.(native := s.native[op := n]))
  {
  }

  lemma NativeOutcomes(s: State, op: Op, n: Native)
    requires Outcomes(s) && NativeMove(s, op, n)
    ensures Outcomes(s.(native := s.native[op := n]))
  {
    var t := s.(native := s.native[op := n]);
    assert forall o :: o in s.native && o != op ==> t.native[o] == s.native[o];
  }

  lemma NativeKeeps(s: State, op: Op, n: Native)
    requires Inv(s) && NativeMove(s, op, n)
    ensures Inv(s.(native := s.native[op := n]))
  {
    var t := s.(native := s.native[op := n]);
    NativeTables(s, op, n);
    NativeOutcomes(s, op, n);
    hide StonesOk, Tables, Outcomes;
    StonesFrame(s, t);
  }

  lemma EnterTables(s: State)
    requires Tables(s)
    ensures Tables(Entered(s))
  {
    NextIsNew(s);
  }

  lemma NextIsNew(s: State)
    requires Tables(s)
    ensures s.nextOperation !in s.native && s.nextOperation !in s.futures && s.nextOperation !in s.unreconciled
  {
    hide PendingOk, KeysApart;
  }

  lemma EnterOutcomes(s: State)
    requires Outcomes(s) && s.nextOperation !in s.native && s.nextOperation !in s.futures
    ensures Outcomes(Entered(s))
  {
    var t := Entered(s);
    assert forall o :: o in s.native ==> t.native[o] == s.native[o];
    assert forall o :: o in s.futures ==> t.futures[o] == s.futures[o];
  }

  lemma EnterStaging(s: State)
    requires EarlyOk(s) && StonesOk(s) && s.nextOperation !in s.native
    ensures EarlyOk(Entered(s)) && StonesOk(Entered(s))
  {
    hide StonesOk;
    StonesFrame(s, Entered(s));
  }

  lemma EnterKeeps(s: State)
    requires Inv(s)
    ensures Inv(Entered(s))
  {
    hide Tables, Outcomes, EarlyOk, StonesOk, Entered;
    NextIsNew(s);
    EnterTables(s);
    EnterOutcomes(s);
    EnterStaging(s);
  }

  lemma OthersRemain(candidates: set<Op>, op: Op)
    requires candidates != {} && candidates != {op}
    ensures candidates - {op} != {}
  {
    var other :| other in candidates && other != op;
    assert other in candidates - {op};
  }

  /** Dropping entries and one candidate keeps the staging table in order. */
  lemma RetiredStaging(early: map<Rid, Early>, gone: set<Rid>, op: Op, before: set<Op>)
    requires forall r :: r in early ==> early[r].candidates != {} && early[r].candidates <= before
    ensures var t := Retired(early - gone, op);
      && t.Keys <= early.Keys && |t| <= |early|
      && (forall r :: r in t ==> t[r].candidates != {} && t[r].candidates <= before - {op})
  {
    RetiredFacts(early - gone, op);
    assert (early - gone).Keys == early.Keys - gone;
    assert |(early - gone).Keys| <= |early.Keys|;
  }

  /** Nothing refers to an operation that is still being submitted, apart from the tables of
      operations and the candidates. */
  lemma SubmittingIsAlone(s: State, op: Op)
    requires Tables(s) && Submitting(s, op)
    ensures op in s.futures && forall r :: r in s.pending ==> s.pending[r] != op
  {
    hide KeysApart;
  }

  /** The operation leaves the tables of operations, and only its own Future changes. */
  ghost predicate Removes(s: State, t: State, op: Op) {
    && t.pending == s.pending && t.tombstones == s.tombstones && t.clock == s.clock && t.answered == s.answered
    && t.closing == s.closing && t.cancels == s.cancels && t.nextOperation == s.nextOperation
    && t.unreconciled == s.unreconciled - {op}
    && (forall o :: o in t.native <==> o in s.native && o != op)
    && (forall o :: o in t.native ==> t.native[o] == s.native[o])
    && (forall o :: o in t.operations <==> o in s.operations && o != op)
    && (forall o :: o in t.operations ==> t.operations[o] == s.operations[o])
    && (forall o :: o in t.futures <==> o in s.futures)
    && (forall o :: o in t.futures && o != op ==> t.futures[o] == s.futures[o])
    && (op in t.futures ==> t.futures[op] != Pending && (s.futures[op] != Pending ==> t.futures[op] == s.futures[op]))
    && (op in t.futures && t.futures[op].Result? ==> t.futures[op] == s.futures[op])
    && t.early == Retired(s.early, op)
  }

  lemma RefusedRemoves(s: State, op: Op)
    ensures Removes(s, Refused(s, op), op)
    ensures var t := Refused(s, op);
      t.early == Retired(s.early, op) && t.unreconciled == s.unreconciled - {op} && t.answered == s.answered
  {
    hide Retired;
  }

  lemma RefusedNumbers(s: State, t: State, op: Op)
    requires NumbersOk(s) && Removes(s, t, op)
    ensures NumbersOk(t)
  {
    hide Retired, SentAs;
  }

  lemma RefusedOperations(s: State, t: State, op: Op)
    requires OperationsOk(s) && Removes(s, t, op)
    ensures OperationsOk(t)
  {
    hide Retired;
  }

  lemma RefusedPending(s: State, t: State, op: Op)
    requires PendingOk(s) && KeysApart(s) && Removes(s, t, op) && forall r :: r in s.pending ==> s.pending[r] != op
    ensures PendingOk(t) && KeysApart(t)
  {
    hide Retired;
    RetiredFacts(s.early, op);
  }

  lemma RefusedTables(s: State, t: State, op: Op)
    requires Tables(s) && Submitting(s, op) && Removes(s, t, op)
    ensures Tables(t)
  {
    SubmittingIsAlone(s, op);
    hide NumbersOk, OperationsOk, PendingOk, KeysApart, Removes;
    RefusedNumbers(s, t, op);
    RefusedOperations(s, t, op);
    RefusedPending(s, t, op);
  }

  lemma RefusedEarly(s: State, t: State, op: Op)
    requires EarlyOk(s) && t.early == Retired(s.early, op)
    requires t.unreconciled == s.unreconciled - {op} && t.answered == s.answered
    ensures EarlyOk(t)
  {
    hide Retired;
    RetiredFacts(s.early, op);
    forall r | r in t.early
      ensures t.early[r].candidates != {} && t.early[r].candidates <= t.unreconciled && r in t.answered
    {
      assert s.early[r].candidates != {} && s.early[r].candidates != {op};
      OthersRemain(s.early[r].candidates, op);
    }
  }

  lemma RefusedStones(s: State, t: State, op: Op)
    requires StonesOk(s) && Submitting(s, op) && Removes(s, t, op)
    ensures StonesOk(t)
  {
    hide StonesOk, Retired;
    RetiredFacts(s.early, op);
    StonesFrame(s, t);
  }

  /** An operation stays findable while its own entries stay. */
  lemma LiveFrame(s: State, t: State, op: Op)
    requires LiveAt(s, op) && (s.closing ==> t.closing) && op in s.native
    requires op in t.native && t.native[op] == s.native[op]
    requires op in t.futures && t.futures[op] == Pending ==> op in s.futures && s.futures[op] == Pending
    requires op in s.unreconciled ==> op in t.unreconciled
    requires forall r :: r in s.pending && s.pending[r] == op ==> r in t.pending && t.pending[r] == op
    requires var r := SentAs(s.native[op]);
      r.Some? && r.value in t.answered ==>
        r.value in s.answered && t.answered[r.value] == s.answered[r.value]
        && (r.value in s.early && op in s.early[r.value].candidates ==>
              && r.value in t.early && t.early[r.value].response == s.early[r.value].response
              && op in t.early[r.value].candidates)
    ensures LiveAt(t, op)
  {
  }

  lemma RefusedLiveAt(s: State, t: State, op: Op, o: Op)
    requires LiveAt(s, o) && Removes(s, t, op) && o in t.native
    ensures LiveAt(t, o)
  {
    hide LiveAt, Retired;
    RetiredFacts(s.early, op);
    LiveFrame(s, t, o);
  }

  lemma RefusedOutcomes(s: State, t: State, op: Op)
    requires Outcomes(s) && Submitting(s, op) && Removes(s, t, op)
    ensures Outcomes(t)
  {
    hide LiveAt, Retired;
    forall o | o in t.native ensures LiveAt(t, o) {
      RefusedLiveAt(s, t, op, o);
    }
  }

  lemma RefusedKeeps(s: State, op: Op)
    requires Inv(s) && Submitting(s, op)
    ensures Inv(Refused(s, op))
  {
    hide Tables, Outcomes, EarlyOk, StonesOk, Refused, Submitting, Removes, Retired;
    var t := Refused(s, op);
    RefusedRemoves(s, op);
    RefusedTables(s, t, op);
    RefusedOutcomes(s, t, op);
    RefusedEarly(s, t, op);
    RefusedStones(s, t, op);
  }

  lemma CloseKeeps(s: State)
    requires Inv(s)
    ensures Inv(Apply(s, Close))
  {
  }

  lemma UserCancelTables(s: State, op: Op)
    requires Tables(s) && Enabled(s, UserCancel(op))
    ensures Tables(Apply(s, UserCancel(op)))
  {
    hide SentAs;
  }

  lemma UserCancelOutcomes(s: State, op: Op)
    requires Outcomes(s) && Enabled(s, UserCancel(op))
    ensures Outcomes(Apply(s, UserCancel(op)))
  {
  }

  lemma UserCancelStaging(s: State, op: Op)
    requires EarlyOk(s) && StonesOk(s) && Enabled(s, UserCancel(op))
    ensures EarlyOk(Apply(s, UserCancel(op))) && StonesOk(Apply(s, UserCancel(op)))
  {
    assert EarlyOk(Apply(s, UserCancel(op)));
    hide EarlyOk, StonesOk, SentAs, Submitting, Retired, Entombed;
    StonesFrame(s, Apply(s, UserCancel(op)));
  }

  lemma UserCancelKeeps(s: State, op: Op)
    requires Inv(s) && Enabled(s, UserCancel(op))
    ensures Inv(Apply(s, UserCancel(op)))
  {
    hide Tables, Outcomes, EarlyOk, StonesOk, Apply, Enabled;
    UserCancelTables(s, op);
    UserCancelOutcomes(s, op);
    UserCancelStaging(s, op);
  }

  lemma ClearKeeps(s: State, e: Event)
    requires Inv(s) && s.closing && (e == ClearEarly || e == RetireBindings)
    ensures Inv(Apply(s, e))
  {
    hide Tables, Outcomes;
    ClearTables(s, e);
    ClearOutcomes(s, e);
    if e == ClearEarly {
      StonesFrame(s, Apply(s, e));
    }
  }

  lemma ClearOutcomes(s: State, e: Event)
    requires Outcomes(s) && s.closing && (e == ClearEarly || e == RetireBindings)
    ensures Outcomes(Apply(s, e))
  {
  }

  lemma ClearTables(s: State, e: Event)
    requires Tables(s) && s.closing && (e == ClearEarly || e == RetireBindings)
    ensures Tables(Apply(s, e))
  {
    hide NumbersOk, OperationsOk, KeysApart;
    TablesShrink(s, Apply(s, e));
  }

  // -------------------------------------------------- withdrawal of one operation

  /** Cancellation for a terminal Future is cancellation with the Future already settled. */
  lemma TerminalIsCancel(s: State, op: Op, now: int)
    requires Enabled(s, Terminal(op, now)) && op in s.operations
    ensures Apply(s, Terminal(op, now)) == AfterCancel(s, op, now)
  {
    hide Retired, Entombed;
  }

  /** Entries leave the tables together with whatever refers to them. */
  lemma TablesShrink(s: State, t: State)
    requires Tables(s)
    requires t.native == s.native && t.nextOperation == s.nextOperation && t.futures.Keys == s.futures.Keys
    requires forall o :: o in t.operations ==> o in s.operations && t.operations[o] == s.operations[o]
    requires forall o :: o in s.operations && !s.operations[o].reconciled ==> o in t.operations
    requires t.unreconciled <= s.unreconciled
    requires forall r :: r in t.pending ==>
      && r in s.pending && t.pending[r] == s.pending[r] && s.pending[r] in t.operations
      && (s.pending[r] in t.futures && t.futures[s.pending[r]] == Pending ==>
            s.futures[s.pending[r]] == Pending && (r in t.answered ==> r in s.answered))
      && (r in t.early ==> r in s.early)
    ensures Tables(t)
  {
  }

  /** A pending identity leads to an operation that carries the same identity. */
  lemma PendingIsItsOwn(s: State, op: Op)
    requires Tables(s) && op in s.operations
    ensures op in s.native && op in s.futures
    ensures s.operations[op].requestId.Some? ==> s.native[op] == Drained(Sent(s.operations[op].requestId.value))
    ensures forall r :: r in s.pending ==>
      && s.pending[r] in s.operations && s.operations[s.pending[r]].reconciled
      && (s.pending[r] == op <==> s.operations[op].requestId == Some(r))
  {
  }

  /** Nobody else was sent under the identity of `op`. */
  lemma SentApart(s: State, op: Op)
    requires Tables(s) && op in s.native && SentAs(s.native[op]).Some?
    ensures forall o :: o in s.native && o != op ==> SentAs(s.native[o]) != SentAs(s.native[op])
  {
    hide PendingOk, OperationsOk, KeysApart;
  }

  lemma CancelTables(s: State, op: Op, now: int)
    requires Tables(s) && now >= s.clock && op in s.operations
    ensures Tables(AfterCancel(s, op, now))
  {
    hide Tables, Retired, Entombed;
    PendingIsItsOwn(s, op);
    RetiredFacts(s.early - Named(s.operations[op].requestId), op);
    TablesShrink(s, AfterCancel(s, op, now));
  }

  lemma CancelEarly(s: State, op: Op, now: int)
    requires EarlyOk(s) && now >= s.clock && op in s.operations
    ensures EarlyOk(AfterCancel(s, op, now))
  {
    hide Entombed, Retired;
    RetiredStaging(s.early, Named(s.operations[op].requestId), op, s.unreconciled);
  }

  lemma CancelStones(s: State, op: Op, now: int)
    requires Tables(s) && StonesOk(s) && now >= s.clock && op in s.operations
    ensures StonesOk(AfterCancel(s, op, now))
  {
    hide StonesOk, Tables, Retired, Entombed;
    var t := AfterCancel(s, op, now);
    PendingIsItsOwn(s, op);
    RetiredFacts(s.early - Named(s.operations[op].requestId), op);
    if s.operations[op].requestId.Some? {
      StonesBury(s, t, s.operations[op].requestId.value);
    } else {
      StonesFrame(s, t);
    }
  }

  lemma SettledIsNotLive(t: State, op: Op)
    requires op in t.futures && t.futures[op] != Pending
    ensures LiveAt(t, op)
  {
  }

  lemma CancelLiveAt(s: State, op: Op, now: int, o: Op)
    requires LiveAt(s, o) && op in s.operations && o in s.native && o != op
    requires s.operations[op].requestId.Some? ==> SentAs(s.native[o]) != s.operations[op].requestId
    requires forall r :: r in s.pending && s.pending[r] == o ==> s.operations[op].requestId != Some(r)
    ensures LiveAt(AfterCancel(s, op, now), o)
  {
    hide LiveAt, Retired, Entombed;
    RetiredFacts(s.early - Named(s.operations[op].requestId), op);
    LiveFrame(s, AfterCancel(s, op, now), o);
  }

  lemma CancelLive(s: State, op: Op, now: int)
    requires Tables(s) && LiveOk(s) && op in s.operations && now >= s.clock
    ensures LiveOk(AfterCancel(s, op, now))
  {
    hide Tables, LiveAt, Retired, Entombed;
    PendingIsItsOwn(s, op);
    if s.operations[op].requestId.Some? {
      SentApart(s, op);
    }
    SettledIsNotLive(AfterCancel(s, op, now), op);
    forall o | o in s.native && o != op ensures LiveAt(AfterCancel(s, op, now), o) {
      CancelLiveAt(s, op, now, o);
    }
  }

  lemma CancelOutcomes(s: State, op: Op, now: int)
    requires Tables(s) && Outcomes(s) && op in s.operations && now >= s.clock
    ensures Outcomes(AfterCancel(s, op, now))
  {
    hide Tables, LiveOk, Retired, Entombed;
    CancelLive(s, op, now);
    PendingIsItsOwn(s, op);
  }

  lemma CancelKeeps(s: State, op: Op, now: int)
    requires Inv(s) && op in s.operations && now >= s.clock
    ensures Inv(AfterCancel(s, op, now))
  {
    hide Tables, EarlyOk, StonesOk, Outcomes, AfterCancel;
    CancelTables(s, op, now);
    CancelEarly(s, op, now);
    CancelStones(s, op, now);
    CancelOutcomes(s, op, now);
  }

  // -------------------------------------------------- draining one send completion

  /** The identity a finished request was sent under, if it was sent. */
  function SpentBy(s: State, op: Op): Option<Rid>
    requires Drainable(s, op)
  {
    SentAs(s.native[op])
  }

  /** Only the Future of `op` changed, and it is settled now. */
  predicate SettledOnly(s: State, futures: map<Op, Future>, op: Op) {
    && futures.Keys == s.futures.Keys && op in futures
    && (futures[op] != Pending || s.closing)
    && (s.futures[op] != Pending ==> futures[op] == s.futures[op])
    && (forall o :: o in futures && o != op ==> futures[o] == s.futures[o])
  }

  lemma DrainedNative(s: State, op: Op)
    requires Drainable(s, op)
    ensures var native := s.native[op := Native.Drained(s.native[op].completion)];
      && native.Keys == s.native.Keys
      && (forall o :: o in native ==> SentAs(native[o]) == SentAs(s.native[o]))
      && (forall o :: o in native && o != op ==> native[o] == s.native[o])
      && (forall o :: o in native && s.native[o].Drained? ==> native[o] == s.native[o])
      && (SpentBy(s, op).Some? ==> native[op] == Native.Drained(Sent(SpentBy(s, op).value)))
  {
  }

  /** The completion of `op` is drained and every other row of the operation table stays. */
  ghost predicate DrainStep(s: State, t: State, op: Op) {
    && Drainable(s, op)
    && t.native == s.native[op := Native.Drained(s.native[op].completion)]
    && t.nextOperation == s.nextOperation && t.futures.Keys == s.futures.Keys && t.answered == s.answered
    && t.unreconciled == s.unreconciled - {op} && t.early.Keys <= s.early.Keys
    && t.operations - {op} == s.operations - {op}
    && (op in t.operations ==> SpentBy(s, op).Some? && t.operations[op] == Operation(SpentBy(s, op), true))
    && (forall o :: o in t.futures && o != op ==> t.futures[o] == s.futures[o])
  }

  lemma OtherOperations(s: State, t: State, op: Op)
    requires DrainStep(s, t, op)
    ensures forall o :: o != op ==> (o in t.operations <==> o in s.operations)
    ensures forall o :: o != op && o in t.operations ==> t.operations[o] == s.operations[o]
  {
    assert forall o :: o != op ==>
      (o in t.operations <==> o in t.operations - {op}) && (o in s.operations <==> o in s.operations - {op});
    assert forall o :: o != op && o in t.operations ==> t.operations[o] == (t.operations - {op})[o];
    assert forall o :: o != op && o in s.operations ==> s.operations[o] == (s.operations - {op})[o];
  }

  lemma DrainNumbers(s: State, t: State, op: Op)
    requires NumbersOk(s) && DrainStep(s, t, op)
    ensures NumbersOk(t)
  {
    DrainedNative(s, op);
    OtherOperations(s, t, op);
    hide SentAs;
  }

  lemma DrainOperations(s: State, t: State, op: Op)
    requires NumbersOk(s) && OperationsOk(s) && DrainStep(s, t, op)
    ensures NumbersOk(t) && OperationsOk(t)
  {
    DrainNumbers(s, t, op);
    DrainedNative(s, op);
    OtherOperations(s, t, op);
    hide NumbersOk, SentAs;
  }

  lemma TablesDrop(s: State, t: State, op: Op)
    requires Tables(s) && DrainStep(s, t, op) && t.pending == s.pending
    requires t.operations == s.operations - {op}
    ensures Tables(t)
  {
    DrainOperations(s, t, op);
    hide NumbersOk;
  }

  lemma LeftTables(s: State, op: Op, spent: Option<Rid>, futures: map<Op, Future>, now: int)
    requires Tables(s) && Drainable(s, op) && SettledOnly(s, futures, op)
    ensures Tables(Left(s, op, spent, futures, now))
  {
    hide Tables, Retired, Entombed;
    RetiredFacts(s.early - Named(spent), op);
    TablesDrop(s, Left(s, op, spent, futures, now), op);
  }

  lemma LeftEarly(s: State, op: Op, spent: Option<Rid>, futures: map<Op, Future>, now: int)
    requires EarlyOk(s) && Drainable(s, op)
    ensures EarlyOk(Left(s, op, spent, futures, now))
  {
    hide Retired, Entombed;
    RetiredStaging(s.early, Named(spent), op, s.unreconciled);
  }

  lemma LeftStones(s: State, op: Op, futures: map<Op, Future>, now: int)
    requires Tables(s) && StonesOk(s) && Drainable(s, op) && now >= s.clock
    ensures StonesOk(Left(s, op, SpentBy(s, op), futures, now))
  {
    hide StonesOk, Tables, Retired, Entombed;
    var spent := SpentBy(s, op);
    var t := Left(s, op, spent, futures, now);
    RetiredFacts(s.early - Named(spent), op);
    DrainedNative(s, op);
    if spent.Some? {
      UnfinishedIsNotPending(s, op);
      StonesBury(s, t, spent.value);
    } else {
      StonesFrame(s, t);
    }
  }

  /** Before its completion is drained a request is neither pending nor entombed. */
  lemma UnfinishedIsNotPending(s: State, op: Op)
    requires Tables(s) && StonesOk(s) && Drainable(s, op) && SpentBy(s, op).Some?
    ensures SpentBy(s, op).value !in s.pending && !Buried(s.tombstones, SpentBy(s, op).value)
    ensures forall r :: r in s.pending ==> s.pending[r] != op
  {
  }

  lemma LeftLiveAt(s: State, op: Op, futures: map<Op, Future>, now: int, o: Op)
    requires Tables(s) && LiveAt(s, o) && Drainable(s, op) && SettledOnly(s, futures, op) && o in s.native && o != op
    ensures LiveAt(Left(s, op, SpentBy(s, op), futures, now), o)
  {
    hide Tables, LiveAt, Retired, Entombed;
    var spent := SpentBy(s, op);
    if spent.Some? {
      SentApart(s, op);
    }
    assert SentAs(s.native[o]).Some? ==> SentAs(s.native[o]).value !in Named(spent);
    RetiredFacts(s.early - Named(spent), op);
    LiveFrame(s, Left(s, op, spent, futures, now), o);
  }

  lemma LeftLive(s: State, op: Op, futures: map<Op, Future>, now: int)
    requires Tables(s) && LiveOk(s) && Drainable(s, op) && SettledOnly(s, futures, op)
    ensures LiveOk(Left(s, op, SpentBy(s, op), futures, now))
  {
    forall o | o in s.native && o != op ensures LiveAt(Left(s, op, SpentBy(s, op), futures, now), o) {
      hide Tables, LiveAt;
      LeftLiveAt(s, op, futures, now, o);
    }
    var t := Left(s, op, SpentBy(s, op), futures, now);
    hide Tables, Retired, Entombed;
    assert LiveAt(t, op);
  }

  /** A result is given only with the response recorded for the request. */
  lemma LeftOutcomes(s: State, op: Op, futures: map<Op, Future>, now: int)
    requires Tables(s) && Outcomes(s) && Drainable(s, op) && SettledOnly(s, futures, op)
    requires futures[op].Result? && futures[op] != s.futures[op] ==>
      SpentBy(s, op).Some? && SpentBy(s, op).value in s.answered
        && futures[op].response == s.answered[SpentBy(s, op).value]
    ensures Outcomes(Left(s, op, SpentBy(s, op), futures, now))
  {
    LeftLive(s, op, futures, now);
    LeftResults(s, op, futures, now);
    hide LiveOk, ResultsOk, Tables, Retired, Entombed, Buried, SentAs;
  }

  lemma LeftResults(s: State, op: Op, futures: map<Op, Future>, now: int)
    requires ResultsOk(s) && Drainable(s, op) && SettledOnly(s, futures, op)
    requires futures[op].Result? && futures[op] != s.futures[op] ==>
      SpentBy(s, op).Some? && SpentBy(s, op).value in s.answered
        && futures[op].response == s.answered[SpentBy(s, op).value]
    ensures ResultsOk(Left(s, op, SpentBy(s, op), futures, now))
  {
    hide Retired, Entombed;
    DrainedNative(s, op);
  }

  lemma LeftKeeps(s: State, op: Op, futures: map<Op, Future>, now: int)
    requires Inv(s) && Drainable(s, op) && SettledOnly(s, futures, op) && now >= s.clock
    requires futures[op].Result? && futures[op] != s.futures[op] ==>
      SpentBy(s, op).Some? && SpentBy(s, op).value in s.answered
        && futures[op].response == s.answered[SpentBy(s, op).value]
    ensures Inv(Left(s, op, SpentBy(s, op), futures, now))
  {
    hide Tables, EarlyOk, StonesOk, Outcomes, Left, SettledOnly, Drainable;
    LeftTables(s, op, SpentBy(s, op), futures, now);
    LeftEarly(s, op, SpentBy(s, op), futures, now);
    LeftStones(s, op, futures, now);
    LeftOutcomes(s, op, futures, now);
  }

  // ---- a request starts to wait for its response

  lemma AwaitingPending(s: State, t: State, op: Op, rid: Rid)
    requires PendingOk(s) && KeysApart(s) && DrainStep(s, t, op) && op in s.futures
    requires forall r :: r in s.pending ==> s.pending[r] != op
    requires t.pending == s.pending[rid := op] && op in t.operations && SpentBy(s, op) == Some(rid)
    requires rid !in t.answered && rid !in t.early
    ensures PendingOk(t) && KeysApart(t)
  {
    forall r | r in s.pending
      ensures s.pending[r] in t.operations && t.operations[s.pending[r]] == s.operations[s.pending[r]]
    {
      assert s.pending[r] in s.operations - {op};
    }
  }

  lemma AwaitingIsADrain(s: State, op: Op, rid: Rid, now: int)
    requires Drainable(s, op) && SpentBy(s, op) == Some(rid) && rid !in s.answered
    ensures DrainStep(s, Awaiting(s, op, rid, now), op)
    ensures rid !in Awaiting(s, op, rid, now).early
  {
    hide Retired, SentAs;
    RetiredFacts(s.early - {rid}, op);
    assert Awaiting(s, op, rid, now).operations - {op} == s.operations - {op};
  }

  lemma AwaitingTables(s: State, op: Op, rid: Rid, now: int)
    requires Tables(s) && StonesOk(s) && Drainable(s, op) && SpentBy(s, op) == Some(rid) && rid !in s.answered
    ensures Tables(Awaiting(s, op, rid, now))
  {
    var t := Awaiting(s, op, rid, now);
    assert op in s.futures;
    UnfinishedIsNotPending(s, op);
    hide NumbersOk, OperationsOk, PendingOk, KeysApart, Retired, StonesOk, Buried, SpentBy, DrainStep;
    AwaitingIsADrain(s, op, rid, now);
    DrainOperations(s, t, op);
    AwaitingPending(s, t, op, rid);
  }

  lemma AwaitingEarly(s: State, op: Op, rid: Rid, now: int)
    requires EarlyOk(s) && Drainable(s, op)
    ensures EarlyOk(Awaiting(s, op, rid, now))
  {
    hide Retired;
    RetiredStaging(s.early, {rid}, op, s.unreconciled);
  }

  lemma AwaitingStones(s: State, op: Op, rid: Rid, now: int)
    requires Tables(s) && StonesOk(s) && Drainable(s, op) && SpentBy(s, op) == Some(rid) && now >= s.clock
    ensures StonesOk(Awaiting(s, op, rid, now))
  {
    UnfinishedIsNotPending(s, op);
    assert forall k :: 0 <= k < |s.tombstones| ==> s.tombstones[k].rid != rid;
    hide StonesOk, Tables, Retired;
    RetiredFacts(s.early - {rid}, op);
    DrainedNative(s, op);
    StonesFrame(s, Awaiting(s, op, rid, now));
  }

  /** Entries under other identities keep their other candidates. */
  lemma OtherCandidates(early: map<Rid, Early>, op: Op, o: Op, rid: Rid)
    requires o != op
    ensures var left := Retired(early - {rid}, op);
      forall r :: r != rid && r in early && o in early[r].candidates ==>
        r in left && left[r].response == early[r].response && o in left[r].candidates
  {
    hide Retired;
    RetiredFacts(early - {rid}, op);
  }

  lemma AwaitingLiveAt(s: State, op: Op, rid: Rid, now: int, o: Op)
    requires Tables(s) && StonesOk(s) && LiveAt(s, o) && Drainable(s, op) && SpentBy(s, op) == Some(rid)
      && o in s.native && o != op
    ensures LiveAt(Awaiting(s, op, rid, now), o)
  {
    hide Tables, LiveAt, Retired, StonesOk, Buried, Entombed;
    SentApart(s, op);
    UnfinishedIsNotPending(s, op);
    assert SentAs(s.native[o]) != Some(rid);
    hide SentAs;
    OtherCandidates(s.early, op, o, rid);
    LiveFrame(s, Awaiting(s, op, rid, now), o);
  }

  lemma AwaitingOutcomes(s: State, op: Op, rid: Rid, now: int)
    requires Tables(s) && StonesOk(s) && Outcomes(s) && Drainable(s, op) && SpentBy(s, op) == Some(rid)
    ensures Outcomes(Awaiting(s, op, rid, now))
  {
    var t := Awaiting(s, op, rid, now);
    forall o | o in s.native && o != op ensures LiveAt(t, o) {
      hide Tables, LiveAt, StonesOk;
      AwaitingLiveAt(s, op, rid, now, o);
    }
    hide Tables, StonesOk, Retired;
    DrainedNative(s, op);
    assert LiveAt(t, op);
    hide LiveAt;
  }

  lemma AwaitingKeeps(s: State, op: Op, rid: Rid, now: int)
    requires Inv(s) && Drainable(s, op) && SpentBy(s, op) == Some(rid) && rid !in s.answered && now >= s.clock
    ensures Inv(Awaiting(s, op, rid, now))
  {
    hide Tables, EarlyOk, StonesOk, Outcomes, Awaiting, Drainable;
    AwaitingTables(s, op, rid, now);
    AwaitingEarly(s, op, rid, now);
    AwaitingStones(s, op, rid, now);
    AwaitingOutcomes(s, op, rid, now);
  }

  /** What the tables say about a request whose completion is about to be drained. */
  lemma FinishedFacts(s: State, op: Op)
    requires Inv(s) && Drainable(s, op)
    ensures op in s.futures
    ensures s.futures[op] == Pending && !s.closing ==> s.native[op] != Finished(Skipped)
    ensures s.futures[op] == Pending && !s.closing && SpentBy(s, op).Some? && SpentBy(s, op).value in s.answered ==>
      Staged(s, op, SpentBy(s, op).value)
    ensures forall r :: r in s.early ==> r in s.answered
  {
    hide StonesOk, PendingOk, KeysApart, OperationsOk;
    assert LiveAt(s, op);
  }

  lemma DrainKeeps(s: State, op: Op, now: int)
    requires Inv(s) && Drainable(s, op) && now >= s.clock
    ensures Inv(AfterDrain(s, op, now))
  {
    hide Inv, Left, Awaiting;
    FinishedFacts(s, op);
    match s.native[op].completion
    case SendFailed => LeftKeeps(s, op, Settle(s.futures, op, Error), now);
    case Skipped => LeftKeeps(s, op, s.futures, now);
    case Sent(rid) =>
      var futures := if s.closing then Settle(s.futures, op, Error) else s.futures;
      if futures[op] != Pending || s.closing {
        LeftKeeps(s, op, futures, now);
      } else if rid in s.early {
        LeftKeeps(s, op, Settle(futures, op, Result(s.early[rid].response)), now);
      } else {
        AwaitingKeeps(s, op, rid, now);
      }
  }

  // ------------------------------------------------------- receiving one response

  /** What a sample must not disturb: its identity is neither pending nor owed a place in the
      early table. */
  ghost predicate Unclaimed(s: State, rid: Rid) {
    && rid !in s.pending
    && (forall o ::
          o in s.native && !s.native[o].Drained? && o in s.futures && s.futures[o] == Pending && !s.closing ==>
          SentAs(s.native[o]) != Some(rid))
  }

  /** The sample only leaves its trace in the record, and possibly clears a tombstone. */
  lemma HeardKeeps(s: State, rid: Rid, response: Response, now: int)
    requires Inv(s) && now >= s.clock && (rid in s.answered || Unclaimed(s, rid))
    ensures Inv(Heard(s, rid, response, now))
  {
    var t := Heard(s, rid, response, now);
    HeardTables(s, rid, response, now);
    HeardOutcomes(s, rid, response, now);
    hide Tables, Outcomes, StonesOk;
    StonesFrame(s, t);
  }

  lemma HeardTables(s: State, rid: Rid, response: Response, now: int)
    requires Tables(s) && (rid in s.answered || Unclaimed(s, rid))
    ensures Tables(Heard(s, rid, response, now))
  {
    hide NumbersOk, OperationsOk, KeysApart;
    TablesShrink(s, Heard(s, rid, response, now));
  }

  lemma HeardOutcomes(s: State, rid: Rid, response: Response, now: int)
    requires Outcomes(s) && (rid in s.answered || Unclaimed(s, rid))
    ensures Outcomes(Heard(s, rid, response, now))
  {
    var t := Heard(s, rid, response, now);
    forall o | o in s.native ensures LiveAt(t, o) {
      assert LiveAt(s, o);
    }
    hide LiveAt;
  }

  /** An entombed identity is nobody's: its completion was drained and it is not pending. */
  lemma EntombedIsUnclaimed(s: State, rid: Rid)
    requires Inv(s) && Buried(s.tombstones, rid)
    ensures Unclaimed(s, rid)
  {
    hide PendingOk, OperationsOk, Outcomes, KeysApart, EarlyOk;
    var k :| 0 <= k < |s.tombstones| && s.tombstones[k].rid == rid;
    assert IsSpent(s, rid);
  }

  lemma NotAwaitedIsUnclaimed(s: State, rid: Rid)
    requires Inv(s) && rid !in s.pending && Candidates(s) == {}
    ensures Unclaimed(s, rid)
  {
    hide Tables, EarlyOk, StonesOk;
    forall o | o in s.native && !s.native[o].Drained? && o in s.futures && s.futures[o] == Pending && !s.closing
      ensures SentAs(s.native[o]) != Some(rid)
    {
      assert LiveAt(s, o);
      assert o !in Candidates(s);
    }
  }

  // ---- the response meets its operation

  lemma AnsweredTables(s: State, rid: Rid, response: Response, now: int)
    requires Tables(s) && rid in s.pending && s.pending[rid] in s.operations
    ensures Tables(Answered(Heard(s, rid, response, now), rid, response))
  {
    PendingIsItsOwn(s, s.pending[rid]);
    hide Tables, Entombed;
    TablesShrink(s, Answered(Heard(s, rid, response, now), rid, response));
  }

  lemma AnsweredStones(s: State, rid: Rid, response: Response, now: int)
    requires Tables(s) && StonesOk(s) && rid in s.pending && s.pending[rid] in s.operations && now >= s.clock
    ensures StonesOk(Answered(Heard(s, rid, response, now), rid, response))
  {
    var t := Answered(Heard(s, rid, response, now), rid, response);
    assert rid !in s.early;
    PendingIsItsOwn(s, s.pending[rid]);
    hide Tables, Entombed, StonesOk;
    assert t.native[s.pending[rid]] == Drained(Sent(rid));
    StonesBury(s, t, rid);
  }

  lemma AnsweredLiveAt(s: State, rid: Rid, response: Response, now: int, o: Op)
    requires Tables(s) && LiveAt(s, o) && rid in s.pending && s.pending[rid] in s.operations && o in s.native
    ensures LiveAt(Answered(Heard(s, rid, response, now), rid, response), o)
  {
    hide Tables, Entombed, LiveAt;
    var t := Answered(Heard(s, rid, response, now), rid, response);
    var op := s.pending[rid];
    PendingIsItsOwn(s, op);
    SentApart(s, op);
    if o == op {
      SettledIsNotLive(t, op);
    } else {
      LiveFrame(s, t, o);
    }
  }

  lemma AnsweredLive(s: State, rid: Rid, response: Response, now: int)
    requires Tables(s) && LiveOk(s) && rid in s.pending && s.pending[rid] in s.operations
    ensures LiveOk(Answered(Heard(s, rid, response, now), rid, response))
  {
    hide Tables, LiveAt, Entombed;
    forall o | o in s.native ensures LiveAt(Answered(Heard(s, rid, response, now), rid, response), o) {
      AnsweredLiveAt(s, rid, response, now, o);
    }
  }

  lemma AnsweredOutcomes(s: State, rid: Rid, response: Response, now: int)
    requires Tables(s) && Outcomes(s) && rid in s.pending && s.pending[rid] in s.operations
    ensures Outcomes(Answered(Heard(s, rid, response, now), rid, response))
  {
    hide Tables, LiveOk, Entombed;
    AnsweredLive(s, rid, response, now);
    PendingIsUnanswered(s, rid);
    PendingIsItsOwn(s, s.pending[rid]);
  }

  lemma PendingIsUnanswered(s: State, rid: Rid)
    requires Tables(s) && rid in s.pending
    ensures s.pending[rid] in s.operations && s.pending[rid] in s.futures
    ensures s.futures[s.pending[rid]] == Pending ==> rid !in s.answered
    ensures rid !in s.early
  {
    hide NumbersOk, OperationsOk;
  }

  lemma AnsweredKeeps(s: State, rid: Rid, response: Response, now: int)
    requires Inv(s) && rid in s.pending && s.pending[rid] in s.operations && now >= s.clock
    ensures Inv(Answered(Heard(s, rid, response, now), rid, response))
  {
    hide Tables, StonesOk, Outcomes, Entombed;
    AnsweredTables(s, rid, response, now);
    AnsweredStones(s, rid, response, now);
    AnsweredOutcomes(s, rid, response, now);
  }

  // ---- the response arrives before the completion that names its request

  function Held(s: State, rid: Rid, response: Response, now: int): State {
    Heard(s, rid, response, now).(early := s.early[rid := Early(response, Candidates(s))])
  }

  lemma HeldTables(s: State, rid: Rid, response: Response, now: int)
    requires Tables(s) && rid !in s.pending
    ensures Tables(Held(s, rid, response, now))
  {
    hide NumbersOk, OperationsOk, KeysApart;
    TablesShrink(s, Held(s, rid, response, now));
  }

  lemma HeldEarly(s: State, rid: Rid, response: Response, now: int)
    requires EarlyOk(s) && Candidates(s) != {} && |s.early| < STAGING_LIMIT
    ensures EarlyOk(Held(s, rid, response, now))
  {
    hide Candidates;
    CandidatesAreUnreconciled(s);
    var t := Held(s, rid, response, now);
    assert t.early.Keys == s.early.Keys + {rid};
    assert |t.early.Keys| <= |s.early.Keys| + 1;
  }

  lemma HeldStones(s: State, rid: Rid, response: Response, now: int)
    requires StonesOk(s) && now >= s.clock && !Buried(s.tombstones, rid)
    ensures StonesOk(Held(s, rid, response, now))
  {
    assert forall k :: 0 <= k < |s.tombstones| ==> s.tombstones[k].rid != rid;
    hide StonesOk, Candidates, Buried;
    StonesFrame(s, Held(s, rid, response, now));
  }

  lemma CandidatesAreUnreconciled(s: State)
    ensures Candidates(s) <= s.unreconciled
  {
  }

  lemma HeldLiveAt(s: State, rid: Rid, response: Response, now: int, o: Op)
    requires LiveAt(s, o) && rid !in s.early && o in s.native
    ensures LiveAt(Held(s, rid, response, now), o)
  {
  }

  lemma HeldKeeps(s: State, rid: Rid, response: Response, now: int)
    requires Inv(s) && rid !in s.pending && rid !in s.early && !Buried(s.tombstones, rid)
    requires Candidates(s) != {} && |s.early| < STAGING_LIMIT && now >= s.clock
    ensures Inv(Held(s, rid, response, now))
  {
    hide Tables, EarlyOk, StonesOk, LiveAt;
    var t := Held(s, rid, response, now);
    HeldTables(s, rid, response, now);
    HeldEarly(s, rid, response, now);
    HeldStones(s, rid, response, now);
    forall o | o in s.native ensures LiveAt(t, o) {
      HeldLiveAt(s, rid, response, now, o);
    }
  }

  // ---- all cases together

  /** An expired tombstone is deleted. */
  function Forgotten(s: State, k: nat): State
    requires k < |s.tombstones|
  {
    s.(tombstones := s.tombstones[..k] + s.tombstones[k + 1..])
  }

  lemma ForgetTables(s: State, k: nat)
    requires Tables(s) && k < |s.tombstones|
    ensures Tables(Forgotten(s, k))
  {
    hide NumbersOk, OperationsOk, KeysApart;
    TablesShrink(s, Forgotten(s, k));
  }

  lemma ForgetOutcomes(s: State, k: nat)
    requires Outcomes(s) && k < |s.tombstones|
    ensures Outcomes(Forgotten(s, k))
  {
    hide LiveAt;
    forall o | o in s.native ensures LiveAt(Forgotten(s, k), o) {
      LiveFrame(s, Forgotten(s, k), o);
    }
  }

  lemma ForgetKeeps(s: State, k: nat)
    requires Inv(s) && k < |s.tombstones|
    ensures Inv(Forgotten(s, k)) && !Buried(Forgotten(s, k).tombstones, s.tombstones[k].rid)
  {
    hide Tables, Outcomes, StonesOk, Buried;
    ForgetTables(s, k);
    ForgetOutcomes(s, k);
    StonesForget(s, Forgotten(s, k), k);
  }

  lemma LaterTables(s: State, t: State)
    requires Tables(s) && t == s.(clock := t.clock, lost := t.lost)
    ensures Tables(t)
  {
    hide NumbersOk, OperationsOk, KeysApart;
    TablesShrink(s, t);
  }

  lemma LaterOutcomes(s: State, t: State)
    requires Outcomes(s) && t == s.(clock := t.clock, lost := t.lost)
    ensures Outcomes(t)
  {
    hide LiveAt;
    forall o | o in s.native ensures LiveAt(t, o) {
      LiveFrame(s, t, o);
    }
  }

  /** Time passes, and a response may be lost. */
  lemma LaterKeeps(s: State, now: int, lost: set<Rid>)
    requires Inv(s) && now >= s.clock
    ensures Inv(s.(clock := now, lost := lost))
  {
    var t := s.(clock := now, lost := lost);
    LaterTables(s, t);
    LaterOutcomes(s, t);
    hide Tables, Outcomes, StonesOk;
    StonesFrame(s, t);
  }

  /** A reception that raises leaves at most an expired tombstone less. */
  lemma DroppedKeeps(s: State, rid: Rid, now: int)
    requires Inv(s) && now >= s.clock
    ensures Inv(Dropped(s, rid, now))
  {
    hide Inv, Buried;
    var t := Dropped(s, rid, now);
    var k := Grave(s.tombstones, rid);
    if k < |s.tombstones| {
      ForgetKeeps(s, k);
      LaterKeeps(Forgotten(s, k), now, t.lost);
    } else {
      LaterKeeps(s, now, t.lost);
    }
  }

  /** Nobody waits for the identity: the sample is dropped, staged, or closes the client. */
  lemma UnawaitedKeeps(s: State, rid: Rid, response: Response, now: int)
    requires Inv(s) && rid !in s.pending && rid !in s.early && now >= s.clock && !Buried(s.tombstones, rid)
    ensures Candidates(s) == {} ==> Inv(Heard(s, rid, response, now))
    ensures Inv(Heard(s.(closing := true), rid, response, now))
    ensures Candidates(s) != {} && |s.early| < STAGING_LIMIT ==> Inv(Held(s, rid, response, now))
  {
    hide Buried, Candidates, Heard, Held, Tables, EarlyOk, StonesOk, Outcomes;
    if Candidates(s) == {} {
      NotAwaitedIsUnclaimed(s, rid);
      HeardKeeps(s, rid, response, now);
    } else if |s.early| < STAGING_LIMIT {
      HeldKeeps(s, rid, response, now);
    }
    CloseKeeps(s);
    HeardKeeps(s.(closing := true), rid, response, now);
  }

  lemma TakenKeeps(s: State, rid: Rid, response: Response, now: int)
    requires Inv(s) && (rid in s.pending ==> s.pending[rid] in s.operations) && now >= s.clock
    requires !Buried(s.tombstones, rid)
    ensures Inv(Taken(Heard(s, rid, response, now), rid, response))
  {
    hide Inv, Buried, Candidates, Answered, Taken;
    EarlyIsAnswered(s, rid);
    TakenCases(s, rid, response, now);
    if rid in s.pending {
      AnsweredKeeps(s, rid, response, now);
    } else if rid in s.early {
      HeardKeeps(s, rid, response, now);
    } else {
      UnawaitedKeeps(s, rid, response, now);
    }
  }

  lemma TakenCases(s: State, rid: Rid, response: Response, now: int)
    requires rid in s.pending ==> s.pending[rid] in s.operations
    ensures var t := Taken(Heard(s, rid, response, now), rid, response);
      if rid in s.pending then t == Answered(Heard(s, rid, response, now), rid, response)
      else if rid in s.early || Candidates(s) == {} then t == Heard(s, rid, response, now)
      else if |s.early| == STAGING_LIMIT then t == Heard(s.(closing := true), rid, response, now)
      else t == Held(s, rid, response, now)
  {
    hide Answered, Candidates;
    SameCandidates(s, Heard(s, rid, response, now));
  }

  lemma SameCandidates(s: State, t: State)
    requires t.unreconciled == s.unreconciled && t.native == s.native
    ensures Candidates(t) == Candidates(s)
  {
  }

  lemma EarlyIsAnswered(s: State, rid: Rid)
    requires Inv(s)
    ensures rid in s.early ==> rid in s.answered
    ensures |s.early| <= STAGING_LIMIT
    ensures rid in s.pending ==> s.pending[rid] in s.operations
  {
    hide OperationsOk, NumbersOk, StonesOk, Outcomes;
  }

  lemma RespondKeeps(s: State, rid: Rid, response: Response, now: int)
    requires Inv(s) && (rid in s.pending ==> s.pending[rid] in s.operations) && now >= s.clock
    ensures Inv(Received(s, rid, response, now))
  {
    hide Inv, Buried, Taken, Dropped;
    var k := Grave(s.tombstones, rid);
    if Stopped(s.tombstones, rid, now) {
      EntombedIsUnclaimed(s, rid);
      HeardKeeps(s, rid, response, now);
    } else if rid !in s.pending && Halfway(s) {
      DroppedKeeps(s, rid, now);
    } else if k < |s.tombstones| {
      ForgetKeeps(s, k);
      TakenKeeps(Forgotten(s, k), rid, response, now);
    } else {
      TakenKeeps(s, rid, response, now);
    }
  }

  lemma NewIsNowhere(s: State)
    requires Inv(s)
    ensures s.nextOperation !in s.native && s.nextOperation !in s.futures && s.nextOperation !in s.unreconciled
    ensures s.nextOperation !in s.operations
    ensures forall r :: r in s.early ==> s.nextOperation !in s.early[r].candidates
  {
    NextIsNew(s);
    hide PendingOk, KeysApart, StonesOk, Outcomes;
  }

  lemma RefusedNew(s: State, n: Native)
    requires var op := s.nextOperation;
      && op !in s.native && op !in s.futures && op !in s.unreconciled && op !in s.operations
      && Retired(s.early, op) == s.early
    ensures var op := s.nextOperation;
      Refused(Entered(s).(native := s.native[op := n]), op)
        == s.(nextOperation := op + 1, futures := s.futures[op := Error])
  {
    hide Retired;
    var op := s.nextOperation;
    assert s.unreconciled + {op} - {op} == s.unreconciled;
    assert s.operations[op := Operation(None, false)] - {op} == s.operations;
    assert s.native[op := n] - {op} == s.native;
    assert s.futures[op := Pending][op := Error] == s.futures[op := Error];
  }

  /** A submission that fails undoes its entries, however far the native work was: only its
      number is used up, and its Future has failed. */
  lemma RefusalLeavesNoTrace(s: State, n: Native)
    requires Inv(s)
    ensures var op := s.nextOperation;
      Refused(Entered(s).(native := s.native[op := n]), op)
        == s.(nextOperation := op + 1, futures := s.futures[op := Error])
  {
    NewIsNowhere(s);
    hide Inv, Refused, Entered;
    RetiredElsewhere(s.early, s.nextOperation);
    RefusedNew(s, n);
  }

  lemma RetiredElsewhere(early: map<Rid, Early>, op: Op)
    requires forall r :: r in early ==> op !in early[r].candidates
    ensures Retired(early, op) == early
  {
    forall r | r in early ensures early[r].candidates != {op} && early[r].candidates - {op} == early[r].candidates {
      assert op !in early[r].candidates;
    }
  }

  lemma EnterKeepsInScan(s: State, rid: Rid, now: int)
    requires Inv(s) && now >= s.clock
    ensures Inv(Entered(Dropped(s, rid, now)))
  {
    hide Inv, Entered, Dropped;
    DroppedKeeps(s, rid, now);
    EnterKeeps(Dropped(s, rid, now));
  }

  lemma RefusedKeepsInScan(s: State, op: Op, rid: Rid, now: int)
    requires Inv(s) && Submitting(s, op) && now >= s.clock
    ensures Inv(Refused(Dropped(s, rid, now), op))
  {
    hide Inv, Refused;
    DroppedKeeps(s, rid, now);
    RefusedKeeps(Dropped(s, rid, now), op);
  }

  lemma StopKeeps(s: State)
    requires Inv(s)
    ensures Inv(Apply(s, Stop))
  {
    hide Tables, StonesOk, Outcomes;
    StopTables(s);
    StopOutcomes(s);
    StonesFrame(s, s.(stopping := true));
  }

  lemma StopOutcomes(s: State)
    requires Outcomes(s)
    ensures Outcomes(s.(stopping := true))
  {
    hide LiveAt;
    forall o | o in s.native ensures LiveAt(s.(stopping := true), o) {
      LiveFrame(s, s.(stopping := true), o);
    }
  }

  lemma StopTables(s: State)
    requires Tables(s)
    ensures Tables(s.(stopping := true))
  {
    hide NumbersOk, OperationsOk, KeysApart;
    TablesShrink(s, s.(stopping := true));
  }

  lemma SendingKeeps(s: State, e: Event)
    requires Inv(s) && Enabled(s, e)
    requires e.StartSend? || e.SendReturns? || e.SendFails? || e.SkipSend?
    ensures Inv(Apply(s, e))
  {
    SkippedIsSettled(s);
    hide Inv;
    match e
    case StartSend(op) => NativeKeeps(s, op, Sending);
    case SendReturns(op) => NativeKeeps(s, op, Finished(Sent(s.native[op].rid)));
    case SendFails(op) => NativeKeeps(s, op, Finished(SendFailed));
    case SkipSend(op) => NativeKeeps(s, op, Finished(Skipped));
  }

  lemma WorkKeeps(s: State, e: Event)
    requires Inv(s) && Enabled(s, e) && (e.Prepare? || e.Enqueue? || e.Wire?)
    ensures Inv(Apply(s, e))
  {
    hide Inv;
    match e
    case Prepare(op) => NativeKeeps(s, op, Prepared);
    case Enqueue(op) => NativeKeeps(s, op, Waiting);
    case Wire(op, rid) => NativeKeeps(s, op, OnWire(rid));
  }

  lemma SkippedIsSettled(s: State)
    requires Inv(s)
    ensures forall op :: op in s.cancels ==> op in s.futures && s.futures[op] != Pending
  {
    hide Tables, EarlyOk, StonesOk, LiveOk, ResultsOk;
  }

  /** Every step keeps the four tables, the operation table and the Futures in agreement. */
  lemma StepKeepsInvariant(s: State, e: Event)
    requires Inv(s) && Enabled(s, e)
    ensures Inv(Apply(s, e))
  {
    hide Inv, Withdrawn, AfterCancel, AfterDrain, Received, Entered, Refused, Dropped;
    match e
    case Enter => EnterKeeps(s);
    case Prepare(op) => WorkKeeps(s, e);
    case Enqueue(op) => WorkKeeps(s, e);
    case Wire(op, rid) => WorkKeeps(s, e);
    case SubmitFail(op) => RefusedKeeps(s, op);
    case EnterInScan(rid, now) => EnterKeepsInScan(s, rid, now);
    case SubmitFailInScan(op, rid, now) => RefusedKeepsInScan(s, op, rid, now);
    case Drain(op, now) => DrainKeeps(s, op, now);
    case Respond(rid, response, now) => RespondKeeps(s, rid, response, now);
    case UserCancel(op) => UserCancelKeeps(s, op);
    case Terminal(op, now) =>
      if op in s.operations {
        TerminalIsCancel(s, op, now);
        CancelKeeps(s, op, now);
      }
    case CancelOne(op, now) => CancelKeeps(s, op, now);
    case Close => CloseKeeps(s);
    case Stop => StopKeeps(s);
    case ClearEarly => ClearKeeps(s, e);
    case RetireBindings => ClearKeeps(s, e);
    case _ => SendingKeeps(s, e);
  }
}
