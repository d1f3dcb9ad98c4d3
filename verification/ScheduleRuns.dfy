/** What every run of the case fabric guarantees about the log, its caches and the schedule. */
module ScheduleRuns {
  import opened Wrappers
  import opened StateMachine
  import opened CaseEvents
  import opened CaseFabric
  import opened FabricInvariant
  import opened SortedIds

  // ---- The log and its caches ----

  /** Replaying any prefix of a stored log gives the revision that was stored when it was appended. */
  lemma StoredRevisionsAreReplays(ops: seq<Op>, c: CaseId, k: nat)
    requires c in Run(EMPTY, ops).cases && k <= Run(EMPTY, ops).cases[c].nextSeq
    ensures var t := Run(EMPTY, ops);
            && |t.EventsOf(c)| == |t.RevisionsOf(c)| == t.cases[c].nextSeq
            && ReduceAll(c, t.EventsOf(c)[..k]) ==
               Ok(if k == 0 then InitialRevision(c) else t.RevisionsOf(c)[k - 1])
            && (k > 0 ==> t.EventsOf(c)[k - 1].seqNo == k - 1)
  {
    ReachableInv(ops);
    var t := Run(EMPTY, ops);
    assert CaseCached(t.cases[c], c, t.events[c], t.revisions[c]);
  }

  /** `closed_at` follows the reason, not the state: approval_expired stops a case and leaves it unset. */
  lemma ClosedAtFollowsReason(t: Tables, c: CaseId)
    requires Inv(t) && c in t.cases
    ensures t.cases[c].closedAt.Some? <==> !NoTerminalEvent(t.events[c])
    ensures IsTerminal(t.cases[c].state) <==> !NoStoppingEvent(t.events[c])
    ensures t.cases[c].closedAt.Some? ==> IsTerminal(t.cases[c].state)
  {
    assert CaseCached(t.cases[c], c, t.events[c], t.revisions[c]);
    RevisionIsAQuery(c, t.events[c]);
    if i :| 0 <= i < |t.events[c]| && t.events[c][i].event.TerminalReached? {
      assert Stops(t.events[c][i].event);
    }
  }

  /** Evidence that arrives after the close is stored, and moves `closed_at` to its own time. */
  lemma LateEvidenceMovesClosedAt(t: Tables, c: CaseId, kind: EvidenceKind, id: string, source: string, now: int)
    requires Inv(t) && c in t.cases && t.cases[c].closedAt.Some?
    ensures var r := AppendTo(t, c, EvidenceAdded(kind, id), source, now);
            r.Ok? && r.value.cases[c].closedAt == Some(now) && r.value.cases[c].state == t.cases[c].state
  {
    assert CaseCached(t.cases[c], c, t.events[c], t.revisions[c]);
    AppendSucceedsIff(t, c, EvidenceAdded(kind, id), source, now);
    AppendEffect(t, c, EvidenceAdded(kind, id), source, now);
  }

  /** A second terminal event with the same state is accepted and replaces the reason; any other state is refused. */
  lemma SecondTerminal(t: Tables, c: CaseId, e: CaseEvent, source: string, now: int)
    requires CachesValid(t) && c in t.cases && IsTerminal(t.cases[c].state) && e.TerminalReached?
    ensures AppendTo(t, c, e, source, now).Ok? <==> e.state == t.cases[c].state
    ensures AppendTo(t, c, e, source, now).Ok? ==> AppendTo(t, c, e, source, now).value.cases[c].terminalReason == Some(e.reason)
  {
    AppendSucceedsIff(t, c, e, source, now);
    if AppendTo(t, c, e, source, now).Ok? {
      AppendEffect(t, c, e, source, now);
    }
  }

  // ---- Closed cases ----

  lemma ApplyKeepsState(t: Tables, op: Op, c: CaseId)
    requires Inv(t) && c in t.cases && IsTerminal(t.cases[c].state)
    ensures c in Apply(t, op).cases && Apply(t, op).cases[c].state == t.cases[c].state
  {
    if Enabled(t, op) {
      match op
      case Append(d, e, source, now) =>
        AppendSucceedsIff(t, d, e, source, now);
        AppendEffect(t, d, e, source, now);
      case Open(_, _, _) =>
      case RecordDiagnosis(_, _) =>
      case _ => ScheduleFrame(t, op);
    }
  }

  /** The rows an operation gives to a worker. */
  function Handed(t: Tables, op: Op): set<RowId> {
    if op.CommitTick? then LockedBy(t, op.txn) else {}
  }

  /** The rows given out anywhere along a run. */
  ghost function HandedAlong(t: Tables, ops: seq<Op>): set<RowId>
    decreases |ops|
  {
    if ops == [] then {} else Handed(t, ops[0]) + HandedAlong(Apply(t, ops[0]), ops[1..])
  }

  ghost predicate Quiet(t: Tables, c: CaseId) {
    forall i :: 0 <= i < |t.actions| && t.actions[i].caseId == c ==> !Outstanding(t.actions[i])
  }

  lemma ClosedIsQuiet(t: Tables, c: CaseId)
    requires Inv(t) && c in t.cases && IsTerminal(t.cases[c].state)
    ensures Quiet(t, c)
  {
    forall i | 0 <= i < |t.actions| && t.actions[i].caseId == c ensures !Outstanding(t.actions[i]) {
      assert RowValid(t.cases, t.actions[i]);
    }
  }

  lemma HandedIsOpen(t: Tables, op: Op, i: RowId)
    requires Inv(t) && i in Handed(t, op)
    ensures i < |t.actions| && t.actions[i].caseId in t.cases && !IsTerminal(t.cases[t.actions[i].caseId].state)
  {
    assert RowValid(t.cases, t.actions[i]);
  }

  /**
   * Once a case is closed it stays in that state, none of its rows is pending or
   * leased in any later database, and no tick ever gives out a row of that case.
   */
  lemma {:induction false} ClosedForGood(t: Tables, ops: seq<Op>, c: CaseId)
    requires Inv(t) && c in t.cases && IsTerminal(t.cases[c].state)
    ensures c in Run(t, ops).cases && Run(t, ops).cases[c].state == t.cases[c].state
    ensures Quiet(Run(t, ops), c)
    ensures forall i :: i in HandedAlong(t, ops) && i < |Run(t, ops).actions| ==> Run(t, ops).actions[i].caseId != c
    decreases |ops|
  {
    ClosedIsQuiet(t, c);
    if ops != [] {
      var t' := Apply(t, ops[0]);
      ApplyKeepsInv(t, ops[0]);
      ApplyKeepsState(t, ops[0], c);
      ClosedForGood(t', ops[1..], c);
      ApplyStepsRows(t, ops[0]);
      RunStepsRows(t', ops[1..]);
      forall i | i in Handed(t, ops[0]) ensures Run(t, ops).actions[i].caseId != c {
        HandedIsOpen(t, ops[0], i);
        assert RowStep(t.actions[i], t'.actions[i]) && RowStep(t'.actions[i], Run(t', ops[1..]).actions[i]);
      }
    }
  }

  // ---- Rows ----

  /** Over a whole run a row keeps its identity, and a settled row (done or cancelled) never changes again. */
  lemma {:induction false} RunStepsRows(t: Tables, ops: seq<Op>)
    requires Inv(t)
    ensures RowsStep(t.actions, Run(t, ops).actions)
    decreases |ops|
  {
    if ops == [] {
      SameRowsStep(t);
    } else {
      var t' := Apply(t, ops[0]);
      ApplyStepsRows(t, ops[0]);
      ApplyKeepsInv(t, ops[0]);
      RunStepsRows(t', ops[1..]);
      forall i | 0 <= i < |t.actions| ensures RowStep(t.actions[i], Run(t, ops).actions[i]) {
        assert RowStep(t.actions[i], t'.actions[i]) && RowStep(t'.actions[i], Run(t', ops[1..]).actions[i]);
      }
    }
  }

  /** How often a row was given to a worker along a run. */
  ghost function LeaseCount(t: Tables, ops: seq<Op>, i: RowId): nat
    decreases |ops|
  {
    if ops == [] then 0
    else (if i in Handed(t, ops[0]) then 1 else 0) + LeaseCount(Apply(t, ops[0]), ops[1..], i)
  }

  lemma ApplyCounts(t: Tables, op: Op, i: RowId)
    requires Inv(t) && i < |t.actions|
    ensures i < |Apply(t, op).actions|
    ensures Apply(t, op).actions[i].attempts == t.actions[i].attempts + if i in Handed(t, op) then 1 else 0
  {
    if OnSchedule(op) {
      ScheduleFrame(t, op);
    }
  }

  /** `attempts` counts the leases: reclaiming or releasing a row does not reset it. */
  lemma {:induction false} AttemptsCountLeases(t: Tables, ops: seq<Op>, i: RowId)
    requires Inv(t) && i < |t.actions|
    ensures i < |Run(t, ops).actions|
    ensures Run(t, ops).actions[i].attempts == t.actions[i].attempts + LeaseCount(t, ops, i)
    decreases |ops|
  {
    if ops != [] {
      ApplyCounts(t, ops[0], i);
      ApplyKeepsInv(t, ops[0]);
      AttemptsCountLeases(Apply(t, ops[0]), ops[1..], i);
    }
  }

  /** The two operations that put a leased row back. */
  predicate GivesBack(op: Op, i: RowId, expiry: int) {
    (op.Release? && op.id == i) || (op.ReclaimExpired? && expiry <= op.now)
  }

  ghost predicate LeasedOrSettled(t: Tables, i: RowId, expiry: int) {
    && i < |t.actions|
    && (Outstanding(t.actions[i]) ==> t.actions[i].state.Leased? && t.actions[i].leaseExpiry == Some(expiry))
  }

  lemma CommitLeavesLeased(t: Tables, txn: Worker, owner: Worker, e: int, i: RowId, expiry: int)
    requires LocksValid(t) && LeasedOrSettled(t, i, expiry)
    ensures i !in LockedBy(t, txn) && LeasedOrSettled(TickCommit(t, txn, owner, e), i, expiry)
  {
  }

  lemma CancelLeavesLeased(t: Tables, c: CaseId, now: int, i: RowId, expiry: int)
    requires LeasedOrSettled(t, i, expiry)
    ensures LeasedOrSettled(t.(actions := CancelFor(t.actions, c, now)), i, expiry)
  {
  }

  lemma SettlingLeavesLeased(t: Tables, id: RowId, now: int, i: RowId, expiry: int)
    requires LeasedOrSettled(t, i, expiry)
    ensures LeasedOrSettled(CompleteRow(t, id, now), i, expiry)
    ensures id != i ==> LeasedOrSettled(ReleaseRow(t, id), i, expiry)
    ensures now < expiry ==> LeasedOrSettled(Reclaim(t, now), i, expiry)
  {
  }

  /** A leased row becomes pending again by its release, by a reclaim at or past its expiry, and by nothing else. */
  lemma PendingAgainIff(t: Tables, op: Op, i: RowId)
    requires Inv(t) && i < |t.actions| && t.actions[i].state.Leased? && t.actions[i].leaseExpiry.Some?
    ensures i < |Apply(t, op).actions|
    ensures Apply(t, op).actions[i].state.Pending? <==>
            (op.Release? && op.id == i) || (op.ReclaimExpired? && t.actions[i].leaseExpiry.value <= op.now)
  {
    hide Inv;
    ApplyStepsRows(t, op);
    var expiry := t.actions[i].leaseExpiry.value;
    if !GivesBack(op, i, expiry) {
      LocksOk(t);
      StaysLeased(t, op, i, expiry);
    } else {
      GivenBack(t, op, i);
    }
  }

  lemma LocksOk(t: Tables)
    requires Inv(t)
    ensures LocksValid(t)
  {
  }

  lemma GivenBack(t: Tables, op: Op, i: RowId)
    requires i < |t.actions| && t.actions[i].state.Leased? && t.actions[i].leaseExpiry.Some?
    requires GivesBack(op, i, t.actions[i].leaseExpiry.value)
    ensures i < |Apply(t, op).actions| && Apply(t, op).actions[i].state.Pending?
  {
  }

  lemma StaysLeased(t: Tables, op: Op, i: RowId, expiry: int)
    requires LocksValid(t) && LeasedOrSettled(t, i, expiry) && !GivesBack(op, i, expiry)
    ensures i !in Handed(t, op) && LeasedOrSettled(Apply(t, op), i, expiry)
  {
    match op
    case CommitTick(txn, owner, e) => CommitLeavesLeased(t, txn, owner, e, i, expiry);
    case Append(c, _, _, now) => CancelLeavesLeased(t, c, now, i, expiry);
    case CancelForCase(c, now) => CancelLeavesLeased(t, c, now, i, expiry);
    case Complete(id, now) => SettlingLeavesLeased(t, id, now, i, expiry);
    case Release(id) => SettlingLeavesLeased(t, id, 0, i, expiry);
    case ReclaimExpired(now) => SettlingLeavesLeased(t, i, now, i, expiry);
    case _ =>
  }

  /** A leased row is not given out again until it is released, or reclaimed at or after its expiry. */
  lemma {:induction false} NoSecondLease(t: Tables, ops: seq<Op>, i: RowId, expiry: int)
    requires Inv(t) && i < |t.actions| && t.actions[i].state.Leased? && t.actions[i].leaseExpiry == Some(expiry)
    requires forall k :: 0 <= k < |ops| ==> !GivesBack(ops[k], i, expiry)
    ensures i !in HandedAlong(t, ops)
  {
    NotHanded(t, ops, i, expiry);
  }

  lemma {:induction false} NotHanded(t: Tables, ops: seq<Op>, i: RowId, expiry: int)
    requires Inv(t) && LeasedOrSettled(t, i, expiry)
    requires forall k :: 0 <= k < |ops| ==> !GivesBack(ops[k], i, expiry)
    ensures i !in HandedAlong(t, ops)
    decreases |ops|
  {
    if ops != [] {
      StaysLeased(t, ops[0], i, expiry);
      ApplyKeepsInv(t, ops[0]);
      NotHanded(Apply(t, ops[0]), ops[1..], i, expiry);
    }
  }

  // ---- Ticks ----

  lemma LockingRows(t: Tables, txn: Worker, ids: set<RowId>, now: int)
    requires txn !in t.locked.Values && ids <= DueSet(t, now)
    ensures var t1 := LockRows(t, txn, ids);
            && LockedBy(t1, txn) == ids
            && (forall b :: b != txn ==> LockedBy(t1, b) == LockedBy(t, b))
            && DueSet(t1, now) == DueSet(t, now) - ids
            && Unlock(t1, txn) == t.locked
  {
  }

  /**
   * Two ticks in flight at once take disjoint rows, whatever their clocks and limits:
   * the second, the first due rows the first has not locked, all of which come after.
   */
  lemma ConcurrentTicksSplit(t: Tables, a: Worker, p: seq<RowId>, now: int, limit: nat,
                             b: Worker, q: seq<RowId>, later: int, limit': nat)
    requires a != b && Enabled(t, BeginTick(a, now, limit, p))
    requires Enabled(Apply(t, BeginTick(a, now, limit, p)), BeginTick(b, later, limit', q)) && b !in t.locked.Values
    ensures var t2 := Apply(Apply(t, BeginTick(a, now, limit, p)), BeginTick(b, later, limit', q));
            && LockedBy(t2, a) == Elements(p) && LockedBy(t2, b) == Elements(q)
            && Elements(p) !! Elements(q)
            && (forall x, y :: x in Elements(p) && y in Elements(q) ==> Before(t.actions, x, y))
  {
    var t1 := LockRows(t, a, Elements(p));
    LockingRows(t, a, Elements(p), now);
    LockingRows(t1, b, Elements(q), later);
    forall x, y | x in Elements(p) && y in Elements(q) ensures Before(t.actions, x, y) {
      assert y in DueSet(t1, later) && x in DueSet(t, now);
      assert y in DueSet(t, now) ==> y in DueSet(t, now) - Elements(p);
    }
  }

  lemma LeasingEmptiesDue(t: Tables, txn: Worker, owner: Worker, now: int, ids: set<RowId>, expiry: int)
    requires txn !in t.locked.Values && ids <= DueSet(t, now)
    ensures var t' := TickCommit(LockRows(t, txn, ids), txn, owner, expiry);
            && t'.locked == t.locked && DueSet(t', now) == DueSet(t, now) - ids
            && t'.actions == LeaseRows(t.actions, ids, owner, expiry)
  {
    LockingRows(t, txn, ids, now);
  }

  /** A tick with nothing between its select and its commit. */
  function WholeTick(txn: Worker, owner: Worker, now: int, limit: nat, picked: seq<RowId>, expiry: int): seq<Op> {
    [BeginTick(txn, now, limit, picked), CommitTick(txn, owner, expiry)]
  }

  lemma RunOfTwo(t: Tables, a: Op, b: Op)
    ensures Run(t, [a, b]) == Apply(Apply(t, a), b)
  {
    assert [a, b][1..] == [b];
    assert Run(Apply(t, a), [b]) == Run(Apply(Apply(t, a), b), [b][1..]);
  }

  lemma PickedCount(t: Tables, now: int, limit: nat, picked: seq<RowId>)
    requires IsPick(t, now, limit, picked)
    ensures |DueSet(t, now) - Elements(picked)| == if |DueSet(t, now)| < limit then 0 else |DueSet(t, now)| - limit
  {
    OrderedCount(t.actions, picked);
    var due := DueSet(t, now);
    assert due == (due - Elements(picked)) + Elements(picked);
  }

  lemma WholeTickTables(t: Tables, txn: Worker, owner: Worker, now: int, limit: nat, picked: seq<RowId>, expiry: int)
    requires Enabled(t, BeginTick(txn, now, limit, picked))
    ensures Run(t, WholeTick(txn, owner, now, limit, picked, expiry)) == TickCommit(LockRows(t, txn, Elements(picked)), txn, owner, expiry)
  {
    hide TickCommit, LockRows, IsPick, Run;
    RunOfTwo(t, BeginTick(txn, now, limit, picked), CommitTick(txn, owner, expiry));
  }

  lemma WholeTickTakesLimit(t: Tables, t': Tables, txn: Worker, owner: Worker, now: int, limit: nat, picked: seq<RowId>, expiry: int)
    requires Enabled(t, BeginTick(txn, now, limit, picked))
    requires t' == Run(t, WholeTick(txn, owner, now, limit, picked, expiry))
    ensures t'.actions == LeaseRows(t.actions, Elements(picked), owner, expiry) && t'.locked == t.locked
    ensures DueSet(t', now) == DueSet(t, now) - Elements(picked)
    ensures |DueSet(t', now)| == if |DueSet(t, now)| < limit then 0 else |DueSet(t, now)| - limit
  {
    WholeTickTables(t, txn, owner, now, limit, picked, expiry);
    LeasingEmptiesDue(t, txn, owner, now, Elements(picked), expiry);
    PickedCount(t, now, limit, picked);
  }

  function Left(due: nat, limit: nat, n: nat): nat {
    if due < n * limit then 0 else due - n * limit
  }

  lemma LeftStep(due: nat, limit: nat, n: nat)
    requires n > 0
    ensures Left(due, limit, n) == var before := Left(due, limit, n - 1); if before < limit then 0 else before - limit
  {
  }

  /** Tables after each of a sequence of ticks, nothing else running. */
  ghost predicate TickChain(ts: seq<Tables>, now: int, limit: nat) {
    forall k :: 0 <= k < |ts| - 1 ==> OneTick(ts[k], ts[k + 1], now, limit)
  }

  ghost predicate OneTick(t: Tables, t': Tables, now: int, limit: nat) {
    exists txn: Worker, owner: Worker, picked: seq<RowId>, expiry: int ::
      Enabled(t, BeginTick(txn, now, limit, picked)) && t' == Run(t, WholeTick(txn, owner, now, limit, picked, expiry))
  }

  lemma OneTickTakesLimit(t: Tables, t': Tables, now: int, limit: nat)
    requires OneTick(t, t', now, limit)
    ensures |DueSet(t', now)| == if |DueSet(t, now)| < limit then 0 else |DueSet(t, now)| - limit
  {
    var txn, owner, picked, expiry :|
      Enabled(t, BeginTick(txn, now, limit, picked)) && t' == Run(t, WholeTick(txn, owner, now, limit, picked, expiry));
    WholeTickTakesLimit(t, t', txn, owner, now, limit, picked, expiry);
  }

  /** With no new rows, n ticks lease the first n * limit due rows, so the due set drains. */
  lemma {:induction false} TicksDrain(ts: seq<Tables>, now: int, limit: nat, n: nat)
    requires n < |ts| && TickChain(ts, now, limit)
    ensures |DueSet(ts[n], now)| == Left(|DueSet(ts[0], now)|, limit, n)
  {
    if n == 0 {
    } else {
      TicksDrain(ts, now, limit, n - 1);
      assert OneTick(ts[n - 1], ts[n - 1 + 1], now, limit);
      OneTickTakesLimit(ts[n - 1], ts[n], now, limit);
      LeftStep(|DueSet(ts[0], now)|, limit, n);
    }
  }

  // ---- Completing ----

  lemma HandedIsPending(t: Tables, op: Op, i: RowId)
    requires Inv(t) && i in Handed(t, op)
    ensures i < |t.actions| && t.actions[i].state.Pending?
  {
  }

  lemma {:induction false} SettledIsNeverHanded(t: Tables, ops: seq<Op>, i: RowId)
    requires Inv(t) && i < |t.actions| && !Outstanding(t.actions[i])
    ensures i !in HandedAlong(t, ops) && i < |Run(t, ops).actions| && Run(t, ops).actions[i] == t.actions[i]
    decreases |ops|
  {
    hide Inv, Apply;
    if ops != [] {
      ApplyStepsRows(t, ops[0]);
      ApplyKeepsInv(t, ops[0]);
      if i in Handed(t, ops[0]) {
        HandedIsPending(t, ops[0], i);
        assert false;
      }
      SettledIsNeverHanded(Apply(t, ops[0]), ops[1..], i);
    }
  }

  /**
   * A leased row that is completed is done, at that time, and stays so over every later
   * run: no release, reclaim or tick brings the executed action back.
   */
  lemma CompletedIsNeverHandedOut(t: Tables, id: RowId, now: int, ops: seq<Op>)
    requires Inv(t) && id < |t.actions| && t.actions[id].state.Leased?
    ensures var t1 := Apply(t, Complete(id, now));
            && id !in HandedAlong(t1, ops) && id < |Run(t1, ops).actions|
            && Run(t1, ops).actions[id].state.Done? && Run(t1, ops).actions[id].settledAt == Some(now)
  {
    var t1 := Apply(t, Complete(id, now));
    ApplyKeepsInv(t, Complete(id, now));
    SettledIsNeverHanded(t1, ops, id);
  }

  // ---- The runner's ordinary step ----

  lemma AppendMoves(t: Tables, c: CaseId, e: CaseEvent, source: string, now: int)
    requires CachesValid(t) && c in t.cases && CanTransition(t.cases[c].state, TargetState(e, t.cases[c].state))
    ensures var r := AppendTo(t, c, e, source, now);
            && r.Ok? && CachesValid(r.value) && c in r.value.cases
            && r.value.cases[c].state == TargetState(e, t.cases[c].state)
  {
    AppendSucceedsIff(t, c, e, source, now);
    AppendEffect(t, c, e, source, now);
    AppendKeepsCaches(t, c, e, source, now);
  }

  /** A scheduled case is approved, acts and is scheduled again, and none of the three events is refused. */
  lemma ScheduledCaseActs(t: Tables, c: CaseId, approved: CaseEvent, executed: CaseEvent, scheduled: CaseEvent, source: string, now: int)
    requires CachesValid(t) && c in t.cases && t.cases[c].state.Scheduled?
    requires approved.ApprovalGranted? && executed.ActionExecuted? && scheduled.ActionScheduled?
    ensures var r1 := AppendTo(t, c, approved, source, now);
            && r1.Ok? && r1.value.cases[c].state.Executing?
            && var r2 := AppendTo(r1.value, c, executed, source, now);
               && r2.Ok? && r2.value.cases[c].state.Observing?
               && var r3 := AppendTo(r2.value, c, scheduled, source, now);
                  r3.Ok? && r3.value.cases[c].state.Scheduled?
  {
    hide AppendTo, CachesValid;
    AppendMoves(t, c, approved, source, now);
    var t1 := AppendTo(t, c, approved, source, now).value;
    AppendMoves(t1, c, executed, source, now);
    AppendMoves(AppendTo(t1, c, executed, source, now).value, c, scheduled, source, now);
  }

  // ---- Where the callers' guards matter ----

  /**
   * `schedule` does not look at the case. Into a sound database it may insert exactly
   * for the cases that are not terminal; the guard is its callers'.
   */
  lemma ScheduleIsSoundIff(t: Tables, c: CaseId, o: ObligationId, fireAt: int, ref: ActionRef)
    requires Inv(t) && c in t.cases
    ensures Inv(InsertAction(t, c, o, fireAt, ref)) <==> !IsTerminal(t.cases[c].state)
  {
    var t' := InsertAction(t, c, o, fireAt, ref);
    assert t'.actions[|t.actions|].caseId == c && Outstanding(t'.actions[|t.actions|]);
    if IsTerminal(t.cases[c].state) {
      assert !RowValid(t'.cases, t'.actions[|t.actions|]);
    } else {
      forall i | 0 <= i < |t'.actions| ensures RowValid(t'.cases, t'.actions[i]) {
        assert i < |t.actions| ==> RowValid(t.cases, t.actions[i]);
      }
    }
  }

  /** And a row that was inserted for a closed case is handed out by any tick that picks it, as any due row is. */
  lemma UnguardedScheduleIsHandedOut(t: Tables, c: CaseId, o: ObligationId, fireAt: int, ref: ActionRef,
                                     txn: Worker, owner: Worker, now: int, limit: nat, picked: seq<RowId>, expiry: int)
    requires Enabled(InsertAction(t, c, o, fireAt, ref), BeginTick(txn, now, limit, picked))
    ensures var t1 := InsertAction(t, c, o, fireAt, ref);
            |t.actions| in HandedAlong(t1, WholeTick(txn, owner, now, limit, picked, expiry)) <==> |t.actions| in picked
    ensures fireAt <= now && |t.actions| !in t.locked && |DueSet(InsertAction(t, c, o, fireAt, ref), now)| <= limit ==> |t.actions| in picked
  {
    hide TickCommit, InsertOrdered;
    var n, t1 := |t.actions|, InsertAction(t, c, o, fireAt, ref);
    LockingRows(t1, txn, Elements(picked), now);
    var ops := WholeTick(txn, owner, now, limit, picked, expiry);
    var t2 := Apply(t1, ops[0]);
    assert t2 == LockRows(t1, txn, Elements(picked));
    assert HandedAlong(t1, ops) == Handed(t1, ops[0]) + HandedAlong(t2, [ops[1]]);
    assert HandedAlong(t2, [ops[1]]) == Handed(t2, ops[1]) + HandedAlong(Apply(t2, ops[1]), []);
    if |DueSet(t1, now)| <= limit {
      PickTakesAll(t1, now, limit, picked);
    }
  }

  lemma PickTakesAll(t: Tables, now: int, limit: nat, picked: seq<RowId>)
    requires IsPick(t, now, limit, picked) && |DueSet(t, now)| <= limit
    ensures Elements(picked) == DueSet(t, now)
  {
    PickedCount(t, now, limit, picked);
    assert DueSet(t, now) - Elements(picked) == {};
  }

  /**
   * The duplicate-attempt branch schedules the next step while the case is still
   * executing: the row is inserted, and the event that should record it is refused.
   */
  lemma DuplicateBranchStrandsARow(t: Tables, t1: Tables, c: CaseId, fireAt: int, ref: ActionRef, e: CaseEvent, source: string, now: int)
    requires CachesValid(t) && c in t.cases && t.cases[c].state.Executing? && e.ActionScheduled?
    requires t1 == InsertAction(t, c, t.cases[c].obligationId, fireAt, ref)
    ensures |t1.actions| == |t.actions| + 1 && Due(t1.actions[|t.actions|], fireAt)
    ensures AppendTo(t1, c, e, source, now).Err?
  {
    RefusedWhileExecuting(t1, c, e, source, now);
  }

  lemma RefusedWhileExecuting(t: Tables, c: CaseId, e: CaseEvent, source: string, now: int)
    requires CachesValid(t) && c in t.cases && t.cases[c].state.Executing? && e.ActionScheduled?
    ensures AppendTo(t, c, e, source, now).Err?
  {
    AppendSucceedsIff(t, c, e, source, now);
  }
}
