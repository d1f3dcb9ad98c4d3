/**
 * The case fabric: the append-only event log, the caches derived from it, and the
 * durable scheduler (packages/db/src/case-events.ts, packages/engine/src/scheduler.ts).
 *
 * `Tables` is the database as a value, with one function per statement or
 * transaction. The class `Database` runs the same transactions in place.
 */
module CaseFabric {
  import opened Wrappers
  import opened StateMachine
  import opened CaseEvents
  import opened SortedIds

  type ObligationId = nat
  type Worker = nat
  type RowId = nat

  datatype ActionRef = ActionRef(actionId: string, params: string, attemptNo: nat)

  datatype ActionState = Pending | Leased | Done | Cancelled

  datatype CaseRow = CaseRow(
    obligationId: ObligationId,
    state: CaseState,
    tier: nat,
    incidentId: Option<IncidentId>,
    terminalReason: Option<string>,
    nextSeq: nat,
    openedAt: int,
    closedAt: Option<int>)

  datatype ActionRow = ActionRow(
    caseId: CaseId,
    obligationId: ObligationId,
    fireAt: int,
    actionRef: ActionRef,
    state: ActionState,
    leaseOwner: Option<Worker>,
    leaseExpiry: Option<int>,
    attempts: nat,
    settledAt: Option<int>)

  /**
   * A row of `actions` is never deleted, so its index is its serial id. `locked`
   * holds the rows a tick transaction has selected FOR UPDATE and not yet committed.
   */
  datatype Tables = Tables(
    cases: map<CaseId, CaseRow>,
    events: map<CaseId, Log>,
    revisions: map<CaseId, seq<CaseRevision>>,
    actions: seq<ActionRow>,
    locked: map<RowId, Worker>)
  {
    function EventsOf(c: CaseId): Log {
      if c in events then events[c] else []
    }

    function RevisionsOf(c: CaseId): seq<CaseRevision> {
      if c in revisions then revisions[c] else []
    }
  }

  datatype AppendError = NoSuchCase | Rejected(why: ReduceError)

  // ---- Statements ----

  predicate Outstanding(r: ActionRow) {
    r.state.Pending? || r.state.Leased?
  }

  function CancelFor(actions: seq<ActionRow>, c: CaseId, now: int): (r: seq<ActionRow>)
    ensures |r| == |actions|
  {
    seq(|actions|, i requires 0 <= i < |actions| =>
      if actions[i].caseId == c && Outstanding(actions[i])
      then actions[i].(state := ActionState.Cancelled, settledAt := Some(now), leaseOwner := None, leaseExpiry := None)
      else actions[i])
  }

  function WriteRevision(row: CaseRow, rev: CaseRevision, now: int): CaseRow {
    row.(state := rev.state, tier := rev.tier, incidentId := rev.incidentId, terminalReason := rev.terminalReason,
         closedAt := if rev.terminalReason.None? then row.closedAt else Some(now))
  }

  /** The append transaction: log, revision, case row and, on a terminal state, the schedule. */
  function AppendTo(t: Tables, c: CaseId, e: CaseEvent, source: string, now: int): Result<Tables, AppendError> {
    if c !in t.cases then Err(NoSuchCase)
    else
      var row := t.cases[c];
      var log := t.EventsOf(c) + [StoredEvent(c, row.nextSeq, e, source, now)];
      match ReduceAll(c, log)
      case Err(why) => Err(Rejected(why))
      case Ok(rev) =>
        Ok(Tables(
             t.cases[c := WriteRevision(row.(nextSeq := row.nextSeq + 1), rev, now)],
             t.events[c := log],
             t.revisions[c := t.RevisionsOf(c) + [rev]],
             if IsTerminal(rev.state) then CancelFor(t.actions, c, now) else t.actions,
             t.locked))
  }

  /** closed_at IS NULL: what the callers of the store take an open case to be. */
  predicate Live(t: Tables, c: CaseId) {
    c in t.cases && t.cases[c].closedAt.None?
  }

  /** Stopped by approval_expired and not closed since: terminal, yet closed_at is null. */
  predicate StoppedUnclosed(t: Tables, c: CaseId) {
    Live(t, c) && IsTerminal(t.cases[c].state)
  }

  function InsertCase(t: Tables, c: CaseId, o: ObligationId, now: int): Tables {
    t.(cases := t.cases[c := CaseRow(o, Detected, 0, None, None, 0, now, None)],
       events := t.events[c := []],
       revisions := t.revisions[c := []])
  }

  function InsertAction(t: Tables, c: CaseId, o: ObligationId, fireAt: int, ref: ActionRef): Tables {
    t.(actions := t.actions + [ActionRow(c, o, fireAt, ref, Pending, None, None, 0, None)])
  }

  predicate Due(r: ActionRow, now: int) {
    r.state.Pending? && r.fireAt <= now
  }

  /** ORDER BY fire_at, case_id, id */
  predicate Before(actions: seq<ActionRow>, i: RowId, j: RowId)
    requires i < |actions| && j < |actions|
  {
    var a, b := actions[i], actions[j];
    a.fireAt < b.fireAt
    || (a.fireAt == b.fireAt && (a.caseId < b.caseId || (a.caseId == b.caseId && i < j)))
  }

  ghost predicate InRange(actions: seq<ActionRow>, ids: seq<RowId>) {
    forall k :: 0 <= k < |ids| ==> ids[k] < |actions|
  }

  ghost predicate Ordered(actions: seq<ActionRow>, ids: seq<RowId>)
    requires InRange(actions, ids)
  {
    forall a, b :: 0 <= a < b < |ids| ==> Before(actions, ids[a], ids[b])
  }

  function InsertOrdered(actions: seq<ActionRow>, i: RowId, ids: seq<RowId>): (r: seq<RowId>)
    requires i < |actions| && InRange(actions, ids) && Ordered(actions, ids) && i !in ids
    ensures InRange(actions, r) && Ordered(actions, r)
    ensures |r| == |ids| + 1 && forall x :: x in r <==> x == i || x in ids
  {
    if ids == [] then [i]
    else if Before(actions, i, ids[0]) then [i] + ids
    else
      var rest := InsertOrdered(actions, i, ids[1..]);
      assert forall x :: x in ids <==> x == ids[0] || x in ids[1..];
      assert Before(actions, ids[0], i);
      assert forall x :: x in rest ==> Before(actions, ids[0], x) by {
        assert forall x :: x in ids[1..] ==> Before(actions, ids[0], x);
      }
      [ids[0]] + rest
  }

  ghost function DueSet(t: Tables, now: int): set<RowId> {
    set i: RowId | i < |t.actions| && Due(t.actions[i], now) && i !in t.locked
  }

  /** The due, unlocked rows among the first `n`, in firing order. */
  function DueAmong(t: Tables, now: int, n: nat): (r: seq<RowId>)
    requires n <= |t.actions|
    ensures InRange(t.actions, r) && Ordered(t.actions, r)
    ensures forall x :: x in r <==> x < n && x in DueSet(t, now)
  {
    if n == 0 then []
    else
      var rest := DueAmong(t, now, n - 1);
      if Due(t.actions[n - 1], now) && n - 1 !in t.locked then InsertOrdered(t.actions, n - 1, rest) else rest
  }

  lemma {:induction false} OrderedCount(actions: seq<ActionRow>, ids: seq<RowId>)
    requires InRange(actions, ids) && Ordered(actions, ids)
    ensures |Elements(ids)| == |ids|
  {
    if ids != [] {
      OrderedCount(actions, ids[1..]);
      assert forall k :: 0 < k < |ids| ==> Before(actions, ids[0], ids[k]);
      assert Elements(ids) == {ids[0]} + Elements(ids[1..]);
    }
  }

  /** What a tick may select: in firing order, the first `limit` due rows no other transaction has locked. */
  ghost predicate IsPick(t: Tables, now: int, limit: nat, ids: seq<RowId>) {
    && InRange(t.actions, ids) && Ordered(t.actions, ids)
    && Elements(ids) <= DueSet(t, now)
    && |ids| == (if |DueSet(t, now)| < limit then |DueSet(t, now)| else limit)
    && forall x, y :: x in Elements(ids) && y in DueSet(t, now) - Elements(ids) ==> Before(t.actions, x, y)
  }

  /**
   * A tick's selection in the scheduler's own terms: due, pending and unlocked rows, by
   * firing time, then case, then id; and one is passed over only once the limit is
   * reached, and only if it comes after all those taken.
   */
  lemma PickMeans(t: Tables, now: int, limit: nat, ids: seq<RowId>)
    requires IsPick(t, now, limit, ids)
    ensures |ids| <= limit
    ensures forall k :: 0 <= k < |ids| ==>
              ids[k] < |t.actions| && t.actions[ids[k]].state.Pending? && t.actions[ids[k]].fireAt <= now && ids[k] !in t.locked
    ensures forall k, l :: 0 <= k < l < |ids| ==>
              var a, b := t.actions[ids[k]], t.actions[ids[l]];
              a.fireAt <= b.fireAt && (a.fireAt == b.fireAt ==> a.caseId <= b.caseId && (a.caseId == b.caseId ==> ids[k] < ids[l]))
    ensures forall i :: 0 <= i < |t.actions| && i !in ids && t.actions[i].state.Pending? && t.actions[i].fireAt <= now && i !in t.locked ==>
              && |ids| == limit
              && forall k :: 0 <= k < |ids| ==>
                   var a, b := t.actions[ids[k]], t.actions[i];
                   a.fireAt <= b.fireAt && (a.fireAt == b.fireAt ==> a.caseId <= b.caseId && (a.caseId == b.caseId ==> ids[k] < i))
  {
    forall k | 0 <= k < |ids| ensures ids[k] in Elements(ids) && ids[k] in DueSet(t, now) {
    }
    OrderedCount(t.actions, ids);
    forall i: nat | i < |t.actions| && i !in ids && t.actions[i].state.Pending? && t.actions[i].fireAt <= now && i !in t.locked
      ensures |ids| == limit && forall k :: 0 <= k < |ids| ==> Before(t.actions, ids[k], i)
    {
      assert i in DueSet(t, now) - Elements(ids);
      assert DueSet(t, now) == (DueSet(t, now) - Elements(ids)) + Elements(ids);
    }
  }

  function Pick(t: Tables, now: int, limit: nat): (r: seq<RowId>)
    ensures IsPick(t, now, limit, r)
  {
    var all := DueAmong(t, now, |t.actions|);
    assert Elements(all) == DueSet(t, now);
    OrderedCount(t.actions, all);
    if |all| <= limit then all else all[..limit]
  }

  function LeaseRows(actions: seq<ActionRow>, ids: set<RowId>, owner: Worker, expiry: int): (r: seq<ActionRow>)
    ensures |r| == |actions|
  {
    seq(|actions|, i requires 0 <= i < |actions| =>
      if i in ids
      then actions[i].(state := Leased, leaseOwner := Some(owner), leaseExpiry := Some(expiry), attempts := actions[i].attempts + 1)
      else actions[i])
  }

  function LockedBy(t: Tables, txn: Worker): set<RowId> {
    set i | i in t.locked && t.locked[i] == txn
  }

  function Unlock(t: Tables, txn: Worker): map<RowId, Worker> {
    map i | i in t.locked && t.locked[i] != txn :: t.locked[i]
  }

  function LockRows(t: Tables, txn: Worker, ids: set<RowId>): Tables {
    t.(locked := t.locked + map i | i in ids :: txn)
  }

  function TickCommit(t: Tables, txn: Worker, owner: Worker, expiry: int): Tables {
    t.(actions := LeaseRows(t.actions, LockedBy(t, txn), owner, expiry), locked := Unlock(t, txn))
  }

  /** `complete`: guarded by the leased state and by nothing else, not even the owner. */
  function CompleteRow(t: Tables, id: RowId, now: int): Tables {
    if id < |t.actions| && t.actions[id].state.Leased? then
      t.(actions := t.actions[id := t.actions[id].(state := Done, settledAt := Some(now), leaseOwner := None, leaseExpiry := None)])
    else t
  }

  function Returned(r: ActionRow): ActionRow {
    r.(state := Pending, leaseOwner := None, leaseExpiry := None)
  }

  function ReleaseRow(t: Tables, id: RowId): Tables {
    if id < |t.actions| && t.actions[id].state.Leased? then t.(actions := t.actions[id := Returned(t.actions[id])])
    else t
  }

  predicate Expired(r: ActionRow, now: int) {
    r.state.Leased? && r.leaseExpiry.Some? && r.leaseExpiry.value <= now
  }

  function Reclaim(t: Tables, now: int): Tables {
    t.(actions := seq(|t.actions|, i requires 0 <= i < |t.actions| =>
                    if Expired(t.actions[i], now) then Returned(t.actions[i]) else t.actions[i]))
  }

  // ---- Runs: any interleaving of the transactions above ----

  datatype Op =
    | Open(c: CaseId, o: ObligationId, now: int)
    | Append(c: CaseId, e: CaseEvent, source: string, now: int)
    | RecordDiagnosis(c: CaseId, tier: nat)
    | Schedule(c: CaseId, fireAt: int, ref: ActionRef)
    | BeginTick(txn: Worker, now: int, limit: nat, picked: seq<RowId>)
    | CommitTick(txn: Worker, owner: Worker, expiry: int)
    | AbortTick(txn: Worker)
    | Complete(id: RowId, now: int)
    | Release(id: RowId)
    | ReclaimExpired(now: int)
    | CancelForCase(c: CaseId, now: int)

  predicate CaseLocked(t: Tables, c: CaseId) {
    exists i :: i in t.locked && i < |t.actions| && t.actions[i].caseId == c
  }

  /**
   * When an operation can run. `schedule` itself does not look at the case; its
   * callers schedule for open cases only. An UPDATE that meets a row another
   * transaction has selected FOR UPDATE waits, so it runs when the row is free.
   */
  ghost predicate Enabled(t: Tables, op: Op) {
    match op
    case Open(c, _, _) => c !in t.cases
    case Append(c, e, source, now) =>
      var r := AppendTo(t, c, e, source, now);
      r.Ok? && (IsTerminal(r.value.cases[c].state) ==> !CaseLocked(t, c))
    case RecordDiagnosis(c, _) => c in t.cases
    case Schedule(c, _, _) => c in t.cases && !IsTerminal(t.cases[c].state)
    case BeginTick(txn, now, limit, picked) => txn !in t.locked.Values && IsPick(t, now, limit, picked)
    case CancelForCase(c, _) => !CaseLocked(t, c)
    case _ => true
  }

  ghost function Apply(t: Tables, op: Op): Tables {
    if !Enabled(t, op) then t
    else
      match op
      case Open(c, o, now) => InsertCase(t, c, o, now)
      case Append(c, e, source, now) => AppendTo(t, c, e, source, now).value
      case RecordDiagnosis(c, tier) => t.(cases := t.cases[c := t.cases[c].(tier := tier)])
      case Schedule(c, fireAt, ref) => InsertAction(t, c, t.cases[c].obligationId, fireAt, ref)
      case BeginTick(txn, _, _, picked) => LockRows(t, txn, Elements(picked))
      case CommitTick(txn, owner, expiry) => TickCommit(t, txn, owner, expiry)
      case AbortTick(txn) => t.(locked := Unlock(t, txn))
      case Complete(id, now) => CompleteRow(t, id, now)
      case Release(id) => ReleaseRow(t, id)
      case ReclaimExpired(now) => Reclaim(t, now)
      case CancelForCase(c, now) => t.(actions := CancelFor(t.actions, c, now))
  }

  ghost function Run(t: Tables, ops: seq<Op>): Tables
    decreases |ops|
  {
    if ops == [] then t else Run(Apply(t, ops[0]), ops[1..])
  }

  const EMPTY := Tables(map[], map[], map[], [], map[])
}
