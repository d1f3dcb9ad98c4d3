/** What every run of the fabric keeps: the caches agree with the log, and closed cases have no outstanding work. */
module FabricInvariant {
  import opened Wrappers
  import opened StateMachine
  import opened CaseEvents
  import opened SortedIds
  import opened CaseFabric

  /** The case row and the stored revisions are caches of the fold over the log. */
  ghost predicate CaseCached(row: CaseRow, c: CaseId, log: Log, revs: seq<CaseRevision>) {
    && row.nextSeq == |log| == |revs|
    && (forall k :: 0 <= k < |log| ==> log[k].seqNo == k && log[k].caseId == c)
    && (forall k :: 0 <= k < |revs| ==> ReduceAll(c, log[..k + 1]) == Ok(revs[k]))
    && ReduceAll(c, log).Ok?
    && var now := ReduceAll(c, log).value;
       && row.state == now.state && row.incidentId == now.incidentId && row.terminalReason == now.terminalReason
       && (row.closedAt.Some? <==> row.terminalReason.Some?)
  }

  ghost predicate CachesValid(t: Tables) {
    && t.cases.Keys == t.events.Keys == t.revisions.Keys
    && forall c {:trigger CaseCached(t.cases[c], c, t.events[c], t.revisions[c])} ::
         c in t.cases ==> CaseCached(t.cases[c], c, t.events[c], t.revisions[c])
  }

  /** No closed case has outstanding work. */
  ghost predicate RowValid(cases: map<CaseId, CaseRow>, r: ActionRow) {
    && r.caseId in cases
    && (Outstanding(r) ==> !IsTerminal(cases[r.caseId].state))
    && (r.state.Leased? <==> r.leaseExpiry.Some?)
  }

  ghost predicate RowsValid(t: Tables) {
    forall i {:trigger RowValid(t.cases, t.actions[i])} :: 0 <= i < |t.actions| ==> RowValid(t.cases, t.actions[i])
  }

  ghost predicate LocksValid(t: Tables) {
    forall i :: i in t.locked ==> i < |t.actions| && t.actions[i].state.Pending?
  }

  ghost predicate Inv(t: Tables) {
    CachesValid(t) && RowsValid(t) && LocksValid(t)
  }

  lemma CachedAppend(row: CaseRow, c: CaseId, log: Log, revs: seq<CaseRevision>, e: StoredEvent, now: int)
    requires CaseCached(row, c, log, revs) && e.caseId == c && e.seqNo == row.nextSeq
    requires ReduceAll(c, log + [e]).Ok?
    ensures var rev := ReduceAll(c, log + [e]).value;
            CaseCached(WriteRevision(row.(nextSeq := row.nextSeq + 1), rev, now), c, log + [e], revs + [rev])
  {
    var log', revs' := log + [e], revs + [ReduceAll(c, log + [e]).value];
    assert log'[..|log'| - 1] == log;
    forall k | 0 <= k < |revs'| ensures ReduceAll(c, log'[..k + 1]) == Ok(revs'[k]) {
      if k < |revs| {
        assert log'[..k + 1] == log[..k + 1];
      } else {
        assert log'[..k + 1] == log';
      }
    }
  }

  /** With the caches right, the store's answer depends on one thing: the transition from the row's own state. */
  lemma AppendSucceedsIff(t: Tables, c: CaseId, e: CaseEvent, source: string, now: int)
    requires CachesValid(t)
    ensures AppendTo(t, c, e, source, now).Ok? <==>
            c in t.cases && CanTransition(t.cases[c].state, TargetState(e, t.cases[c].state))
  {
    if c in t.cases {
      AppendReduces(t, c, e, source, now);
    }
  }

  lemma AppendReduces(t: Tables, c: CaseId, e: CaseEvent, source: string, now: int)
    requires CachesValid(t) && c in t.cases
    ensures var stored := StoredEvent(c, t.cases[c].nextSeq, e, source, now);
            && ReduceAll(c, t.events[c]).Ok?
            && ReduceAll(c, t.events[c] + [stored]) == Reduce(ReduceAll(c, t.events[c]).value, stored)
            && t.cases[c].nextSeq == ReduceAll(c, t.events[c]).value.reducedThroughSeq + 1
            && ReduceAll(c, t.events[c]).value.state == t.cases[c].state
            && ReduceAll(c, t.events[c]).value.incidentId == t.cases[c].incidentId
            && ReduceAll(c, t.events[c]).value.terminalReason == t.cases[c].terminalReason
  {
    var log := t.events[c];
    assert CaseCached(t.cases[c], c, log, t.revisions[c]);
    var log' := log + [StoredEvent(c, t.cases[c].nextSeq, e, source, now)];
    assert log'[..|log'| - 1] == log;
    Counters(c, log);
  }

  /** What a successful append does to the case row, said without the log. */
  lemma AppendEffect(t: Tables, c: CaseId, e: CaseEvent, source: string, now: int)
    requires CachesValid(t) && AppendTo(t, c, e, source, now).Ok?
    ensures var t' := AppendTo(t, c, e, source, now).value;
            && t'.cases.Keys == t.cases.Keys
            && (forall d :: d in t.cases && d != c ==> t'.cases[d] == t.cases[d])
            && var row, row' := t.cases[c], t'.cases[c];
               && row'.obligationId == row.obligationId && row'.nextSeq == row.nextSeq + 1 && row'.openedAt == row.openedAt
               && row'.state == TargetState(e, row.state)
               && row'.incidentId == (if e.IncidentAttached? then Some(e.incidentId)
                                      else if e.IncidentReleased? then None else row.incidentId)
               && row'.tier == (if e.DiagnosisStarted? then e.tier else ReduceAll(c, t.events[c]).value.tier)
               && row'.terminalReason == (if e.TerminalReached? then Some(e.reason) else row.terminalReason)
               && row'.closedAt == (if row'.terminalReason.None? then row.closedAt else Some(now))
               && t'.actions == (if IsTerminal(row'.state) then CancelFor(t.actions, c, now) else t.actions)
               && t'.locked == t.locked
  {
    AppendReduces(t, c, e, source, now);
  }

  /** What a successful append stores: the event as it was given, under the next number, and the revision it leads to, for that case alone. */
  lemma AppendStores(t: Tables, c: CaseId, e: CaseEvent, source: string, now: int)
    requires AppendTo(t, c, e, source, now).Ok?
    ensures var t' := AppendTo(t, c, e, source, now).value;
            && c in t.cases && t'.EventsOf(c) == t.EventsOf(c) + [StoredEvent(c, t.cases[c].nextSeq, e, source, now)]
            && |t'.RevisionsOf(c)| == |t.RevisionsOf(c)| + 1 && t'.RevisionsOf(c)[..|t.RevisionsOf(c)|] == t.RevisionsOf(c)
            && ReduceAll(c, t'.EventsOf(c)) == Ok(t'.RevisionsOf(c)[|t.RevisionsOf(c)|])
            && forall d :: d != c ==> t'.EventsOf(d) == t.EventsOf(d) && t'.RevisionsOf(d) == t.RevisionsOf(d)
  {
    hide ReduceAll, CancelFor, WriteRevision;
  }

  lemma AppendKeepsCaches(t: Tables, c: CaseId, e: CaseEvent, source: string, now: int)
    requires CachesValid(t) && AppendTo(t, c, e, source, now).Ok?
    ensures CachesValid(AppendTo(t, c, e, source, now).value)
  {
    var row := t.cases[c];
    assert CaseCached(row, c, t.events[c], t.revisions[c]);
    CachedAppend(row, c, t.events[c], t.revisions[c], StoredEvent(c, row.nextSeq, e, source, now), now);
  }

  lemma AppendKeepsRows(t: Tables, c: CaseId, e: CaseEvent, source: string, now: int)
    requires RowsValid(t) && AppendTo(t, c, e, source, now).Ok?
    ensures RowsValid(AppendTo(t, c, e, source, now).value)
  {
    hide ReduceAll, IsTerminal;
    var t' := AppendTo(t, c, e, source, now).value;
    forall i | 0 <= i < |t'.actions| ensures RowValid(t'.cases, t'.actions[i]) {
      assert RowValid(t.cases, t.actions[i]);
    }
  }

  lemma AppendKeepsInv(t: Tables, c: CaseId, e: CaseEvent, source: string, now: int)
    requires Inv(t) && Enabled(t, Append(c, e, source, now))
    ensures Inv(AppendTo(t, c, e, source, now).value)
  {
    AppendKeepsCaches(t, c, e, source, now);
    AppendKeepsRows(t, c, e, source, now);
    var t' := AppendTo(t, c, e, source, now).value;
    forall i | i in t'.locked ensures i < |t'.actions| && t'.actions[i].state.Pending? {
      if IsTerminal(t'.cases[c].state) {
        assert !CaseLocked(t, c);
      }
    }
  }

  lemma OpenKeepsInv(t: Tables, c: CaseId, o: ObligationId, now: int)
    requires Inv(t) && c !in t.cases
    ensures Inv(InsertCase(t, c, o, now))
  {
    var t' := InsertCase(t, c, o, now);
    assert CaseCached(t'.cases[c], c, [], []);
    forall i | 0 <= i < |t'.actions| ensures RowValid(t'.cases, t'.actions[i]) {
      assert RowValid(t.cases, t.actions[i]);
    }
  }

  /** What any operation may do to one row: move it along, but never bring back a settled one. */
  ghost predicate RowStep(r: ActionRow, r': ActionRow) {
    && r'.caseId == r.caseId && r'.obligationId == r.obligationId && r'.fireAt == r.fireAt && r'.actionRef == r.actionRef
    && (!Outstanding(r) ==> r' == r)
    && (r'.state.Leased? <==> r'.leaseExpiry.Some?)
  }

  ghost predicate RowsStep(s: seq<ActionRow>, s': seq<ActionRow>) {
    |s| <= |s'| && forall i :: 0 <= i < |s| ==> RowStep(s[i], s'[i])
  }

  lemma CommitStep(t: Tables, txn: Worker, owner: Worker, expiry: int)
    requires Inv(t)
    ensures RowsStep(t.actions, TickCommit(t, txn, owner, expiry).actions)
    ensures LocksValid(TickCommit(t, txn, owner, expiry))
  {
    var t' := TickCommit(t, txn, owner, expiry);
    forall i | 0 <= i < |t.actions| ensures RowStep(t.actions[i], t'.actions[i]) {
      assert RowValid(t.cases, t.actions[i]);
    }
    forall i | i in t'.locked ensures i < |t'.actions| && t'.actions[i].state.Pending? {
      assert i !in LockedBy(t, txn);
    }
  }

  lemma CompleteStep(t: Tables, id: RowId, now: int)
    requires Inv(t)
    ensures RowsStep(t.actions, CompleteRow(t, id, now).actions) && LocksValid(CompleteRow(t, id, now))
  {
    SameRowsStep(t);
  }

  lemma ReleaseStep(t: Tables, id: RowId)
    requires Inv(t)
    ensures RowsStep(t.actions, ReleaseRow(t, id).actions) && LocksValid(ReleaseRow(t, id))
  {
    SameRowsStep(t);
  }

  lemma ReclaimStep(t: Tables, now: int)
    requires Inv(t)
    ensures RowsStep(t.actions, Reclaim(t, now).actions) && LocksValid(Reclaim(t, now))
  {
    SameRowsStep(t);
  }

  lemma CancelStep(t: Tables, c: CaseId, now: int)
    requires Inv(t)
    ensures RowsStep(t.actions, CancelFor(t.actions, c, now))
    ensures !CaseLocked(t, c) ==> LocksValid(t.(actions := CancelFor(t.actions, c, now)))
  {
    var s := CancelFor(t.actions, c, now);
    forall i | 0 <= i < |t.actions| ensures RowStep(t.actions[i], s[i]) {
      assert RowValid(t.cases, t.actions[i]);
    }
  }

  lemma SameRowsStep(t: Tables)
    requires Inv(t)
    ensures RowsStep(t.actions, t.actions)
  {
    forall i | 0 <= i < |t.actions| ensures RowStep(t.actions[i], t.actions[i]) {
      assert RowValid(t.cases, t.actions[i]);
    }
  }

  /** Rows only ever move forward, whatever runs. */
  lemma ApplyStepsRows(t: Tables, op: Op)
    requires Inv(t)
    ensures RowsStep(t.actions, Apply(t, op).actions)
  {
    SameRowsStep(t);
    if Enabled(t, op) {
      match op
      case CommitTick(txn, owner, expiry) => CommitStep(t, txn, owner, expiry);
      case Append(c, _, _, now) => CancelStep(t, c, now);
      case CancelForCase(c, now) => CancelStep(t, c, now);
      case Complete(id, now) => CompleteStep(t, id, now);
      case Release(id) => ReleaseStep(t, id);
      case ReclaimExpired(now) => ReclaimStep(t, now);
      case _ =>
    }
  }

  predicate OnSchedule(op: Op) {
    !op.Open? && !op.Append? && !op.RecordDiagnosis?
  }

  lemma ScheduleLocks(t: Tables, op: Op)
    requires Inv(t) && OnSchedule(op)
    ensures LocksValid(Apply(t, op))
  {
    if Enabled(t, op) {
      match op
      case CommitTick(txn, owner, expiry) => CommitStep(t, txn, owner, expiry);
      case CancelForCase(c, now) => CancelStep(t, c, now);
      case Complete(id, now) => CompleteStep(t, id, now);
      case Release(id) => ReleaseStep(t, id);
      case ReclaimExpired(now) => ReclaimStep(t, now);
      case _ =>
    }
  }

  /** The operations on the schedule leave the cases and the log alone. */
  lemma ScheduleFrame(t: Tables, op: Op)
    requires OnSchedule(op)
    ensures var t' := Apply(t, op);
            && t'.cases == t.cases && t'.events == t.events && t'.revisions == t.revisions
            && |t.actions| <= |t'.actions|
            && (forall i :: |t.actions| <= i < |t'.actions| ==>
                  op.Schedule? && i == |t.actions| && op.c in t.cases && !IsTerminal(t.cases[op.c].state)
                  && t'.actions[i].caseId == op.c && t'.actions[i].state.Pending? && t'.actions[i].leaseExpiry.None?)
  {
  }

  lemma StepKeepsRow(cases: map<CaseId, CaseRow>, r: ActionRow, r': ActionRow)
    requires RowValid(cases, r) && RowStep(r, r')
    ensures RowValid(cases, r')
  {
  }

  lemma ScheduleKeepsInv(t: Tables, op: Op)
    requires Inv(t) && OnSchedule(op)
    ensures Inv(Apply(t, op))
  {
    ApplyStepsRows(t, op);
    ScheduleLocks(t, op);
    ScheduleFrame(t, op);
    var t' := Apply(t, op);
    ScheduledRowsValid(t, t'.actions);
  }

  lemma ScheduledRowsValid(t: Tables, s: seq<ActionRow>)
    requires RowsValid(t) && RowsStep(t.actions, s)
    requires forall i :: |t.actions| <= i < |s| ==> RowValid(t.cases, s[i])
    ensures forall i :: 0 <= i < |s| ==> RowValid(t.cases, s[i])
  {
    forall i | 0 <= i < |t.actions| ensures RowValid(t.cases, s[i]) {
      StepKeepsRow(t.cases, t.actions[i], s[i]);
    }
  }

  lemma RecordKeepsInv(t: Tables, c: CaseId, tier: nat)
    requires Inv(t) && c in t.cases
    ensures Inv(t.(cases := t.cases[c := t.cases[c].(tier := tier)]))
  {
    var t' := t.(cases := t.cases[c := t.cases[c].(tier := tier)]);
    assert CaseCached(t.cases[c], c, t.events[c], t.revisions[c]);
    forall i | 0 <= i < |t'.actions| ensures RowValid(t'.cases, t'.actions[i]) {
      assert RowValid(t.cases, t.actions[i]);
    }
  }

  lemma ApplyKeepsInv(t: Tables, op: Op)
    requires Inv(t)
    ensures Inv(Apply(t, op))
  {
    if Enabled(t, op) {
      match op
      case Append(c, e, source, now) => AppendKeepsInv(t, c, e, source, now);
      case Open(c, o, now) => OpenKeepsInv(t, c, o, now);
      case RecordDiagnosis(c, tier) => RecordKeepsInv(t, c, tier);
      case _ => ScheduleKeepsInv(t, op);
    }
  }

  /** Every database any interleaving can reach satisfies the invariant. */
  lemma {:induction false} RunKeepsInv(t: Tables, ops: seq<Op>)
    requires Inv(t)
    ensures Inv(Run(t, ops))
    decreases |ops|
  {
    if ops != [] {
      ApplyKeepsInv(t, ops[0]);
      RunKeepsInv(Apply(t, ops[0]), ops[1..]);
    }
  }

  lemma ReachableInv(ops: seq<Op>)
    ensures Inv(Run(EMPTY, ops))
  {
    RunKeepsInv(EMPTY, ops);
  }
}
