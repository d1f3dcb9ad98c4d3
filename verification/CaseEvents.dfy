/** The deterministic event reducer (packages/core/src/events.ts) and what a whole log says. */
module CaseEvents {
  import opened Wrappers
  import opened StateMachine

  /** Identifiers are numbers, ordered as the database orders the text columns. */
  type CaseId = nat
  type IncidentId = nat

  datatype EvidenceKind =
    | PaymentAttempt
    | DeclineCode
    | MandateState
    | CustomerProfile
    | CustomerReply
    | ContactHistory
    | ObligationState
    | IncidentMembership
    | SegmentMetrics
    | PolicySnapshot

  datatype CaseEvent =
    | CaseOpened(domain: string, holdout: bool)
    | EvidenceAdded(kind: EvidenceKind, evidenceId: string)
    | DiagnosisStarted(tier: nat)
    | PlanProposed(planVersion: int)
    | ApprovalRequired(ruleId: string)
    | ApprovalGranted(approver: string)
    | ApprovalExpired
    | ActionExecuted(actionId: string, attemptNo: nat)
    | ActionScheduled(actionId: string, fireAt: int)
    | OutcomeObserved(outcome: string)
    | IncidentAttached(incidentId: IncidentId)
    | IncidentReleased(incidentId: IncidentId)
    | TerminalReached(state: TerminalState, reason: string)

  datatype StoredEvent = StoredEvent(caseId: CaseId, seqNo: nat, event: CaseEvent, source: string, occurredAt: int)

  type Log = seq<StoredEvent>

  datatype CaseRevision = CaseRevision(
    caseId: CaseId,
    revision: nat,
    reducedThroughSeq: int,
    state: CaseState,
    tier: nat,
    holdout: bool,
    attemptCount: nat,
    planVersion: int,
    incidentId: Option<IncidentId>,
    terminalReason: Option<string>,
    evidenceKinds: seq<EvidenceKind>,
    changedKinds: seq<EvidenceKind>)

  datatype ReduceError =
    | OutOfOrder(expected: int, got: int)
    | IllegalTransition(from: CaseState, to: CaseState)

  function InitialRevision(caseId: CaseId): CaseRevision {
    CaseRevision(caseId, 0, -1, Detected, 0, false, 0, 0, None, None, [], [])
  }

  /** The state an event drives a case to; evidence and most outcomes hold the current one. */
  function TargetState(e: CaseEvent, current: CaseState): CaseState {
    match e
    case CaseOpened(_, _) => Detected
    case DiagnosisStarted(_) => Diagnosing
    case PlanProposed(_) => Planning
    case ApprovalRequired(_) => AwaitingApproval
    case ApprovalGranted(_) => Executing
    case ApprovalExpired => StoppedHuman
    case ActionExecuted(_, _) => Observing
    case ActionScheduled(_, _) => Scheduled
    case IncidentAttached(_) => SuppressedByIncident
    case IncidentReleased(_) => Scheduled
    case TerminalReached(state, _) => state
    case OutcomeObserved(_) => if current.Executing? then Observing else current
    case EvidenceAdded(_, _) => current
  }

  function Reduce(prev: CaseRevision, stored: StoredEvent): Result<CaseRevision, ReduceError> {
    var expected := prev.reducedThroughSeq + 1;
    var e := stored.event;
    var next := TargetState(e, prev.state);
    if stored.seqNo != expected then Err(OutOfOrder(expected, stored.seqNo))
    else if !CanTransition(prev.state, next) then Err(IllegalTransition(prev.state, next))
    else Ok(CaseRevision(
              prev.caseId,
              prev.revision + 1,
              stored.seqNo,
              next,
              if e.DiagnosisStarted? then e.tier else prev.tier,
              if e.CaseOpened? then e.holdout else prev.holdout,
              if e.ActionExecuted? then prev.attemptCount + 1 else prev.attemptCount,
              if e.PlanProposed? then e.planVersion else prev.planVersion,
              if e.IncidentAttached? then Some(e.incidentId) else if e.IncidentReleased? then None else prev.incidentId,
              if e.TerminalReached? then Some(e.reason) else prev.terminalReason,
              if e.EvidenceAdded? && e.kind !in prev.evidenceKinds then prev.evidenceKinds + [e.kind] else prev.evidenceKinds,
              if e.EvidenceAdded? then [e.kind] else []))
  }

  /** A number out of turn is refused with what was expected and what came; in turn, an illegal move with where it was from and to. */
  lemma ReduceRefuses(prev: CaseRevision, stored: StoredEvent)
    ensures var next, to := prev.reducedThroughSeq + 1, TargetState(stored.event, prev.state);
            && (Reduce(prev, stored).Ok? <==> stored.seqNo == next && CanTransition(prev.state, to))
            && (stored.seqNo != next ==> Reduce(prev, stored) == Err(OutOfOrder(next, stored.seqNo)))
            && (stored.seqNo == next && Reduce(prev, stored).Err? ==>
                  Reduce(prev, stored).error.IllegalTransition? && Reduce(prev, stored).error.from == prev.state
                  && Reduce(prev, stored).error.to == to)
  {
  }

  /** The left fold of `Reduce` over a log; the first failing event fails the whole log. */
  function ReduceAll(caseId: CaseId, log: Log): Result<CaseRevision, ReduceError> {
    if log == [] then Ok(InitialRevision(caseId))
    else
      match ReduceAll(caseId, log[..|log| - 1])
      case Err(x) => Err(x)
      case Ok(prev) => Reduce(prev, log[|log| - 1])
  }

  // ---- Queries over a log, independent of the fold ----

  ghost predicate NoTerminalEvent(log: Log) {
    forall i :: 0 <= i < |log| ==> !log[i].event.TerminalReached?
  }

  /** A terminal event, or the one event that stops a case without giving a reason. */
  predicate Stops(e: CaseEvent) {
    e.TerminalReached? || e.ApprovalExpired?
  }

  ghost predicate NoStoppingEvent(log: Log) {
    forall i :: 0 <= i < |log| ==> !Stops(log[i].event)
  }

  ghost predicate IsLastReason(log: Log, reason: string) {
    exists i :: 0 <= i < |log| && log[i].event.TerminalReached? && log[i].event.reason == reason
                && forall j :: i < j < |log| ==> !log[j].event.TerminalReached?
  }

  predicate TouchesIncident(e: CaseEvent) {
    e.IncidentAttached? || e.IncidentReleased?
  }

  /** The incident the log last attached and has not released since. */
  ghost predicate InIncident(log: Log, incident: IncidentId) {
    exists i :: 0 <= i < |log| && log[i].event == IncidentAttached(incident)
                && forall j :: i < j < |log| ==> !TouchesIncident(log[j].event)
  }

  ghost function KindsIn(log: Log): set<EvidenceKind> {
    set i | 0 <= i < |log| && log[i].event.EvidenceAdded? :: log[i].event.kind
  }

  ghost function AttemptsIn(log: Log): set<nat> {
    set i | 0 <= i < |log| && log[i].event.ActionExecuted? :: i
  }

  // ---- What a log that reduces says ----

  lemma {:induction false} PrefixReduces(caseId: CaseId, log: Log, k: nat)
    requires ReduceAll(caseId, log).Ok? && k <= |log|
    ensures ReduceAll(caseId, log[..k]).Ok?
    decreases |log|
  {
    if k == |log| {
      assert log[..k] == log;
    } else {
      var init := log[..|log| - 1];
      PrefixReduces(caseId, init, k);
      assert init[..k] == log[..k];
    }
  }

  /** Event `k` carries number `k` and is a legal move for the state the log before it reached. */
  ghost predicate StepsLegally(caseId: CaseId, log: Log, k: nat)
    requires k < |log|
  {
    && log[k].seqNo == k
    && var before := ReduceAll(caseId, log[..k]);
       before.Ok? && CanTransition(before.value.state, TargetState(log[k].event, before.value.state))
  }

  lemma {:induction false} Counters(caseId: CaseId, log: Log)
    requires ReduceAll(caseId, log).Ok?
    ensures var r := ReduceAll(caseId, log).value;
            r.revision == |log| && r.reducedThroughSeq == |log| - 1 && r.caseId == caseId
  {
    if log != [] {
      Counters(caseId, log[..|log| - 1]);
    }
  }

  /** A log reduces exactly when it is numbered 0, 1, 2, ... and every event is a legal move. */
  lemma {:induction false} ReducesIff(caseId: CaseId, log: Log)
    ensures ReduceAll(caseId, log).Ok? <==> forall k :: 0 <= k < |log| ==> StepsLegally(caseId, log, k)
  {
    if log != [] {
      var n := |log| - 1;
      var init := log[..n];
      ReducesIff(caseId, init);
      forall k | 0 <= k < n ensures StepsLegally(caseId, init, k) == StepsLegally(caseId, log, k) {
        assert init[..k] == log[..k];
      }
      if ReduceAll(caseId, init).Ok? {
        Counters(caseId, init);
      }
      assert ReduceAll(caseId, log).Ok? <==> ReduceAll(caseId, init).Ok? && StepsLegally(caseId, log, n);
    }
  }

  /**
   * Every field of the reduced revision is a query over the log. In particular a
   * case is terminal when the log holds a stopping event, but has a reason only
   * when it holds a terminal_reached: approval_expired stops without one.
   */
  lemma RevisionIsAQuery(caseId: CaseId, log: Log)
    requires ReduceAll(caseId, log).Ok?
    ensures var r := ReduceAll(caseId, log).value;
            && (IsTerminal(r.state) <==> !NoStoppingEvent(log))
            && (r.terminalReason.None? <==> NoTerminalEvent(log))
            && (r.terminalReason.Some? ==> IsLastReason(log, r.terminalReason.value))
            && (r.incidentId.Some? ==> InIncident(log, r.incidentId.value))
            && (r.incidentId.None? ==> forall x :: !InIncident(log, x))
            && r.attemptCount == |AttemptsIn(log)|
            && (forall k :: k in r.evidenceKinds <==> k in KindsIn(log))
  {
    ReasonQuery(caseId, log);
    IncidentQuery(caseId, log);
    AttemptQuery(caseId, log);
    KindsQuery(caseId, log);
  }

  lemma {:induction false} ReasonQuery(caseId: CaseId, log: Log)
    requires ReduceAll(caseId, log).Ok?
    ensures var r := ReduceAll(caseId, log).value;
            && (IsTerminal(r.state) <==> !NoStoppingEvent(log))
            && (r.terminalReason.None? <==> NoTerminalEvent(log))
            && (r.terminalReason.Some? ==> IsLastReason(log, r.terminalReason.value))
  {
    if log != [] {
      var n := |log| - 1;
      var init := log[..n];
      ReasonQuery(caseId, init);
      assert forall i :: 0 <= i < n ==> init[i] == log[i];
      assert NoStoppingEvent(log) <==> NoStoppingEvent(init) && !Stops(log[n].event);
      assert NoTerminalEvent(log) <==> NoTerminalEvent(init) && !log[n].event.TerminalReached?;
      ReasonStep(log);
    }
  }

  lemma {:induction false} IncidentQuery(caseId: CaseId, log: Log)
    requires ReduceAll(caseId, log).Ok?
    ensures var r := ReduceAll(caseId, log).value;
            && (r.incidentId.Some? ==> InIncident(log, r.incidentId.value))
            && (r.incidentId.None? ==> forall x :: !InIncident(log, x))
  {
    if log != [] {
      IncidentQuery(caseId, log[..|log| - 1]);
      IncidentStep(log);
    }
  }

  lemma AttemptsStep(log: Log)
    requires log != []
    ensures var n := |log| - 1;
            |AttemptsIn(log)| == |AttemptsIn(log[..n])| + if log[n].event.ActionExecuted? then 1 else 0
  {
    var n := |log| - 1;
    var before, after := AttemptsIn(log[..n]), AttemptsIn(log);
    forall i ensures i in after <==> i in before || (i == n && log[n].event.ActionExecuted?) {
    }
    assert n !in before;
    assert after == if log[n].event.ActionExecuted? then before + {n} else before;
  }

  lemma {:induction false} AttemptQuery(caseId: CaseId, log: Log)
    requires ReduceAll(caseId, log).Ok?
    ensures ReduceAll(caseId, log).value.attemptCount == |AttemptsIn(log)|
  {
    hide CanTransition, TargetState;
    if log != [] {
      AttemptQuery(caseId, log[..|log| - 1]);
      AttemptsStep(log);
    }
  }

  /** Each kind that arrived is listed, once. */
  lemma {:induction false} KindsQuery(caseId: CaseId, log: Log)
    requires ReduceAll(caseId, log).Ok?
    ensures var kinds := ReduceAll(caseId, log).value.evidenceKinds;
            && (forall k :: k in kinds <==> k in KindsIn(log))
            && (forall i, j :: 0 <= i < j < |kinds| ==> kinds[i] != kinds[j])
  {
    if log != [] {
      var n := |log| - 1;
      var init, e := log[..n], log[n].event;
      KindsQuery(caseId, init);
      assert forall i :: 0 <= i < n ==> init[i] == log[i];
      forall k ensures k in KindsIn(log) <==> k in KindsIn(init) || (e.EvidenceAdded? && k == e.kind) {
        if k in KindsIn(init) {
          var i :| 0 <= i < n && init[i].event.EvidenceAdded? && init[i].event.kind == k;
          assert log[i].event.EvidenceAdded?;
        }
        if e.EvidenceAdded? && k == e.kind {
          assert log[n].event.EvidenceAdded?;
        }
      }
    }
  }

  lemma ReasonStep(log: Log)
    requires log != []
    ensures var n := |log| - 1; var e := log[n].event;
            forall x :: (e.TerminalReached? ==> IsLastReason(log, e.reason))
                        && (!e.TerminalReached? && IsLastReason(log[..n], x) ==> IsLastReason(log, x))
  {
    var n := |log| - 1;
    var e := log[n].event;
    forall x | !e.TerminalReached? && IsLastReason(log[..n], x) ensures IsLastReason(log, x) {
      var i :| 0 <= i < n && log[..n][i].event.TerminalReached? && log[..n][i].event.reason == x
               && forall j :: i < j < n ==> !log[..n][j].event.TerminalReached?;
      assert forall j :: i < j < n ==> log[j] == log[..n][j];
      assert log[i].event.TerminalReached?;
    }
  }

  lemma IncidentStep(log: Log)
    requires log != []
    ensures var n := |log| - 1; var e := log[n].event;
            forall x :: InIncident(log, x) <==>
                        if TouchesIncident(e) then e == IncidentAttached(x) else InIncident(log[..n], x)
  {
  }

  /** Once a prefix of a log has stopped the case, the whole log ends in that same state. */
  lemma {:induction false} TerminalAbsorbsOverLog(caseId: CaseId, log: Log, k: nat)
    requires k <= |log| && ReduceAll(caseId, log).Ok?
    requires ReduceAll(caseId, log[..k]).Ok? && IsTerminal(ReduceAll(caseId, log[..k]).value.state)
    ensures ReduceAll(caseId, log).value.state == ReduceAll(caseId, log[..k]).value.state
    decreases |log|
  {
    if k == |log| {
      assert log[..k] == log;
    } else {
      var init := log[..|log| - 1];
      assert init[..k] == log[..k];
      TerminalAbsorbsOverLog(caseId, init, k);
    }
  }

  // ---- The state is a query over the log ----

  /** Evidence informs and an outcome concludes; every other event says where the case goes. */
  predicate Moves(e: CaseEvent) {
    !e.EvidenceAdded? && !e.OutcomeObserved?
  }

  /** The last event of the log that says where the case goes. */
  ghost predicate IsLastMove(log: Log, i: int) {
    0 <= i < |log| && Moves(log[i].event) && forall j :: i < j < |log| ==> !Moves(log[j].event)
  }

  ghost predicate NothingMoved(log: Log) {
    forall i :: 0 <= i < |log| ==> !Moves(log[i].event)
  }

  ghost predicate OutcomeAfter(log: Log, i: int) {
    exists j :: i < j < |log| && 0 <= j && log[j].event.OutcomeObserved?
  }

  /** What one event, the last that moved the case, left it in. */
  ghost predicate LeftIn(state: CaseState, e: CaseEvent, concluded: bool) {
    && (state.Detected? <==> e.CaseOpened?)
    && (state.Diagnosing? <==> e.DiagnosisStarted?)
    && (state.Planning? <==> e.PlanProposed?)
    && (state.AwaitingApproval? <==> e.ApprovalRequired?)
    && (state.Executing? <==> e.ApprovalGranted? && !concluded)
    && (state.Observing? <==> e.ActionExecuted? || (e.ApprovalGranted? && concluded))
    && (state.Scheduled? <==> e.ActionScheduled? || e.IncidentReleased?)
    && (state.SuppressedByIncident? <==> e.IncidentAttached?)
    && (IsTerminal(state) <==> e.ApprovalExpired? || e.TerminalReached?)
    && (e.ApprovalExpired? ==> state.StoppedHuman?)
    && (e.TerminalReached? ==> state == e.state)
  }

  lemma LastMoveStep(log: Log, i: int)
    requires log != [] && !Moves(log[|log| - 1].event)
    ensures IsLastMove(log, i) <==> IsLastMove(log[..|log| - 1], i)
    ensures OutcomeAfter(log, i) && IsLastMove(log, i) <==>
            IsLastMove(log, i) && (OutcomeAfter(log[..|log| - 1], i) || log[|log| - 1].event.OutcomeObserved?)
    ensures NothingMoved(log) <==> NothingMoved(log[..|log| - 1])
  {
    var n := |log| - 1;
    assert forall j :: 0 <= j < n ==> log[..n][j] == log[j];
    if IsLastMove(log, i) && log[n].event.OutcomeObserved? {
      assert i < n && OutcomeAfter(log, i);
    }
  }

  lemma OneMove(from: CaseState, e: CaseEvent)
    requires Moves(e)
    ensures LeftIn(TargetState(e, from), e, false)
  {
  }

  lemma NoMove(from: CaseState, e: CaseEvent, last: CaseEvent, concluded: bool)
    requires !Moves(e)
    ensures LeftIn(from, last, concluded) ==> LeftIn(TargetState(e, from), last, concluded || e.OutcomeObserved?)
    ensures from.Detected? ==> TargetState(e, from).Detected?
  {
  }

  lemma ReducedState(caseId: CaseId, log: Log)
    requires log != [] && ReduceAll(caseId, log).Ok?
    ensures var before := ReduceAll(caseId, log[..|log| - 1]);
            before.Ok? && ReduceAll(caseId, log).value.state == TargetState(log[|log| - 1].event, before.value.state)
  {
  }

  /**
   * The state a log reduces to is a query over it: DETECTED while nothing has moved the
   * case, and otherwise what the last event that moved it says; a granted approval
   * means EXECUTING until an outcome is observed, and OBSERVING from then on.
   */
  lemma {:induction false} StateIsAQuery(caseId: CaseId, log: Log)
    requires ReduceAll(caseId, log).Ok?
    ensures var state := ReduceAll(caseId, log).value.state;
            && (NothingMoved(log) ==> state.Detected?)
            && (forall i :: IsLastMove(log, i) ==> LeftIn(state, log[i].event, OutcomeAfter(log, i)))
    ensures !NothingMoved(log) ==> exists i :: IsLastMove(log, i)
  {
    hide LeftIn, TargetState, CanTransition;
    if log != [] {
      var n := |log| - 1;
      StateIsAQuery(caseId, log[..n]);
      ReducedState(caseId, log);
      var before, e := ReduceAll(caseId, log[..n]).value.state, log[n].event;
      if Moves(e) {
        OneMove(before, e);
        assert IsLastMove(log, n) && !OutcomeAfter(log, n);
      } else {
        NoMove(before, e, e, false);
        LastMoveStep(log, 0);
        forall i ensures IsLastMove(log, i) <==> IsLastMove(log[..n], i) {
          LastMoveStep(log, i);
        }
        forall i | IsLastMove(log, i)
          ensures LeftIn(TargetState(e, before), log[i].event, OutcomeAfter(log, i))
        {
          LastMoveStep(log, i);
          NoMove(before, e, log[i].event, OutcomeAfter(log[..n], i));
        }
      }
    } else {
      InitiallyDetected(caseId);
    }
  }

  lemma InitiallyDetected(caseId: CaseId)
    ensures ReduceAll(caseId, []) == Ok(InitialRevision(caseId)) && InitialRevision(caseId).state.Detected?
  {
  }

  // ---- The fields that remember one kind of event ----

  ghost predicate IsLastSuch(log: Log, such: CaseEvent -> bool, i: int) {
    0 <= i < |log| && such(log[i].event) && forall j :: i < j < |log| ==> !such(log[j].event)
  }

  ghost predicate NoneSuch(log: Log, such: CaseEvent -> bool) {
    forall i :: 0 <= i < |log| ==> !such(log[i].event)
  }

  lemma LastSuchStep(log: Log, such: CaseEvent -> bool)
    requires log != []
    ensures var n := |log| - 1;
            && (forall i :: IsLastSuch(log, such, i) <==> if such(log[n].event) then i == n else IsLastSuch(log[..n], such, i))
            && (NoneSuch(log, such) <==> !such(log[n].event) && NoneSuch(log[..n], such))
  {
    var n := |log| - 1;
    assert forall j :: 0 <= j < n ==> log[..n][j] == log[j];
  }

  ghost function StartsDiagnosis(): CaseEvent -> bool {
    (e: CaseEvent) => e.DiagnosisStarted?
  }

  ghost function ProposesPlan(): CaseEvent -> bool {
    (e: CaseEvent) => e.PlanProposed?
  }

  ghost function OpensCase(): CaseEvent -> bool {
    (e: CaseEvent) => e.CaseOpened?
  }

  /** Tier, plan version and holdout are those of the last diagnosis, plan and opening; the changed kinds are the last event's. */
  lemma {:induction false} MemoriesAreQueries(caseId: CaseId, log: Log)
    requires ReduceAll(caseId, log).Ok?
    ensures var r := ReduceAll(caseId, log).value;
            && (NoneSuch(log, StartsDiagnosis()) ==> r.tier == 0)
            && (forall i :: IsLastSuch(log, StartsDiagnosis(), i) ==> r.tier == log[i].event.tier)
            && (NoneSuch(log, ProposesPlan()) ==> r.planVersion == 0)
            && (forall i :: IsLastSuch(log, ProposesPlan(), i) ==> r.planVersion == log[i].event.planVersion)
            && (NoneSuch(log, OpensCase()) ==> !r.holdout)
            && (forall i :: IsLastSuch(log, OpensCase(), i) ==> r.holdout == log[i].event.holdout)
            && r.changedKinds == (if log != [] && log[|log| - 1].event.EvidenceAdded? then [log[|log| - 1].event.kind] else [])
  {
    hide TargetState, CanTransition, IsLastSuch, NoneSuch;
    if log != [] {
      var n := |log| - 1;
      MemoriesAreQueries(caseId, log[..n]);
      LastSuchStep(log, StartsDiagnosis());
      LastSuchStep(log, ProposesPlan());
      LastSuchStep(log, OpensCase());
      SuchInFront(log, StartsDiagnosis());
      SuchInFront(log, ProposesPlan());
      SuchInFront(log, OpensCase());
    } else {
      NothingSuch(log, StartsDiagnosis());
      NothingSuch(log, ProposesPlan());
      NothingSuch(log, OpensCase());
    }
  }

  lemma SuchInFront(log: Log, such: CaseEvent -> bool)
    requires log != []
    ensures forall i :: IsLastSuch(log[..|log| - 1], such, i) ==> 0 <= i < |log| - 1 && such(log[i].event)
  {
    var front := log[..|log| - 1];
    forall i | IsLastSuch(front, such, i) ensures 0 <= i < |log| - 1 && such(log[i].event) {
      assert front[i] == log[i];
    }
  }

  lemma NothingSuch(log: Log, such: CaseEvent -> bool)
    requires log == []
    ensures NoneSuch(log, such) && forall i :: !IsLastSuch(log, such, i)
  {
  }
}
