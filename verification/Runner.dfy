/** Plan stepping (packages/sim/src/runner.ts): how a plan's steps reach the scheduler one at a time. */
module Runners {
  import opened Wrappers
  import opened StateMachine
  import opened CaseEvents
  import opened CaseFabric
  import opened FabricInvariant
  import opened Databases
  import opened QuietHours

  /** A step of kind schedule only delays what follows; any other step is executed. */
  datatype PlanStep = PlanStep(actionId: string, params: string, waits: bool, delayHours: Option<int>, expectedAtHours: Option<int>)

  type Plan = seq<PlanStep>

  function WaitHours(s: PlanStep): int {
    if s.delayHours.Some? then s.delayHours.value
    else if s.expectedAtHours.Some? then s.expectedAtHours.value
    else 24
  }

  // ---- The specification: leading waits, then a step ----

  function AfterWaits(plan: Plan): (rest: Plan)
    ensures rest == [] || !rest[0].waits
    ensures |rest| <= |plan| && rest == plan[|plan| - |rest|..]
  {
    if plan == [] || !plan[0].waits then plan else AfterWaits(plan[1..])
  }

  function WaitedHours(plan: Plan): int {
    if plan == [] || !plan[0].waits then 0 else WaitHours(plan[0]) + WaitedHours(plan[1..])
  }

  /** The steps that are executed, in order. */
  function Capabilities(plan: Plan): Plan {
    if plan == [] then []
    else (if plan[0].waits then [] else [plan[0]]) + Capabilities(plan[1..])
  }

  /** `lead` is the plan's first capability step and the hours of waiting before it. */
  datatype Lead = Nothing | Lead(step: PlanStep, waited: int, rest: Plan)

  function NextStep(plan: Plan): Lead {
    var rest := AfterWaits(plan);
    if rest == [] then Nothing else Lead(rest[0], WaitedHours(plan), rest[1..])
  }

  lemma {:induction false} NextIsFirstCapability(plan: Plan)
    ensures Capabilities(plan) == Capabilities(AfterWaits(plan))
    ensures NextStep(plan).Nothing? <==> Capabilities(plan) == []
    ensures NextStep(plan).Lead? ==> Capabilities(plan) == [NextStep(plan).step] + Capabilities(NextStep(plan).rest)
    ensures AfterWaits(plan) == [] ==> forall i :: 0 <= i < |plan| ==> plan[i].waits
  {
    if plan != [] && plan[0].waits {
      NextIsFirstCapability(plan[1..]);
    }
  }

  /** A wait lasts its delay, else the hour it expects, else a day. */
  lemma WaitIs(s: PlanStep)
    ensures s.delayHours.Some? ==> WaitHours(s) == s.delayHours.value
    ensures s.delayHours.None? && s.expectedAtHours.Some? ==> WaitHours(s) == s.expectedAtHours.value
    ensures s.delayHours.None? && s.expectedAtHours.None? ==> WaitHours(s) == 24
  {
  }

  /** The hours of some waits, added up. */
  function HoursOf(waits: Plan): int {
    if waits == [] then 0 else HoursOf(waits[..|waits| - 1]) + WaitHours(waits[|waits| - 1])
  }

  lemma {:induction false} HoursFromFront(waits: Plan)
    requires waits != []
    ensures HoursOf(waits) == WaitHours(waits[0]) + HoursOf(waits[1..])
    decreases |waits|
  {
    hide WaitHours;
    var n := |waits| - 1;
    if n == 0 {
      assert waits[..0] == [] && waits[1..] == [];
    } else {
      HoursFromFront(waits[..n]);
      assert waits[..n][1..] == waits[1..][..n - 1];
    }
  }

  lemma NoHours(waits: Plan)
    ensures waits == [] ==> HoursOf(waits) == 0
  {
  }

  /** Any number of waits, then a step: that step comes next, after all of their hours. */
  lemma {:induction false} LeadIs(waits: Plan, step: PlanStep, rest: Plan)
    requires !step.waits && forall i :: 0 <= i < |waits| ==> waits[i].waits
    ensures NextStep(waits + ([step] + rest)) == Lead(step, HoursOf(waits), rest)
    decreases |waits|
  {
    hide WaitHours, HoursOf;
    if waits == [] {
      assert waits + ([step] + rest) == [step] + rest;
      NoHours(waits);
    } else {
      HoursFromFront(waits);
      assert (waits + ([step] + rest))[1..] == waits[1..] + ([step] + rest);
      LeadIs(waits[1..], step, rest);
    }
  }

  // ---- A plan under way ----

  /** What has been executed, what the scheduler holds, and what is left of the plan. */
  datatype Progress = Progress(executed: Plan, scheduled: Option<PlanStep>, fireAt: int, remaining: Plan)

  datatype Turn =
    | Executed(now: int)
    | DeferredForQuietHours(now: int, untilAllowed: int)

  /** advancePlan. */
  function Advance(p: Progress, now: int, delayMs: int): Progress {
    match NextStep(p.remaining)
    case Nothing => p.(scheduled := None, remaining := [])
    case Lead(step, waited, rest) => p.(scheduled := Some(step), fireAt := now + delayMs + waited * HOUR, remaining := rest)
  }

  /** One firing of the scheduled step: it is executed, or put back in front and deferred. */
  function Fire(p: Progress, turn: Turn): Progress {
    if p.scheduled.None? then p
    else
      match turn
      case Executed(now) => Advance(p.(executed := p.executed + [p.scheduled.value]), now, 0)
      case DeferredForQuietHours(now, untilAllowed) =>
        Advance(p.(remaining := [p.scheduled.value] + p.remaining), now, untilAllowed)
  }

  function FireAll(p: Progress, turns: seq<Turn>): Progress
    decreases |turns|
  {
    if turns == [] then p else FireAll(Fire(p, turns[0]), turns[1..])
  }

  function Held(p: Progress): Plan {
    if p.scheduled.Some? then [p.scheduled.value] else []
  }

  predicate HoldsACapability(p: Progress) {
    p.scheduled.Some? ==> !p.scheduled.value.waits
  }

  /** Everything the plan will have executed, as it stands. */
  function Steps(p: Progress): Plan {
    p.executed + (Held(p) + Capabilities(p.remaining))
  }

  lemma AdvanceKeepsSteps(p: Progress, now: int, delayMs: int)
    ensures var p' := Advance(p, now, delayMs);
            && HoldsACapability(p') && Steps(p') == p.executed + Capabilities(p.remaining)
            && (p'.scheduled.None? ==> p'.remaining == [])
  {
    NextIsFirstCapability(p.remaining);
  }

  lemma FireKeepsSteps(p: Progress, turn: Turn)
    requires HoldsACapability(p)
    ensures HoldsACapability(Fire(p, turn)) && Steps(Fire(p, turn)) == Steps(p)
  {
    if p.scheduled.Some? {
      match turn
      case Executed(now) => ExecuteKeepsSteps(p, p.(executed := p.executed + [p.scheduled.value]), now);
      case DeferredForQuietHours(now, untilAllowed) =>
        PutBack(p.scheduled.value, p.remaining);
        AdvanceKeepsSteps(p.(remaining := [p.scheduled.value] + p.remaining), now, untilAllowed);
    }
  }

  lemma ExecuteKeepsSteps(p: Progress, p1: Progress, now: int)
    requires p.scheduled.Some? && p1 == p.(executed := p.executed + [p.scheduled.value])
    ensures HoldsACapability(Advance(p1, now, 0)) && Steps(Advance(p1, now, 0)) == Steps(p)
  {
    hide Advance, NextStep, Capabilities;
    AdvanceKeepsSteps(p1, now, 0);
    Associate(p.executed, [p.scheduled.value], Capabilities(p.remaining));
  }

  lemma Associate(a: Plan, b: Plan, c: Plan)
    ensures (a + b) + c == a + (b + c)
  {
  }

  lemma PutBack(s: PlanStep, plan: Plan)
    requires !s.waits
    ensures Capabilities([s] + plan) == [s] + Capabilities(plan)
    ensures NextStep([s] + plan) == Lead(s, 0, plan)
  {
  }

  /**
   * However often steps are deferred, what has been executed, what is scheduled and
   * what is left are together the plan's capability steps, each once and in order.
   */
  lemma NothingLostOrReordered(plan: Plan, now: int, delayMs: int, turns: seq<Turn>)
    ensures var p := FireAll(Advance(Progress([], None, 0, plan), now, delayMs), turns);
            p.executed + (Held(p) + Capabilities(p.remaining)) == Capabilities(plan)
  {
    var p0 := Progress([], None, 0, plan);
    AdvanceKeepsSteps(p0, now, delayMs);
    FiringKeepsSteps(Advance(p0, now, delayMs), turns);
    assert [] + Capabilities(plan) == Capabilities(plan);
  }

  lemma {:induction false} FiringKeepsSteps(p: Progress, turns: seq<Turn>)
    requires HoldsACapability(p)
    ensures Steps(FireAll(p, turns)) == Steps(p)
    decreases |turns|
  {
    if turns != [] {
      FireKeepsSteps(p, turns[0]);
      FiringKeepsSteps(Fire(p, turns[0]), turns[1..]);
    }
  }

  /** A deferred step waits until contact is allowed and no longer: the waits before it are not served again. */
  lemma DeferralDelaysOnlyItself(p: Progress, now: int, untilAllowed: int)
    requires p.scheduled.Some? && HoldsACapability(p)
    ensures var p' := Fire(p, DeferredForQuietHours(now, untilAllowed));
            p'.scheduled == p.scheduled && p'.fireAt == now + untilAllowed && p'.remaining == p.remaining && p'.executed == p.executed
  {
  }

  /** After an execution the next step is scheduled once the waits before it have passed, counted from the execution. */
  lemma NextFiresAfterItsWaits(p: Progress, now: int, waits: Plan, step: PlanStep, rest: Plan)
    requires p.scheduled.Some? && p.remaining == waits + ([step] + rest)
    requires !step.waits && forall i :: 0 <= i < |waits| ==> waits[i].waits
    ensures var p' := Fire(p, Executed(now));
            && p'.scheduled == Some(step) && p'.fireAt == now + 3600000 * HoursOf(waits) && p'.remaining == rest
            && p'.executed == p.executed + [p.scheduled.value]
  {
    hide NextStep;
    LeadIs(waits, step, rest);
  }

  /** When every firing is an execution, the plan ends after as many firings as it has capability steps. */
  lemma {:induction false} PlanEnds(p: Progress, turns: seq<Turn>)
    requires HoldsACapability(p) && (p.scheduled.None? ==> p.remaining == [])
    requires |turns| == |Held(p)| + |Capabilities(p.remaining)| && forall i :: 0 <= i < |turns| ==> turns[i].Executed?
    ensures FireAll(p, turns).scheduled.None? && FireAll(p, turns).executed == Steps(p)
    decreases |turns|
  {
    if turns == [] {
      assert Steps(p) == p.executed;
    } else {
      FireKeepsSteps(p, turns[0]);
      AdvanceKeepsSteps(p.(executed := p.executed + [p.scheduled.value]), turns[0].now, 0);
      assert |Steps(Fire(p, turns[0]))| == |Steps(p)|;
      PlanEnds(Fire(p, turns[0]), turns[1..]);
    }
  }

  // ---- As it runs ----

  /** Shifts waits off the plan until a step to execute comes up, adding up their delays. */
  method ShiftWaits(plan: Plan, delayMs: int) returns (steps: Plan, extraDelay: int)
    ensures steps == AfterWaits(plan) && extraDelay == delayMs + WaitedHours(plan) * HOUR
  {
    steps, extraDelay := plan, delayMs;
    while |steps| > 0 && steps[0].waits
      invariant AfterWaits(steps) == AfterWaits(plan)
      invariant extraDelay + WaitedHours(steps) * HOUR == delayMs + WaitedHours(plan) * HOUR
      decreases |steps|
    {
      extraDelay := extraDelay + WaitHours(steps[0]) * HOUR;
      steps := steps[1..];
    }
  }

  /** A row for the step, then the event that records it. */
  predicate Recorded(t: Tables, t': Tables, c: CaseId, o: ObligationId, fireAt: int, ref: ActionRef, now: int, error: Option<AppendError>) {
    var t1 := InsertAction(t, c, o, fireAt, ref);
    match AppendTo(t1, c, ActionScheduled(ref.actionId, fireAt), "runner", now)
    case Ok(t2) => error.None? && t' == t2
    case Err(e) => error == Some(e) && t' == t1
  }

  /** One pending row more for the step, and the event that records it, or on a refusal the row and no event. */
  lemma RecordedMeans(t: Tables, t': Tables, c: CaseId, o: ObligationId, fireAt: int, ref: ActionRef, now: int, error: Option<AppendError>)
    requires CachesValid(t) && Recorded(t, t', c, o, fireAt, ref, now, error)
    ensures |t'.actions| == |t.actions| + 1 && t'.actions[..|t.actions|] == t.actions
    ensures var row := t'.actions[|t.actions|];
            row.caseId == c && row.obligationId == o && row.fireAt == fireAt && row.actionRef == ref && row.state.Pending? && row.attempts == 0
    ensures error.None? ==> c in t'.cases && t'.cases[c].state.Scheduled?
    ensures error.None? ==>
              t'.EventsOf(c) == t.EventsOf(c) + [StoredEvent(c, t.cases[c].nextSeq, ActionScheduled(ref.actionId, fireAt), "runner", now)]
    ensures error.Some? ==> t'.cases == t.cases && t'.events == t.events
  {
    var t1 := InsertAction(t, c, o, fireAt, ref);
    assert CachesValid(t1);
    AppendSucceedsIff(t1, c, ActionScheduled(ref.actionId, fireAt), "runner", now);
    if error.None? {
      AppendEffect(t1, c, ActionScheduled(ref.actionId, fireAt), "runner", now);
    }
  }

  /** An append that leads to an open state keeps the fabric sound. */
  lemma AppendAllowed(t: Tables, c: CaseId, e: CaseEvent, now: int)
    requires Inv(t) && c in t.cases && CanTransition(t.cases[c].state, TargetState(e, t.cases[c].state))
    requires !IsTerminal(TargetState(e, t.cases[c].state))
    ensures var r := AppendTo(t, c, e, "runner", now);
            && r.Ok? && Inv(r.value) && c in r.value.cases && r.value.cases[c].state == TargetState(e, t.cases[c].state)
            && r.value.actions == t.actions
  {
    AppendSucceedsIff(t, c, e, "runner", now);
    AppendEffect(t, c, e, "runner", now);
    AppendKeepsInv(t, c, e, "runner", now);
  }

  lemma ScheduleAllowed(t: Tables, t': Tables, c: CaseId, fireAt: int, ref: ActionRef, now: int, error: Option<AppendError>)
    requires Inv(t) && c in t.cases && CanTransition(t.cases[c].state, Scheduled) && !IsTerminal(t.cases[c].state)
    requires Recorded(t, t', c, t.cases[c].obligationId, fireAt, ref, now, error)
    ensures error.None? && Inv(t') && c in t'.cases && t'.cases[c].state.Scheduled? && |t'.actions| == |t.actions| + 1
  {
    ScheduleKeepsInv(t, Op.Schedule(c, fireAt, ref));
    AppendAllowed(InsertAction(t, c, t.cases[c].obligationId, fireAt, ref), c, ActionScheduled(ref.actionId, fireAt), now);
  }

  class Runner {
    const db: Database
    var remainingSteps: map<CaseId, Plan>
    var attemptNos: map<CaseId, nat>

    constructor (db: Database)
      ensures this.db == db && remainingSteps == map[] && attemptNos == map[]
      ensures forall c :: Remaining(c) == [] && Attempt(c) == 0
    {
      this.db := db;
      remainingSteps, attemptNos := map[], map[];
    }

    function Remaining(c: CaseId): Plan
      reads this
    {
      if c in remainingSteps then remainingSteps[c] else []
    }

    function Attempt(c: CaseId): nat
      reads this
    {
      if c in attemptNos then attemptNos[c] else 0
    }

    /** Schedules the next step, then records it; a refused record leaves the row scheduled. */
    method AdvancePlan(c: CaseId, o: ObligationId, delayMs: int, now: int) returns (error: Option<AppendError>)
      modifies this`remainingSteps, db
      ensures attemptNos == old(attemptNos)
      ensures var plan := old(Remaining(c)); var lead := NextStep(plan);
              && (plan != [] ==> remainingSteps == old(remainingSteps)[c := if lead.Nothing? then [] else lead.rest])
              && (plan == [] ==> remainingSteps == old(remainingSteps))
              && (lead.Nothing? ==> error.None? && db.Tables() == old(db.Tables()))
              && (lead.Lead? ==> Recorded(old(db.Tables()), db.Tables(), c, o, now + delayMs + lead.waited * HOUR,
                                          ActionRef(lead.step.actionId, lead.step.params,
                                                    if c in attemptNos then attemptNos[c] else 0), now, error))
    {
      hide Recorded, AfterWaits, WaitedHours;
      if c !in remainingSteps || |remainingSteps[c]| == 0 {
        return None;
      }
      var rest, extraDelay := ShiftWaits(remainingSteps[c], delayMs);
      if |rest| == 0 {
        remainingSteps := remainingSteps[c := []];
        return None;
      }
      remainingSteps := remainingSteps[c := rest[1..]];
      error := Put(c, o, now + extraDelay, ActionRef(rest[0].actionId, rest[0].params, Attempt(c)), now);
    }

    method Propose(c: CaseId, tier: nat, now: int)
      requires Inv(db.Tables()) && c in db.cases && CanTransition(db.cases[c].state, Diagnosing)
      modifies db
      ensures Inv(db.Tables()) && c in db.cases && db.cases[c].state.Planning? && db.actions == old(db.actions)
    {
      hide Inv, AppendTo;
      AppendAllowed(db.Tables(), c, DiagnosisStarted(tier), now);
      var r := db.Append(c, DiagnosisStarted(tier), "runner", now);
      AppendAllowed(db.Tables(), c, PlanProposed(1), now);
      r := db.Append(c, PlanProposed(1), "runner", now);
    }

    /** Plans a case afresh where that is legal; then diagnosing, proposing and scheduling are never refused. */
    method StartPlan(c: CaseId, steps: Plan, tier: nat, startDelayMs: int, closed: bool, now: int) returns (planned: bool)
      requires Inv(db.Tables())
      modifies this, db
      ensures planned == (steps != [] && !closed && c in old(db.cases) && CanTransition(old(db.cases)[c].state, Diagnosing))
      ensures !planned ==> db.Tables() == old(db.Tables()) && remainingSteps == old(remainingSteps) && attemptNos == old(attemptNos)
      ensures planned ==>
                && Inv(db.Tables()) && Attempt(c) == 0
                && c in db.cases && db.cases[c].state == (if NextStep(steps).Lead? then Scheduled else Planning)
                && Remaining(c) == (if NextStep(steps).Lead? then NextStep(steps).rest else [])
                && |db.actions| == |old(db.actions)| + (if NextStep(steps).Lead? then 1 else 0)
    {
      hide Recorded, NextStep, Inv, AppendTo, InsertAction, WaitedHours, AfterWaits, Capabilities;
      if |steps| == 0 || closed || c !in db.cases || !CanTransition(db.cases[c].state, Diagnosing) {
        return false;
      }
      remainingSteps := remainingSteps[c := steps];
      attemptNos := attemptNos[c := 0];
      Propose(c, tier, now);
      ghost var t := db.Tables();
      var error := AdvancePlan(c, db.cases[c].obligationId, startDelayMs, now);
      if NextStep(steps).Lead? {
        ScheduleAllowed(t, db.Tables(), c, now + startDelayMs + NextStep(steps).waited * HOUR,
                        ActionRef(NextStep(steps).step.actionId, NextStep(steps).step.params, 0), now, error);
      }
      return true;
    }

    method Put(c: CaseId, o: ObligationId, fireAt: int, ref: ActionRef, now: int) returns (error: Option<AppendError>)
      modifies db
      ensures Recorded(old(db.Tables()), db.Tables(), c, o, fireAt, ref, now, error)
    {
      var _ := db.Schedule(c, o, fireAt, ref);
      var r := db.Append(c, ActionScheduled(ref.actionId, fireAt), "runner", now);
      return if r.Err? then Some(r.error) else None;
    }
  }
}
