/**
 * The incident manager and the release controller as they run: loops over case ids
 * that write the incident tables, the event log and the schedule in place
 * (packages/engine/src/incident.ts, packages/engine/src/release-controller.ts).
 */
module IncidentManagers {
  import opened Wrappers
  import opened StateMachine
  import opened CaseEvents
  import opened CaseFabric
  import opened FabricInvariant
  import opened SortedIds
  import opened Databases
  import opened Incidents
  import opened Mulberry

  lemma ReleaseSliceFrame(b: Book, inc: IncidentId, slice: seq<CaseId>, now: int)
    requires slice != []
    ensures var b' := ReleaseSlice(b, inc, slice, now).book;
            b'.members == MarkReleased(b.members, inc, slice, now) && b'.incidents == b.incidents && b'.inFlight == b.inFlight
  {
    ResumeAllFrame(b.(members := MarkReleased(b.members, inc, slice, now)), inc, slice, LiveAmong(b.fab, slice), now);
  }

  /** Releasing the first `k` parked cases leaves the others parked. */
  lemma ReleasedCount(b: Book, b': Book, inc: IncidentId, k: nat, now: int)
    requires k <= |ParkedCases(b, inc)| && b'.members == MarkReleased(b.members, inc, ParkedCases(b, inc)[..k], now)
    ensures |ParkedSet(b', inc)| == |ParkedCases(b, inc)| - k
  {
    var parked := ParkedCases(b, inc);
    forall c ensures c in ParkedSet(b', inc) <==> c in parked && c !in parked[..k] {
      assert c in parked <==> Parked(b, inc, c);
      assert c in ParkedSet(b', inc) <==> Parked(b', inc, c);
    }
    RestCount(parked, k, ParkedSet(b', inc));
  }

  lemma RestCount(s: seq<nat>, k: nat, rest: set<nat>)
    requires Ascending(s) && k <= |s| && forall x :: x in rest <==> x in s && x !in s[..k]
    ensures |rest| == |s| - k
  {
    assert s == s[..k] + s[k..];
    forall x | x in s[k..] ensures x !in s[..k] {
      var i :| k <= i < |s| && s[i] == x;
    }
    AscendingCount(s[k..]);
    assert rest == Elements(s[k..]);
  }

  datatype StepAction = Reparked | Completed | Released

  datatype ReleaseStep = ReleaseStep(stage: nat, releasedNow: nat, stillParked: nat, action: StepAction)

  /** The reported step agrees with the tables it leaves. */
  predicate StepAgrees(step: ReleaseStep, b: Book, inc: IncidentId) {
    && inc in b.incidents && step.stage == b.incidents[inc].stage
    && step.stillParked == |ParkedSet(b, inc)|
    && step.releasedNow == if step.action.Released? then |InFlight(b, inc)| else 0
  }

  lemma AdvanceAgrees(b: Book, b': Book, inc: IncidentId, draw: real, config: Config, now: int)
    requires inc in b.incidents && ParkedCases(b, inc) != [] && Advance(b, inc, draw, config, now) == Outcome(b', None)
    ensures var n, k, stage := |ParkedCases(b, inc)|, |Slice(b, inc, draw, config)|, b.incidents[inc].stage;
            0 < k <= n && StepAgrees(ReleaseStep(stage + 1, k, n - k, Released), b', inc)
  {
    var slice := Slice(b, inc, draw, config);
    var b1 := ReleaseSlice(b, inc, slice, now).book;
    ReleaseSliceFrame(b, inc, slice, now);
    ReleasedCount(b, b1, inc, |slice|, now);
    assert ParkedSet(b', inc) == ParkedSet(b1, inc);
  }

  /** The breaker's outcome, from what the repark leaves. */
  lemma BreakIs(b: Book, inc: IncidentId, now: int)
    ensures var r := ReparkAll(b, inc, InFlight(b, inc), now);
            && (InFlight(b, inc) == [] ==> Break(b, inc, now) == Outcome(SetIncident(b, inc, IncidentOpen, Some(0), now), None))
            && (r.error.Some? ==> Break(b, inc, now) == r)
            && (InFlight(b, inc) != [] && r.error.None? ==>
                  Break(b, inc, now) ==
                  Outcome(SetIncident(r.book.(inFlight := r.book.inFlight[inc := []]), inc, IncidentOpen, Some(0), now), None))
  {
    NothingToRepark(b, inc, now);
  }

  lemma BreakAgrees(b: Book, inc: IncidentId, parked: nat)
    requires inc in b.incidents && b.incidents[inc].stage == 0 && parked == |ParkedSet(b, inc)|
    ensures StepAgrees(ReleaseStep(0, 0, parked, Reparked), b, inc)
  {
  }

  class IncidentManager {
    const db: Database
    var members: map<Member, Option<int>>
    var incidents: map<IncidentId, Incident>

    constructor (db: Database)
      ensures this.db == db && members == map[] && incidents == map[]
    {
      this.db := db;
      members, incidents := map[], map[];
    }

    /** The database, the incident tables, and what a controller holds in flight. */
    function BookWith(inFlight: map<IncidentId, seq<CaseId>>): Book
      reads this, db
    {
      Book(db.Tables(), members, incidents, inFlight)
    }

    predicate IsLive(c: CaseId)
      reads db
    {
      Live(db.Tables(), c)
    }

    /** Stops at the first append the state machine refuses, leaving what it has done. */
    method AttachAndSuppress(inc: IncidentId, cs: seq<CaseId>, now: int, ghost inFlight: map<IncidentId, seq<CaseId>>)
      returns (parked: nat, error: Option<AppendError>)
      modifies this, db
      ensures Outcome(BookWith(inFlight), error) == AttachAll(old(BookWith(inFlight)), inc, cs, now)
      ensures error.None? ==> |members| == |old(members)| + parked
    {
      parked := 0;
      for i := 0 to |cs|
        invariant AttachAll(old(BookWith(inFlight)), inc, cs, now) == AttachAll(BookWith(inFlight), inc, cs[i..], now)
        invariant |members| == |old(members)| + parked
      {
        var c := cs[i];
        assert cs[i..][1..] == cs[i + 1..];
        if (inc, c) !in members && IsLive(c) {
          members := members[(inc, c) := None];
          var r := db.Append(c, IncidentAttached(inc), "incident_manager", now);
          if r.Err? {
            return parked, Some(r.error);
          }
          var _ := db.CancelForCase(c, now);
          parked := parked + 1;
        }
      }
      return parked, None;
    }

    method Parked(inc: IncidentId) returns (cs: seq<CaseId>)
      ensures Elements(cs) == ParkedSet(BookWith(map[]), inc) && Ascending(cs)
      ensures |cs| == |ParkedSet(BookWith(map[]), inc)| && forall i, j :: 0 <= i < j < |cs| ==> cs[i] < cs[j]
      ensures forall f :: cs == ParkedCases(BookWith(f), inc)
    {
      var parked := set m | m in members && m.0 == inc && members[m].None? :: m.1;
      assert forall f :: ParkedSet(BookWith(f), inc) == parked;
      cs := Sorted(parked);
    }

    method Release(inc: IncidentId, cs: seq<CaseId>, now: int, ghost inFlight: map<IncidentId, seq<CaseId>>)
      returns (error: Option<AppendError>)
      modifies this, db
      ensures Outcome(BookWith(inFlight), error) == ReleaseSlice(old(BookWith(inFlight)), inc, cs, now)
    {
      if |cs| == 0 {
        return None;
      }
      var live := set c | c in cs && IsLive(c);
      assert live == LiveAmong(db.Tables(), cs);
      members := map m | m in members :: if m.0 == inc && m.1 in cs then Some(now) else members[m];
      for i := 0 to |cs|
        invariant ReleaseSlice(old(BookWith(inFlight)), inc, cs, now) == ResumeAll(BookWith(inFlight), inc, cs[i..], live, now)
      {
        assert cs[i..][1..] == cs[i + 1..];
        if cs[i] in live {
          var r := db.Append(cs[i], IncidentReleased(inc), "release_controller", now);
          if r.Err? {
            return Some(r.error);
          }
        }
      }
      return None;
    }

    method Repark(inc: IncidentId, cs: seq<CaseId>, now: int, ghost inFlight: map<IncidentId, seq<CaseId>>)
      returns (error: Option<AppendError>)
      modifies this, db
      ensures Outcome(BookWith(inFlight), error) == ReparkAll(old(BookWith(inFlight)), inc, cs, now)
    {
      for i := 0 to |cs|
        invariant ReparkAll(old(BookWith(inFlight)), inc, cs, now) == ReparkAll(BookWith(inFlight), inc, cs[i..], now)
      {
        var c := cs[i];
        assert cs[i..][1..] == cs[i + 1..];
        if IsLive(c) {
          if (inc, c) in members {
            members := members[(inc, c) := None];
          }
          var r := db.Append(c, IncidentAttached(inc), "circuit_breaker", now);
          if r.Err? {
            return Some(r.error);
          }
          var _ := db.CancelForCase(c, now);
        }
      }
      return None;
    }

    method SetState(inc: IncidentId, state: IncidentState, stage: Option<nat>, now: int)
      modifies this
      ensures forall f :: BookWith(f) == SetIncident(old(BookWith(f)), inc, state, stage, now)
      ensures incidents.Keys == old(incidents.Keys) && forall i :: i in incidents && i != inc ==> incidents[i] == old(incidents)[i]
      ensures inc in incidents ==> incidents[inc].state == state && (stage.Some? ==> incidents[inc].stage == stage.value)
      ensures inc in incidents && stage.None? ==> incidents[inc].stage == old(incidents)[inc].stage
      ensures inc in incidents ==> incidents[inc].closedAt == if state.Closed? then Some(now) else old(incidents)[inc].closedAt
    {
      if inc in incidents {
        incidents := incidents[inc := NewState(incidents[inc], state, stage, now)];
      }
    }
  }

  datatype StepError = UnknownIncident | Failed(why: AppendError)

  function Refusal(r: Result<ReleaseStep, StepError>): Option<AppendError> {
    if r.Err? && r.error.Failed? then Some(r.error.why) else None
  }

  class ReleaseController {
    const manager: IncidentManager
    const config: Config
    const rand: Generator
    var inFlight: map<IncidentId, seq<CaseId>>

    constructor (manager: IncidentManager, config: Config, rand: Generator)
      ensures this.manager == manager && this.config == config && this.rand == rand && inFlight == map[]
    {
      this.manager, this.config, this.rand, inFlight := manager, config, rand, map[];
    }

    function Book(): Book
      reads this, manager, manager.db
    {
      manager.BookWith(inFlight)
    }

    /** What the next draw of the generator will be. */
    function NextDraw(): real
      reads rand
    {
      Output(NextState(rand.a))
    }

    /** The circuit breaker. */
    method PullBack(inc: IncidentId, now: int) returns (r: Result<ReleaseStep, StepError>)
      requires inc in manager.incidents
      modifies this, manager, manager.db
      ensures Outcome(Book(), Refusal(r)) == Break(old(Book()), inc, now) && (r.Err? ==> r.error.Failed?)
      ensures r.Ok? ==> StepAgrees(r.value, Book(), inc) && r.value.action.Reparked? && r.value.stage == 0
    {
      hide ReparkAll, Sorted, MarkReleased, Break, SetIncident, StepAgrees;
      ghost var before := Book();
      ReparkAllFrame(before, inc, InFlight(before, inc), now);
      BreakIs(before, inc, now);
      var released := if inc in inFlight then inFlight[inc] else [];
      if |released| > 0 {
        var e := manager.Repark(inc, released, now, inFlight);
        if e.Some? {
          return Err(Failed(e.value));
        }
        inFlight := inFlight[inc := []];
      }
      manager.SetState(inc, IncidentOpen, Some(0), now);
      var parked := manager.Parked(inc);
      BreakAgrees(Book(), inc, |parked|);
      return Ok(ReleaseStep(0, 0, |parked|, Reparked));
    }

    /** Releases the next slice of the parked cases, of a size the generator jitters. */
    method ReleaseNext(inc: IncidentId, parked: seq<CaseId>, now: int) returns (r: Result<ReleaseStep, StepError>)
      requires inc in manager.incidents && parked == ParkedCases(Book(), inc) != []
      modifies this, manager, manager.db, rand
      ensures Outcome(Book(), Refusal(r)) == Advance(old(Book()), inc, old(NextDraw()), config, now) && (r.Err? ==> r.error.Failed?)
      ensures r.Ok? ==> StepAgrees(r.value, Book(), inc) && r.value.action.Released?
      ensures rand.a == NextState(old(rand.a))
    {
      hide ReleaseSlice, Sorted, StepAgrees, SliceSize, ParkedSet;
      var stage := manager.incidents[inc].stage;
      var draw := rand.Draw();
      var slice := parked[..SliceSize(|parked|, stage, draw, config)];
      ghost var before := Book();
      ReleaseSliceFrame(before, inc, slice, now);
      var e := manager.Release(inc, slice, now, inFlight);
      if e.Some? {
        return Err(Failed(e.value));
      }
      inFlight := inFlight[inc := slice];
      manager.SetState(inc, Releasing, Some(stage + 1), now);
      AdvanceAgrees(before, Book(), inc, draw, config, now);
      return Ok(ReleaseStep(stage + 1, |slice|, |parked| - |slice|, Released));
    }

    /** One step of the ramp. The generator moves only when a slice is cut. */
    method Step(inc: IncidentId, observedRate: real, baselineRate: real, now: int) returns (r: Result<ReleaseStep, StepError>)
      modifies this, manager, manager.db, rand
      ensures inc !in old(manager.incidents) ==> r == Err(UnknownIncident) && Book() == old(Book()) && rand.a == old(rand.a)
      ensures inc in old(manager.incidents) && baselineRate != 0.0 && observedRate < baselineRate * config.healthThreshold ==>
                Outcome(Book(), Refusal(r)) == Break(old(Book()), inc, now)
                && (r.Ok? ==> r.value.action.Reparked? && r.value.stage == 0) && rand.a == old(rand.a)
      ensures inc in old(manager.incidents) && (baselineRate == 0.0 || observedRate >= baselineRate * config.healthThreshold) ==>
                Outcome(Book(), Refusal(r)) == Advance(old(Book()), inc, old(NextDraw()), config, now)
                && (r.Ok? ==> (r.value.action.Completed? <==> old(ParkedCases(Book(), inc)) == []) && !r.value.action.Reparked?)
                && rand.a == if old(ParkedCases(Book(), inc)) == [] then old(rand.a) else NextState(old(rand.a))
      ensures inc in old(manager.incidents) && r.Err? ==> r.error.Failed?
      ensures r.Ok? ==> StepAgrees(r.value, Book(), inc)
      ensures r.Ok? ==> inc in manager.incidents && r.value.stage == manager.incidents[inc].stage
                        && r.value.stillParked == |ParkedSet(Book(), inc)|
                        && r.value.releasedNow == if r.value.action.Released? then |InFlight(Book(), inc)| else 0
    {
      if inc !in manager.incidents {
        return Err(UnknownIncident);
      }
      if !Healthy(observedRate, baselineRate, config) {
        r := PullBack(inc, now);
        return;
      }
      var parked := manager.Parked(inc);
      if |parked| == 0 {
        manager.SetState(inc, Closed, Some(|RAMP_STAGES|), now);
        return Ok(ReleaseStep(|RAMP_STAGES|, 0, 0, Completed));
      }
      r := ReleaseNext(inc, parked, now);
    }
  }
}
