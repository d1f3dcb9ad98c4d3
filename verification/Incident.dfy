/**
 * Incidents: parking, staged release and the circuit breaker
 * (packages/engine/src/incident.ts, packages/engine/src/release-controller.ts).
 *
 * A `Book` is the fabric's tables with the incident tables beside them. An
 * operation can stop part of the way with an error, so it yields the book it
 * leaves and the error, if any.
 */
module Incidents {
  import opened Wrappers
  import opened StateMachine
  import opened CaseEvents
  import opened CaseFabric
  import opened SortedIds
  import opened Rounding

  datatype IncidentState = IncidentOpen | Releasing | Closed

  datatype Incident = Incident(state: IncidentState, stage: nat, closedAt: Option<int>)

  const OPENED := Incident(IncidentOpen, 0, None)

  type Member = (IncidentId, CaseId)

  /** `members` maps a member to its `released_at`; a member without one is parked. */
  datatype Book = Book(
    fab: Tables,
    members: map<Member, Option<int>>,
    incidents: map<IncidentId, Incident>,
    inFlight: map<IncidentId, seq<CaseId>>)

  datatype Outcome = Outcome(book: Book, error: Option<AppendError>)

  /** What the breaker would pull back. */
  function InFlight(b: Book, inc: IncidentId): seq<CaseId> {
    if inc in b.inFlight then b.inFlight[inc] else []
  }

  predicate Parked(b: Book, inc: IncidentId, c: CaseId) {
    (inc, c) in b.members && b.members[(inc, c)].None?
  }

  /** Parked by the incident, or in the slice its breaker would pull back. */
  predicate Held(b: Book, inc: IncidentId, c: CaseId) {
    Parked(b, inc, c) || c in InFlight(b, inc)
  }

  function ParkedSet(b: Book, inc: IncidentId): set<CaseId> {
    set m | m in b.members && m.0 == inc && b.members[m].None? :: m.1
  }

  function ParkedCases(b: Book, inc: IncidentId): seq<CaseId> {
    Sorted(ParkedSet(b, inc))
  }

  // ---- Parking and releasing ----

  /** Append the suppression, then cancel the schedule: two statements, in this order. */
  function ParkOne(b: Book, inc: IncidentId, c: CaseId, source: string, now: int): Outcome {
    match AppendTo(b.fab, c, IncidentAttached(inc), source, now)
    case Err(x) => Outcome(b, Some(x))
    case Ok(t) => Outcome(b.(fab := t.(actions := CancelFor(t.actions, c, now))), None)
  }

  function AttachOne(b: Book, inc: IncidentId, c: CaseId, now: int): Outcome {
    if (inc, c) in b.members || !Live(b.fab, c) then Outcome(b, None)
    else ParkOne(b.(members := b.members[(inc, c) := None]), inc, c, "incident_manager", now)
  }

  function AttachAll(b: Book, inc: IncidentId, cs: seq<CaseId>, now: int): Outcome
    decreases |cs|
  {
    if cs == [] then Outcome(b, None)
    else
      var r := AttachOne(b, inc, cs[0], now);
      if r.error.Some? then r else AttachAll(r.book, inc, cs[1..], now)
  }

  function MarkReleased(members: map<Member, Option<int>>, inc: IncidentId, cs: seq<CaseId>, now: int): map<Member, Option<int>> {
    map m | m in members :: if m.0 == inc && m.1 in cs then Some(now) else members[m]
  }

  function ResumeOne(b: Book, inc: IncidentId, c: CaseId, now: int): Outcome {
    match AppendTo(b.fab, c, IncidentReleased(inc), "release_controller", now)
    case Err(x) => Outcome(b, Some(x))
    case Ok(t) => Outcome(b.(fab := t), None)
  }

  function ResumeAll(b: Book, inc: IncidentId, cs: seq<CaseId>, live: set<CaseId>, now: int): Outcome
    decreases |cs|
  {
    if cs == [] then Outcome(b, None)
    else
      var r := if cs[0] in live then ResumeOne(b, inc, cs[0], now) else Outcome(b, None);
      if r.error.Some? then r else ResumeAll(r.book, inc, cs[1..], live, now)
  }

  function LiveAmong(fab: Tables, cs: seq<CaseId>): set<CaseId> {
    set c | c in cs && Live(fab, c)
  }

  /** Marks every case of the slice released, then resumes those that were live when it began. */
  function ReleaseSlice(b: Book, inc: IncidentId, cs: seq<CaseId>, now: int): Outcome {
    if cs == [] then Outcome(b, None)
    else ResumeAll(b.(members := MarkReleased(b.members, inc, cs, now)), inc, cs, LiveAmong(b.fab, cs), now)
  }

  function ReparkOne(b: Book, inc: IncidentId, c: CaseId, now: int): Outcome {
    if !Live(b.fab, c) then Outcome(b, None)
    else
      var members := if (inc, c) in b.members then b.members[(inc, c) := None] else b.members;
      ParkOne(b.(members := members), inc, c, "circuit_breaker", now)
  }

  function ReparkAll(b: Book, inc: IncidentId, cs: seq<CaseId>, now: int): Outcome
    decreases |cs|
  {
    if cs == [] then Outcome(b, None)
    else
      var r := ReparkOne(b, inc, cs[0], now);
      if r.error.Some? then r else ReparkAll(r.book, inc, cs[1..], now)
  }

  // ---- The ramp ----

  const RAMP_STAGES: seq<real> := [0.05, 0.15, 0.4, 1.0]

  datatype Config = Config(healthThreshold: real, jitterFraction: real)

  const DEFAULT_CONFIG := Config(0.9, 0.2)

  predicate Healthy(observedRate: real, baselineRate: real, config: Config) {
    baselineRate == 0.0 || observedRate >= baselineRate * config.healthThreshold
  }

  function Fraction(stage: nat): real {
    RAMP_STAGES[if stage < 3 then stage else 3]
  }

  /** A factor around one, so that a stage does not land as a single spike. */
  function Jitter(draw: real, config: Config): real {
    Around(draw * 2.0 - 1.0, config.jitterFraction)
  }

  function Around(u: real, j: real): real {
    1.0 + u * j
  }

  function Share(n: nat, stage: nat): real {
    n as real * Fraction(stage)
  }

  /** The jittered share, rounded, but at least one and at most all. */
  function Capped(n: nat, share: real, jitter: real): (k: nat)
    ensures k <= n && (n > 0 ==> k > 0)
  {
    var rounded := Round(share * jitter);
    var target := if rounded < 1 then 1 else rounded;
    if target < n then target else n
  }

  /** How many of `n` parked cases a stage releases, given a draw in [0, 1). */
  function SliceSize(n: nat, stage: nat, draw: real, config: Config): (k: nat)
    ensures k <= n && (n > 0 ==> k > 0)
  {
    if Fraction(stage) == 1.0 then n else Capped(n, Share(n, stage), Jitter(draw, config))
  }

  /** Without a stage the old one stays; closing stamps the row, and reopening leaves the stamp. */
  function NewState(i: Incident, state: IncidentState, stage: Option<nat>, now: int): Incident {
    Incident(state, if stage.Some? then stage.value else i.stage, if state.Closed? then Some(now) else i.closedAt)
  }

  function SetIncident(b: Book, inc: IncidentId, state: IncidentState, stage: Option<nat>, now: int): Book {
    if inc in b.incidents then b.(incidents := b.incidents[inc := NewState(b.incidents[inc], state, stage, now)]) else b
  }

  function Slice(b: Book, inc: IncidentId, draw: real, config: Config): seq<CaseId>
    requires inc in b.incidents
  {
    var parked := ParkedCases(b, inc);
    parked[..SliceSize(|parked|, b.incidents[inc].stage, draw, config)]
  }

  /** The breaker: pull back the last slice and start the ramp again from zero. */
  function Break(b: Book, inc: IncidentId, now: int): Outcome {
    var r := ReparkAll(b, inc, InFlight(b, inc), now);
    if r.error.Some? then r
    else
      var b1 := if InFlight(b, inc) != [] then r.book.(inFlight := r.book.inFlight[inc := []]) else r.book;
      Outcome(SetIncident(b1, inc, IncidentOpen, Some(0), now), None)
  }

  function Advance(b: Book, inc: IncidentId, draw: real, config: Config, now: int): Outcome
    requires inc in b.incidents
  {
    if ParkedCases(b, inc) == [] then Outcome(SetIncident(b, inc, Closed, Some(|RAMP_STAGES|), now), None)
    else
      var slice := Slice(b, inc, draw, config);
      var r := ReleaseSlice(b, inc, slice, now);
      if r.error.Some? then r
      else
        var b1 := r.book.(inFlight := r.book.inFlight[inc := slice]);
        Outcome(SetIncident(b1, inc, Releasing, Some(b.incidents[inc].stage + 1), now), None)
  }

  // ---- What the loops leave alone ----

  /** Resuming cases writes the fabric and nothing else. */
  lemma {:induction false} ResumeAllFrame(b: Book, inc: IncidentId, cs: seq<CaseId>, live: set<CaseId>, now: int)
    ensures var b' := ResumeAll(b, inc, cs, live, now).book;
            b'.members == b.members && b'.incidents == b.incidents && b'.inFlight == b.inFlight
    decreases |cs|
  {
    if cs != [] {
      var r := if cs[0] in live then ResumeOne(b, inc, cs[0], now) else Outcome(b, None);
      ResumeAllFrame(r.book, inc, cs[1..], live, now);
    }
  }

  lemma {:induction false} ReparkAllFrame(b: Book, inc: IncidentId, cs: seq<CaseId>, now: int)
    ensures var b' := ReparkAll(b, inc, cs, now).book;
            b'.incidents == b.incidents && b'.inFlight == b.inFlight && b'.fab.locked == b.fab.locked
    decreases |cs|
  {
    hide ReparkOne;
    if cs != [] {
      ReparkOneFrame(b, inc, cs[0], now);
      ReparkAllFrame(ReparkOne(b, inc, cs[0], now).book, inc, cs[1..], now);
    }
  }

  lemma ReparkOneFrame(b: Book, inc: IncidentId, c: CaseId, now: int)
    ensures var b' := ReparkOne(b, inc, c, now).book;
            b'.incidents == b.incidents && b'.inFlight == b.inFlight && b'.fab.locked == b.fab.locked
  {
  }

  lemma NothingToRepark(b: Book, inc: IncidentId, now: int)
    ensures ReparkAll(b, inc, [], now) == Outcome(b, None)
  {
  }
}
