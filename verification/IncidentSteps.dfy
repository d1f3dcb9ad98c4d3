/**
 * Incidents at the grain of single statements: any number of attach loops and ramp
 * steps, interleaved with each other and with case traffic, and able to stop between
 * any two statements.
 */
module IncidentSteps {
  import opened Wrappers
  import opened StateMachine
  import opened CaseEvents
  import opened CaseFabric
  import opened FabricInvariant
  import opened SortedIds
  import opened ScheduleRuns
  import opened Incidents
  import opened IncidentRuns

  /** The next statement of a loop that parks: is it a member, is it live, write the member, append, cancel. */
  datatype Phase = Checking | Looking | Writing | Noted | Suppressed

  /**
   * How far one call has got. `Parking` is attachAndSuppress, or, `again`, the
   * breaker's repark; the others are the statements of a healthy step. `doubt` is
   * history: the cases of the slice whose own park was not over when it was marked.
   */
  datatype Task =
    | Parking(inc: IncidentId, todo: seq<CaseId>, phase: Phase, again: bool)
    | Reading(inc: IncidentId, stage: nat, draw: real, config: Config)
    | Sliced(inc: IncidentId, stage: nat, slice: seq<CaseId>)
    | Counted(inc: IncidentId, stage: nat, slice: seq<CaseId>, live: set<CaseId>)
    | Resuming(inc: IncidentId, stage: nat, slice: seq<CaseId>, live: set<CaseId>, todo: seq<CaseId>, doubt: set<CaseId>)
    | Setting(inc: IncidentId, state: IncidentState, stage: nat)

  /**
   * `stranded` is history: the members whose park died between its statements, until
   * the case has closed, been released, or been suppressed and emptied after all.
   */
  datatype World = World(book: Book, tasks: map<Worker, Task>, stranded: set<Member>)

  datatype Step =
    | Engine(op: CaseFabric.Op)
    | OpenIncident(inc: IncidentId)
    | BeginAttach(h: Worker, inc: IncidentId, cs: seq<CaseId>)
    | BeginRamp(h: Worker, inc: IncidentId, healthy: bool, draw: real, config: Config)
    | Go(h: Worker, now: int)
    | Crash(h: Worker)
    | Forget(inc: IncidentId)

  // ---- Who may do what ----

  function CasesOf(t: Task): seq<CaseId> {
    match t
    case Parking(_, todo, _, _) => todo
    case Sliced(_, _, slice) => slice
    case Counted(_, _, slice, _) => slice
    case Resuming(_, _, slice, _, _, _) => slice
    case _ => []
  }

  /** A step of the release controller, as opposed to an attach. */
  predicate Ramps(t: Task) {
    t.Parking? ==> t.again
  }

  predicate Concerns(t: Task, inc: IncidentId, c: CaseId) {
    t.inc == inc && c in CasesOf(t)
  }

  /** Parked by the incident, in its last slice, or in the hands of one of its workers. */
  ghost predicate Holds(w: World, inc: IncidentId, c: CaseId) {
    Held(w.book, inc, c) || exists h :: h in w.tasks && Concerns(w.tasks[h], inc, c)
  }

  ghost predicate RampOf(w: World, h: Worker, inc: IncidentId) {
    h in w.tasks && Ramps(w.tasks[h]) && w.tasks[h].inc == inc
  }

  /**
   * The rest of the engine: anything, except that only the incident manager emits
   * incident events, and that a suppressed case is neither scheduled nor moved
   * anywhere but to a terminal state.
   */
  predicate Traffic(t: Tables, op: CaseFabric.Op) {
    && (op.Append? ==>
          && !TouchesIncident(op.e)
          && (op.c in t.cases && t.cases[op.c].state.SuppressedByIncident? ==>
                TargetState(op.e, SuppressedByIncident).SuppressedByIncident? || IsTerminal(TargetState(op.e, SuppressedByIncident))))
    && (op.Schedule? && op.c in t.cases ==> !t.cases[op.c].state.SuppressedByIncident?)
  }

  /** A case joins an incident that no other holds it for, and an incident is ramped by one step at a time. */
  ghost predicate Enabled(w: World, step: Step) {
    match step
    case Engine(op) => Traffic(w.book.fab, op)
    case OpenIncident(inc) => inc !in w.book.incidents
    case BeginAttach(h, inc, cs) => h !in w.tasks && inc in w.book.incidents && forall j, c :: c in cs && Holds(w, j, c) ==> j == inc
    case BeginRamp(h, inc, _, _, _) => h !in w.tasks && inc in w.book.incidents && forall k :: !RampOf(w, k, inc)
    case Go(h, _) => h in w.tasks && (Cancels(w.tasks[h]) ==> !CaseLocked(w.book.fab, w.tasks[h].todo[0]))
    case Crash(h) => h in w.tasks
    case Forget(inc) => forall k :: !RampOf(w, k, inc)
  }

  predicate Cancels(t: Task) {
    t.Parking? && t.phase.Suppressed? && t.todo != []
  }

  // ---- One statement ----

  function Move(w: World, h: Worker, to: Task): World {
    w.(tasks := w.tasks[h := to])
  }

  function Finish(w: World, h: Worker): World {
    w.(tasks := w.tasks - {h})
  }

  function First(again: bool): Phase {
    if again then Looking else Checking
  }

  function Source(again: bool): string {
    if again then "circuit_breaker" else "incident_manager"
  }

  /** The member row: inserted by an attach, set back to parked by the breaker if it is there. */
  function Written(members: map<Member, Option<int>>, m: Member, again: bool): map<Member, Option<int>> {
    if again && m !in members then members else members[m := None]
  }

  function ParkNext(w: World, h: Worker, now: int): World
    requires h in w.tasks && w.tasks[h].Parking?
  {
    var b, t := w.book, w.tasks[h];
    if t.todo == [] then
      if t.again then Move(w.(book := b.(inFlight := b.inFlight[t.inc := []])), h, Setting(t.inc, IncidentOpen, 0)) else Finish(w, h)
    else
      var c, skip := t.todo[0], t.(todo := t.todo[1..], phase := First(t.again));
      match t.phase
      case Checking => Move(w, h, if (t.inc, c) in b.members then skip else t.(phase := Looking))
      case Looking => Move(w, h, if Live(b.fab, c) then t.(phase := Writing) else skip)
      case Writing =>
        if !t.again && (t.inc, c) in b.members then Finish(w, h)
        else Move(w.(book := b.(members := Written(b.members, (t.inc, c), t.again))), h, t.(phase := Noted))
      case Noted =>
        var r := AppendTo(b.fab, c, IncidentAttached(t.inc), Source(t.again), now);
        if r.Err? then Finish(w, h) else Move(w.(book := b.(fab := r.value)), h, t.(phase := Suppressed))
      case Suppressed =>
        Move(w.(book := b.(fab := b.fab.(actions := CancelFor(b.fab.actions, c, now)))), h, skip)
  }

  /** The park of this member is between the write and the cancel. */
  predicate Parks(t: Task, m: Member, phase: Phase) {
    t.Parking? && t.phase == phase && t.todo != [] && m == (t.inc, t.todo[0])
  }

  ghost predicate At(w: World, m: Member, phase: Phase) {
    exists h :: h in w.tasks && Parks(w.tasks[h], m, phase)
  }

  ghost predicate InDoubt(w: World, m: Member) {
    At(w, m, Noted) || At(w, m, Suppressed) || m in w.stranded
  }

  ghost function RampNext(w: World, h: Worker, now: int): World
    requires h in w.tasks && !w.tasks[h].Parking?
  {
    var b := w.book;
    match w.tasks[h]
    case Reading(inc, stage, draw, config) =>
      var parked := ParkedCases(b, inc);
      Move(w, h, if parked == [] then Setting(inc, Closed, |RAMP_STAGES|)
                 else Sliced(inc, stage, parked[..SliceSize(|parked|, stage, draw, config)]))
    case Sliced(inc, stage, slice) => Move(w, h, Counted(inc, stage, slice, LiveAmong(b.fab, slice)))
    case Counted(inc, stage, slice, live) =>
      Move(w.(book := b.(members := MarkReleased(b.members, inc, slice, now))), h,
           Resuming(inc, stage, slice, live, slice, set c | c in slice && InDoubt(w, (inc, c))))
    case Resuming(inc, stage, slice, live, todo, doubt) =>
      if todo == [] then
        Move(w.(book := b.(inFlight := b.inFlight[inc := slice])), h, Setting(inc, Releasing, stage + 1))
      else if todo[0] !in live then Move(w, h, Resuming(inc, stage, slice, live, todo[1..], doubt))
      else
        var r := AppendTo(b.fab, todo[0], IncidentReleased(inc), "release_controller", now);
        if r.Err? then Finish(w, h)
        else Move(w.(book := b.(fab := r.value)), h, Resuming(inc, stage, slice, live, todo[1..], doubt))
    case Setting(inc, state, stage) => Finish(w.(book := SetIncident(b, inc, state, Some(stage), now)), h)
  }

  function Forgetting(b: Book, inc: IncidentId): Book {
    b.(inFlight := b.inFlight - {inc})
  }

  ghost function Raw(w: World, step: Step): World
    requires Enabled(w, step)
  {
    match step
    case Engine(op) => w.(book := w.book.(fab := Apply(w.book.fab, op)))
    case OpenIncident(inc) => w.(book := w.book.(incidents := w.book.incidents[inc := OPENED]))
    case BeginAttach(h, inc, cs) => Move(w, h, Parking(inc, cs, Checking, false))
    case BeginRamp(h, inc, healthy, draw, config) =>
      Move(w, h, if healthy then Reading(inc, w.book.incidents[inc].stage, draw, config)
                 else if InFlight(w.book, inc) == [] then Setting(inc, IncidentOpen, 0)
                 else Parking(inc, InFlight(w.book, inc), Looking, true))
    case Go(h, now) => if w.tasks[h].Parking? then ParkNext(w, h, now) else RampNext(w, h, now)
    case Crash(h) =>
      var t := w.tasks[h];
      Finish(if Ramps(t) then w.(book := Forgetting(w.book, t.inc)) else w, h)
    case Forget(inc) => w.(book := Forgetting(w.book, inc))
  }

  /** The member whose park a crash cuts between its statements. */
  function Deserted(w: World, step: Step): set<Member> {
    if step.Crash? && step.h in w.tasks then
      var t := w.tasks[step.h];
      if t.Parking? && (t.phase.Noted? || t.phase.Suppressed?) && t.todo != [] then {(t.inc, t.todo[0])} else {}
    else {}
  }

  ghost function Stranding(w: World, deserted: set<Member>): World {
    w.(stranded := set m | m in w.stranded + deserted && Parked(w.book, m.0, m.1) && !ParkedOk(w.book.fab, m.0, m.1))
  }

  ghost function Act(w: World, step: Step): World {
    if Enabled(w, step) then Stranding(Raw(w, step), Deserted(w, step)) else w
  }

  ghost function ActAll(w: World, steps: seq<Step>): World
    decreases |steps|
  {
    if steps == [] then w else ActAll(Act(w, steps[0]), steps[1..])
  }

  const NO_INCIDENTS := World(Book(EMPTY, map[], map[], map[]), map[], {})

  // ---- The invariant ----

  /** Suppressed by this incident, or stopped. */
  predicate HeldDown(t: Tables, m: Member) {
    m.1 in t.cases
    && (IsTerminal(t.cases[m.1].state)
        || (t.cases[m.1].state.SuppressedByIncident? && t.cases[m.1].incidentId == Some(m.0)))
  }

  /** Once the append has been made a parked case is suppressed, and once the cancel has run it is quiet. */
  ghost predicate PlaceOk(w: World, m: Member)
    requires m in w.book.members
  {
    && m.1 in w.book.fab.cases
    && (w.book.members[m].None? && m !in w.stranded && !At(w, m, Noted) ==>
          HeldDown(w.book.fab, m) && (!At(w, m, Suppressed) ==> ParkedOk(w.book.fab, m.0, m.1)))
  }

  ghost predicate PlacesOk(w: World) {
    forall m {:trigger PlaceOk(w, m)} :: m in w.book.members ==> PlaceOk(w, m)
  }

  /** Waiting to be resumed: suppressed still, unless it has stopped. */
  predicate Waiting(t: Tables, c: CaseId) {
    c in t.cases && (t.cases[c].state.SuppressedByIncident? || IsTerminal(t.cases[c].state))
  }

  ghost predicate TaskOk(b: Book, t: Task) {
    match t
    case Parking(inc, todo, phase, again) =>
      && (!phase.Checking? && !phase.Looking? ==> todo != [] && todo[0] in b.fab.cases)
      && (again ==> forall c :: c in todo ==> (inc, c) in b.members)
    case Sliced(inc, _, slice) => Ascending(slice) && forall c :: c in slice ==> Parked(b, inc, c)
    case Counted(inc, _, slice, _) => Ascending(slice) && forall c :: c in slice ==> Parked(b, inc, c)
    case Resuming(inc, _, slice, _, todo, doubt) =>
      && Ascending(todo) && (forall c :: c in slice ==> (inc, c) in b.members)
      && (forall c :: c in todo ==> c in slice && !Parked(b, inc, c))
      && (forall c :: c in todo && c !in doubt ==> Waiting(b.fab, c))
    case _ => true
  }

  ghost predicate TasksOk(w: World) {
    forall h {:trigger TaskOk(w.book, w.tasks[h])} :: h in w.tasks ==> TaskOk(w.book, w.tasks[h])
  }

  ghost predicate Single(w: World, c: CaseId) {
    forall i, j :: Holds(w, i, c) && Holds(w, j, c) ==> i == j
  }

  ghost predicate AllSingle(w: World) {
    forall c {:trigger Single(w, c)} :: Single(w, c)
  }

  ghost predicate OneRamp(w: World) {
    forall h, k, inc :: RampOf(w, h, inc) && RampOf(w, k, inc) ==> h == k
  }

  ghost predicate WorldInv(w: World) {
    Inv(w.book.fab) && PlacesOk(w) && TasksOk(w) && InFlightOk(w.book) && AllSingle(w) && OneRamp(w)
  }
}
