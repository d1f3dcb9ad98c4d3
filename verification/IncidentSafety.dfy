/** What every interleaving of the incident statements keeps, and exactly when their appends are refused. */
module IncidentSafety {
  import opened Wrappers
  import opened StateMachine
  import opened CaseEvents
  import opened CaseFabric
  import opened FabricInvariant
  import opened SortedIds
  import opened ScheduleRuns
  import opened Incidents
  import opened IncidentRuns
  import opened IncidentSteps

  // ---- What one worker's statement leaves alone ----

  ghost predicate OthersSame(w: World, w': World, h: Worker) {
    forall k :: k != h ==> (k in w'.tasks <==> k in w.tasks) && (k in w.tasks ==> w'.tasks[k] == w.tasks[k])
  }

  /** At most the rows of these cases, and their places in this incident, have changed. */
  ghost predicate Steady(b: Book, b': Book, inc: IncidentId, cs: set<CaseId>) {
    && b'.fab.cases.Keys == b.fab.cases.Keys
    && (forall d :: d !in cs ==> Untouched(b.fab, b'.fab, d))
    && b.members.Keys <= b'.members.Keys
    && (forall m :: m in b'.members && (m.0 != inc || m.1 !in cs) ==> m in b.members && b'.members[m] == b.members[m])
  }

  ghost predicate Shrinks(w: World, w': World) {
    forall j, c :: Holds(w', j, c) ==> Holds(w, j, c)
  }

  ghost predicate ParksWithin(t: Task, inc: IncidentId, cs: set<CaseId>) {
    forall m :: Parks(t, m, Noted) || Parks(t, m, Suppressed) ==> m.0 == inc && m.1 in cs
  }

  /** The statement of worker `h`, of incident `inc`, on these cases. */
  ghost predicate WorkersStep(w: World, w': World, h: Worker, cs: set<CaseId>) {
    && h in w.tasks && OthersSame(w, w', h) && w.stranded <= w'.stranded
    && Steady(w.book, w'.book, w.tasks[h].inc, cs) && ParksWithin(w.tasks[h], w.tasks[h].inc, cs)
    && (forall c :: c in cs ==> c in CasesOf(w.tasks[h]))
    && (h in w'.tasks ==> w'.tasks[h].inc == w.tasks[h].inc && (Ramps(w'.tasks[h]) <==> Ramps(w.tasks[h]))
                          && ParksWithin(w'.tasks[h], w.tasks[h].inc, cs))
  }

  /** An attach neither unparks a member nor wakes a case. */
  ghost predicate Gentle(b: Book, b': Book, inc: IncidentId, cs: set<CaseId>) {
    forall c :: c in cs ==>
      && ((inc, c) in b.members ==> (inc, c) in b'.members && b'.members[(inc, c)] == b.members[(inc, c)])
      && (Waiting(b.fab, c) ==> Waiting(b'.fab, c))
  }

  lemma AtFrame(w: World, w': World, h: Worker, m: Member, phase: Phase)
    requires OthersSame(w, w', h)
    requires h in w.tasks ==> !Parks(w.tasks[h], m, phase)
    requires h in w'.tasks ==> !Parks(w'.tasks[h], m, phase)
    ensures At(w, m, phase) == At(w', m, phase)
  {
    hide Parks;
    if At(w, m, phase) {
      var k :| k in w.tasks && Parks(w.tasks[k], m, phase);
      assert k in w'.tasks;
    }
    if At(w', m, phase) {
      var k :| k in w'.tasks && Parks(w'.tasks[k], m, phase);
      assert k in w.tasks;
    }
  }

  lemma PlaceFrame(w: World, w': World, m: Member)
    requires m in w.book.members && PlaceOk(w, m) && w.stranded <= w'.stranded
    requires m in w'.book.members && w'.book.members[m] == w.book.members[m] && Untouched(w.book.fab, w'.book.fab, m.1)
    requires At(w, m, Noted) == At(w', m, Noted) && At(w, m, Suppressed) == At(w', m, Suppressed)
    ensures PlaceOk(w', m)
  {
    hide At, Quiet;
  }

  lemma OtherTask(w: World, w': World, h: Worker, cs: set<CaseId>, k: Worker)
    requires AllSingle(w) && OneRamp(w) && WorkersStep(w, w', h, cs) && k in w.tasks && k != h && TaskOk(w.book, w.tasks[k])
    requires !Ramps(w.tasks[h]) ==> Gentle(w.book, w'.book, w.tasks[h].inc, cs)
    ensures TaskOk(w'.book, w.tasks[k])
  {
    hide Ascending, ParksWithin;
    var inc, t := w.tasks[h].inc, w.tasks[k];
    if t.inc == inc {
      assert RampOf(w, h, inc) && RampOf(w, k, inc) ==> h == k;
    } else {
      forall c ensures !(c in cs && c in CasesOf(t)) {
        assert Single(w, c);
        assert c in cs ==> Concerns(w.tasks[h], inc, c) && Holds(w, inc, c);
        assert c in CasesOf(t) ==> Concerns(t, t.inc, c) && Holds(w, t.inc, c);
      }
    }
    forall c
      ensures Waiting(w.book.fab, c) && (t.inc != inc ==> c !in cs) && (t.inc == inc ==> !Ramps(w.tasks[h])) ==> Waiting(w'.book.fab, c)
    {
      assert c !in cs ==> Untouched(w.book.fab, w'.book.fab, c);
    }
  }

  lemma OtherPlace(w: World, w': World, h: Worker, cs: set<CaseId>, m: Member)
    requires AllSingle(w) && WorkersStep(w, w', h, cs) && m in w'.book.members && (m.0 != w.tasks[h].inc || m.1 !in cs)
    requires m in w.book.members && PlaceOk(w, m)
    ensures PlaceOk(w', m)
  {
    hide Parks, ParkedOk, HeldDown;
    var inc := w.tasks[h].inc;
    AtFrame(w, w', h, m, Noted);
    AtFrame(w, w', h, m, Suppressed);
    if m.1 in cs {
      assert Single(w, m.1) && Concerns(w.tasks[h], inc, m.1) && Holds(w, inc, m.1);
      assert Parked(w.book, m.0, m.1) ==> Holds(w, m.0, m.1);
    } else {
      PlaceFrame(w, w', m);
    }
  }

  lemma SingleFrame(w: World, w': World)
    requires AllSingle(w) && Shrinks(w, w')
    ensures AllSingle(w')
  {
    hide Holds;
    forall c ensures Single(w', c) {
      assert Single(w, c);
    }
  }

  /** A worker's statement keeps the invariant when it keeps it for its own cases and its own task. */
  lemma WorkerKeeps(w: World, w': World, h: Worker, cs: set<CaseId>)
    requires WorldInv(w) && WorkersStep(w, w', h, cs) && Inv(w'.book.fab) && InFlightOk(w'.book) && Shrinks(w, w')
    requires !Ramps(w.tasks[h]) ==> Gentle(w.book, w'.book, w.tasks[h].inc, cs)
    requires forall c :: c in cs && (w.tasks[h].inc, c) in w'.book.members ==> PlaceOk(w', (w.tasks[h].inc, c))
    requires h in w'.tasks ==> TaskOk(w'.book, w'.tasks[h])
    ensures WorldInv(w')
  {
    hide Inv, InFlightOk, TaskOk, PlaceOk, Gentle, Shrinks, Ramps, Single, ParksWithin;
    var inc := w.tasks[h].inc;
    forall m | m in w'.book.members ensures PlaceOk(w', m) {
      if m.0 == inc && m.1 in cs {
        assert m == (inc, m.1);
      } else {
        assert m in w.book.members && PlaceOk(w, m);
        OtherPlace(w, w', h, cs, m);
      }
    }
    forall k | k in w'.tasks ensures TaskOk(w'.book, w'.tasks[k]) {
      if k != h {
        OtherTask(w, w', h, cs, k);
      }
    }
    SingleFrame(w, w');
    forall k, l, i | RampOf(w', k, i) && RampOf(w', l, i) ensures k == l {
      assert RampOf(w, k, i) && RampOf(w, l, i);
    }
  }

  lemma WorkerShrinks(w: World, w': World, h: Worker)
    requires h in w.tasks && OthersSame(w, w', h)
    requires h in w'.tasks ==> w'.tasks[h].inc == w.tasks[h].inc && forall c :: c in CasesOf(w'.tasks[h]) ==> Holds(w, w.tasks[h].inc, c)
    requires forall j, c :: Held(w'.book, j, c) ==> Holds(w, j, c)
    ensures Shrinks(w, w')
  {
    hide Held;
    forall j, c | Holds(w', j, c) ensures Holds(w, j, c) {
      if !Held(w'.book, j, c) {
        var k :| k in w'.tasks && Concerns(w'.tasks[k], j, c);
        assert k != h ==> Concerns(w.tasks[k], j, c);
      }
    }
  }

  lemma OwnCases(w: World, h: Worker)
    requires h in w.tasks
    ensures forall c :: c in CasesOf(w.tasks[h]) ==> Holds(w, w.tasks[h].inc, c)
  {
    forall c | c in CasesOf(w.tasks[h]) ensures Holds(w, w.tasks[h].inc, c) {
      assert Concerns(w.tasks[h], w.tasks[h].inc, c);
    }
  }

  lemma SameBook(b: Book, inc: IncidentId)
    ensures Steady(b, b, inc, {}) && Gentle(b, b, inc, {})
  {
  }

  /** A step that only moves the worker on, or ends it. */
  lemma TaskStep(w: World, w': World, h: Worker)
    requires WorldInv(w) && h in w.tasks && w'.book == w.book && w.stranded <= w'.stranded && OthersSame(w, w', h)
    requires ParksWithin(w.tasks[h], w.tasks[h].inc, {})
    requires h in w'.tasks ==>
               var t, t' := w.tasks[h], w'.tasks[h];
               && t'.inc == t.inc && (Ramps(t') <==> Ramps(t)) && TaskOk(w.book, t') && ParksWithin(t', t.inc, {})
               && forall c :: c in CasesOf(t') ==> Holds(w, t.inc, c)
    ensures WorldInv(w')
  {
    hide Inv, TaskOk, PlaceOk, Ramps;
    SameBook(w.book, w.tasks[h].inc);
    forall j, c ensures Held(w'.book, j, c) ==> Holds(w, j, c) {
    }
    WorkerShrinks(w, w', h);
    WorkerKeeps(w, w', h, {});
  }

  // ---- The statements of a park ----

  lemma ParkTail(w: World, h: Worker)
    requires WorldInv(w) && h in w.tasks && w.tasks[h].Parking? && w.tasks[h].todo != []
    ensures var t := w.tasks[h]; var skip := t.(todo := t.todo[1..], phase := First(t.again));
            TaskOk(w.book, skip) && forall c :: c in CasesOf(skip) ==> Holds(w, t.inc, c)
  {
    assert TaskOk(w.book, w.tasks[h]);
    OwnCases(w, h);
    assert forall c :: c in w.tasks[h].todo[1..] ==> c in w.tasks[h].todo;
  }

  /** The two reads. */
  lemma ReadKeeps(w: World, h: Worker, now: int)
    requires WorldInv(w) && h in w.tasks && w.tasks[h].Parking? && w.tasks[h].todo != []
    requires w.tasks[h].phase.Checking? || w.tasks[h].phase.Looking?
    ensures WorldInv(ParkNext(w, h, now))
  {
    hide WorldInv;
    ParkTail(w, h);
    OwnCases(w, h);
    assert TaskOk(w.book, w.tasks[h]) by {
      TaskIsOk(w, h);
    }
    TaskStep(w, ParkNext(w, h, now), h);
  }

  lemma TaskIsOk(w: World, h: Worker)
    requires WorldInv(w) && h in w.tasks
    ensures TaskOk(w.book, w.tasks[h])
  {
  }

  lemma WriteKeeps(w: World, h: Worker, now: int)
    requires WorldInv(w) && h in w.tasks && w.tasks[h].Parking? && w.tasks[h].todo != [] && w.tasks[h].phase.Writing?
    ensures WorldInv(ParkNext(w, h, now))
  {
    hide Inv, Quiet;
    var t, w' := w.tasks[h], ParkNext(w, h, now);
    var c := t.todo[0];
    assert TaskOk(w.book, t);
    OwnCases(w, h);
    if !t.again && (t.inc, c) in w.book.members {
      TaskStep(w, w', h);
    } else {
      FlightFrame(w.book, w'.book);
      forall j, d | Held(w'.book, j, d) ensures Holds(w, j, d) {
        assert Held(w.book, j, d) || (j == t.inc && d == c);
      }
      WorkerShrinks(w, w', h);
      assert At(w', (t.inc, c), Noted) by {
        assert Parks(w'.tasks[h], (t.inc, c), Noted);
      }
      assert PlaceOk(w', (t.inc, c));
      assert Gentle(w.book, w'.book, t.inc, {c}) || t.again;
      WorkerKeeps(w, w', h, {c});
    }
  }

  /** Every open case may be suppressed, so the append is refused exactly when the case has stopped. */
  lemma AttachRefusedIff(t: Tables, c: CaseId, inc: IncidentId, source: string, now: int)
    requires Inv(t) && c in t.cases
    ensures AppendTo(t, c, IncidentAttached(inc), source, now).Err? <==> IsTerminal(t.cases[c].state)
    ensures AppendTo(t, c, IncidentAttached(inc), source, now).Ok? ==>
              var t' := AppendTo(t, c, IncidentAttached(inc), source, now).value;
              && Inv(t') && t'.cases.Keys == t.cases.Keys && t'.cases[c].state.SuppressedByIncident?
              && HeldDown(t', (inc, c)) && forall d :: d != c ==> Untouched(t, t', d)
  {
    hide Inv, AppendTo;
    AppendIncident(t, c, IncidentAttached(inc), source, now);
  }

  lemma NoteKeeps(w: World, h: Worker, now: int)
    requires WorldInv(w) && h in w.tasks && w.tasks[h].Parking? && w.tasks[h].todo != [] && w.tasks[h].phase.Noted?
    ensures WorldInv(ParkNext(w, h, now))
  {
    hide Inv, Quiet, AppendTo;
    var t, w' := w.tasks[h], ParkNext(w, h, now);
    var c := t.todo[0];
    assert TaskOk(w.book, t);
    OwnCases(w, h);
    AttachRefusedIff(w.book.fab, c, t.inc, Source(t.again), now);
    FlightFrame(w.book, w'.book);
    forall j, d | Held(w'.book, j, d) ensures Holds(w, j, d) {
      assert Held(w.book, j, d);
    }
    WorkerShrinks(w, w', h);
    if h in w'.tasks {
      assert At(w', (t.inc, c), Suppressed) by {
        assert Parks(w'.tasks[h], (t.inc, c), Suppressed);
      }
    }
    assert (t.inc, c) in w'.book.members ==> PlaceOk(w', (t.inc, c));
    WorkerKeeps(w, w', h, {c});
  }

  lemma CancelEffect(t: Tables, c: CaseId, now: int)
    requires Inv(t) && !CaseLocked(t, c)
    ensures var t' := t.(actions := CancelFor(t.actions, c, now));
            Inv(t') && Quiet(t', c) && forall d :: Untouched(t, t', d)
  {
    ScheduleKeepsInv(t, CancelForCase(c, now));
  }

  lemma CancelKeeps(w: World, h: Worker, now: int)
    requires WorldInv(w) && h in w.tasks && w.tasks[h].Parking? && w.tasks[h].todo != [] && w.tasks[h].phase.Suppressed?
    requires !CaseLocked(w.book.fab, w.tasks[h].todo[0])
    ensures WorldInv(ParkNext(w, h, now))
  {
    hide Inv, Quiet, CancelFor;
    var t, w' := w.tasks[h], ParkNext(w, h, now);
    var c := t.todo[0];
    assert TaskOk(w.book, t);
    ParkTail(w, h);
    CancelEffect(w.book.fab, c, now);
    FlightFrame(w.book, w'.book);
    forall j, d | Held(w'.book, j, d) ensures Holds(w, j, d) {
      assert Held(w.book, j, d);
    }
    WorkerShrinks(w, w', h);
    if (t.inc, c) in w'.book.members {
      assert PlaceOk(w, (t.inc, c));
      AtFrame(w, w', h, (t.inc, c), Noted);
      assert PlaceOk(w', (t.inc, c));
    }
    WorkerKeeps(w, w', h, {c});
  }

  lemma ParkEndKeeps(w: World, h: Worker, now: int)
    requires WorldInv(w) && h in w.tasks && w.tasks[h].Parking? && w.tasks[h].todo == []
    ensures WorldInv(ParkNext(w, h, now))
  {
    hide Inv, Quiet;
    var t, w' := w.tasks[h], ParkNext(w, h, now);
    forall j ensures FlightOk(w'.book, j) {
      assert FlightOk(w.book, j);
    }
    forall j, d | Held(w'.book, j, d) ensures Holds(w, j, d) {
      assert Held(w.book, j, d);
    }
    WorkerShrinks(w, w', h);
    WorkerKeeps(w, w', h, {});
  }

  lemma ParkKeeps(w: World, h: Worker, now: int)
    requires WorldInv(w) && IncidentSteps.Enabled(w, Go(h, now)) && w.tasks[h].Parking?
    ensures WorldInv(ParkNext(w, h, now))
  {
    hide WorldInv, ParkNext, CaseLocked;
    var t := w.tasks[h];
    if t.todo == [] {
      ParkEndKeeps(w, h, now);
    } else {
      match t.phase
      case Checking => ReadKeeps(w, h, now);
      case Looking => ReadKeeps(w, h, now);
      case Writing => WriteKeeps(w, h, now);
      case Noted => NoteKeeps(w, h, now);
      case Suppressed => CancelKeeps(w, h, now);
    }
  }

  // ---- The statements of a healthy step ----

  lemma SliceReadKeeps(w: World, h: Worker, now: int)
    requires WorldInv(w) && h in w.tasks && w.tasks[h].Reading?
    ensures WorldInv(RampNext(w, h, now))
  {
    hide WorldInv, Sorted, SliceSize;
    var t, parked := w.tasks[h], ParkedCases(w.book, w.tasks[h].inc);
    forall c | c in parked ensures Parked(w.book, t.inc, c) && Holds(w, t.inc, c) {
      assert Held(w.book, t.inc, c);
    }
    TaskStep(w, RampNext(w, h, now), h);
  }

  lemma CountKeeps(w: World, h: Worker, now: int)
    requires WorldInv(w) && h in w.tasks && w.tasks[h].Sliced?
    ensures WorldInv(RampNext(w, h, now))
  {
    hide WorldInv;
    TaskIsOk(w, h);
    OwnCases(w, h);
    TaskStep(w, RampNext(w, h, now), h);
  }

  /** Releasing in the members table: the cases it takes out are waiting, or their own park is not over. */
  lemma MarkKeeps(w: World, h: Worker, now: int)
    requires WorldInv(w) && h in w.tasks && w.tasks[h].Counted?
    ensures WorldInv(RampNext(w, h, now))
  {
    hide Inv, Quiet, At;
    var t, w' := w.tasks[h], RampNext(w, h, now);
    var cs := Elements(t.slice);
    assert TaskOk(w.book, t);
    OwnCases(w, h);
    FlightFrame(w.book, w'.book);
    forall j, d | Held(w'.book, j, d) ensures Holds(w, j, d) {
      assert Held(w.book, j, d);
    }
    WorkerShrinks(w, w', h);
    forall c | c in t.slice ensures (t.inc, c) in w'.book.members && !Parked(w'.book, t.inc, c) && PlaceOk(w', (t.inc, c)) {
      assert PlaceOk(w, (t.inc, c));
    }
    forall c | c in t.slice && c !in w'.tasks[h].doubt ensures Waiting(w.book.fab, c) {
      assert PlaceOk(w, (t.inc, c));
    }
    WorkerKeeps(w, w', h, cs);
  }

  lemma SliceInFlightKeeps(w: World, h: Worker, now: int)
    requires WorldInv(w) && h in w.tasks && w.tasks[h].Resuming? && w.tasks[h].todo == []
    ensures WorldInv(RampNext(w, h, now))
  {
    hide Inv, Quiet, At;
    var t, w' := w.tasks[h], RampNext(w, h, now);
    assert TaskOk(w.book, t);
    OwnCases(w, h);
    forall j ensures FlightOk(w'.book, j) {
      assert FlightOk(w.book, j);
    }
    forall j, d | Held(w'.book, j, d) ensures Holds(w, j, d) {
      assert Held(w.book, j, d) || (j == t.inc && d in t.slice);
    }
    WorkerShrinks(w, w', h);
    WorkerKeeps(w, w', h, {});
  }

  lemma AscendingTail(s: seq<nat>)
    requires Ascending(s) && s != []
    ensures Ascending(s[1..]) && s[0] !in s[1..] && forall x :: x in s[1..] ==> x in s
  {
  }

  lemma ResumeEffect(t: Tables, c: CaseId, inc: IncidentId, now: int)
    requires Inv(t) && c in t.cases
    ensures AppendTo(t, c, IncidentReleased(inc), "release_controller", now).Ok? <==> CanTransition(t.cases[c].state, Scheduled)
    ensures AppendTo(t, c, IncidentReleased(inc), "release_controller", now).Ok? ==>
              var t' := AppendTo(t, c, IncidentReleased(inc), "release_controller", now).value;
              && Inv(t') && t'.cases.Keys == t.cases.Keys && t'.cases[c].state.Scheduled?
              && forall d :: d != c ==> Untouched(t, t', d)
  {
    hide Inv, AppendTo;
    AppendIncident(t, c, IncidentReleased(inc), "release_controller", now);
  }

  /** One case of the slice: skipped, resumed, or refused. */
  lemma ResumeKeeps(w: World, h: Worker, now: int)
    requires WorldInv(w) && h in w.tasks && w.tasks[h].Resuming? && w.tasks[h].todo != []
    ensures WorldInv(RampNext(w, h, now))
  {
    hide Inv, Quiet, At, AppendTo, ParkedOk, HeldDown, CanTransition, Gentle, OneRamp, AllSingle, InFlightOk, Shrinks;
    var t, w' := w.tasks[h], RampNext(w, h, now);
    var c := t.todo[0];
    assert TaskOk(w.book, t);
    assert PlaceOk(w, (t.inc, c));
    OwnCases(w, h);
    AscendingTail(t.todo);
    ResumeEffect(w.book.fab, c, t.inc, now);
    FlightFrame(w.book, w'.book);
    forall j, d | Held(w'.book, j, d) ensures Holds(w, j, d) {
      assert Held(w.book, j, d);
    }
    WorkerShrinks(w, w', h);
    assert w'.book.fab == w.book.fab || forall d :: d != c ==> Untouched(w.book.fab, w'.book.fab, d);
    forall d | d in t.todo[1..] && d !in t.doubt ensures Waiting(w'.book.fab, d) {
      assert d in t.todo && d != c && Waiting(w.book.fab, d);
      assert w'.book.fab == w.book.fab || Untouched(w.book.fab, w'.book.fab, d);
    }
    assert w'.book.members == w.book.members && t.todo[0] in t.todo && !Parked(w.book, t.inc, c);
    assert !Parked(w'.book, t.inc, c) && c in w'.book.fab.cases;
    assert PlaceOk(w', (t.inc, c));
    WorkerKeeps(w, w', h, {c});
  }

  lemma SettingKeeps(w: World, h: Worker, now: int)
    requires WorldInv(w) && h in w.tasks && w.tasks[h].Setting?
    ensures WorldInv(RampNext(w, h, now))
  {
    hide Inv, Quiet, At;
    var w' := RampNext(w, h, now);
    FlightFrame(w.book, w'.book);
    forall j, d | Held(w'.book, j, d) ensures Holds(w, j, d) {
      assert Held(w.book, j, d);
    }
    WorkerShrinks(w, w', h);
    WorkerKeeps(w, w', h, {});
  }

  lemma RampKeeps(w: World, h: Worker, now: int)
    requires WorldInv(w) && h in w.tasks && !w.tasks[h].Parking?
    ensures WorldInv(RampNext(w, h, now))
  {
    hide WorldInv, RampNext;
    match w.tasks[h]
    case Reading(_, _, _, _) => SliceReadKeeps(w, h, now);
    case Sliced(_, _, _) => CountKeeps(w, h, now);
    case Counted(_, _, _, _) => MarkKeeps(w, h, now);
    case Resuming(_, _, _, _, todo, _) =>
      if todo == [] {
        SliceInFlightKeeps(w, h, now);
      } else {
        ResumeKeeps(w, h, now);
      }
    case Setting(_, _, _) => SettingKeeps(w, h, now);
  }

  // ---- The rest of the engine ----

  lemma QuietFrame(t: Tables, op: CaseFabric.Op, c: CaseId)
    requires Inv(t) && Quiet(t, c) && !(op.Schedule? && op.c == c)
    ensures Quiet(Apply(t, op), c)
  {
    ApplyStepsRows(t, op);
    if OnSchedule(op) {
      ScheduleFrame(t, op);
    }
    var t' := Apply(t, op);
    forall i | 0 <= i < |t'.actions| && t'.actions[i].caseId == c ensures !Outstanding(t'.actions[i]) {
      if i < |t.actions| {
        assert RowStep(t.actions[i], t'.actions[i]);
      }
    }
  }

  lemma CaseFrame(t: Tables, op: CaseFabric.Op, c: CaseId)
    requires Inv(t) && c in t.cases && (op.Append? ==> !TouchesIncident(op.e))
    ensures c in Apply(t, op).cases
    ensures Apply(t, op).cases[c].incidentId == t.cases[c].incidentId
    ensures Apply(t, op).cases[c].state ==
            if op.Append? && op.c == c && CaseFabric.Enabled(t, op) then TargetState(op.e, t.cases[c].state) else t.cases[c].state
  {
    if CaseFabric.Enabled(t, op) {
      match op
      case Append(d, e, source, now) => AppendEffect(t, d, e, source, now);
      case Open(_, _, _) =>
      case RecordDiagnosis(_, _) =>
      case _ => ScheduleFrame(t, op);
    }
  }

  /** Ordinary traffic never wakes a suppressed case, and never brings back a stopped one. */
  lemma TrafficOnCase(t: Tables, op: CaseFabric.Op, m: Member)
    requires Inv(t) && Traffic(t, op) && m.1 in t.cases
    ensures m.1 in Apply(t, op).cases
    ensures Waiting(t, m.1) ==> Waiting(Apply(t, op), m.1)
    ensures HeldDown(t, m) ==> HeldDown(Apply(t, op), m)
    ensures ParkedOk(t, m.0, m.1) ==> ParkedOk(Apply(t, op), m.0, m.1)
  {
    hide Inv, Quiet, Apply;
    CaseFrame(t, op, m.1);
    if IsTerminal(t.cases[m.1].state) {
      ApplyKeepsState(t, op, m.1);
    } else if ParkedOk(t, m.0, m.1) {
      QuietFrame(t, op, m.1);
    }
  }

  lemma EngineKeeps(w: World, op: CaseFabric.Op)
    requires WorldInv(w) && Traffic(w.book.fab, op)
    ensures WorldInv(w.(book := w.book.(fab := Apply(w.book.fab, op))))
  {
    hide Inv, Apply, Traffic, HeldDown, ParkedOk, Waiting, Ascending, At, Parks;
    var t, w' := w.book.fab, w.(book := w.book.(fab := Apply(w.book.fab, op)));
    ApplyKeepsInv(t, op);
    forall c, inc ensures TrafficFine(t, w'.book.fab, (inc, c)) {
      if c in t.cases {
        TrafficOnCase(t, op, (inc, c));
      }
    }
    forall m | m in w'.book.members ensures PlaceOk(w', m) {
      assert PlaceOk(w, m) && TrafficFine(t, w'.book.fab, (m.0, m.1));
      SameAt(w, w', m);
    }
    forall h | h in w'.tasks ensures TaskOk(w'.book, w'.tasks[h]) {
      TrafficOnTask(w.book, w'.book, w.tasks[h]);
    }
    FlightFrame(w.book, w'.book);
    forall j, c | Holds(w', j, c) ensures Holds(w, j, c) {
      assert Held(w'.book, j, c) ==> Held(w.book, j, c);
    }
    SingleFrame(w, w');
    forall k, l, i | RampOf(w', k, i) && RampOf(w', l, i) ensures k == l {
      assert RampOf(w, k, i) && RampOf(w, l, i);
    }
  }

  lemma SameAt(w: World, w': World, m: Member)
    requires w'.tasks == w.tasks
    ensures forall phase :: At(w', m, phase) == At(w, m, phase)
  {
  }

  ghost predicate TrafficFine(t: Tables, t': Tables, m: Member) {
    m.1 in t.cases ==>
      && m.1 in t'.cases && (Waiting(t, m.1) ==> Waiting(t', m.1)) && (HeldDown(t, m) ==> HeldDown(t', m))
      && (ParkedOk(t, m.0, m.1) ==> ParkedOk(t', m.0, m.1))
  }

  lemma TrafficOnTask(b: Book, b': Book, t: Task)
    requires TaskOk(b, t) && b' == b.(fab := b'.fab)
    requires forall m {:trigger TrafficFine(b.fab, b'.fab, m)} :: TrafficFine(b.fab, b'.fab, m)
    ensures TaskOk(b', t)
  {
    hide Ascending, ParkedOk, HeldDown;
    forall c ensures (c in b.fab.cases ==> c in b'.fab.cases) && (Waiting(b.fab, c) ==> Waiting(b'.fab, c)) {
      assert TrafficFine(b.fab, b'.fab, (0, c));
    }
  }

  // ---- Beginning, ending, dying ----

  lemma BeginKeeps(w: World, h: Worker, t: Task)
    requires WorldInv(w) && h !in w.tasks && TaskOk(w.book, t) && ParksWithin(t, t.inc, {})
    requires AllSingle(Move(w, h, t)) && (Ramps(t) ==> forall k :: !RampOf(w, k, t.inc))
    ensures WorldInv(Move(w, h, t))
  {
    hide Inv, TaskOk, ParkedOk, HeldDown, Holds, Ramps, InFlightOk;
    var w' := Move(w, h, t);
    forall m | m in w'.book.members ensures PlaceOk(w', m) {
      assert PlaceOk(w, m);
      AtFrame(w, w', h, m, Noted);
      AtFrame(w, w', h, m, Suppressed);
    }
    forall k, l, i | RampOf(w', k, i) && RampOf(w', l, i) ensures k == l {
      assert k != h ==> RampOf(w, k, i);
      assert l != h ==> RampOf(w, l, i);
    }
  }

  lemma BeginAttachKeeps(w: World, h: Worker, inc: IncidentId, cs: seq<CaseId>)
    requires WorldInv(w) && IncidentSteps.Enabled(w, BeginAttach(h, inc, cs))
    ensures WorldInv(Raw(w, BeginAttach(h, inc, cs)))
  {
    hide Inv, Held;
    var w' := Move(w, h, Parking(inc, cs, Checking, false));
    forall c ensures Single(w', c) {
      assert Single(w, c);
      forall j | Holds(w', j, c) ensures Holds(w, j, c) || (j == inc && c in cs) {
        if !Held(w.book, j, c) {
          var k :| k in w'.tasks && Concerns(w'.tasks[k], j, c);
          assert k != h ==> Concerns(w.tasks[k], j, c);
        }
      }
    }
    BeginKeeps(w, h, Parking(inc, cs, Checking, false));
  }

  lemma BeginRampKeeps(w: World, h: Worker, inc: IncidentId, healthy: bool, draw: real, config: Config)
    requires WorldInv(w) && IncidentSteps.Enabled(w, BeginRamp(h, inc, healthy, draw, config))
    ensures WorldInv(Raw(w, BeginRamp(h, inc, healthy, draw, config)))
  {
    hide Inv;
    var w' := Raw(w, BeginRamp(h, inc, healthy, draw, config));
    assert FlightOk(w.book, inc);
    forall j, c | Holds(w', j, c) ensures Holds(w, j, c) {
      if !Held(w.book, j, c) {
        var k :| k in w'.tasks && Concerns(w'.tasks[k], j, c);
        assert k != h ==> Concerns(w.tasks[k], j, c);
      }
    }
    SingleFrame(w, w');
    BeginKeeps(w, h, w'.tasks[h]);
  }

  lemma ForgetFrame(b: Book, inc: IncidentId)
    requires InFlightOk(b)
    ensures var b' := Forgetting(b, inc);
            InFlightOk(b') && (forall j, c :: Held(b', j, c) ==> Held(b, j, c)) && Steady(b, b', inc, {}) && Gentle(b, b', inc, {})
  {
    forall j ensures FlightOk(Forgetting(b, inc), j) {
      assert FlightOk(b, j);
    }
  }

  lemma ForgetKeeps(w: World, inc: IncidentId)
    requires WorldInv(w)
    ensures WorldInv(w.(book := Forgetting(w.book, inc)))
  {
    hide Inv, ParkedOk, HeldDown, Ascending, Waiting;
    var w' := w.(book := Forgetting(w.book, inc));
    ForgetFrame(w.book, inc);
    forall m | m in w'.book.members ensures PlaceOk(w', m) {
      assert PlaceOk(w, m);
      SameAt(w, w', m);
    }
    forall h | h in w'.tasks ensures TaskOk(w'.book, w'.tasks[h]) {
      assert TaskOk(w.book, w.tasks[h]);
    }
    forall j, c | Holds(w', j, c) ensures Holds(w, j, c) {
      assert Held(w'.book, j, c) ==> Held(w.book, j, c);
    }
    SingleFrame(w, w');
    forall k, l, i | RampOf(w', k, i) && RampOf(w', l, i) ensures k == l {
      assert RampOf(w, k, i) && RampOf(w, l, i);
    }
  }

  lemma CrashKeeps(w: World, h: Worker)
    requires WorldInv(w) && h in w.tasks
    ensures WorldInv(Raw(w, Crash(h)).(stranded := w.stranded + Deserted(w, Crash(h))))
  {
    hide Inv, ParkedOk, HeldDown, TaskOk, OneRamp, AllSingle, Holds, Held, Gentle, Steady, InFlightOk, Shrinks, At;
    var t := w.tasks[h];
    var w' := Raw(w, Crash(h)).(stranded := w.stranded + Deserted(w, Crash(h)));
    var cs := set m | m in Deserted(w, Crash(h)) :: m.1;
    CrashedBook(w, h, cs);
    HeldIsHolds(w);
    WorkerShrinks(w, w', h);
    OwnCases(w, h);
    forall c | c in cs && (t.inc, c) in w'.book.members ensures PlaceOk(w', (t.inc, c)) {
      assert PlaceOk(w, (t.inc, c));
    }
    WorkerKeeps(w, w', h, cs);
  }

  lemma HeldIsHolds(w: World)
    ensures forall j, c :: Held(w.book, j, c) ==> Holds(w, j, c)
  {
  }

  lemma CrashedBook(w: World, h: Worker, cs: set<CaseId>)
    requires h in w.tasks && InFlightOk(w.book)
    ensures var b', inc := Raw(w, Crash(h)).book, w.tasks[h].inc;
            && InFlightOk(b') && (forall j, c :: Held(b', j, c) ==> Held(w.book, j, c))
            && Steady(w.book, b', inc, cs) && Gentle(w.book, b', inc, cs)
  {
    ForgetFrame(w.book, w.tasks[h].inc);
  }

  lemma StrandingKeeps(w: World, deserted: set<Member>)
    requires WorldInv(w.(stranded := w.stranded + deserted))
    ensures WorldInv(Stranding(w, deserted))
  {
    hide Inv, HeldDown, TaskOk, ParkedOk;
    var more, w' := w.(stranded := w.stranded + deserted), Stranding(w, deserted);
    forall m | m in w'.book.members ensures PlaceOk(w', m) {
      assert PlaceOk(more, m);
      SameAt(more, w', m);
      if ParkedOk(w.book.fab, m.0, m.1) {
        OkIsHeldDown(w.book.fab, m);
      }
    }
    forall h | h in w'.tasks ensures TaskOk(w'.book, w'.tasks[h]) {
      assert TaskOk(more.book, more.tasks[h]);
    }
    forall j, c | Holds(w', j, c) ensures Holds(more, j, c) {
    }
    SingleFrame(more, w');
    forall k, l, i | RampOf(w', k, i) && RampOf(w', l, i) ensures k == l {
      assert RampOf(more, k, i) && RampOf(more, l, i);
    }
  }

  lemma OkIsHeldDown(t: Tables, m: Member)
    requires ParkedOk(t, m.0, m.1)
    ensures HeldDown(t, m)
  {
  }

  // ---- Every run ----

  lemma RawStranded(w: World, step: Step)
    requires IncidentSteps.Enabled(w, step)
    ensures Raw(w, step).stranded == w.stranded
  {
    hide Apply, AppendTo;
  }

  lemma OpenKeeps(w: World, inc: IncidentId)
    requires WorldInv(w)
    ensures WorldInv(w.(book := w.book.(incidents := w.book.incidents[inc := OPENED])))
  {
    hide Inv, ParkedOk, HeldDown, Ascending, Waiting;
    var w' := w.(book := w.book.(incidents := w.book.incidents[inc := OPENED]));
    FlightFrame(w.book, w'.book);
    forall m | m in w'.book.members ensures PlaceOk(w', m) {
      assert PlaceOk(w, m);
      SameAt(w, w', m);
    }
    forall h | h in w'.tasks ensures TaskOk(w'.book, w'.tasks[h]) {
      assert TaskOk(w.book, w.tasks[h]);
    }
    forall j, c | Holds(w', j, c) ensures Holds(w, j, c) {
      assert Held(w'.book, j, c) ==> Held(w.book, j, c);
    }
    SingleFrame(w, w');
    forall k, l, i | RampOf(w', k, i) && RampOf(w', l, i) ensures k == l {
      assert RampOf(w, k, i) && RampOf(w, l, i);
    }
  }

  lemma RawKeeps(w: World, step: Step)
    requires WorldInv(w) && IncidentSteps.Enabled(w, step) && !step.Crash?
    ensures WorldInv(Raw(w, step))
  {
    hide WorldInv, ParkNext, RampNext;
    match step
    case Engine(op) => EngineKeeps(w, op);
    case OpenIncident(inc) => OpenKeeps(w, inc);
    case BeginAttach(h, inc, cs) => BeginAttachKeeps(w, h, inc, cs);
    case BeginRamp(h, inc, healthy, draw, config) => BeginRampKeeps(w, h, inc, healthy, draw, config);
    case Go(h, now) =>
      if w.tasks[h].Parking? {
        ParkKeeps(w, h, now);
      } else {
        RampKeeps(w, h, now);
      }
    case Forget(inc) => ForgetKeeps(w, inc);
  }

  lemma ActKeeps(w: World, step: Step)
    requires WorldInv(w)
    ensures WorldInv(Act(w, step))
  {
    hide WorldInv, Raw, Stranding, IncidentSteps.Enabled;
    if IncidentSteps.Enabled(w, step) {
      RawStranded(w, step);
      var raw := Raw(w, step);
      if step.Crash? {
        assert step.h in w.tasks by {
          CrashIsOfATask(w, step);
        }
        CrashKeeps(w, step.h);
      } else {
        RawKeeps(w, step);
        assert raw.(stranded := raw.stranded + Deserted(w, step)) == raw;
      }
      StrandingKeeps(raw, Deserted(w, step));
    }
  }

  lemma CrashIsOfATask(w: World, step: Step)
    requires IncidentSteps.Enabled(w, step) && step.Crash?
    ensures step.h in w.tasks
  {
  }

  lemma {:induction false} ActAllKeeps(w: World, steps: seq<Step>)
    requires WorldInv(w)
    ensures WorldInv(ActAll(w, steps))
    decreases |steps|
  {
    hide WorldInv, Act;
    if steps != [] {
      ActKeeps(w, steps[0]);
      ActAllKeeps(Act(w, steps[0]), steps[1..]);
    }
  }

  /** What is marked as stranded is parked, and not as a parked case should be. */
  ghost predicate StrandedOk(w: World) {
    forall m :: m in w.stranded ==> Parked(w.book, m.0, m.1) && !ParkedOk(w.book.fab, m.0, m.1)
  }

  lemma {:induction false} StrandedAreBroken(w: World, steps: seq<Step>)
    requires StrandedOk(w)
    ensures StrandedOk(ActAll(w, steps))
    decreases |steps|
  {
    hide Raw, ParkedOk;
    if steps != [] {
      StrandedAreBroken(Act(w, steps[0]), steps[1..]);
    }
  }

  lemma ReachableWorldInv(steps: seq<Step>)
    ensures WorldInv(ActAll(NO_INCIDENTS, steps)) && StrandedOk(ActAll(NO_INCIDENTS, steps))
  {
    forall j ensures FlightOk(NO_INCIDENTS.book, j) {
    }
    forall c ensures Single(NO_INCIDENTS, c) {
    }
    ActAllKeeps(NO_INCIDENTS, steps);
    StrandedAreBroken(NO_INCIDENTS, steps);
  }

  /** Some worker is between writing the member and cancelling its schedule. */
  ghost predicate BeingParked(w: World, m: Member) {
    At(w, m, Noted) || At(w, m, Suppressed)
  }

  /**
   * In every reachable state, whatever was interleaved and whoever died: a parked case
   * with no park of it under way has stopped, or is suppressed by its own incident with
   * nothing pending or leased, if and only if no park of it died between its statements.
   */
  lemma ParkedIsSuppressedIff(steps: seq<Step>, inc: IncidentId, c: CaseId)
    requires var w := ActAll(NO_INCIDENTS, steps); Parked(w.book, inc, c) && !BeingParked(w, (inc, c))
    ensures var w := ActAll(NO_INCIDENTS, steps); ParkedOk(w.book.fab, inc, c) <==> (inc, c) !in w.stranded
  {
    hide At, ParkedOk, HeldDown;
    ReachableWorldInv(steps);
    assert PlaceOk(ActAll(NO_INCIDENTS, steps), (inc, c));
  }

  /** Once the append has been made, the case is down, even while its rows wait to be cancelled. */
  lemma SuppressedBeforeQuiet(steps: seq<Step>, inc: IncidentId, c: CaseId)
    requires var w := ActAll(NO_INCIDENTS, steps);
             Parked(w.book, inc, c) && !At(w, (inc, c), Noted) && (inc, c) !in w.stranded
    ensures HeldDown(ActAll(NO_INCIDENTS, steps).book.fab, (inc, c))
  {
    hide At, ParkedOk, HeldDown;
    ReachableWorldInv(steps);
    assert PlaceOk(ActAll(NO_INCIDENTS, steps), (inc, c));
  }

  /**
   * The append that resumes a case, of a slice whose own parks were over when it was
   * marked, is refused exactly when the case has stopped by then: not when the slice
   * was read, nor when it was found live.
   */
  lemma ResumeRefusedIff(steps: seq<Step>, h: Worker, now: int)
    requires var w := ActAll(NO_INCIDENTS, steps);
             h in w.tasks && w.tasks[h].Resuming? && w.tasks[h].todo != [] && w.tasks[h].todo[0] !in w.tasks[h].doubt
    ensures var w := ActAll(NO_INCIDENTS, steps); var c := w.tasks[h].todo[0];
            && c in w.book.fab.cases
            && (AppendTo(w.book.fab, c, IncidentReleased(w.tasks[h].inc), "release_controller", now).Err? <==>
                IsTerminal(w.book.fab.cases[c].state))
  {
    hide Inv, AppendTo;
    ReachableWorldInv(steps);
    var w := ActAll(NO_INCIDENTS, steps);
    TaskIsOk(w, h);
    ResumeEffect(w.book.fab, w.tasks[h].todo[0], w.tasks[h].inc, now);
  }

  /** And the append that parks one, in the attach and in the breaker, exactly when the case has stopped since it was found live. */
  lemma ParkRefusedIff(steps: seq<Step>, h: Worker, now: int)
    requires var w := ActAll(NO_INCIDENTS, steps);
             h in w.tasks && w.tasks[h].Parking? && w.tasks[h].todo != [] && w.tasks[h].phase.Noted?
    ensures var w := ActAll(NO_INCIDENTS, steps); var c := w.tasks[h].todo[0];
            && c in w.book.fab.cases
            && (AppendTo(w.book.fab, c, IncidentAttached(w.tasks[h].inc), Source(w.tasks[h].again), now).Err? <==>
                IsTerminal(w.book.fab.cases[c].state))
  {
    hide Inv, AppendTo;
    ReachableWorldInv(steps);
    var w := ActAll(NO_INCIDENTS, steps);
    TaskIsOk(w, h);
    AttachRefusedIff(w.book.fab, w.tasks[h].todo[0], w.tasks[h].inc, Source(w.tasks[h].again), now);
  }

  /**
   * What a refused release leaves: the rest of the slice is out of the parked set, and
   * suppressed still, and the slice is not recorded for the breaker.
   */
  lemma RefusedReleaseLeaves(steps: seq<Step>, h: Worker, now: int, d: CaseId)
    requires var w := ActAll(NO_INCIDENTS, steps);
             && h in w.tasks && w.tasks[h].Resuming? && w.tasks[h].todo != [] && w.tasks[h].todo[0] in w.tasks[h].live
             && AppendTo(w.book.fab, w.tasks[h].todo[0], IncidentReleased(w.tasks[h].inc), "release_controller", now).Err?
             && d in w.tasks[h].todo[1..] && d !in w.tasks[h].doubt
    ensures var w := ActAll(NO_INCIDENTS, steps); var w', inc := Act(w, Go(h, now)), w.tasks[h].inc;
            && h !in w'.tasks && w'.book == w.book
            && (inc, d) in w'.book.members && !Parked(w'.book, inc, d) && Waiting(w'.book.fab, d)
  {
    hide Inv, AppendTo;
    ReachableWorldInv(steps);
    TaskIsOk(ActAll(NO_INCIDENTS, steps), h);
  }

  /** When nothing is under way and nothing was cut short, the books are as the uninterrupted operations expect them. */
  lemma RestIsSound(steps: seq<Step>)
    requires ActAll(NO_INCIDENTS, steps).tasks == map[] && ActAll(NO_INCIDENTS, steps).stranded == {}
    ensures BookInv(ActAll(NO_INCIDENTS, steps).book)
  {
    hide Inv, ParkedOk, HeldDown;
    ReachableWorldInv(steps);
    var w := ActAll(NO_INCIDENTS, steps);
    forall m | m in w.book.members ensures MemberOk(w.book, m) {
      assert PlaceOk(w, m);
    }
    forall c ensures OneIncident(w.book, c) {
      assert Single(w, c);
      assert forall j :: Held(w.book, j, c) ==> Holds(w, j, c);
    }
  }
}
