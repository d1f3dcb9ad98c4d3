/** What can go wrong between two statements of an incident's loops, each as a run of the step system. */
module IncidentAccidents {
  import opened Wrappers
  import opened StateMachine
  import opened CaseEvents
  import opened CaseFabric
  import opened FabricInvariant
  import opened SortedIds
  import opened ScheduleRuns
  import opened Incidents
  import opened IncidentRuns
  import opened IncidentSteps
  import opened IncidentSafety
  import opened IncidentCuts

  lemma {:induction false} ActAllJoin(w: World, a: seq<Step>, b: seq<Step>)
    ensures ActAll(w, a + b) == ActAll(ActAll(w, a), b)
    decreases |a|
  {
    hide Act;
    if a == [] {
      assert a + b == b;
    } else {
      assert (a + b)[1..] == a[1..] + b;
      ActAllJoin(Act(w, a[0]), a[1..], b);
    }
  }

  lemma ActAllOne(w: World, a: Step)
    ensures ActAll(w, [a]) == Act(w, a)
  {
    hide Act;
  }

  // ---- A worker is lost in the middle of a park ----

  /** A case with one scheduled action, and an open incident. */
  function Setup(c: CaseId, o: ObligationId, fireAt: int, ref: ActionRef, inc: IncidentId): seq<Step> {
    [Engine(Open(c, o, 0))] + ([Engine(Schedule(c, fireAt, ref))] + [OpenIncident(inc)])
  }

  function OneAction(c: CaseId, o: ObligationId, fireAt: int, ref: ActionRef): Tables {
    InsertAction(InsertCase(EMPTY, c, o, 0), c, o, fireAt, ref)
  }

  function AtRest(fab: Tables, inc: IncidentId): World {
    World(Book(fab, map[], map[inc := OPENED], map[]), map[], {})
  }

  lemma SetUp(c: CaseId, o: ObligationId, fireAt: int, ref: ActionRef, inc: IncidentId)
    ensures ActAll(NO_INCIDENTS, Setup(c, o, fireAt, ref, inc)) == AtRest(OneAction(c, o, fireAt, ref), inc)
  {
    hide ActAll;
    var first, second, third := [Engine(Open(c, o, 0))], [Engine(Schedule(c, fireAt, ref))], [OpenIncident(inc)];
    ActAllJoin(NO_INCIDENTS, first, second + third);
    ActAllOne(NO_INCIDENTS, first[0]);
    var w1 := NO_INCIDENTS.(book := NO_INCIDENTS.book.(fab := InsertCase(EMPTY, c, o, 0)));
    assert Act(NO_INCIDENTS, first[0]) == w1;
    ActAllJoin(w1, second, third);
    ActAllOne(w1, second[0]);
    var w2 := w1.(book := w1.book.(fab := OneAction(c, o, fireAt, ref)));
    assert Act(w1, second[0]) == w2;
    ActAllOne(w2, third[0]);
    assert Act(w2, third[0]) == AtRest(w2.book.fab, inc);
  }

  /** An attach of this one case, cut after so many statements. */
  function CutAttach(h: Worker, inc: IncidentId, c: CaseId, now: int, n: nat): seq<Step> {
    [BeginAttach(h, inc, [c])] + (seq(n, i => Go(h, now)) + [Crash(h)])
  }

  lemma CutAttachRuns(w: World, h: Worker, inc: IncidentId, c: CaseId, now: int, n: nat)
    ensures ActAll(w, CutAttach(h, inc, c, now, n)) == Act(GoOn(Act(w, BeginAttach(h, inc, [c])), h, now, n), Crash(h))
  {
    hide Act, ActAll;
    var w0 := Act(w, BeginAttach(h, inc, [c]));
    ActAllJoin(w, [BeginAttach(h, inc, [c])], seq(n, i => Go(h, now)) + [Crash(h)]);
    ActAllOne(w, BeginAttach(h, inc, [c]));
    ActAllJoin(w0, seq(n, i => Go(h, now)), [Crash(h)]);
    GoOnIsARun(w0, h, now, n);
    ActAllOne(GoOn(w0, h, now, n), Crash(h));
  }

  /** The two reads and the write. */
  lemma UpToTheWrite(fab: Tables, h: Worker, inc: IncidentId, c: CaseId, now: int)
    requires Live(fab, c) && fab.locked == map[]
    ensures var w := GoOn(Act(AtRest(fab, inc), BeginAttach(h, inc, [c])), h, now, 3);
            && w.book == AtRest(fab, inc).book.(members := map[(inc, c) := None])
            && w.tasks == map[h := Parking(inc, [c], Noted, false)] && w.stranded == {}
  {
    hide Act;
    var w := AtRest(fab, inc);
    var w0 := Act(w, BeginAttach(h, inc, [c]));
    BeginsAttach(w, h, inc, [c]);
    var w1, w2 := GoOn(w0, h, now, 1), GoOn(w0, h, now, 2);
    GoOnce(w0, h, now);
    ActPark(w0, h, now);
    assert w1.tasks == map[h := Parking(inc, [c], Looking, false)];
    Onward(w0, h, now, 1);
    ActPark(w1, h, now);
    assert w2.tasks == map[h := Parking(inc, [c], Writing, false)];
    Onward(w0, h, now, 2);
    ActPark(w2, h, now);
    NobodyStranded(w0, h, now, 3);
  }

  lemma BeginsAttach(w: World, h: Worker, inc: IncidentId, cs: seq<CaseId>)
    requires w.tasks == map[] && inc in w.book.incidents && FreeOfOthers(w.book, inc, cs)
    ensures IncidentSteps.Enabled(w, BeginAttach(h, inc, cs))
    ensures var w' := Act(w, BeginAttach(h, inc, cs));
            w'.book == w.book && w'.tasks == map[h := Parking(inc, cs, Checking, false)] && w'.stranded <= w.stranded
  {
  }

  lemma {:induction false} NobodyStranded(w: World, h: Worker, now: int, n: nat)
    requires w.stranded == {}
    ensures GoOn(w, h, now, n).stranded == {}
    decreases n
  {
    hide IncidentSteps.Enabled;
    if n > 0 {
      if IncidentSteps.Enabled(w, Go(h, now)) {
        RawStranded(w, Go(h, now));
      }
      NobodyStranded(Act(w, Go(h, now)), h, now, n - 1);
    }
  }

  lemma ActCrash(w: World, h: Worker, t: Task)
    requires w.tasks == map[h := t] && t.Parking? && !t.again && t.todo != [] && (t.phase.Noted? || t.phase.Suppressed?)
    ensures var w', m := Act(w, Crash(h)), (t.inc, t.todo[0]);
            && w'.book == w.book && w'.tasks == map[]
            && (m in w'.stranded <==> Parked(w.book, m.0, m.1) && !ParkedOk(w.book.fab, m.0, m.1))
  {
    hide ParkedOk;
  }

  /**
   * Lost between the insert and the append: the case counts as parked, it was never
   * suppressed, its action fires, and no later attach of the incident looks at it again.
   */
  lemma LostBeforeTheAppend(c: CaseId, o: ObligationId, fireAt: int, ref: ActionRef, inc: IncidentId, h: Worker, now: int)
    ensures var w := ActAll(NO_INCIDENTS, Setup(c, o, fireAt, ref, inc) + CutAttach(h, inc, c, now, 3));
            && w.tasks == map[] && Parked(w.book, inc, c) && (inc, c) in w.stranded
            && c in w.book.fab.cases && w.book.fab.cases[c].state.Detected? && DueSet(w.book.fab, fireAt) == {0}
            && forall later :: AttachAll(w.book, inc, [c], later) == Outcome(w.book, None)
  {
    hide Act, ActAll;
    var fab := OneAction(c, o, fireAt, ref);
    SetUp(c, o, fireAt, ref, inc);
    ActAllJoin(NO_INCIDENTS, Setup(c, o, fireAt, ref, inc), CutAttach(h, inc, c, now, 3));
    CutAttachRuns(AtRest(fab, inc), h, inc, c, now, 3);
    UpToTheWrite(fab, h, inc, c, now);
    var w := GoOn(Act(AtRest(fab, inc), BeginAttach(h, inc, [c])), h, now, 3);
    ActCrash(w, h, Parking(inc, [c], Noted, false));
    forall later ensures AttachAll(w.book, inc, [c], later) == Outcome(w.book, None) {
      assert [c][1..] == [];
      assert AttachAll(w.book, inc, [], later) == Outcome(w.book, None);
    }
  }

  /** Lost between the append and the cancel: the case is suppressed, and the next tick hands its action out. */
  lemma LostBeforeTheCancel(c: CaseId, o: ObligationId, fireAt: int, ref: ActionRef, inc: IncidentId, h: Worker, now: int)
    ensures var w := ActAll(NO_INCIDENTS, Setup(c, o, fireAt, ref, inc) + CutAttach(h, inc, c, now, 4));
            && w.tasks == map[] && Parked(w.book, inc, c) && (inc, c) in w.stranded
            && c in w.book.fab.cases && w.book.fab.cases[c].state.SuppressedByIncident? && DueSet(w.book.fab, fireAt) == {0}
  {
    hide Act, ActAll, AppendTo, Inv;
    var fab := OneAction(c, o, fireAt, ref);
    SetUp(c, o, fireAt, ref, inc);
    ActAllJoin(NO_INCIDENTS, Setup(c, o, fireAt, ref, inc), CutAttach(h, inc, c, now, 4));
    CutAttachRuns(AtRest(fab, inc), h, inc, c, now, 4);
    UpToTheWrite(fab, h, inc, c, now);
    var w0 := Act(AtRest(fab, inc), BeginAttach(h, inc, [c]));
    var w := GoOn(w0, h, now, 3);
    Onward(w0, h, now, 3);
    ActPark(w, h, now);
    ReachableWorldInv(Setup(c, o, fireAt, ref, inc));
    SuppressedIsNotQuiet(fab, c, inc, now);
    var w4 := GoOn(w0, h, now, 4);
    assert w4.tasks == map[h := Parking(inc, [c], Suppressed, false)];
    ActCrash(w4, h, w4.tasks[h]);
  }

  lemma SuppressedIsNotQuiet(t: Tables, c: CaseId, inc: IncidentId, now: int)
    requires Inv(t) && c in t.cases && t.cases[c].state.Detected? && |t.actions| == 1
    requires t.actions[0].caseId == c && t.actions[0].state.Pending? && t.locked == map[]
    ensures var r := AppendTo(t, c, IncidentAttached(inc), "incident_manager", now);
            && r.Ok? && r.value.cases.Keys == t.cases.Keys && r.value.cases[c].state.SuppressedByIncident?
            && !ParkedOk(r.value, inc, c) && DueSet(r.value, t.actions[0].fireAt) == {0}
  {
    hide AppendTo;
    AppendIncident(t, c, IncidentAttached(inc), "incident_manager", now);
  }

  // ---- A case opts out in the middle of a release ----

  const OPTS_OUT := TerminalReached(OptedOut, "opted_out")

  /** The slice is read and found live; its first case opts out; the slice is marked; the first append comes. */
  function OptOutInBetween(h: Worker, inc: IncidentId, c: CaseId, draw: real, config: Config, now: int): seq<Step> {
    [BeginRamp(h, inc, true, draw, config)]
    + (seq(2, i => Go(h, now)) + ([Engine(Append(c, OPTS_OUT, "verifier", now))] + seq(2, i => Go(h, now))))
  }

  /** Whatever slice a healthy step reads, its first case can stop the release by opting out in between. */
  lemma OptOutStopsRelease(w: World, h: Worker, inc: IncidentId, draw: real, config: Config, now: int)
    requires WorldInv(w) && w.tasks == map[] && w.book.fab.locked == map[] && inc in w.book.incidents
    requires ParkedCases(w.book, inc) != []
    requires var c := Slice(w.book, inc, draw, config)[0]; c in w.book.fab.cases && !IsTerminal(w.book.fab.cases[c].state)
    ensures var slice := Slice(w.book, inc, draw, config);
            var w' := ActAll(w, OptOutInBetween(h, inc, slice[0], draw, config, now));
            && w'.tasks == map[]
            && w'.book == w.book.(members := MarkReleased(w.book.members, inc, slice, now), fab := w'.book.fab)
            && (forall d :: d in w.book.fab.cases && d != slice[0] ==>
                  d in w'.book.fab.cases && w'.book.fab.cases[d] == w.book.fab.cases[d])
            && slice[0] in w'.book.fab.cases && w'.book.fab.cases[slice[0]].state.OptedOut?
  {
    hide Act, ActAll, AppendTo, WorldInv, Sorted, SliceSize, MarkReleased, InDoubt;
    var slice := Slice(w.book, inc, draw, config);
    var c := slice[0];
    var tail := [Engine(Append(c, OPTS_OUT, "verifier", now))] + seq(2, i => Go(h, now));
    ActAllJoin(w, [BeginRamp(h, inc, true, draw, config)], seq(2, i => Go(h, now)) + tail);
    ActAllOne(w, BeginRamp(h, inc, true, draw, config));
    ActIsEnabledRamp(w, h, inc, draw, config);
    BeginsRamp(w, h, inc, true, draw, config);
    var w0 := Act(w, BeginRamp(h, inc, true, draw, config));
    ActAllJoin(w0, seq(2, i => Go(h, now)), tail);
    GoOnIsARun(w0, h, now, 2);
    SliceIsCounted(w0, h, now);
    var w2 := GoOn(w0, h, now, 2);
    WorldIsSound(w);
    OptsOut(w2, c, now);
    OpenIsUnclosed(w.book.fab, c);
    var w3 := Act(w2, Engine(Append(c, OPTS_OUT, "verifier", now)));
    ActAllJoin(w2, [Engine(Append(c, OPTS_OUT, "verifier", now))], seq(2, i => Go(h, now)));
    ActAllOne(w2, Engine(Append(c, OPTS_OUT, "verifier", now)));
    GoOnIsARun(w3, h, now, 2);
    RefusedAtOnce(w3, h, inc, slice, now);
  }

  lemma WorldIsSound(w: World)
    requires WorldInv(w)
    ensures Inv(w.book.fab)
  {
  }

  lemma ActIsEnabledRamp(w: World, h: Worker, inc: IncidentId, draw: real, config: Config)
    requires w.tasks == map[] && inc in w.book.incidents
    ensures IncidentSteps.Enabled(w, BeginRamp(h, inc, true, draw, config))
  {
  }

  lemma SliceIsCounted(w: World, h: Worker, now: int)
    requires h in w.tasks && w.tasks[h].Reading? && ParkedCases(w.book, w.tasks[h].inc) != []
    ensures var w', t := GoOn(w, h, now, 2), w.tasks[h];
            var parked := ParkedCases(w.book, t.inc);
            var slice := parked[..SliceSize(|parked|, t.stage, t.draw, t.config)];
            w'.book == w.book && w'.tasks == w.tasks[h := Counted(t.inc, t.stage, slice, LiveAmong(w.book.fab, slice))]
  {
    hide Act, SliceSize, Sorted, LiveAmong;
    GoOnce(w, h, now);
    ActRamp(w, h, now);
    Onward(w, h, now, 1);
    ActRamp(GoOn(w, h, now, 1), h, now);
  }

  lemma OptsOut(w: World, c: CaseId, now: int)
    requires Inv(w.book.fab) && w.book.fab.locked == map[] && c in w.book.fab.cases && !IsTerminal(w.book.fab.cases[c].state)
    ensures var w' := Act(w, Engine(Append(c, OPTS_OUT, "verifier", now))); var t, t' := w.book.fab, w'.book.fab;
            && w'.book == w.book.(fab := t') && w'.tasks == w.tasks && Inv(t')
            && c in t'.cases && t'.cases[c].state.OptedOut?
            && forall d :: d in t.cases && d != c ==> d in t'.cases && t'.cases[d] == t.cases[d]
  {
    hide AppendTo, Inv, CachesValid;
    var t := w.book.fab;
    CachesOk(t);
    AppendSucceedsIff(t, c, OPTS_OUT, "verifier", now);
    AppendEffect(t, c, OPTS_OUT, "verifier", now);
    AppendKeepsInv(t, c, OPTS_OUT, "verifier", now);
  }

  lemma CachesOk(t: Tables)
    requires Inv(t)
    ensures CachesValid(t)
  {
  }

  /** Marked, and refused at the first append. */
  lemma RefusedAtOnce(w: World, h: Worker, inc: IncidentId, slice: seq<CaseId>, now: int)
    requires h in w.tasks && w.tasks[h].Counted? && w.tasks[h].inc == inc && w.tasks[h].slice == slice && slice != []
    requires slice[0] in w.tasks[h].live && Inv(w.book.fab) && slice[0] in w.book.fab.cases && w.book.fab.cases[slice[0]].state.OptedOut?
    ensures var w' := GoOn(w, h, now, 2);
            && w'.book == w.book.(members := MarkReleased(w.book.members, inc, slice, now)) && w'.tasks == w.tasks - {h}
  {
    hide Act, AppendTo, Inv, MarkReleased, InDoubt;
    GoOnce(w, h, now);
    ActRamp(w, h, now);
    var w1 := GoOn(w, h, now, 1);
    Onward(w, h, now, 1);
    ActRamp(w1, h, now);
    ResumeEffect(w.book.fab, slice[0], inc, now);
  }

  /** Two open cases and an open incident. */
  function SetupTwo(c: CaseId, d: CaseId, o: ObligationId, p: ObligationId, inc: IncidentId): seq<Step> {
    [Engine(Open(c, o, 0))] + ([Engine(Open(d, p, 0))] + [OpenIncident(inc)])
  }

  function TwoCases(c: CaseId, d: CaseId, o: ObligationId, p: ObligationId): Tables {
    InsertCase(InsertCase(EMPTY, c, o, 0), d, p, 0)
  }

  lemma SetUpTwo(c: CaseId, d: CaseId, o: ObligationId, p: ObligationId, inc: IncidentId)
    requires c != d
    ensures ActAll(NO_INCIDENTS, SetupTwo(c, d, o, p, inc)) == AtRest(TwoCases(c, d, o, p), inc)
  {
    hide ActAll;
    var first, second, third := [Engine(Open(c, o, 0))], [Engine(Open(d, p, 0))], [OpenIncident(inc)];
    ActAllJoin(NO_INCIDENTS, first, second + third);
    ActAllOne(NO_INCIDENTS, first[0]);
    var w1 := NO_INCIDENTS.(book := NO_INCIDENTS.book.(fab := InsertCase(EMPTY, c, o, 0)));
    assert Act(NO_INCIDENTS, first[0]) == w1;
    ActAllJoin(w1, second, third);
    ActAllOne(w1, second[0]);
    var w2 := w1.(book := w1.book.(fab := TwoCases(c, d, o, p)));
    assert Act(w1, second[0]) == w2;
    ActAllOne(w2, third[0]);
    assert Act(w2, third[0]) == AtRest(w2.book.fab, inc);
  }

  /** Attaching one open case parks it and leaves it open. */
  lemma AttachOpen(b: Book, inc: IncidentId, c: CaseId, now: int)
    requires Inv(b.fab) && b.fab.locked == map[] && (inc, c) !in b.members && c in b.fab.cases && !IsTerminal(b.fab.cases[c].state)
    ensures var r := AttachOne(b, inc, c, now);
            && r.error.None? && Inv(r.book.fab) && r.book.fab.locked == map[]
            && r.book == b.(members := b.members[(inc, c) := None], fab := r.book.fab)
            && r.book.fab.cases.Keys == b.fab.cases.Keys && r.book.fab.cases[c].state.SuppressedByIncident?
            && forall d :: d != c ==> Untouched(b.fab, r.book.fab, d)
  {
    hide Inv, ParkOne, Quiet;
    OpenIsUnclosed(b.fab, c);
    ParkOneEffect(b.(members := b.members[(inc, c) := None]), inc, c, "incident_manager", now);
  }

  lemma AttachTwo(b: Book, inc: IncidentId, c: CaseId, d: CaseId, now: int)
    requires Inv(b.fab) && b.fab.locked == map[] && b.members == map[] && c < d && c in b.fab.cases && d in b.fab.cases
    requires !IsTerminal(b.fab.cases[c].state) && !IsTerminal(b.fab.cases[d].state)
    ensures var r := AttachAll(b, inc, [c, d], now);
            && r.error.None? && r.book.fab.locked == map[]
            && r.book == b.(members := map[(inc, c) := None, (inc, d) := None], fab := r.book.fab)
            && c in r.book.fab.cases && r.book.fab.cases[c].state.SuppressedByIncident?
            && d in r.book.fab.cases && r.book.fab.cases[d].state.SuppressedByIncident?
            && ParkedCases(r.book, inc) == [c, d]
  {
    hide AttachOne, Sorted, Inv, Quiet;
    AttachOpen(b, inc, c, now);
    var b1 := AttachOne(b, inc, c, now).book;
    assert Untouched(b.fab, b1.fab, d);
    AttachOpen(b1, inc, d, now);
    var b2 := AttachOne(b1, inc, d, now).book;
    assert Untouched(b1.fab, b2.fab, c);
    assert [c, d][1..] == [d] && [d][1..] == [];
    assert AttachAll(b2, inc, [], now) == Outcome(b2, None);
    assert AttachAll(b1, inc, [d], now) == Outcome(b2, None);
    SortedPair(b2, inc, c, d);
  }

  lemma SortedPair(b: Book, inc: IncidentId, c: CaseId, d: CaseId)
    requires c < d && b.members == map[(inc, c) := None, (inc, d) := None]
    ensures ParkedCases(b, inc) == [c, d]
  {
    hide Sorted;
    var parked := ParkedCases(b, inc);
    assert ParkedSet(b, inc) == {c, d} by {
      assert Parked(b, inc, c) && Parked(b, inc, d);
    }
    assert parked[0] in parked && parked[1] in parked;
  }

  /** From nothing to two parked cases, with nobody at work. */
  lemma TwoParked(c: CaseId, d: CaseId, o: ObligationId, p: ObligationId, inc: IncidentId, h: Worker, now: int)
    returns (steps: seq<Step>)
    requires c < d
    ensures var w := ActAll(NO_INCIDENTS, steps);
            && w.tasks == map[] && w.book.fab.locked == map[] && ParkedCases(w.book, inc) == [c, d]
            && w.book == Book(w.book.fab, map[(inc, c) := None, (inc, d) := None], map[inc := OPENED], map[])
            && c in w.book.fab.cases && w.book.fab.cases[c].state.SuppressedByIncident?
            && d in w.book.fab.cases && w.book.fab.cases[d].state.SuppressedByIncident?
  {
    hide Act, ActAll, Inv, WorldInv, AttachAll, Sorted, IncidentSteps.Enabled;
    var setup, w := SetupTwo(c, d, o, p, inc), AtRest(TwoCases(c, d, o, p), inc);
    SetUpTwo(c, d, o, p, inc);
    ReachableWorldInv(setup);
    WorldIsSound(w);
    BeginsAttach(w, h, inc, [c, d]);
    var n := AttachIsARun(w, h, inc, [c, d], now);
    AttachTwo(w.book, inc, c, d, now);
    var attach := [BeginAttach(h, inc, [c, d])] + seq(n, i => Go(h, now));
    ActAllJoin(w, [BeginAttach(h, inc, [c, d])], seq(n, i => Go(h, now)));
    ActAllOne(w, BeginAttach(h, inc, [c, d]));
    GoOnIsARun(Act(w, BeginAttach(h, inc, [c, d])), h, now, n);
    ActAllJoin(NO_INCIDENTS, setup, attach);
    steps := setup + attach;
  }

  /** A jitter wide enough for the first slice to be two cases of two. */
  const WIDE := Config(0.9, 38.0)

  /**
   * From nothing: two cases are parked, both are in the slice, the first opts out
   * between two statements. The other is left suppressed and abandoned, with nobody at
   * work and the stage where it was.
   */
  lemma ReleaseStoppedHalfway(c: CaseId, d: CaseId, o: ObligationId, p: ObligationId, inc: IncidentId, h: Worker, now: int)
    returns (steps: seq<Step>)
    requires c < d
    ensures var w := ActAll(NO_INCIDENTS, steps);
            && w.tasks == map[] && w.book.incidents == map[inc := OPENED] && Abandoned(w, inc, d)
            && d in w.book.fab.cases && w.book.fab.cases[d].state.SuppressedByIncident?
  {
    hide Act, ActAll, WorldInv, Sorted, MarkReleased, Abandoned, Inv;
    var parked := TwoParked(c, d, o, p, inc, h, now);
    ReachableWorldInv(parked);
    var w := ActAll(NO_INCIDENTS, parked);
    BothInSlice(w.book, inc, c, d);
    OptOutStopsRelease(w, h, inc, 0.75, WIDE, now);
    ActAllJoin(NO_INCIDENTS, parked, OptOutInBetween(h, inc, c, 0.75, WIDE, now));
    steps := parked + OptOutInBetween(h, inc, c, 0.75, WIDE, now);
    MarkedIsAbandoned(w.book, ActAll(NO_INCIDENTS, steps), inc, c, d, now);
  }

  lemma MarkedIsAbandoned(b: Book, w: World, inc: IncidentId, c: CaseId, d: CaseId, now: int)
    requires b.members == map[(inc, c) := None, (inc, d) := None] && w.book.members == MarkReleased(b.members, inc, [c, d], now)
    requires w.tasks == map[] && w.book.inFlight == map[] && Waiting(w.book.fab, d)
    ensures Abandoned(w, inc, d)
  {
  }

  lemma BothInSlice(b: Book, inc: IncidentId, c: CaseId, d: CaseId)
    requires ParkedCases(b, inc) == [c, d] && inc in b.incidents && b.incidents[inc].stage == 0
    ensures Slice(b, inc, 0.75, WIDE) == [c, d]
  {
    hide Sorted;
    assert Jitter(0.75, WIDE) == 20.0;
    assert Share(2, 0) == 0.1;
    assert SliceSize(2, 0, 0.75, WIDE) == 2;
  }

  // ---- Nobody comes back for it ----

  /** An attach of the incident it was released from, which will pass it over as a member. */
  predicate PassesOver(t: Task, inc: IncidentId, d: CaseId) {
    t.Parking? && !t.again && t.inc == inc && (t.todo != [] && t.todo[0] == d ==> t.phase.Checking?)
  }

  /** Suppressed or stopped, released from its incident, and in nobody's hands. */
  ghost predicate Abandoned(w: World, inc: IncidentId, d: CaseId) {
    && Waiting(w.book.fab, d)
    && (inc, d) in w.book.members && (forall j :: !Held(w.book, j, d))
    && forall h :: h in w.tasks && d in CasesOf(w.tasks[h]) ==> PassesOver(w.tasks[h], inc, d)
  }

  predicate NotAnothers(step: Step, inc: IncidentId, d: CaseId) {
    step.BeginAttach? && d in step.cs ==> step.inc == inc
  }

  lemma ParkPasses(w: World, h: Worker, now: int, inc: IncidentId, d: CaseId)
    requires WorldInv(w) && Abandoned(w, inc, d) && IncidentSteps.Enabled(w, Go(h, now)) && w.tasks[h].Parking?
    ensures Abandoned(ParkNext(w, h, now), inc, d)
  {
    hide Inv, AppendTo, CancelFor, PlacesOk, OneRamp, AllSingle, InFlightOk, Quiet, HeldDown;
    var t := w.tasks[h];
    TaskIsOk(w, h);
    if t.todo != [] {
      assert t.todo[0] in CasesOf(t) && forall c :: c in t.todo[1..] ==> c in t.todo;
      if t.phase.Noted? {
        AttachRefusedIff(w.book.fab, t.todo[0], t.inc, Source(t.again), now);
      } else if t.phase.Suppressed? {
        CancelEffect(w.book.fab, t.todo[0], now);
      }
      var w' := ParkNext(w, h, now);
      assert Untouched(w.book.fab, w'.book.fab, d);
      assert t.todo[0] == d ==> t.phase.Checking?;
      forall j ensures !Held(w'.book, j, d) {
        assert !Held(w.book, j, d);
      }
    } else {
      forall j ensures !Held(ParkNext(w, h, now).book, j, d) {
        assert !Held(w.book, j, d);
      }
    }
  }

  lemma RampPasses(w: World, h: Worker, now: int, inc: IncidentId, d: CaseId)
    requires WorldInv(w) && Abandoned(w, inc, d) && h in w.tasks && !w.tasks[h].Parking?
    ensures Abandoned(RampNext(w, h, now), inc, d)
  {
    hide Inv, AppendTo, Sorted, SliceSize, InDoubt;
    var t, w' := w.tasks[h], RampNext(w, h, now);
    TaskIsOk(w, h);
    assert d !in CasesOf(t);
    if t.Reading? {
      var parked := ParkedCases(w.book, t.inc);
      assert forall c :: c in parked ==> Held(w.book, t.inc, c);
      assert d !in parked;
      forall k: nat | k <= |parked| ensures d !in parked[..k] {
      }
      assert h in w'.tasks && d !in CasesOf(w'.tasks[h]);
    } else if t.Resuming? && t.todo != [] {
      assert t.todo[0] in t.todo && t.todo[0] != d && PlaceOk(w, (t.inc, t.todo[0]));
      ResumeEffect(w.book.fab, t.todo[0], t.inc, now);
      assert w'.book.fab == w.book.fab || Untouched(w.book.fab, w'.book.fab, d);
    }
    forall j ensures !Held(w'.book, j, d) {
      assert !Held(w.book, j, d);
    }
  }

  lemma ActPasses(w: World, step: Step, inc: IncidentId, d: CaseId)
    requires WorldInv(w) && Abandoned(w, inc, d) && NotAnothers(step, inc, d)
    ensures Abandoned(Act(w, step), inc, d)
  {
    hide ParkNext, RampNext, WorldInv, Apply, Traffic, Waiting;
    if IncidentSteps.Enabled(w, step) {
      match step
      case Engine(op) =>
        WorldIsSound(w);
        assert d in w.book.fab.cases by {
          WaitingExists(w.book.fab, d);
        }
        TrafficOnCase(w.book.fab, op, (inc, d));
        assert forall j :: Held(Act(w, step).book, j, d) ==> Held(w.book, j, d);
      case Go(h, now) =>
        if w.tasks[h].Parking? {
          ParkPasses(w, h, now, inc, d);
        } else {
          RampPasses(w, h, now, inc, d);
        }
      case BeginRamp(h, i, _, _, _) => assert !Held(w.book, i, d);
      case _ => assert forall j :: Held(Act(w, step).book, j, d) ==> Held(w.book, j, d);
    }
  }

  lemma WaitingExists(t: Tables, d: CaseId)
    requires Waiting(t, d)
    ensures d in t.cases
  {
  }

  /**
   * Over every later run in which no other incident attaches it, an abandoned case is
   * suppressed until it closes: it never acts again, and no attach, ramp step or
   * breaker of its own incident takes it up.
   */
  lemma {:induction false} AbandonedForGood(w: World, steps: seq<Step>, inc: IncidentId, d: CaseId)
    requires WorldInv(w) && Abandoned(w, inc, d) && forall k :: 0 <= k < |steps| ==> NotAnothers(steps[k], inc, d)
    ensures Abandoned(ActAll(w, steps), inc, d)
    decreases |steps|
  {
    hide WorldInv, Abandoned, Act;
    if steps != [] {
      ActPasses(w, steps[0], inc, d);
      ActKeeps(w, steps[0]);
      AbandonedForGood(Act(w, steps[0]), steps[1..], inc, d);
    }
  }

  // ---- The controller's memory ----

  /** A ramp step that dies takes its process's memory with it: the next unhealthy reading pulls back nothing. */
  lemma CrashForgetsTheSlice(w: World, h: Worker, k: Worker, draw: real, config: Config)
    requires WorldInv(w) && h in w.tasks && Ramps(w.tasks[h]) && k !in w.tasks && w.tasks[h].inc in w.book.incidents
    ensures var inc := w.tasks[h].inc; var w' := Act(Act(w, Crash(h)), BeginRamp(k, inc, false, draw, config));
            h !in w'.tasks && k in w'.tasks && w'.tasks[k] == Setting(inc, IncidentOpen, 0)
            && w'.book.members == w.book.members && w'.book.fab == w.book.fab && InFlight(w'.book, inc) == []
  {
    hide PlacesOk, TasksOk, AllSingle, InFlightOk, Inv, ParkedOk;
    var inc := w.tasks[h].inc;
    var w1 := Act(w, Crash(h));
    forall j ensures !RampOf(w1, j, inc) {
      assert RampOf(w, h, inc);
      assert RampOf(w1, j, inc) ==> RampOf(w, j, inc);
    }
    BeginsRamp(w1, k, inc, false, draw, config);
  }
}
