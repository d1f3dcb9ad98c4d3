/** The loops as one worker runs them when nobody interferes, and what happens to them when somebody does. */
module IncidentCuts {
  import opened Wrappers
  import opened StateMachine
  import opened CaseEvents
  import opened CaseFabric
  import opened FabricInvariant
  import opened SortedIds
  import opened ScheduleRuns
  import opened Incidents
  import opened IncidentRuns
  import opened IncidentSteps
  import opened IncidentSafety

  // ---- Uninterrupted ----

  /** The worker's next `n` statements, with nothing in between. */
  ghost function GoOn(w: World, h: Worker, now: int, n: nat): World
    decreases n
  {
    if n == 0 then w else GoOn(Act(w, Go(h, now)), h, now, n - 1)
  }

  lemma {:induction false} GoOnIsARun(w: World, h: Worker, now: int, n: nat)
    ensures GoOn(w, h, now, n) == ActAll(w, seq(n, i => Go(h, now)))
    decreases n
  {
    hide Act;
    if n > 0 {
      GoOnIsARun(Act(w, Go(h, now)), h, now, n - 1);
      assert seq(n, i => Go(h, now))[1..] == seq(n - 1, i => Go(h, now));
    }
  }

  lemma {:induction false} GoOnJoin(w: World, h: Worker, now: int, m: nat, n: nat)
    ensures GoOn(w, h, now, m + n) == GoOn(GoOn(w, h, now, m), h, now, n)
    decreases m
  {
    hide Act;
    if m > 0 {
      GoOnJoin(Act(w, Go(h, now)), h, now, m - 1, n);
    }
  }

  lemma GoOnce(w: World, h: Worker, now: int)
    ensures GoOn(w, h, now, 1) == Act(w, Go(h, now))
  {
    hide Act;
    assert GoOn(Act(w, Go(h, now)), h, now, 0) == Act(w, Go(h, now));
  }

  /** One more statement after `n`. */
  lemma Onward(w: World, h: Worker, now: int, n: nat)
    ensures GoOn(w, h, now, n + 1) == Act(GoOn(w, h, now, n), Go(h, now))
  {
    GoOnJoin(w, h, now, n, 1);
    GoOnce(GoOn(w, h, now, n), h, now);
  }

  /** With no tick holding rows, a worker's statement can always run. */
  lemma ActPark(w: World, h: Worker, now: int)
    requires h in w.tasks && w.tasks[h].Parking? && w.book.fab.locked == map[]
    ensures var w' := Act(w, Go(h, now)); w'.book == ParkNext(w, h, now).book && w'.tasks == ParkNext(w, h, now).tasks
  {
    hide ParkNext;
  }

  lemma ActRamp(w: World, h: Worker, now: int)
    requires h in w.tasks && !w.tasks[h].Parking?
    ensures var w' := Act(w, Go(h, now)); w'.book == RampNext(w, h, now).book && w'.tasks == RampNext(w, h, now).tasks
  {
    hide RampNext;
  }

  function ParkOneOf(b: Book, inc: IncidentId, c: CaseId, again: bool, now: int): Outcome {
    if again then ReparkOne(b, inc, c, now) else AttachOne(b, inc, c, now)
  }

  function ParkAllOf(b: Book, inc: IncidentId, cs: seq<CaseId>, again: bool, now: int): Outcome {
    if again then ReparkAll(b, inc, cs, now) else AttachAll(b, inc, cs, now)
  }

  /** The worker has done what the operation does, and stands at `next`, or has been refused and ended. */
  ghost predicate Reached(w: World, w': World, h: Worker, r: Outcome, next: Task) {
    w'.book == r.book && w'.tasks == if r.error.Some? then w.tasks - {h} else w.tasks[h := next]
  }

  lemma Appended(b: Book, inc: IncidentId, c: CaseId, source: string, now: int)
    ensures var r := AppendTo(b.fab, c, IncidentAttached(inc), source, now); r.Ok? ==> r.value.locked == b.fab.locked
  {
  }

  /** From the write on: write, append, cancel. */
  lemma WriteOn(w: World, h: Worker, now: int) returns (n: nat)
    requires h in w.tasks && w.tasks[h].Parking? && w.tasks[h].phase.Writing? && w.tasks[h].todo != [] && w.book.fab.locked == map[]
    requires !w.tasks[h].again ==> (w.tasks[h].inc, w.tasks[h].todo[0]) !in w.book.members
    ensures var t := w.tasks[h]; var m := (t.inc, t.todo[0]);
            var r := ParkOne(w.book.(members := Written(w.book.members, m, t.again)), t.inc, t.todo[0], Source(t.again), now);
            Reached(w, GoOn(w, h, now, n), h, r, t.(todo := t.todo[1..], phase := First(t.again)))
  {
    hide Act, AppendTo, CancelFor, Written;
    var t := w.tasks[h];
    var c := t.todo[0];
    var w1 := GoOn(w, h, now, 1);
    GoOnce(w, h, now);
    ActPark(w, h, now);
    assert w1.tasks == w.tasks[h := t.(phase := Noted)];
    var w2 := GoOn(w, h, now, 2);
    Onward(w, h, now, 1);
    ActPark(w1, h, now);
    Appended(w1.book, t.inc, c, Source(t.again), now);
    if h !in w2.tasks {
      return 2;
    }
    assert w2.tasks == w.tasks[h := t.(phase := Suppressed)];
    Onward(w, h, now, 2);
    ActPark(w2, h, now);
    return 3;
  }

  /** The statements on one case are what the operation does with it. */
  lemma OneIsARun(w: World, h: Worker, now: int) returns (n: nat)
    requires h in w.tasks && w.tasks[h].Parking? && w.tasks[h].todo != [] && w.book.fab.locked == map[]
    requires w.tasks[h].phase == First(w.tasks[h].again)
    ensures var t := w.tasks[h];
            Reached(w, GoOn(w, h, now, n), h, ParkOneOf(w.book, t.inc, t.todo[0], t.again, now),
                    t.(todo := t.todo[1..], phase := First(t.again)))
  {
    hide Act, ParkOne;
    var t := w.tasks[h];
    GoOnce(w, h, now);
    ActPark(w, h, now);
    var w1 := GoOn(w, h, now, 1);
    var k := 1;
    if !t.again && (t.inc, t.todo[0]) !in w.book.members {
      assert w1.tasks == w.tasks[h := t.(phase := Looking)];
      Onward(w, h, now, 1);
      ActPark(w1, h, now);
      k := 2;
    }
    var wk := GoOn(w, h, now, k);
    if Live(w.book.fab, t.todo[0]) && (t.again || (t.inc, t.todo[0]) !in w.book.members) {
      assert wk.tasks == w.tasks[h := t.(phase := Writing)] && wk.book == w.book;
      var rest := WriteOn(wk, h, now);
      GoOnJoin(w, h, now, k, rest);
      return k + rest;
    }
    return k;
  }

  lemma ParkOneFrame(b: Book, inc: IncidentId, c: CaseId, again: bool, now: int)
    ensures ParkOneOf(b, inc, c, again, now).book.fab.locked == b.fab.locked
  {
  }

  /** attachAndSuppress, and the breaker's repark, uninterrupted. */
  lemma {:induction false} ParkLoopIsARun(w: World, h: Worker, now: int) returns (n: nat)
    requires h in w.tasks && w.tasks[h].Parking? && w.tasks[h].phase == First(w.tasks[h].again) && w.book.fab.locked == map[]
    ensures var t := w.tasks[h];
            Reached(w, GoOn(w, h, now, n), h, ParkAllOf(w.book, t.inc, t.todo, t.again, now),
                    Parking(t.inc, [], First(t.again), t.again))
    decreases |w.tasks[h].todo|
  {
    hide Act, AttachOne, ReparkOne;
    var t := w.tasks[h];
    if t.todo == [] {
      assert w.tasks == w.tasks[h := t];
      return 0;
    }
    var k := OneIsARun(w, h, now);
    ParkOneFrame(w.book, t.inc, t.todo[0], t.again, now);
    var w1 := GoOn(w, h, now, k);
    if ParkOneOf(w.book, t.inc, t.todo[0], t.again, now).error.Some? {
      return k;
    }
    var rest := ParkLoopIsARun(w1, h, now);
    GoOnJoin(w, h, now, k, rest);
    return k + rest;
  }

  /** An attach that nobody interrupts leaves what `AttachAll` says. */
  lemma AttachIsARun(w: World, h: Worker, inc: IncidentId, cs: seq<CaseId>, now: int) returns (n: nat)
    requires IncidentSteps.Enabled(w, BeginAttach(h, inc, cs)) && w.book.fab.locked == map[]
    ensures var w' := GoOn(Act(w, BeginAttach(h, inc, cs)), h, now, n);
            w'.book == AttachAll(w.book, inc, cs, now).book && w'.tasks == w.tasks
  {
    hide AttachAll;
    var w0 := Act(w, BeginAttach(h, inc, cs));
    assert w0.book == w.book && w0.tasks == w.tasks[h := Parking(inc, cs, Checking, false)];
    var k := ParkLoopIsARun(w0, h, now);
    var w1 := GoOn(w0, h, now, k);
    if AttachAll(w.book, inc, cs, now).error.Some? {
      assert w1.tasks == w.tasks;
      return k;
    }
    AttachAllLocks(w.book, inc, cs, now);
    Onward(w0, h, now, k);
    ActPark(w1, h, now);
    assert w1.tasks - {h} == w.tasks;
    return k + 1;
  }

  lemma {:induction false} AttachAllLocks(b: Book, inc: IncidentId, cs: seq<CaseId>, now: int)
    ensures AttachAll(b, inc, cs, now).book.fab.locked == b.fab.locked
    decreases |cs|
  {
    hide AttachOne;
    if cs != [] {
      ParkOneFrame(b, inc, cs[0], false, now);
      AttachAllLocks(AttachOne(b, inc, cs[0], now).book, inc, cs[1..], now);
    }
  }

  lemma ActSetting(w: World, h: Worker, now: int)
    requires h in w.tasks && w.tasks[h].Setting?
    ensures var w', t := Act(w, Go(h, now)), w.tasks[h];
            w'.book == SetIncident(w.book, t.inc, t.state, Some(t.stage), now) && w'.tasks == w.tasks - {h}
  {
    ActRamp(w, h, now);
  }

  /** The breaker, uninterrupted. */
  lemma BreakIsARun(w: World, h: Worker, inc: IncidentId, draw: real, config: Config, now: int) returns (n: nat)
    requires IncidentSteps.Enabled(w, BeginRamp(h, inc, false, draw, config)) && w.book.fab.locked == map[]
    ensures var w' := GoOn(Act(w, BeginRamp(h, inc, false, draw, config)), h, now, n);
            w'.book == Break(w.book, inc, now).book && w'.tasks == w.tasks
  {
    hide ReparkAll, SetIncident, Raw, IncidentSteps.Enabled;
    var w0 := Act(w, BeginRamp(h, inc, false, draw, config));
    BeginsRamp(w, h, inc, false, draw, config);
    if InFlight(w.book, inc) == [] {
      GoOnce(w0, h, now);
      ActSetting(w0, h, now);
      NothingToRepark(w.book, inc, now);
      assert GoOn(w0, h, now, 1).tasks == w.tasks;
      return 1;
    }
    var cs := InFlight(w.book, inc);
    var k := ParkLoopIsARun(w0, h, now);
    var w1 := GoOn(w0, h, now, k);
    ReparkAllFrame(w.book, inc, cs, now);
    if ReparkAll(w.book, inc, cs, now).error.Some? {
      assert w1.tasks == w.tasks;
      return k;
    }
    Onward(w0, h, now, k);
    ActPark(w1, h, now);
    var w2 := GoOn(w0, h, now, k + 1);
    assert w2.tasks == w.tasks[h := Setting(inc, IncidentOpen, 0)];
    Onward(w0, h, now, k + 1);
    ActSetting(w2, h, now);
    assert w2.tasks - {h} == w.tasks;
    return k + 2;
  }

  lemma BeginsRamp(w: World, h: Worker, inc: IncidentId, healthy: bool, draw: real, config: Config)
    requires IncidentSteps.Enabled(w, BeginRamp(h, inc, healthy, draw, config))
    ensures var w' := Act(w, BeginRamp(h, inc, healthy, draw, config));
            w'.book == w.book && inc in w.book.incidents && h !in w.tasks
            && w'.tasks == w.tasks[h := if healthy then Reading(inc, w.book.incidents[inc].stage, draw, config)
                                        else if InFlight(w.book, inc) == [] then Setting(inc, IncidentOpen, 0)
                                        else Parking(inc, InFlight(w.book, inc), Looking, true)]
  {
  }

  lemma {:induction false} ResumeLoopIsARun(w: World, h: Worker, now: int) returns (n: nat)
    requires h in w.tasks && w.tasks[h].Resuming?
    ensures var t := w.tasks[h];
            Reached(w, GoOn(w, h, now, n), h, ResumeAll(w.book, t.inc, t.todo, t.live, now),
                    Resuming(t.inc, t.stage, t.slice, t.live, [], t.doubt))
    decreases |w.tasks[h].todo|
  {
    hide Act, AppendTo;
    var t := w.tasks[h];
    if t.todo == [] {
      assert w.tasks == w.tasks[h := t];
      return 0;
    }
    GoOnce(w, h, now);
    ActRamp(w, h, now);
    var w1 := GoOn(w, h, now, 1);
    if h !in w1.tasks {
      return 1;
    }
    assert w1.tasks == w.tasks[h := Resuming(t.inc, t.stage, t.slice, t.live, t.todo[1..], t.doubt)];
    var rest := ResumeLoopIsARun(w1, h, now);
    GoOnJoin(w, h, now, 1, rest);
    return 1 + rest;
  }

  /** The slice is read, counted and marked in three statements. */
  lemma SliceIsMarked(w: World, h: Worker, now: int)
    requires h in w.tasks && w.tasks[h].Reading? && ParkedCases(w.book, w.tasks[h].inc) != []
    ensures var w', t := GoOn(w, h, now, 3), w.tasks[h];
            var parked := ParkedCases(w.book, t.inc);
            var slice := parked[..SliceSize(|parked|, t.stage, t.draw, t.config)];
            && slice != []
            && w'.book == w.book.(members := MarkReleased(w.book.members, t.inc, slice, now))
            && h in w'.tasks && w'.tasks[h].Resuming? && w'.tasks == w.tasks[h := w'.tasks[h]]
            && w'.tasks[h] == Resuming(t.inc, t.stage, slice, LiveAmong(w.book.fab, slice), slice, w'.tasks[h].doubt)
  {
    hide Act, SliceSize, Sorted, MarkReleased, InDoubt;
    var t, w1, w2 := w.tasks[h], GoOn(w, h, now, 1), GoOn(w, h, now, 2);
    GoOnce(w, h, now);
    ActRamp(w, h, now);
    Onward(w, h, now, 1);
    ActRamp(w1, h, now);
    Onward(w, h, now, 2);
    ActRamp(w2, h, now);
  }

  /** From the marking on: the appends, the slice recorded for the breaker, the incident's row. */
  lemma SliceIsResumed(w: World, h: Worker, now: int) returns (n: nat)
    requires h in w.tasks && w.tasks[h].Resuming?
    ensures var w', t := GoOn(w, h, now, n), w.tasks[h];
            var r := ResumeAll(w.book, t.inc, t.todo, t.live, now);
            && w'.tasks == w.tasks - {h}
            && w'.book == if r.error.Some? then r.book
                          else SetIncident(r.book.(inFlight := r.book.inFlight[t.inc := t.slice]), t.inc, Releasing, Some(t.stage + 1), now)
  {
    hide Act, ResumeAll, SetIncident;
    var t := w.tasks[h];
    var k := ResumeLoopIsARun(w, h, now);
    var w1 := GoOn(w, h, now, k);
    if ResumeAll(w.book, t.inc, t.todo, t.live, now).error.Some? {
      return k;
    }
    Onward(w, h, now, k);
    ActRamp(w1, h, now);
    var w2 := GoOn(w, h, now, k + 1);
    assert w2.tasks == w.tasks[h := Setting(t.inc, Releasing, t.stage + 1)];
    Onward(w, h, now, k + 1);
    ActSetting(w2, h, now);
    assert w2.tasks - {h} == w.tasks - {h};
    return k + 2;
  }

  /** A healthy step, uninterrupted. */
  lemma AdvanceIsARun(w: World, h: Worker, inc: IncidentId, draw: real, config: Config, now: int) returns (n: nat)
    requires IncidentSteps.Enabled(w, BeginRamp(h, inc, true, draw, config))
    ensures var w' := GoOn(Act(w, BeginRamp(h, inc, true, draw, config)), h, now, n);
            w'.book == Advance(w.book, inc, draw, config, now).book && w'.tasks == w.tasks
  {
    hide Act, ResumeAll, SetIncident, IncidentSteps.Enabled, Sorted, SliceSize, MarkReleased, LiveAmong;
    var w0 := Act(w, BeginRamp(h, inc, true, draw, config));
    BeginsRamp(w, h, inc, true, draw, config);
    if ParkedCases(w.book, inc) == [] {
      GoOnce(w0, h, now);
      ActRamp(w0, h, now);
      var w1 := GoOn(w0, h, now, 1);
      Onward(w0, h, now, 1);
      ActSetting(w1, h, now);
      assert w1.tasks - {h} == w.tasks;
      return 2;
    }
    SliceIsMarked(w0, h, now);
    var w3 := GoOn(w0, h, now, 3);
    var k := SliceIsResumed(w3, h, now);
    GoOnJoin(w0, h, now, 3, k);
    assert w3.tasks - {h} == w.tasks;
    return 3 + k;
  }
}
