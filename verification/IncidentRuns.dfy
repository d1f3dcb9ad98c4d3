/** What every run of incidents, ramp steps and ordinary case traffic guarantees. */
module IncidentRuns {
  import opened Wrappers
  import opened StateMachine
  import opened CaseEvents
  import opened CaseFabric
  import opened FabricInvariant
  import opened SortedIds
  import opened ScheduleRuns
  import opened Incidents

  /** A parked case is suppressed by its incident, with nothing pending, unless it has closed. */
  ghost predicate ParkedOk(fab: Tables, inc: IncidentId, c: CaseId) {
    && c in fab.cases
    && (!IsTerminal(fab.cases[c].state) ==>
          fab.cases[c].state.SuppressedByIncident? && fab.cases[c].incidentId == Some(inc) && Quiet(fab, c))
  }

  ghost predicate Untouched(t: Tables, t': Tables, d: CaseId) {
    d in t.cases ==> d in t'.cases && t'.cases[d] == t.cases[d] && (Quiet(t, d) ==> Quiet(t', d))
  }

  lemma OpenIsUnclosed(t: Tables, c: CaseId)
    requires Inv(t) && c in t.cases && !IsTerminal(t.cases[c].state)
    ensures t.cases[c].closedAt.None? && t.cases[c].terminalReason.None?
  {
    ClosedAtFollowsReason(t, c);
    assert CaseCached(t.cases[c], c, t.events[c], t.revisions[c]);
  }

  // ---- One append, seen from the incident ----

  /** Appending an incident event; it touches no schedule, so it need not wait for a tick. */
  lemma AppendIncident(t: Tables, c: CaseId, e: CaseEvent, source: string, now: int)
    requires Inv(t) && c in t.cases && TouchesIncident(e)
    ensures AppendTo(t, c, e, source, now).Ok? <==> CanTransition(t.cases[c].state, TargetState(e, t.cases[c].state))
    ensures AppendTo(t, c, e, source, now).Ok? ==>
              AppendedIncident(t, AppendTo(t, c, e, source, now).value, c, e)
  {
    hide AppendTo, CaseCached, RowsValid;
    AppendSucceedsIff(t, c, e, source, now);
    if AppendTo(t, c, e, source, now).Ok? {
      AppendEffect(t, c, e, source, now);
      AppendKeepsInv(t, c, e, source, now);
      OpenIsUnclosed(t, c);
    }
  }

  ghost predicate AppendedIncident(t: Tables, t': Tables, c: CaseId, e: CaseEvent) {
    && Inv(t') && t'.locked == t.locked && t'.actions == t.actions && t'.cases.Keys == t.cases.Keys
    && (forall d :: d in t.cases && d != c ==> t'.cases[d] == t.cases[d])
    && c in t.cases
    && t'.cases[c].state == TargetState(e, t.cases[c].state) && !IsTerminal(t'.cases[c].state)
    && t'.cases[c].closedAt.None?
    && (e.IncidentAttached? ==> t'.cases[c].incidentId == Some(e.incidentId))
  }

  lemma CancelIsQuiet(t: Tables, c: CaseId, now: int)
    requires Inv(t) && t.locked == map[]
    ensures var t' := t.(actions := CancelFor(t.actions, c, now));
            Inv(t') && Quiet(t', c) && forall d :: Quiet(t, d) ==> Quiet(t', d)
  {
    ScheduleKeepsInv(t, CancelForCase(c, now));
  }

  lemma ParkOneEffect(b: Book, inc: IncidentId, c: CaseId, source: string, now: int)
    requires Inv(b.fab) && b.fab.locked == map[] && c in b.fab.cases
    ensures var r := ParkOne(b, inc, c, source, now);
            && (r.error.None? <==> !IsTerminal(b.fab.cases[c].state))
            && r.book == b.(fab := r.book.fab) && Inv(r.book.fab) && r.book.fab.locked == map[]
            && r.book.fab.cases.Keys == b.fab.cases.Keys
            && (r.error.Some? ==> r.book == b)
            && (r.error.None? ==> ParkedOk(r.book.fab, inc, c) && Live(r.book.fab, c) && !StoppedUnclosed(r.book.fab, c))
            && forall d :: d != c ==> Untouched(b.fab, r.book.fab, d)
  {
    var e := IncidentAttached(inc);
    AppendIncident(b.fab, c, e, source, now);
    if AppendTo(b.fab, c, e, source, now).Ok? {
      CancelIsQuiet(AppendTo(b.fab, c, e, source, now).value, c, now);
    }
  }

  lemma ResumeOneEffect(b: Book, inc: IncidentId, c: CaseId, now: int)
    requires Inv(b.fab) && b.fab.locked == map[] && c in b.fab.cases
    ensures var r := ResumeOne(b, inc, c, now);
            && (r.error.None? <==> CanTransition(b.fab.cases[c].state, Scheduled))
            && r.book == b.(fab := r.book.fab) && Inv(r.book.fab) && r.book.fab.locked == map[]
            && r.book.fab.cases.Keys == b.fab.cases.Keys
            && (r.error.Some? ==> r.book == b)
            && (r.error.None? ==> r.book.fab.cases[c].state.Scheduled? && Live(r.book.fab, c))
            && forall d :: d != c ==> Untouched(b.fab, r.book.fab, d)
  {
    var e := IncidentReleased(inc);
    AppendIncident(b.fab, c, e, "release_controller", now);
  }

  // ---- The invariant ----

  /** One incident per case; every parked member is as `ParkedOk` says. */
  ghost predicate MembersOk(b: Book) {
    && (forall m {:trigger MemberOk(b, m)} :: m in b.members ==> MemberOk(b, m))
    && (forall c {:trigger OneIncident(b, c)} :: OneIncident(b, c))
  }

  ghost predicate MemberOk(b: Book, m: Member)
    requires m in b.members
  {
    m.1 in b.fab.cases && (b.members[m].None? ==> ParkedOk(b.fab, m.0, m.1))
  }

  /** At most one incident has the case parked or would pull it back; who held it before does not matter. */
  ghost predicate OneIncident(b: Book, c: CaseId) {
    forall i, j :: Held(b, i, c) && Held(b, j, c) ==> i == j
  }

  ghost predicate FlightOk(b: Book, inc: IncidentId) {
    forall c :: c in InFlight(b, inc) ==> (inc, c) in b.members
  }

  ghost predicate InFlightOk(b: Book) {
    forall inc {:trigger FlightOk(b, inc)} :: FlightOk(b, inc)
  }

  lemma HeldFrame(b: Book, b': Book, d: CaseId)
    requires OneIncident(b, d) && forall i :: Held(b', i, d) ==> Held(b, i, d)
    ensures OneIncident(b', d)
  {
  }

  lemma FlightFrame(b: Book, b': Book)
    requires InFlightOk(b) && b'.inFlight == b.inFlight && b.members.Keys <= b'.members.Keys
    ensures InFlightOk(b')
  {
    forall inc ensures FlightOk(b', inc) {
      assert FlightOk(b, inc);
    }
  }

  ghost predicate BookInv(b: Book) {
    Inv(b.fab) && MembersOk(b) && InFlightOk(b)
  }

  /** No other incident holds any of these cases now. */
  ghost predicate FreeOfOthers(b: Book, inc: IncidentId, cs: seq<CaseId>) {
    forall j, c :: c in cs && Held(b, j, c) ==> j == inc
  }

  /** Members other than `c`'s survive a change that leaves the other cases alone. */
  lemma MembersFrame(b: Book, b': Book, c: CaseId)
    requires MembersOk(b) && b.fab.cases.Keys <= b'.fab.cases.Keys
    requires forall d :: d != c ==> Untouched(b.fab, b'.fab, d)
    requires forall m :: m in b'.members && m.1 != c ==> m in b.members && b'.members[m] == b.members[m]
    requires forall m :: m in b'.members && m.1 == c ==> MemberOk(b', m)
    requires OneIncident(b', c) && b'.inFlight == b.inFlight
    ensures MembersOk(b')
  {
    forall m | m in b'.members ensures MemberOk(b', m) {
      if m.1 != c {
        assert Untouched(b.fab, b'.fab, m.1) && MemberOk(b, m);
      }
    }
    forall d ensures OneIncident(b', d) {
      if d != c {
        HeldFrame(b, b', d);
      }
    }
  }

  // ---- Attach ----

  /** The one case attach cannot park: live by closed_at, yet terminal. */
  predicate AttachFine(b: Book, inc: IncidentId, c: CaseId) {
    (inc, c) in b.members || !StoppedUnclosed(b.fab, c)
  }

  lemma HeldIsFree(b: Book, inc: IncidentId, c: CaseId)
    requires MembersOk(b) && Held(b, inc, c)
    ensures FreeOfOthers(b, inc, [c])
  {
    assert OneIncident(b, c);
  }

  /** A case no other incident holds may be parked, for the first time or again. */
  lemma ParkingKeeps(b: Book, b': Book, inc: IncidentId, c: CaseId)
    requires BookInv(b) && FreeOfOthers(b, inc, [c]) && Inv(b'.fab) && b.fab.cases.Keys <= b'.fab.cases.Keys
    requires b'.members == b.members[(inc, c) := None] && b'.inFlight == b.inFlight && ParkedOk(b'.fab, inc, c)
    requires forall d :: d != c ==> Untouched(b.fab, b'.fab, d)
    ensures BookInv(b')
  {
    assert c in b'.fab.cases;
    hide ParkedOk, Inv, Untouched;
    assert [c][0] == c;
    forall m | m in b'.members && m.1 == c ensures MemberOk(b', m) {
      if m != (inc, c) {
        assert m == (m.0, c) && MemberOk(b, m);
        assert Parked(b, m.0, c) ==> Held(b, m.0, c);
      }
    }
    forall j | Held(b', j, c) ensures j == inc {
      assert j != inc ==> Held(b, j, c);
    }
    assert OneIncident(b', c);
    MembersFrame(b, b', c);
    FlightFrame(b, b');
  }

  lemma AttachOneKeeps(b: Book, inc: IncidentId, c: CaseId, now: int)
    requires BookInv(b) && b.fab.locked == map[] && FreeOfOthers(b, inc, [c])
    ensures var r := AttachOne(b, inc, c, now);
            && BookInv(r.book) && r.book.fab.locked == map[]
            && (r.error.None? <==> AttachFine(b, inc, c))
            && r.book.inFlight == b.inFlight && r.book.incidents == b.incidents
            && r.book.members.Keys <= b.members.Keys + {(inc, c)}
            && (forall m :: m in b.members ==> m in r.book.members && r.book.members[m] == b.members[m])
            && r.book.fab.cases.Keys == b.fab.cases.Keys
            && (r.error.None? && Live(b.fab, c) ==> (inc, c) in r.book.members)
            && (r.error.None? ==> AttachFine(r.book, inc, c))
            && (forall j, d :: j != inc && Held(r.book, j, d) ==> Held(b, j, d))
            && forall d :: d != c ==> Untouched(b.fab, r.book.fab, d)
  {
    if (inc, c) !in b.members && Live(b.fab, c) {
      var b1 := b.(members := b.members[(inc, c) := None]);
      ParkOneEffect(b1, inc, c, "incident_manager", now);
      var r := ParkOne(b1, inc, c, "incident_manager", now);
      ParkingKeeps(b, r.book, inc, c);
    }
  }

  lemma FreeTail(b: Book, b': Book, inc: IncidentId, cs: seq<CaseId>)
    requires cs != [] && FreeOfOthers(b, inc, cs)
    ensures FreeOfOthers(b, inc, [cs[0]])
    ensures (forall j, d :: j != inc && Held(b', j, d) ==> Held(b, j, d)) ==> FreeOfOthers(b', inc, cs[1..])
  {
    if forall j, d :: j != inc && Held(b', j, d) ==> Held(b, j, d) {
      forall j, c | c in cs[1..] && Held(b', j, c) ensures j == inc {
        assert c in cs;
      }
    }
  }

  lemma {:induction false} AttachAllKeeps(b: Book, inc: IncidentId, cs: seq<CaseId>, now: int)
    requires BookInv(b) && b.fab.locked == map[] && FreeOfOthers(b, inc, cs)
    ensures var r := AttachAll(b, inc, cs, now);
            && BookInv(r.book) && r.book.fab.locked == map[] && r.book.incidents == b.incidents && r.book.inFlight == b.inFlight
            && (r.error.None? <==> forall c :: c in cs ==> AttachFine(b, inc, c))
    decreases |cs|
  {
    hide BookInv, AttachOne;
    if cs != [] {
      var c := cs[0];
      FreeTail(b, AttachOne(b, inc, c, now).book, inc, cs);
      AttachOneKeeps(b, inc, c, now);
      var r := AttachOne(b, inc, c, now);
      assert forall x :: x in cs <==> x == c || x in cs[1..];
      if r.error.None? {
        forall d | d in cs[1..] ensures AttachFine(b, inc, d) == AttachFine(r.book, inc, d) {
          if d != c {
            assert Untouched(b.fab, r.book.fab, d);
            assert (inc, d) in r.book.members <==> (inc, d) in b.members;
          }
        }
        AttachAllKeeps(r.book, inc, cs[1..], now);
      }
    }
  }

  // ---- Release ----

  ghost predicate SameOpenness(t: Tables, t': Tables, d: CaseId) {
    d in t.cases ==>
      && d in t'.cases
      && (t'.cases[d].closedAt.None? <==> t.cases[d].closedAt.None?)
      && (IsTerminal(t'.cases[d].state) <==> IsTerminal(t.cases[d].state))
  }

  /** A completed attach parks exactly the live cases that were not members yet. */
  ghost predicate Attached(b: Book, b': Book, inc: IncidentId, cs: seq<CaseId>) {
    && (forall m :: m in b'.members <==> m in b.members || (m.0 == inc && m.1 in cs && Live(b.fab, m.1)))
    && (forall m :: m in b'.members ==> b'.members[m] == if m in b.members then b.members[m] else None)
  }

  lemma AttachOneMembers(b: Book, inc: IncidentId, c: CaseId, now: int)
    requires BookInv(b) && b.fab.locked == map[] && FreeOfOthers(b, inc, [c])
    requires AttachOne(b, inc, c, now).error.None?
    ensures Attached(b, AttachOne(b, inc, c, now).book, inc, [c])
    ensures Live(AttachOne(b, inc, c, now).book.fab, c) ==> Live(b.fab, c)
  {
    if (inc, c) !in b.members && Live(b.fab, c) {
      ParkOneEffect(b.(members := b.members[(inc, c) := None]), inc, c, "incident_manager", now);
    }
  }

  lemma {:induction false} AttachAllParks(b: Book, inc: IncidentId, cs: seq<CaseId>, now: int)
    requires BookInv(b) && b.fab.locked == map[] && FreeOfOthers(b, inc, cs) && AttachAll(b, inc, cs, now).error.None?
    ensures Attached(b, AttachAll(b, inc, cs, now).book, inc, cs)
    decreases |cs|
  {
    if cs != [] {
      var c := cs[0];
      var b1 := AttachOne(b, inc, c, now).book;
      FreeTail(b, b1, inc, cs);
      AttachOneKeeps(b, inc, c, now);
      AttachOneMembers(b, inc, c, now);
      AttachAllParks(b1, inc, cs[1..], now);
      AttachedOnward(b, b1, AttachAll(b1, inc, cs[1..], now).book, inc, cs);
    }
  }

  lemma AttachedOnward(b: Book, b1: Book, b2: Book, inc: IncidentId, cs: seq<CaseId>)
    requires cs != [] && Attached(b, b1, inc, [cs[0]]) && Attached(b1, b2, inc, cs[1..])
    requires b1.fab.cases.Keys == b.fab.cases.Keys && forall d :: d != cs[0] ==> Untouched(b.fab, b1.fab, d)
    requires Live(b1.fab, cs[0]) ==> Live(b.fab, cs[0])
    ensures Attached(b, b2, inc, cs)
  {
    forall d | d != cs[0] ensures Live(b1.fab, d) == Live(b.fab, d) {
      assert Untouched(b.fab, b1.fab, d);
    }
    assert forall x :: x in cs <==> x == cs[0] || x in cs[1..];
  }

  /**
   * Parking a live case keeps the invariant exactly when no other incident holds it.
   * An incident that has it parked is left with a parked case suppressed by another.
   */
  lemma ForeignParkBreaks(b: Book, inc: IncidentId, c: CaseId, now: int)
    requires BookInv(b) && b.fab.locked == map[] && (inc, c) !in b.members && Live(b.fab, c) && !StoppedUnclosed(b.fab, c)
    ensures var b' := AttachOne(b, inc, c, now).book;
            && (BookInv(b') <==> FreeOfOthers(b, inc, [c]))
            && forall j :: j != inc && Parked(b, j, c) ==> Parked(b', j, c) && !ParkedOk(b'.fab, j, c)
  {
    hide Inv, Quiet, ParkOne, InFlightOk;
    var b' := AttachOne(b, inc, c, now).book;
    ParkOneEffect(b.(members := b.members[(inc, c) := None]), inc, c, "incident_manager", now);
    if FreeOfOthers(b, inc, [c]) {
      AttachOneKeeps(b, inc, c, now);
    } else {
      var j :| Held(b, j, c) && j != inc;
      assert Held(b', j, c) && Held(b', inc, c);
      assert !OneIncident(b', c);
    }
  }

  predicate Resumable(t: Tables, c: CaseId) {
    c in t.cases && CanTransition(t.cases[c].state, Scheduled)
  }

  ghost predicate AllResumable(t: Tables, cs: seq<CaseId>, live: set<CaseId>) {
    forall c :: c in cs && c in live ==> Resumable(t, c)
  }

  ghost predicate SameOpennessAll(t: Tables, t': Tables) {
    t'.cases.Keys == t.cases.Keys && forall d {:trigger SameOpenness(t, t', d)} :: SameOpenness(t, t', d)
  }

  lemma SameOpennessSelf(t: Tables)
    ensures SameOpennessAll(t, t)
  {
  }

  lemma SameOpennessTransitive(t: Tables, t': Tables, t'': Tables)
    requires SameOpennessAll(t, t') && SameOpennessAll(t', t'')
    ensures SameOpennessAll(t, t'')
  {
    forall d ensures SameOpenness(t, t'', d) {
      assert SameOpenness(t, t', d) && SameOpenness(t', t'', d);
    }
  }

  lemma SameStops(t: Tables, t': Tables)
    requires SameOpennessAll(t, t')
    ensures forall d :: StoppedUnclosed(t, d) == StoppedUnclosed(t', d)
    ensures forall d :: Live(t, d) == Live(t', d)
  {
    forall d ensures StoppedUnclosed(t, d) == StoppedUnclosed(t', d) && Live(t, d) == Live(t', d) {
      assert SameOpenness(t, t', d);
    }
  }

  ghost predicate NoneStopped(t: Tables, cs: seq<CaseId>) {
    forall c :: c in cs ==> !StoppedUnclosed(t, c)
  }

  ghost predicate NoneParked(b: Book, cs: seq<CaseId>) {
    forall m :: m in b.members && m.1 in cs ==> b.members[m].Some?
  }

  lemma SoundBook(b: Book)
    requires BookInv(b)
    ensures Inv(b.fab)
  {
  }

  lemma ResumeOneKeeps(b: Book, inc: IncidentId, c: CaseId, now: int)
    requires BookInv(b) && b.fab.locked == map[] && c in b.fab.cases && NoneParked(b, [c])
    ensures var r := ResumeOne(b, inc, c, now);
            && BookInv(r.book) && r.book.fab.locked == map[] && r.book == b.(fab := r.book.fab)
            && (r.error.None? <==> Resumable(b.fab, c))
            && (r.error.None? ==> Resumable(r.book.fab, c))
            && r.book.fab.cases.Keys == b.fab.cases.Keys
            && (forall d :: d != c ==> Untouched(b.fab, r.book.fab, d))
            && SameOpenness(b.fab, r.book.fab, c)
  {
    hide Inv, Quiet, ResumeOne;
    SoundBook(b);
    ResumeOneEffect(b, inc, c, now);
    var r := ResumeOne(b, inc, c, now);
    if r.error.None? {
      OpenIsUnclosed(b.fab, c);
    }
    assert [c][0] == c;
    forall m | m in r.book.members && m.1 == c ensures MemberOk(r.book, m) {
      assert MemberOk(b, m);
    }
    HeldFrame(b, r.book, c);
    MembersFrame(b, r.book, c);
    FlightFrame(b, r.book);
  }

  lemma {:induction false} ResumeAllKeeps(b: Book, inc: IncidentId, cs: seq<CaseId>, live: set<CaseId>, now: int)
    requires BookInv(b) && b.fab.locked == map[] && NoneParked(b, cs)
    requires forall c :: c in cs ==> c in b.fab.cases
    ensures var r := ResumeAll(b, inc, cs, live, now);
            && BookInv(r.book) && r.book.fab.locked == map[] && r.book == b.(fab := r.book.fab)
            && (r.error.None? <==> AllResumable(b.fab, cs, live))
            && SameOpennessAll(b.fab, r.book.fab)
    decreases |cs|
  {
    hide BookInv, ResumeOne, Resumable, Untouched, SameOpenness;
    SameOpennessSelf(b.fab);
    if cs != [] {
      var c := cs[0];
      assert forall x :: x in cs <==> x == c || x in cs[1..];
      if c in live {
        ResumeOneKeeps(b, inc, c, now);
        var r := ResumeOne(b, inc, c, now);
        ResumeTail(b, r.book, c);
        if r.error.None? {
          ResumeAllKeeps(r.book, inc, cs[1..], live, now);
          SameOpennessTransitive(b.fab, r.book.fab, ResumeAll(r.book, inc, cs[1..], live, now).book.fab);
          ResumableTail(b.fab, r.book.fab, cs, live);
        }
      } else {
        ResumeAllKeeps(b, inc, cs[1..], live, now);
      }
    }
  }

  lemma ResumeTail(b: Book, b': Book, c: CaseId)
    requires b'.fab.cases.Keys == b.fab.cases.Keys && SameOpenness(b.fab, b'.fab, c)
    requires forall d :: d != c ==> Untouched(b.fab, b'.fab, d)
    ensures SameOpennessAll(b.fab, b'.fab)
    ensures forall d :: d != c ==> Resumable(b.fab, d) == Resumable(b'.fab, d)
  {
    forall d ensures SameOpenness(b.fab, b'.fab, d) {
      assert d != c ==> Untouched(b.fab, b'.fab, d);
    }
    forall d | d != c ensures Resumable(b.fab, d) == Resumable(b'.fab, d) {
      assert Untouched(b.fab, b'.fab, d);
    }
  }

  lemma ResumableTail(t: Tables, t': Tables, cs: seq<CaseId>, live: set<CaseId>)
    requires cs != [] && Resumable(t, cs[0]) && Resumable(t', cs[0])
    requires forall d :: d != cs[0] ==> Resumable(t, d) == Resumable(t', d)
    ensures AllResumable(t, cs, live) <==> AllResumable(t', cs[1..], live)
  {
  }

  /** What an incident operation leaves as it was. */
  ghost predicate Kept(b: Book, b': Book) {
    && BookInv(b') && b'.fab.locked == map[]
    && b'.members.Keys == b.members.Keys && b'.incidents == b.incidents && b'.inFlight == b.inFlight
    && SameOpennessAll(b.fab, b'.fab)
  }

  lemma KeptTransitive(b: Book, b': Book, b'': Book)
    requires Kept(b, b') && Kept(b', b'')
    ensures Kept(b, b'')
  {
    SameOpennessTransitive(b.fab, b'.fab, b''.fab);
  }

  lemma MarkingKeeps(b: Book, inc: IncidentId, cs: seq<CaseId>, now: int)
    requires BookInv(b) && forall c :: c in cs ==> Parked(b, inc, c)
    ensures var b1 := b.(members := MarkReleased(b.members, inc, cs, now));
            && BookInv(b1) && NoneParked(b1, cs)
            && ParkedSet(b1, inc) == ParkedSet(b, inc) - Elements(cs)
  {
    var b1 := b.(members := MarkReleased(b.members, inc, cs, now));
    forall m | m in b1.members ensures MemberOk(b1, m) {
      assert MemberOk(b, m);
    }
    forall d ensures OneIncident(b1, d) {
      HeldFrame(b, b1, d);
    }
    FlightFrame(b, b1);
    forall m | m in b1.members && m.1 in cs ensures b1.members[m].Some? {
      if b1.members[m].None? {
        assert Held(b, m.0, m.1) && Held(b, inc, m.1) && OneIncident(b, m.1);
      }
    }
    forall c ensures c in ParkedSet(b1, inc) <==> c in ParkedSet(b, inc) && c !in cs {
      if c in ParkedSet(b, inc) && c !in cs {
        assert (inc, c) in b1.members && b1.members[(inc, c)].None?;
      }
    }
  }

  /**
   * Releasing parked cases takes exactly them out of the parked set, closed or not.
   * It is refused partway exactly when one of them was stopped by approval_expired:
   * closed_at says it is live, and the state machine will not reschedule it.
   */
  lemma ReleaseKeeps(b: Book, inc: IncidentId, cs: seq<CaseId>, now: int)
    requires BookInv(b) && b.fab.locked == map[] && forall c :: c in cs ==> Parked(b, inc, c)
    ensures var r := ReleaseSlice(b, inc, cs, now);
            && Kept(b, r.book) && (r.error.None? <==> NoneStopped(b.fab, cs))
            && ParkedSet(r.book, inc) == ParkedSet(b, inc) - Elements(cs)
            && (forall m :: m in b.members && r.book.members[m].None? ==> b.members[m].None?)
  {
    if cs != [] {
      MarkingKeeps(b, inc, cs, now);
      var b1 := b.(members := MarkReleased(b.members, inc, cs, now));
      forall c | c in cs ensures c in b.fab.cases && (c in LiveAmong(b.fab, cs) ==> (Resumable(b.fab, c) <==> !StoppedUnclosed(b.fab, c))) {
        assert MemberOk(b, (inc, c));
      }
      ResumeAllKeeps(b1, inc, cs, LiveAmong(b.fab, cs), now);
    }
  }

  // ---- Repark ----

  lemma ReparkLive(b: Book, r: Outcome, inc: IncidentId, c: CaseId, now: int)
    requires BookInv(b) && b.fab.locked == map[] && (inc, c) in b.members && c in InFlight(b, inc) && Live(b.fab, c)
    requires r == ParkOne(b.(members := b.members[(inc, c) := None]), inc, c, "circuit_breaker", now)
    ensures Kept(b, r.book) && (r.error.None? <==> !StoppedUnclosed(b.fab, c))
    ensures r.book.members == b.members[(inc, c) := None]
  {
    var b1 := b.(members := b.members[(inc, c) := None]);
    ParkOneEffect(b1, inc, c, "circuit_breaker", now);
    HeldIsFree(b, inc, c);
    ParkingKeeps(b, r.book, inc, c);
    forall d ensures SameOpenness(b.fab, r.book.fab, d) {
      assert d != c ==> Untouched(b.fab, r.book.fab, d);
    }
  }

  lemma ReparkOneKeeps(b: Book, inc: IncidentId, c: CaseId, now: int)
    requires BookInv(b) && b.fab.locked == map[] && (inc, c) in b.members && c in InFlight(b, inc)
    ensures var r := ReparkOne(b, inc, c, now);
            && Kept(b, r.book) && (r.error.None? <==> !StoppedUnclosed(b.fab, c))
            && r.book.members == (if Live(b.fab, c) then b.members[(inc, c) := None] else b.members)
  {
    if Live(b.fab, c) {
      ReparkLive(b, ReparkOne(b, inc, c, now), inc, c, now);
    } else {
      assert MemberOk(b, (inc, c));
    }
  }

  /** Reparking puts back exactly the members still live, and is refused exactly by a case stopped without being closed. */
  lemma {:induction false} ReparkKeeps(b: Book, inc: IncidentId, cs: seq<CaseId>, now: int)
    requires BookInv(b) && b.fab.locked == map[] && forall c :: c in cs ==> (inc, c) in b.members && c in InFlight(b, inc)
    ensures var r := ReparkAll(b, inc, cs, now);
            && Kept(b, r.book) && (r.error.None? <==> NoneStopped(b.fab, cs))
            && (r.error.None? ==> ParkedSet(r.book, inc) == ParkedSet(b, inc) + LiveAmong(b.fab, cs))
    decreases |cs|
  {
    hide BookInv, ReparkOne, SameOpennessAll, StoppedUnclosed;
    SameOpennessSelf(b.fab);
    if cs != [] {
      var c := cs[0];
      assert forall x :: x in cs <==> x == c || x in cs[1..];
      ReparkOneKeeps(b, inc, c, now);
      var r := ReparkOne(b, inc, c, now);
      if r.error.None? {
        ReparkKeeps(r.book, inc, cs[1..], now);
        KeptTransitive(b, r.book, ReparkAll(r.book, inc, cs[1..], now).book);
        ParkedAfter(b, r.book, inc, c);
        ReparkTail(b.fab, r.book.fab, cs);
      }
    }
  }

  lemma ReparkTail(t: Tables, t': Tables, cs: seq<CaseId>)
    requires cs != [] && SameOpennessAll(t, t')
    ensures LiveAmong(t, cs) == LiveAmong(t', cs[1..]) + if Live(t, cs[0]) then {cs[0]} else {}
    ensures NoneStopped(t, cs) <==> !StoppedUnclosed(t, cs[0]) && NoneStopped(t', cs[1..])
  {
    SameStops(t, t');
    assert forall x :: x in cs <==> x == cs[0] || x in cs[1..];
  }

  lemma ParkedAfter(b: Book, b': Book, inc: IncidentId, c: CaseId)
    requires (inc, c) in b.members
    requires b'.members == if Live(b.fab, c) then b.members[(inc, c) := None] else b.members
    ensures ParkedSet(b', inc) == ParkedSet(b, inc) + if Live(b.fab, c) then {c} else {}
  {
  }
}
