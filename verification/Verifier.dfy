/**
 * The reconciler, the verifier and the case manager as they run: one call at a
 * time over tables updated in place.
 */
module Verifiers {
  import opened Wrappers
  import opened StateMachine
  import opened CaseEvents
  import opened CaseFabric
  import opened FabricInvariant
  import opened SortedIds
  import opened Databases
  import opened ScheduleRuns
  import opened Settlements
  import opened SettlementRuns

  datatype Verification =
    | Recovery(settled: int)
    | Partial(settled: int, owed: int)
    | UnmatchedMoney
    | NoOpenCase

  datatype HandleError = NotRecorded(why: InsertError) | Refused(refusal: AppendError)

  /** One `onSettlement` from its match and the open case it finds after the insert. */
  function Handle(d: Desk, s: Inbound, m: Match, found: Option<CaseId>, now: int): (Desk, Result<Verification, HandleError>) {
    match Insert(d, s, m)
    case Err(e) => (d, Err(NotRecorded(e)))
    case Ok(d1) =>
      if m.obligation.None? then (d1, Ok(UnmatchedMoney))
      else if found.None? || m.obligation.value !in d1.obligations then (d1, Ok(NoOpenCase))
      else
        var o := m.obligation.value;
        var settled, owed := Total(d1.rows, Some(o)), d1.obligations[o].amount;
        if settled < owed then (d1, Ok(Partial(settled, owed)))
        else
          var d2 := MarkSettled(d1, o);
          match AppendTo(d2.fab, found.value, Settlements.Recovery(m.via), "verifier", now)
          case Err(e) => (d2, Err(Refused(e)))
          case Ok(t) => (d2.(fab := t), Ok(Verification.Recovery(settled)))
  }

  ghost predicate IsHandled(d: Desk, s: Inbound, now: int, d': Desk, r: Result<Verification, HandleError>) {
    exists m, found :: HandledBy(d, s, now, d', r, m, found)
  }

  /** The match is read before the insert; the insert changes no case, so the open case may be read off either desk. */
  ghost predicate HandledBy(d: Desk, s: Inbound, now: int, d': Desk, r: Result<Verification, HandleError>,
                            m: Match, found: Option<CaseId>) {
    && IsMatch(d, s, m) && (m.obligation.Some? && Insert(d, s, m).Ok? ==> IsOpenCase(d.fab, m.obligation.value, found))
    && (d', r) == Handle(d, s, m, found, now)
  }

  function Script(h: HandlerId, s: Inbound, m: Match, found: Option<CaseId>, now: int): seq<Step> {
    [Receive(h, s)] + ([MatchMoney(h, m)] + ([InsertRow(h)] + Rest(h, found, now)))
  }

  function Rest(h: HandlerId, found: Option<CaseId>, now: int): seq<Step> {
    [FindCase(h, found), SumUp(h), MarkPaid(h), CloseCase(h, now)]
  }

  lemma RunCons(w: World, a: Step, rest: seq<Step>, all: seq<Step>)
    requires all == [a] + rest
    ensures ActAll(w, all) == ActAll(Act(w, a), rest)
  {
    assert all[1..] == rest;
  }

  /** A call that has ended takes no more steps. */
  predicate LaterStep(step: Step, h: HandlerId) {
    step in {InsertRow(h), SumUp(h), MarkPaid(h)} || (step.FindCase? && step.h == h) || (step.CloseCase? && step.h == h)
  }

  lemma {:induction false} Ended(w: World, h: HandlerId, steps: seq<Step>)
    requires h !in w.handlers && forall i :: 0 <= i < |steps| ==> LaterStep(steps[i], h)
    ensures ActAll(w, steps) == w
    decreases |steps|
  {
    if steps != [] {
      assert LaterStep(steps[0], h);
      Ended(w, h, steps[1..]);
    }
  }

  /** The tables after an uninterrupted call are those the step system reaches. */
  lemma HandleIsARun(d: Desk, h: HandlerId, s: Inbound, m: Match, found: Option<CaseId>, now: int)
    requires d.fab.locked == map[] && IsMatch(d, s, m)
    requires m.obligation.Some? && Insert(d, s, m).Ok? ==> IsOpenCase(d.fab, m.obligation.value, found)
    ensures ActAll(World(d, map[], {}), Script(h, s, m, found, now)) == World(Handle(d, s, m, found, now).0, map[], {})
  {
    hide Handle, Insert, IsMatch, IsOpenCase, Act, Rest, ActAll;
    var w0, w1, w2 := World(d, map[], {}), World(d, map[h := Received(s)], {}), World(d, map[h := Matched(s, m)], {});
    ActArrive(d, h, s, m);
    RunCons(w0, Receive(h, s), [MatchMoney(h, m)] + ([InsertRow(h)] + Rest(h, found, now)), Script(h, s, m, found, now));
    RunCons(w1, MatchMoney(h, m), [InsertRow(h)] + Rest(h, found, now), [MatchMoney(h, m)] + ([InsertRow(h)] + Rest(h, found, now)));
    AfterMatch(w2, h, s, m, found, now);
  }

  lemma ActArrive(d: Desk, h: HandlerId, s: Inbound, m: Match)
    requires IsMatch(d, s, m)
    ensures Act(World(d, map[], {}), Receive(h, s)) == World(d, map[h := Received(s)], {})
    ensures Act(World(d, map[h := Received(s)], {}), MatchMoney(h, m)) == World(d, map[h := Matched(s, m)], {})
  {
    hide IsMatch;
  }

  lemma InsertFrame(d: Desk, s: Inbound, m: Match)
    ensures Insert(d, s, m).Ok? ==> Insert(d, s, m).value.fab == d.fab && Insert(d, s, m).value.obligations == d.obligations
  {
  }

  /** What the insert step leaves of a call that is on its own. */
  lemma ActInsert(w: World, h: HandlerId, s: Inbound, m: Match)
    requires w == World(w.desk, map[h := Matched(s, m)], {})
    ensures var r := Insert(w.desk, s, m);
            Act(w, InsertRow(h)) ==
            if r.Err? then World(w.desk, map[], {})
            else if m.obligation.None? then World(r.value, map[], {})
            else World(r.value, map[h := Recorded(m.obligation.value, m.via)], {})
  {
    hide Insert;
  }

  lemma AfterMatch(w: World, h: HandlerId, s: Inbound, m: Match, found: Option<CaseId>, now: int)
    requires w == World(w.desk, map[h := Matched(s, m)], {}) && w.desk.fab.locked == map[]
    requires m.obligation.Some? && Insert(w.desk, s, m).Ok? ==> IsOpenCase(w.desk.fab, m.obligation.value, found)
    ensures ActAll(w, [InsertRow(h)] + Rest(h, found, now)) == World(Handle(w.desk, s, m, found, now).0, map[], {})
  {
    hide Act, Insert, AppendTo, Total, IsOpenCase, MarkSettled;
    var w1, r := Act(w, InsertRow(h)), Insert(w.desk, s, m);
    RunCons(w, InsertRow(h), Rest(h, found, now), [InsertRow(h)] + Rest(h, found, now));
    ActInsert(w, h, s, m);
    InsertFrame(w.desk, s, m);
    if r.Err? || m.obligation.None? {
      Ended(w1, h, Rest(h, found, now));
    } else {
      AfterInsert(w1, h, m.obligation.value, m.via, found, now);
    }
  }

  lemma AfterInsert(w: World, h: HandlerId, o: ObligationId, via: Strategy, found: Option<CaseId>, now: int)
    requires w == World(w.desk, map[h := Recorded(o, via)], {}) && w.desk.fab.locked == map[]
    requires IsOpenCase(w.desk.fab, o, found)
    ensures ActAll(w, Rest(h, found, now)) == World(
              if found.None? || o !in w.desk.obligations || Total(w.desk.rows, Some(o)) < w.desk.obligations[o].amount then w.desk
              else Closed(MarkSettled(w.desk, o), found.value, via, now), map[], {})
  {
    hide Closed, Total, AppendTo, MarkSettled, Insert, Apply, Upsert, IsUpsert, ActAll;
    var w1 := Act(w, FindCase(h, found));
    RunCons(w, FindCase(h, found), [SumUp(h), MarkPaid(h), CloseCase(h, now)], Rest(h, found, now));
    if found.None? || o !in w.desk.obligations {
      assert w1 == World(w.desk, map[], {});
      Ended(w1, h, [SumUp(h), MarkPaid(h), CloseCase(h, now)]);
    } else {
      assert w1 == World(w.desk, map[h := Found(o, via, found.value, w.desk.obligations[o].amount)], {});
      AfterFind(w1, h, now);
    }
  }

  /** The desk once the recovery has been appended, or refused. */
  function Closed(d: Desk, c: CaseId, via: Strategy, now: int): Desk {
    var r := AppendTo(d.fab, c, Settlements.Recovery(via), "verifier", now);
    if r.Ok? then d.(fab := r.value) else d
  }

  lemma AfterFind(w: World, h: HandlerId, now: int)
    requires h in w.handlers && w.handlers[h].Found?
    requires w == World(w.desk, map[h := w.handlers[h]], {}) && w.desk.fab.locked == map[]
    ensures var p := w.handlers[h];
            ActAll(w, [SumUp(h), MarkPaid(h), CloseCase(h, now)]) == World(
              if Total(w.desk.rows, Some(p.o)) < p.owed then w.desk else Closed(MarkSettled(w.desk, p.o), p.c, p.via, now), map[], {})
  {
    hide Closed, Total, Apply, AppendTo, MarkSettled;
    var p := w.handlers[h];
    var w1 := Act(w, SumUp(h));
    RunCons(w, SumUp(h), [MarkPaid(h), CloseCase(h, now)], [SumUp(h), MarkPaid(h), CloseCase(h, now)]);
    if Total(w.desk.rows, Some(p.o)) < p.owed {
      assert w1 == World(w.desk, map[], {});
      Ended(w1, h, [MarkPaid(h), CloseCase(h, now)]);
    } else {
      assert w1 == World(w.desk, map[h := Covering(p.o, p.via, p.c)], {});
      var w2 := World(MarkSettled(w.desk, p.o), map[h := Closing(p.o, p.via, p.c)], {});
      RunCons(w1, MarkPaid(h), [CloseCase(h, now)], [MarkPaid(h), CloseCase(h, now)]);
      assert Act(w1, MarkPaid(h)) == w2;
      MarkFrame(w.desk, p.o);
      AfterMark(w2, h, now);
    }
  }

  lemma MarkFrame(d: Desk, o: ObligationId)
    ensures MarkSettled(d, o).fab == d.fab
  {
  }

  lemma AfterMark(w: World, h: HandlerId, now: int)
    requires h in w.handlers && w.handlers[h].Closing?
    requires w == World(w.desk, map[h := w.handlers[h]], {}) && w.desk.fab.locked == map[]
    ensures ActAll(w, [CloseCase(h, now)]) == World(Closed(w.desk, w.handlers[h].c, w.handlers[h].via, now), map[], {})
  {
    RunCons(w, CloseCase(h, now), [], [CloseCase(h, now)]);
  }

  /**
   * What a delivery does on a sound desk: RECOVERED exactly when the money, this
   * delivery included, covers the obligation of an open case, and an error exactly
   * when that case had been stopped by an expired approval.
   */
  lemma WhenADeliveryRecovers(d: Desk, s: Inbound, m: Match, found: Option<CaseId>, now: int)
    requires DeskOk(d) && d.fab.locked == map[] && IsMatch(d, s, m)
    requires m.obligation.Some? ==> IsOpenCase(d.fab, m.obligation.value, found)
    requires Insert(d, s, m).Ok?
    ensures var (d', r) := Handle(d, s, m, found, now); var d1 := Insert(d, s, m).value;
            && DeskOk(d') && d'.rows == d1.rows
            && (m.obligation.None? ==> r == Ok(UnmatchedMoney))
            && (m.obligation.Some? && found.None? ==> r == Ok(NoOpenCase))
            && (m.obligation.Some? && found.Some? && !Pays(d1, m.obligation.value) ==>
                  m.obligation.value in d1.obligations
                  && r == Ok(Partial(Total(d1.rows, m.obligation), d1.obligations[m.obligation.value].amount)))
            && (m.obligation.Some? && found.Some? && Pays(d1, m.obligation.value) ==>
                  d'.obligations[m.obligation.value].state == Settled)
            && (m.obligation.Some? && found.Some? && Pays(d1, m.obligation.value) ==>
                  if StoppedUnclosed(d.fab, found.value)
                  then r.Err? && d'.fab == d.fab && d'.obligations[m.obligation.value].state == Settled
                  else r == Ok(Verification.Recovery(Total(d1.rows, m.obligation))) && d'.fab.cases[found.value].state.Recovered?)
            && (!(m.obligation.Some? && found.Some? && Pays(d1, m.obligation.value)) ==> r.Ok? && !r.value.Recovery? && d'.fab == d.fab)
  {
    if m.obligation.Some? {
      MatchIsKnown(d, s, m);
    }
    InsertGrows(d, s, m);
    var d1 := Insert(d, s, m).value;
    if m.obligation.Some? && found.Some? && Pays(d1, m.obligation.value) {
      var o, c := m.obligation.value, found.value;
      var d2 := MarkSettled(d1, o);
      MarkKeepsDesk(d1, o);
      RecoveryEffect(d2, c, m.via, now);
      if d.fab.cases[c].state.Recovered? {
        RecoveredIsClosed(d.fab, c);
      }
      var r := AppendTo(d2.fab, c, Settlements.Recovery(m.via), "verifier", now);
      if r.Ok? {
        DeskMoves(d2, r.value);
      }
    }
  }

  /** With nothing owed, a matched redelivery recovers the case although its row was never credited. */
  lemma NothingOwedNeedsNoCredit(d: Desk, s: Inbound, m: Match, c: CaseId, now: int)
    requires DeskOk(d) && d.fab.locked == map[] && IsMatch(d, s, m) && m.obligation.Some?
    requires IsOpenCase(d.fab, m.obligation.value, Some(c)) && !IsTerminal(d.fab.cases[c].state)
    requires s.amount > 0 && HasId(d.rows, s.id) && Total(d.rows, m.obligation) == 0
    requires m.obligation.value in d.obligations && d.obligations[m.obligation.value].amount == 0
    ensures var d' := Handle(d, s, m, Some(c), now).0;
            c in d'.fab.cases && d'.fab.cases[c].state.Recovered? && Total(d'.rows, m.obligation) == 0
  {
    WhenADeliveryRecovers(d, s, m, Some(c), now);
  }

  lemma RecoveredIsClosed(t: Tables, c: CaseId)
    requires Inv(t) && c in t.cases && t.cases[c].state.Recovered?
    ensures t.cases[c].closedAt.Some?
  {
    assert CaseCached(t.cases[c], c, t.events[c], t.revisions[c]);
    ReducedToRecovered(c, t.events[c]);
  }

  /** Only a terminal_reached leads to RECOVERED, so a recovered case has a reason. */
  lemma {:induction false} ReducedToRecovered(c: CaseId, log: Log)
    requires ReduceAll(c, log).Ok? && ReduceAll(c, log).value.state.Recovered?
    ensures ReduceAll(c, log).value.terminalReason.Some?
  {
    var before := log[..|log| - 1];
    if ReduceAll(c, before).value.state.Recovered? {
      ReducedToRecovered(c, before);
    }
  }

  lemma MarkKeepsDesk(d: Desk, o: ObligationId)
    requires DeskOk(d)
    ensures DeskOk(MarkSettled(d, o))
  {
    var d' := MarkSettled(d, o);
    forall i | 0 <= i < |d'.rows| ensures RowOk(d', d'.rows[i]) {
      assert RowOk(d, d.rows[i]);
    }
    forall c ensures CaseOk(d', c) {
      assert CaseOk(d, c);
    }
  }

  // ---- Outcomes that are not money ----

  datatype Signal = Succeeded | Failed | OptOut | Dispute

  function OutcomeEvent(signal: Signal): CaseEvent {
    match signal
    case OptOut => TerminalReached(OptedOut, "opted_out")
    case Dispute => TerminalReached(Disputed, "disputed")
    case Succeeded => OutcomeObserved("succeeded")
    case Failed => OutcomeObserved("failed")
  }

  /** What each signal appends, by the names the connectors use. */
  lemma OutcomeEvents()
    ensures OutcomeEvent(OptOut) == TerminalReached(OptedOut, "opted_out")
    ensures OutcomeEvent(Dispute) == TerminalReached(Disputed, "disputed")
    ensures OutcomeEvent(Succeeded) == OutcomeObserved("succeeded") && OutcomeEvent(Failed) == OutcomeObserved("failed")
  {
  }

  /** A connector's success closes nothing and recovers nothing; only an opt-out or a dispute closes the case. */
  lemma OutcomesAreNotMoney(d: Desk, d': Desk, c: CaseId, signal: Signal, now: int)
    requires DeskOk(d) && c in d.fab.cases && !CaseLocked(d.fab, c)
    requires AppendTo(d.fab, c, OutcomeEvent(signal), "verifier", now) == Ok(d'.fab) && d' == d.(fab := d'.fab)
    ensures DeskOk(d') && c in d'.fab.cases
    ensures d'.fab.cases[c].state.Recovered? <==> d.fab.cases[c].state.Recovered?
    ensures !IsTerminal(d.fab.cases[c].state) ==> (IsTerminal(d'.fab.cases[c].state) <==> signal.OptOut? || signal.Dispute?)
    ensures !IsTerminal(d.fab.cases[c].state) ==>
              && (d'.fab.cases[c].state.OptedOut? <==> signal.OptOut?) && (d'.fab.cases[c].state.Disputed? <==> signal.Dispute?)
    ensures signal.Succeeded? || signal.Failed? ==>
              d'.fab.cases[c].state == if d.fab.cases[c].state.Executing? then Observing else d.fab.cases[c].state
  {
    hide DeskOk, AppendTo;
    DeskIsSound(d);
    AppendSucceedsIff(d.fab, c, OutcomeEvent(signal), "verifier", now);
    OrdinaryAppend(d, c, OutcomeEvent(signal), "verifier", now);
  }

  /** An append other than a recovery keeps a desk sound. */
  lemma OrdinaryAppend(d: Desk, c: CaseId, e: CaseEvent, source: string, now: int)
    requires DeskOk(d) && AppendTo(d.fab, c, e, source, now).Ok?
    requires IsTerminal(TargetState(e, d.fab.cases[c].state)) ==> !CaseLocked(d.fab, c)
    requires e.TerminalReached? ==> e.state != StateMachine.Recovered
    ensures var t := AppendTo(d.fab, c, e, source, now).value;
            && DeskOk(d.(fab := t)) && c in t.cases && t.cases[c].state == TargetState(e, d.fab.cases[c].state)
  {
    var t := AppendTo(d.fab, c, e, source, now).value;
    AppendEffect(d.fab, c, e, source, now);
    AppendKeepsInv(d.fab, c, e, source, now);
    forall x ensures CaseMoves(d, t, x) {
      AppendFrame(d.fab, c, e, source, now, x);
    }
    AppendFrame(d.fab, c, e, source, now, c);
    DeskMoves(d, t);
  }

  // ---- As they run ----

  /** ORDER BY due_at LIMIT 1 */
  predicate DueFirst(obligations: map<ObligationId, Obligation>, among: set<ObligationId>, o: ObligationId)
    requires among <= obligations.Keys
  {
    o in among && forall p :: p in among ==> obligations[o].dueAt <= obligations[p].dueAt
  }

  lemma DueFirstExists(obligations: map<ObligationId, Obligation>, among: set<ObligationId>)
    requires among != {} && among <= obligations.Keys
    ensures exists o :: o in among && DueFirst(obligations, among, o)
  {
    var due := o => if o in obligations then obligations[o].dueAt else 0;
    LeastBy(among, due);
    var o :| IsLeastBy(among, due, o);
    assert DueFirst(obligations, among, o);
  }

  class Reconciler {
    const db: Database
    var obligations: map<ObligationId, Obligation>
    var attempts: map<string, ObligationId>
    var rows: seq<SettlementRow>

    constructor (db: Database)
      ensures this.db == db && obligations == map[] && attempts == map[] && rows == []
    {
      this.db := db;
      obligations, attempts, rows := map[], map[], [];
    }

    function Desk(): Desk
      reads this, db
    {
      Settlements.Desk(db.Tables(), obligations, attempts, rows)
    }

    method FindMatch(s: Inbound) returns (m: Match)
      ensures IsMatch(Desk(), s, m)
    {
      if Given(s.idemKey) && s.idemKey.value in attempts {
        return Match(Some(attempts[s.idemKey.value]), ByIdemKey);
      }
      if Given(s.virtualAccount) {
        var payable := set o | o in obligations && AccountPays(Desk(), s, o);
        assert forall o :: AccountPays(Desk(), s, o) <==> o in payable;
        if payable != {} {
          DueFirstExists(obligations, payable);
          var o :| o in payable && DueFirst(obligations, payable, o);
          return Match(Some(o), ByVirtualAccount);
        }
      }
      if Given(s.reference) {
        var named := set o | o in obligations && ReferencePays(Desk(), s, o);
        assert forall o :: ReferencePays(Desk(), s, o) ==> o in named;
        if named != {} {
          var o :| o in named;
          return Match(Some(o), ByReference);
        }
      }
      return Match(None, Unmatched);
    }

    /** Matches afresh on every delivery; the row of the first delivery stays as it was. */
    method Record(s: Inbound) returns (m: Match, error: Option<InsertError>)
      modifies this
      ensures IsMatch(old(Desk()), s, m)
      ensures Insert(old(Desk()), s, m) == if error.None? then Ok(Desk()) else Err(error.value)
      ensures error.Some? ==> Desk() == old(Desk())
    {
      m := FindMatch(s);
      if s.amount <= 0 {
        return m, Some(AmountNotPositive);
      }
      if HasId(rows, s.id) {
        return m, None;
      }
      if s.idemKey.Some? && HasKey(rows, s.idemKey.value) {
        return m, Some(DuplicateKey);
      }
      rows := rows + [SettlementRow(s, m)];
      return m, None;
    }
  }

  function LiveSet(t: Tables, o: ObligationId): set<CaseId> {
    set c | c in t.cases && LiveFor(t, o, c)
  }

  predicate Oldest(t: Tables, live: set<CaseId>, c: CaseId)
    requires live <= t.cases.Keys
  {
    c in live && forall e :: e in live ==> t.cases[c].openedAt <= t.cases[e].openedAt
  }

  lemma OldestExists(t: Tables, live: set<CaseId>)
    requires live != {} && live <= t.cases.Keys
    ensures exists c :: c in live && Oldest(t, live, c)
  {
    var age := c => if c in t.cases then t.cases[c].openedAt else 0;
    LeastBy(live, age);
    var c :| IsLeastBy(live, age, c);
    assert Oldest(t, live, c);
  }

  method FindOpenCase(t: Tables, o: ObligationId) returns (found: Option<CaseId>)
    ensures IsOpenCase(t, o, found)
    ensures found.None? <==> forall c :: c in t.cases && t.cases[c].obligationId == o ==> t.cases[c].closedAt.Some?
    ensures found.Some? ==>
              && found.value in t.cases && t.cases[found.value].obligationId == o && t.cases[found.value].closedAt.None?
              && forall c :: c in t.cases && t.cases[c].obligationId == o && t.cases[c].closedAt.None? ==>
                   t.cases[found.value].openedAt <= t.cases[c].openedAt
  {
    var live := LiveSet(t, o);
    assert forall c :: LiveFor(t, o, c) <==> c in live;
    if live == {} {
      assert forall c :: c in t.cases && t.cases[c].obligationId == o && t.cases[c].closedAt.None? ==> c in live;
      return None;
    }
    OldestExists(t, live);
    var c :| c in live && Oldest(t, live, c);
    return Some(c);
  }

  class Verifier {
    const reconciler: Reconciler

    constructor (reconciler: Reconciler)
      ensures this.reconciler == reconciler
    {
      this.reconciler := reconciler;
    }

    function Desk(): Settlements.Desk
      reads reconciler, reconciler.db
    {
      reconciler.Desk()
    }

    method OnOutcome(c: CaseId, signal: Signal, now: int) returns (error: Option<AppendError>)
      modifies reconciler.db
      ensures AppendTo(old(Desk()).fab, c, OutcomeEvent(signal), "verifier", now) ==
              if error.None? then Ok(Desk().fab) else Err(error.value)
      ensures Desk() == old(Desk()).(fab := Desk().fab) && (error.Some? ==> Desk() == old(Desk()))
    {
      var r := reconciler.db.Append(c, OutcomeEvent(signal), "verifier", now);
      return if r.Ok? then None else Some(r.error);
    }

    /** Closes a case that nothing more may be done for; refused if it has closed some other way. */
    method Exhaust(c: CaseId, reason: string, now: int) returns (error: Option<AppendError>)
      requires DeskOk(Desk())
      modifies reconciler.db
      ensures var cases := old(Desk()).fab.cases;
              error.None? <==> c in cases && (!IsTerminal(cases[c].state) || cases[c].state.Unrecoverable?)
      ensures var cases := Desk().fab.cases;
              error.None? ==> c in cases && cases[c].state.Unrecoverable? && cases[c].terminalReason == Some(reason)
      ensures Desk() == old(Desk()).(fab := Desk().fab) && (error.Some? ==> Desk() == old(Desk()))
    {
      var e := TerminalReached(StateMachine.Unrecoverable, reason);
      DeskIsSound(Desk());
      AppendSucceedsIff(Desk().fab, c, e, "verifier", now);
      ghost var t := Desk().fab;
      var r := reconciler.db.Append(c, e, "verifier", now);
      if r.Ok? {
        AppendEffect(t, c, e, "verifier", now);
      }
      return if r.Ok? then None else Some(r.error);
    }

    method OnSettlement(s: Inbound, now: int) returns (r: Result<Verification, HandleError>)
      modifies reconciler, reconciler.db
      ensures IsHandled(old(Desk()), s, now, Desk(), r)
    {
      ghost var d := Desk();
      var m, error := reconciler.Record(s);
      var found: Option<CaseId> := None;
      if error.Some? {
        r := Err(NotRecorded(error.value));
        assert HandledBy(d, s, now, Desk(), r, m, None);
        return;
      }
      if m.obligation.None? {
        r := Ok(UnmatchedMoney);
        assert HandledBy(d, s, now, Desk(), r, m, None);
        return;
      }
      var o := m.obligation.value;
      found := FindOpenCase(reconciler.db.Tables(), o);
      if found.None? || o !in reconciler.obligations {
        r := Ok(NoOpenCase);
        assert HandledBy(d, s, now, Desk(), r, m, found);
        return;
      }
      var settled := Total(reconciler.rows, Some(o));
      var owed := reconciler.obligations[o].amount;
      if settled < owed {
        r := Ok(Partial(settled, owed));
        assert HandledBy(d, s, now, Desk(), r, m, found);
        return;
      }
      reconciler.obligations := reconciler.obligations[o := reconciler.obligations[o].(state := Settled)];
      var appended := reconciler.db.Append(found.value, Settlements.Recovery(m.via), "verifier", now);
      r := if appended.Err? then Err(Refused(appended.error)) else Ok(Verification.Recovery(settled));
      assert HandledBy(d, s, now, Desk(), r, m, found);
    }
  }

  datatype OpenResult = OpenResult(caseId: CaseId, attached: bool)

  datatype OpenError = KeyTaken | OpenRefused(why: AppendError)

  /** The open transaction on its own: the obligation's row, then its live case or a new one. */
  ghost predicate IsOpened(d: Desk, req: OpenRequest, o: ObligationId, now: int, d': Desk, r: OpenResult) {
    && IsUpsert(d, req, o)
    && var d1 := Upsert(d, req, o);
       if r.attached then d' == d1 && IsOpenCase(d1.fab, o, Some(r.caseId))
       else
         && r.caseId == req.caseId && req.caseId !in d.fab.cases && (forall c :: !LiveFor(d.fab, o, c))
         && d' == d1.(fab := InsertCase(d1.fab, req.caseId, o, now))
  }

  /** The obligation a request ends up with is the one it names, on file before or filed now as owed, and no other changes. */
  predicate Files(d: Desk, req: OpenRequest, o: ObligationId, d': Desk) {
    && o in d'.obligations
    && d'.obligations[o].merchant == req.obligation.merchant && d'.obligations[o].externalRef == req.obligation.externalRef
    && (forall p :: p in d.obligations ==> p in d'.obligations && d'.obligations[p] == d.obligations[p])
    && (forall p :: p in d'.obligations ==> p in d.obligations || p == o)
    && (o !in d.obligations ==>
          && o == req.obligationId && d'.obligations[o].amount == req.obligation.amount && d'.obligations[o].dueAt == req.obligation.dueAt
          && d'.obligations[o].state == Owed && d'.obligations[o].virtualAccount.None?)
  }

  lemma OpenedFiles(d: Desk, req: OpenRequest, o: ObligationId, now: int, d': Desk, r: OpenResult)
    requires IsOpened(d, req, o, now, d', r)
    ensures Files(d, req, o, d')
    ensures !r.attached ==> r.caseId == req.caseId && req.caseId !in d.fab.cases
  {
    hide IsOpenCase, InsertCase;
  }

  lemma FilesStay(d: Desk, req: OpenRequest, o: ObligationId, d1: Desk, d2: Desk)
    requires Files(d, req, o, d1) && d2.obligations == d1.obligations
    ensures Files(d, req, o, d2)
  {
  }

  class CaseManager {
    const reconciler: Reconciler

    constructor (reconciler: Reconciler)
      ensures this.reconciler == reconciler
    {
      this.reconciler := reconciler;
    }

    function Desk(): Settlements.Desk
      reads reconciler, reconciler.db
    {
      reconciler.Desk()
    }

    /** One transaction: a taken id fails it and nothing is written. */
    method Open(req: OpenRequest, now: int) returns (r: Result<OpenResult, OpenError>, ghost o: ObligationId)
      modifies reconciler, reconciler.db
      ensures r.Ok? ==> IsOpened(old(Desk()), req, o, now, Desk(), r.value)
      ensures r.Err? ==> r.error.KeyTaken? && Desk() == old(Desk())
    {
      var named := set p | p in reconciler.obligations
                           && Named(reconciler.obligations, req.obligation.merchant, req.obligation.externalRef, p);
      assert forall p :: Named(reconciler.obligations, req.obligation.merchant, req.obligation.externalRef, p) ==> p in named;
      var id := req.obligationId;
      if named != {} {
        id :| id in named;
      } else if id in reconciler.obligations {
        return Err(KeyTaken), id;
      }
      var found := FindOpenCase(reconciler.db.Tables(), id);
      if found.None? && req.caseId in reconciler.db.cases {
        return Err(KeyTaken), id;
      }
      if named == {} {
        reconciler.obligations := reconciler.obligations[id := req.obligation.(state := Owed, virtualAccount := None)];
      }
      if found.Some? {
        return Ok(OpenResult(found.value, true)), id;
      }
      reconciler.db.Insert(req.caseId, id, now);
      return Ok(OpenResult(req.caseId, false)), id;
    }

    /** A new case then starts its log with case_opened. */
    method OpenOrAttach(req: OpenRequest, domain: string, holdout: bool, now: int)
      returns (r: Result<OpenResult, OpenError>, ghost o: ObligationId)
      requires DeskOk(Desk())
      modifies reconciler, reconciler.db
      ensures DeskOk(Desk())
      ensures r.Ok? ==> LiveFor(Desk().fab, o, r.value.caseId) && forall c :: LiveFor(Desk().fab, o, c) ==> c == r.value.caseId
      ensures r.Ok? ==> r.value.attached == exists c :: LiveFor(old(Desk()).fab, o, c)
      ensures r.Ok? && !r.value.attached ==> Desk().fab.EventsOf(r.value.caseId) ==
                                             [StoredEvent(r.value.caseId, 0, CaseOpened(domain, holdout), "case_manager", now)]
      ensures r.Err? ==> r.error.KeyTaken? && Desk() == old(Desk())
      ensures r.Ok? ==> Files(old(Desk()), req, o, Desk())
      ensures r.Ok? && !r.value.attached ==> r.value.caseId == req.caseId && req.caseId !in old(Desk()).fab.cases
    {
      ghost var d := Desk();
      r, o := Open(req, now);
      if r.Err? {
        return;
      }
      ghost var d1 := Desk();
      OpenedKeepsDesk(d, req, o, now, d1, r.value);
      OpenedFiles(d, req, o, now, d1, r.value);
      hide Files, IsOpened, DeskOk, AppendTo;
      assert Files(d, req, o, d1);
      if !r.value.attached {
        var appended := reconciler.db.Append(r.value.caseId, CaseOpened(domain, holdout), "case_manager", now);
        CaseOpenedEffect(d1, r.value.caseId, o, CaseOpened(domain, holdout), now);
        FilesStay(d, req, o, d1, Desk());
      }
    }
  }

  lemma OpenedKeepsDesk(d: Desk, req: OpenRequest, o: ObligationId, now: int, d': Desk, r: OpenResult)
    requires DeskOk(d) && IsOpened(d, req, o, now, d', r)
    ensures DeskOk(d') && LiveFor(d'.fab, o, r.caseId) && forall c :: LiveFor(d'.fab, o, c) ==> c == r.caseId
    ensures r.attached == exists c :: LiveFor(d.fab, o, c)
    ensures !r.attached ==> d'.fab.cases[r.caseId].state.Detected? && d'.fab.EventsOf(r.caseId) == [] && d'.fab.cases[r.caseId].nextSeq == 0
  {
    var w := World(d, map[], set c | c in d.fab.cases);
    forall c ensures Attended(w, c) {
      assert CaseOk(d, c);
    }
    assert MoneyInv(w);
    UpsertKeeps(w, req, o);
    var w1 := w.(desk := Upsert(d, req, o));
    assert OneOpen(w1.desk.fab, o);
    if !r.attached {
      InsertCaseKeeps(w1, req.caseId, o, now);
    }
    assert OneOpen(d'.fab, o) && LiveFor(d'.fab, o, r.caseId);
    forall c | LiveFor(d'.fab, o, c) ensures c == r.caseId {
    }
  }

  lemma CaseOpenedEffect(d: Desk, c: CaseId, o: ObligationId, e: CaseEvent, now: int)
    requires DeskOk(d) && c in d.fab.cases && d.fab.cases[c].state.Detected? && e.CaseOpened? && LiveFor(d.fab, o, c)
    requires forall x :: LiveFor(d.fab, o, x) ==> x == c
    ensures var r := AppendTo(d.fab, c, e, "case_manager", now);
            && r.Ok? && DeskOk(d.(fab := r.value)) && LiveFor(r.value, o, c) && forall x :: LiveFor(r.value, o, x) ==> x == c
  {
    AppendSucceedsIff(d.fab, c, e, "case_manager", now);
    var r := AppendTo(d.fab, c, e, "case_manager", now);
    OrdinaryAppend(d, c, e, "case_manager", now);
    AppendEffect(d.fab, c, e, "case_manager", now);
    DetectedHasNoReason(d, c);
    assert OneOpen(r.value, o) && LiveFor(r.value, o, c);
  }

  lemma DetectedHasNoReason(d: Desk, c: CaseId)
    requires DeskOk(d) && c in d.fab.cases && d.fab.cases[c].state.Detected?
    ensures d.fab.cases[c].terminalReason.None?
  {
    assert CaseCached(d.fab.cases[c], c, d.fab.events[c], d.fab.revisions[c]);
    ClosedAtFollowsReason(d.fab, c);
  }
}
