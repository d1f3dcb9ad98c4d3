/**
 * Any number of settlement handlers, cut at every statement, interleaved with case
 * traffic and able to crash anywhere: RECOVERED means the money arrived, and money
 * that arrived means RECOVERED.
 */
module SettlementRuns {
  import opened Wrappers
  import opened StateMachine
  import opened CaseEvents
  import opened CaseFabric
  import opened FabricInvariant
  import opened ScheduleRuns
  import opened Settlements

  type HandlerId = nat

  /** How far one `onSettlement` call has got, with what it has read so far. */
  datatype Handler =
    | Received(s: Inbound)
    | Matched(s: Inbound, m: Match)
    | Recorded(o: ObligationId, via: Strategy)
    | Found(o: ObligationId, via: Strategy, c: CaseId, owed: int)
    | Covering(o: ObligationId, via: Strategy, c: CaseId)
    | Closing(o: ObligationId, via: Strategy, c: CaseId)

  /**
   * `stranded` is history: a case enters when it is left open and paid for with nobody
   * on the way to close it, by a handler that dies or by being opened over the money,
   * and leaves when it closes.
   */
  datatype World = World(desk: Desk, handlers: map<HandlerId, Handler>, stranded: set<CaseId>)

  datatype Step =
    | Engine(op: Op)
    | OpenOrAttach(req: OpenRequest, o: ObligationId, now: int)
    | AssignAccount(o: ObligationId, account: string)
    | LinkAttempt(key: string, o: ObligationId)
    | Receive(h: HandlerId, s: Inbound)
    | MatchMoney(h: HandlerId, m: Match)
    | InsertRow(h: HandlerId)
    | FindCase(h: HandlerId, found: Option<CaseId>)
    | SumUp(h: HandlerId)
    | MarkPaid(h: HandlerId)
    | CloseCase(h: HandlerId, now: int)
    | Crash(h: HandlerId)

  /** Only the verifier says RECOVERED, and only openOrAttach opens cases. */
  predicate OrdinaryTraffic(op: Op) {
    !op.Open? && !(op.Append? && op.e.TerminalReached? && op.e.state == StateMachine.Recovered)
  }

  ghost predicate Enabled(w: World, step: Step) {
    match step
    case Engine(op) => OrdinaryTraffic(op)
    case OpenOrAttach(req, o, _) =>
      IsUpsert(w.desk, req, o) && (req.caseId !in w.desk.fab.cases || exists c :: LiveFor(w.desk.fab, o, c))
    case AssignAccount(o, _) => o in w.desk.obligations
    case LinkAttempt(key, o) => key !in w.desk.attempts && o in w.desk.obligations
    case Receive(h, _) => h !in w.handlers
    case MatchMoney(h, m) => h in w.handlers && w.handlers[h].Received? && IsMatch(w.desk, w.handlers[h].s, m)
    case InsertRow(h) => h in w.handlers && w.handlers[h].Matched?
    case FindCase(h, found) => h in w.handlers && w.handlers[h].Recorded? && IsOpenCase(w.desk.fab, w.handlers[h].o, found)
    case SumUp(h) => h in w.handlers && w.handlers[h].Found?
    case MarkPaid(h) => h in w.handlers && w.handlers[h].Covering?
    case CloseCase(h, _) => h in w.handlers && w.handlers[h].Closing? && !CaseLocked(w.desk.fab, w.handlers[h].c)
    case Crash(h) => h in w.handlers
  }

  function Move(w: World, h: HandlerId, to: Handler): World {
    w.(handlers := w.handlers[h := to])
  }

  function Finish(w: World, h: HandlerId): World {
    w.(handlers := w.handlers - {h})
  }

  /** Past the insert a handler answers for its obligation. */
  function AnswersFor(p: Handler): Option<ObligationId> {
    if p.Received? || p.Matched? then None else Some(p.o)
  }

  function InsertNext(w: World, h: HandlerId): World
    requires h in w.handlers && w.handlers[h].Matched?
  {
    var p := w.handlers[h];
    match Insert(w.desk, p.s, p.m)
    case Err(_) => Finish(w, h)
    case Ok(d) =>
      if p.m.obligation.None? then Finish(w.(desk := d), h)
      else Move(w.(desk := d), h, Recorded(p.m.obligation.value, p.m.via))
  }

  function CloseNext(w: World, h: HandlerId, now: int): World
    requires h in w.handlers && w.handlers[h].Closing?
  {
    var p := w.handlers[h];
    match AppendTo(w.desk.fab, p.c, Recovery(p.via), "verifier", now)
    case Err(_) => Finish(w, h)
    case Ok(t) => Finish(w.(desk := w.desk.(fab := t)), h)
  }

  ghost function OpenNext(w: World, req: OpenRequest, o: ObligationId, now: int): World {
    var d := Upsert(w.desk, req, o);
    if exists c :: LiveFor(d.fab, o, c) then w.(desk := d)
    else w.(desk := d.(fab := InsertCase(d.fab, req.caseId, o, now)))
  }

  /** The step itself; what becomes of `stranded` is in `Next`. */
  ghost function Raw(w: World, step: Step): World
    requires Enabled(w, step)
  {
    match step
    case Engine(op) => w.(desk := w.desk.(fab := Apply(w.desk.fab, op)))
    case OpenOrAttach(req, o, now) => OpenNext(w, req, o, now)
    case AssignAccount(o, a) =>
      w.(desk := w.desk.(obligations := w.desk.obligations[o := w.desk.obligations[o].(virtualAccount := Some(a))]))
    case LinkAttempt(key, o) => w.(desk := w.desk.(attempts := w.desk.attempts[key := o]))
    case Receive(h, s) => Move(w, h, Received(s))
    case MatchMoney(h, m) => Move(w, h, Matched(w.handlers[h].s, m))
    case InsertRow(h) => InsertNext(w, h)
    case FindCase(h, found) =>
      var p := w.handlers[h];
      if found.None? || p.o !in w.desk.obligations then Finish(w, h)
      else Move(w, h, Found(p.o, p.via, found.value, w.desk.obligations[p.o].amount))
    case SumUp(h) =>
      var p := w.handlers[h];
      if Total(w.desk.rows, Some(p.o)) < p.owed then Finish(w, h) else Move(w, h, Covering(p.o, p.via, p.c))
    case MarkPaid(h) =>
      var p := w.handlers[h];
      Move(w.(desk := Settlements.MarkSettled(w.desk, p.o)), h, Closing(p.o, p.via, p.c))
    case CloseCase(h, now) => CloseNext(w, h, now)
    case Crash(h) => Finish(w, h)
  }

  /** The only cases a step can strand: those of the obligation a dying handler answers for, and the case being opened. */
  function Deserted(w: World, step: Step): set<CaseId> {
    match step
    case Crash(h) =>
      if h in w.handlers then set c | c in w.desk.fab.cases && AnswersFor(w.handlers[h]) == Some(w.desk.fab.cases[c].obligationId) else {}
    case OpenOrAttach(req, _, _) => {req.caseId}
    case _ => {}
  }

  /** On its way to closing `c`. */
  predicate Attends(p: Handler, c: CaseId, o: ObligationId) {
    if p.Received? || p.Matched? then false else if p.Recorded? then p.o == o else p.c == c
  }

  predicate OpenCase(d: Desk, c: CaseId) {
    c in d.fab.cases && !IsTerminal(d.fab.cases[c].state)
  }

  /** Open, paid for, and nobody is on the way to close it. */
  predicate LeftBehind(w: World, c: CaseId) {
    && OpenCase(w.desk, c) && Covered(w.desk, w.desk.fab.cases[c].obligationId)
    && forall h :: h in w.handlers ==> !Attends(w.handlers[h], c, w.desk.fab.cases[c].obligationId)
  }

  /** The world after a step that deserted these cases. */
  function Stranding(w: World, deserted: set<CaseId>): World {
    w.(stranded := (set c | c in w.stranded && OpenCase(w.desk, c)) + set c | c in deserted && LeftBehind(w, c))
  }

  ghost function Next(w: World, step: Step): World
    requires Enabled(w, step)
  {
    Stranding(Raw(w, step), Deserted(w, step))
  }

  ghost function Act(w: World, step: Step): World {
    if Enabled(w, step) then Next(w, step) else w
  }

  ghost function ActAll(w: World, steps: seq<Step>): World
    decreases |steps|
  {
    if steps == [] then w else ActAll(Act(w, steps[0]), steps[1..])
  }

  const QUIET_DESK := World(Desk(EMPTY, map[], map[], []), map[], {})

  // ---- The invariant ----

  ghost predicate RowOk(d: Desk, row: SettlementRow) {
    row.money.amount > 0 && (row.matched.obligation.Some? ==> row.matched.obligation.value in d.obligations)
  }

  ghost predicate RowsOk(d: Desk) {
    forall i {:trigger RowOk(d, d.rows[i])} :: 0 <= i < |d.rows| ==> RowOk(d, d.rows[i])
  }

  ghost predicate AttemptsOk(d: Desk) {
    forall key :: key in d.attempts ==> d.attempts[key] in d.obligations
  }

  predicate Pays(d: Desk, o: ObligationId) {
    o in d.obligations && Total(d.rows, Some(o)) >= d.obligations[o].amount
  }

  /** RECOVERED means the money arrived. */
  ghost predicate CaseOk(d: Desk, c: CaseId) {
    c in d.fab.cases ==>
      && d.fab.cases[c].obligationId in d.obligations
      && (d.fab.cases[c].state.Recovered? ==> Pays(d, d.fab.cases[c].obligationId))
  }

  ghost predicate CasesOk(d: Desk) {
    forall c {:trigger CaseOk(d, c)} :: CaseOk(d, c)
  }

  /** At most one case with a null closed_at per obligation. */
  ghost predicate OneOpen(fab: Tables, o: ObligationId) {
    forall c, e :: LiveFor(fab, o, c) && LiveFor(fab, o, e) ==> c == e
  }

  ghost predicate AllOneOpen(fab: Tables) {
    forall o {:trigger OneOpen(fab, o)} :: OneOpen(fab, o)
  }

  predicate CaseOf(d: Desk, c: CaseId, o: ObligationId) {
    c in d.fab.cases && d.fab.cases[c].obligationId == o
  }

  ghost predicate HandlerOk(d: Desk, p: Handler) {
    match p
    case Received(_) => true
    case Matched(_, m) => m.obligation.Some? ==> m.obligation.value in d.obligations
    case Recorded(o, _) => o in d.obligations
    case Found(o, _, c, owed) => o in d.obligations && CaseOf(d, c, o) && owed == d.obligations[o].amount
    case Covering(o, _, c) => CaseOf(d, c, o) && Pays(d, o)
    case Closing(o, _, c) => CaseOf(d, c, o) && Pays(d, o)
  }

  ghost predicate HandlersOk(w: World) {
    forall h {:trigger HandlerOk(w.desk, w.handlers[h])} :: h in w.handlers ==> HandlerOk(w.desk, w.handlers[h])
  }

  /** A case left behind is known to be. */
  ghost predicate Attended(w: World, c: CaseId) {
    LeftBehind(w, c) ==> c in w.stranded
  }

  ghost predicate AllAttended(w: World) {
    forall c {:trigger Attended(w, c)} :: Attended(w, c)
  }

  ghost predicate DeskOk(d: Desk) {
    Inv(d.fab) && RowsOk(d) && AttemptsOk(d) && CasesOk(d) && AllOneOpen(d.fab)
  }

  ghost predicate MoneyInv(w: World) {
    DeskOk(w.desk) && HandlersOk(w) && AllAttended(w)
  }

  // ---- Totals ----

  lemma TotalOfMore(rows: seq<SettlementRow>, row: SettlementRow, o: Option<ObligationId>)
    ensures Total(rows + [row], o) == Total(rows, o) + Credit(row, o)
  {
  }

  /** What every step does to a desk: nothing owed, paid or credited goes away. */
  ghost predicate Grows(d: Desk, d': Desk) {
    && (forall o :: o in d.obligations ==> o in d'.obligations && d'.obligations[o].amount == d.obligations[o].amount)
    && (forall o :: Total(d'.rows, o) >= Total(d.rows, o))
    && (forall c :: c in d.fab.cases ==> c in d'.fab.cases && d'.fab.cases[c].obligationId == d.fab.cases[c].obligationId)
  }

  lemma HandlersGrow(w: World, w': World)
    requires HandlersOk(w) && Grows(w.desk, w'.desk) && w'.handlers == w.handlers
    ensures HandlersOk(w')
  {
    forall h | h in w'.handlers ensures HandlerOk(w'.desk, w'.handlers[h]) {
      assert HandlerOk(w.desk, w.handlers[h]);
    }
  }

  // ---- The engine ----

  lemma EngineFrame(t: Tables, op: Op, c: CaseId)
    requires Inv(t) && OrdinaryTraffic(op)
    ensures Apply(t, op).cases.Keys == t.cases.Keys
    ensures c in t.cases ==>
              var row, row' := t.cases[c], Apply(t, op).cases[c];
              && row'.obligationId == row.obligationId
              && (row'.state.Recovered? ==> row.state.Recovered?)
              && (!IsTerminal(row'.state) ==> !IsTerminal(row.state))
              && (row'.closedAt.None? ==> row.closedAt.None?)
  {
    if CaseFabric.Enabled(t, op) {
      match op
      case Append(d, e, source, now) => AppendFrame(t, d, e, source, now, c);
      case RecordDiagnosis(_, _) =>
      case _ => ScheduleFrame(t, op);
    }
  }

  lemma AppendFrame(t: Tables, d: CaseId, e: CaseEvent, source: string, now: int, c: CaseId)
    requires Inv(t) && AppendTo(t, d, e, source, now).Ok?
    ensures var t' := AppendTo(t, d, e, source, now).value;
            && t'.cases.Keys == t.cases.Keys
            && (c in t.cases ==>
                  var row, row' := t.cases[c], t'.cases[c];
                  && row'.obligationId == row.obligationId
                  && (row'.state.Recovered? ==> row.state.Recovered? || (c == d && e.TerminalReached? && e.state == StateMachine.Recovered))
                  && (!IsTerminal(row'.state) ==> !IsTerminal(row.state))
                  && (row'.closedAt.None? ==> row.closedAt.None?))
  {
    AppendEffect(t, d, e, source, now);
    AppendSucceedsIff(t, d, e, source, now);
    assert CaseCached(t.cases[d], d, t.events[d], t.revisions[d]);
  }

  /** How a case may move without new money: never open again, and RECOVERED only if it is paid. */
  predicate Moves(d: Desk, row: CaseRow, row': CaseRow) {
    && row'.obligationId == row.obligationId
    && (row'.state.Recovered? ==> row.state.Recovered? || Pays(d, row.obligationId))
    && (!IsTerminal(row'.state) ==> !IsTerminal(row.state))
    && (row'.closedAt.None? ==> row.closedAt.None?)
  }

  ghost predicate CaseMoves(d: Desk, t: Tables, c: CaseId) {
    c in d.fab.cases ==> c in t.cases && Moves(d, d.fab.cases[c], t.cases[c])
  }

  ghost predicate CasesMove(d: Desk, t: Tables) {
    t.cases.Keys == d.fab.cases.Keys && forall c {:trigger CaseMoves(d, t, c)} :: CaseMoves(d, t, c)
  }

  lemma OneOpenMoves(d: Desk, t: Tables, o: ObligationId)
    requires CasesMove(d, t) && OneOpen(d.fab, o)
    ensures OneOpen(t, o)
  {
    forall c, e | LiveFor(t, o, c) && LiveFor(t, o, e) ensures c == e {
      assert CaseMoves(d, t, c) && CaseMoves(d, t, e);
      assert LiveFor(d.fab, o, c) && LiveFor(d.fab, o, e);
    }
  }

  lemma DeskMoves(d: Desk, t: Tables)
    requires DeskOk(d) && Inv(t) && CasesMove(d, t)
    ensures DeskOk(d.(fab := t))
  {
    var d' := d.(fab := t);
    forall i | 0 <= i < |d'.rows| ensures RowOk(d', d'.rows[i]) {
      assert RowOk(d, d.rows[i]);
    }
    forall c ensures CaseOk(d', c) {
      assert CaseOk(d, c) && CaseMoves(d, t, c);
    }
    forall o ensures OneOpen(t, o) {
      OneOpenMoves(d, t, o);
    }
  }

  lemma AttendedMoves(w: World, t: Tables, c: CaseId)
    requires CasesMove(w.desk, t) && Attended(w, c)
    ensures Attended(w.(desk := w.desk.(fab := t)), c)
  {
    assert CaseMoves(w.desk, t, c);
  }

  /** Case traffic that leaves the money alone. */
  lemma FabricStep(w: World, t: Tables)
    requires MoneyInv(w) && Inv(t) && CasesMove(w.desk, t)
    ensures MoneyInv(w.(desk := w.desk.(fab := t)))
  {
    var w' := w.(desk := w.desk.(fab := t));
    DeskMoves(w.desk, t);
    forall c | c in w.desk.fab.cases ensures c in t.cases && t.cases[c].obligationId == w.desk.fab.cases[c].obligationId {
      assert CaseMoves(w.desk, t, c);
    }
    HandlersGrow(w, w');
    forall c ensures Attended(w', c) {
      AttendedMoves(w, t, c);
    }
  }

  lemma EngineKeeps(w: World, op: Op)
    requires MoneyInv(w) && OrdinaryTraffic(op)
    ensures MoneyInv(Raw(w, Engine(op)))
  {
    var t := Apply(w.desk.fab, op);
    ApplyKeepsInv(w.desk.fab, op);
    EngineFrame(w.desk.fab, op, 0);
    forall c ensures CaseMoves(w.desk, t, c) {
      EngineFrame(w.desk.fab, op, c);
    }
    FabricStep(w, t);
  }

  // ---- Opening a case ----

  lemma UpsertKeeps(w: World, req: OpenRequest, o: ObligationId)
    requires MoneyInv(w) && IsUpsert(w.desk, req, o)
    ensures MoneyInv(w.(desk := Upsert(w.desk, req, o))) && o in Upsert(w.desk, req, o).obligations
  {
    var d, d' := w.desk, Upsert(w.desk, req, o);
    var w' := w.(desk := d');
    forall i | 0 <= i < |d'.rows| ensures RowOk(d', d'.rows[i]) {
      assert RowOk(d, d.rows[i]);
    }
    forall c ensures CaseOk(d', c) && Attended(w', c) {
      assert CaseOk(d, c) && Attended(w, c);
    }
    HandlersGrow(w, w');
  }

  lemma InsertCaseKeeps(w: World, c: CaseId, o: ObligationId, now: int)
    requires MoneyInv(w) && c !in w.desk.fab.cases && o in w.desk.obligations && forall e :: !LiveFor(w.desk.fab, o, e)
    ensures MoneyInv(World(w.desk.(fab := InsertCase(w.desk.fab, c, o, now)), w.handlers, w.stranded + {c}))
  {
    var d := w.desk;
    var d' := d.(fab := InsertCase(d.fab, c, o, now));
    var w' := World(d', w.handlers, w.stranded + {c});
    OpenKeepsInv(d.fab, c, o, now);
    forall i | 0 <= i < |d'.rows| ensures RowOk(d', d'.rows[i]) {
      assert RowOk(d, d.rows[i]);
    }
    forall e ensures CaseOk(d', e) && Attended(w', e) {
      assert CaseOk(d, e) && Attended(w, e);
    }
    forall p ensures OneOpen(d'.fab, p) {
      assert OneOpen(d.fab, p);
      forall x, y | LiveFor(d'.fab, p, x) && LiveFor(d'.fab, p, y) ensures x == y {
        assert x != c ==> LiveFor(d.fab, p, x);
        assert y != c ==> LiveFor(d.fab, p, y);
      }
    }
    HandlersGrow(w.(stranded := w'.stranded), w');
  }

  lemma OpenKeeps(w: World, req: OpenRequest, o: ObligationId, now: int)
    requires MoneyInv(w) && Enabled(w, OpenOrAttach(req, o, now))
    ensures MoneyInv(Raw(w, OpenOrAttach(req, o, now)).(stranded := w.stranded + {req.caseId}))
  {
    UpsertKeeps(w, req, o);
    var w1 := w.(desk := Upsert(w.desk, req, o));
    if forall c :: !LiveFor(w1.desk.fab, o, c) {
      InsertCaseKeeps(w1, req.caseId, o, now);
    } else {
      StrandingMore(w1, {req.caseId});
    }
  }

  lemma StrandingMore(w: World, more: set<CaseId>)
    requires MoneyInv(w)
    ensures MoneyInv(w.(stranded := w.stranded + more))
  {
    var w' := w.(stranded := w.stranded + more);
    forall h | h in w'.handlers ensures HandlerOk(w'.desk, w'.handlers[h]) {
      assert HandlerOk(w.desk, w.handlers[h]);
    }
    forall c ensures Attended(w', c) {
      assert Attended(w, c);
    }
  }

  // ---- One handler ----

  /** A handler's own step that leaves the desk alone, and keeps attending what it attended. */
  lemma MoveKeeps(w: World, h: HandlerId, to: Handler)
    requires MoneyInv(w) && HandlerOk(w.desk, to)
    requires h in w.handlers ==>
               forall c :: OpenCase(w.desk, c) && Covered(w.desk, w.desk.fab.cases[c].obligationId)
                           && Attends(w.handlers[h], c, w.desk.fab.cases[c].obligationId)
                           ==> Attends(to, c, w.desk.fab.cases[c].obligationId)
    ensures MoneyInv(Move(w, h, to))
  {
    var w' := Move(w, h, to);
    forall k | k in w'.handlers ensures HandlerOk(w'.desk, w'.handlers[k]) {
      assert k != h ==> HandlerOk(w.desk, w.handlers[k]);
    }
    forall c ensures Attended(w', c) {
      MoveAttends(w, w', h, c);
    }
  }

  lemma MoveAttends(w: World, w': World, h: HandlerId, c: CaseId)
    requires Attended(w, c) && w'.desk == w.desk && w.stranded <= w'.stranded
    requires forall k :: k in w.handlers && k != h ==> k in w'.handlers && w'.handlers[k] == w.handlers[k]
    requires h in w.handlers && OpenCase(w.desk, c) && Covered(w.desk, w.desk.fab.cases[c].obligationId)
             && c !in w'.stranded && Attends(w.handlers[h], c, w.desk.fab.cases[c].obligationId)
             ==> h in w'.handlers && Attends(w'.handlers[h], c, w.desk.fab.cases[c].obligationId)
    ensures Attended(w', c)
  {
  }

  /** A handler that ends, unless it was attending a case that is open and covered. */
  lemma FinishKeeps(w: World, h: HandlerId, lost: set<CaseId>)
    requires MoneyInv(w) && h in w.handlers
    requires forall c :: OpenCase(w.desk, c) && Covered(w.desk, w.desk.fab.cases[c].obligationId) && c !in w.stranded + lost
                         ==> !Attends(w.handlers[h], c, w.desk.fab.cases[c].obligationId)
    ensures MoneyInv(Finish(w.(stranded := w.stranded + lost), h))
  {
    var w' := Finish(w.(stranded := w.stranded + lost), h);
    forall k | k in w'.handlers ensures HandlerOk(w'.desk, w'.handlers[k]) {
      assert HandlerOk(w.desk, w.handlers[k]);
    }
    forall c ensures Attended(w', c) {
      MoveAttends(w, w', h, c);
    }
  }

  lemma FindKeeps(w: World, h: HandlerId, found: Option<CaseId>)
    requires MoneyInv(w) && Enabled(w, FindCase(h, found))
    ensures MoneyInv(Raw(w, FindCase(h, found)))
  {
    var p := w.handlers[h];
    assert HandlerOk(w.desk, p) && OneOpen(w.desk.fab, p.o);
    forall c | OpenCase(w.desk, c) && w.desk.fab.cases[c].obligationId == p.o ensures found == Some(c) {
      OpenIsLive(w.desk, c);
      assert LiveFor(w.desk.fab, p.o, c);
    }
    if found.None? {
      FinishKeeps(w, h, {});
      assert w.stranded + {} == w.stranded;
    } else {
      MoveKeeps(w, h, Found(p.o, p.via, found.value, w.desk.obligations[p.o].amount));
    }
  }

  lemma OpenIsLive(d: Desk, c: CaseId)
    requires DeskOk(d) && OpenCase(d, c)
    ensures Live(d.fab, c)
  {
    ClosedAtFollowsReason(d.fab, c);
  }

  lemma SumKeeps(w: World, h: HandlerId)
    requires MoneyInv(w) && Enabled(w, SumUp(h))
    ensures MoneyInv(Raw(w, SumUp(h)))
  {
    var p := w.handlers[h];
    assert HandlerOk(w.desk, p);
    if Total(w.desk.rows, Some(p.o)) < p.owed {
      FinishKeeps(w, h, {});
      assert w.stranded + {} == w.stranded;
    } else {
      MoveKeeps(w, h, Covering(p.o, p.via, p.c));
    }
  }

  /** Writing an obligation's state or account changes nothing the invariant reads. */
  lemma ObligationKeeps(w: World, o: ObligationId, ob: Obligation)
    requires MoneyInv(w) && o in w.desk.obligations && ob.amount == w.desk.obligations[o].amount
    ensures MoneyInv(w.(desk := w.desk.(obligations := w.desk.obligations[o := ob])))
  {
    var d, d' := w.desk, w.desk.(obligations := w.desk.obligations[o := ob]);
    var w' := w.(desk := d');
    forall i | 0 <= i < |d'.rows| ensures RowOk(d', d'.rows[i]) {
      assert RowOk(d, d.rows[i]);
    }
    forall c ensures CaseOk(d', c) && Attended(w', c) {
      assert CaseOk(d, c) && Attended(w, c);
    }
    HandlersGrow(w, w');
  }

  lemma MarkKeeps(w: World, h: HandlerId)
    requires MoneyInv(w) && Enabled(w, MarkPaid(h))
    ensures MoneyInv(Raw(w, MarkPaid(h)))
  {
    var p := w.handlers[h];
    assert HandlerOk(w.desk, p);
    ObligationKeeps(w, p.o, w.desk.obligations[p.o].(state := Settled));
    MoveKeeps(w.(desk := MarkSettled(w.desk, p.o)), h, Closing(p.o, p.via, p.c));
  }

  lemma DeskIsSound(d: Desk)
    requires DeskOk(d)
    ensures Inv(d.fab)
  {
  }

  /** The append closes the case, unless the case has stopped some other way; either way it is open no more. */
  lemma RecoveryEffect(d: Desk, c: CaseId, via: Strategy, now: int)
    requires DeskOk(d) && c in d.fab.cases && Pays(d, d.fab.cases[c].obligationId) && !CaseLocked(d.fab, c)
    ensures var r := AppendTo(d.fab, c, Recovery(via), "verifier", now);
            && (r.Ok? <==> !IsTerminal(d.fab.cases[c].state) || d.fab.cases[c].state.Recovered?)
            && (r.Ok? ==> Inv(r.value) && CasesMove(d, r.value) && r.value.cases[c].state.Recovered?)
  {
    hide AppendTo, DeskOk, CaseCached;
    DeskIsSound(d);
    var r := AppendTo(d.fab, c, Recovery(via), "verifier", now);
    AppendSucceedsIff(d.fab, c, Recovery(via), "verifier", now);
    if r.Ok? {
      AppendKeepsInv(d.fab, c, Recovery(via), "verifier", now);
      AppendEffect(d.fab, c, Recovery(via), "verifier", now);
      forall e ensures CaseMoves(d, r.value, e) {
        AppendFrame(d.fab, c, Recovery(via), "verifier", now, e);
      }
    }
  }

  lemma CloseKeeps(w: World, h: HandlerId, now: int)
    requires MoneyInv(w) && Enabled(w, CloseCase(h, now))
    ensures MoneyInv(Raw(w, CloseCase(h, now)))
  {
    var p := w.handlers[h];
    assert HandlerOk(w.desk, p);
    RecoveryEffect(w.desk, p.c, p.via, now);
    var r := AppendTo(w.desk.fab, p.c, Recovery(p.via), "verifier", now);
    assert w.stranded + {} == w.stranded;
    if r.Ok? {
      FabricStep(w, r.value);
      FinishKeeps(w.(desk := w.desk.(fab := r.value)), h, {});
    } else {
      FinishKeeps(w, h, {});
    }
  }

  lemma CrashKeeps(w: World, h: HandlerId)
    requires MoneyInv(w) && Enabled(w, Crash(h))
    ensures MoneyInv(Raw(w, Crash(h)).(stranded := w.stranded + Deserted(w, Crash(h))))
  {
    assert HandlerOk(w.desk, w.handlers[h]);
    FinishKeeps(w, h, Deserted(w, Crash(h)));
  }

  // ---- Recording money ----

  lemma RowKeepsDesk(d: Desk, row: SettlementRow)
    requires DeskOk(d) && RowOk(d, row)
    ensures DeskOk(d.(rows := d.rows + [row])) && Grows(d, d.(rows := d.rows + [row]))
  {
    var d' := d.(rows := d.rows + [row]);
    forall o ensures Total(d'.rows, o) == Total(d.rows, o) + Credit(row, o) {
      TotalOfMore(d.rows, row, o);
    }
    forall i | 0 <= i < |d'.rows| ensures RowOk(d', d'.rows[i]) {
      assert i < |d.rows| ==> RowOk(d, d.rows[i]);
    }
    forall c ensures CaseOk(d', c) {
      assert CaseOk(d, c);
    }
  }

  /** A delivery attends every case of its obligation, whether its row was new or not. */
  lemma DeliveryKeeps(w: World, w': World, h: HandlerId, m: Match)
    requires MoneyInv(w) && h in w.handlers && w.handlers[h].Matched? && HandlerOk(w.desk, w.handlers[h])
    requires w.handlers[h].m == m && m.obligation.Some?
    requires DeskOk(w'.desk) && Grows(w.desk, w'.desk) && w'.desk.fab == w.desk.fab && w'.desk.obligations == w.desk.obligations
    requires forall o :: o != m.obligation ==> Total(w'.desk.rows, o) == Total(w.desk.rows, o)
    requires w'.stranded == w.stranded
    requires w'.handlers == w.handlers[h := Recorded(m.obligation.value, m.via)]
    ensures MoneyInv(w')
  {
    forall k | k in w'.handlers ensures HandlerOk(w'.desk, w'.handlers[k]) {
      assert k != h ==> HandlerOk(w.desk, w.handlers[k]);
    }
    forall c ensures Attended(w', c) {
      DeliveryAttends(w, w', h, m, c);
    }
  }

  lemma DeliveryAttends(w: World, w': World, h: HandlerId, m: Match, c: CaseId)
    requires Attended(w, c) && h in w.handlers && w.handlers[h].Matched? && m.obligation.Some?
    requires w'.desk.fab == w.desk.fab && w'.desk.obligations == w.desk.obligations
    requires forall o :: o != m.obligation ==> Total(w'.desk.rows, o) == Total(w.desk.rows, o)
    requires w'.stranded == w.stranded
    requires w'.handlers == w.handlers[h := Recorded(m.obligation.value, m.via)]
    ensures Attended(w', c)
  {
    if OpenCase(w.desk, c) {
      var o := w.desk.fab.cases[c].obligationId;
      if Some(o) == m.obligation {
        assert Attends(w'.handlers[h], c, o);
      } else if Covered(w'.desk, o) && c !in w'.stranded {
        var k :| k in w.handlers && Attends(w.handlers[k], c, o);
        assert Attends(w'.handlers[k], c, o);
      }
    }
  }

  lemma InsertKeeps(w: World, h: HandlerId)
    requires MoneyInv(w) && Enabled(w, InsertRow(h))
    ensures MoneyInv(Raw(w, InsertRow(h)))
  {
    var p := w.handlers[h];
    var r := Insert(w.desk, p.s, p.m);
    assert HandlerOk(w.desk, p);
    assert w.stranded + {} == w.stranded;
    if r.Err? {
      FinishKeeps(w, h, {});
    } else {
      InsertGrows(w.desk, p.s, p.m);
      if p.m.obligation.Some? {
        DeliveryKeeps(w, Raw(w, InsertRow(h)), h, p.m);
      } else {
        UnmatchedKeeps(w, r.value);
        FinishKeeps(w.(desk := r.value), h, {});
      }
    }
  }

  lemma InsertGrows(d: Desk, s: Inbound, m: Match)
    requires DeskOk(d) && Insert(d, s, m).Ok? && (m.obligation.Some? ==> m.obligation.value in d.obligations)
    ensures var d' := Insert(d, s, m).value;
            && DeskOk(d') && Grows(d, d') && d'.fab == d.fab && d'.obligations == d.obligations
            && forall o :: o != m.obligation ==> Total(d'.rows, o) == Total(d.rows, o)
  {
    if !HasId(d.rows, s.id) {
      RowKeepsDesk(d, SettlementRow(s, m));
      forall o ensures Total(d.rows + [SettlementRow(s, m)], o) == Total(d.rows, o) + Credit(SettlementRow(s, m), o) {
        TotalOfMore(d.rows, SettlementRow(s, m), o);
      }
    }
  }

  lemma UnmatchedKeeps(w: World, d': Desk)
    requires MoneyInv(w) && DeskOk(d') && Grows(w.desk, d') && d'.fab == w.desk.fab && d'.obligations == w.desk.obligations
    requires forall o :: o != None ==> Total(d'.rows, o) == Total(w.desk.rows, o)
    ensures MoneyInv(w.(desk := d'))
  {
    HandlersGrow(w, w.(desk := d'));
    forall c ensures Attended(w.(desk := d'), c) {
      assert Attended(w, c);
    }
  }

  // ---- Every run ----

  lemma MatchIsKnown(d: Desk, s: Inbound, m: Match)
    requires AttemptsOk(d) && IsMatch(d, s, m) && m.obligation.Some?
    ensures m.obligation.value in d.obligations
  {
  }

  lemma LinkKeeps(w: World, key: string, o: ObligationId)
    requires MoneyInv(w) && o in w.desk.obligations
    ensures MoneyInv(w.(desk := w.desk.(attempts := w.desk.attempts[key := o])))
  {
    var d, d' := w.desk, w.desk.(attempts := w.desk.attempts[key := o]);
    var w' := w.(desk := d');
    forall i | 0 <= i < |d'.rows| ensures RowOk(d', d'.rows[i]) {
      assert RowOk(d, d.rows[i]);
    }
    forall c ensures CaseOk(d', c) && Attended(w', c) {
      assert CaseOk(d, c) && Attended(w, c);
    }
    HandlersGrow(w, w');
  }

  lemma RawKeepsInv(w: World, step: Step)
    requires MoneyInv(w) && Enabled(w, step) && !step.Crash? && !step.OpenOrAttach?
    ensures MoneyInv(Raw(w, step))
  {
    match step
    case Engine(op) => EngineKeeps(w, op);
    case AssignAccount(o, a) => ObligationKeeps(w, o, w.desk.obligations[o].(virtualAccount := Some(a)));
    case LinkAttempt(key, o) => LinkKeeps(w, key, o);
    case Receive(h, s) => MoveKeeps(w, h, Received(s));
    case MatchMoney(h, m) =>
      if m.obligation.Some? {
        MatchIsKnown(w.desk, w.handlers[h].s, m);
      }
      MoveKeeps(w, h, Matched(w.handlers[h].s, m));
    case InsertRow(h) => InsertKeeps(w, h);
    case FindCase(h, found) => FindKeeps(w, h, found);
    case SumUp(h) => SumKeeps(w, h);
    case MarkPaid(h) => MarkKeeps(w, h);
    case CloseCase(h, now) => CloseKeeps(w, h, now);
  }

  lemma RawStranded(w: World, step: Step)
    requires Enabled(w, step)
    ensures Raw(w, step).stranded == w.stranded
  {
    hide Apply, AppendTo, Insert;
  }

  lemma StrandingKeeps(w: World, deserted: set<CaseId>)
    requires MoneyInv(w.(stranded := w.stranded + deserted))
    ensures MoneyInv(Stranding(w, deserted))
  {
    var w' := Stranding(w, deserted);
    var more := w.(stranded := w.stranded + deserted);
    forall h | h in w'.handlers ensures HandlerOk(w'.desk, w'.handlers[h]) {
      assert HandlerOk(more.desk, more.handlers[h]);
    }
    forall c ensures Attended(w', c) {
      assert Attended(more, c);
    }
  }

  lemma ActKeepsInv(w: World, step: Step)
    requires MoneyInv(w)
    ensures MoneyInv(Act(w, step))
  {
    hide Raw, Stranding, MoneyInv;
    if Enabled(w, step) {
      RawStranded(w, step);
      match step {
        case Crash(h) => CrashKeeps(w, h);
        case OpenOrAttach(req, o, now) => OpenKeeps(w, req, o, now);
        case _ =>
          RawKeepsInv(w, step);
          assert w.stranded + Deserted(w, step) == w.stranded;
      }
      StrandingKeeps(Raw(w, step), Deserted(w, step));
    }
  }

  lemma {:induction false} ActAllKeepsInv(w: World, steps: seq<Step>)
    requires MoneyInv(w)
    ensures MoneyInv(ActAll(w, steps))
    decreases |steps|
  {
    hide MoneyInv, Act;
    if steps != [] {
      ActKeepsInv(w, steps[0]);
      ActAllKeepsInv(Act(w, steps[0]), steps[1..]);
    }
  }

  /** What is marked as stranded is open. */
  ghost predicate StrandedOk(w: World) {
    forall c :: c in w.stranded ==> OpenCase(w.desk, c)
  }

  lemma {:induction false} StrandedAreLeft(w: World, steps: seq<Step>)
    requires StrandedOk(w)
    ensures StrandedOk(ActAll(w, steps))
    decreases |steps|
  {
    hide Raw;
    if steps != [] {
      StrandedAreLeft(Act(w, steps[0]), steps[1..]);
    }
  }

  lemma ReachableMoneyInv(steps: seq<Step>)
    ensures MoneyInv(ActAll(QUIET_DESK, steps)) && StrandedOk(ActAll(QUIET_DESK, steps))
  {
    var d := QUIET_DESK.desk;
    forall o ensures OneOpen(d.fab, o) {
    }
    forall c ensures CaseOk(d, c) && Attended(QUIET_DESK, c) {
    }
    ActAllKeepsInv(QUIET_DESK, steps);
    StrandedAreLeft(QUIET_DESK, steps);
  }

  /** A case is RECOVERED only if the money credited to its obligation covers what is owed. */
  lemma RecoveredMeansPaid(steps: seq<Step>, c: CaseId)
    requires c in ActAll(QUIET_DESK, steps).desk.fab.cases
    ensures var d := ActAll(QUIET_DESK, steps).desk;
            && d.fab.cases[c].obligationId in d.obligations
            && (d.fab.cases[c].state.Recovered? ==> Pays(d, d.fab.cases[c].obligationId))
  {
    ReachableMoneyInv(steps);
    assert CaseOk(ActAll(QUIET_DESK, steps).desk, c);
  }

  /** However triggers race, an obligation never has two live cases. */
  lemma AtMostOneLiveCase(steps: seq<Step>, o: ObligationId, c: CaseId, e: CaseId)
    requires LiveFor(ActAll(QUIET_DESK, steps).desk.fab, o, c) && LiveFor(ActAll(QUIET_DESK, steps).desk.fab, o, e)
    ensures c == e
  {
    ReachableMoneyInv(steps);
    assert OneOpen(ActAll(QUIET_DESK, steps).desk.fab, o);
  }

  /** No settlement handler is still working on the obligation. */
  ghost predicate Idle(w: World, o: ObligationId) {
    forall h :: h in w.handlers ==> AnswersFor(w.handlers[h]) != Some(o)
  }

  /** Only those two steps leave a case open, paid for and unattended, and a stranded case is open. */
  lemma LeftBehindIsStranded(steps: seq<Step>, c: CaseId)
    ensures var w := ActAll(QUIET_DESK, steps);
            && (LeftBehind(w, c) ==> c in w.stranded)
            && (c in w.stranded ==> OpenCase(w.desk, c))
  {
    ReachableMoneyInv(steps);
    assert Attended(ActAll(QUIET_DESK, steps), c);
  }

  /**
   * When the handlers of an obligation that owes something have finished, a case that
   * no other signal has stopped is RECOVERED if and only if the credited money covers
   * what is owed and the case is not stranded. Where nothing is owed, credit still
   * recovers it.
   */
  lemma RecoveredIffPaid(steps: seq<Step>, c: CaseId)
    requires c in ActAll(QUIET_DESK, steps).desk.fab.cases
    ensures var w := ActAll(QUIET_DESK, steps); var row := w.desk.fab.cases[c]; var o := row.obligationId;
            && o in w.desk.obligations
            && (Idle(w, o) && (row.state.Recovered? || !IsTerminal(row.state)) ==>
                  && (Total(w.desk.rows, Some(o)) > 0 && Total(w.desk.rows, Some(o)) >= w.desk.obligations[o].amount ==>
                        (row.state.Recovered? <==> c !in w.stranded))
                  && (w.desk.obligations[o].amount > 0 ==>
                        (row.state.Recovered? <==>
                         Total(w.desk.rows, Some(o)) >= w.desk.obligations[o].amount && c !in w.stranded)))
  {
    RecoveredMeansPaid(steps, c);
    LeftBehindIsStranded(steps, c);
    ReachableMoneyInv(steps);
    var w := ActAll(QUIET_DESK, steps);
    if Idle(w, w.desk.fab.cases[c].obligationId) {
      IdleAttendsNone(w, c);
    }
  }

  lemma IdleAttendsNone(w: World, c: CaseId)
    requires HandlersOk(w) && c in w.desk.fab.cases && Idle(w, w.desk.fab.cases[c].obligationId)
    ensures forall h :: h in w.handlers ==> !Attends(w.handlers[h], c, w.desk.fab.cases[c].obligationId)
  {
    forall h | h in w.handlers ensures !Attends(w.handlers[h], c, w.desk.fab.cases[c].obligationId) {
      assert HandlerOk(w.desk, w.handlers[h]) && AnswersFor(w.handlers[h]) != Some(w.desk.fab.cases[c].obligationId);
    }
  }
}
