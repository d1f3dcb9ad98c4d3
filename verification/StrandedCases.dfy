/** The two ways an open case ends up paid for with nobody on the way to close it, each as a run from the empty desk. */
module StrandedCases {
  import opened Wrappers
  import opened StateMachine
  import opened CaseEvents
  import opened CaseFabric
  import opened FabricInvariant
  import opened Settlements
  import opened SettlementRuns

  /** A settlement that pays the requested obligation in full and names it. */
  predicate PaysFor(s: Inbound, req: OpenRequest) {
    && s.amount > 0 && s.amount >= req.obligation.amount && s.merchant == req.obligation.merchant
    && s.reference == Some(req.obligation.externalRef) && req.obligation.externalRef != ""
  }

  /** The desk with the requested obligation on file. */
  function Filed(req: OpenRequest, fab: Tables, rows: seq<SettlementRow>): Desk {
    Desk(fab, map[req.obligationId := req.obligation.(state := Owed, virtualAccount := None)], map[], rows)
  }

  function Credited(s: Inbound, req: OpenRequest): seq<SettlementRow> {
    [SettlementRow(s, Match(Some(req.obligationId), ByReference))]
  }

  lemma ActOpens(w: World, req: OpenRequest, o: ObligationId, now: int)
    requires IsUpsert(w.desk, req, o) && req.caseId !in w.desk.fab.cases && forall c :: !LiveFor(w.desk.fab, o, c)
    ensures var w', d := Act(w, OpenOrAttach(req, o, now)), Upsert(w.desk, req, o);
            w'.desk == d.(fab := InsertCase(d.fab, req.caseId, o, now)) && w'.handlers == w.handlers
  {
  }

  lemma FirstOpens(req: OpenRequest, now: int)
    ensures var w := Act(QUIET_DESK, OpenOrAttach(req, req.obligationId, now));
            w.desk == Filed(req, InsertCase(EMPTY, req.caseId, req.obligationId, now), []) && w.handlers == map[]
  {
    ActOpens(QUIET_DESK, req, req.obligationId, now);
  }

  /** The statements of a delivery up to its insert. */
  function Delivery(h: HandlerId, s: Inbound, req: OpenRequest): seq<Step> {
    [Receive(h, s), MatchMoney(h, Match(Some(req.obligationId), ByReference)), InsertRow(h)]
  }

  lemma MatchedByName(req: OpenRequest, fab: Tables, s: Inbound)
    requires PaysFor(s, req)
    ensures IsMatch(Filed(req, fab, []), s, Match(Some(req.obligationId), ByReference))
  {
    assert ReferencePays(Filed(req, fab, []), s, req.obligationId);
  }

  lemma Delivered(w: World, h: HandlerId, s: Inbound, req: OpenRequest, fab: Tables)
    requires PaysFor(s, req) && w.desk == Filed(req, fab, []) && w.handlers == map[]
    ensures var w' := ActAll(w, Delivery(h, s, req));
            w'.desk == Filed(req, fab, Credited(s, req)) && w'.handlers == map[h := Recorded(req.obligationId, ByReference)]
  {
    MatchedByName(req, fab, s);
    var m := Match(Some(req.obligationId), ByReference);
    hide IsMatch, AppendTo, Apply, ActAll;
    var w1 := Act(w, Receive(h, s));
    assert w1.desk == w.desk && w1.handlers == map[h := Received(s)];
    var w2 := Act(w1, MatchMoney(h, m));
    assert w2.desk == w.desk && w2.handlers == map[h := Matched(s, m)];
    ActRecords(w2, h);
    assert [] + Credited(s, req) == Credited(s, req);
    ActAllThree(w, Receive(h, s), MatchMoney(h, m), InsertRow(h));
  }

  lemma ActRecords(w: World, h: HandlerId)
    requires h in w.handlers && w.handlers[h].Matched? && w.handlers[h].m.obligation.Some?
    requires w.desk.rows == [] && w.handlers[h].s.amount > 0
    ensures var w', p := Act(w, InsertRow(h)), w.handlers[h];
            && w'.desk == w.desk.(rows := w.desk.rows + [SettlementRow(p.s, p.m)])
            && w'.handlers == w.handlers[h := Recorded(p.m.obligation.value, p.m.via)]
  {
  }

  lemma ActAllThree(w: World, a: Step, b: Step, c: Step)
    ensures ActAll(w, [a, b, c]) == Act(Act(Act(w, a), b), c)
  {
    hide Act;
    var steps := [a, b, c];
    assert steps[1..] == [b, c] && [b, c][1..] == [c];
    assert ActAll(Act(w, a), [b, c]) == ActAll(Act(Act(w, a), b), [c]);
    ActAllOne(Act(Act(w, a), b), c);
  }

  lemma {:induction false} ActAllJoin(w: World, a: seq<Step>, b: seq<Step>)
    ensures ActAll(w, a + b) == ActAll(ActAll(w, a), b)
    decreases |a|
  {
    hide Act;
    if a == [] {
      assert a + b == b;
    } else {
      assert (a + b)[1..] == a[1..] + b;
      ActAllJoin(Act(w, a[0]), a[1..], b);
    }
  }

  lemma ActAllOne(w: World, a: Step)
    ensures ActAll(w, [a]) == Act(w, a)
  {
    hide Act;
  }

  lemma PaidInFull(req: OpenRequest, fab: Tables, s: Inbound)
    requires PaysFor(s, req)
    ensures Covered(Filed(req, fab, Credited(s, req)), req.obligationId)
  {
    var rows := Credited(s, req);
    assert rows[..0] == [];
    assert Total(rows[..0], Some(req.obligationId)) == 0;
  }

  /** A handler is lost between its insert and its lookup: the money is on file, and the case stays open. */
  lemma LostHandlerStrands(req: OpenRequest, s: Inbound, h: HandlerId, now: int)
    requires PaysFor(s, req)
    ensures var w := ActAll(QUIET_DESK, [OpenOrAttach(req, req.obligationId, now)] + (Delivery(h, s, req) + [Crash(h)]));
            && OpenCase(w.desk, req.caseId) && Covered(w.desk, req.obligationId) && w.handlers == map[]
            && w.stranded == {req.caseId}
  {
    hide Act, AppendTo, IsMatch, ActAll, Covered;
    var steps := [OpenOrAttach(req, req.obligationId, now)] + (Delivery(h, s, req) + [Crash(h)]);
    var fab := InsertCase(EMPTY, req.caseId, req.obligationId, now);
    ActAllJoin(QUIET_DESK, [OpenOrAttach(req, req.obligationId, now)], Delivery(h, s, req) + [Crash(h)]);
    ActAllOne(QUIET_DESK, OpenOrAttach(req, req.obligationId, now));
    FirstOpens(req, now);
    var w1 := Act(QUIET_DESK, OpenOrAttach(req, req.obligationId, now));
    ActAllJoin(w1, Delivery(h, s, req), [Crash(h)]);
    Delivered(w1, h, s, req, fab);
    var w2 := ActAll(w1, Delivery(h, s, req));
    ActAllOne(w2, Crash(h));
    var w := ActAll(QUIET_DESK, steps);
    ActCrashes(w2, h);
    PaidInFull(req, fab, s);
    OneIsStranded(steps, req.caseId);
  }

  lemma ActCrashes(w: World, h: HandlerId)
    requires h in w.handlers
    ensures Act(w, Crash(h)).desk == w.desk && Act(w, Crash(h)).handlers == w.handlers - {h}
  {
  }

  lemma OneIsStranded(steps: seq<Step>, c: CaseId)
    requires var w := ActAll(QUIET_DESK, steps);
             && OpenCase(w.desk, c) && Covered(w.desk, w.desk.fab.cases[c].obligationId) && w.handlers == map[]
             && forall e :: e in w.desk.fab.cases && e != c ==> IsTerminal(w.desk.fab.cases[e].state)
    ensures ActAll(QUIET_DESK, steps).stranded == {c}
  {
    hide ActAll;
    var w := ActAll(QUIET_DESK, steps);
    forall e ensures e in w.stranded <==> e == c {
      LeftBehindIsStranded(steps, e);
    }
  }

  const OPTS_OUT := TerminalReached(OptedOut, "opted_out")

  lemma ActStops(w: World, c: CaseId, now: int)
    requires Inv(w.desk.fab) && c in w.desk.fab.cases && w.desk.fab.cases[c].state.Detected? && w.desk.fab.locked == map[]
    ensures var w' := Act(w, Engine(Append(c, OPTS_OUT, "verifier", now)));
            && w'.desk == w.desk.(fab := w'.desk.fab) && w'.handlers == w.handlers
            && w'.desk.fab.cases.Keys == w.desk.fab.cases.Keys && w'.desk.fab.cases[c].state.OptedOut?
            && w'.desk.fab.cases[c].closedAt.Some? && w'.desk.fab.cases[c].obligationId == w.desk.fab.cases[c].obligationId
  {
    hide AppendTo, CaseCached;
    AppendSucceedsIff(w.desk.fab, c, OPTS_OUT, "verifier", now);
    AppendEffect(w.desk.fab, c, OPTS_OUT, "verifier", now);
  }

  lemma ActFindsNone(w: World, h: HandlerId)
    requires h in w.handlers && w.handlers[h].Recorded? && forall c :: !LiveFor(w.desk.fab, w.handlers[h].o, c)
    ensures var w' := Act(w, FindCase(h, None)); w'.desk == w.desk && w'.handlers == w.handlers - {h}
  {
  }

  /** No handler is lost: the case is stopped, the money comes, and a later trigger opens another case over it. */
  lemma OpenedOverTheMoney(req: OpenRequest, next: CaseId, s: Inbound, h: HandlerId, now: int)
    requires PaysFor(s, req) && next != req.caseId
    ensures var before := [OpenOrAttach(req, req.obligationId, now)] + [Engine(Append(req.caseId, OPTS_OUT, "verifier", now))];
            var w := ActAll(QUIET_DESK,
              before + (Delivery(h, s, req) + ([FindCase(h, None)] + [OpenOrAttach(req.(caseId := next), req.obligationId, now)])));
            && OpenCase(w.desk, next) && Covered(w.desk, req.obligationId) && w.handlers == map[]
            && w.stranded == {next}
  {
    hide Act, AppendTo, IsMatch, ActAll, Covered, Inv;
    var open, stop := OpenOrAttach(req, req.obligationId, now), Engine(Append(req.caseId, OPTS_OUT, "verifier", now));
    var again := OpenOrAttach(req.(caseId := next), req.obligationId, now);
    var rest := [FindCase(h, None)] + [again];
    var steps := ([open] + [stop]) + (Delivery(h, s, req) + rest);
    ActAllJoin(QUIET_DESK, [open] + [stop], Delivery(h, s, req) + rest);
    ActAllJoin(QUIET_DESK, [open], [stop]);
    ActAllOne(QUIET_DESK, open);
    FirstOpens(req, now);
    var w1 := Act(QUIET_DESK, open);
    OpenKeepsInv(EMPTY, req.caseId, req.obligationId, now);
    ActAllOne(w1, stop);
    ActStops(w1, req.caseId, now);
    var w2 := Act(w1, stop);
    ActAllJoin(w2, Delivery(h, s, req), rest);
    Delivered(w2, h, s, req, w2.desk.fab);
    var w3 := ActAll(w2, Delivery(h, s, req));
    ActAllJoin(w3, [FindCase(h, None)], [again]);
    ActAllOne(w3, FindCase(h, None));
    ActFindsNone(w3, h);
    var w4 := Act(w3, FindCase(h, None));
    ActAllOne(w4, again);
    assert Named(w4.desk.obligations, req.obligation.merchant, req.obligation.externalRef, req.obligationId);
    ActOpens(w4, req.(caseId := next), req.obligationId, now);
    PaidInFull(req, Act(w4, again).desk.fab, s);
    OneIsStranded(steps, next);
  }
}
