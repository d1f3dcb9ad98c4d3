/** What the order and the number of deliveries cannot change, and what they can. */
module SettlementOrder {
  import opened Wrappers
  import opened StateMachine
  import opened CaseEvents
  import opened CaseFabric
  import opened FabricInvariant
  import opened ScheduleRuns
  import opened SortedIds
  import opened Settlements
  import opened SettlementRuns
  import opened Verifiers

  // ---- Matching ----

  /** UNIQUE (merchant_id, external_ref) */
  ghost predicate NamesUnique(obligations: map<ObligationId, Obligation>) {
    forall o, p ::
      o in obligations && Named(obligations, obligations[o].merchant, obligations[o].externalRef, p) ==> o == p
  }

  ghost predicate SameNames(d: Desk, d': Desk) {
    && d'.attempts == d.attempts && d'.obligations.Keys == d.obligations.Keys
    && forall o :: o in d.obligations ==>
         d'.obligations[o].merchant == d.obligations[o].merchant && d'.obligations[o].externalRef == d.obligations[o].externalRef
  }

  /** An account decides the match only where no key does and the account owes something. */
  ghost predicate NotByAccount(d: Desk, s: Inbound) {
    Given(s.virtualAccount) && !KeyPays(d, s) ==> forall o :: !AccountPays(d, s, o)
  }

  /** A settlement matched by key, by reference or not at all has one match, whatever has been settled in the meantime. */
  lemma KeyAndReferenceMatchIsFixed(d: Desk, d': Desk, s: Inbound, m: Match, m': Match)
    requires NamesUnique(d.obligations) && SameNames(d, d') && NotByAccount(d, s) && NotByAccount(d', s)
    requires IsMatch(d, s, m) && IsMatch(d', s, m')
    ensures m == m'
  {
    if Given(s.reference) {
      forall o ensures ReferencePays(d, s, o) <==> ReferencePays(d', s, o) {
      }
    }
  }

  lemma InsertNames(w: World, h: HandlerId)
    requires h in w.handlers && w.handlers[h].Matched?
    ensures InsertNext(w, h).desk.obligations == w.desk.obligations
  {
    InsertFrame(w.desk, w.handlers[h].s, w.handlers[h].m);
    hide Insert;
  }

  lemma UpsertNames(d: Desk, req: OpenRequest, o: ObligationId)
    requires NamesUnique(d.obligations) && IsUpsert(d, req, o)
    ensures NamesUnique(Upsert(d, req, o).obligations)
  {
    var obs := Upsert(d, req, o).obligations;
    forall p, q | p in obs && Named(obs, obs[p].merchant, obs[p].externalRef, q) ensures p == q {
      if o !in d.obligations && p != q {
        var m, ref := req.obligation.merchant, req.obligation.externalRef;
        assert p == o ==> Named(d.obligations, m, ref, q);
        assert q == o ==> Named(d.obligations, m, ref, p);
        assert p != o && q != o ==> Named(d.obligations, d.obligations[p].merchant, d.obligations[p].externalRef, q);
      }
    }
  }

  lemma ActNames(w: World, step: Step)
    requires NamesUnique(w.desk.obligations)
    ensures NamesUnique(Act(w, step).desk.obligations)
  {
    hide Apply, AppendTo, Insert, NamesUnique, Upsert, IsUpsert;
    if SettlementRuns.Enabled(w, step) {
      match step
      case InsertRow(h) => InsertNames(w, h);
      case OpenOrAttach(req, o, now) => UpsertNames(w.desk, req, o);
      case AssignAccount(o, _) => NamesStayUnique(w.desk, Raw(w, step).desk);
      case MarkPaid(h) => NamesStayUnique(w.desk, Raw(w, step).desk);
      case _ =>
    }
  }

  /** In every reachable state a merchant's reference names one obligation. */
  lemma {:induction false} NamesAreUnique(w: World, steps: seq<Step>)
    requires NamesUnique(w.desk.obligations)
    ensures NamesUnique(ActAll(w, steps).desk.obligations)
    decreases |steps|
  {
    hide Act, NamesUnique;
    if steps != [] {
      ActNames(w, steps[0]);
      NamesAreUnique(Act(w, steps[0]), steps[1..]);
    }
  }

  /** No two rows share an id, and none an idem_key. */
  ghost predicate RowsUnique(rows: seq<SettlementRow>) {
    forall i, j :: 0 <= i < j < |rows| ==>
      && rows[i].money.id != rows[j].money.id
      && (rows[i].money.idemKey.Some? ==> rows[i].money.idemKey != rows[j].money.idemKey)
  }

  lemma InsertIsUnique(d: Desk, s: Inbound, m: Match)
    requires RowsUnique(d.rows)
    ensures Insert(d, s, m).Ok? ==> RowsUnique(Insert(d, s, m).value.rows)
  {
    var r := Insert(d, s, m);
    if r.Ok? && r.value != d {
      var rows := r.value.rows;
      forall i | 0 <= i < |d.rows|
        ensures d.rows[i].money.id != s.id && (d.rows[i].money.idemKey.Some? ==> d.rows[i].money.idemKey != s.idemKey)
      {
      }
      assert forall i :: 0 <= i < |d.rows| ==> rows[i] == d.rows[i];
    }
  }

  lemma ActRows(w: World, step: Step)
    requires RowsUnique(w.desk.rows)
    ensures RowsUnique(Act(w, step).desk.rows)
  {
    hide Apply, AppendTo, Insert, RowsUnique, Upsert, IsUpsert;
    if SettlementRuns.Enabled(w, step) {
      match step
      case InsertRow(h) => InsertIsUnique(w.desk, w.handlers[h].s, w.handlers[h].m);
      case OpenOrAttach(req, o, now) => UpsertRows(w.desk, req, o);
      case _ =>
    }
  }

  lemma UpsertRows(d: Desk, req: OpenRequest, o: ObligationId)
    ensures Upsert(d, req, o).rows == d.rows
  {
  }

  /** However deliveries race, every reachable table of settlements has each id and each idem_key once. */
  lemma {:induction false} RowsStayUnique(w: World, steps: seq<Step>)
    requires RowsUnique(w.desk.rows)
    ensures RowsUnique(ActAll(w, steps).desk.rows)
    decreases |steps|
  {
    hide Act, RowsUnique;
    if steps != [] {
      ActRows(w, steps[0]);
      RowsStayUnique(Act(w, steps[0]), steps[1..]);
    }
  }

  /** An account's match moves on: once its earliest obligation is settled, the same money pays another, or none. */
  lemma AccountMatchMovesOn(d: Desk, s: Inbound, o: ObligationId, m: Match)
    requires IsMatch(d, s, Match(Some(o), ByVirtualAccount)) && IsMatch(MarkSettled(d, o), s, m)
    ensures m != Match(Some(o), ByVirtualAccount)
    ensures (exists p :: p != o && AccountPays(d, s, p)) <==> m.via.ByVirtualAccount?
  {
    var d' := MarkSettled(d, o);
    forall p ensures AccountPays(d', s, p) <==> p != o && AccountPays(d, s, p) {
    }
  }

  // ---- Order and redelivery ----

  /** One delivery, handled to its end at some time. */
  ghost predicate Delivered(d: Desk, s: Inbound, d': Desk) {
    exists now, r :: IsHandled(d, s, now, d', r)
  }

  /** The deliveries, in order, each matched at the desk it comes to. */
  ghost predicate DeliveredAll(d: Desk, ss: seq<Inbound>, d': Desk)
    decreases |ss|
  {
    if ss == [] then d' == d else exists d1 :: Delivered(d, ss[0], d1) && DeliveredAll(d1, ss[1..], d')
  }

  function Rows(rows: seq<SettlementRow>): set<SettlementRow> {
    set r | r in rows
  }

  ghost predicate NoDuplicates(rows: seq<SettlementRow>) {
    forall i, j :: 0 <= i < j < |rows| ==> rows[i] != rows[j]
  }

  function Inbounds(rows: seq<SettlementRow>): set<Inbound> {
    set r | r in rows :: r.money
  }

  function Deliveries(ss: seq<Inbound>): set<Inbound> {
    set s | s in ss
  }

  /** An id names one settlement, and so does an idem_key. */
  ghost predicate Consistent(all: set<Inbound>) {
    && (forall s, t :: s in all && t in all && s.id == t.id ==> s == t)
    && (forall s, t :: s in all && t in all && s.idemKey.Some? && s.idemKey == t.idemKey ==> s == t)
  }

  ghost predicate Sound(d: Desk) {
    DeskOk(d) && d.fab.locked == map[] && NamesUnique(d.obligations)
  }

  /** What deliveries may do to what the matcher reads: settle obligations. */
  ghost predicate Settles(d: Desk, d': Desk) {
    && SameNames(d, d')
    && forall o :: o in d.obligations ==>
         && d'.obligations[o].amount == d.obligations[o].amount
         && d'.obligations[o].virtualAccount == d.obligations[o].virtualAccount
         && (d.obligations[o].state == Settled ==> d'.obligations[o].state == Settled)
  }

  lemma SettlesStays(d: Desk, d': Desk, s: Inbound)
    requires Settles(d, d') && NotByAccount(d, s)
    ensures NotByAccount(d', s)
  {
    forall o | AccountPays(d', s, o) ensures AccountPays(d, s, o) {
    }
  }

  /** The match of a settlement that no account decides. */
  ghost function FixedMatch(d: Desk, s: Inbound): Match {
    if KeyPays(d, s) then Match(Some(d.attempts[s.idemKey.value]), ByIdemKey)
    else if Given(s.reference) && exists o :: ReferencePays(d, s, o) then
      var o :| ReferencePays(d, s, o);
      Match(Some(o), ByReference)
    else Match(None, Unmatched)
  }

  lemma FixedMatchStays(d: Desk, d': Desk, s: Inbound, m: Match)
    requires NamesUnique(d.obligations) && Settles(d, d') && NotByAccount(d, s) && IsMatch(d', s, m)
    ensures m == FixedMatch(d, s) && NotByAccount(d', s)
  {
    SettlesStays(d, d', s);
    assert IsMatch(d, s, FixedMatch(d, s));
    KeyAndReferenceMatchIsFixed(d, d', s, FixedMatch(d, s), m);
  }

  /** A delivery pays `o`: it is valid, and `o` is what it matches. */
  ghost predicate Hits(d: Desk, s: Inbound, o: ObligationId) {
    s.amount > 0 && FixedMatch(d, s).obligation == Some(o)
  }

  ghost predicate AnyHits(d: Desk, ss: seq<Inbound>, o: ObligationId) {
    exists s :: s in ss && Hits(d, s, o)
  }

  function StateAfter(state: CaseState, paid: bool): CaseState {
    if !IsTerminal(state) && paid then Recovered else state
  }

  /** What one delivery adds to the rows. */
  ghost function NewRow(first: Desk, d: Desk, s: Inbound): seq<SettlementRow> {
    if s.amount <= 0 || s in Inbounds(d.rows) then [] else [SettlementRow(s, FixedMatch(first, s))]
  }

  ghost predicate CasesAfter(d: Desk, d': Desk) {
    d'.fab.cases.Keys == d.fab.cases.Keys
    && forall c :: c in d.fab.cases ==> d'.fab.cases[c].obligationId == d.fab.cases[c].obligationId
  }

  lemma OnFile(d: Desk, s: Inbound, all: set<Inbound>)
    requires Consistent(all) && s in all && Inbounds(d.rows) <= all
    ensures HasId(d.rows, s.id) <==> s in Inbounds(d.rows)
    ensures s.idemKey.Some? && HasKey(d.rows, s.idemKey.value) ==> s in Inbounds(d.rows)
  {
    if HasId(d.rows, s.id) {
      var i :| 0 <= i < |d.rows| && d.rows[i].money.id == s.id;
      assert d.rows[i] in d.rows && d.rows[i].money in Inbounds(d.rows);
    }
    if s in Inbounds(d.rows) {
      var r :| r in d.rows && r.money == s;
      var i :| 0 <= i < |d.rows| && d.rows[i] == r;
      assert d.rows[i].money.id == s.id;
    }
    if s.idemKey.Some? && HasKey(d.rows, s.idemKey.value) {
      var i :| 0 <= i < |d.rows| && d.rows[i].money.idemKey == s.idemKey;
      assert d.rows[i] in d.rows && d.rows[i].money in Inbounds(d.rows);
    }
  }

  lemma InsertOnce(first: Desk, d: Desk, s: Inbound, all: set<Inbound>)
    requires Consistent(all) && s in all && Inbounds(d.rows) <= all
    ensures var r := Insert(d, s, FixedMatch(first, s));
            && (r.Ok? <==> s.amount > 0)
            && (if r.Ok? then r.value else d) == d.(rows := d.rows + NewRow(first, d, s))
  {
    hide FixedMatch;
    OnFile(d, s, all);
    assert d.rows + [] == d.rows;
  }

  /** What one delivery does, its match being the one the first desk gave it. */
  lemma OneDelivery(first: Desk, d: Desk, s: Inbound, d': Desk, all: set<Inbound>)
    requires NamesUnique(first.obligations) && Settles(first, d) && NotByAccount(first, s)
    requires Sound(d) && Delivered(d, s, d') && Consistent(all) && s in all && Inbounds(d.rows) <= all
    ensures Sound(d') && Settles(d, d') && CasesAfter(d, d') && d'.rows == d.rows + NewRow(first, d, s)
    ensures forall c :: c in d.fab.cases ==>
              var o := d.fab.cases[c].obligationId;
              d'.fab.cases[c].state == StateAfter(d.fab.cases[c].state, Hits(first, s, o) && Pays(d', o))
  {
    hide FixedMatch, Insert, Handle, NotByAccount, IsMatch, IsOpenCase, DeskOk, NewRow;
    var now, r :| IsHandled(d, s, now, d', r);
    var m, found :| HandledBy(d, s, now, d', r, m, found);
    FixedMatchStays(first, d, s, m);
    InsertOnce(first, d, s, all);
    HandledDelivery(d, s, m, found, now, d', r);
  }

  lemma ClosedFrame(d: Desk, c: CaseId, via: Strategy, now: int)
    requires Inv(d.fab)
    ensures var d' := Closed(d, c, via, now);
            && d' == d.(fab := d'.fab) && d'.fab.locked == d.fab.locked && CasesAfter(d, d')
            && forall e :: e in d.fab.cases && e != c ==> d'.fab.cases[e] == d.fab.cases[e]
  {
    hide AppendTo, Inv;
    if AppendTo(d.fab, c, Settlements.Recovery(via), "verifier", now).Ok? {
      SoundCaches(d.fab);
      AppendEffect(d.fab, c, Settlements.Recovery(via), "verifier", now);
    }
  }

  lemma MarkShape(d: Desk, o: ObligationId)
    ensures Settles(d, MarkSettled(d, o)) && MarkSettled(d, o).fab == d.fab && MarkSettled(d, o).rows == d.rows
  {
  }

  lemma HandleShape(d: Desk, s: Inbound, m: Match, found: Option<CaseId>, now: int)
    requires Insert(d, s, m).Ok?
    ensures var d', d1 := Handle(d, s, m, found, now).0, Insert(d, s, m).value;
            || d' == d1
            || (m.obligation.Some? && found.Some? && d' == Closed(MarkSettled(d1, m.obligation.value), found.value, m.via, now))
  {
    hide Insert, AppendTo, Total;
  }

  /** The rows are those of the insert, and what the matcher and the locks read stays. */
  lemma HandleFrame(d: Desk, s: Inbound, m: Match, found: Option<CaseId>, now: int)
    requires Inv(d.fab) && Insert(d, s, m).Ok?
    ensures var d' := Handle(d, s, m, found, now).0;
            && Settles(d, d') && CasesAfter(d, d') && d'.fab.locked == d.fab.locked
            && d'.rows == Insert(d, s, m).value.rows
            && (forall c :: c in d.fab.cases && Some(c) != found ==> d'.fab.cases[c] == d.fab.cases[c])
  {
    hide Handle, Inv, Closed, MarkSettled;
    HandleShape(d, s, m, found, now);
    InsertFrame(d, s, m);
    var d1 := Insert(d, s, m).value;
    assert d1.attempts == d.attempts;
    if m.obligation.Some? && found.Some? {
      MarkShape(d1, m.obligation.value);
      ClosedFrame(MarkSettled(d1, m.obligation.value), found.value, m.via, now);
    }
  }

  lemma SoundCaches(t: Tables)
    requires Inv(t)
    ensures CachesValid(t)
  {
  }

  lemma HandledDelivery(d: Desk, s: Inbound, m: Match, found: Option<CaseId>, now: int, d': Desk, r: Result<Verification, HandleError>)
    requires Sound(d) && HandledBy(d, s, now, d', r, m, found)
    ensures Sound(d') && Settles(d, d') && CasesAfter(d, d')
    ensures d'.rows == if Insert(d, s, m).Ok? then Insert(d, s, m).value.rows else d.rows
    ensures forall c :: c in d.fab.cases ==>
              var o := d.fab.cases[c].obligationId;
              d'.fab.cases[c].state ==
              StateAfter(d.fab.cases[c].state, Insert(d, s, m).Ok? && m.obligation == Some(o) && Pays(d', o))
  {
    hide Handle, Insert, DeskOk, IsMatch, IsOpenCase, Pays;
    DeskIsSound(d);
    assert d' == Handle(d, s, m, found, now).0;
    if Insert(d, s, m).Ok? {
      HandleFrame(d, s, m, found, now);
      NamesStayUnique(d, d');
      if m.obligation.None? {
        WhenADeliveryRecovers(d, s, m, found, now);
        assert d'.fab == d.fab;
      } else {
        WhenADeliveryRecovers(d, s, m, found, now);
        forall c | c in d.fab.cases
          ensures d'.fab.cases[c].state ==
                  StateAfter(d.fab.cases[c].state, m.obligation == Some(d.fab.cases[c].obligationId) && Pays(d', d.fab.cases[c].obligationId))
        {
          HandledCase(d, s, m, found, now, c);
        }
      }
    } else {
      assert d' == d by {
        assert Handle(d, s, m, found, now).0 == d by {
          HandleRefused(d, s, m, found, now);
        }
      }
    }
  }

  lemma NamesStayUnique(d: Desk, d': Desk)
    requires NamesUnique(d.obligations) && SameNames(d, d')
    ensures NamesUnique(d'.obligations)
  {
    forall o, p | o in d'.obligations && Named(d'.obligations, d'.obligations[o].merchant, d'.obligations[o].externalRef, p)
      ensures o == p
    {
      assert Named(d.obligations, d.obligations[o].merchant, d.obligations[o].externalRef, p);
    }
  }

  lemma HandleRefused(d: Desk, s: Inbound, m: Match, found: Option<CaseId>, now: int)
    requires Insert(d, s, m).Err?
    ensures Handle(d, s, m, found, now).0 == d
  {
  }

  lemma HandledCase(d: Desk, s: Inbound, m: Match, found: Option<CaseId>, now: int, c: CaseId)
    requires Sound(d) && IsMatch(d, s, m) && m.obligation.Some? && Insert(d, s, m).Ok?
    requires IsOpenCase(d.fab, m.obligation.value, found) && c in d.fab.cases
    ensures var d', o := Handle(d, s, m, found, now).0, d.fab.cases[c].obligationId;
            && c in d'.fab.cases
            && d'.fab.cases[c].state == StateAfter(d.fab.cases[c].state, m.obligation == Some(o) && Pays(d', o))
  {
    hide Handle, Insert, IsMatch, CaseOk;
    DeskIsSound(d);
    HandleFrame(d, s, m, found, now);
    WhenADeliveryRecovers(d, s, m, found, now);
    InsertFrame(d, s, m);
    var o := d.fab.cases[c].obligationId;
    assert OneOpen(d.fab, o);
    if OpenCase(d, c) {
      OpenIsLive(d, c);
      assert LiveFor(d.fab, o, c);
    }
  }

  lemma {:induction false} TotalSplit(a: seq<SettlementRow>, b: seq<SettlementRow>, o: Option<ObligationId>)
    ensures Total(a + b, o) == Total(a, o) + Total(b, o)
    decreases |b|
  {
    if b == [] {
      assert a + b == a;
    } else {
      var b', last := b[..|b| - 1], b[|b| - 1];
      assert a + b == (a + b') + [last];
      TotalOfMore(a + b', last, o);
      TotalSplit(a, b', o);
    }
  }

  lemma NoRows(rows: seq<SettlementRow>)
    ensures Rows(rows) == {} ==> rows == []
  {
    if rows != [] {
      assert rows[0] in Rows(rows);
    }
  }

  /** A total depends on which rows there are and not on where they stand. */
  lemma {:induction false} TotalOfSet(a: seq<SettlementRow>, b: seq<SettlementRow>, o: Option<ObligationId>)
    requires NoDuplicates(a) && NoDuplicates(b) && Rows(a) == Rows(b)
    ensures Total(a, o) == Total(b, o)
    decreases |a|
  {
    if a == [] {
      NoRows(b);
    } else {
      var last := a[|a| - 1];
      assert last in Rows(b);
      var i :| 0 <= i < |b| && b[i] == last;
      var front, back := b[..i], b[i + 1..];
      WithoutOne(a, b, i);
      TotalOfSet(a[..|a| - 1], front + back, o);
      assert b == front + [last] + back;
      TotalSplit(front + [last], back, o);
      TotalOfMore(front, last, o);
      TotalSplit(front, back, o);
    }
  }

  lemma WithoutOne(a: seq<SettlementRow>, b: seq<SettlementRow>, i: nat)
    requires a != [] && NoDuplicates(a) && NoDuplicates(b) && Rows(a) == Rows(b) && i < |b| && b[i] == a[|a| - 1]
    ensures NoDuplicates(a[..|a| - 1]) && NoDuplicates(b[..i] + b[i + 1..]) && Rows(a[..|a| - 1]) == Rows(b[..i] + b[i + 1..])
  {
    var n, b' := |a| - 1, b[..i] + b[i + 1..];
    forall r ensures r in Rows(a[..n]) <==> r in Rows(a) && r != a[n] {
      if r in Rows(a) && r != a[n] {
        var k :| 0 <= k < |a| && a[k] == r;
        assert a[..n][k] == r;
      }
    }
    forall r ensures r in Rows(b') <==> r in Rows(b) && r != b[i] {
      if r in Rows(b) && r != b[i] {
        var k :| 0 <= k < |b| && b[k] == r;
        assert b'[if k < i then k else k - 1] == r;
      }
    }
  }

  // ---- Whole batches ----

  /** The rows a batch adds: each valid settlement not yet on file, once, under its first match. */
  ghost function NewRows(first: Desk, known: set<Inbound>, ss: seq<Inbound>): set<SettlementRow> {
    set s | s in ss && s.amount > 0 && s !in known :: SettlementRow(s, FixedMatch(first, s))
  }

  ghost predicate Adds(d: Desk, d': Desk, added: set<SettlementRow>) {
    && |d.rows| <= |d'.rows| && d'.rows[..|d.rows|] == d.rows
    && NoDuplicates(d'.rows[|d.rows|..]) && Rows(d'.rows[|d.rows|..]) == added
  }

  ghost predicate Batch(first: Desk, d: Desk, ss: seq<Inbound>, d': Desk) {
    && NamesUnique(first.obligations) && Settles(first, d) && Sound(d) && DeliveredAll(d, ss, d')
    && Consistent(Inbounds(d.rows) + Deliveries(ss)) && forall s :: s in ss ==> NotByAccount(first, s)
  }

  lemma SettlesTwice(d: Desk, d1: Desk, d2: Desk)
    requires Settles(d, d1) && Settles(d1, d2)
    ensures Settles(d, d2)
  {
  }

  lemma LessIsConsistent(all: set<Inbound>, fewer: set<Inbound>)
    requires Consistent(all) && fewer <= all
    ensures Consistent(fewer)
  {
  }

  lemma StillKnown(first: Desk, d: Desk, d1: Desk, ss: seq<Inbound>)
    requires ss != [] && d1.rows == d.rows + NewRow(first, d, ss[0])
    ensures Inbounds(d1.rows) + Deliveries(ss[1..]) <= Inbounds(d.rows) + Deliveries(ss)
  {
    hide FixedMatch;
    assert Inbounds(d1.rows) == Inbounds(d.rows) + Inbounds(NewRow(first, d, ss[0]));
  }

  /** The rows after the first delivery are still consistent with the rest. */
  lemma BatchStep(first: Desk, d: Desk, ss: seq<Inbound>, d': Desk) returns (d1: Desk)
    requires Batch(first, d, ss, d') && ss != []
    ensures Delivered(d, ss[0], d1) && Batch(first, d1, ss[1..], d') && Settles(d, d1) && CasesAfter(d, d1)
    ensures d1.rows == d.rows + NewRow(first, d, ss[0])
    ensures forall c :: c in d.fab.cases ==>
              var o := d.fab.cases[c].obligationId;
              d1.fab.cases[c].state == StateAfter(d.fab.cases[c].state, Hits(first, ss[0], o) && Pays(d1, o))
  {
    hide Sound, NotByAccount, FixedMatch, Pays, NamesUnique, Settles, Delivered, Consistent, NewRow;
    d1 :| Delivered(d, ss[0], d1) && DeliveredAll(d1, ss[1..], d');
    OneDelivery(first, d, ss[0], d1, Inbounds(d.rows) + Deliveries(ss));
    SettlesTwice(first, d, d1);
    StillKnown(first, d, d1, ss);
    LessIsConsistent(Inbounds(d.rows) + Deliveries(ss), Inbounds(d1.rows) + Deliveries(ss[1..]));
  }

  lemma {:induction false} BatchRows(first: Desk, d: Desk, ss: seq<Inbound>, d': Desk)
    requires Batch(first, d, ss, d')
    ensures Sound(d') && Settles(d, d') && CasesAfter(d, d') && Adds(d, d', NewRows(first, Inbounds(d.rows), ss))
    decreases |ss|
  {
    hide Sound, NotByAccount, FixedMatch, Consistent, NamesUnique, Delivered;
    if ss == [] {
      assert d.rows[|d.rows|..] == [] && d.rows[..|d.rows|] == d.rows;
    } else {
      var d1 := BatchStep(first, d, ss, d');
      BatchRows(first, d1, ss[1..], d');
      AddsMore(first, d, d1, d', ss);
    }
  }

  lemma NewRowsMore(first: Desk, known: set<Inbound>, ss: seq<Inbound>)
    requires ss != []
    ensures NewRows(first, known, ss) ==
            if ss[0].amount <= 0 || ss[0] in known then NewRows(first, known, ss[1..])
            else {SettlementRow(ss[0], FixedMatch(first, ss[0]))} + NewRows(first, known + {ss[0]}, ss[1..])
  {
    hide FixedMatch;
    assert Deliveries(ss) == {ss[0]} + Deliveries(ss[1..]);
  }

  lemma NewRowIsNew(first: Desk, known: set<Inbound>, ss: seq<Inbound>, row: SettlementRow)
    requires row in NewRows(first, known, ss)
    ensures row.money !in known
  {
  }

  lemma AddsMore(first: Desk, d: Desk, d1: Desk, d': Desk, ss: seq<Inbound>)
    requires ss != [] && d1.rows == d.rows + NewRow(first, d, ss[0])
    requires Adds(d1, d', NewRows(first, Inbounds(d1.rows), ss[1..]))
    ensures Adds(d, d', NewRows(first, Inbounds(d.rows), ss))
  {
    hide FixedMatch, NewRows;
    var s, added := ss[0], NewRow(first, d, ss[0]);
    var tail, all := d'.rows[|d1.rows|..], d'.rows[|d.rows|..];
    assert all == added + tail;
    NewRowsMore(first, Inbounds(d.rows), ss);
    if added == [] {
      assert d1.rows == d.rows && all == tail;
    } else {
      assert Rows(all) == {added[0]} + Rows(tail);
      assert d1.rows[|d1.rows| - 1] == added[0];
      assert Inbounds(d1.rows) == Inbounds(d.rows) + {s};
      forall k | 0 <= k < |tail| ensures tail[k].money != s {
        assert tail[k] in Rows(tail);
        NewRowIsNew(first, Inbounds(d1.rows), ss[1..], tail[k]);
      }
    }
  }

  lemma {:induction false} CreditsAreNotDebits(rows: seq<SettlementRow>, o: Option<ObligationId>)
    requires forall k :: 0 <= k < |rows| ==> rows[k].money.amount > 0
    ensures Total(rows, o) >= 0
    ensures Total(rows, o) > 0 ==> exists k :: 0 <= k < |rows| && rows[k].matched.obligation == o
  {
    if rows != [] {
      CreditsAreNotDebits(rows[..|rows| - 1], o);
    }
  }

  /** Only a delivery that hits an obligation adds to its total. */
  lemma BatchTotals(first: Desk, d: Desk, ss: seq<Inbound>, d': Desk, o: ObligationId)
    requires Batch(first, d, ss, d')
    ensures Total(d'.rows, Some(o)) >= Total(d.rows, Some(o))
    ensures Total(d'.rows, Some(o)) > Total(d.rows, Some(o)) ==> AnyHits(first, ss, o)
  {
    hide FixedMatch, Sound, Settles, DeliveredAll;
    BatchRows(first, d, ss, d');
    var tail := d'.rows[|d.rows|..];
    assert d'.rows == d.rows + tail;
    TotalSplit(d.rows, tail, Some(o));
    forall k | 0 <= k < |tail|
      ensures tail[k].money.amount > 0 && tail[k].money in ss && tail[k].matched == FixedMatch(first, tail[k].money)
    {
      assert tail[k] in Rows(tail);
    }
    CreditsAreNotDebits(tail, Some(o));
    if Total(tail, Some(o)) > 0 {
      var k :| 0 <= k < |tail| && tail[k].matched.obligation == Some(o);
      assert Hits(first, tail[k].money, o);
    }
  }

  lemma HitsMore(first: Desk, ss: seq<Inbound>, o: ObligationId)
    requires ss != []
    ensures AnyHits(first, ss, o) <==> Hits(first, ss[0], o) || AnyHits(first, ss[1..], o)
  {
    hide Hits;
    assert forall s :: s in ss <==> s == ss[0] || s in ss[1..];
  }

  /**
   * A batch recovers exactly the open cases whose obligation some valid delivery of it
   * matches and the money on file at the end covers; every other case keeps its state.
   */
  lemma {:induction false} BatchRecoversIff(first: Desk, d: Desk, ss: seq<Inbound>, d': Desk, c: CaseId)
    requires Batch(first, d, ss, d') && c in d.fab.cases
    ensures var o := d.fab.cases[c].obligationId;
            && c in d'.fab.cases
            && d'.fab.cases[c].state == StateAfter(d.fab.cases[c].state, AnyHits(first, ss, o) && Pays(d', o))
    decreases |ss|
  {
    hide Batch, Hits;
    if ss == [] {
      NothingDelivered(first, d, d', c);
    } else {
      var o := d.fab.cases[c].obligationId;
      var d1 := BatchStep(first, d, ss, d');
      BatchRecoversIff(first, d1, ss[1..], d', c);
      HitsMore(first, ss, o);
      BatchTotals(first, d1, ss[1..], d', o);
      BatchRows(first, d1, ss[1..], d');
    }
  }

  lemma NothingDelivered(first: Desk, d: Desk, d': Desk, c: CaseId)
    requires Batch(first, d, [], d')
    ensures d' == d
  {
  }

  /**
   * The same settlements, none of them matched by an account, delivered in any order
   * and any number of times each: every obligation, and the unmatched pile, is
   * credited with the same money, and every case ends in the same state.
   */
  lemma DeliveryOrderDoesNotMatter(d: Desk, a: seq<Inbound>, b: seq<Inbound>, d1: Desk, d2: Desk)
    requires Sound(d) && Deliveries(a) == Deliveries(b) && Consistent(Inbounds(d.rows) + Deliveries(a))
    requires forall s :: s in Deliveries(a) ==> NotByAccount(d, s)
    requires DeliveredAll(d, a, d1) && DeliveredAll(d, b, d2)
    ensures forall o :: Total(d1.rows, o) == Total(d2.rows, o)
    ensures d1.fab.cases.Keys == d2.fab.cases.Keys && forall c :: c in d1.fab.cases ==> d1.fab.cases[c].state == d2.fab.cases[c].state
  {
    hide Sound, NotByAccount, FixedMatch, Consistent, NamesUnique, DeliveredAll, Pays, DeskOk, Rows, NoDuplicates;
    assert NamesUnique(d.obligations) by {
      SoundParts(d);
    }
    BatchRows(d, d, a, d1);
    BatchRows(d, d, b, d2);
    SameRows(d, a, b);
    forall o ensures Total(d1.rows, o) == Total(d2.rows, o) {
      SameTotals(d, d1, d2, NewRows(d, Inbounds(d.rows), a), o);
    }
    forall c | c in d1.fab.cases ensures d1.fab.cases[c].state == d2.fab.cases[c].state {
      BatchRecoversIff(d, d, a, d1, c);
      BatchRecoversIff(d, d, b, d2, c);
      SameVerdict(d, a, b, d1, d2, d.fab.cases[c].obligationId);
    }
  }

  lemma SoundParts(d: Desk)
    requires Sound(d)
    ensures NamesUnique(d.obligations)
  {
  }

  lemma SameRows(d: Desk, a: seq<Inbound>, b: seq<Inbound>)
    requires Deliveries(a) == Deliveries(b)
    ensures NewRows(d, Inbounds(d.rows), a) == NewRows(d, Inbounds(d.rows), b)
  {
    hide FixedMatch;
    assert forall s :: s in a <==> s in Deliveries(a);
    assert forall s :: s in b <==> s in Deliveries(b);
  }

  lemma SameTotals(d: Desk, d1: Desk, d2: Desk, added: set<SettlementRow>, o: Option<ObligationId>)
    requires Adds(d, d1, added) && Adds(d, d2, added)
    ensures Total(d1.rows, o) == Total(d2.rows, o)
  {
    var tail1, tail2 := d1.rows[|d.rows|..], d2.rows[|d.rows|..];
    assert d1.rows == d.rows + tail1 && d2.rows == d.rows + tail2;
    TotalSplit(d.rows, tail1, o);
    TotalSplit(d.rows, tail2, o);
    TotalOfSet(tail1, tail2, o);
  }

  lemma SameVerdict(d: Desk, a: seq<Inbound>, b: seq<Inbound>, d1: Desk, d2: Desk, o: ObligationId)
    requires Deliveries(a) == Deliveries(b) && Settles(d, d1) && Settles(d, d2) && Total(d1.rows, Some(o)) == Total(d2.rows, Some(o))
    ensures (AnyHits(d, a, o) && Pays(d1, o)) <==> (AnyHits(d, b, o) && Pays(d2, o))
  {
    hide Hits;
    assert forall s :: s in a <==> s in Deliveries(a);
    assert forall s :: s in b <==> s in Deliveries(b);
  }

  // ---- Where an account decides, order does matter ----

  lemma HandleSettles(d: Desk, s: Inbound, m: Match, found: Option<CaseId>, now: int)
    requires Insert(d, s, m).Ok? && m.obligation.Some? && found.Some? && Pays(Insert(d, s, m).value, m.obligation.value)
    ensures Handle(d, s, m, found, now).0.obligations == MarkSettled(d, m.obligation.value).obligations
  {
    hide AppendTo, Total;
    InsertFrame(d, s, m);
  }

  /** The call ends whatever case it finds; it settles the obligation it covers when there is a live one. */
  lemma Deliver(d: Desk, s: Inbound, m: Match) returns (d': Desk)
    requires IsMatch(d, s, m) && Insert(d, s, m).Ok? && m.obligation.Some? && m.obligation.value in d.obligations
    ensures Delivered(d, s, d') && d'.rows == Insert(d, s, m).value.rows && d'.attempts == d.attempts
    ensures (exists c :: LiveFor(d.fab, m.obligation.value, c)) && Pays(Insert(d, s, m).value, m.obligation.value) ==>
              d'.obligations == MarkSettled(d, m.obligation.value).obligations
  {
    hide IsMatch, AppendTo, Total;
    var o, live := m.obligation.value, LiveSet(d.fab, m.obligation.value);
    assert forall c :: LiveFor(d.fab, o, c) <==> c in live;
    var found := None;
    if live != {} {
      OldestExists(d.fab, live);
      var c :| c in live && Oldest(d.fab, live, c);
      found := Some(c);
    }
    assert IsOpenCase(d.fab, o, found);
    InsertFrame(d, s, m);
    d' := Handle(d, s, m, found, 0).0;
    assert HandledBy(d, s, 0, d', Handle(d, s, m, found, 0).1, m, found);
    assert IsHandled(d, s, 0, d', Handle(d, s, m, found, 0).1);
    if found.Some? && Pays(Insert(d, s, m).value, o) {
      HandleSettles(d, s, m, found, 0);
    }
  }

  function Transfer(id: string, reference: Option<string>, account: Option<string>): Inbound {
    Inbound(id, "m", 5, "bank", reference, None, account)
  }

  /** Two obligations of one customer share an account; the first has an open case. */
  function SharedAccount(): Desk {
    Desk(InsertCase(EMPTY, 1, 1, 0),
         map[1 := Obligation("m", 5, 1, "first", Some("va"), Owed), 2 := Obligation("m", 5, 2, "second", Some("va"), Owed)],
         map[], [])
  }

  lemma DeliveredTwo(d: Desk, s: Inbound, d1: Desk, t: Inbound, d2: Desk)
    requires Delivered(d, s, d1) && Delivered(d1, t, d2)
    ensures DeliveredAll(d, [s, t], d2)
  {
    hide Delivered;
    assert [s, t][1..] == [t] && [t][1..] == [];
    assert DeliveredAll(d2, [], d2);
    assert DeliveredAll(d1, [t], d2);
  }

  lemma TotalOfTwo(r: SettlementRow, q: SettlementRow, o: Option<ObligationId>)
    ensures Total([r], o) == Credit(r, o) && Total([r, q], o) == Credit(r, o) + Credit(q, o)
  {
    assert [r, q][..1] == [r] && [r][..0] == [];
    assert Total([r][..0], o) == 0;
  }

  lemma TwoDeliveries(s: Inbound, m: Match, t: Inbound, m': Match) returns (d': Desk)
    requires s.amount == 5 && m.obligation == Some(1) && IsMatch(SharedAccount(), s, m) && t.amount == 5 && t.id != s.id
    requires s.idemKey.None? && t.idemKey.None? && m'.obligation.Some? && m'.obligation.value in SharedAccount().obligations
    requires forall d :: FirstSettled(d) ==> IsMatch(d, t, m')
    ensures DeliveredAll(SharedAccount(), [s, t], d') && d'.rows == [SettlementRow(s, m), SettlementRow(t, m')]
  {
    hide Delivered, DeliveredAll, Total, IsMatch, Pays;
    var d := SharedAccount();
    assert LiveFor(d.fab, 1, 1);
    FirstPays(d, s, m);
    var d1 := Deliver(d, s, m);
    assert FirstSettled(d1);
    d' := Deliver(d1, t, m');
    DeliveredTwo(d, s, d1, t, d');
  }

  /** The first obligation has been paid. */
  ghost predicate FirstSettled(d: Desk) {
    d.obligations == MarkSettled(SharedAccount(), 1).obligations && d.attempts == map[]
  }

  /** A transfer to the account and one naming the first obligation: which comes first decides what the second is credited with. */
  lemma AccountOrderMatters() returns (d1: Desk, d2: Desk)
    ensures var x, y := Transfer("x", None, Some("va")), Transfer("y", Some("first"), None);
            DeliveredAll(SharedAccount(), [x, y], d1) && DeliveredAll(SharedAccount(), [y, x], d2)
    ensures Total(d1.rows, Some(1)) == 10 && Total(d1.rows, Some(2)) == 0
    ensures Total(d2.rows, Some(1)) == 5 && Total(d2.rows, Some(2)) == 5
  {
    hide DeliveredAll, Total, IsMatch;
    var x, y := Transfer("x", None, Some("va")), Transfer("y", Some("first"), None);
    var byAccount, byName, next := Match(Some(1), ByVirtualAccount), Match(Some(1), ByReference), Match(Some(2), ByVirtualAccount);
    FirstMatches();
    forall d | FirstSettled(d) ensures IsMatch(d, x, next) && IsMatch(d, y, byName) {
      SecondMatches(d);
    }
    d1 := TwoDeliveries(x, byAccount, y, byName);
    d2 := TwoDeliveries(y, byName, x, next);
    TotalOfTwo(d1.rows[0], d1.rows[1], Some(1));
    TotalOfTwo(d1.rows[0], d1.rows[1], Some(2));
    TotalOfTwo(d2.rows[0], d2.rows[1], Some(1));
    TotalOfTwo(d2.rows[0], d2.rows[1], Some(2));
  }

  lemma FirstMatches()
    ensures IsMatch(SharedAccount(), Transfer("x", None, Some("va")), Match(Some(1), ByVirtualAccount))
    ensures IsMatch(SharedAccount(), Transfer("y", Some("first"), None), Match(Some(1), ByReference))
  {
    assert AccountPays(SharedAccount(), Transfer("x", None, Some("va")), 1);
    assert ReferencePays(SharedAccount(), Transfer("y", Some("first"), None), 1);
  }

  lemma SecondMatches(d: Desk)
    requires FirstSettled(d)
    ensures IsMatch(d, Transfer("x", None, Some("va")), Match(Some(2), ByVirtualAccount))
    ensures IsMatch(d, Transfer("y", Some("first"), None), Match(Some(1), ByReference))
  {
    assert AccountPays(d, Transfer("x", None, Some("va")), 2);
    assert ReferencePays(d, Transfer("y", Some("first"), None), 1);
  }

  lemma FirstPays(d: Desk, s: Inbound, m: Match)
    requires d == SharedAccount() && s.amount == 5 && m.obligation == Some(1)
    ensures Insert(d, s, m) == Ok(d.(rows := [SettlementRow(s, m)])) && Pays(d.(rows := [SettlementRow(s, m)]), 1)
  {
    TotalOfTwo(SettlementRow(s, m), SettlementRow(s, m), Some(1));
    assert d.rows + [SettlementRow(s, m)] == [SettlementRow(s, m)];
  }

  // ---- Conservation ----

  function AllMoney(rows: seq<SettlementRow>): int {
    if rows == [] then 0 else AllMoney(rows[..|rows| - 1]) + rows[|rows| - 1].money.amount
  }

  /** What the listed obligations have been credited with, together. */
  function Credited(rows: seq<SettlementRow>, os: seq<ObligationId>): int {
    if os == [] then 0 else Total(rows, Some(os[0])) + Credited(rows, os[1..])
  }

  function CreditedWith(row: SettlementRow, os: seq<ObligationId>): int {
    if os == [] then 0 else Credit(row, Some(os[0])) + CreditedWith(row, os[1..])
  }

  lemma {:induction false} CreditedOfMore(rows: seq<SettlementRow>, row: SettlementRow, os: seq<ObligationId>)
    ensures Credited(rows + [row], os) == Credited(rows, os) + CreditedWith(row, os)
  {
    if os != [] {
      TotalOfMore(rows, row, Some(os[0]));
      CreditedOfMore(rows, row, os[1..]);
    }
  }

  lemma {:induction false} CreditedOnce(row: SettlementRow, os: seq<ObligationId>)
    requires forall i, j :: 0 <= i < j < |os| ==> os[i] != os[j]
    ensures CreditedWith(row, os) ==
            if row.matched.obligation.Some? && row.matched.obligation.value in os then row.money.amount else 0
  {
    if os != [] {
      CreditedOnce(row, os[1..]);
    }
  }

  lemma {:induction false} CreditedNothing(os: seq<ObligationId>)
    ensures Credited([], os) == 0
  {
    if os != [] {
      CreditedNothing(os[1..]);
    }
  }

  /** Matched and unmatched money together are all the money on file, each row counted once. */
  lemma {:induction false} MoneyIsConserved(d: Desk, os: seq<ObligationId>)
    requires RowsOk(d) && Elements(os) == d.obligations.Keys
    requires forall i, j :: 0 <= i < j < |os| ==> os[i] != os[j]
    ensures Credited(d.rows, os) + Total(d.rows, None) == AllMoney(d.rows)
    decreases |d.rows|
  {
    if d.rows == [] {
      CreditedNothing(os);
    } else {
      var n := |d.rows| - 1;
      var init, row := d.(rows := d.rows[..n]), d.rows[n];
      assert RowOk(d, d.rows[n]);
      forall i | 0 <= i < n ensures RowOk(init, init.rows[i]) {
        assert RowOk(d, d.rows[i]);
      }
      MoneyIsConserved(init, os);
      assert d.rows == init.rows + [row];
      CreditedOfMore(init.rows, row, os);
      TotalOfMore(init.rows, row, None);
      CreditedOnce(row, os);
      assert row.matched.obligation.Some? ==> row.matched.obligation.value in Elements(os);
    }
  }
}
