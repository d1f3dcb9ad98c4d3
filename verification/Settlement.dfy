/**
 * Money: matching a settlement to the obligation it pays, and closing the case
 * once the obligation is covered (packages/engine/src/reconciler.ts,
 * packages/engine/src/verifier.ts, packages/engine/src/case-manager.ts).
 */
module Settlements {
  import opened Wrappers
  import opened StateMachine
  import opened CaseEvents
  import opened CaseFabric

  datatype ObligationState = Owed | Settled

  datatype Obligation = Obligation(
    merchant: string,
    amount: nat,
    dueAt: int,
    externalRef: string,
    virtualAccount: Option<string>,
    state: ObligationState)

  datatype Inbound = Inbound(
    id: string,
    merchant: string,
    amount: int,
    source: string,
    reference: Option<string>,
    idemKey: Option<string>,
    virtualAccount: Option<string>)

  datatype Strategy = ByIdemKey | ByVirtualAccount | ByReference | Unmatched

  datatype Match = Match(obligation: Option<ObligationId>, via: Strategy)

  datatype SettlementRow = SettlementRow(money: Inbound, matched: Match)

  /** `attempts` is the part of the attempt table the matcher reads: an idem_key's obligation. */
  datatype Desk = Desk(
    fab: Tables,
    obligations: map<ObligationId, Obligation>,
    attempts: map<string, ObligationId>,
    rows: seq<SettlementRow>)

  // ---- Matching ----

  /** A missing field and an empty one are both skipped. */
  predicate Given(field: Option<string>) {
    field.Some? && field.value != ""
  }

  predicate AccountPays(d: Desk, s: Inbound, o: ObligationId) {
    && o in d.obligations
    && var ob := d.obligations[o];
       ob.virtualAccount.Some? && ob.virtualAccount == s.virtualAccount && ob.merchant == s.merchant && ob.state != Settled
  }

  predicate Named(obligations: map<ObligationId, Obligation>, merchant: string, ref: string, o: ObligationId) {
    o in obligations && obligations[o].externalRef == ref && obligations[o].merchant == merchant
  }

  predicate ReferencePays(d: Desk, s: Inbound, o: ObligationId) {
    s.reference.Some? && Named(d.obligations, s.merchant, s.reference.value, o)
  }

  predicate KeyPays(d: Desk, s: Inbound) {
    Given(s.idemKey) && s.idemKey.value in d.attempts
  }

  /** The first strategy that finds an obligation wins; an account's earliest unsettled obligation is paid first. */
  ghost predicate IsMatch(d: Desk, s: Inbound, m: Match) {
    if KeyPays(d, s) then m == Match(Some(d.attempts[s.idemKey.value]), ByIdemKey)
    else if Given(s.virtualAccount) && exists o :: AccountPays(d, s, o) then
      && m.via.ByVirtualAccount? && m.obligation.Some? && AccountPays(d, s, m.obligation.value)
      && forall p :: AccountPays(d, s, p) ==> d.obligations[m.obligation.value].dueAt <= d.obligations[p].dueAt
    else if Given(s.reference) && exists o :: ReferencePays(d, s, o) then
      m.via.ByReference? && m.obligation.Some? && ReferencePays(d, s, m.obligation.value)
    else m == Match(None, Unmatched)
  }

  // ---- Recording ----

  /** sum(amount_paise) over the rows credited to `o`; None stands for the unmatched rows. */
  function Total(rows: seq<SettlementRow>, o: Option<ObligationId>): int {
    if rows == [] then 0
    else Total(rows[..|rows| - 1], o) + Credit(rows[|rows| - 1], o)
  }

  function Credit(row: SettlementRow, o: Option<ObligationId>): int {
    if row.matched.obligation == o then row.money.amount else 0
  }

  predicate HasId(rows: seq<SettlementRow>, id: string) {
    exists i :: 0 <= i < |rows| && rows[i].money.id == id
  }

  predicate HasKey(rows: seq<SettlementRow>, key: string) {
    exists i :: 0 <= i < |rows| && rows[i].money.idemKey == Some(key)
  }

  datatype InsertError = AmountNotPositive | DuplicateKey

  /** ON CONFLICT (id) DO NOTHING covers the id only: a known key under a new id is an error. */
  function Insert(d: Desk, s: Inbound, m: Match): Result<Desk, InsertError> {
    if s.amount <= 0 then Err(AmountNotPositive)
    else if HasId(d.rows, s.id) then Ok(d)
    else if s.idemKey.Some? && HasKey(d.rows, s.idemKey.value) then Err(DuplicateKey)
    else Ok(d.(rows := d.rows + [SettlementRow(s, m)]))
  }

  function MarkSettled(d: Desk, o: ObligationId): Desk {
    if o in d.obligations then d.(obligations := d.obligations[o := d.obligations[o].(state := Settled)]) else d
  }

  function Recovery(via: Strategy): CaseEvent {
    TerminalReached(Recovered, match via
      case ByIdemKey => "settled_via_idem_key"
      case ByVirtualAccount => "settled_via_virtual_account"
      case ByReference => "settled_via_reference"
      case Unmatched => "settled_via_unmatched")
  }

  // ---- Cases of an obligation ----

  predicate LiveFor(fab: Tables, o: ObligationId, c: CaseId) {
    Live(fab, c) && fab.cases[c].obligationId == o
  }

  /** ORDER BY opened_at LIMIT 1 */
  ghost predicate IsOpenCase(fab: Tables, o: ObligationId, found: Option<CaseId>) {
    match found
    case None => forall c :: !LiveFor(fab, o, c)
    case Some(c) => LiveFor(fab, o, c) && forall e :: LiveFor(fab, o, e) ==> fab.cases[c].openedAt <= fab.cases[e].openedAt
  }

  datatype OpenRequest = OpenRequest(caseId: CaseId, obligationId: ObligationId, obligation: Obligation)

  /** The obligation a trigger is about: the one already on file for (merchant, external_ref), else a new row. */
  ghost predicate IsUpsert(d: Desk, req: OpenRequest, o: ObligationId) {
    if exists p :: Named(d.obligations, req.obligation.merchant, req.obligation.externalRef, p)
    then Named(d.obligations, req.obligation.merchant, req.obligation.externalRef, o)
    else o == req.obligationId && o !in d.obligations
  }

  function Upsert(d: Desk, req: OpenRequest, o: ObligationId): Desk {
    if o in d.obligations then d else d.(obligations := d.obligations[o := req.obligation.(state := Owed, virtualAccount := None)])
  }

  /** What a sum of money closes. */
  predicate Covered(d: Desk, o: ObligationId) {
    o in d.obligations && Total(d.rows, Some(o)) >= d.obligations[o].amount && Total(d.rows, Some(o)) > 0
  }

  // ---- In the desk's own terms ----

  /** Where a settlement goes, field by field: its key's obligation, else its account's earliest unpaid one, else the one it names. */
  lemma MatchMeans(d: Desk, s: Inbound, m: Match)
    requires IsMatch(d, s, m)
    ensures m.via.ByIdemKey? <==> s.idemKey.Some? && s.idemKey.value != "" && s.idemKey.value in d.attempts
    ensures m.via.ByIdemKey? ==> m.obligation == Some(d.attempts[s.idemKey.value])
    ensures m.via.ByVirtualAccount? ==>
              && m.obligation.Some? && m.obligation.value in d.obligations && s.virtualAccount.Some? && s.virtualAccount.value != ""
              && var ob := d.obligations[m.obligation.value];
                 && ob.virtualAccount == s.virtualAccount && ob.merchant == s.merchant && ob.state == Owed
                 && forall p | p in d.obligations && d.obligations[p].virtualAccount == s.virtualAccount
                               && d.obligations[p].merchant == s.merchant && d.obligations[p].state == Owed
                      :: ob.dueAt <= d.obligations[p].dueAt
    ensures m.via.ByReference? ==>
              && m.obligation.Some? && m.obligation.value in d.obligations && s.reference.Some? && s.reference.value != ""
              && d.obligations[m.obligation.value].externalRef == s.reference.value
              && d.obligations[m.obligation.value].merchant == s.merchant
    ensures m.via.Unmatched? ==> m.obligation.None?
    ensures m.via.ByReference? || m.via.Unmatched? ==>
              (s.virtualAccount.Some? && s.virtualAccount.value != "" ==>
                 forall p | p in d.obligations && d.obligations[p].virtualAccount == s.virtualAccount && d.obligations[p].merchant == s.merchant
                   :: d.obligations[p].state == Settled)
    ensures m.via.Unmatched? && s.reference.Some? && s.reference.value != "" ==>
              forall p :: p in d.obligations && d.obligations[p].externalRef == s.reference.value ==> d.obligations[p].merchant != s.merchant
  {
    forall p | p in d.obligations && d.obligations[p].virtualAccount == s.virtualAccount && d.obligations[p].merchant == s.merchant
               && d.obligations[p].state == Owed && s.virtualAccount.Some?
      ensures AccountPays(d, s, p)
    {
    }
    forall p | p in d.obligations && d.obligations[p].merchant == s.merchant && s.reference == Some(d.obligations[p].externalRef)
      ensures ReferencePays(d, s, p)
    {
    }
  }

  /** What an insert does: refused without a positive amount, nothing for a known id, refused for a known key, and else one row more. */
  lemma InsertMeans(d: Desk, s: Inbound, m: Match)
    ensures var known := exists i :: 0 <= i < |d.rows| && d.rows[i].money.id == s.id;
            var spent := exists i :: 0 <= i < |d.rows| && s.idemKey.Some? && d.rows[i].money.idemKey == s.idemKey;
            && (Insert(d, s, m) == Err(AmountNotPositive) <==> s.amount <= 0)
            && (Insert(d, s, m) == Err(DuplicateKey) <==> s.amount > 0 && !known && spent)
            && (s.amount > 0 && known ==> Insert(d, s, m) == Ok(d))
            && (s.amount > 0 && !known && !spent ==> Insert(d, s, m) == Ok(d.(rows := d.rows + [SettlementRow(s, m)])))
  {
  }

  lemma RecoveryReasons()
    ensures Recovery(ByIdemKey) == TerminalReached(Recovered, "settled_via_idem_key")
    ensures Recovery(ByVirtualAccount) == TerminalReached(Recovered, "settled_via_virtual_account")
    ensures Recovery(ByReference) == TerminalReached(Recovered, "settled_via_reference")
    ensures Recovery(Unmatched) == TerminalReached(Recovered, "settled_via_unmatched")
  {
  }
}
