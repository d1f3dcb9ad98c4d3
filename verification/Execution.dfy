/**
 * The execution protocol: admission, lease, nonce, write-ahead attempt row, provider
 * call, settlement, crash and boot-time reconciliation (packages/engine/src/executor.ts,
 * token-burn.ts, obligation-lease.ts and packages/connectors/src/simulated-psp.ts).
 *
 * Any number of workers interleave at statement granularity, and a worker can
 * disappear between any two statements.
 */
module Execution {
  import opened Wrappers
  import Leases = ObligationLeases

  type CaseId = nat
  type ObligationId = Leases.ObligationId
  type Nonce = nat
  type Worker = nat

  /** The key hashes these four fields; it is modelled as the fields themselves. */
  datatype IdemKey = IdemKey(caseId: CaseId, actionId: string, attemptNo: nat, paramsHash: nat)

  datatype Token = Token(
    actionId: string,
    paramsHash: nat,
    amountCap: Option<int>,
    notAfter: int,
    nonce: Nonce,
    signatureValid: bool)

  datatype Request = Request(
    caseId: CaseId,
    obligationId: ObligationId,
    actionId: string,
    attemptNo: nat,
    paramsHash: nat,
    token: Token,
    amount: Option<int>)
  {
    function Key(): IdemKey { IdemKey(caseId, actionId, attemptNo, paramsHash) }
  }

  datatype AttemptState = InFlight | Succeeded | Failed | Reconciled

  datatype Attempt = Attempt(caseId: CaseId, obligationId: ObligationId, state: AttemptState, sentAt: int, settledAt: Option<int>)

  datatype PaymentStatus = PaymentStatus(captured: bool, amount: int)

  /** The tables, the clock and the provider's memory of the calls it received. */
  datatype Db = Db(
    clock: int,
    locks: Leases.LockTable,
    burns: set<Nonce>,
    attempts: map<IdemKey, Attempt>,
    provider: map<IdemKey, PaymentStatus>)

  /** What becomes of one adapter call: an answer, or an exception with or without the provider having acted. */
  datatype Reply =
    | Answered(ok: bool, status: PaymentStatus)
    | LostAfter(status: PaymentStatus)
    | LostBefore

  datatype ExecError =
    | ScheduleAction
    | UnsupportedCapability
    | BadSignature
    | TokenExpired
    | ActionMismatch
    | ParamsMismatch
    | AmountExceedsCap
    | LeaseUnavailable(heldBy: CaseId)
    | TokenReplay
    | DuplicateAttempt(key: IdemKey)
    | CallFailed

  /** What the action library and the adapter say about an action. */
  datatype Capability = Capability(isSchedule: bool, supported: bool)

  // ---- Statements ----

  /** Refusals before any statement runs, in the order the code tries them. */
  function Preflight(req: Request, cap: Capability, now: int): Option<ExecError> {
    var t := req.token;
    if cap.isSchedule then Some(ScheduleAction)
    else if !cap.supported then Some(UnsupportedCapability)
    else if !t.signatureValid then Some(BadSignature)
    else if t.notAfter < now then Some(TokenExpired)
    else if t.actionId != req.actionId then Some(ActionMismatch)
    else if t.paramsHash != req.paramsHash then Some(ParamsMismatch)
    else if t.amountCap.Some? && req.amount.Some? && t.amountCap.value < req.amount.value then Some(AmountExceedsCap)
    else None
  }

  /** The holder is `executor:<case>`, so it is named by the case. */
  predicate CanLease(db: Db, o: ObligationId, holder: CaseId) {
    Leases.CanTake(db.locks, o, holder, db.clock)
  }

  function TakeLease(db: Db, o: ObligationId, holder: CaseId, ttl: int): Db {
    db.(locks := Leases.Take(db.locks, o, holder, db.clock + ttl))
  }

  function DropLease(db: Db, o: ObligationId, holder: CaseId): Db {
    db.(locks := Leases.Drop(db.locks, o, holder))
  }

  function Burn(db: Db, n: Nonce): Db {
    db.(burns := db.burns + {n})
  }

  function WriteRow(db: Db, req: Request): Db {
    db.(attempts := db.attempts[req.Key() := Attempt(req.caseId, req.obligationId, InFlight, db.clock, None)])
  }

  function ProviderHears(db: Db, key: IdemKey, reply: Reply): Db {
    if reply.LostBefore? then db else db.(provider := db.provider[key := reply.status])
  }

  /** UPDATE action_attempts ... WHERE idem_key: no guard on the row's present state. */
  function SetState(db: Db, key: IdemKey, s: AttemptState): Db {
    if key in db.attempts
    then db.(attempts := db.attempts[key := db.attempts[key].(state := s, settledAt := Some(db.clock))])
    else db
  }

  function InFlightKeys(db: Db): set<IdemKey> {
    set k | k in db.attempts && db.attempts[k].state.InFlight?
  }

  ghost function SettledKeys(db: Db): set<IdemKey> {
    set k | k in db.attempts && !db.attempts[k].state.InFlight?
  }

  // ---- Interleaved workers ----

  /** Where a worker stands: the statement it has just finished. */
  datatype Phase = Leased | NonceBurned | RowWritten | CallAnswered(ok: bool) | Leaving

  datatype Task =
    | Executing(req: Request, phase: Phase)
    | Reconciling(todo: seq<IdemKey>, found: bool)

  /** An adapter invocation, as an observer of the adapter records it. */
  datatype Call = Call(key: IdemKey, nonce: Nonce)

  datatype World = World(db: Db, tasks: map<Worker, Task>, calls: seq<Call>)

  datatype Step =
    | Begin(w: Worker, req: Request, cap: Capability, ttl: int)
    | BurnNonce(w: Worker)
    | InsertRow(w: Worker)
    | Invoke(w: Worker, reply: Reply)
    | Settle(w: Worker)
    | Leave(w: Worker)
    | Crash(w: Worker)
    | Advance(ms: nat)
    | ReconcileList(w: Worker, todo: seq<IdemKey>)
    | ReconcileProbe(w: Worker)
    | ReconcileUpdate(w: Worker)
    | ReconcileEnd(w: Worker)

  ghost predicate At(s: World, w: Worker, phase: Phase) {
    w in s.tasks && s.tasks[w].Executing? && s.tasks[w].phase == phase
  }

  function Goto(s: World, w: Worker, db: Db, phase: Phase): World
    requires w in s.tasks && s.tasks[w].Executing?
  {
    World(db, s.tasks[w := Executing(s.tasks[w].req, phase)], s.calls)
  }

  ghost predicate Enabled(s: World, step: Step) {
    match step
    case Begin(w, req, cap, _) =>
      w !in s.tasks && Preflight(req, cap, s.db.clock).None? && CanLease(s.db, req.obligationId, req.caseId)
    case BurnNonce(w) => At(s, w, Leased)
    case InsertRow(w) => At(s, w, NonceBurned)
    case Invoke(w, _) => At(s, w, RowWritten)
    case Settle(w) => w in s.tasks && s.tasks[w].Executing? && s.tasks[w].phase.CallAnswered?
    case Leave(w) => At(s, w, Leaving)
    case Crash(w) => w in s.tasks
    case Advance(_) => true
    case ReconcileList(w, todo) =>
      w !in s.tasks && (forall k :: k in todo <==> k in InFlightKeys(s.db))
    case ReconcileProbe(w) => w in s.tasks && s.tasks[w].Reconciling? && s.tasks[w].todo != [] && !s.tasks[w].found
    case ReconcileUpdate(w) => w in s.tasks && s.tasks[w].Reconciling? && s.tasks[w].todo != [] && s.tasks[w].found
    case ReconcileEnd(w) => w in s.tasks && s.tasks[w].Reconciling? && s.tasks[w].todo == []
  }

  ghost function Next(s: World, step: Step): World
    requires Enabled(s, step)
  {
    match step
    case Begin(w, req, _, ttl) =>
      World(TakeLease(s.db, req.obligationId, req.caseId, ttl), s.tasks[w := Executing(req, Leased)], s.calls)
    case BurnNonce(w) =>
      var n := s.tasks[w].req.token.nonce;
      if n in s.db.burns then Goto(s, w, s.db, Leaving) else Goto(s, w, Burn(s.db, n), NonceBurned)
    case InsertRow(w) =>
      var req := s.tasks[w].req;
      if req.Key() in s.db.attempts then Goto(s, w, s.db, Leaving) else Goto(s, w, WriteRow(s.db, req), RowWritten)
    case Invoke(w, reply) =>
      var req := s.tasks[w].req;
      Goto(s, w, ProviderHears(s.db, req.Key(), reply), if reply.Answered? then CallAnswered(reply.ok) else Leaving)
      .(calls := s.calls + [Call(req.Key(), req.token.nonce)])
    case Settle(w) =>
      Goto(s, w, SetState(s.db, s.tasks[w].req.Key(), if s.tasks[w].phase.ok then Succeeded else Failed), Leaving)
    case Leave(w) =>
      World(DropLease(s.db, s.tasks[w].req.obligationId, s.tasks[w].req.caseId), s.tasks - {w}, s.calls)
    case Crash(w) => s.(tasks := s.tasks - {w})
    case Advance(ms) => s.(db := s.db.(clock := s.db.clock + ms))
    case ReconcileList(w, todo) => s.(tasks := s.tasks[w := Reconciling(todo, false)])
    case ReconcileProbe(w) =>
      var todo := s.tasks[w].todo;
      s.(tasks := s.tasks[w := if todo[0] in s.db.provider then Reconciling(todo, true) else Reconciling(todo[1..], false)])
    case ReconcileUpdate(w) =>
      var todo := s.tasks[w].todo;
      World(SetState(s.db, todo[0], Reconciled), s.tasks[w := Reconciling(todo[1..], false)], s.calls)
    case ReconcileEnd(w) => s.(tasks := s.tasks - {w})
  }

  /** Disabled steps are attempts that find nothing to do. */
  ghost function Apply(s: World, step: Step): World {
    if Enabled(s, step) then Next(s, step) else s
  }

  ghost function Run(s: World, steps: seq<Step>): World
    decreases |steps|
  {
    if steps == [] then s else Run(Apply(s, steps[0]), steps[1..])
  }

  const BOOT := World(Db(0, map[], {}, map[], map[]), map[], [])

  // ---- The invariant ----

  /** The nonce is burned and the call not yet made. */
  predicate Holds(task: Task) {
    task.Executing? && (task.phase.NonceBurned? || task.phase.RowWritten?)
  }

  ghost predicate NonceFresh(calls: seq<Call>, n: Nonce) {
    forall i :: 0 <= i < |calls| ==> calls[i].nonce != n
  }

  ghost predicate KeyFresh(calls: seq<Call>, k: IdemKey) {
    forall i :: 0 <= i < |calls| ==> calls[i].key != k
  }

  ghost predicate CallsDistinct(calls: seq<Call>) {
    forall i, j :: 0 <= i < j < |calls| ==> calls[i].key != calls[j].key && calls[i].nonce != calls[j].nonce
  }

  ghost predicate CallsCovered(s: World) {
    forall i :: 0 <= i < |s.calls| ==> s.calls[i].key in s.db.attempts && s.calls[i].nonce in s.db.burns
  }

  ghost predicate TaskValid(s: World, task: Task) {
    match task
    case Executing(req, phase) =>
      && (Holds(task) ==> req.token.nonce in s.db.burns && NonceFresh(s.calls, req.token.nonce))
      && (phase.RowWritten? ==> req.Key() in InFlightKeys(s.db) && KeyFresh(s.calls, req.Key()))
      && (phase.CallAnswered? ==> req.Key() in s.db.attempts && req.Key() in s.db.provider)
    case Reconciling(todo, found) =>
      && (forall k :: k in todo ==> k in s.db.attempts)
      && (found ==> todo != [] && todo[0] in s.db.provider)
  }

  ghost predicate TasksValid(s: World) {
    forall w :: w in s.tasks ==> TaskValid(s, s.tasks[w])
  }

  /** No two workers are on the way to a call with the same nonce or the same row. */
  ghost predicate Exclusive(tasks: map<Worker, Task>) {
    forall w, v :: w in tasks && v in tasks && w != v && Holds(tasks[w]) && Holds(tasks[v]) ==>
      && tasks[w].req.token.nonce != tasks[v].req.token.nonce
      && (tasks[w].phase.RowWritten? && tasks[v].phase.RowWritten? ==> tasks[w].req.Key() != tasks[v].req.Key())
  }

  /** The provider knows only keys it was called with, and only such rows are settled. */
  ghost predicate ProviderHonest(s: World) {
    && (forall k :: k in s.db.provider ==> !KeyFresh(s.calls, k) && k in s.db.attempts)
    && SettledKeys(s.db) <= s.db.provider.Keys
  }

  ghost predicate Inv(s: World) {
    CallsDistinct(s.calls) && CallsCovered(s) && TasksValid(s) && Exclusive(s.tasks) && ProviderHonest(s)
  }
}
