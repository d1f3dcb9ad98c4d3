/** The executor as it runs: one `execute` or `reconcile` call, over tables updated in place. */
module Executors {
  import opened Wrappers
  import opened Execution
  import Leases = ObligationLeases
  import opened ExecutionSafety

  /** Whether an `execute` that nothing interrupts gets as far as the adapter. */
  predicate Reaches(db: Db, req: Request, cap: Capability) {
    && Preflight(req, cap, db.clock).None?
    && CanLease(db, req.obligationId, req.caseId)
    && req.token.nonce !in db.burns
    && req.Key() !in db.attempts
  }

  /** What a token must say for the request it is presented with, at this time. */
  lemma AdmittedIff(req: Request, cap: Capability, now: int)
    ensures var t := req.token;
            Preflight(req, cap, now).None? <==>
            && cap.supported && !cap.isSchedule
            && t.signatureValid && now <= t.notAfter
            && t.actionId == req.actionId && t.paramsHash == req.paramsHash
            && (t.amountCap.Some? && req.amount.Some? ==> req.amount.value <= t.amountCap.value)
  {
  }

  function FinalState(reply: Reply): AttemptState {
    if !reply.Answered? then InFlight else if reply.ok then Succeeded else Failed
  }

  /** The statements of one `execute`, in order; those a refusal cuts off find nothing to do. */
  function Script(w: Worker, req: Request, cap: Capability, ttl: int, reply: Reply): seq<Step> {
    [Begin(w, req, cap, ttl), BurnNonce(w), InsertRow(w), Invoke(w, reply), Settle(w), Leave(w)]
  }

  lemma RunOfSix(s: World, a: Step, b: Step, c: Step, d: Step, e: Step, f: Step)
    ensures Run(s, [a, b, c, d, e, f]) == Apply(Apply(Apply(Apply(Apply(Apply(s, a), b), c), d), e), f)
  {
    RunCons(s, a, [b, c, d, e, f]);
    RunCons(Apply(s, a), b, [c, d, e, f]);
    var s2 := Apply(Apply(s, a), b);
    RunCons(s2, c, [d, e, f]);
    RunCons(Apply(s2, c), d, [e, f]);
    var s4 := Apply(Apply(s2, c), d);
    RunCons(s4, e, [f]);
    RunCons(Apply(s4, e), f, []);
  }

  lemma RunCons(s: World, a: Step, rest: seq<Step>)
    ensures Run(s, [a] + rest) == Run(Apply(s, a), rest)
    ensures forall b: seq<Step> :: b == [a] + rest ==> Run(s, b) == Run(Apply(s, a), rest)
  {
  }

  /** The tables an uninterrupted `execute` leaves, from each of its statements on. */
  function AfterRow(db: Db, req: Request, reply: Reply): Db {
    var called := ProviderHears(db, req.Key(), reply);
    DropLease(if reply.Answered? then SetState(called, req.Key(), FinalState(reply)) else called, req.obligationId, req.caseId)
  }

  function AfterNonce(db: Db, req: Request, reply: Reply): Db {
    if req.Key() in db.attempts then DropLease(db, req.obligationId, req.caseId) else AfterRow(WriteRow(db, req), req, reply)
  }

  function AfterLease(db: Db, req: Request, reply: Reply): Db {
    if req.token.nonce in db.burns then DropLease(db, req.obligationId, req.caseId)
    else AfterNonce(Burn(db, req.token.nonce), req, reply)
  }

  function AfterExecute(db: Db, req: Request, cap: Capability, ttl: int, reply: Reply): Db {
    if Preflight(req, cap, db.clock).Some? || !CanLease(db, req.obligationId, req.caseId) then db
    else AfterLease(TakeLease(db, req.obligationId, req.caseId, ttl), req, reply)
  }

  lemma AfterRowEffect(db: Db, req: Request, reply: Reply)
    requires req.Key() in db.attempts && db.attempts[req.Key()].state.InFlight? && db.attempts[req.Key()].settledAt.None?
    ensures var db' := AfterRow(db, req, reply); var key := req.Key();
            && db'.clock == db.clock && db'.burns == db.burns && db'.attempts.Keys == db.attempts.Keys
            && (forall k :: k in db.attempts && k != key ==> db'.attempts[k] == db.attempts[k])
            && db'.locks == Leases.Drop(db.locks, req.obligationId, req.caseId)
            && (db'.attempts[key].state.InFlight? <==> !reply.Answered?)
            && (db'.attempts[key].state.Succeeded? <==> reply.Answered? && reply.ok)
            && (db'.attempts[key].state.Failed? <==> reply.Answered? && !reply.ok)
            && db'.attempts[key] == db.attempts[key].(state := db'.attempts[key].state,
                                                      settledAt := if reply.Answered? then Some(db.clock) else None)
            && db'.provider == (if reply.LostBefore? then db.provider else db.provider[key := reply.status])
  {
  }

  /**
   * What an execute leaves, field by field. Reaching the adapter burns the nonce and
   * writes the row, settled by the answer and left in flight without one; nothing else
   * touches a row; and past the lease, every way out frees it.
   */
  lemma AfterExecuteEffect(db: Db, req: Request, cap: Capability, ttl: int, reply: Reply)
    ensures var db' := AfterExecute(db, req, cap, ttl, reply); var key, o := req.Key(), req.obligationId;
            && db'.clock == db.clock
            && (forall k :: k in db.attempts ==> k in db'.attempts && db'.attempts[k] == db.attempts[k])
            && (forall p :: p != o ==> (p in db'.locks <==> p in db.locks) && (p in db.locks ==> db'.locks[p] == db.locks[p]))
            && (Reaches(db, req, cap) ==>
                  && db'.burns == db.burns + {req.token.nonce} && db'.attempts.Keys == db.attempts.Keys + {key}
                  && db'.attempts[key].caseId == req.caseId && db'.attempts[key].obligationId == o && db'.attempts[key].sentAt == db.clock
                  && (db'.attempts[key].state.InFlight? <==> !reply.Answered?)
                  && (db'.attempts[key].state.Succeeded? <==> reply.Answered? && reply.ok)
                  && (db'.attempts[key].state.Failed? <==> reply.Answered? && !reply.ok)
                  && db'.attempts[key].settledAt == (if reply.Answered? then Some(db.clock) else None)
                  && db'.provider == (if reply.LostBefore? then db.provider else db.provider[key := reply.status]))
            && (!Reaches(db, req, cap) ==>
                  && db'.attempts == db.attempts && db'.provider == db.provider
                  && db'.burns <= db.burns + {req.token.nonce})
            && (Preflight(req, cap, db.clock).None? && CanLease(db, o, req.caseId) ==> o !in db'.locks)
            && (!(Preflight(req, cap, db.clock).None? && CanLease(db, o, req.caseId)) ==> db' == db)
  {
    hide Preflight, CanLease, AfterRow;
    var taken := TakeLease(db, req.obligationId, req.caseId, ttl);
    if Reaches(db, req, cap) {
      AfterRowEffect(WriteRow(Burn(taken, req.token.nonce), req), req, reply);
    }
  }

  function WithCall(calls: seq<Call>, made: bool, req: Request): seq<Call> {
    if made then calls + [Call(req.Key(), req.token.nonce)] else calls
  }

  function Alone(db: Db, w: Worker, req: Request, phase: Phase, calls: seq<Call>): World {
    World(db, map[w := Executing(req, phase)], calls)
  }

  lemma FromLeaving(db: Db, calls: seq<Call>, w: Worker, req: Request)
    ensures Apply(Alone(db, w, req, Leaving, calls), Leave(w)) == World(DropLease(db, req.obligationId, req.caseId), map[], calls)
  {
  }

  lemma FromRow(db: Db, calls: seq<Call>, w: Worker, req: Request, reply: Reply)
    ensures Apply(Apply(Apply(Alone(db, w, req, RowWritten, calls), Invoke(w, reply)), Settle(w)), Leave(w)) ==
            World(AfterRow(db, req, reply), map[], WithCall(calls, true, req))
  {
    hide SetState, DropLease, ProviderHears;
    var called := ProviderHears(db, req.Key(), reply);
    var settled := if reply.Answered? then SetState(called, req.Key(), FinalState(reply)) else called;
    assert Apply(Apply(Alone(db, w, req, RowWritten, calls), Invoke(w, reply)), Settle(w)) ==
           Alone(settled, w, req, Leaving, WithCall(calls, true, req));
    FromLeaving(settled, WithCall(calls, true, req), w, req);
  }

  lemma FromNonce(db: Db, calls: seq<Call>, w: Worker, req: Request, reply: Reply)
    ensures Apply(Apply(Apply(Apply(Alone(db, w, req, NonceBurned, calls), InsertRow(w)), Invoke(w, reply)), Settle(w)), Leave(w)) ==
            World(AfterNonce(db, req, reply), map[], WithCall(calls, req.Key() !in db.attempts, req))
  {
    hide AfterRow, DropLease, WriteRow;
    if req.Key() in db.attempts {
      FromLeaving(db, calls, w, req);
    } else {
      assert Apply(Alone(db, w, req, NonceBurned, calls), InsertRow(w)) == Alone(WriteRow(db, req), w, req, RowWritten, calls);
      FromRow(WriteRow(db, req), calls, w, req, reply);
    }
  }

  lemma FromLease(db: Db, calls: seq<Call>, w: Worker, req: Request, reply: Reply)
    ensures Apply(Apply(Apply(Apply(Apply(
              Alone(db, w, req, Leased, calls), BurnNonce(w)), InsertRow(w)), Invoke(w, reply)), Settle(w)), Leave(w)) ==
            World(AfterLease(db, req, reply), map[], WithCall(calls, req.token.nonce !in db.burns && req.Key() !in db.attempts, req))
  {
    hide AfterNonce, DropLease;
    var n := req.token.nonce;
    if n in db.burns {
      FromLeaving(db, calls, w, req);
    } else {
      assert Apply(Alone(db, w, req, Leased, calls), BurnNonce(w)) == Alone(Burn(db, n), w, req, NonceBurned, calls);
      FromNonce(Burn(db, n), calls, w, req, reply);
    }
  }

  /** An uninterrupted `execute` is one run of the step system. */
  lemma ExecuteIsARun(db: Db, calls: seq<Call>, w: Worker, req: Request, cap: Capability, ttl: int, reply: Reply)
    ensures Run(World(db, map[], calls), Script(w, req, cap, ttl, reply)) ==
            World(AfterExecute(db, req, cap, ttl, reply), map[],
                  if Reaches(db, req, cap) then calls + [Call(req.Key(), req.token.nonce)] else calls)
  {
    hide AfterLease, Preflight, CanLease;
    var s0 := World(db, map[], calls);
    RunOfSix(s0, Begin(w, req, cap, ttl), BurnNonce(w), InsertRow(w), Invoke(w, reply), Settle(w), Leave(w));
    if Enabled(s0, Begin(w, req, cap, ttl)) {
      var leased := TakeLease(db, req.obligationId, req.caseId, ttl);
      assert Apply(s0, Begin(w, req, cap, ttl)) == Alone(leased, w, req, Leased, calls);
      FromLease(leased, calls, w, req, reply);
    }
  }

  class Executor {
    const lease: Leases.ObligationLease
    var clock: int
    var burns: set<Nonce>
    var attempts: map<IdemKey, Attempt>
    var provider: map<IdemKey, PaymentStatus>
    /** Every adapter invocation, in order. */
    ghost var calls: seq<Call>

    function Db(): Execution.Db
      reads this, lease
    {
      Execution.Db(clock, lease.locks, burns, attempts, provider)
    }

    /** Nobody's, out of time, or the case's own. */
    predicate LeaseIsFree(o: ObligationId, c: CaseId)
      reads this, lease
    {
      o !in lease.locks || lease.locks[o].expiry <= clock || lease.locks[o].holder == c
    }

    constructor (lease: Leases.ObligationLease)
      requires lease.locks == map[]
      ensures this.lease == lease && Db() == BOOT.db && calls == []
    {
      this.lease := lease;
      clock, burns, attempts, provider := 0, {}, map[], map[];
      calls := [];
    }

    /** Step 4 of admission: a duplicate insert is the replay. */
    method BurnToken(n: Nonce) returns (replayed: bool)
      modifies this`burns
      ensures replayed == (n in old(burns)) && Db() == Burn(old(Db()), n)
    {
      replayed := n in burns;
      burns := burns + {n};
    }

    /** Writes the attempt row before the call; the unique key refuses a second one. */
    method InsertAttempt(req: Request) returns (duplicate: bool)
      modifies this`attempts
      ensures duplicate == (req.Key() in old(attempts))
      ensures Db() == if duplicate then old(Db()) else WriteRow(old(Db()), req)
    {
      duplicate := req.Key() in attempts;
      if !duplicate {
        attempts := attempts[req.Key() := Attempt(req.caseId, req.obligationId, InFlight, clock, None)];
      }
    }

    /** The adapter call. What the provider does is the parameter `reply`. */
    method InvokeAdapter(key: IdemKey, nonce: Nonce, reply: Reply)
      modifies this`provider, this`calls
      ensures calls == old(calls) + [Call(key, nonce)] && Db() == ProviderHears(old(Db()), key, reply)
    {
      calls := calls + [Call(key, nonce)];
      match reply
      case Answered(_, status) => provider := provider[key := status];
      case LostAfter(status) => provider := provider[key := status];
      case LostBefore =>
    }

    method UpdateState(key: IdemKey, s: AttemptState)
      modifies this`attempts
      ensures Db() == SetState(old(Db()), key, s)
    {
      if key in attempts {
        attempts := attempts[key := attempts[key].(state := s, settledAt := Some(clock))];
      }
    }

    /**
     * Takes the lease, burns the token, writes the row, calls, settles, and releases
     * the lease on every way out. The adapter is reached exactly when nothing refuses,
     * and an exception from it leaves the row in flight.
     */
    method Execute(req: Request, cap: Capability, reply: Reply) returns (r: Result<bool, ExecError>)
      modifies this, lease
      ensures Db() == AfterExecute(old(Db()), req, cap, lease.ttl, reply)
      ensures calls == old(calls) || calls == old(calls) + [Call(req.Key(), req.token.nonce)]
      ensures var t := req.token;
              calls != old(calls) <==>
              && cap.supported && !cap.isSchedule && t.signatureValid && old(clock) <= t.notAfter
              && t.actionId == req.actionId && t.paramsHash == req.paramsHash
              && (t.amountCap.Some? && req.amount.Some? ==> req.amount.value <= t.amountCap.value)
              && old(LeaseIsFree(req.obligationId, req.caseId)) && t.nonce !in old(burns) && req.Key() !in old(attempts)
      ensures r.Ok? <==> calls != old(calls) && reply.Answered?
      ensures r.Ok? ==> r.value == reply.ok
      ensures var t := req.token;
              && (r == Err(ScheduleAction) <==> cap.isSchedule)
              && (r == Err(UnsupportedCapability) <==> !cap.isSchedule && !cap.supported)
              && (r == Err(BadSignature) <==> !cap.isSchedule && cap.supported && !t.signatureValid)
              && (r == Err(TokenExpired) <==> !cap.isSchedule && cap.supported && t.signatureValid && t.notAfter < old(clock))
      ensures var t := req.token;
              !cap.isSchedule && cap.supported && t.signatureValid && old(clock) <= t.notAfter ==>
                && (r == Err(ActionMismatch) <==> t.actionId != req.actionId)
                && (r == Err(ParamsMismatch) <==> t.actionId == req.actionId && t.paramsHash != req.paramsHash)
                && (r == Err(AmountExceedsCap) <==>
                    t.actionId == req.actionId && t.paramsHash == req.paramsHash
                    && t.amountCap.Some? && req.amount.Some? && req.amount.value > t.amountCap.value)
      ensures r.Err? && r.error.LeaseUnavailable? ==>
                req.obligationId in old(lease.locks) && r.error.heldBy == old(lease.locks[req.obligationId].holder)
                && !old(LeaseIsFree(req.obligationId, req.caseId))
      ensures r == Err(TokenReplay) ==> req.token.nonce in old(burns)
      ensures r.Err? && r.error.DuplicateAttempt? ==> r.error.key == req.Key() && req.Key() in old(attempts)
      ensures r == Err(CallFailed) ==> calls != old(calls) && !reply.Answered?
    {
      AdmittedIff(req, cap, clock);
      var refused := Preflight(req, cap, clock);
      if refused.Some? {
        return Err(refused.value);
      }
      var key, o := req.Key(), req.obligationId;
      var leased := lease.TryAcquire(o, req.caseId, clock);
      if !leased {
        return Err(LeaseUnavailable(lease.locks[o].holder));
      }
      var replayed := BurnToken(req.token.nonce);
      if replayed {
        lease.Release(o, req.caseId);
        return Err(TokenReplay);
      }
      var duplicate := InsertAttempt(req);
      if duplicate {
        lease.Release(o, req.caseId);
        return Err(DuplicateAttempt(key));
      }
      InvokeAdapter(key, req.token.nonce, reply);
      if !reply.Answered? {
        lease.Release(o, req.caseId);
        return Err(CallFailed);
      }
      UpdateState(key, FinalState(reply));
      lease.Release(o, req.caseId);
      return Ok(reply.ok);
    }

    /** The rows in flight, each once, in an arbitrary order. */
    method SelectInFlight() returns (rows: seq<IdemKey>)
      ensures forall k :: k in rows <==> k in InFlightKeys(Db())
      ensures forall i, j :: 0 <= i < j < |rows| ==> rows[i] != rows[j]
    {
      rows := [];
      var left := InFlightKeys(Db());
      while left != {}
        invariant forall k :: k in InFlightKeys(Db()) <==> k in rows || k in left
        invariant forall k :: k in rows ==> k !in left
        invariant forall i, j :: 0 <= i < j < |rows| ==> rows[i] != rows[j]
        decreases |left|
      {
        var key :| key in left;
        rows, left := rows + [key], left - {key};
      }
    }

    /**
     * Asks the provider about every row in flight, and calls nothing. From any
     * database the step system can reach with no executor running, it leaves settled
     * exactly the keys the provider received (ExecutionSafety.BootReconcileIsExact).
     */
    method Reconcile() returns (reconciled: nat, stillUnknown: nat, ghost rows: seq<IdemKey>)
      modifies this`attempts
      ensures forall k :: k in rows <==> k in old(InFlightKeys(Db()))
      ensures Db() == ReconcileKeys(old(Db()), rows)
      ensures reconciled == |Found(old(Db()), rows)| && reconciled + stillUnknown == |rows|
    {
      var todo := SelectInFlight();
      rows := todo;
      ghost var before := Db();
      reconciled, stillUnknown := 0, 0;
      for i := 0 to |todo|
        invariant ReconcileKeys(Db(), todo[i..]) == ReconcileKeys(before, todo)
        invariant Db().provider == before.provider
        invariant reconciled == |Found(before, todo[..i])| && reconciled + stillUnknown == i
      {
        assert todo[i..][0] == todo[i] && todo[i..][1..] == todo[i + 1..];
        assert todo[..i + 1] == todo[..i] + [todo[i]];
        FoundAppend(before, todo[..i], todo[i]);
        if todo[i] in provider {
          UpdateState(todo[i], Reconciled);
          reconciled := reconciled + 1;
        } else {
          stillUnknown := stillUnknown + 1;
        }
      }
      assert todo[..|todo|] == todo;
    }
  }

  /** The keys of a pass that the provider knows. */
  function Found(db: Db, rows: seq<IdemKey>): seq<IdemKey> {
    if rows == [] then []
    else Found(db, rows[..|rows| - 1]) + if rows[|rows| - 1] in db.provider then [rows[|rows| - 1]] else []
  }

  lemma FoundAppend(db: Db, rows: seq<IdemKey>, k: IdemKey)
    ensures |Found(db, rows + [k])| == |Found(db, rows)| + if k in db.provider then 1 else 0
  {
  }

  /**
   * After one request has reached the adapter, no later one with its key or its nonce
   * does, whatever runs in between: a fresh token is refused by the row, a fresh
   * attempt number by the nonce.
   */
  lemma RepeatNeverCalls(db: Db, req: Request, cap: Capability, ttl: int, reply: Reply, steps: seq<Step>,
                         again: Request, capAgain: Capability)
    requires Reaches(db, req, cap)
    requires again.Key() == req.Key() || again.token.nonce == req.token.nonce
    ensures !Reaches(Run(World(AfterExecute(db, req, cap, ttl, reply), map[], []), steps).db, again, capAgain)
  {
    RunAccumulates(World(AfterExecute(db, req, cap, ttl, reply), map[], []), steps);
  }
}
