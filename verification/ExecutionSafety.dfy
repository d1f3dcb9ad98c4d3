/** At-most-once, write-ahead and crash recovery, over every interleaving of the execution protocol. */
module ExecutionSafety {
  import opened Wrappers
  import opened Execution
  import Leases = ObligationLeases

  // ---- Each step keeps the invariant ----

  /** Changing the clock or the leases, or dropping tasks, cannot break anything. */
  lemma Shrink(s: World, s': World)
    requires Inv(s)
    requires s'.db.burns == s.db.burns && s'.db.attempts == s.db.attempts && s'.db.provider == s.db.provider && s'.calls == s.calls
    requires forall w :: w in s'.tasks ==> w in s.tasks && s'.tasks[w] == s.tasks[w]
    ensures Inv(s')
  {
    forall w | w in s'.tasks ensures TaskValid(s', s'.tasks[w]) {
      assert TaskValid(s, s.tasks[w]);
    }
  }

  /** Replacing one worker's task by one that is not on the way to a call, tables untouched. */
  lemma Retask(s: World, s': World, w: Worker, task: Task)
    requires Inv(s) && s'.tasks == s.tasks[w := task] && !Holds(task) && TaskValid(s', task)
    requires s'.db.burns == s.db.burns && s'.db.attempts == s.db.attempts && s'.db.provider == s.db.provider && s'.calls == s.calls
    ensures Inv(s')
  {
    forall v | v in s'.tasks ensures TaskValid(s', s'.tasks[v]) {
      if v != w {
        assert TaskValid(s, s.tasks[v]);
      }
    }
  }

  lemma BurnKeeps(s: World, w: Worker)
    requires Inv(s) && At(s, w, Leased) && s.tasks[w].req.token.nonce !in s.db.burns
    ensures Inv(Goto(s, w, Burn(s.db, s.tasks[w].req.token.nonce), NonceBurned))
  {
    var n := s.tasks[w].req.token.nonce;
    var s' := Goto(s, w, Burn(s.db, n), NonceBurned);
    assert NonceFresh(s.calls, n);
    forall v | v in s'.tasks ensures TaskValid(s', s'.tasks[v]) {
      assert TaskValid(s, s.tasks[v]);
    }
    forall v | v in s.tasks && v != w && Holds(s.tasks[v]) ensures s.tasks[v].req.token.nonce != n {
      assert TaskValid(s, s.tasks[v]);
    }
  }

  lemma InsertKeeps(s: World, w: Worker)
    requires Inv(s) && At(s, w, NonceBurned) && s.tasks[w].req.Key() !in s.db.attempts
    ensures Inv(Goto(s, w, WriteRow(s.db, s.tasks[w].req), RowWritten))
  {
    var req := s.tasks[w].req;
    var s' := Goto(s, w, WriteRow(s.db, req), RowWritten);
    assert KeyFresh(s.calls, req.Key());
    forall v | v in s'.tasks ensures TaskValid(s', s'.tasks[v]) {
      assert TaskValid(s, s.tasks[v]);
    }
    forall v | v in s.tasks && v != w && s.tasks[v].Executing? && s.tasks[v].phase.RowWritten?
      ensures s.tasks[v].req.Key() != req.Key()
    {
      assert TaskValid(s, s.tasks[v]);
    }
    assert SettledKeys(s'.db) == SettledKeys(s.db);
  }

  lemma InvokeIsHonest(s: World, w: Worker, reply: Reply)
    requires Inv(s) && At(s, w, RowWritten)
    ensures ProviderHonest(Next(s, Invoke(w, reply)))
  {
    hide TaskValid, CallsDistinct, Exclusive;
    var s' := Next(s, Invoke(w, reply));
    assert TaskValid(s, s.tasks[w]);
    assert s.tasks[w].req.Key() in InFlightKeys(s.db) by {
      RowIsInFlight(s, w);
    }
    forall k | k in s'.db.provider ensures !KeyFresh(s'.calls, k) && k in s'.db.attempts {
      if k in s.db.provider {
        var i :| 0 <= i < |s.calls| && s.calls[i].key == k;
        assert s'.calls[i].key == k;
      } else {
        assert s'.calls[|s.calls|].key == k;
      }
    }
  }

  lemma RowIsInFlight(s: World, w: Worker)
    requires TasksValid(s) && At(s, w, RowWritten)
    ensures s.tasks[w].req.Key() in InFlightKeys(s.db)
  {
    assert TaskValid(s, s.tasks[w]);
  }

  lemma InvokeKeeps(s: World, w: Worker, reply: Reply)
    requires Inv(s) && At(s, w, RowWritten)
    ensures Inv(Next(s, Invoke(w, reply)))
  {
    hide ProviderHonest;
    var s' := Next(s, Invoke(w, reply));
    InvokeIsHonest(s, w, reply);
    assert TaskValid(s, s.tasks[w]);
    forall v | v in s'.tasks ensures TaskValid(s', s'.tasks[v]) {
      assert TaskValid(s, s.tasks[v]);
    }
  }

  lemma SetStateKeeps(s: World, key: IdemKey, st: AttemptState)
    requires Inv(s) && key in s.db.provider && !st.InFlight?
    ensures Inv(s.(db := SetState(s.db, key, st)))
  {
    var s' := s.(db := SetState(s.db, key, st));
    forall v | v in s'.tasks ensures TaskValid(s', s'.tasks[v]) {
      assert TaskValid(s, s.tasks[v]);
    }
    assert SettledKeys(s'.db) <= SettledKeys(s.db) + {key};
  }

  lemma NextKeepsInv(s: World, step: Step)
    requires Inv(s) && Enabled(s, step)
    ensures Inv(Next(s, step))
  {
    var s' := Next(s, step);
    match step
    case Begin(w, req, _, _) => Retask(s, s', w, Executing(req, Leased));
    case BurnNonce(w) =>
      if s.tasks[w].req.token.nonce in s.db.burns {
        Retask(s, s', w, Executing(s.tasks[w].req, Leaving));
      } else {
        BurnKeeps(s, w);
      }
    case InsertRow(w) =>
      if s.tasks[w].req.Key() in s.db.attempts {
        Retask(s, s', w, Executing(s.tasks[w].req, Leaving));
      } else {
        InsertKeeps(s, w);
      }
    case Invoke(w, reply) => InvokeKeeps(s, w, reply);
    case Settle(w) =>
      var key := s.tasks[w].req.Key();
      assert TaskValid(s, s.tasks[w]);
      SetStateKeeps(s, key, if s.tasks[w].phase.ok then Succeeded else Failed);
      Retask(s.(db := s'.db), s', w, Executing(s.tasks[w].req, Leaving));
    case Leave(w) => Shrink(s, s');
    case Crash(w) => Shrink(s, s');
    case Advance(_) => Shrink(s, s');
    case ReconcileList(w, todo) => Retask(s, s', w, Reconciling(todo, false));
    case ReconcileProbe(w) =>
      assert TaskValid(s, s.tasks[w]);
      Retask(s, s', w, s'.tasks[w]);
    case ReconcileUpdate(w) =>
      assert TaskValid(s, s.tasks[w]);
      SetStateKeeps(s, s.tasks[w].todo[0], Reconciled);
      Retask(s.(db := s'.db), s', w, s'.tasks[w]);
    case ReconcileEnd(w) => Shrink(s, s');
  }

  lemma {:induction false} RunKeepsInv(s: World, steps: seq<Step>)
    requires Inv(s)
    ensures Inv(Run(s, steps))
    decreases |steps|
  {
    if steps != [] {
      if Enabled(s, steps[0]) {
        NextKeepsInv(s, steps[0]);
      }
      RunKeepsInv(Apply(s, steps[0]), steps[1..]);
    }
  }

  // ---- The promises ----

  /**
   * Whatever the interleaving, the crashes, the expiring leases and the reconcile
   * passes: no two adapter calls share an idempotency key or a nonce, and every
   * call has its attempt row and its burned nonce.
   */
  lemma AtMostOnce(steps: seq<Step>)
    ensures var s := Run(BOOT, steps);
            && CallsDistinct(s.calls)
            && (forall i :: 0 <= i < |s.calls| ==> s.calls[i].key in s.db.attempts && s.calls[i].nonce in s.db.burns)
  {
    RunKeepsInv(BOOT, steps);
  }

  /** A step that calls the adapter runs with the row already written, in flight, and the nonce already burned. */
  lemma WriteAhead(steps: seq<Step>, step: Step)
    requires Apply(Run(BOOT, steps), step).calls != Run(BOOT, steps).calls
    ensures var s := Run(BOOT, steps);
            && step.Invoke? && At(s, step.w, RowWritten)
            && s.tasks[step.w].req.Key() in InFlightKeys(s.db)
            && s.tasks[step.w].req.token.nonce in s.db.burns
            && Apply(s, step).calls == s.calls + [Call(s.tasks[step.w].req.Key(), s.tasks[step.w].req.token.nonce)]
  {
    RunKeepsInv(BOOT, steps);
    var s := Run(BOOT, steps);
    assert TaskValid(s, s.tasks[step.w]);
  }

  /** Rows, burns and the provider's memory only accumulate, and a settled row never returns to in_flight. */
  ghost predicate Accumulates(a: World, b: World) {
    && a.db.clock <= b.db.clock && a.db.burns <= b.db.burns
    && a.db.attempts.Keys <= b.db.attempts.Keys
    && SettledKeys(a.db) <= SettledKeys(b.db)
    && a.db.provider.Keys <= b.db.provider.Keys
    && a.calls <= b.calls
  }

  lemma NextAccumulates(s: World, step: Step)
    requires Enabled(s, step)
    ensures Accumulates(s, Next(s, step))
  {
  }

  lemma {:induction false} RunAccumulates(s: World, steps: seq<Step>)
    ensures Accumulates(s, Run(s, steps))
    decreases |steps|
  {
    if steps != [] {
      var t := Apply(s, steps[0]);
      if Enabled(s, steps[0]) {
        NextAccumulates(s, steps[0]);
      }
      RunAccumulates(t, steps[1..]);
      assert s.calls <= t.calls <= Run(t, steps[1..]).calls;
    }
  }

  // ---- Only an authorised request is called ----

  lemma {:induction false} RunJoin(s: World, a: seq<Step>, b: seq<Step>)
    ensures Run(s, a + b) == Run(Run(s, a), b)
    decreases |a|
  {
    hide Apply;
    if a == [] {
      assert a + b == b;
    } else {
      assert (a + b)[1..] == a[1..] + b;
      RunJoin(Apply(s, a[0]), a[1..], b);
    }
  }

  lemma RunLast(s: World, steps: seq<Step>)
    requires steps != []
    ensures var n := |steps| - 1; Run(s, steps) == Apply(Run(s, steps[..n]), steps[n])
  {
    hide Apply;
    var n := |steps| - 1;
    assert steps == steps[..n] + [steps[n]];
    RunJoin(s, steps[..n], [steps[n]]);
    assert Run(Apply(Run(s, steps[..n]), steps[n]), []) == Apply(Run(s, steps[..n]), steps[n]);
  }

  /** Step `k` of the run began this request, and it was enabled. */
  ghost predicate Began(steps: seq<Step>, k: nat, req: Request) {
    k < |steps| && steps[k].Begin? && steps[k].req == req && Enabled(Run(BOOT, steps[..k]), steps[k])
  }

  ghost predicate Begun(steps: seq<Step>, req: Request) {
    exists k :: Began(steps, k, req)
  }

  lemma BegunBefore(steps: seq<Step>, req: Request)
    requires steps != [] && Begun(steps[..|steps| - 1], req)
    ensures Begun(steps, req)
  {
    var k: nat :| Began(steps[..|steps| - 1], k, req);
    assert steps[..|steps| - 1][..k] == steps[..k];
    assert Began(steps, k, req);
  }

  ghost predicate CallOf(req: Request, call: Call) {
    call == Call(req.Key(), req.token.nonce)
  }

  ghost predicate CallBegun(steps: seq<Step>, call: Call) {
    exists req :: CallOf(req, call) && Begun(steps, req)
  }

  /** Every worker is at a request that was begun, and every call was made for one. */
  lemma {:induction false} CallsWereBegun(steps: seq<Step>)
    ensures var s := Run(BOOT, steps);
            && (forall w :: w in s.tasks && s.tasks[w].Executing? ==> Begun(steps, s.tasks[w].req))
            && (forall i :: 0 <= i < |s.calls| ==> CallBegun(steps, s.calls[i]))
    decreases |steps|
  {
    if steps != [] {
      var n := |steps| - 1;
      var s, step := Run(BOOT, steps[..n]), steps[n];
      CallsWereBegun(steps[..n]);
      RunLast(BOOT, steps);
      forall req | Begun(steps[..n], req) ensures Begun(steps, req) {
        BegunBefore(steps, req);
      }
      if Enabled(s, step) {
        if step.Begin? {
          assert Began(steps, n, step.req);
        }
        CallsBegunNext(steps, s, step);
      }
      forall i | 0 <= i < |s.calls| ensures CallBegun(steps, s.calls[i]) {
        assert CallBegun(steps[..n], s.calls[i]);
        var req :| CallOf(req, s.calls[i]) && Begun(steps[..n], req);
      }
    }
  }

  lemma CallsBegunNext(steps: seq<Step>, s: World, step: Step)
    requires Enabled(s, step) && (step.Begin? ==> Begun(steps, step.req))
    requires forall w :: w in s.tasks && s.tasks[w].Executing? ==> Begun(steps, s.tasks[w].req)
    ensures var s' := Next(s, step);
            && (forall w :: w in s'.tasks && s'.tasks[w].Executing? ==> Begun(steps, s'.tasks[w].req))
            && s.calls <= s'.calls
            && (forall i :: |s.calls| <= i < |s'.calls| ==> CallBegun(steps, s'.calls[i]))
  {
    hide Begun;
    if step.Invoke? {
      assert CallOf(s.tasks[step.w].req, Next(s, step).calls[|s.calls|]);
    }
  }

  /**
   * Over every run: each adapter call was begun, by a step of the run, for a supported
   * action, under a token that was signed, in time by the clock of that step, made out
   * for that action and those parameters, and good for the amount; with the lease
   * free, expired or the case's own.
   */
  lemma CallsAreAuthorised(steps: seq<Step>, i: nat) returns (k: nat)
    requires i < |Run(BOOT, steps).calls|
    ensures k < |steps| && steps[k].Begin?
    ensures var call, req, t := Run(BOOT, steps).calls[i], steps[k].req, steps[k].req.token;
            && call.key.caseId == req.caseId && call.key.actionId == req.actionId && call.key.attemptNo == req.attemptNo
            && call.key.paramsHash == req.paramsHash && call.nonce == t.nonce
            && t.signatureValid && t.actionId == req.actionId && t.paramsHash == req.paramsHash
            && (t.amountCap.Some? && req.amount.Some? ==> req.amount.value <= t.amountCap.value)
    ensures steps[k].cap.supported && !steps[k].cap.isSchedule
    ensures var db, o := Run(BOOT, steps[..k]).db, steps[k].req.obligationId;
            && db.clock <= steps[k].req.token.notAfter
            && (o !in db.locks || db.locks[o].expiry <= db.clock || db.locks[o].holder == steps[k].req.caseId)
  {
    CallsWereBegun(steps);
    assert CallBegun(steps, Run(BOOT, steps).calls[i]);
    var req :| CallOf(req, Run(BOOT, steps).calls[i]) && Begun(steps, req);
    k :| Began(steps, k, req);
  }

  // ---- Recovery at boot ----

  ghost predicate NoLiveExecutor(s: World) {
    forall w :: w in s.tasks ==> !s.tasks[w].Executing?
  }

  /** What one row looks like after a reconcile pass has dealt with it. */
  function ReconcileKey(db: Db, k: IdemKey): Db {
    if k in db.provider then SetState(db, k, Reconciled) else db
  }

  function ReconcileKeys(db: Db, todo: seq<IdemKey>): Db
    decreases |todo|
  {
    if todo == [] then db else ReconcileKeys(ReconcileKey(db, todo[0]), todo[1..])
  }

  lemma {:induction false} ReconcileKeysEffect(db: Db, todo: seq<IdemKey>)
    ensures var db' := ReconcileKeys(db, todo);
            && db'.attempts.Keys == db.attempts.Keys
            && db'.provider == db.provider && db'.burns == db.burns && db'.locks == db.locks && db'.clock == db.clock
            && (forall k :: k in db.attempts ==>
                  db'.attempts[k] == if k in todo && k in db.provider
                                     then db.attempts[k].(state := Reconciled, settledAt := Some(db.clock))
                                     else db.attempts[k])
    decreases |todo|
  {
    if todo != [] {
      ReconcileKeysEffect(ReconcileKey(db, todo[0]), todo[1..]);
      assert forall k :: k in todo <==> k == todo[0] || k in todo[1..];
    }
  }

  /**
   * After a crash, a pass that starts with no executor running and goes through the
   * in-flight rows leaves settled exactly the keys the provider received, and in
   * flight exactly the rows that were written and never received.
   */
  lemma BootReconcileIsExact(s: World, todo: seq<IdemKey>)
    requires Inv(s) && NoLiveExecutor(s)
    requires forall k :: k in todo <==> k in InFlightKeys(s.db)
    ensures var db := ReconcileKeys(s.db, todo);
            && SettledKeys(db) == s.db.provider.Keys
            && InFlightKeys(db) == s.db.attempts.Keys - s.db.provider.Keys
            && db.provider == s.db.provider
  {
    ReconcileKeysEffect(s.db, todo);
    var db := ReconcileKeys(s.db, todo);
    forall k ensures k in SettledKeys(db) <==> k in s.db.provider {
      if k in s.db.attempts && k !in todo {
        assert k in SettledKeys(s.db);
      }
    }
  }

  /** The steps of one reconcile pass over `todo`, by worker `w`, with nothing else running. */
  ghost function PassSteps(db: Db, w: Worker, todo: seq<IdemKey>): seq<Step>
    decreases |todo|
  {
    if todo == [] then [ReconcileEnd(w)]
    else if todo[0] in db.provider then [ReconcileProbe(w), ReconcileUpdate(w)] + PassSteps(ReconcileKey(db, todo[0]), w, todo[1..])
    else [ReconcileProbe(w)] + PassSteps(db, w, todo[1..])
  }

  lemma {:induction false} PassRuns(s: World, w: Worker, todo: seq<IdemKey>)
    requires w in s.tasks && s.tasks[w] == Reconciling(todo, false)
    ensures Run(s, PassSteps(s.db, w, todo)) == World(ReconcileKeys(s.db, todo), s.tasks - {w}, s.calls)
    decreases |todo|
  {
    var steps := PassSteps(s.db, w, todo);
    if todo == [] {
      assert Run(s, steps) == Run(Apply(s, steps[0]), steps[1..]) == Apply(s, steps[0]);
    } else {
      var s1 := Apply(s, ReconcileProbe(w));
      if todo[0] in s.db.provider {
        var s2 := Apply(s1, ReconcileUpdate(w));
        var rest := PassSteps(s2.db, w, todo[1..]);
        assert steps[1..] == [ReconcileUpdate(w)] + rest && steps[1..][1..] == rest;
        assert Run(s, steps) == Run(s1, steps[1..]) == Run(s2, rest);
        PassRuns(s2, w, todo[1..]);
        assert s2.tasks - {w} == s.tasks - {w};
      } else {
        assert steps[1..] == PassSteps(s1.db, w, todo[1..]);
        PassRuns(s1, w, todo[1..]);
        assert s1.tasks - {w} == s.tasks - {w};
      }
    }
  }

  lemma ReachableIsSound(steps: seq<Step>)
    ensures Inv(Run(BOOT, steps))
  {
    RunKeepsInv(BOOT, steps);
  }

  /** Losing one worker after another. */
  function CrashAll(ws: seq<Worker>): seq<Step> {
    if ws == [] then [] else [Crash(ws[0])] + CrashAll(ws[1..])
  }

  lemma {:induction false} CrashingLeaves(s: World, ws: seq<Worker>)
    ensures var s' := Run(s, CrashAll(ws));
            s'.db == s.db && s'.calls == s.calls && forall w :: w in s'.tasks <==> w in s.tasks && w !in ws
    decreases |ws|
  {
    if ws != [] {
      var s1 := Apply(s, Crash(ws[0]));
      assert CrashAll(ws)[1..] == CrashAll(ws[1..]) && CrashAll(ws)[0] == Crash(ws[0]);
      CrashingLeaves(s1, ws[1..]);
      assert forall w :: w in ws <==> w == ws[0] || w in ws[1..];
    }
  }

  /**
   * The same, of the step system: after any run everyone is lost, and then one worker
   * reconciles the rows in flight. No call is made, the settled rows are the keys the
   * provider received, and what is left in flight it never received.
   */
  lemma CrashAndReconcile(steps: seq<Step>, ws: seq<Worker>, w: Worker, todo: seq<IdemKey>)
    requires forall v :: v in Run(BOOT, steps).tasks ==> v in ws
    requires forall k :: k in todo <==> k in InFlightKeys(Run(BOOT, steps).db)
    ensures var s := Run(BOOT, steps); var crashed := Run(s, CrashAll(ws));
            var s' := Run(crashed, [ReconcileList(w, todo)] + PassSteps(s.db, w, todo));
            && crashed.db == s.db && crashed.tasks == map[] && s'.tasks == map[]
            && s'.calls == s.calls
            && s'.db.provider == s.db.provider
            && SettledKeys(s'.db) == s.db.provider.Keys
            && InFlightKeys(s'.db) == s.db.attempts.Keys - s.db.provider.Keys
  {
    hide SettledKeys, Inv;
    ReachableIsSound(steps);
    var s := Run(BOOT, steps);
    CrashingLeaves(s, ws);
    var crashed := Run(s, CrashAll(ws));
    RunKeepsInv(s, CrashAll(ws));
    assert crashed.tasks == map[];
    BootReconcileIsExact(crashed, todo);
    var listed := Apply(crashed, ReconcileList(w, todo));
    assert listed == World(s.db, map[w := Reconciling(todo, false)], s.calls);
    var all := [ReconcileList(w, todo)] + PassSteps(s.db, w, todo);
    assert all[1..] == PassSteps(s.db, w, todo);
    assert Run(crashed, all) == Run(listed, PassSteps(s.db, w, todo));
    PassRuns(listed, w, todo);
    assert listed.tasks - {w} == map[];
  }

  /** A lease taken by one case keeps another out for its whole time and not a millisecond longer. */
  lemma LeaseKeepsOthersOut(db: Db, o: Leases.ObligationId, holder: CaseId, other: CaseId, ttl: int, ms: nat)
    requires holder != other
    ensures var later := TakeLease(db, o, holder, ttl).(clock := db.clock + ms);
            (CanLease(later, o, other) <==> ms >= ttl) && CanLease(later, o, holder)
    ensures CanLease(DropLease(TakeLease(db, o, holder, ttl), o, holder), o, other)
  {
  }
}
