/**
 * The obligation lease (packages/engine/src/obligation-lease.ts): one row per
 * obligation, taken by upsert, expiring by the clock, dropped by its holder.
 */
module ObligationLeases {
  import opened Wrappers

  type ObligationId = nat
  type Holder = nat
  type Process = nat

  datatype Lock = Lock(holder: Holder, expiry: int)

  type LockTable = map<ObligationId, Lock>

  /** The upsert takes a free lease, an expired one, or one's own. */
  predicate CanTake(locks: LockTable, o: ObligationId, holder: Holder, now: int) {
    o !in locks || locks[o].expiry <= now || locks[o].holder == holder
  }

  function Take(locks: LockTable, o: ObligationId, holder: Holder, expiry: int): LockTable {
    locks[o := Lock(holder, expiry)]
  }

  function Drop(locks: LockTable, o: ObligationId, holder: Holder): LockTable {
    if o in locks && locks[o].holder == holder then locks - {o} else locks
  }

  /** A drop takes away the holder's own row and no other. */
  lemma DropTakesOwn(locks: LockTable, o: ObligationId, holder: Holder)
    ensures var locks' := Drop(locks, o, holder);
            && !(o in locks' && locks'[o].holder == holder)
            && (forall p :: p in locks' ==> p in locks && locks'[p] == locks[p])
            && (forall p :: p in locks && !(p == o && locks[p].holder == holder) ==> p in locks')
  {
  }

  class ObligationLease {
    const ttl: int
    var locks: LockTable

    constructor (ttl: int)
      ensures locks == map[] && this.ttl == ttl
    {
      this.ttl := ttl;
      locks := map[];
    }

    method TryAcquire(o: ObligationId, holder: Holder, now: int) returns (ok: bool)
      modifies this
      ensures ok <==> o !in old(locks) || old(locks)[o].expiry <= now || old(locks)[o].holder == holder
      ensures ok == CanTake(old(locks), o, holder, now)
      ensures locks == if ok then Take(old(locks), o, holder, now + ttl) else old(locks)
    {
      ok := o !in locks || locks[o].expiry <= now || locks[o].holder == holder;
      if ok {
        locks := locks[o := Lock(holder, now + ttl)];
      }
    }

    method Release(o: ObligationId, holder: Holder)
      modifies this
      ensures locks == Drop(old(locks), o, holder)
    {
      if o in locks && locks[o].holder == holder {
        locks := locks - {o};
      }
    }

    /**
     * Runs work under the lease. `during` is the lock table as the work leaves it:
     * meanwhile the lease may have run out and others may have come and gone.
     * Whether the work returns or throws, the holder has no lease on the obligation
     * afterwards, and nobody else has lost one.
     */
    method WithLease<T, E>(o: ObligationId, holder: Holder, now: int, work: Result<T, E>, during: LockTable)
      returns (r: Option<Result<T, E>>)
      modifies this
      ensures r == if CanTake(old(locks), o, holder, now) then Some(work) else None
      ensures r.Some? <==> o !in old(locks) || old(locks)[o].expiry <= now || old(locks)[o].holder == holder
      ensures r.None? ==> locks == old(locks)
      ensures !(o in locks && locks[o].holder == holder)
      ensures r.Some? ==> forall p :: p in during && !(p == o && during[p].holder == holder) ==> p in locks && locks[p] == during[p]
      ensures r.Some? ==> locks.Keys <= during.Keys
    {
      var ok := TryAcquire(o, holder, now);
      if !ok {
        return None;
      }
      locks := during;
      Release(o, holder);
      return Some(work);
    }
  }

  // ---- Any number of processes around the lease ----

  /** A process inside its guarded work. */
  datatype Section = Section(o: ObligationId, holder: Holder, entered: int)

  datatype World = World(clock: int, locks: LockTable, sections: map<Process, Section>)

  /** `Exit` is the release in the finally block, on return and on throw; a crash skips it. */
  datatype Step =
    | Enter(p: Process, o: ObligationId, holder: Holder)
    | Exit(p: Process)
    | Crash(p: Process)
    | Advance(ms: nat)

  /** Nobody else is inside on this obligation under the same name. */
  ghost predicate DistinctHolder(s: World, o: ObligationId, holder: Holder) {
    forall q :: q in s.sections && s.sections[q].o == o ==> s.sections[q].holder != holder
  }

  ghost predicate Enabled(s: World, step: Step) {
    match step
    case Enter(p, o, holder) => p !in s.sections && CanTake(s.locks, o, holder, s.clock)
    case Exit(p) => p in s.sections
    case Crash(p) => p in s.sections
    case Advance(_) => true
  }

  ghost function Apply(s: World, step: Step, ttl: nat): World {
    if !Enabled(s, step) then s
    else
      match step
      case Enter(p, o, holder) =>
        World(s.clock, Take(s.locks, o, holder, s.clock + ttl), s.sections[p := Section(o, holder, s.clock)])
      case Exit(p) => World(s.clock, Drop(s.locks, s.sections[p].o, s.sections[p].holder), s.sections - {p})
      case Crash(p) => s.(sections := s.sections - {p})
      case Advance(ms) => s.(clock := s.clock + ms)
  }

  ghost function Run(s: World, steps: seq<Step>, ttl: nat): World
    decreases |steps|
  {
    if steps == [] then s else Run(Apply(s, steps[0], ttl), steps[1..], ttl)
  }

  /** Along the run, nobody enters under a name that is already inside on that obligation. */
  ghost predicate DistinctAlong(s: World, steps: seq<Step>, ttl: nat)
    decreases |steps|
  {
    steps == []
    || ((steps[0].Enter? ==> DistinctHolder(s, steps[0].o, steps[0].holder))
        && DistinctAlong(Apply(s, steps[0], ttl), steps[1..], ttl))
  }

  /** Along the run, the clock never reaches the end of a lease whose work is still going on. */
  ghost predicate ShortWork(s: World, steps: seq<Step>, ttl: nat)
    decreases |steps|
  {
    (forall p :: p in s.sections ==> s.clock < s.sections[p].entered + ttl)
    && (steps == [] || ShortWork(Apply(s, steps[0], ttl), steps[1..], ttl))
  }

  ghost predicate HoldsLease(s: World, ttl: nat, x: Section) {
    s.clock < x.entered + ttl ==> x.o in s.locks && s.locks[x.o] == Lock(x.holder, x.entered + ttl)
  }

  /** One of the two had used up its whole lease before the other came in. */
  predicate Apart(x: Section, y: Section, ttl: nat) {
    x.entered + ttl <= y.entered || y.entered + ttl <= x.entered
  }

  ghost predicate Inv(s: World, ttl: nat) {
    && (forall p :: p in s.sections ==> s.sections[p].entered <= s.clock && HoldsLease(s, ttl, s.sections[p]))
    && (forall p, q :: p in s.sections && q in s.sections && p != q && s.sections[p].o == s.sections[q].o ==>
          s.sections[p].holder != s.sections[q].holder && Apart(s.sections[p], s.sections[q], ttl))
  }

  lemma ApplyKeepsInv(s: World, step: Step, ttl: nat)
    requires Inv(s, ttl) && (step.Enter? ==> DistinctHolder(s, step.o, step.holder))
    ensures Inv(Apply(s, step, ttl), ttl)
  {
    var s' := Apply(s, step, ttl);
    forall p | p in s'.sections ensures s'.sections[p].entered <= s'.clock && HoldsLease(s', ttl, s'.sections[p]) {
      if p in s.sections {
        assert HoldsLease(s, ttl, s.sections[p]);
      }
    }
  }

  /**
   * With distinct holders, two processes can be inside on one obligation only when
   * one of them outlived its lease before the other entered; and whoever is inside
   * with time left holds the row, so no late release has taken it away.
   */
  lemma {:induction false} OverlapOnlyAfterExpiry(s: World, steps: seq<Step>, ttl: nat)
    requires Inv(s, ttl) && DistinctAlong(s, steps, ttl)
    ensures Inv(Run(s, steps, ttl), ttl)
    decreases |steps|
  {
    if steps != [] {
      ApplyKeepsInv(s, steps[0], ttl);
      OverlapOnlyAfterExpiry(Apply(s, steps[0], ttl), steps[1..], ttl);
    }
  }

  const START := World(0, map[], map[])

  lemma {:induction false} ShortWorkEnds(s: World, steps: seq<Step>, ttl: nat)
    requires ShortWork(s, steps, ttl)
    ensures forall p :: p in Run(s, steps, ttl).sections ==> Run(s, steps, ttl).clock < Run(s, steps, ttl).sections[p].entered + ttl
    decreases |steps|
  {
    if steps != [] {
      ShortWorkEnds(Apply(s, steps[0], ttl), steps[1..], ttl);
    }
  }

  lemma TwoInsideApart(s: World, ttl: nat, p: Process, q: Process)
    requires Inv(s, ttl) && p in s.sections && q in s.sections && s.sections[p].o == s.sections[q].o
    ensures p == q || s.sections[p].entered + ttl <= s.sections[q].entered || s.sections[q].entered + ttl <= s.sections[p].entered
  {
  }

  /** With distinct holders and work shorter than the lease, the guarded sections of one obligation never overlap. */
  lemma MutualExclusion(steps: seq<Step>, ttl: nat, p: Process, q: Process)
    requires DistinctAlong(START, steps, ttl) && ShortWork(START, steps, ttl)
    requires var s := Run(START, steps, ttl); p in s.sections && q in s.sections && s.sections[p].o == s.sections[q].o
    ensures p == q
  {
    OverlapOnlyAfterExpiry(START, steps, ttl);
    ShortWorkEnds(START, steps, ttl);
    TwoInsideApart(Run(START, steps, ttl), ttl, p, q);
  }

  /**
   * A release that comes late, from a holder whose lease has run out, frees nobody
   * else's: whoever is inside on that obligation with time left keeps the row.
   */
  lemma LateReleaseFreesNothing(steps: seq<Step>, ttl: nat, p: Process, q: Process)
    requires DistinctAlong(START, steps, ttl)
    requires var s := Run(START, steps, ttl);
             p in s.sections && q in s.sections && p != q && s.sections[p].o == s.sections[q].o
             && s.clock < s.sections[q].entered + ttl
    ensures var s := Run(START, steps, ttl); var o := s.sections[q].o;
            && o in Apply(s, Exit(p), ttl).locks
            && Apply(s, Exit(p), ttl).locks[o] == Lock(s.sections[q].holder, s.sections[q].entered + ttl)
  {
    OverlapOnlyAfterExpiry(START, steps, ttl);
    assert HoldsLease(Run(START, steps, ttl), ttl, Run(START, steps, ttl).sections[q]);
  }

  lemma RunOfFour(s: World, a: Step, b: Step, c: Step, d: Step, ttl: nat)
    ensures Run(s, [a, b, c, d], ttl) == Apply(Apply(Apply(Apply(s, a, ttl), b, ttl), c, ttl), d, ttl)
  {
    assert [a, b, c, d][1..] == [b, c, d] && [b, c, d][1..] == [c, d] && [c, d][1..] == [d] && [d][1..] == [];
    assert Run(s, [a, b, c, d], ttl) == Run(Apply(s, a, ttl), [b, c, d], ttl);
    var s2 := Apply(Apply(s, a, ttl), b, ttl);
    assert Run(Apply(s, a, ttl), [b, c, d], ttl) == Run(s2, [c, d], ttl);
    assert Run(s2, [c, d], ttl) == Run(Apply(s2, c, ttl), [d], ttl);
    assert Run(Apply(s2, c, ttl), [d], ttl) == Run(Apply(Apply(s2, c, ttl), d, ttl), [d][1..], ttl);
  }

  /**
   * The lease is reentrant per holder, so two workers of one case share a name: the
   * first to leave drops the row, and a third walks in while the second is inside
   * with its time not used up.
   */
  lemma SameHolderBreaksExclusion(ttl: nat, o: ObligationId, h: Holder, other: Holder)
    requires 0 < ttl && h != other
    ensures var s := Run(START, [Enter(1, o, h), Enter(2, o, h), Exit(1), Enter(3, o, other)], ttl);
            && 2 in s.sections && 3 in s.sections && s.sections[2].o == s.sections[3].o == o
            && s.clock < s.sections[2].entered + ttl && o in s.locks && s.locks[o].holder == other
  {
    RunOfFour(START, Enter(1, o, h), Enter(2, o, h), Exit(1), Enter(3, o, other), ttl);
    var s2 := Apply(Apply(START, Enter(1, o, h), ttl), Enter(2, o, h), ttl);
    assert s2 == World(0, map[o := Lock(h, ttl)], map[1 := Section(o, h, 0), 2 := Section(o, h, 0)]);
    assert Apply(s2, Exit(1), ttl) == World(0, map[], map[2 := Section(o, h, 0)]);
  }

  lemma RunOfThree(s: World, a: Step, b: Step, c: Step, ttl: nat)
    ensures Run(s, [a, b, c], ttl) == Apply(Apply(Apply(s, a, ttl), b, ttl), c, ttl)
  {
    assert [a, b, c][1..] == [b, c] && [b, c][1..] == [c] && [c][1..] == [];
    assert Run(s, [a, b, c], ttl) == Run(Apply(s, a, ttl), [b, c], ttl);
    assert Run(Apply(s, a, ttl), [b, c], ttl) == Run(Apply(Apply(s, a, ttl), b, ttl), [c], ttl);
    assert Run(Apply(Apply(s, a, ttl), b, ttl), [c], ttl) == Run(Apply(Apply(Apply(s, a, ttl), b, ttl), c, ttl), [c][1..], ttl);
  }

  /**
   * The condition on overlapping is reached: another holder is let in beside work that
   * is still going on exactly when the lease has run its whole time.
   */
  lemma OutlivedLeaseIsTaken(ttl: nat, ms: nat, o: ObligationId, h: Holder, other: Holder)
    requires h != other && 0 < ttl
    ensures var s := Run(START, [Enter(1, o, h), Advance(ms), Enter(2, o, other)], ttl);
            && 1 in s.sections && s.clock == ms && (2 in s.sections <==> ms >= ttl)
            && o in s.locks && s.locks[o].holder == if ms >= ttl then other else h
  {
    RunOfThree(START, Enter(1, o, h), Advance(ms), Enter(2, o, other), ttl);
    assert Apply(START, Enter(1, o, h), ttl) == World(0, map[o := Lock(h, ttl)], map[1 := Section(o, h, 0)]);
  }

  /** Leaving frees the obligation at once; a crash leaves the lease to run out. */
  lemma LeavingFrees(ttl: nat, o: ObligationId, h: Holder, other: Holder)
    requires h != other && 0 < ttl
    ensures var s := Run(START, [Enter(1, o, h), Exit(1), Enter(2, o, other)], ttl); 1 !in s.sections && 2 in s.sections
    ensures var s := Run(START, [Enter(1, o, h), Crash(1), Enter(2, o, other)], ttl); s.sections == map[] && o in s.locks
  {
    RunOfThree(START, Enter(1, o, h), Exit(1), Enter(2, o, other), ttl);
    RunOfThree(START, Enter(1, o, h), Crash(1), Enter(2, o, other), ttl);
    var s1 := World(0, map[o := Lock(h, ttl)], map[1 := Section(o, h, 0)]);
    assert Apply(START, Enter(1, o, h), ttl) == s1;
    assert Apply(s1, Exit(1), ttl) == World(0, map[], map[]);
    assert Apply(s1, Crash(1), ttl) == World(0, s1.locks, map[]);
  }
}
