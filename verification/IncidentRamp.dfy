/** The staged release over whole runs: parking holds, the ramp ends, the breaker restores. */
module IncidentRamp {
  import opened Wrappers
  import opened StateMachine
  import opened CaseEvents
  import opened CaseFabric
  import opened FabricInvariant
  import opened SortedIds
  import opened Rounding
  import opened ScheduleRuns
  import opened Incidents
  import opened IncidentRuns

  /** The first `k` parked cases are parked, and are `k` different cases. */
  lemma ParkedCasesAreParked(b: Book, inc: IncidentId, k: nat)
    requires k <= |ParkedCases(b, inc)|
    ensures forall c :: c in ParkedCases(b, inc)[..k] ==> Parked(b, inc, c)
    ensures |Elements(ParkedCases(b, inc)[..k])| == k
  {
    var s := ParkedCases(b, inc);
    forall c | c in s[..k] ensures Parked(b, inc, c) {
      assert c in s;
    }
    AscendingCount(s[..k]);
  }

  // ---- What counts as healthy ----

  /** A better reading against the same baseline never trips the breaker where a worse one does not. */
  lemma BetterNeverTrips(observed: real, better: real, baseline: real, config: Config)
    requires observed <= better && Healthy(observed, baseline, config)
    ensures Healthy(better, baseline, config)
  {
  }

  /** As configured, nine tenths of the baseline is healthy and anything less is not; without a baseline there is nothing to fall below. */
  lemma NineTenthsIsHealthy(observed: real, baseline: real)
    ensures baseline != 0.0 ==> (Healthy(observed, baseline, DEFAULT_CONFIG) <==> 10.0 * observed >= 9.0 * baseline)
    ensures baseline == 0.0 ==> Healthy(observed, baseline, DEFAULT_CONFIG)
  {
  }

  // ---- One step of the ramp ----

  lemma AdvanceKeeps(b: Book, inc: IncidentId, draw: real, config: Config, now: int)
    requires BookInv(b) && b.fab.locked == map[] && inc in b.incidents && ParkedCases(b, inc) != []
    ensures var r := Advance(b, inc, draw, config, now);
            && BookInv(r.book)
            && (r.error.None? <==> NoneStopped(b.fab, Slice(b, inc, draw, config)))
            && ParkedSet(r.book, inc) == ParkedSet(b, inc) - Elements(Slice(b, inc, draw, config))
            && (r.error.None? ==> Kept(b, r.book.(incidents := b.incidents, inFlight := b.inFlight))
                                  && InFlight(r.book, inc) == Slice(b, inc, draw, config)
                                  && r.book.incidents ==
                                     b.incidents[inc := Incident(Releasing, b.incidents[inc].stage + 1, b.incidents[inc].closedAt)])
  {
    hide BookInv, ReleaseSlice, Sorted, SliceSize, NoneStopped;
    var slice := Slice(b, inc, draw, config);
    ParkedCasesAreParked(b, inc, |slice|);
    ReleaseKeeps(b, inc, slice, now);
    var r1 := ReleaseSlice(b, inc, slice, now);
    if r1.error.None? {
      AdvancedKeeps(b, r1.book, Advance(b, inc, draw, config, now).book, inc, slice, now);
    }
  }

  /** The slice was parked by this incident, so recording it as in flight makes nobody else hold it. */
  lemma AdvancedKeeps(b: Book, b1: Book, b2: Book, inc: IncidentId, slice: seq<CaseId>, now: int)
    requires BookInv(b) && Kept(b, b1) && inc in b.incidents && forall c :: c in slice ==> Parked(b, inc, c)
    requires forall m :: m in b.members && b1.members[m].None? ==> b.members[m].None?
    requires b2 == SetIncident(b1.(inFlight := b1.inFlight[inc := slice]), inc, Releasing, Some(b.incidents[inc].stage + 1), now)
    ensures BookInv(b2) && Kept(b, b2.(incidents := b.incidents, inFlight := b.inFlight))
    ensures ParkedSet(b2, inc) == ParkedSet(b1, inc)
  {
    forall c | c in slice ensures (inc, c) in b1.members {
    }
    SetFrame(b, b1, b2, inc);
    assert b2.(incidents := b.incidents, inFlight := b.inFlight) == b1;
  }

  /** Changing an incident's own row, or the breaker's slice to cases the incident holds anyway, breaks nothing. */
  lemma SetFrame(b: Book, b1: Book, b2: Book, inc: IncidentId)
    requires BookInv(b) && BookInv(b1) && b2.fab == b1.fab && b2.members == b1.members
    requires forall j :: j != inc ==> InFlight(b2, j) == InFlight(b1, j)
    requires FlightOk(b2, inc) && forall j, d :: Held(b2, j, d) ==> Held(b, j, d)
    ensures BookInv(b2)
  {
    forall m | m in b2.members ensures MemberOk(b2, m) {
      assert MemberOk(b1, m);
    }
    forall j ensures FlightOk(b2, j) {
      assert FlightOk(b1, j);
    }
    forall d ensures OneIncident(b2, d) {
      HeldFrame(b, b2, d);
    }
  }

  lemma BreakKeeps(b: Book, inc: IncidentId, now: int)
    requires BookInv(b) && b.fab.locked == map[] && inc in b.incidents
    ensures var r := Break(b, inc, now);
            && BookInv(r.book)
            && (r.error.None? <==> NoneStopped(b.fab, InFlight(b, inc)))
            && (r.error.None? ==> ParkedSet(r.book, inc) == ParkedSet(b, inc) + LiveAmong(b.fab, InFlight(b, inc))
                                  && r.book.incidents == b.incidents[inc := Incident(IncidentOpen, 0, b.incidents[inc].closedAt)]
                                  && InFlight(r.book, inc) == [])
  {
    assert FlightOk(b, inc);
    ReparkKeeps(b, inc, InFlight(b, inc), now);
    var r, r1 := Break(b, inc, now), ReparkAll(b, inc, InFlight(b, inc), now);
    if r1.error.None? {
      SetFrame(r1.book, r1.book, r.book, inc);
    }
  }

  // ---- Slices ----

  lemma ScaleMonotone(a: real, x: real, y: real)
    requires 0.0 <= a && x <= y
    ensures a * x <= a * y
  {
    NotBelowZero(a, y - x);
    Distributes(a, y, x);
  }

  lemma NotBelowZero(a: real, b: real)
    requires 0.0 <= a && 0.0 <= b
    ensures 0.0 <= a * b
  {
  }

  lemma Distributes(a: real, y: real, x: real)
    ensures a * (y - x) == a * y - a * x
  {
  }

  lemma ScaledRound(a: real, x: real, y: real)
    requires 0.0 <= a && x <= y
    ensures Round(a * x) <= Round(a * y)
  {
    ScaleMonotone(a, x, y);
  }

  lemma Scaled(u: real, j: real)
    requires 0.0 <= j && u <= 1.0
    ensures u * j <= j
  {
    NotBelowZero(1.0 - u, j);
    assert (1.0 - u) * j == j - u * j;
  }

  lemma AroundOne(u: real, j: real)
    requires 0.0 <= j && -1.0 <= u <= 1.0
    ensures 1.0 - j <= Around(u, j) <= 1.0 + j
  {
    var product := u * j;
    assert product <= j by {
      Scaled(u, j);
    }
    assert -j <= product by {
      Scaled(-u, j);
      assert -u * j == -product;
    }
    assert Around(u, j) == 1.0 + product;
  }

  /** The jitter stays within its fraction of one. */
  lemma JitterRange(draw: real, config: Config)
    requires 0.0 <= draw < 1.0 && 0.0 <= config.jitterFraction
    ensures 1.0 - config.jitterFraction <= Jitter(draw, config) <= 1.0 + config.jitterFraction
  {
    hide Around;
    var u := draw * 2.0 - 1.0;
    AroundOne(u, config.jitterFraction);
    assert Jitter(draw, config) == Around(u, config.jitterFraction);
  }

  /** A share of the parked cases times a factor, rounded, and at least one. */
  function Rounded(share: real, factor: real): int {
    if Round(share * factor) < 1 then 1 else Round(share * factor)
  }

  lemma CappedBounds(n: nat, share: real, lo: real, jitter: real, hi: real)
    requires 0.0 <= share && lo <= jitter <= hi
    ensures Capped(n, share, jitter) <= Rounded(share, hi)
    ensures Capped(n, share, jitter) == n || Rounded(share, lo) <= Capped(n, share, jitter)
  {
    ScaledRound(share, lo, jitter);
    ScaledRound(share, jitter, hi);
  }

  lemma BeforeLast(n: nat, stage: nat)
    requires stage < 3
    ensures Fraction(stage) != 1.0 && 0.0 <= Share(n, stage)
  {
  }

  /** A stage before the last releases its fraction give or take the jitter, at least one case and at most all. */
  lemma SliceBounds(n: nat, stage: nat, draw: real, config: Config)
    requires stage < 3 && 0.0 <= draw < 1.0 && 0.0 <= config.jitterFraction
    ensures var k := SliceSize(n, stage, draw, config);
            && k <= n
            && k <= Rounded(Share(n, stage), 1.0 + config.jitterFraction)
            && (k == n || Rounded(Share(n, stage), 1.0 - config.jitterFraction) <= k)
  {
    hide Capped, Fraction, Share, Jitter, Rounded;
    BeforeLast(n, stage);
    JitterRange(draw, config);
    CappedBounds(n, Share(n, stage), 1.0 - config.jitterFraction, Jitter(draw, config), 1.0 + config.jitterFraction);
  }

  /** As configured: between 0.8 and 1.2 of the stage's share. */
  lemma DefaultSliceBounds(n: nat, stage: nat, draw: real)
    requires stage < 3 && 0.0 <= draw < 1.0
    ensures var k := SliceSize(n, stage, draw, DEFAULT_CONFIG);
            k <= Rounded(Share(n, stage), 1.2) && (k == n || Rounded(Share(n, stage), 0.8) <= k)
  {
    hide SliceSize, Share, Rounded;
    SliceBounds(n, stage, draw, DEFAULT_CONFIG);
  }

  lemma StageShares(n: nat)
    ensures Share(n, 0) == n as real * 0.05 && Share(n, 1) == n as real * 0.15 && Share(n, 2) == n as real * 0.4
    ensures forall stage :: stage >= 3 ==> Fraction(stage) == 1.0
  {
  }

  lemma RoundedProduct(n: real, share: real, fraction: real, factor: real, whole: real)
    requires share == n * fraction && whole == fraction * factor
    ensures Rounded(share, factor) == Rounded(n, whole)
  {
    assert share * factor == n * (fraction * factor);
  }

  /** Stage by stage, as configured: a twentieth, three twentieths and two fifths of what is parked, a fifth more or less, and then the rest. */
  lemma DefaultSlices(n: nat, draw: real)
    requires 0.0 <= draw < 1.0
    ensures var k := SliceSize(n, 0, draw, DEFAULT_CONFIG); k <= Rounded(n as real, 0.06) && (k == n || Rounded(n as real, 0.04) <= k)
    ensures var k := SliceSize(n, 1, draw, DEFAULT_CONFIG); k <= Rounded(n as real, 0.18) && (k == n || Rounded(n as real, 0.12) <= k)
    ensures var k := SliceSize(n, 2, draw, DEFAULT_CONFIG); k <= Rounded(n as real, 0.48) && (k == n || Rounded(n as real, 0.32) <= k)
    ensures forall stage :: stage >= 3 ==> SliceSize(n, stage, draw, DEFAULT_CONFIG) == n
  {
    StageShares(n);
    hide Rounded, Share, Capped, Jitter, Fraction;
    DefaultSliceBounds(n, 0, draw);
    DefaultSliceBounds(n, 1, draw);
    DefaultSliceBounds(n, 2, draw);
    RoundedProduct(n as real, Share(n, 0), 0.05, 1.2, 0.06);
    RoundedProduct(n as real, Share(n, 0), 0.05, 0.8, 0.04);
    RoundedProduct(n as real, Share(n, 1), 0.15, 1.2, 0.18);
    RoundedProduct(n as real, Share(n, 1), 0.15, 0.8, 0.12);
    RoundedProduct(n as real, Share(n, 2), 0.4, 1.2, 0.48);
    RoundedProduct(n as real, Share(n, 2), 0.4, 0.8, 0.32);
  }

  // ---- The ramp ends ----

  /** A healthy step that is not refused: the engine may have run, with the incident tables as they were. */
  ghost predicate HealthyStep(b: Book, b': Book, inc: IncidentId) {
    exists fab: Tables, draw: real, config: Config, now: int ::
      HealthyStepBy(b, b', inc, fab, draw, config, now)
  }

  ghost predicate HealthyStepBy(b: Book, b': Book, inc: IncidentId, fab: Tables, draw: real, config: Config, now: int) {
    && inc in b.incidents && BookInv(b.(fab := fab)) && fab.locked == map[]
    && Advance(b.(fab := fab), inc, draw, config, now) == Outcome(b', None)
  }

  /** One healthy step: it closes an empty incident, and otherwise releases at least one case, and at the last stage every case. */
  lemma HealthyStepEffect(b: Book, b': Book, inc: IncidentId)
    requires HealthyStep(b, b', inc)
    ensures inc in b'.incidents
    ensures ParkedSet(b, inc) == {} ==> b'.incidents[inc].state.Closed? && ParkedSet(b', inc) == {}
    ensures ParkedSet(b, inc) != {} ==> ParkedSet(b', inc) < ParkedSet(b, inc)
    ensures ParkedSet(b, inc) != {} ==> b'.incidents[inc] == Incident(Releasing, b.incidents[inc].stage + 1, b.incidents[inc].closedAt)
    ensures b.incidents[inc].stage >= 3 ==> ParkedSet(b', inc) == {}
  {
    hide Sorted, BookInv, ReleaseSlice;
    var fab, draw, config, now :| HealthyStepBy(b, b', inc, fab, draw, config, now);
    var b0 := b.(fab := fab);
    assert ParkedSet(b0, inc) == ParkedSet(b, inc);
    if ParkedCases(b0, inc) == [] {
      assert ParkedSet(b, inc) == {};
    } else {
      AdvanceKeeps(b0, inc, draw, config, now);
      var parked, k := ParkedCases(b0, inc), |Slice(b0, inc, draw, config)|;
      ParkedCasesAreParked(b0, inc, k);
      assert parked[0] in parked && parked[0] in Slice(b0, inc, draw, config);
      if b.incidents[inc].stage >= 3 {
        assert Slice(b0, inc, draw, config) == parked;
      }
    }
  }

  ghost predicate HealthyChain(bs: seq<Book>, inc: IncidentId) {
    forall k :: 0 <= k < |bs| - 1 ==> HealthyStep(bs[k], bs[k + 1], inc)
  }

  lemma {:induction false} ChainStage(bs: seq<Book>, inc: IncidentId, k: nat)
    requires HealthyChain(bs, inc) && k < |bs| && |bs| > 1
    requires inc in bs[0].incidents && bs[0].incidents[inc].stage == 0
    ensures inc in bs[k].incidents && (ParkedSet(bs[k], inc) == {} || bs[k].incidents[inc].stage >= k)
  {
    if k == 0 {
    } else {
      ChainStage(bs, inc, k - 1);
      assert HealthyStep(bs[k - 1], bs[k - 1 + 1], inc);
      HealthyStepEffect(bs[k - 1], bs[k], inc);
    }
  }

  /** From stage zero, five healthy steps close the incident, however many cases were parked and whatever the draws. */
  lemma ClosesWithinFive(bs: seq<Book>, inc: IncidentId)
    requires |bs| == 6 && HealthyChain(bs, inc) && inc in bs[0].incidents && bs[0].incidents[inc].stage == 0
    ensures inc in bs[5].incidents && bs[5].incidents[inc].state.Closed? && ParkedSet(bs[5], inc) == {}
  {
    ChainStage(bs, inc, 3);
    ChainStage(bs, inc, 4);
    assert HealthyStep(bs[3], bs[3 + 1], inc) && HealthyStep(bs[4], bs[4 + 1], inc);
    HealthyStepEffect(bs[3], bs[4], inc);
    HealthyStepEffect(bs[4], bs[5], inc);
  }

  // ---- The breaker ----

  /**
   * A release followed by an unhealthy reading puts the parked set back exactly,
   * less the cases of the slice that have closed; whatever the engine did to the
   * cases in between, so long as the incident tables were left alone.
   */
  lemma BreakerRestores(b: Book, released: Book, b1: Book, b2: Book, inc: IncidentId, slice: seq<CaseId>,
                        draw: real, config: Config, now: int, later: int)
    requires BookInv(b) && b.fab.locked == map[] && inc in b.incidents && ParkedCases(b, inc) != []
    requires slice == Slice(b, inc, draw, config) && Advance(b, inc, draw, config, now) == Outcome(released, None)
    requires b1 == released.(fab := b1.fab) && BookInv(b1) && b1.fab.locked == map[]
    requires inc in b1.incidents && Break(b1, inc, later) == Outcome(b2, None)
    ensures ParkedSet(b2, inc) == ParkedSet(b, inc) - (Elements(slice) - LiveAmong(b1.fab, slice))
    ensures inc in b2.incidents && b2.incidents[inc] == Incident(IncidentOpen, 0, b.incidents[inc].closedAt) && InFlight(b2, inc) == []
  {
    AdvanceKeeps(b, inc, draw, config, now);
    BreakKeeps(b1, inc, later);
    ParkedCasesAreParked(b, inc, |slice|);
    RestoreSets(b, inc, slice, LiveAmong(b1.fab, slice), ParkedSet(b1, inc), ParkedSet(b2, inc));
  }

  lemma RestoreSets(b: Book, inc: IncidentId, slice: seq<CaseId>, live: set<CaseId>, during: set<CaseId>, after: set<CaseId>)
    requires forall c :: c in slice ==> Parked(b, inc, c)
    requires during == ParkedSet(b, inc) - Elements(slice) && live <= Elements(slice) && after == during + live
    ensures after == ParkedSet(b, inc) - (Elements(slice) - live)
  {
  }
}
