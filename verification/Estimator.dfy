/** The attribution estimate against a randomised holdout (packages/attribution/src/estimator.ts). */
module Estimators {
  import opened Wrappers
  import opened Rounding
  import opened Mulberry
  import opened Statistics

  datatype CaseOutcome = CaseOutcome(
    caseId: string,
    holdout: bool,
    recovered: bool,
    amountPaise: nat,
    recoveredAfterMs: Option<int>,
    merchantDunning: bool)

  type Outcomes = seq<CaseOutcome>

  datatype Band = From1k | From5k | Over25k | Under1k

  /** In the order their names sort. */
  const BANDS: seq<Band> := [From1k, From5k, Over25k, Under1k]

  const MIN_BAND_HOLDOUT := 20

  function ValueBand(amountPaise: int): Band {
    if amountPaise <= 100_000 then Under1k
    else if amountPaise <= 500_000 then From1k
    else if amountPaise <= 2_500_000 then From5k
    else Over25k
  }

  /** Applied to both arms alike. */
  predicate IsExcluded(o: CaseOutcome, naturalWindowMs: int) {
    o.merchantDunning || (o.recovered && o.recoveredAfterMs.Some? && o.recoveredAfterMs.value < naturalWindowMs)
  }

  // ---- Folds ----

  function Keep(s: Outcomes, f: CaseOutcome -> bool): (r: Outcomes)
    ensures |r| <= |s|
  {
    if s == [] then [] else Keep(s[..|s| - 1], f) + if f(s[|s| - 1]) then [s[|s| - 1]] else []
  }

  function Amount(s: Outcomes): nat {
    if s == [] then 0 else Amount(s[..|s| - 1]) + s[|s| - 1].amountPaise
  }

  function Recovered(s: Outcomes): Outcomes {
    Keep(s, (o: CaseOutcome) => o.recovered)
  }

  function InBand(s: Outcomes, band: Band): Outcomes {
    Keep(s, (o: CaseOutcome) => ValueBand(o.amountPaise) == band)
  }

  function Mean(s: Outcomes): real {
    if s == [] then 0.0 else Amount(s) as real / |s| as real
  }

  // ---- The figures ----

  /** A lift, times the cases it is claimed on, times what one of them is worth. */
  function Scaled(lift: real, n: nat, mean: real): real {
    lift * n as real * mean
  }

  function RateVariance(rate: real, n: nat): real {
    if n == 0 then 0.0 else rate * (1.0 - rate) / n as real
  }

  datatype Stratum = Stratum(band: Band, treatedN: nat, holdoutN: nat, lift: real, meanValue: int, incremental: int, pooledFallback: bool)

  function StratumOf(treated: Outcomes, holdout: Outcomes, pooledLift: real, band: Band): Stratum {
    var t, h := InBand(treated, band), InBand(holdout, band);
    var pooled := |h| < MIN_BAND_HOLDOUT;
    var lift := if pooled then pooledLift else Rate(|Recovered(t)|, |t|) - Rate(|Recovered(h)|, |h|);
    var mean := if Recovered(t) != [] then Mean(Recovered(t)) else Mean(t);
    Stratum(band, |t|, |h|, lift, Round(mean), Round(Scaled(lift, |t|, mean)), pooled)
  }

  function Strata(treated: Outcomes, holdout: Outcomes, pooledLift: real, bands: seq<Band>): seq<Stratum> {
    if bands == [] then []
    else
      var rest := Strata(treated, holdout, pooledLift, bands[..|bands| - 1]);
      var band := bands[|bands| - 1];
      if InBand(treated, band) == [] && InBand(holdout, band) == [] then rest
      else rest + [StratumOf(treated, holdout, pooledLift, band)]
  }

  function StratifiedTotal(strata: seq<Stratum>): int {
    if strata == [] then 0 else StratifiedTotal(strata[..|strata| - 1]) + strata[|strata| - 1].incremental
  }

  datatype Figures = Figures(
    treatedN: nat,
    holdoutN: nat,
    treatedRecovered: nat,
    holdoutRecovered: nat,
    lift: real,
    liftCi: (real, real),
    grossRecovered: nat,
    incremental: int,
    strata: seq<Stratum>,
    stratified: int,
    meanValue: int)

  function FiguresOf(treated: Outcomes, holdout: Outcomes, sqrt: real -> real): Figures {
    var tRate, hRate := Rate(|Recovered(treated)|, |treated|), Rate(|Recovered(holdout)|, |holdout|);
    var lift := tRate - hRate;
    var half := 1.96 * sqrt(RateVariance(tRate, |treated|) + RateVariance(hRate, |holdout|));
    var strata := Strata(treated, holdout, lift, BANDS);
    Figures(|treated|, |holdout|, |Recovered(treated)|, |Recovered(holdout)|, lift, (lift - half, lift + half),
            Amount(Recovered(treated)), Round(Scaled(lift, |treated|, Mean(treated))),
            strata, StratifiedTotal(strata), Round(Mean(treated)))
  }

  function Arm(outcomes: Outcomes, naturalWindowMs: int, holdout: bool): Outcomes {
    Keep(outcomes, (o: CaseOutcome) => !IsExcluded(o, naturalWindowMs) && o.holdout == holdout)
  }

  function Excluded(outcomes: Outcomes, naturalWindowMs: int, holdout: bool): Outcomes {
    Keep(outcomes, (o: CaseOutcome) => IsExcluded(o, naturalWindowMs) && o.holdout == holdout)
  }

  function Estimate(outcomes: Outcomes, naturalWindowMs: int, sqrt: real -> real): Figures {
    FiguresOf(Arm(outcomes, naturalWindowMs, false), Arm(outcomes, naturalWindowMs, true), sqrt)
  }

  lemma {:induction false} KeepSplit(a: Outcomes, b: Outcomes, f: CaseOutcome -> bool)
    ensures Keep(a + b, f) == Keep(a, f) + Keep(b, f)
    decreases |b|
  {
    if b == [] {
      assert a + b == a;
    } else {
      var n := |b| - 1;
      assert (a + b)[..|a + b| - 1] == a + b[..n];
      KeepSplit(a, b[..n], f);
    }
  }

  lemma KeepDropsOne(a: Outcomes, x: CaseOutcome, b: Outcomes, f: CaseOutcome -> bool)
    ensures Keep(a + [x] + b, f) == Keep(a, f) + (if f(x) then [x] else []) + Keep(b, f)
    ensures Keep(a + b, f) == Keep(a, f) + Keep(b, f)
  {
    KeepSplit(a + [x], b, f);
    KeepSplit(a, [x], f);
    KeepSplit(a, b, f);
    assert [x][..0] == [];
  }

  /** An excluded outcome, in either arm and anywhere in the input, moves no figure; it is counted in its own arm. */
  lemma ExcludedMovesNothing(a: Outcomes, x: CaseOutcome, b: Outcomes, naturalWindowMs: int, sqrt: real -> real)
    requires IsExcluded(x, naturalWindowMs)
    ensures Arm(a + [x] + b, naturalWindowMs, false) == Arm(a + b, naturalWindowMs, false)
    ensures Arm(a + [x] + b, naturalWindowMs, true) == Arm(a + b, naturalWindowMs, true)
    ensures Estimate(a + [x] + b, naturalWindowMs, sqrt) == Estimate(a + b, naturalWindowMs, sqrt)
    ensures |Excluded(a + [x] + b, naturalWindowMs, x.holdout)| == |Excluded(a + b, naturalWindowMs, x.holdout)| + 1
    ensures |Excluded(a + [x] + b, naturalWindowMs, !x.holdout)| == |Excluded(a + b, naturalWindowMs, !x.holdout)|
  {
    KeepDropsOne(a, x, b, (o: CaseOutcome) => !IsExcluded(o, naturalWindowMs) && o.holdout == false);
    KeepDropsOne(a, x, b, (o: CaseOutcome) => !IsExcluded(o, naturalWindowMs) && o.holdout == true);
    KeepDropsOne(a, x, b, (o: CaseOutcome) => IsExcluded(o, naturalWindowMs) && o.holdout == x.holdout);
    KeepDropsOne(a, x, b, (o: CaseOutcome) => IsExcluded(o, naturalWindowMs) && o.holdout == !x.holdout);
  }

  /** Every outcome is counted once: treated, held out, or excluded from one of the two. */
  lemma {:induction false} ArmsAddUp(outcomes: Outcomes, w: int)
    ensures |Arm(outcomes, w, false)| + |Arm(outcomes, w, true)| + |Excluded(outcomes, w, false)| + |Excluded(outcomes, w, true)|
            == |outcomes|
  {
    if outcomes != [] {
      ArmsAddUp(outcomes[..|outcomes| - 1], w);
    }
  }

  lemma {:induction false} BandsAddUp(s: Outcomes)
    ensures |InBand(s, From1k)| + |InBand(s, From5k)| + |InBand(s, Over25k)| + |InBand(s, Under1k)| == |s|
  {
    if s != [] {
      BandsAddUp(s[..|s| - 1]);
    }
  }

  function TreatedIn(strata: seq<Stratum>): nat {
    if strata == [] then 0 else TreatedIn(strata[..|strata| - 1]) + strata[|strata| - 1].treatedN
  }

  function HoldoutIn(strata: seq<Stratum>): nat {
    if strata == [] then 0 else HoldoutIn(strata[..|strata| - 1]) + strata[|strata| - 1].holdoutN
  }

  function SizeIn(s: Outcomes, bands: seq<Band>): nat {
    if bands == [] then 0 else SizeIn(s, bands[..|bands| - 1]) + |InBand(s, bands[|bands| - 1])|
  }

  lemma {:induction false} StrataCount(treated: Outcomes, holdout: Outcomes, lift: real, bands: seq<Band>)
    ensures TreatedIn(Strata(treated, holdout, lift, bands)) == SizeIn(treated, bands)
    ensures HoldoutIn(Strata(treated, holdout, lift, bands)) == SizeIn(holdout, bands)
  {
    if bands != [] {
      StrataCount(treated, holdout, lift, bands[..|bands| - 1]);
    }
  }

  /** The strata of the report split both arms: no case is in two bands or in none. */
  lemma StrataAddUp(treated: Outcomes, holdout: Outcomes, sqrt: real -> real)
    ensures TreatedIn(FiguresOf(treated, holdout, sqrt).strata) == |treated|
    ensures HoldoutIn(FiguresOf(treated, holdout, sqrt).strata) == |holdout|
  {
    StrataCount(treated, holdout, FiguresOf(treated, holdout, sqrt).lift, BANDS);
    AllBands(treated);
    AllBands(holdout);
  }

  lemma SizeMore(s: Outcomes, bands: seq<Band>, band: Band, more: seq<Band>)
    requires more == bands + [band]
    ensures SizeIn(s, more) == SizeIn(s, bands) + |InBand(s, band)|
  {
  }

  lemma AllBands(s: Outcomes)
    ensures SizeIn(s, BANDS) == |s|
  {
    hide InBand;
    BandsAddUp(s);
    SizeMore(s, [], From1k, [From1k]);
    SizeMore(s, [From1k], From5k, [From1k, From5k]);
    SizeMore(s, [From1k, From5k], Over25k, [From1k, From5k, Over25k]);
    SizeMore(s, [From1k, From5k, Over25k], Under1k, BANDS);
  }

  // ---- The bootstrap ----

  lemma IndexInRange(u: real, n: nat)
    requires n > 0 && 0.0 <= u < 1.0
    ensures 0 <= (u * n as real).Floor < n
  {
  }

  /** A draw in [0, 1), scaled to an index below `n`. */
  function IndexAt(u: real, n: nat): (i: nat)
    requires n > 0 && 0.0 <= u < 1.0
    ensures i < n
  {
    IndexInRange(u, n);
    (u * n as real).Floor
  }

  /** The pick made by the draw after `k` others. */
  function PickAt(arm: Outcomes, seed: int, k: nat): (o: CaseOutcome)
    requires arm != []
    ensures o in arm
  {
    arm[IndexAt(Output(StateAfter(seed, k + 1)), |arm|)]
  }

  /** The first `n` picks of a resample of an arm, from the `from`-th draw on. */
  function Resample(arm: Outcomes, seed: int, from: nat, n: nat): (r: Outcomes)
    requires arm != []
    ensures |r| == n && forall o :: o in r ==> o in arm
  {
    if n == 0 then [] else Resample(arm, seed, from, n - 1) + [PickAt(arm, seed, from + n - 1)]
  }

  /** The draws that `i` resamples use up. */
  function DrawsBefore(i: nat, each: nat): nat {
    if i == 0 then 0 else DrawsBefore(i - 1, each) + each
  }

  /** The statistic of the `i`-th resample of both arms. */
  function Sample(treated: Outcomes, holdout: Outcomes, seed: int, i: nat): real
    requires treated != [] && holdout != []
  {
    var from := DrawsBefore(i, |treated| + |holdout|);
    var t := Resample(treated, seed, from, |treated|);
    var h := Resample(holdout, seed, from + |treated|, |holdout|);
    Statistic(|Recovered(t)|, |treated|, |Recovered(h)|, |holdout|, Amount(t))
  }

  function Statistic(tRecovered: nat, tN: nat, hRecovered: nat, hN: nat, tValue: nat): real
    requires tN > 0 && hN > 0
  {
    (tRecovered as real / tN as real - hRecovered as real / hN as real) * tN as real * (tValue as real / tN as real)
  }

  function Samples(treated: Outcomes, holdout: Outcomes, seed: int, n: nat): (r: seq<real>)
    requires treated != [] && holdout != []
    ensures |r| == n
  {
    if n == 0 then [] else Samples(treated, holdout, seed, n - 1) + [Sample(treated, holdout, seed, n - 1)]
  }

  function At(sorted: seq<real>, share: real): real
    requires 0.0 <= share < 1.0
  {
    if sorted == [] then 0.0 else sorted[IndexAt(share, |sorted|)]
  }

  function Interval(samples: seq<real>): (int, int) {
    var sorted := SortBy(samples, (x: real) => x);
    (Round(At(sorted, 0.025)), Round(At(sorted, 0.975)))
  }

  function IncrementalCi(treated: Outcomes, holdout: Outcomes, seed: int, n: nat): (int, int) {
    if treated == [] || holdout == [] then (0, 0) else Interval(Samples(treated, holdout, seed, n))
  }

  // ---- Bounds ----

  lemma {:induction false} AmountBound(s: Outcomes, most: nat)
    requires forall o :: o in s ==> o.amountPaise <= most
    ensures Amount(s) <= |s| * most
  {
    if s != [] {
      var n := |s| - 1;
      assert s[n] in s;
      AmountBound(s[..n], most);
      assert (n + 1) * most == n * most + most;
    }
  }

  lemma Unit(k: nat, n: nat)
    requires k <= n && n > 0
    ensures 0.0 <= k as real / n as real <= 1.0
  {
  }

  lemma Shrink(l: real, v: real)
    requires -1.0 <= l <= 1.0 && v >= 0.0
    ensures -v <= l * v <= v
  {
  }

  lemma StatisticBound(tRecovered: nat, tN: nat, hRecovered: nat, hN: nat, tValue: nat)
    requires tN > 0 && hN > 0 && tRecovered <= tN && hRecovered <= hN
    ensures Within(Statistic(tRecovered, tN, hRecovered, hN, tValue), tValue)
  {
    Unit(tRecovered, tN);
    Unit(hRecovered, hN);
    var l := tRecovered as real / tN as real - hRecovered as real / hN as real;
    Undo(l, tN as real, tValue as real);
    Shrink(l, tValue as real);
  }

  lemma Undo(l: real, n: real, v: real)
    requires n > 0.0
    ensures l * n * (v / n) == l * v
  {
  }

  /** -b <= x <= b */
  predicate Within(x: real, b: nat) {
    -(b as real) <= x <= b as real
  }

  lemma WithinMore(x: real, b: nat, b': nat)
    requires Within(x, b) && b <= b'
    ensures Within(x, b')
  {
  }

  /** No resample of the arm is worth more than `b`. */
  ghost predicate WorthAtMost(arm: Outcomes, b: nat) {
    arm != [] ==> forall seed, from :: Amount(Resample(arm, seed, from, |arm|)) <= b
  }

  lemma SampleBound(treated: Outcomes, holdout: Outcomes, seed: int, i: nat, b: nat)
    requires treated != [] && holdout != [] && WorthAtMost(treated, b)
    ensures Within(Sample(treated, holdout, seed, i), b)
  {
    hide Statistic, Within, PickAt, DrawsBefore;
    var from := DrawsBefore(i, |treated| + |holdout|);
    var t := Resample(treated, seed, from, |treated|);
    var h := Resample(holdout, seed, from + |treated|, |holdout|);
    StatisticBound(|Recovered(t)|, |treated|, |Recovered(h)|, |holdout|, Amount(t));
    WithinMore(Sample(treated, holdout, seed, i), Amount(t), b);
  }

  lemma {:induction false} SamplesBound(treated: Outcomes, holdout: Outcomes, seed: int, n: nat, b: nat)
    requires treated != [] && holdout != [] && WorthAtMost(treated, b)
    ensures forall x :: x in Samples(treated, holdout, seed, n) ==> Within(x, b)
  {
    hide Sample, Within;
    if n > 0 {
      SamplesBound(treated, holdout, seed, n - 1, b);
      SampleBound(treated, holdout, seed, n - 1, b);
    }
  }

  lemma RoundMonotone(x: real, y: real)
    requires x <= y
    ensures Round(x) <= Round(y)
  {
  }

  lemma IndexMonotone(u: real, v: real, n: nat)
    requires n > 0 && 0.0 <= u <= v < 1.0
    ensures IndexAt(u, n) <= IndexAt(v, n)
  {
    assert (v - u) * n as real >= 0.0;
  }

  lemma IntervalBound(samples: seq<real>, bound: nat)
    requires forall x :: x in samples ==> Within(x, bound)
    ensures 0 - bound <= Interval(samples).0 <= Interval(samples).1 <= bound
  {
    hide IndexAt;
    var id := (x: real) => x;
    var sorted := SortBy(samples, id);
    SortByPermutes(samples, id);
    PermutedItems(sorted, samples);
    var lo, hi := At(sorted, 0.025), At(sorted, 0.975);
    if sorted != [] {
      IndexMonotone(0.025, 0.975, |sorted|);
      SortedAt(sorted, id, IndexAt(0.025, |sorted|), IndexAt(0.975, |sorted|));
      assert lo in samples && hi in samples;
    }
    RoundMonotone(-(bound as real), lo);
    RoundMonotone(lo, hi);
    RoundMonotone(hi, bound as real);
  }

  lemma SortedAt(s: seq<real>, id: real -> real, i: nat, j: nat)
    requires SortedBy(s, id) && i <= j < |s| && forall x :: id(x) == x
    ensures s[i] <= s[j]
  {
  }

  /** Whatever the seed and however many samples: the interval is ordered and bounded by every treated case at the largest amount. */
  lemma CiIsOrderedAndBounded(treated: Outcomes, holdout: Outcomes, seed: int, n: nat, most: nat)
    requires forall o :: o in treated ==> o.amountPaise <= most
    ensures var (lo, hi) := IncrementalCi(treated, holdout, seed, n);
            0 - |treated| * most <= lo <= hi <= |treated| * most
  {
    hide Within, Samples, Interval;
    if treated != [] && holdout != [] {
      forall s, from ensures Amount(Resample(treated, s, from, |treated|)) <= |treated| * most {
        AmountBound(Resample(treated, s, from, |treated|), most);
      }
      SamplesBound(treated, holdout, seed, n, |treated| * most);
      IntervalBound(Samples(treated, holdout, seed, n), |treated| * most);
    }
  }

  // ---- As it runs ----

  lemma ResampleMore(arm: Outcomes, seed: int, from: nat, j: nat)
    requires arm != []
    ensures var o := PickAt(arm, seed, from + j);
            && |Recovered(Resample(arm, seed, from, j + 1))| == |Recovered(Resample(arm, seed, from, j))| + (if o.recovered then 1 else 0)
            && Amount(Resample(arm, seed, from, j + 1)) == Amount(Resample(arm, seed, from, j)) + o.amountPaise
  {
  }

  lemma OneDraw(seed: int, k: nat)
    ensures StateAfter(seed, k + 1) == NextState(StateAfter(seed, k))
  {
  }

  /** Resamples one arm: how many of the picks had recovered, and what they were worth. */
  method PickArm(arm: Outcomes, rand: Generator, ghost seed: int, ghost from: nat) returns (recovered: nat, value: nat)
    requires arm != [] && rand.a == StateAfter(seed, from)
    modifies rand
    ensures rand.a == StateAfter(seed, from + |arm|)
    ensures recovered == |Recovered(Resample(arm, seed, from, |arm|))| && value == Amount(Resample(arm, seed, from, |arm|))
  {
    hide Output, NextState, IndexAt, Recovered, Amount, StateAfter, PickAt, Resample;
    recovered, value := 0, 0;
    NothingRecovered(arm, seed, from);
    for j := 0 to |arm|
      invariant rand.a == StateAfter(seed, from + j)
      invariant recovered == |Recovered(Resample(arm, seed, from, j))| && value == Amount(Resample(arm, seed, from, j))
    {
      OneDraw(seed, from + j);
      ResampleMore(arm, seed, from, j);
      var u := rand.Draw();
      var pick := arm[IndexAt(u, |arm|)];
      PickOf(arm, seed, from + j);
      assert pick == PickAt(arm, seed, from + j);
      if pick.recovered {
        recovered := recovered + 1;
      }
      value := value + pick.amountPaise;
    }
  }

  lemma PickOf(arm: Outcomes, seed: int, k: nat)
    requires arm != []
    ensures PickAt(arm, seed, k) == arm[IndexAt(Output(StateAfter(seed, k + 1)), |arm|)]
  {
    hide Output, IndexAt;
  }

  lemma NothingRecovered(arm: Outcomes, seed: int, from: nat)
    requires arm != []
    ensures |Recovered(Resample(arm, seed, from, 0))| == 0 && Amount(Resample(arm, seed, from, 0)) == 0
  {
  }

  /** Resamples both arms and recomputes the statistic that is reported. */
  method OneSample(treated: Outcomes, holdout: Outcomes, rand: Generator, ghost seed: int, ghost i: nat) returns (x: real)
    requires treated != [] && holdout != [] && rand.a == StateAfter(seed, DrawsBefore(i, |treated| + |holdout|))
    modifies rand
    ensures x == Sample(treated, holdout, seed, i)
    ensures rand.a == StateAfter(seed, DrawsBefore(i + 1, |treated| + |holdout|))
  {
    hide Statistic, StateAfter, Recovered, Amount, Resample;
    ghost var from := DrawsBefore(i, |treated| + |holdout|);
    var tRecovered, tValue := PickArm(treated, rand, seed, from);
    var hRecovered, hValue := PickArm(holdout, rand, seed, from + |treated|);
    x := Statistic(tRecovered, |treated|, hRecovered, |holdout|, tValue);
  }

  method BootstrapIncremental(treated: Outcomes, holdout: Outcomes, seed: int, bootstrapSamples: nat) returns (ci: (int, int))
    ensures ci == IncrementalCi(treated, holdout, seed, bootstrapSamples)
  {
    hide Sample, Interval, StateAfter;
    if |treated| == 0 || |holdout| == 0 {
      return (0, 0);
    }
    var rand := new Generator(seed);
    var samples: seq<real> := [];
    for i := 0 to bootstrapSamples
      invariant fresh(rand) && rand.a == StateAfter(seed, DrawsBefore(i, |treated| + |holdout|))
      invariant samples == Samples(treated, holdout, seed, i)
    {
      var x := OneSample(treated, holdout, rand, seed, i);
      samples := samples + [x];
    }
    return Interval(samples);
  }
}
