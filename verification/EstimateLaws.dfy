/** What the figures of the attribution report mean, in terms of the cases they are drawn from. */
module EstimateLaws {
  import opened Wrappers
  import opened Rounding
  import opened Mulberry
  import opened Statistics
  import opened Estimators

  // ---- Rounding ----

  /** The nearest whole number, and the upper one of two. */
  lemma Nearest(x: real)
    ensures Round(x) as real - 0.5 <= x < Round(x) as real + 0.5
  {
  }

  // ---- Which cases are counted ----

  lemma {:induction false} KeepCounts(s: Outcomes, f: CaseOutcome -> bool, o: CaseOutcome)
    ensures multiset(Keep(s, f))[o] == if f(o) then multiset(s)[o] else 0
  {
    if s != [] {
      var n := |s| - 1;
      KeepCounts(s[..n], f, o);
      assert s == s[..n] + [s[n]];
    }
  }

  /**
   * An arm has exactly its own cases, as often as they were reported, less those the
   * merchant's dunning collected and those that recovered within the natural window;
   * those are counted as excluded, whichever arm they are in.
   */
  lemma ArmIff(outcomes: Outcomes, window: int, holdout: bool, o: CaseOutcome)
    ensures var natural := o.merchantDunning || (o.recovered && o.recoveredAfterMs.Some? && o.recoveredAfterMs.value < window);
            && multiset(Arm(outcomes, window, holdout))[o] == (if o.holdout == holdout && !natural then multiset(outcomes)[o] else 0)
            && multiset(Excluded(outcomes, window, holdout))[o] == (if o.holdout == holdout && natural then multiset(outcomes)[o] else 0)
  {
    KeepCounts(outcomes, (x: CaseOutcome) => !IsExcluded(x, window) && x.holdout == holdout, o);
    KeepCounts(outcomes, (x: CaseOutcome) => IsExcluded(x, window) && x.holdout == holdout, o);
  }

  lemma RecoveredIff(s: Outcomes, o: CaseOutcome)
    ensures multiset(Recovered(s))[o] == if o.recovered then multiset(s)[o] else 0
  {
    KeepCounts(s, (x: CaseOutcome) => x.recovered, o);
  }

  /** Bands are bounded at a thousand, five thousand and twenty-five thousand rupees, each bound included below it. */
  lemma BandsAre(amount: int)
    ensures ValueBand(amount) == Under1k <==> amount <= 100000
    ensures ValueBand(amount) == From1k <==> 100000 < amount <= 500000
    ensures ValueBand(amount) == From5k <==> 500000 < amount <= 2500000
    ensures ValueBand(amount) == Over25k <==> 2500000 < amount
  {
  }

  lemma InBandIff(s: Outcomes, band: Band, o: CaseOutcome)
    ensures multiset(InBand(s, band))[o] == if ValueBand(o.amountPaise) == band then multiset(s)[o] else 0
  {
    KeepCounts(s, (x: CaseOutcome) => ValueBand(x.amountPaise) == band, o);
  }

  // ---- Sums ----

  lemma {:induction false} AmountSplit(a: Outcomes, b: Outcomes)
    ensures Amount(a + b) == Amount(a) + Amount(b)
    decreases |b|
  {
    if b == [] {
      assert a + b == a;
    } else {
      var n := |b| - 1;
      assert (a + b)[..|a + b| - 1] == a + b[..n];
      AmountSplit(a, b[..n]);
    }
  }

  lemma AmountOfOne(o: CaseOutcome)
    ensures Amount([o]) == o.amountPaise && Amount([]) == 0
  {
    assert [o][..0] == [];
  }

  lemma {:induction false} StratifiedSplit(a: seq<Stratum>, b: seq<Stratum>)
    ensures StratifiedTotal(a + b) == StratifiedTotal(a) + StratifiedTotal(b)
    decreases |b|
  {
    if b == [] {
      assert a + b == a;
    } else {
      var n := |b| - 1;
      assert (a + b)[..|a + b| - 1] == a + b[..n];
      StratifiedSplit(a, b[..n]);
    }
  }

  /** The stratified figure is the sum of the strata's, each counted once. */
  lemma StratifiedOfOne(x: Stratum)
    ensures StratifiedTotal([x]) == x.incremental && StratifiedTotal([]) == 0
  {
    assert [x][..0] == [];
  }

  // ---- The headline ----

  lemma Quotient(x: real, n: real, q: real)
    requires n != 0.0 && q == x / n
    ensures q * n == x
  {
  }

  lemma ClearQuotients(a: real, n: real, b: real, m: real, p: real, q: real)
    requires p * n == a && q * m == b
    ensures (p - q) * (n * m) == a * m - b * n
  {
    assert (p - q) * (n * m) == (p * n) * m - (q * m) * n;
  }

  lemma ScaledMean(l: real, n: nat, total: real, mean: real)
    requires mean * n as real == total
    ensures Scaled(l, n, mean) == l * total
  {
    assert l * n as real * mean == l * (mean * n as real);
  }

  lemma RateIs(k: nat, n: nat)
    requires n > 0
    ensures Rate(k, n) * n as real == k as real
  {
    Quotient(k as real, n as real, Rate(k, n));
  }

  lemma MeanIs(s: Outcomes)
    requires s != []
    ensures Mean(s) * |s| as real == Amount(s) as real
  {
    Quotient(Amount(s) as real, |s| as real, Mean(s));
  }

  /** The figures by name. */
  lemma FiguresAre(treated: Outcomes, holdout: Outcomes, sqrt: real -> real)
    ensures var f := FiguresOf(treated, holdout, sqrt); var a, b := |Recovered(treated)|, |Recovered(holdout)|;
            && f.treatedN == |treated| && f.holdoutN == |holdout| && f.treatedRecovered == a && f.holdoutRecovered == b
            && f.lift == Rate(a, |treated|) - Rate(b, |holdout|)
            && f.incremental == Round(Scaled(f.lift, |treated|, Mean(treated)))
            && f.grossRecovered == Amount(Recovered(treated)) && f.meanValue == Round(Mean(treated))
            && f.stratified == StratifiedTotal(f.strata)
            && var se := sqrt(RateVariance(Rate(a, |treated|), |treated|) + RateVariance(Rate(b, |holdout|), |holdout|));
               f.liftCi == (f.lift - 1.96 * se, f.lift + 1.96 * se)
  {
    hide Strata, Recovered, Amount, StratifiedTotal, Round, Scaled, RateVariance, Rate, Mean;
  }

  /**
   * The lift is the difference of the two recovery rates, and the headline is the lift
   * times what the treated cases were worth altogether, to the nearest paisa. Gross
   * recovery is what the recovered treated cases were worth, and is not the headline.
   */
  lemma Headline(treated: Outcomes, holdout: Outcomes, sqrt: real -> real)
    requires treated != [] && holdout != []
    ensures var f := FiguresOf(treated, holdout, sqrt); var n, m := |treated|, |holdout|;
            && f.treatedN == n && f.holdoutN == m
            && f.treatedRecovered == |Recovered(treated)| && f.holdoutRecovered == |Recovered(holdout)|
            && f.lift * (n as real * m as real) == f.treatedRecovered as real * m as real - f.holdoutRecovered as real * n as real
            && f.incremental as real - 0.5 <= f.lift * Amount(treated) as real < f.incremental as real + 0.5
            && f.grossRecovered == Amount(Recovered(treated))
            && f.stratified == StratifiedTotal(f.strata)
  {
    hide FiguresOf, Recovered, Amount, StratifiedTotal, Round, Scaled, RateVariance, Rate, Mean;
    var f := FiguresOf(treated, holdout, sqrt);
    var a, b := |Recovered(treated)|, |Recovered(holdout)|;
    FiguresAre(treated, holdout, sqrt);
    RateIs(a, |treated|);
    RateIs(b, |holdout|);
    ClearQuotients(a as real, |treated| as real, b as real, |holdout| as real, Rate(a, |treated|), Rate(b, |holdout|));
    MeanIs(treated);
    ScaledMean(f.lift, |treated|, Amount(treated) as real, Mean(treated));
    Nearest(Scaled(f.lift, |treated|, Mean(treated)));
  }

  /** The value at risk that is reported is the average over the treated cases, to the nearest paisa. */
  lemma ValueAtRisk(treated: Outcomes, holdout: Outcomes, sqrt: real -> real, mean: real)
    requires treated != [] && mean * |treated| as real == Amount(treated) as real
    ensures var v := FiguresOf(treated, holdout, sqrt).meanValue; v as real - 0.5 <= mean < v as real + 0.5
  {
    hide FiguresOf, Recovered, Amount, StratifiedTotal, Round, Scaled, RateVariance, Rate, Mean;
    FiguresAre(treated, holdout, sqrt);
    MeanIs(treated);
    assert |treated| > 0 && |treated| as real > 0.0;
    SameQuotient(mean, Mean(treated), |treated| as real, Amount(treated) as real);
    Nearest(mean);
  }

  lemma SameQuotient(p: real, q: real, n: real, x: real)
    requires n > 0.0 && p * n == x && q * n == x
    ensures p == q
  {
    var d := p - q;
    assert d * n == p * n - q * n;
    if d > 0.0 {
      Positive(d, n, d * n);
    } else if d < 0.0 {
      Positive(-d, n, -(d * n));
    }
  }

  /** Without treated or without held-out cases, their rate counts as none. */
  lemma EmptyArms(treated: Outcomes, holdout: Outcomes, sqrt: real -> real)
    ensures treated == [] ==> FiguresOf(treated, holdout, sqrt).incremental == 0 && FiguresOf(treated, holdout, sqrt).grossRecovered == 0
    ensures treated != [] && holdout == [] ==>
              FiguresOf(treated, holdout, sqrt).lift * |treated| as real == |Recovered(treated)| as real
  {
    hide FiguresOf, Strata, StratifiedTotal, RateVariance;
    FiguresAre(treated, holdout, sqrt);
    if treated == [] {
      assert Recovered(treated) == [];
      RoundOfNothing();
    } else {
      RateIs(|Recovered(treated)|, |treated|);
    }
  }

  lemma RoundOfNothing()
    ensures Round(0.0) == 0
  {
  }

  /** Where treatment makes no difference there is nothing to claim. */
  lemma NoDifferenceNoClaim(s: Outcomes, sqrt: real -> real)
    ensures FiguresOf(s, s, sqrt).lift == 0.0 && FiguresOf(s, s, sqrt).incremental == 0
  {
    hide FiguresOf, Recovered, Amount, Rate, Mean, RateVariance, StratifiedTotal;
    FiguresAre(s, s, sqrt);
    assert Scaled(0.0, |s|, Mean(s)) == 0.0;
    RoundOfNothing();
  }

  lemma Positive(a: real, b: real, product: real)
    requires a > 0.0 && b > 0.0 && product == a * b
    ensures product > 0.0
  {
  }

  lemma SquaresDiffer(x: real, y: real)
    requires 0.0 <= x < y
    ensures x * x != y * y
  {
    var d, t := y - x, y + x;
    Positive(d, t, d * t);
    assert d * t == y * y - x * x;
  }

  lemma SameRoot(x: real, y: real)
    requires x >= 0.0 && y >= 0.0 && x * x == y * y
    ensures x == y
  {
    if x < y {
      SquaresDiffer(x, y);
    } else if y < x {
      SquaresDiffer(y, x);
    }
  }

  /**
   * The interval lies evenly around the lift, 1.96 standard errors either way, where
   * the square of the standard error is the sum of the variances p(1-p)/n of the rates.
   */
  lemma LiftInterval(treated: Outcomes, holdout: Outcomes, sqrt: real -> real, p: real, q: real, se: real)
    requires treated != [] && holdout != []
    requires p * |treated| as real == |Recovered(treated)| as real && q * |holdout| as real == |Recovered(holdout)| as real
    requires se >= 0.0 && se * se == p * (1.0 - p) / |treated| as real + q * (1.0 - q) / |holdout| as real
    requires sqrt(se * se) >= 0.0 && sqrt(se * se) * sqrt(se * se) == se * se
    ensures var f := FiguresOf(treated, holdout, sqrt); f.liftCi == (p - q - 1.96 * se, p - q + 1.96 * se)
  {
    hide FiguresOf, Recovered, Amount, Round, Scaled, RateVariance, Rate, Mean, StratifiedTotal;
    var a, b, n, m := |Recovered(treated)|, |Recovered(holdout)|, |treated|, |holdout|;
    FiguresAre(treated, holdout, sqrt);
    SameRate(p, a, n);
    SameRate(q, b, m);
    VarianceOfRate(p, n);
    VarianceOfRate(q, m);
    SameRoot(sqrt(se * se), se);
  }

  lemma SameRate(p: real, k: nat, n: nat)
    requires n > 0 && p * n as real == k as real
    ensures p == Rate(k, n)
  {
    hide Rate;
    RateIs(k, n);
    SameQuotient(p, Rate(k, n), n as real, k as real);
  }

  lemma VarianceOfRate(p: real, n: nat)
    requires n > 0
    ensures RateVariance(p, n) == p * (1.0 - p) / n as real
  {
  }

  // ---- The strata ----

  /**
   * A band with fewer than twenty held-out cases borrows the pooled lift and says so;
   * any other takes the difference of its own rates.
   */
  lemma StratumLift(treated: Outcomes, holdout: Outcomes, pooled: real, band: Band)
    ensures var x := StratumOf(treated, holdout, pooled, band); var t, h := InBand(treated, band), InBand(holdout, band);
            && x.band == band && x.treatedN == |t| && x.holdoutN == |h|
            && (x.pooledFallback <==> |h| < 20) && (|h| < 20 ==> x.lift == pooled)
            && (|h| >= 20 && t != [] ==>
                  x.lift * (|t| as real * |h| as real) == |Recovered(t)| as real * |h| as real - |Recovered(h)| as real * |t| as real)
            && (|h| >= 20 && t == [] ==> x.lift * |h| as real == -(|Recovered(h)| as real))
  {
    hide InBand, Recovered, Amount, Round, Mean, Rate, Scaled;
    var t, h := InBand(treated, band), InBand(holdout, band);
    if |h| >= 20 {
      RateIs(|Recovered(h)|, |h|);
      if t != [] {
        RateIs(|Recovered(t)|, |t|);
        ClearQuotients(|Recovered(t)| as real, |t| as real, |Recovered(h)| as real, |h| as real,
                       Rate(|Recovered(t)|, |t|), Rate(|Recovered(h)|, |h|));
      } else {
        NothingRecovers(t);
      }
    }
  }

  lemma NothingRecovers(s: Outcomes)
    requires s == []
    ensures Rate(|Recovered(s)|, |s|) == 0.0
  {
  }

  /** A band is priced at what the cases that recovered in it were worth on average, or all of them if none did. */
  lemma StratumPrice(treated: Outcomes, holdout: Outcomes, pooled: real, band: Band, mean: real)
    requires var t := InBand(treated, band); var priced := if Recovered(t) != [] then Recovered(t) else t;
             mean * |priced| as real == Amount(priced) as real && (priced == [] ==> mean == 0.0)
    ensures var x := StratumOf(treated, holdout, pooled, band); var t := InBand(treated, band);
            && x.meanValue as real - 0.5 <= mean < x.meanValue as real + 0.5
            && x.incremental as real - 0.5 <= x.lift * |t| as real * mean < x.incremental as real + 0.5
  {
    hide InBand, Recovered, Amount, Round, Scaled, Mean, Rate;
    var x, t := StratumOf(treated, holdout, pooled, band), InBand(treated, band);
    var priced := if Recovered(t) != [] then Recovered(t) else t;
    if priced != [] {
      MeanIs(priced);
      assert |priced| > 0 && |priced| as real > 0.0;
      SameQuotient(mean, Mean(priced), |priced| as real, Amount(priced) as real);
    } else {
      MeanOfNothing(priced);
    }
    Nearest(mean);
    Nearest(Scaled(x.lift, |t|, mean));
    ScaledIs(x.lift, |t|, mean);
  }

  lemma MeanOfNothing(s: Outcomes)
    requires s == []
    ensures Mean(s) == 0.0
  {
  }

  lemma ScaledIs(lift: real, n: nat, mean: real)
    ensures Scaled(lift, n, mean) == lift * n as real * mean
  {
  }

  // ---- The bootstrap ----

  lemma {:induction false} DrawsAre(i: nat, each: nat)
    ensures DrawsBefore(i, each) == i * each
  {
    if i > 0 {
      DrawsAre(i - 1, each);
      assert i * each == (i - 1) * each + each;
    }
  }

  /** A draw is scaled to the place it falls at. */
  lemma IndexIs(u: real, n: nat)
    requires n > 0 && 0.0 <= u < 1.0
    ensures IndexAt(u, n) as real <= u * n as real < IndexAt(u, n) as real + 1.0
  {
  }

  /** Each pick is the one its own draw of the seeded stream points at: one draw a pick, none skipped and none used twice. */
  lemma {:induction false} PicksAre(arm: Outcomes, seed: int, from: nat, n: nat, j: nat, a: int)
    requires arm != [] && j < n && a == (seed + (from + j + 1) * STRIDE) % 4294967296
    ensures Resample(arm, seed, from, n)[j] == arm[IndexAt(Output(a), |arm|)]
  {
    hide Output, PickAt, IndexAt;
    if j == n - 1 {
      StateClosedForm(seed, from + j + 1);
      PickIs(arm, seed, from + j, a);
    } else {
      PicksAre(arm, seed, from, n - 1, j, a);
    }
  }

  lemma PickIs(arm: Outcomes, seed: int, k: nat, a: int)
    requires arm != [] && a == StateAfter(seed, k + 1)
    ensures PickAt(arm, seed, k) == arm[IndexAt(Output(a), |arm|)]
  {
    hide Output, IndexAt;
  }

  /**
   * The interval's ends are samples, rounded: the lower one has a fortieth of the sorted
   * samples before it, the upper one thirty-nine fortieths, both rounded down.
   */
  lemma IntervalEnds(samples: seq<real>, lo: nat, hi: nat) returns (sorted: seq<real>)
    requires 40 * lo <= |samples| < 40 * (lo + 1) && 40 * hi <= 39 * |samples| < 40 * (hi + 1) && samples != []
    ensures multiset(sorted) == multiset(samples) && forall i, j :: 0 <= i < j < |sorted| ==> sorted[i] <= sorted[j]
    ensures |sorted| == |samples| && lo <= hi < |sorted| && Interval(samples) == (Round(sorted[lo]), Round(sorted[hi]))
  {
    hide Round, InsertBy, IndexAt;
    var id := (x: real) => x;
    SortByPermutes(samples, id);
    sorted := SortBy(samples, id);
    PlacesAre(|samples|, lo, hi);
    forall i, j | 0 <= i < j < |sorted| ensures sorted[i] <= sorted[j] {
      assert id(sorted[i]) <= id(sorted[j]);
    }
  }

  lemma PlacesAre(n: nat, lo: nat, hi: nat)
    requires n > 0 && 40 * lo <= n < 40 * (lo + 1) && 40 * hi <= 39 * n < 40 * (hi + 1)
    ensures IndexAt(0.025, n) == lo && IndexAt(0.975, n) == hi && lo <= hi < n
  {
  }

  /** One resample's figure: the difference of its rates times what its treated picks were worth, cleared of the quotients. */
  lemma StatisticIs(a: nat, n: nat, b: nat, m: nat, value: nat)
    requires n > 0 && m > 0
    ensures Statistic(a, n, b, m, value) * (n as real * m as real) == (a as real * m as real - b as real * n as real) * value as real
  {
    hide Rate;
    var p, q := a as real / n as real, b as real / m as real;
    Quotient(a as real, n as real, p);
    Quotient(b as real, m as real, q);
    ClearQuotients(a as real, n as real, b as real, m as real, p, q);
    Undo(p - q, n as real, value as real);
    assert Statistic(a, n, b, m, value) == (p - q) * value as real;
    assert (p - q) * value as real * (n as real * m as real) == (p - q) * (n as real * m as real) * value as real;
  }

  /** The `i`-th sample resamples the treated arm from the draws left by the samples before it, and then the held-out arm. */
  lemma SampleIs(treated: Outcomes, holdout: Outcomes, seed: int, i: nat, t: Outcomes, h: Outcomes)
    requires treated != [] && holdout != []
    requires t == Resample(treated, seed, i * (|treated| + |holdout|), |treated|)
    requires h == Resample(holdout, seed, i * (|treated| + |holdout|) + |treated|, |holdout|)
    ensures Sample(treated, holdout, seed, i) == Statistic(|Recovered(t)|, |treated|, |Recovered(h)|, |holdout|, Amount(t))
  {
    hide Statistic, Resample, Recovered, Amount;
    DrawsAre(i, |treated| + |holdout|);
  }

  /** One sample per round, in order, and the interval over all of them; without one of the arms there is none. */
  lemma {:induction false} SamplesAre(treated: Outcomes, holdout: Outcomes, seed: int, n: nat, i: nat)
    requires treated != [] && holdout != [] && i < n
    ensures |Samples(treated, holdout, seed, n)| == n && Samples(treated, holdout, seed, n)[i] == Sample(treated, holdout, seed, i)
    ensures IncrementalCi(treated, holdout, seed, n) == Interval(Samples(treated, holdout, seed, n))
  {
    hide Sample, Interval;
    if i < n - 1 {
      SamplesAre(treated, holdout, seed, n - 1, i);
    }
  }

  lemma NoArmNoInterval(treated: Outcomes, holdout: Outcomes, seed: int, n: nat)
    requires treated == [] || holdout == []
    ensures IncrementalCi(treated, holdout, seed, n) == (0, 0)
  {
  }

  // ---- Which bands are reported ----

  lemma {:induction false} StrataOf(treated: Outcomes, holdout: Outcomes, pooled: real, bands: seq<Band>, x: Stratum)
    ensures x in Strata(treated, holdout, pooled, bands) <==>
            && x.band in bands && (InBand(treated, x.band) != [] || InBand(holdout, x.band) != [])
            && x == StratumOf(treated, holdout, pooled, x.band)
  {
    hide InBand;
    if bands != [] {
      var n := |bands| - 1;
      StrataOf(treated, holdout, pooled, bands[..n], x);
      assert bands == bands[..n] + [bands[n]];
      BandOf(treated, holdout, pooled, bands[n]);
    }
  }

  lemma BandOf(treated: Outcomes, holdout: Outcomes, pooled: real, band: Band)
    ensures StratumOf(treated, holdout, pooled, band).band == band
  {
  }

  /** The strata reported are those of the bands that hold a case of either arm, each with the pooled lift to fall back on. */
  lemma StrataReported(treated: Outcomes, holdout: Outcomes, sqrt: real -> real, x: Stratum)
    ensures var f := FiguresOf(treated, holdout, sqrt);
            x in f.strata <==>
            && (InBand(treated, x.band) != [] || InBand(holdout, x.band) != [])
            && x == StratumOf(treated, holdout, f.lift, x.band)
  {
    hide InBand, StratumOf, Strata, FiguresOf, StratifiedTotal, Recovered, Amount, Round, Scaled, RateVariance, Rate, Mean;
    var f := FiguresOf(treated, holdout, sqrt);
    StrataField(treated, holdout, sqrt);
    StrataOf(treated, holdout, f.lift, BANDS, x);
    EveryBand(x.band);
  }

  lemma StrataField(treated: Outcomes, holdout: Outcomes, sqrt: real -> real)
    ensures var f := FiguresOf(treated, holdout, sqrt); f.strata == Strata(treated, holdout, f.lift, BANDS)
  {
    hide Strata, Recovered, Amount, StratifiedTotal, Round, Scaled, RateVariance, Rate, Mean;
  }

  lemma EveryBand(band: Band)
    ensures band in BANDS
  {
    var place := match band case From1k => 0 case From5k => 1 case Over25k => 2 case Under1k => 3;
    assert BANDS[place] == band;
  }
}
