/** The detector's statistics (packages/core/src/stats.ts). */
module Statistics {

  // ---- The one-sided z test ----

  datatype ZTest = ZTest(z: real, pValue: real, observedRate: real, baselineRate: real)

  function Rate(successes: nat, n: nat): real {
    if n == 0 then 0.0 else successes as real / n as real
  }

  /** The variance of the difference of two rates, both taken from one pool. */
  function Variance(pooled: real, attempts: nat, baseAttempts: nat): real
    requires attempts > 0 && baseAttempts > 0
  {
    pooled * (1.0 - pooled) * (1.0 / attempts as real + 1.0 / baseAttempts as real)
  }

  /** `sqrt` and `cdf` stand for the square root and for the approximation of the normal distribution. */
  function TwoProportion(approvals: nat, attempts: nat, baseApprovals: nat, baseAttempts: nat,
                         sqrt: real -> real, cdf: real -> real): ZTest
  {
    var observed, baseline := Rate(approvals, attempts), Rate(baseApprovals, baseAttempts);
    if attempts == 0 || baseAttempts == 0 then ZTest(0.0, 1.0, observed, baseline)
    else
      var pooled := (approvals + baseApprovals) as real / (attempts + baseAttempts) as real;
      var se := sqrt(Variance(pooled, attempts, baseAttempts));
      if se == 0.0 then ZTest(0.0, 1.0, observed, baseline)
      else ZTest((observed - baseline) / se, cdf((observed - baseline) / se), observed, baseline)
  }

  /** A negative z is a drop in the rate: the segments the detector corrects for are the ones approving less. */
  lemma NegativeIsADrop(approvals: nat, attempts: nat, baseApprovals: nat, baseAttempts: nat, sqrt: real -> real, cdf: real -> real)
    requires forall x :: sqrt(x) >= 0.0
    ensures var t := TwoProportion(approvals, attempts, baseApprovals, baseAttempts, sqrt, cdf);
            t.z < 0.0 ==> t.observedRate < t.baselineRate
  {
  }

  /** The rates are successes over attempts, and nothing of nothing. */
  lemma RatesAreQuotients(approvals: nat, attempts: nat, baseApprovals: nat, baseAttempts: nat, sqrt: real -> real, cdf: real -> real)
    ensures var t := TwoProportion(approvals, attempts, baseApprovals, baseAttempts, sqrt, cdf);
            && t.observedRate == (if attempts == 0 then 0.0 else approvals as real / attempts as real)
            && t.baselineRate == (if baseAttempts == 0 then 0.0 else baseApprovals as real / baseAttempts as real)
  {
  }

  /** What a nonzero deviation makes of a difference. */
  lemma Scored(d: real, se: real, v: real, z: real)
    requires se >= 0.0 && se * se == v && v != 0.0 && se != 0.0 && z == d / se
    ensures z * z * v == d * d && (z < 0.0 <==> d < 0.0) && (z > 0.0 <==> d > 0.0)
  {
    assert z * se == d;
    assert z * z * (se * se) == (z * se) * (z * se);
  }

  lemma Positive(a: real, b: real, product: real)
    requires a > 0.0 && b > 0.0 && product == a * b
    ensures product > 0.0
  {
  }

  lemma NoDeviation(se: real, v: real)
    requires se >= 0.0 && se * se == v
    ensures v == 0.0 <==> se == 0.0
  {
    if se == 0.0 {
      assert se * se == 0.0;
    } else {
      Positive(se, se, v);
    }
  }

  lemma DivideOut(x: real, n: real, q: real)
    requires n != 0.0 && q * n == x
    ensures q == x / n
  {
  }

  lemma ScoreOf(approvals: nat, attempts: nat, baseApprovals: nat, baseAttempts: nat, pooled: real, v: real,
                sqrt: real -> real, cdf: real -> real)
    requires attempts > 0 && baseAttempts > 0 && pooled == (approvals + baseApprovals) as real / (attempts + baseAttempts) as real
    requires v == Variance(pooled, attempts, baseAttempts)
    ensures var t := TwoProportion(approvals, attempts, baseApprovals, baseAttempts, sqrt, cdf);
            && (sqrt(v) == 0.0 ==> t.z == 0.0 && t.pValue == 1.0)
            && (sqrt(v) != 0.0 ==>
                  t.z == (approvals as real / attempts as real - baseApprovals as real / baseAttempts as real) / sqrt(v)
                  && t.pValue == cdf(t.z))
  {
    hide Variance;
  }

  lemma VarianceIs(pooled: real, attempts: nat, baseAttempts: nat)
    requires attempts > 0 && baseAttempts > 0
    ensures Variance(pooled, attempts, baseAttempts) == pooled * (1.0 - pooled) * (1.0 / attempts as real + 1.0 / baseAttempts as real)
  {
  }

  /**
   * The z score by its defining law, for a square root that squares back: its square
   * times the pooled variance `v` is the square of the difference `d` in rates, and it
   * has the sign of that difference. Without variance there is no evidence.
   */
  lemma ZScore(approvals: nat, attempts: nat, baseApprovals: nat, baseAttempts: nat, pooled: real, v: real, d: real,
               sqrt: real -> real, cdf: real -> real)
    requires attempts > 0 && baseAttempts > 0 && pooled * (attempts + baseAttempts) as real == (approvals + baseApprovals) as real
    requires v == pooled * (1.0 - pooled) * (1.0 / attempts as real + 1.0 / baseAttempts as real)
    requires d == approvals as real / attempts as real - baseApprovals as real / baseAttempts as real
    requires sqrt(v) * sqrt(v) == v && sqrt(v) >= 0.0
    ensures var t := TwoProportion(approvals, attempts, baseApprovals, baseAttempts, sqrt, cdf);
            && (v == 0.0 ==> t.z == 0.0 && t.pValue == 1.0)
            && (v != 0.0 ==> t.z * t.z * v == d * d && t.pValue == cdf(t.z)
                             && (t.z < 0.0 <==> d < 0.0) && (t.z > 0.0 <==> d > 0.0))
  {
    hide TwoProportion, Variance;
    var t := TwoProportion(approvals, attempts, baseApprovals, baseAttempts, sqrt, cdf);
    DivideOut((approvals + baseApprovals) as real, (attempts + baseAttempts) as real, pooled);
    VarianceIs(pooled, attempts, baseAttempts);
    ScoreOf(approvals, attempts, baseApprovals, baseAttempts, pooled, v, sqrt, cdf);
    NoDeviation(sqrt(v), v);
    if v != 0.0 {
      Scored(d, sqrt(v), v, t.z);
    }
  }

  lemma NoAttemptsNoEvidence(approvals: nat, attempts: nat, baseApprovals: nat, baseAttempts: nat, sqrt: real -> real, cdf: real -> real)
    requires attempts == 0 || baseAttempts == 0
    ensures var t := TwoProportion(approvals, attempts, baseApprovals, baseAttempts, sqrt, cdf); t.z == 0.0 && t.pValue == 1.0
  {
  }

  // ---- Sorting by p-value ----

  ghost predicate SortedBy<T(!new)>(s: seq<T>, p: T -> real) {
    forall i, j :: 0 <= i < j < |s| ==> p(s[i]) <= p(s[j])
  }

  /** After the entries with an equal key, so equal keys keep their order. */
  function InsertBy<T(!new)>(x: T, s: seq<T>, p: T -> real): (r: seq<T>)
    requires SortedBy(s, p)
    ensures SortedBy(r, p) && |r| == |s| + 1
    ensures s == [] || p(s[|s| - 1]) <= p(x) ==> r[|s|] == x
    ensures s != [] && p(s[|s| - 1]) > p(x) ==> r[|s|] == s[|s| - 1]
  {
    if s == [] || p(s[|s| - 1]) <= p(x) then s + [x]
    else InsertBy(x, s[..|s| - 1], p) + [s[|s| - 1]]
  }

  function SortBy<T(!new)>(s: seq<T>, p: T -> real): (r: seq<T>)
    ensures SortedBy(r, p) && |r| == |s|
  {
    if s == [] then [] else InsertBy(s[|s| - 1], SortBy(s[..|s| - 1], p), p)
  }

  lemma {:induction false} InsertByAdds<T(!new)>(x: T, s: seq<T>, p: T -> real)
    requires SortedBy(s, p)
    ensures multiset(InsertBy(x, s, p)) == multiset(s) + multiset{x}
  {
    if s != [] && p(s[|s| - 1]) > p(x) {
      InsertByAdds(x, s[..|s| - 1], p);
      assert s == s[..|s| - 1] + [s[|s| - 1]];
    }
  }

  lemma {:induction false} SortByPermutes<T(!new)>(s: seq<T>, p: T -> real)
    ensures multiset(SortBy(s, p)) == multiset(s)
  {
    if s != [] {
      SortByPermutes(s[..|s| - 1], p);
      InsertByAdds(s[|s| - 1], SortBy(s[..|s| - 1], p), p);
      assert s == s[..|s| - 1] + [s[|s| - 1]];
    }
  }

  /** Two orders of the same items. */
  ghost predicate Permuted<T>(a: seq<T>, b: seq<T>) {
    multiset(a) == multiset(b)
  }

  lemma PermutedItems<T>(a: seq<T>, b: seq<T>)
    requires Permuted(a, b)
    ensures |a| == |b| && forall x :: x in a <==> x in b
  {
    assert |multiset(a)| == |multiset(b)|;
    forall x ensures x in a <==> x in b {
      assert x in multiset(a) <==> x in multiset(b);
    }
  }

  // ---- Benjamini-Hochberg ----

  /** The bound on the p-value in place `i` of `m`. */
  function StepUp(i: nat, m: nat, alpha: real): real
    requires m > 0
  {
    (i + 1) as real / m as real * alpha
  }

  ghost predicate IsCutoff<T(!new)>(sorted: seq<T>, p: T -> real, alpha: real, upTo: nat, cutoff: int)
    requires upTo <= |sorted|
  {
    && -1 <= cutoff < upTo
    && (cutoff >= 0 ==> p(sorted[cutoff]) <= StepUp(cutoff, |sorted|, alpha))
    && forall i :: cutoff < i < upTo ==> p(sorted[i]) > StepUp(i, |sorted|, alpha)
  }

  /** The longest sorted prefix whose last p-value meets its bound. */
  method BenjaminiHochberg<T(!new)>(items: seq<T>, p: T -> real, alpha: real) returns (rejected: seq<T>)
    ensures |rejected| <= |items| && IsCutoff(SortBy(items, p), p, alpha, |items|, |rejected| - 1)
    ensures rejected == SortBy(items, p)[..|rejected|]
    ensures alpha >= 0.0 ==> forall x :: x in rejected <==> Rejects(items, p, alpha, x)
  {
    hide Fits, StepUp, Rejects, InsertBy;
    var sorted := SortBy(items, p);
    var m := |sorted|;
    var cutoff := -1;
    for i := 0 to m
      invariant IsCutoff(sorted, p, alpha, i, cutoff)
    {
      if p(sorted[i]) <= StepUp(i, m, alpha) {
        cutoff := i;
      }
    }
    rejected := if cutoff == -1 then [] else sorted[..cutoff + 1];
    if alpha >= 0.0 {
      SortByPermutes(items, p);
      forall x ensures x in rejected <==> Rejects(items, p, alpha, x) {
        PrefixIsRejected(items, sorted, p, alpha, cutoff, x);
      }
    }
  }

  /** v * m <= alpha * n, the bound cleared of its quotient. */
  predicate Fits(v: real, n: nat, m: nat, alpha: real) {
    v * m as real <= alpha * n as real
  }

  lemma StepUpFits(v: real, i: nat, m: nat, alpha: real)
    requires m > 0
    ensures v <= StepUp(i, m, alpha) <==> Fits(v, i + 1, m, alpha)
  {
  }

  lemma FitsMore(v: real, n: nat, m: nat, alpha: real, v': real, n': nat, alpha': real)
    requires Fits(v, n, m, alpha) && v' <= v && n <= n' && 0.0 <= alpha <= alpha'
    ensures Fits(v', n', m, alpha')
  {
  }

  /** How many p-values are at most `v`. */
  function CountUpTo<T>(s: seq<T>, p: T -> real, v: real): (n: nat)
    ensures n <= |s|
  {
    if s == [] then 0 else CountUpTo(s[..|s| - 1], p, v) + if p(s[|s| - 1]) <= v then 1 else 0
  }

  /**
   * The step-up rule without an order: an item is rejected when some threshold at
   * or above its p-value is at most alpha times the share of items under it.
   */
  ghost predicate Rejects<T(!new)>(items: seq<T>, p: T -> real, alpha: real, x: T) {
    x in items && exists v: real :: Crosses(items, p, alpha, v) && p(x) <= v
  }

  ghost predicate Crosses<T(!new)>(items: seq<T>, p: T -> real, alpha: real, v: real) {
    Fits(v, CountUpTo(items, p, v), |items|, alpha)
  }

  lemma {:induction false} CountSplit<T>(a: seq<T>, b: seq<T>, p: T -> real, v: real)
    ensures CountUpTo(a + b, p, v) == CountUpTo(a, p, v) + CountUpTo(b, p, v)
    decreases |b|
  {
    if b == [] {
      assert a + b == a;
    } else {
      var n := |b| - 1;
      assert (a + b)[..|a + b| - 1] == a + b[..n];
      CountSplit(a, b[..n], p, v);
    }
  }

  /** A count depends on the items and not on their order. */
  lemma {:induction false} CountOfPermuted<T>(a: seq<T>, b: seq<T>, p: T -> real, v: real)
    requires Permuted(a, b)
    ensures CountUpTo(a, p, v) == CountUpTo(b, p, v)
    decreases |a|
  {
    PermutedItems(a, b);
    if a != [] {
      var n := |a| - 1;
      assert a[n] in a;
      var i :| 0 <= i < |b| && b[i] == a[n];
      var front, back := b[..i], b[i + 1..];
      Without(a, b, i);
      CountOfPermuted(a[..n], front + back, p, v);
      assert b == front + ([a[n]] + back);
      CountSplit(front, [a[n]] + back, p, v);
      CountSplit([a[n]], back, p, v);
      CountSplit(front, back, p, v);
    }
  }

  lemma Without<T>(a: seq<T>, b: seq<T>, i: nat)
    requires Permuted(a, b) && i < |b| && a != [] && b[i] == a[|a| - 1]
    ensures Permuted(a[..|a| - 1], b[..i] + b[i + 1..])
  {
    var x := b[i];
    assert a == a[..|a| - 1] + [x];
    assert b == b[..i] + [x] + b[i + 1..];
    assert multiset(a) == multiset(a[..|a| - 1]) + multiset{x};
    assert multiset(b) == multiset(b[..i]) + multiset{x} + multiset(b[i + 1..]);
    assert multiset(b[..i] + b[i + 1..]) == multiset(b[..i]) + multiset(b[i + 1..]);
    assert multiset(a[..|a| - 1]) == multiset(a) - multiset{x};
  }

  /** In sorted order, the items up to `v` come first. */
  lemma {:induction false} SortedCount<T(!new)>(s: seq<T>, p: T -> real, v: real, i: nat)
    requires SortedBy(s, p) && i < |s|
    ensures i < CountUpTo(s, p, v) <==> p(s[i]) <= v
    decreases |s|
  {
    var n := |s| - 1;
    if p(s[n]) <= v {
      AllUpTo(s, p, v);
    } else if i < n {
      SortedCount(s[..n], p, v, i);
    }
  }

  lemma {:induction false} AllUpTo<T(!new)>(s: seq<T>, p: T -> real, v: real)
    requires forall i :: 0 <= i < |s| ==> p(s[i]) <= v
    ensures CountUpTo(s, p, v) == |s|
  {
    if s != [] {
      AllUpTo(s[..|s| - 1], p, v);
    }
  }

  lemma Bound(x: real, k: real, m: real, alpha: real)
    requires m > 0.0
    ensures x <= k / m * alpha <==> x * m <= alpha * k
  {
  }

  lemma PrefixIsRejected<T(!new)>(items: seq<T>, sorted: seq<T>, p: T -> real, alpha: real, cutoff: int, x: T)
    requires Permuted(sorted, items) && SortedBy(sorted, p) && alpha >= 0.0
    requires IsCutoff(sorted, p, alpha, |sorted|, cutoff)
    ensures x in sorted[..cutoff + 1] <==> Rejects(items, p, alpha, x)
  {
    hide Fits;
    PermutedItems(sorted, items);
    if x in sorted[..cutoff + 1] {
      CutoffCrosses(items, sorted, p, alpha, cutoff);
      assert p(x) <= p(sorted[cutoff]);
    }
    if Rejects(items, p, alpha, x) {
      var v :| Crosses(items, p, alpha, v) && p(x) <= v;
      var i :| 0 <= i < |sorted| && sorted[i] == x;
      CrossingIsBelowCutoff(items, sorted, p, alpha, cutoff, v, i);
      assert sorted[..cutoff + 1][i] == x;
    }
  }

  lemma CutoffCrosses<T(!new)>(items: seq<T>, sorted: seq<T>, p: T -> real, alpha: real, cutoff: int)
    requires Permuted(sorted, items) && SortedBy(sorted, p) && alpha >= 0.0
    requires IsCutoff(sorted, p, alpha, |sorted|, cutoff) && cutoff >= 0
    ensures Crosses(items, p, alpha, p(sorted[cutoff]))
  {
    hide Fits, StepUp;
    var v, m := p(sorted[cutoff]), |sorted|;
    PermutedItems(sorted, items);
    CountOfPermuted(sorted, items, p, v);
    SortedCount(sorted, p, v, cutoff);
    StepUpFits(v, cutoff, m, alpha);
    FitsMore(v, cutoff + 1, m, alpha, v, CountUpTo(items, p, v), alpha);
  }

  lemma CrossingIsBelowCutoff<T(!new)>(items: seq<T>, sorted: seq<T>, p: T -> real, alpha: real, cutoff: int, v: real, i: nat)
    requires Permuted(sorted, items) && SortedBy(sorted, p) && alpha >= 0.0
    requires IsCutoff(sorted, p, alpha, |sorted|, cutoff) && i < |sorted| && p(sorted[i]) <= v && Crosses(items, p, alpha, v)
    ensures i <= cutoff
  {
    hide Fits, StepUp;
    PermutedItems(sorted, items);
    CountOfPermuted(sorted, items, p, v);
    var n, m := CountUpTo(sorted, p, v), |sorted|;
    SortedCount(sorted, p, v, i);
    SortedCount(sorted, p, v, n - 1);
    FitsMore(v, n, m, alpha, p(sorted[n - 1]), n, alpha);
    StepUpFits(p(sorted[n - 1]), n - 1, m, alpha);
  }

  // ---- What the rule promises ----

  /** The order of the items does not matter. */
  lemma OrderDoesNotMatter<T(!new)>(a: seq<T>, b: seq<T>, p: T -> real, alpha: real, x: T)
    requires Permuted(a, b) && Rejects(a, p, alpha, x)
    ensures Rejects(b, p, alpha, x)
  {
    hide Fits;
    PermutedItems(a, b);
    var v :| Crosses(a, p, alpha, v) && p(x) <= v;
    CountOfPermuted(a, b, p, v);
    assert Crosses(b, p, alpha, v);
  }

  /** Items with one p-value stand or fall together, and a smaller p-value falls with a larger one. */
  lemma TiesFallTogether<T(!new)>(items: seq<T>, p: T -> real, alpha: real, x: T, y: T)
    requires Rejects(items, p, alpha, y) && x in items && p(x) <= p(y)
    ensures Rejects(items, p, alpha, x)
  {
  }

  /** A larger alpha, or p-values that fell, reject whatever was rejected before. */
  lemma RejectionGrows<T(!new)>(items: seq<T>, p: T -> real, q: T -> real, alpha: real, beta: real, x: T)
    requires 0.0 <= alpha <= beta && forall y :: y in items ==> q(y) <= p(y)
    requires Rejects(items, p, alpha, x)
    ensures Rejects(items, q, beta, x)
  {
    hide Fits;
    var v :| Crosses(items, p, alpha, v) && p(x) <= v;
    CountGrows(items, p, q, v);
    FitsMore(v, CountUpTo(items, p, v), |items|, alpha, v, CountUpTo(items, q, v), beta);
    assert Crosses(items, q, beta, v) && q(x) <= v;
  }

  lemma {:induction false} CountGrows<T(!new)>(items: seq<T>, p: T -> real, q: T -> real, v: real)
    requires forall y :: y in items ==> q(y) <= p(y)
    ensures CountUpTo(items, p, v) <= CountUpTo(items, q, v)
  {
    if items != [] {
      CountGrows(items[..|items| - 1], p, q, v);
    }
  }

  /** Every item the Bonferroni correction rejects is rejected. */
  lemma AtLeastBonferroni<T(!new)>(items: seq<T>, p: T -> real, alpha: real, x: T)
    requires x in items && alpha >= 0.0 && p(x) <= alpha / |items| as real
    ensures Rejects(items, p, alpha, x)
  {
    var i :| 0 <= i < |items| && items[i] == x;
    CountsItself(items, p, p(x), i);
    Bound(p(x), 1.0, |items| as real, alpha);
    assert 1.0 / |items| as real * alpha == alpha / |items| as real;
    OneFits(items, p, alpha, x);
  }

  lemma OneFits<T(!new)>(items: seq<T>, p: T -> real, alpha: real, x: T)
    requires x in items && alpha >= 0.0 && Fits(p(x), 1, |items|, alpha) && CountUpTo(items, p, p(x)) >= 1
    ensures Rejects(items, p, alpha, x)
  {
    hide Fits;
    FitsMore(p(x), 1, |items|, alpha, p(x), CountUpTo(items, p, p(x)), alpha);
    assert Crosses(items, p, alpha, p(x));
  }

  lemma {:induction false} CountsItself<T>(items: seq<T>, p: T -> real, v: real, i: nat)
    requires i < |items| && p(items[i]) <= v
    ensures CountUpTo(items, p, v) >= 1
  {
    if i < |items| - 1 {
      CountsItself(items[..|items| - 1], p, v, i);
    }
  }
}
