/** The segmented anomaly detector (packages/engine/src/detector.ts). */
module Detection {
  import opened Statistics
  import opened SortedIds

  // ---- Segments ----

  datatype Dim = Gateway | Method | Issuer | Region | Device

  type SegmentKey = map<Dim, string>

  const DIMS: seq<Dim> := [Gateway, Method, Issuer, Region, Device]

  function DimName(d: Dim): string {
    match d
    case Gateway => "gateway"
    case Method => "method"
    case Issuer => "issuer"
    case Region => "region"
    case Device => "device"
  }

  function Join(k: SegmentKey, dims: seq<Dim>): string {
    if dims == [] then ""
    else
      var rest := Join(k, dims[1..]);
      if dims[0] !in k then rest
      else DimName(dims[0]) + "=" + k[dims[0]] + (if rest == "" then "" else "&" + rest)
  }

  /** Labels key the counters. */
  function SegmentLabel(k: SegmentKey): string {
    if k == map[] then "all" else Join(k, DIMS)
  }

  /** The whole segment's label, dimension by dimension. */
  lemma LabelOfAll(k: SegmentKey, g: string, m: string, i: string, r: string, d: string)
    requires Gateway in k && Method in k && Issuer in k && Region in k && Device in k
    requires k[Gateway] == g && k[Method] == m && k[Issuer] == i && k[Region] == r && k[Device] == d
    ensures SegmentLabel(k) ==
            "gateway=" + g + ("&" + ("method=" + m + ("&" + ("issuer=" + i + ("&" + ("region=" + r + ("&" + ("device=" + d))))))))
  {
    hide Join, Part, DimName;
    JoinOfDims(k);
    assert "device" + "=" == "device=" && "region" + "=" == "region=" && "issuer" + "=" == "issuer=";
    assert "method" + "=" == "method=" && "gateway" + "=" == "gateway=";
    var last := "device=" + d;
    PartIs(k, Device, "device", "");
    assert last + "" == last;
    var fourth := "region=" + r + ("&" + last);
    PartIs(k, Region, "region", last);
    var third := "issuer=" + i + ("&" + fourth);
    PartIs(k, Issuer, "issuer", fourth);
    var second := "method=" + m + ("&" + third);
    PartIs(k, Method, "method", third);
    PartIs(k, Gateway, "gateway", second);
  }

  lemma PartIs(k: SegmentKey, d: Dim, name: string, rest: string)
    requires d in k && name == match d
                               case Gateway => "gateway"
                               case Method => "method"
                               case Issuer => "issuer"
                               case Region => "region"
                               case Device => "device"
    ensures Part(k, d, rest) == name + "=" + k[d] + (if rest == "" then "" else "&" + rest)
  {
  }

  lemma NameEnds(name: string, value: string, rest: string)
    ensures name + "=" == name + ['='] && name + "=" + value + (if rest == "" then "" else "&" + rest) != ""
    ensures rest == "" ==> name + "=" + value + "" == name + "=" + value
  {
  }

  /** A missing dimension is left out, and no dimension at all is the whole population. */
  lemma LabelOfSome(k: SegmentKey, g: string, i: string)
    ensures k == map[Gateway := g, Issuer := i] ==> SegmentLabel(k) == "gateway=" + g + ("&" + ("issuer=" + i))
    ensures k == map[] ==> SegmentLabel(k) == "all"
  {
    hide Join;
    JoinOfDims(k);
    NameEnds("issuer", i, "");
    if k == map[Gateway := g, Issuer := i] {
      assert Gateway in k && Issuer in k && Method !in k && Region !in k && Device !in k;
    }
  }

  function Part(k: SegmentKey, d: Dim, rest: string): string {
    if d !in k then rest else DimName(d) + "=" + k[d] + (if rest == "" then "" else "&" + rest)
  }

  lemma JoinOfDims(k: SegmentKey)
    ensures Join(k, DIMS) == Part(k, Gateway, Part(k, Method, Part(k, Issuer, Part(k, Region, Part(k, Device, "")))))
  {
    hide DimName;
    JoinStep(k, Device, []);
    JoinStep(k, Region, [Device]);
    JoinStep(k, Issuer, [Region, Device]);
    JoinStep(k, Method, [Issuer, Region, Device]);
    JoinStep(k, Gateway, [Method, Issuer, Region, Device]);
    assert DIMS == [Gateway] + [Method, Issuer, Region, Device];
    assert [Method] + [Issuer, Region, Device] == [Method, Issuer, Region, Device];
    assert [Issuer] + [Region, Device] == [Issuer, Region, Device];
    assert [Region] + [Device] == [Region, Device];
    assert [Device] + [] == [Device];
  }

  lemma JoinStep(k: SegmentKey, d: Dim, dims: seq<Dim>)
    ensures Join(k, [d] + dims) == Part(k, d, Join(k, dims))
  {
    hide DimName;
    assert ([d] + dims)[1..] == dims;
  }

  predicate NoAmpersand(s: string) {
    '&' !in s
  }

  /** Values that contain no separator between dimensions. */
  predicate Plain(k: SegmentKey) {
    forall d :: d in k ==> NoAmpersand(k[d])
  }

  /** The rest of a label: nothing, or a separator and more. */
  predicate IsTail(t: string) {
    t == "" || t[0] == '&'
  }

  lemma HeadIsPlain(x: string, t: string)
    requires NoAmpersand(x)
    ensures x == "" ==> x + t == t
    ensures x != "" ==> !IsTail(x + t)
  {
    if x != "" {
      assert x[0] in x && (x + t)[0] == x[0];
    }
  }

  /** Where the first value of a label ends is where the separator comes. */
  lemma {:induction false} SplitOnce(x: string, y: string, t: string, u: string)
    requires NoAmpersand(x) && NoAmpersand(y) && IsTail(t) && IsTail(u) && x + t == y + u
    ensures x == y && t == u
    decreases |x|
  {
    HeadIsPlain(x, t);
    HeadIsPlain(y, u);
    if x != "" && y != "" {
      assert x[0] == (x + t)[0] == (y + u)[0] == y[0];
      assert x[1..] + t == (x + t)[1..] == (y + u)[1..] == y[1..] + u;
      assert forall c :: c in x[1..] ==> c in x;
      assert forall c :: c in y[1..] ==> c in y;
      SplitOnce(x[1..], y[1..], t, u);
      assert x == [x[0]] + x[1..] && y == [y[0]] + y[1..];
    }
  }

  /** The dimensions can be told apart by how their names begin. */
  lemma NamesBegin(d: Dim, e: Dim)
    ensures DimName(d) != "" && DimName(e) != "" && (d != e ==> DimName(d)[0] != DimName(e)[0])
  {
  }

  lemma {:induction false} JoinBegins(k: SegmentKey, dims: seq<Dim>)
    ensures Join(k, dims) == "" || exists d :: d in dims && d in k && DimName(d) != "" && Join(k, dims)[0] == DimName(d)[0]
    ensures (exists d :: d in dims && d in k) ==> Join(k, dims) != ""
  {
    hide DimName;
    if dims != [] {
      JoinBegins(k, dims[1..]);
      NamesBegin(dims[0], dims[0]);
      assert forall d :: d in dims[1..] ==> d in dims;
      if dims[0] in k {
        assert dims[0] in dims && Join(k, dims)[0] == DimName(dims[0])[0];
      }
      if d :| d in dims && d in k && dims[0] !in k {
        assert d in dims[1..];
      }
    }
  }

  ghost predicate DimsDiffer(dims: seq<Dim>) {
    forall i, j :: 0 <= i < j < |dims| ==> dims[i] != dims[j]
  }

  lemma {:induction false} JoinsAgree(a: SegmentKey, b: SegmentKey, dims: seq<Dim>)
    requires Plain(a) && Plain(b) && DimsDiffer(dims) && Join(a, dims) == Join(b, dims)
    ensures forall d :: d in dims ==> (d in a <==> d in b) && (d in a ==> a[d] == b[d])
    decreases |dims|
  {
    hide DimName;
    if dims != [] {
      var d, rest := dims[0], dims[1..];
      assert [d] + rest == dims && d !in rest;
      JoinStep(a, d, rest);
      JoinStep(b, d, rest);
      JoinBegins(a, rest);
      JoinBegins(b, rest);
      forall e ensures DimName(d) != "" && (e != d ==> DimName(e) != "" && DimName(e)[0] != DimName(d)[0]) {
        NamesBegin(d, e);
      }
      assert d in a <==> d in b;
      if d in a {
        var t, u := if Join(a, rest) == "" then "" else "&" + Join(a, rest), if Join(b, rest) == "" then "" else "&" + Join(b, rest);
        SameHead(DimName(d) + "=", a[d], t, b[d], u);
        SplitOnce(a[d], b[d], t, u);
        assert ("&" + Join(a, rest))[1..] == Join(a, rest) && ("&" + Join(b, rest))[1..] == Join(b, rest);
      }
      assert Join(a, rest) == Join(b, rest);
      JoinsAgree(a, b, rest);
      assert forall e :: e in dims <==> e == d || e in rest;
    }
  }

  lemma SameHead(head: string, x: string, t: string, y: string, u: string)
    requires head + x + t == head + y + u
    ensures x + t == y + u
  {
    assert head + x + t == head + (x + t) && head + y + u == head + (y + u);
    assert (head + (x + t))[|head|..] == x + t && (head + (y + u))[|head|..] == y + u;
  }

  /** Different segments have different labels, so no two share a counter, as long as no value contains the separator. */
  lemma LabelsTellApart(a: SegmentKey, b: SegmentKey)
    requires Plain(a) && Plain(b)
    ensures SegmentLabel(a) == SegmentLabel(b) <==> a == b
  {
    hide DimName, Join;
    if SegmentLabel(a) == SegmentLabel(b) {
      JoinBegins(a, DIMS);
      JoinBegins(b, DIMS);
      forall e: Dim ensures e in DIMS && DimName(e) != "" && DimName(e)[0] != 'a' {
        NotAll(e);
      }
      SameKeys(a, b);
    }
  }

  lemma NotAll(e: Dim)
    ensures e in DIMS && DimName(e) != "" && DimName(e)[0] != 'a'
  {
    assert DIMS[0] == Gateway && DIMS[1] == Method && DIMS[2] == Issuer && DIMS[3] == Region && DIMS[4] == Device;
  }

  lemma SameKeys(a: SegmentKey, b: SegmentKey)
    requires Plain(a) && Plain(b) && (a == map[] <==> b == map[]) && (a != map[] ==> Join(a, DIMS) == Join(b, DIMS))
    ensures a == b
  {
    hide DimName, Join;
    if a != map[] {
      JoinsAgree(a, b, DIMS);
      forall e: Dim ensures (e in a <==> e in b) && (e in a ==> a[e] == b[e]) {
        NotAll(e);
      }
    }
  }

  /** Fewer dimensions, and every one of them equal in the child. */
  predicate IsAncestor(parent: SegmentKey, child: SegmentKey) {
    |parent| < |child| && forall d :: d in parent ==> d in child && child[d] == parent[d]
  }

  /** Ancestry is the strict restriction order on segments. */
  lemma AncestorIsRestriction(parent: SegmentKey, child: SegmentKey)
    ensures IsAncestor(parent, child) <==>
            parent != child && forall d :: d in parent ==> d in child && child[d] == parent[d]
  {
    if forall d :: d in parent ==> d in child && child[d] == parent[d] {
      assert parent.Keys <= child.Keys;
      SubsetSize(parent.Keys, child.Keys);
      if parent.Keys == child.Keys {
        assert parent == child;
      }
    }
  }

  lemma {:induction false} SubsetSize<T>(a: set<T>, b: set<T>)
    requires a <= b
    ensures |a| <= |b| && (a != b ==> |a| < |b|)
    decreases |a|
  {
    if a == {} {
    } else {
      var x :| x in a;
      SubsetSize(a - {x}, b - {x});
      assert a == (a - {x}) + {x} && b == (b - {x}) + {x};
    }
  }

  lemma AncestryIsAStrictOrder(a: SegmentKey, b: SegmentKey, c: SegmentKey)
    ensures !IsAncestor(a, a)
    ensures IsAncestor(a, b) ==> !IsAncestor(b, a)
    ensures IsAncestor(a, b) && IsAncestor(b, c) ==> IsAncestor(a, c)
  {
  }

  // ---- Child suppression ----

  datatype Candidate = Candidate(segment: SegmentKey, name: string, attempts: nat, test: ZTest)

  function Drop(c: Candidate): real {
    c.test.baselineRate - c.test.observedRate
  }

  const PARENT_EXPLAINS_RATIO := 0.9

  /** How much of the child's drop the parent shows: enough to own it. */
  predicate Explains(parent: Candidate, child: Candidate) {
    IsAncestor(parent.segment, child.segment) && Drop(parent) >= Drop(child) * PARENT_EXPLAINS_RATIO
  }

  predicate Supersedes(child: Candidate, parent: Candidate) {
    IsAncestor(parent.segment, child.segment) && Drop(parent) < Drop(child) * PARENT_EXPLAINS_RATIO
  }

  predicate Reported(dwelled: seq<Candidate>, c: Candidate) {
    && c in dwelled
    && (forall other :: other in dwelled ==> !Explains(other, c))
    && (forall other :: other in dwelled ==> !Supersedes(other, c))
  }

  function Keep(all: seq<Candidate>, cs: seq<Candidate>): (r: seq<Candidate>)
    ensures forall c :: c in r ==> c in cs
  {
    if cs == [] then []
    else (if Reported(all, cs[0]) then [cs[0]] else []) + Keep(all, cs[1..])
  }

  /** The segments that open incidents, in the order they came. */
  function Report(dwelled: seq<Candidate>): seq<Candidate> {
    Keep(dwelled, dwelled)
  }

  lemma {:induction false} KeepIsReported(all: seq<Candidate>, cs: seq<Candidate>, c: Candidate)
    ensures c in Keep(all, cs) <==> c in cs && Reported(all, c)
  {
    if cs != [] {
      KeepIsReported(all, cs[1..], c);
    }
  }

  /**
   * Reported are the segments that no wider one explains, its rate having fallen at
   * least nine tenths as far, and that no narrower one has fallen clearly further than.
   */
  lemma ReportedIff(dwelled: seq<Candidate>, c: Candidate)
    ensures c in Report(dwelled) <==>
            && c in dwelled
            && (forall a :: a in dwelled && |a.segment| < |c.segment|
                            && (forall d :: d in a.segment ==> d in c.segment && c.segment[d] == a.segment[d])
                            ==> 10.0 * (a.test.baselineRate - a.test.observedRate) < 9.0 * (c.test.baselineRate - c.test.observedRate))
            && (forall b :: b in dwelled && |c.segment| < |b.segment|
                            && (forall d :: d in c.segment ==> d in b.segment && b.segment[d] == c.segment[d])
                            ==> 10.0 * (c.test.baselineRate - c.test.observedRate) >= 9.0 * (b.test.baselineRate - b.test.observedRate))
  {
    KeepIsReported(dwelled, dwelled, c);
    forall a | a in dwelled ensures Explains(a, c) <==> IsAncestor(a.segment, c.segment) && 10.0 * Drop(a) >= 9.0 * Drop(c) {
    }
    forall b | b in dwelled ensures Supersedes(b, c) <==> IsAncestor(c.segment, b.segment) && 10.0 * Drop(c) < 9.0 * Drop(b) {
    }
  }

  /** However deep the nesting, no reported segment contains another. */
  lemma ReportIsAnAntichain(dwelled: seq<Candidate>, a: Candidate, b: Candidate)
    requires a in Report(dwelled) && b in Report(dwelled)
    ensures !IsAncestor(a.segment, b.segment)
  {
    KeepIsReported(dwelled, dwelled, a);
    KeepIsReported(dwelled, dwelled, b);
    assert !Explains(a, b) && !Supersedes(b, a);
  }

  /** Candidates are drops: the detector corrects negative z scores only. */
  ghost predicate AllDrops(dwelled: seq<Candidate>) {
    forall c :: c in dwelled ==> Drop(c) >= 0.0
  }

  /** a explains b, b explains c, and a is too shallow to explain c. */
  ghost predicate Intransitive(dwelled: seq<Candidate>, a: Candidate, b: Candidate, c: Candidate) {
    && a in dwelled && b in dwelled && c in dwelled
    && Explains(a, b) && Explains(b, c) && !Explains(a, c)
  }

  ghost predicate IsDeepest(dwelled: seq<Candidate>, x: Candidate) {
    x in dwelled && forall c :: c in dwelled ==> Drop(c) <= Drop(x)
  }

  lemma {:induction false} DeepestExists(dwelled: seq<Candidate>)
    requires dwelled != []
    ensures exists x :: IsDeepest(dwelled, x)
  {
    if |dwelled| == 1 {
      assert IsDeepest(dwelled, dwelled[0]);
    } else {
      DeepestExists(dwelled[1..]);
      var y :| IsDeepest(dwelled[1..], y);
      assert forall c :: c in dwelled ==> c == dwelled[0] || c in dwelled[1..];
      assert IsDeepest(dwelled, if Drop(dwelled[0]) <= Drop(y) then y else dwelled[0]);
    }
  }

  ghost predicate IsCoarsestExplainer(dwelled: seq<Candidate>, x: Candidate, p: Candidate) {
    p in dwelled && Explains(p, x) && forall q :: q in dwelled && Explains(q, x) ==> |p.segment| <= |q.segment|
  }

  lemma {:induction false} CoarsestExplainerExists(dwelled: seq<Candidate>, x: Candidate, p: Candidate)
    requires p in dwelled && Explains(p, x)
    ensures exists q :: IsCoarsestExplainer(dwelled, x, q)
    decreases |p.segment|
  {
    if q :| q in dwelled && Explains(q, x) && |q.segment| < |p.segment| {
      CoarsestExplainerExists(dwelled, x, q);
    } else {
      assert IsCoarsestExplainer(dwelled, x, p);
    }
  }

  /** The detector goes silent on segments past their dwell only where explaining fails to carry through a chain of three. */
  lemma SilentOnlyIfIntransitive(dwelled: seq<Candidate>)
    requires dwelled != [] && AllDrops(dwelled) && Report(dwelled) == []
    ensures exists a, b, c :: Intransitive(dwelled, a, b, c)
  {
    DeepestExists(dwelled);
    var x :| IsDeepest(dwelled, x);
    KeepIsReported(dwelled, dwelled, x);
    assert forall y :: y in dwelled ==> !Supersedes(y, x);
    var p :| p in dwelled && Explains(p, x);
    CoarsestExplainerExists(dwelled, x, p);
    var q :| IsCoarsestExplainer(dwelled, x, q);
    KeepIsReported(dwelled, dwelled, q);
    assert forall y :: y in dwelled ==> !Supersedes(y, q);
    var r :| r in dwelled && Explains(r, q);
    assert Intransitive(dwelled, r, q, x);
  }

  ghost predicate ChainOfThree(dwelled: seq<Candidate>, a: Candidate, b: Candidate, c: Candidate) {
    && a in dwelled && b in dwelled && c in dwelled
    && IsAncestor(a.segment, b.segment) && IsAncestor(b.segment, c.segment)
  }

  /** With at most two levels of nesting, something is always reported. */
  lemma TwoLevelsAlwaysReport(dwelled: seq<Candidate>)
    requires dwelled != [] && AllDrops(dwelled) && forall a, b, c :: !ChainOfThree(dwelled, a, b, c)
    ensures Report(dwelled) != []
  {
    if Report(dwelled) == [] {
      SilentOnlyIfIntransitive(dwelled);
      var a, b, c :| Intransitive(dwelled, a, b, c);
      assert ChainOfThree(dwelled, a, b, c);
    }
  }

  lemma {:induction false} NothingKept(all: seq<Candidate>, cs: seq<Candidate>)
    requires forall c :: c in cs ==> !Reported(all, c)
    ensures Keep(all, cs) == []
  {
    if cs != [] {
      NothingKept(all, cs[1..]);
    }
  }

  /** On three nested segments the report is empty exactly when the explaining is intransitive. */
  lemma ThreeLevelsSilentIff(a: Candidate, b: Candidate, c: Candidate)
    requires IsAncestor(a.segment, b.segment) && IsAncestor(b.segment, c.segment) && AllDrops([a, b, c])
    ensures Report([a, b, c]) == [] <==> Explains(a, b) && Explains(b, c) && !Explains(a, c)
  {
    var all := [a, b, c];
    AncestryIsAStrictOrder(a.segment, b.segment, c.segment);
    if Explains(a, b) && Explains(b, c) && !Explains(a, c) {
      assert a in all && b in all && c in all;
      assert Supersedes(c, a);
      forall x | x in all ensures !Reported(all, x) {
        assert x == a || x == b || x == c;
      }
      NothingKept(all, all);
    } else {
      var x := if Explains(a, b) && Explains(a, c) then a else if !Explains(a, b) && Explains(b, c) then b else c;
      assert x in all && Drop(a) >= 0.0 && Drop(b) >= 0.0;
      NoneAccountsFor(a, b, c, x);
      KeepIsReported(all, all, x);
    }
  }

  lemma NoneAccountsFor(a: Candidate, b: Candidate, c: Candidate, x: Candidate)
    requires IsAncestor(a.segment, b.segment) && IsAncestor(b.segment, c.segment) && IsAncestor(a.segment, c.segment)
    requires Drop(a) >= 0.0 && Drop(b) >= 0.0 && !(Explains(a, b) && Explains(b, c) && !Explains(a, c))
    requires x == if Explains(a, b) && Explains(a, c) then a else if !Explains(a, b) && Explains(b, c) then b else c
    ensures Reported([a, b, c], x)
  {
    forall y | y in [a, b, c] ensures !Explains(y, x) && !Supersedes(y, x) {
      assert y == a || y == b || y == c;
    }
  }

  /** Drops of 0.340, 0.368 and 0.400 on gateway, issuer and method: all three pass dwell and none is reported. */
  lemma ThreeLevelsCanGoSilent(a: Candidate, b: Candidate, c: Candidate)
    requires a.segment == map[Gateway := "g"]
    requires b.segment == map[Gateway := "g", Issuer := "i"]
    requires c.segment == map[Gateway := "g", Issuer := "i", Method := "m"]
    requires Drop(a) == 0.340 && Drop(b) == 0.368 && Drop(c) == 0.400
    ensures Report([a, b, c]) == []
  {
    AncestorIsRestriction(a.segment, b.segment);
    AncestorIsRestriction(b.segment, c.segment);
    AncestorIsRestriction(a.segment, c.segment);
    ThreeLevelsSilentIff(a, b, c);
  }

  // ---- Hysteresis ----

  datatype Verdict = Failing | Healthy | Neither

  datatype Counters = Counters(dwell: map<string, nat>, healthy: map<string, nat>)

  function CountOf(m: map<string, nat>, name: string): nat {
    if name in m then m[name] else 0
  }

  /** What can happen to a label: a tested window's verdict, or a reset. Windows below the volume floor are not events. */
  datatype Event = Saw(name: string, verdict: Verdict) | Reset(name: string)

  function Observe(c: Counters, e: Event): Counters {
    match e
    case Reset(name) => Counters(c.dwell - {name}, c.healthy - {name})
    case Saw(name, Failing) => Counters(c.dwell[name := CountOf(c.dwell, name) + 1], c.healthy[name := 0])
    case Saw(name, Healthy) => Counters(c.dwell[name := 0], c.healthy[name := CountOf(c.healthy, name) + 1])
    case Saw(name, Neither) => Counters(c.dwell[name := 0], c.healthy[name := 0])
  }

  function ObserveAll(c: Counters, events: seq<Event>): Counters {
    if events == [] then c else Observe(ObserveAll(c, events[..|events| - 1]), events[|events| - 1])
  }

  const FRESH := Counters(map[], map[])

  /** The verdicts on a label since it was last reset. */
  function History(events: seq<Event>, name: string): seq<Verdict> {
    if events == [] then []
    else
      var before, e := History(events[..|events| - 1], name), events[|events| - 1];
      if e.name != name then before else if e.Reset? then [] else before + [e.verdict]
  }

  /** `n` is the length of the run of `v` that ends `h`. */
  ghost predicate IsTrailingRun(h: seq<Verdict>, v: Verdict, n: nat) {
    && n <= |h|
    && (forall i :: |h| - n <= i < |h| ==> h[i] == v)
    && (n < |h| ==> h[|h| - 1 - n] != v)
  }

  lemma RunExtends(h: seq<Verdict>, v: Verdict, n: nat, last: Verdict)
    requires IsTrailingRun(h, v, n)
    ensures IsTrailingRun(h + [last], v, if last == v then n + 1 else 0)
  {
  }

  /** The counters are the lengths of the trailing runs of failing and of healthy windows, for every label and every run. */
  lemma {:induction false} CountersAreTrailingRuns(events: seq<Event>, name: string)
    ensures var c := ObserveAll(FRESH, events);
            && IsTrailingRun(History(events, name), Failing, CountOf(c.dwell, name))
            && IsTrailingRun(History(events, name), Healthy, CountOf(c.healthy, name))
  {
    if events != [] {
      var before, e := events[..|events| - 1], events[|events| - 1];
      CountersAreTrailingRuns(before, name);
      if e.Saw? && e.name == name {
        var c := ObserveAll(FRESH, before);
        RunExtends(History(before, name), Failing, CountOf(c.dwell, name), e.verdict);
        RunExtends(History(before, name), Healthy, CountOf(c.healthy, name), e.verdict);
      }
    }
  }

  lemma NeverBothPositive(events: seq<Event>, name: string)
    ensures var c := ObserveAll(FRESH, events);
            CountOf(c.dwell, name) == 0 || CountOf(c.healthy, name) == 0
  {
  }

  datatype Config = Config(volumeFloor: nat, alpha: real, dwellWindows: nat, closeWithin: real, closeWindows: nat)

  predicate ClosesOn(c: Counters, name: string, config: Config) {
    CountOf(c.healthy, name) >= config.closeWindows
  }

  /** An incident may close exactly when the label's last `closeWindows` tested windows were all healthy. */
  lemma ShouldCloseIff(events: seq<Event>, name: string, config: Config)
    ensures var h := History(events, name); var n := config.closeWindows;
            ClosesOn(ObserveAll(FRESH, events), name, config) <==>
            n <= |h| && forall i :: |h| - n <= i < |h| ==> h[i] == Healthy
  {
    CountersAreTrailingRuns(events, name);
    var c, h := ObserveAll(FRESH, events), History(events, name);
    var run := CountOf(c.healthy, name);
    if run < config.closeWindows <= |h| {
      assert h[|h| - 1 - run] != Healthy;
    }
  }

  lemma {:induction false} ObserveAllSplit(c: Counters, a: seq<Event>, b: seq<Event>)
    ensures ObserveAll(c, a + b) == ObserveAll(ObserveAll(c, a), b)
    decreases |b|
  {
    if b == [] {
      assert a + b == a;
    } else {
      var n := |b| - 1;
      assert (a + b)[..|a + b| - 1] == a + b[..n];
      ObserveAllSplit(c, a, b[..n]);
    }
  }

  // ---- As it runs ----

  datatype Observation = Observation(segment: SegmentKey, attempts: nat, approvals: nat, baseAttempts: nat, baseApprovals: nat)

  function VerdictOn(c: Candidate, significant: set<string>, config: Config): Verdict {
    if c.name in significant then Failing
    else if c.test.observedRate >= c.test.baselineRate * config.closeWithin then Healthy
    else Neither
  }

  function Verdicts(tested: seq<Candidate>, significant: set<string>, config: Config): seq<Event> {
    seq(|tested|, i requires 0 <= i < |tested| => Saw(tested[i].name, VerdictOn(tested[i], significant, config)))
  }

  /** The drops the correction rejects, in order of p-value. */
  ghost predicate IsSignificant(drops: seq<Candidate>, alpha: real, significant: seq<Candidate>) {
    var sorted := SortBy(drops, (c: Candidate) => c.test.pValue);
    && significant <= sorted
    && (alpha >= 0.0 ==> forall c :: c in significant <==> Rejects(drops, (c: Candidate) => c.test.pValue, alpha, c))
  }

  function Labels(cs: seq<Candidate>): set<string> {
    set c | c in cs :: c.name
  }

  function DropsOf(tested: seq<Candidate>): seq<Candidate> {
    if tested == [] then []
    else DropsOf(tested[..|tested| - 1]) + if tested[|tested| - 1].test.z < 0.0 then [tested[|tested| - 1]] else []
  }

  function Dwelled(significant: seq<Candidate>, c: Counters, config: Config): seq<Candidate> {
    if significant == [] then []
    else
      var last := significant[|significant| - 1];
      Dwelled(significant[..|significant| - 1], c, config) + if CountOf(c.dwell, last.name) >= config.dwellWindows then [last] else []
  }

  predicate IsDrop(tested: seq<Candidate>, i: nat) {
    i < |tested| && tested[i].test.z < 0.0
  }

  lemma AscendingMore(picked: seq<nat>, n: nat)
    requires Ascending(picked) && forall i :: i in picked ==> i < n
    ensures Ascending(picked + [n]) && forall i :: i in picked + [n] <==> i in picked || i == n
  {
    forall k | 0 <= k < |picked| ensures picked[k] < n {
      assert picked[k] in picked;
    }
  }

  /** The corrected drops are the tested segments with a negative z, all of them and no others, in their order. */
  lemma {:induction false} DropsAreNegative(tested: seq<Candidate>) returns (picked: seq<nat>)
    ensures Ascending(picked) && forall i: nat :: i in picked <==> IsDrop(tested, i)
    ensures |DropsOf(tested)| == |picked| && forall k :: 0 <= k < |picked| ==> picked[k] < |tested| && DropsOf(tested)[k] == tested[picked[k]]
  {
    if tested == [] {
      return [];
    }
    var n := |tested| - 1;
    var before := DropsAreNegative(tested[..n]);
    forall i: nat ensures IsDrop(tested[..n], i) <==> i < n && IsDrop(tested, i) {
    }
    AscendingMore(before, n);
    picked := if IsDrop(tested, n) then before + [n] else before;
    forall i: nat ensures i in picked <==> IsDrop(tested, i) {
    }
    forall k | 0 <= k < |before| ensures tested[..n][before[k]] == tested[before[k]] {
    }
  }

  lemma DropsAreTested(tested: seq<Candidate>)
    ensures forall c :: c in DropsOf(tested) <==> c in tested && c.test.z < 0.0
  {
    var picked := DropsAreNegative(tested);
    var drops := DropsOf(tested);
    forall c | c in tested && c.test.z < 0.0 ensures c in drops {
      var i: nat :| i < |tested| && tested[i] == c;
      assert IsDrop(tested, i) && i in picked;
      var k :| 0 <= k < |picked| && picked[k] == i;
      assert drops[k] == c;
    }
  }

  lemma {:induction false} DwelledAreSignificant(significant: seq<Candidate>, c: Counters, config: Config)
    ensures forall x :: x in Dwelled(significant, c, config) <==>
                        x in significant && CountOf(c.dwell, x.name) >= config.dwellWindows
  {
    if significant != [] {
      var n := |significant| - 1;
      DwelledAreSignificant(significant[..n], c, config);
      assert significant == significant[..n] + [significant[n]];
    }
  }

  lemma SignificantAreDrops(drops: seq<Candidate>, alpha: real, significant: seq<Candidate>)
    requires IsSignificant(drops, alpha, significant)
    ensures forall c :: c in significant ==> c in drops
  {
    var p := (c: Candidate) => c.test.pValue;
    SortByPermutes(drops, p);
    PermutedItems(SortBy(drops, p), drops);
    forall c | c in significant ensures c in drops {
      assert c in SortBy(drops, p);
    }
  }

  method Correct(drops: seq<Candidate>, alpha: real) returns (significant: seq<Candidate>)
    ensures IsSignificant(drops, alpha, significant)
  {
    significant := BenjaminiHochberg(drops, (c: Candidate) => c.test.pValue, alpha);
  }

  class AnomalyDetector {
    const config: Config
    const sqrt: real -> real
    const cdf: real -> real
    var dwell: map<string, nat>
    var healthy: map<string, nat>
    /** Everything that has happened, for the specification. */
    ghost var events: seq<Event>

    constructor (config: Config, sqrt: real -> real, cdf: real -> real)
      ensures Valid() && events == [] && this.config == config && this.sqrt == sqrt && this.cdf == cdf
    {
      this.config, this.sqrt, this.cdf := config, sqrt, cdf;
      dwell, healthy, events := map[], map[], [];
    }

    function Counts(): Counters
      reads this
    {
      Counters(dwell, healthy)
    }

    ghost predicate Valid()
      reads this
    {
      Counts() == ObserveAll(FRESH, events)
    }

    function Tested(observations: seq<Observation>): seq<Candidate> {
      if observations == [] then []
      else
        var o := observations[|observations| - 1];
        Tested(observations[..|observations| - 1]) +
        if o.attempts < config.volumeFloor then []
        else [Candidate(o.segment, SegmentLabel(o.segment), o.attempts,
                        TwoProportion(o.approvals, o.attempts, o.baseApprovals, o.baseAttempts, sqrt, cdf))]
    }

    /** One test of one observation. */
    ghost predicate Tests(o: Observation, c: Candidate) {
      && c.segment == o.segment && c.name == SegmentLabel(o.segment) && c.attempts == o.attempts
      && c.test == TwoProportion(o.approvals, o.attempts, o.baseApprovals, o.baseAttempts, sqrt, cdf)
      && c.test.observedRate == (if o.attempts == 0 then 0.0 else o.approvals as real / o.attempts as real)
      && c.test.baselineRate == (if o.baseAttempts == 0 then 0.0 else o.baseApprovals as real / o.baseAttempts as real)
    }

    lemma TestedLast(observations: seq<Observation>)
      requires observations != []
      ensures var n := |observations| - 1; var before, all := Tested(observations[..n]), Tested(observations);
              if observations[n].attempts < config.volumeFloor then all == before
              else |all| == |before| + 1 && all[..|before|] == before && Tests(observations[n], all[|before|])
    {
      hide TwoProportion, SegmentLabel;
      var o := observations[|observations| - 1];
      RatesAreQuotients(o.approvals, o.attempts, o.baseApprovals, o.baseAttempts, sqrt, cdf);
    }

    predicate AtFloor(observations: seq<Observation>, i: nat) {
      i < |observations| && observations[i].attempts >= config.volumeFloor
    }

    /** The observations with enough attempts are tested, all of them and no others, each once and in order. */
    lemma {:induction false} TestedAtTheFloor(observations: seq<Observation>) returns (picked: seq<nat>)
      ensures Ascending(picked) && forall i: nat :: i in picked <==> AtFloor(observations, i)
      ensures |Tested(observations)| == |picked|
      ensures forall k :: 0 <= k < |picked| ==> picked[k] < |observations| && Tests(observations[picked[k]], Tested(observations)[k])
      decreases |observations|
    {
      hide Tests, Tested;
      if observations == [] {
        NothingTested(observations);
        return [];
      }
      var n := |observations| - 1;
      var before := TestedAtTheFloor(observations[..n]);
      TestedLast(observations);
      forall i: nat ensures AtFloor(observations[..n], i) <==> i < n && AtFloor(observations, i) {
      }
      AscendingMore(before, n);
      picked := if AtFloor(observations, n) then before + [n] else before;
      forall i: nat ensures i in picked <==> AtFloor(observations, i) {
      }
      forall k | 0 <= k < |picked| ensures picked[k] < |observations| && Tests(observations[picked[k]], Tested(observations)[k]) {
        if k < |before| {
          assert observations[..n][before[k]] == observations[picked[k]];
          assert Tested(observations)[k] == Tested(observations[..n])[k];
        }
      }
    }

    lemma NothingTested(observations: seq<Observation>)
      requires observations == []
      ensures Tested(observations) == []
    {
    }

    lemma HistoryLast(before: seq<Event>, e: Event, name: string)
      ensures History(before + [e], name) ==
              if e.name != name then History(before, name) else if e.Reset? then [] else History(before, name) + [e.verdict]
    {
      assert (before + [e])[..|before|] == before;
    }

    /** What one more observation adds to a label's history. */
    lemma HistoryMore(before: seq<Event>, observations: seq<Observation>, labels: set<string>, name: string)
      requires observations != []
      ensures var n := |observations| - 1; var o := observations[n];
              var was, now := History(before + Verdicts(Tested(observations[..n]), labels, config), name),
                              History(before + Verdicts(Tested(observations), labels, config), name);
              if SegmentLabel(o.segment) != name || o.attempts < config.volumeFloor then now == was
              else |now| == |was| + 1 && now[..|was|] == was && IsVerdict(o, labels, now[|was|])
    {
      hide Tested, SegmentLabel, Tests, VerdictOn, IsVerdict, History, Verdicts;
      TestedLast(observations);
      var n := |observations| - 1;
      var tested, all := Tested(observations[..n]), Tested(observations);
      if observations[n].attempts >= config.volumeFloor {
        var c := all[|tested|];
        var e := Saw(c.name, VerdictOn(c, labels, config));
        VerdictIs(observations[n], c, labels);
        VerdictsMore(tested, all, labels);
        assert before + Verdicts(all, labels, config) == (before + Verdicts(tested, labels, config)) + [e];
        HistoryLast(before + Verdicts(tested, labels, config), e, name);
      }
    }

    lemma VerdictIs(o: Observation, c: Candidate, labels: set<string>)
      requires Tests(o, c)
      ensures c.name == SegmentLabel(o.segment) && IsVerdict(o, labels, VerdictOn(c, labels, config))
    {
      hide SegmentLabel, TwoProportion;
    }

    lemma VerdictsMore(tested: seq<Candidate>, all: seq<Candidate>, labels: set<string>)
      requires |all| == |tested| + 1 && all[..|tested|] == tested
      ensures Verdicts(all, labels, config) ==
              Verdicts(tested, labels, config) + [Saw(all[|tested|].name, VerdictOn(all[|tested|], labels, config))]
    {
      hide VerdictOn;
      assert forall i :: 0 <= i < |tested| ==> all[i] == all[..|tested|][i];
    }

    /** Failing when the correction rejects the label, healthy when it does not and the rate is close to the baseline. */
    ghost predicate IsVerdict(o: Observation, labels: set<string>, v: Verdict) {
      && (v.Failing? <==> SegmentLabel(o.segment) in labels)
      && (v.Healthy? <==> SegmentLabel(o.segment) !in labels
                          && Rate(o.approvals, o.attempts) >= Rate(o.baseApprovals, o.baseAttempts) * config.closeWithin)
    }

    lemma FailsIff(o: Observation, significant: seq<Candidate>, v: Verdict)
      requires IsVerdict(o, Labels(significant), v)
      ensures v.Failing? <==> exists c :: c in significant && c.name == SegmentLabel(o.segment)
    {
      hide SegmentLabel;
    }

    ghost predicate LabelsDiffer(observations: seq<Observation>) {
      forall i, j :: 0 <= i < j < |observations| ==> SegmentLabel(observations[i].segment) != SegmentLabel(observations[j].segment)
    }

    ghost predicate BelowFloor(observations: seq<Observation>, name: string) {
      forall i :: 0 <= i < |observations| && SegmentLabel(observations[i].segment) == name ==> observations[i].attempts < config.volumeFloor
    }

    /** A window in which the label is not observed, or only below the floor, says nothing about it. */
    lemma {:induction false} NothingGained(before: seq<Event>, observations: seq<Observation>, labels: set<string>, name: string)
      requires BelowFloor(observations, name)
      ensures History(before + Verdicts(Tested(observations), labels, config), name) == History(before, name)
      decreases |observations|
    {
      hide SegmentLabel;
      if observations == [] {
        NothingTested(observations);
        assert before + Verdicts([], labels, config) == before;
      } else {
        var n := |observations| - 1;
        assert BelowFloor(observations[..n], name);
        NothingGained(before, observations[..n], labels, name);
        HistoryMore(before, observations, labels, name);
      }
    }

    /** A label observed at or above the floor gains exactly one verdict, its own. */
    lemma {:induction false} OneGained(before: seq<Event>, observations: seq<Observation>, labels: set<string>, i: nat)
      requires LabelsDiffer(observations) && AtFloor(observations, i)
      ensures var name := SegmentLabel(observations[i].segment);
              var was, now := History(before, name), History(before + Verdicts(Tested(observations), labels, config), name);
              |now| == |was| + 1 && now[..|was|] == was && IsVerdict(observations[i], labels, now[|was|])
      decreases |observations|
    {
      hide SegmentLabel, Tested, IsVerdict;
      var n, name := |observations| - 1, SegmentLabel(observations[i].segment);
      HistoryMore(before, observations, labels, name);
      if i == n {
        NothingGained(before, observations[..n], labels, name);
      } else {
        assert observations[..n][i] == observations[i];
        OneGained(before, observations[..n], labels, i);
      }
    }

    lemma {:induction false} TestedRates(observations: seq<Observation>)
      requires forall x :: sqrt(x) >= 0.0
      ensures forall c :: c in Tested(observations) && c.test.z < 0.0 ==> Drop(c) > 0.0
    {
      if observations != [] {
        var o := observations[|observations| - 1];
        TestedRates(observations[..|observations| - 1]);
        NegativeIsADrop(o.approvals, o.attempts, o.baseApprovals, o.baseAttempts, sqrt, cdf);
      }
    }

    /**
     * Whenever some segment has passed its dwell and none is reported, three nested
     * segments among them show an explanation that does not carry through.
     */
    lemma SilenceHasACause(observations: seq<Observation>, significant: seq<Candidate>, c: Counters)
      requires forall x :: sqrt(x) >= 0.0
      requires IsSignificant(DropsOf(Tested(observations)), config.alpha, significant)
      requires Dwelled(significant, c, config) != [] && Report(Dwelled(significant, c, config)) == []
      ensures exists x, y, z :: Intransitive(Dwelled(significant, c, config), x, y, z)
    {
      TestedRates(observations);
      DropsAreTested(Tested(observations));
      SignificantAreDrops(DropsOf(Tested(observations)), config.alpha, significant);
      DwelledAreSignificant(significant, c, config);
      SilentOnlyIfIntransitive(Dwelled(significant, c, config));
    }

    method CountOne(c: Candidate, labels: set<string>)
      modifies this`dwell, this`healthy
      ensures Counts() == Observe(old(Counts()), Saw(c.name, VerdictOn(c, labels, config)))
    {
      if c.name in labels {
        dwell := dwell[c.name := CountOf(dwell, c.name) + 1];
        healthy := healthy[c.name := 0];
      } else {
        dwell := dwell[c.name := 0];
        if c.test.observedRate >= c.test.baselineRate * config.closeWithin {
          healthy := healthy[c.name := CountOf(healthy, c.name) + 1];
        } else {
          healthy := healthy[c.name := 0];
        }
      }
    }

    /** Every tested segment is counted, not just the significant ones. */
    method Count(tested: seq<Candidate>, labels: set<string>)
      modifies this`dwell, this`healthy
      ensures Counts() == ObserveAll(old(Counts()), Verdicts(tested, labels, config))
    {
      hide Observe, VerdictOn;
      ghost var verdicts := Verdicts(tested, labels, config);
      for i := 0 to |tested|
        invariant Counts() == ObserveAll(old(Counts()), verdicts[..i])
      {
        assert verdicts[..i + 1][..i] == verdicts[..i];
        CountOne(tested[i], labels);
      }
      assert verdicts[..|tested|] == verdicts;
    }

    lemma TestedFrom(observations: seq<Observation>, x: Candidate)
      requires x in Tested(observations)
      ensures x.attempts >= config.volumeFloor && exists i :: 0 <= i < |observations| && Tests(observations[i], x)
    {
      hide Tests, Tested;
      var tested := Tested(observations);
      var picked := TestedAtTheFloor(observations);
      var k :| 0 <= k < |tested| && tested[k] == x;
      AttemptsOf(observations[picked[k]], x);
      assert Tests(observations[picked[k]], x) && AtFloor(observations, picked[k]);
    }

    lemma ReportedAtFloor(observations: seq<Observation>, significant: seq<Candidate>, c: Counters)
      requires IsSignificant(DropsOf(Tested(observations)), config.alpha, significant)
      ensures forall x :: x in Report(Dwelled(significant, c, config)) ==>
                && x in significant && CountOf(c.dwell, x.name) >= config.dwellWindows && x.test.z < 0.0
                && x.attempts >= config.volumeFloor && exists i :: 0 <= i < |observations| && Tests(observations[i], x)
    {
      hide Tests, Tested, IsSignificant, DropsOf, Dwelled, Reported, Keep;
      var tested, dwelled := Tested(observations), Dwelled(significant, c, config);
      DropsAreTested(tested);
      SignificantAreDrops(DropsOf(tested), config.alpha, significant);
      DwelledAreSignificant(significant, c, config);
      forall x | x in Report(dwelled)
        ensures x in significant && CountOf(c.dwell, x.name) >= config.dwellWindows && x.test.z < 0.0
        ensures x.attempts >= config.volumeFloor && exists i :: 0 <= i < |observations| && Tests(observations[i], x)
      {
        KeepIsReported(dwelled, dwelled, x);
        assert x in dwelled by {
          ReportedIsDwelled(dwelled, x);
        }
        TestedFrom(observations, x);
      }
    }

    lemma ReportedIsDwelled(dwelled: seq<Candidate>, x: Candidate)
      requires x in Report(dwelled)
      ensures x in dwelled
    {
    }

    lemma AttemptsOf(o: Observation, c: Candidate)
      requires Tests(o, c)
      ensures c.attempts == o.attempts
    {
    }

    /** One window: corrects, counts, and reports the significant segments past their dwell that no other one accounts for. */
    method Evaluate(observations: seq<Observation>) returns (reported: seq<Candidate>, ghost significant: seq<Candidate>)
      requires Valid()
      modifies this`dwell, this`healthy, this`events
      ensures Valid() && IsSignificant(DropsOf(Tested(observations)), config.alpha, significant)
      ensures events == old(events) + Verdicts(Tested(observations), Labels(significant), config)
      ensures reported == Report(Dwelled(significant, Counts(), config))
      ensures forall x :: x in reported ==>
                && x in significant && x.attempts >= config.volumeFloor && x.test.z < 0.0
                && CountOf(dwell, x.name) >= config.dwellWindows
                && exists i :: 0 <= i < |observations| && Tests(observations[i], x)
      ensures forall name :: BelowFloor(observations, name) ==> History(events, name) == History(old(events), name)
      ensures LabelsDiffer(observations) ==>
                forall i :: 0 <= i < |observations| && observations[i].attempts >= config.volumeFloor ==>
                  var name := SegmentLabel(observations[i].segment);
                  var was, now := History(old(events), name), History(events, name);
                  && |now| == |was| + 1 && now[..|was|] == was && IsVerdict(observations[i], Labels(significant), now[|was|])
                  && (now[|was|].Failing? <==> exists c :: c in significant && c.name == name)
    {
      hide Tested, SegmentLabel, Tests, IsVerdict, IsSignificant;
      var tested := Tested(observations);
      var rejected := Correct(DropsOf(tested), config.alpha);
      significant := rejected;
      ghost var verdicts := Verdicts(tested, Labels(rejected), config);
      ObserveAllSplit(FRESH, events, verdicts);
      Count(tested, Labels(rejected));
      events := events + verdicts;
      reported := Report(Dwelled(rejected, Counts(), config));
      ReportedAtFloor(observations, significant, Counts());
      forall name | BelowFloor(observations, name) ensures History(events, name) == History(old(events), name) {
        NothingGained(old(events), observations, Labels(rejected), name);
      }
      if LabelsDiffer(observations) {
        forall i: nat | AtFloor(observations, i)
          ensures var name := SegmentLabel(observations[i].segment);
                  var was, now := History(old(events), name), History(events, name);
                  && |now| == |was| + 1 && now[..|was|] == was && IsVerdict(observations[i], Labels(significant), now[|was|])
                  && (now[|was|].Failing? <==> exists c :: c in significant && c.name == name)
        {
          OneGained(old(events), observations, Labels(rejected), i);
          var name := SegmentLabel(observations[i].segment);
          FailsIff(observations[i], significant, History(events, name)[|History(old(events), name)|]);
        }
      }
    }

    method ShouldClose(name: string) returns (r: bool)
      requires Valid()
      ensures var h := History(events, name); var n := config.closeWindows;
              r <==> n <= |h| && forall i :: |h| - n <= i < |h| ==> h[i] == Healthy
    {
      ShouldCloseIff(events, name, config);
      r := CountOf(healthy, name) >= config.closeWindows;
    }

    method ResetLabel(name: string)
      requires Valid()
      modifies this`dwell, this`healthy, this`events
      ensures Valid() && events == old(events) + [Reset(name)] && History(events, name) == []
    {
      dwell, healthy := dwell - {name}, healthy - {name};
      assert (events + [Reset(name)])[..|events|] == events;
      events := events + [Reset(name)];
    }
  }
}
