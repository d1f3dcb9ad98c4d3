/**
 * Specialist claims and what invalidates them (packages/core/src/roles.ts,
 * packages/engine/src/work-router.ts, packages/engine/src/blackboard.ts).
 * A board holds the evidence and the claims of one case.
 */
module Claims {
  import opened Wrappers
  import opened CaseEvents

  datatype Role = PaymentDiagnosis | CustomerContext | IncidentIntelligence | RecoveryEconomics | Communication

  const ROLE_IDS: seq<Role> := [PaymentDiagnosis, CustomerContext, IncidentIntelligence, RecoveryEconomics, Communication]

  function DependsOn(role: Role): set<EvidenceKind> {
    match role
    case PaymentDiagnosis => {PaymentAttempt, DeclineCode, MandateState}
    case CustomerContext => {CustomerProfile, CustomerReply, ContactHistory, ObligationState}
    case IncidentIntelligence => {IncidentMembership, SegmentMetrics}
    case RecoveryEconomics => {PaymentAttempt, DeclineCode, ObligationState, PolicySnapshot}
    case Communication => {CustomerProfile, CustomerReply, ContactHistory, PolicySnapshot}
  }

  datatype Evidence = Evidence(id: string, kind: EvidenceKind, payload: string)

  datatype Status = Valid | Invalidated

  /** `read` is how much evidence there was when the role read it. */
  datatype Claim<P> = Claim(role: Role, read: nat, payload: P, status: Status)

  // ---- Statements ----

  function Invalidate<P>(claims: seq<Claim<P>>, roles: set<Role>): (r: seq<Claim<P>>)
    ensures |r| == |claims|
  {
    seq(|claims|, i requires 0 <= i < |claims| =>
      if claims[i].status.Valid? && claims[i].role in roles then claims[i].(status := Invalidated) else claims[i])
  }

  /** One transaction: the role's live claim is superseded, then the new one is inserted. */
  function Write<P>(claims: seq<Claim<P>>, role: Role, read: nat, payload: P): seq<Claim<P>> {
    Invalidate(claims, {role}) + [Claim(role, read, payload, Valid)]
  }

  function LiveRoles<P>(claims: seq<Claim<P>>): set<Role> {
    set i | 0 <= i < |claims| && claims[i].status.Valid? :: claims[i].role
  }

  predicate Affected(role: Role, changed: set<EvidenceKind>) {
    exists k :: k in DependsOn(role) && k in changed
  }

  datatype Decision = Decision(rerun: seq<Role>, reused: seq<Role>)

  function Pick(roles: seq<Role>, wanted: Role -> bool): (r: seq<Role>)
    ensures forall x :: x in r <==> x in roles && wanted(x)
  {
    if roles == [] then []
    else (if wanted(roles[0]) then [roles[0]] else []) + Pick(roles[1..], wanted)
  }

  function Plan(changed: set<EvidenceKind>, live: set<Role>): Decision {
    Decision(Pick(ROLE_IDS, r => Affected(r, changed) || r !in live), Pick(ROLE_IDS, r => r in live && !Affected(r, changed)))
  }

  /** Every role is listed, rerun or reused and never both; reused are the live roles of whose kinds none has changed. */
  lemma PlanSplitsRoles(changed: set<EvidenceKind>, live: set<Role>, role: Role)
    ensures var d := Plan(changed, live);
            && (role in d.rerun <==> !(DependsOn(role) !! changed) || role !in live)
            && (role in d.reused <==> role in live && DependsOn(role) !! changed)
  {
    hide DependsOn;
    AffectedIff(role, changed);
  }

  /** And it is listed once. */
  lemma PlanListsOnce(changed: set<EvidenceKind>, live: set<Role>, role: Role)
    ensures var d := Plan(changed, live); multiset(d.rerun + d.reused)[role] == 1
  {
    hide Affected, Pick;
    var d := Plan(changed, live);
    PickOnce(ROLE_IDS, r => Affected(r, changed) || r !in live, role);
    PickOnce(ROLE_IDS, r => r in live && !Affected(r, changed), role);
    RolesAreListedOnce(role);
  }

  lemma RolesAreListedOnce(role: Role)
    ensures multiset(ROLE_IDS)[role] == 1
  {
  }

  lemma AffectedIff(role: Role, changed: set<EvidenceKind>)
    ensures Affected(role, changed) <==> !(DependsOn(role) !! changed)
  {
    hide DependsOn;
    var common := DependsOn(role) * changed;
    if common != {} {
      var k :| k in common;
      assert k in DependsOn(role) && k in changed;
    } else {
      forall k | k in DependsOn(role) ensures k !in changed {
        assert k !in common;
      }
    }
  }

  lemma {:induction false} PickOnce(roles: seq<Role>, wanted: Role -> bool, role: Role)
    ensures multiset(Pick(roles, wanted))[role] == if wanted(role) then multiset(roles)[role] else 0
  {
    if roles != [] {
      PickOnce(roles[1..], wanted, role);
      assert roles == [roles[0]] + roles[1..];
    }
  }

  /** Which roles a piece of evidence puts up for a rerun, kind by kind. */
  lemma RerunsOf(kind: EvidenceKind, role: Role)
    ensures Affected(role, {kind}) <==>
            match kind
            case PaymentAttempt => role.PaymentDiagnosis? || role.RecoveryEconomics?
            case DeclineCode => role.PaymentDiagnosis? || role.RecoveryEconomics?
            case MandateState => role.PaymentDiagnosis?
            case CustomerProfile => role.CustomerContext? || role.Communication?
            case CustomerReply => role.CustomerContext? || role.Communication?
            case ContactHistory => role.CustomerContext? || role.Communication?
            case ObligationState => role.CustomerContext? || role.RecoveryEconomics?
            case IncidentMembership => role.IncidentIntelligence?
            case SegmentMetrics => role.IncidentIntelligence?
            case PolicySnapshot => role.RecoveryEconomics? || role.Communication?
  {
    AffectedIff(role, {kind});
  }

  function Stale(changed: set<EvidenceKind>, live: set<Role>): set<Role> {
    set r | r in live && Affected(r, changed)
  }

  // ---- What a role sees ----

  function View(role: Role, evidence: seq<Evidence>): seq<Evidence> {
    if evidence == [] then []
    else
      var last := evidence[|evidence| - 1];
      View(role, evidence[..|evidence| - 1]) + if last.kind in DependsOn(role) then [last] else []
  }

  /** A role's output depends on the evidence of its declared kinds and on nothing else. */
  ghost predicate Respectful<P(!new)>(output: (Role, seq<Evidence>) -> P) {
    forall r, a, b :: View(r, a) == View(r, b) ==> output(r, a) == output(r, b)
  }

  /** No evidence of the role's kinds from place `n` on, other than at places in `pending`. */
  predicate Fresh(evidence: seq<Evidence>, role: Role, n: nat, pending: set<nat>) {
    n <= |evidence| && forall i :: n <= i < |evidence| && evidence[i].kind in DependsOn(role) ==> i in pending
  }

  lemma FreshMore(role: Role, evidence: seq<Evidence>, n: nat)
    requires n < |evidence|
    ensures var m := |evidence| - 1;
            Fresh(evidence, role, n, {}) <==> Fresh(evidence[..m], role, n, {}) && evidence[m].kind !in DependsOn(role)
  {
    hide DependsOn;
    var m := |evidence| - 1;
    assert forall i :: 0 <= i < m ==> evidence[..m][i] == evidence[i];
  }

  lemma {:induction false} ViewOfPrefix(role: Role, evidence: seq<Evidence>, n: nat)
    requires n <= |evidence|
    ensures |View(role, evidence[..n])| <= |View(role, evidence)|
    ensures |View(role, evidence[..n])| == |View(role, evidence)| <==> Fresh(evidence, role, n, {})
    ensures Fresh(evidence, role, n, {}) ==> View(role, evidence[..n]) == View(role, evidence)
    decreases |evidence|
  {
    if n == |evidence| {
      assert evidence[..n] == evidence;
    } else {
      hide DependsOn, Fresh;
      var m := |evidence| - 1;
      ViewOfPrefix(role, evidence[..m], n);
      FreshMore(role, evidence, n);
      assert evidence[..m][..n] == evidence[..n];
    }
  }

  // ---- Runs ----

  type RunId = nat

  /** A run of a role that has read its evidence and not yet written its claim. */
  datatype Reader = Reader(role: Role, read: nat)

  /** A route that has read the live claims and not yet invalidated any: the evidence it answers for, and what it will mark. */
  datatype Router = Router(covered: set<nat>, stale: set<Role>)

  /**
   * `pending` holds the places of the evidence no route has dealt with. Two parts are
   * history: the runs that evidence of their kinds has overtaken since they read, and
   * the roles whose live claim was written by such a run.
   */
  datatype Board<P> = Board(
    evidence: seq<Evidence>,
    claims: seq<Claim<P>>,
    pending: set<nat>,
    routers: map<RunId, Router>,
    readers: map<RunId, Reader>,
    overtaken: set<RunId>,
    late: set<Role>)

  /** A route reads and then writes; a run of a role reads and then writes or fails. Either can die in between. */
  datatype Op =
    | Add(e: Evidence)
    | RouteRead(h: RunId, changed: set<EvidenceKind>)
    | RouteWrite(h: RunId)
    | RouteLost(h: RunId)
    | Start(run: RunId, role: Role)
    | Finish(run: RunId)
    | Fail(run: RunId)

  /** The unrouted evidence of these kinds. */
  function Covered<P>(b: Board<P>, changed: set<EvidenceKind>): set<nat> {
    set i | i in b.pending && i < |b.evidence| && b.evidence[i].kind in changed
  }

  function RoutedWrite<P>(b: Board<P>, h: RunId): Board<P>
    requires h in b.routers
  {
    var r := b.routers[h];
    b.(claims := Invalidate(b.claims, r.stale), pending := b.pending - r.covered, late := b.late - r.stale, routers := b.routers - {h})
  }

  function Finished<P>(b: Board<P>, run: RunId, payload: P): Board<P>
    requires run in b.readers
  {
    var r := b.readers[run];
    b.(claims := Write(b.claims, r.role, r.read, payload),
       readers := b.readers - {run},
       overtaken := b.overtaken - {run},
       late := if run in b.overtaken then b.late + {r.role} else b.late - {r.role})
  }

  function Step<P>(b: Board<P>, op: Op, output: (Role, seq<Evidence>) -> P): Board<P> {
    match op
    case Add(e) =>
      b.(evidence := b.evidence + [e], pending := b.pending + {|b.evidence|},
         overtaken := b.overtaken + set run | run in b.readers && e.kind in DependsOn(b.readers[run].role))
    case RouteRead(h, changed) =>
      b.(routers := b.routers[h := Router(Covered(b, changed), Stale(changed, LiveRoles(b.claims)))])
    case RouteWrite(h) => if h in b.routers then RoutedWrite(b, h) else b
    case RouteLost(h) => b.(routers := b.routers - {h})
    case Start(run, role) => b.(readers := b.readers[run := Reader(role, |b.evidence|)], overtaken := b.overtaken - {run})
    case Finish(run) =>
      if run in b.readers && b.readers[run].read <= |b.evidence|
      then Finished(b, run, output(b.readers[run].role, b.evidence[..b.readers[run].read]))
      else b
    case Fail(run) => b.(readers := b.readers - {run}, overtaken := b.overtaken - {run})
  }

  function StepAll<P>(b: Board<P>, ops: seq<Op>, output: (Role, seq<Evidence>) -> P): Board<P>
    decreases |ops|
  {
    if ops == [] then b else StepAll(Step(b, ops[0], output), ops[1..], output)
  }

  function Blank<P>(): Board<P> {
    Board([], [], {}, map[], map[], {}, {})
  }

  /** Every piece of evidence the role depends on has been routed. */
  predicate AllRouted<P>(b: Board<P>, role: Role) {
    forall i :: i in b.pending && i < |b.evidence| ==> b.evidence[i].kind !in DependsOn(role)
  }

  /** A claim agrees with rerunning its role from scratch. */
  predicate Agrees<P(==)>(c: Claim<P>, evidence: seq<Evidence>, output: (Role, seq<Evidence>) -> P) {
    c.payload == output(c.role, evidence)
  }

  // ---- The invariant ----

  /** Nothing of the role's kinds came after the reading, except what is pending; or something did, and the claim is marked late. */
  predicate ClaimOk<P(==)>(b: Board<P>, c: Claim<P>, output: (Role, seq<Evidence>) -> P) {
    && c.read <= |b.evidence| && c.payload == output(c.role, b.evidence[..c.read])
    && (c.status.Valid? ==>
          if c.role in b.late then !Fresh(b.evidence, c.role, c.read, {}) else Fresh(b.evidence, c.role, c.read, b.pending))
  }

  ghost predicate ClaimsOk<P(!new)>(b: Board<P>, output: (Role, seq<Evidence>) -> P) {
    forall i {:trigger ClaimOk(b, b.claims[i], output)} :: 0 <= i < |b.claims| ==> ClaimOk(b, b.claims[i], output)
  }

  predicate ReaderOk<P>(b: Board<P>, run: RunId) {
    run in b.readers ==>
      && b.readers[run].read <= |b.evidence|
      && (run in b.overtaken <==> !Fresh(b.evidence, b.readers[run].role, b.readers[run].read, {}))
  }

  /** What a route answers for is read by no live claim it will leave standing. */
  predicate Spares<P>(b: Board<P>, r: Router, c: Claim<P>) {
    c.status.Valid? && c.role !in r.stale && c.role !in b.late ==>
      forall i :: i in r.covered && c.read <= i < |b.evidence| ==> b.evidence[i].kind !in DependsOn(c.role)
  }

  predicate RouterOk<P>(b: Board<P>, h: RunId) {
    h in b.routers ==>
      && (forall i :: i in b.routers[h].covered ==> i < |b.evidence|)
      && (forall k :: 0 <= k < |b.claims| ==> Spares(b, b.routers[h], b.claims[k]))
  }

  ghost predicate OneLive<P>(claims: seq<Claim<P>>) {
    forall i, j :: 0 <= i < j < |claims| && claims[i].status.Valid? && claims[j].status.Valid? ==> claims[i].role != claims[j].role
  }

  ghost predicate BoardInv<P(!new)>(b: Board<P>, output: (Role, seq<Evidence>) -> P) {
    && ClaimsOk(b, output) && OneLive(b.claims)
    && (forall r {:trigger ReaderOk(b, r)} :: ReaderOk(b, r))
    && (forall h {:trigger RouterOk(b, h)} :: RouterOk(b, h))
  }

  lemma FreshAfter(evidence: seq<Evidence>, e: Evidence, role: Role, n: nat, pending: set<nat>)
    requires n <= |evidence|
    ensures Fresh(evidence + [e], role, n, pending + {|evidence|}) <==> Fresh(evidence, role, n, pending + {|evidence|})
    ensures Fresh(evidence, role, n, pending) ==> Fresh(evidence + [e], role, n, pending + {|evidence|})
    ensures Fresh(evidence + [e], role, n, {}) <==> Fresh(evidence, role, n, {}) && e.kind !in DependsOn(role)
  {
    hide DependsOn;
    assert forall i :: 0 <= i < |evidence| ==> (evidence + [e])[i] == evidence[i];
    assert (evidence + [e])[|evidence|] == e;
  }

  lemma AddKeeps<P(!new)>(b: Board<P>, e: Evidence, output: (Role, seq<Evidence>) -> P)
    requires BoardInv(b, output)
    ensures BoardInv(Step(b, Add(e), output), output)
  {
    hide DependsOn, Fresh;
    var b' := Step(b, Add(e), output);
    forall i | 0 <= i < |b'.claims| ensures ClaimOk(b', b'.claims[i], output) {
      var c := b.claims[i];
      assert ClaimOk(b, c, output);
      FreshAfter(b.evidence, e, c.role, c.read, b.pending);
      assert b'.evidence[..c.read] == b.evidence[..c.read];
    }
    forall r ensures ReaderOk(b', r) {
      assert ReaderOk(b, r);
      if r in b.readers {
        FreshAfter(b.evidence, e, b.readers[r].role, b.readers[r].read, {});
      }
    }
    forall h ensures RouterOk(b', h) {
      assert RouterOk(b, h);
      if h in b.routers {
        forall k | 0 <= k < |b.claims| ensures Spares(b', b.routers[h], b.claims[k]) {
          assert Spares(b, b.routers[h], b.claims[k]);
        }
      }
    }
  }

  lemma RouteReadKeeps<P(!new)>(b: Board<P>, h: RunId, changed: set<EvidenceKind>, output: (Role, seq<Evidence>) -> P)
    requires BoardInv(b, output)
    ensures BoardInv(Step(b, RouteRead(h, changed), output), output)
  {
    hide Fresh;
    var b' := Step(b, RouteRead(h, changed), output);
    SameClaims(b, b', output);
    forall g ensures RouterOk(b', g) {
      assert RouterOk(b, g);
      if g == h {
        forall k | 0 <= k < |b.claims| ensures Spares(b', b'.routers[h], b.claims[k]) {
          assert b.claims[k].status.Valid? ==> b.claims[k].role in LiveRoles(b.claims);
        }
      } else if g in b.routers {
        forall k | 0 <= k < |b.claims| ensures Spares(b', b.routers[g], b.claims[k]) {
          assert Spares(b, b.routers[g], b.claims[k]);
        }
      }
    }
  }

  lemma SameClaims<P(!new)>(b: Board<P>, b': Board<P>, output: (Role, seq<Evidence>) -> P)
    requires BoardInv(b, output) && b' == b.(routers := b'.routers)
    ensures ClaimsOk(b', output) && OneLive(b'.claims) && forall r :: ReaderOk(b', r)
  {
    hide Fresh;
    forall i | 0 <= i < |b'.claims| ensures ClaimOk(b', b'.claims[i], output) {
      assert ClaimOk(b, b.claims[i], output);
    }
    forall r ensures ReaderOk(b', r) {
      assert ReaderOk(b, r);
    }
  }

  lemma RouteLostKeeps<P(!new)>(b: Board<P>, h: RunId, output: (Role, seq<Evidence>) -> P)
    requires BoardInv(b, output)
    ensures BoardInv(Step(b, RouteLost(h), output), output)
  {
    var b' := Step(b, RouteLost(h), output);
    SameClaims(b, b', output);
    forall g ensures RouterOk(b', g) {
      assert RouterOk(b, g);
      if g in b'.routers {
        forall k | 0 <= k < |b.claims| ensures Spares(b', b.routers[g], b.claims[k]) {
          assert Spares(b, b.routers[g], b.claims[k]);
        }
      }
    }
  }

  lemma RouteWriteKeeps<P(!new)>(b: Board<P>, h: RunId, output: (Role, seq<Evidence>) -> P)
    requires BoardInv(b, output) && h in b.routers
    ensures BoardInv(RoutedWrite(b, h), output)
  {
    hide DependsOn;
    var b' := RoutedWrite(b, h);
    assert RouterOk(b, h);
    forall i | 0 <= i < |b'.claims| ensures ClaimOk(b', b'.claims[i], output) {
      assert ClaimOk(b, b.claims[i], output) && Spares(b, b.routers[h], b.claims[i]);
    }
    forall r ensures ReaderOk(b', r) {
      assert ReaderOk(b, r);
    }
    forall g ensures RouterOk(b', g) {
      assert RouterOk(b, g);
      if g in b'.routers {
        forall k | 0 <= k < |b'.claims| ensures Spares(b', b.routers[g], b'.claims[k]) {
          assert Spares(b, b.routers[g], b.claims[k]);
        }
      }
    }
  }

  lemma FinishKeeps<P(!new)>(b: Board<P>, run: RunId, output: (Role, seq<Evidence>) -> P)
    requires BoardInv(b, output) && run in b.readers && b.readers[run].read <= |b.evidence|
    ensures BoardInv(Finished(b, run, output(b.readers[run].role, b.evidence[..b.readers[run].read])), output)
  {
    hide DependsOn;
    var b' := Finished(b, run, output(b.readers[run].role, b.evidence[..b.readers[run].read]));
    assert ReaderOk(b, run);
    forall i | 0 <= i < |b'.claims| ensures ClaimOk(b', b'.claims[i], output) {
      if i < |b.claims| {
        assert ClaimOk(b, b.claims[i], output);
      }
    }
    forall r ensures ReaderOk(b', r) {
      assert ReaderOk(b, r);
    }
    forall g ensures RouterOk(b', g) {
      assert RouterOk(b, g);
      if g in b.routers {
        forall k | 0 <= k < |b'.claims| ensures Spares(b', b.routers[g], b'.claims[k]) {
          assert k < |b.claims| ==> Spares(b, b.routers[g], b.claims[k]);
        }
      }
    }
  }

  lemma StartKeeps<P(!new)>(b: Board<P>, op: Op, output: (Role, seq<Evidence>) -> P)
    requires BoardInv(b, output) && (op.Start? || op.Fail?)
    ensures BoardInv(Step(b, op, output), output)
  {
    var b' := Step(b, op, output);
    forall i | 0 <= i < |b'.claims| ensures ClaimOk(b', b'.claims[i], output) {
      assert ClaimOk(b, b.claims[i], output);
    }
    forall r ensures ReaderOk(b', r) {
      assert ReaderOk(b, r);
    }
    forall g ensures RouterOk(b', g) {
      assert RouterOk(b, g);
      if g in b.routers {
        forall k | 0 <= k < |b.claims| ensures Spares(b', b.routers[g], b.claims[k]) {
          assert Spares(b, b.routers[g], b.claims[k]);
        }
      }
    }
  }

  lemma {:induction false} StepAllKeeps<P(!new)>(b: Board<P>, ops: seq<Op>, output: (Role, seq<Evidence>) -> P)
    requires BoardInv(b, output)
    ensures BoardInv(StepAll(b, ops, output), output)
    decreases |ops|
  {
    if ops != [] {
      match ops[0] {
        case Add(e) => AddKeeps(b, e, output);
        case RouteRead(h, changed) => RouteReadKeeps(b, h, changed, output);
        case RouteWrite(h) =>
          if h in b.routers {
            RouteWriteKeeps(b, h, output);
          }
        case RouteLost(h) => RouteLostKeeps(b, h, output);
        case Finish(run) =>
          if run in b.readers && b.readers[run].read <= |b.evidence| {
            FinishKeeps(b, run, output);
          }
        case _ => StartKeeps(b, ops[0], output);
      }
      StepAllKeeps(Step(b, ops[0], output), ops[1..], output);
    }
  }

  lemma ReachableBoardInv<P(!new)>(ops: seq<Op>, output: (Role, seq<Evidence>) -> P)
    ensures BoardInv(StepAll(Blank(), ops, output), output)
  {
    forall r ensures ReaderOk(Blank<P>(), r) && RouterOk(Blank<P>(), r) {
    }
    StepAllKeeps(Blank(), ops, output);
  }

  // ---- Coherence ----

  /**
   * Whatever evidence came, whichever runs failed and however routes and runs
   * overlapped: once the evidence of its kinds has been routed, a live claim says what
   * rerunning its role on all the evidence would say, unless evidence overtook its writer.
   */
  lemma LiveClaimsAgree<P(!new)>(ops: seq<Op>, output: (Role, seq<Evidence>) -> P, i: nat)
    requires Respectful(output)
    requires var b := StepAll(Blank(), ops, output);
             i < |b.claims| && b.claims[i].status.Valid? && AllRouted(b, b.claims[i].role) && b.claims[i].role !in b.late
    ensures var b := StepAll(Blank(), ops, output); Agrees(b.claims[i], b.evidence, output)
  {
    ReachableBoardInv(ops, output);
    var b := StepAll(Blank(), ops, output);
    var c := b.claims[i];
    assert ClaimOk(b, c, output);
    assert Fresh(b.evidence, c.role, c.read, {});
    ViewOfPrefix(c.role, b.evidence, c.read);
  }

  /** The condition is exact: with roles that report what they saw, a routed live claim is right if and only if its role is not late. */
  lemma RoutedClaimsAgreeIff(ops: seq<Op>, i: nat)
    requires var b := StepAll(Blank(), ops, View);
             i < |b.claims| && b.claims[i].status.Valid? && AllRouted(b, b.claims[i].role)
    ensures var b := StepAll(Blank(), ops, View);
            Agrees(b.claims[i], b.evidence, View) <==> b.claims[i].role !in b.late
  {
    var output := View;
    ReachableBoardInv(ops, output);
    var b := StepAll(Blank(), ops, output);
    assert ClaimOk(b, b.claims[i], output);
    CopiesAgreeIff(b, b.claims[i]);
  }

  /** A board with one run of the role at work, one piece of evidence it has not read, and no claims. */
  function Passed(role: Role, e: Evidence, pending: set<nat>, routers: map<RunId, Router>): Board<seq<Evidence>> {
    Board([e], [], pending, routers, map[0 := Reader(role, 0)], {0}, {})
  }

  lemma PassedAdd(role: Role, e: Evidence)
    requires e.kind in DependsOn(role)
    ensures Step(Board([], [], {}, map[], map[0 := Reader(role, 0)], {}, {}), Add(e), View) == Passed(role, e, {0}, map[])
  {
    hide DependsOn;
    var b: Board<seq<Evidence>> := Board([], [], {}, map[], map[0 := Reader(role, 0)], {}, {});
    assert (set run | run in b.readers && e.kind in DependsOn(b.readers[run].role)) == {0};
    assert b.evidence + [e] == [e];
  }

  lemma PassedRoute(role: Role, e: Evidence)
    ensures Step(Passed(role, e, {0}, map[]), RouteRead(1, {e.kind}), View) == Passed(role, e, {0}, map[1 := Router({0}, {})])
    ensures Step(Passed(role, e, {0}, map[1 := Router({0}, {})]), RouteWrite(1), View) == Passed(role, e, {}, map[])
  {
    hide DependsOn;
    var b := Passed(role, e, {0}, map[]);
    assert Covered(b, {e.kind}) == {0};
    assert LiveRoles(b.claims) == {} && Stale({e.kind}, LiveRoles(b.claims)) == {};
    assert b.routers[1 := Router({0}, {})] == map[1 := Router({0}, {})];
    var b' := Passed(role, e, {0}, map[1 := Router({0}, {})]);
    assert RoutedWrite(b', 1).routers == map[] && b'.pending - {0} == {} && b'.late - {} == {};
    assert Invalidate(b'.claims, {}) == b'.claims;
  }

  lemma PassedFinish(role: Role, e: Evidence)
    ensures Step(Passed(role, e, {}, map[]), Finish(0), View) == Board([e], [Claim(role, 0, [], Valid)], {}, map[], map[], {}, {role})
  {
    var b, empty: seq<Evidence> := Passed(role, e, {}, map[]), [];
    assert [e][..0] == empty;
    assert View(role, empty) == empty;
    var claims: seq<Claim<seq<Evidence>>> := [];
    assert b.claims == claims;
    assert Write(claims, role, 0, empty) == [Claim(role, 0, empty, Valid)];
    var done := Finished(b, 0, empty);
    assert done.claims == [Claim(role, 0, empty, Valid)] && done.evidence == [e] && done.pending == {} && done.routers == map[];
    assert done.readers == map[] && done.overtaken == {} && done.late == {role};
    assert done == Board([e], [Claim(role, 0, empty, Valid)], {}, map[], map[], {}, {role});
    assert Step(b, Finish(0), View) == done;
  }

  lemma StepAllCons<P>(b: Board<P>, op: Op, rest: seq<Op>, output: (Role, seq<Evidence>) -> P)
    ensures StepAll(b, [op] + rest, output) == StepAll(Step(b, op, output), rest, output)
  {
    assert ([op] + rest)[1..] == rest;
  }

  /** Such a claim arises: a run reads, evidence of its kinds comes and is routed, and then the run writes. */
  lemma OvertakenClaimSurvives(role: Role, e: Evidence)
    requires e.kind in DependsOn(role)
    ensures var ops := [Start(0, role)] + ([Add(e)] + ([RouteRead(1, {e.kind})] + ([RouteWrite(1)] + ([Finish(0)] + []))));
            var b := StepAll(Blank(), ops, View);
            && b.claims == [Claim(role, 0, [], Valid)] && b.evidence == [e] && b.pending == {} && role in b.late
            && !Agrees(b.claims[0], b.evidence, View)
  {
    hide DependsOn, Step;
    var output := View;
    var b0: Board<seq<Evidence>> := Blank();
    var b1: Board<seq<Evidence>> := Board([], [], {}, map[], map[0 := Reader(role, 0)], {}, {});
    StartsAlone(role);
    PassedAdd(role, e);
    PassedRoute(role, e);
    PassedFinish(role, e);
    StepAllCons(b0, Start(0, role), [Add(e)] + ([RouteRead(1, {e.kind})] + ([RouteWrite(1)] + ([Finish(0)] + []))), output);
    StepAllCons(b1, Add(e), [RouteRead(1, {e.kind})] + ([RouteWrite(1)] + ([Finish(0)] + [])), output);
    StepAllCons(Passed(role, e, {0}, map[]), RouteRead(1, {e.kind}), [RouteWrite(1)] + ([Finish(0)] + []), output);
    StepAllCons(Passed(role, e, {0}, map[1 := Router({0}, {})]), RouteWrite(1), [Finish(0)] + [], output);
    StepAllCons(Passed(role, e, {}, map[]), Finish(0), [], output);
    var last: Board<seq<Evidence>> := Board([e], [Claim(role, 0, [], Valid)], {}, map[], map[], {}, {role});
    assert StepAll(last, [], output) == last && last.pending == {};
    ViewOfPrefix(role, [e], 0);
    assert [e][..0] == [];
    assert !Fresh([e], role, 0, {}) by {
      assert [e][0].kind in DependsOn(role);
    }
  }

  lemma StartsAlone(role: Role)
    ensures Step(Blank(), Start(0, role), View) == Board([], [], {}, map[], map[0 := Reader(role, 0)], {}, {})
  {
  }

  /** Along the run, no evidence comes while a role that depends on it is at work. */
  ghost predicate Undisturbed<P>(b: Board<P>, ops: seq<Op>, output: (Role, seq<Evidence>) -> P)
    decreases |ops|
  {
    ops == []
    || ((ops[0].Add? ==> forall run :: run in b.readers ==> ops[0].e.kind !in DependsOn(b.readers[run].role))
        && Undisturbed(Step(b, ops[0], output), ops[1..], output))
  }

  lemma {:induction false} NobodyIsLate<P>(b: Board<P>, ops: seq<Op>, output: (Role, seq<Evidence>) -> P)
    requires b.late == {} && b.overtaken == {} && Undisturbed(b, ops, output)
    ensures StepAll(b, ops, output).late == {}
    decreases |ops|
  {
    if ops != [] {
      NobodyIsLate(Step(b, ops[0], output), ops[1..], output);
    }
  }

  /** So where runs are not disturbed, every live claim whose evidence has been routed is right. */
  lemma UndisturbedClaimsAgree<P(!new)>(ops: seq<Op>, output: (Role, seq<Evidence>) -> P, i: nat)
    requires Respectful(output) && Undisturbed(Blank<P>(), ops, output)
    requires var b := StepAll(Blank(), ops, output); i < |b.claims| && b.claims[i].status.Valid? && AllRouted(b, b.claims[i].role)
    ensures var b := StepAll(Blank(), ops, output); Agrees(b.claims[i], b.evidence, output)
  {
    NobodyIsLate(Blank<P>(), ops, output);
    LiveClaimsAgree(ops, output, i);
  }

  lemma AtMostOneLiveClaim<P(!new)>(ops: seq<Op>, output: (Role, seq<Evidence>) -> P, i: nat, j: nat)
    requires var cs := StepAll(Blank(), ops, output).claims;
             i < |cs| && j < |cs| && cs[i].status.Valid? && cs[j].status.Valid? && cs[i].role == cs[j].role
    ensures i == j
  {
    ReachableBoardInv(ops, output);
  }

  /** For a role that reports what it saw, a claim is right exactly while no evidence of its kinds has come since it read. */
  lemma CopiesAgreeIff(b: Board<seq<Evidence>>, c: Claim<seq<Evidence>>)
    requires ClaimOk(b, c, View)
    ensures Agrees(c, b.evidence, View) <==> Fresh(b.evidence, c.role, c.read, {})
  {
    ViewOfPrefix(c.role, b.evidence, c.read);
  }

  /**
   * Evidence that is added and not routed leaves every live claim live; each stays
   * right exactly if it was right and its role does not depend on the kind.
   */
  lemma SkippedRoute(b: Board<seq<Evidence>>, e: Evidence, i: nat)
    requires BoardInv(b, View) && i < |b.claims| && b.claims[i].status.Valid?
    ensures var b' := Step(b, Add(e), View); var c := b.claims[i];
            && b'.claims == b.claims
            && (Agrees(c, b'.evidence, View) <==>
                Agrees(c, b.evidence, View) && e.kind !in DependsOn(c.role))
  {
    var output := View;
    var b', c := Step(b, Add(e), output), b.claims[i];
    assert ClaimOk(b, c, output);
    ViewOfPrefix(c.role, b.evidence, c.read);
    ViewOfPrefix(c.role, b'.evidence, c.read);
    assert b'.evidence[..c.read] == b.evidence[..c.read];
    FreshAfter(b.evidence, e, c.role, c.read, {});
  }

  lemma InvalidateClears<P>(claims: seq<Claim<P>>, roles: set<Role>, role: Role)
    ensures role in LiveRoles(Invalidate(claims, roles)) <==> role in LiveRoles(claims) && role !in roles
  {
    var claims' := Invalidate(claims, roles);
    if role in LiveRoles(claims) && role !in roles {
      var i :| 0 <= i < |claims| && claims[i].status.Valid? && claims[i].role == role;
      assert claims'[i].status.Valid? && claims'[i].role == role;
    }
    if role in LiveRoles(claims') {
      var i :| 0 <= i < |claims'| && claims'[i].status.Valid? && claims'[i].role == role;
      assert claims[i].status.Valid? && claims[i].role == role;
    }
  }

  /** A route leaves no claim of a role whose evidence moved before it read the claims, rather than a stale one. */
  lemma RouteClearsAffected<P>(b: Board<P>, h: RunId, changed: set<EvidenceKind>, output: (Role, seq<Evidence>) -> P, role: Role)
    ensures var b' := Step(Step(b, RouteRead(h, changed), output), RouteWrite(h), output);
            role in LiveRoles(b'.claims) <==> role in LiveRoles(b.claims) && DependsOn(role) !! changed
  {
    AffectedIff(role, changed);
    InvalidateClears(b.claims, Stale(changed, LiveRoles(b.claims)), role);
  }

  /** No run of the role finishes along the steps: each run that does is another role's. */
  ghost predicate NoFinishOf<P>(b: Board<P>, ops: seq<Op>, output: (Role, seq<Evidence>) -> P, role: Role)
    decreases |ops|
  {
    ops == []
    || ((ops[0].Finish? && ops[0].run in b.readers ==> b.readers[ops[0].run].role != role)
        && NoFinishOf(Step(b, ops[0], output), ops[1..], output, role))
  }

  /** Until a run of it finishes, a role without a claim stays without one and every plan reruns it, however often it fails. */
  lemma {:induction false} FailedRoleIsRerun<P(!new)>(b: Board<P>, ops: seq<Op>, output: (Role, seq<Evidence>) -> P,
                                                      role: Role, changed: set<EvidenceKind>)
    requires role !in LiveRoles(b.claims) && NoFinishOf(b, ops, output, role)
    ensures var live := LiveRoles(StepAll(b, ops, output).claims);
            role !in live && role in Plan(changed, live).rerun && role !in Plan(changed, live).reused
    decreases |ops|
  {
    if ops == [] {
      PlanSplitsRoles(changed, LiveRoles(b.claims), role);
    } else {
      hide Plan, DependsOn;
      var b' := Step(b, ops[0], output);
      forall i | 0 <= i < |b'.claims| && b'.claims[i].status.Valid? ensures b'.claims[i].role != role {
        assert i < |b.claims| && b.claims[i].status.Valid? ==> b.claims[i].role in LiveRoles(b.claims);
      }
      FailedRoleIsRerun(b', ops[1..], output, role, changed);
    }
  }

  /** A run that finishes leaves the role one live claim: what it made of the evidence there was when it read. */
  lemma FinishWrites<P(!new)>(ops: seq<Op>, output: (Role, seq<Evidence>) -> P, run: RunId)
    requires run in StepAll(Blank(), ops, output).readers
    ensures var b := StepAll(Blank(), ops, output); var b', r := Step(b, Finish(run), output), b.readers[run];
            && r.read <= |b.evidence| && |b'.claims| == |b.claims| + 1 && run !in b'.readers
            && b'.claims[|b.claims|] == Claim(r.role, r.read, output(r.role, b.evidence[..r.read]), Valid)
            && (forall i :: 0 <= i < |b.claims| && b'.claims[i].status.Valid? ==> b.claims[i].status.Valid? && b'.claims[i].role != r.role)
  {
    ReachableBoardInv(ops, output);
    assert ReaderOk(StepAll(Blank(), ops, output), run);
  }

  /** A route that is lost between its read and its write invalidates nothing, then or later. */
  lemma LostRouteWritesNothing<P>(b: Board<P>, h: RunId, output: (Role, seq<Evidence>) -> P)
    ensures var b' := Step(b, RouteLost(h), output); b'.claims == b.claims && Step(b', RouteWrite(h), output).claims == b.claims
  {
  }
}
