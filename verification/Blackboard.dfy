/** The blackboard and the work router as they run: claim rows marked and inserted in place, case by case. */
module Blackboards {
  import opened Wrappers
  import opened CaseEvents
  import opened Claims

  function OfKinds(kinds: set<EvidenceKind>, evidence: seq<Evidence>): seq<Evidence> {
    if evidence == [] then []
    else
      var last := evidence[|evidence| - 1];
      OfKinds(kinds, evidence[..|evidence| - 1]) + if last.kind in kinds then [last] else []
  }

  /** A role that asks for its declared kinds sees its view, and never asks for none. */
  lemma {:induction false} ViewIsOfKinds(role: Role, evidence: seq<Evidence>)
    ensures OfKinds(DependsOn(role), evidence) == View(role, evidence) && DependsOn(role) != {}
  {
    if evidence != [] {
      ViewIsOfKinds(role, evidence[..|evidence| - 1]);
    }
  }

  lemma InvalidateMore<P>(rows: seq<Claim<P>>, roles: set<Role>, i: nat)
    requires i < |rows|
    ensures Invalidate(rows[..i + 1], roles) ==
            Invalidate(rows[..i], roles)
            + [if rows[i].status.Valid? && rows[i].role in roles then rows[i].(status := Invalidated) else rows[i]]
  {
  }

  lemma LiveMore<P>(rows: seq<Claim<P>>, i: nat)
    requires i < |rows|
    ensures LiveRoles(rows[..i + 1]) == LiveRoles(rows[..i]) + if rows[i].status.Valid? then {rows[i].role} else {}
  {
  }

  lemma CountMore(roles: set<Role>, live: set<Role>, r: Role)
    requires r !in live
    ensures |roles * (live + {r})| == |roles * live| + if r in roles then 1 else 0
  {
    assert roles * (live + {r}) == roles * live + if r in roles then {r} else {};
  }

  lemma LiveOnce<P>(rows: seq<Claim<P>>, i: nat)
    requires OneLive(rows) && i < |rows| && rows[i].status.Valid?
    ensures rows[i].role !in LiveRoles(rows[..i])
  {
  }

  method Mark<P>(rows: seq<Claim<P>>, roles: set<Role>) returns (marked: seq<Claim<P>>, fell: nat)
    requires OneLive(rows)
    ensures marked == Invalidate(rows, roles) && fell == |roles * LiveRoles(rows)|
  {
    marked, fell := [], 0;
    for i := 0 to |rows|
      invariant marked == Invalidate(rows[..i], roles)
      invariant fell == |roles * LiveRoles(rows[..i])|
    {
      InvalidateMore(rows, roles, i);
      LiveMore(rows, i);
      if rows[i].status.Valid? {
        LiveOnce(rows, i);
        CountMore(roles, LiveRoles(rows[..i]), rows[i].role);
      } else {
        assert LiveRoles(rows[..i]) + {} == LiveRoles(rows[..i]);
      }
      if rows[i].status.Valid? && rows[i].role in roles {
        marked, fell := marked + [rows[i].(status := Invalidated)], fell + 1;
      } else {
        marked := marked + [rows[i]];
      }
    }
    assert rows[..|rows|] == rows;
  }

  lemma InvalidateKeepsOneLive<P>(rows: seq<Claim<P>>, roles: set<Role>)
    requires OneLive(rows)
    ensures OneLive(Invalidate(rows, roles))
  {
  }

  class Blackboard<P> {
    var evidence: map<CaseId, seq<Evidence>>
    var claims: map<CaseId, seq<Claim<P>>>

    constructor ()
      ensures evidence == map[] && claims == map[]
    {
      evidence, claims := map[], map[];
    }

    function EvidenceOf(c: CaseId): seq<Evidence>
      reads this
    {
      if c in evidence then evidence[c] else []
    }

    function ClaimsOf(c: CaseId): seq<Claim<P>>
      reads this
    {
      if c in claims then claims[c] else []
    }

    /** Appends to the case's evidence: a role sees it next time exactly if it depends on the kind, and no other case's does. */
    method AddEvidence(c: CaseId, e: Evidence)
      modifies this`evidence
      ensures forall r :: View(r, EvidenceOf(c)) == View(r, old(EvidenceOf(c))) + if e.kind in DependsOn(r) then [e] else []
      ensures |EvidenceOf(c)| == |old(EvidenceOf(c))| + 1 && old(EvidenceOf(c)) <= EvidenceOf(c)
      ensures forall d :: d != c ==> EvidenceOf(d) == old(EvidenceOf(d))
    {
      ghost var before := EvidenceOf(c);
      evidence := evidence[c := EvidenceOf(c) + [e]];
      assert EvidenceOf(c)[..|before|] == before;
    }

    /** The evidence of the kinds asked for, in order; all of it when no kind is named. */
    method EvidenceFor(c: CaseId, kinds: set<EvidenceKind>) returns (seen: seq<Evidence>)
      ensures seen == if kinds == {} then EvidenceOf(c) else OfKinds(kinds, EvidenceOf(c))
      ensures forall r :: kinds == DependsOn(r) ==> seen == View(r, EvidenceOf(c))
    {
      var all := EvidenceOf(c);
      forall r | kinds == DependsOn(r) ensures kinds != {} && OfKinds(kinds, all) == View(r, all) {
        ViewIsOfKinds(r, all);
      }
      if kinds == {} {
        return all;
      }
      seen := [];
      for i := 0 to |all|
        invariant seen == OfKinds(kinds, all[..i])
      {
        assert all[..i + 1][..i] == all[..i];
        if all[i].kind in kinds {
          seen := seen + [all[i]];
        }
      }
      assert all[..|all|] == all;
    }

    method LiveClaims(c: CaseId) returns (roles: set<Role>)
      ensures roles == LiveRoles(ClaimsOf(c))
    {
      roles := LiveRoles(ClaimsOf(c));
    }

    /** Marks the live claims of the roles, and says how many there were. */
    method InvalidateRoles(c: CaseId, roles: set<Role>) returns (fell: nat)
      requires OneLive(ClaimsOf(c))
      modifies this`claims
      ensures ClaimsOf(c) == Invalidate(old(ClaimsOf(c)), roles) && (forall d :: d != c ==> ClaimsOf(d) == old(ClaimsOf(d)))
      ensures fell == |roles * LiveRoles(old(ClaimsOf(c)))|
    {
      var marked: seq<Claim<P>>;
      marked, fell := Mark(ClaimsOf(c), roles);
      claims := claims[c := marked];
    }

    /** Supersedes the role's live claim and inserts the new one. */
    method WriteClaim(c: CaseId, role: Role, read: nat, payload: P)
      requires OneLive(ClaimsOf(c))
      modifies this`claims
      ensures ClaimsOf(c) == Write(old(ClaimsOf(c)), role, read, payload) && (forall d :: d != c ==> ClaimsOf(d) == old(ClaimsOf(d)))
      ensures OneLive(ClaimsOf(c)) && role in LiveRoles(ClaimsOf(c))
    {
      InvalidateKeepsOneLive(ClaimsOf(c), {role});
      var _ := InvalidateRoles(c, {role});
      claims := claims[c := ClaimsOf(c) + [Claim(role, read, payload, Valid)]];
      assert ClaimsOf(c)[|ClaimsOf(c)| - 1].role == role;
    }
  }

  class WorkRouter<P> {
    const blackboard: Blackboard<P>

    constructor (blackboard: Blackboard<P>)
      ensures this.blackboard == blackboard
    {
      this.blackboard := blackboard;
    }

    /** Plans from the live claims as they are, then invalidates those to be rerun. */
    method Route(c: CaseId, changed: set<EvidenceKind>) returns (decision: Decision)
      requires OneLive(blackboard.ClaimsOf(c))
      modifies blackboard`claims
      ensures decision == Plan(changed, LiveRoles(old(blackboard.ClaimsOf(c))))
      ensures var live := LiveRoles(old(blackboard.ClaimsOf(c)));
              forall r :: && (r in decision.rerun <==> r !in live || exists k :: k in changed && k in DependsOn(r))
                          && (r in decision.reused <==> r in live && forall k :: k in changed ==> k !in DependsOn(r))
      ensures var was, now := old(blackboard.ClaimsOf(c)), blackboard.ClaimsOf(c);
              && |now| == |was|
              && forall i :: 0 <= i < |now| ==>
                   && now[i].role == was[i].role && now[i].read == was[i].read && now[i].payload == was[i].payload
                   && (now[i].status.Valid? <==> was[i].status.Valid? && forall k :: k in changed ==> k !in DependsOn(was[i].role))
      ensures blackboard.ClaimsOf(c) == Invalidate(old(blackboard.ClaimsOf(c)), Stale(changed, LiveRoles(old(blackboard.ClaimsOf(c)))))
      ensures forall d :: d != c ==> blackboard.ClaimsOf(d) == old(blackboard.ClaimsOf(d))
      ensures OneLive(blackboard.ClaimsOf(c))
      ensures forall r :: r in LiveRoles(blackboard.ClaimsOf(c)) <==> r in decision.reused
    {
      hide DependsOn;
      ghost var rows := blackboard.ClaimsOf(c);
      forall r ensures && (r in Plan(changed, LiveRoles(rows)).rerun <==> r !in LiveRoles(rows) || exists k :: k in changed && k in DependsOn(r))
                       && (r in Plan(changed, LiveRoles(rows)).reused <==>
                           r in LiveRoles(rows) && forall k :: k in changed ==> k !in DependsOn(r)) {
        PlanSplitsRoles(changed, LiveRoles(rows), r);
      }
      StaleRows(rows, changed);
      var live := blackboard.LiveClaims(c);
      decision := Plan(changed, live);
      var stale := set r | r in decision.rerun && r in live;
      PlanInvalidates(rows, changed);
      var _ := blackboard.InvalidateRoles(c, stale);
    }
  }

  lemma StaleRows<P>(rows: seq<Claim<P>>, changed: set<EvidenceKind>)
    ensures var now := Invalidate(rows, Stale(changed, LiveRoles(rows)));
            && |now| == |rows|
            && forall i :: 0 <= i < |now| ==>
                 && now[i].role == rows[i].role && now[i].read == rows[i].read && now[i].payload == rows[i].payload
                 && (now[i].status.Valid? <==> rows[i].status.Valid? && forall k :: k in changed ==> k !in DependsOn(rows[i].role))
  {
    hide DependsOn;
  }

  /** The live claims of the roles a plan reruns. */
  function Superseded(changed: set<EvidenceKind>, live: set<Role>): set<Role> {
    set r | r in Plan(changed, live).rerun && r in live
  }

  lemma PlanSets(changed: set<EvidenceKind>, live: set<Role>)
    ensures Superseded(changed, live) == Stale(changed, live)
    ensures forall r :: r in live && r !in Stale(changed, live) <==> r in Plan(changed, live).reused
  {
    forall r ensures (r in Superseded(changed, live) <==> r in live && Affected(r, changed))
                     && (r in Plan(changed, live).reused <==> r in live && !Affected(r, changed)) {
      PlanSplitsRoles(changed, live, r);
      AffectedIff(r, changed);
    }
  }

  lemma PlanInvalidates<P>(rows: seq<Claim<P>>, changed: set<EvidenceKind>)
    requires OneLive(rows)
    ensures var stale := Stale(changed, LiveRoles(rows));
            && Superseded(changed, LiveRoles(rows)) == stale && OneLive(Invalidate(rows, stale))
            && forall r :: r in LiveRoles(Invalidate(rows, stale)) <==> r in Plan(changed, LiveRoles(rows)).reused
  {
    hide Plan, Superseded;
    var stale := Stale(changed, LiveRoles(rows));
    PlanSets(changed, LiveRoles(rows));
    InvalidateKeepsOneLive(rows, stale);
    forall r ensures r in LiveRoles(Invalidate(rows, stale)) <==> r in LiveRoles(rows) && r !in stale {
      InvalidateClears(rows, stale, r);
    }
  }
}
