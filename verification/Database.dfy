/** The event store and the scheduler as they run: transactions over tables updated in place. */
module Databases {
  import opened Wrappers
  import opened StateMachine
  import opened CaseEvents
  import opened CaseFabric
  import opened FabricInvariant
  import opened SortedIds

  class Database {
    var cases: map<CaseId, CaseRow>
    var events: map<CaseId, Log>
    var revisions: map<CaseId, seq<CaseRevision>>
    var actions: seq<ActionRow>
    var locked: map<RowId, Worker>

    function Tables(): Tables
      reads this
    {
      CaseFabric.Tables(cases, events, revisions, actions, locked)
    }

    constructor ()
      ensures Tables() == EMPTY && Inv(Tables())
    {
      cases, events, revisions, actions, locked := map[], map[], map[], [], map[];
    }

    /**
     * The append transaction. The statements run in order against the tables; when
     * the reducer refuses the log, the transaction rolls back to where it began.
     */
    method Append(c: CaseId, e: CaseEvent, source: string, now: int) returns (r: Result<CaseRevision, AppendError>)
      modifies this
      ensures AppendTo(old(Tables()), c, e, source, now) == if r.Ok? then Ok(Tables()) else Err(r.error)
      ensures r.Err? ==> Tables() == old(Tables())
      ensures r.Ok? ==> c in events && ReduceAll(c, events[c]) == Ok(r.value)
    {
      hide ReduceAll, CancelFor, WriteRevision, IsTerminal;
      if c !in cases {
        return Err(NoSuchCase);
      }
      var cases0, events0 := cases, events;
      var row := cases[c];
      var log := Tables().EventsOf(c) + [StoredEvent(c, row.nextSeq, e, source, now)];
      events := events[c := log];
      cases := cases[c := row.(nextSeq := row.nextSeq + 1)];
      var reduced := ReduceAll(c, log);
      if reduced.Err? {
        cases, events := cases0, events0;
        return Err(Rejected(reduced.error));
      }
      var revision := reduced.value;
      revisions := revisions[c := Tables().RevisionsOf(c) + [revision]];
      cases := cases[c := WriteRevision(cases[c], revision, now)];
      assert cases == cases0[c := WriteRevision(row.(nextSeq := row.nextSeq + 1), revision, now)];
      if IsTerminal(revision.state) {
        actions := CancelFor(actions, c, now);
      }
      return Ok(revision);
    }

    /** Adds a case row with an empty log. */
    method Insert(c: CaseId, o: ObligationId, now: int)
      requires c !in cases
      modifies this
      ensures Tables() == InsertCase(old(Tables()), c, o, now)
      ensures c in cases && cases[c] == CaseRow(o, Detected, 0, None, None, 0, now, None) && Tables().EventsOf(c) == []
      ensures actions == old(actions) && forall d :: d != c ==> (d in cases <==> d in old(cases)) && (d in cases ==> cases[d] == old(cases)[d])
    {
      cases := cases[c := CaseRow(o, Detected, 0, None, None, 0, now, None)];
      events, revisions := events[c := []], revisions[c := []];
    }

    /** Replays the stored log; on a valid database this is the last stored revision. */
    method Replay(c: CaseId) returns (r: Result<CaseRevision, ReduceError>)
      ensures r == ReduceAll(c, Tables().EventsOf(c))
      ensures Inv(Tables()) && c in cases && cases[c].nextSeq > 0 ==>
                |Tables().RevisionsOf(c)| > 0 && r == Ok(Tables().RevisionsOf(c)[|Tables().RevisionsOf(c)| - 1])
    {
      r := ReduceAll(c, Tables().EventsOf(c));
      if c in cases && c in events && c in revisions {
        assert Inv(Tables()) ==> CaseCached(cases[c], c, events[c], revisions[c]);
        assert events[c][..|events[c]|] == events[c];
      }
    }

    method Schedule(c: CaseId, o: ObligationId, fireAt: int, ref: ActionRef) returns (id: RowId)
      modifies this
      ensures id == old(|actions|) && Tables() == InsertAction(old(Tables()), c, o, fireAt, ref)
      ensures |actions| == id + 1 && actions[..id] == old(actions) && cases == old(cases)
      ensures var row := actions[id];
              && row.caseId == c && row.obligationId == o && row.fireAt == fireAt && row.actionRef == ref && row.state.Pending?
              && row.attempts == 0 && row.leaseOwner.None? && row.leaseExpiry.None? && row.settledAt.None?
    {
      id := |actions|;
      actions := actions + [ActionRow(c, o, fireAt, ref, Pending, None, None, 0, None)];
    }

    /** Leases the first due rows that no other transaction has locked, and returns them as leased, in firing order. */
    method Tick(owner: Worker, now: int, limit: nat, leaseMs: int) returns (ids: seq<RowId>, rows: seq<ActionRow>)
      modifies this
      ensures IsPick(old(Tables()), now, limit, ids) && |rows| == |ids|
      ensures Tables() == old(Tables()).(actions := LeaseRows(old(actions), Elements(ids), owner, now + leaseMs))
      ensures forall k :: 0 <= k < |ids| ==> rows[k] == actions[ids[k]] && rows[k].state.Leased? && rows[k].fireAt <= now
      ensures |actions| == |old(actions)| && forall i :: 0 <= i < |actions| && i !in ids ==> actions[i] == old(actions)[i]
      ensures forall i :: i in ids ==>
                && i < |actions| && old(actions)[i].state.Pending? && i !in locked
                && actions[i] == old(actions)[i].(state := Leased, leaseOwner := Some(owner), leaseExpiry := Some(now + leaseMs),
                                                  attempts := old(actions)[i].attempts + 1)
    {
      ids := Pick(Tables(), now, limit);
      forall k | 0 <= k < |ids| ensures ids[k] in Elements(ids) && ids[k] in DueSet(Tables(), now) {
      }
      actions := LeaseRows(actions, Elements(ids), owner, now + leaseMs);
      rows := seq(|ids|, k requires 0 <= k < |ids| reads this requires ids[k] < |actions| => actions[ids[k]]);
    }

    /** Marks a leased row done. The row's owner is not checked; any other state is left as it is. */
    method Complete(id: RowId, now: int)
      modifies this
      ensures Tables() == CompleteRow(old(Tables()), id, now)
      ensures Tables() == old(Tables()).(actions := actions) && |actions| == |old(actions)|
      ensures forall i :: 0 <= i < |actions| && !(i == id && old(actions)[i].state.Leased?) ==> actions[i] == old(actions)[i]
      ensures id < |actions| && old(actions)[id].state.Leased? ==>
                var row, row' := old(actions)[id], actions[id];
                && row'.state.Done? && row'.settledAt == Some(now) && row'.leaseOwner.None? && row'.leaseExpiry.None?
                && row'.attempts == row.attempts && row'.fireAt == row.fireAt && row'.actionRef == row.actionRef
                && row'.caseId == row.caseId && row'.obligationId == row.obligationId
    {
      if id < |actions| && actions[id].state.Leased? {
        actions := actions[id := actions[id].(state := Done, settledAt := Some(now), leaseOwner := None, leaseExpiry := None)];
      }
    }

    /** Gives a leased row back, to be picked again; its owner is not checked. */
    method Release(id: RowId)
      modifies this
      ensures Tables() == ReleaseRow(old(Tables()), id)
      ensures Tables() == old(Tables()).(actions := actions) && |actions| == |old(actions)|
      ensures forall i :: 0 <= i < |actions| && !(i == id && old(actions)[i].state.Leased?) ==> actions[i] == old(actions)[i]
      ensures id < |actions| && old(actions)[id].state.Leased? ==>
                var row, row' := old(actions)[id], actions[id];
                && row'.state.Pending? && row'.leaseOwner.None? && row'.leaseExpiry.None? && row'.settledAt == row.settledAt
                && row'.attempts == row.attempts && row'.fireAt == row.fireAt && row'.actionRef == row.actionRef
                && row'.caseId == row.caseId && row'.obligationId == row.obligationId
    {
      if id < |actions| && actions[id].state.Leased? {
        actions := actions[id := Returned(actions[id])];
      }
    }

    /** Gives back every lease that has run out, keeping the row's count of attempts, and says how many there were. */
    method ReclaimExpiredLeases(now: int) returns (n: nat)
      modifies this
      ensures Tables() == old(Tables()).(actions := actions) && |actions| == |old(actions)|
      ensures forall i :: 0 <= i < |actions| ==>
                && !Expired(actions[i], now) && actions[i].attempts == old(actions)[i].attempts
                && var was := old(actions)[i]; var expired := was.state.Leased? && was.leaseExpiry.Some? && was.leaseExpiry.value <= now;
                   && (expired ==> actions[i].state.Pending? && actions[i].leaseOwner.None? && actions[i].leaseExpiry.None?)
                   && (!expired ==> actions[i] == was)
      ensures n == |ExpiredIds(old(actions), now)|
      ensures Tables() == Reclaim(old(Tables()), now)
      ensures old(Inv(Tables())) ==> Inv(Tables())
    {
      hide Inv;
      ghost var t := Tables();
      ghost var reclaimed := Reclaim(t, now).actions;
      n := 0;
      for i := 0 to |actions|
        invariant Tables() == t.(actions := actions) && |actions| == |t.actions|
        invariant forall k :: 0 <= k < i ==> actions[k] == reclaimed[k]
        invariant forall k :: i <= k < |actions| ==> actions[k] == t.actions[k]
        invariant n == |ExpiredIds(t.actions[..i], now)|
      {
        OneMoreExpired(t.actions, now, i);
        if Expired(actions[i], now) {
          actions := actions[i := Returned(actions[i])];
          n := n + 1;
        }
      }
      assert t.actions[..|t.actions|] == t.actions;
      ReclaimKeepsInv(t, now);
    }

    /** Leaves nothing pending or leased for the case, touches no other row, and says how many rows it cancelled. */
    method CancelForCase(c: CaseId, now: int) returns (n: nat)
      modifies this
      ensures Tables() == old(Tables()).(actions := actions) && |actions| == |old(actions)|
      ensures forall i :: 0 <= i < |actions| ==>
                && (actions[i].caseId == c ==> !Outstanding(actions[i]))
                && (!(old(actions)[i].caseId == c && Outstanding(old(actions)[i])) ==> actions[i] == old(actions)[i])
                && actions[i].attempts == old(actions)[i].attempts
      ensures n == |OutstandingIds(old(actions), c)|
      ensures Tables() == old(Tables()).(actions := CancelFor(old(actions), c, now))
    {
      ghost var t := Tables();
      ghost var cancelled := CancelFor(t.actions, c, now);
      n := 0;
      for i := 0 to |actions|
        invariant Tables() == t.(actions := actions) && |actions| == |t.actions|
        invariant forall k :: 0 <= k < i ==> actions[k] == cancelled[k]
        invariant forall k :: i <= k < |actions| ==> actions[k] == t.actions[k]
        invariant n == |OutstandingIds(t.actions[..i], c)|
      {
        OneMoreOutstanding(t.actions, c, i);
        if actions[i].caseId == c && Outstanding(actions[i]) {
          actions := actions[i := actions[i].(state := ActionState.Cancelled, settledAt := Some(now),
                                              leaseOwner := None, leaseExpiry := None)];
          n := n + 1;
        }
      }
      assert t.actions[..|t.actions|] == t.actions;
    }
  }

  lemma ReclaimKeepsInv(t: Tables, now: int)
    ensures Inv(t) ==> Inv(Reclaim(t, now))
  {
    if Inv(t) {
      ScheduleKeepsInv(t, Op.ReclaimExpired(now));
    }
  }

  ghost function ExpiredIds(actions: seq<ActionRow>, now: int): set<RowId> {
    set i: RowId | i < |actions| && Expired(actions[i], now)
  }

  ghost function OutstandingIds(actions: seq<ActionRow>, c: CaseId): set<RowId> {
    set i: RowId | i < |actions| && actions[i].caseId == c && Outstanding(actions[i])
  }

  lemma OneMoreExpired(actions: seq<ActionRow>, now: int, i: nat)
    requires i < |actions|
    ensures |ExpiredIds(actions[..i + 1], now)| == |ExpiredIds(actions[..i], now)| + if Expired(actions[i], now) then 1 else 0
  {
    var less, more := ExpiredIds(actions[..i], now), ExpiredIds(actions[..i + 1], now);
    assert more == if Expired(actions[i], now) then less + {i} else less;
  }

  lemma OneMoreOutstanding(actions: seq<ActionRow>, c: CaseId, i: nat)
    requires i < |actions|
    ensures |OutstandingIds(actions[..i + 1], c)| ==
            |OutstandingIds(actions[..i], c)| + if actions[i].caseId == c && Outstanding(actions[i]) then 1 else 0
  {
    var less, more := OutstandingIds(actions[..i], c), OutstandingIds(actions[..i + 1], c);
    assert more == if actions[i].caseId == c && Outstanding(actions[i]) then less + {i} else less;
  }
}
