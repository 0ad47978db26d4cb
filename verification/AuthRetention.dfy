/** The nightly prune of expired sessions and verifications, in bounded batches. */
module AuthRetention {
  import opened Common
  import opened Ordering

  const MAX_PRUNE_PASSES: nat := 20
  const HOUR: Time := 3_600_000

  /** A table as its ids and expiry instants. */
  type Table = map<Id, Time>

  function Expired(t: Table, cutoff: Time): (ids: set<Id>) {
    set id | id in t && t[id] < cutoff
  }

  /** What ORDER BY expires_at LIMIT n may pick among some rows: ties go any way. */
  predicate IsOldest(t: Table, rows: set<Id>, limit: nat, ids: set<Id>)
    requires rows <= t.Keys
  {
    && ids <= rows && |ids| == Min(limit, |rows|)
    && forall gone, kept :: gone in ids && kept in rows - ids ==> t[gone] <= t[kept]
  }

  class AuthRetentionService {
    var sessions: Table
    var verifications: Table
    const expiredSessionGraceHours: int
    const batchSize: nat

    constructor (sessions: Table, verifications: Table, graceHours: int, batchSize: nat)
      ensures this.sessions == sessions && this.verifications == verifications
      ensures expiredSessionGraceHours == graceHours && this.batchSize == batchSize
    {
      this.sessions, this.verifications := sessions, verifications;
      expiredSessionGraceHours, this.batchSize := graceHours, batchSize;
    }

    /** One bounded delete in each table, oldest first; a session outlives its expiry by its grace. */
    method PruneExpired(now: Time)
      returns (removedSessions: nat, removedVerifications: nat, ghost ids: set<Id>, ghost codes: set<Id>)
      modifies this
      ensures sessions == old(sessions) - ids && verifications == old(verifications) - codes
      ensures removedSessions == |ids| && removedVerifications == |codes|
      ensures |ids| == Min(batchSize, |set id | id in old(sessions)
                                  && old(sessions)[id] + expiredSessionGraceHours * 3_600_000 < now|)
      ensures |codes| == Min(batchSize, |set id | id in old(verifications) && old(verifications)[id] < now|)
      ensures OldestGone(old(sessions), now - expiredSessionGraceHours * 3_600_000, batchSize, ids)
      ensures OldestGone(old(verifications), now, batchSize, codes)
      ensures forall id :: id in old(sessions) && old(sessions)[id] + expiredSessionGraceHours * 3_600_000 >= now ==>
                id in sessions
      ensures expiredSessionGraceHours >= 0 ==>
                forall id :: id in old(sessions) && old(sessions)[id] >= now ==> id in sessions
      ensures forall id :: id in old(verifications) && old(verifications)[id] >= now ==> id in verifications
    {
      ExpiredIs(sessions, now, expiredSessionGraceHours * 3_600_000);
      ExpiredIs(verifications, now, 0);
      var sessionCutoff := now - expiredSessionGraceHours * HOUR;
      var gone := PickOldest(sessions, Expired(sessions, sessionCutoff), batchSize);
      PickIsGone(sessions, sessionCutoff, batchSize, gone);
      ids, sessions, removedSessions := gone, sessions - gone, |gone|;

      gone := PickOldest(verifications, Expired(verifications, now), batchSize);
      PickIsGone(verifications, now, batchSize, gone);
      codes, verifications, removedVerifications := gone, verifications - gone, |gone|;
    }

    /** One loop serves both tables, yet each is pruned exactly to its own budget of twenty batches. */
    method PruneUntilIdle(now: Time)
      returns (prunedSessions: nat, prunedVerifications: nat, ghost ids: set<Id>, ghost codes: set<Id>)
      modifies this
      ensures sessions == old(sessions) - ids && verifications == old(verifications) - codes
      ensures prunedSessions == |ids| && prunedVerifications == |codes|
      ensures |ids| == Min(20 * batchSize, |set id | id in old(sessions)
                                  && old(sessions)[id] + expiredSessionGraceHours * 3_600_000 < now|)
      ensures |codes| == Min(20 * batchSize, |set id | id in old(verifications) && old(verifications)[id] < now|)
      ensures OldestGone(old(sessions), now - expiredSessionGraceHours * 3_600_000, 20 * batchSize, ids)
      ensures OldestGone(old(verifications), now, 20 * batchSize, codes)
      ensures forall id :: id in old(sessions) && old(sessions)[id] + expiredSessionGraceHours * 3_600_000 >= now ==>
                id in sessions
      ensures expiredSessionGraceHours >= 0 ==>
                forall id :: id in old(sessions) && old(sessions)[id] >= now ==> id in sessions
      ensures forall id :: id in old(verifications) && old(verifications)[id] >= now ==> id in verifications
    {
      ExpiredIs(sessions, now, expiredSessionGraceHours * 3_600_000);
      ExpiredIs(verifications, now, 0);
      BudgetIsProduct(MAX_PRUNE_PASSES, batchSize);
      prunedSessions, prunedVerifications, ids, codes := PrunePasses(now, MAX_PRUNE_PASSES);
    }

    /** The loop of pruneUntilIdle, for any number of passes. */
    method PrunePasses(now: Time, passes: nat)
      returns (prunedSessions: nat, prunedVerifications: nat, ghost ids: set<Id>, ghost codes: set<Id>)
      modifies this
      ensures Pruned(old(sessions), sessions, now - expiredSessionGraceHours * HOUR, Budget(passes, batchSize), ids,
                     prunedSessions)
      ensures Pruned(old(verifications), verifications, now, Budget(passes, batchSize), codes, prunedVerifications)
    {
      ghost var p := Prune(sessions, verifications, now - expiredSessionGraceHours * HOUR, now, {}, {});
      prunedSessions, prunedVerifications := 0, 0;
      PrunedNone(sessions, p.cutoff);
      PrunedNone(verifications, now);
      for pass := 0 to passes
        invariant p.Reached(sessions, verifications, Budget(pass, batchSize), prunedSessions, prunedVerifications)
        invariant p.sessions == old(sessions) && p.verifications == old(verifications)
        invariant p.cutoff == now - expiredSessionGraceHours * HOUR && p.now == now
      {
        var s, v;
        s, v, p := PrunePass(now, p, pass, passes, prunedSessions, prunedVerifications);
        prunedSessions := prunedSessions + s;
        prunedVerifications := prunedVerifications + v;
        var bothDrained := s < batchSize && v < batchSize;
        if bothDrained {
          break;
        }
      }
      ids, codes := p.ids, p.codes;
    }

    method PrunePass(now: Time, ghost p: Prune, ghost pass: nat, ghost passes: nat, ghost sessionsSoFar: nat,
                     ghost verificationsSoFar: nat)
      returns (s: nat, v: nat, ghost q: Prune)
      requires p.Reached(sessions, verifications, Budget(pass, batchSize), sessionsSoFar, verificationsSoFar)
      requires p.cutoff == now - expiredSessionGraceHours * HOUR && p.now == now && pass < passes
      modifies this
      ensures q == p.(ids := q.ids, codes := q.codes)
      ensures q.Reached(sessions, verifications,
                        Budget(if s < batchSize && v < batchSize then passes else pass + 1, batchSize),
                        sessionsSoFar + s, verificationsSoFar + v)
    {
      ghost var before := Prune(sessions, verifications, p.cutoff, now, {}, {});
      s, v, q := PruneOnce(now);
      q := ReachedTwice(p, before, q, sessions, verifications, pass, passes, batchSize, sessionsSoFar,
                        verificationsSoFar, s, v);
    }

    method PruneOnce(now: Time) returns (s: nat, v: nat, ghost q: Prune)
      modifies this
      ensures q == Prune(old(sessions), old(verifications), now - expiredSessionGraceHours * HOUR, now, q.ids, q.codes)
      ensures q.Reached(sessions, verifications, batchSize, s, v)
    {
      ghost var ids, codes;
      q := Prune(sessions, verifications, now - expiredSessionGraceHours * HOUR, now, {}, {});
      s, v, ids, codes := PruneExpired(now);
      q := q.(ids := ids, codes := codes);
    }
  }

  /** A prune under way: the tables it began with, its cutoffs and what has gone so far. */
  datatype Prune =
    Prune(sessions: Table, verifications: Table, cutoff: Time, now: Time, ids: set<Id>, codes: set<Id>)
  {
    ghost predicate Reached(s: Table, v: Table, budget: nat, prunedSessions: nat, prunedVerifications: nat) {
      && Pruned(sessions, s, cutoff, budget, ids, prunedSessions)
      && Pruned(verifications, v, now, budget, codes, prunedVerifications)
    }
  }

  method PickOldest(t: Table, rows: set<Id>, limit: nat) returns (ids: set<Id>)
    requires rows <= t.Keys
    ensures IsOldest(t, rows, limit, ids)
  {
    OldestExists(t, rows, limit);
    ids :| ids <= rows && IsOldest(t, rows, limit, ids);
  }

  lemma {:induction false} OldestExists(t: Table, rows: set<Id>, limit: nat)
    requires rows <= t.Keys
    ensures exists ids :: ids <= rows && IsOldest(t, rows, limit, ids)
  {
    if limit == 0 || rows == {} {
      assert IsOldest(t, rows, limit, {});
    } else {
      var first := OldestOne(t, rows);
      OldestExists(t, rows - {first}, limit - 1);
      var ids :| ids <= rows - {first} && IsOldest(t, rows - {first}, limit - 1, ids);
      assert rows - (ids + {first}) == rows - {first} - ids;
      assert IsOldest(t, rows, limit, ids + {first});
    }
  }

  lemma {:induction false} OldestOne(t: Table, rows: set<Id>) returns (first: Id)
    requires rows <= t.Keys && rows != {}
    ensures first in rows && forall id :: id in rows ==> t[first] <= t[id]
    decreases |rows|
  {
    first :| first in rows;
    if rows != {first} {
      var other := OldestOne(t, rows - {first});
      assert forall id :: id in rows ==> id == first || id in rows - {first};
      first := if t[first] <= t[other] then first else other;
    }
  }

  /** Of the rows before the cutoff the oldest are gone, up to the limit, and no other row. */
  ghost predicate OldestGone(t: Table, cutoff: Time, limit: nat, ids: set<Id>) {
    && ids <= t.Keys && |ids| == Min(limit, |Expired(t, cutoff)|)
    && (forall id :: id in ids ==> t[id] < cutoff)
    && forall gone, kept :: gone in ids && kept in t && kept !in ids && t[kept] < cutoff ==> t[gone] <= t[kept]
  }

  lemma ExpiredIs(t: Table, now: Time, grace: int)
    ensures Expired(t, now - grace) == set id | id in t && t[id] + grace < now
    ensures grace == 0 ==> Expired(t, now) == set id | id in t && t[id] < now
  {
  }

  lemma PickIsGone(t: Table, cutoff: Time, limit: nat, ids: set<Id>)
    requires IsOldest(t, Expired(t, cutoff), limit, ids)
    ensures OldestGone(t, cutoff, limit, ids)
  {
    assert forall id :: id in t && t[id] < cutoff && id !in ids ==> id in Expired(t, cutoff) - ids;
  }

  lemma ExpiredCount(t: Table, cutoff: Time, ids: set<Id>)
    requires ids <= Expired(t, cutoff)
    ensures |Expired(t - ids, cutoff)| == |Expired(t, cutoff)| - |ids|
  {
    assert Expired(t - ids, cutoff) == Expired(t, cutoff) - ids;
  }

  /** Two deletes in a row are one of both limits; a short second one leaves nothing to delete. */
  lemma TwoDeletes(t: Table, cutoff: Time, spent: nat, limit: nat, ids: set<Id>, more: set<Id>)
    requires OldestGone(t, cutoff, spent, ids) && OldestGone(t - ids, cutoff, limit, more)
    ensures OldestGone(t, cutoff, spent + limit, ids + more) && |ids + more| == |ids| + |more|
    ensures |more| < limit ==> |ids + more| == |Expired(t, cutoff)|
  {
    ExpiredCount(t, cutoff, ids);
    assert ids !! more;
  }

  ghost predicate Pruned(before: Table, t: Table, cutoff: Time, limit: nat, ids: set<Id>, count: nat) {
    t == before - ids && count == |ids| && OldestGone(before, cutoff, limit, ids)
  }

  lemma PrunedNone(t: Table, cutoff: Time)
    ensures Pruned(t, t, cutoff, 0, {}, 0)
  {
  }

  lemma ReachedTwice(p: Prune, mid: Prune, q: Prune, s: Table, v: Table, pass: nat, passes: nat, limit: nat,
                     sessionsSoFar: nat, verificationsSoFar: nat, removed: nat, verified: nat) returns (r: Prune)
    requires p.Reached(mid.sessions, mid.verifications, Budget(pass, limit), sessionsSoFar, verificationsSoFar)
    requires q == Prune(mid.sessions, mid.verifications, p.cutoff, p.now, q.ids, q.codes)
    requires q.Reached(s, v, limit, removed, verified) && pass < passes
    ensures r == p.(ids := p.ids + q.ids, codes := p.codes + q.codes)
    ensures r.Reached(s, v, Budget(if removed < limit && verified < limit then passes else pass + 1, limit),
                      sessionsSoFar + removed, verificationsSoFar + verified)
  {
    r := p.(ids := p.ids + q.ids, codes := p.codes + q.codes);
    PrunedTwice(p.sessions, s, p.cutoff, pass, passes, limit, p.ids, q.ids, sessionsSoFar, removed);
    PrunedTwice(p.verifications, v, p.now, pass, passes, limit, p.codes, q.codes, verificationsSoFar, verified);
  }

  lemma PrunedTwice(before: Table, t: Table, cutoff: Time, pass: nat, passes: nat, limit: nat, ids: set<Id>,
                    more: set<Id>, count: nat, removed: nat)
    requires Pruned(before, before - ids, cutoff, Budget(pass, limit), ids, count)
    requires Pruned(before - ids, t, cutoff, limit, more, removed)
    requires pass < passes
    ensures Pruned(before, t, cutoff, Budget(pass + 1, limit), ids + more, count + removed)
    ensures removed < limit ==> Pruned(before, t, cutoff, Budget(passes, limit), ids + more, count + removed)
  {
    TwoDeletes(before, cutoff, Budget(pass, limit), limit, ids, more);
    BudgetGrows(pass + 1, passes, limit);
    assert before - ids - more == before - (ids + more);
  }

  /** With nothing expired left over, the prune was complete; otherwise it spent its whole budget. */
  lemma PruneIsComplete(t: Table, cutoff: Time, budget: nat, ids: set<Id>)
    requires OldestGone(t, cutoff, budget, ids)
    ensures |ids| < budget ==> forall id :: id in t - ids ==> t[id] >= cutoff
    ensures (exists id :: id in t - ids && t[id] < cutoff) ==> |ids| == budget
  {
    if |ids| < budget {
      SubsetCardinality(ids, Expired(t, cutoff));
      assert forall id :: id in t && t[id] < cutoff ==> id in Expired(t, cutoff);
    }
  }
}
