/** What passes of one relay achieve: isolation of failing rows, exact batches, and settlement of every row. */
module OutboxSettlement {
  import opened Common
  import opened Ordering
  import opened OutboxTable
  import opened OutboxDrain

  // ----- isolation -----

  /** Two worlds that differ at most in how the turn of one event goes. */
  ghost predicate SameButFor(w: World, w': World, poison: Id) {
    && w'.token == w.token && w'.quarantineAt == w.quarantineAt && w'.claimAt == w.claimAt
    && w'.invalidAt == w.invalidAt && w'.invalidMessage == w.invalidMessage
    && forall id :: id != poison ==>
         && w'.reaches(id) == w.reaches(id) && w'.failure(id) == w.failure(id) && w'.settleAt(id) == w.settleAt(id)
         && w'.stamp(id) == w.stamp(id) && w'.stampError(id) == w.stampError(id) && w'.release(id) == w.release(id)
  }

  lemma {:induction false} SameReach(c: Contracts, w: World, w': World, poison: Id, rows: seq<Snapshot>)
    requires SameButFor(w, w', poison)
    requires forall row :: row in rows && row.id == poison ==>
               (Aborts(c, w, row.id, row.content) <==> Aborts(c, w', row.id, row.content))
    ensures Reach(c, w', rows) == Reach(c, w, rows)
  {
    if rows != [] {
      assert rows[0] in rows;
      SameReach(c, w, w', poison, rows[1..]);
    }
  }

  /** However one event's turn goes, every other row ends the same, as long as that turn does not end the pass. */
  lemma PoisonIsIsolated(c: Contracts, t: Table, w: World, w': World, claimed: seq<Snapshot>, poison: Id, id: Id)
    requires IsClaim(t, w, claimed) && SameButFor(w, w', poison) && id in t && id != poison
    requires poison in IdsOf(claimed) ==>
               (Aborts(c, w, poison, t[poison].content) <==> Aborts(c, w', poison, t[poison].content))
    ensures AfterDrain(c, t, w', claimed)[id] == AfterDrain(c, t, w, claimed)[id]
  {
    var fit := Keep(c, claimed, true);
    KeepMembers(c, claimed, true);
    forall row | row in fit && row.id == poison
      ensures Aborts(c, w, row.id, row.content) <==> Aborts(c, w', row.id, row.content)
    {
      assert row in claimed && row.id in IdsOf(claimed);
    }
    SameReach(c, w, w', poison, fit);
  }

  /** A turn that ends the pass leaves every later publishable row claimed, and charged an attempt. */
  lemma AbortStrandsTheRest(c: Contracts, t: Table, w: World, claimed: seq<Snapshot>, p: nat, k: nat)
    requires IsClaim(t, w, claimed)
    requires var fit := Keep(c, claimed, true);
             && p < k < |fit| && Aborts(c, w, fit[p].id, fit[p].content)
             && forall i :: 0 <= i < p ==> !Aborts(c, w, fit[i].id, fit[i].content)
    ensures var id := Keep(c, claimed, true)[k].id;
            id in t && AfterDrain(c, t, w, claimed)[id] == Claimed(t[id], w.token, w.claimAt)
  {
    var fit := Keep(c, claimed, true);
    AbortAt(c, w, fit, p);
    KeepMembers(c, claimed, true);
    KeepDistinct(c, claimed, true);
    assert fit[k] in fit && fit[k] in claimed;
    assert fit[k].id in IdsOf(claimed);
    forall row | row in fit[..p + 1] ensures row.id != fit[k].id {
      var i :| 0 <= i < p + 1 && fit[i] == row;
    }
  }

  lemma TurnTells(c: Contracts, t: Table, w: World, claimed: seq<Snapshot>, k: nat)
    requires IsClaim(t, w, claimed)
    requires forall i :: 0 <= i < |Keep(c, claimed, true)| ==>
               !Aborts(c, w, Keep(c, claimed, true)[i].id, Keep(c, claimed, true)[i].content)
    requires k < |Keep(c, claimed, true)|
    ensures var id := Keep(c, claimed, true)[k].id;
            id in t && AfterDrain(c, t, w, claimed)[id].claimToken.None?
  {
    var fit := Keep(c, claimed, true);
    NoAbort(c, w, fit);
    KeepMembers(c, claimed, true);
    assert fit[..|fit|] == fit;
    assert fit[k] in fit && fit[k] in claimed;
    assert fit[k].id in IdsOf(claimed) && fit[k].id in IdsOf(fit);
  }

  lemma EndsAgree(c: Contracts, w: World, w': World, poison: Id, row: Row, id: Id, inBatch: bool, turned: bool)
    requires SameButFor(w, w', poison) && id != poison
    ensures Ends(c, row, id, w', inBatch, turned) == Ends(c, row, id, w, inBatch, turned)
  {
  }

  lemma LastReach(c: Contracts, w: World, w': World, fit: seq<Snapshot>)
    requires fit != [] && SameButFor(w, w', fit[|fit| - 1].id) && DistinctIds(fit)
    requires Aborts(c, w', fit[|fit| - 1].id, fit[|fit| - 1].content)
    requires forall i :: 0 <= i < |fit| ==> !Aborts(c, w, fit[i].id, fit[i].content)
    ensures Reach(c, w', fit) == Reach(c, w, fit) == |fit|
  {
    AbortAt(c, w', fit, |fit| - 1);
    NoAbort(c, w, fit);
  }

  /**
   * Against a pass in which no turn fails badly, one row's failure leaves every other
   * row as it would have ended exactly when the row's release does not throw, or no
   * publishable row comes after it.
   */
  lemma IsolationIsExact(c: Contracts, t: Table, w: World, w': World, claimed: seq<Snapshot>, p: nat)
    requires IsClaim(t, w, claimed) && p < |Keep(c, claimed, true)|
    requires SameButFor(w, w', Keep(c, claimed, true)[p].id)
    requires forall i :: 0 <= i < |Keep(c, claimed, true)| ==>
               !Aborts(c, w, Keep(c, claimed, true)[i].id, Keep(c, claimed, true)[i].content)
    ensures var poison := Keep(c, claimed, true)[p];
            (forall id :: id in t && id != poison.id ==>
                  AfterDrain(c, t, w', claimed)[id] == AfterDrain(c, t, w, claimed)[id])
            <==> (Stamped(c, w', poison.id, poison.content) || w'.release(poison.id).Acked?
                  || p == |Keep(c, claimed, true)| - 1)
  {
    var fit := Keep(c, claimed, true);
    var poison := fit[p];
    KeepMembers(c, claimed, true);
    KeepDistinct(c, claimed, true);
    assert poison in fit && poison in claimed;
    if !Aborts(c, w', poison.id, poison.content) {
      forall id | id in t && id != poison.id
        ensures AfterDrain(c, t, w', claimed)[id] == AfterDrain(c, t, w, claimed)[id]
      {
        PoisonIsIsolated(c, t, w, w', claimed, poison.id, id);
      }
    } else if p == |fit| - 1 {
      LastReach(c, w, w', fit);
      forall id | id in t && id != poison.id
        ensures AfterDrain(c, t, w', claimed)[id] == AfterDrain(c, t, w, claimed)[id]
      {
        EndsAgree(c, w, w', poison.id, t[id], id, id in IdsOf(claimed), id in TurnIds(c, w, claimed));
      }
    } else {
      AbortStrandsTheRest(c, t, w', claimed, p, p + 1);
      TurnTells(c, t, w, claimed, p + 1);
      assert fit[p + 1].id != poison.id;
    }
  }

  // ----- exact batches -----

  ghost predicate FailureFree(w: World) {
    w.fault.NoFault? && forall id :: w.reaches(id).None? && w.stamp(id).Acked?
  }

  /** No lease of an unsettled row begins or ends between `at` and the pass's statements. */
  ghost predicate Steady(t: Table, w: World, at: Time) {
    forall id :: id in t && !Settled(t[id]) ==>
      && (LeaseFree(t[id], w.quarantineAt) <==> LeaseFree(t[id], at))
      && (LeaseFree(t[id], w.claimAt) <==> LeaseFree(t[id], at))
  }

  /** What is left unsettled is as it was. */
  ghost predicate OnlySettles(t: Table, t': Table) {
    t'.Keys == t.Keys && forall id :: id in t && !Settled(t'[id]) ==> t'[id] == t[id]
  }

  lemma SteadyStays(t: Table, t': Table, w: World, at: Time)
    requires Steady(t, w, at) && OnlySettles(t, t')
    ensures Steady(t', w, at)
  {
  }

  lemma ClaimableThroughout(t: Table, w: World, at: Time)
    requires Steady(t, w, at)
    ensures ClaimableKeys(QuarantineExhausted(t, w.quarantineAt), w.claimAt) == ClaimableKeys(t, at)
  {
    var q := QuarantineExhausted(t, w.quarantineAt);
    forall id | id in t ensures Claimable(q[id], w.claimAt) <==> Claimable(t[id], at) {
    }
  }

  /** With no failing turn, every publishable row of a claim has its turn. */
  lemma AllTurn(c: Contracts, t: Table, w: World, claimed: seq<Snapshot>)
    requires IsClaim(t, w, claimed)
    requires (forall id :: w.release(id).Acked?) || FailureFree(w)
    ensures AbortOf(c, w, Keep(c, claimed, true)) == None
    ensures forall id :: id in TurnIds(c, w, claimed)
                         <==> id in IdsOf(claimed) && id in t && Publishable(c, id, t[id].content)
  {
    var fit := Keep(c, claimed, true);
    NoAbort(c, w, fit);
    KeepIds(c, t, w, claimed, true);
    assert fit[..|fit|] == fit;
  }

  lemma TurnsBeyondFit(c: Contracts, t: Table, w: World, batch: set<Id>, done: set<Id>)
    requires forall id :: id in done <==> id in batch && id in t && Publishable(c, id, t[id].content)
    ensures MidDrain(c, t, w, batch, done) == MidDrain(c, t, w, batch, batch)
  {
  }

  /** With no failing turn, a pass is decided by contract alone. */
  lemma FailureFreeEnds(c: Contracts, t: Table, w: World, limit: nat)
    requires FailureFree(w) && Lawful(w)
    ensures AbortOf(c, w, Keep(c, Claims(t, w, limit), true)) == None
    ensures Pass(c, t, w, limit) == MidDrain(c, t, w, Batch(t, w, limit), Batch(t, w, limit))
    ensures CountedOf(c, t, w, Batch(t, w, limit)) == Batch(t, w, limit)
  {
    var claimed := Claims(t, w, limit);
    ClaimsAre(t, w, limit);
    BatchOf(t, w, limit);
    AllTurn(c, t, w, claimed);
    TurnsBeyondFit(c, t, w, Batch(t, w, limit), TurnIds(c, w, claimed));
  }

  /** A failure-free pass settles exactly the oldest claimable rows, one batch of them, and the exhausted ones. */
  lemma FailureFreePass(c: Contracts, t: Table, w: World, limit: nat, at: Time)
    requires Steady(t, w, at) && FailureFree(w) && Lawful(w)
    ensures var t' := Pass(c, t, w, limit);
            var taken := TakeSet(Ascending, ClaimableKeys(t, at), limit);
            && Answer(c, t, w, limit) == Ok(|taken|)
            && ClaimableKeys(t', at) == ClaimableKeys(t, at) - taken
            && OnlySettles(t, t')
  {
    var batch := Batch(t, w, limit);
    var taken := TakeSet(Ascending, ClaimableKeys(t, at), limit);
    ClaimableThroughout(t, w, at);
    ClaimsAre(t, w, limit);
    BatchOf(t, w, limit);
    FailureFreeEnds(c, t, w, limit);
    TakeSetSize(Ascending, ClaimableKeys(t, at), limit);
    forall k | k in ClaimableKeys(t, at) ensures k in taken <==> k.id in batch {
      if k.id in batch {
        var k' :| k' in taken && k'.id == k.id;
        assert k' in ClaimableKeys(t, at);
      }
    }
    PassClaims(c, t, w, batch, taken, at);
  }

  lemma PassClaims(c: Contracts, t: Table, w: World, batch: set<Id>, taken: set<Key>, at: Time)
    requires Steady(t, w, at) && FailureFree(w)
    requires forall k :: k in ClaimableKeys(t, at) ==> (k in taken <==> k.id in batch)
    requires forall id :: id in batch ==> id in t && Claimable(t[id], w.claimAt)
    ensures var t' := MidDrain(c, t, w, batch, batch);
            ClaimableKeys(t', at) == ClaimableKeys(t, at) - taken && OnlySettles(t, t')
  {
    var t' := MidDrain(c, t, w, batch, batch);
    forall id | id in t
      ensures !Settled(t'[id]) ==> t'[id] == t[id]
      ensures Claimable(t'[id], at) <==> Claimable(t[id], at) && id !in batch
    {
    }
    forall k ensures k in ClaimableKeys(t', at) <==> k in ClaimableKeys(t, at) - taken {
      if k in ClaimableKeys(t, at) - taken {
        assert k.id in t' && t'[k.id] == t[k.id];
      }
      if k in ClaimableKeys(t', at) {
        assert k.id in t && k.id !in batch && t'[k.id] == t[k.id];
        assert k in ClaimableKeys(t, at);
      }
    }
  }

  /** A claimable row that no longer is was drained if it fits its contract and dead-lettered if not. */
  ghost predicate Followed(c: Contracts, id: Id, was: Row, row: Row, at: Time) {
    && row.content == was.content
    && (Settled(was) || !LeaseFree(was, at) ==> row == was)
    && (Claimable(was, at) && !Claimable(row, at) ==>
          if Publishable(c, id, was.content) then row.drainedAt.Some? else row.deadLetteredAt.Some?)
    && (!Settled(row) ==> row == was)
  }

  ghost predicate AllFollowed(c: Contracts, before: Table, t: Table, at: Time) {
    before.Keys == t.Keys && forall id :: id in before ==> Followed(c, id, before[id], t[id], at)
  }

  lemma RowsFollow(c: Contracts, before: Table, t: Table, w: World, limit: nat, at: Time)
    requires Steady(t, w, at) && FailureFree(w) && Lawful(w) && AllFollowed(c, before, t, at)
    ensures AllFollowed(c, before, Pass(c, t, w, limit), at)
  {
    BatchOf(t, w, limit);
    FailureFreeEnds(c, t, w, limit);
    var batch := Batch(t, w, limit);
    forall id | id in before ensures Followed(c, id, before[id], Ends(c, t[id], id, w, id in batch, id in batch), at) {
      assert Followed(c, id, before[id], t[id], at);
    }
  }

  ghost predicate SteadyRun(t: Table, worlds: seq<World>, at: Time) {
    forall i :: 0 <= i < |worlds| ==> Steady(t, worlds[i], at) && FailureFree(worlds[i]) && Lawful(worlds[i])
  }

  function LoopOf(r: Run, at: Time): Loop {
    Loop(ClaimableKeys(r.rows, at), r.settled)
  }

  lemma RunIsLoop(c: Contracts, r: Run, w: World, limit: nat, at: Time)
    requires Steady(r.rows, w, at) && FailureFree(w) && Lawful(w)
    ensures var next := Onward(r, StepOf(c, limit)(r.rows, w));
            && next.thrown.None? && LoopOf(next, at) == NextLoop(Ascending, LoopOf(r, at), limit)
            && OnlySettles(r.rows, next.rows)
  {
    FailureFreePass(c, r.rows, w, limit, at);
    TakeSetSize(Ascending, ClaimableKeys(r.rows, at), limit);
  }

  lemma SteadyRunStays(t: Table, t': Table, worlds: seq<World>, at: Time)
    requires SteadyRun(t, worlds, at) && OnlySettles(t, t') && worlds != []
    ensures SteadyRun(t', worlds[1..], at)
  {
    forall i | 0 <= i < |worlds[1..]| ensures Steady(t', worlds[1..][i], at) {
      SteadyStays(t, t', worlds[1..][i], at);
    }
  }

  lemma {:induction false} DrainsAreBatches(c: Contracts, r: Run, worlds: seq<World>, limit: nat, at: Time)
    requires SteadyRun(r.rows, worlds, at) && r.thrown.None?
    ensures var end := Drains(StepOf(c, limit), r, worlds, limit);
            end.thrown.None? && LoopOf(end, at) == Batches(Ascending, LoopOf(r, at), |worlds|, limit)
    decreases |worlds|
  {
    if worlds != [] {
      var next := Onward(r, StepOf(c, limit)(r.rows, worlds[0]));
      RunIsLoop(c, r, worlds[0], limit, at);
      SteadyRunStays(r.rows, next.rows, worlds, at);
      DrainsAreBatches(c, next, worlds[1..], limit, at);
    }
  }

  lemma {:induction false} DrainsFollow(c: Contracts, before: Table, r: Run, worlds: seq<World>, limit: nat, at: Time)
    requires SteadyRun(r.rows, worlds, at) && AllFollowed(c, before, r.rows, at)
    ensures AllFollowed(c, before, Drains(StepOf(c, limit), r, worlds, limit).rows, at)
    decreases |worlds|
  {
    if worlds != [] {
      var next := Onward(r, StepOf(c, limit)(r.rows, worlds[0]));
      RowsFollow(c, before, r.rows, worlds[0], limit, at);
      RunIsLoop(c, r, worlds[0], limit, at);
      SteadyRunStays(r.rows, next.rows, worlds, at);
      DrainsFollow(c, before, next, worlds[1..], limit, at);
    }
  }

  /**
   * As long as no lease runs out meanwhile and no turn fails, a run settles exactly the
   * oldest claimable rows within its budget, counts them, and leaves running leases alone.
   */
  lemma FailureFreeRun(c: Contracts, t: Table, worlds: seq<World>, limit: nat, at: Time)
    requires SteadyRun(t, worlds, at)
    ensures var end := Drains(StepOf(c, limit), Run(t, 0, None), worlds, limit);
            && end.thrown.None?
            && TakenTo(Ascending, ClaimableKeys(t, at), LoopOf(end, at), |worlds| * limit)
            && AllFollowed(c, t, end.rows, at)
  {
    DrainsFollow(c, t, Run(t, 0, None), worlds, limit, at);
    DrainsAreBatches(c, Run(t, 0, None), worlds, limit, at);
    BatchesAreOne(Ascending, ClaimableKeys(t, at), |worlds|, limit);
  }

  // ----- progress -----

  ghost function Total(m: map<Id, nat>): nat
    decreases |m|
  {
    if m == map[] then 0 else
      var k :| k in m;
      m[k] + Total(m - {k})
  }

  lemma {:induction false} TotalRemove(m: map<Id, nat>, k: Id)
    requires k in m
    ensures Total(m) == m[k] + Total(m - {k})
    decreases |m|
  {
    var j :| j in m && Total(m) == m[j] + Total(m - {j});
    if j != k {
      TotalRemove(m - {j}, k);
      TotalRemove(m - {k}, j);
      assert m - {j} - {k} == m - {k} - {j};
    }
  }

  lemma {:induction false} TotalFalls(m: map<Id, nat>, m': map<Id, nat>)
    requires m'.Keys <= m.Keys && forall k :: k in m' ==> m'[k] <= m[k]
    ensures Total(m') <= Total(m)
    ensures (exists k :: k in m && m[k] > 0 && (k !in m' || m'[k] < m[k])) ==> Total(m') < Total(m)
    decreases |m|
  {
    if m != map[] {
      var falls := exists k :: k in m && m[k] > 0 && (k !in m' || m'[k] < m[k]);
      var k :| k in m && (falls ==> m[k] > 0 && (k !in m' || m'[k] < m[k]));
      TotalRemove(m, k);
      TotalFalls(m - {k}, m' - {k});
      if k in m' {
        TotalRemove(m', k);
      } else {
        assert m' - {k} == m';
      }
    }
  }

  /** What an unsettled row may still cost: its remaining attempts, and the quarantine. */
  function Remaining(row: Row): nat {
    if row.attempts <= MAX_RELAY_ATTEMPTS then MAX_RELAY_ATTEMPTS + 1 - row.attempts else 0
  }

  function Weights(t: Table): map<Id, nat> {
    map id | id in t && !Settled(t[id]) :: Remaining(t[id])
  }

  ghost function Measure(t: Table): nat {
    Total(Weights(t))
  }

  ghost predicate AnyUnsettled(t: Table) {
    exists id :: id in t && !Settled(t[id])
  }

  ghost predicate Bounded(t: Table) {
    forall id :: id in t ==> t[id].attempts <= MAX_RELAY_ATTEMPTS
  }

  /** No lease of an unsettled row is running when the pass gets to it; an expired one may well be on record. */
  ghost predicate Ready(t: Table, w: World) {
    forall id :: id in t && !Settled(t[id]) ==> LeaseFree(t[id], w.quarantineAt) && LeaseFree(t[id], w.claimAt)
  }

  /** A later pass that finds every claim of the one before released, or waits until its lease has run out. */
  ghost predicate Resumes(w: World, w': World) {
    && w.quarantineAt <= w'.quarantineAt && w.claimAt <= w'.claimAt
    && ((w.fault.NoFault? && forall id :: w.release(id).Acked?)
        || (w.claimAt < w'.quarantineAt - CLAIM_LEASE && w.claimAt < w'.claimAt - CLAIM_LEASE))
  }

  /** What one row's end says, whatever its turn did: only a row of the batch is charged, and only once. */
  ghost predicate Charged(row: Row, row': Row, inBatch: bool, w: World) {
    && (Settled(row) ==> Settled(row'))
    && (inBatch ==> Settled(row') || row'.attempts == row.attempts + 1)
    && (!inBatch && !Exhausted(row, w.quarantineAt) ==> row' == row)
    && (Exhausted(row, w.quarantineAt) ==> Settled(row') && row'.attempts == row.attempts)
    && row'.attempts <= row.attempts + if inBatch then 1 else 0
  }

  lemma EndsCharge(c: Contracts, row: Row, id: Id, w: World, inBatch: bool, turned: bool)
    requires inBatch ==> Claimable(row, w.claimAt)
    ensures Charged(row, Ends(c, row, id, w, inBatch, turned), inBatch, w)
  {
  }

  ghost predicate AllCharged(t: Table, t': Table, batch: set<Id>, w: World) {
    t'.Keys == t.Keys && forall id :: id in t ==> Charged(t[id], t'[id], id in batch, w)
  }

  lemma MidCharges(c: Contracts, t: Table, w: World, batch: set<Id>, done: set<Id>)
    requires forall id :: id in batch ==> id in t && Claimable(t[id], w.claimAt)
    ensures AllCharged(t, MidDrain(c, t, w, batch, done), batch, w)
  {
    forall id | id in t ensures Charged(t[id], Ends(c, t[id], id, w, id in batch, id in done), id in batch, w) {
      EndsCharge(c, t[id], id, w, id in batch, id in done);
    }
  }

  lemma ClaimCharges(t: Table, w: World, limit: nat)
    requires forall id :: id in Batch(t, w, limit) ==> id in t && Claimable(t[id], w.claimAt)
    ensures AllCharged(t, ClaimedBatch(t, w, limit), Batch(t, w, limit), w)
  {
    var batch, q := Batch(t, w, limit), QuarantineExhausted(t, w.quarantineAt);
    forall id | id in t
      ensures Charged(t[id], if id in batch then Claimed(q[id], w.token, w.claimAt) else q[id], id in batch, w)
    {
    }
  }

  /** The sweep and the claim of the pass take effect, whatever comes after. */
  ghost predicate ClaimsTake(w: World) {
    !w.fault.SweepFails? && w.fault != ClaimFails(false)
  }

  lemma PassCharges(c: Contracts, t: Table, w: World, limit: nat)
    requires Lawful(w) && ClaimsTake(w)
    ensures AllCharged(t, Pass(c, t, w, limit), Batch(t, w, limit), w)
    ensures forall id :: id in Batch(t, w, limit) ==> id in t && Claimable(t[id], w.claimAt)
  {
    var t' := Pass(c, t, w, limit);
    var done := PassShape(c, t, w, limit, t');
    BatchOf(t, w, limit);
    ClaimCharges(t, w, limit);
    MidCharges(c, t, w, Batch(t, w, limit), done);
  }

  /** Once its claim has taken effect, a pass leaves the batch claimed, or some of its rows past their turn. */
  lemma PassShape(c: Contracts, t: Table, w: World, limit: nat, t': Table) returns (done: set<Id>)
    requires Lawful(w) && ClaimsTake(w) && t' == Pass(c, t, w, limit)
    ensures t' == ClaimedBatch(t, w, limit) || t' == MidDrain(c, t, w, Batch(t, w, limit), done)
  {
    ClaimsAre(t, w, limit);
    done := if Faulted(c, t, w, limit).Some? then {} else TurnIds(c, w, Claims(t, w, limit));
  }

  lemma SomeRowMoves(t: Table, w: World, limit: nat) returns (mover: Id)
    requires Ready(t, w) && AnyUnsettled(t) && limit > 0
    ensures mover in t && !Settled(t[mover])
    ensures mover in Batch(t, w, limit) || Exhausted(t[mover], w.quarantineAt)
  {
    BatchOf(t, w, limit);
    mover :| mover in t && !Settled(t[mover]);
    if t[mover].attempts < MAX_RELAY_ATTEMPTS {
      var q := QuarantineExhausted(t, w.quarantineAt);
      var open := ClaimableKeys(q, w.claimAt);
      assert mover in q && Claimable(q[mover], w.claimAt);
      assert Key(t[mover].content.occurredAt, mover) in open;
      assert |open| > 0;
      TakeSetSize(Ascending, open, limit);
      var k :| k in BatchKeys(t, w, limit);
      mover := k.id;
      assert mover in Batch(t, w, limit);
    }
  }

  lemma ChargesFall(t: Table, t': Table, batch: set<Id>, w: World, mover: Id)
    requires AllCharged(t, t', batch, w) && forall id :: id in batch ==> id in t && Claimable(t[id], w.claimAt)
    requires Bounded(t) && mover in t && !Settled(t[mover]) && (mover in batch || Exhausted(t[mover], w.quarantineAt))
    ensures Bounded(t') && Measure(t') < Measure(t)
  {
    forall id | id in t ensures Charged(t[id], t'[id], id in batch, w) {
    }
    var m, m' := Weights(t), Weights(t');
    assert mover in m && m[mover] > 0 && (mover !in m' || m'[mover] < m[mover]);
    TotalFalls(m, m');
  }

  /**
   * Whatever comes after the claim, a pass that finds no running lease makes headway as
   * long as any row is unsettled, expired leases of crashed relays included.
   */
  lemma EveryPassMakesProgress(c: Contracts, t: Table, w: World, limit: nat)
    requires Bounded(t) && Ready(t, w) && Lawful(w) && ClaimsTake(w) && AnyUnsettled(t) && limit > 0
    ensures Bounded(Pass(c, t, w, limit)) && Measure(Pass(c, t, w, limit)) < Measure(t)
  {
    PassCharges(c, t, w, limit);
    var mover := SomeRowMoves(t, w, limit);
    ChargesFall(t, Pass(c, t, w, limit), Batch(t, w, limit), w, mover);
  }

  /** The claim of a row after the pass: none, the one before, or the pass's own. */
  ghost predicate LeaseOf(row: Row, row': Row, w: World) {
    row'.claimedAt.None? || row'.claimedAt == row.claimedAt || row'.claimedAt == Some(w.claimAt)
  }

  ghost predicate LeasesOf(t: Table, t': Table, w: World) {
    t'.Keys == t.Keys && forall id :: id in t ==> (Settled(t[id]) ==> Settled(t'[id])) && LeaseOf(t[id], t'[id], w)
  }

  lemma MidLeases(c: Contracts, t: Table, w: World, batch: set<Id>, done: set<Id>)
    ensures LeasesOf(t, MidDrain(c, t, w, batch, done), w)
  {
    forall id | id in t
      ensures var row := Ends(c, t[id], id, w, id in batch, id in done);
              (Settled(t[id]) ==> Settled(row)) && LeaseOf(t[id], row, w)
    {
    }
  }

  lemma PassLeases(c: Contracts, t: Table, w: World, limit: nat)
    ensures LeasesOf(t, Pass(c, t, w, limit), w)
  {
    MidLeases(c, t, w, Batch(t, w, limit), {});
    MidLeases(c, t, w, IdsOf(Claims(t, w, limit)), TurnIds(c, w, Claims(t, w, limit)));
    SweptLeases(t, w);
    ClaimLeases(t, w, Batch(t, w, limit));
  }

  lemma SweptLeases(t: Table, w: World)
    ensures LeasesOf(t, t, w) && LeasesOf(t, QuarantineExhausted(t, w.quarantineAt), w)
  {
  }

  lemma ClaimLeases(t: Table, w: World, batch: set<Id>)
    ensures LeasesOf(t, ClaimRows(QuarantineExhausted(t, w.quarantineAt), batch, w.token, w.claimAt), w)
  {
  }

  /** With every claim given up again, the pass leaves no lease of its own. */
  lemma ReleasedPass(c: Contracts, t: Table, w: World, limit: nat)
    requires Lawful(w) && w.fault.NoFault? && forall id :: w.release(id).Acked?
    ensures var t' := Pass(c, t, w, limit);
            t'.Keys == t.Keys && forall id :: id in t ==> t'[id].claimedAt.None? || t'[id].claimedAt == t[id].claimedAt
  {
    var claimed := Claims(t, w, limit);
    var batch, done := Batch(t, w, limit), TurnIds(c, w, claimed);
    ClaimsAre(t, w, limit);
    AllTurn(c, t, w, claimed);
    forall id | id in t
      ensures var row := Ends(c, t[id], id, w, id in batch, id in done);
              row.claimedAt.None? || row.claimedAt == t[id].claimedAt
    {
    }
  }

  lemma StaysReady(c: Contracts, t: Table, w: World, w': World, limit: nat)
    requires Ready(t, w) && Lawful(w) && Resumes(w, w')
    ensures Ready(Pass(c, t, w, limit), w')
  {
    PassLeases(c, t, w, limit);
    if w.fault.NoFault? && forall id :: w.release(id).Acked? {
      ReleasedPass(c, t, w, limit);
    }
    var t' := Pass(c, t, w, limit);
    forall id | id in t' && !Settled(t'[id])
      ensures LeaseFree(t'[id], w'.quarantineAt) && LeaseFree(t'[id], w'.claimAt)
    {
      assert LeaseOf(t[id], t'[id], w) && LeaseFree(t[id], w.quarantineAt) && LeaseFree(t[id], w.claimAt);
    }
  }

  /** The table after a number of passes, each meeting its own world. */
  ghost function AfterPasses(c: Contracts, t: Table, worlds: seq<World>, limit: nat): Table {
    if worlds == [] then t else AfterPasses(c, Pass(c, t, worlds[0], limit), worlds[1..], limit)
  }

  ghost predicate Succession(worlds: seq<World>) {
    && (forall i :: 0 <= i < |worlds| ==> Lawful(worlds[i]) && ClaimsTake(worlds[i]))
    && (forall i, j :: 0 <= i < |worlds| && j == i + 1 < |worlds| ==> Resumes(worlds[i], worlds[j]))
  }

  /** No row stays unsettled for more passes than the measure, even if all that follows each claim fails. */
  lemma {:induction false} EveryRowSettles(c: Contracts, t: Table, worlds: seq<World>, limit: nat)
    requires Bounded(t) && limit > 0 && |worlds| >= Measure(t) && Succession(worlds)
    requires worlds != [] ==> Ready(t, worlds[0])
    ensures !AnyUnsettled(AfterPasses(c, t, worlds, limit))
    decreases |worlds|
  {
    if AnyUnsettled(t) {
      var u :| u in t && !Settled(t[u]);
      TotalRemove(Weights(t), u);
      EveryPassMakesProgress(c, t, worlds[0], limit);
      if |worlds| > 1 {
        StaysReady(c, t, worlds[0], worlds[1], limit);
      }
      EveryRowSettles(c, Pass(c, t, worlds[0], limit), worlds[1..], limit);
    } else {
      SettledStays(c, t, worlds, limit);
    }
  }

  lemma {:induction false} SettledStays(c: Contracts, t: Table, worlds: seq<World>, limit: nat)
    requires !AnyUnsettled(t)
    ensures !AnyUnsettled(AfterPasses(c, t, worlds, limit))
    decreases |worlds|
  {
    if worlds != [] {
      PassLeases(c, t, worlds[0], limit);
      SettledStays(c, Pass(c, t, worlds[0], limit), worlds[1..], limit);
    }
  }
}
