/** What the lease, the attempt budget and the deduplication window are worth over whole runs of the relays. */
module OutboxLimits {
  import opened Common
  import opened OutboxTable
  import opened OutboxProtocol

  // ----- what one statement writes -----

  /** The row is gone only by a prune past the retention; otherwise it keeps its content. */
  lemma RowsStay(c: Config, s: State, step: Step, id: Id)
    requires Enabled(c, s, step) && id in s.rows
    ensures id !in Apply(c, s, step).rows ==>
              && step.Prune? && id in step.ids
              && ((s.rows[id].drainedAt.Some? && s.rows[id].drainedAt.value + c.retention < s.now)
                  || (s.rows[id].deadLetteredAt.Some? && s.rows[id].deadLetteredAt.value + c.retention < s.now))
    ensures id in Apply(c, s, step).rows ==> Apply(c, s, step).rows[id].content == s.rows[id].content
  {
  }

  /** A claim takes open rows with attempts to spare and no running lease, and writes its stamp on them alone. */
  lemma ClaimWrites(c: Config, s: State, step: Step, id: Id)
    requires step.Claim? && Enabled(c, s, step) && id in s.rows
    ensures |step.order| <= c.batchSize && id in Apply(c, s, step).rows
    ensures var row, after := s.rows[id], Apply(c, s, step).rows[id];
            if id in step.order then
              && row.drainedAt.None? && row.deadLetteredAt.None? && row.attempts < 10
              && (row.claimedAt.Some? ==> row.claimedAt.value + 120_000 < s.now)
              && after == Row(row.content, None, Some(step.token), Some(s.now), row.attempts + 1, row.lastError, None)
            else after == row
  {
  }

  /** The sweep dead-letters exactly the open rows that have spent ten attempts and hold no running lease. */
  lemma SweepWrites(c: Config, s: State, step: Step, id: Id)
    requires step.Sweep? && Enabled(c, s, step) && id in s.rows
    ensures id in Apply(c, s, step).rows
    ensures var row, after := s.rows[id], Apply(c, s, step).rows[id];
            if && row.drainedAt.None? && row.deadLetteredAt.None? && row.attempts >= 10
               && (row.claimedAt.None? || row.claimedAt.value + 120_000 < s.now)
            then
              after == Row(row.content, None, None, None, row.attempts,
                           if row.lastError.Some? then row.lastError else Some("Outbox relay exceeded 10 attempts."),
                           Some(s.now))
            else after == row
  {
  }

  /** The statements under a token touch only rows that still carry it, and give the claim up. */
  lemma TokenWrites(c: Config, s: State, step: Step, id: Id)
    requires (step.QuarantineInvalid? || step.Stamp? || step.Release?) && Enabled(c, s, step) && id in s.rows
    ensures id in Apply(c, s, step).rows
    ensures var w, row, after := s.relays[step.r], s.rows[id], Apply(c, s, step).rows[id];
            if row.claimToken != Some(w.token) then after == row
            else if step.QuarantineInvalid? && id in w.invalid then
              after == Row(row.content, row.drainedAt, None, None, row.attempts, Some(step.error), Some(s.now))
            else if step.Stamp? && id == w.stage.row.id && !step.outcome.Lost? && row.deadLetteredAt.None? then
              after == Row(row.content, Some(s.now), None, None, row.attempts, row.lastError, None)
            else if step.Release? && id == w.stage.row.id then
              after == Row(row.content, row.drainedAt, None, None, row.attempts, Some(step.error), row.deadLetteredAt)
            else after == row
  {
  }

  /** Every other step leaves every row it keeps alone. */
  lemma OthersWriteNothing(c: Config, s: State, step: Step, id: Id)
    requires Enabled(c, s, step) && id in s.rows && id in Apply(c, s, step).rows
    requires !step.Claim? && !step.Sweep? && !step.QuarantineInvalid? && !step.Stamp? && !step.Release?
    ensures Apply(c, s, step).rows[id] == s.rows[id]
  {
  }

  // ----- a running lease -----

  /** Until two minutes have passed since its claim, a row changes only by a statement of the relay that holds it. */
  lemma LeaseExcludesOthers(c: Config, states: seq<State>, steps: seq<Step>, n: nat, id: Id)
    requires IsRun(c, states, steps) && n < |steps| && id in states[n].rows && states[n].rows[id].claimedAt.Some?
    requires states[n].now <= states[n].rows[id].claimedAt.value + 120_000
    ensures id in states[n + 1].rows
    ensures states[n + 1].rows[id] != states[n].rows[id] ==>
              && (steps[n].QuarantineInvalid? || steps[n].Stamp? || steps[n].Release?)
              && steps[n].r in states[n].relays && states[n].relays[steps[n].r].Working?
              && states[n].rows[id].claimToken == Some(states[n].relays[steps[n].r].token)
  {
    var s, step := states[n], steps[n];
    SettlementIsExclusive(c, states, steps, n, id);
    RowsStay(c, s, step, id);
    if step.Claim? {
      ClaimWrites(c, s, step, id);
    } else if step.Sweep? {
      SweepWrites(c, s, step, id);
    } else if step.QuarantineInvalid? || step.Stamp? || step.Release? {
      TokenWrites(c, s, step, id);
    } else {
      OthersWriteNothing(c, s, step, id);
    }
  }

  /** The row is claimed, since the given instant or later. */
  ghost predicate HeldSince(s: State, id: Id, at: Time) {
    id in s.rows && s.rows[id].claimedAt.Some? && at <= s.rows[id].claimedAt.value && at <= s.now
  }

  lemma HeldStep(c: Config, states: seq<State>, steps: seq<Step>, k: nat, id: Id, at: Time)
    requires IsRun(c, states, steps) && k < |steps| && HeldSince(states[k], id, at)
    requires id in states[k + 1].rows && states[k + 1].rows[id].claimedAt.Some?
    ensures HeldSince(states[k + 1], id, at)
  {
    var s, step := states[k], steps[k];
    if step.Claim? {
      ClaimWrites(c, s, step, id);
    } else if step.Sweep? {
      SweepWrites(c, s, step, id);
    } else if step.QuarantineInvalid? || step.Stamp? || step.Release? {
      TokenWrites(c, s, step, id);
    } else {
      OthersWriteNothing(c, s, step, id);
    }
  }

  lemma TakenIsHeld(c: Config, s: State, step: Step, id: Id)
    requires Enabled(c, s, step) && Takes(step, id)
    ensures HeldSince(Apply(c, s, step), id, s.now)
  {
    var k :| 0 <= k < |step.order| && step.order[k] == id;
    ClaimWrites(c, s, step, id);
  }

  lemma {:induction false} HeldThroughout(states: seq<State>, i: nat, j: nat, id: Id, at: Time)
    requires i <= j < |states| && HeldSince(states[i], id, at)
    requires forall k: nat :: i < k <= j && HeldSince(states[k - 1], id, at) ==> HeldSince(states[k], id, at)
    ensures HeldSince(states[j], id, at)
  {
    if i < j {
      HeldThroughout(states, i, j - 1, id, at);
    }
  }

  /** Two claims of one row, with the first never given up in between, are more than the lease apart. */
  lemma ReclaimedAfterTheLease(c: Config, states: seq<State>, steps: seq<Step>, i: nat, j: nat, id: Id)
    requires IsRun(c, states, steps) && i < j < |steps| && Takes(steps[i], id) && Takes(steps[j], id)
    requires forall k :: i < k <= j ==> id in states[k].rows && states[k].rows[id].claimedAt.Some?
    ensures states[j].now > states[i].now + 120_000
  {
    TakenIsHeld(c, states[i], steps[i], id);
    forall k: nat | i + 1 < k <= j && HeldSince(states[k - 1], id, states[i].now)
      ensures HeldSince(states[k], id, states[i].now)
    {
      HeldStep(c, states, steps, k - 1, id, states[i].now);
    }
    HeldThroughout(states, i + 1, j, id, states[i].now);
    ClaimWrites(c, states[j], steps[j], id);
  }

  /** And that is all that stands in the way: a claim of one row by a swept relay goes through exactly then. */
  lemma ClaimsExactlyWhen(c: Config, s: State, r: nat, token: Id, id: Id)
    requires r in s.relays && s.relays[r] == Swept && token !in s.tokens && c.batchSize >= 1
    ensures Enabled(c, s, Claim(r, token, [id]))
            <==> && id in s.rows && s.rows[id].drainedAt.None? && s.rows[id].deadLetteredAt.None?
                 && s.rows[id].attempts < 10
                 && (s.rows[id].claimedAt.None? || s.now > s.rows[id].claimedAt.value + 120_000)
  {
    assert [id][0] == id;
  }

  // ----- the attempt budget -----

  /** The rows a relay is to quarantine fail their contract, and only those and exhausted rows are dead-lettered. */
  ghost predicate QuarantineOk(c: Config, s: State) {
    && (forall r, id :: r in s.relays && s.relays[r].Working? && id in s.relays[r].invalid ==> Unfit(c, s, id))
    && (forall id :: id in s.rows && s.rows[id].deadLetteredAt.Some? ==> Unfit(c, s, id) || s.rows[id].attempts >= 10)
  }

  ghost predicate Unfit(c: Config, s: State, id: Id) {
    && id in s.trail
    && !(s.trail[id].content.name in c.contracts.subscribers && c.contracts.parses(id, s.trail[id].content))
  }

  lemma UnfitStays(c: Config, s: State, step: Step, id: Id)
    requires Inv(c, s) && Enabled(c, s, step) && Unfit(c, s, id)
    ensures Unfit(c, Apply(c, s, step), id)
  {
    if id in s.rows {
      assert RowOk(c, s, id, s.rows[id]);
    }
  }

  /** A row is dead-lettered by its relay for its contract, or by the sweep for its attempts. */
  lemma DeadLetterStep(c: Config, s: State, step: Step, id: Id)
    requires Inv(c, s) && QuarantineOk(c, s) && Enabled(c, s, step)
    requires id in Apply(c, s, step).rows && Apply(c, s, step).rows[id].deadLetteredAt.Some?
    ensures Unfit(c, Apply(c, s, step), id) || Apply(c, s, step).rows[id].attempts >= 10
  {
    assert id in s.rows;
    if Unfit(c, s, id) {
      UnfitStays(c, s, step, id);
    } else if step.Claim? {
      ClaimWrites(c, s, step, id);
    } else if step.Sweep? {
      SweepWrites(c, s, step, id);
    } else if step.QuarantineInvalid? || step.Stamp? || step.Release? {
      TokenWrites(c, s, step, id);
    } else {
      OthersWriteNothing(c, s, step, id);
    }
  }

  lemma InvalidAfterClaim(c: Config, s: State, step: Step, id: Id)
    requires Inv(c, s) && step.Claim? && Enabled(c, s, step)
    requires Apply(c, s, step).relays[step.r].Working? && id in Apply(c, s, step).relays[step.r].invalid
    ensures Unfit(c, s, id)
  {
    var rows := Returning(s.rows, step.order);
    KeepMembers(c.contracts, rows, false);
    var row :| row in Keep(c.contracts, rows, false) && row.id == id;
    var i :| 0 <= i < |rows| && rows[i] == row;
    assert RowOk(c, s, id, s.rows[id]);
  }

  lemma InvalidStep(c: Config, s: State, step: Step, r: nat, id: Id)
    requires Inv(c, s) && QuarantineOk(c, s) && Enabled(c, s, step)
    requires r in Apply(c, s, step).relays && Apply(c, s, step).relays[r].Working?
    requires id in Apply(c, s, step).relays[r].invalid
    ensures Unfit(c, Apply(c, s, step), id)
  {
    if step.Claim? && r == step.r {
      InvalidAfterClaim(c, s, step, id);
    } else {
      assert r in s.relays && s.relays[r].Working? && id in s.relays[r].invalid;
    }
    UnfitStays(c, s, step, id);
  }

  lemma {:induction false} QuarantineKeeps(c: Config, states: seq<State>, steps: seq<Step>, n: nat)
    requires IsRun(c, states, steps) && n < |states|
    ensures QuarantineOk(c, states[n])
  {
    if n > 0 {
      var s, step := states[n - 1], steps[n - 1];
      RunKeeps(c, states, steps, n - 1);
      QuarantineKeeps(c, states, steps, n - 1);
      forall id | id in states[n].rows && states[n].rows[id].deadLetteredAt.Some?
        ensures Unfit(c, states[n], id) || states[n].rows[id].attempts >= 10
      {
        DeadLetterStep(c, s, step, id);
      }
      forall r, id | r in states[n].relays && states[n].relays[r].Working? && id in states[n].relays[r].invalid
        ensures Unfit(c, states[n], id)
      {
        InvalidStep(c, s, step, r, id);
      }
    }
  }

  /** An event that meets its contract is given up only after ten claims. */
  lemma GivenUpAfterTenClaims(c: Config, states: seq<State>, steps: seq<Step>, n: nat, id: Id)
    requires IsRun(c, states, steps) && n < |states| && id in states[n].rows
    requires states[n].rows[id].deadLetteredAt.Some?
    requires var content := states[n].rows[id].content;
             content.name in c.contracts.subscribers && c.contracts.parses(id, content)
    ensures CountClaims(steps, n, id) == 10
  {
    RunKeeps(c, states, steps, n);
    QuarantineKeeps(c, states, steps, n);
    AttemptsAreBounded(c, states, steps, n, id);
    assert RowOk(c, states[n], id, states[n].rows[id]);
  }

  // ----- the deduplication window -----

  /** A job of this key enqueued at that instant. */
  ghost predicate JobAt(log: seq<Job>, queue: string, id: Id, at: Time) {
    exists i :: 0 <= i < |log| && log[i].queue == queue && log[i].id == id && log[i].at == at
  }

  /** The instant kept for a key is that of one of its jobs. */
  ghost predicate DedupOk(s: State) {
    forall key :: key in s.dedup ==> JobAt(s.log, key.0, key.1, s.dedup[key])
  }

  lemma JobAtSnoc(log: seq<Job>, job: Job, queue: string, id: Id, at: Time)
    requires JobAt(log, queue, id, at) || (job.queue == queue && job.id == id && job.at == at)
    ensures JobAt(log + [job], queue, id, at)
  {
    var more := log + [job];
    assert more[|log|] == job;
    if JobAt(log, queue, id, at) {
      var i :| 0 <= i < |log| && log[i].queue == queue && log[i].id == id && log[i].at == at;
      assert more[i] == log[i];
    }
  }

  lemma EnqueueKeepsDedup(s: State, queue: string, row: Snapshot)
    requires DedupOk(s)
    ensures DedupOk(Enqueue(s, queue, row))
  {
    var t := Enqueue(s, queue, row);
    if t.log != s.log {
      forall key | key in t.dedup ensures JobAt(t.log, key.0, key.1, t.dedup[key]) {
        JobAtSnoc(s.log, Job(queue, row.id, row.content, s.now), key.0, key.1, t.dedup[key]);
      }
    }
  }

  lemma DedupStep(c: Config, s: State, step: Step)
    requires Enabled(c, s, step) && DedupOk(s)
    ensures DedupOk(Apply(c, s, step))
  {
    if step.Send? && !step.outcome.Lost? {
      var w := s.relays[step.r];
      EnqueueKeepsDedup(s, Subscribers(c, w.stage.row.content)[w.stage.sent], w.stage.row);
    }
  }

  lemma {:induction false} DedupKeeps(c: Config, states: seq<State>, steps: seq<Step>, n: nat)
    requires IsRun(c, states, steps) && n < |states|
    ensures DedupOk(states[n])
  {
    if n > 0 {
      DedupKeeps(c, states, steps, n - 1);
      DedupStep(c, states[n - 1], steps[n - 1]);
    }
  }

  /** The last ten minutes hold a job of this key. */
  ghost predicate RecentJob(s: State, queue: string, id: Id) {
    exists i :: 0 <= i < |s.log| && s.log[i].queue == queue && s.log[i].id == id && s.now < s.log[i].at + 600_000
  }

  lemma RecentIsInWindow(c: Config, s: State, queue: string, id: Id)
    requires Inv(c, s) && DedupOk(s)
    ensures InWindow(s, (queue, id)) <==> RecentJob(s, queue, id)
  {
    if InWindow(s, (queue, id)) {
      assert JobAt(s.log, queue, id, s.dedup[(queue, id)]);
    }
    if RecentJob(s, queue, id) {
      var i :| 0 <= i < |s.log| && s.log[i].queue == queue && s.log[i].id == id && s.now < s.log[i].at + 600_000;
      assert JobOk(c, s, s.log[i]);
    }
  }

  /**
   * A send that reaches the queue adds the event for the next subscriber in line, and adds it exactly
   * when the last ten minutes hold no job for the two of them.
   */
  lemma SendsExactlyWhen(c: Config, states: seq<State>, steps: seq<Step>, n: nat)
    requires IsRun(c, states, steps) && n < |steps| && steps[n].Send?
    ensures var s, r := states[n], steps[n].r;
            && r in s.relays && s.relays[r].Working? && s.relays[r].stage.Sending?
            && var row, sent := s.relays[r].stage.row, s.relays[r].stage.sent;
               && row.content.name in c.contracts.subscribers
               && sent < |c.contracts.subscribers[row.content.name]|
               && var queue := c.contracts.subscribers[row.content.name][sent];
                  states[n + 1].log
                  == if steps[n].outcome.Lost? || RecentJob(s, queue, row.id) then s.log
                     else s.log + [Job(queue, row.id, row.content, s.now)]
  {
    var s := states[n];
    var w := s.relays[steps[n].r];
    RunKeeps(c, states, steps, n);
    DedupKeeps(c, states, steps, n);
    RecentIsInWindow(c, s, Subscribers(c, w.stage.row.content)[w.stage.sent], w.stage.row.id);
  }
}
