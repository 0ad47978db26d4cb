/** A drain pass is a run of the relay protocol, so what holds of every run holds of the drain service. */
module OutboxRefinement {
  import opened Common
  import opened Ordering
  import opened OutboxTable
  import opened OutboxDrain
  import opened OutboxSettlement
  import P = OutboxProtocol

  // ----- runs from any state -----

  /** These steps are possible from s, one after the other, and end in t. */
  ghost predicate Leads(c: P.Config, s: P.State, steps: seq<P.Step>, t: P.State)
    decreases |steps|
  {
    if steps == [] then t == s
    else P.Enabled(c, s, steps[0]) && Leads(c, P.Apply(c, s, steps[0]), steps[1..], t)
  }

  lemma {:induction false} LeadsJoin(c: P.Config, s: P.State, a: seq<P.Step>, m: P.State, b: seq<P.Step>, t: P.State)
    requires Leads(c, s, a, m) && Leads(c, m, b, t)
    ensures Leads(c, s, a + b, t)
    decreases |a|
  {
    if a == [] {
      assert a + b == b;
    } else {
      LeadsJoin(c, P.Apply(c, s, a[0]), a[1..], m, b, t);
      assert (a + b)[1..] == a[1..] + b;
    }
  }

  lemma LeadsThen(c: P.Config, s: P.State, a: seq<P.Step>, m: P.State, step: P.Step)
    requires Leads(c, s, a, m) && P.Enabled(c, m, step)
    ensures Leads(c, s, a + [step], P.Apply(c, m, step))
  {
    assert Leads(c, m, [step], P.Apply(c, m, step));
    LeadsJoin(c, s, a, m, [step], P.Apply(c, m, step));
  }

  lemma LeadsFirst(c: P.Config, s: P.State, step: P.Step, m: P.State, rest: seq<P.Step>, t: P.State)
    requires P.Enabled(c, s, step) && m == P.Apply(c, s, step) && Leads(c, m, rest, t)
    ensures Leads(c, s, [step] + rest, t)
  {
    assert ([step] + rest)[1..] == rest;
  }

  lemma {:induction false} LeadsExtendsRun(c: P.Config, states: seq<P.State>, steps: seq<P.Step>, more: seq<P.Step>,
                                           t: P.State)
    returns (longer: seq<P.State>)
    requires P.IsRun(c, states, steps) && Leads(c, states[|steps|], more, t)
    ensures P.IsRun(c, longer, steps + more) && longer[|steps + more|] == t
    decreases |more|
  {
    if more == [] {
      longer := states;
      assert steps + more == steps;
    } else {
      var next := P.Apply(c, states[|steps|], more[0]);
      longer := LeadsExtendsRun(c, states + [next], steps + [more[0]], more[1..], t);
      assert steps + [more[0]] + more[1..] == steps + more;
    }
  }

  lemma {:induction false} LeadsKeeps(c: P.Config, s: P.State, steps: seq<P.Step>, t: P.State)
    requires Leads(c, s, steps, t) && P.Inv(c, s)
    ensures P.Inv(c, t)
    decreases |steps|
  {
    if steps != [] {
      P.StepKeeps(c, s, steps[0]);
      LeadsKeeps(c, P.Apply(c, s, steps[0]), steps[1..], t);
    }
  }

  // ----- the sends in the log -----

  /** Each of these sends has a job in the log by now, and nothing else was added to it. */
  ghost predicate Logged(before: seq<P.Job>, after: seq<P.Job>, sends: Sends) {
    && before <= after
    && (forall send :: send in sends ==> P.Enqueued(after, send.0, send.1))
    && (forall k :: |before| <= k < |after| ==> (after[k].queue, after[k].id) in sends)
  }

  lemma EnqueuedStays(log: seq<P.Job>, log': seq<P.Job>, queue: string, id: Id)
    requires log <= log' && P.Enqueued(log, queue, id)
    ensures P.Enqueued(log', queue, id)
  {
    var i :| 0 <= i < |log| && log[i].queue == queue && log[i].id == id;
    assert log'[i] == log[i];
  }

  lemma LoggedJoin(a: seq<P.Job>, b: seq<P.Job>, c: seq<P.Job>, x: Sends, y: Sends)
    requires Logged(a, b, x) && Logged(b, c, y)
    ensures Logged(a, c, x + y)
  {
    forall send | send in x + y ensures P.Enqueued(c, send.0, send.1) {
      if send in x {
        EnqueuedStays(b, c, send.0, send.1);
      }
    }
    forall k | |a| <= k < |c| ensures (c[k].queue, c[k].id) in x + y {
      assert k < |b| ==> c[k] == b[k];
    }
  }

  /** One send, enqueued or absorbed by an earlier job with its key. */
  lemma SendLogged(c: P.Config, s: P.State, queue: string, row: Snapshot)
    requires P.Inv(c, s)
    ensures Logged(s.log, P.Enqueue(s, queue, row).log, [(queue, row.id)])
  {
    var after := P.Enqueue(s, queue, row).log;
    if P.InWindow(s, (queue, row.id)) {
      assert P.Enqueued(s.log, queue, row.id);
    } else {
      assert after[|s.log|].queue == queue && after[|s.log|].id == row.id;
    }
  }

  // ----- one row's turn -----

  function WorkingOn(w: World, todo: seq<Snapshot>, stage: P.Stage): P.Relay {
    P.Working(w.token, {}, todo, stage)
  }

  /** The rest of the state that later statements look at. */
  ghost predicate SameBut(s: P.State, t: P.State, rows: Table, now: Time) {
    t.rows == rows && t.now == now && t.tokens == s.tokens && t.log == s.log
  }

  function SubSends(subs: seq<string>, id: Id, i: nat, n: nat): (sends: Sends)
    requires i <= n <= |subs|
  {
    seq(n - i, k requires 0 <= k < n - i => (subs[i + k], id))
  }

  lemma SubSendsHead(subs: seq<string>, id: Id, i: nat, n: nat)
    requires i < n <= |subs|
    ensures [(subs[i], id)] + SubSends(subs, id, i + 1, n) == SubSends(subs, id, i, n)
  {
  }

  lemma SendStep(c: P.Config, s: P.State, r: nat, w: World, row: Snapshot, todo: seq<Snapshot>, i: nat)
    returns (t: P.State)
    requires P.Inv(c, s) && P.RelayAt(s, r) == WorkingOn(w, todo, P.Sending(row, i))
    requires i < |P.Subscribers(c, row.content)|
    ensures P.Enabled(c, s, P.Send(r, Acked)) && t == P.Apply(c, s, P.Send(r, Acked)) && P.Inv(c, t)
    ensures t.rows == s.rows && t.now == s.now && t.tokens == s.tokens
    ensures P.RelayAt(t, r) == WorkingOn(w, todo, P.Sending(row, i + 1))
    ensures Logged(s.log, t.log, [(P.Subscribers(c, row.content)[i], row.id)])
  {
    t := P.Apply(c, s, P.Send(r, Acked));
    SendLogged(c, s, P.Subscribers(c, row.content)[i], row);
    P.StepKeeps(c, s, P.Send(r, Acked));
  }

  lemma {:induction false} SendPath(c: P.Config, s: P.State, r: nat, w: World, row: Snapshot, todo: seq<Snapshot>,
                                    i: nat, n: nat)
    returns (steps: seq<P.Step>, t: P.State)
    requires P.Inv(c, s) && P.RelayAt(s, r) == WorkingOn(w, todo, P.Sending(row, i))
    requires i <= n <= |P.Subscribers(c, row.content)|
    ensures Leads(c, s, steps, t) && t.rows == s.rows && t.now == s.now && t.tokens == s.tokens
    ensures P.RelayAt(t, r) == WorkingOn(w, todo, P.Sending(row, n))
    ensures Logged(s.log, t.log, SubSends(P.Subscribers(c, row.content), row.id, i, n))
    decreases n - i
  {
    if i == n {
      steps, t := [], s;
    } else {
      var subs := P.Subscribers(c, row.content);
      var next := SendStep(c, s, r, w, row, todo, i);
      steps, t := SendPath(c, next, r, w, row, todo, i + 1, n);
      LoggedJoin(s.log, next.log, t.log, [(subs[i], row.id)], SubSends(subs, row.id, i + 1, n));
      SubSendsHead(subs, row.id, i, n);
      LeadsFirst(c, s, P.Send(r, Acked), next, steps, t);
      steps := [P.Send(r, Acked)] + steps;
    }
  }

  /** The sends of a dispatch, up to the one that throws. */
  lemma SendsPath(c: P.Config, s: P.State, r: nat, w: World, row: Snapshot, todo: seq<Snapshot>)
    returns (steps: seq<P.Step>, t: P.State)
    requires P.Inv(c, s) && P.RelayAt(s, r) == WorkingOn(w, [row] + todo, P.Between)
    ensures Leads(c, s, steps, t) && t.rows == s.rows && t.now == s.now && t.tokens == s.tokens
    ensures Logged(s.log, t.log, RowSends(c.contracts, w, row))
    ensures P.RelayAt(t, r) == WorkingOn(w, todo, if Succeeds(c.contracts, w, row.id, row.content)
                                                  then P.Sending(row, |P.Subscribers(c, row.content)|)
                                                  else P.Failing(row))
  {
    var subs := P.Subscribers(c, row.content);
    var n := if Succeeds(c.contracts, w, row.id, row.content) then |subs| else w.reaches(row.id).value;
    var begun := P.Apply(c, s, P.Begin(r));
    assert ([row] + todo)[1..] == todo;
    P.StepKeeps(c, s, P.Begin(r));
    steps, t := SendPath(c, begun, r, w, row, todo, 0, n);
    assert SubSends(subs, row.id, 0, n) == RowSends(c.contracts, w, row);
    LeadsJoin(c, s, [P.Begin(r)], begun, steps, t);
    steps := [P.Begin(r)] + steps;
    if !Succeeds(c.contracts, w, row.id, row.content) {
      LeadsThen(c, s, steps, t, P.Send(r, Lost));
      steps, t := steps + [P.Send(r, Lost)], P.Apply(c, t, P.Send(r, Lost));
    }
  }

  /** Dispatch and stamp: the row leaves the relay's hands, or its release is due. */
  lemma DispatchPath(c: P.Config, s: P.State, r: nat, w: World, row: Snapshot, todo: seq<Snapshot>)
    returns (steps: seq<P.Step>, t: P.State)
    requires P.Inv(c, s) && P.RelayAt(s, r) == WorkingOn(w, [row] + todo, P.Between) && s.now <= w.settleAt(row.id)
    ensures Leads(c, s, steps, t) && t.tokens == s.tokens && s.now <= t.now <= w.settleAt(row.id)
    ensures Logged(s.log, t.log, RowSends(c.contracts, w, row))
    ensures t.rows == if Succeeds(c.contracts, w, row.id, row.content) && !w.stamp(row.id).Lost?
                      then MarkDrained(s.rows, row.id, w.token, w.settleAt(row.id)) else s.rows
    ensures P.RelayAt(t, r)
            == WorkingOn(w, todo, if Stamped(c.contracts, w, row.id, row.content) then P.Between else P.Failing(row))
  {
    steps, t := SendsPath(c, s, r, w, row, todo);
    if Succeeds(c.contracts, w, row.id, row.content) {
      var tick, stamp := P.Tick(w.settleAt(row.id)), P.Stamp(r, w.stamp(row.id));
      var ticked := P.Apply(c, t, tick);
      LeadsThen(c, s, steps, t, tick);
      LeadsThen(c, s, steps + [tick], ticked, stamp);
      steps, t := steps + [tick] + [stamp], P.Apply(c, ticked, stamp);
    }
  }

  lemma StopPath(c: P.Config, s: P.State, r: nat) returns (steps: seq<P.Step>, t: P.State)
    ensures Leads(c, s, steps, t) && SameBut(s, t, s.rows, s.now) && P.RelayAt(t, r) == P.Idle
  {
    steps, t := [P.Stop(r)], P.Apply(c, s, P.Stop(r));
    LeadsThen(c, s, [], s, P.Stop(r));
  }

  /** The release of a failed row; one that throws stops the relay. */
  lemma ReleasePath(c: P.Config, s: P.State, r: nat, w: World, row: Snapshot, todo: seq<Snapshot>, error: string)
    returns (steps: seq<P.Step>, t: P.State)
    requires P.RelayAt(s, r) == WorkingOn(w, todo, P.Failing(row))
    ensures Leads(c, s, steps, t)
    ensures SameBut(s, t, if w.release(row.id).Lost? then s.rows else ReleaseClaim(s.rows, row.id, w.token, error),
                    s.now)
    ensures P.RelayAt(t, r) == if w.release(row.id).Acked? then WorkingOn(w, todo, P.Between) else P.Idle
  {
    if w.release(row.id).Lost? {
      steps, t := StopPath(c, s, r);
    } else {
      steps, t := [P.Release(r, error)], P.Apply(c, s, P.Release(r, error));
      LeadsThen(c, s, [], s, P.Release(r, error));
      if w.release(row.id).Unacked? {
        var more, end := StopPath(c, t, r);
        LeadsJoin(c, s, steps, t, more, end);
        steps, t := steps + more, end;
      }
    }
  }

  lemma TurnPath(c: P.Config, s: P.State, r: nat, w: World, row: Snapshot, todo: seq<Snapshot>)
    returns (steps: seq<P.Step>, t: P.State)
    requires P.Inv(c, s) && P.RelayAt(s, r) == WorkingOn(w, [row] + todo, P.Between) && s.now <= w.settleAt(row.id)
    ensures Leads(c, s, steps, t) && t.tokens == s.tokens && s.now <= t.now <= w.settleAt(row.id)
    ensures Logged(s.log, t.log, RowSends(c.contracts, w, row))
    ensures t.rows == AfterTurn(c.contracts, s.rows, w, row.id, row.content)
    ensures P.RelayAt(t, r)
            == if Aborts(c.contracts, w, row.id, row.content) then P.Idle else WorkingOn(w, todo, P.Between)
  {
    steps, t := DispatchPath(c, s, r, w, row, todo);
    if !Stamped(c.contracts, w, row.id, row.content) {
      var error := if Succeeds(c.contracts, w, row.id, row.content) then w.stampError(row.id) else w.failure(row.id);
      var more, end := ReleasePath(c, t, r, w, row, todo, error);
      LeadsJoin(c, s, steps, t, more, end);
      steps, t := steps + more, end;
    }
  }

  // ----- the dispatch loop -----

  /** The stamps of these rows fall one after the other, none before `from`. */
  ghost predicate Clocked(w: World, from: Time, rows: seq<Snapshot>) {
    && (forall i :: 0 <= i < |rows| ==> from <= w.settleAt(rows[i].id))
    && (forall i, j :: 0 <= i < j < |rows| ==> w.settleAt(rows[i].id) <= w.settleAt(rows[j].id))
  }

  /** No statement of the pass comes later than this. */
  function LastInstant(w: World, fit: seq<Snapshot>): Time {
    if fit == [] then w.invalidAt else w.settleAt(fit[|fit| - 1].id)
  }

  /** A relay in the loop with its first i rows behind it, and their sends in the log. */
  ghost predicate InLoop(c: P.Config, s: P.State, r: nat, w: World, before: Table, batch: set<Id>, fit: seq<Snapshot>,
                         i: nat, log: seq<P.Job>)
  {
    && i <= |fit| && P.Inv(c, s)
    && P.RelayAt(s, r) == WorkingOn(w, fit[i..], P.Between)
    && s.rows == MidDrain(c.contracts, before, w, batch, IdsOf(fit[..i]))
    && Clocked(w, s.now, fit[i..]) && s.now <= LastInstant(w, fit)
    && Logged(log, s.log, SendsOf(c.contracts, w, fit, i))
  }

  lemma {:induction false} LoopPath(c: P.Config, s: P.State, r: nat, w: World, before: Table, batch: set<Id>,
                                    fit: seq<Snapshot>, i: nat, log: seq<P.Job>)
    returns (steps: seq<P.Step>, t: P.State)
    requires InLoop(c, s, r, w, before, batch, fit, i, log) && IsFit(c.contracts, before, w, batch, fit)
    requires forall k :: 0 <= k < i ==> !Aborts(c.contracts, w, fit[k].id, fit[k].content)
    ensures Leads(c, s, steps, t) && t.tokens == s.tokens && P.RelayAt(t, r) == P.Idle && t.now <= LastInstant(w, fit)
    ensures t.rows == MidDrain(c.contracts, before, w, batch, IdsOf(fit[..Reach(c.contracts, w, fit)]))
    ensures Logged(log, t.log, SendsOf(c.contracts, w, fit, Reach(c.contracts, w, fit)))
    decreases |fit| - i
  {
    if i == |fit| {
      NoAbort(c.contracts, w, fit);
      steps, t := [P.Finish(r)], P.Apply(c, s, P.Finish(r));
      LeadsThen(c, s, [], s, P.Finish(r));
    } else {
      steps, t := LoopTurn(c, s, r, w, before, batch, fit, i, log);
      if Aborts(c.contracts, w, fit[i].id, fit[i].content) {
        AbortAt(c.contracts, w, fit, i);
      } else {
        var more, end := LoopPath(c, t, r, w, before, batch, fit, i + 1, log);
        LeadsJoin(c, s, steps, t, more, end);
        steps, t := steps + more, end;
      }
    }
  }

  lemma LoopTurn(c: P.Config, s: P.State, r: nat, w: World, before: Table, batch: set<Id>, fit: seq<Snapshot>, i: nat,
                 log: seq<P.Job>)
    returns (steps: seq<P.Step>, t: P.State)
    requires InLoop(c, s, r, w, before, batch, fit, i, log) && IsFit(c.contracts, before, w, batch, fit) && i < |fit|
    ensures Leads(c, s, steps, t) && t.tokens == s.tokens && t.now <= LastInstant(w, fit)
    ensures t.rows == MidDrain(c.contracts, before, w, batch, IdsOf(fit[..i + 1]))
    ensures Logged(log, t.log, SendsOf(c.contracts, w, fit, i + 1))
    ensures if Aborts(c.contracts, w, fit[i].id, fit[i].content) then P.RelayAt(t, r) == P.Idle
            else InLoop(c, t, r, w, before, batch, fit, i + 1, log)
  {
    assert fit[i..] == [fit[i]] + fit[i + 1..];
    assert fit[i..][0] == fit[i] && fit[i] in fit;
    steps, t := TurnPath(c, s, r, w, fit[i], fit[i + 1..]);
    assert t.rows == MidDrain(c.contracts, before, w, batch, IdsOf(fit[..i + 1])) by {
      NextRow(fit, i);
      TurnOne(c.contracts, before, w, batch, IdsOf(fit[..i]), fit[i].id);
    }
    ClockedOn(w, s.now, t.now, fit, i);
    LoggedJoin(log, s.log, t.log, SendsOf(c.contracts, w, fit, i), RowSends(c.contracts, w, fit[i]));
    LeadsKeeps(c, s, steps, t);
  }

  lemma ClockedOn(w: World, from: Time, now: Time, fit: seq<Snapshot>, i: nat)
    requires i < |fit| && Clocked(w, from, fit[i..]) && now <= w.settleAt(fit[i].id)
    ensures Clocked(w, now, fit[i + 1..]) && now <= LastInstant(w, fit)
  {
    var rest := fit[i..];
    assert forall k :: 0 <= k < |fit| - i ==> rest[k] == fit[i + k];
    assert rest[|rest| - 1] == fit[|fit| - 1];
  }

  // ----- the whole pass -----

  function OrderOf(claimed: seq<Snapshot>): (order: seq<Id>)
    ensures |order| == |claimed| && forall i :: 0 <= i < |order| ==> order[i] == claimed[i].id
  {
    seq(|claimed|, i requires 0 <= i < |claimed| => claimed[i].id)
  }

  lemma ClaimIsEnabled(t: Table, w: World, limit: nat)
    requires Lawful(w)
    ensures var claimed := Claims(t, w, limit);
            var order := OrderOf(claimed);
            var q := QuarantineExhausted(t, w.quarantineAt);
            && P.Distinct(order) && |order| <= limit
            && (forall i :: 0 <= i < |order| ==> order[i] in q && Claimable(q[order[i]], w.claimAt))
            && Returning(q, order) == claimed && (set id | id in order) == IdsOf(claimed)
  {
    var claimed := Claims(t, w, limit);
    var order := OrderOf(claimed);
    var q := QuarantineExhausted(t, w.quarantineAt);
    ClaimsAre(t, w, limit);
    BatchOf(t, w, limit);
    IdsOfSize(claimed);
    TakeSetSize(Ascending, ClaimableKeys(q, w.claimAt), limit);
    forall i | 0 <= i < |order|
      ensures order[i] in q && Claimable(q[order[i]], w.claimAt)
                && claimed[i] == Snapshot(order[i], q[order[i]].content)
    {
      assert claimed[i] in claimed && order[i] in IdsOf(claimed);
    }
    forall id | id in IdsOf(claimed) ensures id in order {
      var i :| 0 <= i < |claimed| && claimed[i].id == id;
      assert order[i] == id;
    }
    forall i | 0 <= i < |order| ensures order[i] in IdsOf(claimed) {
      assert claimed[i] in claimed;
    }
  }

  /** The sweep, on its own. */
  lemma SweepPath(c: P.Config, s: P.State, r: nat, w: World) returns (steps: seq<P.Step>, t: P.State)
    requires P.RelayAt(s, r).Idle? && s.now <= w.quarantineAt
    ensures Leads(c, s, steps, t) && SameBut(s, t, QuarantineExhausted(s.rows, w.quarantineAt), w.quarantineAt)
    ensures P.RelayAt(t, r) == P.Swept
  {
    var ticked := P.Apply(c, s, P.Tick(w.quarantineAt));
    t := P.Apply(c, ticked, P.Sweep(r));
    LeadsThen(c, s, [], s, P.Tick(w.quarantineAt));
    LeadsThen(c, s, [] + [P.Tick(w.quarantineAt)], ticked, P.Sweep(r));
    steps := [] + [P.Tick(w.quarantineAt)] + [P.Sweep(r)];
  }

  /** Sweep and claim. */
  lemma ClaimPath(c: P.Config, s: P.State, r: nat, w: World) returns (steps: seq<P.Step>, t: P.State)
    requires Lawful(w) && P.RelayAt(s, r).Idle? && w.token !in s.tokens
    requires s.now <= w.quarantineAt <= w.claimAt
    ensures Leads(c, s, steps, t) && t.tokens == s.tokens + {w.token} && t.now == w.claimAt && t.log == s.log
    ensures var claimed := Claims(s.rows, w, c.batchSize);
            && t.rows == ClaimRows(QuarantineExhausted(s.rows, w.quarantineAt), IdsOf(claimed), w.token, w.claimAt)
            && P.RelayAt(t, r) == if claimed == [] then P.Idle
                                  else P.Working(w.token, IdsOf(Keep(c.contracts, claimed, false)),
                                                 Keep(c.contracts, claimed, true), P.Between)
  {
    ClaimIsEnabled(s.rows, w, c.batchSize);
    var tick, claim := P.Tick(w.claimAt), P.Claim(r, w.token, OrderOf(Claims(s.rows, w, c.batchSize)));
    steps, t := SweepPath(c, s, r, w);
    LeadsThen(c, s, steps, t, tick);
    var ticked := P.Apply(c, t, tick);
    LeadsThen(c, s, steps + [tick], ticked, claim);
    steps, t := steps + [tick] + [claim], P.Apply(c, ticked, claim);
  }

  /** The claimed rows off their contract go to quarantine; with none of them the statement is not run. */
  lemma InvalidPath(c: P.Config, s: P.State, r: nat, w: World, before: Table, claimed: seq<Snapshot>)
    returns (steps: seq<P.Step>, t: P.State)
    requires IsClaim(before, w, claimed) && s.now <= w.invalidAt
    requires s.rows == ClaimRows(QuarantineExhausted(before, w.quarantineAt), IdsOf(claimed), w.token, w.claimAt)
    requires P.RelayAt(s, r) == P.Working(w.token, IdsOf(Keep(c.contracts, claimed, false)),
                                          Keep(c.contracts, claimed, true), P.Between)
    ensures Leads(c, s, steps, t) && t.tokens == s.tokens && t.now <= w.invalidAt && t.log == s.log
    ensures t.rows == MidDrain(c.contracts, before, w, IdsOf(claimed), {})
    ensures P.RelayAt(t, r) == WorkingOn(w, Keep(c.contracts, claimed, true), P.Between)
  {
    ClaimedTable(c.contracts, before, w, claimed);
    if IdsOf(Keep(c.contracts, claimed, false)) == {} {
      steps, t := [], s;
      assert QuarantineRows(s.rows, {}, w.token, w.invalidAt, w.invalidMessage) == s.rows;
    } else {
      var tick, quarantine := P.Tick(w.invalidAt), P.QuarantineInvalid(r, w.invalidMessage);
      var ticked := P.Apply(c, s, tick);
      LeadsThen(c, s, [], s, tick);
      LeadsThen(c, s, [] + [tick], ticked, quarantine);
      steps, t := [] + [tick] + [quarantine], P.Apply(c, ticked, quarantine);
    }
  }

  lemma LoopBegins(c: P.Config, s: P.State, r: nat, w: World, before: Table, batch: set<Id>, fit: seq<Snapshot>)
    requires P.Inv(c, s) && P.RelayAt(s, r) == WorkingOn(w, fit, P.Between) && s.now <= w.invalidAt
    requires s.rows == MidDrain(c.contracts, before, w, batch, {}) && Clocked(w, w.invalidAt, fit)
    ensures InLoop(c, s, r, w, before, batch, fit, 0, s.log)
  {
    assert fit[0..] == fit && fit[..0] == [] && IdsOf([]) == {};
  }

  /** From the claimed batch to the end of the pass. */
  lemma WorkPath(c: P.Config, s: P.State, r: nat, w: World, before: Table, claimed: seq<Snapshot>)
    returns (steps: seq<P.Step>, t: P.State)
    requires P.Inv(c, s) && IsClaim(before, w, claimed) && s.now <= w.invalidAt
    requires Clocked(w, w.invalidAt, Keep(c.contracts, claimed, true))
    requires s.rows == ClaimRows(QuarantineExhausted(before, w.quarantineAt), IdsOf(claimed), w.token, w.claimAt)
    requires P.RelayAt(s, r) == P.Working(w.token, IdsOf(Keep(c.contracts, claimed, false)),
                                          Keep(c.contracts, claimed, true), P.Between)
    ensures Leads(c, s, steps, t) && t.tokens == s.tokens && P.RelayAt(t, r) == P.Idle
    ensures t.rows == AfterDrain(c.contracts, before, w, claimed)
    ensures t.now <= LastInstant(w, Keep(c.contracts, claimed, true))
    ensures var fit := Keep(c.contracts, claimed, true);
            Logged(s.log, t.log, SendsOf(c.contracts, w, fit, Reach(c.contracts, w, fit)))
  {
    var fit := Keep(c.contracts, claimed, true);
    steps, t := InvalidPath(c, s, r, w, before, claimed);
    LeadsKeeps(c, s, steps, t);
    ClaimIsFit(c.contracts, before, w, claimed);
    LoopBegins(c, t, r, w, before, IdsOf(claimed), fit);
    var more, end := LoopPath(c, t, r, w, before, IdsOf(claimed), fit, 0, s.log);
    LeadsJoin(c, s, steps, t, more, end);
    steps, t := steps + more, end;
  }

  /** The pass can run in this state: the relay is idle, its token is new, and its statements come in order. */
  ghost predicate CanPass(c: P.Config, s: P.State, r: nat, w: World) {
    && P.Inv(c, s) && Lawful(w) && P.RelayAt(s, r).Idle? && w.token !in s.tokens
    && s.now <= w.quarantineAt <= w.claimAt <= w.invalidAt
    && Clocked(w, w.invalidAt, Keep(c.contracts, Claims(s.rows, w, c.batchSize), true))
  }

  lemma EmptyClaim(c: Contracts, t: Table, w: World)
    ensures ClaimRows(QuarantineExhausted(t, w.quarantineAt), IdsOf([]), w.token, w.claimAt) == AfterDrain(c, t, w, [])
  {
  }

  /** A pass in which no batch statement throws. */
  lemma CleanPath(c: P.Config, s: P.State, r: nat, w: World) returns (steps: seq<P.Step>, t: P.State)
    requires CanPass(c, s, r, w)
    ensures Leads(c, s, steps, t) && P.RelayAt(t, r) == P.Idle && t.tokens == s.tokens + {w.token}
    ensures t.rows == AfterDrain(c.contracts, s.rows, w, Claims(s.rows, w, c.batchSize))
    ensures var fit := Keep(c.contracts, Claims(s.rows, w, c.batchSize), true);
            && t.now <= LastInstant(w, fit)
            && Logged(s.log, t.log, SendsOf(c.contracts, w, fit, Reach(c.contracts, w, fit)))
  {
    var claimed := Claims(s.rows, w, c.batchSize);
    ClaimsAre(s.rows, w, c.batchSize);
    steps, t := ClaimPath(c, s, r, w);
    if claimed == [] {
      EmptyClaim(c.contracts, s.rows, w);
    } else {
      LeadsKeeps(c, s, steps, t);
      var more, end := WorkPath(c, t, r, w, s.rows, claimed);
      LeadsJoin(c, s, steps, t, more, end);
      steps, t := steps + more, end;
    }
  }

  /** A pass cut short by a batch statement that throws, whether or not it took effect. */
  lemma FaultyPath(c: P.Config, s: P.State, r: nat, w: World) returns (steps: seq<P.Step>, t: P.State)
    requires CanPass(c, s, r, w) && Faulted(c.contracts, s.rows, w, c.batchSize).Some?
    ensures Leads(c, s, steps, t) && P.RelayAt(t, r) == P.Idle && t.log == s.log && t.now <= w.invalidAt
    ensures s.tokens <= t.tokens <= s.tokens + {w.token}
    ensures t.rows == Faulted(c.contracts, s.rows, w, c.batchSize).value
  {
    ClaimsAre(s.rows, w, c.batchSize);
    if w.fault == SweepFails(false) {
      steps, t := [], s;
    } else {
      if w.fault.SweepFails? || w.fault == ClaimFails(false) {
        steps, t := SweepPath(c, s, r, w);
      } else {
        steps, t := ClaimPath(c, s, r, w);
        if w.fault == QuarantineFails(true) {
          var more, end := InvalidPath(c, t, r, w, s.rows, Claims(s.rows, w, c.batchSize));
          LeadsJoin(c, s, steps, t, more, end);
          steps, t := steps + more, end;
        }
      }
      var stop, end := StopPath(c, t, r);
      LeadsJoin(c, s, steps, t, stop, end);
      steps, t := steps + stop, end;
    }
  }

  lemma InvalidBeforeLast(w: World, fit: seq<Snapshot>)
    requires Clocked(w, w.invalidAt, fit)
    ensures w.invalidAt <= LastInstant(w, fit)
  {
  }

  /**
   * Every pass of the drain service is a run of the protocol, however its statements and sends
   * end: it leaves the same table, each of its sends has a job in the log, and no other job was added.
   */
  lemma PassIsRun(c: P.Config, s: P.State, r: nat, w: World) returns (steps: seq<P.Step>, t: P.State)
    requires CanPass(c, s, r, w)
    ensures Leads(c, s, steps, t) && P.RelayAt(t, r).Idle? && s.tokens <= t.tokens <= s.tokens + {w.token}
    ensures t.rows == Pass(c.contracts, s.rows, w, c.batchSize)
    ensures Logged(s.log, t.log, PassSends(c.contracts, s.rows, w, c.batchSize))
    ensures t.now <= LastInstant(w, Keep(c.contracts, Claims(s.rows, w, c.batchSize), true))
  {
    if Faulted(c.contracts, s.rows, w, c.batchSize).Some? {
      InvalidBeforeLast(w, Keep(c.contracts, Claims(s.rows, w, c.batchSize), true));
      steps, t := FaultyPath(c, s, r, w);
    } else {
      steps, t := CleanPath(c, s, r, w);
    }
  }

  // ----- recovery -----

  /** Passes one after the other, each able to run where the last one left off. */
  ghost predicate CanPassAll(c: P.Config, now: Time, tokens: set<Id>, rows: Table, worlds: seq<World>)
    decreases |worlds|
  {
    worlds != [] ==>
      var w := worlds[0];
      var fit := Keep(c.contracts, Claims(rows, w, c.batchSize), true);
      && Lawful(w) && w.token !in tokens && now <= w.quarantineAt <= w.claimAt <= w.invalidAt
      && Clocked(w, w.invalidAt, fit)
      && CanPassAll(c, LastInstant(w, fit), tokens + {w.token}, Pass(c.contracts, rows, w, c.batchSize), worlds[1..])
  }

  lemma {:induction false} PassesAreRun(c: P.Config, s: P.State, r: nat, worlds: seq<World>, now: Time, tokens: set<Id>)
    returns (steps: seq<P.Step>, t: P.State)
    requires P.Inv(c, s) && P.RelayAt(s, r).Idle? && s.now <= now && s.tokens <= tokens
    requires CanPassAll(c, now, tokens, s.rows, worlds)
    ensures Leads(c, s, steps, t) && t.rows == AfterPasses(c.contracts, s.rows, worlds, c.batchSize)
    decreases |worlds|
  {
    if worlds == [] {
      steps, t := [], s;
    } else {
      var w := worlds[0];
      var fit := Keep(c.contracts, Claims(s.rows, w, c.batchSize), true);
      steps, t := PassIsRun(c, s, r, w);
      LeadsKeeps(c, s, steps, t);
      var more, end := PassesAreRun(c, t, r, worlds[1..], LastInstant(w, fit), tokens + {w.token});
      LeadsJoin(c, s, steps, t, more, end);
      steps, t := steps + more, end;
    }
  }

  /**
   * Whatever crashes came before: once no lease is running, a lone relay settles every
   * row of the table within the measure, whatever follows each of its claims.
   */
  lemma LoneRelaySettlesEveryRow(c: P.Config, states: seq<P.State>, steps: seq<P.Step>, n: nat, worlds: seq<World>)
    requires P.IsRun(c, states, steps) && n < |states| && c.batchSize > 0
    requires Succession(worlds) && |worlds| >= Measure(states[n].rows)
    requires worlds != [] ==> Ready(states[n].rows, worlds[0])
    ensures !AnyUnsettled(AfterPasses(c.contracts, states[n].rows, worlds, c.batchSize))
  {
    P.RunKeeps(c, states, steps, n);
    forall id | id in states[n].rows ensures states[n].rows[id].attempts <= MAX_RELAY_ATTEMPTS {
      assert P.RowOk(c, states[n], id, states[n].rows[id]);
    }
    EveryRowSettles(c.contracts, states[n].rows, worlds, c.batchSize);
  }

  /** And those passes are themselves a continuation of the run, so it ends with every row settled. */
  lemma RecoveryIsARun(c: P.Config, states: seq<P.State>, steps: seq<P.Step>, r: nat, worlds: seq<World>)
    returns (longer: seq<P.State>, more: seq<P.Step>)
    requires P.IsRun(c, states, steps) && c.batchSize > 0 && P.RelayAt(states[|steps|], r).Idle?
    requires var s := states[|steps|];
             && Succession(worlds) && |worlds| >= Measure(s.rows) && (worlds != [] ==> Ready(s.rows, worlds[0]))
             && CanPassAll(c, s.now, s.tokens, s.rows, worlds)
    ensures P.IsRun(c, longer, steps + more) && !AnyUnsettled(longer[|steps + more|].rows)
  {
    var s, t := states[|steps|], states[|steps|];
    P.RunKeeps(c, states, steps, |steps|);
    more, t := PassesAreRun(c, s, r, worlds, s.now, s.tokens);
    longer := LeadsExtendsRun(c, states, steps, more, t);
    LoneRelaySettlesEveryRow(c, states, steps, |steps|, worlds);
  }

  // ----- such passes exist -----

  ghost function ListOf(rows: set<Snapshot>): seq<Snapshot>
    decreases |rows|
  {
    if rows == {} then [] else
      var row :| row in rows;
      [row] + ListOf(rows - {row})
  }

  lemma {:induction false} ListOfLists(rows: set<Snapshot>)
    ensures |ListOf(rows)| == |rows| && forall row :: row in ListOf(rows) <==> row in rows
    decreases |rows|
  {
    if rows != {} {
      var row :| row in rows && ListOf(rows) == [row] + ListOf(rows - {row});
      ListOfLists(rows - {row});
      assert forall other :: other in rows <==> other == row || other in rows - {row};
    }
  }

  /** A pass at one instant in which nothing fails. */
  ghost function CleanWorld(token: Id, at: Time): World {
    World(token, rows => ListOf(rows), NoFault, "", at, at, at, "", _ => at, _ => None, _ => "", _ => Acked, _ => "",
          _ => Acked, _ => "")
  }

  lemma CleanIsLawful(token: Id, at: Time)
    ensures Lawful(CleanWorld(token, at))
  {
    var w := CleanWorld(token, at);
    forall rows ensures |w.order(rows)| == |rows| && forall row :: row in w.order(rows) <==> row in rows {
      ListOfLists(rows);
    }
  }

  ghost function CleanWorlds(token: Id, at: Time, n: nat): seq<World>
    decreases n
  {
    if n == 0 then [] else [CleanWorld(token, at)] + CleanWorlds(token + 1, at, n - 1)
  }

  lemma {:induction false} CleanAt(token: Id, at: Time, n: nat, i: nat)
    requires i < n
    ensures |CleanWorlds(token, at, n)| == n && CleanWorlds(token, at, n)[i] == CleanWorld(token + i, at)
    decreases n
  {
    if i > 0 {
      CleanAt(token + 1, at, n - 1, i - 1);
    } else if n > 1 {
      CleanAt(token + 1, at, n - 1, 0);
    }
  }

  lemma CleanSucceed(token: Id, at: Time, n: nat)
    ensures Succession(CleanWorlds(token, at, n)) && |CleanWorlds(token, at, n)| == n
  {
    var worlds := CleanWorlds(token, at, n);
    if n > 0 {
      CleanAt(token, at, n, 0);
    }
    forall i | 0 <= i < n ensures Lawful(worlds[i]) && ClaimsTake(worlds[i]) {
      CleanAt(token, at, n, i);
      CleanIsLawful(token + i, at);
    }
    forall i, j | 0 <= i < n && j == i + 1 < n ensures Resumes(worlds[i], worlds[j]) {
      CleanAt(token, at, n, i);
      CleanAt(token, at, n, j);
    }
  }

  lemma CleanIsClocked(w: World, at: Time, fit: seq<Snapshot>)
    requires w.invalidAt == at && forall id :: w.settleAt(id) == at
    ensures Clocked(w, at, fit) && LastInstant(w, fit) == at
  {
  }

  lemma CleanHead(c: P.Config, now: Time, tokens: set<Id>, rows: Table, w: World, at: Time, left: Table,
                  rest: seq<World>)
    requires Lawful(w) && w.token !in tokens && now <= at
    requires w.quarantineAt == w.claimAt == w.invalidAt == at && forall id :: w.settleAt(id) == at
    requires left == Pass(c.contracts, rows, w, c.batchSize) && CanPassAll(c, at, tokens + {w.token}, left, rest)
    ensures CanPassAll(c, now, tokens, rows, [w] + rest)
  {
    var worlds := [w] + rest;
    assert worlds[0] == w && worlds[1..] == rest;
    CleanIsClocked(w, at, Keep(c.contracts, Claims(rows, w, c.batchSize), true));
  }

  lemma {:induction false} CleanCanPass(c: P.Config, now: Time, tokens: set<Id>, rows: Table, token: Id, at: Time,
                                        n: nat)
    requires now <= at && forall used :: used in tokens ==> used < token
    ensures CanPassAll(c, now, tokens, rows, CleanWorlds(token, at, n))
    decreases n
  {
    if n > 0 {
      var w := CleanWorld(token, at);
      var left := Pass(c.contracts, rows, w, c.batchSize);
      CleanIsLawful(token, at);
      CleanCanPass(c, at, tokens + {token}, left, token + 1, at, n - 1);
      CleanHead(c, now, tokens, rows, w, at, left, CleanWorlds(token + 1, at, n - 1));
    }
  }

  lemma {:induction false} LeasesEnd(rows: Table, ids: set<Id>) returns (at: Time)
    requires ids <= rows.Keys
    ensures forall id :: id in ids ==> LeaseFree(rows[id], at)
    decreases |ids|
  {
    if ids == {} {
      at := 0;
    } else {
      var id :| id in ids;
      at := LeasesEnd(rows, ids - {id});
      var end := if rows[id].claimedAt.Some? then rows[id].claimedAt.value + CLAIM_LEASE + 1 else at;
      forall other | other in ids ensures LeaseFree(rows[other], if at <= end then end else at) {
        assert other == id || other in ids - {id};
      }
      at := if at <= end then end else at;
    }
  }

  /** From every point of every run, whatever was lost or stopped before, the run can go on to settle every row. */
  lemma EveryRunCanSettle(c: P.Config, states: seq<P.State>, steps: seq<P.Step>)
    returns (longer: seq<P.State>, more: seq<P.Step>)
    requires P.IsRun(c, states, steps) && c.batchSize > 0
    ensures P.IsRun(c, longer, steps + more) && !AnyUnsettled(longer[|steps + more|].rows)
  {
    var s := states[|steps|];
    var r := SomeBound(s.relays.Keys);
    var token := SomeBound(s.tokens);
    var at := LeasesEnd(s.rows, s.rows.Keys);
    at := if at <= s.now then s.now else at;
    var n := Measure(s.rows);
    var worlds := CleanWorlds(token, at, n);
    CleanSucceed(token, at, n);
    CleanCanPass(c, s.now, s.tokens, s.rows, token, at, n);
    if n > 0 {
      CleanAt(token, at, n, 0);
    }
    longer, more := RecoveryIsARun(c, states, steps, r, worlds);
  }
}
