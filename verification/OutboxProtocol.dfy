/**
 * Any number of relays draining one outbox concurrently. Every SQL statement and
 * every queue send is one step; a relay may stop between any two of them.
 */
module OutboxProtocol {
  import opened Common
  import opened OutboxTable

  const DEDUP_WINDOW: Time := 600 * 1000
  const AUDIT_QUEUE := "audit-log.record-event"

  datatype Config = Config(contracts: Contracts, batchSize: nat, retention: Time)

  // ----- state -----

  datatype Stage =
    | Between                              // no row in hand
    | Sending(row: Snapshot, sent: nat)    // dispatch has reached its first `sent` subscribers
    | Failing(row: Snapshot)               // dispatch or the stamp threw; the release follows

  datatype Relay =
    | Idle
    | Swept                                // exhausted rows quarantined, nothing claimed yet
    | Working(token: Id, invalid: set<Id>, todo: seq<Snapshot>, stage: Stage)

  datatype Job = Job(queue: string, id: Id, content: Content, at: Time)

  datatype AuditRow = AuditRow(id: Id, occurredAt: Time, action: string)

  /** History of one event, kept after its row is pruned. */
  datatype Trail = Trail(content: Content, claims: set<Id>, dispatches: set<Id>)

  datatype State = State(
    now: Time,
    rows: Table,
    relays: map<nat, Relay>,
    log: seq<Job>,                         // every job ever enqueued
    dedup: map<(string, Id), Time>,        // last enqueue per deduplication key
    audit: seq<AuditRow>,
    tokens: set<Id>,                       // claim tokens already used
    trail: map<Id, Trail>)

  datatype Step =
    | Tick(to: Time)
    | Insert(id: Id, content: Content)
    | Sweep(r: nat)
    | Claim(r: nat, token: Id, order: seq<Id>)
    | QuarantineInvalid(r: nat, error: string)
    | Begin(r: nat)
    | Send(r: nat, outcome: Outcome)
    | Stamp(r: nat, outcome: Outcome)
    | Release(r: nat, error: string)
    | Finish(r: nat)
    | Stop(r: nat)
    | Prune(ids: set<Id>)
    | Deliver(i: nat)
    | PruneAudit(keep: seq<AuditRow>)

  function RelayAt(s: State, r: nat): Relay {
    if r in s.relays then s.relays[r] else Idle
  }

  function Subscribers(c: Config, content: Content): seq<string> {
    SubscribersOf(c.contracts, content)
  }

  ghost predicate Distinct<T(!new)>(s: seq<T>) {
    forall i, j :: 0 <= i < j < |s| ==> s[i] != s[j]
  }

  // ----- steps -----

  ghost predicate Enabled(c: Config, s: State, step: Step) {
    match step
    case Tick(to) => s.now <= to
    case Insert(id, content) => id in s.rows || id !in s.trail
    case Sweep(r) => RelayAt(s, r).Idle?
    case Claim(r, token, order) =>
      && RelayAt(s, r).Swept? && token !in s.tokens
      && |order| <= c.batchSize && Distinct(order)
      && forall i :: 0 <= i < |order| ==> order[i] in s.rows && Claimable(s.rows[order[i]], s.now)
    case QuarantineInvalid(r, error) => RelayAt(s, r).Working? && s.relays[r].stage.Between?
    case Begin(r) =>
      && RelayAt(s, r).Working? && s.relays[r].stage.Between?
      && s.relays[r].invalid == {} && s.relays[r].todo != []
    case Send(r, outcome) =>
      && RelayAt(s, r).Working? && s.relays[r].stage.Sending?
      && s.relays[r].stage.sent < |Subscribers(c, s.relays[r].stage.row.content)|
    case Stamp(r, outcome) =>
      && RelayAt(s, r).Working? && s.relays[r].stage.Sending?
      && s.relays[r].stage.sent >= |Subscribers(c, s.relays[r].stage.row.content)|
    case Release(r, error) => RelayAt(s, r).Working? && s.relays[r].stage.Failing?
    case Finish(r) =>
      && RelayAt(s, r).Working? && s.relays[r].stage.Between?
      && s.relays[r].invalid == {} && s.relays[r].todo == []
    case Stop(r) => true
    case Prune(ids) => forall id :: id in ids ==> id in s.rows && Prunable(s.rows[id], s.now, c.retention)
    case Deliver(i) => i < |s.log| && s.log[i].queue == AUDIT_QUEUE
    case PruneAudit(keep) => Distinct(keep) && forall i :: 0 <= i < |keep| ==> keep[i] in s.audit
  }

  function WithRelay(s: State, r: nat, relay: Relay): State {
    s.(relays := s.relays[r := relay])
  }

  function InWindow(s: State, key: (string, Id)): bool {
    key in s.dedup && s.now < s.dedup[key] + DEDUP_WINDOW
  }

  /** A send either adds a job or is absorbed by one with the same key. */
  function Enqueue(s: State, queue: string, row: Snapshot): State {
    if InWindow(s, (queue, row.id)) then s
    else s.(log := s.log + [Job(queue, row.id, row.content, s.now)], dedup := s.dedup[(queue, row.id) := s.now])
  }

  /** INSERT ... ON CONFLICT DO NOTHING on the primary key. */
  function RecordIfAbsent(audit: seq<AuditRow>, entry: AuditRow): seq<AuditRow> {
    if exists i :: 0 <= i < |audit| && audit[i].id == entry.id then audit else audit + [entry]
  }

  function AuditOf(job: Job): AuditRow {
    AuditRow(job.id, job.content.occurredAt, job.content.name)
  }

  function ClaimTrail(trail: map<Id, Trail>, order: seq<Id>, token: Id): map<Id, Trail> {
    map id | id in trail ::
      if id in order then trail[id].(claims := trail[id].claims + {token}) else trail[id]
  }

  function DispatchTrail(trail: map<Id, Trail>, id: Id, token: Id): map<Id, Trail> {
    if id in trail then trail[id := trail[id].(dispatches := trail[id].dispatches + {token})] else trail
  }

  ghost function Apply(c: Config, s: State, step: Step): State
    requires Enabled(c, s, step)
  {
    match step
    case Tick(to) => s.(now := to)
    case Insert(id, content) =>
      if id in s.rows then s
      else s.(rows := s.rows[id := Fresh(content)], trail := s.trail[id := Trail(content, {}, {})])
    case Sweep(r) => WithRelay(s, r, Swept).(rows := QuarantineExhausted(s.rows, s.now))
    case Claim(r, token, order) =>
      var relay :=
        if order == [] then Idle
        else
          var rows := Returning(s.rows, order);
          Working(token, IdsOf(Keep(c.contracts, rows, false)), Keep(c.contracts, rows, true), Between);
      WithRelay(s, r, relay).(
        rows := ClaimRows(s.rows, (set id | id in order), token, s.now),
        tokens := s.tokens + {token},
        trail := ClaimTrail(s.trail, order, token))
    case QuarantineInvalid(r, error) =>
      var w := s.relays[r];
      WithRelay(s, r, w.(invalid := {})).(
        rows := QuarantineRows(s.rows, w.invalid, w.token, s.now, error))
    case Begin(r) =>
      var w := s.relays[r];
      WithRelay(s, r, w.(todo := w.todo[1..], stage := Sending(w.todo[0], 0))).(
        trail := DispatchTrail(s.trail, w.todo[0].id, w.token))
    case Send(r, outcome) =>
      var w := s.relays[r];
      var row := w.stage.row;
      var after := if outcome.Lost? then s else Enqueue(s, Subscribers(c, row.content)[w.stage.sent], row);
      WithRelay(after, r, w.(stage := if outcome.Acked? then Sending(row, w.stage.sent + 1) else Failing(row)))
    case Stamp(r, outcome) =>
      var w := s.relays[r];
      var row := w.stage.row;
      WithRelay(s, r, w.(stage := if outcome.Acked? then Between else Failing(row))).(
        rows := if outcome.Lost? then s.rows else MarkDrained(s.rows, row.id, w.token, s.now))
    case Release(r, error) =>
      var w := s.relays[r];
      WithRelay(s, r, w.(stage := Between)).(
        rows := ReleaseClaim(s.rows, w.stage.row.id, w.token, error))
    case Finish(r) => WithRelay(s, r, Idle)
    case Stop(r) => WithRelay(s, r, Idle)
    case Prune(ids) => s.(rows := s.rows - ids)
    case Deliver(i) => s.(audit := RecordIfAbsent(s.audit, AuditOf(s.log[i])))
    case PruneAudit(keep) => s.(audit := keep)
  }

  ghost predicate Init(s: State) {
    s.rows == map[] && s.relays == map[] && s.log == [] && s.dedup == map[] && s.audit == []
    && s.tokens == {} && s.trail == map[]
  }

  ghost predicate IsRun(c: Config, states: seq<State>, steps: seq<Step>) {
    && |states| == |steps| + 1
    && Init(states[0])
    && forall i :: 0 <= i < |steps| ==>
          Enabled(c, states[i], steps[i]) && states[i + 1] == Apply(c, states[i], steps[i])
  }

  // ----- invariant -----

  ghost predicate Enqueued(log: seq<Job>, queue: string, id: Id) {
    exists i :: 0 <= i < |log| && log[i].queue == queue && log[i].id == id
  }

  /** The first n subscribers of an event have had a job for it. */
  ghost predicate Reached(c: Config, log: seq<Job>, id: Id, content: Content, n: nat) {
    forall k :: 0 <= k < n && k < |Subscribers(c, content)| ==> Enqueued(log, Subscribers(c, content)[k], id)
  }

  ghost predicate RowOk(c: Config, s: State, id: Id, row: Row) {
    && id in s.trail && s.trail[id].content == row.content
    && !(row.drainedAt.Some? && row.deadLetteredAt.Some?)
    && (row.claimToken.Some? <==> row.claimedAt.Some?)
    && (row.claimToken.Some? ==> !Settled(row) && row.claimToken.value in s.trail[id].claims)
    && row.attempts == |s.trail[id].claims| && row.attempts <= MAX_RELAY_ATTEMPTS
    && (row.drainedAt.Some? ==>
          Publishable(c.contracts, id, row.content)
          && Reached(c, s.log, id, row.content, |Subscribers(c, row.content)|))
  }

  ghost predicate RowsOk(c: Config, s: State) {
    forall id :: id in s.rows ==> RowOk(c, s, id, s.rows[id])
  }

  ghost predicate TrailOk(s: State) {
    forall id :: id in s.trail ==>
      s.trail[id].dispatches <= s.trail[id].claims && s.trail[id].claims <= s.tokens
      && |s.trail[id].claims| <= MAX_RELAY_ATTEMPTS
  }

  /** A snapshot is the event as inserted, claimed by this token, and fit to publish. */
  ghost predicate SnapshotOk(c: Config, s: State, token: Id, row: Snapshot) {
    && row.id in s.trail && s.trail[row.id].content == row.content
    && token in s.trail[row.id].claims
    && Publishable(c.contracts, row.id, row.content)
  }

  ghost predicate TodoOk(c: Config, s: State, token: Id, todo: seq<Snapshot>) {
    && (forall i :: 0 <= i < |todo| ==>
          SnapshotOk(c, s, token, todo[i]) && token !in s.trail[todo[i].id].dispatches)
    && DistinctIds(todo)
  }

  ghost predicate StageOk(c: Config, s: State, token: Id, stage: Stage) {
    match stage
    case Between => true
    case Sending(row, sent) => SnapshotOk(c, s, token, row) && Reached(c, s.log, row.id, row.content, sent)
    case Failing(row) => SnapshotOk(c, s, token, row)
  }

  ghost predicate RelayOk(c: Config, s: State, relay: Relay) {
    relay.Working? ==>
      && relay.token in s.tokens
      && TodoOk(c, s, relay.token, relay.todo)
      && StageOk(c, s, relay.token, relay.stage)
  }

  ghost predicate RelaysOk(c: Config, s: State) {
    && (forall r :: r in s.relays ==> RelayOk(c, s, s.relays[r]))
    && (forall r, q :: r in s.relays && q in s.relays && r != q && s.relays[r].Working? && s.relays[q].Working?
                       ==> s.relays[r].token != s.relays[q].token)
  }

  ghost predicate JobOk(c: Config, s: State, job: Job) {
    && job.id in s.trail && s.trail[job.id].content == job.content
    && Publishable(c.contracts, job.id, job.content)
    && job.queue in Subscribers(c, job.content)
    && (job.queue, job.id) in s.dedup && job.at <= s.dedup[(job.queue, job.id)]
  }

  /** Jobs with one deduplication key are at least a window apart. */
  ghost predicate Spaced(log: seq<Job>) {
    forall i, j :: 0 <= i < j < |log| && log[i].queue == log[j].queue && log[i].id == log[j].id
                   ==> log[i].at + DEDUP_WINDOW <= log[j].at
  }

  ghost predicate QueueOk(c: Config, s: State) {
    && (forall i :: 0 <= i < |s.log| ==> JobOk(c, s, s.log[i]))
    && (forall key :: key in s.dedup ==> Enqueued(s.log, key.0, key.1))
    && Spaced(s.log)
  }

  ghost predicate AuditOk(s: State) {
    && (forall i, j :: 0 <= i < j < |s.audit| ==> s.audit[i].id != s.audit[j].id)
    && (forall i :: 0 <= i < |s.audit| ==>
          s.audit[i].id in s.trail
          && s.audit[i].occurredAt == s.trail[s.audit[i].id].content.occurredAt
          && s.audit[i].action == s.trail[s.audit[i].id].content.name)
  }

  ghost predicate Inv(c: Config, s: State) {
    RowsOk(c, s) && TrailOk(s) && RelaysOk(c, s) && QueueOk(c, s) && AuditOk(s)
  }

  // ----- framing -----

  /** History only grows. */
  ghost predicate Grows(s: State, t: State) {
    && s.tokens <= t.tokens
    && s.log <= t.log
    && forall id :: id in s.trail ==>
         id in t.trail && t.trail[id].content == s.trail[id].content && s.trail[id].claims <= t.trail[id].claims
  }

  lemma ReachedGrows(c: Config, log: seq<Job>, log': seq<Job>, id: Id, content: Content, n: nat)
    requires log <= log' && Reached(c, log, id, content, n)
    ensures Reached(c, log', id, content, n)
  {
    forall k | 0 <= k < n && k < |Subscribers(c, content)|
      ensures Enqueued(log', Subscribers(c, content)[k], id)
    {
      var i :| 0 <= i < |log| && log[i].queue == Subscribers(c, content)[k] && log[i].id == id;
      assert log'[i] == log[i];
    }
  }

  lemma RelayFrame(c: Config, s: State, t: State, relay: Relay)
    requires RelayOk(c, s, relay) && Grows(s, t)
    requires relay.Working? ==> forall id :: id in s.trail && relay.token in t.trail[id].dispatches
                                             ==> relay.token in s.trail[id].dispatches
    ensures RelayOk(c, t, relay)
  {
    if relay.Working? && relay.stage.Sending? {
      ReachedGrows(c, s.log, t.log, relay.stage.row.id, relay.stage.row.content, relay.stage.sent);
    }
  }

  /** Steps of other relays, and steps that leave dispatches alone, keep every relay's facts. */
  lemma RelaysFrame(c: Config, s: State, t: State)
    requires RelaysOk(c, s) && Grows(s, t) && t.relays == s.relays
    requires forall id :: id in s.trail ==> t.trail[id].dispatches == s.trail[id].dispatches
    ensures RelaysOk(c, t)
  {
    forall r | r in s.relays ensures RelayOk(c, t, t.relays[r]) {
      RelayFrame(c, s, t, s.relays[r]);
    }
  }

  /** A relay that moves to a sound state without taking another's token keeps all relays sound. */
  lemma RelayMove(c: Config, s: State, t: State, r: nat, relay: Relay)
    requires RelaysOk(c, s) && Grows(s, t) && t.relays == s.relays[r := relay]
    requires forall id :: id in s.trail ==> t.trail[id].dispatches == s.trail[id].dispatches
    requires RelayOk(c, t, relay)
    requires relay.Working? ==>
               relay.token !in s.tokens || (RelayAt(s, r).Working? && s.relays[r].token == relay.token)
    ensures RelaysOk(c, t)
  {
    forall q | q in t.relays ensures RelayOk(c, t, t.relays[q]) {
      if q != r {
        RelayFrame(c, s, t, s.relays[q]);
      }
    }
  }

  lemma RowFrame(c: Config, s: State, t: State, id: Id, row: Row)
    requires RowOk(c, s, id, row) && Grows(s, t)
    requires s.trail[id].claims == t.trail[id].claims
    ensures RowOk(c, t, id, row)
  {
    if row.drainedAt.Some? {
      ReachedGrows(c, s.log, t.log, id, row.content, |Subscribers(c, row.content)|);
    }
  }

  // ----- every step keeps the invariant -----

  /** A claim under a fresh token adds exactly one claim to each row it takes. */
  lemma ClaimRowKeeps(c: Config, s: State, step: Step, id: Id)
    requires step.Claim? && Enabled(c, s, step) && Inv(c, s)
    requires id in step.order
    ensures var t := Apply(c, s, step);
            id in t.rows && RowOk(c, t, id, t.rows[id]) && |t.trail[id].claims| <= MAX_RELAY_ATTEMPTS
  {
    assert RowOk(c, s, id, s.rows[id]) && Claimable(s.rows[id], s.now);
    assert step.token !in s.trail[id].claims;
    assert Apply(c, s, step).trail[id].claims == s.trail[id].claims + {step.token};
  }

  lemma ClaimRelayKeeps(c: Config, s: State, step: Step)
    requires step.Claim? && Enabled(c, s, step) && Inv(c, s)
    ensures RelaysOk(c, Apply(c, s, step))
  {
    var t := Apply(c, s, step);
    var relay := t.relays[step.r];
    if relay.Working? {
      var rows := Returning(s.rows, step.order);
      KeepMembers(c.contracts, rows, true);
      KeepDistinct(c.contracts, rows, true);
      forall i | 0 <= i < |relay.todo|
        ensures SnapshotOk(c, t, step.token, relay.todo[i]) && step.token !in t.trail[relay.todo[i].id].dispatches
      {
        assert relay.todo[i] in rows;
        assert RowOk(c, s, relay.todo[i].id, s.rows[relay.todo[i].id]);
      }
    }
    RelayMove(c, s, t, step.r, relay);
  }

  lemma ClaimKeeps(c: Config, s: State, step: Step)
    requires step.Claim? && Enabled(c, s, step) && Inv(c, s)
    ensures Inv(c, Apply(c, s, step))
  {
    var t := Apply(c, s, step);
    forall id | id in t.rows ensures RowOk(c, t, id, t.rows[id]) {
      if id in step.order {
        ClaimRowKeeps(c, s, step, id);
      } else {
        RowFrame(c, s, t, id, s.rows[id]);
      }
    }
    forall id | id in t.trail ensures |t.trail[id].claims| <= MAX_RELAY_ATTEMPTS {
      if id in step.order {
        ClaimRowKeeps(c, s, step, id);
      }
    }
    assert TrailOk(t);
    ClaimRelayKeeps(c, s, step);
    QueueFrame(c, s, t);
  }

  /** A statement that only settles or releases rows, or leaves them, keeps the rows sound. */
  ghost predicate RowMove(row: Row, row': Row) {
    || row' == row
    || (!Settled(row) && exists now, error :: row' == DeadLettered(row, now, error))
    || (!Settled(row) && exists error :: row' == Released(row, error))
  }

  lemma RowsMove(c: Config, s: State, t: State)
    requires RowsOk(c, s) && Grows(s, t)
    requires forall id :: id in t.rows ==> id in s.rows && RowMove(s.rows[id], t.rows[id])
    requires forall id :: id in s.trail ==> t.trail[id].claims == s.trail[id].claims
    ensures RowsOk(c, t)
  {
    forall id | id in t.rows ensures RowOk(c, t, id, t.rows[id]) {
      assert RowOk(c, s, id, s.rows[id]);
      RowFrame(c, s, t, id, s.rows[id]);
    }
  }

  lemma QueueFrame(c: Config, s: State, t: State)
    requires QueueOk(c, s) && AuditOk(s) && Grows(s, t) && t.log == s.log && t.dedup == s.dedup && t.audit == s.audit
    ensures QueueOk(c, t) && AuditOk(t)
  {
  }

  lemma SweepKeeps(c: Config, s: State, step: Step)
    requires step.Sweep? && Enabled(c, s, step) && Inv(c, s)
    ensures Inv(c, Apply(c, s, step))
  {
    var t := Apply(c, s, step);
    RowsMove(c, s, t);
    RelayMove(c, s, t, step.r, Swept);
    QueueFrame(c, s, t);
  }

  lemma QuarantineInvalidKeeps(c: Config, s: State, step: Step)
    requires step.QuarantineInvalid? && Enabled(c, s, step) && Inv(c, s)
    ensures Inv(c, Apply(c, s, step))
  {
    var t := Apply(c, s, step);
    forall id | id in t.rows ensures RowMove(s.rows[id], t.rows[id]) {
      assert RowOk(c, s, id, s.rows[id]);
    }
    RowsMove(c, s, t);
    RelayFrame(c, s, t, s.relays[step.r]);
    RelayMove(c, s, t, step.r, t.relays[step.r]);
    QueueFrame(c, s, t);
  }

  lemma ReleaseKeeps(c: Config, s: State, step: Step)
    requires step.Release? && Enabled(c, s, step) && Inv(c, s)
    ensures Inv(c, Apply(c, s, step))
  {
    var t := Apply(c, s, step);
    forall id | id in t.rows ensures RowMove(s.rows[id], t.rows[id]) {
      assert RowOk(c, s, id, s.rows[id]);
    }
    RowsMove(c, s, t);
    RelayFrame(c, s, t, s.relays[step.r]);
    RelayMove(c, s, t, step.r, t.relays[step.r]);
    QueueFrame(c, s, t);
  }

  lemma BeginKeeps(c: Config, s: State, step: Step)
    requires step.Begin? && Enabled(c, s, step) && Inv(c, s)
    ensures Inv(c, Apply(c, s, step))
  {
    var t := Apply(c, s, step);
    var w := s.relays[step.r];
    var head := w.todo[0];
    assert SnapshotOk(c, s, w.token, head);
    assert Grows(s, t);
    RowsMove(c, s, t);
    QueueFrame(c, s, t);
    forall q | q in t.relays ensures RelayOk(c, t, t.relays[q]) {
      if q != step.r {
        RelayFrame(c, s, t, s.relays[q]);
      }
    }
  }

  lemma StampKeeps(c: Config, s: State, step: Step)
    requires step.Stamp? && Enabled(c, s, step) && Inv(c, s)
    ensures Inv(c, Apply(c, s, step))
  {
    var t := Apply(c, s, step);
    var w := s.relays[step.r];
    var row := w.stage.row;
    assert StageOk(c, s, w.token, w.stage);
    forall id | id in t.rows ensures RowOk(c, t, id, t.rows[id]) {
      assert RowOk(c, s, id, s.rows[id]);
      RowFrame(c, s, t, id, s.rows[id]);
      if t.rows[id] != s.rows[id] {
        assert id == row.id && Reached(c, s.log, id, row.content, |Subscribers(c, row.content)|);
      }
    }
    RelayFrame(c, s, t, w);
    RelayMove(c, s, t, step.r, t.relays[step.r]);
    QueueFrame(c, s, t);
  }

  lemma EnqueuedSnoc(log: seq<Job>, job: Job, queue: string, id: Id)
    ensures Enqueued(log + [job], queue, id) <==> Enqueued(log, queue, id) || (job.queue == queue && job.id == id)
  {
    var log' := log + [job];
    assert log'[|log|] == job;
    if Enqueued(log, queue, id) {
      var i :| 0 <= i < |log| && log[i].queue == queue && log[i].id == id;
      assert log'[i] == log[i];
    }
  }

  lemma SpacedSnoc(log: seq<Job>, job: Job)
    requires Spaced(log)
    requires forall i :: 0 <= i < |log| && log[i].queue == job.queue && log[i].id == job.id
                         ==> log[i].at + DEDUP_WINDOW <= job.at
    ensures Spaced(log + [job])
  {
  }

  lemma EnqueueKeeps(c: Config, s: State, queue: string, row: Snapshot)
    requires QueueOk(c, s)
    requires row.id in s.trail && s.trail[row.id].content == row.content
    requires Publishable(c.contracts, row.id, row.content) && queue in Subscribers(c, row.content)
    ensures QueueOk(c, Enqueue(s, queue, row))
    ensures s.log <= Enqueue(s, queue, row).log
    ensures Enqueued(Enqueue(s, queue, row).log, queue, row.id)
  {
    if !InWindow(s, (queue, row.id)) {
      var t := Enqueue(s, queue, row);
      var job := Job(queue, row.id, row.content, s.now);
      assert forall i :: 0 <= i < |s.log| ==> JobOk(c, s, s.log[i]);
      SpacedSnoc(s.log, job);
      forall i | 0 <= i < |t.log| ensures JobOk(c, t, t.log[i]) {
        if i < |s.log| {
          assert t.log[i] == s.log[i] && JobOk(c, s, s.log[i]);
        }
      }
      EnqueuedSnoc(s.log, job, queue, row.id);
      forall key | key in t.dedup ensures Enqueued(t.log, key.0, key.1) {
        EnqueuedSnoc(s.log, job, key.0, key.1);
      }
    }
  }

  /** Enqueuing changes nothing but the queue, and keeps every fact about rows and relays. */
  lemma EnqueueKeepsAll(c: Config, s: State, queue: string, row: Snapshot)
    requires Inv(c, s)
    requires row.id in s.trail && s.trail[row.id].content == row.content
    requires Publishable(c.contracts, row.id, row.content) && queue in Subscribers(c, row.content)
    ensures Inv(c, Enqueue(s, queue, row)) && Enqueued(Enqueue(s, queue, row).log, queue, row.id)
    ensures Grows(s, Enqueue(s, queue, row))
  {
    var t := Enqueue(s, queue, row);
    EnqueueKeeps(c, s, queue, row);
    RowsMove(c, s, t);
    RelaysFrame(c, s, t);
  }

  /** A relay that takes up a sound stage keeps the invariant. */
  lemma StageMove(c: Config, s: State, r: nat, stage: Stage)
    requires Inv(c, s) && RelayAt(s, r).Working? && StageOk(c, s, s.relays[r].token, stage)
    ensures Inv(c, WithRelay(s, r, s.relays[r].(stage := stage)))
  {
    var t := WithRelay(s, r, s.relays[r].(stage := stage));
    assert RelayOk(c, s, s.relays[r]);
    RelayMove(c, s, t, r, t.relays[r]);
    RowsMove(c, s, t);
    QueueFrame(c, s, t);
  }

  /** Reaching one more subscriber advances the dispatch by one. */
  lemma ReachedNext(c: Config, s: State, row: Snapshot, sent: nat)
    requires QueueOk(c, s) && sent < |Subscribers(c, row.content)| && Reached(c, s.log, row.id, row.content, sent)
    requires row.id in s.trail && s.trail[row.id].content == row.content
    requires Publishable(c.contracts, row.id, row.content)
    ensures Reached(c, Enqueue(s, Subscribers(c, row.content)[sent], row).log, row.id, row.content, sent + 1)
  {
    var queue := Subscribers(c, row.content)[sent];
    EnqueueKeeps(c, s, queue, row);
    ReachedGrows(c, s.log, Enqueue(s, queue, row).log, row.id, row.content, sent);
  }

  lemma SendLostKeeps(c: Config, s: State, step: Step)
    requires step.Send? && step.outcome.Lost? && Enabled(c, s, step) && Inv(c, s)
    ensures Inv(c, Apply(c, s, step))
  {
    var w := s.relays[step.r];
    assert RelayOk(c, s, w);
    StageMove(c, s, step.r, Failing(w.stage.row));
  }

  /** After a send that reached the queue, the dispatch has advanced or failed. */
  lemma SendReachedKeeps(c: Config, s: State, r: nat, row: Snapshot, sent: nat, stage: Stage)
    requires Inv(c, s) && RelayAt(s, r).Working? && s.relays[r].stage == Sending(row, sent)
    requires sent < |Subscribers(c, row.content)| && (stage == Sending(row, sent + 1) || stage == Failing(row))
    ensures var after := Enqueue(s, Subscribers(c, row.content)[sent], row);
            Inv(c, WithRelay(after, r, s.relays[r].(stage := stage)))
  {
    assert RelayOk(c, s, s.relays[r]);
    EnqueueKeepsAll(c, s, Subscribers(c, row.content)[sent], row);
    ReachedNext(c, s, row, sent);
    StageMove(c, Enqueue(s, Subscribers(c, row.content)[sent], row), r, stage);
  }

  lemma SendKeeps(c: Config, s: State, step: Step)
    requires step.Send? && Enabled(c, s, step) && Inv(c, s)
    ensures Inv(c, Apply(c, s, step))
  {
    if step.outcome.Lost? {
      SendLostKeeps(c, s, step);
    } else {
      var row, sent := s.relays[step.r].stage.row, s.relays[step.r].stage.sent;
      SendReachedKeeps(c, s, step.r, row, sent, if step.outcome.Acked? then Sending(row, sent + 1) else Failing(row));
    }
  }

  lemma DeliverKeeps(c: Config, s: State, step: Step)
    requires step.Deliver? && Enabled(c, s, step) && Inv(c, s)
    ensures Inv(c, Apply(c, s, step))
  {
    var t := Apply(c, s, step);
    assert JobOk(c, s, s.log[step.i]);
    RowsMove(c, s, t);
    RelaysFrame(c, s, t);
  }

  lemma PruneAuditKeeps(c: Config, s: State, step: Step)
    requires step.PruneAudit? && Enabled(c, s, step) && Inv(c, s)
    ensures Inv(c, Apply(c, s, step))
  {
    var t := Apply(c, s, step);
    RowsMove(c, s, t);
    RelaysFrame(c, s, t);
    forall i, j | 0 <= i < j < |t.audit| ensures t.audit[i].id != t.audit[j].id {
      assert t.audit[i] in s.audit && t.audit[j] in s.audit;
      var a :| 0 <= a < |s.audit| && s.audit[a] == t.audit[i];
      var b :| 0 <= b < |s.audit| && s.audit[b] == t.audit[j];
      assert a < b || b < a;
    }
  }

  lemma InsertKeeps(c: Config, s: State, step: Step)
    requires step.Insert? && Enabled(c, s, step) && Inv(c, s)
    ensures Inv(c, Apply(c, s, step))
  {
    var t := Apply(c, s, step);
    if step.id !in s.rows {
      forall id | id in t.rows ensures RowOk(c, t, id, t.rows[id]) {
        if id != step.id {
          RowFrame(c, s, t, id, s.rows[id]);
        }
      }
      RelaysFrame(c, s, t);
      QueueFrame(c, s, t);
    }
  }

  lemma QuietKeeps(c: Config, s: State, step: Step)
    requires step.Tick? || step.Finish? || step.Stop? || step.Prune?
    requires Enabled(c, s, step) && Inv(c, s)
    ensures Inv(c, Apply(c, s, step))
  {
    var t := Apply(c, s, step);
    RowsMove(c, s, t);
    QueueFrame(c, s, t);
    match step
    case Finish(r) => RelayMove(c, s, t, r, Idle);
    case Stop(r) => RelayMove(c, s, t, r, Idle);
    case _ => RelaysFrame(c, s, t);
  }

  lemma StepKeeps(c: Config, s: State, step: Step)
    requires Enabled(c, s, step) && Inv(c, s)
    ensures Inv(c, Apply(c, s, step))
  {
    match step
    case Insert(_, _) => InsertKeeps(c, s, step);
    case Sweep(_) => SweepKeeps(c, s, step);
    case Claim(_, _, _) => ClaimKeeps(c, s, step);
    case QuarantineInvalid(_, _) => QuarantineInvalidKeeps(c, s, step);
    case Begin(_) => BeginKeeps(c, s, step);
    case Send(_, _) => SendKeeps(c, s, step);
    case Stamp(_, _) => StampKeeps(c, s, step);
    case Release(_, _) => ReleaseKeeps(c, s, step);
    case Deliver(_) => DeliverKeeps(c, s, step);
    case PruneAudit(_) => PruneAuditKeeps(c, s, step);
    case _ => QuietKeeps(c, s, step);
  }

  lemma {:induction false} RunKeeps(c: Config, states: seq<State>, steps: seq<Step>, n: nat)
    requires IsRun(c, states, steps) && n < |states|
    ensures Inv(c, states[n])
  {
    if n > 0 {
      RunKeeps(c, states, steps, n - 1);
      StepKeeps(c, states[n - 1], steps[n - 1]);
    }
  }

  // ----- what holds of every run -----

  /** Drained and dead-lettered exclude each other, and only an unsettled row carries a claim. */
  lemma SettlementIsExclusive(c: Config, states: seq<State>, steps: seq<Step>, n: nat, id: Id)
    requires IsRun(c, states, steps) && n < |states| && id in states[n].rows
    ensures var row := states[n].rows[id];
            && !(row.drainedAt.Some? && row.deadLetteredAt.Some?)
            && (row.claimToken.Some? <==> row.claimedAt.Some?)
            && (row.claimToken.Some? ==> row.drainedAt.None? && row.deadLetteredAt.None?)
  {
    RunKeeps(c, states, steps, n);
    assert RowOk(c, states[n], id, states[n].rows[id]);
  }

  /** The row is still exactly this, or it is gone for good. */
  ghost predicate FrozenAt(s: State, id: Id, row: Row) {
    id in s.trail && (id in s.rows ==> s.rows[id] == row)
  }

  lemma FrozenStep(c: Config, s: State, step: Step, id: Id, row: Row)
    requires Inv(c, s) && Enabled(c, s, step) && Settled(row) && FrozenAt(s, id, row)
    ensures FrozenAt(Apply(c, s, step), id, row)
  {
    if id in s.rows {
      assert RowOk(c, s, id, s.rows[id]);
    }
  }

  /** A settled row stays exactly as it is for as long as it exists. */
  lemma {:induction false} SettledRowsAreFrozen(
    c: Config, states: seq<State>, steps: seq<Step>, m: nat, n: nat, id: Id)
    requires IsRun(c, states, steps) && m <= n < |states|
    requires id in states[m].rows && Settled(states[m].rows[id])
    ensures FrozenAt(states[n], id, states[m].rows[id])
  {
    if m == n {
      RunKeeps(c, states, steps, m);
      assert RowOk(c, states[m], id, states[m].rows[id]);
    } else {
      RunKeeps(c, states, steps, n - 1);
      SettledRowsAreFrozen(c, states, steps, m, n - 1, id);
      FrozenStep(c, states[n - 1], steps[n - 1], id, states[m].rows[id]);
    }
  }

  lemma SpentTokenStep(c: Config, s: State, step: Step, id: Id, token: Id)
    requires Enabled(c, s, step) && token in s.tokens && !Holds(s.rows, id, token)
    ensures token in Apply(c, s, step).tokens && !Holds(Apply(c, s, step).rows, id, token)
  {
  }

  lemma {:induction false} SpentTokenNeverReturns(
    c: Config, states: seq<State>, steps: seq<Step>, m: nat, n: nat, id: Id, token: Id)
    requires IsRun(c, states, steps) && m <= n < |states|
    requires token in states[m].tokens && !Holds(states[m].rows, id, token)
    ensures token in states[n].tokens && !Holds(states[n].rows, id, token)
  {
    if m < n {
      SpentTokenNeverReturns(c, states, steps, m, n - 1, id, token);
      SpentTokenStep(c, states[n - 1], steps[n - 1], id, token);
    }
  }

  /** The relay taking a step, if the step is a statement issued under a claim token. */
  ghost predicate IssuedUnder(s: State, step: Step, token: Id) {
    && (step.QuarantineInvalid? || step.Stamp? || step.Release?)
    && RelayAt(s, step.r).Working? && s.relays[step.r].token == token
  }

  /** Once a row has moved on from a claim, no statement issued under that claim alters it again. */
  lemma SupersededClaimsNeverWrite(
    c: Config, states: seq<State>, steps: seq<Step>, m: nat, n: nat, id: Id, token: Id)
    requires IsRun(c, states, steps) && m <= n < |steps|
    requires token in states[m].tokens && !Holds(states[m].rows, id, token)
    requires IssuedUnder(states[n], steps[n], token)
    ensures id in states[n + 1].rows <==> id in states[n].rows
    ensures id in states[n].rows ==> states[n + 1].rows[id] == states[n].rows[id]
  {
    SpentTokenNeverReturns(c, states, steps, m, n, id, token);
  }

  /** A drained row meets its contract and has had a job enqueued for every subscriber of its event. */
  lemma DrainedMeansDelivered(c: Config, states: seq<State>, steps: seq<Step>, n: nat, id: Id)
    requires IsRun(c, states, steps) && n < |states|
    requires id in states[n].rows && states[n].rows[id].drainedAt.Some?
    ensures var content := states[n].rows[id].content;
            && content.name in c.contracts.subscribers && c.contracts.parses(id, content)
            && forall queue :: queue in c.contracts.subscribers[content.name] ==>
                 exists i :: 0 <= i < |states[n].log| && states[n].log[i].queue == queue
                             && states[n].log[i].id == id && states[n].log[i].content == content
  {
    var s := states[n];
    RunKeeps(c, states, steps, n);
    var row := s.rows[id];
    assert RowOk(c, s, id, row);
    var subscribers := c.contracts.subscribers[row.content.name];
    forall queue | queue in subscribers
      ensures exists i :: 0 <= i < |s.log| && s.log[i].queue == queue && s.log[i].id == id
                          && s.log[i].content == row.content
    {
      var k :| 0 <= k < |subscribers| && subscribers[k] == queue;
      assert Enqueued(s.log, Subscribers(c, row.content)[k], id);
      var i :| 0 <= i < |s.log| && s.log[i].queue == queue && s.log[i].id == id;
      assert JobOk(c, s, s.log[i]);
    }
  }

  lemma MissingStep(c: Config, s: State, step: Step, id: Id)
    requires Enabled(c, s, step) && !Missing(s, id) && Missing(Apply(c, s, step), id)
    ensures step.Prune? && id in step.ids && id in s.rows && Outlived(s.rows[id], s.now, c.retention)
  {
  }

  /** Settled longer ago than the retention. */
  ghost predicate Outlived(row: Row, now: Time, retention: Time) {
    || (row.drainedAt.Some? && now > row.drainedAt.value + retention)
    || (row.deadLetteredAt.Some? && now > row.deadLetteredAt.value + retention)
  }

  /** The prune that removed a row settled longer ago than the retention. */
  ghost predicate PrunedAt(states: seq<State>, steps: seq<Step>, retention: Time, m: nat, id: Id)
    requires |states| == |steps| + 1
  {
    && m < |steps| && steps[m].Prune? && id in steps[m].ids
    && id in states[m].rows && Outlived(states[m].rows[id], states[m].now, retention)
  }

  ghost predicate Missing(s: State, id: Id) {
    id in s.trail && id !in s.rows
  }

  lemma {:induction false} MissingWasPruned(states: seq<State>, steps: seq<Step>, retention: Time, n: nat, id: Id)
    requires |states| == |steps| + 1 && n < |states| && !Missing(states[0], id) && Missing(states[n], id)
    requires forall i: nat :: i < |steps| && Missing(states[i + 1], id) ==>
               Missing(states[i], id) || PrunedAt(states, steps, retention, i, id)
    ensures exists m: nat :: m < n && PrunedAt(states, steps, retention, m, id)
  {
    var i: nat := n - 1;
    assert Missing(states[i + 1], id);
    if Missing(states[i], id) {
      MissingWasPruned(states, steps, retention, i, id);
    }
  }

  /** An inserted event keeps its row until a prune removes it, settled longer ago than the retention. */
  lemma NoEventIsLost(c: Config, states: seq<State>, steps: seq<Step>, n: nat, id: Id)
    requires IsRun(c, states, steps) && n < |states| && id in states[n].trail && id !in states[n].rows
    ensures exists m: nat :: m < n && PrunedAt(states, steps, c.retention, m, id)
  {
    forall i: nat | i < |steps| && Missing(states[i + 1], id) && !Missing(states[i], id)
      ensures PrunedAt(states, steps, c.retention, i, id)
    {
      MissingStep(c, states[i], steps[i], id);
    }
    MissingWasPruned(states, steps, c.retention, n, id);
  }

  /** No job ever carries an event that fails its contract, or goes to a queue that did not subscribe. */
  lemma OnlyPublishableEventsAreQueued(c: Config, states: seq<State>, steps: seq<Step>, n: nat, i: nat)
    requires IsRun(c, states, steps) && n < |states| && i < |states[n].log|
    ensures var job := states[n].log[i];
            && job.content.name in c.contracts.subscribers && c.contracts.parses(job.id, job.content)
            && job.queue in c.contracts.subscribers[job.content.name]
            && (job.id in states[n].rows ==> states[n].rows[job.id].content == job.content)
  {
    RunKeeps(c, states, steps, n);
    var job := states[n].log[i];
    assert JobOk(c, states[n], job);
    if job.id in states[n].rows {
      assert RowOk(c, states[n], job.id, states[n].rows[job.id]);
    }
  }

  /** The queue's deduplication, as it shows over all relays: jobs with one key are at least ten minutes apart. */
  lemma JobsAreSpaced(c: Config, states: seq<State>, steps: seq<Step>, n: nat, i: nat, j: nat)
    requires IsRun(c, states, steps) && n < |states| && i < j < |states[n].log|
    requires states[n].log[i].queue == states[n].log[j].queue && states[n].log[i].id == states[n].log[j].id
    ensures states[n].log[j].at >= states[n].log[i].at + 600_000
  {
    RunKeeps(c, states, steps, n);
    assert Spaced(states[n].log);
  }

  /** The claim statement took this row. */
  ghost predicate Takes(step: Step, id: Id) {
    step.Claim? && id in step.order
  }

  /** A relay starts dispatching this event. */
  ghost predicate Dispatches(s: State, step: Step, id: Id) {
    && step.Begin? && RelayAt(s, step.r).Working? && s.relays[step.r].todo != []
    && s.relays[step.r].todo[0].id == id
  }

  ghost function CountClaims(steps: seq<Step>, n: nat, id: Id): nat
    requires n <= |steps|
  {
    if n == 0 then 0 else CountClaims(steps, n - 1, id) + if Takes(steps[n - 1], id) then 1 else 0
  }

  ghost function CountDispatches(states: seq<State>, steps: seq<Step>, n: nat, id: Id): nat
    requires n <= |steps| && |states| == |steps| + 1
  {
    if n == 0 then 0
    else CountDispatches(states, steps, n - 1, id) + if Dispatches(states[n - 1], steps[n - 1], id) then 1 else 0
  }

  ghost function ClaimsOf(s: State, id: Id): set<Id> {
    if id in s.trail then s.trail[id].claims else {}
  }

  ghost function DispatchesOf(s: State, id: Id): set<Id> {
    if id in s.trail then s.trail[id].dispatches else {}
  }

  /** Only a claim adds to a trail's claims, and only the start of a dispatch to its dispatches. */
  lemma TrailsStand(c: Config, s: State, step: Step, id: Id)
    requires Inv(c, s) && Enabled(c, s, step)
    ensures !Takes(step, id) ==> ClaimsOf(Apply(c, s, step), id) == ClaimsOf(s, id)
    ensures !Dispatches(s, step, id) ==> DispatchesOf(Apply(c, s, step), id) == DispatchesOf(s, id)
  {
  }

  lemma ClaimsStep(c: Config, s: State, step: Step, id: Id)
    requires Inv(c, s) && Enabled(c, s, step)
    ensures |ClaimsOf(Apply(c, s, step), id)| == |ClaimsOf(s, id)| + if Takes(step, id) then 1 else 0
  {
    TrailsStand(c, s, step, id);
    if Takes(step, id) {
      ClaimAdds(c, s, step, id);
    }
  }

  lemma ClaimAdds(c: Config, s: State, step: Step, id: Id)
    requires Inv(c, s) && Enabled(c, s, step) && Takes(step, id)
    ensures step.token !in ClaimsOf(s, id)
    ensures ClaimsOf(Apply(c, s, step), id) == ClaimsOf(s, id) + {step.token}
  {
    assert RowOk(c, s, id, s.rows[id]);
  }

  lemma DispatchAdds(c: Config, s: State, step: Step, id: Id)
    requires Inv(c, s) && Enabled(c, s, step) && Dispatches(s, step, id)
    ensures s.relays[step.r].token !in DispatchesOf(s, id)
    ensures DispatchesOf(Apply(c, s, step), id) == DispatchesOf(s, id) + {s.relays[step.r].token}
  {
    var w := s.relays[step.r];
    assert RelayOk(c, s, w) && SnapshotOk(c, s, w.token, w.todo[0]);
  }

  lemma DispatchesStep(c: Config, s: State, step: Step, id: Id)
    requires Inv(c, s) && Enabled(c, s, step)
    ensures |DispatchesOf(Apply(c, s, step), id)| == |DispatchesOf(s, id)| + if Dispatches(s, step, id) then 1 else 0
  {
    TrailsStand(c, s, step, id);
    if Dispatches(s, step, id) {
      DispatchAdds(c, s, step, id);
    }
  }

  lemma {:induction false} CountsMatch(c: Config, states: seq<State>, steps: seq<Step>, n: nat, id: Id)
    requires IsRun(c, states, steps) && n < |states|
    ensures CountClaims(steps, n, id) == |ClaimsOf(states[n], id)|
    ensures CountDispatches(states, steps, n, id) == |DispatchesOf(states[n], id)|
  {
    if n > 0 {
      CountsMatch(c, states, steps, n - 1, id);
      RunKeeps(c, states, steps, n - 1);
      ClaimsStep(c, states[n - 1], steps[n - 1], id);
      DispatchesStep(c, states[n - 1], steps[n - 1], id);
    }
  }

  /** attempt_count is the number of claims that took the row; no event is claimed or dispatched more than ten times. */
  lemma AttemptsAreBounded(c: Config, states: seq<State>, steps: seq<Step>, n: nat, id: Id)
    requires IsRun(c, states, steps) && n < |states|
    ensures id in states[n].rows ==> states[n].rows[id].attempts == CountClaims(steps, n, id)
    ensures CountDispatches(states, steps, n, id) <= CountClaims(steps, n, id) <= 10
  {
    RunKeeps(c, states, steps, n);
    CountsMatch(c, states, steps, n, id);
    SubsetCardinality(DispatchesOf(states[n], id), ClaimsOf(states[n], id));
    if id in states[n].rows {
      assert RowOk(c, states[n], id, states[n].rows[id]);
    }
  }

  /** However often jobs are delivered, an event has at most one audit row, and it describes the event as inserted. */
  lemma AuditIsOncePerEvent(c: Config, states: seq<State>, steps: seq<Step>, n: nat)
    requires IsRun(c, states, steps) && n < |states|
    ensures forall i, j :: 0 <= i < j < |states[n].audit| ==> states[n].audit[i].id != states[n].audit[j].id
    ensures forall i :: 0 <= i < |states[n].audit| ==>
              var entry := states[n].audit[i];
              && entry.id in states[n].trail
              && entry.action == states[n].trail[entry.id].content.name
              && entry.occurredAt == states[n].trail[entry.id].content.occurredAt
  {
    RunKeeps(c, states, steps, n);
  }

  ghost predicate OnlyAt(audit: seq<AuditRow>, id: Id, k: nat) {
    k < |audit| && audit[k].id == id && forall j: nat :: j < |audit| && j != k ==> audit[j].id != id
  }

  ghost predicate AuditedOnce(audit: seq<AuditRow>, id: Id) {
    exists k: nat :: OnlyAt(audit, id, k)
  }

  lemma RecordsOnce(audit: seq<AuditRow>, entry: AuditRow)
    requires forall i, j :: 0 <= i < j < |audit| ==> audit[i].id != audit[j].id
    ensures AuditedOnce(RecordIfAbsent(audit, entry), entry.id)
  {
    if k: nat :| k < |audit| && audit[k].id == entry.id {
      assert OnlyAt(audit, entry.id, k);
    } else {
      assert OnlyAt(audit + [entry], entry.id, |audit|);
    }
  }

  /** Delivering an audit job leaves exactly one audit row for its event, whatever came before. */
  lemma DeliveryRecordsOnce(c: Config, states: seq<State>, steps: seq<Step>, n: nat, i: nat)
    requires IsRun(c, states, steps) && n < |steps| && steps[n] == Deliver(i)
    ensures i < |states[n].log| && states[n].log[i].queue == "audit-log.record-event"
    ensures AuditedOnce(states[n + 1].audit, states[n].log[i].id)
  {
    RunKeeps(c, states, steps, n);
    RecordsOnce(states[n].audit, AuditOf(states[n].log[i]));
  }
}
