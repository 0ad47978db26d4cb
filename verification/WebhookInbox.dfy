/**
 * The billing webhook inbox: receivers claim an event under a lease, workers
 * apply it, and a redelivery may take over a failed or stale claim.
 */
module WebhookInbox {
  import opened Common

  const PROCESSING_LEASE: Time := 10 * 60 * 1000

  datatype EventKey = EventKey(provider: string, eventId: string)

  type Payload = string

  datatype Row = Row(
    rowId: Id,
    payload: Payload,
    processingAt: Option<Time>,
    token: Option<Id>,
    processedAt: Option<Time>,
    failedAt: Option<Time>,
    lastError: Option<string>)

  type Inbox = map<EventKey, Row>

  // ----- statements -----

  function Insert(rows: Inbox, key: EventKey, rowId: Id, payload: Payload, at: Time, token: Id): Inbox {
    if key in rows then rows
    else rows[key := Row(rowId, payload, Some(at), Some(token), None, None, None)]
  }

  predicate Retakable(rows: Inbox, key: EventKey, at: Time) {
    && key in rows && rows[key].processedAt.None?
    && (rows[key].failedAt.Some?
        || (rows[key].processingAt.Some? && rows[key].processingAt.value < at - PROCESSING_LEASE))
  }

  function TakeOver(rows: Inbox, key: EventKey, payload: Payload, at: Time, token: Id): Inbox {
    if Retakable(rows, key, at)
    then rows[key := rows[key].(processingAt := Some(at), token := Some(token), failedAt := None,
                                lastError := None, payload := payload)]
    else rows
  }

  predicate Holds(rows: Inbox, key: EventKey, token: Id) {
    key in rows && rows[key].processedAt.None? && rows[key].token == Some(token)
  }

  function Processed(rows: Inbox, key: EventKey, token: Id, now: Time): Inbox {
    if Holds(rows, key, token)
    then rows[key := rows[key].(processingAt := None, token := None, processedAt := Some(now), failedAt := None)]
    else rows
  }

  function Failed(rows: Inbox, key: EventKey, token: Id, now: Time, error: string): Inbox {
    if Holds(rows, key, token)
    then rows[key := rows[key].(processingAt := None, token := None, failedAt := Some(now), lastError := Some(error))]
    else rows
  }

  // ----- the service, run without interference -----

  datatype Applied = Done | ClaimLost | Rethrown(error: string)

  class BillingWebhookInbox {
    var rows: Inbox

    constructor (rows: Inbox)
      ensures this.rows == rows
    {
      this.rows := rows;
    }

    /** Creates the row, or takes over a failed or stale one; null when neither applies. */
    method Claim(key: EventKey, payload: Payload, now: Time, token: Id, rowId: Id) returns (claim: Option<Id>)
      modifies this
      ensures claim.Some?
              <==> key !in old(rows)
                   || (old(rows)[key].processedAt.None?
                       && (old(rows)[key].failedAt.Some?
                           || (old(rows)[key].processingAt.Some? && old(rows)[key].processingAt.value + 600_000 < now)))
      ensures claim.Some? ==>
                && claim.value == token && key in rows
                && rows[key] == Row(if key in old(rows) then old(rows)[key].rowId else rowId,
                                    payload, Some(now), Some(token), None, None, None)
      ensures claim.None? ==> rows == old(rows)
      ensures rows - {key} == old(rows) - {key}
    {
      if key !in rows {
        rows := Insert(rows, key, rowId, payload, now, token);
        return Some(token);
      }
      var retried := Retakable(rows, key, now);
      rows := TakeOver(rows, key, payload, now, token);
      claim := if retried then Some(token) else None;
    }

    /**
     * Runs the handler on the claimed payload; `thrown` is how the handler ended, `marked` and
     * `failed` how the two marks end. Any error on the way, the mark's included, is recorded as
     * a failure and rethrown, unless recording it throws in its place.
     */
    method ApplyClaimed(key: EventKey, token: Id, thrown: Payload -> Option<string>, now: Time,
                        marked: Outcome, markError: string, failed: Outcome, failError: string) returns (r: Applied)
      modifies this
      ensures r.ClaimLost? <==> !Holds(old(rows), key, token)
      ensures r.ClaimLost? ==> rows == old(rows)
      ensures Holds(old(rows), key, token) ==>
                var handlerError := thrown(old(rows)[key].payload);
                var processed := handlerError.None? && !marked.Lost?;
                && (r.Done? <==> handlerError.None? && marked.Acked?)
                && (r.Rethrown? ==> r.error == if !failed.Acked? then failError
                                               else if handlerError.Some? then handlerError.value else markError)
                && rows == if processed then Processed(old(rows), key, token, now)
                           else if failed.Lost? then old(rows)
                           else Failed(old(rows), key, token, now,
                                       if handlerError.Some? then handlerError.value else markError)
      ensures r.Done? ==>
                && key in rows && rows[key].processedAt == Some(now) && rows[key].payload == old(rows)[key].payload
                && rows[key].processingAt.None? && rows[key].token.None? && rows[key].failedAt.None?
      ensures r.Rethrown? && failed.Acked? && (thrown(old(rows)[key].payload).Some? || marked.Lost?) ==>
                && key in rows && rows[key].failedAt == Some(now) && rows[key].lastError == Some(r.error)
                && rows[key].processedAt.None? && rows[key].processingAt.None? && rows[key].token.None?
                && rows[key].payload == old(rows)[key].payload
      ensures rows - {key} == old(rows) - {key}
    {
      if !Holds(rows, key, token) {
        return ClaimLost;
      }
      var error := thrown(rows[key].payload);
      if error.None? {
        if !marked.Lost? {
          rows := Processed(rows, key, token, now);
        }
        if marked.Acked? {
          return Done;
        }
        error := Some(markError);
      }
      if !failed.Lost? {
        rows := Failed(rows, key, token, now, error.value);
      }
      r := Rethrown(if failed.Acked? then error.value else failError);
    }
  }

  // ----- the interleaved protocol -----

  datatype Receiver =
    | Waiting
    | Creating(key: EventKey, payload: Payload, token: Id, at: Time)
    | Retaking(key: EventKey, payload: Payload, token: Id, at: Time)

  datatype Worker =
    | Resting
    | Running(key: EventKey, token: Id, payload: Payload)    // the handler is running
    | Returned(key: EventKey, token: Id, payload: Payload)   // it returned; the mark follows
    | Threw(key: EventKey, token: Id)                        // it, or the mark, threw

  datatype Claim = Claim(key: EventKey, payload: Payload)

  datatype State = State(
    now: Time,
    rows: Inbox,
    receivers: map<nat, Receiver>,
    workers: map<nat, Worker>,
    pruning: map<nat, set<Id>>,                // candidate row ids read by a prune
    bound: map<Id, Claim>,                     // what each token was minted for
    rowIds: set<Id>,                           // row ids ever inserted
    handled: set<(EventKey, Id, Payload)>)     // handler runs that returned

  datatype Step =
    | Tick(to: Time)
    | Receive(p: nat, key: EventKey, payload: Payload, token: Id)
    | Create(p: nat, rowId: Id, outcome: Outcome)
    | Retake(p: nat, outcome: Outcome)
    | StopReceiver(p: nat)
    | Find(w: nat, key: EventKey, token: Id)
    | HandlerReturns(w: nat)
    | HandlerThrows(w: nat)
    | MarkProcessed(w: nat, outcome: Outcome)
    | MarkFailed(w: nat, error: string, outcome: Outcome)
    | StopWorker(w: nat)
    | SelectPrunable(q: nat, cutoff: Time, keys: set<EventKey>)
    | DeletePruned(q: nat)

  function ReceiverAt(s: State, p: nat): Receiver {
    if p in s.receivers then s.receivers[p] else Waiting
  }

  function WorkerAt(s: State, w: nat): Worker {
    if w in s.workers then s.workers[w] else Resting
  }

  ghost predicate Enabled(s: State, step: Step) {
    match step
    case Tick(to) => s.now <= to
    case Receive(p, key, payload, token) => ReceiverAt(s, p).Waiting? && token !in s.bound
    case Create(p, rowId, outcome) => ReceiverAt(s, p).Creating? && rowId !in s.rowIds
    case Retake(p, outcome) => ReceiverAt(s, p).Retaking?
    case StopReceiver(p) => true
    case Find(w, key, token) => WorkerAt(s, w).Resting?
    case HandlerReturns(w) => WorkerAt(s, w).Running?
    case HandlerThrows(w) => WorkerAt(s, w).Running?
    case MarkProcessed(w, outcome) => WorkerAt(s, w).Returned?
    case MarkFailed(w, error, outcome) => WorkerAt(s, w).Threw?
    case StopWorker(w) => true
    case SelectPrunable(q, cutoff, keys) =>
      forall key :: key in keys ==>
        key in s.rows && s.rows[key].processedAt.Some? && s.rows[key].processedAt.value < cutoff
    case DeletePruned(q) => q in s.pruning
  }

  function WithReceiver(s: State, p: nat, r: Receiver): State {
    s.(receivers := s.receivers[p := r])
  }

  function WithWorker(s: State, w: nat, worker: Worker): State {
    s.(workers := s.workers[w := worker])
  }

  function ApplyCreate(s: State, p: nat, rowId: Id, outcome: Outcome): State
    requires ReceiverAt(s, p).Creating?
  {
    var r := s.receivers[p];
    if r.key in s.rows then
      WithReceiver(s, p, if outcome.Acked? then Retaking(r.key, r.payload, r.token, r.at) else Waiting)
    else if outcome.Lost? then WithReceiver(s, p, Waiting)
    else WithReceiver(s, p, Waiting).(
      rows := Insert(s.rows, r.key, rowId, r.payload, r.at, r.token), rowIds := s.rowIds + {rowId})
  }

  ghost function Apply(s: State, step: Step): State
    requires Enabled(s, step)
  {
    match step
    case Tick(to) => s.(now := to)
    case Receive(p, key, payload, token) =>
      WithReceiver(s, p, Creating(key, payload, token, s.now)).(bound := s.bound[token := Claim(key, payload)])
    case Create(p, rowId, outcome) => ApplyCreate(s, p, rowId, outcome)
    case Retake(p, outcome) =>
      var r := s.receivers[p];
      WithReceiver(s, p, Waiting).(
        rows := if outcome.Lost? then s.rows else TakeOver(s.rows, r.key, r.payload, r.at, r.token))
    case StopReceiver(p) => WithReceiver(s, p, Waiting)
    case Find(w, key, token) =>
      if Holds(s.rows, key, token) then WithWorker(s, w, Running(key, token, s.rows[key].payload)) else s
    case HandlerReturns(w) =>
      var k := s.workers[w];
      WithWorker(s, w, Returned(k.key, k.token, k.payload)).(handled := s.handled + {(k.key, k.token, k.payload)})
    case HandlerThrows(w) => WithWorker(s, w, Threw(s.workers[w].key, s.workers[w].token))
    case MarkProcessed(w, outcome) =>
      var k := s.workers[w];
      WithWorker(s, w, if outcome.Acked? then Resting else Threw(k.key, k.token)).(
        rows := if outcome.Lost? then s.rows else Processed(s.rows, k.key, k.token, s.now))
    case MarkFailed(w, error, outcome) =>
      var k := s.workers[w];
      WithWorker(s, w, Resting).(
        rows := if outcome.Lost? then s.rows else Failed(s.rows, k.key, k.token, s.now, error))
    case StopWorker(w) => WithWorker(s, w, Resting)
    case SelectPrunable(q, cutoff, keys) =>
      s.(pruning := s.pruning[q := set key | key in keys && key in s.rows :: s.rows[key].rowId])
    case DeletePruned(q) =>
      s.(rows := map key | key in s.rows && s.rows[key].rowId !in s.pruning[q] :: s.rows[key],
         pruning := s.pruning - {q})
  }

  ghost predicate Init(s: State) {
    && s.rows == map[] && s.receivers == map[] && s.workers == map[] && s.pruning == map[]
    && s.bound == map[] && s.rowIds == {} && s.handled == {}
  }

  ghost predicate IsRun(states: seq<State>, steps: seq<Step>) {
    && |states| == |steps| + 1
    && Init(states[0])
    && forall i :: 0 <= i < |steps| ==> Enabled(states[i], steps[i]) && states[i + 1] == Apply(states[i], steps[i])
  }

  // ----- invariant -----

  /** Unprocessed means failed or leased, never both and never neither; processed means neither. */
  ghost predicate Shape(row: Row) {
    && (row.token.Some? <==> row.processingAt.Some?)
    && (row.processedAt.Some? ==> row.failedAt.None? && row.processingAt.None?)
    && (row.processedAt.None? ==> (row.failedAt.Some? <==> row.processingAt.None?))
  }

  ghost predicate RowOk(s: State, key: EventKey, row: Row) {
    && Shape(row) && row.rowId in s.rowIds
    && (row.token.Some? ==> row.token.value in s.bound && s.bound[row.token.value] == Claim(key, row.payload))
    && (row.processedAt.Some? ==> exists token :: (key, token, row.payload) in s.handled)
  }

  ghost predicate RowsOk(s: State) {
    && (forall key :: key in s.rows ==> RowOk(s, key, s.rows[key]))
    && (forall key, other :: key in s.rows && other in s.rows && key != other ==>
          s.rows[key].rowId != s.rows[other].rowId)
  }

  /** A pending claim's token is its own and has not reached any row. */
  ghost predicate ReceiverOk(s: State, r: Receiver) {
    !r.Waiting? ==>
      && r.token in s.bound && s.bound[r.token] == Claim(r.key, r.payload)
      && forall key :: key in s.rows ==> s.rows[key].token != Some(r.token)
  }

  ghost predicate ReceiversOk(s: State) {
    && (forall p :: p in s.receivers ==> ReceiverOk(s, s.receivers[p]))
    && (forall p, q :: p in s.receivers && q in s.receivers && p != q
                       && !s.receivers[p].Waiting? && !s.receivers[q].Waiting?
                       ==> s.receivers[p].token != s.receivers[q].token)
  }

  /** The claim statements of this token are still to come. */
  ghost predicate IsPending(s: State, token: Id) {
    exists p :: p in s.receivers && !s.receivers[p].Waiting? && s.receivers[p].token == token
  }

  ghost predicate WorkerOk(s: State, w: Worker) {
    && (!w.Resting? ==> !IsPending(s, w.token))
    && match w
    case Resting => true
    case Running(key, token, payload) => token in s.bound && s.bound[token] == Claim(key, payload)
    case Returned(key, token, payload) =>
      token in s.bound && s.bound[token] == Claim(key, payload) && (key, token, payload) in s.handled
    case Threw(key, token) => token in s.bound
  }

  ghost predicate PruningOk(s: State) {
    forall q, key :: q in s.pruning && key in s.rows && s.rows[key].rowId in s.pruning[q] ==>
          s.rows[key].processedAt.Some?
  }

  ghost predicate PruningKnown(s: State) {
    forall q :: q in s.pruning ==> s.pruning[q] <= s.rowIds
  }

  ghost predicate Inv(s: State) {
    && RowsOk(s) && ReceiversOk(s) && PruningOk(s) && PruningKnown(s)
    && (forall w :: w in s.workers ==> WorkerOk(s, s.workers[w]))
  }

  lemma InsertKeepsRows(s: State, t: State, key: EventKey, row: Row)
    requires Inv(s) && key !in s.rows && t.rows == s.rows[key := row] && row.rowId !in s.rowIds
    requires t.rowIds == s.rowIds + {row.rowId} && t.bound == s.bound && t.handled == s.handled
    requires t.pruning == s.pruning
    requires row.processedAt.None? && RowOk(t, key, row)
    ensures RowsOk(t) && PruningOk(t) && PruningKnown(t)
  {
    assert forall other :: other in s.rows ==> RowOk(s, other, s.rows[other]);
    forall other | other in t.rows ensures RowOk(t, other, t.rows[other]) {
      if other != key {
        assert RowOk(s, other, s.rows[other]);
      }
    }
  }

  /** A receiver that gives up its claim, or carries the same one further, disturbs nothing. */
  lemma ReceiverMoves(s: State, p: nat, r: Receiver)
    requires Inv(s) && p in s.receivers && !s.receivers[p].Waiting?
    requires r.Waiting? || (ReceiverOk(s, r) && r.token == s.receivers[p].token)
    ensures Inv(WithReceiver(s, p, r))
  {
    var t := WithReceiver(s, p, r);
    forall w | w in t.workers ensures WorkerOk(t, t.workers[w]) {
      assert WorkerOk(s, s.workers[w]);
    }
  }

  lemma CreateInserts(s: State, p: nat, rowId: Id)
    requires Inv(s) && ReceiverAt(s, p).Creating? && rowId !in s.rowIds && s.receivers[p].key !in s.rows
    ensures var r := s.receivers[p];
            Inv(WithReceiver(s, p, Waiting).(
                  rows := Insert(s.rows, r.key, rowId, r.payload, r.at, r.token), rowIds := s.rowIds + {rowId}))
  {
    var r := s.receivers[p];
    var u := WithReceiver(s, p, Waiting);
    var t := u.(rows := Insert(s.rows, r.key, rowId, r.payload, r.at, r.token), rowIds := s.rowIds + {rowId});
    assert ReceiverOk(s, r);
    ReceiverMoves(s, p, Waiting);
    InsertKeepsRows(u, t, r.key, t.rows[r.key]);
    forall q | q in t.receivers ensures ReceiverOk(t, t.receivers[q]) {
      assert ReceiverOk(u, u.receivers[q]);
    }
    forall w | w in t.workers ensures WorkerOk(t, t.workers[w]) {
      assert WorkerOk(u, u.workers[w]);
    }
  }

  lemma CreateKeeps(s: State, step: Step)
    requires step.Create? && Enabled(s, step) && Inv(s)
    ensures Inv(Apply(s, step))
  {
    var r := s.receivers[step.p];
    assert ReceiverOk(s, r);
    if r.key in s.rows || step.outcome.Lost? {
      ReceiverMoves(s, step.p, Apply(s, step).receivers[step.p]);
    } else {
      CreateInserts(s, step.p, step.rowId);
    }
  }

  lemma RetakeKeeps(s: State, step: Step)
    requires step.Retake? && Enabled(s, step) && Inv(s)
    ensures Inv(Apply(s, step))
  {
    assert ReceiverOk(s, s.receivers[step.p]);
  }

  lemma ReceiveKeeps(s: State, step: Step)
    requires step.Receive? && Enabled(s, step) && Inv(s)
    ensures Inv(Apply(s, step))
  {
    forall key | key in s.rows ensures s.rows[key].token != Some(step.token) {
      assert RowOk(s, key, s.rows[key]);
    }
  }

  /** Rewriting one unprocessed row, without its token, keeps everything but the workers. */
  lemma RewriteKeeps(s: State, t: State, key: EventKey, row: Row)
    requires Inv(s) && key in s.rows && s.rows[key].processedAt.None?
    requires t == s.(rows := s.rows[key := row], workers := t.workers)
    requires row.rowId == s.rows[key].rowId && row.token.None? && RowOk(t, key, row)
    ensures RowsOk(t) && ReceiversOk(t) && PruningOk(t) && PruningKnown(t)
  {
    forall other | other in t.rows ensures RowOk(t, other, t.rows[other]) {
      if other != key {
        assert RowOk(s, other, s.rows[other]);
      }
    }
  }

  lemma MarkKeeps(s: State, step: Step)
    requires step.MarkProcessed? || step.MarkFailed?
    requires Enabled(s, step) && Inv(s)
    ensures Inv(Apply(s, step))
  {
    var k := s.workers[step.w];
    var t := Apply(s, step);
    assert WorkerOk(s, k);
    if t.rows != s.rows {
      assert RowOk(s, k.key, s.rows[k.key]);
      if step.MarkProcessed? {
        assert (k.key, k.token, t.rows[k.key].payload) in t.handled;
      }
      RewriteKeeps(s, t, k.key, t.rows[k.key]);
    }
  }

  lemma WorkKeeps(s: State, step: Step)
    requires step.Find? || step.HandlerReturns? || step.HandlerThrows? || step.StopWorker?
    requires Enabled(s, step) && Inv(s)
    ensures Inv(Apply(s, step))
  {
    if step.Find? && Holds(s.rows, step.key, step.token) {
      assert RowOk(s, step.key, s.rows[step.key]);
    }
    var t := Apply(s, step);
    forall key | key in t.rows ensures RowOk(t, key, t.rows[key]) {
      assert RowOk(s, key, s.rows[key]);
    }
  }

  lemma QuietKeeps(s: State, step: Step)
    requires step.Tick? || step.StopReceiver? || step.SelectPrunable? || step.DeletePruned?
    requires Enabled(s, step) && Inv(s)
    ensures Inv(Apply(s, step))
  {
  }

  lemma StepKeeps(s: State, step: Step)
    requires Enabled(s, step) && Inv(s)
    ensures Inv(Apply(s, step))
  {
    match step
    case Receive(_, _, _, _) => ReceiveKeeps(s, step);
    case Create(_, _, _) => CreateKeeps(s, step);
    case Retake(_, _) => RetakeKeeps(s, step);
    case MarkProcessed(_, _) => MarkKeeps(s, step);
    case MarkFailed(_, _, _) => MarkKeeps(s, step);
    case _ =>
      if step.Tick? || step.StopReceiver? || step.SelectPrunable? || step.DeletePruned? {
        QuietKeeps(s, step);
      } else {
        WorkKeeps(s, step);
      }
  }

  lemma {:induction false} RunKeeps(states: seq<State>, steps: seq<Step>, n: nat)
    requires IsRun(states, steps) && n < |states|
    ensures Inv(states[n])
  {
    if n > 0 {
      RunKeeps(states, steps, n - 1);
      StepKeeps(states[n - 1], steps[n - 1]);
    }
  }

  // ----- what holds of every run -----

  /** At this point of the run a handler given this payload under this token returned. */
  ghost predicate ReturnedAt(states: seq<State>, steps: seq<Step>, m: nat, key: EventKey, token: Id, payload: Payload)
    requires |states| == |steps| + 1
  {
    && m < |steps| && steps[m].HandlerReturns?
    && WorkerAt(states[m], steps[m].w) == Running(key, token, payload)
  }

  lemma {:induction false} HandledReturned(
    states: seq<State>, steps: seq<Step>, n: nat, key: EventKey, token: Id, payload: Payload)
    requires IsRun(states, steps) && n < |states| && (key, token, payload) in states[n].handled
    ensures exists m: nat :: m < n && ReturnedAt(states, steps, m, key, token, payload)
  {
    if n > 0 {
      if (key, token, payload) in states[n - 1].handled {
        HandledReturned(states, steps, n - 1, key, token, payload);
      } else {
        NewlyHandled(states[n - 1], steps[n - 1], key, token, payload);
        assert ReturnedAt(states, steps, n - 1, key, token, payload);
      }
    }
  }

  lemma NewlyHandled(s: State, step: Step, key: EventKey, token: Id, payload: Payload)
    requires Enabled(s, step) && (key, token, payload) !in s.handled && (key, token, payload) in Apply(s, step).handled
    ensures step.HandlerReturns? && WorkerAt(s, step.w) == Running(key, token, payload)
  {
  }

  /** At this point of the run a worker whose token holds the row marks it processed. */
  ghost predicate MarkedAt(states: seq<State>, steps: seq<Step>, k: nat, key: EventKey, token: Id, row: Row)
    requires |states| == |steps| + 1
  {
    && k < |steps| && steps[k].MarkProcessed? && !steps[k].outcome.Lost?
    && WorkerAt(states[k], steps[k].w) == Returned(key, token, row.payload)
    && Holds(states[k].rows, key, token) && states[k].rows[key].rowId == row.rowId
        && states[k].rows[key].payload == row.payload
    && row.processedAt == Some(states[k].now)
  }

  lemma NewlyProcessed(s: State, step: Step, key: EventKey)
    requires Enabled(s, step) && Inv(s) && key in Apply(s, step).rows && Apply(s, step).rows[key].processedAt.Some?
    requires key in s.rows ==> s.rows[key] != Apply(s, step).rows[key]
    ensures step.MarkProcessed? && !step.outcome.Lost? && WorkerAt(s, step.w).Returned?
    ensures var w := WorkerAt(s, step.w);
            var row := Apply(s, step).rows[key];
            && w.key == key && Holds(s.rows, key, w.token) && w.payload == row.payload == s.rows[key].payload
            && row.rowId == s.rows[key].rowId && row.processedAt == Some(s.now)
  {
    if key in s.rows {
      assert RowOk(s, key, s.rows[key]);
    }
    if step.MarkProcessed? {
      assert WorkerOk(s, s.workers[step.w]);
    }
  }

  lemma {:induction false} WasMarked(states: seq<State>, steps: seq<Step>, n: nat, key: EventKey) returns (k: nat,
                                     token: Id)
    requires IsRun(states, steps) && n < |states| && key in states[n].rows && states[n].rows[key].processedAt.Some?
    ensures k < n && MarkedAt(states, steps, k, key, token, states[n].rows[key])
  {
    k := n - 1;
    if key in states[k].rows && states[k].rows[key] == states[n].rows[key] {
      k, token := WasMarked(states, steps, n - 1, key);
    } else {
      RunKeeps(states, steps, k);
      NewlyProcessed(states[k], steps[k], key);
      token := WorkerAt(states[k], steps[k].w).token;
    }
  }

  /**
   * A processed row was marked under a token that held it then, by a worker whose handler
   * had been given, under that token, exactly the payload the row keeps, and had returned.
   */
  lemma ProcessedPayloadWasHandled(states: seq<State>, steps: seq<Step>, n: nat, key: EventKey)
    requires IsRun(states, steps) && n < |states| && key in states[n].rows && states[n].rows[key].processedAt.Some?
    ensures exists m: nat, k: nat, token :: m < k < n && MarkedAt(states, steps, k, key, token, states[n].rows[key])
                                            && ReturnedAt(states, steps, m, key, token, states[n].rows[key].payload)
  {
    var row := states[n].rows[key];
    var k, token := WasMarked(states, steps, n, key);
    RunKeeps(states, steps, k);
    assert WorkerOk(states[k], WorkerAt(states[k], steps[k].w));
    HandledReturned(states, steps, k, key, token, row.payload);
    var m: nat :| m < k && ReturnedAt(states, steps, m, key, token, row.payload);
  }

  /** A claim whose statements are over, and which this row does not hold. */
  ghost predicate Superseded(s: State, key: EventKey, token: Id) {
    && token in s.bound
    && !Holds(s.rows, key, token)
    && !IsPending(s, token)
  }

  lemma SupersededStep(s: State, step: Step, key: EventKey, token: Id)
    requires Enabled(s, step) && Superseded(s, key, token)
    ensures Superseded(Apply(s, step), key, token)
  {
  }

  lemma {:induction false} SupersededForever(
    states: seq<State>, steps: seq<Step>, m: nat, n: nat, key: EventKey, token: Id)
    requires IsRun(states, steps) && m <= n < |states| && Superseded(states[m], key, token)
    ensures Superseded(states[n], key, token)
  {
    if m < n {
      SupersededForever(states, steps, m, n - 1, key, token);
      SupersededStep(states[n - 1], steps[n - 1], key, token);
    }
  }

  /** A worker holding a superseded token changes no row, whichever mark it makes. */
  lemma SupersededWorkersAreFenced(
    states: seq<State>, steps: seq<Step>, m: nat, n: nat, key: EventKey, token: Id)
    requires IsRun(states, steps) && m <= n < |steps| && Superseded(states[m], key, token)
    requires steps[n].MarkProcessed? || steps[n].MarkFailed?
    requires var w := WorkerAt(states[n], steps[n].w); w.key == key && w.token == token
    ensures states[n + 1].rows == states[n].rows
  {
    SupersededForever(states, steps, m, n, key, token);
  }

  /** A takeover of the row, or a mark under this claim, that takes effect. */
  ghost predicate Ends(s: State, step: Step, key: EventKey, token: Id) {
    || (step.Retake? && !step.outcome.Lost? && ReceiverAt(s, step.p).Retaking? && s.receivers[step.p].key == key
        && Retakable(s.rows, key, s.receivers[step.p].at))
    || ((step.MarkProcessed? || step.MarkFailed?) && !step.outcome.Lost? && !WorkerAt(s, step.w).Resting?
        && s.workers[step.w].key == key && s.workers[step.w].token == token)
  }

  /** The claim statements of this token are over. */
  ghost predicate IsSpent(s: State, token: Id) {
    token in s.bound && !IsPending(s, token)
  }

  lemma SpentStays(s: State, step: Step, token: Id)
    requires Enabled(s, step) && IsSpent(s, token)
    ensures IsSpent(Apply(s, step), token)
  {
  }

  lemma HoldsUnlessEnded(s: State, step: Step, key: EventKey, token: Id)
    requires Enabled(s, step) && PruningOk(s) && Holds(s.rows, key, token) && IsSpent(s, token)
    ensures Holds(Apply(s, step).rows, key, token) <==> !Ends(s, step, key, token)
    ensures Holds(Apply(s, step).rows, key, token) ==> Apply(s, step).rows[key].payload == s.rows[key].payload
  {
  }

  lemma ClaimStep(s: State, step: Step, key: EventKey, token: Id)
    requires Enabled(s, step) && PruningOk(s) && IsSpent(s, token)
    ensures Holds(Apply(s, step).rows, key, token) <==> Holds(s.rows, key, token) && !Ends(s, step, key, token)
    ensures Holds(Apply(s, step).rows, key, token) ==> Apply(s, step).rows[key].payload == s.rows[key].payload
  {
    if Holds(s.rows, key, token) {
      HoldsUnlessEnded(s, step, key, token);
    } else {
      SupersededStep(s, step, key, token);
    }
  }

  lemma {:induction false} SpentForever(states: seq<State>, steps: seq<Step>, m: nat, n: nat, token: Id)
    requires IsRun(states, steps) && m <= n < |states| && IsSpent(states[m], token)
    ensures IsSpent(states[n], token)
  {
    if m < n {
      SpentForever(states, steps, m, n - 1, token);
      SpentStays(states[n - 1], steps[n - 1], token);
    }
  }

  /** What every step from m on does to one claim, without the rest of the state. */
  ghost predicate ClaimChain(states: seq<State>, steps: seq<Step>, m: nat, key: EventKey, token: Id) {
    && |states| == |steps| + 1
    && forall i :: m < i < |states| ==>
         && (Holds(states[i].rows, key, token)
             <==> Holds(states[i - 1].rows, key, token) && !Ends(states[i - 1], steps[i - 1], key, token))
         && (Holds(states[i].rows, key, token) ==> states[i].rows[key].payload == states[i - 1].rows[key].payload)
  }

  lemma {:induction false} ChainHolds(states: seq<State>, steps: seq<Step>, m: nat, n: nat, key: EventKey, token: Id)
    requires m <= n < |states| && ClaimChain(states, steps, m, key, token)
    ensures Holds(states[n].rows, key, token)
            <==> Holds(states[m].rows, key, token) && forall i :: m <= i < n ==> !Ends(states[i], steps[i], key, token)
    ensures Holds(states[n].rows, key, token) ==> states[n].rows[key].payload == states[m].rows[key].payload
  {
    if m < n {
      ChainHolds(states, steps, m, n - 1, key, token);
    }
  }

  /**
   * A claim holds its row exactly as long as no takeover of the row and no mark under the
   * claim takes effect; a redelivery that finds the lease running changes nothing.
   */
  lemma ClaimHoldsExactlyWhen(states: seq<State>, steps: seq<Step>, m: nat, n: nat, key: EventKey, token: Id)
    requires IsRun(states, steps) && m <= n < |states| && IsSpent(states[m], token)
    ensures Holds(states[n].rows, key, token)
            <==> Holds(states[m].rows, key, token) && forall i :: m <= i < n ==> !Ends(states[i], steps[i], key, token)
    ensures Holds(states[n].rows, key, token) ==> states[n].rows[key].payload == states[m].rows[key].payload
  {
    forall i | m < i < |states|
      ensures Holds(states[i].rows, key, token)
              <==> Holds(states[i - 1].rows, key, token) && !Ends(states[i - 1], steps[i - 1], key, token)
      ensures Holds(states[i].rows, key, token) ==> states[i].rows[key].payload == states[i - 1].rows[key].payload
    {
      SpentForever(states, steps, m, i - 1, token);
      RunKeeps(states, steps, i - 1);
      ClaimStep(states[i - 1], steps[i - 1], key, token);
    }
    ChainHolds(states, steps, m, n, key, token);
  }

  /**
   * The queue's retry of a job whose handler failed runs the handler again exactly when the
   * failure mark was lost and the claim held then and has not been ended since.
   */
  lemma RetryRunsExactlyWhen(states: seq<State>, steps: seq<Step>, m: nat, n: nat, w: nat)
    requires IsRun(states, steps) && m < n < |steps| && steps[m].MarkFailed?
    requires var k := WorkerAt(states[m], steps[m].w); steps[n] == Find(w, k.key, k.token)
    ensures var k := WorkerAt(states[m], steps[m].w);
            && (WorkerAt(states[n + 1], w).Running?
                <==> Holds(states[m].rows, k.key, k.token) && steps[m].outcome.Lost?
                     && forall i :: m < i < n ==> !Ends(states[i], steps[i], k.key, k.token))
            && (WorkerAt(states[n + 1], w).Running? ==>
                  WorkerAt(states[n + 1], w) == Running(k.key, k.token, states[m].rows[k.key].payload))
  {
    var k := WorkerAt(states[m], steps[m].w);
    RunKeeps(states, steps, m);
    assert WorkerOk(states[m], k);
    ClaimHoldsExactlyWhen(states, steps, m, n, k.key, k.token);
    assert Ends(states[m], steps[m], k.key, k.token) <==> !steps[m].outcome.Lost?;
  }

  /** A first delivery is stored as it came; a redelivery leaves the row to its takeover, which follows. */
  lemma ReceiversGoOn(s: State, p: nat, rowId: Id)
    requires p in s.receivers && s.receivers[p].Creating? && rowId !in s.rowIds
    ensures var r, t := s.receivers[p], Apply(s, Create(p, rowId, Acked));
            if r.key in s.rows then t.rows == s.rows && Enabled(t, Retake(p, Acked))
            else t.rows == s.rows[r.key := Row(rowId, r.payload, Some(r.at), Some(r.token), None, None, None)]
  {
  }

  /** A prune deletes exactly the rows it selected. */
  lemma PruneTakesExactly(s: State, q: nat, cutoff: Time, keys: set<EventKey>)
    requires Inv(s) && Enabled(s, SelectPrunable(q, cutoff, keys))
    ensures Apply(Apply(s, SelectPrunable(q, cutoff, keys)), DeletePruned(q)).rows == s.rows - keys
  {
    var t := Apply(s, SelectPrunable(q, cutoff, keys));
    forall key | key in s.rows ensures s.rows[key].rowId in t.pruning[q] <==> key in keys {
      if key in keys {
        assert s.rows[key].rowId in t.pruning[q];
      }
    }
  }

  /**
   * A handler that returns has its event marked processed, and one that throws has it marked failed with
   * what was thrown; so has one whose mark was not acknowledged. While the row still carries the worker's
   * token, the mark writes exactly that.
   */
  lemma WorkersGoOn(s: State, w: nat, error: string)
    requires w in s.workers
    ensures s.workers[w].Running? ==>
              && Enabled(Apply(s, HandlerReturns(w)), MarkProcessed(w, Acked))
              && Enabled(Apply(s, HandlerThrows(w)), MarkFailed(w, error, Acked))
    ensures s.workers[w].Returned? ==>
              && Enabled(Apply(s, MarkProcessed(w, Lost)), MarkFailed(w, error, Acked))
              && Enabled(Apply(s, MarkProcessed(w, Unacked)), MarkFailed(w, error, Acked))
    ensures !s.workers[w].Resting? && s.workers[w].key in s.rows ==>
              var key, row := s.workers[w].key, s.rows[s.workers[w].key];
              row.processedAt.None? && row.token == Some(s.workers[w].token) ==>
                && (s.workers[w].Returned? ==>
                      Apply(s, MarkProcessed(w, Acked)).rows
                      == s.rows[key := Row(row.rowId, row.payload, None, None, Some(s.now), None, row.lastError)])
                && (s.workers[w].Threw? ==>
                      Apply(s, MarkFailed(w, error, Acked)).rows
                      == s.rows[key := Row(row.rowId, row.payload, None, None, None, Some(s.now), Some(error))])
  {
  }

  /**
   * A recorded failure gives the claim up, so the queue's retry of the same job
   * finds nothing: only a redelivery under a new token can apply the event.
   */
  lemma RetriedJobsLoseTheClaim(states: seq<State>, steps: seq<Step>, m: nat, n: nat, w: nat)
    requires IsRun(states, steps) && m < n < |steps|
    requires steps[m].MarkFailed? && !steps[m].outcome.Lost?
    requires var k := WorkerAt(states[m], steps[m].w); steps[n] == Find(w, k.key, k.token)
    ensures states[n + 1] == states[n]
  {
    var k := WorkerAt(states[m], steps[m].w);
    RunKeeps(states, steps, m);
    assert WorkerOk(states[m], k);
    assert Ends(states[m], steps[m], k.key, k.token);
    ClaimHoldsExactlyWhen(states, steps, m, n, k.key, k.token);
  }

  /** Every unprocessed row is failed or leased, exactly one of the two. */
  lemma NeverStuck(states: seq<State>, steps: seq<Step>, n: nat, key: EventKey)
    requires IsRun(states, steps) && n < |states| && key in states[n].rows
    ensures var row := states[n].rows[key];
            && (row.processedAt.None? ==> (row.failedAt.Some? <==> row.processingAt.None?))
            && (row.processedAt.Some? ==> row.failedAt.None? && row.processingAt.None?)
            && (row.token.Some? <==> row.processingAt.Some?)
  {
    RunKeeps(states, steps, n);
    assert RowOk(states[n], key, states[n].rows[key]);
  }

  /**
   * So a redelivery takes an unprocessed row exactly when it failed, at once, or else more
   * than ten minutes after it was last claimed; until then the running lease refuses it.
   */
  lemma RedeliveryClaims(
    states: seq<State>, steps: seq<Step>, n: nat, key: EventKey, at: Time, payload: Payload, token: Id)
    requires IsRun(states, steps) && n < |states| && key in states[n].rows && states[n].rows[key].processedAt.None?
    ensures var row, rows := states[n].rows[key], TakeOver(states[n].rows, key, payload, at, token);
            if row.failedAt.Some? || (row.processingAt.Some? && at > row.processingAt.value + 600_000)
            then rows == states[n].rows[key := Row(row.rowId, payload, Some(at), Some(token), None, None, None)]
            else rows == states[n].rows
  {
    NeverStuck(states, steps, n, key);
  }

  /**
   * In every run, a redelivery's takeover changes an unprocessed row exactly when it takes effect
   * at all and the row had failed, or its lease had run out at the instant the redelivery read.
   */
  lemma RetakeExactlyWhen(states: seq<State>, steps: seq<Step>, n: nat)
    requires IsRun(states, steps) && n < |steps| && steps[n].Retake?
    requires var r := ReceiverAt(states[n], steps[n].p);
             r.key in states[n].rows && states[n].rows[r.key].processedAt.None?
    ensures var r := ReceiverAt(states[n], steps[n].p);
            var row, row' := states[n].rows[r.key], states[n + 1].rows[r.key];
            && (row' != row <==> !steps[n].outcome.Lost?
                                 && (row.failedAt.Some?
                                     || (row.processingAt.Some? && r.at > row.processingAt.value + 600_000)))
            && (row' != row ==> row' == Row(row.rowId, r.payload, Some(r.at), Some(r.token), None, None, None))
  {
    RunKeeps(states, steps, n);
    var r := states[n].receivers[steps[n].p];
    NeverStuck(states, steps, n, r.key);
    assert ReceiverOk(states[n], r);
    RedeliveryClaims(states, steps, n, r.key, r.at, r.payload, r.token);
  }

  /** The row with this id is still exactly this, or it is gone for good. */
  ghost predicate FrozenAt(s: State, key: EventKey, row: Row) {
    row.rowId in s.rowIds && (key in s.rows && s.rows[key].rowId == row.rowId ==> s.rows[key] == row)
  }

  lemma FrozenStep(s: State, step: Step, key: EventKey, row: Row)
    requires Enabled(s, step) && Inv(s) && row.processedAt.Some? && FrozenAt(s, key, row)
    ensures FrozenAt(Apply(s, step), key, row)
  {
  }

  /** A processed row is never claimed or changed again until it is pruned. */
  lemma {:induction false} ProcessedRowsAreFrozen(states: seq<State>, steps: seq<Step>, m: nat, n: nat, key: EventKey)
    requires IsRun(states, steps) && m <= n < |states|
    requires key in states[m].rows && states[m].rows[key].processedAt.Some?
    ensures FrozenAt(states[n], key, states[m].rows[key])
  {
    if m == n {
      RunKeeps(states, steps, m);
      assert RowOk(states[m], key, states[m].rows[key]);
    } else {
      RunKeeps(states, steps, n - 1);
      ProcessedRowsAreFrozen(states, steps, m, n - 1, key);
      FrozenStep(states[n - 1], steps[n - 1], key, states[m].rows[key]);
    }
  }

  /** The prune deletes exactly this row. */
  ghost predicate PrunedAt(states: seq<State>, steps: seq<Step>, k: nat, key: EventKey, row: Row)
    requires |states| == |steps| + 1
  {
    && k < |steps| && steps[k].DeletePruned? && steps[k].q in states[k].pruning
    && row.rowId in states[k].pruning[steps[k].q] && key in states[k].rows && states[k].rows[key] == row
  }

  ghost predicate Present(s: State, key: EventKey, row: Row) {
    key in s.rows && s.rows[key].rowId == row.rowId
  }

  lemma OnlyPrunesRemove(s: State, step: Step, key: EventKey, row: Row)
    requires Enabled(s, step) && Present(s, key, row) && !Present(Apply(s, step), key, row)
    ensures step.DeletePruned? && row.rowId in s.pruning[step.q]
  {
  }

  /** A prune read this row as a candidate, older than its cutoff. */
  ghost predicate SelectedAt(states: seq<State>, steps: seq<Step>, j: nat, q: nat, key: EventKey, rowId: Id)
    requires |states| == |steps| + 1
  {
    && j < |steps| && steps[j].SelectPrunable? && steps[j].q == q && key in states[j].rows
    && states[j].rows[key].rowId == rowId && states[j].rows[key].processedAt.Some?
    && states[j].rows[key].processedAt.value < steps[j].cutoff
  }

  lemma Selects(s: State, step: Step, q: nat, rowId: Id) returns (key: EventKey)
    requires Enabled(s, step) && q in Apply(s, step).pruning && rowId in Apply(s, step).pruning[q]
    requires !(q in s.pruning && rowId in s.pruning[q])
    ensures step.SelectPrunable? && step.q == q && key in s.rows && s.rows[key].rowId == rowId
    ensures s.rows[key].processedAt.Some? && s.rows[key].processedAt.value < step.cutoff
  {
    key :| key in step.keys && key in s.rows && s.rows[key].rowId == rowId;
  }

  lemma {:induction false} WasSelected(states: seq<State>, steps: seq<Step>, n: nat, q: nat, rowId: Id)
    returns (j: nat, key: EventKey)
    requires IsRun(states, steps) && n < |states| && q in states[n].pruning && rowId in states[n].pruning[q]
    ensures j < n && SelectedAt(states, steps, j, q, key, rowId)
  {
    j := n - 1;
    if q in states[j].pruning && rowId in states[j].pruning[q] {
      j, key := WasSelected(states, steps, n - 1, q, rowId);
    } else {
      key := Selects(states[j], steps[j], q, rowId);
    }
  }

  ghost predicate HasId(s: State, key: EventKey, rowId: Id) {
    key in s.rows && s.rows[key].rowId == rowId
  }

  lemma IdStaysAway(s: State, step: Step, key: EventKey, rowId: Id)
    requires Enabled(s, step) && rowId in s.rowIds && !HasId(s, key, rowId)
    ensures rowId in Apply(s, step).rowIds && !HasId(Apply(s, step), key, rowId)
  {
  }

  /** A row id belongs to one event for good. */
  lemma {:induction false} IdNeverMoves(states: seq<State>, steps: seq<Step>, j: nat, n: nat, key: EventKey, rowId: Id)
    requires IsRun(states, steps) && j <= n < |states| && rowId in states[j].rowIds && !HasId(states[j], key, rowId)
    ensures rowId in states[n].rowIds && !HasId(states[n], key, rowId)
  {
    if j < n {
      IdNeverMoves(states, steps, j, n - 1, key, rowId);
      IdStaysAway(states[n - 1], steps[n - 1], key, rowId);
    }
  }

  lemma SelectedIsRow(states: seq<State>, steps: seq<Step>, k: nat, key: EventKey, row: Row) returns (j: nat)
    requires IsRun(states, steps) && PrunedAt(states, steps, k, key, row)
    ensures j < k && SelectedAt(states, steps, j, steps[k].q, key, row.rowId) && states[j].rows[key] == row
  {
    var other;
    j, other := WasSelected(states, steps, k, steps[k].q, row.rowId);
    RunKeeps(states, steps, j);
    assert RowOk(states[j], other, states[j].rows[other]);
    if !HasId(states[j], key, row.rowId) {
      IdNeverMoves(states, steps, j, k, key, row.rowId);
    }
    ProcessedRowsAreFrozen(states, steps, j, k, key);
  }

  /**
   * A processed row that is gone was deleted by a prune, as it was when it was processed, and
   * the prune had read it as older than its cutoff.
   */
  lemma GoneWasPruned(states: seq<State>, steps: seq<Step>, m: nat, n: nat, key: EventKey) returns (j: nat, k: nat)
    requires IsRun(states, steps) && m <= n < |states|
    requires key in states[m].rows && states[m].rows[key].processedAt.Some?
    requires !Present(states[n], key, states[m].rows[key])
    ensures m <= k < n && PrunedAt(states, steps, k, key, states[m].rows[key])
    ensures j < k && steps[j].SelectPrunable? && steps[j].q == steps[k].q
    ensures states[m].rows[key].processedAt.value < steps[j].cutoff
  {
    k := WasDeleted(states, steps, m, n, key);
    j := SelectedIsRow(states, steps, k, key, states[m].rows[key]);
  }

  lemma {:induction false} WasDeleted(states: seq<State>, steps: seq<Step>, m: nat, n: nat, key: EventKey)
    returns (k: nat)
    requires IsRun(states, steps) && m <= n < |states|
    requires key in states[m].rows && states[m].rows[key].processedAt.Some?
    requires !Present(states[n], key, states[m].rows[key])
    ensures m <= k < n && PrunedAt(states, steps, k, key, states[m].rows[key])
  {
    var row := states[m].rows[key];
    k := n - 1;
    if Present(states[k], key, row) {
      ProcessedRowsAreFrozen(states, steps, m, k, key);
      OnlyPrunesRemove(states[k], steps[k], key, row);
    } else {
      k := WasDeleted(states, steps, m, k, key);
    }
  }
}
