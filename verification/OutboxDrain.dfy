/** One relay running alone: the drain service as its code runs it, statement by statement. */
module OutboxDrain {
  import opened Common
  import opened Ordering
  import opened OutboxTable

  const INVALID_ENVELOPE := "Cannot dispatch an invalid integration event envelope."

  /** A statement on the whole batch that throws, and whether it took effect all the same. */
  datatype Fault = NoFault | SweepFails(took: bool) | ClaimFails(took: bool) | QuarantineFails(took: bool)

  /**
   * What one drainOnce meets: its fresh token, the instants of its statements, and how each of them
   * and each send ends.
   */
  datatype World = World(
    token: Id,
    order: set<Snapshot> -> seq<Snapshot>,   // the order in which RETURNING lists the claimed rows
    fault: Fault,
    faultError: string,
    quarantineAt: Time,
    claimAt: Time,
    invalidAt: Time,
    invalidMessage: string,
    settleAt: Id -> Time,
    reaches: Id -> Option<nat>,   // None: every send succeeds; Some(k): the send after the first k throws
    failure: Id -> string,        // what that send throws
    stamp: Id -> Outcome,         // how marking the row drained ends
    stampError: Id -> string,
    release: Id -> Outcome,       // how releasing the row's claim ends, should it come to that
    releaseError: Id -> string)

  // ----- one row's turn in the dispatch loop -----

  predicate Succeeds(c: Contracts, w: World, id: Id, content: Content) {
    w.reaches(id).None? || w.reaches(id).value >= |SubscribersOf(c, content)|
  }

  /** Dispatched and stamped without an error: what the pass counts. */
  predicate Stamped(c: Contracts, w: World, id: Id, content: Content) {
    Succeeds(c, w, id, content) && w.stamp(id).Acked?
  }

  /** The release runs outside the try, so a release that throws ends the whole pass. */
  predicate Aborts(c: Contracts, w: World, id: Id, content: Content) {
    !Stamped(c, w, id, content) && !w.release(id).Acked?
  }

  /** How a claimed row leaves its turn; a stamp that took effect unseen has already given the claim up. */
  function Turned(c: Contracts, w: World, id: Id, row: Row): Row {
    if Succeeds(c, w, id, row.content) && !w.stamp(id).Lost? then Drained(row, w.settleAt(id))
    else if w.release(id).Lost? then row
    else Released(row, if Succeeds(c, w, id, row.content) then w.stampError(id) else w.failure(id))
  }

  /** How one row ends a pass, from that row, its membership of the batch, and whether its turn came. */
  function Ends(c: Contracts, row: Row, id: Id, w: World, inBatch: bool, turned: bool): Row {
    if Exhausted(row, w.quarantineAt) then
      DeadLettered(row, w.quarantineAt, Coalesce(row.lastError, EXHAUSTED_MESSAGE))
    else if !inBatch then row
    else if !Publishable(c, id, row.content) then
      DeadLettered(Claimed(row, w.token, w.claimAt), w.invalidAt, w.invalidMessage)
    else if !turned then Claimed(row, w.token, w.claimAt)
    else Turned(c, w, id, Claimed(row, w.token, w.claimAt))
  }

  /** The table once the publishable rows in `done` have had their turn. */
  function MidDrain(c: Contracts, t: Table, w: World, batch: set<Id>, done: set<Id>): (t': Table)
    ensures t'.Keys == t.Keys
  {
    map id | id in t :: Ends(c, t[id], id, w, id in batch, id in done)
  }

  // ----- the batch -----

  function Ids(keys: set<Key>): set<Id> {
    set k | k in keys :: k.id
  }

  function BatchKeys(t: Table, w: World, limit: nat): set<Key> {
    TakeSet(Ascending, ClaimableKeys(QuarantineExhausted(t, w.quarantineAt), w.claimAt), limit)
  }

  function Batch(t: Table, w: World, limit: nat): set<Id> {
    Ids(BatchKeys(t, w, limit))
  }

  /** RETURNING lists every row it updated, once. */
  ghost predicate Lawful(w: World) {
    forall rows :: |w.order(rows)| == |rows| && forall row :: row in w.order(rows) <==> row in rows
  }

  function Snapshots(t: Table, ids: set<Id>): set<Snapshot> {
    set id | id in ids && id in t :: Snapshot(id, t[id].content)
  }

  /** What a claim took: rows of the table, open to it. */
  ghost predicate IsClaim(t: Table, w: World, claimed: seq<Snapshot>) {
    && DistinctIds(claimed)
    && forall row :: row in claimed ==>
         row.id in t && row.content == t[row.id].content && !Settled(t[row.id]) && !Exhausted(t[row.id], w.quarantineAt)
  }

  /** A listing as long as its set repeats nothing. */
  lemma {:induction false} ListingIsDistinct(rows: seq<Snapshot>, listed: set<Snapshot>)
    requires |rows| == |listed| && forall row :: row in rows <==> row in listed
    ensures forall i, j :: 0 <= i < j < |rows| ==> rows[i] != rows[j]
    decreases |rows|
  {
    if rows != [] {
      var n := |rows| - 1;
      var init, last := rows[..n], rows[n];
      assert rows == init + [last];
      DistinctCount(init);
      if last in init {
        assert listed == set row | row in init;
      } else {
        assert forall row :: row in init <==> row in listed - {last};
        ListingIsDistinct(init, listed - {last});
      }
    }
  }

  lemma {:induction false} DistinctCount(rows: seq<Snapshot>)
    ensures |set row | row in rows| <= |rows|
  {
    if rows != [] {
      var n := |rows| - 1;
      DistinctCount(rows[..n]);
      assert rows == rows[..n] + [rows[n]];
      assert (set row | row in rows) == (set row | row in rows[..n]) + {rows[n]};
    }
  }

  lemma OrderIs(t: Table, w: World, ids: set<Id>)
    requires Lawful(w) && forall id :: id in ids ==> id in t
    ensures var rows := w.order(Snapshots(t, ids));
            && DistinctIds(rows) && IdsOf(rows) == ids
            && forall row :: row in rows ==> row.id in ids && row.content == t[row.id].content
  {
    var listed := Snapshots(t, ids);
    var rows := w.order(listed);
    ListingIsDistinct(rows, listed);
    forall id | id in ids ensures id in IdsOf(rows) {
      assert Snapshot(id, t[id].content) in listed;
    }
    forall i, j | 0 <= i < j < |rows| ensures rows[i].id != rows[j].id {
      assert rows[i] in listed && rows[j] in listed;
    }
  }

  lemma {:induction false} IdsSize(t: Table, now: Time, keys: set<Key>)
    requires keys <= ClaimableKeys(t, now)
    ensures |Ids(keys)| == |keys|
    decreases |keys|
  {
    if keys != {} {
      var k :| k in keys;
      IdsSize(t, now, keys - {k});
      assert Ids(keys) == Ids(keys - {k}) + {k.id};
      assert k.id !in Ids(keys - {k});
    }
  }

  lemma BatchOf(t: Table, w: World, limit: nat)
    ensures forall id :: id in Batch(t, w, limit) ==>
              id in t && Claimable(t[id], w.claimAt) && !Exhausted(t[id], w.quarantineAt)
    ensures |Batch(t, w, limit)| == |BatchKeys(t, w, limit)|
  {
    var q := QuarantineExhausted(t, w.quarantineAt);
    var keys := BatchKeys(t, w, limit);
    TakeSetSize(Ascending, ClaimableKeys(q, w.claimAt), limit);
    forall id | id in Batch(t, w, limit)
      ensures id in t && Claimable(t[id], w.claimAt) && !Exhausted(t[id], w.quarantineAt)
    {
      var k :| k in keys && k.id == id;
      assert k in ClaimableKeys(q, w.claimAt);
    }
    IdsSize(q, w.claimAt, keys);
  }

  function RowKey(t: Table, id: Id): Key
    requires id in t
  {
    Key(t[id].content.occurredAt, id)
  }

  function TakenIds(t: Table, now: Time, limit: nat): set<Id> {
    Ids(TakeSet(Ascending, ClaimableKeys(t, now), limit))
  }

  /** What the claim statement asks of a row: unsettled, attempts to spare, and no claim of the last two minutes. */
  ghost predicate Open(row: Row, now: Time) {
    && row.drainedAt.None? && row.deadLetteredAt.None? && row.attempts < 10
    && (row.claimedAt.None? || row.claimedAt.value + 120_000 < now)
  }

  /** The row occurred after every claimed one, or at the same instant under a larger id. */
  ghost predicate LaterThanAll(t: Table, claimed: seq<Snapshot>, id: Id)
    requires id in t
  {
    var at := t[id].content.occurredAt;
    forall row :: row in claimed ==>
      row.content.occurredAt < at || (row.content.occurredAt == at && row.id < id)
  }

  lemma TakenId(t: Table, now: Time, limit: nat, id: Id)
    ensures id in TakenIds(t, now, limit)
            <==> id in t && Claimable(t[id], now) && RowKey(t, id) in TakeSet(Ascending, ClaimableKeys(t, now), limit)
  {
    var first := TakeSet(Ascending, ClaimableKeys(t, now), limit);
    if id in TakenIds(t, now, limit) {
      var k :| k in first && k.id == id;
      assert k in ClaimableKeys(t, now);
    }
  }

  lemma TakenCount(t: Table, now: Time, limit: nat)
    ensures |TakenIds(t, now, limit)| == |TakeSet(Ascending, ClaimableKeys(t, now), limit)| <= limit
  {
    TakeSetSize(Ascending, ClaimableKeys(t, now), limit);
    IdsSize(t, now, TakeSet(Ascending, ClaimableKeys(t, now), limit));
  }

  /** What the claim statement takes: open rows, the oldest of them, up to the limit. */
  lemma TakenIs(t: Table, w: World, limit: nat)
    requires Lawful(w)
    ensures var taken := TakenIds(t, w.claimAt, limit);
            var claimed := w.order(Snapshots(t, taken));
            && DistinctIds(claimed) && IdsOf(claimed) == taken && |claimed| <= limit
            && (forall row :: row in claimed ==>
                  row.id in t && row.content == t[row.id].content && Open(t[row.id], w.claimAt))
            && (forall id :: id in t && Open(t[id], w.claimAt) && id !in taken ==>
                  |claimed| == limit && LaterThanAll(t, claimed, id))
  {
    var taken := TakenIds(t, w.claimAt, limit);
    forall id | id in taken ensures id in t && Open(t[id], w.claimAt) {
      TakenId(t, w.claimAt, limit, id);
    }
    OrderIs(t, w, taken);
    var claimed := w.order(Snapshots(t, taken));
    IdsOfSize(claimed);
    TakenCount(t, w.claimAt, limit);
    forall id | id in t && Open(t[id], w.claimAt) && id !in taken
      ensures |claimed| == limit && LaterThanAll(t, claimed, id)
    {
      NotTaken(t, w.claimAt, limit, claimed, id);
    }
  }

  lemma NotTaken(t: Table, now: Time, limit: nat, claimed: seq<Snapshot>, id: Id)
    requires id in t && Open(t[id], now) && id !in TakenIds(t, now, limit)
    requires forall row :: row in claimed ==>
               row.id in t && row.content == t[row.id].content && row.id in TakenIds(t, now, limit)
    ensures |TakenIds(t, now, limit)| == limit && LaterThanAll(t, claimed, id)
  {
    var keys := ClaimableKeys(t, now);
    TakenId(t, now, limit, id);
    TakenCount(t, now, limit);
    LeftBehind(keys, limit, RowKey(t, id));
    forall row | row in claimed ensures Precedes(Ascending, RowKey(t, row.id), RowKey(t, id)) {
      TakenId(t, now, limit, row.id);
      TakenFirst(Ascending, keys, limit, RowKey(t, row.id), RowKey(t, id));
    }
  }

  lemma LeftBehind(keys: set<Key>, limit: nat, key: Key)
    requires key in keys && key !in TakeSet(Ascending, keys, limit)
    ensures |TakeSet(Ascending, keys, limit)| == limit
  {
    TakeSetSize(Ascending, keys, limit);
    if |keys| <= limit {
      TakeAll(Ascending, keys, limit);
    }
  }

  lemma SnapshotsAgree(t: Table, w: World, ids: set<Id>)
    ensures Snapshots(QuarantineExhausted(t, w.quarantineAt), ids) == Snapshots(t, ids)
  {
    var q := QuarantineExhausted(t, w.quarantineAt);
    forall id | id in ids && id in t ensures Snapshot(id, q[id].content) == Snapshot(id, t[id].content) {
    }
  }

  /** The rows one pass claims, as the claim returns them. */
  function Claims(t: Table, w: World, limit: nat): seq<Snapshot> {
    w.order(Snapshots(t, Batch(t, w, limit)))
  }

  lemma ClaimsAre(t: Table, w: World, limit: nat)
    requires Lawful(w)
    ensures IsClaim(t, w, Claims(t, w, limit)) && IdsOf(Claims(t, w, limit)) == Batch(t, w, limit)
  {
    BatchOf(t, w, limit);
    OrderIs(t, w, Batch(t, w, limit));
  }

  // ----- how far the loop gets -----

  /** The first row whose turn ends the pass. */
  function AbortOf(c: Contracts, w: World, rows: seq<Snapshot>): Option<Id> {
    if rows == [] then None
    else if Aborts(c, w, rows[0].id, rows[0].content) then Some(rows[0].id)
    else AbortOf(c, w, rows[1..])
  }

  /** What the release of that row throws. */
  function AbortError(c: Contracts, w: World, rows: seq<Snapshot>): Option<string> {
    match AbortOf(c, w, rows)
    case Some(id) => Some(w.releaseError(id))
    case None => None
  }

  /** How many rows have their turn. */
  function Reach(c: Contracts, w: World, rows: seq<Snapshot>): (n: nat)
    ensures n <= |rows|
  {
    if rows == [] then 0
    else if Aborts(c, w, rows[0].id, rows[0].content) then 1
    else 1 + Reach(c, w, rows[1..])
  }

  lemma {:induction false} AbortAt(c: Contracts, w: World, rows: seq<Snapshot>, i: nat)
    requires i < |rows| && Aborts(c, w, rows[i].id, rows[i].content)
    requires forall k :: 0 <= k < i ==> !Aborts(c, w, rows[k].id, rows[k].content)
    ensures Reach(c, w, rows) == i + 1 && AbortOf(c, w, rows) == Some(rows[i].id)
  {
    if i > 0 {
      AbortAt(c, w, rows[1..], i - 1);
    }
  }

  lemma {:induction false} NoAbort(c: Contracts, w: World, rows: seq<Snapshot>)
    requires forall k :: 0 <= k < |rows| ==> !Aborts(c, w, rows[k].id, rows[k].content)
    ensures Reach(c, w, rows) == |rows| && AbortOf(c, w, rows) == None
  {
    if rows != [] {
      NoAbort(c, w, rows[1..]);
    }
  }

  /** The rows of a claim that have their turn. */
  function TurnIds(c: Contracts, w: World, claimed: seq<Snapshot>): set<Id> {
    var fit := Keep(c, claimed, true);
    IdsOf(fit[..Reach(c, w, fit)])
  }

  /** The table after a pass that claimed these rows, in the order the claim returned them. */
  function AfterDrain(c: Contracts, t: Table, w: World, claimed: seq<Snapshot>): Table {
    MidDrain(c, t, w, IdsOf(claimed), TurnIds(c, w, claimed))
  }

  /** The table once the batch is claimed. */
  function ClaimedBatch(t: Table, w: World, limit: nat): Table {
    ClaimRows(QuarantineExhausted(t, w.quarantineAt), Batch(t, w, limit), w.token, w.claimAt)
  }

  /** What a batch statement that throws leaves; None when none does. The quarantine is run only for invalid rows. */
  function Faulted(c: Contracts, t: Table, w: World, limit: nat): Option<Table> {
    match w.fault
    case NoFault => None
    case SweepFails(took) => Some(if took then QuarantineExhausted(t, w.quarantineAt) else t)
    case ClaimFails(took) => Some(if took then ClaimedBatch(t, w, limit) else QuarantineExhausted(t, w.quarantineAt))
    case QuarantineFails(took) =>
      if Keep(c, Claims(t, w, limit), false) == [] then None
      else Some(if took then MidDrain(c, t, w, Batch(t, w, limit), {}) else ClaimedBatch(t, w, limit))
  }

  function Pass(c: Contracts, t: Table, w: World, limit: nat): Table {
    match Faulted(c, t, w, limit)
    case Some(left) => left
    case None => AfterDrain(c, t, w, Claims(t, w, limit))
  }

  /** The rows of a batch the pass counts: dead-lettered for their contract, or dispatched and stamped. */
  function CountedOf(c: Contracts, t: Table, w: World, batch: set<Id>): set<Id> {
    set id | id in batch && id in t
             && (!Publishable(c, id, t[id].content) || Stamped(c, w, id, t[id].content))
  }

  /** What drainOnce returns: the count, or the error of the release that threw. */
  function AnswerTo(c: Contracts, t: Table, w: World, claimed: seq<Snapshot>): Result<nat, string> {
    match AbortError(c, w, Keep(c, claimed, true))
    case Some(error) => Err(error)
    case None => Ok(|CountedOf(c, t, w, IdsOf(claimed))|)
  }

  function Answer(c: Contracts, t: Table, w: World, limit: nat): Result<nat, string> {
    if Faulted(c, t, w, limit).Some? then Err(w.faultError) else AnswerTo(c, t, w, Claims(t, w, limit))
  }

  lemma KeepIds(c: Contracts, t: Table, w: World, claimed: seq<Snapshot>, fit: bool)
    requires IsClaim(t, w, claimed)
    ensures forall id :: id in IdsOf(Keep(c, claimed, fit))
                         <==> id in IdsOf(claimed) && id in t && Publishable(c, id, t[id].content) == fit
  {
    KeepMembers(c, claimed, fit);
    forall id | id in IdsOf(claimed) && id in t && Publishable(c, id, t[id].content) == fit
      ensures id in IdsOf(Keep(c, claimed, fit))
    {
      var row :| row in claimed && row.id == id;
      assert row in Keep(c, claimed, fit);
    }
  }

  lemma ClaimedTable(c: Contracts, t: Table, w: World, claimed: seq<Snapshot>)
    requires IsClaim(t, w, claimed)
    ensures var t1 := ClaimRows(QuarantineExhausted(t, w.quarantineAt), IdsOf(claimed), w.token, w.claimAt);
            var invalid := IdsOf(Keep(c, claimed, false));
            QuarantineRows(t1, invalid, w.token, w.invalidAt, w.invalidMessage)
            == MidDrain(c, t, w, IdsOf(claimed), {})
  {
    KeepIds(c, t, w, claimed, false);
  }

  function AfterTurn(c: Contracts, m: Table, w: World, id: Id, content: Content): Table {
    var stamps := Succeeds(c, w, id, content) && !w.stamp(id).Lost?;
    var stamped := if stamps then MarkDrained(m, id, w.token, w.settleAt(id)) else m;
    if Stamped(c, w, id, content) || w.release(id).Lost? then stamped
    else ReleaseClaim(stamped, id, w.token, if Succeeds(c, w, id, content) then w.stampError(id) else w.failure(id))
  }

  /** The statements of one row's turn do to the table what its turn says, and nothing else. */
  lemma TurnOne(c: Contracts, t: Table, w: World, batch: set<Id>, done: set<Id>, id: Id)
    requires id in t && id in batch && Publishable(c, id, t[id].content) && id !in done
    requires !Settled(t[id]) && !Exhausted(t[id], w.quarantineAt)
    ensures AfterTurn(c, MidDrain(c, t, w, batch, done), w, id, t[id].content) == MidDrain(c, t, w, batch, done + {id})
  {
  }

  function Sent(c: Contracts, w: World, rows: seq<Snapshot>): set<Id> {
    set row | row in rows && Stamped(c, w, row.id, row.content) :: row.id
  }

  lemma NextRow(rows: seq<Snapshot>, i: nat)
    requires DistinctIds(rows) && i < |rows|
    ensures rows[..i + 1] == rows[..i] + [rows[i]]
    ensures rows[i].id !in IdsOf(rows[..i]) && IdsOf(rows[..i + 1]) == IdsOf(rows[..i]) + {rows[i].id}
  {
    assert forall row :: row in rows[..i + 1] <==> row in rows[..i] || row == rows[i];
  }

  lemma SentSnoc(c: Contracts, w: World, rows: seq<Snapshot>, row: Snapshot)
    requires row.id !in IdsOf(rows)
    ensures |Sent(c, w, rows + [row])| == |Sent(c, w, rows)| + if Stamped(c, w, row.id, row.content) then 1 else 0
  {
    assert Sent(c, w, rows) <= IdsOf(rows);
    if Stamped(c, w, row.id, row.content) {
      assert Sent(c, w, rows + [row]) == Sent(c, w, rows) + {row.id};
    } else {
      assert Sent(c, w, rows + [row]) == Sent(c, w, rows);
    }
  }

  lemma SentIds(c: Contracts, t: Table, w: World, claimed: seq<Snapshot>)
    requires IsClaim(t, w, claimed)
    ensures forall id :: id in Sent(c, w, Keep(c, claimed, true))
                         <==> id in IdsOf(claimed) && id in t && Publishable(c, id, t[id].content)
                              && Stamped(c, w, id, t[id].content)
  {
    KeepMembers(c, claimed, true);
    forall id | id in IdsOf(claimed) && id in t && Publishable(c, id, t[id].content) && Stamped(c, w, id, t[id].content)
      ensures id in Sent(c, w, Keep(c, claimed, true))
    {
      var row :| row in claimed && row.id == id;
      assert row in Keep(c, claimed, true);
    }
  }

  lemma CountIs(c: Contracts, t: Table, w: World, claimed: seq<Snapshot>)
    requires IsClaim(t, w, claimed)
    ensures |CountedOf(c, t, w, IdsOf(claimed))| == |Sent(c, w, Keep(c, claimed, true))| + |Keep(c, claimed, false)|
  {
    var sent, bad := Sent(c, w, Keep(c, claimed, true)), IdsOf(Keep(c, claimed, false));
    SentIds(c, t, w, claimed);
    KeepIds(c, t, w, claimed, false);
    KeepDistinct(c, claimed, false);
    IdsOfSize(Keep(c, claimed, false));
    assert CountedOf(c, t, w, IdsOf(claimed)) == sent + bad;
    assert sent !! bad;
  }

  lemma QuarantineNone(t: Table, rows: seq<Snapshot>, token: Id, now: Time, error: string)
    requires rows == []
    ensures QuarantineRows(t, IdsOf(rows), token, now, error) == t
  {
  }

  // ----- the sends of a pass -----

  type Sends = seq<(string, Id)>

  /** What a row's turn hands to the queue: all its subscribers, or those before the send that throws. */
  function RowSends(c: Contracts, w: World, row: Snapshot): Sends {
    var subs := SubscribersOf(c, row.content);
    var n := if Succeeds(c, w, row.id, row.content) then |subs| else w.reaches(row.id).value;
    seq(n, k requires 0 <= k < n => (subs[k], row.id))
  }

  /** The sends of the first n rows' turns, in order. */
  function SendsOf(c: Contracts, w: World, rows: seq<Snapshot>, n: nat): Sends
    requires n <= |rows|
  {
    if n == 0 then [] else SendsOf(c, w, rows, n - 1) + RowSends(c, w, rows[n - 1])
  }

  /** The sends of a whole pass. */
  function PassSends(c: Contracts, t: Table, w: World, limit: nat): Sends {
    var fit := Keep(c, Claims(t, w, limit), true);
    if Faulted(c, t, w, limit).Some? then [] else SendsOf(c, w, fit, Reach(c, w, fit))
  }

  ghost predicate SentToAll(c: Contracts, content: Content, id: Id, sends: Sends) {
    forall sub :: sub in SubscribersOf(c, content) ==> (sub, id) in sends
  }

  /** A send to a subscriber of one of the first n rows. */
  ghost predicate SendSound(c: Contracts, rows: seq<Snapshot>, n: nat, send: (string, Id)) {
    exists i :: 0 <= i < n && i < |rows| && rows[i].id == send.1 && send.0 in SubscribersOf(c, rows[i].content)
  }

  lemma RowReaches(c: Contracts, w: World, row: Snapshot)
    ensures forall send :: send in RowSends(c, w, row) ==> send.1 == row.id && send.0 in SubscribersOf(c, row.content)
    ensures Succeeds(c, w, row.id, row.content) ==> SentToAll(c, row.content, row.id, RowSends(c, w, row))
  {
    var subs, sends := SubscribersOf(c, row.content), RowSends(c, w, row);
    if Succeeds(c, w, row.id, row.content) {
      forall sub | sub in subs ensures (sub, row.id) in sends {
        var k :| 0 <= k < |subs| && subs[k] == sub;
        assert sends[k] == (sub, row.id);
      }
    }
  }

  /** Sends go to subscribers of the rows whose turn came, and to all of them where every send succeeds. */
  lemma {:induction false} SendsReach(c: Contracts, w: World, rows: seq<Snapshot>, n: nat)
    requires n <= |rows|
    ensures forall send :: send in SendsOf(c, w, rows, n) ==> SendSound(c, rows, n, send)
    ensures forall i :: 0 <= i < n && Succeeds(c, w, rows[i].id, rows[i].content) ==>
              SentToAll(c, rows[i].content, rows[i].id, SendsOf(c, w, rows, n))
  {
    if n > 0 {
      var init, more := SendsOf(c, w, rows, n - 1), RowSends(c, w, rows[n - 1]);
      SendsReach(c, w, rows, n - 1);
      RowReaches(c, w, rows[n - 1]);
      forall send | send in init + more ensures SendSound(c, rows, n, send) {
        if send in init {
          assert SendSound(c, rows, n - 1, send);
        }
      }
      forall i | 0 <= i < n && Succeeds(c, w, rows[i].id, rows[i].content)
        ensures SentToAll(c, rows[i].content, rows[i].id, init + more)
      {
        if i < n - 1 {
          assert SentToAll(c, rows[i].content, rows[i].id, init);
        }
      }
    }
  }

  /** The queue's jobs, turn by turn. */
  function JobsAfter(c: Contracts, w: World, rows: seq<Snapshot>, n: nat, before: Sends): Sends
    requires n <= |rows|
  {
    if n == 0 then before else JobsAfter(c, w, rows, n - 1, before) + RowSends(c, w, rows[n - 1])
  }

  lemma {:induction false} JobsAfterAre(c: Contracts, w: World, rows: seq<Snapshot>, n: nat, before: Sends)
    requires n <= |rows|
    ensures JobsAfter(c, w, rows, n, before) == before + SendsOf(c, w, rows, n)
  {
    if n > 0 {
      JobsAfterAre(c, w, rows, n - 1, before);
      Assoc(before, SendsOf(c, w, rows, n - 1), RowSends(c, w, rows[n - 1]));
    }
  }

  lemma Assoc(a: Sends, b: Sends, c: Sends)
    ensures a + b + c == a + (b + c)
  {
  }

  /** The dispatch loop once the first i publishable rows have had their turn. */
  ghost predicate Midway(c: Contracts, t: Table, w: World, batch: set<Id>, fit: seq<Snapshot>, i: nat,
                         rows: Table, dispatched: nat, before: Sends, jobs: Sends)
  {
    && i <= |fit|
    && rows == MidDrain(c, t, w, batch, IdsOf(fit[..i]))
    && dispatched == |Sent(c, w, fit[..i])|
    && jobs == JobsAfter(c, w, fit, i, before)
  }

  /** A row the dispatch loop may find: claimed, fit for its contract, and open until its turn. */
  ghost predicate FitRow(c: Contracts, t: Table, w: World, batch: set<Id>, row: Snapshot) {
    && row.id in t && row.id in batch && row.content == t[row.id].content && Publishable(c, row.id, row.content)
    && !Settled(t[row.id]) && !Exhausted(t[row.id], w.quarantineAt)
  }

  ghost predicate IsFit(c: Contracts, t: Table, w: World, batch: set<Id>, fit: seq<Snapshot>) {
    DistinctIds(fit) && forall row :: row in fit ==> FitRow(c, t, w, batch, row)
  }

  lemma ClaimIsFit(c: Contracts, t: Table, w: World, claimed: seq<Snapshot>)
    requires IsClaim(t, w, claimed)
    ensures IsFit(c, t, w, IdsOf(claimed), Keep(c, claimed, true))
  {
    KeepMembers(c, claimed, true);
    KeepDistinct(c, claimed, true);
  }

  /** One more turn: the table, the count and the sends move on together. */
  lemma MidwayNext(c: Contracts, t: Table, w: World, batch: set<Id>, fit: seq<Snapshot>, i: nat,
                   dispatched: nat, before: Sends, sent: Sends)
    requires DistinctIds(fit) && i < |fit|
    requires dispatched == |Sent(c, w, fit[..i])| && sent == JobsAfter(c, w, fit, i, before)
    ensures var row := fit[i];
            Midway(c, t, w, batch, fit, i + 1, MidDrain(c, t, w, batch, IdsOf(fit[..i]) + {row.id}),
                   dispatched + if Stamped(c, w, row.id, row.content) then 1 else 0,
                   before, sent + RowSends(c, w, row))
  {
    NextRow(fit, i);
    SentSnoc(c, w, fit[..i], fit[i]);
  }

  lemma LoopStarts(c: Contracts, t: Table, w: World, batch: set<Id>, fit: seq<Snapshot>, jobs: Sends)
    ensures Midway(c, t, w, batch, fit, 0, MidDrain(c, t, w, batch, {}), 0, jobs, jobs)
  {
    assert fit[..0] == [];
    assert IdsOf([]) == {};
  }

  lemma LoopDone(c: Contracts, t: Table, w: World, claimed: seq<Snapshot>, rows: Table, dispatched: nat,
                 before: Sends, jobs: Sends)
    requires IsClaim(t, w, claimed)
    requires var fit := Keep(c, claimed, true);
             Midway(c, t, w, IdsOf(claimed), fit, Reach(c, w, fit), rows, dispatched, before, jobs)
    ensures rows == AfterDrain(c, t, w, claimed)
    ensures var fit := Keep(c, claimed, true); jobs == before + SendsOf(c, w, fit, Reach(c, w, fit))
    ensures Reach(c, w, Keep(c, claimed, true)) == |Keep(c, claimed, true)| ==>
              dispatched + |Keep(c, claimed, false)| == |CountedOf(c, t, w, IdsOf(claimed))|
  {
    var fit := Keep(c, claimed, true);
    assert fit[..|fit|] == fit;
    JobsAfterAre(c, w, fit, Reach(c, w, fit), before);
    CountIs(c, t, w, claimed);
  }

  // ----- repeated passes -----

  datatype Run = Run(rows: Table, settled: nat, thrown: Option<string>)

  /** A pass, as the table it leaves and what it returns. */
  datatype Passed = Passed(rows: Table, answer: Result<nat, string>)

  function PassOf(c: Contracts, t: Table, w: World, limit: nat): Passed {
    Passed(Pass(c, t, w, limit), Answer(c, t, w, limit))
  }

  function Onward(r: Run, p: Passed): Run {
    match p.answer
    case Ok(n) => Run(p.rows, r.settled + n, None)
    case Err(e) => Run(p.rows, r.settled, Some(e))
  }

  /** Passes until one throws or counts less than a batch, or the passes run out. */
  ghost function Drains(step: (Table, World) -> Passed, r: Run, worlds: seq<World>, limit: nat): Run
    decreases |worlds|
  {
    if worlds == [] then r
    else
      var next := Onward(r, step(r.rows, worlds[0]));
      if next.thrown.Some? || next.settled < r.settled + limit then next else Drains(step, next, worlds[1..], limit)
  }

  function StepOf(c: Contracts, limit: nat): (Table, World) -> Passed {
    (t, w) => PassOf(c, t, w, limit)
  }

  ghost predicate IsStep(step: (Table, World) -> Passed, c: Contracts, limit: nat) {
    forall t, w {:trigger PassOf(c, t, w, limit)} :: step(t, w) == PassOf(c, t, w, limit)
  }

  class OutboxDrainService {
    var rows: Table
    var jobs: Sends   // sends handed to the queue, in order
    const contracts: Contracts
    const drainBatchSize: nat

    constructor (rows: Table, contracts: Contracts, drainBatchSize: nat)
      ensures this.rows == rows && this.jobs == [] && this.contracts == contracts
      ensures this.drainBatchSize == drainBatchSize
    {
      this.rows := rows;
      this.jobs := [];
      this.contracts := contracts;
      this.drainBatchSize := drainBatchSize;
    }

    /** The claim statement: the oldest claimable rows up to the limit, stamped, and returned once each. */
    method ClaimBatch(w: World) returns (claimed: seq<Snapshot>)
      requires Lawful(w)
      modifies `rows
      ensures DistinctIds(claimed) && |claimed| <= drainBatchSize
      ensures forall row :: row in claimed ==>
                row.id in old(rows) && row.content == old(rows)[row.id].content && Open(old(rows)[row.id], w.claimAt)
      ensures forall id :: id in old(rows) && Open(old(rows)[id], w.claimAt) && id !in IdsOf(claimed) ==>
                |claimed| == drainBatchSize && LaterThanAll(old(rows), claimed, id)
      ensures rows.Keys == old(rows).Keys
      ensures forall id :: id in rows ==>
                var row := old(rows)[id];
                if id in IdsOf(claimed) then
                  rows[id]
                  == Row(row.content, None, Some(w.token), Some(w.claimAt), row.attempts + 1, row.lastError, None)
                else rows[id] == row
      ensures rows == ClaimRows(old(rows), IdsOf(claimed), w.token, w.claimAt)
      ensures claimed == w.order(Snapshots(old(rows), TakenIds(old(rows), w.claimAt, drainBatchSize)))
      ensures IdsOf(claimed) == TakenIds(old(rows), w.claimAt, drainBatchSize)
    {
      TakenIs(rows, w, drainBatchSize);
      var taken := TakenIds(rows, w.claimAt, drainBatchSize);
      claimed := w.order(Snapshots(rows, taken));
      rows := ClaimRows(rows, taken, w.token, w.claimAt);
    }

    /** Refuses an envelope off its contract; else sends it to each subscriber in turn until one send throws. */
    method Dispatch(row: Snapshot, w: World) returns (error: Option<string>)
      modifies `jobs
      ensures error.None? <==> Delivers(contracts, w, row.id, row.content)
      ensures !Publishable(contracts, row.id, row.content) ==> 
                error == Some("Cannot dispatch an invalid integration event envelope.") && jobs == old(jobs)
      ensures Publishable(contracts, row.id, row.content) ==>
                && (error.Some? ==> error.value == w.failure(row.id))
                && jobs == old(jobs) + RowSends(contracts, w, row)
    {
      if !Publishable(contracts, row.id, row.content) {
        return Some(INVALID_ENVELOPE);
      }
      var subs := SubscribersOf(contracts, row.content);
      for k := 0 to |subs|
        invariant w.reaches(row.id).Some? ==> k <= w.reaches(row.id).value
        invariant jobs == old(jobs) + seq(k, i requires 0 <= i < |subs| => (subs[i], row.id))
      {
        if w.reaches(row.id) == Some(k) {
          return Some(w.failure(row.id));
        }
        jobs := jobs + [(subs[k], row.id)];
      }
      error := None;
    }

    /**
     * One pass. Every row ends as its own state, its membership of the batch, its own
     * sends and statements, and whether its turn came, decide; the sends are those of the
     * publishable rows whose turn came. A batch statement that throws ends the pass there.
     */
    method DrainOnce(w: World) returns (r: Result<nat, string>)
      requires Lawful(w)
      modifies `rows, `jobs
      ensures rows == Pass(contracts, old(rows), w, drainBatchSize)
      ensures r == Answer(contracts, old(rows), w, drainBatchSize)
      ensures jobs == old(jobs) + PassSends(contracts, old(rows), w, drainBatchSize)
    {
      ghost var t := rows;
      if w.fault != SweepFails(false) {
        rows := QuarantineExhausted(rows, w.quarantineAt);
      }
      if w.fault.SweepFails? {
        return Err(w.faultError);
      }
      r := ClaimAndSettle(w, t);
    }

    method ClaimAndSettle(w: World, ghost t: Table) returns (r: Result<nat, string>)
      requires Lawful(w) && !w.fault.SweepFails? && rows == QuarantineExhausted(t, w.quarantineAt)
      modifies `rows, `jobs
      ensures rows == Pass(contracts, t, w, drainBatchSize)
      ensures r == Answer(contracts, t, w, drainBatchSize)
      ensures jobs == old(jobs) + PassSends(contracts, t, w, drainBatchSize)
    {
      if w.fault == ClaimFails(false) {
        return Err(w.faultError);
      }
      ClaimsAre(t, w, drainBatchSize);
      SnapshotsAgree(t, w, Batch(t, w, drainBatchSize));
      var claimed := ClaimBatch(w);
      if w.fault.ClaimFails? {
        return Err(w.faultError);
      }
      r := SettleClaimed(w, t, claimed);
    }

    /** Up to twenty passes, until one throws or counts less than a batch. */
    method DrainUntilIdle(worlds: seq<World>) returns (r: Result<nat, string>)
      requires |worlds| == 20 && forall i :: 0 <= i < |worlds| ==> Lawful(worlds[i])
      modifies `rows, `jobs
      ensures var end := Drains(StepOf(contracts, drainBatchSize), Run(old(rows), 0, None), worlds, drainBatchSize);
              rows == end.rows && r == if end.thrown.Some? then Err(end.thrown.value) else Ok(end.settled)
    {
      r := DrainPasses(worlds, StepOf(contracts, drainBatchSize));
    }

    /** The loop of drainUntilIdle, for any number of passes. */
    method DrainPasses(worlds: seq<World>, ghost step: (Table, World) -> Passed) returns (r: Result<nat, string>)
      requires IsStep(step, contracts, drainBatchSize) && forall i :: 0 <= i < |worlds| ==> Lawful(worlds[i])
      modifies `rows, `jobs
      ensures var end := Drains(step, Run(old(rows), 0, None), worlds, drainBatchSize);
              rows == end.rows && r == if end.thrown.Some? then Err(end.thrown.value) else Ok(end.settled)
    {
      var settled: nat := 0;
      ghost var end := Drains(step, Run(rows, 0, None), worlds, drainBatchSize);
      for pass := 0 to |worlds|
        invariant end == Drains(step, Run(rows, settled, None), worlds[pass..], drainBatchSize)
      {
        assert worlds[pass..][1..] == worlds[pass + 1..];
        var drained := DrainPass(worlds[pass], step);
        if drained.Err? {
          return Err(drained.error);
        }
        settled := settled + drained.value;
        if drained.value < drainBatchSize {
          return Ok(settled);
        }
      }
      r := Ok(settled);
    }

    method DrainPass(w: World, ghost step: (Table, World) -> Passed) returns (drained: Result<nat, string>)
      requires Lawful(w) && IsStep(step, contracts, drainBatchSize)
      modifies `rows, `jobs
      ensures Passed(rows, drained) == step(old(rows), w)
    {
      assert PassOf(contracts, rows, w, drainBatchSize) == step(rows, w);
      drained := DrainOnce(w);
    }

    /** The rest of drainOnce, once the batch is claimed. */
    method SettleClaimed(w: World, ghost t: Table, claimed: seq<Snapshot>) returns (r: Result<nat, string>)
      requires IsClaim(t, w, claimed) && claimed == Claims(t, w, drainBatchSize)
      requires IdsOf(claimed) == Batch(t, w, drainBatchSize)
      requires rows == ClaimedBatch(t, w, drainBatchSize) && (w.fault.NoFault? || w.fault.QuarantineFails?)
      modifies `rows, `jobs
      ensures rows == Pass(contracts, t, w, drainBatchSize)
      ensures r == Answer(contracts, t, w, drainBatchSize)
      ensures jobs == old(jobs) + PassSends(contracts, t, w, drainBatchSize)
    {
      var publishable, invalid := PartitionByContract(contracts, claimed);
      if |invalid| > 0 && w.fault == QuarantineFails(false) {
        return Err(w.faultError);
      }
      QuarantineInvalid(w, t, claimed, invalid);
      if |invalid| > 0 && w.fault.QuarantineFails? {
        return Err(w.faultError);
      }
      r := DispatchClaimed(w, t, claimed, publishable, |invalid|);
    }

    method QuarantineInvalid(w: World, ghost t: Table, ghost claimed: seq<Snapshot>, invalid: seq<Snapshot>)
      requires IsClaim(t, w, claimed) && invalid == Keep(contracts, claimed, false)
      requires rows == ClaimRows(QuarantineExhausted(t, w.quarantineAt), IdsOf(claimed), w.token, w.claimAt)
      modifies `rows
      ensures rows == MidDrain(contracts, t, w, IdsOf(claimed), {})
    {
      ClaimedTable(contracts, t, w, claimed);
      if |invalid| > 0 {
        rows := QuarantineRows(rows, IdsOf(invalid), w.token, w.invalidAt, w.invalidMessage);
      } else {
        QuarantineNone(rows, invalid, w.token, w.invalidAt, w.invalidMessage);
      }
    }

    method DispatchClaimed(w: World, ghost t: Table, ghost claimed: seq<Snapshot>, publishable: seq<Snapshot>,
                           invalid: nat)
      returns (r: Result<nat, string>)
      requires IsClaim(t, w, claimed)
      requires publishable == Keep(contracts, claimed, true) && invalid == |Keep(contracts, claimed, false)|
      requires rows == MidDrain(contracts, t, w, IdsOf(claimed), {})
      modifies `rows, `jobs
      ensures rows == AfterDrain(contracts, t, w, claimed)
      ensures r == AnswerTo(contracts, t, w, claimed)
      ensures jobs == old(jobs) + SendsOf(contracts, w, publishable, Reach(contracts, w, publishable))
    {
      var dispatched, thrown := DispatchTurns(w, t, claimed, publishable);
      if thrown.Some? {
        return Err(thrown.value);
      }
      r := Ok(dispatched + invalid);
    }

    method DispatchTurns(w: World, ghost t: Table, ghost claimed: seq<Snapshot>, publishable: seq<Snapshot>)
      returns (dispatched: nat, thrown: Option<string>)
      requires IsClaim(t, w, claimed) && publishable == Keep(contracts, claimed, true)
      requires rows == MidDrain(contracts, t, w, IdsOf(claimed), {})
      modifies `rows, `jobs
      ensures rows == AfterDrain(contracts, t, w, claimed)
      ensures jobs == old(jobs) + SendsOf(contracts, w, publishable, Reach(contracts, w, publishable))
      ensures thrown == AbortError(contracts, w, publishable)
      ensures thrown.None? ==>
                dispatched + |Keep(contracts, claimed, false)| == |CountedOf(contracts, t, w, IdsOf(claimed))|
    {
      dispatched, thrown := DispatchFit(w, t, claimed, publishable);
      LoopDone(contracts, t, w, claimed, rows, dispatched, old(jobs), jobs);
    }

    method DispatchFit(w: World, ghost t: Table, ghost claimed: seq<Snapshot>, publishable: seq<Snapshot>)
      returns (dispatched: nat, thrown: Option<string>)
      requires IsClaim(t, w, claimed) && publishable == Keep(contracts, claimed, true)
      requires rows == MidDrain(contracts, t, w, IdsOf(claimed), {})
      modifies `rows, `jobs
      ensures Midway(contracts, t, w, IdsOf(claimed), publishable, Reach(contracts, w, publishable), rows, dispatched,
                     old(jobs), jobs)
      ensures thrown == AbortError(contracts, w, publishable)
      ensures thrown.None? ==> Reach(contracts, w, publishable) == |publishable|
    {
      ClaimIsFit(contracts, t, w, claimed);
      dispatched, thrown := DispatchAll(w, t, IdsOf(claimed), publishable);
    }

    /** Per row: dispatch, then stamp it drained or release its claim; a release that throws ends the loop. */
    method DispatchAll(w: World, ghost t: Table, ghost batch: set<Id>, publishable: seq<Snapshot>)
      returns (dispatched: nat, thrown: Option<string>)
      requires IsFit(contracts, t, w, batch, publishable) && rows == MidDrain(contracts, t, w, batch, {})
      modifies `rows, `jobs
      ensures Midway(contracts, t, w, batch, publishable, Reach(contracts, w, publishable), rows, dispatched,
                     old(jobs), jobs)
      ensures thrown == AbortError(contracts, w, publishable)
      ensures thrown.None? ==> Reach(contracts, w, publishable) == |publishable|
    {
      dispatched := 0;
      LoopStarts(contracts, t, w, batch, publishable, jobs);
      for i := 0 to |publishable|
        invariant Midway(contracts, t, w, batch, publishable, i, rows, dispatched, old(jobs), jobs)
        invariant forall k :: 0 <= k < i ==> !Aborts(contracts, w, publishable[k].id, publishable[k].content)
      {
        var drained;
        drained, thrown := TakeTurn(w, t, batch, publishable, i, dispatched, old(jobs));
        if drained {
          dispatched := dispatched + 1;
        }
        if thrown.Some? {
          AbortAt(contracts, w, publishable, i);
          return;
        }
      }
      NoAbort(contracts, w, publishable);
      thrown := None;
    }

    method TakeTurn(w: World, ghost t: Table, ghost batch: set<Id>, publishable: seq<Snapshot>, i: nat,
                    ghost dispatched: nat, ghost before: Sends)
      returns (drained: bool, thrown: Option<string>)
      requires IsFit(contracts, t, w, batch, publishable) && i < |publishable|
      requires Midway(contracts, t, w, batch, publishable, i, rows, dispatched, before, jobs)
      modifies `rows, `jobs
      ensures Midway(contracts, t, w, batch, publishable, i + 1, rows, dispatched + if drained then 1 else 0,
                     before, jobs)
      ensures var row := publishable[i];
              thrown == if Aborts(contracts, w, row.id, row.content) then Some(w.releaseError(row.id)) else None
    {
      ghost var sent := jobs;
      NextRow(publishable, i);
      assert publishable[i] in publishable;
      drained, thrown := DispatchRow(w, t, batch, IdsOf(publishable[..i]), publishable[i]);
      MidwayNext(contracts, t, w, batch, publishable, i, dispatched, before, sent);
    }

    method DispatchRow(w: World, ghost t: Table, ghost batch: set<Id>, ghost done: set<Id>, row: Snapshot)
      returns (drained: bool, thrown: Option<string>)
      requires row.id in t && row.id in batch && row.id !in done && row.content == t[row.id].content
      requires Publishable(contracts, row.id, row.content) && !Settled(t[row.id])
      requires !Exhausted(t[row.id], w.quarantineAt)
      requires rows == MidDrain(contracts, t, w, batch, done)
      modifies `rows, `jobs
      ensures rows == MidDrain(contracts, t, w, batch, done + {row.id})
      ensures jobs == old(jobs) + RowSends(contracts, w, row)
      ensures drained <==> Stamped(contracts, w, row.id, row.content)
      ensures thrown == if Aborts(contracts, w, row.id, row.content) then Some(w.releaseError(row.id)) else None
    {
      TurnOne(contracts, t, w, batch, done, row.id);
      var error := Dispatch(row, w);
      if error.None? {
        if !w.stamp(row.id).Lost? {
          rows := MarkDrained(rows, row.id, w.token, w.settleAt(row.id));
        }
        if w.stamp(row.id).Acked? {
          return true, None;
        }
        error := Some(w.stampError(row.id));
      }
      if !w.release(row.id).Lost? {
        rows := ReleaseClaim(rows, row.id, w.token, error.value);
      }
      drained := false;
      thrown := if w.release(row.id).Acked? then None else Some(w.releaseError(row.id));
    }
  }

  /** Splits a claimed batch by contract, keeping its order. */
  method PartitionByContract(c: Contracts, claimed: seq<Snapshot>)
    returns (publishable: seq<Snapshot>, invalid: seq<Snapshot>)
    ensures publishable == Keep(c, claimed, true)
    ensures invalid == Keep(c, claimed, false)
    ensures |publishable| + |invalid| == |claimed|
  {
    publishable, invalid := [], [];
    for i := 0 to |claimed|
      invariant publishable == Keep(c, claimed[..i], true)
      invariant invalid == Keep(c, claimed[..i], false)
      invariant |publishable| + |invalid| == i
    {
      assert claimed[..i + 1][..i] == claimed[..i];
      if Publishable(c, claimed[i].id, claimed[i].content) {
        publishable := publishable + [claimed[i]];
      } else {
        invalid := invalid + [claimed[i]];
      }
    }
    assert claimed[..|claimed|] == claimed;
  }

  // ----- a pass, row by row -----

  /** All the sends of a row's dispatch go through. */
  ghost predicate Delivers(c: Contracts, w: World, id: Id, content: Content) {
    && content.name in c.subscribers && c.parses(id, content)
    && (w.reaches(id).Some? ==> w.reaches(id).value >= |c.subscribers[content.name]|)
  }

  /** Column by column, how a row of the batch leaves a pass in which no batch statement throws. */
  ghost predicate Leaves(c: Contracts, w: World, id: Id, row: Row, turned: bool, after: Row) {
    var charged := row.attempts + 1;
    if !(row.content.name in c.subscribers && c.parses(id, row.content)) then
      after == Row(row.content, None, None, None, charged, Some(w.invalidMessage), Some(w.invalidAt))
    else if turned && Delivers(c, w, id, row.content) && !w.stamp(id).Lost? then
      after == Row(row.content, Some(w.settleAt(id)), None, None, charged, row.lastError, None)
    else if turned && !w.release(id).Lost? then
      var error := if Delivers(c, w, id, row.content) then w.stampError(id) else w.failure(id);
      after == Row(row.content, None, None, None, charged, Some(error), None)
    else
      after == Row(row.content, None, Some(w.token), Some(w.claimAt), charged, row.lastError, None)
  }

  /** Column by column, how any row leaves such a pass. */
  ghost predicate EndsAs(c: Contracts, w: World, id: Id, row: Row, inBatch: bool, turned: bool, after: Row) {
    if && row.drainedAt.None? && row.deadLetteredAt.None? && row.attempts >= 10
       && (row.claimedAt.None? || row.claimedAt.value + 120_000 < w.quarantineAt)
    then
      after == Row(row.content, None, None, None, row.attempts,
                   if row.lastError.Some? then row.lastError else Some("Outbox relay exceeded 10 attempts."),
                   Some(w.quarantineAt))
    else if inBatch then Open(row, w.claimAt) && Leaves(c, w, id, row, turned, after)
    else after == row
  }

  lemma RowEndsAs(c: Contracts, row: Row, id: Id, w: World, inBatch: bool, turned: bool)
    requires inBatch ==> Claimable(row, w.claimAt)
    ensures EndsAs(c, w, id, row, inBatch, turned, Ends(c, row, id, w, inBatch, turned))
  {
  }

  /** A pass dead-letters a row as exhausted, leaves it, or charges it one attempt and settles or releases it. */
  lemma RowsLeaveAs(c: Contracts, t: Table, w: World, limit: nat, id: Id)
    requires Lawful(w) && w.fault.NoFault? && id in t
    ensures var claimed := Claims(t, w, limit);
            && id in Pass(c, t, w, limit)
            && EndsAs(c, w, id, t[id], id in IdsOf(claimed), id in TurnIds(c, w, claimed), Pass(c, t, w, limit)[id])
  {
    var claimed := Claims(t, w, limit);
    assert IdsOf(claimed) == Batch(t, w, limit) by { ClaimsAre(t, w, limit); }
    BatchOf(t, w, limit);
    RowEndsAs(c, t[id], id, w, id in IdsOf(claimed), id in TurnIds(c, w, claimed));
  }

  ghost predicate Spares(t: Table, t': Table, id: Id)
    requires id in t
  {
    id in t' && t'[id] == t[id]
  }

  lemma StatementsSpare(c: Contracts, t: Table, w: World, batch: set<Id>, done: set<Id>, id: Id)
    requires id in t && id !in batch && t[id].claimedAt.Some? && w.quarantineAt <= t[id].claimedAt.value + 120_000
    ensures Spares(t, QuarantineExhausted(t, w.quarantineAt), id)
    ensures Spares(t, ClaimRows(QuarantineExhausted(t, w.quarantineAt), batch, w.token, w.claimAt), id)
    ensures Spares(t, MidDrain(c, t, w, batch, done), id)
  {
  }

  lemma FaultSpares(c: Contracts, t: Table, w: World, limit: nat, batch: set<Id>, id: Id)
    requires batch == Batch(t, w, limit) && id in t && id !in batch && t[id].claimedAt.Some?
    requires w.quarantineAt <= t[id].claimedAt.value + 120_000 && Faulted(c, t, w, limit).Some?
    ensures Spares(t, Faulted(c, t, w, limit).value, id)
  {
    StatementsSpare(c, t, w, batch, {}, id);
  }

  /** Whatever fails in it, a pass leaves every row alone whose lease is still running when it sweeps and claims. */
  lemma PassSparesLeases(c: Contracts, t: Table, w: World, limit: nat, id: Id)
    requires Lawful(w) && id in t && t[id].claimedAt.Some?
    requires w.quarantineAt <= t[id].claimedAt.value + 120_000 && w.claimAt <= t[id].claimedAt.value + 120_000
    ensures id in Pass(c, t, w, limit) && Pass(c, t, w, limit)[id] == t[id]
  {
    var batch, claimed := Batch(t, w, limit), Claims(t, w, limit);
    assert id !in batch by { BatchOf(t, w, limit); }
    match Faulted(c, t, w, limit)
    case Some(_) =>
      FaultSpares(c, t, w, limit, batch, id);
    case None =>
      assert IdsOf(claimed) == batch by { ClaimsAre(t, w, limit); }
      StatementsSpare(c, t, w, batch, TurnIds(c, w, claimed), id);
  }

  /** The row meets its contract, and its release throws after a send or its stamp did. */
  ghost predicate Breaks(c: Contracts, w: World, row: Snapshot) {
    && row.content.name in c.subscribers && c.parses(row.id, row.content)
    && !(Delivers(c, w, row.id, row.content) && w.stamp(row.id).Acked?) && !w.release(row.id).Acked?
  }

  lemma {:induction false} AbortIs(c: Contracts, w: World, rows: seq<Snapshot>)
    requires forall row :: row in rows ==> Publishable(c, row.id, row.content)
    ensures AbortOf(c, w, rows).None? <==> forall row :: row in rows ==> !Breaks(c, w, row)
    ensures AbortOf(c, w, rows).Some? ==>
              exists row :: row in rows && Breaks(c, w, row) && AbortOf(c, w, rows) == Some(row.id)
  {
    if rows != [] {
      assert rows[0] in rows;
      assert forall row :: row in rows[1..] ==> row in rows;
      AbortIs(c, w, rows[1..]);
      assert forall row :: row in rows ==> row == rows[0] || row in rows[1..];
    }
  }

  /** A pass throws what a release threw, or counts the rows it dead-lettered for their contract or saw stamped. */
  lemma PassAnswers(c: Contracts, t: Table, w: World, limit: nat)
    requires Lawful(w) && w.fault.NoFault?
    ensures var claimed := Claims(t, w, limit);
            match Answer(c, t, w, limit)
            case Err(error) => exists row :: row in claimed && Breaks(c, w, row) && error == w.releaseError(row.id)
            case Ok(n) =>
              && (forall row :: row in claimed ==> !Breaks(c, w, row))
              && n == |set id | id in IdsOf(claimed) && id in t
                                && (!(t[id].content.name in c.subscribers && c.parses(id, t[id].content))
                                    || (Delivers(c, w, id, t[id].content) && w.stamp(id).Acked?))|
  {
    var claimed := Claims(t, w, limit);
    KeepMembers(c, claimed, true);
    AbortIs(c, w, Keep(c, claimed, true));
    assert forall row :: row in claimed && Breaks(c, w, row) ==> row in Keep(c, claimed, true);
    CountedIs(c, t, w, IdsOf(claimed));
  }

  lemma CountedIs(c: Contracts, t: Table, w: World, batch: set<Id>)
    ensures CountedOf(c, t, w, batch)
            == set id | id in batch && id in t
                        && (!(t[id].content.name in c.subscribers && c.parses(id, t[id].content))
                            || (Delivers(c, w, id, t[id].content) && w.stamp(id).Acked?))
  {
  }
}
