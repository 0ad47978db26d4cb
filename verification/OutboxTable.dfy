/**
 * The outbox table and the SQL statements that change it. One statement is one
 * function on the whole table, since the database runs it atomically.
 */
module OutboxTable {
  import opened Common
  import opened Ordering

  const CLAIM_LEASE: Time := 120 * 1000
  const MAX_RELAY_ATTEMPTS: nat := 10

  /** The columns no statement ever rewrites. */
  datatype Content = Content(name: string, occurredAt: Time, schemaVersion: int, payload: string)

  datatype Row = Row(
    content: Content,
    drainedAt: Option<Time>,
    claimToken: Option<Id>,
    claimedAt: Option<Time>,
    attempts: nat,
    lastError: Option<string>,
    deadLetteredAt: Option<Time>)

  type Table = map<Id, Row>

  /** The declared events: who subscribes to a name, and which envelopes parse. */
  datatype Contracts = Contracts(subscribers: map<string, seq<string>>, parses: (Id, Content) -> bool)

  predicate Publishable(c: Contracts, id: Id, content: Content) {
    content.name in c.subscribers && c.parses(id, content)
  }

  function SubscribersOf(c: Contracts, content: Content): seq<string> {
    if content.name in c.subscribers then c.subscribers[content.name] else []
  }

  /** What RETURNING gives the relay for one claimed row. */
  datatype Snapshot = Snapshot(id: Id, content: Content)

  predicate Settled(row: Row) {
    row.drainedAt.Some? || row.deadLetteredAt.Some?
  }

  predicate LeaseFree(row: Row, now: Time) {
    row.claimedAt.None? || row.claimedAt.value < now - CLAIM_LEASE
  }

  predicate Claimable(row: Row, now: Time) {
    !Settled(row) && row.attempts < MAX_RELAY_ATTEMPTS && LeaseFree(row, now)
  }

  predicate Exhausted(row: Row, now: Time) {
    !Settled(row) && row.attempts >= MAX_RELAY_ATTEMPTS && LeaseFree(row, now)
  }

  predicate Holds(t: Table, id: Id, token: Id) {
    id in t && t[id].claimToken == Some(token)
  }

  function Fresh(content: Content): Row {
    Row(content, None, None, None, 0, None, None)
  }

  function Claimed(row: Row, token: Id, now: Time): Row {
    row.(claimedAt := Some(now), claimToken := Some(token), attempts := row.attempts + 1)
  }

  function Drained(row: Row, now: Time): Row {
    row.(drainedAt := Some(now), claimedAt := None, claimToken := None)
  }

  function Released(row: Row, error: string): Row {
    row.(claimedAt := None, claimToken := None, lastError := Some(error))
  }

  function DeadLettered(row: Row, now: Time, error: string): Row {
    row.(deadLetteredAt := Some(now), claimedAt := None, claimToken := None, lastError := Some(error))
  }

  const EXHAUSTED_MESSAGE := "Outbox relay exceeded 10 attempts."

  function Coalesce(error: Option<string>, fallback: string): string {
    if error.Some? then error.value else fallback
  }

  function QuarantineExhausted(t: Table, now: Time): Table {
    map id | id in t ::
      if Exhausted(t[id], now)
      then DeadLettered(t[id], now, Coalesce(t[id].lastError, EXHAUSTED_MESSAGE))
      else t[id]
  }

  function ClaimRows(t: Table, ids: set<Id>, token: Id, now: Time): Table {
    map id | id in t :: if id in ids then Claimed(t[id], token, now) else t[id]
  }

  function QuarantineRows(t: Table, ids: set<Id>, token: Id, now: Time, error: string): Table {
    map id | id in t ::
      if id in ids && Holds(t, id, token) then DeadLettered(t[id], now, error) else t[id]
  }

  function MarkDrained(t: Table, id: Id, token: Id, now: Time): Table {
    if Holds(t, id, token) && t[id].deadLetteredAt.None? then t[id := Drained(t[id], now)] else t
  }

  function ReleaseClaim(t: Table, id: Id, token: Id, error: string): Table {
    if Holds(t, id, token) then t[id := Released(t[id], error)] else t
  }

  /** The keys a claim orders and limits. */
  function ClaimableKeys(t: Table, now: Time): set<Key> {
    set id | id in t && Claimable(t[id], now) :: Key(t[id].content.occurredAt, id)
  }

  predicate Prunable(row: Row, now: Time, retention: Time) {
    || (row.drainedAt.Some? && row.drainedAt.value < now - retention)
    || (row.deadLetteredAt.Some? && row.deadLetteredAt.value < now - retention)
  }

  // ----- publishing -----

  datatype NewEvent = NewEvent(id: Id, content: Content)

  /** INSERT ... ON CONFLICT DO NOTHING, event by event. */
  function InsertAll(t: Table, events: seq<NewEvent>): Table {
    if events == [] then t
    else
      var t' := InsertAll(t, events[..|events| - 1]);
      var e := events[|events| - 1];
      if e.id in t' then t' else t'[e.id := Fresh(e.content)]
  }

  /** All events are validated before any is written, so one bad event writes nothing. */
  method PublishAll(c: Contracts, t: Table, events: seq<NewEvent>) returns (r: Result<Table, string>)
    ensures r.Ok? <==> forall i :: 0 <= i < |events| ==>
              events[i].content.name in c.subscribers && c.parses(events[i].id, events[i].content)
    ensures r.Ok? ==> r.value == InsertAll(t, events)
  {
    for i := 0 to |events|
      invariant forall j :: 0 <= j < i ==> Publishable(c, events[j].id, events[j].content)
    {
      if !Publishable(c, events[i].id, events[i].content) {
        return Err(events[i].content.name);
      }
    }
    r := Ok(InsertAll(t, events));
  }

  /** Of the events with this id, the first has this content. */
  ghost predicate FirstOf(events: seq<NewEvent>, id: Id, content: Content) {
    exists i :: 0 <= i < |events| && events[i] == NewEvent(id, content)
                && forall j :: 0 <= j < i ==> events[j].id != id
  }

  /** Publishing keeps every row already there and adds one fresh row per new id, from the first event that has it. */
  lemma {:induction false} InsertedRows(c: Contracts, t: Table, events: seq<NewEvent>)
    requires forall i :: 0 <= i < |events| ==> Publishable(c, events[i].id, events[i].content)
    ensures InsertAll(t, events).Keys == t.Keys + set e | e in events :: e.id
    ensures forall id :: id in t ==> InsertAll(t, events)[id] == t[id]
    ensures forall id :: id in InsertAll(t, events) && id !in t ==>
              var row := InsertAll(t, events)[id];
              && row == Row(row.content, None, None, None, 0, None, None)
              && row.content.name in c.subscribers && c.parses(id, row.content)
              && FirstOf(events, id, row.content)
  {
    if events != [] {
      var init, e := events[..|events| - 1], events[|events| - 1];
      InsertedRows(c, t, init);
      assert events == init + [e];
      forall id, content | FirstOf(init, id, content) ensures FirstOf(events, id, content) {
        var i :| 0 <= i < |init| && init[i] == NewEvent(id, content) && forall j :: 0 <= j < i ==> init[j].id != id;
        assert events[i] == init[i];
      }
      if e.id !in InsertAll(t, init) {
        assert forall j :: 0 <= j < |init| ==> events[j] == init[j] && init[j] in init;
        assert FirstOf(events, e.id, e.content);
      }
    }
  }

  // ----- the claimed batch -----

  ghost predicate DistinctIds(rows: seq<Snapshot>) {
    forall i, j :: 0 <= i < j < |rows| ==> rows[i].id != rows[j].id
  }

  function IdsOf(rows: seq<Snapshot>): set<Id> {
    set row | row in rows :: row.id
  }

  /** RETURNING, for rows listed in some order. */
  function Returning(t: Table, order: seq<Id>): (rows: seq<Snapshot>)
    requires forall i :: 0 <= i < |order| ==> order[i] in t
    ensures |rows| == |order|
    ensures forall i :: 0 <= i < |rows| ==> rows[i] == Snapshot(order[i], t[order[i]].content)
  {
    seq(|order|, i requires 0 <= i < |order| => Snapshot(order[i], t[order[i]].content))
  }

  /** The rows that do, or do not, meet their contract, in the same order. */
  function Keep(c: Contracts, rows: seq<Snapshot>, fit: bool): seq<Snapshot> {
    if rows == [] then []
    else
      var last := rows[|rows| - 1];
      var init := Keep(c, rows[..|rows| - 1], fit);
      if Publishable(c, last.id, last.content) == fit then init + [last] else init
  }

  lemma {:induction false} KeepMembers(c: Contracts, rows: seq<Snapshot>, fit: bool)
    ensures forall row :: row in Keep(c, rows, fit) <==> row in rows && Publishable(c, row.id, row.content) == fit
  {
    if rows != [] {
      KeepMembers(c, rows[..|rows| - 1], fit);
      assert rows == rows[..|rows| - 1] + [rows[|rows| - 1]];
    }
  }

  lemma {:induction false} KeepDistinct(c: Contracts, rows: seq<Snapshot>, fit: bool)
    requires DistinctIds(rows)
    ensures DistinctIds(Keep(c, rows, fit))
  {
    if rows != [] {
      var init := rows[..|rows| - 1];
      KeepDistinct(c, init, fit);
      KeepMembers(c, init, fit);
      forall i | 0 <= i < |Keep(c, init, fit)| ensures Keep(c, init, fit)[i].id != rows[|rows| - 1].id {
        assert Keep(c, init, fit)[i] in init;
      }
    }
  }

  lemma {:induction false} IdsOfSize(rows: seq<Snapshot>)
    requires DistinctIds(rows)
    ensures |IdsOf(rows)| == |rows|
  {
    if rows != [] {
      var n := |rows| - 1;
      IdsOfSize(rows[..n]);
      assert IdsOf(rows) == IdsOf(rows[..n]) + {rows[n].id} by { assert rows == rows[..n] + [rows[n]]; }
      assert rows[n].id !in IdsOf(rows[..n]);
    }
  }
}
