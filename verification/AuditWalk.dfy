/** The audit listing as a client sees it: pages joined by opaque cursor strings. */
module AuditWalk {
  import opened Common
  import opened Ordering
  import opened CursorCodec
  import opened KeysetPagination

  /** How instants and ids are written; ids are read back as the database compares them. */
  datatype Wire = Wire(dates: DateText, uuid: Id -> string, read: string -> Id)

  ghost predicate Renders(w: Wire, table: set<Key>) {
    Lawful(w.dates) && forall k :: k in table ==> IsUuidV7(w.uuid(k.id)) && w.read(w.uuid(k.id)) == k.id
  }

  datatype WirePage = WirePage(entries: seq<Key>, hasMore: bool, lastCursor: Option<string>)

  /** An absent or empty cursor starts from the top. */
  function DecodeOptional(w: Wire, raw: Option<string>): Result<Option<Key>, Malformed> {
    if raw.None? || raw.value == "" then Ok(None)
    else
      match DecodeCursor(w.dates, raw.value)
      case Err(e) => Err(e)
      case Ok(c) => Ok(Some(Key(c.sortValue, w.read(c.id))))
  }

  /** No cursor and the empty one start from the top; any other is refused exactly when it does not decode. */
  lemma CursorsAreRead(w: Wire, raw: Option<string>)
    ensures DecodeOptional(w, raw) == Ok(None) <==> raw == None || raw == Some("")
    ensures DecodeOptional(w, raw).Err? <==> raw.Some? && raw != Some("") && DecodeCursor(w.dates, raw.value).Err?
  {
  }

  function EncodeKey(w: Wire, k: Key): string
    requires Ascii(w.dates.show(k.at)) && Ascii(w.uuid(k.id))
  {
    EncodeCursor(w.dates, k.at, w.uuid(k.id))
  }

  lemma EncodeKeyRoundTrip(w: Wire, table: set<Key>, k: Key)
    requires Renders(w, table) && k in table
    ensures Ascii(w.dates.show(k.at)) && Ascii(w.uuid(k.id))
    ensures DecodeOptional(w, Some(EncodeKey(w, k))) == Ok(Some(k))
  {
    CursorRoundTrip(w.dates, k.at, w.uuid(k.id));
    assert LastIndexOf(Text(FromBase64Url("")), ':') == -1;
  }

  ghost function ExecuteWire(w: Wire, table: set<Key>, raw: Option<string>, limit: nat): Result<WirePage, Malformed>
    requires Renders(w, table)
  {
    match DecodeOptional(w, raw)
    case Err(e) => Err(e)
    case Ok(cursor) =>
      var page := Execute(table, cursor, limit);
      Ok(WirePage(page.entries, page.hasMore,
                  if page.lastCursor.None? then None
                  else
                    LastIsListed(table, cursor, limit);
                    EncodeKeyRoundTrip(w, table, page.lastCursor.value);
                    Some(EncodeKey(w, page.lastCursor.value))))
  }

  lemma LastIsListed(table: set<Key>, cursor: Option<Key>, limit: nat)
    ensures var page := Execute(table, cursor, limit);
            page.lastCursor.Some? ==> page.lastCursor.value in page.entries && page.lastCursor.value in table
  {
    PageIs(table, cursor, limit);
  }

  /** A client that sends each page's cursor back to get the next one. */
  ghost predicate IsWireWalk(w: Wire, tables: seq<set<Key>>, pages: seq<WirePage>, raw: Option<string>, limit: nat)
    requires forall i :: 0 <= i < |tables| ==> Renders(w, tables[i])
    decreases |pages|
  {
    && |pages| == |tables| && pages != []
    && ExecuteWire(w, tables[0], raw, limit) == Ok(pages[0])
    && (|pages| > 1 ==> pages[0].hasMore && IsWireWalk(w, tables[1..], pages[1..], pages[0].lastCursor, limit))
  }

  function KeyPage(p: WirePage): Page {
    Page(p.entries, p.hasMore, if p.entries == [] then None else Some(p.entries[|p.entries| - 1]))
  }

  function KeyPages(pages: seq<WirePage>): (r: seq<Page>)
    ensures |r| == |pages| && forall i :: 0 <= i < |r| ==> r[i] == KeyPage(pages[i])
  {
    seq(|pages|, i requires 0 <= i < |pages| => KeyPage(pages[i]))
  }

  /** One request answers with the page of the decoded key, and its cursor decodes to its last row. */
  lemma WirePageIsPage(w: Wire, table: set<Key>, raw: Option<string>, cursor: Option<Key>, limit: nat)
    requires Renders(w, table) && DecodeOptional(w, raw) == Ok(cursor)
    ensures ExecuteWire(w, table, raw, limit).Ok?
    ensures var p := ExecuteWire(w, table, raw, limit).value;
            && KeyPage(p) == Execute(table, cursor, limit)
            && (p.entries != [] ==> DecodeOptional(w, p.lastCursor) == Ok(Some(p.entries[|p.entries| - 1])))
  {
    LastIsListed(table, cursor, limit);
    var page := Execute(table, cursor, limit);
    if page.lastCursor.Some? {
      EncodeKeyRoundTrip(w, table, page.lastCursor.value);
    }
  }

  lemma FirstWirePage(w: Wire, table: set<Key>, page: WirePage, raw: Option<string>, cursor: Option<Key>, limit: nat)
    requires Renders(w, table) && DecodeOptional(w, raw) == Ok(cursor) && limit > 0
    requires ExecuteWire(w, table, raw, limit) == Ok(page)
    ensures KeyPage(page) == Execute(table, cursor, limit)
    ensures page.hasMore ==> DecodeOptional(w, page.lastCursor) == Ok(KeyPage(page).lastCursor)
  {
    WirePageIsPage(w, table, raw, cursor, limit);
    PageIs(table, cursor, limit);
  }

  /** Following the strings is following the keys. */
  lemma {:induction false} WireWalkIsWalk(
    w: Wire, tables: seq<set<Key>>, pages: seq<WirePage>, raw: Option<string>, cursor: Option<Key>, limit: nat)
    requires forall i :: 0 <= i < |tables| ==> Renders(w, tables[i])
    requires IsWireWalk(w, tables, pages, raw, limit) && DecodeOptional(w, raw) == Ok(cursor) && limit > 0
    ensures IsWalk(tables, KeyPages(pages), cursor, limit)
    decreases |pages|
  {
    FirstWirePage(w, tables[0], pages[0], raw, cursor, limit);
    var rest := pages[1..];
    assert KeyPages(pages)[1..] == KeyPages(rest);
    if |pages| > 1 {
      WireWalkIsWalk(w, tables[1..], rest, pages[0].lastCursor, KeyPage(pages[0]).lastCursor, limit);
    }
  }

  /**
   * Following cursors from the first page to the last returns every row that was
   * present throughout exactly once, newest first, whatever else is written meanwhile.
   */
  lemma ClientsSeeEveryRowOnce(w: Wire, tables: seq<set<Key>>, pages: seq<WirePage>, limit: nat, k: Key)
    requires forall i :: 0 <= i < |tables| ==> Renders(w, tables[i])
    requires IsWireWalk(w, tables, pages, None, limit) && limit > 0 && !pages[|pages| - 1].hasMore
    requires Throughout(tables, k)
    ensures var rows := Rows(KeyPages(pages));
            && InOrder(Descending, rows)
            && exists i :: 0 <= i < |rows| && rows[i] == k && forall j :: 0 <= j < |rows| && rows[j] == k ==> j == i
  {
    WireWalkIsWalk(w, tables, pages, None, None, limit);
    WalkIsDescending(tables, KeyPages(pages), None, limit);
    WalkIsComplete(tables, KeyPages(pages), limit, k);
  }
}
