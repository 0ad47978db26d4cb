/** Keyset pages of the audit log, newest first, and the walk that follows their cursors. */
module KeysetPagination {
  import opened Common
  import opened Ordering

  datatype Page = Page(entries: seq<Key>, hasMore: bool, lastCursor: Option<Key>)

  /** The WHERE clause: strictly older than the cursor, the id breaking ties. */
  predicate Beyond(cursor: Option<Key>, k: Key) {
    cursor.None? || k.at < cursor.value.at || (k.at == cursor.value.at && k.id < cursor.value.id)
  }

  function Older(table: set<Key>, cursor: Option<Key>): set<Key> {
    set k | k in table && Beyond(cursor, k)
  }

  function ListPage(table: set<Key>, cursor: Option<Key>, limit: nat): seq<Key> {
    Take(Descending, Older(table, cursor), limit)
  }

  /** One row more than the page is asked for, to learn whether another page follows. */
  function Execute(table: set<Key>, cursor: Option<Key>, limit: nat): Page {
    var rows := ListPage(table, cursor, limit + 1);
    var hasMore := |rows| > limit;
    var page := if hasMore then rows[..limit] else rows;
    Page(page, hasMore, if page == [] then None else Some(page[|page| - 1]))
  }

  /** A page is the next `limit` rows in order; another follows exactly when rows are left. */
  lemma PageIs(table: set<Key>, cursor: Option<Key>, limit: nat)
    ensures var p := Execute(table, cursor, limit);
            && p.entries == Take(Descending, Older(table, cursor), limit)
            && (p.hasMore <==> |Older(table, cursor)| > limit)
            && InOrder(Descending, p.entries)
            && (forall k :: k in p.entries ==> k in Older(table, cursor))
  {
    SortedInOrder(Descending, Older(table, cursor));
    TakeMembers(Descending, Older(table, cursor), limit);
  }

  // ----- walks -----

  /** Each page continues from the last one's cursor, over the table as it then is. */
  ghost predicate IsWalk(tables: seq<set<Key>>, pages: seq<Page>, cursor: Option<Key>, limit: nat)
    decreases |pages|
  {
    && |pages| == |tables| && pages != []
    && pages[0] == Execute(tables[0], cursor, limit)
    && (|pages| > 1 ==> pages[0].hasMore && IsWalk(tables[1..], pages[1..], pages[0].lastCursor, limit))
  }

  function Rows(pages: seq<Page>): seq<Key> {
    if pages == [] then [] else pages[0].entries + Rows(pages[1..])
  }

  ghost predicate Complete(pages: seq<Page>) {
    pages != [] && !pages[|pages| - 1].hasMore
  }

  /** Present for the whole walk. */
  ghost predicate Throughout(tables: seq<set<Key>>, k: Key) {
    forall i :: 0 <= i < |tables| ==> k in tables[i]
  }

  lemma RowsAreBeyond(tables: seq<set<Key>>, pages: seq<Page>, cursor: Option<Key>, limit: nat)
    requires IsWalk(tables, pages, cursor, limit) && limit > 0
    ensures forall k :: k in Rows(pages) ==> Beyond(cursor, k)
    decreases |pages|
  {
    PageIs(tables[0], cursor, limit);
    if |pages| > 1 {
      var last := pages[0].entries[|pages[0].entries| - 1];
      assert last in Older(tables[0], cursor);
      RowsAreBeyond(tables[1..], pages[1..], pages[0].lastCursor, limit);
    }
  }

  lemma InOrderConcat(a: seq<Key>, b: seq<Key>)
    requires InOrder(Descending, a) && InOrder(Descending, b)
    requires a != [] && forall k :: k in b ==> Precedes(Descending, a[|a| - 1], k)
    ensures InOrder(Descending, a + b)
  {
    var all := a + b;
    forall i, j | 0 <= i < j < |all| ensures Precedes(Descending, all[i], all[j]) {
      if i < |a| <= j {
        assert b[j - |a|] in b;
        assert i == |a| - 1 || Precedes(Descending, a[i], a[|a| - 1]);
      }
    }
  }

  /** Rows come out strictly newest to oldest, so no row is repeated, whatever is written meanwhile. */
  lemma {:induction false} WalkIsDescending(tables: seq<set<Key>>, pages: seq<Page>, cursor: Option<Key>, limit: nat)
    requires IsWalk(tables, pages, cursor, limit) && limit > 0
    ensures InOrder(Descending, Rows(pages))
    decreases |pages|
  {
    PageIs(tables[0], cursor, limit);
    var page := pages[0].entries;
    if |pages| > 1 {
      WalkIsDescending(tables[1..], pages[1..], pages[0].lastCursor, limit);
      RowsAreBeyond(tables[1..], pages[1..], pages[0].lastCursor, limit);
      InOrderConcat(page, Rows(pages[1..]));
    } else {
      assert Rows(pages[1..]) == [];
      assert Rows(pages) == page;
    }
  }

  lemma {:induction false} WalkFinds(tables: seq<set<Key>>, pages: seq<Page>, cursor: Option<Key>, limit: nat, k: Key)
    requires IsWalk(tables, pages, cursor, limit) && limit > 0 && Complete(pages)
    requires Throughout(tables, k) && Beyond(cursor, k)
    ensures k in Rows(pages)
    decreases |pages|
  {
    var older := Older(tables[0], cursor);
    assert k in tables[0] && k in older;
    PageIs(tables[0], cursor, limit);
    var page := pages[0].entries;
    TakeSetIsTake(Descending, older, limit);
    if !pages[0].hasMore {
      TakeAll(Descending, older, limit);
      assert k in Elements(page);
    } else if k !in page {
      var last := page[|page| - 1];
      assert last in Elements(page) && k !in Elements(page);
      TakenFirst(Descending, older, limit, last, k);
      WalkFinds(tables[1..], pages[1..], pages[0].lastCursor, limit, k);
    }
  }

  lemma InOrderDistinct(r: seq<Key>)
    requires InOrder(Descending, r)
    ensures forall i, j :: 0 <= i < |r| && 0 <= j < |r| && r[i] == r[j] ==> i == j
  {
    forall i, j | 0 <= i < j < |r| ensures r[i] != r[j] {
      assert Precedes(Descending, r[i], r[j]);
    }
  }

  /** A finished walk returns every row that was there throughout, and each exactly once. */
  lemma WalkIsComplete(tables: seq<set<Key>>, pages: seq<Page>, limit: nat, k: Key)
    requires IsWalk(tables, pages, None, limit) && limit > 0 && Complete(pages) && Throughout(tables, k)
    ensures exists i :: 0 <= i < |Rows(pages)| && Rows(pages)[i] == k
                        && forall j :: 0 <= j < |Rows(pages)| && Rows(pages)[j] == k ==> j == i
  {
    WalkFinds(tables, pages, None, limit, k);
    WalkIsDescending(tables, pages, None, limit);
    var rows := Rows(pages);
    var i :| 0 <= i < |rows| && rows[i] == k;
    InOrderDistinct(rows);
  }

  lemma {:induction false} RowsWerePresent(tables: seq<set<Key>>, pages: seq<Page>, cursor: Option<Key>, limit: nat,
                                           k: Key)
    requires IsWalk(tables, pages, cursor, limit) && k in Rows(pages)
    ensures exists i :: 0 <= i < |tables| && k in tables[i]
    decreases |pages|
  {
    PageIs(tables[0], cursor, limit);
    if k in pages[0].entries {
      assert k in tables[0];
    } else {
      assert k in Rows(pages[1..]) && pages[1..] != [];
      RowsWerePresent(tables[1..], pages[1..], pages[0].lastCursor, limit, k);
      var i :| 0 <= i < |tables[1..]| && k in tables[1..][i];
      assert k in tables[i + 1];
    }
  }

  /** Over an unchanging table, a finished walk is the whole table in order. */
  lemma FixedWalkIsTheTable(table: set<Key>, pages: seq<Page>, limit: nat)
    requires IsWalk(seq(|pages|, _ => table), pages, None, limit) && limit > 0 && Complete(pages)
    ensures Rows(pages) == Sorted(Descending, table)
  {
    var tables := seq(|pages|, _ => table);
    WalkIsDescending(tables, pages, None, limit);
    forall k ensures k in Rows(pages) <==> k in table {
      if k in table {
        WalkFinds(tables, pages, None, limit, k);
      }
      if k in Rows(pages) {
        RowsWerePresent(tables, pages, None, limit, k);
      }
    }
    SortedUnique(Descending, table, Rows(pages));
  }

  lemma {:induction false} FullPages(tables: seq<set<Key>>, pages: seq<Page>, cursor: Option<Key>, limit: nat)
    requires IsWalk(tables, pages, cursor, limit) && limit > 0
    ensures |Rows(pages)| >= Budget(|pages| - 1, limit)
    decreases |pages|
  {
    PageIs(tables[0], cursor, limit);
    if |pages| > 1 {
      FullPages(tables[1..], pages[1..], pages[0].lastCursor, limit);
    }
  }

  /** Over an unchanging table every walk ends: it has no room for more pages than rows allow. */
  lemma FixedWalkTerminates(table: set<Key>, pages: seq<Page>, limit: nat)
    requires IsWalk(seq(|pages|, _ => table), pages, None, limit) && limit > 0
    ensures (|pages| - 1) * limit <= |table|
  {
    var tables := seq(|pages|, _ => table);
    FullPages(tables, pages, None, limit);
    BudgetIsProduct(|pages| - 1, limit);
    WalkIsDescending(tables, pages, None, limit);
    ElementsSize(Descending, Rows(pages));
    forall k | k in Rows(pages) ensures k in table {
      RowsWerePresent(tables, pages, None, limit, k);
    }
    SubsetCardinality(Elements(Rows(pages)), table);
  }
}
