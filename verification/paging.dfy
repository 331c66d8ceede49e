// Notification history: keyset pages over a table that other transactions keep
// adding to, and read marks that only ever go up.
module Paging {
  import opened Prelude

  const DEFAULT_PAGE := 20
  const MAXIMUM_PAGE := 100

  // The page size a request ends up with.
  function PageSize(requested: int): nat {
    if requested < 1 then DEFAULT_PAGE else Min(requested, MAXIMUM_PAGE)
  }

  type Id = nat

  datatype Key = Key(createdAt: int, id: Id)

  datatype Row = Row(owner: string, createdAt: int, id: Id, readAt: Option<int>)

  function KeyOf(r: Row): Key {
    Key(r.createdAt, r.id)
  }

  // The row comparison of the query: (created_at, id) < (created_at, id).
  predicate Older(a: Key, b: Key) {
    a.createdAt < b.createdAt || (a.createdAt == b.createdAt && a.id < b.id)
  }

  predicate Selected(r: Row, owner: string, cursor: Option<Key>) {
    r.owner == owner && (cursor.None? || Older(KeyOf(r), cursor.value))
  }

  predicate Descending(rows: seq<Row>) {
    forall i, j :: 0 <= i < j < |rows| ==> Older(KeyOf(rows[j]), KeyOf(rows[i]))
  }

  // Later first, and the larger id first among rows of the same time.
  ghost predicate NewestFirst(rows: seq<Row>) {
    forall i, j :: 0 <= i < j < |rows| ==>
      rows[i].createdAt > rows[j].createdAt || (rows[i].createdAt == rows[j].createdAt && rows[i].id > rows[j].id)
  }

  lemma DescendingIsNewestFirst(rows: seq<Row>)
    ensures Descending(rows) <==> NewestFirst(rows)
  {
    assert forall i, j :: 0 <= i < j < |rows| ==>
      (Older(KeyOf(rows[j]), KeyOf(rows[i])) <==>
         rows[i].createdAt > rows[j].createdAt || (rows[i].createdAt == rows[j].createdAt && rows[i].id > rows[j].id));
  }

  // The primary key.
  predicate DistinctIds(table: seq<Row>) {
    forall i, j :: 0 <= i < j < |table| ==> table[i].id != table[j].id
  }

  datatype Page = Page(rows: seq<Row>, unread: nat, next: Option<Key>)

  function CountUnread(table: seq<Row>, owner: string): nat {
    if |table| == 0 then 0
    else
      var last := table[|table| - 1];
      CountUnread(table[..|table| - 1], owner) + (if last.owner == owner && last.readAt.None? then 1 else 0)
  }

  // Where the owner's rows without a read mark are; there are as many as are counted.
  ghost function UnreadAt(table: seq<Row>, owner: string): set<nat> {
    set i | 0 <= i < |table| && table[i].owner == owner && table[i].readAt.None?
  }

  lemma {:induction false} CountUnreadMeans(table: seq<Row>, owner: string)
    ensures CountUnread(table, owner) == |UnreadAt(table, owner)|
  {
    if |table| == 0 {
      assert UnreadAt(table, owner) == {};
    } else {
      var n := |table| - 1;
      CountUnreadMeans(table[..n], owner);
      var before := UnreadAt(table[..n], owner);
      var own := table[n].owner == owner && table[n].readAt.None?;
      assert CountUnread(table, owner) == CountUnread(table[..n], owner) + (if own then 1 else 0);
      hide CountUnread;
      assert n !in before;
      assert UnreadAt(table, owner) == (if own then before + {n} else before);
    }
  }

  // Some selected row comes after everything on the page.
  ghost predicate MoreAfter(table: seq<Row>, owner: string, cursor: Option<Key>, rows: seq<Row>) {
    exists r :: r in table && Selected(r, owner, cursor) && r !in rows
  }

  // A page holds the newest selected rows of its snapshot, newest first, and all of
  // them unless it is full. It has a cursor, the key of its last row, exactly when
  // the snapshot held a further row.
  ghost predicate IsPage(table: seq<Row>, owner: string, cursor: Option<Key>, size: nat, page: Page) {
    && Descending(page.rows) && |page.rows| <= size
    && (forall r :: r in page.rows ==> r in table && Selected(r, owner, cursor))
    && (forall r, q :: r in table && Selected(r, owner, cursor) && r !in page.rows && q in page.rows ==>
          Older(KeyOf(r), KeyOf(q)))
    && (page.next.Some? <==> MoreAfter(table, owner, cursor, page.rows))
    && (page.next.Some? ==> |page.rows| == size > 0 && page.next.value == KeyOf(page.rows[size - 1]))
    && page.unread == CountUnread(table, owner)
  }

  // ----- The store ------------------------------------------------------------------

  // Where ORDER BY puts a row.
  function Placed(rows: seq<Row>, r: Row): seq<Row> {
    if |rows| == 0 || Older(KeyOf(rows[0]), KeyOf(r)) then [r] + rows else [rows[0]] + Placed(rows[1..], r)
  }

  lemma {:induction false} PlacedSorts(rows: seq<Row>, r: Row)
    requires Descending(rows) && forall q :: q in rows ==> q.id != r.id
    ensures Descending(Placed(rows, r))
    ensures forall q :: q in Placed(rows, r) <==> q in rows || q == r
    ensures |Placed(rows, r)| == |rows| + 1
  {
    if |rows| > 0 && !Older(KeyOf(rows[0]), KeyOf(r)) {
      var rest := Placed(rows[1..], r);
      PlacedSorts(rows[1..], r);
      assert rows[0] in rows;
      forall j | 0 <= j < |rest|
        ensures Older(KeyOf(rest[j]), KeyOf(rows[0]))
      {
        assert rest[j] in rest;
      }
    }
  }

  class NotificationStore {
    var table: seq<Row>

    constructor ()
      ensures table == []
    {
      table := [];
    }

    // The selected rows in page order: the query without its LIMIT.
    method Select(owner: string, cursor: Option<Key>) returns (selected: seq<Row>)
      requires DistinctIds(table)
      ensures Descending(selected) && NewestFirst(selected)
      ensures forall r :: r in selected <==> r in table && Selected(r, owner, cursor)
    {
      selected := [];
      var i := 0;
      while i < |table|
        invariant 0 <= i <= |table|
        invariant Descending(selected)
        invariant forall r :: r in selected <==> r in table[..i] && Selected(r, owner, cursor)
      {
        assert table[..i + 1] == table[..i] + [table[i]];
        if Selected(table[i], owner, cursor) {
          PlacedSorts(selected, table[i]);
          selected := Placed(selected, table[i]);
        }
        i := i + 1;
      }
      assert table[..i] == table;
      DescendingIsNewestFirst(selected);
    }

    // ListNotificationsPage and the cursor the handler makes of it: one row more
    // than asked for tells whether there is a next page.
    method ListPage(owner: string, cursor: Option<Key>, requested: int) returns (page: Page)
      requires DistinctIds(table)
      ensures IsPage(table, owner, cursor, PageSize(requested), page)
      ensures IsNewestPage(table, owner, cursor, requested, page)
    {
      var size := PageSize(requested);
      var selected := Select(owner, cursor);
      var unread := CountUnread(table, owner);
      hide CountUnread, DistinctIds, PageSize, NewestFirst, Descending, Selected, IsPage, IsNewestPage;
      var rows := if |selected| > size + 1 then selected[..size + 1] else selected;
      if |rows| > size {
        rows := rows[..size];
        assert rows == selected[..size];
        page := Page(rows, unread, Some(KeyOf(rows[size - 1])));
      } else {
        page := Page(rows, unread, None);
      }
      CutIsPage(table, owner, cursor, size, selected, page);
      PageIsNewest(table, owner, cursor, requested, page);
    }

    // One insert, by a transfer's transaction. Its created_at is the start of that
    // transaction, so it need not be the newest.
    method Insert(r: Row)
      requires forall q :: q in table ==> q.id != r.id
      modifies this
      ensures table == old(table) + [r]
    {
      table := table + [r];
    }

    // MarkNotificationReadTx: None when the owner has no such row.
    method MarkRead(owner: string, id: Id, now: int) returns (unread: Option<nat>)
      modifies this
      ensures table == Marked(old(table), owner, {id}, now)
      ensures |table| == |old(table)| && forall k :: 0 <= k < |table| ==>
                table[k] == if old(table)[k].id == id && old(table)[k].owner == owner && old(table)[k].readAt.None?
                            then old(table)[k].(readAt := Some(now)) else old(table)[k]
      ensures unread.None? <==> forall r :: r in old(table) ==> !(r.id == id && r.owner == owner)
      ensures unread.Some? ==> unread.value == CountUnread(table, owner)
    {
      var found := false;
      var i := 0;
      while i < |table|
        invariant 0 <= i <= |table| == |old(table)|
        invariant forall k :: 0 <= k < i ==>
                    table[k] == if old(table)[k].id == id then MarkedRow(old(table)[k], owner, now) else old(table)[k]
        invariant forall k :: i <= k < |table| ==> table[k] == old(table)[k]
        invariant found <==> exists k :: 0 <= k < i && old(table)[k].id == id && old(table)[k].owner == owner
      {
        if table[i].id == id && table[i].owner == owner {
          found := true;
          var r := table[i];
          table := table[i := r.(readAt := if r.readAt.Some? then r.readAt else Some(now))];
        }
        i := i + 1;
      }
      assert table == Marked(old(table), owner, {id}, now);
      if !found { return None; }
      var count := CountUnread(table, owner);
      return Some(count);
    }

    // MarkAllNotificationsReadTx.
    method MarkAllRead(owner: string, now: int) returns (unread: nat)
      modifies this
      ensures table == MarkedAll(old(table), owner, now)
      ensures |table| == |old(table)| && forall k :: 0 <= k < |table| ==>
                table[k] == if old(table)[k].owner == owner && old(table)[k].readAt.None?
                            then old(table)[k].(readAt := Some(now)) else old(table)[k]
      ensures unread == CountUnread(table, owner) == 0
    {
      var i := 0;
      while i < |table|
        invariant 0 <= i <= |table| == |old(table)|
        invariant forall k :: 0 <= k < i ==> table[k] == MarkedRow(old(table)[k], owner, now)
        invariant forall k :: i <= k < |table| ==> table[k] == old(table)[k]
      {
        if table[i].owner == owner && table[i].readAt.None? {
          table := table[i := table[i].(readAt := Some(now))];
        }
        i := i + 1;
      }
      assert table == MarkedAll(old(table), owner, now);
      NoneUnread(old(table), owner, now);
      return CountUnread(table, owner);
    }
  }

  function MarkedRow(r: Row, owner: string, now: int): Row {
    if r.owner == owner && r.readAt.None? then r.(readAt := Some(now)) else r
  }

  function MarkedAll(table: seq<Row>, owner: string, now: int): seq<Row> {
    seq(|table|, i requires 0 <= i < |table| => MarkedRow(table[i], owner, now))
  }

  function Marked(table: seq<Row>, owner: string, ids: set<Id>, now: int): seq<Row> {
    seq(|table|, i requires 0 <= i < |table| =>
      if table[i].id in ids then MarkedRow(table[i], owner, now) else table[i])
  }

  // What a page is in the fields of the rows: the owner's rows below the cursor, newest
  // first, none left out that is newer than one of them, as many as were asked for within
  // 1 to 100 or 20 if fewer than one was, and a cursor at the last of them exactly when a
  // row was left out.
  ghost predicate IsNewestPage(table: seq<Row>, owner: string, cursor: Option<Key>, requested: int, page: Page) {
    var wanted := if requested < 1 then 20 else if requested > 100 then 100 else requested;
    && NewestFirst(page.rows) && |page.rows| <= wanted
    && (forall r :: r in page.rows ==> r in table && r.owner == owner && BelowCursor(r, cursor))
    && (forall r, q :: r in table && r.owner == owner && BelowCursor(r, cursor) && r !in page.rows && q in page.rows ==>
          r.createdAt < q.createdAt || (r.createdAt == q.createdAt && r.id < q.id))
    && (page.next.Some? <==> exists r :: r in table && r.owner == owner && BelowCursor(r, cursor) && r !in page.rows)
    && (page.next.Some? ==>
          |page.rows| == wanted
          && page.next.value == Key(page.rows[wanted - 1].createdAt, page.rows[wanted - 1].id))
    && page.unread == |UnreadAt(table, owner)|
  }

  ghost predicate BelowCursor(r: Row, cursor: Option<Key>) {
    cursor.Some? ==>
      r.createdAt < cursor.value.createdAt || (r.createdAt == cursor.value.createdAt && r.id < cursor.value.id)
  }

  lemma PageIsNewest(table: seq<Row>, owner: string, cursor: Option<Key>, requested: int, page: Page)
    requires IsPage(table, owner, cursor, PageSize(requested), page)
    ensures IsNewestPage(table, owner, cursor, requested, page)
  {
    DescendingIsNewestFirst(page.rows);
    CountUnreadMeans(table, owner);
    hide CountUnread, Descending, NewestFirst;
    assert forall r :: Selected(r, owner, cursor) <==> r.owner == owner && BelowCursor(r, cursor);
    hide BelowCursor, Selected;
  }

  // A page begins with the newest of all rows it could show.
  lemma NewestComesFirst(table: seq<Row>, owner: string, cursor: Option<Key>, requested: int, page: Page, r: Row)
    requires IsNewestPage(table, owner, cursor, requested, page)
    requires r in table && r.owner == owner && BelowCursor(r, cursor)
    ensures |page.rows| > 0
    ensures var first := page.rows[0];
            r == first || r.createdAt < first.createdAt || (r.createdAt == first.createdAt && r.id < first.id)
  {
    hide BelowCursor;
    if r in page.rows {
      var i :| 0 <= i < |page.rows| && page.rows[i] == r;
    } else {
      assert page.rows[0] in page.rows;
    }
  }

  // As many as are wanted, and a cursor if that leaves something out.
  lemma CutIsPage(table: seq<Row>, owner: string, cursor: Option<Key>, size: nat, selected: seq<Row>, page: Page)
    requires Descending(selected) && size > 0 && page.unread == CountUnread(table, owner)
    requires forall r :: r in selected <==> r in table && Selected(r, owner, cursor)
    requires |selected| <= size ==> page.rows == selected && page.next.None?
    requires |selected| > size ==> page.rows == selected[..size] && page.next == Some(KeyOf(selected[size - 1]))
    ensures IsPage(table, owner, cursor, size, page)
  {
    hide CountUnread, Selected;
    if |selected| > size {
      assert selected[size] in selected;
      forall k | 0 <= k < size
        ensures selected[size] != selected[k]
      {
        assert Older(KeyOf(selected[size]), KeyOf(selected[k]));
      }
      assert selected[size] !in selected[..size];
    }
  }

  lemma {:induction false} NoneUnread(table: seq<Row>, owner: string, now: int)
    ensures CountUnread(MarkedAll(table, owner, now), owner) == 0
  {
    if |table| > 0 {
      NoneUnread(table[..|table| - 1], owner, now);
      assert MarkedAll(table, owner, now)[..|table| - 1] == MarkedAll(table[..|table| - 1], owner, now);
    }
  }

  // ----- Read marks only go up -----------------------------------------------------------

  // What any transaction may do to the table between two snapshots: rows stay, under
  // the same key, and a read mark once set stays as it is.
  ghost predicate Grows(before: seq<Row>, after: seq<Row>) {
    forall r :: r in before ==>
      exists q :: q in after && q.owner == r.owner && KeyOf(q) == KeyOf(r) && (r.readAt.Some? ==> q == r)
  }

  lemma MarkingGrows(table: seq<Row>, owner: string, ids: set<Id>, now: int)
    ensures Grows(table, Marked(table, owner, ids, now))
    ensures Grows(table, MarkedAll(table, owner, now))
  {
    forall r | r in table
      ensures exists q :: q in Marked(table, owner, ids, now) && q.owner == r.owner && KeyOf(q) == KeyOf(r)
                          && (r.readAt.Some? ==> q == r)
      ensures exists q :: q in MarkedAll(table, owner, now) && q.owner == r.owner && KeyOf(q) == KeyOf(r)
                          && (r.readAt.Some? ==> q == r)
    {
      var i :| 0 <= i < |table| && table[i] == r;
      assert Marked(table, owner, ids, now)[i] in Marked(table, owner, ids, now);
      assert MarkedAll(table, owner, now)[i] in MarkedAll(table, owner, now);
    }
  }

  lemma GrowsOn(a: seq<Row>, b: seq<Row>, c: seq<Row>)
    requires Grows(a, b) && Grows(b, c)
    ensures Grows(a, c)
  {
    forall r | r in a
      ensures exists q :: q in c && q.owner == r.owner && KeyOf(q) == KeyOf(r) && (r.readAt.Some? ==> q == r)
    {
      var m :| m in b && m.owner == r.owner && KeyOf(m) == KeyOf(r) && (r.readAt.Some? ==> m == r);
      var q :| q in c && q.owner == m.owner && KeyOf(q) == KeyOf(m) && (m.readAt.Some? ==> q == m);
    }
  }

  // ----- Following the cursors ---------------------------------------------------------------

  function CursorFor(pages: seq<Page>, i: nat): Option<Key>
    requires i <= |pages|
  {
    if i == 0 then None else pages[i - 1].next
  }

  // Page i is read from snapshot i with the cursor page i - 1 gave.
  ghost predicate Walk(owner: string, tables: seq<seq<Row>>, requested: seq<int>, pages: seq<Page>) {
    && |tables| == |requested| == |pages| > 0
    && (forall i :: 0 <= i < |pages| ==>
          IsPage(tables[i], owner, CursorFor(pages, i), PageSize(requested[i]), pages[i]))
    && (forall i :: 0 <= i < |pages| - 1 ==> pages[i].next.Some? && Grows(tables[i], tables[i + 1]))
  }

  function AllRows(pages: seq<Page>): seq<Row> {
    if |pages| == 0 then [] else AllRows(pages[..|pages| - 1]) + pages[|pages| - 1].rows
  }

  ghost predicate Returned(pages: seq<Page>, owner: string, k: Key) {
    exists q :: q in AllRows(pages) && q.owner == owner && KeyOf(q) == k
  }

  lemma OlderTrans(a: Key, b: Key, c: Key)
    requires Older(a, b) && (Older(b, c) || b == c)
    ensures Older(a, c)
  {
  }

  lemma WalkPrefix(owner: string, tables: seq<seq<Row>>, requested: seq<int>, pages: seq<Page>)
    requires Walk(owner, tables, requested, pages) && |pages| > 1
    ensures var n := |pages| - 1; Walk(owner, tables[..n], requested[..n], pages[..n])
  {
    hide IsPage, Grows;
    var n := |pages| - 1;
    forall i | 0 <= i < n
      ensures IsPage(tables[..n][i], owner, CursorFor(pages[..n], i), PageSize(requested[..n][i]), pages[..n][i])
    {
      assert CursorFor(pages[..n], i) == CursorFor(pages, i);
    }
  }

  // The last row returned so far is where the next cursor points.
  lemma LastIsCursor(owner: string, tables: seq<seq<Row>>, requested: seq<int>, pages: seq<Page>)
    requires Walk(owner, tables, requested, pages) && pages[|pages| - 1].next.Some?
    ensures |AllRows(pages)| > 0 && KeyOf(AllRows(pages)[|AllRows(pages)| - 1]) == pages[|pages| - 1].next.value
  {
    var n := |pages| - 1;
    assert IsPage(tables[n], owner, CursorFor(pages, n), PageSize(requested[n]), pages[n]);
  }

  lemma {:induction false} WalkDescends(owner: string, tables: seq<seq<Row>>, requested: seq<int>, pages: seq<Page>)
    requires Walk(owner, tables, requested, pages)
    ensures Descending(AllRows(pages))
    ensures forall r :: r in AllRows(pages) ==> r.owner == owner
    decreases |pages|
  {
    var n := |pages| - 1;
    assert IsPage(tables[n], owner, CursorFor(pages, n), PageSize(requested[n]), pages[n]);
    if n == 0 {
      assert AllRows(pages[..0]) == [];
      assert AllRows(pages) == pages[0].rows;
    } else {
      WalkPrefix(owner, tables, requested, pages);
      WalkDescends(owner, tables[..n], requested[..n], pages[..n]);
      LastIsCursor(owner, tables[..n], requested[..n], pages[..n]);
      AppendDescends(AllRows(pages[..n]), pages[n].rows);
    }
  }

  lemma AppendDescends(before: seq<Row>, page: seq<Row>)
    requires Descending(before) && Descending(page) && |before| > 0
    requires forall r :: r in page ==> Older(KeyOf(r), KeyOf(before[|before| - 1]))
    ensures Descending(before + page)
  {
    forall i, j | 0 <= i < |before| && 0 <= j < |page|
      ensures Older(KeyOf(page[j]), KeyOf(before[i]))
    {
      assert page[j] in page;
      OlderTrans(KeyOf(page[j]), KeyOf(before[|before| - 1]), KeyOf(before[i]));
    }
  }

  // Over any number of snapshots rows stay, and read marks stay as they were set.
  lemma {:induction false} GrowsAlong(tables: seq<seq<Row>>)
    requires |tables| > 0 && forall i :: 0 <= i < |tables| - 1 ==> Grows(tables[i], tables[i + 1])
    ensures Grows(tables[0], tables[|tables| - 1])
    decreases |tables|
  {
    hide Grows;
    var n := |tables| - 1;
    if n == 0 {
      GrowsItself(tables[0]);
    } else {
      GrowsAlong(tables[..n]);
      GrowsOn(tables[0], tables[n - 1], tables[n]);
    }
  }

  lemma GrowsItself(table: seq<Row>)
    ensures Grows(table, table)
  {
  }

  // Everything the first snapshot held down to the cursor reached has been returned.
  lemma {:induction false} WalkCovers(owner: string, tables: seq<seq<Row>>, requested: seq<int>, pages: seq<Page>,
                                      r: Row)
    requires Walk(owner, tables, requested, pages)
    requires r in tables[0] && r.owner == owner
    ensures var n := |pages| - 1;
            Returned(pages, owner, KeyOf(r)) || (pages[n].next.Some? && Older(KeyOf(r), pages[n].next.value))
    decreases |pages|
  {
    hide IsPage, Grows, PageSize;
    var n := |pages| - 1;
    RowStays(tables, owner, r);
    var q :| q in tables[n] && q.owner == owner && KeyOf(q) == KeyOf(r);
    if n > 0 {
      WalkPrefix(owner, tables, requested, pages);
      WalkCovers(owner, tables[..n], requested[..n], pages[..n], r);
      assert pages[..n][n - 1] == pages[n - 1];
    }
    assert forall p :: p in AllRows(pages[..n]) || p in pages[n].rows ==> p in AllRows(pages);
    assert IsPage(tables[n], owner, CursorFor(pages, n), PageSize(requested[n]), pages[n]);
    hide Walk, AllRows;
    if n == 0 || !Returned(pages[..n], owner, KeyOf(r)) {
      OnPageOrLater(tables[n], owner, CursorFor(pages, n), PageSize(requested[n]), pages[n], q);
    }
  }

  lemma RowStays(tables: seq<seq<Row>>, owner: string, r: Row)
    requires |tables| > 0 && forall i :: 0 <= i < |tables| - 1 ==> Grows(tables[i], tables[i + 1])
    requires r in tables[0] && r.owner == owner
    ensures exists q :: q in tables[|tables| - 1] && q.owner == owner && KeyOf(q) == KeyOf(r)
  {
    GrowsAlong(tables);
  }

  lemma OnPageOrLater(table: seq<Row>, owner: string, cursor: Option<Key>, size: nat, page: Page, r: Row)
    requires IsPage(table, owner, cursor, size, page) && r in table && Selected(r, owner, cursor)
    ensures r in page.rows || (page.next.Some? && Older(KeyOf(r), page.next.value))
  {
    if r !in page.rows {
      assert MoreAfter(table, owner, cursor, page.rows);
      assert page.rows[size - 1] in page.rows;
    }
  }

  // Following the cursors to the end, with any page sizes and any inserts and marks in
  // between, returns every row the owner had at the start exactly once, newest first.
  lemma KeysetWalk(owner: string, tables: seq<seq<Row>>, requested: seq<int>, pages: seq<Page>)
    requires Walk(owner, tables, requested, pages) && pages[|pages| - 1].next.None?
    ensures NewestFirst(AllRows(pages))
    ensures forall r :: r in tables[0] && r.owner == owner ==> Returned(pages, owner, KeyOf(r))
    ensures forall i, j :: 0 <= i < j < |AllRows(pages)| ==> KeyOf(AllRows(pages)[i]) != KeyOf(AllRows(pages)[j])
  {
    WalkDescends(owner, tables, requested, pages);
    DescendingIsNewestFirst(AllRows(pages));
    forall r | r in tables[0] && r.owner == owner
      ensures Returned(pages, owner, KeyOf(r))
    {
      WalkCovers(owner, tables, requested, pages, r);
    }
    hide Walk, AllRows;
  }

  // Page by page, a cursor is handed out exactly when that page's snapshot held a
  // row older than everything returned so far.
  lemma CursorExactly(owner: string, tables: seq<seq<Row>>, requested: seq<int>, pages: seq<Page>)
    requires Walk(owner, tables, requested, pages)
    ensures var n := |pages| - 1;
            pages[n].next.Some? <==>
            exists r :: r in tables[n] && r.owner == owner && OlderThanAll(r, AllRows(pages))
  {
    var n := |pages| - 1;
    var cursor := CursorFor(pages, n);
    var size := PageSize(requested[n]);
    assert IsPage(tables[n], owner, cursor, size, pages[n]);
    WalkDescends(owner, tables, requested, pages);
    var before, all := AllRows(pages[..n]), AllRows(pages);
    if n > 0 {
      WalkPrefix(owner, tables, requested, pages);
      LastIsCursor(owner, tables[..n], requested[..n], pages[..n]);
      assert before[|before| - 1] in all;
    }
    hide Walk, AllRows, IsPage;
    if pages[n].next.Some? { FurtherRow(tables[n], owner, cursor, size, pages[n], all); }
    if r :| r in tables[n] && r.owner == owner && OlderThanAll(r, all) {
      NoneOlder(tables[n], owner, cursor, size, pages[n], all, r);
    }
  }

  ghost predicate OlderThanAll(r: Row, rows: seq<Row>) {
    forall q :: q in rows ==> r.createdAt < q.createdAt || (r.createdAt == q.createdAt && r.id < q.id)
  }

  lemma FurtherRow(table: seq<Row>, owner: string, cursor: Option<Key>, size: nat, page: Page, all: seq<Row>)
    requires IsPage(table, owner, cursor, size, page) && page.next.Some?
    requires Descending(all) && |page.rows| <= |all| && all[|all| - |page.rows|..] == page.rows
    ensures exists r :: r in table && r.owner == owner && OlderThanAll(r, all)
  {
    var r :| r in table && Selected(r, owner, cursor) && r !in page.rows;
    var last := page.rows[size - 1];
    assert last in page.rows && last == all[|all| - 1];
    forall q | q in all
      ensures Older(KeyOf(r), KeyOf(q))
    {
      OlderTrans(KeyOf(r), KeyOf(last), KeyOf(q));
    }
    assert OlderThanAll(r, all);
  }

  lemma NoneOlder(table: seq<Row>, owner: string, cursor: Option<Key>, size: nat, page: Page, all: seq<Row>, r: Row)
    requires IsPage(table, owner, cursor, size, page)
    requires forall q :: q in page.rows ==> q in all
    requires cursor.Some? ==> exists q :: q in all && KeyOf(q) == cursor.value
    requires r in table && r.owner == owner && OlderThanAll(r, all)
    ensures page.next.Some?
  {
    OnPageOrLater(table, owner, cursor, size, page, r);
  }

  // ----- A page by position --------------------------------------------------------------------

  // The owner's rows in page order.
  ghost predicate IsHistory(table: seq<Row>, owner: string, history: seq<Row>) {
    NewestFirst(history) && forall r :: r in history <==> r in table && r.owner == owner
  }

  // The page after the i-th row of the history (or from the top) is the next slice.
  lemma PageIsSlice(table: seq<Row>, owner: string, history: seq<Row>, i: nat, size: nat, page: Page)
    requires IsHistory(table, owner, history) && i <= |history| && size > 0
    requires IsPage(table, owner, if i == 0 then None else Some(KeyOf(history[i - 1])), size, page)
    ensures page.rows == history[i..Min(i + size, |history|)]
    ensures page.next.Some? <==> i + size < |history|
  {
    DescendingIsNewestFirst(history);
    var rest := history[i..];
    var cursor: Option<Key> := if i == 0 then None else Some(KeyOf(history[i - 1]));
    forall r
      ensures r in rest <==> r in table && Selected(r, owner, cursor)
    {
      RestSelected(history, i, r);
    }
    SameTop(rest, page.rows);
    if |page.rows| < |rest| {
      assert rest[|page.rows|] in rest;
      NotInShorter(rest, |page.rows|);
    }
  }

  lemma RestSelected(history: seq<Row>, i: nat, r: Row)
    requires Descending(history) && i <= |history|
    ensures r in history[i..] <==> r in history && (i == 0 || Older(KeyOf(r), KeyOf(history[i - 1])))
  {
    assert history == history[..i] + history[i..];
    if i > 0 {
      forall q | q in history[..i]
        ensures !Older(KeyOf(q), KeyOf(history[i - 1]))
      {
        var j :| 0 <= j < i && history[j] == q;
      }
    }
    assert forall j :: i <= j < |history| ==> history[i..][j - i] == history[j];
  }

  lemma NotInShorter(rows: seq<Row>, k: nat)
    requires Descending(rows) && k < |rows|
    ensures rows[k] !in rows[..k]
  {
    forall i | 0 <= i < k
      ensures rows[i] != rows[k]
    {
      assert Older(KeyOf(rows[k]), KeyOf(rows[i]));
    }
  }

  // Two descending lists, one of which holds the newest rows of the other.
  lemma {:induction false} SameTop(all: seq<Row>, top: seq<Row>)
    requires Descending(all) && Descending(top)
    requires forall r :: r in top ==> r in all
    requires forall r, q :: r in all && r !in top && q in top ==> Older(KeyOf(r), KeyOf(q))
    ensures |top| <= |all| && top == all[..|top|]
    decreases |all|
  {
    if |top| > 0 {
      HeadsAgree(all, top);
      TailsOf(all);
      TailsOf(top);
      SameTop(all[1..], top[1..]);
    }
  }

  lemma HeadIsNewest(rows: seq<Row>, r: Row)
    requires Descending(rows) && r in rows
    ensures r == rows[0] || Older(KeyOf(r), KeyOf(rows[0]))
  {
  }

  lemma HeadsAgree(all: seq<Row>, top: seq<Row>)
    requires Descending(all) && Descending(top) && |top| > 0
    requires forall r :: r in top ==> r in all
    requires forall r, q :: r in all && r !in top && q in top ==> Older(KeyOf(r), KeyOf(q))
    ensures |all| > 0 && all[0] == top[0]
  {
    assert top[0] in top;
    HeadIsNewest(all, top[0]);
    assert all[0] in all;
    if all[0] in top { HeadIsNewest(top, all[0]); }
  }

  lemma TailsOf(rows: seq<Row>)
    requires Descending(rows) && |rows| > 0
    ensures forall r :: r in rows[1..] <==> r in rows && r != rows[0]
  {
    forall r | r in rows[1..]
      ensures r != rows[0]
    {
      var k :| 1 <= k < |rows| && rows[k] == r;
      assert Older(KeyOf(rows[k]), KeyOf(rows[0]));
    }
  }
}
