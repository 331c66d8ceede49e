// Where rows and cursors stand in a history that grows: what a refresh collects lies at
// or above the store's cursor, and what a further page brings lies below it.
module ClientOrder {
  import opened Prelude
  import opened ClientStore
  import opened ClientRuns
  import opened ClientInv
  import opened ClientWindow

  // ----- Positions -----------------------------------------------------------------------

  function At(h: seq<Id>, cursor: Option<Id>): int {
    if cursor.None? then -1 else Position(h, cursor.value)
  }

  predicate Known(h: seq<Id>, cursor: Option<Id>) {
    cursor.Some? ==> cursor.value in h
  }

  lemma {:induction false} PositionIn(h: seq<Id>, id: Id)
    requires id in h
    ensures Position(h, id) < |h| && h[Position(h, id)] == id
  {
    if h[0] != id { PositionIn(h[1..], id); }
  }

  // An insertion moves what is below it down by one, and nothing else.
  lemma InsertMoves(h: seq<Id>, x: Id, at: nat, id: Id)
    requires Distinct(h) && x !in h && at <= |h| && id in h
    ensures var h' := h[..at] + [x] + h[at..];
            && Distinct(h') && id in h'
            && Position(h', id) == Position(h, id) + (if Position(h, id) < at then 0 else 1)
  {
    var h' := h[..at] + [x] + h[at..];
    PositionIn(h, id);
    var p := Position(h, id);
    InsertDistinct(h, x, at);
    var p' := if p < at then p else p + 1;
    assert h'[p'] == id;
    PositionOf(h', p');
  }

  lemma InsertDistinct(h: seq<Id>, x: Id, at: nat)
    requires Distinct(h) && x !in h && at <= |h|
    ensures Distinct(h[..at] + [x] + h[at..])
  {
    var h' := h[..at] + [x] + h[at..];
    forall i, j | 0 <= i < j < |h'|
      ensures h'[i] != h'[j]
    {
      var a := if i <= at then i else i - 1;
      var b := if j <= at then j else j - 1;
      assert i != at ==> h'[i] == h[a];
      assert j != at ==> h'[j] == h[b];
    }
  }

  // Rows at or above, and rows below, a position.
  ghost predicate UpTo(rows: seq<Item>, h: seq<Id>, to: int) {
    forall i :: 0 <= i < |rows| ==> rows[i].id in h && Position(h, rows[i].id) <= to
  }

  ghost predicate Below(rows: seq<Item>, h: seq<Id>, from: int) {
    forall i :: 0 <= i < |rows| ==> rows[i].id in h && Position(h, rows[i].id) > from
  }

  // ----- Pages --------------------------------------------------------------------------------

  // A page lies below its cursor; if there is more, it is full and ends at the next one.
  ghost predicate PageDeep(page: Page, cursor: Option<Id>, h: seq<Id>) {
    && Distinct(Ids(page.items)) && Below(page.items, h, At(h, cursor)) && Known(h, page.next)
    && (page.next.Some? ==> At(h, page.next) >= At(h, cursor) + PAGE && UpTo(page.items, h, At(h, page.next)))
  }

  lemma PageIsDeep(server: Server, cursor: Option<Id>)
    requires Distinct(server.history) && Known(server.history, cursor)
    ensures var page := PageOf(server, cursor);
            && PageDeep(page, cursor, server.history)
            && UpTo(page.items, server.history, At(server.history, cursor) + PAGE)
            && (page.next.Some? ==> At(server.history, page.next) == At(server.history, cursor) + PAGE)
  {
    var h := server.history;
    if cursor.Some? { PositionIn(h, cursor.value); }
    var lo := At(h, cursor) + 1;
    var hi := Min(lo + PAGE, |h|);
    var page := PageOf(server, cursor);
    assert page.items == Slice(server, lo, hi);
    forall i | 0 <= i < |page.items|
      ensures page.items[i].id == h[lo + i] && Position(h, h[lo + i]) == lo + i
    {
      PositionOf(h, lo + i);
    }
    if page.next.Some? { PositionOf(h, hi - 1); }
    hide Position, PageOf;
  }

  lemma {:induction false} PutUpTo(rows: seq<Item>, item: Item, h: seq<Id>, to: int)
    requires UpTo(rows, h, to) && item.id in h && Position(h, item.id) <= to
    ensures UpTo(Put(rows, item), h, to)
    decreases |rows|
  {
    hide Position;
    if |rows| > 0 && rows[0].id != item.id { PutUpTo(rows[1..], item, h, to); }
  }

  lemma {:induction false} PutAllUpTo(rows: seq<Item>, page: seq<Item>, h: seq<Id>, to: int)
    requires UpTo(rows, h, to) && UpTo(page, h, to)
    ensures UpTo(PutAll(rows, page), h, to)
    decreases |page|
  {
    hide Position;
    if |page| > 0 {
      var n := |page| - 1;
      assert UpTo(page[..n], h, to);
      PutAllUpTo(rows, page[..n], h, to);
      PutUpTo(PutAll(rows, page[..n]), page[n], h, to);
    }
  }

  // ----- Ids stay distinct ------------------------------------------------------------------------

  lemma {:induction false} PutKeepsIds(rows: seq<Item>, item: Item)
    requires Distinct(Ids(rows))
    ensures Distinct(Ids(Put(rows, item)))
    ensures forall x :: x in Put(rows, item) <==> x == item || (x in rows && x.id != item.id)
    decreases |rows|
  {
    assert forall i :: 0 <= i < |rows| ==> Ids(rows)[i] == rows[i].id;
    if |rows| > 0 {
      assert Ids(rows[1..]) == Ids(rows)[1..];
      forall x | x in rows[1..]
        ensures x.id != rows[0].id
      {
      }
      if rows[0].id != item.id {
        var rest := Put(rows[1..], item);
        PutKeepsIds(rows[1..], item);
        forall j | 0 <= j < |rest|
          ensures rest[j].id != rows[0].id
        {
          assert rest[j] in rest;
        }
        DistinctCons(rows[0], rest);
      } else {
        DistinctCons(item, rows[1..]);
      }
    }
  }

  lemma DistinctCons(item: Item, rows: seq<Item>)
    requires Distinct(Ids(rows)) && forall j :: 0 <= j < |rows| ==> rows[j].id != item.id
    ensures Distinct(Ids([item] + rows))
  {
    var all := Ids([item] + rows);
    forall i, j | 0 <= i < j < |all|
      ensures all[i] != all[j]
    {
      assert all[j] == rows[j - 1].id == Ids(rows)[j - 1];
      if i > 0 { assert all[i] == Ids(rows)[i - 1]; }
    }
  }

  // A page set into rows: its own rows as they are, the others as they were.
  lemma {:induction false} PutAllIs(rows: seq<Item>, page: seq<Item>)
    requires Distinct(Ids(rows)) && Distinct(Ids(page))
    ensures Distinct(Ids(PutAll(rows, page)))
    ensures forall x :: x in PutAll(rows, page) <==> x in page || (x in rows && x.id !in Ids(page))
    decreases |page|
  {
    if |page| > 0 {
      var n := |page| - 1;
      var ids := Ids(page);
      assert Ids(page[..n]) == ids[..n] && ids == ids[..n] + [page[n].id];
      assert page == page[..n] + [page[n]];
      PutAllIs(rows, page[..n]);
      PutKeepsIds(PutAll(rows, page[..n]), page[n]);
      forall x | x in page[..n]
        ensures x.id != page[n].id
      {
        var i :| 0 <= i < n && page[i] == x;
        assert ids[i] != ids[n];
      }
    }
  }

  // ----- The invariant ----------------------------------------------------------------------------------

  ghost predicate StoreDeep(st: Store, h: seq<Id>) {
    && st.loadedPages >= 1 && Known(h, st.nextCursor) && Distinct(Ids(st.items))
    && (st.nextCursor.Some? ==> At(h, st.nextCursor) + 1 >= PAGE * st.loadedPages)
  }

  predicate Fetching(loop: Loop) {
    loop.phase == Asking || loop.phase.Answered?
  }

  predicate Paging(more: More) {
    more.phase == Requested || more.phase.Received?
  }

  // A refresh has room for all the pages it may still collect above the store's cursor.
  ghost predicate LoopDeep(loop: Loop, next: Option<Id>, loadedPages: nat, h: seq<Id>) {
    Fetching(loop) ==>
      && Known(h, loop.cursor) && (loop.cursor.None? <==> loop.pages == 0) && loop.pages < loadedPages
      && At(h, loop.cursor) + 1 >= PAGE * loop.pages
      && UpTo(loop.rows, h, At(h, loop.cursor)) && Distinct(Ids(loop.rows))
      && (next.Some? ==> At(h, next) - At(h, loop.cursor) >= PAGE * (loadedPages - loop.pages))
      && (loop.phase.Answered? ==>
            && PageDeep(loop.phase.page, loop.cursor, h)
            && (next.Some? ==>
                  && UpTo(loop.phase.page.items, h, At(h, next))
                  && (loop.phase.page.next.Some? ==>
                        At(h, next) - At(h, loop.phase.page.next) >= PAGE * (loadedPages - loop.pages - 1))))
  }

  ghost predicate MoreDeep(more: More, loadedPages: nat, h: seq<Id>) {
    && more.cursor in h && Position(h, more.cursor) + 1 >= PAGE * loadedPages
    && (more.phase.Received? ==> PageDeep(more.phase.page, Some(more.cursor), h))
  }

  ghost predicate LoopsDeep(se: Session, loops: seq<Loop>, next: Option<Id>, loadedPages: nat, h: seq<Id>) {
    forall l :: 0 <= l < |loops| && Current(se, loops[l].ctx) ==> LoopDeep(loops[l], next, loadedPages, h)
  }

  // A further page that no refresh has overtaken.
  predicate Timely(se: Session, more: More, readEpoch: nat) {
    Current(se, more.ctx) && Paging(more) && more.readEpoch == readEpoch
  }

  ghost predicate MoresDeep(se: Session, mores: seq<More>, readEpoch: nat, loadedPages: nat, h: seq<Id>) {
    && (forall m :: 0 <= m < |mores| ==> mores[m].readEpoch <= readEpoch)
    && (forall m :: 0 <= m < |mores| && Timely(se, mores[m], readEpoch) ==> MoreDeep(mores[m], loadedPages, h))
  }

  // While a refresh is under way the store's cursor is the one a timely page goes by.
  ghost predicate SameCursor(se: Session, loops: seq<Loop>, mores: seq<More>, readEpoch: nat, next: Option<Id>) {
    forall l, m :: (0 <= l < |loops| && 0 <= m < |mores| && Current(se, loops[l].ctx) && Fetching(loops[l])
                    && Timely(se, mores[m], readEpoch)) ==> next == Some(mores[m].cursor)
  }

  ghost predicate OrderInv(s: State) {
    var se, st, h := SessionOf(s.store), s.store, s.server.history;
    && Distinct(h) && StoreDeep(st, h)
    && LoopsDeep(se, s.loops, st.nextCursor, st.loadedPages, h)
    && MoresDeep(se, s.mores, st.readEpoch, st.loadedPages, h)
    && SameCursor(se, s.loops, s.mores, st.readEpoch, st.nextCursor)
  }

  lemma InitOrder(server: Server)
    requires Distinct(server.history)
    ensures OrderInv(Init(server))
  {
  }

  // ----- Reconciliations ------------------------------------------------------------------------------------

  // A loop that begins has everything before it, and overtakes every page under way.
  lemma BegunDeep(st: Store, ctx: Context, reason: Reason, h: seq<Id>)
    requires StoreDeep(st, h)
    ensures LoopDeep(Begun(st, ctx, reason), st.nextCursor, st.loadedPages, h)
  {
    hide Position;
  }

  lemma ReconcileKeepsOrder(s: State, reason: Reason, ctx: Context)
    requires OrderInv(s)
    ensures OrderInv(Reconcile(s, reason, ctx))
  {
    BegunDeep(s.store, ctx, reason, s.server.history);
    hide LoopDeep, MoreDeep, Distinct, At, Known;
  }

  lemma LoopResumesKeepsOrder(s: State, l: nat)
    requires OrderInv(s) && l < |s.loops|
    ensures OrderInv(LoopResumes(s, l))
  {
    var loop := s.loops[l];
    if s.store.queued.Some? {
      BegunDeep(s.store.(queued := None), loop.ctx, s.store.queued.value, s.server.history);
    }
    hide LoopDeep, MoreDeep, Distinct, At, Known, IsCurrent;
  }

  // A loop changed in place, while the store keeps its cursor and pages.
  lemma LoopChangeKeepsOrder(s: State, l: nat, loop: Loop)
    requires OrderInv(s) && l < |s.loops| && loop.ctx == s.loops[l].ctx
    requires Fetching(loop) ==> Fetching(s.loops[l])
    requires Current(SessionOf(s.store), loop.ctx) ==>
               LoopDeep(loop, s.store.nextCursor, s.store.loadedPages, s.server.history)
    ensures OrderInv(WithLoop(s, l, loop))
  {
    hide LoopDeep, MoreDeep, StoreDeep, Distinct;
  }

  lemma AnsweredDeep(loop: Loop, server: Server, next: Option<Id>, loadedPages: nat)
    requires Distinct(server.history) && LoopDeep(loop, next, loadedPages, server.history) && loop.phase == Asking
    ensures LoopDeep(loop.(phase := Answered(PageOf(server, loop.cursor))), next, loadedPages, server.history)
  {
    PageIsDeep(server, loop.cursor);
    hide PageOf, Position, Distinct;
    var h := server.history;
    var page := PageOf(server, loop.cursor);
    if next.Some? {
      assert At(h, next) >= At(h, loop.cursor) + PAGE;
      assert UpTo(page.items, h, At(h, next));
    }
  }

  // The page a refresh collects brings it to the next cursor.
  lemma CollectedDeep(loop: Loop, page: Page, next: Option<Id>, loadedPages: nat, h: seq<Id>)
    requires LoopDeep(loop, next, loadedPages, h) && loop.phase == Answered(page)
    requires page.next.Some? && loop.pages + 1 < loadedPages
    ensures LoopDeep(loop.(phase := Asking, rows := PutAll(loop.rows, page.items), cursor := page.next,
                           pages := loop.pages + 1), next, loadedPages, h)
  {
    RowsCollected(loop, page, next, loadedPages, h);
    hide Position, PutAll, Distinct;
  }

  lemma RowsCollected(loop: Loop, page: Page, next: Option<Id>, loadedPages: nat, h: seq<Id>)
    requires LoopDeep(loop, next, loadedPages, h) && loop.phase == Answered(page)
    ensures Distinct(Ids(PutAll(loop.rows, page.items)))
    ensures page.next.Some? ==> UpTo(PutAll(loop.rows, page.items), h, At(h, page.next))
    ensures next.Some? ==> UpTo(PutAll(loop.rows, page.items), h, At(h, next))
  {
    hide Position;
    PutAllIs(loop.rows, page.items);
    if page.next.Some? { PutAllUpTo(loop.rows, page.items, h, At(h, page.next)); }
    if next.Some? { PutAllUpTo(loop.rows, page.items, h, At(h, next)); }
  }

  lemma RefreshedKeepsOrder(s: State, l: nat, page: Page)
    requires BaseInv(s) && OrderInv(s) && l < |s.loops| && s.loops[l].phase == Answered(page)
    requires IsCurrent(s.store, s.loops[l].ctx)
    ensures var loop := s.loops[l];
            OrderInv(Refreshed(s, l, PutAll(loop.rows, page.items), page, loop.pages + 1))
  {
    var loop := s.loops[l];
    var h := s.server.history;
    var rows := PutAll(loop.rows, page.items);
    var s' := Refreshed(s, l, rows, page, loop.pages + 1);
    assert LoopDeep(loop, s.store.nextCursor, s.store.loadedPages, h);
    RowsCollected(loop, page, s.store.nextCursor, s.store.loadedPages, h);
    assert StoreDeep(s'.store, h) by { hide Position, Distinct, PutAll, LoopsDeep, MoresDeep, SameCursor; }
    hide PutAll, IdSet, AddPending, Discovered, Position, Distinct, MoresInv, QueueInv, StoreDeep, Known;
    assert forall k :: 0 <= k < |s'.loops| && Current(SessionOf(s'.store), s'.loops[k].ctx) ==> !Fetching(s'.loops[k]);
    hide LoopsInv, LoopsDeep;
    assert loop.pages + 1 <= s.store.loadedPages;
    assert MoresDeep(SessionOf(s'.store), s'.mores, s'.store.readEpoch, s'.store.loadedPages, h) by {
      hide LoopDeep, SameCursor;
    }
  }

  lemma PageKeepsOrder(s: State, l: nat, page: Page)
    requires BaseInv(s) && OrderInv(s) && l < |s.loops| && s.loops[l].phase == Answered(page)
    ensures OrderInv(PageArrives(s, l, page))
  {
    var loop := s.loops[l];
    var h := s.server.history;
    var s' := PageArrives(s, l, page);
    if IsCurrent(s.store, loop.ctx) && loop.epoch == s.store.mutationEpoch {
      if loop.pages + 1 < s.store.loadedPages && page.next.Some? {
        assert LoopDeep(loop, s.store.nextCursor, s.store.loadedPages, h);
        CollectedDeep(loop, page, s.store.nextCursor, s.store.loadedPages, h);
        hide OrderInv, BaseInv, LoopDeep, PutAll;
        LoopChangeKeepsOrder(s, l, s'.loops[l]);
      } else {
        hide OrderInv, BaseInv, PutAll, Refreshed;
        RefreshedKeepsOrder(s, l, page);
      }
    } else {
      hide BaseInv, PutAll, Refreshed;
      LoopChangeKeepsOrder(s, l, s'.loops[l]);
      hide LoopsDeep, MoresDeep, SameCursor, Distinct;
    }
  }

  lemma LoopKeepsOrder(s: State, l: nat, ok: bool)
    requires BaseInv(s) && OrderInv(s) && l < |s.loops| && StepOfLoop(s, l, ok).Some?
    ensures OrderInv(StepOfLoop(s, l, ok).value)
  {
    hide PageArrives, LoopResumes, PageOf, BaseInv, Distinct, LoopDeep, MoreDeep;
    var loop := s.loops[l];
    var s' := StepOfLoop(s, l, ok).value;
    match loop.phase
    case Asking =>
      if ok && Current(SessionOf(s.store), loop.ctx) {
        AnsweredDeep(loop, s.server, s.store.nextCursor, s.store.loadedPages);
      }
      NotFetchingDeep(s'.loops[l], s.store, s.server.history);
      LoopChangeKeepsOrder(s, l, s'.loops[l]);
    case Answered(page) =>
      if ok {
        PageKeepsOrder(s, l, page);
      } else {
        NotFetchingDeep(s'.loops[l], s.store, s.server.history);
        LoopChangeKeepsOrder(s, l, s'.loops[l]);
      }
    case Between => LoopResumesKeepsOrder(s, l);
    case Gone =>
    case _ =>
      NotFetchingDeep(s'.loops[l], s.store, s.server.history);
      LoopChangeKeepsOrder(s, l, s'.loops[l]);
  }

  lemma NotFetchingDeep(loop: Loop, st: Store, h: seq<Id>)
    ensures !Fetching(loop) ==> LoopDeep(loop, st.nextCursor, st.loadedPages, h)
  {
  }

  // ----- Further pages -----------------------------------------------------------------------------------------

  // A pagination that asks goes by the store's cursor.
  lemma MoreChangeKeepsOrder(s: State, m: nat, more: More)
    requires OrderInv(s) && m < |s.mores| && more.ctx == s.mores[m].ctx && more.readEpoch <= s.store.readEpoch
    requires Timely(SessionOf(s.store), more, s.store.readEpoch) ==>
               && MoreDeep(more, s.store.loadedPages, s.server.history)
               && (Some(more.cursor) == s.store.nextCursor ||
                   (Timely(SessionOf(s.store), s.mores[m], s.store.readEpoch) && more.cursor == s.mores[m].cursor))
    ensures OrderInv(WithMore(s, m, more))
  {
    hide LoopDeep, MoreDeep, StoreDeep, Distinct;
  }

  lemma NotLoadingMatters(s: State, loadingMore: bool)
    requires OrderInv(s)
    ensures OrderInv(s.(store := s.store.(loadingMore := loadingMore)))
  {
    hide LoopDeep, MoreDeep, Distinct;
  }

  lemma MoreAsksKeepsOrder(s: State, m: nat)
    requires OrderInv(s) && m < |s.mores|
    ensures OrderInv(MoreAsks(s, m)) && OrderInv(MoreEnds(s, m)) && OrderInv(MoreLoops(s, m))
  {
    var ended := s.mores[m].(phase := Finished);
    assert s.mores[m].readEpoch <= s.store.readEpoch;
    MoreChangeKeepsOrder(s, m, ended);
    NotLoadingMatters(WithMore(s, m, ended), false);
    AskDeep(s, m);
    var asked := MoreAsks(s, m).mores[m];
    hide OrderInv;
    if s.store.nextCursor.Some? && IsCurrent(s.store, s.mores[m].ctx) { MoreChangeKeepsOrder(s, m, asked); }
    var looped := MoreLoops(s, m).mores[m];
    if looped.phase.Awaiting? { MoreChangeKeepsOrder(s, m, looped); }
  }

  lemma AskDeep(s: State, m: nat)
    requires OrderInv(s) && m < |s.mores|
    ensures s.store.nextCursor.Some? ==>
              MoreDeep(More(s.mores[m].ctx, Requested, s.store.nextCursor.value, s.store.readEpoch, s.store.mutationEpoch),
                       s.store.loadedPages, s.server.history)
  {
    hide LoopsDeep, MoresDeep, SameCursor, Position, Distinct;
  }

  lemma ReceivedKeepsOrder(s: State, m: nat)
    requires OrderInv(s) && m < |s.mores| && s.mores[m].phase == Requested
    ensures OrderInv(StepOfMore(s, m, true).value)
  {
    var more := s.mores[m];
    if Timely(SessionOf(s.store), more, s.store.readEpoch) {
      assert MoreDeep(more, s.store.loadedPages, s.server.history);
      PageIsDeep(s.server, Some(more.cursor));
    }
    hide PageOf, Position, Distinct, PageDeep, StoreDeep, LoopDeep;
    MoreChangeKeepsOrder(s, m, more.(phase := Received(PageOf(s.server, Some(more.cursor)))));
  }

  // Nobody else pages, and a refresh under way gains a page's room.
  lemma MoreAppliedKeepsOrder(s: State, m: nat, page: Page)
    requires BaseInv(s) && OrderInv(s) && m < |s.mores| && s.mores[m].phase == Received(page)
    requires IsCurrent(s.store, s.mores[m].ctx) && s.mores[m].readEpoch == s.store.readEpoch
    ensures OrderInv(WithMore(s, m, s.mores[m].(phase := Finished)).(store := MoreApplied(s.store, page)))
  {
    var st, h := s.store, s.server.history;
    var se := SessionOf(st);
    var more := s.mores[m];
    var s' := WithMore(s, m, more.(phase := Finished)).(store := MoreApplied(st, page));
    assert MoreDeep(more, st.loadedPages, h);
    PutAllIs(st.items, page.items);
    hide Position, PutAll, IdSet;
    assert StoreDeep(s'.store, h) by { hide LoopsDeep, MoresDeep, SameCursor, Distinct, UpTo, Below; }
    forall l | 0 <= l < |s.loops| && Current(se, s.loops[l].ctx)
      ensures LoopDeep(s.loops[l], page.next, st.loadedPages + 1, h)
    {
      assert Fetching(s.loops[l]) ==> st.nextCursor == Some(more.cursor);
      assert LoopDeep(s.loops[l], st.nextCursor, st.loadedPages, h);
      RoomForOneMore(s.loops[l], more, page, st.nextCursor, st.loadedPages, h);
    }
    hide LoopDeep, StoreDeep, Distinct;
    forall n | 0 <= n < |s'.mores| && Timely(se, s'.mores[n], st.readEpoch)
      ensures false
    {
      NobodyElse(s, m, n);
    }
    hide LoopsInv, MoresInv, QueueInv, Timely, MoreDeep;
  }

  lemma NobodyElse(s: State, m: nat, n: nat)
    requires BaseInv(s) && m < |s.mores| && n < |s.mores| && m != n
    requires Current(SessionOf(s.store), s.mores[m].ctx) && s.mores[m].phase != Finished
    ensures !Timely(SessionOf(s.store), s.mores[n], s.store.readEpoch)
  {
    hide LoopsInv, QueueInv;
    OnlyOneBusy(s, m, n);
  }

  lemma RoomForOneMore(loop: Loop, more: More, page: Page, next: Option<Id>, loadedPages: nat, h: seq<Id>)
    requires LoopDeep(loop, next, loadedPages, h) && PageDeep(page, Some(more.cursor), h)
    requires Fetching(loop) ==> next == Some(more.cursor)
    ensures LoopDeep(loop, page.next, loadedPages + 1, h)
  {
    hide Position, Distinct;
  }

  lemma MoreArrivesKeepsOrder(s: State, m: nat, page: Page)
    requires BaseInv(s) && OrderInv(s) && m < |s.mores| && s.mores[m].phase == Received(page)
    ensures OrderInv(MoreArrives(s, m, page))
  {
    var more := s.mores[m];
    MoreAsksKeepsOrder(s, m);
    ReconcileFrame(s, Recovery, more.ctx);
    ReconcileKeepsOrder(s, Recovery, more.ctx);
    var s1 := Reconcile(s, Recovery, more.ctx);
    assert s1.mores[m].readEpoch <= s1.store.readEpoch by { hide LoopsDeep, SameCursor, StoreDeep, Distinct; }
    if IsCurrent(s.store, more.ctx) && more.readEpoch == s.store.readEpoch { MoreAppliedKeepsOrder(s, m, page); }
    hide OrderInv, BaseInv, MoreApplied, Discovered, Reconcile, MoreEnds, MoreLoops;
    if IsCurrent(s.store, more.ctx) && more.mutationEpoch != s.store.mutationEpoch {
      MoreChangeKeepsOrder(s1, m, more.(phase := Awaiting(s1.store.reconciliation.value, true)));
    }
    OriginsDoNotMatter(WithMore(s, m, more.(phase := Finished)).(store := MoreApplied(s.store, page)));
  }

  lemma OriginsDoNotMatter(s: State)
    ensures forall origins :: OrderInv(s.(origins := origins)) == OrderInv(s)
  {
  }

  lemma MoreKeepsOrder(s: State, m: nat, ok: bool)
    requires BaseInv(s) && OrderInv(s) && m < |s.mores| && StepOfMore(s, m, ok).Some?
    ensures OrderInv(StepOfMore(s, m, ok).value)
  {
    hide OrderInv, BaseInv, MoreArrives, MoreAsks, MoreEnds, MoreLoops, PageOf;
    MoreAsksKeepsOrder(s, m);
    match s.mores[m].phase
    case Received(page) => if ok { MoreArrivesKeepsOrder(s, m, page); }
    case Requested => if ok { ReceivedKeepsOrder(s, m); }
    case _ =>
  }

  lemma LoadMoreKeepsOrder(s: State)
    requires BaseInv(s) && OrderInv(s)
    ensures OrderInv(LoadMoreCalled(s))
  {
    OpeningKeepsOrder(s);
    if s.store.nextCursor.Some? && !s.store.loadingMore && SessionContext(s.store).Some? {
      var begun := MoreBegun(s, SessionContext(s.store).value);
      assert OrderInv(begun) by { hide BaseInv, LoopDeep, MoreDeep, Distinct, Opened, SessionContext; }
      MoreAsksKeepsOrder(begun, |s.mores|);
      hide OrderInv, BaseInv, MoreLoops, Opened, SessionContext;
    }
  }

  // ----- Sessions, marks and insertions ------------------------------------------------------------------------------

  lemma OpeningKeepsOrder(s: State)
    requires BaseInv(s) && OrderInv(s)
    ensures OrderInv(s.(store := Opened(s.store)))
  {
    hide QueueInv, LoopDeep, MoreDeep, Distinct, At, Known;
  }

  lemma LeavingKeepsOrder(s: State)
    requires BaseInv(s) && OrderInv(s)
    ensures OrderInv(WasReset(s)) && OrderInv(s.(store := s.store.(auth := s.store.auth + 1)))
  {
    hide QueueInv, LoopDeep, MoreDeep, At;
  }

  // Marks leave ids, cursor and pages alone, and mutations and read marks are no matter.
  lemma MarkedKeepsOrder(s: State, s': State)
    requires OrderInv(s) && s'.server.history == s.server.history && s'.loops == s.loops && s'.mores == s.mores
    requires SessionOf(s'.store) == SessionOf(s.store) && Ids(s'.store.items) == Ids(s.store.items)
    requires s'.store.nextCursor == s.store.nextCursor && s'.store.loadedPages == s.store.loadedPages
    requires s'.store.readEpoch == s.store.readEpoch
    ensures OrderInv(s')
  {
    hide LoopsDeep, MoresDeep, SameCursor, Distinct;
  }

  lemma MutationKeepsOrder(s: State, k: nat, ok: bool)
    requires BaseInv(s) && OrderInv(s) && k < |s.mutations| && StepOfMutation(s, k, ok).Some?
    ensures OrderInv(StepOfMutation(s, k, ok).value)
  {
    hide OrderInv, Reconcile, ShowsUnread, Readings, Unread, MarkIds, Restore, ServerMarks;
    var s' := StepOfMutation(s, k, ok).value;
    MutationHistory(s, k, ok);
    var mutation := s.mutations[k];
    var ids := Targets(mutation.target);
    MarksKeepIds(s.store.items, ids, mutation.previous);
    hide BaseInv;
    if mutation.phase.Processed? && ok && IsCurrent(s.store, mutation.ctx) {
      var marked := s.(store := MarkConfirmed(s.store, ids, mutation.phase.unread), confirmed := s.confirmed + ids);
      MarkedKeepsOrder(s, marked);
      ReconcileFrame(marked, Recovery, mutation.ctx);
      ReconcileKeepsOrder(marked, Recovery, mutation.ctx);
      var after := Reconcile(marked, Recovery, mutation.ctx);
      MarkedKeepsOrder(marked, Settle(marked, k, true));
      MarkedKeepsOrder(after, Settle(after, k, true));
    } else if (mutation.phase.Processed? || mutation.phase == Sent) && !ok && IsCurrent(s.store, mutation.ctx) {
      var back := s.(store := MarkRolledBack(s.store, mutation.previous, mutation.previousCount));
      MarkedKeepsOrder(s, back);
      ReconcileFrame(back, Recovery, mutation.ctx);
      ReconcileKeepsOrder(back, Recovery, mutation.ctx);
      MarkedKeepsOrder(Reconcile(back, Recovery, mutation.ctx), s');
    } else {
      MarkedKeepsOrder(s, s');
    }
  }

  // An insertion only pushes rows apart.
  lemma InsertSpreads(h: seq<Id>, x: Id, at: nat)
    requires Distinct(h) && x !in h && at <= |h|
    ensures var h' := h[..at] + [x] + h[at..];
            && Distinct(h')
            && (forall id :: id in h ==> id in h' && Position(h, id) <= Position(h', id) <= Position(h, id) + 1)
            && (forall a, b :: a in h && b in h && Position(h, a) <= Position(h, b) ==>
                  Position(h', b) - Position(h', a) >= Position(h, b) - Position(h, a))
            && (forall a, b :: a in h && b in h && Position(h, a) < Position(h, b) ==> Position(h', a) < Position(h', b))
  {
    InsertDistinct(h, x, at);
    forall id | id in h
      ensures var h' := h[..at] + [x] + h[at..];
              id in h' && Position(h', id) == Position(h, id) + (if Position(h, id) < at then 0 else 1)
    {
      InsertMoves(h, x, at, id);
    }
    hide Position, Distinct;
  }

  // The history has spread: ids stay known, in their order, no closer to each other.
  ghost predicate Spread(h: seq<Id>, h': seq<Id>) {
    && (forall id :: id in h ==> id in h' && Position(h, id) <= Position(h', id))
    && (forall a, b :: a in h && b in h && Position(h, a) <= Position(h, b) ==>
          Position(h', b) - Position(h', a) >= Position(h, b) - Position(h, a))
  }

  lemma SpreadAt(h: seq<Id>, h': seq<Id>, a: Option<Id>, b: Option<Id>)
    requires Spread(h, h') && Known(h, a) && Known(h, b)
    ensures Known(h', a) && Known(h', b) && At(h', a) >= At(h, a)
    ensures At(h, a) <= At(h, b) ==> At(h', b) - At(h', a) >= At(h, b) - At(h, a)
  {
    hide Position;
  }

  lemma SpreadUpTo(h: seq<Id>, h': seq<Id>, rows: seq<Item>, c: Option<Id>)
    requires Spread(h, h') && Known(h, c) && UpTo(rows, h, At(h, c))
    ensures UpTo(rows, h', At(h', c))
  {
    forall i | 0 <= i < |rows|
      ensures rows[i].id in h' && Position(h', rows[i].id) <= At(h', c)
    {
      SpreadAt(h, h', Some(rows[i].id), c);
    }
  }

  lemma SpreadBelow(h: seq<Id>, h': seq<Id>, rows: seq<Item>, c: Option<Id>)
    requires Spread(h, h') && Known(h, c) && Below(rows, h, At(h, c))
    ensures Below(rows, h', At(h', c))
  {
    forall i | 0 <= i < |rows|
      ensures rows[i].id in h' && Position(h', rows[i].id) > At(h', c)
    {
      SpreadAt(h, h', c, Some(rows[i].id));
    }
  }

  lemma SpreadPage(h: seq<Id>, h': seq<Id>, page: Page, c: Option<Id>)
    requires Spread(h, h') && Known(h, c) && PageDeep(page, c, h)
    ensures PageDeep(page, c, h')
  {
    SpreadBelow(h, h', page.items, c);
    if page.next.Some? {
      SpreadAt(h, h', c, page.next);
      SpreadUpTo(h, h', page.items, page.next);
    }
    hide Spread, UpTo, Below, At, Known, Distinct;
  }

  lemma SpreadLoop(h: seq<Id>, h': seq<Id>, loop: Loop, next: Option<Id>, loadedPages: nat)
    requires Spread(h, h') && Known(h, next) && LoopDeep(loop, next, loadedPages, h)
    ensures LoopDeep(loop, next, loadedPages, h')
  {
    hide Spread, UpTo, At, Known, Distinct, PageDeep;
    if Fetching(loop) {
      SpreadAt(h, h', loop.cursor, next);
      SpreadUpTo(h, h', loop.rows, loop.cursor);
      if loop.phase.Answered? {
        var page := loop.phase.page;
        SpreadPage(h, h', page, loop.cursor);
        if next.Some? { SpreadUpTo(h, h', page.items, next); }
        if page.next.Some? && next.Some? { SpreadNext(h, h', page, loop.cursor, next); }
      }
    }
  }

  lemma SpreadNext(h: seq<Id>, h': seq<Id>, page: Page, c: Option<Id>, next: Option<Id>)
    requires Spread(h, h') && PageDeep(page, c, h) && Known(h, next) && page.next.Some? && next.Some?
    ensures At(h, page.next) <= At(h, next) ==>
              At(h', next) - At(h', page.next) >= At(h, next) - At(h, page.next)
  {
    hide Spread, UpTo, Below, At, Distinct;
    SpreadAt(h, h', page.next, next);
  }

  lemma InsertKeepsOrder(s: State, id: Id, at: nat)
    requires OrderInv(s) && Effect(s, Insert(id, at)).Some?
    ensures OrderInv(Effect(s, Insert(id, at)).value)
  {
    var h := s.server.history;
    var s' := Effect(s, Insert(id, at)).value;
    var h' := s'.server.history;
    InsertSpreads(h, id, at);
    assert Spread(h, h');
    hide Position, Spread, Distinct;
    var se, st := SessionOf(s.store), s.store;
    SpreadAt(h, h', st.nextCursor, st.nextCursor);
    assert StoreDeep(s'.store, h') by { hide LoopsDeep, MoresDeep, SameCursor; }
    forall l | 0 <= l < |s.loops| && Current(se, s.loops[l].ctx)
      ensures LoopDeep(s.loops[l], st.nextCursor, st.loadedPages, h')
    {
      hide LoopDeep;
      SpreadLoop(h, h', s.loops[l], st.nextCursor, st.loadedPages);
    }
    forall m | 0 <= m < |s.mores| && Timely(se, s.mores[m], st.readEpoch)
      ensures MoreDeep(s.mores[m], st.loadedPages, h')
    {
      hide LoopsDeep, SameCursor;
      SpreadMore(h, h', s.mores[m], st.loadedPages);
    }
    hide LoopDeep, MoreDeep, StoreDeep;
  }

  lemma SpreadMore(h: seq<Id>, h': seq<Id>, more: More, loadedPages: nat)
    requires Spread(h, h') && MoreDeep(more, loadedPages, h)
    ensures MoreDeep(more, loadedPages, h')
  {
    SpreadAt(h, h', Some(more.cursor), Some(more.cursor));
    if more.phase.Received? {
      hide PageDeep;
      SpreadPage(h, h', more.phase.page, Some(more.cursor));
    }
    hide Spread, Position;
  }

  // ----- Every run -------------------------------------------------------------------------------------------------------

  lemma EnqueuedKeepsOrder(s: State, target: Target)
    requires BaseInv(s) && OrderInv(s)
    ensures OrderInv(Enqueued(s, target))
  {
    OpeningKeepsOrder(s);
    hide OrderInv, BaseInv;
    MarkedKeepsOrder(s.(store := Opened(s.store)), Enqueued(s, target));
  }

  lemma OtherKeepsOrder(s: State, l: Label)
    requires BaseInv(s) && OrderInv(s) && Effect(s, l).Some?
    requires !l.LoopStep? && !l.MoreStep? && !l.MutationStep? && !l.CallLoadMore?
    ensures OrderInv(Effect(s, l).value)
  {
    hide OrderInv, BaseInv, Reconcile, Enqueued, ShowsUnread, Without;
    match l
    case Insert(id, at) => InsertKeepsOrder(s, id, at);
    case ReadElsewhere(_) => MarkedKeepsOrder(s, Effect(s, l).value);
    case AuthChanges => LeavingKeepsOrder(s);
    case CallReset => LeavingKeepsOrder(s);
    case CallReconcile(reason) =>
      OpeningKeepsOrder(s);
      if SessionContext(s.store).Some? {
        ReconcileKeepsOrder(s.(store := Opened(s.store)), reason, SessionContext(s.store).value);
      }
    case Invalidate(reason, ctx) => ReconcileKeepsOrder(s, reason, ctx);
    case CallMarkRead(id) => EnqueuedKeepsOrder(s, One(id));
    case CallMarkAllRead =>
      EnqueuedKeepsOrder(s, Every(set i | 0 <= i < |s.store.items| && !s.store.items[i].read :: s.store.items[i].id));
    case Dismiss(_) => MarkedKeepsOrder(s, Effect(s, l).value);
    case _ =>
  }

  lemma NextKeepsOrder(s: State, l: Label)
    requires BaseInv(s) && OrderInv(s) && Next(s, l).Some?
    ensures OrderInv(Next(s, l).value)
  {
    hide BaseInv, OrderInv, StepOfLoop, StepOfMore, StepOfMutation, LoadMoreCalled;
    match l {
      case LoopStep(i, ok) => LoopKeepsOrder(s, i, ok);
      case MoreStep(m, ok) => MoreKeepsOrder(s, m, ok);
      case MutationStep(k, ok) => MutationKeepsOrder(s, k, ok);
      case CallLoadMore => LoadMoreKeepsOrder(s);
      case _ => OtherKeepsOrder(s, l);
    }
    hide Effect;
    MarkedKeepsOrder(Effect(s, l).value, Next(s, l).value);
  }
}
