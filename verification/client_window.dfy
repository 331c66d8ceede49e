// The store's window over a history whose membership stays the same: whatever
// reconciles, pages and marks do, it is the first pages of the sorted history.
module ClientWindow {
  import opened Prelude
  import opened ClientStore
  import opened ClientRuns
  import opened ClientInv

  predicate Distinct(h: seq<Id>) {
    forall i, j :: 0 <= i < j < |h| ==> h[i] != h[j]
  }

  // The first `pages` pages of the history.
  function Window(h: seq<Id>, pages: nat): (w: seq<Id>)
    ensures |w| == Min(PAGE * pages, |h|)
  {
    h[..Min(PAGE * pages, |h|)]
  }

  // The cursor after that many pages: none when they are the whole history.
  function CursorAfter(h: seq<Id>, pages: nat): Option<Id> {
    if pages == 0 || PAGE * pages >= |h| then None else Some(h[PAGE * pages - 1])
  }

  // ----- Pages, one after the other ---------------------------------------------------------

  lemma {:induction false} PositionOf(h: seq<Id>, i: nat)
    requires Distinct(h) && i < |h|
    ensures Position(h, h[i]) == i
  {
    if i > 0 { PositionOf(h[1..], i - 1); }
  }

  // The page asked for after `pages` pages is the next stretch of the history.
  lemma NextPage(server: Server, pages: nat)
    requires Distinct(server.history) && (pages == 0 || PAGE * pages < |server.history|)
    ensures var page := PageOf(server, CursorAfter(server.history, pages));
            && Window(server.history, pages) + Ids(page.items) == Window(server.history, pages + 1)
            && page.next == CursorAfter(server.history, pages + 1)
  {
    var h := server.history;
    if pages > 0 { PositionOf(h, PAGE * pages - 1); }
    var lo := PAGE * pages;
    var hi := Min(lo + PAGE, |h|);
    var page := PageOf(server, CursorAfter(h, pages));
    assert page.items == Slice(server, lo, hi);
    assert Ids(page.items) == h[lo..hi];
    assert h[..lo] + h[lo..hi] == h[..hi];
  }

  lemma {:induction false} PutAppends(rows: seq<Item>, item: Item)
    requires item.id !in Ids(rows)
    ensures Put(rows, item) == rows + [item]
  {
    assert forall i :: 0 <= i < |rows| ==> Ids(rows)[i] == rows[i].id;
    PutAt(rows, item, |rows|);
  }

  // New rows go to the end.
  lemma {:induction false} PutAllAppends(rows: seq<Item>, page: seq<Item>)
    requires Distinct(Ids(rows) + Ids(page))
    ensures PutAll(rows, page) == rows + page
  {
    if |page| == 0 {
      assert rows + page == rows;
    } else {
      var n := |page| - 1;
      var all := Ids(rows) + Ids(page);
      assert Ids(rows) + Ids(page[..n]) == all[..|rows| + n];
      PutAllAppends(rows, page[..n]);
      assert all[|rows| + n] == page[n].id;
      assert Ids(rows + page[..n]) == all[..|rows| + n];
      PutAppends(rows + page[..n], page[n]);
      assert rows + page[..n] + [page[n]] == rows + page;
    }
  }

  lemma WindowDistinct(h: seq<Id>, pages: nat)
    requires Distinct(h)
    ensures Distinct(Window(h, pages))
  {
  }

  // Collecting the next page of the window.
  lemma CollectsWindow(h: seq<Id>, pages: nat, rows: seq<Item>, page: seq<Item>)
    requires Distinct(h) && Ids(rows) == Window(h, pages)
    requires Window(h, pages) + Ids(page) == Window(h, pages + 1)
    ensures Ids(PutAll(rows, page)) == Window(h, pages + 1)
  {
    WindowDistinct(h, pages + 1);
    PutAllAppends(rows, page);
    assert Ids(rows + page) == Ids(rows) + Ids(page);
  }

  // ----- The invariant --------------------------------------------------------------------------

  ghost predicate StoreWindow(st: Store, h: seq<Id>) {
    && st.loadedPages >= 1
    && (st.hasBaseline ==> Ids(st.items) == Window(h, st.loadedPages) && st.nextCursor == CursorAfter(h, st.loadedPages))
    && (!st.hasBaseline ==> st.items == [] && st.nextCursor.None? && st.loadedPages == 1)
  }

  // A refresh under way has the first pages so far.
  ghost predicate LoopWindow(loop: Loop, loadedPages: nat, h: seq<Id>) {
    (loop.phase == Asking || loop.phase.Answered?) ==>
      && Ids(loop.rows) == Window(h, loop.pages) && loop.cursor == CursorAfter(h, loop.pages)
      && (loop.pages == 0 || PAGE * loop.pages < |h|) && loop.pages < loadedPages
      && (loop.phase.Answered? ==>
            && Window(h, loop.pages) + Ids(loop.phase.page.items) == Window(h, loop.pages + 1)
            && loop.phase.page.next == CursorAfter(h, loop.pages + 1))
  }

  // A further page under way, unless a refresh has overtaken it, is the next one.
  ghost predicate MoreWindow(more: More, st: Store, h: seq<Id>) {
    && more.readEpoch <= st.readEpoch
    && ((more.phase == Requested || more.phase.Received?) && more.readEpoch == st.readEpoch ==>
          && st.hasBaseline && PAGE * st.loadedPages < |h| && CursorAfter(h, st.loadedPages) == Some(more.cursor)
          && (more.phase.Received? ==>
                && Window(h, st.loadedPages) + Ids(more.phase.page.items) == Window(h, st.loadedPages + 1)
                && more.phase.page.next == CursorAfter(h, st.loadedPages + 1)))
  }

  ghost predicate LoopsWindow(se: Session, loops: seq<Loop>, loadedPages: nat, h: seq<Id>) {
    forall l :: 0 <= l < |loops| && Current(se, loops[l].ctx) ==> LoopWindow(loops[l], loadedPages, h)
  }

  ghost predicate MoresWindow(mores: seq<More>, st: Store, h: seq<Id>) {
    && (forall m :: 0 <= m < |mores| ==> mores[m].readEpoch <= st.readEpoch)
    && (forall m :: 0 <= m < |mores| && IsCurrent(st, mores[m].ctx) ==> MoreWindow(mores[m], st, h))
  }

  ghost predicate WindowInv(s: State) {
    && Distinct(s.server.history)
    && StoreWindow(s.store, s.server.history)
    && LoopsWindow(SessionOf(s.store), s.loops, s.store.loadedPages, s.server.history)
    && MoresWindow(s.mores, s.store, s.server.history)
  }

  // ----- Reconciliations ---------------------------------------------------------------------------

  lemma ReconcileKeepsWindow(s: State, reason: Reason, ctx: Context)
    requires BaseInv(s) && WindowInv(s)
    ensures WindowInv(Reconcile(s, reason, ctx))
  {
    ReconcileFrame(s, reason, ctx);
    hide LoopsInv, MoresInv, QueueInv;
  }

  lemma LoopResumesKeepsWindow(s: State, l: nat)
    requires BaseInv(s) && WindowInv(s) && l < |s.loops| && s.loops[l].phase == Between
    ensures WindowInv(LoopResumes(s, l))
  {
    hide LoopsInv, MoresInv, QueueInv;
  }

  lemma AskingKeepsWindow(s: State, l: nat, ok: bool)
    requires WindowInv(s) && l < |s.loops| && s.loops[l].phase == Asking
    ensures WindowInv(StepOfLoop(s, l, ok).value)
  {
    hide Window, CursorAfter, Distinct, PageOf, StoreWindow, MoresWindow;
    var loop := s.loops[l];
    var loop' := StepOfLoop(s, l, ok).value.loops[l];
    if Current(SessionOf(s.store), loop.ctx) {
      assert LoopWindow(loop, s.store.loadedPages, s.server.history);
      NextPage(s.server, loop.pages);
    }
    CollectedKeepsWindow(s, l, loop');
  }

  // The window the refresh puts in place is as long as the one it replaces, unless
  // the history ends before.
  lemma PageKeepsWindow(s: State, l: nat, page: Page)
    requires BaseInv(s) && WindowInv(s) && l < |s.loops| && s.loops[l].phase == Answered(page)
    ensures WindowInv(PageArrives(s, l, page))
  {
    hide LoopsInv, MoresInv, QueueInv, PutAll, Window, CursorAfter, Distinct, Refreshed;
    var loop := s.loops[l];
    var h := s.server.history;
    if IsCurrent(s.store, loop.ctx) && loop.epoch == s.store.mutationEpoch {
      assert LoopWindow(loop, s.store.loadedPages, h);
      CollectsWindow(h, loop.pages, loop.rows, page.items);
      var rows := PutAll(loop.rows, page.items);
      CursorMeans(h, loop.pages + 1);
      if loop.pages + 1 < s.store.loadedPages && page.next.Some? {
        CollectedKeepsWindow(s, l, loop.(phase := Asking, rows := rows, cursor := page.next, pages := loop.pages + 1));
      } else {
        RefreshedKeepsWindow(s, l, rows, page, loop.pages + 1);
      }
      hide WindowInv;
    }
  }

  lemma CursorMeans(h: seq<Id>, pages: nat)
    ensures pages > 0 ==> (CursorAfter(h, pages).Some? <==> PAGE * pages < |h|)
  {
  }

  lemma CollectedKeepsWindow(s: State, l: nat, loop: Loop)
    requires WindowInv(s) && l < |s.loops| && loop.ctx == s.loops[l].ctx
    requires Current(SessionOf(s.store), loop.ctx) ==> LoopWindow(loop, s.store.loadedPages, s.server.history)
    ensures WindowInv(WithLoop(s, l, loop))
  {
    hide LoopWindow;
  }

  lemma RefreshedKeepsWindow(s: State, l: nat, rows: seq<Item>, page: Page, pages: nat)
    requires BaseInv(s) && WindowInv(s) && l < |s.loops| && IsCurrent(s.store, s.loops[l].ctx) && s.loops[l].phase != Gone
    requires 1 <= pages <= s.store.loadedPages && Ids(rows) == Window(s.server.history, pages)
    requires page.next == CursorAfter(s.server.history, pages)
    requires pages == s.store.loadedPages || page.next.None?
    ensures WindowInv(Refreshed(s, l, rows, page, pages))
  {
    var s' := Refreshed(s, l, rows, page, pages);
    var h := s.server.history;
    hide MoresInv, QueueInv, Window, CursorAfter, Distinct, IdSet, AddPending, Discovered, Ids;
    assert StoreWindow(s'.store, h) by { hide LoopsInv, LoopsWindow, MoresWindow; }
    assert LoopsWindow(SessionOf(s'.store), s'.loops, s'.store.loadedPages, h) by {
      hide MoresWindow, StoreWindow;
      OtherLoopsAreDone(s, l);
    }
    OvertakenOrWhole(s, s'.store, pages);
    assert s'.mores == s.mores && s'.server == s.server;
    hide LoopsInv, LoopsWindow, StoreWindow, Refreshed;
  }

  lemma OtherLoopsAreDone(s: State, l: nat)
    requires BaseInv(s) && l < |s.loops| && IsCurrent(s.store, s.loops[l].ctx) && s.loops[l].phase != Gone
    ensures forall k :: 0 <= k < |s.loops| && k != l && Current(SessionOf(s.store), s.loops[k].ctx) ==>
              s.loops[k].phase == Gone
  {
    hide MoresInv, QueueInv;
  }

  // A further page under way stays the next one: it only counts if there is one.
  lemma OvertakenOrWhole(s: State, st: Store, pages: nat)
    requires WindowInv(s) && st.hasBaseline && st.loadedPages == pages && 1 <= pages <= s.store.loadedPages
    requires pages == s.store.loadedPages || CursorAfter(s.server.history, pages).None?
    requires SessionOf(st) == SessionOf(s.store) && st.readEpoch == s.store.readEpoch
    ensures MoresWindow(s.mores, st, s.server.history)
  {
    var h := s.server.history;
    CursorMeans(h, pages);
    forall m | 0 <= m < |s.mores| && IsCurrent(st, s.mores[m].ctx)
      ensures MoreWindow(s.mores[m], st, h)
    {
      assert MoreWindow(s.mores[m], s.store, h);
    }
    hide MoreWindow, LoopsWindow, StoreWindow;
  }

  lemma LoopKeepsWindow(s: State, l: nat, ok: bool)
    requires BaseInv(s) && WindowInv(s) && l < |s.loops| && StepOfLoop(s, l, ok).Some?
    ensures WindowInv(StepOfLoop(s, l, ok).value)
  {
    hide PageArrives, LoopResumes, PageOf, LoopsInv, MoresInv, QueueInv, Distinct;
    match s.loops[l].phase
    case Asking => AskingKeepsWindow(s, l, ok);
    case Answered(page) => if ok { PageKeepsWindow(s, l, page); hide WindowInv; }
    case Between => LoopResumesKeepsWindow(s, l); hide WindowInv;
    case _ =>
  }

  // ----- Further pages ------------------------------------------------------------------------------

  lemma MoreAsksKeepsWindow(s: State, m: nat)
    requires WindowInv(s) && m < |s.mores|
    ensures WindowInv(MoreAsks(s, m)) && WindowInv(MoreEnds(s, m)) && WindowInv(MoreLoops(s, m))
  {
    hide Window, Distinct;
  }

  lemma ReceivedKeepsWindow(s: State, m: nat)
    requires WindowInv(s) && m < |s.mores| && s.mores[m].phase == Requested
    ensures WindowInv(StepOfMore(s, m, true).value)
  {
    var more := s.mores[m];
    if IsCurrent(s.store, more.ctx) && more.readEpoch == s.store.readEpoch {
      assert MoreWindow(more, s.store, s.server.history);
      NextPage(s.server, s.store.loadedPages);
    }
    hide PageOf, Window, CursorAfter, Distinct;
  }

  // Nobody else is paging, so a page that counts extends the window by itself.
  lemma MoreAppliedKeepsWindow(s: State, m: nat, page: Page)
    requires BaseInv(s) && WindowInv(s) && m < |s.mores| && s.mores[m].phase == Received(page)
    requires IsCurrent(s.store, s.mores[m].ctx) && s.mores[m].readEpoch == s.store.readEpoch
    ensures WindowInv(WithMore(s, m, s.mores[m].(phase := Finished)).(store := MoreApplied(s.store, page)))
  {
    var h := s.server.history;
    assert MoreWindow(s.mores[m], s.store, h);
    CollectsWindow(h, s.store.loadedPages, s.store.items, page.items);
    hide LoopsInv, QueueInv, PutAll, Window, CursorAfter, Distinct, IdSet;
    var s' := WithMore(s, m, s.mores[m].(phase := Finished)).(store := MoreApplied(s.store, page));
    forall n | 0 <= n < |s'.mores| && IsCurrent(s'.store, s'.mores[n].ctx)
      ensures MoreWindow(s'.mores[n], s'.store, h)
    {
      if n != m { OnlyOneBusy(s, m, n); }
      assert MoreWindow(s.mores[n], s.store, h);
    }
    hide MoresInv, MoreWindow;
  }

  lemma OnlyOneBusy(s: State, m: nat, n: nat)
    requires MoresInv(SessionOf(s.store), s.store.loadingMore, s.mores) && m < |s.mores| && n < |s.mores| && m != n
    requires Busy(SessionOf(s.store), s.mores[m])
    ensures !Busy(SessionOf(s.store), s.mores[n])
  {
  }

  lemma MoreArrivesKeepsWindow(s: State, m: nat, page: Page)
    requires BaseInv(s) && WindowInv(s) && m < |s.mores| && s.mores[m].phase == Received(page)
    ensures WindowInv(MoreArrives(s, m, page))
  {
    var more := s.mores[m];
    MoreAsksKeepsWindow(s, m);
    ReconcileFrame(s, Recovery, more.ctx);
    ReconcileKeepsWindow(s, Recovery, more.ctx);
    if IsCurrent(s.store, more.ctx) && more.readEpoch == s.store.readEpoch {
      MoreAppliedKeepsWindow(s, m, page);
    }
    var s1 := Reconcile(s, Recovery, more.ctx);
    AwaitingKeepsWindow(s1, m);
    hide WindowInv, BaseInv, MoreApplied, Discovered, Reconcile, MoreEnds, MoreLoops;
    assert forall s0: State, origins :: WindowInv(s0.(origins := origins)) == WindowInv(s0) by { OriginsOnly(); }
  }

  lemma OriginsOnly()
    ensures forall s0: State, origins :: WindowInv(s0.(origins := origins)) == WindowInv(s0)
  {
  }

  lemma AwaitingKeepsWindow(s: State, m: nat)
    requires WindowInv(s) && m < |s.mores|
    ensures forall l, again :: WindowInv(WithMore(s, m, s.mores[m].(phase := Awaiting(l, again))))
  {
    hide Window, CursorAfter, Distinct;
  }

  lemma MoreKeepsWindow(s: State, m: nat, ok: bool)
    requires BaseInv(s) && WindowInv(s) && m < |s.mores| && StepOfMore(s, m, ok).Some?
    ensures WindowInv(StepOfMore(s, m, ok).value)
  {
    hide WindowInv, BaseInv, MoreArrives, MoreAsks, MoreEnds, MoreLoops, PageOf;
    MoreAsksKeepsWindow(s, m);
    match s.mores[m].phase
    case Received(page) => if ok { MoreArrivesKeepsWindow(s, m, page); }
    case Requested => if ok { ReceivedKeepsWindow(s, m); }
    case _ =>
  }

  lemma LoadMoreKeepsWindow(s: State)
    requires BaseInv(s) && WindowInv(s)
    ensures WindowInv(LoadMoreCalled(s))
  {
    OpeningKeepsWindow(s);
    if s.store.nextCursor.Some? && !s.store.loadingMore && SessionContext(s.store).Some? {
      var ctx := SessionContext(s.store).value;
      var begun := MoreBegun(s, ctx);
      assert WindowInv(begun) by {
        hide LoopsInv, MoresInv, QueueInv, Window, CursorAfter, Distinct, Opened;
      }
      MoreAsksKeepsWindow(begun, |s.mores|);
      hide WindowInv, BaseInv, MoreLoops, Opened, SessionContext;
    }
  }

  // ----- Sessions and marks ---------------------------------------------------------------------------

  lemma OpeningKeepsWindow(s: State)
    requires BaseInv(s) && WindowInv(s)
    ensures WindowInv(s.(store := Opened(s.store)))
  {
    hide QueueInv, Window, CursorAfter, Distinct;
  }

  lemma LeavingKeepsWindow(s: State)
    requires BaseInv(s) && WindowInv(s)
    ensures WindowInv(WasReset(s)) && WindowInv(s.(store := s.store.(auth := s.store.auth + 1)))
  {
    hide QueueInv, Window, CursorAfter, Distinct;
  }

  lemma MarksKeepIds(items: seq<Item>, ids: set<Id>, previous: map<Id, bool>)
    ensures Ids(MarkIds(items, ids)) == Ids(items) && Ids(Restore(items, previous)) == Ids(items)
  {
  }

  // Marks leave ids, cursor and pages alone.
  lemma MarkedKeepsWindow(s: State, st: Store)
    requires WindowInv(s) && Ids(st.items) == Ids(s.store.items)
    requires st.(items := s.store.items, unreadCount := s.store.unreadCount, mutationEpoch := s.store.mutationEpoch,
                 mutations := s.store.mutations) == s.store
    ensures WindowInv(s.(store := st))
  {
    hide Window, CursorAfter, Distinct;
    assert s.store.items == [] ==> Ids(st.items) == [];
  }

  // Whatever happens to mutations and read marks is no matter for the window.
  lemma MutationsApart(s: State, s': State)
    requires WindowInv(s) && s'.server.history == s.server.history && s'.loops == s.loops && s'.mores == s.mores
    requires s'.store.(mutations := s.store.mutations) == s.store
    ensures WindowInv(s')
  {
  }

  lemma MutationBeginsKeepsWindow(s: State, k: nat)
    requires WindowInv(s) && k < |s.mutations|
    ensures WindowInv(MutationBegins(s, k))
  {
    var s' := MutationBegins(s, k);
    MarksKeepIds(s.store.items, Targets(s.mutations[k].target), map[]);
    var marked := s.(store := s'.store);
    MarkedKeepsWindow(s, s'.store);
    hide WindowInv, Readings, ShowsUnread, MarkIds;
    MutationsApart(marked, s');
  }

  lemma MutationSucceedsKeepsWindow(s: State, k: nat, unread: nat)
    requires BaseInv(s) && WindowInv(s) && k < |s.mutations| && InFlight(s.mutations[k])
    ensures WindowInv(MutationSucceeds(s, k, unread))
  {
    hide WindowInv;
    var mutation := s.mutations[k];
    if !IsCurrent(s.store, mutation.ctx) {
      MutationsApart(s, Settle(s, k, true));
    } else {
      var ids := Targets(mutation.target);
      MarksKeepIds(s.store.items, ids, map[]);
      MarkedKeepsWindow(s, MarkConfirmed(s.store, ids, unread));
      var marked := s.(store := MarkConfirmed(s.store, ids, unread), confirmed := s.confirmed + ids);
      MutationsApart(s.(store := MarkConfirmed(s.store, ids, unread)), marked);
      assert BaseInv(marked);
      ReconcileKeepsWindow(marked, Recovery, mutation.ctx);
      var after := Reconcile(marked, Recovery, mutation.ctx);
      hide BaseInv, Reconcile, MarkConfirmed;
      MutationsApart(marked, Settle(marked, k, true));
      if k < |after.mutations| { MutationsApart(after, Settle(after, k, true)); }
    }
  }

  lemma MutationFailsKeepsWindow(s: State, k: nat)
    requires BaseInv(s) && WindowInv(s) && k < |s.mutations| && InFlight(s.mutations[k])
    ensures WindowInv(MutationFails(s, k))
  {
    hide WindowInv;
    var mutation := s.mutations[k];
    if !IsCurrent(s.store, mutation.ctx) {
      MutationsApart(s, Settle(s, k, false));
    } else {
      MarksKeepIds(s.store.items, {}, mutation.previous);
      var st := MarkRolledBack(s.store, mutation.previous, mutation.previousCount);
      MarkedKeepsWindow(s, st);
      var back := s.(store := st);
      assert BaseInv(back);
      ReconcileKeepsWindow(back, Recovery, mutation.ctx);
      var after := Reconcile(back, Recovery, mutation.ctx);
      hide BaseInv, MarkRolledBack;
      MutationsApart(after, MutationFails(s, k));
    }
  }

  lemma MutationKeepsWindow(s: State, k: nat, ok: bool)
    requires BaseInv(s) && WindowInv(s) && k < |s.mutations| && StepOfMutation(s, k, ok).Some?
    ensures WindowInv(StepOfMutation(s, k, ok).value)
  {
    hide BaseInv, WindowInv, MutationBegins, MutationSucceeds, MutationFails, Unread;
    var s' := StepOfMutation(s, k, ok).value;
    match s.mutations[k].phase
    case Waiting => MutationBeginsKeepsWindow(s, k);
    case Sent => if ok { MutationsApart(s, s'); } else { MutationFailsKeepsWindow(s, k); }
    case Processed(unread) =>
      if ok { MutationSucceedsKeepsWindow(s, k, unread); } else { MutationFailsKeepsWindow(s, k); }
    case Recovering(_) => MutationsApart(s, s');
    case Settled(_) =>
  }

  // ----- Every run ------------------------------------------------------------------------------------------

  lemma EnqueuedKeepsWindow(s: State, target: Target)
    requires BaseInv(s) && WindowInv(s)
    ensures WindowInv(Enqueued(s, target))
  {
    OpeningKeepsWindow(s);
    hide WindowInv, BaseInv;
    MutationsApart(s.(store := Opened(s.store)), Enqueued(s, target));
  }

  lemma ToastsApart(s: State, toasts: seq<Id>)
    requires WindowInv(s)
    ensures WindowInv(s.(store := s.store.(toasts := toasts)))
  {
  }

  lemma OtherKeepsWindow(s: State, l: Label)
    requires BaseInv(s) && WindowInv(s) && Effect(s, l).Some? && !l.Insert?
    requires !l.LoopStep? && !l.MoreStep? && !l.MutationStep? && !l.CallLoadMore?
    ensures WindowInv(Effect(s, l).value)
  {
    hide WindowInv, BaseInv, Reconcile, Enqueued, ShowsUnread, Without;
    match l
    case ReadElsewhere(_) => MutationsApart(s, Effect(s, l).value);
    case AuthChanges => LeavingKeepsWindow(s);
    case CallReset => LeavingKeepsWindow(s);
    case CallReconcile(reason) =>
      OpeningKeeps(s);
      OpeningKeepsWindow(s);
      if SessionContext(s.store).Some? {
        ReconcileKeepsWindow(s.(store := Opened(s.store)), reason, SessionContext(s.store).value);
      }
    case Invalidate(reason, ctx) => ReconcileKeepsWindow(s, reason, ctx);
    case CallMarkRead(id) => EnqueuedKeepsWindow(s, One(id));
    case CallMarkAllRead =>
      EnqueuedKeepsWindow(s, Every(set i | 0 <= i < |s.store.items| && !s.store.items[i].read :: s.store.items[i].id));
    case Dismiss(id) => ToastsApart(s, Without(s.store.toasts, id));
    case _ =>
  }

  lemma NextKeepsWindow(s: State, l: Label)
    requires BaseInv(s) && WindowInv(s) && Next(s, l).Some? && !l.Insert?
    ensures WindowInv(Next(s, l).value)
  {
    hide BaseInv, WindowInv, StepOfLoop, StepOfMore, StepOfMutation, LoadMoreCalled;
    match l {
      case LoopStep(i, ok) => LoopKeepsWindow(s, i, ok);
      case MoreStep(m, ok) => MoreKeepsWindow(s, m, ok);
      case MutationStep(k, ok) => MutationKeepsWindow(s, k, ok);
      case CallLoadMore => LoadMoreKeepsWindow(s);
      case _ => OtherKeepsWindow(s, l);
    }
    hide Effect;
    MutationsApart(Effect(s, l).value, Next(s, l).value);
  }

  // No row is added or taken away.
  predicate FixedMembership(ls: seq<Label>) {
    forall i :: 0 <= i < |ls| ==> !ls[i].Insert?
  }

  lemma {:induction false} RunKeepsWindow(s: State, ls: seq<Label>)
    requires BaseInv(s) && WindowInv(s) && Run(s, ls).Some? && FixedMembership(ls)
    ensures WindowInv(Run(s, ls).value) && Run(s, ls).value.server.history == s.server.history
    decreases |ls|
  {
    hide BaseInv, WindowInv, Next;
    if |ls| > 0 {
      NextKeepsBase(s, ls[0]);
      NextKeepsWindow(s, ls[0]);
      HistoryStays(s, ls[0]);
      RunKeepsWindow(Next(s, ls[0]).value, ls[1..]);
    }
  }

  lemma HistoryStays(s: State, l: Label)
    requires Next(s, l).Some? && !l.Insert?
    ensures Next(s, l).value.server.history == s.server.history
  {
    hide StepOfLoop, StepOfMore, Reconcile, MoreLoops;
    match l
    case LoopStep(i, ok) => LoopFrame(s, i, ok);
    case MoreStep(m, ok) => MoreFrame(s, m, ok);
    case MutationStep(k, ok) => MutationHistory(s, k, ok);
    case CallLoadMore =>
      if SessionContext(s.store).Some? {
        MoreLoopsFrame(MoreBegun(s, SessionContext(s.store).value), |s.mores|);
      }
    case CallReconcile(reason) =>
      if SessionContext(s.store).Some? {
        ReconcileFrame(s.(store := Opened(s.store)), reason, SessionContext(s.store).value);
      }
    case Invalidate(reason, ctx) => ReconcileFrame(s, reason, ctx);
    case _ =>
  }

  lemma MutationHistory(s: State, k: nat, ok: bool)
    requires k < |s.mutations| && StepOfMutation(s, k, ok).Some?
    ensures StepOfMutation(s, k, ok).value.server.history == s.server.history
  {
    hide ShowsUnread, Readings, Unread;
  }

  // Over a history of fixed membership, under any interleaving of refreshes, pages,
  // marks, failures, resets and sign-ins: once there is a baseline the store shows
  // the first min(20 * loadedPages, n) rows, and it has a cursor exactly when that
  // is not all of them.
  lemma WindowRefined(server: Server, ls: seq<Label>)
    requires Distinct(server.history) && FixedMembership(ls) && Run(Init(server), ls).Some?
    ensures var st := Run(Init(server), ls).value.store;
            var h := server.history;
            && st.loadedPages >= 1
            && (st.hasBaseline ==>
                  && Ids(st.items) == h[..Min(PAGE * st.loadedPages, |h|)]
                  && (st.nextCursor.None? <==> |st.items| == |h|)
                  && (st.nextCursor.Some? ==>
                        |st.items| > 0 && st.nextCursor.value == st.items[|st.items| - 1].id))
            && (!st.hasBaseline ==> st.items == [] && st.nextCursor.None?)
  {
    InitBase(server);
    InitWindow(server);
    hide WindowInv, BaseInv, Window, CursorAfter, Distinct;
    RunKeepsWindow(Init(server), ls);
    hide Run, FixedMembership;
    WindowMeans(Run(Init(server), ls).value);
  }

  lemma InitWindow(server: Server)
    requires Distinct(server.history)
    ensures WindowInv(Init(server))
  {
  }

  lemma WindowMeans(s: State)
    requires WindowInv(s)
    ensures var st := s.store;
            var h := s.server.history;
            && st.loadedPages >= 1
            && (st.hasBaseline ==>
                  && Ids(st.items) == h[..Min(PAGE * st.loadedPages, |h|)]
                  && (st.nextCursor.None? <==> |st.items| == |h|)
                  && (st.nextCursor.Some? ==>
                        |st.items| > 0 && st.nextCursor.value == st.items[|st.items| - 1].id))
            && (!st.hasBaseline ==> st.items == [] && st.nextCursor.None?)
  {
    var st := s.store;
    hide LoopsWindow, MoresWindow, Distinct;
    assert |Ids(st.items)| == |st.items|;
    if |st.items| > 0 { assert Ids(st.items)[|st.items| - 1] == st.items[|st.items| - 1].id; }
  }
}
