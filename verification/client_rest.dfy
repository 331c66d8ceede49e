// How a session comes to rest, and that from any of its states it can go on to show the
// whole history as it is on the server, with the mutations under way left where they are.
module ClientRest {
  import opened Prelude
  import opened ClientStore
  import opened ClientRuns
  import opened ClientInv
  import opened ClientWindow
  import opened ClientOrder
  import opened ClientReads
  import opened ClientSettled

  // ----- Nothing waits in vain ---------------------------------------------------------------

  // A pagination awaits a loop of its own session.
  ghost predicate AwaitInv(loops: seq<Loop>, mores: seq<More>) {
    forall m :: 0 <= m < |mores| && mores[m].phase.Awaiting? ==>
      mores[m].phase.loop < |loops| && loops[mores[m].phase.loop].ctx == mores[m].ctx
  }

  // What shows that more is loading is a pagination under way.
  ghost predicate LoadingInv(st: Store, mores: seq<More>) {
    && (st.session.None? ==> !st.loadingMore)
    && (InSession(st) && st.loadingMore ==> exists m :: 0 <= m < |mores| && Busy(SessionOf(st), mores[m]))
  }

  // What a mutation would put back was on the server.
  ghost predicate PreviousInv(mutations: seq<Mutation>, history: seq<Id>) {
    forall k, id :: 0 <= k < |mutations| && id in mutations[k].previous ==> id in history
  }

  ghost predicate TailInv(s: State) {
    AwaitInv(s.loops, s.mores) && LoadingInv(s.store, s.mores) && PreviousInv(s.mutations, s.server.history)
  }

  lemma LoopKeepsTail(s: State, l: nat, ok: bool)
    requires TailInv(s) && l < |s.loops| && StepOfLoop(s, l, ok).Some?
    ensures TailInv(StepOfLoop(s, l, ok).value)
  {
    LoopFrame(s, l, ok);
    hide StepOfLoop, PreviousInv;
  }

  lemma ReconcileKeepsTail(s: State, reason: Reason, ctx: Context)
    requires TailInv(s)
    ensures TailInv(Reconcile(s, reason, ctx))
  {
    ReconcileFrame(s, reason, ctx);
    LoopsGrow(s, reason, ctx);
    hide Reconcile, PreviousInv;
  }

  lemma LoopsGrow(s: State, reason: Reason, ctx: Context)
    ensures s.loops <= Reconcile(s, reason, ctx).loops
  {
  }

  // A pagination that goes to wait does so for the current reconciliation, and one that
  // ends says that nothing is loading any more.
  lemma MoreGoesOn(s: State, m: nat, ok: bool)
    requires m < |s.mores| && StepOfMore(s, m, ok).Some?
    ensures var s', more := StepOfMore(s, m, ok).value, s.mores[m];
            && s.loops <= s'.loops && m < |s'.mores|
            && (s'.mores[m].phase.Awaiting? ==>
                  IsCurrent(s.store, more.ctx) && s'.store.reconciliation == Some(s'.mores[m].phase.loop))
            && (s'.mores[m].phase == Finished && IsCurrent(s.store, more.ctx) ==> !s'.store.loadingMore)
  {
    hide PageOf, PutAll, IdSet, Discovered;
  }

  lemma MoreKeepsTail(s: State, m: nat, ok: bool)
    requires BaseInv(s) && TailInv(s) && m < |s.mores| && StepOfMore(s, m, ok).Some?
    ensures TailInv(StepOfMore(s, m, ok).value)
  {
    var s' := StepOfMore(s, m, ok).value;
    MoreFrame(s, m, ok);
    MoreGoesOn(s, m, ok);
    MoreKeeps(s, m, ok);
    hide StepOfMore, PreviousInv, MoresInv, QueueInv;
    assert AwaitInv(s'.loops, s'.mores) by {
      hide LoadingInv;
    }
    hide AwaitInv, LoopsInv;
    if InSession(s'.store) && s'.store.loadingMore {
      var n :| 0 <= n < |s.mores| && Busy(SessionOf(s.store), s.mores[n]);
      assert Busy(SessionOf(s'.store), s'.mores[n]);
    }
  }

  lemma MutationGoesOn(s: State, k: nat, ok: bool)
    requires k < |s.mutations| && StepOfMutation(s, k, ok).Some?
    ensures MutationWent(s, StepOfMutation(s, k, ok).value, k)
  {
    hide Readings, ShowsUnread, MarkIds, Restore, Unread, ServerMarks, MutationBegins, MutationSucceeds, MutationFails;
    BeginGoesOn(s, k);
    EndGoesOn(s, k);
    if s.mutations[k].phase.Processed? { SuccessGoesOn(s, k, s.mutations[k].phase.unread); }
  }

  ghost predicate MutationWent(s: State, s': State, k: nat)
    requires k < |s.mutations|
  {
    && s.loops <= s'.loops && s'.store.loadingMore == s.store.loadingMore && k < |s'.mutations|
    && (s'.mutations[k].previous == s.mutations[k].previous
        || s'.mutations[k].previous == Readings(s.store.items, Targets(s.mutations[k].target)))
  }

  lemma BeginGoesOn(s: State, k: nat)
    requires k < |s.mutations|
    ensures MutationWent(s, MutationBegins(s, k), k)
  {
    hide Readings, ShowsUnread, MarkIds;
  }

  lemma EndGoesOn(s: State, k: nat)
    requires k < |s.mutations|
    ensures MutationWent(s, MutationFails(s, k), k)
  {
    hide Readings, Restore;
  }

  lemma SuccessGoesOn(s: State, k: nat, unread: nat)
    requires k < |s.mutations|
    ensures MutationWent(s, MutationSucceeds(s, k, unread), k)
  {
    hide Readings, MarkIds;
  }

  lemma MutationKeepsTail(s: State, k: nat, ok: bool)
    requires ReadsInv(s) && TailInv(s) && k < |s.mutations| && StepOfMutation(s, k, ok).Some?
    ensures TailInv(StepOfMutation(s, k, ok).value)
  {
    var s' := StepOfMutation(s, k, ok).value;
    MutationShape(s, k, ok);
    MutationGoesOn(s, k, ok);
    MutationHistory(s, k, ok);
    ReadingsAre(s.store.items, Targets(s.mutations[k].target));
    hide StepOfMutation, Readings, ShowsUnread, LoopsReads, MoresReads, MutationsReads, ReadIn;
    assert PreviousInv(s'.mutations, s'.server.history) by { hide AwaitInv, LoadingInv; }
  }

  lemma EnqueuedKeepsTail(s: State, target: Target)
    requires TailInv(s)
    ensures TailInv(Enqueued(s, target))
  {
  }

  lemma LoadMoreKeepsTail(s: State)
    requires BaseInv(s) && TailInv(s)
    ensures TailInv(LoadMoreCalled(s))
  {
    hide PreviousInv, MoresInv, QueueInv;
    if s.store.nextCursor.Some? && !s.store.loadingMore && SessionContext(s.store).Some? {
      var ctx := SessionContext(s.store).value;
      var begun, s' := MoreBegun(s, ctx), LoadMoreCalled(s);
      OpeningKeeps(s);
      MoreLoopsFrame(begun, |s.mores|);
      BeginningGoesOn(begun, |s.mores|);
      hide MoreLoops, LoopsInv;
      if s'.store.loadingMore { assert Busy(SessionOf(s'.store), s'.mores[|s.mores|]); }
    }
  }

  lemma BeginningGoesOn(s: State, m: nat)
    requires m < |s.mores| && IsCurrent(s.store, s.mores[m].ctx)
    ensures var s' := MoreLoops(s, m);
            && (s'.mores[m].phase.Awaiting? ==> s'.store.reconciliation == Some(s'.mores[m].phase.loop))
            && (s'.mores[m].phase == Finished ==> !s'.store.loadingMore)
  {
  }

  lemma OtherKeepsTail(s: State, l: Label)
    requires BaseInv(s) && TailInv(s) && Effect(s, l).Some?
    requires !l.LoopStep? && !l.MoreStep? && !l.MutationStep?
    ensures TailInv(Effect(s, l).value)
  {
    hide LoopsInv, MoresInv, QueueInv, Reconcile, Enqueued, ShowsUnread, Without, LoadMoreCalled, AwaitInv;
    match l
    case CallReconcile(reason) =>
      if SessionContext(s.store).Some? {
        ReconcileKeepsTail(s.(store := Opened(s.store)), reason, SessionContext(s.store).value);
      }
    case Invalidate(reason, ctx) => ReconcileKeepsTail(s, reason, ctx);
    case CallLoadMore => LoadMoreKeepsTail(s);
    case CallMarkRead(id) => EnqueuedKeepsTail(s, One(id));
    case CallMarkAllRead =>
      EnqueuedKeepsTail(s, Every(set i | 0 <= i < |s.store.items| && !s.store.items[i].read :: s.store.items[i].id));
    case Insert(id, at) =>
      var h := s.server.history;
      assert forall x :: x in h ==> x in h[..at] + [id] + h[at..] by { assert h == h[..at] + h[at..]; }
    case _ =>
  }

  lemma NextKeepsTail(s: State, l: Label)
    requires AllInv(s) && TailInv(s) && Next(s, l).Some?
    ensures TailInv(Next(s, l).value)
  {
    assert TailInv(Effect(s, l).value) by {
      hide BaseInv, ReadsInv, OrderInv, FreshInv, TailInv, StepOfLoop, StepOfMore, StepOfMutation;
      match l
      case LoopStep(i, ok) => LoopKeepsTail(s, i, ok);
      case MoreStep(m, ok) => MoreKeepsTail(s, m, ok);
      case MutationStep(k, ok) => MutationKeepsTail(s, k, ok);
      case _ => OtherKeepsTail(s, l);
    }
    hide AllInv, Effect, AwaitInv, LoadingInv, PreviousInv;
    assert Next(s, l).value.store == Effect(s, l).value.store;
  }

  // ----- Every reachable state -----------------------------------------------------------------

  ghost predicate RestInv(s: State) {
    AllInv(s) && TailInv(s)
  }

  lemma {:induction false} RunKeepsRest(s: State, ls: seq<Label>)
    requires RestInv(s) && Run(s, ls).Some?
    ensures RestInv(Run(s, ls).value)
    decreases |ls|
  {
    hide AllInv, TailInv, Next;
    if |ls| > 0 {
      NextKeepsAll(s, ls[0]);
      NextKeepsTail(s, ls[0]);
      RunKeepsRest(Next(s, ls[0]).value, ls[1..]);
    }
  }

  lemma InitRest(server: Server)
    requires Distinct(server.history)
    ensures RestInv(Init(server))
  {
    InitAll(server);
    hide AllInv;
  }

  // ----- Continuations of a session ---------------------------------------------------------------

  // Some continuation of the session leads there.
  ghost predicate Leads(s: State, s': State) {
    SessionOf(s'.store) == SessionOf(s.store) && exists ls :: Run(s, ls) == Some(s')
  }

  lemma LeadsHere(s: State)
    ensures Leads(s, s)
  {
    assert Run(s, []) == Some(s);
  }

  lemma LeadsOn(s: State, s1: State, s2: State)
    requires Leads(s, s1) && Leads(s1, s2)
    ensures Leads(s, s2)
  {
    hide Run;
    var ls :| Run(s, ls) == Some(s1);
    var more :| Run(s1, more) == Some(s2);
    RunOn(s, ls, more);
  }

  lemma LeadsKeepsRest(s: State, s': State)
    requires RestInv(s) && Leads(s, s')
    ensures RestInv(s')
  {
    hide RestInv, Run;
    var ls :| Run(s, ls) == Some(s');
    RunKeepsRest(s, ls);
  }

  // One more step.
  lemma Goes(s: State, s1: State, l: Label) returns (s': State)
    requires RestInv(s) && Leads(s, s1) && Next(s1, l).Some? && SessionOf(Next(s1, l).value.store) == SessionOf(s1.store)
    ensures Next(s1, l) == Some(s') && Leads(s, s') && RestInv(s')
  {
    s' := Next(s1, l).value;
    hide RestInv, Next;
    assert [l][1..] == [] && [l][0] == l;
    assert Run(s', []) == Some(s');
    assert Run(s1, [l]) == Some(s');
    hide Run;
    assert Leads(s1, s');
    LeadsOn(s, s1, s');
    LeadsKeepsRest(s, s');
  }

  // ----- Coming to rest -------------------------------------------------------------------------------

  // The server, the mutations and their queue stay as they are.
  ghost predicate Aside(s: State, s': State) {
    && s'.server == s.server && s'.mutations == s.mutations
    && s'.store.mutations == s.store.mutations && s'.store.mutationEpoch == s.store.mutationEpoch
  }

  ghost predicate SameWindow(st: Store, st': Store) {
    st'.items == st.items && st'.nextCursor == st.nextCursor && st'.loadedPages == st.loadedPages
    && st'.unreadCount == st.unreadCount
  }

  predicate AtRest(st: Store) {
    st.reconciliation.None? && !st.loadingMore
  }

  function LoopRank(s: State): nat {
    if s.store.reconciliation.None? || s.store.reconciliation.value >= |s.loops| then 0
    else
      (match s.loops[s.store.reconciliation.value].phase
       case Gone => 0
       case Exited => 1
       case Between => 2
       case _ => 3) + (if s.store.queued.Some? then 3 else 0)
  }

  // The reconciliation of a session is a loop of that session.
  lemma LoopOfSession(s: State)
    requires BaseInv(s) && InSession(s.store) && s.store.reconciliation.Some?
    ensures var l := s.store.reconciliation.value;
            l < |s.loops| && s.loops[l].phase != Gone && IsCurrent(s.store, s.loops[l].ctx)
  {
    hide MoresInv, QueueInv;
  }

  // A step of the loop whose request fails brings it nearer to its end.
  lemma LoopFails(s: State)
    requires BaseInv(s) && InSession(s.store) && s.store.reconciliation.Some?
    ensures var l := LoopStep(s.store.reconciliation.value, false);
            && Next(s, l).Some?
            && var s' := Next(s, l).value;
               && SessionOf(s'.store) == SessionOf(s.store) && Aside(s, s') && SameWindow(s.store, s'.store)
               && s'.store.loadingMore == s.store.loadingMore && LoopRank(s') < LoopRank(s)
  {
    LoopOfSession(s);
    hide BaseInv, PageOf;
  }

  lemma {:induction false} LoopEnds(s: State) returns (s': State)
    requires RestInv(s) && InSession(s.store)
    ensures Leads(s, s') && RestInv(s') && Aside(s, s') && SameWindow(s.store, s'.store)
    ensures s'.store.reconciliation.None? && s'.store.loadingMore == s.store.loadingMore
    decreases LoopRank(s)
  {
    LeadsHere(s);
    s' := s;
    if s.store.reconciliation.Some? {
      assert BaseInv(s);
      hide RestInv, BaseInv, Next;
      LoopFails(s);
      var s1 := Goes(s, s, LoopStep(s.store.reconciliation.value, false));
      hide LoopRank, Leads;
      s' := LoopEnds(s1);
      LeadsOn(s, s1, s');
    }
  }

  // With no reconciliation left, a pagination goes on; if its request fails it ends.
  lemma MoreFails(s: State, m: nat)
    requires BaseInv(s) && AwaitInv(s.loops, s.mores) && s.store.reconciliation.None?
    requires m < |s.mores| && Busy(SessionOf(s.store), s.mores[m])
    ensures var l := MoreStep(m, false);
            && Next(s, l).Some?
            && var s' := Next(s, l).value;
               && SessionOf(s'.store) == SessionOf(s.store) && Aside(s, s') && SameWindow(s.store, s'.store)
               && s'.store.reconciliation.None? && m < |s'.mores|
               && (s'.store.loadingMore ==> Busy(SessionOf(s'.store), s'.mores[m]) && s.mores[m].phase.Awaiting?)
               && !s'.mores[m].phase.Awaiting?
  {
    hide MoresInv, QueueInv, PageOf;
  }

  lemma MoreEndsToo(s: State) returns (s': State)
    requires RestInv(s) && InSession(s.store) && s.store.reconciliation.None?
    ensures Leads(s, s') && RestInv(s') && Aside(s, s') && SameWindow(s.store, s'.store) && AtRest(s'.store)
  {
    LeadsHere(s);
    s' := s;
    if s.store.loadingMore {
      var m :| 0 <= m < |s.mores| && Busy(SessionOf(s.store), s.mores[m]);
      assert BaseInv(s) && AwaitInv(s.loops, s.mores);
      hide AllInv, TailInv, Leads, Next;
      MoreFails(s, m);
      s' := Goes(s, s, MoreStep(m, false));
      if s'.store.loadingMore {
        var s1 := s';
        assert BaseInv(s1) && AwaitInv(s1.loops, s1.mores) by { RestParts(s1); }
        MoreFails(s1, m);
        s' := Goes(s, s1, MoreStep(m, false));
      }
    }
  }

  lemma RestParts(s: State)
    requires RestInv(s)
    ensures BaseInv(s) && OrderInv(s) && ReadsInv(s) && AwaitInv(s.loops, s.mores)
  {
  }

  lemma GoesToRest(s: State) returns (s': State)
    requires RestInv(s) && InSession(s.store)
    ensures Leads(s, s') && RestInv(s') && Aside(s, s') && SameWindow(s.store, s'.store) && AtRest(s'.store)
  {
    hide RestInv;
    var s1 := LoopEnds(s);
    s' := MoreEndsToo(s1);
    LeadsOn(s, s1, s');
  }

  // ----- Refreshing --------------------------------------------------------------------------------------

  // The first pages as they are on the server.
  function First(server: Server, pages: nat): seq<Item> {
    Slice(server, 0, Min(PAGE * pages, |server.history|))
  }

  ghost predicate Mirrors(s: State) {
    && s.store.loadedPages >= 1
    && s.store.items == First(s.server, s.store.loadedPages) && s.store.unreadCount == Unread(s.server)
    && s.store.nextCursor == CursorAfter(s.server.history, s.store.loadedPages)
  }

  lemma NextOfFirst(server: Server, pages: nat)
    requires Distinct(server.history) && (pages == 0 || PAGE * pages < |server.history|)
    ensures var page := PageOf(server, CursorAfter(server.history, pages));
            && PutAll(First(server, pages), page.items) == First(server, pages + 1)
            && page.next == CursorAfter(server.history, pages + 1)
  {
    var h := server.history;
    var rows, next := First(server, pages), First(server, pages + 1);
    var page := PageOf(server, CursorAfter(h, pages));
    NextPage(server, pages);
    FirstIs(server, pages);
    FirstIs(server, pages + 1);
    PageTruly(server, CursorAfter(h, pages));
    WindowDistinct(h, pages + 1);
    hide PageOf, First, Window, CursorAfter, Distinct, PutAll, Ids, Truly;
    TrueRowsJoin(server, rows, page.items, next);
  }

  lemma TrueRowsJoin(server: Server, rows: seq<Item>, more: seq<Item>, all: seq<Item>)
    requires Distinct(Ids(all)) && Ids(rows) + Ids(more) == Ids(all)
    requires Truly(server, rows) && Truly(server, more) && Truly(server, all)
    ensures PutAll(rows, more) == all
  {
    PutAllAppends(rows, more);
    assert Ids(rows + more) == Ids(rows) + Ids(more);
    SameRows(server, rows + more, all);
  }

  lemma FirstIs(server: Server, pages: nat)
    ensures Ids(First(server, pages)) == Window(server.history, pages) && Truly(server, First(server, pages))
  {
  }

  lemma PageCounts(server: Server, cursor: Option<Id>)
    ensures PageOf(server, cursor).unread == Unread(server)
  {
    hide Unread, Slice, Position;
  }

  // Rows as the server has them.
  ghost predicate Truly(server: Server, rows: seq<Item>) {
    forall i :: 0 <= i < |rows| ==> rows[i] == Item(rows[i].id, rows[i].id in server.read)
  }

  lemma PageTruly(server: Server, cursor: Option<Id>)
    ensures Truly(server, PageOf(server, cursor).items)
  {
    hide Position, Unread;
  }

  lemma SameRows(server: Server, a: seq<Item>, b: seq<Item>)
    requires Truly(server, a) && Truly(server, b) && Ids(a) == Ids(b)
    ensures a == b
  {
    forall i | 0 <= i < |a|
      ensures i < |b| && a[i] == b[i]
    {
      assert Ids(a)[i] == a[i].id && Ids(b)[i] == b[i].id;
    }
  }

  // The loop has collected the first pages and asks for the next one.
  ghost predicate Collecting(s: State, l: nat) {
    && l < |s.loops| && s.store.reconciliation == Some(l) && IsCurrent(s.store, s.loops[l].ctx)
    && var loop := s.loops[l];
       && loop.phase == Asking && loop.epoch == s.store.mutationEpoch && loop.pages < s.store.loadedPages
       && loop.rows == First(s.server, loop.pages) && loop.cursor == CursorAfter(s.server.history, loop.pages)
       && (loop.pages == 0 || PAGE * loop.pages < |s.server.history|)
  }

  lemma RefreshStarts(s: State)
    requires InSession(s.store) && s.store.reconciliation.None? && s.store.loadedPages >= 1
    ensures Next(s, CallReconcile(Manual)).Some?
    ensures var s' := Next(s, CallReconcile(Manual)).value;
            && Collecting(s', |s.loops|) && Aside(s, s') && SessionOf(s'.store) == SessionOf(s.store)
            && s'.store.loadingMore == s.store.loadingMore && s'.store.loadedPages == s.store.loadedPages
  {
    assert First(s.server, 0) == [];
  }

  lemma PageIsSent(s: State, l: nat)
    requires Collecting(s, l)
    ensures Next(s, LoopStep(l, true)) == Some(WithLoop(s, l, s.loops[l].(phase := Answered(PageOf(s.server, s.loops[l].cursor)))).(
                                                 clock := s.clock + 1))
  {
    hide PageOf;
  }

  // The page is added to the rows, or completes them.
  ghost predicate PageAdded(s: State, s': State, l: nat) {
    && l < |s.loops| && Aside(s, s') && SessionOf(s'.store) == SessionOf(s.store)
    && s'.store.loadingMore == s.store.loadingMore && s'.store.loadedPages <= s.store.loadedPages
    && (Mirrors(s') || (Collecting(s', l) && s'.loops[l].pages == s.loops[l].pages + 1))
  }

  lemma PageIsAdded(s: State, l: nat)
    requires OrderInv(s) && l < |s.loops| && s.loops[l].phase.Answered?
    requires Collecting(WithLoop(s, l, s.loops[l].(phase := Asking)), l)
    requires s.loops[l].phase.page == PageOf(s.server, s.loops[l].cursor)
    ensures Next(s, LoopStep(l, true)).Some?
    ensures PageAdded(s, Next(s, LoopStep(l, true)).value, l)
  {
    var loop := s.loops[l];
    CollectedSoFar(s, l);
    assert Distinct(s.server.history) by { hide StoreDeep, LoopsDeep, MoresDeep, SameCursor; }
    hide OrderInv, Distinct, PageOf, First, CursorAfter, PutAll, Unread, Next, Mirrors, Collecting;
    NextOfFirst(s.server, loop.pages);
    CursorMeans(s.server.history, loop.pages + 1);
    PageCounts(s.server, loop.cursor);
    PageTaken(s, l, loop.phase.page);
  }

  lemma CollectedSoFar(s: State, l: nat)
    requires l < |s.loops| && Collecting(WithLoop(s, l, s.loops[l].(phase := Asking)), l)
    ensures var loop := s.loops[l];
            && loop.cursor == CursorAfter(s.server.history, loop.pages)
            && (loop.pages == 0 || PAGE * loop.pages < |s.server.history|)
  {
    hide First, CursorAfter;
  }

  lemma PageTaken(s: State, l: nat, page: Page)
    requires l < |s.loops| && s.loops[l].phase == Answered(page)
    requires Collecting(WithLoop(s, l, s.loops[l].(phase := Asking)), l)
    requires var pages := s.loops[l].pages + 1;
             && PutAll(First(s.server, s.loops[l].pages), page.items) == First(s.server, pages)
             && page.next == CursorAfter(s.server.history, pages)
             && (page.next.Some? ==> PAGE * pages < |s.server.history|) && page.unread == Unread(s.server)
    ensures Next(s, LoopStep(l, true)).Some?
    ensures PageAdded(s, Next(s, LoopStep(l, true)).value, l)
  {
    var loop := s.loops[l];
    var s' := PageArrives(s, l, page);
    assert Next(s, LoopStep(l, true)) == Some(s'.(clock := s.clock + 1)) by { hide PageArrives; }
    hide First, CursorAfter, PutAll, Next, RefreshApplied, Discovered;
    if !(loop.pages + 1 < s.store.loadedPages && page.next.Some?) {
      AppliedMirrors(s, l, First(s.server, loop.pages + 1), page);
    }
    hide Refreshed;
  }

  lemma AppliedMirrors(s: State, l: nat, rows: seq<Item>, page: Page)
    requires l < |s.loops| && s.loops[l].pages < s.store.loadedPages
    requires var pages := s.loops[l].pages + 1;
             && rows == First(s.server, pages) && page.next == CursorAfter(s.server.history, pages)
             && page.unread == Unread(s.server)
    ensures var s' := Refreshed(s, l, rows, page, s.loops[l].pages + 1);
            && Aside(s, s') && SessionOf(s'.store) == SessionOf(s.store) && s'.store.loadingMore == s.store.loadingMore
            && s'.store.loadedPages <= s.store.loadedPages && Mirrors(s') && Mirrors(s'.(clock := s.clock + 1))
  {
    hide First, CursorAfter, IdSet, AddPending, Discovered;
  }

  lemma {:induction false} Collects(s: State, l: nat) returns (s': State)
    requires RestInv(s) && Collecting(s, l)
    ensures Leads(s, s') && RestInv(s') && Aside(s, s') && Mirrors(s')
    ensures s'.store.loadingMore == s.store.loadingMore && s'.store.loadedPages <= s.store.loadedPages
    decreases s.store.loadedPages - s.loops[l].pages
  {
    LeadsHere(s);
    hide RestInv, Leads, Mirrors, PageOf, First, Next;
    PageIsSent(s, l);
    var s1 := Goes(s, s, LoopStep(l, true));
    assert Collecting(WithLoop(s1, l, s1.loops[l].(phase := Asking)), l) by {
      assert s1.loops[l].(phase := Asking) == s.loops[l];
    }
    RestParts(s1);
    hide Collecting;
    PageIsAdded(s1, l);
    var s2 := Goes(s, s1, LoopStep(l, true));
    s' := s2;
    if !Mirrors(s2) {
      s' := Collects(s2, l);
      LeadsOn(s, s2, s');
    }
  }

  // A session can refresh its window to what the server has.
  lemma Refreshes(s: State) returns (s': State)
    requires RestInv(s) && InSession(s.store)
    ensures Leads(s, s') && RestInv(s') && Aside(s, s') && Mirrors(s') && AtRest(s'.store)
    ensures s'.store.loadedPages <= s.store.loadedPages
  {
    hide RestInv, Run, Mirrors, Next, Collecting;
    var s1 := GoesToRest(s);
    assert s1.store.loadedPages >= 1 by { RestParts(s1); }
    RefreshStarts(s1);
    var s2 := Goes(s, s1, CallReconcile(Manual));
    var s3 := Collects(s2, |s1.loops|);
    LeadsOn(s, s2, s3);
    s' := GoesToRest(s3);
    LeadsOn(s, s3, s');
    StillMirrors(s3, s');
  }

  lemma StillMirrors(s: State, s': State)
    requires Mirrors(s) && s'.server == s.server && SameWindow(s.store, s'.store)
    ensures Mirrors(s')
  {
  }

  // ----- Loading the rest ------------------------------------------------------------------------------------

  lemma MoreAsked(s: State)
    requires InSession(s.store) && AtRest(s.store) && s.store.nextCursor.Some?
    ensures Next(s, CallLoadMore).Some?
    ensures var s', ctx := Next(s, CallLoadMore).value, Context(s.store.generation, s.store.auth);
            && s'.mores == s.mores + [More(ctx, Requested, s.store.nextCursor.value, s.store.readEpoch, s.store.mutationEpoch)]
            && s'.store == s.store.(loadingMore := true) && s'.server == s.server && s'.mutations == s.mutations
  {
  }

  lemma MoreAnswered(s: State, m: nat)
    requires m < |s.mores| && s.mores[m].phase == Requested
    ensures Next(s, MoreStep(m, true)) ==
              Some(WithMore(s, m, s.mores[m].(phase := Received(PageOf(s.server, Some(s.mores[m].cursor))))).(clock := s.clock + 1))
  {
    hide PageOf;
  }

  lemma MoreAdded(s: State, m: nat, page: Page)
    requires m < |s.mores| && s.mores[m].phase == Received(page) && IsCurrent(s.store, s.mores[m].ctx)
    requires s.mores[m].readEpoch == s.store.readEpoch && s.mores[m].mutationEpoch == s.store.mutationEpoch
    ensures Next(s, MoreStep(m, true)).Some?
    ensures var s' := Next(s, MoreStep(m, true)).value;
            s'.store == MoreApplied(s.store, page) && s'.server == s.server && s'.mutations == s.mutations
  {
    hide PutAll, IdSet, Discovered;
  }

  lemma PageLoads(s: State) returns (s': State)
    requires RestInv(s) && InSession(s.store) && AtRest(s.store) && s.store.nextCursor.Some?
    ensures Leads(s, s') && RestInv(s') && s'.server == s.server && s'.mutations == s.mutations
    ensures s'.store == MoreApplied(s.store, PageOf(s.server, s.store.nextCursor))
  {
    LeadsHere(s);
    hide RestInv, Leads, Next, PageOf, PutAll, IdSet;
    MoreAsked(s);
    var m := |s.mores|;
    var s1 := Goes(s, s, CallLoadMore);
    MoreAnswered(s1, m);
    var s2 := Goes(s, s1, MoreStep(m, true));
    MoreAdded(s2, m, PageOf(s.server, s.store.nextCursor));
    s' := Goes(s, s2, MoreStep(m, true));
  }

  // One more page.
  lemma LoadsMore(s: State) returns (s': State)
    requires RestInv(s) && InSession(s.store) && AtRest(s.store) && Mirrors(s) && s.store.nextCursor.Some?
    ensures Leads(s, s') && RestInv(s') && Aside(s, s') && AtRest(s'.store) && Mirrors(s')
    ensures s'.store.loadedPages == s.store.loadedPages + 1
  {
    assert Distinct(s.server.history) by { RestParts(s); hide BaseInv, ReadsInv, StoreDeep, LoopsDeep, MoresDeep, SameCursor; }
    CursorMeans(s.server.history, s.store.loadedPages);
    NextOfFirst(s.server, s.store.loadedPages);
    PageCounts(s.server, s.store.nextCursor);
    hide RestInv, Leads, Unread, PageOf, First, CursorAfter, Distinct, PutAll;
    s' := PageLoads(s);
    OneMore(s, s', PageOf(s.server, s.store.nextCursor));
  }

  lemma OneMore(s: State, s': State, page: Page)
    requires Mirrors(s) && s'.server == s.server && s'.store == MoreApplied(s.store, page)
    requires PutAll(First(s.server, s.store.loadedPages), page.items) == First(s.server, s.store.loadedPages + 1)
    requires page.next == CursorAfter(s.server.history, s.store.loadedPages + 1) && page.unread == Unread(s.server)
    ensures Mirrors(s')
  {
    hide First, CursorAfter, PutAll;
  }

  lemma {:induction false} LoadsAll(s: State) returns (s': State)
    requires RestInv(s) && InSession(s.store) && AtRest(s.store) && Mirrors(s)
    ensures Leads(s, s') && RestInv(s') && Aside(s, s') && Mirrors(s') && s'.store.nextCursor.None?
    decreases |s.server.history| - PAGE * s.store.loadedPages
  {
    LeadsHere(s);
    s' := s;
    if s.store.nextCursor.Some? {
      CursorMeans(s.server.history, s.store.loadedPages);
      assert PAGE * s.store.loadedPages < |s.server.history|;
      hide RestInv, Run, Mirrors;
      var s1 := LoadsMore(s);
      s' := LoadsAll(s1);
      LeadsOn(s, s1, s');
    }
  }

  // From any state of a session it can go on to show every row as the server has it,
  // with no mutation having taken a step.
  lemma ShowsAll(s: State) returns (s': State)
    requires RestInv(s) && InSession(s.store)
    ensures Leads(s, s') && RestInv(s') && Aside(s, s')
    ensures s'.store.items == Slice(s.server, 0, |s.server.history|) && s'.store.unreadCount == Unread(s.server)
  {
    hide RestInv, Run, Mirrors, First, CursorAfter;
    var s1 := Refreshes(s);
    s' := LoadsAll(s1);
    LeadsOn(s, s1, s');
    WholeHistory(s');
  }

  lemma WholeHistory(s: State)
    requires Mirrors(s) && s.store.nextCursor.None?
    ensures s.store.items == Slice(s.server, 0, |s.server.history|) && s.store.unreadCount == Unread(s.server)
  {
  }
}
