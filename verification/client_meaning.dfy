// What each step of the notifications store does, told from what comes of it: when it can
// happen, which of its outcomes it has, and what it leaves in every field.
module ClientMeaning {
  import opened Prelude
  import opened ClientStore
  import opened ClientRuns
  import opened ClientInv

  // ----- Pages ---------------------------------------------------------------------------

  // The rows a page brings say what the server says, its count is that of all unread rows,
  // and it has a cursor, its last row, exactly when the history goes on.
  lemma PageMeans(server: Server, from: nat)
    requires from <= |server.history| && forall i, j :: 0 <= i < j < |server.history| ==> server.history[i] != server.history[j]
    ensures var h := server.history;
            var page := PageOf(server, if from == 0 then None else Some(h[from - 1]));
            var n := if |h| - from < 20 then |h| - from else 20;
            && |page.items| == n
            && (forall i :: 0 <= i < n ==> page.items[i] == Item(h[from + i], h[from + i] in server.read))
            && page.next == (if from + 20 < |h| then Some(h[from + 19]) else None)
            && page.unread == |set x | x in h && x !in server.read|
  {
    var h := server.history;
    if from > 0 { PlaceOf(h, from - 1); }
    var unread := set i | 0 <= i < |h| && h[i] !in server.read :: h[i];
    assert unread == set x | x in h && x !in server.read;
  }

  lemma {:induction false} PlaceOf(h: seq<Id>, i: nat)
    requires i < |h| && forall j, k :: 0 <= j < k < |h| ==> h[j] != h[k]
    ensures Position(h, h[i]) == i
  {
    if i > 0 { PlaceOf(h[1..], i - 1); }
  }

  // ----- Reconciliations --------------------------------------------------------------------

  // An answer that counts: it came, for the session that is open, and no mark has been
  // confirmed since the refresh began.
  predicate Usable(s: State, loop: Loop, ok: bool) {
    loop.phase.Answered? && ok && IsCurrent(s.store, loop.ctx) && loop.epoch == s.store.mutationEpoch
  }

  predicate GoesOn(s: State, loop: Loop, ok: bool) {
    Usable(s, loop, ok) && loop.pages + 1 < s.store.loadedPages && loop.phase.page.next.Some?
  }

  predicate Completes(s: State, loop: Loop, ok: bool) {
    Usable(s, loop, ok) && !GoesOn(s, loop, ok)
  }

  predicate BeginsAgain(s: State, loop: Loop) {
    loop.phase == Between && IsCurrent(s.store, loop.ctx) && s.store.queued.Some?
  }

  lemma LoopMoves(s: State, l: nat, ok: bool)
    requires l < |s.loops|
    ensures Next(s, LoopStep(l, ok)).Some? <==> s.loops[l].phase != Gone
    ensures Next(s, LoopStep(l, ok)).Some? ==>
              var s' := Next(s, LoopStep(l, ok)).value;
              LoopTurned(s, s', l, ok)
  {
    hide PageOf, PutAll, AddPending, IdSet, Discovered, Toasts, LoopTurned, PageArrives;
    match s.loops[l].phase
    case Answered(page) => if ok { PageTurns(s, l, page); } else { LoopRests(s, l, ok); }
    case Gone =>
    case _ => LoopRests(s, l, ok);
  }

  ghost predicate LoopTurned(s: State, s': State, l: nat, ok: bool)
    requires l < |s.loops|
  {
    && |s'.loops| == |s.loops| && s'.loops == s.loops[l := s'.loops[l]] && s'.server == s.server
    && s'.mores == s.mores && s'.mutations == s.mutations
    && LoopTurns(s, s.loops[l], s'.loops[l], ok) && LoopShows(s, s', s.loops[l], ok)
  }

  lemma PageTurns(s: State, l: nat, page: Page)
    requires l < |s.loops| && s.loops[l].phase == Answered(page)
    ensures LoopTurned(s, PageArrives(s, l, page).(clock := s.clock + 1), l, true)
  {
    var s' := PageArrives(s, l, page);
    hide PutAll, AddPending, IdSet, Discovered;
    assert LoopTurns(s, s.loops[l], s'.loops[l], true) by { hide LoopShows; }
    assert LoopShows(s, s'.(clock := s.clock + 1), s.loops[l], true) by { hide LoopTurns; }
    hide LoopTurns, LoopShows;
  }

  lemma LoopRests(s: State, l: nat, ok: bool)
    requires l < |s.loops| && s.loops[l].phase != Gone && !(s.loops[l].phase.Answered? && ok)
    ensures StepOfLoop(s, l, ok).Some?
    ensures LoopTurned(s, StepOfLoop(s, l, ok).value.(clock := s.clock + 1), l, ok)
  {
    var s' := StepOfLoop(s, l, ok).value;
    hide PageOf, PutAll, AddPending, IdSet, Discovered, Toasts, PageArrives;
    assert LoopTurns(s, s.loops[l], s'.loops[l], ok) by { hide LoopShows; }
    assert LoopShows(s, s'.(clock := s.clock + 1), s.loops[l], ok) by { hide LoopTurns; }
    hide LoopTurns, LoopShows;
  }

  // Where the loop goes.
  ghost predicate LoopTurns(s: State, loop: Loop, loop': Loop, ok: bool) {
    && loop'.ctx == loop.ctx
    && (loop'.phase.Answered? <==> loop.phase == Asking && ok)
    && (loop'.phase.Answered? ==> loop' == loop.(phase := Answered(PageOf(s.server, loop.cursor))))
    && (loop'.phase == Asking <==> GoesOn(s, loop, ok) || BeginsAgain(s, loop))
    && (GoesOn(s, loop, ok) ==>
          loop' == loop.(phase := Asking, rows := PutAll(loop.rows, loop.phase.page.items),
                         cursor := loop.phase.page.next, pages := loop.pages + 1))
    && (BeginsAgain(s, loop) ==>
          loop' == Loop(loop.ctx, Asking, s.store.queued.value, s.store.mutationEpoch, [], None, 0))
    && (loop'.phase.LoadingAccounts? <==> Completes(s, loop, ok))
    && (loop'.phase.LoadingAccounts? ==> loop'.phase.since == s.clock)
    && (loop'.phase == Between <==>
          || (loop.phase == Asking && !ok) || (loop.phase.Answered? && !Usable(s, loop, ok)) || loop.phase.LoadingAccounts?)
    && (loop'.phase == Exited <==> loop.phase == Between && !BeginsAgain(s, loop))
    && (loop'.phase == Gone <==> loop.phase == Exited)
  }

  // What it leaves in the store.
  ghost predicate LoopShows(s: State, s': State, loop: Loop, ok: bool) {
    var st, st' := s.store, s'.store;
    && (if Completes(s, loop, ok) then
          var page := loop.phase.page;
          && st'.items == PutAll(loop.rows, page.items) && st'.unreadCount == page.unread && st'.nextCursor == page.next
          && st'.loadedPages == loop.pages + 1 && st'.hasBaseline && st'.known == st.known + IdSet(st'.items)
        else
          && st'.items == st.items && st'.unreadCount == st.unreadCount && st'.nextCursor == st.nextCursor
          && st'.loadedPages == st.loadedPages && st'.hasBaseline == st.hasBaseline && st'.known == st.known)
    && (if loop.phase.LoadingAccounts? && ok && IsCurrent(st, loop.ctx) then
          st'.toasts == st.toasts + st.pendingLive && st'.pendingLive == []
        else st'.toasts == st.toasts)
    && (if BeginsAgain(s, loop) then st'.queued.None? && st'.readEpoch == st.readEpoch + 1
        else st'.readEpoch == st.readEpoch)
    && (loop.phase.Answered? && ok && IsCurrent(st, loop.ctx) && loop.epoch != st.mutationEpoch ==>
          st'.queued == if st.queued == Some(Live) then Some(Live) else Some(Recovery))
    && st'.mutationEpoch == st.mutationEpoch && st'.loadingMore == st.loadingMore && SessionOf(st') == SessionOf(st)
  }

  // A call to reconcile opens the session if none is open, and starts a refresh from the
  // first page or leaves its reason with the one that runs.
  lemma ReconcileMoves(s: State, reason: Reason)
    ensures Next(s, CallReconcile(reason)).Some?
    ensures var s', st := Next(s, CallReconcile(reason)).value, s.store;
            var mine := st.session.None? || st.session == Some(st.auth);
            && s'.store.session == (if st.session.None? then Some(st.auth) else st.session)
            && (mine && st.reconciliation.None? ==>
                  && s'.loops == s.loops + [Loop(Context(st.generation, st.auth), Asking, reason, st.mutationEpoch, [], None, 0)]
                  && s'.store.reconciliation == Some(|s.loops|) && s'.store.readEpoch == st.readEpoch + 1
                  && s'.store.queued == st.queued)
            && (mine && st.reconciliation.Some? ==>
                  && s'.loops == s.loops && s'.store.readEpoch == st.readEpoch
                  && s'.store.queued == Some(if st.queued == Some(Live) then Live else reason))
            && (!mine ==> s' == s.(clock := s.clock + 1))
            && s'.store.items == st.items && s'.store.unreadCount == st.unreadCount
            && s'.mores == s.mores && s'.mutations == s.mutations && s'.server == s.server
  {
  }

  // An event does the same for the session it was meant for, and nothing for another.
  lemma InvalidateMoves(s: State, reason: Reason, ctx: Context)
    ensures Next(s, Invalidate(reason, ctx)).Some?
    ensures Next(s, Invalidate(reason, ctx)) == if IsCurrent(s.store, ctx) then Next(s, CallReconcile(reason))
                                                else Some(s.(clock := s.clock + 1))
  {
  }

  // ----- Further pages --------------------------------------------------------------------------

  predicate Asks(s: State, more: More) {
    IsCurrent(s.store, more.ctx) && s.store.nextCursor.Some?
  }

  // The page was asked for before the last confirmed mark, or before the last refresh.
  predicate Outdated(s: State, more: More) {
    more.mutationEpoch != s.store.mutationEpoch || more.readEpoch != s.store.readEpoch
  }

  predicate Arrives(s: State, more: More, ok: bool) {
    more.phase.Received? && ok && IsCurrent(s.store, more.ctx)
  }

  lemma MoreMoves(s: State, m: nat, ok: bool)
    requires m < |s.mores|
    ensures Next(s, MoreStep(m, ok)).Some? <==>
            && s.mores[m].phase != Finished
            && (s.mores[m].phase.Awaiting? && s.mores[m].phase.loop < |s.loops| ==>
                  s.loops[s.mores[m].phase.loop].phase == Gone)
    ensures Next(s, MoreStep(m, ok)).Some? ==>
              var s' := Next(s, MoreStep(m, ok)).value;
              MoreTurned(s, s', m, ok)
  {
    hide PageOf, MoreTurned, MoreArrives, MoreLoops, MoreAsks, MoreEnds;
    match s.mores[m].phase
    case Awaiting(_, _) => MoreWakes(s, m, ok);
    case Requested => MoreIsAnswered(s, m, ok);
    case Received(page) => if ok { MoreTakes(s, m, page); } else { MoreBreaks(s, m); }
    case Finished =>
  }

  ghost predicate MoreTurned(s: State, s': State, m: nat, ok: bool)
    requires m < |s.mores|
  {
    && |s'.mores| == |s.mores| && s'.mores == s.mores[m := s'.mores[m]] && s'.server == s.server
    && s'.mutations == s.mutations && s'.mores[m].ctx == s.mores[m].ctx
    && MoreTurns(s, s', s.mores[m], s'.mores[m], ok) && MoreShows(s, s', s.mores[m], ok)
    && (s'.store.loadingMore <==>
          s.store.loadingMore && !(s'.mores[m].phase == Finished && IsCurrent(s.store, s.mores[m].ctx)))
  }

  lemma MoreWakes(s: State, m: nat, ok: bool)
    requires m < |s.mores| && s.mores[m].phase.Awaiting?
    ensures MoreTurned(s, (if s.mores[m].phase.again then MoreLoops(s, m) else MoreAsks(s, m)).(clock := s.clock + 1), m, ok)
  {
    hide PageOf;
  }

  lemma MoreIsAnswered(s: State, m: nat, ok: bool)
    requires m < |s.mores| && s.mores[m].phase == Requested
    ensures StepOfMore(s, m, ok).Some? && MoreTurned(s, StepOfMore(s, m, ok).value.(clock := s.clock + 1), m, ok)
  {
    hide PageOf;
  }

  lemma MoreBreaks(s: State, m: nat)
    requires m < |s.mores| && s.mores[m].phase.Received?
    ensures MoreTurned(s, MoreEnds(s, m).(clock := s.clock + 1), m, false)
  {
  }

  lemma MoreTakes(s: State, m: nat, page: Page)
    requires m < |s.mores| && s.mores[m].phase == Received(page)
    ensures MoreTurned(s, MoreArrives(s, m, page).(clock := s.clock + 1), m, true)
  {
    var more := s.mores[m];
    ReconcileFrame(s, Recovery, more.ctx);
    hide PutAll, IdSet, Discovered, Reconcile;
    var s' := MoreArrives(s, m, page);
    assert MoreTurns(s, s'.(clock := s.clock + 1), more, s'.mores[m], true) by { hide MoreShows; }
    assert MoreShows(s, s'.(clock := s.clock + 1), more, true) by { hide MoreTurns; }
    hide MoreTurns, MoreShows;
  }

  // Whether it goes to ask for the page after the cursor now, or to wait for the
  // reconciliation that runs.
  predicate Retries(s: State, more: More, ok: bool) {
    || (more.phase.Awaiting? && more.phase.again)
    || (Arrives(s, more, ok) && more.mutationEpoch == s.store.mutationEpoch && more.readEpoch != s.store.readEpoch)
  }

  ghost predicate MoreTurns(s: State, s': State, more: More, more': More, ok: bool) {
    var waits := Retries(s, more, ok) && IsCurrent(s.store, more.ctx) && s.store.reconciliation.Some?;
    var overtaken := Arrives(s, more, ok) && more.mutationEpoch != s.store.mutationEpoch;
    var asks := ((more.phase.Awaiting? && !more.phase.again) || Retries(s, more, ok)) && !waits && Asks(s, more);
    && (more'.phase == Requested <==> asks)
    && (asks ==> more' == More(more.ctx, Requested, s.store.nextCursor.value, s.store.readEpoch, s.store.mutationEpoch))
    && (more'.phase.Received? <==> more.phase == Requested && ok)
    && (more'.phase.Received? ==> more' == more.(phase := Received(PageOf(s.server, Some(more.cursor)))))
    && (more'.phase.Awaiting? <==> waits || overtaken)
    && (waits ==> more'.phase == Awaiting(s.store.reconciliation.value, false))
    && (overtaken ==> s'.store.reconciliation.Some? && more'.phase == Awaiting(s'.store.reconciliation.value, true))
    && (more'.phase == Finished <==>
          && !asks && !waits && !overtaken && !(more.phase == Requested && ok))
  }

  ghost predicate MoreShows(s: State, s': State, more: More, ok: bool) {
    var st, st' := s.store, s'.store;
    && (if Arrives(s, more, ok) && !Outdated(s, more) then
          var page := more.phase.page;
          && st'.items == PutAll(st.items, page.items) && st'.unreadCount == page.unread && st'.nextCursor == page.next
          && st'.loadedPages == st.loadedPages + 1 && st'.known == st.known + IdSet(page.items)
        else
          && st'.items == st.items && st'.unreadCount == st.unreadCount && st'.nextCursor == st.nextCursor
          && st'.loadedPages == st.loadedPages && st'.known == st.known)
    && st'.toasts == st.toasts && st'.pendingLive == st.pendingLive && st'.hasBaseline == st.hasBaseline
    && SessionOf(st') == SessionOf(st) && st'.mutationEpoch == st.mutationEpoch
  }

  // loadMore does nothing without a cursor, or while it is already loading.
  lemma LoadMoreMoves(s: State)
    ensures Next(s, CallLoadMore).Some?
    ensures var s', st := Next(s, CallLoadMore).value, s.store;
            var loads := st.nextCursor.Some? && !st.loadingMore && (st.session.None? || st.session == Some(st.auth));
            && s'.store.items == st.items && s'.loops == s.loops && s'.mutations == s.mutations && s'.server == s.server
            && (!loads ==> s'.mores == s.mores && s'.store.loadingMore == st.loadingMore)
            && (loads ==>
                  && |s'.mores| == |s.mores| + 1 && s'.mores[..|s.mores|] == s.mores && s'.store.loadingMore
                  && s'.mores[|s.mores|].ctx == Context(st.generation, st.auth)
                  && s'.mores[|s.mores|].phase ==
                       if st.reconciliation.Some? then Awaiting(st.reconciliation.value, false) else Requested)
  {
  }

  // ----- Marks --------------------------------------------------------------------------------------

  lemma MarkCallMoves(s: State, id: Id)
    ensures Next(s, CallMarkRead(id)).Some? && Next(s, CallMarkAllRead).Some?
    ensures Queues(s, Next(s, CallMarkRead(id)).value, ShowsUnread(s.store.items, id), One(id))
    ensures Queues(s, Next(s, CallMarkAllRead).value, s.store.unreadCount != 0,
                   Every(set i | 0 <= i < |s.store.items| && !s.store.items[i].read :: s.store.items[i].id))
  {
    var every := Every(set i | 0 <= i < |s.store.items| && !s.store.items[i].read :: s.store.items[i].id);
    Enqueues(s, One(id));
    Enqueues(s, every);
    hide ShowsUnread, Enqueued, Queues;
    Unchanged(s, One(id));
    Unchanged(s, every);
  }

  lemma Enqueues(s: State, target: Target)
    ensures Queues(s, Enqueued(s, target).(clock := s.clock + 1), true, target)
  {
  }

  lemma Unchanged(s: State, target: Target)
    ensures Queues(s, s.(clock := s.clock + 1), false, target)
  {
  }

  // A mark is queued for the session behind those that wait already, if there is anything
  // to mark, and shows nothing yet.
  ghost predicate Queues(s: State, s': State, something: bool, target: Target) {
    var st := s.store;
    var queues := something && (st.session.None? || st.session == Some(st.auth));
    && s'.store.items == st.items && s'.store.unreadCount == st.unreadCount && s'.server == s.server
    && s'.loops == s.loops && s'.mores == s.mores
    && (!queues ==> s'.mutations == s.mutations && s'.store.mutations == st.mutations)
    && (queues ==>
          && s'.mutations == s.mutations + [Mutation(Context(st.generation, st.auth), target, Waiting, false, map[], 0)]
          && s'.store.mutations == st.mutations + [|s.mutations|])
  }

  predicate HasTarget(server: Server, target: Target) {
    target.Every? || target.id in server.history
  }

  lemma MutationMoves(s: State, k: nat, ok: bool)
    requires k < |s.mutations|
    ensures Next(s, MutationStep(k, ok)).Some? <==>
            var phase := s.mutations[k].phase;
            && !phase.Settled?
            && (phase == Waiting ==> k !in s.store.mutations || s.store.mutations[0] == k)
            && (phase == Sent && ok ==> HasTarget(s.server, s.mutations[k].target))
            && (phase.Recovering? && phase.loop < |s.loops| ==> s.loops[phase.loop].phase == Gone)
    ensures Next(s, MutationStep(k, ok)).Some? ==>
              var s' := Next(s, MutationStep(k, ok)).value;
              MutationTurned(s, s', k, ok)
  {
    hide MutationBegins, MutationFails, MutationSucceeds, MutationTurned, Unread, ShowsUnread;
    var mutation := s.mutations[k];
    match mutation.phase
    case Waiting => TurnBegins(s, k, ok);
    case Sent => if ok { if HasTarget(s.server, mutation.target) { TurnIsProcessed(s, k); } } else { TurnFails(s, k); }
    case Processed(unread) => if ok { TurnSucceeds(s, k, unread); } else { TurnFails(s, k); }
    case Recovering(_) => TurnRecovers(s, k, ok);
    case Settled(_) =>
  }

  ghost predicate MutationTurned(s: State, s': State, k: nat, ok: bool)
    requires k < |s.mutations|
  {
    && |s'.mutations| == |s.mutations| && s'.mutations == s.mutations[k := s'.mutations[k]] && s'.mores == s.mores
    && MutationTurns(s, s', s.mutations[k], s'.mutations[k], ok) && MutationShows(s, s', s.mutations[k], ok)
    && MutationLeaves(s.store.mutations, s'.store.mutations, k, s'.mutations[k])
  }

  // A mutation that is settled makes way for the next one in the queue.
  ghost predicate MutationLeaves(queue: seq<nat>, queue': seq<nat>, k: nat, mutation': Mutation) {
    queue' == if mutation'.phase.Settled? && |queue| > 0 && queue[0] == k then queue[1..] else queue
  }

  // A row is shown unread when some row has its id and no mark, and the marks remembered
  // are those of the rows that a mutation is for, the last one of an id.
  lemma RowsMean(items: seq<Item>, ids: set<Id>, id: Id)
    ensures ShowsUnread(items, id) <==> exists i :: 0 <= i < |items| && items[i].id == id && !items[i].read
    ensures id in Readings(items, ids) <==> id in ids && exists i :: 0 <= i < |items| && items[i].id == id
    ensures forall i :: (0 <= i < |items| && items[i].id == id && id in ids && forall j :: i < j < |items| ==> items[j].id != id) ==>
              Readings(items, ids)[id] == items[i].read
  {
    if i :| 0 <= i < |items| && items[i].id == id && !items[i].read { assert items[i] == Item(id, false); }
    ReadingsMean(items, ids, id);
  }

  lemma {:induction false} ReadingsMean(items: seq<Item>, ids: set<Id>, id: Id)
    ensures id in Readings(items, ids) <==> id in ids && exists i :: 0 <= i < |items| && items[i].id == id
    ensures forall i :: (0 <= i < |items| && items[i].id == id && id in ids && forall j :: i < j < |items| ==> items[j].id != id) ==>
              Readings(items, ids)[id] == items[i].read
  {
    if |items| > 0 {
      var n := |items| - 1;
      ReadingsMean(items[..n], ids, id);
      if i :| 0 <= i < n && items[..n][i].id == id { assert items[i].id == id; }
      if i :| 0 <= i < |items| && items[i].id == id { assert i < n ==> items[..n][i].id == id; }
      forall i | 0 <= i < n && items[i].id == id && id in ids && forall j :: i < j < |items| ==> items[j].id != id
        ensures id in Readings(items[..n], ids) && Readings(items[..n], ids)[id] == items[i].read && items[n].id != id
      {
        assert items[..n][i] == items[i];
      }
    }
  }

  predicate Marks(s: State, mutation: Mutation) {
    && mutation.phase == Waiting && IsCurrent(s.store, mutation.ctx)
    && (mutation.target.One? ==> ShowsUnread(s.store.items, mutation.target.id))
  }

  predicate Fails(s: State, mutation: Mutation, ok: bool) {
    (mutation.phase == Sent || mutation.phase.Processed?) && !ok && IsCurrent(s.store, mutation.ctx)
  }

  predicate Succeeds(s: State, mutation: Mutation, ok: bool) {
    mutation.phase.Processed? && ok && IsCurrent(s.store, mutation.ctx)
  }

  ghost predicate MutationTurns(s: State, s': State, mutation: Mutation, mutation': Mutation, ok: bool) {
    && mutation'.ctx == mutation.ctx && mutation'.target == mutation.target
    && (mutation'.phase == Sent <==> Marks(s, mutation))
    && (mutation'.phase.Processed? <==> mutation.phase == Sent && ok)
    && (mutation'.phase.Processed? ==>
          && mutation'.phase.unread == Unread(s'.server) && s'.server.history == s.server.history
          && s'.server.read == s.server.read +
               (if mutation.target.One? then {mutation.target.id} else set i | 0 <= i < |s.server.history| :: s.server.history[i]))
    && (!mutation'.phase.Processed? ==> s'.server == s.server)
    && (mutation'.phase.Recovering? <==> Fails(s, mutation, ok))
    && (mutation'.phase.Recovering? ==> s'.store.reconciliation == Some(mutation'.phase.loop))
    && (mutation'.phase == Settled(true) <==>
          || (mutation.phase == Waiting && !Marks(s, mutation)) || (mutation.phase.Processed? && ok))
    && (mutation'.phase == Settled(false) <==>
          || mutation.phase.Recovering?
          || ((mutation.phase == Sent || mutation.phase.Processed?) && !ok && !IsCurrent(s.store, mutation.ctx)))
    && (mutation'.asked <==> mutation.asked || Marks(s, mutation))
    && (if Marks(s, mutation) then
          && mutation'.previous == Readings(s.store.items, Targets(mutation.target))
          && mutation'.previousCount == s.store.unreadCount
        else mutation'.previous == mutation.previous && mutation'.previousCount == mutation.previousCount)
  }

  ghost predicate MutationShows(s: State, s': State, mutation: Mutation, ok: bool) {
    var st, st', ids := s.store, s'.store, Targets(mutation.target);
    && |st'.items| == |st.items|
    && (forall i :: 0 <= i < |st.items| ==>
          && st'.items[i].id == st.items[i].id
          && st'.items[i].read ==
               if Marks(s, mutation) || Succeeds(s, mutation, ok) then st.items[i].read || st.items[i].id in ids
               else if Fails(s, mutation, ok) && st.items[i].id in mutation.previous then mutation.previous[st.items[i].id]
               else st.items[i].read)
    && (Succeeds(s, mutation, ok) ==> st'.unreadCount == mutation.phase.unread)
    && (Fails(s, mutation, ok) ==> st'.unreadCount == mutation.previousCount)
    && (Marks(s, mutation) && mutation.target.One? ==> st'.unreadCount == if st.unreadCount == 0 then 0 else st.unreadCount - 1)
    && (!Marks(s, mutation) && !Succeeds(s, mutation, ok) && !Fails(s, mutation, ok) ==>
          st'.unreadCount == st.unreadCount && s'.loops == s.loops)
    && st'.mutationEpoch == st.mutationEpoch + (if Succeeds(s, mutation, ok) then 1 else 0)
    && SessionOf(st') == SessionOf(st) && st'.nextCursor == st.nextCursor && st'.loadedPages == st.loadedPages
    && (Succeeds(s, mutation, ok) && mutation.target.Every? && SomeUnread(st'.items) ==> st'.reconciliation.Some?)
    && (Succeeds(s, mutation, ok) && (mutation.target.One? || !SomeUnread(st'.items)) ==> s'.loops == s.loops)
  }

  predicate SomeUnread(items: seq<Item>) {
    exists i :: 0 <= i < |items| && !items[i].read
  }

  lemma TurnBegins(s: State, k: nat, ok: bool)
    requires k < |s.mutations| && s.mutations[k].phase == Waiting
    ensures MutationTurned(s, MutationBegins(s, k).(clock := s.clock + 1), k, ok)
  {
    hide ShowsUnread, Readings, Unread;
  }

  lemma TurnIsProcessed(s: State, k: nat)
    requires k < |s.mutations| && s.mutations[k].phase == Sent && HasTarget(s.server, s.mutations[k].target)
    ensures StepOfMutation(s, k, true).Some?
    ensures MutationTurned(s, StepOfMutation(s, k, true).value.(clock := s.clock + 1), k, true)
  {
    hide ShowsUnread, Readings, Unread;
  }

  lemma TurnFails(s: State, k: nat)
    requires k < |s.mutations| && (s.mutations[k].phase == Sent || s.mutations[k].phase.Processed?)
    ensures MutationTurned(s, MutationFails(s, k).(clock := s.clock + 1), k, false)
  {
    var mutation := s.mutations[k];
    var back := s.(store := MarkRolledBack(s.store, mutation.previous, mutation.previousCount));
    ReconcileFrame(back, Recovery, mutation.ctx);
    hide ShowsUnread, Readings, Unread, Reconcile;
    var s' := MutationFails(s, k).(clock := s.clock + 1);
    assert MutationTurns(s, s', mutation, s'.mutations[k], false) by { hide MutationShows, Restore; }
    assert MutationShows(s, s', mutation, false) by { hide MutationTurns; }
    hide MutationTurns, MutationShows;
  }

  lemma TurnSucceeds(s: State, k: nat, unread: nat)
    requires k < |s.mutations| && s.mutations[k].phase == Processed(unread)
    ensures MutationTurned(s, MutationSucceeds(s, k, unread).(clock := s.clock + 1), k, true)
  {
    hide ShowsUnread, Readings, Unread, Reconcile, MarkIds;
    var mutation := s.mutations[k];
    var ids := Targets(mutation.target);
    var marked := s.(store := MarkConfirmed(s.store, ids, unread), confirmed := s.confirmed + ids);
    ReconcileFrame(marked, Recovery, mutation.ctx);
    MarkedRows(s.store.items, ids);
    var s' := MutationSucceeds(s, k, unread).(clock := s.clock + 1);
    assert MutationTurns(s, s', mutation, s'.mutations[k], true) by { hide MutationShows; }
    assert MutationShows(s, s', mutation, true) by { hide MutationTurns; }
    hide MutationTurns, MutationShows;
  }

  lemma MarkedRows(items: seq<Item>, ids: set<Id>)
    ensures |MarkIds(items, ids)| == |items|
    ensures forall i :: 0 <= i < |items| ==>
              && MarkIds(items, ids)[i].id == items[i].id
              && (MarkIds(items, ids)[i].read <==> items[i].read || items[i].id in ids)
    ensures SomeUnread(MarkIds(items, ids)) <==>
            exists i :: 0 <= i < |items| && !MarkIds(items, ids)[i].read && MarkIds(items, ids)[i].id !in ids
  {
  }

  lemma TurnRecovers(s: State, k: nat, ok: bool)
    requires k < |s.mutations| && s.mutations[k].phase.Recovering?
    ensures MutationTurned(s, Settle(s, k, false).(clock := s.clock + 1), k, ok)
  {
    hide ShowsUnread, Readings, Unread;
  }

  // ----- Everything else ----------------------------------------------------------------------------

  lemma OtherMoves(s: State, id: Id, at: nat)
    ensures Next(s, Insert(id, at)).Some? <==> at <= |s.server.history| && id !in s.server.history && id !in s.server.read
    ensures Next(s, Insert(id, at)).Some? ==>
              && var h := Next(s, Insert(id, at)).value.server.history;
              && |h| == |s.server.history| + 1 && h[at] == id && h[..at] == s.server.history[..at]
              && h[at + 1..] == s.server.history[at..]
    ensures Next(s, ReadElsewhere(id)).Some? <==> id in s.server.history
    ensures Next(s, ReadElsewhere(id)).Some? ==>
              Next(s, ReadElsewhere(id)).value.server == Server(s.server.history, s.server.read + {id})
    ensures Next(s, AuthChanges).Some? && Next(s, AuthChanges).value.store == s.store.(auth := s.store.auth + 1)
    ensures Next(s, CallReset).Some?
    ensures var s', st := Next(s, CallReset).value, s.store;
            && s'.loops == s.loops && s'.mores == s.mores && s'.mutations == s.mutations && s'.server == s.server
            && s'.store.generation == st.generation + 1 && s'.store.readEpoch == st.readEpoch + 1
            && s'.store.auth == st.auth && s'.store.session.None? && s'.store.items == [] && s'.store.unreadCount == 0
            && s'.store.nextCursor.None? && s'.store.toasts == [] && s'.store.pendingLive == [] && s'.store.known == {}
            && s'.store.loadedPages == 1 && !s'.store.hasBaseline && !s'.store.loadingMore
            && s'.store.reconciliation.None? && s'.store.queued.None? && s'.store.mutations == []
  {
  }

  // A toast that is dismissed goes, and the others stay in their order.
  lemma DismissMoves(s: State, id: Id, before: seq<Id>, after: seq<Id>)
    requires id !in before && id !in after
    ensures Next(s, Dismiss(id)).Some?
    ensures var s' := Next(s, Dismiss(id)).value;
            && (s.store.toasts == before + [id] + after ==> s'.store.toasts == before + after)
            && (id !in s.store.toasts ==> s'.store.toasts == s.store.toasts)
            && s'.store == s.store.(toasts := s'.store.toasts) && s'.loops == s.loops && s'.mutations == s.mutations
  {
    if id !in s.store.toasts { WithoutNone(s.store.toasts, id); }
    WithoutMiddle(before, id, after);
    hide Without;
  }

  lemma WithoutMiddle(before: seq<Id>, id: Id, after: seq<Id>)
    requires id !in before && id !in after
    ensures Without(before + [id] + after, id) == before + after
  {
    WithoutNone(before, id);
    WithoutNone(after, id);
    assert Without([id], id) == [] by { assert [id][..0] == []; }
    WithoutParts(before, [id], id);
    WithoutParts(before + [id], after, id);
    hide Without;
    assert before + [] == before;
  }

  lemma {:induction false} WithoutNone(ids: seq<Id>, id: Id)
    requires id !in ids
    ensures Without(ids, id) == ids
  {
    if |ids| > 0 {
      WithoutNone(ids[..|ids| - 1], id);
      assert ids == ids[..|ids| - 1] + [ids[|ids| - 1]];
    }
  }

  lemma {:induction false} WithoutParts(a: seq<Id>, b: seq<Id>, id: Id)
    ensures Without(a + b, id) == Without(a, id) + Without(b, id)
  {
    if |b| == 0 {
      assert a + b == a;
    } else {
      var n := |b| - 1;
      assert (a + b)[..|a + b| - 1] == a + b[..n];
      WithoutParts(a, b[..n], id);
    }
  }
}
