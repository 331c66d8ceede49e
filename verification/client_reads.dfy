// Read your writes: what a successful mark has made read is never shown unread
// again in that session.
module ClientReads {
  import opened Prelude
  import opened ClientStore
  import opened ClientRuns
  import opened ClientInv

  // ----- The invariant -------------------------------------------------------------------

  ghost predicate ReadIn(items: seq<Item>, ids: set<Id>) {
    forall i :: 0 <= i < |items| && items[i].id in ids ==> items[i].read
  }

  // Rows on display or on their way were on the server.
  ghost predicate Drawn(items: seq<Item>, history: seq<Id>) {
    forall i :: 0 <= i < |items| ==> items[i].id in history
  }

  // Answers that will still be used know of every confirmed mark.
  ghost predicate LoopReads(loop: Loop, epoch: nat, confirmed: set<Id>, history: seq<Id>) {
    && loop.epoch <= epoch
    && (loop.phase == Asking || loop.phase.Answered? ==>
          Drawn(loop.rows, history) && (loop.epoch == epoch ==> ReadIn(loop.rows, confirmed)))
    && (loop.phase.Answered? ==>
          && Drawn(loop.phase.page.items, history)
          && (loop.epoch == epoch ==> ReadIn(loop.phase.page.items, confirmed)))
  }

  ghost predicate MoreReads(more: More, epoch: nat, confirmed: set<Id>, history: seq<Id>) {
    more.phase.Received? ==>
      && more.mutationEpoch <= epoch
      && Drawn(more.phase.page.items, history)
      && (more.mutationEpoch == epoch ==> ReadIn(more.phase.page.items, confirmed))
  }

  ghost predicate MoreAsked(more: More, epoch: nat) {
    more.phase == Requested ==> more.mutationEpoch <= epoch
  }

  // A rollback puts no confirmed mark back to unread.
  ghost predicate MutationReads(mutation: Mutation, confirmed: set<Id>, server: Server) {
    && (mutation.phase == Waiting ==> !mutation.asked)
    && (mutation.target.Every? ==> forall id :: id in Targets(mutation.target) ==> id in server.history)
    && (InFlight(mutation) ==>
          forall id :: id in mutation.previous && id in confirmed ==> mutation.previous[id])
    && (mutation.phase.Processed? ==> Targets(mutation.target) <= server.read)
    && (mutation.phase == Settled(true) && mutation.asked ==> Targets(mutation.target) <= confirmed)
  }

  ghost predicate LoopsReads(se: Session, loops: seq<Loop>, epoch: nat, confirmed: set<Id>, history: seq<Id>) {
    forall l :: 0 <= l < |loops| && Current(se, loops[l].ctx) ==> LoopReads(loops[l], epoch, confirmed, history)
  }

  ghost predicate MoresReads(se: Session, mores: seq<More>, epoch: nat, confirmed: set<Id>, history: seq<Id>) {
    forall m :: 0 <= m < |mores| && Current(se, mores[m].ctx) ==>
      MoreReads(mores[m], epoch, confirmed, history) && MoreAsked(mores[m], epoch)
  }

  ghost predicate MutationsReads(se: Session, mutations: seq<Mutation>, confirmed: set<Id>, server: Server) {
    forall k :: 0 <= k < |mutations| && Current(se, mutations[k].ctx) ==> MutationReads(mutations[k], confirmed, server)
  }

  ghost predicate ReadsInv(s: State) {
    var se := SessionOf(s.store);
    && ReadIn(s.store.items, s.confirmed) && Drawn(s.store.items, s.server.history)
    && s.confirmed <= s.server.read
    && LoopsReads(se, s.loops, s.store.mutationEpoch, s.confirmed, s.server.history)
    && MoresReads(se, s.mores, s.store.mutationEpoch, s.confirmed, s.server.history)
    && MutationsReads(se, s.mutations, s.confirmed, s.server)
  }

  // ----- Rows ---------------------------------------------------------------------------------

  lemma {:induction false} PutReads(rows: seq<Item>, item: Item, ids: set<Id>, h: seq<Id>)
    ensures ReadIn(rows, ids) && ReadIn([item], ids) ==> ReadIn(Put(rows, item), ids)
    ensures Drawn(rows, h) && Drawn([item], h) ==> Drawn(Put(rows, item), h)
    decreases |rows|
  {
    assert ReadIn([item], ids) ==> item.id in ids ==> item.read by { if ReadIn([item], ids) { assert [item][0] == item; } }
    assert Drawn([item], h) ==> item.id in h by { if Drawn([item], h) { assert [item][0] == item; } }
    if |rows| > 0 && rows[0].id != item.id { PutReads(rows[1..], item, ids, h); }
  }

  lemma {:induction false} PutAllReads(rows: seq<Item>, page: seq<Item>, ids: set<Id>, h: seq<Id>)
    ensures ReadIn(rows, ids) && ReadIn(page, ids) ==> ReadIn(PutAll(rows, page), ids)
    ensures Drawn(rows, h) && Drawn(page, h) ==> Drawn(PutAll(rows, page), h)
    decreases |page|
  {
    if |page| > 0 {
      var n := |page| - 1;
      PutAllReads(rows, page[..n], ids, h);
      PutReads(PutAll(rows, page[..n]), page[n], ids, h);
    }
  }

  // A page shows what the server has read.
  lemma PageReads(server: Server, cursor: Option<Id>, ids: set<Id>)
    ensures ids <= server.read ==> ReadIn(PageOf(server, cursor).items, ids)
    ensures Drawn(PageOf(server, cursor).items, server.history)
  {
    hide Position, Unread;
  }

  lemma MarkReads(items: seq<Item>, marked: set<Id>, ids: set<Id>, h: seq<Id>)
    ensures ReadIn(items, ids) ==> ReadIn(MarkIds(items, marked), ids) && ReadIn(MarkIds(items, marked), ids + marked)
    ensures Drawn(items, h) ==> Drawn(MarkIds(items, marked), h)
  {
  }

  lemma RestoreReads(items: seq<Item>, previous: map<Id, bool>, ids: set<Id>, h: seq<Id>)
    requires forall id :: id in previous && id in ids ==> previous[id]
    ensures ReadIn(items, ids) ==> ReadIn(Restore(items, previous), ids)
    ensures Drawn(items, h) ==> Drawn(Restore(items, previous), h)
  {
  }

  lemma {:induction false} ReadingsTrue(items: seq<Item>, marked: set<Id>, ids: set<Id>)
    requires ReadIn(items, ids)
    ensures forall id :: id in Readings(items, marked) && id in ids ==> Readings(items, marked)[id]
  {
    if |items| > 0 {
      var n := |items| - 1;
      assert ReadIn(items[..n], ids);
      ReadingsTrue(items[..n], marked, ids);
    }
  }

  // ----- Reconciliations --------------------------------------------------------------------------

  lemma ReconcileKeepsReads(s: State, reason: Reason, ctx: Context)
    requires ReadsInv(s)
    ensures ReadsInv(Reconcile(s, reason, ctx))
  {
    ReconcileFrame(s, reason, ctx);
    hide MoresReads, MutationsReads;
  }

  lemma LoopChangeKeepsReads(s: State, l: nat, loop: Loop)
    requires ReadsInv(s) && l < |s.loops| && loop.ctx == s.loops[l].ctx
    requires Current(SessionOf(s.store), loop.ctx) ==>
               LoopReads(loop, s.store.mutationEpoch, s.confirmed, s.server.history)
    ensures ReadsInv(WithLoop(s, l, loop))
  {
    hide MoresReads, MutationsReads, LoopReads, ReadIn, Drawn;
  }

  // Nothing the invariant speaks of but the rows changes.
  lemma StoreChangeKeepsReads(s: State, s': State)
    requires ReadsInv(s)
    requires s'.server == s.server && s'.loops == s.loops && s'.mores == s.mores && s'.mutations == s.mutations
    requires s'.confirmed == s.confirmed && SessionOf(s'.store) == SessionOf(s.store)
    requires s'.store.mutationEpoch == s.store.mutationEpoch
    requires ReadIn(s'.store.items, s.confirmed) && Drawn(s'.store.items, s.server.history)
    ensures ReadsInv(s')
  {
    hide ReadIn, Drawn, LoopsReads, MoresReads, MutationsReads;
  }

  lemma PageKeepsReads(s: State, l: nat, page: Page)
    requires ReadsInv(s) && l < |s.loops| && s.loops[l].phase == Answered(page)
    ensures ReadsInv(PageArrives(s, l, page))
  {
    hide PutAll, ReadIn, Drawn, MoresReads, MutationsReads, AddPending, IdSet, Discovered, Merged, IsCurrent;
    var loop := s.loops[l];
    var s' := PageArrives(s, l, page);
    assert IsCurrent(s.store, loop.ctx) <==> Current(SessionOf(s.store), loop.ctx) by { CurrentIs(s.store, loop.ctx); }
    PutAllReads(loop.rows, page.items, s.confirmed, s.server.history);
    hide ReadsInv;
    assert ReadsInv(WithLoop(s, l, s'.loops[l])) by {
      if Current(SessionOf(s.store), loop.ctx) { ReadsOfLoop(s, l); }
      LoopChangeKeepsReads(s, l, s'.loops[l]);
    }
    StoreRows(s);
    if Current(SessionOf(s.store), loop.ctx) { ReadsOfLoop(s, l); }
    StoreChangeKeepsReads(WithLoop(s, l, s'.loops[l]), s');
  }

  lemma CurrentIs(st: Store, ctx: Context)
    ensures IsCurrent(st, ctx) <==> Current(SessionOf(st), ctx)
  {
  }

  lemma StoreRows(s: State)
    requires ReadsInv(s)
    ensures ReadIn(s.store.items, s.confirmed) && Drawn(s.store.items, s.server.history)
  {
  }

  lemma ReadsOfLoop(s: State, l: nat)
    requires ReadsInv(s) && l < |s.loops| && Current(SessionOf(s.store), s.loops[l].ctx)
    ensures LoopReads(s.loops[l], s.store.mutationEpoch, s.confirmed, s.server.history)
  {
  }

  lemma AskingKeepsReads(s: State, l: nat)
    requires ReadsInv(s) && l < |s.loops| && s.loops[l].phase == Asking
    ensures ReadsInv(StepOfLoop(s, l, true).value)
  {
    PageReads(s.server, s.loops[l].cursor, s.confirmed);
    if Current(SessionOf(s.store), s.loops[l].ctx) { ReadsOfLoop(s, l); }
    assert s.confirmed <= s.server.read;
    hide ReadsInv, PageOf, ReadIn, Drawn;
    LoopChangeKeepsReads(s, l, StepOfLoop(s, l, true).value.loops[l]);
  }

  lemma LoopKeepsReads(s: State, l: nat, ok: bool)
    requires ReadsInv(s) && l < |s.loops| && StepOfLoop(s, l, ok).Some?
    ensures ReadsInv(StepOfLoop(s, l, ok).value)
  {
    hide ReadsInv, PageArrives, PageOf, ReadIn, Drawn, IsCurrent, Toasts;
    var loop := s.loops[l];
    var s' := StepOfLoop(s, l, ok).value;
    match loop.phase
    case Answered(page) =>
      if ok { PageKeepsReads(s, l, page); } else { IdleKeepsReads(s, l, s'.loops[l]); }
    case Asking => if ok { AskingKeepsReads(s, l); } else { IdleKeepsReads(s, l, s'.loops[l]); }
    case Gone =>
    case _ =>
      StoreRows(s);
      IdleKeepsReads(s, l, s'.loops[l]);
      StoreChangeKeepsReads(WithLoop(s, l, s'.loops[l]), s');
  }

  // A loop that holds no answers, or starts afresh.
  lemma IdleKeepsReads(s: State, l: nat, loop: Loop)
    requires ReadsInv(s) && l < |s.loops| && loop.ctx == s.loops[l].ctx
    requires loop.phase == Asking ==> loop.rows == [] && loop.epoch == s.store.mutationEpoch
    requires !loop.phase.Answered? && (loop.phase != Asking ==> loop.epoch == s.loops[l].epoch)
    ensures ReadsInv(WithLoop(s, l, loop))
  {
    if Current(SessionOf(s.store), loop.ctx) { ReadsOfLoop(s, l); }
    hide ReadsInv;
    LoopChangeKeepsReads(s, l, loop);
  }

  // ----- Further pages --------------------------------------------------------------------------------

  lemma MoreChangeKeepsReads(s: State, m: nat, more: More)
    requires ReadsInv(s) && m < |s.mores| && more.ctx == s.mores[m].ctx
    requires Current(SessionOf(s.store), more.ctx) ==>
               MoreReads(more, s.store.mutationEpoch, s.confirmed, s.server.history) &&
               MoreAsked(more, s.store.mutationEpoch)
    ensures ReadsInv(WithMore(s, m, more))
  {
    hide LoopsReads, MutationsReads, MoreReads, MoreAsked, ReadIn, Drawn;
  }

  lemma ReadsOfMore(s: State, m: nat)
    requires ReadsInv(s) && m < |s.mores| && Current(SessionOf(s.store), s.mores[m].ctx)
    ensures MoreReads(s.mores[m], s.store.mutationEpoch, s.confirmed, s.server.history)
    ensures MoreAsked(s.mores[m], s.store.mutationEpoch)
  {
  }

  lemma MoreLoopsKeepsReads(s: State, m: nat)
    requires ReadsInv(s) && m < |s.mores|
    ensures ReadsInv(MoreLoops(s, m)) && ReadsInv(MoreAsks(s, m)) && ReadsInv(MoreEnds(s, m))
  {
    MoreLoopsFrame(s, m);
    StoreRows(s);
    hide ReadsInv, ReadIn, Drawn;
    MoreChangeKeepsReads(s, m, MoreLoops(s, m).mores[m]);
    MoreChangeKeepsReads(s, m, MoreAsks(s, m).mores[m]);
    MoreChangeKeepsReads(s, m, MoreEnds(s, m).mores[m]);
    StoreChangeKeepsReads(WithMore(s, m, MoreLoops(s, m).mores[m]), MoreLoops(s, m));
    StoreChangeKeepsReads(WithMore(s, m, MoreAsks(s, m).mores[m]), MoreAsks(s, m));
    StoreChangeKeepsReads(WithMore(s, m, MoreEnds(s, m).mores[m]), MoreEnds(s, m));
  }

  lemma ReceivedKeepsReads(s: State, m: nat)
    requires ReadsInv(s) && m < |s.mores| && s.mores[m].phase == Requested
    ensures ReadsInv(StepOfMore(s, m, true).value)
  {
    var more := s.mores[m];
    PageReads(s.server, Some(more.cursor), s.confirmed);
    if Current(SessionOf(s.store), more.ctx) { ReadsOfMore(s, m); }
    assert s.confirmed <= s.server.read;
    hide ReadsInv, PageOf, ReadIn, Drawn;
    MoreChangeKeepsReads(s, m, StepOfMore(s, m, true).value.mores[m]);
  }

  lemma MoreArrivesKeepsReads(s: State, m: nat, page: Page)
    requires ReadsInv(s) && m < |s.mores| && s.mores[m].phase == Received(page)
    ensures ReadsInv(MoreArrives(s, m, page))
  {
    var more := s.mores[m];
    MoreLoopsKeepsReads(s, m);
    CurrentIs(s.store, more.ctx);
    hide ReadsInv, ReadIn, Drawn, PutAll, IdSet, Discovered, MoreLoops, MoreEnds, IsCurrent;
    if IsCurrent(s.store, more.ctx) {
      StoreRows(s);
      ReadsOfMore(s, m);
      ReconcileFrame(s, Recovery, more.ctx);
      ReconcileKeepsReads(s, Recovery, more.ctx);
      var after := Reconcile(s, Recovery, more.ctx);
      MoreChangeKeepsReads(after, m, more.(phase := Awaiting(after.store.reconciliation.value, true)));
      PutAllReads(s.store.items, page.items, s.confirmed, s.server.history);
      MoreChangeKeepsReads(s, m, more.(phase := Finished));
      if more.mutationEpoch == s.store.mutationEpoch && more.readEpoch == s.store.readEpoch {
        StoreChangeKeepsReads(WithMore(s, m, more.(phase := Finished)), MoreArrives(s, m, page));
      }
    }
  }

  lemma MoreKeepsReads(s: State, m: nat, ok: bool)
    requires ReadsInv(s) && m < |s.mores| && StepOfMore(s, m, ok).Some?
    ensures ReadsInv(StepOfMore(s, m, ok).value)
  {
    hide ReadsInv, MoreArrives, MoreAsks, MoreEnds, MoreLoops, PageOf;
    MoreLoopsKeepsReads(s, m);
    match s.mores[m].phase
    case Received(page) => if ok { MoreArrivesKeepsReads(s, m, page); }
    case Requested => if ok { ReceivedKeepsReads(s, m); }
    case _ =>
  }

  lemma LoadMoreKeepsReads(s: State)
    requires BaseInv(s) && ReadsInv(s)
    ensures ReadsInv(LoadMoreCalled(s))
  {
    OpeningKeepsReads(s);
    if s.store.nextCursor.Some? && !s.store.loadingMore && SessionContext(s.store).Some? {
      var begun := MoreBegun(s, SessionContext(s.store).value);
      assert ReadsInv(begun) by { hide BaseInv, LoopsReads, MutationsReads, Opened, SessionContext, ReadIn, Drawn; }
      MoreLoopsKeepsReads(begun, |s.mores|);
      hide ReadsInv, BaseInv, MoreLoops, Opened, SessionContext;
    }
  }

  // ----- Sessions ------------------------------------------------------------------------------------------

  lemma OpeningKeepsReads(s: State)
    requires BaseInv(s) && ReadsInv(s)
    ensures ReadsInv(s.(store := Opened(s.store)))
  {
    hide ReadIn, Drawn, LoopReads, MoreReads, MoreAsked, MutationReads;
  }

  lemma LeavingKeepsReads(s: State)
    requires BaseInv(s) && ReadsInv(s)
    ensures ReadsInv(WasReset(s)) && ReadsInv(s.(store := s.store.(auth := s.store.auth + 1)))
  {
    hide LoopReads, MoreReads, MoreAsked, MutationReads;
  }

  // ----- Marking read ------------------------------------------------------------------------------------------

  lemma MutationChangeKeepsReads(s: State, k: nat, mutation: Mutation)
    requires ReadsInv(s) && k < |s.mutations| && mutation.ctx == s.mutations[k].ctx
    requires Current(SessionOf(s.store), mutation.ctx) ==> MutationReads(mutation, s.confirmed, s.server)
    ensures ReadsInv(WithMutation(s, k, mutation))
  {
    hide LoopsReads, MoresReads, MutationReads, ReadIn, Drawn;
  }

  lemma ReadsOfMutation(s: State, k: nat)
    requires ReadsInv(s) && k < |s.mutations| && Current(SessionOf(s.store), s.mutations[k].ctx)
    ensures MutationReads(s.mutations[k], s.confirmed, s.server)
  {
  }

  // A mutation that settles without having succeeded in a current session.
  lemma SettleKeepsReads(s: State, k: nat, ok: bool)
    requires ReadsInv(s) && k < |s.mutations|
    requires Current(SessionOf(s.store), s.mutations[k].ctx) && ok && s.mutations[k].asked ==>
               Targets(s.mutations[k].target) <= s.confirmed
    ensures ReadsInv(Settle(s, k, ok))
  {
    StoreRows(s);
    var settled := s.mutations[k].(phase := Settled(ok));
    hide ReadsInv, ReadIn, Drawn;
    MutationChangeKeepsReads(s, k, settled);
    StoreChangeKeepsReads(WithMutation(s, k, settled), Settle(s, k, ok));
  }

  lemma MutationBeginsKeepsReads(s: State, k: nat)
    requires ReadsInv(s) && k < |s.mutations| && s.mutations[k].phase == Waiting
    ensures ReadsInv(MutationBegins(s, k))
  {
    var mutation := s.mutations[k];
    var ids := Targets(mutation.target);
    var s' := MutationBegins(s, k);
    StoreRows(s);
    MarkReads(s.store.items, ids, s.confirmed, s.server.history);
    ReadingsTrue(s.store.items, ids, s.confirmed);
    if Current(SessionOf(s.store), mutation.ctx) { ReadsOfMutation(s, k); }
    hide ReadsInv, ReadIn, Drawn, Readings, MarkIds, ShowsUnread;
    if s'.mutations[k].phase == Sent {
      MutationChangeKeepsReads(s, k, s'.mutations[k]);
      StoreChangeKeepsReads(WithMutation(s, k, s'.mutations[k]), s');
    } else {
      SettleKeepsReads(s, k, true);
    }
  }

  lemma SentKeepsReads(s: State, k: nat)
    requires ReadsInv(s) && k < |s.mutations| && s.mutations[k].phase == Sent && StepOfMutation(s, k, true).Some?
    ensures ReadsInv(StepOfMutation(s, k, true).value)
  {
    var mutation := s.mutations[k];
    var s' := StepOfMutation(s, k, true).value;
    var served := s.(server := s'.server);
    ServerReadsOn(s, s'.server);
    if Current(SessionOf(s.store), mutation.ctx) {
      ReadsOfMutation(s, k);
      assert forall id :: id in s.server.history ==> exists i :: 0 <= i < |s.server.history| && s.server.history[i] == id;
    }
    hide ReadsInv, ReadIn, Drawn, Unread;
    MutationChangeKeepsReads(served, k, s'.mutations[k]);
  }

  // The server only ever adds read marks.
  lemma ServerReadsOn(s: State, server: Server)
    requires ReadsInv(s) && server.history == s.server.history && s.server.read <= server.read
    ensures ReadsInv(s.(server := server))
  {
    hide ReadIn, Drawn, LoopsReads, MoresReads;
  }

  // Success: the marks count as confirmed from here on, and every answer that was
  // under way is out of date.
  lemma ConfirmedKeepsReads(s: State, k: nat, unread: nat)
    requires BaseInv(s) && ReadsInv(s) && k < |s.mutations| && s.mutations[k].phase == Processed(unread)
    requires IsCurrent(s.store, s.mutations[k].ctx)
    ensures ReadsInv(Settle(Marked(s, k, unread), k, true))
  {
    var ids := Targets(s.mutations[k].target);
    var s' := Settle(Marked(s, k, unread), k, true);
    var se := SessionOf(s.store);
    MarkReads(s.store.items, ids, s.confirmed, s.server.history);
    ReadsOfMutation(s, k);
    forall j | 0 <= j < |s'.mutations| && Current(se, s'.mutations[j].ctx)
      ensures MutationReads(s'.mutations[j], s'.confirmed, s'.server)
    {
      hide MutationsReads, LoopsReads, MoresReads;
      if j != k {
        OnlyFirstInFlight(s, k, j);
        assert MutationReads(s.mutations[j], s.confirmed, s.server) by { ReadsOfMutation(s, j); }
      }
    }
    EpochPasses(s, ids);
    hide BaseInv, MutationReads, LoopReads, MoreReads, MoreAsked, ReadIn, Drawn, MarkIds;
  }

  function Marked(s: State, k: nat, unread: nat): State
    requires k < |s.mutations|
  {
    var ids := Targets(s.mutations[k].target);
    s.(store := MarkConfirmed(s.store, ids, unread), confirmed := s.confirmed + ids)
  }

  lemma OnlyFirstInFlight(s: State, k: nat, j: nat)
    requires BaseInv(s) && k < |s.mutations| && j < |s.mutations| && j != k
    requires Current(SessionOf(s.store), s.mutations[k].ctx) && Current(SessionOf(s.store), s.mutations[j].ctx)
    requires InFlight(s.mutations[k])
    ensures !InFlight(s.mutations[j])
  {
    hide LoopsInv, MoresInv;
  }

  lemma EpochPasses(s: State, ids: set<Id>)
    requires ReadsInv(s)
    ensures LoopsReads(SessionOf(s.store), s.loops, s.store.mutationEpoch + 1, s.confirmed + ids, s.server.history)
    ensures MoresReads(SessionOf(s.store), s.mores, s.store.mutationEpoch + 1, s.confirmed + ids, s.server.history)
  {
    hide ReadIn, Drawn, MutationsReads;
  }

  lemma SettleThenReconcile(s: State, k: nat, ok: bool, ctx: Context)
    requires k < |s.mutations|
    ensures k < |Reconcile(s, Recovery, ctx).mutations|
    ensures Settle(Reconcile(s, Recovery, ctx), k, ok) == Reconcile(Settle(s, k, ok), Recovery, ctx)
  {
  }

  lemma MutationSucceedsKeepsReads(s: State, k: nat, unread: nat)
    requires BaseInv(s) && ReadsInv(s) && k < |s.mutations| && s.mutations[k].phase == Processed(unread)
    ensures ReadsInv(MutationSucceeds(s, k, unread))
  {
    var mutation := s.mutations[k];
    hide BaseInv, ReadsInv;
    if IsCurrent(s.store, mutation.ctx) {
      var marked := Marked(s, k, unread);
      ConfirmedKeepsReads(s, k, unread);
      hide Settle, Reconcile, MarkConfirmed;
      SettleThenReconcile(marked, k, true, mutation.ctx);
      ReconcileKeepsReads(Settle(marked, k, true), Recovery, mutation.ctx);
    } else {
      SettleKeepsReads(s, k, true);
    }
  }

  lemma MutationFailsKeepsReads(s: State, k: nat)
    requires ReadsInv(s) && k < |s.mutations| && InFlight(s.mutations[k])
    ensures ReadsInv(MutationFails(s, k))
  {
    var mutation := s.mutations[k];
    if IsCurrent(s.store, mutation.ctx) {
      StoreRows(s);
      ReadsOfMutation(s, k);
      RestoreReads(s.store.items, mutation.previous, s.confirmed, s.server.history);
      var back := s.(store := MarkRolledBack(s.store, mutation.previous, mutation.previousCount));
      ReconcileFrame(back, Recovery, mutation.ctx);
      hide ReadsInv, ReadIn, Drawn, Restore;
      StoreChangeKeepsReads(s, back);
      ReconcileKeepsReads(back, Recovery, mutation.ctx);
      var after := Reconcile(back, Recovery, mutation.ctx);
      MutationChangeKeepsReads(after, k, mutation.(phase := Recovering(after.store.reconciliation.value)));
    } else {
      SettleKeepsReads(s, k, false);
    }
  }

  lemma MutationKeepsReads(s: State, k: nat, ok: bool)
    requires BaseInv(s) && ReadsInv(s) && k < |s.mutations| && StepOfMutation(s, k, ok).Some?
    ensures ReadsInv(StepOfMutation(s, k, ok).value)
  {
    hide BaseInv, ReadsInv, MutationBegins, MutationSucceeds, MutationFails, Settle, ServerMarks, Unread;
    match s.mutations[k].phase
    case Waiting => MutationBeginsKeepsReads(s, k);
    case Sent => if ok { SentKeepsReads(s, k); } else { MutationFailsKeepsReads(s, k); }
    case Processed(unread) =>
      if ok { MutationSucceedsKeepsReads(s, k, unread); } else { MutationFailsKeepsReads(s, k); }
    case Recovering(_) => SettleKeepsReads(s, k, false);
    case Settled(_) =>
  }

  lemma EnqueuedKeepsReads(s: State, target: Target)
    requires BaseInv(s) && ReadsInv(s)
    requires target.Every? ==> forall id :: id in target.ids ==> id in s.server.history
    ensures ReadsInv(Enqueued(s, target))
  {
    OpeningKeepsReads(s);
    if SessionContext(s.store).Some? {
      hide BaseInv, LoopsReads, MoresReads, Opened, SessionContext, ReadIn, Drawn;
    }
  }

  // ----- Every run ---------------------------------------------------------------------------------------------------

  lemma InsertKeepsReads(s: State, id: Id, at: nat)
    requires ReadsInv(s) && Effect(s, Insert(id, at)).Some?
    ensures ReadsInv(Effect(s, Insert(id, at)).value)
  {
    var h := s.server.history;
    var h' := h[..at] + [id] + h[at..];
    assert forall x :: x in h ==> x in h' by { assert h == h[..at] + h[at..]; }
  }

  lemma OtherKeepsReads(s: State, l: Label)
    requires BaseInv(s) && ReadsInv(s) && Effect(s, l).Some?
    requires !l.LoopStep? && !l.MoreStep? && !l.MutationStep? && !l.CallLoadMore? && !l.Insert?
    ensures ReadsInv(Effect(s, l).value)
  {
    StoreRows(s);
    assert forall i :: 0 <= i < |s.store.items| ==> s.store.items[i].id in s.server.history;
    hide ReadsInv, BaseInv, Reconcile, Enqueued, ShowsUnread, Without, ReadIn, Drawn;
    match l
    case ReadElsewhere(_) => ServerReadsOn(s, Effect(s, l).value.server);
    case AuthChanges => LeavingKeepsReads(s);
    case CallReset => LeavingKeepsReads(s);
    case CallReconcile(reason) =>
      OpeningKeepsReads(s);
      if SessionContext(s.store).Some? {
        ReconcileKeepsReads(s.(store := Opened(s.store)), reason, SessionContext(s.store).value);
      }
    case Invalidate(reason, ctx) => ReconcileKeepsReads(s, reason, ctx);
    case CallMarkRead(id) => EnqueuedKeepsReads(s, One(id));
    case CallMarkAllRead =>
      EnqueuedKeepsReads(s, Every(set i | 0 <= i < |s.store.items| && !s.store.items[i].read :: s.store.items[i].id));
    case Dismiss(_) => StoreChangeKeepsReads(s, Effect(s, l).value);
    case _ =>
  }

  lemma NextKeepsReads(s: State, l: Label)
    requires BaseInv(s) && ReadsInv(s) && Next(s, l).Some?
    ensures ReadsInv(Next(s, l).value)
  {
    hide BaseInv, ReadsInv, StepOfLoop, StepOfMore, StepOfMutation, LoadMoreCalled;
    match l {
      case LoopStep(i, ok) => LoopKeepsReads(s, i, ok);
      case MoreStep(m, ok) => MoreKeepsReads(s, m, ok);
      case MutationStep(k, ok) => MutationKeepsReads(s, k, ok);
      case CallLoadMore => LoadMoreKeepsReads(s);
      case Insert(id, at) => InsertKeepsReads(s, id, at);
      case _ => OtherKeepsReads(s, l);
    }
    hide Effect, ReadIn, Drawn;
    ClockOnly(Effect(s, l).value, s.clock + 1);
  }

  lemma ClockOnly(s: State, clock: nat)
    ensures ReadsInv(s.(clock := clock)) <==> ReadsInv(s)
  {
  }

  lemma {:induction false} RunKeepsReads(s: State, ls: seq<Label>)
    requires BaseInv(s) && ReadsInv(s) && Run(s, ls).Some?
    ensures BaseInv(Run(s, ls).value) && ReadsInv(Run(s, ls).value)
    decreases |ls|
  {
    hide BaseInv, ReadsInv, Next;
    if |ls| > 0 {
      NextKeepsBase(s, ls[0]);
      NextKeepsReads(s, ls[0]);
      RunKeepsReads(Next(s, ls[0]).value, ls[1..]);
    }
  }

  // Once a mark that was sent has succeeded, nothing it marked is shown unread again
  // for the rest of the session: not by a refresh or a page that was under way, not
  // by a later mutation, its failure or its rollback.
  lemma ReadYourWrites(server: Server, ls: seq<Label>, k: nat, id: Id)
    requires Run(Init(server), ls).Some? && k < |Run(Init(server), ls).value.mutations|
    requires var s := Run(Init(server), ls).value;
             && s.mutations[k].phase == Settled(true) && s.mutations[k].asked
             && IsCurrent(s.store, s.mutations[k].ctx) && id in Targets(s.mutations[k].target)
    ensures !ShowsUnread(Run(Init(server), ls).value.store.items, id)
    ensures id in Run(Init(server), ls).value.server.read
  {
    InitBase(server);
    InitReads(server);
    hide BaseInv;
    RunKeepsReads(Init(server), ls);
    var s := Run(Init(server), ls).value;
    hide Run;
    ReadsOfMutation(s, k);
  }

  lemma InitReads(server: Server)
    ensures ReadsInv(Init(server))
  {
  }

  // ----- A call that sends nothing -------------------------------------------------------------------------------------

  // markRead returns at once for a row that is not shown unread, and then promises
  // nothing: in every state where the row is shown read only because a mutation that
  // found it unread is under way, the call changes nothing and the failure of that
  // mutation shows the row unread again.
  lemma UnconfirmedMarkIsUndone(s: State, k: nat, id: Id)
    requires k < |s.mutations| && IsCurrent(s.store, s.mutations[k].ctx)
    requires s.mutations[k].phase == Sent || s.mutations[k].phase.Processed?
    requires id in s.mutations[k].previous && !s.mutations[k].previous[id]
    requires exists i :: 0 <= i < |s.store.items| && s.store.items[i].id == id
    requires !ShowsUnread(s.store.items, id)
    ensures MarkReadCalled(s, id) == s
    ensures Next(s, MutationStep(k, false)).Some?
    ensures ShowsUnread(Next(s, MutationStep(k, false)).value.store.items, id)
  {
    var i :| 0 <= i < |s.store.items| && s.store.items[i].id == id;
    var back := s.(store := MarkRolledBack(s.store, s.mutations[k].previous, s.mutations[k].previousCount));
    assert back.store.items[i] == Item(id, false);
    ReconcileFrame(back, Recovery, s.mutations[k].ctx);
    hide Reconcile, ShowsUnread;
  }

  // A run that gets there.
  lemma MarkReadReturnsEarly() returns (before: seq<Label>, after: seq<Label>)
    ensures var server := Server([7], {});
            && Run(Init(server), before).Some? && Run(Init(server), before + [CallMarkRead(7)] + after).Some?
            && var s := Run(Init(server), before).value;
            && var later := Run(Init(server), before + [CallMarkRead(7)] + after).value;
            && s.store.items == [Item(7, true)] && MarkReadCalled(s, 7) == s
            && ShowsUnread(later.store.items, 7) && SessionOf(later.store) == SessionOf(s.store)
            && forall k :: 0 <= k < |later.mutations| ==> later.mutations[k].target != One(7)
  {
    hide Run, Next, Stage;
    before := [];
    var s := Init(Server([7], {}));
    RunsNone(s);
    RunsOne(s, before, CallReconcile(Initial));
    before := before + [CallReconcile(Initial)];
    var s1 := ReconcileOpens(s);
    RunsOne(s, before, LoopStep(0, true));
    before := before + [LoopStep(0, true)];
    var s2 := PageComes(s1);
    RunsOne(s, before, LoopStep(0, true));
    before := before + [LoopStep(0, true)];
    var s3 := PageShown(s2);
    RunsOne(s, before, CallMarkAllRead);
    before := before + [CallMarkAllRead];
    var s4 := AllQueued(s3);
    RunsOne(s, before, MutationStep(0, true));
    before := before + [MutationStep(0, true)];
    var s5 := AllSent(s4);
    RunsOne(s, before, CallMarkRead(7));
    var s6 := NothingSent(s5);
    after := [MutationStep(0, false)];
    RunsOne(s, before + [CallMarkRead(7)], MutationStep(0, false));
    var s7 := AllFails(s6);
    StageSession(s5);
    StageSession(s6);
  }

  const ALL := Mutation(Context(0, 0), Every({7}), Waiting, false, map[], 0)
  const ALL_SENT := ALL.(phase := Sent, asked := true, previous := map[7 := false], previousCount := 1)

  // One loop and at most one mutation, in the first session.
  predicate Stage(s: State, phase: LoopPhase, items: seq<Item>, unread: nat, mutations: seq<Mutation>) {
    && s.server == Server([7], {}) && SessionOf(s.store) == Session(0, Some(0), 0)
    && |s.loops| == 1 && s.loops[0] == Loop(Context(0, 0), phase, Initial, 0, [], None, 0)
    && s.store.reconciliation == Some(0) && s.store.mutationEpoch == 0 && s.store.loadedPages == 1
    && s.store.items == items && s.store.unreadCount == unread && s.mutations == mutations
    && s.store.mutations == (if |mutations| == 0 then [] else [0])
  }

  lemma StageSession(s: State)
    ensures forall phase, items, unread, mutations :: Stage(s, phase, items, unread, mutations) ==>
              SessionOf(s.store) == Session(0, Some(0), 0) && s.store.items == items && s.mutations == mutations
  {
  }

  lemma ReconcileOpens(s: State) returns (s': State)
    requires s == Init(Server([7], {}))
    ensures Next(s, CallReconcile(Initial)) == Some(s') && Stage(s', Asking, [], 0, [])
  {
    s' := Next(s, CallReconcile(Initial)).value;
  }

  lemma PageComes(s: State) returns (s': State)
    requires Stage(s, Asking, [], 0, [])
    ensures Next(s, LoopStep(0, true)) == Some(s')
    ensures Stage(s', Answered(Page([Item(7, false)], 1, None)), [], 0, [])
  {
    assert Slice(s.server, 0, 1) == [Item(7, false)];
    OneUnread(s.server);
    hide Unread;
    s' := Next(s, LoopStep(0, true)).value;
  }

  lemma OneUnread(server: Server)
    requires server == Server([7], {})
    ensures Unread(server) == 1
  {
    var unread := set i | 0 <= i < |server.history| && server.history[i] !in server.read :: server.history[i];
    assert server.history[0] in unread;
    assert unread == {7};
  }

  lemma PageShown(s: State) returns (s': State)
    requires Stage(s, Answered(Page([Item(7, false)], 1, None)), [], 0, [])
    ensures Next(s, LoopStep(0, true)) == Some(s')
    ensures exists at :: Stage(s', LoadingAccounts(at), [Item(7, false)], 1, [])
  {
    var rows := [Item(7, false)];
    assert rows[..0] == [] && PutAll([], rows) == rows;
    s' := Next(s, LoopStep(0, true)).value;
    hide PutAll, IdSet, Discovered;
    assert Stage(s', LoadingAccounts(s.clock), rows, 1, []);
  }

  lemma AllQueued(s: State) returns (s': State)
    requires exists at :: Stage(s, LoadingAccounts(at), [Item(7, false)], 1, [])
    ensures Next(s, CallMarkAllRead) == Some(s')
    ensures exists at :: Stage(s', LoadingAccounts(at), [Item(7, false)], 1, [ALL])
  {
    var at :| Stage(s, LoadingAccounts(at), [Item(7, false)], 1, []);
    var items := s.store.items;
    assert items[0] == Item(7, false);
    assert (set i | 0 <= i < |items| && !items[i].read :: items[i].id) == {7};
    s' := Next(s, CallMarkAllRead).value;
    assert Stage(s', LoadingAccounts(at), [Item(7, false)], 1, [ALL]);
  }

  lemma AllSent(s: State) returns (s': State)
    requires exists at :: Stage(s, LoadingAccounts(at), [Item(7, false)], 1, [ALL])
    ensures Next(s, MutationStep(0, true)) == Some(s')
    ensures exists at :: Stage(s', LoadingAccounts(at), [Item(7, true)], 0, [ALL_SENT])
  {
    var at :| Stage(s, LoadingAccounts(at), [Item(7, false)], 1, [ALL]);
    var items := s.store.items;
    assert items[..0] == [] && items[0] == Item(7, false);
    assert Readings(items, {7}) == map[7 := false];
    assert |map[7 := false]| == 1;
    assert MarkIds(items, {7}) == [Item(7, true)];
    s' := Next(s, MutationStep(0, true)).value;
    hide Readings, MarkIds;
    assert Stage(s', LoadingAccounts(at), [Item(7, true)], 0, [ALL_SENT]);
  }

  lemma NothingSent(s: State) returns (s': State)
    requires exists at :: Stage(s, LoadingAccounts(at), [Item(7, true)], 0, [ALL_SENT])
    ensures Next(s, CallMarkRead(7)) == Some(s') && MarkReadCalled(s, 7) == s
    ensures exists at :: Stage(s', LoadingAccounts(at), [Item(7, true)], 0, [ALL_SENT])
  {
    var at :| Stage(s, LoadingAccounts(at), [Item(7, true)], 0, [ALL_SENT]);
    s' := Next(s, CallMarkRead(7)).value;
    assert Stage(s', LoadingAccounts(at), [Item(7, true)], 0, [ALL_SENT]);
  }

  lemma AllFails(s: State) returns (s': State)
    requires exists at :: Stage(s, LoadingAccounts(at), [Item(7, true)], 0, [ALL_SENT])
    ensures Next(s, MutationStep(0, false)) == Some(s') && ShowsUnread(s'.store.items, 7)
    ensures SessionOf(s'.store) == SessionOf(s.store)
    ensures |s'.mutations| == 1 && s'.mutations[0].target == Every({7})
  {
    assert Restore(s.store.items, map[7 := false]) == [Item(7, false)];
    s' := Next(s, MutationStep(0, false)).value;
    assert s'.store.items[0] == Item(7, false);
  }

  lemma RunsNone(s: State)
    ensures Run(s, []) == Some(s)
  {
  }

  lemma {:induction false} RunsOne(s: State, ls: seq<Label>, l: Label)
    requires Run(s, ls).Some?
    ensures Run(s, ls + [l]) == Next(Run(s, ls).value, l)
    decreases |ls|
  {
    hide Next;
    if |ls| == 0 {
      assert (ls + [l])[1..] == [];
    } else {
      assert (ls + [l])[1..] == ls[1..] + [l];
      RunsOne(Next(s, ls[0]).value, ls[1..], l);
    }
  }
}
