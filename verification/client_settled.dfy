// When a row that is shown read stays read: what the server knows, what answers still
// under way say, and what a mutation under way would put back.
module ClientSettled {
  import opened Prelude
  import opened ClientStore
  import opened ClientRuns
  import opened ClientInv
  import opened ClientWindow
  import opened ClientOrder
  import opened ClientReads

  // ----- Answers under way -------------------------------------------------------------------

  // A refresh that will still be used, if it may, holds no unread row for the id.
  ghost predicate LoopClean(loop: Loop, epoch: nat, id: Id) {
    Fetching(loop) && loop.epoch == epoch ==>
      !ShowsUnread(loop.rows, id) && (loop.phase.Answered? ==> !ShowsUnread(loop.phase.page.items, id))
  }

  ghost predicate MoreClean(more: More, readEpoch: nat, epoch: nat, id: Id) {
    more.phase.Received? && more.readEpoch == readEpoch && more.mutationEpoch == epoch ==>
      !ShowsUnread(more.phase.page.items, id)
  }

  ghost predicate LoopsClean(se: Session, loops: seq<Loop>, epoch: nat, id: Id) {
    forall l :: 0 <= l < |loops| && Current(se, loops[l].ctx) ==> LoopClean(loops[l], epoch, id)
  }

  ghost predicate MoresClean(se: Session, mores: seq<More>, readEpoch: nat, epoch: nat, id: Id) {
    forall m :: 0 <= m < |mores| && Current(se, mores[m].ctx) ==> MoreClean(mores[m], readEpoch, epoch, id)
  }

  // No answer that may still be applied says that the id is unread.
  ghost predicate Unheld(s: State, id: Id) {
    var se := SessionOf(s.store);
    LoopsClean(se, s.loops, s.store.mutationEpoch, id) &&
    MoresClean(se, s.mores, s.store.readEpoch, s.store.mutationEpoch, id)
  }

  // Read on the server, and nothing under way says otherwise.
  ghost predicate Clean(s: State, id: Id) {
    id in s.server.read && Unheld(s, id)
  }

  // ----- Mutations under way --------------------------------------------------------------------

  predicate UnderWay(mutation: Mutation) {
    mutation.phase == Sent || mutation.phase.Processed?
  }

  // Its failure would show the id unread again.
  predicate WouldUndo(se: Session, mutation: Mutation, id: Id) {
    Current(se, mutation.ctx) && UnderWay(mutation) && id in mutation.previous && !mutation.previous[id]
  }

  // Its failure would show the id read, if at all.
  predicate WouldKeep(se: Session, mutation: Mutation, id: Id) {
    Current(se, mutation.ctx) && UnderWay(mutation) && id in mutation.previous && mutation.previous[id]
  }

  ghost predicate Unconfirmed(s: State, id: Id) {
    exists k :: 0 <= k < |s.mutations| && WouldUndo(SessionOf(s.store), s.mutations[k], id)
  }

  // The id is not shown unread and nothing under way can show it unread.
  ghost predicate SettledRead(s: State, id: Id) {
    Clean(s, id) && !ShowsUnread(s.store.items, id) && !Unconfirmed(s, id)
  }

  // ----- Nothing new makes an id unclean ---------------------------------------------------------

  lemma NotUnread(rows: seq<Item>, id: Id)
    ensures ReadIn(rows, {id}) <==> !ShowsUnread(rows, id)
  {
  }

  lemma PutAllClean(rows: seq<Item>, page: seq<Item>, id: Id)
    requires !ShowsUnread(rows, id) && !ShowsUnread(page, id)
    ensures !ShowsUnread(PutAll(rows, page), id)
  {
    NotUnread(rows, id);
    NotUnread(page, id);
    PutAllReads(rows, page, {id}, []);
    NotUnread(PutAll(rows, page), id);
  }

  lemma PageClean(server: Server, cursor: Option<Id>, id: Id)
    requires id in server.read
    ensures !ShowsUnread(PageOf(server, cursor).items, id)
  {
    PageReads(server, cursor, {id});
    NotUnread(PageOf(server, cursor).items, id);
  }

  // The epochs that answers carry are not ahead of the store's.
  ghost predicate EpochsInv(s: State) {
    var se := SessionOf(s.store);
    && (forall l :: 0 <= l < |s.loops| && Current(se, s.loops[l].ctx) ==> s.loops[l].epoch <= s.store.mutationEpoch)
    && (forall m :: 0 <= m < |s.mores| ==> s.mores[m].readEpoch <= s.store.readEpoch)
    && (forall m :: 0 <= m < |s.mores| && Current(se, s.mores[m].ctx) && Paging(s.mores[m]) ==>
          s.mores[m].mutationEpoch <= s.store.mutationEpoch)
  }

  lemma EpochsHold(s: State)
    requires ReadsInv(s) && OrderInv(s)
    ensures EpochsInv(s)
  {
    hide LoopsDeep, SameCursor, StoreDeep, Distinct, MutationsReads, ReadIn, Drawn;
  }

  lemma ReconcileKeepsClean(s: State, reason: Reason, ctx: Context, id: Id)
    requires EpochsInv(s) && Clean(s, id)
    ensures Clean(Reconcile(s, reason, ctx), id)
  {
  }

  lemma LoopChangeKeepsClean(s: State, l: nat, loop: Loop, id: Id)
    requires Clean(s, id) && l < |s.loops| && loop.ctx == s.loops[l].ctx
    requires Current(SessionOf(s.store), loop.ctx) ==> LoopClean(loop, s.store.mutationEpoch, id)
    ensures Clean(WithLoop(s, l, loop), id)
  {
    hide MoresClean, LoopClean;
  }

  // Only the parts that matter here.
  lemma SameAnswersClean(s: State, s': State, id: Id)
    requires Clean(s, id) && id in s'.server.read && s'.loops == s.loops && s'.mores == s.mores
    requires SessionOf(s'.store) == SessionOf(s.store) && s'.store.mutationEpoch == s.store.mutationEpoch
    requires s'.store.readEpoch == s.store.readEpoch
    ensures Clean(s', id)
  {
    hide LoopsClean, MoresClean;
  }

  lemma CleanLoop(s: State, l: nat, id: Id)
    requires Clean(s, id) && l < |s.loops| && Current(SessionOf(s.store), s.loops[l].ctx)
    ensures LoopClean(s.loops[l], s.store.mutationEpoch, id)
  {
  }

  lemma CleanMore(s: State, m: nat, id: Id)
    requires Clean(s, id) && m < |s.mores| && Current(SessionOf(s.store), s.mores[m].ctx)
    ensures MoreClean(s.mores[m], s.store.readEpoch, s.store.mutationEpoch, id)
  {
  }

  lemma LoopResumesKeepsClean(s: State, l: nat, id: Id)
    requires EpochsInv(s) && Clean(s, id) && l < |s.loops|
    ensures Clean(LoopResumes(s, l), id)
  {
  }

  lemma LoopKeepsClean(s: State, l: nat, ok: bool, id: Id)
    requires EpochsInv(s) && Clean(s, id) && l < |s.loops| && StepOfLoop(s, l, ok).Some?
    ensures Clean(StepOfLoop(s, l, ok).value, id)
  {
    hide EpochsInv, LoopResumes, PageOf, ShowsUnread, PutAll, Toasts, AddPending, IdSet, Discovered, Merged;
    var loop := s.loops[l];
    var s' := StepOfLoop(s, l, ok).value;
    if loop.phase == Between {
      LoopResumesKeepsClean(s, l, id);
    } else {
      if Current(SessionOf(s.store), loop.ctx) {
        CleanLoop(s, l, id);
        PageClean(s.server, loop.cursor, id);
        if loop.phase.Answered? && !ShowsUnread(loop.rows, id) && !ShowsUnread(loop.phase.page.items, id) {
          PutAllClean(loop.rows, loop.phase.page.items, id);
        }
      }
      LoopFrame(s, l, ok);
      LoopEpochs(s, l, ok);
      hide Clean, StepOfLoop;
      LoopChangeKeepsClean(s, l, s'.loops[l], id);
      SameAnswersClean(WithLoop(s, l, s'.loops[l]), s', id);
    }
  }

  // What a step of a loop that does not resume makes of its answers.
  lemma LoopEpochs(s: State, l: nat, ok: bool)
    requires l < |s.loops| && StepOfLoop(s, l, ok).Some? && s.loops[l].phase != Between
    ensures var loop, s' := s.loops[l], StepOfLoop(s, l, ok).value;
            var loop' := s'.loops[l];
            && s'.store.readEpoch == s.store.readEpoch && s'.loops == s.loops[l := loop']
            && (Fetching(loop') ==>
                  && loop'.epoch == loop.epoch
                  && ((loop.phase == Asking && loop'.rows == loop.rows &&
                       loop'.phase == Answered(PageOf(s.server, loop.cursor)))
                      || (loop.phase.Answered? && loop'.phase == Asking &&
                          loop'.rows == PutAll(loop.rows, loop.phase.page.items) && loop.epoch == s.store.mutationEpoch)))
  {
    hide PageOf, PutAll, Toasts, AddPending, IdSet, Discovered, Merged, IsCurrent;
  }

  lemma MoreChangeKeepsClean(s: State, m: nat, more: More, id: Id)
    requires Clean(s, id) && m < |s.mores| && more.ctx == s.mores[m].ctx
    requires Current(SessionOf(s.store), more.ctx) ==> MoreClean(more, s.store.readEpoch, s.store.mutationEpoch, id)
    ensures Clean(WithMore(s, m, more), id)
  {
    hide LoopsClean, MoreClean;
  }

  lemma MoreLoopsKeepsClean(s: State, m: nat, id: Id)
    requires Clean(s, id) && m < |s.mores|
    ensures Clean(MoreLoops(s, m), id) && Clean(MoreAsks(s, m), id) && Clean(MoreEnds(s, m), id)
  {
    MoreLoopsFrame(s, m);
    MoreLoopsEpochs(s, m);
    hide Clean, ShowsUnread, MoreFramed;
    MoreChangeKeepsClean(s, m, MoreLoops(s, m).mores[m], id);
    MoreChangeKeepsClean(s, m, MoreAsks(s, m).mores[m], id);
    MoreChangeKeepsClean(s, m, MoreEnds(s, m).mores[m], id);
    hide MoreLoops, MoreAsks, MoreEnds;
    SameAnswersClean(WithMore(s, m, MoreLoops(s, m).mores[m]), MoreLoops(s, m), id);
    SameAnswersClean(WithMore(s, m, MoreAsks(s, m).mores[m]), MoreAsks(s, m), id);
    SameAnswersClean(WithMore(s, m, MoreEnds(s, m).mores[m]), MoreEnds(s, m), id);
  }

  lemma MoreLoopsEpochs(s: State, m: nat)
    requires m < |s.mores|
    ensures MoreLoops(s, m).mores == s.mores[m := MoreLoops(s, m).mores[m]] && !MoreLoops(s, m).mores[m].phase.Received?
    ensures MoreAsks(s, m).mores == s.mores[m := MoreAsks(s, m).mores[m]] && !MoreAsks(s, m).mores[m].phase.Received?
    ensures MoreEnds(s, m).mores == s.mores[m := MoreEnds(s, m).mores[m]] && !MoreEnds(s, m).mores[m].phase.Received?
    ensures MoreLoops(s, m).server == MoreAsks(s, m).server == MoreEnds(s, m).server == s.server
    ensures MoreLoops(s, m).mutations == MoreAsks(s, m).mutations == MoreEnds(s, m).mutations == s.mutations
  {
    hide IsCurrent;
  }

  lemma MoreKeepsClean(s: State, m: nat, ok: bool, id: Id)
    requires EpochsInv(s) && Clean(s, id) && m < |s.mores| && StepOfMore(s, m, ok).Some?
    ensures Clean(StepOfMore(s, m, ok).value, id)
  {
    var more := s.mores[m];
    MoreLoopsKeepsClean(s, m, id);
    ReconcileFrame(s, Recovery, more.ctx);
    ReconcileKeepsClean(s, Recovery, more.ctx, id);
    var s1 := Reconcile(s, Recovery, more.ctx);
    PageClean(s.server, Some(more.cursor), id);
    assert id in s.server.read;
    hide Clean, EpochsInv, MoreLoops, MoreAsks, MoreEnds, PageOf, Reconcile, PutAll, IdSet, Discovered, ShowsUnread;
    match more.phase
    case Requested =>
      if ok { MoreChangeKeepsClean(s, m, more.(phase := Received(PageOf(s.server, Some(more.cursor)))), id); }
    case Received(page) =>
      if ok && IsCurrent(s.store, more.ctx) {
        MoreChangeKeepsClean(s1, m, more.(phase := Awaiting(s1.store.reconciliation.value, true)), id);
        MoreChangeKeepsClean(s, m, more.(phase := Finished), id);
        if more.mutationEpoch == s.store.mutationEpoch && more.readEpoch == s.store.readEpoch {
          SameAnswersClean(WithMore(s, m, more.(phase := Finished)), MoreArrives(s, m, page), id);
        }
      }
    case _ =>
  }

  // A mutation that succeeds leaves every answer behind.
  lemma EpochBumpClean(s: State, s': State, id: Id)
    requires EpochsInv(s) && id in s'.server.read && s'.loops == s.loops && s'.mores == s.mores
    requires SessionOf(s'.store) == SessionOf(s.store) && s'.store.mutationEpoch == s.store.mutationEpoch + 1
    ensures Clean(s', id)
  {
    hide ShowsUnread;
  }

  lemma EpochsStay(s: State, s': State)
    requires EpochsInv(s) && s'.loops == s.loops && s'.mores == s.mores && SessionOf(s'.store) == SessionOf(s.store)
    requires s'.store.mutationEpoch >= s.store.mutationEpoch && s'.store.readEpoch == s.store.readEpoch
    ensures EpochsInv(s')
  {
  }

  lemma MutationKeepsClean(s: State, k: nat, ok: bool, id: Id)
    requires EpochsInv(s) && Clean(s, id) && k < |s.mutations| && StepOfMutation(s, k, ok).Some?
    ensures Clean(StepOfMutation(s, k, ok).value, id)
  {
    var s' := StepOfMutation(s, k, ok).value;
    var mutation := s.mutations[k];
    var ids := Targets(mutation.target);
    assert id in s.server.read;
    hide Clean, EpochsInv, Reconcile, ShowsUnread, Readings, Unread, MarkIds, Restore;
    if mutation.phase.Processed? && ok && IsCurrent(s.store, mutation.ctx) {
      var marked := Marked(s, k, mutation.phase.unread);
      EpochBumpClean(s, marked, id);
      EpochsStay(s, marked);
      ReconcileFrame(marked, Recovery, mutation.ctx);
      ReconcileKeepsClean(marked, Recovery, mutation.ctx, id);
      var after := Reconcile(marked, Recovery, mutation.ctx);
      SameAnswersClean(marked, Settle(marked, k, true), id);
      SameAnswersClean(after, Settle(after, k, true), id);
    } else if UnderWay(mutation) && !ok && IsCurrent(s.store, mutation.ctx) {
      var back := s.(store := MarkRolledBack(s.store, mutation.previous, mutation.previousCount));
      SameAnswersClean(s, back, id);
      EpochsStay(s, back);
      ReconcileFrame(back, Recovery, mutation.ctx);
      ReconcileKeepsClean(back, Recovery, mutation.ctx, id);
      SameAnswersClean(Reconcile(back, Recovery, mutation.ctx), s', id);
    } else {
      SameAnswersClean(s, s', id);
    }
  }

  lemma OtherKeepsClean(s: State, l: Label, id: Id)
    requires EpochsInv(s) && Clean(s, id) && Effect(s, l).Some?
    requires !l.LoopStep? && !l.MoreStep? && !l.MutationStep?
    requires SessionOf(Effect(s, l).value.store) == SessionOf(s.store)
    ensures Clean(Effect(s, l).value, id)
  {
    assert id in s.server.read;
    var s' := Effect(s, l).value;
    hide Clean, EpochsInv, Reconcile, ShowsUnread, Without, MoreLoops;
    match l
    case CallReconcile(reason) => ReconcileCallKeepsClean(s, reason, id);
    case Invalidate(reason, ctx) => ReconcileKeepsClean(s, reason, ctx, id);
    case CallLoadMore => LoadMoreKeepsClean(s, id);
    case CallReset =>
    case AuthChanges =>
    case _ => SameAnswersClean(s, s', id);
  }

  lemma ReconcileCallKeepsClean(s: State, reason: Reason, id: Id)
    requires EpochsInv(s) && Clean(s, id) && SessionOf(ReconcileCalled(s, reason).store) == SessionOf(s.store)
    ensures Clean(ReconcileCalled(s, reason), id)
  {
    assert id in s.server.read;
    hide Clean, EpochsInv, Reconcile;
    var ready := s.(store := Opened(s.store));
    if SessionContext(s.store).Some? { ReconcileFrame(ready, reason, SessionContext(s.store).value); }
    SameAnswersClean(s, ready, id);
    EpochsStay(s, ready);
    if SessionContext(s.store).Some? { ReconcileKeepsClean(ready, reason, SessionContext(s.store).value, id); }
  }

  lemma LoadMoreKeepsClean(s: State, id: Id)
    requires Clean(s, id) && SessionOf(LoadMoreCalled(s).store) == SessionOf(s.store)
    ensures Clean(LoadMoreCalled(s), id)
  {
    var ready := s.(store := Opened(s.store));
    if s.store.nextCursor.Some? && !s.store.loadingMore && SessionContext(s.store).Some? {
      var begun := MoreBegun(s, SessionContext(s.store).value);
      MoreLoopsFrame(begun, |s.mores|);
      hide MoreLoops, ShowsUnread;
      assert Clean(begun, id) by { hide LoopsClean; }
      hide Clean;
      MoreLoopsKeepsClean(begun, |s.mores|, id);
    } else {
      hide Clean;
      SameAnswersClean(s, LoadMoreCalled(s), id);
    }
  }

  lemma NextKeepsClean(s: State, l: Label, id: Id)
    requires EpochsInv(s) && Clean(s, id) && Next(s, l).Some?
    requires SessionOf(Next(s, l).value.store) == SessionOf(s.store)
    ensures Clean(Next(s, l).value, id)
  {
    hide Clean, EpochsInv, StepOfLoop, StepOfMore, StepOfMutation, LoadMoreCalled;
    match l {
      case LoopStep(i, ok) => LoopKeepsClean(s, i, ok, id);
      case MoreStep(m, ok) => MoreKeepsClean(s, m, ok, id);
      case MutationStep(k, ok) => MutationKeepsClean(s, k, ok, id);
      case _ => OtherKeepsClean(s, l, id);
    }
    ReadGrows(Effect(s, l).value, id);
    hide Effect;
    SameAnswersClean(Effect(s, l).value, Next(s, l).value, id);
  }

  lemma ReadGrows(s: State, id: Id)
    ensures Clean(s, id) ==> id in s.server.read
  {
  }

  // ----- What is shown read has a reason -------------------------------------------------------

  // Read rows in answers are read on the server.
  ghost predicate TrueRows(rows: seq<Item>, read: set<Id>) {
    forall i :: 0 <= i < |rows| && rows[i].read ==> rows[i].id in read
  }

  ghost predicate LoopTrue(loop: Loop, read: set<Id>) {
    Fetching(loop) ==> TrueRows(loop.rows, read) && (loop.phase.Answered? ==> TrueRows(loop.phase.page.items, read))
  }

  ghost predicate MoreTrue(more: More, read: set<Id>) {
    more.phase.Received? ==> TrueRows(more.phase.page.items, read)
  }

  ghost predicate AnswersTrue(s: State) {
    && (forall l :: 0 <= l < |s.loops| ==> LoopTrue(s.loops[l], s.server.read))
    && (forall m :: 0 <= m < |s.mores| ==> MoreTrue(s.mores[m], s.server.read))
  }

  // A row is shown read because nothing can show it unread, or because a mutation under
  // way has marked it. Nothing is shown before the session is open.
  ghost predicate RowsBacked(s: State) {
    && (s.store.session.None? ==> s.store.items == [])
    && (InSession(s.store) ==>
          forall i :: 0 <= i < |s.store.items| && s.store.items[i].read ==>
            Clean(s, s.store.items[i].id) || Unconfirmed(s, s.store.items[i].id))
  }

  // What a mutation under way would put back as read, nothing else can show unread.
  ghost predicate PreviousBacked(s: State) {
    forall k, id :: 0 <= k < |s.mutations| && WouldKeep(SessionOf(s.store), s.mutations[k], id) ==> Clean(s, id)
  }

  ghost predicate FreshInv(s: State) {
    && AnswersTrue(s) && RowsBacked(s) && PreviousBacked(s)
    && (forall k :: 0 <= k < |s.mutations| ==> s.mutations[k].previous.Keys <= Targets(s.mutations[k].target))
  }

  ghost predicate AllInv(s: State) {
    BaseInv(s) && ReadsInv(s) && OrderInv(s) && FreshInv(s)
  }

  // ----- Answers stay true ---------------------------------------------------------------------

  lemma {:induction false} PutTrue(rows: seq<Item>, item: Item, read: set<Id>)
    requires TrueRows(rows, read) && (item.read ==> item.id in read)
    ensures TrueRows(Put(rows, item), read)
    decreases |rows|
  {
    if |rows| > 0 && rows[0].id != item.id { PutTrue(rows[1..], item, read); }
  }

  lemma {:induction false} PutAllTrue(rows: seq<Item>, page: seq<Item>, read: set<Id>)
    requires TrueRows(rows, read) && TrueRows(page, read)
    ensures TrueRows(PutAll(rows, page), read)
    decreases |page|
  {
    if |page| > 0 {
      var n := |page| - 1;
      assert TrueRows(page[..n], read);
      PutAllTrue(rows, page[..n], read);
      PutTrue(PutAll(rows, page[..n]), page[n], read);
    }
  }

  lemma PageTrue(server: Server, cursor: Option<Id>)
    ensures TrueRows(PageOf(server, cursor).items, server.read)
  {
    hide Position, Unread;
  }

  lemma LoopKeepsTrue(s: State, l: nat, ok: bool)
    requires AnswersTrue(s) && l < |s.loops| && StepOfLoop(s, l, ok).Some?
    ensures AnswersTrue(StepOfLoop(s, l, ok).value)
  {
    hide TrueRows, PageOf, PutAll, Toasts, AddPending, IdSet, Discovered, Merged, IsCurrent;
    var loop := s.loops[l];
    var s' := StepOfLoop(s, l, ok).value;
    assert LoopTrue(loop, s.server.read);
    PageTrue(s.server, loop.cursor);
    if loop.phase.Answered? { PutAllTrue(loop.rows, loop.phase.page.items, s.server.read); }
    NoRowsTrue(s.server.read);
    LoopFrame(s, l, ok);
    assert LoopTrue(s'.loops[l], s.server.read);
    hide StepOfLoop, LoopTrue, MoreTrue;
  }

  lemma NoRowsTrue(read: set<Id>)
    ensures TrueRows([], read)
  {
  }

  lemma MoreKeepsTrue(s: State, m: nat, ok: bool)
    requires AnswersTrue(s) && m < |s.mores| && StepOfMore(s, m, ok).Some?
    ensures AnswersTrue(StepOfMore(s, m, ok).value)
  {
    var more := s.mores[m];
    var s' := StepOfMore(s, m, ok).value;
    PageTrue(s.server, Some(more.cursor));
    NoRowsTrue(s.server.read);
    MoreFrame(s, m, ok);
    MoreReconciles(s, m, ok);
    MoreReceived(s, m, ok);
    hide StepOfMore, TrueRows, PageOf;
    assert MoreTrue(s.mores[m], s.server.read);
    assert MoreTrue(s'.mores[m], s.server.read);
    hide MoreTrue;
  }

  // A pagination only ever gets the page it asked for.
  lemma MoreReceived(s: State, m: nat, ok: bool)
    requires m < |s.mores| && StepOfMore(s, m, ok).Some?
    ensures var s' := StepOfMore(s, m, ok).value;
            m < |s'.mores| && (s'.mores[m].phase.Received? ==>
              s.mores[m].phase == Requested && s'.mores[m].phase.page == PageOf(s.server, Some(s.mores[m].cursor)))
  {
    MoreLoopsEpochs(s, m);
    hide MoreLoops, MoreAsks, MoreEnds, PageOf, Reconcile, PutAll, IdSet, Discovered, IsCurrent;
    ReconcileFrame(s, Recovery, s.mores[m].ctx);
  }

  lemma AnswersStayTrue(s: State, s': State)
    requires AnswersTrue(s) && s.server.read <= s'.server.read && s'.loops == s.loops && s'.mores == s.mores
    ensures AnswersTrue(s')
  {
  }

  // ----- What does not touch rows or mutations --------------------------------------------------

  // The rows and the mutations stay, and so does all that is clean.
  lemma SameRowsFresh(s: State, s': State)
    requires FreshInv(s) && AnswersTrue(s') && SessionOf(s'.store) == SessionOf(s.store)
    requires s'.store.items == s.store.items && s'.mutations == s.mutations
    requires forall id :: Clean(s, id) ==> Clean(s', id)
    ensures FreshInv(s')
  {
    hide Clean, AnswersTrue, WouldUndo, WouldKeep;
    forall i | InSession(s'.store) && 0 <= i < |s'.store.items| && s'.store.items[i].read
      ensures Clean(s', s'.store.items[i].id) || Unconfirmed(s', s'.store.items[i].id)
    {
      assert Clean(s, s.store.items[i].id) || Unconfirmed(s, s.store.items[i].id);
    }
  }

  lemma ReconcileKeepsFresh(s: State, reason: Reason, ctx: Context)
    requires EpochsInv(s) && FreshInv(s)
    ensures FreshInv(Reconcile(s, reason, ctx))
  {
    var s' := Reconcile(s, reason, ctx);
    ReconcileFrame(s, reason, ctx);
    forall id | Clean(s, id)
      ensures Clean(s', id)
    {
      ReconcileKeepsClean(s, reason, ctx, id);
    }
    NoRowsTrue(s.server.read);
    assert AnswersTrue(s') by { hide RowsBacked, PreviousBacked, TrueRows; }
    hide FreshInv, Clean, Reconcile, AnswersTrue, EpochsInv;
    SameRowsFresh(s, s');
  }

  // ----- Rows that a refresh or a page brings -----------------------------------------------------

  // A refresh that is applied: what it shows read is read on the server, and a page that
  // could still be applied holds none of its ids, because it lies below them.
  lemma RefreshedKeepsFresh(s: State, l: nat, page: Page)
    requires AllInv(s) && l < |s.loops| && s.loops[l].phase == Answered(page) && IsCurrent(s.store, s.loops[l].ctx)
    requires s.loops[l].epoch == s.store.mutationEpoch
    ensures var loop := s.loops[l];
            FreshInv(Refreshed(s, l, PutAll(loop.rows, page.items), page, loop.pages + 1))
  {
    var loop := s.loops[l];
    var rows := PutAll(loop.rows, page.items);
    var s' := Refreshed(s, l, rows, page, loop.pages + 1);
    RefreshedRowsClean(s, l, page);
    CleanAfterRefresh(s, l, page);
    assert AnswersTrue(s') by { hide BaseInv, ReadsInv, OrderInv, RowsBacked, PreviousBacked, Clean, TrueRows, PutAll; }
    hide BaseInv, ReadsInv, OrderInv, AnswersTrue, Clean, PutAll, IdSet, AddPending, Discovered;
    hide WouldUndo, WouldKeep;
    PreviousStaysBacked(s, s');
    hide PreviousBacked;
  }

  lemma PreviousStaysBacked(s: State, s': State)
    requires PreviousBacked(s) && s'.mutations == s.mutations && SessionOf(s'.store) == SessionOf(s.store)
    requires forall id :: Clean(s, id) ==> Clean(s', id)
    ensures PreviousBacked(s')
  {
    hide Clean, WouldKeep;
  }

  lemma CleanAfterRefresh(s: State, l: nat, page: Page)
    requires l < |s.loops| && s.loops[l].phase == Answered(page)
    ensures var s' := Refreshed(s, l, PutAll(s.loops[l].rows, page.items), page, s.loops[l].pages + 1);
            forall id :: Clean(s, id) ==> Clean(s', id)
  {
    hide ShowsUnread, PutAll, IdSet, AddPending, Discovered;
  }

  lemma RefreshedRowsClean(s: State, l: nat, page: Page)
    requires AllInv(s) && l < |s.loops| && s.loops[l].phase == Answered(page) && IsCurrent(s.store, s.loops[l].ctx)
    requires s.loops[l].epoch == s.store.mutationEpoch
    ensures var rows := PutAll(s.loops[l].rows, page.items);
            var s' := Refreshed(s, l, rows, page, s.loops[l].pages + 1);
            forall i :: 0 <= i < |rows| && rows[i].read ==> Clean(s', rows[i].id)
  {
    var loop := s.loops[l];
    var rows := PutAll(loop.rows, page.items);
    var s' := Refreshed(s, l, rows, page, loop.pages + 1);
    assert LoopTrue(loop, s.server.read) by { hide BaseInv, ReadsInv, OrderInv, RowsBacked, PreviousBacked; }
    PutAllTrue(loop.rows, page.items, s.server.read);
    OnlyLoopFetches(s, l);
    forall i | 0 <= i < |rows| && rows[i].read
      ensures Clean(s', rows[i].id)
    {
      assert rows[i] in rows;
      NoPageHolds(s, l, page, rows[i]);
      hide AllInv, PutAll, ShowsUnread, IdSet, AddPending, Discovered, Refreshed;
      CleanIfOthersAre(s, l, s', rows[i].id);
    }
  }

  // No other loop of the session fetches.
  lemma OnlyLoopFetches(s: State, l: nat)
    requires BaseInv(s) && l < |s.loops| && Current(SessionOf(s.store), s.loops[l].ctx) && s.loops[l].phase != Gone
    ensures forall k :: 0 <= k < |s.loops| && k != l && Current(SessionOf(s.store), s.loops[k].ctx) ==> !Fetching(s.loops[k])
  {
    hide MoresInv, QueueInv;
  }

  lemma CleanIfOthersAre(s: State, l: nat, s': State, id: Id)
    requires l < |s.loops| && |s'.loops| == |s.loops| && s'.loops == s.loops[l := s'.loops[l]] && !Fetching(s'.loops[l])
    requires forall k :: 0 <= k < |s.loops| && k != l && Current(SessionOf(s.store), s.loops[k].ctx) ==> !Fetching(s.loops[k])
    requires s'.mores == s.mores && SessionOf(s'.store) == SessionOf(s.store) && id in s'.server.read
    requires s'.store.readEpoch == s.store.readEpoch && s'.store.mutationEpoch == s.store.mutationEpoch
    requires MoresClean(SessionOf(s.store), s.mores, s.store.readEpoch, s.store.mutationEpoch, id)
    ensures Clean(s', id)
  {
    hide MoresClean, ShowsUnread;
  }

  // What a refresh collects lies at or above the store's cursor, a timely page below.
  lemma NoPageHolds(s: State, l: nat, page: Page, row: Item)
    requires AllInv(s) && l < |s.loops| && s.loops[l].phase == Answered(page) && IsCurrent(s.store, s.loops[l].ctx)
    requires row in PutAll(s.loops[l].rows, page.items)
    ensures MoresClean(SessionOf(s.store), s.mores, s.store.readEpoch, s.store.mutationEpoch, row.id)
  {
    var se, st, h := SessionOf(s.store), s.store, s.server.history;
    var loop := s.loops[l];
    assert LoopDeep(loop, st.nextCursor, st.loadedPages, h) by { hide BaseInv, ReadsInv, FreshInv; }
    RowsCollected(loop, page, st.nextCursor, st.loadedPages, h);
    forall m | 0 <= m < |s.mores| && Current(se, s.mores[m].ctx)
      ensures MoreClean(s.mores[m], st.readEpoch, st.mutationEpoch, row.id)
    {
      var more := s.mores[m];
      if more.phase.Received? && more.readEpoch == st.readEpoch {
        assert Timely(se, more, st.readEpoch);
        assert st.nextCursor == Some(more.cursor) && MoreDeep(more, st.loadedPages, h) by {
          hide BaseInv, ReadsInv, FreshInv, LoopDeep;
        }
        hide AllInv, LoopDeep, PutAll;
        AboveNotBelow(PutAll(loop.rows, page.items), row, more, h);
      }
    }
  }

  lemma AboveNotBelow(rows: seq<Item>, row: Item, more: More, h: seq<Id>)
    requires row in rows && UpTo(rows, h, Position(h, more.cursor))
    requires more.phase.Received? && Below(more.phase.page.items, h, Position(h, more.cursor))
    ensures !ShowsUnread(more.phase.page.items, row.id)
  {
    hide Position;
  }

  // A page that is applied: what it shows read is read on the server, and a refresh under
  // way holds none of its ids, because it stays above them.
  lemma MoreAppliedKeepsFresh(s: State, m: nat, page: Page)
    requires AllInv(s) && m < |s.mores| && s.mores[m].phase == Received(page) && IsCurrent(s.store, s.mores[m].ctx)
    requires s.mores[m].readEpoch == s.store.readEpoch && s.mores[m].mutationEpoch == s.store.mutationEpoch
    ensures FreshInv(WithMore(s, m, s.mores[m].(phase := Finished)).(
                       store := MoreApplied(s.store, page), origins := Discovered(s.origins, page.items, ByMore)))
  {
    var more := s.mores[m];
    var s' := WithMore(s, m, more.(phase := Finished)).(
      store := MoreApplied(s.store, page), origins := Discovered(s.origins, page.items, ByMore));
    MoreRowsClean(s, m, page, s');
    CleanAfterMore(s, m, page, s');
    assert AnswersTrue(s') by { hide BaseInv, ReadsInv, OrderInv, RowsBacked, PreviousBacked, Clean, TrueRows, PutAll; }
    OldOrNew(s, page);
    hide BaseInv, ReadsInv, OrderInv, AnswersTrue, Clean, PutAll, IdSet, Discovered, WouldUndo, WouldKeep;
    assert PreviousBacked(s') by { hide RowsBacked; }
    forall i | InSession(s'.store) && 0 <= i < |s'.store.items| && s'.store.items[i].read
      ensures Clean(s', s'.store.items[i].id) || Unconfirmed(s', s'.store.items[i].id)
    {
      hide PreviousBacked;
      var row := s'.store.items[i];
      assert row in s'.store.items;
      if row !in page.items {
        var j :| 0 <= j < |s.store.items| && s.store.items[j] == row;
        assert Clean(s, row.id) || Unconfirmed(s, row.id);
      }
    }
    hide PreviousBacked, Unconfirmed;
  }

  lemma OldOrNew(s: State, page: Page)
    requires OrderInv(s) && Distinct(Ids(page.items))
    ensures forall x :: x in PutAll(s.store.items, page.items) ==> x in page.items || x in s.store.items
  {
    PutAllIs(s.store.items, page.items);
    hide PutAll;
  }

  lemma CleanAfterMore(s: State, m: nat, page: Page, s': State)
    requires m < |s.mores|
    requires s' == WithMore(s, m, s.mores[m].(phase := Finished)).(
                     store := MoreApplied(s.store, page), origins := Discovered(s.origins, page.items, ByMore))
    ensures forall id :: Clean(s, id) ==> Clean(s', id)
  {
    hide ShowsUnread, PutAll, IdSet, Discovered;
  }

  lemma MoreRowsClean(s: State, m: nat, page: Page, s': State)
    requires AllInv(s) && m < |s.mores| && s.mores[m].phase == Received(page) && IsCurrent(s.store, s.mores[m].ctx)
    requires s.mores[m].readEpoch == s.store.readEpoch && s.mores[m].mutationEpoch == s.store.mutationEpoch
    requires s' == WithMore(s, m, s.mores[m].(phase := Finished)).(
                     store := MoreApplied(s.store, page), origins := Discovered(s.origins, page.items, ByMore))
    ensures Distinct(Ids(page.items))
    ensures forall row :: row in page.items && row.read ==> Clean(s', row.id)
  {
    var se, st, h := SessionOf(s.store), s.store, s.server.history;
    var more := s.mores[m];
    assert Timely(se, more, st.readEpoch) && MoreDeep(more, st.loadedPages, h) by { hide BaseInv, ReadsInv, FreshInv; }
    assert MoreTrue(more, s.server.read) by { hide BaseInv, ReadsInv, OrderInv, RowsBacked, PreviousBacked; }
    forall n | 0 <= n < |s.mores| && n != m
      ensures !Timely(se, s.mores[n], st.readEpoch)
    {
      hide ReadsInv, OrderInv, FreshInv;
      NobodyElse(s, m, n);
    }
    forall row | row in page.items && row.read
      ensures Clean(s', row.id)
    {
      forall l | 0 <= l < |s.loops| && Current(se, s.loops[l].ctx)
        ensures LoopClean(s.loops[l], st.mutationEpoch, row.id)
      {
        var loop := s.loops[l];
        if Fetching(loop) {
          assert st.nextCursor == Some(more.cursor) && LoopDeep(loop, st.nextCursor, st.loadedPages, h) by {
            hide BaseInv, ReadsInv, FreshInv, MoreDeep;
          }
          BelowNotAbove(loop, row, page, more.cursor, st.loadedPages, h);
        }
        hide AllInv;
      }
      hide AllInv, PutAll, IdSet, Discovered, ShowsUnread, LoopClean, MoreDeep;
    }
  }

  lemma BelowNotAbove(loop: Loop, row: Item, page: Page, cursor: Id, loadedPages: nat, h: seq<Id>)
    requires Fetching(loop) && LoopDeep(loop, Some(cursor), loadedPages, h)
    requires row in page.items && Below(page.items, h, Position(h, cursor))
    ensures !ShowsUnread(loop.rows, row.id)
    ensures loop.phase.Answered? ==> !ShowsUnread(loop.phase.page.items, row.id)
  {
    hide Position, Distinct;
    assert At(h, loop.cursor) <= Position(h, cursor);
  }

  // ----- Steps -------------------------------------------------------------------------------------

  lemma AllEpochs(s: State)
    requires AllInv(s)
    ensures EpochsInv(s)
  {
    hide BaseInv, FreshInv;
    EpochsHold(s);
  }

  lemma LoopKeepsFresh(s: State, l: nat, ok: bool)
    requires AllInv(s) && l < |s.loops| && StepOfLoop(s, l, ok).Some?
    ensures FreshInv(StepOfLoop(s, l, ok).value)
  {
    AllEpochs(s);
    var loop := s.loops[l];
    var s' := StepOfLoop(s, l, ok).value;
    LoopKeepsTrue(s, l, ok);
    LoopFrame(s, l, ok);
    if ok && loop.phase.Answered? && s'.loops[l].phase.LoadingAccounts? {
      ApplyingStep(s, l);
      RefreshedKeepsFresh(s, l, loop.phase.page);
      hide FreshInv, BaseInv, ReadsInv, OrderInv, PutAll, Refreshed, PageArrives;
    } else {
      LoopKeepsRows(s, l, ok);
      hide BaseInv, ReadsInv, OrderInv, FreshInv, Clean, StepOfLoop, EpochsInv, AnswersTrue;
      forall id | Clean(s, id)
        ensures Clean(s', id)
      {
        LoopKeepsClean(s, l, ok, id);
      }
      SameRowsFresh(s, s');
    }
  }

  lemma ApplyingStep(s: State, l: nat)
    requires l < |s.loops| && s.loops[l].phase.Answered? && StepOfLoop(s, l, true).value.loops[l].phase.LoadingAccounts?
    ensures var loop := s.loops[l];
            var page := loop.phase.page;
            && IsCurrent(s.store, loop.ctx) && loop.epoch == s.store.mutationEpoch
            && StepOfLoop(s, l, true) == Some(Refreshed(s, l, PutAll(loop.rows, page.items), page, loop.pages + 1))
  {
    hide PutAll, IdSet, AddPending, Discovered;
  }

  lemma LoopKeepsRows(s: State, l: nat, ok: bool)
    requires l < |s.loops| && StepOfLoop(s, l, ok).Some?
    requires !(ok && s.loops[l].phase.Answered? && StepOfLoop(s, l, ok).value.loops[l].phase.LoadingAccounts?)
    ensures StepOfLoop(s, l, ok).value.store.items == s.store.items
  {
    hide PutAll, IdSet, AddPending, Discovered, PageOf, Toasts, IsCurrent;
  }

  lemma MoreKeepsFresh(s: State, m: nat, ok: bool)
    requires AllInv(s) && m < |s.mores| && StepOfMore(s, m, ok).Some?
    ensures FreshInv(StepOfMore(s, m, ok).value)
  {
    AllEpochs(s);
    var more := s.mores[m];
    var s' := StepOfMore(s, m, ok).value;
    MoreKeepsTrue(s, m, ok);
    MoreFrame(s, m, ok);
    if ok && more.phase.Received? && IsCurrent(s.store, more.ctx) && more.readEpoch == s.store.readEpoch
       && more.mutationEpoch == s.store.mutationEpoch {
      MoreAppliedKeepsFresh(s, m, more.phase.page);
      hide FreshInv, BaseInv, ReadsInv, OrderInv, PutAll, IdSet, Discovered;
    } else {
      MoreKeepsRows(s, m, ok);
      hide BaseInv, ReadsInv, OrderInv, FreshInv, Clean, StepOfMore, EpochsInv, AnswersTrue;
      forall id | Clean(s, id)
        ensures Clean(s', id)
      {
        MoreKeepsClean(s, m, ok, id);
      }
      SameRowsFresh(s, s');
    }
  }

  lemma MoreKeepsRows(s: State, m: nat, ok: bool)
    requires m < |s.mores| && StepOfMore(s, m, ok).Some?
    requires !(ok && s.mores[m].phase.Received? && IsCurrent(s.store, s.mores[m].ctx) &&
               s.mores[m].readEpoch == s.store.readEpoch && s.mores[m].mutationEpoch == s.store.mutationEpoch)
    ensures StepOfMore(s, m, ok).value.store.items == s.store.items
  {
    MoreLoopsFrame(s, m);
    ReconcileFrame(s, Recovery, s.mores[m].ctx);
    hide MoreLoops, MoreAsks, MoreEnds, PageOf, Reconcile, PutAll, IdSet, Discovered, IsCurrent;
  }

  // ----- Mutations ---------------------------------------------------------------------------------------

  lemma UnderWayIsFirst(s: State, k: nat, j: nat)
    requires BaseInv(s) && k < |s.mutations| && j < |s.mutations| && j != k
    requires Current(SessionOf(s.store), s.mutations[k].ctx) && !s.mutations[k].phase.Settled?
    requires s.mutations[k].phase == Waiting ==> !(k in s.store.mutations && s.store.mutations[0] != k)
    ensures !(Current(SessionOf(s.store), s.mutations[j].ctx) && InFlight(s.mutations[j]))
  {
    hide LoopsInv, MoresInv;
  }

  // Nothing is unconfirmed when a mutation begins, and then what it marks is.
  lemma MutationBeginsKeepsFresh(s: State, k: nat)
    requires AllInv(s) && k < |s.mutations| && s.mutations[k].phase == Waiting && StepOfMutation(s, k, true).Some?
    requires IsCurrent(s.store, s.mutations[k].ctx) && MutationBegins(s, k).mutations[k].phase == Sent
    ensures FreshInv(MutationBegins(s, k))
  {
    var se := SessionOf(s.store);
    var mutation := s.mutations[k];
    var ids := Targets(mutation.target);
    var s' := MutationBegins(s, k);
    forall j | 0 <= j < |s.mutations| && j != k
      ensures !(Current(se, s.mutations[j].ctx) && InFlight(s.mutations[j]))
    {
      hide ReadsInv, OrderInv, FreshInv;
      UnderWayIsFirst(s, k, j);
    }
    ReadingsAre(s.store.items, ids);
    assert Distinct(Ids(s.store.items)) by { hide BaseInv, ReadsInv, FreshInv, LoopsDeep, MoresDeep, SameCursor, Distinct; }
    hide BaseInv, ReadsInv, OrderInv, Distinct;
    BeginSame(s, k);
    assert forall id :: !Unconfirmed(s, id);
    forall id | Clean(s, id)
      ensures Clean(s', id)
    {
      hide FreshInv, MutationBegins;
      SameAnswersClean(s, s', id);
    }
    assert AnswersTrue(s') by { hide RowsBacked, PreviousBacked, Clean, MutationBegins; AnswersStayTrue(s, s'); }
    hide Clean, AnswersTrue;
    BegunRows(s, k);
  }

  lemma BeginSame(s: State, k: nat)
    requires k < |s.mutations|
    ensures var s' := MutationBegins(s, k);
            && s'.loops == s.loops && s'.mores == s.mores && s'.server == s.server && SessionOf(s'.store) == SessionOf(s.store)
            && s'.store.mutationEpoch == s.store.mutationEpoch && s'.store.readEpoch == s.store.readEpoch
  {
    hide ShowsUnread, Readings, MarkIds;
  }

  lemma BegunRows(s: State, k: nat)
    requires k < |s.mutations| && IsCurrent(s.store, s.mutations[k].ctx) && MutationBegins(s, k).mutations[k].phase == Sent
    requires FreshInv(s) && s.mutations[k].phase == Waiting
    requires forall id :: !Unconfirmed(s, id)
    requires var ids := Targets(s.mutations[k].target);
             && (forall id :: id in Readings(s.store.items, ids) ==> id in ids)
             && (forall i :: 0 <= i < |s.store.items| && s.store.items[i].id in ids ==>
                   s.store.items[i].id in Readings(s.store.items, ids))
             && (forall id :: id in Readings(s.store.items, ids) ==>
                   exists i :: 0 <= i < |s.store.items| && s.store.items[i] == Item(id, Readings(s.store.items, ids)[id]))
    requires forall j :: 0 <= j < |s.mutations| && j != k ==>
               !(Current(SessionOf(s.store), s.mutations[j].ctx) && InFlight(s.mutations[j]))
    requires forall id :: Clean(s, id) ==> Clean(MutationBegins(s, k), id)
    requires AnswersTrue(MutationBegins(s, k))
    ensures FreshInv(MutationBegins(s, k))
  {
    hide Clean, AnswersTrue, ShowsUnread, Readings;
    var s' := MutationBegins(s, k);
    var se := SessionOf(s.store);
    var previous := s'.mutations[k].previous;
    assert InSession(s.store);
    assert RowsBacked(s') by {
      forall i | 0 <= i < |s'.store.items| && s'.store.items[i].read
        ensures Clean(s', s'.store.items[i].id) || Unconfirmed(s', s'.store.items[i].id)
      {
        var id := s.store.items[i].id;
        assert s'.store.items[i].id == id;
        if s.store.items[i].read {
          assert Clean(s, id);
        } else {
          assert id in previous;
          if previous[id] {
            var j :| 0 <= j < |s.store.items| && s.store.items[j] == Item(id, true);
            assert Clean(s, s.store.items[j].id);
          } else {
            assert WouldUndo(se, s'.mutations[k], id);
          }
        }
      }
    }
    assert PreviousBacked(s') by {
      forall j, id | 0 <= j < |s'.mutations| && WouldKeep(se, s'.mutations[j], id)
        ensures Clean(s', id)
      {
        assert j == k;
        var i :| 0 <= i < |s.store.items| && s.store.items[i] == Item(id, true);
        assert Clean(s, s.store.items[i].id);
      }
    }
  }

  // What is remembered of rows with distinct ids is what they were.
  lemma {:induction false} ReadingsAre(items: seq<Item>, ids: set<Id>)
    ensures forall id :: id in Readings(items, ids) ==>
              id in ids && exists i :: 0 <= i < |items| && items[i] == Item(id, Readings(items, ids)[id])
    ensures forall i :: 0 <= i < |items| && items[i].id in ids ==> items[i].id in Readings(items, ids)
  {
    if |items| > 0 {
      var n := |items| - 1;
      ReadingsAre(items[..n], ids);
      forall id | id in Readings(items, ids)
        ensures exists i :: 0 <= i < |items| && items[i] == Item(id, Readings(items, ids)[id])
      {
        if items[n].id == id && id in ids {
          assert items[n] == Item(id, Readings(items, ids)[id]);
        } else {
          var i :| 0 <= i < n && items[..n][i] == Item(id, Readings(items[..n], ids)[id]);
          assert items[i] == Item(id, Readings(items, ids)[id]);
        }
      }
      forall i | 0 <= i < |items| && items[i].id in ids
        ensures items[i].id in Readings(items, ids)
      {
        if i < n { assert items[..n][i] == items[i]; }
      }
    }
  }

  // What a step of a mutation leaves alone.
  ghost predicate MutationFramed(s: State, s': State, k: nat)
    requires k < |s.mutations|
  {
    && s'.mores == s.mores && SessionOf(s'.store) == SessionOf(s.store) && s.server.read <= s'.server.read
    && |s'.mutations| == |s.mutations| && s'.mutations == s.mutations[k := s'.mutations[k]]
    && s'.mutations[k].ctx == s.mutations[k].ctx && s'.mutations[k].target == s.mutations[k].target
    && (s'.loops == s.loops || exists loop :: s'.loops == s.loops + [loop] && loop.rows == [] && loop.phase == Asking)
  }

  lemma SuccessShape(s: State, k: nat, unread: nat)
    requires k < |s.mutations|
    ensures var s', mutation := MutationSucceeds(s, k, unread), s.mutations[k];
            && MutationFramed(s, s', k) && s'.server == s.server
            && s'.mutations[k].phase == Settled(true) && s'.mutations[k].previous == mutation.previous
            && s'.store.items == (if IsCurrent(s.store, mutation.ctx) then MarkIds(s.store.items, Targets(mutation.target))
                                  else s.store.items)
  {
    hide MarkIds;
  }

  lemma FailureShape(s: State, k: nat)
    requires k < |s.mutations|
    ensures var s', mutation := MutationFails(s, k), s.mutations[k];
            && MutationFramed(s, s', k) && s'.server == s.server
            && !UnderWay(s'.mutations[k]) && s'.mutations[k].previous == mutation.previous
            && s'.store.items == (if IsCurrent(s.store, mutation.ctx) then Restore(s.store.items, mutation.previous)
                                  else s.store.items)
  {
    hide Restore;
  }

  lemma BeginShape(s: State, k: nat)
    requires k < |s.mutations|
    ensures var s', mutation := MutationBegins(s, k), s.mutations[k];
            && MutationFramed(s, s', k)
            && (s'.mutations[k].phase != Sent ==>
                  s'.store.items == s.store.items && !UnderWay(s'.mutations[k])
                  && s'.mutations[k].previous == mutation.previous)
  {
    hide Readings, ShowsUnread, MarkIds;
  }

  // The parts of a mutation's step that matter here.
  lemma MutationShape(s: State, k: nat, ok: bool)
    requires k < |s.mutations| && StepOfMutation(s, k, ok).Some?
    ensures MutationFramed(s, StepOfMutation(s, k, ok).value, k)
    ensures var s', mutation := StepOfMutation(s, k, ok).value, s.mutations[k];
            && (mutation.phase == Sent && ok ==>
                  && s'.store.items == s.store.items && s'.mutations[k].previous == mutation.previous
                  && s'.mutations[k].phase.Processed?)
            && (mutation.phase.Recovering? ==>
                  s'.store.items == s.store.items && !UnderWay(s'.mutations[k])
                  && s'.mutations[k].previous == mutation.previous)
  {
    hide MutationBegins, MutationSucceeds, MutationFails, Unread;
    BeginShape(s, k);
    FailureShape(s, k);
    if s.mutations[k].phase.Processed? { SuccessShape(s, k, s.mutations[k].phase.unread); }
  }

  lemma MutationKeepsTrue(s: State, k: nat, ok: bool)
    requires AnswersTrue(s) && k < |s.mutations| && StepOfMutation(s, k, ok).Some?
    ensures AnswersTrue(StepOfMutation(s, k, ok).value)
  {
    MutationShape(s, k, ok);
    NoRowsTrue(s.server.read);
    hide StepOfMutation, TrueRows, MarkIds, Restore;
    var s' := StepOfMutation(s, k, ok).value;
    assert forall rows :: TrueRows(rows, s.server.read) ==> TrueRows(rows, s'.server.read) by { TrueRowsGrow(s, s'); }
    NoRowsTrue(s'.server.read);
  }

  lemma TrueRowsGrow(s: State, s': State)
    requires s.server.read <= s'.server.read
    ensures forall rows :: TrueRows(rows, s.server.read) ==> TrueRows(rows, s'.server.read)
  {
  }

  // After a success every id that is read on the server is clean.
  lemma SuccessCleans(s: State, k: nat, unread: nat, id: Id)
    requires EpochsInv(s) && k < |s.mutations| && IsCurrent(s.store, s.mutations[k].ctx) && id in s.server.read
    ensures Clean(MutationSucceeds(s, k, unread), id)
  {
    hide Clean, EpochsInv, Reconcile, MarkIds;
    var mutation := s.mutations[k];
    var marked := Marked(s, k, unread);
    EpochBumpClean(s, marked, id);
    EpochsStay(s, marked);
    ReconcileFrame(marked, Recovery, mutation.ctx);
    ReconcileKeepsClean(marked, Recovery, mutation.ctx, id);
    var after := Reconcile(marked, Recovery, mutation.ctx);
    SameAnswersClean(marked, Settle(marked, k, true), id);
    SameAnswersClean(after, Settle(after, k, true), id);
  }

  lemma OthersNotUnderWay(s: State, k: nat)
    requires BaseInv(s) && k < |s.mutations| && Current(SessionOf(s.store), s.mutations[k].ctx) && InFlight(s.mutations[k])
    ensures forall j, id :: 0 <= j < |s.mutations| && j != k ==> !WouldUndo(SessionOf(s.store), s.mutations[j], id)
    ensures forall j, id :: 0 <= j < |s.mutations| && j != k ==> !WouldKeep(SessionOf(s.store), s.mutations[j], id)
  {
    forall j | 0 <= j < |s.mutations| && j != k
      ensures !(Current(SessionOf(s.store), s.mutations[j].ctx) && InFlight(s.mutations[j]))
    {
      hide BaseInv;
      UnderWayIsFirst(s, k, j);
    }
    hide BaseInv;
  }

  lemma MutationSucceedsKeepsFresh(s: State, k: nat)
    requires AllInv(s) && k < |s.mutations| && s.mutations[k].phase.Processed? && IsCurrent(s.store, s.mutations[k].ctx)
    ensures FreshInv(StepOfMutation(s, k, true).value)
  {
    var mutation := s.mutations[k];
    var ids := Targets(mutation.target);
    var s' := StepOfMutation(s, k, true).value;
    AllEpochs(s);
    ReadsOfMutation(s, k);
    OthersNotUnderWay(s, k);
    SuccessShape(s, k, mutation.phase.unread);
    MutationKeepsTrue(s, k, true);
    forall id | id in s.server.read
      ensures Clean(s', id)
    {
      hide AllInv, EpochsInv, Clean, MutationSucceeds;
      SuccessCleans(s, k, mutation.phase.unread, id);
    }
    hide BaseInv, ReadsInv, OrderInv, EpochsInv, StepOfMutation, AnswersTrue;
    AfterSuccess(s, s', k);
  }

  lemma AfterSuccess(s: State, s': State, k: nat)
    requires FreshInv(s) && AnswersTrue(s') && k < |s.mutations| && s.mutations[k].phase.Processed?
    requires IsCurrent(s.store, s.mutations[k].ctx) && SessionOf(s'.store) == SessionOf(s.store)
    requires |s'.mutations| == |s.mutations| && s'.mutations == s.mutations[k := s'.mutations[k]]
    requires s'.mutations[k].phase == Settled(true) && s'.mutations[k].target == s.mutations[k].target
    requires s'.mutations[k].previous == s.mutations[k].previous
    requires forall j, id :: 0 <= j < |s.mutations| && j != k ==> !WouldUndo(SessionOf(s.store), s.mutations[j], id)
    requires forall j, id :: 0 <= j < |s.mutations| && j != k ==> !WouldKeep(SessionOf(s.store), s.mutations[j], id)
    requires s'.store.items == MarkIds(s.store.items, Targets(s.mutations[k].target))
    requires Targets(s.mutations[k].target) <= s.server.read && forall id :: id in s.server.read ==> Clean(s', id)
    ensures FreshInv(s')
  {
    ReadWhenClean(s);
    hide Clean, AnswersTrue;
    var ids := Targets(s.mutations[k].target);
    assert s.mutations[k].previous.Keys <= ids;
    forall i | 0 <= i < |s'.store.items| && s'.store.items[i].read
      ensures Clean(s', s'.store.items[i].id)
    {
      var id := s.store.items[i].id;
      assert s'.store.items[i].id == id;
      if id !in ids {
        assert s.store.items[i].read && InSession(s.store);
        assert !Unconfirmed(s, id);
        assert Clean(s, id);
      }
    }
    forall j, id | 0 <= j < |s'.mutations|
      ensures !WouldKeep(SessionOf(s'.store), s'.mutations[j], id)
    {
      assert j != k ==> !WouldKeep(SessionOf(s.store), s.mutations[j], id);
    }
    hide Unconfirmed, WouldKeep, WouldUndo;
  }

  lemma ReadWhenClean(s: State)
    ensures forall id :: Clean(s, id) ==> id in s.server.read
  {
  }

  lemma MutationFailsKeepsFresh(s: State, k: nat)
    requires AllInv(s) && k < |s.mutations| && UnderWay(s.mutations[k]) && IsCurrent(s.store, s.mutations[k].ctx)
    ensures FreshInv(StepOfMutation(s, k, false).value)
  {
    var mutation := s.mutations[k];
    var s' := StepOfMutation(s, k, false).value;
    AllEpochs(s);
    OthersNotUnderWay(s, k);
    FailureShape(s, k);
    MutationKeepsTrue(s, k, false);
    hide BaseInv, ReadsInv, OrderInv, StepOfMutation, AnswersTrue;
    forall id | Clean(s, id)
      ensures Clean(s', id)
    {
      hide FreshInv, EpochsInv, Clean;
      MutationKeepsClean(s, k, false, id);
    }
    hide EpochsInv;
    AfterFailure(s, s', k);
  }

  lemma AfterFailure(s: State, s': State, k: nat)
    requires FreshInv(s) && AnswersTrue(s') && k < |s.mutations| && UnderWay(s.mutations[k])
    requires IsCurrent(s.store, s.mutations[k].ctx) && SessionOf(s'.store) == SessionOf(s.store)
    requires |s'.mutations| == |s.mutations| && s'.mutations == s.mutations[k := s'.mutations[k]]
    requires !UnderWay(s'.mutations[k]) && s'.mutations[k].target == s.mutations[k].target
    requires s'.mutations[k].previous == s.mutations[k].previous
    requires forall j, id :: 0 <= j < |s.mutations| && j != k ==> !WouldUndo(SessionOf(s.store), s.mutations[j], id)
    requires forall j, id :: 0 <= j < |s.mutations| && j != k ==> !WouldKeep(SessionOf(s.store), s.mutations[j], id)
    requires s'.store.items == Restore(s.store.items, s.mutations[k].previous)
    requires forall id :: Clean(s, id) ==> Clean(s', id)
    ensures FreshInv(s')
  {
    hide Clean, AnswersTrue;
    var previous := s.mutations[k].previous;
    forall i | 0 <= i < |s'.store.items| && s'.store.items[i].read
      ensures Clean(s', s'.store.items[i].id)
    {
      var id := s.store.items[i].id;
      assert s'.store.items[i].id == id;
      if id in previous {
        assert WouldKeep(SessionOf(s.store), s.mutations[k], id);
      } else {
        assert !WouldUndo(SessionOf(s.store), s.mutations[k], id);
        assert s.store.items[i].read && InSession(s.store);
        assert Clean(s, id);
      }
    }
    forall j, id | 0 <= j < |s'.mutations|
      ensures !WouldKeep(SessionOf(s'.store), s'.mutations[j], id)
    {
      assert j != k ==> !WouldKeep(SessionOf(s.store), s.mutations[j], id);
    }
    hide Unconfirmed, WouldKeep, WouldUndo;
  }

  lemma CleanAcross(s: State, k: nat, ok: bool)
    requires EpochsInv(s) && k < |s.mutations| && StepOfMutation(s, k, ok).Some?
    ensures forall id :: Clean(s, id) ==> Clean(StepOfMutation(s, k, ok).value, id)
  {
    hide EpochsInv, Clean, StepOfMutation;
    forall id | Clean(s, id)
      ensures Clean(StepOfMutation(s, k, ok).value, id)
    {
      MutationKeepsClean(s, k, ok, id);
    }
  }

  // The same hopes and fears for every id.
  ghost predicate SameOutlook(se: Session, a: Mutation, b: Mutation) {
    forall id :: (WouldUndo(se, a, id) <==> WouldUndo(se, b, id)) && (WouldKeep(se, a, id) <==> WouldKeep(se, b, id))
  }

  // A step of a mutation that leaves the rows and its own outlook alone.
  lemma QuietStepKeepsFresh(s: State, s': State, k: nat)
    requires FreshInv(s) && AnswersTrue(s') && k < |s.mutations| && MutationFramed(s, s', k)
    requires forall id :: Clean(s, id) ==> Clean(s', id)
    requires s'.store.items == s.store.items && s'.mutations[k].previous == s.mutations[k].previous
    requires SameOutlook(SessionOf(s.store), s'.mutations[k], s.mutations[k])
    ensures FreshInv(s')
  {
    hide Clean, WouldUndo, WouldKeep, AnswersTrue;
    SameUnconfirmed(s, s', k);
    forall j, id | 0 <= j < |s'.mutations| && WouldKeep(SessionOf(s'.store), s'.mutations[j], id)
      ensures Clean(s', id)
    {
      assert WouldKeep(SessionOf(s.store), s.mutations[j], id);
    }
    hide Unconfirmed;
  }

  lemma QuietMutationKeepsFresh(s: State, k: nat, ok: bool)
    requires AllInv(s) && k < |s.mutations| && StepOfMutation(s, k, ok).Some?
    requires var s' := StepOfMutation(s, k, ok).value;
             && MutationFramed(s, s', k)
             && s'.store.items == s.store.items && s'.mutations[k].previous == s.mutations[k].previous
             && SameOutlook(SessionOf(s.store), s'.mutations[k], s.mutations[k])
    ensures FreshInv(StepOfMutation(s, k, ok).value)
  {
    AllEpochs(s);
    CleanAcross(s, k, ok);
    MutationKeepsTrue(s, k, ok);
    hide BaseInv, ReadsInv, OrderInv, StepOfMutation, EpochsInv, Clean, AnswersTrue, MutationFramed, SameOutlook;
    QuietStepKeepsFresh(s, StepOfMutation(s, k, ok).value, k);
  }

  lemma SameUnconfirmed(s: State, s': State, k: nat)
    requires k < |s.mutations| == |s'.mutations| && s'.mutations == s.mutations[k := s'.mutations[k]]
    requires SessionOf(s'.store) == SessionOf(s.store)
    requires forall id :: WouldUndo(SessionOf(s.store), s'.mutations[k], id) <==>
                          WouldUndo(SessionOf(s.store), s.mutations[k], id)
    ensures forall id :: Unconfirmed(s', id) <==> Unconfirmed(s, id)
  {
    hide WouldUndo;
    forall id
      ensures Unconfirmed(s', id) <==> Unconfirmed(s, id)
    {
      if j :| 0 <= j < |s.mutations| && WouldUndo(SessionOf(s.store), s.mutations[j], id) {
        assert WouldUndo(SessionOf(s'.store), s'.mutations[j], id);
      }
      if j :| 0 <= j < |s'.mutations| && WouldUndo(SessionOf(s'.store), s'.mutations[j], id) {
        assert WouldUndo(SessionOf(s.store), s.mutations[j], id);
      }
    }
  }

  lemma MutationKeepsFresh(s: State, k: nat, ok: bool)
    requires AllInv(s) && k < |s.mutations| && StepOfMutation(s, k, ok).Some?
    ensures FreshInv(StepOfMutation(s, k, ok).value)
  {
    hide AllInv, MutationBegins, MutationSucceeds, MutationFails, MarkIds, Restore, ServerMarks, Unread;
    var mutation := s.mutations[k];
    var s' := StepOfMutation(s, k, ok).value;
    MutationShape(s, k, ok);
    if mutation.phase == Waiting && s'.mutations[k].phase == Sent {
      SentWasCurrent(s, k);
      MutationBeginsKeepsFresh(s, k);
    } else if mutation.phase.Processed? && ok && IsCurrent(s.store, mutation.ctx) {
      MutationSucceedsKeepsFresh(s, k);
    } else if UnderWay(mutation) && !ok && IsCurrent(s.store, mutation.ctx) {
      MutationFailsKeepsFresh(s, k);
    } else {
      QuietOutlook(s, k, ok);
      QuietMutationKeepsFresh(s, k, ok);
    }
  }

  lemma QuietOutlook(s: State, k: nat, ok: bool)
    requires k < |s.mutations| && StepOfMutation(s, k, ok).Some?
    requires var mutation, s' := s.mutations[k], StepOfMutation(s, k, ok).value;
             && k < |s'.mutations| && !(mutation.phase == Waiting && s'.mutations[k].phase == Sent)
             && !(mutation.phase.Processed? && ok && IsCurrent(s.store, mutation.ctx))
             && !(UnderWay(mutation) && !ok && IsCurrent(s.store, mutation.ctx))
    ensures var s' := StepOfMutation(s, k, ok).value;
            && MutationFramed(s, s', k)
            && s'.store.items == s.store.items && s'.mutations[k].previous == s.mutations[k].previous
            && SameOutlook(SessionOf(s.store), s'.mutations[k], s.mutations[k])
  {
    MutationShape(s, k, ok);
    BeginShape(s, k);
    FailureShape(s, k);
    if s.mutations[k].phase.Processed? { SuccessShape(s, k, s.mutations[k].phase.unread); }
    CurrentIs(s.store, s.mutations[k].ctx);
    hide MutationBegins, MutationSucceeds, MutationFails, MutationFramed, IsCurrent, Unread, MarkIds, Restore;
    assert MutationFramed(s, StepOfMutation(s, k, ok).value, k);
    FramedParts(s, StepOfMutation(s, k, ok).value, k);
  }

  lemma FramedParts(s: State, s': State, k: nat)
    requires k < |s.mutations| && MutationFramed(s, s', k)
    ensures SessionOf(s'.store) == SessionOf(s.store) && k < |s'.mutations| && s'.mutations[k].ctx == s.mutations[k].ctx
  {
  }

  lemma SentWasCurrent(s: State, k: nat)
    requires k < |s.mutations| && MutationBegins(s, k).mutations[k].phase == Sent
    ensures IsCurrent(s.store, s.mutations[k].ctx)
  {
    hide Readings, ShowsUnread;
  }

  // ----- Every step ----------------------------------------------------------------------------------

  lemma OpeningKeepsFresh(s: State)
    requires AllInv(s)
    ensures FreshInv(s.(store := Opened(s.store)))
  {
    var s' := s.(store := Opened(s.store));
    if s.store.session.Some? {
      assert s' == s;
    } else {
      hide ReadsInv, OrderInv, Clean, AnswersTrue;
      assert forall k :: 0 <= k < |s.mutations| ==> !Current(SessionOf(s'.store), s.mutations[k].ctx) by {
        hide LoopsInv, MoresInv, FreshInv;
      }
      hide BaseInv;
      AnswersStayTrue(s, s');
    }
  }

  lemma LeavingKeepsFresh(s: State)
    requires AllInv(s)
    ensures FreshInv(WasReset(s)) && FreshInv(s.(store := s.store.(auth := s.store.auth + 1)))
  {
    hide ReadsInv, OrderInv, Clean, AnswersTrue, LoopsInv, MoresInv;
    var s1, s2 := WasReset(s), s.(store := s.store.(auth := s.store.auth + 1));
    assert forall k :: 0 <= k < |s.mutations| ==> !Current(SessionOf(s1.store), s.mutations[k].ctx);
    assert forall k :: 0 <= k < |s.mutations| ==> !Current(SessionOf(s2.store), s.mutations[k].ctx);
    assert !InSession(s2.store);
    hide BaseInv;
    AnswersStayTrue(s, s1);
    AnswersStayTrue(s, s2);
  }

  // Labels that leave rows, answers and mutations alone, or only add to what is read.
  lemma ServerKeepsFresh(s: State, s': State)
    requires FreshInv(s) && s' == s.(server := s'.server, clock := s'.clock) && s.server.read <= s'.server.read
    ensures FreshInv(s')
  {
    forall id | Clean(s, id)
      ensures Clean(s', id)
    {
      hide FreshInv;
      assert id in s.server.read;
      SameAnswersClean(s, s', id);
    }
    AnswersStayTrue(s, s');
    hide FreshInv, Clean, AnswersTrue;
    SameRowsFresh(s, s');
  }

  lemma EnqueuedKeepsFresh(s: State, target: Target)
    requires AllInv(s)
    ensures FreshInv(Enqueued(s, target))
  {
    OpeningKeepsFresh(s);
    var ready := s.(store := Opened(s.store));
    var s' := Enqueued(s, target);
    if SessionContext(s.store).Some? {
      hide AllInv, Opened, SessionContext;
      WaitingIsQuiet(ready, s', SessionContext(s.store).value, target);
    }
  }

  lemma WaitingIsQuiet(s: State, s': State, ctx: Context, target: Target)
    requires FreshInv(s) && s'.mutations == s.mutations + [Mutation(ctx, target, Waiting, false, map[], 0)]
    requires s' == s.(mutations := s'.mutations, store := s'.store)
    requires s'.store == s.store.(mutations := s'.store.mutations)
    ensures FreshInv(s')
  {
    forall id | Clean(s, id)
      ensures Clean(s', id)
    {
      hide FreshInv;
      assert id in s.server.read;
      SameAnswersClean(s, s', id);
    }
    AnswersStayTrue(s, s');
    hide Clean, AnswersTrue;
    var se := SessionOf(s.store);
    forall id | Unconfirmed(s, id)
      ensures Unconfirmed(s', id)
    {
      var k :| 0 <= k < |s.mutations| && WouldUndo(se, s.mutations[k], id);
      assert WouldUndo(se, s'.mutations[k], id);
    }
    forall k, id | 0 <= k < |s'.mutations| && WouldKeep(se, s'.mutations[k], id)
      ensures Clean(s', id)
    {
      assert k < |s.mutations| && WouldKeep(se, s.mutations[k], id);
    }
    hide Unconfirmed, WouldKeep;
  }

  lemma LoadMoreKeepsFresh(s: State)
    requires AllInv(s)
    ensures FreshInv(LoadMoreCalled(s))
  {
    OpeningKeepsFresh(s);
    hide AllInv;
    if s.store.nextCursor.Some? && !s.store.loadingMore && SessionContext(s.store).Some? {
      var ready := s.(store := Opened(s.store));
      var begun := MoreBegun(s, SessionContext(s.store).value);
      var s' := LoadMoreCalled(s);
      MoreLoopsFrame(begun, |s.mores|);
      MoreLoopsEpochs(begun, |s.mores|);
      hide MoreLoops, Opened, SessionContext;
      PagingIsQuiet(ready, s');
    }
  }

  lemma PagingIsQuiet(s: State, s': State)
    requires FreshInv(s) && |s'.mores| == |s.mores| + 1 && s'.mores[..|s.mores|] == s.mores
    requires !s'.mores[|s.mores|].phase.Received? && s'.loops == s.loops && s'.mutations == s.mutations
    requires s'.server == s.server && s'.store.(loadingMore := s.store.loadingMore) == s.store
    ensures FreshInv(s')
  {
    assert forall m :: 0 <= m < |s.mores| ==> s'.mores[m] == s.mores[m] by {
      assert forall m :: 0 <= m < |s.mores| ==> s'.mores[..|s.mores|][m] == s.mores[m];
    }
    forall id | Clean(s, id)
      ensures Clean(s', id)
    {
      hide FreshInv, LoopsClean, ShowsUnread;
    }
    assert AnswersTrue(s') by { hide RowsBacked, PreviousBacked, Clean, LoopTrue, TrueRows; }
    hide Clean, AnswersTrue, FreshInv;
    SameRowsFresh(s, s');
  }

  lemma DismissKeepsFresh(s: State, toasts: seq<Id>)
    requires FreshInv(s)
    ensures FreshInv(s.(store := s.store.(toasts := toasts)))
  {
    var s' := s.(store := s.store.(toasts := toasts));
    forall id | Clean(s, id)
      ensures Clean(s', id)
    {
      hide FreshInv;
      assert id in s.server.read;
      SameAnswersClean(s, s', id);
    }
    AnswersStayTrue(s, s');
    hide FreshInv, Clean, AnswersTrue;
    SameRowsFresh(s, s');
  }

  lemma ReconcileCallKeepsFresh(s: State, reason: Reason)
    requires AllInv(s)
    ensures FreshInv(ReconcileCalled(s, reason))
  {
    OpeningKeepsFresh(s);
    AllEpochs(s);
    var ready := s.(store := Opened(s.store));
    assert EpochsInv(ready) by { hide ReadsInv, OrderInv, FreshInv, QueueInv; }
    hide AllInv, EpochsInv, FreshInv, Opened;
    if SessionContext(s.store).Some? { ReconcileKeepsFresh(ready, reason, SessionContext(s.store).value); }
  }

  lemma OtherKeepsFresh(s: State, l: Label)
    requires AllInv(s) && Effect(s, l).Some?
    requires !l.LoopStep? && !l.MoreStep? && !l.MutationStep?
    ensures FreshInv(Effect(s, l).value)
  {
    AllEpochs(s);
    hide BaseInv, ReadsInv, OrderInv, FreshInv, EpochsInv, Reconcile, Enqueued, ShowsUnread, Without, LoadMoreCalled;
    hide ReconcileCalled;
    match l
    case AuthChanges => LeavingKeepsFresh(s);
    case CallReset => LeavingKeepsFresh(s);
    case CallReconcile(reason) => ReconcileCallKeepsFresh(s, reason);
    case Invalidate(reason, ctx) => ReconcileKeepsFresh(s, reason, ctx);
    case CallLoadMore => LoadMoreKeepsFresh(s);
    case CallMarkRead(id) => EnqueuedKeepsFresh(s, One(id));
    case CallMarkAllRead =>
      EnqueuedKeepsFresh(s, Every(set i | 0 <= i < |s.store.items| && !s.store.items[i].read :: s.store.items[i].id));
    case Dismiss(id) => DismissKeepsFresh(s, Without(s.store.toasts, id));
    case Insert(_, _) => ServerKeepsFresh(s, Effect(s, l).value);
    case ReadElsewhere(_) => ServerKeepsFresh(s, Effect(s, l).value);
    case _ =>
  }

  lemma NextKeepsAll(s: State, l: Label)
    requires AllInv(s) && Next(s, l).Some?
    ensures AllInv(Next(s, l).value)
  {
    NextKeepsBase(s, l);
    NextKeepsReads(s, l);
    NextKeepsOrder(s, l);
    NextKeepsFresh(s, l);
    hide BaseInv, ReadsInv, OrderInv, FreshInv, Next;
  }

  lemma NextKeepsFresh(s: State, l: Label)
    requires AllInv(s) && Next(s, l).Some?
    ensures FreshInv(Next(s, l).value)
  {
    hide AllInv, FreshInv, StepOfLoop, StepOfMore, StepOfMutation, LoadMoreCalled;
    match l {
      case LoopStep(i, ok) => LoopKeepsFresh(s, i, ok);
      case MoreStep(m, ok) => MoreKeepsFresh(s, m, ok);
      case MutationStep(k, ok) => MutationKeepsFresh(s, k, ok);
      case _ => OtherKeepsFresh(s, l);
    }
    hide Effect;
    ServerKeepsFresh(Effect(s, l).value, Next(s, l).value);
  }

  lemma {:induction false} RunKeepsAll(s: State, ls: seq<Label>)
    requires AllInv(s) && Run(s, ls).Some?
    ensures AllInv(Run(s, ls).value)
    decreases |ls|
  {
    hide AllInv, Next;
    if |ls| > 0 {
      NextKeepsAll(s, ls[0]);
      RunKeepsAll(Next(s, ls[0]).value, ls[1..]);
    }
  }

  lemma InitAll(server: Server)
    requires Distinct(server.history)
    ensures AllInv(Init(server))
  {
    InitBase(server);
    InitReads(server);
    InitOrder(server);
    hide BaseInv, ReadsInv, OrderInv;
  }

  // ----- Settled for the rest of the session ---------------------------------------------------------------

  lemma LoopRowsStay(s: State, l: nat, ok: bool, id: Id)
    requires Clean(s, id) && !ShowsUnread(s.store.items, id) && l < |s.loops| && StepOfLoop(s, l, ok).Some?
    ensures !ShowsUnread(StepOfLoop(s, l, ok).value.store.items, id)
  {
    hide Clean, ShowsUnread;
    var loop := s.loops[l];
    if ok && loop.phase.Answered? && StepOfLoop(s, l, ok).value.loops[l].phase.LoadingAccounts? {
      ApplyingStep(s, l);
      CleanLoop(s, l, id);
      PutAllClean(loop.rows, loop.phase.page.items, id);
      hide PutAll, StepOfLoop;
    } else {
      LoopKeepsRows(s, l, ok);
    }
  }

  lemma MoreRowsStay(s: State, m: nat, ok: bool, id: Id)
    requires Clean(s, id) && !ShowsUnread(s.store.items, id) && m < |s.mores| && StepOfMore(s, m, ok).Some?
    ensures !ShowsUnread(StepOfMore(s, m, ok).value.store.items, id)
  {
    hide Clean, ShowsUnread;
    var more := s.mores[m];
    if ok && more.phase.Received? && IsCurrent(s.store, more.ctx) && more.readEpoch == s.store.readEpoch
       && more.mutationEpoch == s.store.mutationEpoch {
      CleanMore(s, m, id);
      PutAllClean(s.store.items, more.phase.page.items, id);
      hide PutAll, IdSet, Discovered;
    } else {
      MoreKeepsRows(s, m, ok);
    }
  }

  lemma MarkedRowsStay(items: seq<Item>, ids: set<Id>, previous: map<Id, bool>, id: Id)
    requires !ShowsUnread(items, id)
    ensures !ShowsUnread(MarkIds(items, ids), id)
    ensures (id in previous ==> previous[id]) ==> !ShowsUnread(Restore(items, previous), id)
  {
    forall i | 0 <= i < |items|
      ensures MarkIds(items, ids)[i] != Item(id, false)
      ensures (id in previous ==> previous[id]) ==> Restore(items, previous)[i] != Item(id, false)
    {
      assert items[i] != Item(id, false);
    }
  }

  lemma MutationRowsStay(s: State, k: nat, ok: bool, id: Id)
    requires SettledRead(s, id) && k < |s.mutations| && StepOfMutation(s, k, ok).Some?
    ensures !ShowsUnread(StepOfMutation(s, k, ok).value.store.items, id)
    ensures !Unconfirmed(StepOfMutation(s, k, ok).value, id)
  {
    var mutation := s.mutations[k];
    var s' := StepOfMutation(s, k, ok).value;
    MutationShape(s, k, ok);
    CurrentIs(s.store, mutation.ctx);
    assert !WouldUndo(SessionOf(s.store), mutation, id);
    MarkedRowsStay(s.store.items, Targets(mutation.target), mutation.previous, id);
    ReadingsAre(s.store.items, Targets(mutation.target));
    assert id in Readings(s.store.items, Targets(mutation.target)) ==>
        Readings(s.store.items, Targets(mutation.target))[id] by { UnreadReading(s, Targets(mutation.target), id); }
    BeginShape(s, k);
    FailureShape(s, k);
    if mutation.phase.Processed? { SuccessShape(s, k, mutation.phase.unread); }
    BegunShape(s, k);
    hide Clean, ShowsUnread, MutationSucceeds, MutationFails, MutationBegins, Unread, IsCurrent, Readings, MarkIds, Restore;
    FramedParts(s, s', k);
    assert !WouldUndo(SessionOf(s.store), s'.mutations[k], id);
    hide StepOfMutation;
    forall j | 0 <= j < |s'.mutations|
      ensures !WouldUndo(SessionOf(s'.store), s'.mutations[j], id)
    {
      if j != k { assert !WouldUndo(SessionOf(s.store), s.mutations[j], id); }
    }
  }

  lemma UnreadReading(s: State, ids: set<Id>, id: Id)
    requires !ShowsUnread(s.store.items, id)
    ensures id in Readings(s.store.items, ids) ==> Readings(s.store.items, ids)[id]
  {
    ReadingsAre(s.store.items, ids);
    hide Readings;
  }

  lemma BegunShape(s: State, k: nat)
    requires k < |s.mutations|
    ensures k < |MutationBegins(s, k).mutations|
    ensures var s', ids := MutationBegins(s, k), Targets(s.mutations[k].target);
            s'.mutations[k].phase == Sent && s.mutations[k].phase != Sent ==>
              s'.mutations[k].previous == Readings(s.store.items, ids) && s'.store.items == MarkIds(s.store.items, ids)
  {
    hide Readings, ShowsUnread, MarkIds;
  }

  lemma OtherRowsStay(s: State, l: Label, id: Id)
    requires SettledRead(s, id) && Effect(s, l).Some? && SessionOf(Effect(s, l).value.store) == SessionOf(s.store)
    requires !l.LoopStep? && !l.MoreStep? && !l.MutationStep?
    ensures !ShowsUnread(Effect(s, l).value.store.items, id) && !Unconfirmed(Effect(s, l).value, id)
  {
    hide Clean, ShowsUnread, Reconcile, Without, MoreLoops, WouldUndo;
    var s' := Effect(s, l).value;
    match l
    case CallReconcile(reason) =>
      if SessionContext(s.store).Some? {
        ReconcileFrame(s.(store := Opened(s.store)), reason, SessionContext(s.store).value);
      }
    case Invalidate(reason, ctx) => ReconcileFrame(s, reason, ctx);
    case CallLoadMore =>
      if SessionContext(s.store).Some? {
        var begun := MoreBegun(s, SessionContext(s.store).value);
        MoreLoopsFrame(begun, |s.mores|);
        MoreLoopsEpochs(begun, |s.mores|);
      }
    case CallMarkRead(target) => if ShowsUnread(s.store.items, target) { EnqueuedRows(s, One(target), id); }
    case CallMarkAllRead =>
      if s.store.unreadCount != 0 {
        EnqueuedRows(s, Every(set i | 0 <= i < |s.store.items| && !s.store.items[i].read :: s.store.items[i].id), id);
      }
    case _ =>
  }

  lemma EnqueuedRows(s: State, target: Target, id: Id)
    requires !Unconfirmed(s, id) && SessionOf(Enqueued(s, target).store) == SessionOf(s.store)
    ensures !Unconfirmed(Enqueued(s, target), id) && Enqueued(s, target).store.items == s.store.items
  {
    var s' := Enqueued(s, target);
    forall j | 0 <= j < |s'.mutations|
      ensures !WouldUndo(SessionOf(s'.store), s'.mutations[j], id)
    {
      if j < |s.mutations| { assert !WouldUndo(SessionOf(s.store), s.mutations[j], id); }
    }
    hide WouldUndo;
  }

  // An id that is settled stays so while the session lasts.
  lemma NextKeepsSettled(s: State, l: Label, id: Id)
    requires EpochsInv(s) && SettledRead(s, id) && Next(s, l).Some?
    requires SessionOf(Next(s, l).value.store) == SessionOf(s.store)
    ensures SettledRead(Next(s, l).value, id)
  {
    NextKeepsClean(s, l, id);
    hide Clean, ShowsUnread, StepOfLoop, StepOfMore, StepOfMutation, EpochsInv;
    match l
    case LoopStep(i, ok) =>
      LoopRowsStay(s, i, ok, id);
      LoopFrame(s, i, ok);
      hide WouldUndo;
    case MoreStep(m, ok) =>
      MoreRowsStay(s, m, ok, id);
      MoreFrame(s, m, ok);
      hide WouldUndo;
    case MutationStep(k, ok) =>
      MutationRowsStay(s, k, ok, id);
      hide WouldUndo;
    case _ =>
      hide WouldUndo;
      OtherRowsStay(s, l, id);
      hide Effect;
  }

  lemma {:induction false} SettledStays(s: State, ls: seq<Label>, id: Id)
    requires AllInv(s) && SettledRead(s, id) && Run(s, ls).Some?
    requires InSession(s.store) && SessionOf(Run(s, ls).value.store) == SessionOf(s.store)
    ensures SettledRead(Run(s, ls).value, id)
    decreases |ls|
  {
    if |ls| > 0 {
      var s' := Next(s, ls[0]).value;
      assert BaseInv(s);
      SameSessionAlong(s, ls);
      AllEpochs(s);
      NextKeepsSettled(s, ls[0], id);
      NextKeepsAll(s, ls[0]);
      hide AllInv, SettledRead, Next, EpochsInv;
      SettledStays(s', ls[1..], id);
    }
  }

  // ----- What is displayed decides ---------------------------------------------------------------------

  // A row that is shown read is settled unless a mutation under way would undo it.
  lemma ShownReadIsSettled(s: State, id: Id)
    requires AllInv(s) && InSession(s.store) && Item(id, true) in s.store.items
    ensures SettledRead(s, id) <==> !Unconfirmed(s, id)
  {
    assert !ShowsUnread(s.store.items, id) by {
      assert Distinct(Ids(s.store.items)) by { hide BaseInv, ReadsInv, FreshInv; }
      hide AllInv;
      OneRowEach(s.store.items, id);
    }
    hide BaseInv, ReadsInv, OrderInv, Clean;
    var i :| 0 <= i < |s.store.items| && s.store.items[i] == Item(id, true);
    assert Clean(s, s.store.items[i].id) || Unconfirmed(s, s.store.items[i].id);
  }

  lemma OneRowEach(items: seq<Item>, id: Id)
    requires Distinct(Ids(items)) && Item(id, true) in items
    ensures !ShowsUnread(items, id)
  {
    var i :| 0 <= i < |items| && items[i] == Item(id, true);
    forall j | 0 <= j < |items|
      ensures items[j] != Item(id, false)
    {
      assert Ids(items)[i] == id && Ids(items)[j] == items[j].id;
    }
  }

  // What a mark that succeeded has marked is settled.
  lemma ConfirmedIsSettled(s: State, id: Id)
    requires AllInv(s) && id in s.confirmed
    ensures SettledRead(s, id)
  {
    var se := SessionOf(s.store);
    hide BaseInv, OrderInv, FreshInv;
    StoreRows(s);
    assert id in s.server.read;
    forall l | 0 <= l < |s.loops| && Current(se, s.loops[l].ctx)
      ensures LoopClean(s.loops[l], s.store.mutationEpoch, id)
    {
      ReadsOfLoop(s, l);
    }
    forall m | 0 <= m < |s.mores| && Current(se, s.mores[m].ctx)
      ensures MoreClean(s.mores[m], s.store.readEpoch, s.store.mutationEpoch, id)
    {
      ReadsOfMore(s, m);
    }
    forall k | 0 <= k < |s.mutations|
      ensures !WouldUndo(se, s.mutations[k], id)
    {
      if Current(se, s.mutations[k].ctx) { ReadsOfMutation(s, k); }
    }
    hide ReadsInv, LoopClean, MoreClean, WouldUndo;
  }
}
