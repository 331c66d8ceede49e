// Who may act: in any run one reconciliation, one pagination and one mutation at
// most belong to the open session, and what belongs to an earlier one stays inert.
module ClientInv {
  import opened Prelude
  import opened ClientStore
  import opened ClientRuns

  datatype Session = Session(generation: nat, opening: Option<nat>, auth: nat)

  function SessionOf(st: Store): Session {
    Session(st.generation, st.session, st.auth)
  }

  predicate Current(se: Session, ctx: Context) {
    se.generation == ctx.generation && se.opening == Some(ctx.auth) && se.auth == ctx.auth
  }

  predicate InSession(st: Store) {
    st.session == Some(st.auth)
  }

  // The contexts handed out so far.
  predicate Seen(se: Session, ctx: Context) {
    ctx.generation < se.generation || (ctx.generation == se.generation && se.opening == Some(ctx.auth))
  }

  ghost predicate SessionInv(se: Session) {
    se.opening.Some? ==> se.opening.value <= se.auth
  }

  // The promise names the one loop of the session that is not gone.
  ghost predicate LoopsInv(se: Session, reconciliation: Option<nat>, loops: seq<Loop>) {
    && (forall l :: 0 <= l < |loops| ==>
          && Seen(se, loops[l].ctx)
          && (Current(se, loops[l].ctx) && loops[l].phase != Gone ==> reconciliation == Some(l)))
    && (reconciliation.Some? ==>
          && reconciliation.value < |loops| && loops[reconciliation.value].phase != Gone
          && loops[reconciliation.value].ctx.generation == se.generation)
  }

  predicate Busy(se: Session, more: More) {
    Current(se, more.ctx) && more.phase != Finished
  }

  ghost predicate MoresInv(se: Session, loadingMore: bool, mores: seq<More>) {
    && (forall m :: 0 <= m < |mores| ==> Seen(se, mores[m].ctx) && (Busy(se, mores[m]) ==> loadingMore))
    && (forall m, n :: 0 <= m < n < |mores| ==> !(Busy(se, mores[m]) && Busy(se, mores[n])))
  }

  predicate InFlight(mutation: Mutation) {
    mutation.phase != Waiting && !mutation.phase.Settled?
  }

  // Unsettled mutations of the session queue up, and only the first is under way.
  ghost predicate QueueInv(se: Session, queue: seq<nat>, mutations: seq<Mutation>) {
    && (forall k :: 0 <= k < |mutations| ==>
          && Seen(se, mutations[k].ctx)
          && (Current(se, mutations[k].ctx) && !mutations[k].phase.Settled? ==> k in queue)
          && (Current(se, mutations[k].ctx) && InFlight(mutations[k]) ==> queue[0] == k))
    && (forall j :: 0 <= j < |queue| ==> queue[j] < |mutations|)
    && (forall i, j :: 0 <= i < j < |queue| ==> queue[i] < queue[j])
  }

  ghost predicate BaseInv(s: State) {
    && SessionInv(SessionOf(s.store))
    && LoopsInv(SessionOf(s.store), s.store.reconciliation, s.loops)
    && MoresInv(SessionOf(s.store), s.store.loadingMore, s.mores)
    && QueueInv(SessionOf(s.store), s.store.mutations, s.mutations)
  }

  // ----- Opening and leaving a session -----------------------------------------------------

  lemma OpeningKeeps(s: State)
    requires BaseInv(s)
    ensures BaseInv(s.(store := Opened(s.store)))
    ensures SessionContext(s.store).Some? ==>
              Current(SessionOf(Opened(s.store)), SessionContext(s.store).value)
  {
    var se, se' := SessionOf(s.store), SessionOf(Opened(s.store));
    forall ctx | Seen(se, ctx)
      ensures Seen(se', ctx) && (Current(se', ctx) ==> Current(se, ctx))
    {
    }
    hide Seen, Current;
  }

  lemma LeavingKeeps(s: State, s': State)
    requires BaseInv(s)
    requires s'.loops == s.loops && s'.mores == s.mores && s'.mutations == s.mutations
    requires s'.store == Reset(s.store) || s'.store == s.store.(auth := s.store.auth + 1)
    ensures BaseInv(s')
  {
    var se, se' := SessionOf(s.store), SessionOf(s'.store);
    forall ctx | Seen(se, ctx)
      ensures Seen(se', ctx) && !Current(se', ctx)
    {
    }
    hide Seen, Current;
  }

  // ----- Reconciling -----------------------------------------------------------------------

  lemma ReconcileFrame(s: State, reason: Reason, ctx: Context)
    ensures var s' := Reconcile(s, reason, ctx);
            && s'.server == s.server && s'.mores == s.mores && s'.mutations == s.mutations && s'.clock == s.clock
            && s'.origins == s.origins && s'.shown == s.shown && s'.confirmed == s.confirmed
            && s'.store == s.store.(reconciliation := s'.store.reconciliation, queued := s'.store.queued,
                                    readEpoch := s'.store.readEpoch)
            && (IsCurrent(s.store, ctx) ==> s'.store.reconciliation.Some?)
  {
  }

  lemma ReconcileKeeps(s: State, reason: Reason, ctx: Context)
    requires BaseInv(s)
    ensures BaseInv(Reconcile(s, reason, ctx))
  {
    ReconcileFrame(s, reason, ctx);
    hide MoresInv, QueueInv;
  }

  // What a step of one loop leaves alone.
  ghost predicate LoopFramed(s: State, s': State, l: nat)
    requires l < |s.loops|
  {
    && s'.server == s.server && s'.mores == s.mores && s'.mutations == s.mutations && s'.clock == s.clock
    && s'.confirmed == s.confirmed && SessionOf(s'.store) == SessionOf(s.store)
    && s'.store.loadingMore == s.store.loadingMore && s'.store.mutations == s.store.mutations
    && s'.store.mutationEpoch == s.store.mutationEpoch
    && |s'.loops| == |s.loops| && s'.loops == s.loops[l := s'.loops[l]] && s'.loops[l].ctx == s.loops[l].ctx
    && s'.store.reconciliation == (if s'.loops[l].phase == Gone && s.store.reconciliation == Some(l) then None
                                   else s.store.reconciliation)
  }

  lemma PageFrame(s: State, l: nat, page: Page)
    requires l < |s.loops| && s.loops[l].phase != Gone
    ensures LoopFramed(s, PageArrives(s, l, page), l)
  {
    hide PutAll, AddPending, IdSet, Discovered, IsCurrent, Merged;
  }

  lemma LoopFrame(s: State, l: nat, ok: bool)
    requires l < |s.loops| && StepOfLoop(s, l, ok).Some?
    ensures s.loops[l].phase != Gone && LoopFramed(s, StepOfLoop(s, l, ok).value, l)
  {
    hide PageArrives, PageOf, IsCurrent, Toasts;
    if s.loops[l].phase.Answered? && ok {
      hide LoopFramed;
      PageFrame(s, l, s.loops[l].phase.page);
    }
  }

  lemma LoopKeeps(s: State, l: nat, ok: bool)
    requires BaseInv(s) && l < |s.loops| && StepOfLoop(s, l, ok).Some?
    ensures BaseInv(StepOfLoop(s, l, ok).value)
  {
    LoopFrame(s, l, ok);
    hide StepOfLoop, MoresInv, QueueInv;
  }

  // ----- Loading more ---------------------------------------------------------------------------

  ghost predicate MoreFramed(s: State, s': State, m: nat)
    requires m < |s.mores|
  {
    && s'.server == s.server && s'.mutations == s.mutations && s'.clock == s.clock
    && s'.confirmed == s.confirmed && SessionOf(s'.store) == SessionOf(s.store)
    && s'.store.mutations == s.store.mutations && s'.store.mutationEpoch == s.store.mutationEpoch
    && |s'.mores| == |s.mores| && s'.mores == s.mores[m := s'.mores[m]] && s'.mores[m].ctx == s.mores[m].ctx
    && s'.shown == s.shown && s'.store.pendingLive == s.store.pendingLive && s'.store.toasts == s.store.toasts
    && s'.store.hasBaseline == s.store.hasBaseline
    && (s'.store.loadingMore == s.store.loadingMore ||
        (!s'.store.loadingMore && s'.mores[m].phase == Finished && IsCurrent(s.store, s.mores[m].ctx)))
  }

  lemma MoreLoopsFrame(s: State, m: nat)
    requires m < |s.mores|
    ensures MoreFramed(s, MoreLoops(s, m), m) && MoreFramed(s, MoreAsks(s, m), m) && MoreFramed(s, MoreEnds(s, m), m)
    ensures MoreLoops(s, m).loops == MoreAsks(s, m).loops == MoreEnds(s, m).loops == s.loops
    ensures MoreLoops(s, m).origins == MoreAsks(s, m).origins == MoreEnds(s, m).origins == s.origins
    ensures MoreLoops(s, m).store.(loadingMore := false) == s.store.(loadingMore := false)
    ensures MoreAsks(s, m).store.(loadingMore := false) == s.store.(loadingMore := false)
    ensures MoreEnds(s, m).store.(loadingMore := false) == s.store.(loadingMore := false)
  {
    hide IsCurrent;
  }

  lemma MoreArrivesFrame(s: State, m: nat, page: Page)
    requires m < |s.mores|
    ensures MoreFramed(s, MoreArrives(s, m, page), m)
  {
    MoreLoopsFrame(s, m);
    ReconcileFrame(s, Recovery, s.mores[m].ctx);
    hide MoreLoops, MoreAsks, MoreEnds, Reconcile, PutAll, IdSet, Discovered;
  }

  lemma MoreFrame(s: State, m: nat, ok: bool)
    requires m < |s.mores| && StepOfMore(s, m, ok).Some?
    ensures MoreFramed(s, StepOfMore(s, m, ok).value, m)
  {
    hide MoreArrives, MoreLoops, MoreAsks, MoreEnds, PageOf, MoreFramed;
    var more := s.mores[m];
    match more.phase
    case Received(page) => if ok { MoreArrivesFrame(s, m, page); } else { MoreLoopsFrame(s, m); }
    case Requested => MoreLoopsFrame(s, m); AskedFrame(s, m);
    case _ => MoreLoopsFrame(s, m);
  }

  lemma AskedFrame(s: State, m: nat)
    requires m < |s.mores|
    ensures forall phase :: MoreFramed(s, WithMore(s, m, s.mores[m].(phase := phase)), m)
  {
  }

  // A pagination that waits may start a reconciliation, for its own session.
  lemma MoreReconciles(s: State, m: nat, ok: bool)
    requires m < |s.mores| && StepOfMore(s, m, ok).Some?
    ensures var s' := StepOfMore(s, m, ok).value;
            || (s'.loops == s.loops && s'.store.reconciliation == s.store.reconciliation)
            || (s'.loops == Reconcile(s, Recovery, s.mores[m].ctx).loops &&
                s'.store.reconciliation == Reconcile(s, Recovery, s.mores[m].ctx).store.reconciliation)
  {
    MoreLoopsFrame(s, m);
    hide MoreLoops, MoreAsks, MoreEnds, PageOf, Reconcile, PutAll, IdSet, Discovered, IsCurrent;
  }

  lemma MoreKeeps(s: State, m: nat, ok: bool)
    requires BaseInv(s) && m < |s.mores| && StepOfMore(s, m, ok).Some?
    ensures BaseInv(StepOfMore(s, m, ok).value)
  {
    MoreFrame(s, m, ok);
    MoreReconciles(s, m, ok);
    ReconcileKeeps(s, Recovery, s.mores[m].ctx);
    hide StepOfMore, Reconcile, LoopsInv, QueueInv;
  }

  lemma LoadMoreKeeps(s: State)
    requires BaseInv(s)
    ensures BaseInv(LoadMoreCalled(s))
  {
    OpeningKeeps(s);
    if s.store.nextCursor.Some? && !s.store.loadingMore && SessionContext(s.store).Some? {
      var ctx := SessionContext(s.store).value;
      var begun := MoreBegun(s, ctx);
      MoreBegunKeeps(s, ctx);
      MoreLoopsFrame(begun, |s.mores|);
      hide MoreLoops, LoopsInv, QueueInv, Opened, SessionContext;
    }
  }

  function MoreBegun(s: State, ctx: Context): State {
    s.(store := Opened(s.store).(loadingMore := true), mores := s.mores + [More(ctx, Finished, 0, 0, 0)])
  }

  lemma MoreBegunKeeps(s: State, ctx: Context)
    requires BaseInv(s) && !s.store.loadingMore && SessionContext(s.store) == Some(ctx)
    ensures BaseInv(MoreBegun(s, ctx))
    ensures forall m :: 0 <= m < |s.mores| ==> !Busy(SessionOf(Opened(s.store)), s.mores[m])
  {
    OpeningKeeps(s);
    hide LoopsInv, QueueInv, Opened, SessionContext;
  }

  // ----- Marking read -------------------------------------------------------------------------------

  lemma SettleKeeps(s: State, k: nat, ok: bool)
    requires BaseInv(s) && k < |s.mutations|
    requires Current(SessionOf(s.store), s.mutations[k].ctx) ==> |s.store.mutations| > 0 && s.store.mutations[0] == k
    ensures BaseInv(Settle(s, k, ok))
  {
    var se := SessionOf(s.store);
    var s' := Settle(s, k, ok);
    var q, q' := s.store.mutations, s'.store.mutations;
    forall j | 0 <= j < |s'.mutations|
      ensures && Seen(se, s'.mutations[j].ctx)
              && (Current(se, s'.mutations[j].ctx) && !s'.mutations[j].phase.Settled? ==> j in q')
              && (Current(se, s'.mutations[j].ctx) && InFlight(s'.mutations[j]) ==> q'[0] == j)
    {
      if j != k && Current(se, s.mutations[j].ctx) && !s.mutations[j].phase.Settled? { assert j in q; }
    }
    hide LoopsInv, MoresInv;
  }

  lemma EnqueueKeeps(s: State, target: Target)
    requires BaseInv(s)
    ensures BaseInv(Enqueued(s, target))
  {
    OpeningKeeps(s);
    if SessionContext(s.store).Some? {
      hide LoopsInv, MoresInv, Opened, SessionContext;
    }
  }

  // Only the phase and the like of one mutation changes, not whose it is.
  lemma MutationChangeKeeps(s: State, k: nat, mutation: Mutation, store: Store)
    requires BaseInv(s) && k < |s.mutations|
    requires mutation.ctx == s.mutations[k].ctx && !s.mutations[k].phase.Settled? && !mutation.phase.Settled?
    requires Current(SessionOf(s.store), mutation.ctx) && InFlight(mutation) ==> s.store.mutations[0] == k
    requires SessionOf(store) == SessionOf(s.store) && store.mutations == s.store.mutations
    requires store.reconciliation == s.store.reconciliation && store.loadingMore == s.store.loadingMore
    ensures BaseInv(WithMutation(s, k, mutation).(store := store))
  {
    hide LoopsInv, MoresInv;
  }

  lemma MutationBeginsKeeps(s: State, k: nat)
    requires BaseInv(s) && k < |s.mutations| && StepOfMutation(s, k, true).Some? && s.mutations[k].phase == Waiting
    ensures BaseInv(MutationBegins(s, k))
  {
    hide LoopsInv, MoresInv, Readings, ShowsUnread;
    var s' := MutationBegins(s, k);
    if s'.mutations[k].phase.Settled? {
      SettleKeeps(s, k, true);
    } else {
      hide QueueInv;
      FirstInQueue(s, k);
      MutationChangeKeeps(s, k, s'.mutations[k], s'.store);
    }
  }

  // A mutation of the session that may begin is the first of its queue.
  lemma FirstInQueue(s: State, k: nat)
    requires BaseInv(s) && k < |s.mutations| && !s.mutations[k].phase.Settled?
    requires s.mutations[k].phase == Waiting ==> !(k in s.store.mutations && s.store.mutations[0] != k)
    ensures Current(SessionOf(s.store), s.mutations[k].ctx) ==> |s.store.mutations| > 0 && s.store.mutations[0] == k
  {
    hide LoopsInv, MoresInv;
  }

  lemma MutationSucceedsKeeps(s: State, k: nat, unread: nat)
    requires BaseInv(s) && k < |s.mutations| && InFlight(s.mutations[k])
    ensures BaseInv(MutationSucceeds(s, k, unread))
  {
    FirstInQueue(s, k);
    var mutation := s.mutations[k];
    if !IsCurrent(s.store, mutation.ctx) {
      SettleKeeps(s, k, true);
    } else {
      var ids := Targets(mutation.target);
      var marked := s.(store := MarkConfirmed(s.store, ids, unread), confirmed := s.confirmed + ids);
      assert BaseInv(marked);
      ReconcileKeeps(marked, Recovery, mutation.ctx);
      ReconcileFrame(marked, Recovery, mutation.ctx);
      hide BaseInv, Reconcile, MarkConfirmed, Settle;
      SettleKeeps(marked, k, true);
      SettleKeeps(Reconcile(marked, Recovery, mutation.ctx), k, true);
    }
  }

  lemma MutationFailsKeeps(s: State, k: nat)
    requires BaseInv(s) && k < |s.mutations| && InFlight(s.mutations[k])
    ensures BaseInv(MutationFails(s, k))
  {
    FirstInQueue(s, k);
    var mutation := s.mutations[k];
    if !IsCurrent(s.store, mutation.ctx) {
      SettleKeeps(s, k, false);
    } else {
      var back := s.(store := MarkRolledBack(s.store, mutation.previous, mutation.previousCount));
      assert BaseInv(back);
      ReconcileKeeps(back, Recovery, mutation.ctx);
      ReconcileFrame(back, Recovery, mutation.ctx);
      hide BaseInv, Reconcile, MarkRolledBack;
      var s' := Reconcile(back, Recovery, mutation.ctx);
      MutationChangeKeeps(s', k, mutation.(phase := Recovering(s'.store.reconciliation.value)), s'.store);
    }
  }

  lemma MutationKeeps(s: State, k: nat, ok: bool)
    requires BaseInv(s) && k < |s.mutations| && StepOfMutation(s, k, ok).Some?
    ensures BaseInv(StepOfMutation(s, k, ok).value)
  {
    hide BaseInv, MutationBegins, MutationSucceeds, MutationFails, Settle, ServerMarks, Unread;
    match s.mutations[k].phase
    case Waiting => MutationBeginsKeeps(s, k);
    case Sent =>
      if ok {
        var s' := StepOfMutation(s, k, ok).value;
        FirstInQueue(s, k);
        MutationChangeKeeps(s, k, s'.mutations[k], s.store);
        ServerOnly(s, s');
      } else {
        MutationFailsKeeps(s, k);
      }
    case Processed(unread) => if ok { MutationSucceedsKeeps(s, k, unread); } else { MutationFailsKeeps(s, k); }
    case Recovering(_) => FirstInQueue(s, k); SettleKeeps(s, k, false);
    case Settled(_) =>
  }

  lemma ServerOnly(s: State, s': State)
    ensures BaseInv(s'.(server := s.server)) <==> BaseInv(s')
  {
  }

  // ----- Every run -------------------------------------------------------------------------------------

  lemma OtherKeeps(s: State, l: Label)
    requires BaseInv(s) && Effect(s, l).Some?
    requires !l.LoopStep? && !l.MoreStep? && !l.MutationStep? && !l.CallLoadMore?
    ensures BaseInv(Effect(s, l).value)
  {
    hide LoopsInv, MoresInv, QueueInv, Reconcile, Enqueued, ShowsUnread;
    match l
    case AuthChanges => LeavingKeeps(s, Effect(s, l).value);
    case CallReset => LeavingKeeps(s, Effect(s, l).value);
    case CallReconcile(reason) =>
      OpeningKeeps(s);
      if SessionContext(s.store).Some? {
        ReconcileKeeps(s.(store := Opened(s.store)), reason, SessionContext(s.store).value);
      }
    case Invalidate(reason, ctx) => ReconcileKeeps(s, reason, ctx);
    case CallMarkRead(id) => EnqueueKeeps(s, One(id));
    case CallMarkAllRead =>
      EnqueueKeeps(s, Every(set i | 0 <= i < |s.store.items| && !s.store.items[i].read :: s.store.items[i].id));
    case _ =>
  }

  lemma NextKeepsBase(s: State, l: Label)
    requires BaseInv(s) && Next(s, l).Some?
    ensures BaseInv(Next(s, l).value)
  {
    assert BaseInv(Effect(s, l).value) by {
      hide BaseInv, StepOfLoop, StepOfMore, StepOfMutation, LoadMoreCalled;
      match l
      case LoopStep(i, ok) => LoopKeeps(s, i, ok);
      case MoreStep(m, ok) => MoreKeeps(s, m, ok);
      case MutationStep(k, ok) => MutationKeeps(s, k, ok);
      case CallLoadMore => LoadMoreKeeps(s);
      case _ => OtherKeeps(s, l);
    }
    hide LoopsInv, MoresInv, QueueInv, Effect;
  }

  lemma {:induction false} RunKeepsBase(s: State, ls: seq<Label>)
    requires BaseInv(s) && Run(s, ls).Some?
    ensures BaseInv(Run(s, ls).value)
    decreases |ls|
  {
    hide BaseInv, Next;
    if |ls| > 0 {
      NextKeepsBase(s, ls[0]);
      RunKeepsBase(Next(s, ls[0]).value, ls[1..]);
    }
  }

  lemma InitBase(server: Server)
    ensures BaseInv(Init(server))
  {
  }

  // ----- Stale work ----------------------------------------------------------------------------------------

  // What a user can see of the store.
  datatype Shown = Shown(items: seq<Item>, unreadCount: nat, nextCursor: Option<Id>, toasts: seq<Id>,
                         loadedPages: nat, loadingMore: bool)

  function ShownBy(st: Store): Shown {
    Shown(st.items, st.unreadCount, st.nextCursor, st.toasts, st.loadedPages, st.loadingMore)
  }

  // A context that is no longer current never is again.
  lemma StaleStays(s: State, l: Label, ctx: Context)
    requires BaseInv(s) && Next(s, l).Some? && Seen(SessionOf(s.store), ctx) && !IsCurrent(s.store, ctx)
    ensures Seen(SessionOf(Next(s, l).value.store), ctx) && !IsCurrent(Next(s, l).value.store, ctx)
  {
    SessionMoves(s, l);
    hide Next, LoopsInv, MoresInv, QueueInv;
  }

  // How a step may change the session: not, by opening one, by a reset, or by a
  // change of who is signed in.
  lemma SessionMoves(s: State, l: Label)
    requires Next(s, l).Some?
    ensures var st, st' := s.store, Next(s, l).value.store;
            || SessionOf(st') == SessionOf(st)
            || SessionOf(st') == SessionOf(Opened(st))
            || SessionOf(st') == SessionOf(Reset(st))
            || SessionOf(st') == SessionOf(st.(auth := st.auth + 1))
  {
    hide StepOfLoop, StepOfMore, StepOfMutation, Reconcile, MoreLoops;
    match l
    case LoopStep(i, ok) => LoopFrame(s, i, ok);
    case MoreStep(m, ok) => MoreFrame(s, m, ok);
    case MutationStep(k, ok) => MutationSession(s, k, ok);
    case CallLoadMore =>
      if SessionContext(s.store).Some? {
        var begun := MoreBegun(s, SessionContext(s.store).value);
        MoreLoopsFrame(begun, |s.mores|);
      }
    case CallReconcile(reason) =>
      if SessionContext(s.store).Some? {
        ReconcileFrame(s.(store := Opened(s.store)), reason, SessionContext(s.store).value);
      }
    case Invalidate(reason, ctx) => ReconcileFrame(s, reason, ctx);
    case _ =>
  }

  lemma MutationSession(s: State, k: nat, ok: bool)
    requires k < |s.mutations| && StepOfMutation(s, k, ok).Some?
    ensures SessionOf(StepOfMutation(s, k, ok).value.store) == SessionOf(s.store)
  {
    hide Reconcile, ShowsUnread, Readings, ServerMarks, Unread;
    var mutation := s.mutations[k];
    var ids := Targets(mutation.target);
    if mutation.phase.Processed? {
      var marked := s.(store := MarkConfirmed(s.store, ids, mutation.phase.unread), confirmed := s.confirmed + ids);
      ReconcileFrame(marked, Recovery, mutation.ctx);
    }
    var back := s.(store := MarkRolledBack(s.store, mutation.previous, mutation.previousCount));
    ReconcileFrame(back, Recovery, mutation.ctx);
  }

  // The context a step runs under.
  function ContextOf(s: State, l: Label): Option<Context> {
    match l
    case LoopStep(i, _) => if i < |s.loops| then Some(s.loops[i].ctx) else None
    case MoreStep(m, _) => if m < |s.mores| then Some(s.mores[m].ctx) else None
    case MutationStep(k, _) => if k < |s.mutations| then Some(s.mutations[k].ctx) else None
    case Invalidate(_, ctx) => Some(ctx)
    case _ => None
  }

  // Work begun under a context that is not current any more shows nothing.
  lemma StaleIsInert(s: State, l: Label)
    requires Next(s, l).Some? && ContextOf(s, l).Some? && !IsCurrent(s.store, ContextOf(s, l).value)
    ensures ShownBy(Next(s, l).value.store) == ShownBy(s.store)
  {
    hide PageOf, ServerMarks, Unread, IsCurrent;
  }

  // Nor at any later time, whatever happens in between.
  lemma {:induction false} StaleForever(server: Server, ls: seq<Label>, more: seq<Label>, l: Label, ctx: Context)
    requires Run(Init(server), ls).Some? && Run(Run(Init(server), ls).value, more).Some?
    requires Seen(SessionOf(Run(Init(server), ls).value.store), ctx) && !IsCurrent(Run(Init(server), ls).value.store, ctx)
    requires var s := Run(Run(Init(server), ls).value, more).value; Next(s, l).Some? && ContextOf(s, l) == Some(ctx)
    ensures var s := Run(Run(Init(server), ls).value, more).value;
            ShownBy(Next(s, l).value.store) == ShownBy(s.store)
  {
    InitBase(server);
    RunKeepsBase(Init(server), ls);
    StaleRun(Run(Init(server), ls).value, more, ctx);
    StaleIsInert(Run(Run(Init(server), ls).value, more).value, l);
  }

  lemma {:induction false} StaleRun(s: State, ls: seq<Label>, ctx: Context)
    requires BaseInv(s) && Run(s, ls).Some? && Seen(SessionOf(s.store), ctx) && !IsCurrent(s.store, ctx)
    ensures !IsCurrent(Run(s, ls).value.store, ctx)
    decreases |ls|
  {
    hide BaseInv, Next;
    if |ls| > 0 {
      NextKeepsBase(s, ls[0]);
      StaleStays(s, ls[0], ctx);
      StaleRun(Next(s, ls[0]).value, ls[1..], ctx);
    }
  }

  // A reset and a change of who is signed in each leave every context behind.
  lemma LeavingMakesStale(s: State, ctx: Context)
    requires BaseInv(s) && Seen(SessionOf(s.store), ctx)
    ensures !IsCurrent(Next(s, CallReset).value.store, ctx) && !IsCurrent(Next(s, AuthChanges).value.store, ctx)
    ensures Seen(SessionOf(Next(s, CallReset).value.store), ctx)
    ensures Seen(SessionOf(Next(s, AuthChanges).value.store), ctx)
  {
    hide LoopsInv, MoresInv, QueueInv;
  }

  // A session that is left is not come back to.
  lemma {:induction false} SameSessionAlong(s: State, ls: seq<Label>)
    requires BaseInv(s) && Run(s, ls).Some? && |ls| > 0
    requires InSession(s.store) && SessionOf(Run(s, ls).value.store) == SessionOf(s.store)
    ensures SessionOf(Next(s, ls[0]).value.store) == SessionOf(s.store) && ls[0] != CallReset
  {
    var ctx := Context(s.store.generation, s.store.auth);
    var s' := Next(s, ls[0]).value;
    NextKeepsBase(s, ls[0]);
    SessionMoves(s, ls[0]);
    if !IsCurrent(s'.store, ctx) {
      hide BaseInv, Next;
      SeenStays(s, s', ctx);
      StaleRun(s', ls[1..], ctx);
    }
  }

  lemma SeenStays(s: State, s': State, ctx: Context)
    requires Seen(SessionOf(s.store), ctx)
    requires || SessionOf(s'.store) == SessionOf(s.store)
             || SessionOf(s'.store) == SessionOf(Opened(s.store))
             || SessionOf(s'.store) == SessionOf(Reset(s.store))
             || SessionOf(s'.store) == SessionOf(s.store.(auth := s.store.auth + 1))
    ensures Seen(SessionOf(s'.store), ctx)
  {
  }
}
