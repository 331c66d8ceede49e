// Invalidations are followed up: what calls for a refresh while the reconcile loop can
// still see it is never forgotten, and what comes too late is.
module ClientFollowUp {
  import opened Prelude
  import opened ClientStore
  import opened ClientRuns
  import opened ClientInv

  // There is a reconciliation, and its loop will still look at the queue.
  predicate LoopListens(s: State) {
    match s.store.reconciliation
    case None => false
    case Some(l) => l < |s.loops| && s.loops[l].phase != Exited && s.loops[l].phase != Gone
  }

  // In this step a loop of the session starts to ask for the first page.
  predicate Begins(s: State, l: Label, onlyLive: bool) {
    Next(s, l).Some? &&
    var s' := Next(s, l).value;
    exists i :: 0 <= i < |s'.loops| && BeginsAt(s, s', i, onlyLive)
  }

  predicate BeginsAt(s: State, s': State, i: nat, onlyLive: bool)
    requires i < |s'.loops|
  {
    && s'.loops[i].phase == Asking && s'.loops[i].pages == 0 && s'.loops[i].cursor.None?
    && IsCurrent(s'.store, s'.loops[i].ctx) && (onlyLive ==> s'.loops[i].reason == Live)
    && (i < |s.loops| ==> s.loops[i].phase != Asking)
  }

  // Somewhere along the run a refresh begins.
  ghost predicate RefreshIn(s: State, ls: seq<Label>, onlyLive: bool)
    decreases |ls|
  {
    |ls| > 0 && (Begins(s, ls[0], onlyLive) || (Next(s, ls[0]).Some? && RefreshIn(Next(s, ls[0]).value, ls[1..], onlyLive)))
  }

  // A refresh is called for, and if `live` as a live one.
  predicate Called(s: State, live: bool) {
    LoopListens(s) && s.store.queued.Some? && (live ==> s.store.queued == Some(Live))
  }

  // ----- What is queued stays queued ----------------------------------------------------------------

  lemma ReconcileKeepsCalled(s: State, reason: Reason, ctx: Context, live: bool)
    requires Called(s, live)
    ensures Called(Reconcile(s, reason, ctx), live)
  {
  }

  // The loop takes the reason only to begin a refresh with it.
  lemma LoopKeepsCalled(s: State, i: nat, ok: bool, live: bool)
    requires BaseInv(s) && InSession(s.store) && Called(s, live)
    requires i < |s.loops| && StepOfLoop(s, i, ok).Some? && !Begins(s, LoopStep(i, ok), live)
    ensures Called(StepOfLoop(s, i, ok).value, live)
  {
    LoopFrame(s, i, ok);
    hide MoresInv, QueueInv, PageOf, Toasts;
    var s' := StepOfLoop(s, i, ok).value;
    if s.loops[i].phase == Between && s.store.reconciliation == Some(i) {
      ResumingBegins(s, i, ok, live);
    } else {
      PageKeepsQueue(s, i);
      hide PageArrives, Begins;
    }
  }

  lemma ResumingBegins(s: State, i: nat, ok: bool, live: bool)
    requires BaseInv(s) && InSession(s.store) && Called(s, live)
    requires i < |s.loops| && s.loops[i].phase == Between && s.store.reconciliation == Some(i)
    ensures Begins(s, LoopStep(i, ok), live)
  {
    hide MoresInv, QueueInv;
    assert BeginsAt(s, Next(s, LoopStep(i, ok)).value, i, live);
  }

  lemma PageKeepsQueue(s: State, i: nat)
    requires i < |s.loops|
    ensures forall page :: s.store.queued.Some? ==> PageArrives(s, i, page).store.queued.Some?
    ensures forall page :: s.store.queued == Some(Live) ==> PageArrives(s, i, page).store.queued == Some(Live)
    ensures forall page :: PageArrives(s, i, page).loops[i].phase != Exited
    ensures forall page :: PageArrives(s, i, page).loops[i].phase != Gone
  {
    hide PutAll, IdSet, AddPending, Discovered, IsCurrent;
  }

  lemma QueueAlone(s: State, s': State, live: bool)
    requires Called(s, live) && s'.loops == s.loops
    requires s'.store.reconciliation == s.store.reconciliation && s'.store.queued == s.store.queued
    ensures Called(s', live)
  {
  }

  lemma MoreKeepsCalled(s: State, m: nat, ok: bool, live: bool)
    requires Called(s, live) && m < |s.mores| && StepOfMore(s, m, ok).Some?
    ensures Called(StepOfMore(s, m, ok).value, live)
  {
    var more := s.mores[m];
    MoreLoopsFrame(s, m);
    ReconcileKeepsCalled(s, Recovery, more.ctx, live);
    ReconcileFrame(s, Recovery, more.ctx);
    hide Called, MoreLoops, MoreAsks, MoreEnds, PageOf, Reconcile, PutAll, IdSet, Discovered;
    var after := Reconcile(s, Recovery, more.ctx);
    var s' := StepOfMore(s, m, ok).value;
    if more.phase.Received? && ok && IsCurrent(s.store, more.ctx) && more.mutationEpoch != s.store.mutationEpoch {
      QueueAlone(after, s', live);
    } else {
      QueueAlone(s, s', live);
    }
  }

  lemma MutationKeepsCalled(s: State, k: nat, ok: bool, live: bool)
    requires Called(s, live) && k < |s.mutations| && StepOfMutation(s, k, ok).Some?
    ensures Called(StepOfMutation(s, k, ok).value, live)
  {
    hide Called, Reconcile, ShowsUnread, Readings, Unread, MarkIds, Restore;
    var s' := StepOfMutation(s, k, ok).value;
    var mutation := s.mutations[k];
    var ids := Targets(mutation.target);
    if mutation.phase.Processed? && ok && IsCurrent(s.store, mutation.ctx) {
      var marked := s.(store := MarkConfirmed(s.store, ids, mutation.phase.unread), confirmed := s.confirmed + ids);
      QueueAlone(s, marked, live);
      hide MarkConfirmed;
      ReconcileFrame(marked, Recovery, mutation.ctx);
      ReconcileKeepsCalled(marked, Recovery, mutation.ctx, live);
      var after := Reconcile(marked, Recovery, mutation.ctx);
      QueueAlone(marked, Settle(marked, k, true), live);
      QueueAlone(after, Settle(after, k, true), live);
    } else if (mutation.phase.Processed? || mutation.phase == Sent) && !ok && IsCurrent(s.store, mutation.ctx) {
      var back := s.(store := MarkRolledBack(s.store, mutation.previous, mutation.previousCount));
      QueueAlone(s, back, live);
      ReconcileFrame(back, Recovery, mutation.ctx);
      ReconcileKeepsCalled(back, Recovery, mutation.ctx, live);
      QueueAlone(Reconcile(back, Recovery, mutation.ctx), s', live);
    } else {
      QueueAlone(s, s', live);
    }
  }

  lemma OtherKeepsCalled(s: State, l: Label, live: bool)
    requires BaseInv(s) && Called(s, live) && Effect(s, l).Some? && l != CallReset
    requires !l.LoopStep? && !l.MoreStep? && !l.MutationStep?
    ensures Called(Effect(s, l).value, live)
  {
    hide Reconcile, ShowsUnread, Without, MoreLoops, LoopsInv, MoresInv, QueueInv;
    match l
    case CallReconcile(reason) =>
      if SessionContext(s.store).Some? {
        ReconcileKeepsCalled(s.(store := Opened(s.store)), reason, SessionContext(s.store).value, live);
      }
    case Invalidate(reason, ctx) => ReconcileKeepsCalled(s, reason, ctx, live);
    case CallLoadMore =>
      if SessionContext(s.store).Some? { MoreLoopsFrame(MoreBegun(s, SessionContext(s.store).value), |s.mores|); }
    case _ =>
  }

  lemma NextKeepsCalled(s: State, l: Label, live: bool)
    requires BaseInv(s) && InSession(s.store) && Called(s, live) && Next(s, l).Some?
    requires l != CallReset && !Begins(s, l, live)
    ensures Called(Next(s, l).value, live)
  {
    hide BaseInv, Called, StepOfLoop, StepOfMore, StepOfMutation, LoadMoreCalled, Begins;
    match l {
      case LoopStep(i, ok) => LoopKeepsCalled(s, i, ok, live);
      case MoreStep(m, ok) => MoreKeepsCalled(s, m, ok, live);
      case MutationStep(k, ok) => MutationKeepsCalled(s, k, ok, live);
      case _ => OtherKeepsCalled(s, l, live);
    }
    hide Effect;
    QueueAlone(Effect(s, l).value, Next(s, l).value, live);
  }

  // While the session lasts, a refresh that is called for has begun or is still called
  // for. Other reasons may be merged into a live one, which stays live.
  lemma {:induction false} CalledUntilBegun(s: State, ls: seq<Label>, live: bool)
    requires BaseInv(s) && InSession(s.store) && Called(s, live) && Run(s, ls).Some?
    requires SessionOf(Run(s, ls).value.store) == SessionOf(s.store)
    ensures RefreshIn(s, ls, live) || Called(Run(s, ls).value, live)
    decreases |ls|
  {
    if |ls| > 0 && !Begins(s, ls[0], live) {
      NextKeepsBase(s, ls[0]);
      SameSessionAlong(s, ls);
      NextKeepsCalled(s, ls[0], live);
      hide BaseInv, Next, Called, Begins;
      CalledUntilBegun(Next(s, ls[0]).value, ls[1..], live);
    }
  }

  // ----- Invalidations ---------------------------------------------------------------------------------

  // An invalidation of the session, for whatever reason, begins a refresh at once or
  // calls for one if the loop listens.
  lemma InvalidationCalls(s: State, reason: Reason, ctx: Context)
    requires BaseInv(s) && IsCurrent(s.store, ctx) && (s.store.reconciliation.None? || LoopListens(s))
    ensures var s' := Next(s, Invalidate(reason, ctx)).value;
            Begins(s, Invalidate(reason, ctx), reason == Live) || Called(s', reason == Live)
    ensures SessionOf(Next(s, Invalidate(reason, ctx)).value.store) == SessionOf(s.store) && InSession(s.store)
  {
    hide LoopsInv, MoresInv, QueueInv;
    var s' := Next(s, Invalidate(reason, ctx)).value;
    if s.store.reconciliation.None? {
      assert BeginsAt(s, s', |s.loops|, reason == Live);
    }
  }

  // It is followed up: for as long as the session lasts a refresh has begun, at the
  // invalidation or after it, or is still called for; for a live event, as a live one.
  lemma InvalidationFollowedUp(server: Server, ls: seq<Label>, reason: Reason, ctx: Context, more: seq<Label>)
    requires Run(Init(server), ls).Some? && IsCurrent(Run(Init(server), ls).value.store, ctx)
    requires var s := Run(Init(server), ls).value; s.store.reconciliation.None? || LoopListens(s)
    requires Next(Run(Init(server), ls).value, Invalidate(reason, ctx)).Some?
    requires Run(Next(Run(Init(server), ls).value, Invalidate(reason, ctx)).value, more).Some?
    requires var s' := Next(Run(Init(server), ls).value, Invalidate(reason, ctx)).value;
             SessionOf(Run(s', more).value.store) == SessionOf(s'.store)
    ensures var s := Run(Init(server), ls).value;
            var s' := Next(s, Invalidate(reason, ctx)).value;
            || Begins(s, Invalidate(reason, ctx), reason == Live)
            || RefreshIn(s', more, reason == Live)
            || Called(Run(s', more).value, reason == Live)
  {
    InitBase(server);
    RunKeepsBase(Init(server), ls);
    var s := Run(Init(server), ls).value;
    hide Run;
    FollowedUp(s, reason, ctx, more);
  }

  lemma FollowedUp(s: State, reason: Reason, ctx: Context, more: seq<Label>)
    requires BaseInv(s) && IsCurrent(s.store, ctx) && (s.store.reconciliation.None? || LoopListens(s))
    requires Next(s, Invalidate(reason, ctx)).Some? && Run(Next(s, Invalidate(reason, ctx)).value, more).Some?
    requires var s' := Next(s, Invalidate(reason, ctx)).value;
             SessionOf(Run(s', more).value.store) == SessionOf(s'.store)
    ensures var s' := Next(s, Invalidate(reason, ctx)).value;
            || Begins(s, Invalidate(reason, ctx), reason == Live)
            || RefreshIn(s', more, reason == Live)
            || Called(Run(s', more).value, reason == Live)
  {
    InvalidationCalls(s, reason, ctx);
    NextKeepsBase(s, Invalidate(reason, ctx));
    var s' := Next(s, Invalidate(reason, ctx)).value;
    assert InSession(s'.store);
    hide BaseInv, Next, Called, Begins, Run, RefreshIn;
    if Called(s', reason == Live) { CalledUntilBegun(s', more, reason == Live); }
  }

  // ----- Exactly when ------------------------------------------------------------------------------------

  // No continuation of the session comes to rest, with no reconciliation left, without a
  // refresh having begun since the invalidation.
  ghost predicate Honoured(s: State, reason: Reason, ctx: Context)
    requires Next(s, Invalidate(reason, ctx)).Some?
  {
    var s' := Next(s, Invalidate(reason, ctx)).value;
    || Begins(s, Invalidate(reason, ctx), reason == Live)
    || forall more :: ComesToRest(s', more) ==> RefreshIn(s', more, reason == Live)
  }

  ghost predicate ComesToRest(s: State, more: seq<Label>) {
    Run(s, more).Some? && SessionOf(Run(s, more).value.store) == SessionOf(s.store)
    && Run(s, more).value.store.reconciliation.None?
  }

  // An invalidation is honoured exactly when there is no reconciliation or its loop still
  // listens: it is lost exactly in the gap between the end of the loop and .finally.
  lemma HonouredExactly(server: Server, ls: seq<Label>, reason: Reason, ctx: Context)
    requires Run(Init(server), ls).Some? && IsCurrent(Run(Init(server), ls).value.store, ctx)
    ensures var s := Run(Init(server), ls).value;
            && Next(s, Invalidate(reason, ctx)).Some?
            && (Honoured(s, reason, ctx) <==> s.store.reconciliation.None? || LoopListens(s))
  {
    InitBase(server);
    RunKeepsBase(Init(server), ls);
    var s := Run(Init(server), ls).value;
    hide Run;
    if s.store.reconciliation.None? || LoopListens(s) {
      HonouredIfSeen(s, reason, ctx);
    } else {
      LostIfLate(s, reason, ctx);
    }
  }

  lemma HonouredIfSeen(s: State, reason: Reason, ctx: Context)
    requires BaseInv(s) && IsCurrent(s.store, ctx) && (s.store.reconciliation.None? || LoopListens(s))
    ensures Next(s, Invalidate(reason, ctx)).Some? && Honoured(s, reason, ctx)
  {
    var s' := Next(s, Invalidate(reason, ctx)).value;
    forall more | ComesToRest(s', more)
      ensures Begins(s, Invalidate(reason, ctx), reason == Live) || RefreshIn(s', more, reason == Live)
    {
      hide BaseInv, Next, Run, RefreshIn, Begins;
      FollowedUp(s, reason, ctx, more);
    }
    hide BaseInv, Begins, RefreshIn, Run;
  }

  // In the gap the event is queued, the clean-up drops it, and no loop has begun.
  lemma GapDrops(s: State, reason: Reason, ctx: Context)
    requires BaseInv(s) && IsCurrent(s.store, ctx) && s.store.reconciliation.Some? && !LoopListens(s)
    ensures Next(s, Invalidate(reason, ctx)).Some? && !Begins(s, Invalidate(reason, ctx), false)
    ensures var s1 := Next(s, Invalidate(reason, ctx)).value;
            var l := LoopStep(s.store.reconciliation.value, true);
            && Next(s1, l).Some? && !Begins(s1, l, false)
            && var s2 := Next(s1, l).value;
               && s2.store.reconciliation.None? && s2.store.queued.None? && |s2.loops| == |s.loops|
               && SessionOf(s2.store) == SessionOf(s1.store)
  {
    hide MoresInv, QueueInv;
  }

  lemma LostIfLate(s: State, reason: Reason, ctx: Context)
    requires BaseInv(s) && IsCurrent(s.store, ctx) && s.store.reconciliation.Some? && !LoopListens(s)
    ensures Next(s, Invalidate(reason, ctx)).Some? && !Honoured(s, reason, ctx)
  {
    GapDrops(s, reason, ctx);
    var s1 := Next(s, Invalidate(reason, ctx)).value;
    var l := LoopStep(s.store.reconciliation.value, true);
    AnyLive(s, Invalidate(reason, ctx), reason == Live);
    AnyLive(s1, l, reason == Live);
    hide BaseInv, Begins, Next;
    assert [l][1..] == [] && [l][0] == l;
    assert Run(Next(s1, l).value, []) == Some(Next(s1, l).value);
    assert Run(s1, [l]) == Some(Next(s1, l).value);
    assert !RefreshIn(Next(s1, l).value, [], reason == Live);
    assert !RefreshIn(s1, [l], reason == Live);
    assert ComesToRest(s1, [l]);
  }

  lemma AnyLive(s: State, l: Label, live: bool)
    ensures Begins(s, l, live) ==> Begins(s, l, false)
  {
    if Begins(s, l, live) {
      var i :| 0 <= i < |Next(s, l).value.loops| && BeginsAt(s, Next(s, l).value, i, live);
      assert BeginsAt(s, Next(s, l).value, i, false);
    }
  }

  // A run that meets the gap: a refresh fails, the loop ends, a live event comes, and
  // the clean-up leaves nothing to fetch what it announced.
  lemma LostInTheGap() returns (ls: seq<Label>)
    ensures var server := Server([], {});
            && |ls| == 5 && ls[3] == Invalidate(Live, Context(0, 0))
            && Run(Init(server), ls[..3]).Some? && Run(Init(server), ls).Some?
            && IsCurrent(Run(Init(server), ls[..3]).value.store, Context(0, 0))
            && var s := Run(Init(server), ls).value;
            && IsCurrent(s.store, Context(0, 0))
            && s.store.reconciliation.None? && s.store.queued.None?
            && |s.loops| == 1 && s.loops[0].phase == Gone && s.loops[0].reason == Initial
  {
    var gap := [CallReconcile(Initial), LoopStep(0, false), LoopStep(0, true)];
    var rest := [Invalidate(Live, Context(0, 0)), LoopStep(0, true)];
    var s0 := Init(Server([], {}));
    var s3 := UpToTheGap(s0, gap);
    var s5 := CleanUpDrops(s3, rest);
    hide Run;
    RunOn(s0, gap, rest);
    assert (gap + rest)[..3] == gap;
    return gap + rest;
  }

  lemma UpToTheGap(s: State, ls: seq<Label>) returns (s': State)
    requires s == Init(Server([], {}))
    requires ls == [CallReconcile(Initial), LoopStep(0, false), LoopStep(0, true)]
    ensures Run(s, ls) == Some(s')
    ensures && IsCurrent(s'.store, Context(0, 0)) && s'.store.reconciliation == Some(0) && s'.store.queued.None?
            && |s'.loops| == 1 && s'.loops[0].phase == Exited && s'.loops[0].reason == Initial
  {
    var s1 := Next(s, ls[0]).value;
    assert |s1.loops| == 1 && s1.loops[0] == Begun(s.store, Context(0, 0), Initial);
    var s2 := Next(s1, ls[1]).value;
    assert s2.loops[0].phase == Between && s2.store == s1.store;
    s' := Next(s2, ls[2]).value;
    assert s'.loops[0].phase == Exited;
    assert ls[1..][1..] == [ls[2]] && ls[1..][0] == ls[1];
    hide Next;
    assert Run(s', []) == Some(s');
    assert Run(s2, [ls[2]]) == Some(s');
    assert Run(s1, ls[1..]) == Some(s');
  }

  lemma CleanUpDrops(s: State, ls: seq<Label>) returns (s': State)
    requires ls == [Invalidate(Live, Context(0, 0)), LoopStep(0, true)]
    requires IsCurrent(s.store, Context(0, 0)) && s.store.reconciliation == Some(0)
    requires |s.loops| == 1 && s.loops[0].phase == Exited && s.loops[0].reason == Initial
    ensures Run(s, ls) == Some(s')
    ensures && IsCurrent(s'.store, Context(0, 0)) && s'.store.reconciliation.None? && s'.store.queued.None?
            && |s'.loops| == 1 && s'.loops[0].phase == Gone && s'.loops[0].reason == Initial
  {
    var s1 := Next(s, ls[0]).value;
    s' := Next(s1, ls[1]).value;
    assert ls[1..] == [ls[1]];
    hide Next;
    assert Run(s', []) == Some(s');
    assert Run(s1, [ls[1]]) == Some(s');
  }
}
