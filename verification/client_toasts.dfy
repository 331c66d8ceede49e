// Toasts, and the live events that lead to them.
module ClientToasts {
  import opened Prelude
  import opened ClientStore
  import opened ClientRuns
  import opened ClientInv

  // ----- Each id toasted once, and only when it came live -----------------------------------

  predicate CameLive(o: Origin) {
    o.ByRefresh? && o.reason == Live
  }

  function ShownIds(shown: seq<Toast>): seq<Id> {
    seq(|shown|, i requires 0 <= i < |shown| => shown[i].id)
  }

  predicate NoRepeats(ids: seq<Id>) {
    forall i, j :: 0 <= i < j < |ids| ==> ids[i] != ids[j]
  }

  // Shown or about to be shown: exactly the ids that a live refresh discovered, each
  // of them once.
  ghost predicate LiveIds(ids: seq<Id>, origins: map<Id, Origin>) {
    NoRepeats(ids) && forall id :: id in ids <==> id in origins && CameLive(origins[id])
  }

  ghost predicate Discoveries(origins: map<Id, Origin>, clock: nat) {
    forall id :: id in origins && origins[id].ByRefresh? ==> origins[id].at < clock
  }

  // The account load that lets a toast through began after its discovery.
  ghost predicate InOrder(shown: seq<Toast>, origins: map<Id, Origin>) {
    forall i :: 0 <= i < |shown| ==>
      && shown[i].id in origins && CameLive(origins[shown[i].id])
      && origins[shown[i].id].at <= shown[i].since < shown[i].at
  }

  ghost predicate FoundBy(pending: seq<Id>, origins: map<Id, Origin>, since: nat) {
    forall id :: id in pending ==> id in origins && origins[id].ByRefresh? && origins[id].at <= since
  }

  ghost predicate LoadsInOrder(s: State) {
    forall l :: 0 <= l < |s.loops| && IsCurrent(s.store, s.loops[l].ctx) && s.loops[l].phase.LoadingAccounts? ==>
      s.loops[l].phase.since < s.clock && FoundBy(s.store.pendingLive, s.origins, s.loops[l].phase.since)
  }

  ghost predicate ToastInv(s: State) {
    && s.store.known == s.origins.Keys
    && LiveIds(ShownIds(s.shown) + s.store.pendingLive, s.origins)
    && Discoveries(s.origins, s.clock)
    && InOrder(s.shown, s.origins)
    && (forall id :: id in s.store.toasts ==> id in ShownIds(s.shown))
    && LoadsInOrder(s)
  }

  // ----- Rows that become known ----------------------------------------------------------------

  lemma {:induction false} AddPendingAdds(before: seq<Id>, pending: seq<Id>, rows: seq<Item>, known: set<Id>)
    requires NoRepeats(before + pending) && forall id :: id in before + pending ==> id in known
    ensures var after := AddPending(pending, rows, known);
            && NoRepeats(before + after)
            && (forall id :: id in before + after <==> id in before + pending || (id in IdSet(rows) && id !in known))
            && (forall id :: id in after <==> id in pending || (id in IdSet(rows) && id !in known))
    decreases |rows|
  {
    if |rows| > 0 {
      var n := |rows| - 1;
      AddPendingAdds(before, pending, rows[..n], known);
      var mid := AddPending(pending, rows[..n], known);
      var after := AddPending(pending, rows, known);
      var id := rows[n].id;
      assert forall x :: x in IdSet(rows) <==> x in IdSet(rows[..n]) || x == id;
      if after != mid {
        assert id !in before + mid;
        assert before + after == before + mid + [id];
      }
    }
  }

  // A refresh adds its new rows: to the live ids if it is live, and to none otherwise.
  lemma RefreshedIds(s: State, l: nat, rows: seq<Item>, page: Page, pages: nat)
    requires ToastInv(s) && l < |s.loops|
    ensures var s' := Refreshed(s, l, rows, page, pages);
            && LiveIds(ShownIds(s'.shown) + s'.store.pendingLive, s'.origins)
            && (forall id :: id in s'.store.pendingLive ==> id in s'.origins && CameLive(s'.origins[id]))
            && Discoveries(s'.origins, s.clock + 1)
  {
    hide LoadsInOrder, InOrder;
    var s' := Refreshed(s, l, rows, page, pages);
    var ids := ShownIds(s.shown);
    assert forall id :: id in ids + s.store.pendingLive ==> id in s.store.known;
    AddPendingAdds(ids, s.store.pendingLive, rows, s.store.known);
    assert forall id :: id in s'.store.pendingLive ==> id in ids + s'.store.pendingLive;
    hide IdSet, ShownIds, NoRepeats, AddPending;
  }

  lemma RefreshedKeepsToasts(s: State, l: nat, rows: seq<Item>, page: Page, pages: nat)
    requires BaseInv(s) && ToastInv(s) && l < |s.loops| && IsCurrent(s.store, s.loops[l].ctx) && s.loops[l].phase != Gone
    ensures var s' := Refreshed(s, l, rows, page, pages); ToastInv(s'.(clock := s.clock + 1))
  {
    var s' := Refreshed(s, l, rows, page, pages).(clock := s.clock + 1);
    RefreshedIds(s, l, rows, page, pages);
    assert s'.store.known == s'.origins.Keys by { hide LiveIds, LoadsInOrder, InOrder; }
    assert InOrder(s'.shown, s'.origins) by { hide LiveIds, LoadsInOrder; }
    hide LiveIds, InOrder, MoresInv, QueueInv, AddPending, IdSet, ShownIds;
    forall k | 0 <= k < |s'.loops| && IsCurrent(s'.store, s'.loops[k].ctx) && s'.loops[k].phase.LoadingAccounts?
      ensures s'.loops[k].phase.since < s'.clock && FoundBy(s'.store.pendingLive, s'.origins, s'.loops[k].phase.since)
    {
      assert k == l;
    }
  }

  // ----- Every step --------------------------------------------------------------------------------

  // Only these parts matter here.
  lemma ApartFromToasts(s: State, s': State)
    requires ToastInv(s)
    requires s'.store.known == s.store.known && s'.origins == s.origins && s'.shown == s.shown
    requires s'.store.pendingLive == s.store.pendingLive && s'.store.toasts == s.store.toasts && s'.clock >= s.clock
    requires SessionOf(s'.store) == SessionOf(s.store)
    requires forall l :: 0 <= l < |s'.loops| && s'.loops[l].phase.LoadingAccounts? ==>
               l < |s.loops| && s'.loops[l] == s.loops[l]
    ensures ToastInv(s')
  {
    hide LiveIds, InOrder, FoundBy;
  }

  lemma ReconcileKeepsToasts(s: State, reason: Reason, ctx: Context)
    requires ToastInv(s)
    ensures ToastInv(Reconcile(s, reason, ctx))
  {
    ReconcileFrame(s, reason, ctx);
    hide ToastInv;
    ApartFromToasts(s, Reconcile(s, reason, ctx));
  }

  lemma PublishedKeepsToasts(s: State, l: nat, applied: bool)
    requires ToastInv(s) && l < |s.loops| && s.loops[l].phase.LoadingAccounts?
    ensures ToastInv(AccountsLoaded(s, l, applied))
  {
    var s' := AccountsLoaded(s, l, applied);
    if applied && IsCurrent(s.store, s.loops[l].ctx) {
      var since := s.loops[l].phase.since;
      var pending := s.store.pendingLive;
      assert since < s.clock && FoundBy(pending, s.origins, since) by { hide LiveIds, InOrder; }
      assert ShownIds(s'.shown) == ShownIds(s.shown) + pending;
      assert ShownIds(s'.shown) + [] == ShownIds(s.shown) + pending;
      assert InOrder(s'.shown, s'.origins) by { PublishedInOrder(s, since); }
      hide LiveIds, InOrder, Discoveries, IsCurrent;
      assert forall id :: id in s'.store.toasts ==> id in ShownIds(s'.shown) by { hide LoadsInOrder, ShownIds; }
    } else {
      hide ToastInv;
      ApartFromToasts(s, s');
    }
  }

  lemma PublishedInOrder(s: State, since: nat)
    requires ToastInv(s) && since < s.clock && FoundBy(s.store.pendingLive, s.origins, since)
    ensures InOrder(s.shown + Toasts(s.store.pendingLive, since, s.clock), s.origins)
  {
    hide LoadsInOrder, NoRepeats;
    var ids := ShownIds(s.shown) + s.store.pendingLive;
    forall id | id in s.store.pendingLive
      ensures id in s.origins && CameLive(s.origins[id])
    {
      assert id in ids;
    }
  }

  lemma PageKeepsToasts(s: State, l: nat, page: Page)
    requires BaseInv(s) && ToastInv(s) && l < |s.loops| && s.loops[l].phase == Answered(page)
    ensures ToastInv(PageArrives(s, l, page).(clock := s.clock + 1))
  {
    hide ToastInv, BaseInv, Refreshed, PutAll, Merged;
    var loop := s.loops[l];
    var s' := PageArrives(s, l, page);
    var pages := loop.pages + 1;
    if IsCurrent(s.store, loop.ctx) && loop.epoch == s.store.mutationEpoch
       && !(pages < s.store.loadedPages && page.next.Some?) {
      RefreshedKeepsToasts(s, l, PutAll(loop.rows, page.items), page, pages);
    } else {
      ApartFromToasts(s, s'.(clock := s.clock + 1));
    }
  }

  lemma LoopKeepsToasts(s: State, l: nat, ok: bool)
    requires BaseInv(s) && ToastInv(s) && l < |s.loops| && StepOfLoop(s, l, ok).Some?
    ensures ToastInv(StepOfLoop(s, l, ok).value.(clock := s.clock + 1))
  {
    hide ToastInv, BaseInv, PageArrives, AccountsLoaded, PageOf, IsCurrent;
    var s' := StepOfLoop(s, l, ok).value;
    match s.loops[l].phase
    case Answered(page) =>
      if ok { PageKeepsToasts(s, l, page); } else { ApartFromToasts(s, s'.(clock := s.clock + 1)); }
    case LoadingAccounts(_) =>
      PublishedKeepsToasts(s, l, ok);
      LoopFrame(s, l, ok);
      ApartFromToasts(s', s'.(clock := s.clock + 1));
    case Gone =>
    case _ => ApartFromToasts(s, s'.(clock := s.clock + 1));
  }

  // Rows that a further page brings are known from then on, and never toasted.
  lemma MoreAppliedKeepsToasts(s: State, m: nat, page: Page)
    requires ToastInv(s) && m < |s.mores|
    ensures ToastInv(WithMore(s, m, s.mores[m].(phase := Finished)).(
                       store := MoreApplied(s.store, page), origins := Discovered(s.origins, page.items, ByMore)))
  {
    hide NoRepeats, ShownIds, PutAll, IdSet;
  }

  lemma MoreKeepsToasts(s: State, m: nat, ok: bool)
    requires ToastInv(s) && m < |s.mores| && StepOfMore(s, m, ok).Some?
    ensures ToastInv(StepOfMore(s, m, ok).value)
  {
    hide ToastInv, MoreLoops, MoreAsks, MoreEnds, PageOf, MoreApplied, Discovered, Reconcile;
    var s' := StepOfMore(s, m, ok).value;
    var more := s.mores[m];
    MoreLoopsFrame(s, m);
    ApartFromToasts(s, MoreLoops(s, m));
    ApartFromToasts(s, MoreAsks(s, m));
    ApartFromToasts(s, MoreEnds(s, m));
    match more.phase
    case Received(page) =>
      if ok && IsCurrent(s.store, more.ctx) && more.mutationEpoch != s.store.mutationEpoch {
        ReconcileFrame(s, Recovery, more.ctx);
        ReconcileKeepsToasts(s, Recovery, more.ctx);
        ApartFromToasts(Reconcile(s, Recovery, more.ctx), s');
      } else if ok && IsCurrent(s.store, more.ctx) && more.readEpoch == s.store.readEpoch {
        MoreAppliedKeepsToasts(s, m, page);
      }
    case Requested => if ok { ApartFromToasts(s, s'); }
    case _ =>
  }

  lemma OpeningKeepsToasts(s: State)
    requires BaseInv(s) && ToastInv(s)
    ensures ToastInv(s.(store := Opened(s.store)))
  {
    hide LiveIds, InOrder, FoundBy, MoresInv, QueueInv;
  }

  lemma LeavingKeepsToasts(s: State)
    requires BaseInv(s) && ToastInv(s)
    ensures ToastInv(WasReset(s)) && ToastInv(s.(store := s.store.(auth := s.store.auth + 1)))
  {
    hide FoundBy, MoresInv, QueueInv;
  }

  lemma MutationSucceedsKeepsToasts(s: State, k: nat, unread: nat)
    requires ToastInv(s) && k < |s.mutations|
    ensures ToastInv(MutationSucceeds(s, k, unread))
  {
    hide ToastInv, Reconcile, MarkIds;
    var mutation := s.mutations[k];
    var ids := Targets(mutation.target);
    if IsCurrent(s.store, mutation.ctx) {
      var marked := s.(store := MarkConfirmed(s.store, ids, unread), confirmed := s.confirmed + ids);
      ReconcileFrame(marked, Recovery, mutation.ctx);
      ApartFromToasts(s, marked);
      hide MarkConfirmed;
      ReconcileKeepsToasts(marked, Recovery, mutation.ctx);
      var after := Reconcile(marked, Recovery, mutation.ctx);
      ApartFromToasts(marked, Settle(marked, k, true));
      ApartFromToasts(after, Settle(after, k, true));
    } else {
      ApartFromToasts(s, Settle(s, k, true));
    }
  }

  lemma MutationFailsKeepsToasts(s: State, k: nat)
    requires ToastInv(s) && k < |s.mutations|
    ensures ToastInv(MutationFails(s, k))
  {
    hide ToastInv, Reconcile, Restore;
    var mutation := s.mutations[k];
    if IsCurrent(s.store, mutation.ctx) {
      var back := s.(store := MarkRolledBack(s.store, mutation.previous, mutation.previousCount));
      ReconcileFrame(back, Recovery, mutation.ctx);
      ApartFromToasts(s, back);
      ReconcileKeepsToasts(back, Recovery, mutation.ctx);
      ApartFromToasts(Reconcile(back, Recovery, mutation.ctx), MutationFails(s, k));
    } else {
      ApartFromToasts(s, Settle(s, k, false));
    }
  }

  lemma MutationKeepsToasts(s: State, k: nat, ok: bool)
    requires ToastInv(s) && k < |s.mutations| && StepOfMutation(s, k, ok).Some?
    ensures ToastInv(StepOfMutation(s, k, ok).value)
  {
    hide ToastInv, MutationSucceeds, MutationFails, ShowsUnread, Readings, Unread, MarkIds, IsCurrent;
    var s' := StepOfMutation(s, k, ok).value;
    match s.mutations[k].phase
    case Processed(unread) =>
      if ok { MutationSucceedsKeepsToasts(s, k, unread); } else { MutationFailsKeepsToasts(s, k); }
    case Sent => if ok { ApartFromToasts(s, s'); } else { MutationFailsKeepsToasts(s, k); }
    case Waiting => ApartFromToasts(s, s');
    case Recovering(_) => ApartFromToasts(s, s');
    case Settled(_) =>
  }

  lemma EnqueuedKeepsToasts(s: State, target: Target)
    requires BaseInv(s) && ToastInv(s)
    ensures ToastInv(Enqueued(s, target))
  {
    OpeningKeepsToasts(s);
    hide ToastInv, BaseInv;
    ApartFromToasts(s.(store := Opened(s.store)), Enqueued(s, target));
  }

  lemma LoadMoreKeepsToasts(s: State)
    requires BaseInv(s) && ToastInv(s)
    ensures ToastInv(LoadMoreCalled(s))
  {
    hide ToastInv, BaseInv;
    OpeningKeepsToasts(s);
    if s.store.nextCursor.Some? && !s.store.loadingMore && SessionContext(s.store).Some? {
      var begun := MoreBegun(s, SessionContext(s.store).value);
      ApartFromToasts(s.(store := Opened(s.store)), begun);
      MoreLoopsFrame(begun, |s.mores|);
      hide MoreLoops, Opened, SessionContext;
      ApartFromToasts(begun, MoreLoops(begun, |s.mores|));
    }
  }

  lemma {:induction false} WithoutIsPart(ids: seq<Id>, id: Id)
    ensures forall x :: x in Without(ids, id) ==> x in ids
  {
    if |ids| > 0 { WithoutIsPart(ids[..|ids| - 1], id); }
  }

  lemma DismissKeepsToasts(s: State, id: Id)
    requires ToastInv(s)
    ensures ToastInv(s.(store := s.store.(toasts := Without(s.store.toasts, id))))
  {
    WithoutIsPart(s.store.toasts, id);
    hide LiveIds, InOrder, FoundBy, Without;
  }

  lemma OtherKeepsToasts(s: State, l: Label)
    requires BaseInv(s) && ToastInv(s) && Effect(s, l).Some?
    requires !l.LoopStep? && !l.MoreStep? && !l.MutationStep? && !l.CallLoadMore?
    ensures ToastInv(Effect(s, l).value)
  {
    hide ToastInv, BaseInv, Reconcile, Enqueued, ShowsUnread, Without;
    match l
    case AuthChanges => LeavingKeepsToasts(s);
    case CallReset => LeavingKeepsToasts(s);
    case CallReconcile(reason) =>
      OpeningKeepsToasts(s);
      if SessionContext(s.store).Some? {
        ReconcileKeepsToasts(s.(store := Opened(s.store)), reason, SessionContext(s.store).value);
      }
    case Invalidate(reason, ctx) => ReconcileKeepsToasts(s, reason, ctx);
    case CallMarkRead(id) => EnqueuedKeepsToasts(s, One(id));
    case CallMarkAllRead =>
      EnqueuedKeepsToasts(s, Every(set i | 0 <= i < |s.store.items| && !s.store.items[i].read :: s.store.items[i].id));
    case Dismiss(id) => DismissKeepsToasts(s, id);
    case Insert(_, _) => ApartFromToasts(s, Effect(s, l).value);
    case ReadElsewhere(_) => ApartFromToasts(s, Effect(s, l).value);
    case _ =>
  }

  lemma NextKeepsToasts(s: State, l: Label)
    requires BaseInv(s) && ToastInv(s) && Next(s, l).Some?
    ensures ToastInv(Next(s, l).value)
  {
    hide BaseInv, ToastInv, StepOfLoop, StepOfMore, StepOfMutation, LoadMoreCalled;
    if l.LoopStep? {
      LoopKeepsToasts(s, l.l, l.ok);
      return;
    }
    match l {
      case MoreStep(m, ok) => MoreKeepsToasts(s, m, ok); MoreFrame(s, m, ok);
      case MutationStep(k, ok) => MutationKeepsToasts(s, k, ok);
      case CallLoadMore => LoadMoreKeepsToasts(s);
      case _ => OtherKeepsToasts(s, l);
    }
    ClockStays(s, l);
    hide Effect;
    ApartFromToasts(Effect(s, l).value, Next(s, l).value);
  }

  lemma ClockStays(s: State, l: Label)
    requires Effect(s, l).Some?
    ensures Effect(s, l).value.clock == s.clock
  {
    hide StepOfLoop, StepOfMore, Reconcile, MoreLoops;
    match l
    case LoopStep(i, ok) => LoopFrame(s, i, ok);
    case MoreStep(m, ok) => MoreFrame(s, m, ok);
    case MutationStep(k, ok) => MutationClock(s, k, ok);
    case CallLoadMore =>
      if SessionContext(s.store).Some? {
        MoreLoopsFrame(MoreBegun(s, SessionContext(s.store).value), |s.mores|);
      }
    case CallReconcile(reason) =>
      if SessionContext(s.store).Some? {
        ReconcileFrame(s.(store := Opened(s.store)), reason, SessionContext(s.store).value);
      }
    case Invalidate(reason, ctx) => ReconcileFrame(s, reason, ctx);
    case _ =>
  }

  lemma MutationClock(s: State, k: nat, ok: bool)
    requires k < |s.mutations| && StepOfMutation(s, k, ok).Some?
    ensures StepOfMutation(s, k, ok).value.clock == s.clock
  {
    hide ShowsUnread, Readings, Unread;
  }

  lemma {:induction false} RunKeepsToasts(s: State, ls: seq<Label>)
    requires BaseInv(s) && ToastInv(s) && Run(s, ls).Some?
    ensures ToastInv(Run(s, ls).value)
    decreases |ls|
  {
    hide BaseInv, ToastInv, Next;
    if |ls| > 0 {
      NextKeepsBase(s, ls[0]);
      NextKeepsToasts(s, ls[0]);
      RunKeepsToasts(Next(s, ls[0]).value, ls[1..]);
    }
  }

  // In a session every id is toasted at most once; those toasted or waiting to be are
  // exactly the ids first seen by a live refresh, so none of the baseline, of a further
  // page or of another refresh; and the account load that let a toast through began no
  // earlier than the refresh that found it was applied.
  lemma ToastedOnce(server: Server, ls: seq<Label>)
    requires Run(Init(server), ls).Some?
    ensures ToastsAreRight(Run(Init(server), ls).value)
  {
    hide BaseInv, ToastInv, ToastsAreRight;
    InitBase(server);
    InitToasts(server);
    RunKeepsToasts(Init(server), ls);
    hide Run;
    OncePerSession(Run(Init(server), ls).value);
  }

  lemma InitToasts(server: Server)
    ensures ToastInv(Init(server))
  {
    var s := Init(server);
    assert ShownIds(s.shown) + s.store.pendingLive == [];
    assert s.store.known == s.origins.Keys;
    assert NoRepeats([]);
    hide ShownIds;
  }

  ghost predicate ToastsAreRight(s: State) {
    && (forall i, j :: 0 <= i < j < |s.shown| ==> s.shown[i].id != s.shown[j].id)
    && (forall i :: 0 <= i < |s.shown| ==>
          && s.shown[i].id !in s.store.pendingLive
          && s.shown[i].id in s.origins && CameLive(s.origins[s.shown[i].id])
          && s.origins[s.shown[i].id].at <= s.shown[i].since < s.shown[i].at)
    && (forall id :: id in s.origins && CameLive(s.origins[id]) ==>
          id in s.store.pendingLive || exists i :: 0 <= i < |s.shown| && s.shown[i].id == id)
    && (forall id :: id in s.store.toasts ==> exists i :: 0 <= i < |s.shown| && s.shown[i].id == id)
  }

  lemma OncePerSession(s: State)
    requires ToastInv(s)
    ensures ToastsAreRight(s)
  {
    hide LoadsInOrder;
    var n := |s.shown|;
    var all := ShownIds(s.shown) + s.store.pendingLive;
    assert forall i :: 0 <= i < n ==> all[i] == s.shown[i].id;
    assert forall k :: 0 <= k < |s.store.pendingLive| ==> all[n + k] == s.store.pendingLive[k];
  }

  // ----- Which discoveries are toasted --------------------------------------------------------

  // An id first seen in this step counts as live exactly when it is on the last page of
  // a refresh that was begun for a live event, after the baseline.
  lemma DiscoveredLiveExactly(s: State, l: Label, id: Id)
    requires Next(s, l).Some? && id !in s.origins && id in Next(s, l).value.origins
    ensures CameLive(Next(s, l).value.origins[id]) <==>
            && l.LoopStep? && l.l < |s.loops| && s.loops[l.l].phase.Answered? && s.loops[l.l].reason == Live
            && s.store.hasBaseline
  {
    hide PutAll, AddPending, Readings, ShowsUnread, PageOf, ServerMarks, Unread, Without;
    match l
    case CallReconcile(reason) =>
      if SessionContext(s.store).Some? {
        ReconcileFrame(s.(store := Opened(s.store)), reason, SessionContext(s.store).value);
      }
    case Invalidate(reason, ctx) => ReconcileFrame(s, reason, ctx);
    case _ =>
  }

  // A live refresh that a mutation overtakes is not applied. Unless a further live event
  // is queued, the refresh that takes its place is a recovery, so what it finds is
  // known from then on and never toasted.
  lemma OvertakenBecomesRecovery(s: State, i: nat)
    requires BaseInv(s) && i < |s.loops| && s.loops[i].phase.Answered? && IsCurrent(s.store, s.loops[i].ctx)
    requires s.loops[i].epoch != s.store.mutationEpoch && s.store.queued != Some(Live)
    ensures Run(s, [LoopStep(i, true), LoopStep(i, true)]).Some?
    ensures var s' := Run(s, [LoopStep(i, true), LoopStep(i, true)]).value;
            && i < |s'.loops| && s'.loops[i].phase == Asking && s'.loops[i].reason == Recovery && s'.loops[i].pages == 0
            && s'.origins == s.origins && s'.store.pendingLive == s.store.pendingLive
  {
    hide LoopsInv, MoresInv, QueueInv;
    var s1 := Next(s, LoopStep(i, true)).value;
    assert s1.loops[i].phase == Between && s1.store.queued == Some(Recovery) && IsCurrent(s1.store, s1.loops[i].ctx);
    var s2 := Next(s1, LoopStep(i, true)).value;
    assert s2.loops[i].phase == Asking && s2.loops[i].reason == Recovery;
    var two := [LoopStep(i, true), LoopStep(i, true)];
    hide Next;
    assert two[1..] == [LoopStep(i, true)] && two[1..][1..] == [];
    assert Run(s2, []) == Some(s2);
    assert Run(s1, two[1..]) == Some(s2);
  }
}
