// What markRead promises once it resolves, exactly: when no later state of the session
// shows the row unread again, and when some does.
module ClientReach {
  import opened Prelude
  import opened ClientStore
  import opened ClientRuns
  import opened ClientInv
  import opened ClientWindow
  import opened ClientOrder
  import opened ClientReads
  import opened ClientSettled
  import opened ClientRest

  // No continuation of the session shows the id unread.
  ghost predicate StaysRead(s: State, id: Id) {
    forall more: seq<Label> :: (Run(s, more).Some? && SessionOf(Run(s, more).value.store) == SessionOf(s.store)) ==>
      !ShowsUnread(Run(s, more).value.store.items, id)
  }

  lemma ShownLater(s: State, s': State, id: Id)
    requires Leads(s, s') && ShowsUnread(s'.store.items, id)
    ensures !StaysRead(s, id)
  {
    hide Run, ShowsUnread;
    var more :| Run(s, more) == Some(s');
  }

  // ----- Not read on the server ----------------------------------------------------------------

  lemma ShownOnceThere(server: Server, items: seq<Item>, id: Id)
    requires items == Slice(server, 0, |server.history|) && id in server.history
    ensures Item(id, id in server.read) in items
  {
    var i :| 0 <= i < |server.history| && server.history[i] == id;
    assert items[i] == Item(id, id in server.read);
  }

  lemma ArrivesUnread(s: State, id: Id)
    requires id !in s.server.history && id !in s.server.read
    ensures Next(s, Insert(id, 0)).Some?
    ensures var s' := Next(s, Insert(id, 0)).value;
            id in s'.server.history && s'.server.read == s.server.read && s'.store == s.store
  {
    assert (s.server.history[..0] + [id] + s.server.history[0..])[0] == id;
  }

  // A row that is not read on the server can be shown, and then is unread.
  lemma UnreadThere(s: State, id: Id)
    requires RestInv(s) && InSession(s.store) && id !in s.server.read
    ensures !StaysRead(s, id)
  {
    LeadsHere(s);
    hide RestInv, StaysRead, Leads, Next;
    var s1 := s;
    if id !in s.server.history {
      ArrivesUnread(s, id);
      s1 := Goes(s, s, Insert(id, 0));
    }
    var s2 := ShowsAll(s1);
    ShownOnceThere(s2.server, s2.store.items, id);
    LeadsOn(s, s1, s2);
    ShownLater(s, s2, id);
  }

  // ----- A mutation under way that would undo it ---------------------------------------------------

  lemma FailureShows(s: State, k: nat, id: Id)
    requires k < |s.mutations| && WouldUndo(SessionOf(s.store), s.mutations[k], id)
    requires exists i :: 0 <= i < |s.store.items| && s.store.items[i].id == id
    ensures Next(s, MutationStep(k, false)).Some?
    ensures var s' := Next(s, MutationStep(k, false)).value;
            ShowsUnread(s'.store.items, id) && SessionOf(s'.store) == SessionOf(s.store)
  {
    var i :| 0 <= i < |s.store.items| && s.store.items[i].id == id;
    FailureShape(s, k);
    hide MutationFails;
    assert MutationFails(s, k).store.items[i] == Item(id, false);
  }

  lemma UndoneLater(s: State, id: Id)
    requires RestInv(s) && InSession(s.store) && Unconfirmed(s, id)
    ensures !StaysRead(s, id)
  {
    var k :| 0 <= k < |s.mutations| && WouldUndo(SessionOf(s.store), s.mutations[k], id);
    assert id in s.server.history by { hide AllInv, AwaitInv, LoadingInv; }
    hide RestInv, StaysRead, Run, Next;
    var s1 := ShowsAll(s);
    ShownOnceThere(s1.server, s1.store.items, id);
    FailureShows(s1, k, id);
    var s2 := Goes(s, s1, MutationStep(k, false));
    ShownLater(s, s2, id);
  }

  // ----- An answer that would be applied --------------------------------------------------------------

  predicate Holds(loop: Loop, id: Id) {
    Fetching(loop)
    && (ShowsUnread(loop.rows, id) || (loop.phase.Answered? && ShowsUnread(loop.phase.page.items, id)))
  }

  // Collecting a page overwrites nothing that has been collected.
  lemma CollectedStays(loop: Loop, next: Option<Id>, loadedPages: nat, h: seq<Id>, id: Id)
    requires LoopDeep(loop, next, loadedPages, h) && loop.phase.Answered? && Holds(loop, id)
    ensures ShowsUnread(PutAll(loop.rows, loop.phase.page.items), id)
  {
    var page := loop.phase.page.items;
    PutAllIs(loop.rows, page);
    hide Position, PutAll, Distinct;
    var x := Item(id, false);
    assert x !in page ==> x in loop.rows && id !in Ids(page);
    assert x in PutAll(loop.rows, page);
  }

  lemma DeepLoop(s: State, l: nat)
    requires RestInv(s) && l < |s.loops| && IsCurrent(s.store, s.loops[l].ctx)
    ensures LoopDeep(s.loops[l], s.store.nextCursor, s.store.loadedPages, s.server.history)
  {
    hide BaseInv, ReadsInv, FreshInv, TailInv;
  }

  lemma HeldGoesOn(s: State, l: nat, id: Id)
    requires l < |s.loops| && IsCurrent(s.store, s.loops[l].ctx) && s.loops[l].epoch == s.store.mutationEpoch
    requires Holds(s.loops[l], id) && s.loops[l].pages < s.store.loadedPages
    requires s.loops[l].phase.Answered? ==> ShowsUnread(PutAll(s.loops[l].rows, s.loops[l].phase.page.items), id)
    ensures Next(s, LoopStep(l, true)).Some?
    ensures var s', loop := Next(s, LoopStep(l, true)).value, s.loops[l];
            && SessionOf(s'.store) == SessionOf(s.store)
            && (ShowsUnread(s'.store.items, id)
                || (&& |s'.loops| == |s.loops| && s'.loops[l].ctx == loop.ctx && s'.loops[l].epoch == s'.store.mutationEpoch
                    && Holds(s'.loops[l], id) && s'.store.loadedPages == s.store.loadedPages
                    && Turns(s'.store, s'.loops[l]) < Turns(s.store, loop)))
  {
    hide PageOf, PutAll, ShowsUnread, IdSet, AddPending, Discovered;
  }

  // How many steps are left, if the loop still has room.
  function Turns(st: Store, loop: Loop): nat {
    2 * Less(st.loadedPages, loop.pages) + (if loop.phase == Asking then 1 else 0)
  }

  lemma {:induction false} HeldIsShown(s: State, l: nat, id: Id) returns (s': State)
    requires RestInv(s) && l < |s.loops| && IsCurrent(s.store, s.loops[l].ctx)
    requires s.loops[l].epoch == s.store.mutationEpoch && Holds(s.loops[l], id)
    ensures Leads(s, s') && ShowsUnread(s'.store.items, id)
    decreases Turns(s.store, s.loops[l])
  {
    DeepLoop(s, l);
    assert s.loops[l].pages < s.store.loadedPages;
    if s.loops[l].phase.Answered? {
      CollectedStays(s.loops[l], s.store.nextCursor, s.store.loadedPages, s.server.history, id);
    }
    HeldGoesOn(s, l, id);
    LeadsHere(s);
    hide RestInv, LoopDeep, Next, PutAll, ShowsUnread, Holds, Turns, Run;
    s' := Goes(s, s, LoopStep(l, true));
    if !ShowsUnread(s'.store.items, id) {
      var s1 := s';
      s' := HeldIsShown(s1, l, id);
      LeadsOn(s, s1, s');
    }
  }

  lemma DeepMore(s: State, m: nat)
    requires RestInv(s) && m < |s.mores| && Timely(SessionOf(s.store), s.mores[m], s.store.readEpoch)
    ensures MoreDeep(s.mores[m], s.store.loadedPages, s.server.history) && Distinct(Ids(s.store.items))
  {
    hide BaseInv, ReadsInv, FreshInv, TailInv, MoreDeep, Distinct;
  }

  lemma PageIsShown(s: State, m: nat, id: Id)
    requires RestInv(s) && m < |s.mores| && IsCurrent(s.store, s.mores[m].ctx) && s.mores[m].phase.Received?
    requires s.mores[m].readEpoch == s.store.readEpoch && s.mores[m].mutationEpoch == s.store.mutationEpoch
    requires ShowsUnread(s.mores[m].phase.page.items, id)
    ensures !StaysRead(s, id)
  {
    var page := s.mores[m].phase.page;
    DeepMore(s, m);
    assert Distinct(Ids(page.items));
    PutAllIs(s.store.items, page.items);
    LeadsHere(s);
    MoreAdded(s, m, page);
    assert Item(id, false) in page.items;
    assert Item(id, false) in PutAll(s.store.items, page.items);
    hide RestInv, StaysRead, Run, Next, PutAll, MoreDeep, Distinct, IdSet;
    var s' := Goes(s, s, MoreStep(m, true));
    ShownLater(s, s', id);
  }

  lemma HeldLater(s: State, id: Id)
    requires RestInv(s) && InSession(s.store) && !Unheld(s, id)
    ensures !StaysRead(s, id)
  {
    var se := SessionOf(s.store);
    hide RestInv, StaysRead, ShowsUnread, Run;
    if !LoopsClean(se, s.loops, s.store.mutationEpoch, id) {
      var l :| 0 <= l < |s.loops| && Current(se, s.loops[l].ctx) && !LoopClean(s.loops[l], s.store.mutationEpoch, id);
      var s' := HeldIsShown(s, l, id);
      ShownLater(s, s', id);
    } else {
      var m :| && 0 <= m < |s.mores| && Current(se, s.mores[m].ctx)
               && !MoreClean(s.mores[m], s.store.readEpoch, s.store.mutationEpoch, id);
      PageIsShown(s, m, id);
    }
  }

  // ----- Exactly when ------------------------------------------------------------------------------------

  lemma Reachable(server: Server, ls: seq<Label>)
    requires Distinct(server.history) && Run(Init(server), ls).Some?
    ensures RestInv(Run(Init(server), ls).value)
  {
    InitRest(server);
    hide RestInv, Run;
    RunKeepsRest(Init(server), ls);
  }

  lemma SettledStaysRead(s: State, id: Id)
    requires RestInv(s) && InSession(s.store) && SettledRead(s, id)
    ensures StaysRead(s, id)
  {
    forall more: seq<Label> | Run(s, more).Some? && SessionOf(Run(s, more).value.store) == SessionOf(s.store)
      ensures !ShowsUnread(Run(s, more).value.store.items, id)
    {
      SettledStays(s, more, id);
      hide AllInv, TailInv, Run, ShowsUnread, Clean, Unconfirmed;
    }
    hide RestInv, SettledRead;
  }

  lemma UnsettledShows(s: State, id: Id)
    requires RestInv(s) && InSession(s.store) && !SettledRead(s, id)
    ensures !StaysRead(s, id)
  {
    hide RestInv, StaysRead, Unheld, Unconfirmed, ShowsUnread, Run;
    if id !in s.server.read {
      UnreadThere(s, id);
    } else if !Unheld(s, id) {
      HeldLater(s, id);
    } else if ShowsUnread(s.store.items, id) {
      LeadsHere(s);
      ShownLater(s, s, id);
    } else {
      UndoneLater(s, id);
    }
  }

  // In every reachable state of a session: no later state of it shows the id unread if
  // and only if the id is read on the server, is not shown unread now, no answer that may
  // still be applied holds it unread, and no mutation under way would undo it.
  lemma StaysReadExactly(server: Server, ls: seq<Label>, id: Id)
    requires Distinct(server.history) && Run(Init(server), ls).Some? && InSession(Run(Init(server), ls).value.store)
    ensures var s := Run(Init(server), ls).value;
            StaysRead(s, id) <==> SettledRead(s, id)
  {
    Reachable(server, ls);
    var s := Run(Init(server), ls).value;
    hide RestInv, Run, SettledRead, StaysRead;
    if SettledRead(s, id) { SettledStaysRead(s, id); } else { UnsettledShows(s, id); }
  }

  // A row that is shown read is settled unless a mutation under way would undo it; for a
  // row that is absent the server and the answers under way decide as well.
  lemma ByWhatIsShown(s: State, id: Id)
    requires RestInv(s) && InSession(s.store)
    ensures ShowsUnread(s.store.items, id) ==> !SettledRead(s, id)
    ensures Item(id, true) in s.store.items ==> (SettledRead(s, id) <==> !Unconfirmed(s, id))
    ensures id !in Ids(s.store.items) ==>
              (SettledRead(s, id) <==> id in s.server.read && Unheld(s, id) && !Unconfirmed(s, id))
  {
    hide Unheld, Unconfirmed;
    if Item(id, true) in s.store.items {
      assert AllInv(s);
      hide RestInv, AllInv;
      ShownReadIsSettled(s, id);
    } else {
      hide RestInv;
      if id !in Ids(s.store.items) { AbsentIsNotShown(s.store.items, id); }
    }
  }

  lemma AbsentIsNotShown(items: seq<Item>, id: Id)
    requires id !in Ids(items)
    ensures !ShowsUnread(items, id)
  {
    forall i | 0 <= i < |items|
      ensures items[i] != Item(id, false)
    {
      assert Ids(items)[i] == items[i].id;
    }
  }

  // ----- markRead ----------------------------------------------------------------------------------------

  // The steps by which a call of markRead resolves without an error: it returns at once,
  // its turn comes and finds nothing to mark, or its request has succeeded.
  predicate Resolves(s: State, l: Label, id: Id) {
    InSession(s.store) && Next(s, l).Some? &&
    match l
    case CallMarkRead(target) => target == id && !ShowsUnread(s.store.items, id)
    case MutationStep(k, _) =>
      && k < |s.mutations| && s.mutations[k].target == One(id) && IsCurrent(s.store, s.mutations[k].ctx)
      && Next(s, l).value.mutations[k].phase == Settled(true)
    case _ => false
  }

  predicate Confirms(s: State, l: Label) {
    l.MutationStep? && l.k < |s.mutations| && s.mutations[l.k].phase.Processed?
  }

  // What a call of markRead that resolves has achieved. If its request succeeded, no later
  // state of the session shows the row unread. If it returned at either guard, that is so,
  // for a row that was shown read there, if and only if no mutation under way would undo
  // it, and for a row that was absent there, if and only if it was also read on the server
  // and no answer that might still be applied held it unread.
  lemma MarkReadExactly(server: Server, ls: seq<Label>, l: Label, id: Id)
    requires Distinct(server.history) && Run(Init(server), ls).Some? && Resolves(Run(Init(server), ls).value, l, id)
    ensures var s := Run(Init(server), ls).value;
            var kept := StaysRead(Next(s, l).value, id);
            && (Confirms(s, l) ==> kept)
            && (!Confirms(s, l) && Item(id, true) in s.store.items ==> (kept <==> !Unconfirmed(s, id)))
            && (!Confirms(s, l) && id !in Ids(s.store.items) ==>
                  (kept <==> id in s.server.read && Unheld(s, id) && !Unconfirmed(s, id)))
            && (!Confirms(s, l) ==> Item(id, true) in s.store.items || id !in Ids(s.store.items))
  {
    ResolvedExactly(server, ls, l, id);
    Reachable(server, ls);
    var s := Run(Init(server), ls).value;
    assert !Confirms(s, l) ==> !ShowsUnread(s.store.items, id) by {
      hide RestInv, Run, StaysRead, SettledRead, Unheld, Unconfirmed;
      if !Confirms(s, l) { GuardSeesNone(s, l, id); }
    }
    hide Run, Resolves, Confirms, Next, StaysRead, Unheld, Unconfirmed, RestInv, SettledRead;
    assert InSession(s.store) by { InSessionThen(s, l, id); }
    ByWhatIsShown(s, id);
    assert !ShowsUnread(s.store.items, id) ==> Item(id, true) in s.store.items || id !in Ids(s.store.items) by {
      ReadOrAbsent(s.store.items, id);
    }
  }

  lemma InSessionThen(s: State, l: Label, id: Id)
    requires Resolves(s, l, id)
    ensures InSession(s.store)
  {
    hide Next;
  }

  lemma ReadOrAbsent(items: seq<Item>, id: Id)
    ensures ShowsUnread(items, id) || Item(id, true) in items || id !in Ids(items)
  {
    if id in Ids(items) {
      var i :| 0 <= i < |items| && Ids(items)[i] == id;
      assert items[i] in items && items[i] == Item(id, items[i].read);
    }
  }

  // The guards let go by what is not shown unread.
  lemma GuardSeesNone(s: State, l: Label, id: Id)
    requires Resolves(s, l, id) && !Confirms(s, l)
    ensures !ShowsUnread(s.store.items, id) && (l.MutationStep? ==> s.mutations[l.k].phase == Waiting)
  {
    hide ShowsUnread, MutationFails, Readings, MarkIds;
    if l.MutationStep? {
      if s.mutations[l.k].phase == Sent { FailureIsNoSuccess(s, l.k); }
      assert s.mutations[l.k].phase == Waiting;
    }
  }

  lemma FailureIsNoSuccess(s: State, k: nat)
    requires k < |s.mutations| && (s.mutations[k].phase == Sent || s.mutations[k].phase.Processed?)
    ensures k < |MutationFails(s, k).mutations| && MutationFails(s, k).mutations[k].phase != Settled(true)
  {
    hide Restore;
  }

  lemma ResolvedExactly(server: Server, ls: seq<Label>, l: Label, id: Id)
    requires Distinct(server.history) && Run(Init(server), ls).Some? && Resolves(Run(Init(server), ls).value, l, id)
    ensures var s := Run(Init(server), ls).value;
            StaysRead(Next(s, l).value, id) <==> Confirms(s, l) || SettledRead(s, id)
  {
    Reachable(server, ls);
    var s := Run(Init(server), ls).value;
    var s' := Next(s, l).value;
    assert RestInv(s') by {
      hide AllInv, TailInv, Resolves, Run, Next;
      NextKeepsAll(s, l);
      NextKeepsTail(s, l);
    }
    hide RestInv, Run, StaysRead, SettledRead;
    if Confirms(s, l) {
      SuccessConfirms(s, l.k, l.ok, id);
      hide Resolves, Confirms, Next;
      ConfirmedStaysRead(s', id);
    } else {
      NothingDone(s, l, id);
      hide Resolves, Confirms, Next;
      if SettledRead(s', id) { SettledStaysRead(s', id); } else { UnsettledShows(s', id); }
    }
  }

  lemma ConfirmedStaysRead(s: State, id: Id)
    requires RestInv(s) && InSession(s.store) && id in s.confirmed
    ensures StaysRead(s, id)
  {
    assert AllInv(s);
    hide RestInv, AllInv, SettledRead, StaysRead;
    ConfirmedIsSettled(s, id);
    SettledStaysRead(s, id);
  }

  lemma SuccessConfirms(s: State, k: nat, ok: bool, id: Id)
    requires Resolves(s, MutationStep(k, ok), id) && s.mutations[k].phase.Processed?
    ensures var s' := Next(s, MutationStep(k, ok)).value;
            id in s'.confirmed && InSession(s'.store)
  {
    FailureIsNoSuccess(s, k);
    MutationSession(s, k, ok);
    hide MarkIds, ShowsUnread, Restore, MutationFails;
    var marked := Marked(s, k, s.mutations[k].phase.unread);
    ReconcileFrame(marked, Recovery, s.mutations[k].ctx);
    hide Reconcile;
  }

  lemma NothingDone(s: State, l: Label, id: Id)
    requires Resolves(s, l, id) && !Confirms(s, l)
    ensures SettledRead(Next(s, l).value, id) <==> SettledRead(s, id)
    ensures InSession(Next(s, l).value.store)
  {
    var s' := Next(s, l).value;
    hide ShowsUnread, MutationFails, Readings, MarkIds;
    GuardSeesNone(s, l, id);
    assert s'.mutations == s.mutations || (l.MutationStep? && s.mutations[l.k].phase == Waiting &&
      s'.mutations == s.mutations[l.k := s.mutations[l.k].(phase := Settled(true))]);
    assert s'.loops == s.loops && s'.mores == s.mores && s'.server == s.server && s'.store.items == s.store.items;
    SameUnconfirmed(s, s', if l.MutationStep? then l.k else 0, id);
    hide Resolves, Next, LoopsClean, MoresClean, Unconfirmed;
  }

  lemma SameUnconfirmed(s: State, s': State, k: nat, id: Id)
    requires SessionOf(s'.store) == SessionOf(s.store)
    requires s'.mutations == s.mutations
             || (k < |s.mutations| && s.mutations[k].phase == Waiting &&
                 s'.mutations == s.mutations[k := s.mutations[k].(phase := Settled(true))])
    ensures Unconfirmed(s', id) <==> Unconfirmed(s, id)
  {
    assert forall j :: 0 <= j < |s.mutations| ==>
      (WouldUndo(SessionOf(s.store), s'.mutations[j], id) <==> WouldUndo(SessionOf(s.store), s.mutations[j], id));
    hide WouldUndo;
  }

  // ----- The second guard ------------------------------------------------------------------------------------

  // A run in which a row is shown unread when it is marked, a new notification and a
  // refresh push it out of the window before the mark's turn comes, the mark resolves
  // without having sent anything, and the row can be shown unread again.
  lemma PushedOutBeforeItsTurn(h: seq<Id>, x: Id) returns (before: seq<Label>, c: State, between: seq<Label>, s: State)
    requires Distinct(h) && |h| == PAGE && x !in h
    ensures var id := h[PAGE - 1];
            && Run(Init(Server(h, {})), before) == Some(c) && InSession(c.store) && ShowsUnread(c.store.items, id)
            && Next(c, CallMarkRead(id)).Some? && Run(Next(c, CallMarkRead(id)).value, between) == Some(s)
            && SessionOf(s.store) == SessionOf(c.store)
            && Resolves(s, MutationStep(0, true), id) && !Confirms(s, MutationStep(0, true))
            && !StaysRead(Next(s, MutationStep(0, true)).value, id)
  {
    var id := h[PAGE - 1];
    c, before := ShownAtFirst(h);
    LeadsHere(c);
    hide RestInv, Run, StaysRead, Distinct, First, Mirrors;
    MarkIsQueued(c, id);
    var c1 := Goes(c, c, CallMarkRead(id));
    assert x !in c1.server.history && x !in c1.server.read;
    LeadsHere(c1);
    var c2 := Goes(c1, c1, Insert(x, 0));
    assert c2.server == Server([x] + h, {}) by { assert h[..0] + [x] + h[0..] == [x] + h; }
    s := Refreshes(c2);
    LeadsOn(c1, c2, s);
    between :| Run(c1, between) == Some(s);
    PushedOut(s, h, x);
    TurnFindsNothing(s, id);
    NotReadThere(s, id);
  }

  lemma ShownAtFirst(h: seq<Id>) returns (c: State, before: seq<Label>)
    requires Distinct(h) && |h| == PAGE
    ensures Run(Init(Server(h, {})), before) == Some(c) && RestInv(c) && InSession(c.store)
    ensures ShowsUnread(c.store.items, h[PAGE - 1]) && c.store.loadedPages == 1
    ensures c.server == Server(h, {}) && c.mutations == [] && c.store.mutations == []
  {
    var server := Server(h, {});
    var first := [CallReconcile(Initial)];
    var c0 := Next(Init(server), CallReconcile(Initial)).value;
    assert Run(c0, []) == Some(c0);
    assert first[1..] == [] && Run(Init(server), first) == Some(c0);
    Reachable(server, first);
    assert InSession(c0.store) && c0.server == server && c0.store.loadedPages == 1;
    hide RestInv, Run, Next;
    c := Refreshes(c0);
    var more :| Run(c0, more) == Some(c);
    RunOn(Init(server), first, more);
    before := first + more;
    assert c.store.items[PAGE - 1] == Item(h[PAGE - 1], false);
  }

  lemma MarkIsQueued(s: State, id: Id)
    requires InSession(s.store) && ShowsUnread(s.store.items, id) && s.mutations == [] && s.store.mutations == []
    ensures Next(s, CallMarkRead(id)).Some?
    ensures var s' := Next(s, CallMarkRead(id)).value;
            && SessionOf(s'.store) == SessionOf(s.store) && s'.server == s.server && s'.store.mutations == [0]
            && s'.mutations == [Mutation(Context(s.store.generation, s.store.auth), One(id), Waiting, false, map[], 0)]
            && s'.store.loadedPages == s.store.loadedPages
  {
    hide ShowsUnread;
  }

  lemma PushedOut(s: State, h: seq<Id>, x: Id)
    requires Distinct(h) && |h| == PAGE && x !in h && s.server == Server([x] + h, {})
    requires Mirrors(s) && s.store.loadedPages == 1
    ensures !ShowsUnread(s.store.items, h[PAGE - 1])
  {
    forall i | 0 <= i < |s.store.items|
      ensures s.store.items[i].id != h[PAGE - 1]
    {
      assert s.store.items[i].id == ([x] + h)[i];
    }
  }

  lemma TurnFindsNothing(s: State, id: Id)
    requires InSession(s.store) && s.store.mutations == [0] && !ShowsUnread(s.store.items, id)
    requires s.mutations == [Mutation(Context(s.store.generation, s.store.auth), One(id), Waiting, false, map[], 0)]
    ensures Resolves(s, MutationStep(0, true), id) && !Confirms(s, MutationStep(0, true))
  {
    hide ShowsUnread;
  }

  lemma NotReadThere(s: State, id: Id)
    requires RestInv(s) && id !in s.server.read
    requires Resolves(s, MutationStep(0, true), id) && !Confirms(s, MutationStep(0, true))
    ensures !StaysRead(Next(s, MutationStep(0, true)).value, id)
  {
    var s' := Next(s, MutationStep(0, true)).value;
    NothingDone(s, MutationStep(0, true), id);
    LeadsHere(s);
    assert SessionOf(s'.store) == SessionOf(s.store) by { MutationSession(s, 0, true); }
    hide RestInv, Resolves, StaysRead, Unheld, Unconfirmed;
    s' := Goes(s, s, MutationStep(0, true));
    UnsettledShows(s', id);
  }
}
