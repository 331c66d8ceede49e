// The browser's notifications store: what each stretch of code between two awaits
// does to the fields.
module ClientStore {
  import opened Prelude

  type Id = nat

  // A notification as the store holds it; `read` is read_at !== null.
  datatype Item = Item(id: Id, read: bool)

  datatype Reason = Initial | Connected | Live | Visibility | Manual | Recovery

  // Identifies one session of the store: its reset counter and the auth generation
  // it was opened under. Each generation has at most one abort controller.
  datatype Context = Context(generation: nat, auth: nat)

  datatype Page = Page(items: seq<Item>, unread: nat, next: Option<Id>)

  datatype Store = Store(
    auth: nat,                    // the auth store's generation, as this store reads it
    generation: nat,
    session: Option<nat>,         // auth generation of the open session
    items: seq<Item>,
    unreadCount: nat,
    nextCursor: Option<Id>,
    loadedPages: nat,
    hasBaseline: bool,
    known: set<Id>,
    pendingLive: seq<Id>,
    toasts: seq<Id>,
    loadingMore: bool,
    reconciliation: Option<nat>,  // the loop behind #reconcilePromise
    queued: Option<Reason>,
    mutations: seq<nat>,          // unsettled mutations in the order they were queued
    mutationEpoch: nat,
    readEpoch: nat)

  const NEW_STORE := Store(0, 0, None, [], 0, None, 1, false, {}, [], [], false, None, None, [], 0, 0)

  predicate IsCurrent(st: Store, ctx: Context) {
    st.generation == ctx.generation && st.session == Some(ctx.auth) && st.auth == ctx.auth
  }

  function Opened(st: Store): Store {
    if st.session.None? then st.(session := Some(st.auth)) else st
  }

  function SessionContext(st: Store): Option<Context> {
    if Opened(st).session == Some(st.auth) then Some(Context(st.generation, st.auth)) else None
  }

  function Reset(st: Store): Store {
    Store(st.auth, st.generation + 1, None, [], 0, None, 1, false, {}, [], [], false, None, None, [], 0, st.readEpoch + 1)
  }

  function Merged(current: Option<Reason>, next: Reason): Option<Reason> {
    if current == Some(Live) || next == Live then Some(Live) else Some(next)
  }

  // ----- Rows ----------------------------------------------------------------------

  function Ids(items: seq<Item>): seq<Id> {
    seq(|items|, i requires 0 <= i < |items| => items[i].id)
  }

  function IdSet(items: seq<Item>): set<Id> {
    set i | 0 <= i < |items| :: items[i].id
  }

  // Map.set, in a map that keeps its insertion order.
  function Put(rows: seq<Item>, item: Item): seq<Item> {
    if |rows| == 0 then [item]
    else if rows[0].id == item.id then [item] + rows[1..]
    else [rows[0]] + Put(rows[1..], item)
  }

  function PutAll(rows: seq<Item>, page: seq<Item>): seq<Item> {
    if |page| == 0 then rows else Put(PutAll(rows, page[..|page| - 1]), page[|page| - 1])
  }

  lemma {:induction false} PutAt(rows: seq<Item>, item: Item, at: nat)
    requires at <= |rows| && forall k :: 0 <= k < at ==> rows[k].id != item.id
    requires at < |rows| ==> rows[at].id == item.id
    ensures Put(rows, item) == if at == |rows| then rows + [item] else rows[..at] + [item] + rows[at + 1..]
  {
    if at > 0 { PutAt(rows[1..], item, at - 1); }
  }

  function AddPending(pending: seq<Id>, rows: seq<Item>, known: set<Id>): seq<Id> {
    if |rows| == 0 then pending
    else
      var before := AddPending(pending, rows[..|rows| - 1], known);
      var id := rows[|rows| - 1].id;
      if id in known || id in before then before else before + [id]
  }

  function MarkIds(items: seq<Item>, ids: set<Id>): seq<Item> {
    seq(|items|, i requires 0 <= i < |items| => if items[i].id in ids then items[i].(read := true) else items[i])
  }

  function Restore(items: seq<Item>, previous: map<Id, bool>): seq<Item> {
    seq(|items|, i requires 0 <= i < |items| =>
      if items[i].id in previous then items[i].(read := previous[items[i].id]) else items[i])
  }

  // The read marks of the given ids, as a map built row by row.
  function Readings(items: seq<Item>, ids: set<Id>): map<Id, bool> {
    if |items| == 0 then map[]
    else
      var before := Readings(items[..|items| - 1], ids);
      var last := items[|items| - 1];
      if last.id in ids then before[last.id := last.read] else before
  }

  predicate ShowsUnread(items: seq<Item>, id: Id) {
    exists i :: 0 <= i < |items| && items[i] == Item(id, false)
  }

  function Less(n: nat, k: nat): nat {
    if n < k then 0 else n - k
  }

  // ----- Segments -----------------------------------------------------------------------

  // The start of reconcileOnce.
  function RefreshBegun(st: Store): Store {
    st.(readEpoch := st.readEpoch + 1)
  }

  // All pages are there: up to the account load.
  function RefreshApplied(st: Store, reason: Reason, rows: seq<Item>, page: Page, pages: nat): Store {
    st.(items := rows,
        unreadCount := page.unread,
        nextCursor := page.next,
        loadedPages := pages,
        hasBaseline := true,
        known := st.known + IdSet(rows),
        pendingLive := if st.hasBaseline && reason == Live then AddPending(st.pendingLive, rows, st.known)
                       else st.pendingLive)
  }

  function ToastsPublished(st: Store): Store {
    st.(toasts := st.toasts + st.pendingLive, pendingLive := [])
  }

  function MoreApplied(st: Store, page: Page): Store {
    st.(items := PutAll(st.items, page.items),
        unreadCount := page.unread,
        nextCursor := page.next,
        loadedPages := st.loadedPages + 1,
        known := st.known + IdSet(page.items),
        loadingMore := false)
  }

  // Optimistic marks. `count` is how far the unread count goes down.
  function MarkedOptimistically(st: Store, ids: set<Id>, count: nat): Store {
    st.(items := MarkIds(st.items, ids), unreadCount := Less(st.unreadCount, count))
  }

  function MarkConfirmed(st: Store, ids: set<Id>, unread: nat): Store {
    st.(mutationEpoch := st.mutationEpoch + 1, items := MarkIds(st.items, ids), unreadCount := unread)
  }

  function MarkRolledBack(st: Store, previous: map<Id, bool>, count: nat): Store {
    st.(items := Restore(st.items, previous), unreadCount := count)
  }

  // .finally: only the reconciliation that is still the current one clears up.
  function CleanedUp(st: Store, loop: nat): Store {
    if st.reconciliation == Some(loop) then st.(reconciliation := None, queued := None) else st
  }

  // ----- The store itself ---------------------------------------------------------------

  class NotificationsStore {
    var auth: nat
    var generation: nat
    var session: Option<nat>
    var items: seq<Item>
    var unreadCount: nat
    var nextCursor: Option<Id>
    var loadedPages: nat
    var hasBaseline: bool
    var known: set<Id>
    var pendingLive: seq<Id>
    var toasts: seq<Id>
    var loadingMore: bool
    var reconciliation: Option<nat>
    var queued: Option<Reason>
    var mutations: seq<nat>
    var mutationEpoch: nat
    var readEpoch: nat

    ghost function View(): Store
      reads this
    {
      Store(auth, generation, session, items, unreadCount, nextCursor, loadedPages, hasBaseline, known, pendingLive,
            toasts, loadingMore, reconciliation, queued, mutations, mutationEpoch, readEpoch)
    }

    constructor ()
      ensures View() == NEW_STORE
    {
      auth, generation, session := 0, 0, None;
      items, unreadCount, nextCursor, loadedPages := [], 0, None, 1;
      hasBaseline, known, pendingLive, toasts, loadingMore := false, {}, [], [], false;
      reconciliation, queued, mutations, mutationEpoch, readEpoch := None, None, [], 0, 0;
    }

    method OpenSession() returns (ctx: Option<Context>)
      modifies `session
      ensures View() == Opened(old(View())) && ctx == SessionContext(old(View()))
      ensures session == if old(session).None? then Some(auth) else old(session)
      ensures ctx == if old(session).None? || old(session) == Some(auth) then Some(Context(generation, auth)) else None
    {
      if session.None? { session := Some(auth); }
      return if session == Some(auth) then Some(Context(generation, auth)) else None;
    }

    method ResetAll()
      modifies this
      ensures View() == Reset(old(View()))
      ensures generation == old(generation) + 1 && readEpoch == old(readEpoch) + 1 && auth == old(auth) && session.None?
      ensures items == [] && unreadCount == 0 && nextCursor.None? && loadedPages == 1 && !hasBaseline && known == {}
      ensures pendingLive == [] && toasts == [] && !loadingMore && reconciliation.None? && queued.None?
      ensures mutations == [] && mutationEpoch == 0
    {
      generation, session, readEpoch := generation + 1, None, readEpoch + 1;
      ForgetSession();
      ClearRows();
    }

    method ForgetSession()
      modifies `known, `hasBaseline, `pendingLive, `reconciliation, `queued, `mutations, `mutationEpoch, `loadedPages
      ensures known == {} && !hasBaseline && pendingLive == [] && reconciliation == None && queued == None
      ensures mutations == [] && mutationEpoch == 0 && loadedPages == 1
    {
      known, hasBaseline, pendingLive := {}, false, [];
      reconciliation, queued, mutations, mutationEpoch, loadedPages := None, None, [], 0, 1;
    }

    method ClearRows()
      modifies `items, `unreadCount, `loadingMore, `nextCursor, `toasts
      ensures items == [] && unreadCount == 0 && !loadingMore && nextCursor == None && toasts == []
    {
      items, unreadCount, loadingMore, nextCursor, toasts := [], 0, false, None, [];
    }

    // reconcileForSession: joins the running reconciliation, or says that one is to
    // start.
    method JoinOrStart(reason: Reason, ctx: Context, loop: nat) returns (starts: bool)
      modifies this
      ensures starts <==> IsCurrent(old(View()), ctx) && old(reconciliation).None?
      ensures starts ==> View() == RefreshBegun(old(View())).(reconciliation := Some(loop))
      ensures !starts && IsCurrent(old(View()), ctx) ==> View() == old(View()).(queued := Merged(old(queued), reason))
      ensures !IsCurrent(old(View()), ctx) ==> View() == old(View())
      ensures starts ==> readEpoch == old(readEpoch) + 1 && queued == old(queued)
      ensures !starts ==>
                queued == old(queued) || queued == Some(if old(queued) == Some(Live) then Live else reason)
    {
      if !(generation == ctx.generation && session == Some(ctx.auth) && auth == ctx.auth) { return false; }
      if reconciliation.Some? {
        queued := if queued == Some(Live) || reason == Live then Some(Live) else Some(reason);
        return false;
      }
      readEpoch := readEpoch + 1;
      reconciliation := Some(loop);
      return true;
    }

    // The rows collected so far, with one more page set into them.
    method CollectPage(rows: seq<Item>, page: seq<Item>) returns (all: seq<Item>)
      ensures all == PutAll(rows, page)
    {
      all := rows;
      for i := 0 to |page|
        invariant all == PutAll(rows, page[..i])
      {
        assert page[..i + 1][..i] == page[..i];
        all := SetRow(all, page[i]);
      }
      assert page[..|page|] == page;
    }

    method SetRow(rows: seq<Item>, item: Item) returns (all: seq<Item>)
      ensures all == Put(rows, item)
    {
      var at := 0;
      while at < |rows| && rows[at].id != item.id
        invariant 0 <= at <= |rows|
        invariant forall k :: 0 <= k < at ==> rows[k].id != item.id
      {
        at := at + 1;
      }
      PutAt(rows, item, at);
      return if at == |rows| then rows + [item] else rows[..at] + [item] + rows[at + 1..];
    }

    // What the rows add to the known ids and, when they arrive live, to the pending
    // toasts.
    method Discover(rows: seq<Item>, live: bool)
      modifies `known, `pendingLive
      ensures known == old(known) + IdSet(rows)
      ensures pendingLive == if live then AddPending(old(pendingLive), rows, old(known)) else old(pendingLive)
    {
      var before := known;
      for i := 0 to |rows|
        invariant known == before + IdSet(rows[..i])
        invariant pendingLive == if live then AddPending(old(pendingLive), rows[..i], before) else old(pendingLive)
      {
        assert rows[..i + 1][..i] == rows[..i];
        known := known + {rows[i].id};
        assert IdSet(rows[..i + 1]) == IdSet(rows[..i]) + {rows[i].id};
        if live && rows[i].id !in before && rows[i].id !in pendingLive {
          pendingLive := pendingLive + [rows[i].id];
        }
      }
      assert rows[..|rows|] == rows;
    }

    method ApplyRefresh(reason: Reason, rows: seq<Item>, page: Page, pages: nat)
      modifies `items, `unreadCount, `nextCursor, `loadedPages, `hasBaseline, `known, `pendingLive
      ensures View() == RefreshApplied(old(View()), reason, rows, page, pages)
      ensures items == rows && unreadCount == page.unread && nextCursor == page.next && loadedPages == pages && hasBaseline
      ensures known == old(known) + IdSet(rows)
      ensures !old(hasBaseline) || reason != Live ==> pendingLive == old(pendingLive)
    {
      hide AddPending, IdSet;
      Show(rows, page, pages);
      Discover(rows, hasBaseline && reason == Live);
      hasBaseline := true;
    }

    method Show(rows: seq<Item>, page: Page, pages: nat)
      modifies `items, `unreadCount, `nextCursor, `loadedPages
      ensures items == rows && unreadCount == page.unread && nextCursor == page.next && loadedPages == pages
    {
      items, unreadCount, nextCursor, loadedPages := rows, page.unread, page.next, pages;
    }

    method PublishPendingToasts(ctx: Context)
      modifies `toasts, `pendingLive
      ensures View() == if IsCurrent(old(View()), ctx) then ToastsPublished(old(View())) else old(View())
      ensures toasts + pendingLive == old(toasts) + old(pendingLive)
      ensures if IsCurrent(old(View()), ctx) then pendingLive == [] else toasts == old(toasts)
    {
      if !(generation == ctx.generation && session == Some(ctx.auth) && auth == ctx.auth) || |pendingLive| == 0 {
        assert toasts + [] == toasts;
        return;
      }
      toasts := toasts + pendingLive;
      pendingLive := [];
    }

    method ApplyMore(page: Page)
      modifies `items, `unreadCount, `nextCursor, `loadedPages, `known, `pendingLive, `loadingMore
      ensures View() == MoreApplied(old(View()), page)
      ensures items == PutAll(old(items), page.items) && unreadCount == page.unread && nextCursor == page.next
      ensures loadedPages == old(loadedPages) + 1 && known == old(known) + IdSet(page.items) && !loadingMore
      ensures pendingLive == old(pendingLive)
    {
      hide AddPending, IdSet, PutAll;
      var rows := CollectPage(items, page.items);
      Show(rows, page, loadedPages + 1);
      Discover(page.items, false);
      loadingMore := false;
    }

    // The optimistic part of a mutation, and what to put back should it fail.
    method MarkOptimistically(ids: set<Id>, count: nat) returns (previous: map<Id, bool>)
      modifies `items, `unreadCount
      ensures View() == MarkedOptimistically(old(View()), ids, count)
      ensures previous == Readings(old(items), ids)
      ensures |items| == |old(items)| && forall i :: 0 <= i < |items| ==>
                items[i].id == old(items)[i].id && (items[i].read <==> old(items)[i].read || items[i].id in ids)
      ensures unreadCount == if old(unreadCount) < count then 0 else old(unreadCount) - count
    {
      previous := Readings(items, ids);
      var i := 0;
      while i < |items|
        invariant 0 <= i <= |items| == |old(items)|
        invariant forall k :: 0 <= k < |items| ==>
                    items[k] == if k < i && old(items)[k].id in ids then old(items)[k].(read := true) else old(items)[k]
        invariant unreadCount == old(unreadCount)
      {
        if items[i].id in ids { items := items[i := items[i].(read := true)]; }
        i := i + 1;
      }
      assert items == MarkIds(old(items), ids);
      unreadCount := Less(unreadCount, count);
    }

    method RollBack(previous: map<Id, bool>, count: nat)
      modifies `items, `unreadCount
      ensures View() == MarkRolledBack(old(View()), previous, count)
      ensures unreadCount == count && |items| == |old(items)| && forall i :: 0 <= i < |items| ==>
                && items[i].id == old(items)[i].id
                && items[i].read == if items[i].id in previous then previous[items[i].id] else old(items)[i].read
    {
      var i := 0;
      while i < |items|
        invariant 0 <= i <= |items| == |old(items)|
        invariant forall k :: 0 <= k < |items| ==>
                    items[k] == if k < i && old(items)[k].id in previous
                                then old(items)[k].(read := previous[old(items)[k].id]) else old(items)[k]
        invariant unreadCount == old(unreadCount)
      {
        if items[i].id in previous { items := items[i := items[i].(read := previous[items[i].id])]; }
        i := i + 1;
      }
      assert items == Restore(old(items), previous);
      unreadCount := count;
    }

    method Confirm(ids: set<Id>, unread: nat)
      modifies `mutationEpoch, `items, `unreadCount
      ensures View() == MarkConfirmed(old(View()), ids, unread)
      ensures unreadCount == unread && mutationEpoch == old(mutationEpoch) + 1
      ensures |items| == |old(items)| && forall i :: 0 <= i < |items| ==>
                items[i].id == old(items)[i].id && (items[i].read <==> old(items)[i].read || items[i].id in ids)
    {
      mutationEpoch := mutationEpoch + 1;
      var previous := MarkOptimistically(ids, 0);
      unreadCount := unread;
    }

    method CleanUp(loop: nat)
      modifies `reconciliation, `queued
      ensures View() == CleanedUp(old(View()), loop)
      ensures if old(reconciliation) == Some(loop) then reconciliation.None? && queued.None?
              else reconciliation == old(reconciliation) && queued == old(queued)
    {
      if reconciliation == Some(loop) {
        reconciliation := None;
        queued := None;
      }
    }
  }
}
