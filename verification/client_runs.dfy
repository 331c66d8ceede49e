// The notifications store as it runs: reconciliations, pagination and mutations of
// any number, each cut at its awaits, interleaved with each other, with resets and
// sign-ins, and with what happens on the server.
module ClientRuns {
  import opened Prelude
  import opened ClientStore

  const PAGE := 20

  // ----- The server --------------------------------------------------------------------

  // The owner's rows, newest first, and which of them are read.
  datatype Server = Server(history: seq<Id>, read: set<Id>)

  function Position(history: seq<Id>, id: Id): (p: nat)
    ensures p <= |history|
  {
    if |history| == 0 || history[0] == id then 0 else 1 + Position(history[1..], id)
  }

  function Slice(server: Server, lo: nat, hi: nat): seq<Item>
    requires lo <= hi <= |server.history|
  {
    seq(hi - lo, k requires 0 <= k < hi - lo => Item(server.history[lo + k], server.history[lo + k] in server.read))
  }

  function Unread(server: Server): nat {
    |set i | 0 <= i < |server.history| && server.history[i] !in server.read :: server.history[i]|
  }

  // The page after the cursor row, as one snapshot has it.
  function PageOf(server: Server, cursor: Option<Id>): Page {
    var n := |server.history|;
    var lo := if cursor.None? then 0 else Min(Position(server.history, cursor.value) + 1, n);
    var hi := Min(lo + PAGE, n);
    Page(Slice(server, lo, hi), Unread(server), if lo + PAGE < n then Some(server.history[hi - 1]) else None)
  }

  // ----- Work in progress ----------------------------------------------------------------

  datatype LoopPhase =
    | Asking                        // a page request on its way to the server
    | Answered(page: Page)          // its answer on the way back
    | LoadingAccounts(since: nat)   // pages applied, accounts loading
    | Between                       // reconcileOnce is over, the loop has not resumed
    | Exited                        // the loop is over, .finally has not run
    | Gone

  datatype Loop = Loop(ctx: Context, phase: LoopPhase, reason: Reason, epoch: nat, rows: seq<Item>,
                       cursor: Option<Id>, pages: nat)

  datatype MorePhase =
    | Awaiting(loop: nat, again: bool)  // a reconciliation; `again`: then back to the top of the loop
    | Requested
    | Received(page: Page)
    | Finished

  datatype More = More(ctx: Context, phase: MorePhase, cursor: Id, readEpoch: nat, mutationEpoch: nat)

  datatype Target = One(id: Id) | Every(ids: set<Id>)

  datatype MutationPhase =
    | Waiting               // for its turn in the queue
    | Sent
    | Processed(unread: nat)
    | Recovering(loop: nat) // failed and rolled back, awaiting a reconciliation
    | Settled(ok: bool)

  // `asked`: it found something to mark when its turn came, and sent its request.
  datatype Mutation = Mutation(ctx: Context, target: Target, phase: MutationPhase, asked: bool,
                               previous: map<Id, bool>, previousCount: nat)

  function Targets(t: Target): set<Id> {
    match t
    case One(id) => {id}
    case Every(ids) => ids
  }

  // ----- The whole state --------------------------------------------------------------------

  // How an id first became known in the session.
  datatype Origin = AtBaseline | ByMore | ByRefresh(reason: Reason, at: nat)

  // A toast, when the account load that let it through began, and when it appeared.
  datatype Toast = Toast(id: Id, since: nat, at: nat)

  // The last four fields record the past of the session for the theorems.
  datatype State = State(
    server: Server,
    store: Store,
    loops: seq<Loop>,
    mores: seq<More>,
    mutations: seq<Mutation>,
    clock: nat,
    origins: map<Id, Origin>,
    shown: seq<Toast>,
    confirmed: set<Id>)       // marked read by mutations that succeeded

  datatype Label =
    | Insert(id: Id, at: nat)         // a transfer adds a row, at its place in the history
    | ReadElsewhere(id: Id)           // another device marks a row
    | AuthChanges
    | CallReset
    | CallReconcile(reason: Reason)
    | Invalidate(reason: Reason, ctx: Context)  // a stream event or a visible tab
    | LoopStep(l: nat, ok: bool)      // ok: the request, or the account load, succeeds
    | CallLoadMore
    | MoreStep(m: nat, ok: bool)
    | CallMarkRead(id: Id)
    | CallMarkAllRead
    | MutationStep(k: nat, ok: bool)
    | Dismiss(id: Id)

  function Init(server: Server): State {
    State(server, NEW_STORE, [], [], [], 0, map[], [], {})
  }

  function WithLoop(s: State, l: nat, loop: Loop): State
    requires l < |s.loops|
  {
    s.(loops := s.loops[l := loop])
  }

  function WithMore(s: State, m: nat, more: More): State
    requires m < |s.mores|
  {
    s.(mores := s.mores[m := more])
  }

  function WithMutation(s: State, k: nat, mutation: Mutation): State
    requires k < |s.mutations|
  {
    s.(mutations := s.mutations[k := mutation])
  }

  // ----- Reconciling ------------------------------------------------------------------------

  // reconcileOnce up to its first request.
  function Begun(st: Store, ctx: Context, reason: Reason): Loop {
    Loop(ctx, Asking, reason, st.mutationEpoch, [], None, 0)
  }

  function Reconcile(s: State, reason: Reason, ctx: Context): State {
    if !IsCurrent(s.store, ctx) then s
    else if s.store.reconciliation.Some? then
      s.(store := s.store.(queued := Merged(s.store.queued, reason)))
    else
      s.(loops := s.loops + [Begun(s.store, ctx, reason)],
         store := RefreshBegun(s.store).(reconciliation := Some(|s.loops|)))
  }

  function Discovered(origins: map<Id, Origin>, items: seq<Item>, o: Origin): map<Id, Origin> {
    map id | id in origins.Keys + IdSet(items) :: if id in origins then origins[id] else o
  }

  function PageArrives(s: State, l: nat, page: Page): State
    requires l < |s.loops|
  {
    var loop := s.loops[l];
    if !IsCurrent(s.store, loop.ctx) then WithLoop(s, l, loop.(phase := Between))
    else if loop.epoch != s.store.mutationEpoch then
      WithLoop(s, l, loop.(phase := Between)).(store := s.store.(queued := Merged(s.store.queued, Recovery)))
    else
      var rows := PutAll(loop.rows, page.items);
      var pages := loop.pages + 1;
      if pages < s.store.loadedPages && page.next.Some? then
        WithLoop(s, l, loop.(phase := Asking, rows := rows, cursor := page.next, pages := pages))
      else Refreshed(s, l, rows, page, pages)
  }

  function Refreshed(s: State, l: nat, rows: seq<Item>, page: Page, pages: nat): State
    requires l < |s.loops|
  {
    var loop := s.loops[l];
    var origin := if s.store.hasBaseline then ByRefresh(loop.reason, s.clock) else AtBaseline;
    WithLoop(s, l, loop.(phase := LoadingAccounts(s.clock))).(
      store := RefreshApplied(s.store, loop.reason, rows, page, pages),
      origins := Discovered(s.origins, rows, origin))
  }

  function AccountsLoaded(s: State, l: nat, applied: bool): State
    requires l < |s.loops| && s.loops[l].phase.LoadingAccounts?
  {
    var loop := s.loops[l];
    var s' := WithLoop(s, l, loop.(phase := Between));
    if applied && IsCurrent(s.store, loop.ctx) then
      s'.(store := ToastsPublished(s.store), shown := s.shown + Toasts(s.store.pendingLive, loop.phase.since, s.clock))
    else s'
  }

  function Toasts(ids: seq<Id>, since: nat, at: nat): seq<Toast> {
    seq(|ids|, i requires 0 <= i < |ids| => Toast(ids[i], since, at))
  }

  function LoopResumes(s: State, l: nat): State
    requires l < |s.loops|
  {
    var loop := s.loops[l];
    if !IsCurrent(s.store, loop.ctx) then WithLoop(s, l, loop.(phase := Exited))
    else
      match s.store.queued
      case None => WithLoop(s, l, loop.(phase := Exited))
      case Some(reason) =>
        var taken := s.store.(queued := None);
        WithLoop(s, l, Begun(taken, loop.ctx, reason)).(store := RefreshBegun(taken))
  }

  function StepOfLoop(s: State, l: nat, ok: bool): Option<State>
    requires l < |s.loops|
  {
    var loop := s.loops[l];
    match loop.phase
    case Asking =>
      Some(WithLoop(s, l, loop.(phase := if ok then Answered(PageOf(s.server, loop.cursor)) else Between)))
    case Answered(page) => Some(if ok then PageArrives(s, l, page) else WithLoop(s, l, loop.(phase := Between)))
    case LoadingAccounts(_) => Some(AccountsLoaded(s, l, ok))
    case Between => Some(LoopResumes(s, l))
    case Exited => Some(WithLoop(s, l, loop.(phase := Gone)).(store := CleanedUp(s.store, l)))
    case Gone => None
  }

  // ----- Loading more -----------------------------------------------------------------------

  // The finally block.
  function MoreEnds(s: State, m: nat): State
    requires m < |s.mores|
  {
    var more := s.mores[m];
    var s' := WithMore(s, m, more.(phase := Finished));
    if IsCurrent(s.store, more.ctx) then s'.(store := s.store.(loadingMore := false)) else s'
  }

  function MoreAsks(s: State, m: nat): State
    requires m < |s.mores|
  {
    var more := s.mores[m];
    if !IsCurrent(s.store, more.ctx) || s.store.nextCursor.None? then MoreEnds(s, m)
    else WithMore(s, m, More(more.ctx, Requested, s.store.nextCursor.value, s.store.readEpoch, s.store.mutationEpoch))
  }

  // The top of the loop. A reconciliation is awaited once; whether another one has
  // begun by then is not looked at again.
  function MoreLoops(s: State, m: nat): State
    requires m < |s.mores|
  {
    var more := s.mores[m];
    if IsCurrent(s.store, more.ctx) && s.store.reconciliation.Some? then
      WithMore(s, m, more.(phase := Awaiting(s.store.reconciliation.value, false)))
    else MoreAsks(s, m)
  }

  function MoreArrives(s: State, m: nat, page: Page): State
    requires m < |s.mores|
  {
    var more := s.mores[m];
    if !IsCurrent(s.store, more.ctx) then MoreEnds(s, m)
    else if more.mutationEpoch != s.store.mutationEpoch then
      var s' := Reconcile(s, Recovery, more.ctx);
      if s'.store.reconciliation.None? then s'
      else WithMore(s', m, more.(phase := Awaiting(s'.store.reconciliation.value, true)))
    else if more.readEpoch != s.store.readEpoch then MoreLoops(s, m)
    else
      WithMore(s, m, more.(phase := Finished)).(
        store := MoreApplied(s.store, page),
        origins := Discovered(s.origins, page.items, ByMore))
  }

  function StepOfMore(s: State, m: nat, ok: bool): Option<State>
    requires m < |s.mores|
  {
    var more := s.mores[m];
    match more.phase
    case Awaiting(l, again) =>
      if l < |s.loops| && s.loops[l].phase != Gone then None
      else Some(if again then MoreLoops(s, m) else MoreAsks(s, m))
    case Requested =>
      Some(if ok then WithMore(s, m, more.(phase := Received(PageOf(s.server, Some(more.cursor))))) else MoreEnds(s, m))
    case Received(page) => Some(if ok then MoreArrives(s, m, page) else MoreEnds(s, m))
    case Finished => None
  }

  function LoadMoreCalled(s: State): State {
    if s.store.nextCursor.None? || s.store.loadingMore then s
    else
      var ready := s.(store := Opened(s.store));
      match SessionContext(s.store)
      case None => ready
      case Some(ctx) =>
        var begun := ready.(store := ready.store.(loadingMore := true),
                             mores := s.mores + [More(ctx, Finished, 0, 0, 0)]);
        MoreLoops(begun, |s.mores|)
  }

  // ----- Marking read --------------------------------------------------------------------------

  function Enqueued(s: State, target: Target): State {
    var ready := s.(store := Opened(s.store));
    match SessionContext(s.store)
    case None => ready
    case Some(ctx) =>
      ready.(mutations := s.mutations + [Mutation(ctx, target, Waiting, false, map[], 0)],
              store := ready.store.(mutations := s.store.mutations + [|s.mutations|]))
  }

  function MarkReadCalled(s: State, id: Id): State {
    if !ShowsUnread(s.store.items, id) then s else Enqueued(s, One(id))
  }

  function MarkAllReadCalled(s: State): State {
    if s.store.unreadCount == 0 then s
    else Enqueued(s, Every(set i | 0 <= i < |s.store.items| && !s.store.items[i].read :: s.store.items[i].id))
  }

  // A settled mutation leaves the queue.
  function Settle(s: State, k: nat, ok: bool): State
    requires k < |s.mutations|
  {
    var q := s.store.mutations;
    WithMutation(s, k, s.mutations[k].(phase := Settled(ok))).(
      store := s.store.(mutations := if |q| > 0 && q[0] == k then q[1..] else q))
  }

  function MutationBegins(s: State, k: nat): State
    requires k < |s.mutations|
  {
    var mutation := s.mutations[k];
    var ids := Targets(mutation.target);
    if !IsCurrent(s.store, mutation.ctx) || (mutation.target.One? && !ShowsUnread(s.store.items, mutation.target.id))
    then Settle(s, k, true)
    else
      var previous := Readings(s.store.items, ids);
      WithMutation(s, k, mutation.(phase := Sent, asked := true, previous := previous,
                                   previousCount := s.store.unreadCount)).(
        store := MarkedOptimistically(s.store, ids, if mutation.target.One? then 1 else |previous|))
  }

  // The server handles the request: one row of the owner's, or all of them.
  function ServerMarks(server: Server, target: Target): Option<Server> {
    var all := set i | 0 <= i < |server.history| :: server.history[i];
    match target
    case One(id) => if id in all then Some(server.(read := server.read + {id})) else None
    case Every(_) => Some(server.(read := server.read + all))
  }

  function MutationSucceeds(s: State, k: nat, unread: nat): State
    requires k < |s.mutations|
  {
    var mutation := s.mutations[k];
    var ids := Targets(mutation.target);
    if !IsCurrent(s.store, mutation.ctx) then Settle(s, k, true)
    else
      var marked := s.(store := MarkConfirmed(s.store, ids, unread), confirmed := s.confirmed + ids);
      var others := mutation.target.Every? &&
        exists i :: 0 <= i < |marked.store.items| && !marked.store.items[i].read && marked.store.items[i].id !in ids;
      Settle(if others then Reconcile(marked, Recovery, mutation.ctx) else marked, k, true)
  }

  function MutationFails(s: State, k: nat): State
    requires k < |s.mutations|
  {
    var mutation := s.mutations[k];
    if !IsCurrent(s.store, mutation.ctx) then Settle(s, k, false)
    else
      var back := s.(store := MarkRolledBack(s.store, mutation.previous, mutation.previousCount));
      var s' := Reconcile(back, Recovery, mutation.ctx);
      if s'.store.reconciliation.None? then s'
      else WithMutation(s', k, mutation.(phase := Recovering(s'.store.reconciliation.value)))
  }

  function StepOfMutation(s: State, k: nat, ok: bool): Option<State>
    requires k < |s.mutations|
  {
    var mutation := s.mutations[k];
    match mutation.phase
    case Waiting => if k in s.store.mutations && s.store.mutations[0] != k then None else Some(MutationBegins(s, k))
    case Sent =>
      if !ok then Some(MutationFails(s, k))
      else
        (match ServerMarks(s.server, mutation.target)
         case None => None
         case Some(server) =>
           Some(WithMutation(s, k, mutation.(phase := Processed(Unread(server)))).(server := server)))
    case Processed(unread) => Some(if ok then MutationSucceeds(s, k, unread) else MutationFails(s, k))
    case Recovering(l) =>
      if l < |s.loops| && s.loops[l].phase != Gone then None else Some(Settle(s, k, false))
    case Settled(_) => None
  }

  // ----- Runs ------------------------------------------------------------------------------------

  function ReconcileCalled(s: State, reason: Reason): State {
    var ready := s.(store := Opened(s.store));
    match SessionContext(s.store)
    case None => ready
    case Some(ctx) => Reconcile(ready, reason, ctx)
  }

  function WasReset(s: State): State {
    s.(store := Reset(s.store), origins := map[], shown := [], confirmed := {})
  }

  function Without(ids: seq<Id>, id: Id): seq<Id> {
    if |ids| == 0 then []
    else Without(ids[..|ids| - 1], id) + (if ids[|ids| - 1] == id then [] else [ids[|ids| - 1]])
  }

  function Effect(s: State, l: Label): Option<State> {
    match l
    case Insert(id, at) =>
      if at <= |s.server.history| && id !in s.server.history && id !in s.server.read then
        Some(s.(server := s.server.(history := s.server.history[..at] + [id] + s.server.history[at..])))
      else None
    case ReadElsewhere(id) =>
      if id in s.server.history then Some(s.(server := s.server.(read := s.server.read + {id}))) else None
    case AuthChanges => Some(s.(store := s.store.(auth := s.store.auth + 1)))
    case CallReset => Some(WasReset(s))
    case CallReconcile(reason) => Some(ReconcileCalled(s, reason))
    case Invalidate(reason, ctx) => Some(Reconcile(s, reason, ctx))
    case LoopStep(i, ok) => if i < |s.loops| then StepOfLoop(s, i, ok) else None
    case CallLoadMore => Some(LoadMoreCalled(s))
    case MoreStep(m, ok) => if m < |s.mores| then StepOfMore(s, m, ok) else None
    case CallMarkRead(id) => Some(MarkReadCalled(s, id))
    case CallMarkAllRead => Some(MarkAllReadCalled(s))
    case MutationStep(k, ok) => if k < |s.mutations| then StepOfMutation(s, k, ok) else None
    case Dismiss(id) => Some(s.(store := s.store.(toasts := Without(s.store.toasts, id))))
  }

  function Next(s: State, l: Label): Option<State> {
    match Effect(s, l)
    case None => None
    case Some(s') => Some(s'.(clock := s.clock + 1))
  }

  function Run(s: State, ls: seq<Label>): Option<State>
    decreases |ls|
  {
    if |ls| == 0 then Some(s)
    else
      match Next(s, ls[0])
      case None => None
      case Some(s') => Run(s', ls[1..])
  }

  // Runs one after the other.
  lemma {:induction false} RunOn(s: State, ls: seq<Label>, more: seq<Label>)
    requires Run(s, ls).Some?
    ensures Run(s, ls + more) == Run(Run(s, ls).value, more)
    decreases |ls|
  {
    hide Next;
    if |ls| == 0 {
      assert ls + more == more;
    } else {
      assert (ls + more)[1..] == ls[1..] + more;
      RunOn(Next(s, ls[0]).value, ls[1..], more);
    }
  }
}
