// Any number of TransferTx calls running at once, one SQL statement at a time.
//
// The database contract is READ COMMITTED: a statement sees the rows committed
// when it runs plus its own transaction's writes. FOR NO KEY UPDATE locks a row
// against every other such lock until the transaction ends. Account rows only
// change through transactions that hold their lock.
module Protocol {
  import opened Prelude
  import opened Schema
  import opened Serial

  // The next statement of a call.
  datatype Phase =
    // Before the transaction: lookup, and the two unlocked reads of a replay.
    | FastLookup | FastReadFrom | FastReadTo
    // Inside the transaction, in program order.
    | Begin | LockFirst | LockSecond | Relookup | Validate | CheckLimit
    | InsertTransfer | InsertDebit | InsertCredit | Debit | Credit
    | NotifySender | PublishSender | NotifyReceiver | PublishReceiver | Commit
    // Rollback, or the commit of a transaction that wrote nothing.
    | EndTx
    // Lookup of the winner after a unique violation.
    | Resolve
    | Finished

  datatype Call = Call(
    p: Params,
    phase: Phase,
    submitted: nat,                  // index of the committed state at submission
    seen: nat,                       // ... at the first lookup
    at: nat,                         // ... the outcome is decided on
    existing: Option<Transfer>,      // the transfer a fast replay answers with
    fromRow: Option<Account>,        // its sender row, as read
    started: int,                    // clock at the start of the transaction
    checked: int,                    // clock the limit was checked at
    rows: map<AccountId, Account>,   // locked rows, as read under their locks
    work: Tables,                    // private writes
    outcome: Outcome)                // meaningful from EndTx on

  type History = h: seq<Tables> | |h| > 0 witness [EMPTY]

  // What produced a committed state from the one before it.
  datatype Op = TransferOp(c: nat) | OpenOp(id: AccountId, row: Account)

  datatype State = State(
    history: History,                // committed states, oldest first
    causes: seq<Op>,                 // causes[i] led from history[i] to history[i + 1]
    openings: map<AccountId, Account>,
    locks: map<AccountId, nat>,      // lock table: which call holds which row
    calls: seq<Call>,
    clock: int)

  datatype Label =
    | Submit(p: Params)
    | Step(c: nat)
    | Cancel(c: nat)
    | OpenAccount(id: AccountId, row: Account)
    | Tick(delta: nat)

  function Last(h: History): Tables { h[|h| - 1] }

  function Append(h: History, db: Tables): History { h + [db] }

  function Db(s: State): Tables { Last(s.history) }

  const INIT := State([EMPTY], [], map[], map[], [], 0)

  function NewCall(p: Params, now: nat): Call {
    Call(p, FastLookup, now, now, now, None, None, 0, 0, map[], EMPTY, Failed(Cancelled))
  }

  // Rows are locked in id order.
  function First(p: Params): AccountId { if p.from < p.to then p.from else p.to }
  function Second(p: Params): AccountId { if p.from < p.to then p.to else p.from }

  // The id the database generates for the transfer of call c.
  function RowOf(call: Call, c: nat): Transfer {
    TransferRow(call.p, c, call.started)
  }

  function Set(s: State, c: nat, call: Call): State
    requires c < |s.calls|
  {
    s.(calls := s.calls[c := call])
  }

  function Decide(call: Call, outcome: Outcome, at: nat): Call {
    call.(phase := EndTx, outcome := outcome, at := at)
  }

  // ----- Statements before the transaction ------------------------------------
  //
  // Each statement of a call reads the last committed state of the history `h`
  // and rewrites the call's own record. None: it has nothing to run on.

  function StepLookup(h: History, call: Call): Call {
    var now := |h| - 1;
    match FindTransfer(Last(h).transfers, call.p.from, call.p.key)
    case Some(existing) => call.(phase := FastReadFrom, seen := now, at := now, existing := Some(existing))
    case None => call.(phase := Begin, seen := now)
  }

  function StepReadFrom(h: History, call: Call): Option<Call> {
    if call.existing.None? then None
    else if call.existing.value.from in Last(h).accounts then
      Some(call.(phase := FastReadTo, fromRow := Some(Last(h).accounts[call.existing.value.from])))
    else Some(call.(phase := Finished, outcome := Failed(RecordNotFound)))
  }

  function StepReadTo(h: History, call: Call): Option<Call> {
    if call.existing.None? || call.fromRow.None? then None
    else if call.existing.value.to in Last(h).accounts then
      var toRow := Last(h).accounts[call.existing.value.to];
      Some(call.(phase := Finished,
                 outcome := TransferReplay(call.existing.value, call.p, call.fromRow.value, toRow)))
    else Some(call.(phase := Finished, outcome := Failed(RecordNotFound)))
  }

  // ----- Checks under the locks ------------------------------------------------

  function StepRelookup(h: History, call: Call): Option<Call> {
    if call.p.from !in call.rows || call.p.to !in call.rows then None
    else
      match FindTransfer(Last(h).transfers, call.p.from, call.p.key)
      case Some(existing) =>
        Some(Decide(call, TransferReplay(existing, call.p, call.rows[call.p.from], call.rows[call.p.to]), |h| - 1))
      case None => Some(call.(phase := Validate))
  }

  function StepValidate(h: History, call: Call): Option<Call> {
    var p := call.p;
    if p.from !in call.rows || p.to !in call.rows then None
    else if call.rows[p.from].currency != p.currency || call.rows[p.to].currency != p.currency then
      Some(Decide(call, Failed(CurrencyMismatch), |h| - 1))
    else if p.amount > MAX_SAFE_MINOR_UNITS || call.rows[p.to].balance > MAX_SAFE_MINOR_UNITS - p.amount then
      Some(Decide(call, Failed(BalanceLimitExceeded), |h| - 1))
    else Some(call.(phase := CheckLimit))
  }

  function StepCheckLimit(h: History, clock: int, call: Call): Call {
    var checked := call.(checked := clock);
    if OverDailyLimit(call.p, SumOutgoingTransfersSince(Last(h).transfers, call.p.from, clock)) then
      Decide(checked, Failed(DailyLimitExceeded), |h| - 1)
    else checked.(phase := InsertTransfer)
  }

  // ----- Writes ----------------------------------------------------------------

  function StepInsertTransfer(h: History, call: Call, c: nat): Call {
    if FindTransfer(Last(h).transfers, call.p.from, call.p.key).Some? then
      Decide(call, Failed(UniqueViolation), |h| - 1)
    else
      call.(phase := InsertDebit, work := call.work.(transfers := call.work.transfers + [RowOf(call, c)]))
  }

  function StepInsertEntry(call: Call, a: AccountId, amount: int, after: Phase): Call {
    call.(phase := after, work := call.work.(entries := call.work.entries + [Entry(a, amount)]))
  }

  function StepBalance(h: History, call: Call, a: AccountId, amount: int, after: Phase): Call {
    match AddAccountBalance(Overlay(Last(h), call.work).accounts, a, amount)
    case Some(row) => call.(phase := after, work := call.work.(accounts := call.work.accounts[a := row]))
    case None => Decide(call, Failed(InsufficientBalance), |h| - 1)
  }

  function StepNotify(h: History, call: Call, c: nat, direction: Direction, a: AccountId, after: Phase): Call {
    match DeriveNotification(Overlay(Last(h), call.work), direction, c, a)
    case Some(n) => call.(phase := after, work := call.work.(notifications := call.work.notifications + [n]))
    case None => Decide(call, Failed(RecordNotFound), |h| - 1)
  }

  function StepPublish(call: Call, after: Phase): Option<Call> {
    var ns := call.work.notifications;
    if |ns| == 0 then None
    else
      Some(call.(phase := after,
                 work := call.work.(published := call.work.published + [MessageFor(ns[|ns| - 1])])))
  }

  function StepResolve(h: History, call: Call): Call {
    match FindTransfer(Last(h).transfers, call.p.from, call.p.key)
    case Some(existing) => call.(phase := FastReadFrom, at := |h| - 1, existing := Some(existing))
    case None => call.(phase := Finished, outcome := Failed(RecordNotFound))
  }

  // The statements that neither take nor give up locks nor commit.
  function LocalStep(h: History, clock: int, call: Call, c: nat): Option<Call> {
    match call.phase
    case FastLookup => Some(StepLookup(h, call))
    case FastReadFrom => StepReadFrom(h, call)
    case FastReadTo => StepReadTo(h, call)
    case Begin => Some(call.(phase := LockFirst, started := clock))
    case Relookup => StepRelookup(h, call)
    case Validate => StepValidate(h, call)
    case CheckLimit => Some(StepCheckLimit(h, clock, call))
    case InsertTransfer => Some(StepInsertTransfer(h, call, c))
    case InsertDebit => Some(StepInsertEntry(call, call.p.from, -call.p.amount, InsertCredit))
    case InsertCredit => Some(StepInsertEntry(call, call.p.to, call.p.amount, Debit))
    case Debit => Some(StepBalance(h, call, call.p.from, -call.p.amount, Credit))
    case Credit => Some(StepBalance(h, call, call.p.to, call.p.amount, NotifySender))
    case NotifySender => Some(StepNotify(h, call, c, Sent, call.p.from, PublishSender))
    case PublishSender => StepPublish(call, NotifyReceiver)
    case NotifyReceiver => Some(StepNotify(h, call, c, Received, call.p.to, PublishReceiver))
    case PublishReceiver => StepPublish(call, Commit)
    case Resolve => Some(StepResolve(h, call))
    case _ => None
  }

  // ----- Steps on the shared state -----------------------------------------------

  // GetAccountForUpdate reads the row once it holds the lock.
  function Grant(h: History, call: Call, a: AccountId): Call
    requires a in Last(h).accounts
  {
    call.(phase := if call.phase == LockFirst then LockSecond else Relookup,
          rows := call.rows[a := Last(h).accounts[a]])
  }

  // No row: give up. A row held by another call: wait. Otherwise lock and read.
  function StepLock(s: State, c: nat, a: AccountId): Option<State>
    requires c < |s.calls|
  {
    var call := s.calls[c];
    if a !in Db(s).accounts then Some(Set(s, c, Decide(call, Failed(RecordNotFound), call.seen)))
    else if a in s.locks then None
    else Some(Set(s, c, Grant(s.history, call, a)).(locks := s.locks[a := c]))
  }

  // Another transaction has an uncommitted transfer with this source and key; an
  // insert that clashes with it has to wait for it to end.
  predicate InsertWaits(s: State, c: nat)
    requires c < |s.calls|
  {
    exists d :: 0 <= d < |s.calls| && d != c &&
      FindTransfer(s.calls[d].work.transfers, s.calls[c].p.from, s.calls[c].p.key).Some?
  }

  function Release(locks: map<AccountId, nat>, rows: map<AccountId, Account>): map<AccountId, nat> {
    locks - rows.Keys
  }

  function Committed(h: History, call: Call, c: nat): Call
    requires call.p.from in call.work.accounts && call.p.to in call.work.accounts
  {
    var outcome := Created(RowOf(call, c), call.work.accounts[call.p.from], call.work.accounts[call.p.to]);
    call.(phase := Finished, outcome := outcome, at := |h| - 1, rows := map[], work := EMPTY)
  }

  function StepCommit(s: State, c: nat): Option<State>
    requires c < |s.calls|
  {
    var call := s.calls[c];
    if call.p.from !in call.work.accounts || call.p.to !in call.work.accounts then None
    else
      Some(Set(s, c, Committed(s.history, call, c)).(
             history := Append(s.history, Overlay(Db(s), call.work)),
             causes := s.causes + [TransferOp(c)],
             locks := Release(s.locks, call.rows)))
  }

  function Ended(call: Call): Call {
    call.(phase := if call.outcome == Failed(UniqueViolation) then Resolve else Finished, rows := map[], work := EMPTY)
  }

  function StepEndTx(s: State, c: nat): State
    requires c < |s.calls|
  {
    Set(s, c, Ended(s.calls[c])).(locks := Release(s.locks, s.calls[c].rows))
  }

  // One statement of call c; None when it has to wait or has nothing to do.
  function Advance(s: State, c: nat): Option<State>
    requires c < |s.calls|
  {
    var call := s.calls[c];
    match call.phase
    case LockFirst => StepLock(s, c, First(call.p))
    case LockSecond => StepLock(s, c, Second(call.p))
    case Commit => StepCommit(s, c)
    case EndTx => Some(StepEndTx(s, c))
    case _ =>
      if call.phase == InsertTransfer && InsertWaits(s, c) then None
      else
        match LocalStep(s.history, s.clock, call, c)
        case None => None
        case Some(next) => Some(Set(s, c, next))
  }

  // A call whose client goes away before its outcome is decided. Inside the
  // transaction it still has to roll back.
  function Abandoned(call: Call): Option<Call> {
    match call.phase
    case Finished => None
    case EndTx => None
    case FastLookup => Some(call.(phase := Finished, outcome := Failed(Cancelled)))
    case FastReadFrom => Some(call.(phase := Finished, outcome := Failed(Cancelled)))
    case FastReadTo => Some(call.(phase := Finished, outcome := Failed(Cancelled)))
    case Begin => Some(call.(phase := Finished, outcome := Failed(Cancelled)))
    case Resolve => Some(call.(phase := Finished, outcome := Failed(Cancelled)))
    case _ => Some(Decide(call, Failed(Cancelled), call.seen))
  }

  function Abandon(s: State, c: nat): Option<State>
    requires c < |s.calls|
  {
    match Abandoned(s.calls[c])
    case None => None
    case Some(call) => Some(Set(s, c, call))
  }

  function Next(s: State, l: Label): Option<State> {
    match l
    case Submit(p) =>
      if Admissible(p) then Some(s.(calls := s.calls + [NewCall(p, |s.history| - 1)])) else None
    case Step(c) => if c < |s.calls| then Advance(s, c) else None
    case Cancel(c) => if c < |s.calls| then Abandon(s, c) else None
    case OpenAccount(id, row) =>
      // A transaction whose writes nobody else can see until it commits, taken
      // as one step.
      if OpenFailure(Db(s), id, row).None? then
        Some(s.(history := Append(s.history, Open(Db(s), id, row)),
                causes := s.causes + [OpenOp(id, row)],
                openings := s.openings[id := row]))
      else Some(s)
    case Tick(delta) => Some(s.(clock := s.clock + delta))
  }

  // Executing a sequence of labels from the empty database.
  function Run(ls: seq<Label>): Option<State>
  {
    if |ls| == 0 then Some(INIT)
    else
      match Run(ls[..|ls| - 1])
      case None => None
      case Some(s) => Next(s, ls[|ls| - 1])
  }
}
