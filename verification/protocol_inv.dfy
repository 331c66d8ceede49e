// What holds in every reachable state of the transfer protocol, and the proof
// that each step keeps it.
module ProtocolInv {
  import opened Prelude
  import opened Schema
  import opened Serial
  import opened Protocol

  // Position in the transaction program; 0 outside it.
  function Order(phase: Phase): nat {
    match phase
    case Begin => 1
    case LockFirst => 2
    case LockSecond => 3
    case Relookup => 4
    case Validate => 5
    case CheckLimit => 6
    case InsertTransfer => 7
    case InsertDebit => 8
    case InsertCredit => 9
    case Debit => 10
    case Credit => 11
    case NotifySender => 12
    case PublishSender => 13
    case NotifyReceiver => 14
    case PublishReceiver => 15
    case Commit => 16
    case _ => 0
  }

  // ----- Committed states ----------------------------------------------------

  // Rows are only ever added, and an account keeps its owner and currency.
  ghost predicate Extends(a: Tables, b: Tables) {
    && (forall x :: x in a.accounts ==>
          x in b.accounts && b.accounts[x].owner == a.accounts[x].owner && b.accounts[x].currency == a.accounts[x].currency)
    && a.transfers <= b.transfers && a.entries <= b.entries
    && a.notifications <= b.notifications && a.published <= b.published
  }

  ghost predicate HistoryInv(h: History) {
    && h[0] == EMPTY
    && (forall i :: 0 <= i < |h| ==> LedgerInv(h[i]))
    && (forall i, j :: 0 <= i <= j < |h| ==> Extends(h[i], h[j]))
  }

  // ----- One call ------------------------------------------------------------

  ghost predicate RowsInv(db: Tables, call: Call) {
    && (forall a :: a in call.rows ==> a in db.accounts && call.rows[a] == db.accounts[a])
    && (forall a :: a in call.rows ==> a == call.p.from || a == call.p.to)
    && match call.phase
       case LockSecond => call.rows.Keys == {First(call.p)}
       case EndTx => true
       case _ =>
         if Order(call.phase) >= 4 then call.p.from in call.rows && call.p.to in call.rows else call.rows == map[]
  }

  ghost predicate LookupInv(h: History, call: Call) {
    && call.submitted <= call.seen < |h|
    && (Order(call.phase) >= 1 ==> FindTransfer(h[call.seen].transfers, call.p.from, call.p.key).None?)
    && (call.phase == FastReadFrom || call.phase == FastReadTo ==>
          && call.submitted <= call.at < |h| && call.existing.Some?
          && FindTransfer(h[call.at].transfers, call.p.from, call.p.key) == call.existing)
    && (call.phase == FastReadTo ==>
          && call.fromRow.Some? && call.existing.value.from in h[call.at].accounts
          && call.fromRow.value.currency == h[call.at].accounts[call.existing.value.from].currency)
  }

  ghost predicate ChecksInv(db: Tables, clock: int, call: Call)
    requires RowsInv(db, call)
  {
    var p := call.p;
    && (Order(call.phase) >= 5 ==> FindTransfer(db.transfers, p.from, p.key).None?)
    && (Order(call.phase) >= 6 ==>
          && call.rows[p.from].currency == p.currency == call.rows[p.to].currency
          && p.amount <= MAX_SAFE_MINOR_UNITS && call.rows[p.to].balance + p.amount <= MAX_SAFE_MINOR_UNITS)
    && (Order(call.phase) >= 7 ==>
          && call.checked <= clock
          && (p.dailyLimit > 0 ==> Outgoing(db.transfers, p.from, call.checked - DAY) + p.amount <= p.dailyLimit))
    && (Order(call.phase) >= 11 ==> call.rows[p.from].balance >= p.amount)
  }

  // The private writes are exactly the part of the posting done so far.
  ghost predicate WorkInv(call: Call, c: nat)
    requires Order(call.phase) >= 8 ==> call.p.from in call.rows && call.p.to in call.rows
  {
    var n := Order(call.phase);
    if call.phase == EndTx then
      forall x :: x in call.work.transfers ==> x.from == call.p.from && call.p.from in call.rows
    else if n < 8 then call.work == EMPTY
    else
      var full := Posting(call.rows, call.p, RowOf(call, c));
      && call.work.transfers == full.transfers
      && call.work.entries == (if n == 8 then [] else if n == 9 then [full.entries[0]] else full.entries)
      && call.work.accounts ==
           (if n <= 10 then map[]
            else if n == 11 then map[call.p.from := full.accounts[call.p.from]]
            else full.accounts)
      && call.work.notifications ==
           (if n <= 12 then [] else if n <= 14 then [full.notifications[0]] else full.notifications)
      && call.work.published ==
           (if n <= 13 then [] else if n <= 15 then [full.published[0]] else full.published)
  }

  // A decided call: the serial transfer, run on the committed state it was
  // decided on, gives its outcome; a created transfer is the next commit.
  ghost predicate DecidedInv(h: History, call: Call, c: nat) {
    (call.phase == EndTx || call.phase == Finished) && call.outcome != Failed(Cancelled) ==>
      && call.submitted <= call.at < |h|
      && Transact(h[call.at], call.p, c, call.started, call.checked).1 == call.outcome
      && (call.outcome.Created? ==>
            && call.phase == Finished && call.at + 1 < |h|
            && h[call.at + 1] == Transact(h[call.at], call.p, c, call.started, call.checked).0)
  }

  ghost predicate CallInv(h: History, clock: int, call: Call, c: nat) {
    && Admissible(call.p) && call.phase != Resolve
    && RowsInv(Last(h), call)
    && LookupInv(h, call)
    && ChecksInv(Last(h), clock, call)
    && WorkInv(call, c)
    && DecidedInv(h, call, c)
  }

  // ----- The whole state -----------------------------------------------------

  // The lock table says exactly who holds which row.
  ghost predicate LocksInv(s: State) {
    && (forall a :: a in s.locks ==> s.locks[a] < |s.calls| && a in s.calls[s.locks[a]].rows)
    && (forall c, a {:trigger a in s.calls[c].rows} ::
          0 <= c < |s.calls| && a in s.calls[c].rows ==> a in s.locks && s.locks[a] == c)
  }

  // Every committed transfer is the outcome of the call whose number it carries.
  ghost predicate OriginInv(s: State) {
    forall x :: x in Db(s).transfers ==>
      x.id < |s.calls| && s.calls[x.id].phase == Finished
      && s.calls[x.id].outcome.Created? && s.calls[x.id].outcome.transfer == x
  }

  ghost predicate HasCreated(call: Call) {
    call.phase == Finished && call.outcome.Created?
  }

  ghost predicate Explains(s: State, i: nat)
    requires i < |s.causes| && i + 1 < |s.history|
  {
    match s.causes[i]
    case TransferOp(c) => c < |s.calls| && HasCreated(s.calls[c]) && s.calls[c].at == i
    case OpenOp(id, row) =>
      OpenFailure(s.history[i], id, row).None? && s.history[i + 1] == Open(s.history[i], id, row)
  }

  // Each committed state has its cause, and each created transfer is one cause.
  ghost predicate CausesInv(s: State) {
    && |s.causes| == |s.history| - 1
    && (forall i :: 0 <= i < |s.causes| ==> Explains(s, i))
    && (forall c :: 0 <= c < |s.calls| && HasCreated(s.calls[c]) ==>
          s.calls[c].at < |s.causes| && s.causes[s.calls[c].at] == TransferOp(c))
  }

  // Balances of one currency add up to what its accounts were opened with.
  ghost predicate Conserved(openings: map<AccountId, Account>, accounts: map<AccountId, Account>) {
    && openings.Keys == accounts.Keys
    && (forall currency, bound: nat ::
          (forall a :: a in openings ==> a < bound) ==>
          Total(accounts, currency, bound) == Total(openings, currency, bound))
  }

  ghost predicate Inv(s: State) {
    && HistoryInv(s.history)
    && (forall c :: 0 <= c < |s.calls| ==> CallInv(s.history, s.clock, s.calls[c], c))
    && LocksInv(s)
    && OriginInv(s)
    && CausesInv(s)
    && Conserved(s.openings, Db(s).accounts)
  }

  // ----- Frames --------------------------------------------------------------

  // Steps that commit nothing.
  lemma CausesFrame(s: State, s': State)
    requires CausesInv(s) && s'.history == s.history && s'.causes == s.causes && |s.calls| <= |s'.calls|
    requires forall d :: 0 <= d < |s.calls| ==>
               s'.calls[d] == s.calls[d] || (!HasCreated(s.calls[d]) && !HasCreated(s'.calls[d]))
    requires forall d :: |s.calls| <= d < |s'.calls| ==> !HasCreated(s'.calls[d])
    ensures CausesInv(s')
  {
    forall i | 0 <= i < |s'.causes|
      ensures Explains(s', i)
    {
      assert Explains(s, i);
    }
  }

  // A commit adds its cause.
  lemma CausesExtend(s: State, s': State, op: Op)
    requires CausesInv(s) && |s'.calls| == |s.calls|
    requires |s'.history| == |s.history| + 1 && s'.history[..|s.history|] == s.history
    requires s'.causes == s.causes + [op]
    requires forall d :: 0 <= d < |s.calls| ==>
               s'.calls[d] == s.calls[d] ||
               (op == TransferOp(d) && !HasCreated(s.calls[d]) && HasCreated(s'.calls[d]) && s'.calls[d].at == |s.causes|)
    requires Explains(s', |s.causes|)
    ensures CausesInv(s')
  {
    forall i | 0 <= i < |s'.causes|
      ensures Explains(s', i)
    {
      if i < |s.causes| {
        assert Explains(s, i);
        assert s'.history[i] == s'.history[..|s.history|][i] && s'.history[i + 1] == s'.history[..|s.history|][i + 1];
      }
    }
  }

  // A step of one call that touches nothing shared.
  lemma LocalFrame(s: State, c: nat, call: Call)
    requires Inv(s) && c < |s.calls|
    requires s.calls[c].phase != Finished && call.rows == s.calls[c].rows
    requires call.phase == Finished ==> !call.outcome.Created?
    requires CallInv(s.history, s.clock, call, c)
    ensures Inv(Set(s, c, call))
  {
    hide CallInv, HistoryInv, Conserved, CausesInv;
    CausesFrame(s, Set(s, c, call));
  }

  // A step that gives up the locks of one call.
  lemma ReleaseFrame(s: State, c: nat, call: Call)
    requires Inv(s) && c < |s.calls|
    requires s.calls[c].phase != Finished && call.rows == map[]
    requires call.phase == Finished ==> !call.outcome.Created?
    requires CallInv(s.history, s.clock, call, c)
    ensures Inv(Set(s, c, call).(locks := Release(s.locks, s.calls[c].rows)))
  {
    hide CallInv, HistoryInv, Conserved, CausesInv;
    CausesFrame(s, Set(s, c, call).(locks := Release(s.locks, s.calls[c].rows)));
    ReleaseLocks(s, Set(s, c, call).(locks := Release(s.locks, s.calls[c].rows)), c);
  }

  // A step that takes one free lock.
  lemma LockFrame(s: State, c: nat, call: Call, a: AccountId)
    requires Inv(s) && c < |s.calls| && a !in s.locks
    requires s.calls[c].phase != Finished && call.rows.Keys == s.calls[c].rows.Keys + {a}
    requires call.phase != Finished
    requires CallInv(s.history, s.clock, call, c)
    ensures Inv(Set(s, c, call).(locks := s.locks[a := c]))
  {
    hide CallInv, HistoryInv, Conserved, CausesInv;
    CausesFrame(s, Set(s, c, call).(locks := s.locks[a := c]));
    var s' := Set(s, c, call).(locks := s.locks[a := c]);
    forall d, b | 0 <= d < |s'.calls| && b in s'.calls[d].rows
      ensures b in s'.locks && s'.locks[b] == d
    {
      if d != c {
        assert b in s.calls[d].rows;
      }
    }
  }

  // What a commit must leave alone for a call that is still running.
  ghost predicate Undisturbed(db: Tables, db': Tables, call: Call) {
    && (forall a :: a in call.rows ==> a in db'.accounts && a in db.accounts && db'.accounts[a] == db.accounts[a])
    && (call.p.from in call.rows ==>
          && FindTransfer(db'.transfers, call.p.from, call.p.key) == FindTransfer(db.transfers, call.p.from, call.p.key)
          && Outgoing(db'.transfers, call.p.from, call.checked - DAY) == Outgoing(db.transfers, call.p.from, call.checked - DAY))
  }

  lemma CallStable(h: History, clock: int, db': Tables, call: Call, c: nat)
    requires CallInv(h, clock, call, c) && Undisturbed(Last(h), db', call)
    ensures CallInv(Append(h, db'), clock, call, c)
  {
    var h' := Append(h, db');
    assert h'[call.seen] == h[call.seen];
    if call.at < |h| { assert h'[call.at] == h[call.at]; }
    if call.at + 1 < |h| { assert h'[call.at + 1] == h[call.at + 1]; }
    assert Last(h') == db';
  }

  lemma ExtendHistory(h: History, db': Tables)
    requires HistoryInv(h) && LedgerInv(db') && Extends(Last(h), db')
    ensures HistoryInv(Append(h, db'))
  {
    var h' := Append(h, db');
    forall i, j | 0 <= i <= j < |h'|
      ensures Extends(h'[i], h'[j])
    {
      if j == |h| && i < |h| {
        assert Extends(h[i], h[|h| - 1]);
      }
    }
  }

  // ----- Each statement, on its own call --------------------------------------

  lemma LookupKeeps(h: History, clock: int, call: Call, c: nat)
    requires CallInv(h, clock, call, c) && call.phase == FastLookup
    ensures CallInv(h, clock, StepLookup(h, call), c)
  {
  }

  // The rows of a committed transfer are there in every later state, and keep
  // their currencies, so reading them one by one decides the same.
  lemma ReadFromKeeps(h: History, clock: int, call: Call, c: nat)
    requires CallInv(h, clock, call, c) && call.phase == FastReadFrom
    requires LedgerInv(h[call.at]) && Extends(h[call.at], Last(h))
    ensures StepReadFrom(h, call).Some? && CallInv(h, clock, StepReadFrom(h, call).value, c)
  {
    assert call.existing.value in h[call.at].transfers;
  }

  lemma ReadToKeeps(h: History, clock: int, call: Call, c: nat)
    requires CallInv(h, clock, call, c) && call.phase == FastReadTo
    requires LedgerInv(h[call.at]) && Extends(h[call.at], Last(h))
    ensures StepReadTo(h, call).Some? && CallInv(h, clock, StepReadTo(h, call).value, c)
  {
    assert call.existing.value in h[call.at].transfers;
  }

  // A row missing now was missing at the first lookup too: accounts never go.
  lemma MissingRowKeeps(h: History, clock: int, call: Call, c: nat, a: AccountId)
    requires CallInv(h, clock, call, c) && 2 <= Order(call.phase) <= 3
    requires Extends(h[call.seen], Last(h))
    requires (a == call.p.from || a == call.p.to) && a !in Last(h).accounts
    ensures CallInv(h, clock, Decide(call, Failed(RecordNotFound), call.seen), c)
  {
  }

  lemma GrantKeeps(h: History, clock: int, call: Call, c: nat, a: AccountId)
    requires CallInv(h, clock, call, c) && a in Last(h).accounts
    requires (call.phase == LockFirst && a == First(call.p)) || (call.phase == LockSecond && a == Second(call.p))
    ensures CallInv(h, clock, Grant(h, call, a), c)
  {
  }

  lemma RelookupKeeps(h: History, clock: int, call: Call, c: nat)
    requires CallInv(h, clock, call, c) && call.phase == Relookup && TransferRowsSound(Last(h))
    ensures StepRelookup(h, call).Some? && CallInv(h, clock, StepRelookup(h, call).value, c)
  {
    var found := FindTransfer(Last(h).transfers, call.p.from, call.p.key);
    if found.Some? { assert found.value in Last(h).transfers; }
  }

  lemma CheckLimitKeeps(h: History, clock: int, call: Call, c: nat)
    requires CallInv(h, clock, call, c) && call.phase == CheckLimit && TransferRowsSound(Last(h))
    ensures CallInv(h, clock, StepCheckLimit(h, clock, call), c)
  {
    DailyLimitTestExact(Last(h).transfers, call.p, clock);
  }

  // Moving to the next write changes nothing but the phase and the writes.
  lemma WriteKeeps(h: History, clock: int, call: Call, next: Call, c: nat)
    requires CallInv(h, clock, call, c) && 7 <= Order(call.phase)
    requires next == call.(phase := next.phase, work := next.work) && 8 <= Order(next.phase)
    requires Order(next.phase) >= 11 ==> call.rows[call.p.from].balance >= call.p.amount
    requires WorkInv(next, c)
    ensures CallInv(h, clock, next, c)
  {
    hide WorkInv, Serial.Transact;
  }

  lemma InsertTransferKeeps(h: History, clock: int, call: Call, c: nat)
    requires CallInv(h, clock, call, c) && call.phase == InsertTransfer
    ensures CallInv(h, clock, StepInsertTransfer(h, call, c), c)
  {
    hide DecidedInv, LookupInv;
    WriteKeeps(h, clock, call, StepInsertTransfer(h, call, c), c);
  }

  lemma InsertEntryKeeps(h: History, clock: int, call: Call, c: nat)
    requires CallInv(h, clock, call, c) && (call.phase == InsertDebit || call.phase == InsertCredit)
    ensures CallInv(h, clock, LocalStep(h, clock, call, c).value, c)
  {
    hide DecidedInv, LookupInv;
    WriteKeeps(h, clock, call, LocalStep(h, clock, call, c).value, c);
  }

  // Deciding under the locks what the serial transfer answers on the last commit.
  lemma DecideKeeps(h: History, clock: int, call: Call, c: nat, outcome: Outcome)
    requires CallInv(h, clock, call, c) && 4 <= Order(call.phase)
    requires outcome == Serial.Transact(Last(h), call.p, c, call.started, call.checked).1 && !outcome.Created?
    ensures CallInv(h, clock, Decide(call, outcome, |h| - 1), c)
  {
    hide Serial.Transact;
  }

  lemma ValidateKeeps(h: History, clock: int, call: Call, c: nat)
    requires CallInv(h, clock, call, c) && call.phase == Validate
    ensures StepValidate(h, call).Some? && CallInv(h, clock, StepValidate(h, call).value, c)
  {
    var next := StepValidate(h, call).value;
    if next.phase == EndTx {
      RefusalDecides(Last(h), clock, call, c, next.outcome);
      hide CallInv, Serial.Transact;
      DecideKeeps(h, clock, call, c, next.outcome);
    }
    hide DecidedInv, FindTransfer, Posting;
  }

  lemma RefusalDecides(db: Tables, clock: int, call: Call, c: nat, outcome: Outcome)
    requires RowsInv(db, call) && ChecksInv(db, clock, call) && call.phase == Validate
    requires var p := call.p;
             || (outcome == Failed(CurrencyMismatch) &&
                 (call.rows[p.from].currency != p.currency || call.rows[p.to].currency != p.currency))
             || (outcome == Failed(BalanceLimitExceeded) &&
                 call.rows[p.from].currency == p.currency == call.rows[p.to].currency &&
                 (p.amount > MAX_SAFE_MINOR_UNITS || call.rows[p.to].balance > MAX_SAFE_MINOR_UNITS - p.amount))
    ensures Serial.Transact(db, call.p, c, call.started, call.checked).1 == outcome
  {
    hide Posting, Outgoing, FindTransfer;
  }

  lemma ShortBalanceDecides(db: Tables, clock: int, call: Call, c: nat)
    requires RowsInv(db, call) && ChecksInv(db, clock, call) && call.phase == Debit
    requires call.rows[call.p.from].balance < call.p.amount
    ensures Serial.Transact(db, call.p, c, call.started, call.checked).1 == Failed(InsufficientBalance)
  {
  }

  // The debit guard fails exactly when the locked source balance is too small.
  lemma DebitGuard(db: Tables, call: Call, c: nat)
    requires RowsInv(db, call) && WorkInv(call, c) && call.phase == Debit
    requires AccountsMatchEntries(db) && Admissible(call.p)
    ensures AddAccountBalance(Overlay(db, call.work).accounts, call.p.from, -call.p.amount) ==
            if call.rows[call.p.from].balance < call.p.amount then None
            else Some(Posting(call.rows, call.p, RowOf(call, c)).accounts[call.p.from])
  {
  }

  // The credit guard never fails.
  lemma CreditGuard(db: Tables, clock: int, call: Call, c: nat)
    requires RowsInv(db, call) && ChecksInv(db, clock, call) && WorkInv(call, c) && call.phase == Credit
    requires AccountsMatchEntries(db) && Admissible(call.p)
    ensures AddAccountBalance(Overlay(db, call.work).accounts, call.p.to, call.p.amount) ==
            Some(Posting(call.rows, call.p, RowOf(call, c)).accounts[call.p.to])
  {
  }

  lemma DebitKeeps(h: History, clock: int, call: Call, c: nat)
    requires CallInv(h, clock, call, c) && call.phase == Debit && AccountsMatchEntries(Last(h))
    ensures CallInv(h, clock, LocalStep(h, clock, call, c).value, c)
  {
    hide DecidedInv, LookupInv, AccountsMatchEntries, Serial.Transact, AddAccountBalance, ChecksInv;
    DebitGuard(Last(h), call, c);
    if call.rows[call.p.from].balance < call.p.amount {
      ShortBalanceDecides(Last(h), clock, call, c);
      DecideKeeps(h, clock, call, c, Failed(InsufficientBalance));
    } else {
      WriteKeeps(h, clock, call, LocalStep(h, clock, call, c).value, c);
    }
  }

  lemma CreditKeeps(h: History, clock: int, call: Call, c: nat)
    requires CallInv(h, clock, call, c) && call.phase == Credit && AccountsMatchEntries(Last(h))
    ensures LocalStep(h, clock, call, c).value.phase == NotifySender
    ensures CallInv(h, clock, LocalStep(h, clock, call, c).value, c)
  {
    hide DecidedInv, LookupInv, AccountsMatchEntries, Serial.Transact, AddAccountBalance;
    CreditGuard(Last(h), clock, call, c);
    WriteKeeps(h, clock, call, LocalStep(h, clock, call, c).value, c);
  }

  // What the two notifications are derived as, once both balances are written.
  lemma Derived(db: Tables, call: Call, c: nat)
    requires RowsInv(db, call) && WorkInv(call, c) && Admissible(call.p)
    requires call.phase == NotifySender || call.phase == NotifyReceiver
    requires FindById(Overlay(db, call.work).transfers, c) == Some(RowOf(call, c))
    ensures var full := Posting(call.rows, call.p, RowOf(call, c));
            var view := Overlay(db, call.work);
            && DeriveNotification(view, Sent, c, call.p.from) == Some(full.notifications[0])
            && DeriveNotification(view, Received, c, call.p.to) == Some(full.notifications[1])
  {
    hide FindById;
  }

  lemma NotifyKeeps(h: History, clock: int, call: Call, c: nat)
    requires CallInv(h, clock, call, c) && (call.phase == NotifySender || call.phase == NotifyReceiver)
    ensures LocalStep(h, clock, call, c).Some? && CallInv(h, clock, LocalStep(h, clock, call, c).value, c)
  {
    FindByIdAppend(Last(h).transfers, RowOf(call, c));
    hide DecidedInv, LookupInv, FindById;
    Derived(Last(h), call, c);
    hide DeriveNotification, Overlay;
    WriteKeeps(h, clock, call, LocalStep(h, clock, call, c).value, c);
  }

  lemma PublishKeeps(h: History, clock: int, call: Call, c: nat)
    requires CallInv(h, clock, call, c) && (call.phase == PublishSender || call.phase == PublishReceiver)
    ensures LocalStep(h, clock, call, c).Some? && CallInv(h, clock, LocalStep(h, clock, call, c).value, c)
  {
    hide DecidedInv, LookupInv;
    WriteKeeps(h, clock, call, LocalStep(h, clock, call, c).value, c);
  }

  lemma BeginKeeps(h: History, clock: int, call: Call, c: nat)
    requires CallInv(h, clock, call, c) && call.phase == Begin
    ensures CallInv(h, clock, call.(phase := LockFirst, started := clock), c)
  {
  }

  lemma LocalRows(h: History, clock: int, call: Call, c: nat)
    requires LocalStep(h, clock, call, c).Some?
    ensures LocalStep(h, clock, call, c).value.rows == call.rows && call.phase != Finished
    ensures LocalStep(h, clock, call, c).value.phase == Finished ==>
              !LocalStep(h, clock, call, c).value.outcome.Created?
  {
  }

  lemma FastSound(h: History, clock: int, call: Call, c: nat)
    requires CallInv(h, clock, call, c) && HistoryInv(h)
    requires call.phase == FastReadFrom || call.phase == FastReadTo
    ensures call.at < |h| && LedgerInv(h[call.at]) && Extends(h[call.at], Last(h))
  {
    assert Extends(h[call.at], h[|h| - 1]);
  }

  lemma EndedKeeps(h: History, clock: int, call: Call, c: nat)
    requires CallInv(h, clock, call, c) && call.phase == EndTx
    ensures CallInv(h, clock, Ended(call), c)
    ensures !Ended(call).outcome.Created?
  {
  }

  lemma AbandonedKeeps(h: History, clock: int, call: Call, c: nat)
    requires CallInv(h, clock, call, c) && Abandoned(call).Some?
    ensures CallInv(h, clock, Abandoned(call).value, c)
    ensures Abandoned(call).value.rows == call.rows
    ensures !Abandoned(call).value.outcome.Created?
  {
  }

  // ----- Commit -----------------------------------------------------------------

  // The finished private writes are the posting of the serial transfer.
  lemma CommitDecides(db: Tables, clock: int, call: Call, c: nat)
    requires Admissible(call.p) && RowsInv(db, call) && ChecksInv(db, clock, call) && WorkInv(call, c)
    requires call.phase == Commit
    ensures call.p.from in call.work.accounts && call.p.to in call.work.accounts
    ensures call.work == Posting(db.accounts, call.p, RowOf(call, c))
    ensures Serial.Transact(db, call.p, c, call.started, call.checked) ==
            (Overlay(db, call.work),
             Created(RowOf(call, c), call.work.accounts[call.p.from], call.work.accounts[call.p.to]))
  {
    assert Posting(db.accounts, call.p, RowOf(call, c)) == Posting(call.rows, call.p, RowOf(call, c));
  }

  lemma CommittedDecided(h: History, call: Call, c: nat, db': Tables)
    requires call.p.from in call.work.accounts && call.p.to in call.work.accounts
    requires LookupInv(h, call) && Order(call.phase) > 0
    requires Serial.Transact(Last(h), call.p, c, call.started, call.checked) == (db', Committed(h, call, c).outcome)
    ensures DecidedInv(Append(h, db'), Committed(h, call, c), c)
    ensures LookupInv(Append(h, db'), Committed(h, call, c))
  {
    hide Serial.Transact;
    var h' := Append(h, db');
    assert h'[call.seen] == h[call.seen] && h'[|h| - 1] == Last(h);
  }

  lemma CommittedKeeps(h: History, clock: int, call: Call, c: nat)
    requires CallInv(h, clock, call, c) && call.phase == Commit
    ensures call.p.from in call.work.accounts && call.p.to in call.work.accounts
    ensures CallInv(Append(h, Overlay(Last(h), call.work)), clock, Committed(h, call, c), c)
  {
    hide LookupInv, DecidedInv;
    CommitDecides(Last(h), clock, call, c);
    hide Serial.Transact, Posting, Overlay;
    CommittedDecided(h, call, c, Overlay(Last(h), call.work));
  }

  // A commit leaves the rows, and the transfers of the sources, of every other
  // running call alone.
  lemma PostingUndisturbs(db: Tables, p: Params, row: Transfer, other: Call)
    requires p.from in db.accounts && p.to in db.accounts && row.from == p.from
    requires forall a :: a in other.rows ==> a in db.accounts && a != p.from && a != p.to
    ensures Undisturbed(db, Overlay(db, Posting(db.accounts, p, row)), other)
  {
    if other.p.from in other.rows {
      FindTransferOther(db.transfers, row, other.p.from, other.p.key);
      OutgoingAppend(db.transfers, row, other.p.from, other.checked - DAY);
    }
  }

  lemma CommitUndisturbed(s: State, c: nat, d: nat)
    requires Inv(s) && c < |s.calls| && d < |s.calls| && c != d && s.calls[c].phase == Commit
    ensures Undisturbed(Db(s), Overlay(Db(s), s.calls[c].work), s.calls[d])
  {
    hide CallInv, HistoryInv, Conserved, OriginInv, CausesInv, Undisturbed, RowsInv, ChecksInv, WorkInv;
    CallParts(s, c);
    CallParts(s, d);
    CommitDecides(Db(s), s.clock, s.calls[c], c);
    PostingUndisturbs(Db(s), s.calls[c].p, RowOf(s.calls[c], c), s.calls[d]);
  }

  lemma CallParts(s: State, c: nat)
    requires Inv(s) && c < |s.calls|
    ensures Admissible(s.calls[c].p)
    ensures RowsInv(Db(s), s.calls[c]) && ChecksInv(Db(s), s.clock, s.calls[c]) && WorkInv(s.calls[c], c)
    ensures forall a :: a in s.calls[c].rows ==> a in Db(s).accounts
    ensures s.calls[c].phase == Commit ==> s.calls[c].p.from in s.calls[c].rows && s.calls[c].p.to in s.calls[c].rows
  {
    hide HistoryInv, Conserved, LocksInv, OriginInv, CausesInv, DecidedInv, LookupInv;
    assert CallInv(s.history, s.clock, s.calls[c], c);
  }

  lemma FindTransferOther(ts: seq<Transfer>, row: Transfer, from: AccountId, key: Key)
    requires row.from != from
    ensures FindTransfer(ts + [row], from, key) == FindTransfer(ts, from, key)
  {
    assert (ts + [row])[..|ts|] == ts;
  }

  lemma PostingExtends(db: Tables, p: Params, tr: Transfer)
    requires p.from in db.accounts && p.to in db.accounts && p.from != p.to
    ensures Extends(db, Overlay(db, Posting(db.accounts, p, tr)))
  {
  }

  // Until a call commits, no committed transfer carries its number.
  lemma UncommittedIsFresh(s: State, c: nat)
    requires OriginInv(s) && c < |s.calls| && s.calls[c].phase != Finished
    ensures Fresh(Db(s), c)
  {
  }

  lemma PostingConserves(openings: map<AccountId, Account>, db: Tables, p: Params, c: nat, started: int, checked: int)
    requires Conserved(openings, db.accounts) && LedgerInv(db) && Admissible(p)
    requires p.from in db.accounts && p.to in db.accounts
    ensures Conserved(openings, Serial.Transact(db, p, c, started, checked).0.accounts)
  {
    hide LedgerInv;
    var accounts := Serial.Transact(db, p, c, started, checked).0.accounts;
    forall currency, bound: nat | forall a :: a in openings ==> a < bound
      ensures Total(accounts, currency, bound) == Total(openings, currency, bound)
    {
      TransactConserves(db, p, c, started, checked, currency, bound);
    }
  }

  // The committed state after a commit: sound, and an extension of the one before.
  lemma CommitHistory(s: State, c: nat)
    requires Inv(s) && c < |s.calls| && s.calls[c].phase == Commit
    ensures HistoryInv(Append(s.history, Overlay(Db(s), s.calls[c].work)))
    ensures Conserved(s.openings, Overlay(Db(s), s.calls[c].work).accounts)
  {
    hide LocksInv, CallInv, HistoryInv, Conserved, LedgerInv, RowsInv, ChecksInv, WorkInv, OriginInv, CausesInv, Extends;
    hide Serial.Transact, Posting, Overlay, Fresh, RowOf;
    var call := s.calls[c];
    CallParts(s, c);
    CommitDecides(Db(s), s.clock, call, c);
    UncommittedIsFresh(s, c);
    LastSound(s.history);
    TransactKeepsLedger(Db(s), call.p, c, call.started, call.checked);
    assert call.p.from in Db(s).accounts && call.p.to in Db(s).accounts;
    PostingExtends(Db(s), call.p, RowOf(call, c));
    ExtendHistory(s.history, Overlay(Db(s), call.work));
    PostingConserves(s.openings, Db(s), call.p, c, call.started, call.checked);
  }

  lemma CommitKeeps(s: State, c: nat)
    requires Inv(s) && c < |s.calls| && s.calls[c].phase == Commit
    ensures StepCommit(s, c).Some? && Inv(StepCommit(s, c).value)
  {
    hide CallInv, HistoryInv, Conserved, RowsInv, ChecksInv, WorkInv, CausesInv;
    var call := s.calls[c];
    CallParts(s, c);
    CommitHistory(s, c);
    CommittedKeeps(s.history, s.clock, call, c);
    CommitDecides(Db(s), s.clock, call, c);
    hide Serial.Transact;
    var s' := StepCommit(s, c).value;
    forall d | 0 <= d < |s'.calls|
      ensures CallInv(s'.history, s'.clock, s'.calls[d], d)
    {
      if d != c {
        CommitUndisturbed(s, c, d);
        CallStable(s.history, s.clock, Overlay(Db(s), call.work), s.calls[d], d);
      }
    }
    ReleaseLocks(s, s', c);
    CauseLength(s);
    CausesExtend(s, s', TransferOp(c));
    forall x | x in Db(s').transfers
      ensures x.id < |s'.calls| && s'.calls[x.id].phase == Finished
      ensures s'.calls[x.id].outcome.Created? && s'.calls[x.id].outcome.transfer == x
    {
      assert x in Db(s).transfers || x == RowOf(call, c);
    }
  }

  lemma CauseLength(s: State)
    requires CausesInv(s)
    ensures |s.causes| == |s.history| - 1
  {
  }

  lemma ReleaseLocks(s: State, s': State, c: nat)
    requires LocksInv(s) && c < |s.calls| && |s'.calls| == |s.calls|
    requires s'.locks == Release(s.locks, s.calls[c].rows) && s'.calls[c].rows == map[]
    requires forall d :: 0 <= d < |s.calls| && d != c ==> s'.calls[d] == s.calls[d]
    ensures LocksInv(s')
  {
    forall d, b | 0 <= d < |s'.calls| && b in s'.calls[d].rows
      ensures b in s'.locks && s'.locks[b] == d
    {
      assert d != c && b in s.calls[d].rows;
      assert b !in s.calls[c].rows;
    }
  }

  lemma SameLocks(s: State, s': State)
    requires LocksInv(s) && s'.locks == s.locks && s'.calls == s.calls
    ensures LocksInv(s')
  {
  }

  lemma LastSound(h: History)
    requires HistoryInv(h)
    ensures LedgerInv(Last(h))
  {
  }

  // ----- Opening accounts, submissions, time -----------------------------------------

  // An opening touches no row, no transfer, and no source of a running call.
  lemma OpeningUndisturbs(db: Tables, id: AccountId, row: Account, call: Call)
    requires OpenFailure(db, id, row).None?
    requires forall a :: a in call.rows ==> a in db.accounts
    ensures Undisturbed(db, Open(db, id, row), call)
  {
    assert Open(db, id, row).transfers == db.transfers;
  }

  lemma OpeningExtends(db: Tables, id: AccountId, row: Account)
    requires OpenFailure(db, id, row).None?
    ensures Extends(db, Open(db, id, row))
    ensures Open(db, id, row).accounts == db.accounts[id := row] && id !in db.accounts
    ensures Open(db, id, row).transfers == db.transfers
  {
  }

  lemma OpeningConserves(openings: map<AccountId, Account>, accounts: map<AccountId, Account>, id: AccountId, row: Account)
    requires Conserved(openings, accounts) && id !in accounts
    ensures Conserved(openings[id := row], accounts[id := row])
  {
    var openings' := openings[id := row];
    forall currency, bound: nat | forall a :: a in openings' ==> a < bound
      ensures Total(accounts[id := row], currency, bound) == Total(openings', currency, bound)
    {
      TotalUpdate(accounts, id, row, currency, bound);
      TotalUpdate(openings, id, row, currency, bound);
      assert forall a :: a in openings ==> a in openings';
    }
  }

  lemma OpenedBy(s: State, id: AccountId, row: Account)
    requires OpenFailure(Db(s), id, row).None? && |s.causes| == |s.history| - 1
    ensures Explains(Next(s, OpenAccount(id, row)).value, |s.causes|)
  {
  }

  lemma OpenKeeps(s: State, id: AccountId, row: Account)
    requires Inv(s) && OpenFailure(Db(s), id, row).None?
    ensures Inv(Next(s, OpenAccount(id, row)).value)
  {
    hide CallInv, HistoryInv, LocksInv, Conserved, LedgerInv, Extends, Undisturbed, RowsInv, ChecksInv, WorkInv, CausesInv;
    var s' := Next(s, OpenAccount(id, row)).value;
    var db' := Open(Db(s), id, row);
    LastSound(s.history);
    OpenKeepsLedger(Db(s), id, row);
    OpeningExtends(Db(s), id, row);
    hide Open, OpenFailure;
    ExtendHistory(s.history, db');
    forall d | 0 <= d < |s'.calls|
      ensures CallInv(s'.history, s'.clock, s'.calls[d], d)
    {
      CallParts(s, d);
      OpeningUndisturbs(Db(s), id, row, s.calls[d]);
      CallStable(s.history, s.clock, db', s.calls[d], d);
    }
    SameLocks(s, s');
    CauseLength(s);
    OpenedBy(s, id, row);
    CausesExtend(s, s', OpenOp(id, row));
    OpeningConserves(s.openings, Db(s).accounts, id, row);
  }

  lemma NewCallKeeps(h: History, clock: int, p: Params, c: nat)
    requires Admissible(p)
    ensures CallInv(h, clock, NewCall(p, |h| - 1), c)
  {
  }

  lemma SubmitKeeps(s: State, p: Params)
    requires Inv(s) && Admissible(p)
    ensures Inv(Next(s, Submit(p)).value)
  {
    hide CallInv, HistoryInv, Conserved, CausesInv;
    var s' := Next(s, Submit(p)).value;
    CausesFrame(s, s');
    NewCallKeeps(s.history, s.clock, p, |s.calls|);
    forall d | 0 <= d < |s'.calls|
      ensures CallInv(s'.history, s'.clock, s'.calls[d], d)
    {
      if d < |s.calls| { assert CallInv(s.history, s.clock, s.calls[d], d); }
    }
  }

  lemma TickStable(h: History, clock: int, delta: nat, call: Call, c: nat)
    requires CallInv(h, clock, call, c)
    ensures CallInv(h, clock + delta, call, c)
  {
  }

  lemma TickKeeps(s: State, delta: nat)
    requires Inv(s)
    ensures Inv(Next(s, Tick(delta)).value)
  {
    hide CallInv, HistoryInv, Conserved, CausesInv;
    CausesFrame(s, s.(clock := s.clock + delta));
    forall d | 0 <= d < |s.calls|
      ensures CallInv(s.history, s.clock + delta, s.calls[d], d)
    {
      TickStable(s.history, s.clock, delta, s.calls[d], d);
    }
    SameLocks(s, s.(clock := s.clock + delta));
  }

  // ----- All steps ------------------------------------------------------------------

  lemma LocalKeeps(h: History, clock: int, call: Call, c: nat)
    requires CallInv(h, clock, call, c) && HistoryInv(h) && LocalStep(h, clock, call, c).Some?
    ensures CallInv(h, clock, LocalStep(h, clock, call, c).value, c)
    ensures LocalStep(h, clock, call, c).value.rows == call.rows
    ensures call.phase != Finished
    ensures LocalStep(h, clock, call, c).value.phase == Finished ==>
              !LocalStep(h, clock, call, c).value.outcome.Created?
  {
    hide HistoryInv, LookupInv, RowsInv, ChecksInv, WorkInv, DecidedInv;
    hide StepLookup, StepReadFrom, StepReadTo, StepRelookup, StepValidate, StepCheckLimit, StepInsertTransfer;
    hide StepInsertEntry, StepBalance, StepNotify, StepPublish, Extends;
    LastSound(h);
    LocalRows(h, clock, call, c);
    match call.phase
    case FastLookup => LookupKeeps(h, clock, call, c);
    case FastReadFrom => FastSound(h, clock, call, c); ReadFromKeeps(h, clock, call, c);
    case FastReadTo => FastSound(h, clock, call, c); ReadToKeeps(h, clock, call, c);
    case Relookup => RelookupKeeps(h, clock, call, c);
    case Validate => ValidateKeeps(h, clock, call, c);
    case CheckLimit => CheckLimitKeeps(h, clock, call, c);
    case InsertTransfer => InsertTransferKeeps(h, clock, call, c);
    case InsertDebit => InsertEntryKeeps(h, clock, call, c);
    case InsertCredit => InsertEntryKeeps(h, clock, call, c);
    case Debit => DebitKeeps(h, clock, call, c);
    case Credit => CreditKeeps(h, clock, call, c);
    case NotifySender => NotifyKeeps(h, clock, call, c);
    case NotifyReceiver => NotifyKeeps(h, clock, call, c);
    case PublishSender => PublishKeeps(h, clock, call, c);
    case PublishReceiver => PublishKeeps(h, clock, call, c);
    case Begin => BeginKeeps(h, clock, call, c);
    case _ =>
  }

  lemma LockKeeps(s: State, c: nat, a: AccountId)
    requires Inv(s) && c < |s.calls| && StepLock(s, c, a).Some?
    requires (s.calls[c].phase == LockFirst && a == First(s.calls[c].p)) ||
             (s.calls[c].phase == LockSecond && a == Second(s.calls[c].p))
    ensures Inv(StepLock(s, c, a).value)
  {
    hide CallInv, HistoryInv, Conserved, LocksInv, OriginInv, CausesInv;
    var call := s.calls[c];
    assert CallInv(s.history, s.clock, call, c);
    if a !in Db(s).accounts {
      SeenExtends(s, c);
      MissingRowKeeps(s.history, s.clock, call, c, a);
      LocalFrame(s, c, Decide(call, Failed(RecordNotFound), call.seen));
    } else {
      GrantKeeps(s.history, s.clock, call, c, a);
      LockFrame(s, c, Grant(s.history, call, a), a);
    }
  }

  lemma SeenExtends(s: State, c: nat)
    requires Inv(s) && c < |s.calls|
    ensures s.calls[c].seen < |s.history| && Extends(s.history[s.calls[c].seen], Db(s))
  {
    hide Conserved, LocksInv, OriginInv, CausesInv, Extends;
    assert CallInv(s.history, s.clock, s.calls[c], c);
    assert Extends(s.history[s.calls[c].seen], s.history[|s.history| - 1]);
  }

  lemma AdvanceKeeps(s: State, c: nat)
    requires Inv(s) && c < |s.calls| && Advance(s, c).Some?
    ensures Inv(Advance(s, c).value)
  {
    hide CallInv, HistoryInv, Conserved, LocksInv, OriginInv, CausesInv;
    var call := s.calls[c];
    assert CallInv(s.history, s.clock, call, c);
    match call.phase
    case LockFirst => LockKeeps(s, c, First(call.p));
    case LockSecond => LockKeeps(s, c, Second(call.p));
    case Commit => CommitKeeps(s, c);
    case EndTx =>
      EndedKeeps(s.history, s.clock, call, c);
      ReleaseFrame(s, c, Ended(call));
    case Finished =>
    case _ =>
      LocalKeeps(s.history, s.clock, call, c);
      LocalFrame(s, c, LocalStep(s.history, s.clock, call, c).value);
  }

  lemma NextKeeps(s: State, l: Label)
    requires Inv(s) && Next(s, l).Some?
    ensures Inv(Next(s, l).value)
  {
    hide CallInv, HistoryInv, Conserved, LocksInv, OriginInv, CausesInv;
    match l
    case Submit(p) => SubmitKeeps(s, p);
    case Step(c) => AdvanceKeeps(s, c);
    case Cancel(c) =>
      assert CallInv(s.history, s.clock, s.calls[c], c);
      AbandonedKeeps(s.history, s.clock, s.calls[c], c);
      LocalFrame(s, c, Abandoned(s.calls[c]).value);
    case OpenAccount(id, row) =>
      if OpenFailure(Db(s), id, row).None? { OpenKeeps(s, id, row); }
    case Tick(delta) => TickKeeps(s, delta);
  }

  lemma InitInv()
    ensures Inv(INIT)
  {
    assert EMPTY.accounts == INIT.openings;
  }

  // Every reachable state satisfies the invariant.
  lemma {:induction false} RunInv(ls: seq<Label>)
    requires Run(ls).Some?
    ensures Inv(Run(ls).value)
  {
    if |ls| == 0 {
      InitInv();
    } else {
      RunInv(ls[..|ls| - 1]);
      NextKeeps(Run(ls[..|ls| - 1]).value, ls[|ls| - 1]);
    }
  }
}
