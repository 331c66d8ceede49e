// The rolling limit, the exact meaning of the errors, and the balance of the
// books, over every run.
module Books {
  import opened Prelude
  import opened Schema
  import opened Serial
  import opened Protocol
  import opened ProtocolInv
  import opened SerialOrder
  import opened LedgerTheorems
  import opened Guarantees

  // ----- The rolling limit -------------------------------------------------------

  ghost predicate LimitedTo(calls: seq<Call>, a: AccountId, limit: int) {
    forall c :: 0 <= c < |calls| && calls[c].p.from == a ==> calls[c].p.dailyLimit == limit
  }

  ghost predicate WithinLimit(s: State, a: AccountId, limit: int) {
    LimitedTo(s.calls, a, limit) && Outgoing(Db(s).transfers, a, s.clock - DAY) <= limit
  }

  // A commit adds to a window that its own check had measured: time has only
  // moved the window forward since, and nobody else could add to it.
  lemma CommitWithinLimit(s: State, c: nat, a: AccountId, limit: int)
    requires Inv(s) && c < |s.calls| && s.calls[c].phase == Commit
    requires WithinLimit(s, a, limit) && limit > 0
    ensures Outgoing(Overlay(Db(s), s.calls[c].work).transfers, a, s.clock - DAY) <= limit
  {
    hide Inv, ChecksInv, WorkInv, RowsInv, LedgerInv;
    var call := s.calls[c];
    CallParts(s, c);
    CommitDecides(Db(s), s.clock, call, c);
    HistoryAt(s, |s.history| - 1);
    PositiveAmounts(Db(s));
    OutgoingAppend(Db(s).transfers, RowOf(call, c), a, s.clock - DAY);
    if call.p.from == a {
      LimitChecked(Db(s), s.clock, call);
      OutgoingMonotone(Db(s).transfers, a, call.checked - DAY, s.clock - DAY);
    }
  }

  lemma LimitChecked(db: Tables, clock: int, call: Call)
    requires RowsInv(db, call) && ChecksInv(db, clock, call) && call.phase == Commit && call.p.dailyLimit > 0
    ensures call.checked <= clock
    ensures Outgoing(db.transfers, call.p.from, call.checked - DAY) + call.p.amount <= call.p.dailyLimit
  {
  }

  lemma PositiveAmounts(t: Tables)
    requires LedgerInv(t)
    ensures forall x :: x in t.transfers ==> x.amount > 0
  {
  }

  // Steps other than a commit leave the transfers alone.
  lemma TransfersMove(s: State, l: Label)
    requires Next(s, l).Some?
    requires !(l.Step? && l.c < |s.calls| && s.calls[l.c].phase == Commit)
    ensures Db(Next(s, l).value).transfers == Db(s).transfers
    ensures s.clock <= Next(s, l).value.clock
  {
    hide LocalStep, Abandoned, FindTransfer;
  }

  lemma LimitedNext(s: State, l: Label, a: AccountId, limit: int)
    requires Next(s, l).Some? && LimitedTo(s.calls, a, limit)
    requires l.Submit? && l.p.from == a ==> l.p.dailyLimit == limit
    ensures LimitedTo(Next(s, l).value.calls, a, limit)
  {
    NextContinues(s, l);
    hide Continues;
    var s' := Next(s, l).value;
    forall c | 0 <= c < |s'.calls| && s'.calls[c].p.from == a
      ensures s'.calls[c].p.dailyLimit == limit
    {
      if c < |s.calls| { SameParams(s, s', c); } else { OnlySubmitAdds(s, l, c); }
    }
  }

  lemma SameParams(s: State, s': State, c: nat)
    requires Continues(s, s') && c < |s.calls|
    ensures c < |s'.calls| && s'.calls[c].p == s.calls[c].p
  {
  }

  lemma OnlySubmitAdds(s: State, l: Label, c: nat)
    requires Next(s, l).Some? && |s.calls| <= c < |Next(s, l).value.calls|
    ensures l.Submit? && Next(s, l).value.calls[c].p == l.p
  {
    hide LocalStep, Abandoned, FindTransfer;
  }

  lemma NextWithinLimit(s: State, l: Label, a: AccountId, limit: int)
    requires Next(s, l).Some? && Inv(s) && WithinLimit(s, a, limit) && limit > 0
    requires l.Submit? && l.p.from == a ==> l.p.dailyLimit == limit
    ensures WithinLimit(Next(s, l).value, a, limit)
  {
    hide Inv, LimitedTo, Next, LedgerInv, Outgoing;
    LimitedNext(s, l, a, limit);
    if l.Step? && l.c < |s.calls| && s.calls[l.c].phase == Commit {
      CommitWithinLimit(s, l.c, a, limit);
      CommitNext(s, l.c);
    } else {
      TransfersMove(s, l);
      HistoryAt(s, |s.history| - 1);
      PositiveAmounts(Db(s));
      OutgoingMonotone(Db(s).transfers, a, s.clock - DAY, Next(s, l).value.clock - DAY);
    }
  }

  lemma CommitNext(s: State, c: nat)
    requires c < |s.calls| && s.calls[c].phase == Commit && Next(s, Step(c)).Some?
    ensures Db(Next(s, Step(c)).value) == Overlay(Db(s), s.calls[c].work)
    ensures Next(s, Step(c)).value.clock == s.clock
  {
  }

  // The rolling limit. If every call for an account carries the same positive
  // limit, then in every reachable state the committed transfers stamped within
  // the 24 hours before the current clock total at most that limit, however the
  // calls overlap and however long they wait for locks.
  lemma {:induction false} RollingLimitHolds(ls: seq<Label>, a: AccountId, limit: int)
    requires Run(ls).Some? && limit > 0
    requires forall i :: 0 <= i < |ls| && ls[i].Submit? && ls[i].p.from == a ==> ls[i].p.dailyLimit == limit
    ensures LimitedTo(Run(ls).value.calls, a, limit)
    ensures Outgoing(Db(Run(ls).value).transfers, a, Run(ls).value.clock - DAY) <= limit
  {
    hide Inv, Next;
    if |ls| > 0 {
      var shorter := ls[..|ls| - 1];
      RollingLimitHolds(shorter, a, limit);
      RunInv(shorter);
      NextWithinLimit(Run(shorter).value, ls[|ls| - 1], a, limit);
    }
  }

  // ----- Exact errors ------------------------------------------------------------

  // Everything a transfer needs but the money.
  ghost predicate AllButFunds(t: Tables, p: Params, checked: int) {
    && FindTransfer(t.transfers, p.from, p.key).None?
    && p.from in t.accounts && p.to in t.accounts
    && t.accounts[p.from].currency == p.currency && t.accounts[p.to].currency == p.currency
    && t.accounts[p.to].balance + p.amount <= MAX_SAFE_MINOR_UNITS
    && p.amount <= MAX_SAFE_MINOR_UNITS
    && (p.dailyLimit > 0 ==> Outgoing(t.transfers, p.from, checked - DAY) + p.amount <= p.dailyLimit)
  }

  // ErrInsufficientBalance means that the source could not pay, and nothing else:
  // on the committed state the call was decided on, everything but the funds was
  // in order. A unique violation is never the answer.
  lemma InsufficientBalanceExactly(ls: seq<Label>, c: nat)
    requires Run(ls).Some? && c < |Run(ls).value.calls| && Answered(Run(ls).value.calls[c])
    ensures var s := Run(ls).value;
            var call := s.calls[c];
            && call.at < |s.history|
            && call.outcome != Failed(UniqueViolation)
            && (call.outcome == Failed(InsufficientBalance) <==>
                  AllButFunds(s.history[call.at], call.p, call.checked)
                  && s.history[call.at].accounts[call.p.from].balance < call.p.amount)
  {
    hide Inv;
    RunInv(ls);
    DecidedOn(Run(ls).value, c);
  }

  // Under the locks an insert never waits for, or runs into, a row with the same
  // source and key, and the credit guard never fails.
  lemma LockedWritesSucceed(ls: seq<Label>, c: nat)
    requires Run(ls).Some? && c < |Run(ls).value.calls|
    ensures var s := Run(ls).value;
            var call := s.calls[c];
            && (call.phase == InsertTransfer ==>
                  !InsertWaits(s, c) && FindTransfer(Db(s).transfers, call.p.from, call.p.key).None?)
            && (call.phase == Credit ==>
                  AddAccountBalance(Overlay(Db(s), call.work).accounts, call.p.to, call.p.amount).Some?)
            && call.phase != Resolve
  {
    hide Inv, CallInv, ChecksInv, WorkInv, RowsInv, InsertWaits, AddAccountBalance, LedgerInv;
    RunInv(ls);
    var s := Run(ls).value;
    NeverResolves(s, c);
    if s.calls[c].phase == InsertTransfer {
      NoClashUnderLock(s, c);
    } else if s.calls[c].phase == Credit {
      CallParts(s, c);
      HistoryAt(s, |s.history| - 1);
      AccountsOf(Db(s));
      CreditGuard(Db(s), s.clock, s.calls[c], c);
    }
  }

  lemma AccountsOf(t: Tables)
    requires LedgerInv(t)
    ensures AccountsMatchEntries(t)
  {
  }

  lemma NeverResolves(s: State, c: nat)
    requires Inv(s) && c < |s.calls|
    ensures s.calls[c].phase != Resolve
  {
    hide HistoryInv, Conserved, LocksInv, OriginInv, CausesInv, RowsInv, LookupInv, ChecksInv, WorkInv, DecidedInv;
    assert CallInv(s.history, s.clock, s.calls[c], c);
  }

  // Two calls that could clash on an insert would both hold the source row.
  lemma NoClashUnderLock(s: State, c: nat)
    requires Inv(s) && c < |s.calls| && s.calls[c].phase == InsertTransfer
    ensures !InsertWaits(s, c)
    ensures FindTransfer(Db(s).transfers, s.calls[c].p.from, s.calls[c].p.key).None?
  {
    hide Inv;
    InsertingHolds(s, c);
    forall d | 0 <= d < |s.calls| && d != c
      ensures FindTransfer(s.calls[d].work.transfers, s.calls[c].p.from, s.calls[c].p.key).None?
    {
      var r := FindTransfer(s.calls[d].work.transfers, s.calls[c].p.from, s.calls[c].p.key);
      if r.Some? {
        WriterHolds(s, d, r.value);
        OneHolder(s, c, d, s.calls[c].p.from);
      }
    }
  }

  lemma InsertingHolds(s: State, c: nat)
    requires Inv(s) && c < |s.calls| && s.calls[c].phase == InsertTransfer
    ensures s.calls[c].p.from in s.calls[c].rows
    ensures FindTransfer(Db(s).transfers, s.calls[c].p.from, s.calls[c].p.key).None?
  {
    hide HistoryInv, Conserved, LocksInv, OriginInv, CausesInv, LookupInv, DecidedInv;
    assert CallInv(s.history, s.clock, s.calls[c], c);
  }

  lemma WriterHolds(s: State, d: nat, x: Transfer)
    requires Inv(s) && d < |s.calls| && x in s.calls[d].work.transfers
    ensures x.from in s.calls[d].rows
  {
    hide HistoryInv, Conserved, LocksInv, OriginInv, CausesInv, LookupInv, DecidedInv, ChecksInv;
    assert CallInv(s.history, s.clock, s.calls[d], d);
  }

  lemma OneHolder(s: State, c: nat, d: nat, a: AccountId)
    requires Inv(s) && c < |s.calls| && d < |s.calls| && a in s.calls[c].rows && a in s.calls[d].rows
    ensures c == d
  {
    hide HistoryInv, Conserved, OriginInv, CausesInv, CallInv;
  }

  // ----- The books -----------------------------------------------------------------

  // In every committed state of every run: each balance is the sum of the
  // account's entries and lies in 0..2^53-1, keys and owners are unique, each
  // transfer has its two notifications; and balances add up to the openings.
  lemma BooksBalance(ls: seq<Label>, i: nat, currency: string, bound: nat)
    requires Run(ls).Some? && i < |Run(ls).value.history|
    requires forall a :: a in Run(ls).value.openings ==> a < bound
    ensures LedgerInv(Run(ls).value.history[i])
    ensures Db(Run(ls).value).accounts.Keys == Run(ls).value.openings.Keys
    ensures Total(Db(Run(ls).value).accounts, currency, bound) == Total(Run(ls).value.openings, currency, bound)
  {
    hide Inv, LedgerInv;
    RunInv(ls);
    HistoryAt(Run(ls).value, i);
    TotalsOf(Run(ls).value, currency, bound);
  }

  lemma TotalsOf(s: State, currency: string, bound: nat)
    requires Inv(s) && forall a :: a in s.openings ==> a < bound
    ensures Db(s).accounts.Keys == s.openings.Keys
    ensures Total(Db(s).accounts, currency, bound) == Total(s.openings, currency, bound)
  {
    hide HistoryInv, CallInv, LocksInv, OriginInv, CausesInv;
  }

  // A notification tells the balance its account had, by the entries up to and
  // including its own transfer, at the commit that posted it.
  ghost predicate TellsBalanceAt(n: Notification, t: Tables) {
    n.account in t.accounts && n.balance == t.accounts[n.account].balance == EntrySum(t.entries, n.account)
  }

  lemma PostedNotificationTells(t: Tables, p: Params, id: TransferId, started: int, checked: int)
    requires LedgerInv(t) && Admissible(p) && Fresh(t, id)
    requires Serial.Transact(t, p, id, started, checked).1.Created?
    ensures var t' := Serial.Transact(t, p, id, started, checked).0;
            && |t'.notifications| == |t.notifications| + 2
            && TellsBalanceAt(t'.notifications[|t.notifications|], t')
            && TellsBalanceAt(t'.notifications[|t.notifications| + 1], t')
            && t'.entries[|t.entries|..] == [Entry(p.from, -p.amount), Entry(p.to, p.amount)]
  {
    CreatedIsPosting(t, p, id, started, checked);
    PostingKeepsAccounts(t, p, TransferRow(p, id, started));
    hide Serial.Transact, LedgerInv, EntrySum;
  }

  lemma {:induction false} NotificationPosted(s: State, i: nat, n: nat) returns (j: nat)
    requires Inv(s) && i < |s.history| && n < |s.history[i].notifications|
    ensures j < i && |s.history[j].notifications| <= n < |s.history[j + 1].notifications|
    ensures TellsBalanceAt(s.history[i].notifications[n], s.history[j + 1])
  {
    hide Inv, LedgerInv, TellsBalanceAt, Serial.Transact, Open;
    if i == 0 {
      FirstIsEmpty(s);
      assert false;
    } else {
      CauseLengthInv(s);
      HistoryStep(s, i - 1);
      if n < |s.history[i - 1].notifications| {
        j := NotificationPosted(s, i - 1, n);
      } else {
        j := i - 1;
        NewNotification(s, j, n);
      }
    }
  }

  lemma HistoryStep(s: State, i: nat)
    requires Inv(s) && i + 1 < |s.history|
    ensures s.history[i].notifications <= s.history[i + 1].notifications
    ensures s.history[i].entries <= s.history[i + 1].entries
  {
    hide CallInv, LocksInv, OriginInv, CausesInv, Conserved, LedgerInv;
    assert Extends(s.history[i], s.history[i + 1]);
  }

  lemma NewNotification(s: State, i: nat, n: nat)
    requires Inv(s) && i < |s.causes| && i + 1 < |s.history|
    requires |s.history[i].notifications| <= n < |s.history[i + 1].notifications|
    ensures TellsBalanceAt(s.history[i + 1].notifications[n], s.history[i + 1])
  {
    hide Inv, LedgerInv, TellsBalanceAt, Serial.Transact;
    CauseSerial(s, i);
    match s.causes[i]
    case OpenOp(id, row) => OpeningExtendsNothing(s.history[i], id, row);
    case TransferOp(c) =>
      CauseOfCreated(s, i, c);
      HistoryAt(s, i);
      CreatorIsFresh(s, i, c);
      CallAdmissible(s, c);
      PostedNotificationTells(s.history[i], s.calls[c].p, c, s.calls[c].started, s.calls[c].checked);
  }

  lemma OpeningExtendsNothing(t: Tables, id: AccountId, row: Account)
    ensures Open(t, id, row).notifications == t.notifications
  {
  }

  lemma CallAdmissible(s: State, c: nat)
    requires Inv(s) && c < |s.calls|
    ensures Admissible(s.calls[c].p)
  {
    hide HistoryInv, LocksInv, OriginInv, CausesInv, Conserved;
    assert CallInv(s.history, s.clock, s.calls[c], c);
  }

  // The state a transfer was created on had no transfer with its number.
  lemma CreatorIsFresh(s: State, i: nat, c: nat)
    requires Inv(s) && i < |s.causes| && s.causes[i] == TransferOp(c)
    ensures i < |s.history| && Fresh(s.history[i], c)
  {
    hide Inv, LedgerInv;
    CauseOfCreated(s, i, c);
    CauseAt(s, i);
    HistoryAt(s, i);
    HistoryAt(s, i + 1);
    CauseSerial(s, i);
    LedgerParts(s.history[i + 1]);
    CreatedIsPosting(s.history[i], s.calls[c].p, c, s.calls[c].started, s.calls[c].checked);
    var t, t' := s.history[i], s.history[i + 1];
    assert t'.transfers[|t.transfers|].id == c;
    forall x | x in t.transfers
      ensures x.id != c
    {
      var k :| 0 <= k < |t.transfers| && t.transfers[k] == x;
      assert t'.transfers[k] == x;
      DistinctIds(t', k, |t.transfers|);
    }
  }

  // Notification n of a reachable state was posted by one commit; it carries the
  // running sum of its account's entries at that commit.
  lemma NotificationsTellRunningBalance(ls: seq<Label>, n: nat) returns (j: nat)
    requires Run(ls).Some? && n < |Db(Run(ls).value).notifications|
    ensures PostedBy(Run(ls).value, n, j)
  {
    hide Inv, LedgerInv, Serial.Transact, EntrySum;
    RunInv(ls);
    hide Run;
    var s := Run(ls).value;
    j := NotificationPosted(s, |s.history| - 1, n);
    HistoryAt(s, j + 1);
  }

  // Commit j brought the notification, and told the balance it left.
  ghost predicate PostedBy(s: State, n: nat, j: nat)
    requires n < |Db(s).notifications|
  {
    && j + 1 < |s.history|
    && |s.history[j].notifications| <= n < |s.history[j + 1].notifications|
    && s.history[j + 1].entries <= Db(s).entries
    && Db(s).notifications[n].balance == EntrySum(s.history[j + 1].entries, Db(s).notifications[n].account)
  }
}
