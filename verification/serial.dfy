// The serial meaning of one transfer: what a call would do if it ran alone
// against the committed tables.
module Serial {
  import opened Prelude
  import opened Schema

  // TransferTxParams.
  datatype Params = Params(
    from: AccountId, to: AccountId, amount: int, currency: string, key: Key, dailyLimit: int)

  // What the API guarantees of a call: distinct accounts, a positive amount, and
  // a configured limit within the safe range (0 disables it).
  predicate Admissible(p: Params) {
    p.from != p.to && 1 <= p.amount && 0 <= p.dailyLimit <= MAX_SAFE_MINOR_UNITS
  }

  datatype Failure =
    | RecordNotFound
    | IdempotencyConflict
    | CurrencyMismatch
    | BalanceLimitExceeded
    | DailyLimitExceeded
    | InsufficientBalance
    | UniqueViolation
    | CheckViolation
    | Cancelled

  datatype Outcome =
    | Created(transfer: Transfer, fromRow: Account, toRow: Account)
    | Replayed(transfer: Transfer)
    | Failed(error: Failure)

  // transferReplay: an existing transfer answers a call that asks for the same thing.
  function TransferReplay(existing: Transfer, p: Params, fromRow: Account, toRow: Account): Outcome {
    if existing.from != p.from || existing.to != p.to || existing.amount != p.amount ||
       fromRow.currency != p.currency || toRow.currency != p.currency
    then Failed(IdempotencyConflict)
    else Replayed(existing)
  }

  // replayTransfer: the accounts of the existing transfer are read without locks.
  function ReplayFrom(accounts: map<AccountId, Account>, existing: Transfer, p: Params): Outcome {
    if existing.from !in accounts || existing.to !in accounts then Failed(RecordNotFound)
    else TransferReplay(existing, p, accounts[existing.from], accounts[existing.to])
  }

  // The rolling-limit test exactly as written, on the capped total.
  predicate OverDailyLimit(p: Params, spent: int) {
    p.dailyLimit > 0 && (p.amount > p.dailyLimit || spent > p.dailyLimit - p.amount)
  }

  // The rows a transfer adds, and the two rewritten account rows.
  function Posting(accounts: map<AccountId, Account>, p: Params, tr: Transfer): Tables
    requires p.from in accounts && p.to in accounts
  {
    var fromRow := accounts[p.from].(balance := accounts[p.from].balance - p.amount);
    var toRow := accounts[p.to].(balance := accounts[p.to].balance + p.amount);
    var sent := Notification(tr.id, p.from, fromRow.owner, Sent, p.amount, fromRow.currency, fromRow.balance);
    var received := Notification(tr.id, p.to, toRow.owner, Received, p.amount, toRow.currency, toRow.balance);
    Tables(map[p.from := fromRow, p.to := toRow],
           [tr],
           [Entry(p.from, -p.amount), Entry(p.to, p.amount)],
           [sent, received],
           [MessageFor(sent), MessageFor(received)])
  }

  function TransferRow(p: Params, id: TransferId, started: int): Transfer {
    Transfer(id, p.from, p.to, p.amount, started, p.key)
  }

  // The serial transfer. `started` is the time its transaction began, which the
  // database stamps on the row; `checked` is the clock the limit was read at.
  function Transact(t: Tables, p: Params, id: TransferId, started: int, checked: int): (r: (Tables, Outcome)) {
    match FindTransfer(t.transfers, p.from, p.key)
    case Some(existing) => (t, ReplayFrom(t.accounts, existing, p))
    case None =>
      if p.from !in t.accounts || p.to !in t.accounts then (t, Failed(RecordNotFound))
      else if t.accounts[p.from].currency != p.currency || t.accounts[p.to].currency != p.currency then
        (t, Failed(CurrencyMismatch))
      else if p.amount > MAX_SAFE_MINOR_UNITS || t.accounts[p.to].balance > MAX_SAFE_MINOR_UNITS - p.amount then
        (t, Failed(BalanceLimitExceeded))
      else if p.dailyLimit > 0 && Outgoing(t.transfers, p.from, checked - DAY) + p.amount > p.dailyLimit then
        (t, Failed(DailyLimitExceeded))
      else if t.accounts[p.from].balance < p.amount then
        (t, Failed(InsufficientBalance))
      else
        var posting := Posting(t.accounts, p, TransferRow(p, id, started));
        (Overlay(t, posting), Created(posting.transfers[0], posting.accounts[p.from], posting.accounts[p.to]))
  }

  // The limit comparison on the capped sum, with its subtraction, decides
  // exactly whether the true sum plus the amount passes the limit, and neither
  // operand leaves the 64-bit range whatever the history.
  lemma DailyLimitTestExact(ts: seq<Transfer>, p: Params, clock: int)
    requires Admissible(p)
    requires p.amount <= MAX_SAFE_MINOR_UNITS
    requires forall t :: t in ts ==> t.amount > 0
    ensures OverDailyLimit(p, SumOutgoingTransfersSince(ts, p.from, clock)) <==>
            p.dailyLimit > 0 && Outgoing(ts, p.from, clock - DAY) + p.amount > p.dailyLimit
    ensures 0 <= SumOutgoingTransfersSince(ts, p.from, clock) <= MAX_SAFE_MINOR_UNITS
    ensures -0x8000_0000_0000_0000 <= p.dailyLimit - p.amount < 0x8000_0000_0000_0000
  {
    OutgoingMonotone(ts, p.from, clock - DAY, clock - DAY);
  }

  // ----- What every serial transfer keeps -----------------------------------

  predicate Fresh(t: Tables, id: TransferId) {
    forall x :: x in t.transfers ==> x.id != id
  }

  // A created transfer is exactly a posting between two rows that could take it.
  lemma CreatedIsPosting(t: Tables, p: Params, id: TransferId, started: int, checked: int)
    requires Transact(t, p, id, started, checked).1.Created?
    ensures p.from in t.accounts && p.to in t.accounts
    ensures FindTransfer(t.transfers, p.from, p.key).None?
    ensures t.accounts[p.from].balance >= p.amount
    ensures t.accounts[p.from].currency == p.currency == t.accounts[p.to].currency
    ensures p.amount <= MAX_SAFE_MINOR_UNITS && t.accounts[p.to].balance + p.amount <= MAX_SAFE_MINOR_UNITS
    ensures Transact(t, p, id, started, checked).0 ==
            Overlay(t, Posting(t.accounts, p, TransferRow(p, id, started)))
  {
  }

  // The rows a created transfer leaves behind, each field of them.
  lemma CreatedMeans(t: Tables, p: Params, id: TransferId, started: int, checked: int)
    requires Transact(t, p, id, started, checked).1.Created? && p.from != p.to
    ensures p.from in t.accounts && p.to in t.accounts
    ensures var (t', o) := Transact(t, p, id, started, checked);
            var a, b := t.accounts[p.from], t.accounts[p.to];
            && o.transfer == Transfer(id, p.from, p.to, p.amount, started, p.key)
            && o.fromRow == Account(a.owner, a.balance - p.amount, a.currency)
            && o.toRow == Account(b.owner, b.balance + p.amount, b.currency)
            && t'.accounts == t.accounts[p.from := o.fromRow][p.to := o.toRow]
            && t'.transfers == t.transfers + [o.transfer]
            && t'.entries == t.entries + [Entry(p.from, -p.amount), Entry(p.to, p.amount)]
            && t'.notifications == t.notifications +
                 [Notification(id, p.from, a.owner, Sent, p.amount, a.currency, a.balance - p.amount),
                  Notification(id, p.to, b.owner, Received, p.amount, b.currency, b.balance + p.amount)]
            && t'.published == t.published + [Message(id, p.from, a.owner), Message(id, p.to, b.owner)]
  {
  }

  lemma FailedChangesNothing(t: Tables, p: Params, id: TransferId, started: int, checked: int)
    ensures !Transact(t, p, id, started, checked).1.Created? ==> Transact(t, p, id, started, checked).0 == t
  {
  }

  lemma UsedKeyReplays(t: Tables, p: Params, id: TransferId, started: int, checked: int)
    requires FindTransfer(t.transfers, p.from, p.key).Some?
    ensures Transact(t, p, id, started, checked) ==
            (t, ReplayFrom(t.accounts, FindTransfer(t.transfers, p.from, p.key).value, p))
    ensures !Transact(t, p, id, started, checked).1.Created?
  {
  }

  lemma PostingKeepsAccounts(t: Tables, p: Params, tr: Transfer)
    requires AccountsMatchEntries(t) && p.from != p.to && p.from in t.accounts && p.to in t.accounts
    requires 1 <= p.amount <= t.accounts[p.from].balance
    requires t.accounts[p.to].balance + p.amount <= MAX_SAFE_MINOR_UNITS
    ensures AccountsMatchEntries(Overlay(t, Posting(t.accounts, p, tr)))
  {
    var w := Posting(t.accounts, p, tr);
    var t' := Overlay(t, w);
    var debit, credit := Entry(p.from, -p.amount), Entry(p.to, p.amount);
    assert t'.entries == (t.entries + [debit]) + [credit];
    forall a | a in t'.accounts
      ensures 0 <= t'.accounts[a].balance <= MAX_SAFE_MINOR_UNITS
      ensures t'.accounts[a].balance == EntrySum(t'.entries, a)
    {
      EntrySumAppend(t.entries, debit, a);
      EntrySumAppend(t.entries + [debit], credit, a);
      assert a in t.accounts;
    }
  }

  lemma PostingKeepsTransfers(t: Tables, p: Params, tr: Transfer)
    requires TransferRowsSound(t) && Fresh(t, tr.id)
    requires p.from != p.to && p.from in t.accounts && p.to in t.accounts
    requires t.accounts[p.from].currency == t.accounts[p.to].currency
    requires tr.from == p.from && tr.to == p.to && tr.amount == p.amount && 1 <= p.amount <= MAX_SAFE_MINOR_UNITS
    requires FindTransfer(t.transfers, tr.from, tr.key).None?
    ensures TransferRowsSound(Overlay(t, Posting(t.accounts, p, tr)))
  {
    var t' := Overlay(t, Posting(t.accounts, p, tr));
    forall i, j | 0 <= i < j < |t'.transfers|
      ensures t'.transfers[i].id != t'.transfers[j].id
      ensures !(t'.transfers[i].from == t'.transfers[j].from && t'.transfers[i].key == t'.transfers[j].key)
    {
      assert t.transfers[i] in t.transfers;
    }
  }

  lemma PostingKeepsNotifications(t: Tables, p: Params, tr: Transfer)
    requires LedgerInv(t) && p.from in t.accounts && p.to in t.accounts && p.from != p.to
    requires tr.from == p.from && tr.to == p.to && tr.amount == p.amount
    requires 1 <= p.amount <= t.accounts[p.from].balance
    requires t.accounts[p.to].balance + p.amount <= MAX_SAFE_MINOR_UNITS
    ensures NotificationsSound(Overlay(t, Posting(t.accounts, p, tr)))
  {
    var t' := Overlay(t, Posting(t.accounts, p, tr));
    forall k | 0 <= k < |t'.transfers|
      ensures NotificationDescribes(t', t'.notifications[2 * k], t'.transfers[k], Sent)
      ensures NotificationDescribes(t', t'.notifications[2 * k + 1], t'.transfers[k], Received)
    {
      if k < |t.transfers| {
        assert t.transfers[k] in t.transfers;
      }
    }
  }

  lemma PostingKeepsLedger(t: Tables, p: Params, tr: Transfer)
    requires LedgerInv(t) && Fresh(t, tr.id) && FindTransfer(t.transfers, tr.from, tr.key).None?
    requires p.from in t.accounts && p.to in t.accounts && p.from != p.to
    requires t.accounts[p.from].currency == t.accounts[p.to].currency
    requires tr.from == p.from && tr.to == p.to && tr.amount == p.amount
    requires 1 <= p.amount <= t.accounts[p.from].balance
    requires t.accounts[p.to].balance + p.amount <= MAX_SAFE_MINOR_UNITS
    ensures LedgerInv(Overlay(t, Posting(t.accounts, p, tr)))
  {
    PostingKeepsAccounts(t, p, tr);
    PostingKeepsTransfers(t, p, tr);
    PostingKeepsNotifications(t, p, tr);
    PostingKeepsOwners(t, p, tr);
  }

  lemma PostingKeepsOwners(t: Tables, p: Params, tr: Transfer)
    requires OneAccountPerCurrency(t)
    requires p.from in t.accounts && p.to in t.accounts && p.from != p.to
    ensures OneAccountPerCurrency(Overlay(t, Posting(t.accounts, p, tr)))
  {
    var t' := Overlay(t, Posting(t.accounts, p, tr));
    forall a, b | a in t'.accounts && b in t'.accounts && a != b
      ensures !(t'.accounts[a].owner == t'.accounts[b].owner && t'.accounts[a].currency == t'.accounts[b].currency)
    {
      assert a in t.accounts && b in t.accounts;
    }
  }

  // Every serial transfer keeps the ledger invariant, whatever it answers.
  lemma TransactKeepsLedger(t: Tables, p: Params, id: TransferId, started: int, checked: int)
    requires LedgerInv(t) && Admissible(p) && Fresh(t, id)
    ensures LedgerInv(Transact(t, p, id, started, checked).0)
  {
    if Transact(t, p, id, started, checked).1.Created? {
      CreatedIsPosting(t, p, id, started, checked);
      PostingKeepsLedger(t, p, TransferRow(p, id, started));
    }
  }

  // Money is neither made nor lost: the total of every currency is unchanged,
  // over any range of account ids that covers both sides.
  lemma TransactConserves(t: Tables, p: Params, id: TransferId, started: int, checked: int, currency: string, bound: nat)
    requires LedgerInv(t) && Admissible(p)
    requires p.from < bound && p.to < bound
    ensures Total(Transact(t, p, id, started, checked).0.accounts, currency, bound) == Total(t.accounts, currency, bound)
  {
    if Transact(t, p, id, started, checked).1.Created? {
      CreatedIsPosting(t, p, id, started, checked);
      var w := Posting(t.accounts, p, TransferRow(p, id, started));
      TotalUpdate(t.accounts, p.from, w.accounts[p.from], currency, bound);
      TotalUpdate(t.accounts[p.from := w.accounts[p.from]], p.to, w.accounts[p.to], currency, bound);
      assert t.accounts + w.accounts == t.accounts[p.from := w.accounts[p.from]][p.to := w.accounts[p.to]];
    }
  }

  // Once a call has created its transfer, every later call with the same
  // parameters is answered with that transfer and changes nothing, however the
  // balances and the limit window have moved since.
  lemma RetryReplays(t: Tables, later: Tables, p: Params, id: TransferId, started: int, checked: int,
                     id': TransferId, started': int, checked': int)
    requires LedgerInv(t) && Admissible(p) && Fresh(t, id)
    requires Transact(t, p, id, started, checked).1.Created?
    requires LedgerInv(later)
    requires TransferRow(p, id, started) in later.transfers
    requires forall a :: a in Transact(t, p, id, started, checked).0.accounts ==>
               a in later.accounts && later.accounts[a].currency == t.accounts[a].currency
    ensures Transact(later, p, id', started', checked') == (later, Replayed(TransferRow(p, id, started)))
  {
    CreatedIsPosting(t, p, id, started, checked);
    FindTransferUnique(later, TransferRow(p, id, started));
  }

  // A key already used for this source never moves money again under other terms.
  lemma ReusedKeyMovesNothing(t: Tables, x: Transfer, p: Params, id: TransferId, started: int, checked: int)
    requires LedgerInv(t) && x in t.transfers && x.from == p.from && x.key == p.key
    requires x.to != p.to || x.amount != p.amount || t.accounts[x.from].currency != p.currency
    ensures Transact(t, p, id, started, checked) == (t, Failed(IdempotencyConflict))
  {
    FindTransferUnique(t, x);
  }

  // ----- Opening accounts ----------------------------------------------------

  // CreateAccountTx: the account row and, unless it opens empty, a matching entry.
  function Opening(id: AccountId, row: Account): Tables {
    Tables(map[id := row], [], if row.balance != 0 then [Entry(id, row.balance)] else [], [], [])
  }

  predicate Taken(accounts: map<AccountId, Account>, id: AccountId, row: Account) {
    id in accounts || exists a :: a in accounts && accounts[a].owner == row.owner && accounts[a].currency == row.currency
  }

  function OpenFailure(t: Tables, id: AccountId, row: Account): Option<Failure> {
    if row.balance > MAX_SAFE_MINOR_UNITS then Some(BalanceLimitExceeded)
    else if row.balance < 0 then Some(CheckViolation)
    else if Taken(t.accounts, id, row) then Some(UniqueViolation)
    else None
  }

  function Open(t: Tables, id: AccountId, row: Account): Tables {
    if OpenFailure(t, id, row).None? then Overlay(t, Opening(id, row)) else t
  }

  lemma OpenKeepsLedger(t: Tables, id: AccountId, row: Account)
    requires LedgerInv(t)
    ensures LedgerInv(Open(t, id, row))
  {
    if OpenFailure(t, id, row).None? {
      var t' := Overlay(t, Opening(id, row));
      EntrySumAbsent(t.entries, id);
      forall a | a in t'.accounts
        ensures 0 <= t'.accounts[a].balance <= MAX_SAFE_MINOR_UNITS
        ensures t'.accounts[a].balance == EntrySum(t'.entries, a)
      {
        EntrySumAppend(t.entries, Entry(id, row.balance), a);
        assert row.balance == 0 ==> t'.entries == t.entries;
      }
      OpenKeepsRows(t, id, row);
    }
  }

  lemma OpenKeepsRows(t: Tables, id: AccountId, row: Account)
    requires LedgerInv(t) && OpenFailure(t, id, row).None?
    ensures TransferRowsSound(Open(t, id, row)) && NotificationsSound(Open(t, id, row))
  {
    var t' := Open(t, id, row);
    assert t'.transfers == t.transfers && t'.notifications == t.notifications && t'.published == t.published;
    assert forall a :: a in t.accounts ==> a in t'.accounts && t'.accounts[a] == t.accounts[a];
  }

  // An account is opened exactly when its balance is in range, its id is new and its
  // owner has none in its currency; it starts with an entry for its balance.
  lemma OpenMeans(t: Tables, id: AccountId, row: Account)
    ensures var failure := OpenFailure(t, id, row);
            var clash := id in t.accounts ||
              exists a :: a in t.accounts && t.accounts[a].owner == row.owner && t.accounts[a].currency == row.currency;
            && (failure == Some(BalanceLimitExceeded) <==> row.balance > 9007199254740991)
            && (failure == Some(CheckViolation) <==> row.balance < 0)
            && (failure == Some(UniqueViolation) <==> 0 <= row.balance <= 9007199254740991 && clash)
            && (failure.None? <==> 0 <= row.balance <= 9007199254740991 && !clash)
            && (failure.Some? ==> Open(t, id, row) == t)
            && (failure.None? ==>
                  Open(t, id, row) == t.(accounts := t.accounts[id := row],
                                         entries := t.entries + (if row.balance == 0 then [] else [Entry(id, row.balance)])))
  {
    assert t.transfers + [] == t.transfers && t.notifications + [] == t.notifications && t.published + [] == t.published;
  }
}
