// The store itself: tables updated in place, one SQL statement at a time, and
// the two transactions that move or create money. Run without interference,
// each transaction does exactly what its serial meaning says.
module LedgerStore {
  import opened Prelude
  import opened Schema
  import T = Serial

  datatype Status = Done | Error(error: T.Failure)

  class Store {
    var accounts: map<AccountId, Account>
    var transfers: seq<Transfer>
    var entries: seq<Entry>
    var notifications: seq<Notification>
    var published: seq<Message>

    ghost function View(): Tables
      reads this
    {
      Tables(accounts, transfers, entries, notifications, published)
    }

    constructor ()
      ensures View() == EMPTY && LedgerInv(View())
    {
      accounts, transfers, entries, notifications, published := map[], [], [], [], [];
    }

    // ----- Statements --------------------------------------------------------

    method GetTransferBySourceAndIdempotencyKey(from: AccountId, key: Key) returns (r: Option<Transfer>)
      ensures r == FindTransfer(transfers, from, key)
    {
      var i := |transfers|;
      assert transfers[..i] == transfers;
      while i > 0
        invariant 0 <= i <= |transfers|
        invariant FindTransfer(transfers, from, key) == FindTransfer(transfers[..i], from, key)
      {
        assert transfers[..i][..i - 1] == transfers[..i - 1];
        if transfers[i - 1].from == from && transfers[i - 1].key == key {
          return Some(transfers[i - 1]);
        }
        i := i - 1;
      }
      return None;
    }

    method GetAccount(id: AccountId) returns (r: Option<Account>)
      ensures r == if id in accounts then Some(accounts[id]) else None
    {
      r := if id in accounts then Some(accounts[id]) else None;
    }

    // The rows in the caller's roles, read in id order; None when one is missing.
    method LockAccounts(from: AccountId, to: AccountId) returns (r: Option<(Account, Account)>)
      ensures r.Some? <==> from in accounts && to in accounts
      ensures r.Some? ==> r.value == (accounts[from], accounts[to])
    {
      var first, second := Min(from, to), Max(from, to);
      var a := GetAccount(first);
      if a.None? { return None; }
      var b := GetAccount(second);
      if b.None? { return None; }
      return if from < to then Some((a.value, b.value)) else Some((b.value, a.value));
    }

    method SumOutgoingTransfersSince(from: AccountId, clock: int) returns (total: int)
      ensures total == Schema.SumOutgoingTransfersSince(transfers, from, clock)
    {
      var sum := 0;
      for i := 0 to |transfers|
        invariant sum == Outgoing(transfers[..i], from, clock - DAY)
      {
        assert transfers[..i + 1] == transfers[..i] + [transfers[i]];
        OutgoingAppend(transfers[..i], transfers[i], from, clock - DAY);
        if transfers[i].from == from && transfers[i].createdAt >= clock - DAY {
          sum := sum + transfers[i].amount;
        }
      }
      assert transfers[..|transfers|] == transfers;
      total := Min(sum, MAX_SAFE_MINOR_UNITS);
    }

    method CreateTransfer(row: Transfer) returns (s: Status)
      modifies `transfers
      ensures s == if FindTransfer(old(transfers), row.from, row.key).Some? then Error(T.UniqueViolation) else Done
      ensures transfers == if s.Done? then old(transfers) + [row] else old(transfers)
    {
      var clash := GetTransferBySourceAndIdempotencyKey(row.from, row.key);
      if clash.Some? { return Error(T.UniqueViolation); }
      transfers := transfers + [row];
      return Done;
    }

    method CreateEntry(row: Entry)
      modifies `entries
      ensures entries == old(entries) + [row]
    {
      entries := entries + [row];
    }

    method AddAccountBalance(id: AccountId, amount: int) returns (r: Option<Account>)
      modifies `accounts
      ensures r == Schema.AddAccountBalance(old(accounts), id, amount)
      ensures accounts == if r.Some? then old(accounts)[id := r.value] else old(accounts)
    {
      if id !in accounts { return None; }
      var balance := accounts[id].balance + amount;
      if balance < 0 || MAX_SAFE_MINOR_UNITS < balance { return None; }
      accounts := accounts[id := accounts[id].(balance := balance)];
      return Some(accounts[id]);
    }

    method CreateNotification(direction: Direction, transfer: TransferId, account: AccountId) returns (r: Option<Notification>)
      modifies `notifications
      ensures r == DeriveNotification(old(View()), direction, transfer, account)
      ensures notifications == if r.Some? then old(notifications) + [r.value] else old(notifications)
    {
      r := DeriveNotification(Tables(accounts, transfers, entries, notifications, published), direction, transfer, account);
      if r.Some? { notifications := notifications + [r.value]; }
    }

    method PublishNotification(n: Notification)
      modifies `published
      ensures published == old(published) + [MessageFor(n)]
    {
      published := published + [MessageFor(n)];
    }

    // ----- Transactions ------------------------------------------------------

    // replayTransfer.
    method ReplayTransfer(existing: Transfer, p: T.Params) returns (o: T.Outcome)
      ensures o == T.ReplayFrom(accounts, existing, p)
    {
      var fromRow := GetAccount(existing.from);
      if fromRow.None? { return T.Failed(T.RecordNotFound); }
      var toRow := GetAccount(existing.to);
      if toRow.None? { return T.Failed(T.RecordNotFound); }
      o := T.TransferReplay(existing, p, fromRow.value, toRow.value);
    }

    // The rows of a transfer that passed its checks, and the guarded debit and
    // credit; false when a guard leaves its account alone.
    method MoveMoney(p: T.Params, row: Transfer) returns (moved: bool)
      requires p.from in accounts && p.to in accounts && T.Admissible(p)
      requires 0 <= accounts[p.from].balance <= MAX_SAFE_MINOR_UNITS && 0 <= accounts[p.to].balance
      requires accounts[p.to].balance + p.amount <= MAX_SAFE_MINOR_UNITS
      requires row.from == p.from && row.key == p.key && FindTransfer(transfers, p.from, p.key).None?
      modifies `accounts, `transfers, `entries
      ensures moved <==> old(accounts)[p.from].balance >= p.amount
      ensures moved ==>
                var w := T.Posting(old(accounts), p, row);
                && accounts == old(accounts) + w.accounts
                && transfers == old(transfers) + [row]
                && entries == old(entries) + w.entries
    {
      var inserted := CreateTransfer(row);
      CreateEntry(Entry(p.from, -p.amount));
      CreateEntry(Entry(p.to, p.amount));
      var fromRow := AddAccountBalance(p.from, -p.amount);
      if fromRow.None? { return false; }
      var toRow := AddAccountBalance(p.to, p.amount);
      moved := toRow.Some?;
    }

    // Both notifications of a transfer whose rows are in place.
    method Notify(row: Transfer)
      requires FindById(transfers, row.id) == Some(row) && row.from in accounts && row.to in accounts
      modifies `notifications, `published
      ensures var a, b := old(accounts)[row.from], old(accounts)[row.to];
              var sent := Notification(row.id, row.from, a.owner, Sent, row.amount, a.currency, a.balance);
              var received := Notification(row.id, row.to, b.owner, Received, row.amount, b.currency, b.balance);
              && notifications == old(notifications) + [sent, received]
              && published == old(published) + [MessageFor(sent), MessageFor(received)]
    {
      var sent := CreateNotification(Sent, row.id, row.from);
      PublishNotification(sent.value);
      var received := CreateNotification(Received, row.id, row.to);
      PublishNotification(received.value);
    }

    // The writing half of the transaction.
    method Post(p: T.Params, row: Transfer) returns (o: T.Outcome)
      requires T.Admissible(p) && p.from in accounts && p.to in accounts
      requires 0 <= accounts[p.from].balance <= MAX_SAFE_MINOR_UNITS && 0 <= accounts[p.to].balance
      requires accounts[p.to].balance + p.amount <= MAX_SAFE_MINOR_UNITS
      requires row.from == p.from && row.to == p.to && row.amount == p.amount && row.key == p.key
      requires FindTransfer(transfers, p.from, p.key).None?
      modifies this
      ensures old(accounts)[p.from].balance < p.amount ==> o == T.Failed(T.InsufficientBalance)
      ensures old(accounts)[p.from].balance >= p.amount ==>
                && View() == Overlay(old(View()), T.Posting(old(accounts), p, row))
                && o == T.Created(row, accounts[p.from], accounts[p.to])
    {
      var moved := MoveMoney(p, row);
      if !moved { return T.Failed(T.InsufficientBalance); }
      FindByIdAppend(old(transfers), row);
      Notify(row);
      o := T.Created(row, accounts[p.from], accounts[p.to]);
    }

    // The transaction body: lock, look up again, check, post.
    method TransferBody(p: T.Params, id: TransferId, started: int, clock: int) returns (o: T.Outcome)
      requires LedgerInv(View()) && T.Admissible(p) && T.Fresh(View(), id)
      modifies this
      ensures o == T.Transact(old(View()), p, id, started, clock).1 ||
              (FindTransfer(old(transfers), p.from, p.key).Some? && (p.from !in old(accounts) || p.to !in old(accounts)))
      ensures FindTransfer(old(transfers), p.from, p.key).None? ==> o == T.Transact(old(View()), p, id, started, clock).1
      ensures o.Created? ==> View() == T.Transact(old(View()), p, id, started, clock).0
    {
      var rows := LockAccounts(p.from, p.to);
      if rows.None? { return T.Failed(T.RecordNotFound); }
      var (fromRow, toRow) := rows.value;

      var existing := GetTransferBySourceAndIdempotencyKey(p.from, p.key);
      if existing.Some? {
        return T.TransferReplay(existing.value, p, fromRow, toRow);
      }
      if fromRow.currency != p.currency || toRow.currency != p.currency {
        return T.Failed(T.CurrencyMismatch);
      }
      if p.amount > MAX_SAFE_MINOR_UNITS || toRow.balance > MAX_SAFE_MINOR_UNITS - p.amount {
        return T.Failed(T.BalanceLimitExceeded);
      }
      T.DailyLimitTestExact(transfers, p, clock);
      if p.dailyLimit > 0 {
        var spent := SumOutgoingTransfersSince(p.from, clock);
        if p.amount > p.dailyLimit || spent > p.dailyLimit - p.amount {
          return T.Failed(T.DailyLimitExceeded);
        }
      }
      o := Post(p, T.TransferRow(p, id, started));
    }

    // TransferTx. A failed body is rolled back by restoring every table.
    method TransferTx(p: T.Params, id: TransferId, started: int, clock: int) returns (o: T.Outcome)
      requires LedgerInv(View()) && T.Admissible(p) && T.Fresh(View(), id)
      modifies this
      ensures (View(), o) == T.Transact(old(View()), p, id, started, clock)
      ensures LedgerInv(View())
      ensures o.Created? ==>
                && o.transfer == Transfer(id, p.from, p.to, p.amount, started, p.key)
                && transfers == old(transfers) + [o.transfer]
                && entries == old(entries) + [Entry(p.from, -p.amount), Entry(p.to, p.amount)]
      ensures !o.Created? ==> View() == old(View())
    {
      ghost var was := View();
      T.TransactKeepsLedger(was, p, id, started, clock);
      if T.Transact(was, p, id, started, clock).1.Created? { T.CreatedMeans(was, p, id, started, clock); }
      T.FailedChangesNothing(was, p, id, started, clock);
      if FindTransfer(transfers, p.from, p.key).Some? { T.UsedKeyReplays(was, p, id, started, clock); }
      hide T.Transact, LedgerInv, T.ReplayFrom;
      var existing := GetTransferBySourceAndIdempotencyKey(p.from, p.key);
      if existing.Some? {
        o := ReplayTransfer(existing.value, p);
        return;
      }
      var a, t, e, n, m := accounts, transfers, entries, notifications, published;
      o := TransferBody(p, id, started, clock);
      if o.Failed? || o.Replayed? {
        accounts, transfers, entries, notifications, published := a, t, e, n, m;
      }
    }

    // CreateAccountTx.
    method CreateAccountTx(id: AccountId, row: Account) returns (s: Status)
      requires LedgerInv(View())
      modifies `accounts, `entries
      ensures View() == T.Open(old(View()), id, row)
      ensures s == match T.OpenFailure(old(View()), id, row) case Some(error) => Error(error) case None => Done
      ensures s.Done? ==> 0 <= row.balance <= MAX_SAFE_MINOR_UNITS && id !in old(accounts) && accounts == old(accounts)[id := row]
      ensures s.Error? ==> View() == old(View())
      ensures LedgerInv(View())
    {
      T.OpenKeepsLedger(View(), id, row);
      T.OpenMeans(View(), id, row);
      hide LedgerInv, T.Taken, T.OpenFailure, T.Open;
      var failure := T.OpenFailure(Tables(accounts, transfers, entries, notifications, published), id, row);
      if failure.Some? { return Error(failure.value); }
      accounts := accounts[id := row];
      if row.balance != 0 {
        CreateEntry(Entry(id, row.balance));
      }
      return Done;
    }
  }
}
