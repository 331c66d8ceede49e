// The ledger tables, the meaning of the SQL statements a transfer runs, and the
// invariant every committed state keeps.
module Schema {
  import opened Prelude

  // Identifiers are UUIDs in the database. Only their equality and their total
  // order matter to the protocol.
  type AccountId = nat
  type TransferId = nat
  type Key = nat

  // Largest integer a JSON number carries exactly: 2^53 - 1.
  const MAX_SAFE_MINOR_UNITS := 9007199254740991
  // 24 hours in microseconds, the resolution of a timestamptz.
  const DAY := 86400000000

  datatype Account = Account(owner: string, balance: int, currency: string)
  datatype Transfer =
    Transfer(id: TransferId, from: AccountId, to: AccountId, amount: int, createdAt: int, key: Key)
  datatype Entry = Entry(account: AccountId, amount: int)
  datatype Direction = Sent | Received
  // A notification row; (transfer, account) is unique and identifies it.
  datatype Notification = Notification(
    transfer: TransferId, account: AccountId, owner: string, direction: Direction,
    amount: int, currency: string, balance: int)
  // One pg_notify message; it becomes visible when its transaction commits.
  datatype Message = Message(transfer: TransferId, account: AccountId, owner: string)

  // Table contents in commit order. The same shape also holds the private,
  // uncommitted writes of one transaction.
  datatype Tables = Tables(
    accounts: map<AccountId, Account>,
    transfers: seq<Transfer>,
    entries: seq<Entry>,
    notifications: seq<Notification>,
    published: seq<Message>)

  const EMPTY := Tables(map[], [], [], [], [])

  // What a transaction with private writes `work` sees: the committed rows
  // plus its own.
  function Overlay(db: Tables, work: Tables): Tables {
    Tables(db.accounts + work.accounts,
           db.transfers + work.transfers,
           db.entries + work.entries,
           db.notifications + work.notifications,
           db.published + work.published)
  }

  // ----- Statements ---------------------------------------------------------

  // GetTransferBySourceAndIdempotencyKey.
  function FindTransfer(ts: seq<Transfer>, from: AccountId, key: Key): (r: Option<Transfer>)
    ensures r.Some? ==> r.value in ts && r.value.from == from && r.value.key == key
    ensures r.None? ==> forall t :: t in ts ==> !(t.from == from && t.key == key)
  {
    if |ts| == 0 then None
    else if ts[|ts| - 1].from == from && ts[|ts| - 1].key == key then Some(ts[|ts| - 1])
    else
      var r := FindTransfer(ts[..|ts| - 1], from, key);
      assert ts == ts[..|ts| - 1] + [ts[|ts| - 1]];
      r
  }

  // The row with primary key `id`.
  function FindById(ts: seq<Transfer>, id: TransferId): (r: Option<Transfer>)
    ensures r.Some? ==> r.value in ts && r.value.id == id
    ensures r.None? ==> forall t :: t in ts ==> t.id != id
  {
    if |ts| == 0 then None
    else if ts[|ts| - 1].id == id then Some(ts[|ts| - 1])
    else
      var r := FindById(ts[..|ts| - 1], id);
      assert ts == ts[..|ts| - 1] + [ts[|ts| - 1]];
      r
  }

  // The exact total sent from an account by transfers created at `since` or later.
  function Outgoing(ts: seq<Transfer>, from: AccountId, since: int): int {
    if |ts| == 0 then 0
    else
      var t := ts[|ts| - 1];
      Outgoing(ts[..|ts| - 1], from, since) + (if t.from == from && t.createdAt >= since then t.amount else 0)
  }

  // SumOutgoingTransfersSince: the total is capped so that it fits a bigint.
  function SumOutgoingTransfersSince(ts: seq<Transfer>, from: AccountId, clock: int): int {
    Min(Outgoing(ts, from, clock - DAY), MAX_SAFE_MINOR_UNITS)
  }

  // AddAccountBalance: the updated row, or None when the guard leaves the row alone.
  function AddAccountBalance(accounts: map<AccountId, Account>, id: AccountId, amount: int): Option<Account> {
    if id in accounts && 0 <= accounts[id].balance + amount <= MAX_SAFE_MINOR_UNITS then
      Some(accounts[id].(balance := accounts[id].balance + amount))
    else None
  }

  // CreateNotification: derived from the account row and the transfer row; no
  // row when the account does not play the given part in the transfer.
  function DeriveNotification(view: Tables, direction: Direction, transfer: TransferId, account: AccountId)
    : Option<Notification>
  {
    match FindById(view.transfers, transfer)
    case None => None
    case Some(t) =>
      if account in view.accounts &&
         ((direction == Sent && t.from == account) || (direction == Received && t.to == account))
      then
        var a := view.accounts[account];
        Some(Notification(t.id, account, a.owner, direction, t.amount, a.currency, a.balance))
      else None
  }

  // PublishNotification.
  function MessageFor(n: Notification): Message {
    Message(n.transfer, n.account, n.owner)
  }

  // ----- Sums ---------------------------------------------------------------

  function EntrySum(es: seq<Entry>, a: AccountId): int {
    if |es| == 0 then 0
    else EntrySum(es[..|es| - 1], a) + (if es[|es| - 1].account == a then es[|es| - 1].amount else 0)
  }

  // Total of the balances in one currency over the accounts with ids below `bound`.
  function Total(accounts: map<AccountId, Account>, currency: string, bound: nat): int {
    if bound == 0 then 0
    else
      Total(accounts, currency, bound - 1) +
      (if bound - 1 in accounts && accounts[bound - 1].currency == currency
       then accounts[bound - 1].balance else 0)
  }

  lemma OutgoingAppend(ts: seq<Transfer>, t: Transfer, from: AccountId, since: int)
    ensures Outgoing(ts + [t], from, since) ==
            Outgoing(ts, from, since) + (if t.from == from && t.createdAt >= since then t.amount else 0)
  {
    assert (ts + [t])[..|ts|] == ts;
  }

  // Sums over positive amounts are non-negative and shrink as the window does.
  lemma {:induction false} OutgoingMonotone(ts: seq<Transfer>, from: AccountId, early: int, late: int)
    requires forall t :: t in ts ==> t.amount > 0
    requires early <= late
    ensures 0 <= Outgoing(ts, from, late) <= Outgoing(ts, from, early)
  {
    if |ts| > 0 {
      OutgoingMonotone(ts[..|ts| - 1], from, early, late);
      assert ts[|ts| - 1] in ts;
    }
  }

  lemma EntrySumAppend(es: seq<Entry>, e: Entry, a: AccountId)
    ensures EntrySum(es + [e], a) == EntrySum(es, a) + (if e.account == a then e.amount else 0)
  {
    assert (es + [e])[..|es|] == es;
  }

  lemma {:induction false} EntrySumAbsent(es: seq<Entry>, a: AccountId)
    requires forall e :: e in es ==> e.account != a
    ensures EntrySum(es, a) == 0
  {
    if |es| > 0 {
      EntrySumAbsent(es[..|es| - 1], a);
      assert es[|es| - 1] in es;
    }
  }

  // Rewriting one row moves the total by the change of that row.
  lemma {:induction false} TotalUpdate(accounts: map<AccountId, Account>, id: AccountId, row: Account, currency: string, bound: nat)
    ensures Total(accounts[id := row], currency, bound) ==
            Total(accounts, currency, bound)
            + (if id < bound && row.currency == currency then row.balance else 0)
            - (if id < bound && id in accounts && accounts[id].currency == currency then accounts[id].balance else 0)
  {
    if bound > 0 {
      TotalUpdate(accounts, id, row, currency, bound - 1);
    }
  }

  // ----- The invariant of the committed tables ------------------------------

  predicate AccountsMatchEntries(t: Tables) {
    && (forall a :: a in t.accounts ==>
         0 <= t.accounts[a].balance <= MAX_SAFE_MINOR_UNITS && t.accounts[a].balance == EntrySum(t.entries, a))
    && (forall e :: e in t.entries ==> e.account in t.accounts)
  }

  predicate TransferRowsSound(t: Tables) {
    && (forall x :: x in t.transfers ==>
         && 1 <= x.amount <= MAX_SAFE_MINOR_UNITS && x.from != x.to
         && x.from in t.accounts && x.to in t.accounts
         && t.accounts[x.from].currency == t.accounts[x.to].currency)
    && (forall i, j :: 0 <= i < j < |t.transfers| ==>
         && t.transfers[i].id != t.transfers[j].id
         && !(t.transfers[i].from == t.transfers[j].from && t.transfers[i].key == t.transfers[j].key))
  }

  // Notification 2k tells the sender of transfer k, notification 2k+1 its receiver.
  predicate NotificationDescribes(t: Tables, n: Notification, x: Transfer, direction: Direction) {
    var a := if direction == Sent then x.from else x.to;
    && n.transfer == x.id && n.account == a && n.direction == direction && n.amount == x.amount
    && a in t.accounts && n.owner == t.accounts[a].owner && n.currency == t.accounts[a].currency
    && 0 <= n.balance <= MAX_SAFE_MINOR_UNITS
  }

  predicate NotificationsSound(t: Tables) {
    && |t.notifications| == 2 * |t.transfers|
    && (forall k :: 0 <= k < |t.transfers| ==>
         && NotificationDescribes(t, t.notifications[2 * k], t.transfers[k], Sent)
         && NotificationDescribes(t, t.notifications[2 * k + 1], t.transfers[k], Received))
    && |t.published| == |t.notifications|
    && (forall i :: 0 <= i < |t.published| ==> t.published[i] == MessageFor(t.notifications[i]))
  }

  // UNIQUE (owner, currency).
  predicate OneAccountPerCurrency(t: Tables) {
    forall a, b :: a in t.accounts && b in t.accounts && a != b ==>
      !(t.accounts[a].owner == t.accounts[b].owner && t.accounts[a].currency == t.accounts[b].currency)
  }

  predicate LedgerInv(t: Tables) {
    AccountsMatchEntries(t) && TransferRowsSound(t) && NotificationsSound(t) && OneAccountPerCurrency(t)
  }

  // Under unique keys a lookup finds the one row that carries the key.
  lemma FindTransferUnique(t: Tables, x: Transfer)
    requires TransferRowsSound(t) && x in t.transfers
    ensures FindTransfer(t.transfers, x.from, x.key) == Some(x)
  {
    var r := FindTransfer(t.transfers, x.from, x.key);
    assert r.Some?;
    var i :| 0 <= i < |t.transfers| && t.transfers[i] == x;
    var j :| 0 <= j < |t.transfers| && t.transfers[j] == r.value;
    assert i == j;
  }

  lemma FindByIdAppend(ts: seq<Transfer>, t: Transfer)
    ensures FindById(ts + [t], t.id) == Some(t)
  {
  }
}
