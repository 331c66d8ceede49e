// The promises of the transfer protocol over every run: one transfer per key,
// late retries, exact errors, the rolling limit, and the books.
module Guarantees {
  import opened Prelude
  import opened Schema
  import opened Serial
  import opened Protocol
  import opened ProtocolInv
  import opened SerialOrder
  import opened LedgerTheorems

  // ----- Exactly once -----------------------------------------------------------

  predicate Succeeded(call: Call) {
    call.phase == Finished && (call.outcome.Created? || call.outcome.Replayed?)
  }

  predicate Asks(p: Params, x: Transfer) {
    x.from == p.from && x.to == p.to && x.amount == p.amount && x.key == p.key
  }

  lemma HistoryAt(s: State, i: nat)
    requires Inv(s) && i < |s.history|
    ensures LedgerInv(s.history[i]) && Extends(s.history[i], Db(s))
  {
    hide CallInv, Conserved, LocksInv, OriginInv, CausesInv, LedgerInv, Extends;
    assert Extends(s.history[i], s.history[|s.history| - 1]);
  }

  // Every successful answer is a committed transfer on the terms that were asked for.
  lemma AnswerIsCommitted(s: State, c: nat)
    requires Inv(s) && c < |s.calls| && Succeeded(s.calls[c])
    ensures s.calls[c].outcome.transfer in Db(s).transfers
    ensures Asks(s.calls[c].p, s.calls[c].outcome.transfer)
    ensures s.calls[c].outcome.Created? ==> s.calls[c].outcome.transfer.id == c
  {
    hide Inv, LedgerInv;
    DecidedOn(s, c);
    var call := s.calls[c];
    HistoryAt(s, call.at);
    if call.outcome.Created? {
      CreatedIsPosting(s.history[call.at], call.p, c, call.started, call.checked);
      HistoryAt(s, call.at + 1);
      assert call.outcome.transfer in s.history[call.at + 1].transfers;
    } else {
      assert call.outcome.transfer in s.history[call.at].transfers;
    }
  }

  // For one source and key there is one transfer: all calls that succeed with
  // the key name the same row, and at most one of them created it.
  lemma OneTransferPerKey(ls: seq<Label>, c: nat, d: nat)
    requires Run(ls).Some?
    requires c < |Run(ls).value.calls| && d < |Run(ls).value.calls|
    requires Succeeded(Run(ls).value.calls[c]) && Succeeded(Run(ls).value.calls[d])
    requires Run(ls).value.calls[c].p.from == Run(ls).value.calls[d].p.from
    requires Run(ls).value.calls[c].p.key == Run(ls).value.calls[d].p.key
    ensures Run(ls).value.calls[c].outcome.transfer == Run(ls).value.calls[d].outcome.transfer
    ensures Run(ls).value.calls[c].outcome.Created? && Run(ls).value.calls[d].outcome.Created? ==> c == d
  {
    hide Inv;
    RunInv(ls);
    var s := Run(ls).value;
    AnswerIsCommitted(s, c);
    AnswerIsCommitted(s, d);
    HistoryAt(s, |s.history| - 1);
    FindTransferUnique(Db(s), s.calls[c].outcome.transfer);
    FindTransferUnique(Db(s), s.calls[d].outcome.transfer);
  }

  // The rows of transfer k: no other transfer has its key, and exactly two
  // notifications mention it, one for each side.
  ghost predicate RowsExact(t: Tables, k: nat)
    requires k < |t.transfers|
  {
    var x := t.transfers[k];
    && (forall j :: 0 <= j < |t.transfers| && t.transfers[j].from == x.from && t.transfers[j].key == x.key ==> j == k)
    && |t.notifications| == 2 * |t.transfers|
    && (forall n :: 0 <= n < |t.notifications| ==> (t.notifications[n].transfer == x.id <==> n == 2 * k || n == 2 * k + 1))
    && NotificationDescribes(t, t.notifications[2 * k], x, Sent)
    && NotificationDescribes(t, t.notifications[2 * k + 1], x, Received)
  }

  lemma LedgerRowsExact(t: Tables, k: nat)
    requires TransferRowsSound(t) && NotificationsSound(t) && k < |t.transfers|
    ensures RowsExact(t, k)
  {
    forall n | 0 <= n < |t.notifications|
      ensures t.notifications[n].transfer == t.transfers[k].id <==> n == 2 * k || n == 2 * k + 1
    {
      var m := n / 2;
      assert n == 2 * m || n == 2 * m + 1;
      assert t.notifications[n].transfer == t.transfers[m].id;
      if m != k { DistinctIds(t, m, k); }
    }
    forall j | 0 <= j < |t.transfers| && t.transfers[j].from == t.transfers[k].from && t.transfers[j].key == t.transfers[k].key
      ensures j == k
    {
    }
  }

  lemma CommittedRowsExact(ls: seq<Label>, k: nat)
    requires Run(ls).Some? && k < |Db(Run(ls).value).transfers|
    ensures RowsExact(Db(Run(ls).value), k)
  {
    hide Inv, RowsExact;
    RunInv(ls);
    var s := Run(ls).value;
    HistoryAt(s, |s.history| - 1);
    LedgerRowsExact(Db(s), k);
  }

  lemma DistinctIds(t: Tables, i: nat, j: nat)
    requires TransferRowsSound(t) && i < |t.transfers| && j < |t.transfers| && i != j
    ensures t.transfers[i].id != t.transfers[j].id
    ensures !(t.transfers[i].from == t.transfers[j].from && t.transfers[i].key == t.transfers[j].key)
  {
    if i > j {
      assert t.transfers[j].id != t.transfers[i].id;
    }
  }

  // The transfer and the entries one commit adds: a debit of the source and a credit
  // of the destination, or the opening entry of an account that opens with money.
  function TransferOf(op: Op, calls: seq<Call>): seq<Transfer> {
    match op
    case TransferOp(c) => if c < |calls| then [RowOf(calls[c], c)] else []
    case OpenOp(_, _) => []
  }

  function EntriesOf(op: Op, calls: seq<Call>): seq<Entry> {
    match op
    case TransferOp(c) =>
      if c >= |calls| then []
      else
        var x := RowOf(calls[c], c);
        [Entry(x.from, -x.amount), Entry(x.to, x.amount)]
    case OpenOp(id, row) => if row.balance != 0 then [Entry(id, row.balance)] else []
  }

  function TransfersOf(ops: seq<Op>, calls: seq<Call>): seq<Transfer> {
    if |ops| == 0 then [] else TransfersOf(ops[..|ops| - 1], calls) + TransferOf(ops[|ops| - 1], calls)
  }

  function AllEntriesOf(ops: seq<Op>, calls: seq<Call>): seq<Entry> {
    if |ops| == 0 then [] else AllEntriesOf(ops[..|ops| - 1], calls) + EntriesOf(ops[|ops| - 1], calls)
  }

  lemma CommitAdds(s: State, i: nat)
    requires Inv(s) && i < |s.causes| && i + 1 < |s.history|
    ensures s.history[i + 1].entries == s.history[i].entries + EntriesOf(s.causes[i], s.calls)
    ensures s.history[i + 1].transfers == s.history[i].transfers + TransferOf(s.causes[i], s.calls)
  {
    hide Inv, LedgerInv;
    CauseSerial(s, i);
    OpenedWell(s, i);
    match s.causes[i]
    case TransferOp(c) =>
      CauseOfCreated(s, i, c);
      CreatedIsPosting(s.history[i], s.calls[c].p, c, s.calls[c].started, s.calls[c].checked);
      hide Serial.Transact;
    case OpenOp(id, row) =>
      hide Serial.Transact;
  }

  lemma {:induction false} EntriesUpTo(s: State, i: nat)
    requires Inv(s) && i < |s.history| && i <= |s.causes|
    ensures s.history[i].entries == AllEntriesOf(s.causes[..i], s.calls)
    ensures s.history[i].transfers == TransfersOf(s.causes[..i], s.calls)
  {
    hide Inv, EntriesOf, TransferOf;
    if i == 0 {
      FirstIsEmpty(s);
    } else {
      EntriesUpTo(s, i - 1);
      CommitAdds(s, i - 1);
      assert s.causes[..i][..i - 1] == s.causes[..i - 1];
    }
  }

  lemma OpenedWell(s: State, i: nat)
    requires Inv(s) && i < |s.causes|
    ensures i < |s.history|
    ensures s.causes[i].OpenOp? ==> OpenFailure(s.history[i], s.causes[i].id, s.causes[i].row).None?
  {
    hide CallInv, HistoryInv, Conserved, LocksInv, OriginInv;
    CauseAt(s, i);
  }

  // The transfers and entries of every reachable state are, commit by commit, those
  // of the calls that created a transfer and of the openings, and no others.
  lemma EntriesExact(ls: seq<Label>)
    requires Run(ls).Some?
    ensures var s := Run(ls).value;
            && Db(s).transfers == TransfersOf(s.causes, s.calls)
            && Db(s).entries == AllEntriesOf(s.causes, s.calls)
  {
    hide Inv;
    RunInv(ls);
    var s := Run(ls).value;
    CauseLengthInv(s);
    EntriesUpTo(s, |s.causes|);
    assert s.causes[..|s.causes|] == s.causes;
  }

  // So each transfer has its two entries: the amount off its source, and on its
  // destination.
  lemma {:induction false} EntriesOfTransfer(ops: seq<Op>, calls: seq<Call>, k: nat) returns (e: nat)
    requires k < |TransfersOf(ops, calls)|
    ensures var x := TransfersOf(ops, calls)[k];
            && e + 1 < |AllEntriesOf(ops, calls)|
            && AllEntriesOf(ops, calls)[e] == Entry(x.from, -x.amount)
            && AllEntriesOf(ops, calls)[e + 1] == Entry(x.to, x.amount)
    decreases |ops|
  {
    var before := ops[..|ops| - 1];
    if k < |TransfersOf(before, calls)| {
      e := EntriesOfTransfer(before, calls, k);
    } else {
      e := |AllEntriesOf(before, calls)|;
    }
  }

  lemma CauseOfCreated(s: State, i: nat, c: nat)
    requires Inv(s) && i < |s.causes| && s.causes[i] == TransferOp(c)
    ensures c < |s.calls| && i < |s.history|
    ensures Serial.Transact(s.history[i], s.calls[c].p, c, s.calls[c].started, s.calls[c].checked).1.Created?
  {
    hide Inv, Serial.Transact;
    CauseAt(s, i);
    DecidedOn(s, c);
  }

  // ----- Late retries -----------------------------------------------------------

  // While `x` is committed and call c asks for it: c is still before its locked
  // lookup, or holds x as its answer, or was cancelled.
  ghost predicate Heading(call: Call, x: Transfer) {
    match call.phase
    case FastLookup => true
    case Begin => true
    case LockFirst => true
    case LockSecond => true
    case Relookup => true
    case FastReadFrom => call.existing == Some(x)
    case FastReadTo => call.existing == Some(x)
    case EndTx => call.outcome == Replayed(x) || call.outcome == Failed(Cancelled)
    case Finished => call.outcome == Replayed(x) || call.outcome == Failed(Cancelled)
    case _ => false
  }

  ghost predicate Matches(db: Tables, p: Params, x: Transfer) {
    && x in db.transfers && Asks(p, x)
    && x.from in db.accounts && x.to in db.accounts
    && db.accounts[x.from].currency == p.currency && db.accounts[x.to].currency == p.currency
    && FindTransfer(db.transfers, p.from, p.key) == Some(x)
  }

  lemma UndecidedHeads(h: History, clock: int, call: Call, c: nat, x: Transfer)
    requires CallInv(h, clock, call, c) && Matches(Last(h), call.p, x)
    requires call.phase != EndTx && call.phase != Finished
    requires forall i :: 0 <= i < |h| ==> Extends(h[i], Last(h))
    requires TransferRowsSound(Last(h))
    ensures Heading(call, x)
  {
    if call.phase == FastReadFrom || call.phase == FastReadTo {
      assert Extends(h[call.at], Last(h));
      assert call.existing.value in Last(h).transfers;
      FindTransferUnique(Last(h), call.existing.value);
    }
  }

  lemma FastSnapshot(h: History, clock: int, call: Call, c: nat)
    requires CallInv(h, clock, call, c) && call.phase == FastReadTo
    requires forall i :: 0 <= i < |h| ==> Extends(h[i], Last(h))
    ensures call.existing.Some? && call.fromRow.Some? && call.existing.value.from in Last(h).accounts
    ensures call.fromRow.value.currency == Last(h).accounts[call.existing.value.from].currency
  {
    assert Extends(h[call.at], Last(h));
  }

  lemma HeadingLocal(h: History, clock: int, call: Call, c: nat, x: Transfer)
    requires CallInv(h, clock, call, c) && Matches(Last(h), call.p, x) && Heading(call, x)
    requires forall i :: 0 <= i < |h| ==> Extends(h[i], Last(h))
    requires LocalStep(h, clock, call, c).Some?
    ensures Heading(LocalStep(h, clock, call, c).value, x)
  {
    hide WorkInv, DecidedInv;
    if call.phase == FastReadTo {
      FastSnapshot(h, clock, call, c);
    }
  }

  lemma HeadingShared(s: State, c: nat, x: Transfer)
    requires c < |s.calls| && Matches(Db(s), s.calls[c].p, x) && Heading(s.calls[c], x)
    requires s.calls[c].phase == LockFirst || s.calls[c].phase == LockSecond || s.calls[c].phase == EndTx
    requires Advance(s, c).Some?
    ensures c < |Advance(s, c).value.calls| && Heading(Advance(s, c).value.calls[c], x)
  {
  }

  lemma AllExtended(s: State)
    requires Inv(s)
    ensures forall i :: 0 <= i < |s.history| ==> Extends(s.history[i], Last(s.history))
  {
    hide Inv, LedgerInv, Extends;
    forall i | 0 <= i < |s.history| ensures Extends(s.history[i], Last(s.history)) { HistoryAt(s, i); }
  }

  lemma AdvanceLocally(s: State, c: nat)
    requires c < |s.calls| && Advance(s, c).Some?
    requires s.calls[c].phase != LockFirst && s.calls[c].phase != LockSecond
    requires s.calls[c].phase != EndTx && s.calls[c].phase != Commit
    ensures LocalStep(s.history, s.clock, s.calls[c], c).Some?
    ensures c < |Advance(s, c).value.calls|
    ensures Advance(s, c).value.calls[c] == LocalStep(s.history, s.clock, s.calls[c], c).value
  {
  }

  lemma HeadingBeforeCommit(call: Call, x: Transfer)
    requires Heading(call, x)
    ensures call.phase != Commit
  {
  }

  lemma CallInvAt(s: State, c: nat)
    requires Inv(s) && c < |s.calls|
    ensures CallInv(s.history, s.clock, s.calls[c], c)
  {
    hide CallInv, HistoryInv, Conserved, LocksInv, OriginInv, CausesInv;
  }

  // The call's own steps keep it heading for x.
  lemma HeadingAdvance(s: State, c: nat, x: Transfer)
    requires Inv(s) && c < |s.calls| && Matches(Db(s), s.calls[c].p, x) && Heading(s.calls[c], x)
    requires Advance(s, c).Some?
    ensures c < |Advance(s, c).value.calls| && Heading(Advance(s, c).value.calls[c], x)
  {
    hide Inv, Heading, Matches, Advance, LocalStep, CallInv, Extends;
    var call := s.calls[c];
    HeadingBeforeCommit(call, x);
    if call.phase == LockFirst || call.phase == LockSecond || call.phase == EndTx {
      HeadingShared(s, c, x);
    } else {
      CallInvAt(s, c);
      AllExtended(s);
      AdvanceLocally(s, c);
      HeadingLocal(s.history, s.clock, call, c, x);
    }
  }

  // Later commits do not take the answer away.
  lemma MatchesLater(s: State, s': State, p: Params, x: Transfer)
    requires Inv(s) && Inv(s') && Continues(s, s') && Matches(Db(s), p, x)
    ensures Matches(Db(s'), p, x)
  {
    hide Inv, LedgerInv;
    HistoryAt(s', |s.history| - 1);
    assert s'.history[|s.history| - 1] == s'.history[..|s.history|][|s.history| - 1] == Db(s);
    HistoryAt(s', |s'.history| - 1);
    assert LedgerInv(Db(s'));
    LedgerParts(Db(s'));
    FindTransferUnique(Db(s'), x);
  }

  lemma LedgerParts(t: Tables)
    requires LedgerInv(t)
    ensures TransferRowsSound(t)
  {
  }

  lemma HeadingNext(s: State, l: Label, c: nat, x: Transfer)
    requires Inv(s) && Next(s, l).Some? && c < |s.calls|
    requires Matches(Db(s), s.calls[c].p, x) && Heading(s.calls[c], x)
    ensures c < |Next(s, l).value.calls| && Heading(Next(s, l).value.calls[c], x)
  {
    hide Inv, Matches;
    if l == Step(c) {
      HeadingAdvance(s, c, x);
      AdvanceContinues(s, c);
    } else {
      NextContinues(s, l);
      OthersAlone(s, l, c);
    }
  }

  lemma OthersAlone(s: State, l: Label, c: nat)
    requires Next(s, l).Some? && c < |s.calls| && l != Step(c)
    ensures c < |Next(s, l).value.calls|
    ensures Next(s, l).value.calls[c] == s.calls[c] || Some(Next(s, l).value.calls[c]) == Abandoned(s.calls[c])
  {
    hide LocalStep, Abandoned;
  }

  lemma {:induction false} RetryHeads(ls: seq<Label>, more: seq<Label>, c: nat, x: Transfer)
    requires Run(ls).Some? && Run(ls + more).Some? && c < |Run(ls).value.calls|
    requires Run(ls).value.calls[c].phase != EndTx && Run(ls).value.calls[c].phase != Finished
    requires Matches(Db(Run(ls).value), Run(ls).value.calls[c].p, x)
    ensures c < |Run(ls + more).value.calls| && Heading(Run(ls + more).value.calls[c], x)
  {
    hide Inv, Matches, Heading, Next;
    RunInv(ls);
    if |more| == 0 {
      assert ls + more == ls;
      StartHeads(Run(ls).value, c, x);
    } else {
      var shorter := more[..|more| - 1];
      assert (ls + more)[..|ls + more| - 1] == ls + shorter;
      assert (ls + more)[|ls + more| - 1] == more[|more| - 1];
      RetryHeads(ls, shorter, c, x);
      RunContinues(ls, shorter);
      RunInv(ls + shorter);
      MatchesLater(Run(ls).value, Run(ls + shorter).value, Run(ls).value.calls[c].p, x);
      HeadingNext(Run(ls + shorter).value, more[|more| - 1], c, x);
    }
  }

  lemma StartHeads(s: State, c: nat, x: Transfer)
    requires Inv(s) && c < |s.calls| && s.calls[c].phase != EndTx && s.calls[c].phase != Finished
    requires Matches(Db(s), s.calls[c].p, x)
    ensures Heading(s.calls[c], x)
  {
    hide Inv, CallInv, LedgerInv;
    CallInvAt(s, c);
    AllExtended(s);
    HistoryAt(s, |s.history| - 1);
    LedgerParts(Db(s));
    UndecidedHeads(s.history, s.clock, s.calls[c], c, x);
  }

  // Once x is committed, every call that asks for x and is not decided yet ends
  // with x, even if its own first lookup missed it and whatever has become of the
  // balances and limits, unless its client gives up.
  lemma LateRetryReplays(ls: seq<Label>, more: seq<Label>, c: nat, x: Transfer)
    requires Run(ls).Some? && Run(ls + more).Some? && c < |Run(ls).value.calls|
    requires Run(ls).value.calls[c].phase != EndTx && Run(ls).value.calls[c].phase != Finished
    requires x in Db(Run(ls).value).transfers && Asks(Run(ls).value.calls[c].p, x)
    requires x.from in Db(Run(ls).value).accounts &&
             Db(Run(ls).value).accounts[x.from].currency == Run(ls).value.calls[c].p.currency
    ensures c < |Run(ls + more).value.calls|
    ensures var call := Run(ls + more).value.calls[c];
            call.phase == Finished ==> call.outcome == Replayed(x) || call.outcome == Failed(Cancelled)
  {
    hide Inv, LedgerInv;
    RunInv(ls);
    var s := Run(ls).value;
    HistoryAt(s, |s.history| - 1);
    LedgerParts(Db(s));
    FindTransferUnique(Db(s), x);
    RetryHeads(ls, more, c, x);
  }
}
