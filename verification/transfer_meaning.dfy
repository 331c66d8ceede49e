// What the answers, rows and times of a transfer mean in the fields of the call and of
// the tables it met: alone, and in every run.
module TransferMeaning {
  import opened Prelude
  import opened Schema
  import opened Serial
  import opened Protocol
  import opened ProtocolInv
  import opened SerialOrder
  import opened LedgerTheorems
  import opened Guarantees
  import Books

  // ----- One transfer --------------------------------------------------------------

  // The one answer that fits the tables: a replay or a conflict under a used key, else
  // the first check that fails, and a transfer if none does. `spent` is what the source
  // has sent in the window of the limit.
  ghost predicate AnswerFits(t: Tables, p: Params, spent: int, o: Outcome) {
    var used := exists x :: x in t.transfers && x.from == p.from && x.key == p.key;
    var there := p.from in t.accounts && p.to in t.accounts;
    var same := there && t.accounts[p.from].currency == p.currency == t.accounts[p.to].currency;
    var room := same && t.accounts[p.to].balance + p.amount <= 9007199254740991;
    var within := room && (p.dailyLimit > 0 ==> spent + p.amount <= p.dailyLimit);
    var funded := within && p.amount <= t.accounts[p.from].balance;
    && (forall x :: x in t.transfers && x.from == p.from && x.key == p.key ==>
          if x.to == p.to && x.amount == p.amount && same then o == Replayed(x) else o == Failed(IdempotencyConflict))
    && (!used ==>
          && (o == Failed(RecordNotFound) <==> !there)
          && (o == Failed(CurrencyMismatch) <==> there && !same)
          && (o == Failed(BalanceLimitExceeded) <==> same && !room)
          && (o == Failed(DailyLimitExceeded) <==> room && !within)
          && (o == Failed(InsufficientBalance) <==> within && !funded)
          && (o.Created? <==> funded))
  }

  lemma TransactAnswers(t: Tables, p: Params, id: TransferId, started: int, checked: int)
    requires LedgerInv(t) && Admissible(p)
    ensures AnswerFits(t, p, Outgoing(t.transfers, p.from, checked - DAY),
                       Serial.Transact(t, p, id, started, checked).1)
  {
    var o := Serial.Transact(t, p, id, started, checked).1;
    forall x | x in t.transfers && x.from == p.from && x.key == p.key
      ensures FindTransfer(t.transfers, p.from, p.key) == Some(x)
      ensures x.from in t.accounts && x.to in t.accounts && t.accounts[x.from].currency == t.accounts[x.to].currency
    {
      FindTransferUnique(t, x);
    }
    hide NotificationsSound, OneAccountPerCurrency, EntrySum, Outgoing, Posting;
  }

  // From then on it counts: what the source has sent in a window that reaches back to
  // its start is more by exactly its amount, and nobody else has sent more.
  lemma CreatedIsCounted(t: Tables, p: Params, id: TransferId, started: int, checked: int, a: AccountId, since: int)
    requires Serial.Transact(t, p, id, started, checked).1.Created? && p.from != p.to
    ensures Outgoing(Serial.Transact(t, p, id, started, checked).0.transfers, a, since) ==
            Outgoing(t.transfers, a, since) + (if a == p.from && since <= started then p.amount else 0)
  {
    CreatedMeans(t, p, id, started, checked);
    hide Serial.Transact;
    OutgoingAppend(t.transfers, Serial.Transact(t, p, id, started, checked).1.transfer, a, since);
  }

  // A second transfer in the 24 hours after a first one, with nothing wrong about it but
  // the sum of what its source has sent, is refused for the daily limit.
  lemma SecondIsOverLimit(t: Tables, p: Params, id: TransferId, started: int, checked: int,
                          q: Params, id': TransferId, started': int, checked': int)
    requires LedgerInv(t) && Fresh(t, id) && Admissible(p) && Admissible(q) && q.from == p.from && q.key != p.key
    requires Serial.Transact(t, p, id, started, checked).1.Created?
    requires forall x :: x in t.transfers ==> !(x.from == q.from && x.key == q.key)
    requires q.to in t.accounts && t.accounts[q.to].currency == q.currency == t.accounts[p.from].currency
    requires t.accounts[q.to].balance + p.amount + q.amount <= MAX_SAFE_MINOR_UNITS
    requires started >= checked' - DAY && q.dailyLimit > 0
    requires Outgoing(t.transfers, p.from, checked' - DAY) + p.amount + q.amount > q.dailyLimit
    ensures var t' := Serial.Transact(t, p, id, started, checked).0;
            Serial.Transact(t', q, id', started', checked') == (t', Failed(DailyLimitExceeded))
  {
    CreatedMeans(t, p, id, started, checked);
    CreatedIsCounted(t, p, id, started, checked, p.from, checked' - DAY);
    TransactKeepsLedger(t, p, id, started, checked);
    var t' := Serial.Transact(t, p, id, started, checked).0;
    assert t'.accounts[q.to].balance <= t.accounts[q.to].balance + p.amount;
    assert t'.accounts[q.to].currency == t.accounts[q.to].currency;
    assert t'.accounts[q.from].currency == t.accounts[q.from].currency;
    hide Serial.Transact, Outgoing, LedgerInv, Posting;
    OverLimit(t', q, id', started', checked');
  }

  lemma OverLimit(t: Tables, q: Params, id: TransferId, started: int, checked: int)
    requires LedgerInv(t) && Admissible(q) && forall x :: x in t.transfers ==> !(x.from == q.from && x.key == q.key)
    requires q.from in t.accounts && q.to in t.accounts
    requires t.accounts[q.from].currency == q.currency == t.accounts[q.to].currency
    requires t.accounts[q.to].balance + q.amount <= MAX_SAFE_MINOR_UNITS
    requires q.dailyLimit > 0 && Outgoing(t.transfers, q.from, checked - DAY) + q.amount > q.dailyLimit
    ensures Serial.Transact(t, q, id, started, checked) == (t, Failed(DailyLimitExceeded))
  {
    hide Serial.Transact, Outgoing, LedgerInv;
    TransactAnswers(t, q, id, started, checked);
    FailedChangesNothing(t, q, id, started, checked);
  }

  // A call is submitted for two different accounts, at least one minor unit and a limit in
  // the safe range, and an account opening or the passing of time is always possible.
  lemma ArrivalMoves(s: State, p: Params, id: AccountId, row: Account, delta: nat)
    ensures Next(s, Submit(p)).Some? <==> p.from != p.to && 1 <= p.amount && 0 <= p.dailyLimit <= 9007199254740991
    ensures Next(s, Submit(p)).Some? ==>
              var s' := Next(s, Submit(p)).value;
              && |s'.calls| == |s.calls| + 1 && s' == s.(calls := s'.calls) && s'.calls[..|s.calls|] == s.calls
              && s'.calls[|s.calls|].p == p && s'.calls[|s.calls|].phase == FastLookup
    ensures Next(s, OpenAccount(id, row)).Some?
    ensures var s' := Next(s, OpenAccount(id, row)).value;
            Db(s') == Open(Db(s), id, row) && s'.calls == s.calls && s'.locks == s.locks && s'.clock == s.clock
    ensures Next(s, Tick(delta)) == Some(s.(clock := s.clock + delta))
  {
    hide OpenFailure;
  }

  // A call can be given up until it is decided. Outside its transaction it ends at once,
  // inside it still has to roll back, and it commits nothing.
  lemma CancelMoves(s: State, c: nat)
    ensures Next(s, Cancel(c)).Some? <==> c < |s.calls| && s.calls[c].phase != Finished && s.calls[c].phase != EndTx
    ensures Next(s, Cancel(c)).Some? ==>
              var s' := Next(s, Cancel(c)).value;
              && |s'.calls| == |s.calls| && s' == s.(calls := s.calls[c := s'.calls[c]])
              && s'.calls[c].outcome == Failed(Cancelled)
              && s'.calls[c].phase == if Order(s.calls[c].phase) >= 2 then EndTx else Finished
  {
  }

  // A notification can be written for an account in the part it has in the transfer, and
  // tells the owner, amount, currency and balance there are.
  lemma NotifiedMeans(view: Tables, direction: Direction, transfer: TransferId, a: AccountId)
    ensures var n := DeriveNotification(view, direction, transfer, a);
            var x := FindById(view.transfers, transfer);
            && (n.Some? <==>
                  x.Some? && a in view.accounts && a == (if direction == Sent then x.value.from else x.value.to))
            && (n.Some? ==>
                  n.value == Notification(transfer, a, view.accounts[a].owner, direction, x.value.amount,
                                          view.accounts[a].currency, view.accounts[a].balance))
  {
  }

  // ----- When a call began and when it looked at the limit ----------------------------------

  // The clock right before step i.
  function ClockAt(ls: seq<Label>, i: nat): int
    requires i <= |ls| && Run(ls[..i]).Some?
  {
    Run(ls[..i]).value.clock
  }

  // Step i is the next statement of call c, which is in the given phase.
  ghost predicate StepsFrom(ls: seq<Label>, i: nat, c: nat, phase: Phase) {
    && i < |ls| && ls[i] == Step(c) && Run(ls[..i]).Some?
    && c < |Run(ls[..i]).value.calls| && Run(ls[..i]).value.calls[c].phase == phase
  }

  // It has begun its transaction.
  predicate HasBegun(call: Call) {
    Order(call.phase) >= 2 || call.phase == EndTx || (call.phase == Finished && call.outcome.Created?)
  }

  // It has looked at the limit and found room.
  predicate HasChecked(call: Call) {
    Order(call.phase) >= 7 || ((call.phase == EndTx || call.phase == Finished) && call.outcome.Created?)
  }

  // Only its own steps touch these times, and each only one step of its.
  ghost predicate TimesMoved(call: Call, call': Call, mine: bool, clock: int) {
    && call'.p == call.p
    && call'.started == (if mine && call.phase == Begin then clock else call.started)
    && call'.checked == (if mine && call.phase == CheckLimit then clock else call.checked)
    && (HasBegun(call') ==> HasBegun(call) || (mine && call.phase == Begin))
    && (HasChecked(call') ==> HasChecked(call) || (mine && call.phase == CheckLimit))
    && (call.phase != FastLookup && call.phase != Begin ==> call'.phase != FastLookup && call'.phase != Begin)
    && (mine && call.phase == Begin ==> call'.phase == LockFirst)
    && (call.phase == Begin ==> call'.phase != FastLookup)
  }

  lemma LocalTimes(h: History, clock: int, call: Call, c: nat)
    requires LocalStep(h, clock, call, c).Some?
    ensures TimesMoved(call, LocalStep(h, clock, call, c).value, true, clock)
  {
    hide FindTransfer, SumOutgoingTransfersSince, OverDailyLimit, DeriveNotification, AddAccountBalance, Overlay, RowOf;
  }

  lemma AdvanceTimes(s: State, c: nat, d: nat)
    requires c < |s.calls| && d < |s.calls| && Advance(s, c).Some?
    ensures |Advance(s, c).value.calls| == |s.calls|
    ensures TimesMoved(s.calls[d], Advance(s, c).value.calls[d], c == d, s.clock)
  {
    hide LocalStep, Overlay, Release, InsertWaits, RowOf, Grant, Committed, Ended, Decide, TimesMoved;
    var call := s.calls[c];
    TimesStay(s.calls[d], s.clock);
    SharedTimes(s.history, call, c, s.clock);
    if call.phase == LockFirst && First(call.p) in Db(s).accounts { GrantTimes(s.history, call, First(call.p), s.clock); }
    if call.phase == LockSecond && Second(call.p) in Db(s).accounts { GrantTimes(s.history, call, Second(call.p), s.clock); }
    if LocalStep(s.history, s.clock, call, c).Some? { LocalTimes(s.history, s.clock, call, c); }
  }

  lemma TimesStay(call: Call, clock: int)
    ensures TimesMoved(call, call, false, clock)
  {
  }

  lemma GrantTimes(h: History, call: Call, a: AccountId, clock: int)
    requires a in Last(h).accounts && (call.phase == LockFirst || call.phase == LockSecond)
    ensures TimesMoved(call, Grant(h, call, a), true, clock)
  {
  }

  lemma SharedTimes(h: History, call: Call, c: nat, clock: int)
    ensures call.phase == EndTx ==> TimesMoved(call, Ended(call), true, clock)
    ensures call.phase == LockFirst || call.phase == LockSecond ==>
              TimesMoved(call, Decide(call, Failed(RecordNotFound), call.seen), true, clock)
    ensures call.phase == Commit && call.p.from in call.work.accounts && call.p.to in call.work.accounts ==>
              TimesMoved(call, Committed(h, call, c), true, clock)
  {
    hide RowOf;
  }

  lemma TimesMove(s: State, l: Label, c: nat)
    requires Next(s, l).Some? && c < |s.calls|
    ensures c < |Next(s, l).value.calls|
    ensures TimesMoved(s.calls[c], Next(s, l).value.calls[c], l == Step(c), s.clock)
  {
    hide Advance, OpenFailure, Open;
    if l.Step? {
      AdvanceTimes(s, l.c, c);
      hide TimesMoved;
    }
  }

  lemma RunSteps(ls: seq<Label>)
    requires Run(ls).Some? && |ls| > 0
    ensures Run(ls[..|ls| - 1]).Some? && Next(Run(ls[..|ls| - 1]).value, ls[|ls| - 1]) == Run(ls)
  {
  }

  lemma NewCallsBegin(s: State, l: Label, c: nat)
    requires Next(s, l).Some? && |s.calls| <= c < |Next(s, l).value.calls|
    ensures l.Submit? && Next(s, l).value.calls[c].phase == FastLookup
  {
    hide LocalStep, Abandoned, FindTransfer;
  }

  // A call that has begun did so at one step, whose clock it carries.
  lemma {:induction false} BeganAt(ls: seq<Label>, c: nat) returns (i: nat)
    requires Run(ls).Some? && c < |Run(ls).value.calls| && HasBegun(Run(ls).value.calls[c])
    ensures StepsFrom(ls, i, c, Begin)
    ensures Run(ls).value.calls[c].started == ClockAt(ls, i)
    ensures Run(ls).value.calls[c].p == Run(ls[..i]).value.calls[c].p
    decreases |ls|
  {
    var n := |ls| - 1;
    assert |ls| > 0;
    var before := ls[..n];
    RunSteps(ls);
    hide Next, HasBegun;
    var s := Run(before).value;
    if c >= |s.calls| {
      NewCallsBegin(s, ls[n], c);
      NotBegunYet(Run(ls).value.calls[c]);
      assert false;
    } else {
      TimesMove(s, ls[n], c);
      if ls[n] == Step(c) && s.calls[c].phase == Begin {
        i := n;
      } else {
        i := BeganAt(before, c);
        assert before[..i] == ls[..i];
      }
    }
  }

  lemma NotBegunYet(call: Call)
    requires call.phase == FastLookup
    ensures !HasBegun(call)
  {
  }

  // No other step of it is a first one: whichever step began the transaction, its clock
  // is the one the call carries.
  lemma {:induction false} BeginStamps(ls: seq<Label>, c: nat, i: nat)
    requires Run(ls).Some? && StepsFrom(ls, i, c, Begin)
    ensures c < |Run(ls).value.calls|
    ensures Run(ls).value.calls[c].started == ClockAt(ls, i)
    ensures Run(ls).value.calls[c].phase != FastLookup && Run(ls).value.calls[c].phase != Begin
    decreases |ls|
  {
    var n := |ls| - 1;
    var before := ls[..n];
    RunSteps(ls);
    hide Next;
    if i < n {
      assert before[..i] == ls[..i];
      BeginStamps(before, c, i);
    }
    hide Run;
    TimesMove(Run(before).value, ls[n], c);
  }

  lemma {:induction false} CheckedAt(ls: seq<Label>, c: nat) returns (i: nat)
    requires Run(ls).Some? && c < |Run(ls).value.calls| && HasChecked(Run(ls).value.calls[c])
    ensures StepsFrom(ls, i, c, CheckLimit)
    ensures Run(ls).value.calls[c].checked == ClockAt(ls, i)
    decreases |ls|
  {
    var n := |ls| - 1;
    assert |ls| > 0;
    var before := ls[..n];
    RunSteps(ls);
    hide Next, HasChecked;
    var s := Run(before).value;
    if c >= |s.calls| {
      NewCallsBegin(s, ls[n], c);
      NotCheckedYet(Run(ls).value.calls[c]);
      assert false;
    } else {
      TimesMove(s, ls[n], c);
      if ls[n] == Step(c) && s.calls[c].phase == CheckLimit {
        i := n;
      } else {
        i := CheckedAt(before, c);
        assert before[..i] == ls[..i];
      }
    }
  }

  lemma NotCheckedYet(call: Call)
    requires call.phase == FastLookup
    ensures !HasChecked(call)
  {
  }

  // Every committed transfer carries the terms of the call with its number, and the
  // clock of the step at which that call began its transaction.
  lemma StampedAtBegin(ls: seq<Label>, x: Transfer) returns (i: nat)
    requires Run(ls).Some? && x in Db(Run(ls).value).transfers
    ensures StepsFrom(ls, i, x.id, Begin)
    ensures var p := Run(ls[..i]).value.calls[x.id].p;
            x == Transfer(x.id, p.from, p.to, p.amount, ClockAt(ls, i), p.key)
  {
    hide Inv;
    RunInv(ls);
    var s := Run(ls).value;
    var c := x.id;
    OriginOf(s, x);
    DecidedOn(s, c);
    var call := s.calls[c];
    CallIsAdmissible(s, c);
    CreatedMeans(s.history[call.at], call.p, c, call.started, call.checked);
    hide Run;
    i := BeganAt(ls, c);
  }

  lemma OriginOf(s: State, x: Transfer)
    requires Inv(s) && x in Db(s).transfers
    ensures x.id < |s.calls| && Answered(s.calls[x.id])
    ensures s.calls[x.id].outcome.Created? && s.calls[x.id].outcome.transfer == x
  {
    hide HistoryInv, CallInv, LocksInv, CausesInv, Conserved;
  }

  lemma CallIsAdmissible(s: State, c: nat)
    requires Inv(s) && c < |s.calls|
    ensures Admissible(s.calls[c].p)
  {
    hide HistoryInv, LocksInv, OriginInv, CausesInv, Conserved;
    assert CallInv(s.history, s.clock, s.calls[c], c);
  }

  // ----- The limit, by calls -------------------------------------------------------------

  // What the calls that created a transfer have sent from an account, of those that began
  // at `since` or later.
  function SentSince(causes: seq<Op>, calls: seq<Call>, a: AccountId, since: int): int {
    if |causes| == 0 then 0
    else SentSince(causes[..|causes| - 1], calls, a, since) + SentBy(causes[|causes| - 1], calls, a, since)
  }

  function SentBy(cause: Op, calls: seq<Call>, a: AccountId, since: int): int {
    match cause
    case TransferOp(c) =>
      if c < |calls| && calls[c].p.from == a && calls[c].started >= since then calls[c].p.amount else 0
    case OpenOp(_, _) => 0
  }

  lemma {:induction false} SentIsOutgoing(s: State, i: nat, a: AccountId, since: int)
    requires Inv(s) && i < |s.history| && i <= |s.causes|
    ensures Outgoing(s.history[i].transfers, a, since) == SentSince(s.causes[..i], s.calls, a, since)
    decreases i
  {
    if i == 0 {
      FirstIsEmpty(s);
      hide Inv;
    } else {
      hide Inv, Outgoing, SentBy;
      SentIsOutgoing(s, i - 1, a, since);
      assert s.causes[..i][..i - 1] == s.causes[..i - 1];
      CommitSends(s, i - 1, a, since);
    }
  }

  lemma CommitSends(s: State, i: nat, a: AccountId, since: int)
    requires Inv(s) && i < |s.causes| && i + 1 < |s.history|
    ensures Outgoing(s.history[i + 1].transfers, a, since) ==
            Outgoing(s.history[i].transfers, a, since) + SentBy(s.causes[i], s.calls, a, since)
  {
    hide Inv, LedgerInv, Outgoing, Serial.Transact, Open;
    CauseSerial(s, i);
    match s.causes[i]
    case TransferOp(c) =>
      CauseOfCreated(s, i, c);
      CallIsAdmissible(s, c);
      CreatedIsCounted(s.history[i], s.calls[c].p, c, s.calls[c].started, s.calls[c].checked, a, since);
    case OpenOp(id, row) => OpenMeans(s.history[i], id, row);
  }

  // Whatever the interleaving, every call that is answered got the one answer that fits
  // the committed tables it was decided on, between its submission and its answer, and
  // what the calls committed by then had sent in the window of its limit.
  lemma AnsweredExactly(ls: seq<Label>, c: nat)
    requires Run(ls).Some? && c < |Run(ls).value.calls| && Answered(Run(ls).value.calls[c])
    ensures var s := Run(ls).value;
            var call := s.calls[c];
            && call.submitted <= call.at < |s.history| && call.at <= |s.causes|
            && AnswerFits(s.history[call.at], call.p,
                          SentSince(s.causes[..call.at], s.calls, call.p.from, call.checked - DAY), call.outcome)
  {
    hide Inv, AnswerFits, SentSince, Next;
    RunInv(ls);
    AnsweredFits(Run(ls).value, c);
  }

  lemma AnsweredFits(s: State, c: nat)
    requires Inv(s) && c < |s.calls| && Answered(s.calls[c])
    ensures var call := s.calls[c];
            && call.submitted <= call.at < |s.history| && call.at <= |s.causes|
            && AnswerFits(s.history[call.at], call.p,
                          SentSince(s.causes[..call.at], s.calls, call.p.from, call.checked - DAY), call.outcome)
  {
    hide Inv, LedgerInv, AnswerFits, Serial.Transact, Outgoing, SentSince;
    var call := s.calls[c];
    DecidedOn(s, c);
    HistoryAt(s, call.at);
    CallIsAdmissible(s, c);
    CauseLengthInv(s);
    TransactAnswers(s.history[call.at], call.p, c, call.started, call.checked);
    SentIsOutgoing(s, call.at, call.p.from, call.checked - DAY);
  }

  // With one positive limit for an account, the calls that began in the 24 hours before
  // the clock and sent from it have sent that much at most.
  lemma SentWithinLimit(ls: seq<Label>, a: AccountId, limit: int)
    requires Run(ls).Some? && limit > 0
    requires forall i :: 0 <= i < |ls| && ls[i].Submit? && ls[i].p.from == a ==> ls[i].p.dailyLimit == limit
    ensures var s := Run(ls).value;
            SentSince(s.causes, s.calls, a, s.clock - 86400000000) <= limit
  {
    hide Inv, Outgoing, SentSince, Next;
    Books.RollingLimitHolds(ls, a, limit);
    RunInv(ls);
    AllSent(Run(ls).value, a, Run(ls).value.clock - DAY);
  }

  lemma AllSent(s: State, a: AccountId, since: int)
    requires Inv(s)
    ensures Outgoing(Db(s).transfers, a, since) == SentSince(s.causes, s.calls, a, since)
  {
    hide Inv, Outgoing, SentSince;
    CauseLengthInv(s);
    SentIsOutgoing(s, |s.causes|, a, since);
    assert s.causes[..|s.causes|] == s.causes;
  }
}
