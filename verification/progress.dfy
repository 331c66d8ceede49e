// No deadlock and no endless work: rows are locked in id order, so waiting
// always ends at a call that can run, and every statement brings its call
// closer to the end.
module Progress {
  import opened Prelude
  import opened Schema
  import opened Serial
  import opened Protocol
  import opened ProtocolInv
  import opened SerialOrder
  import opened LedgerTheorems
  import opened Guarantees
  import opened Books

  // ----- Waiting -------------------------------------------------------------------

  predicate Unfinished(s: State, c: nat) {
    c < |s.calls| && s.calls[c].phase != Finished
  }

  predicate CanStep(s: State, c: nat) {
    c < |s.calls| && Advance(s, c).Some?
  }

  predicate Locking(call: Call) {
    call.phase == LockFirst || call.phase == LockSecond
  }

  // The row a locking call asks for.
  function Wanted(call: Call): AccountId {
    if call.phase == LockFirst then First(call.p) else Second(call.p)
  }

  // c waits for a row that d holds.
  predicate WaitsFor(s: State, c: nat, d: nat) {
    && c < |s.calls| && d < |s.calls| && Locking(s.calls[c])
    && Wanted(s.calls[c]) in s.locks && s.locks[Wanted(s.calls[c])] == d
  }

  lemma LocalEnabled(h: History, clock: int, call: Call, c: nat)
    requires CallInv(h, clock, call, c)
    requires !Locking(call) && call.phase != Commit && call.phase != EndTx && call.phase != Finished
    ensures LocalStep(h, clock, call, c).Some?
  {
    hide DecidedInv, ChecksInv;
  }

  lemma CommitEnabled(s: State, c: nat)
    requires Inv(s) && c < |s.calls| && s.calls[c].phase == Commit
    ensures Advance(s, c).Some?
  {
    hide Inv, RowsInv, ChecksInv, WorkInv, Serial.Transact;
    CallParts(s, c);
    CommitDecides(Db(s), s.clock, s.calls[c], c);
  }

  // A call that cannot step waits for a row another unfinished call holds.
  lemma StuckMeansWaiting(s: State, c: nat)
    requires Inv(s) && Unfinished(s, c) && !CanStep(s, c)
    ensures Locking(s.calls[c]) && Wanted(s.calls[c]) in s.locks
    ensures WaitsFor(s, c, s.locks[Wanted(s.calls[c])])
  {
    hide Inv, CallInv, LocalStep, InsertWaits;
    var call := s.calls[c];
    if call.phase == Commit {
      CommitEnabled(s, c);
    } else if !Locking(call) {
      CallInvAt(s, c);
      NeverStuckLocally(s, c);
    }
    HoldersExist(s);
  }

  lemma NeverStuckLocally(s: State, c: nat)
    requires Inv(s) && c < |s.calls|
    requires !Locking(s.calls[c]) && s.calls[c].phase != Commit && s.calls[c].phase != Finished
    ensures Advance(s, c).Some?
  {
    hide Inv, CallInv, LocalStep, InsertWaits;
    CallInvAt(s, c);
    if s.calls[c].phase != EndTx { LocalEnabled(s.history, s.clock, s.calls[c], c); }
    if s.calls[c].phase == InsertTransfer { NoClashUnderLock(s, c); }
  }

  lemma HoldersExist(s: State)
    requires Inv(s)
    ensures forall a :: a in s.locks ==> s.locks[a] < |s.calls| && a in s.calls[s.locks[a]].rows
  {
    hide HistoryInv, CallInv, Conserved, OriginInv, CausesInv;
  }

  // A call that holds a row and still wants one holds its smaller row.
  lemma HolderWantsMore(db: Tables, call: Call, a: AccountId)
    requires RowsInv(db, call) && a in call.rows
    ensures call.phase != Finished
    ensures Locking(call) && Admissible(call.p) ==> a == First(call.p) && Wanted(call) == Second(call.p) > a
  {
  }

  // Waiting goes up the ids: a holder that itself waits wants a larger row than
  // the one it is waited for. So no cycle of waiting calls can close.
  lemma WaitingGoesUp(s: State, c: nat, d: nat)
    requires Inv(s) && WaitsFor(s, c, d)
    ensures s.calls[d].phase != Finished
    ensures Locking(s.calls[d]) ==> Wanted(s.calls[d]) > Wanted(s.calls[c])
  {
    hide Inv, RowsInv, ChecksInv, WorkInv;
    HoldersExist(s);
    CallParts(s, d);
    HolderWantsMore(Db(s), s.calls[d], Wanted(s.calls[c]));
  }

  // Above every row any call could want.
  function Ceiling(calls: seq<Call>): nat {
    if |calls| == 0 then 0
    else Max(Ceiling(calls[..|calls| - 1]), Second(calls[|calls| - 1].p) + 1)
  }

  lemma {:induction false} BelowCeiling(calls: seq<Call>, c: nat)
    requires c < |calls|
    ensures Wanted(calls[c]) < Ceiling(calls)
  {
    if c < |calls| - 1 { BelowCeiling(calls[..|calls| - 1], c); }
  }

  // No deadlock: from any unfinished call, following the waits leads to one that
  // can step.
  lemma {:induction false} SomeoneCanStep(s: State, c: nat) returns (d: nat)
    requires Inv(s) && Unfinished(s, c)
    ensures Unfinished(s, d) && CanStep(s, d)
    decreases Ceiling(s.calls) - (if Locking(s.calls[c]) then Wanted(s.calls[c]) else 0),
              if Locking(s.calls[c]) then 1 else 0
  {
    hide Inv, Advance, Ceiling;
    if CanStep(s, c) {
      d := c;
    } else {
      StuckMeansWaiting(s, c);
      var e := s.locks[Wanted(s.calls[c])];
      WaitingGoesUp(s, c, e);
      BelowCeiling(s.calls, c);
      if Locking(s.calls[e]) {
        BelowCeiling(s.calls, e);
        d := SomeoneCanStep(s, e);
      } else {
        d := e;
        HolderRuns(s, e);
      }
    }
  }

  lemma HolderRuns(s: State, e: nat)
    requires Inv(s) && Unfinished(s, e) && !Locking(s.calls[e])
    ensures CanStep(s, e)
  {
    hide Inv, Advance;
    if !CanStep(s, e) { StuckMeansWaiting(s, e); }
  }

  // ----- Work left -------------------------------------------------------------------

  // Statements a call may still run.
  function Rank(phase: Phase): nat {
    match phase
    case FastLookup => 21
    case Begin => 20
    case LockFirst => 19
    case LockSecond => 18
    case Relookup => 17
    case Validate => 16
    case CheckLimit => 15
    case InsertTransfer => 14
    case InsertDebit => 13
    case InsertCredit => 12
    case Debit => 11
    case Credit => 10
    case NotifySender => 9
    case PublishSender => 8
    case NotifyReceiver => 7
    case PublishReceiver => 6
    case Commit => 5
    case EndTx => 4
    case Resolve => 3
    case FastReadFrom => 2
    case FastReadTo => 1
    case Finished => 0
  }

  function Work(calls: seq<Call>): nat {
    if |calls| == 0 then 0 else Work(calls[..|calls| - 1]) + Rank(calls[|calls| - 1].phase)
  }

  lemma {:induction false} WorkUpdate(calls: seq<Call>, c: nat, call: Call)
    requires c < |calls|
    ensures Work(calls[c := call]) == Work(calls) - Rank(calls[c].phase) + Rank(call.phase)
  {
    var n := |calls| - 1;
    if c < n {
      assert calls[c := call][..n] == calls[..n][c := call];
      WorkUpdate(calls[..n], c, call);
    } else {
      assert calls[c := call][..n] == calls[..n];
    }
  }

  lemma {:induction false} NoWorkLeft(calls: seq<Call>, c: nat)
    requires c < |calls|
    ensures Work(calls) == 0 ==> calls[c].phase == Finished
  {
    if c < |calls| - 1 { NoWorkLeft(calls[..|calls| - 1], c); }
  }

  lemma {:induction false} SomeWorkLeft(calls: seq<Call>) returns (c: nat)
    requires Work(calls) > 0
    ensures c < |calls| && calls[c].phase != Finished
  {
    var n := |calls| - 1;
    if calls[n].phase != Finished { c := n; } else { c := SomeWorkLeft(calls[..n]); }
  }

  lemma LocalRank(h: History, clock: int, call: Call, c: nat)
    requires LocalStep(h, clock, call, c).Some?
    ensures Rank(LocalStep(h, clock, call, c).value.phase) < Rank(call.phase)
  {
    hide FindTransfer, AddAccountBalance, DeriveNotification, Outgoing;
  }

  // Every statement, and every cancellation, of a call brings it closer to its end.
  lemma StepRank(s: State, l: Label, c: nat)
    requires (l == Step(c) || l == Cancel(c)) && Next(s, l).Some?
    ensures c < |s.calls| && |Next(s, l).value.calls| == |s.calls|
    ensures Next(s, l).value.calls == s.calls[c := Next(s, l).value.calls[c]]
    ensures Rank(Next(s, l).value.calls[c].phase) < Rank(s.calls[c].phase)
  {
    if l == Step(c) {
      StepRankAdvance(s, c);
    }
  }

  lemma StepRankAdvance(s: State, c: nat)
    requires c < |s.calls| && Advance(s, c).Some?
    ensures |Advance(s, c).value.calls| == |s.calls|
    ensures Advance(s, c).value.calls == s.calls[c := Advance(s, c).value.calls[c]]
    ensures Rank(Advance(s, c).value.calls[c].phase) < Rank(s.calls[c].phase)
  {
    hide LocalStep, InsertWaits;
    var call := s.calls[c];
    match call.phase
    case LockFirst =>
    case LockSecond =>
    case Commit =>
    case EndTx =>
    case _ =>
      LocalRank(s.history, s.clock, call, c);
  }

  lemma WorkShrinks(s: State, l: Label, c: nat)
    requires (l == Step(c) || l == Cancel(c)) && Next(s, l).Some?
    ensures Work(Next(s, l).value.calls) < Work(s.calls)
  {
    hide Next;
    StepRank(s, l, c);
    WorkUpdate(s.calls, c, Next(s, l).value.calls[c]);
  }

  // Statements and cancellations in a schedule.
  function Moves(ls: seq<Label>): nat {
    if |ls| == 0 then 0
    else Moves(ls[..|ls| - 1]) + (if ls[|ls| - 1].Step? || ls[|ls| - 1].Cancel? then 1 else 0)
  }

  // However it is scheduled, the work of the calls already submitted is bounded.
  lemma {:induction false} WorkBounded(ls: seq<Label>, more: seq<Label>)
    requires Run(ls + more).Some? && Run(ls).Some?
    requires forall i :: 0 <= i < |more| ==> !more[i].Submit?
    ensures Moves(more) + Work(Run(ls + more).value.calls) <= Work(Run(ls).value.calls)
  {
    hide Next;
    if |more| == 0 {
      assert ls + more == ls;
    } else {
      var shorter := more[..|more| - 1];
      var last := more[|more| - 1];
      assert (ls + more)[..|ls + more| - 1] == ls + shorter;
      assert (ls + more)[|ls + more| - 1] == last;
      RunContinues(ls, shorter);
      WorkBounded(ls, shorter);
      var mid := Run(ls + shorter).value;
      match last
      case Step(c) => WorkShrinks(mid, last, c);
      case Cancel(c) => WorkShrinks(mid, last, c);
      case _ => SameCalls(mid, last);
    }
  }

  lemma SameCalls(s: State, l: Label)
    requires Next(s, l).Some? && !l.Step? && !l.Cancel? && !l.Submit?
    ensures Next(s, l).value.calls == s.calls
  {
  }

  // From every reachable state some schedule of plain statements finishes every
  // call; by WorkBounded no schedule can keep them busy for longer.
  lemma {:induction false} EveryCallCanFinish(ls: seq<Label>) returns (more: seq<Label>)
    requires Run(ls).Some?
    ensures forall i :: 0 <= i < |more| ==> more[i].Step?
    ensures |more| <= Work(Run(ls).value.calls)
    ensures Run(ls + more).Some?
    ensures forall c :: 0 <= c < |Run(ls + more).value.calls| ==> Run(ls + more).value.calls[c].phase == Finished
    decreases Work(Run(ls).value.calls)
  {
    hide Inv, Next;
    var s := Run(ls).value;
    if Work(s.calls) == 0 {
      more := [];
      assert ls + more == ls;
      forall c | 0 <= c < |s.calls| ensures s.calls[c].phase == Finished { NoWorkLeft(s.calls, c); }
    } else {
      RunInv(ls);
      var c := SomeWorkLeft(s.calls);
      var d := SomeoneCanStep(s, c);
      assert (ls + [Step(d)])[..|ls|] == ls;
      StepIsAdvance(s, d);
      WorkShrinks(s, Step(d), d);
      var rest := EveryCallCanFinish(ls + [Step(d)]);
      more := [Step(d)] + rest;
      assert ls + more == ls + [Step(d)] + rest;
    }
  }

  lemma StepIsAdvance(s: State, d: nat)
    requires CanStep(s, d)
    ensures Next(s, Step(d)).Some?
  {
    hide Advance;
  }
}
