// What the refinement and the invariant mean for users of the ledger.
module LedgerTheorems {
  import opened Schema
  import opened Serial
  import opened Protocol
  import opened ProtocolInv
  import opened SerialOrder

  // ----- Runs that continue ---------------------------------------------------

  lemma {:induction false} RunPrefix(ls: seq<Label>, more: seq<Label>)
    requires Run(ls + more).Some?
    ensures Run(ls).Some?
  {
    if |more| == 0 {
      assert ls + more == ls;
    } else {
      assert (ls + more)[..|ls + more| - 1] == ls + more[..|more| - 1];
      RunPrefix(ls, more[..|more| - 1]);
    }
  }

  // What never changes as a run goes on.
  ghost predicate Continues(s: State, s': State) {
    && |s.history| <= |s'.history| && s'.history[..|s.history|] == s.history
    && |s.calls| <= |s'.calls|
    && (forall c :: 0 <= c < |s.calls| ==>
          s'.calls[c].p == s.calls[c].p && s'.calls[c].submitted == s.calls[c].submitted)
    && (forall c :: 0 <= c < |s.calls| && s.calls[c].phase == Finished ==> s'.calls[c] == s.calls[c])
    && (forall c :: |s.calls| <= c < |s'.calls| ==> s'.calls[c].submitted >= |s.history| - 1)
  }

  lemma LocalIdentity(h: History, clock: int, call: Call, c: nat)
    requires LocalStep(h, clock, call, c).Some?
    ensures LocalStep(h, clock, call, c).value.p == call.p
    ensures LocalStep(h, clock, call, c).value.submitted == call.submitted
    ensures call.phase != Finished
  {
  }

  // The one call a step rewrites is unfinished and stays the same call.
  lemma AdvanceContinues(s: State, c: nat)
    requires c < |s.calls| && Advance(s, c).Some?
    ensures Continues(s, Advance(s, c).value)
  {
    hide LocalStep;
    var call := s.calls[c];
    match call.phase
    case LockFirst =>
    case LockSecond =>
    case Commit =>
    case EndTx =>
    case _ =>
      LocalIdentity(s.history, s.clock, call, c);
  }

  lemma NextContinues(s: State, l: Label)
    requires Next(s, l).Some?
    ensures Continues(s, Next(s, l).value)
  {
    hide Advance;
    match l
    case Step(c) => AdvanceContinues(s, c);
    case _ =>
  }

  lemma ContinuesTransitive(a: State, b: State, c: State)
    requires Continues(a, b) && Continues(b, c)
    ensures Continues(a, c)
  {
    assert c.history[..|a.history|] == c.history[..|b.history|][..|a.history|];
  }

  lemma {:induction false} RunContinues(ls: seq<Label>, more: seq<Label>)
    requires Run(ls + more).Some?
    ensures Run(ls).Some? && Continues(Run(ls).value, Run(ls + more).value)
  {
    RunPrefix(ls, more);
    if |more| == 0 {
      assert ls + more == ls;
    } else {
      var last := more[|more| - 1];
      assert (ls + more)[..|ls + more| - 1] == ls + more[..|more| - 1];
      assert (ls + more)[|ls + more| - 1] == last;
      RunContinues(ls, more[..|more| - 1]);
      var mid := Run(ls + more[..|more| - 1]).value;
      NextContinues(mid, last);
      hide Continues, Next;
      ContinuesTransitive(Run(ls).value, mid, Run(ls + more).value);
    }
  }

  // ----- Real time -------------------------------------------------------------

  ghost predicate Precedes(ops: seq<Op>, x: Op, y: Op) {
    exists i, j :: 0 <= i < j < |ops| && ops[i] == x && ops[j] == y
  }

  lemma {:induction false} CountedOccurs(ops: seq<Op>, x: Op)
    requires Count(ops, x) > 0
    ensures exists i :: 0 <= i < |ops| && ops[i] == x
  {
    if ops[|ops| - 1] != x {
      CountedOccurs(ops[..|ops| - 1], x);
      var i :| 0 <= i < |ops| - 1 && ops[..|ops| - 1][i] == x;
      assert ops[i] == x;
    }
  }

  lemma SplitPrecedes(a: seq<Op>, b: seq<Op>, x: Op, y: Op)
    requires Count(a, x) > 0 && Count(a, y) == 0 && Count(a + b, y) > 0
    ensures Precedes(a + b, x, y)
  {
    CountConcat(a, b, y);
    CountedOccurs(a, x);
    CountedOccurs(b, y);
    var i :| 0 <= i < |a| && a[i] == x;
    var j :| 0 <= j < |b| && b[j] == y;
    assert (a + b)[i] == x && (a + b)[|a| + j] == y;
  }

  lemma {:induction false} OrderPrefix(s: State, i: nat, j: nat) returns (rest: seq<Op>)
    requires i <= j
    ensures OrderUpTo(s, j) == OrderUpTo(s, i) + rest
  {
    if i == j {
      rest := [];
    } else {
      var shorter := OrderPrefix(s, i, j - 1);
      rest := shorter + Readers(s.calls, j - 1, |s.calls|) + CauseStep(s, j - 1);
    }
  }

  lemma {:induction false} ReadersPrefix(calls: seq<Call>, i: nat, m: nat, n: nat) returns (rest: seq<Op>)
    requires m <= n <= |calls|
    ensures Readers(calls, i, n) == Readers(calls, i, m) + rest
  {
    if m == n {
      rest := [];
    } else {
      var shorter := ReadersPrefix(calls, i, m, n - 1);
      rest := shorter + (if ReaderAt(calls[n - 1], i) then [TransferOp(n - 1)] else []);
    }
  }

  // A decision taken before `d` was submitted comes before d in the serial order.
  lemma EarlierDecisionPrecedes(s: State, c: nat, d: nat)
    requires Inv(s) && c < d < |s.calls| && Answered(s.calls[c]) && Answered(s.calls[d])
    requires s.calls[c].at + (if s.calls[c].outcome.Created? then 1 else 0) <= s.calls[d].submitted
    ensures Precedes(Decisions(s), TransferOp(c), TransferOp(d))
  {
    hide Inv, Readers, Count, CauseStep, OrderUpTo;
    var k := s.calls[d].submitted;
    SubmittedBefore(s, d);
    OrderCount(s, k, c);
    OrderCount(s, k, d);
    OrderCount(s, |s.history|, d);
    if s.calls[c].at < k {
      var rest := OrderPrefix(s, k, |s.history|);
      SplitPrecedes(OrderUpTo(s, k), rest, TransferOp(c), TransferOp(d));
    } else {
      var rest := OrderPrefix(s, k + 1, |s.history|);
      var late := ReadersPrefix(s.calls, k, c + 1, |s.calls|);
      OrderStep(s, k);
      var a := OrderUpTo(s, k) + Readers(s.calls, k, c + 1);
      ReadersCount(s.calls, k, c + 1, c);
      ReadersCount(s.calls, k, c + 1, d);
      CountConcat(OrderUpTo(s, k), Readers(s.calls, k, c + 1), TransferOp(c));
      CountConcat(OrderUpTo(s, k), Readers(s.calls, k, c + 1), TransferOp(d));
      assert Decisions(s) == a + (late + CauseStep(s, k) + rest);
      SplitPrecedes(a, late + CauseStep(s, k) + rest, TransferOp(c), TransferOp(d));
    }
  }

  lemma SubmittedBefore(s: State, d: nat)
    requires Inv(s) && d < |s.calls| && Answered(s.calls[d])
    ensures s.calls[d].submitted <= s.calls[d].at < |s.history|
  {
    hide Inv, Serial.Transact;
    DecidedOn(s, d);
  }

  // A call that finished before another was submitted comes first in the serial
  // order, so the order never contradicts what a client can observe.
  lemma SerialOrderRespectsRealTime(ls: seq<Label>, more: seq<Label>, c: nat, d: nat)
    requires Run(ls + more).Some? && Run(ls).Some?
    requires c < |Run(ls).value.calls| <= d < |Run(ls + more).value.calls|
    requires Answered(Run(ls).value.calls[c]) && Answered(Run(ls + more).value.calls[d])
    ensures Precedes(Decisions(Run(ls + more).value), TransferOp(c), TransferOp(d))
  {
    hide Inv;
    RunInv(ls);
    RunInv(ls + more);
    RunContinues(ls, more);
    AtBound(Run(ls).value, c);
    EarlierDecisionPrecedes(Run(ls + more).value, c, d);
  }
}
