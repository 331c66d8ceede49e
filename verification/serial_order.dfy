// Every run of the protocol is equivalent to a serial one: there is an order of
// the decided calls, consistent with real time, in which running them one after
// another, each alone, produces the committed tables and every call's outcome.
module SerialOrder {
  import opened Schema
  import opened Serial
  import opened Protocol
  import opened ProtocolInv

  // A call that ended with an answer.
  predicate Answered(call: Call) {
    call.phase == Finished && call.outcome != Failed(Cancelled)
  }

  predicate ReaderAt(call: Call, i: nat) {
    Answered(call) && !call.outcome.Created? && call.at == i
  }

  // The calls decided on committed state i that changed nothing, in call order.
  function Readers(calls: seq<Call>, i: nat, n: nat): seq<Op>
    requires n <= |calls|
  {
    if n == 0 then []
    else Readers(calls, i, n - 1) + (if ReaderAt(calls[n - 1], i) then [TransferOp(n - 1)] else [])
  }

  // The call or opening, if any, that turned committed state i into the next one.
  function CauseStep(s: State, i: nat): seq<Op> {
    if i < |s.causes| then [s.causes[i]] else []
  }

  // Decisions on the first i committed states.
  function OrderUpTo(s: State, i: nat): seq<Op> {
    if i == 0 then []
    else
      OrderUpTo(s, i - 1) + Readers(s.calls, i - 1, |s.calls|) + CauseStep(s, i - 1)
  }

  function Decisions(s: State): seq<Op> {
    OrderUpTo(s, |s.history|)
  }

  // One operation run alone.
  function Apply(t: Tables, op: Op, calls: seq<Call>): Tables {
    match op
    case TransferOp(c) =>
      if c < |calls| then Serial.Transact(t, calls[c].p, c, calls[c].started, calls[c].checked).0 else t
    case OpenOp(id, row) => Open(t, id, row)
  }

  // The tables after running `ops` one after another on an empty database.
  function SerialTables(ops: seq<Op>, calls: seq<Call>): Tables {
    if |ops| == 0 then EMPTY else Apply(SerialTables(ops[..|ops| - 1], calls), ops[|ops| - 1], calls)
  }

  predicate Answers(t: Tables, op: Op, calls: seq<Call>) {
    op.TransferOp? ==>
      op.c < |calls| &&
      Serial.Transact(t, calls[op.c].p, op.c, calls[op.c].started, calls[op.c].checked).1 == calls[op.c].outcome
  }

  // In the serial run every call gets the outcome it got in the concurrent one.
  predicate SameOutcomes(ops: seq<Op>, calls: seq<Call>) {
    forall k :: 0 <= k < |ops| ==> Answers(SerialTables(ops[..k], calls), ops[k], calls)
  }

  lemma ExtendSerial(ops: seq<Op>, op: Op, calls: seq<Call>)
    requires SameOutcomes(ops, calls) && Answers(SerialTables(ops, calls), op, calls)
    ensures SerialTables(ops + [op], calls) == Apply(SerialTables(ops, calls), op, calls)
    ensures SameOutcomes(ops + [op], calls)
  {
    hide Apply, Answers;
    var next := ops + [op];
    assert next[..|ops|] == ops;
    forall k | 0 <= k < |next|
      ensures Answers(SerialTables(next[..k], calls), next[k], calls)
    {
      if k < |ops| { assert next[..k] == ops[..k]; }
    }
  }

  lemma DecidedOn(s: State, c: nat)
    requires Inv(s) && c < |s.calls| && Answered(s.calls[c])
    ensures var call := s.calls[c];
            && call.submitted <= call.at < |s.history|
            && Serial.Transact(s.history[call.at], call.p, c, call.started, call.checked).1 == call.outcome
            && (call.outcome.Created? ==>
                  call.at + 1 < |s.history| &&
                  s.history[call.at + 1] == Serial.Transact(s.history[call.at], call.p, c, call.started, call.checked).0)
            && (!call.outcome.Created? ==>
                  Serial.Transact(s.history[call.at], call.p, c, call.started, call.checked).0 == s.history[call.at])
  {
    hide HistoryInv, Conserved, LocksInv, OriginInv, CausesInv, WorkInv, ChecksInv, RowsInv, LookupInv;
    assert CallInv(s.history, s.clock, s.calls[c], c);
  }

  lemma {:induction false} ReadersSerial(s: State, ops: seq<Op>, i: nat, n: nat)
    requires Inv(s) && i < |s.history| && n <= |s.calls|
    requires SerialTables(ops, s.calls) == s.history[i] && SameOutcomes(ops, s.calls)
    ensures SerialTables(ops + Readers(s.calls, i, n), s.calls) == s.history[i]
    ensures SameOutcomes(ops + Readers(s.calls, i, n), s.calls)
  {
    hide Inv, SameOutcomes, SerialTables, Serial.Transact;
    if n == 0 {
      assert ops + [] == ops;
    } else {
      ReadersSerial(s, ops, i, n - 1);
      var before := ops + Readers(s.calls, i, n - 1);
      if ReaderAt(s.calls[n - 1], i) {
        DecidedOn(s, n - 1);
        ExtendSerial(before, TransferOp(n - 1), s.calls);
        assert before + [TransferOp(n - 1)] == ops + Readers(s.calls, i, n);
      } else {
        assert before == ops + Readers(s.calls, i, n);
      }
    }
  }

  lemma CauseSerial(s: State, i: nat)
    requires Inv(s) && i < |s.causes|
    ensures i + 1 < |s.history|
    ensures Answers(s.history[i], s.causes[i], s.calls)
    ensures Apply(s.history[i], s.causes[i], s.calls) == s.history[i + 1]
  {
    hide HistoryInv, Conserved, LocksInv, OriginInv, CallInv, Serial.Transact, Open;
    assert Explains(s, i);
    if s.causes[i].TransferOp? { DecidedOn(s, s.causes[i].c); }
  }

  lemma {:induction false} OrderSerial(s: State, i: nat)
    requires Inv(s) && i < |s.history|
    ensures SerialTables(OrderUpTo(s, i), s.calls) == s.history[i]
    ensures SameOutcomes(OrderUpTo(s, i), s.calls)
  {
    hide Serial.Transact, Inv, SameOutcomes, Answers, Apply, Readers;
    if i == 0 {
      FirstIsEmpty(s);
      assert SameOutcomes([], s.calls) by { NoOps(s.calls); }
    } else {
      OrderSerial(s, i - 1);
      CauseLengthInv(s);
      hide SerialTables;
      ReadersSerial(s, OrderUpTo(s, i - 1), i - 1, |s.calls|);
      var before := OrderUpTo(s, i - 1) + Readers(s.calls, i - 1, |s.calls|);
      CauseSerial(s, i - 1);
      ExtendSerial(before, s.causes[i - 1], s.calls);
    }
  }

  lemma NoOps(calls: seq<Call>)
    ensures SameOutcomes([], calls)
  {
  }

  lemma FirstIsEmpty(s: State)
    requires Inv(s)
    ensures s.history[0] == EMPTY
  {
  }

  // How often a call appears in the order.
  lemma {:induction false} ReadersCount(calls: seq<Call>, i: nat, n: nat, c: nat)
    requires n <= |calls| && c < |calls|
    ensures Count(Readers(calls, i, n), TransferOp(c)) == if c < n && ReaderAt(calls[c], i) then 1 else 0
  {
    if n > 0 {
      ReadersCount(calls, i, n - 1, c);
      var last := if ReaderAt(calls[n - 1], i) then [TransferOp(n - 1)] else [];
      CountConcat(Readers(calls, i, n - 1), last, TransferOp(c));
    }
  }

  function Count(ops: seq<Op>, op: Op): nat {
    if |ops| == 0 then 0 else Count(ops[..|ops| - 1], op) + (if ops[|ops| - 1] == op then 1 else 0)
  }

  lemma {:induction false} CountConcat(a: seq<Op>, b: seq<Op>, op: Op)
    ensures Count(a + b, op) == Count(a, op) + Count(b, op)
  {
    if |b| == 0 {
      assert a + b == a;
    } else {
      assert (a + b)[..|a + b| - 1] == a + b[..|b| - 1];
      CountConcat(a, b[..|b| - 1], op);
    }
  }

  lemma AtBound(s: State, c: nat)
    requires Inv(s) && c < |s.calls| && Answered(s.calls[c])
    ensures s.calls[c].at < |s.history| && (s.calls[c].outcome.Created? ==> s.calls[c].at + 1 < |s.history|)
  {
    hide Inv, Serial.Transact;
    DecidedOn(s, c);
  }

  // Cause i is call c exactly when c created its transfer on committed state i.
  lemma CauseOf(s: State, i: nat, c: nat)
    requires Inv(s) && i < |s.causes| && c < |s.calls|
    ensures s.causes[i] == TransferOp(c) <==> HasCreated(s.calls[c]) && s.calls[c].at == i
  {
    hide CallInv, HistoryInv, Conserved, LocksInv, OriginInv;
    assert Explains(s, i) by { CauseAt(s, i); }
  }

  lemma CauseAt(s: State, i: nat)
    requires Inv(s) && i < |s.causes|
    ensures i + 1 < |s.history| && Explains(s, i)
  {
    hide CallInv, HistoryInv, Conserved, LocksInv, OriginInv, Explains;
  }

  lemma CauseCount(s: State, i: nat, c: nat)
    requires Inv(s) && i < |s.history| && c < |s.calls|
    ensures Count(CauseStep(s, i), TransferOp(c)) ==
            if HasCreated(s.calls[c]) && s.calls[c].at == i then 1 else 0
  {
    hide Inv;
    CauseLengthInv(s);
    if HasCreated(s.calls[c]) { AtBound(s, c); }
    if i < |s.causes| { CauseOf(s, i, c); }
  }

  lemma OrderStep(s: State, k: nat)
    ensures OrderUpTo(s, k + 1) == OrderUpTo(s, k) + Readers(s.calls, k, |s.calls|) + CauseStep(s, k)
  {
  }

  lemma {:induction false} OrderCount(s: State, i: nat, c: nat)
    requires Inv(s) && i <= |s.history| && c < |s.calls|
    ensures Count(OrderUpTo(s, i), TransferOp(c)) ==
            if Answered(s.calls[c]) && s.calls[c].at < i then 1 else 0
  {
    hide Inv, Readers, Count, CauseStep, OrderUpTo, HasCreated, Serial.Transact;
    if i == 0 {
      NothingDecided(s, c);
    } else {
      OrderStep(s, i - 1);
      OrderCount(s, i - 1, c);
      ReadersCount(s.calls, i - 1, |s.calls|, c);
      CauseCount(s, i - 1, c);
      var a, b, d := OrderUpTo(s, i - 1), Readers(s.calls, i - 1, |s.calls|), CauseStep(s, i - 1);
      CountConcat(a + b, d, TransferOp(c));
      CountConcat(a, b, TransferOp(c));
      CreatedOrReader(s.calls[c], i - 1);
    }
  }

  lemma NothingDecided(s: State, c: nat)
    ensures Count(OrderUpTo(s, 0), TransferOp(c)) == 0
  {
  }

  lemma CreatedOrReader(call: Call, i: nat)
    ensures Answered(call) && call.at == i <==> ReaderAt(call, i) || (HasCreated(call) && call.at == i)
    ensures !(ReaderAt(call, i) && HasCreated(call))
  {
  }

  // The refinement. Each answered call runs exactly once, nothing else does, the
  // tables come out the same and so does every outcome.
  lemma ConcurrentRefinesSerial(ls: seq<Label>)
    requires Run(ls).Some?
    ensures var s := Run(ls).value;
            && SerialTables(Decisions(s), s.calls) == Db(s)
            && SameOutcomes(Decisions(s), s.calls)
            && forall c :: 0 <= c < |s.calls| ==>
                 Count(Decisions(s), TransferOp(c)) == if Answered(s.calls[c]) then 1 else 0
  {
    hide Inv, SerialTables, SameOutcomes, Serial.Transact, Readers;
    RunInv(ls);
    var s := Run(ls).value;
    var i := |s.history| - 1;
    OrderSerial(s, i);
    ReadersSerial(s, OrderUpTo(s, i), i, |s.calls|);
    CauseLengthInv(s);
    assert Decisions(s) == OrderUpTo(s, i) + Readers(s.calls, i, |s.calls|);
    forall c | 0 <= c < |s.calls|
      ensures Count(Decisions(s), TransferOp(c)) == if Answered(s.calls[c]) then 1 else 0
    {
      OrderCount(s, |s.history|, c);
      if Answered(s.calls[c]) { DecidedOn(s, c); }
    }
  }

  lemma CauseLengthInv(s: State)
    requires Inv(s)
    ensures |s.causes| == |s.history| - 1
  {
  }
}
