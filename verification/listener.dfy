// The database listener: one background goroutine that keeps a connection, started
// and stopped from other goroutines.
module Listening {
  import opened Prelude

  const INITIAL_BACKOFF := 100
  const MAXIMUM_BACKOFF := 5000

  function Pow2(k: nat): nat {
    if k == 0 then 1 else 2 * Pow2(k - 1)
  }

  // The k-th delay of one reconnect, in milliseconds, counting from 0.
  function Delay(k: nat): nat {
    Min(INITIAL_BACKOFF * Pow2(k), MAXIMUM_BACKOFF)
  }

  ghost predicate Delays(delays: seq<nat>) {
    forall k :: 0 <= k < |delays| ==> delays[k] == Delay(k)
  }

  lemma DelayDoubles(k: nat)
    ensures Delay(0) == INITIAL_BACKOFF
    ensures Delay(k + 1) == Min(Delay(k) * 2, MAXIMUM_BACKOFF)
  {
    assert Pow2(k + 1) == 2 * Pow2(k);
  }

  // One pass of the reconnect loop: what the sleep, the connect and the LISTEN do.
  datatype Attempt = SleepFails | ConnectFails | ListenFails | Succeeds

  // reconnect, against what each pass will meet. `left` counts connections opened
  // and not closed again.
  method Reconnect(attempts: seq<Attempt>) returns (ok: bool, delays: seq<nat>, left: nat)
    requires exists i :: 0 <= i < |attempts| && (attempts[i] == SleepFails || attempts[i] == Succeeds)
    ensures 0 < |delays| <= |attempts|
    ensures attempts[|delays| - 1] == SleepFails || attempts[|delays| - 1] == Succeeds
    ensures forall i :: 0 <= i < |delays| - 1 ==> attempts[i] == ConnectFails || attempts[i] == ListenFails
    ensures ok <==> attempts[|delays| - 1] == Succeeds
    ensures Delays(delays)
    ensures left == if ok then 1 else 0
  {
    var backoff := INITIAL_BACKOFF;
    delays, left := [], 0;
    while true
      invariant |delays| <= |attempts| && left == 0
      invariant forall i :: 0 <= i < |delays| ==> attempts[i] == ConnectFails || attempts[i] == ListenFails
      invariant Delays(delays) && backoff == Delay(|delays|)
      decreases |attempts| - |delays|
    {
      var attempt := attempts[|delays|];
      DelayDoubles(|delays|);
      delays := delays + [backoff];
      if attempt == SleepFails { return false, delays, left; }
      if attempt != ConnectFails {
        left := left + 1;
        if attempt == Succeeds { return true, delays, left; }
        left := left - 1;
      }
      backoff := Min(backoff * 2, MAXIMUM_BACKOFF);
    }
  }

  // ----- The fields under the mutex --------------------------------------------------

  // `current` names the accepted Start whose cancel function and done channel the
  // fields hold.
  datatype Fields = Fields(started: bool, current: Option<nat>)

  function Accepted(f: Fields, g: nat): Fields {
    if f.started then f else Fields(true, Some(g))
  }

  function Forgotten(f: Fields, g: nat): Fields {
    if f.current == Some(g) then Fields(false, None) else f
  }

  class Listener {
    var started: bool
    var current: Option<nat>
    var closed: set<nat>      // the done channels closed so far

    ghost function View(): Fields
      reads this
    {
      Fields(started, current)
    }

    constructor ()
      ensures View() == Fields(false, None) && closed == {}
    {
      started, current, closed := false, None, {};
    }

    // The critical section of Start, for the g-th attempt.
    method Begin(g: nat) returns (accepted: bool)
      modifies this
      ensures accepted <==> !old(started)
      ensures View() == Accepted(old(View()), g) && closed == old(closed)
    {
      if started { return false; }
      started := true;
      current := Some(g);
      return true;
    }

    // finishFailedStart. Closing a closed channel would panic.
    method FinishFailedStart(g: nat)
      requires g !in closed
      modifies this
      ensures View() == Forgotten(old(View()), g) && closed == old(closed) + {g}
    {
      if current == Some(g) {
        started := false;
        current := None;
      }
      closed := closed + {g};
    }
  }

  // ----- Starts, stops and failures in any order ---------------------------------------

  datatype Phase =
    | Connecting      // Start: the first connect
    | Opened          // Start: connected, about to look at the context
    | Subscribing     // Start: LISTEN
    | Confirming      // Start: looking at the context once more
    | Failing         // Start: about to call finishFailedStart
    | Waiting         // run: WaitForNotification
    | Dropped         // run: connection closed, about to look at the context
    | Sleeping        // reconnect: sleeping
    | Reconnecting    // reconnect: connecting
    | Resubscribing   // reconnect: LISTEN
    | Leaving         // run: returning, the deferred close to come
    | Refused         // Start returned an error, done closed
    | Ended           // run returned, done closed

  // An accepted Start and the goroutine it may have become.
  datatype Start = Start(phase: Phase, cancelled: bool, open: bool, closes: nat, backoff: nat, delays: seq<nat>)

  datatype StopPhase = Reading | Cancelling | Awaiting | ReturnedNil | ReturnedError

  // `target` is the Start it read; `seen` is how many had been accepted by then.
  datatype Stop = Stop(phase: StopPhase, target: Option<nat>, seen: nat)

  datatype State = State(fields: Fields, starts: seq<Start>, stops: seq<Stop>)

  datatype Label =
    | CallStart
    | StepStart(g: nat, ok: bool)    // ok: the connect, LISTEN, wait or sleep succeeds
    | CancelContext(g: nat)          // the context given to Start is cancelled
    | CallStop
    | StepStop(k: nat, ok: bool)     // ok: Stop's own context is still live

  const INIT := State(Fields(false, None), [], [])

  function Put(s: State, g: nat, t: Start): State
    requires g < |s.starts|
  {
    s.(starts := s.starts[g := t])
  }

  function PutStop(s: State, k: nat, t: Stop): State
    requires k < |s.stops|
  {
    s.(stops := s.stops[k := t])
  }

  function NextBackoff(t: Start): Start {
    t.(phase := Sleeping, backoff := Min(t.backoff * 2, MAXIMUM_BACKOFF))
  }

  // What one step does to the goroutine itself.
  function Advanced(t: Start, ok: bool): Option<Start> {
    match t.phase
    case Connecting => Some(if ok then t.(phase := Opened, open := true) else t.(phase := Failing, cancelled := true))
    case Opened => Some(if t.cancelled then t.(phase := Failing, open := false) else t.(phase := Subscribing))
    case Subscribing =>
      Some(if ok then t.(phase := Confirming) else t.(phase := Failing, open := false, cancelled := true))
    case Confirming => Some(if t.cancelled then t.(phase := Failing, open := false) else t.(phase := Waiting))
    case Failing => Some(t.(phase := Refused, closes := t.closes + 1))
    case Waiting => Some(if ok then t else t.(phase := Dropped, open := false))
    case Dropped =>
      Some(if t.cancelled then t.(phase := Leaving)
           else t.(phase := Sleeping, backoff := INITIAL_BACKOFF, delays := []))
    case Sleeping =>
      if ok then Some(t.(phase := Reconnecting, delays := t.delays + [t.backoff]))
      else if t.cancelled then Some(t.(phase := Leaving))
      else None
    case Reconnecting => Some(if ok then t.(phase := Resubscribing, open := true) else NextBackoff(t))
    case Resubscribing => Some(if ok then t.(phase := Waiting) else NextBackoff(t).(open := false))
    case Leaving => Some(t.(phase := Ended, closes := t.closes + 1))
    case Refused => None
    case Ended => None
  }

  function StepOfStart(s: State, g: nat, ok: bool): Option<State>
    requires g < |s.starts|
  {
    var t := s.starts[g];
    match Advanced(t, ok)
    case None => None
    case Some(t') =>
      var s' := Put(s, g, t');
      Some(if t.phase == Failing then s'.(fields := Forgotten(s.fields, g)) else s')
  }

  function StepOfStop(s: State, k: nat, ok: bool): Option<State>
    requires k < |s.stops|
  {
    var t := s.stops[k];
    match t.phase
    case Reading =>
      if !s.fields.started then Some(PutStop(s, k, Stop(ReturnedNil, None, |s.starts|)))
      else Some(PutStop(s, k, Stop(Cancelling, s.fields.current, |s.starts|)))
    case Cancelling =>
      if t.target.None? || t.target.value >= |s.starts| then None
      else
        var g := t.target.value;
        Some(PutStop(Put(s, g, s.starts[g].(cancelled := true)), k, t.(phase := Awaiting)))
    case Awaiting =>
      if !ok then Some(PutStop(s, k, t.(phase := ReturnedError)))
      else if t.target.Some? && t.target.value < |s.starts| && s.starts[t.target.value].closes > 0
      then Some(PutStop(s, k, t.(phase := ReturnedNil)))
      else None
    case ReturnedNil => None
    case ReturnedError => None
  }

  function Next(s: State, l: Label): Option<State> {
    match l
    case CallStart =>
      if s.fields.started then Some(s)
      else
        Some(State(Accepted(s.fields, |s.starts|), s.starts + [Start(Connecting, false, false, 0, INITIAL_BACKOFF, [])],
                   s.stops))
    case StepStart(g, ok) => if g < |s.starts| then StepOfStart(s, g, ok) else None
    case CancelContext(g) =>
      if g < |s.starts| then Some(Put(s, g, s.starts[g].(cancelled := true))) else None
    case CallStop => Some(s.(stops := s.stops + [Stop(Reading, None, |s.starts|)]))
    case StepStop(k, ok) => if k < |s.stops| then StepOfStop(s, k, ok) else None
  }

  function Runs(s: State, ls: seq<Label>): Option<State>
    decreases |ls|
  {
    if |ls| == 0 then Some(s)
    else
      match Next(s, ls[0])
      case None => None
      case Some(s') => Runs(s', ls[1..])
  }

  // ----- The invariant --------------------------------------------------------------------

  predicate Finished(t: Start) {
    t.phase == Refused || t.phase == Ended
  }

  predicate HoldsConnection(t: Start) {
    t.phase == Opened || t.phase == Subscribing || t.phase == Confirming || t.phase == Waiting || t.phase == Resubscribing
  }

  // A Start that reached run never gives the fields back.
  predicate BecameGoroutine(t: Start) {
    match t.phase
    case Waiting => true
    case Dropped => true
    case Sleeping => true
    case Reconnecting => true
    case Resubscribing => true
    case Leaving => true
    case Ended => true
    case _ => false
  }

  ghost predicate StartInv(t: Start) {
    && t.open == HoldsConnection(t)
    && t.closes == (if Finished(t) then 1 else 0)
    && (t.phase == Failing || t.phase == Leaving ==> t.cancelled)
    && Delays(t.delays)
    && (t.phase == Sleeping ==> t.backoff == Delay(|t.delays|))
    && (t.phase == Reconnecting || t.phase == Resubscribing ==>
          |t.delays| > 0 && t.backoff == Delay(|t.delays| - 1))
  }

  // The fields name the last accepted Start, unless it was refused.
  ghost predicate FieldsInv(s: State) {
    && (s.fields.started <==> s.fields.current.Some?)
    && (s.fields.started <==> |s.starts| > 0 && s.starts[|s.starts| - 1].phase != Refused)
    && (s.fields.started ==> s.fields.current == Some(|s.starts| - 1))
    && (forall g :: 0 <= g < |s.starts| - 1 ==> s.starts[g].phase == Refused)
  }

  ghost predicate StopInv(s: State, t: Stop) {
    && t.seen <= |s.starts|
    && (t.phase == Cancelling || t.phase == Awaiting ==> t.target.Some?)
    && (t.target.Some? ==> t.seen > 0 && t.target.value == t.seen - 1)
    && (t.phase == ReturnedNil ==>
          forall g :: 0 <= g < t.seen ==> Finished(s.starts[g]))
  }

  ghost predicate Inv(s: State) {
    && (forall g :: 0 <= g < |s.starts| ==> StartInv(s.starts[g]))
    && FieldsInv(s)
    && (forall k :: 0 <= k < |s.stops| ==> StopInv(s, s.stops[k]))
  }

  lemma AdvancedKeeps(t: Start, ok: bool)
    requires StartInv(t) && Advanced(t, ok).Some?
    ensures StartInv(Advanced(t, ok).value)
  {
    hide Delay;
    DelayDoubles(|t.delays|);
    if |t.delays| > 0 { DelayDoubles(|t.delays| - 1); }
  }

  lemma StepOfStartKeeps(s: State, g: nat, ok: bool)
    requires Inv(s) && g < |s.starts| && StepOfStart(s, g, ok).Some?
    ensures Inv(StepOfStart(s, g, ok).value)
  {
    AdvancedKeeps(s.starts[g], ok);
    var s' := StepOfStart(s, g, ok).value;
    hide StartInv;
    StopsStay(s, s');
    hide StopInv;
  }

  lemma PutStopKeeps(s: State, k: nat, t: Stop)
    requires Inv(s) && k < |s.stops| && StopInv(s, t)
    ensures Inv(PutStop(s, k, t))
  {
    hide StartInv;
    var s' := PutStop(s, k, t);
    StopsStay(s, s');
    assert StopInv(s', t);
    hide StopInv;
  }

  lemma StepOfStopKeeps(s: State, k: nat, ok: bool)
    requires Inv(s) && k < |s.stops| && StepOfStop(s, k, ok).Some?
    ensures Inv(StepOfStop(s, k, ok).value)
  {
    hide Delay, Delays;
    var s' := StepOfStop(s, k, ok).value;
    var t := s.stops[k];
    assert StopInv(s, t);
    if t.phase == Cancelling {
      var g := t.target.value;
      CancelKeeps(s, g);
      hide Inv, StartInv, FieldsInv;
      PutStopKeeps(Next(s, CancelContext(g)).value, k, t.(phase := Awaiting));
    } else {
      hide StartInv;
      PutStopKeeps(s, k, s'.stops[k]);
      hide Inv;
    }
  }

  lemma NextKeeps(s: State, l: Label)
    requires Inv(s) && Next(s, l).Some?
    ensures Inv(Next(s, l).value)
  {
    match l
    case StepStart(g, ok) => StepOfStartKeeps(s, g, ok);
    case StepStop(k, ok) => StepOfStopKeeps(s, k, ok);
    case _ => ArrivalKeeps(s, l);
  }

  // A call comes in, or a context is cancelled.
  lemma ArrivalKeeps(s: State, l: Label)
    requires Inv(s) && Next(s, l).Some? && !l.StepStart? && !l.StepStop?
    ensures Inv(Next(s, l).value)
  {
    hide Delay, Delays;
    match l
    case CallStart => CallStartKeeps(s);
    case CancelContext(g) => CancelKeeps(s, g);
    case CallStop =>
      StopsStay(s, Next(s, l).value);
      hide FieldsInv, StartInv;
    case _ =>
  }

  lemma CancelKeeps(s: State, g: nat)
    requires Inv(s) && Next(s, CancelContext(g)).Some?
    ensures Inv(Next(s, CancelContext(g)).value)
  {
    hide Delay, Delays;
    assert StartInv(s.starts[g]);
    StopsStay(s, Next(s, CancelContext(g)).value);
    hide StopInv;
  }

  lemma CallStartKeeps(s: State)
    requires Inv(s)
    ensures Next(s, CallStart).Some? && Inv(Next(s, CallStart).value)
  {
    DelayDoubles(0);
    StopsStay(s, Next(s, CallStart).value);
    hide StopInv;
  }

  // What a Stop has seen finished stays finished.
  lemma StopsStay(s: State, s': State)
    requires forall k :: 0 <= k < |s.stops| ==> StopInv(s, s.stops[k])
    requires |s.starts| <= |s'.starts|
    requires forall g :: 0 <= g < |s.starts| && Finished(s.starts[g]) ==> Finished(s'.starts[g])
    ensures forall k :: 0 <= k < |s.stops| ==> StopInv(s', s.stops[k])
  {
    forall k | 0 <= k < |s.stops|
      ensures StopInv(s', s.stops[k])
    {
      assert StopInv(s, s.stops[k]);
    }
  }

  lemma {:induction false} RunsKeep(s: State, ls: seq<Label>)
    requires Inv(s) && Runs(s, ls).Some?
    ensures Inv(Runs(s, ls).value)
    decreases |ls|
  {
    if |ls| > 0 {
      hide Inv, Next;
      NextKeeps(s, ls[0]);
      RunsKeep(Next(s, ls[0]).value, ls[1..]);
    }
  }

  // ----- What callers may rely on ------------------------------------------------------------

  // Never two connections, and only the Start named by the fields can hold one.
  lemma OneConnection(ls: seq<Label>, g: nat)
    requires Runs(INIT, ls).Some? && g < |Runs(INIT, ls).value.starts|
    requires Runs(INIT, ls).value.starts[g].open
    ensures Runs(INIT, ls).value.fields == Fields(true, Some(g))
    ensures g == |Runs(INIT, ls).value.starts| - 1
  {
    RunsKeep(INIT, ls);
    assert StartInv(Runs(INIT, ls).value.starts[g]);
  }

  // A done channel is closed once, as the last act of its Start, holding nothing.
  lemma DoneClosedOnce(ls: seq<Label>, g: nat)
    requires Runs(INIT, ls).Some? && g < |Runs(INIT, ls).value.starts|
    ensures var t := Runs(INIT, ls).value.starts[g];
            && t.closes <= 1
            && (t.closes == 1 <==> Finished(t))
            && (t.closes == 1 ==> !t.open && forall ok :: Advanced(t, ok).None?)
  {
    RunsKeep(INIT, ls);
    assert StartInv(Runs(INIT, ls).value.starts[g]);
  }

  lemma DelaysDouble(ls: seq<Label>, g: nat, k: nat)
    requires Runs(INIT, ls).Some? && g < |Runs(INIT, ls).value.starts|
    requires k < |Runs(INIT, ls).value.starts[g].delays|
    ensures Runs(INIT, ls).value.starts[g].delays[k] == Min(100 * Pow2(k), 5000)
  {
    RunsKeep(INIT, ls);
    assert StartInv(Runs(INIT, ls).value.starts[g]);
  }

  // When Stop has returned nil, no Start accepted before it looked holds a
  // connection, now or later. A connection that is open belongs to a later Start.
  lemma StoppedMeansClosed(ls: seq<Label>, k: nat, g: nat)
    requires Runs(INIT, ls).Some? && k < |Runs(INIT, ls).value.stops|
    requires Runs(INIT, ls).value.stops[k].phase == ReturnedNil
    requires g < |Runs(INIT, ls).value.starts|
    ensures g < Runs(INIT, ls).value.stops[k].seen ==>
              !Runs(INIT, ls).value.starts[g].open && Runs(INIT, ls).value.starts[g].closes == 1
    ensures Runs(INIT, ls).value.starts[g].open ==> Runs(INIT, ls).value.stops[k].seen <= g
  {
    RunsKeep(INIT, ls);
    var s := Runs(INIT, ls).value;
    assert StartInv(s.starts[g]) && StopInv(s, s.stops[k]);
  }

  // A Start that holds a connection or may still come to: it is not on its way out.
  predicate CanHold(t: Start) {
    match t.phase
    case Failing => false
    case Leaving => false
    case Refused => false
    case Ended => false
    case Dropped => !t.cancelled
    case _ => true
  }

  predicate NoNewStart(ls: seq<Label>) {
    forall i :: 0 <= i < |ls| ==> ls[i] != CallStart
  }

  predicate SomeOpen(s: State) {
    exists g :: 0 <= g < |s.starts| && s.starts[g].open
  }

  // A connection is open at some later time although Start is not called again.
  ghost predicate OpensAgain(s: State) {
    exists ls :: NoNewStart(ls) && Runs(s, ls).Some? && SomeOpen(Runs(s, ls).value)
  }

  // After Stop has returned nil a connection is or comes to be open, without a
  // further Start, exactly when a Start accepted after Stop looked is not on its way
  // out. If none was accepted in between, nil means closed for good.
  lemma StopNilExactly(ls: seq<Label>, k: nat)
    requires Runs(INIT, ls).Some? && k < |Runs(INIT, ls).value.stops|
    requires Runs(INIT, ls).value.stops[k].phase == ReturnedNil
    ensures var s := Runs(INIT, ls).value;
            && (OpensAgain(s) <==> exists g :: s.stops[k].seen <= g < |s.starts| && CanHold(s.starts[g]))
            && (s.stops[k].seen == |s.starts| ==> !OpensAgain(s))
  {
    RunsKeep(INIT, ls);
    var s := Runs(INIT, ls).value;
    assert StopInv(s, s.stops[k]);
    hide Runs;
    if g :| s.stops[k].seen <= g < |s.starts| && CanHold(s.starts[g]) {
      var more := Opens(s, g);
    } else {
      forall more | NoNewStart(more) && Runs(s, more).Some?
        ensures !SomeOpen(Runs(s, more).value)
      {
        StaysClosed(s, more);
      }
    }
  }

  lemma Opens(s: State, g: nat) returns (ls: seq<Label>)
    requires Inv(s) && g < |s.starts| && CanHold(s.starts[g])
    ensures NoNewStart(ls) && Runs(s, ls).Some? && SomeOpen(Runs(s, ls).value)
    decreases if s.starts[g].phase == Dropped then 3 else if s.starts[g].phase == Sleeping then 2 else 1
  {
    assert StartInv(s.starts[g]);
    if s.starts[g].open {
      ls := [];
    } else {
      var s' := Next(s, StepStart(g, true)).value;
      NextKeeps(s, StepStart(g, true));
      assert s'.starts[g] == Advanced(s.starts[g], true).value;
      hide Inv, Next;
      if s'.starts[g].open {
        ls := [StepStart(g, true)];
        assert ls[1..] == [] && Runs(s', []) == Some(s');
      } else {
        var rest := Opens(s', g);
        ls := [StepStart(g, true)] + rest;
        assert ls[1..] == rest;
      }
    }
  }

  lemma {:induction false} StaysClosed(s: State, ls: seq<Label>)
    requires Inv(s) && forall g :: 0 <= g < |s.starts| ==> !CanHold(s.starts[g])
    requires NoNewStart(ls) && Runs(s, ls).Some?
    ensures !SomeOpen(Runs(s, ls).value)
    decreases |ls|
  {
    if |ls| == 0 {
      assert forall g :: 0 <= g < |s.starts| ==> StartInv(s.starts[g]);
    } else {
      var s' := Next(s, ls[0]).value;
      NextKeeps(s, ls[0]);
      NoneComesBack(s, ls[0]);
      assert forall i :: 0 <= i < |ls[1..]| ==> ls[1..][i] == ls[i + 1];
      hide Inv, Next;
      StaysClosed(s', ls[1..]);
    }
  }

  lemma NoneComesBack(s: State, l: Label)
    requires Next(s, l).Some? && l != CallStart && forall g :: 0 <= g < |s.starts| ==> !CanHold(s.starts[g])
    ensures forall g :: 0 <= g < |Next(s, l).value.starts| ==> !CanHold(Next(s, l).value.starts[g])
  {
  }

  // Such a Start can slip in: the first is refused while Stop waits for it, a
  // second one connects, and only then does Stop return nil.
  lemma StopNilWithOpenConnection() returns (ls: seq<Label>)
    ensures Runs(INIT, ls).Some?
    ensures var s := Runs(INIT, ls).value;
            |s.stops| == 1 && s.stops[0].phase == ReturnedNil && |s.starts| == 2 && s.starts[1].open
  {
    var waits := [CallStart, CallStop, StepStop(0, true), StepStop(0, true)];
    var slips := [StepStart(0, false), StepStart(0, true), CallStart, StepStart(1, true), StepStop(0, true)];
    StopAwaits(waits);
    SecondStartConnects(slips);
    hide Runs;
    RunsOn(INIT, waits, slips);
    return waits + slips;
  }

  const NEW_START := Start(Connecting, false, false, 0, INITIAL_BACKOFF, [])
  const AWAITED := State(Fields(true, Some(0)), [NEW_START.(cancelled := true)], [Stop(Awaiting, Some(0), 1)])

  lemma StopAwaits(ls: seq<Label>)
    requires ls == [CallStart, CallStop, StepStop(0, true), StepStop(0, true)]
    ensures Runs(INIT, ls) == Some(AWAITED)
  {
    var s1 := State(Fields(true, Some(0)), [NEW_START], []);
    var s2 := s1.(stops := [Stop(Reading, None, 1)]);
    var s3 := s1.(stops := [Stop(Cancelling, Some(0), 1)]);
    assert INIT.starts + [NEW_START] == s1.starts && s1.stops + [s2.stops[0]] == s2.stops;
    assert s2.stops[0 := s3.stops[0]] == s3.stops && s3.stops[0 := AWAITED.stops[0]] == AWAITED.stops;
    assert s3.starts[0 := AWAITED.starts[0]] == AWAITED.starts;
    assert Next(INIT, ls[0]) == Some(s1) && Next(s1, ls[1]) == Some(s2);
    assert Next(s2, ls[2]) == Some(s3) && Next(s3, ls[3]) == Some(AWAITED);
    hide Next, Runs;
    Along([INIT, s1, s2, s3, AWAITED], ls, 0);
  }

  lemma SecondStartConnects(ls: seq<Label>)
    requires ls == [StepStart(0, false), StepStart(0, true), CallStart, StepStart(1, true), StepStop(0, true)]
    ensures Runs(AWAITED, ls).Some?
    ensures var s := Runs(AWAITED, ls).value;
            |s.stops| == 1 && s.stops[0].phase == ReturnedNil && |s.starts| == 2 && s.starts[1].open
  {
    var failing := AWAITED.starts[0].(phase := Failing);
    var refused := failing.(phase := Refused, closes := 1);
    var s1 := AWAITED.(starts := [failing]);
    var s2 := State(Fields(false, None), [refused], AWAITED.stops);
    var s3 := State(Fields(true, Some(1)), [refused, NEW_START], AWAITED.stops);
    var s4 := s3.(starts := [refused, NEW_START.(phase := Opened, open := true)]);
    var s5 := s4.(stops := [Stop(ReturnedNil, Some(0), 1)]);
    assert AWAITED.starts[0 := failing] == s1.starts && s1.starts[0 := refused] == s2.starts;
    assert s2.starts + [NEW_START] == s3.starts && s3.starts[1 := s4.starts[1]] == s4.starts;
    assert s4.stops[0 := s5.stops[0]] == s5.stops;
    assert Next(AWAITED, ls[0]) == Some(s1) && Next(s1, ls[1]) == Some(s2) && Next(s2, ls[2]) == Some(s3);
    assert Next(s3, ls[3]) == Some(s4) && Next(s4, ls[4]) == Some(s5);
    hide Next, Runs;
    Along([AWAITED, s1, s2, s3, s4, s5], ls, 0);
  }

  lemma {:induction false} RunsOn(s: State, ls: seq<Label>, more: seq<Label>)
    requires Runs(s, ls).Some?
    ensures Runs(s, ls + more) == Runs(Runs(s, ls).value, more)
    decreases |ls|
  {
    hide Next;
    if |ls| == 0 {
      assert ls + more == more;
    } else {
      assert (ls + more)[1..] == ls[1..] + more;
      RunsOn(Next(s, ls[0]).value, ls[1..], more);
    }
  }

  // The states `at` are those the labels lead through.
  lemma {:induction false} Along(at: seq<State>, ls: seq<Label>, i: nat)
    requires i <= |ls| && |at| == |ls| + 1
    requires forall k :: i <= k < |ls| ==> Next(at[k], ls[k]) == Some(at[k + 1])
    ensures Runs(at[i], ls[i..]) == Some(at[|ls|])
    ensures i == 0 ==> ls[i..] == ls
    decreases |ls| - i
  {
    hide Next;
    if i < |ls| {
      assert ls[i..][1..] == ls[i + 1..];
      Along(at, ls, i + 1);
    }
  }

  // After a Start has succeeded no other is ever accepted, not even once stopped.
  lemma {:induction false} NoSecondGoroutine(s: State, ls: seq<Label>)
    requires Inv(s) && Runs(s, ls).Some? && |s.starts| > 0 && BecameGoroutine(s.starts[|s.starts| - 1])
    ensures |Runs(s, ls).value.starts| == |s.starts|
    ensures Runs(s, ls).value.fields == s.fields
    decreases |ls|
  {
    if |ls| > 0 {
      NextKeeps(s, ls[0]);
      GoroutineStays(s, ls[0]);
      hide Inv, Next;
      NoSecondGoroutine(Next(s, ls[0]).value, ls[1..]);
    }
  }

  lemma GoroutineStays(s: State, l: Label)
    requires FieldsInv(s) && Next(s, l).Some? && |s.starts| > 0 && BecameGoroutine(s.starts[|s.starts| - 1])
    ensures var s' := Next(s, l).value;
            |s'.starts| == |s.starts| && s'.fields == s.fields && BecameGoroutine(s'.starts[|s'.starts| - 1])
  {
  }

  // How many failing calls a cancelled Start can still make.
  function Remaining(t: Start): nat {
    match t.phase
    case Connecting => 2
    case Opened => 2
    case Subscribing => 2
    case Confirming => 2
    case Failing => 1
    case Waiting => 3
    case Dropped => 2
    case Sleeping => 2
    case Reconnecting => 3
    case Resubscribing => 3
    case Leaving => 1
    case Refused => 0
    case Ended => 0
  }

  lemma CancelledStep(s: State, g: nat)
    requires g < |s.starts| && s.starts[g].cancelled && !Finished(s.starts[g])
    ensures Next(s, StepStart(g, false)).Some?
    ensures var s' := Next(s, StepStart(g, false)).value;
            var t := s'.starts[g];
            |s'.starts| == |s.starts| && t.cancelled && Remaining(t) < Remaining(s.starts[g]) <= 3
  {
  }

  // Once its context is cancelled, and the calls that take it fail, a Start closes
  // its done channel within three steps, so that a Stop that waits for it can return.
  lemma {:induction false} CancelledEnds(s: State, g: nat) returns (ls: seq<Label>)
    requires Inv(s) && g < |s.starts| && s.starts[g].cancelled
    ensures |ls| <= Remaining(s.starts[g]) <= 3 && forall i :: 0 <= i < |ls| ==> ls[i] == StepStart(g, false)
    ensures Runs(s, ls).Some? && g < |Runs(s, ls).value.starts|
    ensures Runs(s, ls).value.starts[g].closes == 1 && !Runs(s, ls).value.starts[g].open
    decreases Remaining(s.starts[g])
  {
    if Finished(s.starts[g]) {
      ls := [];
      assert StartInv(s.starts[g]);
    } else {
      var l := StepStart(g, false);
      CancelledStep(s, g);
      NextKeeps(s, l);
      hide Inv, Next;
      var rest := CancelledEnds(Next(s, l).value, g);
      ls := [l] + rest;
      assert ls[1..] == rest;
    }
  }

  // ----- What can happen --------------------------------------------------------------------

  // Steps until it waits for notifications, if every call succeeds.
  function ToWaiting(t: Start): nat {
    match t.phase
    case Connecting => 4
    case Dropped => 4
    case Opened => 3
    case Sleeping => 3
    case Subscribing => 2
    case Reconnecting => 2
    case Confirming => 1
    case Resubscribing => 1
    case _ => 0
  }

  // A Start that is not cancelled and not failing listens after four steps at most in
  // which its calls succeed, over the connection it then holds.
  lemma ComesToListen(s: State, g: nat) returns (ls: seq<Label>)
    requires Inv(s) && g < |s.starts| && !s.starts[g].cancelled && !Finished(s.starts[g])
    ensures |ls| <= 4 && (forall i :: 0 <= i < |ls| ==> ls[i] == StepStart(g, true)) && Runs(s, ls).Some?
    ensures var s' := Runs(s, ls).value;
            && g < |s'.starts| && s'.starts[g].phase == Waiting && s'.starts[g].open
            && s'.fields == Fields(true, Some(g))
  {
    assert StartInv(s.starts[g]);
    if s.starts[g].phase == Waiting {
      ls := [];
      HolderIsNamed(s, g);
    } else {
      ls := ListensOn(s, g);
    }
  }

  lemma HolderIsNamed(s: State, g: nat)
    requires Inv(s) && g < |s.starts| && s.starts[g].phase == Waiting
    ensures s.fields == Fields(true, Some(g))
  {
  }

  lemma ListensOn(s: State, g: nat) returns (ls: seq<Label>)
    requires Inv(s) && g < |s.starts| && !s.starts[g].cancelled && !Finished(s.starts[g]) && s.starts[g].phase != Waiting
    ensures |ls| <= ToWaiting(s.starts[g]) <= 4
    ensures (forall i :: 0 <= i < |ls| ==> ls[i] == StepStart(g, true)) && Runs(s, ls).Some?
    ensures var s' := Runs(s, ls).value;
            && g < |s'.starts| && s'.starts[g].phase == Waiting && s'.starts[g].open
            && s'.fields == Fields(true, Some(g))
    decreases ToWaiting(s.starts[g])
  {
    assert StartInv(s.starts[g]);
    var l := StepStart(g, true);
    var s' := Next(s, l).value;
    NextKeeps(s, l);
    assert s'.starts[g] == Advanced(s.starts[g], true).value;
    hide Next;
    var rest := [];
    if s'.starts[g].phase == Waiting {
      HolderIsNamed(s', g);
      assert StartInv(s'.starts[g]);
      assert Runs(s', []) == Some(s');
    } else {
      rest := ListensOn(s', g);
    }
    ls := [l] + rest;
    assert ls[1..] == rest;
  }

  // A Start that was cancelled closes its connection at its next look at the context.
  lemma CancelledIsNoticed(t: Start, ok: bool)
    requires t.cancelled && (t.phase == Opened || t.phase == Confirming || t.phase == Dropped)
    ensures Advanced(t, ok).Some? && (t.phase != Dropped ==> !Advanced(t, ok).value.open)
    ensures Advanced(t, ok).value.phase == if t.phase == Dropped then Leaving else Failing
  {
  }

  // Whatever fails while a Start connects, it gives up its connection and its context; a
  // running one keeps its context and tries again.
  lemma FailureMoves(t: Start)
    ensures t.phase == Connecting || t.phase == Subscribing ==>
              && Advanced(t, false).Some? && Advanced(t, false).value.phase == Failing && Advanced(t, false).value.cancelled
              && (t.phase == Subscribing ==> !Advanced(t, false).value.open)
    ensures t.phase == Waiting ==> Advanced(t, false) == Some(t.(phase := Dropped, open := false))
    ensures t.phase == Reconnecting || t.phase == Resubscribing ==>
              Advanced(t, false).Some? && Advanced(t, false).value.phase == Sleeping
              && Advanced(t, false).value.cancelled == t.cancelled && Advanced(t, false).value.delays == t.delays
    ensures t.phase == Sleeping ==> (Advanced(t, false).Some? <==> t.cancelled)
  {
  }

  // A context can be cancelled at any time, and nothing else changes by it.
  lemma CancelMoves(s: State, g: nat)
    ensures Next(s, CancelContext(g)).Some? <==> g < |s.starts|
    ensures g < |s.starts| ==>
              Next(s, CancelContext(g)).value == s.(starts := s.starts[g := s.starts[g].(cancelled := true)])
  {
  }

  // Stop returns nil at once if nothing is started. Else it cancels the Start it read and
  // returns nil when that one's channel is closed, or an error when its own context ends.
  lemma StopMoves(s: State, k: nat, ok: bool)
    requires Inv(s) && k < |s.stops|
    ensures var t := s.stops[k];
            var l := StepStop(k, ok);
            && (Next(s, l).Some? <==>
                  || t.phase == Reading || t.phase == Cancelling
                  || (t.phase == Awaiting && (ok ==> s.starts[t.target.value].closes == 1)))
            && (Next(s, l).Some? ==>
                  var s' := Next(s, l).value;
                  && |s'.stops| == |s.stops| && s'.stops == s.stops[k := s'.stops[k]] && s'.fields == s.fields
                  && var t' := s'.stops[k];
                  && (t.phase == Reading ==> s'.starts == s.starts && t'.seen == |s.starts| && t'.target == s.fields.current)
                  && (t.phase == Cancelling ==>
                        && s'.starts == s.starts[t.target.value := s.starts[t.target.value].(cancelled := true)]
                        && t' == t.(phase := Awaiting))
                  && (t.phase == Awaiting ==> s'.starts == s.starts && t' == t.(phase := t'.phase))
                  && (t'.phase == ReturnedNil <==> (t.phase == Reading && !s.fields.started) || (t.phase == Awaiting && ok))
                  && (t'.phase == ReturnedError <==> t.phase == Awaiting && !ok))
  {
    assert StopInv(s, s.stops[k]);
    if s.stops[k].target.Some? { assert StartInv(s.starts[s.stops[k].target.value]); }
    hide Delay, Delays;
  }

  // A Start is accepted exactly when none is, and a refused call changes nothing.
  lemma StartMoves(s: State)
    ensures Next(s, CallStart).Some?
    ensures s.fields.started ==> Next(s, CallStart).value == s
    ensures !s.fields.started ==>
              && Next(s, CallStart).value.fields == Fields(true, Some(|s.starts|))
              && Next(s, CallStart).value.starts == s.starts + [Start(Connecting, false, false, 0, INITIAL_BACKOFF, [])]
              && Next(s, CallStart).value.stops == s.stops
    ensures Next(s, CallStop) == Some(s.(stops := s.stops + [Stop(Reading, None, |s.starts|)]))
  {
  }
}
