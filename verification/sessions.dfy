// Refresh sessions: one row per session with a stable id, rotated and blocked by
// concurrent calls that meet on the row lock.
module Sessions {
  import opened Prelude

  type SessionId = nat
  const NIL: SessionId := 0

  // What a signed refresh token carries, and the digest of its text. Digests of
  // different tokens differ.
  datatype Token = Token(id: SessionId, username: string, digest: nat)

  datatype Session = Session(username: string, digest: nat, blocked: bool, expiresAt: int)

  datatype Failure = InvalidSession | SessionIdMismatch | IssueFailed | Cancelled

  datatype Result = Rotated(id: SessionId, consumed: nat, stored: nat) | Failed(error: Failure)

  // What RotateSessionTx is called with; `now` was read before the call.
  datatype Request = Request(token: Token, now: int)

  // The checks under the row lock.
  predicate Acceptable(row: Session, r: Request) {
    !row.blocked && row.username == r.token.username && row.digest == r.token.digest && row.expiresAt > r.now
  }

  function WithToken(row: Session, digest: nat, expiresAt: int): Session {
    row.(digest := digest, expiresAt := expiresAt)
  }

  // ----- The store, one transaction at a time --------------------------------------

  class SessionStore {
    var sessions: map<SessionId, Session>

    constructor ()
      ensures sessions == map[]
    {
      sessions := map[];
    }

    // BlockSession; false when there is no row.
    method BlockSession(id: SessionId) returns (found: bool)
      modifies this
      ensures found <==> id in old(sessions)
      ensures sessions == if found then old(sessions)[id := old(sessions)[id].(blocked := true)] else old(sessions)
    {
      found := id in sessions;
      if found { sessions := sessions[id := sessions[id].(blocked := true)]; }
    }

    // RotateSessionTx with a replacement for `replacementId`; the replacement is
    // only used once every check has passed.
    method RotateSessionTx(r: Request, replacementId: SessionId, digest: nat, expiresAt: int) returns (result: Result)
      modifies this
      ensures var id := r.token.id;
              var passes :=
                && id in old(sessions) && !old(sessions)[id].blocked && old(sessions)[id].username == r.token.username
                && old(sessions)[id].digest == r.token.digest && r.now < old(sessions)[id].expiresAt;
              && (result.Rotated? <==> passes && replacementId == id)
              && (result == Failed(SessionIdMismatch) <==> passes && replacementId != id)
              && (result == Failed(InvalidSession) <==> !passes)
      ensures result.Rotated? ==>
                && result == Rotated(r.token.id, r.token.digest, digest)
                && sessions == old(sessions)[r.token.id := Session(r.token.username, digest, false, expiresAt)]
      ensures result.Failed? ==> sessions == old(sessions)
    {
      if r.token.id !in sessions { return Failed(InvalidSession); }
      var session := sessions[r.token.id];
      if session.blocked || session.username != r.token.username ||
         session.digest != r.token.digest || !(session.expiresAt > r.now)
      {
        return Failed(InvalidSession);
      }
      if replacementId != r.token.id { return Failed(SessionIdMismatch); }
      sessions := sessions[r.token.id := session.(digest := digest, expiresAt := expiresAt)];
      return Rotated(r.token.id, session.digest, digest);
    }
  }

  // ----- Any number of renewals and logouts at once -----------------------------------

  datatype Phase = Locking | Checking | Issuing | Writing | Ending | Done

  datatype Call = Call(
    request: Request,
    phase: Phase,
    row: Option<Session>,       // the locked row as read
    signed: Token,              // the token issued for the replacement
    expiresAt: int,
    result: Result)

  datatype State = State(
    sessions: map<SessionId, Session>,
    locks: map<SessionId, nat>,
    calls: seq<Call>,
    issued: seq<Token>,                       // every refresh token ever signed
    chains: map<SessionId, seq<nat>>,         // digests each row has stored, oldest first
    rotations: seq<Result>)                   // committed rotations, oldest first

  datatype Label =
    | Login(username: string, expiresAt: int)
    | Renew(token: Token, now: int)
    | Step(c: nat, expiresAt: int)
    | Abort(c: nat)
    | Logout(token: Token)

  const INIT := State(map[], map[], [], [], map[], [])

  // A fresh token. The session id of a token signed without one is fresh as well.
  function NewToken(s: State, id: SessionId, username: string): Token {
    Token(if id == NIL then |s.issued| + 1 else id, username, |s.issued|)
  }

  function Set(s: State, c: nat, call: Call): State
    requires c < |s.calls|
  {
    s.(calls := s.calls[c := call])
  }

  function Finish(s: State, c: nat, result: Result): State
    requires c < |s.calls|
  {
    Set(s, c, s.calls[c].(phase := Ending, result := result))
  }

  // GetSessionForUpdate.
  function StepLock(s: State, c: nat): Option<State>
    requires c < |s.calls|
  {
    var id := s.calls[c].request.token.id;
    if id !in s.sessions then Some(Finish(s, c, Failed(InvalidSession)))
    else if id in s.locks then None
    else
      Some(Set(s, c, s.calls[c].(phase := Checking, row := Some(s.sessions[id]))).(locks := s.locks[id := c]))
  }

  function StepCheck(s: State, c: nat): Option<State>
    requires c < |s.calls|
  {
    var call := s.calls[c];
    if call.row.None? then None
    else if Acceptable(call.row.value, call.request) then Some(Set(s, c, call.(phase := Issuing)))
    else Some(Finish(s, c, Failed(InvalidSession)))
  }

  // NewSession signs the replacement under the id of the presented token.
  function StepIssue(s: State, c: nat, expiresAt: int): State
    requires c < |s.calls|
  {
    var call := s.calls[c];
    var token := NewToken(s, call.request.token.id, call.request.token.username);
    var issued := s.(issued := s.issued + [token]);
    if token.id != call.request.token.id then Finish(issued, c, Failed(SessionIdMismatch))
    else Set(issued, c, call.(phase := Writing, signed := token, expiresAt := expiresAt))
  }

  // RotateSession and commit: the row as it is now, with the new digest.
  function StepWrite(s: State, c: nat): Option<State>
    requires c < |s.calls|
  {
    var call := s.calls[c];
    var id := call.request.token.id;
    if call.row.None? || id !in s.sessions || id !in s.chains then None
    else
      var result := Rotated(id, call.row.value.digest, call.signed.digest);
      var done := call.(phase := Done, row := None, result := result);
      Some(Set(s, c, done).(
             sessions := s.sessions[id := WithToken(s.sessions[id], call.signed.digest, call.expiresAt)],
             locks := s.locks - {id},
             chains := s.chains[id := s.chains[id] + [call.signed.digest]],
             rotations := s.rotations + [result]))
  }

  // Rollback.
  function StepEnd(s: State, c: nat): State
    requires c < |s.calls|
  {
    var call := s.calls[c];
    var unlocked := if call.row.Some? then s.(locks := s.locks - {call.request.token.id}) else s;
    Set(unlocked, c, call.(phase := Done, row := None))
  }

  function Advance(s: State, c: nat, expiresAt: int): Option<State>
    requires c < |s.calls|
  {
    match s.calls[c].phase
    case Locking => StepLock(s, c)
    case Checking => StepCheck(s, c)
    case Issuing => Some(StepIssue(s, c, expiresAt))
    case Writing => StepWrite(s, c)
    case Ending => Some(StepEnd(s, c))
    case Done => None
  }

  function Next(s: State, l: Label): Option<State> {
    match l
    case Login(username, expiresAt) =>
      var token := NewToken(s, NIL, username);
      if token.id in s.sessions then None
      else
        Some(s.(sessions := s.sessions[token.id := Session(username, token.digest, false, expiresAt)],
                issued := s.issued + [token],
                chains := s.chains[token.id := [token.digest]]))
    case Renew(token, now) =>
      // Only signed tokens get past verification.
      if token in s.issued then
        Some(s.(calls := s.calls +
               [Call(Request(token, now), Locking, None, token, 0, Failed(Cancelled))]))
      else None
    case Step(c, expiresAt) => if c < |s.calls| then Advance(s, c, expiresAt) else None
    case Abort(c) =>
      // Signing fails, or the client goes away; nothing is committed.
      if c < |s.calls| && s.calls[c].phase != Done && s.calls[c].phase != Ending
      then Some(Finish(s, c, Failed(if s.calls[c].phase == Issuing then IssueFailed else Cancelled)))
      else None
    case Logout(token) =>
      // One UPDATE: it waits for the lock, and blocks the row if there is one.
      if token !in s.issued || token.id in s.locks then None
      else if token.id !in s.sessions then Some(s)
      else Some(s.(sessions := s.sessions[token.id := s.sessions[token.id].(blocked := true)]))
  }

  function Run(ls: seq<Label>): Option<State> {
    if |ls| == 0 then Some(INIT)
    else
      match Run(ls[..|ls| - 1])
      case None => None
      case Some(s) => Next(s, ls[|ls| - 1])
  }

  // ----- The invariant ------------------------------------------------------------------

  predicate NoRepeats(q: seq<nat>) {
    forall i, j :: 0 <= i < j < |q| ==> q[i] != q[j]
  }

  predicate CallInv(s: State, c: nat)
    requires c < |s.calls|
  {
    var call := s.calls[c];
    var id := call.request.token.id;
    && call.request.token in s.issued
    && (call.phase == Checking || call.phase == Issuing || call.phase == Writing ==> call.row.Some?)
    && (call.phase == Locking || call.phase == Done ==> call.row.None?)
    && (call.row.Some? ==>
          && id in s.locks && s.locks[id] == c && id in s.sessions && s.sessions[id] == call.row.value)
    && (call.phase == Issuing || call.phase == Writing ==> Acceptable(call.row.value, call.request))
    && (call.phase == Writing ==>
          && call.signed in s.issued && call.signed.id == id && call.signed.username == call.request.token.username
          && forall i :: i in s.chains ==> call.signed.digest !in s.chains[i])
    && (call.phase == Ending ==> call.result.Failed?)
    && (call.phase == Done && call.result.Rotated? ==>
          call.result in s.rotations && call.result.stored == call.signed.digest
          && call.result.consumed == call.request.token.digest)
  }

  // Digests count up; a token belongs to one user's session.
  ghost predicate TokensInv(s: State) {
    && (forall i :: 0 <= i < |s.issued| ==>
          && s.issued[i].digest == i && s.issued[i].id != NIL && s.issued[i].id <= |s.issued|
          && (s.issued[i].id in s.sessions ==> s.sessions[s.issued[i].id].username == s.issued[i].username))
    && (forall id :: id in s.sessions ==> 1 <= id <= |s.issued|)
  }

  // The stored digest is the end of a chain of digests issued for the row,
  // without repeats.
  ghost predicate ChainsInv(s: State) {
    && s.chains.Keys == s.sessions.Keys
    && (forall id :: id in s.chains ==> ChainInv(s.sessions[id], s.chains[id], s.issued, id))
  }

  predicate ChainInv(row: Session, chain: seq<nat>, issued: seq<Token>, id: SessionId) {
    && |chain| > 0 && NoRepeats(chain) && row.digest == chain[|chain| - 1]
    && (forall k :: 0 <= k < |chain| ==> chain[k] < |issued| && issued[chain[k]].id == id)
  }

  ghost predicate CallsInv(s: State) {
    && (forall id :: id in s.locks ==>
          s.locks[id] < |s.calls| && s.calls[s.locks[id]].row.Some? && s.calls[s.locks[id]].request.token.id == id)
    && (forall c :: 0 <= c < |s.calls| ==> CallInv(s, c))
  }

  predicate HasReplacement(call: Call) {
    call.phase == Writing || (call.phase == Done && call.result.Rotated?)
  }

  // Replacements of different calls differ.
  ghost predicate ReplacementsInv(s: State) {
    && (forall c :: 0 <= c < |s.calls| && HasReplacement(s.calls[c]) ==> s.calls[c].signed.digest < |s.issued|)
    && (forall c, d :: 0 <= c < d < |s.calls| && HasReplacement(s.calls[c]) && HasReplacement(s.calls[d]) ==>
          s.calls[c].signed.digest != s.calls[d].signed.digest)
  }

  // Each committed rotation is one link of its chain, and a different one.
  ghost predicate LinksInv(s: State) {
    && (forall i :: 0 <= i < |s.rotations| ==> s.rotations[i].Rotated? && Link(s, s.rotations[i]))
    && (forall i, j :: 0 <= i < j < |s.rotations| && s.rotations[i].Rotated? && s.rotations[j].Rotated? ==>
          s.rotations[i].stored != s.rotations[j].stored)
  }

  ghost predicate Inv(s: State) {
    TokensInv(s) && ChainsInv(s) && CallsInv(s) && ReplacementsInv(s) && LinksInv(s)
  }

  ghost predicate Link(s: State, r: Result)
    requires r.Rotated?
  {
    r.id in s.chains &&
    exists k :: 0 <= k < |s.chains[r.id]| - 1 && s.chains[r.id][k] == r.consumed && s.chains[r.id][k + 1] == r.stored
  }

  // A chain that grew keeps its links.
  lemma LinkStays(s: State, s': State, r: Result)
    requires r.Rotated? && Link(s, r)
    requires r.id in s'.chains && s.chains[r.id] <= s'.chains[r.id]
    ensures Link(s', r)
  {
    var k :| 0 <= k < |s.chains[r.id]| - 1 && s.chains[r.id][k] == r.consumed && s.chains[r.id][k + 1] == r.stored;
    assert s'.chains[r.id][k] == r.consumed && s'.chains[r.id][k + 1] == r.stored;
  }

  lemma WritingCall(s: State, c: nat)
    requires CallsInv(s) && ChainsInv(s) && c < |s.calls| && s.calls[c].phase == Writing
    ensures StepWrite(s, c).Some?
    ensures var call := s.calls[c];
            var id := call.request.token.id;
            && call.row.Some? && id in s.sessions && id in s.chains && s.sessions[id] == call.row.value
            && id in s.locks && s.locks[id] == c
            && s.sessions[id].digest == call.request.token.digest
            && s.sessions[id].username == call.request.token.username && !s.sessions[id].blocked
            && call.signed in s.issued && call.signed.id == id
            && forall i :: i in s.chains ==> call.signed.digest !in s.chains[i]
  {
    assert CallInv(s, c);
  }

  lemma WriteKeepsLinks(s: State, c: nat)
    requires Inv(s) && c < |s.calls| && s.calls[c].phase == Writing && StepWrite(s, c).Some?
    ensures LinksInv(StepWrite(s, c).value)
  {
    WritingCall(s, c);
    hide CallsInv, TokensInv, ReplacementsInv;
    var s' := StepWrite(s, c).value;
    var id := s.calls[c].request.token.id;
    var n := |s.rotations|;
    var k := |s.chains[id]| - 1;
    assert s'.chains[id][k] == s.chains[id][k] && s'.chains[id][k + 1] == s.calls[c].signed.digest;
    assert Link(s', s'.rotations[n]);
    forall i | 0 <= i < n
      ensures s'.rotations[i].Rotated? && Link(s', s'.rotations[i])
      ensures s'.rotations[i].stored != s.calls[c].signed.digest
    {
      LinkStays(s, s', s.rotations[i]);
      assert s.rotations[i].stored in s.chains[s.rotations[i].id];
    }
    hide Link;
  }

  lemma WriteKeepsChains(s: State, c: nat)
    requires Inv(s) && c < |s.calls| && s.calls[c].phase == Writing && StepWrite(s, c).Some?
    ensures ChainsInv(StepWrite(s, c).value) && TokensInv(StepWrite(s, c).value)
  {
    WritingCall(s, c);
    hide CallsInv, ReplacementsInv, LinksInv;
    var s' := StepWrite(s, c).value;
    assert TokensInv(s') by { hide ChainsInv; }
    var call := s.calls[c];
    var own := call.request.token.id;
    ChainGrows(s.sessions[own], s.chains[own], s.issued, own, call.signed.digest, call.expiresAt);
    hide ChainInv, TokensInv;
    forall id | id in s'.chains
      ensures ChainInv(s'.sessions[id], s'.chains[id], s'.issued, id)
    {
      assert ChainInv(s.sessions[id], s.chains[id], s.issued, id);
    }
  }

  lemma ChainGrows(row: Session, chain: seq<nat>, issued: seq<Token>, id: SessionId, digest: nat, expiresAt: int)
    requires ChainInv(row, chain, issued, id)
    requires digest < |issued| && issued[digest].id == id && digest !in chain
    ensures ChainInv(WithToken(row, digest, expiresAt), chain + [digest], issued, id)
  {
  }

  lemma WriteKeepsCalls(s: State, c: nat)
    requires Inv(s) && c < |s.calls| && s.calls[c].phase == Writing && StepWrite(s, c).Some?
    ensures CallsInv(StepWrite(s, c).value)
  {
    WritingCall(s, c);
    var s' := StepWrite(s, c).value;
    forall d | 0 <= d < |s'.calls|
      ensures CallInv(s', d)
    {
      assert CallInv(s, d);
      if d != c && s.calls[d].phase == Writing { OtherReplacement(s, c, d); }
    }
  }

  lemma OtherReplacement(s: State, c: nat, d: nat)
    requires ReplacementsInv(s) && c < |s.calls| && d < |s.calls| && c != d
    requires HasReplacement(s.calls[c]) && HasReplacement(s.calls[d])
    ensures s.calls[c].signed.digest != s.calls[d].signed.digest
  {
    if d < c { assert s.calls[d].signed.digest != s.calls[c].signed.digest; }
  }

  lemma WriteKeeps(s: State, c: nat)
    requires Inv(s) && c < |s.calls| && s.calls[c].phase == Writing && StepWrite(s, c).Some?
    ensures Inv(StepWrite(s, c).value)
  {
    WriteKeepsLinks(s, c);
    WriteKeepsChains(s, c);
    WriteKeepsCalls(s, c);
    hide TokensInv, ChainsInv, LinksInv, CallsInv;
  }

  lemma LoginKeeps(s: State, username: string, expiresAt: int)
    requires Inv(s) && Next(s, Login(username, expiresAt)).Some?
    ensures Inv(Next(s, Login(username, expiresAt)).value)
  {
    LoginKeepsTokens(s, username, expiresAt);
    LoginKeepsChains(s, username, expiresAt);
    LoginKeepsLinks(s, username, expiresAt);
    LoginKeepsCalls(s, username, expiresAt);
    hide CallsInv, TokensInv, ChainsInv, LinksInv;
  }

  lemma LoginKeepsTokens(s: State, username: string, expiresAt: int)
    requires TokensInv(s) && Next(s, Login(username, expiresAt)).Some?
    ensures TokensInv(Next(s, Login(username, expiresAt)).value)
  {
  }

  lemma LoginKeepsChains(s: State, username: string, expiresAt: int)
    requires TokensInv(s) && ChainsInv(s) && Next(s, Login(username, expiresAt)).Some?
    ensures ChainsInv(Next(s, Login(username, expiresAt)).value)
  {
    LoginIsNew(s, username);
    hide TokensInv;
    var s' := Next(s, Login(username, expiresAt)).value;
    var added := NewToken(s, NIL, username).id;
    forall id | id in s'.chains
      ensures ChainInv(s'.sessions[id], s'.chains[id], s'.issued, id)
    {
      if id != added { assert ChainInv(s.sessions[id], s.chains[id], s.issued, id); }
    }
    hide ChainInv;
  }

  lemma LoginKeepsLinks(s: State, username: string, expiresAt: int)
    requires LinksInv(s) && ChainsInv(s) && Next(s, Login(username, expiresAt)).Some?
    ensures LinksInv(Next(s, Login(username, expiresAt)).value)
  {
    var s' := Next(s, Login(username, expiresAt)).value;
    forall i | 0 <= i < |s'.rotations|
      ensures s'.rotations[i].Rotated? && Link(s', s'.rotations[i])
    {
      LinkStays(s, s', s.rotations[i]);
    }
    hide Link;
  }

  lemma LoginKeepsCalls(s: State, username: string, expiresAt: int)
    requires Inv(s) && Next(s, Login(username, expiresAt)).Some?
    ensures CallsInv(Next(s, Login(username, expiresAt)).value)
  {
    hide LinksInv, TokensInv, ChainsInv;
    var s' := Next(s, Login(username, expiresAt)).value;
    forall d | 0 <= d < |s'.calls|
      ensures CallInv(s', d)
    {
      assert CallInv(s, d);
    }
  }

  // Steps that neither log in nor write leave the chains alone.
  lemma OtherStepsKeepChains(s: State, l: Label)
    requires Inv(s) && Next(s, l).Some? && !l.Login?
    requires !(l.Step? && s.calls[l.c].phase == Writing)
    ensures var s' := Next(s, l).value; TokensInv(s') && ChainsInv(s') && LinksInv(s')
  {
    var s' := Next(s, l).value;
    hide CallsInv, ReplacementsInv, Next;
    OtherStepsChains(s, l);
    SignedTokens(s, l);
    hide TokensInv;
    forall i | 0 <= i < |s'.rotations|
      ensures s'.rotations[i].Rotated? && Link(s', s'.rotations[i])
    {
      LinkStays(s, s', s.rotations[i]);
    }
    hide Link;
  }

  lemma OtherStepsChains(s: State, l: Label)
    requires Next(s, l).Some? && !l.Login?
    requires !(l.Step? && s.calls[l.c].phase == Writing)
    ensures var s' := Next(s, l).value;
            && s'.chains == s.chains && s'.rotations == s.rotations && s'.sessions.Keys == s.sessions.Keys
            && s.issued <= s'.issued
            && forall id :: id in s.sessions ==>
                 s'.sessions[id].digest == s.sessions[id].digest && s'.sessions[id].username == s.sessions[id].username
  {
  }

  // A replacement is signed for the session, and the user, of the token presented.
  lemma SignedTokens(s: State, l: Label)
    requires Inv(s) && Next(s, l).Some? && !l.Login?
    requires !(l.Step? && s.calls[l.c].phase == Writing)
    ensures TokensInv(Next(s, l).value)
  {
    hide LinksInv, ReplacementsInv, ChainsInv;
    if l.Step? && s.calls[l.c].phase == Issuing { assert CallInv(s, l.c); }
  }

  lemma IssueKeepsCalls(s: State, c: nat, expiresAt: int)
    requires Inv(s) && c < |s.calls| && s.calls[c].phase == Issuing
    ensures CallsInv(StepIssue(s, c, expiresAt)) && ReplacementsInv(StepIssue(s, c, expiresAt))
  {
    hide LinksInv;
    assert CallInv(s, c);
    assert forall i, k :: i in s.chains && 0 <= k < |s.chains[i]| ==> s.chains[i][k] < |s.issued|;
    hide ChainsInv, TokensInv;
    var s' := StepIssue(s, c, expiresAt);
    forall d | 0 <= d < |s'.calls|
      ensures CallInv(s', d)
    {
      assert CallInv(s, c) && CallInv(s, d);
    }
  }

  lemma LockKeepsCalls(s: State, c: nat)
    requires Inv(s) && c < |s.calls| && s.calls[c].phase == Locking && StepLock(s, c).Some?
    ensures CallsInv(StepLock(s, c).value) && ReplacementsInv(StepLock(s, c).value)
  {
    if s.calls[c].request.token.id !in s.sessions {
      hide CallsInv, ReplacementsInv;
      FinishKeepsCalls(s, c, InvalidSession);
    } else {
      LockTaken(s, c);
      hide LinksInv, ChainsInv, TokensInv, CallsInv;
    }
  }

  lemma LockTaken(s: State, c: nat)
    requires Inv(s) && c < |s.calls| && s.calls[c].phase == Locking
    requires s.calls[c].request.token.id in s.sessions && StepLock(s, c).Some?
    ensures CallsInv(StepLock(s, c).value)
  {
    hide LinksInv, ChainsInv, TokensInv, ReplacementsInv;
    var s' := StepLock(s, c).value;
    forall d | 0 <= d < |s'.calls|
      ensures CallInv(s', d)
    {
      assert CallInv(s, d);
    }
    hide CallInv;
  }

  lemma EndKeepsCalls(s: State, c: nat)
    requires Inv(s) && c < |s.calls| && s.calls[c].phase == Ending
    ensures CallsInv(StepEnd(s, c)) && ReplacementsInv(StepEnd(s, c))
  {
    hide LinksInv, ChainsInv, TokensInv;
    var s' := StepEnd(s, c);
    assert CallInv(s, c);
    assert ReplacementsInv(s') by { hide CallsInv; }
    forall d | 0 <= d < |s'.calls|
      ensures CallInv(s', d)
    {
      hide ReplacementsInv;
      assert CallInv(s, d);
    }
    hide ReplacementsInv;
  }

  lemma FinishKeepsCalls(s: State, c: nat, error: Failure)
    requires Inv(s) && c < |s.calls| && s.calls[c].phase != Done && s.calls[c].phase != Ending
    ensures CallsInv(Finish(s, c, Failed(error))) && ReplacementsInv(Finish(s, c, Failed(error)))
  {
    hide LinksInv, ChainsInv, TokensInv;
    var s' := Finish(s, c, Failed(error));
    forall d | 0 <= d < |s'.calls|
      ensures CallInv(s', d)
    {
      assert CallInv(s, c) && CallInv(s, d);
    }
  }

  lemma CheckKeepsCalls(s: State, c: nat)
    requires Inv(s) && c < |s.calls| && s.calls[c].phase == Checking && StepCheck(s, c).Some?
    ensures CallsInv(StepCheck(s, c).value) && ReplacementsInv(StepCheck(s, c).value)
  {
    assert CallInv(s, c);
    if !Acceptable(s.calls[c].row.value, s.calls[c].request) {
      FinishKeepsCalls(s, c, InvalidSession);
    } else {
      hide LinksInv, ChainsInv, TokensInv;
      var s' := StepCheck(s, c).value;
      forall d | 0 <= d < |s'.calls|
        ensures CallInv(s', d)
      {
        assert CallInv(s, c) && CallInv(s, d);
      }
    }
  }

  // A logout waits for the lock, so no running call sees the row change.
  lemma ArrivalsKeepCalls(s: State, l: Label)
    requires Inv(s) && Next(s, l).Some? && (l.Renew? || l.Logout?)
    ensures CallsInv(Next(s, l).value) && ReplacementsInv(Next(s, l).value)
  {
    hide LinksInv, ChainsInv, TokensInv;
    var s' := Next(s, l).value;
    forall d | 0 <= d < |s'.calls|
      ensures CallInv(s', d)
    {
      if d < |s.calls| { assert CallInv(s, d); }
    }
  }

  lemma OtherStepsKeepCalls(s: State, l: Label)
    requires Inv(s) && Next(s, l).Some? && !l.Login?
    requires !(l.Step? && s.calls[l.c].phase == Writing)
    ensures CallsInv(Next(s, l).value) && ReplacementsInv(Next(s, l).value)
  {
    hide Inv, CallsInv, ReplacementsInv, StepLock, StepCheck, StepIssue, StepEnd, Finish;
    match l
    case Step(c, expiresAt) =>
      match s.calls[c].phase {
        case Locking => LockKeepsCalls(s, c);
        case Checking => CheckKeepsCalls(s, c);
        case Issuing => IssueKeepsCalls(s, c, expiresAt);
        case Ending => EndKeepsCalls(s, c);
        case _ =>
      }
    case Abort(c) =>
      FinishKeepsCalls(s, c, if s.calls[c].phase == Issuing then IssueFailed else Cancelled);
    case _ => ArrivalsKeepCalls(s, l);
  }

  lemma NextKeeps(s: State, l: Label)
    requires Inv(s) && Next(s, l).Some?
    ensures Inv(Next(s, l).value)
  {
    hide TokensInv, ChainsInv, LinksInv, CallsInv, ReplacementsInv;
    match l
    case Login(username, expiresAt) =>
      assert l == Login(username, expiresAt);
      LoginKeeps(s, username, expiresAt);
    case Step(c, _) =>
      if s.calls[c].phase == Writing {
        WriteKeeps(s, c);
      } else {
        OtherStepsKeepChains(s, l);
        OtherStepsKeepCalls(s, l);
      }
    case _ =>
      OtherStepsKeepChains(s, l);
      OtherStepsKeepCalls(s, l);
  }

  lemma {:induction false} RunInv(ls: seq<Label>)
    requires Run(ls).Some?
    ensures Inv(Run(ls).value)
  {
    if |ls| > 0 {
      RunInv(ls[..|ls| - 1]);
      hide Inv, Next;
      NextKeeps(Run(ls[..|ls| - 1]).value, ls[|ls| - 1]);
    }
  }

  // ----- Each renewal is one transaction -------------------------------------------------------

  // However calls interleave, a renewal decides as if alone: it commits on a row that
  // passes every check at that moment, changing that row and nothing else, and it is
  // refused only when at that moment the row does not pass or is not there.
  lemma DecidesLikeOneTransaction(ls: seq<Label>, c: nat, expiresAt: int)
    requires Run(ls).Some? && c < |Run(ls).value.calls| && Next(Run(ls).value, Step(c, expiresAt)).Some?
    ensures DecidedAtomically(Run(ls).value, Next(Run(ls).value, Step(c, expiresAt)).value, c)
  {
    RunInv(ls);
    hide Run, Next, Inv, DecidedAtomically;
    DecidedNow(Run(ls).value, c, expiresAt);
  }

  lemma DecidedNow(s: State, c: nat, expiresAt: int)
    requires Inv(s) && c < |s.calls| && Next(s, Step(c, expiresAt)).Some?
    ensures DecidedAtomically(s, Next(s, Step(c, expiresAt)).value, c)
  {
    assert CallInv(s, c);
    if s.calls[c].phase == Writing { WritingCall(s, c); }
    SignsForItsSession(s, c);
    hide LinksInv, ReplacementsInv, ChainsInv, TokensInv, CallsInv;
  }

  // A row as the token says, not blocked, and not expired when the renewal was asked for.
  ghost predicate Passes(row: Session, r: Request) {
    row == Session(r.token.username, r.token.digest, false, row.expiresAt) && r.now < row.expiresAt
  }

  ghost predicate DecidedAtomically(s: State, s': State, c: nat)
    requires c < |s.calls|
  {
    var before := s.calls[c];
    var id := before.request.token.id;
    && |s'.calls| == |s.calls| && s'.calls[c].request == before.request
    && (s'.calls[c].phase == Done && s'.calls[c].result.Rotated? ==>
          && before.phase == Writing
          && id in s.sessions && Passes(s.sessions[id], before.request)
          && s'.calls[c].result == Rotated(id, before.request.token.digest, before.signed.digest)
          && s'.sessions ==
               s.sessions[id := Session(before.request.token.username, before.signed.digest, false, before.expiresAt)])
    && (s'.calls[c].phase == Ending ==>
          && s'.calls[c].result == Failed(InvalidSession)
          && s'.sessions == s.sessions
          && (id !in s.sessions || !Passes(s.sessions[id], before.request)))
    && (!(s'.calls[c].phase == Done && before.phase == Writing) ==> s'.sessions == s.sessions)
  }

  lemma SignsForItsSession(s: State, c: nat)
    requires Inv(s) && c < |s.calls|
    ensures s.calls[c].request.token.id != NIL
  {
    hide LinksInv, ReplacementsInv, ChainsInv;
    assert CallInv(s, c);
  }

  // Step i is one of call c, in the given phase.
  ghost predicate StepsFrom(ls: seq<Label>, i: nat, c: nat, phase: Phase) {
    && i < |ls| && ls[i].Step? && ls[i].c == c && Run(ls[..i]).Some?
    && c < |Run(ls[..i]).value.calls| && Run(ls[..i]).value.calls[c].phase == phase
  }

  // Every renewal that has committed did so at one step, on a row that had not expired
  // when it was asked for, and left there the replacement and the expiry that one earlier
  // step of it had issued.
  lemma RotatedExactly(ls: seq<Label>, c: nat) returns (i: nat, j: nat)
    requires Run(ls).Some? && c < |Run(ls).value.calls|
    requires Run(ls).value.calls[c].phase == Done && Run(ls).value.calls[c].result.Rotated?
    ensures StepsFrom(ls, i, c, Writing) && Run(ls[..i + 1]).Some? && j < i && StepsFrom(ls, j, c, Issuing)
    ensures var s, s' := Run(ls[..i]).value, Run(ls[..i + 1]).value;
            var r := s.calls[c].request;
            var id := r.token.id;
            && id in s.sessions && Passes(s.sessions[id], r)
            && Run(ls).value.calls[c].request == r
            && Run(ls).value.calls[c].result == Rotated(id, r.token.digest, |Run(ls[..j]).value.issued|)
            && s'.sessions ==
                 s.sessions[id := Session(r.token.username, |Run(ls[..j]).value.issued|, false, ls[j].expiresAt)]
  {
    i := CommittedAt(ls, c);
    j := IssuedAt(ls[..i], c);
    assert ls[..i][..j] == ls[..j];
    assert ls[..i + 1][..i] == ls[..i];
    DecidesLikeOneTransaction(ls[..i], c, ls[i].expiresAt);
    hide Run;
  }

  lemma OnlyItsStepsMove(s: State, l: Label, c: nat)
    requires Next(s, l).Some? && c < |Next(s, l).value.calls|
    ensures c >= |s.calls| ==> Next(s, l).value.calls[c].phase == Locking
    ensures c < |s.calls| ==>
              var call, call' := s.calls[c], Next(s, l).value.calls[c];
              && call'.request == call.request
              && (call'.phase == Done && call'.result.Rotated? ==>
                    || (call.phase == Done && call.result == call'.result)
                    || (l.Step? && l.c == c && call.phase == Writing)
                    || (call.phase == Ending && call.result == call'.result))
              && (call'.phase == Writing ==>
                    || (call.phase == Writing && call.signed == call'.signed && call.expiresAt == call'.expiresAt)
                    || (&& l.Step? && l.c == c && call.phase == Issuing
                        && call'.signed.digest == |s.issued| && call'.expiresAt == l.expiresAt))
              && (call.phase == Done ==> call' == call)
  {
  }

  lemma {:induction false} CommittedAt(ls: seq<Label>, c: nat) returns (i: nat)
    requires Run(ls).Some? && c < |Run(ls).value.calls|
    requires Run(ls).value.calls[c].phase == Done && Run(ls).value.calls[c].result.Rotated?
    ensures StepsFrom(ls, i, c, Writing) && Run(ls[..i + 1]).Some?
    ensures c < |Run(ls[..i + 1]).value.calls| && Run(ls[..i + 1]).value.calls[c] == Run(ls).value.calls[c]
    ensures Run(ls[..i]).value.calls[c].request == Run(ls).value.calls[c].request
    decreases |ls|
  {
    var n := |ls| - 1;
    assert |ls| > 0;
    var s := Run(ls[..n]).value;
    assert Next(s, ls[n]) == Run(ls);
    OnlyItsStepsMove(s, ls[n], c);
    EndedIsNoSuccess(ls[..n], c);
    hide Next;
    assert ls[..n + 1] == ls;
    if s.calls[c].phase == Writing {
      i := n;
    } else {
      i := CommittedAt(ls[..n], c);
      assert ls[..n][..i] == ls[..i] && ls[..n][..i + 1] == ls[..i + 1];
    }
  }

  lemma EndedIsNoSuccess(ls: seq<Label>, c: nat)
    requires Run(ls).Some?
    ensures c < |Run(ls).value.calls| && Run(ls).value.calls[c].phase == Ending ==> Run(ls).value.calls[c].result.Failed?
  {
    RunInv(ls);
    hide TokensInv, ChainsInv, ReplacementsInv, LinksInv;
    if c < |Run(ls).value.calls| { assert CallInv(Run(ls).value, c); }
  }

  lemma {:induction false} IssuedAt(ls: seq<Label>, c: nat) returns (j: nat)
    requires Run(ls).Some? && c < |Run(ls).value.calls| && Run(ls).value.calls[c].phase == Writing
    ensures StepsFrom(ls, j, c, Issuing)
    ensures Run(ls).value.calls[c].signed.digest == |Run(ls[..j]).value.issued|
    ensures Run(ls).value.calls[c].expiresAt == ls[j].expiresAt
    decreases |ls|
  {
    var n := |ls| - 1;
    assert |ls| > 0;
    var s := Run(ls[..n]).value;
    assert Next(s, ls[n]) == Run(ls);
    OnlyItsStepsMove(s, ls[n], c);
    hide Next;
    if s.calls[c].phase == Writing {
      j := IssuedAt(ls[..n], c);
      assert ls[..n][..j] == ls[..j];
    } else {
      j := n;
    }
  }

  // ----- What the chain promises -----------------------------------------------------------

  // The digests a session has stored never repeat, the row holds the last of them,
  // and every committed rotation replaced one by the next.
  lemma ChainsArePaths(ls: seq<Label>, id: SessionId)
    requires Run(ls).Some? && id in Run(ls).value.sessions
    ensures var s := Run(ls).value;
            && id in s.chains && |s.chains[id]| > 0 && NoRepeats(s.chains[id])
            && s.sessions[id].digest == s.chains[id][|s.chains[id]| - 1]
            && (forall i :: 0 <= i < |s.rotations| ==> s.rotations[i].Rotated? && Link(s, s.rotations[i]))
  {
    RunInv(ls);
    hide CallsInv, TokensInv, ReplacementsInv;
  }

  // A digest is consumed by at most one committed rotation.
  lemma ConsumedOnce(ls: seq<Label>, i: nat, j: nat)
    requires Run(ls).Some? && i < j < |Run(ls).value.rotations|
    ensures var s := Run(ls).value;
            s.rotations[i].Rotated? && s.rotations[j].Rotated? && s.rotations[i].consumed != s.rotations[j].consumed
  {
    RunInv(ls);
    var s := Run(ls).value;
    LinksDiffer(s, i, j);
  }

  lemma LinksDiffer(s: State, i: nat, j: nat)
    requires LinksInv(s) && ChainsInv(s) && i < j < |s.rotations|
    ensures s.rotations[i].Rotated? && s.rotations[j].Rotated?
    ensures s.rotations[i].consumed != s.rotations[j].consumed
  {
    var a, b := s.rotations[i], s.rotations[j];
    assert Link(s, a) && Link(s, b);
    var k :| 0 <= k < |s.chains[a.id]| - 1 && s.chains[a.id][k] == a.consumed && s.chains[a.id][k + 1] == a.stored;
    var m :| 0 <= m < |s.chains[b.id]| - 1 && s.chains[b.id][m] == b.consumed && s.chains[b.id][m + 1] == b.stored;
    assert a.stored != b.stored;
    assert a.id == b.id ==> k != m && s.chains[a.id][k] != s.chains[a.id][m];
    assert s.issued[a.consumed].id == a.id && s.issued[b.consumed].id == b.id;
  }

  lemma SameConsumedSameRotation(s: State, i: nat, j: nat)
    requires LinksInv(s) && ChainsInv(s) && i < |s.rotations| && j < |s.rotations|
    requires s.rotations[i].Rotated? && s.rotations[j].Rotated? && s.rotations[i].consumed == s.rotations[j].consumed
    ensures i == j
  {
    hide LinksInv, ChainsInv;
    if i < j { LinksDiffer(s, i, j); }
    if j < i { LinksDiffer(s, j, i); }
  }

  lemma SameReplacementSameCall(s: State, c: nat, d: nat)
    requires ReplacementsInv(s) && c < |s.calls| && d < |s.calls|
    requires HasReplacement(s.calls[c]) && HasReplacement(s.calls[d])
    requires s.calls[c].signed.digest == s.calls[d].signed.digest
    ensures c == d
  {
    if c != d { OtherReplacement(s, c, d); }
  }

  // Of all the calls that present one token, at most one succeeds.
  lemma OneRenewalPerToken(ls: seq<Label>, c: nat, d: nat)
    requires Run(ls).Some? && c < |Run(ls).value.calls| && d < |Run(ls).value.calls|
    requires Run(ls).value.calls[c].phase == Done && Run(ls).value.calls[c].result.Rotated?
    requires Run(ls).value.calls[d].phase == Done && Run(ls).value.calls[d].result.Rotated?
    requires Run(ls).value.calls[c].request.token == Run(ls).value.calls[d].request.token
    ensures c == d
  {
    RunInv(ls);
    var s := Run(ls).value;
    assert CallInv(s, c) && CallInv(s, d);
    var i :| 0 <= i < |s.rotations| && s.rotations[i] == s.calls[c].result;
    var j :| 0 <= j < |s.rotations| && s.rotations[j] == s.calls[d].result;
    hide CallsInv, TokensInv, ReplacementsInv, CallInv, LinksInv, ChainsInv;
    SameConsumedSameRotation(s, i, j);
    SameReplacementSameCall(s, c, d);
  }

  // ----- Blocking ------------------------------------------------------------------------

  // Once a session is blocked its row, and with it its chain, never changes again.
  ghost predicate Frozen(s: State, s': State, id: SessionId) {
    id in s.sessions && id in s'.sessions && id in s.chains && id in s'.chains
    && s'.sessions[id] == s.sessions[id] && s'.chains[id] == s.chains[id]
  }

  lemma BlockedStays(s: State, l: Label, id: SessionId)
    requires Inv(s) && Next(s, l).Some? && id in s.sessions && s.sessions[id].blocked
    ensures Frozen(s, Next(s, l).value, id)
    ensures Next(s, l).value.sessions[id].blocked
  {
    hide LinksInv, ReplacementsInv, TokensInv;
    if l.Step? && s.calls[l.c].phase == Writing { WritingCall(s, l.c); }
    if l.Login? { LoginIsNew(s, l.username); }
    hide CallsInv;
  }

  lemma LoginIsNew(s: State, username: string)
    requires TokensInv(s)
    ensures NewToken(s, NIL, username).id !in s.sessions
  {
  }

  lemma {:induction false} RunPrefix(ls: seq<Label>, more: seq<Label>)
    requires Run(ls + more).Some?
    ensures Run(ls).Some?
  {
    if |more| == 0 {
      assert ls + more == ls;
    } else {
      assert (ls + more)[..|ls + more| - 1] == ls + more[..|more| - 1];
      RunPrefix(ls, more[..|more| - 1]);
    }
  }

  lemma {:induction false} BlockedForever(ls: seq<Label>, more: seq<Label>, id: SessionId)
    requires Run(ls + more).Some? && Run(ls).Some?
    requires id in Run(ls).value.sessions && Run(ls).value.sessions[id].blocked
    ensures Frozen(Run(ls).value, Run(ls + more).value, id)
  {
    hide Inv, Next;
    RunInv(ls);
    if |more| == 0 {
      assert ls + more == ls;
      HasChain(Run(ls).value, id);
    } else {
      var shorter := more[..|more| - 1];
      assert (ls + more)[..|ls + more| - 1] == ls + shorter;
      assert (ls + more)[|ls + more| - 1] == more[|more| - 1];
      RunPrefix(ls, shorter);
      RunPrefix(ls + shorter, [more[|more| - 1]]);
      assert ls + shorter + [more[|more| - 1]] == ls + more;
      BlockedForever(ls, shorter, id);
      RunInv(ls + shorter);
      BlockedStays(Run(ls + shorter).value, more[|more| - 1], id);
    }
  }

  lemma HasChain(s: State, id: SessionId)
    requires Inv(s) && id in s.sessions
    ensures id in s.chains
  {
  }

  // Logging out with any token ever issued for a session, even one long rotated
  // away, blocks the session: from then on the chain is at its end.
  lemma LogoutEndsChain(ls: seq<Label>, token: Token, more: seq<Label>)
    requires Run(ls + [Logout(token)] + more).Some? && Run(ls + [Logout(token)]).Some?
    requires Run(ls).Some? && token.id in Run(ls).value.sessions
    ensures var s, s' := Run(ls).value, Run(ls + [Logout(token)] + more).value;
            && token.id in s'.sessions && s'.sessions[token.id].blocked
            && token.id in s.chains && token.id in s'.chains && s'.chains[token.id] == s.chains[token.id]
  {
    hide Inv;
    assert (ls + [Logout(token)])[..|ls|] == ls;
    RunInv(ls);
    HasChain(Run(ls).value, token.id);
    BlockedForever(ls + [Logout(token)], more, token.id);
  }

  // Id and user of a session never change.
  lemma OwnerFixed(s: State, l: Label, id: SessionId)
    requires Inv(s) && Next(s, l).Some? && id in s.sessions
    ensures id in Next(s, l).value.sessions && Next(s, l).value.sessions[id].username == s.sessions[id].username
    ensures id in s.chains && id in Next(s, l).value.chains && s.chains[id] <= Next(s, l).value.chains[id]
  {
    hide LinksInv, ReplacementsInv, CallsInv, ChainInv;
    if l.Login? {
      LoginIsNew(s, l.username);
    } else if l.Step? && s.calls[l.c].phase == Writing {
      hide TokensInv;
    } else {
      OtherStepsChains(s, l);
      hide Next, TokensInv;
    }
  }

  // The replacement of a renewal always carries the id of its session.
  lemma NeverMismatched(ls: seq<Label>, c: nat)
    requires Run(ls).Some? && c < |Run(ls).value.calls|
    ensures Run(ls).value.calls[c].request.token.id != NIL
    ensures Run(ls).value.calls[c].phase == Issuing ==>
              var call := Run(ls).value.calls[c];
              NewToken(Run(ls).value, call.request.token.id, call.request.token.username).id == call.request.token.id
  {
    RunInv(ls);
    hide LinksInv, ReplacementsInv, ChainsInv;
    assert CallInv(Run(ls).value, c);
  }

  // ----- What can happen ---------------------------------------------------------------------

  // Every step that can be taken goes on from every run.
  lemma RunGoesOn(ls: seq<Label>, l: Label)
    requires Run(ls).Some?
    ensures Run([]) == Some(INIT) && Run(ls + [l]) == Next(Run(ls).value, l)
  {
    assert (ls + [l])[..|ls|] == ls;
  }

  // A login opens a new session, not blocked, with a token nobody has seen.
  lemma LoginMoves(ls: seq<Label>, username: string, expiresAt: int)
    requires Run(ls).Some?
    ensures var s := Run(ls).value;
            var token := Token(|s.issued| + 1, username, |s.issued|);
            && Next(s, Login(username, expiresAt)).Some? && token.id !in s.sessions
            && (forall t :: t in s.issued ==> t.digest != token.digest)
            && var s' := Next(s, Login(username, expiresAt)).value;
               && s'.sessions == s.sessions[token.id := Session(username, token.digest, false, expiresAt)]
               && s'.issued == s.issued + [token] && s'.calls == s.calls && s'.locks == s.locks
  {
    RunInv(ls);
    hide ChainsInv, CallsInv, ReplacementsInv, LinksInv;
  }

  // A token that was issued can be presented at any time; a logout with it blocks its
  // session as soon as no renewal holds the row.
  lemma TokenMoves(s: State, token: Token, now: int)
    ensures Next(s, Renew(token, now)).Some? <==> token in s.issued
    ensures Next(s, Renew(token, now)).Some? ==>
              var s' := Next(s, Renew(token, now)).value;
              && |s'.calls| == |s.calls| + 1 && s' == s.(calls := s'.calls) && s'.calls[..|s.calls|] == s.calls
              && s'.calls[|s.calls|].request == Request(token, now) && s'.calls[|s.calls|].phase == Locking
    ensures Next(s, Logout(token)).Some? <==> token in s.issued && token.id !in s.locks
    ensures Next(s, Logout(token)).Some? ==>
              Next(s, Logout(token)).value ==
              s.(sessions := if token.id !in s.sessions then s.sessions
                             else s.sessions[token.id := s.sessions[token.id].(blocked := true)])
  {
  }

  // A renewal can be given up until it has ended, and then nothing of it is kept.
  lemma AbortMoves(s: State, c: nat)
    ensures Next(s, Abort(c)).Some? <==> c < |s.calls| && s.calls[c].phase != Done && s.calls[c].phase != Ending
    ensures Next(s, Abort(c)).Some? ==>
              var s' := Next(s, Abort(c)).value;
              && |s'.calls| == |s.calls| && s' == s.(calls := s.calls[c := s'.calls[c]])
              && s'.calls[c] == s.calls[c].(phase := Ending, result := s'.calls[c].result)
              && s'.calls[c].result == Failed(if s.calls[c].phase == Issuing then IssueFailed else Cancelled)
  {
  }

  // How many steps a call has left.
  function Left(call: Call): nat {
    match call.phase
    case Locking => 4
    case Checking => 3
    case Issuing => 2
    case Writing => 1
    case Ending => 1
    case Done => 0
  }

  // A call that holds its row or has not far to go can step, and each step is one less.
  lemma CanStep(s: State, c: nat, expiresAt: int)
    requires Inv(s) && c < |s.calls| && s.calls[c].phase != Done
    requires s.calls[c].phase == Locking ==> s.calls[c].request.token.id !in s.locks
    ensures Next(s, Step(c, expiresAt)).Some?
    ensures var s' := Next(s, Step(c, expiresAt)).value;
            && |s'.calls| == |s.calls| && Left(s'.calls[c]) < Left(s.calls[c])
            && (forall d :: 0 <= d < |s.calls| && d != c ==> s'.calls[d] == s.calls[d])
  {
    assert CallInv(s, c);
    if s.calls[c].phase == Writing { WritingCall(s, c); }
    hide TokensInv, ChainsInv, ReplacementsInv, LinksInv, CallsInv;
  }

  function LeftInAll(calls: seq<Call>): nat {
    if |calls| == 0 then 0 else LeftInAll(calls[..|calls| - 1]) + Left(calls[|calls| - 1])
  }

  lemma {:induction false} LeftInAllDrops(before: seq<Call>, after: seq<Call>, c: nat)
    requires |after| == |before| && c < |before| && Left(after[c]) < Left(before[c])
    requires forall d :: 0 <= d < |before| && d != c ==> after[d] == before[d]
    ensures LeftInAll(after) < LeftInAll(before)
  {
    hide Left;
    var n := |before| - 1;
    if c < n {
      LeftInAllDrops(before[..n], after[..n], c);
    } else {
      assert after[..n] == before[..n];
    }
  }

  // While a call is not done, it or the call that holds its row can step.
  lemma SomeoneCanStep(s: State, c: nat) returns (d: nat)
    requires Inv(s) && c < |s.calls| && s.calls[c].phase != Done
    ensures d < |s.calls| && s.calls[d].phase != Done
    ensures s.calls[d].phase == Locking ==> s.calls[d].request.token.id !in s.locks
  {
    hide TokensInv, ChainsInv, ReplacementsInv, LinksInv;
    d := c;
    var id := s.calls[c].request.token.id;
    if s.calls[c].phase == Locking && id in s.locks {
      d := s.locks[id];
      assert CallInv(s, d);
    }
  }

  // Nothing waits for ever: from every state some continuation of no more than four steps
  // for each call ends every call.
  lemma {:induction false} EveryCallCanFinish(ls: seq<Label>, expiresAt: int) returns (more: seq<Label>)
    requires Run(ls).Some?
    ensures |more| <= LeftInAll(Run(ls).value.calls) && Run(ls + more).Some?
    ensures |Run(ls + more).value.calls| == |Run(ls).value.calls|
    ensures forall c :: 0 <= c < |Run(ls + more).value.calls| ==> Run(ls + more).value.calls[c].phase == Done
    decreases LeftInAll(Run(ls).value.calls)
  {
    hide Run, Next, LeftInAll;
    more := [];
    assert ls + more == ls;
    if c :| 0 <= c < |Run(ls).value.calls| && Run(ls).value.calls[c].phase != Done {
      var l := OneStepLess(ls, c, expiresAt);
      var rest := EveryCallCanFinish(ls + [l], expiresAt);
      more := [l] + rest;
      assert ls + more == ls + [l] + rest;
    }
  }

  lemma OneStepLess(ls: seq<Label>, c: nat, expiresAt: int) returns (l: Label)
    requires Run(ls).Some? && c < |Run(ls).value.calls| && Run(ls).value.calls[c].phase != Done
    ensures Run(ls + [l]).Some? && |Run(ls + [l]).value.calls| == |Run(ls).value.calls|
    ensures LeftInAll(Run(ls + [l]).value.calls) < LeftInAll(Run(ls).value.calls)
  {
    RunInv(ls);
    var s := Run(ls).value;
    var d := SomeoneCanStep(s, c);
    CanStep(s, d, expiresAt);
    l := Step(d, expiresAt);
    assert (ls + [l])[..|ls|] == ls;
    assert Run(ls + [l]) == Next(s, l);
    hide Run, Next, Inv, Left, LeftInAll;
    LeftInAllDrops(s.calls, Run(ls + [l]).value.calls, d);
  }

  // The same step a number of times.
  function Steps(s: State, l: Label, n: nat): Option<State>
    decreases n
  {
    if n == 0 then Some(s)
    else
      match Next(s, l)
      case None => None
      case Some(s') => Steps(s', l, n - 1)
  }

  // A renewal that nobody comes between is rotated exactly if its row passes, and then
  // the row holds the new token's digest and expiry.
  lemma RenewsAlone(ls: seq<Label>, token: Token, now: int, expiresAt: int) returns (n: nat, s': State)
    requires Run(ls).Some? && token in Run(ls).value.issued && token.id !in Run(ls).value.locks
    ensures var s := Run(ls).value;
            var c := |s.calls|;
            && Next(s, Renew(token, now)).Some?
            && Steps(Next(s, Renew(token, now)).value, Step(c, expiresAt), n) == Some(s')
            && c < |s'.calls| && s'.calls[c].phase == Done && s'.locks == s.locks
            && (if token.id in s.sessions && Passes(s.sessions[token.id], Request(token, now)) then
                  && s'.calls[c].result == Rotated(token.id, token.digest, |s.issued|)
                  && s'.sessions == s.sessions[token.id := Session(token.username, |s.issued|, false, expiresAt)]
                  && s'.issued == s.issued + [Token(token.id, token.username, |s.issued|)]
                else s'.calls[c].result == Failed(InvalidSession) && s'.sessions == s.sessions)
  {
    RunInv(ls);
    var s := Run(ls).value;
    hide Run;
    IssuedHere(s, token);
    hide Inv;
    var s1 := Next(s, Renew(token, now)).value;
    if token.id !in s.sessions {
      n := 2;
      s' := MissingEnds(s, s1, token, now, expiresAt);
    } else if Passes(s.sessions[token.id], Request(token, now)) {
      n := 4;
      s' := PassingRotates(s, s1, token, now, expiresAt);
    } else {
      n := 3;
      s' := FailingEnds(s, s1, token, now, expiresAt);
    }
  }

  lemma IssuedHere(s: State, token: Token)
    requires Inv(s) && token in s.issued
    ensures token.id != NIL && (token.id in s.sessions ==> token.id in s.chains)
  {
    hide CallsInv, ReplacementsInv, LinksInv;
  }

  lemma MissingEnds(s: State, s1: State, token: Token, now: int, expiresAt: int) returns (s': State)
    requires token in s.issued && token.id !in s.sessions && Next(s, Renew(token, now)) == Some(s1)
    ensures Steps(s1, Step(|s.calls|, expiresAt), 2) == Some(s') && |s'.calls| == |s.calls| + 1
    ensures s'.calls[|s.calls|].phase == Done && s'.calls[|s.calls|].result == Failed(InvalidSession)
    ensures s'.locks == s.locks && s'.sessions == s.sessions
  {
    var l := Step(|s.calls|, expiresAt);
    var s2 := Next(s1, l).value;
    s' := Next(s2, l).value;
    hide Next;
    assert Steps(s', l, 0) == Some(s') && Steps(s2, l, 1) == Some(s');
  }

  lemma FailingEnds(s: State, s1: State, token: Token, now: int, expiresAt: int) returns (s': State)
    requires token in s.issued && token.id in s.sessions && token.id !in s.locks
    requires Next(s, Renew(token, now)) == Some(s1) && !Passes(s.sessions[token.id], Request(token, now))
    ensures Steps(s1, Step(|s.calls|, expiresAt), 3) == Some(s') && |s'.calls| == |s.calls| + 1
    ensures s'.calls[|s.calls|].phase == Done && s'.calls[|s.calls|].result == Failed(InvalidSession)
    ensures s'.locks == s.locks && s'.sessions == s.sessions
  {
    var l := Step(|s.calls|, expiresAt);
    var s2 := Next(s1, l).value;
    var s3 := Next(s2, l).value;
    s' := Next(s3, l).value;
    assert s'.locks == s.locks;
    hide Next, Passes;
    assert Steps(s', l, 0) == Some(s') && Steps(s3, l, 1) == Some(s') && Steps(s2, l, 2) == Some(s');
  }

  lemma PassingRotates(s: State, s1: State, token: Token, now: int, expiresAt: int) returns (s': State)
    requires token in s.issued && token.id in s.sessions && token.id !in s.locks && token.id in s.chains && token.id != NIL
    requires Next(s, Renew(token, now)) == Some(s1) && Passes(s.sessions[token.id], Request(token, now))
    ensures Steps(s1, Step(|s.calls|, expiresAt), 4) == Some(s') && |s'.calls| == |s.calls| + 1
    ensures s'.calls[|s.calls|].phase == Done
    ensures s'.calls[|s.calls|].result == Rotated(token.id, token.digest, |s.issued|)
    ensures s'.sessions == s.sessions[token.id := Session(token.username, |s.issued|, false, expiresAt)]
    ensures s'.issued == s.issued + [Token(token.id, token.username, |s.issued|)] && s'.locks == s.locks
  {
    var l := Step(|s.calls|, expiresAt);
    var s2 := Next(s1, l).value;
    var s3 := Next(s2, l).value;
    var s4 := Next(s3, l).value;
    s' := Next(s4, l).value;
    assert s'.locks == s.locks;
    hide Next, Passes;
    assert Steps(s', l, 0) == Some(s') && Steps(s4, l, 1) == Some(s') && Steps(s3, l, 2) == Some(s')
           && Steps(s2, l, 3) == Some(s');
  }
}
