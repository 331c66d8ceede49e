// Who is signed in and what comes of a request, told from the steps of a run.
module AuthMeaning {
  import opened Prelude
  import opened AuthStores
  import opened AuthRuns

  // ----- Who is signed in -----------------------------------------------------------------

  // A login or a verified renewal is answered, under the generation it was begun in.
  predicate SignsIn(s: State, l: Label) {
    match l
    case LoginArrives(k, signedIn) =>
      k < |s.signIns| && s.signIns[k].pending && signedIn.Some? && s.signIns[k].gen == s.auth.generation
    case RenewalArrives(r, renewal) =>
      && r < |s.refreshes| && s.refreshes[r].phase == Renewing && s.refreshes[r].gen == s.auth.generation
      && renewal.Renewed? && renewal.verified
    case _ => false
  }

  function WhoSignsIn(l: Label): Option<(User, AccessToken)> {
    match l
    case LoginArrives(_, signedIn) => signedIn
    case RenewalArrives(_, Renewed(user, token, _)) => Some((user, token))
    case _ => None
  }

  // A logout, a cleared session, or an answer to a renewal of the present generation that
  // says that there is no session any more.
  predicate SignsOut(s: State, l: Label) {
    match l
    case Logout => true
    case Clear => true
    case RenewalArrives(r, renewal) =>
      && r < |s.refreshes| && s.refreshes[r].phase == Renewing && s.refreshes[r].gen == s.auth.generation
      && (renewal == NoContent || renewal == NotVerified || renewal == Unauthorized
          || (renewal.Renewed? && !renewal.verified))
    case _ => false
  }

  lemma SignedInMoves(s: State, l: Label)
    requires Next(s, l).Some?
    ensures var a, a' := s.auth, Next(s, l).value.auth;
            && (SignsIn(s, l) ==>
                  WhoSignsIn(l).Some? && a'.user == Some(WhoSignsIn(l).value.0) && a'.token == Some(WhoSignsIn(l).value.1))
            && (SignsOut(s, l) ==> a'.user.None? && a'.token.None? && a'.generation > a.generation)
            && (!SignsIn(s, l) && !SignsOut(s, l) ==> a'.user == a.user && a'.token == a.token)
  {
  }

  // The last step that signed in or out decides: somebody is signed in exactly when it
  // signed in, and then it is the user it named, with that token.
  lemma {:induction false} SignedInExactly(ls: seq<Label>)
    requires Run(ls).Some?
    ensures Run(ls).value.auth.user.Some? <==> exists i :: LastToSignIn(ls, i)
    ensures forall i :: LastToSignIn(ls, i) ==>
              && Run(ls).value.auth.user == Some(WhoSignsIn(ls[i]).value.0)
              && Run(ls).value.auth.token == Some(WhoSignsIn(ls[i]).value.1)
    ensures Run(ls).value.auth.user.None? ==> Run(ls).value.auth.token.None?
    decreases |ls|
  {
    if |ls| > 0 {
      var n := |ls| - 1;
      var s := Run(ls[..n]).value;
      SignedInExactly(ls[..n]);
      SignedInMoves(s, ls[n]);
      assert Next(s, ls[n]) == Run(ls);
      hide Run, Next, LastToSignIn;
      if SignsIn(s, ls[n]) {
        OwnIsLast(ls);
        assert LastToSignIn(ls, n);
      } else if SignsOut(s, ls[n]) {
        NoneIsLast(ls);
      } else {
        LastAsBefore(ls);
        hide SignsIn, SignsOut;
        if i :| LastToSignIn(ls[..n], i) { assert LastToSignIn(ls, i); }
      }
    }
  }

  ghost predicate LastToSignIn(ls: seq<Label>, i: int) {
    && 0 <= i < |ls| && Run(ls[..i]).Some? && SignsIn(Run(ls[..i]).value, ls[i]) && WhoSignsIn(ls[i]).Some?
    && forall j :: i < j < |ls| ==> Run(ls[..j]).Some? && !SignsOrOut(Run(ls[..j]).value, ls[j])
  }

  predicate SignsOrOut(s: State, l: Label) {
    SignsIn(s, l) || SignsOut(s, l)
  }

  lemma OwnIsLast(ls: seq<Label>)
    requires Run(ls).Some? && |ls| > 0 && Run(ls[..|ls| - 1]).Some?
    requires SignsIn(Run(ls[..|ls| - 1]).value, ls[|ls| - 1])
    ensures forall i :: LastToSignIn(ls, i) <==> i == |ls| - 1
  {
    hide Run;
    var n := |ls| - 1;
    WhoIsNamed(Run(ls[..n]).value, ls[n]);
    hide SignsIn, SignsOut;
    forall i
      ensures LastToSignIn(ls, i) <==> i == n
    {
      assert SignsOrOut(Run(ls[..n]).value, ls[n]);
    }
  }

  lemma WhoIsNamed(s: State, l: Label)
    requires SignsIn(s, l)
    ensures WhoSignsIn(l).Some?
  {
  }

  lemma NoneIsLast(ls: seq<Label>)
    requires Run(ls).Some? && |ls| > 0 && Run(ls[..|ls| - 1]).Some?
    requires SignsOut(Run(ls[..|ls| - 1]).value, ls[|ls| - 1]) && !SignsIn(Run(ls[..|ls| - 1]).value, ls[|ls| - 1])
    ensures forall i :: !LastToSignIn(ls, i)
  {
    hide Run, SignsIn, SignsOut;
    var n := |ls| - 1;
    assert SignsOrOut(Run(ls[..n]).value, ls[n]);
  }

  lemma LastAsBefore(ls: seq<Label>)
    requires Run(ls).Some? && |ls| > 0 && Run(ls[..|ls| - 1]).Some?
    requires !SignsOrOut(Run(ls[..|ls| - 1]).value, ls[|ls| - 1])
    ensures forall i :: LastToSignIn(ls, i) <==> LastToSignIn(ls[..|ls| - 1], i)
    ensures forall i :: LastToSignIn(ls, i) ==> 0 <= i < |ls| - 1 && ls[i] == ls[..|ls| - 1][i]
  {
    hide Run, SignsOrOut, SignsIn;
    var n := |ls| - 1;
    var before := ls[..n];
    assert forall j :: 0 <= j <= n ==> before[..j] == ls[..j];
    forall i
      ensures LastToSignIn(ls, i) <==> LastToSignIn(before, i)
    {
      if LastToSignIn(ls, i) {
        assert i < n by { LastBelow(ls, i); }
        assert before[i] == ls[i];
      }
    }
  }

  lemma LastBelow(ls: seq<Label>, i: int)
    requires LastToSignIn(ls, i) && Run(ls[..|ls| - 1]).Some?
    requires !SignsOrOut(Run(ls[..|ls| - 1]).value, ls[|ls| - 1])
    ensures i < |ls| - 1
  {
    hide Run;
  }

  // The last step to sign in comes after every step that signs out.
  lemma LastIsLater(ls: seq<Label>, j: int, k: nat)
    requires LastToSignIn(ls, j) && k < |ls| && Run(ls[..k]).Some? && SignsOut(Run(ls[..k]).value, ls[k])
    ensures j > k
  {
    hide Run;
    OneOrOther(Run(ls[..k]).value, ls[k]);
    assert SignsOrOut(Run(ls[..k]).value, ls[k]);
  }

  // ----- After signing out ---------------------------------------------------------------------

  // A login or a renewal that was begun when there were as many as in `since`, or later.
  predicate BegunSince(since: State, l: Label) {
    match l
    case LoginArrives(k, _) => k >= |since.signIns|
    case RenewalArrives(r, _) => r >= |since.refreshes|
    case _ => false
  }

  // Right after a step that signs out nobody is signed in; and if somebody is at any time
  // after it, it is by the last login or renewal answered, and that was begun after it.
  lemma SignedInAgain(ls: seq<Label>, l: Label, more: seq<Label>) returns (i: nat)
    requires Run(ls).Some? && SignsOut(Run(ls).value, l) && Run(ls + [l]).Some? && Run(ls + [l] + more).Some?
    requires Run(ls + [l] + more).value.auth.user.Some?
    ensures Run(ls + [l]).value.auth.user.None? && Run(ls + [l]).value.auth.token.None?
    ensures i < |more| && Run(ls + [l] + more[..i]).Some?
    ensures var s := Run(ls + [l] + more[..i]).value;
            SignsIn(s, more[i]) && BegunSince(Run(ls).value, more[i])
    ensures var a := Run(ls + [l] + more).value.auth;
            a.user == Some(WhoSignsIn(more[i]).value.0) && a.token == Some(WhoSignsIn(more[i]).value.1)
  {
    var all := ls + [l] + more;
    var m := |ls| + 1;
    hide SignsIn, SignsOut, Next, BegunSince;
    Parts(ls, l, more);
    hide Run;
    var j := LastSince(all, |ls|);
    i := j - m;
    assert all[..j] == ls + [l] + more[..i] && all[j] == more[i];
    BegunLater(ls, l, more[..i], more[i]);
  }

  lemma LastSince(ls: seq<Label>, k: nat) returns (j: nat)
    requires Run(ls).Some? && Run(ls).value.auth.user.Some?
    requires k < |ls| && Run(ls[..k]).Some? && SignsOut(Run(ls[..k]).value, ls[k])
    ensures k < j < |ls| && Run(ls[..j]).Some? && SignsIn(Run(ls[..j]).value, ls[j]) && WhoSignsIn(ls[j]).Some?
    ensures Run(ls).value.auth.user == Some(WhoSignsIn(ls[j]).value.0)
    ensures Run(ls).value.auth.token == Some(WhoSignsIn(ls[j]).value.1)
  {
    hide SignsIn, SignsOut, Next, WhoSignsIn, Run;
    SignedInExactly(ls);
    var last :| LastToSignIn(ls, last);
    LastIsLater(ls, last, k);
    j := last;
  }

  // The states on the way.
  lemma Parts(ls: seq<Label>, l: Label, more: seq<Label>)
    requires Run(ls).Some? && SignsOut(Run(ls).value, l) && Run(ls + [l]).Some?
    ensures var all := ls + [l] + more;
            all[..|ls|] == ls && all[|ls|] == l && all[..|ls| + 1] == ls + [l]
    ensures Run(ls + [l]).value.auth.user.None? && Run(ls + [l]).value.auth.token.None?
    ensures Run(ls + [l]).value.auth.generation > Run(ls).value.auth.generation
  {
    assert (ls + [l])[..|ls|] == ls;
    SignedInMoves(Run(ls).value, l);
    hide SignsIn, SignsOut, Next;
  }

  lemma OneOrOther(s: State, l: Label)
    requires SignsOut(s, l)
    ensures !SignsIn(s, l)
  {
  }

  // What was begun before keeps the generation it was begun in.
  ghost predicate Remembers(s: State, s': State) {
    && |s.signIns| <= |s'.signIns| && |s.refreshes| <= |s'.refreshes| && s.auth.generation <= s'.auth.generation
    && (forall k :: 0 <= k < |s.signIns| ==> s'.signIns[k].gen == s.signIns[k].gen)
    && (forall r :: 0 <= r < |s.refreshes| ==> s'.refreshes[r].gen == s.refreshes[r].gen)
  }

  lemma NextRemembers(s: State, l: Label)
    requires Next(s, l).Some?
    ensures Remembers(s, Next(s, l).value)
  {
  }

  lemma {:induction false} RunRemembers(ls: seq<Label>, more: seq<Label>)
    requires Run(ls).Some? && Run(ls + more).Some?
    ensures Remembers(Run(ls).value, Run(ls + more).value)
    decreases |more|
  {
    if |more| == 0 {
      assert ls + more == ls;
    } else {
      var n := |more| - 1;
      var all := ls + more;
      assert all[..|all| - 1] == ls + more[..n];
      RunRemembers(ls, more[..n]);
      hide Next;
      NextRemembers(Run(ls + more[..n]).value, more[n]);
    }
  }

  lemma BegunLater(ls: seq<Label>, l: Label, more: seq<Label>, m: Label)
    requires Run(ls).Some? && Run(ls + [l]).Some? && Run(ls + [l] + more).Some?
    requires Run(ls + [l]).value.auth.generation > Run(ls).value.auth.generation
    requires SignsIn(Run(ls + [l] + more).value, m)
    ensures BegunSince(Run(ls).value, m)
  {
    hide Inv, Remembers, SignsIn, BegunSince, Next;
    RunInv(ls);
    assert ls + [l] + more == ls + ([l] + more);
    RunRemembers(ls, [l] + more);
    RunRemembers(ls + [l], more);
    hide Run;
    LaterGens(Run(ls).value, Run(ls + [l]).value, Run(ls + [l] + more).value, m);
  }

  lemma LaterGens(s: State, s1: State, s': State, m: Label)
    requires Inv(s) && Remembers(s, s') && Remembers(s1, s') && s1.auth.generation > s.auth.generation
    requires SignsIn(s', m)
    ensures BegunSince(s, m)
  {
    GensBehind(s);
    hide Inv;
  }

  lemma GensBehind(s: State)
    requires Inv(s)
    ensures forall k :: 0 <= k < |s.signIns| ==> s.signIns[k].gen <= s.auth.generation
    ensures forall r :: 0 <= r < |s.refreshes| ==> s.refreshes[r].gen <= s.auth.generation
  {
    hide RequestInv, CacheInv;
  }

  // ----- What comes of a request --------------------------------------------------------------------

  // The session has moved on under an authenticated request.
  predicate Overtaken(s: State, request: Request) {
    request.authenticated && s.auth.generation != request.gen
  }

  // A request is sent under the generation it is made in.
  lemma AskMoves(s: State, authenticated: bool)
    ensures Next(s, Ask(authenticated)) ==
            Some(s.(requests := s.requests + [Request(s.auth.generation, authenticated, Sent, [s.auth.generation], 0)]))
  {
  }

  // When an answer can come, and what becomes of the request for each.
  lemma AnswerMoves(s: State, q: nat, response: Response)
    requires Inv(s) && q < |s.requests|
    ensures var request := s.requests[q];
            var l := AnswerArrives(q, response);
            && (Next(s, l).Some? <==> request.phase == Sent || request.phase == Resent)
            && (Next(s, l).Some? ==>
                  var s' := Next(s, l).value;
                  && |s'.requests| == |s.requests| && s'.requests == s.requests[q := s'.requests[q]] && s'.cache == s.cache
                  && var request' := s'.requests[q];
                  && request' == request.(phase := request'.phase, refreshed := request'.refreshed)
                  && (request'.phase == Threw(Network) <==> response == Unreachable)
                  && (request'.phase == Threw(Aborted) <==> response != Unreachable && Overtaken(s, request))
                  && (request'.phase == Reading <==> response == Success && !Overtaken(s, request))
                  && (request'.phase.Awaiting? <==>
                        response == Denied && !Overtaken(s, request) && request.authenticated && request.phase == Sent)
                  && request'.refreshed == request.refreshed + (if request'.phase.Awaiting? then 1 else 0)
                  && (request'.phase.Awaiting? ==> WaitsForPresent(s', request'.phase.refresh))
                  && (!request'.phase.Awaiting? ==> s'.auth == s.auth && s'.refreshes == s.refreshes)
                  && (request'.phase == Threw(Api) <==>
                        && !Overtaken(s, request)
                        && (response == Error
                            || (response == Denied && (!request.authenticated || request.phase == Resent)))))
  {
    hide CacheInv;
    assert RequestInv(s.requests[q], s.auth.generation);
    TriedIsPresent(s);
    hide RefreshTried, Inv;
  }

  // The refresh belongs to the present generation and is not over.
  predicate WaitsForPresent(s: State, r: nat) {
    r < |s.refreshes| && s.refreshes[r].gen == s.auth.generation && !s.refreshes[r].phase.Cleaned?
    && s.auth.attempt == Some(r)
  }

  // A refresh that is tried is the one under way for this generation, or a new one.
  lemma TriedIsPresent(s: State)
    requires Inv(s)
    ensures var s' := RefreshTried(s);
            && s'.auth.attempt.Some? && WaitsForPresent(s', s'.auth.attempt.value)
            && s' == s.(auth := s.auth.(attempt := s'.auth.attempt), refreshes := s'.refreshes)
            && (if exists r :: 0 <= r < |s.refreshes| && s.refreshes[r].gen == s.auth.generation && !s.refreshes[r].phase.Cleaned?
                then s' == s else s'.refreshes == s.refreshes + [Refresh(s.auth.generation, Renewing)])
  {
    hide RequestInv, CacheInv;
  }

  // When its refresh is over the request is sent again exactly if that succeeded.
  lemma ResumeMoves(s: State, q: nat)
    requires Inv(s) && q < |s.requests|
    ensures var request := s.requests[q];
            var l := AskResumes(q);
            && (Next(s, l).Some? <==>
                  && request.phase.Awaiting? && request.phase.refresh < |s.refreshes|
                  && s.refreshes[request.phase.refresh].phase.Cleaned?)
            && (Next(s, l).Some? ==>
                  var s' := Next(s, l).value;
                  var outcome := s.refreshes[request.phase.refresh].phase.outcome;
                  && |s'.requests| == |s.requests| && s' == s.(requests := s.requests[q := s'.requests[q]])
                  && var request' := s'.requests[q];
                  && request' == request.(phase := request'.phase, sends := request'.sends)
                  && (request'.phase == Resent <==> outcome == Refreshed && s.auth.generation == request.gen)
                  && request'.sends == request.sends + (if request'.phase == Resent then [request.gen] else [])
                  && (request'.phase == Threw(SessionUnavailable) <==>
                        outcome == Unavailable && s.auth.generation == request.gen)
                  && (request'.phase == Threw(Aborted) <==> s.auth.generation != request.gen)
                  && (request'.phase == Threw(Api) <==>
                        s.auth.generation == request.gen && outcome != Refreshed && outcome != Unavailable))
  {
    hide Inv;
  }

  lemma BodyMoves(s: State, q: nat, ok: bool)
    requires q < |s.requests|
    ensures var request := s.requests[q];
            var l := BodyRead(q, ok);
            && (Next(s, l).Some? <==> request.phase == Reading)
            && (Next(s, l).Some? ==>
                  var s' := Next(s, l).value;
                  && |s'.requests| == |s.requests|
                  && s' == s.(requests := s.requests[q := request.(phase := s'.requests[q].phase)])
                  && var phase := s'.requests[q].phase;
                  && (phase == Returned(s.auth.generation) <==> ok && !Overtaken(s, request))
                  && (phase == Threw(Aborted) <==> ok && Overtaken(s, request))
                  && (phase == Threw(Api) <==> !ok))
  {
  }

  // ----- Refreshes, sign-ins and accounts -------------------------------------------------------------

  // A renewal can be answered once; its outcome tells its callers what it did.
  lemma RenewalMoves(s: State, r: nat, renewal: Renewal)
    requires r < |s.refreshes|
    ensures var l := RenewalArrives(r, renewal);
            && (Next(s, l).Some? <==> s.refreshes[r].phase == Renewing)
            && (Next(s, l).Some? ==>
                  var s' := Next(s, l).value;
                  && |s'.refreshes| == |s.refreshes| && s'.refreshes == s.refreshes[r := s'.refreshes[r]]
                  && s' == s.(auth := s'.auth, refreshes := s'.refreshes)
                  && s'.refreshes[r].gen == s.refreshes[r].gen && s'.refreshes[r].phase.Replied?
                  && var outcome := s'.refreshes[r].phase.outcome;
                  && (outcome == Stale <==> s.refreshes[r].gen != s.auth.generation)
                  && (outcome == Refreshed <==> SignsIn(s, l))
                  && (outcome == NoSession || outcome == Expired <==> SignsOut(s, l))
                  && (outcome == Expired ==> renewal == Unauthorized)
                  && (renewal == Unauthorized ==> outcome == Expired || outcome == Stale)
                  && (outcome == Unavailable ==> s'.auth == s.auth.(renewalUnavailable := true)))
  {
  }

  lemma CleanUpMoves(s: State, r: nat)
    requires r < |s.refreshes|
    ensures var l := RefreshCleanUp(r);
            && (Next(s, l).Some? <==> s.refreshes[r].phase.Replied?)
            && (Next(s, l).Some? ==>
                  Next(s, l).value ==
                  s.(refreshes := s.refreshes[r := Refresh(s.refreshes[r].gen, Cleaned(s.refreshes[r].phase.outcome))],
                     auth := s.auth.(attempt := if s.auth.attempt == Some(r) then None else s.auth.attempt)))
  {
  }

  // A login may begin unless a logout is under way, and a logout ends when it is answered.
  lemma SignInOutMoves(s: State, k: nat, signedIn: Option<(User, AccessToken)>)
    ensures Next(s, Login).Some? <==> !s.auth.loggingOut
    ensures Next(s, Login).Some? ==>
              var s' := Next(s, Login).value;
              && s'.signIns == s.signIns + [SignIn(s'.auth.generation, true)]
              && s'.auth.generation == s.auth.generation + 1
    ensures Next(s, LoginArrives(k, signedIn)).Some? <==> k < |s.signIns| && s.signIns[k].pending
    ensures Next(s, LoginArrives(k, signedIn)).Some? ==>
              Next(s, LoginArrives(k, signedIn)).value.signIns == s.signIns[k := SignIn(s.signIns[k].gen, false)]
    ensures Next(s, Logout).Some? && Next(s, Logout).value.auth.loggingOut
            && Next(s, Logout).value.signOuts == s.signOuts + [true]
    ensures Next(s, LogoutArrives(k)).Some? <==> k < |s.signOuts| && s.signOuts[k]
    ensures Next(s, LogoutArrives(k)).Some? ==>
              Next(s, LogoutArrives(k)).value == s.(auth := s.auth.(loggingOut := false), signOuts := s.signOuts[k := false])
    ensures Next(s, Clear).Some? && Next(s, Clear).value == s.(auth := Next(s, Clear).value.auth)
            && Next(s, Clear).value.auth.loggingOut == s.auth.loggingOut
            && Next(s, Clear).value.auth.attempt == s.auth.attempt
    ensures Next(s, ConsumeExpired) == Some(s.(auth := s.auth.(sessionExpired := false)))
    ensures Next(s, TryRefresh).Some?
  {
  }

  // A created account appears at the end of the list, if neither the sign-in nor the
  // cache has moved on since it was asked for, and never twice.
  lemma CreateMoves(s: State, k: nat, account: Option<Account>)
    ensures Next(s, StartCreate) == Some(s.(creates := s.creates + [Create(s.auth.generation, s.cache.generation, true)]))
    ensures Next(s, CreateArrives(k, account)).Some? <==> k < |s.creates| && s.creates[k].pending
    ensures Next(s, CreateArrives(k, account)).Some? ==>
              var s' := Next(s, CreateArrives(k, account)).value;
              var mine := s.creates[k].auth == s.auth.generation && s.creates[k].generation == s.cache.generation;
              && s' == s.(creates := s'.creates, cache := s'.cache) && s'.cache == s.cache.(items := s'.cache.items)
              && |s'.creates| == |s.creates| && !s'.creates[k].pending
              && (forall j :: 0 <= j < |s.creates| && j != k ==> s'.creates[j] == s.creates[j])
              && (account.Some? && mine ==> s'.cache.items == s.cache.items + [account.value])
              && (account.None? || !mine ==> s'.cache.items == s.cache.items)
  {
  }

  // A load can start at any time and end once; a reset leaves an empty list.
  lemma LoadMoves(s: State, k: nat, items: Option<seq<Account>>, aborted: bool)
    ensures Next(s, StartLoad).Some? && Next(s, StartLoad).value.cache.loading
    ensures Next(s, StartLoad).value.loads ==
              s.loads + [Load(Ticket(s.auth.generation, s.cache.generation, s.cache.loadSequence + 1), true)]
    ensures Next(s, LoadArrives(k, items, aborted)).Some? <==> k < |s.loads| && s.loads[k].pending
    ensures Next(s, LoadArrives(k, items, aborted)).Some? ==>
              var s' := Next(s, LoadArrives(k, items, aborted)).value;
              s'.loads == s.loads[k := Load(s.loads[k].ticket, false)] && s'.auth == s.auth
    ensures Next(s, ResetCache).Some? && Next(s, ResetCache).value.cache.items == []
            && !Next(s, ResetCache).value.cache.loading && Next(s, ResetCache).value.loads == s.loads
  {
  }
}
