// Sign-ins, refreshes, requests and account loads of any number, interleaved.
module AuthRuns {
  import opened Prelude
  import opened AuthStores

  // ----- Work in progress ----------------------------------------------------------------

  // Callers of tryRefresh resume when .finally has run.
  datatype RefreshPhase = Renewing | Replied(outcome: Outcome) | Cleaned(outcome: Outcome)
  datatype Refresh = Refresh(gen: nat, phase: RefreshPhase)

  datatype SignIn = SignIn(gen: nat, pending: bool)

  datatype Response = Success | Denied | Error | Unreachable   // Denied: a 401

  datatype Failure = Aborted | SessionUnavailable | Api | Network

  datatype RequestPhase =
    | Sent
    | Awaiting(refresh: nat)    // a 401 came back
    | Resent
    | Reading                   // the body
    | Returned(at: nat)         // the auth generation it returned under
    | Threw(failure: Failure)

  // `sends`: the auth generation each time it was sent; `refreshed`: how often it
  // asked for a refresh.
  datatype Request = Request(gen: nat, authenticated: bool, phase: RequestPhase, sends: seq<nat>, refreshed: nat)

  datatype Load = Load(ticket: Ticket, pending: bool)

  datatype Create = Create(auth: nat, generation: nat, pending: bool)

  datatype State = State(auth: Auth, cache: Cache, refreshes: seq<Refresh>, signIns: seq<SignIn>, signOuts: seq<bool>,
                         requests: seq<Request>, loads: seq<Load>, creates: seq<Create>)

  datatype Label =
    | TryRefresh
    | RenewalArrives(r: nat, renewal: Renewal)
    | RefreshCleanUp(r: nat)
    | Login
    | LoginArrives(k: nat, signedIn: Option<(User, AccessToken)>)
    | Logout
    | LogoutArrives(k: nat)
    | Clear
    | ConsumeExpired
    | Ask(authenticated: bool)
    | AnswerArrives(q: nat, response: Response)
    | AskResumes(q: nat)
    | BodyRead(q: nat, ok: bool)
    | StartLoad
    | LoadArrives(k: nat, items: Option<seq<Account>>, aborted: bool)
    | StartCreate
    | CreateArrives(k: nat, account: Option<Account>)
    | ResetCache

  const INIT := State(SIGNED_OUT, EMPTY_CACHE, [], [], [], [], [], [])

  // tryRefresh; the refresh its caller will wait for is then `attempt`.
  function RefreshTried(s: State): State {
    var a := s.auth;
    if a.attempt.Some? && a.attempt.value < |s.refreshes| && s.refreshes[a.attempt.value].gen == a.generation then s
    else
      s.(refreshes := s.refreshes + [Refresh(a.generation, Renewing)],
         auth := a.(attempt := Some(|s.refreshes|)))
  }

  function RenewalStep(s: State, r: nat, renewal: Renewal): State
    requires r < |s.refreshes|
  {
    var gen := s.refreshes[r].gen;
    s.(auth := AfterRenewal(s.auth, gen, renewal),
       refreshes := s.refreshes[r := Refresh(gen, Replied(OutcomeOf(s.auth, gen, renewal)))])
  }

  // .finally: only the attempt that is still the current one clears it.
  function CleanUpStep(s: State, r: nat): State
    requires r < |s.refreshes| && s.refreshes[r].phase.Replied?
  {
    s.(refreshes := s.refreshes[r := s.refreshes[r].(phase := Cleaned(s.refreshes[r].phase.outcome))],
       auth := if s.auth.attempt == Some(r) then s.auth.(attempt := None) else s.auth)
  }

  predicate Crossed(s: State, q: nat)
    requires q < |s.requests|
  {
    s.requests[q].authenticated && s.auth.generation != s.requests[q].gen
  }

  function WithPhase(s: State, q: nat, phase: RequestPhase): State
    requires q < |s.requests|
  {
    s.(requests := s.requests[q := s.requests[q].(phase := phase)])
  }

  // requestResponse when a response, or none, has come.
  function Answered(s: State, q: nat, response: Response): State
    requires q < |s.requests|
  {
    var request := s.requests[q];
    if response == Unreachable then WithPhase(s, q, Threw(Network))
    else if Crossed(s, q) then WithPhase(s, q, Threw(Aborted))
    else if request.phase == Sent && response == Denied && request.authenticated then
      var tried := RefreshTried(s);
      if tried.auth.attempt.None? then tried
      else
        tried.(requests := s.requests[q := request.(phase := Awaiting(tried.auth.attempt.value),
                                                    refreshed := request.refreshed + 1)])
    else WithPhase(s, q, if response == Success then Reading else Threw(Api))
  }

  function Resumed(s: State, q: nat, outcome: Outcome): State
    requires q < |s.requests|
  {
    var request := s.requests[q];
    if s.auth.generation != request.gen then WithPhase(s, q, Threw(Aborted))
    else
      match outcome
      case Refreshed =>
        s.(requests := s.requests[q := request.(phase := Resent, sends := request.sends + [s.auth.generation])])
      case Unavailable => WithPhase(s, q, Threw(SessionUnavailable))
      case _ => WithPhase(s, q, Threw(Api))   // the 401 that came first
  }

  function StepOfRequest(s: State, q: nat, l: Label): Option<State>
    requires q < |s.requests|
  {
    var request := s.requests[q];
    match l
    case AnswerArrives(_, response) =>
      if request.phase == Sent || request.phase == Resent then Some(Answered(s, q, response)) else None
    case AskResumes(_) =>
      if request.phase.Awaiting? && request.phase.refresh < |s.refreshes|
         && s.refreshes[request.phase.refresh].phase.Cleaned?
      then Some(Resumed(s, q, s.refreshes[request.phase.refresh].phase.outcome))
      else None
    case BodyRead(_, ok) =>
      if request.phase != Reading then None
      else if !ok then Some(WithPhase(s, q, Threw(Api)))
      else Some(WithPhase(s, q, if Crossed(s, q) then Threw(Aborted) else Returned(s.auth.generation)))
    case _ => None
  }

  function StepOfCache(s: State, l: Label): Option<State> {
    match l
    case StartLoad =>
      var c := LoadBegun(s.cache);
      Some(s.(cache := c, loads := s.loads + [Load(Ticket(s.auth.generation, c.generation, c.loadSequence), true)]))
    case LoadArrives(k, items, aborted) =>
      if k < |s.loads| && s.loads[k].pending then
        Some(s.(cache := LoadEnded(s.cache, s.auth.generation, s.loads[k].ticket, items, aborted),
                loads := s.loads[k := s.loads[k].(pending := false)]))
      else None
    case StartCreate => Some(s.(creates := s.creates + [Create(s.auth.generation, s.cache.generation, true)]))
    case CreateArrives(k, account) =>
      if k < |s.creates| && s.creates[k].pending then
        var create := s.creates[k];
        var mine := create.auth == s.auth.generation && create.generation == s.cache.generation;
        Some(s.(creates := s.creates[k := create.(pending := false)],
                cache := if account.Some? && mine then s.cache.(items := s.cache.items + [account.value]) else s.cache))
      else None
    case ResetCache => Some(s.(cache := CacheReset(s.cache)))
    case _ => None
  }

  function Next(s: State, l: Label): Option<State> {
    match l
    case TryRefresh => Some(RefreshTried(s))
    case RenewalArrives(r, renewal) =>
      if r < |s.refreshes| && s.refreshes[r].phase == Renewing then Some(RenewalStep(s, r, renewal)) else None
    case RefreshCleanUp(r) =>
      if r < |s.refreshes| && s.refreshes[r].phase.Replied? then Some(CleanUpStep(s, r)) else None
    case Login =>
      if s.auth.loggingOut then None
      else
        var a := LoginBegun(s.auth);
        Some(s.(auth := a, signIns := s.signIns + [SignIn(a.generation, true)]))
    case LoginArrives(k, signedIn) =>
      if k < |s.signIns| && s.signIns[k].pending then
        var gen := s.signIns[k].gen;
        var done := s.(signIns := s.signIns[k := SignIn(gen, false)]);
        Some(if signedIn.Some? then done.(auth := LoginApplied(s.auth, gen, signedIn.value.0, signedIn.value.1)) else done)
      else None
    case Logout => Some(s.(auth := LogoutBegun(s.auth), signOuts := s.signOuts + [true]))
    case LogoutArrives(k) =>
      if k < |s.signOuts| && s.signOuts[k] then
        Some(s.(auth := s.auth.(loggingOut := false), signOuts := s.signOuts[k := false]))
      else None
    case Clear => Some(s.(auth := Invalidated(s.auth)))
    case ConsumeExpired => Some(s.(auth := s.auth.(sessionExpired := false)))
    case Ask(authenticated) =>
      Some(s.(requests := s.requests + [Request(s.auth.generation, authenticated, Sent, [s.auth.generation], 0)]))
    case AnswerArrives(q, _) => if q < |s.requests| then StepOfRequest(s, q, l) else None
    case AskResumes(q) => if q < |s.requests| then StepOfRequest(s, q, l) else None
    case BodyRead(q, _) => if q < |s.requests| then StepOfRequest(s, q, l) else None
    case _ => StepOfCache(s, l)
  }

  function Run(ls: seq<Label>): Option<State> {
    if |ls| == 0 then Some(INIT)
    else
      match Run(ls[..|ls| - 1])
      case None => None
      case Some(s) => Next(s, ls[|ls| - 1])
  }

  // ----- The invariant --------------------------------------------------------------------

  // A refresh of the present generation that is not over is the current attempt.
  ghost predicate RefreshInv(auth: Auth, refreshes: seq<Refresh>) {
    && (forall r :: 0 <= r < |refreshes| ==>
          && refreshes[r].gen <= auth.generation
          && (refreshes[r].gen == auth.generation && !refreshes[r].phase.Cleaned? ==> auth.attempt == Some(r)))
    && (auth.attempt.Some? ==> auth.attempt.value < |refreshes| && !refreshes[auth.attempt.value].phase.Cleaned?)
  }

  // Sent once, or once more after its one refresh, and under one generation only.
  ghost predicate RequestInv(request: Request, generation: nat) {
    && request.gen <= generation
    && 1 <= |request.sends| <= 1 + request.refreshed && request.refreshed <= 1
    && (forall i :: 0 <= i < |request.sends| ==> request.sends[i] == request.gen)
    && (request.phase == Sent ==> request.refreshed == 0)
    && (request.phase.Awaiting? ==> request.refreshed == 1 && |request.sends| == 1)
    && (request.phase == Resent ==> |request.sends| == 2)
    && (request.refreshed == 1 ==> request.authenticated)
    && (request.phase.Returned? && request.authenticated ==> request.phase.at == request.gen)
  }

  ghost predicate CacheInv(auth: Auth, cache: Cache, loads: seq<Load>) {
    && (forall k :: 0 <= k < |loads| ==>
          && loads[k].ticket.auth <= auth.generation
          && loads[k].ticket.generation <= cache.generation
          && loads[k].ticket.sequence <= cache.loadSequence)
    && (forall j, k :: 0 <= j < k < |loads| ==> loads[j].ticket.sequence < loads[k].ticket.sequence)
    // Loading means that the latest load is under way.
    && (cache.loading ==>
          |loads| > 0 && var t := loads[|loads| - 1].ticket;
          t.sequence == cache.loadSequence && t.generation == cache.generation
          && (t.auth == auth.generation ==> loads[|loads| - 1].pending))
    && (|loads| > 0 && loads[|loads| - 1].pending && Latest(cache, auth.generation, loads[|loads| - 1].ticket) ==>
          cache.loading)
  }

  ghost predicate Inv(s: State) {
    && (s.auth.user.None? <==> s.auth.token.None?)
    && RefreshInv(s.auth, s.refreshes)
    && (forall k :: 0 <= k < |s.signIns| ==> s.signIns[k].gen <= s.auth.generation)
    && (forall q :: 0 <= q < |s.requests| ==> RequestInv(s.requests[q], s.auth.generation))
    && CacheInv(s.auth, s.cache, s.loads)
    && (forall k :: 0 <= k < |s.creates| ==>
          s.creates[k].auth <= s.auth.generation && s.creates[k].generation <= s.cache.generation)
  }

  // The generation never goes back, and moving on makes no older attempt current.
  lemma GenerationGrows(s: State, l: Label)
    requires Next(s, l).Some?
    ensures Next(s, l).value.auth.generation >= s.auth.generation
    ensures Next(s, l).value.cache.generation >= s.cache.generation
    ensures Next(s, l).value.cache.loadSequence >= s.cache.loadSequence
  {
  }

  lemma TriedKeeps(s: State)
    requires Inv(s)
    ensures Inv(RefreshTried(s)) && RefreshTried(s).auth.attempt.Some?
  {
    hide RequestInv, CacheInv;
    assert CacheInv(RefreshTried(s).auth, s.cache, s.loads) by { CacheLater(s, RefreshTried(s).auth); }
  }

  lemma CacheLater(s: State, auth: Auth)
    requires CacheInv(s.auth, s.cache, s.loads) && auth.generation >= s.auth.generation
    ensures CacheInv(auth, s.cache, s.loads)
  {
  }

  lemma RequestsLater(s: State, generation: nat)
    requires Inv(s) && generation >= s.auth.generation
    ensures forall q :: 0 <= q < |s.requests| ==> RequestInv(s.requests[q], generation)
  {
    forall q | 0 <= q < |s.requests|
      ensures RequestInv(s.requests[q], generation)
    {
      assert RequestInv(s.requests[q], s.auth.generation);
    }
  }

  // Steps of the auth store alone.
  lemma AuthStepKeeps(s: State, s': State)
    requires Inv(s)
    requires s'.cache == s.cache && s'.loads == s.loads && s'.requests == s.requests && s'.creates == s.creates
    requires s'.auth.generation >= s.auth.generation && (s'.auth.user.None? <==> s'.auth.token.None?)
    requires RefreshInv(s'.auth, s'.refreshes)
    requires forall k :: 0 <= k < |s'.signIns| ==> s'.signIns[k].gen <= s'.auth.generation
    ensures Inv(s')
  {
    CacheLater(s, s'.auth);
    RequestsLater(s, s'.auth.generation);
    hide RequestInv, CacheInv, RefreshInv;
  }

  lemma RenewalKeeps(s: State, r: nat, renewal: Renewal)
    requires Inv(s) && Next(s, RenewalArrives(r, renewal)).Some?
    ensures Inv(Next(s, RenewalArrives(r, renewal)).value)
  {
    hide RequestInv, CacheInv;
    AuthStepKeeps(s, Next(s, RenewalArrives(r, renewal)).value);
  }

  lemma SignInOutKeeps(s: State, l: Label)
    requires Inv(s) && Next(s, l).Some?
    requires l.RefreshCleanUp? || l.Login? || l.LoginArrives? || l.Logout? || l.LogoutArrives? || l.Clear? || l.ConsumeExpired?
    ensures Inv(Next(s, l).value)
  {
    hide RequestInv, CacheInv;
    AuthStepKeeps(s, Next(s, l).value);
  }

  lemma RequestChangeKeeps(s: State, q: nat, request: Request)
    requires Inv(s) && q < |s.requests| && RequestInv(request, s.auth.generation)
    ensures Inv(s.(requests := s.requests[q := request]))
  {
    hide RequestInv, CacheInv, RefreshInv;
  }

  lemma RequestKeeps(s: State, q: nat, l: Label)
    requires Inv(s) && q < |s.requests| && StepOfRequest(s, q, l).Some?
    ensures Inv(StepOfRequest(s, q, l).value)
  {
    assert RequestInv(s.requests[q], s.auth.generation);
    hide Inv, CacheInv, RefreshInv;
    match l
    case AnswerArrives(_, response) => AnsweredKeeps(s, q, response);
    case AskResumes(_) =>
      RequestChangeKeeps(s, q, StepOfRequest(s, q, l).value.requests[q]);
    case BodyRead(_, _) =>
      RequestChangeKeeps(s, q, StepOfRequest(s, q, l).value.requests[q]);
    case _ =>
  }

  lemma AnsweredKeeps(s: State, q: nat, response: Response)
    requires Inv(s) && q < |s.requests| && (s.requests[q].phase == Sent || s.requests[q].phase == Resent)
    ensures Inv(Answered(s, q, response))
  {
    TriedKeeps(s);
    assert RequestInv(s.requests[q], s.auth.generation);
    hide Inv, CacheInv, RefreshInv;
    var s' := Answered(s, q, response);
    if s'.requests[q].phase.Awaiting? {
      var tried := RefreshTried(s);
      assert tried.requests == s.requests && tried.auth.generation == s.auth.generation;
      hide RefreshTried;
      RequestChangeKeeps(tried, q, s'.requests[q]);
    } else {
      RequestChangeKeeps(s, q, s'.requests[q]);
    }
  }

  lemma CacheKeeps(s: State, l: Label)
    requires Inv(s) && StepOfCache(s, l).Some?
    ensures Inv(StepOfCache(s, l).value)
  {
    hide RequestInv, RefreshInv;
    var s' := StepOfCache(s, l).value;
    assert CacheInv(s'.auth, s'.cache, s'.loads);
    hide CacheInv;
  }

  lemma NextKeeps(s: State, l: Label)
    requires Inv(s) && Next(s, l).Some?
    ensures Inv(Next(s, l).value)
  {
    hide Inv, StepOfRequest, StepOfCache;
    match l
    case TryRefresh => TriedKeeps(s);
    case RenewalArrives(r, renewal) => RenewalKeeps(s, r, renewal);
    case Ask(authenticated) => AskKeeps(s, authenticated);
    case AnswerArrives(q, _) => RequestKeeps(s, q, l);
    case AskResumes(q) => RequestKeeps(s, q, l);
    case BodyRead(q, _) => RequestKeeps(s, q, l);
    case RefreshCleanUp(_) => SignInOutKeeps(s, l);
    case Login => SignInOutKeeps(s, l);
    case LoginArrives(_, _) => SignInOutKeeps(s, l);
    case Logout => SignInOutKeeps(s, l);
    case LogoutArrives(_) => SignInOutKeeps(s, l);
    case Clear => SignInOutKeeps(s, l);
    case ConsumeExpired => SignInOutKeeps(s, l);
    case _ => CacheKeeps(s, l);
  }

  lemma AskKeeps(s: State, authenticated: bool)
    requires Inv(s)
    ensures Inv(Next(s, Ask(authenticated)).value)
  {
    hide RefreshInv, CacheInv;
  }

  lemma {:induction false} RunInv(ls: seq<Label>)
    requires Run(ls).Some?
    ensures Inv(Run(ls).value)
  {
    if |ls| > 0 {
      var before := ls[..|ls| - 1];
      RunInv(before);
      hide Inv, Next;
      NextKeeps(Run(before).value, ls[|ls| - 1]);
    }
  }

  // ----- What holds of every run -------------------------------------------------------------

  // Nobody is signed in without a token, and no token is there without a user.
  lemma UserIffToken(ls: seq<Label>)
    requires Run(ls).Some?
    ensures Run(ls).value.auth.user.None? <==> Run(ls).value.auth.token.None?
  {
    RunInv(ls);
    hide RefreshInv, RequestInv, CacheInv;
  }

  // At most one refresh of the present generation is under way.
  lemma SingleFlight(ls: seq<Label>, q: nat, r: nat)
    requires Run(ls).Some? && q < |Run(ls).value.refreshes| && r < |Run(ls).value.refreshes|
    requires var s := Run(ls).value;
             && s.refreshes[q].gen == s.auth.generation && !s.refreshes[q].phase.Cleaned?
             && s.refreshes[r].gen == s.auth.generation && !s.refreshes[r].phase.Cleaned?
    ensures q == r
  {
    RunInv(ls);
    hide RequestInv, CacheInv;
  }

  // A request is sent at most twice and refreshes at most once; every time it is
  // sent, and when it returns, the generation is the one it began under.
  lemma OneGenerationPerRequest(ls: seq<Label>, q: nat)
    requires Run(ls).Some? && q < |Run(ls).value.requests|
    ensures var request := Run(ls).value.requests[q];
            && 1 <= |request.sends| <= 2 && request.refreshed <= 1
            && (|request.sends| == 2 ==> request.refreshed == 1 && request.authenticated)
            && (forall i :: 0 <= i < |request.sends| ==> request.sends[i] == request.gen)
            && (request.phase.Returned? && request.authenticated ==> request.phase.at == request.gen)
  {
    RunInv(ls);
    assert RequestInv(Run(ls).value.requests[q], Run(ls).value.auth.generation);
    hide RefreshInv, CacheInv;
  }

  // What an answer was asked under: the auth generation, and for the accounts the
  // generation of the cache as well.
  datatype Stamp = Stamp(auth: nat, cache: Option<nat>)

  function BegunUnder(s: State, l: Label): Option<Stamp> {
    match l
    case RenewalArrives(r, _) => if r < |s.refreshes| then Some(Stamp(s.refreshes[r].gen, None)) else None
    case LoginArrives(k, _) => if k < |s.signIns| then Some(Stamp(s.signIns[k].gen, None)) else None
    case LoadArrives(k, _, _) =>
      if k < |s.loads| then Some(Stamp(s.loads[k].ticket.auth, Some(s.loads[k].ticket.generation))) else None
    case CreateArrives(k, _) =>
      if k < |s.creates| then Some(Stamp(s.creates[k].auth, Some(s.creates[k].generation))) else None
    case _ => None
  }

  // Either generation has moved on since.
  predicate Passed(s: State, w: Stamp) {
    w.auth < s.auth.generation || (w.cache.Some? && w.cache.value < s.cache.generation)
  }

  // Nobody else is signed in, and no other accounts are shown.
  predicate SameShown(s: State, s': State) {
    s'.auth.user == s.auth.user && s'.auth.token == s.auth.token && s'.auth.generation == s.auth.generation
    && s'.cache == s.cache
  }

  // What is answered after a generation it began under has moved on changes neither
  // who is signed in nor the accounts shown.
  lemma StaleAnswersAreInert(s: State, l: Label)
    requires Next(s, l).Some? && BegunUnder(s, l).Some? && Passed(s, BegunUnder(s, l).value)
    ensures SameShown(s, Next(s, l).value)
  {
  }

  // What is past stays past.
  lemma {:induction false} PastStaysPast(ls: seq<Label>, more: seq<Label>, w: Stamp)
    requires Run(ls).Some? && Run(ls + more).Some? && Passed(Run(ls).value, w)
    ensures Passed(Run(ls + more).value, w)
  {
    if |more| == 0 {
      assert ls + more == ls;
    } else {
      var all := ls + more;
      assert all[..|all| - 1] == ls + more[..|more| - 1];
      PastStaysPast(ls, more[..|more| - 1], w);
      GenerationGrows(Run(all[..|all| - 1]).value, all[|all| - 1]);
      hide Next;
    }
  }

  // Whatever was begun before the auth generation moved on, by a login, a logout, a
  // lost session or a renewal that finds another user, or before the cache was reset,
  // is inert at any time after it.
  lemma PassedIsInert(ls: seq<Label>, more: seq<Label>, l: Label)
    requires Run(ls).Some? && Run(ls + more).Some? && Next(Run(ls + more).value, l).Some?
    requires BegunUnder(Run(ls + more).value, l).Some?
    requires Passed(Run(ls).value, BegunUnder(Run(ls + more).value, l).value)
    ensures SameShown(Run(ls + more).value, Next(Run(ls + more).value, l).value)
  {
    PastStaysPast(ls, more, BegunUnder(Run(ls + more).value, l).value);
    StaleAnswersAreInert(Run(ls + more).value, l);
  }

  // The steps that leave all work of their kind behind.
  predicate LeavesBehind(s: State, l: Label) {
    match l
    case Login => true
    case Logout => true
    case Clear => true
    case ResetCache => true
    case RenewalArrives(_, _) => Next(s, l).Some? && Next(s, l).value.auth.generation != s.auth.generation
    case _ => false
  }

  // After each of them everything already begun is past: all of it, or with a reset of
  // the cache the loads and creates.
  lemma LeavingPasses(ls: seq<Label>, l: Label, w: Stamp)
    requires Run(ls).Some? && Next(Run(ls).value, l).Some? && LeavesBehind(Run(ls).value, l)
    requires w.auth <= Run(ls).value.auth.generation
    requires w.cache.Some? ==> w.cache.value <= Run(ls).value.cache.generation
    ensures Run(ls + [l]) == Next(Run(ls).value, l)
    ensures l != ResetCache || w.cache.Some? ==> Passed(Run(ls + [l]).value, w)
  {
    assert (ls + [l])[..|ls|] == ls;
    GenerationGrows(Run(ls).value, l);
    hide Run;
  }

  // So no sign-in, renewal, load or create that was begun before such a step changes
  // who is signed in or which accounts are shown at any time after it.
  lemma LeftBehindIsInert(ls: seq<Label>, l: Label, more: seq<Label>, m: Label)
    requires Run(ls).Some? && Next(Run(ls).value, l).Some? && LeavesBehind(Run(ls).value, l)
    requires Run(ls + [l] + more).Some? && Next(Run(ls + [l] + more).value, m).Some?
    requires BegunUnder(Run(ls + [l] + more).value, m).Some?
    requires var w := BegunUnder(Run(ls + [l] + more).value, m).value;
             && w.auth <= Run(ls).value.auth.generation
             && (w.cache.Some? ==> w.cache.value <= Run(ls).value.cache.generation)
             && (l == ResetCache ==> w.cache.Some?)
    ensures SameShown(Run(ls + [l] + more).value, Next(Run(ls + [l] + more).value, m).value)
  {
    hide Run, Next, BegunUnder, LeavesBehind, SameShown, Passed;
    var w := BegunUnder(Run(ls + [l] + more).value, m).value;
    LeavingPasses(ls, l, w);
    PassedIsInert(ls + [l], more, m);
  }

  // The stamps of all work under way satisfy what LeavingPasses asks of them.
  lemma StampsAreNotAhead(ls: seq<Label>, l: Label)
    requires Run(ls).Some? && BegunUnder(Run(ls).value, l).Some?
    ensures var w := BegunUnder(Run(ls).value, l).value;
            && w.auth <= Run(ls).value.auth.generation
            && (w.cache.Some? ==> w.cache.value <= Run(ls).value.cache.generation)
  {
    RunInv(ls);
    hide RequestInv;
  }

  // One signed-in user gives way to another within a generation in exactly one way:
  // a login is answered while somebody else is already signed in. A refresh that
  // finds another user moves the generation on.
  lemma UserSwapsExactly(s: State, l: Label)
    requires Next(s, l).Some? && s.auth.user.Some? && Next(s, l).value.auth.generation == s.auth.generation
    ensures Next(s, l).value.auth.user != s.auth.user <==>
            && l.LoginArrives? && l.signedIn.Some? && s.signIns[l.k].gen == s.auth.generation
            && l.signedIn.value.0 != s.auth.user.value
  {
  }

  // Such a run: a refresh signs user 1 in, a login begins, and its answer puts user 2
  // in place under the generation that was user 1's a moment ago.
  lemma UserSwaps() returns (ls: seq<Label>)
    ensures |ls| == 4 && Run(ls).Some? && Run(ls[..3]).Some?
    ensures Run(ls[..3]).value.auth.user == Some(1) && Run(ls).value.auth.user == Some(2)
    ensures Run(ls[..3]).value.auth.generation == Run(ls).value.auth.generation
  {
    ls := [TryRefresh, RenewalArrives(0, Renewed(1, 10, true)), Login, LoginArrives(0, Some((2, 20)))];
    assert ls[..3][..2][..1][..0] == [];
    assert ls[..3][..2] == ls[..2] && ls[..2][..1] == ls[..1] && ls[..1][..0] == [];
    assert Run(ls[..1]) == Next(INIT, TryRefresh);
    assert Run(ls[..2]) == Next(Run(ls[..1]).value, RenewalArrives(0, Renewed(1, 10, true)));
    assert Run(ls[..3]) == Next(Run(ls[..2]).value, Login);
    assert Run(ls) == Next(Run(ls[..3]).value, LoginArrives(0, Some((2, 20))));
  }

  // The accounts shown come from the load that was started last, if from a load.
  lemma LatestLoadWins(ls: seq<Label>, k: nat, items: Option<seq<Account>>, aborted: bool)
    requires Run(ls).Some? && Next(Run(ls).value, LoadArrives(k, items, aborted)).Some?
    ensures var s := Run(ls).value;
            var s' := Next(s, LoadArrives(k, items, aborted)).value;
            && k < |s.loads|
            && (s'.cache.items != s.cache.items ==>
                  k == |s.loads| - 1 && items == Some(s'.cache.items) && !aborted
                  && s.loads[k].ticket.auth == s.auth.generation && s.loads[k].ticket.generation == s.cache.generation)
            && (items.Some? && !aborted && k == |s.loads| - 1 && Latest(s.cache, s.auth.generation, s.loads[k].ticket) ==>
                  s'.cache.items == items.value)
  {
    RunInv(ls);
    hide RefreshInv, RequestInv;
  }

  // While nobody has signed in or out since the last load began, the store shows
  // that it is loading exactly while that load is under way.
  lemma LoadingExactly(ls: seq<Label>)
    requires Run(ls).Some?
    ensures var s := Run(ls).value;
            var n := |s.loads|;
            (n == 0 ==> !s.cache.loading) &&
            (n > 0 && s.loads[n - 1].ticket.auth == s.auth.generation ==>
              (s.cache.loading <==>
                 s.loads[n - 1].pending && s.loads[n - 1].ticket.generation == s.cache.generation
                 && s.loads[n - 1].ticket.sequence == s.cache.loadSequence))
  {
    RunInv(ls);
    hide RefreshInv, RequestInv;
  }
}
