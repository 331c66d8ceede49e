// Who is signed in, as the browser keeps it: the auth store, the request wrapper that
// refreshes once, and the accounts cache, each cut at its awaits.
module AuthStores {
  import opened Prelude

  type User = nat       // by username
  type AccessToken = nat
  type Account = nat

  datatype Outcome = Refreshed | NoSession | Expired | Unavailable | Stale

  // What comes of POST /tokens/renew.
  datatype Renewal =
    | NoContent                                              // no refresh cookie
    | Renewed(user: User, token: AccessToken, verified: bool)
    | Malformed
    | NotVerified                                            // an error response that says so
    | Unauthorized
    | Broken                                                 // any other failure

  // `attempt` is the refresh that #refreshAttempt holds.
  datatype Auth = Auth(user: Option<User>, token: Option<AccessToken>, generation: nat, attempt: Option<nat>,
                       loggingOut: bool, renewalUnavailable: bool, sessionExpired: bool)

  const SIGNED_OUT := Auth(None, None, 0, None, false, false, false)

  function Invalidated(a: Auth): Auth {
    a.(generation := a.generation + 1, user := None, token := None, renewalUnavailable := false,
       sessionExpired := false)
  }

  // performRefresh once the response is there.
  function AfterRenewal(a: Auth, gen: nat, r: Renewal): Auth {
    if a.generation != gen then a
    else
      match r
      case NoContent => Invalidated(a)
      case NotVerified => Invalidated(a)
      case Unauthorized => Invalidated(a).(sessionExpired := true)
      case Renewed(user, token, verified) =>
        if !verified then Invalidated(a)
        else
          a.(generation := if a.user.Some? && a.user.value != user then a.generation + 1 else a.generation,
             token := Some(token), user := Some(user), renewalUnavailable := false)
      case Malformed => a.(renewalUnavailable := true)
      case Broken => a.(renewalUnavailable := true)
  }

  function OutcomeOf(a: Auth, gen: nat, r: Renewal): Outcome {
    if a.generation != gen then Stale
    else
      match r
      case NoContent => NoSession
      case NotVerified => NoSession
      case Unauthorized => Expired
      case Renewed(_, _, verified) => if verified then Refreshed else NoSession
      case Malformed => Unavailable
      case Broken => Unavailable
  }

  function LoginBegun(a: Auth): Auth {
    a.(renewalUnavailable := false, sessionExpired := false, generation := a.generation + 1)
  }

  function LoginApplied(a: Auth, gen: nat, user: User, token: AccessToken): Auth {
    if a.generation == gen then a.(user := Some(user), token := Some(token)) else a
  }

  function LogoutBegun(a: Auth): Auth {
    Invalidated(a).(loggingOut := true)
  }

  class AuthStore {
    var user: Option<User>
    var token: Option<AccessToken>
    var generation: nat
    var attempt: Option<nat>
    var loggingOut: bool
    var renewalUnavailable: bool
    var sessionExpired: bool

    ghost function View(): Auth
      reads this
    {
      Auth(user, token, generation, attempt, loggingOut, renewalUnavailable, sessionExpired)
    }

    constructor ()
      ensures View() == SIGNED_OUT
    {
      user, token, generation, attempt := None, None, 0, None;
      loggingOut, renewalUnavailable, sessionExpired := false, false, false;
    }

    method InvalidateSession()
      modifies this
      ensures View() == Invalidated(old(View()))
      ensures user.None? && token.None? && generation == old(generation) + 1
      ensures !renewalUnavailable && !sessionExpired && attempt == old(attempt) && loggingOut == old(loggingOut)
    {
      generation := generation + 1;
      user, token := None, None;
      renewalUnavailable, sessionExpired := false, false;
    }

    method ApplyRenewal(gen: nat, r: Renewal) returns (outcome: Outcome)
      modifies this
      ensures View() == AfterRenewal(old(View()), gen, r) && outcome == OutcomeOf(old(View()), gen, r)
      // A stale answer changes nothing; one that says there is no session signs out.
      ensures outcome == Stale <==> gen != old(generation)
      ensures outcome == Stale || outcome == Unavailable ==>
                user == old(user) && token == old(token) && generation == old(generation) && sessionExpired == old(sessionExpired)
      ensures outcome == NoSession || outcome == Expired ==>
                && user.None? && token.None? && generation == old(generation) + 1 && !renewalUnavailable
                && (sessionExpired <==> outcome == Expired)
      ensures outcome == Expired <==> gen == old(generation) && r == Unauthorized
      ensures outcome == Unavailable <==> gen == old(generation) && (r == Malformed || r == Broken)
      ensures outcome == Refreshed <==> gen == old(generation) && r.Renewed? && r.verified
      ensures outcome == Refreshed ==>
                && user == Some(r.user) && token == Some(r.token) && sessionExpired == old(sessionExpired)
                && (generation == old(generation) + 1 <==> old(user).Some? && old(user) != user)
                && (generation == old(generation) <==> old(user).None? || old(user) == user)
      ensures renewalUnavailable == if outcome == Unavailable then true
                                    else outcome == Stale && old(renewalUnavailable)
      ensures attempt == old(attempt) && loggingOut == old(loggingOut)
    {
      if generation != gen { return Stale; }
      match r
      case NoContent =>
        InvalidateSession();
        return NoSession;
      case NotVerified =>
        InvalidateSession();
        return NoSession;
      case Unauthorized =>
        InvalidateSession();
        sessionExpired := true;
        return Expired;
      case Renewed(who, access, verified) =>
        if !verified {
          InvalidateSession();
          return NoSession;
        }
        if user.Some? && user.value != who { generation := generation + 1; }
        token := Some(access);
        user := Some(who);
        renewalUnavailable := false;
        return Refreshed;
      case Malformed =>
        renewalUnavailable := true;
        return Unavailable;
      case Broken =>
        renewalUnavailable := true;
        return Unavailable;
    }

    // The start of login; the generation it will be held to.
    method BeginLogin() returns (gen: Option<nat>)
      modifies this
      ensures gen.None? <==> old(loggingOut)
      ensures gen.None? ==> View() == old(View())
      ensures gen.Some? ==> View() == LoginBegun(old(View())) && gen.value == generation
      ensures gen.Some? ==> generation == old(generation) + 1 && !renewalUnavailable && !sessionExpired
      ensures user == old(user) && token == old(token) && attempt == old(attempt) && loggingOut == old(loggingOut)
    {
      if loggingOut { return None; }
      renewalUnavailable, sessionExpired := false, false;
      generation := generation + 1;
      return Some(generation);
    }

    method ApplyLogin(gen: nat, who: User, access: AccessToken)
      modifies this
      ensures View() == LoginApplied(old(View()), gen, who, access)
      ensures generation == gen ==> user == Some(who) && token == Some(access)
      ensures generation != gen ==> user == old(user) && token == old(token)
      ensures generation == old(generation) && attempt == old(attempt) && loggingOut == old(loggingOut)
    {
      if generation == gen { user, token := Some(who), Some(access); }
    }

    method BeginLogout()
      modifies this
      ensures View() == LogoutBegun(old(View()))
      ensures user.None? && token.None? && loggingOut && generation == old(generation) + 1
      ensures !renewalUnavailable && !sessionExpired && attempt == old(attempt)
    {
      loggingOut := true;
      generation := generation + 1;
      user, token := None, None;
      renewalUnavailable, sessionExpired := false, false;
    }

    // tryRefresh: joins the attempt of this generation, if there is one.
    method JoinOrStart(known: seq<nat>) returns (joined: Option<nat>)
      requires attempt.Some? ==> attempt.value < |known|
      modifies `attempt
      ensures joined == if old(attempt).Some? && known[old(attempt).value] == generation then old(attempt) else None
      ensures attempt == if joined.Some? then old(attempt) else Some(|known|)
    {
      if attempt.Some? && known[attempt.value] == generation { return attempt; }
      attempt := Some(|known|);
      return None;
    }
  }

  // ----- The accounts cache --------------------------------------------------------------

  datatype Cache = Cache(items: seq<Account>, loading: bool, failed: bool, loaded: bool, generation: nat,
                         loadSequence: nat)

  const EMPTY_CACHE := Cache([], false, false, false, 0, 0)

  // What a load remembers from its start.
  datatype Ticket = Ticket(auth: nat, generation: nat, sequence: nat)

  predicate Latest(c: Cache, auth: nat, t: Ticket) {
    auth == t.auth && c.generation == t.generation && c.loadSequence == t.sequence
  }

  function LoadBegun(c: Cache): Cache {
    c.(loadSequence := c.loadSequence + 1, loading := true, failed := false)
  }

  // `items`: the response, or None for a failure.
  function LoadEnded(c: Cache, auth: nat, t: Ticket, items: Option<seq<Account>>, aborted: bool): Cache {
    if !Latest(c, auth, t) then c
    else if items.Some? && !aborted then c.(items := items.value, loaded := true, loading := false)
    else c.(failed := c.failed || (items.None? && !aborted), loading := false)
  }

  function CacheReset(c: Cache): Cache {
    Cache([], false, false, false, c.generation + 1, c.loadSequence + 1)
  }

  class AccountsStore {
    var items: seq<Account>
    var loading: bool
    var failed: bool
    var loaded: bool
    var generation: nat
    var loadSequence: nat

    ghost function View(): Cache
      reads this
    {
      Cache(items, loading, failed, loaded, generation, loadSequence)
    }

    constructor ()
      ensures View() == EMPTY_CACHE
    {
      items, loading, failed, loaded, generation, loadSequence := [], false, false, false, 0, 0;
    }

    method BeginLoad(auth: nat) returns (t: Ticket)
      modifies this
      ensures View() == LoadBegun(old(View())) && t == Ticket(auth, generation, loadSequence)
      ensures loadSequence == old(loadSequence) + 1 && loading && !failed
      ensures items == old(items) && loaded == old(loaded) && generation == old(generation)
    {
      loadSequence := loadSequence + 1;
      loading := true;
      failed := false;
      return Ticket(auth, generation, loadSequence);
    }

    method EndLoad(auth: nat, t: Ticket, response: Option<seq<Account>>, aborted: bool) returns (applied: bool)
      modifies this
      ensures View() == LoadEnded(old(View()), auth, t, response, aborted)
      ensures applied <==> response.Some? && !aborted && Latest(old(View()), auth, t)
      ensures items == if applied then response.value else old(items)
      ensures loaded == (applied || old(loaded)) && generation == old(generation) && loadSequence == old(loadSequence)
      ensures var latest := t == Ticket(auth, old(generation), old(loadSequence));
              && (loading <==> old(loading) && !latest)
              && (failed <==> old(failed) || (latest && response.None? && !aborted))
    {
      var latest := auth == t.auth && generation == t.generation && loadSequence == t.sequence;
      applied := false;
      if response.Some? {
        if !aborted && latest {
          items, loaded := response.value, true;
          applied := true;
        }
      } else if latest && !aborted {
        failed := true;
      }
      if latest { loading := false; }
    }

    method Reset()
      modifies this
      ensures View() == CacheReset(old(View()))
      ensures items == [] && !loading && !loaded && !failed
      ensures generation == old(generation) + 1 && loadSequence == old(loadSequence) + 1
    {
      generation, loadSequence := generation + 1, loadSequence + 1;
      items, loading, loaded, failed := [], false, false, false;
    }
  }
}
