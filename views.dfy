/** The login, provider-callback and logout handlers, acting on one browser's
    session and its logged-in principal. */
module Views {
  import opened Types
  import opened Cache
  import opened Urls

  /** `User.query.filter_by(username=name).first()`: the first row of the
      credential store with that username. */
  function FindUser(users: seq<User>, name: string): (r: Option<User>)
    ensures r.None? <==> forall i :: 0 <= i < |users| ==> users[i].username != name
    ensures r.Some? ==> exists i :: 0 <= i < |users| && users[i] == r.value && r.value.username == name
                                    && forall j :: 0 <= j < i ==> users[j].username != name
  {
    if |users| == 0 then None
    else if users[0].username == name then Some(users[0])
    else
      var r := FindUser(users[1..], name);
      assert forall i :: 1 <= i < |users| ==> users[i] == users[1..][i - 1];
      r
  }

  /** A submitted login form names a stored user whose password checks. */
  predicate Authenticates(users: seq<User>, checkPassword: (User, string) -> bool, form: Credentials)
  {
    var user := FindUser(users, form.username);
    user.Some? && checkPassword(user.value, form.password)
  }

  /** `request.args.get("state") == session.get("state")`. Both absent compare equal. */
  function StateMatches(args: map<string, string>, session: map<string, Value>): (ok: bool)
    ensures StateKey !in args && StateKey !in session ==> ok
    ensures StateKey in args ==> (ok <==> StateKey in session && session[StateKey] == Str(args[StateKey]))
    ensures StateKey !in args && StateKey in session ==> !ok
  {
    (if StateKey in args then Some(Str(args[StateKey])) else None) == Get(session, StateKey)
  }

  /** The callback carries a non-empty authorization code. */
  predicate HasCode(args: map<string, string>)
  {
    CodeKey in args && args[CodeKey] != ""
  }

  /** `result.get("id_token_claims", {})`. */
  function IdTokenClaims(result: map<string, Value>): Value
  {
    if ClaimsKey in result then result[ClaimsKey] else Claims(map[])
  }

  /** The session was populated by a provider login whose claims are non-empty. */
  predicate HasExternalUser(session: map<string, Value>)
  {
    UserKey in session && session[UserKey].Truthy()
  }

  class App {
    const config: Config
    var session: map<string, Value>
    var principal: Option<User>
    /** The authorization-code redemptions sent to the provider's token endpoint. */
    ghost var tokenRequests: seq<TokenRequest>

    ghost predicate Valid()
      reads this
    {
      HoldsBlob(session)
    }

    constructor (config: Config)
      ensures Valid()
      ensures this.config == config && session == map[] && principal == None && tokenRequests == []
    {
      this.config := config;
      session := map[];
      principal := None;
      tokenRequests := [];
    }

    /** The login route. `form` is the submitted form when it validated
        (a POST), `None` on a GET or a form that did not validate. */
    method Login(form: Option<Credentials>, next: Option<string>, users: seq<User>,
                 checkPassword: (User, string) -> bool, netloc: string -> string, freshState: string)
      returns (r: Response)
      requires Valid()
      modifies this
      ensures Valid() && tokenRequests == old(tokenRequests)
      // an authenticated user is sent home and nothing changes
      ensures old(principal).Some? ==> r == RedirectHome && session == old(session) && principal == old(principal)
      // a validated form never touches the session
      ensures old(principal).None? && form.Some? ==> session == old(session)
      ensures old(principal).None? && form.Some? && !Authenticates(users, checkPassword, form.value) ==>
        r == RedirectLogin && principal == old(principal)
      ensures old(principal).None? && form.Some? && Authenticates(users, checkPassword, form.value) ==>
        principal == FindUser(users, form.value.username) && principal.value.username == form.value.username &&
        r == PostLoginTarget(next, netloc)
      // otherwise the page is rendered with a fresh nonce, stored and embedded in the authorization URL
      ensures old(principal).None? && form.None? ==>
        session == old(session)[StateKey := Str(freshState)] && principal == old(principal) &&
        r == LoginPage(AuthRequest(config.scopes, freshState, config.callbackUri))
      ensures r.LoginPage? ==> Get(session, StateKey) == Some(Str(r.authRequest.state))
    {
      if principal.Some? {
        return RedirectHome;
      }
      if form.Some? {
        var user := FindUser(users, form.value.username);
        if user.None? || !checkPassword(user.value, form.value.password) {
          return RedirectLogin;
        }
        principal := user;
        return PostLoginTarget(next, netloc);
      }
      session := session[StateKey := Str(freshState)];
      var state := session[StateKey].s;
      return LoginPage(AuthRequest(config.scopes, state, config.callbackUri));
    }

    /** The provider's redirect back to the application with `state` and
        either `code` or `error`. `acquire` stands for the token endpoint. */
    method Authorized(args: map<string, string>, users: seq<User>, acquire: TokenRequest -> Exchange)
      returns (r: Response)
      requires Valid()
      modifies this
      ensures Valid()
      // the nonce is never consumed
      ensures Get(session, StateKey) == Get(old(session), StateKey)
      ensures !StateMatches(args, old(session)) ==>
        r == RedirectHome && session == old(session) && principal == old(principal) &&
        tokenRequests == old(tokenRequests)
      ensures StateMatches(args, old(session)) && ErrorKey in args ==>
        r == RequestErrorPage(args) && session == old(session) && principal == old(principal) &&
        tokenRequests == old(tokenRequests)
      ensures StateMatches(args, old(session)) && ErrorKey !in args && !HasCode(args) ==>
        r == RedirectHome && session == old(session) && principal == old(principal) &&
        tokenRequests == old(tokenRequests)
      ensures StateMatches(args, old(session)) && ErrorKey !in args && HasCode(args) ==>
        var request := TokenRequest(args[CodeKey], config.scopes, config.callbackUri, LoadCache(old(session)));
        var exchange := acquire(request);
        tokenRequests == old(tokenRequests) + [request] &&
        if ErrorKey in exchange.result then
          r == TokenErrorPage(exchange.result) && session == old(session) && principal == old(principal)
        else
          r == RedirectHome &&
          session == StoreCache(old(session)[UserKey := IdTokenClaims(exchange.result)], exchange.cache) &&
          principal == (if FindUser(users, AdminUsername).Some? then FindUser(users, AdminUsername) else old(principal))
    {
      if !StateMatches(args, session) {
        return RedirectHome;
      }
      if ErrorKey in args {
        return RequestErrorPage(args);
      }
      if HasCode(args) {
        var cache := LoadCache(session);
        var request := TokenRequest(args[CodeKey], config.scopes, config.callbackUri, cache);
        tokenRequests := tokenRequests + [request];
        var exchange := acquire(request);
        if ErrorKey in exchange.result {
          return TokenErrorPage(exchange.result);
        }
        session := session[UserKey := IdTokenClaims(exchange.result)];
        var admin := FindUser(users, AdminUsername);
        if admin.Some? {
          principal := admin;
        }
        SaveCache(exchange.cache);
      }
      return RedirectHome;
    }

    /** The logout route. */
    method Logout() returns (r: Response)
      requires Valid()
      modifies this
      ensures Valid() && tokenRequests == old(tokenRequests)
      ensures principal == None
      ensures HasExternalUser(old(session)) ==>
        session == map[] && r == Redirect(ProviderLogoutUrl(config.authority, config.loginUrl))
      ensures !HasExternalUser(old(session)) ==> session == old(session) && r == RedirectLogin
    {
      principal := None;
      if HasExternalUser(session) {
        session := map[];
        return Redirect(ProviderLogoutUrl(config.authority, config.loginUrl));
      }
      return RedirectLogin;
    }

    /** Writes the cache back into the session when it changed. */
    method SaveCache(cache: TokenCache)
      requires Valid()
      modifies this
      ensures Valid()
      ensures session == StoreCache(old(session), cache)
      ensures principal == old(principal) && tokenRequests == old(tokenRequests)
    {
      session := StoreCache(session, cache);
    }
  }
}
