/** Request sequences through the handlers, as one browser would drive them,
    and what they leave the principal as. */
module Flows {
  import opened Types
  import opened Views

  /** A provider answer that the token endpoint accepted. */
  predicate Accepted(exchange: Exchange)
  {
    ErrorKey !in exchange.result
  }

  /** The login page followed by the provider's redirect carrying the state
      that page embedded and a code: the state check passes and the admin
      account, when there is one, is logged in. */
  method SignInWithProvider(config: Config, freshState: string, code: string, users: seq<User>,
                            checkPassword: (User, string) -> bool, netloc: string -> string,
                            acquire: TokenRequest -> Exchange)
    returns (page: Response, callback: Response, loggedIn: Option<User>)
    requires code != ""
    requires forall request :: Accepted(acquire(request))
    ensures page.LoginPage? && page.authRequest.state == freshState
    ensures callback == RedirectHome
    ensures loggedIn == FindUser(users, AdminUsername)
  {
    var app := new App(config);
    page := app.Login(None, None, users, checkPassword, netloc, freshState);
    var args := map[StateKey := page.authRequest.state, CodeKey := code];
    assert StateMatches(args, app.session);
    callback := app.Authorized(args, users, acquire);
    loggedIn := app.principal;
  }

  /** A callback that carries no state, reaching a session that never
      stored one, passes the state check and logs the admin account in. */
  method CallbackWithoutState(config: Config, code: string, users: seq<User>, acquire: TokenRequest -> Exchange)
    returns (callback: Response, loggedIn: Option<User>)
    requires code != ""
    requires forall request :: Accepted(acquire(request))
    ensures callback == RedirectHome
    ensures loggedIn == FindUser(users, AdminUsername)
  {
    var app := new App(config);
    var args := map[CodeKey := code];
    assert StateMatches(args, app.session);
    callback := app.Authorized(args, users, acquire);
    loggedIn := app.principal;
  }

  /** The nonce outlives a logout whose session holds no claims: the same
      callback, replayed before the login page is rendered again, logs the
      admin account in again. */
  method ReplayAfterLogout(config: Config, freshState: string, code: string, users: seq<User>,
                           checkPassword: (User, string) -> bool, netloc: string -> string,
                           acquire: TokenRequest -> Exchange)
    returns (afterLogout: Option<User>, afterReplay: Option<User>)
    requires code != ""
    requires forall request :: Accepted(acquire(request)) && !IdTokenClaims(acquire(request).result).Truthy()
    ensures afterLogout == None
    ensures afterReplay == FindUser(users, AdminUsername)
  {
    var app := new App(config);
    var page := app.Login(None, None, users, checkPassword, netloc, freshState);
    var args := map[StateKey := freshState, CodeKey := code];
    var first := app.Authorized(args, users, acquire);
    var out := app.Logout();
    afterLogout := app.principal;
    assert StateMatches(args, app.session);
    var second := app.Authorized(args, users, acquire);
    afterReplay := app.principal;
  }

  /** Rendering the login page again rotates the nonce: after a logout and a
      new login page, the old callback fails the state check and logs no one in. */
  method ReplayAfterNewLoginPage(config: Config, firstState: string, secondState: string, code: string,
                                 users: seq<User>, checkPassword: (User, string) -> bool,
                                 netloc: string -> string, acquire: TokenRequest -> Exchange)
    returns (replay: Response, afterReplay: Option<User>)
    requires code != "" && firstState != secondState
    requires forall request :: Accepted(acquire(request)) && !IdTokenClaims(acquire(request).result).Truthy()
    ensures replay == RedirectHome
    ensures afterReplay == None
  {
    var app := new App(config);
    var page := app.Login(None, None, users, checkPassword, netloc, firstState);
    var args := map[StateKey := firstState, CodeKey := code];
    var first := app.Authorized(args, users, acquire);
    var out := app.Logout();
    var again := app.Login(None, None, users, checkPassword, netloc, secondState);
    assert !StateMatches(args, app.session);
    replay := app.Authorized(args, users, acquire);
    afterReplay := app.principal;
  }
}
