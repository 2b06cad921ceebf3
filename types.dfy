/** Values exchanged between the request handlers, the session store, the
    credential store and the identity provider. */
module Types {

  datatype Option<+T> = None | Some(value: T)

  /** `m.get(k)` of a Python dictionary. */
  function Get<K, V>(m: map<K, V>, k: K): Option<V>
  {
    if k in m then Some(m[k]) else None
  }

  /** An entry of the session or of a token response: a string (the state
      nonce, the serialized token cache, an error code) or a dictionary of
      identity-token claims. */
  datatype Value = Str(s: string) | Claims(claims: map<string, string>)
  {
    /** Python truthiness: the empty string and the empty dictionary are false. */
    predicate Truthy()
    {
      match this
      case Str(s) => s != ""
      case Claims(c) => c != map[]
    }
  }

  /** A row of the credential store. */
  datatype User = User(username: string, passwordHash: string)

  /** The fields of a login form that validated on submission. */
  datatype Credentials = Credentials(username: string, password: string, rememberMe: bool)

  /** The parameters of the provider authorization URL built for the login page. */
  datatype AuthRequest = AuthRequest(scopes: seq<string>, state: string, redirectUri: string)

  /** A token cache: its serialized form and whether it changed since it was loaded. */
  datatype TokenCache = TokenCache(blob: string, hasStateChanged: bool)

  /** One authorization-code redemption sent to the provider's token endpoint. */
  datatype TokenRequest = TokenRequest(code: string, scopes: seq<string>, redirectUri: string, cache: TokenCache)

  /** What the token endpoint answered, and the working cache after the call. */
  datatype Exchange = Exchange(result: map<string, Value>, cache: TokenCache)

  /** What a handler answers: a redirect or a rendered page. */
  datatype Response =
    | RedirectHome
    | RedirectLogin
    | Redirect(url: string)
    | LoginPage(authRequest: AuthRequest)
    | RequestErrorPage(args: map<string, string>)
    | TokenErrorPage(result: map<string, Value>)

  /** Deployment configuration and the external URLs the framework derives from it. */
  datatype Config = Config(
    authority: string,
    scopes: seq<string>,
    callbackUri: string,
    loginUrl: string)

  const StateKey := "state"
  const UserKey := "user"
  const TokenCacheKey := "token_cache"
  const ErrorKey := "error"
  const CodeKey := "code"
  const ClaimsKey := "id_token_claims"
  const AdminUsername := "admin"
}
