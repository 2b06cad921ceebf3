# Authentication and session handling of the Flask blog application

This project models the sign-in core of a small Flask blog application
(`FlaskWebProject/views.py`). It covers:

- the local username/password login;
- the Microsoft identity-platform sign-in, which is the redirection-endpoint
  step of the OAuth 2.0 authorization-code grant (section 4.1.2 of RFC 6749)
  with its `state` check against cross-site request forgery (section 10.12 of
  RFC 6749);
- the session-bound token cache;
- logout;
- the URL strings the views build.

The model has five modules:

- `Types`: the values that move between the handlers, the session store, the
  credential store and the provider. `Value` is a session entry: a string or a
  dictionary of identity-token claims. `Value.Truthy` is Python's truthiness.
- `Urls`: the blob-storage image prefix, the provider logout URL, and the
  post-login `next` guard against open redirects.
- `Cache`: `_load_cache` and `_save_cache` as functions over the session map.
- `Views`: the class `App`. Its fields are the browser's `session` map and the
  logged-in `principal`. It has one method per route (`Login`, `Authorized`,
  `Logout`) and `SaveCache`. A ghost field `tokenRequests` records every code
  redemption sent to the token endpoint, so the contracts can say when no
  exchange happened. The object invariant `Valid()` says that a stored token
  cache is a string.
- `Flows`: request sequences one browser drives through a fresh `App`.

Outside dependencies are parameters:

- the credential store is a `seq<User>` table, and `filter_by(...).first()`
  is `FindUser`;
- `checkPassword` is the password-hash check;
- `netloc` is Werkzeug's URL parser;
- `acquire` is the token endpoint, which returns the response dictionary and
  the working cache after the call;
- `freshState` is the UUID drawn for the login page.

Pages and framework URLs are opaque `Response` tags.

The model follows the code as written, including these behaviours, which a
hardened design would not have:

- A missing `admin` account does not produce an error page. The callback
  still writes `session["user"]`, saves the cache and redirects home, and the
  principal stays as it was (views.py:156-165).
- The stored `state` is never cleared after a callback (views.py:137). The
  same callback URL passes the check again until the login page is rendered
  again, which overwrites the nonce (views.py:123), or the session is cleared
  (views.py:179). `Flows.ReplayAfterLogout` shows the replay across a logout
  whose session holds empty claims. `Flows.ReplayAfterNewLoginPage` shows that
  a new login page closes the window.
- When neither the request nor the session has a `state`, the comparison
  passes (`None == None`). `Flows.CallbackWithoutState` shows a callback with
  no state logging the admin account in.
- Logout clears the whole session only when `session["user"]` is truthy. A
  provider login whose token response held no claims stores `{}`, and logging
  out of that session keeps every entry (views.py:178).
- A callback whose state matches but which carries neither `error` nor a
  non-empty `code` redirects home and changes nothing (views.py:143, 165).

## Model

| member | source | states |
|---|---|---|
| `Views.App.Login` | FlaskWebProject/views.py:93-129 | An authenticated user is redirected home and nothing changes. With a validated form, the session is untouched. An unknown user or a failed password check redirects to login and leaves the principal as it was. Otherwise the principal becomes the first stored user with that name and the redirect is the guarded `next` target. Without a validated form, `session["state"]` is overwritten with the fresh nonce and the rendered authorization request carries that nonce, the configured scopes and the callback URI. |
| `Views.App.Authorized` | FlaskWebProject/views.py:135-165 | A state mismatch redirects home with no token request and no change to the session or principal. A matching state with `error` in the arguments renders the error page with the arguments and changes nothing. With a non-empty code, exactly one token request is sent, carrying the code, the scopes, the same callback URI as the login page, and the cache loaded from the session. An error in the response renders it and leaves `user`, `token_cache` and the principal untouched. Otherwise `session["user"]` becomes the response's `id_token_claims` (or `{}`) and the cache is saved. The principal becomes the admin account if and only if one exists and is otherwise unchanged, and the handler redirects home. The stored state is never changed. |
| `Views.App.Logout` | FlaskWebProject/views.py:171-186 | The principal is always cleared. If `session["user"]` is truthy, the session becomes empty and the redirect is the provider logout URL. Otherwise the session is untouched and the redirect goes to login. |
| `Views.App.SaveCache` | FlaskWebProject/views.py:199-201 | The session is rewritten as `StoreCache` says: `token_cache` changes only when the cache reports a change. The principal is unchanged. |
| `Views.FindUser` | FlaskWebProject/views.py:104 | The result is absent if and only if no stored user has the name. Otherwise it is the first stored user with that name. |
| `Views.StateMatches` | FlaskWebProject/views.py:137 | The check passes when both states are absent. A request state matches exactly when the session stores the same string. A session state with no request state fails. |
| `Cache.LoadCache` | FlaskWebProject/views.py:192-196 | A freshly loaded cache has not changed. It holds the session's serialized cache when that entry is present and non-empty, and is empty otherwise. |
| `Cache.StoreCache` | FlaskWebProject/views.py:199-201 | An unchanged cache leaves the session as it was. A changed cache sets `token_cache` to its serialization. Every other entry is kept. |
| `Cache.LoadAfterStore` | FlaskWebProject/views.py:192-201 | Saving keeps the token cache a string. The next load returns what was saved, or the same cache as before when nothing was saved. |
| `Urls.PostLoginTarget` | FlaskWebProject/views.py:115-120 | The redirect goes to `next` if and only if `next` is present, non-empty and has an empty netloc. Any honoured target has an empty netloc. Every other case goes home. |
| `Urls.ProviderLogoutUrl` | FlaskWebProject/views.py:180-184 | The URL is the authority, then `/oauth2/v2.0/logout`, then `?post_logout_redirect_uri=`, then the login URL, each part at its position and nothing else. |
| `Urls.ProviderLogoutUrlInjective` | FlaskWebProject/views.py:180-184 | For one authority, equal logout URLs carry equal post-logout login URLs. |
| `Urls.ImageSourceUrl` | FlaskWebProject/views.py:43-46 | The prefix is `https://`, then the storage account, then `.blob.core.windows.net/`, then the container, then a final `/`, each part at its position. |
| `Urls.ImageSourceUrlInjective` | FlaskWebProject/views.py:69-72 | For account names without a dot, equal image prefixes mean equal accounts and equal containers. |
| `Flows.SignInWithProvider` | FlaskWebProject/views.py:122-165 | The login page followed by a callback that echoes its state and carries a code (with an accepting token endpoint) redirects home and logs in exactly the admin account if one exists. |
| `Flows.CallbackWithoutState` | FlaskWebProject/views.py:135-165 | On a fresh session, a callback with a code and no state passes the state check and logs in the admin account if one exists. |
| `Flows.ReplayAfterLogout` | FlaskWebProject/views.py:135-186 | After a provider login whose response holds no claims, logout clears the principal but keeps the nonce. If the callback is replayed before the login page is rendered again and the token endpoint accepts the replayed request, it logs the admin account in again: the application itself does not stop the replay. |
| `Flows.ReplayAfterNewLoginPage` | FlaskWebProject/views.py:123-186 | After the same login, logout and a new login page with a different nonce, the replayed callback fails the state check, redirects home and leaves no one logged in. |

## Left out

- The post routes (`home`, `new_post`, `post`) are out of scope. They query and save posts through the ORM and upload to blob storage. Only their image-prefix string is modelled.
- Flask routing, `render_template`, `url_for` and the `login_required` guard are framework glue. Pages and framework URLs are opaque tags and configuration strings.
- `flash` is framework glue. It stores its message in the session under Flask's own key, and the model does not track that key.
- Flask-Login keeps its own session keys. The model tracks the logged-in user only through `principal`.
- Flask-WTF keeps a `csrf_token` key in the session. Building the login form (views.py:98) writes that key when it is missing: on the first login-page render and on the first render after `session.clear()` (views.py:179). The model does not track this key, so `Views.App.Login` states that rendering the page changes only `state`.
- Views.FindUser: matches names by exact string equality. The source runs `filter_by(username=...)` (views.py:104, 158) in the configured SQL Server database. That database compares strings by its own rules: it ignores trailing spaces, and under the default collation it also ignores case. So the source can find the row `admin` for the name `admin ` or `ADMIN` where the model finds none. For the same reason, the conjunct of `Views.App.Login` that says the principal's username equals the submitted name holds of the model only.
- Views.App.Login: does not model the remember-me cookie that `login_user(..., remember=...)` sets. The flag is read from the form and not used further. It also has no "raised" outcome. In the source, two calls can raise and end the request in a server error: the ORM query for the user (views.py:104), and `_build_auth_url` (views.py:124), which constructs the MSAL client (views.py:214, 205). When the second call fails, `session["state"]` already holds the fresh nonce (views.py:123). In the model, `FindUser` and the construction of the `AuthRequest` value are total, so neither failure can happen.
- The MSAL library is a foreign library that calls the network. This covers `ConfidentialClientApplication`, `get_authorization_request_url`, `acquire_token_by_authorization_code`, and the cache's `serialize`/`deserialize`. The token endpoint is the `acquire` parameter. The authorization URL is the `AuthRequest` value it encodes. A cache's serialization is modelled as its stored blob.
- Werkzeug's `url_parse` is a foreign library. Its netloc is the `netloc` parameter. The guard rejects only targets that name a host. A target with a scheme and no host, such as `javascript:...` or `http:evil.example`, has an empty netloc and is honoured, and `Urls.PostLoginTarget` states exactly that: any non-empty `next` with an empty netloc is followed, whatever its scheme.
- Views.App.Authorized: has no "raised" outcome. In the source, four calls can raise and end the request in a server error instead of a page: `cache.deserialize` on a corrupt blob (views.py:195), the MSAL client construction (views.py:145), `acquire_token_by_authorization_code` on a transport failure (views.py:147), and the ORM query for the admin account (views.py:158). A failure in the ORM query would leave `session["user"]` already written. In the model, `acquire`, `Deserialize` and `FindUser` are total, so none of these failures can happen.
- `uuid.uuid4` is randomness. The fresh nonce is a parameter.
- The credential store's password hashing (`check_password`) lives in models.py. models.py is not part of this model, so the check is the `checkPassword` parameter.
- Query arguments are a plain map. Werkzeug's multi-valued arguments are reduced to the first value, which is what `get` returns.
- Logging, app setup (`__init__.py`, `app.py`) and `config.py` are out of scope. They only read environment variables and configure extensions; the configuration values the handlers use are fields of `Config`, and the blob account and container are the parameters of `Urls.ImageSourceUrl`.
- Concurrent requests on one session are out of scope. Each handler is one atomic step on the session.
