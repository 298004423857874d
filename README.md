# JWT login demo: session store, page handlers and account rules in Dafny

This project models the logic of a small email/password login application
(4GeeksAcademy/Garset-jwt). It has three parts.

- **The session store** (`src/front/store.js`). `Store.Reduce` is `storeReducer`:
  a total function over four action tags, where every other tag leaves the
  state unchanged. `Store.InitialStore` is `initialStore`: it builds the
  starting state from the persisted `token` and `user` texts.
- **The page handlers** (`src/front/pages/Home.jsx`, `src/front/pages/Dashboard.jsx`).
  The pages are classes (`Home.HomePage`, `Dashboard.DashboardPage`). Every
  handler is one atomic step over three things:
  - the shared global store (`Browser.GlobalReducer`);
  - `localStorage`, a string-to-string map (`Browser.LocalStorage`);
  - the page's own form state.
  The result of a `fetch` is an input (`Browser.Outcome`): a parsed body with
  its `ok` flag, or a thrown error with its message. The handlers return the
  route they navigate to and, where it applies, the request they send or the
  alert they show.
- **The server's account rules** (`src/app.py`). The validation chain is
  `Server.Validate`, the login decision is `Server.Login` and the `/protected`
  reply is `Server.Protected`. The `users` table is the class
  `Server.UserTable`, a map from email to `(id, password hash, is_active)`,
  and `Register` updates it in place.
- bcrypt, the JWT library and `JSON.stringify`/`JSON.parse` are each a
  datatype of two functions (`Server.Bcrypt`, `Server.Jwt`, `Json.Codec`).
  Each comes with its round-trip law, and the codec also throws on the text
  "undefined"; the lemmas that need a law require it (`BcryptLaw`, `JwtLaw`,
  `Lawful`).

`Wire` joins the two sides. `Wire.ClientView` is how the browser reads a
JSON reply of the modelled handlers. The server puts its text in `msg`, but
the client reads `data.message`. As a result no text of such a reply reaches
the user: each failed one shows the client's fallback text
(`Wire.ServerTextNeverShown`). For the same reason no failed JSON reply of
those handlers fires the dashboard's session-expiry branch
(`Wire.ExpiryNeverFiresOnServerReplies`). A thrown error is different. It
covers a network failure and `response.json()` on a non-JSON body, such as
an HTML error page. It shows its own message, and a message that mentions
"token" does end the session (`Dashboard.TokenMentionEndsSession`).

Other properties worth noting:

- `/protected` answers 400 even for a valid token (`Wire.ProtectedNeverOk`).
- A login reply without a token authenticates the store with a null token.
  It also persists the string "undefined", which a reload reads back as a
  truthy token (`Browser.ReloadAfterTokenlessLogin`).
- Emails are unique because each one is a key of the table's map.
  `Register` turns a taken email away and does not overwrite its row.
  `UserTable.Valid` keeps ids unique, positive and below the next
  autoincrement value, and keeps every row active.

Behaviour of the code that the model keeps as written:

- `initialStore` calls `JSON.parse` on the stored `user`, and that call
  throws on malformed text. `InitialStore` returns `None` for that case.
- `register` and `login` append their paths to the backend URL as it is
  configured. On failure they read only `data.message`.
- JavaScript `null` and `undefined` are one value, None, in the session.
  A login reply's `user: null` is stored in memory as None, as a reload
  hydrates it (`Store.StoredUser`).
- The invariant "authenticated iff a token is held" (`Store.Consistent`)
  holds after every action except a `login_success` whose token is missing
  (`Store.ReduceKeepsConsistent`).
- Only `accessProtected` on the landing page refuses to fetch without a
  token. The dashboard's `loadProtectedData` does not.

## Model

| member | source | states |
|---|---|---|
| Store.StoredUser | src/front/store.js:40 | the session holds `null` in one form: a `null` or missing user becomes None, any other value is kept |
| Store.Reduce | src/front/store.js:26-67 | todos never change; only `set_hello` changes `message`; only `login_success`, `logout` and `register_success` change `auth`; a session user is never a second form of `null` |
| Store.SetHelloSetsOnlyMessage | src/front/store.js:28-32 | `set_hello(p)` sets `message` to `p` and leaves `auth` unchanged |
| Store.LoginSuccessAuthenticates | src/front/store.js:34-42 | `login_success(t, u)` yields `auth == {true, t, u}` from any state (with `u` stored through `StoredUser`) and keeps `message` |
| Store.LogoutIsAnonymousAndIdempotent | src/front/store.js:44-52 | `logout` yields the anonymous session, keeps `message`, and twice equals once |
| Store.RegisterSuccessIsLogout | src/front/store.js:44-62 | `register_success` has exactly the effect of `logout`, so registering never authenticates |
| Store.UnknownIsIdentity | src/front/store.js:64-65 | any other tag returns the state unchanged |
| Store.ReduceKeepsConsistent | src/front/store.js:26-67 | from a consistent session, the next session is consistent iff the action is not a `login_success` without a token |
| Store.Run | src/front/store.js:26-67 | successive dispatches: an empty run leaves the state as it is, a run of one action is one reducer step |
| Store.RunSnoc | src/front/store.js:26-67 | dispatching one more action applies the reducer once more to the run's result |
| Store.RunKeepsConsistent | src/front/store.js:26-67 | any sequence of actions with no tokenless `login_success` keeps the session consistent |
| Store.RunKeepsTodos | src/front/store.js:11-22 | no sequence of actions changes the seed to-do list |
| Store.RunLastWriteWins | src/front/store.js:26-67 | after a sequence of actions, `message` is the last `set_hello` payload and `auth` is set by the last action that sets it |
| Store.InitialStore | src/front/store.js:1-24 | authenticated iff the stored `token` is present and non-empty; an empty token becomes null; the result is consistent; an absent `user` gives null and a falsy one gives null; a parsed user that is not falsy is the session's user; `message` is null; todos are the seed; hydration fails only when `JSON.parse` throws on the stored user |
| Store.SeedIds | src/front/store.js:11-22 | the seed holds exactly two items, with ids 1 and 2 |
| Store.EmptyStorageIsAnonymous | src/front/store.js:1-10 | with nothing persisted the store starts anonymous with no message |
| Browser.LocalStorage.SetItem | src/front/pages/Home.jsx:43-44 | `setItem` replaces one key and keeps every other key |
| Browser.LocalStorage.RemoveItem | src/front/pages/Home.jsx:95-96 | `removeItem` drops one key and keeps every other key |
| Browser.GlobalReducer.Dispatch | src/front/pages/Home.jsx:46-52 | `dispatch` replaces the store with the reducer's result for the action |
| Json.Falsy | src/front/store.js:9 | the values `\|\| null` replaces: `null`, `false`, `0` and `""`; arrays and objects are never falsy |
| Browser.Truthy | src/front/pages/Dashboard.jsx:12 | a token is truthy iff it is present and, as a JSON string, not falsy (the test of store.js:7 and Home.jsx:105) |
| Browser.MessageOr | src/front/pages/Home.jsx:56 | `data.message \|\| fallback`: a present, non-empty message is returned; otherwise the fallback; never empty when the fallback is not |
| Browser.FailureText | src/front/pages/Home.jsx:56-59 | the error text a failed call shows: a thrown error's own message; for a parsed body its non-empty `message`, else the fallback |
| Browser.TokenText | src/front/pages/Home.jsx:43 | `setItem` stores the token itself, or "undefined" when it is missing; the stored text is empty only for an empty token |
| Browser.UserText | src/front/pages/Home.jsx:44 | the stored user text parses back to the user (under the codec's law); a missing user is stored as "undefined" |
| Browser.PersistLogin | src/front/pages/Home.jsx:43-44 | a login writes exactly `token` and `user` (a missing one as "undefined") and keeps every other key |
| Browser.ClearSession | src/front/pages/Home.jsx:95-96 | a logout removes exactly `token` and `user` and keeps every other key |
| Browser.ReloadAfterLogin | src/front/store.js:2-9 | after an ok login reply that carries both `token` and `user`, a reload succeeds, and it restores the in-memory session iff the token is non-empty and the user is `null` or not falsy |
| Browser.NullUserSurvivesReload | src/front/pages/Home.jsx:43-50 | a login reply with a non-empty token and `user: null` is restored by a reload as `{true, token, null}` |
| Browser.ReloadAfterTokenlessLogin | src/front/pages/Home.jsx:43-49 | a tokenless login gives a null token in memory but the token "undefined" after a reload |
| Browser.ReloadAfterUserlessLogin | src/front/store.js:9 | after an ok login reply without `user`, the stored text is "undefined" and every later reload fails, because `JSON.parse` throws on it |
| Browser.ReloadAfterLogout | src/front/store.js:2-9 | after a logout a reload gives the anonymous session whatever else is stored |
| Home.CredentialsBody | src/front/pages/Home.jsx:36 | the posted body holds exactly `email` and `password` |
| Home.HomePage.constructor | src/front/pages/Home.jsx:8-11 | the form starts empty, with no error, in login mode |
| Home.HomePage.LoadMessage | src/front/pages/Home.jsx:14-27 | dispatches `set_hello(data.message)` only for an ok response with a backend URL; a missing URL or any thrown error leaves the store unchanged |
| Home.HomePage.Login | src/front/pages/Home.jsx:29-62 | ok: persists token and user, dispatches `login_success` with the same values, clears the error, goes to `/dashboard`; otherwise store and storage are untouched, there is no navigation, and the error is `data.message`, else "Login failed", or the thrown message |
| Home.HomePage.Register | src/front/pages/Home.jsx:64-91 | never dispatches or touches storage; ok clears email, password and error and leaves register mode; otherwise only the error is set, to `data.message`, else "Registration failed", or the thrown message |
| Home.HomePage.Logout | src/front/pages/Home.jsx:93-101 | removes `token` and `user`, dispatches `logout`, goes to `/` |
| Home.HomePage.AccessProtected | src/front/pages/Home.jsx:103-127 | sends a request iff the store holds a truthy token, with header `Bearer <token>`; without one it alerts "No authentication token found"; ok alerts the data, otherwise the message or "Access to protected route failed" |
| Home.HomePage.OnMount | src/front/pages/Home.jsx:129-136 | an authenticated store goes to `/dashboard` unchanged; otherwise it does not navigate and loads the hello message |
| Dashboard.Includes | src/front/pages/Dashboard.jsx:40 | `includes`: a part that occurs is no longer than the text, and each of its characters is in the text |
| Dashboard.SignalsExpiry | src/front/pages/Dashboard.jsx:40 | the case-sensitive test "the text includes token or authentication"; its consequences are stated by `TokenMentionEndsSession`, `AuthenticationMentionEndsSession` and `FallbackKeepsSession` |
| Dashboard.Admits | src/front/pages/Dashboard.jsx:12 | the guard keeps the page only for an authenticated session holding a token; on a consistent session without an empty token it admits iff authenticated |
| Dashboard.Renders | src/front/pages/Dashboard.jsx:56 | every session the guard admits renders; a consistent session that does not render holds no token |
| Dashboard.MissingCharExcludes | src/front/pages/Dashboard.jsx:40 | a text lacking one character of a word does not include the word |
| Dashboard.FallbackKeepsSession | src/front/pages/Dashboard.jsx:30-45 | "Failed to fetch protected data" does not trigger the expiry branch |
| Dashboard.TokenMentionEndsSession | src/front/pages/Dashboard.jsx:40-45 | every error text containing "token" triggers the expiry branch |
| Dashboard.AuthenticationMentionEndsSession | src/front/pages/Dashboard.jsx:40-45 | every error text containing "authentication" triggers the expiry branch |
| Dashboard.SignedOutDashboardIsBlank | src/front/pages/Dashboard.jsx:56-58 | after `logout` or `register_success` the dashboard renders nothing and its guard redirects |
| Dashboard.LoginAdmitsIffTruthyToken | src/front/pages/Dashboard.jsx:12-14 | after `login_success` the dashboard renders, and the guard keeps it iff the token is truthy |
| Dashboard.HydratedGuardAgreesWithRender | src/front/pages/Dashboard.jsx:12-14 | on a freshly hydrated store the guard admits iff the dashboard renders |
| Dashboard.DashboardPage.constructor | src/front/pages/Dashboard.jsx:7-8 | the page shares the given store and storage |
| Dashboard.DashboardPage.Guard | src/front/pages/Dashboard.jsx:11-15 | goes to `/` iff the store is not authenticated or its token is not truthy; changes nothing |
| Dashboard.DashboardPage.LoadProtectedData | src/front/pages/Dashboard.jsx:17-47 | ok returns the data and changes nothing; a failure whose message (`data.message`, else "Failed to fetch protected data", or the thrown one) contains "token" or "authentication" dispatches `logout`, removes both keys and goes to `/`; any other failure changes nothing |
| Dashboard.DashboardPage.Logout | src/front/pages/Dashboard.jsx:86-91 | the button has the same effect on store, storage and route as the expiry branch |
| Dashboard.DashboardPage.OnAuthChange | src/front/pages/Dashboard.jsx:50-54 | loads the protected data only when authenticated; then ok keeps store and storage, and a failure clears both keys and the session and goes to `/` iff its text signals expiry, and otherwise does not navigate |
| Server.Validate | src/app.py:86-92 | checks in order: no body, no `email`, no `password`; each failure is a 400 with its own message; otherwise the credentials are the body's |
| Server.ValidationMessagesDiffer | src/app.py:88-92 | the three validation messages are pairwise different |
| Server.Login | src/app.py:116-140 | a 200 with a token for the stored email and `user == {email, id}` of the row, exactly when validation passes, the email has a row and bcrypt accepts the password; otherwise a 400 |
| Server.LoginFailuresLookAlike | src/app.py:124-130 | an unknown email and a wrong password get the identical 400 reply |
| Server.ProtectedText | src/app.py:148 | the `/protected` text ends with the token's identity |
| Server.Protected | src/app.py:144-148 | always status 400, with a `msg` naming the token's identity |
| Server.ProtectedNamesLoginEmail | src/app.py:132-148 | the token a login issues makes `/protected` name the logged-in email |
| Server.UserTable.constructor | src/api/models.py:8-13 | the table starts empty and valid |
| Server.CreatedText | src/app.py:107 | the 201 text names the new user's email, fixed text around it |
| Server.UserTable.Register | src/app.py:83-107 | validation errors and a taken email leave the table unchanged; success adds exactly one active row for the email, holding the hash of the password, answers 201, and changes no other row; ids stay unique |
| Server.RegisterThenLogin | src/app.py:99-140 | registering `(e, p)` and then logging in with `(e, p)` succeeds with a token for `e` and the new row's id |
| Wire.UserJson | src/app.py:136-139 | the `user` object of a login reply is an object, so truthy: a reload keeps it |
| Wire.ClientView | src/app.py:133-140 | a server reply reaches the client as ok iff 2xx, with the grant's token and `{email, id}`, and never with a `message` |
| Wire.ServerTextNeverShown | src/front/pages/Home.jsx:56 | every failed JSON reply of the modelled handlers shows the handler's fallback text |
| Wire.ProtectedNeverOk | src/app.py:148 | `/protected` never reaches the client as ok |
| Wire.ExpiryNeverFiresOnServerReplies | src/front/pages/Dashboard.jsx:30-45 | no failed JSON reply of the modelled handlers triggers the dashboard's expiry branch; thrown errors are outside this lemma |
| Wire.SignUpAndSignIn | src/front/pages/Home.jsx:29-91 | register then login: 201 and a cleared form, then an authenticated store with the issued token, `/dashboard`, and a reload that restores the session when the token is non-empty |
| Wire.DuplicateSignUp | src/app.py:95-97 | a second registration of an email is refused, keeps one row, and shows "Registration failed" |
| Wire.ExpiredTokenSignsOut | src/front/pages/Dashboard.jsx:40-45 | a failed reply with message "invalid token" signs out: anonymous session, both keys removed, back to `/` |
| Wire.ProtectedWithoutToken | src/front/pages/Home.jsx:105 | with no stored token, `accessProtected` sends nothing and alerts "No authentication token found" |

## Left out

- Markup, CSS, images and the router wiring are presentational. This covers the form's `onChange` handlers and the login/register toggle buttons; the scenarios in `Wire` set the form fields directly.
- `fetch`, `response.json()`, `alert` and `console.*` are network and UI I/O. The response comes in as a `Browser.Outcome`, and `accessProtected`'s alert is returned as a value. The "Registration successful!" alert is not modelled.
- async suspension and `useEffect` scheduling are event-loop concurrency. Each handler is one atomic step, and `dispatch` applies the reducer at once. The `useGlobalReducer` hook (`src/front/hooks/useGlobalReducer.jsx`) is not part of this model.
- The dashboard's `Authorization` header is not modelled. It carries the store's token even when that is null.
- Request bodies whose `email` or `password` is not a string (`null`, a number, an object) are not modelled. `Server.RequestBody` holds string members only, so `{"email": null, "password": "x"}`, which passes the key checks of `src/app.py:89-92` and reaches the lookup of a null email, has no counterpart.
- JSON numbers other than integers are not modelled. Neither are non-string `token`/`message` members or non-object request bodies.
- A `login_success` action without a payload throws in the reducer. `Store.Action` always carries one, so this case is not modelled.
- Flask setup, CORS, JWT/bcrypt configuration, the database URL rewrite, the sitemap and static-file routes (`src/app.py:23-80`) are configuration and I/O.
- The rejection replies of `@jwt_required()` come from the library. `Server.Protected` starts once a token has been accepted.
- The generic `except` paths (500 with `str(e)`, plus `db.session.rollback`) depend on the runtime and the library. So does the database's enforcement of the `String(50)` email length.
- bcrypt, JWT and JSON internals are foreign libraries. Only the round-trip laws are assumed, so nothing says bcrypt rejects a wrong password. `Server.LoginFailuresLookAlike` therefore takes the rejection as its hypothesis.
- `src/front/components/Navbar.jsx` and `src/front/components/PrivateRoute.jsx` repeat the logout step and the `isAuthenticated` guard covered above. `User.serialize` and `__str__` are not used by the modelled code.
