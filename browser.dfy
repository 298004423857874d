/** What the page handlers share: the browser's `localStorage`, the global
    store behind `useGlobalReducer`, the routes they navigate to, the outcome
    of a `fetch` as the handlers see it, and the persisted form of a session. */
module Browser {
  import opened Wrappers
  import opened Json
  import opened Store

  /** `window.localStorage`: string keys to string values. */
  class LocalStorage {
    var items: map<string, string>

    constructor (items: map<string, string>)
      ensures this.items == items
    {
      this.items := items;
    }

    method SetItem(key: string, value: string)
      modifies this
      ensures items == old(items)[key := value]
    {
      items := items[key := value];
    }

    method RemoveItem(key: string)
      modifies this
      ensures items == old(items) - {key}
    {
      items := items - {key};
    }
  }

  /** The global store: `dispatch` applies `storeReducer` to the current state. */
  class GlobalReducer {
    var store: AppState

    constructor (store: AppState)
      ensures this.store == store
    {
      this.store := store;
    }

    method Dispatch(a: Action)
      modifies this
      ensures store == Reduce(old(store), a)
    {
      store := Reduce(store, a);
    }
  }

  /** The two routes the handlers navigate to, "/" and "/dashboard". */
  datatype Route = Landing | DashboardView

  /** The fields of a response body the handlers read; None is a missing field.
      Non-string `token`/`message` values are not modelled. */
  datatype Body = Body(token: Option<string>, user: Option<Json>, message: Option<string>)

  /** How a `fetch` plus `response.json()` ends: a parsed body with
      `response.ok`, or a thrown error (network failure, unparsable body)
      carrying its `message`. */
  datatype Outcome = Responded(ok: bool, data: Body) | Threw(reason: string) {
    predicate Succeeded() {
      Responded? && ok
    }
  }

  /** JavaScript truthiness of a token: present and non-empty, the same test
      `Falsy` makes of a JSON string. */
  predicate Truthy(t: Option<string>)
    ensures Truthy(t) <==> t.Some? && !Falsy(JString(t.value))
  {
    t.Some? && t.value != ""
  }

  /** `data.message || fallback`. */
  function MessageOr(m: Option<string>, fallback: string): (r: string)
    ensures r == fallback || (m == Some(r) && r != "")
    ensures r == fallback <== m.None? || m == Some("")
    ensures m.Some? && m.value != "" ==> r == m.value
    ensures fallback != "" ==> r != ""
  {
    if m.Some? && m.value != "" then m.value else fallback
  }

  /** The `message` of the error a failed call ends with: the one built from
      the body, or the one thrown by `fetch` or `response.json()`. */
  function FailureText(o: Outcome, fallback: string): (r: string)
    requires !o.Succeeded()
    ensures o.Threw? ==> r == o.reason
    ensures o.Responded? && Truthy(o.data.message) ==> r == o.data.message.value
    ensures o.Responded? && !Truthy(o.data.message) ==> r == fallback
  {
    match o
    case Responded(_, d) => MessageOr(d.message, fallback)
    case Threw(reason) => reason
  }

  /** `localStorage.setItem` stores `String(value)`, so a missing token is
      stored as "undefined". */
  function TokenText(t: Option<string>): (r: string)
    ensures t.Some? ==> r == t.value
    ensures t.None? ==> r == "undefined"
    ensures r == "" <==> t == Some("")
  {
    if t.Some? then t.value else "undefined"
  }

  /** `JSON.stringify(user)`; it yields `undefined` for a missing user, which
      `setItem` stores as "undefined". */
  function UserText(u: Option<Json>, c: Codec): (r: string)
    ensures Lawful(c) && u.Some? ==> c.parse(r) == u
    ensures u.None? ==> r == "undefined"
  {
    if u.Some? then c.stringify(u.value) else "undefined"
  }

  /** The two writes a successful login makes. */
  function PersistLogin(items: map<string, string>, d: Body, c: Codec): (r: map<string, string>)
    ensures r.Keys == items.Keys + {"token", "user"}
    ensures r["token"] == TokenText(d.token) && r["user"] == UserText(d.user, c)
    ensures forall k :: k in items && k != "token" && k != "user" ==> r[k] == items[k]
  {
    items["token" := TokenText(d.token)]["user" := UserText(d.user, c)]
  }

  /** The two removals a logout makes. */
  function ClearSession(items: map<string, string>): (r: map<string, string>)
    ensures r.Keys == items.Keys - {"token", "user"}
    ensures forall k :: k in r ==> r[k] == items[k]
  {
    items - {"token", "user"}
  }

  /** Reloading after a successful login restores a session from what was
      persisted; it is the in-memory session exactly when the token is
      non-empty and the user is `null` or not falsy. */
  lemma ReloadAfterLogin(s: AppState, items: map<string, string>, d: Body, c: Codec)
    requires Lawful(c)
    requires d.token.Some? && d.user.Some?
    ensures InitialStore(PersistLogin(items, d, c), c).Some?
    ensures InitialStore(PersistLogin(items, d, c), c).value.auth
            == Reduce(s, LoginSuccess(d.token, d.user)).auth
            <==> d.token.value != "" && (d.user.value == JNull || !Falsy(d.user.value))
  {
    var p := PersistLogin(items, d, c);
    assert c.parse(p["user"]) == Some(d.user.value);
  }

  /** A login reply with a token and `user: null` is restored by a reload:
      memory and hydration both hold a null user. */
  lemma NullUserSurvivesReload(s: AppState, items: map<string, string>, t: string, c: Codec)
    requires Lawful(c) && t != ""
    ensures InitialStore(PersistLogin(items, Body(Some(t), Some(JNull), None), c), c).Some?
    ensures InitialStore(PersistLogin(items, Body(Some(t), Some(JNull), None), c), c).value.auth
            == Reduce(s, LoginSuccess(Some(t), Some(JNull))).auth == Auth(true, Some(t), None)
  {
    ReloadAfterLogin(s, items, Body(Some(t), Some(JNull), None), c);
  }

  /** A login reply without a token authenticates in memory with a null
      token, while a reload authenticates with the literal token "undefined". */
  lemma ReloadAfterTokenlessLogin(s: AppState, items: map<string, string>, d: Body, c: Codec)
    requires Lawful(c)
    requires d.token.None? && d.user.Some?
    ensures Reduce(s, LoginSuccess(d.token, d.user)).auth.token == None
    ensures InitialStore(PersistLogin(items, d, c), c).Some?
    ensures InitialStore(PersistLogin(items, d, c), c).value.auth.token == Some("undefined")
  {
    var p := PersistLogin(items, d, c);
    assert c.parse(p["user"]) == Some(d.user.value);
  }

  /** A login reply without a `user` makes every later reload fail: the
      stored text "undefined" does not parse. */
  lemma ReloadAfterUserlessLogin(items: map<string, string>, d: Body, c: Codec)
    requires Lawful(c)
    requires d.user.None?
    ensures PersistLogin(items, d, c)["user"] == "undefined"
    ensures InitialStore(PersistLogin(items, d, c), c).None?
  {
  }

  /** Reloading after a logout gives the anonymous session, whatever else is stored. */
  lemma ReloadAfterLogout(items: map<string, string>, c: Codec)
    ensures InitialStore(ClearSession(items), c) == Some(AppState(None, Anonymous, SeedTodos))
  {
  }
}
