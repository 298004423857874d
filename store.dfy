/** The client's session store (src/front/store.js): the application state,
    the four actions, the reducer, and the state hydrated from the two
    persisted keys `token` and `user`. */
module Store {
  import opened Wrappers
  import opened Json

  /** One of the seed to-do items; `background` is always null in the seed. */
  datatype Todo = Todo(id: int, title: string, background: Option<string>)

  /** The session. `None` stands for JavaScript's `null` and `undefined`;
      a `user` is never `Some(JNull)` in a reachable state (see `StoredUser`). */
  datatype Auth = Auth(isAuthenticated: bool, token: Option<string>, user: Option<Json>)

  datatype AppState = AppState(message: Option<string>, auth: Auth, todos: seq<Todo>)

  /** Every `type` tag the reducer does not handle, `undefined` included. */
  type UnknownTag = t: string
    | t != "set_hello" && t != "login_success" && t != "logout" && t != "register_success"
    witness ""

  /** The actions dispatched to the reducer, by their `type` tag. A `user`
      payload is the member of a response body: None when it is missing,
      `Some(JNull)` when it is `null`. */
  datatype Action =
    | SetHello(payload: Option<string>)
    | LoginSuccess(token: Option<string>, user: Option<Json>)
    | Logout
    | RegisterSuccess
    | Unknown(tag: UnknownTag)

  /** The anonymous session `{isAuthenticated: false, token: null, user: null}`. */
  const Anonymous: Auth := Auth(false, None, None)

  /** The fixed to-do list every state starts with. */
  const SeedTodos: seq<Todo> := [Todo(1, "Make the bed", None), Todo(2, "Do my homework", None)]

  /** A user value as the session holds it: JavaScript `null` and `undefined`
      both become None, every other JSON value is kept. */
  function StoredUser(u: Option<Json>): (r: Option<Json>)
    ensures r != Some(JNull)
    ensures u.Some? && u.value != JNull ==> r == u
    ensures r.None? <==> u.None? || u == Some(JNull)
  {
    if u == Some(JNull) then None else u
  }

  /** `storeReducer`: each case spreads the old state and replaces one field. */
  function Reduce(s: AppState, a: Action): (r: AppState)
    ensures r.todos == s.todos
    ensures r.message != s.message ==> a.SetHello?
    ensures r.auth != s.auth ==> a.LoginSuccess? || a.Logout? || a.RegisterSuccess?
    ensures s.auth.user != Some(JNull) ==> r.auth.user != Some(JNull)
  {
    match a
    case SetHello(p) => s.(message := p)
    case LoginSuccess(t, u) => s.(auth := Auth(true, t, StoredUser(u)))
    case Logout => s.(auth := Anonymous)
    case RegisterSuccess => s.(auth := Anonymous)
    case Unknown(_) => s
  }

  lemma SetHelloSetsOnlyMessage(s: AppState, p: Option<string>)
    ensures Reduce(s, SetHello(p)).message == p
    ensures Reduce(s, SetHello(p)).auth == s.auth
  {
  }

  lemma LoginSuccessAuthenticates(s: AppState, t: Option<string>, u: Option<Json>)
    ensures Reduce(s, LoginSuccess(t, u)).auth == Auth(true, t, StoredUser(u))
    ensures Reduce(s, LoginSuccess(t, u)).message == s.message
  {
  }

  lemma LogoutIsAnonymousAndIdempotent(s: AppState)
    ensures Reduce(s, Logout).auth == Anonymous
    ensures Reduce(s, Logout).message == s.message
    ensures Reduce(Reduce(s, Logout), Logout) == Reduce(s, Logout)
  {
  }

  /** Registration never authenticates: it has exactly the effect of logout. */
  lemma RegisterSuccessIsLogout(s: AppState)
    ensures Reduce(s, RegisterSuccess) == Reduce(s, Logout)
    ensures !Reduce(s, RegisterSuccess).auth.isAuthenticated
  {
  }

  lemma UnknownIsIdentity(s: AppState, t: UnknownTag)
    ensures Reduce(s, Unknown(t)) == s
  {
  }

  /** The session invariant: authenticated exactly when a token is held. */
  predicate Consistent(a: Auth) {
    a.isAuthenticated <==> a.token.Some?
  }

  /** The one action that can break the invariant. */
  predicate LogsInWithoutToken(a: Action) {
    a.LoginSuccess? && a.token.None?
  }

  lemma ReduceKeepsConsistent(s: AppState, a: Action)
    requires Consistent(s.auth)
    ensures Consistent(Reduce(s, a).auth) <==> !LogsInWithoutToken(a)
  {
  }

  /** The state after dispatching `acts` in order, first element first. */
  function Run(s: AppState, acts: seq<Action>): (r: AppState)
    ensures acts == [] ==> r == s
    ensures |acts| == 1 ==> r == Reduce(s, acts[0])
    decreases |acts|
  {
    if acts == [] then s else Run(Reduce(s, acts[0]), acts[1..])
  }

  lemma {:induction false} RunSnoc(s: AppState, acts: seq<Action>, a: Action)
    ensures Run(s, acts + [a]) == Reduce(Run(s, acts), a)
    decreases |acts|
  {
    if acts == [] {
      assert [] + [a] == [a];
    } else {
      assert (acts + [a])[0] == acts[0];
      assert (acts + [a])[1..] == acts[1..] + [a];
      RunSnoc(Reduce(s, acts[0]), acts[1..], a);
    }
  }

  lemma {:induction false} RunKeepsConsistent(s: AppState, acts: seq<Action>)
    requires Consistent(s.auth)
    requires forall i :: 0 <= i < |acts| ==> !LogsInWithoutToken(acts[i])
    ensures Consistent(Run(s, acts).auth)
    decreases |acts|
  {
    if acts != [] {
      ReduceKeepsConsistent(s, acts[0]);
      assert forall i :: 0 <= i < |acts[1..]| ==> acts[1..][i] == acts[i + 1];
      RunKeepsConsistent(Reduce(s, acts[0]), acts[1..]);
    }
  }

  /** The seed to-do list is never changed by any sequence of actions. */
  lemma {:induction false} RunKeepsTodos(s: AppState, acts: seq<Action>)
    ensures Run(s, acts).todos == s.todos
    decreases |acts|
  {
    if acts != [] {
      RunKeepsTodos(Reduce(s, acts[0]), acts[1..]);
    }
  }

  /** The payload of the last `set_hello` in `acts`, or `initial` if there is none. */
  function LastHello(initial: Option<string>, acts: seq<Action>): (r: Option<string>)
    decreases |acts|
  {
    if acts == [] then initial
    else match acts[|acts| - 1]
      case SetHello(p) => p
      case _ => LastHello(initial, acts[..|acts| - 1])
  }

  /** The session set by the last action that sets one, or `initial`. */
  function LastSession(initial: Auth, acts: seq<Action>): (r: Auth)
    decreases |acts|
  {
    if acts == [] then initial
    else match acts[|acts| - 1]
      case LoginSuccess(t, u) => Auth(true, t, StoredUser(u))
      case Logout => Anonymous
      case RegisterSuccess => Anonymous
      case _ => LastSession(initial, acts[..|acts| - 1])
  }

  /** Last write wins: after a run, the message is the last `set_hello`
      payload and the session is the one set by the last action that touches it. */
  lemma {:induction false} RunLastWriteWins(s: AppState, acts: seq<Action>)
    ensures Run(s, acts).message == LastHello(s.message, acts)
    ensures Run(s, acts).auth == LastSession(s.auth, acts)
    decreases |acts|
  {
    if acts != [] {
      var init, last := acts[..|acts| - 1], acts[|acts| - 1];
      assert acts == init + [last];
      RunSnoc(s, init, last);
      RunLastWriteWins(s, init);
    }
  }

  /** `initialStore()`, reading the persisted `token` and `user` texts.
      None: `JSON.parse` throws on the stored `user` text. An absent `user`
      parses as null, and a falsy token or user becomes null. */
  function InitialStore(items: map<string, string>, c: Codec): (r: Option<AppState>)
    ensures r.Some? <==> "user" !in items || c.parse(items["user"]).Some?
    ensures r.Some? ==> r.value.message == None && r.value.todos == SeedTodos
    ensures r.Some? ==> Consistent(r.value.auth) && r.value.auth.token != Some("")
    ensures r.Some? ==>
      (r.value.auth.isAuthenticated <==> "token" in items && items["token"] != "")
    ensures r.Some? && r.value.auth.token.Some? ==> r.value.auth.token.value == items["token"]
    ensures r.Some? && r.value.auth.user.Some? ==>
      "user" in items && c.parse(items["user"]) == r.value.auth.user
      && !Falsy(r.value.auth.user.value)
    ensures r.Some? && "user" in items && !Falsy(c.parse(items["user"]).value) ==>
      r.value.auth.user == c.parse(items["user"])
  {
    var token := if "token" in items && items["token"] != "" then Some(items["token"]) else None;
    var parsed := if "user" in items then c.parse(items["user"]) else Some(JNull);
    match parsed
    case None => None
    case Some(j) =>
      var user := if Falsy(j) then None else Some(j);
      Some(AppState(None, Auth(token.Some?, token, user), SeedTodos))
  }

  /** The two seed items carry ids 1 and 2, whatever was persisted. */
  lemma SeedIds(items: map<string, string>, c: Codec)
    requires InitialStore(items, c).Some?
    ensures |InitialStore(items, c).value.todos| == 2
    ensures InitialStore(items, c).value.todos[0].id == 1
    ensures InitialStore(items, c).value.todos[1].id == 2
  {
  }

  /** With nothing persisted the session is anonymous. */
  lemma EmptyStorageIsAnonymous(c: Codec)
    ensures InitialStore(map[], c) == Some(AppState(None, Anonymous, SeedTodos))
  {
  }
}
