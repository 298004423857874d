/** The server's replies as the client reads them, and whole flows through
    server, handlers, store and storage. The server puts its text in `msg`
    while the client reads `message`, so no text of a JSON reply of the
    modelled handlers reaches the client: each such failure shows the
    client's fallback text. A thrown error (a network failure, or
    `response.json()` on a non-JSON reply such as an HTML error page) shows
    its own message instead; that case is `Threw` and is not a server reply. */
module Wire {
  import opened Wrappers
  import opened Json
  import opened Store
  import opened Browser
  import Server
  import Home
  import Dashboard

  /** The `user` member of a login reply, `{email, id}`. */
  function UserJson(g: Server.Grant): (r: Json)
    ensures r.JObject? && !Falsy(r)
  {
    JObject([("email", JString(g.email)), ("id", JNumber(g.id))])
  }

  /** A server reply as `fetch` and `response.json()` deliver it: `ok` for a
      2xx status; `token` and `user` from a login grant; never a `message`. */
  function ClientView(r: Server.Response): (o: Outcome)
    ensures o.Responded? && o.data.message.None?
    ensures o.Succeeded() <==> 200 <= r.status < 300
    ensures r.grant.Some? ==>
      o.data.token == Some(r.grant.value.token) && o.data.user == Some(UserJson(r.grant.value))
    ensures r.grant.None? ==> o.data.token.None? && o.data.user.None?
  {
    match r.grant
    case None => Responded(200 <= r.status < 300, Body(None, None, None))
    case Some(g) => Responded(200 <= r.status < 300, Body(Some(g.token), Some(UserJson(g)), None))
  }

  /** Every failed JSON reply of the modelled handlers shows the handler's
      fallback text. */
  lemma ServerTextNeverShown(r: Server.Response, fallback: string)
    requires !ClientView(r).Succeeded()
    ensures FailureText(ClientView(r), fallback) == fallback
  {
  }

  /** `/protected` never answers ok, even for a valid token. */
  lemma ProtectedNeverOk(identity: string)
    ensures !ClientView(Server.Protected(identity)).Succeeded()
  {
  }

  /** No failed JSON reply of the modelled handlers fires the dashboard's
      session-expiry branch: it always shows the generic fallback text. A
      thrown error can still fire it (`Dashboard.TokenMentionEndsSession`). */
  lemma ExpiryNeverFiresOnServerReplies(r: Server.Response)
    requires !ClientView(r).Succeeded()
    ensures !Dashboard.SignalsExpiry(FailureText(ClientView(r), Dashboard.ProtectedFallback))
  {
    Dashboard.FallbackKeepsSession();
  }

  /** Sign up and sign in from an empty table and an empty browser: the
      register reply is a 201 that clears the form, the login reply
      authenticates the store with the issued token and `{email, id: 1}`
      and leads to the dashboard, and a reload with a non-empty token
      restores the same session. */
  method SignUpAndSignIn(email: string, password: string, salt: string,
                         b: Server.Bcrypt, j: Server.Jwt, c: Codec)
    returns (registered: nat, formEmail: string, nav: Option<Route>,
             session: Auth, persisted: map<string, string>)
    requires Server.BcryptLaw(b) && Lawful(c)
    ensures registered == 201 && formEmail == ""
    ensures nav == Some(DashboardView)
    ensures session == Auth(true, Some(j.create(email)), Some(UserJson(Server.Grant(j.create(email), email, 1))))
    ensures InitialStore(persisted, c).Some?
    ensures j.create(email) != "" ==> InitialStore(persisted, c).value.auth == session
  {
    EmptyStorageIsAnonymous(c);
    var storage := new LocalStorage(map[]);
    var reducer := new GlobalReducer(InitialStore(map[], c).value);
    var home := new Home.HomePage(reducer, storage);
    var table := new Server.UserTable();
    var body := Some(Home.CredentialsBody(email, password));

    // The user types the credentials into the register form.
    home.email, home.password := email, password;
    var reply := table.Register(body, salt, b);
    var sent := home.Register(ClientView(reply));
    assert Some(sent) == body;
    registered, formEmail := reply.status, home.email;

    // The user types them again into the login form.
    home.email, home.password := email, password;
    Server.RegisterThenLogin(map[], 1, body, salt, b, j);
    var login := Server.Login(table.users, body, b, j);
    sent, nav := home.Login(ClientView(login), c);
    assert Some(sent) == body;
    session := reducer.store.auth;
    persisted := storage.items;
    ReloadAfterLogin(InitialStore(map[], c).value, map[], ClientView(login).data, c);
  }

  /** Registering the same email twice: the second reply is the 400
      "email taken", the table keeps its one row, and the register form shows
      the client's own "Registration failed". */
  method DuplicateSignUp(email: string, password: string, other: string, salt: string, b: Server.Bcrypt)
    returns (second: Server.Response, rows: nat, shown: string)
    ensures second == Server.Response(400, Server.EmailTaken, None)
    ensures rows == 1
    ensures shown == Home.RegisterFallback
  {
    var table := new Server.UserTable();
    var first := table.Register(Some(Home.CredentialsBody(email, password)), salt, b);
    second := table.Register(Some(Home.CredentialsBody(email, other)), salt, b);
    rows := |table.users|;

    var storage := new LocalStorage(map[]);
    var reducer := new GlobalReducer(AppState(None, Anonymous, SeedTodos));
    var home := new Home.HomePage(reducer, storage);
    var _ := home.Register(ClientView(second));
    shown := home.error;
  }

  /** A 401 whose `message` is "invalid token" signs the dashboard out:
      `logout` is dispatched, both keys are removed and the user goes to "/". */
  method ExpiredTokenSignsOut(items: map<string, string>, c: Codec)
    returns (nav: Option<Route>, session: Auth, persisted: map<string, string>)
    requires InitialStore(items, c).Some?
    ensures nav == Some(Landing) && session == Anonymous
    ensures "token" !in persisted && "user" !in persisted
  {
    var storage := new LocalStorage(items);
    var reducer := new GlobalReducer(InitialStore(items, c).value);
    var page := new Dashboard.DashboardPage(reducer, storage);
    var reply := Responded(false, Body(None, None, Some("invalid token")));
    Dashboard.TokenMentionEndsSession("invalid ", "");
    assert "invalid " + "token" + "" == "invalid token";
    var _, n := page.LoadProtectedData(reply);
    nav, session, persisted := n, reducer.store.auth, storage.items;
  }

  /** With no token in the store, `accessProtected` alerts its error and
      sends no request. */
  method ProtectedWithoutToken(items: map<string, string>, c: Codec, reply: Outcome)
    returns (sent: Option<string>, alert: Home.Alert)
    requires InitialStore(items, c).Some? && "token" !in items
    ensures sent == None && alert == Home.ShowText(Home.NoTokenText)
  {
    var storage := new LocalStorage(items);
    var reducer := new GlobalReducer(InitialStore(items, c).value);
    var home := new Home.HomePage(reducer, storage);
    sent, alert := home.AccessProtected(reply);
  }
}
