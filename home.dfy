/** The landing page (src/front/pages/Home.jsx): its login, register,
    logout, protected-route and hello-message handlers and its mount effect,
    each one atomic step over the global store, `localStorage` and the
    page's own form state. The response of each `fetch` is an input. */
module Home {
  import opened Wrappers
  import opened Json
  import opened Store
  import opened Browser

  const LoginFallback: string := "Login failed"
  const RegisterFallback: string := "Registration failed"
  const ProtectedFallback: string := "Access to protected route failed"
  const NoTokenText: string := "No authentication token found"

  /** The JSON body `{email, password}` that login and register post. */
  function CredentialsBody(email: string, password: string): (body: map<string, string>)
    ensures body.Keys == {"email", "password"}
    ensures body["email"] == email && body["password"] == password
  {
    map["email" := email, "password" := password]
  }

  /** What `accessProtected` shows with `alert`: the data, or an error text. */
  datatype Alert = ShowData(data: Body) | ShowText(text: string)

  class HomePage {
    const reducer: GlobalReducer
    const storage: LocalStorage
    var email: string
    var password: string
    var error: string
    var isRegistering: bool

    constructor (reducer: GlobalReducer, storage: LocalStorage)
      ensures this.reducer == reducer && this.storage == storage
      ensures email == "" && password == "" && error == "" && !isRegistering
    {
      this.reducer := reducer;
      this.storage := storage;
      email, password, error, isRegistering := "", "", "", false;
    }

    /** `loadMessage`: without a backend URL it throws before fetching; every
        error is swallowed. Returns the body whenever one was parsed. */
    method LoadMessage(hasBackendUrl: bool, outcome: Outcome) returns (data: Option<Body>)
      modifies reducer
      ensures reducer.store == if hasBackendUrl && outcome.Succeeded()
                               then Reduce(old(reducer.store), SetHello(outcome.data.message))
                               else old(reducer.store)
      ensures data == if hasBackendUrl && outcome.Responded? then Some(outcome.data) else None
    {
      data := None;
      if !hasBackendUrl {
        return;
      }
      match outcome
      case Threw(_) =>
      case Responded(ok, body) =>
        if ok {
          reducer.Dispatch(SetHello(body.message));
        }
        data := Some(body);
    }

    /** `login`: on an ok response persist token and user, dispatch
        `login_success` and go to the dashboard; otherwise only show an error. */
    method Login(outcome: Outcome, c: Codec) returns (sent: map<string, string>, nav: Option<Route>)
      modifies this, reducer, storage
      ensures sent == CredentialsBody(old(email), old(password))
      ensures email == old(email) && password == old(password)
      ensures isRegistering == old(isRegistering)
      ensures outcome.Succeeded() ==>
        && storage.items == PersistLogin(old(storage.items), outcome.data, c)
        && reducer.store == Reduce(old(reducer.store), LoginSuccess(outcome.data.token, outcome.data.user))
        && error == "" && nav == Some(DashboardView)
      ensures !outcome.Succeeded() ==>
        && storage.items == old(storage.items) && reducer.store == old(reducer.store)
        && error == FailureText(outcome, LoginFallback) && nav == None
    {
      error := "";
      sent := CredentialsBody(email, password);
      nav := None;
      if outcome.Succeeded() {
        var data := outcome.data;
        storage.SetItem("token", TokenText(data.token));
        storage.SetItem("user", UserText(data.user, c));
        reducer.Dispatch(LoginSuccess(data.token, data.user));
        nav := Some(DashboardView);
      } else {
        error := FailureText(outcome, LoginFallback);
      }
    }

    /** `register`: never dispatches and never touches storage; on an ok
        response clear the form and return to the login form. */
    method Register(outcome: Outcome) returns (sent: map<string, string>)
      modifies this
      ensures sent == CredentialsBody(old(email), old(password))
      ensures outcome.Succeeded() ==>
        email == "" && password == "" && !isRegistering && error == ""
      ensures !outcome.Succeeded() ==>
        && email == old(email) && password == old(password)
        && isRegistering == old(isRegistering)
        && error == FailureText(outcome, RegisterFallback)
      ensures reducer.store == old(reducer.store) && storage.items == old(storage.items)
    {
      error := "";
      sent := CredentialsBody(email, password);
      if outcome.Succeeded() {
        email := "";
        password := "";
        isRegistering := false;
      } else {
        error := FailureText(outcome, RegisterFallback);
      }
    }

    /** `logout`: remove both keys, dispatch `logout`, go to "/". */
    method Logout() returns (nav: Option<Route>)
      modifies reducer, storage
      ensures storage.items == ClearSession(old(storage.items))
      ensures reducer.store == Reduce(old(reducer.store), Action.Logout)
      ensures nav == Some(Landing)
    {
      storage.RemoveItem("token");
      storage.RemoveItem("user");
      reducer.Dispatch(Action.Logout);
      nav := Some(Landing);
    }

    /** `accessProtected`: returns the Authorization header sent (None: no
        request was made) and what is alerted. It changes no state. */
    method AccessProtected(outcome: Outcome) returns (header: Option<string>, alert: Alert)
      ensures header.Some? <==> Truthy(reducer.store.auth.token)
      ensures header.Some? ==> header.value == "Bearer " + reducer.store.auth.token.value
      ensures !Truthy(reducer.store.auth.token) ==> alert == ShowText(NoTokenText)
      ensures Truthy(reducer.store.auth.token) && outcome.Succeeded() ==> alert == ShowData(outcome.data)
      ensures Truthy(reducer.store.auth.token) && !outcome.Succeeded() ==>
        alert == ShowText(FailureText(outcome, ProtectedFallback))
    {
      var token := reducer.store.auth.token;
      if !Truthy(token) {
        header, alert := None, ShowText(NoTokenText);
        return;
      }
      header := Some("Bearer " + token.value);
      if outcome.Succeeded() {
        alert := ShowData(outcome.data);
      } else {
        alert := ShowText(FailureText(outcome, ProtectedFallback));
      }
    }

    /** The mount effect: an authenticated store goes to the dashboard,
        otherwise the hello message is loaded. */
    method OnMount(hasBackendUrl: bool, outcome: Outcome) returns (nav: Option<Route>)
      modifies reducer
      ensures old(reducer.store).auth.isAuthenticated ==>
        nav == Some(DashboardView) && reducer.store == old(reducer.store)
      ensures !old(reducer.store).auth.isAuthenticated ==>
        nav == None
        && reducer.store == if hasBackendUrl && outcome.Succeeded()
                            then Reduce(old(reducer.store), SetHello(outcome.data.message))
                            else old(reducer.store)
    {
      if reducer.store.auth.isAuthenticated {
        nav := Some(DashboardView);
      } else {
        var _ := LoadMessage(hasBackendUrl, outcome);
        nav := None;
      }
    }
  }
}
