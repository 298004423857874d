/** The dashboard (src/front/pages/Dashboard.jsx): the redirect guard, the
    protected-data load with its session-expiry branch, the logout button and
    the render test, over the same store and storage as the landing page. */
module Dashboard {
  import opened Wrappers
  import opened Json
  import opened Store
  import opened Browser

  const ProtectedFallback: string := "Failed to fetch protected data"

  /** `part` occurs in `s` starting at index `i`. */
  predicate OccursAt(s: string, part: string, i: int) {
    0 <= i && i + |part| <= |s| && s[i..i + |part|] == part
  }

  /** `s.includes(part)`: `part` occurs in `s` as a contiguous piece. */
  predicate Includes(s: string, part: string)
    ensures Includes(s, part) ==> |part| <= |s|
    ensures Includes(s, part) ==> forall k :: 0 <= k < |part| ==> part[k] in s
  {
    exists i | 0 <= i <= |s| - |part| :: OccursAt(s, part, i)
  }

  /** A text lacking one of the characters of `part` does not include it. */
  lemma MissingCharExcludes(s: string, part: string, k: int)
    requires 0 <= k < |part| && part[k] !in s
    ensures !Includes(s, part)
  {
  }

  /** The session-expiry heuristic: the error text mentions "token" or
      "authentication" (case-sensitive). */
  predicate SignalsExpiry(text: string) {
    Includes(text, "token") || Includes(text, "authentication")
  }

  /** The generic fallback text never reads as an expired session: it has
      no 'k' and no 'u'. */
  lemma FallbackKeepsSession()
    ensures !SignalsExpiry(ProtectedFallback)
  {
    assert !Includes(ProtectedFallback, "token") by {
      MissingCharExcludes(ProtectedFallback, "token", 2);
    }
    assert !Includes(ProtectedFallback, "authentication") by {
      MissingCharExcludes(ProtectedFallback, "authentication", 1);
    }
  }

  /** Any error text that mentions "token" ends the session. Whether an HTML
      reply does depends on the browser's wording of the error
      `response.json()` throws: "Unexpected token < in JSON at position 0"
      mentions "token", while "JSON.parse: unexpected character at line 1
      column 1 of the JSON data" does not. */
  lemma TokenMentionEndsSession(before: string, after: string)
    ensures SignalsExpiry(before + "token" + after)
  {
    var text := before + "token" + after;
    assert text[|before|..|before| + 5] == "token";
    assert OccursAt(text, "token", |before|);
  }

  /** Any error text that mentions "authentication" ends the session too. */
  lemma AuthenticationMentionEndsSession(before: string, after: string)
    ensures SignalsExpiry(before + "authentication" + after)
  {
    var text := before + "authentication" + after;
    assert text[|before|..|before| + 14] == "authentication";
    assert OccursAt(text, "authentication", |before|);
  }

  /** The guard of the first effect: stay only when authenticated with a
      truthy token. */
  predicate Admits(a: Auth)
    ensures Admits(a) ==> a.isAuthenticated && a.token.Some?
    ensures Consistent(a) && a.token != Some("") ==> (Admits(a) <==> a.isAuthenticated)
  {
    a.isAuthenticated && Truthy(a.token)
  }

  /** The component renders content only when authenticated. */
  predicate Renders(s: AppState)
    ensures Admits(s.auth) ==> Renders(s)
    ensures Consistent(s.auth) && !Renders(s) ==> s.auth.token.None?
  {
    s.auth.isAuthenticated
  }

  /** After a logout (or a register_success) the dashboard renders nothing
      and the guard redirects. */
  lemma SignedOutDashboardIsBlank(s: AppState)
    ensures !Renders(Reduce(s, Logout)) && !Admits(Reduce(s, Logout).auth)
    ensures !Renders(Reduce(s, RegisterSuccess)) && !Admits(Reduce(s, RegisterSuccess).auth)
  {
  }

  /** After login the dashboard renders; the guard keeps it only with a
      truthy token. */
  lemma LoginAdmitsIffTruthyToken(s: AppState, t: Option<string>, u: Option<Json>)
    ensures Renders(Reduce(s, LoginSuccess(t, u)))
    ensures Admits(Reduce(s, LoginSuccess(t, u)).auth) <==> Truthy(t)
  {
  }

  /** On a freshly hydrated store the guard and the render test agree. */
  lemma HydratedGuardAgreesWithRender(items: map<string, string>, c: Codec)
    requires InitialStore(items, c).Some?
    ensures Admits(InitialStore(items, c).value.auth) <==> Renders(InitialStore(items, c).value)
  {
  }

  class DashboardPage {
    const reducer: GlobalReducer
    const storage: LocalStorage

    constructor (reducer: GlobalReducer, storage: LocalStorage)
      ensures this.reducer == reducer && this.storage == storage
    {
      this.reducer := reducer;
      this.storage := storage;
    }

    /** The redirect guard: go to "/" unless admitted. It changes no state. */
    method Guard() returns (nav: Option<Route>)
      ensures nav.Some? <==> !reducer.store.auth.isAuthenticated || !Truthy(reducer.store.auth.token)
      ensures nav.Some? ==> nav == Some(Landing)
      ensures nav.None? <==> Admits(reducer.store.auth)
    {
      if !reducer.store.auth.isAuthenticated || !Truthy(reducer.store.auth.token) {
        nav := Some(Landing);
      } else {
        nav := None;
      }
    }

    /** `loadProtectedData`: an ok response returns its body; a failure whose
        text signals expiry dispatches `logout`, removes both keys and goes
        to "/"; any other failure changes nothing. */
    method LoadProtectedData(outcome: Outcome) returns (data: Option<Body>, nav: Option<Route>)
      modifies reducer, storage
      ensures outcome.Succeeded() ==>
        && data == Some(outcome.data) && nav == None
        && reducer.store == old(reducer.store) && storage.items == old(storage.items)
      ensures !outcome.Succeeded() ==> data == None
      ensures !outcome.Succeeded() && SignalsExpiry(FailureText(outcome, ProtectedFallback)) ==>
        && reducer.store == Reduce(old(reducer.store), Action.Logout)
        && storage.items == ClearSession(old(storage.items))
        && nav == Some(Landing)
      ensures !outcome.Succeeded() && !SignalsExpiry(FailureText(outcome, ProtectedFallback)) ==>
        && reducer.store == old(reducer.store) && storage.items == old(storage.items)
        && nav == None
    {
      if outcome.Succeeded() {
        data, nav := Some(outcome.data), None;
        return;
      }
      data, nav := None, None;
      var text := FailureText(outcome, ProtectedFallback);
      if SignalsExpiry(text) {
        reducer.Dispatch(Action.Logout);
        storage.RemoveItem("token");
        storage.RemoveItem("user");
        nav := Some(Landing);
      }
    }

    /** The logout button: the same steps as the expiry branch. */
    method Logout() returns (nav: Option<Route>)
      modifies reducer, storage
      ensures reducer.store == Reduce(old(reducer.store), Action.Logout)
      ensures storage.items == ClearSession(old(storage.items))
      ensures nav == Some(Landing)
    {
      reducer.Dispatch(Action.Logout);
      storage.RemoveItem("token");
      storage.RemoveItem("user");
      nav := Some(Landing);
    }

    /** The second effect: load the protected data when authenticated. */
    method OnAuthChange(outcome: Outcome) returns (data: Option<Body>, nav: Option<Route>)
      modifies reducer, storage
      ensures !old(reducer.store).auth.isAuthenticated ==>
        && data == None && nav == None
        && reducer.store == old(reducer.store) && storage.items == old(storage.items)
      ensures old(reducer.store).auth.isAuthenticated && outcome.Succeeded() ==>
        && data == Some(outcome.data) && nav == None
        && reducer.store == old(reducer.store) && storage.items == old(storage.items)
      ensures old(reducer.store).auth.isAuthenticated && !outcome.Succeeded() ==>
        && data == None
        && storage.items == (if SignalsExpiry(FailureText(outcome, ProtectedFallback))
                             then ClearSession(old(storage.items))
                             else old(storage.items))
        && nav == (if SignalsExpiry(FailureText(outcome, ProtectedFallback)) then Some(Landing) else None)
        && reducer.store == if SignalsExpiry(FailureText(outcome, ProtectedFallback))
                            then Reduce(old(reducer.store), Action.Logout)
                            else old(reducer.store)
    {
      if reducer.store.auth.isAuthenticated {
        data, nav := LoadProtectedData(outcome);
      } else {
        data, nav := None, None;
      }
    }
  }
}
