/**
 * The session store of `src/contexts/AuthContext.tsx`: who is logged in, whether the start-up
 * probe is still running, and the operations `login`, `logout`, `refreshUser` and the `initAuth`
 * effect. All traffic goes through one `Api.Client`, so the 401 handler runs on every failure.
 */
module Auth {
  import opened Wrappers
  import opened JsStrings
  import opened Users
  import opened Api

  /** The part of the state the session's operations change: the user and the globals of `api.ts`. */
  datatype SessionState = SessionState(user: Option<User>, globals: Globals)

  /** `logout()`: both tokens removed, the default header deleted, no user. */
  function LoggedOut(s: SessionState): (r: SessionState)
    ensures r.user == None && SentAuthorization(r.globals) == None
    ensures r.globals.location == s.globals.location
  {
    SessionState(None, ClearCredentials(s.globals))
  }

  /** The failures `refreshUser` treats as "profile not created yet". */
  predicate ProfileMissing(e: HttpError) {
    e.status == Some(404) || e.status == Some(400)
  }

  /** The state `refreshUser()` leaves, the 401 handler having run on a failed fetch first. */
  function Refreshed(s: SessionState, outcome: Response<User>): (r: SessionState)
    ensures outcome.Ok? ==> r == s.(user := Some(outcome.data))
    ensures outcome.Fail? && ProfileMissing(outcome.error) ==> r == s
    ensures outcome.Fail? && !ProfileMissing(outcome.error) ==> r.user == None && SentAuthorization(r.globals) == None
  {
    match outcome
    case Ok(u) => s.(user := Some(u))
    case Fail(e) =>
      var intercepted := s.(globals := Rejected(s.globals, e));
      if ProfileMissing(e) then intercepted else LoggedOut(intercepted)
  }

  /** The state the `initAuth` effect leaves (before `loading` is cleared). */
  function Initialized(s: SessionState, outcome: Response<User>): (r: SessionState)
    ensures StoredToken(s.globals.storage).None? ==> r == s
    ensures StoredToken(s.globals.storage).Some? && outcome.Ok? ==>
              r.user == Some(outcome.data) && SentAuthorization(r.globals) == SentAuthorization(s.globals)
  {
    match StoredToken(s.globals.storage)
    case None => s
    case Some(token) => Refreshed(s.(globals := s.globals.(authHeader := Some(Bearer(token)))), outcome)
  }

  /** The message of the error `login` throws. */
  function LoginFailureMessage(e: HttpError): string {
    Or(e.detail, "Login failed")
  }

  /** Logging out twice leaves the same state as logging out once. */
  lemma LogoutIdempotent(s: SessionState)
    ensures LoggedOut(LoggedOut(s)) == LoggedOut(s)
  {
    ClearCredentialsIdempotent(s.globals);
  }

  /** A successful refresh replaces the user wholesale and touches nothing else. */
  lemma RefreshSuccessReplacesUser(s: SessionState, u: User)
    ensures Refreshed(s, Ok(u)) == SessionState(Some(u), s.globals)
  {
  }

  /** A 404 or 400 on the profile fetch leaves user, tokens and header exactly as they were. */
  lemma RefreshProfileMissingKeepsSession(s: SessionState, e: HttpError)
    requires ProfileMissing(e)
    ensures Refreshed(s, Fail(e)) == s
  {
  }

  /** Any other failure ends in the logged-out state; a 401 only adds the redirect to `/login`. */
  lemma RefreshOtherFailureLogsOut(s: SessionState, e: HttpError)
    requires !ProfileMissing(e)
    ensures e.status != Some(401) ==> Refreshed(s, Fail(e)) == LoggedOut(s)
    ensures e.status == Some(401) ==>
              Refreshed(s, Fail(e)) == LoggedOut(s).(globals := LoggedOut(s).globals.(location := Some(LoginPath)))
  {
    if e.status == Some(401) {
      ClearCredentialsIdempotent(s.globals);
    }
  }

  /** With no stored token the start-up probe changes nothing and makes no request. */
  lemma InitWithoutToken(s: SessionState, outcome: Response<User>)
    requires StoredToken(s.globals.storage).None?
    ensures Initialized(s, outcome) == s
  {
  }

  /** Cold start with a token the back end now rejects with 401: no user and no stored tokens. */
  lemma ColdStartWithRejectedToken(s: SessionState, e: HttpError)
    requires StoredToken(s.globals.storage).Some? && e.status == Some(401)
    ensures var r := Initialized(s, Fail(e));
            r.user == None && AccessTokenKey !in r.globals.storage && RefreshTokenKey !in r.globals.storage
            && r.globals.authHeader == None
  {
  }

  /** The error `login` throws always carries a non-empty message. */
  lemma LoginFailureMessageNonEmpty(e: HttpError)
    ensures LoginFailureMessage(e) != ""
  {
  }

  class AuthProvider {
    var user: Option<User>
    var loading: bool
    const api: Client

    function State(): SessionState
      reads this, api
    {
      SessionState(user, api.State())
    }

    /** The session starts with no user and `loading` set. */
    constructor (api: Client)
      ensures user == None && loading && this.api == api
    {
      user := None;
      loading := true;
      this.api := api;
    }

    method Logout()
      modifies this, api
      ensures State() == LoggedOut(old(State()))
      ensures loading == old(loading) && api.sent == old(api.sent)
    {
      api.storage := api.storage - {AccessTokenKey};
      api.storage := api.storage - {RefreshTokenKey};
      api.authHeader := None;
      user := None;
      assert api.storage == old(api.storage) - {AccessTokenKey, RefreshTokenKey};
    }

    /** `refreshUser()`: one profile fetch; it always settles normally. */
    method RefreshUser(outcome: Response<User>) returns (c: Completion)
      modifies this, api
      ensures c == Normal
      ensures State() == Refreshed(old(State()), outcome)
      ensures loading == old(loading)
      ensures api.sent == old(api.sent) + [Request(ProfileEndpoint, SentAuthorization(old(api.State())))]
    {
      c := Normal;
      var response := api.Call(ProfileEndpoint, outcome);
      match response
      case Ok(u) =>
        user := Some(u);
      case Fail(e) =>
        if ProfileMissing(e) {
          return;
        }
        Logout();
    }

    /**
     * `login(username, password)`: the credentials go to the back end, whose verdict is
     * `loginOutcome`; on success the profile fetch answers with `profileOutcome`.
     */
    method Login(loginOutcome: Response<Tokens>, profileOutcome: Response<User>) returns (c: Completion)
      modifies this, api
      ensures loading == old(loading)
      ensures loginOutcome.Fail? ==>
                && c == Threw(LoginFailureMessage(loginOutcome.error))
                && State() == old(State()).(globals := Rejected(old(api.State()), loginOutcome.error))
                && api.sent == old(api.sent) + [Request(LoginEndpoint, SentAuthorization(old(api.State())))]
      ensures loginOutcome.Ok? ==>
                && c == Normal
                && State() == Refreshed(old(State()).(globals := StoreTokens(old(api.State()), loginOutcome.data)), profileOutcome)
                && api.sent == old(api.sent) + [Request(LoginEndpoint, SentAuthorization(old(api.State()))),
                                                Request(ProfileEndpoint, Some(Bearer(loginOutcome.data.access)))]
    {
      var response := api.Login(loginOutcome);
      if response.Fail? {
        return Threw(LoginFailureMessage(response.error));
      }
      StoredTokensAuthorize(old(api.State()), response.data);
      var refreshed := RefreshUser(profileOutcome);
      if refreshed.Threw? {
        // `refreshUser` never throws, so the catch of `login` is reached only from the POST.
        assert false;
      }
      c := Normal;
    }

    /** The `initAuth` effect: attach a stored token and probe the profile; clear `loading` last. */
    method InitAuth(outcome: Response<User>)
      modifies this, api
      ensures State() == Initialized(old(State()), outcome)
      ensures !loading
      ensures api.sent == old(api.sent) + match StoredToken(old(api.storage))
                                          case Some(token) => [Request(ProfileEndpoint, Some(Bearer(token)))]
                                          case None => []
    {
      var token := StoredToken(api.storage);
      if token.Some? {
        api.authHeader := Some(Bearer(token.value));
        var refreshed := RefreshUser(outcome);
        if refreshed.Threw? {
          // The `catch` of `initAuth` and its `logout()` are dead code: `refreshUser` never throws.
          assert false;
        }
      }
      loading := false;
    }
  }
}
