/**
 * The HTTP client of `src/services/api.ts`: the request interceptor that attaches the stored
 * bearer token, the response interceptor that clears the session on a 401, and the token
 * bookkeeping of `authService.login`. The network itself is a parameter: every call takes the
 * outcome the back end would produce.
 */
module Api {
  import opened Wrappers
  import opened JsStrings
  import opened Notices

  const AccessTokenKey := "accessToken"
  const RefreshTokenKey := "refreshToken"
  const AuthorizationHeader := "Authorization"
  const LoginEndpoint := "/accounts/login/"
  const ProfileEndpoint := "/accounts/profile/"
  const LoginPath := "/login"

  /**
   * A rejected call as the callers read it: `error.response?.status`,
   * `error.response?.data?.detail`, `error.response?.data?.message` and `error.message`.
   */
  datatype HttpError = HttpError(status: Option<int>, detail: Option<string>, message: Option<string>, text: string)

  /** What an awaited call settles to. */
  datatype Response<T> = Ok(data: T) | Fail(error: HttpError)

  /**
   * The error notice the pages raise for a failed call: the back end's `detail`, else its
   * `message`, else the page's own `fallback`.
   */
  function FailureNotice(title: string, e: HttpError, fallback: string): (n: Notice)
    ensures n.kind == Error && n.title == title
    ensures Truthy(e.detail) ==> n.message == e.detail.value
    ensures !Truthy(e.detail) && Truthy(e.message) ==> n.message == e.message.value
    ensures !Truthy(e.detail) && !Truthy(e.message) ==> n.message == fallback
  {
    Notice(Error, title, Or(e.detail, Or(e.message, fallback)))
  }

  /** The rejection of calling a member `authService` does not define: a `TypeError`, with no response. */
  function MissingService(name: string): (e: HttpError)
    ensures e.status == None && e.detail == None && e.message == None
  {
    HttpError(None, None, None, "authService." + name + " is not a function")
  }

  /** The body of a successful `POST /accounts/login/`. */
  datatype Tokens = Tokens(access: string, refresh: string)

  /** An issued request: where it went and the `Authorization` header it carried. */
  datatype Request = Request(endpoint: string, authorization: Option<string>)

  /**
   * The process-wide state this file writes: `localStorage`, the default
   * `Authorization` header of the axios instance, and `window.location.href`.
   */
  datatype Globals = Globals(storage: map<string, string>, authHeader: Option<string>, location: Option<string>)

  function Bearer(token: string): string {
    "Bearer " + token
  }

  /** `localStorage.getItem('accessToken')` when JavaScript reads it as true. */
  function StoredToken(storage: map<string, string>): (r: Option<string>)
    ensures r.Some? <==> AccessTokenKey in storage && storage[AccessTokenKey] != ""
    ensures r.Some? ==> r.value == storage[AccessTokenKey]
  {
    if AccessTokenKey in storage && storage[AccessTokenKey] != "" then Some(storage[AccessTokenKey]) else None
  }

  /** The request interceptor, applied to the header map of one request. */
  function AttachBearer(storage: map<string, string>, headers: map<string, string>): (r: map<string, string>)
    ensures StoredToken(storage).Some? ==>
              AuthorizationHeader in r && r[AuthorizationHeader] == "Bearer " + storage[AccessTokenKey]
    ensures StoredToken(storage).None? ==> r == headers
    ensures forall k :: k != AuthorizationHeader ==> (k in r <==> k in headers)
    ensures forall k :: k in r && k != AuthorizationHeader ==> r[k] == headers[k]
  {
    match StoredToken(storage)
    case Some(token) => headers[AuthorizationHeader := Bearer(token)]
    case None => headers
  }

  /**
   * The `Authorization` header a request sent in state `g` carries: the default header,
   * overridden by the interceptor when a token is stored.
   */
  function SentAuthorization(g: Globals): (h: Option<string>)
    ensures StoredToken(g.storage).Some? ==> h == Some(Bearer(StoredToken(g.storage).value))
    ensures StoredToken(g.storage).None? ==> h == g.authHeader
  {
    var defaults := if g.authHeader.Some? then map[AuthorizationHeader := g.authHeader.value] else map[];
    var headers := AttachBearer(g.storage, defaults);
    if AuthorizationHeader in headers then Some(headers[AuthorizationHeader]) else None
  }

  /** Removing both tokens and deleting the default header, as the 401 handler and `logout` both do. */
  function ClearCredentials(g: Globals): (r: Globals)
    ensures r.storage.Keys == g.storage.Keys - {AccessTokenKey, RefreshTokenKey}
    ensures forall k :: k in r.storage ==> r.storage[k] == g.storage[k]
    ensures r.authHeader == None && r.location == g.location
  {
    Globals(g.storage - {AccessTokenKey, RefreshTokenKey}, None, g.location)
  }

  /** Once cleared, clearing again changes nothing. */
  lemma ClearCredentialsIdempotent(g: Globals)
    ensures ClearCredentials(ClearCredentials(g)) == ClearCredentials(g)
  {
    assert ClearCredentials(g).storage - {AccessTokenKey, RefreshTokenKey} == ClearCredentials(g).storage;
  }

  /** The response interceptor's rejection handler, on the global state. */
  function Rejected(g: Globals, e: HttpError): (r: Globals)
    ensures e.status == Some(401) ==> SentAuthorization(r) == None && r.location == Some(LoginPath)
    ensures e.status != Some(401) ==> r == g
  {
    if e.status == Some(401) then ClearCredentials(g).(location := Some(LoginPath)) else g
  }

  /** The global state after a call settled with `outcome`: only a failure reaches the 401 handler. */
  function AfterCall<T>(g: Globals, outcome: Response<T>): Globals {
    if outcome.Fail? then Rejected(g, outcome.error) else g
  }

  /** A 401 clears both tokens and the header and sends the page to `/login`; nothing else changes state. */
  lemma RejectedEffect(g: Globals, e: HttpError)
    ensures e.status == Some(401) ==>
              var r := Rejected(g, e);
              AccessTokenKey !in r.storage && RefreshTokenKey !in r.storage
              && r.authHeader == None && r.location == Some(LoginPath)
    ensures e.status != Some(401) ==> Rejected(g, e) == g
  {
  }

  /** The writes `authService.login` performs after a successful `POST`. */
  function StoreTokens(g: Globals, t: Tokens): (r: Globals)
    ensures AccessTokenKey in r.storage && r.storage[AccessTokenKey] == t.access
    ensures RefreshTokenKey in r.storage && r.storage[RefreshTokenKey] == t.refresh
    ensures r.authHeader == Some(Bearer(t.access)) && r.location == g.location
    ensures forall k :: k != AccessTokenKey && k != RefreshTokenKey ==>
              (k in r.storage <==> k in g.storage) && (k in r.storage ==> r.storage[k] == g.storage[k])
  {
    Globals(g.storage[AccessTokenKey := t.access][RefreshTokenKey := t.refresh], Some(Bearer(t.access)), g.location)
  }

  /** After a successful login every request carries `Bearer <access>`. */
  lemma {:induction false} StoredTokensAuthorize(g: Globals, t: Tokens)
    ensures SentAuthorization(StoreTokens(g, t)) == Some(Bearer(t.access))
  {
    var r := StoreTokens(g, t);
    var defaults := map[AuthorizationHeader := Bearer(t.access)];
    assert r.authHeader == Some(Bearer(t.access));
    if StoredToken(r.storage).Some? {
      assert AttachBearer(r.storage, defaults)[AuthorizationHeader] == Bearer(t.access);
    } else {
      assert AttachBearer(r.storage, defaults) == defaults;
    }
  }

  /** After the credentials are cleared, requests carry no `Authorization` header at all. */
  lemma ClearedSendsNoAuthorization(g: Globals)
    ensures SentAuthorization(ClearCredentials(g)) == None
  {
    var r := ClearCredentials(g);
    assert StoredToken(r.storage) == None;
  }

  /** The axios instance together with the browser state it reads and writes. */
  class Client {
    var storage: map<string, string>
    var authHeader: Option<string>
    var location: Option<string>
    /** Every request issued so far, oldest first. */
    var sent: seq<Request>

    function State(): Globals
      reads this
    {
      Globals(storage, authHeader, location)
    }

    /** A fresh page: whatever `localStorage` held from earlier visits, no default header. */
    constructor (storage: map<string, string>)
      ensures State() == Globals(storage, None, None) && sent == []
    {
      this.storage := storage;
      authHeader := None;
      location := None;
      sent := [];
    }

    /** The request half of a call: the interceptor attaches the stored token as the request leaves. */
    method Issue(endpoint: string)
      modifies this`sent
      ensures sent == old(sent) + [Request(endpoint, SentAuthorization(State()))]
    {
      sent := sent + [Request(endpoint, SentAuthorization(State()))];
    }

    /** The response half of a call: a failure passes through the 401 handler and is re-rejected unchanged. */
    method Settle<T>(outcome: Response<T>) returns (r: Response<T>)
      modifies this`storage, this`authHeader, this`location
      ensures r == outcome
      ensures State() == AfterCall(old(State()), outcome)
    {
      if outcome.Fail? && outcome.error.status == Some(401) {
        storage := storage - {AccessTokenKey};
        storage := storage - {RefreshTokenKey};
        authHeader := None;
        location := Some(LoginPath);
        assert storage == old(storage) - {AccessTokenKey, RefreshTokenKey};
      }
      r := outcome;
    }

    /** One awaited call through the instance: issued, then settled with `outcome`. */
    method Call<T>(endpoint: string, outcome: Response<T>) returns (r: Response<T>)
      modifies this
      ensures r == outcome
      ensures sent == old(sent) + [Request(endpoint, SentAuthorization(old(State())))]
      ensures State() == AfterCall(old(State()), outcome)
    {
      Issue(endpoint);
      r := Settle(outcome);
    }

    /** `authService.login`: on success both tokens are stored and the default header set, in that order. */
    method Login(outcome: Response<Tokens>) returns (r: Response<Tokens>)
      modifies this
      ensures r == outcome
      ensures sent == old(sent) + [Request(LoginEndpoint, SentAuthorization(old(State())))]
      ensures State() == match outcome
                         case Ok(t) => StoreTokens(old(State()), t)
                         case Fail(e) => Rejected(old(State()), e)
    {
      r := Call(LoginEndpoint, outcome);
      if r.Ok? {
        storage := storage[AccessTokenKey := r.data.access];
        storage := storage[RefreshTokenKey := r.data.refresh];
        authHeader := Some(Bearer(r.data.access));
      }
    }
  }
}
