/** The CRM access layer: the cached access token (`TokenManager`), the lazily
    created process-wide manager, and the request wrapper `api_request`.

    Every call to the network is an oracle. `auth(k)` is the reply to the k-th
    POST to the auth endpoint made by a manager, and `respond(k)` the reply to
    the k-th HTTP request made by one `api_request` call. Each function or
    method below is decorated in the source with a tenacity `@retry` of three
    attempts and no `reraise`: once the third attempt fails, tenacity raises a
    `RetryError` that wraps the last attempt's exception, which is what
    `RetryError(last)` stands for. Backoff delays are not modelled. */
module PyrusApi {
  import opened Wrappers
  import opened Python

  /** What a call can raise, as far as its callers can tell them apart. */
  datatype Failure =
    | HttpStatusError(status: int)   // httpx `raise_for_status` on a non-2xx reply
    | TransportError                 // httpx could not complete the exchange
    | KeyError                       // the auth reply had no "access_token"
    | JsonDecodeError                // `response.json()` on a body that is not JSON
    | TokenNotSet                    // the RuntimeError of `get_token`
    | TypeMismatch                   // the TypeError raised on an unexpected reply type
    | RetryError(last: Failure)      // tenacity gave up; `last` is the third attempt's failure

  /** The number of attempts every `@retry` in the source allows. */
  const MaxAttempts: nat := 3

  predicate Is2xx(status: int) { 200 <= status < 300 }

  /** A token counts as present when it is a non-empty string (`if self._token:`). */
  predicate Present(token: Option<string>) { token.Some? && token.value != "" }

  // ---------------------------------------------------------------------------
  // Token refresh

  /** The reply to one POST to the auth endpoint. `token` is `None` when the
      JSON has no "access_token" key; a JSON null is modelled as "". */
  datatype AuthResponse = AuthReply(status: int, token: Option<string>) | AuthUnreachable

  /** One attempt of `_refresh_token`: the value it stores in `_token`, or what it raises. */
  function RefreshAttempt(resp: AuthResponse): (r: Result<string, Failure>)
    ensures r.Ok? <==> resp.AuthReply? && Is2xx(resp.status) && resp.token.Some?
    ensures r.Ok? ==> r.value == resp.token.value
  {
    match resp
    case AuthUnreachable => Err(TransportError)
    case AuthReply(status, token) =>
      if !Is2xx(status) then Err(HttpStatusError(status))
      else if token.None? then Err(KeyError)
      else Ok(token.value)
  }

  /** Outcome of the retried `_refresh_token`, and the auth counter after it. */
  datatype RefreshRun = RefreshRun(result: Result<string, Failure>, calls: nat)

  /** The retried `_refresh_token` from its `attempt`-th attempt on, when `calls`
      auth requests have been made before. */
  function RefreshFrom(auth: nat -> AuthResponse, calls: nat, attempt: nat): RefreshRun
    requires 1 <= attempt <= MaxAttempts
    decreases MaxAttempts - attempt
  {
    match RefreshAttempt(auth(calls))
    case Ok(t) => RefreshRun(Ok(t), calls + 1)
    case Err(e) =>
      if attempt == MaxAttempts then RefreshRun(Err(RetryError(e)), calls + 1)
      else RefreshFrom(auth, calls + 1, attempt + 1)
  }

  /** The retried refresh makes between one and three auth requests, succeeds
      exactly when one of them is accepted, and stores that reply's token. */
  lemma {:induction false} RefreshFromSpec(auth: nat -> AuthResponse, calls: nat, attempt: nat)
    requires 1 <= attempt <= MaxAttempts
    decreases MaxAttempts - attempt
    ensures var run := RefreshFrom(auth, calls, attempt);
      && calls < run.calls <= calls + (MaxAttempts + 1 - attempt)
      && (run.result.Ok? <==> exists k :: calls <= k < run.calls && RefreshAttempt(auth(k)).Ok?)
      && (run.result.Ok? ==> RefreshAttempt(auth(run.calls - 1)) == run.result)
      && (forall k :: calls <= k < run.calls - 1 ==> RefreshAttempt(auth(k)).Err?)
      && (run.result.Err? ==> run.result.error.RetryError? && run.calls == calls + (MaxAttempts + 1 - attempt))
  {
    if RefreshAttempt(auth(calls)).Err? && attempt < MaxAttempts {
      RefreshFromSpec(auth, calls + 1, attempt + 1);
    }
  }

  // ---------------------------------------------------------------------------
  // get_token

  /** Outcome of `get_token`, the token left in the manager, and the auth counter. */
  datatype TokenRun = TokenRun(result: Result<string, Failure>, token: Option<string>, calls: nat)

  /** One attempt of `get_token`: the cached token if present (the fast path
      and the re-check under the lock coincide when calls are sequential),
      otherwise a retried refresh that must leave a present token. */
  function GetTokenAttempt(token: Option<string>, auth: nat -> AuthResponse, calls: nat): TokenRun {
    if Present(token) then TokenRun(Ok(token.value), token, calls)
    else
      var refresh := RefreshFrom(auth, calls, 1);
      match refresh.result
      case Err(e) => TokenRun(Err(e), token, refresh.calls)
      case Ok(t) =>
        if t != "" then TokenRun(Ok(t), Some(t), refresh.calls)
        else TokenRun(Err(TokenNotSet), Some(t), refresh.calls)
  }

  /** The retried `get_token` from its `attempt`-th attempt on. */
  function GetTokenFrom(token: Option<string>, auth: nat -> AuthResponse, calls: nat, attempt: nat): TokenRun
    requires 1 <= attempt <= MaxAttempts
    decreases MaxAttempts - attempt
  {
    var run := GetTokenAttempt(token, auth, calls);
    match run.result
    case Ok(_) => run
    case Err(e) =>
      if attempt == MaxAttempts then TokenRun(Err(RetryError(e)), run.token, run.calls)
      else GetTokenFrom(run.token, auth, run.calls, attempt + 1)
  }

  /** `get_token` with the whole retry. */
  function ObtainToken(token: Option<string>, auth: nat -> AuthResponse, calls: nat): TokenRun {
    GetTokenFrom(token, auth, calls, 1)
  }

  /** A cached token is returned as it is, and no auth request is made. */
  lemma CachedTokenFastPath(token: Option<string>, auth: nat -> AuthResponse, calls: nat)
    requires Present(token)
    ensures ObtainToken(token, auth, calls) == TokenRun(Ok(token.value), token, calls)
  {
  }

  /** Whatever the auth endpoint answers, `get_token` either returns the token
      it leaves cached, which is present, or fails with a token that is still
      absent; it never makes more than nine auth requests (three refresh
      attempts in each of three attempts). */
  lemma {:induction false} GetTokenFromSpec(token: Option<string>, auth: nat -> AuthResponse, calls: nat, attempt: nat)
    requires 1 <= attempt <= MaxAttempts
    decreases MaxAttempts - attempt
    ensures var run := GetTokenFrom(token, auth, calls, attempt);
      && calls <= run.calls <= calls + MaxAttempts * (MaxAttempts + 1 - attempt)
      && (run.result.Ok? ==> Present(run.token) && run.result.value == run.token.value)
      && (run.result.Err? ==> !Present(run.token) && run.result.error.RetryError?)
      && (Present(token) <==> run.calls == calls)
  {
    var first := GetTokenAttempt(token, auth, calls);
    if !Present(token) {
      RefreshFromSpec(auth, calls, 1);
    }
    if first.result.Err? && attempt < MaxAttempts {
      GetTokenFromSpec(first.token, auth, first.calls, attempt + 1);
    }
  }

  /** After `invalidate`, the next `get_token` goes to the auth endpoint. */
  lemma GetTokenAfterInvalidateRefreshes(auth: nat -> AuthResponse, calls: nat)
    ensures ObtainToken(None, auth, calls).calls > calls
  {
    GetTokenFromSpec(None, auth, calls, 1);
  }

  /** Holds the access token; `authCalls` counts the auth requests this
      manager has made, so that "no request was made" can be stated. */
  class TokenManager {
    var token: Option<string>
    var authCalls: nat

    constructor ()
      ensures token == None && authCalls == 0
    {
      token := None;
      authCalls := 0;
    }

    /** `_refresh_token` with its retry. */
    method RefreshToken(auth: nat -> AuthResponse) returns (r: Result<string, Failure>)
      modifies this
      ensures var run := RefreshFrom(auth, old(authCalls), 1);
        && r == run.result && authCalls == run.calls
        && token == (if r.Ok? then Some(r.value) else old(token))
    {
      var attempt := 1;
      while true
        invariant 1 <= attempt <= MaxAttempts
        invariant token == old(token)
        invariant RefreshFrom(auth, old(authCalls), 1) == RefreshFrom(auth, authCalls, attempt)
        decreases MaxAttempts - attempt
      {
        var outcome := RefreshAttempt(auth(authCalls));
        authCalls := authCalls + 1;
        if outcome.Ok? {
          token := Some(outcome.value);
          return outcome;
        }
        if attempt == MaxAttempts {
          return Err(RetryError(outcome.error));
        }
        attempt := attempt + 1;
      }
    }

    /** `get_token` with its retry. */
    method GetToken(auth: nat -> AuthResponse) returns (r: Result<string, Failure>)
      modifies this
      ensures var run := ObtainToken(old(token), auth, old(authCalls));
        r == run.result && token == run.token && authCalls == run.calls
    {
      var attempt := 1;
      while true
        invariant 1 <= attempt <= MaxAttempts
        invariant ObtainToken(old(token), auth, old(authCalls)) == GetTokenFrom(token, auth, authCalls, attempt)
        decreases MaxAttempts - attempt
      {
        var failure: Failure;
        if Present(token) {
          return Ok(token.value);
        }
        var refreshed := RefreshToken(auth);
        if refreshed.Err? {
          failure := refreshed.error;
        } else if Present(token) {
          return Ok(token.value);
        } else {
          failure := TokenNotSet;
        }
        if attempt == MaxAttempts {
          return Err(RetryError(failure));
        }
        attempt := attempt + 1;
      }
    }

    /** `invalidate`: drop the cached token, whatever it was. */
    method Invalidate()
      modifies this
      ensures token == None && authCalls == old(authCalls)
    {
      token := None;
    }
  }

  // ---------------------------------------------------------------------------
  // api_request

  /** The reply to one HTTP request; `json` is `None` when the body does not parse. */
  datatype HttpResponse<J> = HttpReply(status: int, content: Bytes, json: Option<J>) | HttpUnreachable

  /** What `api_request` returns: the raw body, or the parsed JSON document. */
  datatype ApiBody<J> = RawBytes(content: Bytes) | JsonBody(doc: J)

  /** The target of a request: `url` when it is given and non-empty, otherwise
      the configured base URL followed by the endpoint. */
  function RequestUrl(baseUrl: string, endpoint: string, url: Option<string>): (r: string)
    ensures url.Some? && url.value != "" ==> r == url.value
    ensures url.None? || url.value == "" ==> |r| == |baseUrl| + |endpoint| && r[..|baseUrl|] == baseUrl && r[|baseUrl|..] == endpoint
  {
    if url.Some? && url.value != "" then url.value else baseUrl + endpoint
  }

  /** Outcome of `api_request`, the manager's token and auth counter after it,
      and the number of HTTP requests sent. */
  datatype ApiRun<J> = ApiRun(result: Result<ApiBody<J>, Failure>, token: Option<string>, calls: nat, sent: nat)

  /** One attempt of `api_request`: obtain a token (no request is sent if that
      fails), send the request, drop the token on a 401, raise on any non-2xx,
      then return the raw bytes when `download` is set and the JSON otherwise. */
  function ApiAttempt<J>(token: Option<string>, calls: nat, sent: nat, auth: nat -> AuthResponse,
                         respond: nat -> HttpResponse<J>, download: bool): ApiRun<J>
  {
    var got := ObtainToken(token, auth, calls);
    if got.result.Err? then ApiRun(Err(got.result.error), got.token, got.calls, sent)
    else
      match respond(sent)
      case HttpUnreachable => ApiRun(Err(TransportError), got.token, got.calls, sent + 1)
      case HttpReply(status, content, json) =>
        var left := if status == 401 then None else got.token;
        if !Is2xx(status) then ApiRun(Err(HttpStatusError(status)), left, got.calls, sent + 1)
        else if download then ApiRun(Ok(RawBytes(content)), left, got.calls, sent + 1)
        else if json.None? then ApiRun(Err(JsonDecodeError), left, got.calls, sent + 1)
        else ApiRun(Ok(JsonBody(json.value)), left, got.calls, sent + 1)
  }

  /** The retried `api_request` from its `attempt`-th attempt on. */
  function ApiFrom<J>(token: Option<string>, calls: nat, sent: nat, auth: nat -> AuthResponse,
                      respond: nat -> HttpResponse<J>, download: bool, attempt: nat): ApiRun<J>
    requires 1 <= attempt <= MaxAttempts
    decreases MaxAttempts - attempt
  {
    var run := ApiAttempt(token, calls, sent, auth, respond, download);
    match run.result
    case Ok(_) => run
    case Err(e) =>
      if attempt == MaxAttempts then ApiRun(Err(RetryError(e)), run.token, run.calls, run.sent)
      else ApiFrom(run.token, run.calls, run.sent, auth, respond, download, attempt + 1)
  }

  /** `api_request` with the whole retry, starting with no request sent. */
  function Api<J>(token: Option<string>, calls: nat, auth: nat -> AuthResponse,
                  respond: nat -> HttpResponse<J>, download: bool): ApiRun<J>
  {
    ApiFrom(token, calls, 0, auth, respond, download, 1)
  }

  /** A 401 reply leaves no token behind and is raised as an HTTP status error. */
  lemma UnauthorizedInvalidates<J>(token: Option<string>, calls: nat, sent: nat, auth: nat -> AuthResponse,
                                   respond: nat -> HttpResponse<J>, download: bool)
    requires ObtainToken(token, auth, calls).result.Ok?
    requires respond(sent).HttpReply? && respond(sent).status == 401
    ensures var run := ApiAttempt(token, calls, sent, auth, respond, download);
      run.token == None && run.result == Err(HttpStatusError(401)) && run.sent == sent + 1
  {
  }

  /** One attempt sends at most one request; it succeeds only on a 2xx reply
      to that request, with the raw bytes exactly when `download` is set. */
  lemma ApiAttemptSpec<J>(token: Option<string>, calls: nat, sent: nat, auth: nat -> AuthResponse,
                          respond: nat -> HttpResponse<J>, download: bool)
    ensures var run := ApiAttempt(token, calls, sent, auth, respond, download);
      && sent <= run.sent <= sent + 1
      && (run.result.Ok? ==> run.sent == sent + 1 && respond(sent).HttpReply? && Is2xx(respond(sent).status))
      && (run.result.Ok? ==> (run.result.value.RawBytes? <==> download))
      && (run.result.Ok? && download ==> run.result.value.content == respond(sent).content)
  {
  }

  /** The retried request sends at most three requests; a success is the reply
      to the last one sent, which was a 2xx, and it carries the raw bytes
      exactly when `download` is set; a failure is a `RetryError`. */
  lemma {:induction false} ApiFromSpec<J>(token: Option<string>, calls: nat, sent: nat, auth: nat -> AuthResponse,
                                         respond: nat -> HttpResponse<J>, download: bool, attempt: nat)
    requires 1 <= attempt <= MaxAttempts
    decreases MaxAttempts - attempt
    ensures var run := ApiFrom(token, calls, sent, auth, respond, download, attempt);
      && sent <= run.sent <= sent + (MaxAttempts + 1 - attempt)
      && (run.result.Ok? ==> run.sent > sent && respond(run.sent - 1).HttpReply? && Is2xx(respond(run.sent - 1).status))
      && (run.result.Ok? ==> (run.result.value.RawBytes? <==> download))
      && (run.result.Ok? && download ==> run.result.value.content == respond(run.sent - 1).content)
      && (run.result.Err? ==> run.result.error.RetryError?)
  {
    var first := ApiAttempt(token, calls, sent, auth, respond, download);
    ApiAttemptSpec(token, calls, sent, auth, respond, download);
    if first.result.Err? && attempt < MaxAttempts {
      ApiFromSpec(first.token, first.calls, first.sent, auth, respond, download, attempt + 1);
    }
  }

  /** No status is exempt from the retry: a server that always answers 403 sees
      three requests, and the caller receives a `RetryError`, not the 403. */
  lemma {:induction false} ForbiddenIsRetried<J>(token: Option<string>, auth: nat -> AuthResponse,
                                                 respond: nat -> HttpResponse<J>, download: bool)
    requires Present(token)
    requires forall k :: respond(k).HttpReply? && respond(k).status == 403
    ensures var run := Api(token, 0, auth, respond, download);
      run.sent == 3 && run.result == Err(RetryError(HttpStatusError(403)))
  {
    var a1 := ApiAttempt(token, 0, 0, auth, respond, download);
    assert a1.token == token && a1.sent == 1;
    var a2 := ApiAttempt(a1.token, a1.calls, 1, auth, respond, download);
    assert a2.token == token && a2.sent == 2;
  }

  /** After a 401, the next attempt fetches a fresh token even though one was
      cached when the call began. */
  lemma RetryAfterUnauthorizedRefreshes<J>(token: Option<string>, calls: nat, auth: nat -> AuthResponse,
                                           respond: nat -> HttpResponse<J>, download: bool)
    requires Present(token)
    requires respond(0).HttpReply? && respond(0).status == 401
    ensures Api(token, calls, auth, respond, download).calls > calls
  {
    var first := ApiAttempt(token, calls, 0, auth, respond, download);
    assert first.token == None && first.calls == calls;
    GetTokenAfterInvalidateRefreshes(auth, calls);
    GetTokenFromSpec(None, auth, calls, 1);
    ApiFromSpec(None, calls, 1, auth, respond, download, 2);
    var second := ApiAttempt(None, calls, 1, auth, respond, download);
    assert second.calls > calls;
    if second.result.Err? {
      var third := ApiAttempt(second.token, second.calls, second.sent, auth, respond, download);
      GetTokenFromSpec(second.token, auth, second.calls, 1);
    }
  }

  /** The exception a caller would catch if every retry re-raised the last
      attempt's exception (`reraise=True`) instead of wrapping it. */
  function Unwrapped(f: Failure): (g: Failure)
    ensures !g.RetryError?
    ensures !f.RetryError? ==> g == f
  {
    if f.RetryError? then Unwrapped(f.last) else f
  }

  /** The intended reading of a failed call: `Unwrapped` applied to its exception. */
  function Reraised<T>(r: Result<T, Failure>): (s: Result<T, Failure>)
    ensures r.Ok? ==> s == r
    ensures r.Err? ==> s.Err? && !s.error.RetryError?
  {
    if r.Ok? then r else Err(Unwrapped(r.error))
  }

  /** The process-wide state of `pyrus_api_service`: the lazily created manager. */
  class ApiClient {
    const baseUrl: string
    var manager: TokenManager?

    constructor (baseUrl: string)
      ensures this.baseUrl == baseUrl && manager == null
    {
      this.baseUrl := baseUrl;
      manager := null;
    }

    /** `get_token_manager`: create the manager on the first call, return the same one afterwards. */
    method GetTokenManager() returns (tm: TokenManager)
      modifies this
      ensures manager == tm
      ensures old(manager) != null ==> tm == old(manager)
      ensures old(manager) == null ==> fresh(tm) && tm.token == None && tm.authCalls == 0
    {
      if manager == null {
        manager := new TokenManager();
      }
      tm := manager;
    }

    /** `api_request(method, endpoint, url, params={"download": download})`:
        returns the outcome, the URL the request went to, and how many HTTP
        requests were sent. */
    method Request<J>(endpoint: string, url: Option<string>, download: bool,
                      auth: nat -> AuthResponse, respond: nat -> HttpResponse<J>)
      returns (r: Result<ApiBody<J>, Failure>, requestUrl: string, sent: nat)
      modifies this, manager
      ensures manager != null && (old(manager) != null ==> manager == old(manager))
      ensures var token0 := if old(manager) == null then None else old(manager.token);
        var calls0 := if old(manager) == null then 0 else old(manager.authCalls);
        var run := Api(token0, calls0, auth, respond, download);
        && r == run.result && sent == run.sent
        && manager.token == run.token && manager.authCalls == run.calls
      ensures requestUrl == RequestUrl(baseUrl, endpoint, url)
    {
      ghost var token0 := if manager == null then None else manager.token;
      ghost var calls0 := if manager == null then 0 else manager.authCalls;
      requestUrl := RequestUrl(baseUrl, endpoint, url);
      var tm := GetTokenManager();
      sent := 0;
      var attempt := 1;
      while true
        invariant 1 <= attempt <= MaxAttempts
        invariant manager == tm && (old(manager) != null ==> tm == old(manager))
        invariant old(manager) == null ==> fresh(tm)
        invariant Api(token0, calls0, auth, respond, download)
               == ApiFrom(tm.token, tm.authCalls, sent, auth, respond, download, attempt)
        decreases MaxAttempts - attempt
      {
        var failure: Failure;
        var got := tm.GetToken(auth);
        if got.Err? {
          failure := got.error;
        } else {
          var reply := respond(sent);
          sent := sent + 1;
          if reply.HttpUnreachable? {
            failure := TransportError;
          } else {
            if reply.status == 401 {
              tm.Invalidate();
            }
            if !Is2xx(reply.status) {
              failure := HttpStatusError(reply.status);
            } else if download {
              return Ok(RawBytes(reply.content)), requestUrl, sent;
            } else if reply.json.None? {
              failure := JsonDecodeError;
            } else {
              return Ok(JsonBody(reply.json.value)), requestUrl, sent;
            }
          }
        }
        if attempt == MaxAttempts {
          return Err(RetryError(failure)), requestUrl, sent;
        }
        attempt := attempt + 1;
      }
    }
  }
}
