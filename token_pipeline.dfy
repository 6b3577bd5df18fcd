/** The dashboard's axios instance: a request interceptor that attaches the stored
    access token as a bearer credential (section 2.1 of RFC 6750), and a response
    interceptor that unwraps successful bodies and answers a 401 with one silent
    refresh followed by one re-issue of the original request.

    The browser's `localStorage` is the map `storage` of a `Pipeline` object; the
    network is a `Script` of replies chosen by the caller; `window.location` is the
    field `pathname` plus a log of redirect targets. */
module TokenPipeline {
  import opened Text

  // Storage keys (src/config/constants.js).
  const ACCESS_TOKEN: string := "accessToken"
  const REFRESH_TOKEN: string := "refreshToken"
  const USER_INFO: string := "userInfo"
  const RESET_TOKEN: string := "resetToken"

  // Auth endpoint paths (src/config/constants.js). There is no RESEND_OTP entry:
  // `url.includes(API_ENDPOINTS.RESEND_OTP)` is `url.includes(undefined)`, which
  // converts its argument and looks for the text "undefined".
  const LOGIN: string := "/users/login"
  const REGISTER: string := "/users/register"
  const LOGOUT: string := "/users/logout"
  const REFRESH_PATH: string := "/users/refresh-token"
  const VERIFY_EMAIL: string := "/users/verify-email"
  const FORGOT_PASSWORD: string := "/users/forgot-password"
  const VERIFY_RESET_CODE: string := "/users/verify-reset-code"
  const RESET_PASSWORD: string := "/users/reset-password"
  const RESEND_OTP_TERM: string := "undefined"

  const AUTHORIZATION: string := "Authorization"
  const LOGIN_PAGE: string := "/login"

  /** A reply from the network: a response with a status and a body, or none at all
      (timeout, connection failure). */
  datatype Reply<B> = Response(status: int, body: B) | NoResponse

  /** axios' default `validateStatus`: only 2xx resolves. */
  predicate IsSuccess<B>(r: Reply<B>)
  {
    r.Response? && 200 <= r.status < 300
  }

  /** The two places the refresh answer may carry the new token:
      `data.data.accessToken` and `data.accessToken`. */
  datatype RefreshBody = RefreshBody(nested: Option<string>, top: Option<string>)

  /** The replies the network gives, in order: to the original request, to the
      refresh POST, and to the re-issued request. */
  datatype Script = Script(first: Reply<string>, refresh: Reply<RefreshBody>, second: Reply<string>)

  /** What a rejected call carries. */
  datatype Failure =
    | AxiosError(reply: Reply<string>, url: Option<string>)  // an error of the instance, unchanged
    | NoRefreshToken                                         // new Error('No refresh token available')
    | RefreshRequestFailed(refreshReply: Reply<RefreshBody>)  // the error of the bare axios POST
    | NoTokenInRefreshResponse                               // new Error('No access token in refresh response')

  datatype Outcome = Resolved(data: string) | Rejected(reason: Failure)

  /** What the error handler of the response interceptor decides. */
  datatype Action = Reissue | Reject(reason: Failure)

  /** The `Authorization` value of section 2.1 of RFC 6750: the scheme "Bearer", one
      space, then the token. */
  function Bearer(token: string): (h: string)
    ensures |h| == 7 + |token| && h[..7] == "Bearer " && h[7..] == token
  {
    "Bearer " + token
  }

  /** `url?.includes(...)` over the nine auth terms, in the source's order. An absent
      URL gives `undefined`, which is falsy. */
  predicate IsAuthEndpoint(url: Option<string>)
  {
    url.Some? &&
    (Contains(url.value, LOGIN) || Contains(url.value, REGISTER) || Contains(url.value, REFRESH_PATH)
     || Contains(url.value, VERIFY_EMAIL) || Contains(url.value, RESEND_OTP_TERM)
     || Contains(url.value, FORGOT_PASSWORD) || Contains(url.value, VERIFY_RESET_CODE)
     || Contains(url.value, RESET_PASSWORD) || Contains(url.value, LOGOUT))
  }

  /** `response.data?.data?.accessToken || response.data?.accessToken`, then the
      `if (!newAccessToken)` test: the nested token wins when it is truthy, the
      top-level one is the fallback, and a falsy result means no token. */
  function ExtractAccessToken(b: RefreshBody): (r: Option<string>)
    ensures r.Some? ==> r.value != ""
    ensures Truthy(b.nested) ==> r == b.nested
    ensures !Truthy(b.nested) && Truthy(b.top) ==> r == b.top
    ensures r.None? <==> !Truthy(b.nested) && !Truthy(b.top)
  {
    if Truthy(b.nested) then b.nested else if Truthy(b.top) then b.top else None
  }

  datatype RefreshResult = Refreshed(token: string) | RefreshFailed(error: Failure)

  /** The `try` block of the 401 handler up to its first throw: read the refresh token,
      POST it with bare axios, find the new access token. */
  function TryRefresh(storage: map<string, string>, refresh: Reply<RefreshBody>): (r: RefreshResult)
    ensures !Truthy(Get(storage, REFRESH_TOKEN)) ==> r == RefreshFailed(NoRefreshToken)
    ensures Truthy(Get(storage, REFRESH_TOKEN)) && !IsSuccess(refresh) ==>
              r == RefreshFailed(RefreshRequestFailed(refresh))
    ensures r.Refreshed? <==>
              Truthy(Get(storage, REFRESH_TOKEN)) && IsSuccess(refresh)
              && ExtractAccessToken(refresh.body).Some?
    ensures r.Refreshed? ==> Some(r.token) == ExtractAccessToken(refresh.body) && r.token != ""
    ensures (Truthy(Get(storage, REFRESH_TOKEN)) && IsSuccess(refresh)
             && ExtractAccessToken(refresh.body).None?) ==> r == RefreshFailed(NoTokenInRefreshResponse)
  {
    if !Truthy(Get(storage, REFRESH_TOKEN)) then RefreshFailed(NoRefreshToken)
    else if !IsSuccess(refresh) then RefreshFailed(RefreshRequestFailed(refresh))
    else match ExtractAccessToken(refresh.body)
      case None => RefreshFailed(NoTokenInRefreshResponse)
      case Some(t) => Refreshed(t)
  }

  /** The `catch` block's three `removeItem` calls: the session keys go, every other
      entry (the reset token among them) stays. */
  function ClearSession(storage: map<string, string>): (r: map<string, string>)
    ensures ACCESS_TOKEN !in r && REFRESH_TOKEN !in r && USER_INFO !in r
    ensures forall k :: k in storage && k != ACCESS_TOKEN && k != REFRESH_TOKEN && k != USER_INFO
              ==> k in r && r[k] == storage[k]
    ensures r.Keys <= storage.Keys
  {
    storage - {ACCESS_TOKEN, REFRESH_TOKEN, USER_INFO}
  }

  /** `if (!window.location.pathname.includes('/login')) window.location.href = '/login'`. */
  function LoginRedirect(pathname: string): (targets: seq<string>)
    ensures Contains(pathname, LOGIN_PAGE) <==> targets == []
    ensures targets != [] ==> targets == [LOGIN_PAGE]
  {
    if Contains(pathname, LOGIN_PAGE) then [] else [LOGIN_PAGE]
  }

  /** The request the silent refresh depends on: a 401 reply to a request that was not
      retried yet and whose URL is not an auth endpoint. */
  predicate StartsRefresh(url: Option<string>, retried: bool, reply: Reply<string>)
  {
    reply.Response? && reply.status == 401 && !retried && !IsAuthEndpoint(url)
  }

  /** The configuration object axios passes to the interceptors; the response handler
      marks it `_retry` and rewrites its headers. */
  class Request {
    var url: Option<string>
    var headers: map<string, string>
    var retry: bool

    constructor (url: Option<string>, headers: map<string, string>)
      ensures this.url == url && this.headers == headers && !retry
    {
      this.url := url;
      this.headers := headers;
      retry := false;
    }
  }

  /** A request as it left the client: its URL and its headers at that moment. */
  datatype Sent = Sent(url: Option<string>, headers: map<string, string>)

  class Pipeline {
    /** localStorage. */
    var storage: map<string, string>
    /** `window.location.pathname` at the time a refresh fails. */
    var pathname: string
    /** Every `window.location.href = ...` assignment, in order. */
    var redirects: seq<string>
    /** Every request sent through the instance (after its request interceptor). */
    var sent: seq<Sent>
    /** The refresh token of every refresh POST sent through bare axios. */
    var refreshPosts: seq<string>

    constructor (storage: map<string, string>, pathname: string)
      ensures this.storage == storage && this.pathname == pathname
      ensures redirects == [] && sent == [] && refreshPosts == []
    {
      this.storage := storage;
      this.pathname := pathname;
      redirects := [];
      sent := [];
      refreshPosts := [];
    }

    /** The request interceptor: a truthy stored access token t sets
        `Authorization: Bearer t`; otherwise the headers are left alone. */
    method AttachToken(req: Request)
      modifies req`headers
      ensures Truthy(Get(storage, ACCESS_TOKEN)) ==>
                req.headers == old(req.headers)[AUTHORIZATION := Bearer(storage[ACCESS_TOKEN])]
      ensures !Truthy(Get(storage, ACCESS_TOKEN)) ==> req.headers == old(req.headers)
    {
      var token := Get(storage, ACCESS_TOKEN);
      if Truthy(token) {
        req.headers := req.headers[AUTHORIZATION := Bearer(token.value)];
      }
    }

    /** The success handler of the response interceptor: the caller gets the body only. */
    static function Unwrap(reply: Reply<string>): (data: string)
      requires IsSuccess(reply)
      ensures data == reply.body
    {
      reply.body
    }

    /** The error handler of the response interceptor, up to (not including) the
        re-issue `axiosInstance(originalRequest)`. */
    method OnError(req: Request, reply: Reply<string>, refresh: Reply<RefreshBody>) returns (action: Action)
      requires !IsSuccess(reply)
      modifies this`storage, this`redirects, this`refreshPosts, req`retry, req`headers
      // Not a refreshable 401: rejected unchanged, nothing touched.
      ensures !StartsRefresh(req.url, old(req.retry), reply) ==>
                action == Reject(AxiosError(reply, req.url))
                && storage == old(storage) && redirects == old(redirects)
                && refreshPosts == old(refreshPosts)
                && req.retry == old(req.retry) && req.headers == old(req.headers)
      // A refreshable 401: the request is marked before anything else happens.
      ensures StartsRefresh(req.url, old(req.retry), reply) ==> req.retry
      // The refresh POST goes out (through bare axios) exactly when a truthy refresh token is stored.
      ensures StartsRefresh(req.url, old(req.retry), reply) ==>
                refreshPosts == old(refreshPosts) +
                  (if Truthy(Get(old(storage), REFRESH_TOKEN)) then [old(storage)[REFRESH_TOKEN]] else [])
      // Refresh success: only the access token changes, the request gets the new header.
      ensures StartsRefresh(req.url, old(req.retry), reply) && TryRefresh(old(storage), refresh).Refreshed? ==>
                var t := TryRefresh(old(storage), refresh).token;
                action == Reissue
                && storage == old(storage)[ACCESS_TOKEN := t]
                && req.headers == old(req.headers)[AUTHORIZATION := Bearer(t)]
                && redirects == old(redirects)
      // Refresh failure: the session keys are cleared, the refresh error is the reason.
      ensures StartsRefresh(req.url, old(req.retry), reply) && TryRefresh(old(storage), refresh).RefreshFailed? ==>
                action == Reject(TryRefresh(old(storage), refresh).error)
                && storage == ClearSession(old(storage))
                && req.headers == old(req.headers)
                && redirects == old(redirects) + LoginRedirect(pathname)
    {
      if reply.Response? && reply.status == 401 && !req.retry {
        if IsAuthEndpoint(req.url) {
          return Reject(AxiosError(reply, req.url));
        }
        req.retry := true;
        var outcome: RefreshResult;
        var refreshToken := Get(storage, REFRESH_TOKEN);
        if !Truthy(refreshToken) {
          outcome := RefreshFailed(NoRefreshToken);
        } else {
          refreshPosts := refreshPosts + [refreshToken.value];
          if !IsSuccess(refresh) {
            outcome := RefreshFailed(RefreshRequestFailed(refresh));
          } else {
            var newAccessToken := ExtractAccessToken(refresh.body);
            if newAccessToken.None? {
              outcome := RefreshFailed(NoTokenInRefreshResponse);
            } else {
              outcome := Refreshed(newAccessToken.value);
            }
          }
        }
        match outcome {
          case Refreshed(t) =>
            storage := storage[ACCESS_TOKEN := t];
            req.headers := req.headers[AUTHORIZATION := Bearer(t)];
            return Reissue;
          case RefreshFailed(refreshError) =>
            storage := ClearSession(storage);
            redirects := redirects + LoginRedirect(pathname);
            return Reject(refreshError);
        }
      }
      return Reject(AxiosError(reply, req.url));
    }

    /** One call through the instance, with the network replying as `script` says.
        A re-issued request passes through both interceptors again; because it is
        returned without `await`, its failure is not seen by the `catch` block. */
    method Call(req: Request, script: Script) returns (out: Outcome)
      modifies this`storage, this`redirects, this`refreshPosts, this`sent, req`retry, req`headers
      ensures pathname == old(pathname)
      // A 2xx reply resolves with its body, after one send, and nothing else happens.
      ensures IsSuccess(script.first) ==>
                out == Resolved(script.first.body) && |sent| == |old(sent)| + 1
                && storage == old(storage) && redirects == old(redirects) && refreshPosts == old(refreshPosts)
      // The first send goes to the request's URL and carries the stored access token when
      // there is a truthy one; otherwise its headers are the request's own.
      ensures |sent| >= |old(sent)| + 1 && sent[..|old(sent)|] == old(sent)
      ensures sent[|old(sent)|].url == req.url
      ensures Truthy(Get(old(storage), ACCESS_TOKEN)) ==>
                sent[|old(sent)|].headers == old(req.headers)[AUTHORIZATION := Bearer(old(storage)[ACCESS_TOKEN])]
      ensures !Truthy(Get(old(storage), ACCESS_TOKEN)) ==> sent[|old(sent)|].headers == old(req.headers)
      // Not refreshable: the original error comes back unchanged and the store is untouched.
      ensures !IsSuccess(script.first) && !StartsRefresh(req.url, old(req.retry), script.first) ==>
                out == Rejected(AxiosError(script.first, req.url))
                && storage == old(storage) && redirects == old(redirects) && refreshPosts == old(refreshPosts)
                && |sent| == |old(sent)| + 1
      // Refresh failed: cleared store, redirect unless on a login page, refresh error returned.
      ensures !IsSuccess(script.first) && StartsRefresh(req.url, old(req.retry), script.first)
              && TryRefresh(old(storage), script.refresh).RefreshFailed? ==>
                out == Rejected(TryRefresh(old(storage), script.refresh).error)
                && storage == ClearSession(old(storage))
                && redirects == old(redirects) + LoginRedirect(old(pathname))
                && |sent| == |old(sent)| + 1
      // Refresh succeeded: one re-issue carrying the new token, whose own outcome is returned
      // as it is; its failure leaves the store as the refresh left it.
      ensures !IsSuccess(script.first) && StartsRefresh(req.url, old(req.retry), script.first)
              && TryRefresh(old(storage), script.refresh).Refreshed? ==>
                var t := TryRefresh(old(storage), script.refresh).token;
                storage == old(storage)[ACCESS_TOKEN := t]
                && redirects == old(redirects)
                && |sent| == |old(sent)| + 2
                && AUTHORIZATION in sent[|old(sent)| + 1].headers
                && sent[|old(sent)| + 1].headers[AUTHORIZATION] == Bearer(t)
                && sent[|old(sent)| + 1].url == req.url
                && out == (if IsSuccess(script.second) then Resolved(script.second.body)
                           else Rejected(AxiosError(script.second, req.url)))
      // At most one refresh POST per call.
      ensures |old(refreshPosts)| <= |refreshPosts| <= |old(refreshPosts)| + 1
    {
      AttachToken(req);
      sent := sent + [Sent(req.url, req.headers)];
      if IsSuccess(script.first) {
        return Resolved(Unwrap(script.first));
      }
      var action := OnError(req, script.first, script.refresh);
      if action.Reject? {
        return Rejected(action.reason);
      }
      AttachToken(req);
      sent := sent + [Sent(req.url, req.headers)];
      if IsSuccess(script.second) {
        return Resolved(Unwrap(script.second));
      }
      // The re-issued request is marked, so this pass rejects it unchanged.
      var again := OnError(req, script.second, script.refresh);
      return Rejected(again.reason);
    }
  }

  /** The refresh endpoint itself is an auth endpoint, so a 401 on it never refreshes. */
  lemma RefreshPathIsAuthEndpoint(url: string)
    requires Contains(url, REFRESH_PATH)
    ensures IsAuthEndpoint(Some(url))
    ensures forall retried, reply :: !StartsRefresh(Some(url), retried, reply)
  {
  }

  /** Any URL mentioning "undefined" counts as an auth endpoint: the RESEND_OTP term. */
  lemma {:induction false} UndefinedInUrlIsAuthEndpoint(prefix: string, suffix: string)
    ensures IsAuthEndpoint(Some(prefix + RESEND_OTP_TERM + suffix))
  {
    var url := prefix + RESEND_OTP_TERM + suffix;
    assert url[|prefix|..][..|RESEND_OTP_TERM|] == RESEND_OTP_TERM;
    ContainsIffOccurrence(url, RESEND_OTP_TERM);
  }

  /** Every auth term holds one of 'g', 'h', 'v', 'n', 'w', so a URL with none of these
      letters (such as "/users/profile") is not an auth endpoint and its 401 refreshes. */
  lemma NotAuthEndpointWithoutTermLetters(u: string)
    requires forall i :: 0 <= i < |u| ==> u[i] !in {'g', 'h', 'v', 'n', 'w'}
    ensures !IsAuthEndpoint(Some(u))
  {
    MissingLetter(u, LOGIN, 9);
    MissingLetter(u, REGISTER, 9);
    MissingLetter(u, REFRESH_PATH, 13);
    MissingLetter(u, VERIFY_EMAIL, 7);
    MissingLetter(u, RESEND_OTP_TERM, 1);
    MissingLetter(u, FORGOT_PASSWORD, 10);
    MissingLetter(u, VERIFY_RESET_CODE, 7);
    MissingLetter(u, RESET_PASSWORD, 17);
    MissingLetter(u, LOGOUT, 9);
  }

  /** A needle holding a character that `hay` never holds does not occur in `hay`. */
  lemma {:induction false} MissingLetter(hay: string, needle: string, k: nat)
    requires k < |needle|
    requires forall i :: 0 <= i < |hay| ==> hay[i] != needle[k]
    ensures !Contains(hay, needle)
    decreases |hay|
  {
    if |needle| <= |hay| {
      assert hay[..|needle|][k] == hay[k];
    }
    if hay != [] {
      MissingLetter(hay[1..], needle, k);
    }
  }

  /** A silent refresh end to end: a protected request answered 401 once, a refresh that returns
      the top-level token "AT2", and a 200 to the re-issue: the caller gets the re-issued
      body, the re-issue carries "Bearer AT2" and the store holds the new token. */
  method ScenarioSilentRefresh(url: string) returns (out: Outcome, header: string, stored: string)
    requires !IsAuthEndpoint(Some(url))
    ensures out == Resolved("profile-body")
    ensures header == "Bearer AT2"
    ensures stored == "AT2"
  {
    var store := map[ACCESS_TOKEN := "AT1", REFRESH_TOKEN := "RT1"];
    var refresh := Response(200, RefreshBody(None, Some("AT2")));
    var p := new Pipeline(store, "/dashboard");
    var req := new Request(Some(url), map[]);
    assert Get(store, REFRESH_TOKEN) == Some("RT1");
    assert TryRefresh(store, refresh) == Refreshed("AT2");
    out := p.Call(req, Script(Response(401, "expired"), refresh, Response(200, "profile-body")));
    header := p.sent[1].headers[AUTHORIZATION];
    stored := p.storage[ACCESS_TOKEN];
  }

  /** A 401 from the login endpoint propagates as it is, with no refresh POST. */
  method ScenarioLoginRejected() returns (out: Outcome, posts: nat)
    ensures out == Rejected(AxiosError(Response(401, "bad password"), Some(LOGIN)))
    ensures posts == 0
  {
    var p := new Pipeline(map[REFRESH_TOKEN := "RT1"], "/sign-in");
    var req := new Request(Some(LOGIN), map[]);
    assert IsAuthEndpoint(Some(LOGIN)) by { assert IsPrefix(LOGIN, LOGIN); }
    out := p.Call(req, Script(Response(401, "bad password"), NoResponse, NoResponse));
    posts := |p.refreshPosts|;
  }

  /** A refresh that fails clears every session key, keeps the reset token and, away from
      the login page, sends the browser to '/login'. */
  method ScenarioRefreshFails(url: string, pathname: string)
    returns (out: Outcome, storage: map<string, string>, redirects: seq<string>)
    requires !IsAuthEndpoint(Some(url))
    requires !Contains(pathname, LOGIN_PAGE)
    ensures out == Rejected(RefreshRequestFailed(Response(401, RefreshBody(None, None))))
    ensures storage == map[RESET_TOKEN := "R"]
    ensures redirects == [LOGIN_PAGE]
  {
    var store := map[ACCESS_TOKEN := "AT1", REFRESH_TOKEN := "RT1", USER_INFO := "{}", RESET_TOKEN := "R"];
    var refresh := Response(401, RefreshBody(None, None));
    var p := new Pipeline(store, pathname);
    var req := new Request(Some(url), map[]);
    assert Get(store, REFRESH_TOKEN) == Some("RT1");
    assert TryRefresh(store, refresh) == RefreshFailed(RefreshRequestFailed(refresh));
    assert ClearSession(store) == map[RESET_TOKEN := "R"];
    out := p.Call(req, Script(Response(401, ""), refresh, NoResponse));
    storage := p.storage;
    redirects := p.redirects;
  }

  /** The profile endpoint the dashboard calls after login is a protected URL. */
  lemma ProfileIsProtected()
    ensures !IsAuthEndpoint(Some("/users/profile"))
  {
    NotAuthEndpointWithoutTermLetters("/users/profile");
  }
}
