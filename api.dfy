/** The axios instance's two interceptors: the request interceptor attaches
    the stored session token as a bearer credential (section 2.1 of RFC 6750),
    and the response interceptor ends the session when a request other than
    the login attempt is answered with 401 Unauthorized (section 15.5.2 of
    RFC 9110). */
module Api {
  import opened JsRuntime
  import opened Http
  import Browser

  const TokenKey := "token"
  const AuthorizationHeader := "Authorization"
  const BearerPrefix := "Bearer "
  /** The login endpoint; an error from a URL containing it is not a dead session. */
  const LoginEndpoint := "/auth/login"
  /** Where an expired session is sent. */
  const LoginRoute := "/login"
  const Unauthorized := 401

  /** The request interceptor. A non-empty stored token becomes the
      `Authorization` header (replacing any the caller set); with no token,
      or an empty one, the config goes out as it came. The URL, the method
      and the body are never touched. */
  function AttachToken(config: RequestConfig, storage: map<string, string>): (r: RequestConfig)
    ensures r.url == config.url && r.verb == config.verb && r.body == config.body
    ensures Truthy(Browser.GetItem(storage, TokenKey)) ==>
      r.headers.Keys == config.headers.Keys + {AuthorizationHeader} &&
      BearerCredential(r.headers) == Some(storage[TokenKey])
    ensures forall h :: h in config.headers && h != AuthorizationHeader ==> h in r.headers && r.headers[h] == config.headers[h]
    ensures !Truthy(Browser.GetItem(storage, TokenKey)) ==> r == config
  {
    var token := Browser.GetItem(storage, TokenKey);
    if Truthy(token) then
      var headers := config.headers[AuthorizationHeader := BearerPrefix + token.value];
      BearerRoundTrip(token.value);
      config.(headers := headers)
    else
      config
  }

  /** The text after the literal `Bearer ` prefix of the `Authorization`
      header, if there is one. This strips the prefix only: it does not apply
      the `b64token` grammar of section 2.1 of RFC 6750. */
  function BearerCredential(headers: map<string, string>): Option<string> {
    if AuthorizationHeader in headers && |headers[AuthorizationHeader]| >= |BearerPrefix|
       && headers[AuthorizationHeader][..|BearerPrefix|] == BearerPrefix
    then Some(headers[AuthorizationHeader][|BearerPrefix|..])
    else None
  }

  /** The header value the interceptor writes gives back exactly the token. */
  lemma BearerRoundTrip(token: string)
    ensures BearerCredential(map[AuthorizationHeader := BearerPrefix + token]) == Some(token)
  {
  }

  /** What the response interceptor's error handler does with an error. */
  datatype Disposition =
    | ExpireSession   // clear storage, go to the login route, then reject
    | Propagate       // reject with the error, nothing else
    | Throws          // `url.includes` on an undefined URL raises a TypeError

  /** The error handler's decision: a 401 answer to a request whose URL does
      not contain the login endpoint ends the session; a 401 on a request
      without a URL makes the handler itself throw; everything else (another
      status, no response at all, a 401 from the login attempt) is only
      rejected. */
  function Dispose(e: AxiosError): (d: Disposition)
    ensures d == ExpireSession <==>
      StatusOf(e) == Some(Unauthorized) && UrlOf(e).Some? &&
      !(exists i :: OccursAt(UrlOf(e).value, LoginEndpoint, i))
    ensures d == Throws <==> StatusOf(e) == Some(Unauthorized) && UrlOf(e).None?
    ensures StatusOf(e) != Some(Unauthorized) ==> d == Propagate
  {
    var status := StatusOf(e);
    var url := UrlOf(e);
    if status == Some(Unauthorized) then
      if url.None? then Throws
      else if !Includes(url.value, LoginEndpoint) then ExpireSession
      else Propagate
    else
      Propagate
  }

  /** Any URL that has the login endpoint somewhere inside it (a base path in
      front, a query string behind) is exempt from the forced logout. */
  lemma {:induction false} LoginUrlsExempt(e: AxiosError, before: string, after: string)
    requires UrlOf(e) == Some(before + LoginEndpoint + after)
    ensures Dispose(e) == Propagate
  {
    var u := before + LoginEndpoint + after;
    assert u[|before|..|before| + |LoginEndpoint|] == LoginEndpoint;
    assert OccursAt(u, LoginEndpoint, |before|);
  }

  /** A settled request: fulfilled with a response or rejected with an error. */
  datatype Settled = Fulfilled(response: Response) | Rejected(error: AxiosError)

  /** The response interceptor. A response passes through untouched. An
      error is always rejected again, with the same error, after the session
      has been cleared and the page sent to the login route when `Dispose`
      says so; only when the handler itself throws is the rejection a
      `TypeError` instead. */
  method InterceptResponse(window: Browser.Window, outcome: Settled) returns (r: Settled)
    modifies window
    ensures outcome.Fulfilled? ==> r == outcome
    ensures outcome.Rejected? && Dispose(outcome.error) == Throws ==> r == Rejected(PlainTypeError)
    ensures outcome.Rejected? && Dispose(outcome.error) != Throws ==> r == outcome
    ensures outcome.Rejected? && Dispose(outcome.error) == ExpireSession ==>
      window.storage == map[] && window.navigations == old(window.navigations) + [LoginRoute]
    ensures !(outcome.Rejected? && Dispose(outcome.error) == ExpireSession) ==>
      window.storage == old(window.storage) && window.navigations == old(window.navigations)
  {
    match outcome
    case Fulfilled(_) =>
      r := outcome;
    case Rejected(e) =>
      var d := Dispose(e);
      if d == Throws {
        r := Rejected(PlainTypeError);
      } else {
        if d == ExpireSession {
          window.Clear();
          window.Navigate(LoginRoute);
        }
        r := outcome;
      }
  }
}
