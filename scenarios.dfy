/** Whole sessions through the login page, the browser storage and the API
    interceptors together. */
module Scenarios {
  import opened JsRuntime
  import opened Http
  import Browser
  import Api
  import opened Login

  /** Sign in, make a request, have it answered 401 Unauthorized: the request
      carried the new token, the session is then gone, the page was sent to
      the login route once, and the next request goes out without a token. */
  method SignInThenSessionExpires(email: string, password: string, data: LoginData, config: RequestConfig)
    returns (sentWhileSignedIn: Option<string>, sentAfterExpiry: Option<string>, redirects: seq<string>)
    requires MatchesEmailPattern(email) && password != "" && Truthy(data.token)
    requires config.url.Some? && !Includes(config.url.value, Api.LoginEndpoint)
    requires Api.AuthorizationHeader !in config.headers
    ensures sentWhileSignedIn == data.token
    ensures sentAfterExpiry == None
    ensures redirects == [Api.LoginRoute]
  {
    var window := new Browser.Window(map[]);
    var page := new LoginForm(window);
    page.HandleInputChange(EmailField, email);
    page.HandleInputChange(PasswordField, password);
    var call := page.Submit();
    page.Settle(Resolved(Some(data)));

    var request := Api.AttachToken(config, window.storage);
    sentWhileSignedIn := Api.BearerCredential(request.headers);

    var answer := AxiosError(None, Some(Response(Api.Unauthorized, None)), Some(request));
    var _ := Api.InterceptResponse(window, Api.Rejected(answer));

    var retry := Api.AttachToken(config, window.storage);
    sentAfterExpiry := Api.BearerCredential(retry.headers);
    redirects := window.navigations;
  }

  /** A wrong password: the login endpoint answers 401, the interceptor
      leaves storage and location alone and hands the error back, and the
      page shows the bad-credentials message instead of bouncing. */
  method WrongPasswordStaysOnPage(email: string, password: string, storage: map<string, string>)
    returns (shown: string, redirects: seq<string>, kept: map<string, string>, submitting: bool)
    requires MatchesEmailPattern(email) && password != ""
    ensures shown == MsgBadCredentials
    ensures redirects == [] && kept == storage && !submitting
  {
    var window := new Browser.Window(storage);
    var page := new LoginForm(window);
    page.HandleInputChange(EmailField, email);
    page.HandleInputChange(PasswordField, password);
    var call := page.Submit();

    var attempt := RequestConfig(Some(Api.LoginEndpoint), "post", map[], None);
    var err := AxiosError(None, Some(Response(Api.Unauthorized, None)), Some(attempt));
    assert "" + Api.LoginEndpoint + "" == Api.LoginEndpoint;
    Api.LoginUrlsExempt(err, "", "");
    var rejected := Api.InterceptResponse(window, Api.Rejected(err));
    page.Settle(Failed(rejected.error));

    shown := page.error;
    redirects := window.navigations;
    kept := window.storage;
    submitting := page.isSubmitting;
  }

  /** A short password passes the submit gate: only the live check marks
      the field red, and the login call is made all the same. */
  method ShortPasswordStillSubmits(email: string, password: string)
    returns (passwordClass: string, call: Option<Credentials>)
    requires MatchesEmailPattern(email) && password != "" && Utf16Length(password) < MinPasswordLength
    ensures passwordClass == "input-error" && call == Some(Credentials(email, password))
  {
    var window := new Browser.Window(map[]);
    var page := new LoginForm(window);
    page.HandleInputChange(EmailField, email);
    page.HandleInputChange(PasswordField, password);
    passwordClass := page.GetInputClass(PasswordField);
    call := page.Submit();
  }
}
