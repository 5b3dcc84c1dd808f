/** The login page: live validation of the two fields, the submit gate, the
    call to the login service and what the page does with each outcome. */
module Login {
  import opened JsRuntime
  import opened Http
  import Browser

  const MsgIncomplete := "Por favor completa todos los campos"
  const MsgInvalidEmail := "Por favor ingresa un email válido"
  const MsgSignedIn := "¡Inicio de sesión exitoso!"
  const MsgBadCredentials := "Usuario o contraseña incorrectos"
  const MsgUnreachable := "No se puede conectar al servidor. Verifica tu conexión."
  const MsgBadRequest := "Datos inválidos. Verifica email y contraseña"
  const MsgDefault := "Error al iniciar sesión"

  /** Shortest password the live check marks as acceptable, in UTF-16 units. */
  const MinPasswordLength := 6
  /** Where a signed-in user goes, and how many milliseconds later. */
  const DashboardRoute := "/dashboard"
  const RedirectDelay: nat := 1500

  // ---------------------------------------------------------------------
  // The e-mail check

  /** The regular-expression class `[^\s@]`. */
  predicate InAddressClass(c: char) {
    !IsJsWhitespace(c) && c != '@'
  }

  ghost predicate AllInAddressClass(s: string) {
    forall i :: 0 <= i < |s| ==> InAddressClass(s[i])
  }

  /** What `/^[^\s@]+@[^\s@]+\.[^\s@]+$/` accepts: a non-empty local part, an
      `@`, a non-empty run, a `.`, and a non-empty run, none of the three runs
      holding whitespace or `@` (they may hold more dots). */
  ghost predicate MatchesEmailPattern(s: string) {
    exists at, dot ::
      0 < at && at + 1 < dot < |s| - 1 && s[at] == '@' && s[dot] == '.' &&
      AllInAddressClass(s[..at]) && AllInAddressClass(s[at + 1..dot]) && AllInAddressClass(s[dot + 1..])
  }

  /** The same shape in plain words: exactly one `@`, no whitespace, something
      before the `@`, and a dot in the domain that is neither its first nor its
      last character. */
  ghost predicate EmailShape(s: string) {
    && multiset(s)['@'] == 1
    && NoWhitespace(s)
    && exists at, dot :: 0 < at && at + 1 < dot < |s| - 1 && s[at] == '@' && s[dot] == '.'
  }

  /** The position of the first `c` in `s`. */
  function IndexOf(s: string, c: char): (r: Option<nat>)
    ensures r.Some? ==> r.value < |s| && s[r.value] == c && c !in s[..r.value]
    ensures r.None? ==> c !in s
  {
    if s == [] then None
    else if s[0] == c then Some(0)
    else
      var r := IndexOf(s[1..], c);
      if r.None? then None
      else
        assert s[..r.value + 1] == [s[0]] + s[1..][..r.value];
        Some(r.value + 1)
  }

  predicate NoWhitespace(s: string) {
    forall i | 0 <= i < |s| :: !IsJsWhitespace(s[i])
  }

  /** A dot that is neither the first nor the last character of `d`. */
  predicate HasInnerDot(d: string) {
    |d| >= 3 && '.' in d[1..|d| - 1]
  }

  /** The test `validateEmail` runs, written out: find the first `@`, then
      check the rest of the address around it. */
  predicate ScanEmail(email: string) {
    var at := IndexOf(email, '@');
    at.Some? && at.value > 0 && '@' !in email[at.value + 1..] &&
    NoWhitespace(email) && HasInnerDot(email[at.value + 1..])
  }

  /** `validateEmail`: true exactly for the strings the regular expression
      matches. */
  function ValidateEmail(email: string): (ok: bool)
    ensures ok <==> MatchesEmailPattern(email)
  {
    ScanIsPattern(email);
    ScanEmail(email)
  }

  /** Every character but the one at `at` is in `[^\s@]`. */
  ghost predicate OthersInClass(s: string, at: int) {
    forall k :: 0 <= k < |s| && k != at ==> InAddressClass(s[k])
  }

  /** The three runs of the pattern are in the class exactly when every
      character but the `@` is. */
  lemma RunsInClass(s: string, at: int, dot: int)
    requires 0 < at && at + 1 < dot < |s| - 1 && s[dot] == '.'
    ensures AllInAddressClass(s[..at]) && AllInAddressClass(s[at + 1..dot]) && AllInAddressClass(s[dot + 1..])
      <==> OthersInClass(s, at)
  {
  }

  /** With an `@` at `at`, "every other character is in the class" means: no
      other `@` on either side and no whitespace anywhere. */
  lemma OthersInClassIff(s: string, at: int)
    requires 0 <= at < |s| && s[at] == '@'
    ensures OthersInClass(s, at) <==> '@' !in s[..at] && '@' !in s[at + 1..] && NoWhitespace(s)
  {
  }

  /** The `@` at `at` is the only one exactly when neither side holds another. */
  lemma SingleAt(s: string, at: int)
    requires 0 <= at < |s| && s[at] == '@'
    ensures multiset(s)['@'] == 1 <==> '@' !in s[..at] && '@' !in s[at + 1..]
  {
    assert s == s[..at] + [s[at]] + s[at + 1..];
    assert multiset(s)['@'] == multiset(s[..at])['@'] + 1 + multiset(s[at + 1..])['@'];
  }

  /** An `@` with none before it is the first one. */
  lemma FirstAt(s: string, at: int)
    requires 0 <= at < |s| && s[at] == '@' && '@' !in s[..at]
    ensures IndexOf(s, '@') == Some(at)
  {
  }

  /** The scan accepts exactly the strings the pattern matches. */
  lemma ScanIsPattern(s: string)
    ensures ScanEmail(s) <==> MatchesEmailPattern(s)
  {
    if ScanEmail(s) {
      ScanFindsPattern(s);
    }
    if MatchesEmailPattern(s) {
      PatternPassesScan(s);
    }
  }

  lemma ScanFindsPattern(s: string)
    requires ScanEmail(s)
    ensures MatchesEmailPattern(s)
  {
    var at := IndexOf(s, '@').value;
    var d := s[at + 1..];
    var j :| 0 <= j < |d| - 2 && d[1..|d| - 1][j] == '.';
    var dot := at + 2 + j;
    assert s[dot] == d[j + 1];
    OthersInClassIff(s, at);
    RunsInClass(s, at, dot);
  }

  lemma PatternPassesScan(s: string)
    requires MatchesEmailPattern(s)
    ensures ScanEmail(s)
  {
    var at, dot :| 0 < at && at + 1 < dot < |s| - 1 && s[at] == '@' && s[dot] == '.' &&
      AllInAddressClass(s[..at]) && AllInAddressClass(s[at + 1..dot]) && AllInAddressClass(s[dot + 1..]);
    RunsInClass(s, at, dot);
    OthersInClassIff(s, at);
    FirstAt(s, at);
    var d := s[at + 1..];
    assert d[1..|d| - 1][dot - at - 2] == s[dot];
  }

  /** The regular expression and the plain-words shape accept the same strings. */
  lemma {:induction false} PatternIsShape(s: string)
    ensures MatchesEmailPattern(s) <==> EmailShape(s)
  {
    if MatchesEmailPattern(s) {
      var at, dot :| 0 < at && at + 1 < dot < |s| - 1 && s[at] == '@' && s[dot] == '.' &&
        AllInAddressClass(s[..at]) && AllInAddressClass(s[at + 1..dot]) && AllInAddressClass(s[dot + 1..]);
      RunsInClass(s, at, dot);
      OthersInClassIff(s, at);
      SingleAt(s, at);
    }
    if EmailShape(s) {
      var at, dot :| 0 < at && at + 1 < dot < |s| - 1 && s[at] == '@' && s[dot] == '.';
      SingleAt(s, at);
      OthersInClassIff(s, at);
      RunsInClass(s, at, dot);
    }
  }

  // ---------------------------------------------------------------------
  // Live status of the fields

  /** A field's status: `Unset` is the initial `''`, before any change. */
  datatype Status = Unset | Empty | Error | Success

  datatype Field = EmailField | PasswordField

  /** The status a change of the e-mail field gives it. */
  function EmailStatus(value: string): (st: Status)
    ensures st != Unset
    ensures st == Empty <==> value == ""
    ensures st == Error <==> value != "" && !MatchesEmailPattern(value)
    ensures st == Success <==> value != "" && MatchesEmailPattern(value)
  {
    if value == "" then Empty
    else if !ValidateEmail(value) then Error
    else Success
  }

  /** The status a change of the password field gives it; the length is the
      JavaScript one, so a character outside the Basic Multilingual Plane
      counts twice. */
  function PasswordStatus(value: string): (st: Status)
    ensures st != Unset
    ensures st == Empty <==> value == ""
    ensures st == Error <==> value != "" && Utf16Length(value) < MinPasswordLength
    ensures st == Success <==> Utf16Length(value) >= MinPasswordLength
  {
    if value == "" then Empty
    else if Utf16Length(value) < MinPasswordLength then Error
    else Success
  }

  /** Three characters from outside the Basic Multilingual Plane already make
      a password the live check accepts. */
  lemma AstralPasswordAccepted(a: char, b: char, c: char)
    requires a as int > 0xFFFF && b as int > 0xFFFF && c as int > 0xFFFF
    ensures PasswordStatus([a, b, c]) == Success
  {
    assert [a, b, c][1..] == [b, c] && [b, c][1..] == [c] && [c][1..] == [];
    assert Utf16Length([c]) == 2;
    assert Utf16Length([b, c]) == 4;
  }

  /** `getInputClass`: the CSS class for a status. */
  function InputClass(st: Status): (c: string)
    ensures c == "input-error" <==> st == Error
    ensures c == "input-success" <==> st == Success
    ensures c == "" <==> st.Unset? || st.Empty?
  {
    if st == Error then "input-error"
    else if st == Success then "input-success"
    else ""
  }

  datatype Credentials = Credentials(email: string, password: string)
  datatype InputStatus = InputStatus(email: Status, password: Status)

  // ---------------------------------------------------------------------
  // The submit gate and the outcome of the login call

  /** The final validation of `handleSubmit`: the message that stops the
      submission, or None when the login call goes ahead. Emptiness is
      checked before the e-mail shape, and the password length is not checked
      at all. */
  function Gate(form: Credentials): (blocked: Option<string>)
    ensures blocked == Some(MsgIncomplete) <==> form.email == "" || form.password == ""
    ensures blocked == Some(MsgInvalidEmail) <==>
      form.email != "" && form.password != "" && !MatchesEmailPattern(form.email)
    ensures blocked.None? <==>
      form.email != "" && form.password != "" && MatchesEmailPattern(form.email)
  {
    if form.email == "" || form.password == "" then Some(MsgIncomplete)
    else if !ValidateEmail(form.email) then Some(MsgInvalidEmail)
    else None
  }

  /** The rules of the `catch` block, in the order they are tried. */
  datatype Rule = NetworkDown | WrongCredentials | InvalidData | ServerMessage | Fallback

  function Rank(r: Rule): nat {
    match r
    case NetworkDown => 0
    case WrongCredentials => 1
    case InvalidData => 2
    case ServerMessage => 3
    case Fallback => 4
  }

  /** Whether a rule's condition holds of the caught error. */
  predicate Applies(r: Rule, e: AxiosError) {
    match r
    case NetworkDown => e.code == Some("ECONNREFUSED") || e.code == Some("ERR_NETWORK")
    case WrongCredentials => StatusOf(e) == Some(401)
    case InvalidData => StatusOf(e) == Some(400)
    case ServerMessage => e.response.Some? && Truthy(e.response.value.message)
    case Fallback => true
  }

  /** The rule the `catch` block picks: one that applies, with no applicable
      rule ranked before it. */
  function Diagnose(e: AxiosError): (r: Rule)
    ensures Applies(r, e)
    ensures forall q: Rule :: Rank(q) < Rank(r) ==> !Applies(q, e)
  {
    if e.code == Some("ECONNREFUSED") || e.code == Some("ERR_NETWORK") then NetworkDown
    else if StatusOf(e) == Some(401) then WrongCredentials
    else if StatusOf(e) == Some(400) then InvalidData
    else if e.response.Some? && Truthy(e.response.value.message) then ServerMessage
    else Fallback
  }

  /** The message each rule shows. */
  function RuleMessage(r: Rule, e: AxiosError): string
    requires Applies(r, e)
  {
    match r
    case NetworkDown => MsgUnreachable
    case WrongCredentials => MsgBadCredentials
    case InvalidData => MsgBadRequest
    case ServerMessage => e.response.value.message.value
    case Fallback => MsgDefault
  }

  /** The message the page shows for a caught error; it is never empty, so
      the inline error paragraph always appears. */
  function FailureMessage(e: AxiosError): (msg: string)
    ensures msg != ""
    ensures msg == RuleMessage(Diagnose(e), e)
  {
    RuleMessage(Diagnose(e), e)
  }

  /** The reply of the login service: the token and the profile fields, each
      possibly missing. */
  datatype LoginData = LoginData(
    token: Option<string>,
    nombre: Option<string>,
    apellido: Option<string>,
    email: Option<string>)

  /** How the awaited login call ends: it resolves with a value (None for
      `null`/`undefined`) or rejects with an error. */
  datatype LoginOutcome = Resolved(data: Option<LoginData>) | Failed(error: AxiosError)

  /** What the page concludes from the outcome. */
  datatype Verdict = SignedIn(profile: LoginData) | Refused(message: string)

  /** The `try`/`catch` of `handleSubmit`. A reply with a token signs in; a
      reply without one is refused as bad credentials; a missing reply makes
      `data.token` throw a TypeError, which the `catch` block turns into the
      default message; a rejection goes through `FailureMessage`. */
  function Conclude(o: LoginOutcome): (v: Verdict)
    ensures v.SignedIn? <==> o.Resolved? && o.data.Some? && Truthy(o.data.value.token)
    ensures v.SignedIn? ==> v.profile == o.data.value
    ensures o.Resolved? && o.data.Some? && !Truthy(o.data.value.token) ==> v == Refused(MsgBadCredentials)
    ensures o.Resolved? && o.data.None? ==> v == Refused(MsgDefault)
    ensures o.Failed? ==> v == Refused(FailureMessage(o.error))
    ensures v.Refused? ==> v.message != ""
  {
    match o
    case Resolved(None) => Refused(FailureMessage(PlainTypeError))
    case Resolved(Some(data)) =>
      if Truthy(data.token) then SignedIn(data) else Refused(MsgBadCredentials)
    case Failed(e) => Refused(FailureMessage(e))
  }

  /** The storage a sign-in leaves: the token and the three profile fields
      written over whatever was there. */
  function SignInStorage(storage: map<string, string>, data: LoginData): (s: map<string, string>)
    ensures s.Keys == storage.Keys + {"token", "nombre", "apellido", "email"}
    ensures s["token"] == Stringify(data.token) && s["nombre"] == Stringify(data.nombre)
    ensures s["apellido"] == Stringify(data.apellido) && s["email"] == Stringify(data.email)
    ensures forall k :: k in storage && k !in {"token", "nombre", "apellido", "email"} ==> s[k] == storage[k]
  {
    storage["token" := Stringify(data.token)]["nombre" := Stringify(data.nombre)]
           ["apellido" := Stringify(data.apellido)]["email" := Stringify(data.email)]
  }

  // ---------------------------------------------------------------------
  // The page

  /** A notice the page shows through the alert component. */
  datatype Notice = Notice(message: string, kind: string)

  /** A client-side navigation scheduled with `setTimeout`. */
  datatype DelayedNavigation = DelayedNavigation(delay: nat, path: string)

  class LoginForm {
    /** The browser globals the page writes. */
    const window: Browser.Window
    var form: Credentials
    var error: string
    var alert: Option<Notice>
    var inputStatus: InputStatus
    var isSubmitting: bool
    /** Every call made to the login service, with the credentials sent. */
    var loginCalls: seq<Credentials>
    var scheduled: seq<DelayedNavigation>

    /** Each field's status is the one its classifier gives the current
        value, or the initial `''` while the field is still untouched and
        empty. */
    ghost predicate Valid()
      reads this
    {
      && (inputStatus.email == EmailStatus(form.email) || (inputStatus.email == Unset && form.email == ""))
      && (inputStatus.password == PasswordStatus(form.password) || (inputStatus.password == Unset && form.password == ""))
    }

    constructor (window: Browser.Window)
      ensures Valid()
      ensures this.window == window
      ensures form == Credentials("", "") && error == "" && alert == None
      ensures inputStatus == InputStatus(Unset, Unset) && !isSubmitting
      ensures loginCalls == [] && scheduled == []
    {
      this.window := window;
      form := Credentials("", "");
      error := "";
      alert := None;
      inputStatus := InputStatus(Unset, Unset);
      isSubmitting := false;
      loginCalls := [];
      scheduled := [];
    }

    /** `handleInputChange`: the changed field gets the new value and its
        new status; the other field keeps both. */
    method HandleInputChange(field: Field, value: string)
      requires Valid()
      modifies this`form, this`inputStatus
      ensures Valid()
      ensures field == EmailField ==>
        form == old(form).(email := value) &&
        inputStatus == old(inputStatus).(email := EmailStatus(value))
      ensures field == PasswordField ==>
        form == old(form).(password := value) &&
        inputStatus == old(inputStatus).(password := PasswordStatus(value))
    {
      match field
      case EmailField =>
        form := form.(email := value);
        inputStatus := inputStatus.(email := EmailStatus(value));
      case PasswordField =>
        form := form.(password := value);
        inputStatus := inputStatus.(password := PasswordStatus(value));
    }

    /** `getInputClass(field)`: the class follows the field's current value.
        An e-mail is green exactly when it matches the pattern and red when
        it is non-empty and does not; a password is green from length 6 on
        and red below it; an empty field has no class. */
    function GetInputClass(field: Field): (c: string)
      requires Valid()
      reads this
      ensures field == EmailField ==>
        (c == "input-success" <==> MatchesEmailPattern(form.email)) &&
        (c == "input-error" <==> form.email != "" && !MatchesEmailPattern(form.email)) &&
        (c == "" <==> form.email == "")
      ensures field == PasswordField ==>
        (c == "input-success" <==> Utf16Length(form.password) >= MinPasswordLength) &&
        (c == "input-error" <==> form.password != "" && Utf16Length(form.password) < MinPasswordLength) &&
        (c == "" <==> form.password == "")
    {
      match field
      case EmailField => InputClass(inputStatus.email)
      case PasswordField => InputClass(inputStatus.password)
    }

    /** `handleCloseAlert`, the alert component's `onClose`. */
    method HandleCloseAlert()
      modifies this`alert
      ensures alert == None
    {
      alert := None;
    }

    /** `handleSubmit` up to the `await`: a form the gate stops shows its
        message and calls nothing; otherwise the page enters the submitting
        state and calls the login service with the form. The submit button
        is disabled while submitting, so a submission never starts then. */
    method Submit() returns (call: Option<Credentials>)
      requires !isSubmitting
      modifies this`error, this`alert, this`isSubmitting, this`loginCalls
      ensures Gate(form).Some? ==>
        call.None? && error == Gate(form).value && alert == Some(Notice(error, "error")) &&
        !isSubmitting && loginCalls == old(loginCalls)
      ensures Gate(form).None? ==>
        call == Some(form) && isSubmitting && loginCalls == old(loginCalls) + [form] &&
        error == old(error) && alert == old(alert)
    {
      var blocked := Gate(form);
      if blocked.Some? {
        error := blocked.value;
        alert := Some(Notice(blocked.value, "error"));
        call := None;
        return;
      }
      isSubmitting := true;
      loginCalls := loginCalls + [form];
      call := Some(form);
    }

    /** `handleSubmit` after the `await`: a sign-in stores the session, clears
        the error, shows a success notice and schedules the move to the
        dashboard; any refusal shows its message and stores nothing. The
        `finally` block ends the submitting state on every path. */
    method Settle(outcome: LoginOutcome)
      requires isSubmitting
      modifies this`error, this`alert, this`isSubmitting, this`scheduled, window
      ensures !isSubmitting
      ensures window.navigations == old(window.navigations)
      ensures Conclude(outcome).SignedIn? ==>
        window.storage == SignInStorage(old(window.storage), Conclude(outcome).profile) &&
        error == "" && alert == Some(Notice(MsgSignedIn, "success")) &&
        scheduled == old(scheduled) + [DelayedNavigation(RedirectDelay, DashboardRoute)]
      ensures Conclude(outcome).Refused? ==>
        window.storage == old(window.storage) &&
        error == Conclude(outcome).message && alert == Some(Notice(error, "error")) &&
        scheduled == old(scheduled)
    {
      var verdict := Conclude(outcome);
      if verdict.SignedIn? {
        var data := verdict.profile;
        window.SetItem("token", data.token);
        window.SetItem("nombre", data.nombre);
        window.SetItem("apellido", data.apellido);
        window.SetItem("email", data.email);
        error := "";
        alert := Some(Notice(MsgSignedIn, "success"));
        scheduled := scheduled + [DelayedNavigation(RedirectDelay, DashboardRoute)];
      } else {
        error := verdict.message;
        alert := Some(Notice(verdict.message, "error"));
      }
      isSubmitting := false;
    }
  }
}
