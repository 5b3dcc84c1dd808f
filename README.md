# Login, notification and API-interception core of the support-ticket console

The console is a React front end: clients, technicians and tickets, reached after a token-based sign-in. Three small pieces of it carry logic worth stating, and this Dafny project models and proves them.

- **The login page** (`src/pages/Login.jsx`, module `Login`):
  - the e-mail check, which is a regular expression in the source and a hand-written scan here;
  - the live status of each field (`''`, `empty`, `error`, `success`) and its CSS class;
  - the submit gate and the call to the login service;
  - what the page stores and shows for each outcome, and the `isSubmitting` bracket.

  `LoginForm` is a class whose fields are the page's React state. `handleSubmit` awaits the login service, so it is split at the `await`. `Submit` runs the gate and issues the call. `Settle` takes the outcome the service returned. Its `finally` step clears `isSubmitting`.
- **The notification component** (`src/components/Alert.jsx`, module `AlertComponent`). `Alert` is a class holding:
  - the props;
  - the `timerRef.current` cell;
  - an abstract clock: the current time, a table of pending timers with deadlines, and handle allocation;
  - a log of every `onClose` call.

  Its methods are mount, re-render, unmount, `handleClose` and the passing of time (`Tick`). The invariant `Valid` says three things. At most one timer is live, and it is the one `timerRef` names. It is due within 4000 ms and calls the current `onClose`. It exists only while a non-`error` notice is mounted.
- **The axios interceptors** (`src/services/api.js`, module `Api`):
  - the request interceptor is a pure function of the config and the storage map. It attaches a bearer token, as in section 2.1 of RFC 6750;
  - the response interceptor is a method over a `Browser.Window`. That window holds `localStorage` as a map and logs every assignment to `window.location.href`. On a 401 Unauthorized (section 15.5.2 of RFC 9110) from anything but the login endpoint, it clears the storage and navigates to `/login`.

Shared pieces:
- `JsRuntime` holds the JavaScript built-ins the code relies on: truthiness, the `\s` class, UTF-16 `length`, `String.prototype.includes`, and `String(undefined)`.
- `Http` holds the axios values.
- `Scenarios` runs whole sessions through all three pieces.

Where the code may surprise a reader, the model follows the code:
- A new message of the same kind, with the same callback, does not restart the auto-close timer. The effect depends only on `[onClose, type]`. So the second message closes when the first one's delay runs out (`MessageChangeKeepsDeadline`).
- An unknown kind does not get a default style. Its class attribute reads `alert undefined show`.
- Session invalidation clears all of `localStorage`, not only the session keys.
- Suppose a 401 arrives for a request without a URL. Then `url.includes` throws a `TypeError`, which becomes the rejection, and the session is not cleared. Every other error is rejected with the error itself.

## Model

| member | source | states |
|---|---|---|
| `Login.ValidateEmail` | src/pages/Login.jsx:22-25 | true exactly for the strings `/^[^\s@]+@[^\s@]+\.[^\s@]+$/` matches (`MatchesEmailPattern`: three non-empty runs free of whitespace and `@`, joined by `@` and `.`); both directions proved |
| `Login.PatternIsShape` | src/pages/Login.jsx:23 | the pattern accepts exactly the strings with one `@` (multiset count 1), no whitespace, a non-empty local part and a dot in the domain that is neither its first nor its last character |
| `Login.EmailStatus` | src/pages/Login.jsx:31-38 | `empty` iff the value is empty, `error` iff non-empty and not matching the pattern, `success` iff non-empty and matching; never the initial `''` |
| `Login.PasswordStatus` | src/pages/Login.jsx:39-46 | `empty` iff empty, `error` iff non-empty with JavaScript length below 6, `success` iff length at least 6; never the initial `''` |
| `Login.AstralPasswordAccepted` | src/pages/Login.jsx:42 | any three characters outside the Basic Multilingual Plane together have JavaScript length 6, so such a password is marked `success` |
| `Login.InputClass` | src/pages/Login.jsx:50-55 | `input-error` iff the status is `error`, `input-success` iff `success`, the empty class iff `empty` or the initial `''` |
| `Login.LoginForm.GetInputClass` | src/pages/Login.jsx:50-51 | under the form invariant, the e-mail field is `input-success` exactly when its value matches the pattern, `input-error` exactly when it is non-empty and does not, and unstyled exactly when empty; the password field is `input-success` from 6 UTF-16 units on, `input-error` when non-empty and shorter, unstyled when empty |
| `Login.LoginForm.constructor` | src/pages/Login.jsx:8-12 | empty form, no error, no alert, both statuses `''`, not submitting, no login call made |
| `Login.LoginForm.HandleInputChange` | src/pages/Login.jsx:27-48 | the changed field gets the new value and the status its classifier gives; the other field keeps its value and status |
| `Login.LoginForm.HandleCloseAlert` | src/pages/Login.jsx:18-20 | the alert is gone |
| `Login.Gate` | src/pages/Login.jsx:60-71 | "complete all fields" iff either field is empty (checked first); "invalid e-mail" iff both non-empty and the e-mail fails the pattern; the call goes ahead iff both non-empty and the e-mail matches, whatever the password length |
| `Login.LoginForm.Submit` | src/pages/Login.jsx:57-73 | a blocked form sets the gate's message as error and as an `error` alert, makes no login call and stays not submitting; otherwise exactly one call with the form is made and the page is submitting |
| `Login.Diagnose` | src/pages/Login.jsx:94-102 | the rule chosen for a caught error applies to it and no rule earlier in the order network code, 401, 400, server message, default applies |
| `Login.FailureMessage` | src/pages/Login.jsx:92-102 | the message is the chosen rule's and is never empty |
| `Login.Conclude` | src/pages/Login.jsx:75-105 | signed in iff the reply exists and has a truthy token, keeping that reply's profile; a reply without a token gives "Usuario o contraseña incorrectos"; a missing reply (the `data.token` TypeError) gives the default message; a rejection gives `FailureMessage`; a refusal message is never empty |
| `Login.SignInStorage` | src/pages/Login.jsx:79-82 | a sign-in adds exactly the keys token, nombre, apellido and email, each holding the stringified reply field, and keeps every other key |
| `Login.LoginForm.Settle` | src/pages/Login.jsx:75-108 | not submitting afterwards on every path; a sign-in writes the four keys, clears the error, shows the success alert and schedules `/dashboard` after 1500 ms; a refusal shows its message as error and `error` alert and leaves storage and schedule alone; no full-page navigation |
| `JsRuntime.Utf16Length` | src/pages/Login.jsx:42 | the JavaScript length lies between the number of characters and twice it, and equals the number of characters iff none is outside the Basic Multilingual Plane |
| `JsRuntime.Includes` | src/services/api.js:20 | true iff the pattern occurs at some position of the string |
| `Browser.GetItem` | src/services/api.js:8 | `localStorage.getItem`: the stored string for a present key, null for an absent one; the request interceptor reads the token through it |
| `Browser.Window.SetItem` | src/pages/Login.jsx:79-82 | only that key changes, to the stringified value; no navigation |
| `Browser.Window.Clear` | src/services/api.js:21 | storage becomes empty; no navigation |
| `Browser.Window.Navigate` | src/services/api.js:22 | exactly one navigation to the given address is logged; storage unchanged |
| `Api.AttachToken` | src/services/api.js:7-11 | with a non-empty stored token, the config gains an `Authorization` header whose text after the `Bearer ` prefix is exactly that token, and every other header is kept; with no token or an empty one the config is unchanged; URL, method and body are never changed |
| `Api.BearerRoundTrip` | src/services/api.js:9 | the text after the `Bearer ` prefix of the header value `Bearer <token>` is exactly the token |
| `Api.Dispose` | src/services/api.js:16-23 | session expiry iff status 401 and a URL that does not contain `/auth/login`; the handler throws iff status 401 and no URL; any other status, or no response, is only propagated |
| `Api.LoginUrlsExempt` | src/services/api.js:19-20 | a 401 on any URL containing `/auth/login`, with anything before or after it, is only propagated |
| `Api.InterceptResponse` | src/services/api.js:13-27 | a response passes unchanged; an error is rejected with itself, except for a TypeError when the handler throws; on session expiry the storage is emptied and `/login` is logged exactly once; otherwise storage and navigation are untouched |
| `AlertComponent.StyleFor` | src/components/Alert.jsx:26-31 | a class exists iff the kind is success, error, warning or info, and it is `alert-` followed by the kind |
| `AlertComponent.ClassName` | src/components/Alert.jsx:41 | known kinds give `alert alert-<kind> show`; any other kind gives `alert undefined show` |
| `AlertComponent.Alert.constructor` | src/components/Alert.jsx:6-24 | mounting runs the effect: for a non-error kind exactly one timer, due in 4000 ms and calling `onClose`, is pending; for `error` none |
| `AlertComponent.Alert.AtMostOneTimer` | src/components/Alert.jsx:8-17 | in every reachable state at most one close timer is pending, and when one is, it is the one `timerRef` holds |
| `AlertComponent.Alert.SetTimeout` | src/components/Alert.jsx:14-16 | a fresh handle is returned and its timer is added due after the delay; handles are never reused |
| `AlertComponent.Alert.ClearPendingTimer` | src/components/Alert.jsx:8-10 | the timer `timerRef` names, if any, is no longer pending; no other timer changes |
| `AlertComponent.Alert.RunEffect` | src/components/Alert.jsx:8-17 | the previous timer is cleared, and a single new timer is armed for a non-error kind; none for `error` |
| `AlertComponent.Alert.Render` | src/components/Alert.jsx:6-24 | a change of kind or callback clears every previous timer and re-arms: for a non-error kind `timerRef` becomes a fresh handle, for `error` it keeps its old value; a change of message alone keeps the pending timers and `timerRef`; the invariant (at most one live timer) is kept; no cleared handle comes back |
| `AlertComponent.Alert.Unmount` | src/components/Alert.jsx:19-23 | after teardown no timer is pending |
| `AlertComponent.Alert.HandleClose` | src/components/Alert.jsx:33-38 | the pending timer is cleared and `onClose` is called exactly once |
| `AlertComponent.Alert.Tick` | src/components/Alert.jsx:13-17 | exactly the timers due by the new time fire, each calling `onClose` once; the others stay; after 4000 ms or more nothing is pending |
| `AlertComponent.SuccessClosesAfterDelay` | src/components/Alert.jsx:13-17 | a success notice is still open at 3999 ms and closed by one `onClose` call at 4000 ms |
| `AlertComponent.ErrorStaysOpen` | src/components/Alert.jsx:13 | an error notice gets no `onClose` call however long it waits |
| `AlertComponent.ManualCloseThenExpiry` | src/components/Alert.jsx:33-38 | after a manual close, the old deadline passing adds no second `onClose` call |
| `AlertComponent.UnmountSilences` | src/components/Alert.jsx:19-23 | after unmounting no `onClose` runs, whatever time passes |
| `AlertComponent.KindChangeRestartsTimer` | src/components/Alert.jsx:8-24 | after a change to another non-error kind the old deadline passes silently and the new timer fires a full delay after the change |
| `AlertComponent.NewCallbackReplacesStaleOne` | src/components/Alert.jsx:24 | a new `onClose` identity restarts the timer and the stale callback is never called |
| `AlertComponent.MessageChangeKeepsDeadline` | src/components/Alert.jsx:24 | a new message alone keeps the first deadline, so the second message closes when the first one's delay runs out |
| `Scenarios.SignInThenSessionExpires` | src/services/api.js:8-22 | after a sign-in the next request carries the token; a 401 on a non-login URL then leaves one redirect to `/login`, and the following request carries no token |
| `Scenarios.WrongPasswordStaysOnPage` | src/services/api.js:19-25 | a 401 from the login endpoint leaves storage and location untouched; the page shows "Usuario o contraseña incorrectos" and is no longer submitting |
| `Scenarios.ShortPasswordStillSubmits` | src/pages/Login.jsx:61-73 | a password shorter than 6 is marked `error` live, but the login call is still made with the form |

## Left out

- The login service (`src/services/authService`) is not part of this model. Each call to it is recorded in `loginCalls`, and its outcome is a parameter of `Settle`.
- `LoginForm.Submit` requires that no submission is running. The submit button is disabled while `isSubmitting` holds, and HTML forms do not submit implicitly through a disabled default button.
- `LoginForm.HandleInputChange` applies one change at a time. The source spreads the render-time `form`, so two changes batched into one render could lose one of them. React batching is not modelled.
- The navigation to `/dashboard` 1500 ms after a sign-in is recorded in `scheduled` but never carried out. The react-router navigation is outside the model.
- The alert's `onClose` is an identity in the log. What the parent does on that call, such as unmounting the notice, is not modelled.
- `Alert` has its own clock and timer table, and only this component uses them. Minimum delays, clamping and drift of browser timers are left out. A timer fires on the first `Tick` that reaches its deadline.
- `alertStyles[type]` for names inherited from `Object.prototype`, such as `toString`, is not modelled. Such a kind would read a function rather than `undefined`.
- Axios is left out: the client, base-URL joining, case-insensitive header names, and promise scheduling. A config, a response or an error is a value with the fields the code reads.
- Reply fields and server messages that are not strings are not modelled: a numeric token, or a JSON `null` profile field, which `String(null)` would store as `"null"`. Every field is an optional string, and an absent one is `undefined`.
- The stored token is sent as it is. The source does not check it against the `b64token` syntax of section 2.1 of RFC 6750, and neither does the model: a token with spaces or commas goes out unchanged after `Bearer `.
- The regular-expression engine is replaced by a hand-written scan over Unicode scalar values. The source's regex has no `u` flag, so it matches UTF-16 code units instead. Surrogate halves are neither whitespace, `@` nor `.`, so both accept the same strings.
- The browser's own form validation is left out. The `required` and `type="email"` attributes of the two inputs (src/pages/Login.jsx:126-143) stop the browser from submitting an empty field, or an address the HTML e-mail grammar rejects but the pattern accepts, such as `a@b_c.d`, before `handleSubmit` runs. `Gate` and `LoginForm.Submit` describe the handler itself, not only what a user can reach through the browser.
- JSX, CSS classes other than the ones above, spinners and `e.preventDefault()` are left out.
- The rest of the repository is left out as CRUD scaffolding or routing: the Clientes, Tecnicos, Tickets and Dashboard pages, the router, the navbar and the NavLink, the one-line service wrappers, and the test page.
