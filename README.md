# Login screen decision logic of the fake-store mobile client

This project models the logic of the login screen (`app/login.tsx`) of the
fake-store React Native client. The screen has three parts:

- **A two-mode form.** It is in `signin` or `signup` mode and holds `name`,
  `email`, `password` and an `errors` record. The toggle link flips the mode
  and forgets the errors. The Clear button empties the three fields and the
  errors but keeps the mode.
- **A required-field validator.** A field is missing when it is empty after
  `trim()`. `name` is required only in sign-up mode. When a field is missing,
  the errors are stored, the user is told to fill all required fields, and
  nothing is sent. Otherwise the errors are cleared and a request is built.
  The endpoint depends on the mode. The body holds the trimmed email, the
  password as typed, and, in sign-up mode only, the trimmed name.
- **A reply classifier.** It turns the server's reply into exactly one effect.
  The checks run in this order:
  1. the server could not be reached;
  2. the body is not JSON;
  3. the status is 400 or 401 ("Invalid credentials");
  4. any other error status gives the server's own `error` if truthy, else a
     generic message;
  5. success saves the user record under `'user'` and opens the product tab.

Files:

- `wrappers.dfy` (module `Wrappers`) holds `Option`. `None` stands for
  JavaScript's `undefined`.
- `js_text.dfy` (module `JsText`) holds the JavaScript string behaviour the
  screen relies on: a whitespace class, `trim()` as `TrimStart`/`TrimEnd`, and
  the blank test `!s.trim()`.
- `js_value.dfy` (module `JsValue`) holds parsed JSON values, JavaScript
  truthiness, `v?.key` and `a || b`.
- `login.dfy` (module `Login`) holds the screen itself. The validator, the
  endpoint, the payload and the classifier are functions with lemmas. The form
  state is the class `LoginForm`, whose handlers update its fields in place.
  `Submit` builds the errors record and the payload step by step, as the
  screen does.

Side effects become values. `fetch` is a parameter of `Submit` (a function
from the request to the reply). A failed request is the reply `Unreachable`.
`Alert.alert`, `AsyncStorage.setItem` and `router.replace` become the returned
`Effect`: either an `Alert` with its message, or a `StoreAndNavigate` with the
storage key, the stored value and the route.

## Model

| member | source | states |
|---|---|---|
| `Login.Toggled` | app/login.tsx:16 | the mode flip always yields the other mode |
| `Login.ToggleTwiceRestores` | app/login.tsx:16 | flipping twice gives back the original mode |
| `Login.LoginForm.constructor` | app/login.tsx:8-12 | the screen opens in sign-in mode with empty fields and no errors |
| `Login.LoginForm.ToggleMode` | app/login.tsx:15-18 | the mode becomes the other mode, errors become empty, the three fields are unchanged |
| `Login.LoginForm.ClearFields` | app/login.tsx:21-26 | name, email and password become empty, errors become empty, the mode is unchanged |
| `Login.ToggleTwiceThenClear` | app/login.tsx:15-26 | toggle, toggle, clear leaves the original mode with empty fields and no errors |
| `JsText.TrimStart` | app/login.tsx:32-40 | the result is a suffix of the input, what was dropped is all whitespace, and the result does not start with whitespace |
| `JsText.TrimEnd` | app/login.tsx:32-40 | the result is a prefix of the input, what was dropped is all whitespace, and the result does not end with whitespace |
| `JsText.IsSpace` | app/login.tsx:32-40 | the whitespace class `trim()` removes (simplified, see Left out); no visible ASCII character is in it |
| `JsText.Trim` | app/login.tsx:32-40 | `s.trim()`: no longer than `s`, and starting and ending with a non-whitespace character unless empty |
| `JsText.TrimIsSlice` | app/login.tsx:32-40 | `s.trim()` is the slice of `s` that starts right after its leading whitespace |
| `JsText.TrimDropsOnlySpace` | app/login.tsx:32-40 | what `s.trim()` leaves out of `s`, before and after it, is whitespace only |
| `JsText.IsBlank` | app/login.tsx:32-40 | `!s.trim()`: a field is blank exactly when every character is whitespace (so whitespace-only input counts as missing) |
| `JsText.TrimOfTrimmed` | app/login.tsx:53-55 | a string without whitespace at either end is unchanged by trimming |
| `JsText.TrimIdempotent` | app/login.tsx:53-55 | trimming an already trimmed value changes nothing |
| `Login.ErrorCount` | app/login.tsx:42 | the number of keys in the errors record is at most 3 and is 0 exactly when no field has an error |
| `Login.RequiredFieldErrors` | app/login.tsx:31-40 | the validator's errors record: a name error only in sign-up mode, and each error carries its field's fixed message; which fields get one is stated by the four lemmas below |
| `Login.SignInHasNoNameError` | app/login.tsx:32-34 | in sign-in mode no name error is reported, whatever the name holds |
| `Login.SignUpNameErrorIff` | app/login.tsx:32-34 | in sign-up mode a name error is reported exactly when the name is whitespace only |
| `Login.EmailErrorIff` | app/login.tsx:35-37 | in either mode an email error is reported exactly when the email is whitespace only |
| `Login.PasswordErrorIff` | app/login.tsx:38-40 | in either mode a password error is reported exactly when the password is whitespace only |
| `Login.ValidIff` | app/login.tsx:31-47 | validation passes exactly when email and password (and the name, when signing up) each hold a non-whitespace character |
| `Login.LoginForm.Submit` | app/login.tsx:29-96 | stored errors equal the validator's errors; nothing is sent exactly when some error is set, and then the fill-all-fields alert is shown; otherwise the request for the mode is sent and its reply classified |
| `Login.Endpoint` | app/login.tsx:49-52 | sign-in posts to `/users/signin` and sign-up to `/users/signup`, both on the one server |
| `Login.EndpointInjective` | app/login.tsx:49-52 | the two modes post to different endpoints (from their distinct paths); toggling always changes the endpoint |
| `Login.BuildPayload` | app/login.tsx:53-56 | the request body: the sent email is the typed email trimmed, and the sent name is the typed name trimmed in sign-up mode and absent otherwise, so neither carries whitespace at either end; the lemmas below state the untouched password |
| `Login.BuildRequest` | app/login.tsx:49-56 | the request goes to the mode's endpoint with the mode's body, so the name travels exactly to the sign-up endpoint |
| `Login.PayloadNameIffSignUp` | app/login.tsx:53-56 | the name is in the body exactly in sign-up mode |
| `Login.PasswordSentAsTyped` | app/login.tsx:53 | the password is sent exactly as typed, whatever it holds |
| `Login.LeadingSpaceKeptInPassword` | app/login.tsx:38-53 | for a password that begins with whitespace, the trimmed form the validator checks is shorter than what is sent |
| `Login.SentPayloadIsFilled` | app/login.tsx:31-56 | after validation passes, the sent email (and name) is non-empty and already trimmed, and the password is not whitespace only |
| `JsValue.Member` | app/login.tsx:82 | `data?.error` is defined exactly when the reply is an object with an `error` member, and then it is that member's value |
| `JsValue.OrElse` | app/login.tsx:82 | the JavaScript fallback operator yields its left operand when that is defined and truthy and its right operand otherwise, so it is truthy whenever the right operand is |
| `JsValue.Truthy` | app/login.tsx:82 | JavaScript truthiness of a parsed JSON value: falsy exactly for `null`, `false`, `0` and `""` |
| `Login.IsOk` | app/login.tsx:76 | `response.ok`, a status from 200 to 299; an ok status is never 400 or 401 |
| `Login.Classify` | app/login.tsx:66-95 | every alert's message is truthy (each fixed message is a non-empty string); the session is stored and the app navigates exactly when the reply is JSON with an ok status |
| `Login.UnreachableAlert` | app/login.tsx:92-95 | a request that never reached the server ends in the "Unable to connect to server" alert |
| `Login.InvalidJsonBeforeStatus` | app/login.tsx:67-74 | a body that is not JSON is reported as such whatever the status, before the status is looked at |
| `Login.RejectedCredentials` | app/login.tsx:76-79 | a JSON reply with status 400 or 401 is reported as invalid credentials whatever its body |
| `Login.OtherErrorMessage` | app/login.tsx:80-85 | any other error status shows the server's truthy `error` member, or else the generic message |
| `Login.SuccessStoresSession` | app/login.tsx:88-91 | success stores the parsed reply under `'user'` and navigates to `/(tabs)/product` |

## Left out

- Network, storage, navigation and alerts are not performed. `fetch` is a
  function parameter, and the alert, `AsyncStorage.setItem` and
  `router.replace` calls are the returned `Effect` value.
- The request method (`POST`) and the `Content-Type` header are fixed in the
  source and are not part of `Request`.
- `JSON.stringify` of the payload and of the stored user record is not
  modelled; the stored value is the parsed JSON value itself.
- The `catch` at `app/login.tsx:92-95` also catches failures of
  `AsyncStorage.setItem` and `router.replace`. Only a failed `fetch`
  (`Unreachable`) is modelled; a storage or navigation failure after success
  is not.
- `async`/`await` ordering is not modelled. A second submission or a field
  edit while a request is in flight cannot happen in this model, because
  `Submit` runs to completion.
- `IsSpace` covers space, tab, line feed, vertical tab, form feed, carriage
  return, no-break space and the byte-order mark. The other Unicode space
  separators and the line/paragraph separators that JavaScript's `trim()`
  also removes are not in the class.
- JSON numbers are `real`; floating-point rounding is not modelled.
- `response.ok` is taken as a status from 200 to 299; the status itself is
  an unconstrained integer.
- The text inputs' `onChangeText` setters write the fields directly; they
  have no logic of their own and are not methods.
- The JSX rendering and styles (`app/login.tsx:98-189`) are presentation only.
- `app/_layout.tsx` only wraps the app in the state-store provider; the store
  module is not part of this model, and neither are the cart, catalog and
  order screens.
