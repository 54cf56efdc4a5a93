/** The decision logic of the login screen: a two-mode (sign-in / sign-up)
    form, its required-field validator, the request it sends, and the
    classification of the server's reply into exactly one user-visible effect.
    Network, storage, navigation and alerts are not performed here: the reply
    is supplied by a `fetch` parameter and the outcome is returned as an
    `Effect` value. */
module Login {
  import opened Wrappers
  import opened JsText
  import opened JsValue

  // ---------------------------------------------------------------------
  // Constants of the screen
  // ---------------------------------------------------------------------

  const ServerBase := "http://10.0.2.2:3000"
  const SignInUrl := ServerBase + "/users/signin"
  const SignUpUrl := ServerBase + "/users/signup"

  const NameRequired := "Name is required"
  const EmailRequired := "Email is required"
  const PasswordRequired := "Password is required"

  const FillAllFieldsMessage := "Please fill all required fields."
  const InvalidJsonMessage := "Server did not return valid JSON"
  const InvalidCredentialsMessage := "Invalid credentials"
  const GenericErrorMessage := "Something went wrong. Please try again."
  const UnreachableMessage := "Unable to connect to server"

  /** The storage key of the signed-in user and the route shown after login. */
  const SessionKey := "user"
  const ProductRoute := "/(tabs)/product"

  // ---------------------------------------------------------------------
  // Data model
  // ---------------------------------------------------------------------

  datatype Mode = SignIn | SignUp

  /** The `errors` record: one optional message per field. */
  datatype FieldErrors = FieldErrors(name: Option<string>, email: Option<string>, password: Option<string>)

  const NoErrors := FieldErrors(None, None, None)

  /** The request body: `name` is present only when signing up. */
  datatype Payload = Payload(email: string, password: string, name: Option<string>)

  datatype Request = Request(url: string, payload: Payload)

  /** What `fetch` delivers: either the request failed to reach the server, or
      a reply with its status and its body, which is None when the body is not
      valid JSON. */
  datatype HttpReply = Unreachable | Reply(status: int, body: Option<Json>)

  /** The one user-visible effect a submission ends in: an alert with a
      message, or saving the user record and navigating to the product tab. */
  datatype Effect =
    | Alert(message: Json)
    | StoreAndNavigate(key: string, user: Json, route: string)

  // ---------------------------------------------------------------------
  // Mode
  // ---------------------------------------------------------------------

  /** The mode flip of the toggle link. */
  function Toggled(m: Mode): (r: Mode)
    ensures r != m
  {
    if m == SignIn then SignUp else SignIn
  }

  lemma ToggleTwiceRestores(m: Mode)
    ensures Toggled(Toggled(m)) == m
  {
  }

  // ---------------------------------------------------------------------
  // Validation
  // ---------------------------------------------------------------------

  /** The number of keys set in an errors record (`Object.keys(e).length`). */
  function ErrorCount(e: FieldErrors): (n: nat)
    ensures n <= 3
    ensures n == 0 <==> e == NoErrors
  {
    (if e.name.Some? then 1 else 0) + (if e.email.Some? then 1 else 0) +
    (if e.password.Some? then 1 else 0)
  }

  /** The errors a submission finds: a field is required when it is blank
      after trimming; the name is required only when signing up. */
  function RequiredFieldErrors(mode: Mode, name: string, email: string, password: string): (e: FieldErrors)
    ensures e.name.Some? ==> mode == SignUp && e.name.value == NameRequired
    ensures e.email.Some? ==> e.email.value == EmailRequired
    ensures e.password.Some? ==> e.password.value == PasswordRequired
  {
    FieldErrors(
      if mode == SignUp && IsBlank(name) then Some(NameRequired) else None,
      if IsBlank(email) then Some(EmailRequired) else None,
      if IsBlank(password) then Some(PasswordRequired) else None)
  }

  /** Signing in never reports a name error, whatever the name holds. */
  lemma SignInHasNoNameError(name: string, email: string, password: string)
    ensures RequiredFieldErrors(SignIn, name, email, password).name == None
  {
  }

  /** Signing up reports a name error exactly when the name is whitespace only. */
  lemma SignUpNameErrorIff(name: string, email: string, password: string)
    ensures RequiredFieldErrors(SignUp, name, email, password).name.Some? <==> AllSpace(name)
  {
  }

  /** An email error is reported exactly when the email is whitespace only,
      in either mode. */
  lemma EmailErrorIff(mode: Mode, name: string, email: string, password: string)
    ensures RequiredFieldErrors(mode, name, email, password).email.Some? <==> AllSpace(email)
  {
  }

  /** A password error is reported exactly when the password is whitespace
      only, in either mode. */
  lemma PasswordErrorIff(mode: Mode, name: string, email: string, password: string)
    ensures RequiredFieldErrors(mode, name, email, password).password.Some? <==> AllSpace(password)
  {
  }

  /** The form passes validation exactly when every required field holds a
      non-whitespace character. */
  lemma ValidIff(mode: Mode, name: string, email: string, password: string)
    ensures ErrorCount(RequiredFieldErrors(mode, name, email, password)) == 0 <==>
      (mode == SignUp ==> !AllSpace(name)) && !AllSpace(email) && !AllSpace(password)
  {
  }

  // ---------------------------------------------------------------------
  // Request
  // ---------------------------------------------------------------------

  /** The endpoint of each mode: a path under `/users/` on the one server. */
  function Endpoint(mode: Mode): (url: string)
    ensures |ServerBase| < |url| && url[..|ServerBase|] == ServerBase
    ensures url[|ServerBase|..] == if mode == SignIn then "/users/signin" else "/users/signup"
  {
    if mode == SignIn then SignInUrl else SignUpUrl
  }

  /** The two modes post to different endpoints, so toggling the mode always
      changes where the form is sent. */
  lemma EndpointInjective(m1: Mode, m2: Mode)
    ensures Endpoint(m1) == Endpoint(m2) <==> m1 == m2
    ensures Endpoint(Toggled(m1)) != Endpoint(m1)
  {
  }

  /** The request body: the trimmed email, the password exactly as typed, and
      the trimmed name when signing up. */
  function BuildPayload(mode: Mode, name: string, email: string, password: string): (p: Payload)
    ensures p.email == Trim(email) && p.name == (if mode == SignUp then Some(Trim(name)) else None)
    ensures p.email != [] ==> !IsSpace(p.email[0]) && !IsSpace(p.email[|p.email| - 1])
    ensures p.name.Some? && p.name.value != [] ==>
      !IsSpace(p.name.value[0]) && !IsSpace(p.name.value[|p.name.value| - 1])
  {
    Payload(Trim(email), password, if mode == SignUp then Some(Trim(name)) else None)
  }

  /** The request of a submission: the mode's endpoint and the mode's body;
      the name travels exactly to the sign-up endpoint. */
  function BuildRequest(mode: Mode, name: string, email: string, password: string): (r: Request)
    ensures r.url == Endpoint(mode) && r.payload == BuildPayload(mode, name, email, password)
    ensures r.payload.name.Some? <==> r.url == SignUpUrl
  {
    Request(Endpoint(mode), BuildPayload(mode, name, email, password))
  }

  /** The name is sent exactly when signing up. */
  lemma PayloadNameIffSignUp(mode: Mode, name: string, email: string, password: string)
    ensures BuildPayload(mode, name, email, password).name.Some? <==> mode == SignUp
  {
  }

  /** The password is sent exactly as typed, whatever it holds. */
  lemma PasswordSentAsTyped(mode: Mode, name: string, email: string, password: string)
    ensures BuildPayload(mode, name, email, password).password == password
  {
  }

  /** A password that begins with whitespace is therefore sent with it,
      although the trimmed form the validator looked at is shorter. */
  lemma LeadingSpaceKeptInPassword(password: string)
    requires |password| > 0 && IsSpace(password[0])
    ensures |Trim(password)| < |password|
  {
    assert TrimStart(password) == TrimStart(password[1..]);
  }

  /** A request that passed validation carries an email and (when signing up)
      a name that are non-empty and already trimmed, and a password that is not
      whitespace only. */
  lemma SentPayloadIsFilled(mode: Mode, name: string, email: string, password: string)
    requires ErrorCount(RequiredFieldErrors(mode, name, email, password)) == 0
    ensures var p := BuildPayload(mode, name, email, password);
      p.email != "" && Trim(p.email) == p.email && !AllSpace(p.password) &&
      (p.name.Some? ==> p.name.value != "" && Trim(p.name.value) == p.name.value)
  {
    TrimIdempotent(email);
    TrimIdempotent(name);
  }

  // ---------------------------------------------------------------------
  // Reply classification
  // ---------------------------------------------------------------------

  /** `response.ok`: a status in the range 200 to 299. An ok status is never
      400 or 401, so the credential check only sees failed replies. */
  predicate IsOk(status: int)
    ensures IsOk(status) ==> status != 400 && status != 401
  {
    200 <= status <= 299
  }

  /** The one effect a reply ends in. The checks are made in this order: a
      failed request, a body that is not JSON, a rejected credential
      (400/401), any other error status (the server's own `error` if truthy,
      otherwise a generic message), and finally success. Every alert's message
      is truthy; each fixed message is a non-empty string. */
  function Classify(reply: HttpReply): (e: Effect)
    ensures e.Alert? ==> Truthy(e.message)
    ensures e.StoreAndNavigate? <==> reply.Reply? && reply.body.Some? && IsOk(reply.status)
  {
    match reply
    case Unreachable => Alert(JString(UnreachableMessage))
    case Reply(status, body) =>
      if body.None? then
        Alert(JString(InvalidJsonMessage))
      else if !IsOk(status) then
        if status == 401 || status == 400 then
          Alert(JString(InvalidCredentialsMessage))
        else
          Alert(OrElse(Member(body.value, "error"), JString(GenericErrorMessage)))
      else
        StoreAndNavigate(SessionKey, body.value, ProductRoute)
  }

  /** A request that did not reach the server is reported as such. */
  lemma UnreachableAlert()
    ensures Classify(Unreachable) == Alert(JString(UnreachableMessage))
  {
  }

  /** A body that is not JSON is reported as such, whatever the status. */
  lemma InvalidJsonBeforeStatus(status: int)
    ensures Classify(Reply(status, None)) == Alert(JString(InvalidJsonMessage))
  {
  }

  /** A JSON reply with status 400 or 401 is reported as invalid credentials,
      whatever the body says. */
  lemma RejectedCredentials(status: int, body: Json)
    requires status == 400 || status == 401
    ensures Classify(Reply(status, Some(body))) == Alert(JString(InvalidCredentialsMessage))
  {
  }

  /** Any other error status shows the server's `error` member when it is
      truthy, and the generic message otherwise. */
  lemma OtherErrorMessage(status: int, body: Json)
    requires !IsOk(status) && status != 400 && status != 401
    ensures var e := Classify(Reply(status, Some(body)));
      e.Alert? &&
      (body.JObject? && "error" in body.fields && Truthy(body.fields["error"]) ==>
         e.message == body.fields["error"]) &&
      (!(body.JObject? && "error" in body.fields && Truthy(body.fields["error"])) ==>
         e.message == JString(GenericErrorMessage))
  {
  }

  /** Success stores the parsed body under the key "user" and opens the
      product tab. */
  lemma SuccessStoresSession(reply: HttpReply)
    requires Classify(reply).StoreAndNavigate?
    ensures Classify(reply) == StoreAndNavigate(SessionKey, reply.body.value, ProductRoute)
  {
  }

  // ---------------------------------------------------------------------
  // The form
  // ---------------------------------------------------------------------

  /** The state of the login screen. The text fields are written directly by
      the inputs; the methods below are the screen's own handlers. */
  class LoginForm {
    var mode: Mode
    var name: string
    var email: string
    var password: string
    var errors: FieldErrors

    /** The screen opens in sign-in mode with empty fields and no errors. */
    constructor ()
      ensures mode == SignIn && name == "" && email == "" && password == ""
      ensures errors == NoErrors
    {
      mode := SignIn;
      name, email, password := "", "", "";
      errors := NoErrors;
    }

    /** Switches between sign-in and sign-up and forgets the errors; the
        fields keep what was typed. */
    method ToggleMode()
      modifies this
      ensures mode == Toggled(old(mode)) && errors == NoErrors
      ensures name == old(name) && email == old(email) && password == old(password)
    {
      mode := Toggled(mode);
      errors := NoErrors;
    }

    /** Empties the three fields and the errors; the mode is kept. */
    method ClearFields()
      modifies this
      ensures name == "" && email == "" && password == "" && errors == NoErrors
      ensures mode == old(mode)
    {
      name := "";
      email := "";
      password := "";
      errors := NoErrors;
    }

    /** Submits the form. The stored errors become the errors the validator
        finds (none when it finds none). With an error, nothing is sent and the
        user is asked to fill the fields; otherwise the request for the current
        mode is sent through `fetch` and its reply is classified. `sent` is the
        request that was sent, if any. */
    method Submit(fetch: Request -> HttpReply) returns (effect: Effect, sent: Option<Request>)
      modifies this`errors
      ensures errors == RequiredFieldErrors(mode, name, email, password)
      ensures sent.None? <==> ErrorCount(errors) > 0
      ensures sent.None? ==> effect == Alert(JString(FillAllFieldsMessage))
      ensures sent.Some? ==>
        sent.value == BuildRequest(mode, name, email, password) && effect == Classify(fetch(sent.value))
    {
      var newErrors := NoErrors;
      if mode == SignUp && IsBlank(name) {
        newErrors := newErrors.(name := Some(NameRequired));
      }
      if IsBlank(email) {
        newErrors := newErrors.(email := Some(EmailRequired));
      }
      if IsBlank(password) {
        newErrors := newErrors.(password := Some(PasswordRequired));
      }

      if ErrorCount(newErrors) > 0 {
        errors := newErrors;
        effect, sent := Alert(JString(FillAllFieldsMessage)), None;
        return;
      }
      errors := NoErrors;

      var url := Endpoint(mode);
      var payload := Payload(Trim(email), password, None);
      if mode == SignUp {
        payload := payload.(name := Some(Trim(name)));
      }
      var request := Request(url, payload);
      sent := Some(request);
      effect := Classify(fetch(request));
    }
  }

  /** Toggling twice brings back the original mode and leaves no errors;
      clearing afterwards keeps that mode. */
  method ToggleTwiceThenClear(form: LoginForm)
    modifies form
    ensures form.mode == old(form.mode) && form.errors == NoErrors
    ensures form.name == "" && form.email == "" && form.password == ""
  {
    form.ToggleMode();
    form.ToggleMode();
    ToggleTwiceRestores(old(form.mode));
    form.ClearFields();
  }
}
