/** The login/registration screen: two schemas, the mode toggle, and the
    submit handler, a decision tree over at most two responses that ends
    either in handing a user to the application or in one alert. All
    requests go to the configured backend. */
module Auth {
  import opened Wrappers
  import opened Js
  import opened Http
  import opened Validation

  const LoginSchema: Schema := map[
    Email := TextRule(Some("Email is required"), None, [EmailFormat("Invalid email")])
  ]

  const RegisterSchema: Schema := map[
    Name := TextRule(Some("Name is required"), None, [MinLength(2, "Name too short")]),
    Email := TextRule(Some("Email is required"), None, [EmailFormat("Invalid email")]),
    FitnessLevel := TextRule(Some("Fitness level is required"), None, [])
  ]

  /** Login checks the e-mail field only. */
  function ValidateLogin(values: Values, isEmail: string -> bool): (errors: map<Field, Error>)
    ensures errors.Keys <= {Email}
  {
    Validate(LoginSchema, values, isEmail)
  }

  /** Registration checks the name, the e-mail and the fitness level. */
  function ValidateRegister(values: Values, isEmail: string -> bool): (errors: map<Field, Error>)
    ensures errors.Keys <= {Name, Email, FitnessLevel}
  {
    Validate(RegisterSchema, values, isEmail)
  }

  /** The login e-mail passes exactly when it is present and well formed. */
  lemma LoginEmailRule(values: Values, isEmail: string -> bool)
    ensures ValidateLogin(values, isEmail) == map[] <==>
              TextOf(values, "email").Some? && isEmail(TextOf(values, "email").value)
    ensures Missing(values, "email") ==> ValidateLogin(values, isEmail) == map[Email := Required("Email is required")]
  {
    ValidateAt(LoginSchema, values, isEmail, Email);
    CheckMeaning(LoginSchema[Email], ValueOf(values, Key(Email)), isEmail);
  }

  /** The registration name needs at least 2 characters and has no upper bound. */
  lemma RegisterNameRule(values: Values, isEmail: string -> bool)
    ensures Name !in ValidateRegister(values, isEmail) <==>
              TextOf(values, "name").Some? && Utf16Length(TextOf(values, "name").value) >= 2
    ensures TextOf(values, "name").Some? && Utf16Length(TextOf(values, "name").value) < 2 ==>
              ValidateRegister(values, isEmail)[Name] == TooShort("Name too short")
  {
    ValidateAt(RegisterSchema, values, isEmail, Name);
    CheckMeaning(RegisterSchema[Name], ValueOf(values, Key(Name)), isEmail);
  }

  /** The registration e-mail passes exactly when it is present and well formed. */
  lemma RegisterEmailRule(values: Values, isEmail: string -> bool)
    ensures Email !in ValidateRegister(values, isEmail) <==>
              TextOf(values, "email").Some? && isEmail(TextOf(values, "email").value)
    ensures TextOf(values, "email").Some? && !isEmail(TextOf(values, "email").value) ==>
              ValidateRegister(values, isEmail)[Email] == NotEmail("Invalid email")
  {
    ValidateAt(RegisterSchema, values, isEmail, Email);
    CheckMeaning(RegisterSchema[Email], ValueOf(values, Key(Email)), isEmail);
  }

  /** Any non-empty fitness level passes: there is no list of levels. */
  lemma RegisterFitnessLevelRule(values: Values, isEmail: string -> bool)
    ensures FitnessLevel !in ValidateRegister(values, isEmail) <==> TextOf(values, "fitness_level").Some?
    ensures Missing(values, "fitness_level") ==>
              ValidateRegister(values, isEmail)[FitnessLevel] == Required("Fitness level is required")
  {
    ValidateAt(RegisterSchema, values, isEmail, FitnessLevel);
    CheckMeaning(RegisterSchema[FitnessLevel], ValueOf(values, Key(FitnessLevel)), isEmail);
  }

  /** Registration may be submitted exactly when every field rule holds. */
  lemma RegisterPasses(values: Values, isEmail: string -> bool)
    ensures ValidateRegister(values, isEmail) == map[] <==>
              && TextOf(values, "name").Some? && Utf16Length(TextOf(values, "name").value) >= 2
              && TextOf(values, "email").Some? && isEmail(TextOf(values, "email").value)
              && TextOf(values, "fitness_level").Some?
  {
    RegisterNameRule(values, isEmail);
    RegisterEmailRule(values, isEmail);
    RegisterFitnessLevelRule(values, isEmail);
  }

  /** The form's values in both modes. */
  const DefaultValues: Values := map["name" := Str(""), "email" := Str(""), "fitness_level" := Str("Beginner")]

  /** The empty form cannot be submitted: login misses the e-mail, and
      registration the name and the e-mail, while the preselected fitness
      level passes. */
  lemma DefaultsAreIncomplete(isEmail: string -> bool)
    ensures ValidateLogin(DefaultValues, isEmail) == map[Email := Required("Email is required")]
    ensures ValidateRegister(DefaultValues, isEmail).Keys == {Name, Email}
  {
    assert Missing(DefaultValues, "name") && Missing(DefaultValues, "email");
    assert TextOf(DefaultValues, "fitness_level") == Some("Beginner");
    LoginEmailRule(DefaultValues, isEmail);
    RegisterNameRule(DefaultValues, isEmail);
    RegisterEmailRule(DefaultValues, isEmail);
    RegisterFitnessLevelRule(DefaultValues, isEmail);
  }

  // ---- the submit handler -----------------------------------------------

  /** Both authentication requests are aborted after 10 seconds. */
  const AuthTimeoutMs: nat := 10000

  const TimeoutMessage: string := "Request timed out." + " Please check your connection and try again."

  /** The alert for anything thrown inside the handler. */
  function FailureAlert(f: Failure): (alert: string)
    ensures f.Abort? <==> alert == TimeoutMessage
    ensures f.Other? ==> alert == "Network error: " + f.message
  {
    match f
    case Abort => TimeoutMessage
    case Other(m) =>
      assert ("Network error: " + m)[0] == 'N';
      assert TimeoutMessage[0] == 'R';
      "Network error: " + m
  }

  /** The POST to `/login` or `/register`; only login includes credentials. */
  function AuthRequest(isLogin: bool, values: Values): (r: Request)
    ensures r.verb == Post && r.origin == ApiUrl && r.headers == JsonHeaders
    ensures r.path == (if isLogin then "/login" else "/register")
    ensures r.credentials <==> isLogin
    ensures r.body == Some(Serialized(values)) && r.timeoutMs == Some(AuthTimeoutMs)
  {
    Request(Post, ApiUrl, if isLogin then "/login" else "/register", JsonHeaders, isLogin,
            Some(Serialized(values)), Some(AuthTimeoutMs))
  }

  /** The login that follows a registration: its body holds the e-mail alone. */
  function AutoLoginRequest(values: Values): (r: Request)
    ensures r.verb == Post && r.origin == ApiUrl && r.path == "/login" && r.credentials
    ensures r.body.Some? && r.body.value.Obj? && r.body.value.fields.Keys <= {"email"}
    ensures "email" in values && values["email"] != Undefined ==> r.body.value.fields == map["email" := values["email"]]
    ensures r.timeoutMs == Some(AuthTimeoutMs)
  {
    Request(Post, ApiUrl, "/login", JsonHeaders, true,
            Some(Serialized(map["email" := ValueOf(values, "email")])), Some(AuthTimeoutMs))
  }

  /** The registration retried at `/users` when `/register` answers 404. Its
      timeout has already been cleared, so it is never aborted by time. */
  function FallbackRequest(values: Values): (r: Request)
    ensures r.verb == Post && r.origin == ApiUrl && r.path == "/users" && !r.credentials
    ensures r.body == Some(Serialized(values)) && r.timeoutMs.None?
  {
    Send(Post, ApiUrl, "/users", false, Serialized(values))
  }

  /** The user handed over after a registration: the auto-login's user when
      that login is OK and its body parses, else the registration's payload. */
  function RegisteredUser(registered: Json, login: Outcome): (user: Json)
    ensures IsOk(login) && login.body.Parsed? ==> user == login.body.value
    ensures !(IsOk(login) && login.body.Parsed?) ==> user == registered
  {
    if IsOk(login) && login.body.Parsed? then login.body.value else registered
  }

  /** The alert for an error response: its body's `error`, an unparseable body
      counting as `{error: 'Unknown error'}`, or the mode's fallback text.
      Reading `error` of a `null` body throws, which ends in the network-error
      alert. */
  function ErrorAlert(body: Body, isLogin: bool): (alert: string)
    ensures body.Unparseable? ==> alert == "Unknown error"
    ensures body.Parsed? && body.value.Obj? && "error" in body.value.fields && Truthy(body.value.fields["error"])
            ==> alert == ToText(body.value.fields["error"])
    ensures body.Parsed? && Readable(body.value) && !Truthy(OptionalProp(body.value, "error"))
            ==> alert == (if isLogin then "Login failed" else "Registration failed")
    ensures body.Parsed? && !Readable(body.value) ==> alert == "Network error: " + ReadErrorMessage(body.value, "error")
  {
    var error := match body
                 case Unparseable(_) => Obj(map["error" := Str("Unknown error")])
                 case Parsed(v) => v;
    match Prop(error, "error")
    case None => "Network error: " + ReadErrorMessage(error, "error")
    case Some(e) => ToText(Or(e, Str(if isLogin then "Login failed" else "Registration failed")))
  }

  /** What one submit does: the requests issued, the user handed to
      `onLogin` (if any) and the alert shown (if any). */
  datatype Submission = Submission(requests: seq<Request>, loggedIn: Option<Json>, alert: Option<string>)

  /** `handleSubmit`. `first` is the outcome of the login or registration
      request; `second` the outcome of the request that may follow it (the
      auto-login after a registration, or the `/users` fallback after a 404),
      ignored when there is none. */
  function HandleSubmit(isLogin: bool, values: Values, first: Outcome, second: Outcome): (s: Submission)
    // Every submit ends in exactly one of the two.
    ensures s.loggedIn.Some? != s.alert.Some?
    ensures 1 <= |s.requests| <= 2 && s.requests[0] == AuthRequest(isLogin, values)
    ensures first.Thrown? ==> |s.requests| == 1 && s.alert == Some(FailureAlert(first.failure))
    ensures isLogin ==> |s.requests| == 1
    // An OK answer that does not parse throws into the network-error alert.
    ensures IsOk(first) && first.body.Unparseable? ==>
              s.requests == [AuthRequest(isLogin, values)] && s.alert == Some("Network error: " + first.body.message)
    ensures isLogin ==> (s.loggedIn.Some? <==> IsOk(first) && first.body.Parsed?)
    ensures isLogin && IsOk(first) && first.body.Parsed? ==> s.loggedIn == Some(first.body.value)
    // A successful registration always logs in, with the auto-login's user or its own payload.
    ensures !isLogin && IsOk(first) && first.body.Parsed? ==>
              && s.requests == [AuthRequest(isLogin, values), AutoLoginRequest(values)]
              && s.loggedIn == Some(RegisteredUser(first.body.value, second))
    // A registration answered with 404 is retried at `/users`.
    ensures !isLogin && first.Response? && first.status == 404 ==>
              && s.requests == [AuthRequest(isLogin, values), FallbackRequest(values)]
              && (s.loggedIn.Some? <==> IsOk(second) && second.body.Parsed?)
              && (s.loggedIn.Some? ==> s.loggedIn == Some(second.body.value))
              && (second.Response? && !IsOk(second) ==> s.alert == Some(ErrorAlert(first.body, isLogin)))
              && (second.Thrown? ==> s.alert == Some(FailureAlert(second.failure)))
              && (IsOk(second) && second.body.Unparseable? ==> s.alert == Some("Network error: " + second.body.message))
    // Any other error status alerts from the error body.
    ensures first.Response? && !IsOk(first) && (isLogin || first.status != 404) ==>
              |s.requests| == 1 && s.alert == Some(ErrorAlert(first.body, isLogin))
  {
    var request := AuthRequest(isLogin, values);
    match first
    case Thrown(f) => Submission([request], None, Some(FailureAlert(f)))
    case Response(status, body) =>
      if IsOk(first) then
        match body
        case Unparseable(m) => Submission([request], None, Some("Network error: " + m))
        case Parsed(user) =>
          if isLogin then Submission([request], Some(user), None)
          else Submission([request, AutoLoginRequest(values)], Some(RegisteredUser(user, second)), None)
      else if !isLogin && status == 404 then
        var requests := [request, FallbackRequest(values)];
        match second
        case Thrown(f) => Submission(requests, None, Some(FailureAlert(f)))
        case Response(_, fallbackBody) =>
          if IsOk(second) then
            match fallbackBody
            case Parsed(user) => Submission(requests, Some(user), None)
            case Unparseable(m) => Submission(requests, None, Some("Network error: " + m))
          else Submission(requests, None, Some(ErrorAlert(body, isLogin)))
      else Submission([request], None, Some(ErrorAlert(body, isLogin)))
  }

  /** The screen's state: the mode and Formik's submitting flag. */
  class AuthForm {
    var isLogin: bool
    var submitting: bool

    constructor ()
      ensures isLogin && !submitting
    {
      isLogin := true;
      submitting := false;
    }

    /** The link under the form switches between login and registration. */
    method ToggleMode()
      modifies this
      ensures isLogin == !old(isLogin) && submitting == old(submitting)
    {
      isLogin := !isLogin;
    }

    /** Submitting: the mode's schema, then `handleSubmit`, whose `finally`
        always clears the submitting flag; a blocked attempt clears it too. */
    method Submit(values: Values, isEmail: string -> bool, first: Outcome, second: Outcome)
      returns (a: Attempt<Submission>)
      modifies this
      ensures var errors := if isLogin then ValidateLogin(values, isEmail) else ValidateRegister(values, isEmail);
              a == if errors != map[] then Blocked(errors) else Submitted(HandleSubmit(isLogin, values, first, second))
      ensures isLogin == old(isLogin) && !submitting
    {
      submitting := true;
      var errors := if isLogin then ValidateLogin(values, isEmail) else ValidateRegister(values, isEmail);
      if errors != map[] {
        a := Blocked(errors);
      } else {
        a := Submitted(HandleSubmit(isLogin, values, first, second));
      }
      submitting := false;
    }
  }

  /** Toggling the mode twice returns to the original mode. */
  method ToggleTwice(form: AuthForm)
    modifies form
    ensures form.isLogin == old(form.isLogin)
  {
    form.ToggleMode();
    form.ToggleMode();
  }
}
