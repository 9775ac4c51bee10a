/** The profile edit form: the same three rules as registration, initial
    values taken from the signed-in user, and a PATCH of that user at the
    local server whose OK answer is handed back to the profile page. */
module EditProfile {
  import opened Wrappers
  import opened Js
  import opened Http
  import opened Validation
  import Auth

  const ProfileSchema: Schema := map[
    Name := TextRule(Some("Name is required"), None, [MinLength(2, "Name too short")]),
    Email := TextRule(Some("Email is required"), None, [EmailFormat("Invalid email")]),
    FitnessLevel := TextRule(Some("Fitness level is required"), None, [])
  ]

  /** The profile rules: a name of at least 2 characters, an e-mail address
      and any non-empty fitness level. */
  function ValidateProfile(values: Values, isEmail: string -> bool): (errors: map<Field, Error>)
    ensures errors.Keys <= {Name, Email, FitnessLevel}
  {
    Validate(ProfileSchema, values, isEmail)
  }

  /** Editing the profile applies exactly the registration rules, messages
      included, so every rule proved for registration holds here. */
  lemma SameRulesAsRegistration(values: Values, isEmail: string -> bool)
    ensures ValidateProfile(values, isEmail) == Auth.ValidateRegister(values, isEmail)
  {
    assert ProfileSchema == Auth.RegisterSchema;
  }

  /** The profile form may be submitted exactly when the name has at least
      2 characters, the e-mail is well formed and a fitness level is given. */
  lemma ProfilePasses(values: Values, isEmail: string -> bool)
    ensures ValidateProfile(values, isEmail) == map[] <==>
              && TextOf(values, "name").Some? && Utf16Length(TextOf(values, "name").value) >= 2
              && TextOf(values, "email").Some? && isEmail(TextOf(values, "email").value)
              && TextOf(values, "fitness_level").Some?
  {
    SameRulesAsRegistration(values, isEmail);
    Auth.RegisterPasses(values, isEmail);
  }

  /** The initial values: the user's name, e-mail and fitness level. `None`
      is the TypeError of rendering the form without a user. */
  function InitialValues(user: Json): (values: Option<Values>)
    ensures values.None? <==> !Readable(user)
    ensures values.Some? ==> values.value.Keys == {"name", "email", "fitness_level"}
    ensures values.Some? ==> forall k :: k in values.value ==> values.value[k] == OptionalProp(user, k)
  {
    Pick(user, {"name", "email", "fitness_level"})
  }

  /** The PATCH of the user's own record, with credentials. `None` when the
      user cannot be read: building the URL throws before any request. */
  function UpdateRequest(user: Json, values: Values): (r: Option<Request>)
    ensures r.None? <==> !Readable(user)
    ensures r.Some? ==> && r.value.verb == Patch && r.value.origin == LocalServer
                        && r.value.path == "/users/" + ToText(OptionalProp(user, "id"))
                        && r.value.credentials && r.value.headers == JsonHeaders
                        && r.value.body == Some(Serialized(values)) && r.value.timeoutMs.None?
  {
    match Prop(user, "id")
    case None => None
    case Some(id) => Some(Send(Patch, LocalServer, "/users/" + ToText(id), true, Serialized(values)))
  }

  /** What a submit does: the request, the user handed to `onUpdate`, the alert. */
  datatype ProfileSave = ProfileSave(request: Option<Request>, updated: Option<Json>, alert: Option<string>)

  const UpdateFailed := "Failed to update profile"

  /** `handleSubmit`: `onUpdate` receives the server's answer exactly when
      the response is OK and parses; any other response status alerts;
      a throw is only logged. */
  function HandleSubmit(user: Json, values: Values, response: Outcome): (s: ProfileSave)
    ensures s.request == UpdateRequest(user, values)
    ensures s.updated.Some? <==> Readable(user) && IsOk(response) && response.body.Parsed?
    ensures s.updated.Some? ==> s.updated.value == response.body.value
    ensures s.alert.Some? <==> Readable(user) && response.Response? && !IsOk(response)
    ensures s.alert.Some? ==> s.alert.value == UpdateFailed
    ensures !(s.updated.Some? && s.alert.Some?)
  {
    var request := UpdateRequest(user, values);
    if request.None? then ProfileSave(None, None, None)
    else match response
      case Thrown(_) => ProfileSave(request, None, None)
      case Response(_, body) =>
        if IsOk(response) then
          match body
          case Parsed(updated) => ProfileSave(request, Some(updated), None)
          case Unparseable(_) => ProfileSave(request, None, None)
        else ProfileSave(request, None, Some(UpdateFailed))
  }

  /** Submitting the form: validation, then `handleSubmit`. */
  function Submit(user: Json, values: Values, isEmail: string -> bool, response: Outcome): (a: Attempt<ProfileSave>)
    ensures a.Blocked? <==> ValidateProfile(values, isEmail) != map[]
    ensures a.Submitted? ==> a.result == HandleSubmit(user, values, response)
  {
    var errors := ValidateProfile(values, isEmail);
    if errors != map[] then Blocked(errors) else Submitted(HandleSubmit(user, values, response))
  }

  /** Submitting the unchanged initial values of a complete profile sends
      the user's own fields back. */
  lemma UnchangedProfilePasses(user: Json, isEmail: string -> bool)
    requires Readable(user)
    requires TextValue(OptionalProp(user, "name")).Some? && Utf16Length(TextValue(OptionalProp(user, "name")).value) >= 2
    requires TextValue(OptionalProp(user, "email")).Some? && isEmail(TextValue(OptionalProp(user, "email")).value)
    requires TextValue(OptionalProp(user, "fitness_level")).Some?
    ensures ValidateProfile(InitialValues(user).value, isEmail) == map[]
  {
    var values := InitialValues(user).value;
    assert TextOf(values, "name") == TextValue(OptionalProp(user, "name"));
    assert TextOf(values, "email") == TextValue(OptionalProp(user, "email"));
    assert TextOf(values, "fitness_level") == TextValue(OptionalProp(user, "fitness_level"));
    ProfilePasses(values, isEmail);
  }
}
