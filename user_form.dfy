/** The user create/edit form: its schema, its initial values, the record it
    loads when editing, and its submit. Requests go to the configured
    backend. The e-mail format check is the predicate `isEmail`. */
module UserForm {
  import opened Wrappers
  import opened Js
  import opened Http
  import opened Validation
  import opened FormSave

  const FitnessLevels: seq<string> := ["Beginner", "Intermediate", "Advanced"]

  const UserSchema: Schema := map[
    Name := TextRule(Some("Name is required"), None,
                     [MinLength(2, "Name must be at least 2 characters"),
                      MaxLength(100, "Name must be less than 100 characters")]),
    Email := TextRule(Some("Email is required"), None, [EmailFormat("Invalid email format")]),
    FitnessLevel := TextRule(Some("Fitness level is required"),
                             Some(Choices(FitnessLevels, "Invalid fitness level")), [])
  ]

  /** The user rules: a name of 2 to 100 characters, an e-mail address and
      a fitness level from the list. The lemmas below state each field's rule. */
  function ValidateUser(values: Values, isEmail: string -> bool): (errors: map<Field, Error>)
    ensures errors.Keys <= {Name, Email, FitnessLevel}
  {
    Validate(UserSchema, values, isEmail)
  }

  /** The name passes exactly when it has 2 to 100 characters. */
  lemma UserNameRule(values: Values, isEmail: string -> bool)
    ensures Name !in ValidateUser(values, isEmail) <==>
              TextOf(values, "name").Some? && 2 <= Utf16Length(TextOf(values, "name").value) <= 100
    ensures Missing(values, "name") ==> ValidateUser(values, isEmail)[Name] == Required("Name is required")
  {
    var rule := UserSchema[Name];
    assert rule == TextRule(Some("Name is required"), None,
                            [MinLength(2, "Name must be at least 2 characters"),
                             MaxLength(100, "Name must be less than 100 characters")]);
    ValidateAt(UserSchema, values, isEmail, Name);
    CheckMeaning(rule, ValueOf(values, "name"), isEmail);
    TwoTextTests(rule.textTests, TextOf(values, "name").GetOr(""), isEmail);
  }

  /** The e-mail passes exactly when it is present and well formed. */
  lemma UserEmailRule(values: Values, isEmail: string -> bool)
    ensures Email !in ValidateUser(values, isEmail) <==>
              TextOf(values, "email").Some? && isEmail(TextOf(values, "email").value)
    ensures TextOf(values, "email").Some? && !isEmail(TextOf(values, "email").value) ==>
              ValidateUser(values, isEmail)[Email] == NotEmail("Invalid email format")
    ensures Missing(values, "email") ==> ValidateUser(values, isEmail)[Email] == Required("Email is required")
  {
    ValidateAt(UserSchema, values, isEmail, Email);
    CheckMeaning(UserSchema[Email], ValueOf(values, Key(Email)), isEmail);
  }

  /** The fitness level passes exactly when it is one of the three levels. */
  lemma UserFitnessLevelRule(values: Values, isEmail: string -> bool)
    ensures FitnessLevel !in ValidateUser(values, isEmail) <==>
              TextOf(values, "fitness_level").Some? && TextOf(values, "fitness_level").value in FitnessLevels
    ensures TextOf(values, "fitness_level").Some? && TextOf(values, "fitness_level").value !in FitnessLevels ==>
              ValidateUser(values, isEmail)[FitnessLevel] == NotOneOf("Invalid fitness level")
  {
    ValidateAt(UserSchema, values, isEmail, FitnessLevel);
    CheckMeaning(UserSchema[FitnessLevel], ValueOf(values, Key(FitnessLevel)), isEmail);
  }

  /** The form may be submitted exactly when every field rule holds. */
  lemma UserPasses(values: Values, isEmail: string -> bool)
    ensures ValidateUser(values, isEmail) == map[] <==>
              && TextOf(values, "name").Some? && 2 <= Utf16Length(TextOf(values, "name").value) <= 100
              && TextOf(values, "email").Some? && isEmail(TextOf(values, "email").value)
              && TextOf(values, "fitness_level").Some? && TextOf(values, "fitness_level").value in FitnessLevels
  {
    UserNameRule(values, isEmail);
    UserEmailRule(values, isEmail);
    UserFitnessLevelRule(values, isEmail);
  }

  /** The form's values before anything is loaded. */
  const DefaultValues: Values := map["name" := Str(""), "email" := Str(""), "fitness_level" := Str("Beginner")]

  /** The preselected fitness level is allowed; the empty name and e-mail
      are not. */
  lemma DefaultsAreIncomplete(isEmail: string -> bool)
    ensures ValidateUser(DefaultValues, isEmail).Keys == {Name, Email}
  {
    assert TextOf(DefaultValues, "fitness_level") == Some("Beginner");
    assert Missing(DefaultValues, "name") && Missing(DefaultValues, "email");
    UserNameRule(DefaultValues, isEmail);
    UserEmailRule(DefaultValues, isEmail);
    UserFitnessLevelRule(DefaultValues, isEmail);
  }

  /** The values `fetchUser` loads from a fetched record: exactly its name,
      e-mail and fitness level. `None` when the fetch or its body fails, or
      the body is null; the status is not checked. */
  function LoadedValues(response: Outcome): (values: Option<Values>)
    ensures values.None? <==> !(response.Response? && response.body.Parsed? && Readable(response.body.value))
    ensures values.Some? ==> values.value.Keys == {"name", "email", "fitness_level"}
    ensures values.Some? ==> forall k :: k in values.value ==> values.value[k] == OptionalProp(response.body.value, k)
  {
    if response.Response? && response.body.Parsed? then Pick(response.body.value, {"name", "email", "fitness_level"}) else None
  }

  /** Submitting the user form. */
  function SubmitUser(id: Option<string>, values: Values, isEmail: string -> bool, response: Outcome): (a: Attempt<Saved>)
    ensures a.Blocked? <==> ValidateUser(values, isEmail) != map[]
    ensures a.Submitted? ==> a.result == SaveOutcome(ApiUrl, "users", id, values, response)
  {
    SubmitForm(ValidateUser(values, isEmail), ApiUrl, "users", id, values, response)
  }

  /** The user form's state. */
  class UserFormPage {
    const id: Option<string>
    var initialValues: Values
    var submitting: bool

    constructor (id: Option<string>)
      ensures this.id == id && initialValues == DefaultValues && !submitting
    {
      this.id := id;
      initialValues := DefaultValues;
      submitting := false;
    }

    /** `fetchUser`, run on mount in edit mode only. */
    method FetchUser(response: Outcome) returns (request: Request)
      requires IsEdit(id)
      modifies this
      ensures request == LoadRequest(ApiUrl, "users", id.value)
      ensures initialValues == LoadedValues(response).GetOr(old(initialValues))
      ensures submitting == old(submitting)
    {
      request := LoadRequest(ApiUrl, "users", id.value);
      var loaded := LoadedValues(response);
      if loaded.Some? {
        initialValues := loaded.value;
      }
    }

    /** Submitting: validation, then `handleSubmit`, which always ends with
        `setSubmitting(false)`. */
    method Submit(values: Values, isEmail: string -> bool, response: Outcome) returns (a: Attempt<Saved>)
      modifies this
      ensures a == SubmitUser(id, values, isEmail, response)
      ensures !submitting && initialValues == old(initialValues)
    {
      submitting := true;
      a := SubmitUser(id, values, isEmail, response);
      submitting := false;
    }
  }
}
