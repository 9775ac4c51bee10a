/** The workout create/edit form: its schema, its initial values, the owner
    list it loads, the record it loads when editing, and its submit. */
module WorkoutForm {
  import opened Wrappers
  import opened Js
  import opened Http
  import opened Validation
  import opened FormSave

  const WorkoutSchema: Schema := map[
    Name := TextRule(Some("Name is required"), None,
                     [MinLength(2, "Name must be at least 2 characters"),
                      MaxLength(100, "Name must be less than 100 characters")]),
    Description := TextRule(None, None, [MaxLength(500, "Description must be less than 500 characters")]),
    Duration := NumberRule(Some("Duration is required"),
                           [AtLeast(5, "Duration must be at least 5 minutes"),
                            AtMost(300, "Duration must be less than 300 minutes")]),
    UserId := NumberRule(Some("User is required"), [])
  ]

  /** The workout rules: a name of 2 to 100 characters, an optional
      description of at most 500, a duration from 5 to 300 minutes and an
      owner id that is a number; all bounds inclusive. The lemmas below
      state each field's rule. */
  function ValidateWorkout(values: Values): (errors: map<Field, Error>)
    ensures errors.Keys <= {Name, Description, Duration, UserId}
  {
    Validate(WorkoutSchema, values, NoEmailRule)
  }

  /** The name passes exactly when it has 2 to 100 characters: 100 passes. */
  lemma WorkoutNameRule(values: Values)
    ensures Name !in ValidateWorkout(values) <==>
              TextOf(values, "name").Some? && 2 <= Utf16Length(TextOf(values, "name").value) <= 100
    ensures Missing(values, "name") ==> ValidateWorkout(values)[Name] == Required("Name is required")
  {
    var rule := WorkoutSchema[Name];
    assert rule == TextRule(Some("Name is required"), None,
                            [MinLength(2, "Name must be at least 2 characters"),
                             MaxLength(100, "Name must be less than 100 characters")]);
    ValidateAt(WorkoutSchema, values, NoEmailRule, Name);
    CheckMeaning(rule, ValueOf(values, "name"), NoEmailRule);
    TwoTextTests(rule.textTests, TextOf(values, "name").GetOr(""), NoEmailRule);
  }

  /** The description may be left empty; otherwise it has at most 500 characters. */
  lemma WorkoutDescriptionRule(values: Values)
    ensures Description !in ValidateWorkout(values) <==>
              Missing(values, "description")
              || (TextOf(values, "description").Some? && Utf16Length(TextOf(values, "description").value) <= 500)
  {
    ValidateAt(WorkoutSchema, values, NoEmailRule, Description);
    CheckMeaning(WorkoutSchema[Description], ValueOf(values, Key(Description)), NoEmailRule);
  }

  /** The duration passes exactly when it is a number from 5 to 300: 4 fails,
      5 and 300 pass. */
  lemma WorkoutDurationRule(values: Values)
    ensures Duration !in ValidateWorkout(values) <==>
              NumberOf(values, "duration").Some? && 5 <= NumberOf(values, "duration").value <= 300
    ensures NumberOf(values, "duration").Some? && NumberOf(values, "duration").value < 5 ==>
              ValidateWorkout(values)[Duration] == TooSmall("Duration must be at least 5 minutes")
    ensures NumberOf(values, "duration").Some? && NumberOf(values, "duration").value > 300 ==>
              ValidateWorkout(values)[Duration] == TooLarge("Duration must be less than 300 minutes")
  {
    ValidateAt(WorkoutSchema, values, NoEmailRule, Duration);
    CheckMeaning(WorkoutSchema[Duration], ValueOf(values, Key(Duration)), NoEmailRule);
    TwoNumberTests(WorkoutSchema[Duration].numberTests, NumberOf(values, "duration").GetOr(0));
  }

  /** The owner passes exactly when it is a number; empty gives "User is required". */
  lemma WorkoutOwnerRule(values: Values)
    ensures UserId !in ValidateWorkout(values) <==> NumberOf(values, "user_id").Some?
    ensures Missing(values, "user_id") ==> ValidateWorkout(values)[UserId] == Required("User is required")
  {
    ValidateAt(WorkoutSchema, values, NoEmailRule, UserId);
    CheckMeaning(WorkoutSchema[UserId], ValueOf(values, Key(UserId)), NoEmailRule);
  }

  /** The form's values before anything is loaded. */
  const DefaultValues: Values := map["name" := Str(""), "description" := Str(""), "duration" := Num(30), "user_id" := Str("")]

  /** `x > 0` for the value of `data.length`: a number is compared as it
      is, a boolean as 0 or 1, text and arrays through their numeric
      reading; `null`, `undefined` and objects are never above 0. */
  predicate AboveZero(x: Json) {
    match x
    case Num(n) => n > 0
    case Bool(b) => b
    case Str(s) => ParseInt(s).Some? && ParseInt(s).value > 0
    case Arr(_) => ParseInt(ToText(x)).Some? && ParseInt(ToText(x)).value > 0
    case _ => false
  }

  /** The owner that `fetchUsers` writes into `user_id`, or `None` when it
      leaves the values alone. The response status is not checked: any
      parsed body counts. Only in create mode, and only when `data.length > 0`;
      `data[0].id` is then read, from the first element of an array, from
      the property "0" of an object, or from the first character of a
      string (which has no `id`). Reading `data.length` of null, or `id` of
      a null or missing first element, throws. */
  function DefaultOwner(isEdit: bool, response: Outcome): (owner: Option<Json>)
    ensures isEdit ==> owner.None?
    ensures owner.Some? ==> response.Response? && response.body.Parsed?
    ensures !isEdit && response.Response? && response.body.Parsed? && response.body.value.Arr?
            && |response.body.value.items| > 0 && Readable(response.body.value.items[0])
            ==> owner == Some(OptionalProp(response.body.value.items[0], "id"))
    ensures response.Response? && response.body.Parsed? && response.body.value == Arr([]) ==> owner.None?
    // An array-like object: a `length` above 0 and the first element under "0".
    ensures !isEdit && response.Response? && response.body.Parsed? && response.body.value.Obj?
            ==> owner == if AboveZero(OptionalProp(response.body.value, "length"))
                         then Prop(OptionalProp(response.body.value, "0"), "id") else None
    ensures response.Response? && response.body.Parsed?
            && (response.body.value.Num? || response.body.value.Bool? || !Readable(response.body.value))
            ==> owner.None?
    ensures response.Thrown? ==> owner.None?
  {
    if isEdit then None
    else match response
      case Thrown(_) => None
      case Response(_, Unparseable(_)) => None
      case Response(_, Parsed(data)) =>
        match data
        case Arr(items) => if |items| == 0 then None else Prop(items[0], "id")
        case Str(s) => if |s| > 0 then Some(Undefined) else None
        case Obj(fields) =>
          if AboveZero(OptionalProp(data, "length")) then Prop(OptionalProp(data, "0"), "id") else None
        case _ => None
  }

  /** An array-like body `{"length": 1, "0": {"id": 7}}` preselects owner 7. */
  lemma ArrayLikeBodyOwner(status: int)
    ensures DefaultOwner(false, Response(status, Parsed(Obj(map["length" := Num(1), "0" := Obj(map["id" := Num(7)])]))))
            == Some(Num(7))
  {
    var data := Obj(map["length" := Num(1), "0" := Obj(map["id" := Num(7)])]);
    assert OptionalProp(data, "length") == Num(1);
    assert OptionalProp(data, "0") == Obj(map["id" := Num(7)]);
  }

  /** The users list that `fetchUsers` stores: any parsed body. */
  function LoadedUsers(previous: Json, response: Outcome): Json {
    if response.Response? && response.body.Parsed? then response.body.value else previous
  }

  /** The values `fetchWorkout` loads from a fetched record; `None` when the
      fetch or its body fails, or the body is null. The status is not checked,
      so an error body gives `undefined` fields. A falsy description
      (missing, null, empty) becomes `''`. */
  function LoadedValues(response: Outcome): (values: Option<Values>)
    ensures values.None? <==> !(response.Response? && response.body.Parsed? && Readable(response.body.value))
    ensures values.Some? ==> values.value.Keys == {"name", "description", "duration", "user_id"}
    ensures values.Some? ==>
              var w := response.body.value;
              && values.value["name"] == OptionalProp(w, "name")
              && values.value["duration"] == OptionalProp(w, "duration")
              && values.value["user_id"] == OptionalProp(w, "user_id")
              && (Truthy(OptionalProp(w, "description")) ==> values.value["description"] == OptionalProp(w, "description"))
              && (!Truthy(OptionalProp(w, "description")) ==> values.value["description"] == Str(""))
  {
    if response.Response? && response.body.Parsed? then
      var w := response.body.value;
      match Pick(w, {"name", "description", "duration", "user_id"})
      case None => None
      case Some(record) => Some(record["description" := Or(OptionalProp(w, "description"), Str(""))])
    else None
  }

  /** Submitting the workout form. */
  function SubmitWorkout(id: Option<string>, values: Values, response: Outcome): (a: Attempt<Saved>)
    ensures a.Blocked? <==> ValidateWorkout(values) != map[]
    ensures a.Submitted? ==> a.result == SaveOutcome(LocalServer, "workouts", id, values, response)
  {
    SubmitForm(ValidateWorkout(values), LocalServer, "workouts", id, values, response)
  }

  /** The form may be submitted exactly when every field rule holds. */
  lemma WorkoutPasses(values: Values)
    ensures ValidateWorkout(values) == map[] <==>
              && TextOf(values, "name").Some? && 2 <= Utf16Length(TextOf(values, "name").value) <= 100
              && (Missing(values, "description")
                  || (TextOf(values, "description").Some? && Utf16Length(TextOf(values, "description").value) <= 500))
              && NumberOf(values, "duration").Some? && 5 <= NumberOf(values, "duration").value <= 300
              && NumberOf(values, "user_id").Some?
  {
    WorkoutNameRule(values);
    WorkoutDescriptionRule(values);
    WorkoutDurationRule(values);
    WorkoutOwnerRule(values);
  }

  /** With a valid duration, an empty name and an empty owner are exactly
      the two errors. */
  lemma EmptyNameAndOwnerRejected(values: Values)
    requires Missing(values, "name") && Missing(values, "description") && Missing(values, "user_id")
    requires NumberOf(values, "duration").Some? && 5 <= NumberOf(values, "duration").value <= 300
    ensures ValidateWorkout(values).Keys == {Name, UserId}
  {
    WorkoutNameRule(values);
    WorkoutDescriptionRule(values);
    WorkoutDurationRule(values);
    WorkoutOwnerRule(values);
  }

  /** Fresh values do not pass: the name and the owner are empty. */
  lemma DefaultsAreIncomplete()
    ensures ValidateWorkout(DefaultValues).Keys == {Name, UserId}
  {
    assert NumberOf(DefaultValues, "duration") == Some(30);
    EmptyNameAndOwnerRejected(DefaultValues);
  }

  /** A valid workout that is too short is rejected for its duration alone. */
  lemma OnlyDurationTooShort(values: Values)
    requires TextOf(values, "name").Some? && 2 <= Utf16Length(TextOf(values, "name").value) <= 100
    requires Missing(values, "description")
    requires NumberOf(values, "user_id").Some?
    requires NumberOf(values, "duration").Some? && NumberOf(values, "duration").value < 5
    ensures ValidateWorkout(values) == map[Duration := TooSmall("Duration must be at least 5 minutes")]
  {
    WorkoutNameRule(values);
    WorkoutDescriptionRule(values);
    WorkoutDurationRule(values);
    WorkoutOwnerRule(values);
  }

  /** A "Leg Day" workout of 4 minutes for user 3. */
  lemma FourMinutesRejected()
    ensures var values := map["name" := Str("Leg Day"), "duration" := Num(4), "user_id" := Num(3)];
            ValidateWorkout(values) == map[Duration := TooSmall("Duration must be at least 5 minutes")]
  {
    var values := map["name" := Str("Leg Day"), "duration" := Num(4), "user_id" := Num(3)];
    assert TextOf(values, "name") == Some("Leg Day");
    assert Missing(values, "description");
    assert NumberOf(values, "user_id") == Some(3);
    assert NumberOf(values, "duration") == Some(4);
    OnlyDurationTooShort(values);
  }

  /** The owner select renders each user id as text (`value={user.id}`);
      picking a user gives an owner id that passes validation as that number. */
  lemma SelectedOwnerPasses(values: Values, userId: int)
    ensures NumberOf(values["user_id" := Str(ToText(Num(userId)))], "user_id") == Some(userId)
    ensures UserId !in ValidateWorkout(values["user_id" := Str(ToText(Num(userId)))])
  {
    DecimalRoundTrip(userId);
    WorkoutOwnerRule(values["user_id" := Str(ToText(Num(userId)))]);
  }

  /** The workout form's state. */
  class WorkoutFormPage {
    const id: Option<string>
    var users: Json
    var initialValues: Values
    var submitting: bool

    constructor (id: Option<string>)
      ensures this.id == id && users == Arr([]) && initialValues == DefaultValues && !submitting
    {
      this.id := id;
      users := Arr([]);
      initialValues := DefaultValues;
      submitting := false;
    }

    /** `fetchUsers`, run on mount in both modes. */
    method FetchUsers(response: Outcome) returns (request: Request)
      modifies this
      ensures request == Read(LocalServer, "/users", false)
      ensures users == LoadedUsers(old(users), response)
      ensures initialValues == match DefaultOwner(IsEdit(id), response)
                               case Some(owner) => old(initialValues)["user_id" := owner]
                               case None => old(initialValues)
      ensures submitting == old(submitting)
    {
      request := Read(LocalServer, "/users", false);
      users := LoadedUsers(users, response);
      var owner := DefaultOwner(IsEdit(id), response);
      if owner.Some? {
        initialValues := initialValues["user_id" := owner.value];
      }
    }

    /** `fetchWorkout`, run on mount in edit mode only. */
    method FetchWorkout(response: Outcome) returns (request: Request)
      requires IsEdit(id)
      modifies this
      ensures request == LoadRequest(LocalServer, "workouts", id.value)
      ensures initialValues == LoadedValues(response).GetOr(old(initialValues))
      ensures users == old(users) && submitting == old(submitting)
    {
      request := LoadRequest(LocalServer, "workouts", id.value);
      var loaded := LoadedValues(response);
      if loaded.Some? {
        initialValues := loaded.value;
      }
    }

    /** Submitting: validation, then `handleSubmit`, which always ends with
        `setSubmitting(false)`. */
    method Submit(values: Values, response: Outcome) returns (a: Attempt<Saved>)
      modifies this
      ensures a == SubmitWorkout(id, values, response)
      ensures !submitting && users == old(users) && initialValues == old(initialValues)
    {
      submitting := true;
      a := SubmitWorkout(id, values, response);
      submitting := false;
    }
  }
}
