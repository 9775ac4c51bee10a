/** The exercise create/edit form: its schema, its initial values, the record
    it loads when editing, and its submit. Requests go to the configured
    backend. */
module ExerciseForm {
  import opened Wrappers
  import opened Js
  import opened Http
  import opened Validation
  import opened FormSave

  const Categories: seq<string> := ["Bodyweight", "Weightlifting", "Cardio", "Flexibility"]
  const MuscleGroups: seq<string> := ["Chest", "Back", "Legs", "Arms", "Shoulders", "Core", "Full Body"]
  const Difficulties: seq<string> := ["Beginner", "Intermediate", "Advanced"]

  const ExerciseSchema: Schema := map[
    Name := TextRule(Some("Name is required"), None,
                     [MinLength(2, "Name must be at least 2 characters"),
                      MaxLength(100, "Name must be less than 100 characters")]),
    Category := TextRule(Some("Category is required"), Some(Choices(Categories, "Invalid category")), []),
    MuscleGroup := TextRule(Some("Muscle group is required"), Some(Choices(MuscleGroups, "Invalid muscle group")), []),
    Difficulty := TextRule(Some("Difficulty is required"), Some(Choices(Difficulties, "Invalid difficulty level")), []),
    Instructions := TextRule(Some("Instructions are required"), None,
                             [MinLength(10, "Instructions must be at least 10 characters")])
  ]

  /** The exercise rules: a name of 2 to 100 characters, a category, a muscle
      group and a difficulty from their lists, and instructions of at least
      10 characters. The lemmas below state each field's rule. */
  function ValidateExercise(values: Values): (errors: map<Field, Error>)
    ensures errors.Keys <= {Name, Category, MuscleGroup, Difficulty, Instructions}
  {
    Validate(ExerciseSchema, values, NoEmailRule)
  }

  /** The name passes exactly when it has 2 to 100 characters. */
  lemma ExerciseNameRule(values: Values)
    ensures Name !in ValidateExercise(values) <==>
              TextOf(values, "name").Some? && 2 <= Utf16Length(TextOf(values, "name").value) <= 100
    ensures Missing(values, "name") ==> ValidateExercise(values)[Name] == Required("Name is required")
  {
    var rule := ExerciseSchema[Name];
    assert rule == TextRule(Some("Name is required"), None,
                            [MinLength(2, "Name must be at least 2 characters"),
                             MaxLength(100, "Name must be less than 100 characters")]);
    ValidateAt(ExerciseSchema, values, NoEmailRule, Name);
    CheckMeaning(rule, ValueOf(values, "name"), NoEmailRule);
    TwoTextTests(rule.textTests, TextOf(values, "name").GetOr(""), NoEmailRule);
  }

  /** The category passes exactly when it is one of the four categories. */
  lemma ExerciseCategoryRule(values: Values)
    ensures Category !in ValidateExercise(values) <==>
              TextOf(values, "category").Some? && TextOf(values, "category").value in Categories
    ensures TextOf(values, "category").Some? && TextOf(values, "category").value !in Categories ==>
              ValidateExercise(values)[Category] == NotOneOf("Invalid category")
  {
    var rule := ExerciseSchema[Category];
    assert rule == TextRule(Some("Category is required"), Some(Choices(Categories, "Invalid category")), []);
    ValidateAt(ExerciseSchema, values, NoEmailRule, Category);
    CheckMeaning(rule, ValueOf(values, "category"), NoEmailRule);
  }

  /** The muscle group passes exactly when it is one of the seven groups. */
  lemma ExerciseMuscleGroupRule(values: Values)
    ensures MuscleGroup !in ValidateExercise(values) <==>
              TextOf(values, "muscle_group").Some? && TextOf(values, "muscle_group").value in MuscleGroups
    ensures TextOf(values, "muscle_group").Some? && TextOf(values, "muscle_group").value !in MuscleGroups ==>
              ValidateExercise(values)[MuscleGroup] == NotOneOf("Invalid muscle group")
  {
    var rule := ExerciseSchema[MuscleGroup];
    assert rule == TextRule(Some("Muscle group is required"), Some(Choices(MuscleGroups, "Invalid muscle group")), []);
    ValidateAt(ExerciseSchema, values, NoEmailRule, MuscleGroup);
    CheckMeaning(rule, ValueOf(values, "muscle_group"), NoEmailRule);
  }

  /** The difficulty passes exactly when it is Beginner, Intermediate or Advanced. */
  lemma ExerciseDifficultyRule(values: Values)
    ensures Difficulty !in ValidateExercise(values) <==>
              TextOf(values, "difficulty").Some? && TextOf(values, "difficulty").value in Difficulties
    ensures TextOf(values, "difficulty").Some? && TextOf(values, "difficulty").value !in Difficulties ==>
              ValidateExercise(values)[Difficulty] == NotOneOf("Invalid difficulty level")
  {
    var rule := ExerciseSchema[Difficulty];
    assert rule == TextRule(Some("Difficulty is required"), Some(Choices(Difficulties, "Invalid difficulty level")), []);
    ValidateAt(ExerciseSchema, values, NoEmailRule, Difficulty);
    CheckMeaning(rule, ValueOf(values, "difficulty"), NoEmailRule);
  }

  /** The instructions pass exactly when they have at least 10 characters;
      there is no upper bound. */
  lemma ExerciseInstructionsRule(values: Values)
    ensures Instructions !in ValidateExercise(values) <==>
              TextOf(values, "instructions").Some? && Utf16Length(TextOf(values, "instructions").value) >= 10
    ensures TextOf(values, "instructions").Some? && Utf16Length(TextOf(values, "instructions").value) < 10 ==>
              ValidateExercise(values)[Instructions] == TooShort("Instructions must be at least 10 characters")
    ensures Missing(values, "instructions") ==>
              ValidateExercise(values)[Instructions] == Required("Instructions are required")
  {
    var rule := ExerciseSchema[Instructions];
    assert rule == TextRule(Some("Instructions are required"), None,
                            [MinLength(10, "Instructions must be at least 10 characters")]);
    ValidateAt(ExerciseSchema, values, NoEmailRule, Instructions);
    CheckMeaning(rule, ValueOf(values, "instructions"), NoEmailRule);
    var text := TextOf(values, "instructions");
    if text.Some? {
      assert (forall i :: 0 <= i < |rule.textTests| ==> TextPasses(rule.textTests[i], text.value, NoEmailRule))
             <==> Utf16Length(text.value) >= 10 by {
        assert rule.textTests[0] == MinLength(10, "Instructions must be at least 10 characters");
      }
    }
  }

  /** The form may be submitted exactly when every field rule holds. */
  lemma ExercisePasses(values: Values)
    ensures ValidateExercise(values) == map[] <==>
              && TextOf(values, "name").Some? && 2 <= Utf16Length(TextOf(values, "name").value) <= 100
              && TextOf(values, "category").Some? && TextOf(values, "category").value in Categories
              && TextOf(values, "muscle_group").Some? && TextOf(values, "muscle_group").value in MuscleGroups
              && TextOf(values, "difficulty").Some? && TextOf(values, "difficulty").value in Difficulties
              && TextOf(values, "instructions").Some? && Utf16Length(TextOf(values, "instructions").value) >= 10
  {
    var errors := ValidateExercise(values);
    var name := TextOf(values, "name");
    var category := TextOf(values, "category");
    var muscleGroup := TextOf(values, "muscle_group");
    var difficulty := TextOf(values, "difficulty");
    var instructions := TextOf(values, "instructions");
    ExerciseNameRule(values);
    ExerciseCategoryRule(values);
    ExerciseMuscleGroupRule(values);
    ExerciseDifficultyRule(values);
    ExerciseInstructionsRule(values);
    if name.Some? && 2 <= Utf16Length(name.value) <= 100
       && category.Some? && category.value in Categories
       && muscleGroup.Some? && muscleGroup.value in MuscleGroups
       && difficulty.Some? && difficulty.value in Difficulties
       && instructions.Some? && Utf16Length(instructions.value) >= 10 {
      assert Name !in errors && Category !in errors && MuscleGroup !in errors;
      assert Difficulty !in errors && Instructions !in errors;
      assert errors.Keys == {};
    }
  }

  /** The form's values before anything is loaded. */
  const DefaultValues: Values := map["name" := Str(""), "category" := Str("Bodyweight"),
                                     "muscle_group" := Str("Chest"), "difficulty" := Str("Beginner"),
                                     "instructions" := Str("")]

  /** With every option allowed, an empty name and empty instructions are
      exactly the two errors. */
  lemma EmptyTextRejected(values: Values)
    requires Missing(values, "name") && Missing(values, "instructions")
    requires TextOf(values, "category").Some? && TextOf(values, "category").value in Categories
    requires TextOf(values, "muscle_group").Some? && TextOf(values, "muscle_group").value in MuscleGroups
    requires TextOf(values, "difficulty").Some? && TextOf(values, "difficulty").value in Difficulties
    ensures ValidateExercise(values).Keys == {Name, Instructions}
  {
    ExerciseNameRule(values);
    ExerciseCategoryRule(values);
    ExerciseMuscleGroupRule(values);
    ExerciseDifficultyRule(values);
    ExerciseInstructionsRule(values);
  }

  /** The preselected options are allowed; the empty name and instructions
      are not. */
  lemma DefaultsAreIncomplete()
    ensures ValidateExercise(DefaultValues).Keys == {Name, Instructions}
  {
    assert TextOf(DefaultValues, "category") == Some("Bodyweight");
    assert TextOf(DefaultValues, "muscle_group") == Some("Chest");
    assert TextOf(DefaultValues, "difficulty") == Some("Beginner");
    EmptyTextRejected(DefaultValues);
  }

  /** Instructions "short" are rejected for their length. */
  lemma ShortInstructionsRejected(values: Values)
    requires ValueOf(values, "instructions") == Str("short")
    ensures ValidateExercise(values)[Instructions] == TooShort("Instructions must be at least 10 characters")
  {
    assert TextOf(values, "instructions") == Some("short");
    ExerciseInstructionsRule(values);
  }

  /** The values `fetchExercise` loads from a fetched record; `None` when the
      fetch or its body fails, or the body is null. The status is not
      checked, so an error body gives `undefined` fields. */
  function LoadedValues(response: Outcome): (values: Option<Values>)
    ensures values.None? <==> !(response.Response? && response.body.Parsed? && Readable(response.body.value))
    ensures values.Some? ==> values.value.Keys == {"name", "category", "muscle_group", "difficulty", "instructions"}
    ensures values.Some? ==> forall k :: k in values.value ==> values.value[k] == OptionalProp(response.body.value, k)
  {
    if response.Response? && response.body.Parsed? then Pick(response.body.value, {"name", "category", "muscle_group", "difficulty", "instructions"}) else None
  }

  /** Submitting the exercise form. */
  function SubmitExercise(id: Option<string>, values: Values, response: Outcome): (a: Attempt<Saved>)
    ensures a.Blocked? <==> ValidateExercise(values) != map[]
    ensures a.Submitted? ==> a.result == SaveOutcome(ApiUrl, "exercises", id, values, response)
  {
    SubmitForm(ValidateExercise(values), ApiUrl, "exercises", id, values, response)
  }

  /** The exercise form's state. */
  class ExerciseFormPage {
    const id: Option<string>
    var initialValues: Values
    var submitting: bool

    constructor (id: Option<string>)
      ensures this.id == id && initialValues == DefaultValues && !submitting
    {
      this.id := id;
      initialValues := DefaultValues;
      submitting := false;
    }

    /** `fetchExercise`, run on mount in edit mode only. */
    method FetchExercise(response: Outcome) returns (request: Request)
      requires IsEdit(id)
      modifies this
      ensures request == LoadRequest(ApiUrl, "exercises", id.value)
      ensures initialValues == LoadedValues(response).GetOr(old(initialValues))
      ensures submitting == old(submitting)
    {
      request := LoadRequest(ApiUrl, "exercises", id.value);
      var loaded := LoadedValues(response);
      if loaded.Some? {
        initialValues := loaded.value;
      }
    }

    /** Submitting: validation, then `handleSubmit`, which always ends with
        `setSubmitting(false)`. */
    method Submit(values: Values, response: Outcome) returns (a: Attempt<Saved>)
      modifies this
      ensures a == SubmitExercise(id, values, response)
      ensures !submitting && initialValues == old(initialValues)
    {
      submitting := true;
      a := SubmitExercise(id, values, response);
      submitting := false;
    }
  }
}
