/** The declarative form validation the client uses: a schema gives each
    field a rule (required, string length, numeric range, e-mail format,
    membership in a list of options) and validation maps each failing field
    to the message of the first rule it breaks. Before the rules run, the
    form library replaces every empty string by `undefined`, so an empty
    field always reports its "required" message. */
module Validation {
  import opened Wrappers
  import opened Js

  /** The form fields of all schemas. */
  datatype Field =
    | Name | Email | FitnessLevel
    | Description | Duration | UserId
    | Category | MuscleGroup | Difficulty | Instructions

  /** The property under which a field is held in the form values. */
  function Key(f: Field): string {
    match f
    case Name => "name"
    case Email => "email"
    case FitnessLevel => "fitness_level"
    case Description => "description"
    case Duration => "duration"
    case UserId => "user_id"
    case Category => "category"
    case MuscleGroup => "muscle_group"
    case Difficulty => "difficulty"
    case Instructions => "instructions"
  }

  /** A field's validation error. The first five carry the schema's own
      message; the type and null errors carry the library's default one,
      which the schemas do not set and which is not modelled. */
  datatype Error =
    | Required(message: string)
    | NotOneOf(message: string)
    | TooShort(message: string)
    | TooLong(message: string)
    | NotEmail(message: string)
    | TooSmall(message: string)
    | TooLarge(message: string)
    | NotOfType(expected: string)
    | NotNull

  /** The tests of a string rule, run in the order they are declared. Both
      bounds are inclusive: `MaxLength(100, …)` accepts 100 characters.
      Lengths are `Utf16Length`, JavaScript's count of UTF-16 code units. */
  datatype TextTest =
    | MinLength(min: nat, message: string)
    | MaxLength(max: nat, message: string)
    | EmailFormat(message: string)

  /** The tests of a number rule; both bounds are inclusive. */
  datatype NumberTest =
    | AtLeast(min: int, message: string)
    | AtMost(max: int, message: string)

  /** `oneOf([...], message)`. */
  datatype Choices = Choices(options: seq<string>, message: string)

  /** A field rule: `required` carries the required message when the field is
      required. */
  datatype Rule =
    | TextRule(required: Option<string>, choices: Option<Choices>, textTests: seq<TextTest>)
    | NumberRule(required: Option<string>, numberTests: seq<NumberTest>)

  type Schema = map<Field, Rule>
  type Values = map<string, Json>

  /** `values[key]`, `undefined` when absent. */
  function ValueOf(values: Values, key: string): Json {
    if key in values then values[key] else Undefined
  }

  /** The form library's preparation: `''` becomes `undefined`. */
  function Prepared(v: Json): Json {
    if v == Str("") then Undefined else v
  }

  /** The prepared value of a field is `undefined` (absent or empty). */
  predicate Missing(values: Values, key: string) {
    Prepared(ValueOf(values, key)).Undefined?
  }

  /** The string cast of a present value: strings as they are, numbers and
      booleans as their text; `None` is a type error. */
  function TextCast(v: Json): Option<string> {
    match v
    case Str(s) => Some(s)
    case Num(_) => Some(ToText(v))
    case Bool(_) => Some(ToText(v))
    case _ => None
  }

  /** The number cast of a present value: numbers as they are, strings by
      `Number(s)`; `None` is NaN, a type error. */
  function NumberCast(v: Json): Option<int> {
    match v
    case Num(n) => Some(n)
    case Str(s) => ParseInt(s)
    case _ => None
  }

  /** The text a string rule checks for a field: present, not null, and
      castable to a string. */
  function TextOf(values: Values, key: string): (t: Option<string>)
    ensures t.Some? ==> t.value != ""
  {
    TextValue(ValueOf(values, key))
  }

  function TextValue(v: Json): Option<string> {
    var p := Prepared(v);
    if p.Undefined? || p.Null? then None else TextCast(p)
  }

  /** The number a number rule checks for a field: present, not null, and
      castable to a number. */
  function NumberOf(values: Values, key: string): Option<int> {
    NumberValue(ValueOf(values, key))
  }

  function NumberValue(v: Json): Option<int> {
    var p := Prepared(v);
    if p.Undefined? || p.Null? then None else NumberCast(p)
  }

  predicate TextPasses(t: TextTest, s: string, isEmail: string -> bool) {
    match t
    case MinLength(min, _) => Utf16Length(s) >= min
    case MaxLength(max, _) => Utf16Length(s) <= max
    case EmailFormat(_) => s == "" || isEmail(s)
  }

  function TextTestError(t: TextTest): Error {
    match t
    case MinLength(_, m) => TooShort(m)
    case MaxLength(_, m) => TooLong(m)
    case EmailFormat(m) => NotEmail(m)
  }

  predicate NumberPasses(t: NumberTest, n: int) {
    match t
    case AtLeast(min, _) => n >= min
    case AtMost(max, _) => n <= max
  }

  function NumberTestError(t: NumberTest): Error {
    match t
    case AtLeast(_, m) => TooSmall(m)
    case AtMost(_, m) => TooLarge(m)
  }

  /** The error of the first string test `s` fails, if any. */
  function FirstTextFailure(tests: seq<TextTest>, s: string, isEmail: string -> bool): (r: Option<Error>)
    ensures r.None? <==> forall i :: 0 <= i < |tests| ==> TextPasses(tests[i], s, isEmail)
    ensures r.Some? ==> exists i :: 0 <= i < |tests| && !TextPasses(tests[i], s, isEmail)
                          && r.value == TextTestError(tests[i])
                          && forall j :: 0 <= j < i ==> TextPasses(tests[j], s, isEmail)
  {
    if |tests| == 0 then None
    else if !TextPasses(tests[0], s, isEmail) then Some(TextTestError(tests[0]))
    else
      var r := FirstTextFailure(tests[1..], s, isEmail);
      assert r.Some? ==> exists i :: 1 <= i < |tests| && !TextPasses(tests[i], s, isEmail)
                          && r.value == TextTestError(tests[i])
                          && forall j :: 0 <= j < i ==> TextPasses(tests[j], s, isEmail) by {
        if r.Some? {
          var k :| 0 <= k < |tests| - 1 && !TextPasses(tests[1..][k], s, isEmail)
                   && r.value == TextTestError(tests[1..][k])
                   && forall j :: 0 <= j < k ==> TextPasses(tests[1..][j], s, isEmail);
          assert forall j :: 1 <= j < k + 1 ==> TextPasses(tests[j], s, isEmail) by {
            forall j | 1 <= j < k + 1 ensures TextPasses(tests[j], s, isEmail) {
              assert tests[j] == tests[1..][j - 1];
            }
          }
        }
      }
      assert r.None? ==> forall i :: 0 <= i < |tests| ==> TextPasses(tests[i], s, isEmail) by {
        if r.None? {
          forall i | 0 <= i < |tests| ensures TextPasses(tests[i], s, isEmail) {
            if i > 0 { assert tests[i] == tests[1..][i - 1]; }
          }
        }
      }
      r
  }

  /** The error of the first number test `n` fails, if any. */
  function FirstNumberFailure(tests: seq<NumberTest>, n: int): (r: Option<Error>)
    ensures r.None? <==> forall i :: 0 <= i < |tests| ==> NumberPasses(tests[i], n)
    ensures r.Some? ==> exists i :: 0 <= i < |tests| && !NumberPasses(tests[i], n)
                          && r.value == NumberTestError(tests[i])
                          && forall j :: 0 <= j < i ==> NumberPasses(tests[j], n)
  {
    if |tests| == 0 then None
    else if !NumberPasses(tests[0], n) then Some(NumberTestError(tests[0]))
    else
      var r := FirstNumberFailure(tests[1..], n);
      assert r.Some? ==> exists i :: 1 <= i < |tests| && !NumberPasses(tests[i], n)
                          && r.value == NumberTestError(tests[i])
                          && forall j :: 0 <= j < i ==> NumberPasses(tests[j], n) by {
        if r.Some? {
          var k :| 0 <= k < |tests| - 1 && !NumberPasses(tests[1..][k], n)
                   && r.value == NumberTestError(tests[1..][k])
                   && forall j :: 0 <= j < k ==> NumberPasses(tests[1..][j], n);
          assert forall j :: 1 <= j < k + 1 ==> NumberPasses(tests[j], n) by {
            forall j | 1 <= j < k + 1 ensures NumberPasses(tests[j], n) {
              assert tests[j] == tests[1..][j - 1];
            }
          }
        }
      }
      assert r.None? ==> forall i :: 0 <= i < |tests| ==> NumberPasses(tests[i], n) by {
        if r.None? {
          forall i | 0 <= i < |tests| ensures NumberPasses(tests[i], n) {
            if i > 0 { assert tests[i] == tests[1..][i - 1]; }
          }
        }
      }
      r
  }

  /** The error of one field under its rule. A missing or null value breaks
      the required rule first; otherwise a value that cannot be cast is a
      type error, then the options are checked, then the tests in order.
      `CheckMeaning` states what it decides. */
  function Check(rule: Rule, v: Json, isEmail: string -> bool): Option<Error>
  {
    var p := Prepared(v);
    if p.Undefined? || p.Null? then
      if rule.required.Some? then Some(Required(rule.required.value))
      else if p.Null? then Some(NotNull)
      else None
    else
      match rule
      case TextRule(_, choices, tests) =>
        (match TextCast(p)
         case None => Some(NotOfType("string"))
         case Some(s) =>
           if choices.Some? && s !in choices.value.options then Some(NotOneOf(choices.value.message))
           else FirstTextFailure(tests, s, isEmail))
      case NumberRule(_, tests) =>
        (match NumberCast(p)
         case None => Some(NotOfType("number"))
         case Some(n) => FirstNumberFailure(tests, n))
  }

  /** A field passes its rule exactly when it is absent from an optional
      rule, or present, castable, among the options and passing every test. */
  lemma CheckMeaning(rule: Rule, v: Json, isEmail: string -> bool)
    ensures Prepared(v).Undefined? ==>
              Check(rule, v, isEmail) == if rule.required.Some? then Some(Required(rule.required.value)) else None
    ensures rule.TextRule? && TextValue(v).None? ==>
              (Check(rule, v, isEmail).None? <==> Prepared(v).Undefined? && rule.required.None?)
    ensures rule.TextRule? && TextValue(v).Some? ==>
              (Check(rule, v, isEmail).None? <==>
                 && (rule.choices.None? || TextValue(v).value in rule.choices.value.options)
                 && forall i :: 0 <= i < |rule.textTests| ==> TextPasses(rule.textTests[i], TextValue(v).value, isEmail))
    ensures rule.NumberRule? && NumberValue(v).None? ==>
              (Check(rule, v, isEmail).None? <==> Prepared(v).Undefined? && rule.required.None?)
    ensures rule.NumberRule? && NumberValue(v).Some? ==>
              (Check(rule, v, isEmail).None? <==> forall i :: 0 <= i < |rule.numberTests| ==> NumberPasses(rule.numberTests[i], NumberValue(v).value))
  {
  }

  /** Validation of a whole form: every field of the schema that breaks its
      rule, with its first error. Fields outside the schema are ignored. */
  function Validate(schema: Schema, values: Values, isEmail: string -> bool): (errors: map<Field, Error>)
    ensures errors.Keys <= schema.Keys
  {
    map f | f in schema && Check(schema[f], ValueOf(values, Key(f)), isEmail).Some? ::
      Check(schema[f], ValueOf(values, Key(f)), isEmail).value
  }

  /** One field's entry in a validation result is its rule's error. */
  lemma ValidateAt(schema: Schema, values: Values, isEmail: string -> bool, f: Field)
    requires f in schema
    ensures f in Validate(schema, values, isEmail) <==> Check(schema[f], ValueOf(values, Key(f)), isEmail).Some?
    ensures f in Validate(schema, values, isEmail) ==>
              Some(Validate(schema, values, isEmail)[f]) == Check(schema[f], ValueOf(values, Key(f)), isEmail)
  {
  }

  /** The e-mail predicate handed to schemas that have no e-mail rule. */
  const NoEmailRule: string -> bool := s => true

  /** A rule with two tests passes exactly when both do. */
  lemma TwoTextTests(tests: seq<TextTest>, s: string, isEmail: string -> bool)
    requires |tests| == 2
    ensures (forall i :: 0 <= i < |tests| ==> TextPasses(tests[i], s, isEmail))
            <==> TextPasses(tests[0], s, isEmail) && TextPasses(tests[1], s, isEmail)
  {
    if TextPasses(tests[0], s, isEmail) && TextPasses(tests[1], s, isEmail) {
      forall i | 0 <= i < |tests| ensures TextPasses(tests[i], s, isEmail) {
        if i == 1 { }
      }
    }
  }

  lemma TwoNumberTests(tests: seq<NumberTest>, n: int)
    requires |tests| == 2
    ensures (forall i :: 0 <= i < |tests| ==> NumberPasses(tests[i], n))
            <==> NumberPasses(tests[0], n) && NumberPasses(tests[1], n)
  {
    if NumberPasses(tests[0], n) && NumberPasses(tests[1], n) {
      forall i | 0 <= i < |tests| ensures NumberPasses(tests[i], n) {
        if i == 1 { }
      }
    }
  }

  /** The outcome of submitting a form: blocked by validation errors (the
      submit handler is not called), or handed to the submit handler. */
  datatype Attempt<T> = Blocked(errors: map<Field, Error>) | Submitted(result: T)
}
