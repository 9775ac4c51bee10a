/** The exercises list page: the shared list state over `/exercises`, and
    "Add to My Profile", which posts a new exercise record for the signed-in
    user every time, with no duplicate check. */
module ExercisesPage {
  import opened Wrappers
  import opened Js
  import opened Http
  import opened Lists

  const Collection := "exercises"

  /** The page on mount, before its fetch. */
  method NewPage() returns (page: ListPage)
    ensures fresh(page) && page.collection == Collection && page.items == [] && page.loading
  {
    page := new ListPage(Collection);
  }

  /** The headers of the POST: always the JSON content type, and a bearer
      authorization exactly when a stored token is non-empty.
      `token` is `localStorage.getItem('token')`, `None` for `null`. */
  function ProfileHeaders(token: Option<string>): (headers: map<string, string>)
    ensures "Content-Type" in headers && headers["Content-Type"] == "application/json"
    ensures "Authorization" in headers <==> token.Some? && token.value != ""
    ensures "Authorization" in headers ==> headers["Authorization"] == "Bearer " + token.value
    ensures headers.Keys <= {"Content-Type", "Authorization"}
  {
    match token
    case Some(t) => if t != "" then JsonHeaders["Authorization" := "Bearer " + t] else JsonHeaders
    case None => JsonHeaders
  }

  /** The JSON body of the new profile record: the exercise (dropped by
      `JSON.stringify` when undefined), a personal record of 0 and a fixed
      note. */
  function ProfileRecord(exerciseId: Json): (body: Json)
    ensures body.Obj? && body.fields.Keys <= {"exercise_id", "personal_record", "notes"}
    ensures "personal_record" in body.fields && body.fields["personal_record"] == Num(0)
    ensures "notes" in body.fields && body.fields["notes"] == Str("Added to my profile")
    ensures "exercise_id" in body.fields <==> exerciseId != Undefined
    ensures "exercise_id" in body.fields ==> body.fields["exercise_id"] == exerciseId
  {
    Serialized(map["exercise_id" := exerciseId, "personal_record" := Num(0), "notes" := Str("Added to my profile")])
  }

  /** The POST to `/user-exercises`, with credentials. */
  function AddRequest(exerciseId: Json, token: Option<string>): (r: Request)
    ensures r.verb == Post && r.origin == ApiUrl && r.path == "/user-exercises" && r.credentials
    ensures r.headers == ProfileHeaders(token) && r.timeoutMs.None?
    ensures r.body == Some(ProfileRecord(exerciseId))
  {
    Request(Post, ApiUrl, "/user-exercises", ProfileHeaders(token), true, Some(ProfileRecord(exerciseId)), None)
  }

  const AddedMessage := "Exercise added to your profile!"
  const AddFailed := "Failed to add exercise to profile"

  /** `addToProfile(exerciseId)`: the one POST it always sends and the alert
      it shows. A throw, or an OK answer that does not parse, is only logged. */
  function AddExerciseToProfile(exerciseId: Json, token: Option<string>, response: Outcome): (Request, Option<string>) {
    (AddRequest(exerciseId, token), ResponseAlert(response, AddedMessage, AddFailed))
  }

  /** Adding the same exercise twice sends the same POST twice: nothing
      depends on what the profile already holds. */
  lemma NoDuplicateCheck(exerciseId: Json, token: Option<string>, first: Outcome, second: Outcome)
    ensures AddExerciseToProfile(exerciseId, token, first).0 == AddExerciseToProfile(exerciseId, token, second).0
  {
  }
}
