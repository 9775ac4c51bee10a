/** The workouts list page: the shared list state over `/workouts`, and
    "Add to My Profile", which copies a workout into the signed-in user's
    profile unless the profile already holds it or its copy. */
module WorkoutsPage {
  import opened Wrappers
  import opened Js
  import opened Http
  import opened Lists

  const Collection := "workouts"

  /** The page on mount, before its fetch. */
  method NewPage() returns (page: ListPage)
    ensures fresh(page) && page.collection == Collection && page.items == [] && page.loading
  {
    page := new ListPage(Collection);
  }

  /** The outcome of `workouts.find(w => w.id === id)`: the first match,
      no match, or the TypeError of reading `id` of a null element. */
  datatype Lookup = Found(item: Json) | NotFound | ReadFails

  predicate HasId(w: Json, id: Json) {
    StrictEquals(OptionalProp(w, "id"), id)
  }

  /** `workouts.find(w => w.id === id)`. */
  function FindById(workouts: seq<Json>, id: Json): (r: Lookup)
    ensures r.NotFound? <==> forall i :: 0 <= i < |workouts| ==> Readable(workouts[i]) && !HasId(workouts[i], id)
    ensures r.Found? ==> exists i :: 0 <= i < |workouts| && workouts[i] == r.item && HasId(workouts[i], id)
                          && Readable(workouts[i])
                          && forall j :: 0 <= j < i ==> Readable(workouts[j]) && !HasId(workouts[j], id)
    // A match reached without passing a null element is found.
    ensures (exists i :: 0 <= i < |workouts| && HasId(workouts[i], id)
                         && forall j :: 0 <= j <= i ==> Readable(workouts[j])) ==> r.Found?
  {
    if |workouts| == 0 then NotFound
    else if !Readable(workouts[0]) then ReadFails
    else if HasId(workouts[0], id) then Found(workouts[0])
    else
      var r := FindById(workouts[1..], id);
      assert forall i :: 1 <= i < |workouts| ==> workouts[i] == workouts[1..][i - 1];
      r
  }

  /** The name a copy takes. */
  function CopyName(name: Json): string {
    ToText(name) + " (My Copy)"
  }

  /** Whether a profile workout counts as the original `name` or its copy. */
  predicate SameWorkout(w: Json, name: Json) {
    StrictEquals(OptionalProp(w, "name"), name) || StrictEquals(OptionalProp(w, "name"), Str(CopyName(name)))
  }

  /** `userWorkouts.some(w => w.name === name || w.name === name + " (My Copy)")`,
      which stops at the first match; `None` is the TypeError of reading
      `name` of a null element before any match. */
  function AnySameWorkout(userWorkouts: seq<Json>, name: Json): (r: Option<bool>)
    ensures r == Some(false) <==> forall i :: 0 <= i < |userWorkouts| ==> Readable(userWorkouts[i]) && !SameWorkout(userWorkouts[i], name)
    ensures r == Some(true) ==> exists i :: 0 <= i < |userWorkouts| && SameWorkout(userWorkouts[i], name)
                                               && forall j :: 0 <= j <= i ==> Readable(userWorkouts[j])
    ensures (exists i :: 0 <= i < |userWorkouts| && SameWorkout(userWorkouts[i], name)
                         && forall j :: 0 <= j <= i ==> Readable(userWorkouts[j])) ==> r == Some(true)
  {
    if |userWorkouts| == 0 then Some(false)
    else if !Readable(userWorkouts[0]) then None
    else if SameWorkout(userWorkouts[0], name) then Some(true)
    else
      var r := AnySameWorkout(userWorkouts[1..], name);
      assert forall i :: 1 <= i < |userWorkouts| ==> userWorkouts[i] == userWorkouts[1..][i - 1];
      r
  }

  /** The GET of the signed-in user's workouts, with credentials. */
  const CheckRequest: Request := Read(ApiUrl, "/my-workouts", true)

  /** The copy: the original's description, duration and instructor, under
      the copy name. */
  function CopyOf(original: Json): (copy: map<string, Json>)
    ensures copy.Keys == {"name", "description", "duration", "instructor_id"}
    ensures copy["name"] == Str(CopyName(OptionalProp(original, "name")))
    ensures forall k :: k in {"description", "duration", "instructor_id"} ==> copy[k] == OptionalProp(original, k)
  {
    map["name" := Str(CopyName(OptionalProp(original, "name"))),
        "description" := OptionalProp(original, "description"),
        "duration" := OptionalProp(original, "duration"),
        "instructor_id" := OptionalProp(original, "instructor_id")]
  }

  /** The POST that creates the copy, with credentials. */
  function CopyRequest(original: Json): (r: Request)
    ensures r.verb == Post && r.origin == ApiUrl && r.path == "/workouts" && r.credentials
    ensures r.headers == JsonHeaders && r.body == Some(Serialized(CopyOf(original))) && r.timeoutMs.None?
  {
    Send(Post, ApiUrl, "/workouts", true, Serialized(CopyOf(original)))
  }

  const AlreadyAdded := "You already have this workout in your profile!"
  const AddedMessage := "Workout added to your profile!"
  const AddFailed := "Failed to add workout to profile"

  /** What one "Add to My Profile" does: the requests issued and the alert shown. */
  datatype AddResult = AddResult(requests: seq<Request>, alert: Option<string>)

  /** `addWorkoutToProfile(workoutId)`, given the page's list, the outcome of
      the profile check and the outcome of the POST (ignored when none is
      sent). The duplicate check only runs on an OK check response. */
  function AddWorkoutToProfile(workouts: seq<Json>, workoutId: Json, check: Outcome, post: Outcome): (a: AddResult)
    ensures 1 <= |a.requests| <= 2 && a.requests[0] == CheckRequest
    // A workout the list does not hold is never copied.
    ensures !FindById(workouts, workoutId).Found? ==> a.requests == [CheckRequest] && a.alert.None?
    // The profile already holds the workout or its copy: nothing is posted.
    ensures FindById(workouts, workoutId).Found? && IsOk(check) && check.body.Parsed? && check.body.value.Arr?
            && AnySameWorkout(check.body.value.items, OptionalProp(FindById(workouts, workoutId).item, "name")) == Some(true)
            ==> a.requests == [CheckRequest] && a.alert == Some(AlreadyAdded)
    // A failed check skips the duplicate check.
    ensures FindById(workouts, workoutId).Found? && check.Response? && !IsOk(check) ==>
              a.requests == [CheckRequest, CopyRequest(FindById(workouts, workoutId).item)] && a.alert == ResponseAlert(post, AddedMessage, AddFailed)
    // An OK check with no match in the profile posts the copy.
    ensures FindById(workouts, workoutId).Found? && IsOk(check) && check.body.Parsed? && check.body.value.Arr?
            && AnySameWorkout(check.body.value.items, OptionalProp(FindById(workouts, workoutId).item, "name")) == Some(false)
            ==> a.requests == [CheckRequest, CopyRequest(FindById(workouts, workoutId).item)]
                && a.alert == ResponseAlert(post, AddedMessage, AddFailed)
    // A throw of the check, or of reading its answer, ends the handler.
    ensures check.Thrown? ==> a == AddResult([CheckRequest], None)
    ensures IsOk(check) && !(check.body.Parsed? && check.body.value.Arr?) ==> a == AddResult([CheckRequest], None)
    // `.some` throws on a null profile entry before any match: the error is only logged.
    ensures FindById(workouts, workoutId).Found? && IsOk(check) && check.body.Parsed? && check.body.value.Arr?
            && AnySameWorkout(check.body.value.items, OptionalProp(FindById(workouts, workoutId).item, "name")).None?
            ==> a == AddResult([CheckRequest], None)
    ensures |a.requests| == 2 ==> FindById(workouts, workoutId).Found? && check.Response?
                                  && (IsOk(check) ==> (check.body.Parsed? && check.body.value.Arr?
                                        && AnySameWorkout(check.body.value.items, OptionalProp(FindById(workouts, workoutId).item, "name")) == Some(false)))
                                  && a.requests[1] == CopyRequest(FindById(workouts, workoutId).item)
                                  && a.alert == ResponseAlert(post, AddedMessage, AddFailed)
  {
    var original := FindById(workouts, workoutId);
    if !original.Found? || check.Thrown? then AddResult([CheckRequest], None)
    else
      var duplicate :=
        if !IsOk(check) then Some(false)
        else if check.body.Parsed? && check.body.value.Arr? then
          AnySameWorkout(check.body.value.items, OptionalProp(original.item, "name"))
        else None;
      match duplicate
      case None => AddResult([CheckRequest], None)
      case Some(true) => AddResult([CheckRequest], Some(AlreadyAdded))
      case Some(false) => AddResult([CheckRequest, CopyRequest(original.item)], ResponseAlert(post, AddedMessage, AddFailed))
  }

  /** Adding the same workout twice: once the first copy is in the profile,
      the second attempt posts nothing. */
  lemma {:induction false} SecondCopyRefused(workouts: seq<Json>, workoutId: Json, profile: seq<Json>, check: Outcome, post: Outcome)
    requires FindById(workouts, workoutId).Found?
    requires forall i :: 0 <= i < |profile| ==> Readable(profile[i])
    requires IsOk(check) && check.body == Parsed(Arr(profile + [Obj(CopyOf(FindById(workouts, workoutId).item))]))
    ensures AddWorkoutToProfile(workouts, workoutId, check, post) == AddResult([CheckRequest], Some(AlreadyAdded))
  {
    var original := FindById(workouts, workoutId).item;
    var items := profile + [Obj(CopyOf(original))];
    var name := OptionalProp(original, "name");
    assert SameWorkout(items[|profile|], name);
    assert forall j :: 0 <= j < |profile| ==> Readable(items[j]);
  }
}
