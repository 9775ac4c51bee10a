/** The signed-in user's profile page: the user's workouts and exercise
    records fetched together from the local server, their removal, and the
    switch to the profile edit form. */
module ProfilePage {
  import opened Wrappers
  import opened Js
  import opened Http
  import opened Validation
  import EditProfile

  /** `Array.isArray(data) ? data : []`. */
  function AsList(data: Json): (items: seq<Json>)
    ensures data.Arr? ==> items == data.items
    ensures !data.Arr? ==> items == []
  {
    if data.Arr? then data.items else []
  }

  /** The two GETs of `fetchUserData`, sent together, with credentials. */
  const WorkoutsRequest: Request := Read(LocalServer, "/my-workouts", true)
  const ExercisesRequest: Request := Read(LocalServer, "/my-exercises", true)

  /** The lists `fetchUserData` stores, given both settled responses: `None`
      when nothing is stored, because a request or, after two OK responses,
      a body read throws. */
  function ProfileData(workouts: Outcome, exercises: Outcome): (lists: Option<(seq<Json>, seq<Json>)>)
    ensures lists.None? <==> workouts.Thrown? || exercises.Thrown?
                             || (IsOk(workouts) && IsOk(exercises)
                                 && (workouts.body.Unparseable? || exercises.body.Unparseable?))
    ensures lists.Some? && IsOk(workouts) && IsOk(exercises) ==>
              lists.value == (AsList(workouts.body.value), AsList(exercises.body.value))
    ensures lists.Some? && !(IsOk(workouts) && IsOk(exercises)) ==> lists.value == ([], [])
    // A non-empty list comes from an OK array answer to its own request.
    ensures lists.Some? && lists.value.0 != [] ==> IsOk(workouts) && workouts.body == Parsed(Arr(lists.value.0))
    ensures lists.Some? && lists.value.1 != [] ==> IsOk(exercises) && exercises.body == Parsed(Arr(lists.value.1))
  {
    if workouts.Thrown? || exercises.Thrown? then None
    else if IsOk(workouts) && IsOk(exercises) then
      match (workouts.body, exercises.body)
      case (Parsed(w), Parsed(e)) => Some((AsList(w), AsList(e)))
      case _ => None
    else Some(([], []))
  }

  /** The DELETE of one exercise record of the user. */
  function RemoveExerciseRequest(id: Json): Request {
    Remove(LocalServer, "/user-exercises/" + ToText(id), true)
  }

  /** The DELETE of one workout. */
  function RemoveWorkoutRequest(id: Json): Request {
    Remove(LocalServer, "/workouts/" + ToText(id), true)
  }

  const RemoveExerciseFailed := "Failed to remove exercise"
  const RemoveWorkoutFailed := "Failed to remove workout"

  /** What the page renders, in the order the component decides it. */
  datatype Screen = Loading | UserNotFound | Editing(user: Json) | Overview(user: Json, workoutCount: nat, recordCount: nat)

  /** The profile page's state. */
  class ProfilePage {
    var userWorkouts: seq<Json>
    var userExercises: seq<Json>
    var loading: bool
    var isEditing: bool
    var currentUser: Json

    /** The page on mount, for the signed-in `user`. */
    constructor (user: Json)
      ensures userWorkouts == [] && userExercises == [] && loading && !isEditing && currentUser == user
    {
      userWorkouts := [];
      userExercises := [];
      loading := true;
      isEditing := false;
      currentUser := user;
    }

    /** The screen for the current state: the loading text until the first
        fetch settles, then "User not found" without a user, then the edit
        form or the overview with its two counts. */
    function View(): (s: Screen)
      reads this
      ensures s.Loading? <==> loading
      ensures s.UserNotFound? <==> !loading && !Truthy(currentUser)
      ensures s.Editing? <==> !loading && Truthy(currentUser) && isEditing
      ensures s.Overview? ==> s == Overview(currentUser, |userWorkouts|, |userExercises|)
    {
      if loading then Loading
      else if !Truthy(currentUser) then UserNotFound
      else if isEditing then Editing(currentUser)
      else Overview(currentUser, |userWorkouts|, |userExercises|)
    }

    /** `fetchUserData`: both GETs, the lists stored by `ProfileData`, and
        `loading` false on every path. */
    method FetchUserData(workouts: Outcome, exercises: Outcome) returns (requests: seq<Request>)
      modifies this
      ensures requests == [WorkoutsRequest, ExercisesRequest]
      ensures ProfileData(workouts, exercises).Some? ==>
                (userWorkouts, userExercises) == ProfileData(workouts, exercises).value
      ensures ProfileData(workouts, exercises).None? ==>
                userWorkouts == old(userWorkouts) && userExercises == old(userExercises)
      ensures !loading && isEditing == old(isEditing) && currentUser == old(currentUser)
    {
      requests := [WorkoutsRequest, ExercisesRequest];
      var lists := ProfileData(workouts, exercises);
      if lists.Some? {
        userWorkouts := lists.value.0;
        userExercises := lists.value.1;
      }
      loading := false;
    }

    /** The shared shape of `removeExercise` and `removeWorkout`: after the
        confirmation, the DELETE; an OK answer re-fetches the page's data, any
        other status alerts `failed`, and a throw is only logged. */
    method RemoveAndRefresh(request: Request, failed: string, confirmed: bool, deletion: Outcome,
                            workouts: Outcome, exercises: Outcome)
      returns (requests: seq<Request>, alert: Option<string>)
      modifies this
      ensures !confirmed ==> requests == [] && alert.None?
      ensures confirmed && IsOk(deletion) ==>
                requests == [request, WorkoutsRequest, ExercisesRequest] && alert.None?
                && !loading
                && (ProfileData(workouts, exercises).Some? ==>
                      (userWorkouts, userExercises) == ProfileData(workouts, exercises).value)
                && (ProfileData(workouts, exercises).None? ==>
                      userWorkouts == old(userWorkouts) && userExercises == old(userExercises))
      ensures confirmed && deletion.Response? && !IsOk(deletion) ==> requests == [request] && alert == Some(failed)
      ensures confirmed && deletion.Thrown? ==> requests == [request] && alert.None?
      ensures !(confirmed && IsOk(deletion)) ==>
                userWorkouts == old(userWorkouts) && userExercises == old(userExercises) && loading == old(loading)
      ensures isEditing == old(isEditing) && currentUser == old(currentUser)
    {
      requests := [];
      alert := None;
      if confirmed {
        requests := [request];
        if IsOk(deletion) {
          var again := FetchUserData(workouts, exercises);
          requests := requests + again;
        } else if deletion.Response? {
          alert := Some(failed);
        }
      }
    }

    /** `removeExercise(userExerciseId)`. */
    method RemoveExercise(id: Json, confirmed: bool, deletion: Outcome, workouts: Outcome, exercises: Outcome)
      returns (requests: seq<Request>, alert: Option<string>)
      modifies this
      ensures !confirmed ==> requests == [] && alert.None?
      ensures confirmed && IsOk(deletion) ==>
                requests == [RemoveExerciseRequest(id), WorkoutsRequest, ExercisesRequest] && alert.None?
                && !loading
                && (ProfileData(workouts, exercises).Some? ==>
                      (userWorkouts, userExercises) == ProfileData(workouts, exercises).value)
                && (ProfileData(workouts, exercises).None? ==>
                      userWorkouts == old(userWorkouts) && userExercises == old(userExercises))
      ensures confirmed && deletion.Response? && !IsOk(deletion) ==>
                requests == [RemoveExerciseRequest(id)] && alert == Some(RemoveExerciseFailed)
      ensures confirmed && deletion.Thrown? ==> requests == [RemoveExerciseRequest(id)] && alert.None?
      ensures !(confirmed && IsOk(deletion)) ==>
                userWorkouts == old(userWorkouts) && userExercises == old(userExercises) && loading == old(loading)
      ensures isEditing == old(isEditing) && currentUser == old(currentUser)
    {
      requests, alert := RemoveAndRefresh(RemoveExerciseRequest(id), RemoveExerciseFailed, confirmed, deletion, workouts, exercises);
    }

    /** `removeWorkout(workoutId)`. */
    method RemoveWorkout(id: Json, confirmed: bool, deletion: Outcome, workouts: Outcome, exercises: Outcome)
      returns (requests: seq<Request>, alert: Option<string>)
      modifies this
      ensures !confirmed ==> requests == [] && alert.None?
      ensures confirmed && IsOk(deletion) ==>
                requests == [RemoveWorkoutRequest(id), WorkoutsRequest, ExercisesRequest] && alert.None?
                && !loading
                && (ProfileData(workouts, exercises).Some? ==>
                      (userWorkouts, userExercises) == ProfileData(workouts, exercises).value)
                && (ProfileData(workouts, exercises).None? ==>
                      userWorkouts == old(userWorkouts) && userExercises == old(userExercises))
      ensures confirmed && deletion.Response? && !IsOk(deletion) ==>
                requests == [RemoveWorkoutRequest(id)] && alert == Some(RemoveWorkoutFailed)
      ensures confirmed && deletion.Thrown? ==> requests == [RemoveWorkoutRequest(id)] && alert.None?
      ensures !(confirmed && IsOk(deletion)) ==>
                userWorkouts == old(userWorkouts) && userExercises == old(userExercises) && loading == old(loading)
      ensures isEditing == old(isEditing) && currentUser == old(currentUser)
    {
      requests, alert := RemoveAndRefresh(RemoveWorkoutRequest(id), RemoveWorkoutFailed, confirmed, deletion, workouts, exercises);
    }

    /** The "Edit Profile" button. */
    method StartEditing()
      modifies this
      ensures isEditing
      ensures userWorkouts == old(userWorkouts) && userExercises == old(userExercises)
      ensures loading == old(loading) && currentUser == old(currentUser)
    {
      isEditing := true;
    }

    /** The edit form's cancel. */
    method CancelEditing()
      modifies this
      ensures !isEditing
      ensures userWorkouts == old(userWorkouts) && userExercises == old(userExercises)
      ensures loading == old(loading) && currentUser == old(currentUser)
    {
      isEditing := false;
    }

    /** `handleUpdateProfile(updatedUser)`: the edit form's `onUpdate`. */
    method HandleUpdateProfile(updated: Json)
      modifies this
      ensures currentUser == updated && !isEditing
      ensures userWorkouts == old(userWorkouts) && userExercises == old(userExercises) && loading == old(loading)
    {
      currentUser := updated;
      isEditing := false;
    }

    /** Submitting the edit form shown for `currentUser`: the page takes the
        server's answer as its user and leaves the form exactly when the
        save hands one back; otherwise the page is unchanged. */
    method SaveProfile(values: Values, isEmail: string -> bool, response: Outcome)
      returns (a: Attempt<EditProfile.ProfileSave>)
      modifies this
      ensures a == EditProfile.Submit(old(currentUser), values, isEmail, response)
      ensures a.Submitted? && a.result.updated.Some? ==> currentUser == a.result.updated.value && !isEditing
      ensures !(a.Submitted? && a.result.updated.Some?) ==>
                currentUser == old(currentUser) && isEditing == old(isEditing)
      ensures userWorkouts == old(userWorkouts) && userExercises == old(userExercises) && loading == old(loading)
    {
      a := EditProfile.Submit(currentUser, values, isEmail, response);
      if a.Submitted? && a.result.updated.Some? {
        HandleUpdateProfile(a.result.updated.value);
      }
    }
  }

  /** A valid save of a user with an `id`, answered OK, hands the server's
      answer to `onUpdate` and alerts nothing; `SaveProfile` then makes it
      the page's user. */
  lemma {:induction false} OkSaveReplacesUser(user: Json, values: Values, isEmail: string -> bool, status: int, answer: Json)
    requires Readable(user) && 200 <= status <= 299
    requires EditProfile.ValidateProfile(values, isEmail) == map[]
    ensures EditProfile.Submit(user, values, isEmail, Response(status, Parsed(answer)))
            == Submitted(EditProfile.ProfileSave(EditProfile.UpdateRequest(user, values), Some(answer), None))
  {
    var s := EditProfile.HandleSubmit(user, values, Response(status, Parsed(answer)));
    assert s.updated == Some(answer);
    assert s.alert.None?;
  }
}
