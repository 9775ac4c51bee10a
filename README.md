# FitForge client, modelled in Dafny

FitForge is a fitness tracker. This project models its browser client: the
React components that validate forms, call the backend and keep per-page
state. The model covers:

- the login and registration screen;
- the workout, exercise and user create/edit forms;
- the profile edit form;
- the four list pages (workouts, exercises, users, instructors);
- the profile page;
- the application shell (theme and session).

The network is not modelled. Each awaited `fetch` enters the model as an
`Http.Outcome`: either a response with a status and a body that parsed or
did not, or a throw (an abort or another error). Each handler is modelled as
what it does with those outcomes: the requests it issues, the state it
stores, the alert it shows, where it navigates.

Modules, one per source file plus shared ones:

- `Wrappers`: `Option`.
- `Js`: the JavaScript values the client handles. Covers truthiness, `||`,
  property reads that throw on `null` and `undefined`, optional chaining,
  `===`, `String(v)` and `JSON.stringify` of flat objects. Integers are
  written as decimal text, with a round-trip proof.
- `Http`: requests, outcomes, and the "`error.error` or a fallback" alert.
- `Validation`: the declarative form validation of the client's schemas,
  including the form library's rule that `''` counts as missing.
- `FormSave`: the create-or-edit request and the navigate-on-OK rule that
  the three entity forms share.
- `Lists`: the state of the four list pages (a `ListPage` class). Covers
  list normalisation, delete followed by re-fetch, and the `is_admin` gate.
- `Auth`, `WorkoutForm`, `ExerciseForm`, `UserForm`, `EditProfile`,
  `WorkoutsPage`, `ExercisesPage`, `UsersPage`, `InstructorsPage`,
  `ProfilePage`, `App`: one module per component.

State the components keep in React hooks is a Dafny `class` whose methods
update its fields: `Auth.AuthForm`, the form pages, `Lists.ListPage`,
`ProfilePage.ProfilePage` and `App.App`. Schemas, request construction and
the decision trees of the submit handlers are functions.

Inputs the model takes as parameters rather than computing:

- the e-mail format check (`isEmail`);
- the stored theme and the stored token;
- `window.confirm`'s answer;
- the `:id` route parameter.

Behaviour of the code worth knowing when reading the model:

- Logout clears the user only when the logout `fetch` does not throw
  (`App.jsx:42-51`).
- The profile page keeps its previous lists when one of its two requests
  throws (`Profile.jsx:34-36`).
- A list page's delete skips the re-fetch when the DELETE throws
  (`Workouts.jsx:38-46`).
- The edit forms load a record without checking the response status. An
  error body gives `undefined` fields (`WorkoutForm.jsx:53-62`).

## Model

| member | source | states |
|---|---|---|
| Js.Prop | client-side/src/components/WorkoutForm.jsx:58-61 | reading a property throws exactly on `null`/`undefined`; an object gives its own field or `undefined`, any other value `undefined` |
| Js.Pick | client-side/src/components/UserForm.jsx:41-45 | building `{k: v.k, …}` throws exactly on a null/undefined record, else holds exactly the given keys with the record's values |
| Js.Serialized | client-side/src/components/WorkoutForm.jsx:78 | `JSON.stringify` keeps exactly the properties that are not `undefined`, with their values |
| Js.Utf16Length | client-side/src/components/WorkoutForm.jsx:7-12 | `s.length` as Yup's `min`/`max` measure it: between the character count and twice it |
| Js.Utf16LengthPlain | client-side/src/components/WorkoutForm.jsx:7-12 | the UTF-16 length equals the character count iff no character lies beyond the Basic Multilingual Plane |
| Js.Utf16LengthConcat | client-side/src/components/WorkoutForm.jsx:7-12 | the UTF-16 length of a concatenation is the sum of the lengths |
| Js.AstralCharLength | client-side/src/components/WorkoutForm.jsx:8 | a single emoji has length 2, so it meets a two-character minimum |
| Js.DigitsRoundTrip | client-side/src/components/WorkoutForm.jsx:151-152 | the decimal text of a natural number is non-empty digits that read back as the number |
| Js.DecimalRoundTrip | client-side/src/components/WorkoutForm.jsx:151-152 | an integer rendered as text parses back to the same integer |
| Http.ServerErrorAlert | client-side/src/pages/Workouts.jsx:88-91 | the alert is the body's truthy `error`, else the fallback; an unparseable or null body throws instead of alerting |
| Http.ResponseAlert | client-side/src/pages/Workouts.jsx:84-95 | an OK response alerts success iff its body parses; a failed one alerts the server error or fallback; a throw alerts nothing |
| Validation.FirstTextFailure | client-side/src/components/WorkoutForm.jsx:7-10 | no error iff every string test passes; otherwise the error of the first failing test in declaration order |
| Validation.FirstNumberFailure | client-side/src/components/WorkoutForm.jsx:13-16 | no error iff every number test passes; otherwise the error of the first failing test in declaration order |
| Validation.CheckMeaning | client-side/src/components/ExerciseForm.jsx:13-15 | a missing field gives the required message; a field passes iff it is optional and missing, or castable, among the options and passing every test |
| Validation.Check | client-side/src/components/WorkoutForm.jsx:6-19 | one field's first error under its rule; its meaning is stated by `Validation.CheckMeaning` |
| Validation.Validate | client-side/src/components/WorkoutForm.jsx:6-19 | errors are reported only for fields of the schema |
| Validation.ValidateAt | client-side/src/components/WorkoutForm.jsx:6-19 | a field is in the result iff its rule fails, and then with that rule's error |
| FormSave.SaveRequest | client-side/src/components/WorkoutForm.jsx:70-79 | PATCH to the loaded record iff editing, POST to the collection otherwise, the values as JSON body |
| FormSave.LoadRequest | client-side/src/components/WorkoutForm.jsx:55 | a plain GET of `/{collection}/{id}` without credentials or body |
| FormSave.SaveOutcome | client-side/src/components/WorkoutForm.jsx:81-85 | navigates to the list iff the response is OK |
| FormSave.SubmitForm | client-side/src/components/WorkoutForm.jsx:98-101 | validation errors block the handler; otherwise the handler's outcome |
| FormSave.EditTargetsLoadedRecord | client-side/src/components/WorkoutForm.jsx:53-71 | illustration of `SaveRequest`: an edit writes back the path it loaded, with the same body a create would send |
| WorkoutForm.ValidateWorkout | client-side/src/components/WorkoutForm.jsx:6-19 | errors only for name, description, duration and owner |
| WorkoutForm.WorkoutNameRule | client-side/src/components/WorkoutForm.jsx:7-10 | the name passes iff it has 2 to 100 UTF-16 code units; empty gives "Name is required" |
| WorkoutForm.WorkoutDescriptionRule | client-side/src/components/WorkoutForm.jsx:11-12 | the description passes iff empty or at most 500 UTF-16 code units |
| WorkoutForm.WorkoutDurationRule | client-side/src/components/WorkoutForm.jsx:13-16 | the duration passes iff it is a number from 5 to 300, with the below/above messages |
| WorkoutForm.WorkoutOwnerRule | client-side/src/components/WorkoutForm.jsx:17-18 | the owner passes iff it is a number; empty gives "User is required" |
| WorkoutForm.WorkoutPasses | client-side/src/components/WorkoutForm.jsx:6-19 | the form passes iff all four field rules hold |
| WorkoutForm.EmptyNameAndOwnerRejected | client-side/src/components/WorkoutForm.jsx:26-31 | with a valid duration, an empty name and owner are exactly the errors |
| WorkoutForm.DefaultsAreIncomplete | client-side/src/components/WorkoutForm.jsx:26-31 | the initial values fail exactly on name and owner |
| WorkoutForm.OnlyDurationTooShort | client-side/src/components/WorkoutForm.jsx:13-16 | an otherwise valid workout under 5 minutes fails on its duration alone |
| WorkoutForm.FourMinutesRejected | client-side/src/components/WorkoutForm.jsx:14 | "Leg Day", 4 minutes, user 3 gives exactly the "at least 5 minutes" error |
| WorkoutForm.SelectedOwnerPasses | client-side/src/components/WorkoutForm.jsx:151-152 | an owner picked from the select casts back to its id and passes |
| WorkoutForm.DefaultOwner | client-side/src/components/WorkoutForm.jsx:40-51 | in create mode only, `data[0].id` becomes the owner when `data.length > 0`: for arrays, array-like objects and strings; an empty list, a throw or a null first element leaves it |
| WorkoutForm.ArrayLikeBodyOwner | client-side/src/components/WorkoutForm.jsx:45-46 | a body `{"length": 1, "0": {"id": 7}}` preselects owner 7 |
| WorkoutForm.LoadedUsers | client-side/src/components/WorkoutForm.jsx:42-44 | any parsed body becomes the users list, whatever its status; no contract of its own, `FetchUsers` states its effect |
| WorkoutForm.LoadedValues | client-side/src/components/WorkoutForm.jsx:53-62 | the loaded record's four fields, a falsy description becoming `''`; nothing on a throw or null body |
| WorkoutForm.SubmitWorkout | client-side/src/components/WorkoutForm.jsx:68-91 | blocked iff invalid; otherwise saved to the local server's workouts |
| WorkoutForm.WorkoutFormPage.constructor | client-side/src/components/WorkoutForm.jsx:25-31 | no users, the default values, not submitting |
| WorkoutForm.WorkoutFormPage.FetchUsers | client-side/src/components/WorkoutForm.jsx:40-51 | stores the parsed users and applies the default owner only |
| WorkoutForm.WorkoutFormPage.FetchWorkout | client-side/src/components/WorkoutForm.jsx:53-66 | replaces the values with the loaded record when it loads, else keeps them |
| WorkoutForm.WorkoutFormPage.Submit | client-side/src/components/WorkoutForm.jsx:68-91 | the submit's outcome, and submitting is false afterwards |
| ExerciseForm.ValidateExercise | client-side/src/components/ExerciseForm.jsx:8-25 | errors only for the five fields |
| ExerciseForm.ExerciseNameRule | client-side/src/components/ExerciseForm.jsx:9-12 | the name passes iff it has 2 to 100 UTF-16 code units |
| ExerciseForm.ExerciseCategoryRule | client-side/src/components/ExerciseForm.jsx:13-15 | the category passes iff it is one of the four; otherwise "Invalid category" |
| ExerciseForm.ExerciseMuscleGroupRule | client-side/src/components/ExerciseForm.jsx:16-18 | the muscle group passes iff it is one of the seven; otherwise "Invalid muscle group" |
| ExerciseForm.ExerciseDifficultyRule | client-side/src/components/ExerciseForm.jsx:19-21 | the difficulty passes iff it is one of the three; otherwise "Invalid difficulty level" |
| ExerciseForm.ExerciseInstructionsRule | client-side/src/components/ExerciseForm.jsx:22-24 | the instructions pass iff at least 10 UTF-16 code units, with the short and required messages |
| ExerciseForm.ExercisePasses | client-side/src/components/ExerciseForm.jsx:8-25 | the form passes iff all five field rules hold |
| ExerciseForm.EmptyTextRejected | client-side/src/components/ExerciseForm.jsx:31-37 | with valid options, empty name and instructions are exactly the errors |
| ExerciseForm.DefaultsAreIncomplete | client-side/src/components/ExerciseForm.jsx:31-37 | the initial values fail exactly on name and instructions |
| ExerciseForm.ShortInstructionsRejected | client-side/src/components/ExerciseForm.jsx:23 | instructions "short" give the "at least 10 characters" error |
| ExerciseForm.LoadedValues | client-side/src/components/ExerciseForm.jsx:45-59 | exactly the record's five fields; nothing on a throw or null body |
| ExerciseForm.SubmitExercise | client-side/src/components/ExerciseForm.jsx:61-84 | blocked iff invalid; otherwise saved to the backend's exercises |
| ExerciseForm.ExerciseFormPage.constructor | client-side/src/components/ExerciseForm.jsx:31-37 | the default values, not submitting |
| ExerciseForm.ExerciseFormPage.FetchExercise | client-side/src/components/ExerciseForm.jsx:45-59 | replaces the values with the loaded record when it loads |
| ExerciseForm.ExerciseFormPage.Submit | client-side/src/components/ExerciseForm.jsx:61-84 | the submit's outcome, and submitting is false afterwards |
| UserForm.ValidateUser | client-side/src/components/UserForm.jsx:8-19 | errors only for name, e-mail and fitness level |
| UserForm.UserNameRule | client-side/src/components/UserForm.jsx:9-12 | the name passes iff it has 2 to 100 UTF-16 code units |
| UserForm.UserEmailRule | client-side/src/components/UserForm.jsx:13-15 | the e-mail passes iff present and well formed, with the format and required messages |
| UserForm.UserFitnessLevelRule | client-side/src/components/UserForm.jsx:16-18 | the level passes iff it is one of the three; otherwise "Invalid fitness level" |
| UserForm.UserPasses | client-side/src/components/UserForm.jsx:8-19 | the form passes iff all three field rules hold |
| UserForm.DefaultsAreIncomplete | client-side/src/components/UserForm.jsx:25-29 | the initial values fail exactly on name and e-mail |
| UserForm.LoadedValues | client-side/src/components/UserForm.jsx:37-49 | exactly the record's three fields; nothing on a throw or null body |
| UserForm.SubmitUser | client-side/src/components/UserForm.jsx:51-74 | blocked iff invalid; otherwise saved to the backend's users |
| UserForm.UserFormPage.constructor | client-side/src/components/UserForm.jsx:25-29 | the default values, not submitting |
| UserForm.UserFormPage.FetchUser | client-side/src/components/UserForm.jsx:37-49 | replaces the values with the loaded record when it loads |
| UserForm.UserFormPage.Submit | client-side/src/components/UserForm.jsx:51-74 | the submit's outcome, and submitting is false afterwards |
| EditProfile.ValidateProfile | client-side/src/components/EditProfile.jsx:5-9 | errors only for name, e-mail and fitness level |
| EditProfile.SameRulesAsRegistration | client-side/src/components/EditProfile.jsx:5-9 | the profile rules equal the registration rules, messages included |
| EditProfile.ProfilePasses | client-side/src/components/EditProfile.jsx:5-9 | passes iff name of at least 2, a well-formed e-mail and any fitness level |
| EditProfile.InitialValues | client-side/src/components/EditProfile.jsx:38-42 | exactly the user's name, e-mail and fitness level; throws without a user |
| EditProfile.UpdateRequest | client-side/src/components/EditProfile.jsx:14-19 | a PATCH of `/users/{user.id}` at the local server with credentials and the values, with no timeout; none for an unreadable user |
| EditProfile.HandleSubmit | client-side/src/components/EditProfile.jsx:12-32 | `onUpdate` gets the answer iff OK and parsed; "Failed to update profile" iff a non-OK status; never both |
| EditProfile.Submit | client-side/src/components/EditProfile.jsx:37-45 | blocked iff invalid; otherwise the handler's outcome |
| EditProfile.UnchangedProfilePasses | client-side/src/components/EditProfile.jsx:38-44 | submitting the unchanged values of a complete profile passes validation |
| Auth.ValidateLogin | client-side/src/components/Auth.jsx:8-10 | login checks the e-mail only |
| Auth.ValidateRegister | client-side/src/components/Auth.jsx:12-16 | registration checks name, e-mail and fitness level only |
| Auth.LoginEmailRule | client-side/src/components/Auth.jsx:9 | login passes iff a well-formed e-mail; empty gives only "Email is required" |
| Auth.RegisterNameRule | client-side/src/components/Auth.jsx:13 | the name passes iff at least 2 UTF-16 code units, no upper bound |
| Auth.RegisterEmailRule | client-side/src/components/Auth.jsx:14 | the e-mail passes iff present and well formed |
| Auth.RegisterFitnessLevelRule | client-side/src/components/Auth.jsx:15 | any non-empty fitness level passes |
| Auth.RegisterPasses | client-side/src/components/Auth.jsx:12-16 | registration passes iff all three field rules hold |
| Auth.DefaultsAreIncomplete | client-side/src/components/Auth.jsx:120 | the initial values fail login on the e-mail alone, and registration exactly on name and e-mail |
| Auth.FailureAlert | client-side/src/components/Auth.jsx:102-108 | the timeout message iff the request was aborted, else "Network error: " and the message |
| Auth.AuthRequest | client-side/src/components/Auth.jsx:23-36 | POST to `/login` or `/register`, credentials iff login, a 10-second timeout |
| Auth.AutoLoginRequest | client-side/src/components/Auth.jsx:52-58 | the auto-login body holds only the e-mail |
| Auth.FallbackRequest | client-side/src/components/Auth.jsx:83-88 | the retry posts the values to `/users` without credentials or timeout |
| Auth.RegisteredUser | client-side/src/components/Auth.jsx:62-74 | the auto-login's user if it is OK and parses, else the registration payload |
| Auth.ErrorAlert | client-side/src/components/Auth.jsx:98-100 | the body's `error`, "Unknown error" for an unparseable body, else the mode's fallback |
| Auth.HandleSubmit | client-side/src/components/Auth.jsx:21-112 | exactly one of login and alert; the login, auto-login, 404 fallback, unparseable and error paths with their alert texts |
| Auth.AuthForm.constructor | client-side/src/components/Auth.jsx:19 | starts in login mode, not submitting |
| Auth.AuthForm.ToggleMode | client-side/src/components/Auth.jsx:163 | switches the mode |
| Auth.AuthForm.Submit | client-side/src/components/Auth.jsx:109-122 | the mode's schema, then the handler; submitting is false afterwards |
| Auth.ToggleTwice | client-side/src/components/Auth.jsx:163 | toggling twice restores the mode |
| Lists.ListFromResponse | client-side/src/pages/Workouts.jsx:15-31 | the array of an OK response, unchanged; every other outcome gives `[]` |
| Lists.IsAdmin | client-side/src/pages/Users.jsx:56 | the viewer is an admin iff it is an object with a truthy `is_admin`; no viewer is never one |
| Lists.DeleteRequest | client-side/src/pages/Workouts.jsx:40-42 | a DELETE of `/{collection}/{id}` with no body, credentials or timeout |
| Lists.ListPage.constructor | client-side/src/pages/Workouts.jsx:8-9 | an empty list, loading |
| Lists.ListPage.Fetch | client-side/src/pages/Workouts.jsx:15-35 | stores the normalised list and always ends loading |
| Lists.ListPage.DeleteItem | client-side/src/pages/Workouts.jsx:37-48 | nothing unless confirmed; re-fetches after any status but not after a throw |
| WorkoutsPage.NewPage | client-side/src/pages/Workouts.jsx:8-13 | the workouts list page on mount |
| WorkoutsPage.FindById | client-side/src/pages/Workouts.jsx:58 | the first workout with the id, found whenever no null element comes before it; none; or a throw on a null element |
| WorkoutsPage.AnySameWorkout | client-side/src/pages/Workouts.jsx:60-63 | true iff some profile workout reached without a null element has the name or the copy name; false iff none matches and none is null |
| WorkoutsPage.CopyOf | client-side/src/pages/Workouts.jsx:76-81 | the copy is named "N (My Copy)" and carries description, duration and instructor unchanged |
| WorkoutsPage.CopyRequest | client-side/src/pages/Workouts.jsx:72-82 | POST of the copy to `/workouts` with credentials, JSON headers and no timeout |
| WorkoutsPage.AddWorkoutToProfile | client-side/src/pages/Workouts.jsx:50-96 | posts the copy iff the workout is found and the check fails or finds no duplicate; a duplicate alerts instead; a throw of the check, a non-array OK answer, or `.some` throwing on a null profile entry ends with no further request and no alert |
| WorkoutsPage.SecondCopyRefused | client-side/src/pages/Workouts.jsx:60-68 | once the copy is in the profile, adding again posts nothing and alerts |
| ExercisesPage.NewPage | client-side/src/pages/Exercises.jsx:8-13 | the exercises list page on mount |
| ExercisesPage.ProfileHeaders | client-side/src/pages/Exercises.jsx:53-58 | a bearer header iff the stored token is non-empty |
| ExercisesPage.ProfileRecord | client-side/src/pages/Exercises.jsx:64-68 | the exercise, a record of 0 and the fixed note |
| ExercisesPage.AddRequest | client-side/src/pages/Exercises.jsx:60-69 | POST to `/user-exercises` with credentials, the headers and the record, built from the exercise and the token alone (no duplicate check) |
| ExercisesPage.NoDuplicateCheck | client-side/src/pages/Exercises.jsx:50-85 | illustration of `AddRequest`: the POST does not depend on the outcome of an earlier addition |
| UsersPage.NewPage | client-side/src/pages/Users.jsx:8-13 | the users list page on mount |
| UsersPage.Columns | client-side/src/pages/Users.jsx:81-87 | the Email and Actions columns appear iff the viewer is an admin |
| UsersPage.Row | client-side/src/pages/Users.jsx:90-110 | one cell per column: name, e-mail (admins), fitness level, creation date, and for admins the edit link and DELETE of the row's id |
| UsersPage.EmptyMessage | client-side/src/pages/Users.jsx:66-75 | the admin invitation iff the viewer is an admin |
| UsersPage.ShowsAddUser | client-side/src/pages/Users.jsx:56-60 | the "Add User" link shows iff the viewer is an admin |
| InstructorsPage.NewPage | client-side/src/pages/Instructors.jsx:8-13 | the instructors list page on mount |
| InstructorsPage.ShowsControls | client-side/src/pages/Instructors.jsx:81-93 | the edit and delete controls show iff the viewer is an admin |
| InstructorsPage.ShowsAddInstructor | client-side/src/pages/Instructors.jsx:54-58 | the "Add Instructor" link shows iff the viewer is an admin |
| InstructorsPage.EmptyMessage | client-side/src/pages/Instructors.jsx:64-73 | the admin invitation iff the viewer is an admin |
| ProfilePage.AsList | client-side/src/pages/Profile.jsx:27-28 | an array as is, anything else `[]` |
| ProfilePage.ProfileData | client-side/src/pages/Profile.jsx:16-39 | both lists only when both are OK; either non-OK empties both; a throw stores nothing |
| ProfilePage.ProfilePage.constructor | client-side/src/pages/Profile.jsx:6-10 | empty lists, loading, not editing, the given user |
| ProfilePage.ProfilePage.View | client-side/src/pages/Profile.jsx:41-99 | loading first, then "User not found" without a user, then the form or the overview with its counts |
| ProfilePage.ProfilePage.FetchUserData | client-side/src/pages/Profile.jsx:16-39 | both GETs, the lists `ProfileData` gives, loading false on every path |
| ProfilePage.ProfilePage.RemoveAndRefresh | client-side/src/pages/Profile.jsx:48-65 | re-fetches iff the DELETE is OK; alerts on another status; a throw changes nothing |
| ProfilePage.ProfilePage.RemoveExercise | client-side/src/pages/Profile.jsx:48-65 | nothing without the confirmation; after an OK DELETE of `/user-exercises/{id}` exactly the two profile GETs, the lists replaced (kept when a fetch throws) and loading cleared; another status alerts "Failed to remove exercise"; a throw only logs |
| ProfilePage.ProfilePage.RemoveWorkout | client-side/src/pages/Profile.jsx:67-84 | nothing without the confirmation; after an OK DELETE of `/workouts/{id}` exactly the two profile GETs, the lists replaced (kept when a fetch throws) and loading cleared; another status alerts "Failed to remove workout"; a throw only logs |
| ProfilePage.ProfilePage.StartEditing | client-side/src/pages/Profile.jsx:116-119 | switches to the edit form |
| ProfilePage.ProfilePage.CancelEditing | client-side/src/pages/Profile.jsx:95 | leaves the edit form |
| ProfilePage.ProfilePage.HandleUpdateProfile | client-side/src/pages/Profile.jsx:43-46 | the updated user replaces the current one and editing ends |
| ProfilePage.ProfilePage.SaveProfile | client-side/src/pages/Profile.jsx:92-96 | the user changes and editing ends exactly when the save hands back an answer |
| ProfilePage.OkSaveReplacesUser | client-side/src/components/EditProfile.jsx:21-23 | a valid save answered OK hands back the answer and alerts nothing |
| App.App.constructor | client-side/src/App.jsx:17-28 | dark unless a saved theme overrides it, no user, the stored theme matches |
| App.App.Persisted | client-side/src/App.jsx:27-28 | the last theme written to storage is the current one |
| App.App.ShowsAuth | client-side/src/App.jsx:58-64 | the login screen shows without a user and never for a user object |
| App.App.Toggle | client-side/src/App.jsx:54-56 | negates the theme and stores it |
| App.App.ToggleTwice | client-side/src/App.jsx:54-56 | toggling twice restores the theme, stored after each toggle |
| App.App.HandleLogin | client-side/src/App.jsx:38-40 | the given data becomes the user; the login screen shows iff it is falsy |
| App.App.HandleLogout | client-side/src/App.jsx:42-52 | POST `/logout`; the user is cleared after any response, kept after a throw |

## Left out

- The network, timers, `localStorage`, `window.confirm`, `alert` and `console` are not modelled. Their results are parameters and their effects are outputs.
- The concurrency of `Promise.all` and of re-fetches that are not awaited is not modelled. Each outcome is modelled as already settled.
- Rendering is modelled only through the screen choice and the admin-gated parts. JSX markup, icons and CSS classes are left out, and so are the body's theme classes (`App.jsx:29-35`).
- Date formatting with `toLocaleDateString` is left out because it depends on the locale.
- Navigation is recorded only as the target path. The router itself and the cancel link of the entity forms are left out.
- The base URL of `ApiUrl` is left out because it comes from build-time configuration.
- `WorkoutForm.AboveZero` compares a `length` that is text or an array through the same restricted number reading. An object `length` is treated as never above 0.
- Numbers are integers. Non-integral JSON numbers are not modelled.
- `Number(s)` is modelled only for an optional minus sign followed by digits. Whitespace, `+`, exponents, hexadecimal and `Infinity` are not modelled.
- The e-mail format is a parameter. The form library's own pattern is not modelled.
- The form library's default type-error messages are not modelled. A cast failure is `NotOfType`.
- A saved theme is modelled as a boolean. Any other stored JSON is not modelled.
- Formik's dirty tracking and field touching are not modelled. Neither is re-initialisation: loaded values are state, and the form is assumed to use them.
- `Navbar.jsx` and `Home.jsx` are not part of this model.
- `ExercisesPage.AddExerciseToProfile` has no contract of its own. It pairs `AddRequest` with `Http.ResponseAlert`, and the contracts of those two state it.
