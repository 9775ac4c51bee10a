/** The application shell: the theme flag with its stored copy, the
    signed-in user, login and logout, and the gate that shows the login
    screen until someone signs in. */
module App {
  import opened Wrappers
  import opened Js
  import opened Http

  /** The POST of the logout, with credentials. */
  const LogoutRequest: Request := Request(Post, ApiUrl, "/logout", map[], true, None, None)

  /** The values the theme effect has written to storage so far, oldest
      first, and whether the newest matches the flag. */
  predicate ThemeStored(darkMode: bool, writes: seq<bool>) {
    writes != [] && writes[|writes| - 1] == darkMode
  }

  /** The application's state. `themeWrites` records each
      `localStorage.setItem('darkMode', …)` of the theme effect. */
  class App {
    var darkMode: bool
    var user: Json
    var themeWrites: seq<bool>

    predicate Persisted()
      reads this
    {
      ThemeStored(darkMode, themeWrites)
    }

    /** The first render and its effects, given the stored theme (`None`
        for a missing key): dark mode unless a saved `false` overrides it,
        no user. The theme effect first writes the initial `true`, and
        then, when the saved value changed the flag, the new one. */
    constructor (saved: Option<bool>)
      ensures darkMode == saved.GetOr(true) && user == Null
      ensures themeWrites == if darkMode then [true] else [true, false]
      ensures Persisted()
    {
      darkMode := saved.GetOr(true);
      user := Null;
      themeWrites := if saved == Some(false) then [true, false] else [true];
    }

    /** The login screen replaces the whole application while no user is set. */
    predicate ShowsAuth()
      reads this
      ensures user.Null? || user.Undefined? ==> ShowsAuth()
      ensures user.Obj? || user.Arr? ==> !ShowsAuth()
    {
      !Truthy(user)
    }

    /** `toggleDarkMode`, followed by the theme effect's write. */
    method Toggle()
      modifies this
      ensures darkMode == !old(darkMode) && user == old(user)
      ensures themeWrites == old(themeWrites) + [darkMode]
      ensures Persisted()
    {
      darkMode := !darkMode;
      themeWrites := themeWrites + [darkMode];
    }

    /** Toggling twice restores the theme, which is stored again after each toggle. */
    method ToggleTwice()
      modifies this
      ensures darkMode == old(darkMode) && user == old(user)
      ensures themeWrites == old(themeWrites) + [!darkMode, darkMode]
      ensures Persisted()
    {
      Toggle();
      Toggle();
    }

    /** `handleLogin(userData)`, the login screen's `onLogin`. */
    method HandleLogin(data: Json)
      modifies this
      ensures user == data && darkMode == old(darkMode) && themeWrites == old(themeWrites)
      ensures ShowsAuth() <==> !Truthy(data)
    {
      user := data;
    }

    /** `handleLogout`: the POST, after which the user is cleared whatever
        the status; a throw leaves the user signed in. */
    method HandleLogout(outcome: Outcome) returns (request: Request)
      modifies this
      ensures request == LogoutRequest
      ensures outcome.Response? ==> user == Null && ShowsAuth()
      ensures outcome.Thrown? ==> user == old(user)
      ensures darkMode == old(darkMode) && themeWrites == old(themeWrites)
    {
      request := LogoutRequest;
      if outcome.Response? {
        user := Null;
      }
    }
  }
}
