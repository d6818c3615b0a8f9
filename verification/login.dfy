/** The login form: the session becomes the first account matching name, password and role. */
module Session {
  import opened Options
  import opened Lists
  import opened Storage

  /** The login comparison: name, password and role equal; the email is not looked at. */
  predicate Matches(u: User, name: string, password: string, role: string) {
    u.name == name && u.password == password && u.role == role
  }

  /** The login lookup: the index of the first stored account that matches. */
  function FindUser(users: seq<User>, name: string, password: string, role: string): (r: Option<nat>)
    ensures r.Some? ==> r.value < |users| && Matches(users[r.value], name, password, role)
    ensures r.Some? ==> forall j :: 0 <= j < r.value ==> !Matches(users[j], name, password, role)
    ensures r.None? <==> forall i :: 0 <= i < |users| ==> !Matches(users[i], name, password, role)
  {
    FindIndex(users, (u: User) => Matches(u, name, password, role))
  }

  /** The `currentUser` slot after a login attempt that started from `session`. */
  function SessionAfterLogin(users: seq<User>, name: string, password: string, role: string,
                             session: Option<User>): (r: Option<User>)
    ensures (forall i :: 0 <= i < |users| ==> !Matches(users[i], name, password, role)) ==> r == session
    ensures forall i :: 0 <= i < |users| && Matches(users[i], name, password, role)
              && (forall j :: 0 <= j < i ==> !Matches(users[j], name, password, role))
              ==> r == Some(users[i])
  {
    match FindUser(users, name, password, role)
    case Some(k) => Some(users[k])
    case None => session
  }

  /** Logging in again with the same inputs leaves the session as the first login set it. */
  lemma LoginIdempotent(users: seq<User>, name: string, password: string, role: string, session: Option<User>)
    ensures var once := SessionAfterLogin(users, name, password, role, session);
            SessionAfterLogin(users, name, password, role, once) == once
  {
  }

  /**
   * Emails play no part in login: lists that differ only in their emails give
   * the same matching index.
   */
  lemma LoginIgnoresEmail(users: seq<User>, others: seq<User>, name: string, password: string, role: string)
    requires |users| == |others|
    requires forall k :: 0 <= k < |users| ==> others[k] == users[k].(email := others[k].email)
    ensures FindUser(users, name, password, role) == FindUser(others, name, password, role)
  {
  }

  /** The component: its three form fields and the shared store. */
  class Login {
    const storage: LocalStorage
    var name: string
    var password: string
    var role: string

    ghost predicate Valid()
      reads this
    {
      IsRole(role)
    }

    constructor(storage: LocalStorage)
      ensures this.storage == storage
      ensures name == "" && password == "" && role == "landlord"
      ensures Valid()
    {
      this.storage := storage;
      name, password := "", "";
      role := "landlord";
    }

    method SetName(v: string)
      modifies this`name
      ensures name == v
    {
      name := v;
    }

    method SetPassword(v: string)
      modifies this`password
      ensures password == v
    {
      password := v;
    }

    /** Picking an option of the role selector. */
    method SetRole(v: string)
      requires IsRole(v)
      modifies this`role
      ensures Valid() && role == v
    {
      role := v;
    }

    /**
     * `handleLogin`: succeeds exactly when a stored account matches; then the
     * first such account becomes the session, otherwise the session is kept.
     */
    method HandleLogin() returns (loggedIn: bool)
      requires Valid()
      modifies storage`currentUser
      ensures loggedIn <==> exists i :: 0 <= i < |storage.users| && Matches(storage.users[i], name, password, role)
      ensures storage.currentUser == SessionAfterLogin(storage.users, name, password, role, old(storage.currentUser))
      ensures loggedIn ==> storage.currentUser.Some? && storage.currentUser.value in storage.users
      ensures !loggedIn ==> storage.currentUser == old(storage.currentUser)
      ensures storage.users == old(storage.users)
    {
      var user := FindUser(storage.users, name, password, role);
      if user.Some? {
        storage.currentUser := Some(storage.users[user.value]);
        assert Matches(storage.users[user.value], name, password, role);
        loggedIn := true;
      } else {
        loggedIn := false;
      }
    }
  }
}
