/** The registration form: adds an account unless a field is empty or the email is taken. */
module Registration {
  import opened Options
  import opened Lists
  import opened Storage

  datatype RegisterOutcome = MissingFields | DuplicateEmail | Registered

  /** The duplicate lookup: the first stored account with this email. */
  function FindByEmail(users: seq<User>, email: string): (r: Option<nat>)
    ensures r.Some? ==> r.value < |users| && users[r.value].email == email
    ensures r.None? <==> forall i :: 0 <= i < |users| ==> users[i].email != email
  {
    FindIndex(users, (u: User) => u.email == email)
  }

  /** Appending an account whose email is new keeps the stored emails distinct. */
  lemma RegisterKeepsEmailsDistinct(users: seq<User>, u: User)
    requires DistinctEmails(users)
    requires FindByEmail(users, u.email).None?
    ensures DistinctEmails(users + [u])
  {
  }

  /**
   * The duplicate check looks at emails only: two lists with the same emails in
   * the same order give the same answer, whatever the names, passwords and roles.
   */
  lemma DuplicateCheckUsesEmailOnly(users: seq<User>, others: seq<User>, email: string)
    requires |users| == |others|
    requires forall k :: 0 <= k < |users| ==> users[k].email == others[k].email
    ensures FindByEmail(users, email).Some? <==> FindByEmail(others, email).Some?
  {
  }

  /** The component: its four form fields and the shared store. */
  class Register {
    const storage: LocalStorage
    var name: string
    var email: string
    var password: string
    var role: string

    ghost predicate Valid()
      reads this
    {
      IsRole(role)
    }

    constructor(storage: LocalStorage)
      ensures this.storage == storage
      ensures name == "" && email == "" && password == "" && role == "landlord"
      ensures Valid()
    {
      this.storage := storage;
      name, email, password := "", "", "";
      role := "landlord";
    }

    method SetName(v: string)
      modifies this`name
      ensures name == v
    {
      name := v;
    }

    method SetEmail(v: string)
      modifies this`email
      ensures email == v
    {
      email := v;
    }

    method SetPassword(v: string)
      modifies this`password
      ensures password == v
    {
      password := v;
    }

    /** Picking an option of the role selector. */
    method SetRole(v: string)
      requires IsRole(v)
      modifies this`role
      ensures Valid() && role == v
    {
      role := v;
    }

    /**
     * `handleRegister`: refuses empty fields, then a taken email; otherwise
     * appends exactly one account at the end of the stored list.
     */
    method HandleRegister() returns (outcome: RegisterOutcome)
      requires Valid() && storage.Valid()
      modifies storage`users
      ensures storage.Valid()
      ensures (name == "" || email == "" || password == "") ==>
                outcome == MissingFields && storage.users == old(storage.users)
      ensures (name != "" && email != "" && password != ""
               && exists i :: 0 <= i < |old(storage.users)| && old(storage.users)[i].email == email) ==>
                outcome == DuplicateEmail && storage.users == old(storage.users)
      ensures (name != "" && email != "" && password != ""
               && forall i :: 0 <= i < |old(storage.users)| ==> old(storage.users)[i].email != email) ==>
                outcome == Registered && storage.users == old(storage.users) + [User(name, email, password, role)]
    {
      if name != "" && email != "" && password != "" {
        var existing := FindByEmail(storage.users, email);
        if existing.Some? {
          return DuplicateEmail;
        }
        var u := User(name, email, password, role);
        RegisterKeepsEmailsDistinct(storage.users, u);
        storage.users := storage.users + [u];
        outcome := Registered;
      } else {
        outcome := MissingFields;
      }
    }
  }
}
